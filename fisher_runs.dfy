/** Back-to-back calls of `on_loop` by the host scheduler, with the
    configuration fixed in between: what a run of ticks does to the
    progress, and the re-poll delays they return. */
module FisherRuns {
  import opened Int32Arith
  import opened OsbotApi
  import opened Fisher

  /** The progress after the host has called `on_loop` once per observation. */
  function Run(c: Configuration, p: Progress, ticks: seq<Observation>): (q: Progress)
    // The starting experience and start time are fixed once set; the
    // status is the old one or a label some tick set.
    ensures q.startExp == p.startExp && q.startTimeMs == p.startTimeMs
    ensures q.status == p.status || q.status in TickLabels
    decreases |ticks|
  {
    if ticks == [] then p else Run(c, NextProgress(c, p, ticks[0]), ticks[1..])
  }

  /** The sum of the re-poll delays returned over a run of ticks; time a
      tick spends blocked inside `on_loop` is not part of it. */
  function TotalDelay(c: Configuration, ticks: seq<Observation>): (ms: int)
    ensures ms == |ticks| * (if c.editing then 1000 else 100)
    decreases |ticks|
  {
    if ticks == [] then 0 else Decide(c, ticks[0]).delay + TotalDelay(c, ticks[1..])
  }

  /** The status set by the last tick of the run that sets one, if any. */
  function LastStatus(c: Configuration, ticks: seq<Observation>): Option<string>
    decreases |ticks|
  {
    if ticks == [] then None
    else match LastStatus(c, ticks[1..])
      case Some(s) => Some(s)
      case None => Decide(c, ticks[0]).newStatus
  }

  /** The status is decided by the observations alone: it is the label of
      the last tick that set one, and the status the run started with
      survives only when no tick set any. */
  lemma {:induction false} RunStatusIsLastStatus(c: Configuration, p: Progress, ticks: seq<Observation>)
    ensures Run(c, p, ticks).status == match LastStatus(c, ticks) case Some(s) => s case None => p.status
    decreases |ticks|
  {
    if ticks != [] {
      RunStatusIsLastStatus(c, NextProgress(c, p, ticks[0]), ticks[1..]);
    }
  }

  /** While editing, no number of ticks changes the progress. */
  lemma {:induction false} EditingRunIsInert(c: Configuration, p: Progress, ticks: seq<Observation>)
    requires c.editing
    ensures Run(c, p, ticks) == p
    decreases |ticks|
  {
    if ticks != [] {
      EditingRunIsInert(c, p, ticks[1..]);
    }
  }

  /** Running two stretches of ticks is running their concatenation. */
  lemma {:induction false} RunAppend(c: Configuration, p: Progress, a: seq<Observation>, b: seq<Observation>)
    ensures Run(c, p, a + b) == Run(c, Run(c, p, a), b)
    decreases |a|
  {
    if a == [] {
      assert a + b == b;
    } else {
      assert (a + b)[0] == a[0];
      assert (a + b)[1..] == a[1..] + b;
      RunAppend(c, NextProgress(c, p, a[0]), a[1..], b);
    }
  }

  /** However the run went before, a final tick that sees a full inventory
      (when not editing) leaves the status "Dropping". */
  lemma DropAfterAnyHistory(c: Configuration, p: Progress, history: seq<Observation>, last: Observation)
    requires !c.editing && last.inventoryFull
    ensures Run(c, p, history + [last]).status == Dropping
  {
    RunAppend(c, p, history, [last]);
    assert Run(c, Run(c, p, history), [last]) == NextProgress(c, Run(c, p, history), last);
  }
}
