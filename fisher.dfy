/** The fishing script: its configuration and progress, the per-tick
    decision of `on_loop`, and the lifecycle and panel handlers that update
    the two in place. */
module Fisher {
  import opened Int32Arith
  import opened OsbotApi

  /** The user-editable configuration. */
  datatype Configuration = Configuration(spotAction: string, spotName: string, editing: bool)

  /** Run progress. The monotonic start instant is not modelled; the
      wall-clock start is the host's millisecond clock (a `u128`). */
  datatype Progress = Progress(startTimeMs: nat, startExp: Int32, status: string)

  const Started: string := "Started"
  const Dropping: string := "Dropping"
  const Interacting: string := "Interacting"
  const Fishing: string := "Fishing"

  /** The status labels a tick may set. */
  const TickLabels: set<string> := {Dropping, Interacting, Fishing}

  /** Item ids of the raw fish dropped when the inventory is full:
      shrimps, anchovies, trout, salmon, tuna, swordfish. */
  const FishIds: seq<int> := [317, 321, 335, 331, 359, 371]

  const EditingDelayMs: Int32 := 1000
  const ActiveDelayMs: Int32 := 100

  /** The two conditional sleeps requested after a successful interaction:
      6000 ms with the predicate "moving or animating", then 3000 ms with
      the predicate "animating", both polled every 100 ms. */
  const SleepsAfterInteraction: seq<HostCall> :=
    [SleepConditional(6000, 100, PlayerMovingOrAnimating),
     SleepConditional(3000, 100, PlayerAnimating)]

  function DefaultConfiguration(): (c: Configuration)
    ensures c.spotAction == "Net" && c.spotName == "Fishing spot"
    ensures c.editing
  {
    Configuration("Net", "Fishing spot", true)
  }

  /** The progress created on first access, given the clock at that moment. */
  function InitialProgress(nowMs: nat): (p: Progress)
    ensures p.startTimeMs == nowMs
    ensures p.startExp == 0 && p.status == ""
  {
    Progress(nowMs, 0, "")
  }

  /** What one call of `on_loop` does: the delay it returns, the status it
      sets (None when it leaves the status alone) and its host calls. */
  datatype Tick = Tick(delay: Int32, newStatus: Option<string>, calls: seq<HostCall>)

  /** The decision of one tick, in the source's branch order. */
  function Decide(c: Configuration, obs: Observation): (t: Tick)
    // Editing guard: nothing is queried or done, and the delay is 1000 ms.
    ensures c.editing <==> t.delay == EditingDelayMs
    ensures c.editing ==> t.newStatus == None && t.calls == []
    // Otherwise the delay is always 100 ms and the inventory is asked first.
    ensures !c.editing ==> t.delay == ActiveDelayMs && |t.calls| > 0 && t.calls[0] == InventoryIsFull
    // Full inventory: one drop of exactly the fish ids, whatever the player does.
    ensures !c.editing && obs.inventoryFull ==>
      t.newStatus == Some(Dropping) && t.calls == [InventoryIsFull, DropAllById(FishIds)]
    ensures (exists ids :: DropAllById(ids) in t.calls) <==> !c.editing && obs.inventoryFull
    // Idle player and a spot found: interact with the configured verb, and
    // sleep afterwards only if the interaction succeeded.
    ensures t.newStatus == Some(Interacting) <==>
      !c.editing && !obs.inventoryFull && IsIdle(obs.localPlayer) && obs.spotFound
    ensures t.newStatus == Some(Interacting) ==>
      t.calls == [InventoryIsFull, GetLocalPlayer, FindClosestNpcByName(c.spotName), Interact(c.spotAction)]
                 + (if obs.interactionSucceeds then SleepsAfterInteraction else [])
    ensures (exists a :: Interact(a) in t.calls) <==> t.newStatus == Some(Interacting)
    // Busy player: status "Fishing" and nothing else.
    ensures t.newStatus == Some(Fishing) <==> !c.editing && !obs.inventoryFull && IsBusy(obs.localPlayer)
    ensures t.newStatus == Some(Fishing) ==> t.calls == [InventoryIsFull, GetLocalPlayer]
    // No player, or an idle player and no spot: status untouched, no action.
    ensures t.newStatus == None <==>
      c.editing || (!obs.inventoryFull && (obs.localPlayer.None? || (IsIdle(obs.localPlayer) && !obs.spotFound)))
    ensures !c.editing && t.newStatus == None ==>
      t.calls == [InventoryIsFull, GetLocalPlayer] + (if obs.localPlayer.Some? then [FindClosestNpcByName(c.spotName)] else [])
  {
    if c.editing then
      Tick(EditingDelayMs, None, [])
    else if obs.inventoryFull then
      Tick(ActiveDelayMs, Some(Dropping), [InventoryIsFull, DropAllById(FishIds)])
    else
      match obs.localPlayer
      case None => Tick(ActiveDelayMs, None, [InventoryIsFull, GetLocalPlayer])
      case Some(player) =>
        if !player.moving && !player.animating then
          var lookup := [InventoryIsFull, GetLocalPlayer, FindClosestNpcByName(c.spotName)];
          if !obs.spotFound then
            Tick(ActiveDelayMs, None, lookup)
          else if obs.interactionSucceeds then
            Tick(ActiveDelayMs, Some(Interacting), lookup + [Interact(c.spotAction)] + SleepsAfterInteraction)
          else
            Tick(ActiveDelayMs, Some(Interacting), lookup + [Interact(c.spotAction)])
        else
          Tick(ActiveDelayMs, Some(Fishing), [InventoryIsFull, GetLocalPlayer])
  }

  /** The progress after one tick: only the status may change, and only to
      the label the tick sets. */
  function NextProgress(c: Configuration, p: Progress, obs: Observation): (q: Progress)
    ensures q.startTimeMs == p.startTimeMs && q.startExp == p.startExp
    ensures q.status == p.status || q.status in TickLabels
    ensures Decide(c, obs).newStatus.Some? ==> q.status == Decide(c, obs).newStatus.value
    ensures Decide(c, obs).newStatus.None? ==> q == p
  {
    match Decide(c, obs).newStatus
    case None => p
    case Some(s) => p.(status := s)
  }

  /** Experience gained since the start: `i32` subtraction, wrapping. For a
      well-behaved skill counter (never below the start value, never
      negative) it is the plain difference and non-negative. */
  function ExpGained(currentExp: Int32, startExp: Int32): (gained: Int32)
    ensures 0 <= startExp <= currentExp ==> gained == currentExp - startExp && gained >= 0
    ensures WrappingAdd(startExp, gained) == currentExp
  {
    AddUndoesSub(currentExp, startExp);
    WrappingSub(currentExp, startExp)
  }

  /** For a well-behaved counter, more experience never shows less gained. */
  lemma ExpGainedMonotonic(startExp: Int32, exp1: Int32, exp2: Int32)
    requires 0 <= startExp <= exp1 <= exp2
    ensures 0 <= ExpGained(exp1, startExp) <= ExpGained(exp2, startExp)
  {
  }

  /** What the panel shows in one frame. */
  datatype Panel =
    | EditingPanel(spotAction: string, spotName: string)
    | LivePanel(status: string, expGained: Int32)

  /** The user's input in one frame: what was typed into the two text
      fields (None when untouched) and which button was clicked. */
  datatype UiInput = UiInput(
    spotActionEdit: Option<string>,
    spotNameEdit: Option<string>,
    completeClicked: bool,
    editClicked: bool)

  function Edited(current: string, edit: Option<string>): string {
    match edit
    case None => current
    case Some(text) => text
  }

  /** The script with its two process-wide singletons as fields. */
  class FishingScript {
    var configuration: Configuration
    var progress: Progress

    /** Loading the script: both singletons take their initial values;
        `nowMs` is the host clock when the progress is first created. */
    constructor (nowMs: nat)
      ensures configuration == DefaultConfiguration()
      ensures progress == InitialProgress(nowMs)
    {
      configuration := DefaultConfiguration();
      progress := InitialProgress(nowMs);
    }

    /** Overwrites the status label and nothing else. */
    method SetStatus(status: string)
      modifies this`progress
      ensures progress == old(progress).(status := status)
    {
      progress := progress.(status := status);
    }

    /** Run start: snapshot the current experience, then report "Started". */
    method OnStart(currentExp: Int32)
      modifies this`progress
      ensures progress.startExp == currentExp && progress.status == Started
      ensures progress.startTimeMs == old(progress.startTimeMs)
    {
      progress := progress.(startExp := currentExp);
      SetStatus(Started);
    }

    /** One tick of the controller, answering each host query from `obs`. */
    method OnLoop(obs: Observation) returns (delay: Int32, calls: seq<HostCall>)
      modifies this`progress
      ensures configuration == old(configuration)
      ensures delay == Decide(configuration, obs).delay
      ensures calls == Decide(configuration, obs).calls
      ensures progress == NextProgress(configuration, old(progress), obs)
    {
      if configuration.editing {
        return EditingDelayMs, [];
      }

      calls := [InventoryIsFull];
      if obs.inventoryFull {
        SetStatus(Dropping);
        calls := calls + [DropAllById(FishIds)];
      } else {
        calls := calls + [GetLocalPlayer];
        if obs.localPlayer.Some? {
          var player := obs.localPlayer.value;
          if !player.moving && !player.animating {
            calls := calls + [FindClosestNpcByName(configuration.spotName)];
            if obs.spotFound {
              SetStatus(Interacting);
              calls := calls + [Interact(configuration.spotAction)];
              if obs.interactionSucceeds {
                calls := calls + SleepsAfterInteraction;
              }
            }
          } else {
            SetStatus(Fishing);
          }
        }
      }
      delay := ActiveDelayMs;
    }

    /** One frame of the panel. While editing, the text fields write the
        configuration strings and "Complete" ends editing; otherwise the
        live view shows status and experience gained, and "Edit
        configuration" resumes editing. */
    method OnRender(ui: UiInput, currentExp: Int32) returns (panel: Panel)
      modifies this`configuration
      ensures old(configuration.editing) ==>
        configuration == Configuration(
          Edited(old(configuration.spotAction), ui.spotActionEdit),
          Edited(old(configuration.spotName), ui.spotNameEdit),
          !ui.completeClicked)
        && panel == EditingPanel(configuration.spotAction, configuration.spotName)
      ensures !old(configuration.editing) ==>
        configuration == old(configuration).(editing := ui.editClicked)
        && panel == LivePanel(progress.status, ExpGained(currentExp, progress.startExp))
    {
      if configuration.editing {
        configuration := configuration.(spotAction := Edited(configuration.spotAction, ui.spotActionEdit));
        configuration := configuration.(spotName := Edited(configuration.spotName, ui.spotNameEdit));
        panel := EditingPanel(configuration.spotAction, configuration.spotName);
        if ui.completeClicked {
          configuration := configuration.(editing := false);
        }
      } else {
        var gained := ExpGained(currentExp, progress.startExp);
        panel := LivePanel(progress.status, gained);
        if ui.editClicked {
          configuration := configuration.(editing := true);
        }
      }
    }
  }
}
