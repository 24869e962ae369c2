# OSBot Native Fisher: a Dafny model of the tick controller

The script runs inside a game-automation client. The host calls `on_loop`
over and over. Each call looks at what the host reports and picks one
action. Going down a fixed priority list, it waits while the user edits the
configuration, drops the raw fish when the inventory is full, has an idle
player interact with a fishing spot, or reports "Fishing" while the player
is busy. It returns how long the host should wait before the next call.
Beside this sit the default configuration, the progress record and its
status label, `on_start`, two buttons in the panel that switch editing
mode, and the "experience gained" figure.

The model has four modules:

- `Int32Arith` (`int32.dfy`): Rust's `i32` and wrapping addition and
  subtraction.
- `OsbotApi` (`osbot_api.dfy`): the host interface, as values. An
  `Observation` is the host's answers during one tick: inventory full, the
  local player with its moving and animating flags, spot found, and whether
  the interaction succeeded. A `HostCall` is one call into the host: three
  queries and three actions, with their arguments.
- `Fisher` (`fisher.dfy`): the `Configuration` and `Progress` records and
  `Decide`, the decision of one tick, whose contract is the whole decision
  table. It also holds the class `FishingScript`, whose two fields replace
  the two process-wide singletons. Its methods `SetStatus`, `OnStart`,
  `OnLoop` and `OnRender` update those fields in place. `OnLoop` is written
  step by step like the source and proved equal to `Decide`.
- `FisherRuns` (`fisher_runs.dfy`): repeated ticks with the configuration
  fixed. It proves that the starting experience never changes, how the
  status label follows the observations, and the sum of the re-poll delays
  the ticks return.

Two facts about the code shape the model:

- The second conditional sleep is passed the predicate `is_animating()`
  (`src/lib.rs:110`). The model records that predicate as
  `PlayerAnimating` and does not interpret it.
- `on_start` records no start time (`src/lib.rs:88-92`). Both start
  timestamps are taken when the progress record is first created
  (`src/lib.rs:59-65`). In the model they come from the clock value given
  to the constructor.

## Model

| member | source | states |
|---|---|---|
| Fisher.DefaultConfiguration | src/lib.rs:32-40 | the default configuration is action "Net", name "Fishing spot", editing on |
| Fisher.InitialProgress | src/lib.rs:59-65 | a new progress record has start experience 0, an empty status and the clock at creation as its start time |
| Fisher.FishingScript.constructor | src/lib.rs:54-79 | the two singletons start as the default configuration and the initial progress |
| Fisher.FishingScript.SetStatus | src/lib.rs:49-51 | only the status label is overwritten; start time and start experience stay |
| Fisher.FishingScript.OnStart | src/lib.rs:88-92 | start experience becomes the current experience and the status becomes "Started"; the start time stays |
| Fisher.Decide | src/lib.rs:94-120 | while editing: delay 1000, no host call, no status change. Otherwise: delay 100 and the inventory query first. Full inventory: status "Dropping" and exactly one drop of ids [317, 321, 335, 331, 359, 371], whatever the player state, with no player lookup. "Interacting" is set exactly when the inventory is not full, the player is present and idle, and a spot was found; then the configured verb is used, and both sleeps (6000/100, then 3000/100) follow only if the interaction succeeded. "Fishing" is set exactly when the player is moving or animating, with no drop or interaction. The status is left alone, with no action, exactly when there is no player or no spot was found |
| Fisher.NextProgress | src/lib.rs:99-117 | a tick changes the status only, to the label it sets, and leaves the progress as it was when it sets none |
| Fisher.FishingScript.OnLoop | src/lib.rs:94-120 | the in-place tick returns the delay and host calls of `Decide`, updates the progress as `NextProgress` says, and leaves the configuration unchanged |
| Fisher.ExpGained | src/lib.rs:143 | adding the gain back to the start experience in `i32` gives the current experience; for a counter at or above a non-negative start it is the plain difference and non-negative |
| Fisher.ExpGainedMonotonic | src/lib.rs:143 | for a well-behaved counter, more experience never shows a smaller gain |
| Fisher.FishingScript.OnRender | src/lib.rs:122-153 | while editing, the text fields set the two strings and "Complete" turns editing off; otherwise the panel shows the status and `ExpGained`, and "Edit configuration" turns editing on; the two strings are kept across both switches |
| Int32Arith.WrappingSub | src/lib.rs:143 | `i32` subtraction gives the exact difference when it fits, and otherwise a value congruent to it modulo 2^32 |
| Int32Arith.AddUndoesSub | src/lib.rs:143 | wrapping addition undoes wrapping subtraction for all `i32` inputs |
| FisherRuns.Run | src/lib.rs:94-120 | over any run of ticks, start experience and start time never change, and the status is the old one or one of the three labels a tick sets |
| FisherRuns.TotalDelay | src/lib.rs:94-120 | the re-poll delays returned over n ticks add up to n × 1000 while editing and n × 100 otherwise; time spent blocked inside a tick is not part of this sum |
| FisherRuns.RunStatusIsLastStatus | src/lib.rs:99-117 | after a run the status is the label of the last tick that set one; the earlier status survives only if no tick set any |
| FisherRuns.EditingRunIsInert | src/lib.rs:95-97 | while editing, no number of ticks changes the progress |
| FisherRuns.RunAppend | src/lib.rs:94-120 | running two stretches of ticks one after the other is the same as running them joined |
| FisherRuns.DropAfterAnyHistory | src/lib.rs:99-101 | after any history, a tick that sees a full inventory leaves the status "Dropping" |

## Left out

- Host API implementations are foreign code that cannot be seen. This
  covers NPC lookup, local-player lookup, inventory full check and drop,
  skill experience and `interact`. Their answers are fields of
  `Observation` or arguments, and the model records only the calls.
- The waiting done by `utils_sleep_conditional` is host behaviour. The
  model records each call's timeout, poll interval and predicate, not
  the waiting. So the player's state changing during the sleeps is not
  modelled either.
- The player's `is_moving` and `is_animating` queries are not recorded as
  separate host calls in the model. Their answers are folded into the
  `Player` record of the observation.
- `Fisher.ExpGained`: follows the release build, where `i32` subtraction
  wraps. A debug build would panic on overflow, and the model does not
  capture that.
- The runtime display, `utils_format_runtime` and `utils_calculate_per_hour`
  are left out. They read the monotonic `Instant` and host utilities, and
  the per-hour rate is not defined in this code. For the same reason the
  `Instant` start time is left out of `Progress`.
- Panel layout (heading, columns, labels, spacing) is UI rendering. Only
  the effects of the text fields and the two buttons on the configuration
  are kept, plus the status and gain the live view shows.
- The lazy `static mut` initialisation is replaced by fields set in the
  constructor, with the same initial values.
- The metadata descriptor's constant strings are left out.
- The unused `web_walking_traverse` import is left out. It is never called.
- Concurrency is not modelled. The host calls `on_loop` and `on_render`
  one at a time, and the model takes that as given.
