/** The part of the host client's API that the script consumes, as values:
    what the host answers to its queries, and the calls the script makes. */
module OsbotApi {

  datatype Option<T> = None | Some(value: T)

  /** The local player as the script sees it during one tick. */
  datatype Player = Player(moving: bool, animating: bool)

  /** The host's answers during one tick: whether the inventory is full,
      the local player (absent before login, say), whether a fishing spot
      with the configured name was found nearby, and whether interacting
      with it reported success. */
  datatype Observation = Observation(
    inventoryFull: bool,
    localPlayer: Option<Player>,
    spotFound: bool,
    interactionSucceeds: bool)

  predicate IsIdle(p: Option<Player>) {
    p.Some? && !p.value.moving && !p.value.animating
  }

  predicate IsBusy(p: Option<Player>) {
    p.Some? && (p.value.moving || p.value.animating)
  }

  /** The predicate passed to a conditional sleep. */
  datatype SleepPredicate = PlayerMovingOrAnimating | PlayerAnimating

  /** One call from the script into the host, in the order made. */
  datatype HostCall =
    | InventoryIsFull
    | GetLocalPlayer
    | FindClosestNpcByName(name: string)
    | Interact(action: string)
    | DropAllById(ids: seq<int>)
    | SleepConditional(timeoutMs: int, pollMs: int, condition: SleepPredicate)
}
