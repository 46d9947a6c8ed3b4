/** The input latch both player controllers share: the sliding flag and the
    jump permission, driven by the key edges of one frame and the ground probe,
    with the jump cooldown's expiry as a separate event. */
module InputLatch {

  /** One frame's keyboard facts: edges (pressed this frame) for the slide and
      movement keys, a level (held) for the jump key. */
  datatype Keys = Keys(slideKeyDown: bool, movementKeyDown: bool, jumpKeyHeld: bool)

  /** The two latched flags. */
  datatype Latch = Latch(isSliding: bool, canJump: bool)

  /** The jump branch is reached and taken: no key edge, jump key held,
      permission held, and standing on the ground. */
  predicate JumpFires(l: Latch, k: Keys, grounded: bool)
  {
    !k.slideKeyDown && !k.movementKeyDown && k.jumpKeyHeld && l.canJump && grounded
  }

  /** One frame of the latch: slide edge, else movement edge, else jump. */
  function Step(l: Latch, k: Keys, grounded: bool): (r: Latch)
    // a slide edge always latches sliding, whatever else was pressed
    ensures k.slideKeyDown ==> r.isSliding
    // a movement edge clears it only when no slide edge came the same frame
    ensures k.movementKeyDown ==> r.isSliding == k.slideKeyDown
    // sliding changes only on a key edge
    ensures r.isSliding != l.isSliding ==> k.slideKeyDown || k.movementKeyDown
    // a frame can take jump permission away but never give it back
    ensures r.canJump ==> l.canJump
    ensures r.canJump != l.canJump <==> JumpFires(l, k, grounded)
    // the jump leaves sliding alone
    ensures JumpFires(l, k, grounded) ==> r.isSliding == l.isSliding
  {
    if k.slideKeyDown then l.(isSliding := true)
    else if k.movementKeyDown then l.(isSliding := false)
    else if k.jumpKeyHeld && l.canJump && grounded then l.(canJump := false)
    else l
  }

  /** The cooldown has expired: permission is restored and nothing else moves. */
  function ResetJump(l: Latch): (r: Latch)
    ensures r.canJump
    ensures r.isSliding == l.isSliding
  {
    l.(canJump := true)
  }

  /** What can happen to the latch: a frame of input, or the expiry of the
      jump cooldown (its timing is not modelled). */
  datatype Event = Frame(keys: Keys, grounded: bool) | CooldownExpired

  function Apply(l: Latch, e: Event): Latch
  {
    match e
    case Frame(k, g) => Step(l, k, g)
    case CooldownExpired => ResetJump(l)
  }

  predicate Jumped(l: Latch, e: Event)
  {
    e.Frame? && JumpFires(l, e.keys, e.grounded)
  }

  /** The latch after a sequence of events, applied first to last. */
  function Run(l: Latch, events: seq<Event>): Latch
    decreases |events|
  {
    if events == [] then l else Run(Apply(l, events[0]), events[1..])
  }

  /** How many jumps fire along a sequence of events. */
  function Jumps(l: Latch, events: seq<Event>): nat
    decreases |events|
  {
    if events == [] then 0
    else (if Jumped(l, events[0]) then 1 else 0) + Jumps(Apply(l, events[0]), events[1..])
  }

  /** How many cooldown expiries a sequence of events holds. */
  function Expiries(events: seq<Event>): nat
  {
    if events == [] then 0
    else (if events[0].CooldownExpired? then 1 else 0) + Expiries(events[1..])
  }

  function Count(b: bool): nat
  {
    if b then 1 else 0
  }

  /** Every jump uses up the permission, and only a cooldown expiry restores it:
      the jumps fired plus the permission left at the end never exceed the
      expiries plus the permission held at the start. In particular, without an
      expiry in between, at most one jump fires. */
  lemma {:induction false} JumpsNeedExpiries(l: Latch, events: seq<Event>)
    ensures Jumps(l, events) + Count(Run(l, events).canJump) <= Expiries(events) + Count(l.canJump)
    ensures Expiries(events) == 0 ==> Jumps(l, events) <= 1
    ensures Expiries(events) == 0 && !l.canJump ==> Jumps(l, events) == 0
    decreases |events|
  {
    if events != [] {
      JumpsNeedExpiries(Apply(l, events[0]), events[1..]);
    }
  }

  /** Sliding moves only on slide or movement key edges: neither jumps nor
      cooldown expiries nor the ground touch it. */
  lemma {:induction false} SlidingFollowsKeys(l: Latch, events: seq<Event>)
    requires forall i :: 0 <= i < |events| && events[i].Frame? ==>
      !events[i].keys.slideKeyDown && !events[i].keys.movementKeyDown
    ensures Run(l, events).isSliding == l.isSliding
    decreases |events|
  {
    if events != [] {
      var rest := events[1..];
      assert forall i :: 0 <= i < |rest| ==> rest[i] == events[i + 1];
      SlidingFollowsKeys(Apply(l, events[0]), rest);
    }
  }
}
