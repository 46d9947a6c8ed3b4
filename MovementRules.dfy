/** The newer controller's per-frame decision logic: the movement-state
    classification rule and the two lookup tables that consume its result. */
module MovementRules {
  import opened PlayerStates

  /** What the classifier is told each frame. The movement vector is reduced
      to whether it is the zero vector; grounded comes from the ground probe;
      sliding and jump permission are the controller's latched flags. */
  datatype MotionFacts = MotionFacts(directionIsZero: bool, isGrounded: bool, isSliding: bool, canJump: bool)

  /** Airborne with jump permission already restored: no rule matches. */
  predicate FallsThrough(f: MotionFacts)
  {
    !f.isGrounded && f.canJump
  }

  /** The priority-ordered, first-match-wins classification rule. */
  function Classify(f: MotionFacts, current: PlayerState): (next: PlayerState)
    // on the ground the result depends on direction and sliding alone
    ensures f.isGrounded ==> next != Jump
    ensures f.isGrounded ==> ((next == Idle || next == SlideIdle) <==> f.directionIsZero)
    ensures f.isGrounded ==> ((next == SlideIdle || next == Slide) <==> f.isSliding)
    // in the air the state is Jump or the one held before
    ensures !f.isGrounded ==> next == Jump || next == current
    ensures next == Jump <==> !f.isGrounded && (!f.canJump || current == Jump)
    ensures FallsThrough(f) ==> next == current
  {
    if f.directionIsZero && f.isGrounded && !f.isSliding then Idle
    else if !f.directionIsZero && f.isGrounded && !f.isSliding then Move
    else if f.directionIsZero && f.isGrounded && f.isSliding then SlideIdle
    else if !f.directionIsZero && f.isGrounded && f.isSliding then Slide
    else if !f.canJump && !f.isGrounded then Jump
    else current
  }

  /** The four grounded cases, each independent of the state held before. */
  lemma GroundedRules(f: MotionFacts, current: PlayerState)
    requires f.isGrounded
    ensures !f.isSliding && f.directionIsZero ==> Classify(f, current) == Idle
    ensures !f.isSliding && !f.directionIsZero ==> Classify(f, current) == Move
    ensures f.isSliding && f.directionIsZero ==> Classify(f, current) == SlideIdle
    ensures f.isSliding && !f.directionIsZero ==> Classify(f, current) == Slide
  {
  }

  /** The classifier applied frame after frame, each result becoming the
      state held for the next frame. */
  function ClassifyRun(current: PlayerState, frames: seq<MotionFacts>): PlayerState
    decreases |frames|
  {
    if frames == [] then current else ClassifyRun(Classify(frames[0], current), frames[1..])
  }

  /** While airborne the state can only be the one held at take-off or Jump;
      once Jump, it stays Jump until landing; and one frame without jump
      permission is enough to reach Jump. */
  lemma {:induction false} JumpPersistsWhileAirborne(current: PlayerState, frames: seq<MotionFacts>)
    requires forall i :: 0 <= i < |frames| ==> !frames[i].isGrounded
    ensures ClassifyRun(current, frames) == current || ClassifyRun(current, frames) == Jump
    ensures current == Jump ==> ClassifyRun(current, frames) == Jump
    ensures (exists i :: 0 <= i < |frames| && !frames[i].canJump) ==> ClassifyRun(current, frames) == Jump
    decreases |frames|
  {
    if frames != [] {
      var next := Classify(frames[0], current);
      var rest := frames[1..];
      assert forall i :: 0 <= i < |rest| ==> rest[i] == frames[i + 1];
      JumpPersistsWhileAirborne(next, rest);
      if exists i :: 0 <= i < |frames| && !frames[i].canJump {
        var i :| 0 <= i < |frames| && !frames[i].canJump;
        if i > 0 {
          assert !rest[i - 1].canJump;
        }
      }
    }
  }

  /** A single grounded frame erases the history: from then on the state
      no longer depends on the state held before the run. */
  lemma {:induction false} LandingForgetsHistory(p: PlayerState, q: PlayerState, frames: seq<MotionFacts>)
    requires exists i :: 0 <= i < |frames| && frames[i].isGrounded
    ensures ClassifyRun(p, frames) == ClassifyRun(q, frames)
    decreases |frames|
  {
    var i :| 0 <= i < |frames| && frames[i].isGrounded;
    var rest := frames[1..];
    if frames[0].isGrounded {
      assert Classify(frames[0], p) == Classify(frames[0], q);
    } else {
      assert rest[i - 1] == frames[i];
      LandingForgetsHistory(Classify(frames[0], p), Classify(frames[0], q), rest);
    }
  }

  /** The serialized tuning values, opaque to the model. `neutral` stands for
      the literal multiplier 1 the controller uses when nothing scales the force. */
  datatype Tuning<T> = Tuning(neutral: T, slideMultiplier: T, airMultiplier: T,
                              groundDrag: T, slideDrag: T, airDrag: T)

  /** The multiplier table: the slide and air multipliers for Slide and Jump,
      the neutral multiplier for every other state. */
  function ForceMultiplier<T>(s: PlayerState, t: Tuning<T>): (r: T)
    ensures s == Slide ==> r == t.slideMultiplier
    ensures s == Jump ==> r == t.airMultiplier
    ensures s != Slide && s != Jump ==> r == t.neutral
  {
    match s
    case Move => t.neutral
    case Slide => t.slideMultiplier
    case Jump => t.airMultiplier
    case _ => t.neutral
  }

  /** The drag table, given the rigidbody's current damping: Move, Slide and
      Jump overwrite it with their tuning value, Idle and SlideIdle keep it. */
  function Drag<T>(s: PlayerState, t: Tuning<T>, damping: T): (r: T)
    ensures s == Move ==> r == t.groundDrag
    ensures s == Slide ==> r == t.slideDrag
    ensures s == Jump ==> r == t.airDrag
    ensures s == Idle || s == SlideIdle ==> r == damping
  {
    match s
    case Move => t.groundDrag
    case Slide => t.slideDrag
    case Jump => t.airDrag
    case _ => damping
  }

  /** What one frame's facts mean for the force and the damping. */
  lemma TablesAfterClassify<T>(f: MotionFacts, current: PlayerState, t: Tuning<T>, d: T)
    ensures f.isGrounded && f.directionIsZero ==>
      ForceMultiplier(Classify(f, current), t) == t.neutral && Drag(Classify(f, current), t, d) == d
    ensures f.isGrounded && !f.directionIsZero && !f.isSliding ==>
      ForceMultiplier(Classify(f, current), t) == t.neutral && Drag(Classify(f, current), t, d) == t.groundDrag
    ensures f.isGrounded && !f.directionIsZero && f.isSliding ==>
      ForceMultiplier(Classify(f, current), t) == t.slideMultiplier && Drag(Classify(f, current), t, d) == t.slideDrag
    ensures !f.isGrounded && !f.canJump ==>
      ForceMultiplier(Classify(f, current), t) == t.airMultiplier && Drag(Classify(f, current), t, d) == t.airDrag
    ensures FallsThrough(f) ==>
      ForceMultiplier(Classify(f, current), t) == ForceMultiplier(current, t)
      && Drag(Classify(f, current), t, d) == Drag(current, t, d)
  {
  }
}
