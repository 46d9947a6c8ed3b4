/** The older player controller: the same input latch, but the force
    multiplier and the drag are chosen from the sliding flag alone, with no
    movement states. */
module LegacyPlayer {
  import opened InputLatch
  import MovementRules
  import PlayerStates

  /** The older controller's serialized tuning values, opaque to the model;
      `neutral` stands for the unscaled force (multiplier 1). */
  datatype LegacyTuning<T> = LegacyTuning(neutral: T, slideMultiplier: T, slideDrag: T, groundDrag: T)

  /** The multiplier applied to the movement force: the slide multiplier
      while sliding, unscaled otherwise. */
  function LegacyForceMultiplier<T>(isSliding: bool, t: LegacyTuning<T>): (r: T)
    ensures isSliding ==> r == t.slideMultiplier
    ensures !isSliding ==> r == t.neutral
  {
    if isSliding then t.slideMultiplier else t.neutral
  }

  /** The damping, chosen from the sliding flag alone and never from the
      damping held before: slide drag while sliding, ground drag otherwise. */
  function LegacyDrag<T>(isSliding: bool, t: LegacyTuning<T>): (r: T)
    ensures isSliding ==> r == t.slideDrag
    ensures !isSliding ==> r == t.groundDrag
  {
    if isSliding then t.slideDrag else t.groundDrag
  }

  class PlayerController<T> {
    var isSliding: bool
    var canJump: bool
    var linearDamping: T
    const tuning: LegacyTuning<T>

    constructor (tuning: LegacyTuning<T>, isSliding: bool, canJump: bool, linearDamping: T)
      ensures this.tuning == tuning
      ensures this.isSliding == isSliding && this.canJump == canJump
      ensures this.linearDamping == linearDamping
    {
      this.tuning := tuning;
      this.isSliding := isSliding;
      this.canJump := canJump;
      this.linearDamping := linearDamping;
    }

    function LatchState(): Latch
      reads this
    {
      Latch(isSliding, canJump)
    }

    /** Same latch as the newer controller; `jumped` says whether the jump was started. */
    method SetInputs(keys: Keys, grounded: bool) returns (jumped: bool)
      modifies this`isSliding, this`canJump
      ensures LatchState() == Step(old(LatchState()), keys, grounded)
      ensures jumped == JumpFires(old(LatchState()), keys, grounded)
    {
      jumped := false;
      if keys.slideKeyDown {
        isSliding := true;
      } else if keys.movementKeyDown {
        isSliding := false;
      } else if keys.jumpKeyHeld && canJump && grounded {
        canJump := false;
        jumped := true;
      }
    }

    /** The multiplier applied to the movement force: the slide multiplier
        while sliding, unscaled otherwise. */
    method SetPlayerMovement() returns (forceMultiplier: T)
      ensures forceMultiplier == LegacyForceMultiplier(isSliding, tuning)
      ensures isSliding ==> forceMultiplier == tuning.slideMultiplier
      ensures !isSliding ==> forceMultiplier == tuning.neutral
    {
      if isSliding {
        forceMultiplier := tuning.slideMultiplier;
      } else {
        forceMultiplier := tuning.neutral;
      }
    }

    /** Always overwrites the damping: slide drag while sliding, ground drag otherwise. */
    method SetPlayerDrag()
      modifies this`linearDamping
      ensures linearDamping == LegacyDrag(isSliding, tuning)
    {
      if isSliding {
        linearDamping := tuning.slideDrag;
      } else {
        linearDamping := tuning.groundDrag;
      }
    }

    /** The end of the jump cooldown: permission comes back, nothing else changes. */
    method ResetPlayerJump()
      modifies this`canJump
      ensures canJump
    {
      canJump := true;
    }

    /** One Update: inputs, then drag from the sliding flag just latched. */
    method Update(keys: Keys, grounded: bool) returns (jumped: bool)
      modifies this`isSliding, this`canJump, this`linearDamping
      ensures LatchState() == Step(old(LatchState()), keys, grounded)
      ensures jumped == JumpFires(old(LatchState()), keys, grounded)
      ensures linearDamping == LegacyDrag(isSliding, tuning)
      // the damping no longer depends on what it was before the frame
      ensures linearDamping == tuning.slideDrag || linearDamping == tuning.groundDrag
    {
      jumped := SetInputs(keys, grounded);
      SetPlayerDrag();
    }
  }

  /** The newer controller's tuning read with the older controller's values
      for the entries they share. */
  function Extend<T>(t: LegacyTuning<T>, airMultiplier: T, airDrag: T): MovementRules.Tuning<T>
  {
    MovementRules.Tuning(t.neutral, t.slideMultiplier, airMultiplier, t.groundDrag, t.slideDrag, airDrag)
  }

  /** On a grounded frame with a non-zero direction the newer controller's
      state-based choice agrees with the older one's sliding-based choice;
      the two part ways only when the direction is zero (the newer keeps the
      damping) or in the air (the newer uses the air values). */
  lemma AgreesOnGroundedMotion<T>(f: MovementRules.MotionFacts, current: PlayerStates.PlayerState,
                                  t: LegacyTuning<T>, airMultiplier: T, airDrag: T, damping: T)
    requires f.isGrounded && !f.directionIsZero
    ensures MovementRules.ForceMultiplier(MovementRules.Classify(f, current), Extend(t, airMultiplier, airDrag))
            == LegacyForceMultiplier(f.isSliding, t)
    ensures MovementRules.Drag(MovementRules.Classify(f, current), Extend(t, airMultiplier, airDrag), damping)
            == LegacyDrag(f.isSliding, t)
  {
  }
}
