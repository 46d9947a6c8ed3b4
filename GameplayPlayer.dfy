/** The newer player controller: the input latch, the movement-state
    classification written into the state holder, the drag and force
    selection by state, and the jump reset. Physics (forces, velocity
    clamping, the jump impulse) is reduced to the values the controller
    selects and to whether a jump fired. */
module GameplayPlayer {
  import opened PlayerStates
  import opened StateControl
  import opened MovementRules
  import opened InputLatch

  class PlayerController<T> {
    var isSliding: bool
    var canJump: bool
    /** The rigidbody's linear damping, written by SetPlayerDrag. */
    var linearDamping: T
    const tuning: Tuning<T>
    const stateController: StateController

    /** Wiring done by the scene: the serialized flags and tuning values, the
        rigidbody's initial damping and the sibling state holder. */
    constructor (tuning: Tuning<T>, stateController: StateController,
                 isSliding: bool, canJump: bool, linearDamping: T)
      ensures this.tuning == tuning && this.stateController == stateController
      ensures this.isSliding == isSliding && this.canJump == canJump
      ensures this.linearDamping == linearDamping
    {
      this.tuning := tuning;
      this.stateController := stateController;
      this.isSliding := isSliding;
      this.canJump := canJump;
      this.linearDamping := linearDamping;
    }

    function LatchState(): Latch
      reads this
    {
      Latch(isSliding, canJump)
    }

    /** The facts SetStates classifies, given this frame's direction and ground probe. */
    function Facts(directionIsZero: bool, grounded: bool): MotionFacts
      reads this
    {
      MotionFacts(directionIsZero, grounded, isSliding, canJump)
    }

    /** Reads the key edges and updates the latch; `jumped` says whether the
        jump (velocity reset, impulse, cooldown timer) was started. */
    method SetInputs(keys: Keys, grounded: bool) returns (jumped: bool)
      modifies this`isSliding, this`canJump
      ensures LatchState() == Step(old(LatchState()), keys, grounded)
      ensures jumped == JumpFires(old(LatchState()), keys, grounded)
    {
      jumped := false;
      if keys.slideKeyDown {
        isSliding := true;
      } else if keys.movementKeyDown {
        isSliding := false;
      } else if keys.jumpKeyHeld && canJump && grounded {
        canJump := false;
        jumped := true;
      }
    }

    /** Classifies the frame and stores the result, calling ChangeState only
        when the classification differs from the state held. */
    method SetStates(directionIsZero: bool, grounded: bool)
      modifies stateController
      ensures stateController.currentPlayerState
              == Classify(Facts(directionIsZero, grounded), old(stateController.currentPlayerState))
      ensures (Classify(Facts(directionIsZero, grounded), old(stateController.currentPlayerState))
               == old(stateController.currentPlayerState)) ==> unchanged(stateController)
    {
      var currentState := stateController.GetCurrentState();
      var newState := Classify(MotionFacts(directionIsZero, grounded, isSliding, canJump), currentState);
      if newState != currentState {
        stateController.ChangeState(newState);
      }
    }

    /** The force multiplier SetPlayerMovement scales the movement force by. */
    method SetPlayerMovement() returns (forceMultiplier: T)
      ensures forceMultiplier == ForceMultiplier(stateController.currentPlayerState, tuning)
    {
      var s := stateController.GetCurrentState();
      forceMultiplier := match s
        case Move => tuning.neutral
        case Slide => tuning.slideMultiplier
        case Jump => tuning.airMultiplier
        case _ => tuning.neutral;
    }

    /** Writes the damping for the current state; Idle and SlideIdle keep it. */
    method SetPlayerDrag()
      modifies this`linearDamping
      ensures linearDamping == Drag(stateController.currentPlayerState, tuning, old(linearDamping))
    {
      var s := stateController.GetCurrentState();
      linearDamping := match s
        case Move => tuning.groundDrag
        case Slide => tuning.slideDrag
        case Jump => tuning.airDrag
        case _ => linearDamping;
    }

    /** The end of the jump cooldown: permission comes back, nothing else changes. */
    method ResetPlayerJump()
      modifies this`canJump
      ensures canJump
    {
      canJump := true;
    }

    /** One Update: inputs, then states (seeing the flags SetInputs just
        wrote), then drag. The ground probe gives the same answer to both of
        its calls within the frame. */
    method Update(keys: Keys, grounded: bool, directionIsZero: bool) returns (jumped: bool)
      modifies this`isSliding, this`canJump, this`linearDamping, stateController
      ensures LatchState() == Step(old(LatchState()), keys, grounded)
      ensures jumped == JumpFires(old(LatchState()), keys, grounded)
      ensures stateController.currentPlayerState
              == Classify(Facts(directionIsZero, grounded), old(stateController.currentPlayerState))
      ensures linearDamping == Drag(stateController.currentPlayerState, tuning, old(linearDamping))
      // the frame a jump starts is still a grounded frame, never classified Jump
      ensures jumped ==> stateController.currentPlayerState != Jump
    {
      jumped := SetInputs(keys, grounded);
      SetStates(directionIsZero, grounded);
      SetPlayerDrag();
    }
  }
}
