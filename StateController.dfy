/** The single-cell holder of the current movement state. */
module StateControl {
  import opened PlayerStates

  class StateController {
    var currentPlayerState: PlayerState

    /** A fresh component holds the enum's default value, whatever that is,
        until Start runs. */
    constructor (defaultState: PlayerState)
      ensures currentPlayerState == defaultState
    {
      currentPlayerState := defaultState;
    }

    /** Start puts the holder into Idle. */
    method Start()
      modifies this
      ensures currentPlayerState == Idle
    {
      ChangeState(Idle);
    }

    /** Replaces the held state; asking for the state already held changes nothing. */
    method ChangeState(newPlayerState: PlayerState)
      modifies this
      ensures currentPlayerState == newPlayerState
      ensures old(currentPlayerState) == newPlayerState ==> unchanged(this)
    {
      if currentPlayerState == newPlayerState {
        return;
      }
      currentPlayerState := newPlayerState;
    }

    /** Reading the state leaves it alone (the method modifies nothing). */
    method GetCurrentState() returns (s: PlayerState)
      ensures s == currentPlayerState
    {
      s := currentPlayerState;
    }
  }
}
