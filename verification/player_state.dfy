/**
 * The character's discrete movement state (Assets/Scripts/PlayerState.cs).
 */
module States {

  /** The engine enum EPlayerMovementState, with the six members the code names. */
  datatype MovementState = Idling | Walking | Running | Sprinting | Jumping | Falling

  /** The grounded category of a movement state. */
  predicate IsGroundedState(s: MovementState)
  {
    s == Idling || s == Running || s == Sprinting || s == Walking
  }

  /** Grounded is exactly "not airborne": only Jumping and Falling are outside. */
  lemma GroundedIffNotAirborne(s: MovementState)
    ensures IsGroundedState(s) <==> !(s == Jumping || s == Falling)
  {
  }

  /** The component that holds the current movement state. */
  class PlayerState {
    var currentPlayerMovementState: MovementState

    /** A new character starts Idling. */
    constructor ()
      ensures currentPlayerMovementState == Idling
    {
      currentPlayerMovementState := Idling;
    }

    /** Overwrites the state; setting the state already held changes nothing,
        so a second identical call is a no-op. */
    method SetPlayerMovementState(movementState: MovementState)
      modifies this`currentPlayerMovementState
      ensures currentPlayerMovementState == movementState
      ensures old(currentPlayerMovementState) == movementState ==> unchanged(this)
    {
      currentPlayerMovementState := movementState;
    }

    /** Read-only query: whether the current state is in the grounded category. */
    predicate IsInGroundedState()
      reads this
      ensures IsInGroundedState() <==>
        !(currentPlayerMovementState == Jumping || currentPlayerMovementState == Falling)
    {
      IsGroundedState(currentPlayerMovementState)
    }
  }
}
