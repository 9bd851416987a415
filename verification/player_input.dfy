/**
 * The input latch of Assets/Scripts/PlayerInput.cs: input-system callbacks
 * store the latest movement and look vectors and update the sprint, jump and
 * walk flags according to the phase of the triggering action.
 */
module Inputs {
  import opened Vectors

  /** The input system's InputActionPhase. A callback context is "performed"
      in phase Performed and "canceled" in phase Canceled. */
  datatype Phase = Disabled | Waiting | Started | Performed | Canceled

  /** What a callback receives: the action's phase and the value read from it. */
  datatype CallbackContext = CallbackContext(phase: Phase, value: Vec2)

  /** Phases on which the sprint callback acts. */
  predicate Decisive(p: Phase)
  {
    p == Performed || p == Canceled
  }

  /** The sprint flag after one sprint event. */
  function SprintAfter(holdToSprint: bool, phase: Phase, on: bool): bool
  {
    if phase == Performed then holdToSprint || !on
    else if phase == Canceled then !holdToSprint && on
    else on
  }

  /** The walk flag after one walk event. */
  function WalkAfter(phase: Phase, on: bool): bool
  {
    if phase == Performed then !on else on
  }

  /** The jump latch after one jump event. */
  function JumpAfter(phase: Phase, pressed: bool): bool
  {
    if phase == Performed then true else pressed
  }

  /** The sprint flag after a sequence of sprint events, oldest first. */
  function SprintAfterEvents(holdToSprint: bool, phases: seq<Phase>, on: bool): bool
  {
    if phases == [] then on
    else SprintAfter(holdToSprint, phases[|phases| - 1], SprintAfterEvents(holdToSprint, phases[..|phases| - 1], on))
  }

  /** The walk flag after a sequence of walk events, oldest first. */
  function WalkAfterEvents(phases: seq<Phase>, on: bool): bool
  {
    if phases == [] then on
    else WalkAfter(phases[|phases| - 1], WalkAfterEvents(phases[..|phases| - 1], on))
  }

  /** The jump latch after a sequence of jump events, oldest first. */
  function JumpAfterEvents(phases: seq<Phase>, pressed: bool): bool
  {
    if phases == [] then pressed
    else JumpAfter(phases[|phases| - 1], JumpAfterEvents(phases[..|phases| - 1], pressed))
  }

  /** Hold-to-sprint: performing sprints, canceling stops. */
  lemma SprintHoldMode(on: bool)
    ensures SprintAfter(true, Performed, on)
    ensures !SprintAfter(true, Canceled, on)
  {
  }

  /** Toggle mode: performing flips the flag, canceling keeps it, and two
      performed events give back the original flag. */
  lemma SprintToggleMode(on: bool)
    ensures SprintAfter(false, Performed, on) == !on
    ensures SprintAfter(false, Canceled, on) == on
    ensures SprintAfter(false, Performed, SprintAfter(false, Performed, on)) == on
  {
  }

  /** In either mode, phases other than performed and canceled leave the flag. */
  lemma SprintIgnoresOtherPhases(holdToSprint: bool, phase: Phase, on: bool)
    requires !Decisive(phase)
    ensures SprintAfter(holdToSprint, phase, on) == on
  {
  }

  /** Walk toggles on performed events only; two performed events restore it. */
  lemma WalkToggle(phase: Phase, on: bool)
    ensures WalkAfter(phase, on) == (if phase == Performed then !on else on)
    ensures WalkAfter(Performed, WalkAfter(Performed, on)) == on
  {
  }

  /** Jump arms only on a performed event; otherwise nothing changes. */
  lemma JumpArmsOnPerformed(phase: Phase, pressed: bool)
    ensures JumpAfter(phase, pressed) <==> pressed || phase == Performed
    ensures phase != Performed ==> JumpAfter(phase, pressed) == pressed
  {
  }

  /** In toggle mode the sprint flag is flipped once per performed event:
      it ends up equal to the initial flag iff the number of performed
      events is even. */
  lemma {:induction false} SprintToggleParity(phases: seq<Phase>, on: bool)
    ensures SprintAfterEvents(false, phases, on) == (on != (multiset(phases)[Performed] % 2 == 1))
  {
    if phases != [] {
      var n := |phases|;
      var prefix := phases[..n - 1];
      SprintToggleParity(prefix, on);
      assert phases == prefix + [phases[n - 1]];
      assert multiset(phases) == multiset(prefix) + multiset{phases[n - 1]};
    }
  }

  /** In hold mode, a sequence with no performed or canceled event leaves
      the sprint flag as it was. */
  lemma {:induction false} SprintHoldWithoutDecisiveEvent(phases: seq<Phase>, on: bool)
    requires forall k :: 0 <= k < |phases| ==> !Decisive(phases[k])
    ensures SprintAfterEvents(true, phases, on) == on
  {
    if phases != [] {
      var prefix := phases[..|phases| - 1];
      assert forall k :: 0 <= k < |prefix| ==> prefix[k] == phases[k];
      SprintHoldWithoutDecisiveEvent(prefix, on);
    }
  }

  /** In hold mode the sprint flag is decided by the last performed or
      canceled event alone: it is on iff that event is a performed one. */
  lemma {:induction false} SprintHoldFollowsLastEvent(phases: seq<Phase>, k: nat, on: bool)
    requires k < |phases| && Decisive(phases[k])
    requires forall j :: k < j < |phases| ==> !Decisive(phases[j])
    ensures SprintAfterEvents(true, phases, on) == (phases[k] == Performed)
  {
    var n := |phases|;
    if k < n - 1 {
      var prefix := phases[..n - 1];
      assert forall j :: 0 <= j < |prefix| ==> prefix[j] == phases[j];
      SprintHoldFollowsLastEvent(prefix, k, on);
    }
  }

  /** Walk toggles once per performed event. */
  lemma {:induction false} WalkToggleParity(phases: seq<Phase>, on: bool)
    ensures WalkAfterEvents(phases, on) == (on != (multiset(phases)[Performed] % 2 == 1))
  {
    if phases != [] {
      var n := |phases|;
      var prefix := phases[..n - 1];
      WalkToggleParity(prefix, on);
      assert phases == prefix + [phases[n - 1]];
      assert multiset(phases) == multiset(prefix) + multiset{phases[n - 1]};
    }
  }

  /** Between two clears the jump latch is set iff a performed jump event
      arrived (or it was already set). */
  lemma {:induction false} JumpLatchRemembersPerformed(phases: seq<Phase>, pressed: bool)
    ensures JumpAfterEvents(phases, pressed) <==> pressed || Performed in phases
  {
    if phases != [] {
      var n := |phases|;
      var prefix := phases[..n - 1];
      JumpLatchRemembersPerformed(prefix, pressed);
      assert phases == prefix + [phases[n - 1]];
    }
  }

  /** The input component. The callbacks are wired by the input system;
      each method below is one callback, and nothing else writes the fields. */
  class PlayerInput {
    /** Inspector setting: hold to sprint (true) or toggle sprint (false). */
    const holdToSprint: bool
    var movementInput: Vec2
    var lookInput: Vec2
    var sprintToggledOn: bool
    var jumpPressed: bool
    var walkToggledOn: bool

    constructor (holdToSprint: bool)
      ensures this.holdToSprint == holdToSprint
      ensures movementInput == Zero2 && lookInput == Zero2
      ensures !sprintToggledOn && !jumpPressed && !walkToggledOn
    {
      this.holdToSprint := holdToSprint;
      movementInput, lookInput := Zero2, Zero2;
      sprintToggledOn, jumpPressed, walkToggledOn := false, false, false;
    }

    /** End of frame: the jump latch is cleared; no other field changes. */
    method LateUpdate()
      modifies this`jumpPressed
      ensures !jumpPressed
    {
      jumpPressed := false;
    }

    /** Stores the movement vector read from the event, whatever its phase. */
    method OnMovement(context: CallbackContext)
      modifies this`movementInput
      ensures movementInput == context.value
    {
      movementInput := context.value;
    }

    /** Stores the look vector read from the event, whatever its phase. */
    method OnLook(context: CallbackContext)
      modifies this`lookInput
      ensures lookInput == context.value
    {
      lookInput := context.value;
    }

    /** The sprint callback (so named in the source). */
    method OnToggleSpring(context: CallbackContext)
      modifies this`sprintToggledOn
      ensures sprintToggledOn == SprintAfter(holdToSprint, context.phase, old(sprintToggledOn))
    {
      if context.phase == Performed {
        sprintToggledOn := holdToSprint || !sprintToggledOn;
      } else if context.phase == Canceled {
        sprintToggledOn := !holdToSprint && sprintToggledOn;
      }
    }

    method OnJump(context: CallbackContext)
      modifies this`jumpPressed
      ensures jumpPressed == JumpAfter(context.phase, old(jumpPressed))
    {
      if context.phase != Performed {
        return;
      }
      jumpPressed := true;
    }

    method OnToggleWalk(context: CallbackContext)
      modifies this`walkToggledOn
      ensures walkToggledOn == WalkAfter(context.phase, old(walkToggledOn))
    {
      if context.phase != Performed {
        return;
      }
      walkToggledOn := !walkToggledOn;
    }
  }
}
