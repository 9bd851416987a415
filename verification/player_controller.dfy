/**
 * The locomotion rules of Assets/Scripts/PlayerController.cs: the per-frame
 * choice of lateral movement state, the state-dependent acceleration and
 * speed cap, drag followed by a speed clamp, and the camera yaw/pitch update.
 *
 * Numbers are `real`, an idealisation of the engine's `float`. The velocity
 * integration follows the motion along one horizontal line (see
 * FrameVelocity); the engine's collision primitive, the camera's
 * forward/right projection and the quaternion conversion are outside the model.
 */
module Controller {
  import opened Vectors
  import opened States
  import opened Inputs

  /** The component's inspector settings. */
  datatype Settings = Settings(
    runAcceleration: real,
    runSpeed: real,
    drag: real,
    movementThreshold: real,
    sprintAcceleration: real,
    sprintSpeed: real,
    lookSensitivityHorizontal: real,
    lookSensitivityVertical: real,
    lookLimitVertical: real)

  /** The values the component ships with. */
  const DefaultSettings: Settings :=
    Settings(35.0, 4.0, 15.0, 0.01, 50.0, 7.0, 0.5, 0.5, 89.0)

  // ---------------------------------------------------------------------------
  // Choosing the lateral state
  // ---------------------------------------------------------------------------

  /** The character is moving laterally when the length of its velocity with
      the vertical component dropped is strictly above the threshold. Lengths
      are compared through their squares. */
  predicate IsMovingLaterally(velocity: Vec3, threshold: real)
  {
    threshold < 0.0 || velocity.x * velocity.x + velocity.z * velocity.z > threshold * threshold
  }

  /** Whether the stored movement input differs from the zero vector, with
      the engine's approximate Vector2 equality. */
  predicate IsMovementInput(movementInput: Vec2)
  {
    !ApproxEqual(movementInput, Zero2)
  }

  /** The lateral state chosen each frame from the stored input and the
      velocity the collision primitive reports. */
  function LateralState(movementInput: Vec2, velocity: Vec3, sprintToggledOn: bool, threshold: real): MovementState
  {
    var isMovingLaterally := IsMovingLaterally(velocity, threshold);
    var isSprinting := sprintToggledOn && isMovingLaterally;
    if isSprinting then Sprinting
    else if isMovingLaterally || IsMovementInput(movementInput) then Running
    else Idling
  }

  /** Given the lateral speed m (the length of (x, z)), the lateral test is
      "m exceeds the threshold", strictly, whatever the vertical component. */
  lemma MovingLaterallyIsSpeedAboveThreshold(velocity: Vec3, m: real, threshold: real)
    requires m >= 0.0 && m * m == velocity.x * velocity.x + velocity.z * velocity.z
    ensures IsMovingLaterally(velocity, threshold) <==> m > threshold
    ensures forall y :: IsMovingLaterally(Vec3(velocity.x, y, velocity.z), threshold) <==> m > threshold
  {
    if threshold >= 0.0 {
      SquaresOrdered(m, threshold);
    }
  }

  /** The lateral state is Sprinting, Running or Idling and never Walking,
      Jumping or Falling: sprinting iff sprint is on and the character is
      moving laterally; idling iff there is no movement input and no lateral
      motion; running otherwise. The result is always a grounded state. */
  lemma LateralStateCases(movementInput: Vec2, velocity: Vec3, sprintToggledOn: bool, threshold: real)
    ensures var r := LateralState(movementInput, velocity, sprintToggledOn, threshold);
      && (r == Sprinting <==> sprintToggledOn && IsMovingLaterally(velocity, threshold))
      && (r == Idling <==> !IsMovementInput(movementInput) && !IsMovingLaterally(velocity, threshold))
      && (r == Running <==> !(sprintToggledOn && IsMovingLaterally(velocity, threshold)) &&
                            (IsMovingLaterally(velocity, threshold) || IsMovementInput(movementInput)))
      && r != Walking && r != Jumping && r != Falling
      && IsGroundedState(r)
  {
  }

  /** Given the input's length n, the input counts as present iff n is at
      least the engine's tolerance: an input shorter than Epsilon is none. */
  lemma MovementInputIsLengthAtLeastEpsilon(movementInput: Vec2, n: real)
    requires n >= 0.0 && n * n == movementInput.x * movementInput.x + movementInput.y * movementInput.y
    ensures IsMovementInput(movementInput) <==> n >= Epsilon
  {
    assert SqrMagnitude(Vec2(movementInput.x - Zero2.x, movementInput.y - Zero2.y)) == n * n;
    SquaresOrdered(Epsilon, n);
  }

  /** Given the input's length n and the lateral speed m, the character is
      idle iff the input is shorter than the engine's tolerance and the
      lateral speed is at most the threshold (a speed equal to the
      threshold counts as not moving), in either sprint mode. */
  lemma IdleIffSlowAndNoInput(movementInput: Vec2, n: real, velocity: Vec3, m: real, sprintToggledOn: bool, threshold: real)
    requires n >= 0.0 && n * n == movementInput.x * movementInput.x + movementInput.y * movementInput.y
    requires m >= 0.0 && m * m == velocity.x * velocity.x + velocity.z * velocity.z
    ensures LateralState(movementInput, velocity, sprintToggledOn, threshold) == Idling <==>
      n < Epsilon && m <= threshold
  {
    MovementInputIsLengthAtLeastEpsilon(movementInput, n);
    MovingLaterallyIsSpeedAboveThreshold(velocity, m, threshold);
    LateralStateCases(movementInput, velocity, sprintToggledOn, threshold);
  }

  // ---------------------------------------------------------------------------
  // Acceleration, drag and clamp
  // ---------------------------------------------------------------------------

  /** Acceleration used for the frame: the sprint value in state Sprinting,
      the run value in every other state. */
  function LateralAcceleration(s: Settings, state: MovementState): real
  {
    if state == Sprinting then s.sprintAcceleration else s.runAcceleration
  }

  /** Speed cap used for the frame, chosen like the acceleration. */
  function LateralSpeedCap(s: Settings, state: MovementState): real
  {
    if state == Sprinting then s.sprintSpeed else s.runSpeed
  }

  /** Sprint values are used exactly in state Sprinting; Idling and every
      other state use the run values. */
  lemma SprintLimitsOnlyWhenSprinting(s: Settings, state: MovementState)
    ensures state == Sprinting ==>
      LateralAcceleration(s, state) == s.sprintAcceleration && LateralSpeedCap(s, state) == s.sprintSpeed
    ensures state != Sprinting ==>
      LateralAcceleration(s, state) == s.runAcceleration && LateralSpeedCap(s, state) == s.runSpeed
  {
  }

  /** Vector3.normalized restricted to the line: the unit vector pointing
      like v, or zero when v is no longer than Epsilon. */
  function Normalized(v: real): (r: real)
    ensures Abs(v) > Epsilon ==> Abs(r) == 1.0 && (r > 0.0 <==> v > 0.0)
    ensures Abs(v) <= Epsilon ==> r == 0.0
  {
    if Abs(v) > Epsilon then (if v > 0.0 then 1.0 else -1.0) else 0.0
  }

  /** Drag of dragStep (= drag * dt): a velocity longer than dragStep is
      shortened along its own direction, any other velocity becomes zero. */
  function ApplyDrag(v: real, dragStep: real): real
  {
    if Abs(v) > dragStep then v - Normalized(v) * dragStep else 0.0
  }

  /** Vector3.ClampMagnitude on the line: a velocity longer than maxLength is
      rescaled to length maxLength (dividing by its exact length), any other
      velocity is returned as it is. The engine compares squared lengths;
      ClampComparesSquares shows that this is the same test. */
  function ClampMagnitude(v: real, maxLength: real): real
  {
    if Abs(v) > Abs(maxLength) then (if v > 0.0 then maxLength else -maxLength) else v
  }

  lemma ClampComparesSquares(v: real, maxLength: real)
    ensures v * v > maxLength * maxLength <==> Abs(v) > Abs(maxLength)
  {
    assert v * v == Abs(v) * Abs(v);
    assert maxLength * maxLength == Abs(maxLength) * Abs(maxLength);
    SquaresOrdered(Abs(v), Abs(maxLength));
  }

  /** Drag of dragStep followed by the clamp to maxLength. */
  function DragAndClamp(v: real, dragStep: real, maxLength: real): real
  {
    ClampMagnitude(ApplyDrag(v, dragStep), maxLength)
  }

  /** The velocity the frame hands to the collision primitive. Only frames whose
      velocity and movement direction both lie on one horizontal line are
      covered: `velocity` is the body's signed velocity along that line and
      `direction` the signed length of the camera-relative movement
      direction, which is parallel to it; both come from outside this model. The order is: add acceleration,
      apply drag, clamp. */
  function FrameVelocity(s: Settings, state: MovementState, velocity: real, direction: real, dt: real): real
  {
    DragAndClamp(Accelerated(s, state, velocity, direction, dt), DragStep(s, dt), LateralSpeedCap(s, state))
  }

  /** The velocity after the frame's acceleration, before drag. */
  function Accelerated(s: Settings, state: MovementState, velocity: real, direction: real, dt: real): real
  {
    velocity + direction * LateralAcceleration(s, state) * dt
  }

  /** The speed that drag removes in one frame. */
  function DragStep(s: Settings, dt: real): (r: real)
    ensures s.drag >= 0.0 && dt >= 0.0 ==> r >= 0.0
  {
    s.drag * dt
  }

  function Min(a: real, b: real): real { if a <= b then a else b }

  function Max(a: real, b: real): real { if a >= b then a else b }

  /** Clamping never lengthens a velocity; with a non-negative cap it never
      reverses it and leaves it exactly min(length, cap) long. */
  lemma ClampMagnitudeBounds(v: real, maxLength: real)
    ensures Abs(ClampMagnitude(v, maxLength)) <= Abs(v)
    ensures maxLength >= 0.0 ==> (ClampMagnitude(v, maxLength) > 0.0 ==> v > 0.0)
    ensures maxLength >= 0.0 ==> (ClampMagnitude(v, maxLength) < 0.0 ==> v < 0.0)
    ensures maxLength >= 0.0 ==> Abs(ClampMagnitude(v, maxLength)) == Min(Abs(v), maxLength)
  {
  }

  /** Drag then clamp: a velocity no longer than dragStep comes out exactly
      zero; with a non-negative dragStep the result is never longer than
      the input; with a non-negative cap never longer than the cap. */
  lemma DragAndClampBounds(v: real, dragStep: real, maxLength: real)
    ensures Abs(v) <= dragStep ==> DragAndClamp(v, dragStep, maxLength) == 0.0
    ensures dragStep >= 0.0 ==> Abs(DragAndClamp(v, dragStep, maxLength)) <= Abs(v)
    ensures maxLength >= 0.0 ==> Abs(DragAndClamp(v, dragStep, maxLength)) <= maxLength
  {
  }

  /** For non-negative dragStep and cap and a velocity longer than Epsilon
      (or no longer than dragStep), drag then clamp gives speed min(max(|v| - dragStep, 0), cap) and keeps
      the direction of v (or stops). */
  lemma DragThenClampSpeed(v: real, dragStep: real, maxLength: real)
    requires dragStep >= 0.0 && maxLength >= 0.0 && (Abs(v) > Epsilon || Abs(v) <= dragStep)
    ensures var r := DragAndClamp(v, dragStep, maxLength);
      && Abs(r) == Min(Max(Abs(v) - dragStep, 0.0), maxLength)
      && (r > 0.0 ==> v > 0.0) && (r < 0.0 ==> v < 0.0)
  {
  }

  /** One frame with non-negative drag and dt never leaves the body faster
      than it was after acceleration; with a non-negative cap it is never
      faster than the cap of the frame's state; and a post-acceleration
      speed of at most drag * dt stops the body exactly. */
  lemma FrameVelocityBounds(s: Settings, state: MovementState, velocity: real, direction: real, dt: real)
    ensures var w := Accelerated(s, state, velocity, direction, dt);
      var r := FrameVelocity(s, state, velocity, direction, dt);
      && (s.drag >= 0.0 && dt >= 0.0 ==> Abs(r) <= Abs(w))
      && (LateralSpeedCap(s, state) >= 0.0 ==> Abs(r) <= LateralSpeedCap(s, state))
      && (Abs(w) <= DragStep(s, dt) ==> r == 0.0)
  {
  }

  /** The velocity after n frames of drag and clamp without acceleration. */
  function Coast(velocity: real, dragStep: real, maxLength: real, n: nat): real
    decreases n
  {
    if n == 0 then velocity
    else Coast(DragAndClamp(velocity, dragStep, maxLength), dragStep, maxLength, n - 1)
  }

  /** A frame without movement input is drag and clamp alone. */
  lemma FrameWithoutInput(s: Settings, state: MovementState, velocity: real, dt: real)
    ensures FrameVelocity(s, state, velocity, 0.0, dt) ==
            DragAndClamp(velocity, DragStep(s, dt), LateralSpeedCap(s, state))
  {
  }

  /** One frame without input takes at least dragStep off the speed, or
      stops the body, when dragStep reaches the normalisation tolerance. */
  lemma CoastStep(velocity: real, dragStep: real, maxLength: real)
    requires dragStep >= Epsilon
    ensures Abs(DragAndClamp(velocity, dragStep, maxLength)) <= Max(Abs(velocity) - dragStep, 0.0)
  {
  }

  /** n * d, as repeated addition. */
  function Times(n: nat, d: real): (r: real)
    ensures d >= 0.0 ==> r >= 0.0
  {
    if n == 0 then 0.0 else Times(n - 1, d) + d
  }

  lemma {:induction false} TimesIsProduct(n: nat, d: real)
    ensures Times(n, d) == n as real * d
  {
    if n > 0 {
      TimesIsProduct(n - 1, d);
      assert (n - 1) as real * d + d == n as real * d;
    }
  }

  /** Without input, each frame takes at least dragStep off the speed (as
      long as dragStep reaches the normalisation tolerance), so the body is
      exactly at rest once n * dragStep reaches its initial speed. This
      assumes the collision primitive moves the body by the whole requested
      delta, so that the next frame starts from the velocity handed to it. */
  lemma {:induction false} CoastComesToRest(velocity: real, dragStep: real, maxLength: real, n: nat)
    requires dragStep >= Epsilon
    decreases n
    ensures Abs(Coast(velocity, dragStep, maxLength, n)) <= Max(Abs(velocity) - Times(n, dragStep), 0.0)
    ensures Times(n, dragStep) >= Abs(velocity) ==> Coast(velocity, dragStep, maxLength, n) == 0.0
  {
    if n > 0 {
      var next := DragAndClamp(velocity, dragStep, maxLength);
      CoastStep(velocity, dragStep, maxLength);
      DragAndClampBounds(velocity, dragStep, maxLength);
      CoastComesToRest(next, dragStep, maxLength, n - 1);
    }
  }

  // ---------------------------------------------------------------------------
  // Camera
  // ---------------------------------------------------------------------------

  /** The engine's scalar clamp: below min gives min, otherwise above max
      gives max, otherwise the value. */
  function Clamp(value: real, min: real, max: real): (r: real)
    ensures min <= max ==> min <= r <= max
    ensures min <= value <= max ==> r == value
  {
    if value < min then min else if value > max then max else value
  }

  /** The camera rotation (x = yaw, y = pitch) after one frame's look input:
      yaw accumulates without bound, pitch is clamped to the vertical limit. */
  function CameraAfterLook(s: Settings, camera: Vec2, look: Vec2): Vec2
  {
    Vec2(camera.x + s.lookSensitivityHorizontal * look.x,
         Clamp(camera.y - PitchTurn(s, look), -s.lookLimitVertical, s.lookLimitVertical))
  }

  /** The pitch change one look input asks for (before the clamp). */
  function PitchTurn(s: Settings, look: Vec2): real
  {
    s.lookSensitivityVertical * look.y
  }

  /** The camera rotation after one look input per frame, oldest first. */
  function CameraAfterLooks(s: Settings, camera: Vec2, looks: seq<Vec2>): Vec2
  {
    if looks == [] then camera
    else CameraAfterLook(s, CameraAfterLooks(s, camera, looks[..|looks| - 1]), looks[|looks| - 1])
  }

  function SumX(looks: seq<Vec2>): real
  {
    if looks == [] then 0.0 else SumX(looks[..|looks| - 1]) + looks[|looks| - 1].x
  }

  function SumY(looks: seq<Vec2>): real
  {
    if looks == [] then 0.0 else SumY(looks[..|looks| - 1]) + looks[|looks| - 1].y
  }

  /** The summed pitch changes a sequence of look inputs asks for. */
  function PitchTurns(s: Settings, looks: seq<Vec2>): real
  {
    if looks == [] then 0.0 else PitchTurns(s, looks[..|looks| - 1]) + PitchTurn(s, looks[|looks| - 1])
  }

  lemma {:induction false} PitchTurnsScaleSum(s: Settings, looks: seq<Vec2>)
    ensures PitchTurns(s, looks) == s.lookSensitivityVertical * SumY(looks)
  {
    if looks != [] {
      var prefix := looks[..|looks| - 1];
      PitchTurnsScaleSum(s, prefix);
      assert s.lookSensitivityVertical * SumY(looks)
          == s.lookSensitivityVertical * SumY(prefix) + s.lookSensitivityVertical * looks[|looks| - 1].y;
    }
  }

  /** One frame: with a non-negative limit the pitch lands in
      [-limit, limit]; the yaw grows by sensitivity * look.x. */
  lemma CameraAfterLookBounds(s: Settings, camera: Vec2, look: Vec2)
    requires s.lookLimitVertical >= 0.0
    ensures -s.lookLimitVertical <= CameraAfterLook(s, camera, look).y <= s.lookLimitVertical
    ensures CameraAfterLook(s, camera, look).x == camera.x + s.lookSensitivityHorizontal * look.x
  {
  }

  /** Over any number of frames the yaw is the start plus sensitivity times
      the summed horizontal look input: it is never clamped. */
  lemma {:induction false} YawAccumulates(s: Settings, camera: Vec2, looks: seq<Vec2>)
    ensures CameraAfterLooks(s, camera, looks).x == camera.x + s.lookSensitivityHorizontal * SumX(looks)
  {
    if looks != [] {
      var prefix := looks[..|looks| - 1];
      var last := looks[|looks| - 1];
      YawAccumulates(s, camera, prefix);
      assert s.lookSensitivityHorizontal * SumX(looks)
          == s.lookSensitivityHorizontal * SumX(prefix) + s.lookSensitivityHorizontal * last.x;
    }
  }

  /** Starting within the limits, the pitch stays within them after any
      number of frames (each frame's clamp lands in range on its own). */
  lemma PitchStaysInRange(s: Settings, camera: Vec2, looks: seq<Vec2>)
    requires -s.lookLimitVertical <= camera.y <= s.lookLimitVertical
    ensures -s.lookLimitVertical <= CameraAfterLooks(s, camera, looks).y <= s.lookLimitVertical
  {
  }

  /** When no frame's pitch hits a limit, the pitch is the start minus the
      summed pitch changes. */
  lemma {:induction false} PitchUnclamped(s: Settings, camera: Vec2, looks: seq<Vec2>)
    requires forall k :: 0 <= k <= |looks| ==>
      -s.lookLimitVertical <= camera.y - PitchTurns(s, looks[..k]) <= s.lookLimitVertical
    ensures CameraAfterLooks(s, camera, looks).y == camera.y - PitchTurns(s, looks)
  {
    if looks != [] {
      var n := |looks|;
      var prefix := looks[..n - 1];
      forall k | 0 <= k <= |prefix|
        ensures -s.lookLimitVertical <= camera.y - PitchTurns(s, prefix[..k]) <= s.lookLimitVertical
      {
        assert prefix[..k] == looks[..k];
      }
      PitchUnclamped(s, camera, prefix);
      assert looks[..n] == looks;
    }
  }

  /** So, when no frame's pitch hits a limit, the pitch is the start minus
      sensitivity times the summed vertical input, and look input that nets
      to zero brings the pitch back to where it started. */
  lemma PitchRoundTrip(s: Settings, camera: Vec2, looks: seq<Vec2>)
    requires forall k :: 0 <= k <= |looks| ==>
      -s.lookLimitVertical <= camera.y - s.lookSensitivityVertical * SumY(looks[..k]) <= s.lookLimitVertical
    ensures CameraAfterLooks(s, camera, looks).y == camera.y - s.lookSensitivityVertical * SumY(looks)
    ensures SumY(looks) == 0.0 ==> CameraAfterLooks(s, camera, looks).y == camera.y
  {
    forall k | 0 <= k <= |looks|
      ensures PitchTurns(s, looks[..k]) == s.lookSensitivityVertical * SumY(looks[..k])
    {
      PitchTurnsScaleSum(s, looks[..k]);
    }
    PitchUnclamped(s, camera, looks);
    PitchTurnsScaleSum(s, looks);
  }

  /** The round trip needs the no-clamp condition: with the shipped
      settings, looking 100 degrees down and then 100 degrees up (input
      nets to zero) ends at pitch -11, because the first frame stopped at 89. */
  lemma PitchRoundTripBrokenByClamp()
    ensures SumY([Vec2(0.0, -200.0), Vec2(0.0, 200.0)]) == 0.0
    ensures CameraAfterLooks(DefaultSettings, Zero2, [Vec2(0.0, -200.0), Vec2(0.0, 200.0)]).y == -11.0
  {
  }

  // ---------------------------------------------------------------------------
  // The component
  // ---------------------------------------------------------------------------

  /** The controller component. Its sibling components are fixed at
      construction; the engine velocity, the frame time and the body's
      current rotation are passed in each frame. */
  class PlayerController {
    const settings: Settings
    const playerInput: PlayerInput
    const playerState: PlayerState
    /** x = camera yaw, y = camera pitch (degrees). */
    var cameraRotation: Vec2
    /** x = body target yaw; y is never written. */
    var playerTargetRotation: Vec2

    constructor (settings: Settings, playerInput: PlayerInput, playerState: PlayerState)
      ensures this.settings == settings
      ensures this.playerInput == playerInput && this.playerState == playerState
      ensures cameraRotation == Zero2 && playerTargetRotation == Zero2
    {
      this.settings := settings;
      this.playerInput := playerInput;
      this.playerState := playerState;
      cameraRotation := Zero2;
      playerTargetRotation := Zero2;
    }

    /** Chooses the lateral state from the stored movement input, the sprint
        flag and the engine velocity, and stores it. Walk toggle and jump are
        not read. */
    method UpdateMovementState(velocity: Vec3)
      modifies playerState`currentPlayerMovementState
      ensures playerState.currentPlayerMovementState ==
        LateralState(playerInput.movementInput, velocity, playerInput.sprintToggledOn, settings.movementThreshold)
    {
      var isMovementInput := IsMovementInput(playerInput.movementInput);
      var isMovingLaterally := IsMovingLaterally(velocity, settings.movementThreshold);
      var isSprinting := playerInput.sprintToggledOn && isMovingLaterally;
      var lateralState :=
        if isSprinting then Sprinting
        else if isMovingLaterally || isMovementInput then Running
        else Idling;
      playerState.SetPlayerMovementState(lateralState);
    }

    /** The velocity integration of one frame: returns the new velocity and
        the displacement requested from the collision primitive. */
    method HandleMovement(velocity: real, direction: real, dt: real) returns (newVelocity: real, moveDelta: real)
      ensures newVelocity == FrameVelocity(settings, playerState.currentPlayerMovementState, velocity, direction, dt)
      ensures moveDelta == newVelocity * dt
    {
      var state := playerState.currentPlayerMovementState;
      var isSprinting := state == Sprinting;
      var lateralAcceleration := if isSprinting then settings.sprintAcceleration else settings.runAcceleration;
      var clampLateralMagnitude := if isSprinting then settings.sprintSpeed else settings.runSpeed;
      var movementDelta := direction * lateralAcceleration * dt;
      newVelocity := velocity + movementDelta;
      assert newVelocity == Accelerated(settings, state, velocity, direction, dt);
      var dragStep := settings.drag * dt;
      assert dragStep == DragStep(settings, dt);
      var currentDrag := Normalized(newVelocity) * dragStep;
      newVelocity := if Abs(newVelocity) > dragStep then newVelocity - currentDrag else 0.0;
      assert newVelocity == ApplyDrag(Accelerated(settings, state, velocity, direction, dt), DragStep(settings, dt));
      newVelocity := ClampMagnitude(newVelocity, clampLateralMagnitude);
      moveDelta := newVelocity * dt;
    }

    /** The camera and body-target update at the end of a frame.
        `bodyEulerX` is the body's current Euler x angle as the engine reports
        it. Returns the body's new yaw and the camera's Euler (pitch, yaw). */
    method LateUpdate(bodyEulerX: real) returns (bodyYaw: real, cameraEuler: Vec2)
      modifies this`cameraRotation, this`playerTargetRotation
      ensures cameraRotation == CameraAfterLook(settings, old(cameraRotation), playerInput.lookInput)
      ensures playerTargetRotation == Vec2(
        old(playerTargetRotation.x) + bodyEulerX + settings.lookSensitivityHorizontal * playerInput.lookInput.x,
        old(playerTargetRotation.y))
      ensures bodyYaw == playerTargetRotation.x
      ensures cameraEuler == Vec2(cameraRotation.y, cameraRotation.x)
    {
      var look := playerInput.lookInput;
      cameraRotation := cameraRotation.(x := cameraRotation.x + settings.lookSensitivityHorizontal * look.x);
      cameraRotation := cameraRotation.(y := Clamp(
        cameraRotation.y - settings.lookSensitivityVertical * look.y,
        -settings.lookLimitVertical,
        settings.lookLimitVertical));
      playerTargetRotation := playerTargetRotation.(x :=
        playerTargetRotation.x + bodyEulerX + settings.lookSensitivityHorizontal * look.x);
      bodyYaw := playerTargetRotation.x;
      cameraEuler := Vec2(cameraRotation.y, cameraRotation.x);
    }
  }
}
