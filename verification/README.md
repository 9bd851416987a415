# Third-person locomotion core in Dafny

A Dafny model of the movement core of a Unity third-person character
controller. It covers three components:

- `PlayerState` holds the discrete movement state. The state starts Idling.
  A setter overwrites it, and a query says whether the state is grounded.
- `PlayerController` chooses the lateral state each frame (Sprinting, Running
  or Idling). It picks the acceleration and speed cap for that state,
  integrates the velocity (acceleration, then drag, then a speed clamp), and
  updates the camera yaw and pitch.
- `PlayerInput` is the input latch. Input-system callbacks store the movement
  and look vectors. They also update the sprint flag (hold or toggle mode),
  the jump latch (cleared at the end of each frame) and the walk toggle,
  according to the phase of the action.

Files:

- `vectors.dfy` (module `Vectors`): Vector2/Vector3 as real-valued datatypes,
  the engine's vector tolerance and its approximate Vector2 equality.
- `player_state.dfy` (module `States`): the movement-state datatype and the
  `PlayerState` class.
- `player_input.dfy` (module `Inputs`): action phases, the per-event
  transition functions and the `PlayerInput` class. It also proves lemmas
  about one event and about any sequence of events.
- `player_controller.dfy` (module `Controller`): the settings, the
  lateral-state choice, drag and clamp, the camera update, and the
  `PlayerController` class.

Modelling decisions:

- Every number is a Dafny `real`. This idealises the engine's 32-bit `float`:
  there is no rounding, overflow or NaN.
- Engine semantics the code relies on are written out:
  - Vector2 `!=` is approximate. A movement input shorter than 1e-5 counts as
    no input.
  - `normalized` returns zero for vectors no longer than 1e-5.
  - `Mathf.Clamp` tests the lower bound first.
  - `ClampMagnitude` compares squared lengths and rescales by the exact
    length.
- The lateral-motion test keeps the 3D velocity. It compares squared lengths,
  and `MovingLaterallyIsSpeedAboveThreshold` shows this is the source's
  strict length test.
- Velocity integration covers only frames whose velocity and camera-relative
  movement direction both lie on one horizontal line. The velocity is a
  signed real along that line, and `direction` is the signed length of a
  movement direction parallel to it (not a projection of an arbitrary
  direction). For such frames the source's vector arithmetic is exact. When
  the direction leaves the line, drag and clamp act on the 3D length, and
  the model does not describe that frame. The camera's forward/right
  projection is computed outside the model.
- Callbacks receive a `CallbackContext` made of a phase (the input system's
  Disabled, Waiting, Started, Performed, Canceled) and a value.
- The engine inputs are parameters: the collision primitive's velocity, the
  frame time `dt`, and the body's current Euler x angle.

Where the code differs from what one might expect of such a controller, the
model follows the code:

- The code has no Walking, Jumping or Falling selection. It has no gravity,
  jump impulse, anti-bump, ground sensing or step-offset handling, no
  in-air acceleration, and no idle rotate-to-target hysteresis.
  - `LateralStateCases` proves that the per-frame choice yields only
    Sprinting, Running or Idling.
  - The walk toggle and the jump latch are never read.
- The body target yaw adds the body's current Euler **x** angle each frame,
  not its yaw (`Assets/Scripts/PlayerController.cs:50`).
- One might expect a net-zero pitch input to return the camera to its
  starting pitch. That is guaranteed while no frame hits the pitch limit,
  and it can fail once one does. `PitchRoundTrip` proves it under that
  condition, and `PitchRoundTripBrokenByClamp` gives a net-zero input that
  ends 11 degrees away.
- Sprint acceleration and cap apply only in state Sprinting. Every other
  state, Idling included, uses the run values.

## Model

| member | source | states |
|---|---|---|
| `States.GroundedIffNotAirborne` | Assets/Scripts/PlayerState.cs:14-20 | a state is grounded iff it is neither Jumping nor Falling (so Idling, Walking, Running, Sprinting are grounded) |
| `States.PlayerState.constructor` | Assets/Scripts/PlayerState.cs:7 | a new state holder starts in Idling |
| `States.PlayerState.SetPlayerMovementState` | Assets/Scripts/PlayerState.cs:9-12 | the current state becomes exactly the argument, only that field may change, and setting the state already held changes nothing (so setting twice equals setting once) |
| `States.PlayerState.IsInGroundedState` | Assets/Scripts/PlayerState.cs:14-20 | read-only (a function reading the object); true iff the current state is not Jumping or Falling |
| `Inputs.SprintHoldMode` | Assets/Scripts/PlayerInput.cs:47-57 | in hold-to-sprint mode a performed event turns sprint on and a canceled event turns it off |
| `Inputs.SprintToggleMode` | Assets/Scripts/PlayerInput.cs:47-57 | in toggle mode a performed event negates sprint, a canceled event keeps it, two performed events restore it |
| `Inputs.SprintIgnoresOtherPhases` | Assets/Scripts/PlayerInput.cs:47-57 | a sprint event neither performed nor canceled leaves the flag unchanged, in both modes |
| `Inputs.SprintToggleParity` | Assets/Scripts/PlayerInput.cs:47-57 | in toggle mode, after any event sequence the flag differs from its start iff the number of performed events is odd |
| `Inputs.SprintHoldWithoutDecisiveEvent` | Assets/Scripts/PlayerInput.cs:47-57 | in hold mode, a sequence with no performed or canceled event leaves the flag unchanged |
| `Inputs.SprintHoldFollowsLastEvent` | Assets/Scripts/PlayerInput.cs:47-57 | in hold mode, the flag after a sequence is on iff its last performed-or-canceled event is a performed one |
| `Inputs.WalkToggle` | Assets/Scripts/PlayerInput.cs:67-73 | the walk flag flips on a performed event only; two performed events restore it |
| `Inputs.WalkToggleParity` | Assets/Scripts/PlayerInput.cs:67-73 | after any event sequence the walk flag differs from its start iff the number of performed events is odd |
| `Inputs.JumpArmsOnPerformed` | Assets/Scripts/PlayerInput.cs:59-65 | the jump latch becomes set on a performed event; any other phase changes nothing |
| `Inputs.JumpLatchRemembersPerformed` | Assets/Scripts/PlayerInput.cs:59-65 | after any event sequence the latch is set iff it was set or some event was performed |
| `Inputs.PlayerInput.constructor` | Assets/Scripts/PlayerInput.cs:8-15 | the hold/toggle setting is stored, vectors start at zero and all flags false |
| `Inputs.PlayerInput.LateUpdate` | Assets/Scripts/PlayerInput.cs:26-29 | clears the jump latch and may change no other field |
| `Inputs.PlayerInput.OnMovement` | Assets/Scripts/PlayerInput.cs:37-40 | the stored movement vector becomes the value read, in every phase; no other field may change |
| `Inputs.PlayerInput.OnLook` | Assets/Scripts/PlayerInput.cs:42-45 | the stored look vector becomes the value read, in every phase; no other field may change |
| `Inputs.PlayerInput.OnToggleSpring` | Assets/Scripts/PlayerInput.cs:47-57 | the sprint flag becomes its one-event transition for the stored mode and the event's phase; no other field may change |
| `Inputs.PlayerInput.OnJump` | Assets/Scripts/PlayerInput.cs:59-65 | the jump latch becomes its one-event transition; no other field may change |
| `Inputs.PlayerInput.OnToggleWalk` | Assets/Scripts/PlayerInput.cs:67-73 | the walk flag becomes its one-event transition; no other field may change |
| `Vectors.ApproxEqualZero` | Assets/Scripts/PlayerController.cs:58 | under the engine's vector equality, a movement input with a component of at least 1e-5 is non-zero, and one with both components below 5e-6 counts as zero |
| `Controller.MovingLaterallyIsSpeedAboveThreshold` | Assets/Scripts/PlayerController.cs:68-73 | the lateral test holds iff the length of (x, z) is strictly above the threshold, whatever the vertical component |
| `Controller.LateralStateCases` | Assets/Scripts/PlayerController.cs:56-66 | Sprinting iff sprint is on and moving laterally; Idling iff no movement input and not moving; Running otherwise; never Walking, Jumping or Falling; always grounded |
| `Controller.MovementInputIsLengthAtLeastEpsilon` | Assets/Scripts/PlayerController.cs:58 | under the engine's vector equality, a movement input counts as present iff its length is at least 1e-5 |
| `Controller.IdleIffSlowAndNoInput` | Assets/Scripts/PlayerController.cs:58-72 | for every input and velocity, the state is Idling iff the input is shorter than 1e-5 and the lateral speed is at most the threshold (a speed equal to the threshold counts as not moving) |
| `Controller.SprintLimitsOnlyWhenSprinting` | Assets/Scripts/PlayerController.cs:77-80 | sprint acceleration and sprint cap in state Sprinting; run acceleration and run cap in every other state |
| `Controller.Normalized` | Assets/Scripts/PlayerController.cs:89 | the unit direction of a velocity longer than 1e-5 (same sign, length one), zero otherwise |
| `Controller.ClampComparesSquares` | Assets/Scripts/PlayerController.cs:91 | the engine's squared-length test is the length test used by the model |
| `Controller.ClampMagnitudeBounds` | Assets/Scripts/PlayerController.cs:91 | clamping never lengthens; with a non-negative cap it keeps the direction and gives length min(length, cap) |
| `Controller.DragAndClampBounds` | Assets/Scripts/PlayerController.cs:89-91 | speed at most drag*dt gives exactly zero; with non-negative drag step never faster than before drag; with non-negative cap never above the cap |
| `Controller.DragThenClampSpeed` | Assets/Scripts/PlayerController.cs:89-91 | for non-negative drag step and cap and a speed above 1e-5 or at most drag*dt, speed becomes min(max(s - drag*dt, 0), cap) without reversing direction |
| `Controller.FrameVelocityBounds` | Assets/Scripts/PlayerController.cs:77-91 | one integration step: not faster than after acceleration (drag, dt >= 0), not above the state's cap (cap >= 0), exactly zero when the post-acceleration speed is at most drag*dt |
| `Controller.FrameWithoutInput` | Assets/Scripts/PlayerController.cs:84-91 | with no movement direction the step is drag and clamp alone |
| `Controller.CoastStep` | Assets/Scripts/PlayerController.cs:89-91 | without input each frame removes at least drag*dt of speed or stops the body |
| `Controller.CoastComesToRest` | Assets/Scripts/PlayerController.cs:86-93 | without input, after n frames the speed is at most max(s - n*drag*dt, 0), and exactly zero once n*drag*dt reaches the initial speed |
| `Controller.Clamp` | Assets/Scripts/PlayerController.cs:45-48 | with min <= max the result lies in [min, max], and a value already inside is returned unchanged |
| `Controller.CameraAfterLookBounds` | Assets/Scripts/PlayerController.cs:44-48 | after one frame the pitch lies in [-limit, limit] (limit >= 0) and the yaw grows by sensitivity * look.x |
| `Controller.YawAccumulates` | Assets/Scripts/PlayerController.cs:44 | over any number of frames the yaw is the start plus sensitivity times the summed horizontal input, never clamped |
| `Controller.PitchStaysInRange` | Assets/Scripts/PlayerController.cs:45-48 | starting within the limits, the pitch stays within them over any number of frames |
| `Controller.PitchUnclamped` | Assets/Scripts/PlayerController.cs:45-48 | while no frame hits a limit, the pitch is the start minus the summed pitch changes |
| `Controller.PitchRoundTrip` | Assets/Scripts/PlayerController.cs:45-48 | while no frame hits a limit, the pitch is start minus sensitivity times the summed vertical input, so net-zero input returns it to the start |
| `Controller.PitchRoundTripBrokenByClamp` | Assets/Scripts/PlayerController.cs:45-48 | with the shipped settings, a net-zero input that first hits the 89-degree limit ends at pitch -11, not 0 |
| `Controller.PlayerController.constructor` | Assets/Scripts/PlayerController.cs:24-34 | the sibling components are fixed and both rotations start at zero |
| `Controller.PlayerController.UpdateMovementState` | Assets/Scripts/PlayerController.cs:56-66 | the stored state becomes the lateral state of the stored movement input, the sprint flag and the velocity; nothing else may change |
| `Controller.PlayerController.HandleMovement` | Assets/Scripts/PlayerController.cs:75-94 | the new velocity is one integration step for the current state, and the displacement requested is that velocity times dt |
| `Controller.PlayerController.LateUpdate` | Assets/Scripts/PlayerController.cs:42-54 | the camera yaw accumulates, the pitch is clamped, and the body target yaw adds the body's Euler x angle plus the yaw input; the body and camera Euler angles are returned |

## Left out

- `Assets/Scripts/PlayerAnimation.cs`: it only writes animator parameters and smooths a vector with a float interpolation. Its state-to-multiplier choice only feeds rendering.
- Engine lifecycle and wiring (`Awake`, `GetComponent`, `OnEnable`, `OnDisable`, callback registration) are left out. The controller's constructor takes its sibling components instead.
- `PlayerController.Update` only calls `UpdateMovementState` and then `HandleMovement`. The two are modelled separately because the state test reads the 3D velocity and the integration follows one line of motion.
- `Controller.PlayerController.HandleMovement`: it models only frames whose velocity and movement direction lie on one horizontal line. Vertical velocity and turning are not modelled, because drag and clamp then act on the 3D length. The camera forward/right projection and its normalisation are outside the model, so the signed length of the direction along the line is a parameter.
- `Controller.DragThenClampSpeed`: it does not cover speeds between drag*dt and 1e-5. There `normalized` gives zero, so drag leaves the speed unchanged rather than subtracting drag*dt.
- The collision primitive's `Move` and `velocity` are outside the model. `HandleMovement` returns the displacement it would request. `CoastComesToRest` assumes the next frame's velocity is the one handed to the primitive.
- `Controller.PlayerController.LateUpdate`: the conversion of Euler angles to quaternions and the writes to the body and camera transforms are outside the model. The method returns the Euler angles instead.
- Float semantics are left out: every number is an idealised `real`, so rounding, overflow and NaN are not modelled.
- `Controller.CoastComesToRest`: it assumes drag*dt is at least 1e-5. Below that tolerance `normalized` gives zero, so a velocity between drag*dt and 1e-5 is not slowed by drag.
- The `CurrentPlayerMovementState` field can also be set from the editor inspector. Only the code-defined initial value is modelled.
