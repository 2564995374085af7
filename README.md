# PlayerMovement, modelled and verified in Dafny

This project models `PlayerMovement`, the Unity component that moves the player of a 2D
platformer. Once per frame, in `LateUpdate`, it does the following:

- takes over the collision resolver's velocity;
- grounds the player or lets them fall;
- acts on the input latches set between frames (`moveRight`, `moveLeft`, `jump`, `attack`);
- classifies the frame into an `Action`, and broadcasts "OnFacingRight" when the player turns;
- stops horizontal motion while falling against a wall;
- hands the action's cue to the weapon manager;
- smooths the horizontal speed and applies gravity, a knockback override and a vertical clamp;
- asks the controller to move, and records the position history in the shared player state.

The project has four modules:

- `UnityMath` (`unity_math.dfy`) holds `Mathf.Clamp` and `Mathf.Lerp` over `real`.
- `MotionSpec` (`motion_spec.dfy`) is the specification, written on values:
  - the component's fields (`Motion`), the shared player state (`Shared`) and the per-frame engine inputs (`FrameInput`);
  - one frame as the closed-form function `Step`, built from the two stages `AfterInput` and `AfterMotion`;
  - every event that can reach the component as `Apply`, and a run of events as `Replay`.
- `Movement` (`player_movement.dfy`) holds the classes `PlayerMovement` and `PlayerState`. Their methods update fields in place, helper by helper, in `LateUpdate`'s order. `Tick` is proved to leave exactly the world `Step` prescribes. Each setter, knockback method and death handler is proved to leave what `Apply` prescribes for its event.
- `FrameProperties` (`frame_properties.dfy`) and `RunProperties` (`run_properties.dfy`) hold what one frame promises and what holds over any run of events. The run properties are proved by induction over `Replay`.

## Model

| member | source | states |
|---|---|---|
| UnityMath.Clamp | Player/PlayerMovement.cs:400-412 | `Mathf.Clamp`: the result lies within the bounds, is the value itself inside them, and is the bound crossed outside them |
| UnityMath.Lerp | Player/PlayerMovement.cs:425-435 | `Mathf.Lerp` with `t` clamped: the result lies between the two ends, is the start for `t <= 0` and the target for `t >= 1` |
| MotionSpec.Classify | Player/PlayerMovement.cs:77-118 | the frame's action is never `Defend`; it is `Fall` or `JumpAttack` exactly when airborne, and an attack action exactly when the attack latch was set |
| MotionSpec.Dispatch | Player/PlayerMovement.cs:307-359 | the weapon cue is missing (the failing default case) exactly for `Defend`; `Fall` and `Idle` map to their own cues and no other action does |
| MotionSpec.ClampY | Player/PlayerMovement.cs:376-412 | the clamped vertical speed lies in [-maxFallingSpeed, maxRisingSpeed] under the fast-platform condition and in [-maxFallingSpeed, maxFallingSpeed] otherwise; a speed already within range is unchanged |
| MotionSpec.MovingTooFast | Player/PlayerMovement.cs:376-379 | the player rose by more than `speedCheck` since the last frame; the frame-level consequence is stated by `ClampY`, `ThrottledJumpIsHeldToRisingSpeed` and `VerticalSpeedBounded` |
| MotionSpec.Smooth | Player/PlayerMovement.cs:425-435 | the smoothed horizontal speed lies between the current speed and intent × run speed, stays put for a zero frame time, and reaches the target once frame time × damping reaches 1 |
| MotionSpec.Fallen | Player/PlayerMovement.cs:381-384 | a positive frame time strictly lowers the vertical speed; a zero frame time keeps it |
| MotionSpec.Repulse | Player/PlayerMovement.cs:386-398 | under a knockback the vertical speed is 0 and the horizontal speed is ± the knockback speed, negative for a left knockback (checked first); without one the velocity is kept |
| MotionSpec.WallCorrected | Player/PlayerMovement.cs:366-374 | a wall-fall zeroes the intent and `velocity.x`; the shared state, `velocity.y`, the action and the facing are untouched, and without a wall-fall nothing changes |
| MotionSpec.Step | Player/PlayerMovement.cs:71-137 | one `LateUpdate`: it emits output exactly when enabled, never changes the enabled flag, and broadcasts the facing event of the executed move; its frame properties are the `FrameProperties` lemmas and `Tick` implements it |
| MotionSpec.Apply | Player/PlayerMovement.cs:49-67 | the events between frames (latch setters, knockback start and timer, death, contact sensing) leave velocity and action alone; only frames and contact sensing touch the shared state; only the death message changes the enabled flag |
| MotionSpec.LatchesActedOnIsResolved | Player/PlayerMovement.cs:73-118 | the field-by-field description of the input-handling block (which fields change, to what, and which are untouched) determines exactly one world, `Resolved` |
| MotionSpec.MotionIntegratedIsAfterMotion | Player/PlayerMovement.cs:124-136 | the field-by-field description of the integration stage determines exactly one world, `AfterMotion` |
| Movement.PlayerMovement.constructor | Player/PlayerMovement.cs:16-38 | a new component has every field at its default, the action at `Idle`, and is enabled |
| Movement.PlayerMovement.MoveRight | Player/PlayerMovement.cs:49-52 | sets the `moveRight` latch and changes nothing else (the `MoveRightPressed` event) |
| Movement.PlayerMovement.MoveLeft | Player/PlayerMovement.cs:54-57 | sets the `moveLeft` latch and changes nothing else |
| Movement.PlayerMovement.Jump | Player/PlayerMovement.cs:59-62 | sets the `jump` latch and changes nothing else |
| Movement.PlayerMovement.Attack | Player/PlayerMovement.cs:64-67 | sets the `attack` latch and changes nothing else |
| Movement.PlayerMovement.Tick | Player/PlayerMovement.cs:71-137 | one `LateUpdate` leaves the component and the shared state exactly as `Step` prescribes and emits `Step`'s cue, facing broadcast and displacement; a disabled component changes nothing and emits nothing |
| Movement.PlayerMovement.HandleInput | Player/PlayerMovement.cs:73-120 | the statements up to the freefall check leave exactly `AfterInput` of the starting world and report the facing broadcast of the executed move |
| Movement.PlayerMovement.ActOnLatches | Player/PlayerMovement.cs:73-118 | after taking over the engine's velocity, grounding and the input block, each written field holds its closed form (intent, facing, latches, launch velocity, classified action, grounded, fast-platform jump) |
| Movement.PlayerMovement.ResolveIntent | Player/PlayerMovement.cs:77-118 | the input block runs at most one move, `moveRight` first, then idle, jump or attack; it leaves the classified action, the intent, the cleared latches and the jump impulse exactly when a jump executes |
| Movement.PlayerMovement.CheckIfStandingOrFalling | Player/PlayerMovement.cs:139-154 | on the ground `velocity.y` is 0, the player is grounded and the fast-platform jump flag is cleared; in the air the action is `Fall` and the player is not grounded |
| Movement.PlayerMovement.PlayerIdle | Player/PlayerMovement.cs:156-167 | idle sets intent 0 and action `Idle`, and grounds the player |
| Movement.PlayerMovement.PlayerJump | Player/PlayerMovement.cs:169-184 | a jump sets `velocity.y` to the jump impulse and the action to `Jump`, consumes the latch and leaves the ground; it marks a fast-platform jump only when riding one while moving horizontally |
| Movement.PlayerMovement.MovePlayerRight | Player/PlayerMovement.cs:186-220 | intent +1, facing right, latch cleared, `Run` only on the ground; the broadcast fires, and the shared facing changes, only when the player was facing left |
| Movement.PlayerMovement.MovePlayerLeft | Player/PlayerMovement.cs:222-256 | intent -1, facing left, latch cleared, `Run` only on the ground; the broadcast fires, and the shared facing changes, only when the player was facing right |
| Movement.PlayerMovement.AttackWhileIdle | Player/PlayerMovement.cs:258-269 | clears the attack latch; on the ground sets `Attack` and intent 0, in the air changes neither |
| Movement.PlayerMovement.AttackWhileRunning | Player/PlayerMovement.cs:271-281 | clears the attack latch; sets `RunAttack` only on the ground |
| Movement.PlayerMovement.AttackWhileJumping | Player/PlayerMovement.cs:283-292 | sets `JumpAttack` and clears both the jump and the attack latch |
| Movement.PlayerMovement.CheckForFreefall | Player/PlayerMovement.cs:366-374 | falling against a wall zeroes the intent and `velocity.x`; otherwise nothing changes |
| Movement.PlayerMovement.ActionDispatcher | Player/PlayerMovement.cs:307-359 | returns the cue for the current action, and no cue exactly for `Defend` |
| Movement.PlayerMovement.Integrate | Player/PlayerMovement.cs:124-136 | the second half of `LateUpdate` leaves exactly `AfterMotion` and requests the displacement velocity × frame time |
| Movement.PlayerMovement.UpdateVelocity | Player/PlayerMovement.cs:126-132 | smoothing, gravity, knockback and clamp, in that order, leave `FinalVelocity` |
| Movement.PlayerMovement.SaveCurrentPosition | Player/PlayerMovement.cs:419-423 | the shared state receives the snapshot position |
| Movement.PlayerMovement.ComputeMovement | Player/PlayerMovement.cs:425-435 | `velocity.x` becomes the `Lerp` toward intent × run speed, damped by the ground or air factor; `velocity.y` is kept |
| Movement.PlayerMovement.ApplyGravity | Player/PlayerMovement.cs:381-384 | `velocity.y` gains gravity × frame time; `velocity.x` is kept |
| Movement.PlayerMovement.ComputeRepulse | Player/PlayerMovement.cs:386-398 | a left knockback sets the velocity to (-repulseVelocity, 0), else a right one to (repulseVelocity, 0), else the velocity is kept |
| Movement.PlayerMovement.ClampYMovement | Player/PlayerMovement.cs:376-412 | `velocity.y` is clamped with the rising limit exactly under the fast-platform condition; `velocity.x` is kept |
| Movement.PlayerMovement.ApplyMovement | Player/PlayerMovement.cs:414-417 | the displacement handed to the controller is the frame's final velocity × frame time; what that promises (no horizontal drift in a wall-fall, a pure sideways push under a knockback) is proved in `WallFallStopsHorizontalMotion` and `KnockbackOverrides` |
| Movement.PlayerMovement.SavePreviousPosition | Player/PlayerMovement.cs:437-452 | the moved-to position becomes the previous position in both places, and "moving horizontally" holds exactly when x changed |
| Movement.PlayerMovement.RepulseToLeft | Player/PlayerMovement.cs:454-459 | a left knockback with the drawn speed is started (the `RepulsedLeft` event) |
| Movement.PlayerMovement.RepulseToRight | Player/PlayerMovement.cs:461-466 | a right knockback with the drawn speed is started |
| Movement.PlayerMovement.RepulseTimerElapsed | Player/PlayerMovement.cs:468-473 | the timer's expiry clears both knockback flags and nothing else |
| Movement.PlayerMovement.OnPlayerDead | Player/PlayerMovement.cs:475-478 | the death message disables the component and changes nothing else |
| FrameProperties.JumpImpulseIsRoundedRoot | Player/PlayerMovement.cs:171 | the jump impulse lies within half a single-precision ulp of the square root of 2 × jumpHeight × -gravity |
| FrameProperties.ActionTable | Player/PlayerMovement.cs:77-118 | the action of an enabled frame, case by case over the grounded flag and the latches, and the cue dispatched for it |
| FrameProperties.FrameAction | Player/PlayerMovement.cs:77-118 | an enabled frame leaves the action `Classify` assigns to the grounded flag and the latches |
| FrameProperties.ActionIgnoresPreviousAction | Player/PlayerMovement.cs:139-154 | the action a frame leaves does not depend on the action left by the previous frame, although grounding does not reset it |
| FrameProperties.DefendIsNeverDispatched | Player/PlayerMovement.cs:307-359 | `Defend` is never produced, every enabled frame dispatches a cue, and an attack cue exactly when the attack latch was set |
| FrameProperties.GroundingAndLaunch | Player/PlayerMovement.cs:139-184 | on the ground `velocity.y` is 0 and the player grounded unless a jump executes, which launches with the positive impulse and leaves the ground; in the air the player is not grounded |
| FrameProperties.LatchesAfterFrame | Player/PlayerMovement.cs:77-118 | `attack` and `moveRight` never survive a frame; `moveLeft` survives exactly when `moveRight` was also set; `jump` stays pending exactly when requested in the air without attacking or on the ground while attacking |
| FrameProperties.MovePriority | Player/PlayerMovement.cs:77-118 | `moveRight` wins over `moveLeft` and the executed move sets the facing, in every enabled frame; away from a wall-fall the executed move sets intent ±1 and no move on the ground sets intent 0 |
| FrameProperties.AirborneIntentKept | Player/PlayerMovement.cs:77-91 | in the air with no move input, the horizontal intent of the previous frame is kept |
| FrameProperties.FacingBroadcast | Player/PlayerMovement.cs:186-256 | the broadcast fires exactly when the facing changes, carries the new facing, and leaves both facing flags agreeing |
| FrameProperties.RepeatedMoveIsSilent | Player/PlayerMovement.cs:186-256 | a move in the direction already faced broadcasts nothing and changes neither facing flag |
| FrameProperties.WallFallStopsHorizontalMotion | Player/PlayerMovement.cs:366-374 | falling against a wall ends the frame with intent 0 and, without a knockback, no horizontal speed and no horizontal displacement, whatever move was requested |
| FrameProperties.KnockbackOverrides | Player/PlayerMovement.cs:386-398 | a knockback overrides the frame's velocity, left before right, and its zero vertical speed survives the clamp; the displacement is ± knockback speed × frame time sideways and 0 vertically |
| FrameProperties.VerticalSpeedBounded | Player/PlayerMovement.cs:376-412 | the vertical speed a frame leaves is within ±maxFallingSpeed, and at most maxRisingSpeed under the fast-platform condition |
| FrameProperties.ThrottledJumpIsHeldToRisingSpeed | Player/PlayerMovement.cs:400-412 | for every enabled frame in which a jump executes without a knockback under the fast-platform condition, with frame time at most 0.1, the final vertical speed is exactly maxRisingSpeed |
| FrameProperties.UnthrottledJumpKeepsImpulse | Player/PlayerMovement.cs:169-184 | for every enabled frame in which a jump executes without a knockback and outside the fast-platform condition, with frame time at most 1, the final vertical speed is the jump impulse plus one frame of gravity |
| FrameProperties.JumpOffFastPlatformIsThrottled | Player/PlayerMovement.cs:400-412 | a concrete instance of the contrast: on a fast platform that just rose by half a unit, a jump while standing still is held to maxRisingSpeed, the same jump while running keeps the impulse less one frame of gravity |
| FrameProperties.PositionHistory | Player/PlayerMovement.cs:419-452 | the snapshot goes to the shared state, the moved-to position becomes the previous position in both places, and "moving horizontally" compares x with the previous frame's |
| FrameProperties.FrameKeepsExternalState | Player/PlayerMovement.cs:71-137 | a frame leaves the knockback, the enabled flag and the contact flags as they were |
| FrameProperties.DisabledFrameIsInert | Player/PlayerMovement.cs:475-478 | a disabled component ignores the frame entirely |
| RunProperties.FreshComponentIsCoherent | Player/PlayerMovement.cs:16-38 | a new component is coherent with a shared state at its defaults |
| RunProperties.StepKeepsCoherent | Player/PlayerMovement.cs:71-137 | one frame keeps the component's invariant: intent in {-1, 0, 1}, no `Defend`, vertical speed within ±maxFallingSpeed, facing and previous position agreeing with the shared state |
| RunProperties.ApplyKeepsCoherent | Player/PlayerMovement.cs:49-67 | every event keeps that invariant |
| RunProperties.ReplayKeepsCoherent | Player/PlayerMovement.cs:49-137 | any run of events keeps that invariant |
| RunProperties.ReplayConcat | Player/PlayerMovement.cs:49-137 | running two runs of events in turn is running their concatenation |
| RunProperties.PendingJumpStep | Player/PlayerMovement.cs:77-118 | one event that presses no attack and lands on no ground keeps a pending jump pending |
| RunProperties.PendingJumpWaitsForGround | Player/PlayerMovement.cs:77-118 | a jump requested in the air stays pending through any run of events until a grounded frame or an attack |
| RunProperties.PendingKnockbackStep | Player/PlayerMovement.cs:454-473 | one event other than the timer keeps a left knockback, and a frame ends with its velocity |
| RunProperties.KnockbackLastsUntilTimer | Player/PlayerMovement.cs:454-473 | a left knockback lasts through any run of events until the timer fires |
| RunProperties.KnockbackHoldsEveryFrame | Player/PlayerMovement.cs:386-398 | after a left knockback, every enabled frame at the end of a timer-free run of events ends with the knockback velocity |
| RunProperties.TimerEndsKnockback | Player/PlayerMovement.cs:468-473 | the timer clears both knockback directions and keeps the velocity |
| RunProperties.DeathStep | Player/PlayerMovement.cs:475-478 | no single event enables a disabled component |
| RunProperties.DeathIsFinal | Player/PlayerMovement.cs:475-478 | no run of events enables a component again after the player died |
| RunProperties.DeadPlayerStaysStill | Player/PlayerMovement.cs:475-478 | frames reaching a dead player's component change nothing |
| RunProperties.AttackIsServedNextFrame | Player/PlayerMovement.cs:97-118 | an attack pressed before an enabled frame is acted on by that frame: the latch is cleared and the action is an attack |

## Left out

- Animator calls (`anim.SetBool`) are presentation only and are not modelled.
- The sprite flip and its `ABOUTFACE_OFFSET` position nudge in the move routines are not modelled. The snapshot position in `FrameInput` is the transform position after any such nudge.
- The weapon manager is reduced to the cue it receives. Its category tokens are defined outside this file, so they appear as the `WeaponCue` values.
- `Start`, `GetComponent`, and the `Messenger` listener registration in `OnEnable` and `OnDestroy` are Unity wiring. The death message is the `OnPlayerDead` method.
- `controller.isGrounded`, `controller.velocity`, `Time.deltaTime`, the transform position at the snapshot, and the position the controller leaves after `controller.move` come from the engine. They are the fields of `FrameInput`. The collision resolver itself is not modelled.
- Single-precision floats are modelled as exact reals, so rounding in `Lerp`, gravity and the clamp is not captured. `Mathf.Sqrt(2 * jumpHeight * -gravity)` is the float nearest to the square root of 245, written as a constant.
- `Rand.Range` draws are parameters: the knockback speed is the `drawn` argument. The `WaitForSeconds` coroutine is the separate `RepulseTimerElapsed` call, made once per started timer. Its random delay, and timers that overlap when knockbacks are restarted, are not modelled.
- Other components write the shared state's fast-platform and wall contacts. They appear only as the `Sensed` event of `Apply`, with no method on the classes.
- `Vector3.z` is never used and is dropped.
- The commented-out `AttackWhileJumpingBUG` is not live code and is not modelled.
- A disabled component still accepts the latch setters and the knockback calls: Unity stops only `LateUpdate`. Frames do not reach it. The model follows the code here, even though a disabled component could be described as ignoring all input.
- The jump impulse is the single-precision rounding of the exact root `sqrt(2 * jumpHeight * -gravity)`, not the root itself.
