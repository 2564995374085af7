/**
 * What one `LateUpdate` promises, stated over `MotionSpec.Step` for an enabled component:
 * how the action is chosen, which latches survive, when the facing broadcast fires, how the
 * wall-fall, knockback and vertical clamp shape the velocity, and what is recorded for the
 * next frame.
 */
module FrameProperties {
  import opened UnityMath
  import opened MotionSpec

  /** Half a unit in the last place of a single-precision float between 8 and 16. */
  const HalfUlp: real := 1.0 / 2097152.0

  /**
   * The jump impulse is the single-precision rounding of the square root of
   * `2 * jumpHeight * -gravity` (245): it lies within half an ulp of that root.
   */
  lemma JumpImpulseIsRoundedRoot()
    ensures 0.0 < JumpImpulse - HalfUlp
    ensures (JumpImpulse - HalfUlp) * (JumpImpulse - HalfUlp) < 2.0 * JumpHeight * -Gravity
    ensures 2.0 * JumpHeight * -Gravity < (JumpImpulse + HalfUlp) * (JumpImpulse + HalfUlp)
  {
  }

  /**
   * The action of an enabled frame is decided by the grounded flag and the latches alone, as
   * this table says; the dispatched cue is the one for that action.
   */
  lemma ActionTable(w: World, inp: FrameInput)
    requires w.m.enabled
    ensures var m, g, a := w.m, inp.grounded, Step(w, inp).next.m.action;
      && (!g && m.attack ==> a == JumpAttack)
      && (!g && !m.attack ==> a == Fall)
      && (g && m.attack && (m.moveRight || m.moveLeft) ==> a == RunAttack)
      && (g && m.attack && !m.moveRight && !m.moveLeft ==> a == Attack)
      && (g && !m.attack && m.jump ==> a == Jump)
      && (g && !m.attack && !m.jump && (m.moveRight || m.moveLeft) ==> a == Run)
      && (g && !m.attack && !m.jump && !m.moveRight && !m.moveLeft ==> a == Idle)
    ensures Step(w, inp).out == Some(Step(w, inp).out.value)
    ensures Step(w, inp).out.value.cue == Dispatch(Step(w, inp).next.m.action)
  {
  }

  /** The action a frame leaves does not depend on the action the previous frame left. */
  lemma ActionIgnoresPreviousAction(w: World, inp: FrameInput, earlier: Action)
    requires w.m.enabled
    ensures Step(w.(m := w.m.(action := earlier)), inp).next.m.action == Step(w, inp).next.m.action
  {
    FrameAction(w, inp);
    FrameAction(w.(m := w.m.(action := earlier)), inp);
  }

  /** The action a frame leaves is `Classify` of the grounded flag and the latches. */
  lemma FrameAction(w: World, inp: FrameInput)
    requires w.m.enabled
    ensures Step(w, inp).next.m.action == Classify(inp.grounded, w.m.attack, w.m.moveRight, w.m.moveLeft, w.m.jump)
  {
  }

  /**
   * `Defend` is never produced, so the dispatcher's failing default case is unreachable: every
   * enabled frame hands the weapon manager a cue, and an attack latch yields an attack cue.
   */
  lemma DefendIsNeverDispatched(w: World, inp: FrameInput)
    requires w.m.enabled
    ensures Step(w, inp).next.m.action != Defend
    ensures Step(w, inp).out.Some? && Step(w, inp).out.value.cue.Some?
    ensures w.m.attack <==> Step(w, inp).out.value.cue.value in {AttackCue, RunAttackCue, JumpAttackCue}
  {
  }

  /**
   * Grounding: on the ground the engine's vertical speed is dropped and the player is grounded,
   * unless a jump executes, which launches with the positive jump impulse and leaves the ground;
   * in the air the player is not grounded and the engine's vertical speed is kept. Shown at the
   * moment of dispatch, before gravity.
   */
  lemma GroundingAndLaunch(w: World, inp: FrameInput)
    requires w.m.enabled
    ensures var h, jumps := AfterInput(w, inp), inp.grounded && w.m.jump && !w.m.attack;
      && (jumps ==> !h.s.grounded && h.m.velocity.y == JumpImpulse > 0.0)
      && (inp.grounded && !jumps ==> h.s.grounded && h.m.velocity.y == 0.0)
      && (!inp.grounded ==> !h.s.grounded && h.m.velocity.y == inp.velocity.y)
    ensures Step(w, inp).next.s.grounded == AfterInput(w, inp).s.grounded
    ensures inp.grounded ==>
      (Step(w, inp).next.s.jumpedFromFastPlatform <==>
         w.m.jump && !w.m.attack && w.s.ridingFastPlatform && w.s.movingHorizontally)
    ensures !inp.grounded ==> Step(w, inp).next.s.jumpedFromFastPlatform == w.s.jumpedFromFastPlatform
  {
  }

  /**
   * Latches: `attack` and `moveRight` never survive a frame; `moveLeft` survives exactly when
   * `moveRight` took priority over it; `jump` stays pending exactly when it was requested in
   * the air without attacking, or on the ground while attacking.
   */
  lemma LatchesAfterFrame(w: World, inp: FrameInput)
    requires w.m.enabled
    ensures var m, n, g := w.m, Step(w, inp).next.m, inp.grounded;
      && !n.attack && !n.moveRight
      && (n.moveLeft <==> m.moveLeft && m.moveRight)
      && (n.jump <==> m.jump && ((!g && !m.attack) || (g && m.attack)))
  {
  }

  /**
   * Moves: `moveRight` wins over `moveLeft`, and the executed move sets the facing accordingly.
   * Away from a wall-fall, it also sets the horizontal intent to +1 or -1, and without a move
   * the intent drops to 0 on the ground (idle or standing attack).
   */
  lemma MovePriority(w: World, inp: FrameInput)
    requires w.m.enabled
    ensures var m, n := w.m, Step(w, inp).next.m;
      && (m.moveRight ==> n.facingRight)
      && (!m.moveRight && m.moveLeft ==> !n.facingRight)
      && (!m.moveRight && !m.moveLeft ==> n.facingRight == m.facingRight)
    ensures var m, n, wallFall := w.m, Step(w, inp).next.m, w.s.touchingWall && !inp.grounded;
      && (!wallFall && m.moveRight ==> n.normalizedHorizontalSpeed == 1.0)
      && (!wallFall && !m.moveRight && m.moveLeft ==> n.normalizedHorizontalSpeed == -1.0)
      && (!wallFall && !m.moveRight && !m.moveLeft && inp.grounded ==> n.normalizedHorizontalSpeed == 0.0)
  {
  }

  /** In the air with no move input, the horizontal intent of the previous frame is kept. */
  lemma AirborneIntentKept(w: World, inp: FrameInput)
    requires w.m.enabled && !inp.grounded && !w.s.touchingWall
    requires !w.m.moveRight && !w.m.moveLeft
    ensures Step(w, inp).next.m.normalizedHorizontalSpeed == w.m.normalizedHorizontalSpeed
  {
  }

  /**
   * The "OnFacingRight" broadcast fires exactly when the facing changes, carries the new facing,
   * and afterwards the component and the shared state agree on it; without a broadcast the shared
   * facing is left alone.
   */
  lemma FacingBroadcast(w: World, inp: FrameInput)
    requires w.m.enabled
    ensures var n, o := Step(w, inp).next, Step(w, inp).out.value;
      && (o.facingChanged.Some? <==> n.m.facingRight != w.m.facingRight)
      && (o.facingChanged.Some? ==> o.facingChanged.value == n.m.facingRight == n.s.facingRight)
      && (o.facingChanged.None? ==> n.s.facingRight == w.s.facingRight)
  {
  }

  /** A move in the direction already faced broadcasts nothing and changes neither facing flag. */
  lemma RepeatedMoveIsSilent(w: World, inp: FrameInput)
    requires w.m.enabled
    requires (w.m.moveRight && w.m.facingRight) || (!w.m.moveRight && w.m.moveLeft && !w.m.facingRight)
    ensures Step(w, inp).out.value.facingChanged == None
    ensures Step(w, inp).next.m.facingRight == w.m.facingRight
    ensures Step(w, inp).next.s.facingRight == w.s.facingRight
  {
  }

  /**
   * Falling against a wall drops the horizontal intent and the horizontal speed, whatever move
   * was requested; without a knockback the frame ends with no horizontal speed and requests no
   * horizontal displacement.
   */
  lemma WallFallStopsHorizontalMotion(w: World, inp: FrameInput)
    requires w.m.enabled && w.s.touchingWall && !inp.grounded
    ensures Step(w, inp).next.m.normalizedHorizontalSpeed == 0.0
    ensures AfterInput(w, inp).m.velocity.x == 0.0
    ensures !w.m.repulseLeft && !w.m.repulseRight ==> Step(w, inp).next.m.velocity.x == 0.0
    ensures !w.m.repulseLeft && !w.m.repulseRight ==> Step(w, inp).out.value.moveDelta.x == 0.0
  {
    var h := AfterInput(w, inp);
    assert Smooth(h.m.velocity.x, h.m.normalizedHorizontalSpeed, inp.grounded, inp.dt) == 0.0 by {
      assert h.m.normalizedHorizontalSpeed * RunSpeed == 0.0;
    }
  }

  /**
   * A knockback overrides the frame's velocity, left before right, and its zero vertical speed
   * survives the clamp: the player is pushed sideways by the knockback speed and not at all
   * vertically.
   */
  lemma KnockbackOverrides(w: World, inp: FrameInput)
    requires w.m.enabled
    ensures w.m.repulseLeft ==> Step(w, inp).next.m.velocity == Vec(-w.m.repulseVelocity, 0.0)
    ensures w.m.repulseLeft ==> Step(w, inp).out.value.moveDelta == Vec(-w.m.repulseVelocity * inp.dt, 0.0)
    ensures !w.m.repulseLeft && w.m.repulseRight ==>
      Step(w, inp).next.m.velocity == Vec(w.m.repulseVelocity, 0.0)
    ensures !w.m.repulseLeft && w.m.repulseRight ==>
      Step(w, inp).out.value.moveDelta == Vec(w.m.repulseVelocity * inp.dt, 0.0)
  {
  }

  /**
   * The vertical speed a frame leaves never exceeds `maxFallingSpeed` either way, and is held to
   * `maxRisingSpeed` when the player rose by more than `speedCheck` while riding a fast platform
   * without moving horizontally.
   */
  lemma VerticalSpeedBounded(w: World, inp: FrameInput)
    requires w.m.enabled
    ensures -MaxFallingSpeed <= Step(w, inp).next.m.velocity.y <= MaxFallingSpeed
    ensures inp.position.y - w.m.previousY > SpeedCheck && w.s.ridingFastPlatform && !w.s.movingHorizontally
      ==> Step(w, inp).next.m.velocity.y <= MaxRisingSpeed
  {
  }

  /**
   * A jump from a fast platform that carried the player up by more than `speedCheck` while not
   * moving horizontally is held to the rising limit (for any frame time up to a tenth of a second).
   */
  lemma ThrottledJumpIsHeldToRisingSpeed(w: World, inp: FrameInput)
    requires w.m.enabled && JumpExecutes(w.m, inp.grounded)
    requires !w.m.repulseLeft && !w.m.repulseRight
    requires Throttled(w.m, w.s, inp.position.y) && 0.0 <= inp.dt <= 0.1
    ensures Step(w, inp).next.m.velocity.y == MaxRisingSpeed
  {
  }

  /**
   * Any other jump keeps the jump impulse, less one frame of gravity (for any frame time up to a
   * second).
   */
  lemma UnthrottledJumpKeepsImpulse(w: World, inp: FrameInput)
    requires w.m.enabled && JumpExecutes(w.m, inp.grounded)
    requires !w.m.repulseLeft && !w.m.repulseRight
    requires !Throttled(w.m, w.s, inp.position.y) && 0.0 <= inp.dt <= 1.0
    ensures Step(w, inp).next.m.velocity.y == JumpImpulse + Gravity * inp.dt
  {
  }

  /** A world riding a fast platform, about to jump, moving horizontally or not. */
  function OnFastPlatform(moving: bool): World {
    var m := InitialMotion().(jump := true, previousY := 1.0);
    World(m, Shared(true, false, false, 0.0, 0.0, 0.0, 1.0, moving, true, false))
  }

  /**
   * The contrast at the clamp boundary, on one concrete frame: the platform has just risen by half
   * a unit; standing still on it the jump is held to the rising limit, while running on it the
   * same jump keeps the impulse less one frame of gravity.
   */
  lemma JumpOffFastPlatformIsThrottled()
    ensures var inp := FrameInput(true, Vec(0.0, 0.0), Vec(0.0, 1.5), Vec(0.0, 1.6), 0.01);
      && Step(OnFastPlatform(false), inp).next.m.velocity.y == MaxRisingSpeed
      && Step(OnFastPlatform(true), inp).next.m.velocity.y == JumpImpulse - 0.35
  {
    var inp := FrameInput(true, Vec(0.0, 0.0), Vec(0.0, 1.5), Vec(0.0, 1.6), 0.01);
    ThrottledJumpIsHeldToRisingSpeed(OnFastPlatform(false), inp);
    UnthrottledJumpKeepsImpulse(OnFastPlatform(true), inp);
  }

  /**
   * Position history: the snapshot position goes to the shared state, the position after the
   * move becomes the previous position in both places, and "moving horizontally" compares it
   * with the previous frame's.
   */
  lemma PositionHistory(w: World, inp: FrameInput)
    requires w.m.enabled
    ensures var n := Step(w, inp).next;
      && n.s.x == inp.position.x && n.s.y == inp.position.y
      && n.m.previousX == n.s.previousX == inp.movedTo.x
      && n.m.previousY == n.s.previousY == inp.movedTo.y
      && (n.s.movingHorizontally <==> w.m.previousX != inp.movedTo.x)
  {
  }

  /**
   * A frame leaves the knockback, the enabled flag and the contacts other components maintain
   * as they were.
   */
  lemma FrameKeepsExternalState(w: World, inp: FrameInput)
    ensures var n := Step(w, inp).next;
      && n.m.repulseLeft == w.m.repulseLeft && n.m.repulseRight == w.m.repulseRight
      && n.m.repulseVelocity == w.m.repulseVelocity && n.m.enabled == w.m.enabled
      && n.s.ridingFastPlatform == w.s.ridingFastPlatform && n.s.touchingWall == w.s.touchingWall
  {
  }

  /** A disabled component ignores the frame: nothing changes and nothing is emitted. */
  lemma DisabledFrameIsInert(w: World, inp: FrameInput)
    requires !w.m.enabled
    ensures Step(w, inp).next == w && Step(w, inp).out.None?
  {
  }
}
