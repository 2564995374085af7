/**
 * The `PlayerMovement` component as a class whose methods update its fields in place, in the
 * order `LateUpdate` runs them, together with the shared player state object it reads and
 * writes. Every public method is proved to leave the state `MotionSpec` prescribes.
 */
module Movement {
  import opened UnityMath
  import opened MotionSpec

  /**
   * The shared player state (`IPlayerStateFullAccess`). `ridingFastPlatform` and `touchingWall`
   * are written by other components; the rest is written here.
   */
  class PlayerState {
    var grounded: bool
    var jumpedFromFastPlatform: bool
    var facingRight: bool
    var x: real
    var y: real
    var previousX: real
    var previousY: real
    var movingHorizontally: bool
    var ridingFastPlatform: bool
    var touchingWall: bool

    function Snapshot(): Shared
      reads this
    {
      Shared(grounded, jumpedFromFastPlatform, facingRight, x, y, previousX, previousY,
             movingHorizontally, ridingFastPlatform, touchingWall)
    }
  }

  class PlayerMovement {
    var normalizedHorizontalSpeed: real
    var previousX: real
    var previousY: real
    var repulseVelocity: real
    var facingRight: bool
    var moveRight: bool
    var moveLeft: bool
    var jump: bool
    var attack: bool
    var repulseRight: bool
    var repulseLeft: bool
    var velocity: Vec
    var action: Action
    var enabled: bool
    const state: PlayerState

    /** The component's own fields as a value. */
    function Current(): Motion
      reads this
    {
      Motion(normalizedHorizontalSpeed, previousX, previousY, repulseVelocity, facingRight,
             moveRight, moveLeft, jump, attack, repulseRight, repulseLeft, velocity, action, enabled)
    }

    /** The component together with the shared state it writes. */
    function Model(): World
      reads this, state
    {
      World(Current(), state.Snapshot())
    }

    /** A freshly added component bound to the player's shared state. */
    constructor (state: PlayerState)
      ensures this.state == state
      ensures Current() == InitialMotion()
    {
      this.state := state;
      normalizedHorizontalSpeed, previousX, previousY, repulseVelocity := 0.0, 0.0, 0.0, 0.0;
      facingRight, moveRight, moveLeft, jump, attack := false, false, false, false, false;
      repulseRight, repulseLeft := false, false;
      velocity := Vec(0.0, 0.0);
      action := Idle;
      enabled := true;
    }

    // Input latches, set by the input driver between frames.

    method MoveRight()
      modifies this`moveRight
      ensures Model() == Apply(old(Model()), MoveRightPressed)
    {
      moveRight := true;
    }

    method MoveLeft()
      modifies this`moveLeft
      ensures Model() == Apply(old(Model()), MoveLeftPressed)
    {
      moveLeft := true;
    }

    method Jump()
      modifies this`jump
      ensures Model() == Apply(old(Model()), JumpPressed)
    {
      jump := true;
    }

    method Attack()
      modifies this`attack
      ensures Model() == Apply(old(Model()), AttackPressed)
    {
      attack := true;
    }

    /**
     * One `LateUpdate`. The engine's grounded flag, resolved velocity, positions and frame time
     * arrive in `inp`; the result carries the weapon cue, the facing broadcast and the
     * displacement handed to `controller.move`. A disabled component does nothing.
     */
    method Tick(inp: FrameInput) returns (out: Option<FrameOutput>)
      modifies this, state
      ensures Step(old(Model()), inp) == Stepped(Model(), out)
    {
      if !enabled {
        return None;
      }
      var turned := HandleInput(inp);
      ghost var handled := Model();
      var cue := ActionDispatcher();
      var delta := Integrate(inp);
      MotionIntegratedIsAfterMotion(handled, inp, Model());
      out := Some(FrameOutput(cue, turned, delta));
    }

    /** `LateUpdate` up to the action dispatch: the frame's input is handled. */
    method HandleInput(inp: FrameInput) returns (turned: Option<bool>)
      modifies this`normalizedHorizontalSpeed, this`action, this`facingRight, this`moveRight, this`moveLeft,
               this`jump, this`attack, this`velocity, state`facingRight, state`grounded, state`jumpedFromFastPlatform
      ensures Model() == AfterInput(old(Model()), inp)
      ensures turned == FacingEvent(old(Current()))
    {
      ghost var start := Model();
      turned := ActOnLatches(inp);
      assert LatchesActedOn(start, inp, Model());
      LatchesActedOnIsResolved(start, inp, Model());
      CheckForFreefall(inp.grounded);
    }

    /** The statements of `LateUpdate` up to the input-handling block, field by field. */
    method ActOnLatches(inp: FrameInput) returns (turned: Option<bool>)
      modifies this`normalizedHorizontalSpeed, this`action, this`facingRight, this`moveRight, this`moveLeft,
               this`jump, this`attack, this`velocity, state`facingRight, state`grounded, state`jumpedFromFastPlatform
      ensures var m, s, g := old(Current()), old(state.Snapshot()), inp.grounded;
        && normalizedHorizontalSpeed == MoveIntent(m, g)
        && facingRight == FacingAfter(m)
        && !moveRight && moveLeft == (m.moveLeft && m.moveRight)
        && jump == (m.jump && !JumpConsumed(m, g)) && !attack
        && velocity == Vec(inp.velocity.x, LaunchY(m, inp))
        && action == Classify(g, m.attack, m.moveRight, m.moveLeft, m.jump)
        && state.grounded == (g && !JumpExecutes(m, g))
        && state.jumpedFromFastPlatform ==
             (if g then JumpExecutes(m, g) && s.ridingFastPlatform && s.movingHorizontally
              else s.jumpedFromFastPlatform)
        && state.facingRight == (if FacingEvent(m).Some? then FacingAfter(m) else s.facingRight)
        && turned == FacingEvent(m)
    {
      ghost var m, s := Current(), state.Snapshot();
      var grounded := inp.grounded;
      velocity := inp.velocity;
      CheckIfStandingOrFalling(grounded);
      turned := ResolveIntent(grounded, m, s);
    }

    /** `LateUpdate` from the position snapshot on: the velocity is integrated and the move requested. */
    method Integrate(inp: FrameInput) returns (delta: Vec)
      modifies this`velocity, this`previousX, this`previousY,
               state`x, state`y, state`movingHorizontally, state`previousX, state`previousY
      ensures MotionIntegrated(old(Model()), inp, Model())
      ensures delta == Scaled(velocity, inp.dt)
    {
      SaveCurrentPosition(inp.position);
      UpdateVelocity(inp);
      delta := ApplyMovement(inp.dt);
      SavePreviousPosition(inp.movedTo);
    }

    /** Smoothing, gravity, knockback and the vertical clamp, in `LateUpdate`'s order. */
    method UpdateVelocity(inp: FrameInput)
      modifies this`velocity
      ensures velocity == FinalVelocity(old(Current()), old(state.Snapshot()), inp)
    {
      ghost var m := Current();
      ComputeMovement(inp.grounded, inp.dt);
      ApplyGravity(inp.dt);
      assert velocity == Vec(Smooth(m.velocity.x, m.normalizedHorizontalSpeed, inp.grounded, inp.dt),
                             Fallen(m.velocity.y, inp.dt));
      ComputeRepulse();
      ClampYMovement(inp.position.y);
    }

    /**
     * The input-handling block of `LateUpdate`: runs at most one move, then the idle, jump or
     * attack routine the latches call for, each clearing the latches it acts on.
     */
    method ResolveIntent(grounded: bool, ghost m: Motion, ghost s: Shared) returns (turned: Option<bool>)
      requires moveRight == m.moveRight && moveLeft == m.moveLeft && jump == m.jump && attack == m.attack
      requires facingRight == m.facingRight && normalizedHorizontalSpeed == m.normalizedHorizontalSpeed
      requires !grounded ==> action == Fall
      requires state.grounded == grounded && state.facingRight == s.facingRight
      requires state.jumpedFromFastPlatform == (if grounded then false else s.jumpedFromFastPlatform)
      requires state.ridingFastPlatform == s.ridingFastPlatform && state.movingHorizontally == s.movingHorizontally
      modifies this`normalizedHorizontalSpeed, this`action, this`facingRight, this`moveRight, this`moveLeft,
               this`jump, this`attack, this`velocity, state`facingRight, state`grounded, state`jumpedFromFastPlatform
      ensures action == Classify(grounded, m.attack, m.moveRight, m.moveLeft, m.jump)
      ensures normalizedHorizontalSpeed == MoveIntent(m, grounded)
      ensures facingRight == FacingAfter(m) && turned == FacingEvent(m)
      ensures state.facingRight == if turned.Some? then FacingAfter(m) else s.facingRight
      ensures !moveRight && moveLeft == (m.moveLeft && m.moveRight)
      ensures jump == (m.jump && !JumpConsumed(m, grounded)) && !attack
      ensures velocity == if JumpExecutes(m, grounded) then old(velocity).(y := JumpImpulse) else old(velocity)
      ensures state.grounded == (grounded && !JumpExecutes(m, grounded))
      ensures state.jumpedFromFastPlatform ==
        if grounded then JumpExecutes(m, grounded) && s.ridingFastPlatform && s.movingHorizontally
        else s.jumpedFromFastPlatform
    {
      turned := None;
      if !attack {
        if moveRight {
          turned := MovePlayerRight(grounded);
        } else if moveLeft {
          turned := MovePlayerLeft(grounded);
        } else if grounded {
          PlayerIdle();
        }
        if jump && grounded {
          PlayerJump();
        }
      } else {
        if moveRight {
          turned := MovePlayerRight(grounded);
          AttackWhileRunning(grounded);
        } else if moveLeft {
          turned := MovePlayerLeft(grounded);
          AttackWhileRunning(grounded);
        } else if grounded {
          AttackWhileIdle(grounded);
        }
        if !grounded {
          AttackWhileJumping();
        }
      }
    }

    method CheckIfStandingOrFalling(grounded: bool)
      modifies this`velocity, this`action, state`grounded, state`jumpedFromFastPlatform
      ensures grounded ==> velocity == old(velocity).(y := 0.0) && action == old(action)
      ensures grounded ==> state.grounded && !state.jumpedFromFastPlatform
      ensures !grounded ==> velocity == old(velocity) && action == Fall
      ensures !grounded ==> !state.grounded && state.jumpedFromFastPlatform == old(state.jumpedFromFastPlatform)
    {
      if grounded {
        velocity := velocity.(y := 0.0);
        state.grounded := true;
        state.jumpedFromFastPlatform := false;
      } else {
        action := Fall;
        state.grounded := false;
      }
    }

    method PlayerIdle()
      modifies this`normalizedHorizontalSpeed, this`action, state`grounded, state`jumpedFromFastPlatform
      ensures normalizedHorizontalSpeed == 0.0 && action == Idle
      ensures state.grounded && !state.jumpedFromFastPlatform
    {
      normalizedHorizontalSpeed := 0.0;
      action := Idle;
      state.grounded := true;
      state.jumpedFromFastPlatform := false;
    }

    method PlayerJump()
      modifies this`velocity, this`action, this`jump, state`grounded, state`jumpedFromFastPlatform
      ensures velocity == old(velocity).(y := JumpImpulse) && action == Action.Jump && !jump
      ensures !state.grounded
      ensures state.jumpedFromFastPlatform ==
        (old(state.jumpedFromFastPlatform) || (state.ridingFastPlatform && state.movingHorizontally))
    {
      velocity := velocity.(y := JumpImpulse);
      action := Action.Jump;
      jump := false;
      state.grounded := false;
      if state.ridingFastPlatform && state.movingHorizontally {
        state.jumpedFromFastPlatform := true;
      }
    }

    /** Runs right; broadcasts the new facing only when the player turns. */
    method MovePlayerRight(grounded: bool) returns (turned: Option<bool>)
      modifies this`normalizedHorizontalSpeed, this`action, this`facingRight, this`moveRight, state`facingRight
      ensures normalizedHorizontalSpeed == 1.0 && facingRight && !moveRight
      ensures action == if grounded then Run else old(action)
      ensures turned == if old(facingRight) then None else Some(true)
      ensures state.facingRight == if old(facingRight) then old(state.facingRight) else true
    {
      normalizedHorizontalSpeed := 1.0;
      if grounded {
        action := Run;
      }
      turned := None;
      if !facingRight {
        facingRight := true;
        state.facingRight := true;
        turned := Some(true);
      }
      moveRight := false;
    }

    /** Runs left; broadcasts the new facing only when the player turns. */
    method MovePlayerLeft(grounded: bool) returns (turned: Option<bool>)
      modifies this`normalizedHorizontalSpeed, this`action, this`facingRight, this`moveLeft, state`facingRight
      ensures normalizedHorizontalSpeed == -1.0 && !facingRight && !moveLeft
      ensures action == if grounded then Run else old(action)
      ensures turned == if old(facingRight) then Some(false) else None
      ensures state.facingRight == if old(facingRight) then false else old(state.facingRight)
    {
      normalizedHorizontalSpeed := -1.0;
      if grounded {
        action := Run;
      }
      turned := None;
      if facingRight {
        facingRight := false;
        state.facingRight := false;
        turned := Some(false);
      }
      moveLeft := false;
    }

    method AttackWhileIdle(grounded: bool)
      modifies this`action, this`normalizedHorizontalSpeed, this`attack
      ensures !attack
      ensures grounded ==> action == Action.Attack && normalizedHorizontalSpeed == 0.0
      ensures !grounded ==> action == old(action) && normalizedHorizontalSpeed == old(normalizedHorizontalSpeed)
    {
      if grounded {
        action := Action.Attack;
        normalizedHorizontalSpeed := 0.0;
      }
      attack := false;
    }

    method AttackWhileRunning(grounded: bool)
      modifies this`action, this`attack
      ensures !attack
      ensures action == if grounded then RunAttack else old(action)
    {
      if grounded {
        action := RunAttack;
      }
      attack := false;
    }

    method AttackWhileJumping()
      modifies this`action, this`jump, this`attack
      ensures action == JumpAttack && !jump && !attack
    {
      action := JumpAttack;
      jump := false;
      attack := false;
    }

    /** Drops horizontal intent and speed while falling against a wall. */
    method CheckForFreefall(grounded: bool)
      modifies this`normalizedHorizontalSpeed, this`velocity
      ensures Model() == WallCorrected(old(Model()), grounded)
    {
      if state.touchingWall && !grounded {
        normalizedHorizontalSpeed := 0.0;
        velocity := velocity.(x := 0.0);
      }
    }

    /** The cue handed to the weapon manager; `None` is the failing default case. */
    method ActionDispatcher() returns (cue: Option<WeaponCue>)
      ensures cue.None? <==> action == Defend
      ensures cue == Dispatch(action)
    {
      match action
      case Idle => cue := Some(IdleCue);
      case Run => cue := Some(RunCue);
      case Jump => cue := Some(JumpCue);
      case Fall => cue := Some(FallCue);
      case Attack => cue := Some(AttackCue);
      case RunAttack => cue := Some(RunAttackCue);
      case JumpAttack => cue := Some(JumpAttackCue);
      case Defend => cue := None;
    }

    method SaveCurrentPosition(position: Vec)
      modifies state`x, state`y
      ensures state.x == position.x && state.y == position.y
    {
      state.x := position.x;
      state.y := position.y;
    }

    /** Smooths `velocity.x` toward the intended run speed, faster on the ground. */
    method ComputeMovement(grounded: bool, dt: real)
      modifies this`velocity
      ensures velocity == old(velocity).(x := Smooth(old(velocity).x, normalizedHorizontalSpeed, grounded, dt))
    {
      var smoothedMovementFactor := if grounded then GroundDamping else InAirDamping;
      velocity := velocity.(x := Lerp(velocity.x, normalizedHorizontalSpeed * RunSpeed, dt * smoothedMovementFactor));
    }

    method ApplyGravity(dt: real)
      modifies this`velocity
      ensures velocity == old(velocity).(y := Fallen(old(velocity).y, dt))
    {
      velocity := velocity.(y := velocity.y + Gravity * dt);
    }

    method ComputeRepulse()
      modifies this`velocity
      ensures repulseLeft ==> velocity == Vec(-repulseVelocity, 0.0)
      ensures !repulseLeft && repulseRight ==> velocity == Vec(repulseVelocity, 0.0)
      ensures !repulseLeft && !repulseRight ==> velocity == old(velocity)
    {
      if repulseLeft {
        velocity := Vec(-repulseVelocity, 0.0);
      } else if repulseRight {
        velocity := Vec(repulseVelocity, 0.0);
      }
    }

    /** Limits `velocity.y`, throttling the rise while carried up fast by a platform. */
    method ClampYMovement(y: real)
      modifies this`velocity
      ensures velocity.x == old(velocity).x
      ensures velocity.y == ClampY(old(velocity).y,
        MovingTooFast(y, previousY) && state.ridingFastPlatform && !state.movingHorizontally)
    {
      if MovingTooFast(y, previousY) && state.ridingFastPlatform && !state.movingHorizontally {
        velocity := velocity.(y := Clamp(velocity.y, -MaxFallingSpeed, MaxRisingSpeed));
      } else {
        velocity := velocity.(y := Clamp(velocity.y, -MaxFallingSpeed, MaxFallingSpeed));
      }
    }

    /** The displacement handed to `controller.move`. */
    method ApplyMovement(dt: real) returns (delta: Vec)
      ensures delta == Scaled(velocity, dt)
    {
      delta := Vec(velocity.x * dt, velocity.y * dt);
    }

    /** Records where the move left the player and whether it moved horizontally. */
    method SavePreviousPosition(movedTo: Vec)
      modifies this`previousX, this`previousY, state`movingHorizontally, state`previousX, state`previousY
      ensures state.movingHorizontally == (old(previousX) != movedTo.x)
      ensures previousX == state.previousX == movedTo.x
      ensures previousY == state.previousY == movedTo.y
    {
      if previousX != movedTo.x {
        state.movingHorizontally := true;
      } else {
        state.movingHorizontally := false;
      }
      previousX := movedTo.x;
      previousY := movedTo.y;
      state.previousX := previousX;
      state.previousY := previousY;
    }

    // Knockback. `drawn` is the speed drawn from [2, maxVelocity]; the expiry timer is a
    // separate call, made once per started timer.

    method RepulseToLeft(drawn: real)
      modifies this`repulseLeft, this`repulseVelocity
      ensures Model() == Apply(old(Model()), RepulsedLeft(drawn))
    {
      repulseLeft := true;
      repulseVelocity := drawn;
    }

    method RepulseToRight(drawn: real)
      modifies this`repulseRight, this`repulseVelocity
      ensures Model() == Apply(old(Model()), RepulsedRight(drawn))
    {
      repulseRight := true;
      repulseVelocity := drawn;
    }

    method RepulseTimerElapsed()
      modifies this`repulseLeft, this`repulseRight
      ensures Model() == Apply(old(Model()), RepulseTimerFired)
    {
      repulseLeft := false;
      repulseRight := false;
    }

    method OnPlayerDead()
      modifies this`enabled
      ensures Model() == Apply(old(Model()), PlayerDied)
    {
      enabled := false;
    }
  }


}
