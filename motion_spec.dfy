/**
 * Specification of the player-motion state machine of `PlayerMovement`: its state as values,
 * one `LateUpdate` frame as the function `Step`, each externally triggered event as `Apply`,
 * and a sequence of events as `Replay`.
 *
 * `Step` is written per field, in closed form ("what the frame leaves behind"), rather than
 * as the ordered pipeline of `LateUpdate`; the class in module `Movement` runs the ordered
 * pipeline and is proved to agree with it.
 */
module MotionSpec {
  import opened UnityMath

  datatype Option<T> = None | Some(value: T)

  /** `PlayerMovement.Action`; `Defend` is declared but never assigned. */
  datatype Action = Idle | Run | Jump | Fall | Attack | Defend | RunAttack | JumpAttack

  /** The category tokens handed to the weapon manager, one per live action. */
  datatype WeaponCue = IdleCue | RunCue | JumpCue | FallCue | AttackCue | RunAttackCue | JumpAttackCue

  /** The x and y components of a `Vector3` (z is never used). */
  datatype Vec = Vec(x: real, y: real)

  /** Which move latch a frame acts on. */
  datatype Heading = Rightward | Leftward | Stationary

  // Tuning constants of the controller.
  const Gravity: real := -35.0
  const RunSpeed: real := 7.0
  const GroundDamping: real := 20.0
  const InAirDamping: real := 5.0
  const JumpHeight: real := 3.5
  const MaxFallingSpeed: real := 100.0
  const MaxRisingSpeed: real := 2.0
  const SpeedCheck: real := 0.1

  /**
   * `Mathf.Sqrt(2 * jumpHeight * -gravity)` as the single-precision value the engine computes:
   * the float nearest to the square root of 245 (see `FrameProperties.JumpImpulseIsRoundedRoot`).
   */
  const JumpImpulse: real := 16412811.0 / 1048576.0

  /** The fields of one `PlayerMovement` component. */
  datatype Motion = Motion(
    normalizedHorizontalSpeed: real,
    previousX: real,
    previousY: real,
    repulseVelocity: real,
    facingRight: bool,
    moveRight: bool,
    moveLeft: bool,
    jump: bool,
    attack: bool,
    repulseRight: bool,
    repulseLeft: bool,
    velocity: Vec,
    action: Action,
    enabled: bool)

  /** The shared player state (`IPlayerStateFullAccess`) fields the controller reads or writes. */
  datatype Shared = Shared(
    grounded: bool,
    jumpedFromFastPlatform: bool,
    facingRight: bool,
    x: real,
    y: real,
    previousX: real,
    previousY: real,
    movingHorizontally: bool,
    ridingFastPlatform: bool,
    touchingWall: bool)

  datatype World = World(m: Motion, s: Shared)

  /**
   * What the engine supplies to one frame: the collision resolver's grounded flag and resolved
   * velocity, the transform position when the frame snapshots it, the position the resolver
   * leaves the player at after `controller.move`, and `Time.deltaTime`.
   */
  datatype FrameInput = FrameInput(grounded: bool, velocity: Vec, position: Vec, movedTo: Vec, dt: real)

  /**
   * What one frame emits: the category sent to the weapon manager (`None` stands for the
   * assertion in the dispatcher's default case), the "OnFacingRight" broadcast if any, and the
   * displacement requested from `controller.move`.
   */
  datatype FrameOutput = FrameOutput(cue: Option<WeaponCue>, facingChanged: Option<bool>, moveDelta: Vec)

  /** A frame's successor world and its output; `None` when the component is disabled. */
  datatype Stepped = Stepped(next: World, out: Option<FrameOutput>)

  /** The component as Unity creates it: every field at its default, `action` at `Idle`. */
  function InitialMotion(): Motion {
    Motion(0.0, 0.0, 0.0, 0.0, false, false, false, false, false, false, false, Vec(0.0, 0.0), Idle, true)
  }

  predicate IsAttackAction(a: Action) {
    a == Attack || a == RunAttack || a == JumpAttack
  }

  /**
   * The frame's action as a table over the grounded flag and the latches at the start of the
   * frame, independent of the action left by the previous frame.
   */
  function Classify(grounded: bool, attack: bool, moveRight: bool, moveLeft: bool, jump: bool): (r: Action)
    ensures r != Defend
    ensures !grounded <==> (r == Fall || r == JumpAttack)
    ensures attack <==> IsAttackAction(r)
  {
    if !grounded then (if attack then JumpAttack else Fall)
    else if attack then (if moveRight || moveLeft then RunAttack else Attack)
    else if jump then Jump
    else if moveRight || moveLeft then Run
    else Idle
  }

  /** The token `ActionDispatcher` forwards for an action; `None` is its failing default case. */
  function Dispatch(a: Action): (r: Option<WeaponCue>)
    ensures r.None? <==> a == Defend
    ensures a == Fall <==> r == Some(FallCue)
    ensures a == Idle <==> r == Some(IdleCue)
  {
    match a
    case Idle => Some(IdleCue)
    case Run => Some(RunCue)
    case Jump => Some(JumpCue)
    case Fall => Some(FallCue)
    case Attack => Some(AttackCue)
    case RunAttack => Some(RunAttackCue)
    case JumpAttack => Some(JumpAttackCue)
    case Defend => None
  }

  /** `moveRight` wins over `moveLeft`, whether attacking or not. */
  function ExecutedMove(m: Motion): Heading {
    if m.moveRight then Rightward else if m.moveLeft then Leftward else Stationary
  }

  /** A jump impulse is applied only when grounded and not attacking. */
  predicate JumpExecutes(m: Motion, grounded: bool) {
    grounded && !m.attack && m.jump
  }

  /** The jump latch is consumed by an executed jump or by an airborne attack. */
  predicate JumpConsumed(m: Motion, grounded: bool) {
    JumpExecutes(m, grounded) || (m.attack && !grounded)
  }

  function FacingAfter(m: Motion): bool {
    match ExecutedMove(m)
    case Rightward => true
    case Leftward => false
    case Stationary => m.facingRight
  }

  /** Falling while pressed against a wall. */
  predicate WallFall(s: Shared, grounded: bool) {
    s.touchingWall && !grounded
  }

  /** `normalizedHorizontalSpeed` once the move, idle or attack routine has run. */
  function MoveIntent(m: Motion, grounded: bool): real {
    match ExecutedMove(m)
    case Rightward => 1.0
    case Leftward => -1.0
    case Stationary => if grounded then 0.0 else m.normalizedHorizontalSpeed
  }

  /** `velocity.y` once grounding and jumping have been applied, before gravity. */
  function LaunchY(m: Motion, inp: FrameInput): real {
    if JumpExecutes(m, inp.grounded) then JumpImpulse
    else if inp.grounded then 0.0
    else inp.velocity.y
  }

  /** A velocity scaled by a frame time: the displacement it covers. */
  function Scaled(v: Vec, dt: real): Vec {
    Vec(v.x * dt, v.y * dt)
  }

  /** `MovingTooFast`: the player rose by more than `SpeedCheck` since the last frame. */
  predicate MovingTooFast(y: real, previousY: real) {
    y - previousY > SpeedCheck
  }

  /** The condition under which the rising speed is throttled to `MaxRisingSpeed`. */
  predicate Throttled(m: Motion, s: Shared, y: real) {
    MovingTooFast(y, m.previousY) && s.ridingFastPlatform && !s.movingHorizontally
  }

  /** `ClampYMovement`: the vertical speed limit, with the lower rising limit when throttled. */
  function ClampY(vy: real, throttled: bool): (r: real)
    ensures -MaxFallingSpeed <= r <= (if throttled then MaxRisingSpeed else MaxFallingSpeed)
    ensures -MaxFallingSpeed <= vy <= MaxRisingSpeed ==> r == vy
    ensures !throttled && -MaxFallingSpeed <= vy <= MaxFallingSpeed ==> r == vy
  {
    if throttled then Clamp(vy, -MaxFallingSpeed, MaxRisingSpeed)
    else Clamp(vy, -MaxFallingSpeed, MaxFallingSpeed)
  }

  /** `ComputeRepulse`: a knockback overrides the velocity; left is checked before right. */
  function Repulse(m: Motion, v: Vec): (r: Vec)
    ensures m.repulseLeft || m.repulseRight ==> r.y == 0.0 && (r.x == m.repulseVelocity || r.x == -m.repulseVelocity)
    ensures m.repulseLeft ==> r.x == -m.repulseVelocity
    ensures !m.repulseLeft && !m.repulseRight ==> r == v
  {
    if m.repulseLeft then Vec(-m.repulseVelocity, 0.0)
    else if m.repulseRight then Vec(m.repulseVelocity, 0.0)
    else v
  }

  /** `ComputeMovement`: `velocity.x` eased toward the run speed, faster on the ground than in the air. */
  function Smooth(vx: real, intent: real, grounded: bool, dt: real): (r: real)
    ensures vx <= intent * RunSpeed ==> vx <= r <= intent * RunSpeed
    ensures intent * RunSpeed <= vx ==> intent * RunSpeed <= r <= vx
    ensures dt <= 0.0 ==> r == vx
    ensures dt >= (if grounded then 1.0 / GroundDamping else 1.0 / InAirDamping) ==> r == intent * RunSpeed
  {
    Lerp(vx, intent * RunSpeed, dt * (if grounded then GroundDamping else InAirDamping))
  }

  /** `ApplyGravity`: one frame of gravity added to `velocity.y`. */
  function Fallen(vy: real, dt: real): (r: real)
    ensures dt > 0.0 ==> r < vy
    ensures dt == 0.0 ==> r == vy
  {
    vy + Gravity * dt
  }

  /** The "OnFacingRight" broadcast: the new facing, only when the executed move turns the player. */
  function FacingEvent(m: Motion): Option<bool> {
    if FacingAfter(m) != m.facingRight then Some(FacingAfter(m)) else None
  }

  /**
   * A frame from taking over the engine's velocity to the end of the input-handling block:
   * grounding, the move, idle, jump and attack routines, and the latches they clear.
   */
  function Resolved(w: World, inp: FrameInput): World {
    var m, s, g := w.m, w.s, inp.grounded;
    World(
      m.(normalizedHorizontalSpeed := MoveIntent(m, g),
         facingRight := FacingAfter(m),
         moveRight := false,
         moveLeft := m.moveLeft && m.moveRight,
         jump := m.jump && !JumpConsumed(m, g),
         attack := false,
         velocity := Vec(inp.velocity.x, LaunchY(m, inp)),
         action := Classify(g, m.attack, m.moveRight, m.moveLeft, m.jump)),
      s.(grounded := g && !JumpExecutes(m, g),
         jumpedFromFastPlatform :=
           if g then JumpExecutes(m, g) && s.ridingFastPlatform && s.movingHorizontally
           else s.jumpedFromFastPlatform,
         facingRight := if FacingEvent(m).Some? then FacingAfter(m) else s.facingRight))
  }

  /** `CheckForFreefall`: falling against a wall drops the horizontal intent and speed. */
  function WallCorrected(w: World, grounded: bool): (r: World)
    ensures r.s == w.s
    ensures WallFall(w.s, grounded) ==> r.m.normalizedHorizontalSpeed == 0.0 && r.m.velocity.x == 0.0
    ensures r.m.velocity.y == w.m.velocity.y && r.m.action == w.m.action && r.m.facingRight == w.m.facingRight
    ensures !WallFall(w.s, grounded) ==> r == w
  {
    if WallFall(w.s, grounded)
    then w.(m := w.m.(normalizedHorizontalSpeed := 0.0, velocity := w.m.velocity.(x := 0.0)))
    else w
  }

  /** The first stage of a frame: the world at the moment the action is dispatched. */
  function AfterInput(w: World, inp: FrameInput): World {
    WallCorrected(Resolved(w, inp), inp.grounded)
  }

  /**
   * The velocity at the end of a frame: smoothing and gravity applied to the velocity the first
   * stage left, then knockback, then the vertical clamp.
   */
  function FinalVelocity(m: Motion, s: Shared, inp: FrameInput): Vec {
    var v := Repulse(m, Vec(Smooth(m.velocity.x, m.normalizedHorizontalSpeed, inp.grounded, inp.dt),
                            Fallen(m.velocity.y, inp.dt)));
    Vec(v.x, ClampY(v.y, Throttled(m, s, inp.position.y)))
  }

  /**
   * The second stage of a frame, from the position snapshot to the position history: the
   * velocity is integrated and the positions recorded.
   */
  function AfterMotion(w: World, inp: FrameInput): World {
    var m, s := w.m, w.s;
    World(
      m.(velocity := FinalVelocity(m, s, inp),
         previousX := inp.movedTo.x,
         previousY := inp.movedTo.y),
      s.(x := inp.position.x,
         y := inp.position.y,
         previousX := inp.movedTo.x,
         previousY := inp.movedTo.y,
         movingHorizontally := m.previousX != inp.movedTo.x))
  }

  /**
   * `Resolved` as a relation, field by field: `n` is what the input-handling block leaves of
   * `w`. This is the form in which the component's methods establish it.
   */
  predicate LatchesActedOn(w: World, inp: FrameInput, n: World) {
    var m, s, g := w.m, w.s, inp.grounded;
    && n.m.normalizedHorizontalSpeed == MoveIntent(m, g)
    && n.m.facingRight == FacingAfter(m)
    && !n.m.moveRight && n.m.moveLeft == (m.moveLeft && m.moveRight)
    && n.m.jump == (m.jump && !JumpConsumed(m, g)) && !n.m.attack
    && n.m.velocity == Vec(inp.velocity.x, LaunchY(m, inp))
    && n.m.action == Classify(g, m.attack, m.moveRight, m.moveLeft, m.jump)
    && n.m.previousX == m.previousX && n.m.previousY == m.previousY
    && n.m.repulseVelocity == m.repulseVelocity && n.m.enabled == m.enabled
    && n.m.repulseRight == m.repulseRight && n.m.repulseLeft == m.repulseLeft
    && n.s.grounded == (g && !JumpExecutes(m, g))
    && n.s.jumpedFromFastPlatform ==
         (if g then JumpExecutes(m, g) && s.ridingFastPlatform && s.movingHorizontally
          else s.jumpedFromFastPlatform)
    && n.s.facingRight == (if FacingEvent(m).Some? then FacingAfter(m) else s.facingRight)
    && n.s.x == s.x && n.s.y == s.y && n.s.previousX == s.previousX && n.s.previousY == s.previousY
    && n.s.movingHorizontally == s.movingHorizontally
    && n.s.ridingFastPlatform == s.ridingFastPlatform && n.s.touchingWall == s.touchingWall
  }

  /** The relation holds of exactly one world, the one `Resolved` computes. */
  lemma LatchesActedOnIsResolved(w: World, inp: FrameInput, n: World)
    ensures LatchesActedOn(w, inp, n) <==> n == Resolved(w, inp)
  {
  }

  /**
   * Integration as a relation, field by field: `n` is what the second stage leaves of `w`.
   * This is the form in which the component's methods establish it.
   */
  predicate MotionIntegrated(w: World, inp: FrameInput, n: World) {
    var m, s := w.m, w.s;
    && n.m.velocity == FinalVelocity(m, s, inp)
    && n.m.previousX == n.s.previousX == inp.movedTo.x && n.m.previousY == n.s.previousY == inp.movedTo.y
    && n.s.x == inp.position.x && n.s.y == inp.position.y
    && n.s.movingHorizontally == (m.previousX != inp.movedTo.x)
    && n.m.normalizedHorizontalSpeed == m.normalizedHorizontalSpeed && n.m.facingRight == m.facingRight
    && n.m.moveRight == m.moveRight && n.m.moveLeft == m.moveLeft
    && n.m.jump == m.jump && n.m.attack == m.attack && n.m.action == m.action
    && n.m.repulseVelocity == m.repulseVelocity && n.m.enabled == m.enabled
    && n.m.repulseRight == m.repulseRight && n.m.repulseLeft == m.repulseLeft
    && n.s.grounded == s.grounded && n.s.jumpedFromFastPlatform == s.jumpedFromFastPlatform
    && n.s.facingRight == s.facingRight
    && n.s.ridingFastPlatform == s.ridingFastPlatform && n.s.touchingWall == s.touchingWall
  }

  /** The relation holds of exactly one world, the one `AfterMotion` computes. */
  lemma MotionIntegratedIsAfterMotion(w: World, inp: FrameInput, n: World)
    ensures MotionIntegrated(w, inp, n) <==> n == AfterMotion(w, inp)
  {
  }

  /** One `LateUpdate`; a disabled component does not run. */
  function Step(w: World, inp: FrameInput): (r: Stepped)
    ensures r.out.Some? <==> w.m.enabled
    ensures r.next.m.enabled == w.m.enabled
    ensures r.out.Some? ==> r.out.value.facingChanged == FacingEvent(w.m)
  {
    if !w.m.enabled then Stepped(w, None)
    else
      var handled := AfterInput(w, inp);
      var next := AfterMotion(handled, inp);
      Stepped(next, Some(FrameOutput(Dispatch(handled.m.action), FacingEvent(w.m), Scaled(next.m.velocity, inp.dt))))
  }

  /**
   * Everything that can happen to the component between and during frames: the input driver's
   * latch setters, a `LateUpdate`, a knockback with its drawn speed, the knockback timer running
   * out, the "player dead" message, and other components updating the platform and wall
   * contacts in the shared state.
   */
  datatype Event =
    | MoveRightPressed
    | MoveLeftPressed
    | JumpPressed
    | AttackPressed
    | Frame(input: FrameInput)
    | RepulsedLeft(drawn: real)
    | RepulsedRight(drawn: real)
    | RepulseTimerFired
    | PlayerDied
    | Sensed(ridingFastPlatform: bool, touchingWall: bool)

  /** The effect of one event on the world. */
  function Apply(w: World, e: Event): (r: World)
    ensures !e.Frame? ==> r.m.velocity == w.m.velocity && r.m.action == w.m.action
    ensures !e.Frame? && !e.Sensed? ==> r.s == w.s
    ensures e != PlayerDied ==> r.m.enabled == w.m.enabled
  {
    match e
    case MoveRightPressed => w.(m := w.m.(moveRight := true))
    case MoveLeftPressed => w.(m := w.m.(moveLeft := true))
    case JumpPressed => w.(m := w.m.(jump := true))
    case AttackPressed => w.(m := w.m.(attack := true))
    case Frame(inp) => Step(w, inp).next
    case RepulsedLeft(v) => w.(m := w.m.(repulseLeft := true, repulseVelocity := v))
    case RepulsedRight(v) => w.(m := w.m.(repulseRight := true, repulseVelocity := v))
    case RepulseTimerFired => w.(m := w.m.(repulseLeft := false, repulseRight := false))
    case PlayerDied => w.(m := w.m.(enabled := false))
    case Sensed(riding, touching) => w.(s := w.s.(ridingFastPlatform := riding, touchingWall := touching))
  }

  /** The world after a sequence of events, first event first. */
  function Replay(w: World, es: seq<Event>): World
    decreases |es|
  {
    if es == [] then w else Replay(Apply(w, es[0]), es[1..])
  }
}
