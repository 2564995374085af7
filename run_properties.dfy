/**
 * What holds across many frames and events, by induction over `MotionSpec.Replay`: the
 * invariants every event keeps, how long a pending jump and a knockback last, and that a dead
 * player stays still.
 */
module RunProperties {
  import opened UnityMath
  import opened MotionSpec
  import opened FrameProperties

  /**
   * The invariant of the component: the horizontal intent is one of -1, 0 and +1, `Defend` is
   * never the current action, the vertical speed is within `maxFallingSpeed`, and the component
   * agrees with the shared state on the facing and on the previous position.
   */
  predicate Coherent(w: World) {
    && (w.m.normalizedHorizontalSpeed == -1.0 || w.m.normalizedHorizontalSpeed == 0.0
        || w.m.normalizedHorizontalSpeed == 1.0)
    && w.m.action != Defend
    && -MaxFallingSpeed <= w.m.velocity.y <= MaxFallingSpeed
    && w.m.facingRight == w.s.facingRight
    && w.m.previousX == w.s.previousX && w.m.previousY == w.s.previousY
  }

  /** A freshly added component is coherent with a shared state at its defaults. */
  lemma FreshComponentIsCoherent(s: Shared)
    requires !s.facingRight && s.previousX == 0.0 && s.previousY == 0.0
    ensures Coherent(World(InitialMotion(), s))
  {
  }

  /** One frame keeps the invariant. */
  lemma StepKeepsCoherent(w: World, inp: FrameInput)
    requires Coherent(w)
    ensures Coherent(Step(w, inp).next)
  {
    if w.m.enabled {
      var h := AfterInput(w, inp);
      assert h.m.facingRight == h.s.facingRight;
      assert h.m.action != Defend;
    }
  }

  /** Every event keeps the invariant. */
  lemma ApplyKeepsCoherent(w: World, e: Event)
    requires Coherent(w)
    ensures Coherent(Apply(w, e))
  {
    if e.Frame? {
      StepKeepsCoherent(w, e.input);
    }
  }

  /** Any run of events keeps the invariant. */
  lemma {:induction false} ReplayKeepsCoherent(w: World, es: seq<Event>)
    requires Coherent(w)
    ensures Coherent(Replay(w, es))
    decreases |es|
  {
    if es != [] {
      ApplyKeepsCoherent(w, es[0]);
      ReplayKeepsCoherent(Apply(w, es[0]), es[1..]);
    }
  }

  /** Running two sequences of events one after the other is running their concatenation. */
  lemma {:induction false} ReplayConcat(w: World, first: seq<Event>, second: seq<Event>)
    ensures Replay(w, first + second) == Replay(Replay(w, first), second)
    decreases |first|
  {
    if first != [] {
      assert (first + second)[0] == first[0];
      assert (first + second)[1..] == first[1..] + second;
      ReplayConcat(Apply(w, first[0]), first[1..], second);
    } else {
      assert first + second == second;
    }
  }

  /** An event that neither presses attack nor is a grounded frame. */
  predicate KeepsJumpPending(e: Event) {
    e != AttackPressed && !(e.Frame? && e.input.grounded)
  }

  /**
   * A jump requested in the air without attacking stays pending through any run of events that
   * presses no attack and lands on no ground: it waits for the next grounded frame.
   */
  lemma {:induction false} PendingJumpWaitsForGround(w: World, es: seq<Event>)
    requires w.m.jump && !w.m.attack
    requires forall i :: 0 <= i < |es| ==> KeepsJumpPending(es[i])
    ensures Replay(w, es).m.jump && !Replay(w, es).m.attack
    decreases |es|
  {
    if es != [] {
      PendingJumpStep(w, es[0]);
      PendingJumpWaitsForGround(Apply(w, es[0]), es[1..]);
    }
  }

  /** One event that presses no attack and lands on no ground keeps a pending jump pending. */
  lemma PendingJumpStep(w: World, e: Event)
    requires w.m.jump && !w.m.attack && KeepsJumpPending(e)
    ensures Apply(w, e).m.jump && !Apply(w, e).m.attack
  {
    if e.Frame? && w.m.enabled {
      LatchesAfterFrame(w, e.input);
    }
  }

  /** A knockback to the left lasts until its timer fires: no other event clears it. */
  lemma {:induction false} KnockbackLastsUntilTimer(w: World, es: seq<Event>)
    requires w.m.repulseLeft
    requires forall i :: 0 <= i < |es| ==> es[i] != RepulseTimerFired
    ensures Replay(w, es).m.repulseLeft
    decreases |es|
  {
    if es != [] {
      PendingKnockbackStep(w, es[0]);
      KnockbackLastsUntilTimer(Apply(w, es[0]), es[1..]);
    }
  }

  /** One event other than the timer keeps a left knockback; a frame ends with its velocity. */
  lemma PendingKnockbackStep(w: World, e: Event)
    requires w.m.repulseLeft && e != RepulseTimerFired
    ensures Apply(w, e).m.repulseLeft
    ensures e.Frame? && w.m.enabled ==> Apply(w, e).m.velocity == Vec(-w.m.repulseVelocity, 0.0)
  {
    if e.Frame? {
      FrameKeepsExternalState(w, e.input);
      if w.m.enabled {
        KnockbackOverrides(w, e.input);
      }
    }
  }

  /**
   * Every enabled frame in a timer-free run that follows a left knockback ends with the knockback
   * velocity, whatever latches and knockbacks the run sets before it.
   */
  lemma KnockbackHoldsEveryFrame(w: World, es: seq<Event>, inp: FrameInput)
    requires w.m.repulseLeft
    requires forall i :: 0 <= i < |es| ==> es[i] != RepulseTimerFired
    requires Replay(w, es).m.enabled
    ensures Replay(w, es + [Frame(inp)]).m.velocity == Vec(-Replay(w, es).m.repulseVelocity, 0.0)
  {
    var before := Replay(w, es);
    KnockbackLastsUntilTimer(w, es);
    ReplayConcat(w, es, [Frame(inp)]);
    assert Replay(before, [Frame(inp)]) == Replay(Apply(before, Frame(inp)), []);
    PendingKnockbackStep(before, Frame(inp));
  }

  /** The timer clears both knockback directions, whichever was set. */
  lemma TimerEndsKnockback(w: World)
    ensures !Apply(w, RepulseTimerFired).m.repulseLeft && !Apply(w, RepulseTimerFired).m.repulseRight
    ensures Apply(w, RepulseTimerFired).m.velocity == w.m.velocity
  {
  }

  /** No event enables a component again once the player has died. */
  lemma {:induction false} DeathIsFinal(w: World, es: seq<Event>)
    requires !w.m.enabled
    ensures !Replay(w, es).m.enabled
    decreases |es|
  {
    if es != [] {
      DeathStep(w, es[0]);
      DeathIsFinal(Apply(w, es[0]), es[1..]);
    }
  }

  /** No single event enables a disabled component. */
  lemma DeathStep(w: World, e: Event)
    requires !w.m.enabled
    ensures !Apply(w, e).m.enabled
  {
    if e.Frame? {
      DisabledFrameIsInert(w, e.input);
    }
  }

  /** Frames reach a dead player's component but move nothing. */
  lemma {:induction false} DeadPlayerStaysStill(w: World, es: seq<Event>)
    requires !w.m.enabled
    requires forall i :: 0 <= i < |es| ==> es[i].Frame?
    ensures Replay(w, es) == w
    decreases |es|
  {
    if es != [] {
      assert es[0].Frame?;
      DeadPlayerStaysStill(Apply(w, es[0]), es[1..]);
    }
  }

  /**
   * An attack pressed before an enabled frame is acted on by that frame: the latch is cleared
   * and the action is one of the attacks, in the air as on the ground.
   */
  lemma AttackIsServedNextFrame(w: World, inp: FrameInput)
    requires w.m.enabled
    ensures var n := Replay(w, [AttackPressed, Frame(inp)]);
      !n.m.attack && IsAttackAction(n.m.action)
  {
    var pressed := Apply(w, AttackPressed);
    assert Replay(w, [AttackPressed, Frame(inp)]) == Replay(pressed, [Frame(inp)]);
    assert Replay(pressed, [Frame(inp)]) == Replay(Apply(pressed, Frame(inp)), []);
  }
}
