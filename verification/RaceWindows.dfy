/** Whole-run facts about the time windows and the stamina that pays for sprinting. */
module RaceWindows {
  import opened Arithmetic
  import opened RaceConstants
  import opened RaceModel
  import RaceLaps

  // ----- windows

  /** On the ground nothing moves and nothing banked is left. */
  predicate OnTheGround(s: RacerState, clockMs: real) {
    && KnockedDown(s, clockMs)
    && !s.finished && s.velocityMps == 0.0
    && !Sprinting(s, clockMs) && !Boosted(s, clockMs)
  }

  /** What every state reached with a clock that never goes back satisfies. */
  predicate WindowsInOrder(s: RacerState, clockMs: real) {
    && s.sprintUntilMs <= clockMs + SPRINT_MAX_WINDOW_MS
    && s.boostUntilMs <= clockMs + BOOST_DURATION_MS
    && s.jumpUntilMs <= clockMs + HURDLE_JUMP_WINDOW_MS
    && s.knockdownUntilMs <= clockMs + HURDLE_KNOCKDOWN_MS
    && s.lastJumpMs <= clockMs
    && (KnockedDown(s, clockMs) && !s.finished ==> OnTheGround(s, clockMs))
  }

  lemma GroundedTick(s: RacerState, e: Event, trackM: real, clockMs: real)
    requires e.Tick? && clockMs <= e.nowMs < s.knockdownUntilMs
    requires OnTheGround(s, clockMs) && s.positionM < trackM
    ensures After(s, e, trackM) ==
            s.(staminaPct := After(s, e, trackM).staminaPct)
    ensures forall f :: !RaceLaps.FiresOn(s, e, trackM, f)
    ensures !RaceLaps.FallsOn(s, e, trackM)
  {
    if e.dtMs > 0.0 {
      var m := Moved(s, Seconds(e.dtMs), e.nowMs);
      assert m.velocityMps == 0.0 && m.positionM == s.positionM;
      var gs := Segments(s.positionM, m.positionM);
      assert forall f :: !CrossedAny(gs, f);
      assert !CrossesOneOf(gs, PADS) && !CrossesOneOf(gs, HURDLES);
    }
  }

  lemma AfterInOrder(s: RacerState, e: Event, trackM: real, clockMs: real)
    requires WindowsInOrder(s, clockMs) && clockMs <= e.nowMs
    requires s.positionM < trackM || s.finished
    ensures WindowsInOrder(After(s, e, trackM), e.nowMs)
    ensures After(s, e, trackM).positionM < trackM || After(s, e, trackM).finished
  {
    hide CrossesOneOf, Segments, Moved;
    if e.Tick? && e.dtMs > 0.0 {
      MovedWindows(s, Seconds(e.dtMs), e.nowMs);
      if KnockedDown(s, e.nowMs) && !s.finished { GroundedTick(s, e, trackM, clockMs); }
    }
  }

  /** Moving leaves the windows alone, but for a sprint that runs dry. */
  lemma MovedWindows(s: RacerState, dt: real, nowMs: real)
    ensures var m := Moved(s, dt, nowMs);
      && m.boostUntilMs == s.boostUntilMs && m.jumpUntilMs == s.jumpUntilMs && m.lastJumpMs == s.lastJumpMs
      && m.knockdownUntilMs == s.knockdownUntilMs && m.finished == s.finished
      && (m.sprintUntilMs == s.sprintUntilMs || m.sprintUntilMs == nowMs)
  {
  }

  lemma {:induction false} RunInOrder(es: seq<Event>, trackM: real)
    requires Timely(0.0, es) && 0.0 < trackM
    ensures WindowsInOrder(Run(START, es, trackM), Clock(0.0, es))
    ensures Run(START, es, trackM).positionM < trackM || Run(START, es, trackM).finished
  {
    if es != [] {
      RunInOrder(Front(es), trackM);
      AfterInOrder(Run(START, Front(es), trackM), Last(es), trackM, Clock(0.0, Front(es)));
    }
  }

  /** A tap never shortens the window; it opens it when the racer may sprint, and never past the cap. */
  lemma TapExtends(es: seq<Event>, trackM: real, nowMs: real)
    requires Timely(0.0, es) && 0.0 < trackM && Clock(0.0, es) <= nowMs
    ensures var s, r := Run(START, es, trackM), WithSprintTap(Run(START, es, trackM), nowMs);
      && s.sprintUntilMs <= r.sprintUntilMs <= nowMs + SPRINT_MAX_WINDOW_MS
      && r == s.(sprintUntilMs := r.sprintUntilMs)
      && (s.finished || s.staminaPct <= 0.0 || KnockedDown(s, nowMs) ==> r == s)
      && (!s.finished && s.staminaPct > 0.0 && !KnockedDown(s, nowMs) ==>
            nowMs + SPRINT_TAP_DURATION_MS <= r.sprintUntilMs)
  {
    RunInOrder(es, trackM);
  }

  /** A fall puts the racer on the ground for the full knockdown time, whatever else the tick crossed. */
  lemma FallGrounds(s: RacerState, e: Event, trackM: real)
    requires RaceLaps.FallsOn(s, e, trackM)
    ensures OnTheGround(After(s, e, trackM), e.nowMs)
    ensures After(s, e, trackM).knockdownUntilMs == e.nowMs + 1500.0
  {
  }

  /**
   * Until the knockdown ends nothing but the move key and the stamina changes: no motion, no sprint,
   * no boost, no jump, no feature, under every interleaving of ticks, taps and move changes.
   */
  lemma {:induction false} GroundedRunIsFrozen(s: RacerState, es: seq<Event>, trackM: real, clockMs: real)
    requires OnTheGround(s, clockMs) && s.positionM < trackM
    requires Timely(clockMs, es) && Clock(clockMs, es) < s.knockdownUntilMs
    ensures var r := Run(s, es, trackM);
      && r == s.(isMoving := r.isMoving, staminaPct := r.staminaPct)
      && OnTheGround(r, Clock(clockMs, es))
    ensures clockMs <= Clock(clockMs, es)
    ensures forall f :: RaceLaps.Fires(s, es, trackM, f) == 0
    ensures RaceLaps.Falls(s, es, trackM) == 0
  {
    if es != [] {
      var pre, e, c := Run(s, Front(es), trackM), Last(es), Clock(clockMs, Front(es));
      GroundedRunIsFrozen(s, Front(es), trackM, clockMs);
      if e.Tick? {
        GroundedTick(pre, e, trackM, c);
      }
      forall f
        ensures RaceLaps.Fires(s, es, trackM, f) == 0
      {
        assert RaceLaps.Fires(s, Front(es), trackM, f) == 0;
        assert !RaceLaps.FiresOn(pre, e, trackM, f);
      }
    }
  }

  // ----- jumps

  function Jumps(s: RacerState, es: seq<Event>, trackM: real): nat {
    if es == [] then 0
    else
      Jumps(s, Front(es), trackM) +
      if Last(es).JumpTap? && JumpStarts(Run(s, Front(es), trackM), Last(es).nowMs) then 1 else 0
  }

  /** A jump that starts does so a cooldown after the one before, for a full window; nothing else touches either. */
  lemma LastJump(s: RacerState, e: Event, trackM: real)
    ensures var r := After(s, e, trackM);
      if e.JumpTap? && JumpStarts(s, e.nowMs) then
        && r.lastJumpMs == e.nowMs >= s.lastJumpMs + HURDLE_JUMP_COOLDOWN_MS
        && r.jumpUntilMs == e.nowMs + HURDLE_JUMP_WINDOW_MS
      else r.lastJumpMs == s.lastJumpMs && r.jumpUntilMs == s.jumpUntilMs
  {
  }

  lemma Spaced(lastMs: real, jumps: real, jumps': real, lastMs': real)
    requires lastMs >= HURDLE_JUMP_COOLDOWN_MS * (jumps - 1.0)
    requires (jumps' == jumps && lastMs' == lastMs)
             || (jumps' == jumps + 1.0 && lastMs' >= lastMs + HURDLE_JUMP_COOLDOWN_MS)
    ensures lastMs' >= HURDLE_JUMP_COOLDOWN_MS * (jumps' - 1.0)
  {
  }

  lemma {:induction false} JumpsAreSpaced(es: seq<Event>, trackM: real)
    requires Timely(0.0, es)
    ensures Run(START, es, trackM).lastJumpMs >= HURDLE_JUMP_COOLDOWN_MS * (Jumps(START, es, trackM) as real - 1.0)
    ensures Run(START, es, trackM).lastJumpMs <= Clock(0.0, es)
  {
    if es != [] {
      var pre, e := Run(START, Front(es), trackM), Last(es);
      JumpsAreSpaced(Front(es), trackM);
      LastJump(pre, e, trackM);
      hide After, JumpStarts;
      Spaced(pre.lastJumpMs, Jumps(START, Front(es), trackM) as real, Jumps(START, es, trackM) as real,
             After(pre, e, trackM).lastJumpMs);
    }
  }

  /** How much of the time from one clock to a later one is before the end of the window. */
  function Overlap(fromMs: real, toMs: real, untilMs: real): real { Max(0.0, Min(toMs, untilMs) - fromMs) }

  /** The clock time of the run during which the racer was airborne. */
  function AirTime(es: seq<Event>, trackM: real): real {
    if es == [] then 0.0
    else
      AirTime(Front(es), trackM) +
      Overlap(Clock(0.0, Front(es)), Last(es).nowMs, Run(START, Front(es), trackM).jumpUntilMs)
  }

  /** Time in the air, and what is left of the window, was jumped for. */
  lemma {:induction false} AirTimeIsJumpedFor(es: seq<Event>, trackM: real)
    requires Timely(0.0, es)
    ensures AirTime(es, trackM) + Max(0.0, Run(START, es, trackM).jumpUntilMs - Clock(0.0, es))
            <= HURDLE_JUMP_WINDOW_MS * Jumps(START, es, trackM) as real
  {
    if es != [] {
      AirTimeIsJumpedFor(Front(es), trackM);
      LastJump(Run(START, Front(es), trackM), Last(es), trackM);
      hide After, JumpStarts;
    }
  }

  /** However the jump key is spammed, beyond the first jump at most 40 % of the clock is spent in the air. */
  lemma AirborneDutyCycle(es: seq<Event>, trackM: real)
    requires Timely(0.0, es)
    ensures AirTime(es, trackM) <= HURDLE_JUMP_WINDOW_MS + 0.4 * Clock(0.0, es)
  {
    JumpsAreSpaced(es, trackM);
    AirTimeIsJumpedFor(es, trackM);
    AtMostTwoFifths(AirTime(es, trackM), Jumps(START, es, trackM) as real, Clock(0.0, es));
  }

  lemma AtMostTwoFifths(airMs: real, jumps: real, clockMs: real)
    requires airMs <= HURDLE_JUMP_WINDOW_MS * jumps && HURDLE_JUMP_COOLDOWN_MS * (jumps - 1.0) <= clockMs
    ensures airMs <= HURDLE_JUMP_WINDOW_MS + 0.4 * clockMs
  {
  }

  // ----- stamina

  /** Seconds spent running at sprint, on a sprint that ran dry, and recovering on foot or at rest. */
  datatype Ledger = Ledger(sprinted: real, ranDry: real, walked: real, idled: real)

  function Booked(s: RacerState, e: Event, was: Ledger): Ledger {
    if !e.Tick? || e.dtMs <= 0.0 || s.finished then was
    else
      var dt := Seconds(e.dtMs);
      if Sprinting(s, e.nowMs) then
        if Sprinting(WithStamina(s, true, e.nowMs, dt), e.nowMs) then was.(sprinted := was.sprinted + dt)
        else was.(ranDry := was.ranDry + dt)
      else if s.isMoving then was.(walked := was.walked + dt)
      else was.(idled := was.idled + dt)
  }

  function Spent(s: RacerState, es: seq<Event>, trackM: real): Ledger {
    if es == [] then Ledger(0.0, 0.0, 0.0, 0.0)
    else Booked(Run(s, Front(es), trackM), Last(es), Spent(s, Front(es), trackM))
  }

  /** Stamina left is between what is certainly saved up and what can have been. */
  predicate Balanced(startPct: real, staminaPct: real, spent: Ledger) {
    var saved := startPct + 0.15 * spent.walked + 0.3 * spent.idled;
    && staminaPct + 0.4 * spent.sprinted <= saved
    && Min(1.0, saved) <= staminaPct + 0.4 * (spent.sprinted + spent.ranDry)
    && 0.0 <= spent.sprinted && 0.0 <= spent.ranDry && 0.0 <= spent.walked && 0.0 <= spent.idled
  }

  lemma StaminaOnlyInTicks(s: RacerState, e: Event, trackM: real)
    ensures After(s, e, trackM).staminaPct ==
            if e.Tick? && e.dtMs > 0.0 && !s.finished
            then WithStamina(s, Sprinting(s, e.nowMs), e.nowMs, Seconds(e.dtMs)).staminaPct
            else s.staminaPct
  {
  }

  lemma TickBalances(s: RacerState, e: Event, startPct: real, spent: Ledger, dt: real, left: RacerState)
    requires e.Tick? && e.dtMs > 0.0 && !s.finished && dt == Seconds(e.dtMs) > 0.0
    requires 0.0 <= s.staminaPct <= STAMINA_MAX
    requires left == WithStamina(s, Sprinting(s, e.nowMs), e.nowMs, dt)
    requires Balanced(startPct, s.staminaPct, spent)
    ensures Balanced(startPct, left.staminaPct, Booked(s, e, spent))
  {
  }

  /** Sprinting is paid for out of the bar at the start and what walking and resting won back. */
  lemma {:induction false} SprintIsPaidFor(s: RacerState, es: seq<Event>, trackM: real)
    requires RaceLaps.InLimits(s)
    ensures Balanced(s.staminaPct, Run(s, es, trackM).staminaPct, Spent(s, es, trackM))
  {
    if es != [] {
      SprintIsPaidFor(s, Front(es), trackM);
      RaceLaps.RunInLimits(s, Front(es), trackM);
      var pre, e := Run(s, Front(es), trackM), Last(es);
      StaminaOnlyInTicks(pre, e, trackM);
      if e.Tick? && e.dtMs > 0.0 && !pre.finished {
        var dt := Seconds(e.dtMs);
        TickBalances(pre, e, s.staminaPct, Spent(s, Front(es), trackM), dt,
                     WithStamina(pre, Sprinting(pre, e.nowMs), e.nowMs, dt));
      }
    }
  }

  /** Stamina forces pacing: with the move key held, at most 3/11 of the time beyond the first bar is sprinted. */
  lemma SprintShare(es: seq<Event>, trackM: real)
    requires Spent(START, es, trackM).idled == 0.0
    ensures var spent := Spent(START, es, trackM);
      0.55 * spent.sprinted <= STAMINA_INITIAL + 0.15 * (spent.sprinted + spent.ranDry + spent.walked)
  {
    SprintIsPaidFor(START, es, trackM);
    RaceLaps.RunInLimits(START, es, trackM);
  }
}
