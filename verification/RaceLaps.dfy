/** Whole-run facts about where a racer is: speed limits, feature crossings per lap, and the finish. */
module RaceLaps {
  import opened RaceConstants
  import opened RaceModel
  import opened Arithmetic

  // ----- speed and stamina limits

  /** What every reachable state satisfies, whatever was tapped and however the clock moved. */
  predicate InLimits(s: RacerState) {
    && 0.0 <= s.velocityMps <= BOOST_TARGET_MPS
    && 0.0 <= s.positionM
    && 0.0 <= s.staminaPct <= STAMINA_MAX
  }

  lemma VelocityInLimits(s: RacerState, sprinting: bool, nowMs: real, dt: real)
    requires InLimits(s) && dt > 0.0
    ensures InLimits(WithVelocity(s, sprinting, nowMs, dt))
  {
  }

  lemma StaminaInLimits(s: RacerState, sprinting: bool, nowMs: real, dt: real)
    requires InLimits(s) && dt > 0.0
    ensures InLimits(WithStamina(s, sprinting, nowMs, dt))
  {
  }

  lemma PositionInLimits(s: RacerState, dt: real)
    requires InLimits(s) && dt > 0.0
    ensures InLimits(WithPosition(s, dt))
    ensures s.positionM <= WithPosition(s, dt).positionM <= s.positionM + BOOST_TARGET_MPS * dt
  {
    Travelled(s.positionM, WithPosition(s, dt).positionM, 0.0, s.velocityMps, BOOST_TARGET_MPS, dt);
  }

  lemma MovedWithinSpeed(s: RacerState, dt: real, nowMs: real)
    requires InLimits(s) && dt > 0.0
    ensures InLimits(Moved(s, dt, nowMs))
    ensures s.positionM <= Moved(s, dt, nowMs).positionM <= s.positionM + BOOST_TARGET_MPS * dt
  {
    var tired := WithStamina(s, Sprinting(s, nowMs), nowMs, dt);
    var paced := WithVelocity(tired, Sprinting(tired, nowMs), nowMs, dt);
    StaminaInLimits(s, Sprinting(s, nowMs), nowMs, dt);
    VelocityInLimits(tired, Sprinting(tired, nowMs), nowMs, dt);
    PositionInLimits(paced, dt);
  }

  lemma AfterInLimits(s: RacerState, e: Event, trackM: real)
    requires InLimits(s)
    ensures InLimits(After(s, e, trackM))
    ensures s.positionM <= After(s, e, trackM).positionM
    ensures s.finished ==> After(s, e, trackM) == s
  {
    if e.Tick? && e.dtMs > 0.0 {
      MovedWithinSpeed(s, Seconds(e.dtMs), e.nowMs);
    }
  }

  lemma {:induction false} RunInLimits(s: RacerState, es: seq<Event>, trackM: real)
    requires InLimits(s)
    ensures InLimits(Run(s, es, trackM))
    ensures s.positionM <= Run(s, es, trackM).positionM
    ensures s.finished ==> Run(s, es, trackM) == s
  {
    if es != [] {
      RunInLimits(s, Front(es), trackM);
      AfterInLimits(Run(s, Front(es), trackM), Last(es), trackM);
    }
  }

  // ----- crossings

  /** Where the feature at f is met on lap k. */
  function MeetingPoint(f: real, k: int): real { f + LOOP_LENGTH_M * k as real }

  /** The laps on which the feature at f is met while going from p to q. */
  function Meetings(f: real, p: real, q: real): set<int> {
    set k: int | 0 <= k <= (q / LOOP_LENGTH_M).Floor && p < MeetingPoint(f, k) <= q
  }

  predicate Feature(f: real) { 0.0 < f < LOOP_LENGTH_M }

  lemma MeetingIff(f: real, p: real, q: real, k: int)
    requires Feature(f) && 0.0 <= p <= q
    ensures k in Meetings(f, p, q) <==> p < MeetingPoint(f, k) <= q
  {
  }

  lemma MeetingsSplit(f: real, p: real, q: real, r: real)
    requires Feature(f) && 0.0 <= p <= q <= r
    ensures |Meetings(f, p, r)| == |Meetings(f, p, q)| + |Meetings(f, q, r)|
  {
    var a, b := Meetings(f, p, q), Meetings(f, q, r);
    forall k: int
      ensures k in Meetings(f, p, r) <==> k in a + b
    {
      MeetingIff(f, p, q, k);
      MeetingIff(f, q, r, k);
      MeetingIff(f, p, r, k);
    }
    assert Meetings(f, p, r) == a + b;
    assert a !! b;
  }

  /** A step shorter than the loop meets a feature at most once, and loop space sees exactly that. */
  lemma CrossedIffMet(f: real, p: real, q: real)
    requires Feature(f) && 0.0 <= p <= q < p + LOOP_LENGTH_M
    ensures |Meetings(f, p, q)| == if CrossedAny(Segments(p, q), f) then 1 else 0
  {
    var i, j := (p / LOOP_LENGTH_M).Floor, (q / LOOP_LENGTH_M).Floor;
    assert i <= j <= i + 1;
    var gs := Segments(p, q);
    assert CrossedAny(gs, f) <==> Crossed(gs[0], f) || (|gs| == 2 && Crossed(gs[1], f));
    forall k: int
      ensures k in Meetings(f, p, q) <==> (i <= k <= j && p < MeetingPoint(f, k) <= q)
    {
      MeetingIff(f, p, q, k);
    }
    if i == j {
      assert CrossedAny(gs, f) <==> i in Meetings(f, p, q);
      assert Meetings(f, p, q) == if CrossedAny(gs, f) then {i} else {};
    } else {
      assert |gs| == 2;
      assert Crossed(gs[0], f) <==> i in Meetings(f, p, q);
      assert Crossed(gs[1], f) <==> j in Meetings(f, p, q);
      assert Meetings(f, p, q) ==
        if Crossed(gs[0], f) then {i} else if Crossed(gs[1], f) then {j} else {};
    }
  }

  /** A step of a whole loop is not seen by loop space at all. */
  lemma WholeLoopStepIsMissed(p: real, f: real)
    requires Feature(f) && 0.0 <= p
    ensures !CrossedAny(Segments(p, p + LOOP_LENGTH_M), f)
    ensures |Meetings(f, p, p + LOOP_LENGTH_M)| == 1
  {
    var i, q := (p / LOOP_LENGTH_M).Floor, p + LOOP_LENGTH_M;
    assert (q / LOOP_LENGTH_M).Floor == i + 1;
    var k := if LoopSpace(p) < f then i else i + 1;
    forall m: int
      ensures m in Meetings(f, p, q) <==> m == k
    {
      MeetingIff(f, p, q, m);
    }
    assert Meetings(f, p, q) == {k};
  }

  lemma LoopSpaceRepeats(p: real)
    requires 0.0 <= p
    ensures LoopSpace(p + LOOP_LENGTH_M) == LoopSpace(p)
  {
    assert ((p + LOOP_LENGTH_M) / LOOP_LENGTH_M).Floor == (p / LOOP_LENGTH_M).Floor + 1;
  }

  /** A further whole loop is one more meeting, and loop space does not see it. */
  lemma OneLoopFarther(f: real, p: real, q: real)
    requires Feature(f) && 0.0 <= p <= q
    ensures |Meetings(f, p, q + LOOP_LENGTH_M)| == |Meetings(f, p, q)| + 1
    ensures Segments(p, q + LOOP_LENGTH_M) == Segments(p, q)
  {
    LoopSpaceRepeats(q);
    MeetingsSplit(f, p, q, q + LOOP_LENGTH_M);
    WholeLoopStepIsMissed(q, f);
  }

  lemma {:induction false} MetAsOftenAsSeen(f: real, p: real, q: real)
    requires Feature(f) && 0.0 <= p <= q
    ensures |Meetings(f, p, q)| >= if CrossedAny(Segments(p, q), f) then 1 else 0
    decreases q.Floor
  {
    if q < p + LOOP_LENGTH_M {
      CrossedIffMet(f, p, q);
    } else {
      MetAsOftenAsSeen(f, p, q - LOOP_LENGTH_M);
      OneLoopFarther(f, p, q - LOOP_LENGTH_M);
    }
  }

  /** Loop space counts a step's meetings right exactly when the step is shorter than the loop. */
  lemma SeenAsMetIffShort(f: real, p: real, q: real)
    requires Feature(f) && 0.0 <= p <= q
    ensures |Meetings(f, p, q)| == (if CrossedAny(Segments(p, q), f) then 1 else 0) <==> q < p + LOOP_LENGTH_M
  {
    if q < p + LOOP_LENGTH_M {
      CrossedIffMet(f, p, q);
    } else {
      MetAsOftenAsSeen(f, p, q - LOOP_LENGTH_M);
      OneLoopFarther(f, p, q - LOOP_LENGTH_M);
    }
  }

  /** Every tick of the run advances by less than one loop. */
  predicate ShortTicks(es: seq<Event>) {
    forall i :: 0 <= i < |es| && es[i].Tick? ==> BOOST_TARGET_MPS * Seconds(es[i].dtMs) < LOOP_LENGTH_M
  }

  predicate FiresOn(s: RacerState, e: Event, trackM: real, f: real) {
    && e.Tick? && e.dtMs > 0.0 && !After(s, e, trackM).finished
    && CrossedAny(Segments(s.positionM, Moved(s, Seconds(e.dtMs), e.nowMs).positionM), f)
  }

  /** How many ticks of the run fire the feature at f. */
  function Fires(s: RacerState, es: seq<Event>, trackM: real, f: real): nat {
    if es == [] then 0
    else
      Fires(s, Front(es), trackM, f) +
      if FiresOn(Run(s, Front(es), trackM), Last(es), trackM, f) then 1 else 0
  }

  lemma AfterPosition(s: RacerState, e: Event, trackM: real)
    requires !After(s, e, trackM).finished
    ensures !s.finished
    ensures After(s, e, trackM).positionM ==
            if e.Tick? && e.dtMs > 0.0 then Moved(s, Seconds(e.dtMs), e.nowMs).positionM else s.positionM
  {
  }

  lemma {:induction false} FinishIsFinal(s: RacerState, es: seq<Event>, trackM: real)
    requires es != [] && !Run(s, es, trackM).finished
    ensures !Run(s, Front(es), trackM).finished
  {
    AfterPosition(Run(s, Front(es), trackM), Last(es), trackM);
  }

  /** Each feature fires exactly once on every lap: as often as it is met between start and end. */
  lemma {:induction false} FiresOncePerLap(s: RacerState, es: seq<Event>, trackM: real, f: real)
    requires InLimits(s) && Feature(f) && ShortTicks(es)
    requires !Run(s, es, trackM).finished
    ensures Fires(s, es, trackM, f) == |Meetings(f, s.positionM, Run(s, es, trackM).positionM)|
  {
    RunInLimits(s, es, trackM);
    if es == [] {
      assert Meetings(f, s.positionM, s.positionM) == {};
    } else {
      var pre, e := Run(s, Front(es), trackM), Last(es);
      AfterPosition(pre, e, trackM);
      FiresOncePerLap(s, Front(es), trackM, f);
      RunInLimits(s, Front(es), trackM);
      var p, q := pre.positionM, Run(s, es, trackM).positionM;
      if e.Tick? && e.dtMs > 0.0 {
        MovedWithinSpeed(pre, Seconds(e.dtMs), e.nowMs);
        CrossedIffMet(f, p, q);
      } else {
        assert Meetings(f, p, p) == {};
      }
      MeetingsSplit(f, s.positionM, p, q);
    }
  }

  /** A pad that fires opens a full boost window, unless a hurdle brought the racer down on the same tick. */
  lemma FiringShows(s: RacerState, e: Event, trackM: real)
    requires e.Tick? && e.dtMs > 0.0 && !After(s, e, trackM).finished
    ensures var r := After(s, e, trackM);
      var padFires := exists f :: f in PADS && FiresOn(s, e, trackM, f);
      var down := (exists f :: f in HURDLES && FiresOn(s, e, trackM, f)) && !Airborne(s, e.nowMs);
      && (down ==> r.velocityMps == 0.0 && r.knockdownUntilMs == e.nowMs + 1500.0
                   && !Boosted(r, e.nowMs) && !Sprinting(r, e.nowMs))
      && (!down ==> r.knockdownUntilMs == s.knockdownUntilMs
                    && r.boostUntilMs == if padFires then e.nowMs + 800.0 else s.boostUntilMs)
  {
    hide Segments;
    var gs := Segments(s.positionM, Moved(s, Seconds(e.dtMs), e.nowMs).positionM);
    assert CrossesOneOf(gs, PADS) <==> exists f :: f in PADS && FiresOn(s, e, trackM, f) by {
      if CrossesOneOf(gs, PADS) {
        var j :| 0 <= j < |PADS| && CrossedAny(gs, PADS[j]);
        assert PADS[j] in PADS && FiresOn(s, e, trackM, PADS[j]);
      }
    }
    assert CrossesOneOf(gs, HURDLES) <==> exists f :: f in HURDLES && FiresOn(s, e, trackM, f) by {
      if CrossesOneOf(gs, HURDLES) {
        var j :| 0 <= j < |HURDLES| && CrossedAny(gs, HURDLES[j]);
        assert HURDLES[j] in HURDLES && FiresOn(s, e, trackM, HURDLES[j]);
      }
    }
  }

  // ----- the finish

  predicate FallsOn(s: RacerState, e: Event, trackM: real) {
    && e.Tick? && e.dtMs > 0.0 && !After(s, e, trackM).finished
    && HitsHurdle(Moved(s, Seconds(e.dtMs), e.nowMs), s.positionM, e.nowMs)
  }

  function Falls(s: RacerState, es: seq<Event>, trackM: real): nat {
    if es == [] then 0
    else
      Falls(s, Front(es), trackM) + if FallsOn(Run(s, Front(es), trackM), Last(es), trackM) then 1 else 0
  }

  lemma {:induction false} FallsAreFirings(s: RacerState, es: seq<Event>, trackM: real)
    ensures Falls(s, es, trackM) <= Fires(s, es, trackM, HURDLES[0]) + Fires(s, es, trackM, HURDLES[1])
  {
    if es != [] {
      FallsAreFirings(s, Front(es), trackM);
      var pre, e := Run(s, Front(es), trackM), Last(es);
      if FallsOn(pre, e, trackM) {
        assert FiresOn(pre, e, trackM, HURDLES[0]) || FiresOn(pre, e, trackM, HURDLES[1]);
      }
    }
  }

  lemma AtMostOneMeetingPerLap(f: real, q: real, laps: nat)
    requires Feature(f) && 0.0 <= q < LOOP_LENGTH_M * laps as real
    ensures |Meetings(f, 0.0, q)| <= laps
  {
    forall k | k in Meetings(f, 0.0, q)
      ensures 0 <= k < laps
    {
      assert MeetingPoint(f, k) <= q;
    }
    SizeBelow(Meetings(f, 0.0, q), laps);
  }

  /** The clock of the last tick. */
  function TickClock(es: seq<Event>): real {
    if es == [] then 0.0 else if Last(es).Tick? then Last(es).nowMs else TickClock(Front(es))
  }

  /** Ticks of at most TICK_MS, each advancing the clock by its own length; the move key is never let go. */
  predicate HeldRun(es: seq<Event>) {
    es == [] || (
      && HeldRun(Front(es))
      && (Last(es).MoveKey? ==> Last(es).held)
      && (Last(es).Tick? ==> 0.0 < Last(es).dtMs <= TICK_MS
                             && Last(es).nowMs == TickClock(Front(es)) + Last(es).dtMs))
  }

  lemma {:induction false} HeldTicksAreShort(es: seq<Event>)
    requires HeldRun(es)
    ensures ShortTicks(es)
  {
    if es != [] {
      HeldTicksAreShort(Front(es));
      assert forall i :: 0 <= i < |es| ==> es[i] == if i < |es| - 1 then Front(es)[i] else Last(es);
    }
  }

  /** How far behind a steady walk the racer is still going to fall: time on the ground and slow running. */
  function Owed(s: RacerState, nowMs: real): real {
    3.0 * Max(0.0, Seconds(s.knockdownUntilMs - nowMs)) + 0.25 * Max(0.0, WALK_TARGET_MPS - s.velocityMps)
  }

  /** The racer is at most 0.75 m, and 5.25 m per fall, behind a steady walk. */
  predicate KeepsPace(s: RacerState, nowMs: real, falls: nat) {
    && s.isMoving
    && (KnockedDown(s, nowMs) ==> s.velocityMps == 0.0)
    && WALK_TARGET_MPS * Seconds(nowMs) + Owed(s, nowMs) <= s.positionM + 0.75 + 5.25 * falls as real
  }

  /** While speeding up to at least walking pace, a tick covers what the walk covers, less what is repaid. */
  lemma SpeedingUp(v: real, w: real, dt: real)
    requires 0.0 <= v && 0.0 < dt && (w >= 3.0 || w == v + 12.0 * dt)
    ensures 3.0 * dt + 0.25 * (Max(0.0, 3.0 - w) - Max(0.0, 3.0 - v)) <= w * dt
  {
    if w >= 3.0 {
      ProductMonotone(3.0, w, dt);
    } else {
      ProductNonNegative(w, dt);
    }
  }

  /** What the move key, held down, makes of the velocity: nothing on the ground, otherwise at least a walk. */
  lemma MovedUnderKey(s: RacerState, dt: real, nowMs: real)
    requires InLimits(s) && s.isMoving && 0.0 < dt
    ensures var m := Moved(s, dt, nowMs);
      && m.isMoving && m.knockdownUntilMs == s.knockdownUntilMs
      && m.positionM == s.positionM + m.velocityMps * dt
      && (KnockedDown(s, nowMs) && s.velocityMps == 0.0 ==> m.velocityMps == 0.0)
      && (!KnockedDown(s, nowMs) ==> m.velocityMps >= 3.0 || m.velocityMps == s.velocityMps + 12.0 * dt)
  {
  }

  lemma PaceKept(s: RacerState, m: RacerState, nowMs: real, dt: real, falls: nat)
    requires 0.0 <= s.velocityMps && KeepsPace(s, nowMs - 1000.0 * dt, falls) && 0.0 < dt
    requires m.isMoving && m.knockdownUntilMs == s.knockdownUntilMs
    requires m.positionM == s.positionM + m.velocityMps * dt
    requires if KnockedDown(s, nowMs) then m.velocityMps == 0.0
      else m.velocityMps >= 3.0 || m.velocityMps == s.velocityMps + 12.0 * dt
    ensures KeepsPace(m, nowMs, falls)
  {
    if !KnockedDown(s, nowMs) {
      SpeedingUp(s.velocityMps, m.velocityMps, dt);
    }
  }

  lemma FeaturesKeepPace(m: RacerState, prevPositionM: real, nowMs: real, falls: nat)
    requires 0.0 <= m.velocityMps && KeepsPace(m, nowMs, falls)
    ensures KeepsPace(WithFeatures(m, prevPositionM, nowMs), nowMs,
                      falls + if HitsHurdle(m, prevPositionM, nowMs) then 1 else 0)
  {
  }

  lemma MovedKeepsPace(s: RacerState, dt: real, nowMs: real, falls: nat)
    requires InLimits(s) && KeepsPace(s, nowMs - 1000.0 * dt, falls) && 0.0 < dt
    ensures KeepsPace(Moved(s, dt, nowMs), nowMs, falls)
  {
    MovedUnderKey(s, dt, nowMs);
    PaceKept(s, Moved(s, dt, nowMs), nowMs, dt, falls);
  }

  lemma TickKeepsPace(s: RacerState, e: Event, trackM: real, clockMs: real, falls: nat)
    requires InLimits(s) && KeepsPace(s, clockMs, falls)
    requires e.Tick? && 0.0 < e.dtMs && e.nowMs == clockMs + e.dtMs
    requires !After(s, e, trackM).finished
    ensures KeepsPace(After(s, e, trackM), e.nowMs, falls + if FallsOn(s, e, trackM) then 1 else 0)
  {
    var dt := Seconds(e.dtMs);
    MovedKeepsPace(s, dt, e.nowMs, falls);
    MovedWithinSpeed(s, dt, e.nowMs);
    FeaturesKeepPace(Moved(s, dt, e.nowMs), s.positionM, e.nowMs, falls);
  }

  lemma {:induction false} HeldRunKeepsPace(es: seq<Event>, trackM: real)
    requires HeldRun(es)
    requires var s := START.(isMoving := true); !Run(s, es, trackM).finished
    ensures var s := START.(isMoving := true);
      KeepsPace(Run(s, es, trackM), TickClock(es), Falls(s, es, trackM))
  {
    var s := START.(isMoving := true);
    if es != [] {
      FinishIsFinal(s, es, trackM);
      HeldRunKeepsPace(Front(es), trackM);
      RunInLimits(s, Front(es), trackM);
      if Last(es).Tick? {
        TickKeepsPace(Run(s, Front(es), trackM), Last(es), trackM, TickClock(Front(es)), Falls(s, Front(es), trackM));
      }
    }
  }

  /** A held run that is still under way has been going for less than (110.5 laps + 0.75) / 3 seconds. */
  lemma {:induction false} UnfinishedIsEarly(es: seq<Event>, laps: nat)
    requires HeldRun(es) && 1 <= laps
    requires !Run(START.(isMoving := true), es, LOOP_LENGTH_M * laps as real).finished
    ensures WALK_TARGET_MPS * Seconds(TickClock(es)) < 110.5 * laps as real + 0.75
  {
    var s, trackM := START.(isMoving := true), LOOP_LENGTH_M * laps as real;
    HeldRunKeepsPace(es, trackM);
    HeldTicksAreShort(es);
    RunInLimits(s, es, trackM);
    UnfinishedIsShort(s, es, trackM);
    var p := Run(s, es, trackM).positionM;
    FiresOncePerLap(s, es, trackM, HURDLES[0]);
    FiresOncePerLap(s, es, trackM, HURDLES[1]);
    FallsAreFirings(s, es, trackM);
    AtMostOneMeetingPerLap(HURDLES[0], p, laps);
    AtMostOneMeetingPerLap(HURDLES[1], p, laps);
    assert Falls(s, es, trackM) <= 2 * laps;
  }

  lemma {:induction false} UnfinishedIsShort(s: RacerState, es: seq<Event>, trackM: real)
    requires s.positionM < trackM && !Run(s, es, trackM).finished
    ensures Run(s, es, trackM).positionM < trackM
  {
    if es != [] {
      FinishIsFinal(s, es, trackM);
      UnfinishedIsShort(s, Front(es), trackM);
    }
  }

  lemma {:induction false} FinishTimeIsEarly(es: seq<Event>, laps: nat)
    requires HeldRun(es) && 1 <= laps
    requires Run(START.(isMoving := true), es, LOOP_LENGTH_M * laps as real).finished
    ensures var r := Run(START.(isMoving := true), es, LOOP_LENGTH_M * laps as real);
      WALK_TARGET_MPS * Seconds(r.finishTimeMs - TICK_MS) < 110.5 * laps as real + 0.75
  {
    var s, trackM := START.(isMoving := true), LOOP_LENGTH_M * laps as real;
    var pre := Run(s, Front(es), trackM);
    if pre.finished {
      FinishTimeIsEarly(Front(es), laps);
    } else {
      UnfinishedIsEarly(Front(es), laps);
    }
  }

  /**
   * Whoever holds the move key is home before the timeout on every distance a host may choose: within
   * 74 s over two laps, whatever is tapped and however many hurdles are hit.
   */
  lemma HeldKeyFinishesInTime(es: seq<Event>, laps: nat)
    requires HeldRun(es) && 1 <= laps <= 2 && TickClock(es) >= 74000.0
    ensures var r := Run(START.(isMoving := true), es, LOOP_LENGTH_M * laps as real);
      r.finished && r.finishTimeMs < 74000.0 < RUNNING_TIMEOUT_MS
  {
    if !Run(START.(isMoving := true), es, LOOP_LENGTH_M * laps as real).finished {
      UnfinishedIsEarly(es, laps);
    } else {
      FinishTimeIsEarly(es, laps);
    }
  }
}
