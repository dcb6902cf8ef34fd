/** How fast a racer goes: what each gait makes of the speed in a tick, and over a run. */
module RaceSpeed {
  import opened Arithmetic
  import opened RaceConstants
  import opened RaceModel
  import RaceLaps
  import RaceWindows

  /** Boosted, sprinting for the whole tick, walking, lying down with the key held, or with the key up. */
  datatype Gait = Boost | Sprint | Walk | Down | Still

  /** The gait of a tick, told from the key, the windows and the stamina. */
  predicate InGait(s: RacerState, e: Event, g: Gait)
    requires e.Tick?
  {
    var lasts := e.nowMs < s.sprintUntilMs && s.staminaPct > 0.4 * Seconds(e.dtMs);
    match g
    case Still => !s.isMoving
    case Down => s.isMoving && e.nowMs < s.knockdownUntilMs
    case Boost => s.isMoving && s.knockdownUntilMs <= e.nowMs < s.boostUntilMs
    case Sprint => s.isMoving && s.knockdownUntilMs <= e.nowMs && s.boostUntilMs <= e.nowMs && lasts
    case Walk => s.isMoving && s.knockdownUntilMs <= e.nowMs && s.boostUntilMs <= e.nowMs && !lasts
  }

  /** The speed a gait makes for, and how fast it gets there. */
  function Aim(g: Gait): real {
    match g
    case Boost => 9.0
    case Sprint => 7.0
    case Walk => 3.0
    case Down => 0.0
    case Still => 0.0
  }

  function Rate(g: Gait): real { if g.Still? then 10.0 else 12.0 }

  /** Every tick has exactly one gait. */
  lemma OneGait(s: RacerState, e: Event) returns (g: Gait)
    requires e.Tick?
    ensures InGait(s, e, g) && forall h :: InGait(s, e, h) ==> h == g
  {
    g := if !s.isMoving then Still
         else if e.nowMs < s.knockdownUntilMs then Down
         else if e.nowMs < s.boostUntilMs then Boost
         else if e.nowMs < s.sprintUntilMs && s.staminaPct > 0.4 * Seconds(e.dtMs) then Sprint
         else Walk;
  }

  /** Going from v towards the aim by exactly the step, and to the aim itself once it is that near. */
  predicate MakesFor(v: real, w: real, aim: real, step: real) {
    && (aim - step <= v <= aim + step ==> w == aim)
    && (v < aim - step ==> w == v + step)
    && (aim + step < v ==> w == v - step)
  }

  /** A tick that runs, of a racer under way, and does not bring the racer down. */
  predicate Standing(s: RacerState, e: Event, trackM: real) {
    e.Tick? && e.dtMs > 0.0 && !s.finished && !RaceLaps.FallsOn(s, e, trackM)
  }

  /** What a tick makes of the speed, gait by gait, and of the position: the new speed for the length of the tick. */
  lemma TickSpeed(s: RacerState, e: Event, g: Gait, trackM: real)
    requires RaceLaps.InLimits(s) && Standing(s, e, trackM) && InGait(s, e, g)
    ensures var r, dt := After(s, e, trackM), Seconds(e.dtMs);
      && MakesFor(s.velocityMps, r.velocityMps, Aim(g), Rate(g) * dt)
      && r.positionM == s.positionM + r.velocityMps * dt
  {
    var dt := Seconds(e.dtMs);
    MovedSpeed(s, e, g, dt);
    StandingIsMoved(s, e, trackM);
    hide After, Moved, MakesFor, InGait;
  }

  lemma StandingIsMoved(s: RacerState, e: Event, trackM: real)
    requires Standing(s, e, trackM)
    ensures var r, m := After(s, e, trackM), Moved(s, Seconds(e.dtMs), e.nowMs);
      r.velocityMps == m.velocityMps && r.positionM == m.positionM
  {
    RaceWindows.MovedWindows(s, Seconds(e.dtMs), e.nowMs);
    hide Moved, CrossesOneOf, Segments;
  }

  lemma Tired(s: RacerState, nowMs: real, dt: real)
    ensures var r := WithStamina(s, Sprinting(s, nowMs), nowMs, dt);
      && r == s.(staminaPct := r.staminaPct, sprintUntilMs := r.sprintUntilMs)
      && (Sprinting(r, nowMs) <==> nowMs < s.sprintUntilMs && s.staminaPct > 0.4 * dt)
  {
  }

  lemma Paced(s: RacerState, sprinting: bool, nowMs: real, dt: real, aim: real, rate: real)
    requires 0.0 <= s.velocityMps <= BOOST_TARGET_MPS && dt > 0.0
    requires aim == TargetSpeed(s, sprinting, nowMs) && rate == if s.isMoving then 12.0 else 10.0
    ensures var r := WithVelocity(s, sprinting, nowMs, dt);
      r == s.(velocityMps := r.velocityMps) && MakesFor(s.velocityMps, r.velocityMps, aim, rate * dt)
  {
    ProductNonNegative(rate, dt);
    var step := rate * dt;
    assert WithVelocity(s, sprinting, nowMs, dt).velocityMps == Min(Approach(s.velocityMps, aim, step), V_MAX_MPS);
    assert 0.0 <= aim <= BOOST_TARGET_MPS && step >= 0.0;
    hide WithVelocity, TargetSpeed;
  }

  lemma MovedSpeed(s: RacerState, e: Event, g: Gait, dt: real)
    requires RaceLaps.InLimits(s) && e.Tick? && dt == Seconds(e.dtMs) > 0.0 && InGait(s, e, g)
    ensures var r := Moved(s, dt, e.nowMs);
      && MakesFor(s.velocityMps, r.velocityMps, Aim(g), Rate(g) * dt)
      && r.positionM == s.positionM + r.velocityMps * dt
  {
    Tired(s, e.nowMs, dt);
    hide WithStamina, WithVelocity, MakesFor;
    var r := WithStamina(s, Sprinting(s, e.nowMs), e.nowMs, dt);
    Paced(r, Sprinting(r, e.nowMs), e.nowMs, dt, Aim(g), Rate(g));
  }

  // ----- over a run

  /** Every tick of the run that takes time is in the gait and brings nobody down. */
  predicate AllIn(s: RacerState, es: seq<Event>, g: Gait, trackM: real) {
    es == [] || (
      && AllIn(s, Front(es), g, trackM)
      && var pre := Run(s, Front(es), trackM);
        Last(es).Tick? && Last(es).dtMs > 0.0 ==> Standing(pre, Last(es), trackM) && InGait(pre, Last(es), g))
  }

  /** The seconds the ticks of the run add up to. */
  function Duration(es: seq<Event>): real {
    if es == [] then 0.0
    else Duration(Front(es)) + if Last(es).Tick? && Last(es).dtMs > 0.0 then Seconds(Last(es).dtMs) else 0.0
  }

  function Gap(v: real, aim: real): real { if v <= aim then aim - v else v - aim }

  lemma GapCloses(v: real, w: real, aim: real, step: real)
    requires step > 0.0 && MakesFor(v, w, aim, step)
    ensures Gap(w, aim) == Max(0.0, Gap(v, aim) - step)
  {
  }

  lemma VelocityOnlyInTicks(s: RacerState, e: Event, trackM: real)
    requires !(e.Tick? && e.dtMs > 0.0)
    ensures After(s, e, trackM).velocityMps == s.velocityMps
  {
  }

  lemma StepAdds(gap: real, rate: real, before: real, dt: real, after: real)
    requires rate >= 0.0 && dt >= 0.0 && after == before + dt
    ensures Max(0.0, Max(0.0, gap - rate * before) - rate * dt) == Max(0.0, gap - rate * after)
  {
    ProductNonNegative(rate, dt);
    assert rate * after == rate * before + rate * dt;
  }

  /** Over a run in one gait the gap to its speed closes at its rate, to nothing. */
  lemma {:induction false} GaitCloses(s: RacerState, es: seq<Event>, g: Gait, trackM: real)
    requires RaceLaps.InLimits(s) && AllIn(s, es, g, trackM)
    ensures Gap(Run(s, es, trackM).velocityMps, Aim(g)) == Max(0.0, Gap(s.velocityMps, Aim(g)) - Rate(g) * Duration(es))
    ensures Duration(es) >= 0.0
  {
    if es != [] {
      var pre, e := Run(s, Front(es), trackM), Last(es);
      GaitCloses(s, Front(es), g, trackM);
      RaceLaps.RunInLimits(s, Front(es), trackM);
      if e.Tick? && e.dtMs > 0.0 {
        var dt := Seconds(e.dtMs);
        TickSpeed(pre, e, g, trackM);
        GapCloses(pre.velocityMps, After(pre, e, trackM).velocityMps, Aim(g), Rate(g) * dt);
        StepAdds(Gap(s.velocityMps, Aim(g)), Rate(g), Duration(Front(es)), dt, Duration(es));
      } else {
        VelocityOnlyInTicks(pre, e, trackM);
      }
    }
  }

  /**
   * Whatever the speed at the start, three quarters of a second under a boost bring a racer to 9 m/s, under a
   * sprint that lasts to 7 m/s, and on foot to 3 m/s; letting the key go takes nine tenths to come to rest.
   */
  lemma GaitsReachTheirSpeed(s: RacerState, es: seq<Event>, g: Gait, trackM: real)
    requires RaceLaps.InLimits(s) && AllIn(s, es, g, trackM)
    requires Duration(es) >= if g.Still? then 0.9 else 0.75
    ensures var v := Run(s, es, trackM).velocityMps;
      && (g.Boost? ==> v == 9.0) && (g.Sprint? ==> v == 7.0) && (g.Walk? ==> v == 3.0)
      && (g.Down? || g.Still? ==> v == 0.0)
  {
    GaitCloses(s, es, g, trackM);
    ProductMonotone(if g.Still? then 0.9 else 0.75, Duration(es), Rate(g));
  }
}
