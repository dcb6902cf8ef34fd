/** Racers as mutable objects, advanced in place, as the race room drives them. */
module RacePhysics {
  import opened Arithmetic
  import opened RaceConstants
  import opened RaceModel

  class Racer {
    const id: string
    var positionM: real
    var velocityMps: real
    var finished: bool
    var finishTimeMs: real
    var isMoving: bool
    var sprintUntilMs: real
    var staminaPct: real
    var boostUntilMs: real
    var jumpUntilMs: real
    var lastJumpMs: real
    var knockdownUntilMs: real

    function State(): RacerState
      reads this
    {
      RacerState(positionM, velocityMps, finished, finishTimeMs, isMoving, sprintUntilMs, staminaPct,
                 boostUntilMs, jumpUntilMs, lastJumpMs, knockdownUntilMs)
    }

    constructor (id: string)
      ensures this.id == id && State() == START
    {
      this.id := id;
      positionM, velocityMps, finished, finishTimeMs, isMoving := 0.0, 0.0, false, 0.0, false;
      sprintUntilMs, staminaPct, boostUntilMs, jumpUntilMs := 0.0, STAMINA_INITIAL, 0.0, 0.0;
      lastJumpMs, knockdownUntilMs := -HURDLE_JUMP_COOLDOWN_MS, 0.0;
    }

    method SetMoving(held: bool)
      modifies this
      ensures State() == WithMoving(old(State()), held)
    {
      if finished { return; }
      isMoving := held;
    }

    method TriggerSprintTap(nowMs: real)
      modifies this
      ensures State() == WithSprintTap(old(State()), nowMs)
    {
      if finished { return; }
      if staminaPct <= 0.0 { return; }
      if nowMs < knockdownUntilMs { return; }
      var currentEnd := Max(nowMs, sprintUntilMs);
      var newEnd := currentEnd + SPRINT_TAP_DURATION_MS;
      var hardCap := nowMs + SPRINT_MAX_WINDOW_MS;
      sprintUntilMs := Min(newEnd, hardCap);
    }

    method TriggerJump(nowMs: real)
      modifies this
      ensures State() == WithJumpTap(old(State()), nowMs)
    {
      if finished { return; }
      if nowMs < knockdownUntilMs { return; }
      if nowMs < lastJumpMs + HURDLE_JUMP_COOLDOWN_MS { return; }
      lastJumpMs := nowMs;
      jumpUntilMs := nowMs + HURDLE_JUMP_WINDOW_MS;
    }

    method StepStamina(sprinting: bool, nowMs: real, dt: real)
      modifies this
      ensures State() == WithStamina(old(State()), sprinting, nowMs, dt)
    {
      if sprinting {
        staminaPct := staminaPct - SPRINT_DRAIN_PER_S * dt;
        if staminaPct <= 0.0 {
          staminaPct := 0.0;
          sprintUntilMs := nowMs;
        }
        return;
      }
      var regen := if isMoving then WALK_REGEN_PER_S else IDLE_REGEN_PER_S;
      staminaPct := Min(STAMINA_MAX, staminaPct + regen * dt);
    }

    method StepVelocity(sprinting: bool, nowMs: real, dt: real)
      modifies this
      ensures State() == WithVelocity(old(State()), sprinting, nowMs, dt)
    {
      var target, accel := 0.0, MOVE_DECEL_MPSS;
      if isMoving {
        accel := MOVE_ACCEL_MPSS;
        if nowMs < knockdownUntilMs {
          target := 0.0;
        } else if nowMs < boostUntilMs {
          target := BOOST_TARGET_MPS;
        } else {
          target := if sprinting then RUN_TARGET_MPS else WALK_TARGET_MPS;
        }
      }
      var v := velocityMps;
      var deltaV := accel * dt;
      if v < target {
        velocityMps := Min(target, v + deltaV);
      } else if v > target {
        velocityMps := Max(target, v - deltaV);
      }
      if velocityMps > V_MAX_MPS { velocityMps := V_MAX_MPS; }
    }

    method StepPosition(dt: real)
      modifies this
      ensures State() == WithPosition(old(State()), dt)
    {
      positionM := positionM + velocityMps * dt;
    }

    method ApplyHurdleKnockdown(nowMs: real)
      modifies this
      ensures State() == old(State()).(
        velocityMps := 0.0,
        knockdownUntilMs := nowMs + HURDLE_KNOCKDOWN_MS,
        sprintUntilMs := Min(old(sprintUntilMs), nowMs),
        boostUntilMs := Min(old(boostUntilMs), nowMs))
    {
      velocityMps := 0.0;
      knockdownUntilMs := nowMs + HURDLE_KNOCKDOWN_MS;
      sprintUntilMs := Min(sprintUntilMs, nowMs);
      boostUntilMs := Min(boostUntilMs, nowMs);
    }

    /** One pass over the pads, then one over the hurdles; each may fire several times in one tick. */
    method StepTrackFeatures(prevPositionM: real, nowMs: real)
      modifies this
      ensures State() == WithFeatures(old(State()), prevPositionM, nowMs)
    {
      ghost var was := State();
      var segments := Segments(prevPositionM, positionM);
      for i := 0 to |PADS|
        invariant State() == was.(boostUntilMs :=
          if CrossesOneOf(segments, PADS[..i]) then nowMs + BOOST_DURATION_MS else was.boostUntilMs)
      {
        OneMore(segments, PADS, i);
        var crossed := CrossedAnySegment(segments, PADS[i]);
        if !crossed { continue; }
        boostUntilMs := nowMs + BOOST_DURATION_MS;
      }
      assert PADS[..|PADS|] == PADS;

      ghost var boosted := State();
      for i := 0 to |HURDLES|
        invariant State() ==
          if !Airborne(was, nowMs) && CrossesOneOf(segments, HURDLES[..i]) then
            boosted.(velocityMps := 0.0,
                     knockdownUntilMs := nowMs + HURDLE_KNOCKDOWN_MS,
                     sprintUntilMs := Min(was.sprintUntilMs, nowMs),
                     boostUntilMs := Min(boosted.boostUntilMs, nowMs))
          else boosted
      {
        OneMore(segments, HURDLES, i);
        var crossed := CrossedAnySegment(segments, HURDLES[i]);
        if !crossed { continue; }
        if nowMs < jumpUntilMs { continue; }
        ApplyHurdleKnockdown(nowMs);
      }
      assert HURDLES[..|HURDLES|] == HURDLES;
    }
  }

  method CrossedAnySegment(segments: seq<Segment>, featureM: real) returns (r: bool)
    ensures r == CrossedAny(segments, featureM)
  {
    for i := 0 to |segments|
      invariant forall j :: 0 <= j < i ==> !Crossed(segments[j], featureM)
    {
      if Crossed(segments[i], featureM) { return true; }
    }
    return false;
  }

  lemma OneMore(gs: seq<Segment>, fs: seq<real>, i: nat)
    requires i < |fs|
    ensures CrossesOneOf(gs, fs[..i + 1]) <==> CrossesOneOf(gs, fs[..i]) || CrossedAny(gs, fs[i])
  {
    if CrossesOneOf(gs, fs[..i]) {
      var j :| 0 <= j < i && CrossedAny(gs, fs[..i][j]);
      assert CrossedAny(gs, fs[..i + 1][j]);
    }
    if CrossedAny(gs, fs[i]) {
      assert CrossedAny(gs, fs[..i + 1][i]);
    }
  }

  /** Advances every racer of the field, each independently of the others. */
  method Tick(racers: seq<Racer>, dtMs: real, nowMs: real, trackM: real)
    requires forall i, j :: 0 <= i < j < |racers| ==> racers[i] != racers[j]
    modifies racers
    ensures forall i :: 0 <= i < |racers| ==>
      racers[i].State() == Ticked(old(racers[i].State()), dtMs, nowMs, trackM)
  {
    var dt := dtMs / 1000.0;
    if dt <= 0.0 { return; }
    for i := 0 to |racers|
      invariant forall j :: i <= j < |racers| ==> racers[j].State() == old(racers[j].State())
      invariant forall j :: 0 <= j < i ==>
        racers[j].State() == Ticked(old(racers[j].State()), dtMs, nowMs, trackM)
    {
      var r := racers[i];
      if r.finished { continue; }
      TickOne(r, dtMs, nowMs, trackM);
    }
  }

  /** Stamina first, then velocity, then position: the first half of the loop body of Tick. */
  method Integrate(r: Racer, dt: real, nowMs: real)
    modifies r
    ensures r.State() == Moved(old(r.State()), dt, nowMs)
  {
    var sprinting := nowMs < r.sprintUntilMs;
    r.StepStamina(sprinting, nowMs, dt);
    var stillSprinting := nowMs < r.sprintUntilMs;
    r.StepVelocity(stillSprinting, nowMs, dt);
    r.StepPosition(dt);
  }

  /** The loop body of Tick, for one racer still under way. */
  method TickOne(r: Racer, dtMs: real, nowMs: real, trackM: real)
    requires !r.finished && dtMs > 0.0
    modifies r
    ensures r.State() == Ticked(old(r.State()), dtMs, nowMs, trackM)
  {
    var prevPositionM := r.positionM;
    Integrate(r, dtMs / 1000.0, nowMs);
    if r.positionM >= trackM {
      r.finished := true;
      r.finishTimeMs := nowMs;
      return;
    }
    r.StepTrackFeatures(prevPositionM, nowMs);
  }
}
