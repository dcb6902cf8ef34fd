/** The race as values: one racer's state, what each operation makes of it, and runs of operations. */
module RaceModel {
  import opened Arithmetic
  import opened RaceConstants

  datatype RacerState = RacerState(
    positionM: real,
    velocityMps: real,
    finished: bool,
    finishTimeMs: real,
    isMoving: bool,
    sprintUntilMs: real,
    staminaPct: real,
    boostUntilMs: real,
    jumpUntilMs: real,
    lastJumpMs: real,
    knockdownUntilMs: real)

  const START := RacerState(
    0.0, 0.0, false, 0.0, false, 0.0, STAMINA_INITIAL, 0.0, 0.0, -HURDLE_JUMP_COOLDOWN_MS, 0.0)

  predicate Sprinting(s: RacerState, nowMs: real) { nowMs < s.sprintUntilMs }
  predicate Boosted(s: RacerState, nowMs: real) { nowMs < s.boostUntilMs }
  predicate KnockedDown(s: RacerState, nowMs: real) { nowMs < s.knockdownUntilMs }
  predicate Airborne(s: RacerState, nowMs: real) { nowMs < s.jumpUntilMs }

  // ----- taps and the move key

  function WithMoving(s: RacerState, held: bool): RacerState {
    if s.finished then s else s.(isMoving := held)
  }

  function WithSprintTap(s: RacerState, nowMs: real): RacerState {
    if s.finished || s.staminaPct <= 0.0 || KnockedDown(s, nowMs) then s
    else
      var newEnd := Max(nowMs, s.sprintUntilMs) + SPRINT_TAP_DURATION_MS;
      s.(sprintUntilMs := Min(newEnd, nowMs + SPRINT_MAX_WINDOW_MS))
  }

  predicate JumpStarts(s: RacerState, nowMs: real) {
    !s.finished && !KnockedDown(s, nowMs) && s.lastJumpMs + HURDLE_JUMP_COOLDOWN_MS <= nowMs
  }

  function WithJumpTap(s: RacerState, nowMs: real): RacerState {
    if JumpStarts(s, nowMs) then s.(lastJumpMs := nowMs, jumpUntilMs := nowMs + HURDLE_JUMP_WINDOW_MS)
    else s
  }

  // ----- track features, in loop space

  function Positions(fractions: seq<real>, loopM: real): (ps: seq<real>)
    ensures |ps| == |fractions|
    ensures forall i :: 0 <= i < |ps| ==> ps[i] == fractions[i] * loopM
  {
    seq(|fractions|, i requires 0 <= i < |fractions| => fractions[i] * loopM)
  }

  const PADS: seq<real> := Positions(BOOST_PAD_FRACTIONS, LOOP_LENGTH_M)
  const HURDLES: seq<real> := Positions(HURDLE_FRACTIONS, LOOP_LENGTH_M)

  /** The remainder of a distance by the loop length; it keeps the sign of the distance. */
  function LoopSpace(p: real): real {
    if p >= 0.0 then p - LOOP_LENGTH_M * (p / LOOP_LENGTH_M).Floor as real
    else p + LOOP_LENGTH_M * ((-p) / LOOP_LENGTH_M).Floor as real
  }

  datatype Segment = Segment(prevM: real, nextM: real)

  function Segments(prevPositionM: real, positionM: real): seq<Segment> {
    var loopPrev, loopPos := LoopSpace(prevPositionM), LoopSpace(positionM);
    if loopPos < loopPrev then [Segment(loopPrev, LOOP_LENGTH_M), Segment(0.0, loopPos)]
    else [Segment(loopPrev, loopPos)]
  }

  predicate Crossed(g: Segment, featureM: real) { g.prevM < featureM <= g.nextM }

  predicate CrossedAny(gs: seq<Segment>, featureM: real) {
    exists i :: 0 <= i < |gs| && Crossed(gs[i], featureM)
  }

  predicate CrossesOneOf(gs: seq<Segment>, features: seq<real>) {
    exists j :: 0 <= j < |features| && CrossedAny(gs, features[j])
  }

  predicate HitsHurdle(s: RacerState, prevPositionM: real, nowMs: real) {
    !Airborne(s, nowMs) && CrossesOneOf(Segments(prevPositionM, s.positionM), HURDLES)
  }

  /** The effect of everything crossed on the way from `prevPositionM` to the racer's position. */
  function WithFeatures(s: RacerState, prevPositionM: real, nowMs: real): RacerState {
    var boostEnd :=
      if CrossesOneOf(Segments(prevPositionM, s.positionM), PADS) then nowMs + BOOST_DURATION_MS
      else s.boostUntilMs;
    if HitsHurdle(s, prevPositionM, nowMs) then
      s.(velocityMps := 0.0,
         knockdownUntilMs := nowMs + HURDLE_KNOCKDOWN_MS,
         sprintUntilMs := Min(s.sprintUntilMs, nowMs),
         boostUntilMs := Min(boostEnd, nowMs))
    else s.(boostUntilMs := boostEnd)
  }

  // ----- one tick

  function WithStamina(s: RacerState, sprinting: bool, nowMs: real, dt: real): RacerState {
    if sprinting then
      var left := s.staminaPct - SPRINT_DRAIN_PER_S * dt;
      if left <= 0.0 then s.(staminaPct := 0.0, sprintUntilMs := nowMs) else s.(staminaPct := left)
    else
      var regen := if s.isMoving then WALK_REGEN_PER_S else IDLE_REGEN_PER_S;
      s.(staminaPct := Min(STAMINA_MAX, s.staminaPct + regen * dt))
  }

  function TargetSpeed(s: RacerState, sprinting: bool, nowMs: real): real {
    if !s.isMoving || KnockedDown(s, nowMs) then 0.0
    else if Boosted(s, nowMs) then BOOST_TARGET_MPS
    else if sprinting then RUN_TARGET_MPS
    else WALK_TARGET_MPS
  }

  /** Moves v towards the target by at most step, without passing it. */
  function Approach(v: real, target: real, step: real): real {
    if v < target then Min(target, v + step)
    else if v > target then Max(target, v - step)
    else v
  }

  function WithVelocity(s: RacerState, sprinting: bool, nowMs: real, dt: real): RacerState {
    var accel := if s.isMoving then MOVE_ACCEL_MPSS else MOVE_DECEL_MPSS;
    var v := Approach(s.velocityMps, TargetSpeed(s, sprinting, nowMs), accel * dt);
    s.(velocityMps := Min(v, V_MAX_MPS))
  }

  function WithPosition(s: RacerState, dt: real): RacerState {
    s.(positionM := s.positionM + s.velocityMps * dt)
  }

  function Seconds(ms: real): real { ms / 1000.0 }

  /** Stamina, velocity and position of one tick, before the finish line and the features are looked at. */
  function Moved(s: RacerState, dt: real, nowMs: real): RacerState {
    var tired := WithStamina(s, Sprinting(s, nowMs), nowMs, dt);
    var paced := WithVelocity(tired, Sprinting(tired, nowMs), nowMs, dt);
    WithPosition(paced, dt)
  }

  function Ticked(s: RacerState, dtMs: real, nowMs: real, trackM: real): RacerState {
    if dtMs <= 0.0 || s.finished then s
    else
      var m := Moved(s, Seconds(dtMs), nowMs);
      if m.positionM >= trackM then m.(finished := true, finishTimeMs := nowMs)
      else WithFeatures(m, s.positionM, nowMs)
  }

  // ----- runs

  datatype Event =
    | Tick(dtMs: real, nowMs: real)
    | SprintTap(nowMs: real)
    | JumpTap(nowMs: real)
    | MoveKey(held: bool, nowMs: real)

  function After(s: RacerState, e: Event, trackM: real): RacerState {
    match e
    case Tick(dtMs, nowMs) => Ticked(s, dtMs, nowMs, trackM)
    case SprintTap(nowMs) => WithSprintTap(s, nowMs)
    case JumpTap(nowMs) => WithJumpTap(s, nowMs)
    case MoveKey(held, _) => WithMoving(s, held)
  }

  function Front(es: seq<Event>): seq<Event>
    requires es != []
  {
    es[..|es| - 1]
  }

  function Last(es: seq<Event>): Event
    requires es != []
  {
    es[|es| - 1]
  }

  /** The state after every event of es, in order. */
  function Run(s: RacerState, es: seq<Event>, trackM: real): RacerState {
    if es == [] then s else After(Run(s, Front(es), trackM), Last(es), trackM)
  }

  function Clock(startMs: real, es: seq<Event>): real {
    if es == [] then startMs else Last(es).nowMs
  }

  /** The clock handed to the operations never goes back. */
  predicate Timely(startMs: real, es: seq<Event>) {
    es == [] || (Timely(startMs, Front(es)) && Clock(startMs, Front(es)) <= Last(es).nowMs)
  }
}
