/** Tuning constants of the race simulation: metres, metres per second, and milliseconds. */
module RaceConstants {
  const LOOP_LENGTH_M := 100.0

  const WALK_TARGET_MPS := 3.0
  const RUN_TARGET_MPS := 7.0
  const BOOST_TARGET_MPS := 9.0
  const V_MAX_MPS := 12.0
  const MOVE_ACCEL_MPSS := 12.0
  const MOVE_DECEL_MPSS := 10.0

  const SPRINT_TAP_DURATION_MS := 250.0
  const SPRINT_MAX_WINDOW_MS := 600.0

  const STAMINA_MAX := 1.0
  const STAMINA_INITIAL := 1.0
  const SPRINT_DRAIN_PER_S := 0.4
  const WALK_REGEN_PER_S := 0.15
  const IDLE_REGEN_PER_S := 0.3

  const BOOST_PAD_FRACTIONS: seq<real> := [0.25, 0.5, 0.75]
  const BOOST_DURATION_MS := 800.0

  const HURDLE_FRACTIONS: seq<real> := [0.35, 0.65]
  const HURDLE_JUMP_WINDOW_MS := 400.0
  const HURDLE_JUMP_COOLDOWN_MS := 1000.0
  const HURDLE_KNOCKDOWN_MS := 1500.0

  const TICK_MS := 50.0
  const RUNNING_TIMEOUT_MS := 120000.0
}
