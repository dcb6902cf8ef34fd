/** What the keys do over a run, and when the finish is booked. */
module RaceControls {
  import opened Arithmetic
  import opened RaceConstants
  import opened RaceModel
  import RaceWindows

  // ----- the move key

  /** The last thing that was done with the move key, which starts out up. */
  function KeyDown(es: seq<Event>): bool {
    es != [] && if Last(es).MoveKey? then Last(es).held else KeyDown(Front(es))
  }

  lemma OnlyTheKeyMoves(s: RacerState, e: Event, trackM: real)
    ensures !s.finished ==> After(s, e, trackM).isMoving == if e.MoveKey? then e.held else s.isMoving
    ensures s.finished ==> After(s, e, trackM) == s
  {
  }

  /** A racer under way moves exactly while the key is down. */
  lemma {:induction false} MovesWhileKeyIsDown(es: seq<Event>, trackM: real)
    requires !Run(START, es, trackM).finished
    ensures Run(START, es, trackM).isMoving == KeyDown(es)
  {
    if es != [] {
      OnlyTheKeyMoves(Run(START, Front(es), trackM), Last(es), trackM);
      MovesWhileKeyIsDown(Front(es), trackM);
    }
  }

  // ----- sprint taps

  /** The state after n taps at one moment. */
  function Tapped(s: RacerState, nowMs: real, n: nat): RacerState {
    if n == 0 then s else WithSprintTap(Tapped(s, nowMs, n - 1), nowMs)
  }

  /** Each tap adds 250 ms to the window, or opens it from now, up to 600 ms from now; nothing else changes. */
  lemma {:induction false} TapsAddUp(es: seq<Event>, trackM: real, nowMs: real, n: nat)
    requires Timely(0.0, es) && 0.0 < trackM && Clock(0.0, es) <= nowMs
    ensures var s, r := Run(START, es, trackM), Tapped(Run(START, es, trackM), nowMs, n);
      var open := if s.sprintUntilMs <= nowMs then nowMs else s.sprintUntilMs;
      if n == 0 || s.finished || s.staminaPct <= 0.0 || nowMs < s.knockdownUntilMs then r == s
      else
        && r == s.(sprintUntilMs := r.sprintUntilMs)
        && (open + 250.0 * n as real <= nowMs + 600.0 ==> r.sprintUntilMs == open + 250.0 * n as real)
        && (nowMs + 600.0 <= open + 250.0 * n as real ==> r.sprintUntilMs == nowMs + 600.0)
  {
    RaceWindows.RunInOrder(es, trackM);
    if n > 0 { TapsAddUp(es, trackM, nowMs, n - 1); }
  }

  // ----- jumps

  /** When the last jump started: the last tap from which the racer was in the air; before the first, a second ago. */
  function LastStart(es: seq<Event>, trackM: real): real {
    if es == [] then -1000.0
    else
      var pre, post := Run(START, Front(es), trackM), Run(START, es, trackM);
      if Last(es).JumpTap? && pre != post then Last(es).nowMs else LastStart(Front(es), trackM)
  }

  lemma JumpTapEffect(s: RacerState, nowMs: real)
    ensures WithJumpTap(s, nowMs) ==
            if !s.finished && s.knockdownUntilMs <= nowMs && s.lastJumpMs + 1000.0 <= nowMs
            then s.(lastJumpMs := nowMs, jumpUntilMs := nowMs + 400.0) else s
  {
  }

  lemma {:induction false} LastStartIsKept(es: seq<Event>, trackM: real)
    requires Timely(0.0, es)
    ensures Run(START, es, trackM).lastJumpMs == LastStart(es, trackM)
  {
    if es != [] {
      var pre, e := Run(START, Front(es), trackM), Last(es);
      LastStartIsKept(Front(es), trackM);
      RaceWindows.LastJump(pre, e, trackM);
      if e.JumpTap? { JumpTapEffect(pre, e.nowMs); }
      hide WithJumpTap, Ticked;
    }
  }

  /**
   * A jump tap is honoured exactly if the racer is under way, not on the ground, and did not jump within the
   * last second; then the racer is in the air for the next 400 ms and no longer. The first one always is.
   */
  lemma JumpIsHonouredIff(es: seq<Event>, trackM: real, nowMs: real, laterMs: real)
    requires Timely(0.0, es) && 0.0 <= Clock(0.0, es) <= nowMs <= laterMs
    ensures var s, r := Run(START, es, trackM), WithJumpTap(Run(START, es, trackM), nowMs);
      var honoured := !s.finished && s.knockdownUntilMs <= nowMs && LastStart(es, trackM) + 1000.0 <= nowMs;
      && (honoured ==> (Airborne(r, laterMs) <==> laterMs < nowMs + 400.0))
      && (!honoured ==> r == s)
  {
    LastStartIsKept(es, trackM);
    JumpTapEffect(Run(START, es, trackM), nowMs);
    hide WithJumpTap, Run;
  }

  // ----- the finish

  lemma FinishStep(s: RacerState, e: Event, trackM: real)
    requires !s.finished && s.positionM < trackM
    ensures var r := After(s, e, trackM);
      && (r.finished <==> r.positionM >= trackM)
      && (r.finished ==> e.Tick? && e.dtMs > 0.0 && r.finishTimeMs == e.nowMs)
  {
    if e.Tick? && e.dtMs > 0.0 { RaceWindows.MovedWindows(s, Seconds(e.dtMs), e.nowMs); }
    hide Moved, CrossesOneOf, Segments;
  }

  /** The clock of the first event after which the racer has covered the track; 0 if there is none. */
  function ArrivalMs(es: seq<Event>, trackM: real): real {
    if es == [] || Run(START, es, trackM).positionM < trackM then 0.0
    else if Run(START, Front(es), trackM).positionM < trackM then Last(es).nowMs
    else ArrivalMs(Front(es), trackM)
  }

  /** A racer is finished exactly once the track is covered, and the time booked is that of the tick that did it. */
  lemma {:induction false} FinishIsArrival(es: seq<Event>, trackM: real)
    requires 0.0 < trackM
    ensures var s := Run(START, es, trackM);
      && (s.finished <==> s.positionM >= trackM)
      && (s.finished ==> s.finishTimeMs == ArrivalMs(es, trackM))
  {
    if es != [] {
      FinishIsArrival(Front(es), trackM);
      var pre := Run(START, Front(es), trackM);
      if pre.finished {
        OnlyTheKeyMoves(pre, Last(es), trackM);
      } else {
        FinishStep(pre, Last(es), trackM);
      }
      hide After;
    }
  }
}
