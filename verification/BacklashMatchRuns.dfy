/** Whole-match facts: every match ends, overlings are conserved, and a draw by repetition is a real repetition. */
module BacklashMatchRuns {
  import opened Wrappers
  import opened BacklashRules
  import opened BacklashKey
  import opened BacklashRuns
  import opened BacklashMatch

  // ----- the invariant of a match

  /** The overlings of each color are on the board or in the reserve. */
  ghost predicate OverlingsConserved(g: Match) {
    forall c: Color :: CountPieces(g.board, c, Some(Overling)) + g.capturedOverlings.Of(c) == 8
  }

  ghost predicate ChainUnderWay(g: Match) {
    && OnBoard(g.lockedJumpIndex) && Has(g.board, g.lockedJumpIndex)
    && g.board[g.lockedJumpIndex].value.color == g.turn && g.board[g.lockedJumpIndex].value.kind.Overling?
    && g.lockedJumpIndex in g.jumpVisited
    && (forall v :: v in g.jumpVisited ==> OnBoard(v) && SameParity(v, g.lockedJumpIndex))
    && LegalMoves(g.board, g.lockedJumpIndex, MoveOptions(true, g.jumpVisited)) != []
  }

  /** The result is what the position says. */
  predicate ResultDeserved(g: Match) {
    g.result.Some? ==>
      var r := g.result.value;
      match r.reason
      case AllPieces => r.outcome.Win? && r.winner.Some? && CountPieces(g.board, Opponent(r.winner.value), None) == 0
      case NoLegalMoves => r.outcome.Win? && r.winner == Some(Opponent(g.turn)) && LegalMovesOf(g.board, g.turn) == []
      case NoProgress => r.outcome.Draw? && r.winner.None? && g.noProgressTurns == 100
      case Repetition => r.outcome.Draw? && r.winner.None?
      case _ => r.outcome.Forfeit? && r.winner.Some?
  }

  ghost predicate Sound(g: Match) {
    && Playable(g.board) && OverlingsConserved(g) && Population(g.board) >= 1
    && (g.phase.Finished? <==> g.result.Some?)
    && g.noProgressTurns <= 100
    && (!g.phase.Finished? ==> g.noProgressTurns < 100)
    && (!g.phase.Jumping? ==> g.lockedJumpIndex == -1)
    && (!g.phase.Promoting? ==> g.pendingPromotionIndex == -1)
    && (g.phase.Playing? ==> g.jumpVisited == {} && !g.turnMadeProgress && LegalMovesOf(g.board, g.turn) != [])
    && (g.phase.Jumping? ==> ChainUnderWay(g))
    && (g.phase.Promoting? ==>
          && Promotable(g.board, g.pendingPromotionIndex)
          && g.board[g.pendingPromotionIndex].value.color == g.turn
          && g.capturedOverlings.Of(g.turn) > 0)
  }

  lemma WhiteCanStart(board: Board)
    requires board == StartingBoard()
    ensures LegalMovesOf(board, White) != []
  {
    var m := Move.Move(8, 16, None, false, false);
    assert board[8] == StartingCell(1, 0) && board[16] == StartingCell(2, 0);
    LegalMovesOfColor(board, White, SQUARES, m);
  }

  lemma FirstIsSound(g: Match)
    requires g.board == StartingBoard() && g.turn.White? && g.phase.Playing? && g.result.None?
    requires g.lockedJumpIndex == -1 && g.pendingPromotionIndex == -1 && g.jumpVisited == {}
    requires g.noProgressTurns == 0 && g.capturedOverlings == PerColor(0, 0) && !g.turnMadeProgress
    ensures Sound(g)
  {
    hide LegalMovesOf, CountPieces;
    WhiteCanStart(g.board);
    StartingCounts(White);
    StartingCounts(Black);
  }

  /** What must hold when a turn is handed over. */
  ghost predicate ReadyToHandOver(g: Match) {
    && Playable(g.board) && OverlingsConserved(g) && Population(g.board) >= 1
    && !g.phase.Finished? && g.result.None? && g.noProgressTurns < NO_PROGRESS_TURN_LIMIT
    && (!g.phase.Jumping? ==> g.lockedJumpIndex == -1)
    && (!g.phase.Promoting? ==> g.pendingPromotionIndex == -1)
  }

  lemma HandOverIsSound(g: Match)
    requires ReadyToHandOver(g)
    ensures Sound(TurnCompleted(g)) && (ResultDeserved(TurnCompleted(g)))
  {
    hide LegalMovesOf, LegalMoves, CountPieces;
  }

  lemma PopulationAtLeast(board: Board, i: int)
    requires Has(board, i)
    ensures Population(board) >= 1 && Strength(board) >= 1
  {
    var p := board[i].value;
    CountZeroIffNone(board, p.color, Some(p.kind));
    assert Counts(board[i], p.color, Some(p.kind));
    CountByKind(board, White);
    CountByKind(board, Black);
  }

  /** The bookkeeping of an accepted move keeps the overlings and pays for progress with strength. */
  lemma BookedKeeps(g: Match, color: Color, from: int, to: int)
    requires Sound(g) && MoveRefusal(g, color, from, to).None?
    ensures var applied := Apply(g.board, from, to, OptionsOf(g)).value;
      var b := Booked(g, from, to, applied);
      && ReadyToHandOver(b) && Has(b.board, to) && b.board[to] == Some(applied.movedPiece)
      && applied.movedPiece.color == color == g.turn
      && (applied.promotionAvailable ==> Promotable(b.board, to))
      && (g.phase.Jumping? ==> applied.move.isJump && !applied.promotionAvailable)
      && Strength(b.board) + (if applied.captured.Some? then 1 else 0) <= Strength(g.board)
  {
    hide Apply, LegalMoves, LegalMovesOf, CountPieces;
    ApplyPlaysTheLegalMove(g.board, from, to, OptionsOf(g));
    OfferedPromotionSucceeds(g.board, from, to, OptionsOf(g));
    var applied := Apply(g.board, from, to, OptionsOf(g)).value;
    LegalIsApplied(g.board, applied.move, OptionsOf(g));
    AppliedCounts(g, applied);
    PopulationAtLeast(applied.board, to);
  }

  /** What an applied move takes from the board goes to the reserve, if it is an overling. */
  lemma AppliedCounts(g: Match, applied: Applied)
    requires Playable(g.board) && OverlingsConserved(g) && Legal(g.board, applied.move, OptionsOf(g))
    requires applied.board == Played(g.board, applied.move) && applied.captured == Taken(g.board, applied.move)
    ensures OverlingsConserved(Booked(g, applied.move.from, applied.move.to, applied))
    ensures Strength(applied.board) + (if applied.captured.Some? then 1 else 0) <= Strength(g.board)
  {
    hide Legal, Played, Taken, CountPieces;
    forall c: Color, kind: Option<Kind>
      ensures CountPieces(applied.board, c, kind) + (if Counts(applied.captured, c, kind) then 1 else 0) ==
              CountPieces(g.board, c, kind)
    {
      PlayedCounts(g.board, applied.move, OptionsOf(g), c, kind);
    }
  }

  lemma BookedChain(g: Match, from: int, to: int, color: Color)
    requires Sound(g) && MoveRefusal(g, color, from, to).None?
    requires Apply(g.board, from, to, OptionsOf(g)).value.move.isJump
    ensures var b := Booked(g, from, to, Apply(g.board, from, to, OptionsOf(g)).value);
      && to in b.jumpVisited && forall v :: v in b.jumpVisited ==> OnBoard(v) && SameParity(v, to)
    ensures g.phase.Jumping? ==> to !in g.jumpVisited
    ensures g.phase.Playing? ==> from != to
  {
    hide Apply, LegalMoves, LegalMovesOf, Population;
    ApplyPlaysTheLegalMove(g.board, from, to, OptionsOf(g));
    var m := Apply(g.board, from, to, OptionsOf(g)).value.move;
    assert Legal(g.board, m, MoveOptions(true, OptionsOf(g).excluded));
    JumpGeometry(g.board, m, OptionsOf(g).excluded);
  }

  lemma MoveIsSound(g: Match, color: Color, from: int, to: int)
    requires Sound(g) && ResultDeserved(g)
    ensures Sound(MoveMade(g, color, from, to)) && ResultDeserved(MoveMade(g, color, from, to))
  {
    if MoveRefusal(g, color, from, to).None? {
      var applied := Apply(g.board, from, to, OptionsOf(g)).value;
      var b := Booked(g, from, to, applied);
      BookedKeeps(g, color, from, to);
      if applied.move.isJump { BookedChain(g, from, to, color); }
      ContinuedIsSound(b, color, to, applied);
    }
  }

  lemma ContinuedIsSound(b: Match, color: Color, to: int, applied: Applied)
    requires ReadyToHandOver(b) && color == b.turn
    requires Has(b.board, to) && b.board[to] == Some(applied.movedPiece) && applied.movedPiece.color == color
    requires applied.promotionAvailable ==> Promotable(b.board, to)
    requires !applied.move.isJump ==> !b.phase.Jumping?
    requires applied.move.isJump ==>
      to in b.jumpVisited && forall v :: v in b.jumpVisited ==> OnBoard(v) && SameParity(v, to)
    requires !b.phase.Promoting? && (applied.promotionAvailable ==> !b.phase.Jumping?)
    ensures Sound(Continued(b, color, to, applied)) && ResultDeserved(Continued(b, color, to, applied))
  {
    hide LegalMovesOf, TurnCompleted;
    HandOverIsSound(b);
  }

  lemma PromotionIsSound(g: Match, color: Color, accept: bool)
    requires Sound(g) && ResultDeserved(g)
    ensures var r := PromotionResolved(g, color, accept); Sound(r) && ResultDeserved(r)
    ensures MayResolve(g, color, accept) && accept ==> Strength(Restored(g, color).board) + 1 == Strength(g.board)
  {
    hide TurnCompleted, LegalMovesOf, LegalMoves, CountPieces, Population;
    if MayResolve(g, color, accept) {
      if accept {
        var index := g.pendingPromotionIndex;
        forall c: Color, kind: Option<Kind> {
          PromotedCounts(g.board, index, c, kind);
        }
        var r := Restored(g, color);
        PopulationAtLeast(r.board, index);
        HandOverIsSound(r);
      } else {
        HandOverIsSound(g);
      }
    }
  }

  lemma {:induction false} PreferredIsBest(moves: seq<Move>)
    requires moves != []
    ensures Preferred(moves) in moves
    ensures forall m :: m in moves ==> CompareMoves(Preferred(moves), m) <= 0
  {
    if |moves| > 1 {
      PreferredIsBest(moves[1..]);
      assert moves == [moves[0]] + moves[1..];
    }
  }

  /** Whoever is to move always can: the automatic move is accepted, and takes a piece if any move does. */
  lemma AutomaticMoveIsAccepted(g: Match)
    requires Sound(g) && (g.phase.Playing? || g.phase.Jumping?)
    ensures CurrentLegalMoves(g) != []
    ensures var m := Preferred(CurrentLegalMoves(g));
      && MoveRefusal(g, g.turn, m.from, m.to).None?
      && (m.isCapture || forall n :: n in CurrentLegalMoves(g) ==> !n.isCapture)
  {
    hide Apply, MovesAt, Preferred, LegalMoves;
    var moves := CurrentLegalMoves(g);
    var m := Preferred(moves);
    PreferredIsBest(moves);
    if g.phase.Playing? {
      LegalMovesOfColor(g.board, g.turn, SQUARES, m);
    } else {
      GeneratorIsTheRules(g.board, g.lockedJumpIndex, OptionsOf(g), m);
    }
    ApplyPlaysTheLegalMove(g.board, m.from, m.to, OptionsOf(g));
  }

  lemma AfterIsSound(g: Match, e: Event)
    requires Sound(g) && ResultDeserved(g)
    requires e.GiveUp? ==> e.why.Timeout? || e.why.Disconnect?
    ensures Sound(After(g, e)) && ResultDeserved(After(g, e))
    ensures g.phase.Finished? ==> After(g, e) == g
  {
    match e
    case Request(color, from, to) => MoveIsSound(g, color, from, to);
    case EndJump(color) => if MayEndJump(g, color) { HandOverIsSound(g); }
    case Resolve(color, accept) => PromotionIsSound(g, color, accept);
    case GiveUp(_, _) =>
    case Automatic =>
      if g.phase.Playing? || g.phase.Jumping? {
        AutomaticMoveIsAccepted(g);
        var m := Preferred(CurrentLegalMoves(g));
        MoveIsSound(g, g.turn, m.from, m.to);
      }
  }

  /** A player can only run out of time or drop out. */
  predicate Plausible(es: seq<Event>) {
    forall i :: 0 <= i < |es| && es[i].GiveUp? ==> es[i].why.Timeout? || es[i].why.Disconnect?
  }

  lemma {:induction false} RunIsSound(es: seq<Event>)
    requires Plausible(es)
    ensures Sound(Run(es)) && ResultDeserved(Run(es))
  {
    if es == [] {
      FirstIsSound(FRESH);
    } else {
      RunIsSound(Front(es));
      AfterIsSound(Run(Front(es)), Last(es));
    }
  }

  // ----- every match ends

  /** Turns are paid for: 100 for every unit of strength gone, and the turns without progress since. */
  predicate TurnsPaid(g: Match, turns: nat) {
    var gone := 48 - Strength(g.board);
    if g.turnMadeProgress then turns + 1 <= 100 * gone else turns <= 100 * gone + g.noProgressTurns
  }

  /** At most 15 moves a turn. */
  predicate MovesPaid(g: Match, turns: nat) {
    g.moveCount <= 15 * turns +
      match g.phase
      case Playing => 0
      case Jumping => |g.jumpVisited| - 1
      case Promoting => 1
      case Finished => 15
  }

  predicate Paid(g: Match, turns: nat) { TurnsPaid(g, turns) && MovesPaid(g, turns) }

  function Handed(g: Match, h: Match, turns: nat): nat { turns + if h.turn != g.turn then 1 else 0 }

  lemma HandOverIsPaid(g: Match, turns: nat)
    requires ReadyToHandOver(g) && TurnsPaid(g, turns) && g.moveCount <= 15 * (turns + 1)
    ensures Paid(TurnCompleted(g), Handed(g, TurnCompleted(g), turns))
  {
    hide LegalMovesOf, LegalMoves, Strength, PositionKey;
  }

  /** Every move of a turn visits one more square, and a chain visits squares of one parity only. */
  lemma BookedVisits(g: Match, color: Color, from: int, to: int)
    requires Sound(g) && MoveRefusal(g, color, from, to).None?
    ensures var applied := Apply(g.board, from, to, OptionsOf(g)).value;
      var b := Booked(g, from, to, applied);
      && |b.jumpVisited| <= 16
      && |b.jumpVisited| == (if g.phase.Jumping? then |g.jumpVisited| + 1 else 2)
  {
    hide Apply, LegalMoves, LegalMovesOf;
    var applied := Apply(g.board, from, to, OptionsOf(g)).value;
    var b := Booked(g, from, to, applied);
    ApplyPlaysTheLegalMove(g.board, from, to, OptionsOf(g));
    if applied.move.isJump {
      BookedChain(g, from, to, color);
      OneParityIsSixteen(b.jumpVisited, to);
    }
    if g.phase.Playing? {
      assert from != to && b.jumpVisited == {from, to};
    }
  }

  lemma MoveIsPaid(g: Match, color: Color, from: int, to: int, turns: nat)
    requires Sound(g) && Paid(g, turns)
    ensures var h := MoveMade(g, color, from, to); Paid(h, Handed(g, h, turns))
  {
    hide Continued, Apply, Strength, LegalMovesOf, LegalMoves, CountPieces, OverlingsConserved, Promotable;
    if MoveRefusal(g, color, from, to).None? {
      var applied := Apply(g.board, from, to, OptionsOf(g)).value;
      var b := Booked(g, from, to, applied);
      BookedKeeps(g, color, from, to);
      BookedVisits(g, color, from, to);
      ContinuedIsPaid(b, color, to, applied, turns);
    }
  }

  lemma ContinuedIsPaid(b: Match, color: Color, to: int, applied: Applied, turns: nat)
    requires ReadyToHandOver(b) && TurnsPaid(b, turns)
    requires b.moveCount <= 15 * turns + |b.jumpVisited| - 1 && |b.jumpVisited| <= 16
    requires applied.promotionAvailable ==> |b.jumpVisited| == 2
    ensures var h := Continued(b, color, to, applied); Paid(h, Handed(b, h, turns))
  {
    hide LegalMovesOf, LegalMoves, TurnCompleted, Strength, ReadyToHandOver;
    HandOverIsPaid(b, turns);
  }

  lemma AfterIsPaid(g: Match, e: Event, turns: nat)
    requires Sound(g) && ResultDeserved(g) && Paid(g, turns)
    ensures Paid(After(g, e), Handed(g, After(g, e), turns))
  {
    hide MoveMade, TurnCompleted, LegalMovesOf, LegalMoves, Strength;
    match e
    case Request(color, from, to) => MoveIsPaid(g, color, from, to, turns);
    case EndJump(color) =>
      if MayEndJump(g, color) {
        OneParityIsSixteen(g.jumpVisited, g.lockedJumpIndex);
        HandOverIsPaid(g, turns);
      }
    case Resolve(color, accept) =>
      PromotionIsSound(g, color, accept);
      if MayResolve(g, color, accept) {
        if accept { RestoredIsReady(g, color); }
        HandOverIsPaid(if accept then Restored(g, color) else g, turns);
      }
    case GiveUp(_, _) =>
      if g.phase.Jumping? { OneParityIsSixteen(g.jumpVisited, g.lockedJumpIndex); }
    case Automatic =>
      if g.phase.Playing? || g.phase.Jumping? {
        AutomaticMoveIsAccepted(g);
        var m := Preferred(CurrentLegalMoves(g));
        MoveIsPaid(g, g.turn, m.from, m.to, turns);
      }
  }

  lemma RestoredIsReady(g: Match, color: Color)
    requires Sound(g) && MayResolve(g, color, true)
    ensures ReadyToHandOver(Restored(g, color))
  {
    forall c: Color, kind: Option<Kind> {
      PromotedCounts(g.board, g.pendingPromotionIndex, c, kind);
    }
    PopulationAtLeast(Restored(g, color).board, g.pendingPromotionIndex);
  }

  lemma {:induction false} RunIsPaid(es: seq<Event>)
    requires Plausible(es)
    ensures Paid(Run(es), Turns(es))
  {
    if es == [] {
      StartingCounts(White);
    } else {
      RunIsPaid(Front(es));
      RunIsSound(Front(es));
      AfterIsPaid(Run(Front(es)), Last(es), Turns(Front(es)));
    }
  }

  /** Every match is over after at most 4800 turns, and no match sees more than 72015 moves. */
  lemma MatchesEnd(es: seq<Event>)
    requires Plausible(es)
    ensures Turns(es) <= 4800
    ensures Run(es).moveCount <= 72015
    ensures Turns(es) == 4800 ==> Run(es).phase.Finished?
  {
    RunIsPaid(es);
    RunIsSound(es);
    PaidIsBounded(Run(es), Turns(es));
  }

  lemma PaidIsBounded(g: Match, turns: nat)
    requires Sound(g) && Paid(g, turns)
    ensures turns <= 4800 && g.moveCount <= 72015
    ensures turns == 4800 ==> g.phase.Finished?
  {
    CountByKind(g.board, White);
    CountByKind(g.board, Black);
    assert Strength(g.board) >= 1;
    if g.phase.Jumping? { OneParityIsSixteen(g.jumpVisited, g.lockedJumpIndex); }
  }

  // ----- repetition

  const REPEATED := Some(Result(Draw, None, Repetition))

  /** The positions at the start of each turn, the first one included, however the match then goes on or ends. */
  function Starts(es: seq<Event>): seq<(Board, Color)> {
    if es == [] then [(StartingBoard(), White)]
    else
      var g, h := Run(Front(es)), Run(es);
      Starts(Front(es)) + if h.turn != g.turn then [(h.board, h.turn)] else []
  }

  /** Those of them that the engine counts: it looks for the other two endings first. */
  function Recorded(es: seq<Event>): seq<(Board, Color)> {
    if es == [] then [(StartingBoard(), White)]
    else
      var g, h := Run(Front(es)), Run(es);
      Recorded(Front(es)) +
      if Records(g, h) then [(h.board, h.turn)] else []
  }

  /** How many of the recorded positions are the given one, piece identities aside. */
  function TimesSeen(seen: seq<(Board, Color)>, board: Board, turn: Color): nat {
    if seen == [] then 0
    else
      var last := seen[|seen| - 1];
      TimesSeen(seen[..|seen| - 1], board, turn) +
      if last.1 == turn && SamePosition(last.0, board) then 1 else 0
  }

  /** The engine's tally, kept by key, is the number of times the position was seen. */
  ghost predicate TallyIsTrue(g: Match, seen: seq<(Board, Color)>) {
    forall board, turn :: Occurrences(g.repetitions, PositionKey(board, turn)) == TimesSeen(seen, board, turn)
  }

  predicate Records(g: Match, h: Match) {
    h.turn != g.turn && (h.result.None? || h.result.value.reason.Repetition?)
  }

  /** The match ended as the turn was handed over, for want of progress or of a move. */
  predicate Blocked(h: Match) {
    h.result.Some? && (h.result.value.reason.NoProgress? || h.result.value.reason.NoLegalMoves?)
  }

  /** A step either leaves the tally alone or records the position it leads to, and draws at the third time. */
  predicate TallyStep(g: Match, h: Match) {
    if Records(g, h) then
      && h.repetitions == WithPosition(h.(repetitions := g.repetitions)).repetitions
      && LegalMovesOf(h.board, h.turn) != [] && g.result.None?
      && (if Occurrences(h.repetitions, PositionKey(h.board, h.turn)) >= REPETITION_LIMIT
          then h.result == REPEATED else h.result.None?)
    else
      && h.repetitions == g.repetitions && (h.result == REPEATED ==> g.result == REPEATED)
      && (g.result.Some? ==> h == g)
      && (g.result.None? ==> (h.turn != g.turn <==> Blocked(h)))
  }

  lemma HandOverTally(g: Match)
    requires !g.phase.Finished? && g.result.None?
    ensures TallyStep(g, TurnCompleted(g))
  {
    hide LegalMovesOf, LegalMoves, CountPieces, PositionKey;
  }

  lemma MoveTally(g: Match, color: Color, from: int, to: int)
    requires Sound(g)
    ensures TallyStep(g, MoveMade(g, color, from, to))
  {
    if MoveRefusal(g, color, from, to).None? {
      var applied := Apply(g.board, from, to, OptionsOf(g)).value;
      var b := Booked(g, from, to, applied);
      ContinuedTally(b, color, to, applied);
    }
  }

  lemma ContinuedTally(b: Match, color: Color, to: int, applied: Applied)
    requires !b.phase.Finished? && b.result.None?
    ensures TallyStep(b, Continued(b, color, to, applied))
  {
    hide LegalMovesOf, LegalMoves, CountPieces, PositionKey;
    HandOverTally(b);
  }

  lemma AfterTally(g: Match, e: Event)
    requires Sound(g) && ResultDeserved(g)
    requires e.GiveUp? ==> e.why.Timeout? || e.why.Disconnect?
    ensures TallyStep(g, After(g, e))
  {
    match e
    case Request(color, from, to) => MoveTally(g, color, from, to);
    case EndJump(color) => if MayEndJump(g, color) { HandOverTally(g); }
    case Resolve(color, accept) =>
      if MayResolve(g, color, accept) { HandOverTally(if accept then Restored(g, color) else g); }
    case GiveUp(_, _) =>
    case Automatic =>
      if g.phase.Playing? || g.phase.Jumping? {
        AutomaticMoveIsAccepted(g);
        var m := Preferred(CurrentLegalMoves(g));
        MoveTally(g, g.turn, m.from, m.to);
      }
  }

  /** A recording adds one for the position it records and leaves the other counts alone. */
  lemma OneMoreSeen(seen: seq<(Board, Color)>, g: Match, repetitions: map<string, nat>)
    requires TallyIsTrue(g.(repetitions := repetitions), seen)
    requires g.repetitions == WithPosition(g.(repetitions := repetitions)).repetitions
    ensures TallyIsTrue(g, seen + [(g.board, g.turn)])
  {
    forall board, turn
      ensures Occurrences(g.repetitions, PositionKey(board, turn)) == TimesSeen(seen + [(g.board, g.turn)], board, turn)
    {
      assert Occurrences(repetitions, PositionKey(board, turn)) == TimesSeen(seen, board, turn);
      CountOneMore(repetitions, PositionKey(g.board, g.turn), PositionKey(board, turn));
      SeenOneMore(seen, g.board, g.turn, board, turn);
    }
  }

  lemma CountOneMore(repetitions: map<string, nat>, key: string, other: string)
    ensures Occurrences(repetitions[key := Occurrences(repetitions, key) + 1], other) ==
            Occurrences(repetitions, other) + if other == key then 1 else 0
  {
  }

  lemma SeenOneMore(seen: seq<(Board, Color)>, b: Board, c: Color, board: Board, turn: Color)
    ensures TimesSeen(seen + [(b, c)], board, turn) ==
            TimesSeen(seen, board, turn) + if PositionKey(b, c) == PositionKey(board, turn) then 1 else 0
  {
    var more := seen + [(b, c)];
    assert more[..|more| - 1] == seen && more[|more| - 1] == (b, c);
    KeyIsThePosition(b, c, board, turn);
  }

  lemma FirstTally(g: Match)
    requires g.repetitions == WithPosition(g.(repetitions := map[])).repetitions
    ensures TallyIsTrue(g, [(g.board, g.turn)])
  {
    OneMoreSeen([], g, map[]);
    assert [] + [(g.board, g.turn)] == [(g.board, g.turn)];
  }

  lemma {:induction false} TallyOfRun(es: seq<Event>)
    requires Plausible(es)
    ensures TallyIsTrue(Run(es), Recorded(es))
  {
    if es == [] {
      FirstTally(FRESH);
    } else {
      var g, h := Run(Front(es)), Run(es);
      TallyOfRun(Front(es));
      RunIsSound(Front(es));
      AfterTally(g, Last(es));
      if Records(g, h) {
        OneMoreSeen(Recorded(Front(es)), h, g.repetitions);
      } else {
        assert Recorded(es) == Recorded(Front(es));
      }
    }
  }

  /** What is counted is every start of a turn, but for one on which the match ended before it was counted. */
  lemma {:induction false} StartsAreRecorded(es: seq<Event>)
    requires Plausible(es)
    ensures Starts(es) == Recorded(es) + if Blocked(Run(es)) then [(Run(es).board, Run(es).turn)] else []
  {
    hide After, Sound, ResultDeserved, LegalMovesOf, CountPieces;
    if es != [] {
      StartsAreRecorded(Front(es));
      RunIsSound(Front(es));
      AfterTally(Run(Front(es)), Last(es));
    }
  }

  /** Whoever was to move in a counted position could. */
  lemma {:induction false} RecordedCouldMove(es: seq<Event>)
    requires Plausible(es)
    ensures forall p :: p in Recorded(es) ==> LegalMovesOf(p.0, p.1) != []
  {
    if es == [] {
      WhiteCanStart(StartingBoard());
    } else {
      RecordedCouldMove(Front(es));
      RunIsSound(Front(es));
      AfterTally(Run(Front(es)), Last(es));
    }
  }

  /** The present position is the one that was just counted the third time; all others were counted twice at most. */
  lemma {:induction false} CountedTwiceAtMost(es: seq<Event>)
    requires Plausible(es)
    ensures Run(es).result == REPEATED ==> TimesSeen(Recorded(es), Run(es).board, Run(es).turn) == 3
    ensures Run(es).result != REPEATED ==>
      forall board, turn :: TimesSeen(Recorded(es), board, turn) < 3
  {
    TallyOfRun(es);
    if es == [] {
      assert Recorded(es)[..0] == [];
    } else {
      var g, h := Run(Front(es)), Run(es);
      CountedTwiceAtMost(Front(es));
      TallyOfRun(Front(es));
      RunIsSound(Front(es));
      AfterTally(g, Last(es));
      if Records(g, h) {
        var key := PositionKey(h.board, h.turn);
        assert Occurrences(h.repetitions, key) == Occurrences(g.repetitions, key) + 1;
        forall board, turn
          ensures TimesSeen(Recorded(es), board, turn) <=
                  if PositionKey(board, turn) == key then Occurrences(h.repetitions, key) else 2
        {
          assert Occurrences(h.repetitions, PositionKey(board, turn)) == TimesSeen(Recorded(es), board, turn);
        }
      }
    }
  }

  lemma {:induction false} SeenMeansThere(seen: seq<(Board, Color)>, board: Board, turn: Color)
    requires TimesSeen(seen, board, turn) > 0
    ensures exists p :: p in seen && p.1 == turn && SamePosition(p.0, board)
  {
    var last := seen[|seen| - 1];
    if !(last.1 == turn && SamePosition(last.0, board)) {
      SeenMeansThere(seen[..|seen| - 1], board, turn);
    }
  }

  /** A position without a move was never counted. */
  lemma StuckIsNew(es: seq<Event>, board: Board, turn: Color)
    requires Plausible(es) && LegalMovesOf(board, turn) == []
    ensures TimesSeen(Recorded(es), board, turn) == 0
  {
    RecordedCouldMove(es);
    if TimesSeen(Recorded(es), board, turn) > 0 {
      SeenMeansThere(Recorded(es), board, turn);
      var p :| p in Recorded(es) && p.1 == turn && SamePosition(p.0, board);
      SameMovesOfColor(p.0, board, turn);
    }
  }

  /** The match was drawn for want of progress on a turn that began with some position for the third time. */
  predicate ShadowedBy(es: seq<Event>, board: Board, turn: Color) {
    && Run(es).result == Some(Result(Draw, None, NoProgress))
    && Run(es).turn == turn && SamePosition(Run(es).board, board)
    && TimesSeen(Starts(es), board, turn) == 3
  }

  lemma SeenAtTheEnd(seen: seq<(Board, Color)>, b: Board, c: Color, board: Board, turn: Color)
    ensures TimesSeen(seen + [(b, c)], board, turn) ==
            TimesSeen(seen, board, turn) + if c == turn && SamePosition(b, board) then 1 else 0
  {
    var more := seen + [(b, c)];
    assert more[..|more| - 1] == seen && more[|more| - 1] == (b, c);
  }

  /**
   * The match is drawn by repetition when the present position, piece identities aside, stands at the start
   * of a turn for the third time; short of that no position has, unless on that very turn the match was
   * drawn for want of progress instead, which is looked at first.
   */
  lemma RepetitionIsReal(es: seq<Event>)
    requires Plausible(es)
    ensures Run(es).result == REPEATED ==> TimesSeen(Starts(es), Run(es).board, Run(es).turn) == 3
    ensures Run(es).result != REPEATED ==>
      forall board, turn :: TimesSeen(Starts(es), board, turn) < 3 || ShadowedBy(es, board, turn)
  {
    hide Run, TimesSeen, Recorded, Starts, ShadowedBy, Sound, CountPieces, LegalMovesOf;
    StartsAreRecorded(es);
    CountedTwiceAtMost(es);
    RunIsSound(es);
    var h := Run(es);
    if Blocked(h) {
      assert Starts(es) == Recorded(es) + [(h.board, h.turn)];
      forall board, turn
        ensures TimesSeen(Starts(es), board, turn) < REPETITION_LIMIT || ShadowedBy(es, board, turn)
      {
        BlockedTurn(es, board, turn);
      }
    } else {
      assert Starts(es) == Recorded(es);
    }
  }

  lemma BlockedTurn(es: seq<Event>, board: Board, turn: Color)
    requires Plausible(es) && Blocked(Run(es)) && ResultDeserved(Run(es))
    requires Starts(es) == Recorded(es) + [(Run(es).board, Run(es).turn)]
    requires TimesSeen(Recorded(es), board, turn) < REPETITION_LIMIT
    ensures TimesSeen(Starts(es), board, turn) < REPETITION_LIMIT || ShadowedBy(es, board, turn)
  {
    hide Run, TimesSeen, Recorded, Starts, CountPieces, LegalMovesOf, SamePosition;
    var h := Run(es);
    SeenAtTheEnd(Recorded(es), h.board, h.turn, board, turn);
    if h.turn == turn && SamePosition(h.board, board) && h.result.value.reason.NoLegalMoves? {
      SameMovesOfColor(h.board, board, turn);
      StuckIsNew(es, board, turn);
    }
  }

  // ----- equal keys mean equal prospects

  /** Everything that decides how the match can go on, but for the two draw counters. */
  predicate SameSituation(g: Match, h: Match) {
    && SamePosition(g.board, h.board) && g.turn == h.turn && g.phase == h.phase
    && g.lockedJumpIndex == h.lockedJumpIndex && g.pendingPromotionIndex == h.pendingPromotionIndex
    && g.capturedOverlings == h.capturedOverlings
    && g.jumpVisited == h.jumpVisited && g.turnMadeProgress == h.turnMadeProgress
  }

  /** The reserve is not part of the key, but the key decides it. */
  lemma KeyDecidesReserve(es: seq<Event>, fs: seq<Event>)
    requires Plausible(es) && Plausible(fs)
    requires SamePosition(Run(es).board, Run(fs).board)
    ensures Run(es).capturedOverlings == Run(fs).capturedOverlings
  {
    hide CountPieces, LegalMovesOf;
    RunIsSound(es);
    RunIsSound(fs);
    CountIsOfThePosition(Run(es).board, Run(fs).board, White, Some(Overling));
    CountIsOfThePosition(Run(es).board, Run(fs).board, Black, Some(Overling));
    var r, s := Run(es).capturedOverlings, Run(fs).capturedOverlings;
    assert r.Of(White) == s.Of(White) && r.Of(Black) == s.Of(Black);
  }

  lemma SameHandOver(g: Match, h: Match)
    requires SameSituation(g, h)
    ensures SamePosition(TurnCompleted(g).board, TurnCompleted(h).board)
    ensures TurnCompleted(g).phase.Finished? || TurnCompleted(h).phase.Finished? ||
            SameSituation(TurnCompleted(g), TurnCompleted(h))
  {
    hide LegalMovesOf, PositionKey;
  }

  lemma SameMove(g: Match, h: Match, color: Color, from: int, to: int)
    requires SameSituation(g, h)
    ensures MoveRefusal(g, color, from, to) == MoveRefusal(h, color, from, to)
    ensures var g', h' := MoveMade(g, color, from, to), MoveMade(h, color, from, to);
      && SamePosition(g'.board, h'.board)
      && (g'.phase.Finished? || h'.phase.Finished? || SameSituation(g', h'))
  {
    hide Apply, Continued, LegalMoves, LegalMovesOf;
    SamePositionsPlayAlike(g.board, h.board, from, to, OptionsOf(g));
    if Has(g.board, from) { assert SameCell(g.board[from], h.board[from]); }
    if MoveRefusal(g, color, from, to).None? {
      var r := Apply(g.board, from, to, OptionsOf(g)).value;
      var s := Apply(h.board, from, to, OptionsOf(h)).value;
      SameContinuation(Booked(g, from, to, r), Booked(h, from, to, s), color, to, r, s);
    }
  }

  lemma SameContinuation(b: Match, c: Match, color: Color, to: int, r: Applied, s: Applied)
    requires SameSituation(b, c)
    requires r.move == s.move && r.movedPiece.kind == s.movedPiece.kind && r.promotionAvailable == s.promotionAvailable
    ensures var g', h' := Continued(b, color, to, r), Continued(c, color, to, s);
      && SamePosition(g'.board, h'.board)
      && (g'.phase.Finished? || h'.phase.Finished? || SameSituation(g', h'))
  {
    hide LegalMoves, TurnCompleted, CountPieces;
    CountIsOfThePosition(b.board, c.board, Opponent(color), None);
    SameLegalMoves(b.board, c.board, to, MoveOptions(true, b.jumpVisited));
    SameHandOver(b, c);
  }

  /** Alike situations accept the same events and stay alike until one of the matches is over. */
  lemma SameEvent(g: Match, h: Match, e: Event)
    requires SameSituation(g, h) && !g.phase.Finished?
    ensures SamePosition(After(g, e).board, After(h, e).board)
    ensures After(g, e).phase.Finished? || After(h, e).phase.Finished? || SameSituation(After(g, e), After(h, e))
  {
    match e
    case Request(color, from, to) => SameMove(g, h, color, from, to);
    case EndJump(color) => SameHandOver(g, h);
    case Resolve(color, accept) =>
      SamePositionsPromoteAlike(g.board, h.board, g.pendingPromotionIndex);
      SameHandOver(g, h);
      if MayResolve(g, color, accept) && accept { SameHandOver(Restored(g, color), Restored(h, color)); }
    case GiveUp(_, _) =>
    case Automatic =>
      if !g.phase.Promoting? {
        SameMovesOfColor(g.board, h.board, g.turn);
        SameLegalMoves(g.board, h.board, g.lockedJumpIndex, MoveOptions(true, g.jumpVisited));
        var moves := CurrentLegalMoves(g);
        if moves != [] {
          var m := Preferred(moves);
          SameMove(g, h, g.turn, m.from, m.to);
        }
      }
  }

  function RunOn(g: Match, es: seq<Event>): Match {
    if es == [] then g else After(RunOn(g, Front(es)), Last(es))
  }

  lemma {:induction false} SamePrefixUnfinished(g: Match, es: seq<Event>)
    requires es != [] && !RunOn(g, es).phase.Finished?
    ensures !RunOn(g, Front(es)).phase.Finished?
  {
  }

  /**
   * Two matches that stand at equal keys with a fresh turn go on alike under every continuation, for as
   * long as neither is over: same position, same reserve, same phase, same piece to jump or to promote.
   */
  lemma {:induction false} EqualKeysGoOnAlike(es: seq<Event>, fs: seq<Event>, on: seq<Event>)
    requires Plausible(es) && Plausible(fs)
    requires Run(es).phase.Playing? && Run(fs).phase.Playing?
    requires PositionKey(Run(es).board, Run(es).turn) == PositionKey(Run(fs).board, Run(fs).turn)
    requires !RunOn(Run(es), on).phase.Finished? && !RunOn(Run(fs), on).phase.Finished?
    ensures SameSituation(RunOn(Run(es), on), RunOn(Run(fs), on))
    decreases on
  {
    if on == [] {
      KeyIsThePosition(Run(es).board, Run(es).turn, Run(fs).board, Run(fs).turn);
      KeyDecidesReserve(es, fs);
      RunIsSound(es);
      RunIsSound(fs);
    } else {
      SamePrefixUnfinished(Run(es), on);
      SamePrefixUnfinished(Run(fs), on);
      EqualKeysGoOnAlike(es, fs, Front(on));
      SameEvent(RunOn(Run(es), Front(on)), RunOn(Run(fs), Front(on)), Last(on));
    }
  }
}
