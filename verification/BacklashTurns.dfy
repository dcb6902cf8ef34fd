/** What each event makes of a match, in terms of the rules of the game and of what stands on the board. */
module BacklashTurns {
  import opened Wrappers
  import opened BacklashRules
  import opened BacklashKey
  import opened BacklashRuns
  import opened BacklashMatch
  import opened BacklashMatchRuns
  import opened BacklashEngine

  // ----- which requests are accepted

  /** In a chain only the piece that jumped may go on, jumping, to squares it has not been on this turn. */
  function Options(g: Match): MoveOptions {
    if g.phase.Jumping? then MoveOptions(true, g.jumpVisited) else MoveOptions(false, {})
  }

  /** The move is open to the player whose turn it is. */
  predicate Open(g: Match, m: Move) {
    && (g.phase.Playing? || g.phase.Jumping?) && Legal(g.board, m, Options(g))
    && g.board[m.from].value.color == g.turn && (g.phase.Jumping? ==> m.from == g.lockedJumpIndex)
  }

  lemma OpenIsNotRefused(g: Match, m: Move)
    requires Open(g, m)
    ensures MoveRefusal(g, g.turn, m.from, m.to).None?
    ensures Apply(g.board, m.from, m.to, OptionsOf(g)) == Some(AppliedTo(g.board, m))
  {
    LegalIsApplied(g.board, m, Options(g));
  }

  lemma NotRefusedIsOpen(g: Match, color: Color, from: int, to: int) returns (m: Move)
    requires MoveRefusal(g, color, from, to).None?
    ensures color == g.turn && m.from == from && m.to == to && Open(g, m)
  {
    ApplyPlaysTheLegalMove(g.board, from, to, OptionsOf(g));
    m := Apply(g.board, from, to, OptionsOf(g)).value.move;
  }

  /** A request is accepted, and counted, exactly if it names a move open to its player; otherwise nothing happens. */
  lemma AcceptedIffOpen(g: Match, color: Color, from: int, to: int)
    ensures var h := MoveMade(g, color, from, to);
      if color == g.turn && exists m: Move :: m.from == from && m.to == to && Open(g, m)
      then h.moveCount == g.moveCount + 1 else h == g
  {
    if color == g.turn && exists m: Move :: m.from == from && m.to == to && Open(g, m) {
      var m: Move :| m.from == from && m.to == to && Open(g, m);
      OpenIsNotRefused(g, m);
      CountsOne(Booked(g, from, to, AppliedTo(g.board, m)), color, to, AppliedTo(g.board, m));
    } else if MoveRefusal(g, color, from, to).None? {
      var m := NotRefusedIsOpen(g, color, from, to);
    }
  }

  lemma CountsOne(b: Match, color: Color, to: int, applied: Applied)
    ensures Continued(b, color, to, applied).moveCount == b.moveCount
  {
    hide LegalMovesOf, LegalMoves, CountPieces, PositionKey;
  }

  // ----- how the turn goes on

  ghost predicate EnemyLeft(board: Board, color: Color) {
    exists i :: Has(board, i) && board[i].value.color == Opponent(color)
  }

  /** The squares the mover has been on this turn, once the move is made. */
  function VisitedAfter(g: Match, m: Move): set<int> {
    (if g.phase.Jumping? then g.jumpVisited else {m.from}) + {m.to}
  }

  ghost predicate JumpsOn(board: Board, at: int, visited: set<int>) {
    exists n: Move :: n.from == at && Legal(board, n, MoveOptions(true, visited))
  }

  /** The overlings in reserve once the move is made. */
  function ReserveAfter(g: Match, m: Move, color: Color): nat
    requires WellPlaced(g.board, m)
  {
    var taken := Taken(g.board, m);
    g.capturedOverlings.Of(color) +
    if taken.Some? && taken.value.kind.Overling? && taken.value.color == color then 1 else 0
  }

  /** The move is a jump after which the piece can jump on. */
  ghost predicate ChainGoesOn(g: Match, m: Move)
    requires WellPlaced(g.board, m)
  {
    m.isJump && JumpsOn(Played(g.board, m), m.to, VisitedAfter(g, m))
  }

  /** The move brings an underling to its far row while an overling is in reserve. */
  predicate OffersPromotion(g: Match, m: Move)
    requires WellPlaced(g.board, m) && g.board[m.from].Some?
  {
    g.board[m.from].value.kind.Underling? && EnemyBackRow(g.turn, m.to) && ReserveAfter(g, m, g.turn) > 0
  }

  lemma CountTellsEnemies(board: Board, color: Color)
    ensures CountPieces(board, Opponent(color), None) > 0 <==> EnemyLeft(board, color)
  {
    CountZeroIffNone(board, Opponent(color), None);
    if EnemyLeft(board, color) {
      var i :| Has(board, i) && board[i].value.color == Opponent(color);
      assert Counts(board[i], Opponent(color), None);
    }
    if CountPieces(board, Opponent(color), None) > 0 {
      var i :| 0 <= i < |board| && Counts(board[i], Opponent(color), None);
      assert Has(board, i);
    }
  }

  lemma MovesTellJumps(board: Board, at: int, visited: set<int>)
    ensures LegalMoves(board, at, MoveOptions(true, visited)) != [] <==> JumpsOn(board, at, visited)
  {
    var opts := MoveOptions(true, visited);
    var ms := LegalMoves(board, at, opts);
    if ms != [] {
      GeneratorIsTheRules(board, at, opts, ms[0]);
    }
    if JumpsOn(board, at, visited) {
      var n: Move :| n.from == at && Legal(board, n, opts);
      GeneratorIsTheRules(board, at, opts, n);
    }
  }

  /** A hand-over passes the turn, to a fresh one or to an end that is none of capturing everything. */
  predicate PassedOn(g: Match, h: Match) {
    && h.turn == Opponent(g.turn) && h.board == g.board && h.capturedOverlings == g.capturedOverlings
    && h.moveCount == g.moveCount
    && (h.phase.Playing? || h.phase.Finished?)
    && (h.result.Some? ==> !h.result.value.reason.AllPieces?)
  }

  lemma CompletionPassesOn(g: Match)
    requires !g.phase.Finished? && g.result.None?
    ensures PassedOn(g, TurnCompleted(g))
  {
    hide LegalMovesOf, PositionKey;
  }

  /** The four ways a move can leave the turn. */
  predicate GoesOn(b: Match, h: Match, to: int, enemyLeft: bool, chain: bool, promotes: bool) {
    if !enemyLeft then
      h == b.(phase := Finished, lockedJumpIndex := -1, pendingPromotionIndex := -1,
              result := Some(Result(Win, Some(b.turn), AllPieces)))
    else if chain then h == b.(phase := Jumping, lockedJumpIndex := to)
    else if promotes then h == b.(phase := Promoting, pendingPromotionIndex := to)
    else PassedOn(b, h)
  }

  lemma ContinuationGoesOn(b: Match, to: int, applied: Applied, enemyLeft: bool, jumpsOn: bool)
    requires !b.phase.Finished? && b.result.None?
    requires enemyLeft == (CountPieces(b.board, Opponent(b.turn), None) > 0)
    requires jumpsOn == (LegalMoves(b.board, to, MoveOptions(true, b.jumpVisited)) != [])
    requires applied.promotionAvailable ==> !applied.move.isJump
    requires applied.move.isJump ==> applied.movedPiece.kind.Overling?
    ensures GoesOn(b, Continued(b, b.turn, to, applied), to, enemyLeft, applied.move.isJump && jumpsOn,
                   applied.promotionAvailable && b.capturedOverlings.Of(b.turn) > 0)
  {
    CompletionPassesOn(b);
    hide LegalMoves, TurnCompleted, CountPieces;
  }

  /** What an open move leaves before it is decided how the turn goes on. */
  lemma BookedState(g: Match, m: Move)
    requires Open(g, m)
    ensures WellPlaced(g.board, m)
    ensures var b := Booked(g, m.from, m.to, AppliedTo(g.board, m));
      && b.board == Played(g.board, m) && b.turn == g.turn && b.phase == g.phase && b.result == g.result
      && b.jumpVisited == VisitedAfter(g, m) && b.moveCount == g.moveCount + 1
      && (forall color :: b.capturedOverlings.Of(color) == ReserveAfter(g, m, color))
  {
    LegalIsWellPlaced(g.board, m, Options(g));
    hide Legal, Played;
  }

  lemma OpenMoveKinds(g: Match, m: Move)
    requires Open(g, m)
    ensures m.isJump ==> g.board[m.from].value.kind.Overling?
    ensures var applied := AppliedTo(g.board, m);
      applied.promotionAvailable <==> g.board[m.from].value.kind.Underling? && EnemyBackRow(g.turn, m.to)
  {
    EnemyBackRowIs(g.turn, m.to);
    hide EnemyBackRow;
  }

  /** Told apart: which of the four ways it was, and what it leaves. */
  predicate Ways(b: Match, h: Match, to: int, enemyLeft: bool, chain: bool, promotes: bool) {
    && h.board == b.board && h.moveCount == b.moveCount && h.capturedOverlings == b.capturedOverlings
    && (h.result == Some(Result(Win, Some(b.turn), AllPieces)) <==> !enemyLeft)
    && (h.phase.Jumping? <==> enemyLeft && chain)
    && (h.phase.Jumping? ==> h.turn == b.turn && h.lockedJumpIndex == to && h.jumpVisited == b.jumpVisited)
    && (h.phase.Promoting? <==> enemyLeft && promotes)
    && (h.phase.Promoting? ==> h.turn == b.turn && h.pendingPromotionIndex == to)
    && (h.turn == Opponent(b.turn) <==> enemyLeft && !chain && !promotes)
  }

  lemma WaysApart(b: Match, h: Match, to: int, enemyLeft: bool, chain: bool, promotes: bool)
    requires GoesOn(b, h, to, enemyLeft, chain, promotes) && b.result.None? && !(chain && promotes)
    ensures Ways(b, h, to, enemyLeft, chain, promotes)
  {
  }

  lemma MoveGoes(g: Match, m: Move, b: Match)
    requires Sound(g) && Open(g, m) && b == Booked(g, m.from, m.to, AppliedTo(g.board, m)) && WellPlaced(g.board, m)
    ensures Ways(b, MoveMade(g, g.turn, m.from, m.to), m.to, EnemyLeft(b.board, g.turn),
                 m.isJump && JumpsOn(b.board, m.to, b.jumpVisited), OffersPromotion(g, m))
  {
    OpenIsNotRefused(g, m);
    BookedState(g, m);
    OpenMoveKinds(g, m);
    CountTellsEnemies(b.board, g.turn);
    MovesTellJumps(b.board, m.to, b.jumpVisited);
    var enemyLeft, jumpsOn := EnemyLeft(b.board, g.turn), JumpsOn(b.board, m.to, b.jumpVisited);
    ContinuationGoesOn(b, m.to, AppliedTo(g.board, m), enemyLeft, jumpsOn);
    hide Continued, Booked, Legal, EnemyLeft, JumpsOn, EnemyBackRow, CountPieces, LegalMoves, ReserveAfter, GoesOn,
      Ways, AppliedTo, WellPlaced, Apply, Sound;
    WaysApart(b, MoveMade(g, g.turn, m.from, m.to), m.to, enemyLeft, m.isJump && jumpsOn, OffersPromotion(g, m));
  }

  /**
   * After an accepted move the match is won exactly if no enemy is left; otherwise the chain goes on exactly if
   * the move was a jump and the piece can jump on, to a square it has not been on; otherwise a promotion is
   * offered exactly if an underling reached its far row with an overling in reserve; otherwise the turn passes.
   */
  lemma MoveOutcome(g: Match, m: Move)
    requires Sound(g) && Open(g, m)
    ensures WellPlaced(g.board, m)
    ensures var h, enemyLeft := MoveMade(g, g.turn, m.from, m.to), EnemyLeft(Played(g.board, m), g.turn);
      && h.board == Played(g.board, m) && h.moveCount == g.moveCount + 1
      && (forall color :: h.capturedOverlings.Of(color) == ReserveAfter(g, m, color))
      && (h.result == Some(Result(Win, Some(g.turn), AllPieces)) <==> !enemyLeft)
      && (h.phase.Jumping? <==> enemyLeft && ChainGoesOn(g, m))
      && (h.phase.Jumping? ==> h.turn == g.turn && h.lockedJumpIndex == m.to && h.jumpVisited == VisitedAfter(g, m))
      && (h.phase.Promoting? <==> enemyLeft && OffersPromotion(g, m))
      && (h.phase.Promoting? ==> h.turn == g.turn && h.pendingPromotionIndex == m.to)
      && (h.turn == Opponent(g.turn) <==> enemyLeft && !ChainGoesOn(g, m) && !OffersPromotion(g, m))
  {
    BookedState(g, m);
    MoveGoes(g, m, Booked(g, m.from, m.to, AppliedTo(g.board, m)));
    hide MoveMade, Booked, Played, Legal, EnemyLeft, JumpsOn, EnemyBackRow, ReserveAfter, AppliedTo, OffersPromotion,
      Sound, Taken, WellPlaced;
  }

  // ----- the other events

  /** Ending a chain is for the player in it, and passes the turn. */
  lemma EndJumpOutcome(g: Match, color: Color)
    requires Sound(g)
    ensures var h := After(g, EndJump(color));
      if g.phase.Jumping? && color == g.turn then PassedOn(g, h) else h == g
  {
    if g.phase.Jumping? { CompletionPassesOn(g); }
    hide TurnCompleted, LegalMovesOf, LegalMoves;
  }

  /** The piece on the square, turned into an overling. */
  function Exchanged(board: Board, i: int): Board
    requires Has(board, i)
  {
    board[i := Some(Piece(board[i].value.id, board[i].value.color, Overling))]
  }

  /**
   * An offer is for the player it was made to: taken, an overling leaves the reserve for the board; either way
   * the turn passes.
   */
  lemma PromotionOutcome(g: Match, color: Color, accept: bool)
    requires Sound(g)
    ensures var h := After(g, Resolve(color, accept));
      if !(g.phase.Promoting? && color == g.turn) then h == g
      else
        && h.turn == Opponent(g.turn) && Has(g.board, g.pendingPromotionIndex) && g.capturedOverlings.Of(color) > 0
        && h.board == (if accept then Exchanged(g.board, g.pendingPromotionIndex) else g.board)
        && h.capturedOverlings.Of(color) == g.capturedOverlings.Of(color) - (if accept then 1 else 0)
        && h.capturedOverlings.Of(Opponent(color)) == g.capturedOverlings.Of(Opponent(color))
  {
    if g.phase.Promoting? && color == g.turn {
      assert MayResolve(g, color, accept);
      CompletionPassesOn(if accept then Restored(g, color) else g);
    }
    hide TurnCompleted, LegalMovesOf, LegalMoves, CountPieces;
  }

  /** Giving up a match under way loses it to the opponent; a match that is over stays as it is. */
  lemma ForfeitOutcome(g: Match, loser: Color, why: Reason)
    ensures var h := After(g, GiveUp(loser, why));
      && (!g.phase.Finished? ==>
            && h.phase.Finished? && h.result == Some(Result(Forfeit, Some(Opponent(loser)), why))
            && h.board == g.board && h.turn == g.turn)
      && (g.phase.Finished? ==> h == g)
  {
  }

  /** Captures first, then the lower square moved from, then the lower square moved to. */
  predicate PreferredTo(m: Move, n: Move) {
    || (m.isCapture && !n.isCapture)
    || (m.isCapture == n.isCapture && m.from < n.from)
    || (m.isCapture == n.isCapture && m.from == n.from && m.to < n.to)
  }

  lemma ListedIffOpen(g: Match, m: Move)
    requires Sound(g) && (g.phase.Playing? || g.phase.Jumping?)
    ensures m in CurrentLegalMoves(g) <==> Open(g, m)
  {
    if g.phase.Playing? {
      LegalMovesOfColor(g.board, g.turn, |g.board|, m);
    } else {
      GeneratorIsTheRules(g.board, g.lockedJumpIndex, MoveOptions(true, g.jumpVisited), m);
    }
  }

  lemma PreferredIsPreferred(m: Move, n: Move, board: Board, opts: MoveOptions)
    requires CompareMoves(m, n) <= 0 && m != n && Legal(board, m, opts) && Legal(board, n, opts)
    ensures PreferredTo(m, n)
  {
    if m.from == n.from && m.to == n.to { DestinationDecidesMove(board, opts, m, n); }
    hide Legal;
  }

  /** For a player out of time the open move preferred to all others is made; there always is one. */
  lemma AutomaticOutcome(g: Match) returns (m: Move)
    requires Sound(g)
    ensures g.phase.Playing? || g.phase.Jumping? ==>
      && Open(g, m) && (forall n :: Open(g, n) && n != m ==> PreferredTo(m, n))
      && After(g, Automatic) == After(g, Request(g.turn, m.from, m.to))
    ensures g.phase.Promoting? || g.phase.Finished? ==> After(g, Automatic) == g
  {
    m := Move.Move(0, 0, None, false, false);
    hide CurrentLegalMoves, Preferred, Open, MoveMade, Sound, PreferredTo, MoveRefusal;
    if g.phase.Playing? || g.phase.Jumping? {
      AutomaticMoveIsAccepted(g);
      m := Preferred(CurrentLegalMoves(g));
      BestIsOpen(g, m);
    }
  }

  lemma ListedIsOpen(g: Match, m: Move)
    requires g.phase.Playing? && m in LegalMovesOf(g.board, g.turn)
    ensures Open(g, m)
  {
    LegalMovesOfColor(g.board, g.turn, |g.board|, m);
  }

  /** A player out of time who has no move open loses, in whatever state. */
  lemma StuckLoses(g: Match)
    requires (g.phase.Playing? && forall m :: !Open(g, m))
             || (g.phase.Jumping? && g.lockedJumpIndex >= 0 && !JumpsOn(g.board, g.lockedJumpIndex, g.jumpVisited))
    ensures var h := After(g, Automatic);
      h.phase.Finished? && h.result == Some(Result(Win, Some(Opponent(g.turn)), NoLegalMoves)) && h.board == g.board
  {
    hide Open, JumpsOn, LegalMovesOf, LegalMoves, MoveMade;
    var moves := CurrentLegalMoves(g);
    if g.phase.Jumping? {
      MovesTellJumps(g.board, g.lockedJumpIndex, g.jumpVisited);
    } else if moves != [] {
      ListedIsOpen(g, moves[0]);
    }
    hide CurrentLegalMoves;
  }

  /** A new match is sound and has an opening move for white. */
  lemma OpeningMove() returns (m: Move)
    ensures Sound(FRESH) && Open(FRESH, m) && FRESH.turn == White
    ensures After(FRESH, Automatic) == MoveMade(FRESH, White, m.from, m.to)
  {
    RunIsSound([]);
    assert Run([]) == FRESH;
    hide Sound, Open, MoveMade, Plausible;
    assert FRESH.turn == White && FRESH.phase == Playing;
    m := AutomaticOutcome(FRESH);
  }

  lemma BestIsOpen(g: Match, m: Move)
    requires Sound(g) && (g.phase.Playing? || g.phase.Jumping?)
    requires CurrentLegalMoves(g) != [] && m == Preferred(CurrentLegalMoves(g))
    ensures Open(g, m) && forall n :: Open(g, n) && n != m ==> PreferredTo(m, n)
  {
    hide CurrentLegalMoves, Preferred, Sound, PreferredTo, Legal;
    PreferredIsBest(CurrentLegalMoves(g));
    ListedIffOpen(g, m);
    forall n | Open(g, n) && n != m
      ensures PreferredTo(m, n)
    {
      ListedIffOpen(g, n);
      PreferredIsPreferred(m, n, g.board, Options(g));
    }
  }

  /**
   * The reply to a request: accepted exactly if the request is, with the new phase and the captive; the square
   * given for it is where the captive stood, and it is empty now or taken by the mover. Otherwise the reason.
   */
  lemma ReplyTellsTheMove(g: Match, color: Color, from: int, to: int)
    requires Sound(g)
    ensures var h, reply := MoveMade(g, color, from, to), ReplyTo(g, color, from, to);
      && (reply.Accepted? <==> h.moveCount == g.moveCount + 1)
      && (reply.Accepted? ==>
            && reply.phase == h.phase && (reply.capturedIndex.Some? <==> reply.captured.Some?)
            && (forall i :: reply.capturedIndex == Some(i) ==>
                  && Has(g.board, i) && g.board[i] == reply.captured && g.board[i].value.color == Opponent(color)
                  && |h.board| == |g.board| && (if i == to then h.board[i] == g.board[from] else h.board[i].None?)))
      && (reply == Refused(AlreadyFinished) <==> g.phase.Finished?)
      && (reply == Refused(WrongTurn) <==> !g.phase.Finished? && color != g.turn)
      && (reply == Refused(JumpPieceLocked) <==> g.phase.Jumping? && color == g.turn && from != g.lockedJumpIndex)
  {
    if MoveRefusal(g, color, from, to).None? {
      var m := NotRefusedIsOpen(g, color, from, to);
      AcceptedReply(g, m);
    }
    hide MoveMade, Apply, AppliedTo, Sound, Has;
  }

  lemma AcceptedReply(g: Match, m: Move)
    requires Sound(g) && Open(g, m)
    ensures var h, reply := MoveMade(g, g.turn, m.from, m.to), ReplyTo(g, g.turn, m.from, m.to);
      && reply.Accepted? && h.moveCount == g.moveCount + 1
      && reply.phase == h.phase && (reply.capturedIndex.Some? <==> reply.captured.Some?)
      && (forall i :: reply.capturedIndex == Some(i) ==>
            && Has(g.board, i) && g.board[i] == reply.captured && g.board[i].value.color == Opponent(g.turn)
            && |h.board| == |g.board| && (if i == m.to then h.board[i] == g.board[m.from] else h.board[i].None?))
  {
    OpenIsNotRefused(g, m);
    MoveOutcome(g, m);
    CaptiveOf(g.board, m, Options(g));
    PlayedLength(g.board, m);
    hide MoveMade, Apply, Sound, Legal, Played, Taken, MoveRefusal, ChainGoesOn, OffersPromotion, EnemyLeft;
  }

  lemma PlayedLength(board: Board, m: Move)
    requires WellPlaced(board, m)
    ensures |Played(board, m)| == |board|
  {
  }

  lemma CaptiveOf(board: Board, m: Move, opts: MoveOptions)
    requires Legal(board, m, opts)
    ensures Taken(board, m).Some? <==> m.isCapture
    ensures var i := if m.jumped.Some? then m.jumped.value else m.to;
      m.isCapture ==>
        && Has(board, i) && Taken(board, m) == board[i] && board[i].value.color == Opponent(board[m.from].value.color)
        && Played(board, m)[i] == if i == m.to then board[m.from] else None
  {
    LegalIsWellPlaced(board, m, opts);
    if m.isCapture {
      PlayedAt(board, m, if m.jumped.Some? then m.jumped.value else m.to);
    }
  }

  // ----- turns without progress

  /** What is left of both sides at the start of the turn under way. */
  function StrengthAtTurn(es: seq<Event>): nat {
    if es == [] || Run(es).turn != Run(Front(es)).turn then Strength(Run(es).board) else StrengthAtTurn(Front(es))
  }

  /** How many turns in a row ended without a capture or a restoration. */
  function QuietTurns(es: seq<Event>): nat {
    if es == [] then 0
    else if Run(es).turn == Run(Front(es)).turn then QuietTurns(Front(es))
    else if Strength(Run(es).board) < StrengthAtTurn(Front(es)) then 0
    else QuietTurns(Front(es)) + 1
  }

  /** Progress is strength gone; the tally of turns without any moves on when the turn is handed over. */
  predicate QuietStep(g: Match, h: Match) {
    var progress := g.turnMadeProgress || Strength(h.board) < Strength(g.board);
    && Strength(h.board) <= Strength(g.board)
    && if h.turn == g.turn then h.noProgressTurns == g.noProgressTurns && h.turnMadeProgress == progress
       else h.noProgressTurns == (if progress then 0 else g.noProgressTurns + 1) && !h.turnMadeProgress
  }

  lemma CompletionIsQuietStep(g: Match)
    requires !g.phase.Finished?
    ensures QuietStep(g, TurnCompleted(g)) && TurnCompleted(g).turn != g.turn
  {
    hide LegalMovesOf, PositionKey, Strength;
  }

  lemma ContinuationIsQuietStep(b: Match, to: int, applied: Applied)
    requires !b.phase.Finished?
    ensures QuietStep(b, Continued(b, b.turn, to, applied))
  {
    CompletionIsQuietStep(b);
    hide LegalMoves, TurnCompleted, CountPieces, Strength;
  }

  lemma TwoSteps(g: Match, b: Match, h: Match)
    requires QuietStep(g, b) && QuietStep(b, h) && b.turn == g.turn
    ensures QuietStep(g, h)
  {
    hide Strength;
  }

  lemma PlayedStrength(board: Board, m: Move, opts: MoveOptions)
    requires Legal(board, m, opts)
    ensures var taken := Taken(board, m);
      Strength(Played(board, m)) + (if taken.None? then 0 else if taken.value.kind.Underling? then 2 else 1) ==
      Strength(board)
  {
    forall color: Color, kind: Option<Kind>
      ensures CountPieces(Played(board, m), color, kind) + (if Counts(Taken(board, m), color, kind) then 1 else 0)
              == CountPieces(board, color, kind)
    {
      PlayedCounts(board, m, opts, color, kind);
    }
    hide Legal, Played, Taken, CountPieces;
  }

  lemma BookingIsQuietStep(g: Match, m: Move)
    requires Sound(g) && Open(g, m)
    ensures QuietStep(g, Booked(g, m.from, m.to, AppliedTo(g.board, m)))
  {
    PlayedStrength(g.board, m, Options(g));
    hide Played, Taken, Strength, Legal, LegalMovesOf, CountPieces;
  }

  lemma MoveIsQuietStep(g: Match, color: Color, from: int, to: int)
    requires Sound(g)
    ensures QuietStep(g, MoveMade(g, color, from, to)) || MoveMade(g, color, from, to) == g
  {
    if MoveRefusal(g, color, from, to).None? {
      var m := NotRefusedIsOpen(g, color, from, to);
      OpenIsNotRefused(g, m);
      var b := Booked(g, m.from, m.to, AppliedTo(g.board, m));
      BookingIsQuietStep(g, m);
      ContinuationIsQuietStep(b, to, AppliedTo(g.board, m));
      TwoSteps(g, b, Continued(b, color, to, AppliedTo(g.board, m)));
    }
    hide QuietStep, Continued, Apply, AppliedTo, Sound;
  }

  lemma RestoringIsQuietStep(g: Match, color: Color)
    requires Sound(g) && MayResolve(g, color, true)
    ensures QuietStep(g, Restored(g, color))
  {
    forall c: Color, kind: Option<Kind> {
      PromotedCounts(g.board, g.pendingPromotionIndex, c, kind);
    }
    hide Sound, Promoted, CountPieces;
  }

  lemma EventIsQuietStep(g: Match, e: Event)
    requires Sound(g)
    ensures QuietStep(g, After(g, e)) || (After(g, e).board == g.board && After(g, e).turn == g.turn
              && After(g, e).noProgressTurns == g.noProgressTurns && After(g, e).turnMadeProgress == g.turnMadeProgress)
  {
    match e
    case Request(color, from, to) => MoveIsQuietStep(g, color, from, to);
    case EndJump(color) => if MayEndJump(g, color) { CompletionIsQuietStep(g); }
    case Resolve(color, accept) =>
      if MayResolve(g, color, accept) {
        if accept {
          RestoringIsQuietStep(g, color);
          CompletionIsQuietStep(Restored(g, color));
          TwoSteps(g, Restored(g, color), TurnCompleted(Restored(g, color)));
        } else {
          CompletionIsQuietStep(g);
        }
      }
    case GiveUp(_, _) =>
    case Automatic =>
      var m := AutomaticOutcome(g);
      if g.phase.Playing? || g.phase.Jumping? { MoveIsQuietStep(g, g.turn, m.from, m.to); }
  }

  /**
   * The tally behind the draw for want of progress is true on every run: it is the number of turns in a row
   * that took nothing and restored nothing, and the turn under way counts as progress once something has gone.
   */
  lemma {:induction false} NoProgressIsReal(es: seq<Event>)
    requires Plausible(es)
    ensures Run(es).noProgressTurns == QuietTurns(es)
    ensures Run(es).turnMadeProgress <==> Strength(Run(es).board) < StrengthAtTurn(es)
    ensures Strength(Run(es).board) <= StrengthAtTurn(es)
  {
    if es != [] {
      NoProgressIsReal(Front(es));
      RunIsSound(Front(es));
      EventIsQuietStep(Run(Front(es)), Last(es));
      hide After, Strength, Sound;
    }
  }
}
