/** The match engine as the mutable object the game server holds. */
module BacklashEngine {
  import opened Wrappers
  import opened BacklashRules
  import opened BacklashKey
  import opened BacklashRuns
  import opened BacklashMatch

  datatype Reply =
    | Refused(reason: Refusal)
    | NothingToPlay
    | Accepted(capturedIndex: Option<int>, captured: Cell, phase: Phase)

  /** What the player is told about a requested move. */
  function ReplyTo(g: Match, color: Color, from: int, to: int): Reply {
    var refusal := MoveRefusal(g, color, from, to);
    if refusal.Some? then Refused(refusal.value)
    else
      var applied := Apply(g.board, from, to, OptionsOf(g)).value;
      var capturedIndex :=
        if !applied.move.isCapture then None
        else Some(if applied.move.jumped.Some? then applied.move.jumped.value else to);
      Accepted(capturedIndex, applied.captured, MoveMade(g, color, from, to).phase)
  }

  function AutomaticReply(g: Match): Reply {
    var moves := CurrentLegalMoves(g);
    if g.phase.Finished? then Refused(AlreadyFinished)
    else if g.phase.Promoting? then Refused(InvalidMove)
    else if moves == [] then NothingToPlay
    else ReplyTo(g, g.turn, Preferred(moves).from, Preferred(moves).to)
  }

  class Engine {
    var board: Board
    var turn: Color
    var phase: Phase
    var moveCount: nat
    var noProgressTurns: nat
    var lockedJumpIndex: int
    var pendingPromotionIndex: int
    var capturedOverlings: PerColor
    var result: Option<Result>
    var jumpVisited: set<int>
    var turnMadeProgress: bool
    var repetitions: map<string, nat>

    function State(): Match
      reads this
    {
      Match(board, turn, phase, moveCount, noProgressTurns, lockedJumpIndex, pendingPromotionIndex,
            capturedOverlings, result, jumpVisited, turnMadeProgress, repetitions)
    }

    constructor ()
      ensures State() == FRESH
    {
      board, turn, phase, moveCount, noProgressTurns := [], White, Playing, 0, 0;
      lockedJumpIndex, pendingPromotionIndex, capturedOverlings := -1, -1, PerColor(0, 0);
      result, jumpVisited, turnMadeProgress, repetitions := None, {}, false, map[];
      new;
      board := CreateBacklashBoard();
      assert State() == UNRECORDED;
      var _ := RecordPosition();
    }

    method Reset()
      modifies this
      ensures State() == FRESH
    {
      board := CreateBacklashBoard();
      turn := White;
      phase := Playing;
      moveCount := 0;
      noProgressTurns := 0;
      lockedJumpIndex := -1;
      pendingPromotionIndex := -1;
      capturedOverlings := PerColor(0, 0);
      result := None;
      jumpVisited := {};
      turnMadeProgress := false;
      repetitions := map[];
      assert State() == UNRECORDED;
      var _ := RecordPosition();
    }

    method RecordPosition() returns (count: nat)
      modifies this
      ensures State() == WithPosition(old(State()))
      ensures count == Occurrences(repetitions, PositionKey(board, turn))
    {
      var key := PositionKey(board, turn);
      count := (if key in repetitions then repetitions[key] else 0) + 1;
      repetitions := repetitions[key := count];
    }

    method Finish(outcome: Outcome, winner: Option<Color>, reason: Reason)
      modifies this
      ensures State() == Ended(old(State()), outcome, winner, reason)
    {
      phase := Finished;
      lockedJumpIndex := -1;
      pendingPromotionIndex := -1;
      result := Some(Result(outcome, winner, reason));
    }

    method CompleteTurn()
      modifies this
      ensures State() == TurnCompleted(old(State()))
    {
      hide LegalMovesOf, PositionKey;
      if phase.Finished? { return; }
      ghost var was := State();
      if turnMadeProgress { noProgressTurns := 0; } else { noProgressTurns := noProgressTurns + 1; }
      var previousTurn := turn;
      turn := Opponent(turn);
      phase := Playing;
      lockedJumpIndex := -1;
      pendingPromotionIndex := -1;
      jumpVisited := {};
      turnMadeProgress := false;
      assert State() == HandedOver(was);
      if noProgressTurns >= NO_PROGRESS_TURN_LIMIT {
        Finish(Draw, None, NoProgress);
        return;
      }
      var moves := LegalMovesForColor(board, turn);
      if |moves| == 0 {
        Finish(Win, Some(previousTurn), NoLegalMoves);
        return;
      }
      var count := RecordPosition();
      if count >= REPETITION_LIMIT { Finish(Draw, None, Repetition); }
    }

    method Move(color: Color, from: int, to: int) returns (reply: Reply)
      modifies this
      ensures State() == MoveMade(old(State()), color, from, to)
      ensures reply == ReplyTo(old(State()), color, from, to)
    {
      hide LegalMoves, Booked, Continued;
      if phase.Finished? { return Refused(AlreadyFinished); }
      if color != turn { return Refused(WrongTurn); }
      if phase.Promoting? { return Refused(InvalidMove); }
      if phase.Jumping? && from != lockedJumpIndex { return Refused(JumpPieceLocked); }
      if !(0 <= from < |board|) || board[from].None? || board[from].value.color != color {
        return Refused(InvalidMove);
      }
      var opts := if phase.Jumping? then MoveOptions(true, jumpVisited) else DEFAULTS;
      var r := ApplyBacklashMove(board, from, to, opts);
      if r.None? { return Refused(InvalidMove); }
      var applied := r.value;
      ApplyPlaysTheLegalMove(board, from, to, opts);

      Book(from, to, applied);
      var capturedIndex: Option<int> :=
        if !applied.move.isCapture then None
        else Some(if applied.move.jumped.Some? then applied.move.jumped.value else applied.move.to);
      Continue(color, to, applied);
      return Accepted(capturedIndex, applied.captured, phase);
    }

    /** The first half of Move: the board, the squares visited, and the captive if there is one. */
    method Book(from: int, to: int, applied: Applied)
      modifies this
      ensures State() == Booked(old(State()), from, to, applied)
    {
      board := applied.board;
      moveCount := moveCount + 1;
      if !phase.Jumping? {
        jumpVisited := {from};
        turnMadeProgress := false;
      }
      jumpVisited := jumpVisited + {to};
      if applied.captured.Some? {
        turnMadeProgress := true;
        var taken := applied.captured.value;
        if taken.kind.Overling? {
          capturedOverlings := capturedOverlings.With(taken.color, capturedOverlings.Of(taken.color) + 1);
        }
      }
    }

    /** The second half of Move: the match is won, the chain goes on, a promotion is offered, or the turn ends. */
    method Continue(color: Color, to: int, applied: Applied)
      modifies this
      ensures State() == Continued(old(State()), color, to, applied)
    {
      if CountPieces(board, Opponent(color), None) == 0 {
        Finish(Win, Some(color), AllPieces);
      } else if applied.movedPiece.kind.Overling? && applied.move.isJump {
        var continuations := LegalMovesForPiece(board, to, MoveOptions(true, jumpVisited));
        if |continuations| > 0 {
          phase := Jumping;
          lockedJumpIndex := to;
        } else {
          CompleteTurn();
        }
      } else if applied.promotionAvailable && capturedOverlings.Of(color) > 0 {
        phase := Promoting;
        pendingPromotionIndex := to;
      } else {
        CompleteTurn();
      }
    }

    method EndJump(color: Color) returns (accepted: bool)
      modifies this
      ensures accepted == MayEndJump(old(State()), color)
      ensures State() == JumpEnded(old(State()), color)
    {
      if !phase.Jumping? || color != turn { return false; }
      CompleteTurn();
      return true;
    }

    method ResolvePromotion(color: Color, accept: bool) returns (accepted: bool)
      modifies this
      ensures accepted == MayResolve(old(State()), color, accept)
      ensures State() == PromotionResolved(old(State()), color, accept)
    {
      hide TurnCompleted, Restored, Promotable;
      if !phase.Promoting? || color != turn || pendingPromotionIndex < 0 { return false; }
      if accept {
        var restored := Restore(color);
        if !restored { return false; }
      }
      CompleteTurn();
      return true;
    }

    /** The accepting branch of ResolvePromotion: an overling from the reserve takes the underling's place. */
    method Restore(color: Color) returns (done: bool)
      modifies this
      ensures done == MayRestore(old(State()), color)
      ensures State() == if done then Restored(old(State()), color) else old(State())
    {
      if capturedOverlings.Of(color) <= 0 { return false; }
      var promoted := PromoteUnderling(board, pendingPromotionIndex);
      if promoted.None? { return false; }
      board := promoted.value;
      capturedOverlings := capturedOverlings.With(color, capturedOverlings.Of(color) - 1);
      turnMadeProgress := true;
      return true;
    }

    method GiveUp(loser: Color, reason: Reason)
      modifies this
      ensures State() == Forfeited(old(State()), loser, reason)
    {
      if phase.Finished? { return; }
      Finish(Forfeit, Some(Opponent(loser)), reason);
    }

    method PlayAutomaticMove() returns (reply: Reply)
      modifies this
      ensures State() == AutomaticallyMoved(old(State()))
      ensures reply == AutomaticReply(old(State()))
    {
      if phase.Finished? { return Refused(AlreadyFinished); }
      if phase.Promoting? { return Refused(InvalidMove); }
      var moves := LegalMovesNow();
      if |moves| == 0 {
        Finish(Win, Some(Opponent(turn)), NoLegalMoves);
        return NothingToPlay;
      }
      var m := Preferred(moves);
      reply := Move(turn, m.from, m.to);
    }

    method LegalMovesNow() returns (moves: seq<BacklashRules.Move>)
      ensures moves == CurrentLegalMoves(State())
    {
      if phase.Finished? || phase.Promoting? { return []; }
      if !phase.Jumping? || lockedJumpIndex < 0 {
        moves := LegalMovesForColor(board, turn);
      } else {
        moves := LegalMovesForPiece(board, lockedJumpIndex, MoveOptions(true, jumpVisited));
      }
    }
  }
}
