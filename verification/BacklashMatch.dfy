/** A Backlash match as a value: turns, jump chains, promotions, reserves and the ways a match ends. */
module BacklashMatch {
  import opened Wrappers
  import opened BacklashRules
  import opened BacklashKey
  import opened BacklashRuns

  const NO_PROGRESS_TURN_LIMIT := 100
  const REPETITION_LIMIT := 3

  datatype Phase = Playing | Jumping | Promoting | Finished
  datatype Outcome = Win | Draw | Forfeit
  datatype Reason = AllPieces | NoLegalMoves | Repetition | NoProgress | Timeout | Disconnect
  datatype Result = Result(outcome: Outcome, winner: Option<Color>, reason: Reason)
  datatype Refusal = AlreadyFinished | WrongTurn | InvalidMove | JumpPieceLocked

  datatype PerColor = PerColor(white: nat, black: nat) {
    function Of(color: Color): nat { if color.White? then white else black }

    function With(color: Color, n: nat): PerColor {
      if color.White? then this.(white := n) else this.(black := n)
    }
  }

  datatype Match = Match(
    board: Board,
    turn: Color,
    phase: Phase,
    moveCount: nat,
    noProgressTurns: nat,
    lockedJumpIndex: int,
    pendingPromotionIndex: int,
    capturedOverlings: PerColor,
    result: Option<Result>,
    jumpVisited: set<int>,
    turnMadeProgress: bool,
    repetitions: map<string, nat>)

  function Occurrences(repetitions: map<string, nat>, key: string): nat {
    if key in repetitions then repetitions[key] else 0
  }

  function WithPosition(g: Match): Match {
    var key := PositionKey(g.board, g.turn);
    g.(repetitions := g.repetitions[key := Occurrences(g.repetitions, key) + 1])
  }

  const UNRECORDED :=
    Match(StartingBoard(), White, Playing, 0, 0, -1, -1, PerColor(0, 0), None, {}, false, map[])

  const FRESH := WithPosition(UNRECORDED)

  function Ended(g: Match, outcome: Outcome, winner: Option<Color>, reason: Reason): Match {
    g.(phase := Finished, lockedJumpIndex := -1, pendingPromotionIndex := -1,
       result := Some(Result(outcome, winner, reason)))
  }

  /** The hand-over of the turn, before the ways to end on it are looked at. */
  function HandedOver(g: Match): Match {
    g.(noProgressTurns := if g.turnMadeProgress then 0 else g.noProgressTurns + 1,
       turn := Opponent(g.turn), phase := Playing, lockedJumpIndex := -1, pendingPromotionIndex := -1,
       jumpVisited := {}, turnMadeProgress := false)
  }

  function TurnCompleted(g: Match): Match {
    if g.phase.Finished? then g
    else
      var h := HandedOver(g);
      if h.noProgressTurns >= NO_PROGRESS_TURN_LIMIT then Ended(h, Draw, None, NoProgress)
      else if LegalMovesOf(h.board, h.turn) == [] then Ended(h, Win, Some(g.turn), NoLegalMoves)
      else
        var k := WithPosition(h);
        if Occurrences(k.repetitions, PositionKey(h.board, h.turn)) >= REPETITION_LIMIT
        then Ended(k, Draw, None, Repetition) else k
  }

  function OptionsOf(g: Match): MoveOptions {
    if g.phase.Jumping? then MoveOptions(true, g.jumpVisited) else DEFAULTS
  }

  function MoveRefusal(g: Match, color: Color, from: int, to: int): Option<Refusal> {
    if g.phase.Finished? then Some(AlreadyFinished)
    else if color != g.turn then Some(WrongTurn)
    else if g.phase.Promoting? then Some(InvalidMove)
    else if g.phase.Jumping? && from != g.lockedJumpIndex then Some(JumpPieceLocked)
    else if !Has(g.board, from) || g.board[from].value.color != color then Some(InvalidMove)
    else if Apply(g.board, from, to, OptionsOf(g)).None? then Some(InvalidMove)
    else None
  }

  /** The bookkeeping of an accepted move, before it is decided how the turn goes on. */
  function Booked(g: Match, from: int, to: int, applied: Applied): Match {
    var taken := applied.captured;
    g.(board := applied.board,
       moveCount := g.moveCount + 1,
       jumpVisited := (if g.phase.Jumping? then g.jumpVisited else {from}) + {to},
       turnMadeProgress := (g.phase.Jumping? && g.turnMadeProgress) || taken.Some?,
       capturedOverlings :=
         if taken.Some? && taken.value.kind.Overling?
         then g.capturedOverlings.With(taken.value.color, g.capturedOverlings.Of(taken.value.color) + 1)
         else g.capturedOverlings)
  }

  function Continued(g: Match, color: Color, to: int, applied: Applied): Match {
    if CountPieces(g.board, Opponent(color), None) == 0 then Ended(g, Win, Some(color), AllPieces)
    else if applied.movedPiece.kind.Overling? && applied.move.isJump then
      if LegalMoves(g.board, to, MoveOptions(true, g.jumpVisited)) != []
      then g.(phase := Jumping, lockedJumpIndex := to) else TurnCompleted(g)
    else if applied.promotionAvailable && g.capturedOverlings.Of(color) > 0 then
      g.(phase := Promoting, pendingPromotionIndex := to)
    else TurnCompleted(g)
  }

  function MoveMade(g: Match, color: Color, from: int, to: int): Match {
    if MoveRefusal(g, color, from, to).Some? then g
    else
      var applied := Apply(g.board, from, to, OptionsOf(g)).value;
      Continued(Booked(g, from, to, applied), color, to, applied)
  }

  predicate MayEndJump(g: Match, color: Color) { g.phase.Jumping? && color == g.turn }

  function JumpEnded(g: Match, color: Color): Match {
    if MayEndJump(g, color) then TurnCompleted(g) else g
  }

  predicate MayRestore(g: Match, color: Color) {
    g.capturedOverlings.Of(color) > 0 && Promotable(g.board, g.pendingPromotionIndex)
  }

  predicate MayResolve(g: Match, color: Color, accept: bool) {
    g.phase.Promoting? && color == g.turn && g.pendingPromotionIndex >= 0 && (accept ==> MayRestore(g, color))
  }

  function Restored(g: Match, color: Color): Match
    requires MayRestore(g, color)
  {
    g.(board := Promoted(g.board, g.pendingPromotionIndex),
       capturedOverlings := g.capturedOverlings.With(color, g.capturedOverlings.Of(color) - 1),
       turnMadeProgress := true)
  }

  function PromotionResolved(g: Match, color: Color, accept: bool): Match {
    if !MayResolve(g, color, accept) then g
    else TurnCompleted(if accept then Restored(g, color) else g)
  }

  function Forfeited(g: Match, loser: Color, reason: Reason): Match {
    if g.phase.Finished? then g else Ended(g, Forfeit, Some(Opponent(loser)), reason)
  }

  // ----- the move played for a player who is out of time

  function CurrentLegalMoves(g: Match): seq<Move> {
    if g.phase.Finished? || g.phase.Promoting? then []
    else if !g.phase.Jumping? || g.lockedJumpIndex < 0 then LegalMovesOf(g.board, g.turn)
    else LegalMoves(g.board, g.lockedJumpIndex, MoveOptions(true, g.jumpVisited))
  }

  /** Negative when the first move is preferred. */
  function CompareMoves(a: Move, b: Move): int {
    if a.isCapture != b.isCapture then (if a.isCapture then -1 else 1)
    else if a.from != b.from then a.from - b.from
    else a.to - b.to
  }

  /** The first of the moves once they are sorted. */
  function Preferred(moves: seq<Move>): (m: Move)
    requires moves != []
  {
    if |moves| == 1 then moves[0]
    else
      var rest := Preferred(moves[1..]);
      if CompareMoves(moves[0], rest) <= 0 then moves[0] else rest
  }

  function AutomaticallyMoved(g: Match): Match {
    if g.phase.Finished? || g.phase.Promoting? then g
    else
      var moves := CurrentLegalMoves(g);
      if moves == [] then Ended(g, Win, Some(Opponent(g.turn)), NoLegalMoves)
      else var m := Preferred(moves); MoveMade(g, g.turn, m.from, m.to)
  }

  // ----- runs of a match

  datatype Event =
    | Request(color: Color, from: int, to: int)
    | EndJump(color: Color)
    | Resolve(color: Color, accept: bool)
    | GiveUp(loser: Color, why: Reason)
    | Automatic

  function After(g: Match, e: Event): Match {
    match e
    case Request(color, from, to) => MoveMade(g, color, from, to)
    case EndJump(color) => JumpEnded(g, color)
    case Resolve(color, accept) => PromotionResolved(g, color, accept)
    case GiveUp(loser, why) => Forfeited(g, loser, why)
    case Automatic => AutomaticallyMoved(g)
  }

  function Front(es: seq<Event>): seq<Event>
    requires es != []
  {
    es[..|es| - 1]
  }

  function Last(es: seq<Event>): Event
    requires es != []
  {
    es[|es| - 1]
  }

  function Run(es: seq<Event>): Match {
    if es == [] then FRESH else After(Run(Front(es)), Last(es))
  }

  /** How often the turn was handed over. */
  function Turns(es: seq<Event>): nat {
    if es == [] then 0
    else Turns(Front(es)) + if Run(es).turn != Run(Front(es)).turn then 1 else 0
  }
}
