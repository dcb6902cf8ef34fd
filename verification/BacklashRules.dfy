/** The Backlash board game: pieces, the move generator, the move applier and promotion. */
module BacklashRules {
  import opened Wrappers

  datatype Color = White | Black
  datatype Kind = Overling | Underling
  datatype Piece = Piece(id: string, color: Color, kind: Kind)
  type Cell = Option<Piece>
  type Board = seq<Cell>

  datatype Move = Move(from: int, to: int, jumped: Option<int>, isJump: bool, isCapture: bool)
  datatype MoveOptions = MoveOptions(jumpOnly: bool, excluded: set<int>)
  datatype Applied = Applied(board: Board, move: Move, movedPiece: Piece, captured: Cell, promotionAvailable: bool)

  const SIZE := 8
  const SQUARES := 64
  const DEFAULTS := MoveOptions(false, {})

  const DIRECTIONS: seq<(int, int)> :=
    [(-1, -1), (-1, 0), (-1, 1), (0, -1), (0, 1), (1, -1), (1, 0), (1, 1)]

  function Opponent(color: Color): Color { if color.White? then Black else White }

  function BoardIndex(row: int, column: int): int { row * SIZE + column }
  function Row(index: int): int { index / SIZE }
  function Column(index: int): int { index % SIZE }
  predicate OnBoard(index: int) { 0 <= index < SQUARES }
  predicate Inside(row: int, column: int) { 0 <= row < SIZE && 0 <= column < SIZE }

  predicate Playable(board: Board) { |board| == SQUARES }

  // ----- the move generator

  function JumpAlong(board: Board, from: int, opts: MoveOptions, d: (int, int)): seq<Move>
    requires Playable(board) && OnBoard(from) && board[from].Some?
  {
    var row, column := Row(from) + d.0, Column(from) + d.1;
    if Inside(row + d.0, column + d.1) && Inside(row, column) then
      var middle, landing := BoardIndex(row, column), BoardIndex(row + d.0, column + d.1);
      if board[middle].Some? && board[landing].None? && landing !in opts.excluded then
        [Move(from, landing, Some(middle), true, board[middle].value.color != board[from].value.color)]
      else []
    else []
  }

  function StepAlong(board: Board, from: int, d: (int, int)): seq<Move>
    requires Playable(board) && OnBoard(from)
  {
    var row, column := Row(from) + d.0, Column(from) + d.1;
    if Inside(row, column) && board[BoardIndex(row, column)].None? then
      [Move(from, BoardIndex(row, column), None, false, false)]
    else []
  }

  function ReplacementAlong(board: Board, from: int, d: (int, int)): seq<Move>
    requires Playable(board) && OnBoard(from) && board[from].Some?
  {
    var row, column := Row(from) + d.0, Column(from) + d.1;
    if !Inside(row, column) then []
    else
      var occupant := board[BoardIndex(row, column)];
      if occupant.Some? && d.0 != 0 && d.1 != 0 && occupant.value.color != board[from].value.color then
        [Move(from, BoardIndex(row, column), None, false, true)]
      else []
  }

  /** What the generator pushes for one of the eight directions. */
  function DirectionMoves(board: Board, from: int, opts: MoveOptions, d: (int, int)): seq<Move>
    requires Playable(board) && OnBoard(from) && board[from].Some?
  {
    if board[from].value.kind.Overling? then
      JumpAlong(board, from, opts, d) + if opts.jumpOnly then [] else StepAlong(board, from, d)
    else if opts.jumpOnly then []
    else StepAlong(board, from, d) + ReplacementAlong(board, from, d)
  }

  function MovesAlong(board: Board, from: int, opts: MoveOptions, directions: seq<(int, int)>): seq<Move>
    requires Playable(board) && OnBoard(from) && board[from].Some?
  {
    if directions == [] then []
    else
      MovesAlong(board, from, opts, directions[..|directions| - 1]) +
      DirectionMoves(board, from, opts, directions[|directions| - 1])
  }

  function LegalMoves(board: Board, from: int, opts: MoveOptions): seq<Move> {
    if !OnBoard(from) || !Playable(board) || board[from].None? then []
    else MovesAlong(board, from, opts, DIRECTIONS)
  }

  method LegalMovesForPiece(board: Board, from: int, opts: MoveOptions) returns (moves: seq<Move>)
    ensures moves == LegalMoves(board, from, opts)
  {
    if !OnBoard(from) || !Playable(board) { return []; }
    if board[from].None? { return []; }
    moves := [];
    for i := 0 to |DIRECTIONS|
      invariant moves == MovesAlong(board, from, opts, DIRECTIONS[..i])
    {
      assert DIRECTIONS[..i + 1][..i] == DIRECTIONS[..i];
      moves := PushInDirection(board, from, opts, DIRECTIONS[i], moves);
    }
    assert DIRECTIONS[..|DIRECTIONS|] == DIRECTIONS;
  }

  /** The loop body of LegalMovesForPiece: what one direction adds to the list. */
  method PushInDirection(board: Board, from: int, opts: MoveOptions, d: (int, int), sofar: seq<Move>)
    returns (moves: seq<Move>)
    requires Playable(board) && OnBoard(from) && board[from].Some?
    ensures moves == sofar + DirectionMoves(board, from, opts, d)
  {
    moves := sofar;
    if board[from].value.kind.Overling? {
      moves := PushJump(board, from, opts, d, moves);
      if !opts.jumpOnly { moves := PushOverlingStep(board, from, d, moves); }
      return;
    }
    if opts.jumpOnly { return; }
    moves := PushUnderlingMove(board, from, d, moves);
  }

  method PushJump(board: Board, from: int, opts: MoveOptions, d: (int, int), sofar: seq<Move>)
    returns (moves: seq<Move>)
    requires Playable(board) && OnBoard(from) && board[from].Some?
    ensures moves == sofar + JumpAlong(board, from, opts, d)
  {
    var jumpRow, jumpColumn := Row(from) + d.0 * 2, Column(from) + d.1 * 2;
    var middleRow, middleColumn := Row(from) + d.0, Column(from) + d.1;
    moves := sofar;
    if Inside(jumpRow, jumpColumn) && Inside(middleRow, middleColumn) {
      var middle, landing := BoardIndex(middleRow, middleColumn), BoardIndex(jumpRow, jumpColumn);
      if board[middle].Some? && board[landing].None? && landing !in opts.excluded {
        moves := sofar +
          [Move(from, landing, Some(middle), true, board[middle].value.color != board[from].value.color)];
      }
    }
  }

  method PushOverlingStep(board: Board, from: int, d: (int, int), sofar: seq<Move>) returns (moves: seq<Move>)
    requires Playable(board) && OnBoard(from)
    ensures moves == sofar + StepAlong(board, from, d)
  {
    var stepRow, stepColumn := Row(from) + d.0, Column(from) + d.1;
    moves := sofar;
    if Inside(stepRow, stepColumn) {
      var destination := BoardIndex(stepRow, stepColumn);
      if board[destination].None? {
        moves := sofar + [Move(from, destination, None, false, false)];
      }
    }
  }

  method PushUnderlingMove(board: Board, from: int, d: (int, int), sofar: seq<Move>) returns (moves: seq<Move>)
    requires Playable(board) && OnBoard(from) && board[from].Some?
    ensures moves == sofar + StepAlong(board, from, d) + ReplacementAlong(board, from, d)
  {
    var destinationRow, destinationColumn := Row(from) + d.0, Column(from) + d.1;
    moves := sofar;
    if !Inside(destinationRow, destinationColumn) { return; }
    var destination := BoardIndex(destinationRow, destinationColumn);
    var occupant := board[destination];
    if occupant.None? {
      moves := sofar + [Move(from, destination, None, false, false)];
      return;
    }
    var diagonal := d.0 != 0 && d.1 != 0;
    if diagonal && occupant.value.color != board[from].value.color {
      moves := sofar + [Move(from, destination, None, false, true)];
    }
  }

  /** The moves of the piece on square i, if there is one of the given color. */
  function MovesAt(board: Board, color: Color, i: nat): seq<Move> {
    if i < |board| && board[i].Some? && board[i].value.color == color then LegalMoves(board, i, DEFAULTS) else []
  }

  /** What is picked at 0 to n - 1, in order. */
  function Collected<T>(pick: nat -> seq<T>, n: nat): seq<T> {
    if n == 0 then [] else Collected(pick, n - 1) + pick(n - 1)
  }

  function MovesBySquare(board: Board, color: Color): nat -> seq<Move> { (i: nat) => MovesAt(board, color, i) }

  function LegalMovesUpTo(board: Board, color: Color, n: nat): seq<Move> {
    Collected(MovesBySquare(board, color), n)
  }

  function LegalMovesOf(board: Board, color: Color): seq<Move> {
    LegalMovesUpTo(board, color, |board|)
  }

  method LegalMovesForColor(board: Board, color: Color) returns (moves: seq<Move>)
    ensures moves == LegalMovesOf(board, color)
  {
    moves := [];
    for index := 0 to |board|
      invariant moves == LegalMovesUpTo(board, color, index)
    {
      if board[index].Some? && board[index].value.color == color {
        var more := LegalMovesForPiece(board, index, DEFAULTS);
        moves := moves + more;
      }
    }
  }

  // ----- the rules of the game, independently of how the generator looks for moves

  /** The squares are neighbours, orthogonally or diagonally. */
  predicate Adjacent(a: int, b: int) {
    a != b && -1 <= Row(b) - Row(a) <= 1 && -1 <= Column(b) - Column(a) <= 1
  }

  predicate Diagonal(a: int, b: int) { Row(a) != Row(b) && Column(a) != Column(b) }

  /** The square between a and b, for b two squares from a in one of the eight directions. */
  predicate Between(a: int, middle: int, b: int) {
    && Adjacent(a, middle)
    && Row(b) - Row(middle) == Row(middle) - Row(a)
    && Column(b) - Column(middle) == Column(middle) - Column(a)
  }

  predicate IsStep(board: Board, m: Move)
    requires Playable(board) && OnBoard(m.from) && OnBoard(m.to)
  {
    && Adjacent(m.from, m.to) && board[m.to].None?
    && m.jumped.None? && !m.isJump && !m.isCapture
  }

  predicate IsReplacement(board: Board, m: Move)
    requires Playable(board) && OnBoard(m.from) && OnBoard(m.to) && board[m.from].Some?
  {
    && board[m.from].value.kind.Underling?
    && Adjacent(m.from, m.to) && Diagonal(m.from, m.to)
    && board[m.to].Some? && board[m.to].value.color != board[m.from].value.color
    && m.jumped.None? && !m.isJump && m.isCapture
  }

  predicate IsJump(board: Board, m: Move, excluded: set<int>)
    requires Playable(board) && OnBoard(m.from) && OnBoard(m.to) && board[m.from].Some?
  {
    && board[m.from].value.kind.Overling?
    && m.jumped.Some? && OnBoard(m.jumped.value) && Between(m.from, m.jumped.value, m.to)
    && board[m.jumped.value].Some? && board[m.to].None? && m.to !in excluded
    && m.isJump && m.isCapture == (board[m.jumped.value].value.color != board[m.from].value.color)
  }

  predicate Legal(board: Board, m: Move, opts: MoveOptions) {
    && Playable(board) && OnBoard(m.from) && OnBoard(m.to) && board[m.from].Some?
    && (|| (!opts.jumpOnly && IsStep(board, m))
        || (!opts.jumpOnly && IsReplacement(board, m))
        || IsJump(board, m, opts.excluded))
  }

  lemma IndexRoundTrip(row: int, column: int)
    requires Inside(row, column)
    ensures OnBoard(BoardIndex(row, column))
    ensures Row(BoardIndex(row, column)) == row && Column(BoardIndex(row, column)) == column
  {
  }

  lemma SameSquare(a: int, b: int)
    requires Row(a) == Row(b) && Column(a) == Column(b)
    ensures a == b
  {
  }

  lemma SquareIsIndex(a: int)
    requires OnBoard(a)
    ensures Inside(Row(a), Column(a)) && BoardIndex(Row(a), Column(a)) == a
  {
  }

  /** The square is d rows and columns away. */
  predicate Ahead(a: int, d: (int, int), b: int) {
    OnBoard(b) && Row(b) == Row(a) + d.0 && Column(b) == Column(a) + d.1
  }

  lemma AheadIsIndex(a: int, d: (int, int), b: int)
    ensures Ahead(a, d, b) <==>
            Inside(Row(a) + d.0, Column(a) + d.1) && b == BoardIndex(Row(a) + d.0, Column(a) + d.1)
  {
    if Inside(Row(a) + d.0, Column(a) + d.1) { IndexRoundTrip(Row(a) + d.0, Column(a) + d.1); }
    if Ahead(a, d, b) { SameSquare(b, BoardIndex(Row(a) + d.0, Column(a) + d.1)); }
  }

  predicate IsDirection(d: (int, int)) { -1 <= d.0 <= 1 && -1 <= d.1 <= 1 && d != (0, 0) }

  lemma DirectionsAreThese(d: (int, int))
    ensures d in DIRECTIONS <==> IsDirection(d)
  {
    if IsDirection(d) {
      assert d == DIRECTIONS[if d.0 < 0 then d.1 + 1 else if d.0 == 0 then (if d.1 < 0 then 3 else 4) else d.1 + 6];
    }
  }

  /** The direction of a legal move. */
  function DirectionOf(m: Move): (int, int) {
    var target := if m.jumped.Some? then m.jumped.value else m.to;
    (Row(target) - Row(m.from), Column(target) - Column(m.from))
  }

  lemma NeighboursAreAhead(a: int, b: int)
    requires OnBoard(b)
    ensures Adjacent(a, b) <==> IsDirection((Row(b) - Row(a), Column(b) - Column(a)))
    ensures forall d :: Ahead(a, d, b) <==> d == (Row(b) - Row(a), Column(b) - Column(a))
  {
    if Row(a) == Row(b) && Column(a) == Column(b) { SameSquare(a, b); }
  }

  lemma StepsAlong(board: Board, from: int, d: (int, int), m: Move)
    requires Playable(board) && OnBoard(from) && IsDirection(d)
    ensures m in StepAlong(board, from, d) <==>
            m.from == from && OnBoard(m.to) && IsStep(board, m) && DirectionOf(m) == d
  {
    AheadIsIndex(from, d, m.to);
    if OnBoard(m.to) { NeighboursAreAhead(from, m.to); }
    AheadIsIndex(from, d, BoardIndex(Row(from) + d.0, Column(from) + d.1));
  }

  lemma ReplacementsAlong(board: Board, from: int, d: (int, int), m: Move)
    requires Playable(board) && OnBoard(from) && board[from].Some? && board[from].value.kind.Underling?
    requires IsDirection(d)
    ensures m in ReplacementAlong(board, from, d) <==>
            m.from == from && OnBoard(m.to) && IsReplacement(board, m) && DirectionOf(m) == d
  {
    AheadIsIndex(from, d, m.to);
    if OnBoard(m.to) { NeighboursAreAhead(from, m.to); }
    AheadIsIndex(from, d, BoardIndex(Row(from) + d.0, Column(from) + d.1));
  }

  lemma JumpsAlong(board: Board, from: int, opts: MoveOptions, d: (int, int), m: Move)
    requires Playable(board) && OnBoard(from) && board[from].Some? && board[from].value.kind.Overling?
    requires IsDirection(d)
    ensures m in JumpAlong(board, from, opts, d) <==>
            m.from == from && OnBoard(m.to) && IsJump(board, m, opts.excluded) && DirectionOf(m) == d
  {
    var middle := BoardIndex(Row(from) + d.0, Column(from) + d.1);
    AheadIsIndex(from, d, middle);
    AheadIsIndex(middle, d, BoardIndex(Row(from) + d.0 + d.0, Column(from) + d.1 + d.1));
    if m.jumped.Some? && OnBoard(m.jumped.value) {
      AheadIsIndex(from, d, m.jumped.value);
      AheadIsIndex(m.jumped.value, d, m.to);
      NeighboursAreAhead(from, m.jumped.value);
      if OnBoard(m.to) { NeighboursAreAhead(m.jumped.value, m.to); }
    }
  }

  /** What is pushed for a direction are the legal moves in that direction. */
  lemma DirectionMovesAreTheRules(board: Board, from: int, opts: MoveOptions, d: (int, int), m: Move)
    requires Playable(board) && OnBoard(from) && board[from].Some? && IsDirection(d)
    ensures m in DirectionMoves(board, from, opts, d) <==>
            m.from == from && Legal(board, m, opts) && DirectionOf(m) == d
  {
    StepsAlong(board, from, d, m);
    if board[from].value.kind.Overling? {
      JumpsAlong(board, from, opts, d, m);
    } else {
      ReplacementsAlong(board, from, d, m);
    }
  }

  lemma LegalMoveHasDirection(board: Board, opts: MoveOptions, m: Move)
    requires Legal(board, m, opts)
    ensures IsDirection(DirectionOf(m))
  {
    NeighboursAreAhead(m.from, if m.jumped.Some? then m.jumped.value else m.to);
  }

  lemma {:induction false} InMovesAlong(board: Board, from: int, opts: MoveOptions, ds: seq<(int, int)>, m: Move)
    requires Playable(board) && OnBoard(from) && board[from].Some?
    ensures m in MovesAlong(board, from, opts, ds) <==>
            exists i :: 0 <= i < |ds| && m in DirectionMoves(board, from, opts, ds[i])
  {
    if ds != [] {
      InMovesAlong(board, from, opts, ds[..|ds| - 1], m);
      assert forall i :: 0 <= i < |ds| - 1 ==> ds[..|ds| - 1][i] == ds[i];
    }
  }

  /** The generator finds exactly the moves the rules allow. */
  lemma GeneratorIsTheRules(board: Board, from: int, opts: MoveOptions, m: Move)
    ensures m in LegalMoves(board, from, opts) <==> m.from == from && Legal(board, m, opts)
  {
    if OnBoard(from) && Playable(board) && board[from].Some? {
      InMovesAlong(board, from, opts, DIRECTIONS, m);
      if m in LegalMoves(board, from, opts) {
        var i :| 0 <= i < |DIRECTIONS| && m in DirectionMoves(board, from, opts, DIRECTIONS[i]);
        DirectionsAreThese(DIRECTIONS[i]);
        DirectionMovesAreTheRules(board, from, opts, DIRECTIONS[i], m);
      }
      if m.from == from && Legal(board, m, opts) {
        LegalMoveHasDirection(board, opts, m);
        DirectionsAreThese(DirectionOf(m));
        DirectionMovesAreTheRules(board, from, opts, DirectionOf(m), m);
      }
    }
  }

  lemma {:induction false} InCollected<T>(pick: nat -> seq<T>, n: nat, x: T)
    ensures x in Collected(pick, n) <==> exists i: nat :: i < n && x in pick(i)
  {
    if n > 0 { InCollected(pick, n - 1, x); }
  }

  lemma {:induction false} SameCollected<T>(pick: nat -> seq<T>, other: nat -> seq<T>, n: nat)
    requires forall i: nat :: i < n ==> pick(i) == other(i)
    ensures Collected(pick, n) == Collected(other, n)
  {
    if n > 0 { SameCollected(pick, other, n - 1); }
  }

  lemma LegalMovesOfColor(board: Board, color: Color, n: nat, m: Move)
    requires n <= |board|
    ensures m in LegalMovesUpTo(board, color, n) <==>
            m.from < n && Legal(board, m, DEFAULTS) && board[m.from].value.color == color
  {
    var good := Legal(board, m, DEFAULTS) && board[m.from].value.color == color;
    var pick := MovesBySquare(board, color);
    forall i: nat | i < n
      ensures m in pick(i) <==> m.from == i && good
    {
      GeneratorIsTheRules(board, i, DEFAULTS, m);
    }
    InCollected(pick, n, m);
    if good && m.from < n { assert m in pick(m.from); }
  }

  /** At most one legal move leads from a square to another. */
  lemma DestinationDecidesMove(board: Board, opts: MoveOptions, m: Move, n: Move)
    requires Legal(board, m, opts) && Legal(board, n, opts) && m.from == n.from && m.to == n.to
    ensures m == n
  {
    if m.jumped.Some? && n.jumped.Some? {
      SameSquare(m.jumped.value, n.jumped.value);
    }
  }

  /** Different directions lead to different squares. */
  lemma DirectionsPart(board: Board, from: int, opts: MoveOptions, d: (int, int), e: (int, int), m: Move, n: Move)
    requires Playable(board) && OnBoard(from) && board[from].Some? && IsDirection(d) && IsDirection(e) && d != e
    requires m in DirectionMoves(board, from, opts, d) && n in DirectionMoves(board, from, opts, e)
    ensures m.to != n.to
  {
    DirectionMovesAreTheRules(board, from, opts, d, m);
    DirectionMovesAreTheRules(board, from, opts, e, n);
    if m.to == n.to { DestinationDecidesMove(board, opts, m, n); }
  }

  lemma OneMoveAtMost(board: Board, from: int, opts: MoveOptions, d: (int, int))
    requires Playable(board) && OnBoard(from) && board[from].Some?
    ensures |DirectionMoves(board, from, opts, d)| <= 1
  {
  }

  /** Nothing pushed for earlier directions goes where a move of direction d goes. */
  lemma EarlierDirectionsPart(board: Board, from: int, opts: MoveOptions, ds: seq<(int, int)>, d: (int, int),
                              m: Move, n: Move)
    requires Playable(board) && OnBoard(from) && board[from].Some?
    requires (forall i :: 0 <= i < |ds| ==> IsDirection(ds[i]) && ds[i] != d) && IsDirection(d)
    requires m in MovesAlong(board, from, opts, ds) && n in DirectionMoves(board, from, opts, d)
    ensures m.to != n.to
  {
    InMovesAlong(board, from, opts, ds, m);
    var k :| 0 <= k < |ds| && m in DirectionMoves(board, from, opts, ds[k]);
    DirectionsPart(board, from, opts, ds[k], d, m, n);
  }

  predicate DistinctTargets(ms: seq<Move>) { forall i, j :: 0 <= i < j < |ms| ==> ms[i].to != ms[j].to }

  lemma OneMoreTarget(ms: seq<Move>, last: seq<Move>)
    requires DistinctTargets(ms) && |last| <= 1
    requires forall m, n :: m in ms && n in last ==> m.to != n.to
    ensures DistinctTargets(ms + last)
  {
  }

  lemma {:induction false} OneMovePerDirection(board: Board, from: int, opts: MoveOptions, ds: seq<(int, int)>)
    requires Playable(board) && OnBoard(from) && board[from].Some?
    requires forall i :: 0 <= i < |ds| ==> IsDirection(ds[i])
    requires forall i, j :: 0 <= i < j < |ds| ==> ds[i] != ds[j]
    ensures |MovesAlong(board, from, opts, ds)| <= |ds| && DistinctTargets(MovesAlong(board, from, opts, ds))
  {
    if ds != [] {
      var front, d := ds[..|ds| - 1], ds[|ds| - 1];
      OneMovePerDirection(board, from, opts, front);
      var ms, last := MovesAlong(board, from, opts, front), DirectionMoves(board, from, opts, d);
      OneMoveAtMost(board, from, opts, d);
      forall m, n | m in ms && n in last
        ensures m.to != n.to
      {
        EarlierDirectionsPart(board, from, opts, front, d, m, n);
      }
      OneMoreTarget(ms, last);
    }
  }

  /** A square has at most eight moves, no two to the same destination. */
  lemma AtMostEightMoves(board: Board, from: int, opts: MoveOptions)
    ensures |LegalMoves(board, from, opts)| <= 8 && DistinctTargets(LegalMoves(board, from, opts))
  {
    if OnBoard(from) && Playable(board) && board[from].Some? {
      forall i | 0 <= i < |DIRECTIONS|
        ensures IsDirection(DIRECTIONS[i])
      {
        DirectionsAreThese(DIRECTIONS[i]);
      }
      OneMovePerDirection(board, from, opts, DIRECTIONS);
    }
  }

  // ----- applying a move

  function FirstTo(moves: seq<Move>, to: int): Option<Move> {
    if moves == [] then None
    else if moves[0].to == to then Some(moves[0])
    else FirstTo(moves[1..], to)
  }

  /** The board after a legal move: the mover has moved, a jumped or replaced enemy is gone. */
  function Played(board: Board, m: Move): Board
    requires Playable(board) && OnBoard(m.from) && OnBoard(m.to)
    requires m.jumped.Some? ==> OnBoard(m.jumped.value)
  {
    var lifted := board[m.from := None];
    var cleared := if m.jumped.Some? && m.isCapture then lifted[m.jumped.value := None] else lifted;
    cleared[m.to := board[m.from]]
  }

  /** The piece a legal move takes. */
  function Taken(board: Board, m: Move): Cell
    requires Playable(board) && OnBoard(m.to)
    requires m.jumped.Some? ==> OnBoard(m.jumped.value)
  {
    if !m.isCapture then None else if m.jumped.Some? then board[m.jumped.value] else board[m.to]
  }

  function PromotionRow(color: Color): int { if color.White? then SIZE - 1 else 0 }

  /** Everything a legal move brings about. */
  function AppliedTo(board: Board, m: Move): Applied
    requires Playable(board) && OnBoard(m.from) && OnBoard(m.to) && board[m.from].Some?
    requires m.jumped.Some? ==> OnBoard(m.jumped.value)
  {
    var p := board[m.from].value;
    Applied(Played(board, m), m, p, Taken(board, m), p.kind.Underling? && Row(m.to) == PromotionRow(p.color))
  }

  function Apply(board: Board, from: int, to: int, opts: MoveOptions): (r: Option<Applied>) {
    var found := FirstTo(LegalMoves(board, from, opts), to);
    if found.None? then None
    else
      FoundIsLegal(board, from, to, opts);
      Some(AppliedTo(board, found.value))
  }

  lemma {:induction false} FirstToFinds(moves: seq<Move>, to: int)
    ensures FirstTo(moves, to).Some? ==> FirstTo(moves, to).value in moves && FirstTo(moves, to).value.to == to
    ensures FirstTo(moves, to).None? ==> forall m :: m in moves ==> m.to != to
  {
    if moves != [] {
      FirstToFinds(moves[1..], to);
      assert moves == [moves[0]] + moves[1..];
    }
  }

  lemma FoundIsLegal(board: Board, from: int, to: int, opts: MoveOptions)
    ensures var found := FirstTo(LegalMoves(board, from, opts), to);
      && (found.Some? ==> found.value.from == from && found.value.to == to && Legal(board, found.value, opts))
      && (found.None? ==> forall m :: Legal(board, m, opts) && m.from == from ==> m.to != to)
  {
    var moves := LegalMoves(board, from, opts);
    FirstToFinds(moves, to);
    if FirstTo(moves, to).Some? {
      GeneratorIsTheRules(board, from, opts, FirstTo(moves, to).value);
    }
    forall m | Legal(board, m, opts) && m.from == from && FirstTo(moves, to).None?
      ensures m.to != to
    {
      GeneratorIsTheRules(board, from, opts, m);
    }
  }

  /** A request is accepted exactly when some legal move goes there, and then that move is played. */
  lemma ApplyPlaysTheLegalMove(board: Board, from: int, to: int, opts: MoveOptions)
    ensures var r := Apply(board, from, to, opts);
      && (r.Some? <==> exists m :: Legal(board, m, opts) && m.from == from && m.to == to)
      && (r.Some? ==> Legal(board, r.value.move, opts) && r.value.move.from == from && r.value.move.to == to)
    ensures forall m :: Legal(board, m, opts) && m.from == from && m.to == to ==>
      Apply(board, from, to, opts).Some? && Apply(board, from, to, opts).value.move == m
  {
    FoundIsLegal(board, from, to, opts);
    var r := Apply(board, from, to, opts);
    forall m | Legal(board, m, opts) && m.from == from && m.to == to
      ensures r.Some? && r.value.move == m
    {
      DestinationDecidesMove(board, opts, m, r.value.move);
    }
  }

  lemma LegalIsApplied(board: Board, m: Move, opts: MoveOptions)
    requires Legal(board, m, opts)
    ensures Apply(board, m.from, m.to, opts) == Some(AppliedTo(board, m))
  {
    ApplyPlaysTheLegalMove(board, m.from, m.to, opts);
  }

  /** The squares of a move are distinct and on the board. */
  predicate WellPlaced(board: Board, m: Move) {
    && Playable(board) && OnBoard(m.from) && OnBoard(m.to) && m.from != m.to
    && (m.jumped.Some? ==> OnBoard(m.jumped.value) && m.jumped.value != m.from && m.jumped.value != m.to)
  }

  lemma LegalIsWellPlaced(board: Board, m: Move, opts: MoveOptions)
    requires Legal(board, m, opts)
    ensures WellPlaced(board, m)
  {
  }

  /** What stands on a square after a move. */
  lemma PlayedAt(b: Board, m: Move, i: int)
    requires WellPlaced(b, m) && OnBoard(i)
    ensures Played(b, m)[i] ==
      if i == m.to then b[m.from]
      else if i == m.from || (m.isCapture && m.jumped == Some(i)) then None
      else b[i]
  {
  }

  method ApplyBacklashMove(board: Board, from: int, to: int, opts: MoveOptions) returns (r: Option<Applied>)
    ensures r == Apply(board, from, to, opts)
  {
    hide LegalMoves, FirstTo;
    FoundIsLegal(board, from, to, opts);
    var moves := LegalMovesForPiece(board, from, opts);
    var found := FirstTo(moves, to);
    if found.None? { return None; }
    var move := found.value;
    var movedPiece := board[move.from].value;
    var next := new Cell[|board|](i requires 0 <= i < |board| => board[i]);
    var captured: Cell := None;
    next[move.from] := None;
    if movedPiece.kind.Underling? && move.isCapture {
      captured := next[move.to];
    } else if move.jumped.Some? && move.isCapture {
      captured := next[move.jumped.value];
      next[move.jumped.value] := None;
    }
    next[move.to] := Some(movedPiece);
    assert next[..] == Played(board, move);
    var promotionRow := if movedPiece.color.White? then SIZE - 1 else 0;
    return Some(Applied(next[..], move, movedPiece, captured,
                        movedPiece.kind.Underling? && Row(move.to) == promotionRow));
  }

  // ----- promotion

  predicate Promotable(board: Board, index: int) {
    && OnBoard(index) && index < |board| && board[index].Some?
    && board[index].value.kind.Underling? && Row(index) == PromotionRow(board[index].value.color)
  }

  function Promoted(board: Board, index: int): Board
    requires Promotable(board, index)
  {
    board[index := Some(board[index].value.(kind := Overling))]
  }

  method PromoteUnderling(board: Board, index: int) returns (r: Option<Board>)
    ensures r == if Promotable(board, index) then Some(Promoted(board, index)) else None
  {
    if !OnBoard(index) { return None; }
    // Reading past the end of a short board finds no piece.
    if index >= |board| || board[index].None? || !board[index].value.kind.Underling? { return None; }
    var promotionRow := if board[index].value.color.White? then SIZE - 1 else 0;
    if Row(index) != promotionRow { return None; }
    var next := new Cell[|board|](i requires 0 <= i < |board| => board[i]);
    next[index] := Some(board[index].value.(kind := Overling));
    assert next[..] == Promoted(board, index);
    return Some(next[..]);
  }

  /** A move offers a promotion exactly when promoting on its destination will succeed. */
  lemma OfferedPromotionSucceeds(board: Board, from: int, to: int, opts: MoveOptions)
    requires Apply(board, from, to, opts).Some?
    ensures var r := Apply(board, from, to, opts).value;
      r.promotionAvailable <==> Promotable(r.board, to)
  {
    ApplyPlaysTheLegalMove(board, from, to, opts);
  }

  // ----- taking a move back

  function Reverse(m: Move): Move { m.(from := m.to, to := m.from) }

  lemma ReverseIsLegal(board: Board, m: Move, opts: MoveOptions)
    requires Legal(board, m, opts) && !m.isCapture
    ensures Legal(Played(board, m), Reverse(m), DEFAULTS)
  {
  }

  lemma ReverseRestores(board: Board, m: Move)
    requires Playable(board) && OnBoard(m.from) && OnBoard(m.to) && m.from != m.to && !m.isCapture
    requires (m.jumped.Some? ==> OnBoard(m.jumped.value)) && board[m.to].None?
    ensures Played(Played(board, m), Reverse(m)) == board
  {
  }

  lemma QuietMoveEnds(board: Board, m: Move, opts: MoveOptions)
    requires Legal(board, m, opts) && !m.isCapture
    ensures m.from != m.to && board[m.to].None?
  {
  }

  /** Every move that takes nothing can be made in reverse, and that restores the board. */
  lemma QuietMovesReverse(board: Board, m: Move, opts: MoveOptions)
    requires Legal(board, m, opts) && !m.isCapture
    ensures Legal(Played(board, m), Reverse(m), DEFAULTS)
    ensures Played(Played(board, m), Reverse(m)) == board
    ensures var back := Apply(Played(board, m), m.to, m.from, DEFAULTS);
      back.Some? && back.value.board == board && back.value.captured.None?
  {
    QuietMoveEnds(board, m, opts);
    ReverseIsLegal(board, m, opts);
    ReverseRestores(board, m);
    ApplyPlaysTheLegalMove(Played(board, m), m.to, m.from, DEFAULTS);
  }
}
