/** Runs of moves and promotions from the starting board: what becomes of the pieces. */
module BacklashRuns {
  import opened Wrappers
  import opened BacklashRules
  import opened BacklashKey
  import opened Arithmetic

  // ----- the starting board

  function Digit(n: int): char
    requires 0 <= n < SIZE
  {
    ['0', '1', '2', '3', '4', '5', '6', '7'][n]
  }

  function StartingPiece(color: Color, kind: Kind, ordinal: int): Piece
    requires 0 <= ordinal < SIZE
  {
    Piece(ColorName(color) + "-" + KindName(kind) + "-" + [Digit(ordinal)], color, kind)
  }

  function StartingCell(row: int, column: int): Cell
    requires Inside(row, column)
  {
    match row
    case 0 => Some(StartingPiece(White, Overling, column))
    case 1 => Some(StartingPiece(White, Underling, column))
    case 6 => Some(StartingPiece(Black, Underling, column))
    case 7 => Some(StartingPiece(Black, Overling, column))
    case _ => None
  }

  function StartingBoard(): Board {
    seq(SQUARES, i requires 0 <= i < SQUARES => StartingCell(Row(i), Column(i)))
  }

  method CreateBacklashBoard() returns (board: Board)
    ensures board == StartingBoard()
  {
    hide StartingPiece;
    var cells := new Cell[SQUARES](_ => None);
    for column := 0 to SIZE
      invariant forall r, c :: Inside(r, c) ==>
        cells[BoardIndex(r, c)] == if c < column then StartingCell(r, c) else None
    {
      cells[BoardIndex(0, column)] := Some(StartingPiece(White, Overling, column));
      cells[BoardIndex(1, column)] := Some(StartingPiece(White, Underling, column));
      cells[BoardIndex(6, column)] := Some(StartingPiece(Black, Underling, column));
      cells[BoardIndex(7, column)] := Some(StartingPiece(Black, Overling, column));
    }
    board := cells[..];
    forall i | OnBoard(i)
      ensures board[i] == StartingBoard()[i]
    {
      assert i == BoardIndex(Row(i), Column(i));
    }
  }

  lemma StartingBoardIsSymmetric()
    ensures SamePosition(Mirror(StartingBoard()), StartingBoard())
  {
    forall i | OnBoard(i)
      ensures SameCell(Mirror(StartingBoard())[i], StartingBoard()[i])
    {
      MirrorSquareTwice(i);
    }
  }

  predicate Has(board: Board, i: int) { 0 <= i < |board| && board[i].Some? }

  /** The square belongs to the row on which the other side's overlings start. */
  predicate EnemyBackRow(color: Color, i: int) {
    OnBoard(i) && StartingBoard()[i].Some? && StartingBoard()[i].value.kind.Overling?
    && StartingBoard()[i].value.color == Opponent(color)
  }

  lemma EnemyBackRowIs(color: Color, i: int)
    requires OnBoard(i)
    ensures EnemyBackRow(color, i) <==> Row(i) == PromotionRow(color)
  {
    assert StartingBoard()[i] == StartingCell(Row(i), Column(i));
  }

  /** Promotion is for underlings on the row from which the other side's overlings started. */
  lemma PromotableIffOnEnemyBackRow(board: Board, i: int)
    ensures Promotable(board, i) <==>
            && OnBoard(i) && i < |board| && board[i].Some? && board[i].value.kind.Underling?
            && EnemyBackRow(board[i].value.color, i)
  {
    if OnBoard(i) && i < |board| && board[i].Some? { EnemyBackRowIs(board[i].value.color, i); }
  }

  /** A move offers it exactly to an underling that arrives there. */
  lemma OfferIffOnEnemyBackRow(board: Board, from: int, to: int, opts: MoveOptions)
    requires Apply(board, from, to, opts).Some?
    ensures Has(board, from)
    ensures Apply(board, from, to, opts).value.promotionAvailable <==>
            board[from].value.kind.Underling? && EnemyBackRow(board[from].value.color, to)
  {
    ApplyPlaysTheLegalMove(board, from, to, opts);
    EnemyBackRowIs(board[from].value.color, to);
  }

  // ----- counting

  predicate Counts(c: Cell, color: Color, kind: Option<Kind>) {
    c.Some? && c.value.color == color && (kind.None? || c.value.kind == kind.value)
  }

  function CountPieces(board: Board, color: Color, kind: Option<Kind>): nat {
    if board == [] then 0
    else
      CountPieces(board[..|board| - 1], color, kind) + if Counts(board[|board| - 1], color, kind) then 1 else 0
  }

  lemma {:induction false} CountAfterUpdate(board: Board, i: nat, c: Cell, color: Color, kind: Option<Kind>)
    requires i < |board|
    ensures CountPieces(board[i := c], color, kind) + (if Counts(board[i], color, kind) then 1 else 0) ==
            CountPieces(board, color, kind) + (if Counts(c, color, kind) then 1 else 0)
  {
    var n := |board| - 1;
    if i == n {
      assert board[i := c][..n] == board[..n];
    } else {
      assert board[i := c][..n] == board[..n][i := c];
      CountAfterUpdate(board[..n], i, c, color, kind);
    }
  }

  lemma {:induction false} CountByKind(board: Board, color: Color)
    ensures CountPieces(board, color, None) ==
            CountPieces(board, color, Some(Overling)) + CountPieces(board, color, Some(Underling))
  {
    if board != [] { CountByKind(board[..|board| - 1], color); }
  }

  lemma {:induction false} CountIsOfThePosition(b: Board, c: Board, color: Color, kind: Option<Kind>)
    requires SamePosition(b, c)
    ensures CountPieces(b, color, kind) == CountPieces(c, color, kind)
  {
    if b != [] {
      CountIsOfThePosition(b[..|b| - 1], c[..|c| - 1], color, kind);
      assert SameCell(b[|b| - 1], c[|c| - 1]);
    }
  }

  lemma {:induction false} CountZeroIffNone(board: Board, color: Color, kind: Option<Kind>)
    ensures CountPieces(board, color, kind) == 0 <==> forall i :: 0 <= i < |board| ==> !Counts(board[i], color, kind)
  {
    if board != [] {
      var front := board[..|board| - 1];
      CountZeroIffNone(front, color, kind);
      assert forall i :: 0 <= i < |front| ==> board[i] == front[i];
    }
  }

  /** Overlings weigh one, underlings two: what a side still has to lose or to promote. */
  function Strength(board: Board): nat {
    CountPieces(board, White, Some(Overling)) + CountPieces(board, Black, Some(Overling)) +
    2 * (CountPieces(board, White, Some(Underling)) + CountPieces(board, Black, Some(Underling)))
  }

  function Population(board: Board): nat {
    CountPieces(board, White, None) + CountPieces(board, Black, None)
  }

  lemma {:induction false} CountUpTo(n: nat, color: Color, kind: Option<Kind>)
    requires n <= SQUARES
    ensures CountPieces(StartingBoard()[..n], color, kind) ==
            (if kind != Some(Underling) then Within(n, if color.White? then 0 else 7) else 0) +
            (if kind != Some(Overling) then Within(n, if color.White? then 1 else 6) else 0)
  {
    if n > 0 {
      CountUpTo(n - 1, color, kind);
      var first := StartingBoard()[..n];
      assert first[..n - 1] == StartingBoard()[..n - 1];
      assert first[n - 1] == StartingCell(Row(n - 1), Column(n - 1));
      StartingCellCounts(n, color, kind);
    }
  }

  lemma StartingCellCounts(n: nat, color: Color, kind: Option<Kind>)
    requires 0 < n <= SQUARES
    ensures var overlings, underlings := if color.White? then 0 else 7, if color.White? then 1 else 6;
      (if Counts(StartingCell(Row(n - 1), Column(n - 1)), color, kind) then 1 else 0) ==
      (if kind != Some(Underling) then Within(n, overlings) - Within(n - 1, overlings) else 0) +
      (if kind != Some(Overling) then Within(n, underlings) - Within(n - 1, underlings) else 0)
  {
  }

  /** How many of the first n squares are on the row. */
  function Within(n: nat, row: nat): nat {
    if n <= row * SIZE then 0 else if n >= (row + 1) * SIZE then SIZE else n - row * SIZE
  }

  lemma StartingCounts(color: Color)
    ensures CountPieces(StartingBoard(), color, Some(Overling)) == 8
    ensures CountPieces(StartingBoard(), color, Some(Underling)) == 8
    ensures Strength(StartingBoard()) == 48 && Population(StartingBoard()) == 32
  {
    StartingCount(White, Overling);
    StartingCount(White, Underling);
    StartingCount(Black, Overling);
    StartingCount(Black, Underling);
    CountByKind(StartingBoard(), White);
    CountByKind(StartingBoard(), Black);
  }

  lemma StartingCount(color: Color, kind: Kind)
    ensures CountPieces(StartingBoard(), color, Some(kind)) == 8
  {
    assert StartingBoard()[..SQUARES] == StartingBoard();
    CountUpTo(SQUARES, color, Some(kind));
  }

  /** A legal move takes one enemy piece or none, and leaves every other count alone. */
  lemma PlayedCounts(board: Board, m: Move, opts: MoveOptions, color: Color, kind: Option<Kind>)
    requires Legal(board, m, opts)
    ensures CountPieces(Played(board, m), color, kind) + (if Counts(Taken(board, m), color, kind) then 1 else 0) ==
            CountPieces(board, color, kind)
    ensures Taken(board, m).Some? <==> m.isCapture
    ensures Taken(board, m).Some? ==> Taken(board, m).value.color == Opponent(board[m.from].value.color)
  {
    var lifted := board[m.from := None];
    CountAfterUpdate(board, m.from, None, color, kind);
    if m.jumped.Some? && m.isCapture {
      CountAfterUpdate(lifted, m.jumped.value, None, color, kind);
      CountAfterUpdate(lifted[m.jumped.value := None], m.to, board[m.from], color, kind);
    } else {
      CountAfterUpdate(lifted, m.to, board[m.from], color, kind);
    }
  }

  lemma PromotedCounts(board: Board, index: int, color: Color, kind: Option<Kind>)
    requires Promotable(board, index)
    ensures var own := color == board[index].value.color;
      CountPieces(Promoted(board, index), color, kind) ==
      CountPieces(board, color, kind) +
      if !own || kind.None? then 0 else if kind.value.Overling? then 1 else -1
  {
    CountAfterUpdate(board, index, Promoted(board, index)[index], color, kind);
  }

  // ----- runs

  datatype Action = Play(from: int, to: int, opts: MoveOptions) | Promote(index: int)

  /** A refused action leaves the board alone. */
  function Act(board: Board, a: Action): Board {
    match a
    case Play(from, to, opts) =>
      var r := Apply(board, from, to, opts);
      if r.Some? then r.value.board else board
    case Promote(index) => if Promotable(board, index) then Promoted(board, index) else board
  }

  function TakenBy(board: Board, a: Action): Cell {
    if a.Play? && Apply(board, a.from, a.to, a.opts).Some?
    then Apply(board, a.from, a.to, a.opts).value.captured
    else None
  }

  function BoardAfter(board: Board, actions: seq<Action>): Board {
    if actions == [] then board else Act(BoardAfter(board, actions[..|actions| - 1]), actions[|actions| - 1])
  }

  function Captives(board: Board, actions: seq<Action>): seq<Piece> {
    if actions == [] then []
    else
      var taken := TakenBy(BoardAfter(board, actions[..|actions| - 1]), actions[|actions| - 1]);
      Captives(board, actions[..|actions| - 1]) + if taken.Some? then [taken.value] else []
  }

  function Promotions(board: Board, actions: seq<Action>): nat {
    if actions == [] then 0
    else
      var before, a := BoardAfter(board, actions[..|actions| - 1]), actions[|actions| - 1];
      Promotions(board, actions[..|actions| - 1]) + if a.Promote? && Promotable(before, a.index) then 1 else 0
  }

  /** q is p, possibly promoted. */
  predicate GrownFrom(q: Piece, p: Piece) {
    q.id == p.id && q.color == p.color && (q.kind == p.kind || (p.kind.Underling? && q.kind.Overling?))
  }

  predicate DistinctIds(board: Board) {
    forall i, j :: 0 <= i < j < |board| && Has(board, i) && Has(board, j) ==> board[i].value.id != board[j].value.id
  }

  ghost predicate ComesFrom(q: Piece, board: Board) {
    exists i :: Has(board, i) && GrownFrom(q, board[i].value)
  }

  /** Every piece of the later board is a piece of the earlier one, possibly promoted. */
  ghost predicate Descends(later: Board, earlier: Board) {
    forall i :: Has(later, i) ==> ComesFrom(later[i].value, earlier)
  }

  lemma StartingIdsAreDistinct()
    ensures DistinctIds(StartingBoard())
  {
    var b := StartingBoard();
    forall i, j | 0 <= i < j < SQUARES && Has(b, i) && Has(b, j)
      ensures b[i].value.id != b[j].value.id
    {
      if b[i].value.id == b[j].value.id { StartingIdTellsSquare(i, j); }
    }
  }

  /** The id of a starting piece spells its color, its kind and its column. */
  lemma StartingPiecesDiffer(c: Color, k: Kind, n: int, c': Color, k': Kind, n': int)
    requires 0 <= n < SIZE && 0 <= n' < SIZE
    requires StartingPiece(c, k, n).id == StartingPiece(c', k', n').id
    ensures c == c' && k == k' && n == n'
  {
    var s, t := StartingPiece(c, k, n).id, StartingPiece(c', k', n').id;
    assert s[0] == t[0] && s[6] == t[6] && s[|s| - 1] == t[|t| - 1];
  }

  function HomeRow(color: Color, kind: Kind): int {
    if color.White? then (if kind.Overling? then 0 else 1) else (if kind.Overling? then 7 else 6)
  }

  lemma StartingSquare(i: int)
    requires OnBoard(i) && Has(StartingBoard(), i)
    ensures var p := StartingBoard()[i].value;
      p == StartingPiece(p.color, p.kind, Column(i)) && Row(i) == HomeRow(p.color, p.kind)
  {
  }

  lemma StartingIdTellsSquare(i: int, j: int)
    requires OnBoard(i) && OnBoard(j) && Has(StartingBoard(), i) && Has(StartingBoard(), j)
    requires StartingBoard()[i].value.id == StartingBoard()[j].value.id
    ensures i == j
  {
    StartingSquare(i);
    StartingSquare(j);
    var p, q := StartingBoard()[i].value, StartingBoard()[j].value;
    StartingPiecesDiffer(p.color, p.kind, Column(i), q.color, q.kind, Column(j));
    SameSquare(i, j);
  }

  /** Where the piece on square i of the board after a legal move stood before. */
  lemma PlayedMovesPieces(board: Board, m: Move, opts: MoveOptions, i: int)
    requires Legal(board, m, opts) && Has(Played(board, m), i)
    ensures var j := if i == m.to then m.from else i;
      Has(board, j) && Played(board, m)[i] == board[j] && (i != m.to ==> i != m.from)
      && (Taken(board, m).Some? ==> j != if m.jumped.Some? then m.jumped.value else m.to)
  {
  }

  /** What one action leaves and takes: ids stay distinct, no piece is made, and what was taken is gone. */
  ghost predicate KeepsPieces(board: Board, next: Board, taken: Cell) {
    && |next| == |board| && DistinctIds(next) && Descends(next, board)
    && (taken.Some? ==> ComesFrom(taken.value, board) && forall i :: Has(next, i) ==> next[i].value.id != taken.value.id)
  }

  lemma PlayKeepsPieces(board: Board, m: Move, opts: MoveOptions)
    requires DistinctIds(board) && Legal(board, m, opts)
    ensures KeepsPieces(board, Played(board, m), Taken(board, m))
  {
    var next, taken := Played(board, m), Taken(board, m);
    LegalIsWellPlaced(board, m, opts);
    hide Legal, Played;
    forall i | Has(next, i)
      ensures ComesFrom(next[i].value, board)
      ensures taken.Some? ==> next[i].value.id != taken.value.id
    {
      PlayedMovesPieces(board, m, opts, i);
      var j := if i == m.to then m.from else i;
      assert GrownFrom(next[i].value, board[j].value);
    }
    forall i, j | 0 <= i < j < |next| && Has(next, i) && Has(next, j)
      ensures next[i].value.id != next[j].value.id
    {
      PlayedMovesPieces(board, m, opts, i);
      PlayedMovesPieces(board, m, opts, j);
    }
    if taken.Some? {
      var k := if m.jumped.Some? then m.jumped.value else m.to;
      assert Has(board, k) && GrownFrom(taken.value, board[k].value);
    }
  }

  lemma PromotionKeepsPieces(board: Board, next: Board)
    requires DistinctIds(board) && |next| == |board|
    requires forall i :: 0 <= i < |board| ==> next[i].Some? == board[i].Some?
    requires forall i :: Has(board, i) ==> GrownFrom(next[i].value, board[i].value)
    ensures KeepsPieces(board, next, None)
  {
    forall i | Has(next, i)
      ensures ComesFrom(next[i].value, board)
    {
      assert Has(board, i) && GrownFrom(next[i].value, board[i].value);
    }
  }

  lemma ActKeepsPieces(board: Board, a: Action)
    requires DistinctIds(board)
    ensures KeepsPieces(board, Act(board, a), TakenBy(board, a))
  {
    if a.Play? && Apply(board, a.from, a.to, a.opts).Some? {
      ApplyPlaysTheLegalMove(board, a.from, a.to, a.opts);
      var m := Apply(board, a.from, a.to, a.opts).value.move;
      LegalIsApplied(board, m, a.opts);
      hide Apply, KeepsPieces, Legal;
      PlayKeepsPieces(board, m, a.opts);
    } else {
      hide Apply, KeepsPieces;
      PromotionKeepsPieces(board, Act(board, a));
    }
  }

  lemma ComesFromEarlier(q: Piece, middle: Board, first: Board)
    requires ComesFrom(q, middle) && Descends(middle, first)
    ensures ComesFrom(q, first)
  {
    var i :| Has(middle, i) && GrownFrom(q, middle[i].value);
    var j :| Has(first, j) && GrownFrom(middle[i].value, first[j].value);
    assert GrownFrom(q, first[j].value);
  }

  lemma DescendsFromSelf(board: Board)
    ensures Descends(board, board)
  {
    forall i | Has(board, i)
      ensures ComesFrom(board[i].value, board)
    {
      assert GrownFrom(board[i].value, board[i].value);
    }
  }

  /** Over a whole run no piece is made, doubled, recolored or demoted, and a captive never comes back. */
  lemma {:induction false} RunKeepsPieces(actions: seq<Action>)
    ensures var b := BoardAfter(StartingBoard(), actions);
      && Playable(b) && DistinctIds(b) && Descends(b, StartingBoard())
    ensures var b, captives := BoardAfter(StartingBoard(), actions), Captives(StartingBoard(), actions);
      && (forall c :: c in captives ==> ComesFrom(c, StartingBoard()))
      && (forall c, i :: c in captives && Has(b, i) ==> b[i].value.id != c.id)
      && (forall x, y :: 0 <= x < y < |captives| ==> captives[x].id != captives[y].id)
  {
    var start := StartingBoard();
    if actions == [] {
      StartingIdsAreDistinct();
      DescendsFromSelf(start);
    } else {
      var front, a := actions[..|actions| - 1], actions[|actions| - 1];
      RunKeepsPieces(front);
      var b := BoardAfter(start, front);
      var next, taken := Act(b, a), TakenBy(b, a);
      ActKeepsPieces(b, a);
      forall i | Has(next, i)
        ensures ComesFrom(next[i].value, start)
        ensures forall c :: c in Captives(start, front) ==> next[i].value.id != c.id
      {
        ComesFromEarlier(next[i].value, b, start);
        var j :| Has(b, j) && GrownFrom(next[i].value, b[j].value);
      }
      if taken.Some? {
        ComesFromEarlier(taken.value, b, start);
        var j :| Has(b, j) && GrownFrom(taken.value, b[j].value);
        forall c | c in Captives(start, front)
          ensures c.id != taken.value.id
        {
          assert b[j].value.id != c.id;
        }
      }
    }
  }

  lemma ActCounts(board: Board, a: Action)
    ensures var next, taken := Act(board, a), TakenBy(board, a);
      && Population(next) + (if taken.Some? then 1 else 0) == Population(board)
      && Strength(next) + (if taken.Some? then (if taken.value.kind.Underling? then 2 else 1) else 0)
         + (if a.Promote? && Promotable(board, a.index) then 1 else 0) == Strength(board)
  {
    if a.Play? && Apply(board, a.from, a.to, a.opts).Some? {
      ApplyPlaysTheLegalMove(board, a.from, a.to, a.opts);
      var m := Apply(board, a.from, a.to, a.opts).value.move;
      forall color: Color, kind: Option<Kind>
        ensures CountPieces(Played(board, m), color, kind) +
                (if Counts(Taken(board, m), color, kind) then 1 else 0) == CountPieces(board, color, kind)
      {
        PlayedCounts(board, m, a.opts, color, kind);
      }
    } else if a.Promote? && Promotable(board, a.index) {
      forall color: Color, kind: Option<Kind> {
        PromotedCounts(board, a.index, color, kind);
      }
    }
  }

  /** Board and captives always add up to 32, and every capture or promotion uses up some of the strength. */
  lemma {:induction false} RunConserves(actions: seq<Action>)
    ensures var b, start := BoardAfter(StartingBoard(), actions), StartingBoard();
      && Population(b) + |Captives(start, actions)| == 32
      && Strength(b) + |Captives(start, actions)| + Promotions(start, actions) <= 48
  {
    if actions == [] {
      StartingCounts(White);
    } else {
      var front := actions[..|actions| - 1];
      RunConserves(front);
      ActCounts(BoardAfter(StartingBoard(), front), actions[|actions| - 1]);
    }
  }

  lemma {:induction false} SomebodyIsLeft(actions: seq<Action>)
    ensures exists i :: Has(BoardAfter(StartingBoard(), actions), i)
  {
    if actions == [] {
      assert Has(BoardAfter(StartingBoard(), actions), 0);
    } else {
      var front, a := actions[..|actions| - 1], actions[|actions| - 1];
      SomebodyIsLeft(front);
      var b := BoardAfter(StartingBoard(), front);
      var i :| Has(b, i);
      if a.Play? && Apply(b, a.from, a.to, a.opts).Some? {
        ApplyPlaysTheLegalMove(b, a.from, a.to, a.opts);
        assert Has(Act(b, a), a.to);
      } else {
        assert Has(Act(b, a), i);
      }
      assert BoardAfter(StartingBoard(), actions) == Act(b, a);
    }
  }

  /** However long the run, there are at most 47 captures and promotions in it. */
  lemma ProgressIsBounded(actions: seq<Action>)
    ensures |Captives(StartingBoard(), actions)| + Promotions(StartingBoard(), actions) <= 47
  {
    var b := BoardAfter(StartingBoard(), actions);
    RunConserves(actions);
    SomebodyIsLeft(actions);
    var i :| Has(b, i);
    CountZeroIffNone(b, b[i].value.color, Some(b[i].value.kind));
    assert Counts(b[i], b[i].value.color, Some(b[i].value.kind));
  }

  /** Boards with equal keys stay so under every sequence of requests, and lose the same captives. */
  lemma {:induction false} SamePositionsStaySame(b: Board, c: Board, actions: seq<Action>)
    requires SamePosition(b, c)
    ensures SamePosition(BoardAfter(b, actions), BoardAfter(c, actions))
    ensures |Captives(b, actions)| == |Captives(c, actions)|
    ensures Promotions(b, actions) == Promotions(c, actions)
  {
    if actions != [] {
      var front, a := actions[..|actions| - 1], actions[|actions| - 1];
      SamePositionsStaySame(b, c, front);
      var b', c' := BoardAfter(b, front), BoardAfter(c, front);
      match a
      case Play(from, to, opts) => SamePositionsPlayAlike(b', c', from, to, opts);
      case Promote(index) => SamePositionsPromoteAlike(b', c', index);
    }
  }

  function MirrorAction(a: Action): Action {
    match a
    case Play(from, to, opts) => Play(MirrorSquare(from), MirrorSquare(to), MirrorOptions(opts))
    case Promote(index) => Promote(MirrorSquare(index))
  }

  function MirrorActions(actions: seq<Action>): seq<Action> {
    seq(|actions|, i requires 0 <= i < |actions| => MirrorAction(actions[i]))
  }

  lemma MirrorCommutesWithAct(b: Board, a: Action)
    requires Playable(b)
    ensures Playable(Act(b, a)) && Act(Mirror(b), MirrorAction(a)) == Mirror(Act(b, a))
  {
    match a
    case Play(from, to, opts) => MirrorCommutesWithApply(b, from, to, opts);
    case Promote(index) => MirrorCommutesWithPromotion(b, index);
  }

  /** Black can play any run of white's, reflected. */
  lemma {:induction false} MirrorCommutesWithRuns(b: Board, actions: seq<Action>)
    requires Playable(b)
    ensures Playable(BoardAfter(b, actions))
    ensures BoardAfter(Mirror(b), MirrorActions(actions)) == Mirror(BoardAfter(b, actions))
  {
    if actions != [] {
      var front, a := actions[..|actions| - 1], actions[|actions| - 1];
      MirrorCommutesWithRuns(b, front);
      var b' := BoardAfter(b, front);
      assert MirrorActions(actions)[..|actions| - 1] == MirrorActions(front);
      MirrorCommutesWithAct(b', a);
    }
  }

  // ----- jump chains

  /** Each landing is reached by a jump of the same piece, and no landing is excluded or repeated. */
  predicate IsChain(board: Board, at: int, excluded: set<int>, landings: seq<int>)
    decreases landings
  {
    landings == [] || (
      var r := Apply(board, at, landings[0], MoveOptions(true, excluded));
      r.Some? && IsChain(r.value.board, landings[0], excluded + {landings[0]}, landings[1..]))
  }

  function ChainEnd(board: Board, at: int, excluded: set<int>, landings: seq<int>): Board
    requires IsChain(board, at, excluded, landings)
    decreases landings
  {
    if landings == [] then board
    else
      ChainEnd(Apply(board, at, landings[0], MoveOptions(true, excluded)).value.board, landings[0],
               excluded + {landings[0]}, landings[1..])
  }

  predicate SameParity(a: int, b: int) { Row(a) % 2 == Row(b) % 2 && Column(a) % 2 == Column(b) % 2 }

  function Landings(landings: seq<int>): set<int> { set x | x in landings }

  /** The square a jump from a to b passes over. */
  function Middle(a: int, b: int): int { BoardIndex((Row(a) + Row(b)) / 2, (Column(a) + Column(b)) / 2) }

  /** The squares passed over by jumping from landing to landing. */
  function Middles(at: int, landings: seq<int>): set<int>
    decreases landings
  {
    if landings == [] then {} else {Middle(at, landings[0])} + Middles(landings[0], landings[1..])
  }

  /**
   * What stands on square i once the piece from `at` has gone to `last` over the squares in `middles`:
   * the piece at its end, nothing where it started or jumped an enemy, and what was there before elsewhere.
   */
  function Swept(board: Board, at: int, last: int, middles: set<int>, i: int): Cell
    requires Playable(board) && Has(board, at) && OnBoard(i)
  {
    if i == last then board[at]
    else if i == at || (i in middles && board[i].Some? && board[i].value.color != board[at].value.color) then None
    else board[i]
  }

  lemma JumpGeometry(board: Board, m: Move, excluded: set<int>)
    requires Legal(board, m, MoveOptions(true, excluded))
    ensures Has(board, m.from) && m.from != m.to && board[m.to].None? && m.to !in excluded && SameParity(m.to, m.from)
    ensures m.jumped == Some(Middle(m.from, m.to)) && Has(board, m.jumped.value)
    ensures m.isCapture == (board[m.jumped.value].value.color != board[m.from].value.color)
  {
    hide SameParity;
    hide Between, Middle, SameParity;
    JumpOver(m.from, m.jumped.value, m.to);
  }

  lemma JumpOver(a: int, middle: int, b: int)
    requires OnBoard(middle) && Between(a, middle, b)
    ensures a != b && middle == Middle(a, b) && SameParity(b, a)
  {
    assert Row(a) + Row(b) == 2 * Row(middle) && Column(a) + Column(b) == 2 * Column(middle);
    SquareIsIndex(middle);
    EvenDistanceKeepsParity(a, middle, b);
    hide SameParity;
    if a == b { SameSquare(a, middle); }
  }

  lemma EvenDistanceKeepsParity(a: int, middle: int, b: int)
    requires Row(a) + Row(b) == 2 * Row(middle) && Column(a) + Column(b) == 2 * Column(middle)
    ensures SameParity(b, a)
  {
  }

  /** One jump: the piece goes to an empty square of its own parity, and an enemy it passes over is gone. */
  lemma JumpEffect(board: Board, at: int, to: int, excluded: set<int>)
    requires Apply(board, at, to, MoveOptions(true, excluded)).Some?
    ensures Playable(board) && Has(board, at) && OnBoard(to) && at != to
    ensures board[to].None? && to !in excluded && SameParity(to, at)
    ensures var next := Apply(board, at, to, MoveOptions(true, excluded)).value.board;
      Playable(next) && forall i :: OnBoard(i) ==> next[i] == Swept(board, at, to, {Middle(at, to)}, i)
  {
    ApplyPlaysTheLegalMove(board, at, to, MoveOptions(true, excluded));
    var r := Apply(board, at, to, MoveOptions(true, excluded)).value;
    JumpGeometry(board, r.move, excluded);
    LegalIsApplied(board, r.move, MoveOptions(true, excluded));
    LegalIsWellPlaced(board, r.move, MoveOptions(true, excluded));
    forall i | OnBoard(i)
      ensures r.board[i] == Swept(board, at, to, {Middle(at, to)}, i)
    {
      PlayedAt(board, r.move, i);
    }
  }

  lemma {:induction false} ChainLandsApart(board: Board, at: int, excluded: set<int>, landings: seq<int>)
    requires IsChain(board, at, excluded, landings)
    ensures |Landings(landings)| == |landings| && Landings(landings) !! excluded
    ensures forall x :: x in landings ==> OnBoard(x) && SameParity(x, at)
    decreases landings
  {
    if landings != [] {
      var head, rest := landings[0], landings[1..];
      JumpEffect(board, at, head, excluded);
      ChainLandsApart(Apply(board, at, head, MoveOptions(true, excluded)).value.board, head, excluded + {head}, rest);
      assert landings == [head] + rest;
      assert Landings(landings) == {head} + Landings(rest);
      assert head !in Landings(rest);
    } else {
      assert Landings(landings) == {};
    }
  }

  /** Squares of one parity, numbered from 0 to 15. */
  function ParityRank(i: int): int { (Row(i) / 2) * 4 + Column(i) / 2 }

  lemma ParityRankIsInjective(x: int, y: int)
    requires OnBoard(x) && OnBoard(y) && SameParity(x, y) && ParityRank(x) == ParityRank(y)
    ensures x == y
  {
    assert 0 <= Column(x) / 2 < 4 && 0 <= Column(y) / 2 < 4;
    assert Row(x) / 2 == Row(y) / 2 && Column(x) / 2 == Column(y) / 2;
    assert Row(x) == 2 * (Row(x) / 2) + Row(x) % 2 && Column(x) == 2 * (Column(x) / 2) + Column(x) % 2;
    assert Row(y) == 2 * (Row(y) / 2) + Row(y) % 2 && Column(y) == 2 * (Column(y) / 2) + Column(y) % 2;
    SameSquare(x, y);
  }

  lemma ParityRankBelowSixteen(x: int)
    requires OnBoard(x)
    ensures 0 <= ParityRank(x) < 16
  {
  }

  lemma OneParityIsSixteen(s: set<int>, at: int)
    requires forall x :: x in s ==> OnBoard(x) && SameParity(x, at)
    ensures |s| <= 16
  {
    var ranks := set x | x in s :: ParityRank(x);
    forall x, y | x in s && y in s && ParityRank(x) == ParityRank(y)
      ensures x == y
    {
      ParityRankIsInjective(x, y);
    }
    forall k | k in ranks
      ensures 0 <= k < 16
    {
      var x :| x in s && ParityRank(x) == k;
      ParityRankBelowSixteen(x);
    }
    ImageSize(s, ParityRank, ranks);
    SizeBelow(ranks, 16);
  }

  /** A jump chain ends: 16 jumps at most, and 15 when the square it started from may not be landed on. */
  lemma ChainsAreShort(board: Board, at: int, excluded: set<int>, landings: seq<int>)
    requires IsChain(board, at, excluded, landings)
    ensures |landings| <= 16
    ensures at in excluded && OnBoard(at) ==> |landings| <= 15
  {
    ChainLandsApart(board, at, excluded, landings);
    OneParityIsSixteen(Landings(landings), at);
    if at in excluded && OnBoard(at) {
      OneParityIsSixteen(Landings(landings) + {at}, at);
    }
  }

  lemma SweptAgain(board: Board, next: Board, at: int, head: int, last: int, middle: int, middles: set<int>, i: int)
    requires Playable(board) && Playable(next) && Has(board, at) && Has(next, head) && OnBoard(i)
    requires at != head && OnBoard(at) && board[head].None?
    requires next[i] == Swept(board, at, head, {middle}, i) && next[head] == board[at]
    ensures Swept(next, head, last, middles, i) == Swept(board, at, last, {middle} + middles, i)
  {
  }

  /** The board after a whole chain: the piece at its last landing, the enemies it jumped gone, all else as it was. */
  lemma {:induction false} ChainChangesOnly(board: Board, at: int, excluded: set<int>, landings: seq<int>)
    requires IsChain(board, at, excluded, landings) && landings != []
    decreases landings
    ensures Playable(board) && Has(board, at)
    ensures var end, last := ChainEnd(board, at, excluded, landings), landings[|landings| - 1];
      Playable(end) && forall i :: OnBoard(i) ==> end[i] == Swept(board, at, last, Middles(at, landings), i)
  {
    hide Apply, Legal;
    var head, rest := landings[0], landings[1..];
    JumpEffect(board, at, head, excluded);
    if rest != [] {
      var next := Apply(board, at, head, MoveOptions(true, excluded)).value.board;
      ChainChangesOnly(next, head, excluded + {head}, rest);
      var end, last := ChainEnd(board, at, excluded, landings), landings[|landings| - 1];
      assert rest[|rest| - 1] == last;
      forall i | OnBoard(i)
        ensures end[i] == Swept(board, at, last, Middles(at, landings), i)
      {
        SweptAgain(board, next, at, head, last, Middle(at, head), Middles(head, rest), i);
      }
    } else {
      assert Middles(at, landings) == {Middle(at, head)};
    }
  }
}
