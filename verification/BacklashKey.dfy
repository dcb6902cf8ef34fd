/** When two Backlash positions count as the same, and the symmetry between the two colors. */
module BacklashKey {
  import opened Wrappers
  import opened BacklashRules

  // ----- the repetition key

  function Join(parts: seq<string>, separator: string): string {
    if parts == [] then ""
    else if |parts| == 1 then parts[0]
    else parts[0] + separator + Join(parts[1..], separator)
  }

  function CellCode(c: Cell): string {
    if c.None? then "-"
    else
      (if c.value.color.White? then "w" else "b") + (if c.value.kind.Overling? then "o" else "u")
  }

  function ColorName(color: Color): string { if color.White? then "white" else "black" }
  function KindName(kind: Kind): string { if kind.Overling? then "overling" else "underling" }

  function CellCodes(board: Board): seq<string> {
    seq(|board|, i requires 0 <= i < |board| => CellCode(board[i]))
  }

  function PositionKey(board: Board, turn: Color): string {
    ColorName(turn) + ":" + Join(CellCodes(board), ",")
  }

  /** The cells agree on everything but the identity of the piece. */
  predicate SameCell(c: Cell, d: Cell) {
    c.Some? == d.Some? && (c.Some? ==> c.value.color == d.value.color && c.value.kind == d.value.kind)
  }

  predicate SamePosition(b: Board, c: Board) {
    |b| == |c| && forall i :: 0 <= i < |b| ==> SameCell(b[i], c[i])
  }

  lemma CellCodesDiffer(c: Cell, d: Cell, s: string, t: string)
    requires CellCode(c) + "," + s == CellCode(d) + "," + t
    ensures SameCell(c, d) && s == t
  {
    var x, y := CellCode(c) + "," + s, CellCode(d) + "," + t;
    assert x[0] == y[0] && x[1] == y[1];
    assert |CellCode(c)| == |CellCode(d)|;
    assert s == x[|CellCode(c)| + 1..] && t == y[|CellCode(d)| + 1..];
  }

  lemma {:induction false} JoinedCodesDecode(b: Board, c: Board)
    requires Join(CellCodes(b), ",") == Join(CellCodes(c), ",")
    ensures SamePosition(b, c)
  {
    if b == [] || c == [] {
      assert |Join(CellCodes(b), ",")| == 0 <==> b == [];
      assert |Join(CellCodes(c), ",")| == 0 <==> c == [];
    } else {
      JoinHead(b);
      JoinHead(c);
      var s, t := Join(CellCodes(b), ","), Join(CellCodes(c), ",");
      if |b| == 1 || |c| == 1 {
        assert |b| == 1 <==> |s| == |CellCode(b[0])|;
        assert |c| == 1 <==> |t| == |CellCode(c[0])|;
        assert s[0] == t[0];
        assert |s| == 2 ==> s[1] == t[1];
      } else {
        CellCodesDiffer(b[0], c[0], Join(CellCodes(b[1..]), ","), Join(CellCodes(c[1..]), ","));
        JoinedCodesDecode(b[1..], c[1..]);
        assert b == [b[0]] + b[1..] && c == [c[0]] + c[1..];
      }
    }
  }

  lemma JoinHead(b: Board)
    requires b != []
    ensures |b| == 1 ==> Join(CellCodes(b), ",") == CellCode(b[0])
    ensures |b| > 1 ==> Join(CellCodes(b), ",") == CellCode(b[0]) + "," + Join(CellCodes(b[1..]), ",")
  {
    assert CellCodes(b)[1..] == CellCodes(b[1..]);
  }

  /** The key tells positions apart exactly by the turn and by color and kind on each square. */
  lemma KeyIsThePosition(b: Board, turn: Color, c: Board, turn': Color)
    ensures PositionKey(b, turn) == PositionKey(c, turn') <==> turn == turn' && SamePosition(b, c)
  {
    var k, k' := PositionKey(b, turn), PositionKey(c, turn');
    if k == k' {
      assert k[0] == k'[0];
      assert k[6..] == Join(CellCodes(b), ",") && k'[6..] == Join(CellCodes(c), ",");
      JoinedCodesDecode(b, c);
    }
    if turn == turn' && SamePosition(b, c) {
      assert CellCodes(b) == CellCodes(c);
    }
  }

  // ----- positions with the same key play alike

  lemma SameDirectionMoves(b: Board, c: Board, from: int, opts: MoveOptions, d: (int, int))
    requires SamePosition(b, c) && Playable(b) && OnBoard(from) && b[from].Some?
    ensures DirectionMoves(b, from, opts, d) == DirectionMoves(c, from, opts, d)
  {
    var row, column := Row(from) + d.0, Column(from) + d.1;
    if Inside(row, column) {
      IndexRoundTrip(row, column);
      assert SameCell(b[BoardIndex(row, column)], c[BoardIndex(row, column)]);
    }
    if Inside(row + d.0, column + d.1) {
      IndexRoundTrip(row + d.0, column + d.1);
      assert SameCell(b[BoardIndex(row + d.0, column + d.1)], c[BoardIndex(row + d.0, column + d.1)]);
    }
    assert SameCell(b[from], c[from]);
  }

  lemma {:induction false} SameMovesAlong(b: Board, c: Board, from: int, opts: MoveOptions, ds: seq<(int, int)>)
    requires SamePosition(b, c) && Playable(b) && OnBoard(from) && b[from].Some?
    ensures MovesAlong(b, from, opts, ds) == MovesAlong(c, from, opts, ds)
  {
    if ds != [] {
      SameMovesAlong(b, c, from, opts, ds[..|ds| - 1]);
      SameDirectionMoves(b, c, from, opts, ds[|ds| - 1]);
    }
  }

  lemma SameLegalMoves(b: Board, c: Board, from: int, opts: MoveOptions)
    requires SamePosition(b, c)
    ensures LegalMoves(b, from, opts) == LegalMoves(c, from, opts)
  {
    if OnBoard(from) && Playable(b) {
      assert SameCell(b[from], c[from]);
      if b[from].Some? { SameMovesAlong(b, c, from, opts, DIRECTIONS); }
    }
  }

  lemma SameMovesAt(b: Board, c: Board, color: Color, i: nat)
    requires SamePosition(b, c) && i < |b|
    ensures MovesAt(b, color, i) == MovesAt(c, color, i)
  {
    SameLegalMoves(b, c, i, DEFAULTS);
    assert SameCell(b[i], c[i]);
  }

  lemma SameMovesOfColor(b: Board, c: Board, color: Color)
    requires SamePosition(b, c)
    ensures LegalMovesOf(b, color) == LegalMovesOf(c, color)
  {
    forall i: nat | i < |b|
      ensures MovesAt(b, color, i) == MovesAt(c, color, i)
    {
      SameMovesAt(b, c, color, i);
    }
    SameCollected(MovesBySquare(b, color), MovesBySquare(c, color), |b|);
  }

  /** The effects agree on everything but the identity of pieces. */
  predicate SameApplied(r: Applied, s: Applied) {
    && r.move == s.move && SamePosition(r.board, s.board)
    && SameCell(Some(r.movedPiece), Some(s.movedPiece)) && SameCell(r.captured, s.captured)
    && r.promotionAvailable == s.promotionAvailable
  }

  lemma SamePlayed(b: Board, c: Board, m: Move)
    requires SamePosition(b, c) && WellPlaced(b, m)
    ensures SamePosition(Played(b, m), Played(c, m)) && SameCell(Taken(b, m), Taken(c, m))
  {
    forall i | OnBoard(i)
      ensures SameCell(Played(b, m)[i], Played(c, m)[i])
    {
      PlayedAt(b, m, i);
      PlayedAt(c, m, i);
      assert SameCell(b[i], c[i]) && SameCell(b[m.from], c[m.from]);
    }
    assert SameCell(b[m.to], c[m.to]) && (m.jumped.Some? ==> SameCell(b[m.jumped.value], c[m.jumped.value]));
  }

  /** Requests are accepted alike, and lead to positions that are again the same. */
  lemma SamePositionsPlayAlike(b: Board, c: Board, from: int, to: int, opts: MoveOptions)
    requires SamePosition(b, c)
    ensures Apply(b, from, to, opts).Some? <==> Apply(c, from, to, opts).Some?
    ensures Apply(b, from, to, opts).Some? ==>
            SameApplied(Apply(b, from, to, opts).value, Apply(c, from, to, opts).value)
  {
    SameLegalMoves(b, c, from, opts);
    FoundIsLegal(b, from, to, opts);
    var found := FirstTo(LegalMoves(b, from, opts), to);
    if found.Some? {
      LegalIsWellPlaced(b, found.value, opts);
      SamePlayed(b, c, found.value);
      assert SameCell(b[from], c[from]);
    }
  }

  lemma SamePositionsPromoteAlike(b: Board, c: Board, index: int)
    requires SamePosition(b, c)
    ensures Promotable(b, index) == Promotable(c, index)
    ensures Promotable(b, index) ==> SamePosition(Promoted(b, index), Promoted(c, index))
  {
    if 0 <= index < |b| { assert SameCell(b[index], c[index]); }
  }

  // ----- white and black play the same game

  function MirrorSquare(i: int): int { BoardIndex(SIZE - 1 - Row(i), Column(i)) }

  function MirrorCell(c: Cell): Cell {
    if c.None? then None else Some(c.value.(color := Opponent(c.value.color)))
  }

  function Mirror(b: Board): Board
    requires Playable(b)
  {
    seq(SQUARES, i requires 0 <= i < SQUARES => MirrorCell(b[MirrorSquare(i)]))
  }

  function MirrorMove(m: Move): Move {
    m.(from := MirrorSquare(m.from), to := MirrorSquare(m.to),
       jumped := if m.jumped.None? then None else Some(MirrorSquare(m.jumped.value)))
  }

  function MirrorOptions(opts: MoveOptions): MoveOptions {
    opts.(excluded := set i | i in opts.excluded :: MirrorSquare(i))
  }

  lemma MirrorSquareTwice(i: int)
    ensures MirrorSquare(MirrorSquare(i)) == i
    ensures Row(MirrorSquare(i)) == SIZE - 1 - Row(i) && Column(MirrorSquare(i)) == Column(i)
    ensures OnBoard(MirrorSquare(i)) <==> OnBoard(i)
  {
  }

  lemma MirrorBoardTwice(b: Board)
    requires Playable(b)
    ensures Mirror(Mirror(b)) == b
  {
    forall i | OnBoard(i)
      ensures Mirror(Mirror(b))[i] == b[i]
    {
      MirrorSquareTwice(i);
    }
  }

  lemma MirrorMoveTwice(m: Move)
    ensures MirrorMove(MirrorMove(m)) == m
  {
    MirrorSquareTwice(m.from);
    MirrorSquareTwice(m.to);
    if m.jumped.Some? { MirrorSquareTwice(m.jumped.value); }
  }

  lemma MirrorOptionsTwice(opts: MoveOptions)
    ensures MirrorOptions(MirrorOptions(opts)) == opts
  {
    forall i: int
      ensures MirrorSquare(MirrorSquare(i)) == i
    {
      MirrorSquareTwice(i);
    }
    var e := MirrorOptions(opts).excluded;
    assert MirrorOptions(MirrorOptions(opts)).excluded == opts.excluded by {
      forall i | i in opts.excluded
        ensures i in MirrorOptions(MirrorOptions(opts)).excluded
      {
        assert MirrorSquare(i) in e;
      }
    }
  }

  lemma MirrorKeepsLegal(b: Board, m: Move, opts: MoveOptions)
    requires Legal(b, m, opts)
    ensures Legal(Mirror(b), MirrorMove(m), MirrorOptions(opts))
  {
    MirrorSquareTwice(m.from);
    MirrorSquareTwice(m.to);
    if m.jumped.Some? { MirrorSquareTwice(m.jumped.value); }
    if MirrorSquare(m.to) in MirrorOptions(opts).excluded {
      var i :| i in opts.excluded && MirrorSquare(i) == MirrorSquare(m.to);
      MirrorSquareTwice(i);
    }
  }

  /** Reflecting the rows and swapping the colors maps the legal moves onto the legal moves. */
  lemma MirrorCommutesWithLegal(b: Board, m: Move, opts: MoveOptions)
    requires Playable(b)
    ensures Legal(b, m, opts) <==> Legal(Mirror(b), MirrorMove(m), MirrorOptions(opts))
  {
    if Legal(b, m, opts) { MirrorKeepsLegal(b, m, opts); }
    if Legal(Mirror(b), MirrorMove(m), MirrorOptions(opts)) {
      MirrorKeepsLegal(Mirror(b), MirrorMove(m), MirrorOptions(opts));
      MirrorBoardTwice(b);
      MirrorMoveTwice(m);
      MirrorOptionsTwice(opts);
    }
  }

  lemma MirrorPlayedAt(b: Board, m: Move, i: int)
    requires WellPlaced(b, m) && WellPlaced(Mirror(b), MirrorMove(m)) && OnBoard(i)
    ensures Played(Mirror(b), MirrorMove(m))[i] == Mirror(Played(b, m))[i]
  {
    MirrorSquareTwice(i);
    MirrorSquareTwice(m.from);
    MirrorSquareTwice(m.to);
    if m.jumped.Some? { MirrorSquareTwice(m.jumped.value); }
    PlayedAt(b, m, MirrorSquare(i));
    PlayedAt(Mirror(b), MirrorMove(m), i);
  }

  lemma MirrorKeepsWellPlaced(b: Board, m: Move)
    requires WellPlaced(b, m)
    ensures WellPlaced(Mirror(b), MirrorMove(m))
    ensures Taken(Mirror(b), MirrorMove(m)) == MirrorCell(Taken(b, m))
  {
    MirrorSquareTwice(m.from);
    MirrorSquareTwice(m.to);
    if m.jumped.Some? { MirrorSquareTwice(m.jumped.value); }
  }

  /** Playing a move commutes with the reflection. */
  lemma MirrorCommutesWithPlayed(b: Board, m: Move)
    requires WellPlaced(b, m)
    ensures WellPlaced(Mirror(b), MirrorMove(m))
    ensures Played(Mirror(b), MirrorMove(m)) == Mirror(Played(b, m))
    ensures Taken(Mirror(b), MirrorMove(m)) == MirrorCell(Taken(b, m))
  {
    MirrorKeepsWellPlaced(b, m);
    forall i | OnBoard(i)
      ensures Played(Mirror(b), MirrorMove(m))[i] == Mirror(Played(b, m))[i]
    {
      MirrorPlayedAt(b, m, i);
    }
  }

  function MirrorApplied(r: Applied): Applied
    requires Playable(r.board)
  {
    Applied(Mirror(r.board), MirrorMove(r.move), MirrorCell(Some(r.movedPiece)).value, MirrorCell(r.captured),
            r.promotionAvailable)
  }

  lemma MirrorOfApplied(b: Board, m: Move)
    requires WellPlaced(b, m) && b[m.from].Some?
    ensures WellPlaced(Mirror(b), MirrorMove(m)) && Mirror(b)[MirrorMove(m).from].Some?
    ensures AppliedTo(Mirror(b), MirrorMove(m)) == MirrorApplied(AppliedTo(b, m))
  {
    MirrorCommutesWithPlayed(b, m);
    MirrorSquareTwice(m.from);
    MirrorSquareTwice(m.to);
  }

  lemma MirrorAccepts(b: Board, from: int, to: int, opts: MoveOptions)
    requires Apply(b, from, to, opts).Some?
    ensures Playable(Apply(b, from, to, opts).value.board)
    ensures Apply(Mirror(b), MirrorSquare(from), MirrorSquare(to), MirrorOptions(opts)) ==
            Some(MirrorApplied(Apply(b, from, to, opts).value))
  {
    hide Apply;
    ApplyPlaysTheLegalMove(b, from, to, opts);
    var m := Apply(b, from, to, opts).value.move;
    LegalIsApplied(b, m, opts);
    LegalIsWellPlaced(b, m, opts);
    MirrorKeepsLegal(b, m, opts);
    LegalIsApplied(Mirror(b), MirrorMove(m), MirrorOptions(opts));
    MirrorOfApplied(b, m);
  }

  /** Applying commutes with the reflection, whatever is requested. */
  lemma MirrorCommutesWithApply(b: Board, from: int, to: int, opts: MoveOptions)
    requires Playable(b)
    ensures var r := Apply(b, from, to, opts);
      var s := Apply(Mirror(b), MirrorSquare(from), MirrorSquare(to), MirrorOptions(opts));
      && (r.None? ==> s.None?)
      && (r.Some? ==> Playable(r.value.board) && s == Some(MirrorApplied(r.value)))
  {
    if Apply(b, from, to, opts).Some? {
      MirrorAccepts(b, from, to, opts);
    } else if Apply(Mirror(b), MirrorSquare(from), MirrorSquare(to), MirrorOptions(opts)).Some? {
      MirrorAccepts(Mirror(b), MirrorSquare(from), MirrorSquare(to), MirrorOptions(opts));
      MirrorBoardTwice(b);
      MirrorOptionsTwice(opts);
      MirrorSquareTwice(from);
      MirrorSquareTwice(to);
    }
  }

  lemma MirrorCommutesWithPromotion(b: Board, index: int)
    requires Playable(b)
    ensures Promotable(b, index) <==> Promotable(Mirror(b), MirrorSquare(index))
    ensures Promotable(b, index) ==> Promoted(Mirror(b), MirrorSquare(index)) == Mirror(Promoted(b, index))
  {
    MirrorSquareTwice(index);
    if Promotable(b, index) {
      var p, q := Promoted(Mirror(b), MirrorSquare(index)), Mirror(Promoted(b, index));
      forall i | OnBoard(i)
        ensures p[i] == q[i]
      {
        MirrorSquareTwice(i);
      }
    }
  }
}
