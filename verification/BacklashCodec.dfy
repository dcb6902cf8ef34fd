/** The wire format of a piece: id, color and kind separated by bars, or nothing for an empty square. */
module BacklashCodec {
  import opened Wrappers
  import opened BacklashRules
  import opened BacklashKey

  const BAR := '|'

  function Encode(c: Cell): string {
    if c.None? then ""
    else c.value.id + [BAR] + ColorName(c.value.color) + [BAR] + KindName(c.value.kind)
  }

  /** The parts of s between the bars; there is one more part than there are bars. */
  function Split(s: string): (parts: seq<string>)
    ensures parts != []
  {
    if s == "" then [""]
    else
      var rest := Split(s[1..]);
      if s[0] == BAR then [""] + rest else [[s[0]] + rest[0]] + rest[1..]
  }

  function ParseColor(s: string): Option<Color> {
    if s == "white" then Some(White) else if s == "black" then Some(Black) else None
  }

  function ParseKind(s: string): Option<Kind> {
    if s == "overling" then Some(Overling) else if s == "underling" then Some(Underling) else None
  }

  function Decode(value: string): Cell {
    if value == "" then None
    else
      var parts := Split(value);
      if |parts| != 3 || parts[0] == "" then None
      else
        match (ParseColor(parts[1]), ParseKind(parts[2]))
        case (Some(color), Some(kind)) => Some(Piece(parts[0], color, kind))
        case _ => None
  }

  lemma Barred(id: string, color: string, kind: string, tail: string)
    requires tail == [BAR] + color + [BAR] + kind
    ensures id + [BAR] + color + [BAR] + kind == id + tail
  {
  }

  /** The four forms of a piece on the wire. */
  lemma WireFormat(id: string)
    ensures Encode(Some(Piece(id, White, Overling))) == id + "|white|overling"
    ensures Encode(Some(Piece(id, White, Underling))) == id + "|white|underling"
    ensures Encode(Some(Piece(id, Black, Overling))) == id + "|black|overling"
    ensures Encode(Some(Piece(id, Black, Underling))) == id + "|black|underling"
  {
    Barred(id, "white", "overling", "|white|overling");
    Barred(id, "white", "underling", "|white|underling");
    Barred(id, "black", "overling", "|black|overling");
    Barred(id, "black", "underling", "|black|underling");
  }

  predicate Encodable(p: Piece) { p.id != "" && BAR !in p.id }

  lemma {:induction false} SplitAtBar(s: string, t: string)
    requires BAR !in s
    ensures Split(s) == [s]
    ensures Split(s + [BAR] + t) == [s] + Split(t)
  {
    if s == "" {
      assert s + [BAR] + t == [BAR] + t;
    } else {
      SplitAtBar(s[1..], t);
      assert s == [s[0]] + s[1..];
      assert (s + [BAR] + t)[1..] == s[1..] + [BAR] + t;
    }
  }

  lemma {:induction false} SplitCountsBars(s: string, t: string)
    requires BAR in s
    ensures |Split(s + [BAR] + t)| >= 2 + |Split(t)|
  {
    assert s == [s[0]] + s[1..];
    assert (s + [BAR] + t)[1..] == s[1..] + [BAR] + t;
    if BAR in s[1..] {
      SplitCountsBars(s[1..], t);
    } else {
      SplitAtBar(s[1..], t);
    }
  }

  lemma JoinGrowsAtFront(c: char, parts: seq<string>)
    requires parts != []
    ensures Join([[c] + parts[0]] + parts[1..], [BAR]) == [c] + Join(parts, [BAR])
  {
    var grown := [[c] + parts[0]] + parts[1..];
    assert grown[1..] == parts[1..];
  }

  lemma {:induction false} JoinOfSplit(s: string)
    ensures Join(Split(s), [BAR]) == s
    ensures forall i :: 0 <= i < |Split(s)| ==> BAR !in Split(s)[i]
  {
    if s != "" {
      JoinOfSplit(s[1..]);
      var rest := Split(s[1..]);
      assert s == [s[0]] + s[1..];
      if s[0] == BAR {
        assert ([""] + rest)[1..] == rest;
        assert Join([""] + rest, [BAR]) == "" + [BAR] + Join(rest, [BAR]);
      } else {
        JoinGrowsAtFront(s[0], rest);
      }
    }
  }

  lemma NamesParse(color: Color, kind: Kind)
    ensures ParseColor(ColorName(color)) == Some(color) && ParseKind(KindName(kind)) == Some(kind)
    ensures BAR !in ColorName(color) && BAR !in KindName(kind)
  {
  }

  /** Decoding what was encoded gives the piece back exactly when its id is not empty and has no bar. */
  lemma DecodeOfEncode(c: Cell)
    ensures Decode(Encode(c)) == if c.Some? && Encodable(c.value) then c else None
  {
    hide ParseColor, ParseKind, ColorName, KindName;
    if c.Some? {
      NamesParse(c.value.color, c.value.kind);
      var id, color, kind := c.value.id, ColorName(c.value.color), KindName(c.value.kind);
      var tail := color + [BAR] + kind;
      assert Encode(c) == id + [BAR] + tail;
      SplitAtBar(color, kind);
      SplitAtBar(kind, "");
      assert Split(tail) == [color, kind];
      if BAR in id { SplitCountsBars(id, tail); } else { SplitAtBar(id, tail); }
    }
  }

  /** Every string that decodes to a piece is that piece's encoding, so no two strings decode to one piece. */
  lemma EncodeOfDecode(value: string)
    requires Decode(value).Some?
    ensures Encode(Decode(value)) == value && Encodable(Decode(value).value)
  {
    JoinOfSplit(value);
    var parts := Split(value);
    assert Join(parts, [BAR]) == parts[0] + [BAR] + (parts[1] + [BAR] + parts[2]) by {
      assert parts[1..][1..] == [parts[2]];
      assert Join(parts[1..], [BAR]) == parts[1] + [BAR] + Join([parts[2]], [BAR]);
    }
  }
}
