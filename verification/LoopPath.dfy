/** The circuit: a closed polyline with an arc-length table, and the pose on it at any distance. */
module LoopPath {
  import opened Arithmetic

  const SAMPLE_COUNT: nat := 2048
  const HARMONIC_2_AMPLITUDE := 0.08
  const HARMONIC_2_PHASE_RAD := 0.7
  const HARMONIC_3_AMPLITUDE := 0.05
  const HARMONIC_3_PHASE_RAD := 2.3

  /** The numeric library: pi and the functions the construction calls. */
  datatype Trig = Trig(pi: real, sin: real -> real, cos: real -> real,
                       atan2: (real, real) -> real, hypot: (real, real) -> real)

  ghost predicate UnitCircle(t: Trig) { forall a :: t.sin(a) * t.sin(a) + t.cos(a) * t.cos(a) == 1.0 }

  // Named so that the laws are used at the angles a proof mentions, and at no others.
  function Negated(a: real): real { -a }
  function Difference(a: real, b: real): real { a - b }
  function OneTurnOn(t: Trig, a: real): real { a + 2.0 * t.pi }

  ghost predicate OddEven(t: Trig) {
    forall a {:trigger Negated(a)} :: t.sin(Negated(a)) == -t.sin(a) && t.cos(Negated(a)) == t.cos(a)
  }

  ghost predicate Differences(t: Trig) {
    forall a, b {:trigger Difference(a, b)} ::
      && t.cos(Difference(a, b)) == t.cos(a) * t.cos(b) + t.sin(a) * t.sin(b)
      && t.sin(Difference(a, b)) == t.sin(a) * t.cos(b) - t.cos(a) * t.sin(b)
  }

  ghost predicate Periodic(t: Trig) {
    forall a {:trigger OneTurnOn(t, a)} ::
      t.sin(OneTurnOn(t, a)) == t.sin(a) && t.cos(OneTurnOn(t, a)) == t.cos(a)
  }

  ghost predicate Polar(t: Trig) {
    forall x, y ::
      && t.hypot(x, y) >= 0.0 && t.hypot(x, y) * t.hypot(x, y) == x * x + y * y
      && t.hypot(x, y) * t.cos(t.atan2(y, x)) == x && t.hypot(x, y) * t.sin(t.atan2(y, x)) == y
  }

  ghost predicate PositiveSines(t: Trig) { forall a :: 0.0 < a < t.pi ==> t.sin(a) > 0.0 }

  /** The laws of trigonometry that are relied on. */
  ghost predicate Lawful(t: Trig) {
    && t.pi > 0.0 && t.cos(0.0) == 1.0 && t.cos(t.pi) == -1.0
    && UnitCircle(t) && OddEven(t) && Differences(t) && Periodic(t) && PositiveSines(t) && Polar(t)
  }

  datatype Bounds = Bounds(minX: real, maxX: real, minZ: real, maxZ: real)
  datatype LoopTable = LoopTable(arcs: seq<real>, xs: seq<real>, zs: seq<real>, headings: seq<real>, bounds: Bounds)
  datatype LoopPose = LoopPose(x: real, z: real, headingRad: real)

  // ----- looking up a pose

  ghost predicate Rising(s: seq<real>) { forall i, j :: 0 <= i <= j < |s| ==> s[i] <= s[j] }

  /** The table describes a loop of the given length: arcs from 0 to the length, and one full turn. */
  ghost predicate Measures(table: LoopTable, circumferenceM: real, pi: real) {
    && |table.arcs| == |table.xs| == |table.zs| == |table.headings| >= 2
    && Rising(table.arcs) && table.arcs[0] == 0.0 && table.arcs[|table.arcs| - 1] == circumferenceM > 0.0
    && table.headings[0] == 0.0 && table.headings[|table.headings| - 1] == 2.0 * pi
  }

  /** The last index but one at most, with arcs[i] <= arc. */
  function Bracket(arcs: seq<real>, arc: real): (i: nat)
    requires |arcs| >= 2
    ensures i <= |arcs| - 2
  {
    if |arcs| == 2 || arcs[|arcs| - 2] <= arc then |arcs| - 2 else Bracket(arcs[..|arcs| - 1], arc)
  }

  /** It is the largest index with arcs[i] <= arc exactly when the arc is below the last entry. */
  lemma {:induction false} BracketBrackets(arcs: seq<real>, arc: real)
    requires |arcs| >= 2 && Rising(arcs) && arcs[0] <= arc
    ensures var i := Bracket(arcs, arc);
      && arcs[i] <= arc
      && (forall j :: i < j < |arcs| - 1 ==> arc < arcs[j])
      && (arc < arcs[|arcs| - 1] ==> arc < arcs[i + 1])
      && ((forall j :: i < j < |arcs| ==> arc < arcs[j]) <==> arc < arcs[|arcs| - 1])
  {
    if |arcs| > 2 && arc < arcs[|arcs| - 2] {
      var front := arcs[..|arcs| - 1];
      BracketBrackets(front, arc);
      var i := Bracket(front, arc);
      assert forall j :: 0 <= j < |front| ==> front[j] == arcs[j];
      assert forall j :: i < j < |front| - 1 ==> arc < front[j];
    }
  }

  /** At the end of a table of two entries the first index is found, though the second entry is not beyond the arc. */
  lemma LastIndexIsNotFound()
    ensures var arcs, arc := [0.0, 1.0], 1.0; Bracket(arcs, arc) == 0 && arcs[1] <= arc
  {
  }

  /** The binary search; on a rising table it finds the bracket, or the first index for an arc before the table. */
  method LowerIndex(arcs: seq<real>, arc: real) returns (lo: nat)
    ensures lo == 0 || (lo <= |arcs| - 2 && arcs[lo] <= arc)
    ensures lo < |arcs| - 2 ==> arc < arcs[lo + 1]
    ensures |arcs| >= 2 && Rising(arcs) ==> lo == if arcs[0] <= arc then Bracket(arcs, arc) else 0
  {
    lo := 0;
    var hi := |arcs| - 1;
    while lo + 1 < hi
      invariant hi <= |arcs| - 1 && (hi < |arcs| - 1 ==> 0 < hi && arc < arcs[hi])
      invariant lo == 0 || (lo < hi && arcs[lo] <= arc)
    {
      var mid := (lo + hi) / 2;
      if arcs[mid] <= arc { lo := mid; } else { hi := mid; }
    }
    if |arcs| >= 2 && Rising(arcs) && arcs[0] <= arc {
      BracketBrackets(arcs, arc);
    }
  }

  function Lerp(a: real, b: real, t: real): real { a + (b - a) * t }

  function Laps(arcLengthM: real, circumferenceM: real): int
    requires circumferenceM > 0.0
  {
    (arcLengthM / circumferenceM).Floor
  }

  function WithinLap(arcLengthM: real, circumferenceM: real): real
    requires circumferenceM > 0.0
  {
    arcLengthM - Laps(arcLengthM, circumferenceM) as real * circumferenceM
  }

  /** How far along the chord after sample i the arc is, from 0 to 1. */
  function Along(arcs: seq<real>, i: nat, arc: real): real
    requires i + 1 < |arcs|
  {
    var span := arcs[i + 1] - arcs[i];
    if span > 0.0 then (arc - arcs[i]) / span else 0.0
  }

  /** A column of the table, interpolated at an arc within the lap. */
  function At(column: seq<real>, arcs: seq<real>, arc: real): real
    requires |column| == |arcs| >= 2
  {
    var i := Bracket(arcs, arc);
    Lerp(column[i], column[i + 1], Along(arcs, i, arc))
  }

  /** The heading at a distance, growing by a turn a lap. */
  function Heading(table: LoopTable, arcLengthM: real, circumferenceM: real, turn: real): real
    requires |table.arcs| == |table.headings| >= 2 && circumferenceM > 0.0
  {
    At(table.headings, table.arcs, WithinLap(arcLengthM, circumferenceM)) +
    Turns(Laps(arcLengthM, circumferenceM) as real, turn)
  }

  function Turns(laps: real, turn: real): real { laps * turn }

  /** The point lateralM to the inside of a centreline point, along the normal of the heading there. */
  function Offset(t: Trig, x: real, z: real, heading: real, lateralM: real, headingRad: real): LoopPose {
    LoopPose(x - lateralM * t.sin(heading), z + lateralM * t.cos(heading), headingRad)
  }

  function Pose(table: LoopTable, t: Trig, arcLengthM: real, circumferenceM: real, lateralM: real): LoopPose
    requires |table.arcs| == |table.xs| == |table.zs| == |table.headings| >= 2 && circumferenceM > 0.0
  {
    var arc := WithinLap(arcLengthM, circumferenceM);
    var heading := At(table.headings, table.arcs, arc);
    Offset(t, At(table.xs, table.arcs, arc), At(table.zs, table.arcs, arc), heading, lateralM,
           Heading(table, arcLengthM, circumferenceM, 2.0 * t.pi))
  }

  lemma WithinLapBounds(a: real, c: real)
    requires c > 0.0
    ensures 0.0 <= WithinLap(a, c) < c
  {
    FloorRemainder(a, c, a / c, Laps(a, c) as real);
  }

  lemma LapArithmetic(a: real, c: real)
    requires c > 0.0
    ensures Laps(a + c, c) == Laps(a, c) + 1 && WithinLap(a + c, c) == WithinLap(a, c)
  {
    var q := a / c;
    assert (q + 1.0) * c == q * c + c;
    QuotientIs(a + c, c, q + 1.0);
    assert (q + 1.0).Floor == q.Floor + 1;
    assert (q.Floor as real + 1.0) * c == q.Floor as real * c + c;
  }

  lemma LapsMonotone(a: real, b: real, c: real)
    requires c > 0.0 && a <= b
    ensures Laps(a, c) <= Laps(b, c)
    ensures Laps(a, c) == Laps(b, c) ==> WithinLap(a, c) <= WithinLap(b, c)
  {
    assert (b - a) / c >= 0.0;
    assert b / c == a / c + (b - a) / c;
  }

  lemma AlongIsFraction(arcs: seq<real>, i: nat, arc: real)
    requires i + 1 < |arcs| && arcs[i] <= arc < arcs[i + 1]
    ensures 0.0 <= Along(arcs, i, arc) <= 1.0
    ensures Along(arcs, i, arc) * (arcs[i + 1] - arcs[i]) == arc - arcs[i]
  {
    var u, span := Along(arcs, i, arc), arcs[i + 1] - arcs[i];
    if u > 1.0 { ProductStrict(1.0, u, span); }
  }

  lemma LerpBetween(a: real, b: real, u: real)
    requires a <= b && 0.0 <= u <= 1.0
    ensures a <= Lerp(a, b, u) <= b
  {
    ProductNonNegative(b - a, u);
    ProductNonNegative(b - a, 1.0 - u);
    assert (b - a) * u + (b - a) * (1.0 - u) == b - a;
  }

  lemma LerpMonotone(a: real, b: real, u: real, v: real)
    requires a <= b && u <= v
    ensures Lerp(a, b, u) <= Lerp(a, b, v)
  {
    ProductNonNegative(b - a, v - u);
    assert (b - a) * v - (b - a) * u == (b - a) * (v - u);
  }

  /** One lap further on, the place is the same and the heading exactly one turn more. */
  lemma OneLapMore(table: LoopTable, t: Trig, a: real, c: real, lateralM: real)
    requires Measures(table, c, t.pi)
    ensures var p, q := Pose(table, t, a, c, lateralM), Pose(table, t, a + c, c, lateralM);
      q.x == p.x && q.z == p.z && q.headingRad == p.headingRad + 2.0 * t.pi
  {
    LapArithmetic(a, c);
    hide At, Laps, WithinLap, Turns;
    OneTurnMore(Laps(a, c) as real, Laps(a + c, c) as real, 2.0 * t.pi);
  }

  lemma OneTurnMore(n: real, n': real, turn: real)
    requires n' == n + 1.0
    ensures Turns(n', turn) == Turns(n, turn) + turn
  {
  }

  lemma AtFirstSample(column: seq<real>, arcs: seq<real>)
    requires |column| == |arcs| >= 2 && Rising(arcs) && arcs[0] == 0.0 < arcs[1]
    ensures At(column, arcs, 0.0) == column[0]
  {
    BracketBrackets(arcs, 0.0);
    assert Bracket(arcs, 0.0) == 0;
    AlongIsFraction(arcs, 0, 0.0);
    assert Along(arcs, 0, 0.0) == 0.0;
  }

  lemma SineOfZero(t: Trig)
    requires OddEven(t)
    ensures t.sin(0.0) == 0.0
  {
    assert Negated(0.0) == 0.0;
  }

  /** The start line: the first sample, shifted sideways only, heading zero. */
  lemma StartPose(table: LoopTable, t: Trig, c: real, lateralM: real)
    requires Measures(table, c, t.pi) && table.arcs[1] > 0.0 && Lawful(t)
    ensures Pose(table, t, 0.0, c, lateralM) == LoopPose(table.xs[0], table.zs[0] + lateralM, 0.0)
  {
    assert Laps(0.0, c) == 0 && WithinLap(0.0, c) == 0.0;
    SineOfZero(t);
    AtFirstSample(table.xs, table.arcs);
    AtFirstSample(table.zs, table.arcs);
    AtFirstSample(table.headings, table.arcs);
  }

  /** Interpolation stays between the samples it is between, whatever rises with the arc. */
  lemma AtIsBracketed(column: seq<real>, arcs: seq<real>, arc: real)
    requires |column| == |arcs| >= 2 && Rising(arcs) && Rising(column) && arcs[0] <= arc < arcs[|arcs| - 1]
    ensures var i := Bracket(arcs, arc); column[i] <= At(column, arcs, arc) <= column[i + 1]
    ensures column[0] <= At(column, arcs, arc) <= column[|column| - 1]
  {
    BracketBrackets(arcs, arc);
    var i := Bracket(arcs, arc);
    AlongIsFraction(arcs, i, arc);
    LerpBetween(column[i], column[i + 1], Along(arcs, i, arc));
  }

  lemma QuotientsRise(u: real, v: real, span: real, p: real, q: real)
    requires span > 0.0 && u * span == p && v * span == q && p <= q
    ensures u <= v
  {
    if v < u { ProductStrict(v, u, span); }
  }

  lemma AlongMonotone(arcs: seq<real>, i: nat, a: real, b: real)
    requires i + 1 < |arcs| && arcs[i] <= a <= b < arcs[i + 1]
    ensures Along(arcs, i, a) <= Along(arcs, i, b)
  {
    AlongIsFraction(arcs, i, a);
    AlongIsFraction(arcs, i, b);
    QuotientsRise(Along(arcs, i, a), Along(arcs, i, b), arcs[i + 1] - arcs[i], a - arcs[i], b - arcs[i]);
  }

  lemma AtRises(column: seq<real>, arcs: seq<real>, a: real, b: real)
    requires |column| == |arcs| >= 2 && Rising(arcs) && Rising(column)
    requires arcs[0] <= a <= b < arcs[|arcs| - 1]
    ensures At(column, arcs, a) <= At(column, arcs, b)
  {
    BracketBrackets(arcs, a);
    BracketBrackets(arcs, b);
    var i, j := Bracket(arcs, a), Bracket(arcs, b);
    if i == j {
      AlongMonotone(arcs, i, a, b);
      LerpMonotone(column[i], column[i + 1], Along(arcs, i, a), Along(arcs, i, b));
    } else {
      AtIsBracketed(column, arcs, a);
      AtIsBracketed(column, arcs, b);
      assert column[i + 1] <= column[j];
    }
  }

  lemma MoreLapsMoreTurns(m: real, n: real, turn: real)
    requires 0.0 < turn && m + 1.0 <= n
    ensures Turns(m, turn) + turn <= Turns(n, turn)
  {
    var more := n - m - 1.0;
    assert more * turn >= 0.0;
    assert m == n - more - 1.0;
    assert m * turn == n * turn - more * turn - turn;
  }

  lemma LaterLap(h: real, k: real, mt: real, nt: real, turn: real)
    requires h <= turn && 0.0 <= k && mt + turn <= nt
    ensures h + mt <= k + nt
  {
  }

  lemma LapHeading(table: LoopTable, c: real, a: real, pi: real)
    requires Measures(table, c, pi) && Rising(table.headings) && 0.0 <= a < c
    ensures 0.0 <= At(table.headings, table.arcs, a) <= 2.0 * pi
  {
    AtIsBracketed(table.headings, table.arcs, a);
  }

  /** On a loop that never turns back the heading never falls, over any number of laps. */
  lemma HeadingRises(table: LoopTable, c: real, a: real, b: real, pi: real)
    requires Measures(table, c, pi) && Rising(table.headings) && pi > 0.0 && a <= b
    ensures Heading(table, a, c, 2.0 * pi) <= Heading(table, b, c, 2.0 * pi)
  {
    WithinLapBounds(a, c);
    WithinLapBounds(b, c);
    LapsMonotone(a, b, c);
    var x, y := WithinLap(a, c), WithinLap(b, c);
    if Laps(a, c) == Laps(b, c) {
      AtRises(table.headings, table.arcs, x, y);
    } else {
      LapHeading(table, c, x, pi);
      LapHeading(table, c, y, pi);
      MoreLapsMoreTurns(Laps(a, c) as real, Laps(b, c) as real, 2.0 * pi);
      LaterLap(At(table.headings, table.arcs, x), At(table.headings, table.arcs, y),
               Turns(Laps(a, c) as real, 2.0 * pi), Turns(Laps(b, c) as real, 2.0 * pi), 2.0 * pi);
    }
  }

  lemma PoseHeadingRises(table: LoopTable, t: Trig, c: real, a: real, b: real, lateralM: real)
    requires Measures(table, c, t.pi) && Rising(table.headings) && t.pi > 0.0 && a <= b
    ensures Pose(table, t, a, c, lateralM).headingRad <= Pose(table, t, b, c, lateralM).headingRad
  {
    HeadingRises(table, c, a, b, t.pi);
  }

  /** Along the chord after sample i the column changes with the given slope per unit of arc. */
  predicate HasSlope(column: seq<real>, arcs: seq<real>, i: nat, slope: real)
    requires i + 1 < |column| == |arcs|
  {
    column[i + 1] - column[i] == (arcs[i + 1] - arcs[i]) * slope
  }

  /** Every chord is as long as its stretch of the arc table and points along its heading. */
  ghost predicate Traces(table: LoopTable, t: Trig) {
    && |table.arcs| == |table.xs| == |table.zs| == |table.headings|
    && forall i: nat :: i + 1 < |table.arcs| ==>
      && HasSlope(table.xs, table.arcs, i, t.cos(table.headings[i]))
      && HasSlope(table.zs, table.arcs, i, t.sin(table.headings[i]))
  }

  lemma ChordStep(x: real, x': real, arcs: seq<real>, i: nat, a: real, b: real, slope: real)
    requires i + 1 < |arcs| && arcs[i] <= a <= b < arcs[i + 1]
    requires x' - x == (arcs[i + 1] - arcs[i]) * slope
    ensures Lerp(x, x', Along(arcs, i, b)) - Lerp(x, x', Along(arcs, i, a)) == (b - a) * slope
  {
    AlongStep(arcs, i, a, b);
    LerpStep(x, x', Along(arcs, i, a), Along(arcs, i, b), arcs[i + 1] - arcs[i], slope, b - a);
  }

  lemma AlongStep(arcs: seq<real>, i: nat, a: real, b: real)
    requires i + 1 < |arcs| && arcs[i] <= a <= b < arcs[i + 1]
    ensures Along(arcs, i, b) * (arcs[i + 1] - arcs[i]) - Along(arcs, i, a) * (arcs[i + 1] - arcs[i]) == b - a
  {
    AlongIsFraction(arcs, i, a);
    AlongIsFraction(arcs, i, b);
  }

  lemma LerpStep(x: real, x': real, u: real, v: real, span: real, slope: real, way: real)
    requires x' - x == span * slope && v * span - u * span == way
    ensures Lerp(x, x', v) - Lerp(x, x', u) == way * slope
  {
    assert (x' - x) * v - (x' - x) * u == (x' - x) * (v - u);
    assert (v - u) * span == way;
    assert span * slope * (v - u) == (v - u) * span * slope;
  }

  lemma AtStep(column: seq<real>, arcs: seq<real>, i: nat, a: real, b: real, slope: real)
    requires i + 1 < |column| == |arcs| && HasSlope(column, arcs, i, slope)
    requires i == Bracket(arcs, a) && i == Bracket(arcs, b) && arcs[i] <= a <= b < arcs[i + 1]
    ensures At(column, arcs, b) - At(column, arcs, a) == (b - a) * slope
  {
    ChordStep(column[i], column[i + 1], arcs, i, a, b, slope);
    assert At(column, arcs, a) == Lerp(column[i], column[i + 1], Along(arcs, i, a));
    assert At(column, arcs, b) == Lerp(column[i], column[i + 1], Along(arcs, i, b));
  }

  lemma BracketPair(arcs: seq<real>, i: nat, a: real, b: real)
    requires |arcs| >= 2 && Rising(arcs) && arcs[0] <= a <= b < arcs[|arcs| - 1]
    requires i == Bracket(arcs, a) && i == Bracket(arcs, b)
    ensures i + 1 < |arcs| && arcs[i] <= a <= b < arcs[i + 1]
  {
    BracketBrackets(arcs, a);
    BracketBrackets(arcs, b);
  }

  /** On one chord a column with a slope changes by the slope times the way. */
  lemma ColumnSpeed(column: seq<real>, arcs: seq<real>, i: nat, a: real, b: real, slope: real)
    requires |column| == |arcs| >= 2 && Rising(arcs) && arcs[0] <= a <= b < arcs[|arcs| - 1]
    requires i == Bracket(arcs, a) && i == Bracket(arcs, b) && HasSlope(column, arcs, i, slope)
    ensures At(column, arcs, b) - At(column, arcs, a) == (b - a) * slope
  {
    BracketPair(arcs, i, a, b);
    AtStep(column, arcs, i, a, b, slope);
  }

  /** Both distances are on the i-th chord of one lap. */
  predicate OnChord(arcs: seq<real>, i: nat, a: real, b: real, c: real)
    requires |arcs| >= 2 && c > 0.0
  {
    && a <= b && Laps(a, c) == Laps(b, c)
    && Bracket(arcs, WithinLap(a, c)) == i == Bracket(arcs, WithinLap(b, c))
  }

  /**
   * Between two distances on one chord, on any lap, the centreline pose moves exactly that way in the
   * direction of the chord's heading: it is travelled at unit speed, the way the table says.
   */
  lemma UnitSpeed(table: LoopTable, t: Trig, c: real, i: nat, a: real, b: real)
    requires Measures(table, c, t.pi) && Traces(table, t) && OnChord(table.arcs, i, a, b, c)
    ensures var p, q := Pose(table, t, a, c, 0.0), Pose(table, t, b, c, 0.0);
      q.x - p.x == (b - a) * t.cos(table.headings[i]) && q.z - p.z == (b - a) * t.sin(table.headings[i])
  {
    hide HasSlope, At, Bracket, WithinLap, Laps, Pose, Rising;
    OnChordIsIndex(table.arcs, i, a, b, c);
    OnLap(table.xs, table.arcs, i, a, b, c, t.cos(table.headings[i]));
    OnLap(table.zs, table.arcs, i, a, b, c, t.sin(table.headings[i]));
    CentrelinePose(table, t, a, c);
    CentrelinePose(table, t, b, c);
  }

  lemma OnChordIsIndex(arcs: seq<real>, i: nat, a: real, b: real, c: real)
    requires |arcs| >= 2 && c > 0.0 && OnChord(arcs, i, a, b, c)
    ensures i + 1 < |arcs|
  {
  }

  lemma CentrelinePose(table: LoopTable, t: Trig, a: real, c: real)
    requires |table.arcs| == |table.xs| == |table.zs| == |table.headings| >= 2 && c > 0.0
    ensures var p := Pose(table, t, a, c, 0.0);
      p.x == At(table.xs, table.arcs, WithinLap(a, c)) && p.z == At(table.zs, table.arcs, WithinLap(a, c))
  {
    hide At, WithinLap, Heading;
  }

  /** A column with a slope on the chord changes by the slope times the way, on any lap. */
  lemma OnLap(column: seq<real>, arcs: seq<real>, i: nat, a: real, b: real, c: real, slope: real)
    requires |column| == |arcs| >= 2 && Rising(arcs) && arcs[0] == 0.0 && arcs[|arcs| - 1] == c > 0.0
    requires i + 1 < |arcs| && HasSlope(column, arcs, i, slope) && OnChord(arcs, i, a, b, c)
    ensures At(column, arcs, WithinLap(b, c)) - At(column, arcs, WithinLap(a, c)) == (b - a) * slope
  {
    WithinLapBounds(a, c);
    WithinLapBounds(b, c);
    LapsMonotone(a, b, c);
    var x, y := WithinLap(a, c), WithinLap(b, c);
    ColumnSpeed(column, arcs, i, x, y, slope);
    hide At, Bracket, HasSlope, Rising;
    SameWay(a, b, x, y, Laps(a, c) as real * c, slope);
  }

  lemma SameWay(a: real, b: real, x: real, y: real, lapsM: real, slope: real)
    requires x == a - lapsM && y == b - lapsM
    ensures (y - x) * slope == (b - a) * slope
  {
  }

  /** On the centreline of the first lap the pose is the interpolated sample. */
  lemma FirstLap(table: LoopTable, t: Trig, a: real, c: real)
    requires Measures(table, c, t.pi) && 0.0 <= a < c
    ensures Pose(table, t, a, c, 0.0) ==
            LoopPose(At(table.xs, table.arcs, a), At(table.zs, table.arcs, a), At(table.headings, table.arcs, a))
  {
    var q := a / c;
    assert q * c == a;
    if q >= 1.0 { ProductMonotone(1.0, q, c); }
    assert Laps(a, c) == 0 && WithinLap(a, c) == a;
  }

  lemma {:induction false} FullTurns(t: Trig, a: real, b: real, k: nat)
    requires Periodic(t) && b == a + k as real * (2.0 * t.pi)
    ensures t.sin(b) == t.sin(a) && t.cos(b) == t.cos(a)
    decreases k
  {
    if k > 0 {
      var c := b - 2.0 * t.pi;
      assert OneTurnOn(t, c) == b;
      Distribute((k - 1) as real, 1.0, k as real, 2.0 * t.pi);
      FullTurns(t, a, c, k - 1);
    }
  }

  /** Whole turns either way do not change a direction. */
  lemma WholeTurns(t: Trig, a: real, b: real, k: int)
    requires Periodic(t) && b == a + Turns(k as real, 2.0 * t.pi)
    ensures t.sin(b) == t.sin(a) && t.cos(b) == t.cos(a)
  {
    if k >= 0 {
      FullTurns(t, a, b, k);
    } else {
      assert (-k) as real * (2.0 * t.pi) == -(k as real * (2.0 * t.pi));
      FullTurns(t, b, a, -k);
    }
  }

  /** The vector from (x, z) to (x', z') is the lateral offset along the inward normal of the heading. */
  predicate Sideways(t: Trig, p: LoopPose, q: LoopPose, lateralM: real) {
    var dx, dz, c, s := q.x - p.x, q.z - p.z, t.cos(p.headingRad), t.sin(p.headingRad);
    && q.headingRad == p.headingRad
    && c * dx + s * dz == 0.0
    && c * dz - s * dx == lateralM
    && dx * dx + dz * dz == lateralM * lateralM
  }

  lemma NormalOffset(c: real, s: real, l: real, dx: real, dz: real)
    requires s * s + c * c == 1.0 && dx == -(l * s) && dz == l * c
    ensures c * dx + s * dz == 0.0 && c * dz - s * dx == l && dx * dx + dz * dz == l * l
  {
    assert c * dz - s * dx == l * (s * s + c * c);
    assert dx * dx + dz * dz == l * l * (s * s + c * c);
  }

  /**
   * At every distance a lateral offset leads straight off the direction of travel, by exactly the offset, to
   * the inside for a positive one: with the heading from +x towards +z, that is a quarter turn further on.
   */
  lemma LateralIsSideways(table: LoopTable, t: Trig, a: real, c: real, lateralM: real)
    requires |table.arcs| == |table.xs| == |table.zs| == |table.headings| >= 2 && c > 0.0
    requires UnitCircle(t) && Periodic(t)
    ensures Sideways(t, Pose(table, t, a, c, 0.0), Pose(table, t, a, c, lateralM), lateralM)
  {
    var arc := WithinLap(a, c);
    var h, x, z := At(table.headings, table.arcs, arc), At(table.xs, table.arcs, arc), At(table.zs, table.arcs, arc);
    var heading := Heading(table, a, c, 2.0 * t.pi);
    WholeTurns(t, h, heading, Laps(a, c));
    hide At, WithinLap, Laps, Turns, Heading;
    OffsetIsSideways(t, x, z, h, lateralM, heading);
  }

  lemma OffsetIsSideways(t: Trig, x: real, z: real, h: real, lateralM: real, heading: real)
    requires UnitCircle(t) && t.sin(heading) == t.sin(h) && t.cos(heading) == t.cos(h)
    ensures Sideways(t, Offset(t, x, z, h, 0.0, heading), Offset(t, x, z, h, lateralM, heading), lateralM)
  {
    var p, q := Offset(t, x, z, h, 0.0, heading), Offset(t, x, z, h, lateralM, heading);
    assert t.sin(h) * t.sin(h) + t.cos(h) * t.cos(h) == 1.0;
    hide UnitCircle;
    NormalOffset(t.cos(h), t.sin(h), lateralM, q.x - p.x, q.z - p.z);
  }

  /** In a lane, besides, the way along a chord is that on the centreline and what the turn of the normal adds. */
  lemma LaneMoves(table: LoopTable, t: Trig, c: real, i: nat, a: real, b: real, lateralM: real)
    requires Measures(table, c, t.pi) && Traces(table, t) && OnChord(table.arcs, i, a, b, c) && Periodic(t)
    ensures var p, q := Pose(table, t, a, c, lateralM), Pose(table, t, b, c, lateralM);
      && q.x - p.x == (b - a) * t.cos(table.headings[i]) - lateralM * (t.sin(q.headingRad) - t.sin(p.headingRad))
      && q.z - p.z == (b - a) * t.sin(table.headings[i]) + lateralM * (t.cos(q.headingRad) - t.cos(p.headingRad))
  {
    hide Traces, OnChord, Pose, Periodic, Rising;
    UnitSpeed(table, t, c, i, a, b);
    InLane(table, t, a, c, lateralM);
    InLane(table, t, b, c, lateralM);
    var p, q := Pose(table, t, a, c, lateralM), Pose(table, t, b, c, lateralM);
    DifferenceOf(lateralM, t.sin(q.headingRad), t.sin(p.headingRad));
    DifferenceOf(lateralM, t.cos(q.headingRad), t.cos(p.headingRad));
  }

  lemma DifferenceOf(l: real, x: real, y: real)
    ensures l * (x - y) == l * x - l * y
  {
  }

  lemma InLane(table: LoopTable, t: Trig, a: real, c: real, lateralM: real)
    requires |table.arcs| == |table.xs| == |table.zs| == |table.headings| >= 2 && c > 0.0 && Periodic(t)
    ensures var p, q := Pose(table, t, a, c, 0.0), Pose(table, t, a, c, lateralM);
      && q.x == p.x - lateralM * t.sin(q.headingRad) && q.z == p.z + lateralM * t.cos(q.headingRad)
  {
    var h := At(table.headings, table.arcs, WithinLap(a, c));
    WholeTurns(t, h, Heading(table, a, c, 2.0 * t.pi), Laps(a, c));
    hide At, WithinLap, Laps, Turns, Heading, Periodic;
  }

  /** At a sample the centreline pose is that sample. */
  lemma PoseAtSample(table: LoopTable, t: Trig, c: real, i: nat)
    requires Measures(table, c, t.pi) && i + 1 < |table.arcs| && table.arcs[i] < table.arcs[i + 1]
    ensures Pose(table, t, table.arcs[i], c, 0.0) == LoopPose(table.xs[i], table.zs[i], table.headings[i])
  {
    var a := table.arcs[i];
    assert table.arcs[0] <= a && table.arcs[i + 1] <= table.arcs[|table.arcs| - 1];
    FirstLap(table, t, a, c);
    AtSample(table.xs, table.arcs, i);
    AtSample(table.zs, table.arcs, i);
    AtSample(table.headings, table.arcs, i);
    hide At, Pose;
  }

  lemma NotLater(arcs: seq<real>, i: nat, j: nat)
    requires Rising(arcs) && i + 1 < |arcs| && j < |arcs| && arcs[j] <= arcs[i] < arcs[i + 1]
    ensures j <= i
  {
  }

  lemma AtSample(column: seq<real>, arcs: seq<real>, i: nat)
    requires |column| == |arcs| >= 2 && Rising(arcs) && i + 1 < |arcs| && arcs[i] < arcs[i + 1]
    ensures At(column, arcs, arcs[i]) == column[i]
  {
    BracketBrackets(arcs, arcs[i]);
    var j := Bracket(arcs, arcs[i]);
    NotLater(arcs, i, j);
    assert i <= j;
    assert Along(arcs, i, arcs[i]) == 0.0;
  }

  /** Along a chord the heading turns evenly. */
  lemma HeadingTurnsEvenly(table: LoopTable, t: Trig, c: real, i: nat, a: real, b: real)
    requires Measures(table, c, t.pi) && OnChord(table.arcs, i, a, b, c) && i + 1 < |table.arcs|
    requires table.arcs[i] < table.arcs[i + 1]
    ensures var turned := Pose(table, t, b, c, 0.0).headingRad - Pose(table, t, a, c, 0.0).headingRad;
      turned * (table.arcs[i + 1] - table.arcs[i]) == (b - a) * (table.headings[i + 1] - table.headings[i])
  {
    hide Pose, HasSlope, OnChord, Rising;
    var span, delta := table.arcs[i + 1] - table.arcs[i], table.headings[i + 1] - table.headings[i];
    var slope := SlopeOf(table.headings, table.arcs, i, span, delta);
    TurnsWithSlope(table, t, c, i, a, b, slope);
    Rescaled(Pose(table, t, b, c, 0.0).headingRad - Pose(table, t, a, c, 0.0).headingRad, b - a, slope, span, delta);
  }

  lemma SlopeOf(column: seq<real>, arcs: seq<real>, i: nat, span: real, delta: real) returns (slope: real)
    requires i + 1 < |column| == |arcs| && span == arcs[i + 1] - arcs[i] > 0.0 && delta == column[i + 1] - column[i]
    ensures span * slope == delta && HasSlope(column, arcs, i, slope)
  {
    slope := delta / span;
  }

  lemma TurnsWithSlope(table: LoopTable, t: Trig, c: real, i: nat, a: real, b: real, slope: real)
    requires Measures(table, c, t.pi) && i + 1 < |table.arcs| && OnChord(table.arcs, i, a, b, c)
    requires HasSlope(table.headings, table.arcs, i, slope)
    ensures Pose(table, t, b, c, 0.0).headingRad - Pose(table, t, a, c, 0.0).headingRad == (b - a) * slope
  {
    hide Pose, HasSlope, Rising, At, Bracket, WithinLap;
    OnLap(table.headings, table.arcs, i, a, b, c, slope);
    TurnedOnLap(table, t, c, a, b);
  }

  lemma TurnedOnLap(table: LoopTable, t: Trig, c: real, a: real, b: real)
    requires |table.arcs| == |table.xs| == |table.zs| == |table.headings| >= 2 && c > 0.0 && Laps(a, c) == Laps(b, c)
    ensures Pose(table, t, b, c, 0.0).headingRad - Pose(table, t, a, c, 0.0).headingRad ==
            At(table.headings, table.arcs, WithinLap(b, c)) - At(table.headings, table.arcs, WithinLap(a, c))
  {
    hide At, WithinLap, Laps, Turns;
  }

  lemma Rescaled(turned: real, way: real, slope: real, span: real, delta: real)
    requires turned == way * slope && span * slope == delta
    ensures turned * span == way * delta
  {
    assert turned * span == way * (span * slope);
  }

  method PoseOn(table: LoopTable, t: Trig, arcLengthM: real, circumferenceM: real, lateralM: real)
    returns (pose: LoopPose)
    requires Measures(table, circumferenceM, t.pi)
    ensures pose == Pose(table, t, arcLengthM, circumferenceM, lateralM)
  {
    hide Lerp, Bracket, Along;
    var laps := Laps(arcLengthM, circumferenceM);
    var arc := arcLengthM - laps as real * circumferenceM;
    WithinLapBounds(arcLengthM, circumferenceM);
    var i := LowerIndex(table.arcs, arc);
    var u := Along(table.arcs, i, arc);
    var x := Lerp(table.xs[i], table.xs[i + 1], u);
    var z := Lerp(table.zs[i], table.zs[i + 1], u);
    var heading := Lerp(table.headings[i], table.headings[i + 1], u);
    assert arc == WithinLap(arcLengthM, circumferenceM);
    assert heading == At(table.headings, table.arcs, arc);
    assert x == At(table.xs, table.arcs, arc);
    assert z == At(table.zs, table.arcs, arc);
    pose := Offset(t, x, z, heading, lateralM, heading + Turns(laps as real, 2.0 * t.pi));
  }
}
