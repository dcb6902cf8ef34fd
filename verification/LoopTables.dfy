/** Building and caching the arc-length tables of the circuit. */
module LoopTables {
  import opened Arithmetic
  import opened LoopPath

  // ----- the unscaled curve, sampled at n + 1 angles from 0 to a full turn

  function Phi(t: Trig, n: nat, i: nat): real
    requires n > 0
  {
    i as real / n as real * 2.0 * t.pi
  }

  function RadiusAt(t: Trig, phi: real): real {
    1.0 + HARMONIC_2_AMPLITUDE * t.sin(2.0 * phi + HARMONIC_2_PHASE_RAD)
        + HARMONIC_3_AMPLITUDE * t.sin(3.0 * phi + HARMONIC_3_PHASE_RAD)
  }

  function U(t: Trig, n: nat, i: nat): real
    requires n > 0
  {
    RadiusAt(t, Phi(t, n, i)) * t.cos(Phi(t, n, i))
  }

  function V(t: Trig, n: nat, i: nat): real
    requires n > 0
  {
    RadiusAt(t, Phi(t, n, i)) * t.sin(Phi(t, n, i))
  }

  /** The length of the chord from sample i - 1 to sample i. */
  function Chord(t: Trig, us: seq<real>, vs: seq<real>, i: nat): real
    requires 0 < i < |us| == |vs|
  {
    t.hypot(us[i] - us[i - 1], vs[i] - vs[i - 1])
  }

  /** The length of the polyline up to sample i. */
  function Length(t: Trig, us: seq<real>, vs: seq<real>, i: nat): real
    requires i < |us| == |vs|
  {
    if i == 0 then 0.0 else Length(t, us, vs, i - 1) + Chord(t, us, vs, i)
  }

  lemma SineBound(t: Trig, a: real)
    requires UnitCircle(t)
    ensures -1.0 <= t.sin(a) <= 1.0
  {
    var s := t.sin(a);
    assert t.cos(a) * t.cos(a) >= 0.0;
    assert s * s <= 1.0;
    if s > 1.0 { ProductStrict(1.0, s, s); }
    if s < -1.0 { ProductStrict(1.0, -s, -s); }
  }

  lemma RadiusIsPositive(t: Trig, phi: real)
    requires UnitCircle(t)
    ensures RadiusAt(t, phi) > 0.0
  {
    SineBound(t, 2.0 * phi + HARMONIC_2_PHASE_RAD);
    SineBound(t, 3.0 * phi + HARMONIC_3_PHASE_RAD);
  }

  lemma {:induction false} LengthRises(t: Trig, us: seq<real>, vs: seq<real>, i: nat, j: nat)
    requires Polar(t) && i <= j < |us| == |vs|
    ensures Length(t, us, vs, i) <= Length(t, us, vs, j)
    decreases j
  {
    if i < j { LengthRises(t, us, vs, i, j - 1); }
  }

  lemma ZeroChord(t: Trig, us: seq<real>, vs: seq<real>, i: nat)
    requires Polar(t) && 0 < i < |us| == |vs| && Chord(t, us, vs, i) == 0.0
    ensures us[i] == us[i - 1]
  {
  }

  lemma {:induction false} ZeroLengthIsAPoint(t: Trig, us: seq<real>, vs: seq<real>, i: nat)
    requires Polar(t) && i < |us| == |vs| && Length(t, us, vs, i) == 0.0
    ensures us[i] == us[0]
  {
    if i > 0 {
      LengthRises(t, us, vs, 0, i - 1);
      assert Chord(t, us, vs, i) >= 0.0;
      ZeroChord(t, us, vs, i);
      ZeroLengthIsAPoint(t, us, vs, i - 1);
    }
  }

  lemma PhiAtQuarters(t: Trig, n: nat)
    requires n > 0
    ensures Phi(t, n, 0) == 0.0 && Phi(t, n, n) == 2.0 * t.pi
    ensures n % 2 == 0 ==> Phi(t, n, n / 2) == t.pi
  {
    QuotientIs(0.0, n as real, 0.0);
    QuotientIs(n as real, n as real, 1.0);
    if n % 2 == 0 { QuotientIs((n / 2) as real, n as real, 0.5); }
  }

  lemma OppositeSides(t: Trig, n: nat)
    requires UnitCircle(t) && t.cos(0.0) == 1.0 && t.cos(t.pi) == -1.0 && n > 0 && n % 2 == 0
    ensures U(t, n, n / 2) < 0.0 < U(t, n, 0)
  {
    PhiAtQuarters(t, n);
    RadiusIsPositive(t, 0.0);
    RadiusIsPositive(t, t.pi);
  }

  /** A polyline that gets from one side to the other is no point. */
  lemma LengthIsPositive(t: Trig, us: seq<real>, vs: seq<real>, i: nat, n: nat)
    requires Polar(t) && i <= n < |us| == |vs| && us[i] < 0.0 < us[0]
    ensures Length(t, us, vs, n) > 0.0
  {
    LengthRises(t, us, vs, 0, i);
    LengthRises(t, us, vs, i, n);
    if Length(t, us, vs, i) == 0.0 { ZeroLengthIsAPoint(t, us, vs, i); }
  }

  /** The second sample lies off the first one: above it, or opposite it when there are only two. */
  lemma FirstStep(t: Trig, n: nat)
    requires Lawful(t) && n > 0 && n % 2 == 0
    ensures U(t, n, 1) != U(t, n, 0) || V(t, n, 1) != V(t, n, 0)
  {
    PhiAtQuarters(t, n);
    if n == 2 {
      OppositeSides(t, n);
    } else {
      var phi := Phi(t, n, 1);
      SmallAngle(n as real, t.pi, phi);
      SineOfZero(t);
      RadiusIsPositive(t, phi);
      Positive(RadiusAt(t, phi), t.sin(phi));
    }
  }

  lemma Positive(a: real, b: real)
    requires a > 0.0 && b > 0.0
    ensures a * b > 0.0
  {
  }

  lemma SmallAngle(n: real, pi: real, phi: real)
    requires n >= 4.0 && pi > 0.0 && phi == 1.0 / n * 2.0 * pi
    ensures 0.0 < phi < pi
  {
    var q := 1.0 / n;
    assert q * n == 1.0;
    if q <= 0.0 { ProductMonotone(q, 0.0, n); }
    if q >= 0.5 { ProductMonotone(0.5, q, n); }
    Positive(q, pi);
    ProductStrict(q, 0.5, pi);
    assert q * 2.0 * pi == q * pi + q * pi;
  }

  lemma FirstChordIsPositive(t: Trig, us: seq<real>, vs: seq<real>)
    requires Polar(t) && |us| == |vs| >= 2 && (us[1] != us[0] || vs[1] != vs[0])
    ensures Length(t, us, vs, 1) > 0.0
  {
    var du, dv := us[1] - us[0], vs[1] - vs[0];
    assert Length(t, us, vs, 0) == 0.0;
    HypotIsLongest(t, du, dv);
    hide Polar;
  }

  lemma SquareNonNegative(x: real)
    ensures x * x >= 0.0
  {
  }

  /** A hypotenuse is no shorter than a side. */
  lemma LongerThanSide(d: real, e: real, h: real)
    requires h >= 0.0 && h * h == d * d + e * e
    ensures h >= d && h >= -d
  {
    SquareNonNegative(e);
    assert (-d) * (-d) == d * d;
    if h < d { SquareStrict(h, d); }
    if h < -d { SquareStrict(h, -d); }
  }

  lemma HypotIsLongest(t: Trig, x: real, y: real)
    requires Polar(t)
    ensures t.hypot(x, y) >= x && t.hypot(x, y) >= -x && t.hypot(x, y) >= y && t.hypot(x, y) >= -y
  {
    LongerThanSide(x, y, t.hypot(x, y));
    LongerThanSide(y, x, t.hypot(x, y));
  }

  /** The last sample is the first one again. */
  lemma CurveCloses(t: Trig, n: nat)
    requires Periodic(t) && n > 0
    ensures U(t, n, n) == U(t, n, 0) && V(t, n, n) == V(t, n, 0)
  {
    PhiAtQuarters(t, n);
    FullTurns(t, 0.0, 2.0 * t.pi, 1);
    FullTurns(t, 2.0 * 0.0 + HARMONIC_2_PHASE_RAD, 2.0 * (2.0 * t.pi) + HARMONIC_2_PHASE_RAD, 2);
    FullTurns(t, 3.0 * 0.0 + HARMONIC_3_PHASE_RAD, 3.0 * (2.0 * t.pi) + HARMONIC_3_PHASE_RAD, 3);
    assert RadiusAt(t, 2.0 * t.pi) == RadiusAt(t, 0.0);
  }

  // ----- scaling, headings, anchoring

  lemma SameSquare(a: real, b: real)
    requires a >= 0.0 && b >= 0.0 && a * a == b * b
    ensures a == b
  {
    if a < b { SquareStrict(a, b); }
    if b < a { SquareStrict(b, a); }
  }

  /** A homothety scales every chord. */
  lemma HypotScales(t: Trig, x: real, y: real, k: real)
    requires Polar(t) && k >= 0.0
    ensures t.hypot(x * k, y * k) == t.hypot(x, y) * k
  {
    var h, g := t.hypot(x, y), t.hypot(x * k, y * k);
    ProductNonNegative(h, k);
    assert g * g == (x * k) * (x * k) + (y * k) * (y * k) == (x * x + y * y) * (k * k);
    assert (h * k) * (h * k) == (h * h) * (k * k);
    SameSquare(g, h * k);
  }

  lemma Rotation(h: real, cosA: real, sinA: real, cosB: real, sinB: real)
    ensures h * cosA * cosB - h * sinA * (-sinB) == h * (cosA * cosB + sinA * sinB)
    ensures h * cosA * (-sinB) + h * sinA * cosB == h * (sinA * cosB - cosA * sinB)
  {
  }

  /** A chord of length h in direction raw, turned back by start. */
  lemma TurnedBack(t: Trig, h: real, raw: real, start: real)
    requires t.cos(-start) == t.cos(start) && t.sin(-start) == -t.sin(start)
    requires t.cos(raw - start) == t.cos(raw) * t.cos(start) + t.sin(raw) * t.sin(start)
    requires t.sin(raw - start) == t.sin(raw) * t.cos(start) - t.cos(raw) * t.sin(start)
    ensures h * t.cos(raw) * t.cos(-start) - h * t.sin(raw) * t.sin(-start) == h * t.cos(raw - start)
    ensures h * t.cos(raw) * t.sin(-start) + h * t.sin(raw) * t.cos(-start) == h * t.sin(raw - start)
  {
    Rotation(h, t.cos(raw), t.sin(raw), t.cos(start), t.sin(start));
  }

  /** u is h but for whole turns. */
  ghost predicate SameDirection(t: Trig, u: real, h: real) {
    t.sin(u) == t.sin(h) && t.cos(u) == t.cos(h)
  }

  /** How many whole turns fit into x, and one more. */
  function TurnsOver(x: real, turn: real): int
    requires turn > 0.0
  {
    (x / turn).Floor + 1
  }

  lemma TurnsOverCovers(x: real, turn: real)
    requires turn > 0.0
    ensures x < TurnsOver(x, turn) as real * turn
  {
    var n := (x / turn).Floor as real;
    RemainderBelow(x, turn, x / turn, n);
    Distribute(n, 1.0, n + 1.0, turn);
  }

  lemma OneTurnLess(k: int, turn: real, x: real)
    requires turn > 0.0 && 0.0 <= x < k as real * turn
    ensures k > 0 && x - turn < (k - 1) as real * turn
  {
    if k <= 0 { ProductMonotone(k as real, 0.0, turn); }
    Distribute((k - 1) as real, 1.0, k as real, turn);
  }

  /** Adds whole turns until h is at least lo. */
  method Raise(t: Trig, h: real, lo: real) returns (u: real)
    requires Periodic(t) && t.pi > 0.0
    ensures SameDirection(t, u, h) && lo <= u && (u == h || u < lo + 2.0 * t.pi)
  {
    ghost var turn := 2.0 * t.pi;
    u := h;
    ghost var k := TurnsOver(lo - u, turn);
    TurnsOverCovers(lo - u, turn);
    while u < lo
      invariant SameDirection(t, u, h) && (u == h || u < lo + turn)
      invariant lo - u < k as real * turn
      decreases k
    {
      OneTurnLess(k, turn, lo - u);
      assert OneTurnOn(t, u) == u + 2.0 * t.pi;
      u, k := u + 2.0 * t.pi, k - 1;
    }
  }

  /** Takes whole turns off until h is at most hi. */
  method Lower(t: Trig, h: real, hi: real) returns (u: real)
    requires Periodic(t) && t.pi > 0.0
    ensures SameDirection(t, u, h) && u <= hi && (u == h || hi - 2.0 * t.pi < u)
  {
    ghost var turn := 2.0 * t.pi;
    u := h;
    ghost var k := TurnsOver(u - hi, turn);
    TurnsOverCovers(u - hi, turn);
    while u > hi
      invariant SameDirection(t, u, h) && (u == h || hi - turn < u)
      invariant u - hi < k as real * turn
      decreases k
    {
      OneTurnLess(k, turn, u - hi);
      assert OneTurnOn(t, u - 2.0 * t.pi) == u;
      u, k := u - 2.0 * t.pi, k - 1;
    }
  }

  /** Adds or takes whole turns until h is within half a turn of prev. */
  method Unwrap(t: Trig, h: real, prev: real) returns (u: real)
    requires Periodic(t) && t.pi > 0.0
    ensures SameDirection(t, u, h) && prev - t.pi <= u <= prev + t.pi
  {
    u := Raise(t, h, prev - t.pi);
    u := Lower(t, u, prev + t.pi);
  }

  // ----- the table

  /** The samples are the points of the curve. */
  predicate OnCurve(t: Trig, n: nat, us: seq<real>, vs: seq<real>)
    requires n > 0 && |us| == |vs| == n + 1
  {
    && (forall i: nat {:trigger U(t, n, i)} :: i <= n ==> us[i] == U(t, n, i))
    && (forall i: nat {:trigger V(t, n, i)} :: i <= n ==> vs[i] == V(t, n, i))
  }

  lemma CurveIsALoop(t: Trig, n: nat, us: seq<real>, vs: seq<real>)
    requires Lawful(t) && n > 0 && n % 2 == 0 && |us| == |vs| == n + 1 && OnCurve(t, n, us, vs)
    ensures us[n] == us[0] && vs[n] == vs[0] && us[n / 2] < 0.0 < us[0]
    ensures us[1] != us[0] || vs[1] != vs[0]
  {
    CurveCloses(t, n);
    OppositeSides(t, n);
    FirstStep(t, n);
  }

  method Points(t: Trig, n: nat) returns (us: array<real>, vs: array<real>)
    requires n > 0
    ensures fresh(us) && fresh(vs) && us != vs && us.Length == vs.Length == n + 1
    ensures OnCurve(t, n, us[..], vs[..])
  {
    us, vs := new real[n + 1], new real[n + 1];
    for i := 0 to n + 1
      invariant forall j :: 0 <= j < i ==> us[j] == U(t, n, j)
      invariant forall j :: 0 <= j < i ==> vs[j] == V(t, n, j)
    {
      us[i] := U(t, n, i);
      vs[i] := V(t, n, i);
    }
  }

  ghost predicate AreLengths(t: Trig, us: seq<real>, vs: seq<real>, arcs: seq<real>) {
    |us| == |vs| == |arcs| && forall i :: 0 <= i < |arcs| ==> arcs[i] == Length(t, us, vs, i)
  }

  method ArcLengths(t: Trig, us: seq<real>, vs: seq<real>) returns (arcs: array<real>)
    requires |us| == |vs|
    ensures fresh(arcs) && AreLengths(t, us, vs, arcs[..])
  {
    arcs := new real[|us|];
    for i := 0 to |us|
      invariant forall j :: 0 <= j < i ==> arcs[j] == Length(t, us, vs, j)
    {
      if i > 0 {
        arcs[i] := arcs[i - 1] + Chord(t, us, vs, i);
      } else {
        arcs[i] := 0.0;
      }
    }
  }

  predicate IsScaled(s: seq<real>, r: seq<real>, scale: real) {
    |r| == |s| && forall i :: 0 <= i < |s| ==> r[i] == s[i] * scale
  }

  method Rescale(us: array<real>, vs: array<real>, arcs: array<real>, scale: real)
    requires us != vs && vs != arcs && us != arcs && us.Length == vs.Length == arcs.Length
    modifies us, vs, arcs
    ensures IsScaled(old(us[..]), us[..], scale)
    ensures IsScaled(old(vs[..]), vs[..], scale)
    ensures IsScaled(old(arcs[..]), arcs[..], scale)
  {
    for i := 0 to us.Length
      invariant forall j :: 0 <= j < i ==> us[j] == old(us[j]) * scale
      invariant forall j :: 0 <= j < i ==> vs[j] == old(vs[j]) * scale
      invariant forall j :: 0 <= j < i ==> arcs[j] == old(arcs[j]) * scale
      invariant forall j :: i <= j < us.Length ==> us[j] == old(us[j])
      invariant forall j :: i <= j < us.Length ==> vs[j] == old(vs[j])
      invariant forall j :: i <= j < us.Length ==> arcs[j] == old(arcs[j])
    {
      us[i] := us[i] * scale;
      vs[i] := vs[i] * scale;
      arcs[i] := arcs[i] * scale;
    }
  }

  /** The direction of the chord after sample i, as a principal angle. */
  function Raw(t: Trig, us: seq<real>, vs: seq<real>, i: nat): real
    requires i + 1 < |us| == |vs|
  {
    t.atan2(vs[i + 1] - vs[i], us[i + 1] - us[i])
  }

  /** Each heading is the direction of its chord, and neighbours are at most half a turn apart. */
  ghost predicate Directed(t: Trig, us: seq<real>, vs: seq<real>, headings: seq<real>, m: nat)
    requires |us| == |vs| == |headings| && m < |us|
  {
    && (forall i: nat :: i < m ==> SameDirection(t, headings[i], Raw(t, us, vs, i)))
    && (forall i :: 0 < i < m ==> headings[i - 1] - t.pi <= headings[i] <= headings[i - 1] + t.pi)
  }

  lemma DirectedMore(t: Trig, us: seq<real>, vs: seq<real>, headings: seq<real>, i: nat, h: real)
    requires |us| == |vs| == |headings| && 0 < i && i + 1 < |us| && Directed(t, us, vs, headings, i)
    requires SameDirection(t, h, Raw(t, us, vs, i)) && headings[i - 1] - t.pi <= h <= headings[i - 1] + t.pi
    ensures Directed(t, us, vs, headings[i := h], i + 1)
  {
  }

  method Directions(t: Trig, us: seq<real>, vs: seq<real>) returns (headings: array<real>)
    requires Periodic(t) && t.pi > 0.0 && |us| == |vs| >= 2
    ensures fresh(headings) && headings.Length == |us|
    ensures Directed(t, us, vs, headings[..], |us| - 1)
    ensures headings[|us| - 1] == headings[0] + 2.0 * t.pi
  {
    var n := |us| - 1;
    headings := new real[n + 1];
    var prev := Raw(t, us, vs, 0);
    headings[0] := prev;
    for i := 1 to n
      invariant prev == headings[i - 1]
      invariant Directed(t, us, vs, headings[..], i)
    {
      var h := Unwrap(t, Raw(t, us, vs, i), prev);
      ghost var before := headings[..];
      headings[i] := h;
      assert headings[..] == before[i := h];
      DirectedMore(t, us, vs, before, i, h);
      prev := h;
    }
    headings[n] := headings[0] + 2.0 * t.pi;
  }

  /** Turns (u, v) back by the heading of the start: what the anchoring does to each coordinate. */
  function AnchoredX(t: Trig, u: real, v: real, start: real): real { u * t.cos(-start) - v * t.sin(-start) }
  function AnchoredZ(t: Trig, u: real, v: real, start: real): real { u * t.sin(-start) + v * t.cos(-start) }

  predicate BoundsOf(b: Bounds, xs: seq<real>, zs: seq<real>) {
    && b.minX in xs && b.maxX in xs && b.minZ in zs && b.maxZ in zs
    && (forall x :: x in xs ==> b.minX <= x <= b.maxX)
    && (forall z :: z in zs ==> b.minZ <= z <= b.maxZ)
  }

  function AnchoredXs(t: Trig, us: seq<real>, vs: seq<real>, start: real): (xs: seq<real>)
    requires |us| == |vs|
    ensures |xs| == |us|
  {
    seq(|us|, i requires 0 <= i < |us| => AnchoredX(t, us[i] - us[0], vs[i] - vs[0], start))
  }

  function AnchoredZs(t: Trig, us: seq<real>, vs: seq<real>, start: real): (zs: seq<real>)
    requires |us| == |vs|
    ensures |zs| == |us|
  {
    seq(|us|, i requires 0 <= i < |us| => AnchoredZ(t, us[i] - us[0], vs[i] - vs[0], start))
  }

  /** Start at the origin with heading 0. */
  predicate Anchored(t: Trig, us: seq<real>, vs: seq<real>, hs: seq<real>,
                     xs: seq<real>, zs: seq<real>, headings: seq<real>) {
    && |us| == |vs| == |hs| == |xs| == |zs| == |headings| >= 1
    && xs == AnchoredXs(t, us, vs, hs[0]) && zs == AnchoredZs(t, us, vs, hs[0])
    && forall i :: 0 <= i < |us| ==> headings[i] == hs[i] - hs[0]
  }

  lemma WidenedBounds(b: Bounds, xs: seq<real>, zs: seq<real>, x: real, z: real)
    requires |xs| == |zs| && (xs != [] ==> BoundsOf(b, xs, zs))
    ensures BoundsOf(Widened(b, x, z, xs == []), xs + [x], zs + [z])
  {
  }

  method AnchoredPoint(t: Trig, us: seq<real>, vs: seq<real>, start: real, i: nat) returns (x: real, z: real)
    requires i < |us| == |vs|
    ensures x == AnchoredXs(t, us, vs, start)[i] && z == AnchoredZs(t, us, vs, start)[i]
  {
    var du, dv := us[i] - us[0], vs[i] - vs[0];
    x, z := AnchoredX(t, du, dv, start), AnchoredZ(t, du, dv, start);
  }

  method Anchor(t: Trig, us: seq<real>, vs: seq<real>, headings: array<real>)
    returns (xs: array<real>, zs: array<real>)
    requires |us| == |vs| == headings.Length >= 1
    modifies headings
    ensures xs.Length == zs.Length == |us|
    ensures Anchored(t, us, vs, old(headings[..]), xs[..], zs[..], headings[..])
  {
    hide AnchoredXs, AnchoredZs;
    var start := headings[0];
    ghost var gx, gz, hs := AnchoredXs(t, us, vs, start), AnchoredZs(t, us, vs, start), headings[..];
    xs, zs := new real[|us|], new real[|us|];
    for i := 0 to |us|
      invariant forall j :: 0 <= j < i ==> xs[j] == gx[j]
      invariant forall j :: 0 <= j < i ==> zs[j] == gz[j]
      invariant forall j :: 0 <= j < i ==> headings[j] == hs[j] - start
      invariant forall j :: i <= j < |us| ==> headings[j] == hs[j]
    {
      var x, z := AnchoredPoint(t, us, vs, start, i);
      xs[i], zs[i] := x, z;
      headings[i] := headings[i] - start;
    }
    assert xs[..] == gx && zs[..] == gz;
  }

  method MeasureBounds(xs: seq<real>, zs: seq<real>) returns (bounds: Bounds)
    requires |xs| == |zs| >= 1
    ensures BoundsOf(bounds, xs, zs)
  {
    bounds := Bounds(0.0, 0.0, 0.0, 0.0);
    for i := 0 to |xs|
      invariant i > 0 ==> BoundsOf(bounds, xs[..i], zs[..i])
    {
      assert xs[..i + 1] == xs[..i] + [xs[i]] && zs[..i + 1] == zs[..i] + [zs[i]];
      WidenedBounds(bounds, xs[..i], zs[..i], xs[i], zs[i]);
      bounds := Widened(bounds, xs[i], zs[i], i == 0);
    }
    assert xs[..|xs|] == xs && zs[..|zs|] == zs;
  }

  /** The bounds stretched to the point; before the first point they are nothing. */
  function Widened(b: Bounds, x: real, z: real, first: bool): Bounds {
    Bounds(if first || x < b.minX then x else b.minX, if first || x > b.maxX then x else b.maxX,
           if first || z < b.minZ then z else b.minZ, if first || z > b.maxZ then z else b.maxZ)
  }

  // ----- the finished table

  lemma ScaledStep(a: real, b: real, a': real, b': real, k: real)
    requires a' == a * k && b' == b * k
    ensures b' - a' == (b - a) * k
  {
  }

  lemma LengthStep(t: Trig, us: seq<real>, vs: seq<real>, lengths: seq<real>, i: nat)
    requires AreLengths(t, us, vs, lengths) && i + 1 < |us|
    ensures lengths[i + 1] - lengths[i] == t.hypot(us[i + 1] - us[i], vs[i + 1] - vs[i])
  {
  }

  /** Scaled arc steps are the lengths of the scaled chords. */
  lemma ScaledChord(t: Trig, us: seq<real>, vs: seq<real>, lengths: seq<real>,
                    us': seq<real>, vs': seq<real>, arcs: seq<real>, i: nat, k: real, du: real, dv: real)
    requires AreLengths(t, us, vs, lengths) && i + 1 < |us|
    requires du == us[i + 1] - us[i] && dv == vs[i + 1] - vs[i]
    requires t.hypot(du * k, dv * k) == t.hypot(du, dv) * k
    requires IsScaled(us, us', k) && IsScaled(vs, vs', k) && IsScaled(lengths, arcs, k)
    ensures t.hypot(us'[i + 1] - us'[i], vs'[i + 1] - vs'[i]) == arcs[i + 1] - arcs[i]
  {
    LengthStep(t, us, vs, lengths, i);
    ScaledHypot(t, us[i], us[i + 1], vs[i], vs[i + 1], us'[i], us'[i + 1], vs'[i], vs'[i + 1],
                lengths[i], lengths[i + 1], arcs[i], arcs[i + 1], k, du, dv);
  }

  lemma ScaledHypot(t: Trig, u: real, x: real, v: real, y: real, u': real, x': real, v': real, y': real,
                    a: real, b: real, a': real, b': real, k: real, du: real, dv: real)
    requires u' == u * k && x' == x * k && v' == v * k && y' == y * k && a' == a * k && b' == b * k
    requires du == x - u && dv == y - v && b - a == t.hypot(du, dv)
    requires t.hypot(du * k, dv * k) == t.hypot(du, dv) * k
    ensures t.hypot(x' - u', y' - v') == b' - a'
  {
    ScaledStep(u, x, u', x', k);
    ScaledStep(v, y, v', y', k);
    ScaledStep(a, b, a', b', k);
    SameHypot(t, x' - u', y' - v', du * k, dv * k);
  }

  lemma SameHypot(t: Trig, x: real, y: real, x': real, y': real)
    requires x == x' && y == y'
    ensures t.hypot(x, y) == t.hypot(x', y')
  {
  }

  lemma AnchoringIsLinear(t: Trig, u: real, v: real, u': real, v': real, du: real, dv: real, start: real)
    requires u' == u + du && v' == v + dv
    ensures AnchoredX(t, u', v', start) - AnchoredX(t, u, v, start) == AnchoredX(t, du, dv, start)
    ensures AnchoredZ(t, u', v', start) - AnchoredZ(t, u, v, start) == AnchoredZ(t, du, dv, start)
  {
    Distribute(u, du, u', t.cos(-start));
    Distribute(v, dv, v', t.sin(-start));
    Distribute(u, du, u', t.sin(-start));
    Distribute(v, dv, v', t.cos(-start));
  }

  /** A chord of length h points along its raw direction. */
  lemma PolarChord(t: Trig, us: seq<real>, vs: seq<real>, i: nat, h: real)
    requires Polar(t) && i + 1 < |us| == |vs| && h == t.hypot(us[i + 1] - us[i], vs[i + 1] - vs[i])
    ensures us[i + 1] - us[i] == h * t.cos(Raw(t, us, vs, i)) && vs[i + 1] - vs[i] == h * t.sin(Raw(t, us, vs, i))
  {
  }

  /** An anchored chord of length h points along its anchored heading. */
  lemma AnchoredChord(t: Trig, du: real, dv: real, h: real, raw: real, heading: real, start: real)
    requires OddEven(t) && Differences(t)
    requires du == h * t.cos(raw) && dv == h * t.sin(raw) && SameDirection(t, heading, raw)
    ensures AnchoredX(t, du, dv, start) == h * t.cos(heading - start)
    ensures AnchoredZ(t, du, dv, start) == h * t.sin(heading - start)
  {
    assert Negated(start) == -start && Difference(heading, start) == heading - start;
    TurnedBack(t, h, heading, start);
  }

  lemma ChordTraces(t: Trig, us: seq<real>, vs: seq<real>, hs: seq<real>, table: LoopTable, i: nat)
    requires OddEven(t) && Differences(t)
    requires |us| == |vs| == |hs| == |table.arcs| && i + 1 < |us|
    requires Anchored(t, us, vs, hs, table.xs, table.zs, table.headings)
    requires var h, raw := table.arcs[i + 1] - table.arcs[i], Raw(t, us, vs, i);
      && SameDirection(t, hs[i], raw)
      && us[i + 1] - us[i] == h * t.cos(raw) && vs[i + 1] - vs[i] == h * t.sin(raw)
    ensures HasSlope(table.xs, table.arcs, i, t.cos(table.headings[i]))
    ensures HasSlope(table.zs, table.arcs, i, t.sin(table.headings[i]))
  {
    var du, dv, h := us[i + 1] - us[i], vs[i + 1] - vs[i], table.arcs[i + 1] - table.arcs[i];
    AnchoredChord(t, du, dv, h, Raw(t, us, vs, i), hs[i], hs[0]);
    AnchoringIsLinear(t, us[i] - us[0], vs[i] - vs[0], us[i + 1] - us[0], vs[i + 1] - vs[0], du, dv, hs[0]);
  }

  lemma LengthsRise(t: Trig, us: seq<real>, vs: seq<real>, lengths: seq<real>)
    requires Polar(t) && AreLengths(t, us, vs, lengths)
    ensures Rising(lengths)
  {
    forall i, j | 0 <= i <= j < |lengths|
      ensures lengths[i] <= lengths[j]
    {
      LengthRises(t, us, vs, i, j);
    }
  }

  lemma ScalingKeepsRising(s: seq<real>, r: seq<real>, k: real)
    requires k >= 0.0 && Rising(s) && IsScaled(s, r, k)
    ensures Rising(r)
  {
    forall i, j | 0 <= i <= j < |r|
      ensures r[i] <= r[j]
    {
      ProductMonotone(s[i], s[j], k);
    }
  }

  /** What every table promises: a loop closed at the origin, one turn of headings, and arcs up to the circumference. */
  ghost predicate Looped(t: Trig, table: LoopTable, circumferenceM: real) {
    && |table.arcs| == |table.xs| == |table.zs| == |table.headings| >= 2
    && table.arcs[0] == 0.0 && table.arcs[|table.arcs| - 1] == circumferenceM
    && table.headings[0] == 0.0 && table.headings[|table.headings| - 1] == 2.0 * t.pi
    && (forall i :: 0 < i < |table.headings| - 1 ==> -t.pi <= table.headings[i] - table.headings[i - 1] <= t.pi)
    && table.xs[0] == 0.0 && table.zs[0] == 0.0
    && table.xs[|table.xs| - 1] == 0.0 && table.zs[|table.zs| - 1] == 0.0
    && BoundsOf(table.bounds, table.xs, table.zs)
  }

  /** Above zero, besides: arcs that rise, at once from the start, and headings that trace the loop. */
  ghost predicate Finished(t: Trig, table: LoopTable, circumferenceM: real) {
    && Looped(t, table, circumferenceM)
    && (circumferenceM > 0.0 ==> Measures(table, circumferenceM, t.pi) && table.arcs[1] > 0.0 && Traces(table, t))
  }

  lemma ChordLengthAt(t: Trig, us: seq<real>, vs: seq<real>, lengths: seq<real>,
                      us': seq<real>, vs': seq<real>, arcs: seq<real>, i: nat, k: real)
    requires Polar(t) && k >= 0.0 && i + 1 < |us| && AreLengths(t, us, vs, lengths)
    requires IsScaled(us, us', k) && IsScaled(vs, vs', k) && IsScaled(lengths, arcs, k)
    ensures arcs[i + 1] - arcs[i] == t.hypot(us'[i + 1] - us'[i], vs'[i + 1] - vs'[i])
  {
    var du, dv := us[i + 1] - us[i], vs[i + 1] - vs[i];
    HypotScales(t, du, dv, k);
    ScaledChord(t, us, vs, lengths, us', vs', arcs, i, k, du, dv);
  }

  /** Every step of the arc table is the length of its chord. */
  ghost predicate ChordsMeasured(t: Trig, us: seq<real>, vs: seq<real>, arcs: seq<real>) {
    && |us| == |vs| == |arcs|
    && forall i: nat :: i + 1 < |us| ==> arcs[i + 1] - arcs[i] == t.hypot(us[i + 1] - us[i], vs[i + 1] - vs[i])
  }

  lemma ScaledChordsMeasured(t: Trig, us: seq<real>, vs: seq<real>, lengths: seq<real>,
                             us': seq<real>, vs': seq<real>, arcs: seq<real>, k: real)
    requires Polar(t) && k >= 0.0 && AreLengths(t, us, vs, lengths)
    requires IsScaled(us, us', k) && IsScaled(vs, vs', k) && IsScaled(lengths, arcs, k)
    ensures ChordsMeasured(t, us', vs', arcs)
  {
    forall i: nat | i + 1 < |us'|
      ensures arcs[i + 1] - arcs[i] == t.hypot(us'[i + 1] - us'[i], vs'[i + 1] - vs'[i])
    {
      ChordLengthAt(t, us, vs, lengths, us', vs', arcs, i, k);
    }
  }

  lemma TracesAt(t: Trig, us: seq<real>, vs: seq<real>, hs: seq<real>, table: LoopTable, i: nat)
    requires OddEven(t) && Differences(t) && Polar(t) && |us| == |hs| && i + 1 < |us|
    requires ChordsMeasured(t, us, vs, table.arcs) && SameDirection(t, hs[i], Raw(t, us, vs, i))
    requires Anchored(t, us, vs, hs, table.xs, table.zs, table.headings)
    ensures HasSlope(table.xs, table.arcs, i, t.cos(table.headings[i]))
    ensures HasSlope(table.zs, table.arcs, i, t.sin(table.headings[i]))
  {
    hide AnchoredXs, AnchoredZs, HasSlope;
    PolarChord(t, us, vs, i, table.arcs[i + 1] - table.arcs[i]);
    ChordTraces(t, us, vs, hs, table, i);
  }

  lemma TableTraces(t: Trig, us: seq<real>, vs: seq<real>, hs: seq<real>, table: LoopTable)
    requires OddEven(t) && Differences(t) && Polar(t) && |us| == |hs| >= 2
    requires ChordsMeasured(t, us, vs, table.arcs) && Directed(t, us, vs, hs, |us| - 1)
    requires Anchored(t, us, vs, hs, table.xs, table.zs, table.headings)
    ensures Traces(table, t)
  {
    forall i: nat | i + 1 < |us|
      ensures HasSlope(table.xs, table.arcs, i, t.cos(table.headings[i]))
      ensures HasSlope(table.zs, table.arcs, i, t.sin(table.headings[i]))
    {
      TracesAt(t, us, vs, hs, table, i);
    }
  }

  /** The anchored loop starts and ends at the origin, after one full turn. */
  lemma AnchoredEnds(t: Trig, us: seq<real>, vs: seq<real>, hs: seq<real>, table: LoopTable)
    requires Anchored(t, us, vs, hs, table.xs, table.zs, table.headings) && |us| >= 2
    requires us[|us| - 1] == us[0] && vs[|us| - 1] == vs[0] && hs[|us| - 1] == hs[0] + 2.0 * t.pi
    ensures table.xs[0] == table.zs[0] == table.headings[0] == 0.0
    ensures table.xs[|us| - 1] == table.zs[|us| - 1] == 0.0 && table.headings[|us| - 1] == 2.0 * t.pi
  {
    assert AnchoredX(t, 0.0, 0.0, hs[0]) == 0.0 && AnchoredZ(t, 0.0, 0.0, hs[0]) == 0.0;
  }

  lemma HeadingGaps(t: Trig, us: seq<real>, vs: seq<real>, hs: seq<real>, table: LoopTable)
    requires |us| == |vs| == |hs| >= 2 && Directed(t, us, vs, hs, |us| - 1)
    requires Anchored(t, us, vs, hs, table.xs, table.zs, table.headings)
    ensures forall i :: 0 < i < |us| - 1 ==> -t.pi <= table.headings[i] - table.headings[i - 1] <= t.pi
  {
  }

  lemma ScaledEnds(lengths: seq<real>, arcs: seq<real>, c: real, k: real)
    requires |lengths| >= 2 && IsScaled(lengths, arcs, k) && lengths[0] == 0.0
    requires lengths[|lengths| - 1] > 0.0 && k == c / lengths[|lengths| - 1]
    ensures arcs[0] == 0.0 && arcs[|arcs| - 1] == c
  {
  }

  lemma ScaledSame(s: seq<real>, r: seq<real>, k: real, i: nat, j: nat)
    requires IsScaled(s, r, k) && i < |s| && j < |s| && s[i] == s[j]
    ensures r[i] == r[j]
  {
  }

  lemma ScaledPositive(lengths: seq<real>, arcs: seq<real>, k: real, i: nat)
    requires IsScaled(lengths, arcs, k) && i < |lengths| && lengths[i] > 0.0 && k > 0.0
    ensures arcs[i] > 0.0
  {
  }

  lemma PositiveScale(c: real, length: real)
    requires c > 0.0 && length > 0.0
    ensures c / length > 0.0
  {
  }

  lemma TableIsLooped(t: Trig, us: seq<real>, vs: seq<real>, lengths: seq<real>, us': seq<real>, vs': seq<real>,
                      hs: seq<real>, table: LoopTable, c: real, k: real)
    requires |us| == |vs| == |us'| == |vs'| == |hs| == |lengths| >= 2
    requires lengths[0] == 0.0 && lengths[|us| - 1] > 0.0 && k == c / lengths[|us| - 1]
    requires us[|us| - 1] == us[0] && vs[|us| - 1] == vs[0]
    requires IsScaled(us, us', k) && IsScaled(vs, vs', k) && IsScaled(lengths, table.arcs, k)
    requires Directed(t, us', vs', hs, |us| - 1) && hs[|us| - 1] == hs[0] + 2.0 * t.pi
    requires Anchored(t, us', vs', hs, table.xs, table.zs, table.headings)
    requires BoundsOf(table.bounds, table.xs, table.zs)
    ensures Looped(t, table, c)
  {
    ScaledEnds(lengths, table.arcs, c, k);
    ScaledSame(us, us', k, |us| - 1, 0);
    ScaledSame(vs, vs', k, |us| - 1, 0);
    AnchoredEnds(t, us', vs', hs, table);
    HeadingGaps(t, us', vs', hs, table);
    hide IsScaled, Directed, Anchored;
  }

  lemma TableIsTraced(t: Trig, us: seq<real>, vs: seq<real>, lengths: seq<real>, us': seq<real>, vs': seq<real>,
                      hs: seq<real>, table: LoopTable, k: real)
    requires OddEven(t) && Differences(t) && Polar(t) && k > 0.0
    requires |us| == |vs| == |us'| == |vs'| == |hs| == |lengths| >= 2
    requires AreLengths(t, us, vs, lengths) && lengths[1] > 0.0
    requires IsScaled(us, us', k) && IsScaled(vs, vs', k) && IsScaled(lengths, table.arcs, k)
    requires Directed(t, us', vs', hs, |us| - 1) && Anchored(t, us', vs', hs, table.xs, table.zs, table.headings)
    ensures Rising(table.arcs) && table.arcs[1] > 0.0 && Traces(table, t)
  {
    hide IsScaled, Anchored, Directed, AreLengths;
    LengthsRise(t, us, vs, lengths);
    ScalingKeepsRising(lengths, table.arcs, k);
    ScaledPositive(lengths, table.arcs, k, 1);
    ScaledChordsMeasured(t, us, vs, lengths, us', vs', table.arcs, k);
    TableTraces(t, us', vs', hs, table);
  }

  lemma TableIsFinished(t: Trig, us: seq<real>, vs: seq<real>, lengths: seq<real>, us': seq<real>, vs': seq<real>,
                        hs: seq<real>, table: LoopTable, c: real, k: real)
    requires Lawful(t) && |us| == |vs| == |us'| == |vs'| == |hs| == |lengths| >= 2
    requires AreLengths(t, us, vs, lengths) && lengths[0] == 0.0 < lengths[1] && lengths[|us| - 1] > 0.0
    requires k == c / lengths[|us| - 1] && us[|us| - 1] == us[0] && vs[|us| - 1] == vs[0]
    requires IsScaled(us, us', k) && IsScaled(vs, vs', k) && IsScaled(lengths, table.arcs, k)
    requires Directed(t, us', vs', hs, |us| - 1) && hs[|us| - 1] == hs[0] + 2.0 * t.pi
    requires Anchored(t, us', vs', hs, table.xs, table.zs, table.headings)
    requires BoundsOf(table.bounds, table.xs, table.zs)
    ensures Finished(t, table, c)
  {
    hide IsScaled, Anchored, Directed, AreLengths, BoundsOf, Traces, Rising, Polar, OddEven, Differences;
    TableIsLooped(t, us, vs, lengths, us', vs', hs, table, c, k);
    if c > 0.0 {
      PositiveScale(c, lengths[|us| - 1]);
      TableIsTraced(t, us, vs, lengths, us', vs', hs, table, k);
    }
  }

  /** Scaling, headings and anchoring, with the intermediate columns for the proof. */
  method ScaleAndAnchor(t: Trig, us: array<real>, vs: array<real>, arcs: array<real>, scale: real)
    returns (table: LoopTable, ghost us': seq<real>, ghost vs': seq<real>, ghost hs: seq<real>)
    requires Periodic(t) && t.pi > 0.0
    requires us != vs && vs != arcs && us != arcs && us.Length == vs.Length == arcs.Length >= 2
    modifies us, vs, arcs
    ensures IsScaled(old(us[..]), us', scale) && IsScaled(old(vs[..]), vs', scale)
    ensures IsScaled(old(arcs[..]), table.arcs, scale)
    ensures |hs| == |us'| == |vs'| >= 2 && Directed(t, us', vs', hs, |us'| - 1) && hs[|hs| - 1] == hs[0] + 2.0 * t.pi
    ensures Anchored(t, us', vs', hs, table.xs, table.zs, table.headings)
    ensures BoundsOf(table.bounds, table.xs, table.zs)
  {
    Rescale(us, vs, arcs, scale);
    us', vs' := us[..], vs[..];
    var headings := Directions(t, us[..], vs[..]);
    hs := headings[..];
    var xs, zs := Anchor(t, us[..], vs[..], headings);
    var bounds := MeasureBounds(xs[..], zs[..]);
    table := LoopTable(arcs[..], xs[..], zs[..], headings[..], bounds);
  }

  /** A point at a polar angle about a centre, at a radius with two harmonics, enlarged and turned back. */
  predicate OnHarmonicCurve(t: Trig, phi: real, scale: real, turn: real, centreX: real, centreZ: real,
                            x: real, z: real) {
    var radius := 1.0 + 0.08 * t.sin(2.0 * phi + 0.7) + 0.05 * t.sin(3.0 * phi + 2.3);
    AtPolar(t, scale * radius, phi - turn, centreX, centreZ, x, z)
  }

  predicate AtPolar(t: Trig, radius: real, angle: real, centreX: real, centreZ: real, x: real, z: real) {
    x == centreX + radius * t.cos(angle) && z == centreZ + radius * t.sin(angle)
  }

  /** The samples are the harmonic curve at equal polar angles, from 0 to a full turn. */
  predicate IsHarmonicLoop(t: Trig, table: LoopTable, n: nat, scale: real, turn: real, centreX: real, centreZ: real) {
    && |table.xs| == |table.zs| == n + 1
    && forall i: nat {:trigger table.xs[i]} {:trigger table.zs[i]} :: i <= n && n > 0 ==>
         OnHarmonicCurve(t, i as real / n as real * 2.0 * t.pi, scale, turn, centreX, centreZ, table.xs[i], table.zs[i])
  }

  lemma AnchoredPolar(t: Trig, radius: real, phi: real, k: real, turn: real, u: real, v: real)
    requires OddEven(t) && Differences(t) && u == radius * t.cos(phi) * k && v == radius * t.sin(phi) * k
    ensures AnchoredX(t, u, v, turn) == k * radius * t.cos(phi - turn)
    ensures AnchoredZ(t, u, v, turn) == k * radius * t.sin(phi - turn)
  {
    assert Negated(turn) == -turn && Difference(phi, turn) == phi - turn;
    var h := k * radius;
    assert u == h * t.cos(phi) && v == h * t.sin(phi);
    TurnedBack(t, h, phi, turn);
  }

  lemma SampleOnHarmonicCurve(t: Trig, n: nat, i: nat, k: real, turn: real, u: real, v: real, u0: real, v0: real,
                              x: real, z: real)
    requires OddEven(t) && Differences(t) && n > 0 && u == U(t, n, i) * k && v == V(t, n, i) * k
    requires x == AnchoredX(t, u - u0, v - v0, turn) && z == AnchoredZ(t, u - u0, v - v0, turn)
    ensures OnHarmonicCurve(t, i as real / n as real * 2.0 * t.pi, k, turn,
                            -AnchoredX(t, u0, v0, turn), -AnchoredZ(t, u0, v0, turn), x, z)
  {
    hide AnchoredX, AnchoredZ, OddEven, Differences, RadiusAt, Phi, OnHarmonicCurve;
    var phi := Phi(t, n, i);
    AnchoredPolar(t, RadiusAt(t, phi), phi, k, turn, u, v);
    AnchoringIsLinear(t, u0, v0, u, v, u - u0, v - v0, turn);
    assert AtPolar(t, k * RadiusAt(t, phi), phi - turn, -AnchoredX(t, u0, v0, turn), -AnchoredZ(t, u0, v0, turn), x, z);
    hide *;
    HarmonicRadius(t, phi, RadiusAt(t, phi), k, turn, -AnchoredX(t, u0, v0, turn), -AnchoredZ(t, u0, v0, turn), x, z);
    SameAngle(t, n, i);
  }

  lemma SameAngle(t: Trig, n: nat, i: nat)
    requires n > 0
    ensures Phi(t, n, i) == i as real / n as real * 2.0 * t.pi
  {
  }

  lemma HarmonicRadius(t: Trig, phi: real, radius: real, k: real, turn: real, cx: real, cz: real, x: real, z: real)
    requires radius == RadiusAt(t, phi) && AtPolar(t, k * radius, phi - turn, cx, cz, x, z)
    ensures OnHarmonicCurve(t, phi, k, turn, cx, cz, x, z)
  {
    RadiusInFull(t, phi);
    SamePolar(t, k, radius, 1.0 + 0.08 * t.sin(2.0 * phi + 0.7) + 0.05 * t.sin(3.0 * phi + 2.3), phi - turn,
              cx, cz, x, z);
    hide AtPolar, RadiusAt;
  }

  lemma RadiusInFull(t: Trig, phi: real)
    ensures RadiusAt(t, phi) == 1.0 + 0.08 * t.sin(2.0 * phi + 0.7) + 0.05 * t.sin(3.0 * phi + 2.3)
  {
    assert 2.0 * phi + HARMONIC_2_PHASE_RAD == 2.0 * phi + 0.7;
    assert 3.0 * phi + HARMONIC_3_PHASE_RAD == 3.0 * phi + 2.3;
  }

  lemma SamePolar(t: Trig, k: real, radius: real, same: real, angle: real, cx: real, cz: real, x: real, z: real)
    requires radius == same && AtPolar(t, k * radius, angle, cx, cz, x, z)
    ensures AtPolar(t, k * same, angle, cx, cz, x, z)
  {
  }

  lemma AnchoredAt(t: Trig, us: seq<real>, vs: seq<real>, hs: seq<real>, table: LoopTable, i: nat)
    requires Anchored(t, us, vs, hs, table.xs, table.zs, table.headings) && i < |us|
    ensures table.xs[i] == AnchoredX(t, us[i] - us[0], vs[i] - vs[0], hs[0])
    ensures table.zs[i] == AnchoredZ(t, us[i] - us[0], vs[i] - vs[0], hs[0])
  {
  }

  lemma TableIsHarmonic(t: Trig, n: nat, us: seq<real>, vs: seq<real>, us': seq<real>, vs': seq<real>,
                        hs: seq<real>, table: LoopTable, k: real)
    requires OddEven(t) && Differences(t) && n > 0 && |us| == |vs| == n + 1 && OnCurve(t, n, us, vs)
    requires IsScaled(us, us', k) && IsScaled(vs, vs', k)
    requires Anchored(t, us', vs', hs, table.xs, table.zs, table.headings)
    ensures IsHarmonicLoop(t, table, n, k, hs[0],
                           -AnchoredX(t, us'[0], vs'[0], hs[0]), -AnchoredZ(t, us'[0], vs'[0], hs[0]))
  {
    hide OnHarmonicCurve, AnchoredX, AnchoredZ, U, V, AnchoredXs, AnchoredZs;
    forall i: nat | i <= n
      ensures OnHarmonicCurve(t, i as real / n as real * 2.0 * t.pi, k, hs[0], -AnchoredX(t, us'[0], vs'[0], hs[0]),
                              -AnchoredZ(t, us'[0], vs'[0], hs[0]), table.xs[i], table.zs[i])
    {
      assert us[i] == U(t, n, i) && vs[i] == V(t, n, i);
      AnchoredAt(t, us', vs', hs, table, i);
      SampleOnHarmonicCurve(t, n, i, k, hs[0], us'[i], vs'[i], us'[0], vs'[0], table.xs[i], table.zs[i]);
    }
    HarmonicLoop(t, table, n, k, hs[0], -AnchoredX(t, us'[0], vs'[0], hs[0]), -AnchoredZ(t, us'[0], vs'[0], hs[0]));
  }

  lemma HarmonicLoop(t: Trig, table: LoopTable, n: nat, scale: real, turn: real, centreX: real, centreZ: real)
    requires |table.xs| == |table.zs| == n + 1 && n > 0
    requires forall i: nat :: i <= n ==>
      OnHarmonicCurve(t, i as real / n as real * 2.0 * t.pi, scale, turn, centreX, centreZ, table.xs[i], table.zs[i])
    ensures IsHarmonicLoop(t, table, n, scale, turn, centreX, centreZ)
  {
  }

  /** The samples are those of the harmonic curve, moved, turned and enlarged; not mirrored, for a positive length. */
  ghost predicate Shaped(t: Trig, table: LoopTable, n: nat, circumferenceM: real) {
    exists scale, turn, centreX, centreZ ::
      IsHarmonicLoop(t, table, n, scale, turn, centreX, centreZ) && (circumferenceM > 0.0 ==> scale > 0.0)
  }

  method BuildTable(t: Trig, circumferenceM: real, n: nat) returns (table: LoopTable)
    requires Lawful(t) && n > 0 && n % 2 == 0
    ensures |table.arcs| == n + 1 && Finished(t, table, circumferenceM)
    ensures Shaped(t, table, n, circumferenceM)
  {
    var us, vs := Points(t, n);
    var arcs := ArcLengths(t, us[..], vs[..]);
    ghost var us0, vs0, lengths := us[..], vs[..], arcs[..];
    CurveHasLength(t, n, us0, vs0, lengths);
    var scale := circumferenceM / arcs[n];
    ghost var us', vs', hs;
    table, us', vs', hs := ScaleAndAnchor(t, us, vs, arcs, scale);
    TableIsFinished(t, us0, vs0, lengths, us', vs', hs, table, circumferenceM, scale);
    TableIsHarmonic(t, n, us0, vs0, us', vs', hs, table, scale);
    if circumferenceM > 0.0 { PositiveScale(circumferenceM, lengths[n]); }
  }

  lemma CurveHasLength(t: Trig, n: nat, us: seq<real>, vs: seq<real>, lengths: seq<real>)
    requires Lawful(t) && n > 0 && n % 2 == 0 && |us| == |vs| == n + 1 && OnCurve(t, n, us, vs)
    requires AreLengths(t, us, vs, lengths)
    ensures us[n] == us[0] && vs[n] == vs[0] && lengths[n] > 0.0 && lengths[0] == 0.0 < lengths[1]
  {
    CurveIsALoop(t, n, us, vs);
    LengthIsPositive(t, us, vs, n / 2, n);
    FirstChordIsPositive(t, us, vs);
  }

  /** On every finished table the start line is the origin, shifted sideways only, with heading 0. */
  lemma StartLine(table: LoopTable, t: Trig, c: real, lateralM: real)
    requires Lawful(t) && Finished(t, table, c) && c > 0.0
    ensures Pose(table, t, 0.0, c, lateralM) == LoopPath.LoopPose(0.0, lateralM, 0.0)
  {
    StartPose(table, t, c, lateralM);
  }

  /** The module's state: one table per circumference, built when it is first asked for. */
  class LoopPaths {
    const trig: Trig
    var tableCache: map<real, LoopTable>

    ghost predicate Valid()
      reads this
    {
      Lawful(trig) && forall c :: c in tableCache ==>
        Finished(trig, tableCache[c], c) && Shaped(trig, tableCache[c], 2048, c)
    }

    constructor (trig: Trig)
      requires Lawful(trig)
      ensures Valid() && this.trig == trig && tableCache == map[]
    {
      this.trig, tableCache := trig, map[];
    }

    method GetTable(circumferenceM: real) returns (table: LoopTable)
      requires Valid()
      modifies this
      ensures Valid() && Finished(trig, table, circumferenceM) && Shaped(trig, table, 2048, circumferenceM)
      ensures tableCache == old(tableCache)[circumferenceM := table]
      ensures circumferenceM in old(tableCache) ==> tableCache == old(tableCache)
    {
      hide Shaped, Lawful;
      if circumferenceM in tableCache {
        table := tableCache[circumferenceM];
      } else {
        table := BuildTable(trig, circumferenceM, SAMPLE_COUNT);
        tableCache := tableCache[circumferenceM := table];
      }
    }

    method LoopPose(arcLengthM: real, circumferenceM: real, lateralOffsetM: real) returns (pose: LoopPath.LoopPose)
      requires Valid() && circumferenceM > 0.0
      modifies this
      ensures Valid() && circumferenceM in tableCache
      ensures circumferenceM in old(tableCache) ==> tableCache == old(tableCache)
      ensures pose == Pose(tableCache[circumferenceM], trig, arcLengthM, circumferenceM, lateralOffsetM)
      ensures arcLengthM == 0.0 ==> pose == LoopPath.LoopPose(0.0, lateralOffsetM, 0.0)
    {
      hide Shaped, Pose;
      var table := GetTable(circumferenceM);
      StartLine(table, trig, circumferenceM, lateralOffsetM);
      pose := PoseOn(table, trig, arcLengthM, circumferenceM, lateralOffsetM);
    }

    method LoopBounds(circumferenceM: real) returns (bounds: Bounds)
      requires Valid()
      modifies this
      ensures Valid() && circumferenceM in tableCache
      ensures circumferenceM in old(tableCache) ==> tableCache == old(tableCache)
      ensures BoundsOf(bounds, tableCache[circumferenceM].xs, tableCache[circumferenceM].zs)
    {
      hide Shaped, Lawful;
      var table := GetTable(circumferenceM);
      bounds := table.bounds;
    }
  }
}
