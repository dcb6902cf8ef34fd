/** The village: houses along parallel streets, and the fence around them. */
module VillageLayout {
  import opened Wrappers
  import opened Arithmetic
  import opened LoopPath
  import opened Zones

  const HOUSE_SPACING_ALONG := 5.5
  const ROW_OFFSET := 6.0
  const STREET_GAP := 18.0
  const HOUSES_PER_SIDE: nat := 4
  const HOUSES_PER_STREET: nat := 8
  const HOUSE_EXTENT := 4.0
  const PAD := 3.0
  const MAX_TIER_FOOTPRINT := 5.0
  const DEFAULT_TIER: int := 1

  datatype Side = North | South
  datatype Member = Member(userId: string, name: string, houseLevel: Option<int>)
  datatype Placement = Placement(memberId: string, memberName: string, tier: int, x: real, z: real,
                                 yawDeg: real, street: nat, side: Side, layoutIndex: nat)
  datatype Street = Street(index: nat, centerZ: real, startX: real, endX: real, northCount: nat, southCount: nat)
  datatype Layout = Layout(placements: seq<Placement>, streets: seq<Street>, fenceRadius: real, fence: Bounds,
                           outerReach: real)

  // ----- where the i-th of n houses stands

  function StreetCount(n: nat): nat { (n + HOUSES_PER_STREET - 1) / HOUSES_PER_STREET }
  function StreetOf(i: nat): nat { i / HOUSES_PER_STREET }

  function OnStreet(n: nat, s: nat): nat
    requires s < StreetCount(n)
  {
    if n - s * HOUSES_PER_STREET < HOUSES_PER_STREET then n - s * HOUSES_PER_STREET else HOUSES_PER_STREET
  }

  function SideOf(n: nat, i: nat): Side
    requires i < n
  {
    if OnStreet(n, StreetOf(i)) <= HOUSES_PER_SIDE || i % HOUSES_PER_STREET % 2 == 0 then North else South
  }

  /** The houses on one side of a street fill its slots from the left. */
  function SlotOf(n: nat, i: nat): nat
    requires i < n
  {
    var pos := i % HOUSES_PER_STREET;
    if OnStreet(n, StreetOf(i)) <= HOUSES_PER_SIDE then pos else pos / 2
  }

  /** The number of houses on the longer side of a street, which is the north side. */
  function LongerSide(n: nat, s: nat): nat
    requires s < StreetCount(n)
  {
    if OnStreet(n, s) <= HOUSES_PER_SIDE then OnStreet(n, s) else (OnStreet(n, s) + 1) / 2
  }

  function CenterZ(n: nat, s: nat): real { -((StreetCount(n) - 1) as real * STREET_GAP) / 2.0 + s as real * STREET_GAP }

  function StartX(n: nat, s: nat): real
    requires s < StreetCount(n)
  {
    -((LongerSide(n, s) - 1) as real * HOUSE_SPACING_ALONG) / 2.0
  }

  function HouseX(n: nat, i: nat): real
    requires i < n
  {
    StartX(n, StreetOf(i)) + SlotOf(n, i) as real * HOUSE_SPACING_ALONG
  }

  function HouseZ(n: nat, i: nat): real
    requires i < n
  {
    CenterZ(n, StreetOf(i)) + if SideOf(n, i).North? then -ROW_OFFSET else ROW_OFFSET
  }

  lemma StreetExists(n: nat, i: nat)
    requires i < n
    ensures StreetOf(i) < StreetCount(n)
  {
  }

  // ----- what the layout promises

  /** Two houses of one row are a spacing apart, two of different rows at least a row offset. */
  lemma HousesKeepApart(n: nat, i: nat, j: nat)
    requires i < j < n
    ensures var dx, dz := HouseX(n, j) - HouseX(n, i), HouseZ(n, j) - HouseZ(n, i);
      (dz == 0.0 && dx >= HOUSE_SPACING_ALONG) || dz >= ROW_OFFSET || dz <= -ROW_OFFSET
  {
    if StreetOf(i) == StreetOf(j) {
      var p, q := i % HOUSES_PER_STREET, j % HOUSES_PER_STREET;
      assert p < q;
      if SideOf(n, i) == SideOf(n, j) { assert SlotOf(n, j) >= SlotOf(n, i) + 1; }
    } else {
      assert StreetOf(i) + 1 <= StreetOf(j);
    }
  }

  /** So the largest house footprints, centred on the houses, never overlap. */
  lemma FootprintsAreDisjoint(n: nat, i: nat, j: nat)
    requires i < j < n
    ensures var dx, dz := HouseX(n, j) - HouseX(n, i), HouseZ(n, j) - HouseZ(n, i);
      dx > MAX_TIER_FOOTPRINT || dx < -MAX_TIER_FOOTPRINT || dz > MAX_TIER_FOOTPRINT || dz < -MAX_TIER_FOOTPRINT
  {
    HousesKeepApart(n, i, j);
  }

  /** Every house stands within its street, and the street's row is centred on the middle axis. */
  lemma HousesStandOnTheirStreet(n: nat, i: nat)
    requires i < n
    ensures var s := StreetOf(i);
      && SlotOf(n, i) < LongerSide(n, s) <= HOUSES_PER_SIDE
      && StartX(n, s) <= HouseX(n, i) <= -StartX(n, s)
  {
    StreetExists(n, i);
    var s := StreetOf(i);
    assert i % HOUSES_PER_STREET < OnStreet(n, s);
  }

  // ----- counting houses on a side

  function CountSide(n: nat, s: nat, side: Side, k: nat): nat
    requires k <= n
  {
    if k == 0 then 0
    else CountSide(n, s, side, k - 1) + if StreetOf(k - 1) == s && SideOf(n, k - 1) == side then 1 else 0
  }

  /** How many of the first k houses are on street s. */
  function Reached(s: nat, k: nat): nat {
    if k <= s * HOUSES_PER_STREET then 0
    else if k >= (s + 1) * HOUSES_PER_STREET then HOUSES_PER_STREET
    else k - s * HOUSES_PER_STREET
  }

  lemma {:induction false} CountSideIs(n: nat, s: nat, k: nat)
    requires k <= n && s < StreetCount(n)
    ensures var r := Reached(s, k);
      if OnStreet(n, s) <= HOUSES_PER_SIDE
      then CountSide(n, s, North, k) == r && CountSide(n, s, South, k) == 0
      else CountSide(n, s, North, k) == (r + 1) / 2 && CountSide(n, s, South, k) == r / 2
  {
    if k > 0 {
      CountSideIs(n, s, k - 1);
      ReachedMore(s, k);
      SideOnStreet(n, k - 1);
      hide StreetOf, OnStreet, SideOf, Reached;
      Halves(Reached(s, k - 1));
    }
  }

  lemma ReachedMore(s: nat, k: nat)
    requires k > 0
    ensures StreetOf(k - 1) == s ==> Reached(s, k - 1) == (k - 1) % HOUSES_PER_STREET
    ensures Reached(s, k) == Reached(s, k - 1) + if StreetOf(k - 1) == s then 1 else 0
  {
  }

  lemma SideOnStreet(n: nat, i: nat)
    requires i < n
    ensures StreetOf(i) < StreetCount(n)
    ensures SideOf(n, i) ==
            if OnStreet(n, StreetOf(i)) <= HOUSES_PER_SIDE || i % HOUSES_PER_STREET % 2 == 0 then North else South
  {
  }

  lemma Halves(r: nat)
    ensures (r + 1 + 1) / 2 == (r + 1) / 2 + (if r % 2 == 0 then 1 else 0)
    ensures (r + 1) / 2 == r / 2 + (if r % 2 == 0 then 0 else 1)
  {
  }

  /** The slot of a house is the number of houses before it on its side. */
  lemma SlotCounts(n: nat, i: nat)
    requires i < n
    ensures CountSide(n, StreetOf(i), SideOf(n, i), i) == SlotOf(n, i)
  {
    StreetExists(n, i);
    CountSideIs(n, StreetOf(i), i);
    assert Reached(StreetOf(i), i) == i % HOUSES_PER_STREET;
  }

  lemma SideTotals(n: nat, s: nat)
    requires s < StreetCount(n)
    ensures CountSide(n, s, North, n) == LongerSide(n, s)
    ensures CountSide(n, s, South, n) == OnStreet(n, s) - LongerSide(n, s) <= LongerSide(n, s)
  {
    CountSideIs(n, s, n);
    assert Reached(s, n) == OnStreet(n, s);
  }

  // ----- the algorithm, step by step

  /** Everything of a placement but its position. */
  predicate Assigned(p: Placement, members: seq<Member>, i: nat)
    requires i < |members|
  {
    var n, side := |members|, SideOf(|members|, i);
    && p.memberId == members[i].userId && p.memberName == members[i].name
    && p.tier == members[i].houseLevel.GetOr(DEFAULT_TIER)
    && p.street == StreetOf(i) && p.side == side && p.layoutIndex == i
    && p.yawDeg == if side.North? then 0.0 else 180.0
  }

  predicate Placed(p: Placement, n: nat, i: nat)
    requires i < n
  {
    p.x == HouseX(n, i) && p.z == HouseZ(n, i)
  }

  /** A street with few houses has them all in the north, otherwise they alternate. */
  method ChooseSide(n: nat, i: nat) returns (side: Side)
    requires i < n
    ensures side == SideOf(n, i)
  {
    StreetExists(n, i);
    var posInStreet, membersOnStreet := i % HOUSES_PER_STREET, OnStreet(n, i / HOUSES_PER_STREET);
    if membersOnStreet <= HOUSES_PER_SIDE {
      side := North;
    } else if posInStreet % 2 == 0 {
      side := North;
    } else {
      side := South;
    }
  }

  method AssignSides(members: seq<Member>)
    returns (placements: array<Placement>, northCounts: seq<nat>, southCounts: seq<nat>)
    requires members != []
    ensures fresh(placements) && placements.Length == |members|
    ensures |northCounts| == |southCounts| == StreetCount(|members|)
    ensures forall i :: 0 <= i < |members| ==> Assigned(placements[i], members, i)
    ensures forall s :: 0 <= s < |northCounts| ==> northCounts[s] == CountSide(|members|, s, North, |members|)
    ensures forall s :: 0 <= s < |southCounts| ==> southCounts[s] == CountSide(|members|, s, South, |members|)
  {
    hide SideOf, StreetCount;
    var n := |members|;
    var streetCount := StreetCount(n);
    placements := new Placement[n](_ => Placement("", "", 0, 0.0, 0.0, 0.0, 0, North, 0));
    northCounts, southCounts := seq(streetCount, _ => 0), seq(streetCount, _ => 0);
    for i := 0 to n
      invariant forall j :: 0 <= j < i ==> Assigned(placements[j], members, j)
      invariant |northCounts| == |southCounts| == streetCount
      invariant forall s :: 0 <= s < streetCount ==> northCounts[s] == CountSide(n, s, North, i)
      invariant forall s :: 0 <= s < streetCount ==> southCounts[s] == CountSide(n, s, South, i)
    {
      StreetExists(n, i);
      var street := StreetOf(i);
      var side := ChooseSide(n, i);
      if side.North? {
        northCounts := northCounts[street := northCounts[street] + 1];
      } else {
        southCounts := southCounts[street := southCounts[street] + 1];
      }
      placements[i] := Placement(members[i].userId, members[i].name, members[i].houseLevel.GetOr(DEFAULT_TIER), 0.0, 0.0,
                                 if side.North? then 0.0 else 180.0, street, side, i);
    }
  }

  /** The houses of one street, from the left on either side. */
  method PlaceStreet(members: seq<Member>, placements: array<Placement>, s: nat, streetZ: real, startX: real)
    requires placements.Length == |members| && s < StreetCount(|members|)
    requires streetZ == CenterZ(|members|, s) && startX == StartX(|members|, s)
    requires forall i :: 0 <= i < |members| ==> Assigned(placements[i], members, i)
    requires forall i :: 0 <= i < |members| && StreetOf(i) < s ==> Placed(placements[i], |members|, i)
    modifies placements
    ensures forall i :: 0 <= i < |members| ==> Assigned(placements[i], members, i)
    ensures forall i :: 0 <= i < |members| && StreetOf(i) <= s ==> Placed(placements[i], |members|, i)
  {
    var n := |members|;
    var northSlot: nat, southSlot: nat := 0, 0;
    for k := 0 to n
      invariant northSlot == CountSide(n, s, North, k) && southSlot == CountSide(n, s, South, k)
      invariant forall i :: 0 <= i < n ==> Assigned(placements[i], members, i)
      invariant forall i :: 0 <= i < n && StreetOf(i) < s ==> Placed(placements[i], n, i)
      invariant forall i :: 0 <= i < k && StreetOf(i) == s ==> Placed(placements[i], n, i)
    {
      var p := placements[k];
      if p.street != s { continue; }
      SlotCounts(n, k);
      if p.side.North? {
        placements[k] := p.(x := startX + northSlot as real * HOUSE_SPACING_ALONG, z := streetZ - ROW_OFFSET);
        northSlot := northSlot + 1;
      } else {
        placements[k] := p.(x := startX + southSlot as real * HOUSE_SPACING_ALONG, z := streetZ + ROW_OFFSET);
        southSlot := southSlot + 1;
      }
    }
  }

  predicate IsStreet(d: Street, n: nat, s: nat)
    requires s < StreetCount(n)
  {
    && d.index == s && d.centerZ == CenterZ(n, s)
    && d.startX == StartX(n, s) - 2.0 && d.endX == -StartX(n, s) + 2.0
    && d.northCount == LongerSide(n, s) && d.southCount == OnStreet(n, s) - LongerSide(n, s)
  }

  predicate AllPlaced(ps: seq<Placement>, members: seq<Member>) {
    |ps| == |members| && forall i :: 0 <= i < |ps| ==> Assigned(ps[i], members, i) && Placed(ps[i], |members|, i)
  }

  predicate AllStreets(streets: seq<Street>, n: nat) {
    |streets| == StreetCount(n) && forall s :: 0 <= s < |streets| ==> IsStreet(streets[s], n, s)
  }

  method PlaceHouses(members: seq<Member>, placements: array<Placement>, northCounts: seq<nat>, southCounts: seq<nat>)
    returns (streets: seq<Street>)
    requires members != [] && placements.Length == |members|
    requires |northCounts| == |southCounts| == StreetCount(|members|)
    requires forall i :: 0 <= i < |members| ==> Assigned(placements[i], members, i)
    requires forall s :: 0 <= s < |northCounts| ==> northCounts[s] == CountSide(|members|, s, North, |members|)
    requires forall s :: 0 <= s < |southCounts| ==> southCounts[s] == CountSide(|members|, s, South, |members|)
    modifies placements
    ensures AllPlaced(placements[..], members) && AllStreets(streets, |members|)
  {
    var n, streetCount := |members|, StreetCount(|members|);
    var totalDepth := (streetCount - 1) as real * STREET_GAP;
    var baseZ := -totalDepth / 2.0;
    streets := [];
    for s := 0 to streetCount
      invariant |streets| == s && forall r :: 0 <= r < s ==> IsStreet(streets[r], n, r)
      invariant forall i :: 0 <= i < n ==> Assigned(placements[i], members, i)
      invariant forall i :: 0 <= i < n && StreetOf(i) < s ==> Placed(placements[i], n, i)
    {
      var streetZ := baseZ + s as real * STREET_GAP;
      SideTotals(n, s);
      var nc, sc := northCounts[s], southCounts[s];
      var maxPerSide := if nc >= sc then nc else sc;
      var rowWidth := (maxPerSide - 1) as real * HOUSE_SPACING_ALONG;
      var startX := -rowWidth / 2.0;
      PlaceStreet(members, placements, s, streetZ, startX);
      streets := streets + [Street(s, streetZ, startX - 2.0, startX + rowWidth + 2.0, nc, sc)];
    }
    forall i | 0 <= i < n
      ensures Placed(placements[i], n, i)
    {
      StreetExists(n, i);
    }
  }

  // ----- the fence

  /** The box from lo to hi around a house, with the given margin. */
  predicate Around(f: Bounds, p: Placement, margin: real) {
    && f.minX + margin <= p.x && p.x + margin <= f.maxX
    && f.minZ + margin <= p.z && p.z + margin <= f.maxZ
  }

  /** Some house touches each side of the box at exactly the margin. */
  ghost predicate Touches(f: Bounds, ps: seq<Placement>, margin: real) {
    && (exists i :: 0 <= i < |ps| && f.minX + margin == ps[i].x)
    && (exists i :: 0 <= i < |ps| && ps[i].x + margin == f.maxX)
    && (exists i :: 0 <= i < |ps| && f.minZ + margin == ps[i].z)
    && (exists i :: 0 <= i < |ps| && ps[i].z + margin == f.maxZ)
  }

  function Stretched(b: Bounds, p: Placement, first: bool): Bounds {
    Bounds(if first || p.x - HOUSE_EXTENT < b.minX then p.x - HOUSE_EXTENT else b.minX,
           if first || p.x + HOUSE_EXTENT > b.maxX then p.x + HOUSE_EXTENT else b.maxX,
           if first || p.z - HOUSE_EXTENT < b.minZ then p.z - HOUSE_EXTENT else b.minZ,
           if first || p.z + HOUSE_EXTENT > b.maxZ then p.z + HOUSE_EXTENT else b.maxZ)
  }

  method Extents(ps: seq<Placement>) returns (b: Bounds)
    requires ps != []
    ensures IsExtent(b, ps)
  {
    b := Bounds(0.0, 0.0, 0.0, 0.0);
    for k := 0 to |ps|
      invariant forall i :: 0 <= i < k ==> Around(b, ps[i], HOUSE_EXTENT)
      invariant k > 0 ==> Touches(b, ps[..k], HOUSE_EXTENT)
    {
      ghost var was := b;
      b := Stretched(b, ps[k], k == 0);
      assert ps[..k + 1][k] == ps[k];
      TouchesMore(ps, k, was, b);
    }
    assert ps[..|ps|] == ps;
  }

  lemma TouchesMore(ps: seq<Placement>, k: nat, was: Bounds, b: Bounds)
    requires k < |ps| && b == Stretched(was, ps[k], k == 0)
    requires k > 0 ==> Touches(was, ps[..k], HOUSE_EXTENT)
    ensures Touches(b, ps[..k + 1], HOUSE_EXTENT)
  {
    var more := ps[..k + 1];
    assert more[k] == ps[k];
    if k > 0 {
      var x :| 0 <= x < k && was.minX + HOUSE_EXTENT == ps[..k][x].x;
      var y :| 0 <= y < k && ps[..k][y].x + HOUSE_EXTENT == was.maxX;
      var z :| 0 <= z < k && was.minZ + HOUSE_EXTENT == ps[..k][z].z;
      var w :| 0 <= w < k && ps[..k][w].z + HOUSE_EXTENT == was.maxZ;
      assert more[x] == ps[x] && more[y] == ps[y] && more[z] == ps[z] && more[w] == ps[w];
    }
  }

  /** A square around every house's extent with the padding, no larger than the longer side of the houses needs. */
  ghost predicate IsFence(f: Bounds, ps: seq<Placement>) {
    && (forall i :: 0 <= i < |ps| ==> Around(f, ps[i], HOUSE_EXTENT + PAD))
    && f.maxX - f.minX == f.maxZ - f.minZ
    && (exists b: Bounds :: IsExtent(b, ps) && Padded(f, b) && Centred(f, b))
  }

  /** The smallest box around every house's extent. */
  ghost predicate IsExtent(b: Bounds, ps: seq<Placement>) {
    (forall i :: 0 <= i < |ps| ==> Around(b, ps[i], HOUSE_EXTENT)) && Touches(b, ps, HOUSE_EXTENT)
  }

  predicate Centred(f: Bounds, b: Bounds) { f.minX + f.maxX == b.minX + b.maxX && f.minZ + f.maxZ == b.minZ + b.maxZ }

  /** On one axis the fence is the box with the padding. */
  predicate Padded(f: Bounds, b: Bounds) {
    (f.minX == b.minX - PAD && f.maxX == b.maxX + PAD) || (f.minZ == b.minZ - PAD && f.maxZ == b.maxZ + PAD)
  }

  method FenceAround(ps: seq<Placement>) returns (f: Bounds, halfExtent: real)
    requires ps != []
    ensures IsFence(f, ps) && f.maxX - f.minX == 2.0 * halfExtent && halfExtent > 0.0
  {
    var b := Extents(ps);
    assert Around(b, ps[0], HOUSE_EXTENT);
    var cx, cz := (b.minX + b.maxX) / 2.0, (b.minZ + b.maxZ) / 2.0;
    var halfX, halfZ := (b.maxX - b.minX) / 2.0, (b.maxZ - b.minZ) / 2.0;
    halfExtent := (if halfX >= halfZ then halfX else halfZ) + PAD;
    f := Bounds(cx - halfExtent, cx + halfExtent, cz - halfExtent, cz + halfExtent);
    forall i | 0 <= i < |ps|
      ensures Around(f, ps[i], HOUSE_EXTENT + PAD)
    {
      assert Around(b, ps[i], HOUSE_EXTENT);
    }
  }

  // ----- how far the fence reaches from the world origin

  /** The yaw of a zone in radians; a zone without one is not turned. */
  function YawRad(t: Trig, zone: Zone): real { zone.yawDeg.GetOr(0.0) * t.pi / 180.0 }

  function RotatedX(zone: Zone, c: real, s: real, x: real, z: real): real { zone.x + x * c + z * s }
  function RotatedZ(zone: Zone, c: real, s: real, x: real, z: real): real { zone.z - x * s + z * c }

  /** Distance from the world origin of a local point, rotated about the zone centre. */
  function Reach(t: Trig, zone: Zone, x: real, z: real): real {
    var c, s := t.cos(YawRad(t, zone)), t.sin(YawRad(t, zone));
    t.hypot(RotatedX(zone, c, s, x, z), RotatedZ(zone, c, s, x, z))
  }

  function SlopeX(zone: Zone, c: real, s: real): real { 2.0 * (zone.x * c - zone.z * s) }
  function SlopeZ(zone: Zone, c: real, s: real): real { 2.0 * (zone.x * s + zone.z * c) }

  lemma RotationKeepsLength(x: real, z: real, c: real, s: real, u: real, v: real)
    requires s * s + c * c == 1.0 && u == x * c + z * s && v == z * c - x * s
    ensures u * u + v * v == x * x + z * z
  {
    assert u * u + v * v == (x * x + z * z) * (s * s + c * c);
  }

  lemma MixedTerms(zx: real, zz: real, x: real, z: real, c: real, s: real, u: real, v: real)
    requires u == x * c + z * s && v == z * c - x * s
    ensures 2.0 * (zx * u + zz * v) == 2.0 * (zx * c - zz * s) * x + 2.0 * (zx * s + zz * c) * z
  {
  }

  lemma SquaredSum(a: real, b: real, u: real, v: real)
    ensures (a + u) * (a + u) + (b + v) * (b + v) == a * a + b * b + 2.0 * (a * u + b * v) + (u * u + v * v)
  {
  }

  /** The square of the reach falls apart into a part for x and a part for z. */
  lemma ReachSplits(zone: Zone, c: real, s: real, x: real, z: real)
    requires s * s + c * c == 1.0
    ensures var X, Z := RotatedX(zone, c, s, x, z), RotatedZ(zone, c, s, x, z);
      X * X + Z * Z ==
      zone.x * zone.x + zone.z * zone.z + Parabola(x, SlopeX(zone, c, s)) + Parabola(z, SlopeZ(zone, c, s))
  {
    var u, v := x * c + z * s, z * c - x * s;
    assert RotatedX(zone, c, s, x, z) == zone.x + u && RotatedZ(zone, c, s, x, z) == zone.z + v;
    RotationKeepsLength(x, z, c, s, u, v);
    MixedTerms(zone.x, zone.z, x, z, c, s, u, v);
    SquaredSum(zone.x, zone.z, u, v);
    hide RotatedX, RotatedZ;
  }

  function Parabola(x: real, a: real): real { x * x + a * x }

  /** A parabola that opens upwards is highest at an end of an interval. */
  lemma HighestAtAnEnd(lo: real, x: real, hi: real, a: real)
    requires lo <= x <= hi
    ensures Parabola(x, a) <= Parabola(lo, a) || Parabola(x, a) <= Parabola(hi, a)
  {
    assert Parabola(x, a) - Parabola(lo, a) == (x - lo) * (x + lo + a);
    assert Parabola(hi, a) - Parabola(x, a) == (hi - x) * (x + hi + a);
    if x + lo + a <= 0.0 {
      ProductNonNegative(x - lo, -(x + lo + a));
    } else {
      ProductNonNegative(hi - x, x + hi + a);
    }
  }

  predicate InFence(f: Bounds, x: real, z: real) { f.minX <= x <= f.maxX && f.minZ <= z <= f.maxZ }

  lemma HypotOrder(t: Trig, x: real, z: real, x': real, z': real)
    requires Polar(t) && x * x + z * z <= x' * x' + z' * z'
    ensures t.hypot(x, z) <= t.hypot(x', z')
  {
    if t.hypot(x', z') < t.hypot(x, z) { SquareStrict(t.hypot(x', z'), t.hypot(x, z)); }
  }

  lemma ReachOrder(t: Trig, zone: Zone, c: real, s: real, x: real, z: real, x': real, z': real)
    requires Polar(t) && s * s + c * c == 1.0 && c == t.cos(YawRad(t, zone)) && s == t.sin(YawRad(t, zone))
    requires Parabola(x, SlopeX(zone, c, s)) <= Parabola(x', SlopeX(zone, c, s))
    requires Parabola(z, SlopeZ(zone, c, s)) <= Parabola(z', SlopeZ(zone, c, s))
    ensures Reach(t, zone, x, z) <= Reach(t, zone, x', z')
  {
    hide Parabola, SlopeX, SlopeZ, YawRad, RotatedX, RotatedZ, Polar;
    ReachSplits(zone, c, s, x, z);
    ReachSplits(zone, c, s, x', z');
    HypotOrder(t, RotatedX(zone, c, s, x, z), RotatedZ(zone, c, s, x, z),
               RotatedX(zone, c, s, x', z'), RotatedZ(zone, c, s, x', z'));
  }

  /** The reach bounds that of the four corners. */
  predicate CoversCorners(t: Trig, zone: Zone, f: Bounds, reach: real) {
    && Reach(t, zone, f.minX, f.minZ) <= reach && Reach(t, zone, f.minX, f.maxZ) <= reach
    && Reach(t, zone, f.maxX, f.minZ) <= reach && Reach(t, zone, f.maxX, f.maxZ) <= reach
  }

  /** No point inside the fence, however the village is turned, is farther out than the farthest corner. */
  lemma CornersReachFarthest(t: Trig, zone: Zone, f: Bounds, reach: real, x: real, z: real)
    requires Polar(t) && UnitCircle(t) && CoversCorners(t, zone, f, reach) && InFence(f, x, z)
    ensures Reach(t, zone, x, z) <= reach
  {
    var c, s := t.cos(YawRad(t, zone)), t.sin(YawRad(t, zone));
    assert s * s + c * c == 1.0;
    hide Parabola, SlopeX, SlopeZ, YawRad, Reach, UnitCircle, Polar;
    var a, b := SlopeX(zone, c, s), SlopeZ(zone, c, s);
    HighestAtAnEnd(f.minX, x, f.maxX, a);
    HighestAtAnEnd(f.minZ, z, f.maxZ, b);
    var x' := if Parabola(x, a) <= Parabola(f.minX, a) then f.minX else f.maxX;
    var z' := if Parabola(z, b) <= Parabola(f.minZ, b) then f.minZ else f.maxZ;
    ReachOrder(t, zone, c, s, x, z, x', z');
  }

  /** The reach is that of the farthest corner. */
  predicate IsOuterReach(t: Trig, zone: Zone, f: Bounds, reach: real) {
    && CoversCorners(t, zone, f, reach) && reach >= 0.0
    && (|| reach == 0.0
        || reach == Reach(t, zone, f.minX, f.minZ) || reach == Reach(t, zone, f.minX, f.maxZ)
        || reach == Reach(t, zone, f.maxX, f.minZ) || reach == Reach(t, zone, f.maxX, f.maxZ))
  }

  method OuterReach(t: Trig, zone: Zone, f: Bounds) returns (reach: real)
    ensures IsOuterReach(t, zone, f, reach)
  {
    var corners := [(f.minX, f.minZ), (f.minX, f.maxZ), (f.maxX, f.minZ), (f.maxX, f.maxZ)];
    reach := 0.0;
    for i := 0 to |corners|
      invariant reach >= 0.0
      invariant forall j :: 0 <= j < i ==> Reach(t, zone, corners[j].0, corners[j].1) <= reach
      invariant reach == 0.0 || exists j :: 0 <= j < i && reach == Reach(t, zone, corners[j].0, corners[j].1)
    {
      var d := Reach(t, zone, corners[i].0, corners[i].1);
      if d > reach { reach := d; }
    }
    assert forall j :: 0 <= j < 4 ==> Reach(t, zone, corners[j].0, corners[j].1) <= reach;
    assert corners[0] == (f.minX, f.minZ) && corners[1] == (f.minX, f.maxZ);
    assert corners[2] == (f.maxX, f.minZ) && corners[3] == (f.maxX, f.maxZ);
  }

  // ----- the whole layout

  ghost predicate IsLayout(t: Trig, zone: Zone, members: seq<Member>, r: Layout) {
    && IsSettled(members, r)
    && IsFence(r.fence, r.placements) && IsOuterReach(t, zone, r.fence, r.outerReach)
    && IsFenceRadius(r.fenceRadius, r.fence)
  }

  /** Every house and every street is where it belongs. */
  predicate IsSettled(members: seq<Member>, r: Layout) {
    AllPlaced(r.placements, members) && AllStreets(r.streets, |members|)
  }

  /** The smallest radius from 8 up whose disc covers the square fence from its centre. */
  predicate IsFenceRadius(radius: real, f: Bounds) {
    && radius >= 8.0 && SquareOf(f.maxX - f.minX) <= 2.0 * SquareOf(radius)
    && (radius == 8.0 || SquareOf(f.maxX - f.minX) == 2.0 * SquareOf(radius))
  }

  function SquareOf(x: real): real { x * x }

  method FenceRadius(halfExtent: real, sqrt2: real, ghost f: Bounds) returns (radius: real)
    requires halfExtent > 0.0 && sqrt2 > 0.0 && sqrt2 * sqrt2 == 2.0 && f.maxX - f.minX == 2.0 * halfExtent
    ensures IsFenceRadius(radius, f)
  {
    var r := halfExtent * sqrt2;
    radius := if r >= 8.0 then r else 8.0;
    assert SquareOf(f.maxX - f.minX) == 4.0 * (halfExtent * halfExtent);
    assert r * r == halfExtent * halfExtent * (sqrt2 * sqrt2);
    ProductNonNegative(halfExtent, sqrt2);
    if r < radius { SquareStrict(r, radius); }
  }

  const EMPTY := Layout([], [], 5.0, Bounds(-5.0, 5.0, -5.0, 5.0), 0.0)

  method ComputeVillageLayout(t: Trig, sqrt2: real, members: seq<Member>, zone: Zone) returns (r: Layout)
    requires sqrt2 > 0.0 && sqrt2 * sqrt2 == 2.0
    ensures if members == [] then r == EMPTY else IsLayout(t, zone, members, r)
  {
    if members == [] { return EMPTY; }
    var placements, northCounts, southCounts := AssignSides(members);
    var streets := PlaceHouses(members, placements, northCounts, southCounts);
    var ps := placements[..];
    r := FenceOff(t, sqrt2, members, ps, streets, zone);
  }

  /** The last step of ComputeVillageLayout: the fence around the placed houses. */
  method FenceOff(t: Trig, sqrt2: real, ghost members: seq<Member>, ps: seq<Placement>, streets: seq<Street>, zone: Zone)
    returns (r: Layout)
    requires sqrt2 > 0.0 && sqrt2 * sqrt2 == 2.0 && ps != []
    requires AllPlaced(ps, members) && AllStreets(streets, |members|)
    ensures IsLayout(t, zone, members, r)
  {
    var fence, halfExtent := FenceAround(ps);
    var fenceRadius := FenceRadius(halfExtent, sqrt2, fence);
    var reach := OuterReach(t, zone, fence);
    r := Layout(ps, streets, fenceRadius, fence, reach);
  }

  /** Positions depend on nothing but the number of members. */
  lemma PositionsAreCountPure(ms: seq<Member>, ms': seq<Member>, r: Layout, r': Layout)
    requires |ms| == |ms'| && IsSettled(ms, r) && IsSettled(ms', r')
    ensures r.streets == r'.streets
    ensures forall i :: 0 <= i < |ms| ==>
      && r.placements[i].x == r'.placements[i].x && r.placements[i].z == r'.placements[i].z
      && r.placements[i].yawDeg == r'.placements[i].yawDeg && r.placements[i].side == r'.placements[i].side
  {
    forall s | 0 <= s < |r.streets|
      ensures r.streets[s] == r'.streets[s]
    {
      assert IsStreet(r.streets[s], |ms|, s) && IsStreet(r'.streets[s], |ms|, s);
    }
    forall i | 0 <= i < |ms|
      ensures Placed(r.placements[i], |ms|, i) && Placed(r'.placements[i], |ms|, i)
      ensures Assigned(r.placements[i], ms, i) && Assigned(r'.placements[i], ms', i)
    {
    }
  }

  /** Every house of a layout, with its whole extent, is inside the fence and within the outer reach. */
  lemma HousesAreEnclosed(t: Trig, zone: Zone, r: Layout, i: nat, dx: real, dz: real)
    requires Polar(t) && UnitCircle(t) && i < |r.placements|
    requires IsFence(r.fence, r.placements) && IsOuterReach(t, zone, r.fence, r.outerReach)
    requires -(HOUSE_EXTENT + PAD) <= dx <= HOUSE_EXTENT + PAD && -(HOUSE_EXTENT + PAD) <= dz <= HOUSE_EXTENT + PAD
    ensures var p := r.placements[i];
      InFence(r.fence, p.x + dx, p.z + dz) && Reach(t, zone, p.x + dx, p.z + dz) <= r.outerReach
  {
    FenceSurrounds(r.fence, r.placements, i);
    InsideIsReached(t, zone, r.fence, r.outerReach, r.placements[i], dx, dz);
  }

  lemma FenceSurrounds(f: Bounds, ps: seq<Placement>, i: nat)
    requires IsFence(f, ps) && i < |ps|
    ensures Around(f, ps[i], HOUSE_EXTENT + PAD)
  {
  }

  lemma InsideIsReached(t: Trig, zone: Zone, f: Bounds, reach: real, p: Placement, dx: real, dz: real)
    requires Polar(t) && UnitCircle(t) && CoversCorners(t, zone, f, reach) && Around(f, p, HOUSE_EXTENT + PAD)
    requires -(HOUSE_EXTENT + PAD) <= dx <= HOUSE_EXTENT + PAD && -(HOUSE_EXTENT + PAD) <= dz <= HOUSE_EXTENT + PAD
    ensures InFence(f, p.x + dx, p.z + dz) && Reach(t, zone, p.x + dx, p.z + dz) <= reach
  {
    CornersReachFarthest(t, zone, f, reach, p.x + dx, p.z + dz);
  }
}
