/** How a settled village looks: streets, sides, rows and doors, read off the placements and the streets alone. */
module VillageStreets {
  import opened Wrappers
  import opened Arithmetic
  import opened LoopPath
  import opened Zones
  import opened VillageLayout

  /** Each member has one house, in the order of the list, of the member's level or else of the first. */
  lemma HousesAreTheMembers(ms: seq<Member>, r: Layout, i: nat)
    requires IsSettled(ms, r) && i < |ms|
    ensures |r.placements| == |ms|
    ensures var p, m := r.placements[i], ms[i];
      && p.memberId == m.userId && p.memberName == m.name && p.layoutIndex == i
      && p.tier == if m.houseLevel.Some? then m.houseLevel.value else 1
  {
    assert Assigned(r.placements[i], ms, i);
  }

  /** Eight houses to a street, the streets filled in order and just enough of them. */
  lemma StreetsFillInOrder(ms: seq<Member>, r: Layout, i: nat)
    requires IsSettled(ms, r) && i < |ms|
    ensures r.placements[i].street == i / 8 < |r.streets|
    ensures 8 * (|r.streets| - 1) < |ms| <= 8 * |r.streets|
  {
    StreetExists(|ms|, i);
    assert Assigned(r.placements[i], ms, i);
  }

  /** Every house stands six from the middle of its street, on the side its door faces it from. */
  lemma DoorsFaceTheStreet(ms: seq<Member>, r: Layout, i: nat)
    requires IsSettled(ms, r) && i < |ms|
    ensures r.placements[i].street < |r.streets|
    ensures var p, middle := r.placements[i], r.streets[r.placements[i].street].centerZ;
      if p.side.North? then p.yawDeg == 0.0 && p.z == middle - 6.0 else p.yawDeg == 180.0 && p.z == middle + 6.0
  {
    StreetsFillInOrder(ms, r, i);
    var s := r.placements[i].street;
    assert Assigned(r.placements[i], ms, i) && Placed(r.placements[i], |ms|, i) && IsStreet(r.streets[s], |ms|, s);
    hide CenterZ, StartX, LongerSide, SideOf, HouseX, OnStreet;
  }

  /** The streets are eighteen apart and centred on the village: the first mirrors the last, and so on. */
  lemma StreetsAreCentred(ms: seq<Member>, r: Layout, s: nat)
    requires IsSettled(ms, r) && s < |r.streets|
    ensures s + 1 < |r.streets| ==> r.streets[s + 1].centerZ == r.streets[s].centerZ + 18.0
    ensures r.streets[s].centerZ + r.streets[|r.streets| - 1 - s].centerZ == 0.0
    ensures r.streets[s].index == s
  {
    assert IsStreet(r.streets[s], |ms|, s);
    assert IsStreet(r.streets[|r.streets| - 1 - s], |ms|, |r.streets| - 1 - s);
    if s + 1 < |r.streets| { assert IsStreet(r.streets[s + 1], |ms|, s + 1); }
  }

  /** The houses on street s among the first k placements, on one side. */
  function Houses(ps: seq<Placement>, s: nat, side: Side, k: nat): nat
    requires k <= |ps|
  {
    if k == 0 then 0
    else Houses(ps, s, side, k - 1) + if ps[k - 1].street == s && ps[k - 1].side == side then 1 else 0
  }

  lemma {:induction false} HousesAreCounted(ms: seq<Member>, r: Layout, s: nat, side: Side, k: nat)
    requires AllPlaced(r.placements, ms) && k <= |ms|
    ensures Houses(r.placements, s, side, k) == CountSide(|ms|, s, side, k)
  {
    if k > 0 {
      HousesAreCounted(ms, r, s, side, k - 1);
      assert Assigned(r.placements[k - 1], ms, k - 1);
    }
  }

  /** A street says how many houses stand on either side of it. */
  lemma StreetsCountTheirHouses(ms: seq<Member>, r: Layout, s: nat)
    requires IsSettled(ms, r) && s < |r.streets|
    ensures r.streets[s].northCount == Houses(r.placements, s, North, |ms|)
    ensures r.streets[s].southCount == Houses(r.placements, s, South, |ms|)
  {
    assert IsStreet(r.streets[s], |ms|, s);
    SideTotals(|ms|, s);
    HousesAreCounted(ms, r, s, North, |ms|);
    HousesAreCounted(ms, r, s, South, |ms|);
  }

  /** A street begins in the north; from there sides alternate if it has more than four houses, and stay otherwise. */
  lemma SidesAlternate(ms: seq<Member>, r: Layout, i: nat)
    requires IsSettled(ms, r) && i < |ms|
    ensures i % 8 == 0 ==> r.placements[i].side == North
    ensures r.placements[i].street < |r.streets|
    ensures i % 8 > 0 ==>
      var d := r.streets[r.placements[i].street];
      r.placements[i].side == r.placements[i - 1].side <==> d.northCount + d.southCount <= 4
  {
    StreetsFillInOrder(ms, r, i);
    var s := r.placements[i].street;
    assert Assigned(r.placements[i], ms, i) && IsStreet(r.streets[s], |ms|, s);
    if i % 8 > 0 {
      assert Assigned(r.placements[i - 1], ms, i - 1);
      assert StreetOf(i - 1) == StreetOf(i);
    }
  }

  /** The two stand on the same side of the same street. */
  predicate SameRow(p: Placement, q: Placement) { p.street == q.street && p.side == q.side }

  /** Nobody between the i-th and the j-th house stands in their row. */
  predicate NextInRow(ps: seq<Placement>, i: nat, j: nat)
    requires i < j < |ps|
  {
    SameRow(ps[i], ps[j]) && forall k :: i < k < j ==> !SameRow(ps[i], ps[k])
  }

  lemma SameRowIff(ms: seq<Member>, r: Layout, i: nat, k: nat)
    requires AllPlaced(r.placements, ms) && i < |ms| && k < |ms|
    ensures SameRow(r.placements[i], r.placements[k]) <==>
            StreetOf(i) == StreetOf(k) && SideOf(|ms|, i) == SideOf(|ms|, k)
  {
    assert Assigned(r.placements[i], ms, i) && Assigned(r.placements[k], ms, k);
  }

  /** How far apart the houses of a row are in the order of members. */
  function Stride(n: nat, i: nat): nat
    requires i < n
  {
    StreetExists(n, i);
    if OnStreet(n, StreetOf(i)) <= HOUSES_PER_SIDE then 1 else 2
  }

  lemma OneOn(n: nat, i: nat)
    requires i < n && i % HOUSES_PER_STREET + Stride(n, i) < HOUSES_PER_STREET && i + Stride(n, i) < n
    ensures var k := i + Stride(n, i);
      StreetOf(k) == StreetOf(i) && SideOf(n, k) == SideOf(n, i) && SlotOf(n, k) == SlotOf(n, i) + 1
  {
  }

  lemma LaterInRow(n: nat, i: nat, j: nat)
    requires i < j < n && StreetOf(i) == StreetOf(j) && SideOf(n, i) == SideOf(n, j)
    ensures i + Stride(n, i) <= j && i % HOUSES_PER_STREET + Stride(n, i) < HOUSES_PER_STREET
  {
  }

  lemma NextSlot(ms: seq<Member>, r: Layout, i: nat, j: nat)
    requires AllPlaced(r.placements, ms) && i < j < |ms| && NextInRow(r.placements, i, j)
    ensures StreetOf(i) == StreetOf(j) && SlotOf(|ms|, j) == SlotOf(|ms|, i) + 1
  {
    SameRowIff(ms, r, i, j);
    LaterInRow(|ms|, i, j);
    OneOn(|ms|, i);
    var k := i + Stride(|ms|, i);
    SameRowIff(ms, r, i, k);
    hide SlotOf, StreetOf, SideOf, Stride, AllPlaced;
  }

  /** Neighbours in a row stand five and a half apart, further to the right for the later one. */
  lemma RowsAreRegular(ms: seq<Member>, r: Layout, i: nat, j: nat)
    requires IsSettled(ms, r) && i < j < |ms| && NextInRow(r.placements, i, j)
    ensures r.placements[j].x == r.placements[i].x + 5.5
  {
    NextSlot(ms, r, i, j);
    assert Placed(r.placements[i], |ms|, i) && Placed(r.placements[j], |ms|, j);
    hide StartX, SlotOf, StreetOf, HouseZ;
  }

  /** The house before in the row, or the house itself if it is the first. */
  lemma Before(n: nat, i: nat) returns (k: nat)
    requires i < n
    ensures k <= i && StreetOf(k) == StreetOf(i) && SideOf(n, k) == SideOf(n, i)
    ensures k == i <==> SlotOf(n, i) == 0
  {
    StreetExists(n, i);
    k := if SlotOf(n, i) == 0 then i else i - Stride(n, i);
  }

  lemma FirstSlot(ms: seq<Member>, r: Layout, i: nat)
    requires AllPlaced(r.placements, ms) && i < |ms|
    requires forall k :: 0 <= k < i ==> !SameRow(r.placements[i], r.placements[k])
    ensures SlotOf(|ms|, i) == 0
  {
    var k := Before(|ms|, i);
    SameRowIff(ms, r, i, k);
    hide SlotOf, StreetOf, SideOf, AllPlaced;
  }

  /** The road is as long to the left as to the right, and the first house of a row stands two from its left end. */
  lemma RowsBeginAtTheRoad(ms: seq<Member>, r: Layout, i: nat)
    requires IsSettled(ms, r) && i < |ms|
    requires forall k :: 0 <= k < i ==> !SameRow(r.placements[i], r.placements[k])
    ensures r.placements[i].street < |r.streets|
    ensures var d := r.streets[r.placements[i].street]; d.startX + d.endX == 0.0 && r.placements[i].x == d.startX + 2.0
  {
    StreetsFillInOrder(ms, r, i);
    FirstSlot(ms, r, i);
    var s := r.placements[i].street;
    assert Assigned(r.placements[i], ms, i) && Placed(r.placements[i], |ms|, i) && IsStreet(r.streets[s], |ms|, s);
    hide SlotOf, LongerSide, OnStreet, SideOf, CenterZ;
  }

  /** The house after in the north row, or the house itself if it is the last. */
  lemma Behind(n: nat, i: nat) returns (k: nat)
    requires i < n && SideOf(n, i).North?
    ensures i <= k < n && StreetOf(k) == StreetOf(i) < StreetCount(n) && SideOf(n, k) == SideOf(n, i)
    ensures k == i <==> SlotOf(n, i) == LongerSide(n, StreetOf(i)) - 1
  {
    StreetExists(n, i);
    k := if SlotOf(n, i) == LongerSide(n, StreetOf(i)) - 1 then i else i + Stride(n, i);
    assert i % HOUSES_PER_STREET < OnStreet(n, StreetOf(i));
  }

  /** The last house of the north row stands two from the right end. */
  lemma NorthRowsEndAtTheRoad(ms: seq<Member>, r: Layout, i: nat)
    requires IsSettled(ms, r) && i < |ms| && r.placements[i].side.North?
    requires forall k :: i < k < |ms| ==> !SameRow(r.placements[i], r.placements[k])
    ensures r.placements[i].street < |r.streets|
    ensures r.placements[i].x == r.streets[r.placements[i].street].endX - 2.0
  {
    StreetsFillInOrder(ms, r, i);
    var s := r.placements[i].street;
    assert Assigned(r.placements[i], ms, i) && Placed(r.placements[i], |ms|, i) && IsStreet(r.streets[s], |ms|, s);
    var k := Behind(|ms|, i);
    SameRowIff(ms, r, i, k);
    hide SlotOf, LongerSide, OnStreet, SideOf, CenterZ, StreetOf;
  }

  // ----- the fence

  /** Of the houses in the order of their x or of their z, the first and the last are seven from the two sides. */
  ghost predicate SevenFromBoth(lo: real, hi: real, at: seq<real>) {
    && (forall i :: 0 <= i < |at| ==> lo + 7.0 <= at[i] <= hi - 7.0)
    && (exists i :: 0 <= i < |at| && at[i] == lo + 7.0) && (exists i :: 0 <= i < |at| && at[i] == hi - 7.0)
  }

  function Xs(ps: seq<Placement>): seq<real> { seq(|ps|, i requires 0 <= i < |ps| => ps[i].x) }
  function Zs(ps: seq<Placement>): seq<real> { seq(|ps|, i requires 0 <= i < |ps| => ps[i].z) }

  /** No house is nearer than seven to the fence, which is a square, and on its longer axis no wider than that takes. */
  lemma FenceIsTight(f: Bounds, ps: seq<Placement>)
    requires IsFence(f, ps)
    ensures f.maxX - f.minX == f.maxZ - f.minZ
    ensures forall i :: 0 <= i < |ps| ==>
      f.minX + 7.0 <= ps[i].x <= f.maxX - 7.0 && f.minZ + 7.0 <= ps[i].z <= f.maxZ - 7.0
    ensures SevenFromBoth(f.minX, f.maxX, Xs(ps)) || SevenFromBoth(f.minZ, f.maxZ, Zs(ps))
  {
    KeepsSeven(f, ps);
    var b :| IsExtent(b, ps) && Padded(f, b) && Centred(f, b);
    hide IsFence, Centred, Around, IsExtent, SevenFromBoth;
    var i, j, k, l := Outermost(b, ps);
    if f.minX == b.minX - PAD && f.maxX == b.maxX + PAD {
      EndsAreSeven(f.minX, f.maxX, Xs(ps), i, j);
    } else {
      EndsAreSeven(f.minZ, f.maxZ, Zs(ps), k, l);
    }
  }

  lemma Outermost(b: Bounds, ps: seq<Placement>) returns (i: nat, j: nat, k: nat, l: nat)
    requires IsExtent(b, ps)
    ensures i < |ps| && j < |ps| && k < |ps| && l < |ps|
    ensures ps[i].x == b.minX + 4.0 && ps[j].x == b.maxX - 4.0 && ps[k].z == b.minZ + 4.0 && ps[l].z == b.maxZ - 4.0
  {
    i :| i < |ps| && b.minX + HOUSE_EXTENT == ps[i].x;
    j :| j < |ps| && ps[j].x + HOUSE_EXTENT == b.maxX;
    k :| k < |ps| && b.minZ + HOUSE_EXTENT == ps[k].z;
    l :| l < |ps| && ps[l].z + HOUSE_EXTENT == b.maxZ;
  }

  lemma KeepsSeven(f: Bounds, ps: seq<Placement>)
    requires IsFence(f, ps)
    ensures forall i :: 0 <= i < |ps| ==>
      f.minX + 7.0 <= ps[i].x <= f.maxX - 7.0 && f.minZ + 7.0 <= ps[i].z <= f.maxZ - 7.0
  {
    forall i | 0 <= i < |ps|
      ensures f.minX + 7.0 <= ps[i].x <= f.maxX - 7.0 && f.minZ + 7.0 <= ps[i].z <= f.maxZ - 7.0
    {
      assert Around(f, ps[i], HOUSE_EXTENT + PAD);
    }
  }

  lemma EndsAreSeven(lo: real, hi: real, at: seq<real>, i: nat, j: nat)
    requires i < |at| && j < |at| && at[i] == lo + 7.0 && at[j] == hi - 7.0
    requires forall k :: 0 <= k < |at| ==> lo + 7.0 <= at[k] <= hi - 7.0
    ensures SevenFromBoth(lo, hi, at)
  {
  }

  // ----- turning the village

  lemma SumOfAngles(t: Trig, a: real, b: real)
    requires OddEven(t) && Differences(t)
    ensures t.sin(a + b) == t.sin(a) * t.cos(b) + t.cos(a) * t.sin(b)
    ensures t.cos(a + b) == t.cos(a) * t.cos(b) - t.sin(a) * t.sin(b)
  {
    assert Negated(b) == -b && Difference(a, Negated(b)) == a + b;
  }

  /**
   * The yaw adds to bearings: a point a distance away from the zone's centre, at a bearing from +z towards
   * +x, comes to stand at that distance at the bearing plus the yaw; a yaw of 180 degrees is half a turn.
   */
  lemma YawAddsToBearings(t: Trig, zone: Zone, distance: real, bearing: real)
    requires OddEven(t) && Differences(t)
    ensures var yaw := YawRad(t, zone);
      var c, s, x, z := t.cos(yaw), t.sin(yaw), distance * t.sin(bearing), distance * t.cos(bearing);
      && RotatedX(zone, c, s, x, z) == zone.x + distance * t.sin(bearing + yaw)
      && RotatedZ(zone, c, s, x, z) == zone.z + distance * t.cos(bearing + yaw)
    ensures zone.yawDeg == Some(180.0) ==> YawRad(t, zone) == t.pi
    ensures zone.yawDeg.None? ==> YawRad(t, zone) == 0.0
  {
    var yaw := YawRad(t, zone);
    SumOfAngles(t, bearing, yaw);
    Spread(distance, t.sin(bearing), t.cos(yaw), t.cos(bearing), t.sin(yaw));
    Spread(distance, t.cos(bearing), t.cos(yaw), -t.sin(bearing), t.sin(yaw));
    hide OddEven, Differences, YawRad;
  }

  lemma Spread(d: real, a: real, b: real, c: real, e: real)
    ensures d * (a * b + c * e) == d * a * b + d * c * e
  {
  }
}
