/** Where the trees and the agents at them stand: turns and distances, read off the positions. */
module TreePlaces {
  import opened Wrappers
  import opened Arithmetic
  import opened LoopPath
  import opened Zones
  import opened TreePositions

  // ----- turns about the centre

  /** Two vectors of these lengths, the second one turned from the first by the angle with this cosine and sine. */
  predicate OffFrom(wx: real, wz: real, dist: real, vx: real, vz: real, length: real, c: real, s: real) {
    && wx * wx + wz * wz == dist * dist && vx * vx + vz * vz == length * length
    && wx * vx + wz * vz == length * dist * c
    && wx * vz - wz * vx == length * dist * s
  }

  /** Both points are on the circle about the centre, the second one a turn further from +x towards +z. */
  predicate TurnedBy(t: Trig, o: Zone, p: Point, q: Point, radius: real, turn: real) {
    OffFrom(p.x - o.x, p.z - o.z, radius, q.x - o.x, q.z - o.z, radius, t.cos(turn), t.sin(turn))
  }

  lemma UnitAt(t: Trig, a: real)
    requires UnitCircle(t)
    ensures t.sin(a) * t.sin(a) + t.cos(a) * t.cos(a) == 1.0
  {
  }

  lemma TurnAt(t: Trig, a: real, b: real, turn: real)
    requires Differences(t) && b - a == turn
    ensures t.cos(turn) == t.cos(b) * t.cos(a) + t.sin(b) * t.sin(a)
    ensures t.sin(turn) == t.sin(b) * t.cos(a) - t.cos(b) * t.sin(a)
  {
    assert Difference(b, a) == turn;
  }

  lemma TurnOnCircle(r: real, ca: real, sa: real, cb: real, sb: real, px: real, pz: real, qx: real, qz: real,
                     c: real, s: real)
    requires px == ca * r && pz == sa * r && qx == cb * r && qz == sb * r
    requires sa * sa + ca * ca == 1.0 && sb * sb + cb * cb == 1.0 && c == cb * ca + sb * sa && s == sb * ca - cb * sa
    ensures OffFrom(px, pz, r, qx, qz, r, c, s)
  {
    assert px * px + pz * pz == r * r * (sa * sa + ca * ca);
    assert qx * qx + qz * qz == r * r * (sb * sb + cb * cb);
    assert px * qx + pz * qz == r * r * (cb * ca + sb * sa);
    assert px * qz - pz * qx == r * r * (sb * ca - cb * sa);
  }

  lemma PartsOnCircle(t: Trig, o: Zone, a: real, radius: real)
    ensures OnCircle(t, o, a, radius).x - o.x == t.cos(a) * radius
    ensures OnCircle(t, o, a, radius).z - o.z == t.sin(a) * radius
  {
  }

  lemma CircleTurn(t: Trig, o: Zone, a: real, b: real, radius: real, turn: real)
    requires UnitCircle(t) && Differences(t) && b - a == turn
    ensures TurnedBy(t, o, OnCircle(t, o, a, radius), OnCircle(t, o, b, radius), radius, turn)
  {
    hide UnitCircle, Differences, OffFrom, OnCircle;
    PartsOnCircle(t, o, a, radius);
    PartsOnCircle(t, o, b, radius);
    UnitAt(t, a);
    UnitAt(t, b);
    TurnAt(t, a, b, turn);
    var p, q := OnCircle(t, o, a, radius), OnCircle(t, o, b, radius);
    TurnOnCircle(radius, t.cos(a), t.sin(a), t.cos(b), t.sin(b), p.x - o.x, p.z - o.z, q.x - o.x, q.z - o.z,
                 t.cos(turn), t.sin(turn));
  }

  lemma EvenSteps(i: real, n: real, step: real, from: real, a: real, b: real)
    requires n > 0.0 && a == i / n * step + from && b == (i + 1.0) / n * step + from
    ensures b - a == step / n
  {
    var q := 1.0 / n;
    assert (i + 1.0) / n == i / n + q;
    assert (i / n + q) * step == i / n * step + q * step;
    assert q * step == step / n;
  }

  /** The radius of a ring: from three tenths of the orchard's, in equal steps towards nineteen twentieths. */
  function Radius(o: Zone, count: nat, ring: nat): real
    requires count > 0
  {
    o.radius * 0.3 + ring as real * (o.radius * 0.65 / RingCount(count) as real)
  }

  lemma RadiusIs(o: Zone, count: nat, ring: nat)
    requires count > 0
    ensures RingRadius(o, count, ring) == Radius(o, count, ring)
  {
    var k, step := RingCount(count) as real, o.radius * 0.65 / RingCount(count) as real;
    assert step * k == o.radius * 0.65;
    assert ring as real * step * k == ring as real * o.radius * 0.65;
    QuotientIs(ring as real * o.radius * OUTER_RING_FACTOR, k, ring as real * step);
  }

  lemma RingTreeIs(t: Trig, o: Zone, count: nat, ps: seq<Point>, ring: nat, i: nat)
    requires IsPacking(t, o, count, ps) && count > 8 && ring < RingCount(count) && i < OnRing(count, ring)
    ensures Inside(ring) + i < |ps|
    ensures ps[Inside(ring) + i] == OnCircle(t, o, RingAngle(t, count, ring, i), Radius(o, count, ring))
  {
    TreeOnRing(t, o, count, RingCount(count), ring, i);
    hide IsPacking, Rings, RingAngle, RingRadius, Radius, RingCount, OnRing, OnCircle;
    RadiusIs(o, count, ring);
  }

  /** On a ring the first tree is half a radian further for every ring, and each next one an equal part of a turn on. */
  lemma RingsAreEvenlySpaced(t: Trig, o: Zone, count: nat, ps: seq<Point>, ring: nat, i: nat)
    requires UnitCircle(t) && Differences(t) && IsPacking(t, o, count, ps) && count > 8
    requires ring < RingCount(count) && i < OnRing(count, ring)
    ensures Inside(ring) + i < |ps|
    ensures i == 0 ==> ps[Inside(ring)] == OnCircle(t, o, ring as real * 0.5, Radius(o, count, ring))
    ensures i + 1 < OnRing(count, ring) ==>
      && Inside(ring) + i + 1 < |ps|
      && TurnedBy(t, o, ps[Inside(ring) + i], ps[Inside(ring) + i + 1], Radius(o, count, ring),
                  2.0 * t.pi / OnRing(count, ring) as real)
  {
    hide IsPacking, Inside, RingCount, OnRing, RingAngle, Radius, OnCircle, TurnedBy, UnitCircle, Differences;
    RingTreeIs(t, o, count, ps, ring, i);
    if i == 0 { FirstAngle(t, count, ring); }
    if i + 1 < OnRing(count, ring) {
      RingTreeIs(t, o, count, ps, ring, i + 1);
      AngleStep(t, count, ring, i);
      CircleTurn(t, o, RingAngle(t, count, ring, i), RingAngle(t, count, ring, i + 1), Radius(o, count, ring),
                 2.0 * t.pi / OnRing(count, ring) as real);
    }
  }

  lemma FirstAngle(t: Trig, count: nat, ring: nat)
    requires OnRing(count, ring) > 0
    ensures RingAngle(t, count, ring, 0) == ring as real * 0.5
  {
    QuotientIs(0.0, OnRing(count, ring) as real, 0.0);
  }

  lemma AngleStep(t: Trig, count: nat, ring: nat, i: nat)
    requires i + 1 < OnRing(count, ring)
    ensures RingAngle(t, count, ring, i + 1) - RingAngle(t, count, ring, i) == 2.0 * t.pi / OnRing(count, ring) as real
  {
    var n := OnRing(count, ring) as real;
    hide OnRing;
    assert RingAngle(t, count, ring, i) == i as real / n * (2.0 * t.pi) + ring as real * 0.5;
    assert RingAngle(t, count, ring, i + 1) == (i as real + 1.0) / n * (2.0 * t.pi) + ring as real * 0.5;
    EvenSteps(i as real, n, 2.0 * t.pi, ring as real * 0.5, RingAngle(t, count, ring, i),
              RingAngle(t, count, ring, i + 1));
  }

  /** Up to eight trees stand on three quarters of a circle about +x, from one end to the other in equal steps. */
  lemma ArcIsEvenlySpaced(t: Trig, o: Zone, count: nat, ps: seq<Point>, i: nat)
    requires UnitCircle(t) && Differences(t) && IsPacking(t, o, count, ps) && i < count <= 8
    ensures i == 0 ==> ps[0] == OnCircle(t, o, -0.75 * t.pi, o.radius * 0.65)
    ensures i + 1 < count ==> TurnedBy(t, o, ps[i], ps[i + 1], o.radius * 0.65, 1.5 * t.pi / (count - 1) as real)
    ensures i == count - 1 > 0 ==> ps[i] == OnCircle(t, o, 0.75 * t.pi, o.radius * 0.65)
  {
    assert ps[i] == ArcTree(t, o, count, i);
    ArcEnds(t, count);
    if i + 1 < count {
      assert ps[i + 1] == ArcTree(t, o, count, i + 1);
      ArcStep(t, count, i);
      hide ArcAngle, TurnedBy, UnitCircle, Differences;
      CircleTurn(t, o, ArcAngle(t, count, i), ArcAngle(t, count, i + 1), o.radius * 0.65,
                 1.5 * t.pi / (count - 1) as real);
    }
  }

  lemma ArcEnds(t: Trig, count: nat)
    requires count > 0
    ensures ArcAngle(t, count, 0) == -0.75 * t.pi
    ensures count > 1 ==> ArcAngle(t, count, count - 1) == 0.75 * t.pi
  {
    QuotientIs(0.0, (if count >= 2 then count - 1 else 1) as real, 0.0);
    if count > 1 { QuotientIs((count - 1) as real, (count - 1) as real, 1.0); }
  }

  lemma ArcStep(t: Trig, count: nat, i: nat)
    requires i + 1 < count
    ensures ArcAngle(t, count, i + 1) - ArcAngle(t, count, i) == 1.5 * t.pi / (count - 1) as real
  {
    var n := (count - 1) as real;
    assert (i + 1) as real == i as real + 1.0;
    EvenSteps(i as real, n, t.pi * 1.5, -(t.pi * 0.75), ArcAngle(t, count, i), ArcAngle(t, count, i + 1));
  }

  // ----- no two trees in one place

  lemma SineOfPi(t: Trig)
    requires UnitCircle(t) && t.cos(t.pi) == -1.0
    ensures t.sin(t.pi) == 0.0
  {
    assert t.sin(t.pi) * t.sin(t.pi) + t.cos(t.pi) * t.cos(t.pi) == 1.0;
    NoSquareLeft(t.cos(t.pi), t.sin(t.pi));
  }

  lemma NoSquareLeft(c: real, s: real)
    requires s * s + c * c == 1.0 && (c == 1.0 || c == -1.0)
    ensures s == 0.0
  {
    assert c * c == 1.0;
    assert (-s) * (-s) == s * s;
    if s > 0.0 { SquareStrict(0.0, s); }
    if s < 0.0 { SquareStrict(0.0, -s); }
  }

  /** Less than a full turn does not lead back. */
  lemma NoReturn(t: Trig, turn: real)
    requires Lawful(t) && 0.0 < turn < 2.0 * t.pi
    ensures t.cos(turn) != 1.0
  {
    SineOfPi(t);
    assert Difference(turn, t.pi) == turn - t.pi;
    assert t.sin(turn - t.pi) == -t.sin(turn);
    assert t.sin(turn) * t.sin(turn) + t.cos(turn) * t.cos(turn) == 1.0;
    if t.cos(turn) == 1.0 { NoSquareLeft(t.cos(turn), t.sin(turn)); }
  }

  lemma SamePlaceSameDirection(t: Trig, o: Zone, a: real, b: real, radius: real)
    requires UnitCircle(t) && Differences(t) && radius > 0.0
    requires OnCircle(t, o, a, radius) == OnCircle(t, o, b, radius)
    ensures t.cos(b - a) == 1.0
  {
    Cancel(t.cos(a), t.cos(b), radius);
    Cancel(t.sin(a), t.sin(b), radius);
    assert Difference(b, a) == b - a;
    assert t.sin(a) * t.sin(a) + t.cos(a) * t.cos(a) == 1.0;
  }

  lemma Cancel(x: real, y: real, k: real)
    requires k > 0.0 && x * k == y * k
    ensures x == y
  {
    if x < y { ProductStrict(x, y, k); }
    if y < x { ProductStrict(y, x, k); }
  }

  lemma PartOfATurn(i: real, j: real, n: real, whole: real, a: real, b: real, from: real)
    requires 0.0 <= i < j < n && whole > 0.0 && a == i / n * whole + from && b == j / n * whole + from
    ensures 0.0 < b - a < whole
  {
    var p, q := i / n, j / n;
    assert p * n == i && q * n == j;
    if q - p <= 0.0 { ProductMonotone(q - p, 0.0, n); }
    if p < 0.0 { ProductStrict(p, 0.0, n); }
    if 1.0 <= q { ProductMonotone(1.0, q, n); }
    ProductStrict(0.0, q - p, whole);
    ProductStrict(q - p, 1.0, whole);
    assert b - a == (q - p) * whole;
  }

  lemma AnglesOnRing(t: Trig, count: nat, ring: nat, i: nat, j: nat)
    requires t.pi > 0.0 && i < j < OnRing(count, ring)
    ensures 0.0 < RingAngle(t, count, ring, j) - RingAngle(t, count, ring, i) < 2.0 * t.pi
  {
    var a, b, n := RingAngle(t, count, ring, i), RingAngle(t, count, ring, j), OnRing(count, ring) as real;
    assert a == i as real / n * (2.0 * t.pi) + ring as real * 0.5;
    assert b == j as real / n * (2.0 * t.pi) + ring as real * 0.5;
    hide OnRing, RingAngle;
    PartOfATurn(i as real, j as real, n, 2.0 * t.pi, a, b, ring as real * 0.5);
  }

  lemma RingTreesDiffer(t: Trig, o: Zone, count: nat, ring: nat, i: nat, j: nat)
    requires Lawful(t) && o.radius > 0.0 && ring < RingCount(count) && i < j < OnRing(count, ring)
    ensures RingTree(t, o, count, ring, i) != RingTree(t, o, count, ring, j)
  {
    hide UnitCircle, OddEven, Differences, Periodic, PositiveSines, Polar, OnRing, RingAngle, RingRadius, OnCircle;
    RingRadii(o, count, ring);
    AnglesOnRing(t, count, ring, i, j);
    NoReturn(t, RingAngle(t, count, ring, j) - RingAngle(t, count, ring, i));
    if RingTree(t, o, count, ring, i) == RingTree(t, o, count, ring, j) {
      SamePlaceSameDirection(t, o, RingAngle(t, count, ring, i), RingAngle(t, count, ring, j),
                             RingRadius(o, count, ring));
    }
  }

  lemma {:induction false} RingsDiffer(o: Zone, count: nat, ring: nat, outer: nat)
    requires o.radius > 0.0 && ring < outer < RingCount(count)
    ensures 0.0 < RingRadius(o, count, ring) < RingRadius(o, count, outer)
    decreases outer
  {
    RingRadii(o, count, outer - 1);
    if ring < outer - 1 { RingsDiffer(o, count, ring, outer - 1); }
  }

  lemma TreesOfRingsDiffer(t: Trig, o: Zone, count: nat, ring: nat, i: nat, outer: nat, j: nat)
    requires UnitCircle(t) && o.radius > 0.0 && ring < outer < RingCount(count)
    requires i < OnRing(count, ring) && j < OnRing(count, outer)
    ensures RingTree(t, o, count, ring, i) != RingTree(t, o, count, outer, j)
  {
    hide UnitCircle, OnCircle, RingAngle, RingRadius, OnRing;
    RingsDiffer(o, count, ring, outer);
    UnitAt(t, RingAngle(t, count, ring, i));
    UnitAt(t, RingAngle(t, count, outer, j));
    OnCircleDistance(t, o, RingAngle(t, count, ring, i), RingRadius(o, count, ring));
    OnCircleDistance(t, o, RingAngle(t, count, outer, j), RingRadius(o, count, outer));
    SquareStrict(RingRadius(o, count, ring), RingRadius(o, count, outer));
  }

  /** The ring of the k-th tree, and its place on it. */
  lemma {:induction false} PlaceOf(count: nat, k: nat, rings: nat) returns (ring: nat, i: nat)
    requires k < count && k < Inside(rings)
    ensures ring < rings && k == Inside(ring) + i && i < OnRing(count, ring)
    decreases rings
  {
    if k < Inside(rings - 1) {
      ring, i := PlaceOf(count, k, rings - 1);
    } else {
      ring, i := rings - 1, k - Inside(rings - 1);
    }
  }

  lemma ArcTreesDiffer(t: Trig, o: Zone, count: nat, i: nat, j: nat)
    requires Lawful(t) && o.radius > 0.0 && i < j < count <= 8
    ensures ArcTree(t, o, count, i) != ArcTree(t, o, count, j)
  {
    var a, b, n := ArcAngle(t, count, i), ArcAngle(t, count, j), (count - 1) as real;
    ProductStrict(0.0, 0.65, o.radius);
    PartOfArc(i as real, j as real, n, t.pi, a, b);
    hide ArcAngle, OnCircle;
    NoReturn(t, b - a);
    if ArcTree(t, o, count, i) == ArcTree(t, o, count, j) {
      SamePlaceSameDirection(t, o, a, b, o.radius * ARC_RADIUS_FACTOR);
    }
  }

  lemma PartOfArc(i: real, j: real, n: real, pi: real, a: real, b: real)
    requires 0.0 <= i < j <= n && pi > 0.0 && a == i / n * (pi * 1.5) - pi * 0.75 && b == j / n * (pi * 1.5) - pi * 0.75
    ensures 0.0 < b - a < 2.0 * pi
  {
    var p, q := i / n, j / n;
    assert p * n == i && q * n == j;
    if q - p <= 0.0 { ProductMonotone(q - p, 0.0, n); }
    if p < 0.0 { ProductStrict(p, 0.0, n); }
    if 1.0 < q { ProductStrict(1.0, q, n); }
    ProductStrict(0.0, q - p, pi * 1.5);
    ProductMonotone(q - p, 1.0, pi * 1.5);
    assert b - a == (q - p) * (pi * 1.5);
  }

  /** The k-th and the l-th tree are not on two places of one number. */
  lemma TreesOnRingsDiffer(t: Trig, o: Zone, count: nat, ring: nat, i: nat, outer: nat, j: nat)
    requires Lawful(t) && o.radius > 0.0 && ring < RingCount(count) && outer < RingCount(count)
    requires i < OnRing(count, ring) && j < OnRing(count, outer) && Inside(ring) + i < Inside(outer) + j
    ensures RingTree(t, o, count, ring, i) != RingTree(t, o, count, outer, j)
  {
    hide UnitCircle, OddEven, Differences, Periodic, PositiveSines, Polar, RingTree, RingCount, OnRing, Inside;
    if ring == outer {
      RingTreesDiffer(t, o, count, ring, i, j);
    } else if ring < outer {
      TreesOfRingsDiffer(t, o, count, ring, i, outer, j);
    } else {
      TreesOfRingsDiffer(t, o, count, outer, j, ring, i);
    }
  }

  lemma RingTreeAt(t: Trig, o: Zone, count: nat, ps: seq<Point>, k: nat) returns (ring: nat, i: nat)
    requires IsPacking(t, o, count, ps) && k < count && count > 8
    ensures ring < RingCount(count) && i < OnRing(count, ring) && k == Inside(ring) + i
    ensures ps[k] == RingTree(t, o, count, ring, i)
  {
    RingsSuffice(count);
    ring, i := PlaceOf(count, k, RingCount(count));
    TreeOnRing(t, o, count, RingCount(count), ring, i);
    hide RingTree;
  }

  /** No two trees stand in one place, however many there are. */
  lemma TreesAreDistinct(t: Trig, o: Zone, count: nat, ps: seq<Point>, k: nat, l: nat)
    requires Lawful(t) && o.radius > 0.0 && IsPacking(t, o, count, ps) && k < l < count
    ensures ps[k] != ps[l]
  {
    hide Lawful, ArcTree, RingTree, RingCount, OnRing, Inside;
    if count <= 8 {
      ArcTreesDiffer(t, o, count, k, l);
    } else {
      var ring, i := RingTreeAt(t, o, count, ps, k);
      var outer, j := RingTreeAt(t, o, count, ps, l);
      TreesOnRingsDiffer(t, o, count, ring, i, outer, j);
    }
  }

  // ----- agents at a tree

  /** The places at a tree are taken in the order 0, 1, -1, 2, -2 steps off the middle, five to a ring. */
  lemma SlotOrder(stackIndex: nat)
    ensures SignedSlot(0) == 0 && SignedSlot(1) == 1 && SignedSlot(2) == -1 && SignedSlot(3) == 2 && SignedSlot(4) == -2
    ensures stackIndex < 5 ==> AgentRing(stackIndex) == 0
    ensures SignedSlot(stackIndex + 5) == SignedSlot(stackIndex)
    ensures AgentRing(stackIndex + 5) == AgentRing(stackIndex) + 1
  {
  }

  lemma HypotAt(t: Trig, x: real, y: real)
    requires Polar(t)
    ensures t.hypot(x, y) >= 0.0 && t.hypot(x, y) * t.hypot(x, y) == x * x + y * y
  {
  }

  lemma TurnedOff(wx: real, wz: real, dist: real, rx: real, rz: real, c: real, s: real, length: real, v: Point)
    requires rx * dist == wx && rz * dist == wz && rx * rx + rz * rz == 1.0 && s * s + c * c == 1.0
    requires dist * dist == wx * wx + wz * wz && v == Turned(rx, rz, c, s, length)
    ensures OffFrom(wx, wz, dist, v.x, v.z, length, c, s)
  {
    TurnedLength(rx, rz, c, s, length);
    assert wx * v.x + wz * v.z == length * dist * (c * (rx * rx + rz * rz));
    assert wx * v.z - wz * v.x == length * dist * (s * (rx * rx + rz * rz));
  }

  /**
   * An agent stands 1.8 from its tree, and 1.2 more for every full ring before it, off the direction to the
   * centre of the orchard by as many steps as its slot says, turning from +x towards +z for a positive one.
   */
  lemma AgentPlace(t: Trig, o: Zone, tree: Point, stackIndex: nat, stepRad: real)
    requires Polar(t) && UnitCircle(t) && tree != Point(o.x, o.z)
    ensures AgentSlotAtTree(t, o, tree, stackIndex, stepRad).Some?
    ensures var p, angle :=
        AgentSlotAtTree(t, o, tree, stackIndex, stepRad).value, SignedSlot(stackIndex) as real * stepRad;
      OffFrom(o.x - tree.x, o.z - tree.z, t.hypot(o.x - tree.x, o.z - tree.z), p.x - tree.x, p.z - tree.z,
              1.8 + 1.2 * AgentRing(stackIndex) as real, t.cos(angle), t.sin(angle))
  {
    AgentDistance(t, o, tree, stackIndex, stepRad);
    hide OffFrom, SignedSlot, AgentRing, Polar, UnitCircle;
    SlotPlace(t, o, tree, stackIndex, stepRad);
    var p := AgentSlotAtTree(t, o, tree, stackIndex, stepRad).value;
    var v := SlotOffset(t, o, tree, stackIndex, stepRad).value;
    assert p.x - tree.x == v.x && p.z - tree.z == v.z;
    hide SlotOffset, AgentSlotAtTree;
  }

  lemma SlotPlace(t: Trig, o: Zone, tree: Point, stackIndex: nat, stepRad: real)
    requires Polar(t) && UnitCircle(t) && SlotOffset(t, o, tree, stackIndex, stepRad).Some?
    ensures var v, angle := SlotOffset(t, o, tree, stackIndex, stepRad).value, SignedSlot(stackIndex) as real * stepRad;
      OffFrom(o.x - tree.x, o.z - tree.z, t.hypot(o.x - tree.x, o.z - tree.z), v.x, v.z,
              1.8 + 1.2 * AgentRing(stackIndex) as real, t.cos(angle), t.sin(angle))
  {
    hide Polar, UnitCircle, OffFrom, SignedSlot, AgentRing, Turned;
    var dx, dz := o.x - tree.x, o.z - tree.z;
    var dist, angle := t.hypot(dx, dz), SignedSlot(stackIndex) as real * stepRad;
    HypotAt(t, dx, dz);
    UnitAt(t, angle);
    var rx, rz := dx / dist, dz / dist;
    UnitVector(dx, dz, dist, rx, rz);
    var v := Turned(rx, rz, t.cos(angle), t.sin(angle), SlotRadius(stackIndex));
    assert SlotOffset(t, o, tree, stackIndex, stepRad) == Some(v);
    hide SlotOffset;
    TurnedOff(dx, dz, dist, rx, rz, t.cos(angle), t.sin(angle), SlotRadius(stackIndex), v);
  }
}
