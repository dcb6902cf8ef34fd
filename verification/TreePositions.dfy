/** Repo trees in the orchard, and the places agents take at a tree. */
module TreePositions {
  import opened Wrappers
  import opened Arithmetic
  import opened LoopPath
  import opened Zones

  const ARC_RADIUS_FACTOR := 0.65
  const RINGS_DIVISOR: nat := 6
  const INNER_RING_FACTOR := 0.3
  const OUTER_RING_FACTOR := 0.65
  const PER_RING_BASE: nat := 6
  const PER_RING_GROWTH: nat := 2
  const RING_ROTATION_OFFSET_RAD := 0.5
  const TREE_OFFSET := 1.8
  const RING_STEP := 1.2
  const SLOTS_PER_RING: nat := 5

  datatype Point = Point(x: real, z: real)

  /** The orchard is a zone at every scale: at the origin, with the radius of the scale. */
  lemma OrchardIsThere(t: Trig, scale: LayoutScale)
    ensures FindZone(BuildZones(t, scale), "orchard") ==
            Some(Zone("orchard", Hub, 0.0, 0.0, scale.orchardRadius, None))
  {
    assert BuildZones(t, scale)[0].name == "orchard";
  }

  // ----- the packing

  /** The trees that fit on a ring, and on all rings inside it. */
  function Capacity(ring: nat): nat { PER_RING_BASE + ring * PER_RING_GROWTH }
  function Inside(ring: nat): nat { if ring == 0 then 0 else Inside(ring - 1) + Capacity(ring - 1) }

  function RingCount(count: nat): nat { (count + RINGS_DIVISOR - 1) / RINGS_DIVISOR }

  /** The trees actually on a ring: a full ring, or what is left. */
  function OnRing(count: nat, ring: nat): nat {
    if count <= Inside(ring) then 0
    else if count - Inside(ring) < Capacity(ring) then count - Inside(ring) else Capacity(ring)
  }

  lemma {:induction false} InsideIs(ring: nat)
    ensures Inside(ring) == 6 * ring + ring * (ring - 1)
  {
    if ring > 0 { InsideIs(ring - 1); }
  }

  /** The rings always have room for every tree. */
  lemma RingsSuffice(count: nat)
    ensures count <= Inside(RingCount(count))
  {
    var k := RingCount(count);
    InsideIs(k);
    if k > 0 {
      var inner := k - 1;
      assert Inside(k) == 6 * k + k * inner && count <= 6 * k && k * inner >= 0;
    }
  }

  /** A ring is used only when every ring inside it is full. */
  lemma {:induction false} InnerRingsAreFull(count: nat, ring: nat, outer: nat)
    requires ring < outer && OnRing(count, outer) > 0
    ensures OnRing(count, ring) == Capacity(ring)
    decreases outer
  {
    if ring < outer - 1 {
      assert Inside(outer) == Inside(outer - 1) + Capacity(outer - 1);
      InnerRingsAreFull(count, ring, outer - 1);
    }
  }

  function OnCircle(t: Trig, o: Zone, angle: real, radius: real): Point {
    Point(o.x + t.cos(angle) * radius, o.z + t.sin(angle) * radius)
  }

  function RingRadius(o: Zone, count: nat, ring: nat): real
    requires count > 0
  {
    o.radius * INNER_RING_FACTOR + (ring as real * o.radius * OUTER_RING_FACTOR) / RingCount(count) as real
  }

  function RingAngle(t: Trig, count: nat, ring: nat, i: nat): real
    requires OnRing(count, ring) > i
  {
    (i as real / OnRing(count, ring) as real) * t.pi * 2.0 + ring as real * RING_ROTATION_OFFSET_RAD
  }

  /** Where the i-th tree of a ring stands. */
  function RingTree(t: Trig, o: Zone, count: nat, ring: nat, i: nat): Point
    requires OnRing(count, ring) > i
  {
    OnCircle(t, o, RingAngle(t, count, ring, i), RingRadius(o, count, ring))
  }

  function ArcAngle(t: Trig, count: nat, i: nat): real {
    var gaps := if count >= 2 then count - 1 else 1;
    (i as real / gaps as real) * (t.pi * 1.5) - t.pi * 0.75
  }

  /** Where the i-th of at most eight trees stands: on an arc about +x. */
  function ArcTree(t: Trig, o: Zone, count: nat, i: nat): Point {
    OnCircle(t, o, ArcAngle(t, count, i), o.radius * ARC_RADIUS_FACTOR)
  }

  function RingTrees(t: Trig, o: Zone, count: nat, ring: nat): (ps: seq<Point>)
    ensures |ps| == OnRing(count, ring)
  {
    seq(OnRing(count, ring), i requires 0 <= i < OnRing(count, ring) => RingTree(t, o, count, ring, i))
  }

  /** The trees of the first rings, from the inside. */
  function Rings(t: Trig, o: Zone, count: nat, rings: nat): seq<Point> {
    if rings == 0 then [] else Rings(t, o, count, rings - 1) + RingTrees(t, o, count, rings - 1)
  }

  /** The positions of the trees: on one arc, or on as many rings as it takes. */
  predicate IsPacking(t: Trig, o: Zone, count: nat, ps: seq<Point>) {
    && |ps| == count
    && (count <= 8 ==> forall i :: 0 <= i < count ==> ps[i] == ArcTree(t, o, count, i))
    && (count > 8 ==> ps == Rings(t, o, count, RingCount(count)))
  }

  lemma {:induction false} RingsHold(t: Trig, o: Zone, count: nat, rings: nat)
    ensures |Rings(t, o, count, rings)| == if Inside(rings) <= count then Inside(rings) else count
  {
    if rings > 0 { RingsHold(t, o, count, rings - 1); }
  }

  lemma {:induction false} TreeOnRing(t: Trig, o: Zone, count: nat, rings: nat, ring: nat, i: nat)
    requires ring < rings && i < OnRing(count, ring)
    ensures Inside(ring) + i < |Rings(t, o, count, rings)|
    ensures Rings(t, o, count, rings)[Inside(ring) + i] == RingTrees(t, o, count, ring)[i]
    decreases rings
  {
    hide RingTree;
    var inner, last := Rings(t, o, count, rings - 1), RingTrees(t, o, count, rings - 1);
    RingsHold(t, o, count, rings - 1);
    if ring < rings - 1 {
      TreeOnRing(t, o, count, rings - 1, ring, i);
      assert (inner + last)[Inside(ring) + i] == inner[Inside(ring) + i];
    } else {
      assert |inner| == Inside(ring);
      assert (inner + last)[Inside(ring) + i] == last[i];
    }
  }

  method GetTreePositions(t: Trig, o: Zone, count: int) returns (ps: seq<Point>)
    ensures if count <= 0 then ps == [] else IsPacking(t, o, count, ps)
  {
    ps := [];
    if count <= 8 {
      var arcRadius := o.radius * ARC_RADIUS_FACTOR;
      var i := 0;
      while i < count
        invariant 0 <= i == |ps| && (i > 0 ==> i <= count)
        invariant i > 0 ==> forall j :: 0 <= j < i ==> ps[j] == ArcTree(t, o, count, j)
      {
        var gaps := if count - 1 >= 1 then count - 1 else 1;
        var angle := (i as real / gaps as real) * (t.pi * 1.5) - t.pi * 0.75;
        ps := ps + [OnCircle(t, o, angle, arcRadius)];
        i := i + 1;
      }
    } else {
      ps := PackRings(t, o, count);
    }
  }

  lemma {:induction false} InsideGrows(a: nat, b: nat)
    requires a <= b
    ensures Inside(a) <= Inside(b)
    decreases b
  {
    if a < b { InsideGrows(a, b - 1); }
  }

  lemma {:induction false} NothingFartherOut(t: Trig, o: Zone, count: nat, ring: nat, rings: nat)
    requires ring <= rings && count <= Inside(ring)
    ensures Rings(t, o, count, rings) == Rings(t, o, count, ring)
    decreases rings
  {
    if ring < rings {
      NothingFartherOut(t, o, count, ring, rings - 1);
      InsideGrows(ring, rings - 1);
    }
  }

  method PackRings(t: Trig, o: Zone, count: nat) returns (ps: seq<Point>)
    requires count > 8
    ensures IsPacking(t, o, count, ps)
  {
    var rings := RingCount(count);
    ps := [];
    var ring: nat := 0;
    while ring < rings && |ps| < count
      invariant ring <= rings && ps == Rings(t, o, count, ring)
      decreases rings - ring
    {
      RingsHold(t, o, count, ring);
      var room := Capacity(ring);
      var perRing := if room < count - |ps| then room else count - |ps|;
      ps := PackRing(t, o, count, ring, perRing, ps);
      ring := ring + 1;
    }
    RingsSuffice(count);
    RingsHold(t, o, count, ring);
    if |ps| == count { NothingFartherOut(t, o, count, ring, rings); }
  }

  /** The inner loop of PackRings: one ring. */
  method PackRing(t: Trig, o: Zone, count: nat, ring: nat, perRing: nat, sofar: seq<Point>) returns (ps: seq<Point>)
    requires perRing == OnRing(count, ring) && |sofar| + perRing <= count
    ensures ps == sofar + RingTrees(t, o, count, ring)
  {
    ps := sofar;
    var i: nat := 0;
    while i < perRing && |ps| < count
      invariant i <= perRing && |ps| == |sofar| + i
      invariant ps == sofar + RingTrees(t, o, count, ring)[..i]
    {
      ps := ps + [RingTree(t, o, count, ring, i)];
      i := i + 1;
    }
  }

  // ----- how far out the trees are

  lemma OnCircleDistance(t: Trig, o: Zone, angle: real, radius: real)
    requires t.sin(angle) * t.sin(angle) + t.cos(angle) * t.cos(angle) == 1.0
    ensures var p := OnCircle(t, o, angle, radius);
      (p.x - o.x) * (p.x - o.x) + (p.z - o.z) * (p.z - o.z) == radius * radius
  {
    var c, s := t.cos(angle), t.sin(angle);
    assert (c * radius) * (c * radius) + (s * radius) * (s * radius) == (s * s + c * c) * (radius * radius);
  }

  /** Rings grow outwards and stay inside the orchard. */
  lemma RingRadii(o: Zone, count: nat, ring: nat)
    requires o.radius > 0.0 && count > 0 && ring < RingCount(count)
    ensures 0.0 < RingRadius(o, count, ring) < o.radius
    ensures RingRadius(o, count, ring) < RingRadius(o, count, ring + 1)
  {
    var k := RingCount(count) as real;
    var q := (o.radius * OUTER_RING_FACTOR) / k;
    assert q * k == o.radius * OUTER_RING_FACTOR;
    assert q > 0.0;
    QuotientIs(ring as real * o.radius * OUTER_RING_FACTOR, k, ring as real * q);
    QuotientIs((ring + 1) as real * o.radius * OUTER_RING_FACTOR, k, (ring + 1) as real * q);
    ProductStrict(ring as real, k, q);
    ProductNonNegative(ring as real, q);
    Distribute(ring as real, 1.0, (ring + 1) as real, q);
  }

  function FromCentre(o: Zone, p: Point): real { (p.x - o.x) * (p.x - o.x) + (p.z - o.z) * (p.z - o.z) }

  predicate InOrchard(o: Zone, p: Point) { FromCentre(o, p) < o.radius * o.radius }

  lemma CircleInOrchard(t: Trig, o: Zone, angle: real, radius: real)
    requires UnitCircle(t) && 0.0 <= radius < o.radius
    ensures InOrchard(o, OnCircle(t, o, angle, radius))
  {
    OnCircleDistance(t, o, angle, radius);
    SquareStrict(radius, o.radius);
  }

  lemma {:induction false} RingsInOrchard(t: Trig, o: Zone, count: nat, rings: nat)
    requires UnitCircle(t) && o.radius > 0.0 && count > 0 && rings <= RingCount(count)
    ensures forall p :: p in Rings(t, o, count, rings) ==> InOrchard(o, p)
  {
    if rings > 0 {
      var ring := rings - 1;
      RingsInOrchard(t, o, count, ring);
      RingRadii(o, count, ring);
      forall p | p in RingTrees(t, o, count, ring)
        ensures InOrchard(o, p)
      {
        var i :| 0 <= i < OnRing(count, ring) && p == RingTrees(t, o, count, ring)[i];
        CircleInOrchard(t, o, RingAngle(t, count, ring, i), RingRadius(o, count, ring));
      }
    }
  }

  /** Every tree stands inside the orchard. */
  lemma TreesStayInOrchard(t: Trig, o: Zone, count: nat, ps: seq<Point>)
    requires UnitCircle(t) && o.radius > 0.0 && IsPacking(t, o, count, ps)
    ensures forall p :: p in ps ==> InOrchard(o, p)
  {
    if count > 8 {
      RingsInOrchard(t, o, count, RingCount(count));
    } else {
      forall p | p in ps
        ensures InOrchard(o, p)
      {
        var i :| 0 <= i < count && p == ps[i];
        CircleInOrchard(t, o, ArcAngle(t, count, i), o.radius * ARC_RADIUS_FACTOR);
      }
    }
  }

  // ----- agents at a tree

  /** The ring of a stack index, and its slot on the ring: 0, 1, -1, 2, -2. */
  function AgentRing(stackIndex: nat): nat { stackIndex / SLOTS_PER_RING }

  function SignedSlot(stackIndex: nat): int {
    var slot := stackIndex % SLOTS_PER_RING;
    var magnitude := (slot + 1) / 2;
    if slot == 0 then 0 else if slot % 2 == 1 then magnitude else -magnitude
  }

  /** Different agents at a tree take different places. */
  lemma SlotsAreDistinct(a: nat, b: nat)
    ensures AgentRing(a) == AgentRing(b) && SignedSlot(a) == SignedSlot(b) <==> a == b
    ensures -2 <= SignedSlot(a) <= 2
  {
  }

  /** Every ring and every slot within two of the middle is taken by some agent. */
  lemma EverySlotIsUsed(ring: nat, slot: int) returns (a: nat)
    requires -2 <= slot <= 2
    ensures AgentRing(a) == ring && SignedSlot(a) == slot
  {
    a := ring * SLOTS_PER_RING + (if slot > 0 then 2 * slot - 1 else -2 * slot);
  }

  /** The vector (rx, rz), turned by an angle and stretched. */
  function Turned(rx: real, rz: real, c: real, s: real, radius: real): Point {
    Point((rx * c - rz * s) * radius, (rx * s + rz * c) * radius)
  }

  function SlotRadius(stackIndex: nat): real { TREE_OFFSET + AgentRing(stackIndex) as real * RING_STEP }

  /** How far an agent stands from its tree; nothing for a tree at the centre of the orchard. */
  function SlotOffset(t: Trig, o: Zone, tree: Point, stackIndex: nat, stepRad: real): Option<Point> {
    var dx, dz := o.x - tree.x, o.z - tree.z;
    var dist := t.hypot(dx, dz);
    if dist == 0.0 then None
    else
      var angle := SignedSlot(stackIndex) as real * stepRad;
      Some(Turned(dx / dist, dz / dist, t.cos(angle), t.sin(angle), SlotRadius(stackIndex)))
  }

  function AgentSlotAtTree(t: Trig, o: Zone, tree: Point, stackIndex: nat, stepRad: real): Option<Point> {
    var offset := SlotOffset(t, o, tree, stackIndex, stepRad);
    if offset.None? then None else Some(Point(tree.x + offset.value.x, tree.z + offset.value.z))
  }

  lemma UnitVector(dx: real, dz: real, dist: real, rx: real, rz: real)
    requires dist > 0.0 && dist * dist == dx * dx + dz * dz && rx * dist == dx && rz * dist == dz
    ensures rx * rx + rz * rz == 1.0
  {
    var square := dist * dist;
    SquareStrict(0.0, dist);
    ProductSquare(rx, dist, dx, square);
    ProductSquare(rz, dist, dz, square);
    SharesOfOne(rx * rx, rz * rz, square, dx * dx, dz * dz);
  }

  lemma SharesOfOne(a: real, b: real, whole: real, p: real, q: real)
    requires a * whole == p && b * whole == q && p + q == whole > 0.0
    ensures a + b == 1.0
  {
    assert a == p / whole && b == q / whole;
    assert p / whole + q / whole == (p + q) / whole;
  }

  lemma ProductSquare(r: real, dist: real, d: real, square: real)
    requires r * dist == d && square == dist * dist
    ensures r * r * square == d * d
  {
    assert (r * dist) * (r * dist) == r * r * (dist * dist);
  }

  lemma TurnedLength(rx: real, rz: real, c: real, s: real, radius: real)
    requires rx * rx + rz * rz == 1.0 && s * s + c * c == 1.0
    ensures var p := Turned(rx, rz, c, s, radius); p.x * p.x + p.z * p.z == radius * radius
  {
    var u, v := rx * c - rz * s, rx * s + rz * c;
    assert u * u + v * v == (rx * rx + rz * rz) * (s * s + c * c);
    assert (u * radius) * (u * radius) + (v * radius) * (v * radius) == (u * u + v * v) * (radius * radius);
  }

  /** The call fails exactly for a tree at the centre; otherwise the agent stands its ring's distance from the tree. */
  lemma AgentDistance(t: Trig, o: Zone, tree: Point, stackIndex: nat, stepRad: real)
    requires Polar(t) && UnitCircle(t)
    ensures AgentSlotAtTree(t, o, tree, stackIndex, stepRad).None? <==> tree == Point(o.x, o.z)
    ensures var offset := SlotOffset(t, o, tree, stackIndex, stepRad);
      offset.Some? ==> offset.value.x * offset.value.x + offset.value.z * offset.value.z ==
                       SlotRadius(stackIndex) * SlotRadius(stackIndex)
  {
    hide Turned, SlotRadius;
    var dx, dz := o.x - tree.x, o.z - tree.z;
    var dist := t.hypot(dx, dz);
    if dist == 0.0 {
      assert dx * dx + dz * dz == 0.0;
      assert dx * dx >= 0.0 && dz * dz >= 0.0;
    } else {
      var angle := SignedSlot(stackIndex) as real * stepRad;
      UnitVector(dx, dz, dist, dx / dist, dz / dist);
      TurnedLength(dx / dist, dz / dist, t.cos(angle), t.sin(angle), SlotRadius(stackIndex));
    }
  }
}
