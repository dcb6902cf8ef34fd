/** The zones of the world, derived from the layout scale. */
module Zones {
  import opened Wrappers
  import opened Arithmetic
  import opened LoopPath

  const BASELINE_REPO_COUNT := 8
  const BASELINE_ORCHARD_RADIUS := 18.0
  const ORCHARD_RADIUS_MAX := 70.0
  const RADIUS_PER_REPO_ABOVE_FLOOR := 2.5

  /** The part of the layout scale that varies with the number of repositories. */
  datatype LayoutScale = LayoutScale(orchardRadius: real)
  datatype Tier = Hub | Activity | Habitation
  datatype ZoneDecl = ZoneDecl(name: string, tier: Tier, baselineX: real, baselineZ: real, radius: real,
                               yawDeg: Option<real>)
  datatype Zone = Zone(name: string, tier: Tier, x: real, z: real, radius: real, yawDeg: Option<real>)

  const ZONE_DECLS: seq<ZoneDecl> := [
    ZoneDecl("orchard", Hub, 0.0, 0.0, BASELINE_ORCHARD_RADIUS, None),
    ZoneDecl("pavilion", Activity, 0.0, -28.0, 6.0, None),
    ZoneDecl("coffee_bar", Activity, -26.0, 10.0, 8.0, None),
    ZoneDecl("cafeteria", Activity, 26.0, 10.0, 8.0, None),
    ZoneDecl("housing", Habitation, -44.0, 52.0, 14.0, Some(-25.0)),
    ZoneDecl("pool", Habitation, 30.0, 40.0, 10.0, None)]

  function ComputeLayoutScale(repoCount: int): LayoutScale {
    var above := if repoCount > BASELINE_REPO_COUNT then repoCount - BASELINE_REPO_COUNT else 0;
    var r := BASELINE_ORCHARD_RADIUS + RADIUS_PER_REPO_ABOVE_FLOOR * above as real;
    LayoutScale(if r < ORCHARD_RADIUS_MAX then r else ORCHARD_RADIUS_MAX)
  }

  const BASELINE: LayoutScale := ComputeLayoutScale(BASELINE_REPO_COUNT)

  function BuildZone(t: Trig, d: ZoneDecl, scale: LayoutScale): Zone {
    if d.tier.Hub? then Zone(d.name, d.tier, 0.0, 0.0, scale.orchardRadius, d.yawDeg)
    else
      var angle := t.atan2(d.baselineZ, d.baselineX);
      var gapFromRim := t.hypot(d.baselineX, d.baselineZ) - BASELINE_ORCHARD_RADIUS - d.radius;
      var dist := scale.orchardRadius + gapFromRim + d.radius;
      Zone(d.name, d.tier, t.cos(angle) * dist, t.sin(angle) * dist, d.radius, d.yawDeg)
  }

  function BuildZones(t: Trig, scale: LayoutScale): seq<Zone> {
    seq(|ZONE_DECLS|, i requires 0 <= i < |ZONE_DECLS| => BuildZone(t, ZONE_DECLS[i], scale))
  }

  function FindZone(zones: seq<Zone>, name: string): Option<Zone> {
    if zones == [] then None
    else if zones[0].name == name then Some(zones[0])
    else FindZone(zones[1..], name)
  }

  /** The scale grows with the repositories, from the baseline up to the cap. */
  lemma ScaleCurve(m: int, n: int)
    requires m <= n
    ensures BASELINE_ORCHARD_RADIUS <= ComputeLayoutScale(m).orchardRadius
    ensures ComputeLayoutScale(m).orchardRadius <= ComputeLayoutScale(n).orchardRadius <= ORCHARD_RADIUS_MAX
    ensures BASELINE.orchardRadius == BASELINE_ORCHARD_RADIUS
  {
    if m > BASELINE_REPO_COUNT {
      var a, b := (m - BASELINE_REPO_COUNT) as real, (n - BASELINE_REPO_COUNT) as real;
      assert 2.5 * a <= 2.5 * b;
    }
  }

  /** Eight repositories give the baseline, and each further one two and a half more, until the cap is reached. */
  lemma ScaleSteps(n: int)
    ensures n <= 8 ==> ComputeLayoutScale(n).orchardRadius == 18.0
    ensures n >= 8 && ComputeLayoutScale(n).orchardRadius <= 67.5 ==>
            ComputeLayoutScale(n + 1).orchardRadius == ComputeLayoutScale(n).orchardRadius + 2.5
    ensures ComputeLayoutScale(n).orchardRadius == 70.0 <==> n >= 29
    ensures ComputeLayoutScale(15).orchardRadius == 35.5 && ComputeLayoutScale(28).orchardRadius == 68.0
  {
    if n > 8 {
      var a, b := (n - 8) as real, (n + 1 - 8) as real;
      assert 2.5 * b == 2.5 * a + 2.5;
    }
  }

  /** Whatever the scale, a zone keeps its name, tier and yaw; all but the hub keep their radius. */
  lemma ZonesKeepTheirKind(t: Trig, scale: LayoutScale, i: nat)
    requires i < |ZONE_DECLS|
    ensures |BuildZones(t, scale)| == |ZONE_DECLS|
    ensures var z, d := BuildZones(t, scale)[i], ZONE_DECLS[i];
      && z.name == d.name && z.tier == d.tier && z.yawDeg == d.yawDeg
      && (if d.tier.Hub? then z.x == z.z == 0.0 && z.radius == scale.orchardRadius else z.radius == d.radius)
    ensures BuildZones(t, scale)[i].yawDeg.Some? <==> ZONE_DECLS[i].name == "housing"
  {
    assert BuildZones(t, scale)[i] == BuildZone(t, ZONE_DECLS[i], scale);
  }

  /** A zone stays on the ray from the origin through its declared place, as much farther out as the orchard's rim. */
  lemma ZonesStayOnTheirRay(t: Trig, d: ZoneDecl, scale: LayoutScale)
    requires Polar(t) && !d.tier.Hub?
    ensures var z, h := BuildZone(t, d, scale), t.hypot(d.baselineX, d.baselineZ);
      && z.x * h == d.baselineX * (h + (scale.orchardRadius - 18.0))
      && z.z * h == d.baselineZ * (h + (scale.orchardRadius - 18.0))
  {
    var h, angle := t.hypot(d.baselineX, d.baselineZ), t.atan2(d.baselineZ, d.baselineX);
    assert h * t.cos(angle) == d.baselineX && h * t.sin(angle) == d.baselineZ;
    var dist := h + (scale.orchardRadius - 18.0);
    var z := BuildZone(t, d, scale);
    assert z.x == t.cos(angle) * dist && z.z == t.sin(angle) * dist;
    OnRay(h, t.cos(angle), dist, z.x, d.baselineX);
    OnRay(h, t.sin(angle), dist, z.z, d.baselineZ);
  }

  lemma OnRay(h: real, c: real, dist: real, p: real, baseline: real)
    requires p == c * dist && h * c == baseline
    ensures p * h == baseline * dist
  {
    assert c * dist * h == (h * c) * dist;
  }

  /** At the baseline every zone is where it was declared. */
  lemma BaselineIsDeclared(t: Trig, d: ZoneDecl)
    requires Polar(t) && !d.tier.Hub?
    ensures var z := BuildZone(t, d, LayoutScale(BASELINE_ORCHARD_RADIUS)); z.x == d.baselineX && z.z == d.baselineZ
  {
    var h := t.hypot(d.baselineX, d.baselineZ);
    assert h * t.cos(t.atan2(d.baselineZ, d.baselineX)) == d.baselineX;
  }

  lemma SquareOfPolar(c: real, s: real, dist: real)
    requires s * s + c * c == 1.0
    ensures (c * dist) * (c * dist) + (s * dist) * (s * dist) == dist * dist
  {
    assert (c * dist) * (c * dist) + (s * dist) * (s * dist) == (s * s + c * c) * (dist * dist);
  }

  /** A zone moves straight outwards with the orchard's rim: its gap to the rim never changes. */
  lemma GapIsKept(t: Trig, d: ZoneDecl, scale: LayoutScale)
    requires Polar(t) && UnitCircle(t) && !d.tier.Hub?
    requires scale.orchardRadius >= BASELINE_ORCHARD_RADIUS
    ensures var z := BuildZone(t, d, scale);
      t.hypot(z.x, z.z) - z.radius - scale.orchardRadius ==
      t.hypot(d.baselineX, d.baselineZ) - d.radius - BASELINE_ORCHARD_RADIUS
  {
    var angle := t.atan2(d.baselineZ, d.baselineX);
    var dist := t.hypot(d.baselineX, d.baselineZ) + (scale.orchardRadius - BASELINE_ORCHARD_RADIUS);
    var z := BuildZone(t, d, scale);
    assert z.x == t.cos(angle) * dist && z.z == t.sin(angle) * dist;
    SquareOfPolar(t.cos(angle), t.sin(angle), dist);
    var h := t.hypot(z.x, z.z);
    if h < dist { SquareStrict(h, dist); }
    if dist < h { SquareStrict(dist, h); }
  }

  /** The zones tell the scale: they agree exactly when the orchard radius does. */
  lemma ZonesTellTheScale(t: Trig, a: LayoutScale, b: LayoutScale)
    ensures BuildZones(t, a) == BuildZones(t, b) <==> a == b
  {
    assert BuildZones(t, a)[0].radius == a.orchardRadius && BuildZones(t, b)[0].radius == b.orchardRadius;
  }

  lemma {:induction false} FindZoneFinds(zones: seq<Zone>, name: string)
    ensures FindZone(zones, name).Some? <==> exists i :: 0 <= i < |zones| && zones[i].name == name
    ensures FindZone(zones, name).Some? ==>
            FindZone(zones, name).value in zones && FindZone(zones, name).value.name == name
  {
    if zones != [] && zones[0].name != name {
      FindZoneFinds(zones[1..], name);
      assert zones == [zones[0]] + zones[1..];
      if i :| 0 <= i < |zones| && zones[i].name == name { assert zones[1..][i - 1].name == name; }
    }
  }

  predicate Declared(name: string) { exists i :: 0 <= i < |ZONE_DECLS| && ZONE_DECLS[i].name == name }

  /** Looking a zone up succeeds exactly for the declared names, at every scale. */
  lemma DeclaredZonesAreFound(t: Trig, scale: LayoutScale, name: string)
    ensures FindZone(BuildZones(t, scale), name).Some? <==> Declared(name)
  {
    var zones := BuildZones(t, scale);
    FindZoneFinds(zones, name);
    assert forall i :: 0 <= i < |zones| ==> zones[i].name == ZONE_DECLS[i].name;
  }
}
