/** The final ranking: racers sorted by a comparator and numbered. */
module RaceRanking {
  import opened Sorting

  datatype Entrant = Entrant(id: string, finished: bool, finishTimeMs: real, positionM: real)
  datatype Placing = Placing(racerId: string, place: nat, finished: bool, finishTimeMs: real, distanceM: real)

  /** The locale's string comparison, of which only this much is relied on. */
  type Collation = (string, string) -> int

  ghost predicate TotalCollation(cmp: Collation) {
    && (forall a, b :: cmp(a, b) == 0 <==> a == b)
    && (forall a, b :: cmp(a, b) < 0 <==> cmp(b, a) > 0)
    && (forall a, b, c :: cmp(a, b) < 0 && cmp(b, c) < 0 ==> cmp(a, c) < 0)
  }

  /** The sort comparator: negative when a comes first. */
  function Compare(a: Entrant, b: Entrant, cmp: Collation): real {
    if a.finished != b.finished then (if a.finished then -1.0 else 1.0)
    else if a.finished && a.finishTimeMs != b.finishTimeMs then a.finishTimeMs - b.finishTimeMs
    else if a.positionM != b.positionM then b.positionM - a.positionM
    else cmp(a.id, b.id) as real
  }

  function Precedes(cmp: Collation): Comparison<Entrant> { (a: Entrant, b: Entrant) => Compare(a, b, cmp) < 0.0 }

  function Placings(sorted: seq<Entrant>): seq<Placing> {
    seq(|sorted|, i requires 0 <= i < |sorted| =>
      var e := sorted[i];
      Placing(e.id, i + 1, e.finished, if e.finished then e.finishTimeMs else 0.0, e.positionM))
  }

  function CheckFinish(es: seq<Entrant>, cmp: Collation): seq<Placing> {
    Placings(Sort(es, Precedes(cmp)))
  }

  // ----- what the ranking promises

  /** The documented order: finishers by time, then distance, then id; after them the rest by distance, then id. */
  predicate RanksBefore(p: Placing, q: Placing, cmp: Collation) {
    || (p.finished && !q.finished)
    || (p.finished == q.finished
        && (|| (p.finished && p.finishTimeMs < q.finishTimeMs)
            || (p.finishTimeMs == q.finishTimeMs && p.distanceM > q.distanceM)
            || (p.finishTimeMs == q.finishTimeMs && p.distanceM == q.distanceM && cmp(p.racerId, q.racerId) < 0)))
  }

  /** Everything of an entrant that shows in a placing, but for the place. */
  function Shown(e: Entrant): Placing {
    Placing(e.id, 0, e.finished, if e.finished then e.finishTimeMs else 0.0, e.positionM)
  }

  lemma CompareIsRank(a: Entrant, b: Entrant, cmp: Collation)
    requires TotalCollation(cmp)
    ensures Compare(a, b, cmp) < 0.0 <==> RanksBefore(Shown(a), Shown(b), cmp)
    ensures Compare(a, b, cmp) == 0.0 <==> Shown(a) == Shown(b)
    ensures Compare(a, b, cmp) < 0.0 <==> Compare(b, a, cmp) > 0.0
  {
  }

  lemma CompareIsTransitive(a: Entrant, b: Entrant, c: Entrant, cmp: Collation)
    requires TotalCollation(cmp)
    requires Compare(a, b, cmp) <= 0.0 && Compare(b, c, cmp) <= 0.0
    ensures Compare(a, c, cmp) <= 0.0
  {
    if a.id != b.id && b.id != c.id && cmp(a.id, b.id) < 0 && cmp(b.id, c.id) < 0 {
      assert cmp(a.id, c.id) < 0;
    }
  }

  lemma PrecedesIsOrder(cmp: Collation)
    requires TotalCollation(cmp)
    ensures StrictWeakOrder(Precedes(cmp))
  {
    var before := Precedes(cmp);
    forall a, b
      ensures before(a, b) ==> !before(b, a)
    {
      CompareIsRank(a, b, cmp);
    }
    forall a, b, c | !before(b, a) && !before(c, b)
      ensures !before(c, a)
    {
      CompareIsRank(b, a, cmp);
      CompareIsRank(c, b, cmp);
      CompareIsRank(c, a, cmp);
      CompareIsTransitive(a, b, c, cmp);
    }
  }

  function AllShown(es: seq<Entrant>): seq<Placing> {
    seq(|es|, i requires 0 <= i < |es| => Shown(es[i]))
  }

  lemma SameHead<T>(x: T, p: seq<T>, q: seq<T>)
    requires multiset([x] + p) == multiset([x] + q)
    ensures multiset(p) == multiset(q)
  {
    assert multiset(p) == multiset([x] + p) - multiset{x};
    assert multiset(q) == multiset([x] + q) - multiset{x};
  }

  lemma TakeOut<T>(s: seq<T>, i: nat)
    requires i < |s|
    ensures s == s[..i] + ([s[i]] + s[i + 1..])
    ensures multiset(s) == multiset([s[i]] + (s[..i] + s[i + 1..]))
  {
    assert s == s[..i] + ([s[i]] + s[i + 1..]);
  }

  lemma {:induction false} ShownTogether(s: seq<Entrant>, t: seq<Entrant>)
    requires multiset(s) == multiset(t)
    ensures multiset(AllShown(s)) == multiset(AllShown(t))
  {
    if s == [] {
      assert |multiset(t)| == 0;
    } else {
      assert s[0] in multiset(t);
      var i :| 0 <= i < |t| && t[i] == s[0];
      var a, b := t[..i], t[i + 1..];
      TakeOut(t, i);
      assert s == [s[0]] + s[1..];
      SameHead(s[0], s[1..], a + b);
      ShownTogether(s[1..], a + b);
      ShownHead(s);
      ShownWithout(t, i);
    }
  }

  lemma ShownWithout(t: seq<Entrant>, i: nat)
    requires i < |t|
    ensures multiset(AllShown(t)) == multiset{Shown(t[i])} + multiset(AllShown(t[..i] + t[i + 1..]))
  {
    var shown, others := AllShown(t), AllShown(t[..i] + t[i + 1..]);
    assert others == shown[..i] + shown[i + 1..];
    TakeOut(shown, i);
  }

  lemma ShownHead(s: seq<Entrant>)
    requires s != []
    ensures AllShown(s) == [Shown(s[0])] + AllShown(s[1..])
  {
  }

  lemma HeadIsLeast(s: seq<Entrant>, t: seq<Entrant>, cmp: Collation)
    requires TotalCollation(cmp) && Ordered(s, Precedes(cmp)) && s != [] && t != []
    requires Shown(t[0]) in AllShown(s)
    ensures Compare(s[0], t[0], cmp) <= 0.0
  {
    var j :| 0 <= j < |s| && AllShown(s)[j] == Shown(t[0]);
    CompareIsRank(s[j], t[0], cmp);
    if j > 0 {
      assert !Precedes(cmp)(s[j], s[0]);
      CompareIsRank(s[j], s[0], cmp);
      CompareIsTransitive(s[0], s[j], t[0], cmp);
    }
  }

  lemma {:induction false} OrderIsUnique(s: seq<Entrant>, t: seq<Entrant>, cmp: Collation)
    requires TotalCollation(cmp) && Ordered(s, Precedes(cmp)) && Ordered(t, Precedes(cmp))
    requires |s| == |t| && multiset(AllShown(s)) == multiset(AllShown(t))
    ensures AllShown(s) == AllShown(t)
  {
    if s != [] {
      ShownHead(s);
      ShownHead(t);
      assert AllShown(s)[0] in multiset(AllShown(t)) && AllShown(t)[0] in multiset(AllShown(s));
      HeadIsLeast(s, t, cmp);
      HeadIsLeast(t, s, cmp);
      CompareIsRank(s[0], t[0], cmp);
      CompareIsRank(t[0], s[0], cmp);
      SameHead(Shown(s[0]), AllShown(s[1..]), AllShown(t[1..]));
      OrderIsUnique(s[1..], t[1..], cmp);
    }
  }

  /** Whatever algorithm sorts, and in whatever order the racers come in, the placings are the same. */
  lemma AnySortAgrees(es: seq<Entrant>, sorted: seq<Entrant>, cmp: Collation)
    requires TotalCollation(cmp)
    requires Ordered(sorted, Precedes(cmp)) && multiset(sorted) == multiset(es)
    ensures Placings(sorted) == CheckFinish(es, cmp)
  {
    PrecedesIsOrder(cmp);
    SortOrders(es, Precedes(cmp));
    ShownTogether(sorted, Sort(es, Precedes(cmp)));
    assert |sorted| == |multiset(es)| == |Sort(es, Precedes(cmp))|;
    OrderIsUnique(sorted, Sort(es, Precedes(cmp)), cmp);
    var p, q := Placings(sorted), CheckFinish(es, cmp);
    forall i | 0 <= i < |p|
      ensures p[i] == q[i]
    {
      assert AllShown(sorted)[i].(place := i + 1) == p[i];
      assert AllShown(Sort(es, Precedes(cmp)))[i].(place := i + 1) == q[i];
    }
  }

  /** Places 1 to n, every racer placed once, in the documented order, and the input order does not matter. */
  lemma CheckFinishRanks(es: seq<Entrant>, cmp: Collation)
    requires TotalCollation(cmp)
    ensures var ps := CheckFinish(es, cmp);
      && multiset(seq(|ps|, i requires 0 <= i < |ps| => ps[i].(place := 0))) == multiset(AllShown(es))
      && (forall i :: 0 <= i < |ps| ==> ps[i].place == i + 1)
      && (forall i, j :: 0 <= i < j < |ps| ==>
            RanksBefore(ps[i], ps[j], cmp) || ps[i].(place := 0) == ps[j].(place := 0))
    ensures forall fs :: multiset(fs) == multiset(es) ==> CheckFinish(fs, cmp) == CheckFinish(es, cmp)
  {
    var sorted, ps := Sort(es, Precedes(cmp)), CheckFinish(es, cmp);
    PrecedesIsOrder(cmp);
    SortOrders(es, Precedes(cmp));
    ShownTogether(sorted, es);
    assert seq(|ps|, i requires 0 <= i < |ps| => ps[i].(place := 0)) == AllShown(sorted);
    forall i, j | 0 <= i < j < |ps|
      ensures RanksBefore(ps[i], ps[j], cmp) || ps[i].(place := 0) == ps[j].(place := 0)
    {
      CompareIsRank(sorted[j], sorted[i], cmp);
      CompareIsRank(sorted[i], sorted[j], cmp);
    }
    forall fs: seq<Entrant> | multiset(fs) == multiset(es)
      ensures CheckFinish(fs, cmp) == CheckFinish(es, cmp)
    {
      AnySortAgrees(fs, sorted, cmp);
    }
  }
}
