/** What the estimates of a bucket say about its samples: how many of them lie on either side. */
module LearningPercentiles {
  import opened Wrappers
  import opened Arithmetic
  import opened Sorting
  import opened LearningRollup

  /** How many of the samples are below v, or also equal to it. */
  function Tally(w: seq<real>, v: real, orEqual: bool): nat {
    if w == [] then 0
    else Tally(w[..|w| - 1], v, orEqual) + if w[|w| - 1] < v || (orEqual && w[|w| - 1] == v) then 1 else 0
  }

  /** The sample with the least share p of the samples below it, and more than that at or below. */
  predicate UpperQuantile(w: seq<real>, v: real, p: real) {
    v in w && Tally(w, v, false) as real <= p * |w| as real < Tally(w, v, true) as real
  }

  /** The sample with less than the share p of the samples below it, and at least that at or below. */
  predicate LowerQuantile(w: seq<real>, v: real, p: real) {
    v in w && (Tally(w, v, false) as real) < p * |w| as real <= Tally(w, v, true) as real
  }

  // ----- sorting does not change who is below

  lemma {:induction false} TallySplits(a: seq<real>, b: seq<real>, v: real, orEqual: bool)
    ensures Tally(a + b, v, orEqual) == Tally(a, v, orEqual) + Tally(b, v, orEqual)
  {
    if b == [] {
      assert a + b == a;
    } else {
      assert (a + b)[..|a + b| - 1] == a + b[..|b| - 1];
      TallySplits(a, b[..|b| - 1], v, orEqual);
    }
  }

  lemma {:induction false} TallyInserted(x: real, s: seq<real>, v: real, orEqual: bool)
    ensures Tally(Insert(x, s, Below()), v, orEqual) == Tally([x], v, orEqual) + Tally(s, v, orEqual)
  {
    if s == [] || Below()(x, s[0]) {
      TallySplits([x], s, v, orEqual);
    } else {
      TallyInserted(x, s[1..], v, orEqual);
      TallySplits([s[0]], Insert(x, s[1..], Below()), v, orEqual);
      TallySplits([s[0]], s[1..], v, orEqual);
      assert [s[0]] + s[1..] == s;
    }
  }

  lemma {:induction false} TallySorted(w: seq<real>, v: real, orEqual: bool)
    ensures Tally(Sorted(w), v, orEqual) == Tally(w, v, orEqual)
  {
    if w != [] {
      var front, x := w[..|w| - 1], w[|w| - 1];
      assert front + [x] == w;
      TallySorted(front, v, orEqual);
      TallyInserted(x, Sorted(front), v, orEqual);
      TallySplits(front, [x], v, orEqual);
    }
  }

  /** In an ascending list the entries up to rank r are at most its entry, those from rank r on are not below. */
  lemma {:induction false} TallyAtRank(s: seq<real>, k: nat, r: nat)
    requires Ascending(s) && r < |s| && k <= |s|
    ensures Tally(s[..k], s[r], true) >= MinInt(k, r + 1) && Tally(s[..k], s[r], false) <= MinInt(k, r)
  {
    if k > 0 {
      TallyAtRank(s, k - 1, r);
      assert s[..k][..k - 1] == s[..k - 1];
    }
  }

  lemma RankSplits(w: seq<real>, r: nat)
    requires r < |w|
    ensures var v := Sorted(w)[r]; v in w && Tally(w, v, false) <= r < Tally(w, v, true)
  {
    var s := Sorted(w);
    SortedSorts(w);
    TallyAtRank(s, |s|, r);
    assert s[..|s|] == s && s[r] in multiset(s);
    TallySorted(w, s[r], true);
    TallySorted(w, s[r], false);
    hide Sorted, Tally;
  }

  lemma PurgeRankIsUpper(w: seq<real>, p: real)
    requires w != [] && 0.0 <= p < 1.0
    ensures UpperQuantile(w, Sorted(w)[PurgeRank(|w|, p)], p)
  {
    var r := PurgeRank(|w|, p);
    RankSplits(w, r);
    ProductStrict(p, 1.0, |w| as real);
    hide Tally, Sorted;
    assert r as real <= p * |w| as real < r as real + 1.0;
  }

  lemma NearestRankIs(n: nat, p: real)
    requires n > 0 && 0.0 < p <= 1.0
    ensures var r := NearestRank(n, p); 0 <= r < n && (r as real) < p * n as real <= r as real + 1.0
  {
    ProductStrict(0.0, p, n as real);
    ProductMonotone(p, 1.0, n as real);
  }

  lemma NearestRankIsLower(w: seq<real>, p: real)
    requires w != [] && 0.0 < p <= 1.0
    ensures 0 <= NearestRank(|w|, p) < |w| && LowerQuantile(w, Sorted(w)[NearestRank(|w|, p)], p)
  {
    hide Tally, Sorted, NearestRank;
    NearestRankIs(|w|, p);
    RankSplits(w, NearestRank(|w|, p));
  }

  predicate Extremes(w: seq<real>, least: real, greatest: real) {
    least in w && greatest in w && forall x :: x in w ==> least <= x <= greatest
  }

  lemma EndsAreExtremes(w: seq<real>)
    requires w != []
    ensures Extremes(w, Sorted(w)[0], Sorted(w)[|w| - 1])
  {
    var s := Sorted(w);
    SortedSorts(w);
    assert s[0] in multiset(s) && s[|s| - 1] in multiset(s);
    forall x | x in w
      ensures s[0] <= x <= s[|s| - 1]
    {
      assert x in multiset(w);
      var i :| 0 <= i < |s| && s[i] == x;
    }
  }

  // ----- what the estimates say

  /** A purge derives the estimates anew: upper quantiles at 50, 70 and 85 %, and the extremes; none from no sample. */
  lemma PurgeReadsUpperQuantiles(b: Bucket, id: string)
    requires id in b.ids
    ensures var r := Purged(b, id);
      if r.window == [] then
        r.p50 == r.p70 == r.p85 == r.optimistic == r.mostLikely == r.pessimistic == None
      else
        && r.p50.Some? && r.p70.Some? && r.p85.Some? && r.optimistic.Some? && r.pessimistic.Some?
        && UpperQuantile(r.window, r.p50.value, 0.5) && UpperQuantile(r.window, r.p70.value, 0.7)
        && UpperQuantile(r.window, r.p85.value, 0.85) && r.mostLikely == r.p50
        && Extremes(r.window, r.optimistic.value, r.pessimistic.value)
  {
    var w := Shortened(b, id).window;
    hide UpperQuantile, Extremes, Sorted, PurgeRank, Mean, M2;
    if w != [] {
      PurgeRankIsUpper(w, 0.5);
      PurgeRankIsUpper(w, 0.7);
      PurgeRankIsUpper(w, 0.85);
      EndsAreExtremes(w);
    }
  }

  /**
   * A roll is refused exactly for a BUD that is listed; otherwise the estimates are lower quantiles of the
   * new window at 50, 70 and 85 %, with the outer two at 5 and 95 % from ten samples on, and before the extremes.
   */
  lemma WriterReadsLowerQuantiles(b: Bucket, id: string, days: real)
    requires b.nSamples >= 0
    ensures Rolled(b, id, days).None? <==> id in b.ids
    ensures id !in b.ids ==>
      var r := Rolled(b, id, days).value;
      && r.p50.Some? && r.p70.Some? && r.p85.Some? && r.optimistic.Some? && r.pessimistic.Some?
      && LowerQuantile(r.window, r.p50.value, 0.5) && LowerQuantile(r.window, r.p70.value, 0.7)
      && LowerQuantile(r.window, r.p85.value, 0.85) && r.mostLikely == r.p50
      && if |r.window| >= 10
         then LowerQuantile(r.window, r.optimistic.value, 0.05) && LowerQuantile(r.window, r.pessimistic.value, 0.95)
         else Extremes(r.window, r.optimistic.value, r.pessimistic.value)
  {
    hide LowerQuantile, Extremes, Sorted, NearestRank, Welford;
    if id !in b.ids {
      var w := LastOnes(b.window + [days]);
      NearestRankIsLower(w, 0.5);
      NearestRankIsLower(w, 0.7);
      NearestRankIsLower(w, 0.85);
      NearestRankIsLower(w, 0.05);
      NearestRankIsLower(w, 0.95);
      EndsAreExtremes(w);
    }
  }

  /** The 70 % rank of five samples is the fourth for the writer as well as for the purge. */
  lemma FourthOfFive()
    ensures NearestRank(5, 0.7) == PurgeRank(5, 0.7) == 3
  {
    RanksAgreeIff(5, 0.7);
  }

  // ----- what leaves the lists, however long they are

  /** The list without its i-th entry; the list itself if there is none. */
  predicate LacksEntry<T(==)>(s: seq<T>, r: seq<T>, i: nat) {
    && |r| == |s| - (if i < |s| then 1 else 0)
    && (forall j :: 0 <= j < i && j < |r| ==> r[j] == s[j])
    && (forall j {:trigger r[j]} :: i <= j < |r| ==> r[j] == s[j + 1])
  }

  lemma WithoutLacks<T>(s: seq<T>, i: nat)
    requires i < |s|
    ensures LacksEntry(s, Without(s, i), i)
  {
  }

  lemma NothingLacks<T>(s: seq<T>, i: nat)
    requires i >= |s|
    ensures LacksEntry(s, s, i)
  {
  }

  /** A purge takes out the first entry of the BUD, and the sample at its place if there is one. */
  lemma PurgeTakesOne(b: Bucket, id: string, i: nat)
    requires i < |b.ids| && b.ids[i] == id && forall j :: 0 <= j < i ==> b.ids[j] != id
    ensures var r := Purged(b, id);
      && LacksEntry(b.ids, r.ids, i) && LacksEntry(b.window, r.window, i)
      && r.nSamples == if b.nSamples <= 1 then 0 else b.nSamples - 1
  {
    assert IndexOf(b.ids, id) == i;
    WithoutLacks(b.ids, i);
    if i < |b.window| { WithoutLacks(b.window, i); }
    hide PurgeEstimates, Sorted, Mean, M2, Without, LacksEntry, IndexOf;
    assert LacksEntry(b.window, Purged(b, id).window, i) by { if i >= |b.window| { NothingLacks(b.window, i); } }
  }

  /** A window holds at most the last fifty samples: a roll beyond pushes out the oldest, with its BUD. */
  lemma FiftyAreKept(b: Bucket, id: string, days: real)
    requires Parallel(b) && id !in b.ids
    ensures Rolled(b, id, days).Some?
    ensures var r := Rolled(b, id, days).value;
      && |r.window| == |r.ids| == (if |b.window| < 50 then |b.window| + 1 else 50)
      && r.ids[|r.ids| - 1] == id && r.window[|r.window| - 1] == days && r.nSamples == b.nSamples + 1
      && forall k {:trigger r.ids[k]} {:trigger r.window[k]} :: 0 <= k < |r.ids| - 1 ==>
           var from := if |b.window| < 50 then k else k + 1;
           r.ids[k] == b.ids[from] && r.window[k] == b.window[from]
  {
    RolledShape(b, id, days);
    hide Rolled;
  }
}
