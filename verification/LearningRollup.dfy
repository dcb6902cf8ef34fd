/** The velocity rollup: adding one BUD's sample to a bucket, and purging it again before a re-run. */
module LearningRollup {
  import opened Wrappers
  import opened Arithmetic
  import opened Sorting

  const SAMPLE_WINDOW_CAP: nat := 50
  const MIN_SAMPLES_FOR_PERT_PERCENTILE: nat := 10

  datatype Bucket = Bucket(
    ids: seq<string>,
    window: seq<real>,
    nSamples: int,
    p50: Option<real>,
    p70: Option<real>,
    p85: Option<real>,
    optimistic: Option<real>,
    mostLikely: Option<real>,
    pessimistic: Option<real>,
    mean: real,
    m2: real)

  // ----- window statistics

  function Sum(w: seq<real>): real { if w == [] then 0.0 else Sum(w[..|w| - 1]) + w[|w| - 1] }

  function SumOfSquares(w: seq<real>): real {
    if w == [] then 0.0 else SumOfSquares(w[..|w| - 1]) + w[|w| - 1] * w[|w| - 1]
  }

  function Mean(w: seq<real>): real { if w == [] then 0.0 else Sum(w) / |w| as real }

  /** The sum of squared distances from c. */
  function Scatter(w: seq<real>, c: real): real {
    if w == [] then 0.0 else Scatter(w[..|w| - 1], c) + (w[|w| - 1] - c) * (w[|w| - 1] - c)
  }

  function M2(w: seq<real>): real { Scatter(w, Mean(w)) }

  function Below(): Comparison<real> { (x: real, y: real) => x < y }

  function Sorted(w: seq<real>): (s: seq<real>)
    ensures |s| == |w|
  {
    Sort(w, Below())
  }

  // ----- purging a sample

  function IndexOf(ids: seq<string>, id: string): (i: nat)
    requires id in ids
    ensures i < |ids| && ids[i] == id && forall j :: 0 <= j < i ==> ids[j] != id
  {
    if ids[0] == id then 0 else 1 + IndexOf(ids[1..], id)
  }

  function Without<T>(s: seq<T>, i: nat): seq<T>
    requires i < |s|
  {
    s[..i] + s[i + 1..]
  }

  function Share(n: nat, p: real): real { n as real * p }

  lemma ShareBounds(n: nat, p: real)
    requires n > 0 && 0.0 <= p
    ensures 0.0 <= Share(n, p)
    ensures 0.0 < p < 1.0 ==> 0.0 < Share(n, p) < n as real
  {
    ProductNonNegative(n as real, p);
    if 0.0 < p < 1.0 {
      ProductStrict(0.0, p, n as real);
      ProductStrict(p, 1.0, n as real);
    }
  }

  /** The rank the purge reads a percentile at. */
  function PurgeRank(n: nat, p: real): (r: int)
    requires n > 0 && 0.0 <= p
    ensures 0 <= r < n
  {
    ShareBounds(n, p);
    MinInt(n - 1, Share(n, p).Floor)
  }

  /** The six estimate columns, which are all filled in or all empty. */
  datatype Estimates = Estimates(p50: real, p70: real, p85: real, optimistic: real, mostLikely: real, pessimistic: real)

  function WithEstimates(b: Bucket, e: Option<Estimates>): Bucket {
    if e.None? then
      b.(p50 := None, p70 := None, p85 := None, optimistic := None, mostLikely := None, pessimistic := None)
    else
      b.(p50 := Some(e.value.p50), p70 := Some(e.value.p70), p85 := Some(e.value.p85),
         optimistic := Some(e.value.optimistic), mostLikely := Some(e.value.mostLikely),
         pessimistic := Some(e.value.pessimistic))
  }

  function PurgeEstimates(s: seq<real>): Estimates
    requires s != []
  {
    var n := |s|;
    Estimates(s[PurgeRank(n, 0.5)], s[PurgeRank(n, 0.7)], s[PurgeRank(n, 0.85)], s[0], s[PurgeRank(n, 0.5)], s[n - 1])
  }

  function Rederived(b: Bucket): Bucket {
    WithEstimates(b, if b.window == [] then None else Some(PurgeEstimates(Sorted(b.window))))
      .(mean := Mean(b.window), m2 := M2(b.window))
  }

  /** The bucket without the BUD's id, its sample and its count, the derived columns still as they were. */
  function Shortened(b: Bucket, id: string): Bucket
    requires id in b.ids
  {
    var i := IndexOf(b.ids, id);
    b.(ids := Without(b.ids, i),
       window := if i < |b.window| then Without(b.window, i) else b.window,
       nSamples := MaxInt(0, b.nSamples - 1))
  }

  function Purged(b: Bucket, id: string): Bucket {
    if id !in b.ids then b else Rederived(Shortened(b, id))
  }

  // ----- adding a sample

  datatype Running = Running(n: nat, mean: real, m2: real)

  function MovedMean(m: real, x: real, n': real): real
    requires n' != 0.0
  {
    m + (x - m) / n'
  }

  function Spread(x: real, m: real, m': real): real { (x - m) * (x - m') }

  function Welford(r: Running, x: real): Running {
    var mean := MovedMean(r.mean, x, (r.n + 1) as real);
    Running(r.n + 1, mean, r.m2 + Spread(x, r.mean, mean))
  }

  /** The rank the writer reads a percentile at: nearest rank. */
  function NearestRank(n: nat, p: real): int {
    MaxInt(0, MinInt(n - 1, Ceil(Share(n, p)) - 1))
  }

  function Ceil(x: real): int { -((-x).Floor) }

  function Percentile(s: seq<real>, p: real): real
    requires s != []
  {
    s[NearestRank(|s|, p)]
  }

  function WriterEstimates(s: seq<real>): Estimates
    requires s != []
  {
    var many := |s| >= MIN_SAMPLES_FOR_PERT_PERCENTILE;
    Estimates(Percentile(s, 0.5), Percentile(s, 0.7), Percentile(s, 0.85),
              if many then Percentile(s, 0.05) else s[0], Percentile(s, 0.5),
              if many then Percentile(s, 0.95) else s[|s| - 1])
  }

  function LastOnes<T>(s: seq<T>): seq<T> {
    if |s| > SAMPLE_WINDOW_CAP then s[|s| - SAMPLE_WINDOW_CAP..] else s
  }

  /** The bucket after a BUD's sample has been rolled in, or None when it already counts. */
  function Rolled(b: Bucket, id: string, days: real): Option<Bucket>
    requires b.nSamples >= 0
  {
    if id in b.ids then None
    else
      var full := |b.window| + 1 > SAMPLE_WINDOW_CAP;
      var window := LastOnes(b.window + [days]);
      var ids := if full then LastOnes(b.ids + [id]) else b.ids + [id];
      var run := Welford(Running(b.nSamples, b.mean, b.m2), days);
      Some(WithEstimates(b, Some(WriterEstimates(Sorted(window))))
             .(ids := ids, window := window, nSamples := run.n, mean := run.mean, m2 := run.m2))
  }

  // ----- what a purge leaves

  function Pairs(b: Bucket): seq<(string, real)>
    requires |b.ids| == |b.window|
  {
    seq(|b.ids|, i requires 0 <= i < |b.ids| => (b.ids[i], b.window[i]))
  }

  /** The pairs of the other BUDs, in order. */
  function Others(pairs: seq<(string, real)>, id: string): seq<(string, real)> {
    if pairs == [] then []
    else (if pairs[0].0 == id then [] else [pairs[0]]) + Others(pairs[1..], id)
  }

  predicate Once(ids: seq<string>, id: string) {
    forall i, j :: 0 <= i < j < |ids| && ids[i] == id ==> ids[j] != id
  }

  lemma {:induction false} OthersOfNone(pairs: seq<(string, real)>, id: string)
    requires forall i :: 0 <= i < |pairs| ==> pairs[i].0 != id
    ensures Others(pairs, id) == pairs
  {
    if pairs != [] { OthersOfNone(pairs[1..], id); }
  }

  lemma {:induction false} OthersSkipOne(pairs: seq<(string, real)>, id: string, i: nat)
    requires i < |pairs| && pairs[i].0 == id
    requires forall j :: 0 <= j < |pairs| && j != i ==> pairs[j].0 != id
    ensures Others(pairs, id) == Without(pairs, i)
  {
    if i == 0 {
      OthersOfNone(pairs[1..], id);
    } else {
      OthersSkipOne(pairs[1..], id, i - 1);
      assert Without(pairs, i) == [pairs[0]] + Without(pairs[1..], i - 1);
    }
  }

  /** With parallel lists and the BUD listed at most once, exactly the other BUDs' samples survive, in order. */
  lemma PurgeKeepsTheOthers(b: Bucket, id: string)
    requires |b.ids| == |b.window| && Once(b.ids, id)
    ensures var r := Purged(b, id);
      && |r.ids| == |r.window| && id !in r.ids
      && Pairs(r) == Others(Pairs(b), id)
  {
    PurgedIds(b, id);
    if id in b.ids {
      var i := IndexOf(b.ids, id);
      NoneLeftIffOnce(b.ids, id);
      OthersSkipOne(Pairs(b), id, i);
      PairsWithout(b, Purged(b, id), i);
    } else {
      OthersOfNone(Pairs(b), id);
    }
  }

  lemma PairsWithout(b: Bucket, r: Bucket, i: nat)
    requires |b.ids| == |b.window| && i < |b.ids|
    requires r.ids == Without(b.ids, i) && r.window == Without(b.window, i)
    ensures Pairs(r) == Without(Pairs(b), i)
  {
  }

  lemma NoneLeftIffOnce(ids: seq<string>, id: string)
    requires id in ids
    ensures id !in Without(ids, IndexOf(ids, id)) <==> Once(ids, id)
  {
    var i := IndexOf(ids, id);
    var left := Without(ids, i);
    if !Once(ids, id) {
      var j, k :| 0 <= j < k < |ids| && ids[j] == id && ids[k] == id;
      assert left[k - 1] == ids[k];
    }
    if id in left {
      var k :| 0 <= k < |left| && left[k] == id;
      assert k >= i && ids[k + 1] == id;
    }
  }

  lemma PurgedIds(b: Bucket, id: string)
    ensures Purged(b, id).ids == if id in b.ids then Without(b.ids, IndexOf(b.ids, id)) else b.ids
    ensures id in b.ids && |b.ids| == |b.window| ==> Purged(b, id).window == Without(b.window, IndexOf(b.ids, id))
    ensures Purged(b, id).nSamples == if id in b.ids then MaxInt(0, b.nSamples - 1) else b.nSamples
  {
  }

  /** A second purge changes nothing exactly when the BUD was listed at most once. */
  lemma PurgeIsIdempotentIffOnce(b: Bucket, id: string)
    ensures Purged(Purged(b, id), id) == Purged(b, id) <==> Once(b.ids, id)
  {
    var r := Purged(b, id);
    PurgedIds(b, id);
    PurgedIds(r, id);
    if id in b.ids { NoneLeftIffOnce(b.ids, id); }
    hide Purged;
    if id in r.ids {
      assert |Purged(r, id).ids| == |r.ids| - 1;
    } else {
      PurgeOfNone(r, id);
    }
  }

  lemma PurgeOfNone(b: Bucket, id: string)
    requires id !in b.ids
    ensures Purged(b, id) == b
  {
  }

  // ----- the statistics are right

  ghost predicate Ascending(s: seq<real>) { forall i, j :: 0 <= i <= j < |s| ==> s[i] <= s[j] }

  lemma SortedSorts(w: seq<real>)
    ensures Ascending(Sorted(w)) && multiset(Sorted(w)) == multiset(w)
  {
    SortOrders(w, Below());
    var s := Sorted(w);
    forall i, j | 0 <= i < j < |s|
      ensures s[i] <= s[j]
    {
      assert !Below()(s[j], s[i]);
    }
  }

  lemma PurgeRanksAscend(n: nat)
    requires n > 0
    ensures 0 <= PurgeRank(n, 0.5) <= PurgeRank(n, 0.7) <= PurgeRank(n, 0.85) <= n - 1
  {
    ProductMonotone(0.5, 0.7, n as real);
    ProductMonotone(0.7, 0.85, n as real);
  }

  /** The re-derived estimates are samples, in order, and the outer two are the extremes. */
  lemma EstimatesAreOrdered(b: Bucket)
    requires b.window != []
    ensures var r := Rederived(b);
      && r.optimistic.Some? && r.p50.Some? && r.p70.Some? && r.p85.Some? && r.pessimistic.Some?
      && r.optimistic.value <= r.p50.value <= r.p70.value <= r.p85.value <= r.pessimistic.value
      && r.mostLikely == r.p50
      && (forall x :: x in [r.optimistic.value, r.p50.value, r.p70.value, r.p85.value, r.pessimistic.value] ==>
            x in b.window)
      && (forall x :: x in b.window ==> r.optimistic.value <= x <= r.pessimistic.value)
  {
    var s := Sorted(b.window);
    SortedSorts(b.window);
    PurgeRanksAscend(|s|);
    forall i | 0 <= i < |s|
      ensures s[i] in b.window
    {
      assert s[i] in multiset(s);
    }
    forall x | x in b.window
      ensures s[0] <= x <= s[|s| - 1]
    {
      assert x in multiset(b.window);
      var i :| 0 <= i < |s| && s[i] == x;
    }
  }

  // ----- where the writer and the purge read different samples

  lemma RanksOf(x: real, n: nat)
    requires 0.0 < x < n as real
    ensures MaxInt(0, MinInt(n - 1, Ceil(x) - 1)) == MinInt(n - 1, x.Floor) <==> x.Floor as real != x
  {
    if x.Floor as real == x {
      assert Ceil(x) == x.Floor;
    } else {
      assert Ceil(x) == x.Floor + 1;
    }
  }

  /** The writer and the purge read the same rank exactly when n * p is not a whole number. */
  lemma RanksAgreeIff(n: nat, p: real)
    requires n > 0 && 0.0 < p < 1.0
    ensures NearestRank(n, p) == PurgeRank(n, p) <==> Share(n, p).Floor as real != Share(n, p)
  {
    ShareBounds(n, p);
    RanksOf(Share(n, p), n);
  }

  /** The median of ten samples: the writer takes the fifth, the purge the sixth. */
  lemma MedianOfTen()
    ensures NearestRank(10, 0.5) == 4 && PurgeRank(10, 0.5) == 5
  {
  }

  lemma HalvesAreWhole(n: nat)
    ensures Share(n, 0.5).Floor as real == Share(n, 0.5) <==> n % 2 == 0
  {
    var k := n / 2;
    assert n % 2 == 0 ==> Share(n, 0.5) == k as real;
    assert n % 2 == 1 ==> Share(n, 0.5) == k as real + 0.5;
  }

  /** An odd count times an odd number of hundredths over an even number is never whole. */
  lemma OddSharesAreNotWhole(n: nat)
    requires n % 2 == 1
    ensures Share(n, 0.7).Floor as real != Share(n, 0.7) && Share(n, 0.85).Floor as real != Share(n, 0.85)
  {
    var f, g := Share(n, 0.7).Floor, Share(n, 0.85).Floor;
    if f as real == Share(n, 0.7) { EvenIf(n, 5 * f - 3 * n); }
    if g as real == Share(n, 0.85) { EvenIf(n, 10 * g - 8 * n); }
  }

  lemma EvenIf(n: int, half: int)
    requires n as real == half as real * 2.0
    ensures n % 2 == 0
  {
    assert n == 2 * half;
  }

  /** The optimistic ranks agree up to 20 samples, the pessimistic ones below 20. */
  lemma PertRanksAgreeIff(n: nat)
    requires n > 0
    ensures NearestRank(n, 0.05) == 0 <==> n <= 20
    ensures NearestRank(n, 0.95) == n - 1 <==> n < 20
  {
    assert Share(n, 0.05) <= 1.0 <==> n <= 20;
    assert Share(n, 0.95) > (n - 1) as real <==> n < 20;
  }

  ghost predicate StrictlyAscending(s: seq<real>) { forall i, j :: 0 <= i < j < |s| ==> s[i] < s[j] }

  /**
   * On distinct samples the purge derives the estimates the writer would have derived exactly for odd
   * counts below 20; for those counts it does so on all samples.
   */
  lemma EstimatesAgreeIff(s: seq<real>)
    requires s != []
    ensures |s| % 2 == 1 && |s| < 20 ==> PurgeEstimates(s) == WriterEstimates(s)
    ensures StrictlyAscending(s) && PurgeEstimates(s) == WriterEstimates(s) ==> |s| % 2 == 1 && |s| < 20
  {
    var n := |s|;
    RanksAgreeIff(n, 0.5);
    RanksAgreeIff(n, 0.7);
    RanksAgreeIff(n, 0.85);
    HalvesAreWhole(n);
    PertRanksAgreeIff(n);
    if n % 2 == 1 { OddSharesAreNotWhole(n); }
  }

  // ----- Welford

  function WelfordFold(w: seq<real>): Running {
    if w == [] then Running(0, 0.0, 0.0) else Welford(WelfordFold(w[..|w| - 1]), w[|w| - 1])
  }

  lemma ScatterStep(scatter: real, q: real, s: real, n: real, x: real, c: real, q': real, s': real, n': real)
    requires scatter == q - 2.0 * c * s + n * (c * c)
    requires q' == q + x * x && s' == s + x && n' == n + 1.0
    ensures scatter + (x - c) * (x - c) == q' - 2.0 * c * s' + n' * (c * c)
  {
    assert n' * (c * c) == n * (c * c) + c * c;
    assert 2.0 * c * s' == 2.0 * c * s + 2.0 * c * x;
  }

  lemma {:induction false} ScatterExpands(w: seq<real>, c: real, n: real)
    requires n == |w| as real
    ensures Scatter(w, c) == SumOfSquares(w) - 2.0 * c * Sum(w) + n * (c * c)
    decreases |w|
  {
    if w != [] {
      var front, x := w[..|w| - 1], w[|w| - 1];
      ScatterExpands(front, c, n - 1.0);
      ScatterStep(Scatter(front, c), SumOfSquares(front), Sum(front), n - 1.0, x, c, SumOfSquares(w), Sum(w), n);
    }
  }

  lemma SquareOfMean(n: real, m: real, sum: real)
    requires n * m == sum
    ensures n * (m * m) == m * sum
  {
  }

  function Total(n: real, mean: real): real { n * mean }

  /** About its mean the scatter is the sum of squares less mean times sum. */
  lemma ScatterAboutMean(w: seq<real>, n: real, m: real)
    requires n == |w| as real && Total(n, m) == Sum(w)
    ensures Scatter(w, m) == SumOfSquares(w) - m * Sum(w)
  {
    ScatterExpands(w, m, n);
    SquareOfMean(n, m, Sum(w));
  }

  lemma MeanMoves(n: real, m: real, sum: real, x: real, n': real, m': real, sum': real)
    requires 0.0 <= n && Total(n, m) == sum && n' == n + 1.0 && sum' == sum + x && m' == MovedMean(m, x, n')
    ensures Total(n', m') == sum'
  {
    var step := (x - m) / n';
    assert step * n' == x - m;
    assert n' * m' == n' * m + n' * step;
    assert n' * m == n * m + m;
  }

  lemma CrossTerms(n: real, m: real, sum: real, x: real, m': real)
    requires n * m == sum && (n + 1.0) * m' == sum + x
    ensures m' * (sum + m) == m * (sum + x)
  {
    assert sum + m == (n + 1.0) * m;
    assert m' * ((n + 1.0) * m) == m * ((n + 1.0) * m');
  }

  /** From count n, mean m, sum s and sum of squares q to the same with x added. */
  lemma M2Moves(n: real, q: real, s: real, m: real, x: real, n': real, q': real, s': real, m': real,
                before: real, after: real)
    requires Total(n, m) == s && Total(n', m') == s' && n' == n + 1.0 && s' == s + x && q' == q + x * x
    requires before == q - m * s && after == q' - m' * s'
    ensures after == before + (x - m) * (x - m')
  {
    assert m' * s' == m' * (s + x);
    assert (n + 1.0) * m' == s + x;
    CrossTerms(n, m, s, x, m');
    assert (x - m) * (x - m') == x * x - x * m' - m * x + m * m';
  }

  /** The running statistics are the count, the mean and the scatter about it. */
  predicate TwoPass(r: Running, w: seq<real>) {
    r.n == |w| && Total(r.n as real, r.mean) == Sum(w) && r.m2 == Scatter(w, r.mean)
  }

  lemma Appended(front: seq<real>, x: real)
    ensures Sum(front + [x]) == Sum(front) + x
    ensures SumOfSquares(front + [x]) == SumOfSquares(front) + x * x
  {
    assert (front + [x])[..|front|] == front;
  }

  lemma SumsOf(w: seq<real>, n: real, m: real) returns (s: real, q: real, v: real)
    requires n == |w| as real && Total(n, m) == Sum(w)
    ensures s == Sum(w) && q == SumOfSquares(w) && v == Scatter(w, m) && v == q - m * s
  {
    s, q, v := Sum(w), SumOfSquares(w), Scatter(w, m);
    ScatterAboutMean(w, n, m);
  }

  lemma ScatterMoves(front: seq<real>, x: real, w: seq<real>, n: real, m: real, n': real, m': real,
                     before: real, delta: real)
    requires w == front + [x] && n == |front| as real && n' == |w| as real
    requires Total(n, m) == Sum(front) && Total(n', m') == Sum(w)
    requires before == Scatter(front, m) && delta == Spread(x, m, m')
    ensures before + delta == Scatter(w, m')
  {
    var s, q, v := SumsOf(front, n, m);
    var s', q', v' := SumsOf(w, n', m');
    Appended(front, x);
    M2Moves(n, q, s, m, x, n', q', s', m', v, v');
  }

  lemma MeanStep(front: seq<real>, x: real, w: seq<real>, n: real, m: real, n': real, m': real)
    requires w == front + [x] && n == |front| as real && n' == n + 1.0 && Total(n, m) == Sum(front)
    requires m' == MovedMean(m, x, n')
    ensures Total(n', m') == Sum(w)
  {
    Appended(front, x);
    MeanMoves(n, m, Sum(front), x, n', m', Sum(w));
  }

  lemma TwoPassStep(r: Running, front: seq<real>, x: real)
    requires TwoPass(r, front)
    ensures TwoPass(Welford(r, x), front + [x])
  {
    var r' := Welford(r, x);
    StatisticsStep(front, x, front + [x], r.n as real, r.mean, r'.n as real, r'.mean, r.m2,
                   Spread(x, r.mean, r'.mean));
  }

  lemma StatisticsStep(front: seq<real>, x: real, w: seq<real>, n: real, m: real, n': real, m': real,
                       before: real, delta: real)
    requires w == front + [x] && n == |front| as real && n' == |w| as real && n' == n + 1.0
    requires Total(n, m) == Sum(front) && before == Scatter(front, m)
    requires m' == MovedMean(m, x, n') && delta == Spread(x, m, m')
    ensures Total(n', m') == Sum(w) && before + delta == Scatter(w, m')
  {
    MeanStep(front, x, w, n, m, n', m');
    ScatterMoves(front, x, w, n, m, n', m', before, delta);
  }

  lemma TwoPassIsTheStatistics(r: Running, w: seq<real>)
    requires TwoPass(r, w) && w != []
    ensures r.mean == Mean(w) && r.m2 == M2(w)
  {
    QuotientIs(Sum(w), |w| as real, r.mean);
  }

  lemma StatisticsAreTwoPass(w: seq<real>)
    ensures TwoPass(Running(|w|, Mean(w), M2(w)), w)
  {
  }

  lemma {:induction false} FoldIsTwoPass(w: seq<real>)
    ensures TwoPass(WelfordFold(w), w)
  {
    if w != [] {
      FoldIsTwoPass(w[..|w| - 1]);
      TwoPassStep(WelfordFold(w[..|w| - 1]), w[..|w| - 1], w[|w| - 1]);
      assert w == w[..|w| - 1] + [w[|w| - 1]];
    }
  }

  /** Welford's recurrence, folded over the window, ends at the two-pass count, mean and m2. */
  lemma WelfordIsTwoPass(w: seq<real>)
    ensures WelfordFold(w) == Running(|w|, Mean(w), M2(w))
  {
    FoldIsTwoPass(w);
    if w != [] { TwoPassIsTheStatistics(WelfordFold(w), w); }
  }

  lemma WelfordStep(front: seq<real>, x: real)
    ensures Welford(Running(|front|, Mean(front), M2(front)), x) ==
            Running(|front| + 1, Mean(front + [x]), M2(front + [x]))
  {
    StatisticsAreTwoPass(front);
    TwoPassStep(Running(|front|, Mean(front), M2(front)), front, x);
    TwoPassIsTheStatistics(Welford(Running(|front|, Mean(front), M2(front)), x), front + [x]);
  }

  /** After a purge the running statistics are those of the surviving window. */
  lemma PurgeStatistics(b: Bucket, id: string)
    requires id in b.ids
    ensures var r := Purged(b, id);
      && r.mean == WelfordFold(r.window).mean && r.m2 == WelfordFold(r.window).m2
      && (r.window == [] <==> r.p50.None?)
      && r.nSamples == MaxInt(0, b.nSamples - 1)
  {
    WelfordIsTwoPass(Purged(b, id).window);
  }

  // ----- rolling in and purging out

  /** An id for every sample, no more than the cap. */
  predicate Parallel(b: Bucket) { |b.ids| == |b.window| <= SAMPLE_WINDOW_CAP && 0 <= b.nSamples }

  /** Besides, every sample is counted, as in all buckets that can be reached. */
  predicate Counted(b: Bucket) { Parallel(b) && |b.window| <= b.nSamples }

  /** The running statistics are those of the window, as every purge leaves them. */
  predicate OwnStatistics(b: Bucket) { b.mean == Mean(b.window) && b.m2 == M2(b.window) }

  /** Besides, the count is that of the window, as it is until the window first overflows. */
  predicate Consistent(b: Bucket) { Parallel(b) && OwnStatistics(b) && b.nSamples == |b.window| }

  lemma RolledShape(b: Bucket, id: string, days: real)
    requires Parallel(b) && id !in b.ids
    ensures Rolled(b, id, days).Some?
    ensures var r := Rolled(b, id, days).value;
      && Parallel(r) && (Counted(b) ==> Counted(r)) && r.nSamples == b.nSamples + 1
      && r.ids == (if |b.window| < SAMPLE_WINDOW_CAP then b.ids else b.ids[1..]) + [id]
      && r.window == (if |b.window| < SAMPLE_WINDOW_CAP then b.window else b.window[1..]) + [days]
      && r.mean == Welford(Running(b.nSamples, b.mean, b.m2), days).mean
      && r.m2 == Welford(Running(b.nSamples, b.mean, b.m2), days).m2
  {
    hide WriterEstimates, Sorted, MovedMean, Spread, M2, Mean;
  }

  lemma SameQuotientIff(d: real, p: real, q: real)
    requires p > 0.0 && q > 0.0
    ensures d / p == d / q <==> p == q || d == 0.0
  {
    var u, v := d / p, d / q;
    assert u * p == d && v * q == d;
    if u == v && p != q {
      assert u * (p - q) == 0.0;
    }
  }

  /** Moving the mean by a count that is not the window's gives another mean, unless the sample is the mean. */
  lemma MovedMeansAgreeIff(m: real, x: real, n: real, k: real)
    requires n >= 0.0 && k >= 0.0
    ensures MovedMean(m, x, n + 1.0) == MovedMean(m, x, k + 1.0) <==> n == k || x == m
  {
    SameQuotientIff(x - m, n + 1.0, k + 1.0);
  }

  lemma SampleAtTheMean(m: real, n: real)
    requires n > 0.0
    ensures MovedMean(m, m, n) == m && Spread(m, m, m) == 0.0
  {
  }

  /** Rolling into a window with room gives its statistics exactly if the count was the window's, or at the mean. */
  lemma RolledStatisticsIff(b: Bucket, id: string, days: real)
    requires Parallel(b) && OwnStatistics(b) && id !in b.ids && |b.window| < SAMPLE_WINDOW_CAP
    ensures OwnStatistics(Rolled(b, id, days).value) <==> b.nSamples == |b.window| || days == b.mean
  {
    RolledShape(b, id, days);
    WelfordStep(b.window, days);
    var n, k, m := b.nSamples as real, |b.window| as real, b.mean;
    MovedMeansAgreeIff(m, days, n, k);
    assert (b.nSamples + 1) as real == n + 1.0 && (|b.window| + 1) as real == k + 1.0;
    SampleAtTheMean(m, n + 1.0);
    SampleAtTheMean(m, k + 1.0);
    hide Rolled, Mean, M2;
  }

  /** Rolling a sample in keeps the counters true to the window exactly if they were and the window had room. */
  lemma RollingKeepsConsistentIff(b: Bucket, id: string, days: real)
    requires Counted(b) && OwnStatistics(b) && id !in b.ids
    ensures Consistent(Rolled(b, id, days).value) <==> b.nSamples == |b.window| < SAMPLE_WINDOW_CAP
  {
    RolledShape(b, id, days);
    if |b.window| < SAMPLE_WINDOW_CAP { RolledStatisticsIff(b, id, days); }
  }

  lemma {:induction false} IndexOfLast(ids: seq<string>, id: string)
    requires id !in ids
    ensures IndexOf(ids + [id], id) == |ids|
  {
    if ids != [] {
      assert (ids + [id])[1..] == ids[1..] + [id];
      IndexOfLast(ids[1..], id);
    }
  }

  /** The bucket is b again, but for the estimates. */
  predicate Restored(r: Bucket, b: Bucket) {
    r.ids == b.ids && r.window == b.window && r.nSamples == b.nSamples && r.mean == b.mean && r.m2 == b.m2
  }

  lemma WithoutLast<T>(s: seq<T>, x: T)
    ensures Without(s + [x], |s|) == s
  {
  }

  /** Rolled in and purged out, a sample leaves the window as it was, less the sample it pushed out. */
  lemma RolledAndPurged(b: Bucket, id: string, days: real)
    requires Parallel(b) && id !in b.ids
    ensures var r := Purged(Rolled(b, id, days).value, id);
      && r.ids == (if |b.window| < SAMPLE_WINDOW_CAP then b.ids else b.ids[1..])
      && r.window == (if |b.window| < SAMPLE_WINDOW_CAP then b.window else b.window[1..])
      && r.nSamples == b.nSamples && OwnStatistics(r)
  {
    hide Rolled, Purged, OwnStatistics;
    RolledShape(b, id, days);
    var rolled := Rolled(b, id, days).value;
    var ids := if |b.window| < SAMPLE_WINDOW_CAP then b.ids else b.ids[1..];
    var window := if |b.window| < SAMPLE_WINDOW_CAP then b.window else b.window[1..];
    IndexOfLast(ids, id);
    WithoutLast(ids, id);
    WithoutLast(window, days);
    PurgedIds(rolled, id);
    PurgedStatistics(rolled, id);
  }

  lemma PurgedStatistics(b: Bucket, id: string)
    requires id in b.ids
    ensures OwnStatistics(Purged(b, id))
  {
  }

  /**
   * Purging the BUD just rolled in gives the bucket back exactly when the window had room and the statistics
   * were the window's own, which they are not in a bucket that has overflowed and gone on rolling.
   */
  lemma PurgeUndoesRollIff(b: Bucket, id: string, days: real)
    requires Parallel(b) && id !in b.ids
    ensures Restored(Purged(Rolled(b, id, days).value, id), b) <==> |b.window| < SAMPLE_WINDOW_CAP && OwnStatistics(b)
  {
    RolledAndPurged(b, id, days);
  }

  /**
   * What re-processing is for: purging a BUD and rolling its sample in again gives the statistics of the
   * window exactly if the bucket never overflowed, or the sample is the mean of the others.
   */
  lemma ReprocessingIsRightIff(b: Bucket, id: string, days: real)
    requires Counted(b) && id in b.ids && Once(b.ids, id)
    ensures var left := Purged(b, id);
      && id !in left.ids
      && (OwnStatistics(Rolled(left, id, days).value) <==> b.nSamples == |b.window| || days == left.mean)
  {
    PurgedIds(b, id);
    NoneLeftIffOnce(b.ids, id);
    PurgedStatistics(b, id);
    RolledStatisticsIff(Purged(b, id), id, days);
  }

  // ----- runs

  datatype Change = Roll(id: string, days: real) | Purge(id: string)

  const EMPTY := Bucket([], [], 0, None, None, None, None, None, None, 0.0, 0.0)

  /** A roll that is refused leaves the bucket alone. */
  function Changed(b: Bucket, c: Change): Bucket
    requires b.nSamples >= 0
  {
    match c
    case Roll(id, days) => Rolled(b, id, days).GetOr(b)
    case Purge(id) => Purged(b, id)
  }

  function After(cs: seq<Change>): (b: Bucket)
    ensures b.nSamples >= 0
  {
    if cs == [] then EMPTY else Changed(After(cs[..|cs| - 1]), cs[|cs| - 1])
  }

  predicate Overflowing(b: Bucket, c: Change) {
    c.Roll? && c.id !in b.ids && |b.window| == SAMPLE_WINDOW_CAP
  }

  /** How often a roll pushed a sample out of the window. */
  function Overflows(cs: seq<Change>): nat {
    if cs == [] then 0
    else Overflows(cs[..|cs| - 1]) + if Overflowing(After(cs[..|cs| - 1]), cs[|cs| - 1]) then 1 else 0
  }

  predicate Distinct(ids: seq<string>) { forall i, j :: 0 <= i < j < |ids| ==> ids[i] != ids[j] }

  lemma ChangeCounts(b: Bucket, c: Change)
    requires Counted(b) && Distinct(b.ids)
    ensures var r := Changed(b, c);
      && Counted(r) && Distinct(r.ids)
      && r.nSamples - |r.window| == b.nSamples - |b.window| + (if Overflowing(b, c) then 1 else 0)
  {
    hide Purged, Distinct, Counted;
    match c
    case Roll(id, days) =>
      if id !in b.ids { RollCounts(b, id, days); }
    case Purge(id) => PurgeCounts(b, id);
  }

  lemma RollCounts(b: Bucket, id: string, days: real)
    requires Counted(b) && Distinct(b.ids) && id !in b.ids
    ensures var r := Rolled(b, id, days).value;
      && Counted(r) && Distinct(r.ids)
      && r.nSamples - |r.window| == b.nSamples - |b.window| + if |b.window| == SAMPLE_WINDOW_CAP then 1 else 0
  {
    RolledShape(b, id, days);
    hide Rolled, Distinct;
    if |b.window| < SAMPLE_WINDOW_CAP {
      OneMoreDistinct(b.ids, id);
    } else {
      TailIsDistinct(b.ids);
      OneMoreDistinct(b.ids[1..], id);
    }
  }

  lemma TailIsDistinct(ids: seq<string>)
    requires Distinct(ids) && ids != []
    ensures Distinct(ids[1..])
  {
  }

  lemma OneMoreDistinct(ids: seq<string>, id: string)
    requires Distinct(ids) && id !in ids
    ensures Distinct(ids + [id])
  {
  }

  lemma PurgeCounts(b: Bucket, id: string)
    requires Counted(b) && Distinct(b.ids)
    ensures var r := Purged(b, id);
      Counted(r) && Distinct(r.ids) && r.nSamples - |r.window| == b.nSamples - |b.window|
  {
    PurgedIds(b, id);
    hide Purged;
    if id in b.ids {
      WithoutKeepsDistinct(b.ids, IndexOf(b.ids, id));
    } else {
      PurgeOfNone(b, id);
    }
  }

  lemma WithoutKeepsDistinct(ids: seq<string>, i: nat)
    requires Distinct(ids) && i < |ids|
    ensures Distinct(Without(ids, i))
  {
  }

  lemma ChangeKeepsStatistics(b: Bucket, c: Change)
    requires Consistent(b) && !Overflowing(b, c)
    ensures OwnStatistics(Changed(b, c))
  {
    if c.Roll? && c.id !in b.ids {
      RolledStatisticsIff(b, c.id, c.days);
    } else if c.Purge? && c.id in b.ids {
      PurgedStatistics(b, c.id);
    }
  }

  /**
   * Over every run of rolls and purges the ids stay distinct and parallel to the samples, and the count runs
   * ahead of the window by the number of overflows, for good; without an overflow the statistics are exact.
   */
  lemma {:induction false} RunCountsOverflows(cs: seq<Change>)
    ensures var b := After(cs);
      && Counted(b) && Distinct(b.ids)
      && b.nSamples == |b.window| + Overflows(cs)
      && (Overflows(cs) == 0 ==> Consistent(b))
  {
    if cs != [] {
      var front, c := cs[..|cs| - 1], cs[|cs| - 1];
      RunCountsOverflows(front);
      ChangeCounts(After(front), c);
      if Overflows(cs) == 0 { ChangeKeepsStatistics(After(front), c); }
    }
  }

  /** After an overflow a purge and a roll give a mean of 2 for the samples 0 and 6, and the next purge one of 3. */
  lemma OverflowedBucket(b: Bucket)
    requires b.ids == ["a"] && b.window == [0.0] && b.nSamples == 2 && OwnStatistics(b)
    ensures var r := Rolled(b, "c", 6.0).value;
      && r.window == [0.0, 6.0] && r.mean == 2.0 && Mean(r.window) == 3.0
      && Purged(Rolled(r, "z", 0.0).value, "z").mean == 3.0
      && !Restored(Purged(Rolled(r, "z", 0.0).value, "z"), r)
  {
    hide M2, Scatter, Purged;
    RolledShape(b, "c", 6.0);
    var r := Rolled(b, "c", 6.0).value;
    assert Sum([0.0]) == 0.0 by { assert [0.0][..0] == []; }
    assert Sum([0.0, 6.0]) == 6.0 by { assert [0.0, 6.0][..1] == [0.0]; }
    assert b.mean == 0.0;
    RolledAndPurged(r, "z", 0.0);
  }

  // ----- the rows as objects

  class FeatureLearning {
    var metrics: Option<string>

    constructor (metrics: Option<string>)
      ensures this.metrics == metrics
    {
      this.metrics := metrics;
    }
  }

  class VelocityAggregate {
    var contributingBudIds: seq<string>
    var sampleWindow: seq<real>
    var nSamples: int
    var p50Days: Option<real>
    var p70Days: Option<real>
    var p85Days: Option<real>
    var pertOptimistic: Option<real>
    var pertMostLikely: Option<real>
    var pertPessimistic: Option<real>
    var runningMean: real
    var runningM2: real

    constructor (b: Bucket)
      ensures State() == b
    {
      contributingBudIds, sampleWindow, nSamples := b.ids, b.window, b.nSamples;
      p50Days, p70Days, p85Days := b.p50, b.p70, b.p85;
      pertOptimistic, pertMostLikely, pertPessimistic := b.optimistic, b.mostLikely, b.pessimistic;
      runningMean, runningM2 := b.mean, b.m2;
    }

    function State(): Bucket
      reads this
    {
      Bucket(contributingBudIds, sampleWindow, nSamples, p50Days, p70Days, p85Days,
             pertOptimistic, pertMostLikely, pertPessimistic, runningMean, runningM2)
    }

    method Rederive(window: seq<real>)
      requires window == sampleWindow
      modifies this
      ensures State() == Rederived(old(State()))
    {
      hide PurgeRank, Sorted;
      if window != [] {
        var sortedW := Sorted(window);
        p50Days := Some(sortedW[PurgeRank(|sortedW|, 0.5)]);
        p70Days := Some(sortedW[PurgeRank(|sortedW|, 0.7)]);
        p85Days := Some(sortedW[PurgeRank(|sortedW|, 0.85)]);
        pertOptimistic := Some(sortedW[0]);
        pertMostLikely := p50Days;
        pertPessimistic := Some(sortedW[|sortedW| - 1]);
        var newMean := Sum(window) / |window| as real;
        runningMean := newMean;
        runningM2 := Scatter(window, newMean);
      } else {
        p50Days, p70Days, p85Days := None, None, None;
        pertOptimistic, pertMostLikely, pertPessimistic := None, None, None;
        runningMean, runningM2 := 0.0, 0.0;
      }
    }

    /** Takes the BUD off the lists: the first half of RemoveSample. */
    method Shorten(budId: string)
      requires budId in contributingBudIds
      modifies this
      ensures State() == Shortened(old(State()), budId)
    {
      var idx := IndexOf(contributingBudIds, budId);
      var contributing := contributingBudIds[..idx] + contributingBudIds[idx + 1..];
      var window := sampleWindow;
      if idx < |window| { window := window[..idx] + window[idx + 1..]; }
      contributingBudIds := contributing;
      sampleWindow := window;
      nSamples := MaxInt(0, nSamples - 1);
    }

    method RemoveSample(budId: string)
      modifies this
      ensures State() == Purged(old(State()), budId)
    {
      hide Rederived, Shortened;
      if budId !in contributingBudIds { return; }
      Shorten(budId);
      Rederive(sampleWindow);
    }
  }

  /** Clears the BUD's metrics and takes its sample out of every bucket that lists it. */
  method PurgeExistingState(learning: FeatureLearning?, aggs: seq<VelocityAggregate>, budId: string)
    requires forall i, j :: 0 <= i < j < |aggs| ==> aggs[i] != aggs[j]
    modifies learning, aggs
    ensures learning != null ==> learning.metrics.None?
    ensures forall i :: 0 <= i < |aggs| ==> aggs[i].State() == Purged(old(aggs[i].State()), budId)
  {
    hide Purged;
    if learning != null { learning.metrics := None; }
    ghost var was := seq(|aggs|, i requires 0 <= i < |aggs| => old(aggs[i].State()));
    for k := 0 to |aggs|
      invariant learning != null ==> learning.metrics.None?
      invariant forall i :: 0 <= i < k ==> aggs[i].State() == Purged(was[i], budId)
      invariant forall i :: k <= i < |aggs| ==> aggs[i].State() == was[i]
    {
      aggs[k].RemoveSample(budId);
    }
  }
}
