/** The few facts about products and finite sets of numbers that the models share. */
module Arithmetic {
  function Min(a: real, b: real): real { if a <= b then a else b }
  function Max(a: real, b: real): real { if a >= b then a else b }
  function MinInt(a: int, b: int): int { if a <= b then a else b }
  function MaxInt(a: int, b: int): int { if a >= b then a else b }

  lemma ProductNonNegative(a: real, b: real)
    requires 0.0 <= a && 0.0 <= b
    ensures 0.0 <= a * b
  {
  }

  /** Multiplying by a non-negative factor keeps the order. */
  lemma ProductMonotone(a: real, b: real, k: real)
    requires a <= b && 0.0 <= k
    ensures a * k <= b * k
  {
    ProductNonNegative(b - a, k);
    assert b * k - a * k == (b - a) * k;
  }

  lemma ProductStrict(a: real, b: real, k: real)
    requires a < b && 0.0 < k
    ensures a * k < b * k
  {
    assert (b - a) * k > 0.0;
    assert b * k - a * k == (b - a) * k;
  }

  lemma SquareStrict(a: real, b: real)
    requires 0.0 <= a < b
    ensures a * a < b * b
  {
    var less, more := b - a, b + a;
    assert less * more > 0.0;
    assert less * more == b * b - a * a;
  }

  lemma Distribute(x: real, y: real, sum: real, k: real)
    requires sum == x + y
    ensures sum * k == x * k + y * k
  {
  }

  lemma QuotientIs(a: real, c: real, q: real)
    requires c != 0.0 && q * c == a
    ensures a / c == q
  {
  }

  lemma RemainderBelow(a: real, c: real, q: real, n: real)
    requires c > 0.0 && a == q * c && q < n + 1.0
    ensures a - n * c < c
  {
    var r := n + 1.0 - q;
    assert r > 0.0;
    assert r * c > 0.0;
    assert n == q + r - 1.0;
    assert n * c == q * c + r * c - c;
  }

  lemma RemainderAbove(a: real, c: real, q: real, n: real)
    requires c > 0.0 && a == q * c && n <= q
    ensures 0.0 <= a - n * c
  {
    var r := q - n;
    ProductNonNegative(r, c);
    assert q == n + r;
    assert q * c == n * c + r * c;
  }

  /** The remainder after taking away as many whole multiples of c as there are. */
  lemma FloorRemainder(a: real, c: real, q: real, n: real)
    requires c > 0.0 && a == q * c && n <= q < n + 1.0
    ensures 0.0 <= a - n * c < c
  {
    RemainderAbove(a, c, q, n);
    RemainderBelow(a, c, q, n);
  }

  /** Going on from p at speed v for a time dt, where v is between two speeds. */
  lemma Travelled(p: real, q: real, lo: real, v: real, hi: real, dt: real)
    requires lo <= v <= hi && 0.0 <= dt && q == p + v * dt
    ensures p + lo * dt <= q <= p + hi * dt
  {
    ProductMonotone(lo, v, dt);
    ProductMonotone(v, hi, dt);
  }

  lemma {:induction false} SizeBelow(s: set<int>, n: nat)
    requires forall x :: x in s ==> 0 <= x < n
    ensures |s| <= n
  {
    if n == 0 {
      assert forall x :: x !in s;
    } else {
      SizeBelow(s - {n - 1}, n - 1);
      assert s <= (s - {n - 1}) + {n - 1};
      if n - 1 !in s {
        assert s - {n - 1} == s;
      }
    }
  }

  lemma {:induction false} ImageSize<T>(s: set<T>, f: T -> int, image: set<int>)
    requires image == set x | x in s :: f(x)
    requires forall x, y :: x in s && y in s && f(x) == f(y) ==> x == y
    ensures |s| == |image|
  {
    if s == {} {
      assert image == {};
    } else {
      var x :| x in s;
      var rest := set y | y in s - {x} :: f(y);
      ImageSize(s - {x}, f, rest);
      assert image == rest + {f(x)};
    }
  }
}
