/** Stable sorting by a comparison, as an insertion sort on values. */
module Sorting {
  /** x comes before y. */
  type Comparison<!T> = (T, T) -> bool

  ghost predicate StrictWeakOrder<T(!new)>(before: Comparison<T>) {
    && (forall x, y :: before(x, y) ==> !before(y, x))
    && (forall x, y, z :: !before(y, x) && !before(z, y) ==> !before(z, x))
  }

  function Insert<T>(x: T, s: seq<T>, before: Comparison<T>): (r: seq<T>)
    ensures |r| == |s| + 1
  {
    if s == [] || before(x, s[0]) then [x] + s else [s[0]] + Insert(x, s[1..], before)
  }

  function Sort<T>(s: seq<T>, before: Comparison<T>): (r: seq<T>)
    ensures |r| == |s|
  {
    if s == [] then [] else Insert(s[|s| - 1], Sort(s[..|s| - 1], before), before)
  }

  ghost predicate Ordered<T>(s: seq<T>, before: Comparison<T>) {
    forall i, j :: 0 <= i < j < |s| ==> !before(s[j], s[i])
  }

  lemma LeastInFront<T(!new)>(least: T, rest: seq<T>, tail: seq<T>, x: T, before: Comparison<T>)
    requires Ordered([least] + tail, before) && !before(x, least) && Ordered(rest, before)
    requires multiset(rest) == multiset(tail) + multiset{x}
    ensures Ordered([least] + rest, before)
  {
    forall j | 0 <= j < |rest|
      ensures !before(rest[j], least)
    {
      assert rest[j] in multiset(rest);
      assert rest[j] == x || rest[j] in tail;
      if rest[j] != x {
        var k :| 0 <= k < |tail| && tail[k] == rest[j];
        var s := [least] + tail;
        assert s[0] == least && s[k + 1] == rest[j];
      }
    }
  }

  lemma PrependOrders<T(!new)>(x: T, s: seq<T>, before: Comparison<T>)
    requires StrictWeakOrder(before) && Ordered(s, before) && (s != [] ==> before(x, s[0]))
    ensures Ordered([x] + s, before)
  {
    forall j | 0 <= j < |s|
      ensures !before(s[j], x)
    {
      assert !before(s[0], x) && (j > 0 ==> !before(s[j], s[0]));
    }
  }

  lemma {:induction false} InsertOrders<T(!new)>(x: T, s: seq<T>, before: Comparison<T>)
    requires StrictWeakOrder(before) && Ordered(s, before)
    ensures Ordered(Insert(x, s, before), before)
    ensures multiset(Insert(x, s, before)) == multiset(s) + multiset{x}
  {
    if s == [] || before(x, s[0]) {
      PrependOrders(x, s, before);
    } else {
      var tail := s[1..];
      assert s == [s[0]] + tail;
      InsertOrders(x, tail, before);
      LeastInFront(s[0], Insert(x, tail, before), tail, x, before);
      assert multiset(s) == multiset{s[0]} + multiset(tail);
    }
  }

  /** Sorting orders and keeps what is there. */
  lemma {:induction false} SortOrders<T(!new)>(s: seq<T>, before: Comparison<T>)
    requires StrictWeakOrder(before)
    ensures Ordered(Sort(s, before), before) && multiset(Sort(s, before)) == multiset(s)
  {
    if s != [] {
      var front, x := s[..|s| - 1], s[|s| - 1];
      assert s == front + [x];
      SortOrders(front, before);
      InsertOrders(x, Sort(front, before), before);
    }
  }
}
