/** Stable sorting by a key, and when its result does not depend on the input's order. */
module Ordering {

  function Insert<T>(x: T, sorted: seq<T>, lt: (T, T) -> bool): (r: seq<T>)
    ensures |r| == |sorted| + 1
  {
    if sorted == [] || !lt(sorted[0], x) then [x] + sorted else [sorted[0]] + Insert(x, sorted[1..], lt)
  }

  /** sorted(xs, key=...): equal keys keep their order. */
  function Sort<T>(xs: seq<T>, lt: (T, T) -> bool): (r: seq<T>)
    ensures |r| == |xs|
  {
    if xs == [] then [] else Insert(xs[0], Sort(xs[1..], lt), lt)
  }

  /** Comparing keys: nothing is below itself, and being not above is transitive. */
  ghost predicate Orders<T(!new)>(lt: (T, T) -> bool) {
    && (forall a, b :: lt(a, b) ==> !lt(b, a))
    && (forall a, b, c :: !lt(b, a) && !lt(c, b) ==> !lt(c, a))
  }

  ghost predicate Sorted<T>(xs: seq<T>, lt: (T, T) -> bool) { forall i, j :: 0 <= i < j < |xs| ==> !lt(xs[j], xs[i]) }

  /** No two have the same key. */
  ghost predicate DistinctKeys<T>(xs: seq<T>, lt: (T, T) -> bool) {
    forall i, j :: 0 <= i < j < |xs| ==> lt(xs[i], xs[j]) || lt(xs[j], xs[i])
  }

  ghost predicate SameElements<T(!new)>(a: seq<T>, b: seq<T>) { forall x :: x in a <==> x in b }

  lemma {:induction false} InsertHas<T>(x: T, sorted: seq<T>, lt: (T, T) -> bool)
    ensures multiset(Insert(x, sorted, lt)) == multiset(sorted) + multiset{x}
  {
    if sorted == [] || !lt(sorted[0], x) {
      assert multiset([x] + sorted) == multiset([x]) + multiset(sorted);
    } else {
      InsertHas(x, sorted[1..], lt);
      var rest := Insert(x, sorted[1..], lt);
      assert multiset([sorted[0]] + rest) == multiset([sorted[0]]) + multiset(rest);
      assert sorted == [sorted[0]] + sorted[1..];
    }
  }

  lemma {:induction false} SortPermutes<T>(xs: seq<T>, lt: (T, T) -> bool)
    ensures multiset(Sort(xs, lt)) == multiset(xs)
  {
    if xs != [] {
      SortPermutes(xs[1..], lt);
      InsertHas(xs[0], Sort(xs[1..], lt), lt);
      assert xs == [xs[0]] + xs[1..];
    }
  }

  lemma SortHas<T(!new)>(xs: seq<T>, lt: (T, T) -> bool)
    ensures SameElements(Sort(xs, lt), xs)
  {
    SortPermutes(xs, lt);
    forall x ensures x in Sort(xs, lt) <==> x in xs { assert x in multiset(Sort(xs, lt)) <==> x in multiset(xs); }
  }

  lemma {:induction false} InsertSorts<T(!new)>(x: T, sorted: seq<T>, lt: (T, T) -> bool)
    requires Orders(lt) && Sorted(sorted, lt)
    ensures Sorted(Insert(x, sorted, lt), lt)
  {
    if sorted != [] && lt(sorted[0], x) {
      InsertSorts(x, sorted[1..], lt);
      InsertHas(x, sorted[1..], lt);
      var rest := Insert(x, sorted[1..], lt);
      forall y | y in rest ensures !lt(y, sorted[0]) {
        assert y in multiset(rest);
        assert y == x || y in sorted[1..];
      }
    } else if sorted != [] {
      forall j | 0 <= j < |sorted| ensures !lt(sorted[j], x) { assert j == 0 || !lt(sorted[j], sorted[0]); }
    }
  }

  lemma {:induction false} SortSorts<T(!new)>(xs: seq<T>, lt: (T, T) -> bool)
    requires Orders(lt)
    ensures Sorted(Sort(xs, lt), lt)
  {
    if xs != [] {
      SortSorts(xs[1..], lt);
      InsertSorts(xs[0], Sort(xs[1..], lt), lt);
    }
  }

  lemma {:induction false} DistinctSort<T(!new)>(xs: seq<T>, lt: (T, T) -> bool)
    requires Orders(lt) && DistinctKeys(xs, lt)
    ensures DistinctKeys(Sort(xs, lt), lt)
  {
    if xs != [] {
      DistinctSort(xs[1..], lt);
      var rest := Sort(xs[1..], lt);
      SortHas(xs[1..], lt);
      forall y | y in rest ensures lt(xs[0], y) || lt(y, xs[0]) {
        var i :| 0 <= i < |xs[1..]| && xs[1..][i] == y;
        assert xs[i + 1] == y;
      }
      InsertDistinct(xs[0], rest, lt);
    }
  }

  lemma {:induction false} InsertDistinct<T(!new)>(x: T, rest: seq<T>, lt: (T, T) -> bool)
    requires DistinctKeys(rest, lt) && forall y :: y in rest ==> lt(x, y) || lt(y, x)
    ensures DistinctKeys(Insert(x, rest, lt), lt)
  {
    if rest != [] && lt(rest[0], x) {
      InsertDistinct(x, rest[1..], lt);
      InsertHas(x, rest[1..], lt);
      var r := Insert(x, rest[1..], lt);
      forall y | y in r ensures lt(rest[0], y) || lt(y, rest[0]) {
        assert y in multiset(r);
        if y != x {
          var i :| 0 <= i < |rest[1..]| && rest[1..][i] == y;
          assert rest[i + 1] == y;
        }
      }
    }
  }

  /** A sorted sequence without equal keys is determined by what is in it. */
  lemma {:induction false} SortedUnique<T(!new)>(a: seq<T>, b: seq<T>, lt: (T, T) -> bool)
    requires Orders(lt) && Sorted(a, lt) && Sorted(b, lt) && DistinctKeys(a, lt) && DistinctKeys(b, lt)
    requires SameElements(a, b)
    ensures a == b
  {
    assert a != [] ==> a[0] in b;
    assert b != [] ==> b[0] in a;
    if a != [] && b != [] {
      var j :| 0 <= j < |b| && b[j] == a[0];
      var i :| 0 <= i < |a| && a[i] == b[0];
      assert a[0] == b[0];
      TailHas(a, lt);
      TailHas(b, lt);
      assert forall x :: x in a[1..] <==> x in a && x != a[0];
      SortedUnique(a[1..], b[1..], lt);
      assert a == [a[0]] + a[1..] && b == [b[0]] + b[1..];
    }
  }

  lemma TailHas<T(!new)>(a: seq<T>, lt: (T, T) -> bool)
    requires Orders(lt) && DistinctKeys(a, lt) && a != []
    ensures forall x :: x in a[1..] <==> x in a && x != a[0]
  {
    assert a == [a[0]] + a[1..];
    forall x | x in a[1..] ensures x != a[0] {
      var i :| 0 <= i < |a[1..]| && a[1..][i] == x;
      assert a[i + 1] == x;
    }
  }

  /** Sorting forgets the order of its input, when no two keys are equal. */
  lemma SortForgetsOrder<T(!new)>(xs: seq<T>, ys: seq<T>, lt: (T, T) -> bool)
    requires Orders(lt) && DistinctKeys(xs, lt) && DistinctKeys(ys, lt) && SameElements(xs, ys)
    ensures Sort(xs, lt) == Sort(ys, lt)
  {
    SortSorts(xs, lt);
    SortSorts(ys, lt);
    DistinctSort(xs, lt);
    DistinctSort(ys, lt);
    SortHas(xs, lt);
    SortHas(ys, lt);
    SortedUnique(Sort(xs, lt), Sort(ys, lt), lt);
  }
}
