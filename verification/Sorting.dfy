/** Sorting distinct values by a strict total order, and the least values of a set. */
module Sorting {

  type Less<!T> = (T, T) -> bool

  ghost predicate StrictTotalOrder<T(!new)>(less: Less<T>) {
    && (forall x :: !less(x, x))
    && (forall x, y :: x != y ==> less(x, y) || less(y, x))
    && (forall x, y, z :: less(x, y) && less(y, z) ==> less(x, z))
  }

  function Insert<T>(less: Less<T>, sorted: seq<T>, item: T): seq<T> {
    if sorted == [] || less(item, sorted[0]) then [item] + sorted
    else [sorted[0]] + Insert(less, sorted[1..], item)
  }

  /** The first `n` items, sorted. */
  function Sorted<T>(less: Less<T>, items: seq<T>, n: nat): seq<T>
    requires n <= |items|
  {
    if n == 0 then [] else Insert(less, Sorted(less, items, n - 1), items[n - 1])
  }

  ghost predicate Increasing<T>(less: Less<T>, items: seq<T>) {
    forall i, j :: 0 <= i < j < |items| ==> less(items[i], items[j])
  }

  predicate Distinct<T(==)>(items: seq<T>) {
    forall i, j :: 0 <= i < j < |items| ==> items[i] != items[j]
  }

  ghost predicate SameElements<T(!new)>(a: seq<T>, b: seq<T>) {
    forall x :: x in a <==> x in b
  }

  lemma {:induction false} PrependIncreasing<T(!new)>(less: Less<T>, head: T, tail: seq<T>)
    requires Increasing(less, tail) && forall x :: x in tail ==> less(head, x)
    ensures Increasing(less, [head] + tail)
  {
    var longer := [head] + tail;
    forall i, j | 0 <= i < j < |longer|
      ensures less(longer[i], longer[j])
    {
      assert longer[j] == tail[j - 1] && tail[j - 1] in tail;
    }
  }

  lemma {:induction false} HeadIsLeast<T(!new)>(less: Less<T>, items: seq<T>)
    requires StrictTotalOrder(less) && Increasing(less, items) && items != []
    ensures Increasing(less, items[1..]) && items[0] !in items[1..]
    ensures forall x :: x in items[1..] ==> less(items[0], x)
    ensures forall x :: x in items <==> x == items[0] || x in items[1..]
  {
    forall x | x in items[1..]
      ensures less(items[0], x)
    {
      var k :| 0 <= k < |items[1..]| && items[1..][k] == x;
      assert x == items[k + 1];
    }
    assert items == [items[0]] + items[1..];
  }

  lemma {:induction false} InsertKeeps<T(!new)>(less: Less<T>, sorted: seq<T>, item: T)
    requires StrictTotalOrder(less) && Increasing(less, sorted) && item !in sorted
    ensures |Insert(less, sorted, item)| == |sorted| + 1
    ensures forall x :: x in Insert(less, sorted, item) <==> x == item || x in sorted
    ensures Increasing(less, Insert(less, sorted, item))
  {
    if sorted != [] {
      HeadIsLeast(less, sorted);
    }
    if sorted == [] || less(item, sorted[0]) {
      PrependIncreasing(less, item, sorted);
    } else {
      InsertKeeps(less, sorted[1..], item);
      PrependIncreasing(less, sorted[0], Insert(less, sorted[1..], item));
    }
  }

  lemma {:induction false} SortedIsIncreasing<T(!new)>(less: Less<T>, items: seq<T>, n: nat)
    requires StrictTotalOrder(less) && n <= |items| && Distinct(items)
    ensures |Sorted(less, items, n)| == n && Increasing(less, Sorted(less, items, n))
    ensures SameElements(Sorted(less, items, n), items[..n])
  {
    if n > 0 {
      SortedIsIncreasing(less, items, n - 1);
      var earlier, last := items[..n - 1], items[n - 1];
      assert items[..n] == earlier + [last];
      assert forall i :: 0 <= i < n - 1 ==> earlier[i] != last;
      InsertKeeps(less, Sorted(less, items, n - 1), last);
    }
  }

  /** Only one increasing sequence has given elements. */
  lemma {:induction false} IncreasingIsUnique<T(!new)>(less: Less<T>, a: seq<T>, b: seq<T>)
    requires StrictTotalOrder(less) && Increasing(less, a) && Increasing(less, b) && SameElements(a, b)
    ensures a == b
  {
    assert a != [] ==> a[0] in b;
    assert b != [] ==> b[0] in a;
    if a != [] {
      HeadIsLeast(less, a);
      HeadIsLeast(less, b);
      assert a[0] == b[0];
      IncreasingIsUnique(less, a[1..], b[1..]);
      assert a == [a[0]] + a[1..] && b == [b[0]] + b[1..];
    }
  }

  /** Sorting depends on the set of items, not on their order. */
  lemma {:induction false} SortedIgnoresOrder<T(!new)>(less: Less<T>, a: seq<T>, b: seq<T>)
    requires StrictTotalOrder(less) && Distinct(a) && Distinct(b) && SameElements(a, b)
    ensures |a| == |b| && Sorted(less, a, |a|) == Sorted(less, b, |b|)
  {
    SortedIsIncreasing(less, a, |a|);
    SortedIsIncreasing(less, b, |b|);
    assert a[..|a|] == a && b[..|b|] == b;
    IncreasingIsUnique(less, Sorted(less, a, |a|), Sorted(less, b, |b|));
  }

  /** Sorting forgets the order and nothing else. */
  lemma {:induction false} SortedEqualIff<T(!new)>(less: Less<T>, a: seq<T>, b: seq<T>)
    requires StrictTotalOrder(less) && Distinct(a) && Distinct(b)
    ensures Sorted(less, a, |a|) == Sorted(less, b, |b|) <==> SameElements(a, b)
  {
    SortedIsIncreasing(less, a, |a|);
    SortedIsIncreasing(less, b, |b|);
    assert a[..|a|] == a && b[..|b|] == b;
    if SameElements(a, b) {
      SortedIgnoresOrder(less, a, b);
    }
  }

  // ---------- The least elements ----------

  /** `items` holds `k` distinct members of the population, in order, and every other
      member comes later. */
  ghost predicate HoldsLeast<T(!new)>(less: Less<T>, population: seq<T>, items: seq<T>, k: nat) {
    && |items| == k && Increasing(less, items)
    && (forall x :: x in items ==> x in population)
    && (forall x, other :: x in items && other in population && other !in items ==> less(x, other))
  }

  lemma {:induction false} TakeHoldsLeast<T(!new)>(less: Less<T>, population: seq<T>, sorted: seq<T>, k: nat)
    requires k <= |sorted| && Increasing(less, sorted) && SameElements(sorted, population)
    ensures HoldsLeast(less, population, sorted[..k], k)
  {
    var items := sorted[..k];
    forall x, other | x in items && other in population && other !in items
      ensures less(x, other)
    {
      assert other in sorted;
      var i :| 0 <= i < k && items[i] == x;
      var j :| 0 <= j < |sorted| && sorted[j] == other;
      assert forall l :: 0 <= l < k ==> sorted[l] in items;
    }
  }

  lemma {:induction false} LeastIsShared<T(!new)>(less: Less<T>, population: seq<T>, a: seq<T>, b: seq<T>, k: nat, x: T)
    requires StrictTotalOrder(less) && HoldsLeast(less, population, a, k) && HoldsLeast(less, population, b, k)
    requires x in a
    ensures x in b
  {
    if x !in b {
      var y := Missing(less, a, b, x);
    }
  }

  /** The requirements on the least elements leave no choice. */
  lemma {:induction false} LeastIsUnique<T(!new)>(less: Less<T>, population: seq<T>, a: seq<T>, b: seq<T>, k: nat)
    requires StrictTotalOrder(less) && HoldsLeast(less, population, a, k) && HoldsLeast(less, population, b, k)
    ensures a == b
  {
    forall x
      ensures x in a <==> x in b
    {
      if x in a {
        LeastIsShared(less, population, a, b, k, x);
      } else if x in b {
        LeastIsShared(less, population, b, a, k, x);
      }
    }
    IncreasingIsUnique(less, a, b);
  }

  /** Of two equally long increasing sequences, neither has an element too many. */
  lemma {:induction false} Missing<T(!new)>(less: Less<T>, a: seq<T>, b: seq<T>, extra: T) returns (y: T)
    requires StrictTotalOrder(less) && Increasing(less, a) && Increasing(less, b) && |a| == |b|
    requires extra in a && extra !in b
    ensures y in b && y !in a
  {
    ElementsCount(less, a);
    ElementsCount(less, b);
    var x, z := set v | v in a, set v | v in b;
    if z <= x {
      assert z <= x - {extra};
      SubsetCount(x - {extra}, z);
    }
    y :| y in z && y !in x;
  }

  lemma {:induction false} SubsetCount<T>(x: set<T>, y: set<T>)
    requires y <= x
    ensures |y| <= |x|
  {
    assert x == y + (x - y);
  }

  lemma {:induction false} ElementsCount<T(!new)>(less: Less<T>, a: seq<T>)
    requires StrictTotalOrder(less) && Increasing(less, a)
    ensures |set v | v in a| == |a|
  {
    if a != [] {
      HeadIsLeast(less, a);
      ElementsCount(less, a[1..]);
      assert (set v | v in a) == {a[0]} + (set v | v in a[1..]);
    }
  }

  /** One more least element keeps the others and adds to their end. */
  lemma {:induction false} LeastGrows<T(!new)>(less: Less<T>, population: seq<T>, a: seq<T>, b: seq<T>, k: nat)
    requires StrictTotalOrder(less) && HoldsLeast(less, population, a, k) && HoldsLeast(less, population, b, k + 1)
    ensures b[..k] == a
  {
    var shorter, last := b[..k], b[k];
    assert b == shorter + [last];
    forall x, other | x in shorter && other in population && other !in shorter
      ensures less(x, other)
    {
      if other == last {
        var i :| 0 <= i < k && shorter[i] == x;
        assert less(b[i], b[k]);
      }
    }
    assert forall x :: x in shorter ==> x in b;
    LeastIsUnique(less, population, a, shorter, k);
  }
}
