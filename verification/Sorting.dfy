// Array.prototype.sort as the sources use it: a stable sort by a comparator.

module Sorting {

  // A comparator that never contradicts itself: `before` is asymmetric and "not after" is transitive.
  ghost predicate WeakOrder<T(!new)>(before: (T, T) -> bool) {
    && (forall a, b :: before(a, b) ==> !before(b, a))
    && (forall a, b, c :: !before(b, a) && !before(c, b) ==> !before(c, a))
  }

  ghost predicate Sorted<T>(xs: seq<T>, before: (T, T) -> bool) {
    forall i, j :: 0 <= i < j < |xs| ==> !before(xs[j], xs[i])
  }

  function Insert<T>(x: T, xs: seq<T>, before: (T, T) -> bool): (r: seq<T>)
    ensures multiset(r) == multiset(xs) + multiset{x}
  {
    if xs != [] && before(xs[0], x) then
      assert xs == [xs[0]] + xs[1..];
      [xs[0]] + Insert(x, xs[1..], before)
    else [x] + xs
  }

  function StableSort<T>(xs: seq<T>, before: (T, T) -> bool): (r: seq<T>)
    ensures multiset(r) == multiset(xs)
  {
    if xs == [] then [] else
      assert xs == [xs[0]] + xs[1..];
      Insert(xs[0], StableSort(xs[1..], before), before)
  }

  lemma {:induction false} SameElements<T>(xs: seq<T>, ys: seq<T>)
    requires multiset(xs) == multiset(ys)
    ensures |xs| == |ys|
    ensures forall x :: x in xs <==> x in ys
  {
    assert |multiset(xs)| == |xs| && |multiset(ys)| == |ys|;
    forall x ensures x in xs <==> x in ys {
      assert x in xs <==> x in multiset(xs);
      assert x in ys <==> x in multiset(ys);
    }
  }

  lemma {:induction false} InsertSorted<T(!new)>(x: T, xs: seq<T>, before: (T, T) -> bool)
    requires WeakOrder(before) && Sorted(xs, before)
    ensures Sorted(Insert(x, xs, before), before)
  {
    if xs != [] && before(xs[0], x) {
      InsertSorted(x, xs[1..], before);
      var rest := Insert(x, xs[1..], before);
      assert xs == [xs[0]] + xs[1..];
      forall y | y in rest ensures !before(y, xs[0]) {
        assert y in multiset(rest);
        assert y == x || y in xs[1..];
      }
    } else if xs != [] {
      forall j | 0 <= j < |xs| ensures !before(xs[j], x) {
        if j > 0 {
          assert !before(xs[j], xs[0]);
        }
      }
    }
  }

  lemma {:induction false} StableSortSorted<T(!new)>(xs: seq<T>, before: (T, T) -> bool)
    requires WeakOrder(before)
    ensures Sorted(StableSort(xs, before), before)
  {
    if xs != [] {
      StableSortSorted(xs[1..], before);
      InsertSorted(xs[0], StableSort(xs[1..], before), before);
    }
  }

  // A list already in order is left alone.
  lemma {:induction false} StableSortOfSorted<T>(xs: seq<T>, before: (T, T) -> bool)
    requires Sorted(xs, before)
    ensures StableSort(xs, before) == xs
  {
    if xs != [] {
      StableSortOfSorted(xs[1..], before);
      if |xs| > 1 {
        assert !before(xs[1], xs[0]);
      }
    }
  }
}
