// Greedy selection of non-overlapping windows of one length, given the set of their starts.
// It is the choice `selectIndependentOccurrences` in src/activity-patterns.js makes for one pattern.

module IntervalSelection {

  // Scan upwards and take every start that the window taken before does not cover.
  function Pick(hits: set<nat>, len: nat, from: nat, bound: nat): (starts: seq<nat>)
    requires len > 0
    decreases bound - from
  {
    if from >= bound then []
    else if from in hits then [from] + Pick(hits, len, from + len, bound)
    else Pick(hits, len, from + 1, bound)
  }

  lemma {:induction false} PickSkips(hits: set<nat>, len: nat, from: nat, next: nat, bound: nat)
    requires len > 0 && from <= next && forall a :: from <= a < next ==> a !in hits
    ensures Pick(hits, len, from, bound) == Pick(hits, len, next, bound)
    decreases next - from
  {
    if from < next {
      PickSkips(hits, len, from + 1, next, bound);
    }
  }

  // Starts of windows no two of which share a position.
  ghost predicate Independent(hits: set<nat>, len: nat, starts: set<nat>) {
    starts <= hits && forall a, b :: a in starts && b in starts && a < b ==> a + len <= b
  }

  function Elements(xs: seq<nat>): (r: set<nat>) {
    if xs == [] then {} else {xs[0]} + Elements(xs[1..])
  }

  lemma {:induction false} IndependentInsert(hits: set<nat>, len: nat, from: nat, rest: set<nat>)
    requires Independent(hits, len, rest) && from in hits && forall a :: a in rest ==> from + len <= a
    ensures Independent(hits, len, {from} + rest)
  {
  }

  lemma {:induction false} PickIsIndependent(hits: set<nat>, len: nat, from: nat, bound: nat)
    requires len > 0
    ensures Independent(hits, len, Elements(Pick(hits, len, from, bound)))
    ensures |Elements(Pick(hits, len, from, bound))| == |Pick(hits, len, from, bound)|
    ensures forall a :: a in Elements(Pick(hits, len, from, bound)) ==> from <= a
    decreases bound - from
  {
    if from < bound {
      if from in hits {
        PickIsIndependent(hits, len, from + len, bound);
        var picked := Pick(hits, len, from + len, bound);
        assert ([from] + picked)[1..] == picked;
        IndependentInsert(hits, len, from, Elements(picked));
        assert from !in Elements(picked);
      } else {
        PickIsIndependent(hits, len, from + 1, bound);
      }
    }
  }

  // At most one of several disjoint windows starts in a stretch of their own length.
  lemma {:induction false} OneStartPerStretch(hits: set<nat>, len: nat, from: nat, starts: set<nat>)
    requires Independent(hits, len, starts) && forall a :: a in starts ==> from <= a < from + len
    ensures |starts| <= 1
  {
    if starts != {} {
      var e :| e in starts;
      assert starts == {e};
    }
  }

  // No independent choice is larger than the greedy one.
  lemma {:induction false} NoLargerChoice(hits: set<nat>, len: nat, from: nat, bound: nat, starts: set<nat>)
    requires len > 0 && Independent(hits, len, starts) && forall a :: a in starts ==> from <= a < bound
    ensures |starts| <= |Pick(hits, len, from, bound)|
    decreases bound - from
  {
    if from >= bound {
      assert starts == {};
    } else if from !in hits {
      NoLargerChoice(hits, len, from + 1, bound, starts);
    } else {
      var later := set a | a in starts && from + len <= a;
      NoLargerChoice(hits, len, from + len, bound, later);
      OneStartPerStretch(hits, len, from, starts - later);
      assert starts == (starts - later) + later;
    }
  }

  // If moving a hit of the longer windows by `offset` always gives a hit of the shorter ones,
  // the shorter ones are picked at least as often.
  lemma {:induction false} PartIsPickedAsOften(hits: set<nat>, len: nat, partHits: set<nat>, partLen: nat,
                                               offset: nat, from: nat, partFrom: nat, bound: nat)
    requires 0 < partLen <= len && partFrom <= from + offset
    requires forall a :: a in hits ==> a + offset in partHits && a + offset < bound
    ensures |Pick(hits, len, from, bound)| <= |Pick(partHits, partLen, partFrom, bound)|
    decreases if from < bound then bound - from else 0, if partFrom < bound then bound - partFrom else 0
  {
    if from < bound {
      if from !in hits {
        PartIsPickedAsOften(hits, len, partHits, partLen, offset, from + 1, partFrom, bound);
      } else if partFrom in partHits {
        PartIsPickedAsOften(hits, len, partHits, partLen, offset, from + len, partFrom + partLen, bound);
      } else {
        PartIsPickedAsOften(hits, len, partHits, partLen, offset, from, partFrom + 1, bound);
      }
    }
  }
}
