// Words read around a cycle: rotations, powers, periods and the collapsing of repeats that
// `canonicalCycle` and `minimalPeriod` in src/backlog-triage.js perform on the parts of a mined loop.
// The alphabet is arbitrary; CanonicalCycle.dfy adds the text form.

module CyclicWords {

  // ---- rotations and powers -----------------------------------------------------------------

  function Rotate<T>(w: seq<T>, k: nat): (r: seq<T>)
    requires k <= |w|
    ensures |r| == |w|
  {
    w[k..] + w[..k]
  }

  ghost predicate IsRotation<T>(a: seq<T>, b: seq<T>) {
    exists k: nat :: k <= |a| && b == Rotate(a, k)
  }

  lemma {:induction false} RotationSymmetric<T>(a: seq<T>, b: seq<T>)
    requires IsRotation(a, b)
    ensures IsRotation(b, a)
  {
    var k: nat :| k <= |a| && b == Rotate(a, k);
    assert a == Rotate(b, |a| - k);
  }

  lemma {:induction false} RotateTwice<T>(a: seq<T>, j: nat, k: nat)
    requires j <= |a| && k <= |a|
    ensures Rotate(Rotate(a, j), k) == Rotate(a, if j + k <= |a| then j + k else j + k - |a|)
  {
  }

  lemma {:induction false} RotationTransitive<T>(a: seq<T>, b: seq<T>, c: seq<T>)
    requires IsRotation(a, b) && IsRotation(b, c)
    ensures IsRotation(a, c)
  {
    var j: nat :| j <= |a| && b == Rotate(a, j);
    var k: nat :| k <= |b| && c == Rotate(b, k);
    RotateTwice(a, j, k);
  }

  function Power<T>(w: seq<T>, k: nat): (r: seq<T>)
  {
    if k == 0 then [] else w + Power(w, k - 1)
  }

  // ---- a little arithmetic ------------------------------------------------------------------

  lemma {:induction false} MulStep(a: int, b: int, n: int)
    requires a < b && n > 0
    ensures a * n + n <= b * n
  {
    assert b * n == a * n + n + (b - a - 1) * n;
  }

  lemma {:induction false} QuotientUnique(x: int, n: int, q: int, r: int)
    requires n > 0 && x == q * n + r && 0 <= r < n
    ensures x / n == q && x % n == r
  {
    var q' := x / n;
    assert q' * n <= x < q' * n + n;
    if q < q' {
      MulStep(q, q', n);
    } else if q' < q {
      MulStep(q', q, n);
    }
  }

  lemma {:induction false} Regroup(i: int, a: int, b: int, p: int, r: int, c: int, s: int)
    requires i == a * (b * p) + r && r == c * p + s
    ensures i == (a * b + c) * p + s
  {
    assert a * (b * p) == (a * b) * p;
  }

  lemma {:induction false} ModMultiple(a: nat, p: nat, k: nat)
    requires p > 0
    ensures (a + k * p) % p == a % p
  {
    assert a + k * p == (a / p + k) * p + a % p;
    QuotientUnique(a + k * p, p, a / p + k, a % p);
  }

  lemma {:induction false} ModShift(a: nat, n: nat)
    requires n > 0
    ensures (a + n) % n == a % n
  {
    ModMultiple(a, n, 1);
  }

  // If p divides n then reducing modulo n first changes nothing modulo p.
  lemma {:induction false} ModOfMod(i: nat, n: nat, p: nat)
    requires n > 0 && p > 0 && n % p == 0
    ensures (i % n) % p == i % p
  {
    var a, b, r := i / n, n / p, i % n;
    var c, s := r / p, r % p;
    Regroup(i, a, b, p, r, c, s);
    QuotientUnique(i, p, a * b + c, s);
  }

  lemma {:induction false} DividesTransitive(n: nat, q: nat, p: nat)
    requires q > 0 && p > 0 && n % q == 0 && q % p == 0
    ensures n % p == 0
  {
    ModOfMod(n, q, p);
    ModMultiple(0, p, 0);
  }

  lemma {:induction false} DividesSum(a: nat, b: nat, g: nat)
    requires g > 0 && a % g == 0 && b % g == 0
    ensures (a + b) % g == 0
  {
    assert b == (b / g) * g;
    ModMultiple(a, g, b / g);
  }

  // ---- words read around the cycle ----------------------------------------------------------

  // The letter at position i of the word repeated for ever.
  function At<T>(w: seq<T>, i: nat): (x: T)
    requires |w| > 0
  {
    if i < |w| then w[i] else At(w, i - |w|)
  }

  lemma {:induction false} AtIsMod<T>(w: seq<T>, i: nat)
    requires |w| > 0
    ensures At(w, i) == w[i % |w|]
  {
    if i >= |w| {
      AtIsMod(w, i - |w|);
      ModShift(i - |w|, |w|);
    }
  }

  lemma {:induction false} AtRotateOne<T>(w: seq<T>, i: nat)
    requires |w| > 0
    ensures At(Rotate(w, 1), i) == At(w, i + 1)
  {
    if i >= |w| {
      AtRotateOne(w, i - |w|);
    }
  }

  lemma {:induction false} PowerLength<T>(w: seq<T>, k: nat)
    ensures |Power(w, k)| == k * |w|
  {
    if k > 0 {
      PowerLength(w, k - 1);
      assert k * |w| == |w| + (k - 1) * |w|;
    }
  }

  lemma {:induction false} PowerIndex<T>(w: seq<T>, k: nat, i: nat)
    requires |w| > 0 && i < |Power(w, k)|
    ensures Power(w, k)[i] == At(w, i)
  {
    if i >= |w| {
      PowerIndex(w, k - 1, i - |w|);
    }
  }

  lemma {:induction false} PowerNonEmpty<T>(w: seq<T>, k: nat)
    requires |w| > 0 && k > 0
    ensures |Power(w, k)| == k * |w| >= |w| && |Power(w, k)| % |w| == 0
  {
    PowerLength(w, k);
    MulStep(0, k, |w|);
    QuotientUnique(k * |w|, |w|, k, 0);
  }

  lemma {:induction false} AtMultiple<T>(w: seq<T>, k: nat, i: nat)
    requires |w| > 0
    ensures At(w, i + k * |w|) == At(w, i)
  {
    if k > 0 {
      AtMultiple(w, k - 1, i);
      assert i + k * |w| == (i + (k - 1) * |w|) + |w|;
      assert (k - 1) * |w| >= 0;
    }
  }

  lemma {:induction false} AtPower<T>(w: seq<T>, k: nat, i: nat)
    requires |w| > 0 && k > 0
    ensures |Power(w, k)| > 0 && At(Power(w, k), i) == At(w, i)
  {
    PowerNonEmpty(w, k);
    if i < |Power(w, k)| {
      PowerIndex(w, k, i);
    } else {
      AtPower(w, k, i - k * |w|);
      AtMultiple(w, k, i - k * |w|);
    }
  }

  // Moving s letters around the cycle changes nothing.
  ghost predicate FixedBy<T>(w: seq<T>, s: nat)
    requires |w| > 0
  {
    forall i: nat, j: nat :: j == i + s ==> At(w, i) == At(w, j)
  }

  lemma {:induction false} FixedByDifference<T>(w: seq<T>, a: nat, b: nat)
    requires |w| > 0 && FixedBy(w, a) && FixedBy(w, b) && b <= a
    ensures FixedBy(w, a - b)
  {
    forall i: nat, j: nat | j == i + (a - b) ensures At(w, i) == At(w, j) {
      assert At(w, j) == At(w, j + b);
      assert At(w, i) == At(w, i + a);
    }
  }

  lemma {:induction false} FixedByRotateOne<T>(w: seq<T>, s: nat)
    requires |w| > 0 && FixedBy(w, s)
    ensures FixedBy(Rotate(w, 1), s)
  {
    forall i: nat, j: nat | j == i + s ensures At(Rotate(w, 1), i) == At(Rotate(w, 1), j) {
      AtRotateOne(w, i);
      AtRotateOne(w, j);
    }
  }

  lemma {:induction false} FixedByPower<T>(w: seq<T>, k: nat, s: nat)
    requires |w| > 0 && k > 0
    ensures |Power(w, k)| > 0
    ensures FixedBy(Power(w, k), s) <==> FixedBy(w, s)
  {
    AtPower(w, k, 0);
    forall i: nat ensures At(Power(w, k), i) == At(w, i) {
      AtPower(w, k, i);
    }
    if FixedBy(w, s) {
      forall i: nat, j: nat | j == i + s ensures At(Power(w, k), i) == At(Power(w, k), j) {
        assert At(w, i) == At(w, j);
      }
    }
    if FixedBy(Power(w, k), s) {
      forall i: nat, j: nat | j == i + s ensures At(w, i) == At(w, j) {
        assert At(Power(w, k), i) == At(Power(w, k), j);
      }
    }
  }

  // ---- periods ------------------------------------------------------------------------------

  // The test `minimalPeriod` applies: p divides the length and every letter repeats the first p.
  predicate IsPeriod<T(==)>(w: seq<T>, p: nat) {
    0 < p <= |w| && |w| % p == 0 && forall i :: 0 <= i < |w| ==> w[i] == w[i % p]
  }

  lemma {:induction false} WholeIsPeriod<T>(w: seq<T>)
    requires |w| > 0
    ensures IsPeriod(w, |w|)
  {
    QuotientUnique(|w|, |w|, 1, 0);
  }

  function LeastPeriodFrom<T(==)>(w: seq<T>, p: nat): (r: nat)
    requires 0 < p <= |w|
    requires forall q :: 0 < q < p ==> !IsPeriod(w, q)
    ensures IsPeriod(w, r)
    ensures forall q :: 0 < q < r ==> !IsPeriod(w, q)
    decreases |w| - p
  {
    WholeIsPeriod(w);
    if IsPeriod(w, p) then p else LeastPeriodFrom(w, p + 1)
  }

  function LeastPeriod<T(==)>(w: seq<T>): (r: nat)
    requires |w| > 0
    ensures IsPeriod(w, r)
    ensures forall q :: 0 < q < r ==> !IsPeriod(w, q)
  {
    LeastPeriodFrom(w, 1)
  }

  function Root<T(==)>(w: seq<T>): (r: seq<T>)
    requires |w| > 0
    ensures 0 < |r| <= |w|
  {
    w[..LeastPeriod(w)]
  }

  lemma {:induction false} PeriodFixes<T>(w: seq<T>, p: nat)
    requires IsPeriod(w, p)
    ensures FixedBy(w, p)
    ensures forall i: nat :: At(w, i) == w[i % p]
  {
    forall i: nat ensures At(w, i) == w[i % p] {
      AtIsMod(w, i);
      ModOfMod(i, |w|, p);
    }
    forall i: nat, j: nat | j == i + p ensures At(w, i) == At(w, j) {
      ModShift(i, p);
    }
  }

  lemma {:induction false} FixedBack<T>(w: seq<T>, p: nat, i: nat)
    requires |w| > 0 && FixedBy(w, p) && p <= i
    ensures At(w, i) == At(w, i - p)
  {
  }

  // i modulo p, by steps.
  function Back(i: nat, p: nat): (r: nat)
    requires p > 0
  {
    if i < p then i else Back(i - p, p)
  }

  lemma {:induction false} BackIsMod(i: nat, p: nat)
    requires p > 0
    ensures Back(i, p) == i % p
  {
    if i >= p {
      BackIsMod(i - p, p);
      ModShift(i - p, p);
    }
  }

  lemma {:induction false} FixedBackAll<T>(w: seq<T>, p: nat, i: nat)
    requires |w| > 0 && FixedBy(w, p) && 0 < p
    ensures At(w, i) == At(w, Back(i, p))
  {
    if i >= p {
      FixedBackAll(w, p, i - p);
      FixedBack(w, p, i);
    }
  }

  lemma {:induction false} FixedRepeats<T>(w: seq<T>, p: nat, i: nat)
    requires |w| > 0 && FixedBy(w, p) && 0 < p
    ensures At(w, i) == At(w, i % p)
  {
    FixedBackAll(w, p, i);
    BackIsMod(i, p);
  }

  lemma {:induction false} FixedIsPeriod<T>(w: seq<T>, p: nat)
    requires |w| > 0 && FixedBy(w, p) && 0 < p <= |w| && |w| % p == 0
    ensures IsPeriod(w, p)
  {
    forall i | 0 <= i < |w| ensures w[i] == w[i % p] {
      FixedRepeats(w, p, i);
    }
  }

  function Gcd(a: nat, b: nat): (g: nat)
    requires a > 0 && b > 0
    ensures 0 < g <= a && g <= b
    decreases a + b
  {
    if a == b then a else if a > b then Gcd(a - b, b) else Gcd(a, b - a)
  }

  lemma {:induction false} GcdDivides(a: nat, b: nat)
    requires a > 0 && b > 0
    ensures a % Gcd(a, b) == 0 && b % Gcd(a, b) == 0
    decreases a + b
  {
    var g := Gcd(a, b);
    if a > b {
      GcdDivides(a - b, b);
      DividesSum(a - b, b, g);
    } else if a < b {
      GcdDivides(a, b - a);
      DividesSum(b - a, a, g);
    } else {
      QuotientUnique(a, a, 1, 0);
    }
  }

  lemma {:induction false} FixedByGcd<T>(w: seq<T>, a: nat, b: nat)
    requires |w| > 0 && FixedBy(w, a) && FixedBy(w, b) && a > 0 && b > 0
    ensures FixedBy(w, Gcd(a, b))
    decreases a + b
  {
    if a > b {
      FixedByDifference(w, a, b);
      FixedByGcd(w, a - b, b);
    } else if a < b {
      FixedByDifference(w, b, a);
      FixedByGcd(w, a, b - a);
    }
  }

  // Periods are closed under gcd.
  lemma {:induction false} GcdIsPeriod<T>(w: seq<T>, p: nat, q: nat)
    requires IsPeriod(w, p) && IsPeriod(w, q)
    ensures IsPeriod(w, Gcd(p, q))
  {
    PeriodFixes(w, p);
    PeriodFixes(w, q);
    FixedByGcd(w, p, q);
    GcdDivides(p, q);
    DividesTransitive(|w|, p, Gcd(p, q));
    FixedIsPeriod(w, Gcd(p, q));
  }

  // Hence the least period divides every other one.
  lemma {:induction false} LeastPeriodDivides<T>(w: seq<T>, q: nat)
    requires IsPeriod(w, q)
    ensures q % LeastPeriod(w) == 0
  {
    var p := LeastPeriod(w);
    GcdIsPeriod(w, p, q);
    GcdDivides(p, q);
    assert Gcd(p, q) == p;
  }

  // Repeating a word changes neither its least period nor its root.
  lemma {:induction false} RootOfPower<T>(w: seq<T>, k: nat)
    requires |w| > 0 && k > 0
    ensures |Power(w, k)| > 0 && Root(Power(w, k)) == Root(w)
  {
    var n, u := |w|, Power(w, k);
    PowerNonEmpty(w, k);
    var p, q := LeastPeriod(w), LeastPeriod(u);
    PeriodFixes(w, p);
    FixedByPower(w, k, p);
    DividesTransitive(|u|, n, p);
    FixedIsPeriod(u, p);
    WholeIsPeriod(w);
    PeriodFixes(w, n);
    FixedByPower(w, k, n);
    FixedIsPeriod(u, n);
    LeastPeriodDivides(u, n);
    PeriodFixes(u, q);
    FixedByPower(w, k, q);
    FixedIsPeriod(w, q);
    forall i | 0 <= i < p ensures u[i] == w[i] {
      AtPower(w, k, i);
    }
  }

  lemma {:induction false} PeriodOfRotateOne<T>(w: seq<T>, p: nat)
    requires IsPeriod(w, p)
    ensures IsPeriod(Rotate(w, 1), p)
  {
    PeriodFixes(w, p);
    FixedByRotateOne(w, p);
    FixedIsPeriod(Rotate(w, 1), p);
  }

  lemma {:induction false} PeriodOfRotate<T>(w: seq<T>, k: nat, p: nat)
    requires IsPeriod(w, p) && k <= |w|
    ensures IsPeriod(Rotate(w, k), p)
  {
    if k == 0 {
      assert Rotate(w, 0) == w;
    } else {
      PeriodOfRotate(w, k - 1, p);
      RotateTwice(w, k - 1, 1);
      PeriodOfRotateOne(Rotate(w, k - 1), p);
    }
  }

  lemma {:induction false} LeastPeriodOfRotate<T>(w: seq<T>, k: nat)
    requires |w| > 0 && k <= |w|
    ensures LeastPeriod(Rotate(w, k)) == LeastPeriod(w)
  {
    var v := Rotate(w, k);
    PeriodOfRotate(w, k, LeastPeriod(w));
    PeriodOfRotate(v, |w| - k, LeastPeriod(v));
    assert Rotate(v, |w| - k) == w;
  }

  lemma {:induction false} RootOfRotateOne<T>(w: seq<T>)
    requires |w| > 0
    ensures Root(Rotate(w, 1)) == Rotate(Root(w), 1)
  {
    LeastPeriodOfRotate(w, 1);
    var p, v := LeastPeriod(w), Rotate(w, 1);
    if p < |w| {
      QuotientUnique(p, p, 1, 0);
      assert w[p] == w[0];
    }
    assert v[..p] == Rotate(w[..p], 1);
  }

  // The root of a rotation is a rotation of the root.
  lemma {:induction false} RootOfRotate<T>(w: seq<T>, k: nat)
    requires |w| > 0 && k <= |w|
    ensures IsRotation(Root(w), Root(Rotate(w, k)))
  {
    if k == 0 {
      assert Rotate(w, 0) == w;
      assert Root(w) == Rotate(Root(w), 0);
    } else {
      var v := Rotate(w, k - 1);
      RootOfRotate(w, k - 1);
      RotateTwice(w, k - 1, 1);
      RootOfRotateOne(v);
      RotationTransitive(Root(w), Root(v), Root(Rotate(w, k)));
    }
  }

  // A root is its own root.
  lemma {:induction false} RootIsPrimitive<T>(w: seq<T>)
    requires |w| > 0
    ensures Root(Root(w)) == Root(w)
  {
    var p, r := LeastPeriod(w), Root(w);
    var k := |w| / p;
    assert |w| == k * p;
    PowerLength(r, k);
    forall i | 0 <= i < |w| ensures w[i] == Power(r, k)[i] {
      PowerIndex(r, k, i);
      AtIsMod(r, i);
    }
    assert w == Power(r, k);
    RootOfPower(r, k);
  }

  // ---- collapsing repeats -------------------------------------------------------------------

  function Dedupe<T(==)>(w: seq<T>): (r: seq<T>)
    ensures w == [] <==> r == []
    ensures w != [] ==> r[0] == w[0] && r[|r| - 1] == w[|w| - 1]
  {
    if w == [] then [] else
      var r, x := Dedupe(w[..|w| - 1]), w[|w| - 1];
      if r != [] && r[|r| - 1] == x then r else r + [x]
  }

  // Drop closing letters that only repeat the opening one.
  function PopClosing<T(==)>(w: seq<T>): (r: seq<T>)
    ensures w != [] ==> r != []
  {
    if |w| > 1 && w[|w| - 1] == w[0] then PopClosing(w[..|w| - 1]) else w
  }

  function Reduce<T(==)>(w: seq<T>): (r: seq<T>)
    ensures w != [] ==> r != []
  {
    PopClosing(Dedupe(w))
  }

  ghost predicate NoEqualNeighbours<T>(w: seq<T>) {
    forall i :: 0 <= i < |w| - 1 ==> w[i] != w[i + 1]
  }

  lemma {:induction false} DedupeSeparates<T>(w: seq<T>)
    ensures NoEqualNeighbours(Dedupe(w))
  {
    if w != [] {
      DedupeSeparates(w[..|w| - 1]);
    }
  }

  function DropClosing<T(==)>(w: seq<T>): (r: seq<T>)
  {
    if |w| > 1 && w[|w| - 1] == w[0] then w[..|w| - 1] else w
  }

  // At most one letter is ever popped.
  lemma {:induction false} ReduceDropsOne<T>(w: seq<T>)
    ensures Reduce(w) == DropClosing(Dedupe(w))
    ensures NoEqualNeighbours(Reduce(w))
    ensures |Reduce(w)| > 1 ==> Reduce(w)[|Reduce(w)| - 1] != Reduce(w)[0]
  {
    DedupeSeparates(w);
    var d := Dedupe(w);
    if |d| > 1 && d[|d| - 1] == d[0] {
      assert PopClosing(d) == PopClosing(d[..|d| - 1]);
    }
  }

  lemma {:induction false} DedupePush<T>(s: seq<T>, x: T)
    requires s != []
    ensures Dedupe(s + [x]) == if s[|s| - 1] == x then Dedupe(s) else Dedupe(s) + [x]
  {
    assert (s + [x])[..|s|] == s;
  }

  lemma {:induction false} AppendDeduped<T>(a: seq<T>, c: seq<T>, joined: bool, closed: bool, x: T)
    requires c != []
    ensures var d := if closed then c else c + [x];
            var rest := if joined then c[1..] else c;
            a + (if joined then d[1..] else d) == (a + rest) + (if closed then [] else [x])
  {
  }

  lemma {:induction false} DedupeLast<T>(a: seq<T>, b: seq<T>)
    requires a != [] && |b| > 1
    ensures var c, x := b[..|b| - 1], b[|b| - 1]; Dedupe(a + b) == if c[|c| - 1] == x then Dedupe(a + c) else Dedupe(a + c) + [x]
  {
    assert (a + b)[..|a + b| - 1] == a + b[..|b| - 1];
  }

  lemma {:induction false} DedupeAppendLast<T>(a: seq<T>, b: seq<T>)
    requires a != [] && |b| > 1
    requires var c := b[..|b| - 1]; Dedupe(a + c) == Dedupe(a) + (if a[|a| - 1] == c[0] then Dedupe(c)[1..] else Dedupe(c))
    ensures Dedupe(a + b) == Dedupe(a) + (if a[|a| - 1] == b[0] then Dedupe(b)[1..] else Dedupe(b))
  {
    var c, x := b[..|b| - 1], b[|b| - 1];
    DedupeLast(a, b);
    AppendDeduped(Dedupe(a), Dedupe(c), a[|a| - 1] == c[0], c[|c| - 1] == x, x);
  }

  lemma {:induction false} DedupeAppend<T>(a: seq<T>, b: seq<T>)
    requires a != [] && b != []
    ensures Dedupe(a + b) == Dedupe(a) + (if a[|a| - 1] == b[0] then Dedupe(b)[1..] else Dedupe(b))
    decreases |b|
  {
    if |b| == 1 {
      DedupeAppendSingle(a, b);
    } else {
      DedupeAppend(a, b[..|b| - 1]);
      DedupeAppendLast(a, b);
    }
  }

  lemma {:induction false} DedupeAppendSingle<T>(a: seq<T>, b: seq<T>)
    requires a != [] && |b| == 1
    ensures Dedupe(a + b) == Dedupe(a) + (if a[|a| - 1] == b[0] then Dedupe(b)[1..] else Dedupe(b))
  {
    assert b == [b[0]];
    DedupePush(a, b[0]);
    DedupeSingle(b[0]);
  }

  // Moving the first letter x of [x] + u to the end, seen after collapsing (d is u collapsed).
  lemma {:induction false} DropClosingRotates<T>(d: seq<T>, x: T)
    requires d != [] && NoEqualNeighbours(d)
    ensures var before := [x] + (if x == d[0] then d[1..] else d);
            var after := d + (if d[|d| - 1] == x then [] else [x]);
            IsRotation(DropClosing(before), DropClosing(after))
  {
    var before := [x] + (if x == d[0] then d[1..] else d);
    var after := d + (if d[|d| - 1] == x then [] else [x]);
    if x == d[0] {
      assert before == d;
      assert DropClosing(after) == DropClosing(before);
      assert DropClosing(after) == Rotate(DropClosing(before), 0);
    } else if d[|d| - 1] == x {
      assert after == d && DropClosing(after) == d;
      assert DropClosing(before) == [x] + d[..|d| - 1];
      assert d == Rotate(DropClosing(before), 1);
    } else {
      assert DropClosing(before) == [x] + d && DropClosing(after) == d + [x];
      assert d + [x] == Rotate([x] + d, 1);
    }
  }

  lemma {:induction false} DedupeSingle<T>(x: T)
    ensures Dedupe([x]) == [x]
  {
    assert [x][..0] == [];
  }

  lemma {:induction false} DedupeEnds<T>(x: T, u: seq<T>)
    requires u != []
    ensures Dedupe([x] + u) == [x] + (if x == u[0] then Dedupe(u)[1..] else Dedupe(u))
    ensures Dedupe(u + [x]) == Dedupe(u) + (if u[|u| - 1] == x then [] else [x])
  {
    DedupeSingle(x);
    DedupeAppend([x], u);
    DedupeAppend(u, [x]);
  }

  lemma {:induction false} ReduceRotateOne<T>(w: seq<T>)
    requires w != []
    ensures IsRotation(Reduce(w), Reduce(Rotate(w, 1)))
  {
    var x, u := w[0], w[1..];
    if u == [] {
      assert Rotate(w, 1) == w;
      assert Reduce(w) == Rotate(Reduce(w), 0);
    } else {
      assert w == [x] + u && Rotate(w, 1) == u + [x];
      DedupeEnds(x, u);
      DedupeSeparates(u);
      DropClosingRotates(Dedupe(u), x);
      ReduceDropsOne([x] + u);
      ReduceDropsOne(u + [x]);
    }
  }

  lemma {:induction false} ReduceRotate<T>(w: seq<T>, k: nat)
    requires w != [] && k <= |w|
    ensures IsRotation(Reduce(w), Reduce(Rotate(w, k)))
  {
    if k == 0 {
      assert Rotate(w, 0) == w;
      assert Reduce(w) == Rotate(Reduce(w), 0);
    } else {
      ReduceRotate(w, k - 1);
      RotateTwice(w, k - 1, 1);
      ReduceRotateOne(Rotate(w, k - 1));
      RotationTransitive(Reduce(w), Reduce(Rotate(w, k - 1)), Reduce(Rotate(w, k)));
    }
  }

  lemma {:induction false} PowerOne<T>(w: seq<T>)
    ensures Power(w, 1) == w
  {
    assert Power(w, 0) == [];
  }

  lemma {:induction false} DedupeOpenPower<T>(w: seq<T>, k: nat)
    requires w != [] && k > 0 && w[0] != w[|w| - 1]
    ensures Dedupe(Power(w, k)) == Power(Dedupe(w), k)
  {
    PowerOne(w);
    PowerOne(Dedupe(w));
    if k > 1 {
      PowerNonEmpty(w, k - 1);
      PowerIndex(w, k - 1, 0);
      DedupeAppend(w, Power(w, k - 1));
      DedupeOpenPower(w, k - 1);
    }
  }

  lemma {:induction false} DedupeClosedPower<T>(w: seq<T>, k: nat)
    requires w != [] && k > 0 && w[0] == w[|w| - 1]
    ensures Dedupe(Power(w, k)) == Power(Dedupe(w)[..|Dedupe(w)| - 1], k) + [w[0]]
  {
    var d := Dedupe(w);
    var c := d[..|d| - 1];
    PowerOne(w);
    PowerOne(c);
    if k > 1 {
      PowerNonEmpty(w, k - 1);
      PowerIndex(w, k - 1, 0);
      DedupeAppend(w, Power(w, k - 1));
      DedupeClosedPower(w, k - 1);
      var rest := Dedupe(Power(w, k - 1));
      assert d + rest[1..] == c + rest;
      assert c + (Power(c, k - 1) + [w[0]]) == Power(c, k) + [w[0]];
    }
  }

  lemma {:induction false} LastOfPower<T>(w: seq<T>, k: nat)
    requires w != [] && k > 0
    ensures Power(w, k) != [] && Power(w, k)[|Power(w, k)| - 1] == w[|w| - 1]
    ensures Power(w, k)[0] == w[0]
  {
    if k > 1 {
      LastOfPower(w, k - 1);
    }
  }

  // Reducing a repeated word repeats the reduced word (a single letter stays single).
  lemma {:induction false} ReducePower<T>(w: seq<T>, k: nat)
    requires w != [] && k > 0
    ensures Reduce(Power(w, k)) == Reduce(w) || Reduce(Power(w, k)) == Power(Reduce(w), k)
  {
    var d := Dedupe(w);
    ReduceDropsOne(w);
    ReduceDropsOne(Power(w, k));
    if w[0] == w[|w| - 1] {
      DedupeClosedPower(w, k);
      var c := d[..|d| - 1];
      if |d| > 1 {
        LastOfPower(c, k);
        assert (Power(c, k) + [w[0]])[..|Power(c, k)|] == Power(c, k);
      } else {
        PowerLength(c, k);
      }
    } else {
      DedupeOpenPower(w, k);
      LastOfPower(d, k);
    }
  }

  lemma {:induction false} RootOfReducedPower<T>(w: seq<T>, k: nat)
    requires w != [] && k > 0
    ensures Power(w, k) != [] && Root(Reduce(Power(w, k))) == Root(Reduce(w))
  {
    PowerNonEmpty(w, k);
    ReducePower(w, k);
    RootOfPower(Reduce(w), k);
  }

  // No two letters next to each other around the cycle are equal.
  ghost predicate Separated<T>(w: seq<T>) {
    NoEqualNeighbours(w) && (|w| > 1 ==> w[|w| - 1] != w[0])
  }

  lemma {:induction false} RootIsSeparated<T>(c: seq<T>)
    requires c != [] && Separated(c)
    ensures Separated(Root(c))
  {
    var p := LeastPeriod(c);
    if 1 < p < |c| {
      QuotientUnique(p, p, 1, 0);
      assert c[p] == c[0] && c[p - 1] != c[p];
    }
  }

  lemma {:induction false} RotationIsSeparated<T>(w: seq<T>, k: nat)
    requires Separated(w) && k <= |w|
    ensures Separated(Rotate(w, k))
  {
  }

  // A rotation of a root is already reduced.
  lemma {:induction false} ReducedRootStable<T>(w: seq<T>, k: nat)
    requires w != [] && k <= |Root(Reduce(w))|
    ensures Reduce(Rotate(Root(Reduce(w)), k)) == Rotate(Root(Reduce(w)), k)
  {
    ReduceDropsOne(w);
    RootIsSeparated(Reduce(w));
    RotationIsSeparated(Root(Reduce(w)), k);
    DedupeOfSeparated(Rotate(Root(Reduce(w)), k));
  }

  lemma {:induction false} DedupeOfSeparated<T>(w: seq<T>)
    requires NoEqualNeighbours(w)
    ensures Dedupe(w) == w
  {
    if w != [] {
      DedupeOfSeparated(w[..|w| - 1]);
    }
  }
}
