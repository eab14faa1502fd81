// The canonical name of a mined app loop: `canonicalCycle` and `minimalPeriod` in src/backlog-triage.js.
// A fingerprint such as "zoom→wow→zoom" is split at the arrow, reduced to its primitive cycle, and named
// by the least rotation of that cycle, joined with the arrow again.

module CanonicalCycle {
  import opened CyclicWords

  // JavaScript strings are sequences of 16-bit code units, and `<` compares code units.
  type CodeUnit = c: int | 0 <= c < 0x1_0000
  type Text = seq<CodeUnit>
  type Loop = seq<Text>

  const ARROW: CodeUnit := 0x2192

  // ---- the order of strings -----------------------------------------------------------------

  predicate TextLess(a: Text, b: Text) {
    b != [] && (a == [] || a[0] < b[0] || (a[0] == b[0] && TextLess(a[1..], b[1..])))
  }

  lemma {:induction false} TextOrderTotal(a: Text, b: Text)
    ensures TextLess(a, b) || a == b || TextLess(b, a)
    ensures !(TextLess(a, b) && TextLess(b, a)) && !TextLess(a, a)
  {
    if a != [] && b != [] && a[0] == b[0] {
      TextOrderTotal(a[1..], b[1..]);
      assert a == [a[0]] + a[1..] && b == [b[0]] + b[1..];
    }
    if a != [] {
      TextOrderTotal(a[1..], a[1..]);
    }
  }

  lemma {:induction false} TextOrderTransitive(a: Text, b: Text, c: Text)
    requires TextLess(a, b) && TextLess(b, c)
    ensures TextLess(a, c)
  {
    if a != [] && a[0] == b[0] == c[0] {
      TextOrderTransitive(a[1..], b[1..], c[1..]);
    }
  }

  // ---- splitting, trimming and joining ------------------------------------------------------

  // The characters String.prototype.trim removes.
  predicate IsSpace(c: CodeUnit) {
    0x09 <= c <= 0x0D || c == 0x20 || c == 0xA0 || c == 0x1680 || 0x2000 <= c <= 0x200A
    || c == 0x2028 || c == 0x2029 || c == 0x202F || c == 0x205F || c == 0x3000 || c == 0xFEFF
  }

  function TrimStart(s: Text): (t: Text)
    ensures t != [] ==> !IsSpace(t[0])
    ensures forall c :: c in t ==> c in s
  {
    if s != [] && IsSpace(s[0]) then TrimStart(s[1..]) else s
  }

  function TrimEnd(s: Text): (t: Text)
    ensures t != [] ==> !IsSpace(t[|t| - 1]) && s != [] && t[0] == s[0]
    ensures forall c :: c in t ==> c in s
  {
    if s != [] && IsSpace(s[|s| - 1]) then TrimEnd(s[..|s| - 1]) else s
  }

  function Trim(s: Text): (t: Text) {
    TrimEnd(TrimStart(s))
  }

  function Split(s: Text): (r: Loop)
    ensures r != [] && forall p :: p in r ==> ARROW !in p
  {
    if s == [] then [[]]
    else
      var rest := Split(s[1..]);
      if s[0] == ARROW then [[]] + rest else [[s[0]] + rest[0]] + rest[1..]
  }

  function Join(ps: Loop): (s: Text)
    requires ps != []
  {
    if |ps| == 1 then ps[0] else ps[0] + [ARROW] + Join(ps[1..])
  }

  function TrimmedNonEmpty(ps: Loop): (r: Loop)
  {
    if ps == [] then [] else
      var t := Trim(ps[0]);
      (if t == [] then [] else [t]) + TrimmedNonEmpty(ps[1..])
  }

  function Parts(fingerprint: Text): (r: Loop) {
    TrimmedNonEmpty(Split(fingerprint))
  }

  // What `split`, `trim` and `filter` leave: no arrow, no outer space, not empty.
  predicate Clean(p: Text) {
    p != [] && ARROW !in p && !IsSpace(p[0]) && !IsSpace(p[|p| - 1])
  }

  lemma {:induction false} TrimmedAreClean(ps: Loop)
    requires forall p :: p in ps ==> ARROW !in p
    ensures forall p :: p in TrimmedNonEmpty(ps) ==> Clean(p)
  {
    if ps != [] {
      TrimmedAreClean(ps[1..]);
    }
  }

  lemma {:induction false} PartsAreClean(fingerprint: Text)
    ensures forall p :: p in Parts(fingerprint) ==> Clean(p)
  {
    TrimmedAreClean(Split(fingerprint));
  }

  lemma {:induction false} SplitWithoutArrow(p: Text)
    requires ARROW !in p
    ensures Split(p) == [p]
  {
    if p != [] {
      SplitWithoutArrow(p[1..]);
      assert p == [p[0]] + p[1..];
    }
  }

  lemma {:induction false} SplitAfterFirst(p: Text, rest: Text)
    requires ARROW !in p
    ensures Split(p + [ARROW] + rest) == [p] + Split(rest)
  {
    var s := p + [ARROW] + rest;
    if p == [] {
      assert s[1..] == rest;
    } else {
      assert s[1..] == p[1..] + [ARROW] + rest;
      SplitAfterFirst(p[1..], rest);
      assert p == [p[0]] + p[1..];
      assert ([p[1..]] + Split(rest))[1..] == Split(rest);
    }
  }

  lemma {:induction false} SplitOfJoin(ps: Loop)
    requires ps != [] && forall p :: p in ps ==> ARROW !in p
    ensures Split(Join(ps)) == ps
  {
    if |ps| == 1 {
      SplitWithoutArrow(ps[0]);
    } else {
      SplitAfterFirst(ps[0], Join(ps[1..]));
      SplitOfJoin(ps[1..]);
    }
  }

  lemma {:induction false} TrimmedOfClean(ps: Loop)
    requires forall p :: p in ps ==> Clean(p)
    ensures TrimmedNonEmpty(ps) == ps
  {
    if ps != [] {
      assert ps[0] in ps;
      assert TrimStart(ps[0]) == ps[0];
      TrimmedOfClean(ps[1..]);
    }
  }

  // Joining clean parts and splitting them again gives them back, so a joined name determines its parts.
  lemma {:induction false} PartsOfJoin(ps: Loop)
    requires ps != [] && forall p :: p in ps ==> Clean(p)
    ensures Parts(Join(ps)) == ps
  {
    SplitOfJoin(ps);
    TrimmedOfClean(ps);
  }

  // ---- the name -----------------------------------------------------------------------------

  // The least of the first n rotations of r, joined.
  function LeastName(r: Loop, n: nat): (name: Text)
    requires 0 < n <= |r|
    ensures exists i: nat :: i < n && name == Join(Rotate(r, i))
  {
    var last := Join(Rotate(r, n - 1));
    if n == 1 then last
    else
      var best := LeastName(r, n - 1);
      if TextLess(last, best) then last else best
  }

  function Cycle(fingerprint: Text): (r: Loop)
    requires Parts(fingerprint) != []
    ensures r != []
  {
    Root(Reduce(Parts(fingerprint)))
  }

  function Canonical(fingerprint: Text): (name: Text) {
    if Parts(fingerprint) == [] then fingerprint
    else LeastName(Cycle(fingerprint), |Cycle(fingerprint)|)
  }

  lemma {:induction false} LeastNameIsLeast(r: Loop, n: nat, i: nat)
    requires i < n <= |r|
    ensures !TextLess(Join(Rotate(r, i)), LeastName(r, n))
  {
    var last := Join(Rotate(r, n - 1));
    if n == 1 {
      TextOrderTotal(last, last);
    } else {
      var best := LeastName(r, n - 1);
      if i < n - 1 {
        LeastNameIsLeast(r, n - 1, i);
        if TextLess(last, best) && TextLess(Join(Rotate(r, i)), last) {
          TextOrderTransitive(Join(Rotate(r, i)), last, best);
        }
      }
      TextOrderTotal(last, last);
    }
  }

  // Every rotation of b, joined, is a joined rotation of a.
  lemma {:induction false} RotationIndex(a: Loop, b: Loop, i: nat) returns (j: nat)
    requires IsRotation(a, b) && i < |b|
    ensures j < |a| && Rotate(b, i) == Rotate(a, j)
  {
    var k: nat :| k <= |a| && b == Rotate(a, k);
    RotateTwice(a, k, i);
    j := if k + i < |a| then k + i else k + i - |a|;
    assert Rotate(a, |a|) == Rotate(a, 0);
  }

  lemma {:induction false} LeastNameOfRotation(a: Loop, b: Loop)
    requires a != [] && IsRotation(a, b)
    ensures LeastName(a, |a|) == LeastName(b, |b|)
  {
    RotationSymmetric(a, b);
    var i: nat :| i < |a| && LeastName(a, |a|) == Join(Rotate(a, i));
    var j := RotationIndex(b, a, i);
    LeastNameIsLeast(b, |b|, j);
    var i': nat :| i' < |b| && LeastName(b, |b|) == Join(Rotate(b, i'));
    var j' := RotationIndex(a, b, i');
    LeastNameIsLeast(a, |a|, j');
    TextOrderTotal(LeastName(a, |a|), LeastName(b, |b|));
  }

  lemma {:induction false} DedupeSubset(w: Loop)
    ensures forall p :: p in Dedupe(w) ==> p in w
  {
    if w != [] {
      DedupeSubset(w[..|w| - 1]);
    }
  }

  lemma {:induction false} CycleIsClean(fingerprint: Text)
    requires Parts(fingerprint) != []
    ensures forall p :: p in Cycle(fingerprint) ==> Clean(p)
  {
    var w := Parts(fingerprint);
    PartsAreClean(fingerprint);
    DedupeSubset(w);
    ReduceDropsOne(w);
    forall p | p in Cycle(fingerprint) ensures Clean(p) {
      assert p in Reduce(w);
      assert p in Dedupe(w);
    }
  }

  // The parts of a canonical name are a rotation of the cycle it names.
  lemma {:induction false} PartsOfName(fingerprint: Text)
    requires Parts(fingerprint) != []
    ensures Parts(Canonical(fingerprint)) != []
    ensures IsRotation(Cycle(fingerprint), Parts(Canonical(fingerprint)))
  {
    var r := Cycle(fingerprint);
    CycleIsClean(fingerprint);
    var i: nat :| i < |r| && Canonical(fingerprint) == Join(Rotate(r, i));
    RotationMembers(r, i);
    PartsOfJoin(Rotate(r, i));
  }

  lemma {:induction false} RotationMembers<T>(w: seq<T>, k: nat)
    requires k <= |w|
    ensures forall x :: x in Rotate(w, k) ==> x in w
  {
  }

  // ---- main results -------------------------------------------------------------------------

  // Two fingerprints get the same name exactly when their primitive cycles are rotations of each other;
  // a fingerprint without parts keeps its own text and shares it with no other.
  lemma {:induction false} SameNameIffSameCycle(f: Text, g: Text)
    ensures Canonical(f) == Canonical(g) <==>
            if Parts(f) == [] || Parts(g) == [] then f == g else IsRotation(Cycle(f), Cycle(g))
  {
    if Parts(f) != [] {
      PartsOfName(f);
    }
    if Parts(g) != [] {
      PartsOfName(g);
    }
    if Parts(f) != [] && Parts(g) != [] {
      if Canonical(f) == Canonical(g) {
        RotationSymmetric(Cycle(g), Parts(Canonical(g)));
        RotationTransitive(Cycle(f), Parts(Canonical(f)), Cycle(g));
      }
      if IsRotation(Cycle(f), Cycle(g)) {
        LeastNameOfRotation(Cycle(f), Cycle(g));
      }
    }
  }

  // Starting the loop elsewhere, whatever repeats it contains, does not change its name.
  lemma {:induction false} NameOfRotatedLoop(f: Text, g: Text, k: nat)
    requires k <= |Parts(f)| && Parts(f) != [] && Parts(g) == Rotate(Parts(f), k)
    ensures Canonical(g) == Canonical(f)
  {
    var w, v := Parts(f), Parts(g);
    ReduceRotate(w, k);
    var j: nat :| j <= |Reduce(w)| && Reduce(v) == Rotate(Reduce(w), j);
    RootOfRotate(Reduce(w), j);
    SameNameIffSameCycle(f, g);
  }

  // Observing the loop k times over does not change its name.
  lemma {:induction false} NameOfRepeatedLoop(f: Text, g: Text, k: nat)
    requires k > 0 && Parts(f) != [] && Parts(g) == Power(Parts(f), k)
    ensures Canonical(g) == Canonical(f)
  {
    RootOfReducedPower(Parts(f), k);
    assert Cycle(f) == Rotate(Cycle(f), 0);
    SameNameIffSameCycle(f, g);
  }

  // A canonical name is its own canonical name.
  lemma {:induction false} NameOfName(f: Text)
    ensures Canonical(Canonical(f)) == Canonical(f)
  {
    if Parts(f) != [] {
      PartsOfName(f);
      var r, v := Cycle(f), Parts(Canonical(f));
      var k: nat :| k <= |r| && v == Rotate(r, k);
      ReducedRootStable(Parts(f), k);
      RootIsPrimitive(Reduce(Parts(f)));
      RootOfRotate(r, k);
      SameNameIffSameCycle(f, Canonical(f));
    }
  }

  // ---- the loops of the source --------------------------------------------------------------

  method MinimalPeriod(w: Loop) returns (r: Loop)
    ensures w == [] ==> r == []
    ensures w != [] ==> r == Root(w)
  {
    var n := |w|;
    var p := 1;
    while p <= n / 2
      invariant p >= 1 && (n > 0 ==> p <= n)
      invariant forall q :: 0 < q < p ==> !IsPeriod(w, q)
    {
      if n % p == 0 {
        var ok := true;
        var i := 0;
        while i < n
          invariant 0 <= i <= n
          invariant ok <==> forall j :: 0 <= j < i ==> w[j] == w[j % p]
        {
          if w[i] != w[i % p] {
            ok := false;
            break;
          }
          i := i + 1;
        }
        if ok {
          assert IsPeriod(w, p);
          assert LeastPeriod(w) == p;
          return w[..p];
        }
      }
      p := p + 1;
    }
    if n > 0 {
      NoPeriodAboveHalf(w);
    }
    return w;
  }

  lemma {:induction false} NoPeriodAboveHalf(w: Loop)
    requires w != [] && forall q :: 0 < q <= |w| / 2 ==> !IsPeriod(w, q)
    ensures LeastPeriod(w) == |w|
  {
    var p := LeastPeriod(w);
    var k := |w| / p;
    assert |w| == k * p;
    if p < |w| {
      if k <= 1 {
        MulStep(k, 2, p);
      } else if k > 1 {
        MulStep(1, k, p);
      }
    }
  }

  method CollapseLoop(parts: Loop) returns (deduped: Loop)
    ensures deduped == Reduce(parts)
  {
    deduped := [];
    for k := 0 to |parts|
      invariant deduped == Dedupe(parts[..k])
    {
      assert parts[..k + 1][..k] == parts[..k];
      if deduped == [] || deduped[|deduped| - 1] != parts[k] {
        deduped := deduped + [parts[k]];
      }
    }
    assert parts[..|parts|] == parts;
    while |deduped| > 1 && deduped[|deduped| - 1] == deduped[0]
      invariant PopClosing(deduped) == Reduce(parts)
    {
      deduped := deduped[..|deduped| - 1];
    }
  }

  method CanonicalName(fingerprint: Text) returns (name: Text)
    ensures name == Canonical(fingerprint)
  {
    var parts := Parts(fingerprint);
    if parts == [] {
      return fingerprint;
    }
    var deduped := CollapseLoop(parts);
    var period := MinimalPeriod(deduped);
    name := Join(Rotate(period, 0));
    for i := 1 to |period|
      invariant name == LeastName(period, i)
    {
      var rotation := Join(Rotate(period, i));
      if TextLess(rotation, name) {
        name := rotation;
      }
    }
  }
}
