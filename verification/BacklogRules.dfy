// The rules that triage the suggestion backlog without a model: `classifyDeterministic` in src/backlog-triage.js.

module BacklogRules {
  import opened Sorting
  import opened CyclicWords
  import opened CanonicalCycle

  datatype Option<T> = None | Some(value: T)

  // What a mined suggestion says of its own recurrence.
  datatype Evidence = Evidence(weak: bool, lastOccurrence: Option<int>)

  // acceptable: its category has an accept action, and for a server suggestion there is something to register.
  // fingerprint: the mined loop, not empty. tokens: the words of its title. Times are in milliseconds.
  datatype Suggestion = Suggestion(id: nat, category: nat, acceptable: bool, fingerprint: Option<Text>, tokens: set<nat>,
                                   proposedAt: Option<int>, evidence: Option<Evidence>)

  datatype Rule = DeadEnd | Superseded(winner: Suggestion) | WeakEvidence | NonRecurrence

  datatype Resolution = Resolution(s: Suggestion, rule: Rule)

  datatype Settings = Settings(now: int, freshMs: int, staleMs: int, recurrenceMs: int, threshold: real)

  // Newest first; a suggestion without a date is oldest; then by id.
  predicate Newer(a: Suggestion, b: Suggestion) {
    if a.proposedAt == b.proposedAt then a.id < b.id
    else a.proposedAt.Some? && (b.proposedAt.None? || a.proposedAt.value > b.proposedAt.value)
  }

  function Jaccard(a: set<nat>, b: set<nat>): (r: real) {
    if a == {} || b == {} || a * b == {} then 0.0
    else |a * b| as real / (|a| + |b| - |a * b|) as real
  }

  // The size of what two sets of words share, over the size of both together.
  lemma {:induction false} JaccardIs(a: set<nat>, b: set<nat>)
    ensures Jaccard(a, b) * |a + b| as real == |a * b| as real
    ensures a == {} && b == {} ==> Jaccard(a, b) == 0.0
  {
    UnionSize(a, b);
  }

  lemma {:induction false} UnionSize(a: set<nat>, b: set<nat>)
    ensures |a + b| == |a| + |b| - |a * b|
  {
    var rest := b - a;
    assert a + b == a + rest && b == (a * b) + rest;
  }

  // ---- supersession -------------------------------------------------------------------------

  // The survivors so far, and what they superseded.
  datatype Deduped = Deduped(survivors: seq<Suggestion>, resolved: seq<Resolution>)

  function Name(s: Suggestion): (t: Text) {
    if s.fingerprint.Some? then Canonical(s.fingerprint.value) else []
  }

  // While loops are deduplicated: the survivor of each name seen so far.
  datatype Looping = Looping(deduped: Deduped, seen: map<Text, Suggestion>)

  function OneLoop(p: Looping, s: Suggestion, name: Text): (r: Looping) {
    if name in p.seen
    then p.(deduped := p.deduped.(resolved := p.deduped.resolved + [Resolution(s, Superseded(p.seen[name]))]))
    else Looping(p.deduped.(survivors := p.deduped.survivors + [s]), p.seen[name := s])
  }

  function DedupeLoops(xs: seq<Suggestion>): (r: Looping) {
    if xs == [] then Looping(Deduped([], []), map[])
    else OneLoop(DedupeLoops(xs[..|xs| - 1]), xs[|xs| - 1], Name(xs[|xs| - 1]))
  }

  predicate Similar(a: Suggestion, b: Suggestion, threshold: real) {
    a.category == b.category && Jaccard(a.tokens, b.tokens) >= threshold && Jaccard(a.tokens, b.tokens) > 0.0
  }

  // The first most similar of the kept suggestions, or the length when none is similar.
  function BestMatch(kept: seq<Suggestion>, s: Suggestion, threshold: real): (i: nat)
    ensures i <= |kept| && (i < |kept| ==> Similar(kept[i], s, threshold))
    ensures forall j :: 0 <= j < |kept| && Similar(kept[j], s, threshold) ==>
              i < |kept| && Jaccard(kept[j].tokens, s.tokens) <= Jaccard(kept[i].tokens, s.tokens)
  {
    if kept == [] then 0
    else
      var n := |kept| - 1;
      var i := BestMatch(kept[..n], s, threshold);
      if Similar(kept[n], s, threshold) && (i == n || Jaccard(kept[n].tokens, s.tokens) > Jaccard(kept[i].tokens, s.tokens))
      then n else if i == n then n + 1 else i
  }

  function DedupeTitles(xs: seq<Suggestion>, threshold: real): (r: Deduped) {
    if xs == [] then Deduped([], [])
    else
      var n := |xs| - 1;
      var p, s := DedupeTitles(xs[..n], threshold), xs[n];
      var i := BestMatch(p.survivors, s, threshold);
      if i < |p.survivors| then p.(resolved := p.resolved + [Resolution(s, Superseded(p.survivors[i]))])
      else p.(survivors := p.survivors + [s])
  }

  // ---- routing ------------------------------------------------------------------------------

  // In milliseconds; none when there is no date, which counts as infinitely old.
  function Age(s: Suggestion, now: int): (a: Option<int>) {
    if s.proposedAt.None? then None else Some(if now > s.proposedAt.value then now - s.proposedAt.value else 0)
  }

  predicate AtLeast(age: Option<int>, limit: int) {
    age.None? || age.value >= limit
  }

  datatype Route = Fresh | Retire(rule: Rule) | Ambiguous

  function RouteOf(s: Suggestion, c: Settings): (r: Route) {
    var age := Age(s, c.now);
    if !AtLeast(age, c.freshMs) then Fresh
    else if s.evidence.Some? && AtLeast(age, c.staleMs) && s.evidence.value.weak then Retire(WeakEvidence)
    else if s.evidence.Some? && AtLeast(age, c.staleMs) && s.evidence.value.lastOccurrence.Some?
            && c.now - s.evidence.value.lastOccurrence.value >= c.recurrenceMs then Retire(NonRecurrence)
    else Ambiguous
  }

  datatype Triage = Triage(resolved: seq<Resolution>, young: seq<Suggestion>, ambiguous: seq<Suggestion>)

  function Routed(xs: seq<Suggestion>, c: Settings): (t: Triage) {
    if xs == [] then Triage([], [], [])
    else
      var n := |xs| - 1;
      var t, s := Routed(xs[..n], c), xs[n];
      match RouteOf(s, c)
      case Fresh => t.(young := t.young + [s])
      case Retire(rule) => t.(resolved := t.resolved + [Resolution(s, rule)])
      case Ambiguous => t.(ambiguous := t.ambiguous + [s])
  }

  // ---- the whole triage ---------------------------------------------------------------------

  function Acceptable(xs: seq<Suggestion>): (r: seq<Suggestion>) {
    if xs == [] then [] else Acceptable(xs[..|xs| - 1]) + (if xs[|xs| - 1].acceptable then [xs[|xs| - 1]] else [])
  }

  function DeadEnds(xs: seq<Suggestion>): (r: seq<Resolution>) {
    if xs == [] then []
    else DeadEnds(xs[..|xs| - 1]) + (if xs[|xs| - 1].acceptable then [] else [Resolution(xs[|xs| - 1], DeadEnd)])
  }

  function Mined(xs: seq<Suggestion>, mined: bool): (r: seq<Suggestion>) {
    if xs == [] then []
    else Mined(xs[..|xs| - 1], mined) + (if xs[|xs| - 1].fingerprint.Some? == mined then [xs[|xs| - 1]] else [])
  }

  function ByRecency(xs: seq<Suggestion>): (r: seq<Suggestion>) {
    StableSort(Acceptable(xs), Newer)
  }

  function Loops(xs: seq<Suggestion>): (r: Deduped) {
    DedupeLoops(Mined(ByRecency(xs), true)).deduped
  }

  function Prose(xs: seq<Suggestion>, c: Settings): (r: Deduped) {
    DedupeTitles(Mined(ByRecency(xs), false), c.threshold)
  }

  function Survivors(xs: seq<Suggestion>, c: Settings): (r: seq<Suggestion>) {
    Loops(xs).survivors + Prose(xs, c).survivors
  }

  function Classify(xs: seq<Suggestion>, c: Settings): (t: Triage) {
    var routed := Routed(Survivors(xs, c), c);
    routed.(resolved := DeadEnds(xs) + Loops(xs).resolved + Prose(xs, c).resolved + routed.resolved)
  }

  // ---- every suggestion lands in one place --------------------------------------------------

  function Of(rs: seq<Resolution>): (r: seq<Suggestion>)
    ensures |r| == |rs| && forall i :: 0 <= i < |rs| ==> r[i] == rs[i].s
  {
    seq(|rs|, i requires 0 <= i < |rs| => rs[i].s)
  }

  function Subjects(rs: seq<Resolution>): (m: multiset<Suggestion>) {
    multiset(Of(rs))
  }

  lemma {:induction false} SubjectsPush(rs: seq<Resolution>, r: Resolution)
    ensures Subjects(rs + [r]) == Subjects(rs) + multiset{r.s}
  {
    assert Of(rs + [r]) == Of(rs) + [r.s];
  }

  lemma {:induction false} SubjectsJoin(a: seq<Resolution>, b: seq<Resolution>)
    ensures Subjects(a + b) == Subjects(a) + Subjects(b)
  {
    assert Of(a + b) == Of(a) + Of(b);
  }

  function Where(t: Triage): (m: multiset<Suggestion>) {
    Subjects(t.resolved) + multiset(t.young) + multiset(t.ambiguous)
  }

  function Held(d: Deduped): (m: multiset<Suggestion>) {
    multiset(d.survivors) + Subjects(d.resolved)
  }

  lemma {:induction false} LastSplit(xs: seq<Suggestion>)
    requires xs != []
    ensures multiset(xs) == multiset(xs[..|xs| - 1]) + multiset{xs[|xs| - 1]}
  {
    assert xs == xs[..|xs| - 1] + [xs[|xs| - 1]];
  }

  lemma {:induction false} RoutedHolds(xs: seq<Suggestion>, c: Settings)
    ensures Where(Routed(xs, c)) == multiset(xs)
  {
    if xs != [] {
      var n := |xs| - 1;
      var t, s := Routed(xs[..n], c), xs[n];
      RoutedHolds(xs[..n], c);
      LastSplit(xs);
      RoutedOne(t, s, c);
    }
  }

  lemma {:induction false} RoutedOne(t: Triage, s: Suggestion, c: Settings)
    ensures Where(t.(young := t.young + [s])) == Where(t) + multiset{s}
    ensures Where(t.(ambiguous := t.ambiguous + [s])) == Where(t) + multiset{s}
    ensures RouteOf(s, c).Retire? ==>
              Where(t.(resolved := t.resolved + [Resolution(s, RouteOf(s, c).rule)])) == Where(t) + multiset{s}
  {
    if RouteOf(s, c).Retire? {
      SubjectsPush(t.resolved, Resolution(s, RouteOf(s, c).rule));
    }
  }

  lemma {:induction false} HeldOne(d: Deduped, s: Suggestion, rule: Rule)
    ensures Held(d.(survivors := d.survivors + [s])) == Held(d) + multiset{s}
    ensures Held(d.(resolved := d.resolved + [Resolution(s, rule)])) == Held(d) + multiset{s}
  {
    SubjectsPush(d.resolved, Resolution(s, rule));
  }

  lemma {:induction false} LoopsHold(xs: seq<Suggestion>)
    ensures Held(DedupeLoops(xs).deduped) == multiset(xs)
  {
    if xs != [] {
      var n := |xs| - 1;
      var p, s, name := DedupeLoops(xs[..n]), xs[n], Name(xs[n]);
      LoopsHold(xs[..n]);
      LastSplit(xs);
      HeldOne(p.deduped, s, if name in p.seen then Superseded(p.seen[name]) else DeadEnd);
    }
  }

  lemma {:induction false} TitlesHold(xs: seq<Suggestion>, threshold: real)
    ensures Held(DedupeTitles(xs, threshold)) == multiset(xs)
  {
    if xs != [] {
      var n := |xs| - 1;
      var p, s := DedupeTitles(xs[..n], threshold), xs[n];
      var i := BestMatch(p.survivors, s, threshold);
      TitlesHold(xs[..n], threshold);
      LastSplit(xs);
      HeldOne(p, s, if i < |p.survivors| then Superseded(p.survivors[i]) else DeadEnd);
    }
  }

  lemma {:induction false} AcceptableHolds(xs: seq<Suggestion>)
    ensures multiset(Acceptable(xs)) + Subjects(DeadEnds(xs)) == multiset(xs)
  {
    if xs != [] {
      var n := |xs| - 1;
      AcceptableHolds(xs[..n]);
      LastSplit(xs);
      AcceptableOne(xs);
    }
  }

  lemma {:induction false} AcceptableOne(xs: seq<Suggestion>)
    requires xs != []
    ensures var n := |xs| - 1;
            multiset(Acceptable(xs)) + Subjects(DeadEnds(xs))
            == (multiset(Acceptable(xs[..n])) + Subjects(DeadEnds(xs[..n]))) + multiset{xs[n]}
  {
    var n := |xs| - 1;
    if xs[n].acceptable {
      assert Acceptable(xs) == Acceptable(xs[..n]) + [xs[n]] && DeadEnds(xs) == DeadEnds(xs[..n]);
    } else {
      assert Acceptable(xs) == Acceptable(xs[..n]) && DeadEnds(xs) == DeadEnds(xs[..n]) + [Resolution(xs[n], DeadEnd)];
      SubjectsPush(DeadEnds(xs[..n]), Resolution(xs[n], DeadEnd));
    }
  }

  lemma {:induction false} MinedHolds(xs: seq<Suggestion>)
    ensures multiset(Mined(xs, true)) + multiset(Mined(xs, false)) == multiset(xs)
  {
    if xs != [] {
      MinedHolds(xs[..|xs| - 1]);
      LastSplit(xs);
    }
  }

  // Each suggestion is resolved, fresh or ambiguous, and only one of them.
  lemma {:induction false} EverySuggestionOnce(xs: seq<Suggestion>, c: Settings)
    ensures Where(Classify(xs, c)) == multiset(xs)
  {
    var loops, prose, routed := Loops(xs), Prose(xs, c), Routed(Survivors(xs, c), c);
    AcceptableHolds(xs);
    MinedHolds(ByRecency(xs));
    LoopsHold(Mined(ByRecency(xs), true));
    TitlesHold(Mined(ByRecency(xs), false), c.threshold);
    RoutedHolds(Survivors(xs, c), c);
    SubjectsJoin(DeadEnds(xs) + loops.resolved + prose.resolved, routed.resolved);
    SubjectsJoin(DeadEnds(xs) + loops.resolved, prose.resolved);
    SubjectsJoin(DeadEnds(xs), loops.resolved);
    Reassemble(Subjects(DeadEnds(xs)), Subjects(loops.resolved), Subjects(prose.resolved), Subjects(routed.resolved),
               multiset(routed.young), multiset(routed.ambiguous), multiset(loops.survivors), multiset(prose.survivors));
    assert multiset(Survivors(xs, c)) == multiset(loops.survivors) + multiset(prose.survivors);
  }

  lemma {:induction false} Reassemble(d: multiset<Suggestion>, l: multiset<Suggestion>, p: multiset<Suggestion>,
                                      r: multiset<Suggestion>, f: multiset<Suggestion>, a: multiset<Suggestion>,
                                      ls: multiset<Suggestion>, ps: multiset<Suggestion>)
    requires r + f + a == ls + ps
    ensures (d + l + p + r) + f + a == ((ls + l) + (ps + p)) + d
  {
    assert (d + l + p + r) + f + a == (d + l + p) + (r + f + a);
  }

  // ---- what dedupe leaves -------------------------------------------------------------------

  ghost predicate NoneNewer(xs: seq<Suggestion>, s: Suggestion) {
    forall x :: x in xs ==> !Newer(s, x)
  }

  ghost predicate Recent(xs: seq<Suggestion>) {
    Sorted(xs, Newer)
  }

  lemma {:induction false} NewerIsWeakOrder()
    ensures WeakOrder(Newer)
  {
  }

  lemma {:induction false} MinedOf(xs: seq<Suggestion>, mined: bool)
    ensures forall s :: s in Mined(xs, mined) <==> s in xs && s.fingerprint.Some? == mined
    ensures Recent(xs) ==> Recent(Mined(xs, mined))
  {
    if xs != [] {
      var n := |xs| - 1;
      MinedOf(xs[..n], mined);
      assert xs == xs[..n] + [xs[n]];
    }
  }

  lemma {:induction false} RecentFirst(xs: seq<Suggestion>, mined: bool)
    ensures Recent(Mined(ByRecency(xs), mined))
    ensures forall s :: s in Mined(ByRecency(xs), mined) <==> s in Acceptable(xs) && s.fingerprint.Some? == mined
  {
    NewerIsWeakOrder();
    StableSortSorted(Acceptable(xs), Newer);
    SameElements(ByRecency(xs), Acceptable(xs));
    MinedOf(ByRecency(xs), mined);
  }

  // The map holds the survivors by name; whatever was superseded has a survivor of its name that came before it.
  ghost predicate LoopingSound(p: Looping, xs: seq<Suggestion>) {
    && (forall s :: s in p.deduped.survivors ==> s in xs && Name(s) in p.seen && p.seen[Name(s)] == s)
    && (forall t :: t in p.seen ==> p.seen[t] in p.deduped.survivors && Name(p.seen[t]) == t)
    && (forall i, j :: 0 <= i < j < |p.deduped.survivors| ==> Name(p.deduped.survivors[i]) != Name(p.deduped.survivors[j]))
  }

  ghost predicate SupersededSound(rs: seq<Resolution>, survivors: seq<Suggestion>, xs: seq<Suggestion>) {
    forall r :: r in rs ==>
      && r.rule.Superseded? && r.s in xs && r.rule.winner in survivors
      && !Newer(r.s, r.rule.winner)
  }

  ghost predicate SameNames(rs: seq<Resolution>) {
    forall r :: r in rs && r.rule.Superseded? ==> Name(r.s) == Name(r.rule.winner)
  }

  lemma {:induction false} OneLoopSound(p: Looping, xs: seq<Suggestion>, s: Suggestion, name: Text)
    requires LoopingSound(p, xs) && SupersededSound(p.deduped.resolved, p.deduped.survivors, xs) && SameNames(p.deduped.resolved)
    requires name == Name(s) && NoneNewer(xs, s)
    ensures var r := OneLoop(p, s, name);
            LoopingSound(r, xs + [s]) && SupersededSound(r.deduped.resolved, r.deduped.survivors, xs + [s])
            && SameNames(r.deduped.resolved)
  {
  }

  lemma {:induction false} RecentLast(xs: seq<Suggestion>)
    requires Recent(xs) && xs != []
    ensures Recent(xs[..|xs| - 1]) && NoneNewer(xs[..|xs| - 1], xs[|xs| - 1])
    ensures xs == xs[..|xs| - 1] + [xs[|xs| - 1]]
  {
  }

  lemma {:induction false} LoopsSound(xs: seq<Suggestion>)
    requires Recent(xs)
    ensures var p := DedupeLoops(xs);
            LoopingSound(p, xs) && SupersededSound(p.deduped.resolved, p.deduped.survivors, xs)
            && SameNames(p.deduped.resolved)
  {
    if xs != [] {
      var before, s := xs[..|xs| - 1], xs[|xs| - 1];
      RecentLast(xs);
      LoopsSound(before);
      OneLoopSound(DedupeLoops(before), before, s, Name(s));
    }
  }

  ghost predicate Dissimilar(xs: seq<Suggestion>, threshold: real) {
    forall i, j :: 0 <= i < j < |xs| ==> !Similar(xs[i], xs[j], threshold)
  }

  ghost predicate TitlesSound(d: Deduped, xs: seq<Suggestion>, threshold: real) {
    && (forall s :: s in d.survivors ==> s in xs) && Dissimilar(d.survivors, threshold)
    && SupersededSound(d.resolved, d.survivors, xs)
    && forall r :: r in d.resolved && r.rule.Superseded? ==> Similar(r.rule.winner, r.s, threshold)
  }

  lemma {:induction false} DedupeTitlesSound(xs: seq<Suggestion>, threshold: real)
    requires Recent(xs)
    ensures TitlesSound(DedupeTitles(xs, threshold), xs, threshold)
  {
    if xs != [] {
      var before, s := xs[..|xs| - 1], xs[|xs| - 1];
      RecentLast(xs);
      DedupeTitlesSound(before, threshold);
      OneTitleSound(DedupeTitles(before, threshold), before, s, threshold);
    }
  }

  lemma {:induction false} OneTitleSound(p: Deduped, xs: seq<Suggestion>, s: Suggestion, threshold: real)
    requires TitlesSound(p, xs, threshold) && NoneNewer(xs, s)
    ensures var i := BestMatch(p.survivors, s, threshold);
            if i < |p.survivors|
            then TitlesSound(p.(resolved := p.resolved + [Resolution(s, Superseded(p.survivors[i]))]), xs + [s], threshold)
            else TitlesSound(p.(survivors := p.survivors + [s]), xs + [s], threshold)
  {
  }

  // ---- main results about dedupe ------------------------------------------------------------

  // It names the most similar of those of its category that were kept before it.
  ghost predicate NamesMostSimilar(xs: seq<Suggestion>, threshold: real, r: Resolution) {
    exists k :: 0 <= k < |xs| && xs[k] == r.s && r.rule.Superseded? && MostSimilar(xs, threshold, k, r.rule.winner)
  }

  ghost predicate MostSimilar(xs: seq<Suggestion>, threshold: real, k: nat, w: Suggestion)
    requires k < |xs|
  {
    var kept := DedupeTitles(xs[..k], threshold).survivors;
    w in kept && FirstBest(kept, xs[k], threshold, w) && forall o :: o in kept && o.category == xs[k].category ==>
      Jaccard(o.tokens, xs[k].tokens) <= Jaccard(w.tokens, xs[k].tokens) || Jaccard(o.tokens, xs[k].tokens) < threshold
  }

  // And the first of several as similar.
  ghost predicate FirstBest(kept: seq<Suggestion>, s: Suggestion, threshold: real, w: Suggestion) {
    exists i :: 0 <= i < |kept| && kept[i] == w && NoneAsClose(kept[..i], s, threshold, Jaccard(w.tokens, s.tokens))
  }

  ghost predicate NoneAsClose(kept: seq<Suggestion>, s: Suggestion, threshold: real, best: real) {
    forall o :: o in kept && o.category == s.category ==>
      Jaccard(o.tokens, s.tokens) < best || Jaccard(o.tokens, s.tokens) < threshold
  }

  lemma {:induction false} BestIsFirst(kept: seq<Suggestion>, s: Suggestion, threshold: real)
    requires BestMatch(kept, s, threshold) < |kept|
    ensures var i := BestMatch(kept, s, threshold); NoneAsClose(kept[..i], s, threshold, Jaccard(kept[i].tokens, s.tokens))
  {
    var n, i := |kept| - 1, BestMatch(kept, s, threshold);
    var before := BestMatch(kept[..n], s, threshold);
    if i < n {
      BestIsFirst(kept[..n], s, threshold);
      assert kept[..n][..i] == kept[..i];
    } else {
      forall o | o in kept[..i] && o.category == s.category
        ensures Jaccard(o.tokens, s.tokens) < Jaccard(kept[i].tokens, s.tokens) || Jaccard(o.tokens, s.tokens) < threshold {
        var j :| 0 <= j < n && kept[..n][j] == o;
        assert Similar(kept[..n][j], s, threshold) ==>
          before < n && Jaccard(o.tokens, s.tokens) <= Jaccard(kept[..n][before].tokens, s.tokens);
      }
    }
  }

  lemma {:induction false} NamedInLonger(xs: seq<Suggestion>, n: nat, threshold: real, r: Resolution)
    requires n <= |xs| && NamesMostSimilar(xs[..n], threshold, r)
    ensures NamesMostSimilar(xs, threshold, r)
  {
    var k :| 0 <= k < n && xs[..n][k] == r.s && r.rule.Superseded? && MostSimilar(xs[..n], threshold, k, r.rule.winner);
    MostSimilarInLonger(xs, n, threshold, k, r.rule.winner);
  }

  lemma {:induction false} MostSimilarInLonger(xs: seq<Suggestion>, n: nat, threshold: real, k: nat, w: Suggestion)
    requires k < n <= |xs| && MostSimilar(xs[..n], threshold, k, w)
    ensures MostSimilar(xs, threshold, k, w)
  {
    assert xs[..n][..k] == xs[..k] && xs[..n][k] == xs[k];
  }

  lemma {:induction false} BestIsMostSimilar(xs: seq<Suggestion>, threshold: real, k: nat)
    requires k < |xs|
    requires var kept := DedupeTitles(xs[..k], threshold).survivors; BestMatch(kept, xs[k], threshold) < |kept|
    ensures var kept := DedupeTitles(xs[..k], threshold).survivors;
            MostSimilar(xs, threshold, k, kept[BestMatch(kept, xs[k], threshold)])
  {
    var kept := DedupeTitles(xs[..k], threshold).survivors;
    var i := BestMatch(kept, xs[k], threshold);
    BestIsFirst(kept, xs[k], threshold);
    forall o | o in kept && o.category == xs[k].category
      ensures Jaccard(o.tokens, xs[k].tokens) <= Jaccard(kept[i].tokens, xs[k].tokens)
              || Jaccard(o.tokens, xs[k].tokens) < threshold {
      var j :| 0 <= j < |kept| && kept[j] == o;
      assert Similar(kept[j], xs[k], threshold) ==> Jaccard(kept[j].tokens, xs[k].tokens) <= Jaccard(kept[i].tokens, xs[k].tokens);
    }
  }

  lemma {:induction false} SupersededByMostSimilar(xs: seq<Suggestion>, threshold: real, r: Resolution)
    requires r in DedupeTitles(xs, threshold).resolved
    ensures NamesMostSimilar(xs, threshold, r)
  {
    var n := |xs| - 1;
    if r in DedupeTitles(xs[..n], threshold).resolved {
      SupersededByMostSimilar(xs[..n], threshold, r);
      NamedInLonger(xs, n, threshold, r);
    } else {
      BestIsMostSimilar(xs, threshold, n);
    }
  }

  // Surviving mined suggestions stand for different loops: no two have the same cycle up to rotation.
  lemma {:induction false} SurvivingLoopsDiffer(xs: seq<Suggestion>, i: nat, j: nat)
    requires i < j < |Loops(xs).survivors|
    ensures var a, b := Loops(xs).survivors[i], Loops(xs).survivors[j];
            a.fingerprint.Some? && b.fingerprint.Some?
            && var f, g := a.fingerprint.value, b.fingerprint.value;
               Parts(f) != [] && Parts(g) != [] ==> !IsRotation(Cycle(f), Cycle(g))
  {
    RecentFirst(xs, true);
    LoopsSound(Mined(ByRecency(xs), true));
    var a, b := Loops(xs).survivors[i], Loops(xs).survivors[j];
    assert a in Loops(xs).survivors && b in Loops(xs).survivors;
    SameNameIffSameCycle(a.fingerprint.value, b.fingerprint.value);
  }

  lemma {:induction false} SurvivingTitlesDiffer(xs: seq<Suggestion>, c: Settings)
    ensures Dissimilar(Prose(xs, c).survivors, c.threshold)
  {
    RecentFirst(xs, false);
    DedupeTitlesSound(Mined(ByRecency(xs), false), c.threshold);
  }

  // Whatever is superseded names a survivor at least as recent, of the same loop or with a similar title.
  lemma {:induction false} SupersededNamesSurvivor(xs: seq<Suggestion>, c: Settings, r: Resolution)
    requires r in Classify(xs, c).resolved && r.rule.Superseded?
    ensures r.rule.winner in Survivors(xs, c) && !Newer(r.s, r.rule.winner)
    ensures Name(r.s) == Name(r.rule.winner) || Similar(r.rule.winner, r.s, c.threshold)
  {
    RecentFirst(xs, true);
    RecentFirst(xs, false);
    LoopsSound(Mined(ByRecency(xs), true));
    DedupeTitlesSound(Mined(ByRecency(xs), false), c.threshold);
    DeadEndsAre(xs);
    RoutedNeverSupersedes(Survivors(xs, c), c);
    assert r in Loops(xs).resolved || r in Prose(xs, c).resolved;
  }

  lemma {:induction false} SupersededByRecent(xs: seq<Suggestion>, c: Settings, r: Resolution)
    requires r in Classify(xs, c).resolved && r.rule.Superseded?
    ensures var w := r.rule.winner;
            && (r.s.proposedAt == None || (w.proposedAt.Some? && w.proposedAt.value >= r.s.proposedAt.value))
            && (r.s.proposedAt == w.proposedAt ==> w.id <= r.s.id)
  {
    SupersededNamesSurvivor(xs, c, r);
  }

  // In numbers: survivors of one category share less than the threshold, or nothing, and what is superseded without a
  // loop shares at least as much, and something.
  lemma {:induction false} TitlesApart(xs: seq<Suggestion>, c: Settings, i: nat, j: nat)
    requires i < j < |Prose(xs, c).survivors|
    ensures var a, b := Prose(xs, c).survivors[i], Prose(xs, c).survivors[j];
            a.category == b.category ==> Jaccard(a.tokens, b.tokens) < c.threshold || Jaccard(a.tokens, b.tokens) <= 0.0
  {
    SurvivingTitlesDiffer(xs, c);
  }

  lemma {:induction false} SupersededTitleIsClose(xs: seq<Suggestion>, c: Settings, r: Resolution)
    requires r in Prose(xs, c).resolved
    ensures r.rule.Superseded?
    ensures var w := r.rule.winner;
            w.category == r.s.category && Jaccard(w.tokens, r.s.tokens) >= c.threshold && Jaccard(w.tokens, r.s.tokens) > 0.0
  {
    RecentFirst(xs, false);
    DedupeTitlesSound(Mined(ByRecency(xs), false), c.threshold);
  }

  lemma {:induction false} DeadEndsAre(xs: seq<Suggestion>)
    ensures forall r :: r in DeadEnds(xs) ==> r.rule == DeadEnd
  {
    if xs != [] {
      DeadEndsAre(xs[..|xs| - 1]);
    }
  }

  lemma {:induction false} RoutedNeverSupersedes(xs: seq<Suggestion>, c: Settings)
    ensures var t := Routed(xs, c);
            && (forall r :: r in t.resolved ==> r.s in xs && RouteOf(r.s, c) == Retire(r.rule) && !r.rule.Superseded?)
            && (forall s :: s in t.young ==> RouteOf(s, c) == Fresh)
            && (forall s :: s in t.ambiguous ==> RouteOf(s, c) == Ambiguous)
            && (forall s :: s in xs ==> match RouteOf(s, c)
                  case Fresh => s in t.young
                  case Retire(rule) => Resolution(s, rule) in t.resolved
                  case Ambiguous => s in t.ambiguous)
  {
    if xs != [] {
      var n := |xs| - 1;
      RoutedNeverSupersedes(xs[..n], c);
      assert xs == xs[..n] + [xs[n]];
    }
  }

  // Proposed at least so long ago, or without a date.
  predicate OldEnough(s: Suggestion, now: int, limit: int) {
    s.proposedAt.None? || limit <= 0 || now - s.proposedAt.value >= limit
  }

  // Mined, neither fresh nor recent, and weakly evidenced or not seen again for long.
  predicate RulesRetire(s: Suggestion, c: Settings) {
    && s.evidence.Some? && OldEnough(s, c.now, c.freshMs) && OldEnough(s, c.now, c.staleMs)
    && (s.evidence.value.weak
        || (s.evidence.value.lastOccurrence.Some? && c.now - s.evidence.value.lastOccurrence.value >= c.recurrenceMs))
  }

  ghost predicate DistinctIds(xs: seq<Suggestion>) {
    forall i, j :: 0 <= i < j < |xs| ==> xs[i].id != xs[j].id
  }

  lemma {:induction false} OccursOnce(xs: seq<Suggestion>, s: Suggestion)
    requires DistinctIds(xs)
    ensures multiset(xs)[s] <= 1
  {
    if xs != [] {
      OccursOnce(xs[..|xs| - 1], s);
      LastSplit(xs);
    }
  }

  lemma {:induction false} RetiresIff(s: Suggestion, c: Settings)
    ensures RouteOf(s, c).Retire? <==> RulesRetire(s, c)
  {
  }

  lemma {:induction false} ResolvedIsSubject(rs: seq<Resolution>, r: Resolution)
    requires r in rs
    ensures r.s in Of(rs)
  {
    var i :| 0 <= i < |rs| && rs[i] == r;
    assert Of(rs)[i] == r.s;
  }

  // What is left in the backlog is not resolved as well.
  lemma {:induction false} LeftIsNotResolved(xs: seq<Suggestion>, c: Settings, s: Suggestion)
    requires DistinctIds(xs) && s in Classify(xs, c).young + Classify(xs, c).ambiguous
    ensures s in xs && s !in Of(Classify(xs, c).resolved)
  {
    var t := Classify(xs, c);
    EverySuggestionOnce(xs, c);
    OccursOnce(xs, s);
    assert multiset(xs)[s] == Subjects(t.resolved)[s] + multiset(t.young)[s] + multiset(t.ambiguous)[s];
  }

  lemma {:induction false} SubjectIn(xs: seq<Suggestion>, c: Settings, r: Resolution)
    requires r in Classify(xs, c).resolved
    ensures r.s in Of(Classify(xs, c).resolved) && r.s in xs
  {
    ResolvedIsSubject(Classify(xs, c).resolved, r);
    EverySuggestionOnce(xs, c);
    assert r.s in Where(Classify(xs, c));
  }

  // A survivor is in the backlog, and is resolved exactly if the rules retire it.
  lemma {:induction false} SurvivorResolvedIff(xs: seq<Suggestion>, c: Settings, s: Suggestion)
    requires DistinctIds(xs) && s in Survivors(xs, c)
    ensures s in xs && (s in Of(Classify(xs, c).resolved) <==> RulesRetire(s, c))
  {
    RoutedNeverSupersedes(Survivors(xs, c), c);
    RetiresIff(s, c);
    if RouteOf(s, c).Retire? {
      var r := Resolution(s, RouteOf(s, c).rule);
      assert r in Routed(Survivors(xs, c), c).resolved;
      SubjectIn(xs, c, r);
    } else {
      LeftIsNotResolved(xs, c, s);
    }
  }

  lemma {:induction false} RoutesIff(s: Suggestion, c: Settings)
    ensures RouteOf(s, c).Fresh? <==> !OldEnough(s, c.now, c.freshMs)
    ensures RouteOf(s, c).Ambiguous? <==> OldEnough(s, c.now, c.freshMs) && !RulesRetire(s, c)
  {
  }

  // A survivor is left to the user while it is fresh, and goes to the model when it is old and no rule retires it.
  lemma {:induction false} SurvivorLeftIff(xs: seq<Suggestion>, c: Settings, s: Suggestion)
    requires DistinctIds(xs) && s in Survivors(xs, c)
    ensures s in Classify(xs, c).young <==> !OldEnough(s, c.now, c.freshMs)
    ensures s in Classify(xs, c).ambiguous <==> OldEnough(s, c.now, c.freshMs) && !RulesRetire(s, c)
  {
    RoutedNeverSupersedes(Survivors(xs, c), c);
    RoutesIff(s, c);
  }

  // What the rules give as their reason.
  predicate Reasons(r: Resolution, c: Settings) {
    match r.rule
    case DeadEnd => !r.s.acceptable
    case Superseded(winner) => r.s.acceptable
    case WeakEvidence => r.s.acceptable && RulesRetire(r.s, c) && r.s.evidence.value.weak
    case NonRecurrence => r.s.acceptable && RulesRetire(r.s, c) && !r.s.evidence.value.weak
  }

  lemma {:induction false} AcceptableAre(xs: seq<Suggestion>)
    ensures forall s :: s in Acceptable(xs) <==> s in xs && s.acceptable
    ensures forall r :: r in DeadEnds(xs) <==> r.rule == DeadEnd && r.s in xs && !r.s.acceptable
  {
    if xs != [] {
      AcceptableAre(xs[..|xs| - 1]);
      assert xs == xs[..|xs| - 1] + [xs[|xs| - 1]];
    }
  }

  lemma {:induction false} DedupedAreAcceptable(xs: seq<Suggestion>, c: Settings)
    ensures forall s :: s in Survivors(xs, c) ==> s in xs && s.acceptable
    ensures forall r :: r in Loops(xs).resolved + Prose(xs, c).resolved ==> r.rule.Superseded? && r.s in xs && r.s.acceptable
  {
    AcceptableAre(xs);
    RecentFirst(xs, true);
    RecentFirst(xs, false);
    LoopsSound(Mined(ByRecency(xs), true));
    DedupeTitlesSound(Mined(ByRecency(xs), false), c.threshold);
  }

  lemma {:induction false} RoutedReasons(s: Suggestion, c: Settings)
    requires RouteOf(s, c).Retire? && s.acceptable
    ensures Reasons(Resolution(s, RouteOf(s, c).rule), c) && !RouteOf(s, c).rule.DeadEnd?
  {
  }

  // Every resolution has the reason it gives; and it is a dead end exactly if it has no accept action.
  lemma {:induction false} ResolvedForReason(xs: seq<Suggestion>, c: Settings, r: Resolution)
    requires r in Classify(xs, c).resolved
    ensures r.s in xs && Reasons(r, c)
  {
    AcceptableAre(xs);
    DedupedAreAcceptable(xs, c);
    RoutedNeverSupersedes(Survivors(xs, c), c);
    if r in Routed(Survivors(xs, c), c).resolved {
      RoutedReasons(r.s, c);
    }
  }

  lemma {:induction false} DeadEndIff(xs: seq<Suggestion>, c: Settings, s: Suggestion)
    requires s in xs
    ensures Resolution(s, DeadEnd) in Classify(xs, c).resolved <==> !s.acceptable
  {
    AcceptableAre(xs);
    if Resolution(s, DeadEnd) in Classify(xs, c).resolved {
      ResolvedForReason(xs, c, Resolution(s, DeadEnd));
    }
  }

  lemma {:induction false} PairIsMined(a: Suggestion, b: Suggestion)
    requires a.acceptable && b.acceptable && a.fingerprint.Some? && b.fingerprint.Some? && !Newer(b, a)
    ensures Mined(ByRecency([a, b]), true) == [a, b]
  {
    assert [a, b][..1] == [a] && [a][..0] == [];
    assert Acceptable([a]) == [a] && Acceptable([a, b]) == [a, b];
    StableSortOfSorted([a, b], Newer);
    assert Mined([], true) == [];
    assert Mined([a], true) == [] + [a];
    assert Mined([a, b], true) == [a] + [b];
  }

  lemma {:induction false} PairIsDeduped(a: Suggestion, b: Suggestion)
    requires Name(a) == Name(b)
    ensures DedupeLoops([a, b]).deduped == Deduped([a], [Resolution(b, Superseded(a))])
  {
    assert [a, b][..1] == [a] && [a][..0] == [];
    assert DedupeLoops([a]) == Looping(Deduped([a], []), map[Name(a) := a]);
  }

  lemma {:induction false} LoopsAreClassified(xs: seq<Suggestion>, c: Settings, r: Resolution)
    requires r in Loops(xs).resolved
    ensures r in Classify(xs, c).resolved
  {
  }

  lemma {:induction false} PairSuperseded(newer: Suggestion, older: Suggestion, c: Settings)
    requires newer.acceptable && older.acceptable && newer.fingerprint.Some? && older.fingerprint == newer.fingerprint
    requires !Newer(older, newer)
    ensures Resolution(older, Superseded(newer)) in Classify([newer, older], c).resolved
  {
    PairIsMined(newer, older);
    PairIsDeduped(newer, older);
    LoopsAreClassified([newer, older], c, Resolution(older, Superseded(newer)));
  }

  // Two copies of one weakly evidenced loop: the older names the newer, and the newer is retired too.
  lemma {:induction false} WinnerMayVanish(loop: Text) returns (xs: seq<Suggestion>, c: Settings, r: Resolution)
    ensures r in Classify(xs, c).resolved && r.rule.Superseded? && RulesRetire(r.rule.winner, c) && DistinctIds(xs)
  {
    var older := Suggestion(0, 0, true, Some(loop), {}, Some(0), Some(Evidence(true, None)));
    var newer := older.(id := 1, proposedAt := Some(1));
    c := Settings(100, 1, 2, 2, 0.65);
    xs := [newer, older];
    r := Resolution(older, Superseded(newer));
    PairSuperseded(newer, older, c);
  }

  // ---- drafts -------------------------------------------------------------------------------

  datatype DraftRow = DraftRow(id: nat, task: Option<nat>, createdAt: Option<int>)

  predicate LaterDraft(a: DraftRow, b: DraftRow) {
    a.createdAt.Some? && (b.createdAt.None? || a.createdAt.value > b.createdAt.value)
  }

  function OfTask(drafts: seq<DraftRow>, task: nat): (r: seq<DraftRow>) {
    if drafts == [] then []
    else OfTask(drafts[..|drafts| - 1], task) + (if drafts[|drafts| - 1].task == Some(task) then [drafts[|drafts| - 1]] else [])
  }

  // The drafts of one task, newest first.
  function NewestFirst(drafts: seq<DraftRow>, task: nat): (r: seq<DraftRow>) {
    StableSort(OfTask(drafts, task), LaterDraft)
  }

  // Every draft of a task but its newest.
  function Redrafted(drafts: seq<DraftRow>, task: nat): (r: seq<DraftRow>) {
    if |NewestFirst(drafts, task)| < 2 then [] else NewestFirst(drafts, task)[1..]
  }

  // Tasks in the order their first draft is listed.
  function Tasks(drafts: seq<DraftRow>): (r: seq<nat>) {
    if drafts == [] then []
    else
      var r, d := Tasks(drafts[..|drafts| - 1]), drafts[|drafts| - 1];
      if d.task.None? || d.task.value in r then r else r + [d.task.value]
  }

  function RetiredDrafts(drafts: seq<DraftRow>, tasks: seq<nat>): (r: seq<DraftRow>) {
    if tasks == [] then [] else RetiredDrafts(drafts, tasks[..|tasks| - 1]) + Redrafted(drafts, tasks[|tasks| - 1])
  }

  lemma {:induction false} OfTaskIs(drafts: seq<DraftRow>, task: nat)
    ensures forall d :: d in OfTask(drafts, task) <==> d in drafts && d.task == Some(task)
  {
    if drafts != [] {
      OfTaskIs(drafts[..|drafts| - 1], task);
      assert drafts == drafts[..|drafts| - 1] + [drafts[|drafts| - 1]];
    }
  }

  lemma {:induction false} NewestFirstIs(drafts: seq<DraftRow>, task: nat)
    ensures Sorted(NewestFirst(drafts, task), LaterDraft)
    ensures forall d :: d in NewestFirst(drafts, task) <==> d in drafts && d.task == Some(task)
  {
    StableSortSorted(OfTask(drafts, task), LaterDraft);
    SameElements(NewestFirst(drafts, task), OfTask(drafts, task));
    OfTaskIs(drafts, task);
  }

  lemma {:induction false} TasksAre(drafts: seq<DraftRow>)
    ensures forall t :: t in Tasks(drafts) <==> exists d :: d in drafts && d.task == Some(t)
  {
    if drafts != [] {
      TasksAre(drafts[..|drafts| - 1]);
      assert drafts == drafts[..|drafts| - 1] + [drafts[|drafts| - 1]];
    }
  }

  lemma {:induction false} RetiredIn(drafts: seq<DraftRow>, tasks: seq<nat>)
    ensures forall d :: d in RetiredDrafts(drafts, tasks) <==> exists t :: t in tasks && d in Redrafted(drafts, t)
  {
    if tasks != [] {
      RetiredIn(drafts, tasks[..|tasks| - 1]);
      assert tasks == tasks[..|tasks| - 1] + [tasks[|tasks| - 1]];
    }
  }

  lemma {:induction false} RetiredIff(drafts: seq<DraftRow>, d: DraftRow)
    ensures d in RetiredDrafts(drafts, Tasks(drafts))
        <==> d in drafts && d.task.Some? && d in Redrafted(drafts, d.task.value)
  {
    RetiredIn(drafts, Tasks(drafts));
    TasksAre(drafts);
    forall t: nat | d in Redrafted(drafts, t) ensures d in drafts && d.task == Some(t) {
      NewestFirstIs(drafts, t);
    }
  }

  // Of the drafts of a task the first of the newest is kept, and all others are retired; no other draft is.
  lemma {:induction false} NewestDraftIsKept(drafts: seq<DraftRow>, d: DraftRow, task: nat)
    requires d in drafts && d.task == Some(task)
    requires forall i, j :: 0 <= i < j < |drafts| ==> drafts[i] != drafts[j]
    ensures NewestFirst(drafts, task) != []
    ensures !LaterDraft(d, NewestFirst(drafts, task)[0])
    ensures d in RetiredDrafts(drafts, Tasks(drafts)) <==> d != NewestFirst(drafts, task)[0]
  {
    var sorted := NewestFirst(drafts, task);
    NewestFirstIs(drafts, task);
    RetiredIff(drafts, d);
    NewestOnce(drafts, task);
  }

  // The first of them is at least as recent as any.
  lemma {:induction false} NewestDraftIsNewest(drafts: seq<DraftRow>, d: DraftRow, task: nat)
    requires d in drafts && d.task == Some(task)
    ensures var sorted := NewestFirst(drafts, task);
            && sorted != [] && sorted[0] in drafts && sorted[0].task == Some(task)
            && (d.createdAt == None || (sorted[0].createdAt.Some? && sorted[0].createdAt.value >= d.createdAt.value))
  {
    NewestFirstIs(drafts, task);
    var sorted := NewestFirst(drafts, task);
    var i :| 0 <= i < |sorted| && sorted[i] == d;
    assert sorted[0] in sorted;
  }

  lemma {:induction false} UntaskedDraftIsKept(drafts: seq<DraftRow>, d: DraftRow)
    requires d.task.None?
    ensures d !in RetiredDrafts(drafts, Tasks(drafts))
  {
    RetiredIff(drafts, d);
  }

  lemma {:induction false} OfTaskDistinct(drafts: seq<DraftRow>, task: nat)
    requires forall i, j :: 0 <= i < j < |drafts| ==> drafts[i] != drafts[j]
    ensures forall d :: multiset(OfTask(drafts, task))[d] <= 1
  {
    if drafts != [] {
      var n := |drafts| - 1;
      OfTaskDistinct(drafts[..n], task);
      OfTaskIs(drafts[..n], task);
    }
  }

  lemma {:induction false} NewestOnce(drafts: seq<DraftRow>, task: nat)
    requires NewestFirst(drafts, task) != []
    requires forall i, j :: 0 <= i < j < |drafts| ==> drafts[i] != drafts[j]
    ensures NewestFirst(drafts, task)[0] !in Redrafted(drafts, task)
  {
    var sorted := NewestFirst(drafts, task);
    OfTaskDistinct(drafts, task);
    assert sorted == [sorted[0]] + sorted[1..];
    assert multiset(sorted)[sorted[0]] <= 1;
  }

  // ---- the loops ----------------------------------------------------------------------------

  method SupersedeLoops(xs: seq<Suggestion>) returns (survivors: seq<Suggestion>, resolved: seq<Resolution>)
    ensures Deduped(survivors, resolved) == DedupeLoops(xs).deduped
  {
    var seen: map<Text, Suggestion> := map[];
    survivors, resolved := [], [];
    for n := 0 to |xs|
      invariant Looping(Deduped(survivors, resolved), seen) == DedupeLoops(xs[..n])
    {
      assert xs[..n + 1][..n] == xs[..n];
      var s, name := xs[n], Name(xs[n]);
      if name in seen {
        resolved := resolved + [Resolution(s, Superseded(seen[name]))];
      } else {
        seen := seen[name := s];
        survivors := survivors + [s];
      }
    }
    assert xs[..|xs|] == xs;
  }

  method BestKept(kept: seq<Suggestion>, s: Suggestion, threshold: real) returns (winner: nat)
    ensures winner == BestMatch(kept, s, threshold)
  {
    winner := 0;
    var score := 0.0;
    for n := 0 to |kept|
      invariant winner == BestMatch(kept[..n], s, threshold)
      invariant score == if winner < n then Jaccard(kept[winner].tokens, s.tokens) else 0.0
      invariant score >= 0.0
    {
      assert kept[..n + 1][..n] == kept[..n];
      var j := Jaccard(kept[n].tokens, s.tokens);
      if kept[n].category == s.category && j >= threshold && j > score {
        winner, score := n, j;
      } else if winner == n {
        winner := n + 1;
      }
    }
    assert kept[..|kept|] == kept;
  }

  method SupersedeTitles(xs: seq<Suggestion>, threshold: real) returns (survivors: seq<Suggestion>, resolved: seq<Resolution>)
    ensures Deduped(survivors, resolved) == DedupeTitles(xs, threshold)
  {
    survivors, resolved := [], [];
    for n := 0 to |xs|
      invariant Deduped(survivors, resolved) == DedupeTitles(xs[..n], threshold)
    {
      assert xs[..n + 1][..n] == xs[..n];
      var winner := BestKept(survivors, xs[n], threshold);
      if winner < |survivors| {
        resolved := resolved + [Resolution(xs[n], Superseded(survivors[winner]))];
      } else {
        survivors := survivors + [xs[n]];
      }
    }
    assert xs[..|xs|] == xs;
  }

  method SetDeadEndsAside(xs: seq<Suggestion>) returns (alive: seq<Suggestion>, resolved: seq<Resolution>)
    ensures alive == Acceptable(xs) && resolved == DeadEnds(xs)
  {
    alive, resolved := [], [];
    for n := 0 to |xs|
      invariant alive == Acceptable(xs[..n]) && resolved == DeadEnds(xs[..n])
    {
      assert xs[..n + 1][..n] == xs[..n];
      if xs[n].acceptable {
        alive := alive + [xs[n]];
      } else {
        resolved := resolved + [Resolution(xs[n], DeadEnd)];
      }
    }
    assert xs[..|xs|] == xs;
  }

  method SeparateMined(xs: seq<Suggestion>) returns (mined: seq<Suggestion>, prose: seq<Suggestion>)
    ensures mined == Mined(xs, true) && prose == Mined(xs, false)
  {
    mined, prose := [], [];
    for n := 0 to |xs|
      invariant mined == Mined(xs[..n], true) && prose == Mined(xs[..n], false)
    {
      assert xs[..n + 1][..n] == xs[..n];
      if xs[n].fingerprint.Some? {
        mined := mined + [xs[n]];
      } else {
        prose := prose + [xs[n]];
      }
    }
    assert xs[..|xs|] == xs;
  }

  method RouteSurvivors(xs: seq<Suggestion>, c: Settings) returns (t: Triage)
    ensures t == Routed(xs, c)
  {
    t := Triage([], [], []);
    for n := 0 to |xs|
      invariant t == Routed(xs[..n], c)
    {
      assert xs[..n + 1][..n] == xs[..n];
      match RouteOf(xs[n], c) {
        case Fresh => t := t.(young := t.young + [xs[n]]);
        case Retire(rule) => t := t.(resolved := t.resolved + [Resolution(xs[n], rule)]);
        case Ambiguous => t := t.(ambiguous := t.ambiguous + [xs[n]]);
      }
    }
    assert xs[..|xs|] == xs;
  }

  method ClassifySuggestions(xs: seq<Suggestion>, c: Settings) returns (t: Triage)
    ensures t == Classify(xs, c)
  {
    var alive, dead := SetDeadEndsAside(xs);
    var mined, prose := SeparateMined(StableSort(alive, Newer));
    var loops, sameLoop := SupersedeLoops(mined);
    var titles, sameTitle := SupersedeTitles(prose, c.threshold);
    t := RouteSurvivors(loops + titles, c);
    t := t.(resolved := dead + sameLoop + sameTitle + t.resolved);
  }
}
