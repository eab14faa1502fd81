// Mining repeated action patterns: src/activity-patterns.js, from the collapsed per-machine streams on.
// Classification of rows into actions and context tokens is given with each step.

module ActivityPatterns {
  import opened IntervalSelection
  import opened Sorting

  type Key = string

  datatype Step = Step(key: Key, at: int, tokens: set<string>)

  // Limits in milliseconds and steps; `analyzeActivityPatterns` forces minLen >= 1 and maxLen >= minLen.
  datatype Config = Config(minLen: nat, maxLen: nat, maxStepGapMs: int, maxSpanMs: int) {
    predicate Valid() { 1 <= minLen <= maxLen }
  }

  datatype Occurrence = Occurrence(start: nat, end: nat)

  // ---- which windows count ------------------------------------------------------------------

  predicate GapOk(cfg: Config, s: seq<Step>, i: nat)
    requires i + 1 < |s|
  {
    0 <= s[i + 1].at - s[i].at <= cfg.maxStepGapMs
  }

  predicate GapsOk(cfg: Config, s: seq<Step>, start: nat, len: nat)
    requires start + len <= |s|
  {
    forall i: nat :: start <= i && i + 1 < start + len ==> GapOk(cfg, s, i)
  }

  predicate SpanOk(cfg: Config, s: seq<Step>, start: nat, len: nat)
    requires len > 0 && start + len <= |s|
  {
    s[start + len - 1].at - s[start].at <= cfg.maxSpanMs
  }

  predicate OneAction(keys: seq<Key>) {
    forall i :: 0 <= i < |keys| ==> keys[i] == keys[0]
  }

  predicate Causal(from: Key, to: Key) {
    (from == "attend-call" && to in ["prepare-contract", "send-follow-up", "update-crm"])
    || (from == "prepare-contract" && to in ["send-follow-up", "update-crm"])
  }

  predicate Mismatch(from: Step, to: Step) {
    Causal(from.key, to.key) && from.tokens != {} && to.tokens != {} && from.tokens * to.tokens == {}
  }

  predicate CausalMismatch(s: seq<Step>, start: nat, len: nat)
    requires start + len <= |s|
  {
    exists i: nat :: start <= i && i + 1 < start + len && Mismatch(s[i], s[i + 1])
  }

  function Keys(s: seq<Step>, start: nat, len: nat): (ks: seq<Key>)
    requires start + len <= |s|
    ensures |ks| == len
  {
    seq(len, i requires 0 <= i < len => s[start + i].key)
  }

  predicate IsWindow(cfg: Config, s: seq<Step>, start: nat, len: nat) {
    && 1 <= cfg.minLen <= len <= cfg.maxLen && start + len <= |s|
    && GapsOk(cfg, s, start, len)
    && SpanOk(cfg, s, start, len)
    && !OneAction(Keys(s, start, len))
    && !CausalMismatch(s, start, len)
  }

  lemma {:induction false} KeysAt(s: seq<Step>, start: nat, len: nat, i: nat)
    requires start + len <= |s| && i < len
    ensures Keys(s, start, len)[i] == s[start + i].key
  {
  }

  lemma {:induction false} OneActionIff(s: seq<Step>, start: nat, len: nat)
    requires 0 < len && start + len <= |s|
    ensures OneAction(Keys(s, start, len)) <==> !Varies(s, start, len)
  {
    var keys := Keys(s, start, len);
    KeysAt(s, start, len, 0);
    forall i: nat | start <= i < start + len ensures keys[i - start] == s[i].key {
      KeysAt(s, start, len, i - start);
    }
    forall i | 0 <= i < len ensures keys[i] == s[start + i].key {
      KeysAt(s, start, len, i);
    }
  }

  ghost predicate Varies(s: seq<Step>, start: nat, len: nat)
    requires start + len <= |s|
  {
    exists i :: start <= i < start + len && s[i].key != s[start].key
  }

  lemma {:induction false} MismatchIff(a: Step, b: Step)
    ensures Mismatch(a, b) <==> LosesSubject(a, b)
  {
    var shared := a.tokens * b.tokens;
    if shared != {} {
      var t :| t in shared;
      assert t in a.tokens && t in b.tokens;
    } else {
      forall t | t in a.tokens ensures t !in b.tokens {
        assert t !in shared;
      }
    }
  }

  // A window has from the least to the most steps allowed, is not one repeated action, and keeps the time limits; and no
  // step follows one that should have caused it without a subject in common.
  lemma {:induction false} WindowIff(cfg: Config, s: seq<Step>, start: nat, len: nat)
    requires cfg.Valid() && start + len <= |s|
    ensures IsWindow(cfg, s, start, len) <==>
      && cfg.minLen <= len <= cfg.maxLen
      && (forall i :: start < i < start + len ==> KeepsPace(cfg, s[i - 1], s[i]) && !LosesSubject(s[i - 1], s[i]))
      && s[start + len - 1].at <= s[start].at + cfg.maxSpanMs
      && Varies(s, start, len)
  {
    if cfg.minLen <= len {
      OneActionIff(s, start, len);
      forall i: nat | start <= i && i + 1 < start + len
        ensures GapOk(cfg, s, i) <==> KeepsPace(cfg, s[i], s[i + 1])
        ensures Mismatch(s[i], s[i + 1]) <==> LosesSubject(s[i], s[i + 1]) {
        MismatchIff(s[i], s[i + 1]);
      }
      assert forall i :: start < i < start + len ==> (GapOk(cfg, s, i - 1) <==> KeepsPace(cfg, s[i - 1], s[i]));
    }
  }

  predicate KeepsPace(cfg: Config, a: Step, b: Step) {
    a.at <= b.at <= a.at + cfg.maxStepGapMs
  }

  predicate LosesSubject(a: Step, b: Step) {
    && (a.key == "attend-call" || a.key == "prepare-contract")
    && (b.key == "send-follow-up" || b.key == "update-crm" || (a.key == "attend-call" && b.key == "prepare-contract"))
    && a.tokens != {} && b.tokens != {} && forall t :: t in a.tokens ==> t !in b.tokens
  }

  // The windows whose actions spell the pattern.
  predicate Matches(cfg: Config, s: seq<Step>, pattern: seq<Key>, start: nat) {
    IsWindow(cfg, s, start, |pattern|) && Keys(s, start, |pattern|) == pattern
  }

  // ---- generating the windows of one machine ------------------------------------------------

  predicate Earlier(a: Occurrence, b: Occurrence) {
    a.start < b.start || (a.start == b.start && a.end < b.end)
  }

  ghost predicate Ascending(raw: seq<Occurrence>) {
    forall i, j :: 0 <= i < j < |raw| ==> Earlier(raw[i], raw[j])
  }

  // The windows that start before `start`, or at it with fewer than `len` steps.
  ghost function WindowsBefore(cfg: Config, s: seq<Step>, start: nat, len: nat): (r: iset<Occurrence>) {
    iset o: Occurrence | o.start <= o.end && IsWindow(cfg, s, o.start, o.end + 1 - o.start)
                         && (o.start < start || (o.start == start && o.end + 1 < start + len))
  }

  // raw lists exactly those windows, in order.
  ghost predicate ListsWindows(cfg: Config, s: seq<Step>, raw: seq<Occurrence>, start: nat, len: nat) {
    Ascending(raw) && forall o :: o in raw <==> o in WindowsBefore(cfg, s, start, len)
  }

  // A time limit broken by one window is broken by every longer one, so `break` skips nothing valid.
  lemma {:induction false} LongerWindowsBreakToo(cfg: Config, s: seq<Step>, start: nat, len: nat, longer: nat)
    requires 0 < len <= longer && start + longer <= |s|
    requires GapsOk(cfg, s, start, longer) && SpanOk(cfg, s, start, longer)
    ensures GapsOk(cfg, s, start, len) && SpanOk(cfg, s, start, len)
    decreases longer - len
  {
    if len < longer {
      assert GapOk(cfg, s, start + longer - 2);
      LongerWindowsBreakToo(cfg, s, start, len, longer - 1);
    }
  }

  method GenerateWindows(cfg: Config, s: seq<Step>) returns (raw: seq<Occurrence>)
    requires cfg.Valid()
    ensures ListsWindows(cfg, s, raw, |s|, 0)
  {
    raw := [];
    var start := 0;
    while start < |s|
      invariant start <= |s| && ListsWindows(cfg, s, raw, start, 0)
    {
      raw := WindowsFrom(cfg, s, start, raw);
      start := start + 1;
    }
  }

  // One more length decided: append the window if it is one.
  lemma {:induction false} WindowDecided(cfg: Config, s: seq<Step>, raw: seq<Occurrence>, start: nat, len: nat)
    requires len > 0 && ListsWindows(cfg, s, raw, start, len)
    ensures ListsWindows(cfg, s, if IsWindow(cfg, s, start, len) then raw + [Occurrence(start, start + len - 1)] else raw,
                         start, len + 1)
  {
    var o := Occurrence(start, start + len - 1);
    var here := if IsWindow(cfg, s, start, len) then iset{o} else iset{};
    assert WindowsBefore(cfg, s, start, len + 1) == WindowsBefore(cfg, s, start, len) + here;
    AppendAscending(raw, o);
  }

  lemma {:induction false} AppendAscending(raw: seq<Occurrence>, o: Occurrence)
    requires Ascending(raw) && forall p :: p in raw ==> Earlier(p, o)
    ensures Ascending(raw + [o])
  {
    forall i | 0 <= i < |raw| ensures Earlier(raw[i], o) {
      assert raw[i] in raw;
    }
  }

  // No length from `len` on gives a window at `start`, so the next start may be tried.
  lemma {:induction false} StartDone(cfg: Config, s: seq<Step>, raw: seq<Occurrence>, start: nat, len: nat)
    requires ListsWindows(cfg, s, raw, start, len)
    requires forall n: nat :: len <= n ==> !IsWindow(cfg, s, start, n)
    ensures ListsWindows(cfg, s, raw, start + 1, 0)
  {
    assert WindowsBefore(cfg, s, start + 1, 0) == WindowsBefore(cfg, s, start, len);
  }

  method WindowsFrom(cfg: Config, s: seq<Step>, start: nat, before: seq<Occurrence>) returns (raw: seq<Occurrence>)
    requires cfg.Valid() && start < |s| && ListsWindows(cfg, s, before, start, 0)
    ensures ListsWindows(cfg, s, raw, start + 1, 0)
  {
    raw := before;
    var len := cfg.minLen;
    while len <= cfg.maxLen && start + len <= |s|
      invariant cfg.minLen <= len
      invariant ListsWindows(cfg, s, raw, start, len)
    {
      if !GapsOk(cfg, s, start, len) || !SpanOk(cfg, s, start, len) {
        forall n: nat | len <= n ensures !IsWindow(cfg, s, start, n) {
          if IsWindow(cfg, s, start, n) {
            LongerWindowsBreakToo(cfg, s, start, len, n);
          }
        }
        break;
      }
      WindowDecided(cfg, s, raw, start, len);
      if !OneAction(Keys(s, start, len)) && !CausalMismatch(s, start, len) {
        raw := raw + [Occurrence(start, start + len - 1)];
      }
      len := len + 1;
    }
    StartDone(cfg, s, raw, start, len);
  }

  // ---- counting independent occurrences -----------------------------------------------------

  function KeysOf(s: seq<Step>, o: Occurrence): (ks: seq<Key>) {
    if o.start <= o.end < |s| then Keys(s, o.start, o.end + 1 - o.start) else []
  }

  function OfPattern(s: seq<Step>, raw: seq<Occurrence>, pattern: seq<Key>): (r: seq<Occurrence>)
    ensures forall o :: o in r <==> o in raw && KeysOf(s, o) == pattern
  {
    if raw == [] then [] else
      var o := raw[|raw| - 1];
      OfPattern(s, raw[..|raw| - 1], pattern) + (if KeysOf(s, o) == pattern then [o] else [])
  }

  lemma {:induction false} OfPatternSnoc(s: seq<Step>, raw: seq<Occurrence>, o: Occurrence, pattern: seq<Key>)
    ensures OfPattern(s, raw + [o], pattern)
         == OfPattern(s, raw, pattern) + (if KeysOf(s, o) == pattern then [o] else [])
  {
    assert (raw + [o])[..|raw|] == raw;
  }

  lemma {:induction false} OfPatternAscending(s: seq<Step>, raw: seq<Occurrence>, pattern: seq<Key>)
    requires Ascending(raw)
    ensures Ascending(OfPattern(s, raw, pattern))
  {
    if raw != [] {
      OfPatternAscending(s, raw[..|raw| - 1], pattern);
      var init := OfPattern(s, raw[..|raw| - 1], pattern);
      forall o | o in init ensures Earlier(o, raw[|raw| - 1]) {
        var i :| 0 <= i < |raw| - 1 && raw[i] == o;
      }
      AppendAscending(init, raw[|raw| - 1]);
    }
  }

  // Take each occurrence that starts after the end of the last one taken.
  function Greedy(sorted: seq<Occurrence>, lastEnd: int): (r: seq<Occurrence>) {
    if sorted == [] then []
    else if sorted[0].start <= lastEnd then Greedy(sorted[1..], lastEnd)
    else [sorted[0]] + Greedy(sorted[1..], sorted[0].end)
  }

  method SelectIndependent(raw: seq<Occurrence>) returns (selected: seq<Occurrence>)
    ensures selected == Greedy(StableSort(raw, Earlier), -1)
  {
    var sorted := StableSort(raw, Earlier);
    selected := [];
    var lastEnd: int := -1;
    for k := 0 to |sorted|
      invariant selected + Greedy(sorted[k..], lastEnd) == Greedy(sorted, -1)
    {
      assert sorted[k..][1..] == sorted[k + 1..];
      if sorted[k].start > lastEnd {
        assert selected + ([sorted[k]] + Greedy(sorted[k + 1..], sorted[k].end))
            == (selected + [sorted[k]]) + Greedy(sorted[k + 1..], sorted[k].end);
        selected := selected + [sorted[k]];
        lastEnd := sorted[k].end;
      }
    }
    assert sorted[|sorted|..] == [];
  }

  // The starts of the windows that spell the pattern.
  function Starts(cfg: Config, s: seq<Step>, pattern: seq<Key>): (hits: set<nat>)
    ensures forall a: nat :: a in hits <==> Matches(cfg, s, pattern, a)
    ensures forall a :: a in hits ==> a + |pattern| <= |s| && |pattern| > 0
  {
    set a: nat | a < |s| && Matches(cfg, s, pattern, a)
  }

  // The independent occurrences of a pattern on one machine.
  function Count(cfg: Config, s: seq<Step>, pattern: seq<Key>): (n: nat) {
    if pattern == [] then 0 else |Pick(Starts(cfg, s, pattern), |pattern|, 0, |s|)|
  }

  // occ lists, in order, windows of the given length that start in hits, and every hit from `from` on.
  ghost predicate ListsHits(hits: set<nat>, len: nat, occ: seq<Occurrence>, from: nat)
    requires len > 0
  {
    && Ascending(occ)
    && (forall o :: o in occ ==> o.end == o.start + len - 1 && o.start in hits)
    && (forall a :: a in hits && from <= a ==> Occurrence(a, a + len - 1) in occ)
  }

  lemma {:induction false} RestListsHits(hits: set<nat>, len: nat, occ: seq<Occurrence>, from: nat)
    requires len > 0 && occ != [] && ListsHits(hits, len, occ, from)
    ensures var o, rest := occ[0], if occ[0].start < from then from else occ[0].start + len;
            && o.start in hits && o.end == o.start + len - 1 && ListsHits(hits, len, occ[1..], rest)
            && (forall a :: a in hits && from <= a ==> o.start <= a)
  {
    var o := occ[0];
    assert o in occ;
    forall a | a in hits && from <= a ensures o.start <= a && (a != o.start ==> Occurrence(a, a + len - 1) in occ[1..]) {
      var i :| 0 <= i < |occ| && occ[i] == Occurrence(a, a + len - 1);
      assert i > 0 ==> Earlier(occ[0], occ[i]) && occ[1..][i - 1] == occ[i];
    }
  }

  // Selecting from the sorted list is picking from the set of starts.
  lemma {:induction false} GreedyIsPick(hits: set<nat>, len: nat, occ: seq<Occurrence>, from: nat, bound: nat)
    requires len > 0 && ListsHits(hits, len, occ, from) && forall a :: a in hits ==> a < bound
    ensures |Greedy(occ, from - 1)| == |Pick(hits, len, from, bound)|
  {
    if occ == [] {
      PickSkips(hits, len, from, if from < bound then bound else from, bound);
    } else {
      var o := occ[0];
      RestListsHits(hits, len, occ, from);
      if o.start <= from - 1 {
        GreedyIsPick(hits, len, occ[1..], from, bound);
      } else {
        PickSkips(hits, len, from, o.start, bound);
        GreedyIsPick(hits, len, occ[1..], o.start + len, bound);
      }
    }
  }

  // ---- support over all machines ------------------------------------------------------------

  // The count of a pattern: independent occurrences, machine by machine.
  function Support(cfg: Config, streams: seq<seq<Step>>, pattern: seq<Key>): (n: nat) {
    if streams == [] then 0
    else Support(cfg, streams[..|streams| - 1], pattern) + Count(cfg, streams[|streams| - 1], pattern)
  }

  function Total(chosen: seq<set<nat>>): (n: nat) {
    if chosen == [] then 0 else Total(chosen[..|chosen| - 1]) + |chosen[|chosen| - 1]|
  }

  ghost predicate IndependentChoice(cfg: Config, streams: seq<seq<Step>>, pattern: seq<Key>, chosen: seq<set<nat>>) {
    |chosen| == |streams|
    && forall m :: 0 <= m < |streams| ==> Independent(Starts(cfg, streams[m], pattern), |pattern|, chosen[m])
  }

  lemma {:induction false} CountIsMaximum(cfg: Config, s: seq<Step>, pattern: seq<Key>, chosen: set<nat>) returns (best: set<nat>)
    requires pattern != [] && Independent(Starts(cfg, s, pattern), |pattern|, chosen)
    ensures |chosen| <= Count(cfg, s, pattern) == |best|
    ensures Independent(Starts(cfg, s, pattern), |pattern|, best)
  {
    var hits, len := Starts(cfg, s, pattern), |pattern|;
    NoLargerChoice(hits, len, 0, |s|, chosen);
    PickIsIndependent(hits, len, 0, |s|);
    best := Elements(Pick(hits, len, 0, |s|));
  }

  // No choice of pairwise disjoint windows on the machines is larger than the count, and one attains it.
  lemma {:induction false} SupportIsMaximum(cfg: Config, streams: seq<seq<Step>>, pattern: seq<Key>,
                                            chosen: seq<set<nat>>) returns (best: seq<set<nat>>)
    requires pattern != [] && IndependentChoice(cfg, streams, pattern, chosen)
    ensures Total(chosen) <= Support(cfg, streams, pattern)
    ensures IndependentChoice(cfg, streams, pattern, best) && Total(best) == Support(cfg, streams, pattern)
  {
    if streams == [] {
      best := [];
    } else {
      var m := |streams| - 1;
      var init := SupportIsMaximum(cfg, streams[..m], pattern, chosen[..m]);
      var last := CountIsMaximum(cfg, streams[m], pattern, chosen[m]);
      best := init + [last];
      assert best[..m] == init;
    }
  }

  // Part of a window, long enough and not one repeated action, is itself a window.
  lemma {:induction false} SubWindow(cfg: Config, s: seq<Step>, pattern: seq<Key>, start: nat, offset: nat, len: nat)
    requires Matches(cfg, s, pattern, start) && offset + len <= |pattern| && 1 <= cfg.minLen <= len
    requires !OneAction(pattern[offset..offset + len])
    ensures Matches(cfg, s, pattern[offset..offset + len], start + offset)
  {
    var part := pattern[offset..offset + len];
    assert Keys(s, start + offset, len) == part by {
      forall i | 0 <= i < len ensures s[start + offset + i].key == part[i] {
        assert Keys(s, start, |pattern|)[offset + i] == pattern[offset + i];
      }
    }
    LongerWindowsBreakToo(cfg, s, start, offset + len, |pattern|);
    ShorterSpan(cfg, s, start, start + offset, offset + len);
  }

  lemma {:induction false} ShorterSpan(cfg: Config, s: seq<Step>, start: nat, later: nat, len: nat)
    requires start <= later < start + len && start + len <= |s|
    requires GapsOk(cfg, s, start, len) && SpanOk(cfg, s, start, len)
    ensures GapsOk(cfg, s, later, start + len - later) && SpanOk(cfg, s, later, start + len - later)
    decreases later - start
  {
    if start < later {
      assert GapOk(cfg, s, start);
      ShorterSpan(cfg, s, start + 1, later, len - 1);
    }
  }

  // A contiguous part of a pattern is counted at least as often as the whole pattern.
  lemma {:induction false} SupportIsAntiMonotone(cfg: Config, streams: seq<seq<Step>>, pattern: seq<Key>,
                                                 offset: nat, len: nat)
    requires offset + len <= |pattern| && 1 <= cfg.minLen <= len && !OneAction(pattern[offset..offset + len])
    ensures Support(cfg, streams, pattern) <= Support(cfg, streams, pattern[offset..offset + len])
  {
    if streams != [] {
      var m := |streams| - 1;
      var s, part := streams[m], pattern[offset..offset + len];
      SupportIsAntiMonotone(cfg, streams[..m], pattern, offset, len);
      var hits, partHits := Starts(cfg, s, pattern), Starts(cfg, s, part);
      forall a | a in hits ensures a + offset in partHits && a + offset < |s| {
        SubWindow(cfg, s, pattern, a, offset, len);
      }
      PartIsPickedAsOften(hits, |pattern|, partHits, len, offset, 0, 0, |s|);
    }
  }

  // ---- counting every pattern ---------------------------------------------------------------

  method GroupByPattern(s: seq<Step>, raw: seq<Occurrence>) returns (byKey: map<seq<Key>, seq<Occurrence>>)
    ensures forall p :: p in byKey <==> OfPattern(s, raw, p) != []
    ensures forall p :: p in byKey ==> byKey[p] == OfPattern(s, raw, p)
  {
    byKey := map[];
    for k := 0 to |raw|
      invariant forall p :: p in byKey <==> OfPattern(s, raw[..k], p) != []
      invariant forall p :: p in byKey ==> byKey[p] == OfPattern(s, raw[..k], p)
    {
      var key := KeysOf(s, raw[k]);
      assert raw[..k + 1] == raw[..k] + [raw[k]];
      forall p {
        OfPatternSnoc(s, raw[..k], raw[k], p);
      }
      byKey := byKey[key := (if key in byKey then byKey[key] else []) + [raw[k]]];
    }
    assert raw[..|raw|] == raw;
  }

  // A window of `windows` that starts at a and spells the pattern.
  ghost predicate Hit(s: seq<Step>, windows: iset<Occurrence>, pattern: seq<Key>, a: nat)
    requires pattern != []
  {
    Occurrence(a, a + |pattern| - 1) in windows && KeysOf(s, Occurrence(a, a + |pattern| - 1)) == pattern
  }

  lemma {:induction false} SelectedCount(cfg: Config, s: seq<Step>, raw: seq<Occurrence>, pattern: seq<Key>)
    requires ListsWindows(cfg, s, raw, |s|, 0)
    ensures |Greedy(StableSort(OfPattern(s, raw, pattern), Earlier), -1)| == Count(cfg, s, pattern)
  {
    var occ, windows := OfPattern(s, raw, pattern), WindowsBefore(cfg, s, |s|, 0);
    OfPatternAscending(s, raw, pattern);
    StableSortOfSorted(occ, Earlier);
    WindowsInside(cfg, s);
    if pattern == [] {
      NoEmptyPattern(s, raw, windows);
    } else {
      forall a: nat ensures a in Starts(cfg, s, pattern) <==> Hit(s, windows, pattern, a) {
        StartsOfWindows(cfg, s, pattern, a);
      }
      PatternListsHits(s, raw, windows, pattern, Starts(cfg, s, pattern));
      GreedyIsPick(Starts(cfg, s, pattern), |pattern|, occ, 0, |s|);
    }
  }

  lemma {:induction false} WindowsInside(cfg: Config, s: seq<Step>)
    ensures forall o :: o in WindowsBefore(cfg, s, |s|, 0) ==> o.start <= o.end < |s|
  {
  }

  lemma {:induction false} NoEmptyPattern(s: seq<Step>, raw: seq<Occurrence>, windows: iset<Occurrence>)
    requires (forall o :: o in raw ==> o in windows) && forall o :: o in windows ==> o.start <= o.end < |s|
    ensures OfPattern(s, raw, []) == []
  {
    if raw != [] {
      var o := raw[|raw| - 1];
      assert o in windows;
      assert |KeysOf(s, o)| == o.end + 1 - o.start;
      NoEmptyPattern(s, raw[..|raw| - 1], windows);
    }
  }

  lemma {:induction false} StartsOfWindows(cfg: Config, s: seq<Step>, pattern: seq<Key>, a: nat)
    requires pattern != []
    ensures a in Starts(cfg, s, pattern) <==> Hit(s, WindowsBefore(cfg, s, |s|, 0), pattern, a)
  {
    assert a in Starts(cfg, s, pattern) <==> Matches(cfg, s, pattern, a);
  }

  lemma {:induction false} PatternListsHits(s: seq<Step>, raw: seq<Occurrence>, windows: iset<Occurrence>, pattern: seq<Key>,
                         hits: set<nat>)
    requires Ascending(raw) && pattern != [] && forall o :: o in raw <==> o in windows
    requires forall o :: o in windows ==> o.start <= o.end < |s|
    requires forall a: nat :: a in hits <==> Hit(s, windows, pattern, a)
    ensures ListsHits(hits, |pattern|, OfPattern(s, raw, pattern), 0)
  {
    var occ := OfPattern(s, raw, pattern);
    OfPatternAscending(s, raw, pattern);
    forall o | o in occ ensures o.end == o.start + |pattern| - 1 && o.start in hits {
      assert |KeysOf(s, o)| == o.end + 1 - o.start;
      assert o == Occurrence(o.start, o.start + |pattern| - 1);
      assert Hit(s, windows, pattern, o.start);
    }
    forall a | a in hits ensures Occurrence(a, a + |pattern| - 1) in occ {
      assert Hit(s, windows, pattern, a);
    }
  }

  // The counts the miner reports: every pattern with an occurrence, with its support.
  method CountPatterns(cfg: Config, streams: seq<seq<Step>>) returns (counts: map<seq<Key>, nat>)
    requires cfg.Valid()
    ensures forall p :: p in counts ==> counts[p] == Support(cfg, streams, p) > 0
    ensures forall p :: p !in counts ==> Support(cfg, streams, p) == 0
  {
    counts := map[];
    for m := 0 to |streams|
      invariant forall p :: p in counts ==> counts[p] == Support(cfg, streams[..m], p) > 0
      invariant forall p :: p !in counts ==> Support(cfg, streams[..m], p) == 0
    {
      counts := CountMachine(cfg, streams[m], counts);
      assert streams[..m + 1][..m] == streams[..m];
    }
    assert streams[..|streams|] == streams;
  }

  ghost predicate Positive(counts: map<seq<Key>, nat>) {
    forall p :: p in counts ==> counts[p] > 0
  }

  lemma {:induction false} SelectedSome(raw: seq<Occurrence>)
    requires raw != []
    ensures Greedy(StableSort(raw, Earlier), -1) != []
  {
    SameElements(StableSort(raw, Earlier), raw);
  }

  function Tally(counts: map<seq<Key>, nat>, p: seq<Key>): (n: nat) {
    if p in counts then counts[p] else 0
  }

  // The patterns of this machine that are no longer pending have been counted on top of what was counted before.
  ghost predicate Counted(cfg: Config, s: seq<Step>, before: map<seq<Key>, nat>, counts: map<seq<Key>, nat>,
                          pending: set<seq<Key>>)
  {
    && (forall p :: p in before ==> p in counts)
    && (Positive(before) ==> Positive(counts))
    && (forall p :: Tally(counts, p) == Tally(before, p) + (if p in pending then 0 else Count(cfg, s, p)))
  }

  lemma {:induction false} CountedMore(cfg: Config, s: seq<Step>, before: map<seq<Key>, nat>, counts: map<seq<Key>, nat>,
                                       pending: set<seq<Key>>, key: seq<Key>, n: nat)
    requires Counted(cfg, s, before, counts, pending) && key in pending && n == Count(cfg, s, key) > 0
    ensures Counted(cfg, s, before, counts[key := Tally(counts, key) + n], pending - {key})
  {
  }

  lemma {:induction false} NoneCounted(cfg: Config, s: seq<Step>, raw: seq<Occurrence>, before: map<seq<Key>, nat>,
                                       keys: set<seq<Key>>)
    requires ListsWindows(cfg, s, raw, |s|, 0) && forall p :: p in keys <==> OfPattern(s, raw, p) != []
    ensures Counted(cfg, s, before, before, keys)
  {
    forall p | p !in keys ensures Count(cfg, s, p) == 0 {
      SelectedCount(cfg, s, raw, p);
    }
  }

  method CountOccurrences(cfg: Config, s: seq<Step>, raw: seq<Occurrence>, occurrences: seq<Occurrence>, key: seq<Key>)
    returns (n: nat)
    requires ListsWindows(cfg, s, raw, |s|, 0) && occurrences == OfPattern(s, raw, key) != []
    ensures n == Count(cfg, s, key) > 0
  {
    var selected := SelectIndependent(occurrences);
    SelectedCount(cfg, s, raw, key);
    SelectedSome(occurrences);
    return |selected|;
  }

  method CountMachine(cfg: Config, s: seq<Step>, before: map<seq<Key>, nat>) returns (counts: map<seq<Key>, nat>)
    requires cfg.Valid()
    ensures Counted(cfg, s, before, counts, {})
  {
    var raw := GenerateWindows(cfg, s);
    var byKey := GroupByPattern(s, raw);
    var pending := byKey.Keys;
    counts := before;
    NoneCounted(cfg, s, raw, before, pending);
    while pending != {}
      invariant pending <= byKey.Keys && Counted(cfg, s, before, counts, pending)
      decreases |pending|
    {
      var key :| key in pending;
      var n := CountOccurrences(cfg, s, raw, byKey[key], key);
      CountedMore(cfg, s, before, counts, pending, key, n);
      counts := counts[key := Tally(counts, key) + n];
      pending := pending - {key};
    }
  }

  // ---- dropping patterns that a longer one accounts for --------------------------------------

  datatype Pattern = Pattern(keys: seq<Key>, count: nat, distinctDays: nat, distinctWeeks: nat, confidence: real)

  predicate OccursAt(parent: seq<Key>, child: seq<Key>, start: nat) {
    start + |child| <= |parent| && parent[start..start + |child|] == child
  }

  predicate ContainsContiguous(parent: seq<Key>, child: seq<Key>) {
    exists start :: 0 <= start <= |parent| && OccursAt(parent, child, start)
  }

  // `parent` says everything `child` says, with the same support, and more.
  predicate Covers(parent: Pattern, child: Pattern) {
    && |parent.keys| > |child.keys|
    && parent.count == child.count
    && parent.distinctDays == child.distinctDays
    && parent.distinctWeeks == child.distinctWeeks
    && ContainsContiguous(parent.keys, child.keys)
  }

  predicate LongestFirst(a: Pattern, b: Pattern) {
    |a.keys| > |b.keys|
    || (|a.keys| == |b.keys| && (a.confidence > b.confidence || (a.confidence == b.confidence && a.count > b.count)))
  }

  predicate Covered(p: Pattern, among: seq<Pattern>) {
    exists q :: q in among && Covers(q, p)
  }

  // The elements of xs, in order, that no element of `among` covers.
  function Uncovered(xs: seq<Pattern>, among: seq<Pattern>): (r: seq<Pattern>)
    ensures forall p :: p in r <==> p in xs && !Covered(p, among)
  {
    if xs == [] then [] else
      var p := xs[|xs| - 1];
      Uncovered(xs[..|xs| - 1], among) + (if Covered(p, among) then [] else [p])
  }

  lemma {:induction false} CoversTransitive(a: Pattern, b: Pattern, c: Pattern)
    requires Covers(a, b) && Covers(b, c)
    ensures Covers(a, c)
  {
    var i :| 0 <= i <= |a.keys| && OccursAt(a.keys, b.keys, i);
    var j :| 0 <= j <= |b.keys| && OccursAt(b.keys, c.keys, j);
    assert a.keys[i + j..i + j + |c.keys|] == a.keys[i..i + |b.keys|][j..j + |c.keys|];
    assert OccursAt(a.keys, c.keys, i + j);
  }

  // Whatever covers a pattern, an uncovered pattern covers it too.
  lemma {:induction false} UncoveredCoverer(among: seq<Pattern>, q: Pattern, p: Pattern, longest: nat) returns (top: Pattern)
    requires q in among && Covers(q, p) && forall x :: x in among ==> |x.keys| <= longest
    ensures top in among && Covers(top, p) && !Covered(top, among)
    decreases longest - |q.keys|
  {
    if x :| x in among && Covers(x, q) {
      CoversTransitive(x, q, p);
      top := UncoveredCoverer(among, x, p, longest);
    } else {
      top := q;
    }
  }

  lemma {:induction false} LongestFirstIsWeakOrder()
    ensures WeakOrder(LongestFirst)
  {
  }

  lemma {:induction false} PatternsSorted(patterns: seq<Pattern>)
    ensures Sorted(StableSort(patterns, LongestFirst), LongestFirst)
    ensures forall p :: p in StableSort(patterns, LongestFirst) <==> p in patterns
  {
    LongestFirstIsWeakOrder();
    StableSortSorted(patterns, LongestFirst);
    SameElements(StableSort(patterns, LongestFirst), patterns);
  }

  lemma {:induction false} UncoveredNext(sorted: seq<Pattern>, patterns: seq<Pattern>, k: nat)
    requires k < |sorted|
    ensures Uncovered(sorted[..k + 1], patterns)
         == Uncovered(sorted[..k], patterns) + (if Covered(sorted[k], patterns) then [] else [sorted[k]])
  {
    assert sorted[..k + 1][..k] == sorted[..k];
  }

  // Although each candidate is compared with the patterns kept so far only, what remains is exactly the patterns
  // that no pattern at all covers.
  method SuppressSubsumed(patterns: seq<Pattern>) returns (kept: seq<Pattern>)
    ensures kept == Uncovered(StableSort(patterns, LongestFirst), patterns)
    ensures forall p :: p in kept <==> p in patterns && !Covered(p, patterns)
  {
    var sorted := StableSort(patterns, LongestFirst);
    PatternsSorted(patterns);
    kept := [];
    for k := 0 to |sorted|
      invariant kept == Uncovered(sorted[..k], patterns)
    {
      var candidate := sorted[k];
      UncoveredNext(sorted, patterns, k);
      CoveredByKept(sorted, patterns, k);
      if !Covered(candidate, kept) {
        kept := kept + [candidate];
      }
    }
    assert sorted[..|sorted|] == sorted;
  }

  lemma {:induction false} CoveredByKept(sorted: seq<Pattern>, patterns: seq<Pattern>, k: nat)
    requires k < |sorted| && Sorted(sorted, LongestFirst) && (forall p :: p in sorted <==> p in patterns)
    ensures Covered(sorted[k], Uncovered(sorted[..k], patterns)) <==> Covered(sorted[k], patterns)
  {
    var candidate := sorted[k];
    if q :| q in patterns && Covers(q, candidate) {
      forall x | x in patterns ensures |x.keys| <= |sorted[0].keys| {
        var i :| 0 <= i < |sorted| && sorted[i] == x;
        assert i == 0 || !LongestFirst(sorted[i], sorted[0]);
      }
      var top := UncoveredCoverer(patterns, q, candidate, |sorted[0].keys|);
      var i :| 0 <= i < |sorted| && sorted[i] == top;
      assert i < k;
      assert top in sorted[..k];
    }
  }
}
