// Keeping the provider tool loop under its input ceiling: `ToolLoopContext.fit` in src/context-trim.js.
// An item's text is represented by its length in characters, as `itemChars` measures it.

module ContextTrim {

  const STUB_MIN_CHARS := 1_000
  const HARD_CAP_STUB_MIN_CHARS := 100
  const CHARS_PER_TOKEN := 4

  // What `mark` records about an item. Only calls, outputs and screenshots belong to a hop.
  datatype Kind =
    | History
    | Anchor
    | Call(hop: nat)
    | Output(hop: nat, toolLen: nat, stubbed: bool)
    | Image(hop: nat, toolLen: nat, stubbed: bool)
    | Unmarked

  function Digits(n: nat): (d: nat)
    ensures d >= 1
  {
    if n < 10 then 1 else 1 + Digits(n / 10)
  }

  // The length of "[tool output trimmed: <tool> <N> chars]".
  function StubLength(toolLen: nat, chars: nat): nat {
    30 + toolLen + Digits(chars)
  }

  // id stands for the identity of the object; callId for the call it answers.
  datatype Item = Item(id: nat, callId: nat, kind: Kind, chars: nat) {
    function Hop(): (h: int) {
      match kind
      case Call(hop) => hop
      case Output(hop, _, _) => hop
      case Image(hop, _, _) => hop
      case _ => -1
    }

    predicate Stubbed() {
      (kind.Output? || kind.Image?) && kind.stubbed
    }

    predicate Trimmable() {
      (kind.Output? || kind.Image?) && !kind.stubbed
    }

    function Stub(): (r: Item)
      requires Trimmable()
    {
      this.(chars := StubLength(kind.toolLen, chars), kind := kind.(stubbed := true))
    }
  }

  // Large enough for the rolling pass.
  predicate Large(x: Item) {
    x.Trimmable() && x.chars >= STUB_MIN_CHARS
  }

  // Open to the hard cap, in the pass over the latest hop or in the pass over earlier ones.
  predicate Eligible(x: Item, latest: int, inLatest: bool) {
    x.Trimmable() && x.chars >= HARD_CAP_STUB_MIN_CHARS && (x.Hop() == latest) == inLatest
  }

  ghost predicate NoneEligible(items: seq<Item>, latest: int, inLatest: bool) {
    forall x :: x in items ==> !Eligible(x, latest, inLatest)
  }

  function Sum(items: seq<Item>): (n: nat) {
    if items == [] then 0 else items[0].chars + Sum(items[1..])
  }

  function LargeCount(items: seq<Item>): (n: nat) {
    if items == [] then 0 else (if Large(items[0]) then 1 else 0) + LargeCount(items[1..])
  }

  function LatestHop(items: seq<Item>): (h: int)
    ensures h >= -1
  {
    if items == [] then -1
    else if items[0].Hop() > LatestHop(items[1..]) then items[0].Hop() else LatestHop(items[1..])
  }

  function Histories(items: seq<Item>): (r: seq<Item>)
  {
    if items == [] then []
    else (if items[0].kind.History? then [items[0]] else []) + Histories(items[1..])
  }

  function StubbedCount(items: seq<Item>): (n: nat) {
    if items == [] then 0 else (if items[0].Stubbed() then 1 else 0) + StubbedCount(items[1..])
  }

  // ---- the passes ---------------------------------------------------------------------------

  // A conversation part-way through the rolling pass, with the number of items still to stub.
  datatype Rolling = Rolling(items: seq<Item>, excess: int)

  // The rolling pass over the first n items: stub the oldest large outputs of earlier hops, at most `excess`.
  function StubOldest(items: seq<Item>, excess: int, latest: int, n: nat): (r: Rolling)
    requires n <= |items|
    ensures |r.items| == |items| && forall i :: n <= i < |items| ==> r.items[i] == items[i]
  {
    if n == 0 then Rolling(items, excess)
    else
      var p := StubOldest(items, excess, latest, n - 1);
      var x := items[n - 1];
      if p.excess > 0 && Large(x) && x.Hop() != latest
      then Rolling(p.items[n - 1 := x.Stub()], p.excess - 1)
      else p
  }

  // A conversation part-way through a hard-cap pass, with the running total.
  datatype Capping = Capping(items: seq<Item>, total: int)

  // A hard-cap pass over the first n items: stub eligible outputs while the total exceeds the target.
  function StubToTarget(items: seq<Item>, total: int, target: int, latest: int, inLatest: bool, n: nat): (r: Capping)
    requires n <= |items|
    ensures |r.items| == |items| && forall i :: n <= i < |items| ==> r.items[i] == items[i]
  {
    if n == 0 then Capping(items, total)
    else
      var p := StubToTarget(items, total, target, latest, inLatest, n - 1);
      var x := items[n - 1];
      if p.total > target && Eligible(x, latest, inLatest)
      then Capping(p.items[n - 1 := x.Stub()], p.total - (x.chars - x.Stub().chars))
      else p
  }

  // The position of the oldest history turn, or the length when there is none.
  function FirstHistory(items: seq<Item>): (i: nat)
    ensures i <= |items| && (i < |items| ==> items[i].kind.History?)
    ensures forall j :: 0 <= j < i ==> !items[j].kind.History?
  {
    if items == [] || items[0].kind.History? then 0 else 1 + FirstHistory(items[1..])
  }

  function Without(items: seq<Item>, i: nat): (r: seq<Item>)
    requires i < |items|
    ensures |r| == |items| - 1
  {
    items[..i] + items[i + 1..]
  }

  // Drop the oldest history turns while the total exceeds the target.
  function DropHistory(items: seq<Item>, total: int, target: int): (r: seq<Item>)
    ensures |r| <= |items|
    decreases |items|
  {
    var i := FirstHistory(items);
    if total <= target || i == |items| then items
    else DropHistory(Without(items, i), total - items[i].chars, target)
  }

  predicate InLatest(x: Item, latest: int) {
    x.Trimmable() && x.Hop() == latest
  }

  // The position of the newest unstubbed output of the latest hop, or the length when there is none.
  function Newest(items: seq<Item>, latest: int): (i: nat)
    ensures i <= |items| && (i < |items| ==> InLatest(items[i], latest))
    ensures forall j :: (if i == |items| then 0 else i + 1) <= j < |items| ==> !InLatest(items[j], latest)
  {
    if items == [] then 0
    else if InLatest(items[|items| - 1], latest) then |items| - 1
    else
      var i := Newest(items[..|items| - 1], latest);
      if i == |items| - 1 then |items| else i
  }

  // ---- the whole trim -----------------------------------------------------------------------

  datatype Config = Config(maxInputTokens: nat, keepRecent: nat) {
    function LimitChars(): nat { maxInputTokens * CHARS_PER_TOKEN }
    // Three quarters of the limit.
    function Target(): nat { maxInputTokens * 3 }
  }

  // Once twice the number to keep has piled up, all but that number are stubbed.
  function Rolled(cfg: Config, items: seq<Item>): (r: seq<Item>) {
    if LargeCount(items) > cfg.keepRecent * 2
    then StubOldest(items, LargeCount(items) - cfg.keepRecent, LatestHop(items), |items|).items
    else items
  }

  // 1. Outputs of earlier hops.
  function HardStubbed(cfg: Config, items: seq<Item>, fixedChars: nat, latest: int): (r: seq<Item>) {
    StubToTarget(items, fixedChars + Sum(items), cfg.Target(), latest, false, |items|).items
  }

  // 2. History turns.
  function Dropped(cfg: Config, items: seq<Item>, fixedChars: nat): (r: seq<Item>) {
    DropHistory(items, fixedChars + Sum(items), cfg.Target())
  }

  // 3. The latest hop's outputs, all but the newest.
  function Resorted(cfg: Config, items: seq<Item>, fixedChars: nat, latest: int): (r: seq<Item>) {
    StubToTarget(items, fixedChars + Sum(items), cfg.Target(), latest, true, Newest(items, latest)).items
  }

  function Capped(cfg: Config, rolled: seq<Item>, fixedChars: nat, latest: int): (r: seq<Item>) {
    Resorted(cfg, Dropped(cfg, HardStubbed(cfg, rolled, fixedChars, latest), fixedChars), fixedChars, latest)
  }

  function Fitted(cfg: Config, items: seq<Item>, fixedChars: nat): (r: seq<Item>) {
    var rolled := Rolled(cfg, items);
    if fixedChars + Sum(rolled) <= cfg.LimitChars() then rolled
    else Capped(cfg, rolled, fixedChars, LatestHop(items))
  }

  // ---- what a trim may change ---------------------------------------------------------------

  predicate SameOrStub(old_: Item, new_: Item) {
    new_ == old_ || (old_.Trimmable() && new_ == old_.Stub())
  }

  // Every item that is not history stays, in place and either unchanged or stubbed; history may be missing.
  predicate Trims(old_: seq<Item>, new_: seq<Item>) {
    if old_ == [] then new_ == []
    else
      || (new_ != [] && SameOrStub(old_[0], new_[0]) && Trims(old_[1..], new_[1..]))
      || (old_[0].kind.History? && Trims(old_[1..], new_))
  }

  lemma {:induction false} TrimsReflexive(items: seq<Item>)
    ensures Trims(items, items)
  {
    if items != [] {
      TrimsReflexive(items[1..]);
    }
  }

  lemma {:induction false} TrimsTransitive(a: seq<Item>, b: seq<Item>, c: seq<Item>)
    requires Trims(a, b) && Trims(b, c)
    ensures Trims(a, c)
    decreases |a| + |b|
  {
    if a != [] {
      if b != [] && SameOrStub(a[0], b[0]) && Trims(a[1..], b[1..]) {
        if c != [] && SameOrStub(b[0], c[0]) && Trims(b[1..], c[1..]) {
          TrimsTransitive(a[1..], b[1..], c[1..]);
        } else {
          TrimsTransitive(a[1..], b[1..], c);
        }
      } else {
        TrimsTransitive(a[1..], b, c);
      }
    }
  }

  // Stubbing one item: everything the passes rely on.
  lemma {:induction false} StubOne(items: seq<Item>, i: nat)
    requires i < |items| && items[i].Trimmable()
    ensures var r := items[i := items[i].Stub()];
            && Trims(items, r)
            && Histories(r) == Histories(items)
            && Sum(r) == Sum(items) - items[i].chars + items[i].Stub().chars
            && LargeCount(r) == LargeCount(items) - (if Large(items[i]) then 1 else 0)
            && StubbedCount(r) == StubbedCount(items) + 1
  {
    var r := items[i := items[i].Stub()];
    if i == 0 {
      assert r[1..] == items[1..];
      TrimsReflexive(items[1..]);
    } else {
      assert r[1..] == items[1..][i - 1 := items[i].Stub()];
      StubOne(items[1..], i - 1);
    }
  }

  // After n items: either `excess` outputs have been stubbed, or no large one of an earlier hop is left among them.
  lemma {:induction false} StubOldestTrims(items: seq<Item>, excess: nat, latest: int, n: nat)
    requires n <= |items|
    ensures var r := StubOldest(items, excess, latest, n);
            && Trims(items, r.items)
            && Histories(r.items) == Histories(items)
            && LargeCount(r.items) == LargeCount(items) - (excess - r.excess)
            && r.excess >= 0
            && (r.excess > 0 ==> forall i :: 0 <= i < n && Large(r.items[i]) ==> r.items[i].Hop() == latest)
  {
    if n == 0 {
      TrimsReflexive(items);
    } else {
      StubOldestTrims(items, excess, latest, n - 1);
      var p, x := StubOldest(items, excess, latest, n - 1), items[n - 1];
      if p.excess > 0 && Large(x) && x.Hop() != latest {
        StubOne(p.items, n - 1);
        TrimsTransitive(items, p.items, p.items[n - 1 := x.Stub()]);
      }
    }
  }

  // The running total stays the true one, and stays above the target only if nothing eligible is left.
  lemma {:induction false} StubToTargetTrims(items: seq<Item>, total: int, target: int, latest: int, inLatest: bool,
                                             n: nat)
    requires n <= |items|
    ensures var r := StubToTarget(items, total, target, latest, inLatest, n);
            && Trims(items, r.items)
            && Histories(r.items) == Histories(items)
            && r.total - Sum(r.items) == total - Sum(items)
            && (r.total > target ==> forall i :: 0 <= i < n ==> !Eligible(r.items[i], latest, inLatest))
            && (total <= target ==> r == Capping(items, total))
  {
    if n == 0 {
      TrimsReflexive(items);
    } else {
      StubToTargetTrims(items, total, target, latest, inLatest, n - 1);
      var p, x := StubToTarget(items, total, target, latest, inLatest, n - 1), items[n - 1];
      if p.total > target && Eligible(x, latest, inLatest) {
        StubOne(p.items, n - 1);
        TrimsTransitive(items, p.items, p.items[n - 1 := x.Stub()]);
      }
    }
  }

  lemma {:induction false} WithoutHistoryTrims(items: seq<Item>, i: nat)
    requires i < |items| && items[i].kind.History?
    ensures Trims(items, Without(items, i))
  {
    var r := Without(items, i);
    if i == 0 {
      assert r == items[1..];
      TrimsReflexive(items[1..]);
    } else {
      assert r[0] == items[0] && r[1..] == Without(items[1..], i - 1);
      WithoutHistoryTrims(items[1..], i - 1);
    }
  }

  lemma {:induction false} WithoutHistoryAt(items: seq<Item>, i: nat)
    requires i < |items| && items[i].kind.History? && forall j :: 0 <= j < i ==> !items[j].kind.History?
    ensures Histories(items) == [items[i]] + Histories(Without(items, i))
    ensures Sum(items) == items[i].chars + Sum(Without(items, i))
    ensures StubbedCount(Without(items, i)) == StubbedCount(items)
  {
    var r := Without(items, i);
    if i == 0 {
      assert r == items[1..];
    } else {
      assert r[0] == items[0] && r[1..] == Without(items[1..], i - 1);
      WithoutHistoryAt(items[1..], i - 1);
    }
  }

  lemma {:induction false} WithoutHistory(items: seq<Item>)
    requires FirstHistory(items) < |items|
    ensures var i := FirstHistory(items);
            && Trims(items, Without(items, i))
            && Histories(items) == [items[i]] + Histories(Without(items, i))
            && Sum(items) == items[i].chars + Sum(Without(items, i))
            && StubbedCount(Without(items, i)) == StubbedCount(items)
  {
    WithoutHistoryAt(items, FirstHistory(items));
    WithoutHistoryTrims(items, FirstHistory(items));
  }

  lemma {:induction false} NoHistories(items: seq<Item>)
    ensures FirstHistory(items) == |items| <==> Histories(items) == []
  {
    if items != [] {
      NoHistories(items[1..]);
    }
  }

  // History goes oldest first, and only while the total is above the target.
  lemma {:induction false} DropHistoryDropsOldest(items: seq<Item>, total: int, target: int) returns (k: nat)
    ensures var r := DropHistory(items, total, target);
            && k <= |Histories(items)| && Histories(r) == Histories(items)[k..] && |r| == |items| - k
            && Trims(items, r)
            && (total - Sum(items) + Sum(r) > target ==> Histories(r) == [])
            && (k > 0 ==> total > target)
    decreases |items|
  {
    var i := FirstHistory(items);
    if total <= target || i == |items| {
      k := 0;
      TrimsReflexive(items);
      NoHistories(items);
    } else {
      var rest, first := Without(items, i), items[i];
      var left := DropHistory(rest, total - first.chars, target);
      WithoutHistory(items);
      var j := DropHistoryDropsOldest(rest, total - first.chars, target);
      TrimsTransitive(items, rest, left);
      k := j + 1;
      assert ([first] + Histories(rest))[k..] == Histories(rest)[j..];
    }
  }

  // What a trim keeps: no item becomes eligible or large, and the latest hop is the same.
  lemma {:induction false} TrimsKeeps(a: seq<Item>, b: seq<Item>, latest: int)
    requires Trims(a, b)
    ensures LargeCount(b) <= LargeCount(a) && LatestHop(b) == LatestHop(a)
    ensures NoneEligible(a, latest, false) ==> NoneEligible(b, latest, false)
    ensures LargeOnlyIn(a, latest) ==> LargeOnlyIn(b, latest)
  {
    if a != [] {
      assert a == [a[0]] + a[1..];
      if b != [] && SameOrStub(a[0], b[0]) && Trims(a[1..], b[1..]) {
        assert b == [b[0]] + b[1..];
        TrimsKeeps(a[1..], b[1..], latest);
        assert a[0] in a;
      } else {
        TrimsKeeps(a[1..], b, latest);
      }
    }
  }

  ghost predicate LargeOnlyIn(items: seq<Item>, latest: int) {
    forall x :: x in items && Large(x) ==> x.Hop() == latest
  }

  // ---- main results -------------------------------------------------------------------------

  // Nothing is left to trim: no history, and every unstubbed output of 100 characters or more
  // is the newest output of the latest hop.
  ghost predicate Exhausted(items: seq<Item>, latest: int) {
    && Histories(items) == []
    && NoneEligible(items, latest, false)
    && (forall i :: 0 <= i < |items| && Eligible(items[i], latest, true) ==> i == Newest(items, latest))
  }

  lemma {:induction false} HardStubbedTrims(cfg: Config, rolled: seq<Item>, fixedChars: nat, latest: int)
    ensures var a := HardStubbed(cfg, rolled, fixedChars, latest);
            && Trims(rolled, a) && Histories(a) == Histories(rolled)
            && (fixedChars + Sum(a) > cfg.Target() ==> NoneEligible(a, latest, false))
  {
    StubToTargetTrims(rolled, fixedChars + Sum(rolled), cfg.Target(), latest, false, |rolled|);
  }

  lemma {:induction false} DroppedTrims(cfg: Config, rolled: seq<Item>, fixedChars: nat, latest: int) returns (k: nat)
    ensures var r := Dropped(cfg, HardStubbed(cfg, rolled, fixedChars, latest), fixedChars);
            && Trims(rolled, r)
            && k <= |Histories(rolled)| && Histories(r) == Histories(rolled)[k..]
            && (k > 0 ==> NoneEligible(r, latest, false))
            && (fixedChars + Sum(r) > cfg.Target() ==> Histories(r) == [] && NoneEligible(r, latest, false))
  {
    var a := HardStubbed(cfg, rolled, fixedChars, latest);
    var r := Dropped(cfg, a, fixedChars);
    HardStubbedTrims(cfg, rolled, fixedChars, latest);
    k := DropHistoryDropsOldest(a, fixedChars + Sum(a), cfg.Target());
    TrimsKeeps(a, r, latest);
    TrimsTransitive(rolled, a, r);
  }

  lemma {:induction false} ResortedTrims(cfg: Config, b: seq<Item>, fixedChars: nat, latest: int)
    ensures var r := Resorted(cfg, b, fixedChars, latest);
            && Trims(b, r)
            && Histories(r) == Histories(b)
            && (fixedChars + Sum(b) <= cfg.Target() ==> r == b)
            && (fixedChars + Sum(r) > cfg.Target() ==>
                  forall i :: 0 <= i < |r| && Eligible(r[i], latest, true) ==> i == Newest(r, latest))
  {
    var r, j := Resorted(cfg, b, fixedChars, latest), Newest(b, latest);
    StubToTargetTrims(b, fixedChars + Sum(b), cfg.Target(), latest, true, j);
    if j < |b| {
      NewestIs(r, latest, j);
    }
  }

  lemma {:induction false} NewestIs(items: seq<Item>, latest: int, j: nat)
    requires j < |items| && InLatest(items[j], latest)
    requires forall i :: j < i < |items| ==> !InLatest(items[i], latest)
    ensures Newest(items, latest) == j
  {
  }

  lemma {:induction false} CappedTrims(cfg: Config, rolled: seq<Item>, fixedChars: nat, latest: int) returns (k: nat)
    ensures var r := Capped(cfg, rolled, fixedChars, latest);
            && Trims(rolled, r)
            && k <= |Histories(rolled)| && Histories(r) == Histories(rolled)[k..]
            && (k > 0 ==> NoneEligible(r, latest, false))
            && (fixedChars + Sum(r) > cfg.Target() ==> Exhausted(r, latest))
  {
    k := DroppedTrims(cfg, rolled, fixedChars, latest);
    var b := Dropped(cfg, HardStubbed(cfg, rolled, fixedChars, latest), fixedChars);
    ResortedTrims(cfg, b, fixedChars, latest);
    TrimsKeeps(b, Resorted(cfg, b, fixedChars, latest), latest);
    TrimsTransitive(rolled, b, Resorted(cfg, b, fixedChars, latest));
  }

  // What a fit may do to the conversation. k is the number of history turns dropped, oldest first; history
  // is dropped only once no earlier output can be stubbed; above the limit nothing is left to trim.
  lemma {:induction false} FitTrims(cfg: Config, items: seq<Item>, fixedChars: nat) returns (k: nat)
    ensures var r := Fitted(cfg, items, fixedChars);
            && Trims(items, r)
            && k <= |Histories(items)| && Histories(r) == Histories(items)[k..]
            && (k > 0 ==> NoneEligible(r, LatestHop(items), false))
            && (fixedChars + Sum(r) > cfg.LimitChars() ==> Exhausted(r, LatestHop(items)))
  {
    var rolled := Rolled(cfg, items);
    RolledTrims(cfg, items);
    if fixedChars + Sum(rolled) <= cfg.LimitChars() {
      k := 0;
    } else {
      k := CappedTrims(cfg, rolled, fixedChars, LatestHop(items));
      TrimsTransitive(items, rolled, Capped(cfg, rolled, fixedChars, LatestHop(items)));
    }
  }

  // The rolling pass has nothing to do: few enough large outputs, or all of them in the latest hop.
  ghost predicate RolledUp(cfg: Config, items: seq<Item>) {
    LargeCount(items) <= cfg.keepRecent * 2 || LargeOnlyIn(items, LatestHop(items))
  }

  lemma {:induction false} RolledTrims(cfg: Config, items: seq<Item>)
    ensures var r := Rolled(cfg, items);
            && Trims(items, r) && Histories(r) == Histories(items)
            && LatestHop(r) == LatestHop(items) && RolledUp(cfg, r)
  {
    TrimsReflexive(items);
    if LargeCount(items) > cfg.keepRecent * 2 {
      StubOldestTrims(items, LargeCount(items) - cfg.keepRecent, LatestHop(items), |items|);
      TrimsKeeps(items, Rolled(cfg, items), LatestHop(items));
    }
  }

  lemma {:induction false} StubOldestIdle(items: seq<Item>, excess: int, latest: int, n: nat)
    requires n <= |items| && LargeOnlyIn(items, latest)
    ensures StubOldest(items, excess, latest, n).items == items
  {
    if n > 0 {
      StubOldestIdle(items, excess, latest, n - 1);
      assert items[n - 1] in items;
    }
  }

  lemma {:induction false} FittedIsRolledUp(cfg: Config, items: seq<Item>, fixedChars: nat)
    ensures RolledUp(cfg, Fitted(cfg, items, fixedChars))
  {
    var rolled, latest := Rolled(cfg, items), LatestHop(items);
    RolledTrims(cfg, items);
    if fixedChars + Sum(rolled) > cfg.LimitChars() {
      var k := CappedTrims(cfg, rolled, fixedChars, latest);
      TrimsKeeps(rolled, Capped(cfg, rolled, fixedChars, latest), latest);
    }
  }

  lemma {:induction false} RolledAlready(cfg: Config, items: seq<Item>)
    requires RolledUp(cfg, items)
    ensures Rolled(cfg, items) == items
  {
    if LargeCount(items) > cfg.keepRecent * 2 {
      StubOldestIdle(items, LargeCount(items) - cfg.keepRecent, LatestHop(items), |items|);
    }
  }

  lemma {:induction false} StubToTargetIdle(items: seq<Item>, total: int, target: int, latest: int, inLatest: bool, n: nat)
    requires n <= |items| && forall i :: 0 <= i < n ==> !Eligible(items[i], latest, inLatest)
    ensures StubToTarget(items, total, target, latest, inLatest, n) == Capping(items, total)
  {
    if n > 0 {
      StubToTargetIdle(items, total, target, latest, inLatest, n - 1);
    }
  }

  // With nothing left to trim all three stages are idle, whatever the total.
  lemma {:induction false} CappedAlready(cfg: Config, items: seq<Item>, fixedChars: nat, latest: int)
    requires Exhausted(items, latest)
    ensures Capped(cfg, items, fixedChars, latest) == items
  {
    forall i | 0 <= i < |items| ensures !Eligible(items[i], latest, false) {
      assert items[i] in items;
    }
    StubToTargetIdle(items, fixedChars + Sum(items), cfg.Target(), latest, false, |items|);
    NoHistories(items);
    StubToTargetIdle(items, fixedChars + Sum(items), cfg.Target(), latest, true, Newest(items, latest));
  }

  // Fitting again changes nothing, whether the first fit succeeded or not.
  lemma {:induction false} FitIsIdempotent(cfg: Config, items: seq<Item>, fixedChars: nat)
    ensures Fitted(cfg, Fitted(cfg, items, fixedChars), fixedChars) == Fitted(cfg, items, fixedChars)
  {
    var r, latest := Fitted(cfg, items, fixedChars), LatestHop(items);
    var k := FitTrims(cfg, items, fixedChars);
    FittedIsRolledUp(cfg, items, fixedChars);
    RolledAlready(cfg, r);
    if fixedChars + Sum(r) > cfg.LimitChars() {
      TrimsKeeps(items, r, latest);
      CappedAlready(cfg, r, fixedChars, latest);
    }
  }

  // ---- what a fit leaves alone --------------------------------------------------------------

  lemma {:induction false} LatestHopIsLatest(items: seq<Item>)
    ensures forall x :: x in items ==> x.Hop() <= LatestHop(items)
    ensures LatestHop(items) == -1 || exists x :: x in items && x.Hop() == LatestHop(items)
  {
    if items != [] {
      LatestHopIsLatest(items[1..]);
      assert items == [items[0]] + items[1..];
      assert items[0] in items;
      if LatestHop(items) != -1 && LatestHop(items) != items[0].Hop() {
        var x :| x in items[1..] && x.Hop() == LatestHop(items[1..]);
        assert x in items;
      }
    }
  }

  // What the rolling pass may stub.
  predicate LargeAndEarlier(x: Item, latest: int) {
    (x.kind.Output? || x.kind.Image?) && !x.kind.stubbed && x.chars >= 1_000 && x.Hop() != latest
  }

  function EarlierBefore(items: seq<Item>, latest: int, i: nat): (n: nat)
    requires i <= |items|
  {
    if i == 0 then 0 else EarlierBefore(items, latest, i - 1) + (if LargeAndEarlier(items[i - 1], latest) then 1 else 0)
  }

  lemma {:induction false} EarlierGrows(items: seq<Item>, latest: int, i: nat, j: nat)
    requires i <= j <= |items|
    ensures EarlierBefore(items, latest, i) <= EarlierBefore(items, latest, j)
  {
    if i < j {
      EarlierGrows(items, latest, i, j - 1);
    }
  }

  // The first `excess` of them are stubbed.
  lemma {:induction false} StubOldestAt(items: seq<Item>, excess: nat, latest: int, n: nat)
    requires n <= |items|
    ensures var r, before := StubOldest(items, excess, latest, n), EarlierBefore(items, latest, n);
            r.excess == if before < excess then excess - before else 0
    ensures forall i :: 0 <= i < n ==>
              StubOldest(items, excess, latest, n).items[i]
              == if LargeAndEarlier(items[i], latest) && EarlierBefore(items, latest, i) < excess then items[i].Stub()
                 else items[i]
  {
    if n > 0 {
      StubOldestAt(items, excess, latest, n - 1);
    }
  }

  // The rolling pass waits until more than twice the number to keep has piled up. Then it stubs the oldest large
  // outputs of earlier hops, as many as there are large outputs beyond the number to keep; and nothing else.
  lemma {:induction false} RolledAt(cfg: Config, items: seq<Item>)
    ensures var r, latest, excess := Rolled(cfg, items), LatestHop(items), LargeCount(items) - cfg.keepRecent;
            && |r| == |items|
            && forall i :: 0 <= i < |items| ==>
                 r[i] == if LargeCount(items) > 2 * cfg.keepRecent && LargeAndEarlier(items[i], latest)
                            && EarlierBefore(items, latest, i) < excess
                         then items[i].Stub() else items[i]
  {
    if LargeCount(items) > cfg.keepRecent * 2 {
      StubOldestAt(items, LargeCount(items) - cfg.keepRecent, LatestHop(items), |items|);
    }
  }

  // The oldest go first.
  lemma {:induction false} RolledOldestFirst(cfg: Config, items: seq<Item>, i: nat, j: nat)
    requires i < j < |items| && LargeAndEarlier(items[i], LatestHop(items)) && LargeAndEarlier(items[j], LatestHop(items))
    ensures var r := Rolled(cfg, items); |r| == |items| && (r[j].Stubbed() ==> r[i].Stubbed())
  {
    RolledAt(cfg, items);
    EarlierGrows(items, LatestHop(items), i, j);
  }

  // And the most recent ones stay whole: with few enough large outputs nothing changes; else the number to keep is left,
  // or more if all that are left are of the latest hop.
  lemma {:induction false} RolledKeepsRecent(cfg: Config, items: seq<Item>)
    ensures var r, latest := Rolled(cfg, items), LatestHop(items);
            && (LargeCount(items) <= 2 * cfg.keepRecent ==> r == items)
            && (LargeCount(items) > 2 * cfg.keepRecent ==>
                  && LargeCount(r) >= cfg.keepRecent
                  && (LargeCount(r) == cfg.keepRecent || LargeOnlyIn(r, latest)))
  {
    if LargeCount(items) > 2 * cfg.keepRecent {
      var excess, latest := LargeCount(items) - cfg.keepRecent, LatestHop(items);
      StubOldestTrims(items, excess, latest, |items|);
      assert Rolled(cfg, items) == StubOldest(items, excess, latest, |items|).items;
    }
  }

  // More than three quarters of the limit, at four characters a token.
  predicate AboveTarget(cfg: Config, total: int) {
    4 * total > 3 * (4 * cfg.maxInputTokens)
  }

  // What a hard-cap pass may stub.
  predicate Cappable(x: Item, latest: int, inLatest: bool) {
    (x.kind.Output? || x.kind.Image?) && !x.kind.stubbed && x.chars >= 100 && (x.Hop() == latest) == inLatest
  }

  // r is items with what may be stubbed among the first m stubbed. The last of them was needed to reach the target, and
  // nothing that may be stubbed is left among the first n while the total is above the target.
  ghost predicate StubbedUpTo(cfg: Config, items: seq<Item>, r: seq<Item>, fixedChars: nat, latest: int, inLatest: bool,
                              n: nat, m: nat)
  {
    && m <= n <= |items| == |r|
    && (forall i :: 0 <= i < |items| ==>
          r[i] == if i < m && Cappable(items[i], latest, inLatest) then items[i].Stub() else items[i])
    && (m > 0 ==> Cappable(items[m - 1], latest, inLatest) && AboveTarget(cfg, fixedChars + Sum(r[m - 1 := items[m - 1]])))
    && (AboveTarget(cfg, fixedChars + Sum(r)) ==> forall i :: m <= i < n ==> !Cappable(items[i], latest, inLatest))
  }

  lemma {:induction false} StubToTargetAt(cfg: Config, items: seq<Item>, total: int, fixedChars: nat, latest: int,
                                          inLatest: bool, n: nat) returns (m: nat)
    requires n <= |items| && total == fixedChars + Sum(items)
    ensures var r := StubToTarget(items, total, cfg.Target(), latest, inLatest, n);
            r.total == fixedChars + Sum(r.items) && StubbedUpTo(cfg, items, r.items, fixedChars, latest, inLatest, n, m)
  {
    if n == 0 {
      m := 0;
    } else {
      m := StubToTargetAt(cfg, items, total, fixedChars, latest, inLatest, n - 1);
      var p := StubToTarget(items, total, cfg.Target(), latest, inLatest, n - 1);
      if p.total > cfg.Target() && Cappable(items[n - 1], latest, inLatest) {
        m := StubbedOneMore(cfg, items, p.items, fixedChars, latest, inLatest, n, m);
      } else {
        StubbedNoMore(cfg, items, p.items, fixedChars, latest, inLatest, n, m);
      }
    }
  }

  lemma {:induction false} StubbedNoMore(cfg: Config, items: seq<Item>, p: seq<Item>, fixedChars: nat, latest: int,
                                         inLatest: bool, n: nat, m: nat)
    requires 0 < n <= |items| && StubbedUpTo(cfg, items, p, fixedChars, latest, inLatest, n - 1, m)
    requires !Cappable(items[n - 1], latest, inLatest) || !AboveTarget(cfg, fixedChars + Sum(p))
    ensures StubbedUpTo(cfg, items, p, fixedChars, latest, inLatest, n, m)
  {
  }

  lemma {:induction false} StubbedOneMore(cfg: Config, items: seq<Item>, p: seq<Item>, fixedChars: nat, latest: int,
                                          inLatest: bool, n: nat, m: nat) returns (k: nat)
    requires 0 < n <= |items| && StubbedUpTo(cfg, items, p, fixedChars, latest, inLatest, n - 1, m)
    requires Cappable(items[n - 1], latest, inLatest) && AboveTarget(cfg, fixedChars + Sum(p))
    ensures var r := p[n - 1 := items[n - 1].Stub()];
            && Sum(r) == Sum(p) - items[n - 1].chars + items[n - 1].Stub().chars
            && StubbedUpTo(cfg, items, r, fixedChars, latest, inLatest, n, k)
  {
    var r := p[n - 1 := items[n - 1].Stub()];
    k := n;
    StubOne(p, n - 1);
    assert r[n - 1 := items[n - 1]] == p;
  }

  // The items without the k oldest history turns.
  function WithoutOldest(items: seq<Item>, k: nat): (r: seq<Item>) {
    if items == [] || k == 0 then items
    else if items[0].kind.History? then WithoutOldest(items[1..], k - 1)
    else [items[0]] + WithoutOldest(items[1..], k)
  }

  lemma {:induction false} WithoutOldestNext(items: seq<Item>, k: nat)
    requires FirstHistory(items) < |items|
    ensures WithoutOldest(items, k + 1) == WithoutOldest(Without(items, FirstHistory(items)), k)
  {
    var i := FirstHistory(items);
    if i == 0 {
      assert Without(items, 0) == items[1..];
    } else {
      WithoutOldestNext(items[1..], k);
      assert Without(items, i) == [items[0]] + Without(items[1..], i - 1);
      assert Without(items, i)[1..] == Without(items[1..], i - 1);
    }
  }

  // The k oldest history turns go: the last of them was needed to reach the target, and none is left above it.
  ghost predicate DroppedUpTo(cfg: Config, items: seq<Item>, r: seq<Item>, fixedChars: nat, k: nat) {
    && r == WithoutOldest(items, k)
    && (k > 0 ==> AboveTarget(cfg, fixedChars + Sum(WithoutOldest(items, k - 1))))
    && (AboveTarget(cfg, fixedChars + Sum(r)) ==> Histories(r) == [])
  }

  lemma {:induction false} DroppedOneMore(cfg: Config, items: seq<Item>, r: seq<Item>, fixedChars: nat, j: nat)
    requires FirstHistory(items) < |items| && AboveTarget(cfg, fixedChars + Sum(items))
    requires DroppedUpTo(cfg, Without(items, FirstHistory(items)), r, fixedChars, j)
    ensures DroppedUpTo(cfg, items, r, fixedChars, j + 1)
  {
    WithoutOldestNext(items, j);
    if j > 0 {
      WithoutOldestNext(items, j - 1);
    } else {
      assert WithoutOldest(items, 0) == items;
    }
  }

  lemma {:induction false} DropHistoryAt(cfg: Config, items: seq<Item>, total: int, fixedChars: nat) returns (k: nat)
    requires total == fixedChars + Sum(items)
    ensures DroppedUpTo(cfg, items, DropHistory(items, total, cfg.Target()), fixedChars, k)
    decreases |items|
  {
    var i := FirstHistory(items);
    if total <= cfg.Target() || i == |items| {
      k := 0;
      NoHistories(items);
    } else {
      WithoutHistory(items);
      var j := DropHistoryAt(cfg, Without(items, i), total - items[i].chars, fixedChars);
      DroppedOneMore(cfg, items, DropHistory(items, total, cfg.Target()), fixedChars, j);
      k := j + 1;
    }
  }

  lemma {:induction false} HardStubbedAt(cfg: Config, items: seq<Item>, fixedChars: nat, latest: int) returns (i: nat)
    ensures StubbedUpTo(cfg, items, HardStubbed(cfg, items, fixedChars, latest), fixedChars, latest, false, |items|, i)
  {
    i := StubToTargetAt(cfg, items, fixedChars + Sum(items), fixedChars, latest, false, |items|);
  }

  lemma {:induction false} DroppedAt(cfg: Config, items: seq<Item>, fixedChars: nat) returns (k: nat)
    ensures DroppedUpTo(cfg, items, Dropped(cfg, items, fixedChars), fixedChars, k)
  {
    k := DropHistoryAt(cfg, items, fixedChars + Sum(items), fixedChars);
  }

  lemma {:induction false} ResortedAt(cfg: Config, items: seq<Item>, fixedChars: nat, latest: int) returns (j: nat)
    ensures StubbedUpTo(cfg, items, Resorted(cfg, items, fixedChars, latest), fixedChars, latest, true, Newest(items, latest), j)
  {
    j := StubToTargetAt(cfg, items, fixedChars + Sum(items), fixedChars, latest, true, Newest(items, latest));
  }

  // Outputs of earlier hops are stubbed first, then history is dropped, then the latest hop's outputs are stubbed but
  // for the newest; each oldest first, and each as long as the total is above three quarters of the limit and no longer.
  lemma {:induction false} CapStages(cfg: Config, rolled: seq<Item>, fixedChars: nat, latest: int)
    returns (a: seq<Item>, b: seq<Item>, i: nat, k: nat, j: nat)
    ensures StubbedUpTo(cfg, rolled, a, fixedChars, latest, false, |rolled|, i)
    ensures DroppedUpTo(cfg, a, b, fixedChars, k)
    ensures StubbedUpTo(cfg, b, Capped(cfg, rolled, fixedChars, latest), fixedChars, latest, true, Newest(b, latest), j)
  {
    a := HardStubbed(cfg, rolled, fixedChars, latest);
    b := Dropped(cfg, a, fixedChars);
    i := HardStubbedAt(cfg, rolled, fixedChars, latest);
    k := DroppedAt(cfg, a, fixedChars);
    j := ResortedAt(cfg, b, fixedChars, latest);
  }

  // A fit within the limit, at four characters a token, is the rolling pass alone. Above it the stages follow.
  lemma {:induction false} FitStages(cfg: Config, items: seq<Item>, fixedChars: nat)
    returns (a: seq<Item>, b: seq<Item>, i: nat, k: nat, j: nat)
    ensures cfg.LimitChars() == 4 * cfg.maxInputTokens
    ensures fixedChars + Sum(Rolled(cfg, items)) <= 4 * cfg.maxInputTokens ==>
              Fitted(cfg, items, fixedChars) == Rolled(cfg, items)
    ensures fixedChars + Sum(Rolled(cfg, items)) > 4 * cfg.maxInputTokens ==>
              var rolled, latest := Rolled(cfg, items), LatestHop(items);
              && StubbedUpTo(cfg, rolled, a, fixedChars, latest, false, |rolled|, i)
              && DroppedUpTo(cfg, a, b, fixedChars, k)
              && StubbedUpTo(cfg, b, Fitted(cfg, items, fixedChars), fixedChars, latest, true, Newest(b, latest), j)
  {
    a, b, i, k, j := CapStages(cfg, Rolled(cfg, items), fixedChars, LatestHop(items));
  }

  // The newest whole output of the latest hop outlives the last stage.
  lemma {:induction false} NewestOutputStays(cfg: Config, items: seq<Item>, fixedChars: nat, latest: int, j: nat)
    requires j < |items| && (items[j].kind.Output? || items[j].kind.Image?) && !items[j].kind.stubbed
    requires items[j].Hop() == latest
    requires forall i :: j < i < |items| && (items[i].kind.Output? || items[i].kind.Image?) && !items[i].kind.stubbed ==>
               items[i].Hop() != latest
    ensures Newest(items, latest) == j
    ensures var r := Resorted(cfg, items, fixedChars, latest); j < |r| && r[j] == items[j]
  {
    NewestIs(items, latest, j);
  }

  // A stub keeps the call it answers, and says how much was there.
  lemma {:induction false} StubKeepsCall(x: Item)
    requires x.Trimmable()
    ensures var y := x.Stub();
            && y.id == x.id && y.callId == x.callId && y.Hop() == x.Hop() && y.Stubbed()
            && y.kind.Output? == x.kind.Output? && y.kind.toolLen == x.kind.toolLen
            && y.chars == |"[tool output trimmed: "| + x.kind.toolLen + 1 + Digits(x.chars) + |" chars]"|
  {
  }

  // A stub is never longer than an output of 100 characters or more exactly when the tool name is at most
  // 67 characters long; the comment on HARD_CAP_STUB_MIN_CHARS says it without that condition.
  lemma {:induction false} StubSavesIffNameShort(toolLen: nat)
    ensures (forall chars: nat :: chars >= HARD_CAP_STUB_MIN_CHARS ==> StubLength(toolLen, chars) <= chars)
            <==> toolLen <= 67
  {
    assert Digits(100) == 3 by {
      assert Digits(100) == 1 + Digits(10) && Digits(10) == 1 + Digits(1);
    }
    assert StubLength(toolLen, 100) == 33 + toolLen;
    forall chars: nat | toolLen <= 67 && chars >= HARD_CAP_STUB_MIN_CHARS ensures StubLength(toolLen, chars) <= chars {
      DigitsSmall(chars);
    }
  }

  // The stub of a 100-character output of a tool with a 68-letter name is longer than the output.
  lemma {:induction false} LongNameStubIsLonger()
    ensures StubLength(68, HARD_CAP_STUB_MIN_CHARS) == HARD_CAP_STUB_MIN_CHARS + 1
  {
    assert Digits(100) == 1 + Digits(10) && Digits(10) == 1 + Digits(1);
  }

  lemma {:induction false} DigitsSmall(n: nat)
    ensures n >= 100 ==> Digits(n) <= n - 97
    ensures n >= 10 ==> Digits(n) <= n - 8
    ensures n < 10 ==> Digits(n) == 1
  {
    if n >= 10 {
      DigitsSmall(n / 10);
    }
  }

  ghost predicate ShortNames(items: seq<Item>) {
    forall i :: 0 <= i < |items| && items[i].Trimmable() ==> items[i].kind.toolLen <= 67
  }

  lemma {:induction false} StubShrinks(items: seq<Item>, i: nat)
    requires i < |items| && ShortNames(items) && items[i].Trimmable() && items[i].chars >= HARD_CAP_STUB_MIN_CHARS
    ensures var r := items[i := items[i].Stub()]; Sum(r) <= Sum(items) && ShortNames(r)
  {
    StubOne(items, i);
    StubSavesIffNameShort(items[i].kind.toolLen);
  }

  lemma {:induction false} StubOldestShrinks(items: seq<Item>, excess: int, latest: int, n: nat)
    requires n <= |items| && ShortNames(items)
    ensures var r := StubOldest(items, excess, latest, n).items; Sum(r) <= Sum(items) && ShortNames(r)
  {
    if n > 0 {
      StubOldestShrinks(items, excess, latest, n - 1);
      var p := StubOldest(items, excess, latest, n - 1);
      if p.excess > 0 && Large(items[n - 1]) && items[n - 1].Hop() != latest {
        StubShrinks(p.items, n - 1);
      }
    }
  }

  lemma {:induction false} StubToTargetShrinks(items: seq<Item>, total: int, target: int, latest: int, inLatest: bool, n: nat)
    requires n <= |items| && ShortNames(items)
    ensures var r := StubToTarget(items, total, target, latest, inLatest, n).items; Sum(r) <= Sum(items) && ShortNames(r)
  {
    if n > 0 {
      StubToTargetShrinks(items, total, target, latest, inLatest, n - 1);
      var p := StubToTarget(items, total, target, latest, inLatest, n - 1);
      if p.total > target && Eligible(items[n - 1], latest, inLatest) {
        StubShrinks(p.items, n - 1);
      }
    }
  }

  lemma {:induction false} DropHistoryShrinks(items: seq<Item>, total: int, target: int)
    requires ShortNames(items)
    ensures var r := DropHistory(items, total, target); Sum(r) <= Sum(items) && ShortNames(r)
    decreases |items|
  {
    var i := FirstHistory(items);
    if total > target && i < |items| {
      WithoutHistory(items);
      DropHistoryShrinks(Without(items, i), total - items[i].chars, target);
    }
  }

  lemma {:induction false} RolledShrinks(cfg: Config, items: seq<Item>)
    requires ShortNames(items)
    ensures Sum(Rolled(cfg, items)) <= Sum(items) && ShortNames(Rolled(cfg, items))
  {
    StubOldestShrinks(items, LargeCount(items) - cfg.keepRecent, LatestHop(items), |items|);
  }

  lemma {:induction false} HardStubbedShrinks(cfg: Config, items: seq<Item>, fixedChars: nat, latest: int)
    requires ShortNames(items)
    ensures var r := HardStubbed(cfg, items, fixedChars, latest); Sum(r) <= Sum(items) && ShortNames(r)
  {
    StubToTargetShrinks(items, fixedChars + Sum(items), cfg.Target(), latest, false, |items|);
  }

  lemma {:induction false} DroppedShrinks(cfg: Config, items: seq<Item>, fixedChars: nat)
    requires ShortNames(items)
    ensures var r := Dropped(cfg, items, fixedChars); Sum(r) <= Sum(items) && ShortNames(r)
  {
    DropHistoryShrinks(items, fixedChars + Sum(items), cfg.Target());
  }

  lemma {:induction false} ResortedShrinks(cfg: Config, items: seq<Item>, fixedChars: nat, latest: int)
    requires ShortNames(items)
    ensures Sum(Resorted(cfg, items, fixedChars, latest)) <= Sum(items)
  {
    StubToTargetShrinks(items, fixedChars + Sum(items), cfg.Target(), latest, true, Newest(items, latest));
  }

  lemma {:induction false} CappedShrinks(cfg: Config, items: seq<Item>, fixedChars: nat, latest: int)
    requires ShortNames(items)
    ensures Sum(Capped(cfg, items, fixedChars, latest)) <= Sum(items)
  {
    var hard := HardStubbed(cfg, items, fixedChars, latest);
    HardStubbedShrinks(cfg, items, fixedChars, latest);
    DroppedShrinks(cfg, hard, fixedChars);
    ResortedShrinks(cfg, Dropped(cfg, hard, fixedChars), fixedChars, latest);
  }

  // With tool names of at most 67 characters a fit never makes a conversation longer.
  lemma {:induction false} FitNeverGrows(cfg: Config, items: seq<Item>, fixedChars: nat)
    requires ShortNames(items)
    ensures Sum(Fitted(cfg, items, fixedChars)) <= Sum(items)
  {
    RolledShrinks(cfg, items);
    CappedShrinks(cfg, Rolled(cfg, items), fixedChars, LatestHop(items));
  }

  // With a longer name one can: an output of a hundred characters in an earlier hop, above the limit.
  lemma {:induction false} FitMayGrow(toolLen: nat, keepRecent: nat) returns (cfg: Config, items: seq<Item>)
    requires toolLen > 67
    ensures Sum(Fitted(cfg, items, 0)) > Sum(items)
  {
    var output, call := Item(0, 0, Output(0, toolLen, false), 100), Item(1, 1, Call(1), 0);
    cfg, items := Config(1, keepRecent), [output, call];
    var stubbed := [output.Stub(), call];
    OneStubbed(output, call, cfg);
    assert Digits(100) == 1 + Digits(10) && Digits(10) == 1 + Digits(1);
    SumOfTwo(output, call);
    SumOfTwo(output.Stub(), call);
    StubbedStays(output.Stub(), call, cfg);
  }

  lemma {:induction false} SumOfTwo(a: Item, b: Item)
    ensures Sum([a, b]) == a.chars + b.chars && LatestHop([a, b]) == (if a.Hop() > LatestHop([b]) then a.Hop() else LatestHop([b]))
    ensures LatestHop([b]) == (if b.Hop() > -1 then b.Hop() else -1)
    ensures LargeCount([a, b]) == (if Large(a) then 1 else 0) + (if Large(b) then 1 else 0)
  {
    assert [a, b][1..] == [b] && [b][1..] == [];
    assert Sum([b]) == b.chars + Sum([]) && LatestHop([]) == -1 && LargeCount([b]) == (if Large(b) then 1 else 0) + LargeCount([]);
  }

  // The rolling pass leaves the two alone, and the hard cap stubs the first.
  lemma {:induction false} OneStubbed(output: Item, call: Item, cfg: Config)
    requires Eligible(output, 1, false) && output.chars == 100 && output.Hop() == 0 && call.kind == Call(1) && call.chars == 0
    requires cfg.maxInputTokens == 1
    ensures LatestHop([output, call]) == 1 && Rolled(cfg, [output, call]) == [output, call]
    ensures HardStubbed(cfg, [output, call], 0, 1) == [output.Stub(), call]
  {
    var items := [output, call];
    SumOfTwo(output, call);
    assert StubToTarget(items, 100, 3, 1, false, 0) == Capping(items, 100);
    assert StubToTarget(items, 100, 3, 1, false, 1).items == items[0 := output.Stub()];
    assert StubToTarget(items, 100, 3, 1, false, 2).items == [output.Stub(), call];
  }

  lemma {:induction false} StubbedStays(stub: Item, call: Item, cfg: Config)
    requires stub.Stubbed() && call.kind == Call(1)
    ensures Dropped(cfg, [stub, call], 0) == [stub, call] && Resorted(cfg, [stub, call], 0, 1) == [stub, call]
  {
    var items := [stub, call];
    assert FirstHistory(items) == 2 by {
      assert items[1..][1..] == [];
    }
    assert Newest(items, 1) == 2;
    StubToTargetIdle(items, 0 + Sum(items), cfg.Target(), 1, true, 2);
  }

  // ---- fit ----------------------------------------------------------------------------------

  class Conversation {
    var items: seq<Item>

    constructor (items: seq<Item>)
      ensures this.items == items
    {
      this.items := items;
    }
  }

  datatype Outcome =
    | Fits(stubbed: nat, dropped: nat, estimatedTokens: nat)
    | TooLarge(estimatedTokens: nat)

  function EstimateTokens(chars: nat): (t: nat)
    ensures (t - 1) * CHARS_PER_TOKEN < chars <= t * CHARS_PER_TOKEN
  {
    (chars + CHARS_PER_TOKEN - 1) / CHARS_PER_TOKEN
  }

  class ToolLoopContext {
    const cfg: Config

    constructor (maxInputTokens: nat, keepRecent: nat)
      ensures cfg == Config(maxInputTokens, keepRecent)
    {
      cfg := Config(maxInputTokens, keepRecent);
    }

    method RollingPass(input: Conversation, latest: int, excess0: nat) returns (stubbed: nat)
      modifies input
      ensures input.items == StubOldest(old(input.items), excess0, latest, |old(input.items)|).items
      ensures stubbed == StubbedCount(input.items) - StubbedCount(old(input.items))
    {
      ghost var was := input.items;
      var i, excess: int := 0, excess0;
      stubbed := 0;
      while i < |input.items|
        invariant 0 <= i <= |was|
        invariant Rolling(input.items, excess) == StubOldest(was, excess0, latest, i)
        invariant stubbed == StubbedCount(input.items) - StubbedCount(was)
        decreases |was| - i
      {
        if excess <= 0 {
          RollingDone(was, excess0, latest, i, |was|);
          break;
        }
        var item := input.items[i];
        if Large(item) && item.Hop() != latest {
          StubOne(input.items, i);
          input.items := input.items[i := item.Stub()];
          stubbed := stubbed + 1;
          excess := excess - 1;
        }
        i := i + 1;
      }
    }

    static lemma {:induction false} RollingDone(items: seq<Item>, excess: int, latest: int, i: nat, n: nat)
      requires i <= n <= |items| && StubOldest(items, excess, latest, i).excess <= 0
      ensures StubOldest(items, excess, latest, n) == StubOldest(items, excess, latest, i)
    {
      if i < n {
        RollingDone(items, excess, latest, i, n - 1);
      }
    }

    // One hard-cap pass over the first n items.
    method CapPass(input: Conversation, n: nat, total0: int, latest: int, inLatest: bool)
      returns (total: int, stubbed: nat)
      requires n <= |input.items|
      modifies input
      ensures Capping(input.items, total)
           == StubToTarget(old(input.items), total0, cfg.Target(), latest, inLatest, n)
      ensures total - Sum(input.items) == total0 - Sum(old(input.items))
      ensures stubbed == StubbedCount(input.items) - StubbedCount(old(input.items))
    {
      ghost var was := input.items;
      var i := 0;
      total, stubbed := total0, 0;
      while i < n
        invariant 0 <= i <= n <= |was|
        invariant Capping(input.items, total) == StubToTarget(was, total0, cfg.Target(), latest, inLatest, i)
        invariant total - Sum(input.items) == total0 - Sum(was)
        invariant stubbed == StubbedCount(input.items) - StubbedCount(was)
      {
        if total <= cfg.Target() {
          CappingDone(was, total0, cfg.Target(), latest, inLatest, i, n);
          break;
        }
        var item := input.items[i];
        if Eligible(item, latest, inLatest) {
          StubOne(input.items, i);
          input.items := input.items[i := item.Stub()];
          total := total - (item.chars - item.Stub().chars);
          stubbed := stubbed + 1;
        }
        i := i + 1;
      }
    }

    static lemma {:induction false} CappingDone(items: seq<Item>, total: int, target: int, latest: int, inLatest: bool,
                                                i: nat, n: nat)
      requires i <= n <= |items| && StubToTarget(items, total, target, latest, inLatest, i).total <= target
      ensures StubToTarget(items, total, target, latest, inLatest, n)
           == StubToTarget(items, total, target, latest, inLatest, i)
    {
      if i < n {
        CappingDone(items, total, target, latest, inLatest, i, n - 1);
      }
    }

    method DropPass(input: Conversation, total0: int) returns (total: int, dropped: nat)
      modifies input
      ensures input.items == DropHistory(old(input.items), total0, cfg.Target())
      ensures total == total0 - Sum(old(input.items)) + Sum(input.items)
      ensures dropped == |old(input.items)| - |input.items|
      ensures StubbedCount(input.items) == StubbedCount(old(input.items))
    {
      ghost var was := input.items;
      total, dropped := total0, 0;
      while total > cfg.Target()
        invariant DropHistory(input.items, total, cfg.Target()) == DropHistory(was, total0, cfg.Target())
        invariant total == total0 - Sum(was) + Sum(input.items)
        invariant |input.items| + dropped == |was|
        invariant StubbedCount(input.items) == StubbedCount(was)
        decreases |input.items|
      {
        var index := FirstHistory(input.items);
        if index == |input.items| {
          break;
        }
        WithoutHistory(input.items);
        total := total - input.items[index].chars;
        input.items := Without(input.items, index);
        dropped := dropped + 1;
      }
    }

    method EarlierHops(input: Conversation, fixedChars: nat, latest: int) returns (total: int, stubbed: nat)
      modifies input
      ensures input.items == HardStubbed(cfg, old(input.items), fixedChars, latest)
      ensures total == fixedChars + Sum(input.items)
      ensures stubbed == StubbedCount(input.items) - StubbedCount(old(input.items))
    {
      total, stubbed := CapPass(input, |input.items|, fixedChars + Sum(input.items), latest, false);
    }

    method LatestOutputs(input: Conversation, fixedChars: nat, latest: int, total0: int) returns (total: int, stubbed: nat)
      requires total0 == fixedChars + Sum(input.items)
      modifies input
      ensures input.items == Resorted(cfg, old(input.items), fixedChars, latest)
      ensures total == fixedChars + Sum(input.items)
      ensures stubbed == StubbedCount(input.items) - StubbedCount(old(input.items))
    {
      total, stubbed := CapPass(input, Newest(input.items, latest), total0, latest, true);
    }

    method HardCap(input: Conversation, fixedChars: nat, latest: int)
      returns (total: int, stubbed: nat, dropped: nat)
      modifies input
      ensures input.items == Capped(cfg, old(input.items), fixedChars, latest)
      ensures total == fixedChars + Sum(input.items)
      ensures stubbed == StubbedCount(input.items) - StubbedCount(old(input.items))
      ensures dropped == |old(input.items)| - |input.items|
    {
      total, stubbed := EarlierHops(input, fixedChars, latest);
      total, dropped := DropPass(input, total);
      var more;
      total, more := LatestOutputs(input, fixedChars, latest, total);
      stubbed := stubbed + more;
    }

    method Roll(input: Conversation, latest: int) returns (stubbed: nat)
      requires latest == LatestHop(input.items)
      modifies input
      ensures input.items == Rolled(cfg, old(input.items))
      ensures stubbed == StubbedCount(input.items) - StubbedCount(old(input.items))
      ensures |input.items| == |old(input.items)|
    {
      stubbed := 0;
      if LargeCount(input.items) > cfg.keepRecent * 2 {
        stubbed := RollingPass(input, latest, LargeCount(input.items) - cfg.keepRecent);
      }
    }

    method Fit(input: Conversation, fixedChars: nat) returns (outcome: Outcome)
      modifies input
      ensures input.items == Fitted(cfg, old(input.items), fixedChars)
      ensures outcome.TooLarge? <==> fixedChars + Sum(input.items) > cfg.LimitChars()
      ensures outcome.estimatedTokens == EstimateTokens(fixedChars + Sum(input.items))
      ensures outcome.Fits? ==> outcome.dropped == |old(input.items)| - |input.items|
                                && outcome.stubbed == StubbedCount(input.items) - StubbedCount(old(input.items))
    {
      var latest := LatestHop(input.items);
      var dropped := 0;
      var stubbed := Roll(input, latest);
      var total: int := fixedChars + Sum(input.items);
      if total > cfg.LimitChars() {
        var more;
        total, more, dropped := HardCap(input, fixedChars, latest);
        stubbed := stubbed + more;
      }
      outcome := if total > cfg.LimitChars() then TooLarge(EstimateTokens(total))
                 else Fits(stubbed, dropped, EstimateTokens(total));
    }
  }

  // ---- the Anthropic form -------------------------------------------------------------------

  // A user message that carries only tool results, or any other message. Result blocks are marked as outputs.
  datatype Message = Results(blocks: seq<Item>) | Single(item: Item)

  function Flatten(messages: seq<Message>): (items: seq<Item>) {
    if messages == [] then []
    else (match messages[0]
          case Results(blocks) => blocks
          case Single(item) => [item]) + Flatten(messages[1..])
  }

  ghost predicate DistinctIds(items: seq<Item>) {
    forall i, j :: 0 <= i < j < |items| ==> items[i].id != items[j].id
  }

  ghost predicate NoHistoryInResults(messages: seq<Message>) {
    forall m, b :: m in messages && m.Results? && b in m.blocks ==> !b.kind.History?
  }

  // The object with this identity as the fit left it, if the fit kept it.
  function Find(items: seq<Item>, id: nat): (i: nat)
    ensures i <= |items| && (i < |items| ==> items[i].id == id)
    ensures forall j :: 0 <= j < i ==> items[j].id != id
  {
    if items == [] || items[0].id == id then 0 else 1 + Find(items[1..], id)
  }

  function Current(items: seq<Item>, x: Item): (y: Item) {
    var i := Find(items, x.id);
    if i < |items| then items[i] else x
  }

  function CurrentBlocks(items: seq<Item>, blocks: seq<Item>): (r: seq<Item>)
    ensures |r| == |blocks|
    ensures forall i :: 0 <= i < |blocks| ==> r[i] == Current(items, blocks[i])
  {
    seq(|blocks|, i requires 0 <= i < |blocks| => Current(items, blocks[i]))
  }

  // Result messages always stay; any other message stays if the fit kept its item.
  function Retained(messages: seq<Message>, fitted: seq<Item>): (r: seq<Message>) {
    if messages == [] then []
    else
      var rest := Retained(messages[1..], fitted);
      match messages[0]
      case Results(blocks) => [Results(CurrentBlocks(fitted, blocks))] + rest
      case Single(item) => if Find(fitted, item.id) < |fitted| then [Single(Current(fitted, item))] + rest else rest
  }

  lemma {:induction false} TrimsSplit(a: seq<Item>, b: seq<Item>, c: seq<Item>)
    requires Trims(a + b, c) && forall x :: x in a ==> !x.kind.History?
    ensures |a| <= |c| && Trims(b, c[|a|..])
    ensures forall i :: 0 <= i < |a| ==> SameOrStub(a[i], c[i])
  {
    if a == [] {
      assert a + b == b && c[0..] == c;
    } else {
      assert (a + b)[1..] == a[1..] + b;
      assert a[0] in a;
      TrimsSplit(a[1..], b, c[1..]);
      assert c[1..][|a| - 1..] == c[|a|..];
    }
  }

  ghost predicate HasId(items: seq<Item>, id: nat) {
    exists x :: x in items && x.id == id
  }

  lemma {:induction false} TrimsIds(a: seq<Item>, b: seq<Item>, id: nat)
    requires Trims(a, b) && HasId(b, id)
    ensures HasId(a, id)
  {
    if a != [] {
      if b != [] && SameOrStub(a[0], b[0]) && Trims(a[1..], b[1..]) {
        if b[0].id != id {
          TrimsIds(a[1..], b[1..], id);
        } else {
          assert a[0] in a;
        }
      } else {
        TrimsIds(a[1..], b, id);
      }
    }
  }

  lemma {:induction false} TrimsLacks(a: seq<Item>, b: seq<Item>, id: nat)
    requires Trims(a, b) && !HasId(a, id)
    ensures !HasId(b, id)
  {
    if HasId(b, id) {
      TrimsIds(a, b, id);
    }
  }

  // Looking an object of `items` up in `fitted` finds it.
  ghost predicate Finds(fitted: seq<Item>, items: seq<Item>) {
    forall y :: y in items ==> Find(fitted, y.id) < |fitted| && fitted[Find(fitted, y.id)] == y
  }

  // What looking up the objects of the messages may find.
  ghost predicate FindsOnly(fitted: seq<Item>, messages: seq<Message>, items: seq<Item>) {
    forall x :: x in Flatten(messages) && Find(fitted, x.id) < |fitted| ==> HasId(items, x.id)
  }

  ghost predicate Apart(a: seq<Item>, b: seq<Item>) {
    forall x, y :: x in a && y in b ==> x.id != y.id
  }

  // Every object appears once.
  ghost predicate Once(messages: seq<Message>) {
    messages != [] ==> Apart(Flatten(messages[..1]), Flatten(messages[1..])) && Once(messages[1..])
  }

  lemma {:induction false} FlattenFirst(messages: seq<Message>)
    requires messages != []
    ensures Flatten(messages) == Flatten(messages[..1]) + Flatten(messages[1..])
    ensures Flatten(messages[..1]) == match messages[0] case Results(blocks) => blocks case Single(item) => [item]
  {
    assert messages[..1][1..] == [];
    assert Flatten(messages[..1][1..]) == [];
  }

  lemma {:induction false} FindsOnlyRest(fitted: seq<Item>, messages: seq<Message>, after: seq<Item>, n: nat)
    requires messages != [] && n <= |after| && Once(messages) && FindsOnly(fitted, messages, after)
    requires forall i :: 0 <= i < n ==> HasId(Flatten(messages[..1]), after[i].id)
    ensures FindsOnly(fitted, messages[1..], after[n..])
  {
    FlattenFirst(messages);
    forall x | x in Flatten(messages[1..]) && Find(fitted, x.id) < |fitted| ensures HasId(after[n..], x.id) {
      forall i | 0 <= i < n ensures after[i].id != x.id {
        ApartIds(Flatten(messages[..1]), Flatten(messages[1..]), after[i].id, x);
      }
      var y :| y in after && y.id == x.id;
      var i :| 0 <= i < |after| && after[i] == y;
      assert after[n..][i - n] == y;
    }
  }

  lemma {:induction false} ApartIds(a: seq<Item>, b: seq<Item>, id: nat, x: Item)
    requires Apart(a, b) && HasId(a, id) && x in b
    ensures x.id != id
  {
  }

  // Regrouping what the fit kept gives back exactly the kept items, so every tool result is still there, in its
  // message, and only history messages are gone.
  lemma {:induction false} RetainedIsFitted(messages: seq<Message>, after: seq<Item>, fitted: seq<Item>)
    requires Trims(Flatten(messages), after) && NoHistoryInResults(messages) && Once(messages)
    requires Finds(fitted, after) && FindsOnly(fitted, messages, after)
    ensures Flatten(Retained(messages, fitted)) == after
  {
    if messages != [] {
      match messages[0] {
        case Results(blocks) =>
          RetainedResults(messages, blocks, after, fitted);
          RetainedIsFitted(messages[1..], after[|blocks|..], fitted);
          RegroupResults(messages, blocks, after, fitted);
        case Single(item) =>
          var n := RetainedSingle(messages, item, after, fitted);
          RetainedIsFitted(messages[1..], after[n..], fitted);
          RegroupSingle(messages, item, after, fitted, n);
      }
    }
  }

  lemma {:induction false} RegroupResults(messages: seq<Message>, blocks: seq<Item>, after: seq<Item>, fitted: seq<Item>)
    requires messages != [] && messages[0] == Results(blocks) && |blocks| <= |after|
    requires Flatten(Retained(messages[1..], fitted)) == after[|blocks|..]
    requires CurrentBlocks(fitted, blocks) == after[..|blocks|]
    ensures Flatten(Retained(messages, fitted)) == after
  {
    var rest := Retained(messages[1..], fitted);
    FlattenCons(Results(CurrentBlocks(fitted, blocks)), rest);
    assert after == after[..|blocks|] + after[|blocks|..];
  }

  lemma {:induction false} RegroupSingle(messages: seq<Message>, item: Item, after: seq<Item>, fitted: seq<Item>, n: nat)
    requires messages != [] && messages[0] == Single(item) && n <= |after| && n <= 1
    requires Flatten(Retained(messages[1..], fitted)) == after[n..]
    requires n == 1 <==> Find(fitted, item.id) < |fitted|
    requires n == 1 ==> Current(fitted, item) == after[0]
    ensures Flatten(Retained(messages, fitted)) == after
  {
    var rest := Retained(messages[1..], fitted);
    if n == 1 {
      FlattenCons(Single(Current(fitted, item)), rest);
      assert after == [after[0]] + after[1..];
    }
  }

  lemma {:induction false} FlattenCons(first: Message, rest: seq<Message>)
    ensures Flatten([first] + rest)
         == (match first case Results(blocks) => blocks case Single(item) => [item]) + Flatten(rest)
  {
    assert ([first] + rest)[1..] == rest;
  }

  lemma {:induction false} BlocksFound(blocks: seq<Item>, after: seq<Item>, fitted: seq<Item>)
    requires |blocks| <= |after| && Finds(fitted, after)
    requires forall i :: 0 <= i < |blocks| ==> SameOrStub(blocks[i], after[i])
    ensures CurrentBlocks(fitted, blocks) == after[..|blocks|]
    ensures forall i :: 0 <= i < |blocks| ==> HasId(blocks, after[i].id)
  {
    forall i | 0 <= i < |blocks| ensures CurrentBlocks(fitted, blocks)[i] == after[i] && HasId(blocks, after[i].id) {
      assert after[i] in after && blocks[i] in blocks;
    }
  }

  lemma {:induction false} RetainedResults(messages: seq<Message>, blocks: seq<Item>, after: seq<Item>, fitted: seq<Item>)
    requires messages != [] && messages[0] == Results(blocks)
    requires Trims(Flatten(messages), after) && NoHistoryInResults(messages) && Once(messages)
    requires Finds(fitted, after) && FindsOnly(fitted, messages, after)
    ensures |blocks| <= |after| && Trims(Flatten(messages[1..]), after[|blocks|..])
    ensures CurrentBlocks(fitted, blocks) == after[..|blocks|]
    ensures Finds(fitted, after[|blocks|..]) && FindsOnly(fitted, messages[1..], after[|blocks|..])
  {
    FlattenFirst(messages);
    assert messages[0] in messages;
    TrimsSplit(blocks, Flatten(messages[1..]), after);
    BlocksFound(blocks, after, fitted);
    FindsOnlyRest(fitted, messages, after, |blocks|);
  }

  lemma {:induction false} RetainedSingle(messages: seq<Message>, item: Item, after: seq<Item>, fitted: seq<Item>) returns (n: nat)
    requires messages != [] && messages[0] == Single(item)
    requires Trims(Flatten(messages), after) && NoHistoryInResults(messages) && Once(messages)
    requires Finds(fitted, after) && FindsOnly(fitted, messages, after)
    ensures n <= |after| && n <= 1 && Trims(Flatten(messages[1..]), after[n..])
    ensures n == 1 <==> Find(fitted, item.id) < |fitted|
    ensures n == 1 ==> Current(fitted, item) == after[0]
    ensures Finds(fitted, after[n..]) && FindsOnly(fitted, messages[1..], after[n..])
  {
    FlattenFirst(messages);
    var rest := Flatten(messages[1..]);
    assert Flatten(messages)[1..] == rest;
    if after != [] && SameOrStub(item, after[0]) && Trims(rest, after[1..]) {
      n := 1;
      assert after[0] in after && item in Flatten(messages[..1]);
    } else {
      n := 0;
      assert after[0..] == after;
      assert item in Flatten(messages[..1]) && item in Flatten(messages);
      assert HasId(Flatten(messages[..1]), item.id);
      forall x | x in rest ensures x.id != item.id {
        ApartIds(Flatten(messages[..1]), rest, item.id, x);
      }
      TrimsLacks(rest, after, item.id);
    }
    FindsOnlyRest(fitted, messages, after, n);
  }

  lemma {:induction false} DistinctApart(a: seq<Item>, b: seq<Item>)
    requires DistinctIds(a + b)
    ensures Apart(a, b) && DistinctIds(b)
  {
    forall x, y | x in a && y in b ensures x.id != y.id {
      var i :| 0 <= i < |a| && a[i] == x;
      var j :| 0 <= j < |b| && b[j] == y;
      assert (a + b)[i] == x && (a + b)[|a| + j] == y;
    }
    forall i, j | 0 <= i < j < |b| ensures b[i].id != b[j].id {
      assert (a + b)[|a| + i] == b[i] && (a + b)[|a| + j] == b[j];
    }
  }

  lemma {:induction false} DistinctIsOnce(messages: seq<Message>)
    requires DistinctIds(Flatten(messages))
    ensures Once(messages)
  {
    if messages != [] {
      FlattenFirst(messages);
      DistinctApart(Flatten(messages[..1]), Flatten(messages[1..]));
      DistinctIsOnce(messages[1..]);
    }
  }

  lemma {:induction false} TrimsDistinct(a: seq<Item>, b: seq<Item>)
    requires Trims(a, b) && DistinctIds(a)
    ensures DistinctIds(b)
  {
    if a != [] {
      if b != [] && SameOrStub(a[0], b[0]) && Trims(a[1..], b[1..]) {
        TrimsDistinct(a[1..], b[1..]);
        forall j | 1 <= j < |b| ensures b[0].id != b[j].id {
          assert b[j] in b[1..];
          TrimsIds(a[1..], b[1..], b[j].id);
        }
      } else {
        TrimsDistinct(a[1..], b);
      }
    }
  }

  lemma {:induction false} DistinctFinds(items: seq<Item>)
    requires DistinctIds(items)
    ensures Finds(items, items)
  {
  }

  lemma {:induction false} RetainedFits(messages: seq<Message>, fitted: seq<Item>)
    requires Trims(Flatten(messages), fitted) && NoHistoryInResults(messages) && DistinctIds(Flatten(messages))
    ensures Flatten(Retained(messages, fitted)) == fitted
  {
    DistinctIsOnce(messages);
    TrimsDistinct(Flatten(messages), fitted);
    DistinctFinds(fitted);
    forall x | x in Flatten(messages) && Find(fitted, x.id) < |fitted| ensures HasId(fitted, x.id) {
      assert fitted[Find(fitted, x.id)] in fitted;
    }
    RetainedIsFitted(messages, fitted, fitted);
  }

  class Thread {
    var messages: seq<Message>

    constructor (messages: seq<Message>)
      ensures this.messages == messages
    {
      this.messages := messages;
    }
  }

  // The messages with their objects as the fit left them; none is gone.
  function Refresh(m: Message, fitted: seq<Item>): (r: Message) {
    match m
    case Results(blocks) => Results(CurrentBlocks(fitted, blocks))
    case Single(item) => Single(Current(fitted, item))
  }

  function Refreshed(messages: seq<Message>, fitted: seq<Item>): (r: seq<Message>)
    ensures |r| == |messages| && forall i :: 0 <= i < |messages| ==> r[i] == Refresh(messages[i], fitted)
  {
    seq(|messages|, i requires 0 <= i < |messages| => Refresh(messages[i], fitted))
  }

  lemma {:induction false} CurrentIsSameOrStub(a: seq<Item>, b: seq<Item>, x: Item)
    requires Trims(a, b) && DistinctIds(a) && x in a
    ensures SameOrStub(x, Current(b, x))
  {
    var i := Find(b, x.id);
    if i < |b| {
      OriginOf(a, b, i, x);
    }
  }

  // What a trim left under an identity is the object of that identity, or its stub.
  lemma {:induction false} OriginOf(a: seq<Item>, b: seq<Item>, i: nat, x: Item)
    requires Trims(a, b) && DistinctIds(a) && x in a && i < |b| && b[i].id == x.id
    ensures SameOrStub(x, b[i])
  {
    if b != [] && SameOrStub(a[0], b[0]) && Trims(a[1..], b[1..]) {
      if i == 0 {
        assert a[0].id == x.id;
        assert x == a[0];
      } else {
        assert b[i] == b[1..][i - 1];
        TrimsIds(a[1..], b[1..], x.id);
        LaterOnly(a, x);
        OriginOf(a[1..], b[1..], i - 1, x);
      }
    } else {
      assert b[i] in b;
      TrimsIds(a[1..], b, x.id);
      LaterOnly(a, x);
      OriginOf(a[1..], b, i, x);
    }
  }

  lemma {:induction false} LaterOnly(a: seq<Item>, x: Item)
    requires DistinctIds(a) && x in a && HasId(a[1..], x.id)
    ensures x in a[1..] && DistinctIds(a[1..])
  {
    var y :| y in a[1..] && y.id == x.id;
    var j :| 0 <= j < |a[1..]| && a[1..][j] == y;
    assert a[j + 1] == y;
  }

  // After a fit that failed every message is still there, history included, and each object in it is as it was or
  // stubbed.
  lemma {:induction false} RefreshedKeepsAll(messages: seq<Message>, fitted: seq<Item>, i: nat)
    requires Trims(Flatten(messages), fitted) && DistinctIds(Flatten(messages)) && i < |messages|
    ensures match messages[i]
            case Results(blocks) =>
              forall j :: 0 <= j < |blocks| ==> SameOrStub(blocks[j], Refreshed(messages, fitted)[i].blocks[j])
            case Single(item) => SameOrStub(item, Refreshed(messages, fitted)[i].item)
  {
    var all := Flatten(messages);
    match messages[i] {
      case Results(blocks) =>
        forall j | 0 <= j < |blocks| ensures SameOrStub(blocks[j], Refreshed(messages, fitted)[i].blocks[j]) {
          InFlat(messages, i, blocks[j]);
          CurrentIsSameOrStub(all, fitted, blocks[j]);
        }
      case Single(item) =>
        InFlat(messages, i, item);
        CurrentIsSameOrStub(all, fitted, item);
    }
  }

  lemma {:induction false} InFlat(messages: seq<Message>, i: nat, x: Item)
    requires i < |messages| && (match messages[i] case Results(blocks) => x in blocks case Single(item) => x == item)
    ensures x in Flatten(messages)
  {
    if i > 0 {
      InFlat(messages[1..], i - 1, x);
    }
  }

  // The objects are trimmed in place before the fit can fail; the message list is spliced only when it succeeds.
  method FitMessages(context: ToolLoopContext, thread: Thread, fixedChars: nat) returns (outcome: Outcome)
    requires DistinctIds(Flatten(thread.messages)) && NoHistoryInResults(thread.messages)
    modifies thread
    ensures outcome.TooLarge? <==>
      fixedChars + Sum(Fitted(context.cfg, Flatten(old(thread.messages)), fixedChars)) > context.cfg.LimitChars()
    ensures outcome.Fits? ==>
      Flatten(thread.messages) == Fitted(context.cfg, Flatten(old(thread.messages)), fixedChars)
    ensures thread.messages ==
      (if outcome.Fits?
       then Retained(old(thread.messages), Fitted(context.cfg, Flatten(old(thread.messages)), fixedChars))
       else Refreshed(old(thread.messages), Fitted(context.cfg, Flatten(old(thread.messages)), fixedChars)))
  {
    ghost var was := thread.messages;
    var items := new Conversation(Flatten(thread.messages));
    outcome := context.Fit(items, fixedChars);
    thread.messages := Refreshed(thread.messages, items.items);
    if outcome.Fits? {
      Splice(was, thread, items.items);
      ghost var k := FitTrims(context.cfg, Flatten(was), fixedChars);
      RetainedFits(was, items.items);
    }
  }

  // Keeps the result messages, and the others whose item the fit kept.
  method Splice(ghost was: seq<Message>, thread: Thread, fitted: seq<Item>)
    requires thread.messages == Refreshed(was, fitted)
    modifies thread
    ensures thread.messages == Retained(was, fitted)
  {
    var retained: seq<Message> := [];
    var i := |thread.messages|;
    while i > 0
      invariant 0 <= i <= |was| && thread.messages == Refreshed(was, fitted)
      invariant retained == Retained(was[i..], fitted)
    {
      i := i - 1;
      assert was[i..][1..] == was[i + 1..];
      var m := thread.messages[i];
      if m.Results? || Find(fitted, m.item.id) < |fitted| {
        retained := [m] + retained;
      }
    }
    assert was[0..] == was;
    thread.messages := retained;
  }
}
