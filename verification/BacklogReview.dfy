// The model's review of the suggestion backlog: the order, the batches and the accounting of `BacklogTriage.judge`,
// and the rotation that its stamps bring about over many passes. src/backlog-triage.js.

module BacklogReview {
  import opened Sorting

  datatype Option<T> = None | Some(value: T)

  // reviewedAt: when a model last judged it. age: in days, or none when the date is unreadable and counts as oldest.
  datatype Candidate = Candidate(id: nat, reviewedAt: Option<int>, age: Option<int>)

  predicate Older(a: Option<int>, b: Option<int>) {
    b.Some? && (a.None? || a.value > b.value)
  }

  // Untouched first, then least recently reviewed, then oldest.
  predicate Before(a: Candidate, b: Candidate) {
    if a.reviewedAt.None? || b.reviewedAt.None? then
      (a.reviewedAt.None? && b.reviewedAt.Some?) || (a.reviewedAt.None? && b.reviewedAt.None? && Older(a.age, b.age))
    else
      a.reviewedAt.value < b.reviewedAt.value || (a.reviewedAt.value == b.reviewedAt.value && Older(a.age, b.age))
  }

  function Ordered(candidates: seq<Candidate>): (r: seq<Candidate>)
    ensures multiset(r) == multiset(candidates) && |r| == |candidates|
  {
    var r := StableSort(candidates, Before);
    assert |multiset(r)| == |r| && |multiset(candidates)| == |candidates|;
    r
  }

  // ---- one batch ----------------------------------------------------------------------------

  datatype Verdict = Dismiss | Keep | Unsure

  // One element of the model's reply, as far as it can be read.
  datatype Reply = Reply(i: int, verdict: Option<Verdict>, confidence: Option<real>, reasonLength: nat)

  predicate Usable(r: Reply, n: nat) {
    && 0 <= r.i < n && r.verdict.Some? && r.reasonLength >= 8
    && r.confidence.Some? && 0.0 <= r.confidence.value <= 1.0
  }

  datatype Judged = Judged(resolutions: seq<Candidate>, keeps: seq<Candidate>, deferrals: seq<Candidate>)

  const NOTHING: Judged := Judged([], [], [])

  function Joined(a: Judged, b: Judged): (r: Judged) {
    Judged(a.resolutions + b.resolutions, a.keeps + b.keeps, a.deferrals + b.deferrals)
  }

  predicate Retires(r: Reply, minConfidence: real)
    requires r.verdict.Some? && r.confidence.Some?
  {
    r.verdict.value.Dismiss? && r.confidence.value >= minConfidence
  }

  function Filed(j: Judged, c: Candidate, r: Reply, minConfidence: real): (k: Judged)
    requires r.verdict.Some? && r.confidence.Some?
  {
    if Retires(r, minConfidence) then j.(resolutions := j.resolutions + [c])
    else if r.verdict.value.Keep? then j.(keeps := j.keeps + [c])
    else j.(deferrals := j.deferrals + [c])
  }

  // What the replies have filed so far, and the indexes they have used.
  datatype Reading = Reading(judged: Judged, seen: set<int>)

  function Read(batch: seq<Candidate>, replies: seq<Reply>, minConfidence: real): (r: Reading)
  {
    if replies == [] then Reading(NOTHING, {})
    else
      var p, reply := Read(batch, replies[..|replies| - 1], minConfidence), replies[|replies| - 1];
      if !Usable(reply, |batch|) || reply.i in p.seen then p
      else Reading(Filed(p.judged, batch[reply.i], reply, minConfidence), p.seen + {reply.i})
  }

  // Items the model left out are deferred.
  function WithMissing(r: Reading, batch: seq<Candidate>, n: nat): (j: Judged)
    requires n <= |batch|
  {
    if n == 0 then r.judged
    else
      var j := WithMissing(r, batch, n - 1);
      if n - 1 in r.seen then j else j.(deferrals := j.deferrals + [batch[n - 1]])
  }

  function JudgeBatch(batch: seq<Candidate>, replies: seq<Reply>, minConfidence: real): (j: Judged) {
    WithMissing(Read(batch, replies, minConfidence), batch, |batch|)
  }

  function All(j: Judged): (r: multiset<Candidate>) {
    multiset(j.resolutions) + multiset(j.keeps) + multiset(j.deferrals)
  }

  // The items of the batch at these indexes.
  function ItemsAt(batch: seq<Candidate>, indexes: set<int>, n: nat): (r: multiset<Candidate>)
    requires n <= |batch|
  {
    if n == 0 then multiset{}
    else ItemsAt(batch, indexes, n - 1) + (if n - 1 in indexes then multiset{batch[n - 1]} else multiset{})
  }

  lemma {:induction false} ItemsAtBeyond(batch: seq<Candidate>, indexes: set<int>, i: nat, n: nat)
    requires n <= |batch| && n <= i
    ensures ItemsAt(batch, indexes + {i}, n) == ItemsAt(batch, indexes, n)
  {
    if n > 0 {
      ItemsAtBeyond(batch, indexes, i, n - 1);
    }
  }

  lemma {:induction false} ItemsAtMore(batch: seq<Candidate>, indexes: set<int>, i: nat, n: nat)
    requires i < n <= |batch| && i !in indexes
    ensures ItemsAt(batch, indexes + {i}, n) == ItemsAt(batch, indexes, n) + multiset{batch[i]}
  {
    if i == n - 1 {
      ItemsAtBeyond(batch, indexes, i, n - 1);
    } else {
      ItemsAtMore(batch, indexes, i, n - 1);
      Swapped(ItemsAt(batch, indexes, n - 1), ItemsAt(batch, indexes + {i}, n - 1), multiset{batch[i]},
              if n - 1 in indexes then multiset{batch[n - 1]} else multiset{});
    }
  }

  lemma {:induction false} Swapped(a: multiset<Candidate>, more: multiset<Candidate>, b: multiset<Candidate>,
                                   c: multiset<Candidate>)
    requires more == a + b
    ensures more + c == (a + c) + b
  {
  }

  lemma {:induction false} ItemsAtNone(batch: seq<Candidate>, n: nat)
    requires n <= |batch|
    ensures ItemsAt(batch, {}, n) == multiset{}
  {
    if n > 0 {
      ItemsAtNone(batch, n - 1);
    }
  }

  lemma {:induction false} ReadFiles(batch: seq<Candidate>, replies: seq<Reply>, minConfidence: real)
    ensures var r := Read(batch, replies, minConfidence);
            && (forall i :: i in r.seen ==> 0 <= i < |batch|)
            && All(r.judged) == ItemsAt(batch, r.seen, |batch|)
  {
    if replies == [] {
      ItemsAtNone(batch, |batch|);
    } else {
      var p, reply := Read(batch, replies[..|replies| - 1], minConfidence), replies[|replies| - 1];
      ReadFiles(batch, replies[..|replies| - 1], minConfidence);
      if Usable(reply, |batch|) && reply.i !in p.seen {
        ItemsAtMore(batch, p.seen, reply.i, |batch|);
        FiledAdds(p.judged, batch[reply.i], reply, minConfidence);
      }
    }
  }

  lemma {:induction false} MissingFiles(r: Reading, batch: seq<Candidate>, n: nat)
    requires n <= |batch|
    ensures All(WithMissing(r, batch, n)) + ItemsAt(batch, r.seen, n) == All(r.judged) + multiset(batch[..n])
  {
    if n > 0 {
      var c, j := batch[n - 1], WithMissing(r, batch, n - 1);
      var filed, items, read, taken := All(j), ItemsAt(batch, r.seen, n - 1), All(r.judged), multiset(batch[..n - 1]);
      MissingFiles(r, batch, n - 1);
      AddEither(filed, items, read, taken, c);
      DeferredAdds(j, c);
      TakeAdds(batch, n);
    } else {
      assert batch[..0] == [];
    }
  }

  lemma {:induction false} AddEither(a: multiset<Candidate>, i: multiset<Candidate>, j: multiset<Candidate>,
                                     m: multiset<Candidate>, c: Candidate)
    requires a + i == j + m
    ensures a + (i + multiset{c}) == j + (m + multiset{c})
    ensures (a + multiset{c}) + i == j + (m + multiset{c})
  {
    var x := multiset{c};
    assert a + (i + x) == (a + i) + x && (a + x) + i == (a + i) + x;
    assert j + (m + x) == (j + m) + x;
  }

  lemma {:induction false} DeferredAdds(j: Judged, c: Candidate)
    ensures All(j.(deferrals := j.deferrals + [c])) == All(j) + multiset{c}
  {
  }

  lemma {:induction false} FiledAdds(j: Judged, c: Candidate, r: Reply, minConfidence: real)
    requires r.verdict.Some? && r.confidence.Some?
    ensures All(Filed(j, c, r, minConfidence)) == All(j) + multiset{c}
  {
  }

  lemma {:induction false} TakeAdds(batch: seq<Candidate>, n: nat)
    requires 0 < n <= |batch|
    ensures multiset(batch[..n]) == multiset(batch[..n - 1]) + multiset{batch[n - 1]}
  {
    assert batch[..n] == batch[..n - 1] + [batch[n - 1]];
  }

  lemma {:induction false} Cancel(a: multiset<Candidate>, b: multiset<Candidate>, c: multiset<Candidate>)
    requires a + c == c + b
    ensures a == b
  {
    assert a == (a + c) - c && b == (c + b) - c;
  }

  // Whatever the model returns, every item of the batch is filed exactly once.
  lemma {:induction false} EveryItemFiledOnce(batch: seq<Candidate>, replies: seq<Reply>, minConfidence: real)
    ensures All(JudgeBatch(batch, replies, minConfidence)) == multiset(batch)
  {
    var r := Read(batch, replies, minConfidence);
    ReadFiles(batch, replies, minConfidence);
    MissingFiles(r, batch, |batch|);
    assert batch[..|batch|] == batch;
    Cancel(All(JudgeBatch(batch, replies, minConfidence)), multiset(batch), All(r.judged));
  }

  // Only an explicit, confident and explained dismissal retires an item.
  lemma {:induction false} OnlyDismissalsRetire(batch: seq<Candidate>, replies: seq<Reply>, minConfidence: real, c: Candidate)
    requires c in JudgeBatch(batch, replies, minConfidence).resolutions
    ensures exists r :: r in replies && Usable(r, |batch|) && batch[r.i] == c && Retires(r, minConfidence)
  {
    MissingResolvesNothing(Read(batch, replies, minConfidence), batch, |batch|);
    ReadRetires(batch, replies, minConfidence, c);
  }

  lemma {:induction false} MissingResolvesNothing(r: Reading, batch: seq<Candidate>, n: nat)
    requires n <= |batch|
    ensures WithMissing(r, batch, n).resolutions == r.judged.resolutions
  {
    if n > 0 {
      MissingResolvesNothing(r, batch, n - 1);
    }
  }

  lemma {:induction false} ReadRetires(batch: seq<Candidate>, replies: seq<Reply>, minConfidence: real, c: Candidate)
    requires c in Read(batch, replies, minConfidence).judged.resolutions
    ensures exists r :: r in replies && Usable(r, |batch|) && batch[r.i] == c && Retires(r, minConfidence)
  {
    if replies != [] {
      var n := |replies| - 1;
      assert replies == replies[..n] + [replies[n]];
      if c in Read(batch, replies[..n], minConfidence).judged.resolutions {
        ReadRetires(batch, replies[..n], minConfidence, c);
      } else {
        assert replies[n] in replies;
      }
    }
  }

  // ---- where an item is filed ---------------------------------------------------------------

  // The first reply about item i that can be used: it gives a verdict, a confidence between 0 and 1, and a reason of at
  // least eight characters.
  function FirstUsable(replies: seq<Reply>, i: nat): (r: Option<Reply>) {
    if replies == [] then None
    else
      var earlier, last := FirstUsable(replies[..|replies| - 1], i), replies[|replies| - 1];
      if earlier.Some? then earlier
      else if last.i == i && last.verdict.Some? && last.confidence.Some? && 0.0 <= last.confidence.value <= 1.0
              && last.reasonLength >= 8
      then Some(last) else None
  }

  predicate Dismisses(r: Option<Reply>, minConfidence: real) {
    && r.Some? && r.value.verdict == Some(Dismiss) && r.value.confidence.Some?
    && r.value.confidence.value >= minConfidence
  }

  predicate Keeps(r: Option<Reply>) {
    r.Some? && r.value.verdict == Some(Keep)
  }

  // The place where this reply, or none, puts an item.
  ghost predicate FiledAs(j: Judged, c: Candidate, r: Option<Reply>, minConfidence: real) {
    if Dismisses(r, minConfidence) then c in j.resolutions else if Keeps(r) then c in j.keeps else c in j.deferrals
  }

  lemma {:induction false} ReadFilesAs(batch: seq<Candidate>, replies: seq<Reply>, minConfidence: real, i: nat)
    requires i < |batch|
    ensures var r, f := Read(batch, replies, minConfidence), FirstUsable(replies, i);
            (i in r.seen <==> f.Some?) && (f.Some? ==> FiledAs(r.judged, batch[i], f, minConfidence))
  {
    if replies != [] {
      ReadFilesAs(batch, replies[..|replies| - 1], minConfidence, i);
    }
  }

  lemma {:induction false} MissingFilesAs(r: Reading, batch: seq<Candidate>, n: nat, i: nat, f: Option<Reply>, minConfidence: real)
    requires i < |batch| && n <= |batch| && (i in r.seen <==> f.Some?)
    requires f.Some? ==> FiledAs(r.judged, batch[i], f, minConfidence)
    ensures f.Some? || i < n ==> FiledAs(WithMissing(r, batch, n), batch[i], f, minConfidence)
  {
    if n > 0 {
      MissingFilesAs(r, batch, n - 1, i, f, minConfidence);
    }
  }

  lemma {:induction false} BatchFilesAs(batch: seq<Candidate>, replies: seq<Reply>, minConfidence: real, i: nat)
    requires i < |batch|
    ensures FiledAs(JudgeBatch(batch, replies, minConfidence), batch[i], FirstUsable(replies, i), minConfidence)
  {
    ReadFilesAs(batch, replies, minConfidence, i);
    MissingFilesAs(Read(batch, replies, minConfidence), batch, |batch|, i, FirstUsable(replies, i), minConfidence);
  }

  // Filed in one place only.
  lemma {:induction false} FiledOnlyAs(j: Judged, items: seq<Candidate>, c: Candidate, r: Option<Reply>, minConfidence: real)
    requires All(j) == multiset(items) && multiset(items)[c] == 1 && FiledAs(j, c, r, minConfidence)
    ensures c in j.resolutions <==> Dismisses(r, minConfidence)
    ensures c in j.keeps <==> Keeps(r)
    ensures c in j.deferrals <==> !Dismisses(r, minConfidence) && !Keeps(r)
  {
    assert multiset(j.resolutions)[c] + multiset(j.keeps)[c] + multiset(j.deferrals)[c] == 1;
    assert c in j.resolutions <==> c in multiset(j.resolutions);
    assert c in j.keeps <==> c in multiset(j.keeps);
    assert c in j.deferrals <==> c in multiset(j.deferrals);
  }

  // Each item goes where the first usable reply about it says: a confident dismissal retires it, a keep keeps it, and
  // anything else, or no usable reply, defers it.
  lemma {:induction false} FirstUsableReplyFiles(batch: seq<Candidate>, replies: seq<Reply>, minConfidence: real, i: nat)
    requires i < |batch| && multiset(batch)[batch[i]] == 1
    ensures var j, f := JudgeBatch(batch, replies, minConfidence), FirstUsable(replies, i);
            && (batch[i] in j.resolutions <==> Dismisses(f, minConfidence))
            && (batch[i] in j.keeps <==> Keeps(f))
            && (batch[i] in j.deferrals <==> !Dismisses(f, minConfidence) && !Keeps(f))
  {
    EveryItemFiledOnce(batch, replies, minConfidence);
    BatchFilesAs(batch, replies, minConfidence, i);
    FiledOnlyAs(JudgeBatch(batch, replies, minConfidence), batch, batch[i], FirstUsable(replies, i), minConfidence);
  }

  // ---- all batches --------------------------------------------------------------------------

  // What happens to one batch: it is not sent, because time or money has run out or the provider fails, or the
  // model replies.
  datatype Attempt = NotSent | Replied(replies: seq<Reply>)

  datatype Settings = Settings(maxItems: nat, batchSize: nat, minConfidence: real)

  function Batch(sendable: seq<Candidate>, size: nat, b: nat): (r: seq<Candidate>)
    requires size > 0
  {
    var first, last := b * size, (b + 1) * size;
    if first >= |sendable| then [] else sendable[first..if last < |sendable| then last else |sendable|]
  }

  // The batches before the first one that is not sent, judged.
  function JudgedBefore(sendable: seq<Candidate>, s: Settings, attempts: seq<Attempt>, n: nat): (j: Judged)
    requires s.batchSize > 0 && n <= |attempts|
    requires forall b :: 0 <= b < n ==> attempts[b].Replied?
  {
    if n == 0 then NOTHING
    else Joined(JudgedBefore(sendable, s, attempts, n - 1),
                JudgeBatch(Batch(sendable, s.batchSize, n - 1), attempts[n - 1].replies, s.minConfidence))
  }

  function Sent(attempts: seq<Attempt>): (n: nat)
    ensures n <= |attempts| && forall b :: 0 <= b < n ==> attempts[b].Replied?
    ensures n < |attempts| ==> attempts[n].NotSent?
  {
    if attempts == [] || attempts[0].NotSent? then 0 else 1 + Sent(attempts[1..])
  }

  function Least(a: nat, b: nat): (r: nat) {
    if a < b then a else b
  }

  lemma {:induction false} JoinedFiles(a: Judged, b: Judged)
    ensures All(Joined(a, b)) == All(a) + All(b)
  {
  }

  // The items of the first n batches.
  function FirstBatches(sendable: seq<Candidate>, size: nat, n: nat): (r: seq<Candidate>) {
    sendable[..Least(n * size, |sendable|)]
  }

  lemma {:induction false} BatchExtends(sendable: seq<Candidate>, size: nat, n: nat)
    requires size > 0
    ensures FirstBatches(sendable, size, n + 1) == FirstBatches(sendable, size, n) + Batch(sendable, size, n)
    ensures FirstBatches(sendable, size, 0) == []
  {
    assert (n + 1) * size == n * size + size && 0 * size == 0;
  }

  lemma {:induction false} JoinedFilesBoth(a: Judged, b: Judged, first: seq<Candidate>, second: seq<Candidate>,
                                           both: seq<Candidate>)
    requires All(a) == multiset(first) && All(b) == multiset(second) && both == first + second
    ensures All(Joined(a, b)) == multiset(both)
  {
    JoinedFiles(a, b);
    assert multiset(first + second) == multiset(first) + multiset(second);
  }

  // The items of the batches that were sent are filed exactly once, and no other item is filed.
  lemma {:induction false} SentItemsFiledOnce(sendable: seq<Candidate>, s: Settings, attempts: seq<Attempt>, n: nat)
    requires s.batchSize > 0 && n <= |attempts|
    requires forall b :: 0 <= b < n ==> attempts[b].Replied?
    ensures All(JudgedBefore(sendable, s, attempts, n)) == multiset(FirstBatches(sendable, s.batchSize, n))
  {
    if n == 0 {
      BatchExtends(sendable, s.batchSize, 0);
      assert All(NOTHING) == multiset{};
    } else {
      var m := n - 1;
      var batch, before := Batch(sendable, s.batchSize, m), JudgedBefore(sendable, s, attempts, m);
      var judged := JudgeBatch(batch, attempts[m].replies, s.minConfidence);
      SentItemsFiledOnce(sendable, s, attempts, m);
      EveryItemFiledOnce(batch, attempts[m].replies, s.minConfidence);
      BatchExtends(sendable, s.batchSize, m);
      JoinedFilesBoth(before, judged, FirstBatches(sendable, s.batchSize, m), batch, FirstBatches(sendable, s.batchSize, n));
      assert JudgedBefore(sendable, s, attempts, n) == Joined(before, judged);
    }
  }

  lemma {:induction false} JudgedFilesAs(sendable: seq<Candidate>, s: Settings, attempts: seq<Attempt>, n: nat, b: nat, i: nat)
    requires s.batchSize > 0 && b < n <= |attempts| && (forall b :: 0 <= b < n ==> attempts[b].Replied?)
    requires i < |Batch(sendable, s.batchSize, b)|
    ensures FiledAs(JudgedBefore(sendable, s, attempts, n), Batch(sendable, s.batchSize, b)[i],
                    FirstUsable(attempts[b].replies, i), s.minConfidence)
  {
    if b == n - 1 {
      BatchFilesAs(Batch(sendable, s.batchSize, b), attempts[b].replies, s.minConfidence, i);
    } else {
      JudgedFilesAs(sendable, s, attempts, n - 1, b, i);
    }
  }

  lemma {:induction false} InFirstBatches(sendable: seq<Candidate>, size: nat, n: nat, b: nat, i: nat)
    requires size > 0 && b < n && i < |Batch(sendable, size, b)|
    ensures b * size + i < |FirstBatches(sendable, size, n)|
    ensures Batch(sendable, size, b)[i] == FirstBatches(sendable, size, n)[b * size + i] == sendable[b * size + i]
  {
    BatchEndsWithin(b, n, size);
    var first, last, within := b * size, (b + 1) * size, n * size;
    assert Batch(sendable, size, b) == sendable[first..Least(last, |sendable|)];
  }

  lemma {:induction false} BatchEndsWithin(b: nat, n: nat, size: nat)
    requires b < n
    ensures b * size + size == (b + 1) * size <= n * size
  {
    if b < n - 1 {
      BatchEndsWithin(b, n - 1, size);
    }
  }

  // The same for all that is sent: the i-th item of batch b is filed by the replies to that batch.
  lemma {:induction false} SentItemsFiledByReply(sendable: seq<Candidate>, s: Settings, attempts: seq<Attempt>, n: nat, b: nat,
                                                 i: nat)
    requires s.batchSize > 0 && b < n <= |attempts| && (forall b :: 0 <= b < n ==> attempts[b].Replied?)
    requires i < |Batch(sendable, s.batchSize, b)|
    requires DistinctIds(sendable)
    ensures b * s.batchSize + i < |sendable| && Batch(sendable, s.batchSize, b)[i] == sendable[b * s.batchSize + i]
    ensures var j, f, c := JudgedBefore(sendable, s, attempts, n), FirstUsable(attempts[b].replies, i),
                           Batch(sendable, s.batchSize, b)[i];
            && (c in j.resolutions <==> Dismisses(f, s.minConfidence))
            && (c in j.keeps <==> Keeps(f))
            && (c in j.deferrals <==> !Dismisses(f, s.minConfidence) && !Keeps(f))
  {
    var first, c := FirstBatches(sendable, s.batchSize, n), Batch(sendable, s.batchSize, b)[i];
    JudgedFilesAs(sendable, s, attempts, n, b, i);
    SentItemsFiledOnce(sendable, s, attempts, n);
    InFirstBatches(sendable, s.batchSize, n, b, i);
    DistinctOnce(first, c);
    assert c in first && c in multiset(first);
    FiledOnlyAs(JudgedBefore(sendable, s, attempts, n), first, c, FirstUsable(attempts[b].replies, i), s.minConfidence);
  }

  // ---- the budget ---------------------------------------------------------------------------

  function Total(costs: seq<real>): (r: real) {
    if costs == [] then 0.0 else Total(costs[..|costs| - 1]) + costs[|costs| - 1]
  }

  // How many batches fit in the allowance; with no budget, all of them.
  method TrimToBudget(costs: seq<real>, remaining: Option<real>, fraction: real) returns (n: nat)
    requires forall i :: 0 <= i < |costs| ==> costs[i] >= 0.0
    requires fraction >= 0.0
    ensures n <= |costs|
    ensures remaining.None? ==> n == |costs|
    ensures remaining.Some? ==>
              var allowance := (if remaining.value > 0.0 then remaining.value else 0.0) * fraction;
              forall k :: 0 <= k <= |costs| ==> (k <= n <==> Total(costs[..k]) <= allowance)
  {
    if remaining.None? {
      return |costs|;
    }
    var allowance := (if remaining.value > 0.0 then remaining.value else 0.0) * fraction;
    assert allowance >= 0.0;
    var spend := 0.0;
    for i := 0 to |costs|
      invariant spend == Total(costs[..i]) <= allowance
      invariant forall k :: 0 <= k <= i ==> Total(costs[..k]) <= allowance
    {
      assert costs[..i + 1][..i] == costs[..i];
      spend := spend + costs[i];
      if spend > allowance {
        TotalGrows(costs, i + 1);
        return i;
      }
    }
    return |costs|;
  }

  lemma {:induction false} TotalGrows(costs: seq<real>, n: nat)
    requires n <= |costs| && forall i :: 0 <= i < |costs| ==> costs[i] >= 0.0
    ensures forall k :: n <= k <= |costs| ==> Total(costs[..n]) <= Total(costs[..k])
  {
    var k := n;
    while k < |costs|
      invariant n <= k <= |costs| && forall j :: n <= j <= k ==> Total(costs[..n]) <= Total(costs[..j])
    {
      assert costs[..k + 1][..k] == costs[..k];
      k := k + 1;
    }
  }

  // ---- judging ------------------------------------------------------------------------------

  function Sendable(candidates: seq<Candidate>, s: Settings): (r: seq<Candidate>) {
    var ordered := Ordered(candidates);
    ordered[..Least(s.maxItems, |ordered|)]
  }

  method FileReplies(batch: seq<Candidate>, replies: seq<Reply>, minConfidence: real) returns (j: Judged, seen: set<int>)
    ensures Reading(j, seen) == Read(batch, replies, minConfidence)
  {
    j, seen := NOTHING, {};
    for i := 0 to |replies|
      invariant Reading(j, seen) == Read(batch, replies[..i], minConfidence)
    {
      var r := replies[i];
      assert replies[..i + 1][..i] == replies[..i];
      if Usable(r, |batch|) && r.i !in seen {
        seen := seen + {r.i};
        var item := batch[r.i];
        match r.verdict.value {
          case Dismiss =>
            if r.confidence.value < minConfidence {
              j := j.(deferrals := j.deferrals + [item]);
            } else {
              j := j.(resolutions := j.resolutions + [item]);
            }
          case Keep => j := j.(keeps := j.keeps + [item]);
          case Unsure => j := j.(deferrals := j.deferrals + [item]);
        }
      }
    }
    assert replies[..|replies|] == replies;
  }

  method FileBatch(batch: seq<Candidate>, replies: seq<Reply>, minConfidence: real) returns (j: Judged)
    ensures j == JudgeBatch(batch, replies, minConfidence)
  {
    var seen: set<int>;
    j, seen := FileReplies(batch, replies, minConfidence);
    for i := 0 to |batch|
      invariant j == WithMissing(Read(batch, replies, minConfidence), batch, i)
    {
      if i !in seen {
        j := j.(deferrals := j.deferrals + [batch[i]]);
      }
    }
  }

  // attempts tells what becomes of each batch; affordable is what the budget allows.
  method Judge(candidates: seq<Candidate>, s: Settings, attempts: seq<Attempt>, affordable: nat)
    returns (j: Judged, batches: nat)
    requires s.batchSize > 0 && affordable <= |attempts|
    ensures batches == Sent(attempts[..affordable])
    ensures j == JudgedBefore(Sendable(candidates, s), s, attempts, batches)
    ensures All(j) == multiset(FirstBatches(Sendable(candidates, s), s.batchSize, batches))
  {
    var sendable := Sendable(candidates, s);
    j, batches := NOTHING, 0;
    while batches < affordable
      invariant batches <= affordable && forall b :: 0 <= b < batches ==> attempts[b].Replied?
      invariant j == JudgedBefore(sendable, s, attempts, batches)
    {
      if attempts[batches].NotSent? {
        break;
      }
      var judged := FileBatch(Batch(sendable, s.batchSize, batches), attempts[batches].replies, s.minConfidence);
      j := Joined(j, judged);
      batches := batches + 1;
    }
    SentIs(attempts[..affordable], batches);
    SentItemsFiledOnce(sendable, s, attempts, batches);
  }

  lemma {:induction false} SentIs(attempts: seq<Attempt>, n: nat)
    requires n <= |attempts| && forall b :: 0 <= b < n ==> attempts[b].Replied?
    requires n < |attempts| ==> attempts[n].NotSent?
    ensures Sent(attempts) == n
  {
    if n > 0 {
      SentIs(attempts[1..], n - 1);
    }
  }

  // ---- rotation over passes -----------------------------------------------------------------

  // The pending ambiguous suggestions with their last review, and a time no later than any review still to come.
  datatype Backlog = Backlog(items: map<nat, Option<int>>, now: int)

  // One pass: the candidates as the directory lists them, with their ages of the day; how many were sent; how they
  // were judged; how many resolutions the rules made before; the ceiling; when each kept item was stamped, and when
  // the pass ended.
  datatype Pass = Pass(candidates: seq<Candidate>, sent: nat, judged: Judged, resolved: nat, ceiling: nat,
                       stamps: map<nat, int>, ended: int)

  function Ids(cs: seq<Candidate>): (r: set<nat>) {
    set c | c in cs :: c.id
  }

  ghost predicate DistinctIds(cs: seq<Candidate>) {
    forall i, j :: 0 <= i < j < |cs| ==> cs[i].id != cs[j].id
  }

  // The dismissals there is room for under the ceiling.
  function Applied(p: Pass): (r: seq<Candidate>) {
    p.judged.resolutions[..Least(|p.judged.resolutions|, if p.ceiling > p.resolved then p.ceiling - p.resolved else 0)]
  }

  // The dismissals that the ceiling cut off.
  function CutOff(p: Pass): (r: seq<Candidate>) {
    p.judged.resolutions[|Applied(p)|..]
  }

  // How many of the items that were sent the pass has done with.
  function Done(p: Pass): (n: int) {
    p.sent - |CutOff(p)|
  }

  function SentItems(p: Pass): (r: seq<Candidate>) {
    Ordered(p.candidates)[..Least(p.sent, |p.candidates|)]
  }

  ghost predicate Enabled(b: Backlog, p: Pass) {
    && DistinctIds(p.candidates) && p.sent <= |p.candidates|
    && (forall c :: c in p.candidates ==> c.id in b.items && c.reviewedAt == b.items[c.id])
    && (forall id :: id in b.items ==> exists c :: c in p.candidates && c.id == id)
    && All(p.judged) == multiset(SentItems(p))
    && (forall c :: c in p.judged.keeps + p.judged.deferrals ==> c.id in p.stamps)
    && (forall id :: id in p.stamps ==> b.now < p.stamps[id] <= p.ended) && b.now <= p.ended
  }

  function Stamped(p: Pass): (r: set<nat>) {
    Ids(p.judged.keeps + p.judged.deferrals)
  }

  function Next(b: Backlog, p: Pass): (r: Backlog)
  {
    var gone, stamped := Ids(Applied(p)), Stamped(p);
    Backlog(map id | id in b.items && id !in gone ::
              if id in stamped && id in p.stamps then Some(p.stamps[id]) else b.items[id], p.ended)
  }

  ghost predicate Run(b: Backlog, passes: seq<Pass>, last: Backlog)
    decreases |passes|
  {
    if passes == [] then last == b
    else Enabled(b, passes[0]) && Run(Next(b, passes[0]), passes[1..], last)
  }

  // Everything sent to the model in these passes.
  function EverSent(passes: seq<Pass>): (r: set<nat>) {
    if passes == [] then {} else Ids(SentItems(passes[0])) + EverSent(passes[1..])
  }

  // The dismissals that fit under the ceiling with what the rules resolved, the first of them.
  lemma {:induction false} AppliedFit(p: Pass)
    ensures var n := |Applied(p)|;
            && n <= |p.judged.resolutions| && Applied(p) == p.judged.resolutions[..n]
            && (n == 0 || p.resolved + n <= p.ceiling)
            && (n == |p.judged.resolutions| || p.resolved + n >= p.ceiling)
  {
  }

  // ---- no starvation ------------------------------------------------------------------------

  // The items of s were last reviewed by time t, if ever; all others after it.
  ghost predicate Waiting(b: Backlog, s: set<nat>, t: int) {
    && t <= b.now
    && (forall x :: x in b.items ==> if x in s then b.items[x].None? || b.items[x].value <= t
                                              else b.items[x].Some? && b.items[x].value > t)
  }

  lemma {:induction false} BeforeIsWeakOrder()
    ensures WeakOrder(Before)
  {
    forall a: Candidate, b: Candidate, c: Candidate | !Before(b, a) && !Before(c, b) ensures !Before(c, a) {
      OlderIsWeak(a.age, b.age, c.age);
    }
  }

  lemma {:induction false} OlderIsWeak(a: Option<int>, b: Option<int>, c: Option<int>)
    ensures !Older(b, a) && !Older(c, b) ==> !Older(c, a)
  {
  }

  // Never reviewed first, then the least recently reviewed, and the older of two alike.
  lemma {:induction false} OrderedBy(candidates: seq<Candidate>, i: nat, j: nat)
    requires i < j < |Ordered(candidates)|
    ensures var x, y := Ordered(candidates)[i], Ordered(candidates)[j];
            && (y.reviewedAt == None ==> x.reviewedAt == None)
            && (x.reviewedAt.Some? && y.reviewedAt.Some? ==> x.reviewedAt.value <= y.reviewedAt.value)
            && (x.reviewedAt == y.reviewedAt ==> x.age == None || (y.age.Some? && x.age.value >= y.age.value))
  {
    BeforeIsWeakOrder();
    StableSortSorted(candidates, Before);
  }

  // At most so many are sent, and those are the first.
  lemma {:induction false} SendableAreFirst(candidates: seq<Candidate>, s: Settings, i: nat)
    requires i < |Sendable(candidates, s)|
    ensures |Sendable(candidates, s)| == (if |candidates| < s.maxItems then |candidates| else s.maxItems)
    ensures i < |Ordered(candidates)| && Sendable(candidates, s)[i] == Ordered(candidates)[i]
  {
  }

  lemma {:induction false} SentIsFront(p: Pass, c: Candidate)
    requires p.sent <= |p.candidates| && c in p.candidates
    ensures c in SentItems(p) || forall d :: d in SentItems(p) ==> !Before(c, d)
  {
    var ordered := Ordered(p.candidates);
    BeforeIsWeakOrder();
    StableSortSorted(p.candidates, Before);
    SameElements(ordered, p.candidates);
    var i :| 0 <= i < |ordered| && ordered[i] == c;
    if i < p.sent {
      assert SentItems(p)[i] == c;
    }
  }

  // A waiting item is ahead of one reviewed since, so a pass sends nothing else before it has sent all of them.
  lemma {:induction false} WaitingGoFirst(b: Backlog, p: Pass, s: set<nat>, t: int, x: nat, y: nat)
    requires Waiting(b, s, t) && Enabled(b, p)
    requires x in s && x in b.items && x !in Ids(SentItems(p)) && y in Ids(SentItems(p))
    ensures y in s
  {
    var c :| c in p.candidates && c.id == x;
    var d :| d in SentItems(p) && d.id == y;
    SameElements(Ordered(p.candidates), p.candidates);
    assert d in Ordered(p.candidates);
    SentIsFront(p, c);
  }

  lemma {:induction false} StampedWasSent(b: Backlog, p: Pass, x: nat)
    requires Enabled(b, p) && (x in Stamped(p) || x in Ids(Applied(p)))
    ensures x in Ids(SentItems(p))
  {
    if x in Stamped(p) {
      var c :| c in p.judged.keeps + p.judged.deferrals && c.id == x;
      assert c in All(p.judged) && c in SentItems(p);
    } else {
      var c :| c in Applied(p) && c.id == x;
      assert c in p.judged.resolutions && c in All(p.judged) && c in SentItems(p);
    }
  }

  lemma {:induction false} DistinctOnce(cs: seq<Candidate>, c: Candidate)
    requires DistinctIds(cs)
    ensures multiset(cs)[c] <= 1
  {
    if cs != [] {
      DistinctOnce(cs[1..], c);
      assert cs == [cs[0]] + cs[1..];
    }
  }

  lemma {:induction false} PartDistinct(cs: seq<Candidate>, part: seq<Candidate>)
    requires DistinctIds(cs) && multiset(part) <= multiset(cs)
    ensures DistinctIds(part)
  {
    forall i, j | 0 <= i < j < |part| ensures part[i].id != part[j].id {
      DistinctOnce(cs, part[i]);
      assert part[i] in multiset(cs) && part[j] in multiset(cs);
      if part[i] == part[j] {
        OccursTwice(part, i, j);
      }
    }
  }

  lemma {:induction false} OccursTwice(cs: seq<Candidate>, i: nat, j: nat)
    requires i < j < |cs| && cs[i] == cs[j]
    ensures multiset(cs)[cs[i]] >= 2
  {
    assert cs == cs[..j] + [cs[j]] + cs[j + 1..];
    assert cs[..j] == cs[..i] + [cs[i]] + cs[i + 1..j];
  }

  lemma {:induction false} IdsSize(cs: seq<Candidate>)
    requires DistinctIds(cs)
    ensures |Ids(cs)| == |cs|
  {
    if cs != [] {
      var n := |cs| - 1;
      IdsSize(cs[..n]);
      assert cs == cs[..n] + [cs[n]];
      assert Ids(cs) == Ids(cs[..n]) + {cs[n].id};
    }
  }

  lemma {:induction false} SentSize(b: Backlog, p: Pass)
    requires Enabled(b, p)
    ensures |Ids(SentItems(p))| == p.sent
    ensures p.sent == |p.candidates| ==> b.items.Keys <= Ids(SentItems(p))
  {
    PartDistinct(p.candidates, Ordered(p.candidates));
    IdsSize(SentItems(p));
    if p.sent == |p.candidates| {
      assert SentItems(p) == Ordered(p.candidates);
      SameElements(Ordered(p.candidates), p.candidates);
    }
  }

  lemma {:induction false} WithoutPart(s: set<nat>, part: set<nat>)
    requires part <= s
    ensures |s - part| + |part| == |s|
  {
    assert s == (s - part) + part;
  }

  // Judged once each, the items sent are those the pass has done with and those cut off.
  lemma {:induction false} ResolvedPart(b: Backlog, p: Pass)
    requires Enabled(b, p)
    ensures DistinctIds(p.judged.resolutions) && Ids(p.judged.resolutions) <= Ids(SentItems(p))
  {
    var resolutions := p.judged.resolutions;
    assert multiset(resolutions) <= All(p.judged);
    PartDistinct(p.candidates, Ordered(p.candidates));
    PartDistinct(SentItems(p), resolutions);
    forall c | c in resolutions ensures c in SentItems(p) {
      assert c in multiset(resolutions);
      assert c in multiset(SentItems(p));
    }
  }

  lemma {:induction false} PartsApart(xs: seq<Candidate>, n: nat)
    requires n <= |xs| && DistinctIds(xs)
    ensures Ids(xs[n..]) !! Ids(xs[..n])
  {
    forall c, d | c in xs[n..] && d in xs[..n] ensures c.id != d.id {
      var i :| n <= i < |xs| && xs[i] == c;
      var j :| 0 <= j < n && xs[j] == d;
    }
  }

  lemma {:induction false} CutIsNotApplied(b: Backlog, p: Pass)
    requires Enabled(b, p)
    ensures Ids(CutOff(p)) !! Ids(Applied(p))
  {
    ResolvedPart(b, p);
    PartsApart(p.judged.resolutions, |Applied(p)|);
  }

  lemma {:induction false} CutSize(b: Backlog, p: Pass)
    requires Enabled(b, p)
    ensures Ids(CutOff(p)) <= Ids(SentItems(p)) && |Ids(SentItems(p)) - Ids(CutOff(p))| == Done(p)
  {
    ResolvedPart(b, p);
    IdsSize(CutOff(p));
    forall c | c in CutOff(p) ensures c.id in Ids(p.judged.resolutions) {
      assert c in p.judged.resolutions;
    }
    SentSize(b, p);
    WithoutPart(Ids(SentItems(p)), Ids(CutOff(p)));
  }

  lemma {:induction false} CutIsNotStamped(b: Backlog, p: Pass, x: nat)
    requires Enabled(b, p) && x in Ids(CutOff(p))
    ensures x !in Stamped(p)
  {
    var c :| c in CutOff(p) && c.id == x;
    assert c in p.judged.resolutions;
    assert c in All(p.judged);
    NotKept(b, p, c);
  }

  // What was sent and not cut off is stamped or gone.
  lemma {:induction false} SentIsDone(b: Backlog, p: Pass, x: nat)
    requires Enabled(b, p) && x in Ids(SentItems(p)) - Ids(CutOff(p)) && x !in Ids(Applied(p))
    ensures x in Stamped(p)
  {
    var c :| c in SentItems(p) && c.id == x;
    assert c in All(p.judged);
    assert c !in p.judged.resolutions by {
      assert p.judged.resolutions == Applied(p) + CutOff(p);
    }
    assert c in p.judged.keeps + p.judged.deferrals;
  }

  // What still waits after a pass that has not sent all that waited: all but what it has done with.
  lemma {:induction false} WaitingShrinks(b: Backlog, p: Pass, s: set<nat>, t: int)
    requires Waiting(b, s, t) && Enabled(b, p) && Ids(SentItems(p)) <= s
    ensures Waiting(Next(b, p), s - (Ids(SentItems(p)) - Ids(CutOff(p))), t)
  {
    var n, left := Next(b, p), s - (Ids(SentItems(p)) - Ids(CutOff(p)));
    forall x | x in n.items
      ensures if x in left then n.items[x].None? || n.items[x].value <= t else n.items[x].Some? && n.items[x].value > t
    {
      if x in Ids(SentItems(p)) - Ids(CutOff(p)) {
        SentIsDone(b, p, x);
      } else if x in Ids(CutOff(p)) {
        CutIsNotStamped(b, p, x);
      } else if x in Stamped(p) {
        StampedWasSent(b, p, x);
      }
    }
  }

  lemma {:induction false} StillThere(b: Backlog, p: Pass, s: set<nat>)
    requires Enabled(b, p) && s <= b.items.Keys
    ensures s - (Ids(SentItems(p)) - Ids(CutOff(p))) <= Next(b, p).items.Keys
  {
    CutIsNotApplied(b, p);
    forall x | x in s - (Ids(SentItems(p)) - Ids(CutOff(p))) ensures x in Next(b, p).items {
      if x in Ids(Applied(p)) {
        StampedWasSent(b, p, x);
      }
    }
  }

  lemma {:induction false} AllOrOnlyWaiting(b: Backlog, p: Pass, s: set<nat>, t: int)
    requires Waiting(b, s, t) && s <= b.items.Keys && Enabled(b, p)
    ensures s <= Ids(SentItems(p)) || Ids(SentItems(p)) <= s
  {
    if x :| x in s && x !in Ids(SentItems(p)) {
      forall y | y in Ids(SentItems(p)) ensures y in s {
        WaitingGoFirst(b, p, s, t, x, y);
      }
    }
  }

  // One pass: all that waited is sent, or as many fewer wait as it has done with.
  lemma {:induction false} WaitingStep(b: Backlog, p: Pass, s: set<nat>, t: int)
    requires Enabled(b, p) && Waiting(b, s, t) && s <= b.items.Keys
    ensures var left := s - (Ids(SentItems(p)) - Ids(CutOff(p)));
            s <= Ids(SentItems(p)) || (Waiting(Next(b, p), left, t) && left <= Next(b, p).items.Keys && |left| + Done(p) == |s|)
  {
    AllOrOnlyWaiting(b, p, s, t);
    if Ids(SentItems(p)) <= s {
      WaitingShrinks(b, p, s, t);
      StillThere(b, p, s);
      CutSize(b, p);
      WithoutPart(s, Ids(SentItems(p)) - Ids(CutOff(p)));
    }
  }

  function AllDone(passes: seq<Pass>): (n: int) {
    if passes == [] then 0 else Done(passes[0]) + AllDone(passes[1..])
  }

  predicate SendsAll(p: Pass) {
    p.sent == |p.candidates|
  }

  // The passes have done with n items, or one of them sends all there are.
  ghost predicate Enough(passes: seq<Pass>, n: int) {
    n <= AllDone(passes) || exists p :: p in passes && SendsAll(p)
  }

  lemma {:induction false} EnoughLater(passes: seq<Pass>, n: int)
    requires Enough(passes, n) && passes != [] && !SendsAll(passes[0])
    ensures Enough(passes[1..], n - Done(passes[0]))
  {
    if p :| p in passes && SendsAll(p) {
      assert p in passes[1..];
    }
  }

  lemma {:induction false} WaitingAreSent(b: Backlog, passes: seq<Pass>, last: Backlog, s: set<nat>, t: int)
    requires Run(b, passes, last) && Waiting(b, s, t) && s <= b.items.Keys && Enough(passes, |s|)
    ensures s <= EverSent(passes)
    decreases |passes|
  {
    if passes != [] {
      var p, rest := passes[0], passes[1..];
      var sent, left := Ids(SentItems(p)), s - (Ids(SentItems(p)) - Ids(CutOff(p)));
      WaitingStep(b, p, s, t);
      SentSize(b, p);
      if !(s <= sent) {
        EnoughLater(passes, |s|);
        WaitingAreSent(Next(b, p), rest, last, left, t);
      }
      Covered(s, sent, left, EverSent(rest));
    }
  }

  lemma {:induction false} Covered(s: set<nat>, first: set<nat>, left: set<nat>, rest: set<nat>)
    requires s <= first || (s - first <= left <= rest)
    ensures s <= first + rest
  {
  }

  // No starvation: from any backlog, in any window of passes that together have done with as many items as it holds,
  // or one of which sends all there are, every item is sent to the model, whatever the model answers, whatever the
  // ceiling cuts off, and however ages and directory order change. Windows may start anywhere, so this happens again
  // and again.
  lemma {:induction false} EveryItemIsReviewed(b: Backlog, passes: seq<Pass>, last: Backlog)
    requires Run(b, passes, last) && Enough(passes, |b.items|)
    requires forall x :: x in b.items && b.items[x].Some? ==> b.items[x].value <= b.now
    ensures b.items.Keys <= EverSent(passes)
  {
    assert |b.items.Keys| == |b.items|;
    WaitingAreSent(b, passes, last, b.items.Keys, b.now);
  }

  // So it takes n / m passes that each are done with m items.
  lemma {:induction false} RegularPassesSuffice(b: Backlog, passes: seq<Pass>, m: nat, last: Backlog)
    requires Run(b, passes, last) && |b.items| <= |passes| * m
    requires forall p :: p in passes ==> Done(p) >= m || SendsAll(p)
    requires forall x :: x in b.items && b.items[x].Some? ==> b.items[x].value <= b.now
    ensures b.items.Keys <= EverSent(passes)
  {
    if forall p :: p in passes ==> Done(p) >= m {
      AtLeastEach(passes, m);
    }
    EveryItemIsReviewed(b, passes, last);
  }

  lemma {:induction false} AtLeastEach(passes: seq<Pass>, m: nat)
    requires forall p :: p in passes ==> Done(p) >= m
    ensures AllDone(passes) >= |passes| * m
  {
    if passes != [] {
      assert passes[0] in passes;
      forall p | p in passes[1..] ensures Done(p) >= m {
        assert p in passes;
      }
      AtLeastEach(passes[1..], m);
      assert |passes| * m == (|passes| - 1) * m + m;
    }
  }

  lemma {:induction false} SentIdsDistinct(b: Backlog, p: Pass)
    requires Enabled(b, p)
    ensures DistinctIds(SentItems(p))
  {
    PartDistinct(p.candidates, Ordered(p.candidates));
  }

  lemma {:induction false} SameIdSame(cs: seq<Candidate>, c: Candidate, d: Candidate)
    requires DistinctIds(cs) && c in cs && d in cs && c.id == d.id
    ensures c == d
  {
  }

  lemma {:induction false} SentDistinct(b: Backlog, p: Pass, c: Candidate, d: Candidate)
    requires Enabled(b, p) && c in SentItems(p) && d in All(p.judged) && d.id == c.id
    ensures d == c && All(p.judged)[c] == 1
  {
    SentIdsDistinct(b, p);
    DistinctOnce(SentItems(p), c);
    assert d in multiset(SentItems(p));
    SameIdSame(SentItems(p), c, d);
  }

  lemma {:induction false} NotKept(b: Backlog, p: Pass, c: Candidate)
    requires Enabled(b, p) && c in SentItems(p) && c in p.judged.resolutions
    ensures c.id !in Stamped(p) && (c.id in Ids(Applied(p)) <==> c in Applied(p))
  {
    SentDistinct(b, p, c, c);
    forall d | d in p.judged.keeps + p.judged.deferrals ensures d.id != c.id {
      assert d in All(p.judged);
      if d.id == c.id {
        SentDistinct(b, p, c, d);
      }
    }
    forall d | d in Applied(p) && d.id == c.id ensures d == c {
      assert d in p.judged.resolutions && d in All(p.judged);
      SentDistinct(b, p, c, d);
    }
  }

  // An item that was sent stays as it was exactly when it was to be retired and the ceiling left no room for it.
  lemma {:induction false} CutIff(b: Backlog, p: Pass, c: Candidate)
    requires Enabled(b, p) && c in SentItems(p)
    requires c.id in b.items && (b.items[c.id].Some? ==> b.items[c.id].value <= b.now)
    ensures (c.id in Next(b, p).items && Next(b, p).items[c.id] == b.items[c.id])
        <==> c in p.judged.resolutions && c !in Applied(p)
  {
    if c in p.judged.resolutions {
      NotKept(b, p, c);
    } else {
      assert c in All(p.judged);
      assert c in p.judged.keeps + p.judged.deferrals;
      assert c.id in Stamped(p);
    }
  }

  // A pass over n items never reviewed, in the order of their ids, that sends and keeps all but the last.
  function AllButLast(n: nat): (p: Pass)
    requires n > 0
  {
    var cs := seq(n, i requires 0 <= i < n => Candidate(i, None, None));
    Pass(cs, n - 1, Judged([], cs[..n - 1], []), 0, 0, map id | id in Ids(cs) :: 1, 1)
  }

  function NeverReviewed(n: nat): (b: Backlog)
    requires n > 0
  {
    Backlog(map id | id in Ids(AllButLast(n).candidates) :: None, 0)
  }

  lemma {:induction false} AllButLastSends(n: nat)
    requires n > 0
    ensures var p := AllButLast(n);
            SentItems(p) == p.candidates[..n - 1] && DistinctIds(p.candidates) && n - 1 !in Ids(SentItems(p))
  {
    var p := AllButLast(n);
    assert Sorted(p.candidates, Before);
    StableSortOfSorted(p.candidates, Before);
  }

  lemma {:induction false} AllButLastEnabled(n: nat)
    requires n > 0
    ensures Enabled(NeverReviewed(n), AllButLast(n))
  {
    var p := AllButLast(n);
    AllButLastSends(n);
    assert All(p.judged) == multiset(p.candidates[..n - 1]);
    assert p.judged.keeps + p.judged.deferrals == p.candidates[..n - 1];
  }

  lemma {:induction false} SinglePass(b: Backlog, p: Pass)
    requires Enabled(b, p)
    ensures Run(b, [p], Next(b, p)) && AllDone([p]) == Done(p) && EverSent([p]) == Ids(SentItems(p))
  {
    assert [p][1..] == [] && Run(Next(b, p), [], Next(b, p));
    assert AllDone([p]) == Done(p) + AllDone([]) && EverSent([p]) == Ids(SentItems(p)) + EverSent([]);
  }

  lemma {:induction false} NeverReviewedSize(n: nat)
    requires n > 0
    ensures |NeverReviewed(n).items| == n && n - 1 in NeverReviewed(n).items
  {
    var p := AllButLast(n);
    AllButLastSends(n);
    IdsSize(p.candidates);
    assert NeverReviewed(n).items.Keys == Ids(p.candidates);
    assert p.candidates[n - 1].id == n - 1;
  }

  // The bound is sharp: passes that have done with one item fewer than there are may leave one unsent.
  lemma {:induction false} OneFewerMayMissOne(n: nat) returns (b: Backlog, passes: seq<Pass>, last: Backlog)
    requires n > 0
    ensures Run(b, passes, last) && |b.items| == n && AllDone(passes) == n - 1
    ensures exists x :: x in b.items && x !in EverSent(passes)
  {
    var p := AllButLast(n);
    b, passes, last := NeverReviewed(n), [p], Next(NeverReviewed(n), p);
    AllButLastEnabled(n);
    AllButLastSends(n);
    NeverReviewedSize(n);
    SinglePass(b, p);
    assert CutOff(p) == [];
  }

  const OLDER: Candidate := Candidate(0, None, Some(2))
  const YOUNGER: Candidate := Candidate(1, None, Some(1))

  lemma {:induction false} OlderFirst(p: Pass)
    requires p.candidates == [OLDER, YOUNGER] && p.sent == 1
    ensures SentItems(p) == [OLDER]
  {
    assert Sorted(p.candidates, Before);
    StableSortOfSorted(p.candidates, Before);
  }

  const CUT: Pass := Pass([OLDER, YOUNGER], 1, Judged([OLDER], [], []), 400, 400, map[], 0)
  const PAIR: Backlog := Backlog(map[0 := None, 1 := None], 0)

  lemma {:induction false} CutPass()
    ensures Enabled(PAIR, CUT) && Ids(SentItems(CUT)) == {0}
  {
    OlderFirst(CUT);
    CutListsPair();
    CutIsWellFormed();
    assert multiset(SentItems(CUT)) == multiset{OLDER};
  }

  lemma {:induction false} CutIsWellFormed()
    ensures DistinctIds(CUT.candidates)
    ensures forall c :: c in CUT.candidates ==> c.id in PAIR.items && c.reviewedAt == PAIR.items[c.id]
    ensures CUT.judged.keeps + CUT.judged.deferrals == []
  {
  }

  lemma {:induction false} CutListsPair()
    ensures All(CUT.judged) == multiset{OLDER}
    ensures forall id :: id in PAIR.items ==> exists c :: c in CUT.candidates && c.id == id
  {
    assert OLDER in CUT.candidates && YOUNGER in CUT.candidates;
  }

  lemma {:induction false} CutChangesNothing()
    ensures Next(PAIR, CUT) == PAIR
  {
    assert Applied(CUT) == [];
    assert Stamped(CUT) == {};
    assert Next(PAIR, CUT).items == PAIR.items;
  }

  lemma {:induction false} RepeatedPass(b: Backlog, p: Pass, passes: seq<Pass>)
    requires Enabled(b, p) && Next(b, p) == b && forall q :: q in passes ==> q == p
    ensures Run(b, passes, b) && EverSent(passes) <= Ids(SentItems(p))
    decreases |passes|
  {
    if passes != [] {
      assert passes[0] in passes;
      forall q | q in passes[1..] ensures q == p {
        assert q in passes;
      }
      RepeatedPass(b, p, passes[1..]);
    }
  }

  lemma {:induction false} NothingDone(passes: seq<Pass>)
    requires forall p :: p in passes ==> p == CUT
    ensures AllDone(passes) == 0
  {
    if passes != [] {
      assert passes[0] in passes;
      forall p | p in passes[1..] ensures p == CUT {
        assert p in passes;
      }
      NothingDone(passes[1..]);
      assert |CutOff(CUT)| == 1;
    }
  }

  // Then it goes on being sent first: with the ceiling used up by the rules, one item is sent in every pass and the
  // other never. These passes have done with nothing.
  lemma {:induction false} CeilingStarves(n: nat) returns (b: Backlog, passes: seq<Pass>)
    ensures |passes| == n && Run(b, passes, b) && b.items.Keys == {0, 1}
    ensures forall p :: p in passes ==> p.sent == 1 && p.resolved == p.ceiling
    ensures 1 !in EverSent(passes) && AllDone(passes) == 0
  {
    CutPass();
    CutChangesNothing();
    b, passes := PAIR, seq(n, i => CUT);
    RepeatedPass(b, CUT, passes);
    NothingDone(passes);
  }
}
