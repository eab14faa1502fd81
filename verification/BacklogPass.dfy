// One pass over the suggestion backlog from the rules through the model to the writes: `run` in src/backlog-triage.js.

module BacklogPass {
  import Rules = BacklogRules
  import Review = BacklogReview
  import Undo = BacklogUndo
  import CanonicalCycle

  function KeyOf(id: nat): (k: Undo.Key) {
    Undo.Key(Undo.Suggestion, id)
  }

  function RuleKeys(rs: seq<Rules.Resolution>): (r: seq<Undo.Key>)
    ensures |r| == |rs| && forall i :: 0 <= i < |rs| ==> r[i] == KeyOf(rs[i].s.id)
  {
    seq(|rs|, i requires 0 <= i < |rs| => KeyOf(rs[i].s.id))
  }

  function ModelKeys(cs: seq<Review.Candidate>): (r: seq<Undo.Key>)
    ensures |r| == |cs| && forall i :: 0 <= i < |cs| ==> r[i] == KeyOf(cs[i].id)
  {
    seq(|cs|, i requires 0 <= i < |cs| => KeyOf(cs[i].id))
  }

  // What the pass is to write: what the rules resolved, drafts included, and then what the model dismissed. It asks
  // the model about ambiguous suggestions only.
  ghost predicate Plans(p: Undo.Plan, t: Rules.Triage, drafts: seq<Undo.Key>, j: Review.Judged) {
    && !p.dryRun
    && Undo.Keys(p.resolved) == RuleKeys(t.resolved) + drafts && (forall d :: d in drafts ==> d.kind.Draft?)
    && Undo.Keys(p.judged) == ModelKeys(j.resolutions) && p.noted == ModelKeys(j.keeps + j.deferrals)
    && forall c :: c in j.resolutions ==> exists s :: s in t.ambiguous && s.id == c.id
  }

  // The position of the first write of k, or their number.
  function FirstAt(ks: seq<Undo.Key>, k: Undo.Key): (i: nat)
    ensures i <= |ks| && (i < |ks| ==> ks[i] == k)
    ensures forall j :: 0 <= j < i ==> ks[j] != k
  {
    if ks == [] then 0
    else
      var i := FirstAt(ks[..|ks| - 1], k);
      if i < |ks| - 1 then i else if ks[|ks| - 1] == k then i else i + 1
  }

  function Writes(p: Undo.Plan): (r: seq<Undo.Key>) {
    Undo.Keys(p.resolved) + Undo.Keys(p.judged)
  }

  lemma {:induction false} AppliedIff(p: Undo.Plan, k: Undo.Key)
    ensures k in Undo.Keys(Undo.ToApply(p)) <==> k in Writes(p) && FirstAt(Writes(p), k) < p.ceiling
  {
    var all, i := Writes(p), FirstAt(Writes(p), k);
    assert Undo.Keys(p.resolved + p.judged) == all;
    assert Undo.Keys(Undo.ToApply(p)) == if |all| > p.ceiling then all[..p.ceiling] else all;
    if k in all && i < p.ceiling {
      assert Undo.Keys(Undo.ToApply(p))[i] == k;
    }
  }

  // After a pass a pending record is still pending unless it was to be retired, came within the ceiling and could be
  // written.
  lemma {:induction false} PendingIff(records: Undo.Records, p: Undo.Plan, writes: set<Undo.Key>, k: Undo.Key)
    requires !p.dryRun && k in records && records[k].status.Pending?
    ensures var a := Undo.Run(records, p, writes).records;
            k in a && (a[k].status.Pending? <==> !(k in Writes(p) && FirstAt(Writes(p), k) < p.ceiling && k in writes))
  {
    Undo.PassDoes(records, p, writes);
    Undo.RetireAllLists(records, Undo.ToApply(p), p.pass, p.at, writes, k);
    AppliedIff(p, k);
  }

  predicate Dismissed(j: Review.Judged, id: nat) {
    id in Review.Ids(j.resolutions)
  }

  lemma {:induction false} SameId(xs: seq<Rules.Suggestion>, a: Rules.Suggestion, b: Rules.Suggestion)
    requires Rules.DistinctIds(xs) && a in xs && b in xs && a.id == b.id
    ensures a == b
  {
  }

  lemma {:induction false} ResolvedKeyIff(xs: seq<Rules.Suggestion>, c: Rules.Settings, w: Rules.Suggestion)
    requires Rules.DistinctIds(xs) && w in xs
    ensures KeyOf(w.id) in RuleKeys(Rules.Classify(xs, c).resolved) <==> w in Rules.Of(Rules.Classify(xs, c).resolved)
  {
    var rs := Rules.Classify(xs, c).resolved;
    if KeyOf(w.id) in RuleKeys(rs) {
      var i :| 0 <= i < |rs| && RuleKeys(rs)[i] == KeyOf(w.id);
      assert rs[i] in rs;
      Rules.SubjectIn(xs, c, rs[i]);
      SameId(xs, rs[i].s, w);
    }
    if w in Rules.Of(rs) {
      var i :| 0 <= i < |rs| && Rules.Of(rs)[i] == w;
      assert RuleKeys(rs)[i] == KeyOf(w.id);
    }
  }

  lemma {:induction false} ModelKeyIff(j: Review.Judged, id: nat)
    ensures KeyOf(id) in ModelKeys(j.resolutions) <==> Dismissed(j, id)
  {
    if KeyOf(id) in ModelKeys(j.resolutions) {
      var i :| 0 <= i < |j.resolutions| && ModelKeys(j.resolutions)[i] == KeyOf(id);
      assert j.resolutions[i] in j.resolutions;
    }
    if Dismissed(j, id) {
      var x :| x in j.resolutions && x.id == id;
      var i :| 0 <= i < |j.resolutions| && j.resolutions[i] == x;
      assert ModelKeys(j.resolutions)[i] == KeyOf(id);
    }
  }

  // A survivor is to be written exactly if the rules retire it or the model dismisses it, and not both.
  lemma {:induction false} SurvivorWrittenIff(xs: seq<Rules.Suggestion>, c: Rules.Settings, w: Rules.Suggestion,
                                              p: Undo.Plan, drafts: seq<Undo.Key>, j: Review.Judged)
    requires Rules.DistinctIds(xs) && w in Rules.Survivors(xs, c) && Plans(p, Rules.Classify(xs, c), drafts, j)
    ensures KeyOf(w.id) in Writes(p) <==> Rules.RulesRetire(w, c) || Dismissed(j, w.id)
    ensures Dismissed(j, w.id) ==> !Rules.RulesRetire(w, c) && w in Rules.Classify(xs, c).ambiguous
  {
    Rules.SurvivorResolvedIff(xs, c, w);
    ResolvedKeyIff(xs, c, w);
    ModelKeyIff(j, w.id);
    if Dismissed(j, w.id) {
      var x :| x in j.resolutions && x.id == w.id;
      var s :| s in Rules.Classify(xs, c).ambiguous && s.id == x.id;
      Rules.LeftIsNotResolved(xs, c, s);
      SameId(xs, s, w);
    }
  }

  // A superseded suggestion names one whose record is still pending after the pass, exactly unless that one is
  // retired in the same pass: it was mined long ago on weak or old evidence or was dismissed by the model, its write
  // came within the ceiling, and it succeeded.
  lemma {:induction false} WinnerIsLiveIff(xs: seq<Rules.Suggestion>, c: Rules.Settings, r: Rules.Resolution, p: Undo.Plan,
                                           drafts: seq<Undo.Key>, j: Review.Judged, records: Undo.Records,
                                           writes: set<Undo.Key>)
    requires Rules.DistinctIds(xs) && r in Rules.Classify(xs, c).resolved && r.rule.Superseded?
    requires Plans(p, Rules.Classify(xs, c), drafts, j)
    requires KeyOf(r.rule.winner.id) in records && records[KeyOf(r.rule.winner.id)].status.Pending?
    ensures var w, k, after := r.rule.winner, KeyOf(r.rule.winner.id), Undo.Run(records, p, writes).records;
            && k in after
            && (after[k].status.Pending? <==>
                  !((Rules.RulesRetire(w, c) || Dismissed(j, w.id)) && FirstAt(Writes(p), k) < p.ceiling && k in writes))
  {
    Rules.SupersededNamesSurvivor(xs, c, r);
    SurvivorWrittenIff(xs, c, r.rule.winner, p, drafts, j);
    PendingIff(records, p, writes, KeyOf(r.rule.winner.id));
  }

  lemma {:induction false} FirstBatchesAre(candidates: seq<Review.Candidate>, s: Review.Settings, n: nat, c: Review.Candidate)
    requires c in Review.FirstBatches(Review.Sendable(candidates, s), s.batchSize, n)
    ensures c in candidates
  {
    assert c in Review.Sendable(candidates, s);
    assert c in multiset(Review.Ordered(candidates));
  }

  // What `Judge` resolves is always of that kind, when its candidates are the ambiguous suggestions.
  lemma {:induction false} JudgedAreCandidates(candidates: seq<Review.Candidate>, s: Review.Settings,
                                               attempts: seq<Review.Attempt>, n: nat, c: Review.Candidate)
    requires s.batchSize > 0 && n <= |attempts| && forall b :: 0 <= b < n ==> attempts[b].Replied?
    requires c in Review.JudgedBefore(Review.Sendable(candidates, s), s, attempts, n).resolutions
    ensures c in candidates
  {
    var sendable := Review.Sendable(candidates, s);
    Review.SentItemsFiledOnce(sendable, s, attempts, n);
    assert c in Review.All(Review.JudgedBefore(sendable, s, attempts, n));
    assert c in multiset(Review.FirstBatches(sendable, s.batchSize, n));
    FirstBatchesAre(candidates, s, n, c);
  }

  lemma {:induction false} PlanOfRules(t: Rules.Triage) returns (p: Undo.Plan)
    ensures Plans(p, t, [], Review.NOTHING) && p.ceiling == |Writes(p)|
  {
    var rs := t.resolved;
    var writes := seq(|rs|, i requires 0 <= i < |rs| => Undo.Resolution(KeyOf(rs[i].s.id), 0));
    p := Undo.Plan(0, false, |rs|, writes, [], [], 0);
    assert Undo.Keys(writes) == RuleKeys(rs) + [];
  }

  // What the review counts as applied is what the pass writes of the model's dismissals.
  lemma {:induction false} CeilingAgrees(p: Undo.Plan, q: Review.Pass)
    requires |p.resolved| == q.resolved && p.ceiling == q.ceiling && Undo.Keys(p.judged) == ModelKeys(q.judged.resolutions)
    ensures var n := if |p.resolved| < p.ceiling then |p.resolved| else p.ceiling;
            Undo.Keys(Undo.ToApply(p)) == Undo.Keys(p.resolved)[..n] + ModelKeys(Review.Applied(q))
  {
    var n, m := if |p.resolved| < p.ceiling then |p.resolved| else p.ceiling, |Review.Applied(q)|;
    Review.AppliedFit(q);
    assert |Undo.Keys(p.judged)| == |q.judged.resolutions|;
    var all := Undo.Keys(Undo.ToApply(p));
    assert |all| == n + m;
    forall i | 0 <= i < |all|
      ensures all[i] == (Undo.Keys(p.resolved)[..n] + ModelKeys(Review.Applied(q)))[i] {
      if i >= n {
        assert Undo.Keys(p.judged)[i - |p.resolved|] == ModelKeys(q.judged.resolutions)[i - |p.resolved|];
      }
    }
  }

  // Such a pass: it retires an older copy of a loop for the sake of a newer one, and the newer one for its evidence.
  lemma {:induction false} WinnerIsRetired(loop: CanonicalCycle.Text)
    returns (xs: seq<Rules.Suggestion>, c: Rules.Settings, r: Rules.Resolution, p: Undo.Plan, k: Undo.Key)
    ensures r in Rules.Classify(xs, c).resolved && r.rule.Superseded? && k == KeyOf(r.rule.winner.id)
    ensures Plans(p, Rules.Classify(xs, c), [], Review.NOTHING)
    ensures Retires(p, k)
  {
    xs, c, r := Rules.WinnerMayVanish(loop);
    k := KeyOf(r.rule.winner.id);
    p := PlanOfRules(Rules.Classify(xs, c));
    Rules.SupersededNamesSurvivor(xs, c, r);
    SurvivorWrittenIff(xs, c, r.rule.winner, p, [], Review.NOTHING);
    RetiresAll(p, k);
  }

  // Whatever the records, a pending one under this key is retired when all writes succeed.
  ghost predicate Retires(p: Undo.Plan, k: Undo.Key) {
    forall records: Undo.Records, writes: set<Undo.Key> :: k in records && records[k].status.Pending? && k in writes ==>
      var after := Undo.Run(records, p, writes).records; k in after && !after[k].status.Pending?
  }

  lemma {:induction false} RetiresAll(p: Undo.Plan, k: Undo.Key)
    requires !p.dryRun && k in Writes(p) && p.ceiling == |Writes(p)|
    ensures Retires(p, k)
  {
    forall records: Undo.Records, writes: set<Undo.Key> | k in records && records[k].status.Pending? && k in writes
      ensures var after := Undo.Run(records, p, writes).records; k in after && !after[k].status.Pending? {
      PendingIff(records, p, writes, k);
    }
  }
}
