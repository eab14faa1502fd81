// What a triage pass writes, and taking it back: `run`, `retireSuggestion`, `retireDraft`, `annotatePending` and
// `undoTriagePass` in src/backlog-triage.js.

module BacklogUndo {

  datatype Option<T> = None | Some(value: T)

  datatype Kind = Suggestion | Draft

  datatype Status = Pending | AutoDismissed | AutoDiscarded | Other(code: nat)

  // What the triage keeps in a record: the pass, and for a retirement the status before it.
  datatype Triage = Triage(pass: nat, previous: Option<Status>)

  // closedAt is resolvedAt of a suggestion and reviewedAt of a draft.
  datatype Record = Record(status: Status, closedAt: Option<int>, note: Option<nat>, triage: Option<Triage>)

  datatype Key = Key(kind: Kind, id: nat)

  type Records = map<Key, Record>

  // A decision to retire a record, or to note that it was judged.
  datatype Resolution = Resolution(key: Key, reason: nat)

  function Retired(k: Kind): (s: Status) {
    if k.Suggestion? then AutoDismissed else AutoDiscarded
  }

  function RetiredRecord(r: Record, x: Resolution, pass: nat, at: int): (n: Record) {
    r.(status := Retired(x.key.kind), closedAt := Some(at), triage := Some(Triage(pass, Some(r.status))),
       note := if x.key.kind.Suggestion? then Some(x.reason) else r.note)
  }

  // The records and the undo ledger while a pass is applied.
  datatype Applying = Applying(records: Records, ledger: seq<Key>)

  // writes(x) tells whether the write of a resolution succeeds.
  function Retire(a: Applying, x: Resolution, pass: nat, at: int, writes: bool): (r: Applying) {
    if x.key !in a.records || !a.records[x.key].status.Pending? || !writes then a
    else Applying(a.records[x.key := RetiredRecord(a.records[x.key], x, pass, at)], a.ledger + [x.key])
  }

  function RetireAll(records: Records, xs: seq<Resolution>, pass: nat, at: int, writes: set<Key>): (r: Applying) {
    if xs == [] then Applying(records, [])
    else
      var n := |xs| - 1;
      Retire(RetireAll(records, xs[..n], pass, at, writes), xs[n], pass, at, xs[n].key in writes)
  }

  // A judged record that stays pending only takes a note of the pass.
  function Annotate(records: Records, k: Key, pass: nat, writes: bool): (r: Records) {
    if k !in records || !records[k].status.Pending? || !writes then records
    else records[k := records[k].(triage := Some(Triage(pass, None)))]
  }

  function AnnotateAll(records: Records, ks: seq<Key>, pass: nat, writes: set<Key>): (r: Records) {
    if ks == [] then records
    else
      var n := |ks| - 1;
      Annotate(AnnotateAll(records, ks[..n], pass, writes), ks[n], pass, ks[n] in writes)
  }

  datatype Plan = Plan(pass: nat, dryRun: bool, ceiling: nat, resolved: seq<Resolution>, judged: seq<Resolution>,
                       noted: seq<Key>, at: int)

  // The resolutions a pass applies: the rules' first, then the model's, up to the ceiling.
  function ToApply(p: Plan): (r: seq<Resolution>)
    ensures |r| <= p.ceiling
  {
    var all := p.resolved + p.judged;
    if |all| > p.ceiling then all[..p.ceiling] else all
  }

  function Run(records: Records, p: Plan, writes: set<Key>): (r: Applying) {
    if p.dryRun then Applying(records, [])
    else
      var a := RetireAll(records, ToApply(p), p.pass, p.at, writes);
      Applying(AnnotateAll(a.records, p.noted, p.pass, writes), a.ledger)
  }

  // ---- undo ---------------------------------------------------------------------------------

  predicate Undoable(r: Record, k: Key, pass: nat) {
    r.status == Retired(k.kind) && r.triage.Some? && r.triage.value.pass == pass
  }

  function Restored(r: Record, k: Key): (n: Record)
    requires r.triage.Some?
  {
    var status := if r.triage.value.previous.Some? then r.triage.value.previous.value else Pending;
    r.(status := status, closedAt := None, triage := None, note := if k.kind.Suggestion? then None else r.note)
  }

  function UndoOne(records: Records, k: Key, pass: nat): (r: Records) {
    if k in records && Undoable(records[k], k, pass) then records[k := Restored(records[k], k)] else records
  }

  function Undo(records: Records, ledger: seq<Key>, pass: nat): (r: Records) {
    if ledger == [] then records
    else
      var n := |ledger| - 1;
      UndoOne(Undo(records, ledger[..n], pass), ledger[n], pass)
  }

  // An undo stops when the write of a restored suggestion fails; done counts the entries before that.
  datatype Undoing = Undoing(records: Records, done: nat, failed: bool)

  function UndoOrStop(records: Records, ledger: seq<Key>, pass: nat, writes: set<Key>): (r: Undoing) {
    if ledger == [] then Undoing(records, 0, false)
    else
      var n := |ledger| - 1;
      var u, k := UndoOrStop(records, ledger[..n], pass, writes), ledger[n];
      if u.failed then u
      else if k in u.records && Undoable(u.records[k], k, pass) && k.kind.Suggestion? && k !in writes
      then u.(failed := true)
      else Undoing(UndoOne(u.records, k, pass), u.done + 1, false)
  }

  // ---- what a pass does to one record -------------------------------------------------------

  // What is retired was pending, and is in the ledger exactly then.
  lemma {:induction false} RetireAllDoes(records: Records, xs: seq<Resolution>, pass: nat, at: int, writes: set<Key>)
    ensures var a := RetireAll(records, xs, pass, at, writes);
            && a.records.Keys == records.Keys && |a.ledger| <= |xs|
            && (forall k :: k in a.ledger ==> k in records && records[k].status.Pending? && k in writes)
            && (forall k :: k in records && k !in a.ledger ==> a.records[k] == records[k])
            && (forall k :: k in a.ledger ==>
                  exists x :: x in xs && x.key == k && a.records[k] == RetiredRecord(records[k], x, pass, at))
  {
    if xs != [] {
      var n := |xs| - 1;
      var before, x := RetireAll(records, xs[..n], pass, at, writes), xs[n];
      RetireAllDoes(records, xs[..n], pass, at, writes);
      RetireStep(records, xs, before, pass, at, writes);
    }
  }

  lemma {:induction false} RetireStep(records: Records, xs: seq<Resolution>, before: Applying, pass: nat, at: int,
                                      writes: set<Key>)
    requires xs != [] && before.records.Keys == records.Keys && |before.ledger| < |xs|
    requires forall k :: k in before.ledger ==> k in records && records[k].status.Pending? && k in writes
    requires forall k :: k in records && k !in before.ledger ==> before.records[k] == records[k]
    requires forall k :: k in before.ledger ==>
      exists x :: x in xs[..|xs| - 1] && x.key == k && before.records[k] == RetiredRecord(records[k], x, pass, at)
    ensures var x := xs[|xs| - 1]; var a := Retire(before, x, pass, at, x.key in writes);
            && a.records.Keys == records.Keys && |a.ledger| <= |xs|
            && (forall k :: k in a.ledger ==> k in records && records[k].status.Pending? && k in writes)
            && (forall k :: k in records && k !in a.ledger ==> a.records[k] == records[k])
            && (forall k :: k in a.ledger ==>
                  exists x :: x in xs && x.key == k && a.records[k] == RetiredRecord(records[k], x, pass, at))
  {
    var x := xs[|xs| - 1];
    var a := Retire(before, x, pass, at, x.key in writes);
    assert x in xs;
    if x.key in before.ledger {
      assert !before.records[x.key].status.Pending?;
    }
    forall k | k in a.ledger
      ensures exists y :: y in xs && y.key == k && a.records[k] == RetiredRecord(records[k], y, pass, at) {
      if k in before.ledger {
        var y :| y in xs[..|xs| - 1] && y.key == k && before.records[k] == RetiredRecord(records[k], y, pass, at);
        assert y in xs;
      }
    }
  }

  function Keys(xs: seq<Resolution>): (r: seq<Key>)
    ensures |r| == |xs| && forall i :: 0 <= i < |xs| ==> r[i] == xs[i].key
  {
    seq(|xs|, i requires 0 <= i < |xs| => xs[i].key)
  }

  // What is to be retired is, exactly if it is still pending and can be written.
  lemma {:induction false} RetireAllLists(records: Records, xs: seq<Resolution>, pass: nat, at: int, writes: set<Key>, k: Key)
    ensures k in RetireAll(records, xs, pass, at, writes).ledger
        <==> k in Keys(xs) && k in records && records[k].status.Pending? && k in writes
  {
    RetireAllDoes(records, xs, pass, at, writes);
    if xs != [] {
      var n := |xs| - 1;
      RetireAllDoes(records, xs[..n], pass, at, writes);
      RetireAllLists(records, xs[..n], pass, at, writes, k);
      assert Keys(xs) == Keys(xs[..n]) + [xs[n].key];
    }
  }

  lemma {:induction false} AnnotateAllDoes(records: Records, ks: seq<Key>, pass: nat, writes: set<Key>)
    ensures var r := AnnotateAll(records, ks, pass, writes);
            && r.Keys == records.Keys
            && (forall k :: k in records && !records[k].status.Pending? ==> r[k] == records[k])
            && (forall k :: k in records ==> r[k] == records[k] || r[k] == records[k].(triage := Some(Triage(pass, None))))
  {
    if ks != [] {
      AnnotateAllDoes(records, ks[..|ks| - 1], pass, writes);
    }
  }

  // ---- main results -------------------------------------------------------------------------

  // A pass retires only pending records, at most its ceiling of them, and lists exactly those in its ledger; it
  // changes no other status, and a dry run writes nothing.
  lemma {:induction false} PassDoes(records: Records, p: Plan, writes: set<Key>)
    ensures var a := Run(records, p, writes);
            && a.records.Keys == records.Keys && |a.ledger| <= p.ceiling
            && (p.dryRun ==> a.records == records)
            && (forall k :: k in records ==> (k in a.ledger <==> a.records[k].status != records[k].status))
            && (forall k :: k in a.ledger ==>
                  && k in records && records[k].status.Pending?
                  && a.records[k].status == Retired(k.kind) && a.records[k].triage == Some(Triage(p.pass, Some(Pending))))
  {
    if !p.dryRun {
      var a := RetireAll(records, ToApply(p), p.pass, p.at, writes);
      RetireAllDoes(records, ToApply(p), p.pass, p.at, writes);
      AnnotateAllDoes(a.records, p.noted, p.pass, writes);
      forall k | k in a.ledger ensures a.records[k].status == Retired(k.kind)
                                       && a.records[k].triage == Some(Triage(p.pass, Some(Pending))) {
        var x :| x in ToApply(p) && x.key == k && a.records[k] == RetiredRecord(records[k], x, p.pass, p.at);
      }
    }
  }

  lemma {:induction false} UndoDoes(records: Records, ledger: seq<Key>, pass: nat)
    ensures var r := Undo(records, ledger, pass);
            && r.Keys == records.Keys
            && forall k :: k in records ==>
                 r[k] == if k in ledger && Undoable(records[k], k, pass) then Restored(records[k], k) else records[k]
  {
    if ledger != [] {
      var n := |ledger| - 1;
      UndoDoes(records, ledger[..n], pass);
      assert ledger == ledger[..n] + [ledger[n]];
    }
  }

  // Undoing a pass, whatever happened to the records since: a record it retired and nobody touched has its status
  // back; a record since given another status, or retired by another pass, is left as it is; so is every record the
  // pass did not retire.
  lemma {:induction false} UndoRestoresStatus(records: Records, p: Plan, writes: set<Key>, later: Records)
    ensures var a := Run(records, p, writes); var u := Undo(later, a.ledger, p.pass);
            && u.Keys == later.Keys
            && (forall k :: k in a.ledger && k in records && k in later ==>
                  k in a.records && (later[k] == a.records[k] ==> u[k].status == records[k].status))
            && (forall k :: k in later && k !in a.ledger ==> u[k] == later[k])
            && (forall k :: k in later && !Undoable(later[k], k, p.pass) ==> u[k] == later[k])
  {
    PassDoes(records, p, writes);
    UndoDoes(later, Run(records, p, writes).ledger, p.pass);
  }

  lemma {:induction false} UndoTwiceIsOnce(records: Records, ledger: seq<Key>, pass: nat)
    ensures var u := Undo(records, ledger, pass); Undo(u, ledger, pass) == u
  {
    var u := Undo(records, ledger, pass);
    UndoDoes(records, ledger, pass);
    UndoDoes(u, ledger, pass);
    assert forall k :: k in u ==> Undo(u, ledger, pass)[k] == u[k];
  }

  // An undo that stops has undone the entries before the one it could not write, and no other.
  lemma {:induction false} StoppedUndoes(records: Records, ledger: seq<Key>, pass: nat, writes: set<Key>)
    ensures var u := UndoOrStop(records, ledger, pass, writes);
            && u.done <= |ledger| && (u.failed <==> u.done < |ledger|)
            && u.records == Undo(records, ledger[..u.done], pass)
            && (u.failed ==> var k := ledger[u.done];
                  k in records && k in u.records && Undoable(records[k], k, pass) && u.records[k] == records[k]
                  && k.kind.Suggestion? && k !in writes)
  {
    if ledger != [] {
      var n := |ledger| - 1;
      var u := UndoOrStop(records, ledger[..n], pass, writes);
      StoppedUndoes(records, ledger[..n], pass, writes);
      assert ledger[..n][..u.done] == ledger[..u.done] && ledger[..|ledger|] == ledger;
      UndoDoes(records, ledger[..u.done], pass);
    }
  }

  // Undoing again after an undo that stopped completes it, wherever it stopped.
  lemma {:induction false} UndoResumes(records: Records, ledger: seq<Key>, pass: nat, i: nat)
    requires i <= |ledger|
    ensures Undo(Undo(records, ledger[..i], pass), ledger, pass) == Undo(records, ledger, pass)
  {
    var u := Undo(records, ledger[..i], pass);
    UndoDoes(records, ledger[..i], pass);
    UndoDoes(u, ledger, pass);
    UndoDoes(records, ledger, pass);
    forall k | k in records ensures Undo(u, ledger, pass)[k] == Undo(records, ledger, pass)[k] {
      assert k in ledger[..i] ==> k in ledger;
    }
  }

  // The ledger is written with the report, after the records. A pass that dies after i of its resolutions, or whose
  // report is not written, has none: what it retired stays retired whatever other pass is undone.
  lemma {:induction false} LostReportIsFinal(records: Records, p: Plan, writes: set<Key>, i: nat, ledger: seq<Key>, pass: nat)
    requires i <= |ToApply(p)| && pass != p.pass
    ensures var a := RetireAll(records, ToApply(p)[..i], p.pass, p.at, writes); var u := Undo(a.records, ledger, pass);
            forall k :: k in a.ledger ==> k in u && k in a.records && u[k] == a.records[k] && u[k].status == Retired(k.kind)
  {
    var xs := ToApply(p)[..i];
    var a := RetireAll(records, xs, p.pass, p.at, writes);
    RetireAllDoes(records, xs, p.pass, p.at, writes);
    UndoDoes(a.records, ledger, pass);
    forall k | k in a.ledger
      ensures k in a.records && a.records[k].status == Retired(k.kind) && !Undoable(a.records[k], k, pass) {
      var x :| x in xs && x.key == k && a.records[k] == RetiredRecord(records[k], x, p.pass, p.at);
    }
  }

  // What is written into a record that is retired: its kind's own status, the time, the pass, and for a suggestion the
  // reason; what was there before is noted.
  lemma {:induction false} RetiredFields(r: Record, x: Resolution, pass: nat, at: int)
    ensures var n := RetiredRecord(r, x, pass, at);
            && (x.key.kind.Suggestion? ==> n == Record(AutoDismissed, Some(at), Some(x.reason), Some(Triage(pass, Some(r.status)))))
            && (x.key.kind.Draft? ==> n == Record(AutoDiscarded, Some(at), r.note, Some(Triage(pass, Some(r.status)))))
  {
  }

  // What an undo leaves in it: the status before, and nothing of the pass.
  lemma {:induction false} RestoredFields(r: Record, k: Key)
    requires r.triage.Some?
    ensures var n, before := Restored(r, k), r.triage.value.previous;
            && n.status == (if before.Some? then before.value else Pending) && n.closedAt == None && n.triage == None
            && n.note == (if k.kind.Suggestion? then None else r.note)
  {
  }

  // A pass applies the rules' resolutions before the model's, and stops at its ceiling; then it notes what the model kept
  // or deferred, if that is still pending.
  lemma {:induction false} AppliedInOrder(p: Plan, i: nat)
    requires i < |ToApply(p)|
    ensures |ToApply(p)| == (if |p.resolved| + |p.judged| > p.ceiling then p.ceiling else |p.resolved| + |p.judged|)
    ensures ToApply(p)[i] == if i < |p.resolved| then p.resolved[i] else p.judged[i - |p.resolved|]
  {
  }

  lemma {:induction false} NotedIff(records: Records, ks: seq<Key>, pass: nat, writes: set<Key>, k: Key)
    requires k in records
    ensures var r := AnnotateAll(records, ks, pass, writes);
            k in r && r[k] == if k in ks && records[k].status == Pending && k in writes
                              then records[k].(triage := Some(Triage(pass, None))) else records[k]
  {
    if ks != [] {
      var n := |ks| - 1;
      NotedIff(records, ks[..n], pass, writes, k);
      assert ks == ks[..n] + [ks[n]];
    }
  }

  // Only the status comes back: a retired and untouched record is exactly as it was before the pass if and only if
  // it had no triage note, no closing time and, for a suggestion, no note of its own.
  lemma {:induction false} UndoIsExactIff(records: Records, p: Plan, writes: set<Key>, k: Key)
    requires k in Run(records, p, writes).ledger && k in records
    ensures var a := Run(records, p, writes);
            k in Undo(a.records, a.ledger, p.pass)
            && (Undo(a.records, a.ledger, p.pass)[k] == records[k] <==>
                 records[k].triage.None? && records[k].closedAt.None? && (k.kind.Suggestion? ==> records[k].note.None?))
  {
    var a := Run(records, p, writes);
    var b := RetireAll(records, ToApply(p), p.pass, p.at, writes);
    PassDoes(records, p, writes);
    UndoDoes(a.records, a.ledger, p.pass);
    RetireAllDoes(records, ToApply(p), p.pass, p.at, writes);
    AnnotateAllDoes(b.records, p.noted, p.pass, writes);
    var x :| x in ToApply(p) && x.key == k && b.records[k] == RetiredRecord(records[k], x, p.pass, p.at);
    assert a.records[k] == b.records[k];
  }

  // Such a record: one pass notes it, and a later pass retires it and is undone. The note is gone.
  lemma {:induction false} NoteIsNotRestored(k: Key) returns (before: Records, p: Plan)
    ensures exists q :: before == Run(map[k := Record(Pending, None, None, None)], q, {k}).records
    ensures var a := Run(before, p, {k});
            k in before && a.ledger == [k] && k in Undo(a.records, a.ledger, p.pass)
            && Undo(a.records, a.ledger, p.pass)[k] != before[k]
  {
    var clean, q := map[k := Record(Pending, None, None, None)], Plan(1, false, 1, [], [], [k], 0);
    p := Plan(2, false, 1, [Resolution(k, 0)], [], [], 0);
    assert ToApply(q) == [] && [k][..0] == [];
    before := AnnotateAll(clean, [k], 1, {k});
    assert before == Run(clean, q, {k}).records;
    assert before == Annotate(AnnotateAll(clean, [], 1, {k}), k, 1, true);
    var x := Resolution(k, 0);
    assert ToApply(p) == [x] && [x][..0] == [];
    assert RetireAll(before, [x], 2, 0, {k}) == Retire(RetireAll(before, [], 2, 0, {k}), x, 2, 0, true);
    UndoIsExactIff(before, p, {k}, k);
  }

  // ---- the store ----------------------------------------------------------------------------

  class TriageStore {
    var records: Records

    constructor (records: Records)
      ensures this.records == records
    {
      this.records := records;
    }

    // Someone may have answered between the scan and now; their answer wins.
    method RetireRecord(x: Resolution, pass: nat, at: int, works: bool) returns (ok: bool)
      modifies this
      ensures ok <==> x.key in old(records) && old(records)[x.key].status.Pending? && works
      ensures records == if ok then old(records)[x.key := RetiredRecord(old(records)[x.key], x, pass, at)] else old(records)
    {
      if x.key !in records {
        return false;
      }
      var raw := records[x.key];
      if raw.status != Pending || !works {
        return false;
      }
      var audit := Triage(pass, Some(raw.status));
      raw := raw.(triage := Some(audit), status := Retired(x.key.kind), closedAt := Some(at));
      if x.key.kind.Suggestion? {
        raw := raw.(note := Some(x.reason));
      }
      records := records[x.key := raw];
      return true;
    }

    method AnnotatePending(k: Key, pass: nat, works: bool)
      modifies this
      ensures records == Annotate(old(records), k, pass, works)
    {
      if k in records && records[k].status == Pending && works {
        records := records[k := records[k].(triage := Some(Triage(pass, None)))];
      }
    }

    method RunPass(p: Plan, writes: set<Key>) returns (ledger: seq<Key>)
      modifies this
      ensures Applying(records, ledger) == Run(old(records), p, writes)
    {
      ledger := [];
      if p.dryRun {
        return;
      }
      ghost var was := records;
      var all := p.resolved + p.judged;
      var apply := if |all| > p.ceiling then all[..p.ceiling] else all;
      for i := 0 to |apply|
        invariant Applying(records, ledger) == RetireAll(was, apply[..i], p.pass, p.at, writes)
      {
        assert apply[..i + 1][..i] == apply[..i];
        var ok := RetireRecord(apply[i], p.pass, p.at, apply[i].key in writes);
        if ok {
          ledger := ledger + [apply[i].key];
        }
      }
      assert apply[..|apply|] == apply;
      ghost var retired := records;
      for i := 0 to |p.noted|
        invariant records == AnnotateAll(retired, p.noted[..i], p.pass, writes)
      {
        assert p.noted[..i + 1][..i] == p.noted[..i];
        AnnotatePending(p.noted[i], p.pass, p.noted[i] in writes);
      }
      assert p.noted[..|p.noted|] == p.noted;
    }

    // Counts of what was restored, what had been touched since and what is gone; unless a write fails.
    method UndoPass(ledger: seq<Key>, pass: nat, writes: set<Key>)
      returns (restored: nat, skipped: nat, notFound: nat, failed: bool)
      modifies this
      ensures Undoing(records, restored + skipped + notFound, failed) == UndoOrStop(old(records), ledger, pass, writes)
      ensures !failed ==> records == Undo(old(records), ledger, pass) && restored + skipped + notFound == |ledger|
    {
      restored, skipped, notFound, failed := 0, 0, 0, false;
      ghost var was := records;
      for i := 0 to |ledger|
        invariant Undoing(records, i, false) == UndoOrStop(was, ledger[..i], pass, writes)
        invariant restored + skipped + notFound == i && !failed
      {
        assert ledger[..i + 1][..i] == ledger[..i];
        var k := ledger[i];
        if k !in records {
          notFound := notFound + 1;
        } else if records[k].status != Retired(k.kind) || records[k].triage.None? || records[k].triage.value.pass != pass {
          skipped := skipped + 1;
        } else if k.kind.Suggestion? && k !in writes {
          failed := true;
          StaysStopped(was, ledger, pass, writes, i + 1);
          return;
        } else {
          var raw := records[k];
          var audit := raw.triage.value;
          raw := raw.(status := if audit.previous.Some? then audit.previous.value else Pending, closedAt := None, triage := None);
          if k.kind.Suggestion? {
            raw := raw.(note := None);
          }
          records := records[k := raw];
          restored := restored + 1;
        }
      }
      assert ledger[..|ledger|] == ledger;
      StoppedUndoes(was, ledger, pass, writes);
    }
  }

  lemma {:induction false} StaysStopped(records: Records, ledger: seq<Key>, pass: nat, writes: set<Key>, i: nat)
    requires i <= |ledger| && UndoOrStop(records, ledger[..i], pass, writes).failed
    ensures UndoOrStop(records, ledger, pass, writes) == UndoOrStop(records, ledger[..i], pass, writes)
    decreases |ledger|
  {
    if i < |ledger| {
      var n := |ledger| - 1;
      assert ledger[..n][..i] == ledger[..i];
      StaysStopped(records, ledger[..n], pass, writes, i);
    } else {
      assert ledger[..i] == ledger;
    }
  }
}
