// Questions from glasses, asked of the agent at most once: src/g2-requests.js.
// A record is saved before the agent is asked and deleted a day after its id was made.

module G2Requests {

  const WINDOW_MS := 86_400_000
  const AHEAD_MS := 60_000
  const DEADLINE_MS := 300_000
  const MAX_RECORDS := 512
  const MAX_PER_NODE := 100
  const MAX_RUNNING := 16

  // A request id carries the moment it was made; the digest file name identifies node and id together.
  datatype Key = Key(node: nat, created: int, serial: nat)

  datatype State = Accepted | Working | Completed | Unconfirmed | Cancelled

  datatype Record = Record(digest: nat, state: State, revision: nat, deadline: int)

  predicate Active(r: Record) {
    r.state.Accepted? || r.state.Working?
  }

  function Expiry(k: Key): (t: int) {
    k.created + WINDOW_MS
  }

  type Records = map<Key, Record>

  // The records in memory, their files, the running slots, and the two flags that end admission.
  datatype Hub = Hub(records: Records, disk: Records, running: set<Key>, storageFailed: bool, closed: bool)

  // One pass over the records: the clock readings for each record's deadline and expiry, the nodes still enrolled,
  // and which writes and deletions succeed.
  datatype Pass = Pass(deadline: map<Key, int>, expiry: map<Key, int>, enrolled: set<nat>, saves: set<Key>,
                       unlinks: set<Key>)

  predicate Covers(p: Pass, h: Hub) {
    h.records.Keys <= p.deadline.Keys && h.records.Keys <= p.expiry.Keys
  }

  // The two readings `checkId` makes.
  predicate IdFresh(k: Key, past: int, future: int) {
    k.created >= past - WINDOW_MS && k.created <= future + AHEAD_MS
  }

  function Persist(h: Hub, k: Key, r: Record, works: bool): (n: Hub) {
    if works then h.(disk := h.disk[k := r]) else h.(storageFailed := true)
  }

  // One record written, and its file if saved; its slot is given up if frees.
  function Written(h: Hub, k: Key, r: Record, saved: bool, frees: bool, storageFailed: bool): (n: Hub) {
    h.(records := h.records[k := r], disk := if saved then h.disk[k := r] else h.disk,
       running := if frees then h.running - {k} else h.running, storageFailed := storageFailed)
  }

  function Finish(r: Record, state: State): (n: Record) {
    r.(state := state, revision := r.revision + 1)
  }

  function Stop(h: Hub, k: Key, state: State, saves: bool): (n: Hub)
    requires k in h.records
  {
    if !Active(h.records[k]) then h
    else
      var r := Finish(h.records[k], state);
      Persist(h.(records := h.records[k := r]), k, r, saves)
  }

  // ---- sweeping -----------------------------------------------------------------------------

  function SweptRecord(r: Record, k: Key, p: Pass): (n: Record)
    requires k in p.deadline
  {
    if !Active(r) then r
    else if k.node !in p.enrolled then Finish(r, Cancelled)
    else if p.deadline[k] >= r.deadline then Finish(r, Unconfirmed)
    else r
  }

  predicate Stopped(h: Hub, k: Key, p: Pass)
    requires k in h.records && k in p.deadline
  {
    SweptRecord(h.records[k], k, p) != h.records[k]
  }

  predicate Expired(h: Hub, k: Key, p: Pass)
    requires k in p.expiry
  {
    Expiry(k) < p.expiry[k] && k !in h.running
  }

  predicate SweepFails(h: Hub, p: Pass)
    requires Covers(p, h)
  {
    exists k :: k in h.records && ((Stopped(h, k, p) && k !in p.saves) || (Expired(h, k, p) && k !in p.unlinks))
  }

  function Sweep(h: Hub, p: Pass): (n: Hub)
    requires Covers(p, h)
  {
    var gone := set k | k in h.records && Expired(h, k, p) && k in p.unlinks;
    h.(records := map k | k in h.records && k !in gone :: SweptRecord(h.records[k], k, p),
       disk := map k | k in h.disk && k !in gone ::
                 if k in h.records && Stopped(h, k, p) && k in p.saves then SweptRecord(h.records[k], k, p) else h.disk[k],
       storageFailed := h.storageFailed || SweepFails(h, p))
  }

  // ---- submitting ---------------------------------------------------------------------------

  function Own(keys: set<Key>, node: nat): (r: set<Key>) {
    set k | k in keys && k.node == node
  }

  predicate Busy(h: Hub, node: nat) {
    || |h.records| >= MAX_RECORDS || |Own(h.records.Keys, node)| >= MAX_PER_NODE || |h.running| >= MAX_RUNNING
    || exists k :: k in h.records && k.node == node && Active(h.records[k])
  }

  datatype Answer = Refused | Known(record: Record) | Admitted(record: Record)

  datatype Outcome = Outcome(hub: Hub, answer: Answer)

  // One submission. past and future are the readings of `checkId`, late the one that sets the deadline; enrolled
  // is the answer for this node, saves whether the claim can be written.
  datatype Submission = Submission(key: Key, digest: nat, past: int, future: int, pass: Pass, late: int,
                                   enrolled: bool, saves: bool)

  function Submit(h: Hub, s: Submission): (r: Outcome)
    requires Covers(s.pass, h)
  {
    if !s.enrolled || !IdFresh(s.key, s.past, s.future) || h.closed || h.storageFailed then Outcome(h, Refused)
    else
      var swept := Sweep(h, s.pass);
      if s.key in swept.records then
        Outcome(swept, if swept.records[s.key].digest == s.digest then Known(swept.records[s.key]) else Refused)
      else if Busy(swept, s.key.node) then Outcome(swept, Refused)
      else
        var r := Record(s.digest, Accepted, 1, s.late + DEADLINE_MS);
        var n := Persist(swept, s.key, r, s.saves);
        if s.saves
        then Outcome(n.(records := n.records[s.key := r], running := n.running + {s.key}), Admitted(r))
        else Outcome(n, Refused)
  }

  // ---- asking -------------------------------------------------------------------------------

  predicate Asks(h: Hub, k: Key, enrolled: bool)
    requires k in h.records
  {
    Active(h.records[k]) && !h.closed && enrolled
  }

  // The failure branch of a request: nothing is known to have been answered unless the conversation shows it.
  function Failed(h: Hub, k: Key, answered: bool, saves: bool): (n: Hub)
    requires k in h.records
  {
    var m := if Active(h.records[k])
             then var r := Finish(h.records[k], if answered then Completed else Unconfirmed);
                  Persist(h.(records := h.records[k := r]), k, r, saves)
             else h;
    m.(running := m.running - {k})
  }

  // The queued start of an admitted request, up to the call of the agent.
  function Launch(h: Hub, k: Key, enrolled: bool, answered: bool, saves: bool): (n: Hub)
    requires k in h.records
  {
    if !Active(h.records[k]) || h.closed then h.(running := h.running - {k})
    else if !enrolled then Failed(h, k, answered, saves)
    else h.(records := h.records[k := h.records[k].(state := Working)])
  }

  // A progress report of an active request, saved when due.
  function Reported(h: Hub, k: Key, due: bool, saves: bool): (n: Hub)
    requires k in h.records
  {
    var r := h.records[k].(revision := h.records[k].revision + 1);
    var saved, failed := due && saves, h.storageFailed || (due && !saves);
    Written(h, k, r, saved, false, failed)
  }

  // due tells whether it is time to save again.
  function Progress(h: Hub, k: Key, enrolled: bool, due: bool, saves: bool, stopSaves: bool): (n: Hub)
    requires k in h.records
  {
    if !Active(h.records[k]) then h
    else if !enrolled then Stop(h, k, Unconfirmed, stopSaves)
    else if due && !saves then Stop(Reported(h, k, due, saves), k, Unconfirmed, stopSaves)
    else Reported(h, k, due, saves)
  }

  // The agent answered or failed.
  function Settle(h: Hub, k: Key, ok: bool, enrolled: bool, answered: bool, saves: bool): (n: Hub)
    requires k in h.records
  {
    if !ok || !enrolled then Failed(h, k, answered, saves)
    else if !Active(h.records[k]) then h.(running := h.running - {k})
    else
      var r := Finish(h.records[k], Completed);
      var m := Persist(h.(records := h.records[k := r]), k, r, saves);
      m.(running := m.running - {k})
  }

  function Cancel(h: Hub, k: Key, past: int, future: int, pass: Pass, enrolled: bool, saves: bool): (n: Hub)
    requires Covers(pass, h)
  {
    if !enrolled || !IdFresh(k, past, future) then h
    else
      var swept := Sweep(h, pass);
      if k in swept.records then Stop(swept, k, Cancelled, saves) else swept
  }

  function Close(h: Hub, saves: set<Key>): (n: Hub) {
    Hub(map k | k in h.records :: if Active(h.records[k]) then Finish(h.records[k], Unconfirmed) else h.records[k],
        map k | k in h.disk ::
          if k in h.records && Active(h.records[k]) && k in saves then Finish(h.records[k], Unconfirmed) else h.disk[k],
        h.running,
        h.storageFailed || exists k :: k in h.records && Active(h.records[k]) && k !in saves,
        true)
  }

  // ---- recovering ---------------------------------------------------------------------------

  function RecoveredRecord(r: Record, answered: bool): (n: Record) {
    if Active(r) then Finish(r, if answered then Completed else Unconfirmed) else r
  }

  // What a new process makes of the files it has read, each with a clock reading of its own.
  function Recover(disk: Records, read: set<Key>, readings: map<Key, int>, answered: set<Key>): (r: Records)
    requires disk.Keys <= readings.Keys
  {
    map k | k in disk && !(k in read && Expiry(k) < readings[k]) ::
      if k in read then RecoveredRecord(disk[k], k in answered) else disk[k]
  }

  // ---- what every operation keeps -----------------------------------------------------------

  ghost predicate ActiveRuns(h: Hub) {
    forall k :: k in h.records && Active(h.records[k]) ==> k in h.running && !h.closed
  }

  ghost predicate OneActivePerNode(records: Records) {
    forall k, l :: k in records && l in records && k.node == l.node && Active(records[k]) && Active(records[l]) ==> k == l
  }

  ghost predicate Few(keys: set<Key>) {
    |keys| <= MAX_RECORDS && forall node :: |Own(keys, node)| <= MAX_PER_NODE
  }

  ghost predicate HubInv(h: Hub) {
    && h.disk.Keys == h.records.Keys && h.running <= h.records.Keys
    && ActiveRuns(h) && OneActivePerNode(h.records)
    && |h.running| <= MAX_RUNNING && Few(h.records.Keys)
  }

  ghost predicate SameKeys(h: Hub, n: Hub) {
    n.records.Keys == h.records.Keys && n.disk.Keys == h.disk.Keys
  }

  lemma {:induction false} SubsetSize<T>(a: set<T>, b: set<T>)
    requires a <= b
    ensures |a| <= |b|
  {
    if a != {} {
      var x :| x in a;
      SubsetSize(a - {x}, b - {x});
    }
  }

  lemma {:induction false} FewerKeys(a: set<Key>, b: set<Key>)
    requires a <= b && Few(b)
    ensures Few(a)
  {
    SubsetSize(a, b);
    forall node ensures |Own(a, node)| <= MAX_PER_NODE {
      SubsetSize(Own(a, node), Own(b, node));
    }
  }

  lemma {:induction false} OneMore(keys: set<Key>, k: Key)
    requires Few(keys) && |keys| < MAX_RECORDS && |Own(keys, k.node)| < MAX_PER_NODE && k !in keys
    ensures Few(keys + {k})
  {
    forall node ensures |Own(keys + {k}, node)| <= MAX_PER_NODE {
      assert Own(keys + {k}, node) == if k.node == node then Own(keys, node) + {k} else Own(keys, node);
    }
  }

  lemma {:induction false} WrittenIsQuiet(h: Hub, k: Key, r: Record, saved: bool, frees: bool, storageFailed: bool)
    requires ActiveRuns(h) && OneActivePerNode(h.records)
    requires k in h.records && (Active(r) ==> Active(h.records[k]) && !frees)
    ensures ActiveRuns(Written(h, k, r, saved, frees, storageFailed))
    ensures OneActivePerNode(Written(h, k, r, saved, frees, storageFailed).records)
  {
  }

  lemma {:induction false} WrittenKeeps(h: Hub, k: Key, r: Record, saved: bool, frees: bool, storageFailed: bool)
    requires HubInv(h) && k in h.records && (Active(r) ==> Active(h.records[k]) && !frees)
    ensures HubInv(Written(h, k, r, saved, frees, storageFailed))
    ensures SameKeys(h, Written(h, k, r, saved, frees, storageFailed))
  {
    var n := Written(h, k, r, saved, frees, storageFailed);
    WrittenIsQuiet(h, k, r, saved, frees, storageFailed);
    assert n.records.Keys == h.records.Keys && n.disk.Keys == h.disk.Keys;
    SubsetSize(n.running, h.running);
  }

  lemma {:induction false} SweepKeeps(h: Hub, p: Pass)
    requires HubInv(h) && Covers(p, h)
    ensures HubInv(Sweep(h, p)) && Sweep(h, p).running == h.running
  {
    var n := Sweep(h, p);
    FewerKeys(n.records.Keys, h.records.Keys);
  }

  lemma {:induction false} StopKeeps(h: Hub, k: Key, state: State, saves: bool)
    requires HubInv(h) && k in h.records && !state.Accepted? && !state.Working?
    ensures var n := Stop(h, k, state, saves); HubInv(n) && n.running == h.running && SameKeys(h, n)
  {
    WrittenKeeps(h, k, Finish(h.records[k], state), saves, false, h.storageFailed || !saves);
  }

  lemma {:induction false} FailedKeeps(h: Hub, k: Key, answered: bool, saves: bool)
    requires HubInv(h) && k in h.records
    ensures var n := Failed(h, k, answered, saves);
            HubInv(n) && n.running == h.running - {k} && SameKeys(h, n)
  {
    if Active(h.records[k]) {
      var r := Finish(h.records[k], if answered then Completed else Unconfirmed);
      WrittenKeeps(h, k, r, saves, true, h.storageFailed || !saves);
    } else {
      SlotKeeps(h, k);
    }
  }

  lemma {:induction false} SlotKeeps(h: Hub, k: Key)
    requires HubInv(h) && k in h.records && !Active(h.records[k])
    ensures HubInv(h.(running := h.running - {k}))
  {
    SubsetSize(h.running - {k}, h.running);
  }

  lemma {:induction false} LaunchKeeps(h: Hub, k: Key, enrolled: bool, answered: bool, saves: bool)
    requires HubInv(h) && k in h.records
    ensures var n := Launch(h, k, enrolled, answered, saves);
            HubInv(n) && SameKeys(h, n) && n.running == if Asks(h, k, enrolled) then h.running else h.running - {k}
  {
    if !Active(h.records[k]) || h.closed {
      SlotKeeps(h, k);
    } else if !enrolled {
      FailedKeeps(h, k, answered, saves);
    } else {
      WrittenKeeps(h, k, h.records[k].(state := Working), false, false, h.storageFailed);
    }
  }

  lemma {:induction false} ReportedKeeps(h: Hub, k: Key, due: bool, saves: bool)
    requires HubInv(h) && k in h.records && Active(h.records[k])
    ensures var n := Reported(h, k, due, saves); HubInv(n) && n.running == h.running && SameKeys(h, n)
  {
    var r := h.records[k].(revision := h.records[k].revision + 1);
    var saved, failed := due && saves, h.storageFailed || (due && !saves);
    WrittenKeeps(h, k, r, saved, false, failed);
    assert Reported(h, k, due, saves) == Written(h, k, r, saved, false, failed);
  }

  lemma {:induction false} ProgressKeeps(h: Hub, k: Key, enrolled: bool, due: bool, saves: bool, stopSaves: bool)
    requires HubInv(h) && k in h.records
    ensures var n := Progress(h, k, enrolled, due, saves, stopSaves);
            HubInv(n) && n.running == h.running && SameKeys(h, n)
  {
    if !Active(h.records[k]) {
    } else if !enrolled {
      StopKeeps(h, k, Unconfirmed, stopSaves);
    } else {
      ReportedKeeps(h, k, due, saves);
      StopKeeps(Reported(h, k, due, saves), k, Unconfirmed, stopSaves);
    }
  }

  lemma {:induction false} SettleKeeps(h: Hub, k: Key, ok: bool, enrolled: bool, answered: bool, saves: bool)
    requires HubInv(h) && k in h.records
    ensures var n := Settle(h, k, ok, enrolled, answered, saves); HubInv(n) && n.running == h.running - {k} && SameKeys(h, n)
  {
    if !ok || !enrolled {
      FailedKeeps(h, k, answered, saves);
    } else if !Active(h.records[k]) {
      SlotKeeps(h, k);
    } else {
      WrittenKeeps(h, k, Finish(h.records[k], Completed), saves, true, h.storageFailed || !saves);
    }
  }

  lemma {:induction false} CancelKeeps(h: Hub, k: Key, past: int, future: int, pass: Pass, enrolled: bool, saves: bool)
    requires HubInv(h) && Covers(pass, h)
    ensures var n := Cancel(h, k, past, future, pass, enrolled, saves); HubInv(n) && n.running == h.running
  {
    SweepKeeps(h, pass);
    if k in Sweep(h, pass).records {
      StopKeeps(Sweep(h, pass), k, Cancelled, saves);
    }
  }

  lemma {:induction false} CloseKeeps(h: Hub, saves: set<Key>)
    requires HubInv(h)
    ensures HubInv(Close(h, saves))
  {
    assert Close(h, saves).records.Keys == h.records.Keys;
  }

  lemma {:induction false} AdmitKeeps(h: Hub, k: Key, r: Record)
    requires HubInv(h) && k !in h.records && !Busy(h, k.node) && !h.closed
    ensures HubInv(h.(records := h.records[k := r], disk := h.disk[k := r], running := h.running + {k}))
  {
    assert h.records[k := r].Keys == h.records.Keys + {k};
    assert h.disk[k := r].Keys == h.disk.Keys + {k};
    OneMore(h.records.Keys, k);
    AdmittedIsAlone(h, k, r);
  }

  lemma {:induction false} AdmittedIsAlone(h: Hub, k: Key, r: Record)
    requires ActiveRuns(h) && OneActivePerNode(h.records) && k !in h.records && !Busy(h, k.node) && !h.closed
    ensures ActiveRuns(h.(records := h.records[k := r], disk := h.disk[k := r], running := h.running + {k}))
    ensures OneActivePerNode(h.records[k := r])
  {
  }

  lemma {:induction false} SubmitKeeps(h: Hub, s: Submission)
    requires HubInv(h) && Covers(s.pass, h)
    ensures var o := Submit(h, s);
            HubInv(o.hub) && o.hub.running == if o.answer.Admitted? then h.running + {s.key} else h.running
  {
    SweepKeeps(h, s.pass);
    var swept, o := Sweep(h, s.pass), Submit(h, s);
    if o.answer.Admitted? {
      var r := o.answer.record;
      AdmitKeeps(swept, s.key, r);
      assert o.hub == swept.(records := swept.records[s.key := r], disk := swept.disk[s.key := r],
                             running := swept.running + {s.key});
    } else if o.hub != h {
      assert o.hub == swept || o.hub == swept.(storageFailed := true);
    }
  }

  lemma {:induction false} RecoverKeeps(disk: Records, read: set<Key>, readings: map<Key, int>, answered: set<Key>)
    requires disk.Keys <= readings.Keys && Few(disk.Keys)
    ensures var r := Recover(disk, read, readings, answered);
            Few(r.Keys) && (disk.Keys <= read ==> forall k :: k in r ==> !Active(r[k]))
  {
    FewerKeys(Recover(disk, read, readings, answered).Keys, disk.Keys);
  }

  // ---- runs ---------------------------------------------------------------------------------

  // queued: admitted requests whose start has not run yet. asking: requests the agent is working on. asked: every
  // time the agent was asked, in order, over all processes.
  datatype World = World(up: bool, hub: Hub, queued: set<Key>, asking: set<Key>, asked: seq<Key>, now: int)

  // This program may die between any two steps, also while it recovers: `read` is the part of the files it got to.
  datatype Event =
    | Submitted(s: Submission)
    | Launched(k: Key, enrolled: bool, answered: bool, saves: bool)
    | Progressed(k: Key, enrolled: bool, due: bool, saves: bool, stopSaves: bool)
    | Answered(k: Key, ok: bool, enrolled: bool, answered: bool, saves: bool)
    | Swept(p: Pass, at: int)
    | CancelAsked(k: Key, past: int, future: int, p: Pass, at: int, enrolled: bool, saves: bool)
    | Closed(written: set<Key>)
    | Died
    | Recovered(read: set<Key>, readings: map<Key, int>, done: set<Key>, at: int)

  ghost predicate Between(readings: map<Key, int>, first: int, last: int) {
    forall k :: k in readings ==> first <= readings[k] <= last
  }

  ghost predicate Enabled(w: World, e: Event) {
    match e
    case Submitted(s) =>
      && w.up && Covers(s.pass, w.hub) && w.now <= s.past <= s.future <= s.late
      && Between(s.pass.deadline, s.future, s.late) && Between(s.pass.expiry, s.future, s.late)
    case Launched(k, _, _, _) => w.up && k in w.queued && k in w.hub.records
    case Progressed(k, _, _, _, _) => w.up && k in w.asking && k in w.hub.records
    case Answered(k, _, _, _, _) => w.up && k in w.asking && k in w.hub.records
    case Swept(p, at) =>
      w.up && Covers(p, w.hub) && w.now <= at && Between(p.deadline, w.now, at) && Between(p.expiry, w.now, at)
    case CancelAsked(k, past, future, p, at, _, _) =>
      && w.up && Covers(p, w.hub) && w.now <= past <= future <= at
      && Between(p.deadline, future, at) && Between(p.expiry, future, at)
    case Closed(written) => w.up
    case Died => true
    case Recovered(read, readings, done, at) =>
      !w.up && w.hub.disk.Keys <= readings.Keys && w.now <= at && Between(readings, w.now, at)
  }

  ghost function Next(w: World, e: Event): (n: World)
    requires Enabled(w, e)
  {
    match e
    case Submitted(s) =>
      var o := Submit(w.hub, s);
      w.(hub := o.hub, now := s.late, queued := if o.answer.Admitted? then w.queued + {s.key} else w.queued)
    case Launched(k, enrolled, answered, saves) =>
      var asks := Asks(w.hub, k, enrolled);
      w.(hub := Launch(w.hub, k, enrolled, answered, saves), queued := w.queued - {k},
         asking := if asks then w.asking + {k} else w.asking, asked := if asks then w.asked + [k] else w.asked)
    case Progressed(k, enrolled, due, saves, stopSaves) =>
      w.(hub := Progress(w.hub, k, enrolled, due, saves, stopSaves))
    case Answered(k, ok, enrolled, answered, saves) =>
      w.(hub := Settle(w.hub, k, ok, enrolled, answered, saves), asking := w.asking - {k})
    case Swept(p, at) => w.(hub := Sweep(w.hub, p), now := at)
    case CancelAsked(k, past, future, p, at, enrolled, saves) =>
      w.(hub := Cancel(w.hub, k, past, future, p, enrolled, saves), now := at)
    case Closed(written) => w.(hub := Close(w.hub, written))
    case Died => w.(up := false, hub := Hub(map[], w.hub.disk, {}, false, true), queued := {}, asking := {})
    case Recovered(read, readings, done, at) =>
      var disk := Recover(w.hub.disk, read, readings, done);
      if w.hub.disk.Keys <= read
      then w.(up := true, hub := Hub(disk, disk, {}, false, false), now := at)
      else w.(hub := w.hub.(disk := disk), now := at)
  }

  // `checkId` reads the clock before the expiry and this submission's own sweep reads it after.
  ghost predicate Straddles(s: Submission) {
    s.key in s.pass.expiry && s.past <= Expiry(s.key) < s.pass.expiry[s.key]
  }

  ghost predicate Run(w: World, events: seq<Event>, last: World)
    decreases |events|
  {
    if events == [] then last == w
    else Enabled(w, events[0]) && Run(Next(w, events[0]), events[1..], last)
  }

  ghost predicate OneReading(events: seq<Event>) {
    forall e :: e in events && e.Submitted? ==> !Straddles(e.s)
  }

  function New(now: int): (w: World) {
    World(true, Hub(map[], map[], {}, false, false), {}, {}, [], now)
  }

  // ---- what every step keeps ----------------------------------------------------------------

  // A request the agent was asked has its file, or `checkId` refuses its id from now on.
  ghost predicate Claimed(disk: Records, asked: seq<Key>, now: int) {
    forall k :: k in asked ==> k in disk || Expiry(k) < now
  }

  ghost predicate AskedOnce(asked: seq<Key>) {
    forall i, j :: 0 <= i < j < |asked| ==> asked[i] != asked[j]
  }

  ghost predicate Inv(w: World) {
    && Few(w.hub.disk.Keys)
    && (if w.up then HubInv(w.hub) else w.hub.closed && w.hub.records == map[] && w.hub.running == {})
    && Slots(w.queued, w.asking, w.hub.running, w.asked)
    && Claimed(w.hub.disk, w.asked, w.now)
  }

  // A slot is held from the admission until the agent settles; what is queued has never been asked.
  ghost predicate Slots(queued: set<Key>, asking: set<Key>, running: set<Key>, asked: seq<Key>) {
    && queued !! asking && queued + asking == running && AskedOnce(asked)
    && forall k :: k in queued ==> k !in asked
  }

  lemma {:induction false} SlotQueued(queued: set<Key>, asking: set<Key>, running: set<Key>, asked: seq<Key>, k: Key)
    requires Slots(queued, asking, running, asked) && k !in running && k !in asked
    ensures Slots(queued + {k}, asking, running + {k}, asked)
  {
  }

  lemma {:induction false} SlotAsks(queued: set<Key>, asking: set<Key>, running: set<Key>, asked: seq<Key>, k: Key)
    requires Slots(queued, asking, running, asked) && k in queued
    ensures Slots(queued - {k}, asking + {k}, running, asked + [k])
  {
  }

  lemma {:induction false} SlotUnasked(queued: set<Key>, asking: set<Key>, running: set<Key>, asked: seq<Key>, k: Key)
    requires Slots(queued, asking, running, asked) && k in queued
    ensures Slots(queued - {k}, asking, running - {k}, asked)
  {
  }

  lemma {:induction false} SlotSettled(queued: set<Key>, asking: set<Key>, running: set<Key>, asked: seq<Key>, k: Key)
    requires Slots(queued, asking, running, asked) && k in asking
    ensures Slots(queued, asking - {k}, running - {k}, asked)
  {
  }

  lemma {:induction false} Assemble(hub: Hub, queued: set<Key>, asking: set<Key>, asked: seq<Key>, now: int)
    requires HubInv(hub) && Slots(queued, asking, hub.running, asked) && Claimed(hub.disk, asked, now)
    ensures Inv(World(true, hub, queued, asking, asked, now))
  {
  }

  // An operation that deletes only expired files keeps every claim.
  lemma {:induction false} ClaimsKept(was: Records, disk: Records, asked: seq<Key>, now: int, later: int)
    requires Claimed(was, asked, now) && now <= later
    requires forall k :: k in was ==> k in disk || Expiry(k) < later
    ensures Claimed(disk, asked, later)
  {
  }

  lemma {:induction false} SweepDeletesExpired(h: Hub, p: Pass, later: int)
    requires Covers(p, h) && forall k :: k in p.expiry ==> p.expiry[k] <= later
    ensures forall k :: k in h.disk ==> k in Sweep(h, p).disk || Expiry(k) < later
  {
  }

  lemma {:induction false} SubmitDeletesExpired(h: Hub, s: Submission)
    requires Covers(s.pass, h) && forall k :: k in s.pass.expiry ==> s.pass.expiry[k] <= s.late
    ensures forall k :: k in h.disk ==> k in Submit(h, s).hub.disk || Expiry(k) < s.late
  {
    SweepDeletesExpired(h, s.pass, s.late);
  }

  lemma {:induction false} CancelDeletesExpired(h: Hub, k: Key, past: int, future: int, p: Pass, at: int, enrolled: bool,
                                                saves: bool)
    requires Covers(p, h) && forall k :: k in p.expiry ==> p.expiry[k] <= at
    ensures forall l :: l in h.disk ==> l in Cancel(h, k, past, future, p, enrolled, saves).disk || Expiry(l) < at
  {
    SweepDeletesExpired(h, p, at);
  }

  // The heart: a request that was asked is not admitted again, unless its submission straddles the expiry.
  lemma {:induction false} AdmittedIsNew(w: World, s: Submission)
    requires Inv(w) && Enabled(w, Submitted(s)) && Submit(w.hub, s).answer.Admitted? && !Straddles(s)
    ensures s.key !in w.asked && s.key !in w.hub.records
  {
    var swept := Sweep(w.hub, s.pass);
    assert s.key !in swept.records;
  }

  lemma {:induction false} SubmittedKeeps(w: World, s: Submission)
    requires Inv(w) && Enabled(w, Submitted(s)) && !Straddles(s)
    ensures Inv(Next(w, Submitted(s)))
  {
    var o := Submit(w.hub, s);
    SubmitKeeps(w.hub, s);
    SubmitDeletesExpired(w.hub, s);
    ClaimsKept(w.hub.disk, o.hub.disk, w.asked, w.now, s.late);
    if o.answer.Admitted? {
      AdmittedIsNew(w, s);
      SlotQueued(w.queued, w.asking, w.hub.running, w.asked, s.key);
    }
  }

  lemma {:induction false} AskKeeps(w: World, k: Key, answered: bool, saves: bool)
    requires Inv(w) && Enabled(w, Launched(k, true, answered, saves)) && Asks(w.hub, k, true)
    ensures Inv(Next(w, Launched(k, true, answered, saves)))
  {
    LaunchKeeps(w.hub, k, true, answered, saves);
    SlotAsks(w.queued, w.asking, w.hub.running, w.asked, k);
    Assemble(Launch(w.hub, k, true, answered, saves), w.queued - {k}, w.asking + {k}, w.asked + [k], w.now);
  }

  lemma {:induction false} LaunchedKeeps(w: World, k: Key, enrolled: bool, answered: bool, saves: bool)
    requires Inv(w) && Enabled(w, Launched(k, enrolled, answered, saves))
    ensures Inv(Next(w, Launched(k, enrolled, answered, saves)))
  {
    if Asks(w.hub, k, enrolled) {
      AskKeeps(w, k, answered, saves);
    } else {
      LaunchKeeps(w.hub, k, enrolled, answered, saves);
      SlotUnasked(w.queued, w.asking, w.hub.running, w.asked, k);
      Assemble(Launch(w.hub, k, enrolled, answered, saves), w.queued - {k}, w.asking, w.asked, w.now);
    }
  }

  lemma {:induction false} ProgressedKeeps(w: World, k: Key, enrolled: bool, due: bool, saves: bool, stopSaves: bool)
    requires Inv(w) && Enabled(w, Progressed(k, enrolled, due, saves, stopSaves))
    ensures Inv(Next(w, Progressed(k, enrolled, due, saves, stopSaves)))
  {
    ProgressKeeps(w.hub, k, enrolled, due, saves, stopSaves);
  }

  lemma {:induction false} AnsweredKeeps(w: World, k: Key, ok: bool, enrolled: bool, answered: bool, saves: bool)
    requires Inv(w) && Enabled(w, Answered(k, ok, enrolled, answered, saves))
    ensures Inv(Next(w, Answered(k, ok, enrolled, answered, saves)))
  {
    SettleKeeps(w.hub, k, ok, enrolled, answered, saves);
    SlotSettled(w.queued, w.asking, w.hub.running, w.asked, k);
    Assemble(Settle(w.hub, k, ok, enrolled, answered, saves), w.queued, w.asking - {k}, w.asked, w.now);
  }

  lemma {:induction false} SweptKeeps(w: World, p: Pass, at: int)
    requires Inv(w) && Enabled(w, Swept(p, at))
    ensures Inv(Next(w, Swept(p, at)))
  {
    SweepKeeps(w.hub, p);
    SweepDeletesExpired(w.hub, p, at);
    ClaimsKept(w.hub.disk, Sweep(w.hub, p).disk, w.asked, w.now, at);
  }

  lemma {:induction false} CancelAskedKeeps(w: World, k: Key, past: int, future: int, p: Pass, at: int, enrolled: bool,
                                            saves: bool)
    requires Inv(w) && Enabled(w, CancelAsked(k, past, future, p, at, enrolled, saves))
    ensures Inv(Next(w, CancelAsked(k, past, future, p, at, enrolled, saves)))
  {
    CancelKeeps(w.hub, k, past, future, p, enrolled, saves);
    CancelDeletesExpired(w.hub, k, past, future, p, at, enrolled, saves);
    var n := Cancel(w.hub, k, past, future, p, enrolled, saves);
    ClaimsKept(w.hub.disk, n.disk, w.asked, w.now, at);
    Assemble(n, w.queued, w.asking, w.asked, at);
  }

  lemma {:induction false} ClosedKeeps(w: World, written: set<Key>)
    requires Inv(w) && Enabled(w, Closed(written))
    ensures Inv(Next(w, Closed(written)))
  {
    CloseKeeps(w.hub, written);
    ClaimsKept(w.hub.disk, Close(w.hub, written).disk, w.asked, w.now, w.now);
  }

  lemma {:induction false} RecoveredKeeps(w: World, read: set<Key>, readings: map<Key, int>, done: set<Key>, at: int)
    requires Inv(w) && Enabled(w, Recovered(read, readings, done, at))
    ensures Inv(Next(w, Recovered(read, readings, done, at)))
  {
    RecoverKeeps(w.hub.disk, read, readings, done);
    ClaimsKept(w.hub.disk, Recover(w.hub.disk, read, readings, done), w.asked, w.now, at);
  }

  lemma {:induction false} StepKeeps(w: World, e: Event)
    requires Inv(w) && Enabled(w, e) && (e.Submitted? ==> !Straddles(e.s))
    ensures Inv(Next(w, e))
  {
    match e {
      case Submitted(s) => SubmittedKeeps(w, s);
      case Launched(k, enrolled, answered, saves) => LaunchedKeeps(w, k, enrolled, answered, saves);
      case Progressed(k, enrolled, due, saves, stopSaves) => ProgressedKeeps(w, k, enrolled, due, saves, stopSaves);
      case Answered(k, ok, enrolled, answered, saves) => AnsweredKeeps(w, k, ok, enrolled, answered, saves);
      case Swept(p, at) => SweptKeeps(w, p, at);
      case CancelAsked(k, past, future, p, at, enrolled, saves) =>
        CancelAskedKeeps(w, k, past, future, p, at, enrolled, saves);
      case Closed(written) => ClosedKeeps(w, written);
      case Died =>
      case Recovered(read, readings, done, at) => RecoveredKeeps(w, read, readings, done, at);
    }
  }

  lemma {:induction false} RunKeeps(w: World, events: seq<Event>, last: World)
    requires Inv(w) && Run(w, events, last) && OneReading(events)
    ensures Inv(last)
    decreases |events|
  {
    if events != [] {
      assert events[0] in events;
      StepKeeps(w, events[0]);
      RunKeeps(Next(w, events[0]), events[1..], last);
    }
  }

  // ---- main results -------------------------------------------------------------------------

  // In every run with crashes, including crashes during recovery, in which no submission reads the clock on both
  // sides of its id's expiry: each request is asked at most once, every active request holds a slot, each node has
  // at most one and this program runs at most sixteen.
  lemma {:induction false} EveryRunIsSafe(now: int, events: seq<Event>, w: World)
    requires Run(New(now), events, w) && OneReading(events)
    ensures AskedOnce(w.asked) && Claimed(w.hub.disk, w.asked, w.now)
    ensures w.up ==> ActiveRuns(w.hub) && OneActivePerNode(w.hub.records) && |w.hub.records| <= 512
    ensures |w.hub.running| <= 16
  {
    assert Own({}, 0) == {};
    forall node ensures |Own({}, node)| <= MAX_PER_NODE {
      assert Own({}, node) == {};
    }
    assert Inv(New(now));
    RunKeeps(New(now), events, w);
  }

  // The agent is asked only when the claim is on disk.
  lemma {:induction false} AskedUnderClaim(w: World, e: Event)
    requires Inv(w) && Enabled(w, e) && Next(w, e).asked != w.asked
    ensures e.Launched? && Next(w, e).asked == w.asked + [e.k] && e.k in w.hub.disk
    ensures Active(w.hub.records[e.k]) && e.k !in w.asked
  {
    assert e.Launched?;
  }

  // Right after a recovery nothing is active and nothing will be asked.
  lemma {:induction false} RecoveryIsQuiet(w: World, e: Event)
    requires Inv(w) && Enabled(w, e) && e.Recovered? && Next(w, e).up
    ensures forall k :: k in Next(w, e).hub.records ==> !Active(Next(w, e).hub.records[k])
    ensures Next(w, e).queued == {} && Next(w, e).asking == {}
  {
    RecoverKeeps(w.hub.disk, e.read, e.readings, e.done);
  }

  ghost predicate Final(h: Hub, n: Hub, k: Key) {
    k in h.records && !Active(h.records[k]) && k in n.records ==> n.records[k] == h.records[k]
  }

  lemma {:induction false} SweepFinal(h: Hub, p: Pass, k: Key)
    requires Covers(p, h)
    ensures Final(h, Sweep(h, p), k)
  {
  }

  lemma {:induction false} StopFinal(h: Hub, l: Key, state: State, saves: bool, k: Key)
    requires l in h.records
    ensures Final(h, Stop(h, l, state, saves), k)
  {
  }

  lemma {:induction false} SubmitFinal(h: Hub, s: Submission, k: Key)
    requires Covers(s.pass, h) && (Submit(h, s).answer.Admitted? ==> s.key !in h.records)
    ensures Final(h, Submit(h, s).hub, k)
  {
    SweepFinal(h, s.pass, k);
  }

  lemma {:induction false} AskFinal(h: Hub, l: Key, enrolled: bool, answered: bool, saves: bool, k: Key)
    requires l in h.records
    ensures Final(h, Launch(h, l, enrolled, answered, saves), k)
  {
  }

  lemma {:induction false} ProgressFinal(h: Hub, l: Key, enrolled: bool, due: bool, saves: bool, stopSaves: bool, k: Key)
    requires l in h.records
    ensures Final(h, Progress(h, l, enrolled, due, saves, stopSaves), k)
  {
  }

  lemma {:induction false} SettleFinal(h: Hub, l: Key, ok: bool, enrolled: bool, answered: bool, saves: bool, k: Key)
    requires l in h.records
    ensures Final(h, Settle(h, l, ok, enrolled, answered, saves), k)
  {
  }


  lemma {:induction false} CancelFinal(h: Hub, l: Key, past: int, future: int, p: Pass, enrolled: bool, saves: bool, k: Key)
    requires Covers(p, h)
    ensures Final(h, Cancel(h, l, past, future, p, enrolled, saves), k)
  {
    SweepFinal(h, p, k);
    if l in Sweep(h, p).records {
      StopFinal(Sweep(h, p), l, Cancelled, saves, k);
    }
  }

  // Within one process a terminal record never changes again.
  lemma {:induction false} TerminalIsFinal(w: World, e: Event, k: Key)
    requires Inv(w) && w.up && Enabled(w, e) && !e.Died? && (e.Submitted? ==> !Straddles(e.s))
    ensures Final(w.hub, Next(w, e).hub, k)
  {
    match e {
      case Submitted(s) =>
        if Submit(w.hub, s).answer.Admitted? {
          AdmittedIsNew(w, s);
        }
        SubmitFinal(w.hub, s, k);
      case Launched(l, enrolled, answered, saves) => AskFinal(w.hub, l, enrolled, answered, saves, k);
      case Progressed(l, enrolled, due, saves, stopSaves) =>
        ProgressFinal(w.hub, l, enrolled, due, saves, stopSaves, k);
      case Answered(l, ok, enrolled, answered, saves) => SettleFinal(w.hub, l, ok, enrolled, answered, saves, k);
      case Swept(p, at) => SweepFinal(w.hub, p, k);
      case CancelAsked(l, past, future, p, at, enrolled, saves) =>
        CancelFinal(w.hub, l, past, future, p, enrolled, saves, k);
      case Closed(written) =>
      case Recovered(read, readings, done, at) =>
    }
  }

  // ---- how a request ends -------------------------------------------------------------------

  // What ended a request. Found and NotFound: it failed, or a new process found it open, and the conversation did or did
  // not show an answer.
  datatype Cause = Arrived | Found | NotFound | CancelRequested | Revoked | Overdue | ProgressLost | HubClosed

  datatype Option<T> = None | Some(value: T)

  function StateFor(c: Cause): (s: State) {
    match c
    case Arrived => Completed
    case Found => Completed
    case CancelRequested => Cancelled
    case Revoked => Cancelled
    case _ => Unconfirmed
  }

  predicate Open(h: Hub, k: Key) {
    k in h.records && (h.records[k].state == Accepted || h.records[k].state == Working)
  }

  // A pass over the records ends what is open and revoked or past its deadline.
  function SweepCause(h: Hub, p: Pass, k: Key, c: Option<Cause>): (r: Option<Cause>) {
    if !Open(h, k) || k !in p.deadline then c
    else if k.node !in p.enrolled then Some(Revoked)
    else if p.deadline[k] >= h.records[k].deadline then Some(Overdue)
    else c
  }

  predicate Welcome(enrolled: bool, k: Key, past: int, future: int) {
    enrolled && past - 24 * 60 * 60 * 1000 <= k.created <= future + 60 * 1000
  }

  // What has ended the request k after this event, if anything has since it was admitted.
  ghost function CauseAfter(w: World, e: Event, k: Key, c: Option<Cause>): (r: Option<Cause>)
    requires Enabled(w, e)
  {
    match e
    case Submitted(s) =>
      if !Welcome(s.enrolled, s.key, s.past, s.future) || w.hub.closed || w.hub.storageFailed then c
      else if s.key == k && Submit(w.hub, s).answer.Admitted? then None
      else SweepCause(w.hub, s.pass, k, c)
    case Launched(l, enrolled, answered, saves) =>
      if l == k && Open(w.hub, k) && !w.hub.closed && !enrolled then Some(if answered then Found else NotFound) else c
    case Progressed(l, enrolled, due, saves, stopSaves) =>
      if l == k && Open(w.hub, k) && (!enrolled || (due && !saves)) then Some(ProgressLost) else c
    case Answered(l, ok, enrolled, answered, saves) =>
      if l != k || !Open(w.hub, k) then c
      else if ok && enrolled then Some(Arrived)
      else Some(if answered then Found else NotFound)
    case Swept(p, at) => SweepCause(w.hub, p, k, c)
    case CancelAsked(l, past, future, p, at, enrolled, saves) =>
      if !Welcome(enrolled, l, past, future) then c
      else if l == k && Open(w.hub, k) && SweepCause(w.hub, p, k, None).None? then Some(CancelRequested)
      else SweepCause(w.hub, p, k, c)
    case Closed(written) => if Open(w.hub, k) then Some(HubClosed) else c
    case Died => c
    case Recovered(read, readings, done, at) =>
      if k in w.hub.disk && k in read && (w.hub.disk[k].state == Accepted || w.hub.disk[k].state == Working)
      then Some(if k in done then Found else NotFound) else c
  }

  // In memory a request is open exactly as long as nothing has ended it, and then is in the state that calls for. Its
  // file says so too, or still says it is open because storage has failed.
  ghost predicate ToldIn(h: Hub, k: Key, c: Option<Cause>) {
    && (k in h.disk <==> k in h.records)
    && (k in h.records ==>
          && (if Open(h, k) then c.None? else c.Some? && h.records[k].state == StateFor(c.value))
          && (if Active(h.disk[k]) then Open(h, k) || h.storageFailed else h.disk[k] == h.records[k]))
  }

  ghost predicate Told(w: World, k: Key, c: Option<Cause>) {
    if w.up then ToldIn(w.hub, k, c)
    else k in w.hub.disk && !Active(w.hub.disk[k]) ==> c.Some? && w.hub.disk[k].state == StateFor(c.value)
  }

  lemma {:induction false} SweepTold(h: Hub, p: Pass, k: Key, c: Option<Cause>)
    requires ToldIn(h, k, c) && Covers(p, h)
    ensures ToldIn(Sweep(h, p), k, SweepCause(h, p, k, c))
  {
    if k in h.records && Stopped(h, k, p) && k !in p.saves {
      assert SweepFails(h, p);
    }
  }

  lemma {:induction false} StopTold(h: Hub, k: Key, l: Key, c: Option<Cause>, cause: Cause, saves: bool)
    requires ToldIn(h, k, c) && l in h.records
    ensures ToldIn(Stop(h, l, StateFor(cause), saves), k, if l == k && Open(h, k) then Some(cause) else c)
  {
  }

  lemma {:induction false} FailedTold(h: Hub, k: Key, l: Key, c: Option<Cause>, answered: bool, saves: bool)
    requires ToldIn(h, k, c) && l in h.records
    ensures ToldIn(Failed(h, l, answered, saves), k,
                   if l == k && Open(h, k) then Some(if answered then Found else NotFound) else c)
  {
  }

  lemma {:induction false} SubmitTold(h: Hub, s: Submission, k: Key, c: Option<Cause>)
    requires ToldIn(h, k, c) && Covers(s.pass, h)
    ensures ToldIn(Submit(h, s).hub, k,
                   if !Welcome(s.enrolled, s.key, s.past, s.future) || h.closed || h.storageFailed then c
                   else if s.key == k && Submit(h, s).answer.Admitted? then None
                   else SweepCause(h, s.pass, k, c))
  {
    SweepTold(h, s.pass, k, c);
  }

  lemma {:induction false} LaunchTold(h: Hub, l: Key, enrolled: bool, answered: bool, saves: bool, k: Key, c: Option<Cause>)
    requires ToldIn(h, k, c) && l in h.records
    ensures ToldIn(Launch(h, l, enrolled, answered, saves), k,
                   if l == k && Open(h, k) && !h.closed && !enrolled then Some(if answered then Found else NotFound) else c)
  {
    FailedTold(h, k, l, c, answered, saves);
  }

  lemma {:induction false} ReportedTold(h: Hub, l: Key, k: Key, c: Option<Cause>, due: bool, saves: bool)
    requires ToldIn(h, k, c) && Open(h, l)
    ensures ToldIn(Reported(h, l, due, saves), k, c)
    ensures forall m :: Open(Reported(h, l, due, saves), m) <==> Open(h, m)
  {
  }

  lemma {:induction false} ProgressTold(h: Hub, l: Key, enrolled: bool, due: bool, saves: bool, stopSaves: bool, k: Key,
                                        c: Option<Cause>)
    requires ToldIn(h, k, c) && l in h.records
    ensures ToldIn(Progress(h, l, enrolled, due, saves, stopSaves), k,
                   if l == k && Open(h, k) && (!enrolled || (due && !saves)) then Some(ProgressLost) else c)
  {
    if Open(h, l) {
      ReportedTold(h, l, k, c, due, saves);
      StopTold(h, k, l, c, ProgressLost, stopSaves);
      StopTold(Reported(h, l, due, saves), k, l, c, ProgressLost, stopSaves);
    }
  }

  lemma {:induction false} SettleTold(h: Hub, l: Key, ok: bool, enrolled: bool, answered: bool, saves: bool, k: Key,
                                      c: Option<Cause>)
    requires ToldIn(h, k, c) && l in h.records
    ensures ToldIn(Settle(h, l, ok, enrolled, answered, saves), k,
                   if l != k || !Open(h, k) then c
                   else if ok && enrolled then Some(Arrived)
                   else Some(if answered then Found else NotFound))
  {
    FailedTold(h, k, l, c, answered, saves);
  }

  lemma {:induction false} CancelTold(h: Hub, l: Key, past: int, future: int, p: Pass, enrolled: bool, saves: bool, k: Key,
                                      c: Option<Cause>)
    requires ToldIn(h, k, c) && Covers(p, h)
    ensures ToldIn(Cancel(h, l, past, future, p, enrolled, saves), k,
                   if !Welcome(enrolled, l, past, future) then c
                   else if l == k && Open(h, k) && SweepCause(h, p, k, None).None? then Some(CancelRequested)
                   else SweepCause(h, p, k, c))
  {
    if Welcome(enrolled, l, past, future) {
      var swept := Sweep(h, p);
      SweepTold(h, p, k, c);
      if l in swept.records {
        StopTold(swept, k, l, SweepCause(h, p, k, c), CancelRequested, saves);
      }
    }
  }

  lemma {:induction false} CloseTold(h: Hub, written: set<Key>, k: Key, c: Option<Cause>)
    requires ToldIn(h, k, c)
    ensures ToldIn(Close(h, written), k, if Open(h, k) then Some(HubClosed) else c)
  {
  }

  lemma {:induction false} RecoveredTold(w: World, e: Event, k: Key, c: Option<Cause>)
    requires Told(w, k, c) && Enabled(w, e) && e.Recovered?
    ensures Told(Next(w, e), k, CauseAfter(w, e, k, c))
  {
  }

  lemma {:induction false} StepTold(w: World, e: Event, k: Key, c: Option<Cause>)
    requires Told(w, k, c) && Enabled(w, e)
    ensures Told(Next(w, e), k, CauseAfter(w, e, k, c))
  {
    match e {
      case Submitted(s) => SubmitTold(w.hub, s, k, c);
      case Launched(l, enrolled, answered, saves) => LaunchTold(w.hub, l, enrolled, answered, saves, k, c);
      case Progressed(l, enrolled, due, saves, stopSaves) => ProgressTold(w.hub, l, enrolled, due, saves, stopSaves, k, c);
      case Answered(l, ok, enrolled, answered, saves) => SettleTold(w.hub, l, ok, enrolled, answered, saves, k, c);
      case Swept(p, at) => SweepTold(w.hub, p, k, c);
      case CancelAsked(l, past, future, p, at, enrolled, saves) =>
        CancelTold(w.hub, l, past, future, p, enrolled, saves, k, c);
      case Closed(written) => CloseTold(w.hub, written, k, c);
      case Died =>
      case Recovered(_, _, _, _) => RecoveredTold(w, e, k, c);
    }
  }

  // What has ended k after these events.
  ghost function CauseOf(w: World, events: seq<Event>, last: World, k: Key, c: Option<Cause>): (r: Option<Cause>)
    requires Run(w, events, last)
    decreases |events|
  {
    if events == [] then c else CauseOf(Next(w, events[0]), events[1..], last, k, CauseAfter(w, events[0], k, c))
  }

  lemma {:induction false} RunTold(w: World, events: seq<Event>, last: World, k: Key, c: Option<Cause>)
    requires Told(w, k, c) && Run(w, events, last)
    ensures Told(last, k, CauseOf(w, events, last, k, c))
    decreases |events|
  {
    if events != [] {
      StepTold(w, events[0], k, c);
      RunTold(Next(w, events[0]), events[1..], last, k, CauseAfter(w, events[0], k, c));
    }
  }

  // In every run, with crashes and also with straddling submissions: a request is completed exactly if its answer
  // arrived or was found in the conversation, cancelled exactly if that was asked for or its node was revoked, open
  // exactly as long as nothing has ended it, and unconfirmed otherwise. Unless storage has failed its file agrees.
  lemma {:induction false} EveryStateHasItsCause(now: int, events: seq<Event>, w: World, k: Key)
    requires Run(New(now), events, w)
    ensures Told(w, k, CauseOf(New(now), events, w, k, None))
  {
    RunTold(New(now), events, w, k, None);
  }

  // A recovery completes what was open and answered, makes the rest of what was open unconfirmed, drops what has expired
  // and changes nothing else.
  lemma {:induction false} RecoveredFile(w: World, e: Event, k: Key)
    requires Enabled(w, e) && e.Recovered? && k in w.hub.disk && k in e.read
    ensures var was, disk := w.hub.disk[k], Next(w, e).hub.disk;
            && (k in disk <==> k.created + 24 * 60 * 60 * 1000 >= e.readings[k])
            && (k in disk && (was.state == Accepted || was.state == Working) ==>
                  disk[k] == Record(was.digest, if k in e.done then Completed else Unconfirmed, was.revision + 1, was.deadline))
            && (k in disk && was.state != Accepted && was.state != Working ==> disk[k] == was)
  {
  }

  // A request keeps its question and its deadline, and its revision grows with every change that is not just a start.
  ghost predicate Follows(r: Record, n: Record) {
    && n.digest == r.digest && n.deadline == r.deadline && n.revision >= r.revision
    && (n.revision == r.revision ==> n == r || n == r.(state := Working))
  }

  lemma {:induction false} RecordsFollow(w: World, e: Event, k: Key)
    requires Enabled(w, e) && w.up && k in w.hub.records && k in Next(w, e).hub.records
    requires e.Submitted? && e.s.key == k ==> !Submit(w.hub, e.s).answer.Admitted?
    ensures Follows(w.hub.records[k], Next(w, e).hub.records[k])
  {
    match e {
      case Submitted(s) => SubmitFollows(w.hub, s, k);
      case Launched(l, enrolled, answered, saves) => LaunchFollows(w.hub, l, enrolled, answered, saves, k);
      case Progressed(l, enrolled, due, saves, stopSaves) => ProgressFollows(w.hub, l, enrolled, due, saves, stopSaves, k);
      case Answered(l, ok, enrolled, answered, saves) => SettleFollows(w.hub, l, ok, enrolled, answered, saves, k);
      case CancelAsked(l, past, future, p, at, enrolled, saves) => CancelFollows(w.hub, l, past, future, p, enrolled, saves, k);
      case _ =>
    }
  }

  lemma {:induction false} SubmitFollows(h: Hub, s: Submission, k: Key)
    requires Covers(s.pass, h) && k in h.records && (s.key == k ==> !Submit(h, s).answer.Admitted?)
    ensures var n := Submit(h, s).hub; k in n.records ==> Follows(h.records[k], n.records[k])
  {
    var swept := Sweep(h, s.pass);
    assert k in swept.records ==> Follows(h.records[k], swept.records[k]);
  }

  lemma {:induction false} LaunchFollows(h: Hub, l: Key, enrolled: bool, answered: bool, saves: bool, k: Key)
    requires l in h.records && k in h.records
    ensures var n := Launch(h, l, enrolled, answered, saves); k in n.records && Follows(h.records[k], n.records[k])
  {
  }

  lemma {:induction false} SettleFollows(h: Hub, l: Key, ok: bool, enrolled: bool, answered: bool, saves: bool, k: Key)
    requires l in h.records && k in h.records
    ensures var n := Settle(h, l, ok, enrolled, answered, saves); k in n.records && Follows(h.records[k], n.records[k])
  {
  }

  lemma {:induction false} ProgressFollows(h: Hub, l: Key, enrolled: bool, due: bool, saves: bool, stopSaves: bool, k: Key)
    requires l in h.records && k in h.records
    ensures var n := Progress(h, l, enrolled, due, saves, stopSaves); k in n.records && Follows(h.records[k], n.records[k])
  {
  }

  lemma {:induction false} CancelFollows(h: Hub, l: Key, past: int, future: int, p: Pass, enrolled: bool, saves: bool, k: Key)
    requires Covers(p, h) && k in h.records
    ensures var n := Cancel(h, l, past, future, p, enrolled, saves); k in n.records ==> Follows(h.records[k], n.records[k])
  {
  }

  // A report about an open request counts as one revision more, and is saved when it is due; without access, or when the
  // save fails, the request ends.
  lemma {:induction false} ReportedRecord(h: Hub, k: Key, enrolled: bool, due: bool, saves: bool, stopSaves: bool)
    requires k in h.records
    ensures var n, r := Progress(h, k, enrolled, due, saves, stopSaves), h.records[k];
            && (!Open(h, k) ==> n == h)
            && (Open(h, k) && enrolled && (due ==> saves) ==>
                  && n.records == h.records[k := r.(revision := r.revision + 1)]
                  && n.disk == (if due then h.disk[k := r.(revision := r.revision + 1)] else h.disk)
                  && n.running == h.running && n.storageFailed == h.storageFailed)
            && (Open(h, k) && (!enrolled || (due && !saves)) ==>
                  && !Open(n, k) && k in n.records && n.records[k].state == Unconfirmed && n.running == h.running
                  && (due && !saves && enrolled ==> n.storageFailed))
  {
  }

  // A cancellation of a request that is kept leaves it settled.
  lemma {:induction false} CancelSettles(w: World, e: Event)
    requires Enabled(w, e) && e.CancelAsked? && Welcome(e.enrolled, e.k, e.past, e.future)
    ensures !Open(Next(w, e).hub, e.k)
  {
    var swept := Sweep(w.hub, e.p);
    if e.k in swept.records {
      StopCloses(swept, e.k, Cancelled, e.saves);
    }
  }

  lemma {:induction false} StopCloses(h: Hub, k: Key, state: State, saves: bool)
    requires k in h.records && state != Accepted && state != Working
    ensures !Open(Stop(h, k, state, saves), k)
  {
  }

  // A sweep leaves nothing open that is revoked or past its deadline, and drops what has expired and is not running.
  lemma {:induction false} SweepSettles(h: Hub, p: Pass, k: Key)
    requires Covers(p, h) && Open(Sweep(h, p), k)
    ensures Open(h, k) && k.node in p.enrolled && p.deadline[k] < h.records[k].deadline
  {
  }

  lemma {:induction false} SweepDrops(h: Hub, p: Pass, k: Key)
    requires Covers(p, h) && k in h.records
    ensures k !in Sweep(h, p).records <==>
              p.expiry[k] > k.created + 24 * 60 * 60 * 1000 && k !in h.running && k in p.unlinks
  {
  }

  // A sweep in which a write or a deletion fails ends the admissions, and no other does.
  lemma {:induction false} SweepReports(h: Hub, p: Pass)
    requires Covers(p, h)
    ensures Sweep(h, p).storageFailed <==>
      || h.storageFailed
      || (exists k :: Open(h, k) && (k.node !in p.enrolled || p.deadline[k] >= h.records[k].deadline) && k !in p.saves)
      || exists k :: k in h.records && p.expiry[k] > k.created + 24 * 60 * 60 * 1000 && k !in h.running && k !in p.unlinks
  {
    if SweepFails(h, p) {
      var k :| k in h.records && ((Stopped(h, k, p) && k !in p.saves) || (Expired(h, k, p) && k !in p.unlinks));
      assert Stopped(h, k, p) && k !in p.saves ==> Open(h, k);
    }
    forall k | Open(h, k) && (k.node !in p.enrolled || p.deadline[k] >= h.records[k].deadline) ensures Stopped(h, k, p) {
      assert SweptRecord(h.records[k], k, p).revision == h.records[k].revision + 1;
    }
  }

  // A known request is answered with its record exactly for the same question; and a new one is admitted exactly if it
  // is fresh, nothing has failed or been closed, there is room, its node has nothing open, and its claim is saved.
  lemma {:induction false} AnsweredAsKnownIff(h: Hub, s: Submission)
    requires Covers(s.pass, h) && Welcome(s.enrolled, s.key, s.past, s.future) && !h.closed && !h.storageFailed
    requires s.key in Sweep(h, s.pass).records
    ensures var r := Sweep(h, s.pass).records[s.key];
            Submit(h, s) == Outcome(Sweep(h, s.pass), if s.digest == r.digest then Known(r) else Refused)
  {
  }

  // Something of the node is not settled yet.
  ghost predicate NodeOpen(h: Hub, node: nat) {
    exists k :: Open(h, k) && k.node == node
  }

  lemma {:induction false} BusyIff(h: Hub, node: nat)
    ensures !Busy(h, node) <==>
      |h.records| < 512 && |Own(h.records.Keys, node)| < 100 && |h.running| < 16 && !NodeOpen(h, node)
  {
    if k :| k in h.records && k.node == node && Active(h.records[k]) {
      assert Open(h, k);
    }
    if k :| Open(h, k) && k.node == node {
      assert k in h.records && Active(h.records[k]);
    }
  }

  lemma {:induction false} AdmittedIff(h: Hub, s: Submission)
    requires Covers(s.pass, h)
    ensures var swept := Sweep(h, s.pass);
            (Submit(h, s).answer.Admitted? <==>
              && Welcome(s.enrolled, s.key, s.past, s.future) && !h.closed && !h.storageFailed
              && s.key !in swept.records && s.saves
              && |swept.records| < 512 && |Own(swept.records.Keys, s.key.node)| < 100 && |swept.running| < 16
              && !NodeOpen(swept, s.key.node))
    ensures Submit(h, s).answer.Admitted? ==>
              var r := Record(s.digest, Accepted, 1, s.late + 5 * 60 * 1000); var n := Submit(h, s).hub;
              && Submit(h, s).answer.record == r && s.key in n.records && n.records[s.key] == r
              && s.key in n.disk && n.disk[s.key] == r && s.key in n.running
  {
    BusyIff(Sweep(h, s.pass), s.key.node);
  }

  // A submission changes nothing but by its sweep, unless it is admitted or its claim cannot be saved.
  lemma {:induction false} RefusedChangesNothing(h: Hub, s: Submission)
    requires Covers(s.pass, h) && !Submit(h, s).answer.Admitted?
    ensures var n := Submit(h, s).hub;
            n == h || n == Sweep(h, s.pass) || (!s.saves && n == Sweep(h, s.pass).(storageFailed := true))
  {
  }

  // With the same reading, a sweep deletes a settled record exactly when `checkId` would refuse its id as expired.
  lemma {:induction false} DeletedIffRefused(h: Hub, p: Pass, k: Key)
    requires HubInv(h) && Covers(p, h) && k in h.records && k !in h.running && k in p.unlinks
    ensures k !in Sweep(h, p).records <==> !(k.created >= p.expiry[k] - WINDOW_MS)
    ensures k !in Sweep(h, p).records <==> k !in Sweep(h, p).disk
  {
  }

  // A request whose record is still kept is admitted a second time exactly when its submission straddles the
  // expiry, its record is not running and can be deleted, and nothing else stands in the way.
  lemma {:induction false} ReadmittedIff(h: Hub, s: Submission)
    requires HubInv(h) && Covers(s.pass, h) && s.key in h.records
    ensures Submit(h, s).answer.Admitted? <==>
      && Straddles(s) && s.key !in h.running && s.key in s.pass.unlinks
      && s.enrolled && s.saves && s.key.created <= s.future + AHEAD_MS && !h.closed && !h.storageFailed
      && !Busy(Sweep(h, s.pass), s.key.node)
  {
  }

  lemma {:induction false} RunThen(w: World, events: seq<Event>, last: World, e: Event)
    requires Run(w, events, last) && Enabled(last, e)
    ensures Run(w, events + [e], Next(last, e))
    decreases |events|
  {
    if events == [] {
      assert [e][1..] == [];
      assert Run(Next(w, e), [], Next(w, e));
    } else {
      RunThen(Next(w, events[0]), events[1..], last, e);
      assert (events + [e])[1..] == events[1..] + [e];
    }
  }

  lemma {:induction false} FirstAdmitted(k: Key, s: Submission)
    requires k == Key(0, 0, 0) && s == Submission(k, 0, 0, 0, Pass(map[], map[], {0}, {}, {}), 0, true, true)
    ensures Enabled(New(0), Submitted(s))
    ensures var r := Record(0, Accepted, 1, DEADLINE_MS);
            Next(New(0), Submitted(s)) == World(true, Hub(map[k := r], map[k := r], {k}, false, false), {k}, {}, [], 0)
  {
    assert Own({}, 0) == {};
    assert Sweep(New(0).hub, s.pass) == New(0).hub;
  }

  // One request asked and answered at once.
  lemma {:induction false} AskedAndAnswered(k: Key) returns (events: seq<Event>, w: World)
    requires k == Key(0, 0, 0)
    ensures Run(New(0), events, w) && w.up && w.now == 0 && w.asked == [k] && w.queued == {} && w.asking == {}
    ensures w.hub.records.Keys == {k} && w.hub.records[k].state == Completed && w.hub.running == {}
    ensures !w.hub.closed && !w.hub.storageFailed
  {
    var s := Submission(k, 0, 0, 0, Pass(map[], map[], {0}, {}, {}), 0, true, true);
    var w0 := New(0);
    assert Run(w0, [], w0);
    FirstAdmitted(k, s);
    RunThen(w0, [], w0, Submitted(s));
    var w1 := Next(w0, Submitted(s));
    RunThen(w0, [] + [Submitted(s)], w1, Launched(k, true, false, true));
    var w2 := Next(w1, Launched(k, true, false, true));
    RunThen(w0, [] + [Submitted(s)] + [Launched(k, true, false, true)], w2, Answered(k, true, true, false, true));
    w := Next(w2, Answered(k, true, true, false, true));
    events := [] + [Submitted(s)] + [Launched(k, true, false, true)] + [Answered(k, true, true, false, true)];
  }

  lemma {:induction false} Readmitted(once: World, k: Key, s: Submission)
    requires k == Key(0, 0, 0) && once.up && once.now == 0
    requires once.hub.records.Keys == {k} && once.hub.records[k].state == Completed && once.hub.running == {}
    requires !once.hub.closed && !once.hub.storageFailed && once.queued == {} && once.asking == {}
    requires var late := WINDOW_MS + 1;
             s == Submission(k, 0, WINDOW_MS, WINDOW_MS, Pass(map[k := late], map[k := late], {0}, {}, {k}), late, true, true)
    ensures Enabled(once, Submitted(s))
    ensures var again := Next(once, Submitted(s));
            Enabled(again, Launched(k, true, false, true))
            && Next(again, Launched(k, true, false, true)).asked == once.asked + [k]
  {
    var swept := Sweep(once.hub, s.pass);
    assert swept.records == map[];
    assert Own({}, 0) == {};
    assert swept.storageFailed == false;
  }

  // Its second submission reads the clock at the expiry and again a millisecond later, and it is asked again.
  lemma {:induction false} StraddleAsksTwice() returns (events: seq<Event>, w: World)
    ensures Run(New(0), events, w) && !AskedOnce(w.asked)
  {
    var k := Key(0, 0, 0);
    var first, once := AskedAndAnswered(k);
    var late := WINDOW_MS + 1;
    var s := Submission(k, 0, WINDOW_MS, WINDOW_MS, Pass(map[k := late], map[k := late], {0}, {}, {k}), late, true, true);
    Readmitted(once, k, s);
    var again := Next(once, Submitted(s));
    RunThen(New(0), first, once, Submitted(s));
    RunThen(New(0), first + [Submitted(s)], again, Launched(k, true, false, true));
    events, w := first + [Submitted(s)] + [Launched(k, true, false, true)], Next(again, Launched(k, true, false, true));
    assert w.asked[0] == w.asked[1];
  }

  // ---- the hub ------------------------------------------------------------------------------

  lemma {:induction false} RecoverOne(disk: Records, read: set<Key>, readings: map<Key, int>, done: set<Key>, k: Key)
    requires disk.Keys <= readings.Keys && k in disk && k !in read
    ensures var was, now := Recover(disk, read, readings, done), Recover(disk, read + {k}, readings, done);
            && k in was && was[k] == disk[k]
            && now == if Expiry(k) < readings[k] then was - {k} else was[k := RecoveredRecord(disk[k], k in done)]
  {
  }

  // The body of the sweep, for one record.
  function SweepOne(h: Hub, k: Key, p: Pass): (n: Hub)
    requires k in h.records && k in p.deadline && k in p.expiry
  {
    var r := SweptRecord(h.records[k], k, p);
    var m := if r == h.records[k] then h else Persist(h.(records := h.records[k := r]), k, r, k in p.saves);
    if !Expired(m, k, p) then m
    else if k in p.unlinks then m.(records := m.records - {k}, disk := m.disk - {k})
    else m.(storageFailed := true)
  }

  ghost predicate Fails(h: Hub, p: Pass, k: Key)
    requires Covers(p, h) && k in h.records
  {
    (Stopped(h, k, p) && k !in p.saves) || (Expired(h, k, p) && k !in p.unlinks)
  }

  predicate Deletes(h: Hub, p: Pass, k: Key)
    requires Covers(p, h) && k in h.records
  {
    Expired(h, k, p) && k in p.unlinks
  }

  // The sweep once it has dealt with the records in done.
  ghost function SweptRecords(h: Hub, p: Pass, done: set<Key>): (r: Records)
    requires Covers(p, h)
  {
    map k | k in h.records && !(k in done && Deletes(h, p, k)) ::
      if k in done then SweptRecord(h.records[k], k, p) else h.records[k]
  }

  ghost function SweptDisk(h: Hub, p: Pass, done: set<Key>): (r: Records)
    requires Covers(p, h) && h.disk.Keys == h.records.Keys
  {
    map k | k in h.disk && !(k in done && Deletes(h, p, k)) ::
      if k in done && Stopped(h, k, p) && k in p.saves then SweptRecord(h.records[k], k, p) else h.disk[k]
  }

  ghost predicate SomeFailed(h: Hub, p: Pass, done: set<Key>)
    requires Covers(p, h)
  {
    exists k :: k in done && k in h.records && Fails(h, p, k)
  }

  ghost function SweptOnly(h: Hub, p: Pass, done: set<Key>): (n: Hub)
    requires Covers(p, h) && h.disk.Keys == h.records.Keys
  {
    h.(records := SweptRecords(h, p, done), disk := SweptDisk(h, p, done),
       storageFailed := h.storageFailed || SomeFailed(h, p, done))
  }

  lemma {:induction false} SweptNone(h: Hub, p: Pass)
    requires Covers(p, h) && h.disk.Keys == h.records.Keys
    ensures SweptOnly(h, p, h.records.Keys - h.records.Keys) == h
  {
    var none: set<Key> := h.records.Keys - h.records.Keys;
    assert SweptRecords(h, p, none) == h.records && SweptDisk(h, p, none) == h.disk;
  }

  lemma {:induction false} SweptAll(h: Hub, p: Pass)
    requires Covers(p, h) && h.disk.Keys == h.records.Keys
    ensures SweptOnly(h, p, h.records.Keys) == Sweep(h, p)
  {
    assert SweptRecords(h, p, h.records.Keys) == Sweep(h, p).records;
    assert SweptDisk(h, p, h.records.Keys) == Sweep(h, p).disk;
    assert SomeFailed(h, p, h.records.Keys) <==> SweepFails(h, p);
  }

  lemma {:induction false} SweptRecordsStep(h: Hub, p: Pass, done: set<Key>, k: Key)
    requires Covers(p, h) && k in h.records && k !in done
    ensures var was := SweptRecords(h, p, done);
            && k in was && was[k] == h.records[k]
            && SweptRecords(h, p, done + {k})
               == if Deletes(h, p, k) then was - {k} else was[k := SweptRecord(h.records[k], k, p)]
  {
  }

  lemma {:induction false} SweptDiskStep(h: Hub, p: Pass, done: set<Key>, k: Key)
    requires Covers(p, h) && h.disk.Keys == h.records.Keys && k in h.records && k !in done
    ensures var was := SweptDisk(h, p, done);
            && k in was && was[k] == h.disk[k]
            && SweptDisk(h, p, done + {k})
               == if Deletes(h, p, k) then was - {k}
                  else if Stopped(h, k, p) && k in p.saves then was[k := SweptRecord(h.records[k], k, p)] else was
  {
  }

  lemma {:induction false} SomeFailedStep(h: Hub, p: Pass, done: set<Key>, k: Key)
    requires Covers(p, h) && k in h.records
    ensures SomeFailed(h, p, done + {k}) <==> SomeFailed(h, p, done) || Fails(h, p, k)
  {
  }

  lemma {:induction false} OverwrittenGone(m: Records, k: Key, r: Record)
    ensures m[k := r] - {k} == m - {k}
  {
  }

  lemma {:induction false} SweepStep(h: Hub, p: Pass, done: set<Key>, k: Key)
    requires Covers(p, h) && h.disk.Keys == h.records.Keys && k in h.records && k !in done
    ensures k in SweptOnly(h, p, done).records
    ensures SweepOne(SweptOnly(h, p, done), k, p) == SweptOnly(h, p, done + {k})
  {
    var was, r := SweptOnly(h, p, done), SweptRecord(h.records[k], k, p);
    SweptRecordsStep(h, p, done, k);
    SweptDiskStep(h, p, done, k);
    SomeFailedStep(h, p, done, k);
    OverwrittenGone(was.records, k, r);
    OverwrittenGone(was.disk, k, r);
    if r == h.records[k] {
      assert was.records[k := r] == was.records;
    }
  }

  // The end of the hub once it has dealt with the records in done.
  ghost predicate LostOnClose(h: Hub, saves: set<Key>, done: set<Key>) {
    exists k :: k in done && k in h.records && Active(h.records[k]) && k !in saves
  }

  function ClosedRecords(h: Hub, done: set<Key>): (r: Records) {
    map k | k in h.records :: if k in done && Active(h.records[k]) then Finish(h.records[k], Unconfirmed) else h.records[k]
  }

  function ClosedDisk(h: Hub, saves: set<Key>, done: set<Key>): (r: Records) {
    map k | k in h.disk ::
      if k in h.records && k in done && Active(h.records[k]) && k in saves then Finish(h.records[k], Unconfirmed) else h.disk[k]
  }

  ghost function ClosedOnly(h: Hub, saves: set<Key>, done: set<Key>): (n: Hub) {
    Hub(ClosedRecords(h, done), ClosedDisk(h, saves, done), h.running, h.storageFailed || LostOnClose(h, saves, done), true)
  }

  lemma {:induction false} ClosedEnds(h: Hub, saves: set<Key>)
    ensures ClosedOnly(h, saves, h.records.Keys - h.records.Keys) == h.(closed := true)
    ensures ClosedOnly(h, saves, h.records.Keys) == Close(h, saves)
  {
    var none := h.records.Keys - h.records.Keys;
    assert ClosedRecords(h, none) == h.records && ClosedDisk(h, saves, none) == h.disk;
    assert ClosedRecords(h, h.records.Keys) == Close(h, saves).records;
    assert ClosedDisk(h, saves, h.records.Keys) == Close(h, saves).disk;
  }

  lemma {:induction false} CloseStep(h: Hub, saves: set<Key>, done: set<Key>, k: Key)
    requires h.disk.Keys == h.records.Keys && k in h.records && k !in done
    ensures Stop(ClosedOnly(h, saves, done), k, Unconfirmed, k in saves) == ClosedOnly(h, saves, done + {k})
  {
    var n, later := Stop(ClosedOnly(h, saves, done), k, Unconfirmed, k in saves), ClosedOnly(h, saves, done + {k});
    assert n.records == later.records;
    assert n.disk == later.disk;
    assert n.storageFailed == later.storageFailed;
  }

  class Directory {
    var records: Records

    constructor (records: Records)
      ensures this.records == records
    {
      this.records := records;
    }
  }

  // Expired files go, and what was active is settled and written back.
  method RecoverFile(dir: Directory, k: Key, reading: int, completed: bool)
    requires k in dir.records
    modifies dir
    ensures dir.records == if Expiry(k) < reading then old(dir.records) - {k}
                           else old(dir.records)[k := RecoveredRecord(old(dir.records)[k], completed)]
  {
    if Expiry(k) < reading {
      dir.records := dir.records - {k};
    } else if Active(dir.records[k]) {
      dir.records := dir.records[k := Finish(dir.records[k], if completed then Completed else Unconfirmed)];
    }
  }

  method RecoverFiles(dir: Directory, readings: map<Key, int>, done: set<Key>)
    requires dir.records.Keys <= readings.Keys
    modifies dir
    ensures dir.records == Recover(old(dir.records), old(dir.records).Keys, readings, done)
  {
    var was, todo := dir.records, dir.records.Keys;
    assert was == Recover(was, was.Keys - todo, readings, done);
    while todo != {}
      invariant todo <= was.Keys
      invariant dir.records == Recover(was, was.Keys - todo, readings, done)
      decreases |todo|
    {
      var k :| k in todo;
      RecoverOne(was, was.Keys - todo, readings, done, k);
      RecoverFile(dir, k, readings[k], k in done);
      OneLess(was.Keys, todo, k);
      todo := todo - {k};
    }
    assert was.Keys - {} == was.Keys;
  }

  lemma {:induction false} OneLess(keys: set<Key>, todo: set<Key>, k: Key)
    requires k in todo && todo <= keys
    ensures keys - (todo - {k}) == keys - todo + {k}
  {
  }

  class G2RequestHub {
    var records: Records
    var running: set<Key>
    var storageFailed: bool
    var closed: bool
    const dir: Directory

    ghost function View(): (h: Hub)
      reads this, dir
    {
      Hub(records, dir.records, running, storageFailed, closed)
    }

    // Every record has its file, as every operation keeps it (HubInv).
    ghost predicate Paired()
      reads this, dir
    {
      dir.records.Keys == records.Keys
    }

    constructor (dir: Directory, readings: map<Key, int>, done: set<Key>)
      requires dir.records.Keys <= readings.Keys
      modifies dir
      ensures this.dir == dir && Paired()
      ensures var disk := Recover(old(dir.records), old(dir.records).Keys, readings, done);
              View() == Hub(disk, disk, {}, false, false)
    {
      RecoverFiles(dir, readings, done);
      this.dir, this.records, this.running, this.storageFailed, this.closed := dir, dir.records, {}, false, false;
    }

    method PersistRecord(k: Key, r: Record, works: bool)
      modifies this`storageFailed, dir
      ensures View() == Persist(old(View()), k, r, works)
    {
      if works {
        dir.records := dir.records[k := r];
      } else {
        storageFailed := true;
      }
    }

    method StopRecord(k: Key, state: State, saves: bool)
      requires k in records
      modifies this, dir
      ensures View() == Stop(old(View()), k, state, saves)
    {
      if Active(records[k]) {
        var r := Finish(records[k], state);
        records := records[k := r];
        PersistRecord(k, r, saves);
      }
    }

    method SweepRecord(k: Key, p: Pass)
      requires k in records && k in p.deadline && k in p.expiry
      modifies this, dir
      ensures View() == SweepOne(old(View()), k, p)
    {
      if Active(records[k]) {
        if k.node !in p.enrolled {
          StopRecord(k, Cancelled, k in p.saves);
        }
        if p.deadline[k] >= records[k].deadline {
          StopRecord(k, Unconfirmed, k in p.saves);
        }
      }
      if Expiry(k) < p.expiry[k] && k !in running {
        if k in p.unlinks {
          dir.records := dir.records - {k};
          records := records - {k};
        } else {
          storageFailed := true;
        }
      }
    }

    method SweepRecords(p: Pass)
      requires Paired() && Covers(p, View())
      modifies this, dir
      ensures View() == Sweep(old(View()), p)
    {
      ghost var was := View();
      var todo := records.Keys;
      SweptNone(was, p);
      while todo != {}
        invariant todo <= was.records.Keys && View() == SweptOnly(was, p, was.records.Keys - todo)
        decreases |todo|
      {
        var k :| k in todo;
        SweepStep(was, p, was.records.Keys - todo, k);
        SweepRecord(k, p);
        OneLess(was.records.Keys, todo, k);
        todo := todo - {k};
      }
      assert was.records.Keys - {} == was.records.Keys;
      SweptAll(was, p);
    }

    method SubmitRequest(s: Submission) returns (answer: Answer)
      requires Paired() && Covers(s.pass, View())
      modifies this, dir
      ensures Outcome(View(), answer) == Submit(old(View()), s)
    {
      if !s.enrolled || s.key.created < s.past - WINDOW_MS || s.key.created > s.future + AHEAD_MS {
        return Refused;
      }
      if closed || storageFailed {
        return Refused;
      }
      SweepRecords(s.pass);
      if s.key in records {
        var existing := records[s.key];
        return if existing.digest != s.digest then Refused else Known(existing);
      }
      if Busy(Hub(records, dir.records, running, storageFailed, closed), s.key.node) {
        return Refused;
      }
      var r := Record(s.digest, Accepted, 1, s.late + DEADLINE_MS);
      PersistRecord(s.key, r, s.saves);
      if !s.saves {
        return Refused;
      }
      records := records[s.key := r];
      running := running + {s.key};
      return Admitted(r);
    }

    method FailRequest(k: Key, answered: bool, saves: bool)
      requires k in records
      modifies this, dir
      ensures View() == Failed(old(View()), k, answered, saves)
    {
      StopRecord(k, if answered then Completed else Unconfirmed, saves);
      running := running - {k};
    }

    method StartRequest(k: Key, enrolled: bool, answered: bool, saves: bool) returns (asks: bool)
      requires k in records
      modifies this, dir
      ensures View() == Launch(old(View()), k, enrolled, answered, saves)
      ensures asks == Asks(old(View()), k, enrolled)
    {
      if !Active(records[k]) || closed {
        running := running - {k};
        return false;
      }
      if !enrolled {
        FailRequest(k, answered, saves);
        return false;
      }
      records := records[k := records[k].(state := Working)];
      return true;
    }

    method ReportProgress(k: Key, enrolled: bool, due: bool, saves: bool, stopSaves: bool)
      requires k in records
      modifies this, dir
      ensures View() == Progress(old(View()), k, enrolled, due, saves, stopSaves)
    {
      if !Active(records[k]) {
        return;
      }
      if !enrolled {
        StopRecord(k, Unconfirmed, stopSaves);
        return;
      }
      var r := records[k].(revision := records[k].revision + 1);
      records := records[k := r];
      if due {
        PersistRecord(k, r, saves);
        if !saves {
          StopRecord(k, Unconfirmed, stopSaves);
        }
      }
    }

    method SettleRequest(k: Key, ok: bool, enrolled: bool, answered: bool, saves: bool)
      requires k in records
      modifies this, dir
      ensures View() == Settle(old(View()), k, ok, enrolled, answered, saves)
    {
      if !ok || !enrolled {
        FailRequest(k, answered, saves);
        return;
      }
      if Active(records[k]) {
        var r := Finish(records[k], Completed);
        records := records[k := r];
        PersistRecord(k, r, saves);
      }
      running := running - {k};
    }

    method CancelRequest(k: Key, past: int, future: int, p: Pass, enrolled: bool, saves: bool)
      requires Paired() && Covers(p, View())
      modifies this, dir
      ensures View() == Cancel(old(View()), k, past, future, p, enrolled, saves)
    {
      if !enrolled || k.created < past - WINDOW_MS || k.created > future + AHEAD_MS {
        return;
      }
      SweepRecords(p);
      if k in records {
        StopRecord(k, Cancelled, saves);
      }
    }

    method CloseHub(saves: set<Key>)
      requires Paired()
      modifies this, dir
      ensures View() == Close(old(View()), saves)
    {
      ghost var was := View();
      closed := true;
      var todo := records.Keys;
      ClosedEnds(was, saves);
      while todo != {}
        invariant todo <= was.records.Keys && View() == ClosedOnly(was, saves, was.records.Keys - todo)
        decreases |todo|
      {
        var k :| k in todo;
        CloseStep(was, saves, was.records.Keys - todo, k);
        StopRecord(k, Unconfirmed, k in saves);
        OneLess(was.records.Keys, todo, k);
        todo := todo - {k};
      }
      assert was.records.Keys - {} == was.records.Keys;
    }
  }
}
