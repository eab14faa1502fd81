// Approved replies to coding sessions: `CodingSupervisor.reply` in src/coding-supervisor.js.
// A receipt is saved before the instruction is transmitted and is kept for thirty days; a reply waits for the
// session list between the check of its approval and the check of its receipt.

module ReplyReceipts {

  const APPROVAL_MS := 600_000
  const SKEW_MS := 30_000
  const KEEP_MS := 2_592_000_000
  const JOURNAL_MAX := 2000

  // What the digest in a receipt identifies.
  datatype Action = Action(target: nat, fingerprint: nat, message: nat)

  datatype Args = Args(id: nat, action: Action, preparedAt: int)

  datatype Status = Sending | Unconfirmed | Accepted | Queued | Blocked

  // serial tells one receipt object from another.
  datatype Receipt = Receipt(action: Action, status: Status, at: int, serial: nat)

  type Receipts = map<nat, Receipt>

  // The journal in memory, its file, and the number of receipts made.
  datatype Journal = Journal(receipts: Receipts, disk: Receipts, made: nat)

  datatype Session = Session(fingerprint: nat, replyAvailable: bool)

  datatype Listed = ListFailed | Listed(sessions: map<nat, Session>)

  datatype Answer = Refused | Known(receipt: Receipt) | Waiting | Transmitted(serial: nat)

  datatype Outcome = Outcome(journal: Journal, answer: Answer)

  // The clock readings of a resumed reply: one for each receipt the pruning considers, one for the new receipt.
  datatype Clock = Clock(prune: map<nat, int>, at: int)

  // The part of a reply before it waits for the session list. The clock is read for each of its two checks.
  function Begin(receipts: Receipts, a: Args, future: int, age: int): (r: Answer) {
    if a.id in receipts then
      if receipts[a.id].action == a.action then Known(receipts[a.id]) else Refused
    else if a.preparedAt > future + SKEW_MS || age - a.preparedAt > APPROVAL_MS then Refused
    else Waiting
  }

  predicate StillMatches(listed: Listed, a: Action) {
    && listed.Listed? && a.target in listed.sessions
    && listed.sessions[a.target].replyAvailable && listed.sessions[a.target].fingerprint == a.fingerprint
  }

  function Pruned(receipts: Receipts, readings: map<nat, int>): (r: Receipts)
    requires receipts.Keys <= readings.Keys
  {
    map id | id in receipts && receipts[id].at >= readings[id] - KEEP_MS :: receipts[id]
  }

  // The journal just before the transmission.
  function Claimed(j: Journal, a: Args, clock: Clock, saves: bool): (r: Journal)
    requires j.receipts.Keys <= clock.prune.Keys
  {
    var receipts := Pruned(j.receipts, clock.prune)[a.id := Receipt(a.action, Sending, clock.at, j.made)];
    Journal(receipts, if saves then receipts else j.disk, j.made + 1)
  }

  predicate Sends(j: Journal, a: Args, listed: Listed, clock: Clock)
    requires j.receipts.Keys <= clock.prune.Keys
  {
    StillMatches(listed, a.action) && a.id !in j.receipts && |Pruned(j.receipts, clock.prune)| < JOURNAL_MAX
  }

  // The part of a reply after the session list, up to the transmission.
  function Resume(j: Journal, a: Args, listed: Listed, clock: Clock, saves: bool): (r: Outcome)
    requires j.receipts.Keys <= clock.prune.Keys
  {
    if !StillMatches(listed, a.action) then Outcome(j, Refused)
    else if a.id in j.receipts then
      Outcome(j, if j.receipts[a.id].action == a.action then Known(j.receipts[a.id]) else Refused)
    else if !Sends(j, a, listed, clock) then Outcome(j.(receipts := Pruned(j.receipts, clock.prune)), Refused)
    else if saves then Outcome(Claimed(j, a, clock, true), Transmitted(j.made))
    else Outcome(Claimed(j, a, clock, false), Refused)
  }

  // The result of a transmission, written to its receipt object.
  function Settle(j: Journal, id: nat, serial: nat, status: Status, saves: bool): (r: Journal) {
    var receipts :=
      if id in j.receipts && j.receipts[id].serial == serial
      then j.receipts[id := j.receipts[id].(status := status)] else j.receipts;
    j.(receipts := receipts, disk := if saves then receipts else j.disk)
  }

  function Recover(r: Receipt): (s: Receipt) {
    if r.status.Sending? then r.(status := Unconfirmed) else r
  }

  // What a new process makes of the file.
  function Load(disk: Receipts): (r: Receipts) {
    map id | id in disk :: Recover(disk[id])
  }

  // ---- runs ---------------------------------------------------------------------------------

  datatype Call = Listing(args: Args, checkedAt: int) | InFlight(id: nat, serial: nat)

  datatype Sent = Sent(id: nat, action: Action, at: int)

  // approvals: the moment each request id was prepared, by a clock up to thirty seconds ahead.
  datatype World = World(journal: Journal, calls: map<nat, Call>, sent: seq<Sent>, now: int, approvals: nat -> int)

  // Any number of calls interleave. This program can die between any two steps, and between the save and the
  // transmission within one. Saved is a save made for another reason.
  datatype Event =
    | Began(call: nat, args: Args, future: int, age: int)
    | Resumed(call: nat, listed: Listed, clock: Clock, saves: bool)
    | Settled(call: nat, status: Status, saves: bool)
    | Saved
    | Restarted
    | DiedInSend(call: nat, listed: Listed, clock: Clock)

  ghost predicate Ordered(clock: Clock, since: int) {
    since <= clock.at && forall id :: id in clock.prune ==> since <= clock.prune[id] <= clock.at
  }

  ghost predicate MayResume(w: World, call: nat, clock: Clock, wait: int) {
    && call in w.calls && w.calls[call].Listing?
    && w.journal.receipts.Keys <= clock.prune.Keys && Ordered(clock, w.now)
    && clock.at <= w.calls[call].checkedAt + wait
  }

  // wait bounds the time a reply waits for the session list.
  ghost predicate Enabled(w: World, e: Event, wait: int) {
    match e
    case Began(call, a, future, age) =>
      call !in w.calls && w.now <= future <= age && a.preparedAt == w.approvals(a.id)
    case Resumed(call, listed, clock, saves) => MayResume(w, call, clock, wait)
    case Settled(call, status, saves) => call in w.calls && w.calls[call].InFlight? && !status.Sending?
    case Saved => true
    case Restarted => true
    case DiedInSend(call, listed, clock) =>
      MayResume(w, call, clock, wait) && Sends(w.journal, w.calls[call].args, listed, clock)
  }

  ghost function Next(w: World, e: Event, wait: int): (r: World)
    requires Enabled(w, e, wait)
  {
    match e
    case Began(call, a, future, age) =>
      w.(now := age,
         calls := if Begin(w.journal.receipts, a, future, age) == Waiting then w.calls[call := Listing(a, age)] else w.calls)
    case Resumed(call, listed, clock, saves) =>
      var a := w.calls[call].args;
      var o := Resume(w.journal, a, listed, clock, saves);
      if o.answer.Transmitted?
      then World(o.journal, w.calls[call := InFlight(a.id, o.answer.serial)],
                 w.sent + [Sent(a.id, a.action, clock.at)], clock.at, w.approvals)
      else w.(journal := o.journal, calls := w.calls - {call}, now := clock.at)
    case Settled(call, status, saves) =>
      w.(journal := Settle(w.journal, w.calls[call].id, w.calls[call].serial, status, saves), calls := w.calls - {call})
    case Saved => w.(journal := w.journal.(disk := w.journal.receipts))
    case Restarted => w.(journal := w.journal.(receipts := Load(w.journal.disk)), calls := map[])
    case DiedInSend(call, listed, clock) =>
      var claimed := Claimed(w.journal, w.calls[call].args, clock, true);
      w.(journal := claimed.(receipts := Load(claimed.disk)), calls := map[], now := clock.at)
  }

  ghost predicate Run(w: World, events: seq<Event>, wait: int, last: World)
    decreases |events|
  {
    if events == [] then last == w
    else Enabled(w, events[0], wait) && Run(Next(w, events[0], wait), events[1..], wait, last)
  }

  function Idle(now: int, approvals: nat -> int): (w: World) {
    World(Journal(map[], map[], 0), map[], [], now, approvals)
  }

  ghost predicate Reachable(w: World, wait: int) {
    exists now, events :: Run(Idle(now, w.approvals), events, wait, w)
  }

  // ---- what every step keeps ----------------------------------------------------------------

  // A transmitted request has its receipt here, or its receipt has outlived its keeping.
  ghost predicate Guards(receipts: Receipts, s: Sent, now: int) {
    (s.id in receipts && receipts[s.id].at >= s.at) || now - KEEP_MS > s.at
  }

  ghost predicate SentGuarded(receipts: Receipts, sent: seq<Sent>, now: int) {
    forall s :: s in sent ==> Guards(receipts, s, now)
  }

  ghost predicate NotEarly(w: World) {
    forall s :: s in w.sent ==> s.at <= w.now && w.approvals(s.id) <= s.at + SKEW_MS
  }

  // A reply that waits for the list was checked within its approval, before any transmission of its request.
  ghost predicate CallsFresh(w: World) {
    forall c :: c in w.calls && w.calls[c].Listing? ==>
      && w.approvals(w.calls[c].args.id) - SKEW_MS <= w.calls[c].checkedAt <= w.now
      && w.calls[c].checkedAt <= w.approvals(w.calls[c].args.id) + APPROVAL_MS
      && forall s :: s in w.sent && s.id == w.calls[c].args.id ==> w.calls[c].checkedAt <= s.at
  }

  ghost predicate SentOnce(sent: seq<Sent>) {
    forall i, j :: 0 <= i < j < |sent| ==> sent[i].id != sent[j].id
  }

  ghost predicate Small(receipts: Receipts) {
    |receipts| <= JOURNAL_MAX
  }

  ghost predicate Inv(w: World) {
    && Small(w.journal.receipts) && Small(w.journal.disk)
    && SentGuarded(w.journal.receipts, w.sent, w.now) && SentGuarded(w.journal.disk, w.sent, w.now)
    && NotEarly(w) && CallsFresh(w) && SentOnce(w.sent)
  }

  const MAX_WAIT: int := KEEP_MS

  lemma {:induction false} LoadSize(disk: Receipts)
    ensures |Load(disk)| == |disk|
  {
    assert Load(disk).Keys == disk.Keys;
  }

  lemma {:induction false} LoadGuards(disk: Receipts, sent: seq<Sent>, now: int)
    requires SentGuarded(disk, sent, now)
    ensures SentGuarded(Load(disk), sent, now)
  {
    forall s | s in sent ensures Guards(Load(disk), s, now) {
      assert Guards(disk, s, now);
    }
  }

  lemma {:induction false} LaterGuards(receipts: Receipts, sent: seq<Sent>, now: int, later: int)
    requires SentGuarded(receipts, sent, now) && now <= later
    ensures SentGuarded(receipts, sent, later)
  {
    forall s | s in sent ensures Guards(receipts, s, later) {
      assert Guards(receipts, s, now);
    }
  }

  lemma {:induction false} PrunedGuards(receipts: Receipts, readings: map<nat, int>, sent: seq<Sent>, now: int, later: int)
    requires receipts.Keys <= readings.Keys && SentGuarded(receipts, sent, now) && now <= later
    requires forall id :: id in readings ==> readings[id] <= later
    ensures SentGuarded(Pruned(receipts, readings), sent, later)
    ensures |Pruned(receipts, readings)| <= |receipts|
  {
    var r := Pruned(receipts, readings);
    forall s | s in sent ensures Guards(r, s, later) {
      assert Guards(receipts, s, now);
    }
    SubMapSize(r, receipts);
  }

  lemma {:induction false} SubMapSize(a: Receipts, b: Receipts)
    requires a.Keys <= b.Keys
    ensures |a| <= |b|
    decreases |b|
  {
    SubsetSize(a.Keys, b.Keys);
  }

  lemma {:induction false} SubsetSize(a: set<nat>, b: set<nat>)
    requires a <= b
    ensures |a| <= |b|
  {
    if a != {} {
      var x :| x in a;
      SubsetSize(a - {x}, b - {x});
    }
  }

  // A new receipt, at least as late as any transmission of its request, guards them.
  lemma {:induction false} ClaimGuards(receipts: Receipts, sent: seq<Sent>, now: int, id: nat, r: Receipt)
    requires SentGuarded(receipts, sent, now) && r.at >= now
    requires forall s :: s in sent ==> s.at <= now
    ensures SentGuarded(receipts[id := r], sent, now)
  {
    forall s | s in sent ensures Guards(receipts[id := r], s, now) {
      assert Guards(receipts, s, now);
    }
  }

  // No receipt for this request, and yet a transmission of it: the wait was longer than allowed.
  lemma {:induction false} NotSentBefore(w: World, call: nat, at: int)
    requires Inv(w) && call in w.calls && w.calls[call].Listing? && w.now <= at <= w.calls[call].checkedAt + MAX_WAIT
    requires w.calls[call].args.id !in w.journal.receipts
    ensures forall s :: s in w.sent ==> s.id != w.calls[call].args.id
  {
    forall s | s in w.sent ensures s.id != w.calls[call].args.id {
      assert Guards(w.journal.receipts, s, w.now);
    }
  }

  lemma {:induction false} ClaimKeeps(w: World, call: nat, listed: Listed, clock: Clock, saves: bool)
    requires Inv(w) && MayResume(w, call, clock, MAX_WAIT) && Sends(w.journal, w.calls[call].args, listed, clock)
    ensures Inv(w.(journal := Claimed(w.journal, w.calls[call].args, clock, saves), now := clock.at))
  {
    var a, j := w.calls[call].args, w.journal;
    var kept := Pruned(j.receipts, clock.prune);
    var r := Receipt(a.action, Sending, clock.at, j.made);
    PrunedGuards(j.receipts, clock.prune, w.sent, w.now, clock.at);
    ClaimGuards(kept, w.sent, clock.at, a.id, r);
    LaterGuards(j.disk, w.sent, w.now, clock.at);
    assert kept[a.id := r].Keys == kept.Keys + {a.id};
  }

  lemma {:induction false} SendKeeps(w: World, call: nat, listed: Listed, clock: Clock)
    requires Inv(w) && MayResume(w, call, clock, MAX_WAIT) && Sends(w.journal, w.calls[call].args, listed, clock)
    ensures Inv(Next(w, Resumed(call, listed, clock, true), MAX_WAIT))
  {
    var a := w.calls[call].args;
    ClaimKeeps(w, call, listed, clock, true);
    NotSentBefore(w, call, clock.at);
    var claimed := Claimed(w.journal, a, clock, true);
    var s := Sent(a.id, a.action, clock.at);
    assert Guards(claimed.receipts, s, clock.at);
    var n := Next(w, Resumed(call, listed, clock, true), MAX_WAIT);
    assert n.journal == claimed && n.sent == w.sent + [s];
  }

  lemma {:induction false} ResumeKeeps(w: World, call: nat, listed: Listed, clock: Clock, saves: bool)
    requires Inv(w) && MayResume(w, call, clock, MAX_WAIT)
    ensures Inv(Next(w, Resumed(call, listed, clock, saves), MAX_WAIT))
  {
    var a, j := w.calls[call].args, w.journal;
    if Sends(j, a, listed, clock) {
      if saves {
        SendKeeps(w, call, listed, clock);
      } else {
        ClaimKeeps(w, call, listed, clock, false);
      }
    } else {
      LaterGuards(j.receipts, w.sent, w.now, clock.at);
      LaterGuards(j.disk, w.sent, w.now, clock.at);
      PrunedGuards(j.receipts, clock.prune, w.sent, w.now, clock.at);
    }
  }

  lemma {:induction false} SettleKeeps(w: World, call: nat, status: Status, saves: bool)
    requires Inv(w) && call in w.calls && w.calls[call].InFlight? && !status.Sending?
    ensures Inv(Next(w, Settled(call, status, saves), MAX_WAIT))
  {
    var j, id := w.journal, w.calls[call].id;
    var r := Settle(j, id, w.calls[call].serial, status, saves);
    assert r.receipts.Keys == j.receipts.Keys;
    forall s | s in w.sent ensures Guards(r.receipts, s, w.now) {
      assert Guards(j.receipts, s, w.now);
    }
  }

  lemma {:induction false} LoadKeeps(w: World)
    requires Inv(w)
    ensures Inv(w.(journal := w.journal.(receipts := Load(w.journal.disk)), calls := map[]))
  {
    LoadSize(w.journal.disk);
    LoadGuards(w.journal.disk, w.sent, w.now);
  }

  // The approval of a request that was sent expires long before its receipt is pruned.
  lemma {:induction false} BeginKeeps(w: World, call: nat, a: Args, future: int, age: int)
    requires Inv(w) && Enabled(w, Began(call, a, future, age), MAX_WAIT)
    requires Begin(w.journal.receipts, a, future, age) == Waiting
    ensures forall s :: s in w.sent ==> s.id != a.id
  {
    forall s | s in w.sent ensures s.id != a.id {
      assert Guards(w.journal.receipts, s, w.now);
    }
  }

  lemma {:induction false} StepKeeps(w: World, e: Event)
    requires Inv(w) && Enabled(w, e, MAX_WAIT)
    ensures Inv(Next(w, e, MAX_WAIT))
  {
    match e {
      case Began(call, a, future, age) =>
        if Begin(w.journal.receipts, a, future, age) == Waiting {
          BeginKeeps(w, call, a, future, age);
        }
        LaterGuards(w.journal.receipts, w.sent, w.now, age);
        LaterGuards(w.journal.disk, w.sent, w.now, age);
      case Resumed(call, listed, clock, saves) => ResumeKeeps(w, call, listed, clock, saves);
      case Settled(call, status, saves) => SettleKeeps(w, call, status, saves);
      case Saved =>
      case Restarted => LoadKeeps(w);
      case DiedInSend(call, listed, clock) =>
        ClaimKeeps(w, call, listed, clock, true);
        LoadKeeps(w.(journal := Claimed(w.journal, w.calls[call].args, clock, true), now := clock.at));
    }
  }

  lemma {:induction false} RunKeeps(w: World, events: seq<Event>, last: World)
    requires Inv(w) && Run(w, events, MAX_WAIT, last)
    ensures Inv(last)
    decreases |events|
  {
    if events != [] {
      StepKeeps(w, events[0]);
      RunKeeps(Next(w, events[0], MAX_WAIT), events[1..], last);
    }
  }

  lemma {:induction false} WaitWeakens(w: World, events: seq<Event>, wait: int, longer: int, last: World)
    requires Run(w, events, wait, last) && wait <= longer
    ensures Run(w, events, longer, last)
    decreases |events|
  {
    if events != [] {
      assert Next(w, events[0], wait) == Next(w, events[0], longer);
      WaitWeakens(Next(w, events[0], wait), events[1..], wait, longer, last);
    }
  }

  // ---- main results -------------------------------------------------------------------------

  // A transmission happens only after its receipt is on disk, to a session whose fingerprint matched the list the
  // reply waited for, and under an approval that was in its ten minutes when it was checked.
  lemma {:induction false} SentUnderReceipt(w: World, e: Event, wait: int)
    requires Enabled(w, e, wait) && CallsFresh(w) && Next(w, e, wait).sent != w.sent
    ensures e.Resumed? && Offered(e.listed, w.calls[e.call].args.action)
    ensures var s, disk := Next(w, e, wait).sent[|w.sent|], Next(w, e, wait).journal.disk;
            && Next(w, e, wait).sent == w.sent + [s]
            && s.id in disk && disk[s.id].status.Sending? && disk[s.id].action == s.action
            && s.id !in w.journal.receipts
    ensures w.calls[e.call].checkedAt - w.approvals(w.calls[e.call].args.id) <= APPROVAL_MS
  {
  }

  lemma {:induction false} EveryRunIsSafe(w: World, wait: int)
    requires Reachable(w, wait) && wait <= MAX_WAIT
    ensures SentOnce(w.sent) && |w.journal.receipts| <= 2000 && |w.journal.disk| <= 2000
  {
    var now, events :| Run(Idle(now, w.approvals), events, wait, w);
    WaitWeakens(Idle(now, w.approvals), events, wait, MAX_WAIT, w);
    RunKeeps(Idle(now, w.approvals), events, w);
  }

  // ---- what a receipt says ------------------------------------------------------------------

  // What the answers to transmissions said, by receipt, and how many receipts had been made when this process began.
  datatype Past = Past(reports: map<nat, Status>, before: nat)

  ghost function PastAfter(w: World, e: Event, wait: int, p: Past): (r: Past)
    requires Enabled(w, e, wait)
  {
    match e
    case Settled(call, status, saves) => p.(reports := p.reports[w.calls[call].serial := status])
    case Restarted => p.(before := w.journal.made)
    case DiedInSend(call, listed, clock) => p.(before := w.journal.made + 1)
    case _ => p
  }

  ghost function PastOf(w: World, events: seq<Event>, wait: int, last: World, p: Past): (r: Past)
    requires Run(w, events, wait, last)
    decreases |events|
  {
    if events == [] then p else PastOf(Next(w, events[0], wait), events[1..], wait, last, PastAfter(w, events[0], wait, p))
  }

  // A receipt this process made says what was reported, and until then that it is sending. One made before says what was
  // reported then, or that nobody knows.
  predicate Honest(r: Receipt, p: Past) {
    if r.serial >= p.before then r.status == if r.serial in p.reports then p.reports[r.serial] else Sending
    else r.status == Unconfirmed || (r.serial in p.reports && r.status == p.reports[r.serial])
  }

  // In the file it may also still say that it is sending.
  ghost predicate AllHonest(j: Journal, p: Past) {
    && (forall id :: id in j.receipts ==> Honest(j.receipts[id], p))
    && (forall id :: id in j.disk ==> j.disk[id].status.Sending? || Honest(j.disk[id], p))
  }

  // No two receipts share a serial number, and none has one still to be given.
  ghost predicate Numbered(receipts: Receipts, made: nat) {
    && (forall id :: id in receipts ==> receipts[id].serial < made)
    && forall id, k :: id in receipts && k in receipts && receipts[id].serial == receipts[k].serial ==> id == k
  }

  ghost predicate CallsNumbered(w: World, p: Past) {
    forall c :: c in w.calls && w.calls[c].InFlight? ==>
      var n := w.calls[c].serial;
      && p.before <= n < w.journal.made && n !in p.reports
      && (forall id :: id in w.journal.receipts && w.journal.receipts[id].serial == n ==> id == w.calls[c].id)
      && (forall d :: d in w.calls && w.calls[d].InFlight? && w.calls[d].serial == n ==> c == d)
  }

  ghost predicate Told(w: World, p: Past) {
    && AllHonest(w.journal, p) && Numbered(w.journal.receipts, w.journal.made) && Numbered(w.journal.disk, w.journal.made)
    && CallsNumbered(w, p) && p.before <= w.journal.made && forall n :: n in p.reports ==> n < w.journal.made
  }

  lemma {:induction false} ClaimTold(w: World, a: Args, clock: Clock, saves: bool, p: Past)
    requires Told(w, p) && w.journal.receipts.Keys <= clock.prune.Keys
    ensures var j := Claimed(w.journal, a, clock, saves);
            && AllHonest(j, p) && Numbered(j.receipts, j.made) && Numbered(j.disk, j.made)
  {
  }

  lemma {:induction false} PrunedTold(w: World, readings: map<nat, int>, p: Past)
    requires Told(w, p) && w.journal.receipts.Keys <= readings.Keys
    ensures Told(w.(journal := w.journal.(receipts := Pruned(w.journal.receipts, readings))), p)
  {
  }

  // What Told looks at beside the calls.
  lemma {:induction false} FewerCallsTold(w: World, n: World, p: Past)
    requires Told(w, p) && n.journal == w.journal
    requires forall c :: c in n.calls ==> n.calls[c].Listing? || (c in w.calls && n.calls[c] == w.calls[c])
    ensures Told(n, p)
  {
  }

  lemma {:induction false} SendTold(w: World, call: nat, clock: Clock, p: Past, n: World)
    requires Told(w, p) && call in w.calls && w.calls[call].Listing? && w.journal.receipts.Keys <= clock.prune.Keys
    requires var a := w.calls[call].args;
             n.journal == Claimed(w.journal, a, clock, true) && n.calls == w.calls[call := InFlight(a.id, w.journal.made)]
    ensures Told(n, p)
  {
    ClaimTold(w, w.calls[call].args, clock, true, p);
  }

  lemma {:induction false} UnsentTold(w: World, call: nat, clock: Clock, p: Past, n: World)
    requires Told(w, p) && call in w.calls && w.calls[call].Listing? && w.journal.receipts.Keys <= clock.prune.Keys
    requires n.journal == Claimed(w.journal, w.calls[call].args, clock, false) && n.calls == w.calls - {call}
    ensures Told(n, p)
  {
    ClaimTold(w, w.calls[call].args, clock, false, p);
  }

  lemma {:induction false} ResumedTold(w: World, e: Event, wait: int, p: Past)
    requires Told(w, p) && Enabled(w, e, wait) && e.Resumed?
    ensures Told(Next(w, e, wait), p)
  {
    var a, n := w.calls[e.call].args, Next(w, e, wait);
    if Sends(w.journal, a, e.listed, e.clock) {
      if e.saves {
        SendTold(w, e.call, e.clock, p, n);
      } else {
        UnsentTold(w, e.call, e.clock, p, n);
      }
    } else {
      PrunedTold(w, e.clock.prune, p);
      var pruned := w.(journal := w.journal.(receipts := Pruned(w.journal.receipts, e.clock.prune)));
      FewerCallsTold(if n.journal == w.journal then w else pruned, n, p);
    }
  }

  // An answer that comes in, about a receipt of this process that had none.
  predicate Fresh(p: Past, serial: nat, status: Status) {
    p.before <= serial && serial !in p.reports && !status.Sending?
  }

  lemma {:induction false} StaysHonest(r: Receipt, p: Past, serial: nat, status: Status)
    requires Honest(r, p) && Fresh(p, serial, status)
    ensures Honest(if r.serial == serial then r.(status := status) else r, p.(reports := p.reports[serial := status]))
    ensures r.status.Sending? || Honest(r, p.(reports := p.reports[serial := status]))
  {
  }

  lemma {:induction false} SettleHonest(j: Journal, id: nat, serial: nat, status: Status, saves: bool, p: Past)
    requires AllHonest(j, p) && Fresh(p, serial, status)
    requires forall k :: k in j.receipts && j.receipts[k].serial == serial ==> k == id
    ensures AllHonest(Settle(j, id, serial, status, saves), p.(reports := p.reports[serial := status]))
  {
    var n, q := Settle(j, id, serial, status, saves), p.(reports := p.reports[serial := status]);
    forall k | k in n.receipts ensures Honest(n.receipts[k], q) {
      StaysHonest(j.receipts[k], p, serial, status);
    }
    forall k | k in j.disk && !j.disk[k].status.Sending? ensures Honest(j.disk[k], q) {
      StaysHonest(j.disk[k], p, serial, status);
    }
  }

  lemma {:induction false} SettleNumbered(j: Journal, id: nat, serial: nat, status: Status, saves: bool)
    requires Numbered(j.receipts, j.made) && Numbered(j.disk, j.made)
    ensures var n := Settle(j, id, serial, status, saves);
            && Numbered(n.receipts, n.made) && Numbered(n.disk, n.made)
            && (forall k :: k in n.receipts ==> k in j.receipts && n.receipts[k].serial == j.receipts[k].serial)
  {
  }

  lemma {:induction false} SettledTold(w: World, e: Event, wait: int, p: Past)
    requires Told(w, p) && Enabled(w, e, wait) && e.Settled?
    ensures Told(Next(w, e, wait), PastAfter(w, e, wait, p))
  {
    var call, n, q := w.calls[e.call], Next(w, e, wait), PastAfter(w, e, wait, p);
    SettleHonest(w.journal, call.id, call.serial, e.status, e.saves, p);
    SettleNumbered(w.journal, call.id, call.serial, e.status, e.saves);
    assert n.journal == Settle(w.journal, call.id, call.serial, e.status, e.saves) && n.calls == w.calls - {e.call};
    assert CallsNumbered(n, q);
  }

  lemma {:induction false} LoadTold(j: Journal, p: Past, n: World)
    requires AllHonest(j, p) && Numbered(j.disk, j.made)
    requires n.journal == j.(receipts := Load(j.disk)) && n.calls == map[]
    requires forall k :: k in p.reports ==> k < j.made
    ensures Told(n, p.(before := j.made))
  {
  }

  lemma {:induction false} DiedTold(w: World, e: Event, wait: int, p: Past)
    requires Told(w, p) && Enabled(w, e, wait) && e.DiedInSend?
    ensures Told(Next(w, e, wait), PastAfter(w, e, wait, p))
  {
    var claimed := Claimed(w.journal, w.calls[e.call].args, e.clock, true);
    ClaimTold(w, w.calls[e.call].args, e.clock, true, p);
    LoadTold(claimed, p, Next(w, e, wait));
  }

  lemma {:induction false} StepTold(w: World, e: Event, wait: int, p: Past)
    requires Told(w, p) && Enabled(w, e, wait)
    ensures Told(Next(w, e, wait), PastAfter(w, e, wait, p))
  {
    match e {
      case Began(_, _, _, _) => FewerCallsTold(w, Next(w, e, wait), p);
      case Resumed(_, _, _, _) => ResumedTold(w, e, wait, p);
      case Settled(_, _, _) => SettledTold(w, e, wait, p);
      case Saved =>
      case Restarted => LoadTold(w.journal, p, Next(w, e, wait));
      case DiedInSend(_, _, _) => DiedTold(w, e, wait, p);
    }
  }

  lemma {:induction false} RunTold(w: World, events: seq<Event>, wait: int, last: World, p: Past)
    requires Told(w, p) && Run(w, events, wait, last)
    ensures Told(last, PastOf(w, events, wait, last, p))
    decreases |events|
  {
    if events != [] {
      StepTold(w, events[0], wait, p);
      RunTold(Next(w, events[0], wait), events[1..], wait, last, PastAfter(w, events[0], wait, p));
    }
  }

  // In every run, with crashes, failed saves and any waits, each receipt is honest: it says accepted, queued or blocked
  // only if that was the answer, sending only while no answer has come, and unconfirmed if that was reported or this
  // process found it with no answer.
  lemma {:induction false} EveryReceiptIsHonest(now: int, approvals: nat -> int, events: seq<Event>, wait: int, w: World, id: nat)
    requires Run(Idle(now, approvals), events, wait, w) && id in w.journal.receipts
    ensures Honest(w.journal.receipts[id], PastOf(Idle(now, approvals), events, wait, w, Past(map[], 0)))
  {
    RunTold(Idle(now, approvals), events, wait, w, Past(map[], 0));
  }

  // A restart keeps every receipt in the file; what was sending is unconfirmed, and all else is as it was.
  lemma {:induction false} RestartedReceipt(w: World, wait: int, id: nat)
    ensures var n := Next(w, Restarted, wait).journal;
            && (id in n.receipts <==> id in w.journal.disk) && n.disk == w.journal.disk
            && (id in w.journal.disk ==>
                  var r := w.journal.disk[id];
                  n.receipts[id] == Receipt(r.action, if r.status == Sending then Unconfirmed else r.status, r.at, r.serial))
  {
  }

  // The answer before the list: the receipt for the same action, a wait for an approval in its ten minutes by a clock at
  // most thirty seconds ahead, and a refusal otherwise.
  lemma {:induction false} BeginAnswers(receipts: Receipts, a: Args, future: int, age: int)
    ensures var r := Begin(receipts, a, future, age);
            && (r.Known? <==> a.id in receipts && receipts[a.id].action == a.action)
            && (r.Known? ==> r.receipt == receipts[a.id])
            && (r.Waiting? <==> a.id !in receipts && a.preparedAt <= future + 30 * 1000 && age <= a.preparedAt + 10 * 60 * 1000)
            && !r.Transmitted?
  {
  }

  // The list came, and in it the target can be replied to and is as it was when the reply was approved.
  ghost predicate Offered(listed: Listed, a: Action) {
    && listed.Listed? && a.target in listed.sessions
    && listed.sessions[a.target] == Session(a.fingerprint, true)
  }

  // An answer is written to the receipt that was sent, if that is still there, and to the file if that works.
  lemma {:induction false} SettledReceipt(j: Journal, id: nat, serial: nat, status: Status, saves: bool)
    ensures var n := Settle(j, id, serial, status, saves);
            && n.receipts.Keys == j.receipts.Keys && n.disk == (if saves then n.receipts else j.disk)
            && forall k :: k in j.receipts ==>
                 n.receipts[k] == if k == id && j.receipts[k].serial == serial then j.receipts[k].(status := status)
                                  else j.receipts[k]
  {
  }

  // The answer after the list, and what is left: receipts younger than thirty days when it looked at them.
  lemma {:induction false} ResumeAnswers(j: Journal, a: Args, listed: Listed, clock: Clock, saves: bool)
    requires j.receipts.Keys <= clock.prune.Keys
    ensures var o, kept := Resume(j, a, listed, clock, saves), Pruned(j.receipts, clock.prune);
            && (forall id :: id in kept <==> id in j.receipts && clock.prune[id] - 30 * 24 * 60 * 60 * 1000 <= j.receipts[id].at)
            && (forall id :: id in kept ==> kept[id] == j.receipts[id])
            && (o.answer.Known? <==> Offered(listed, a.action) && a.id in j.receipts && j.receipts[a.id].action == a.action)
            && (o.answer.Known? ==> o.answer.receipt == j.receipts[a.id])
            && (o.answer.Transmitted? <==>
                  Offered(listed, a.action) && a.id !in j.receipts && |kept| < 2000 && saves)
            && (o.answer.Transmitted? ==>
                  && o.journal.receipts == kept[a.id := Receipt(a.action, Sending, clock.at, o.answer.serial)]
                  && o.journal.disk == o.journal.receipts)
            && (!o.answer.Transmitted? ==> o.journal.disk == j.disk) && !o.answer.Waiting?
  {
  }

  lemma {:induction false} RunThen(w: World, events: seq<Event>, wait: int, last: World, e: Event)
    requires Run(w, events, wait, last) && Enabled(last, e, wait)
    ensures Run(w, events + [e], wait, Next(last, e, wait))
    decreases |events|
  {
    if events == [] {
      assert [e][1..] == [];
      assert Run(Next(w, e, wait), [], wait, Next(w, e, wait));
    } else {
      RunThen(Next(w, events[0], wait), events[1..], wait, last, e);
      assert (events + [e])[1..] == events[1..] + [e];
    }
  }

  lemma {:induction false} ReachableThen(w: World, e: Event, wait: int)
    requires Reachable(w, wait) && Enabled(w, e, wait)
    ensures Reachable(Next(w, e, wait), wait)
  {
    var now, events :| Run(Idle(now, w.approvals), events, wait, w);
    RunThen(Idle(now, w.approvals), events, wait, w, e);
  }

  lemma {:induction false} TwoWait(wait: int, approvals: nat -> int, a: Args) returns (w: World)
    requires wait > MAX_WAIT && approvals(0) == 0 && a.id == 0 && a.preparedAt == 0
    ensures Reachable(w, wait) && w == World(Journal(map[], map[], 0), map[0 := Listing(a, 0), 1 := Listing(a, 0)],
                                             [], 0, approvals)
  {
    var idle := Idle(0, approvals);
    assert Run(idle, [], wait, idle);
    ReachableThen(idle, Began(0, a, 0, 0), wait);
    var one := Next(idle, Began(0, a, 0, 0), wait);
    ReachableThen(one, Began(1, a, 0, 0), wait);
    w := Next(one, Began(1, a, 0, 0), wait);
  }

  lemma {:induction false} OneSent(wait: int, approvals: nat -> int, a: Args, listed: Listed) returns (w: World)
    requires wait > MAX_WAIT && approvals(0) == 0 && a.id == 0 && a.preparedAt == 0 && StillMatches(listed, a.action)
    ensures Reachable(w, wait) && w.sent == [Sent(0, a.action, 0)] && w.now == 0 && w.approvals == approvals
    ensures w.journal.receipts == map[0 := Receipt(a.action, Sending, 0, 0)]
    ensures 1 in w.calls && w.calls[1] == Listing(a, 0) && w.calls.Keys == {0, 1}
  {
    var two := TwoWait(wait, approvals, a);
    var e := Resumed(0, listed, Clock(map[], 0), true);
    assert Pruned(map[], map[]) == map[];
    ReachableThen(two, e, wait);
    w := Next(two, e, wait);
  }

  // Another request, thirty days and a millisecond later, prunes the receipt.
  lemma {:induction false} ReceiptPruned(wait: int, a: Args, listed: Listed) returns (w: World)
    requires wait > MAX_WAIT && a.id == 0 && a.preparedAt == 0 && StillMatches(listed, a.action)
    ensures Reachable(w, wait) && |w.sent| == 2 && w.sent[0].id == 0 && w.now == KEEP_MS + 1
    ensures |w.journal.receipts| == 1 && 0 !in w.journal.receipts
    ensures 1 in w.calls && w.calls[1] == Listing(a, 0)
  {
    var late := KEEP_MS + 1;
    var approvals: nat -> int := id => if id == 0 then 0 else late;
    var one := OneSent(wait, approvals, a, listed);
    var b := Args(1, a.action, late);
    ReachableThen(one, Began(2, b, late, late), wait);
    var waiting := Next(one, Began(2, b, late, late), wait);
    var e := Resumed(2, listed, Clock(map[0 := late], late), true);
    assert Pruned(waiting.journal.receipts, map[0 := late]) == map[];
    ReachableThen(waiting, e, wait);
    w := Next(waiting, e, wait);
  }

  // One request, two replies waiting for the list: the first is sent, its receipt is pruned on behalf of another
  // request after thirty days, and the second then finds no receipt.
  lemma {:induction false} LongWaitSendsTwice(wait: int) returns (w: World)
    requires wait > KEEP_MS
    ensures Reachable(w, wait) && !SentOnce(w.sent)
  {
    var a, listed := Args(0, Action(0, 0, 0), 0), Listed(map[0 := Session(0, true)]);
    var pruned := ReceiptPruned(wait, a, listed);
    var late := KEEP_MS + 1;
    var e := Resumed(1, listed, Clock(map id | id in pruned.journal.receipts :: late, late), true);
    SubsetSize(Pruned(pruned.journal.receipts, e.clock.prune).Keys, pruned.journal.receipts.Keys);
    ReachableThen(pruned, e, wait);
    w := Next(pruned, e, wait);
    assert |w.sent| == 3 && w.sent[0].id == w.sent[2].id;
  }

  // Over every run, each request is transmitted at most once exactly when no reply waits for the list longer than
  // receipts are kept.
  lemma {:induction false} SentOnceIffWaitBounded(wait: int)
    ensures (forall w :: Reachable(w, wait) ==> SentOnce(w.sent)) <==> wait <= KEEP_MS
  {
    if wait <= KEEP_MS {
      forall w | Reachable(w, wait) ensures SentOnce(w.sent) {
        EveryRunIsSafe(w, wait);
      }
    } else {
      var w := LongWaitSendsTwice(wait);
    }
  }

  // ---- the supervisor -----------------------------------------------------------------------

  class StateFile {
    var receipts: Receipts

    constructor (receipts: Receipts)
      ensures this.receipts == receipts
    {
      this.receipts := receipts;
    }
  }

  // `reply` is split where it waits: before the session list, from there to the transmission, and after it.
  class CodingSupervisor {
    var receipts: Receipts
    var made: nat
    const file: StateFile

    ghost function View(): (j: Journal)
      reads this, file
    {
      Journal(receipts, file.receipts, made)
    }

    constructor (file: StateFile)
      ensures this.file == file && View() == Journal(Load(old(file.receipts)), old(file.receipts), 0)
    {
      this.file := file;
      this.made := 0;
      var loaded := file.receipts;
      var todo := loaded.Keys;
      while todo != {}
        invariant todo <= loaded.Keys == file.receipts.Keys
        invariant forall id :: id in loaded ==>
          loaded[id] == if id in todo then file.receipts[id] else Recover(file.receipts[id])
        decreases |todo|
      {
        var id :| id in todo;
        if loaded[id].status == Sending {
          loaded := loaded[id := loaded[id].(status := Unconfirmed)];
        }
        todo := todo - {id};
      }
      this.receipts := loaded;
    }

    method Save(works: bool)
      modifies file
      ensures file.receipts == if works then receipts else old(file.receipts)
    {
      if works {
        file.receipts := receipts;
      }
    }

    method BeginReply(a: Args, future: int, age: int) returns (answer: Answer)
      ensures answer == Begin(receipts, a, future, age)
    {
      if a.id in receipts {
        var existing := receipts[a.id];
        return if existing.action != a.action then Refused else Known(existing);
      }
      if a.preparedAt > future + SKEW_MS || age - a.preparedAt > APPROVAL_MS {
        return Refused;
      }
      return Waiting;
    }

    method Prune(readings: map<nat, int>)
      requires receipts.Keys <= readings.Keys
      modifies this`receipts
      ensures receipts == Pruned(old(receipts), readings)
    {
      var was, todo := receipts, receipts.Keys;
      while todo != {}
        invariant todo <= was.Keys
        invariant forall id :: id in receipts <==> id in was && (id in todo || was[id].at >= readings[id] - KEEP_MS)
        invariant forall id :: id in receipts ==> receipts[id] == was[id]
        decreases |todo|
      {
        var id :| id in todo;
        if receipts[id].at < readings[id] - KEEP_MS {
          receipts := receipts - {id};
        }
        todo := todo - {id};
      }
    }

    method ResumeReply(a: Args, listed: Listed, clock: Clock, saves: bool) returns (answer: Answer)
      requires receipts.Keys <= clock.prune.Keys
      modifies this, file
      ensures Outcome(View(), answer) == Resume(old(View()), a, listed, clock, saves)
    {
      if listed.ListFailed? || a.action.target !in listed.sessions {
        return Refused;
      }
      var current := listed.sessions[a.action.target];
      if !current.replyAvailable || current.fingerprint != a.action.fingerprint {
        return Refused;
      }
      if a.id in receipts {
        answer := BeginReply(a, clock.at, clock.at);
        return;
      }
      Prune(clock.prune);
      if |receipts| >= JOURNAL_MAX {
        return Refused;
      }
      receipts := receipts[a.id := Receipt(a.action, Sending, clock.at, made)];
      made := made + 1;
      Save(saves);
      return if saves then Transmitted(made - 1) else Refused;
    }

    method SettleReply(id: nat, serial: nat, status: Status, saves: bool)
      modifies this`receipts, file
      ensures View() == Settle(old(View()), id, serial, status, saves)
    {
      if id in receipts && receipts[id].serial == serial {
        receipts := receipts[id := receipts[id].(status := status)];
      }
      Save(saves);
    }
  }
}
