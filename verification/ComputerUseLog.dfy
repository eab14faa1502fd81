// Sessions and actions of computer use, and the journal they are rebuilt from: src/computer-use-log.js.
// An error counts when it is neither missing nor empty.

module ComputerUseLog {

  datatype Option<T> = None | Some(value: T)

  datatype SessionStatus = Active | Ended | Aborted | Expired

  // terms: the goal, target and capability the owner approved.
  datatype Session = Session(source: nat, terms: nat, status: SessionStatus, startedAt: int, lastActiveAt: int,
                             idleExpiresAt: int, expiresAt: int, endedAt: Option<int>, reason: Option<nat>,
                             actionIds: seq<nat>, nextSequence: nat)

  datatype Args = Plain(value: nat) | Secret(text: seq<char>) | Redacted(characters: nat)

  datatype ActionStatus = Pending | Failed | Done(name: nat)

  datatype Outcome = Value(value: nat) | Hidden(status: ActionStatus)

  datatype Error = Message(text: nat) | HiddenError

  datatype Action = Action(session: nat, sensitive: bool, args: Args, reasoning: Option<nat>, sequence: nat,
                           status: ActionStatus, createdAt: int, executedAt: Option<int>, result: Option<Outcome>,
                           error: Option<Error>)

  datatype Entry =
    | SessionStart(id: nat, session: Session)
    | SessionEnd(id: nat, status: SessionStatus, endedAt: int, reason: Option<nat>)
    | ActionRecord(id: nat, action: Action)
    | ActionResult(id: nat, outcome: ActionStatus, executedAt: int, result: Option<Outcome>, error: Option<Error>)

  datatype State = State(sessions: map<nat, Session>, actions: map<nat, Action>)

  const EMPTY: State := State(map[], map[])

  // The log in memory and its journal.
  datatype Log = Log(state: State, journal: seq<Entry>)

  datatype Limits = Limits(idleMs: int, absoluteMs: int)

  function SafeArgs(sensitive: bool, args: Args): (r: Args) {
    if sensitive && args.Secret? then Redacted(|args.text|) else args
  }

  function SafeAction(a: Action): (r: Action) {
    if !a.sensitive then a
    else a.(args := SafeArgs(true, a.args), reasoning := None,
            result := if a.result.None? then None else Some(Hidden(if a.error.Some? then Failed else a.status)),
            error := if a.error.Some? then Some(HiddenError) else None)
  }

  // ---- replay -------------------------------------------------------------------------------

  function Larger(a: nat, b: nat): (r: nat) {
    if a < b then b else a
  }

  function WithAction(s: Session, id: nat, sequence: nat): (r: Session) {
    s.(actionIds := if id in s.actionIds then s.actionIds else s.actionIds + [id],
       nextSequence := Larger(s.nextSequence, sequence + 1))
  }

  function Applied(st: State, e: Entry): (r: State) {
    match e
    case SessionStart(id, session) => st.(sessions := st.sessions[id := session])
    case SessionEnd(id, status, endedAt, reason) =>
      if id in st.sessions
      then st.(sessions := st.sessions[id := st.sessions[id].(status := status, endedAt := Some(endedAt), reason := reason)])
      else st
    case ActionRecord(id, action) =>
      var a := SafeAction(action);
      State(if a.session in st.sessions
            then st.sessions[a.session := WithAction(st.sessions[a.session], id, a.sequence)] else st.sessions,
            st.actions[id := a])
    case ActionResult(id, outcome, executedAt, result, error) =>
      if id !in st.actions then st
      else
        var a := st.actions[id].(status := outcome, executedAt := Some(executedAt));
        st.(actions := st.actions[id :=
          if a.sensitive
          then a.(result := Some(Hidden(if error.Some? then Failed else outcome)),
                  error := if error.Some? then Some(HiddenError) else None)
          else a.(result := if result.Some? then result else a.result, error := if error.Some? then error else a.error)])
  }

  function Replay(st: State, journal: seq<Entry>): (r: State) {
    if journal == [] then st else Applied(Replay(st, journal[..|journal| - 1]), journal[|journal| - 1])
  }

  // ---- the live log -------------------------------------------------------------------------

  function Append(l: Log, st: State, e: Entry): (r: Log) {
    Log(st, l.journal + [e])
  }

  function Started(now: int, source: nat, terms: nat, limits: Limits): (s: Session) {
    Session(source, terms, Active, now, now, now + limits.idleMs, now + limits.absoluteMs, None, None, [], 1)
  }

  function Start(l: Log, id: nat, source: nat, terms: nat, now: int, limits: Limits): (r: Log) {
    var s := Started(now, source, terms, limits);
    Append(l, l.state.(sessions := l.state.sessions[id := s]), SessionStart(id, s))
  }

  function End(l: Log, id: nat, status: SessionStatus, reason: Option<nat>, now: int): (r: Log) {
    if id !in l.state.sessions || !l.state.sessions[id].status.Active? then l
    else
      var s := l.state.sessions[id].(status := status, endedAt := Some(now), reason := reason);
      Append(l, l.state.(sessions := l.state.sessions[id := s]), SessionEnd(id, status, now, reason))
  }

  predicate Lapsed(s: Session, now: int) {
    s.status.Active? && (now > s.expiresAt || now > s.idleExpiresAt)
  }

  const LEASE: nat := 0

  // The sweep over the sessions listed in order.
  function Expire(l: Log, order: seq<nat>, now: int): (r: Log) {
    if order == [] then l
    else
      var p, id := Expire(l, order[..|order| - 1], now), order[|order| - 1];
      if id in p.state.sessions && Lapsed(p.state.sessions[id], now) then End(p, id, Expired, Some(LEASE), now) else p
  }

  function NewAction(s: Session, session: nat, sensitive: bool, args: Args, reasoning: Option<nat>, now: int): (a: Action) {
    Action(session, sensitive, SafeArgs(sensitive, args), if sensitive then None else reasoning, s.nextSequence, Pending,
           now, None, None, None)
  }

  // created and renewed are two readings of the clock.
  function Record(l: Log, id: nat, session: nat, sensitive: bool, args: Args, reasoning: Option<nat>, created: int,
                  renewed: int, limits: Limits): (r: Log)
  {
    if session !in l.state.sessions || !l.state.sessions[session].status.Active? then l
    else
      var s := l.state.sessions[session];
      var a := NewAction(s, session, sensitive, args, reasoning, created);
      var t := s.(actionIds := s.actionIds + [id], nextSequence := s.nextSequence + 1, lastActiveAt := created,
                  idleExpiresAt := renewed + limits.idleMs);
      Append(l, State(l.state.sessions[session := t], l.state.actions[id := a]), ActionRecord(id, a))
  }

  // What is stored of a result: nothing of a sensitive action but how it ended.
  function StoredResult(a: Action, status: ActionStatus, result: Option<Outcome>, error: Option<Error>): (r: Option<Outcome>) {
    if a.sensitive then Some(Hidden(if error.Some? then Failed else status)) else result
  }

  function StoredError(a: Action, error: Option<Error>): (r: Option<Error>) {
    if a.sensitive && error.Some? then Some(HiddenError) else error
  }

  function Mark(l: Log, id: nat, status: ActionStatus, result: Option<Outcome>, error: Option<Error>, now: int): (r: Log) {
    if id !in l.state.actions then l
    else
      var a := l.state.actions[id];
      var kept, failed := StoredResult(a, status, result, error), StoredError(a, error);
      var final := if failed.Some? then Failed else status;
      var b := a.(status := final, executedAt := Some(now), result := if kept.Some? then kept else a.result,
                  error := if failed.Some? then failed else a.error);
      Append(l, l.state.(actions := l.state.actions[id := b]), ActionResult(id, final, now, kept, failed))
  }

  // What a new process does with sessions it finds active.
  function Revoke(l: Log, order: seq<nat>, now: int): (r: Log) {
    if order == [] then l else End(Revoke(l, order[..|order| - 1], now), order[|order| - 1], Aborted, Some(1), now)
  }

  // ---- what replay and the live log agree on ------------------------------------------------

  // Everything but the idle lease.
  function Settled(s: Session): (r: Session) {
    s.(lastActiveAt := 0, idleExpiresAt := 0)
  }

  ghost predicate SameSession(s: Session, t: Session) {
    Settled(s) == Settled(t)
  }

  ghost predicate Same(a: State, b: State) {
    && a.sessions.Keys == b.sessions.Keys && a.actions == b.actions
    && forall id :: id in a.sessions ==> SameSession(a.sessions[id], b.sessions[id])
  }

  // The same but for these actions: they are sensitive, and a lacks their error.
  ghost predicate SameBut(a: State, b: State, lost: set<nat>) {
    && a.sessions.Keys == b.sessions.Keys && a.actions.Keys == b.actions.Keys
    && (forall id :: id in a.sessions ==> SameSession(a.sessions[id], b.sessions[id]))
    && (forall id :: id in a.actions ==>
          a.actions[id] == if id in lost then b.actions[id].(error := None) else b.actions[id])
    && (forall id :: id in lost ==> id in b.actions && b.actions[id].sensitive && b.actions[id].error.Some?)
  }

  lemma {:induction false} SameIff(a: State, b: State, lost: set<nat>)
    requires SameBut(a, b, lost)
    ensures Same(a, b) <==> lost == {}
  {
    if id :| id in lost {
      assert a.actions[id] != b.actions[id];
    } else {
      assert lost == {};
      assert a.actions == b.actions;
    }
  }

  predicate Safe(a: Action) {
    a.sensitive ==> !a.args.Secret? && a.reasoning.None? && (a.result.Some? ==> a.result.value.Hidden?)
                    && (a.error.Some? ==> a.error.value.HiddenError?)
  }

  // The actions of a session are known to it, and a sensitive action has no raw part.
  ghost predicate Clean(st: State) {
    && (forall id :: id in st.actions ==> Safe(st.actions[id]))
    && (forall id, a :: id in st.sessions && a in st.sessions[id].actionIds ==> a in st.actions)
  }

  ghost predicate Inv(l: Log, lost: set<nat>) {
    SameBut(Replay(EMPTY, l.journal), l.state, lost) && Clean(l.state)
  }

  lemma {:induction false} ReplayPush(st: State, journal: seq<Entry>, e: Entry)
    ensures Replay(st, journal + [e]) == Applied(Replay(st, journal), e)
  {
    assert (journal + [e])[..|journal|] == journal;
  }

  // The action whose record or result an entry replaces.
  function Replaced(e: Entry): (r: set<nat>) {
    match e
    case ActionRecord(id, _) => {id}
    case ActionResult(id, _, _, _, _) => {id}
    case _ => {}
  }

  // Replay does not look at what it does not restore.
  lemma {:induction false} AppliedSame(a: State, b: State, e: Entry, lost: set<nat>)
    requires SameBut(a, b, lost)
    ensures SameBut(Applied(a, e), Applied(b, e), lost - Replaced(e))
  {
    if e.ActionRecord? {
      RecordedSame(a, b, e, lost);
    }
  }

  lemma {:induction false} RecordedSame(a: State, b: State, e: Entry, lost: set<nat>)
    requires SameBut(a, b, lost) && e.ActionRecord?
    ensures SameBut(Applied(a, e), Applied(b, e), lost - {e.id})
  {
  }

  lemma {:induction false} SameThen(a: State, b: State, c: State, first: set<nat>, second: set<nat>)
    requires SameBut(a, b, first) && SameBut(b, c, second) && first !! second
    ensures SameBut(a, c, first + second)
  {
    forall id | id in a.sessions ensures SameSession(a.sessions[id], c.sessions[id]) {
      assert SameSession(a.sessions[id], b.sessions[id]) && SameSession(b.sessions[id], c.sessions[id]);
    }
  }

  // gone: what the new entry does not restore.
  lemma {:induction false} AppendKeeps(l: Log, st: State, e: Entry, lost: set<nat>, gone: set<nat>)
    requires Inv(l, lost) && SameBut(Applied(l.state, e), st, gone) && Clean(st) && gone <= Replaced(e)
    ensures Inv(Append(l, st, e), (lost - Replaced(e)) + gone)
  {
    ReplayPush(EMPTY, l.journal, e);
    AppliedSame(Replay(EMPTY, l.journal), l.state, e, lost);
    SameThen(Applied(Replay(EMPTY, l.journal), e), Applied(l.state, e), st, lost - Replaced(e), gone);
  }

  lemma {:induction false} StartKeeps(l: Log, id: nat, source: nat, terms: nat, now: int, limits: Limits, lost: set<nat>)
    requires Inv(l, lost)
    ensures Inv(Start(l, id, source, terms, now, limits), lost)
  {
    var s := Started(now, source, terms, limits);
    AppendKeeps(l, l.state.(sessions := l.state.sessions[id := s]), SessionStart(id, s), lost, {});
  }

  lemma {:induction false} EndKeeps(l: Log, id: nat, status: SessionStatus, reason: Option<nat>, now: int, lost: set<nat>)
    requires Inv(l, lost)
    ensures Inv(End(l, id, status, reason, now), lost)
  {
    if id in l.state.sessions && l.state.sessions[id].status.Active? {
      var s := l.state.sessions[id].(status := status, endedAt := Some(now), reason := reason);
      AppendKeeps(l, l.state.(sessions := l.state.sessions[id := s]), SessionEnd(id, status, now, reason), lost, {});
    }
  }

  lemma {:induction false} ExpireKeeps(l: Log, order: seq<nat>, now: int, lost: set<nat>)
    requires Inv(l, lost)
    ensures Inv(Expire(l, order, now), lost)
  {
    if order != [] {
      var n := |order| - 1;
      ExpireKeeps(l, order[..n], now, lost);
      EndKeeps(Expire(l, order[..n], now), order[n], Expired, Some(LEASE), now, lost);
    }
  }

  lemma {:induction false} RecordIsClean(l: Log, id: nat, session: nat, sensitive: bool, args: Args,
                                         reasoning: Option<nat>, created: int, renewed: int, limits: Limits)
    requires Clean(l.state) && id !in l.state.actions
    ensures Clean(Record(l, id, session, sensitive, args, reasoning, created, renewed, limits).state)
  {
  }

  // Replaying the record of a new action does to the sessions and actions what recording it did.
  lemma {:induction false} RecordIsApplied(l: Log, id: nat, session: nat, sensitive: bool, args: Args,
                                           reasoning: Option<nat>, created: int, renewed: int, limits: Limits)
    requires Clean(l.state) && id !in l.state.actions && session in l.state.sessions
    requires l.state.sessions[session].status.Active?
    ensures var a := NewAction(l.state.sessions[session], session, sensitive, args, reasoning, created);
            var n := Record(l, id, session, sensitive, args, reasoning, created, renewed, limits);
            n.journal == l.journal + [ActionRecord(id, a)] && SameBut(Applied(l.state, ActionRecord(id, a)), n.state, {})
  {
    var s := l.state.sessions[session];
    var a := NewAction(s, session, sensitive, args, reasoning, created);
    assert id !in s.actionIds;
    assert SafeAction(a) == a;
  }

  lemma {:induction false} RecordKeeps(l: Log, id: nat, session: nat, sensitive: bool, args: Args, reasoning: Option<nat>,
                                       created: int, renewed: int, limits: Limits, lost: set<nat>)
    requires Inv(l, lost) && id !in l.state.actions
    ensures Inv(Record(l, id, session, sensitive, args, reasoning, created, renewed, limits), lost)
  {
    if session in l.state.sessions && l.state.sessions[session].status.Active? {
      var a := NewAction(l.state.sessions[session], session, sensitive, args, reasoning, created);
      var n := Record(l, id, session, sensitive, args, reasoning, created, renewed, limits);
      RecordIsClean(l, id, session, sensitive, args, reasoning, created, renewed, limits);
      RecordIsApplied(l, id, session, sensitive, args, reasoning, created, renewed, limits);
      assert lost - {id} == lost;
      AppendKeeps(l, n.state, ActionRecord(id, a), lost, {});
    }
  }

  // An outcome the journal can restore: a sensitive action that has failed is not later said to have succeeded.
  predicate Restorable(l: Log, id: nat, error: Option<Error>) {
    id in l.state.actions && l.state.actions[id].sensitive && error.None? ==> l.state.actions[id].error.None?
  }

  // The actions whose error in memory is not in the journal, once a result has been reported.
  function Lost(l: Log, lost: set<nat>, id: nat, error: Option<Error>): (r: set<nat>) {
    if id !in l.state.actions then lost else if Restorable(l, id, error) then lost - {id} else lost + {id}
  }

  lemma {:induction false} MarkLoses(l: Log, id: nat, status: ActionStatus, result: Option<Outcome>, error: Option<Error>,
                                     now: int)
    requires id in l.state.actions && Clean(l.state)
    ensures var n := Mark(l, id, status, result, error, now);
            && n.journal == l.journal + [n.journal[|l.journal|]] && Replaced(n.journal[|l.journal|]) == {id}
            && SameBut(Applied(l.state, n.journal[|l.journal|]), n.state, if Restorable(l, id, error) then {} else {id})
  {
  }

  lemma {:induction false} MarkIsClean(l: Log, id: nat, status: ActionStatus, result: Option<Outcome>, error: Option<Error>,
                                       now: int)
    requires Clean(l.state)
    ensures Clean(Mark(l, id, status, result, error, now).state)
  {
  }

  lemma {:induction false} MarkKeeps(l: Log, id: nat, status: ActionStatus, result: Option<Outcome>, error: Option<Error>,
                                     now: int, lost: set<nat>)
    requires Inv(l, lost)
    ensures Inv(Mark(l, id, status, result, error, now), Lost(l, lost, id, error))
  {
    if id in l.state.actions {
      var n, gone := Mark(l, id, status, result, error, now), if Restorable(l, id, error) then {} else {id};
      MarkLoses(l, id, status, result, error, now);
      MarkIsClean(l, id, status, result, error, now);
      AppendKeeps(l, n.state, n.journal[|l.journal|], lost, gone);
      assert (lost - {id}) + gone == Lost(l, lost, id, error);
    }
  }

  lemma {:induction false} RevokeKeeps(l: Log, order: seq<nat>, now: int, lost: set<nat>)
    requires Inv(l, lost)
    ensures Inv(Revoke(l, order, now), lost)
  {
    if order != [] {
      var n := |order| - 1;
      RevokeKeeps(l, order[..n], now, lost);
      EndKeeps(Revoke(l, order[..n], now), order[n], Aborted, Some(1), now, lost);
    }
  }

  // ---- runs ---------------------------------------------------------------------------------

  predicate HasActive(st: State, source: nat, terms: Option<nat>) {
    exists id :: id in st.sessions && st.sessions[id].status.Active? && st.sessions[id].source == source
                 && (terms.Some? ==> st.sessions[id].terms == terms.value)
  }

  datatype Answer = New | Existing | Refused

  // A start looks for an active session of the chat, and expires sessions twice on the way.
  function StartSession(l: Log, id: nat, source: nat, terms: nat, order: seq<nat>, first: int, second: int, now: int,
                        limits: Limits): (r: (Log, Answer))
  {
    var swept := Expire(Expire(l, order, first), order, second);
    if HasActive(swept.state, source, None)
    then (swept, if HasActive(swept.state, source, Some(terms)) then Existing else Refused)
    else (Start(swept, id, source, terms, now, limits), New)
  }

  // The log, and the last snapshot of its state, if any. lost: the actions whose error is in memory only.
  datatype World = World(log: Log, snapshot: Option<State>, lost: set<nat>)

  // order lists all sessions. Restarted: this program has died, and a new process reads snapshot and journal.
  datatype Event =
    | StartAsked(id: nat, source: nat, terms: nat, order: seq<nat>, first: int, second: int, now: int)
    | Looked(order: seq<nat>, now: int)
    | SessionEnded(id: nat, status: SessionStatus, reason: Option<nat>, now: int)
    | ActionAsked(id: nat, session: nat, sensitive: bool, args: Args, reasoning: Option<nat>, order: seq<nat>, swept: int,
                  created: int, renewed: int)
    | ActionEnded(id: nat, outcome: ActionStatus, result: Option<Outcome>, error: Option<Error>, now: int)
    | SnapshotTaken
    | Restarted(order: seq<nat>, now: int)

  ghost predicate Lists(order: seq<nat>, st: State) {
    forall id :: id in st.sessions ==> id in order
  }

  ghost predicate Enabled(w: World, e: Event) {
    match e
    case StartAsked(id, _, _, order, _, _, _) => id !in w.log.state.sessions && Lists(order, w.log.state)
    case Looked(order, _) => Lists(order, w.log.state)
    case SessionEnded(_, status, _, _) => !status.Active?
    case ActionAsked(id, _, _, _, _, order, _, _, _) => id !in w.log.state.actions && Lists(order, w.log.state)
    case ActionEnded(_, _, _, _, _) => true
    case SnapshotTaken => true
    case Restarted(order, _) => Lists(order, w.log.state)
  }

  function SafeState(st: State): (r: State) {
    st.(actions := map id | id in st.actions :: SafeAction(st.actions[id]))
  }

  function Loaded(w: World): (r: State) {
    Replay(if w.snapshot.Some? then SafeState(w.snapshot.value) else EMPTY, w.log.journal)
  }

  ghost function Next(w: World, e: Event, limits: Limits): (r: World)
    requires Enabled(w, e)
  {
    match e
    case StartAsked(id, source, terms, order, first, second, now) =>
      w.(log := StartSession(w.log, id, source, terms, order, first, second, now, limits).0)
    case Looked(order, now) => w.(log := Expire(w.log, order, now))
    case SessionEnded(id, status, reason, now) => w.(log := End(w.log, id, status, reason, now))
    case ActionAsked(id, session, sensitive, args, reasoning, order, swept, created, renewed) =>
      w.(log := Record(Expire(w.log, order, swept), id, session, sensitive, args, reasoning, created, renewed, limits))
    case ActionEnded(id, outcome, result, error, now) =>
      w.(log := Mark(w.log, id, outcome, result, error, now), lost := Lost(w.log, w.lost, id, error))
    case SnapshotTaken => w.(snapshot := Some(w.log.state))
    case Restarted(order, now) => w.(log := Revoke(Log(Loaded(w), w.log.journal), order, now), lost := {})
  }

  ghost predicate Run(w: World, events: seq<Event>, limits: Limits, last: World)
    decreases |events|
  {
    if events == [] then last == w
    else Enabled(w, events[0]) && Run(Next(w, events[0], limits), events[1..], limits, last)
  }

  // ---- snapshots ----------------------------------------------------------------------------

  ghost predicate Part(a: State, b: State) {
    && (forall id :: id in a.sessions ==> id in b.sessions && b.sessions[id] == a.sessions[id])
    && (forall id :: id in a.actions ==> id in b.actions && b.actions[id] == a.actions[id])
  }

  lemma {:induction false} AppliedPart(a: State, b: State, e: Entry)
    requires Part(a, b)
    ensures Part(Applied(a, e), Applied(b, e))
    ensures Applied(b, e).sessions.Keys <= Applied(a, e).sessions.Keys + b.sessions.Keys
    ensures Applied(b, e).actions.Keys <= Applied(a, e).actions.Keys + b.actions.Keys
  {
  }

  lemma {:induction false} AppliedGrows(a: State, e: Entry)
    ensures a.sessions.Keys <= Applied(a, e).sessions.Keys && a.actions.Keys <= Applied(a, e).actions.Keys
  {
  }

  // Replaying over a snapshot rebuilds whatever the journal rebuilds, and keeps what only the snapshot knew.
  lemma {:induction false} ReplayPart(base: State, journal: seq<Entry>)
    ensures var a, b := Replay(EMPTY, journal), Replay(base, journal);
            && Part(a, b)
            && b.sessions.Keys <= a.sessions.Keys + base.sessions.Keys
            && b.actions.Keys <= a.actions.Keys + base.actions.Keys
  {
    if journal != [] {
      var n := |journal| - 1;
      ReplayPart(base, journal[..n]);
      AppliedPart(Replay(EMPTY, journal[..n]), Replay(base, journal[..n]), journal[n]);
      AppliedGrows(Replay(EMPTY, journal[..n]), journal[n]);
    }
  }

  ghost predicate Within(base: State, st: State) {
    base.sessions.Keys <= st.sessions.Keys && base.actions.Keys <= st.actions.Keys
  }

  // With a snapshot of an earlier state the result is the same as without.
  lemma {:induction false} SnapshotChangesNothing(base: State, journal: seq<Entry>)
    requires Within(base, Replay(EMPTY, journal))
    ensures Replay(base, journal) == Replay(EMPTY, journal)
  {
    var a, b := Replay(EMPTY, journal), Replay(base, journal);
    ReplayPart(base, journal);
    assert b.sessions == a.sessions && b.actions == a.actions;
  }

  // ---- sessions of one chat -----------------------------------------------------------------

  predicate IsActive(st: State, id: nat) {
    id in st.sessions && st.sessions[id].status.Active?
  }

  ghost predicate OnePerChat(st: State) {
    forall a, b | IsActive(st, a) && IsActive(st, b) :: st.sessions[a].source == st.sessions[b].source ==> a == b
  }

  ghost predicate Bounded(st: State, limits: Limits) {
    forall id :: id in st.sessions ==> st.sessions[id].expiresAt == st.sessions[id].startedAt + limits.absoluteMs
  }

  // n has the sessions of st, some of them ended.
  ghost predicate Calmer(st: State, n: State) {
    && n.sessions.Keys == st.sessions.Keys && n.actions == st.actions
    && forall id :: id in st.sessions ==>
         && n.sessions[id].source == st.sessions[id].source && n.sessions[id].expiresAt == st.sessions[id].expiresAt
         && n.sessions[id].startedAt == st.sessions[id].startedAt
         && (n.sessions[id].status.Active? ==> n.sessions[id] == st.sessions[id])
  }

  lemma {:induction false} CalmerKeeps(st: State, n: State, limits: Limits)
    requires Calmer(st, n) && OnePerChat(st) && Bounded(st, limits)
    ensures OnePerChat(n) && Bounded(n, limits)
  {
  }

  lemma {:induction false} EndCalms(l: Log, id: nat, status: SessionStatus, reason: Option<nat>, now: int)
    requires !status.Active?
    ensures Calmer(l.state, End(l, id, status, reason, now).state)
  {
  }

  lemma {:induction false} ExpireCalms(l: Log, order: seq<nat>, now: int)
    ensures var n := Expire(l, order, now);
            && Calmer(l.state, n.state)
            && forall id :: id in order && id in n.state.sessions && n.state.sessions[id].status.Active? ==>
                 now <= n.state.sessions[id].expiresAt && now <= n.state.sessions[id].idleExpiresAt
  {
    if order != [] {
      var k := |order| - 1;
      ExpireCalms(l, order[..k], now);
      EndCalms(Expire(l, order[..k], now), order[k], Expired, Some(LEASE), now);
      assert order == order[..k] + [order[k]];
    }
  }

  lemma {:induction false} RevokeCalms(l: Log, order: seq<nat>, now: int)
    ensures var n := Revoke(l, order, now);
            && Calmer(l.state, n.state)
            && forall id :: id in l.state.sessions ==>
                 n.state.sessions[id] == if id in order && l.state.sessions[id].status.Active?
                                         then l.state.sessions[id].(status := Aborted, endedAt := Some(now), reason := Some(1))
                                         else l.state.sessions[id]
  {
    if order != [] {
      var k := |order| - 1;
      RevokeCalms(l, order[..k], now);
      assert order == order[..k] + [order[k]];
    }
  }

  lemma {:induction false} StartChats(l: Log, id: nat, source: nat, terms: nat, now: int, limits: Limits)
    requires OnePerChat(l.state) && Bounded(l.state, limits) && !HasActive(l.state, source, None)
    ensures OnePerChat(Start(l, id, source, terms, now, limits).state)
    ensures Bounded(Start(l, id, source, terms, now, limits).state, limits)
  {
  }

  lemma {:induction false} RecordChats(l: Log, id: nat, session: nat, sensitive: bool, args: Args, reasoning: Option<nat>,
                                       created: int, renewed: int, limits: Limits)
    requires OnePerChat(l.state) && Bounded(l.state, limits)
    ensures var n := Record(l, id, session, sensitive, args, reasoning, created, renewed, limits).state;
            OnePerChat(n) && Bounded(n, limits)
  {
  }

  ghost predicate Sound(w: World, limits: Limits) {
    && Inv(w.log, w.lost) && OnePerChat(w.log.state) && Bounded(w.log.state, limits)
    && (w.snapshot.Some? ==> Within(w.snapshot.value, w.log.state))
  }

  lemma {:induction false} StartAskedKeeps(w: World, e: Event, limits: Limits)
    requires Sound(w, limits) && e.StartAsked? && Enabled(w, e)
    ensures Sound(Next(w, e, limits), limits)
  {
    var one := Expire(w.log, e.order, e.first);
    var two := Expire(one, e.order, e.second);
    ExpireKeeps(w.log, e.order, e.first, w.lost);
    ExpireKeeps(one, e.order, e.second, w.lost);
    ExpireCalms(w.log, e.order, e.first);
    ExpireCalms(one, e.order, e.second);
    CalmerKeeps(w.log.state, one.state, limits);
    CalmerKeeps(one.state, two.state, limits);
    if !HasActive(two.state, e.source, None) {
      StartKeeps(two, e.id, e.source, e.terms, e.now, limits, w.lost);
      StartChats(two, e.id, e.source, e.terms, e.now, limits);
    }
  }

  lemma {:induction false} ActionAskedKeeps(w: World, e: Event, limits: Limits)
    requires Sound(w, limits) && e.ActionAsked? && Enabled(w, e)
    ensures Sound(Next(w, e, limits), limits)
  {
    var swept := Expire(w.log, e.order, e.swept);
    ExpireKeeps(w.log, e.order, e.swept, w.lost);
    ExpireCalms(w.log, e.order, e.swept);
    CalmerKeeps(w.log.state, swept.state, limits);
    RecordKeeps(swept, e.id, e.session, e.sensitive, e.args, e.reasoning, e.created, e.renewed, limits, w.lost);
    RecordChats(swept, e.id, e.session, e.sensitive, e.args, e.reasoning, e.created, e.renewed, limits);
  }

  // What a restart loads is what the live log held, but for the idle leases and the errors that were lost.
  lemma {:induction false} LoadedIsLive(w: World)
    requires Inv(w.log, w.lost) && (w.snapshot.Some? ==> Within(w.snapshot.value, w.log.state))
    ensures Loaded(w) == Replay(EMPTY, w.log.journal) && SameBut(Loaded(w), w.log.state, w.lost) && Clean(Loaded(w))
  {
    if w.snapshot.Some? {
      assert SafeState(w.snapshot.value).actions.Keys == w.snapshot.value.actions.Keys;
      SnapshotChangesNothing(SafeState(w.snapshot.value), w.log.journal);
    }
    forall id | id in Loaded(w).sessions ensures Loaded(w).sessions[id].actionIds == w.log.state.sessions[id].actionIds {
      assert SameSession(Loaded(w).sessions[id], w.log.state.sessions[id]);
    }
  }

  lemma {:induction false} SameChats(a: State, b: State, lost: set<nat>, limits: Limits)
    requires SameBut(a, b, lost) && OnePerChat(b) && Bounded(b, limits)
    ensures OnePerChat(a) && Bounded(a, limits)
  {
    forall id | id in a.sessions ensures a.sessions[id].expiresAt == b.sessions[id].expiresAt
        && a.sessions[id].startedAt == b.sessions[id].startedAt && a.sessions[id].status == b.sessions[id].status
        && a.sessions[id].source == b.sessions[id].source {
      assert SameSession(a.sessions[id], b.sessions[id]);
    }
  }

  lemma {:induction false} RestartedKeeps(w: World, e: Event, limits: Limits)
    requires Sound(w, limits) && e.Restarted? && Enabled(w, e)
    ensures Sound(Next(w, e, limits), limits)
  {
    var l := Log(Loaded(w), w.log.journal);
    LoadedIsLive(w);
    SameChats(l.state, w.log.state, w.lost, limits);
    assert Inv(l, {});
    RevokeKeeps(l, e.order, e.now, {});
    RevokeCalms(l, e.order, e.now);
    CalmerKeeps(l.state, Revoke(l, e.order, e.now).state, limits);
  }

  lemma {:induction false} SameSessionsChat(st: State, n: State, limits: Limits)
    requires n.sessions == st.sessions && OnePerChat(st) && Bounded(st, limits)
    ensures OnePerChat(n) && Bounded(n, limits)
  {
  }

  lemma {:induction false} MarkChats(l: Log, id: nat, status: ActionStatus, result: Option<Outcome>, error: Option<Error>,
                                     now: int, limits: Limits)
    requires OnePerChat(l.state) && Bounded(l.state, limits)
    ensures var n := Mark(l, id, status, result, error, now).state;
            && n.sessions.Keys == l.state.sessions.Keys && n.actions.Keys == l.state.actions.Keys
            && OnePerChat(n) && Bounded(n, limits)
  {
    SameSessionsChat(l.state, Mark(l, id, status, result, error, now).state, limits);
  }

  lemma {:induction false} LookedKeeps(w: World, e: Event, limits: Limits)
    requires Sound(w, limits) && e.Looked? && Enabled(w, e)
    ensures Sound(Next(w, e, limits), limits)
  {
    ExpireKeeps(w.log, e.order, e.now, w.lost);
    ExpireCalms(w.log, e.order, e.now);
    CalmerKeeps(w.log.state, Expire(w.log, e.order, e.now).state, limits);
  }

  lemma {:induction false} SessionEndedKeeps(w: World, e: Event, limits: Limits)
    requires Sound(w, limits) && e.SessionEnded? && Enabled(w, e)
    ensures Sound(Next(w, e, limits), limits)
  {
    EndKeeps(w.log, e.id, e.status, e.reason, e.now, w.lost);
    EndCalms(w.log, e.id, e.status, e.reason, e.now);
    CalmerKeeps(w.log.state, End(w.log, e.id, e.status, e.reason, e.now).state, limits);
  }

  lemma {:induction false} ActionEndedKeeps(w: World, e: Event, limits: Limits)
    requires Sound(w, limits) && e.ActionEnded? && Enabled(w, e)
    ensures Sound(Next(w, e, limits), limits)
  {
    MarkKeeps(w.log, e.id, e.outcome, e.result, e.error, e.now, w.lost);
    MarkChats(w.log, e.id, e.outcome, e.result, e.error, e.now, limits);
  }

  lemma {:induction false} StepKeeps(w: World, e: Event, limits: Limits)
    requires Sound(w, limits) && Enabled(w, e)
    ensures Sound(Next(w, e, limits), limits)
  {
    match e {
      case StartAsked(_, _, _, _, _, _, _) => StartAskedKeeps(w, e, limits);
      case Looked(_, _) => LookedKeeps(w, e, limits);
      case SessionEnded(_, _, _, _) => SessionEndedKeeps(w, e, limits);
      case ActionAsked(_, _, _, _, _, _, _, _, _) => ActionAskedKeeps(w, e, limits);
      case ActionEnded(_, _, _, _, _) => ActionEndedKeeps(w, e, limits);
      case SnapshotTaken =>
      case Restarted(_, _) => RestartedKeeps(w, e, limits);
    }
  }

  lemma {:induction false} RunKeeps(w: World, events: seq<Event>, limits: Limits, last: World)
    requires Sound(w, limits) && Run(w, events, limits, last)
    ensures Sound(last, limits)
    decreases |events|
  {
    if events != [] {
      StepKeeps(w, events[0], limits);
      RunKeeps(Next(w, events[0], limits), events[1..], limits, last);
    }
  }

  // ---- main results -------------------------------------------------------------------------

  const NEW: World := World(Log(EMPTY, []), None, {})

  // After any run, with any snapshots and restarts in it: replay rebuilds every session, its actions, its sequence
  // numbers and all outcomes, with or without the snapshot, but for the idle leases and the errors of the lost
  // actions. A chat has at most one active session, and nothing extends a session past its absolute expiry.
  lemma {:induction false} ReplayRebuilds(events: seq<Event>, limits: Limits, w: World)
    requires Run(NEW, events, limits, w)
    ensures SameBut(Loaded(w), w.log.state, w.lost) && (Same(Loaded(w), w.log.state) <==> w.lost == {})
    ensures Loaded(w) == Replay(EMPTY, w.log.journal)
    ensures OnePerChat(w.log.state) && Bounded(w.log.state, limits)
  {
    RunKeeps(NEW, events, limits, w);
    LoadedIsLive(w);
    SameIff(Loaded(w), w.log.state, w.lost);
  }

  // A restart keeps everything but the lost errors and what was active, which is aborted.
  lemma {:induction false} RestartAborts(w: World, limits: Limits, order: seq<nat>, now: int)
    requires Sound(w, limits) && Enabled(w, Restarted(order, now))
    ensures var n := Next(w, Restarted(order, now), limits).log.state;
            && n.actions.Keys == w.log.state.actions.Keys && n.sessions.Keys == w.log.state.sessions.Keys
            && (forall id :: id in n.actions && id !in w.lost ==> n.actions[id] == w.log.state.actions[id])
            && forall id :: id in n.sessions ==>
                 SameSession(n.sessions[id],
                             if w.log.state.sessions[id].status.Active?
                             then w.log.state.sessions[id].(status := Aborted, endedAt := Some(now), reason := Some(1))
                             else w.log.state.sessions[id])
  {
    var l := Log(Loaded(w), w.log.journal);
    LoadedIsLive(w);
    RevokeCalms(l, order, now);
    forall id | id in l.state.sessions ensures SameSession(l.state.sessions[id], w.log.state.sessions[id]) {
    }
  }

  // Whoever asks for the sessions sees none active past its absolute expiry or its idle lease.
  lemma {:induction false} NoneActivePastExpiry(w: World, limits: Limits, order: seq<nat>, now: int, id: nat)
    requires Sound(w, limits) && Enabled(w, Looked(order, now))
    requires IsActive(Next(w, Looked(order, now), limits).log.state, id)
    ensures id in w.log.state.sessions && now <= w.log.state.sessions[id].startedAt + limits.absoluteMs
  {
    ExpireCalms(w.log, order, now);
  }

  // An outcome the replay does not rebuild: exactly a sensitive action that had failed and is now reported without
  // an error keeps its error in memory and loses it in the journal.
  lemma {:induction false} MarkedRebuildsIff(l: Log, id: nat, status: ActionStatus, result: Option<Outcome>,
                                             error: Option<Error>, now: int)
    requires Inv(l, {}) && id in l.state.actions
    ensures var n := Mark(l, id, status, result, error, now);
            Same(Replay(EMPTY, n.journal), n.state) <==> Restorable(l, id, error)
  {
    var n := Mark(l, id, status, result, error, now);
    MarkKeeps(l, id, status, result, error, now, {});
    SameIff(Replay(EMPTY, n.journal), n.state, Lost(l, {}, id, error));
  }

  // Such a run: a sensitive action fails and is then reported as done.
  lemma {:induction false} FailedThenDone(limits: Limits) returns (events: seq<Event>, w: World)
    requires limits.idleMs >= 0 && limits.absoluteMs >= 0
    ensures Run(NEW, events, limits, w) && !Same(Loaded(w), w.log.state)
    ensures 0 in w.log.state.actions && w.log.state.actions[0].error.Some?
    ensures 0 in Loaded(w).actions && Loaded(w).actions[0].error.None?
  {
    var start, ask := StartAsked(0, 0, 0, [], 0, 0, 0), ActionAsked(0, 0, true, Plain(0), None, [0], 0, 0, 0);
    var failed, done := ActionEnded(0, Failed, None, Some(Message(0)), 0), ActionEnded(0, Done(0), None, None, 0);
    events := [start, ask, failed, done];
    var one := Next(NEW, start, limits);
    assert one.log.state == State(map[0 := Started(0, 0, 0, limits)], map[]);
    var two := Next(one, ask, limits);
    assert [0][..0] == [] && Expire(one.log, [0], 0) == one.log;
    assert two.log.state.actions == map[0 := NewAction(Started(0, 0, 0, limits), 0, true, Plain(0), None, 0)];
    var three := Next(two, failed, limits);
    assert three.log.state.actions[0].error.Some?;
    w := Next(three, done, limits);
    FourSteps(NEW, start, ask, failed, done, limits);
    ReplayRebuilds(events, limits, w);
  }

  lemma {:induction false} FourSteps(w: World, a: Event, b: Event, c: Event, d: Event, limits: Limits)
    requires Enabled(w, a) && Enabled(Next(w, a, limits), b) && Enabled(Next(Next(w, a, limits), b, limits), c)
    requires Enabled(Next(Next(Next(w, a, limits), b, limits), c, limits), d)
    ensures Run(w, [a, b, c, d], limits, Next(Next(Next(Next(w, a, limits), b, limits), c, limits), d, limits))
  {
    var one := Next(w, a, limits);
    var two := Next(one, b, limits);
    var three := Next(two, c, limits);
    var last := Next(three, d, limits);
    assert [d][1..] == [] && [c, d][1..] == [d] && [b, c, d][1..] == [c, d] && [a, b, c, d][1..] == [b, c, d];
    assert Run(last, [], limits, last);
    assert Run(three, [d], limits, last);
    assert Run(two, [c, d], limits, last);
    assert Run(one, [b, c, d], limits, last);
  }

  // ---- what each operation records ----------------------------------------------------------

  // Ending a session ends it as asked, if it is active, and touches nothing else.
  lemma {:induction false} EndedSession(l: Log, id: nat, status: SessionStatus, reason: Option<nat>, now: int)
    ensures var n := End(l, id, status, reason, now);
            if id in l.state.sessions && l.state.sessions[id].status == Active
            then n.state == l.state.(sessions := l.state.sessions[id :=
                   l.state.sessions[id].(status := status, endedAt := Some(now), reason := reason)])
                 && n.journal == l.journal + [SessionEnd(id, status, now, reason)]
            else n == l
  {
  }

  // A sweep expires exactly the active sessions whose lease or absolute time is over.
  lemma {:induction false} SweptSession(l: Log, order: seq<nat>, now: int, id: nat)
    requires id in l.state.sessions
    ensures var s, n := l.state.sessions[id], Expire(l, order, now);
            && n.state.actions == l.state.actions && id in n.state.sessions
            && n.state.sessions[id] == if id in order && s.status == Active && (now > s.expiresAt || now > s.idleExpiresAt)
                                       then s.(status := Expired, endedAt := Some(now), reason := Some(LEASE)) else s
  {
    if order != [] {
      var k := |order| - 1;
      SweptSession(l, order[..k], now, id);
      assert order == order[..k] + [order[k]];
    }
  }

  // Some session of the chat is active.
  ghost predicate ChatActive(st: State, source: nat) {
    exists k :: IsActive(st, k) && st.sessions[k].source == source
  }

  // Some session of the chat is active on these terms.
  ghost predicate ChatActiveOn(st: State, source: nat, terms: nat) {
    exists k :: IsActive(st, k) && st.sessions[k].source == source && st.sessions[k].terms == terms
  }

  // A chat gets a new session exactly if it has no active one after the sweeps; the one it has is given back for the
  // same terms, and otherwise it is refused.
  lemma {:induction false} StartAnswers(l: Log, id: nat, source: nat, terms: nat, order: seq<nat>, first: int, second: int,
                                        now: int, limits: Limits)
    ensures var (n, answer) := StartSession(l, id, source, terms, order, first, second, now, limits);
            var swept := Expire(Expire(l, order, first), order, second);
            && (answer.New? <==> !ChatActive(swept.state, source))
            && (answer.Existing? <==> ChatActiveOn(swept.state, source, terms))
            && (answer.New? ==>
                  && n.state.actions == swept.state.actions
                  && n.state.sessions == swept.state.sessions[id :=
                       Session(source, terms, Active, now, now, now + limits.idleMs, now + limits.absoluteMs, None, None, [], 1)])
            && (!answer.New? ==> n == swept)
  {
    var st := Expire(Expire(l, order, first), order, second).state;
    HasActiveIff(st, source);
    HasActiveForIff(st, source, terms);
  }

  lemma {:induction false} HasActiveIff(st: State, source: nat)
    ensures HasActive(st, source, None) <==> ChatActive(st, source)
  {
    if HasActive(st, source, None) {
      var k :| k in st.sessions && st.sessions[k].status.Active? && st.sessions[k].source == source;
      assert IsActive(st, k);
    }
  }

  lemma {:induction false} HasActiveForIff(st: State, source: nat, terms: nat)
    ensures HasActive(st, source, Some(terms)) <==> ChatActiveOn(st, source, terms)
    ensures HasActive(st, source, Some(terms)) ==> HasActive(st, source, None)
  {
    if HasActive(st, source, Some(terms)) {
      var k :| k in st.sessions && st.sessions[k].status.Active? && st.sessions[k].source == source
               && st.sessions[k].terms == terms;
      assert IsActive(st, k);
    }
    if ChatActiveOn(st, source, terms) {
      var k :| IsActive(st, k) && st.sessions[k].source == source && st.sessions[k].terms == terms;
      assert k in st.sessions && st.sessions[k].status.Active?;
    }
  }

  // An action is recorded only in an active session; it gets the next number there and renews the lease but not the
  // absolute expiry. A sensitive one is stored without its text and its reasoning.
  lemma {:induction false} RecordedAction(l: Log, id: nat, session: nat, sensitive: bool, args: Args, reasoning: Option<nat>,
                                          created: int, renewed: int, limits: Limits)
    ensures var n := Record(l, id, session, sensitive, args, reasoning, created, renewed, limits);
            if session in l.state.sessions && l.state.sessions[session].status == Active
            then
              var s := l.state.sessions[session];
              && n.state.sessions == l.state.sessions[session :=
                   s.(actionIds := s.actionIds + [id], nextSequence := s.nextSequence + 1, lastActiveAt := created,
                      idleExpiresAt := renewed + limits.idleMs)]
              && n.state.actions.Keys == l.state.actions.Keys + {id}
              && (forall k :: k in l.state.actions && k != id ==> n.state.actions[k] == l.state.actions[k])
              && (var a := n.state.actions[id];
                  && a.session == session && a.sensitive == sensitive && a.sequence == s.nextSequence
                  && a.status == Pending && a.createdAt == created && a.executedAt == None && a.result == None
                  && a.error == None && a.reasoning == (if sensitive then None else reasoning)
                  && a.args == (if sensitive && args.Secret? then Redacted(|args.text|) else args))
            else n == l
  {
  }

  // A result is stored with the time; an action with an error has failed. Of a sensitive action only how it ended is
  // stored; otherwise what is reported, or what was there when nothing is.
  lemma {:induction false} MarkedAction(l: Log, id: nat, status: ActionStatus, result: Option<Outcome>, error: Option<Error>,
                                        now: int)
    requires id in l.state.actions
    ensures var n, was, ended := Mark(l, id, status, result, error, now), l.state.actions[id],
                                 if error.Some? then Failed else status;
            && n.state.sessions == l.state.sessions && id in n.state.actions
            && n.state == l.state.(actions := l.state.actions[id := n.state.actions[id]])
            && n.state.actions[id] == was.(
                 status := ended, executedAt := Some(now),
                 result := if was.sensitive then Some(Hidden(ended)) else if result.Some? then result else was.result,
                 error := if error.None? then was.error else if was.sensitive then Some(HiddenError) else error)
  {
  }

  // The actions of every session are numbered from one, in the order they were recorded.
  ghost predicate SessionNumbered(st: State, id: nat)
    requires id in st.sessions
  {
    var s := st.sessions[id];
    && s.nextSequence == |s.actionIds| + 1
    && forall i :: 0 <= i < |s.actionIds| ==>
         && s.actionIds[i] in st.actions && st.actions[s.actionIds[i]].sequence == i + 1
         && st.actions[s.actionIds[i]].session == id
  }

  ghost predicate Numbered(st: State) {
    forall id :: id in st.sessions ==> SessionNumbered(st, id)
  }

  // Nothing that numbering looks at has changed.
  ghost predicate SameNumbers(a: State, b: State) {
    && (forall id :: id in b.sessions ==> id in a.sessions && b.sessions[id].actionIds == a.sessions[id].actionIds
                                          && b.sessions[id].nextSequence == a.sessions[id].nextSequence)
    && (forall k :: k in a.actions ==> k in b.actions && b.actions[k].sequence == a.actions[k].sequence
                                       && b.actions[k].session == a.actions[k].session)
  }

  lemma {:induction false} SameNumbersKeep(a: State, b: State)
    requires Numbered(a) && SameNumbers(a, b)
    ensures Numbered(b)
  {
    forall id | id in b.sessions ensures SessionNumbered(b, id) {
      assert SessionNumbered(a, id);
    }
  }

  lemma {:induction false} EndSameNumbers(l: Log, id: nat, status: SessionStatus, reason: Option<nat>, now: int)
    ensures SameNumbers(l.state, End(l, id, status, reason, now).state)
  {
  }

  lemma {:induction false} ExpireNumbered(l: Log, order: seq<nat>, now: int)
    requires Numbered(l.state)
    ensures Numbered(Expire(l, order, now).state)
  {
    if order != [] {
      var k := |order| - 1;
      ExpireNumbered(l, order[..k], now);
      var p := Expire(l, order[..k], now);
      EndSameNumbers(p, order[k], Expired, Some(LEASE), now);
      SameNumbersKeep(p.state, End(p, order[k], Expired, Some(LEASE), now).state);
    }
  }

  lemma {:induction false} RevokeNumbered(l: Log, order: seq<nat>, now: int)
    requires Numbered(l.state)
    ensures Numbered(Revoke(l, order, now).state)
  {
    if order != [] {
      var k := |order| - 1;
      RevokeNumbered(l, order[..k], now);
      var p := Revoke(l, order[..k], now);
      EndSameNumbers(p, order[k], Aborted, Some(1), now);
      SameNumbersKeep(p.state, End(p, order[k], Aborted, Some(1), now).state);
    }
  }

  lemma {:induction false} RecordNumbered(l: Log, id: nat, session: nat, sensitive: bool, args: Args, reasoning: Option<nat>,
                                          created: int, renewed: int, limits: Limits)
    requires Numbered(l.state) && id !in l.state.actions
    ensures Numbered(Record(l, id, session, sensitive, args, reasoning, created, renewed, limits).state)
  {
    var n := Record(l, id, session, sensitive, args, reasoning, created, renewed, limits).state;
    RecordedAction(l, id, session, sensitive, args, reasoning, created, renewed, limits);
    forall k | k in n.sessions ensures SessionNumbered(n, k) {
      assert SessionNumbered(l.state, k);
    }
  }

  lemma {:induction false} StepNumbered(w: World, e: Event, limits: Limits)
    requires Sound(w, limits) && Numbered(w.log.state) && Enabled(w, e)
    ensures Numbered(Next(w, e, limits).log.state)
  {
    match e {
      case StartAsked(id, source, terms, order, first, second, now) =>
        ExpireNumbered(w.log, order, first);
        ExpireNumbered(Expire(w.log, order, first), order, second);
        StartAnswers(w.log, id, source, terms, order, first, second, now, limits);
        StartNumbered(Expire(Expire(w.log, order, first), order, second), id, source, terms, now, limits);
      case Looked(order, now) => ExpireNumbered(w.log, order, now);
      case SessionEnded(id, status, reason, now) =>
        EndSameNumbers(w.log, id, status, reason, now);
        SameNumbersKeep(w.log.state, End(w.log, id, status, reason, now).state);
      case ActionAsked(id, session, sensitive, args, reasoning, order, swept, created, renewed) =>
        ExpireNumbered(w.log, order, swept);
        ExpireCalms(w.log, order, swept);
        RecordNumbered(Expire(w.log, order, swept), id, session, sensitive, args, reasoning, created, renewed, limits);
      case ActionEnded(id, outcome, result, error, now) =>
        SameNumbersKeep(w.log.state, Mark(w.log, id, outcome, result, error, now).state);
      case SnapshotTaken =>
      case Restarted(order, now) => RestartNumbered(w, order, now);
    }
  }

  lemma {:induction false} StartNumbered(l: Log, id: nat, source: nat, terms: nat, now: int, limits: Limits)
    requires Numbered(l.state)
    ensures Numbered(Start(l, id, source, terms, now, limits).state)
  {
    var n := Start(l, id, source, terms, now, limits).state;
    forall k | k in n.sessions ensures SessionNumbered(n, k) {
      assert k != id ==> SessionNumbered(l.state, k);
    }
  }

  lemma {:induction false} RestartNumbered(w: World, order: seq<nat>, now: int)
    requires Inv(w.log, w.lost) && (w.snapshot.Some? ==> Within(w.snapshot.value, w.log.state)) && Numbered(w.log.state)
    ensures Numbered(Revoke(Log(Loaded(w), w.log.journal), order, now).state)
  {
    LoadedIsLive(w);
    forall id | id in Loaded(w).sessions ensures SameSession(Loaded(w).sessions[id], w.log.state.sessions[id]) {
    }
    SameNumbersKeep(w.log.state, Loaded(w));
    RevokeNumbered(Log(Loaded(w), w.log.journal), order, now);
  }

  lemma {:induction false} RunNumbered(w: World, events: seq<Event>, limits: Limits, last: World)
    requires Sound(w, limits) && Numbered(w.log.state) && Run(w, events, limits, last)
    ensures Numbered(last.log.state)
    decreases |events|
  {
    if events != [] {
      StepKeeps(w, events[0], limits);
      StepNumbered(w, events[0], limits);
      RunNumbered(Next(w, events[0], limits), events[1..], limits, last);
    }
  }

  // In every run, over restarts too, the actions of a session are numbered from one without a gap.
  lemma {:induction false} ActionsAreNumbered(events: seq<Event>, limits: Limits, w: World)
    requires Run(NEW, events, limits, w)
    ensures Numbered(w.log.state)
  {
    RunNumbered(NEW, events, limits, w);
  }

  // No typed text and no reasoning about it ever reaches the journal.
  ghost predicate Discreet(journal: seq<Entry>) {
    forall e :: e in journal && e.ActionRecord? && e.action.sensitive ==> !e.action.args.Secret? && e.action.reasoning.None?
  }

  lemma {:induction false} ExpireDiscreet(l: Log, order: seq<nat>, now: int)
    requires Discreet(l.journal)
    ensures Discreet(Expire(l, order, now).journal)
  {
    if order != [] {
      ExpireDiscreet(l, order[..|order| - 1], now);
    }
  }

  lemma {:induction false} RevokeDiscreet(l: Log, order: seq<nat>, now: int)
    requires Discreet(l.journal)
    ensures Discreet(Revoke(l, order, now).journal)
  {
    if order != [] {
      RevokeDiscreet(l, order[..|order| - 1], now);
    }
  }

  lemma {:induction false} NothingTypedIsStored(w: World, events: seq<Event>, limits: Limits, last: World)
    requires Discreet(w.log.journal) && Run(w, events, limits, last)
    ensures Discreet(last.log.journal)
    decreases |events|
  {
    if events != [] {
      var e := events[0];
      match e {
        case StartAsked(_, _, _, order, first, second, _) =>
          ExpireDiscreet(w.log, order, first);
          ExpireDiscreet(Expire(w.log, order, first), order, second);
        case Looked(order, now) => ExpireDiscreet(w.log, order, now);
        case ActionAsked(_, _, _, _, _, order, swept, _, _) => ExpireDiscreet(w.log, order, swept);
        case Restarted(order, now) => RevokeDiscreet(Log(Loaded(w), w.log.journal), order, now);
        case _ =>
      }
      NothingTypedIsStored(Next(w, e, limits), events[1..], limits, last);
    }
  }

  // ---- the log ------------------------------------------------------------------------------

  class JournalFile {
    var entries: seq<Entry>
    var snapshot: Option<State>

    constructor (entries: seq<Entry>, snapshot: Option<State>)
      ensures this.entries == entries && this.snapshot == snapshot
    {
      this.entries := entries;
      this.snapshot := snapshot;
    }
  }

  class ActionLog {
    var sessions: map<nat, Session>
    var actions: map<nat, Action>
    const file: JournalFile
    const limits: Limits

    ghost function View(): (l: Log)
      reads this, file
    {
      Log(State(sessions, actions), file.entries)
    }

    constructor (file: JournalFile, limits: Limits)
      ensures this.file == file && this.limits == limits
      ensures View() == Log(Loaded(World(Log(EMPTY, file.entries), file.snapshot, {})), file.entries)
    {
      var st := if file.snapshot.Some? then SafeState(file.snapshot.value) else EMPTY;
      ghost var base := st;
      for i := 0 to |file.entries|
        invariant st == Replay(base, file.entries[..i])
      {
        assert file.entries[..i + 1][..i] == file.entries[..i];
        st := Applied(st, file.entries[i]);
      }
      assert file.entries[..|file.entries|] == file.entries;
      this.file, this.limits := file, limits;
      sessions, actions := st.sessions, st.actions;
    }

    method EndSession(id: nat, status: SessionStatus, reason: Option<nat>, now: int)
      modifies this`sessions, file`entries
      ensures View() == End(old(View()), id, status, reason, now)
    {
      if id in sessions && sessions[id].status == Active {
        sessions := sessions[id := sessions[id].(status := status, endedAt := Some(now), reason := reason)];
        file.entries := file.entries + [SessionEnd(id, status, now, reason)];
      }
    }

    method ExpireSessions(order: seq<nat>, now: int)
      modifies this`sessions, file`entries
      ensures View() == Expire(old(View()), order, now)
    {
      ghost var was := View();
      for i := 0 to |order|
        invariant View() == Expire(was, order[..i], now)
      {
        assert order[..i + 1][..i] == order[..i];
        var id := order[i];
        if id in sessions && sessions[id].status == Active && (now > sessions[id].expiresAt || now > sessions[id].idleExpiresAt) {
          EndSession(id, Expired, Some(LEASE), now);
        }
      }
      assert order[..|order|] == order;
    }

    method RevokeRecovered(order: seq<nat>, now: int)
      modifies this`sessions, file`entries
      ensures View() == Revoke(old(View()), order, now)
    {
      ghost var was := View();
      for i := 0 to |order|
        invariant View() == Revoke(was, order[..i], now)
      {
        assert order[..i + 1][..i] == order[..i];
        EndSession(order[i], Aborted, Some(1), now);
      }
      assert order[..|order|] == order;
    }

    method StartFor(id: nat, source: nat, terms: nat, order: seq<nat>, first: int, second: int, now: int)
      returns (answer: Answer)
      modifies this`sessions, file`entries
      ensures (View(), answer) == StartSession(old(View()), id, source, terms, order, first, second, now, limits)
    {
      ExpireSessions(order, first);
      ExpireSessions(order, second);
      var st := State(sessions, actions);
      if HasActive(st, source, None) {
        return if HasActive(st, source, Some(terms)) then Existing else Refused;
      }
      var session := Started(now, source, terms, limits);
      sessions := sessions[id := session];
      file.entries := file.entries + [SessionStart(id, session)];
      return New;
    }

    method RecordAction(id: nat, session: nat, sensitive: bool, args: Args, reasoning: Option<nat>, order: seq<nat>,
                        swept: int, created: int, renewed: int)
      modifies this, file`entries
      ensures View() == Record(Expire(old(View()), order, swept), id, session, sensitive, args, reasoning, created, renewed,
                               limits)
    {
      ExpireSessions(order, swept);
      if session !in sessions || sessions[session].status != Active {
        return;
      }
      var s := sessions[session];
      var action := NewAction(s, session, sensitive, args, reasoning, created);
      actions := actions[id := action];
      sessions := sessions[session := s.(actionIds := s.actionIds + [id], nextSequence := s.nextSequence + 1,
                                         lastActiveAt := created, idleExpiresAt := renewed + limits.idleMs)];
      file.entries := file.entries + [ActionRecord(id, action)];
    }

    method MarkActionResult(id: nat, status: ActionStatus, result: Option<Outcome>, error: Option<Error>, now: int)
      modifies this`actions, file`entries
      ensures View() == Mark(old(View()), id, status, result, error, now)
    {
      if id !in actions {
        return;
      }
      var a := actions[id];
      var stored, failed := result, error;
      if a.sensitive {
        stored := Some(Hidden(if error.Some? then Failed else status));
        failed := if error.Some? then Some(HiddenError) else None;
      }
      var final := if failed.Some? then Failed else status;
      a := a.(status := final, executedAt := Some(now));
      if stored.Some? {
        a := a.(result := stored);
      }
      if failed.Some? {
        a := a.(error := failed);
      }
      actions := actions[id := a];
      file.entries := file.entries + [ActionResult(id, final, now, stored, failed)];
    }

    method Snapshot()
      modifies file`snapshot
      ensures file.snapshot == Some(View().state)
    {
      file.snapshot := Some(State(sessions, actions));
    }
  }
}
