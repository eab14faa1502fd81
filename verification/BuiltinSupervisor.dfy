// Coding sessions run as child processes of this program: src/builtin-coding-supervisor.js.
// A row is saved as working before its process is spawned, and a row found working at the next start may still
// have a process running, so it is never resumed.

module BuiltinSupervisor {
  import opened InsertionMap

  const MAX_ROWS := 100
  const MAX_CHILDREN := 2
  const APPROVAL_MS := 600_000

  type Rows = InsertionMap<nat, Row>

  datatype Provider = Codex | Claude
  datatype Status = Idle | Waiting | Failed | Working | Interrupted

  // resumable: the provider has named a session of its own that a reply can resume.
  datatype Row = Row(provider: Provider, workspace: nat, instruction: nat, status: Status, resumable: bool,
                     updatedAt: int)

  datatype Child = Child(workspace: nat, stopped: bool)

  // What the supervisor holds in memory, and its sessions file.
  datatype Node = Node(rows: Rows, children: map<nat, Child>, disk: Rows)

  // A prepared start as the owner approved it.
  datatype Approval = Approval(id: nat, provider: Provider, workspace: nat, instruction: nat, preparedAt: int)

  // What the digest in a row identifies.
  datatype Fingerprint = Fingerprint(provider: Provider, id: nat, workspace: nat)

  // What the surroundings do during one launch: whether the workspace, the message and the provider CLI are in
  // order, and whether the save before the spawn, the spawn and the save after a failed spawn succeed.
  datatype Env = Env(ready: bool, saves: bool, spawns: bool, savesAfter: bool)

  // The clock readings of one start, in order: two for the age of the approval, one for each row the pruning
  // considers, one for the new row and one for its launch.
  datatype Clock = Clock(age: int, future: int, prune: seq<int>, created: int, launched: int)

  datatype Answer = Accepted | AlreadyStarted | Refused

  datatype Outcome = Outcome(node: Node, spawned: bool, answer: Answer)

  function Save(n: Node, works: bool): (r: Node) {
    if works then n.(disk := n.rows) else n
  }

  function Mark(n: Node, id: nat, status: Status): (r: Node)
    requires id in n.rows.table
  {
    n.(rows := n.rows.Set(id, n.rows.table[id].(status := status)))
  }

  // ---- launching ----------------------------------------------------------------------------

  predicate SomeInterrupted(rows: Rows, workspace: nat) {
    exists id :: id in rows.table && rows.table[id].workspace == workspace && rows.table[id].status.Interrupted?
  }

  predicate SomeChild(children: map<nat, Child>, workspace: nat) {
    exists id :: id in children && children[id].workspace == workspace
  }

  predicate MayLaunch(n: Node, workspace: nat) {
    !SomeInterrupted(n.rows, workspace) && |n.children| < MAX_CHILDREN && !SomeChild(n.children, workspace)
  }

  function Begun(n: Node, id: nat, now: int): (r: Node)
    requires id in n.rows.table
  {
    n.(rows := n.rows.Set(id, n.rows.table[id].(status := Working, updatedAt := now)))
  }

  // The row as saved before the spawn.
  function Claimed(n: Node, id: nat, now: int): (r: Node)
    requires id in n.rows.table
  {
    Save(Begun(n, id, now), true)
  }

  function Launch(n: Node, id: nat, env: Env, now: int): (r: Outcome)
    requires id in n.rows.table
  {
    var workspace := n.rows.table[id].workspace;
    if !env.ready || !MayLaunch(n, workspace) then Outcome(n, false, Refused)
    else if !env.saves then Outcome(Begun(n, id, now), false, Refused)
    else
      var claimed := Claimed(n, id, now);
      if env.spawns
      then Outcome(claimed.(children := claimed.children[id := Child(workspace, false)]), true, Accepted)
      else Outcome(Save(Mark(claimed, id, Failed), env.savesAfter), false, Refused)
  }

  // ---- starting -----------------------------------------------------------------------------

  predicate Fresh(a: Approval, clock: Clock) {
    clock.age - a.preparedAt <= APPROVAL_MS && a.preparedAt <= clock.future
  }

  predicate Prunable(n: Node, row: Row, id: nat, now: int) {
    !row.status.Working? && !row.status.Interrupted? && id !in n.children && now - row.updatedAt > APPROVAL_MS
  }

  // The rows left once the pruning loop has considered the first i of them.
  function Pruned(n: Node, readings: seq<int>, i: nat): (r: Rows)
    requires n.rows.Valid() && i <= |n.rows.order| == |readings|
  {
    if i == 0 then n.rows
    else
      var rows, id := Pruned(n, readings, i - 1), n.rows.order[i - 1];
      assert id in n.rows.order;
      if |rows.order| >= MAX_ROWS && Prunable(n, n.rows.table[id], id, readings[i - 1]) then rows.Delete(id) else rows
  }

  function AfterPruning(n: Node, clock: Clock): (r: Node)
    requires n.rows.Valid() && |clock.prune| == |n.rows.order|
  {
    n.(rows := Pruned(n, clock.prune, |n.rows.order|))
  }

  function WithRow(n: Node, a: Approval, now: int): (r: Node) {
    n.(rows := n.rows.Set(a.id, Row(a.provider, a.workspace, a.instruction, Idle, false, now)))
  }

  predicate Admits(n: Node, a: Approval, prepared: bool, clock: Clock)
    requires n.rows.Valid() && |clock.prune| == |n.rows.order|
  {
    Fresh(a, clock) && a.id !in n.rows.table && prepared && |AfterPruning(n, clock).rows.order| < MAX_ROWS
  }

  function Start(n: Node, a: Approval, prepared: bool, env: Env, savesLast: bool, clock: Clock): (r: Outcome)
    requires n.rows.Valid() && |clock.prune| == |n.rows.order|
  {
    if !Fresh(a, clock) then Outcome(n, false, Refused)
    else if a.id in n.rows.table then
      var row := n.rows.table[a.id];
      var same := (row.provider, row.workspace, row.instruction) == (a.provider, a.workspace, a.instruction);
      Outcome(n, false, if same then AlreadyStarted else Refused)
    else if !prepared then Outcome(n, false, Refused)
    else if !Admits(n, a, prepared, clock) then Outcome(AfterPruning(n, clock), false, Refused)
    else
      var o := Launch(WithRow(AfterPruning(n, clock), a, clock.created), a.id, env, clock.launched);
      if o.answer.Accepted? then o else Outcome(Save(Mark(o.node, a.id, Failed), savesLast), false, Refused)
  }

  // ---- the other operations -----------------------------------------------------------------

  predicate Resumable(n: Node, seen: Fingerprint) {
    && seen.id in n.rows.table
    && var row := n.rows.table[seen.id];
       row.provider == seen.provider && row.workspace == seen.workspace && row.resumable && !row.status.Interrupted?
  }

  function Reply(n: Node, seen: Fingerprint, env: Env, now: int): (r: Outcome) {
    if Resumable(n, seen) then Launch(n, seen.id, env, now) else Outcome(n, false, Refused)
  }

  function Identify(n: Node, id: nat): (r: Node)
    requires id in n.rows.table
  {
    n.(rows := n.rows.Set(id, n.rows.table[id].(resumable := true)))
  }

  function Stop(n: Node, id: nat): (r: Node) {
    if id in n.children then n.(children := n.children[id := n.children[id].(stopped := true)]) else n
  }

  // The close event of an owned process. clean: it exited with code 0, completed and left text; asks: it was
  // denied something or ended with a question.
  function Close(n: Node, id: nat, clean: bool, asks: bool, saves: bool, now: int): (r: Node)
    requires id in n.rows.table && id in n.children
  {
    var status := if n.children[id].stopped || !clean then Failed else if asks then Waiting else Idle;
    var row := n.rows.table[id].(status := status, updatedAt := now);
    Save(n.(rows := n.rows.Set(id, row), children := n.children - {id}), saves)
  }

  predicate Reconciles(n: Node, id: nat, provider: Provider, confirmed: bool) {
    && id in n.rows.table && n.rows.table[id].provider == provider
    && confirmed && n.rows.table[id].status.Interrupted? && id !in n.children
  }

  function Reconcile(n: Node, id: nat, provider: Provider, confirmed: bool, saves: bool, now: int): (r: Node) {
    if !Reconciles(n, id, provider, confirmed) then n
    else
      var row := n.rows.table[id].(status := Failed, resumable := false, updatedAt := now);
      Save(n.(rows := n.rows.Set(id, row)), saves)
  }

  function Interrupt(row: Row): (r: Row) {
    if row.status.Working? then row.(status := Interrupted) else row
  }

  // What a new process makes of the sessions file: the last hundred rows, none of them working.
  function Load(disk: Rows): (r: Node) {
    var order := if |disk.order| > MAX_ROWS then disk.order[|disk.order| - MAX_ROWS..] else disk.order;
    Node(InsertionMap(order, map id | id in order && id in disk.table :: Interrupt(disk.table[id])), map[], disk)
  }

  // ---- runs ---------------------------------------------------------------------------------

  datatype Process = Process(id: nat, workspace: nat)

  // live: the provider processes that may be running, from spawn until the close event or the owner's word.
  // starts: the prepared starts that spawned a process, in order.
  datatype World = World(node: Node, live: set<Process>, starts: seq<Approval>, now: int)

  // Every operation, and every way this program can die: between operations, or between the save and the spawn
  // of a start or a reply. (Dying inside any other operation leaves what dying before or after it does.)
  datatype Event =
    | Started(a: Approval, prepared: bool, env: Env, savesLast: bool, clock: Clock)
    | Replied(seen: Fingerprint, env: Env, at: int)
    | Identified(id: nat)
    | Stopped(id: nat)
    | Closed(id: nat, clean: bool, asks: bool, saves: bool, at: int)
    | Reconciled(id: nat, provider: Provider, confirmed: bool, saves: bool, at: int)
    | Restarted
    | DiedInStart(a: Approval, clock: Clock)
    | DiedInReply(seen: Fingerprint, at: int)

  ghost predicate Ordered(clock: Clock, since: int) {
    && since <= clock.age <= clock.future <= clock.created <= clock.launched
    && forall i :: 0 <= i < |clock.prune| ==> clock.future <= clock.prune[i] <= clock.created
  }

  ghost predicate Enabled(w: World, e: Event) {
    match e
    case Started(a, prepared, env, savesLast, clock) =>
      w.node.rows.Valid() && |clock.prune| == |w.node.rows.order| && Ordered(clock, w.now)
    case Replied(seen, env, at) => w.now <= at
    case Identified(id) => id in w.node.rows.table && id in w.node.children
    case Stopped(id) => true
    case Closed(id, _, _, _, at) => id in w.node.rows.table && id in w.node.children && w.now <= at
    case Reconciled(id, provider, confirmed, _, at) => w.now <= at
    case Restarted => true
    case DiedInStart(a, clock) =>
      && w.node.rows.Valid() && |clock.prune| == |w.node.rows.order| && Ordered(clock, w.now)
      && Admits(w.node, a, true, clock) && MayLaunch(AfterPruning(w.node, clock), a.workspace)
    case DiedInReply(seen, at) =>
      w.now <= at && Resumable(w.node, seen) && MayLaunch(w.node, seen.workspace)
  }

  ghost function Next(w: World, e: Event): (r: World)
    requires Enabled(w, e)
  {
    match e
    case Started(a, prepared, env, savesLast, clock) =>
      var o := Start(w.node, a, prepared, env, savesLast, clock);
      if o.spawned
      then World(o.node, w.live + {Process(a.id, a.workspace)}, w.starts + [a], clock.launched)
      else w.(node := o.node, now := clock.launched)
    case Replied(seen, env, at) =>
      var o := Reply(w.node, seen, env, at);
      w.(node := o.node, now := at,
         live := if o.spawned then w.live + {Process(seen.id, seen.workspace)} else w.live)
    case Identified(id) => w.(node := Identify(w.node, id))
    case Stopped(id) => w.(node := Stop(w.node, id))
    case Closed(id, clean, asks, saves, at) =>
      World(Close(w.node, id, clean, asks, saves, at), w.live - {Process(id, w.node.children[id].workspace)},
            w.starts, at)
    case Reconciled(id, provider, confirmed, saves, at) =>
      World(Reconcile(w.node, id, provider, confirmed, saves, at),
            if Reconciles(w.node, id, provider, confirmed)
            then w.live - {Process(id, w.node.rows.table[id].workspace)} else w.live,
            w.starts, at)
    case Restarted => w.(node := Load(w.node.disk))
    case DiedInStart(a, clock) =>
      var added := WithRow(AfterPruning(w.node, clock), a, clock.created);
      w.(node := Load(Claimed(added, a.id, clock.launched).disk), now := clock.launched)
    case DiedInReply(seen, at) =>
      w.(node := Load(Claimed(w.node, seen.id, at).disk), now := at)
  }

  ghost predicate Run(w: World, events: seq<Event>, last: World)
    decreases |events|
  {
    if events == [] then last == w
    else Enabled(w, events[0]) && Run(Next(w, events[0]), events[1..], last)
  }

  const NOTHING: Rows := InsertionMap([], map[])

  ghost predicate Reachable(w: World) {
    exists now, events :: Run(World(Node(NOTHING, map[], NOTHING), {}, [], now), events, w)
  }

  // ---- what every step keeps ----------------------------------------------------------------

  ghost predicate Small(rows: Rows) {
    rows.Valid() && |rows.order| <= MAX_ROWS
  }

  // The table holds the claim of a process that may be running.
  ghost predicate Holds(table: map<nat, Row>, p: Process) {
    && p.id in table && table[p.id].workspace == p.workspace
    && (table[p.id].status.Working? || table[p.id].status.Interrupted?)
  }

  // A start that spawned cannot spawn again: its row is there, or its approval has expired.
  ghost predicate Guards(table: map<nat, Row>, s: Approval, now: int) {
    && s.preparedAt <= now
    && ((s.id in table && table[s.id].updatedAt >= s.preparedAt) || now - s.preparedAt > APPROVAL_MS)
  }

  ghost predicate ChildrenOwn(n: Node, live: set<Process>) {
    && |n.children| <= MAX_CHILDREN
    && forall id :: id in n.children ==>
         && id in n.rows.table && n.rows.table[id].status.Working?
         && n.rows.table[id].workspace == n.children[id].workspace
         && Process(id, n.children[id].workspace) in live
  }

  ghost predicate LiveHeld(n: Node, live: set<Process>) {
    forall p :: p in live ==>
      && Holds(n.rows.table, p) && Holds(n.disk.table, p)
      && (p.id in n.children || n.rows.table[p.id].status.Interrupted?)
  }

  ghost predicate OnePerWorkspace(live: set<Process>) {
    forall p, q :: p in live && q in live && p.workspace == q.workspace ==> p == q
  }

  ghost predicate StartsGuarded(table: map<nat, Row>, starts: seq<Approval>, now: int) {
    forall s :: s in starts ==> Guards(table, s, now)
  }

  // No two starts that spawned share the session id and the moment they were prepared.
  ghost predicate SpawnedOnce(starts: seq<Approval>) {
    forall i, j :: 0 <= i < j < |starts| ==> (starts[i].id, starts[i].preparedAt) != (starts[j].id, starts[j].preparedAt)
  }

  ghost predicate Inv(w: World) {
    && Small(w.node.rows) && Small(w.node.disk)
    && ChildrenOwn(w.node, w.live) && LiveHeld(w.node, w.live) && OnePerWorkspace(w.live)
    && StartsGuarded(w.node.rows.table, w.starts, w.now) && StartsGuarded(w.node.disk.table, w.starts, w.now)
    && SpawnedOnce(w.starts)
  }

  lemma {:induction false} SaveKeeps(w: World, works: bool)
    requires Inv(w)
    ensures Inv(w.(node := Save(w.node, works)))
  {
  }

  lemma {:induction false} TimeKeeps(w: World, now: int)
    requires Inv(w) && w.now <= now
    ensures Inv(w.(now := now))
  {
    forall s | s in w.starts ensures Guards(w.node.rows.table, s, now) && Guards(w.node.disk.table, s, now) {
      assert Guards(w.node.rows.table, s, w.now) && Guards(w.node.disk.table, s, w.now);
    }
  }

  // A row may change as long as it keeps its workspace, does not go back in time, and stays a claim while a
  // process may be running under it.
  lemma {:induction false} RowKeeps(w: World, id: nat, row: Row)
    requires Inv(w) && id in w.node.rows.table
    requires var was := w.node.rows.table[id];
             && row.workspace == was.workspace
             && (row.updatedAt == was.updatedAt || row.updatedAt >= w.now)
             && (row.status == was.status || (id !in w.node.children && forall p :: p in w.live ==> p.id != id))
    ensures Inv(w.(node := w.node.(rows := w.node.rows.Set(id, row))))
  {
    var rows := w.node.rows.Set(id, row);
    forall s | s in w.starts ensures Guards(rows.table, s, w.now) {
      assert Guards(w.node.rows.table, s, w.now);
    }
  }

  lemma {:induction false} LoadKeeps(w: World)
    requires Inv(w)
    ensures Inv(w.(node := Load(w.node.disk)))
    ensures forall id :: id in Load(w.node.disk).rows.table ==> !Load(w.node.disk).rows.table[id].status.Working?
  {
    var rows, disk := Load(w.node.disk).rows, w.node.disk;
    assert rows.order == disk.order;
    forall id ensures id in rows.order <==> id in rows.table {
    }
    forall s | s in w.starts ensures Guards(rows.table, s, w.now) {
      assert Guards(disk.table, s, w.now);
    }
  }

  // Nothing runs in a workspace where a launch may begin.
  lemma {:induction false} LaunchIsAlone(w: World, workspace: nat)
    requires Inv(w) && MayLaunch(w.node, workspace)
    ensures forall p :: p in w.live ==> p.workspace != workspace
  {
    forall p | p in w.live ensures p.workspace != workspace {
      if p.id in w.node.children {
        assert w.node.children[p.id].workspace != workspace;
      } else {
        assert w.node.rows.table[p.id].status.Interrupted?;
      }
    }
  }

  lemma {:induction false} ClaimKeeps(w: World, id: nat, now: int)
    requires Inv(w) && id in w.node.rows.table && MayLaunch(w.node, w.node.rows.table[id].workspace) && w.now <= now
    ensures Inv(w.(node := Begun(w.node, id, now), now := now))
    ensures Inv(w.(node := Claimed(w.node, id, now), now := now))
    ensures id !in w.node.children && forall p :: p in w.live ==> p.id != id
  {
    LaunchIsAlone(w, w.node.rows.table[id].workspace);
    RowKeeps(w, id, w.node.rows.table[id].(status := Working, updatedAt := now));
    TimeKeeps(w.(node := Begun(w.node, id, now)), now);
    SaveKeeps(w.(node := Begun(w.node, id, now), now := now), true);
  }

  function Spawning(w: World, o: Outcome, p: Process, now: int): (r: World) {
    w.(node := o.node, now := now, live := if o.spawned then w.live + {p} else w.live)
  }

  // The spawn itself: one more process, under a claim that is on disk.
  lemma {:induction false} SpawnKeeps(w: World, id: nat, workspace: nat)
    requires Inv(w) && id in w.node.rows.table && w.node.disk == w.node.rows && id !in w.node.children
    requires w.node.rows.table[id].status.Working? && w.node.rows.table[id].workspace == workspace
    requires |w.node.children| < MAX_CHILDREN && forall p :: p in w.live ==> p.workspace != workspace
    ensures Inv(w.(node := w.node.(children := w.node.children[id := Child(workspace, false)]),
                   live := w.live + {Process(id, workspace)}))
  {
  }

  lemma {:induction false} LaunchKeeps(w: World, id: nat, env: Env, now: int)
    requires Inv(w) && id in w.node.rows.table && w.now <= now
    ensures var o := Launch(w.node, id, env, now);
            && Inv(Spawning(w, o, Process(id, w.node.rows.table[id].workspace), now))
            && id in o.node.rows.table && (!o.answer.Accepted? ==> id !in o.node.children || o.node == w.node)
            && (o.spawned ==> o.node.disk == o.node.rows && o.node.rows.table[id].updatedAt == now)
            && (o.spawned <==> o.answer.Accepted?)
  {
    var n, workspace := w.node, w.node.rows.table[id].workspace;
    if !env.ready || !MayLaunch(n, workspace) {
      TimeKeeps(w, now);
    } else {
      ClaimKeeps(w, id, now);
      LaunchIsAlone(w, workspace);
      var claimed := w.(node := Claimed(n, id, now), now := now);
      if env.saves && env.spawns {
        SpawnKeeps(claimed, id, workspace);
      } else if env.saves {
        MarkKeeps(claimed, id, Failed);
        SaveKeeps(claimed.(node := Mark(claimed.node, id, Failed)), env.savesAfter);
      }
    }
  }

  lemma {:induction false} MarkKeeps(w: World, id: nat, status: Status)
    requires Inv(w) && id in w.node.rows.table
    requires id !in w.node.children && forall p :: p in w.live ==> p.id != id
    ensures Inv(w.(node := Mark(w.node, id, status)))
  {
    RowKeeps(w, id, w.node.rows.table[id].(status := status));
  }

  // ---- pruning and starting -----------------------------------------------------------------

  // Pruning never drops a row that may own a process, nor one younger than an approval.
  lemma {:induction false} PrunedDropsOld(n: Node, readings: seq<int>, i: nat, latest: int)
    requires Small(n.rows) && i <= |n.rows.order| == |readings|
    requires forall j :: 0 <= j < |readings| ==> readings[j] <= latest
    ensures var r := Pruned(n, readings, i);
            && Small(r)
            && (forall id :: id in r.table ==> id in n.rows.table && r.table[id] == n.rows.table[id])
            && (forall id :: id in n.rows.table && id !in r.table ==> Prunable(n, n.rows.table[id], id, latest))
  {
    if i > 0 {
      PrunedDropsOld(n, readings, i - 1, latest);
    }
  }

  lemma {:induction false} PruningKeeps(w: World, clock: Clock)
    requires Inv(w) && |clock.prune| == |w.node.rows.order| && Ordered(clock, w.now)
    ensures Inv(w.(node := AfterPruning(w.node, clock), now := clock.created))
  {
    var n, rows := w.node, AfterPruning(w.node, clock).rows;
    PrunedDropsOld(n, clock.prune, |n.rows.order|, clock.created);
    TimeKeeps(w, clock.created);
    forall s | s in w.starts ensures Guards(rows.table, s, clock.created) {
      assert Guards(n.rows.table, s, w.now);
    }
    forall p | p in w.live ensures Holds(rows.table, p) {
      assert Holds(n.rows.table, p);
    }
  }

  lemma {:induction false} WithRowKeeps(w: World, a: Approval)
    requires Inv(w) && a.id !in w.node.rows.table && |w.node.rows.order| < MAX_ROWS
    ensures Inv(w.(node := WithRow(w.node, a, w.now)))
    ensures forall p :: p in w.live ==> p.id != a.id
  {
    var rows := WithRow(w.node, a, w.now).rows;
    forall s | s in w.starts ensures Guards(rows.table, s, w.now) {
      assert Guards(w.node.rows.table, s, w.now);
    }
  }

  lemma {:induction false} AdmittedKeeps(w: World, a: Approval, prepared: bool, clock: Clock)
    requires Inv(w) && |clock.prune| == |w.node.rows.order| && Ordered(clock, w.now)
    requires Admits(w.node, a, prepared, clock)
    ensures Inv(w.(node := WithRow(AfterPruning(w.node, clock), a, clock.created), now := clock.created))
    ensures forall p :: p in w.live ==> p.id != a.id
    ensures a.id !in w.node.children
  {
    PruningKeeps(w, clock);
    PrunedDropsOld(w.node, clock.prune, |w.node.rows.order|, clock.created);
    WithRowKeeps(w.(node := AfterPruning(w.node, clock), now := clock.created), a);
  }

  lemma {:induction false} NewStart(w: World, a: Approval, clock: Clock)
    requires Inv(w) && Ordered(clock, w.now) && Fresh(a, clock) && a.id !in w.node.rows.table
    ensures SpawnedOnce(w.starts + [a])
  {
    forall s | s in w.starts ensures (s.id, s.preparedAt) != (a.id, a.preparedAt) {
      assert Guards(w.node.rows.table, s, w.now);
    }
  }

  lemma {:induction false} FailedStartKeeps(w: World, id: nat, saves: bool)
    requires Inv(w) && id in w.node.rows.table
    requires id !in w.node.children && forall p :: p in w.live ==> p.id != id
    ensures Inv(w.(node := Save(Mark(w.node, id, Failed), saves)))
  {
    MarkKeeps(w, id, Failed);
    SaveKeeps(w.(node := Mark(w.node, id, Failed)), saves);
  }

  lemma {:induction false} AdmittedStartKeeps(w: World, a: Approval, env: Env, savesLast: bool, clock: Clock)
    requires Inv(w) && Enabled(w, Started(a, true, env, savesLast, clock)) && Admits(w.node, a, true, clock)
    ensures Inv(Next(w, Started(a, true, env, savesLast, clock)))
  {
    AdmittedKeeps(w, a, true, clock);
    var added := w.(node := WithRow(AfterPruning(w.node, clock), a, clock.created), now := clock.created);
    var o := Launch(added.node, a.id, env, clock.launched);
    LaunchKeeps(added, a.id, env, clock.launched);
    if o.spawned {
      NewStart(w, a, clock);
      assert added.starts == w.starts;
    } else {
      FailedStartKeeps(added.(node := o.node, now := clock.launched), a.id, savesLast);
    }
  }

  lemma {:induction false} StartKeeps(w: World, a: Approval, prepared: bool, env: Env, savesLast: bool, clock: Clock)
    requires Inv(w) && Enabled(w, Started(a, prepared, env, savesLast, clock))
    ensures Inv(Next(w, Started(a, prepared, env, savesLast, clock)))
  {
    if Admits(w.node, a, prepared, clock) {
      AdmittedStartKeeps(w, a, env, savesLast, clock);
    } else if !Fresh(a, clock) || a.id in w.node.rows.table || !prepared {
      TimeKeeps(w, clock.launched);
    } else {
      PruningKeeps(w, clock);
      TimeKeeps(w.(node := AfterPruning(w.node, clock), now := clock.created), clock.launched);
    }
  }

  lemma {:induction false} ReplyKeeps(w: World, seen: Fingerprint, env: Env, at: int)
    requires Inv(w) && w.now <= at
    ensures Inv(Next(w, Replied(seen, env, at)))
  {
    if Resumable(w.node, seen) {
      LaunchKeeps(w, seen.id, env, at);
    } else {
      TimeKeeps(w, at);
    }
  }

  // Writing a row and saving, as RowKeeps allows.
  lemma {:induction false} WriteKeeps(w: World, id: nat, row: Row, saves: bool)
    requires Inv(w) && id in w.node.rows.table && row.workspace == w.node.rows.table[id].workspace
    requires row.updatedAt >= w.now && id !in w.node.children && forall p :: p in w.live ==> p.id != id
    ensures Inv(w.(node := Save(w.node.(rows := w.node.rows.Set(id, row)), saves)))
  {
    RowKeeps(w, id, row);
    SaveKeeps(w.(node := w.node.(rows := w.node.rows.Set(id, row))), saves);
  }

  lemma {:induction false} RemovedIsSmaller(children: map<nat, Child>, id: nat)
    ensures |children - {id}| <= |children|
  {
    if id in children {
      assert (children - {id}).Keys == children.Keys - {id};
    } else {
      assert children - {id} == children;
    }
  }

  lemma {:induction false} ExitLeavesOwned(w: World, id: nat)
    requires Inv(w) && id in w.node.rows.table
    ensures ChildrenOwn(Exited(w, id).node, Exited(w, id).live)
  {
    var e := Exited(w, id);
    RemovedIsSmaller(w.node.children, id);
    forall k | k in e.node.children
      ensures e.node.rows.table[k].status.Working? && Process(k, e.node.children[k].workspace) in e.live {
      assert k in w.node.children;
    }
  }

  lemma {:induction false} ExitLeavesHeld(w: World, id: nat)
    requires Inv(w) && id in w.node.rows.table
    ensures LiveHeld(Exited(w, id).node, Exited(w, id).live) && forall p :: p in Exited(w, id).live ==> p.id != id
  {
    var e := Exited(w, id);
    forall p | p in e.live
      ensures p.id != id && Holds(e.node.rows.table, p) && Holds(e.node.disk.table, p)
              && (p.id in e.node.children || e.node.rows.table[p.id].status.Interrupted?) {
      assert Holds(w.node.rows.table, p);
    }
  }

  lemma {:induction false} ExitKeeps(w: World, id: nat)
    requires Inv(w) && id in w.node.rows.table
    ensures Inv(Exited(w, id)) && forall p :: p in Exited(w, id).live ==> p.id != id
  {
    ExitLeavesOwned(w, id);
    ExitLeavesHeld(w, id);
  }

  lemma {:induction false} ExitedUnowned(w: World, id: nat)
    requires id in w.node.rows.table && id !in w.node.children
    ensures Exited(w, id) == w.(live := w.live - {Process(id, w.node.rows.table[id].workspace)})
  {
    assert w.node.children - {id} == w.node.children;
  }

  // The process of this row is known to have ended.
  function Exited(w: World, id: nat): (r: World)
    requires id in w.node.rows.table
  {
    w.(node := w.node.(children := w.node.children - {id}),
       live := w.live - {Process(id, w.node.rows.table[id].workspace)})
  }

  lemma {:induction false} CloseKeeps(w: World, id: nat, clean: bool, asks: bool, saves: bool, at: int)
    requires Inv(w) && Enabled(w, Closed(id, clean, asks, saves, at))
    ensures Inv(Next(w, Closed(id, clean, asks, saves, at)))
  {
    TimeKeeps(w, at);
    var late := w.(now := at);
    ExitKeeps(late, id);
    var status := if w.node.children[id].stopped || !clean then Failed else if asks then Waiting else Idle;
    WriteKeeps(Exited(late, id), id, w.node.rows.table[id].(status := status, updatedAt := at), saves);
    assert w.node.children[id].workspace == w.node.rows.table[id].workspace;
  }

  lemma {:induction false} ReleaseKeeps(w: World, id: nat, row: Row, saves: bool)
    requires Inv(w) && id in w.node.rows.table && row.workspace == w.node.rows.table[id].workspace
    requires row.updatedAt >= w.now && w.node.rows.table[id].status.Interrupted? && id !in w.node.children
    ensures Inv(w.(node := Save(w.node.(rows := w.node.rows.Set(id, row)), saves),
                   live := w.live - {Process(id, row.workspace)}))
  {
    ExitKeeps(w, id);
    ExitedUnowned(w, id);
    WriteKeeps(Exited(w, id), id, row, saves);
  }

  lemma {:induction false} ReconcileKeeps(w: World, id: nat, provider: Provider, confirmed: bool, saves: bool, at: int)
    requires Inv(w) && w.now <= at
    ensures Inv(Next(w, Reconciled(id, provider, confirmed, saves, at)))
  {
    TimeKeeps(w, at);
    if Reconciles(w.node, id, provider, confirmed) {
      var row := w.node.rows.table[id].(status := Failed, resumable := false, updatedAt := at);
      ReleaseKeeps(w.(now := at), id, row, saves);
      assert Next(w, Reconciled(id, provider, confirmed, saves, at))
          == w.(node := Save(w.node.(rows := w.node.rows.Set(id, row)), saves),
                live := w.live - {Process(id, row.workspace)}, now := at);
    } else {
      assert Next(w, Reconciled(id, provider, confirmed, saves, at)) == w.(now := at);
    }
  }

  lemma {:induction false} DeathKeeps(w: World, id: nat, now: int)
    requires Inv(w) && id in w.node.rows.table && MayLaunch(w.node, w.node.rows.table[id].workspace) && w.now <= now
    ensures Inv(w.(node := Load(Claimed(w.node, id, now).disk), now := now))
  {
    ClaimKeeps(w, id, now);
    LoadKeeps(w.(node := Claimed(w.node, id, now), now := now));
  }

  lemma {:induction false} StepKeeps(w: World, e: Event)
    requires Inv(w) && Enabled(w, e)
    ensures Inv(Next(w, e))
  {
    match e {
      case Started(a, prepared, env, savesLast, clock) => StartKeeps(w, a, prepared, env, savesLast, clock);
      case Replied(seen, env, at) => ReplyKeeps(w, seen, env, at);
      case Identified(id) => RowKeeps(w, id, w.node.rows.table[id].(resumable := true));
      case Stopped(id) =>
      case Closed(id, clean, asks, saves, at) => CloseKeeps(w, id, clean, asks, saves, at);
      case Reconciled(id, provider, confirmed, saves, at) => ReconcileKeeps(w, id, provider, confirmed, saves, at);
      case Restarted => LoadKeeps(w);
      case DiedInStart(a, clock) =>
        AdmittedKeeps(w, a, true, clock);
        var added := w.(node := WithRow(AfterPruning(w.node, clock), a, clock.created), now := clock.created);
        DeathKeeps(added, a.id, clock.launched);
      case DiedInReply(seen, at) => DeathKeeps(w, seen.id, at);
    }
  }

  lemma {:induction false} RunKeeps(w: World, events: seq<Event>, last: World)
    requires Inv(w) && Run(w, events, last)
    ensures Inv(last)
    decreases |events|
  {
    if events != [] {
      StepKeeps(w, events[0]);
      RunKeeps(Next(w, events[0]), events[1..], last);
    }
  }

  // ---- main results -------------------------------------------------------------------------

  // In every run with crashes and restarts: one process at most may be running in each workspace, its claim is on
  // disk, this program owns at most two, and no prepared start ever spawned twice, whether or not its row is
  // still there.
  lemma {:induction false} EveryRunIsSafe(w: World)
    requires Reachable(w)
    ensures forall p, q :: p in w.live && q in w.live && p.workspace == q.workspace ==> p == q
    ensures forall p :: p in w.live ==> Holds(w.node.disk.table, p)
    ensures |w.node.children| <= 2 && |w.node.rows.order| <= 100
    ensures SpawnedOnce(w.starts)
  {
    ReachableInv(w);
  }

  lemma {:induction false} ReachableInv(w: World)
    requires Reachable(w)
    ensures Inv(w)
  {
    var now, events :| Run(World(Node(NOTHING, map[], NOTHING), {}, [], now), events, w);
    RunKeeps(World(Node(NOTHING, map[], NOTHING), {}, [], now), events, w);
  }

  // Processes that an earlier process of this program left behind.
  function Orphans(w: World): (r: set<Process>) {
    set p | p in w.live && p.id !in w.node.children
  }

  ghost function Owned(w: World): (r: set<Process>) {
    set p | p in w.live && p.id in w.node.children
  }

  lemma {:induction false} OwnedCount(w: World)
    requires Inv(w)
    ensures |Owned(w)| == |w.node.children|
  {
    var children := w.node.children;
    forall p | p in Owned(w) ensures p == Process(p.id, children[p.id].workspace) {
      assert Holds(w.node.rows.table, p);
    }
    forall i | i in children.Keys ensures exists p :: p in Owned(w) && p.id == i {
      assert Process(i, children[i].workspace) in Owned(w);
    }
    OneEach(Owned(w), children.Keys);
  }

  lemma {:induction false} LiveAreOwnedOrOrphans(w: World)
    requires Inv(w)
    ensures |w.live| == |w.node.children| + |Orphans(w)|
  {
    OwnedCount(w);
    assert w.live == Owned(w) + Orphans(w);
  }

  lemma {:induction false} NoOrphans(w: World)
    requires Inv(w) && forall id :: id in w.node.rows.table ==> !w.node.rows.table[id].status.Interrupted?
    ensures |w.live| <= 2
  {
    LiveAreOwnedOrOrphans(w);
    forall p | p in w.live ensures p !in Orphans(w) {
      assert Holds(w.node.rows.table, p);
    }
    assert Orphans(w) == {};
  }

  lemma {:induction false} OneEach(owned: set<Process>, ids: set<nat>)
    requires forall p, q :: p in owned && q in owned && p.id == q.id ==> p == q
    requires forall p :: p in owned ==> p.id in ids
    requires forall i :: i in ids ==> exists p :: p in owned && p.id == i
    ensures |owned| == |ids|
  {
    if owned != {} {
      var p :| p in owned;
      forall i | i in ids - {p.id} ensures exists q :: q in owned - {p} && q.id == i {
        var q :| q in owned && q.id == i;
        assert q in owned - {p};
      }
      OneEach(owned - {p}, ids - {p.id});
    } else {
      assert ids == {};
    }
  }

  // ---- what an interrupted row stands for ---------------------------------------------------

  // An interrupted row is a claim in the file as well, and nobody launches beside it.
  ghost predicate Claims(n: Node) {
    && (forall id :: id in n.rows.table && n.rows.table[id].status.Interrupted? ==>
          Holds(n.disk.table, Process(id, n.rows.table[id].workspace)))
    && forall id, k :: id in n.rows.table && n.rows.table[id].status.Interrupted? && k in n.children ==>
         n.children[k].workspace != n.rows.table[id].workspace
  }

  lemma {:induction false} ClaimsSaved(n: Node, works: bool)
    requires Claims(n)
    ensures Claims(Save(n, works))
  {
  }

  lemma {:induction false} ClaimsWritten(n: Node, id: nat, row: Row)
    requires Claims(n) && !row.status.Interrupted?
    ensures Claims(n.(rows := n.rows.Set(id, row)))
  {
  }

  lemma {:induction false} ClaimsSpawned(n: Node, id: nat, workspace: nat)
    requires Claims(n) && !SomeInterrupted(n.rows, workspace)
    ensures Claims(n.(children := n.children[id := Child(workspace, false)]))
  {
  }

  lemma {:induction false} ClaimsLaunch(n: Node, id: nat, env: Env, now: int)
    requires Claims(n) && id in n.rows.table
    ensures Claims(Launch(n, id, env, now).node)
  {
    var workspace := n.rows.table[id].workspace;
    if env.ready && MayLaunch(n, workspace) {
      var begun := Begun(n, id, now);
      ClaimsWritten(n, id, begun.rows.table[id]);
      ClaimsSaved(begun, true);
      var claimed := Claimed(n, id, now);
      assert claimed.rows == begun.rows;
      if env.saves && env.spawns {
        ClaimsSpawned(claimed, id, workspace);
      } else if env.saves {
        ClaimsWritten(claimed, id, claimed.rows.table[id].(status := Failed));
        ClaimsSaved(Mark(claimed, id, Failed), env.savesAfter);
      }
    }
  }

  lemma {:induction false} ClaimsPruned(n: Node, clock: Clock, latest: int)
    requires Claims(n) && Small(n.rows) && |clock.prune| == |n.rows.order|
    requires forall j :: 0 <= j < |clock.prune| ==> clock.prune[j] <= latest
    ensures Claims(AfterPruning(n, clock))
  {
    PrunedDropsOld(n, clock.prune, |n.rows.order|, latest);
  }

  lemma {:induction false} ClaimsStart(n: Node, a: Approval, prepared: bool, env: Env, savesLast: bool, clock: Clock,
                                       since: int)
    requires Claims(n) && Small(n.rows) && |clock.prune| == |n.rows.order| && Ordered(clock, since)
    ensures Claims(Start(n, a, prepared, env, savesLast, clock).node)
  {
    ClaimsPruned(n, clock, clock.created);
    if Admits(n, a, prepared, clock) {
      var added := WithRow(AfterPruning(n, clock), a, clock.created);
      ClaimsWritten(AfterPruning(n, clock), a.id, added.rows.table[a.id]);
      ClaimsLaunch(added, a.id, env, clock.launched);
      var o := Launch(added, a.id, env, clock.launched);
      if !o.answer.Accepted? {
        ClaimsWritten(o.node, a.id, o.node.rows.table[a.id].(status := Failed));
        ClaimsSaved(Mark(o.node, a.id, Failed), savesLast);
      }
    }
  }

  lemma {:induction false} ClaimsClosed(n: Node, id: nat, clean: bool, asks: bool, saves: bool, now: int)
    requires Claims(n) && id in n.rows.table && id in n.children
    ensures Claims(Close(n, id, clean, asks, saves, now))
  {
    var status := if n.children[id].stopped || !clean then Failed else if asks then Waiting else Idle;
    var row := n.rows.table[id].(status := status, updatedAt := now);
    ClaimsWritten(n, id, row);
    var freed := n.(rows := n.rows.Set(id, row), children := n.children - {id});
    assert Claims(freed);
    ClaimsSaved(freed, saves);
  }

  lemma {:induction false} ClaimsReconciled(n: Node, id: nat, provider: Provider, confirmed: bool, saves: bool, now: int)
    requires Claims(n)
    ensures Claims(Reconcile(n, id, provider, confirmed, saves, now))
  {
    if Reconciles(n, id, provider, confirmed) {
      var row := n.rows.table[id].(status := Failed, resumable := false, updatedAt := now);
      ClaimsWritten(n, id, row);
      ClaimsSaved(n.(rows := n.rows.Set(id, row)), saves);
    }
  }

  lemma {:induction false} ClaimsLoaded(disk: Rows)
    ensures Claims(Load(disk))
  {
  }

  lemma {:induction false} StepClaims(w: World, e: Event)
    requires Inv(w) && Claims(w.node) && Enabled(w, e)
    ensures Claims(Next(w, e).node)
  {
    match e {
      case Started(a, prepared, env, savesLast, clock) =>
        ClaimsStart(w.node, a, prepared, env, savesLast, clock, w.now);
      case Replied(seen, env, at) =>
        if Resumable(w.node, seen) {
          ClaimsLaunch(w.node, seen.id, env, at);
        }
      case Identified(id) => ClaimsIdentified(w, id);
      case Stopped(id) => ClaimsStopped(w.node, id);
      case Closed(id, clean, asks, saves, at) => ClaimsClosed(w.node, id, clean, asks, saves, at);
      case Reconciled(id, provider, confirmed, saves, at) => ClaimsReconciled(w.node, id, provider, confirmed, saves, at);
      case Restarted => ClaimsLoaded(w.node.disk);
      case DiedInStart(a, clock) =>
        var added := WithRow(AfterPruning(w.node, clock), a, clock.created);
        ClaimsLoaded(Claimed(added, a.id, clock.launched).disk);
      case DiedInReply(seen, at) => ClaimsLoaded(Claimed(w.node, seen.id, at).disk);
    }
  }

  lemma {:induction false} ClaimsIdentified(w: World, id: nat)
    requires Inv(w) && Claims(w.node) && id in w.node.rows.table && id in w.node.children
    ensures Claims(Identify(w.node, id))
  {
    ClaimsWritten(w.node, id, w.node.rows.table[id].(resumable := true));
  }

  lemma {:induction false} ClaimsStopped(n: Node, id: nat)
    requires Claims(n)
    ensures Claims(Stop(n, id))
  {
  }

  lemma {:induction false} RunClaims(w: World, events: seq<Event>, last: World)
    requires Inv(w) && Claims(w.node) && Run(w, events, last)
    ensures Claims(last.node)
    decreases |events|
  {
    if events != [] {
      StepKeeps(w, events[0]);
      StepClaims(w, events[0]);
      RunClaims(Next(w, events[0]), events[1..], last);
    }
  }

  lemma {:induction false} ReachableClaims(w: World)
    requires Reachable(w)
    ensures Claims(w.node)
  {
    var now, events :| Run(World(Node(NOTHING, map[], NOTHING), {}, [], now), events, w);
    RunClaims(World(Node(NOTHING, map[], NOTHING), {}, [], now), events, w);
  }

  // The workspaces an interrupted row blocks.
  ghost function Blocked(n: Node): (r: set<nat>) {
    set id | id in n.rows.table && n.rows.table[id].status.Interrupted? :: n.rows.table[id].workspace
  }

  lemma {:induction false} OneWorkspaceEach(ps: set<Process>, workspaces: set<nat>)
    requires forall p, q :: p in ps && q in ps && p.workspace == q.workspace ==> p == q
    requires forall p :: p in ps ==> p.workspace in workspaces
    ensures |ps| <= |workspaces|
  {
    if ps != {} {
      var p :| p in ps;
      OneWorkspaceEach(ps - {p}, workspaces - {p.workspace});
    }
  }

  // What the rows and children show bounds what may be running.
  lemma {:induction false} AtMostOwnedAndBlocked(w: World)
    requires Inv(w)
    ensures |w.live| <= |w.node.children| + |Blocked(w.node)|
  {
    LiveAreOwnedOrOrphans(w);
    forall p | p in Orphans(w) ensures p.workspace in Blocked(w.node) {
      assert Holds(w.node.rows.table, p);
    }
    OneWorkspaceEach(Orphans(w), Blocked(w.node));
  }

  // An interrupted row of a blocked workspace.
  ghost function RowBlocking(n: Node, workspace: nat): (id: nat)
    requires workspace in Blocked(n)
    ensures id in n.rows.table && n.rows.table[id].status.Interrupted? && n.rows.table[id].workspace == workspace
  {
    var id :| id in n.rows.table && n.rows.table[id].status.Interrupted? && n.rows.table[id].workspace == workspace;
    id
  }

  // One process for each blocked workspace.
  ghost function Left(n: Node): (r: set<Process>) {
    set s | s in Blocked(n) :: Process(RowBlocking(n, s), s)
  }

  lemma {:induction false} LeftCount(n: Node, workspaces: set<nat>)
    requires workspaces <= Blocked(n)
    ensures |set s | s in workspaces :: Process(RowBlocking(n, s), s)| == |workspaces|
  {
    if workspaces != {} {
      var x :| x in workspaces;
      LeftCount(n, workspaces - {x});
      var all, rest := set s | s in workspaces :: Process(RowBlocking(n, s), s),
                       set s | s in workspaces - {x} :: Process(RowBlocking(n, s), s);
      assert all == rest + {Process(RowBlocking(n, x), x)};
    }
  }

  // And nothing the supervisor knows excludes that as many are running.
  lemma {:induction false} AsManyMayRun(w: World) returns (v: World)
    requires Inv(w) && Claims(w.node)
    ensures v == w.(live := v.live) && Inv(v)
    ensures |v.live| == |w.node.children| + |Blocked(w.node)|
  {
    var owned, left := Owned(w), Left(w.node);
    v := w.(live := owned + left);
    forall p | p in owned ensures Holds(w.node.rows.table, p) && p.workspace == w.node.children[p.id].workspace {
    }
    LeftCount(w.node, Blocked(w.node));
    OwnedCount(w);
    assert owned !! left;
    MostLiveHolds(w, v);
  }

  lemma {:induction false} MostLiveHolds(w: World, v: World)
    requires Inv(w) && Claims(w.node) && v == w.(live := Owned(w) + Left(w.node))
    ensures Inv(v)
  {
    forall p | p in v.live
      ensures Holds(v.node.rows.table, p) && Holds(v.node.disk.table, p)
              && (p.id in v.node.children || v.node.rows.table[p.id].status.Interrupted?) {
      if p in Owned(w) {
        assert Holds(w.node.rows.table, p);
      }
    }
    forall p, q | p in v.live && q in v.live && p.workspace == q.workspace ensures p == q {
      if p in Owned(w) {
        assert Holds(w.node.rows.table, p);
      }
      if q in Owned(w) {
        assert Holds(w.node.rows.table, q);
      }
    }
  }

  lemma {:induction false} StartedAddsOne(w: World, a: Approval, prepared: bool, env: Env, savesLast: bool, clock: Clock)
    requires Inv(w) && Enabled(w, Started(a, prepared, env, savesLast, clock))
    requires Start(w.node, a, prepared, env, savesLast, clock).spawned
    ensures |Next(w, Started(a, prepared, env, savesLast, clock)).live| == |w.live| + 1
  {
    assert Admits(w.node, a, prepared, clock);
    AdmittedKeeps(w, a, prepared, clock);
    assert Process(a.id, a.workspace) !in w.live;
  }

  lemma {:induction false} RepliedAddsOne(w: World, seen: Fingerprint, env: Env, at: int)
    requires Inv(w) && w.now <= at && Reply(w.node, seen, env, at).spawned
    ensures |Next(w, Replied(seen, env, at)).live| == |w.live| + 1
  {
    assert Resumable(w.node, seen) && MayLaunch(w.node, seen.workspace);
    LaunchIsAlone(w, seen.workspace);
    assert Process(seen.id, seen.workspace) !in w.live;
  }

  // A spawn adds a process that was not there.
  lemma {:induction false} SpawnAddsOne(w: World, e: Event)
    requires Inv(w) && Enabled(w, e) && Spawns(w.node, e)
    ensures |Next(w, e).live| == |w.live| + 1
  {
    match e {
      case Started(a, prepared, env, savesLast, clock) => StartedAddsOne(w, a, prepared, env, savesLast, clock);
      case Replied(seen, env, at) => RepliedAddsOne(w, seen, env, at);
    }
  }

  ghost predicate Spawns(n: Node, e: Event) {
    match e
    case Started(a, prepared, env, savesLast, clock) =>
      n.rows.Valid() && |clock.prune| == |n.rows.order| && Start(n, a, prepared, env, savesLast, clock).spawned
    case Replied(seen, env, at) => Reply(n, seen, env, at).spawned
    case _ => false
  }

  // A spawn is certain to leave at most two running exactly when the owned sessions and the workspaces blocked by an
  // interrupted row are fewer than two together; the launch itself counts only the owned ones.
  lemma {:induction false} SpawnKeepsTwoIff(w: World, e: Event)
    requires Inv(w) && Claims(w.node) && Enabled(w, e) && Spawns(w.node, e)
    ensures (forall v :: Inv(v) && v == w.(live := v.live) ==> Enabled(v, e) && |Next(v, e).live| <= 2)
        <==> |w.node.children| + |Blocked(w.node)| < 2
  {
    forall v | Inv(v) && v == w.(live := v.live)
      ensures Enabled(v, e) && |Next(v, e).live| <= |w.node.children| + |Blocked(w.node)| + 1 {
      AtMostOwnedAndBlocked(v);
      SpawnAddsOne(v, e);
    }
    var most := AsManyMayRun(w);
    SpawnAddsOne(most, e);
    assert Inv(most) && most == w.(live := most.live);
  }

  lemma {:induction false} PrunedNone(n: Node, readings: seq<int>, i: nat)
    requires n.rows.Valid() && i <= |n.rows.order| == |readings| && |n.rows.order| < MAX_ROWS
    ensures Pruned(n, readings, i) == n.rows
  {
    if i > 0 {
      PrunedNone(n, readings, i - 1);
    }
  }

  function WithWorking(n: Node, a: Approval, now: int): (r: Rows) {
    InsertionMap(n.rows.order + [a.id],
                 n.rows.table[a.id := Row(a.provider, a.workspace, a.instruction, Working, false, now)])
  }

  // A launch of a row just added, with nothing in its way.
  lemma {:induction false} LaunchFresh(n: Node, a: Approval, now: int)
    requires a.id !in n.rows.table && MayLaunch(n, a.workspace)
    ensures Launch(WithRow(n, a, now), a.id, Env(true, true, true, true), now)
         == Outcome(Node(WithWorking(n, a, now), n.children[a.id := Child(a.workspace, false)], WithWorking(n, a, now)),
                    true, Accepted)
  {
    var added, row := WithRow(n, a, now), Row(a.provider, a.workspace, a.instruction, Working, false, now);
    assert MayLaunch(added, a.workspace);
    assert added.rows.table[a.id := row] == n.rows.table[a.id := row];
  }

  lemma {:induction false} SpawnFresh(w: World, id: nat, workspace: nat) returns (e: Event)
    requires w.node.rows.Valid() && |w.node.rows.order| < MAX_ROWS && id !in w.node.rows.table
    requires MayLaunch(w.node, workspace)
    ensures Enabled(w, e)
    ensures var rows := InsertionMap(w.node.rows.order + [id],
                                     w.node.rows.table[id := Row(Codex, workspace, 0, Working, false, w.now)]);
            && Next(w, e).live == w.live + {Process(id, workspace)}
            && Next(w, e).node == Node(rows, w.node.children[id := Child(workspace, false)], rows)
  {
    var a, n := Approval(id, Codex, workspace, 0, w.now), w.node;
    var clock := Clock(w.now, w.now, seq(|n.rows.order|, i => w.now), w.now, w.now);
    e := Started(a, true, Env(true, true, true, true), true, clock);
    PrunedNone(n, clock.prune, |n.rows.order|);
    assert AfterPruning(n, clock) == n;
    LaunchFresh(n, a, w.now);
  }

  lemma {:induction false} RunThen(w: World, events: seq<Event>, last: World, e: Event)
    requires Run(w, events, last) && Enabled(last, e)
    ensures Run(w, events + [e], Next(last, e))
    decreases |events|
  {
    if events == [] {
      assert [e][1..] == [];
      assert Run(Next(w, e), [], Next(w, e));
    } else {
      RunThen(Next(w, events[0]), events[1..], last, e);
      assert (events + [e])[1..] == events[1..] + [e];
    }
  }

  lemma {:induction false} ReachableThen(w: World, e: Event)
    requires Reachable(w) && Enabled(w, e)
    ensures Reachable(Next(w, e))
  {
    var now, events :| Run(World(Node(NOTHING, map[], NOTHING), {}, [], now), events, w);
    RunThen(World(Node(NOTHING, map[], NOTHING), {}, [], now), events, w, e);
  }

  lemma {:induction false} SpawnReachable(w: World, id: nat, workspace: nat) returns (r: World)
    requires Reachable(w) && w.node.rows.Valid() && |w.node.rows.order| < MAX_ROWS && id !in w.node.rows.table
    requires MayLaunch(w.node, workspace)
    ensures Reachable(r) && r.live == w.live + {Process(id, workspace)}
    ensures var rows := InsertionMap(w.node.rows.order + [id],
                                     w.node.rows.table[id := Row(Codex, workspace, 0, Working, false, w.now)]);
            r.node == Node(rows, w.node.children[id := Child(workspace, false)], rows)
  {
    var e := SpawnFresh(w, id, workspace);
    ReachableThen(w, e);
    r := Next(w, e);
  }

  lemma {:induction false} TwoSpawned() returns (w: World)
    ensures Reachable(w) && w.live == {Process(0, 0), Process(1, 1)} && w.node.disk.order == [0, 1]
    ensures var t := w.node.disk.table; 0 in t && 1 in t && t[0].workspace == 0 && t[1].workspace == 1
  {
    var empty := World(Node(NOTHING, map[], NOTHING), {}, [], 0);
    assert Run(empty, [], empty);
    var one := SpawnReachable(empty, 0, 0);
    w := SpawnReachable(one, 1, 1);
  }

  lemma {:induction false} TwoThenRestart() returns (w: World)
    ensures Reachable(w) && w.live == {Process(0, 0), Process(1, 1)} && w.node.children == map[]
    ensures Inv(w) && w.node.rows.order == [0, 1]
    ensures w.node.rows.table[0].workspace == 0 && w.node.rows.table[1].workspace == 1
  {
    var two := TwoSpawned();
    ReachableInv(two);
    LoadKeeps(two);
    ReachableThen(two, Restarted);
    w := Next(two, Restarted);
  }

  // Two sessions started, a restart, and a third started: three processes may be running.
  lemma {:induction false} ThreeAfterRestart() returns (w: World)
    ensures Reachable(w) && |w.live| == 3 && |w.node.children| == 1
  {
    var two := TwoThenRestart();
    w := SpawnReachable(two, 2, 2);
    assert w.live == {Process(0, 0), Process(1, 1), Process(2, 2)};
  }

  // ---- what each operation answers and records ----------------------------------------------

  // A launch goes ahead: everything is in order, no row of the workspace is interrupted, fewer than two sessions are
  // owned, and none of them in the workspace.
  ghost predicate Clear(n: Node, workspace: nat, env: Env) {
    && env.ready && |n.children| < 2
    && (forall id :: id in n.rows.table && n.rows.table[id].workspace == workspace ==> n.rows.table[id].status != Interrupted)
    && forall id :: id in n.children ==> n.children[id].workspace != workspace
  }

  // A launch that goes ahead claims its row, and the process is owned if it was saved and spawned; else the launch is
  // refused, and a row whose spawn failed says so.
  lemma {:induction false} LaunchOutcome(n: Node, id: nat, env: Env, now: int)
    requires id in n.rows.table
    ensures var o, row := Launch(n, id, env, now), n.rows.table[id];
            && (o.spawned <==> Clear(n, row.workspace, env) && env.saves && env.spawns)
            && o.answer == (if o.spawned then Accepted else Refused)
            && o.node.rows.order == n.rows.order
            && o.node.rows.table == (if !Clear(n, row.workspace, env) then n.rows.table
                                     else n.rows.table[id := row.(status := if env.saves && !env.spawns then Failed else Working,
                                                                   updatedAt := now)])
            && o.node.children == (if o.spawned then n.children[id := Child(row.workspace, false)] else n.children)
            && (o.spawned ==> o.node.disk == o.node.rows)
            && (!Clear(n, row.workspace, env) || !env.saves ==> o.node.disk == n.disk)
            && (Clear(n, row.workspace, env) && env.saves && !env.spawns && env.savesAfter ==> o.node.disk == o.node.rows)
  {
  }

  // A start is answered by what is known of its identity: the same instruction was already started, another one is
  // refused; a new one needs an approval in its ten minutes, and room.
  lemma {:induction false} StartAnswers(n: Node, a: Approval, prepared: bool, env: Env, savesLast: bool, clock: Clock)
    requires n.rows.Valid() && |clock.prune| == |n.rows.order|
    ensures var o, timely := Start(n, a, prepared, env, savesLast, clock),
                             clock.age <= a.preparedAt + 10 * 60 * 1000 && a.preparedAt <= clock.future;
            && (o.answer.AlreadyStarted? <==>
                  && timely && a.id in n.rows.table && n.rows.table[a.id].provider == a.provider
                  && n.rows.table[a.id].workspace == a.workspace && n.rows.table[a.id].instruction == a.instruction)
            && (o.answer.Accepted? <==> o.spawned)
            && (o.spawned ==> timely && a.id !in n.rows.table && prepared && |AfterPruning(n, clock).rows.order| < 100)
            && (a.id in n.rows.table || !timely || !prepared ==> o.node == n)
            && (a.id !in n.rows.table && timely && prepared && |AfterPruning(n, clock).rows.order| >= 100 ==>
                  o.node == AfterPruning(n, clock))
  {
    if Admits(n, a, prepared, clock) {
      LaunchOutcome(WithRow(AfterPruning(n, clock), a, clock.created), a.id, env, clock.launched);
    }
  }

  // A start with room runs exactly if its launch goes ahead.
  lemma {:induction false} StartedRuns(n: Node, a: Approval, env: Env, savesLast: bool, clock: Clock)
    requires n.rows.Valid() && |clock.prune| == |n.rows.order| && Admits(n, a, true, clock)
    ensures var o := Start(n, a, true, env, savesLast, clock);
            && (o.spawned <==>
                  Clear(WithRow(AfterPruning(n, clock), a, clock.created), a.workspace, env) && env.saves && env.spawns)
            && o.node.children == (if o.spawned then n.children[a.id := Child(a.workspace, false)] else n.children)
            && (o.spawned || savesLast ==> o.node.disk == o.node.rows)
  {
    LaunchOutcome(WithRow(AfterPruning(n, clock), a, clock.created), a.id, env, clock.launched);
  }

  // o has one row more than n: the one that was approved.
  ghost predicate AddsRow(n: Rows, r: Rows, a: Approval) {
    && r.order == n.order + [a.id] && r.table.Keys == n.table.Keys + {a.id}
    && (forall id :: id in n.table ==> r.table[id] == n.table[id])
    && r.table[a.id].provider == a.provider && r.table[a.id].workspace == a.workspace
    && r.table[a.id].instruction == a.instruction && !r.table[a.id].resumable
  }

  // Its row then says working, and otherwise it is there and says failed. Nothing else changes but by the pruning.
  lemma {:induction false} StartedRow(n: Node, a: Approval, env: Env, savesLast: bool, clock: Clock)
    requires n.rows.Valid() && |clock.prune| == |n.rows.order| && Admits(n, a, true, clock)
    ensures var o := Start(n, a, true, env, savesLast, clock);
            && AddsRow(AfterPruning(n, clock).rows, o.node.rows, a)
            && o.node.rows.table[a.id].status == (if o.spawned then Working else Failed)
            && (o.spawned ==> o.node.rows.table[a.id].updatedAt == clock.launched)
  {
    var pruned := AfterPruning(n, clock);
    var o := Launch(WithRow(pruned, a, clock.created), a.id, env, clock.launched);
    PrunedHolds(n, clock.prune, |n.rows.order|);
    LaunchedRow(pruned, a, env, clock.created, clock.launched);
    StartIsLaunch(n, a, env, savesLast, clock);
    if !o.spawned {
      FailedRow(o.node, a.id, savesLast);
      FailedAddsRow(pruned.rows, o.node.rows, Mark(o.node, a.id, Failed).rows, a);
    }
  }

  lemma {:induction false} FailedAddsRow(n: Rows, r: Rows, f: Rows, a: Approval)
    requires AddsRow(n, r, a) && a.id !in n.table
    requires f.order == r.order && f.table == r.table[a.id := r.table[a.id].(status := Failed)]
    ensures AddsRow(n, f, a)
  {
  }

  lemma {:induction false} StartIsLaunch(n: Node, a: Approval, env: Env, savesLast: bool, clock: Clock)
    requires n.rows.Valid() && |clock.prune| == |n.rows.order| && Admits(n, a, true, clock)
    ensures var o := Launch(WithRow(AfterPruning(n, clock), a, clock.created), a.id, env, clock.launched);
            Start(n, a, true, env, savesLast, clock)
            == if o.answer.Accepted? then o else Outcome(Save(Mark(o.node, a.id, Failed), savesLast), false, Refused)
  {
  }

  lemma {:induction false} LaunchedRow(n: Node, a: Approval, env: Env, created: int, launched: int)
    requires a.id !in n.rows.table
    ensures var o := Launch(WithRow(n, a, created), a.id, env, launched);
            && AddsRow(n.rows, o.node.rows, a) && (o.spawned <==> o.answer.Accepted?)
            && (o.spawned ==> o.node.rows.table[a.id].status == Working && o.node.rows.table[a.id].updatedAt == launched)
  {
    var added := WithRow(n, a, created);
    LaunchOutcome(added, a.id, env, launched);
    AddedAddsRow(n.rows, added.rows, Launch(added, a.id, env, launched).node.rows, a, created);
  }

  lemma {:induction false} AddedAddsRow(n: Rows, added: Rows, r: Rows, a: Approval, created: int)
    requires a.id !in n.table && added.order == n.order + [a.id] && r.order == added.order
    requires added.table == n.table[a.id := Row(a.provider, a.workspace, a.instruction, Idle, false, created)]
    requires r.table == added.table || exists status, at :: r.table == added.table[a.id := added.table[a.id].(status := status, updatedAt := at)]
    ensures AddsRow(n, r, a)
  {
  }

  lemma {:induction false} FailedRow(n: Node, id: nat, saves: bool)
    requires id in n.rows.table
    ensures var o := Save(Mark(n, id, Failed), saves);
            && o.rows.order == n.rows.order && o.rows.table == n.rows.table[id := n.rows.table[id].(status := Failed)]
            && o.children == n.children && (saves ==> o.disk == o.rows)
  {
  }

  // A reply runs exactly for a session of that provider and workspace that has named itself and is not interrupted,
  // and if its launch goes ahead.
  lemma {:induction false} ReplyAnswers(n: Node, seen: Fingerprint, env: Env, now: int)
    ensures var o := Reply(n, seen, env, now);
            && (o.spawned <==>
                  && seen.id in n.rows.table && n.rows.table[seen.id].provider == seen.provider
                  && n.rows.table[seen.id].workspace == seen.workspace && n.rows.table[seen.id].resumable
                  && n.rows.table[seen.id].status != Interrupted
                  && Clear(n, seen.workspace, env) && env.saves && env.spawns)
            && o.answer == (if o.spawned then Accepted else Refused)
            && (!Resumable(n, seen) ==> o.node == n)
  {
    if Resumable(n, seen) {
      LaunchOutcome(n, seen.id, env, now);
    }
  }

  // When an owned process closes, its row says how: failed if it was stopped or did not finish well, waiting if it asks
  // for something, idle otherwise. It is owned no longer, and no other row changes.
  lemma {:induction false} ClosedRow(n: Node, id: nat, clean: bool, asks: bool, saves: bool, now: int)
    requires id in n.rows.table && id in n.children
    ensures var c, was := Close(n, id, clean, asks, saves, now), n.rows.table[id];
            && c.rows.table.Keys == n.rows.table.Keys && c.rows.order == n.rows.order
            && (forall k :: k in n.rows.table && k != id ==> c.rows.table[k] == n.rows.table[k])
            && c.rows.table[id] == Row(was.provider, was.workspace, was.instruction, c.rows.table[id].status, was.resumable, now)
            && (c.rows.table[id].status == Failed <==> n.children[id].stopped || !clean)
            && (c.rows.table[id].status == Waiting <==> !n.children[id].stopped && clean && asks)
            && (c.rows.table[id].status == Idle <==> !n.children[id].stopped && clean && !asks)
            && c.children == n.children - {id} && c.disk == (if saves then c.rows else n.disk)
  {
  }

  // An owned process is marked as stopped exactly from the owner's word on; and ownership ends with its close event or
  // with this program.
  lemma {:induction false} StoppedIff(w: World, e: Event, id: nat)
    requires Enabled(w, e) && id in Next(w, e).node.children
    ensures Next(w, e).node.children[id].stopped <==>
              && id in w.node.children && (w.node.children[id].stopped || e == Stopped(id)) && !Spawned(w, e, id)
    ensures id in w.node.children || Spawned(w, e, id)
  {
    match e {
      case Started(a, prepared, env, savesLast, clock) =>
        if Admits(w.node, a, prepared, clock) {
          StartedRuns(w.node, a, env, savesLast, clock);
        }
      case Replied(seen, env, at) =>
        if Resumable(w.node, seen) {
          LaunchOutcome(w.node, seen.id, env, at);
        }
      case _ =>
    }
  }

  ghost predicate Spawned(w: World, e: Event, id: nat) {
    match e
    case Started(a, prepared, env, savesLast, clock) => a.id == id && Spawns(w.node, e)
    case Replied(seen, env, at) => seen.id == id && Spawns(w.node, e)
    case _ => false
  }

  lemma {:induction false} OwnedUntilClosed(w: World, e: Event, id: nat)
    requires Enabled(w, e) && id in w.node.children
    requires !e.Closed? && !e.Restarted? && !e.DiedInStart? && !e.DiedInReply?
    ensures id in Next(w, e).node.children
    ensures Spawned(w, e, id) || Next(w, e).node.children[id].workspace == w.node.children[id].workspace
  {
    match e {
      case Started(a, prepared, env, savesLast, clock) =>
        if Admits(w.node, a, prepared, clock) {
          StartedRuns(w.node, a, env, savesLast, clock);
        }
      case Replied(seen, env, at) =>
        if Resumable(w.node, seen) {
          LaunchOutcome(w.node, seen.id, env, at);
        }
      case _ =>
    }
  }

  // Only the owner's word about an interrupted and unowned row of that provider changes anything: it has failed and
  // cannot be resumed.
  lemma {:induction false} ReconciledRow(n: Node, id: nat, provider: Provider, confirmed: bool, saves: bool, now: int)
    ensures var r := Reconcile(n, id, provider, confirmed, saves, now);
            if id in n.rows.table && n.rows.table[id].provider == provider && confirmed
               && n.rows.table[id].status == Interrupted && id !in n.children
            then
              && r.rows.order == n.rows.order && r.children == n.children && r.disk == (if saves then r.rows else n.disk)
              && r.rows.table == n.rows.table[id := n.rows.table[id].(status := Failed, resumable := false, updatedAt := now)]
            else r == n
  {
  }

  // A new process has the last hundred rows of the file; what was working is interrupted, and all else is as it was.
  lemma {:induction false} LoadedRows(disk: Rows)
    requires disk.Valid()
    ensures var n := Load(disk);
            && n.children == map[] && n.disk == disk
            && n.rows.order == disk.order[if |disk.order| > 100 then |disk.order| - 100 else 0..]
            && (forall id :: id in n.rows.table <==> id in n.rows.order)
            && forall id :: id in n.rows.table ==>
                 && id in disk.table
                 && n.rows.table[id] == if disk.table[id].status == Working then disk.table[id].(status := Interrupted)
                                        else disk.table[id]
  {
    var order := Load(disk).rows.order;
    forall id | id in order ensures id in disk.table {
      assert id in disk.order;
    }
  }

  // ---- the supervisor -----------------------------------------------------------------------

  lemma {:induction false} PrunedStops(n: Node, readings: seq<int>, i: nat, j: nat)
    requires n.rows.Valid() && i <= j <= |n.rows.order| == |readings|
    requires |Pruned(n, readings, i).order| < MAX_ROWS
    ensures Pruned(n, readings, j) == Pruned(n, readings, i)
  {
    if i < j {
      PrunedStops(n, readings, i, j - 1);
    }
  }

  lemma {:induction false} PrunedNext(n: Node, readings: seq<int>, i: nat)
    requires n.rows.Valid() && i < |n.rows.order| == |readings|
    ensures var rows, id := Pruned(n, readings, i), n.rows.order[i];
            && id in n.rows.table
            && Pruned(n, readings, i + 1)
               == if |rows.order| >= MAX_ROWS && Prunable(n, n.rows.table[id], id, readings[i]) then rows.Delete(id) else rows
  {
    assert n.rows.order[i] in n.rows.order;
  }

  // The rows still to be considered are all there, and those left are as they were.
  lemma {:induction false} PrunedHolds(n: Node, readings: seq<int>, i: nat)
    requires n.rows.Valid() && i <= |n.rows.order| == |readings|
    ensures var rows := Pruned(n, readings, i);
            && (forall j :: i <= j < |n.rows.order| ==> n.rows.order[j] in rows.table)
            && forall id :: id in rows.table ==> id in n.rows.table && rows.table[id] == n.rows.table[id]
  {
    if i > 0 {
      PrunedHolds(n, readings, i - 1);
    } else {
      assert forall j :: 0 <= j < |n.rows.order| ==> n.rows.order[j] in n.rows.order;
    }
  }

  // The rows of the file up to the i-th, as loaded.
  function Loaded(disk: Rows, order: seq<nat>, i: nat): (r: Rows)
    requires i <= |order|
  {
    InsertionMap(order[..i], map id | id in order[..i] && id in disk.table :: Interrupt(disk.table[id]))
  }

  lemma {:induction false} LoadOne(disk: Rows, order: seq<nat>, i: nat)
    requires i < |order| && Distinct(order) && forall id :: id in order ==> id in disk.table
    ensures order[i] in disk.table
    ensures Loaded(disk, order, i + 1) == Loaded(disk, order, i).Set(order[i], Interrupt(disk.table[order[i]]))
  {
    var id, r := order[i], Loaded(disk, order, i);
    assert order[..i + 1] == order[..i] + [id];
    assert id in order;
    assert id !in order[..i];
    assert r.table[id := Interrupt(disk.table[id])]
        == map k | k in order[..i + 1] && k in disk.table :: Interrupt(disk.table[k]);
  }

  class SessionsFile {
    var rows: Rows

    constructor (rows: Rows)
      ensures this.rows == rows
    {
      this.rows := rows;
    }
  }

  class BuiltinCodingSupervisor {
    var rows: Rows
    var children: map<nat, Child>
    const file: SessionsFile

    ghost function View(): (n: Node)
      reads this, file
    {
      Node(rows, children, file.rows)
    }

    constructor (file: SessionsFile)
      requires file.rows.Valid()
      ensures this.file == file && View() == Load(old(file.rows)) && file.rows == old(file.rows)
    {
      this.file := file;
      this.children := map[];
      var saved := file.rows;
      var order := if |saved.order| > MAX_ROWS then saved.order[|saved.order| - MAX_ROWS..] else saved.order;
      var loaded: Rows := InsertionMap([], map[]);
      var i := 0;
      while i < |order|
        invariant 0 <= i <= |order| && loaded == Loaded(saved, order, i)
      {
        assert order[i] in saved.order;
        LoadOne(saved, order, i);
        loaded := loaded.Set(order[i], Interrupt(saved.table[order[i]]));
        i := i + 1;
      }
      assert order[..i] == order;
      this.rows := loaded;
    }

    method Store(works: bool)
      modifies file
      ensures View() == Save(old(View()), works)
    {
      if works {
        file.rows := rows;
      }
    }

    method Prune(readings: seq<int>)
      requires rows.Valid() && |readings| == |rows.order|
      modifies this`rows
      ensures rows == Pruned(old(View()), readings, |readings|)
    {
      ghost var was := View();
      var order := rows.order;
      var i := 0;
      while i < |order| && |rows.order| >= MAX_ROWS
        invariant 0 <= i <= |order| && View() == was.(rows := Pruned(was, readings, i))
      {
        PrunedHolds(was, readings, i);
        var id := order[i];
        PrunedNext(was, readings, i);
        var row := rows.table[id];
        if row.status !in {Working, Interrupted} && id !in children && readings[i] - row.updatedAt > APPROVAL_MS {
          rows := rows.Delete(id);
        }
        i := i + 1;
      }
      if i < |order| {
        PrunedStops(was, readings, i, |order|);
      }
    }

    method LaunchRow(id: nat, env: Env, now: int) returns (answer: Answer, spawned: bool)
      requires id in rows.table
      modifies this, file
      ensures Outcome(View(), spawned, answer) == Launch(old(View()), id, env, now)
    {
      var workspace := rows.table[id].workspace;
      if !env.ready || SomeInterrupted(rows, workspace) {
        return Refused, false;
      }
      if |children| >= MAX_CHILDREN || SomeChild(children, workspace) {
        return Refused, false;
      }
      rows := rows.Set(id, rows.table[id].(status := Working, updatedAt := now));
      if !env.saves {
        return Refused, false;
      }
      Store(true);
      if !env.spawns {
        rows := rows.Set(id, rows.table[id].(status := Failed));
        Store(env.savesAfter);
        return Refused, false;
      }
      children := children[id := Child(workspace, false)];
      return Accepted, true;
    }

    method StartSession(a: Approval, prepared: bool, env: Env, savesLast: bool, clock: Clock)
      returns (answer: Answer, spawned: bool)
      requires rows.Valid() && |clock.prune| == |rows.order|
      modifies this, file
      ensures Outcome(View(), spawned, answer) == Start(old(View()), a, prepared, env, savesLast, clock)
    {
      if clock.age - a.preparedAt > APPROVAL_MS || a.preparedAt > clock.future {
        return Refused, false;
      }
      if a.id in rows.table {
        var row := rows.table[a.id];
        var same := (row.provider, row.workspace, row.instruction) == (a.provider, a.workspace, a.instruction);
        return if same then AlreadyStarted else Refused, false;
      }
      if !prepared {
        return Refused, false;
      }
      Prune(clock.prune);
      if |rows.order| >= MAX_ROWS {
        return Refused, false;
      }
      rows := rows.Set(a.id, Row(a.provider, a.workspace, a.instruction, Idle, false, clock.created));
      answer, spawned := LaunchRow(a.id, env, clock.launched);
      if answer != Accepted {
        rows := rows.Set(a.id, rows.table[a.id].(status := Failed));
        Store(savesLast);
      }
    }

    method ReplyTo(seen: Fingerprint, env: Env, now: int) returns (answer: Answer, spawned: bool)
      modifies this, file
      ensures Outcome(View(), spawned, answer) == Reply(old(View()), seen, env, now)
    {
      if !Resumable(Node(rows, children, file.rows), seen) {
        return Refused, false;
      }
      answer, spawned := LaunchRow(seen.id, env, now);
    }

    method OnSessionName(id: nat)
      requires id in rows.table
      modifies this`rows
      ensures View() == Identify(old(View()), id)
    {
      rows := rows.Set(id, rows.table[id].(resumable := true));
    }

    method Cancel(id: nat)
      modifies this`children
      ensures View() == Stop(old(View()), id)
    {
      if id in children && !children[id].stopped {
        children := children[id := children[id].(stopped := true)];
      }
    }

    method OnClose(id: nat, clean: bool, asks: bool, saves: bool, now: int)
      requires id in rows.table && id in children
      modifies this, file
      ensures View() == Close(old(View()), id, clean, asks, saves, now)
    {
      var owned := children[id];
      children := children - {id};
      var status := if owned.stopped || !clean then Failed else if asks then Waiting else Idle;
      rows := rows.Set(id, rows.table[id].(status := status, updatedAt := now));
      Store(saves);
    }

    method ReconcileSession(id: nat, provider: Provider, confirmed: bool, saves: bool, now: int) returns (released: bool)
      modifies this, file
      ensures View() == Reconcile(old(View()), id, provider, confirmed, saves, now)
      ensures released == Reconciles(old(View()), id, provider, confirmed)
    {
      if id !in rows.table || rows.table[id].provider != provider {
        return false;
      }
      if !confirmed || rows.table[id].status != Interrupted || id in children {
        return false;
      }
      rows := rows.Set(id, rows.table[id].(status := Failed, resumable := false, updatedAt := now));
      Store(saves);
      return true;
    }
  }
}
