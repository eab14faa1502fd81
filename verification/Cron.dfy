// Scheduled jobs, the guard against running one twice at a time, and the marker of a run in progress on disk:
// src/cron-scheduler.js and src/file-backed-cron-scheduler.js. Runs are split where they wait for their handler.

module Cron {
  import opened InsertionMap
  import opened Sorting

  const MAX_RUNS := 50
  const DAY_MS: int := 86_400_000

  // The furthest instant a date can hold; formatting one beyond it throws.
  const MAX_DATE: int := 8_640_000_000_000_000

  datatype Option<T> = None | Some(value: T)

  // A daily time as the source parses it: its hours and minutes may be any numbers, or none.
  datatype Daily = NoDaily | Unreadable | At(ms: int)

  // everyMs is zero when the job has no interval.
  datatype Schedule = Schedule(everyMs: int, dailyAt: Daily)

  datatype Status = Running | Ok | Failed | TimedOut

  datatype Source = Tick | Manual

  // rev tells a row from the row that replaced it.
  datatype Job = Job(rev: nat, enabled: bool, schedule: Schedule, nextRunAt: Option<int>, lastRunAt: Option<int>,
                     lastStatus: Option<Status>)

  datatype Run = Run(job: nat, rev: nat, source: Source, status: Status)

  type Jobs = InsertionMap<nat, Job>
  type Runs = InsertionMap<nat, Run>
  type Marks = InsertionMap<nat, Marker>

  datatype Marker = Marker(job: nat, at: int)

  // The jobs file: its rows, and the marker of the oldest run in progress.
  datatype Saved = Saved(jobs: Jobs, running: Option<Marker>)

  // inFlight maps a job to its run in progress; marks to the marker of that run.
  datatype Scheduler = Scheduler(jobs: Jobs, inFlight: map<nat, nat>, runs: Runs, marks: Marks,
                                 running: Option<Marker>, interrupted: Option<Marker>, disk: Saved)

  // ---- the schedule -------------------------------------------------------------------------

  // The start of the local day of an instant, in a zone at a fixed offset.
  function DayStart(from: int, offset: int): (s: int)
    ensures s <= from < s + DAY_MS
  {
    from - (from + offset) % DAY_MS
  }

  function Dated(t: int): (r: Option<int>) {
    if -MAX_DATE <= t <= MAX_DATE then Some(t) else None
  }

  // None: no valid date, so that formatting it throws.
  function ComputeNextRun(s: Schedule, from: int, offset: int): (next: Option<int>) {
    if s.everyMs != 0 then Dated(from + s.everyMs)
    else
      match s.dailyAt
      case NoDaily => Dated(from + DAY_MS)
      case Unreadable => None
      case At(ms) =>
        var today := Dated(DayStart(from, offset) + ms);
        if today.Some? && today.value <= from then Dated(today.value + DAY_MS) else today
  }

  // A schedule moves on from a time of day, `left` milliseconds before the last date, if its next run is a date after
  // that time: a positive interval that ends in time, or a readable daily time at most a day ago.
  predicate MovesOn(s: Schedule, timeOfDay: int, left: int) {
    if s.everyMs != 0 then 0 < s.everyMs <= left
    else
      match s.dailyAt
      case NoDaily => DAY_MS <= left
      case Unreadable => false
      case At(ms) => if timeOfDay < ms then ms - timeOfDay <= left else timeOfDay < ms + DAY_MS <= timeOfDay + left
  }

  function TimeOfDay(from: int, offset: int): (t: int) {
    (from + offset) % DAY_MS
  }

  predicate MovesOnFrom(s: Schedule, from: int, offset: int) {
    MovesOn(s, TimeOfDay(from, offset), MAX_DATE - from)
  }

  // The next run is a date after the one just made exactly when the schedule moves on; and a daily run at an ordinary
  // time of day is within the day that follows.
  lemma {:induction false} NextRunIsLaterIff(s: Schedule, from: int, offset: int)
    requires 0 <= from <= MAX_DATE
    ensures var next := ComputeNextRun(s, from, offset);
            (next.Some? && next.value > from <==> MovesOnFrom(s, from, offset))
    ensures MAX_DATE == 100_000_000 * 24 * 60 * 60 * 1000
    ensures s.everyMs == 0 && s.dailyAt.At? && 0 <= s.dailyAt.ms < DAY_MS && from + DAY_MS <= MAX_DATE ==>
              var next := ComputeNextRun(s, from, offset); next.Some? && from < next.value <= from + DAY_MS
  {
    assert DayStart(from, offset) == from - TimeOfDay(from, offset);
  }

  // A daily run is at its time of day.
  lemma {:induction false} DailyRunKeepsItsTime(s: Schedule, from: int, offset: int)
    requires s.everyMs == 0 && s.dailyAt.At?
    ensures var next := ComputeNextRun(s, from, offset);
            next.Some? ==> TimeOfDay(next.value, offset) == s.dailyAt.ms % DAY_MS
  {
    var k, ms, next := (from + offset) / DAY_MS, s.dailyAt.ms, ComputeNextRun(s, from, offset);
    assert DayStart(from, offset) + offset == k * DAY_MS;
    if next.Some? {
      SameTime(ms, k);
      SameTime(ms, k + 1);
      assert next.value + offset == k * DAY_MS + ms || next.value + offset == (k + 1) * DAY_MS + ms;
    }
  }

  lemma {:induction false} SameTime(ms: int, k: int)
    ensures (k * DAY_MS + ms) % DAY_MS == ms % DAY_MS
  {
    var q := ms / DAY_MS;
    assert k * DAY_MS + ms == (k + q) * DAY_MS + ms % DAY_MS;
  }

  // By how much the next run is moved: an interval by itself, a daily time to the first instant at that time of day.
  ghost predicate NextAfter(s: Schedule, from: int, offset: int, next: int) {
    && (s.everyMs != 0 ==> next == from + s.everyMs)
    && (s.everyMs == 0 && s.dailyAt.NoDaily? ==> next == from + 24 * 60 * 60 * 1000)
    && (s.everyMs == 0 && s.dailyAt.At? ==> TimeOfDay(next, offset) == s.dailyAt.ms % DAY_MS)
    && (s.everyMs == 0 && s.dailyAt.At? && 0 <= s.dailyAt.ms < DAY_MS ==>
          from < next && forall t :: from < t < next ==> TimeOfDay(t, offset) != s.dailyAt.ms)
  }

  lemma {:induction false} FirstAtTime(ms: int, from: int, offset: int, next: int, t: int)
    requires 0 <= ms < DAY_MS && from < t < next <= from + DAY_MS && TimeOfDay(next, offset) == ms
    ensures TimeOfDay(t, offset) != ms
  {
    var k, j := (next + offset) / DAY_MS, (t + offset) / DAY_MS;
    assert next + offset == k * DAY_MS + ms;
    assert TimeOfDay(t, offset) == ms ==> next - t == (k - j) * DAY_MS;
  }

  lemma {:induction false} NextRunIs(s: Schedule, from: int, offset: int)
    requires ComputeNextRun(s, from, offset).Some?
    ensures NextAfter(s, from, offset, ComputeNextRun(s, from, offset).value)
  {
    var next := ComputeNextRun(s, from, offset).value;
    if s.everyMs == 0 && s.dailyAt.At? {
      DailyRunKeepsItsTime(s, from, offset);
      var ms := s.dailyAt.ms;
      if 0 <= ms < DAY_MS {
        SmallMod(ms);
        forall t | from < t < next ensures TimeOfDay(t, offset) != ms {
          FirstAtTime(ms, from, offset, next, t);
        }
      }
    }
  }

  lemma {:induction false} SmallMod(ms: int)
    requires 0 <= ms < DAY_MS
    ensures ms % DAY_MS == ms
  {
  }

  // An enabled job without a next run counts as due since the epoch.
  predicate Due(j: Job, now: int) {
    j.enabled && (if j.nextRunAt.Some? then j.nextRunAt.value else 0) <= now
  }

  function DueFrom(jobs: Jobs, order: seq<nat>, now: int): (r: seq<nat>) {
    if order == [] then []
    else
      (if order[0] in jobs.table && Due(jobs.table[order[0]], now) then [order[0]] else [])
      + DueFrom(jobs, order[1..], now)
  }

  function TimeOf(jobs: Jobs, id: nat): (t: Option<int>) {
    if id in jobs.table then jobs.table[id].nextRunAt else None
  }

  // Rows without a next run come last.
  predicate Sooner(a: Option<int>, b: Option<int>) {
    a.Some? && (b.None? || a.value < b.value)
  }

  function DueJobs(jobs: Jobs, now: int): (r: seq<nat>) {
    StableSort(DueFrom(jobs, jobs.order, now), (a, b) => Sooner(TimeOf(jobs, a), TimeOf(jobs, b)))
  }

  lemma {:induction false} DueFromIs(jobs: Jobs, order: seq<nat>, now: int)
    ensures forall id :: id in DueFrom(jobs, order, now) <==> id in order && id in jobs.table && Due(jobs.table[id], now)
  {
    if order != [] {
      DueFromIs(jobs, order[1..], now);
    }
  }

  // A pass considers exactly the due jobs, the one due longest first.
  lemma {:induction false} DueJobsAre(jobs: Jobs, now: int)
    requires jobs.Valid()
    ensures forall id :: id in DueJobs(jobs, now) <==> id in jobs.table && Due(jobs.table[id], now)
    ensures forall id :: id in jobs.table ==>
      var j := jobs.table[id]; Due(j, now) <==> j.enabled && (if j.nextRunAt == None then 0 <= now else j.nextRunAt.value <= now)
    ensures var d := DueJobs(jobs, now);
            forall i, j :: 0 <= i < j < |d| ==> !Sooner(TimeOf(jobs, d[j]), TimeOf(jobs, d[i]))
  {
    var due, before := DueFrom(jobs, jobs.order, now), (a, b) => Sooner(TimeOf(jobs, a), TimeOf(jobs, b));
    DueFromIs(jobs, jobs.order, now);
    StableSortSorted(due, before);
    SameElements(StableSort(due, before), due);
  }

  // ---- runs ---------------------------------------------------------------------------------

  function FirstFinished(runs: Runs, order: seq<nat>): (r: Option<nat>)
    ensures r.Some? ==> r.value in order && r.value in runs.table && !runs.table[r.value].status.Running?
    ensures r.None? ==> forall id :: id in order && id in runs.table ==> runs.table[id].status.Running?
  {
    if order == [] then None
    else if order[0] in runs.table && !runs.table[order[0]].status.Running? then Some(order[0])
    else FirstFinished(runs, order[1..])
  }

  // Finished records go, oldest first, until few enough are left.
  function Evicted(runs: Runs): (r: Runs)
    requires runs.Valid()
    ensures r.Valid()
    ensures forall id :: id in runs.table && runs.table[id].status.Running? ==> id in r.table
    ensures forall id :: id in r.table ==> id in runs.table && r.table[id] == runs.table[id]
    ensures |r.order| <= MAX_RUNS || forall id :: id in r.table ==> r.table[id].status.Running?
    decreases |runs.order|
  {
    var stale := FirstFinished(runs, runs.order);
    if |runs.order| <= MAX_RUNS || stale.None? then runs else Evicted(runs.Delete(stale.value))
  }

  lemma {:induction false} FirstFinishedIsFirst(runs: Runs, order: seq<nat>, i: nat)
    requires i < |order| && order[i] in runs.table && !runs.table[order[i]].status.Running?
    ensures FirstFinished(runs, order).Some?
    ensures exists j :: 0 <= j <= i && FirstFinished(runs, order) == Some(order[j])
  {
    if order[0] in runs.table && !runs.table[order[0]].status.Running? {
      assert FirstFinished(runs, order) == Some(order[0]);
    } else {
      FirstFinishedIsFirst(runs, order[1..], i - 1);
      var j :| 0 <= j <= i - 1 && FirstFinished(runs, order[1..]) == Some(order[1..][j]);
      assert order[1..][j] == order[j + 1];
    }
  }

  // Up to fifty records are all kept; beyond that no more go than needed, and only records of runs that have ended.
  lemma {:induction false} EvictedDown(runs: Runs)
    requires runs.Valid()
    ensures |runs.order| <= 50 ==> Evicted(runs) == runs
    ensures |runs.order| >= 50 ==> |Evicted(runs).order| >= 50
    ensures |Evicted(runs).order| <= 50 || forall id :: id in Evicted(runs).table ==> Evicted(runs).table[id].status == Running
    decreases |runs.order|
  {
    var stale := FirstFinished(runs, runs.order);
    if |runs.order| > MAX_RUNS && stale.Some? {
      DroppedOne(runs, stale.value);
      EvictedDown(runs.Delete(stale.value));
    }
  }

  lemma {:induction false} DroppedOne(runs: Runs, id: nat)
    requires runs.Valid() && id in runs.table
    ensures |runs.Delete(id).order| == |runs.order| - 1
  {
    DropOnce(runs.order, id);
  }

  lemma {:induction false} DropOnce(order: seq<nat>, id: nat)
    requires Distinct(order)
    ensures |Drop(order, id)| == |order| - (if id in order then 1 else 0)
  {
    if order != [] {
      DropOnce(order[1..], id);
      assert order == [order[0]] + order[1..];
      assert order[0] !in order[1..];
    }
  }

  // The earliest marker; of two as early, the one set first.
  function Oldest(marks: Marks, order: seq<nat>): (r: Option<Marker>)
    ensures r.Some? ==> exists j :: j in order && j in marks.table && marks.table[j] == r.value
    ensures forall j :: j in order && j in marks.table ==> r.Some? && r.value.at <= marks.table[j].at
  {
    if order == [] then None
    else
      var n := |order| - 1;
      var before, last := Oldest(marks, order[..n]), order[n];
      assert order == order[..n] + [last];
      if last in marks.table && (before.None? || marks.table[last].at < before.value.at) then
        assert last in order;
        Some(marks.table[last])
      else before
  }

  function SetRow(jobs: Jobs, id: nat, rev: nat, row: Job): (r: Jobs) {
    if id in jobs.table && jobs.table[id].rev == rev then jobs.Set(id, row) else jobs
  }

  function Save(s: Scheduler, works: bool): (r: Scheduler) {
    if works then s.(disk := Saved(s.jobs, s.running)) else s
  }

  function Marked(s: Scheduler, marks: Marks): (r: Scheduler) {
    s.(marks := marks, running := Oldest(marks, marks.order))
  }

  // The end of a run: the guard is released, and the record and the row take the outcome.
  function Finish(s: Scheduler, id: nat, run: nat, status: Status): (r: Scheduler)
    requires run in s.runs.table
  {
    var rev := s.runs.table[run].rev;
    var m := Marked(s, s.marks.Delete(id));
    m.(inFlight := s.inFlight - {id},
       runs := s.runs.Set(run, s.runs.table[run].(status := status)),
       jobs := if id in s.jobs.table then SetRow(s.jobs, id, rev, s.jobs.table[id].(lastStatus := Some(status))) else s.jobs)
  }

  function Recorded(s: Scheduler, run: nat, id: nat, rev: nat, source: Source): (r: Scheduler)
    requires s.runs.Valid()
  {
    s.(runs := Evicted(s.runs.Set(run, Run(id, rev, source, Running))), inFlight := s.inFlight[id := run])
  }

  // The scheduler just before the marker of a new run is saved.
  function Marking(s: Scheduler, run: nat, id: nat, rev: nat, source: Source, at: int): (r: Scheduler)
    requires s.runs.Valid()
  {
    Marked(Recorded(s, run, id, rev, source), s.marks.Set(id, Marker(id, at)))
  }

  // The start of a run, up to the call of its handler. When its marker cannot be saved the run fails at once.
  function Begin(s: Scheduler, run: nat, id: nat, rev: nat, source: Source, at: int, saves: bool): (r: Scheduler)
    requires s.runs.Valid()
  {
    var m := Marking(s, run, id, rev, source, at);
    if saves then Save(m, true) else Finish(m, id, run, Failed)
  }

  // The next run can be formatted, so that the tick goes on.
  predicate Reschedules(row: Job, now: int, offset: int) {
    row.enabled ==> ComputeNextRun(row.schedule, now, offset).Some?
  }

  // What a tick does with a job it has run. When there is no next run to format it throws, with the row as it was but
  // for the time of its last run.
  function Rescheduled(s: Scheduler, id: nat, row: Job, now: int, offset: int): (r: Scheduler) {
    var ran := row.(lastRunAt := Some(now));
    var next := if row.enabled then ComputeNextRun(row.schedule, now, offset) else None;
    s.(jobs := SetRow(s.jobs, id, row.rev, if Reschedules(row, now, offset) then ran.(nextRunAt := next) else ran))
  }

  // What a manual run does when it has ended.
  function Noted(s: Scheduler, id: nat, rev: nat, at: int, saves: bool): (r: Scheduler) {
    Save(s.(jobs := if id in s.jobs.table
                    then SetRow(s.jobs, id, rev, s.jobs.table[id].(lastRunAt := Some(at))) else s.jobs), saves)
  }

  // What a new process makes of the file.
  function Load(disk: Saved): (r: Scheduler) {
    var none: map<nat, nat> := map[];
    Scheduler(disk.jobs, none, InsertionMap([], map[]), InsertionMap([], map[]), None, disk.running, disk)
  }

  // ---- histories ----------------------------------------------------------------------------

  // One pass over the due jobs. before: the next runs when it began. ran: the jobs it has run so far.
  datatype Pass = Pass(now: int, due: seq<(nat, nat)>, pos: nat, handled: nat, run: Option<nat>, ran: set<nat>,
                       before: map<nat, Option<int>>)

  // saved: the jobs in progress when the file was last written. outcomes: how each run that has ended did. used: run ids
  // handed out. settling: manual runs that have ended and are still to be noted. fired: jobs some tick has run. The
  // runtime makes one pass at a time.
  datatype World = World(s: Scheduler, saved: set<nat>, outcomes: map<nat, Status>, pass: Option<Pass>, used: set<nat>,
                         settling: set<(nat, nat)>, fired: set<nat>, offset: int)

  // PassResumed: row is the row the pass took the job from, which an edit may have replaced in the table.
  datatype Event =
    | RunNow(id: nat, run: nat, at: int, saves: bool)
    | RunEnded(id: nat, status: Status)
    | RunNoted(id: nat, rev: nat, at: int, saves: bool)
    | PassBegan(now: int)
    | PassStepped(late: bool, run: nat, at: int, saves: bool)
    | PassResumed(row: Job)
    | PassClosed(late: bool, saves: bool)
    | Edited(jobs: Jobs, saves: bool)
    | Died
    | Consumed(saves: bool)

  ghost predicate Enabled(w: World, e: Event) {
    match e
    case RunNow(id, run, at, saves) => run !in w.used && w.s.runs.Valid()
    case RunEnded(id, status) =>
      !status.Running? && id in w.s.inFlight && w.s.inFlight[id] in w.s.runs.table
    case RunNoted(id, rev, at, saves) => (id, rev) in w.settling
    case PassBegan(now) => w.pass.None? && 0 <= now <= MAX_DATE
    case PassStepped(late, run, at, saves) =>
      && w.pass.Some? && w.pass.value.run.None? && w.pass.value.pos < |w.pass.value.due|
      && (late ==> w.pass.value.handled == 0)
      && run !in w.used && w.s.runs.Valid()
    case PassResumed(row) =>
      && w.pass.Some? && w.pass.value.run.Some? && w.pass.value.pos < |w.pass.value.due|
      && var (id, rev) := w.pass.value.due[w.pass.value.pos];
         && !(id in w.s.inFlight && w.s.inFlight[id] == w.pass.value.run.value)
         && row.rev == rev && (id in w.s.jobs.table && w.s.jobs.table[id].rev == rev ==> row == w.s.jobs.table[id])
    case PassClosed(late, saves) =>
      && w.pass.Some? && w.pass.value.run.None?
      && (w.pass.value.pos >= |w.pass.value.due| || (late && w.pass.value.handled > 0))
    case Edited(jobs, saves) => jobs.Valid()
    case Died => true
    case Consumed(saves) => true
  }

  function Revs(jobs: Jobs, ids: seq<nat>): (r: seq<(nat, nat)>) {
    if ids == [] then [] else (if ids[0] in jobs.table then [(ids[0], jobs.table[ids[0]].rev)] else []) + Revs(jobs, ids[1..])
  }

  function Times(jobs: Jobs): (r: map<nat, Option<int>>) {
    map id | id in jobs.table :: jobs.table[id].nextRunAt
  }

  // A run whose marker could not be saved has failed.
  function Outcomes(w: World, run: nat, saves: bool): (r: map<nat, Status>) {
    if saves then w.outcomes else w.outcomes[run := Failed]
  }

  // The scheduler after a step that may have written the file.
  function Written(w: World, s: Scheduler, saves: bool): (r: World) {
    w.(s := s, saved := if saves then s.inFlight.Keys else w.saved)
  }

  ghost function Next(w: World, e: Event): (r: World)
    requires Enabled(w, e)
  {
    match e
    case RunNow(id, run, at, saves) =>
      if id !in w.s.jobs.table || id in w.s.inFlight then w
      else
        var rev := w.s.jobs.table[id].rev;
        Written(w, Begin(w.s, run, id, rev, Manual, at, saves), saves).(
           used := w.used + {run}, outcomes := Outcomes(w, run, saves),
           settling := if saves then w.settling else w.settling + {(id, rev)})
    case RunEnded(id, status) =>
      var r := w.s.runs.table[w.s.inFlight[id]];
      w.(s := Finish(w.s, id, w.s.inFlight[id], status), outcomes := w.outcomes[w.s.inFlight[id] := status],
         settling := if r.source.Manual? then w.settling + {(id, r.rev)} else w.settling)
    case RunNoted(id, rev, at, saves) =>
      Written(w, Noted(w.s, id, rev, at, saves), saves).(settling := w.settling - {(id, rev)})
    case PassBegan(now) =>
      w.(pass := Some(Pass(now, Revs(w.s.jobs, DueJobs(w.s.jobs, now)), 0, 0, None, {}, Times(w.s.jobs))))
    case PassStepped(late, run, at, saves) =>
      var p := w.pass.value;
      var (id, rev) := p.due[p.pos];
      if id in w.s.inFlight then w.(pass := Some(p.(pos := p.pos + 1, handled := p.handled + 1)))
      else
        Written(w, Begin(w.s, run, id, rev, Tick, at, saves), saves).(used := w.used + {run}, outcomes := Outcomes(w, run, saves),
           pass := Some(p.(run := Some(run))))
    case PassResumed(row) =>
      var p := w.pass.value;
      var (id, rev) := p.due[p.pos];
      w.(s := Rescheduled(w.s, id, row, p.now, w.offset), fired := w.fired + {id},
         pass := if !Reschedules(row, p.now, w.offset) then None
                 else Some(p.(pos := p.pos + 1, handled := p.handled + 1, run := None, ran := p.ran + {id})))
    case PassClosed(late, saves) =>
      (if w.pass.value.handled > 0 then Written(w, Save(w.s, saves), saves) else w).(pass := None)
    case Edited(jobs, saves) => Written(w, Save(w.s.(jobs := jobs), saves), saves)
    case Died => w.(s := Load(w.s.disk), pass := None, settling := {})
    case Consumed(saves) =>
      if w.s.interrupted.None? then w else Written(w, Save(w.s.(interrupted := None), saves), saves)
  }

  // ---- what every step keeps ----------------------------------------------------------------

  // A record says running exactly while its job holds the guard for it.
  ghost predicate Guarded(inFlight: map<nat, nat>, runs: map<nat, Run>) {
    && (forall id :: id in inFlight ==>
          inFlight[id] in runs && runs[inFlight[id]].job == id && runs[inFlight[id]].status.Running?)
    && (forall r :: r in runs && runs[r].status.Running? ==> runs[r].job in inFlight && inFlight[runs[r].job] == r)
  }

  // The marker in memory is the oldest one, and while a run is in progress the file has one.
  ghost predicate MarkerSound(s: Scheduler) {
    && s.marks.Valid() && s.marks.table.Keys == s.inFlight.Keys
    && s.running == Oldest(s.marks, s.marks.order)
    && (s.inFlight != map[] ==> s.disk.running.Some?)
  }

  ghost predicate Inv(w: World) {
    && w.s.runs.Valid() && w.s.runs.table.Keys <= w.used
    && Guarded(w.s.inFlight, w.s.runs.table) && MarkerSound(w.s)
    && (w.s.disk.running.Some? <==> w.saved != {})
  }

  lemma {:induction false} SomeRunning(s: Scheduler)
    requires s.marks.Valid() && s.running == Oldest(s.marks, s.marks.order) && s.marks.table != map[]
    ensures s.running.Some?
  {
    var j :| j in s.marks.table;
    assert j in s.marks.order;
  }

  lemma {:induction false} SaveKeeps(s: Scheduler, works: bool)
    requires MarkerSound(s)
    ensures MarkerSound(Save(s, works))
  {
    if s.inFlight != map[] {
      assert s.marks.table != map[] by {
        var j :| j in s.inFlight;
        assert j in s.marks.table;
      }
      SomeRunning(s);
    }
  }

  lemma {:induction false} RunningIff(s: Scheduler)
    requires s.marks.Valid() && s.marks.table.Keys == s.inFlight.Keys && s.running == Oldest(s.marks, s.marks.order)
    ensures s.running.Some? <==> s.inFlight.Keys != {}
  {
    if j :| j in s.inFlight.Keys {
      assert j in s.marks.table;
      SomeRunning(s);
    }
  }

  lemma {:induction false} GuardTaken(inFlight: map<nat, nat>, runs: map<nat, Run>, id: nat, run: nat, r: Run)
    requires Guarded(inFlight, runs) && id !in inFlight && run !in runs && r.job == id && r.status.Running?
    ensures Guarded(inFlight[id := run], runs[run := r])
  {
  }

  lemma {:induction false} GuardReleased(inFlight: map<nat, nat>, runs: map<nat, Run>, id: nat, status: Status)
    requires Guarded(inFlight, runs) && id in inFlight && !status.Running?
    ensures Guarded(inFlight - {id}, runs[inFlight[id] := runs[inFlight[id]].(status := status)])
  {
  }

  lemma {:induction false} GuardEvicted(inFlight: map<nat, nat>, runs: map<nat, Run>, kept: map<nat, Run>)
    requires Guarded(inFlight, runs)
    requires forall r :: r in kept ==> r in runs && kept[r] == runs[r]
    requires forall r :: r in runs && runs[r].status.Running? ==> r in kept
    ensures Guarded(inFlight, kept)
  {
  }

  lemma {:induction false} AddedAndRemoved(m: map<nat, nat>, id: nat, run: nat)
    requires id !in m
    ensures m[id := run] - {id} == m
  {
  }

  lemma {:induction false} RecordedKeeps(w: World, run: nat, id: nat, rev: nat, source: Source)
    requires Inv(w) && run !in w.used && id !in w.s.inFlight
    ensures var r := Recorded(w.s, run, id, rev, source);
            && r.runs.Valid() && r.runs.table.Keys <= w.used + {run} && Guarded(r.inFlight, r.runs.table)
            && run in r.runs.table && r.runs.table[run] == Run(id, rev, source, Running)
  {
    var r, added := Recorded(w.s, run, id, rev, source), w.s.runs.Set(run, Run(id, rev, source, Running));
    GuardTaken(w.s.inFlight, w.s.runs.table, id, run, Run(id, rev, source, Running));
    GuardEvicted(r.inFlight, added.table, r.runs.table);
  }

  lemma {:induction false} KeysWith(marks: map<nat, Marker>, inFlight: map<nat, nat>, id: nat, m: Marker, run: nat)
    requires marks.Keys == inFlight.Keys
    ensures marks[id := m].Keys == inFlight[id := run].Keys
  {
  }

  lemma {:induction false} MarkingKeeps(w: World, run: nat, id: nat, rev: nat, source: Source, at: int)
    requires w.s.runs.Valid() && MarkerSound(w.s)
    ensures var m := Marking(w.s, run, id, rev, source, at);
            && m.marks.Valid() && m.marks.table.Keys == m.inFlight.Keys && id in m.marks.table
            && m.running == Oldest(m.marks, m.marks.order) && m.inFlight == w.s.inFlight[id := run] && m.disk == w.s.disk
  {
    KeysWith(w.s.marks.table, w.s.inFlight, id, Marker(id, at), run);
  }

  lemma {:induction false} BeginKeeps(w: World, run: nat, id: nat, rev: nat, source: Source, at: int)
    requires Inv(w) && run !in w.used && id !in w.s.inFlight
    ensures MarkerSound(Begin(w.s, run, id, rev, source, at, true))
  {
    MarkingKeeps(w, run, id, rev, source, at);
    SomeRunning(Marking(w.s, run, id, rev, source, at));
  }

  lemma {:induction false} FinishKeeps(s: Scheduler, id: nat, run: nat, status: Status)
    requires s.runs.Valid() && Guarded(s.inFlight, s.runs.table) && id in s.inFlight && s.inFlight[id] == run
    requires !status.Running?
    ensures var f := Finish(s, id, run, status);
            && f.runs.Valid() && f.runs.table.Keys == s.runs.table.Keys && Guarded(f.inFlight, f.runs.table)
            && f.inFlight == s.inFlight - {id} && f.disk == s.disk
  {
    GuardReleased(s.inFlight, s.runs.table, id, status);
    assert s.runs.table[run := s.runs.table[run].(status := status)].Keys == s.runs.table.Keys;
  }

  lemma {:induction false} FinishMarks(s: Scheduler, id: nat, run: nat, status: Status)
    requires run in s.runs.table && s.marks.Valid() && s.marks.table.Keys == s.inFlight.Keys
    ensures var f := Finish(s, id, run, status);
            && f.marks.Valid() && f.marks.table.Keys == f.inFlight.Keys && f.running == Oldest(f.marks, f.marks.order)
  {
  }

  // A run whose marker could not be saved leaves no trace but its record.
  lemma {:induction false} UnsavedKeeps(w: World, run: nat, id: nat, rev: nat, source: Source, at: int)
    requires Inv(w) && run !in w.used && id !in w.s.inFlight
    ensures var b := Begin(w.s, run, id, rev, source, at, false);
            && b.runs.Valid() && b.runs.table.Keys <= w.used + {run} && Guarded(b.inFlight, b.runs.table)
            && MarkerSound(b) && b.inFlight == w.s.inFlight && b.disk == w.s.disk
  {
    var m := Marking(w.s, run, id, rev, source, at);
    RecordedKeeps(w, run, id, rev, source);
    MarkingKeeps(w, run, id, rev, source, at);
    FinishKeeps(m, id, run, Failed);
    FinishMarks(m, id, run, Failed);
    AddedAndRemoved(w.s.inFlight, id, run);
  }

  lemma {:induction false} StartKeeps(w: World, run: nat, id: nat, rev: nat, source: Source, at: int, saves: bool)
    requires Inv(w) && run !in w.used && id !in w.s.inFlight
    ensures Inv(Written(w, Begin(w.s, run, id, rev, source, at, saves), saves).(used := w.used + {run}))
  {
    if saves {
      MarkingKeeps(w, run, id, rev, source, at);
      RunningIff(Marking(w.s, run, id, rev, source, at));
      RecordedKeeps(w, run, id, rev, source);
      BeginKeeps(w, run, id, rev, source, at);
    } else {
      UnsavedKeeps(w, run, id, rev, source, at);
    }
  }

  lemma {:induction false} EndedKeeps(w: World, id: nat, status: Status)
    requires Inv(w) && Enabled(w, RunEnded(id, status))
    ensures Inv(Next(w, RunEnded(id, status)))
  {
    FinishKeeps(w.s, id, w.s.inFlight[id], status);
    FinishMarks(w.s, id, w.s.inFlight[id], status);
  }

  lemma {:induction false} WrittenKeeps(w: World, saves: bool)
    requires Inv(w)
    ensures Inv(Written(w, Save(w.s, saves), saves))
  {
    SaveKeeps(w.s, saves);
    RunningIff(w.s);
  }

  lemma {:induction false} StepKeeps(w: World, e: Event)
    requires Inv(w) && Enabled(w, e)
    ensures Inv(Next(w, e))
  {
    match e {
      case RunNow(id, run, at, saves) =>
        if id in w.s.jobs.table && id !in w.s.inFlight {
          StartKeeps(w, run, id, w.s.jobs.table[id].rev, Manual, at, saves);
        }
      case RunEnded(id, status) => EndedKeeps(w, id, status);
      case RunNoted(id, rev, at, saves) => WrittenKeeps(w, saves);
      case PassBegan(now) =>
      case PassStepped(late, run, at, saves) =>
        var (id, rev) := w.pass.value.due[w.pass.value.pos];
        if id !in w.s.inFlight {
          StartKeeps(w, run, id, rev, Tick, at, saves);
        }
      case PassResumed(row) =>
      case PassClosed(late, saves) => WrittenKeeps(w, saves);
      case Edited(jobs, saves) => WrittenKeeps(w, saves);
      case Died =>
      case Consumed(saves) => WrittenKeeps(w, saves);
    }
  }

  // ---- main results -------------------------------------------------------------------------

  ghost predicate History(w: World, events: seq<Event>, last: World)
    decreases |events|
  {
    if events == [] then last == w
    else Enabled(w, events[0]) && History(Next(w, events[0]), events[1..], last)
  }

  function New(jobs: Jobs, offset: int): (w: World) {
    World(Load(Saved(jobs, None)), {}, map[], None, {}, {}, {}, offset)
  }

  lemma {:induction false} HistoryKeeps(w: World, events: seq<Event>, last: World)
    requires Inv(w) && History(w, events, last)
    ensures Inv(last)
    decreases |events|
  {
    if events != [] {
      StepKeeps(w, events[0]);
      HistoryKeeps(Next(w, events[0]), events[1..], last);
    }
  }

  ghost predicate OneRunPerJob(runs: map<nat, Run>) {
    forall r, q | r in runs && q in runs && runs[r].status.Running? && runs[q].status.Running? ::
      runs[r].job == runs[q].job ==> r == q
  }

  // At any time, over passes, manual runs and deaths: a job has at most one run that has not ended or timed out, and
  // while there is any, the file names one.
  lemma {:induction false} EveryHistoryIsSafe(jobs: Jobs, offset: int, events: seq<Event>, w: World)
    requires History(New(jobs, offset), events, w)
    ensures OneRunPerJob(w.s.runs.table)
    ensures forall id :: id in w.s.inFlight ==> w.s.inFlight[id] in w.s.runs.table
    ensures w.s.inFlight != map[] ==> w.s.disk.running.Some?
  {
    HistoryKeeps(New(jobs, offset), events, w);
  }

  // A process that dies during a run leaves word of it for the next one.
  lemma {:induction false} DeathIsNoticed(w: World)
    requires Inv(w) && w.s.inFlight != map[]
    ensures Next(w, Died).s.interrupted.Some?
  {
  }

  // A death leaves word exactly if some run was in progress when the file was last written.
  lemma {:induction false} DeathIsNoticedIff(jobs: Jobs, offset: int, events: seq<Event>, w: World)
    requires History(New(jobs, offset), events, w)
    ensures Next(w, Died).s.interrupted.Some? <==> w.saved != {}
  {
    HistoryKeeps(New(jobs, offset), events, w);
  }

  lemma {:induction false} BeginRecords(s: Scheduler, run: nat, id: nat, rev: nat, source: Source, at: int, saves: bool, r: nat)
    requires s.runs.Valid() && r in Begin(s, run, id, rev, source, at, saves).runs.table
    ensures var record := Begin(s, run, id, rev, source, at, saves).runs.table[r];
            if r == run then record == Run(id, rev, source, if saves then Running else Failed)
            else r in s.runs.table && record == s.runs.table[r]
  {
  }

  // A record that has ended never changes; what has ended holds no guard; and ending is final for the run.
  lemma {:induction false} EndedIsFinal(w: World, e: Event, r: nat)
    requires Inv(w) && Enabled(w, e) && r in w.s.runs.table && !w.s.runs.table[r].status.Running?
    ensures r in Next(w, e).s.runs.table ==> Next(w, e).s.runs.table[r] == w.s.runs.table[r]
    ensures forall id :: id in w.s.inFlight ==> w.s.inFlight[id] != r
  {
    if e.RunNow? || e.PassStepped? {
      StartedIsFinal(w, e, r);
    }
  }

  lemma {:induction false} StartedIsFinal(w: World, e: Event, r: nat)
    requires Inv(w) && Enabled(w, e) && r in w.s.runs.table && !w.s.runs.table[r].status.Running?
    requires e.RunNow? || e.PassStepped?
    ensures r in Next(w, e).s.runs.table ==> Next(w, e).s.runs.table[r] == w.s.runs.table[r]
  {
    var n := Next(w, e).s;
    if e.RunNow? {
      if e.id in w.s.jobs.table && e.id !in w.s.inFlight && r in n.runs.table {
        BeginRecords(w.s, e.run, e.id, w.s.jobs.table[e.id].rev, Manual, e.at, e.saves, r);
      }
    } else {
      var (id, rev) := w.pass.value.due[w.pass.value.pos];
      if id !in w.s.inFlight && r in n.runs.table {
        BeginRecords(w.s, e.run, id, rev, Tick, e.at, e.saves, r);
      }
    }
  }

  // Every record says how its run ended, or that it is running.
  ghost predicate OutcomesRecorded(w: World) {
    w.outcomes.Keys <= w.used && Says(w.s.runs.table, w.outcomes)
  }

  ghost predicate Says(runs: map<nat, Run>, outcomes: map<nat, Status>) {
    forall r :: r in runs ==>
      if runs[r].status.Running? then r !in outcomes else r in outcomes && runs[r].status == outcomes[r]
  }

  lemma {:induction false} SaysEnded(runs: map<nat, Run>, outcomes: map<nat, Status>, run: nat, status: Status)
    requires Says(runs, outcomes) && run in runs && runs[run].status.Running? && !status.Running?
    ensures Says(runs[run := runs[run].(status := status)], outcomes[run := status])
    ensures Kept(outcomes, outcomes[run := status])
  {
  }

  // runs has one record more than before, if any, and that one says what became of its run.
  ghost predicate RecordsOneMore(before: map<nat, Run>, runs: map<nat, Run>, run: nat, saves: bool) {
    forall r :: r in runs ==>
      if r == run then runs[r].status == if saves then Running else Failed else r in before && runs[r] == before[r]
  }

  lemma {:induction false} SaysOneMore(before: map<nat, Run>, runs: map<nat, Run>, outcomes: map<nat, Status>, run: nat,
                                       saves: bool)
    requires Says(before, outcomes) && run !in outcomes && RecordsOneMore(before, runs, run, saves)
    ensures Says(runs, if saves then outcomes else outcomes[run := Failed])
    ensures Kept(outcomes, if saves then outcomes else outcomes[run := Failed])
  {
  }

  lemma {:induction false} StartRecords(w: World, run: nat, id: nat, rev: nat, source: Source, at: int, saves: bool)
    requires Inv(w) && OutcomesRecorded(w) && run !in w.used
    ensures Says(Begin(w.s, run, id, rev, source, at, saves).runs.table, Outcomes(w, run, saves))
    ensures Kept(w.outcomes, Outcomes(w, run, saves)) && Outcomes(w, run, saves).Keys <= w.used + {run}
  {
    var b := Begin(w.s, run, id, rev, source, at, saves);
    assert RecordsOneMore(w.s.runs.table, b.runs.table, run, saves) by {
      forall r | r in b.runs.table
        ensures if r == run then b.runs.table[r].status == if saves then Running else Failed
                else r in w.s.runs.table && b.runs.table[r] == w.s.runs.table[r] {
        BeginRecords(w.s, run, id, rev, source, at, saves, r);
      }
    }
    SaysOneMore(w.s.runs.table, b.runs.table, w.outcomes, run, saves);
  }

  lemma {:induction false} EndedRecords(w: World, id: nat, status: Status)
    requires Inv(w) && OutcomesRecorded(w) && Enabled(w, RunEnded(id, status))
    ensures var n := Next(w, RunEnded(id, status)); OutcomesRecorded(n) && Kept(w.outcomes, n.outcomes)
  {
    var run := w.s.inFlight[id];
    SaysEnded(w.s.runs.table, w.outcomes, run, status);
    assert Next(w, RunEnded(id, status)).s.runs.table == w.s.runs.table[run := w.s.runs.table[run].(status := status)];
  }

  ghost predicate Kept(a: map<nat, Status>, b: map<nat, Status>) {
    forall r :: r in a ==> r in b && b[r] == a[r]
  }

  lemma {:induction false} NowRecords(w: World, id: nat, run: nat, at: int, saves: bool)
    requires Inv(w) && OutcomesRecorded(w) && Enabled(w, RunNow(id, run, at, saves))
    ensures var n := Next(w, RunNow(id, run, at, saves)); OutcomesRecorded(n) && Kept(w.outcomes, n.outcomes)
  {
    if id in w.s.jobs.table && id !in w.s.inFlight {
      var n, rev := Next(w, RunNow(id, run, at, saves)), w.s.jobs.table[id].rev;
      StartRecords(w, run, id, rev, Manual, at, saves);
      assert n.s == Begin(w.s, run, id, rev, Manual, at, saves);
      assert n.outcomes == Outcomes(w, run, saves) && n.used == w.used + {run};
    }
  }

  lemma {:induction false} SteppedRecords(w: World, late: bool, run: nat, at: int, saves: bool)
    requires Inv(w) && OutcomesRecorded(w) && Enabled(w, PassStepped(late, run, at, saves))
    ensures var n := Next(w, PassStepped(late, run, at, saves)); OutcomesRecorded(n) && Kept(w.outcomes, n.outcomes)
  {
    var (id, rev) := w.pass.value.due[w.pass.value.pos];
    if id !in w.s.inFlight {
      var n := Next(w, PassStepped(late, run, at, saves));
      StartRecords(w, run, id, rev, Tick, at, saves);
      assert n.s == Begin(w.s, run, id, rev, Tick, at, saves);
      assert n.outcomes == Outcomes(w, run, saves) && n.used == w.used + {run};
    }
  }

  lemma {:induction false} StepRecords(w: World, e: Event)
    requires Inv(w) && OutcomesRecorded(w) && Enabled(w, e)
    ensures OutcomesRecorded(Next(w, e)) && Kept(w.outcomes, Next(w, e).outcomes)
  {
    match e {
      case RunNow(id, run, at, saves) => NowRecords(w, id, run, at, saves);
      case PassStepped(late, run, at, saves) => SteppedRecords(w, late, run, at, saves);
      case RunEnded(id, status) => EndedRecords(w, id, status);
      case _ =>
    }
  }

  lemma {:induction false} HistoryRecords(w: World, events: seq<Event>, last: World)
    requires Inv(w) && OutcomesRecorded(w) && History(w, events, last)
    ensures OutcomesRecorded(last) && Kept(w.outcomes, last.outcomes)
    decreases |events|
  {
    if events != [] {
      StepKeeps(w, events[0]);
      StepRecords(w, events[0]);
      HistoryRecords(Next(w, events[0]), events[1..], last);
    }
  }

  // Over any history each run ends at most once, as ok, failed or timed out, and its record says which; a run has not
  // ended exactly while its record says it is running.
  lemma {:induction false} RunsEndAsRecorded(jobs: Jobs, offset: int, events: seq<Event>, w: World, more: seq<Event>, last: World)
    requires History(New(jobs, offset), events, w) && History(w, more, last)
    ensures OutcomesRecorded(w) && OutcomesRecorded(last) && Kept(w.outcomes, last.outcomes)
  {
    HistoryKeeps(New(jobs, offset), events, w);
    HistoryRecords(New(jobs, offset), events, w);
    HistoryRecords(w, more, last);
  }

  // The end of a run gives the record its outcome, and the job's row unless that was replaced meanwhile; no other record
  // and no other row.
  lemma {:induction false} EndIsRecorded(w: World, id: nat, status: Status)
    requires Inv(w) && Enabled(w, RunEnded(id, status))
    ensures var run, n := w.s.inFlight[id], Next(w, RunEnded(id, status)).s;
            && n.runs.table == w.s.runs.table[run := w.s.runs.table[run].(status := status)]
            && id !in n.inFlight && id !in n.marks.table
            && (forall j :: j in w.s.jobs.table ==>
                  && j in n.jobs.table
                  && n.jobs.table[j] == if j == id && w.s.jobs.table[j].rev == w.s.runs.table[run].rev
                                        then w.s.jobs.table[j].(lastStatus := Some(status)) else w.s.jobs.table[j])
  {
  }

  // A run that cannot save its marker is recorded as failed at once, and holds nothing.
  lemma {:induction false} UnsavedIsRecorded(w: World, id: nat, run: nat, at: int)
    requires Inv(w) && Enabled(w, RunNow(id, run, at, false)) && id in w.s.jobs.table && id !in w.s.inFlight
    ensures var n := Next(w, RunNow(id, run, at, false));
            && run in n.outcomes && n.outcomes[run] == Failed && id !in n.s.inFlight && n.s.disk == w.s.disk
            && id in n.s.jobs.table && n.s.jobs.table[id] == w.s.jobs.table[id].(lastStatus := Some(Failed))
  {
    UnsavedKeeps(w, run, id, w.s.jobs.table[id].rev, Manual, at);
    RecordedKeeps(w, run, id, w.s.jobs.table[id].rev, Manual);
  }

  // A marker names its job, and the one in the file a job that was in progress when it was written.
  ghost predicate MarkersNamed(w: World) {
    && (forall id :: id in w.s.marks.table ==> w.s.marks.table[id].job == id)
    && (w.s.disk.running.Some? ==> w.s.disk.running.value.job in w.saved)
  }

  lemma {:induction false} OldestNamed(marks: Marks, order: seq<nat>)
    requires forall id :: id in marks.table ==> marks.table[id].job == id
    ensures Oldest(marks, order).Some? ==> Oldest(marks, order).value.job in marks.table
  {
  }

  lemma {:induction false} WrittenNamed(w: World, s: Scheduler, saves: bool)
    requires MarkersNamed(w) && MarkerSound(s) && (forall id :: id in s.marks.table ==> s.marks.table[id].job == id)
    requires s.disk == if saves then Saved(s.jobs, s.running) else w.s.disk
    ensures MarkersNamed(Written(w, s, saves))
  {
    OldestNamed(s.marks, s.marks.order);
  }

  lemma {:induction false} BeginMarks(s: Scheduler, run: nat, id: nat, rev: nat, source: Source, at: int, saves: bool)
    requires s.runs.Valid()
    ensures var b := Begin(s, run, id, rev, source, at, saves);
            && b.disk == (if saves then Saved(b.jobs, b.running) else s.disk)
            && (forall k :: k in b.marks.table ==>
                  if k == id then b.marks.table[k] == Marker(id, at)
                  else k in s.marks.table && b.marks.table[k] == s.marks.table[k])
  {
  }

  lemma {:induction false} BeginSound(w: World, run: nat, id: nat, rev: nat, source: Source, at: int, saves: bool)
    requires Inv(w) && run !in w.used && id !in w.s.inFlight
    ensures MarkerSound(Begin(w.s, run, id, rev, source, at, saves))
  {
    StartKeeps(w, run, id, rev, source, at, saves);
  }

  lemma {:induction false} StartedNamed(w: World, b: Scheduler, id: nat, at: int, saves: bool)
    requires MarkersNamed(w) && MarkerSound(b) && b.disk == (if saves then Saved(b.jobs, b.running) else w.s.disk)
    requires forall k :: k in b.marks.table ==>
      if k == id then b.marks.table[k] == Marker(id, at) else k in w.s.marks.table && b.marks.table[k] == w.s.marks.table[k]
    ensures MarkersNamed(Written(w, b, saves))
  {
    WrittenNamed(w, b, saves);
  }

  lemma {:induction false} StartNamed(w: World, run: nat, id: nat, rev: nat, source: Source, at: int, saves: bool)
    requires Inv(w) && MarkersNamed(w) && run !in w.used && id !in w.s.inFlight
    ensures MarkersNamed(Written(w, Begin(w.s, run, id, rev, source, at, saves), saves))
  {
    BeginMarks(w.s, run, id, rev, source, at, saves);
    BeginSound(w, run, id, rev, source, at, saves);
    StartedNamed(w, Begin(w.s, run, id, rev, source, at, saves), id, at, saves);
  }

  lemma {:induction false} StepNamed(w: World, e: Event)
    requires Inv(w) && MarkersNamed(w) && Enabled(w, e)
    ensures MarkersNamed(Next(w, e))
  {
    StepKeeps(w, e);
    match e {
      case RunNow(id, run, at, saves) =>
        if id in w.s.jobs.table && id !in w.s.inFlight {
          StartNamed(w, run, id, w.s.jobs.table[id].rev, Manual, at, saves);
        }
      case PassStepped(late, run, at, saves) =>
        var (id, rev) := w.pass.value.due[w.pass.value.pos];
        if id !in w.s.inFlight {
          StartNamed(w, run, id, rev, Tick, at, saves);
        }
      case RunNoted(id, rev, at, saves) => WrittenNamed(w, Noted(w.s, id, rev, at, saves), saves);
      case PassClosed(late, saves) =>
        if w.pass.value.handled > 0 {
          WrittenNamed(w, Save(w.s, saves), saves);
        }
      case Edited(jobs, saves) => WrittenNamed(w, Save(w.s.(jobs := jobs), saves), saves);
      case Consumed(saves) =>
        if w.s.interrupted.Some? {
          WrittenNamed(w, Save(w.s.(interrupted := None), saves), saves);
        }
      case _ =>
    }
  }

  lemma {:induction false} HistoryNamed(w: World, events: seq<Event>, last: World)
    requires Inv(w) && MarkersNamed(w) && History(w, events, last)
    ensures MarkersNamed(last)
    decreases |events|
  {
    if events != [] {
      StepKeeps(w, events[0]);
      StepNamed(w, events[0]);
      HistoryNamed(Next(w, events[0]), events[1..], last);
    }
  }

  // The word a death leaves names a job that was in progress when the file was last written.
  lemma {:induction false} DeathNamesJob(jobs: Jobs, offset: int, events: seq<Event>, w: World)
    requires History(New(jobs, offset), events, w) && Next(w, Died).s.interrupted.Some?
    ensures Next(w, Died).s.interrupted.value.job in w.saved
  {
    HistoryNamed(New(jobs, offset), events, w);
  }

  // What anything but an edit does to a row leaves its schedule alone, unless it is the end of a tick's own run.
  ghost predicate SameTimes(a: Jobs, b: Jobs) {
    && b.table.Keys == a.table.Keys
    && forall id :: id in a.table ==>
         && b.table[id].nextRunAt == a.table[id].nextRunAt && b.table[id].rev == a.table[id].rev
         && b.table[id].enabled == a.table[id].enabled && b.table[id].schedule == a.table[id].schedule
  }

  lemma {:induction false} FinishTimes(s: Scheduler, id: nat, run: nat, status: Status)
    requires run in s.runs.table
    ensures SameTimes(s.jobs, Finish(s, id, run, status).jobs)
  {
  }

  lemma {:induction false} BeginTimes(s: Scheduler, run: nat, id: nat, rev: nat, source: Source, at: int, saves: bool)
    requires s.runs.Valid()
    ensures var b := Begin(s, run, id, rev, source, at, saves);
            SameTimes(s.jobs, b.jobs) && (b.disk == s.disk || (saves && b.disk.jobs == b.jobs))
  {
    FinishTimes(Marking(s, run, id, rev, source, at), id, run, Failed);
  }

  lemma {:induction false} ManualRunKeepsSchedule(w: World, e: Event)
    requires Enabled(w, e) && !e.Edited? && !e.Died? && !e.PassResumed?
    ensures SameTimes(w.s.jobs, Next(w, e).s.jobs)
    ensures Next(w, e).s.disk == w.s.disk || Next(w, e).s.disk.jobs == Next(w, e).s.jobs
  {
    match e {
      case RunNow(id, run, at, saves) =>
        if id in w.s.jobs.table {
          BeginTimes(w.s, run, id, w.s.jobs.table[id].rev, Manual, at, saves);
        }
      case PassStepped(late, run, at, saves) =>
        var (id, rev) := w.pass.value.due[w.pass.value.pos];
        BeginTimes(w.s, run, id, rev, Tick, at, saves);
      case RunEnded(id, status) => FinishTimes(w.s, id, w.s.inFlight[id], status);
      case _ =>
    }
  }

  // Run by a tick at `now` and rescheduled after it, by its schedule: the next run is later exactly if that moves on.
  ghost predicate Moved(row: Job, now: int, offset: int) {
    if row.enabled then
      && row.nextRunAt.Some? && NextAfter(row.schedule, now, offset, row.nextRunAt.value)
      && (row.nextRunAt.value > now <==> MovesOnFrom(row.schedule, now, offset))
    else row.nextRunAt == None
  }

  // The end of a tick's run moves the job's next run past the tick, exactly if its schedule moves on. If there is no
  // date to move it to, the row is due as before and the pass is over. It touches no row that was replaced meanwhile,
  // and no other row.
  lemma {:induction false} ResumedReschedules(w: World, row: Job)
    requires Enabled(w, PassResumed(row)) && 0 <= w.pass.value.now <= MAX_DATE
    ensures var p, n := w.pass.value, Next(w, PassResumed(row)); var (id, rev) := p.due[p.pos]; var jobs := n.s.jobs.table;
            && n.s == w.s.(jobs := n.s.jobs) && jobs.Keys == w.s.jobs.table.Keys
            && (forall j :: j in jobs && (j != id || w.s.jobs.table[id].rev != rev) ==> jobs[j] == w.s.jobs.table[j])
            && (n.pass.Some? <==> Reschedules(row, p.now, w.offset))
            && (id in jobs && w.s.jobs.table[id].rev == rev ==>
                  && jobs[id].rev == rev && jobs[id].schedule == row.schedule && jobs[id].enabled == row.enabled
                  && jobs[id].lastRunAt == Some(p.now) && jobs[id].lastStatus == row.lastStatus
                  && (n.pass.Some? ==> Moved(jobs[id], p.now, w.offset))
                  && (n.pass.None? ==> jobs[id].nextRunAt == row.nextRunAt && !MovesOnFrom(row.schedule, p.now, w.offset)))
  {
    NextRunIsLaterIff(row.schedule, w.pass.value.now, w.offset);
    if ComputeNextRun(row.schedule, w.pass.value.now, w.offset).Some? {
      NextRunIs(row.schedule, w.pass.value.now, w.offset);
    }
  }

  ghost predicate RevsKnown(jobs: Jobs, due: seq<(nat, nat)>) {
    forall d :: d in due ==> d.0 in jobs.table && jobs.table[d.0].rev == d.1
  }

  // What a pass has done so far: every row is as it was when the pass began, or was run and moved past the pass.
  ghost predicate PassSound(w: World) {
    w.pass.Some? ==>
      var p, jobs := w.pass.value, w.s.jobs.table;
      && 0 <= p.now <= MAX_DATE && jobs.Keys == p.before.Keys
      && RevsKnown(w.s.jobs, p.due)
      && (forall j :: j in jobs ==>
            if j in p.ran then Moved(jobs[j], p.now, w.offset) else jobs[j].nextRunAt == p.before[j])
  }

  lemma {:induction false} RevsAreKnown(jobs: Jobs, ids: seq<nat>)
    ensures RevsKnown(jobs, Revs(jobs, ids))
  {
    if ids != [] {
      RevsAreKnown(jobs, ids[1..]);
    }
  }

  lemma {:induction false} PassBeginsSound(w: World, now: int)
    requires Enabled(w, PassBegan(now))
    ensures PassSound(Next(w, PassBegan(now)))
  {
    RevsAreKnown(w.s.jobs, DueJobs(w.s.jobs, now));
    assert Times(w.s.jobs).Keys == w.s.jobs.table.Keys;
  }

  lemma {:induction false} PassResumesSound(w: World, row: Job)
    requires Enabled(w, PassResumed(row)) && PassSound(w)
    ensures PassSound(Next(w, PassResumed(row)))
  {
    ResumedReschedules(w, row);
    var p := w.pass.value;
    assert p.due[p.pos] in p.due;
  }

  lemma {:induction false} SameTimesSound(w: World, n: World)
    requires PassSound(w) && SameTimes(w.s.jobs, n.s.jobs) && n.offset == w.offset
    requires n.pass.None? || (w.pass.Some? && n.pass.value.ran == w.pass.value.ran && n.pass.value.now == w.pass.value.now
                              && n.pass.value.due == w.pass.value.due && n.pass.value.before == w.pass.value.before)
    ensures PassSound(n)
  {
  }

  lemma {:induction false} PassKeeps(w: World, e: Event)
    requires Enabled(w, e) && !e.Edited? && PassSound(w)
    ensures PassSound(Next(w, e))
  {
    if e.PassBegan? {
      PassBeginsSound(w, e.now);
    } else if e.PassResumed? {
      PassResumesSound(w, e.row);
    } else if !e.Died? {
      ManualRunKeepsSchedule(w, e);
      SameTimesSound(w, Next(w, e));
    }
  }

  // In a history without edits, as long as a pass goes on each of its due jobs is either run and moved, strictly after
  // the pass exactly if its schedule moves on, or left due with its time unchanged.
  lemma {:induction false} NoFireMoved(w: World, events: seq<Event>, last: World)
    requires PassSound(w) && History(w, events, last) && forall e :: e in events ==> !e.Edited?
    ensures PassSound(last)
    decreases |events|
  {
    if events != [] {
      assert events[0] in events;
      PassKeeps(w, events[0]);
      NoFireMoved(Next(w, events[0]), events[1..], last);
    }
  }

  // A job that no pass has run is still due when it was, in memory and in the file.
  ghost predicate Unfired(w: World, base: map<nat, Option<int>>) {
    forall j :: j in base && j !in w.fired ==>
      && j in w.s.jobs.table && w.s.jobs.table[j].nextRunAt == base[j]
      && j in w.s.disk.jobs.table && w.s.disk.jobs.table[j].nextRunAt == base[j]
  }

  lemma {:induction false} ResumedOthers(w: World, row: Job)
    requires Enabled(w, PassResumed(row))
    ensures var n, p := Next(w, PassResumed(row)), w.pass.value;
            && n.s == w.s.(jobs := n.s.jobs) && n.s.jobs.table.Keys == w.s.jobs.table.Keys
            && n.fired == w.fired + {p.due[p.pos].0}
            && forall j :: j in w.s.jobs.table && j !in n.fired ==> n.s.jobs.table[j] == w.s.jobs.table[j]
  {
  }

  lemma {:induction false} UnfiredKeeps(w: World, e: Event, base: map<nat, Option<int>>)
    requires Enabled(w, e) && !e.Edited? && Unfired(w, base)
    ensures Unfired(Next(w, e), base)
  {
    if e.PassResumed? {
      ResumedOthers(w, e.row);
    } else if !e.Died? {
      ManualRunKeepsSchedule(w, e);
    }
  }

  // No fire is lost: over passes, manual runs, failed saves and deaths, a job keeps its time until a pass has run it.
  lemma {:induction false} NoFireLost(w: World, events: seq<Event>, last: World, base: map<nat, Option<int>>)
    requires Unfired(w, base) && History(w, events, last) && forall e :: e in events ==> !e.Edited?
    ensures Unfired(last, base)
    decreases |events|
  {
    if events != [] {
      assert events[0] in events;
      UnfiredKeeps(w, events[0], base);
      NoFireLost(Next(w, events[0]), events[1..], last, base);
    }
  }

  // ---- a job whose next run is no date ------------------------------------------------------

  // Due at t before all others, on a schedule that never has a next run.
  ghost predicate Stuck(jobs: Jobs, x: nat, t: int, offset: int) {
    && jobs.Valid() && x in jobs.table && jobs.table[x].enabled && jobs.table[x].nextRunAt == Some(t)
    && (forall k :: k in jobs.table && k != x ==> Sooner(Some(t), jobs.table[k].nextRunAt))
    && forall now :: 0 <= now <= MAX_DATE ==> ComputeNextRun(jobs.table[x].schedule, now, offset).None?
  }

  ghost predicate Idle(w: World) {
    Inv(w) && w.pass.None? && w.s.inFlight == map[]
  }

  lemma {:induction false} SameTimesStuck(a: Jobs, b: Jobs, x: nat, t: int, offset: int)
    requires Stuck(a, x, t, offset) && SameTimes(a, b) && b.Valid()
    ensures Stuck(b, x, t, offset)
  {
  }

  lemma {:induction false} StuckIsFirst(jobs: Jobs, x: nat, t: int, offset: int, now: int)
    requires Stuck(jobs, x, t, offset) && t <= now
    ensures var due := Revs(jobs, DueJobs(jobs, now)); due != [] && due[0] == (x, jobs.table[x].rev)
  {
    DueJobsAre(jobs, now);
    var d := DueJobs(jobs, now);
    assert x in d;
    var j :| 0 <= j < |d| && d[j] == x;
    var k := d[0];
    assert k in d && (j > 0 ==> !Sooner(TimeOf(jobs, x), TimeOf(jobs, k)));
    assert k != x ==> Sooner(TimeOf(jobs, x), TimeOf(jobs, k));
  }

  lemma {:induction false} StuckOpens(w: World, x: nat, t: int, now: int) returns (p: World)
    requires Idle(w) && Stuck(w.s.jobs, x, t, w.offset) && 0 <= now <= MAX_DATE && t <= now
    ensures Enabled(w, PassBegan(now)) && p == Next(w, PassBegan(now)) && p == w.(pass := p.pass) && Inv(p)
    ensures p.pass.Some? && p.pass.value.run.None? && p.pass.value.pos == 0 && p.pass.value.now == now
    ensures p.pass.value.due != [] && p.pass.value.due[0] == (x, w.s.jobs.table[x].rev)
  {
    StuckIsFirst(w.s.jobs, x, t, w.offset, now);
    p := Next(w, PassBegan(now));
  }

  ghost function Starting(p: World, x: nat, run: nat): (b: World)
    requires p.s.runs.Valid() && p.pass.Some? && x in p.s.jobs.table
  {
    Written(p, Begin(p.s, run, x, p.s.jobs.table[x].rev, Tick, p.pass.value.now, true), true)
      .(used := p.used + {run}, outcomes := Outcomes(p, run, true), pass := Some(p.pass.value.(run := Some(run))))
  }

  lemma {:induction false} PassStarts(p: World, x: nat, run: nat)
    requires p.pass.Some? && p.pass.value.run.None? && p.pass.value.pos == 0 && p.s.runs.Valid()
    requires x in p.s.jobs.table && x !in p.s.inFlight && run !in p.used
    requires p.pass.value.due != [] && p.pass.value.due[0] == (x, p.s.jobs.table[x].rev)
    ensures var step := PassStepped(false, run, p.pass.value.now, true);
            Enabled(p, step) && Next(p, step) == Starting(p, x, run)
  {
  }

  lemma {:induction false} StartingRuns(p: World, x: nat, run: nat)
    requires Inv(p) && p.pass.Some? && x in p.s.jobs.table && p.s.jobs.Valid() && p.s.inFlight == map[] && run !in p.used
    ensures var b := Starting(p, x, run);
            && b.s.inFlight == map[x := run] && run in b.s.runs.table && b.s.jobs == p.s.jobs
            && b == p.(s := b.s, saved := {x}, used := p.used + {run}, pass := Some(p.pass.value.(run := Some(run))))
  {
    RecordedKeeps(p, run, x, p.s.jobs.table[x].rev, Tick);
    assert map[x := run].Keys == {x};
  }

  // Its run begins.
  lemma {:induction false} StuckBegins(p: World, x: nat, run: nat) returns (b: World)
    requires Inv(p) && p.pass.Some? && p.pass.value.run.None? && p.pass.value.pos == 0
    requires p.s.jobs.Valid() && x in p.s.jobs.table && p.s.inFlight == map[] && run !in p.used
    requires p.pass.value.due != [] && p.pass.value.due[0] == (x, p.s.jobs.table[x].rev)
    ensures var step := PassStepped(false, run, p.pass.value.now, true); Enabled(p, step) && b == Next(p, step) && Inv(b)
    ensures b == p.(s := b.s, saved := {x}, used := p.used + {run}, pass := Some(p.pass.value.(run := Some(run))))
    ensures b.s.inFlight == map[x := run] && run in b.s.runs.table && b.s.jobs == p.s.jobs
  {
    b := Starting(p, x, run);
    PassStarts(p, x, run);
    StartingRuns(p, x, run);
    StartKeeps(p, run, x, p.s.jobs.table[x].rev, Tick, p.pass.value.now, true);
  }

  lemma {:induction false} StuckEnds(b: World, x: nat, run: nat) returns (e: World)
    requires Inv(b) && b.s.inFlight == map[x := run] && run in b.s.runs.table && b.s.jobs.Valid()
    ensures Enabled(b, RunEnded(x, Ok)) && e == Next(b, RunEnded(x, Ok)) && Inv(e)
    ensures e.s.inFlight == map[] && SameTimes(b.s.jobs, e.s.jobs) && e.s.jobs.Valid()
    ensures e.used == b.used && e.fired == b.fired && e.offset == b.offset && e.pass == b.pass && e.saved == b.saved
  {
    e := Next(b, RunEnded(x, Ok));
    StepKeeps(b, RunEnded(x, Ok));
    FinishKeeps(b.s, x, run, Ok);
    FinishTimes(b.s, x, run, Ok);
    assert b.s.inFlight - {x} == map[];
  }

  // What the run leaves behind: the pass is over, the job is due as before, and no other job was considered.
  lemma {:induction false} StuckThrows(e: World, x: nat, t: int, run: nat) returns (row: Job, last: World)
    requires Inv(e) && e.pass.Some? && e.s.inFlight == map[]
    requires e.pass.value.run == Some(run) && e.pass.value.pos == 0 && 0 <= e.pass.value.now <= MAX_DATE
    requires Stuck(e.s.jobs, x, t, e.offset)
    requires e.pass.value.due != [] && e.pass.value.due[0] == (x, e.s.jobs.table[x].rev)
    ensures Enabled(e, PassResumed(row)) && last == Next(e, PassResumed(row))
    ensures Idle(last) && SameTimes(e.s.jobs, last.s.jobs) && last.s.jobs.Valid()
    ensures last.used == e.used && last.fired == e.fired + {x} && last.offset == e.offset && last.saved == e.saved
  {
    row := e.s.jobs.table[x];
    last := Next(e, PassResumed(row));
    assert ComputeNextRun(row.schedule, e.pass.value.now, e.offset).None?;
    assert last.s == e.s.(jobs := e.s.jobs.Set(x, row.(lastRunAt := Some(e.pass.value.now))));
  }

  lemma {:induction false} StuckPasses(w: World, x: nat, t: int, run: nat, now: int) returns (events: seq<Event>, last: World)
    requires Idle(w) && Stuck(w.s.jobs, x, t, w.offset) && run !in w.used && 0 <= now <= MAX_DATE && t <= now
    ensures |events| == 4 && Passes(events) == 1 && History(w, events, last)
    ensures Idle(last) && SameTimes(w.s.jobs, last.s.jobs) && Stuck(last.s.jobs, x, t, last.offset)
    ensures last.used == w.used + {run} && last.fired == w.fired + {x} && last.offset == w.offset && last.saved == {x}
  {
    var p := StuckOpens(w, x, t, now);
    var b := StuckBegins(p, x, run);
    var e := StuckEnds(b, x, run);
    SameTimesStuck(w.s.jobs, e.s.jobs, x, t, w.offset);
    var row;
    row, last := StuckThrows(e, x, t, run);
    SameTimesChain(w.s.jobs, e.s.jobs, last.s.jobs);
    SameTimesStuck(w.s.jobs, last.s.jobs, x, t, w.offset);
    events := StuckEvents(w, b, e, last, x, run, now, row);
  }

  lemma {:induction false} SameTimesChain(a: Jobs, b: Jobs, c: Jobs)
    requires SameTimes(a, b) && SameTimes(b, c)
    ensures SameTimes(a, c)
  {
  }

  lemma {:induction false} StuckEvents(w: World, b: World, e: World, last: World, x: nat, run: nat, now: int, row: Job)
    returns (events: seq<Event>)
    requires Enabled(w, PassBegan(now)) && Enabled(Next(w, PassBegan(now)), PassStepped(false, run, now, true))
    requires b == Next(Next(w, PassBegan(now)), PassStepped(false, run, now, true))
    requires Enabled(b, RunEnded(x, Ok)) && e == Next(b, RunEnded(x, Ok))
    requires Enabled(e, PassResumed(row)) && last == Next(e, PassResumed(row))
    ensures |events| == 4 && Passes(events) == 1 && History(w, events, last)
  {
    var step := PassStepped(false, run, now, true);
    events := [PassBegan(now), step, RunEnded(x, Ok), PassResumed(row)];
    FourSteps(w, PassBegan(now), step, RunEnded(x, Ok), PassResumed(row));
    FourPasses(events);
  }

  function Passes(events: seq<Event>): (n: nat) {
    if events == [] then 0 else (if events[0].PassBegan? then 1 else 0) + Passes(events[1..])
  }

  lemma {:induction false} PassesThen(first: seq<Event>, second: seq<Event>)
    ensures Passes(first + second) == Passes(first) + Passes(second)
  {
    if first == [] {
      assert first + second == second;
    } else {
      PassesThen(first[1..], second);
      assert (first + second)[1..] == first[1..] + second;
    }
  }

  lemma {:induction false} FourPasses(e: seq<Event>)
    requires |e| == 4 && e[0].PassBegan? && !e[1].PassBegan? && !e[2].PassBegan? && !e[3].PassBegan?
    ensures Passes(e) == 1
  {
    assert e[1..][1..] == e[2..] && e[2..][1..] == e[3..] && e[3..][1..] == [];
    assert Passes(e[3..]) == Passes([]);
    assert Passes(e[2..]) == Passes(e[3..]);
    assert Passes(e[1..]) == Passes(e[2..]);
  }

  lemma {:induction false} FourSteps(w: World, a: Event, b: Event, c: Event, d: Event)
    requires Enabled(w, a) && Enabled(Next(w, a), b) && Enabled(Next(Next(w, a), b), c)
    requires Enabled(Next(Next(Next(w, a), b), c), d)
    ensures History(w, [a, b, c, d], Next(Next(Next(Next(w, a), b), c), d))
  {
    var last := Next(Next(Next(Next(w, a), b), c), d);
    assert [d][1..] == [] && [c, d][1..] == [d] && [b, c, d][1..] == [c, d] && [a, b, c, d][1..] == [b, c, d];
    assert History(last, [], last);
    assert History(Next(Next(Next(w, a), b), c), [d], last);
    assert History(Next(Next(w, a), b), [c, d], last);
    assert History(Next(w, a), [b, c, d], last);
  }

  lemma {:induction false} HistoryAfter(w: World, e: Event, events: seq<Event>, last: World)
    requires Enabled(w, e) && History(Next(w, e), events, last)
    ensures History(w, [e] + events, last)
  {
    assert ([e] + events)[1..] == events;
  }

  lemma {:induction false} HistoryThen(w: World, first: seq<Event>, mid: World, second: seq<Event>, last: World)
    requires History(w, first, mid) && History(mid, second, last)
    ensures History(w, first + second, last)
    decreases |first|
  {
    if first == [] {
      assert first + second == second;
    } else {
      var e, rest := first[0], first[1..];
      HistoryThen(Next(w, e), rest, mid, second, last);
      HistoryAfter(w, e, rest + second, last);
      assert first + second == [e] + (rest + second);
    }
  }

  lemma {:induction false} NewIsIdle(jobs: Jobs, offset: int)
    ensures var w := New(jobs, offset);
            && Idle(w) && w.s.jobs == jobs && w.used == {} && w.fired == {} && w.offset == offset && History(w, [], w)
  {
  }

  // However many passes there are, a due job with no date to move to is run again in each, and no other due job is
  // ever considered.
  lemma {:induction false} StuckJobBlocks(jobs: Jobs, x: nat, t: int, offset: int, now: int, n: nat)
    returns (events: seq<Event>, last: World)
    requires Stuck(jobs, x, t, offset) && 0 <= now <= MAX_DATE && t <= now
    ensures History(New(jobs, offset), events, last) && Passes(events) == n
    ensures |last.used| == n && last.fired <= {x} && SameTimes(jobs, last.s.jobs) && (n > 0 ==> last.saved == {x})
    ensures Idle(last) && Stuck(last.s.jobs, x, t, offset) && last.offset == offset && forall r :: r in last.used ==> r < n
  {
    if n == 0 {
      NewIsIdle(jobs, offset);
      events, last := [], New(jobs, offset);
    } else {
      var before, mid := StuckJobBlocks(jobs, x, t, offset, now, n - 1);
      assert n - 1 !in mid.used;
      var pass;
      pass, last := StuckPasses(mid, x, t, n - 1, now);
      events := before + pass;
      HistoryThen(New(jobs, offset), before, mid, pass, last);
      PassesThen(before, pass);
      SameTimesChain(jobs, mid.s.jobs, last.s.jobs);
    }
  }

  lemma {:induction false} DeathAfterRun(w: World)
    requires Inv(w) && w.saved != {}
    ensures Next(w, Died).s.interrupted.Some?
  {
  }

  // An interval of ten million million seconds, due just before another job.
  lemma {:induction false} LongIntervalIsStuck() returns (jobs: Jobs)
    ensures jobs.table.Keys == {0, 1} && Due(jobs.table[0], 2) && Due(jobs.table[1], 2) && Stuck(jobs, 0, 1, 0)
  {
    var first := Job(0, true, Schedule(10_000_000_000_000_000, NoDaily), Some(1), None, None);
    var second := Job(0, true, Schedule(60_000, NoDaily), Some(2), None, None);
    jobs := InsertionMap([0, 1], map[0 := first, 1 := second]);
  }

  // Such a job blocks the other one. And as its passes never write the file after a run, a death leaves word of one
  // although nothing was running.
  lemma {:induction false} LongIntervalBlocks(n: nat) returns (jobs: Jobs, events: seq<Event>, last: World)
    ensures jobs.table.Keys == {0, 1} && Due(jobs.table[0], 2) && Due(jobs.table[1], 2)
    ensures History(New(jobs, 0), events, last) && Passes(events) == n
    ensures |last.used| == n && last.fired <= {0} && SameTimes(jobs, last.s.jobs)
    ensures last.s.inFlight == map[] && (n > 0 ==> Next(last, Died).s.interrupted.Some?)
  {
    jobs := LongIntervalIsStuck();
    events, last := StuckJobBlocks(jobs, 0, 1, 0, 2, n);
    if n > 0 {
      DeathAfterRun(last);
    }
  }

  // ---- the scheduler ------------------------------------------------------------------------

  class JobsFile {
    var saved: Saved

    constructor (saved: Saved)
      ensures this.saved == saved
    {
      this.saved := saved;
    }
  }

  class FileBackedCronScheduler {
    var jobs: Jobs
    var inFlight: map<nat, nat>
    var runs: Runs
    var marks: Marks
    var running: Option<Marker>
    var interrupted: Option<Marker>
    const file: JobsFile

    ghost function View(): (s: Scheduler)
      reads this, file
    {
      Scheduler(jobs, inFlight, runs, marks, running, interrupted, file.saved)
    }

    constructor (file: JobsFile)
      ensures this.file == file && View() == Load(file.saved)
    {
      this.file := file;
      jobs, inFlight, runs, marks := file.saved.jobs, map[], InsertionMap([], map[]), InsertionMap([], map[]);
      running, interrupted := None, file.saved.running;
    }

    method Store(works: bool)
      modifies file
      ensures View() == Save(old(View()), works)
    {
      if works {
        file.saved := Saved(jobs, running);
      }
    }

    method OldestRunning() returns (oldest: Option<Marker>)
      ensures oldest == Oldest(marks, marks.order)
    {
      oldest := None;
      for i := 0 to |marks.order|
        invariant oldest == Oldest(marks, marks.order[..i])
      {
        assert marks.order[..i + 1][..i] == marks.order[..i];
        var id := marks.order[i];
        if id in marks.table && (oldest.None? || marks.table[id].at < oldest.value.at) {
          oldest := Some(marks.table[id]);
        }
      }
      assert marks.order[..|marks.order|] == marks.order;
    }

    method NoteJobStart(id: nat, at: int, works: bool)
      modifies this`marks, this`running, file
      ensures View() == Save(Marked(old(View()), old(marks).Set(id, Marker(id, at))), works)
    {
      marks := marks.Set(id, Marker(id, at));
      running := OldestRunning();
      Store(works);
    }

    method NoteJobEnd(id: nat)
      modifies this`marks, this`running
      ensures View() == Marked(old(View()), old(marks).Delete(id))
    {
      marks := marks.Delete(id);
      running := OldestRunning();
    }

    method RecordRun(run: nat, r: Run)
      requires runs.Valid()
      modifies this`runs
      ensures runs == Evicted(old(runs).Set(run, r))
    {
      runs := runs.Set(run, r);
      ghost var added := runs;
      while |runs.order| > MAX_RUNS
        invariant runs.Valid() && Evicted(runs) == Evicted(added)
        decreases |runs.order|
      {
        var stale := FirstFinished(runs, runs.order);
        if stale.None? {
          break;
        }
        runs := runs.Delete(stale.value);
      }
    }

    method EndRun(id: nat, run: nat, status: Status)
      requires run in runs.table
      modifies this
      ensures View() == Finish(old(View()), id, run, status)
    {
      var rev := runs.table[run].rev;
      runs := runs.Set(run, runs.table[run].(status := status));
      inFlight := inFlight - {id};
      NoteJobEnd(id);
      if id in jobs.table && jobs.table[id].rev == rev {
        jobs := jobs.Set(id, jobs.table[id].(lastStatus := Some(status)));
      }
    }

    // The part of a run before its handler; called tells whether the handler is called.
    method StartRun(run: nat, id: nat, rev: nat, source: Source, at: int, saves: bool) returns (called: bool)
      requires runs.Valid()
      modifies this, file
      ensures View() == Begin(old(View()), run, id, rev, source, at, saves) && called == saves
    {
      RecordRun(run, Run(id, rev, source, Running));
      inFlight := inFlight[id := run];
      NoteJobStart(id, at, saves);
      if !saves {
        EndRun(id, run, Failed);
      }
      return saves;
    }

    method RunJobNow(id: nat, run: nat, at: int, saves: bool) returns (started: bool)
      requires runs.Valid()
      modifies this, file
      ensures started <==> id in old(jobs).table && id !in old(inFlight)
      ensures View() == if started then Begin(old(View()), run, id, old(jobs).table[id].rev, Manual, at, saves)
                        else old(View())
    {
      if id !in jobs.table || id in inFlight {
        return false;
      }
      var called := StartRun(run, id, jobs.table[id].rev, Manual, at, saves);
      return true;
    }

    // done: the pass goes on.
    method Reschedule(id: nat, row: Job, now: int, offset: int) returns (done: bool)
      requires id in jobs.table && jobs.table[id].rev == row.rev ==> row == jobs.table[id]
      modifies this`jobs
      ensures View() == Rescheduled(old(View()), id, row, now, offset)
      ensures done == Reschedules(row, now, offset)
    {
      jobs := SetRow(jobs, id, row.rev, row.(lastRunAt := Some(now)));
      var next := None;
      if row.enabled {
        next := ComputeNextRun(row.schedule, now, offset);
        if next.None? {
          return false;
        }
      }
      jobs := SetRow(jobs, id, row.rev, row.(lastRunAt := Some(now), nextRunAt := next));
      return true;
    }

    method ConsumeInterruption(saves: bool) returns (marker: Option<Marker>)
      modifies this`interrupted, file
      ensures marker == old(interrupted) && interrupted == None
      ensures file.saved == if marker.Some? && saves then Saved(jobs, running) else old(file.saved)
    {
      marker := interrupted;
      interrupted := None;
      if marker.Some? {
        Store(saves);
      }
    }
  }
}