// The ledger of what each model call cost, pruned lazily as it grows: src/credit-ledger.js.

module CreditLedger {
  import opened Sorting

  const DAY_MS: int := 86_400_000

  // bytes is the length of the row's line in the file.
  datatype Row = Row(at: int, bytes: nat, data: nat)

  // The file, the size at which it is next compacted, and the time of the last pruning.
  datatype Ledger = Ledger(rows: seq<Row>, next: nat, lastPruneAt: int)

  datatype Limits = Limits(retentionDays: int, compactBytes: nat)

  // The start of the day, in universal time, that is days - 1 days before now.
  function Cutoff(days: int, now: int): (t: int) {
    now - now % DAY_MS - (days - 1) * DAY_MS
  }

  function Since(rows: seq<Row>, cutoff: int): (r: seq<Row>)
    ensures |r| <= |rows|
  {
    if rows == [] then []
    else Since(rows[..|rows| - 1], cutoff) + (if rows[|rows| - 1].at >= cutoff then [rows[|rows| - 1]] else [])
  }

  function Before(rows: seq<Row>, cutoff: int): (r: seq<Row>) {
    if rows == [] then []
    else Before(rows[..|rows| - 1], cutoff) + (if rows[|rows| - 1].at < cutoff then [rows[|rows| - 1]] else [])
  }

  function Size(rows: seq<Row>): (n: nat) {
    if rows == [] then 0 else Size(rows[..|rows| - 1]) + rows[|rows| - 1].bytes
  }

  function Larger(a: nat, b: nat): (r: nat) {
    if a < b then b else a
  }

  predicate DueByTime(l: Ledger, now: int) {
    now - l.lastPruneAt >= DAY_MS
  }

  predicate DueBySize(l: Ledger) {
    Size(l.rows) >= l.next
  }

  function Maintained(l: Ledger, limits: Limits, now: int): (r: Ledger) {
    if !DueBySize(l) && !DueByTime(l, now) then l
    else
      var kept := Since(l.rows, Cutoff(limits.retentionDays, now));
      Ledger(kept, Larger(limits.compactBytes, 2 * Size(kept)), now)
  }

  function Recorded(l: Ledger, row: Row, limits: Limits, now: int): (r: Ledger) {
    Maintained(l.(rows := l.rows + [row]), limits, now)
  }

  function Opened(rows: seq<Row>, limits: Limits): (l: Ledger) {
    Ledger(rows, limits.compactBytes, 0)
  }

  predicate Newer(a: Row, b: Row) {
    a.at > b.at
  }

  function Window(days: int, limits: Limits): (w: int) {
    var atLeast := if days > 1 then days else 1;
    if atLeast < limits.retentionDays then atLeast else limits.retentionDays
  }

  // What a query over these rows returns: those in the window, newest first.
  function Query(rows: seq<Row>, days: int, limits: Limits, now: int): (r: seq<Row>) {
    StableSort(Since(rows, Cutoff(Window(days, limits), now)), Newer)
  }

  // ---- runs ---------------------------------------------------------------------------------

  // all: every row ever recorded. dropped: those that were pruned. appended: the bytes appended. compacted: the file
  // sizes at the compactions that its size triggered. reopened: the file sizes found when a process opened it; found:
  // the last of them, until the first maintenance after it. latest: the latest clock reading; the clock may go back.
  datatype World = World(ledger: Ledger, all: seq<Row>, dropped: seq<Row>, appended: nat, compacted: nat, reopened: nat,
                         found: nat, latest: int)

  datatype Event = Append(row: Row, at: int) | Reopened

  function Next(w: World, e: Event, limits: Limits): (r: World) {
    match e
    case Append(row, at) =>
      var grown := w.ledger.(rows := w.ledger.rows + [row]);
      var due := DueBySize(grown) || DueByTime(grown, at);
      World(Recorded(w.ledger, row, limits, at), w.all + [row],
            if due then w.dropped + Before(grown.rows, Cutoff(limits.retentionDays, at)) else w.dropped,
            w.appended + row.bytes, if DueBySize(grown) then w.compacted + Size(grown.rows) else w.compacted, w.reopened,
            if due then 0 else w.found, if w.latest < at then at else w.latest)
    case Reopened =>
      var size := Size(w.ledger.rows);
      w.(ledger := Opened(w.ledger.rows, limits), reopened := w.reopened + size, found := size)
  }

  ghost predicate Run(w: World, events: seq<Event>, limits: Limits, last: World)
    decreases |events|
  {
    if events == [] then last == w else Run(Next(w, events[0], limits), events[1..], limits, last)
  }

  function New(limits: Limits, now: int): (w: World) {
    World(Opened([], limits), [], [], 0, 0, 0, 0, now)
  }

  // ---- the pruned ledger answers as the full log would --------------------------------------

  lemma {:induction false} CutoffAdvances(days: int, now: int, later: int)
    requires now <= later
    ensures Cutoff(days, now) <= Cutoff(days, later)
  {
    assert now / DAY_MS <= later / DAY_MS;
    assert now - now % DAY_MS == (now / DAY_MS) * DAY_MS && later - later % DAY_MS == (later / DAY_MS) * DAY_MS;
  }

  lemma {:induction false} CutoffShrinks(days: int, fewer: int, now: int)
    requires fewer <= days
    ensures Cutoff(days, now) <= Cutoff(fewer, now)
  {
    assert (days - 1) * DAY_MS >= (fewer - 1) * DAY_MS;
  }

  lemma {:induction false} SincePush(rows: seq<Row>, row: Row, cutoff: int)
    ensures Since(rows + [row], cutoff) == Since(rows, cutoff) + (if row.at >= cutoff then [row] else [])
  {
    assert (rows + [row])[..|rows|] == rows;
  }

  lemma {:induction false} SinceThen(a: seq<Row>, b: seq<Row>, cutoff: int)
    ensures Since(a + b, cutoff) == Since(a, cutoff) + Since(b, cutoff)
  {
    if b == [] {
      assert a + b == a;
    } else {
      var n := |b| - 1;
      SinceThen(a, b[..n], cutoff);
      assert (a + b)[..|a + b| - 1] == a + b[..n];
    }
  }

  ghost predicate AllBefore(rows: seq<Row>, cutoff: int) {
    forall r :: r in rows ==> r.at < cutoff
  }

  lemma {:induction false} BeforeIs(rows: seq<Row>, cutoff: int)
    ensures AllBefore(Before(rows, cutoff), cutoff)
    ensures forall r :: r in rows && r.at < cutoff ==> r in Before(rows, cutoff)
  {
    if rows != [] {
      BeforeIs(rows[..|rows| - 1], cutoff);
    }
  }

  lemma {:induction false} NoneSinceIff(rows: seq<Row>, cutoff: int)
    ensures Since(rows, cutoff) == [] <==> AllBefore(rows, cutoff)
  {
    if rows != [] {
      NoneSinceIff(rows[..|rows| - 1], cutoff);
      assert rows[|rows| - 1] in rows;
    }
  }

  lemma {:induction false} SplitLast(rows: seq<Row>, k: int)
    requires rows != []
    ensures var n := |rows| - 1;
            if rows[n].at >= k
            then Since(rows, k) == Since(rows[..n], k) + [rows[n]] && Before(rows, k) == Before(rows[..n], k)
            else Since(rows, k) == Since(rows[..n], k) && Before(rows, k) == Before(rows[..n], k) + [rows[n]]
  {
  }

  // Of the rows from c on, those before k are dropped and the others are kept.
  lemma {:induction false} SinceSplits(rows: seq<Row>, k: int, c: int)
    ensures |Since(rows, c)| == |Since(Since(rows, k), c)| + |Since(Before(rows, k), c)|
  {
    if rows != [] {
      var n := |rows| - 1;
      SinceSplits(rows[..n], k, c);
      SplitLast(rows, k);
      SplitLast(rows, c);
      SincePush(Since(rows[..n], k), rows[n], c);
      SincePush(Before(rows[..n], k), rows[n], c);
    }
  }

  lemma {:induction false} NoneLost(rows: seq<Row>, k: int, c: int)
    requires AllBefore(Before(rows, k), c)
    ensures Since(Since(rows, k), c) == Since(rows, c)
  {
    if rows != [] {
      var n := |rows| - 1;
      SplitLast(rows, k);
      SplitLast(rows, c);
      assert forall r :: r in Before(rows[..n], k) ==> r in Before(rows, k);
      NoneLost(rows[..n], k, c);
      SincePush(Since(rows[..n], k), rows[n], c);
      assert rows[n].at < k ==> rows[n] in Before(rows, k);
    }
  }

  // From any time c on, the file and the dropped rows account for all, and without dropped rows the file has them all.
  ghost predicate AccountsFrom(rows: seq<Row>, dropped: seq<Row>, all: seq<Row>, c: int) {
    && |Since(all, c)| == |Since(rows, c)| + |Since(dropped, c)|
    && (AllBefore(dropped, c) ==> Since(rows, c) == Since(all, c))
  }

  ghost predicate Accounts(w: World, limits: Limits) {
    && (forall c :: AccountsFrom(w.ledger.rows, w.dropped, w.all, c))
    && AllBefore(w.dropped, Cutoff(limits.retentionDays, w.latest))
  }

  lemma {:induction false} PushAccounts(rows: seq<Row>, dropped: seq<Row>, all: seq<Row>, row: Row, c: int)
    requires AccountsFrom(rows, dropped, all, c)
    ensures AccountsFrom(rows + [row], dropped, all + [row], c)
  {
    SincePush(rows, row, c);
    SincePush(all, row, c);
  }

  lemma {:induction false} PruneAccounts(rows: seq<Row>, dropped: seq<Row>, all: seq<Row>, k: int, c: int)
    requires AccountsFrom(rows, dropped, all, c)
    ensures AccountsFrom(Since(rows, k), dropped + Before(rows, k), all, c)
  {
    SinceSplits(rows, k, c);
    SinceThen(dropped, Before(rows, k), c);
    if AllBefore(dropped + Before(rows, k), c) {
      forall r | r in dropped ensures r.at < c {
        assert r in dropped + Before(rows, k);
      }
      forall r | r in Before(rows, k) ensures r.at < c {
        assert r in dropped + Before(rows, k);
      }
      NoneLost(rows, k, c);
    }
  }

  lemma {:induction false} AppendAccounts(w: World, row: Row, at: int, limits: Limits)
    requires Accounts(w, limits)
    ensures Accounts(Next(w, Append(row, at), limits), limits)
  {
    var n, cutoff := Next(w, Append(row, at), limits), Cutoff(limits.retentionDays, at);
    forall c ensures AccountsFrom(n.ledger.rows, n.dropped, n.all, c) {
      PushAccounts(w.ledger.rows, w.dropped, w.all, row, c);
      PruneAccounts(w.ledger.rows + [row], w.dropped, n.all, cutoff, c);
    }
    CutoffAdvances(limits.retentionDays, w.latest, n.latest);
    CutoffAdvances(limits.retentionDays, at, n.latest);
    BeforeIs(w.ledger.rows + [row], cutoff);
  }

  lemma {:induction false} RunAccounts(w: World, events: seq<Event>, limits: Limits, last: World)
    requires Accounts(w, limits) && Run(w, events, limits, last)
    ensures Accounts(last, limits)
    decreases |events|
  {
    if events != [] {
      if events[0].Append? {
        AppendAccounts(w, events[0].row, events[0].at, limits);
      }
      RunAccounts(Next(w, events[0], limits), events[1..], limits, last);
    }
  }

  // Over any run with any number of restarts and any clock: a query answers as it would from all rows ever recorded
  // exactly when every row that was dropped is older than its window.
  lemma {:induction false} AnswersInFullIff(limits: Limits, start: int, events: seq<Event>, w: World, days: int, now: int)
    requires Run(New(limits, start), events, limits, w)
    ensures Query(w.ledger.rows, days, limits, now) == Query(w.all, days, limits, now)
       <==> AllBefore(w.dropped, Cutoff(Window(days, limits), now))
  {
    var c := Cutoff(Window(days, limits), now);
    RunAccounts(New(limits, start), events, limits, w);
    assert AccountsFrom(w.ledger.rows, w.dropped, w.all, c);
    NoneSinceIff(w.dropped, c);
    StableSortLength(Since(w.ledger.rows, c));
    StableSortLength(Since(w.all, c));
  }

  // So no query made at the latest clock reading or after it misses anything, wherever the clock was in between.
  lemma {:induction false} PruningIsInvisible(limits: Limits, start: int, events: seq<Event>, w: World, days: int, now: int)
    requires Run(New(limits, start), events, limits, w) && w.latest <= now
    ensures Query(w.ledger.rows, days, limits, now) == Query(w.all, days, limits, now)
  {
    RunAccounts(New(limits, start), events, limits, w);
    CutoffAdvances(limits.retentionDays, w.latest, now);
    CutoffShrinks(limits.retentionDays, Window(days, limits), now);
    AnswersInFullIff(limits, start, events, w, days, now);
  }

  // The rows from a time on, as often as they are there.
  lemma {:induction false} SinceIs(rows: seq<Row>, cutoff: int, r: Row)
    ensures multiset(Since(rows, cutoff))[r] == if r.at >= cutoff then multiset(rows)[r] else 0
  {
    if rows != [] {
      var n := |rows| - 1;
      SinceIs(rows[..n], cutoff, r);
      assert rows == rows[..n] + [rows[n]];
    }
  }

  lemma {:induction false} NewerIsWeakOrder()
    ensures WeakOrder(Newer)
  {
  }

  // A query covers whole days of universal time up to now, at least one and at most as many as are retained; it returns
  // the rows of those days, each as often as it is there, and the newest first.
  lemma {:induction false} QueryReturns(rows: seq<Row>, days: int, limits: Limits, now: int, r: Row)
    requires limits.retentionDays >= 1
    ensures var wide := if days < 1 then 1 else if days > limits.retentionDays then limits.retentionDays else days;
            multiset(Query(rows, days, limits, now))[r]
            == if r.at >= (now / DAY_MS - wide + 1) * DAY_MS then multiset(rows)[r] else 0
    ensures var q := Query(rows, days, limits, now); forall i, j :: 0 <= i < j < |q| ==> q[i].at >= q[j].at
  {
    var since := Since(rows, Cutoff(Window(days, limits), now));
    CutoffIsDay(Window(days, limits), now);
    SinceIs(rows, Cutoff(Window(days, limits), now), r);
    NewerIsWeakOrder();
    StableSortSorted(since, Newer);
  }

  lemma {:induction false} CutoffIsDay(days: int, now: int)
    ensures Cutoff(days, now) == (now / DAY_MS - days + 1) * DAY_MS
  {
    assert now == (now / DAY_MS) * DAY_MS + now % DAY_MS;
    assert (now / DAY_MS - days + 1) * DAY_MS == (now / DAY_MS) * DAY_MS - (days - 1) * DAY_MS;
  }

  // Maintenance is due when the file has reached its next size or a day has passed; it then leaves exactly the rows of
  // the retention window, and is next due at twice their size, or the least size.
  lemma {:induction false} MaintainedWhenDue(l: Ledger, limits: Limits, now: int)
    ensures var m, cutoff := Maintained(l, limits, now), (now / DAY_MS - limits.retentionDays + 1) * DAY_MS;
            if Size(l.rows) < l.next && now < l.lastPruneAt + 24 * 60 * 60 * 1000 then m == l
            else
              && m.rows == Since(l.rows, cutoff) && m.lastPruneAt == now
              && m.next >= limits.compactBytes && m.next >= 2 * Size(m.rows)
              && (m.next == limits.compactBytes || m.next == 2 * Size(m.rows))
  {
    CutoffIsDay(limits.retentionDays, now);
  }

  // ---- the cost of compaction ---------------------------------------------------------------

  lemma {:induction false} SizePush(rows: seq<Row>, row: Row)
    ensures Size(rows + [row]) == Size(rows) + row.bytes
  {
    assert (rows + [row])[..|rows|] == rows;
  }

  lemma {:induction false} SinceIsSmaller(rows: seq<Row>, cutoff: int)
    ensures Size(Since(rows, cutoff)) <= Size(rows)
  {
    if rows != [] {
      var n := |rows| - 1;
      SinceIsSmaller(rows[..n], cutoff);
      SizePush(Since(rows[..n], cutoff), rows[n]);
      assert rows[n].at < cutoff ==> Since(rows, cutoff) == Since(rows[..n], cutoff);
    }
  }

  // What is paid in and not yet spent: twice what the file has grown beyond half the size of its next compaction.
  ghost predicate Paid(w: World) {
    && w.found <= Size(w.ledger.rows)
    && w.compacted <= 2 * w.appended + w.reopened
    && w.compacted + 2 * Size(w.ledger.rows) <= 2 * w.appended + w.reopened + Larger(w.ledger.next, w.found)
  }

  lemma {:induction false} AppendPaid(w: World, row: Row, at: int, limits: Limits)
    requires Paid(w)
    ensures Paid(Next(w, Append(row, at), limits))
  {
    SizePush(w.ledger.rows, row);
    SinceIsSmaller(w.ledger.rows + [row], Cutoff(limits.retentionDays, at));
  }

  lemma {:induction false} RunPaid(w: World, events: seq<Event>, limits: Limits, last: World)
    requires Paid(w) && Run(w, events, limits, last)
    ensures Paid(last)
    decreases |events|
  {
    if events != [] {
      if events[0].Append? {
        AppendPaid(w, events[0].row, events[0].at, limits);
      }
      RunPaid(Next(w, events[0], limits), events[1..], limits, last);
    }
  }

  // The file sizes at the compactions that its size triggers sum to at most twice the bytes ever appended, and once
  // the size found at each restart.
  lemma {:induction false} CompactionIsAmortized(limits: Limits, start: int, events: seq<Event>, w: World)
    requires Run(New(limits, start), events, limits, w)
    ensures w.compacted <= 2 * w.appended + w.reopened
    ensures (forall e :: e in events ==> e.Append?) ==> w.compacted <= 2 * w.appended
  {
    RunPaid(New(limits, start), events, limits, w);
    if forall e :: e in events ==> e.Append? {
      NeverReopened(New(limits, start), events, limits, w);
    }
  }

  lemma {:induction false} NeverReopened(w: World, events: seq<Event>, limits: Limits, last: World)
    requires Run(w, events, limits, last) && forall e :: e in events ==> e.Append?
    ensures last.reopened == w.reopened
    decreases |events|
  {
    if events != [] {
      assert events[0] in events;
      NeverReopened(Next(w, events[0], limits), events[1..], limits, last);
    }
  }

  lemma {:induction false} TwoRows(a: Row, b: Row)
    ensures forall c :: Since([a, b], c) == (if a.at >= c then [a] else []) + (if b.at >= c then [b] else [])
    ensures forall c :: Since([b], c) == if b.at >= c then [b] else []
    ensures Size([a]) == a.bytes && Size([a, b]) == a.bytes + b.bytes
  {
    assert [a, b][..1] == [a] && [a][..0] == [] && [b][..0] == [];
    assert forall c :: Since([a], c) == if a.at >= c then [a] else [];
  }

  // The second of two rows a day apart prunes the first.
  lemma {:induction false} SecondPrunes(a: Row, b: Row, limits: Limits)
    requires limits == Limits(1, 100) && a == Row(0, 1, 0) && b == Row(DAY_MS, 1, 1)
    ensures Recorded(Opened([], limits), a, limits, 0) == Ledger([a], 100, 0)
    ensures Recorded(Ledger([a], 100, 0), b, limits, DAY_MS).rows == [b]
  {
    TwoRows(a, b);
    assert [] + [a] == [a] && [a] + [b] == [a, b];
    assert Cutoff(1, DAY_MS) == DAY_MS;
  }

  lemma {:induction false} QueriesDiffer(a: Row, b: Row, limits: Limits)
    requires limits == Limits(1, 100) && a == Row(0, 1, 0) && b == Row(DAY_MS, 1, 1)
    ensures Query([b], 1, limits, 0) != Query([a, b], 1, limits, 0)
  {
    TwoRows(a, b);
    assert Cutoff(Window(1, limits), 0) == 0;
    StableSortLength(Since([b], 0));
    StableSortLength(Since([a, b], 0));
  }

  lemma {:induction false} TwoEvents(w: World, a: Event, b: Event, limits: Limits)
    ensures Run(w, [a, b], limits, Next(Next(w, a, limits), b, limits))
  {
    assert [a, b][1..] == [b] && [b][1..] == [];
    var last := Next(Next(w, a, limits), b, limits);
    assert Run(last, [], limits, last);
    assert Run(Next(w, a, limits), [b], limits, last);
  }

  // A clock set back by a day asks for rows pruned in between.
  lemma {:induction false} ClockSetBack(a: Row, b: Row, limits: Limits) returns (w: World)
    requires limits == Limits(1, 100) && a == Row(0, 1, 0) && b == Row(DAY_MS, 1, 1)
    ensures Run(New(limits, 0), [Append(a, 0), Append(b, DAY_MS)], limits, w)
    ensures w.latest == DAY_MS && Query(w.ledger.rows, 1, limits, 0) != Query(w.all, 1, limits, 0)
  {
    var one := Next(New(limits, 0), Append(a, 0), limits);
    w := Next(one, Append(b, DAY_MS), limits);
    SecondPrunes(a, b, limits);
    TwoEvents(New(limits, 0), Append(a, 0), Append(b, DAY_MS), limits);
    assert [] + [a] == [a] && [a] + [b] == [a, b];
    assert one.ledger == Ledger([a], 100, 0) && one.all == [a];
    assert w.ledger.rows == [b] && w.all == [a, b];
    QueriesDiffer(a, b, limits);
  }

  lemma {:induction false} StableSortLength(rows: seq<Row>)
    ensures |StableSort(rows, Newer)| == |rows|
  {
    SameElements(StableSort(rows, Newer), rows);
  }

  // ---- the ledger ---------------------------------------------------------------------------

  class CreditFile {
    var rows: seq<Row>

    constructor (rows: seq<Row>)
      ensures this.rows == rows
    {
      this.rows := rows;
    }
  }

  class CreditLedgerStore {
    const limits: Limits
    const file: CreditFile
    var next: nat
    var lastPruneAt: int

    ghost function View(): (l: Ledger)
      reads this, file
    {
      Ledger(file.rows, next, lastPruneAt)
    }

    constructor (limits: Limits, file: CreditFile)
      ensures this.limits == limits && this.file == file && View() == Opened(file.rows, limits)
    {
      this.limits, this.file, this.next, this.lastPruneAt := limits, file, limits.compactBytes, 0;
    }

    method FileSize() returns (size: nat)
      ensures size == Size(file.rows)
    {
      size := 0;
      for i := 0 to |file.rows|
        invariant size == Size(file.rows[..i])
      {
        assert file.rows[..i + 1][..i] == file.rows[..i];
        size := size + file.rows[i].bytes;
      }
      assert file.rows[..|file.rows|] == file.rows;
    }

    method Kept(cutoff: int) returns (kept: seq<Row>)
      ensures kept == Since(file.rows, cutoff)
    {
      kept := [];
      for i := 0 to |file.rows|
        invariant kept == Since(file.rows[..i], cutoff)
      {
        assert file.rows[..i + 1][..i] == file.rows[..i];
        if file.rows[i].at >= cutoff {
          kept := kept + [file.rows[i]];
        }
      }
      assert file.rows[..|file.rows|] == file.rows;
    }

    method MaybeMaintain(now: int)
      modifies this, file
      ensures View() == Maintained(old(View()), limits, now)
    {
      var size := FileSize();
      if size < next && now - lastPruneAt < DAY_MS {
        return;
      }
      var kept := Kept(Cutoff(limits.retentionDays, now));
      if |kept| != |file.rows| {
        file.rows := kept;
      } else {
        SinceAll(file.rows, Cutoff(limits.retentionDays, now));
      }
      lastPruneAt := now;
      var left := FileSize();
      next := Larger(limits.compactBytes, left * 2);
    }

    method RecordRow(row: Row, now: int)
      modifies this, file
      ensures View() == Recorded(old(View()), row, limits, now)
    {
      file.rows := file.rows + [row];
      MaybeMaintain(now);
    }

    method QueryRows(days: int, now: int) returns (rows: seq<Row>)
      ensures rows == Query(file.rows, days, limits, now)
    {
      var kept := Kept(Cutoff(Window(days, limits), now));
      rows := StableSort(kept, Newer);
    }
  }

  lemma {:induction false} SinceAll(rows: seq<Row>, cutoff: int)
    requires |Since(rows, cutoff)| == |rows|
    ensures Since(rows, cutoff) == rows
  {
    if rows != [] {
      SinceAll(rows[..|rows| - 1], cutoff);
    }
  }
}
