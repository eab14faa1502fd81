// Session transcripts whose older part is rotated into immutable chunks: `FileBackedAgentStore` in
// src/agent-store.js, and the paged history read back in src/shared-conversations.js.

module SessionArchive {
  import opened Sorting

  // secret: a tool call in the message still carries typed text, which is redacted before anything is stored.
  datatype Message = Message(id: nat, secret: bool, text: nat)

  function Clean(m: Message): (r: Message) {
    m.(secret := false)
  }

  function Cleaned(ms: seq<Message>): (r: seq<Message>)
    ensures |r| == |ms| && forall i :: 0 <= i < |ms| ==> r[i] == Clean(ms[i])
  {
    seq(|ms|, i requires 0 <= i < |ms| => Clean(ms[i]))
  }

  // A chunk file is named by its content, so writing the same chunk again changes nothing.
  datatype Chunk = Chunk(start: nat, messages: seq<Message>)

  datatype Limits = Limits(max: nat, retained: nat)

  // What the constructor accepts.
  predicate Allowed(l: Limits) {
    2 <= l.max && 1 <= l.retained < l.max
  }

  // The files of one session: its chunks, and in its active file the newest messages and the archive's extent.
  datatype Files = Files(chunks: set<Chunk>, active: seq<Message>, archivedCount: nat, historyArchived: bool)

  // How far a save gets before this program dies or the active file is refused as too large.
  datatype Fate = Completes | StopsFirst | StopsAfterArchive

  function Rotated(l: Limits, count: nat, messages: seq<Message>): (c: Chunk)
    requires Allowed(l) && |messages| > l.max
  {
    Chunk(count, messages[..|messages| - l.retained])
  }

  function Save(f: Files, l: Limits, messages: seq<Message>, fate: Fate): (r: Files)
    requires Allowed(l)
  {
    var p := Cleaned(messages);
    if fate.StopsFirst? then f
    else if |p| > l.max then
      var chunk := Rotated(l, f.archivedCount, p);
      var archived := f.(chunks := f.chunks + {chunk});
      if fate.StopsAfterArchive? then archived
      else Files(archived.chunks, p[|p| - l.retained..], f.archivedCount + |chunk.messages|, true)
    else if fate.StopsAfterArchive? then f
    else f.(active := p)
  }

  // Reading a session redacts it first, also on disk.
  function Append(f: Files, l: Limits, m: Message, fate: Fate): (r: Files)
    requires Allowed(l)
  {
    var read := f.(active := Cleaned(f.active));
    Save(read, l, read.active + [m], fate)
  }

  function Flat(chunks: seq<Chunk>): (r: seq<Message>) {
    if chunks == [] then [] else Flat(chunks[..|chunks| - 1]) + chunks[|chunks| - 1].messages
  }

  function Ids(ms: seq<Message>): (r: set<nat>) {
    set i | 0 <= i < |ms| :: ms[i].id
  }

  // The first message of each id.
  function Dedupe(ms: seq<Message>): (r: seq<Message>) {
    if ms == [] then []
    else
      var rest, m := Dedupe(ms[..|ms| - 1]), ms[|ms| - 1];
      if m.id in Ids(ms[..|ms| - 1]) then rest else rest + [m]
  }

  predicate Before(a: Chunk, b: Chunk) {
    a.start < b.start
  }

  // The archive read back, from its chunk files in whatever order the directory lists them.
  function ArchivedMessages(listing: seq<Chunk>): (r: seq<Message>) {
    Dedupe(Flat(StableSort(listing, Before)))
  }

  function Lacking(ms: seq<Message>, ids: set<nat>): (r: seq<Message>) {
    if ms == [] then []
    else Lacking(ms[..|ms| - 1], ids) + (if ms[|ms| - 1].id in ids then [] else [ms[|ms| - 1]])
  }

  function History(f: Files, listing: seq<Chunk>): (r: seq<Message>) {
    Lacking(ArchivedMessages(listing), Ids(f.active)) + f.active
  }

  // ---- runs ---------------------------------------------------------------------------------

  // appended: the messages of the completed appends, in order. tiles: the chunks in order; pending says that the
  // last of them was written by an append that did not complete.
  datatype World = World(files: Files, appended: seq<Message>, tiles: seq<Chunk>, pending: bool)

  ghost predicate DistinctIds(ms: seq<Message>) {
    forall i, j :: 0 <= i < j < |ms| ==> ms[i].id != ms[j].id
  }

  ghost predicate Tiled(tiles: seq<Chunk>) {
    forall i :: 0 <= i < |tiles| ==> tiles[i].messages != [] && tiles[i].start == |Flat(tiles[..i])|
  }

  function Complete(w: World): (r: seq<Chunk>) {
    if w.pending && w.tiles != [] then w.tiles[..|w.tiles| - 1] else w.tiles
  }

  ghost predicate Pending(w: World, l: Limits)
    requires Allowed(l)
  {
    w.pending ==> w.tiles != [] && |w.files.active| == l.max
                  && w.tiles[|w.tiles| - 1].messages == w.files.active[..l.max + 1 - l.retained]
  }

  ghost predicate AllClean(ms: seq<Message>) {
    forall m :: m in ms ==> !m.secret
  }

  // The transcript is the completed chunks followed by the active messages.
  ghost predicate Split(w: World, l: Limits) {
    && Allowed(l) && Tiled(w.tiles) && Pending(w, l) && |w.files.active| <= l.max
    && w.appended == Flat(Complete(w)) + w.files.active
    && w.files.archivedCount == |Flat(Complete(w))|
    && (w.files.historyArchived <==> Complete(w) != [])
  }

  ghost predicate Listed(cs: seq<Chunk>, chunks: set<Chunk>) {
    forall c :: c in cs <==> c in chunks
  }

  ghost predicate Inv(w: World, l: Limits) {
    Split(w, l) && Listed(w.tiles, w.files.chunks) && DistinctIds(w.appended) && AllClean(w.appended)
  }

  function Chunked(w: World, l: Limits, m: Message): (r: Chunk)
    requires Allowed(l) && |w.files.active| + 1 > l.max
  {
    Rotated(l, w.files.archivedCount, Cleaned(Cleaned(w.files.active) + [m]))
  }

  function Next(w: World, l: Limits, m: Message, fate: Fate): (r: World)
    requires Allowed(l)
  {
    var rotates := |w.files.active| + 1 > l.max && !fate.StopsFirst?;
    World(Append(w.files, l, m, fate),
          if fate.Completes? then w.appended + [Clean(m)] else w.appended,
          if rotates && !w.pending then w.tiles + [Chunked(w, l, m)] else w.tiles,
          if rotates then !fate.Completes? else w.pending)
  }

  // Appends of new messages, each with its fate.
  ghost predicate Run(w: World, l: Limits, ms: seq<(Message, Fate)>, last: World)
    requires Allowed(l)
    decreases |ms|
  {
    if ms == [] then last == w
    else (forall a :: a in w.appended ==> a.id != ms[0].0.id) && Run(Next(w, l, ms[0].0, ms[0].1), l, ms[1..], last)
  }

  const EMPTY: World := World(Files({}, [], 0, false), [], [], false)

  // ---- what every append keeps --------------------------------------------------------------

  lemma {:induction false} FlatPush(chunks: seq<Chunk>, c: Chunk)
    ensures Flat(chunks + [c]) == Flat(chunks) + c.messages
  {
    assert (chunks + [c])[..|chunks|] == chunks;
  }

  lemma {:induction false} TiledPush(tiles: seq<Chunk>, c: Chunk)
    requires Tiled(tiles) && c.messages != [] && c.start == |Flat(tiles)|
    ensures Tiled(tiles + [c])
  {
    forall i | 0 <= i < |tiles + [c]| ensures (tiles + [c])[i].start == |Flat((tiles + [c])[..i])| {
      if i < |tiles| {
        assert (tiles + [c])[..i] == tiles[..i];
      } else {
        assert (tiles + [c])[..i] == tiles;
      }
    }
  }

  lemma {:induction false} CleanActive(w: World, l: Limits, m: Message)
    requires Split(w, l) && AllClean(w.appended)
    ensures Cleaned(w.files.active) == w.files.active
    ensures Cleaned(w.files.active + [m]) == w.files.active + [Clean(m)]
  {
    forall i | 0 <= i < |w.files.active| ensures Clean(w.files.active[i]) == w.files.active[i] {
      assert w.files.active[i] in w.appended;
    }
  }

  // A rotation writes the same chunk however often it is tried.
  lemma {:induction false} RotationIsReplayed(w: World, l: Limits, m: Message)
    requires Split(w, l) && AllClean(w.appended) && |w.files.active| == l.max
    ensures Chunked(w, l, m) == Chunk(|Flat(Complete(w))|, w.files.active[..l.max + 1 - l.retained])
    ensures w.pending ==> w.tiles == Complete(w) + [Chunked(w, l, m)]
  {
    CleanActive(w, l, m);
    if w.pending {
      assert w.tiles == w.tiles[..|w.tiles| - 1] + [w.tiles[|w.tiles| - 1]];
    }
  }

  lemma {:induction false} TiledComplete(w: World, l: Limits)
    requires Split(w, l)
    ensures Tiled(Complete(w))
  {
    var t := Complete(w);
    forall i | 0 <= i < |t| ensures t[i].start == |Flat(t[..i])| {
      assert t[..i] == w.tiles[..i];
    }
  }

  lemma {:induction false} RotationTiles(w: World, l: Limits, m: Message, fate: Fate)
    requires Split(w, l) && AllClean(w.appended) && |w.files.active| == l.max && !fate.StopsFirst?
    ensures var t := Next(w, l, m, fate).tiles;
            && t == Complete(w) + [Chunked(w, l, m)] && Tiled(t)
            && Flat(t) == Flat(Complete(w)) + w.files.active[..l.max + 1 - l.retained]
  {
    RotationIsReplayed(w, l, m);
    TiledComplete(w, l);
    TiledPush(Complete(w), Chunked(w, l, m));
    FlatPush(Complete(w), Chunked(w, l, m));
  }

  lemma {:induction false} RotationLists(w: World, l: Limits, m: Message, fate: Fate)
    requires Inv(w, l) && |w.files.active| == l.max && !fate.StopsFirst?
    ensures Listed(Next(w, l, m, fate).tiles, Next(w, l, m, fate).files.chunks)
  {
    var c, n := Chunked(w, l, m), Next(w, l, m, fate);
    CleanActive(w, l, m);
    assert n.files.chunks == w.files.chunks + {c};
    if w.pending {
      RotationIsReplayed(w, l, m);
      assert w.tiles[|w.tiles| - 1] == c;
    }
  }

  lemma {:induction false} PushSplits(flat: seq<Message>, active: seq<Message>, m: Message, k: nat)
    requires k <= |active|
    ensures (flat + active) + [m] == (flat + active[..k]) + (active + [m])[k..]
  {
    assert active + [m] == active[..k] + (active + [m])[k..];
  }

  lemma {:induction false} CompletedFiles(w: World, l: Limits, m: Message)
    requires Split(w, l) && AllClean(w.appended) && |w.files.active| == l.max
    ensures var f, k := Next(w, l, m, Completes).files, l.max + 1 - l.retained;
            && f.active == (w.files.active + [Clean(m)])[k..] && |f.active| <= l.max
            && f.archivedCount == |Flat(Complete(w))| + k && f.historyArchived
  {
    CleanActive(w, l, m);
    RotationIsReplayed(w, l, m);
  }

  lemma {:induction false} CompletedAppends(w: World, l: Limits, m: Message)
    requires Split(w, l) && AllClean(w.appended) && |w.files.active| == l.max
    ensures var n := Next(w, l, m, Completes);
            && Tiled(n.tiles) && n.tiles != [] && |n.files.active| <= l.max
            && n.appended == Flat(n.tiles) + n.files.active && n.files.archivedCount == |Flat(n.tiles)|
  {
    CompletedFiles(w, l, m);
    RotationTiles(w, l, m, Completes);
    PushSplits(Flat(Complete(w)), w.files.active, Clean(m), l.max + 1 - l.retained);
  }

  lemma {:induction false} CompletedSplits(w: World, l: Limits, m: Message)
    requires Split(w, l) && AllClean(w.appended) && |w.files.active| == l.max
    ensures Split(Next(w, l, m, Completes), l)
  {
    CompletedFiles(w, l, m);
    CompletedAppends(w, l, m);
  }

  lemma {:induction false} StoppedSplits(w: World, l: Limits, m: Message)
    requires Split(w, l) && AllClean(w.appended) && |w.files.active| == l.max
    ensures Split(Next(w, l, m, StopsAfterArchive), l)
  {
    var n := Next(w, l, m, StopsAfterArchive);
    CleanActive(w, l, m);
    RotationIsReplayed(w, l, m);
    RotationTiles(w, l, m, StopsAfterArchive);
    assert Complete(n) == Complete(w);
  }

  lemma {:induction false} AppendedGood(ms: seq<Message>, m: Message)
    requires DistinctIds(ms) && AllClean(ms) && forall a :: a in ms ==> a.id != m.id
    ensures DistinctIds(ms + [Clean(m)]) && AllClean(ms + [Clean(m)])
  {
  }

  lemma {:induction false} NextKeeps(w: World, l: Limits, m: Message, fate: Fate)
    requires Inv(w, l) && forall a :: a in w.appended ==> a.id != m.id
    ensures Inv(Next(w, l, m, fate), l)
  {
    AppendedGood(w.appended, m);
    CleanActive(w, l, m);
    if |w.files.active| == l.max && !fate.StopsFirst? {
      RotationLists(w, l, m, fate);
      if fate.Completes? {
        CompletedSplits(w, l, m);
      } else {
        StoppedSplits(w, l, m);
      }
    }
  }

  lemma {:induction false} RunKeeps(w: World, l: Limits, ms: seq<(Message, Fate)>, last: World)
    requires Inv(w, l) && Run(w, l, ms, last)
    ensures Inv(last, l)
    decreases |ms|
  {
    if ms != [] {
      NextKeeps(w, l, ms[0].0, ms[0].1);
      RunKeeps(Next(w, l, ms[0].0, ms[0].1), l, ms[1..], last);
    }
  }

  // ---- reading back -------------------------------------------------------------------------

  lemma {:induction false} FirstsPush(ms: seq<Message>, i: nat)
    requires i < |ms|
    ensures Ids(ms[..i + 1]) == Ids(ms[..i]) + {ms[i].id}
    ensures Dedupe(ms[..i + 1]) == if ms[i].id in Ids(ms[..i]) then Dedupe(ms[..i]) else Dedupe(ms[..i]) + [ms[i]]
  {
    assert ms[..i + 1][..i] == ms[..i];
    var all, before := ms[..i + 1], ms[..i];
    forall x ensures x in Ids(all) <==> x in Ids(before) + {ms[i].id} {
      if k :| 0 <= k < |before| && before[k].id == x {
        assert all[k].id == x;
      }
      assert all[i].id == ms[i].id;
    }
  }

  lemma {:induction false} DedupeOfDistinct(ms: seq<Message>)
    requires DistinctIds(ms)
    ensures Dedupe(ms) == ms
  {
    if ms != [] {
      DedupeOfDistinct(ms[..|ms| - 1]);
      assert ms == ms[..|ms| - 1] + [ms[|ms| - 1]];
    }
  }

  lemma {:induction false} FlatGrows(tiles: seq<Chunk>, i: nat, j: nat)
    requires Tiled(tiles) && i < j <= |tiles|
    ensures |Flat(tiles[..i])| < |Flat(tiles[..j])|
  {
    assert tiles[..j][..j - 1] == tiles[..j - 1];
    if i < j - 1 {
      FlatGrows(tiles, i, j - 1);
    }
  }

  ghost predicate Ascending(cs: seq<Chunk>) {
    forall i, j :: 0 <= i < j < |cs| ==> cs[i].start < cs[j].start
  }

  lemma {:induction false} TilesAscend(tiles: seq<Chunk>)
    requires Tiled(tiles)
    ensures Ascending(tiles)
  {
    forall i, j | 0 <= i < j < |tiles| ensures tiles[i].start < tiles[j].start {
      FlatGrows(tiles, i, j);
    }
  }

  // Only one ascending list has these chunks.
  lemma {:induction false} AscendingUnique(a: seq<Chunk>, b: seq<Chunk>)
    requires Ascending(a) && Ascending(b) && forall c :: c in a <==> c in b
    ensures a == b
  {
    assert a != [] ==> a[0] in b;
    assert b != [] ==> b[0] in a;
    if a != [] && b != [] {
      var a1, b1 := a[..|a| - 1], b[..|b| - 1];
      LastIsLast(a, b);
      forall c ensures c in a1 <==> c in b1 {
        InFront(a, c);
        InFront(b, c);
      }
      AscendingUnique(a1, b1);
      assert a == a1 + [a[|a| - 1]] && b == b1 + [b[|b| - 1]];
    }
  }

  lemma {:induction false} InFront(a: seq<Chunk>, c: Chunk)
    requires Ascending(a) && a != []
    ensures c in a[..|a| - 1] <==> c in a && c.start < a[|a| - 1].start
  {
  }

  lemma {:induction false} LastIsLast(a: seq<Chunk>, b: seq<Chunk>)
    requires Ascending(a) && Ascending(b) && a != [] && b != [] && forall c :: c in a <==> c in b
    ensures a[|a| - 1] == b[|b| - 1]
  {
    var x, y := a[|a| - 1], b[|b| - 1];
    assert x in b && y in a;
  }

  ghost predicate Lists(listing: seq<Chunk>, chunks: set<Chunk>) {
    Listed(listing, chunks) && Unique(listing)
  }

  ghost predicate Unique(cs: seq<Chunk>) {
    forall i, j :: 0 <= i < j < |cs| ==> cs[i] != cs[j]
  }

  lemma {:induction false} UniqueOnce(cs: seq<Chunk>, c: Chunk)
    requires Unique(cs)
    ensures multiset(cs)[c] <= 1
  {
    if cs != [] {
      UniqueOnce(cs[1..], c);
      assert cs == [cs[0]] + cs[1..];
    }
  }

  lemma {:induction false} SortedUnique(listing: seq<Chunk>, sorted: seq<Chunk>)
    requires multiset(sorted) == multiset(listing) && Unique(listing)
    ensures Unique(sorted)
  {
    forall i, j | 0 <= i < j < |sorted| ensures sorted[i] != sorted[j] {
      UniqueOnce(listing, sorted[i]);
      assert sorted == sorted[..j] + [sorted[j]] + sorted[j + 1..];
      assert sorted[..j] == sorted[..i] + [sorted[i]] + sorted[i + 1..j];
    }
  }

  lemma {:induction false} UniqueAscends(sorted: seq<Chunk>, tiles: seq<Chunk>)
    requires Sorted(sorted, Before) && Unique(sorted) && Ascending(tiles) && forall c :: c in sorted ==> c in tiles
    ensures Ascending(sorted)
  {
    forall i, j | 0 <= i < j < |sorted| ensures sorted[i].start < sorted[j].start {
      assert sorted[i] in tiles && sorted[j] in tiles;
    }
  }

  // However the directory lists the files, sorting puts the chunks in order.
  lemma {:induction false} SortedIsTiles(listing: seq<Chunk>, tiles: seq<Chunk>, chunks: set<Chunk>)
    requires Tiled(tiles) && Listed(tiles, chunks) && Lists(listing, chunks)
    ensures StableSort(listing, Before) == tiles
  {
    var sorted := StableSort(listing, Before);
    StableSortSorted(listing, Before);
    SameElements(sorted, listing);
    TilesAscend(tiles);
    SortedUnique(listing, sorted);
    UniqueAscends(sorted, tiles);
    AscendingUnique(sorted, tiles);
  }

  lemma {:induction false} FlatTiles(w: World, l: Limits)
    requires Split(w, l)
    ensures var k := |Flat(w.tiles)|;
            k <= |w.appended| && Flat(w.tiles) == w.appended[..k]
            && k - w.files.archivedCount == if w.pending then l.max + 1 - l.retained else 0
  {
    if w.pending {
      var last := w.tiles[|w.tiles| - 1].messages;
      assert w.files.active == last + w.files.active[|last|..];
    }
  }

  lemma {:induction false} PrefixDistinct(ms: seq<Message>, k: nat)
    requires DistinctIds(ms) && k <= |ms|
    ensures DistinctIds(ms[..k])
  {
  }

  // The archive, read in whatever order, is the oldest part of the transcript. It overlaps the active messages
  // only when an append stopped after writing its chunk.
  lemma {:induction false} ArchivedIsOldest(w: World, l: Limits, listing: seq<Chunk>) returns (k: nat)
    requires Inv(w, l) && Lists(listing, w.files.chunks)
    ensures k <= |w.appended| && ArchivedMessages(listing) == w.appended[..k]
    ensures w.files.archivedCount <= k && w.appended[w.files.archivedCount..] == w.files.active
    ensures k > w.files.archivedCount <==> w.pending
  {
    SortedIsTiles(listing, w.tiles, w.files.chunks);
    FlatTiles(w, l);
    k := |Flat(w.tiles)|;
    PrefixDistinct(w.appended, k);
    DedupeOfDistinct(w.appended[..k]);
  }

  // Of the first k of distinct messages, those not among the messages from j on are the first j.
  lemma {:induction false} LackingTail(ms: seq<Message>, j: nat, k: nat)
    requires DistinctIds(ms) && j <= k <= |ms|
    ensures Lacking(ms[..k], Ids(ms[j..])) == ms[..j]
  {
    if k > j {
      LackingTail(ms, j, k - 1);
      assert ms[..k][..k - 1] == ms[..k - 1];
      assert ms[j..][k - 1 - j] == ms[k - 1];
    } else {
      LackingHead(ms, j, j);
    }
  }

  lemma {:induction false} LackingHead(ms: seq<Message>, j: nat, k: nat)
    requires DistinctIds(ms) && k <= j <= |ms|
    ensures Lacking(ms[..k], Ids(ms[j..])) == ms[..k]
  {
    if k > 0 {
      LackingHead(ms, j, k - 1);
      assert ms[..k][..k - 1] == ms[..k - 1];
      assert ms[k - 1].id !in Ids(ms[j..]) by {
        forall i | 0 <= i < |ms[j..]| ensures ms[j..][i].id != ms[k - 1].id {
          assert ms[j..][i] == ms[j + i];
        }
      }
    }
  }

  // ---- main results -------------------------------------------------------------------------

  // After any run of appends, each completed or stopped anywhere, archive and active messages together are the
  // completed appends in order.
  lemma {:induction false} HistoryIsAppended(l: Limits, ms: seq<(Message, Fate)>, w: World, listing: seq<Chunk>)
    requires Allowed(l) && Run(EMPTY, l, ms, w) && Lists(listing, w.files.chunks)
    ensures History(w.files, listing) == w.appended
  {
    RunKeeps(EMPTY, l, ms, w);
    HistoryOf(w, l, listing);
  }

  lemma {:induction false} HistoryOf(w: World, l: Limits, listing: seq<Chunk>)
    requires Inv(w, l) && Lists(listing, w.files.chunks)
    ensures History(w.files, listing) == w.appended
    ensures Lacking(ArchivedMessages(listing), Ids(w.files.active)) == w.appended[..w.files.archivedCount]
  {
    var k := ArchivedIsOldest(w, l, listing);
    LackingTail(w.appended, w.files.archivedCount, k);
  }

  // A completed append leaves archive and active messages disjoint and the active ones within their maximum.
  lemma {:induction false} CompletedIsDisjoint(w: World, l: Limits, m: Message, listing: seq<Chunk>)
    requires Inv(w, l) && forall a :: a in w.appended ==> a.id != m.id
    requires Lists(listing, Next(w, l, m, Completes).files.chunks)
    ensures var f := Next(w, l, m, Completes).files;
            && |f.active| <= l.max && ArchivedMessages(listing) + f.active == w.appended + [Clean(m)]
            && Ids(ArchivedMessages(listing)) !! Ids(f.active)
  {
    var n := Next(w, l, m, Completes);
    NextKeeps(w, l, m, Completes);
    var k := ArchivedIsOldest(n, l, listing);
    var a := ArchivedMessages(listing);
    assert a + n.files.active == n.appended;
    PartsDisjoint(a, n.files.active);
  }

  lemma {:induction false} PartsDisjoint(a: seq<Message>, b: seq<Message>)
    requires DistinctIds(a + b)
    ensures Ids(a) !! Ids(b)
  {
    forall i, j | 0 <= i < |a| && 0 <= j < |b| ensures a[i].id != b[j].id {
      assert a[i] == (a + b)[i] && b[j] == (a + b)[|a| + j];
    }
  }

  // ---- pages --------------------------------------------------------------------------------

  datatype Option<T> = None | Some(value: T)

  datatype Page = UnknownMessage | Page(messages: seq<Message>, next: Option<nat>)

  // The position of an id, or -1.
  function FindIndex(ms: seq<Message>, id: nat): (i: int)
    ensures -1 <= i < |ms| && (i >= 0 ==> ms[i].id == id)
    ensures forall j :: 0 <= j < (if i < 0 then |ms| else i) ==> ms[j].id != id
  {
    if ms == [] then -1
    else
      var i := FindIndex(ms[..|ms| - 1], id);
      if i >= 0 then i else if ms[|ms| - 1].id == id then |ms| - 1 else -1
  }

  function EndOf(ms: seq<Message>, before: Option<nat>): (end: int)
    ensures -1 <= end <= |ms|
  {
    if before.None? then |ms| else FindIndex(ms, before.value)
  }

  function PageAt(ms: seq<Message>, end: int, size: nat): (p: Page)
    requires end <= |ms| && size > 0
  {
    if end < 0 then UnknownMessage
    else
      var start := if end > size then end - size else 0;
      Page(ms[start..end], if start > 0 then Some(ms[start].id) else None)
  }

  // One page of a transcript, before the given message or at its end.
  function PageOf(ms: seq<Message>, before: Option<nat>, size: nat): (p: Page)
    requires size > 0
  {
    PageAt(ms, EndOf(ms, before), size)
  }

  // The archive is read only for a page that reaches past the active messages.
  function HistoryPage(f: Files, listing: seq<Chunk>, before: Option<nat>, size: nat): (p: Page)
    requires size > 0
  {
    var end := EndOf(f.active, before);
    if (end < 0 || end - size <= 0) && f.historyArchived then PageOf(History(f, listing), before, size)
    else PageAt(f.active, end, size)
  }

  lemma {:induction false} EndOfTail(head: seq<Message>, tail: seq<Message>, before: Option<nat>)
    requires DistinctIds(head + tail) && EndOf(tail, before) >= 0
    ensures EndOf(head + tail, before) == |head| + EndOf(tail, before)
  {
    if before.Some? {
      var i, j := FindIndex(head + tail, before.value), FindIndex(tail, before.value);
      assert (head + tail)[|head| + j].id == before.value;
    }
  }

  lemma {:induction false} PageWithinTail(head: seq<Message>, tail: seq<Message>, before: Option<nat>, size: nat)
    requires DistinctIds(head + tail) && EndOf(tail, before) > size > 0
    ensures PageOf(head + tail, before, size) == PageAt(tail, EndOf(tail, before), size)
  {
    EndOfTail(head, tail, before);
    var end := EndOf(tail, before);
    assert (head + tail)[|head| + end - size..|head| + end] == tail[end - size..end];
    assert (head + tail)[|head| + end - size] == tail[end - size];
  }

  // A page read the short way is the page of the whole transcript.
  lemma {:induction false} PageIsOfTranscript(w: World, l: Limits, listing: seq<Chunk>, before: Option<nat>, size: nat)
    requires Inv(w, l) && Lists(listing, w.files.chunks) && size > 0
    ensures HistoryPage(w.files, listing, before, size) == PageOf(w.appended, before, size)
  {
    var end := EndOf(w.files.active, before);
    if !w.files.historyArchived {
      assert Flat(Complete(w)) == [] && w.appended == w.files.active;
    } else if end < 0 || end - size <= 0 {
      HistoryOf(w, l, listing);
    } else {
      PageWithinTail(Flat(Complete(w)), w.files.active, before, size);
    }
  }

  // A reader that follows `next` for so many pages, oldest page first.
  function Walk(f: Files, listing: seq<Chunk>, before: Option<nat>, size: nat, pages: nat): (r: seq<Message>)
    requires size > 0
    decreases pages
  {
    if pages == 0 then []
    else
      match HistoryPage(f, listing, before, size)
      case UnknownMessage => []
      case Page(messages, None) => messages
      case Page(messages, next) => Walk(f, listing, next, size, pages - 1) + messages
  }

  lemma {:induction false} NextPage(ms: seq<Message>, before: Option<nat>, size: nat) returns (start: nat)
    requires DistinctIds(ms) && EndOf(ms, before) > size > 0
    ensures start == EndOf(ms, before) - size && EndOf(ms, Some(ms[start].id)) == start
    ensures PageOf(ms, before, size) == Page(ms[start..EndOf(ms, before)], Some(ms[start].id))
  {
    start := EndOf(ms, before) - size;
    assert ms[FindIndex(ms, ms[start].id)].id == ms[start].id;
  }

  // Enough pages give the whole transcript, each message once and in order.
  lemma {:induction false} WalkIsTranscript(w: World, l: Limits, listing: seq<Chunk>, before: Option<nat>, size: nat, pages: nat)
    requires Inv(w, l) && Lists(listing, w.files.chunks) && size > 0
    requires 0 <= EndOf(w.appended, before) <= pages * size && pages > 0
    ensures Walk(w.files, listing, before, size, pages) == w.appended[..EndOf(w.appended, before)]
    decreases pages
  {
    PageIsOfTranscript(w, l, listing, before, size);
    var end := EndOf(w.appended, before);
    if end > size {
      var start := NextPage(w.appended, before, size);
      var next := Some(w.appended[start].id);
      OnePageLess(pages, size, end);
      WalkIsTranscript(w, l, listing, next, size, pages - 1);
      WalkOn(w.files, listing, before, size, pages, w.appended[start..end], next);
      JoinSlices(w.appended, start, end);
    } else {
      LastPage(w, l, listing, before, size, pages);
    }
  }

  lemma {:induction false} WalkOn(f: Files, listing: seq<Chunk>, before: Option<nat>, size: nat, pages: nat,
                                  messages: seq<Message>, next: Option<nat>)
    requires size > 0 && pages > 0 && next.Some? && HistoryPage(f, listing, before, size) == Page(messages, next)
    ensures Walk(f, listing, before, size, pages) == Walk(f, listing, next, size, pages - 1) + messages
  {
  }

  lemma {:induction false} LastPage(w: World, l: Limits, listing: seq<Chunk>, before: Option<nat>, size: nat, pages: nat)
    requires Inv(w, l) && Lists(listing, w.files.chunks) && size > 0 && pages > 0
    requires 0 <= EndOf(w.appended, before) <= size
    ensures Walk(w.files, listing, before, size, pages) == w.appended[..EndOf(w.appended, before)]
  {
    PageIsOfTranscript(w, l, listing, before, size);
  }

  lemma {:induction false} JoinSlices(ms: seq<Message>, start: nat, end: nat)
    requires start <= end <= |ms|
    ensures ms[..start] + ms[start..end] == ms[..end]
  {
  }

  lemma {:induction false} OnePageLess(pages: nat, size: nat, end: nat)
    requires size < end <= pages * size
    ensures pages > 1 && end - size <= (pages - 1) * size
  {
    assert (pages - 1) * size == pages * size - size;
  }

  // ---- the store ----------------------------------------------------------------------------

  class SessionFiles {
    var chunks: set<Chunk>
    var active: seq<Message>
    var archivedCount: nat
    var historyArchived: bool

    constructor ()
      ensures View() == EMPTY.files
    {
      chunks, active, archivedCount, historyArchived := {}, [], 0, false;
    }

    ghost function View(): (f: Files)
      reads this
    {
      Files(chunks, active, archivedCount, historyArchived)
    }
  }

  class FileBackedAgentStore {
    const limits: Limits
    const files: SessionFiles

    constructor (limits: Limits, files: SessionFiles)
      ensures this.limits == limits && this.files == files
    {
      this.limits := limits;
      this.files := files;
    }

    // messages is the session in memory, with the archive's extent as it was read.
    method SaveSession(messages: seq<Message>, archivedCount: nat, fate: Fate)
      requires Allowed(limits) && archivedCount == files.archivedCount
      modifies files
      ensures files.View() == Save(old(files.View()), limits, messages, fate)
    {
      if fate.StopsFirst? {
        return;
      }
      var persisted := Cleaned(messages);
      if |persisted| <= limits.max {
        if fate.Completes? {
          files.active := persisted;
        }
        return;
      }
      var archived := persisted[..|persisted| - limits.retained];
      var chunk := Chunk(archivedCount, archived);
      if chunk !in files.chunks {
        files.chunks := files.chunks + {chunk};
      }
      if fate.StopsAfterArchive? {
        return;
      }
      files.active := persisted[|persisted| - limits.retained..];
      files.archivedCount := archivedCount + |archived|;
      files.historyArchived := true;
    }

    method AppendMessage(m: Message, fate: Fate)
      requires Allowed(limits)
      modifies files
      ensures files.View() == Append(old(files.View()), limits, m, fate)
    {
      var session := Cleaned(files.active);
      if session != files.active {
        files.active := session;
      }
      SaveSession(session + [m], files.archivedCount, fate);
    }

    method ReadArchive(listing: seq<Chunk>) returns (result: seq<Message>)
      ensures result == ArchivedMessages(listing)
    {
      var all := Flat(StableSort(listing, Before));
      var seen: set<nat> := {};
      result := [];
      for i := 0 to |all|
        invariant result == Dedupe(all[..i]) && seen == Ids(all[..i])
      {
        FirstsPush(all, i);
        if all[i].id !in seen {
          seen := seen + {all[i].id};
          result := result + [all[i]];
        }
      }
      assert all[..|all|] == all;
    }
  }
}
