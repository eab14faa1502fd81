// Recorded speech cut into moments, and what is kept about them: src/conversation-lifelog.js.

module Lifelog {
  import opened Sorting

  const MAX_SEGMENTS := 40
  const MAX_CHARS := 16_000
  const GAP_MS := 300_000
  const WINDOW_MS := 1_800_000

  datatype Option<T> = None | Some(value: T)

  // opens: the words announce a new conversation. text stands for the words and chars for their length.
  datatype Segment = Segment(id: nat, at: int, endAt: Option<int>, capture: nat, text: nat, chars: nat,
                             speaker: Option<nat>, opens: bool)

  datatype Boundary = Auto | Split | Merge

  type Moment = m: seq<Segment> | m != [] witness [Segment(0, 0, None, 0, 0, 0, None, false)]

  function Chars(segments: seq<Segment>): (n: nat) {
    if segments == [] then 0 else Chars(segments[..|segments| - 1]) + segments[|segments| - 1].chars
  }

  function EndOf(s: Segment): (t: int) {
    if s.endAt.Some? then s.endAt.value else s.at
  }

  // The moment has no room for the segment.
  predicate Full(m: Moment, s: Segment) {
    |m| >= MAX_SEGMENTS || Chars(m) + s.chars > MAX_CHARS
  }

  // Something suggests that a new conversation begins.
  predicate Suggests(m: Moment, s: Segment) {
    var previous := m[|m| - 1];
    s.capture != previous.capture || s.at - EndOf(previous) > GAP_MS || s.opens || s.at - m[0].at > WINDOW_MS || Full(m, s)
  }

  predicate Breaks(m: Moment, s: Segment, forced: Boundary) {
    forced.Split? || Full(m, s) || (Suggests(m, s) && !forced.Merge?)
  }

  type Edits = map<nat, Boundary>

  function Forced(edits: Edits, id: nat): (b: Boundary) {
    if id in edits then edits[id] else Auto
  }

  function Earlier(a: Segment, b: Segment): (r: bool) {
    a.at < b.at
  }

  function ByTime(segments: seq<Segment>): (r: seq<Segment>) {
    StableSort(segments, Earlier)
  }

  function Placed(r: seq<Moment>, s: Segment, forced: Boundary): (n: seq<Moment>) {
    if r == [] || Breaks(r[|r| - 1], s, forced) then r + [[s]]
    else r[..|r| - 1] + [r[|r| - 1] + [s]]
  }

  // Segments in order of time, cut.
  function Cut(segments: seq<Segment>, edits: Edits): (r: seq<Moment>) {
    if segments == [] then []
    else
      var s := segments[|segments| - 1];
      Placed(Cut(segments[..|segments| - 1], edits), s, Forced(edits, s.id))
  }

  function Moments(segments: seq<Segment>, edits: Edits): (r: seq<Moment>) {
    Cut(ByTime(segments), edits)
  }

  function Flat(ms: seq<Moment>): (r: seq<Segment>) {
    if ms == [] then [] else Flat(ms[..|ms| - 1]) + ms[|ms| - 1]
  }

  predicate Bounded(m: Moment) {
    |m| <= MAX_SEGMENTS && (|m| == 1 || Chars(m) <= MAX_CHARS)
  }

  lemma {:induction false} FlatPush(ms: seq<Moment>, m: Moment)
    ensures Flat(ms + [m]) == Flat(ms) + m
  {
    assert (ms + [m])[..|ms|] == ms;
  }

  lemma {:induction false} CharsPush(segments: seq<Segment>, s: Segment)
    ensures Chars(segments + [s]) == Chars(segments) + s.chars
  {
    assert (segments + [s])[..|segments|] == segments;
  }

  // The last moment and the segments before it, taken together, are all segments so far.
  lemma {:induction false} CutStep(r: seq<Moment>, s: Segment)
    requires r != []
    ensures Flat(r[..|r| - 1] + [r[|r| - 1] + [s]]) == Flat(r) + [s]
  {
    var front, last := r[..|r| - 1], r[|r| - 1];
    FlatPush(front, last + [s]);
    assert r == front + [last];
  }

  lemma {:induction false} PlacedPartitions(r: seq<Moment>, s: Segment, forced: Boundary)
    requires forall m :: m in r ==> Bounded(m)
    ensures Flat(Placed(r, s, forced)) == Flat(r) + [s]
    ensures forall m :: m in Placed(r, s, forced) ==> Bounded(m)
  {
    if r == [] || Breaks(r[|r| - 1], s, forced) {
      FlatPush(r, [s]);
    } else {
      CutStep(r, s);
      CharsPush(r[|r| - 1], s);
      assert r[|r| - 1] in r;
    }
  }

  lemma {:induction false} CutPartitions(segments: seq<Segment>, edits: Edits)
    ensures Flat(Cut(segments, edits)) == segments
    ensures forall m :: m in Cut(segments, edits) ==> Bounded(m)
  {
    if segments != [] {
      var before, s := segments[..|segments| - 1], segments[|segments| - 1];
      CutPartitions(before, edits);
      PlacedPartitions(Cut(before, edits), s, Forced(edits, s.id));
      assert segments == before + [s];
    }
  }

  // Forty segments and sixteen thousand characters at most, or one segment of any length.
  ghost predicate WithinBounds(m: Moment) {
    |m| <= 40 && (|m| == 1 || Chars(m) <= 16_000)
  }

  // There is no room, or the user split here; or, unless the user merged here, the recording restarted, five minutes were
  // silent, the words open a conversation, or the moment has lasted half an hour.
  ghost predicate StartsMoment(m: Moment, s: Segment, edits: Edits) {
    var last := m[|m| - 1];
    var end, edit := if last.endAt == None then last.at else last.endAt.value, if s.id in edits then edits[s.id] else Auto;
    || |m| >= 40 || Chars(m) + s.chars > 16_000 || edit == Split
    || (edit != Merge
        && (s.capture != last.capture || s.at > end + 5 * 60 * 1000 || s.opens || s.at > m[0].at + 30 * 60 * 1000))
  }

  lemma {:induction false} BreaksIff(m: Moment, s: Segment, edits: Edits)
    ensures Breaks(m, s, Forced(edits, s.id)) <==> StartsMoment(m, s, edits)
  {
  }

  // The moments hold every segment once, in order of time, and are bounded whatever edits there are: a "merge" never
  // makes a moment longer than a moment may be.
  lemma {:induction false} MomentsPartition(segments: seq<Segment>, edits: Edits)
    ensures Flat(Moments(segments, edits)) == ByTime(segments)
    ensures multiset(Flat(Moments(segments, edits))) == multiset(segments)
    ensures Sorted(Flat(Moments(segments, edits)), Earlier)
    ensures forall m :: m in Moments(segments, edits) ==> WithinBounds(m)
  {
    CutPartitions(ByTime(segments), edits);
    assert forall m :: m in Moments(segments, edits) ==> Bounded(m);
    StableSortSorted(segments, Earlier);
  }

  lemma {:induction false} CutWhere(segments: seq<Segment>, edits: Edits, k: nat)
    requires 0 < k < |Cut(segments, edits)|
    ensures var r := Cut(segments, edits); Breaks(r[k - 1], r[k][0], Forced(edits, r[k][0].id))
  {
    var n := |segments| - 1;
    var r, s := Cut(segments[..n], edits), segments[n];
    if k < |r| {
      CutWhere(segments[..n], edits, k);
    }
  }

  lemma {:induction false} NotCutWhere(segments: seq<Segment>, edits: Edits, k: nat, j: nat)
    requires k < |Cut(segments, edits)| && 0 < j < |Cut(segments, edits)[k]|
    ensures var m := Cut(segments, edits)[k]; !Breaks(m[..j], m[j], Forced(edits, m[j].id))
  {
    var n := |segments| - 1;
    var r, s := Cut(segments[..n], edits), segments[n];
    var m := Cut(segments, edits)[k];
    if k < |r| && j < |r[k]| {
      NotCutWhere(segments[..n], edits, k, j);
      assert m[..j] == r[k][..j];
    } else {
      assert m[..j] == r[k];
    }
  }

  // Moments are cut exactly where a segment breaks from all that came before it in its moment: they are the longest
  // that the bounds, the pauses and the edits allow.
  lemma {:induction false} CutExactlyWhereItBreaks(segments: seq<Segment>, edits: Edits, k: nat)
    requires k < |Moments(segments, edits)|
    ensures k > 0 ==> var r := Moments(segments, edits); StartsMoment(r[k - 1], r[k][0], edits)
    ensures forall j :: 0 < j < |Moments(segments, edits)[k]| ==>
      var m := Moments(segments, edits)[k]; !StartsMoment(m[..j], m[j], edits)
  {
    var r := Moments(segments, edits);
    if k > 0 {
      CutWhere(ByTime(segments), edits, k);
      BreaksIff(r[k - 1], r[k][0], edits);
    }
    forall j | 0 < j < |r[k]| ensures !StartsMoment(r[k][..j], r[k][j], edits) {
      NotCutWhere(ByTime(segments), edits, k, j);
      BreaksIff(r[k][..j], r[k][j], edits);
    }
  }

  method Place(result: seq<Moment>, s: Segment, forced: Boundary) returns (r: seq<Moment>)
    ensures r == Placed(result, s, forced)
  {
    if result == [] {
      return [[s]];
    }
    var m := result[|result| - 1];
    var previous := m[|m| - 1];
    var full := |m| >= MAX_SEGMENTS || Chars(m) + s.chars > MAX_CHARS;
    var reason := s.capture != previous.capture || s.at - EndOf(previous) > GAP_MS || s.opens
      || s.at - m[0].at > WINDOW_MS || full;
    if forced == Split || full || (reason && forced != Merge) {
      return result + [[s]];
    }
    return result[..|result| - 1] + [m + [s]];
  }

  method FindMoments(segments: seq<Segment>, edits: Edits) returns (result: seq<Moment>)
    ensures result == Moments(segments, edits)
  {
    var sorted := ByTime(segments);
    result := [];
    assert sorted[..0] == [];
    for i := 0 to |sorted|
      invariant result == Cut(sorted[..i], edits)
    {
      assert sorted[..i + 1][..i] == sorted[..i];
      result := Place(result, sorted[i], Forced(edits, sorted[i].id));
    }
    assert sorted[..|sorted|] == sorted;
  }

  // ---- what is kept about moments -----------------------------------------------------------

  // What the digest of a moment identifies.
  type Fingerprint = seq<(nat, nat, Option<nat>)>

  function Print(m: Moment): (f: Fingerprint) {
    seq(|m|, (i: nat) requires i < |m| => (m[i].id, m[i].text, m[i].speaker))
  }

  // labels by speaker; edits, reviews, failed reviews and bookmarks by segment or moment, which has the id of its
  // first segment; follow-ups with the segment they cite.
  datatype Node = Node(segments: seq<Segment>, candidates: seq<nat>, labels: map<nat, nat>, edits: Edits,
                       reviews: map<nat, Fingerprint>, failed: map<nat, Fingerprint>, bookmarks: map<nat, int>,
                       followups: map<nat, nat>, generation: nat)

  function Ids(segments: seq<Segment>): (r: set<nat>) {
    set s: Segment | s in segments :: s.id
  }

  function Speakers(segments: seq<Segment>): (r: set<nat>) {
    set s: Segment | s in segments && s.speaker.Some? :: s.speaker.value
  }

  // The moment with this id, if there is one.
  function Find(ms: seq<Moment>, id: nat): (r: Option<Moment>)
    ensures r.Some? ==> r.value in ms && r.value[0].id == id
    ensures r.None? ==> forall m: Moment :: m in ms ==> m[0].id != id
  {
    if ms == [] then None else if ms[0][0].id == id then Some(ms[0]) else Find(ms[1..], id)
  }

  predicate Current(ms: seq<Moment>, id: nat, f: Fingerprint) {
    Find(ms, id).Some? && Print(Find(ms, id).value) == f
  }

  function Restrict<T>(m: map<nat, T>, keep: set<nat>): (r: map<nat, T>) {
    map k | k in m && k in keep :: m[k]
  }

  function UpToDate(reviews: map<nat, Fingerprint>, ms: seq<Moment>): (r: set<nat>) {
    set id | id in reviews && Current(ms, id, reviews[id])
  }

  function Citing(followups: map<nat, nat>, ids: set<nat>): (r: set<nat>) {
    set k | k in followups && followups[k] in ids
  }

  function Pruned(n: Node): (r: Node) {
    var ids := Ids(n.segments);
    var edits, reviews := Restrict(n.edits, ids), Restrict(n.reviews, ids);
    n.(labels := Restrict(n.labels, Speakers(n.segments)),
       edits := edits,
       reviews := Restrict(reviews, UpToDate(reviews, Moments(n.segments, edits))),
       failed := Restrict(n.failed, ids),
       bookmarks := Restrict(n.bookmarks, ids),
       followups := Restrict(n.followups, Citing(n.followups, ids)))
  }

  function Edited(n: Node, id: nat, boundary: Option<Boundary>): (r: Node) {
    if id !in Ids(n.segments) then n
    else
      var edits := n.edits[id := if boundary.Some? then boundary.value else Forced(n.edits, id)];
      Pruned(n.(edits := edits, generation := n.generation + 1))
  }

  function Keeping(segments: seq<Segment>, gone: set<nat>): (r: seq<Segment>)
    ensures forall s :: s in r <==> s in segments && s.id !in gone
  {
    if segments == [] then []
    else
      assert segments == segments[..|segments| - 1] + [segments[|segments| - 1]];
      Keeping(segments[..|segments| - 1], gone)
      + (if segments[|segments| - 1].id in gone then [] else [segments[|segments| - 1]])
  }

  function Without(ids: seq<nat>, gone: set<nat>): (r: seq<nat>)
    ensures forall i :: i in r <==> i in ids && i !in gone
  {
    if ids == [] then []
    else
      assert ids == ids[..|ids| - 1] + [ids[|ids| - 1]];
      Without(ids[..|ids| - 1], gone) + (if ids[|ids| - 1] in gone then [] else [ids[|ids| - 1]])
  }

  // A moment goes with its segments, the candidates that cite them, and all that is kept about them.
  function Deleted(n: Node, id: nat): (r: Node) {
    var m := Find(Moments(n.segments, n.edits), id);
    if m.None? then n
    else
      var gone := Ids(m.value);
      Pruned(n.(segments := Keeping(n.segments, gone), candidates := Without(n.candidates, gone), generation := n.generation + 1))
  }

  // A review that was asked of a moment is stored if nothing has been edited since and the moment is unchanged.
  function Reviewed(n: Node, id: nat, asked: Fingerprint, generation: nat): (r: Node) {
    if n.generation != generation || !Current(Moments(n.segments, n.edits), id, asked) then n
    else n.(reviews := n.reviews[id := asked])
  }

  // Nothing refers to a segment that is not there.
  ghost predicate NothingDangles(n: Node) {
    var ids := Ids(n.segments);
    && n.edits.Keys <= ids && n.reviews.Keys <= ids && n.failed.Keys <= ids && n.bookmarks.Keys <= ids
    && (forall k :: k in n.followups ==> n.followups[k] in ids)
    && n.labels.Keys <= Speakers(n.segments)
  }

  // Every stored review is of a moment there is, as it is.
  ghost predicate ReviewsCurrent(n: Node) {
    forall id :: id in n.reviews ==> Current(Moments(n.segments, n.edits), id, n.reviews[id])
  }

  lemma {:induction false} PrunedIsClean(n: Node)
    ensures NothingDangles(Pruned(n)) && ReviewsCurrent(Pruned(n))
  {
  }

  // Pruning drops only what dangles or is out of date.
  lemma {:induction false} PruningIsLeast(n: Node)
    requires NothingDangles(n) && ReviewsCurrent(n)
    ensures Pruned(n) == n
  {
    var ids := Ids(n.segments);
    RestrictedToAll(n.edits, ids);
    RestrictedToAll(n.reviews, ids);
    RestrictedToAll(n.reviews, UpToDate(n.reviews, Moments(n.segments, n.edits)));
    RestrictedToAll(n.failed, ids);
    RestrictedToAll(n.bookmarks, ids);
    RestrictedToAll(n.labels, Speakers(n.segments));
    RestrictedToAll(n.followups, Citing(n.followups, ids));
  }

  lemma {:induction false} RestrictedToAll<T>(m: map<nat, T>, keep: set<nat>)
    requires m.Keys <= keep
    ensures Restrict(m, keep) == m
  {
  }

  // After a deletion no segment of the moment is left, and nothing refers to one.
  lemma {:induction false} DeletionIsComplete(n: Node, id: nat)
    requires Find(Moments(n.segments, n.edits), id).Some?
    ensures var m, d := Find(Moments(n.segments, n.edits), id).value, Deleted(n, id);
            && NothingDangles(d) && ReviewsCurrent(d)
            && (forall s :: s in m ==> s.id !in Ids(d.segments) && s.id !in d.candidates)
            && (forall s :: s in n.segments && s.id !in Ids(m) ==> s in d.segments)
            && (forall s :: s in m ==> s.id !in d.edits && s.id !in d.reviews && s.id !in d.failed && s.id !in d.bookmarks)
  {
    var gone := Ids(Find(Moments(n.segments, n.edits), id).value);
    var rest := n.(segments := Keeping(n.segments, gone), candidates := Without(n.candidates, gone),
                   generation := n.generation + 1);
    PrunedIsClean(rest);
  }

  lemma {:induction false} MomentIsOfSegments(segments: seq<Segment>, edits: Edits, m: Moment)
    requires m in Moments(segments, edits)
    ensures m[0].id in Ids(segments)
  {
    MomentsPartition(segments, edits);
    InFlat(Moments(segments, edits), m, m[0]);
    SameElements(ByTime(segments), segments);
  }

  // Moments with one fingerprint have the same segments with the same words by the same speakers.
  lemma {:induction false} SamePrintSameWords(a: Moment, b: Moment, i: nat)
    requires Print(a) == Print(b) && i < |a|
    ensures |a| == |b| && a[i].id == b[i].id && a[i].text == b[i].text && a[i].speaker == b[i].speaker
  {
    assert Print(a)[i] == Print(b)[i];
  }

  // A review is stored exactly if nothing was edited since it was asked for and its moment is there unchanged; nothing
  // else changes.
  lemma {:induction false} ReviewStoredIff(n: Node, id: nat, asked: Fingerprint, generation: nat)
    ensures var r := Reviewed(n, id, asked, generation);
            if n.generation == generation
               && exists m: Moment :: m in Moments(n.segments, n.edits) && m[0].id == id && FoundFirst(n, m) && Print(m) == asked
            then r == n.(reviews := n.reviews[id := asked]) else r == n
  {
    var found := Find(Moments(n.segments, n.edits), id);
    if found.Some? {
      assert FoundFirst(n, found.value);
    }
  }

  // The moment its id finds.
  ghost predicate FoundFirst(n: Node, m: Moment) {
    Find(Moments(n.segments, n.edits), m[0].id) == Some(m)
  }

  // Every edit and every deletion of something there makes a new generation, so that no review asked for before it is
  // stored; and one of something unknown changes nothing.
  lemma {:induction false} EditsAreCounted(n: Node, id: nat, boundary: Option<Boundary>)
    ensures var e := Edited(n, id, boundary);
            && e.segments == n.segments && e.candidates == n.candidates
            && e.generation == (if id in Ids(n.segments) then n.generation + 1 else n.generation)
            && (id !in Ids(n.segments) ==> e == n)
            && (id in Ids(n.segments) ==>
                  && id in e.edits
                  && e.edits[id] == (if boundary.Some? then boundary.value else if id in n.edits then n.edits[id] else Auto))
            && forall k :: k in e.edits && k != id ==> k in n.edits && e.edits[k] == n.edits[k]
    ensures var d := Deleted(n, id);
            && d.generation == (if Find(Moments(n.segments, n.edits), id).Some? then n.generation + 1 else n.generation)
            && (Find(Moments(n.segments, n.edits), id).None? ==> d == n)
  {
  }

  lemma {:induction false} EditedReviewIsDropped(n: Node, id: nat, boundary: Option<Boundary>, moment: nat, asked: Fingerprint)
    requires id in Ids(n.segments)
    ensures var e := Edited(n, id, boundary); Reviewed(e, moment, asked, n.generation) == e
  {
  }

  // A review is stored only for the moment it was made of.
  lemma {:induction false} StoredReviewIsCurrent(n: Node, id: nat, asked: Fingerprint, generation: nat)
    requires ReviewsCurrent(n) && NothingDangles(n)
    ensures ReviewsCurrent(Reviewed(n, id, asked, generation)) && NothingDangles(Reviewed(n, id, asked, generation))
  {
    var found := Find(Moments(n.segments, n.edits), id);
    if found.Some? && Print(found.value) == asked {
      MomentIsOfSegments(n.segments, n.edits, found.value);
      StoredKeeps(n, id, asked);
    }
  }

  lemma {:induction false} StoredKeeps(n: Node, id: nat, asked: Fingerprint)
    requires ReviewsCurrent(n) && NothingDangles(n) && id in Ids(n.segments)
    requires Current(Moments(n.segments, n.edits), id, asked)
    ensures ReviewsCurrent(n.(reviews := n.reviews[id := asked])) && NothingDangles(n.(reviews := n.reviews[id := asked]))
  {
  }

  lemma {:induction false} InFlat(ms: seq<Moment>, m: Moment, s: Segment)
    requires m in ms && s in m
    ensures s in Flat(ms)
  {
    var n := |ms| - 1;
    if ms[n] != m {
      assert m in ms[..n];
      InFlat(ms[..n], m, s);
    }
  }

  lemma {:induction false} EditIsClean(n: Node, id: nat, boundary: Option<Boundary>)
    requires id in Ids(n.segments)
    ensures NothingDangles(Edited(n, id, boundary)) && ReviewsCurrent(Edited(n, id, boundary))
    ensures Edited(n, id, boundary).segments == n.segments
    ensures boundary.Some? ==> id in Edited(n, id, boundary).edits && Edited(n, id, boundary).edits[id] == boundary.value
  {
    PrunedIsClean(n.(edits := n.edits[id := if boundary.Some? then boundary.value else Forced(n.edits, id)],
                     generation := n.generation + 1));
  }

  // ---- the store ----------------------------------------------------------------------------

  // Deletes from a map every key that is not to be kept.
  method KeepKeys<T>(m: map<nat, T>, keep: set<nat>) returns (r: map<nat, T>)
    ensures r == Restrict(m, keep)
  {
    r := m;
    var todo := m.Keys;
    while todo != {}
      invariant todo <= m.Keys
      invariant forall k :: k in r <==> k in m && (k in todo || k in keep)
      invariant forall k :: k in r ==> r[k] == m[k]
      decreases |todo|
    {
      var k :| k in todo;
      if k !in keep {
        r := r - {k};
      }
      todo := todo - {k};
    }
  }

  class LifelogStore {
    var n: Node

    constructor (n: Node)
      ensures this.n == n
    {
      this.n := n;
    }

    method Prune()
      modifies this
      ensures n == Pruned(old(n))
    {
      var ids := Ids(n.segments);
      var labels := KeepKeys(n.labels, Speakers(n.segments));
      var edits := KeepKeys(n.edits, ids);
      var reviews := KeepKeys(n.reviews, ids);
      var failed := KeepKeys(n.failed, ids);
      var bookmarks := KeepKeys(n.bookmarks, ids);
      var followups := KeepKeys(n.followups, Citing(n.followups, ids));
      var moments := FindMoments(n.segments, edits);
      reviews := KeepKeys(reviews, UpToDate(reviews, moments));
      n := n.(labels := labels, edits := edits, reviews := reviews, failed := failed, bookmarks := bookmarks,
              followups := followups);
    }

    method Edit(id: nat, boundary: Option<Boundary>) returns (ok: bool)
      modifies this
      ensures n == Edited(old(n), id, boundary) && (ok <==> id in Ids(old(n).segments))
    {
      if id !in Ids(n.segments) {
        return false;
      }
      var edit := Forced(n.edits, id);
      if boundary.Some? {
        edit := boundary.value;
      }
      n := n.(edits := n.edits[id := edit], generation := n.generation + 1);
      Prune();
      return true;
    }

    method Delete(id: nat) returns (ok: bool)
      modifies this
      ensures n == Deleted(old(n), id) && (ok <==> Find(Moments(old(n).segments, old(n).edits), id).Some?)
    {
      var moments := FindMoments(n.segments, n.edits);
      var m := Find(moments, id);
      if m.None? {
        return false;
      }
      var gone := Ids(m.value);
      n := n.(segments := Keeping(n.segments, gone), candidates := Without(n.candidates, gone), generation := n.generation + 1);
      Prune();
      return true;
    }

    // The end of a review that was asked of a moment at some generation of the store.
    method StoreReview(id: nat, asked: Fingerprint, generation: nat)
      modifies this
      ensures n == Reviewed(old(n), id, asked, generation)
    {
      if n.generation != generation {
        return;
      }
      var moments := FindMoments(n.segments, n.edits);
      if Current(moments, id, asked) {
        n := n.(reviews := n.reviews[id := asked]);
      }
    }
  }
}
