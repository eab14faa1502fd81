// The map of promise tails that runs the work of one key one at a time: `refreshLocks` in src/chatgpt-auth.js and
// `sessionTurnTails` in src/agent-host.js.

module TailLock {

  datatype Option<T> = None | Some(value: T)

  datatype Status = Waiting | Running | Settled

  // One piece of work. prior is the piece it chains itself after.
  datatype Turn = Turn(key: nat, prior: Option<nat>, status: Status)

  datatype Lock = Lock(turns: seq<Turn>, tails: map<nat, nat>)

  function Arrive(l: Lock, key: nat): (r: Lock) {
    Lock(l.turns + [Turn(key, if key in l.tails then Some(l.tails[key]) else None, Waiting)],
         l.tails[key := |l.turns|])
  }

  predicate CanBegin(l: Lock, t: nat) {
    && t < |l.turns| && l.turns[t].status.Waiting?
    && (l.turns[t].prior.Some? ==> l.turns[t].prior.value < |l.turns| && l.turns[l.turns[t].prior.value].status.Settled?)
  }

  function Begin(l: Lock, t: nat): (r: Lock)
    requires t < |l.turns|
  {
    l.(turns := l.turns[t := l.turns[t].(status := Running)])
  }

  // Settled, whether it succeeded or failed.
  function Settle(l: Lock, t: nat): (r: Lock)
    requires t < |l.turns|
  {
    l.(turns := l.turns[t := l.turns[t].(status := Settled)])
  }

  // The caller of a settled turn drops the tail if it is still its own.
  function Forget(l: Lock, t: nat): (r: Lock)
    requires t < |l.turns|
  {
    var key := l.turns[t].key;
    if key in l.tails && l.tails[key] == t then l.(tails := l.tails - {key}) else l
  }

  datatype Event = Arrived(key: nat) | Began(t: nat) | Finished(t: nat) | Forgot(t: nat)

  predicate Enabled(l: Lock, e: Event) {
    match e
    case Arrived(key) => true
    case Began(t) => CanBegin(l, t)
    case Finished(t) => t < |l.turns| && l.turns[t].status.Running?
    case Forgot(t) => t < |l.turns| && l.turns[t].status.Settled?
  }

  function Next(l: Lock, e: Event): (r: Lock)
    requires Enabled(l, e)
  {
    match e
    case Arrived(key) => Arrive(l, key)
    case Began(t) => Begin(l, t)
    case Finished(t) => Settle(l, t)
    case Forgot(t) => Forget(l, t)
  }

  ghost predicate Run(l: Lock, events: seq<Event>, last: Lock)
    decreases |events|
  {
    if events == [] then last == l
    else Enabled(l, events[0]) && Run(Next(l, events[0]), events[1..], last)
  }

  // A settled turn that drops its tail leaves none of its own, and no other is touched.
  lemma {:induction false} ForgotTail(l: Lock, t: nat)
    requires t < |l.turns|
    ensures var r, key := Forget(l, t), l.turns[t].key;
            && r.turns == l.turns && (key in r.tails ==> r.tails[key] != t)
            && forall k :: k in l.tails && (k != key || l.tails[k] != t) ==> k in r.tails && r.tails[k] == l.tails[k]
  {
  }

  // ---- what every step keeps ----------------------------------------------------------------

  // Everything of this key before turn t has settled.
  ghost predicate SettledBefore(turns: seq<Turn>, key: nat, t: nat) {
    forall u :: 0 <= u < t && u < |turns| && turns[u].key == key ==> turns[u].status.Settled?
  }

  ghost predicate NoneBetween(turns: seq<Turn>, key: nat, p: nat, t: nat) {
    forall u :: p < u < t && u < |turns| ==> turns[u].key != key
  }

  ghost predicate Tails(l: Lock) {
    forall key ::
      if key in l.tails
      then l.tails[key] < |l.turns| && l.turns[l.tails[key]].key == key && NoneBetween(l.turns, key, l.tails[key], |l.turns|)
      else SettledBefore(l.turns, key, |l.turns|)
  }

  ghost predicate Chained(turns: seq<Turn>) {
    forall t :: 0 <= t < |turns| ==>
      match turns[t].prior
      case None => SettledBefore(turns, turns[t].key, t)
      case Some(p) => p < t && turns[p].key == turns[t].key && NoneBetween(turns, turns[t].key, p, t)
  }

  // A turn starts only when all earlier turns of its key have settled.
  ghost predicate InOrder(turns: seq<Turn>) {
    forall t :: 0 <= t < |turns| && !turns[t].status.Waiting? ==> SettledBefore(turns, turns[t].key, t)
  }

  ghost predicate Inv(l: Lock) {
    Tails(l) && Chained(l.turns) && InOrder(l.turns)
  }

  lemma {:induction false} ArriveKeeps(l: Lock, key: nat)
    requires Inv(l)
    ensures Inv(Arrive(l, key))
  {
    var n := Arrive(l, key);
    forall k ensures if k in n.tails
                     then n.tails[k] < |n.turns| && n.turns[n.tails[k]].key == k && NoneBetween(n.turns, k, n.tails[k], |n.turns|)
                     else SettledBefore(n.turns, k, |n.turns|) {
      assert k in l.tails ==> NoneBetween(l.turns, k, l.tails[k], |l.turns|);
      assert k !in l.tails ==> SettledBefore(l.turns, k, |l.turns|);
    }
    forall t | 0 <= t < |n.turns| && n.turns[t].prior.None? ensures SettledBefore(n.turns, n.turns[t].key, t) {
      assert t < |l.turns| ==> SettledBefore(l.turns, l.turns[t].key, t);
      assert t == |l.turns| ==> SettledBefore(l.turns, key, |l.turns|);
    }
    forall t | 0 <= t < |n.turns| && n.turns[t].prior.Some?
      ensures var p := n.turns[t].prior.value;
              p < t && n.turns[p].key == n.turns[t].key && NoneBetween(n.turns, n.turns[t].key, p, t) {
      assert t < |l.turns| ==> NoneBetween(l.turns, l.turns[t].key, l.turns[t].prior.value, t);
      assert t == |l.turns| ==> NoneBetween(l.turns, key, l.tails[key], |l.turns|);
    }
    forall t | 0 <= t < |n.turns| && !n.turns[t].status.Waiting? ensures SettledBefore(n.turns, n.turns[t].key, t) {
      assert SettledBefore(l.turns, l.turns[t].key, t);
    }
  }

  // The same turns, of which one that had not settled may have moved on.
  ghost predicate Moved(turns: seq<Turn>, later: seq<Turn>) {
    && |later| == |turns|
    && forall u :: 0 <= u < |turns| ==> later[u].key == turns[u].key && later[u].prior == turns[u].prior
                                        && (turns[u].status.Settled? ==> later[u].status.Settled?)
  }

  lemma {:induction false} MovedTails(l: Lock, n: Lock)
    requires Tails(l) && n.tails == l.tails && Moved(l.turns, n.turns)
    ensures Tails(n)
  {
    forall k ensures if k in n.tails
                     then n.tails[k] < |n.turns| && n.turns[n.tails[k]].key == k && NoneBetween(n.turns, k, n.tails[k], |n.turns|)
                     else SettledBefore(n.turns, k, |n.turns|) {
      assert k in l.tails ==> NoneBetween(l.turns, k, l.tails[k], |l.turns|);
      assert k !in l.tails ==> SettledBefore(l.turns, k, |l.turns|);
    }
  }

  lemma {:induction false} MovedChained(turns: seq<Turn>, later: seq<Turn>)
    requires Chained(turns) && Moved(turns, later)
    ensures Chained(later)
  {
    forall t | 0 <= t < |later| ensures match later[t].prior
        case None => SettledBefore(later, later[t].key, t)
        case Some(p) => p < t && later[p].key == later[t].key && NoneBetween(later, later[t].key, p, t) {
      assert turns[t].prior.None? ==> SettledBefore(turns, turns[t].key, t);
      assert turns[t].prior.Some? ==> NoneBetween(turns, turns[t].key, turns[t].prior.value, t);
    }
  }

  lemma {:induction false} StatusKeeps(l: Lock, t: nat, status: Status)
    requires Inv(l) && t < |l.turns| && !l.turns[t].status.Settled?
    requires SettledBefore(l.turns, l.turns[t].key, t)
    ensures Inv(l.(turns := l.turns[t := l.turns[t].(status := status)]))
  {
    var n := l.(turns := l.turns[t := l.turns[t].(status := status)]);
    MovedTails(l, n);
    MovedChained(l.turns, n.turns);
    forall u | 0 <= u < |n.turns| && !n.turns[u].status.Waiting? ensures SettledBefore(n.turns, n.turns[u].key, u) {
      assert SettledBefore(l.turns, l.turns[u].key, u);
    }
  }

  lemma {:induction false} BeginIsAlone(l: Lock, t: nat)
    requires Inv(l) && CanBegin(l, t)
    ensures SettledBefore(l.turns, l.turns[t].key, t)
  {
    var key := l.turns[t].key;
    if l.turns[t].prior.Some? {
      var p := l.turns[t].prior.value;
      assert SettledBefore(l.turns, key, p);
      assert NoneBetween(l.turns, key, p, t);
      forall u | 0 <= u < t && l.turns[u].key == key ensures l.turns[u].status.Settled? {
        assert u < p || u == p || p < u;
      }
    }
  }

  lemma {:induction false} StepKeeps(l: Lock, e: Event)
    requires Inv(l) && Enabled(l, e)
    ensures Inv(Next(l, e))
  {
    match e {
      case Arrived(key) => ArriveKeeps(l, key);
      case Began(t) =>
        BeginIsAlone(l, t);
        StatusKeeps(l, t, Running);
      case Finished(t) =>
        assert SettledBefore(l.turns, l.turns[t].key, t);
        StatusKeeps(l, t, Settled);
      case Forgot(t) => ForgetKeeps(l, t);
    }
  }

  lemma {:induction false} ForgetKeeps(l: Lock, t: nat)
    requires Inv(l) && t < |l.turns| && l.turns[t].status.Settled?
    ensures Inv(Forget(l, t))
  {
    var key, n := l.turns[t].key, Forget(l, t);
    if key in l.tails && l.tails[key] == t {
      assert SettledBefore(l.turns, key, t);
      assert NoneBetween(l.turns, key, t, |l.turns|);
      assert SettledBefore(l.turns, key, |l.turns|);
      forall k ensures if k in n.tails
                       then n.tails[k] < |n.turns| && n.turns[n.tails[k]].key == k && NoneBetween(n.turns, k, n.tails[k], |n.turns|)
                       else SettledBefore(n.turns, k, |n.turns|) {
        assert k != key ==> (k in n.tails <==> k in l.tails);
        assert k in l.tails ==> NoneBetween(l.turns, k, l.tails[k], |l.turns|);
      }
    }
  }

  lemma {:induction false} RunKeeps(l: Lock, events: seq<Event>, last: Lock)
    requires Inv(l) && Run(l, events, last)
    ensures Inv(last)
    decreases |events|
  {
    if events != [] {
      StepKeeps(l, events[0]);
      RunKeeps(Next(l, events[0]), events[1..], last);
    }
  }

  // ---- main results -------------------------------------------------------------------------

  // The work of one key starts in the order it arrived, each piece after the one before has settled; so no two
  // pieces of one key run at the same time.
  lemma {:induction false} RunsInArrivalOrder(events: seq<Event>, l: Lock, t: nat, u: nat)
    requires Run(Lock([], map[]), events, l) && t < u < |l.turns| && l.turns[t].key == l.turns[u].key
    requires !l.turns[u].status.Waiting?
    ensures l.turns[t].status.Settled?
  {
    RunKeeps(Lock([], map[]), events, l);
    assert SettledBefore(l.turns, l.turns[u].key, u);
  }

  // The oldest unsettled piece of a key is running or may start, whatever became of those before it.
  lemma {:induction false} OldestMayBegin(l: Lock, t: nat)
    requires Inv(l) && t < |l.turns| && l.turns[t].status.Waiting? && SettledBefore(l.turns, l.turns[t].key, t)
    ensures CanBegin(l, t)
  {
  }

  // ---- the map ------------------------------------------------------------------------------

  class TurnTails {
    var turns: seq<Turn>
    var tails: map<nat, nat>

    constructor ()
      ensures View() == Lock([], map[])
    {
      turns, tails := [], map[];
    }

    ghost function View(): (l: Lock)
      reads this
    {
      Lock(turns, tails)
    }

    // Chains a piece of work after the tail of its key and becomes the tail.
    method Enqueue(key: nat) returns (t: nat)
      modifies this
      ensures View() == Arrive(old(View()), key) && t == |old(turns)|
    {
      var prior := if key in tails then Some(tails[key]) else None;
      t := |turns|;
      turns := turns + [Turn(key, prior, Waiting)];
      tails := tails[key := t];
    }

    method Start(t: nat)
      requires CanBegin(View(), t)
      modifies this
      ensures View() == Begin(old(View()), t)
    {
      turns := turns[t := turns[t].(status := Running)];
    }

    method Finish(t: nat)
      requires t < |turns|
      modifies this
      ensures View() == Settle(old(View()), t)
    {
      turns := turns[t := turns[t].(status := Settled)];
    }

    method DropTail(t: nat)
      requires t < |turns|
      modifies this
      ensures View() == Forget(old(View()), t)
    {
      var key := turns[t].key;
      if key in tails && tails[key] == t {
        tails := tails - {key};
      }
    }
  }
}
