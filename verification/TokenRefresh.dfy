// Access tokens and their renewal: `getAccessToken` and `refreshTokens` in src/chatgpt-auth.js. Renewals of one
// sign-in go through the tail lock, because the refresh token rotates. There is no sign-in or sign-out meanwhile.

module TokenRefresh {
  import opened TailLock

  const SKEW_MS: int := 120_000

  // The tokens on disk; usable says that a refresh token and a client id are there.
  datatype Tokens = Tokens(access: nat, refresh: nat, usable: bool, expiresAt: int)

  // A call that waits for its turn: forced after a 401 that rejected the token `stale`.
  datatype Caller = Caller(forced: bool, stale: nat)

  // The server's answer. Fatal stands for the errors after which a refresh token is of no use.
  datatype Response = Granted(access: nat, refresh: Option<nat>, expiresIn: int) | Fatal | Temporary

  datatype Answer = Token(access: nat) | SignedOut | Failed

  // file: the token file. asking: turns whose request is with the server, with the tokens they presented and the
  // clock reading of the request. done: the renewals that succeeded, in order. answers: what each call returned.
  datatype World = World(lock: Lock, file: Option<Tokens>, callers: map<nat, Caller>, asking: map<nat, (Tokens, int)>,
                         done: seq<Renewal>, answers: map<nat, Answer>, requests: nat, now: int)

  datatype Renewal = Renewal(caller: Caller, presented: Tokens, granted: Tokens)

  // Whether a call is answered from the file without waiting.
  predicate Current(file: Option<Tokens>, now: int) {
    file.Some? && file.value.expiresAt - SKEW_MS > now
  }

  // What a call does once it is its turn: answer from the file, or present the refresh token.
  datatype Decision = Answers(answer: Answer, clears: bool) | Asks(tokens: Tokens)

  function Decide(file: Option<Tokens>, c: Caller, now: int): (r: Decision) {
    if file.None? then Answers(SignedOut, false)
    else if c.forced && file.value.access != c.stale && file.value.expiresAt > now then Answers(Token(file.value.access), false)
    else if !c.forced && file.value.expiresAt - SKEW_MS > now then Answers(Token(file.value.access), false)
    else if !file.value.usable then Answers(SignedOut, true)
    else Asks(file.value)
  }

  function Renewed(t: Tokens, g: Response, at: int): (r: Tokens)
    requires g.Granted?
  {
    Tokens(g.access, if g.refresh.Some? then g.refresh.value else t.refresh, t.usable, at + g.expiresIn)
  }

  // saves: the tokens granted can be written to the file; otherwise they are lost.
  function Received(file: Option<Tokens>, presented: Tokens, g: Response, at: int, saves: bool):
    (r: (Option<Tokens>, Answer))
  {
    match g
    case Granted(access, _, _) => if saves then (Some(Renewed(presented, g, at)), Token(access)) else (file, Failed)
    case Fatal => (None, SignedOut)
    case Temporary => (file, Failed)
  }

  datatype Event =
    | Called(forced: bool, stale: Option<nat>, at: int)
    | TurnTaken(t: nat, checked: int, asked: int)
    | Responded(t: nat, response: Response, saves: bool)
    | Dropped(t: nat)

  ghost predicate Enabled(w: World, e: Event) {
    match e
    case Called(forced, stale, at) => w.now <= at
    case TurnTaken(t, checked, asked) => CanBegin(w.lock, t) && t in w.callers && w.now <= checked <= asked
    case Responded(t, response, _) =>
      t in w.asking && t in w.callers && t < |w.lock.turns| && (response.Granted? ==> response.expiresIn > 0)
    case Dropped(t) => t < |w.lock.turns| && w.lock.turns[t].status.Settled?
  }

  ghost function Next(w: World, e: Event): (r: World)
    requires Enabled(w, e)
  {
    match e
    case Called(forced, stale, at) =>
      if w.file.None? || (!forced && Current(w.file, at)) then w.(now := at)
      else
        var c := Caller(forced, if stale.Some? then stale.value else w.file.value.access);
        w.(lock := Arrive(w.lock, 0), callers := w.callers[|w.lock.turns| := c], now := at)
    case TurnTaken(t, checked, asked) =>
      (match Decide(w.file, w.callers[t], checked)
       case Answers(answer, clears) =>
         w.(lock := Settle(Begin(w.lock, t), t), file := if clears then None else w.file,
            answers := w.answers[t := answer], now := asked)
       case Asks(tokens) =>
         w.(lock := Begin(w.lock, t), asking := w.asking[t := (tokens, asked)], requests := w.requests + 1, now := asked))
    case Responded(t, response, saves) =>
      var (presented, at) := w.asking[t];
      var (file, answer) := Received(w.file, presented, response, at, saves);
      w.(lock := Settle(w.lock, t), file := file, asking := w.asking - {t}, answers := w.answers[t := answer],
         done := if response.Granted? then w.done + [Renewal(w.callers[t], presented, Renewed(presented, response, at))]
                 else w.done)
    case Dropped(t) => w.(lock := Forget(w.lock, t))
  }

  ghost predicate Run(w: World, events: seq<Event>, last: World)
    decreases |events|
  {
    if events == [] then last == w
    else Enabled(w, events[0]) && Run(Next(w, events[0]), events[1..], last)
  }

  function SignedIn(tokens: Tokens, now: int): (w: World) {
    World(Lock([], map[]), Some(tokens), map[], map[], [], map[], 0, now)
  }

  // ---- what every step keeps ----------------------------------------------------------------

  ghost predicate OneKey(l: Lock) {
    forall t :: 0 <= t < |l.turns| ==> l.turns[t].key == 0
  }

  // A request with the server belongs to a running turn and presented the tokens that are still on disk.
  ghost predicate AskingCurrent(w: World) {
    forall t :: t in w.asking ==>
      && t < |w.lock.turns| && w.lock.turns[t].status.Running? && w.file == Some(w.asking[t].0)
  }

  ghost predicate CallersKnown(w: World) {
    forall t :: 0 <= t < |w.lock.turns| ==> t in w.callers
  }

  ghost predicate Inv(w: World) {
    TailLock.Inv(w.lock) && OneKey(w.lock) && AskingCurrent(w) && CallersKnown(w)
  }

  lemma {:induction false} RunningIsAlone(l: Lock, t: nat, u: nat)
    requires TailLock.Inv(l) && OneKey(l) && t < |l.turns| && u < |l.turns| && t != u && l.turns[t].status.Running?
    ensures !l.turns[u].status.Running? && !CanBegin(l, u)
  {
    assert SettledBefore(l.turns, l.turns[t].key, t);
    if t < u {
      assert l.turns[u].status.Running? ==> SettledBefore(l.turns, l.turns[u].key, u);
      if CanBegin(l, u) {
        BeginIsAlone(l, u);
      }
    }
  }

  // While a request is with the server no other turn may start, and no other request is with the server.
  lemma {:induction false} AskingIsAlone(w: World, t: nat)
    requires Inv(w) && t in w.asking
    ensures forall u :: u in w.asking ==> u == t
    ensures forall u: nat :: !CanBegin(w.lock, u)
  {
    forall u | u in w.asking ensures u == t {
      if u != t {
        RunningIsAlone(w.lock, t, u);
      }
    }
    forall u: nat ensures !CanBegin(w.lock, u) {
      if u != t && u < |w.lock.turns| {
        RunningIsAlone(w.lock, t, u);
      }
    }
  }

  lemma {:induction false} TurnTakenKeeps(w: World, t: nat, checked: int, asked: int)
    requires Inv(w) && Enabled(w, TurnTaken(t, checked, asked))
    ensures Inv(Next(w, TurnTaken(t, checked, asked)))
  {
    TailLock.StepKeeps(w.lock, Began(t));
    TailLock.StepKeeps(Begin(w.lock, t), Finished(t));
    assert w.asking == map[] by {
      if u :| u in w.asking {
        AskingIsAlone(w, u);
      }
    }
  }

  lemma {:induction false} RespondedKeeps(w: World, t: nat, response: Response, saves: bool)
    requires Inv(w) && Enabled(w, Responded(t, response, saves))
    ensures Inv(Next(w, Responded(t, response, saves)))
  {
    AskingIsAlone(w, t);
    TailLock.StepKeeps(w.lock, Finished(t));
  }

  lemma {:induction false} WaitingKeeps(w: World, c: Caller)
    requires OneKey(w.lock) && AskingCurrent(w) && CallersKnown(w)
    ensures var n := w.(lock := Arrive(w.lock, 0), callers := w.callers[|w.lock.turns| := c]);
            OneKey(n.lock) && AskingCurrent(n) && CallersKnown(n)
  {
    var turns := Arrive(w.lock, 0).turns;
    assert forall t :: 0 <= t < |w.lock.turns| ==> turns[t] == w.lock.turns[t];
  }

  lemma {:induction false} CalledKeeps(w: World, forced: bool, stale: Option<nat>, at: int)
    requires Inv(w) && w.now <= at
    ensures Inv(Next(w, Called(forced, stale, at)))
  {
    if w.file.Some? && (forced || !Current(w.file, at)) {
      var c := Caller(forced, if stale.Some? then stale.value else w.file.value.access);
      ArriveKeeps(w.lock, 0);
      WaitingKeeps(w, c);
      assert Next(w, Called(forced, stale, at))
          == w.(lock := Arrive(w.lock, 0), callers := w.callers[|w.lock.turns| := c], now := at);
    }
  }

  lemma {:induction false} StepKeeps(w: World, e: Event)
    requires Inv(w) && Enabled(w, e)
    ensures Inv(Next(w, e))
  {
    match e {
      case Called(forced, stale, at) => CalledKeeps(w, forced, stale, at);
      case TurnTaken(t, checked, asked) => TurnTakenKeeps(w, t, checked, asked);
      case Responded(t, response, saves) => RespondedKeeps(w, t, response, saves);
      case Dropped(t) => ForgetKeeps(w.lock, t);
    }
  }

  lemma {:induction false} RunKeeps(w: World, events: seq<Event>, last: World)
    requires Inv(w) && Run(w, events, last)
    ensures Inv(last)
    decreases |events|
  {
    if events != [] {
      StepKeeps(w, events[0]);
      RunKeeps(Next(w, events[0]), events[1..], last);
    }
  }

  // ---- main results -------------------------------------------------------------------------

  // In every run at most one request is with the server, and it presented the refresh token that is still the one
  // on disk: the most recently stored.
  lemma {:induction false} OneRequestWithLatestToken(tokens: Tokens, now: int, events: seq<Event>, w: World)
    requires Run(SignedIn(tokens, now), events, w)
    ensures |w.asking| <= 1
    ensures forall t :: t in w.asking ==> w.file == Some(w.asking[t].0)
  {
    RunKeeps(SignedIn(tokens, now), events, w);
    if w.asking != map[] {
      var t :| t in w.asking;
      AskingIsAlone(w, t);
      assert w.asking.Keys == {t};
    }
  }

  // A call that waited and got a token got the one stored when its turn ended.
  lemma {:induction false} AnswersAreStored(w: World, e: Event, t: nat)
    requires Inv(w) && Enabled(w, e) && t in Next(w, e).answers && Next(w, e).answers[t].Token?
    requires t !in w.answers || w.answers[t] != Next(w, e).answers[t]
    ensures Next(w, e).file.Some? && Next(w, e).answers[t].access == Next(w, e).file.value.access
    ensures t in w.callers && w.callers[t].forced ==>
      Next(w, e).answers[t].access != w.callers[t].stale || (e.Responded? && e.response.Granted?)
  {
  }

  // A call is answered at once when signed out, or unless it was forced while the stored token has more than two minutes
  // left; any other waits for its turn, with the token it was told is rejected, or else the stored one.
  lemma {:induction false} CalledWaitsIff(w: World, forced: bool, stale: Option<nat>, at: int)
    requires Enabled(w, Called(forced, stale, at))
    ensures var n, t := Next(w, Called(forced, stale, at)), |w.lock.turns|;
            if w.file.Some? && (forced || w.file.value.expiresAt <= at + 2 * 60 * 1000)
            then n.lock == Arrive(w.lock, 0) && t in n.callers
                 && n.callers[t] == Caller(forced, if stale.Some? then stale.value else w.file.value.access)
            else n.lock == w.lock && n.callers == w.callers
    ensures Next(w, Called(forced, stale, at)).file == w.file
  {
  }

  // What a response leaves in the file: new tokens together, with the rotated refresh token if there is one; none after
  // a final refusal; and the old ones after any other failure.
  lemma {:induction false} RespondedFile(w: World, e: Event)
    requires Enabled(w, e) && e.Responded?
    ensures var (presented, at) := w.asking[e.t]; var n := Next(w, e);
            match e.response
            case Granted(access, refresh, expiresIn) =>
              && n.file == (if e.saves
                            then Some(Tokens(access, if refresh.Some? then refresh.value else presented.refresh,
                                             presented.usable, at + expiresIn))
                            else w.file)
              && e.t in n.answers && n.answers[e.t] == (if e.saves then Token(access) else Failed)
            case Fatal => n.file == None && e.t in n.answers && n.answers[e.t] == SignedOut
            case Temporary => n.file == w.file && e.t in n.answers && n.answers[e.t] == Failed
  {
  }

  // A turn answers with the stored token exactly if that is not the rejected one and not expired, or, for a call that was
  // not forced, has more than two minutes left; it asks the server if it can; and otherwise signs out.
  lemma {:induction false} TurnDecides(file: Option<Tokens>, c: Caller, now: int)
    ensures var d := Decide(file, c, now);
            && (d == Answers(SignedOut, false) <==> file.None?)
            && (d.Answers? && d.answer.Token? <==>
                  file.Some? && (if c.forced then file.value.access != c.stale && now < file.value.expiresAt
                                 else now + 2 * 60 * 1000 < file.value.expiresAt))
            && (d.Answers? && d.answer.Token? ==> d.answer.access == file.value.access && !d.clears)
            && (d.Asks? ==> file == Some(d.tokens) && d.tokens.usable)
            && (d == Answers(SignedOut, true) ==> file.Some? && !file.value.usable)
            && (d.Asks? || (d.Answers? && d.answer != Failed))
  {
  }

  // Once the server has refused the refresh token for good, nothing is ever asked again.
  lemma {:induction false} FatalIsFinal(w: World, events: seq<Event>, last: World)
    requires Inv(w) && w.file.None? && w.asking == map[] && Run(w, events, last)
    ensures last.requests == w.requests && last.file.None?
    decreases |events|
  {
    if events != [] {
      StepKeeps(w, events[0]);
      FatalIsFinal(Next(w, events[0]), events[1..], last);
    }
  }

  lemma {:induction false} FatalAnswerIsFinal(w: World, t: nat, saves: bool, events: seq<Event>, last: World)
    requires Inv(w) && Enabled(w, Responded(t, Fatal, saves)) && Run(Next(w, Responded(t, Fatal, saves)), events, last)
    ensures last.requests == w.requests && last.file.None?
  {
    StepKeeps(w, Responded(t, Fatal, saves));
    AskingIsAlone(w, t);
    assert Next(w, Responded(t, Fatal, saves)).asking == map[];
    FatalIsFinal(Next(w, Responded(t, Fatal, saves)), events, last);
  }

  // ---- one renewal for one token ------------------------------------------------------------

  // What a well-behaved server and a working disk amount to, and prompt turns: a token granted is none the file ever
  // held and is saved; and a call that takes its turn finds the stored token unexpired.
  ghost predicate Steady(w: World, e: Event, held: set<nat>, prompt: bool) {
    && (e.Responded? && e.response.Granted? ==> e.response.access !in held && e.saves)
    && (prompt && e.TurnTaken? && w.file.Some? ==> w.file.value.expiresAt > e.checked)
  }

  function Held(w: World, held: set<nat>): (r: set<nat>) {
    if w.file.Some? then held + {w.file.value.access} else held
  }

  // held: every access token the file has held so far.
  ghost predicate SteadyRun(w: World, events: seq<Event>, held: set<nat>, prompt: bool, last: World)
    decreases |events|
  {
    if events == [] then last == w
    else
      && Enabled(w, events[0]) && Steady(w, events[0], held, prompt)
      && SteadyRun(Next(w, events[0]), events[1..], Held(Next(w, events[0]), held), prompt, last)
  }

  ghost predicate PresentedOnce(done: seq<Renewal>) {
    forall i, j :: 0 <= i < j < |done| ==> done[i].presented.access != done[j].presented.access
  }

  ghost predicate StaleOnce(done: seq<Renewal>) {
    forall i, j :: 0 <= i < j < |done| && done[i].caller.forced && done[j].caller.forced ==>
      done[i].caller.stale != done[j].caller.stale
  }

  // Every renewal so far replaced a token that the file no longer holds, each another.
  ghost predicate Replaced(w: World, held: set<nat>) {
    && (w.file.Some? ==> w.file.value.access in held)
    && (forall i :: 0 <= i < |w.done| ==>
          w.done[i].presented.access in held && (w.file.Some? ==> w.done[i].presented.access != w.file.value.access))
    && PresentedOnce(w.done)
  }

  // A forced renewal replaced the token its caller found rejected.
  ghost predicate ForRejected(w: World) {
    && (forall i :: 0 <= i < |w.done| && w.done[i].caller.forced ==> w.done[i].caller.stale == w.done[i].presented.access)
    && (forall t :: t in w.asking && t in w.callers && w.callers[t].forced ==> w.callers[t].stale == w.asking[t].0.access)
  }

  lemma {:induction false} ResponseReplaces(w: World, t: nat, response: Response, saves: bool, held: set<nat>, prompt: bool)
    requires Inv(w) && Enabled(w, Responded(t, response, saves)) && Steady(w, Responded(t, response, saves), held, prompt)
    requires Replaced(w, held)
    ensures var n := Next(w, Responded(t, response, saves)); Replaced(n, Held(n, held))
  {
    AskingIsAlone(w, t);
  }

  lemma {:induction false} StepReplaces(w: World, e: Event, held: set<nat>, prompt: bool)
    requires Inv(w) && Enabled(w, e) && Steady(w, e, held, prompt) && Replaced(w, held)
    ensures Replaced(Next(w, e), Held(Next(w, e), held))
  {
    if e.Responded? {
      ResponseReplaces(w, e.t, e.response, e.saves, held, prompt);
    }
  }

  lemma {:induction false} StepForRejected(w: World, e: Event, held: set<nat>)
    requires Inv(w) && Enabled(w, e) && Steady(w, e, held, true) && ForRejected(w)
    ensures ForRejected(Next(w, e))
  {
    if e.Responded? {
      AskingIsAlone(w, e.t);
    }
  }

  lemma {:induction false} SteadyRunKeeps(w: World, events: seq<Event>, held: set<nat>, prompt: bool, last: World)
    requires Inv(w) && SteadyRun(w, events, held, prompt, last) && Replaced(w, held) && (prompt ==> ForRejected(w))
    ensures PresentedOnce(last.done) && (prompt ==> ForRejected(last))
    decreases |events|
  {
    if events != [] {
      var n := Next(w, events[0]);
      StepKeeps(w, events[0]);
      StepReplaces(w, events[0], held, prompt);
      if prompt {
        StepForRejected(w, events[0], held);
      }
      SteadyRunKeeps(n, events[1..], Held(n, held), prompt, last);
    }
  }

  // However many calls there are and however late their turns: no token is renewed twice.
  lemma {:induction false} OneRenewalPerToken(tokens: Tokens, now: int, events: seq<Event>, w: World)
    requires SteadyRun(SignedIn(tokens, now), events, {tokens.access}, false, w)
    ensures PresentedOnce(w.done)
  {
    SteadyRunKeeps(SignedIn(tokens, now), events, {tokens.access}, false, w);
  }

  // However many calls hold the same rejected token, at most one renewal succeeds for it.
  lemma {:induction false} OneRenewalPerStaleToken(tokens: Tokens, now: int, events: seq<Event>, w: World)
    requires SteadyRun(SignedIn(tokens, now), events, {tokens.access}, true, w)
    ensures StaleOnce(w.done)
  {
    SteadyRunKeeps(SignedIn(tokens, now), events, {tokens.access}, true, w);
  }

  // A call that waited while its token was replaced asks the server again exactly when the file still holds the
  // token it found rejected, or holds one that has expired meanwhile; a second renewal for that token follows.
  lemma {:induction false} RenewsAgainIff(w: World, t: nat, i: nat, at: int, g: Response, saves: bool)
    requires Inv(w) && Enabled(w, TurnTaken(t, at, at)) && w.callers[t].forced
    requires i < |w.done| && w.done[i].caller == w.callers[t] && w.file.Some? && w.file.value.usable
    requires g.Granted? && g.expiresIn > 0
    ensures t in Next(w, TurnTaken(t, at, at)).asking
        <==> w.file.value.access == w.callers[t].stale || w.file.value.expiresAt <= at
    ensures t in Next(w, TurnTaken(t, at, at)).asking ==>
      !StaleOnce(Next(Next(w, TurnTaken(t, at, at)), Responded(t, g, saves)).done)
  {
    assert w.asking == map[] by {
      if u :| u in w.asking {
        AskingIsAlone(w, u);
      }
    }
    var n := Next(w, TurnTaken(t, at, at));
    if t in n.asking {
      var m := Next(n, Responded(t, g, saves));
      assert m.done[i].caller == m.done[|w.done|].caller;
    }
  }

  lemma {:induction false} RunThen(w: World, events: seq<Event>, last: World, e: Event)
    requires Run(w, events, last) && Enabled(last, e)
    ensures Run(w, events + [e], Next(last, e))
    decreases |events|
  {
    if events == [] {
      assert [e][1..] == [];
      assert Run(Next(w, e), [], Next(w, e));
    } else {
      RunThen(Next(w, events[0]), events[1..], last, e);
      assert (events + [e])[1..] == events[1..] + [e];
    }
  }

  // A waiting call that was not forced asks the server exactly when the stored token is about to expire.
  lemma {:induction false} UnforcedRenewsIff(w: World, t: nat, at: int)
    requires Inv(w) && Enabled(w, TurnTaken(t, at, at)) && !w.callers[t].forced
    requires w.file.Some? && w.file.value.usable
    ensures t in Next(w, TurnTaken(t, at, at)).asking <==> w.file.value.expiresAt - SKEW_MS <= at
  {
    assert w.asking == map[] by {
      if u :| u in w.asking {
        AskingIsAlone(w, u);
      }
    }
  }

  const OLD: Tokens := Tokens(0, 0, true, 0)

  // Two calls wait with the same expired token. What the first is granted leaves the second to ask again.
  lemma {:induction false} TwoTurns(forced: bool, g: Response, saves: bool, at: int) returns (events: seq<Event>, w: World)
    requires g.Granted? && g.expiresIn > 0 && at >= 0
    requires Decide(Received(Some(OLD), OLD, g, 0, saves).0, Caller(forced, 0), at).Asks?
    ensures Run(SignedIn(OLD, 0), events, w)
    ensures |w.done| == 2 && w.done[0].caller == w.done[1].caller == Caller(forced, 0)
  {
    var w0, e := SignedIn(OLD, 0), Called(forced, Some(0), 0);
    assert Run(w0, [], w0);
    RunThen(w0, [], w0, e);
    var w1 := Next(w0, e);
    RunThen(w0, [] + [e], w1, e);
    var w2 := Next(w1, e);
    RunThen(w0, [] + [e] + [e], w2, TurnTaken(0, 0, 0));
    var w3 := Next(w2, TurnTaken(0, 0, 0));
    RunThen(w0, [] + [e] + [e] + [TurnTaken(0, 0, 0)], w3, Responded(0, g, saves));
    var w4 := Next(w3, Responded(0, g, saves));
    var first := [] + [e] + [e] + [TurnTaken(0, 0, 0)] + [Responded(0, g, saves)];
    RunThen(w0, first, w4, TurnTaken(1, at, at));
    var w5 := Next(w4, TurnTaken(1, at, at));
    RunThen(w0, first + [TurnTaken(1, at, at)], w5, Responded(1, Granted(2, None, 1), true));
    w := Next(w5, Responded(1, Granted(2, None, 1), true));
    events := first + [TurnTaken(1, at, at)] + [Responded(1, Granted(2, None, 1), true)];
  }

  // The first call renews the rejected token for one millisecond, and the second takes its turn after that; or the
  // first cannot save what it was granted, and the second takes its turn at once.
  lemma {:induction false} SlowTurnRenewsTwice(saves: bool) returns (events: seq<Event>, w: World)
    ensures Run(SignedIn(OLD, 0), events, w) && !StaleOnce(w.done)
  {
    events, w := TwoTurns(true, Granted(1, None, 1), saves, if saves then 1 else 0);
    assert w.done[0].caller.stale == w.done[1].caller.stale;
  }

  // Calls that were not forced each renew, one after another, when tokens are granted for no longer than the skew.
  lemma {:induction false} ShortLifeRenewsEach(life: int) returns (events: seq<Event>, w: World)
    requires 0 < life <= SKEW_MS
    ensures Run(SignedIn(OLD, 0), events, w) && |w.done| == 2 && !w.done[0].caller.forced && !w.done[1].caller.forced
  {
    events, w := TwoTurns(false, Granted(1, None, life), true, 0);
  }

  // ---- the sign-in --------------------------------------------------------------------------

  class ChatGPTAuth {
    const tails: TurnTails
    var file: Option<Tokens>

    constructor (tails: TurnTails, file: Option<Tokens>)
      ensures this.tails == tails && this.file == file
    {
      this.tails := tails;
      this.file := file;
    }

    // The part of `getAccessToken` before it waits: an answer, or a place in the queue.
    method GetAccessToken(forced: bool, stale: Option<nat>, at: int) returns (answer: Option<Answer>, caller: Caller, t: nat)
      modifies tails
      ensures answer.Some? <==> file.None? || (!forced && Current(file, at))
      ensures answer.Some? ==> answer.value == if file.Some? then Token(file.value.access) else SignedOut
      ensures answer.None? ==> t == |old(tails.turns)|
      ensures answer.None? ==> caller == Caller(forced, if stale.Some? then stale.value else file.value.access)
      ensures tails.View() == if answer.Some? then old(tails.View()) else Arrive(old(tails.View()), 0)
    {
      t, caller := 0, Caller(forced, 0);
      if file.None? {
        answer := Some(SignedOut);
        return;
      }
      var record := file.value;
      if !forced && record.expiresAt - SKEW_MS > at {
        answer := Some(Token(record.access));
        return;
      }
      answer, caller := None, Caller(forced, if stale.Some? then stale.value else record.access);
      t := tails.Enqueue(0);
    }

    // Its turn, up to an answer or the request.
    method TakeTurn(t: nat, caller: Caller, at: int) returns (decision: Decision)
      requires CanBegin(tails.View(), t)
      modifies this, tails
      ensures decision == Decide(old(file), caller, at)
      ensures file == if decision.Answers? && decision.clears then None else old(file)
      ensures tails.View() == if decision.Answers? then Settle(Begin(old(tails.View()), t), t)
                              else Begin(old(tails.View()), t)
    {
      tails.Start(t);
      if file.None? {
        decision := Answers(SignedOut, false);
      } else {
        var latest := file.value;
        if caller.forced && latest.access != caller.stale && latest.expiresAt > at {
          decision := Answers(Token(latest.access), false);
        } else if !caller.forced && latest.expiresAt - SKEW_MS > at {
          decision := Answers(Token(latest.access), false);
        } else if !latest.usable {
          file := None;
          decision := Answers(SignedOut, true);
        } else {
          decision := Asks(latest);
        }
      }
      if decision.Answers? {
        tails.Finish(t);
      }
    }

    method Receive(t: nat, presented: Tokens, response: Response, at: int, saves: bool) returns (answer: Answer)
      requires t < |tails.turns|
      modifies this, tails
      ensures (file, answer) == Received(old(file), presented, response, at, saves)
      ensures tails.View() == Settle(old(tails.View()), t)
    {
      match response {
        case Granted(access, refresh, expiresIn) =>
          if saves {
            file := Some(Renewed(presented, response, at));
          }
          answer := if saves then Token(access) else Failed;
        case Fatal =>
          file := None;
          answer := SignedOut;
        case Temporary =>
          answer := Failed;
      }
      tails.Finish(t);
    }
  }
}
