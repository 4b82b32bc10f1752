/** What the scheduler keeps account of, as values: the requests it holds, the permits they
  * hold, the outcome counters, and what has been sent to each client. */
module Ledger {
  import opened Basics
  import opened Backend
  import opened Runtime

  type User = string

  datatype Spec = Spec(user: User, prompt: seq<Token>, params: Params, priority: nat)

  /** `id` is the submission number, which also breaks ties between equal priorities. */
  datatype Request = Request(id: nat, spec: Spec)

  /** Heap order: highest priority first, oldest first within a priority. */
  predicate RequestLe(x: Request, y: Request) {
    x.spec.priority < y.spec.priority || (x.spec.priority == y.spec.priority && y.id <= x.id)
  }

  // ---------------------------------------------------------------- counters

  datatype Counters = Counters(
    submitted: nat, completed: nat, cancelled: nat, timedOut: nat, failed: nat, rejectedBusy: nat, rejectedRate: nat)
  {
    function Settled(): nat { completed + cancelled + timedOut + failed }
  }

  datatype Cause = Completed | Cancelled | TimedOut | Failed

  function Count(n: Counters, cause: Cause): Counters {
    match cause
    case Completed => n.(completed := n.completed + 1)
    case Cancelled => n.(cancelled := n.cancelled + 1)
    case TimedOut => n.(timedOut := n.timedOut + 1)
    case Failed => n.(failed := n.failed + 1)
  }

  /** Every request ever accepted has either been settled once or is still held. */
  ghost predicate Balanced(n: Counters, held: multiset<Request>) {
    n.submitted == n.Settled() + |held|
  }

  lemma SettleOne(n: Counters, held: multiset<Request>, r: Request, cause: Cause)
    requires Balanced(n, held) && r in held
    ensures Balanced(Count(n, cause), held - multiset{r})
  {
    assert |held - multiset{r}| == |held| - 1;
  }

  /** The requests that ended for this cause. */
  function Ended(ends: map<nat, Cause>, cause: Cause): set<nat> {
    set id | id in ends && ends[id] == cause
  }

  /** Each counter counts the requests that ended for its cause. */
  ghost predicate Tallied(n: Counters, ends: map<nat, Cause>) {
    && n.completed == |Ended(ends, Completed)| && n.cancelled == |Ended(ends, Cancelled)|
    && n.timedOut == |Ended(ends, TimedOut)| && n.failed == |Ended(ends, Failed)|
  }

  lemma TallyOne(n: Counters, ends: map<nat, Cause>, id: nat, cause: Cause)
    requires Tallied(n, ends) && id !in ends
    ensures Tallied(Count(n, cause), ends[id := cause])
  {
    EndedOne(ends, id, cause, Completed);
    EndedOne(ends, id, cause, Cancelled);
    EndedOne(ends, id, cause, TimedOut);
    EndedOne(ends, id, cause, Failed);
    hide Ended;
  }

  lemma EndedOne(ends: map<nat, Cause>, id: nat, cause: Cause, c: Cause)
    requires id !in ends
    ensures |Ended(ends[id := cause], c)| == |Ended(ends, c)| + if c == cause then 1 else 0
  {
    assert Ended(ends[id := cause], c) == Ended(ends, c) + if c == cause then {id} else {};
  }

  // ---------------------------------------------------------------- permits

  /** How many of the held requests are `u`'s. */
  ghost function Mine(held: multiset<Request>, u: User): nat {
    if held == multiset{} then 0
    else
      var r :| r in held;
      (if r.spec.user == u then 1 else 0) + Mine(held - multiset{r}, u)
  }

  /** Whichever request the count looks at first. */
  lemma MineOne(held: multiset<Request>, u: User) returns (s: Request)
    requires held != multiset{}
    ensures s in held && Mine(held, u) == (if s.spec.user == u then 1 else 0) + Mine(held - multiset{s}, u)
  {
    s :| s in held && Mine(held, u) == (if s.spec.user == u then 1 else 0) + Mine(held - multiset{s}, u);
  }

  lemma {:induction false} MineWithout(held: multiset<Request>, r: Request, u: User)
    requires r in held
    ensures Mine(held, u) == (if r.spec.user == u then 1 else 0) + Mine(held - multiset{r}, u)
    decreases |held|
  {
    var s := MineOne(held, u);
    hide Mine;
    if s != r {
      EitherFirst(held, r, s);
      MineWithout(held - multiset{s}, r, u);
      MineWithout(held - multiset{r}, s, u);
    }
  }

  lemma EitherFirst(held: multiset<Request>, r: Request, s: Request)
    requires r in held && s in held && r != s
    ensures r in held - multiset{s} && s in held - multiset{r}
    ensures held - multiset{s} - multiset{r} == held - multiset{r} - multiset{s}
    ensures |held - multiset{s}| < |held| && |held - multiset{r}| < |held|
  {
  }

  lemma MineWith(held: multiset<Request>, r: Request, u: User)
    ensures Mine(held + multiset{r}, u) == (if r.spec.user == u then 1 else 0) + Mine(held, u)
  {
    MineWithout(held + multiset{r}, r, u);
    assert held + multiset{r} - multiset{r} == held;
  }

  /** Permits a user could still take. A user without a table entry has them all. */
  function Available(slots: map<User, nat>, limit: nat, u: User): nat {
    if u in slots then slots[u] else limit
  }

  ghost predicate Even(slots: map<User, nat>, limit: nat, held: multiset<Request>, u: User) {
    Available(slots, limit, u) + Mine(held, u) == limit
  }

  /** Taken permits are exactly each user's held requests, so they never exceed the limit. */
  ghost predicate Permitted(slots: map<User, nat>, limit: nat, held: multiset<Request>) {
    forall u :: Even(slots, limit, held, u)
  }

  lemma PermitReturned(slots: map<User, nat>, limit: nat, held: multiset<Request>, r: Request)
    requires Permitted(slots, limit, held) && r in held
    ensures r.spec.user in slots
    ensures Permitted(slots[r.spec.user := slots[r.spec.user] + 1], limit, held - multiset{r})
  {
    var v := r.spec.user;
    MineWithout(held, r, v);
    assert Even(slots, limit, held, v);
    var slots', held' := slots[v := slots[v] + 1], held - multiset{r};
    forall u
      ensures Even(slots', limit, held', u)
    {
      MineWithout(held, r, u);
      assert Even(slots, limit, held, u);
    }
  }

  lemma PermitTaken(slots: map<User, nat>, limit: nat, held: multiset<Request>, r: Request)
    requires Permitted(slots, limit, held) && r.spec.user in slots && slots[r.spec.user] > 0
    ensures Permitted(slots[r.spec.user := slots[r.spec.user] - 1], limit, held + multiset{r})
  {
    var v := r.spec.user;
    var slots', held' := slots[v := slots[v] - 1], held + multiset{r};
    forall u
      ensures Even(slots', limit, held', u)
    {
      MineWith(held, r, u);
      assert Even(slots, limit, held, u);
    }
  }

  const USER_TABLE_HIGH_WATER: nat := 1024

  /** Look up a user's permits, first dropping idle users if the table has grown too large. */
  function UserSlots(slots: map<User, nat>, limit: nat, user: User): map<User, nat> {
    var kept := if |slots| > USER_TABLE_HIGH_WATER then map u | u in slots && slots[u] < limit :: slots[u] else slots;
    if user in kept then kept else kept[user := limit]
  }

  /** Dropping a table entry forgets no permit that is out. */
  lemma TableEviction(slots: map<User, nat>, limit: nat, held: multiset<Request>, user: User)
    requires Permitted(slots, limit, held)
    ensures Permitted(UserSlots(slots, limit, user), limit, held) && user in UserSlots(slots, limit, user)
    ensures forall u :: u != user ==>
      (u in UserSlots(slots, limit, user) <==> u in slots && (|slots| <= 1024 || slots[u] < limit))
  {
    forall u
      ensures Even(UserSlots(slots, limit, user), limit, held, u)
    {
      assert Even(slots, limit, held, u);
    }
  }

  // ---------------------------------------------------------------- what a client has been sent

  datatype Event = Piece(token: Token) | Done(reason: StopReason) | Error(cause: Cause)

  /** The tokens a log starts with. */
  function Tokens(log: seq<Event>): seq<Token> {
    if log == [] || !log[0].Piece? then [] else [log[0].token] + Tokens(log[1..])
  }

  predicate OnlyTokens(log: seq<Event>) {
    forall i :: 0 <= i < |log| ==> log[i].Piece?
  }

  lemma {:induction false} TokensAppend(log: seq<Event>, e: Event)
    requires OnlyTokens(log)
    ensures Tokens(log + [e]) == Tokens(log) + (if e.Piece? then [e.token] else [])
  {
    if log == [] {
      assert log + [e] == [e] && [e][1..] == [];
    } else {
      assert (log + [e])[1..] == log[1..] + [e];
      TokensAppend(log[1..], e);
    }
  }

  /** A log is tokens and then at most one terminal event, after which nothing follows. */
  predicate Shaped(log: seq<Event>) {
    log == [] || OnlyTokens(log[..|log| - 1])
  }

  /** The event that tells a client why its request is over. */
  predicate EndsFor(log: seq<Event>, cause: Cause) {
    log != [] && if cause == Completed then log[|log| - 1].Done? else log[|log| - 1] == Error(cause)
  }

  /** How requests have ended, and whose clients were gone when they were to be told. */
  datatype Book = Book(ends: map<nat, Cause>, deaf: set<nat>)

  /** The book after a request has ended with this log. */
  function Closed(b: Book, id: nat, cause: Cause, log: seq<Event>): Book {
    Book(b.ends[id := cause], if cause == Cancelled || EndsFor(log, cause) then b.deaf else b.deaf + {id})
  }

  /** A request that has not ended has been sent tokens alone. One that has was told so, unless it was
    * cancelled or its client was gone by then. */
  predicate Concluded(b: Book, id: nat, log: seq<Event>) {
    if id !in b.ends then OnlyTokens(log)
    else EndsFor(log, b.ends[id]) || (OnlyTokens(log) && (b.ends[id] == Cancelled || id in b.deaf))
  }

  /** A client has been sent only tokens that may follow its prompt, each after those before it, and `Done`
    * exactly where decoding stops and for the same reason. `cut` marks the requests cut short by a refused
    * truncation or a starving batch, which say `ContextFull` early. */
  ghost predicate LogOk(c: Config, r: Request, log: seq<Event>, cut: bool)
    requires c.Valid()
  {
    && Shaped(log) && (log != [] && log[|log| - 1].Done? ==> r.spec.prompt != [])
    && (r.spec.prompt != [] ==>
          var p, prompt, reply := r.spec.params, r.spec.prompt, Tokens(log);
          && Follows(c, p, |prompt|, prompt, reply)
          && (log != [] && log[|log| - 1].Done? ==>
                || IsNext(c, p, |prompt|, prompt + reply, Err(log[|log| - 1].reason))
                || (cut && log[|log| - 1].reason == ContextFull)))
  }

  /** A client has been sent a whole reply and its reason, or, where `cut`, the part of one there was. For a greedy
    * request it is what plain decoding of its prompt alone emits. */
  ghost predicate FullyAnswered(c: Config, r: Request, log: seq<Event>, cut: bool)
    requires c.Valid()
  {
    && log != [] && log[|log| - 1].Done? && OnlyTokens(log[..|log| - 1]) && r.spec.prompt != []
    && var p, prompt, reply, reason := r.spec.params, r.spec.prompt, Tokens(log), log[|log| - 1].reason;
    && Follows(c, p, |prompt|, prompt, reply)
    && (!(cut && reason == ContextFull) ==>
          IsReply(c, p, |prompt|, prompt, reply, reason) && (p.greedy ==> GreedyRun(c, p, |prompt|, prompt) == Run(reply, reason)))
  }

  lemma DoneAnswers(c: Config, r: Request, log: seq<Event>, cut: bool)
    requires c.Valid() && LogOk(c, r, log, cut) && log != [] && log[|log| - 1].Done?
    ensures FullyAnswered(c, r, log, cut)
  {
    hide Follows, IsNext, GreedyRun;
    if r.spec.params.greedy {
      RunIsReply(c, r.spec.params, |r.spec.prompt|, r.spec.prompt, Tokens(log), log[|log| - 1].reason);
    }
  }

  /** So a greedy client has been sent a part of what plain decoding of its prompt alone emits, and with a
    * `Done` all of it and its reason. */
  lemma GreedyLog(c: Config, r: Request, log: seq<Event>, cut: bool)
    requires c.Valid() && LogOk(c, r, log, cut) && r.spec.params.greedy && r.spec.prompt != []
    ensures
      var run := GreedyRun(c, r.spec.params, |r.spec.prompt|, r.spec.prompt);
      && Tokens(log) <= run.tokens
      && (log != [] && log[|log| - 1].Done? ==>
            || (Tokens(log) == run.tokens && log[|log| - 1].reason == run.reason)
            || (cut && log[|log| - 1].reason == ContextFull))
  {
    hide Follows, IsNext, GreedyRun;
    FollowsRun(c, r.spec.params, |r.spec.prompt|, r.spec.prompt, Tokens(log));
    if log != [] && log[|log| - 1].Done? {
      RunIsReply(c, r.spec.params, |r.spec.prompt|, r.spec.prompt, Tokens(log), log[|log| - 1].reason);
    }
  }

  /** An active request: every token its session has generated has been sent, and nothing else. */
  ghost predicate Streaming(c: Config, r: Request, log: seq<Event>, context: seq<Token>, promptLen: nat)
    requires c.Valid()
  {
    && r.spec.prompt != [] && promptLen == |r.spec.prompt| && OnlyTokens(log)
    && context == r.spec.prompt + Tokens(log)
    && Follows(c, r.spec.params, promptLen, r.spec.prompt, Tokens(log))
  }

  lemma StreamingIsOk(c: Config, r: Request, log: seq<Event>, context: seq<Token>, promptLen: nat, cut: bool)
    requires c.Valid() && Streaming(c, r, log, context, promptLen)
    ensures LogOk(c, r, log, cut)
  {
    hide Follows;
  }

  lemma StreamStarts(c: Config, r: Request)
    requires c.Valid() && r.spec.prompt != []
    ensures Streaming(c, r, [], r.spec.prompt, |r.spec.prompt|)
  {
    assert Tokens([]) == [];
    FollowsNone(c, r.spec.params, |r.spec.prompt|, r.spec.prompt);
  }

  /** The log after the tokens of `out` have been sent one by one. */
  function Sent(log: seq<Event>, out: seq<Token>): seq<Event> {
    log + seq(|out|, i requires 0 <= i < |out| => Piece(out[i]))
  }

  lemma {:induction false} TokensSent(log: seq<Event>, out: seq<Token>)
    requires OnlyTokens(log)
    ensures OnlyTokens(Sent(log, out)) && Tokens(Sent(log, out)) == Tokens(log) + out
  {
    if out == [] {
      assert Sent(log, out) == log;
    } else {
      var last := |out| - 1;
      TokensSent(log, out[..last]);
      assert Sent(log, out) == Sent(log, out[..last]) + [Piece(out[last])];
      TokensAppend(Sent(log, out[..last]), Piece(out[last]));
      assert out[..last] + [out[last]] == out;
    }
  }

  /** Sending what a step produced keeps the client's log in step with the session. */
  lemma StreamAdvances(
    c: Config, r: Request, log: seq<Event>, before: seq<Token>, promptLen: nat, out: seq<Token>, after: seq<Token>)
    requires c.Valid() && Streaming(c, r, log, before, promptLen) && after == before + out
    requires before != [] && promptLen <= |before| && Follows(c, r.spec.params, promptLen, before, out)
    ensures Streaming(c, r, Sent(log, out), after, promptLen)
  {
    hide Follows;
    TokensSent(log, out);
    assert r.spec.prompt + (Tokens(log) + out) == (r.spec.prompt + Tokens(log)) + out;
    FollowsOn(c, r.spec.params, promptLen, r.spec.prompt, Tokens(log), out);
  }

  /** Part of a step's tokens may be sent before the client turns out to be gone. */
  lemma StreamPartly(
    c: Config, r: Request, log: seq<Event>, before: seq<Token>, promptLen: nat, out: seq<Token>, k: nat, cut: bool)
    requires c.Valid() && Streaming(c, r, log, before, promptLen) && k <= |out|
    requires before != [] && promptLen <= |before| && Follows(c, r.spec.params, promptLen, before, out)
    ensures LogOk(c, r, Sent(log, out[..k]), cut)
  {
    hide Follows, Streaming, LogOk;
    FollowsPart(c, r.spec.params, promptLen, before, out, k);
    StreamAdvances(c, r, log, before, promptLen, out[..k], before + out[..k]);
    StreamingIsOk(c, r, Sent(log, out[..k]), before + out[..k], promptLen, cut);
  }

  /** An error may end any log of tokens. */
  lemma ErrorEnds(c: Config, r: Request, log: seq<Event>, cause: Cause, cut: bool)
    requires c.Valid() && LogOk(c, r, log, cut) && OnlyTokens(log)
    ensures LogOk(c, r, log + [Error(cause)], cut)
  {
    hide Follows, IsNext;
    TokensAppend(log, Error(cause));
    assert (log + [Error(cause)])[..|log|] == log && Tokens(log + [Error(cause)]) == Tokens(log);
  }

  /** `Done` ends the log of a session that stopped where decoding stops. */
  lemma DoneEnds(
    c: Config, r: Request, log: seq<Event>, before: seq<Token>, promptLen: nat, out: seq<Token>, reason: StopReason, cut: bool)
    requires c.Valid() && Streaming(c, r, log, before, promptLen)
    requires before != [] && promptLen <= |before| && Follows(c, r.spec.params, promptLen, before, out)
    requires IsNext(c, r.spec.params, promptLen, before + out, Err(reason)) || (cut && reason == ContextFull)
    ensures LogOk(c, r, Sent(log, out) + [Done(reason)], cut)
  {
    hide Follows, IsNext;
    StreamAdvances(c, r, log, before, promptLen, out, before + out);
    TokensAppend(Sent(log, out), Done(reason));
    var all := Sent(log, out) + [Done(reason)];
    assert all[..|all| - 1] == Sent(log, out) && Tokens(all) == Tokens(Sent(log, out));
  }
}
