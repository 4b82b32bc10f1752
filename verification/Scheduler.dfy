/** The scheduler: submissions, a priority heap, prefilling and decoding requests, and the
  * loop that moves requests between them. Each method is one atomic step of a run; clients may
  * cancel or hang up between any two of the loop's observations of them. `Valid` is what every
  * step keeps, so it holds throughout every run. */
module Scheduling {
  import opened Basics
  import opened Backend
  import opened PromptCaches
  import opened Runtime
  import opened Batching
  import opened Ledger
  import opened Desks
  import Heap

  /** A request whose prompt is still going in. */
  datatype Prefilling = Prefilling(request: Request, pending: Pending)

  /** A request that is decoding. */
  datatype Active = Active(request: Request, session: Session)

  function PendingRequests(ps: seq<Prefilling>): seq<Request> {
    seq(|ps|, i requires 0 <= i < |ps| => ps[i].request)
  }

  function ActiveRequests(xs: seq<Active>): seq<Request> {
    seq(|xs|, i requires 0 <= i < |xs| => xs[i].request)
  }

  ghost predicate PrefillOk(c: Config, p: Prefilling)
    reads p.pending
  {
    c.Valid() && p.pending.Valid(c) && p.pending.context == p.request.spec.prompt
  }

  ghost predicate DistinctPendings(ps: seq<Prefilling>) {
    forall i, j :: 0 <= i < j < |ps| ==> ps[i].pending != ps[j].pending
  }

  /** The client has been sent exactly what the session has generated. */
  ghost predicate ActiveOk(c: Config, events: map<nat, seq<Event>>, a: Active)
    reads a.session
  {
    && c.Valid() && a.session.Ready(c) && a.request.id in events
    && Streaming(c, a.request, events[a.request.id], a.session.context, a.session.promptLen)
    && (EndsBelow(a.request.spec.prompt, c.net.vocab) ==> EndsBelow(a.session.context, c.net.vocab))
  }

  ghost predicate DistinctActives(xs: seq<Active>) {
    forall i, j :: 0 <= i < j < |xs| ==> xs[i].session != xs[j].session
  }

  /** Logs are only ever appended to. Every log being `Shaped` at every moment, nothing can follow
    * a terminal event. */
  ghost predicate Grows(a: map<nat, seq<Event>>, b: map<nat, seq<Event>>) {
    forall id :: id in a ==> id in b && a[id] <= b[id]
  }

  lemma GrowsOn(a: map<nat, seq<Event>>, b: map<nat, seq<Event>>, c: map<nat, seq<Event>>)
    requires Grows(a, b) && Grows(b, c)
    ensures Grows(a, c)
  {
  }

  lemma GrowsSame(a: map<nat, seq<Event>>)
    ensures Grows(a, a)
  {
  }

  lemma GrowsAt(a: map<nat, seq<Event>>, id: nat, log: seq<Event>)
    requires id in a ==> a[id] <= log
    ensures Grows(a, a[id := log])
  {
  }

  /** Whose turn is first: the higher priority's, and the older one's of equal priority. */
  predicate Sooner(x: Request, y: Request) {
    x.spec.priority > y.spec.priority || (x.spec.priority == y.spec.priority && x.id < y.id)
  }

  /** No request was admitted after one it should have come before, or ahead of one that stayed and should have. */
  ghost predicate InOrder(xs: seq<Request>, h: multiset<Request>) {
    && (forall i, q :: 0 <= i < |xs| && q in h ==> !Sooner(q, xs[i]))
    && (forall i, j :: 0 <= i < j < |xs| ==> !Sooner(xs[j], xs[i]))
  }

  /** Which requests have been cancelled, and whose clients have hung up. Nobody takes either back. */
  datatype Absence = Absence(cancelled: set<nat>, closed: set<nat>) {
    predicate Has(r: Request) { r.id in cancelled || r.id in closed }

    predicate Then(later: Absence) { cancelled <= later.cancelled && closed <= later.closed }
  }

  /** A client that could not be told was gone, and a request that counts as cancelled was given up. */
  ghost predicate Honest(b: Book, a: Absence) {
    b.deaf <= a.closed && forall id :: id in b.ends && b.ends[id] == Cancelled ==> id in a.cancelled || id in a.closed
  }

  lemma HonestClosed(b: Book, a: Absence, r: Request, cause: Cause, log: seq<Event>)
    requires Honest(b, a) && (cause == Cancelled ==> a.Has(r))
    requires cause == Cancelled || EndsFor(log, cause) || r.id in a.closed
    ensures Honest(Closed(b, r.id, cause, log), a)
  {
  }

  /** A step that is what decoding gives for a request whose client has been sent `log`: whoever missed any of
    * it was gone, and only a request that may be cut short was. */
  ghost predicate Fair(s: Shop, registry: map<nat, Request>, absent: Absence, r: Request, log: seq<Event>, st: Step) {
    && s.c.Valid() && st.Fits() && Took(s.c, r, log, st.out, st.stop, st.cut) && (st.cut ==> MayCut(s, registry))
    && (st.sent < |st.out| || (st.stop.Some? && !st.here) ==> r.id in absent.closed)
  }

  lemma FairStill(
    s: Shop, registry: map<nat, Request>, absent: Absence, later: Absence, r: Request, log: seq<Event>, st: Step)
    requires Fair(s, registry, absent, r, log, st) && absent.Then(later)
    ensures Fair(s, registry, later, r, log, st)
  {
    hide Took, MayCut;
  }

  /** The first running requests of `d` have each had such a step. */
  ghost predicate AllFair(s: Shop, registry: map<nat, Request>, absent: Absence, d: Desk, steps: seq<Step>) {
    && |steps| <= |d.running| && Known(d) && DistinctIds(d.running)
    && (forall i :: 0 <= i < |steps| ==> steps[i].Fits())
    && (forall i :: 0 <= i < |steps| ==> Fair(s, registry, absent, d.running[i], d.events[d.running[i].id], steps[i]))
  }

  lemma MoreFair(
    s: Shop, registry: map<nat, Request>, absent: Absence, later: Absence, d: Desk, steps: seq<Step>, st: Step)
    requires AllFair(s, registry, absent, d, steps) && absent.Then(later) && |steps| < |d.running|
    requires Fair(s, registry, later, d.running[|steps|], d.events[d.running[|steps|].id], st)
    ensures AllFair(s, registry, later, d, steps + [st])
  {
    assert st.Fits();
    hide Fair, Step.Fits;
    var steps' := steps + [st];
    forall i | 0 <= i < |steps'| ensures Fair(s, registry, later, d.running[i], d.events[d.running[i].id], steps'[i]) {
      if i < |steps| {
        FairStill(s, registry, absent, later, d.running[i], d.events[d.running[i].id], steps[i]);
      }
    }
  }

  predicate AllHave(rs: multiset<Request>, absent: Absence) {
    forall r :: r in rs ==> absent.Has(r)
  }

  predicate NoneHas(rs: multiset<Request>, absent: Absence) {
    forall r :: r in rs ==> !absent.Has(r)
  }

  /** Settled for this cause, and told so if it is to be and the client is still there. */
  predicate Told(fate: Fate, cause: Cause, tell: bool, id: nat, absent: Absence) {
    fate == Dropped(cause, tell && id !in absent.closed)
  }

  lemma LastWords(fate: Fate, cause: Cause, tell: bool, id: nat, absent: Absence)
    requires Told(fate, cause, tell, id, absent)
    ensures fate.Dropped? && (LastWord(fate) == [] || LastWord(fate) == [Error(cause)])
  {
  }

  /** Whether the next piece of the prompt can be absorbed. `had` is how much of it is in. */
  predicate Feedable(c: Config, r: Request, had: nat, budget: nat) {
    var last := Max(|r.spec.prompt| - 1, 0);
    had <= last ==> AllBelow(r.spec.prompt[had..Min(last, had + Max(budget, 1))], c.net.vocab)
  }

  /** What feeding may make of a request. */
  predicate Fed(c: Config, r: Request, had: nat, budget: nat, absent: Absence, fate: Fate) {
    && (fate.Dropped? <==> !Feedable(c, r, had, budget)) && (fate.Dropped? ==> Told(fate, Failed, true, r.id, absent))
    && (fate.Risen? ==> had + Max(budget, 1) >= |r.spec.prompt| - 1)
    && (fate.Kept? ==> had + Max(budget, 1) < |r.spec.prompt| - 1)
  }

  /** What a look at a request may make of it: it is cancelled if its client had left before and only if it
    * has left by now, it is timed out only if it is late, it is dropped if it is either, and it hears of it
    * unless its client has hung up. */
  predicate Seen(r: Request, late: bool, before: Absence, after: Absence, fate: Fate) {
    && (before.Has(r) ==> fate.Dropped? && fate.cause == Cancelled)
    && (late ==> fate.Dropped? && fate.cause != Failed)
    && (fate.Dropped? ==>
      && (fate.cause == Cancelled ==> after.Has(r)) && (fate.cause == TimedOut ==> late) && fate.cause != Completed
      && (!fate.sent ==> r.id in after.closed))
  }

  /** Why a request that is looked at is to be dropped, if it is, and whether its client is to be told. */
  predicate Warranted(r: Request, late: bool, before: Absence, after: Absence, cause: Cause, tell: bool) {
    && (before.Has(r) ==> cause == Cancelled)
    && ((cause == Cancelled && after.Has(r) && (!tell ==> r.id in after.closed)) || (cause == TimedOut && late && tell))
  }

  lemma DroppedSeen(r: Request, late: bool, before: Absence, after: Absence, later: Absence, cause: Cause, tell: bool, fate: Fate)
    requires Warranted(r, late, before, after, cause, tell) && after.Then(later) && Told(fate, cause, tell, r.id, later)
    ensures Seen(r, late, before, later, fate) && fate.Dropped? && fate.cause != Failed
  {
  }

  lemma WarrantIs(r: Request, late: bool, before: Absence, after: Absence, cause: Cause, tell: bool)
    requires Warranted(r, late, before, after, cause, tell)
    ensures cause != Completed && (cause == Cancelled ==> after.Has(r)) && (!tell ==> cause == Cancelled)
  {
  }

  lemma WarrantedIsGone(r: Request, before: Absence, after: Absence, cause: Cause, tell: bool)
    ensures Warranted(r, false, before, after, cause, tell) ==> after.Has(r)
  {
  }

  lemma DropDeserves(c: Config, r: Request, had: nat, budget: nat, late: bool, before: Absence, after: Absence, fate: Fate)
    requires Seen(r, late, before, after, fate) && fate.Dropped? && fate.cause != Failed
    ensures Deserves(c, r, had, budget, late, before, after, fate)
  {
  }

  lemma FedDeserves(c: Config, r: Request, had: nat, budget: nat, before: Absence, after: Absence, fate: Fate)
    requires Fed(c, r, had, budget, after, fate) && !before.Has(r)
    ensures Deserves(c, r, had, budget, false, before, after, fate)
  {
  }

  /** What a prefilling request's turn may make of it: it is looked at, and then fed. */
  predicate Deserves(c: Config, r: Request, had: nat, budget: nat, late: bool, before: Absence, after: Absence, fate: Fate) {
    && Seen(r, late, before, after, fate)
    && (fate.Dropped? && fate.cause == Failed ==> !Feedable(c, r, had, budget))
    && (!fate.Dropped? ==> Feedable(c, r, had, budget))
    && (fate.Risen? ==> had + Max(budget, 1) >= |r.spec.prompt| - 1)
    && (fate.Kept? ==> had + Max(budget, 1) < |r.spec.prompt| - 1)
  }

  lemma DeservesFrom(
    c: Config, r: Request, had: nat, budget: nat, late: bool, first: Absence, before: Absence, after: Absence, fate: Fate)
    requires Deserves(c, r, had, budget, late, before, after, fate) && first.Then(before)
    ensures Deserves(c, r, had, budget, late, first, after, fate)
  {
  }

  lemma DeservesStill(
    c: Config, r: Request, had: nat, budget: nat, late: bool, before: Absence, after: Absence, later: Absence, fate: Fate)
    requires Deserves(c, r, had, budget, late, before, after, fate) && after.Then(later)
    ensures Deserves(c, r, had, budget, late, before, later, fate)
  {
  }

  /** The first of these requests had a turn each, which came to what it may come to. */
  ghost predicate AllDeserve(
    c: Config, rs: seq<Request>, had: seq<nat>, budget: nat, late: set<nat>, before: Absence, after: Absence, fates: seq<Fate>)
  {
    && |fates| <= |rs| == |had|
    && forall j :: 0 <= j < |fates| ==> Deserves(c, rs[j], had[j], budget, rs[j].id in late, before, after, fates[j])
  }

  lemma DeserveLater(
    c: Config, rs: seq<Request>, had: seq<nat>, budget: nat, late: set<nat>, first: Absence, before: Absence, after: Absence,
    later: Absence, fates: seq<Fate>)
    requires AllDeserve(c, rs, had, budget, late, before, after, fates) && first.Then(before) && after.Then(later)
    ensures AllDeserve(c, rs, had, budget, late, first, later, fates)
  {
    hide Deserves, Absence.Then;
    forall j | 0 <= j < |fates| ensures Deserves(c, rs[j], had[j], budget, rs[j].id in late, first, later, fates[j]) {
      DeservesFrom(c, rs[j], had[j], budget, rs[j].id in late, first, before, after, fates[j]);
      DeservesStill(c, rs[j], had[j], budget, rs[j].id in late, first, after, later, fates[j]);
    }
  }

  /** What a look at a running request may come to. */
  predicate Looked(r: Request, late: bool, before: Absence, after: Absence, fate: Fate) {
    Seen(r, late, before, after, fate) && !fate.Risen? && (fate.Dropped? ==> fate.cause != Failed)
  }

  lemma LookedStill(r: Request, late: bool, first: Absence, before: Absence, after: Absence, later: Absence, fate: Fate)
    requires Looked(r, late, before, after, fate) && first.Then(before) && after.Then(later)
    ensures Looked(r, late, first, later, fate)
  {
  }

  ghost predicate AllLooked(d: Desk, looks: seq<Fate>, late: set<nat>, before: Absence, after: Absence) {
    && |looks| <= |d.running|
    && forall i :: 0 <= i < |looks| ==> Looked(d.running[i], d.running[i].id in late, before, after, looks[i])
  }

  lemma LookedLater(
    d: Desk, looks: seq<Fate>, late: set<nat>, first: Absence, before: Absence, after: Absence, later: Absence)
    requires AllLooked(d, looks, late, before, after) && first.Then(before) && after.Then(later)
    ensures AllLooked(d, looks, late, first, later)
  {
    hide Looked, Absence.Then;
    forall i | 0 <= i < |looks| ensures Looked(d.running[i], d.running[i].id in late, first, later, looks[i]) {
      LookedStill(d.running[i], d.running[i].id in late, first, before, after, later, looks[i]);
    }
  }

  lemma MoreLooked(
    d: Desk, looks: seq<Fate>, late: set<nat>, before: Absence, after: Absence, later: Absence, fate: Fate)
    requires AllLooked(d, looks, late, before, after) && before.Then(after) && after.Then(later) && |looks| < |d.running|
    requires Looked(d.running[|looks|], d.running[|looks|].id in late, after, later, fate)
    ensures AllLooked(d, looks + [fate], late, before, later) && before.Then(later)
  {
    LookedLater(d, looks, late, before, before, after, later);
    LookedStill(d.running[|looks|], d.running[|looks|].id in late, before, after, later, later, fate);
    hide Looked;
  }

  /** Half way through the sweep of a heap that was `all`: `todo` are still to be looked at, `stayed` have been,
    * and `purged` are out. */
  ghost predicate Purging(
    all: multiset<Request>, n0: Counters, before: Absence, heap: multiset<Request>, n: Counters, absent: Absence,
    todo: multiset<Request>, stayed: multiset<Request>, purged: multiset<Request>)
  {
    && heap == todo + stayed && all == heap + purged && before.Then(absent)
    && AllHave(purged, absent) && NoneHas(stayed, before)
    && n == n0.(cancelled := n0.cancelled + |purged|)
  }

  lemma PurgeStays(
    all: multiset<Request>, n0: Counters, before: Absence, heap: multiset<Request>, n: Counters, absent: Absence,
    todo: multiset<Request>, stayed: multiset<Request>, purged: multiset<Request>, r: Request, later: Absence)
    requires Purging(all, n0, before, heap, n, absent, todo, stayed, purged) && r in todo
    requires absent.Then(later) && !before.Has(r)
    ensures Purging(all, n0, before, heap, n, later, todo - multiset{r}, stayed + multiset{r}, purged)
  {
  }

  lemma PurgeLeaves(
    all: multiset<Request>, n0: Counters, before: Absence, heap: multiset<Request>, n: Counters, absent: Absence,
    todo: multiset<Request>, stayed: multiset<Request>, purged: multiset<Request>, r: Request, later: Absence)
    requires Purging(all, n0, before, heap, n, absent, todo, stayed, purged) && r in todo
    requires absent.Then(later) && later.Has(r)
    ensures Purging(all, n0, before, heap - multiset{r}, Count(n, Cancelled), later, todo - multiset{r}, stayed, purged + multiset{r})
  {
  }

  lemma PurgeStarts(all: multiset<Request>, n: Counters, absent: Absence)
    ensures Purging(all, n, absent, all, n, absent, all, multiset{}, multiset{})
  {
  }

  lemma PurgeEnds(
    all: multiset<Request>, n0: Counters, before: Absence, heap: multiset<Request>, n: Counters, absent: Absence,
    todo: multiset<Request>, stayed: multiset<Request>, purged: multiset<Request>)
    requires Purging(all, n0, before, heap, n, absent, todo, stayed, purged) && todo == multiset{}
    ensures all == heap + purged && before.Then(absent) && AllHave(purged, absent) && NoneHas(heap, before)
    ensures n == n0.(cancelled := n0.cancelled + |purged|)
  {
    assert heap == stayed;
  }

  lemma FewerHave(rs: multiset<Request>, all: multiset<Request>, absent: Absence)
    requires NoneHas(all, absent) && rs <= all
    ensures NoneHas(rs, absent)
  {
    hide Absence.Has;
  }

  lemma HadNotLeft(r: Request, before: Absence, absent: Absence)
    requires before.Then(absent) && !absent.Has(r)
    ensures !before.Has(r)
  {
  }

  lemma OrderKept(xs: seq<Request>, h: multiset<Request>, r: Request)
    requires InOrder(xs, h) && r in h && forall q :: q in h ==> RequestLe(q, r)
    ensures InOrder(xs, h - multiset{r}) && InOrder(xs + [r], h - multiset{r})
  {
  }

  /** No other running request shares the first one's id. */
  ghost predicate Apart1(xs: seq<Active>) {
    xs != [] && forall i :: 1 <= i < |xs| ==> xs[i].request.id != xs[0].request.id
  }

  /** A client that has heard everything up to `ctx`. */
  ghost predicate Before(c: Config, ev: map<nat, seq<Event>>, a: Active, ctx: seq<Token>) {
    && c.Valid() && a.request.id in ev && ctx != [] && a.session.promptLen <= |ctx|
    && Streaming(c, a.request, ev[a.request.id], ctx, a.session.promptLen)
    && (EndsBelow(a.request.spec.prompt, c.net.vocab) ==> EndsBelow(ctx, c.net.vocab))
  }

  /** An active request whose session has taken a step, or, where there is `harm`, been starved of it,
    * and whose client has not heard of it yet. */
  ghost predicate Owed(
    c: Config, ev: map<nat, seq<Event>>, harm: bool, a: Active, r: Result<Token, StopReason>, ctx: seq<Token>)
    reads a.session
  {
    Before(c, ev, a, ctx) && (SteppedAlone(c, a.request.spec.params, ctx, a.session, r) || (harm && r == Err(ContextFull)))
  }

  lemma ReadyForBatch(c: Config, ev: map<nat, seq<Event>>, xs: seq<Active>)
    requires DistinctActives(xs) && forall i :: 0 <= i < |xs| ==> ActiveOk(c, ev, xs[i])
    ensures DistinctSessions(SessionsOf(xs))
    ensures forall i :: 0 <= i < |xs| ==> Steppable(c, SessionsOf(xs)[i]) && !xs[i].session.finished
    ensures forall i :: 0 <= i < |xs| ==> Before(c, ev, xs[i], Contexts(SessionsOf(xs))[i])
  {
    hide Streaming;
    forall i | 0 <= i < |xs|
      ensures Steppable(c, SessionsOf(xs)[i]) && !xs[i].session.finished
      ensures Before(c, ev, xs[i], Contexts(SessionsOf(xs))[i])
    {
      assert ActiveOk(c, ev, xs[i]);
      assert Contexts(SessionsOf(xs))[i] == SessionsOf(xs)[i].context;
    }
  }

  /** Who can be starved: somebody, only if a running request's prompt ends outside the vocabulary on a
    * backend that does not check first. */
  lemma WhoStarves(
    c: Config, ev: map<nat, seq<Event>>, xs: seq<Active>, bars: seq<Option<StopReason>>, ctxs: seq<seq<Token>>, i: int)
    requires |bars| == |ctxs| == |xs| && forall j :: 0 <= j < |xs| ==> Before(c, ev, xs[j], ctxs[j])
    requires Starved(c, bars, ctxs, i)
    ensures exists j :: 0 <= j < |xs| && Harmful(c, xs[j].request)
  {
    hide Streaming;
    var j :| i < j && Rejected(c, bars, ctxs, j);
    assert Before(c, ev, xs[j], ctxs[j]);
    assert Harmful(c, xs[j].request);
  }

  lemma OwedAfterBatch(
    c: Config, ev: map<nat, seq<Event>>, xs: seq<Active>, bars: seq<Option<StopReason>>, ctxs: seq<seq<Token>>,
    rs: seq<Result<Token, StopReason>>, harm: bool)
    requires c.Valid() && |bars| == |ctxs| == |xs| == |rs| && DistinctActives(xs)
    requires forall i :: 0 <= i < |xs| ==> Before(c, ev, xs[i], ctxs[i])
    requires forall i :: Starved(c, bars, ctxs, i) ==> harm
    requires forall i :: 0 <= i < |xs| ==>
      && Sized(SessionsOf(xs)[i], ctxs[i])
      && BatchOutcome(c, ParamsOf(xs)[i], bars, ctxs, false, i, SessionsOf(xs)[i], rs[i])
    ensures Mixed(c, ev, harm, xs, |xs|, rs, ctxs)
  {
    hide Before, SteppedAlone, Starved;
    forall i | 0 <= i < |xs|
      ensures Owed(c, ev, harm, xs[i], rs[i], ctxs[i])
    {
      assert SessionsOf(xs)[i] == xs[i].session;
    }
  }

  function SessionSet(xs: seq<Active>): set<Session> {
    set i | 0 <= i < |xs| :: xs[i].session
  }

  /** The first `m` of `xs` are owed their step's result; the rest are up to date. */
  ghost predicate Mixed(
    c: Config, ev: map<nat, seq<Event>>, harm: bool, xs: seq<Active>, m: nat, rs: seq<Result<Token, StopReason>>,
    ctxs: seq<seq<Token>>)
    reads SessionSet(xs)
  {
    && m == |rs| == |ctxs| <= |xs| && DistinctActives(xs)
    && (forall i :: 0 <= i < m ==> Owed(c, ev, harm, xs[i], rs[i], ctxs[i]))
    && (forall i :: m <= i < |xs| ==> ActiveOk(c, ev, xs[i]))
  }

  function SessionsOf(xs: seq<Active>): seq<Session> {
    seq(|xs|, i requires 0 <= i < |xs| => xs[i].session)
  }

  function ParamsOf(xs: seq<Active>): seq<Params> {
    seq(|xs|, i requires 0 <= i < |xs| => xs[i].request.spec.params)
  }

  lemma HeadNotInTail(
    c: Config, ev: map<nat, seq<Event>>, harm: bool, xs: seq<Active>, m: nat, rs: seq<Result<Token, StopReason>>,
    ctxs: seq<seq<Token>>)
    requires xs != [] && Mixed(c, ev, harm, xs, m, rs, ctxs)
    ensures xs[0].session !in SessionSet(xs[1..])
  {
    hide Owed, ActiveOk;
  }

  lemma TailSessions(xs: seq<Active>)
    requires xs != []
    ensures SessionSet(xs[1..]) <= SessionSet(xs) && SessionSet(xs[1..] + [xs[0]]) <= SessionSet(xs)
  {
  }

  lemma MixedFrom(c: Config, ev: map<nat, seq<Event>>, xs: seq<Active>)
    requires DistinctActives(xs) && forall i :: 0 <= i < |xs| ==> ActiveOk(c, ev, xs[i])
    ensures Mixed(c, ev, false, xs, 0, [], [])
  {
  }

  /** Whatever the first client is sent, the others stand where they stood. */
  lemma MixedTail(
    c: Config, ev: map<nat, seq<Event>>, harm: bool, xs: seq<Active>, m: nat, rs: seq<Result<Token, StopReason>>,
    ctxs: seq<seq<Token>>, log: seq<Event>)
    requires Mixed(c, ev, harm, xs, m, rs, ctxs) && Apart1(xs)
    ensures
      var ev' := ev[xs[0].request.id := log];
      if m > 0 then Mixed(c, ev', harm, xs[1..], m - 1, rs[1..], ctxs[1..]) else Mixed(c, ev', harm, xs[1..], 0, [], [])
  {
    hide Streaming, SteppedAlone;
    var ev' := ev[xs[0].request.id := log];
    forall i | 1 <= i < m
      ensures Owed(c, ev', harm, xs[i], rs[i], ctxs[i])
    {
      assert Owed(c, ev, harm, xs[i], rs[i], ctxs[i]);
    }
    forall i | 1 <= i < |xs| && m <= i
      ensures ActiveOk(c, ev', xs[i])
    {
      assert ActiveOk(c, ev, xs[i]);
    }
  }

  lemma MixedPush(
    c: Config, ev: map<nat, seq<Event>>, harm: bool, xs: seq<Active>, m: nat, rs: seq<Result<Token, StopReason>>,
    ctxs: seq<seq<Token>>, a: Active)
    requires Mixed(c, ev, harm, xs, m, rs, ctxs) && ActiveOk(c, ev, a) && a.session !in SessionSet(xs)
    ensures Mixed(c, ev, harm, xs + [a], m, rs, ctxs)
  {
    hide Owed, ActiveOk;
  }

  /** Whatever happens to an up-to-date request, its log may end here, or with an error. */
  lemma CanEnd(c: Config, a: Active, log: seq<Event>, cut: bool)
    requires c.Valid() && Streaming(c, a.request, log, a.session.context, a.session.promptLen)
    ensures LogOk(c, a.request, log, cut)
    ensures forall cause :: LogOk(c, a.request, log + [Error(cause)], cut)
  {
    StreamingIsOk(c, a.request, log, a.session.context, a.session.promptLen, cut);
    forall cause
      ensures LogOk(c, a.request, log + [Error(cause)], cut)
    {
      ErrorEnds(c, a.request, log, cause, cut);
    }
  }

  function PendingSet(ps: seq<Prefilling>): set<Pending> {
    set i | 0 <= i < |ps| :: ps[i].pending
  }

  /** How much of each prompt is in. */
  ghost function Absorbed(ps: seq<Prefilling>): (r: seq<nat>)
    reads PendingSet(ps)
    ensures |r| == |ps| && forall i :: 0 <= i < |ps| ==> r[i] == ps[i].pending.consumed
  {
    if ps == [] then [] else Absorbed(ps[..|ps| - 1]) + [ps[|ps| - 1].pending.consumed]
  }

  /** From `from` on nothing has been absorbed since. */
  ghost predicate StillAt(ps: seq<Prefilling>, had: seq<nat>, from: nat)
    reads PendingSet(ps)
  {
    |had| == |ps| && forall j :: from <= j < |ps| ==> ps[j].pending.consumed == had[j]
  }

  lemma NewPrefill(ps: seq<Prefilling>, p: Prefilling)
    requires DistinctPendings(ps) && forall i :: 0 <= i < |ps| ==> ps[i].pending != p.pending
    ensures DistinctPendings(ps + [p])
    ensures PendingRequests(ps + [p]) == PendingRequests(ps) + [p.request]
  {
  }

  /** What may happen next at the scheduler's door. */
  datatype Visit = Arrival(spec: Spec) | Turn(budget: nat)

  class Scheduler {
    const rt: InferenceRuntime
    const maxActive: nat
    const queueCapacity: nat
    const limit: nat
    const lookahead: nat

    /** The submission queue, the priority heap, the requests taken from the heap in this
      * iteration, those prefilling and those decoding. */
    var channel: seq<Request>
    var heap: multiset<Request>
    var admitted: seq<Request>
    var prefilling: seq<Prefilling>
    var active: seq<Active>

    var n: Counters
    var slots: map<User, nat>
    var nextId: nat

    /** The clients' side: what each has been sent, who has hung up, who has cancelled. */
    var events: map<nat, seq<Event>>
    var gone: set<nat>
    var cancelFlags: set<nat>

    /** Every request ever accepted, and those whose cache was lost to a refused truncation. */
    ghost var registry: map<nat, Request>
    ghost var truncated: set<nat>

    /** How requests have ended. */
    ghost var book: Book

    constructor (rt: InferenceRuntime, maxConcurrent: nat, queueCapacity: nat, limit: nat, lookahead: nat)
      requires rt.Valid()
      ensures Valid() && this.rt == rt && Held(View()) == multiset{}
      ensures maxActive == Max(maxConcurrent, 1) && this.limit == limit
    {
      this.rt := rt;
      this.maxActive := Max(maxConcurrent, 1);
      this.queueCapacity := Max(queueCapacity, 1);
      this.limit := limit;
      this.lookahead := lookahead;
      channel, heap, admitted, prefilling, active := [], multiset{}, [], [], [];
      n := Counters(0, 0, 0, 0, 0, 0, 0);
      slots, nextId := map[], 0;
      events, gone, cancelFlags := map[], {}, {};
      registry, truncated, book := map[], {}, Book(map[], {});
      new;
      EmptyDesk(TheShop());
      hide DeskOk, InferenceRuntime.Valid;
      assert View() == Desk([], multiset{}, [], [], [], Counters(0, 0, 0, 0, 0, 0, 0), map[], 0, map[], map[], {}, Book(map[], {}));
    }

    ghost function TheShop(): Shop {
      Shop(rt.c, limit, maxActive, queueCapacity, lookahead)
    }

    ghost function View(): Desk
      reads `channel, `heap, `admitted, `prefilling, `active, `n, `slots, `nextId, `events, `registry, `truncated, `book
    {
      Desk(channel, heap, admitted, PendingRequests(prefilling), ActiveRequests(active),
           n, slots, nextId, events, registry, truncated, book)
    }

    ghost function Sessions(): set<Session>
      reads this`active
    {
      set i | 0 <= i < |active| :: active[i].session
    }

    ghost function Pendings(): set<Pending>
      reads this`prefilling
    {
      set i | 0 <= i < |prefilling| :: prefilling[i].pending
    }

    ghost predicate Prefills()
      reads this`prefilling, Pendings()
    {
      && (forall i :: 0 <= i < |prefilling| ==> PrefillOk(rt.c, prefilling[i]))
      && DistinctPendings(prefilling)
    }

    ghost predicate Actives(ev: map<nat, seq<Event>>)
      reads this`active, Sessions()
    {
      && (forall i :: 0 <= i < |active| ==> ActiveOk(rt.c, ev, active[i]))
      && DistinctActives(active)
    }

    ghost predicate Valid()
      reads `channel, `heap, `admitted, `prefilling, `active, `n, `slots, `nextId, `events, `registry, `truncated, `book
      reads `gone, `cancelFlags, rt, rt.cache, Sessions(), Pendings()
    {
      rt.Valid() && Sound() && Prefills() && Actives(events)
    }

    /** The account is in order, and nobody was taken to be gone who is not. */
    ghost predicate Sound()
      reads `channel, `heap, `admitted, `prefilling, `active, `n, `slots, `nextId, `events, `registry, `truncated, `book
      reads `gone, `cancelFlags
    {
      DeskOk(TheShop(), View()) && Honest(book, Absent())
    }

    /** What is sent to one client is no other client's business. */
    lemma ActivesApart(ev: map<nat, seq<Event>>, id: nat, log: seq<Event>)
      requires Actives(ev) && forall q :: q in ActiveRequests(active) ==> q.id != id
      ensures Actives(ev[id := log])
    {
      forall i | 0 <= i < |active|
        ensures ActiveOk(rt.c, ev[id := log], active[i])
      {
        assert ActiveRequests(active)[i] == active[i].request;
        assert ActiveOk(rt.c, ev, active[i]);
      }
    }

    // -------------------------------------------------------------- clients

    function Absent(): Absence
      reads `cancelFlags, `gone
    {
      Absence(cancelFlags, gone)
    }

    /** The clients may cancel or hang up at any time. */
    method Meanwhile()
      modifies this`gone, this`cancelFlags
      ensures old(Absent()).Then(Absent()) && (old(Honest(book, Absent())) ==> Honest(book, Absent()))
    {
      var more: set<nat> := *;
      var flags: set<nat> := *;
      gone := gone + more;
      cancelFlags := cancelFlags + flags;
    }

    method IsCancelled(id: nat) returns (b: bool)
      modifies this`gone, this`cancelFlags
      ensures b == (id in cancelFlags) && old(Absent()).Then(Absent())
      ensures old(Honest(book, Absent())) ==> Honest(book, Absent())
    {
      Meanwhile();
      b := id in cancelFlags;
    }

    method IsClosed(id: nat) returns (b: bool)
      modifies this`gone, this`cancelFlags
      ensures b == (id in gone) && old(Absent()).Then(Absent())
      ensures old(Honest(book, Absent())) ==> Honest(book, Absent())
    {
      Meanwhile();
      b := id in gone;
    }

    /** Look whether a request's client has left, or its time is up. */
    method Look(r: Request, late: bool) returns (drop: bool, cause: Cause, tell: bool)
      requires Valid()
      modifies this`gone, this`cancelFlags
      ensures Valid() && old(Absent()).Then(Absent())
      ensures drop ==> Warranted(r, late, old(Absent()), Absent(), cause, tell)
      ensures !drop ==> !late && !old(Absent()).Has(r)
    {
      hide DeskOk, PrefillOk, ActiveOk, DistinctActives, DistinctPendings, InferenceRuntime.Valid;
      var cancelled := IsCancelled(r.id);
      var closed := IsClosed(r.id);
      drop := cancelled || closed || late;
      cause := if cancelled || closed then Cancelled else TimedOut;
      tell := cancelled || !closed;
    }

    /** Deliver an event, unless the client has hung up by now. */
    method Send(id: nat, e: Event) returns (delivered: bool)
      requires id in events
      modifies this`events, this`gone, this`cancelFlags
      ensures events == old(events)[id := if delivered then old(events)[id] + [e] else old(events)[id]]
      ensures (delivered <==> id !in gone) && old(Absent()).Then(Absent())
      ensures old(Honest(book, Absent())) ==> Honest(book, Absent())
    {
      Meanwhile();
      delivered := id !in gone;
      if delivered {
        events := events[id := events[id] + [e]];
      } else {
        assert events == events[id := events[id]];
      }
    }

    /** File an accepted request; `d` is the account before its user's permits were looked up. */
    method Enqueue(spec: Spec, request: Request, ghost d: Desk)
      requires rt.Valid() && Prefills() && Actives(events) && DeskOk(TheShop(), d) && Honest(book, Absent())
      requires View() == d.(slots := UserSlots(d.slots, limit, spec.user)) && request == Request(nextId, spec)
      requires spec.user in slots && slots[spec.user] > 0
      modifies this`channel, this`n, this`slots, this`nextId, this`events, this`registry
      ensures Valid() && Held(View()) == Held(d) + multiset{request}
      ensures Grows(old(events), events) && n == old(n).(submitted := old(n).submitted + 1)
    {
      hide DeskOk, UserSlots, Silent, Held, PrefillOk, ActiveOk, DistinctActives, DistinctPendings, Grows, Submitted;
      ghost var shop := TheShop();
      SubmitKeeps(shop, d, spec);
      FreshId(shop, d);
      ActivesApart(events, nextId, []);
      GrowsAt(events, nextId, []);
      SubmittedIs(shop, d, spec, slots);
      File(spec, request);
    }

    method File(spec: Spec, request: Request)
      requires request == Request(nextId, spec) && spec.user in slots && slots[spec.user] > 0
      modifies this`channel, this`n, this`slots, this`nextId, this`events, this`registry
      ensures View() == Filed(old(View()), request) && events == old(events)[old(nextId) := []]
      ensures n == old(n).(submitted := old(n).submitted + 1)
    {
      hide PendingRequests, ActiveRequests;
      ghost var d := View();
      nextId, slots := nextId + 1, slots[spec.user := slots[spec.user] - 1];
      channel, n := channel + [request], n.(submitted := n.submitted + 1);
      events, registry := events[request.id := []], registry[request.id := request];
      assert View() == Filed(d, request);
    }

    /** Queue a request, or refuse it: at the user's limit, or with the queue full. */
    method Submit(spec: Spec) returns (r: Result<nat, ()>)
      requires Valid()
      modifies this`channel, this`n, this`slots, this`nextId, this`events, this`registry
      ensures Valid()
      ensures Grows(old(events), events)
      ensures r.Ok? ==> Held(View()) == old(Held(View())) + multiset{Request(r.value, spec)} && r.value == old(nextId)
      ensures r.Ok? <==> old(Mine(Held(View()), spec.user)) < limit && old(|channel|) < queueCapacity
      ensures n ==
        if r.Ok? then old(n).(submitted := old(n).submitted + 1)
        else if old(Mine(Held(View()), spec.user)) < limit then old(n).(rejectedBusy := old(n).rejectedBusy + 1)
        else old(n).(rejectedRate := old(n).rejectedRate + 1)
      ensures r.Err? ==> Held(View()) == old(Held(View())) && events == old(events)
    {
      hide DeskOk, UserSlots, Mine, Silent, Held, PrefillOk, ActiveOk, DistinctActives, DistinctPendings, InferenceRuntime.Valid;
      ghost var d, shop := View(), TheShop();
      RefuseKeeps(shop, d, spec.user, n, nextId);
      slots := UserSlots(slots, limit, spec.user);
      if slots[spec.user] == 0 {
        n := n.(rejectedRate := n.rejectedRate + 1);
        RefuseKeeps(shop, d, spec.user, n, nextId);
        SamePlaces(d, View());
        return Err(());
      }
      var request := Request(nextId, spec);
      if |channel| >= queueCapacity {
        nextId := nextId + 1;
        n := n.(rejectedBusy := n.rejectedBusy + 1);
        RefuseKeeps(shop, d, spec.user, n, nextId);
        SamePlaces(d, View());
        return Err(());
      }
      Enqueue(spec, request, d);
      return Ok(request.id);
    }

    // -------------------------------------------------------------- the heap

    /** Move everything that has been submitted into the heap. */
    method Drain()
      requires Valid()
      modifies this`channel, this`heap
      ensures Valid() && channel == [] && Held(View()) == old(Held(View()))
      ensures heap == old(heap) + multiset(old(channel))
    {
      hide DeskOk, Held, Silent, PrefillOk, ActiveOk, DistinctActives, DistinctPendings, InferenceRuntime.Valid;
      ghost var d := View();
      DrainKeeps(TheShop(), d);
      heap := heap + multiset(channel);
      channel := [];
      assert View() == Drained(d);
    }

    /** Drop a queued request whose client is gone; its permit comes back, and nothing is sent. */
    method DropQueued(r: Request)
      requires Valid() && r in heap && Absent().Has(r)
      modifies this`heap, this`n, this`slots, this`book
      ensures Valid() && heap == old(heap) - multiset{r} && n == Count(old(n), Cancelled)
    {
      hide DeskOk, Held, Silent, PrefillOk, ActiveOk, DistinctActives, DistinctPendings, InferenceRuntime.Valid, Settled;
      ghost var d := View();
      QueuedIsKnown(TheShop(), d, r);
      SettleHeapKeeps(TheShop(), d, r);
      HonestClosed(book, Absent(), r, Cancelled, events[r.id]);
      CloseQueued(r);
    }

    method CloseQueued(r: Request)
      requires r in heap && r.id in events
      modifies this`heap, this`n, this`slots, this`book
      ensures View() == Settled(Unheaped(old(View()), r), r, Cancelled, events[r.id], false)
      ensures heap == old(heap) - multiset{r} && n == Count(old(n), Cancelled)
      ensures book == Closed(old(book), r.id, Cancelled, events[r.id])
    {
      hide Count, Return, PendingRequests, ActiveRequests, Closed;
      assert events == events[r.id := events[r.id]];
      heap, n, slots := heap - multiset{r}, Count(n, Cancelled), Return(slots, r.spec.user);
      book := Closed(book, r.id, Cancelled, events[r.id]);
    }

    /** Drop the queued requests whose clients have already gone: those that leave have cancelled or hung up
      * by now, and none that stays had when the sweep began. */
    method PurgeHeap() returns (ghost purged: multiset<Request>)
      requires Valid()
      modifies this`heap, this`n, this`slots, this`book, this`gone, this`cancelFlags
      ensures Valid() && old(heap) == heap + purged && old(Absent()).Then(Absent())
      ensures AllHave(purged, Absent()) && NoneHas(heap, old(Absent()))
      ensures n == old(n).(cancelled := old(n).cancelled + |purged|)
    {
      hide Valid, Purging, AllHave, NoneHas, Absence.Then;
      var todo := heap;
      ghost var stayed: multiset<Request> := multiset{};
      ghost var all, n0, before := heap, n, Absent();
      purged := multiset{};
      PurgeStarts(all, n0, before);
      while todo != multiset{}
        invariant Valid() && Purging(all, n0, before, heap, n, Absent(), todo, stayed, purged)
        decreases |todo|
      {
        var r :| r in todo;
        ghost var stay, out := PurgeOne(r, all, n0, before, todo, stayed, purged);
        todo, stayed, purged := todo - multiset{r}, stay, out;
      }
      PurgeEnds(all, n0, before, heap, n, Absent(), todo, stayed, purged);
    }

    method PurgeOne(
      r: Request, ghost all: multiset<Request>, ghost n0: Counters, ghost before: Absence,
      ghost todo: multiset<Request>, ghost stayed: multiset<Request>, ghost purged: multiset<Request>)
      returns (ghost stay: multiset<Request>, ghost out: multiset<Request>)
      requires Valid() && r in todo && Purging(all, n0, before, heap, n, Absent(), todo, stayed, purged)
      modifies this`heap, this`n, this`slots, this`book, this`gone, this`cancelFlags
      ensures Valid() && Purging(all, n0, before, heap, n, Absent(), todo - multiset{r}, stay, out)
    {
      ghost var h0, m0, absent := heap, n, Absent();
      assert r in heap && before.Then(absent);
      hide Valid, Purging, Absence.Then, Count;
      var dropped := DropIfGone(r);
      if dropped {
        PurgeLeaves(all, n0, before, h0, m0, absent, todo, stayed, purged, r, Absent());
        return stayed, purged + multiset{r};
      }
      HadNotLeft(r, before, absent);
      PurgeStays(all, n0, before, h0, m0, absent, todo, stayed, purged, r, Absent());
      return stayed + multiset{r}, purged;
    }

    method DropIfGone(r: Request) returns (dropped: bool)
      requires Valid() && r in heap
      modifies this`heap, this`n, this`slots, this`book, this`gone, this`cancelFlags
      ensures Valid() && heap == if dropped then old(heap) - multiset{r} else old(heap)
      ensures n == if dropped then Count(old(n), Cancelled) else old(n)
      ensures old(Absent()).Then(Absent()) && (dropped ==> Absent().Has(r)) && (!dropped ==> !old(Absent()).Has(r))
    {
      hide Valid, Warranted, Held, Silent, Count, Absence.Has;
      var cause, tell;
      dropped, cause, tell := Look(r, false);
      WarrantedIsGone(r, old(Absent()), Absent(), cause, tell);
      if dropped {
        DropQueued(r);
      }
    }

    lemma OrderIsTotal()
      ensures Heap.TotalPreorder(RequestLe)
    {
    }

    /** Fill the free places from the heap: always its greatest request, that is, the highest
      * priority and the oldest within it. */
    method Admit()
      requires Valid() && admitted == []
      modifies this`heap, this`admitted, this`n, this`slots, this`book, this`gone, this`cancelFlags
      ensures Valid() && old(Absent()).Then(Absent())
      ensures InOrder(admitted, heap) && heap + multiset(admitted) <= old(heap)
      ensures |active| + |prefilling| + |admitted| <= maxActive
      ensures heap == multiset{} || |active| + |prefilling| + |admitted| == maxActive
    {
      assert InOrder(admitted, heap) && heap + multiset(admitted) == heap;
      hide DeskOk, Held, Silent, PrefillOk, ActiveOk, DistinctActives, DistinctPendings, InOrder, RequestLe, Absence.Then, Honest;
      StillHere(Absent());
      while |active| + |prefilling| + |admitted| < maxActive && heap != multiset{}
        invariant Valid() && InOrder(admitted, heap) && heap + multiset(admitted) <= old(heap)
        invariant old(Absent()).Then(Absent())
        decreases |heap|
      {
        ghost var absent := Absent();
        TakeBest();
        LaterStill(old(Absent()), absent, Absent());
      }
      Bounded();
    }

    /** Take the heap's greatest request, unless its client is gone, in which case drop it. */
    method TakeBest()
      requires Valid() && InOrder(admitted, heap) && heap != multiset{}
      requires |active| + |prefilling| + |admitted| < maxActive
      modifies this`heap, this`admitted, this`n, this`slots, this`book, this`gone, this`cancelFlags
      ensures Valid() && InOrder(admitted, heap) && |heap| < |old(heap)| && old(Absent()).Then(Absent())
      ensures heap + multiset(admitted) <= old(heap) + multiset(old(admitted))
    {
      hide DeskOk, PrefillOk, ActiveOk, DistinctActives, DistinctPendings, InOrder, RequestLe, Absence.Then, Honest, InferenceRuntime.Valid;
      OrderIsTotal();
      var r, rest := Heap.PopMax(heap, RequestLe);
      TakeIfThere(r);
    }

    method TakeIfThere(r: Request)
      requires Valid() && InOrder(admitted, heap) && r in heap && forall q :: q in heap ==> RequestLe(q, r)
      requires |active| + |prefilling| + |admitted| < maxActive
      modifies this`heap, this`admitted, this`n, this`slots, this`book, this`gone, this`cancelFlags
      ensures Valid() && InOrder(admitted, heap) && |heap| < |old(heap)| && old(Absent()).Then(Absent())
      ensures heap + multiset(admitted) <= old(heap) + multiset(old(admitted))
    {
      hide Valid, InOrder, RequestLe, Absence.Then, Absence.Has, Held;
      OrderKept(admitted, heap, r);
      assert |heap - multiset{r}| < |heap|;
      var dropped := DropIfGone(r);
      if !dropped {
        TakeFromHeap(r);
      }
    }

    lemma Bounded()
      requires Valid()
      ensures |active| + |prefilling| + |admitted| <= maxActive
    {
    }

    method TakeFromHeap(r: Request)
      requires Valid() && r in heap && |active| + |prefilling| + |admitted| < maxActive
      modifies this`heap, this`admitted
      ensures Valid() && heap == old(heap) - multiset{r} && admitted == old(admitted) + [r]
      ensures Held(View()) == old(Held(View()))
    {
      hide DeskOk, Held, Silent, PrefillOk, ActiveOk, DistinctActives, DistinctPendings, InferenceRuntime.Valid;
      ghost var d := View();
      AdmitKeeps(TheShop(), d, r);
      heap := heap - multiset{r};
      admitted := admitted + [r];
      assert View() == Desks.Admitted(d, r);
    }

    // -------------------------------------------------------------- admission and prefill

    lemma HeadAdmitted(d: Desk)
      requires DeskOk(TheShop(), d) && d.admitted != []
      ensures d.admitted[0].id in d.events && d.events[d.admitted[0].id] == []
    {
      assert d.admitted[0] in Silent(d);
    }

    lemma HeadWaiting(d: Desk)
      requires DeskOk(TheShop(), d) && d.waiting != []
      ensures d.waiting[0].id in d.events && d.events[d.waiting[0].id] == []
    {
      assert d.waiting[0] in Silent(d);
    }

    /** A request that has been sent nothing may be closed for this cause; only one that was given up silently. */
    ghost predicate MayClose(r: Request, cause: Cause, tell: bool)
      reads `events, `gone, `cancelFlags
    {
      && r.id in events && events[r.id] == []
      && cause != Completed && (cause == Cancelled ==> Absent().Has(r)) && (!tell ==> cause == Cancelled)
    }

    /** Count a request out that has been sent nothing yet, return its permit, and report the failure unless
      * the client is known to be gone. */
    method Close(r: Request, cause: Cause, tell: bool) returns (ghost fate: Fate)
      requires MayClose(r, cause, tell)
      modifies this`n, this`slots, this`book, this`events, this`gone, this`cancelFlags
      ensures Told(fate, cause, tell, r.id, Absent()) && old(Absent()).Then(Absent()) && Grows(old(events), events)
      ensures n == Count(old(n), cause) && slots == Return(old(slots), r.spec.user)
      ensures events == old(events)[r.id := LastWord(fate)] && book == Closed(old(book), r.id, cause, LastWord(fate))
      ensures old(Honest(book, Absent())) ==> Honest(book, Absent())
    {
      n := Count(n, cause);
      slots := Return(slots, r.spec.user);
      fate := Dropped(cause, false);
      if tell {
        var delivered := Send(r.id, Error(cause));
        fate := Dropped(cause, delivered);
        assert [] + [Error(cause)] == [Error(cause)];
      }
      assert !fate.sent ==> events == events[r.id := []];
      if Honest(book, Absent()) {
        HonestClosed(book, Absent(), r, cause, LastWord(fate));
      }
      book := Closed(book, r.id, cause, LastWord(fate));
    }

    method CloseAdmitted(cause: Cause) returns (ghost fate: Fate)
      requires admitted != [] && MayClose(admitted[0], cause, true)
      modifies this`admitted, this`n, this`slots, this`book, this`events, this`gone, this`cancelFlags
      ensures Told(fate, cause, true, old(admitted[0].id), Absent()) && old(Absent()).Then(Absent()) && Grows(old(events), events)
      ensures admitted == old(admitted)[1..]
      ensures View() == Settled(Unadmitted(old(View())), old(admitted[0]), cause, LastWord(fate), false)
      ensures events == old(events)[old(admitted[0].id) := LastWord(fate)]
      ensures old(Honest(book, Absent())) ==> Honest(book, Absent())
    {
      hide MayClose, Count, Return, Grows, LastWord, Closed, Honest, Told, Absence.Then, PendingRequests, ActiveRequests;
      var r := admitted[0];
      admitted := admitted[1..];
      fate := Close(r, cause, true);
    }

    /** Settle the first admitted request and tell its client, if it is still there. */
    method EndAdmitted(cause: Cause) returns (ghost fate: Fate)
      requires Valid() && admitted != [] && cause != Completed && cause != Cancelled
      modifies this`admitted, this`n, this`slots, this`book, this`events, this`gone, this`cancelFlags
      ensures Valid() && Told(fate, cause, true, old(admitted[0].id), Absent()) && old(Absent()).Then(Absent())
      ensures admitted == old(admitted)[1..]
      ensures View() == Settled(Unadmitted(old(View())), old(admitted[0]), cause, LastWord(fate), false)
      ensures Grows(old(events), events)
    {
      hide DeskOk, Held, Silent, PrefillOk, ActiveOk, DistinctActives, DistinctPendings, Settled, Grows, InferenceRuntime.Valid, Absence.Then, LastWord, Told;
      ghost var d, r := View(), admitted[0];
      HeadAdmitted(d);
      fate := CloseAdmitted(cause);
      LastWords(fate, cause, true, r.id, Absent());
      SettleAdmittedKeeps(TheShop(), d, cause, LastWord(fate));
      ActivesApart(old(events), r.id, LastWord(fate));
    }

    /** Whether a request can start at all. */
    predicate CanStart(r: Request) {
      r.spec.params.acceptable && r.spec.params.maxTokens > 0 && r.spec.prompt != [] && |r.spec.prompt| < rt.c.maxContext
    }

    /** Accept one admitted request, or report why it could not start. It starts exactly if its parameters
      * are valid and its prompt is neither empty nor too long; otherwise it is told, if it is there. */
    method AdmitOne() returns (ghost fate: Fate)
      requires Valid() && admitted != []
      modifies this`admitted, this`prefilling, this`n, this`slots, this`book, this`events, this`gone, this`cancelFlags, rt, rt.cache
      ensures Valid() && old(Absent()).Then(Absent())
      ensures
        var r, d := old(admitted[0]), old(View());
        if CanStart(r) then View() == StartedPrefill(d)
        else Told(fate, Failed, true, r.id, Absent()) && View() == Settled(Unadmitted(d), r, Failed, LastWord(fate), false)
      ensures admitted == old(admitted)[1..] && Grows(old(events), events)
      ensures old(prefilling) <= prefilling
      ensures PendingRequests(prefilling) ==
        old(PendingRequests(prefilling)) + if CanStart(old(admitted[0])) then [old(admitted[0])] else []
      ensures forall p :: p in Pendings() ==> p in old(Pendings()) || fresh(p)
    {
      hide DeskOk, Held, Silent, PrefillOk, ActiveOk, DistinctActives, DistinctPendings, Grows, Settled;
      var r := admitted[0];
      GrowsSame(events);
      var started := rt.StartIncremental(r.spec.prompt, r.spec.params);
      fate := Kept;
      if started.Err? {
        fate := EndAdmitted(Failed);
        return;
      }
      BeginPrefill(started.value);
    }

    /** The first admitted request begins to prefill. */
    method BeginPrefill(pending: Pending)
      requires Valid() && admitted != [] && pending.Valid(rt.c) && pending.context == admitted[0].spec.prompt
      requires pending !in Pendings()
      modifies this`admitted, this`prefilling
      ensures Valid() && View() == StartedPrefill(old(View()))
      ensures admitted == old(admitted)[1..] && old(prefilling) <= prefilling
      ensures PendingRequests(prefilling) == old(PendingRequests(prefilling)) + [old(admitted)[0]]
      ensures forall p :: p in Pendings() ==> p in old(Pendings()) || p == pending
    {
      hide DeskOk, Held, Silent, PrefillOk, ActiveOk, DistinctActives, DistinctPendings;
      var r := admitted[0];
      StartPrefillKeeps(TheShop(), View());
      admitted := admitted[1..];
      IsPrefill(Prefilling(r, pending));
      Await(Prefilling(r, pending));
    }

    lemma IsPrefill(p: Prefilling)
      requires rt.c.Valid() && p.pending.Valid(rt.c) && p.pending.context == p.request.spec.prompt
      ensures PrefillOk(rt.c, p)
    {
    }

    method Await(p: Prefilling)
      requires Prefills() && PrefillOk(rt.c, p) && p.pending !in Pendings()
      modifies this`prefilling
      ensures Prefills() && prefilling == old(prefilling) + [p]
      ensures PendingRequests(prefilling) == old(PendingRequests(prefilling)) + [p.request]
      ensures forall q :: q in Pendings() ==> q in old(Pendings()) || q == p.pending
    {
      hide PrefillOk;
      NewPrefill(prefilling, p);
      prefilling := prefilling + [p];
    }

    method CloseWaiting(cause: Cause, tell: bool) returns (ghost fate: Fate)
      requires prefilling != [] && MayClose(prefilling[0].request, cause, tell)
      modifies this`prefilling, this`n, this`slots, this`book, this`events, this`gone, this`cancelFlags
      ensures prefilling == old(prefilling)[1..] && old(Absent()).Then(Absent()) && Grows(old(events), events)
      ensures Told(fate, cause, tell, old(prefilling[0].request.id), Absent())
      ensures View() == Turned(old(View()), fate)
      ensures events == old(events)[old(prefilling[0].request.id) := LastWord(fate)]
      ensures old(Honest(book, Absent())) ==> Honest(book, Absent())
    {
      hide MayClose, Count, Return, Grows, LastWord, Closed, Honest, Told, Absence.Then, ActiveRequests;
      var r := prefilling[0].request;
      assert PendingRequests(prefilling)[1..] == PendingRequests(prefilling[1..]);
      prefilling := prefilling[1..];
      fate := Close(r, cause, tell);
    }

    /** Settle the first prefilling request, telling its client unless it is known to be gone. */
    method EndWaiting(cause: Cause, tell: bool) returns (ghost fate: Fate)
      requires rt.Valid() && Sound() && Prefills'() && Actives(events) && prefilling != []
      requires cause != Completed && (cause == Cancelled ==> Absent().Has(prefilling[0].request)) && (!tell ==> cause == Cancelled)
      modifies this`prefilling, this`n, this`slots, this`book, this`events, this`gone, this`cancelFlags
      ensures Valid() && prefilling == old(prefilling)[1..] && old(Absent()).Then(Absent())
      ensures Told(fate, cause, tell, old(prefilling[0].request.id), Absent()) && View() == Turned(old(View()), fate)
      ensures Grows(old(events), events)
    {
      hide DeskOk, Held, Silent, PrefillOk, ActiveOk, DistinctActives, Settled, Grows, InferenceRuntime.Valid;
      ghost var d, r := View(), prefilling[0].request;
      HeadWaiting(d);
      fate := CloseWaiting(cause, tell);
      SettleWaitingKeeps(TheShop(), d, cause, LastWord(fate));
      ActivesApart(old(events), r.id, LastWord(fate));
    }

    /** `Prefills` for all but the first, whose prompt may just have failed to go in. */
    ghost predicate Prefills'()
      reads this`prefilling, Pendings()
    {
      && (forall i :: 1 <= i < |prefilling| ==> PrefillOk(rt.c, prefilling[i]))
      && DistinctPendings(prefilling)
    }

    /** Feed the first prefilling request a little further: it goes to the back of the line, or
      * on to decoding once its prompt is in, or out if its client is gone, its time is up or its
      * prompt cannot be absorbed. */
    method AdvanceOne(budget: nat, late: bool) returns (ghost fate: Fate)
      requires Valid() && prefilling != []
      modifies this`prefilling, this`active, this`n, this`slots, this`book, this`events, this`gone, this`cancelFlags
      modifies rt.cache, prefilling[0].pending
      ensures Valid() && old(Absent()).Then(Absent())
      ensures View() == Turned(old(View()), fate)
      ensures Deserves(
        rt.c, old(prefilling[0].request), old(prefilling[0].pending.consumed), budget, late, old(Absent()), Absent(), fate)
      ensures prefilling == old(prefilling)[1..] + if fate == Kept then [old(prefilling[0])] else []
      ensures Grows(old(events), events)
      ensures forall x :: x in Sessions() ==> x in old(Sessions()) || fresh(x)
    {
      hide Valid, DeskOk, Turned, Grows, Feedable, Seen, Told, Fed, Deserves, Warranted, Prefills', Actives, View;
      var r := prefilling[0].request;
      ghost var had, before := prefilling[0].pending.consumed, Absent();
      GrowsSame(events);
      var drop, cause, tell := Look(r, late);
      ghost var absent := Absent();
      if drop {
        Opened();
        WarrantIs(r, late, before, absent, cause, tell);
        fate := EndWaiting(cause, tell);
        DroppedSeen(r, late, before, absent, Absent(), cause, tell, fate);
        DropDeserves(rt.c, r, had, budget, late, before, Absent(), fate);
      } else {
        fate := FeedOne(budget);
        FedDeserves(rt.c, r, had, budget, before, Absent(), fate);
      }
    }

    lemma Opened()
      requires Valid()
      ensures rt.Valid() && Sound() && Prefills'() && Actives(events)
    {
    }

    /** The first prefilling request is fed. */
    method FeedOne(budget: nat) returns (ghost fate: Fate)
      requires Valid() && prefilling != []
      modifies this`prefilling, this`active, this`n, this`slots, this`book, this`events, this`gone, this`cancelFlags
      modifies rt.cache, prefilling[0].pending
      ensures Valid() && old(Absent()).Then(Absent()) && Grows(old(events), events)
      ensures View() == Turned(old(View()), fate)
      ensures Fed(rt.c, old(prefilling[0].request), old(prefilling[0].pending.consumed), budget, Absent(), fate)
      ensures prefilling == old(prefilling)[1..] + if fate == Kept then [old(prefilling[0])] else []
      ensures forall x :: x in Sessions() ==> x in old(Sessions()) || fresh(x)
    {
      hide DeskOk, Held, Silent, PrefillOk, ActiveOk, DistinctActives, DistinctPendings, InferenceRuntime.Valid, Turned, Grows;
      GrowsSame(events);
      var outcome := Feed(budget);
      if outcome.Err? {
        fate := EndWaiting(Failed, true);
      } else if outcome.value {
        Promote();
        fate := Risen;
      } else {
        RotateWaiting();
        fate := Kept;
      }
    }

    /** Absorb more of the first prefilling request's prompt. */
    method Feed(budget: nat) returns (outcome: Result<bool, ()>)
      requires Valid() && prefilling != []
      modifies rt.cache, prefilling[0].pending
      ensures rt.Valid() && Prefills'()
      ensures outcome.Ok? ==> Prefills()
      ensures outcome == Ok(true) ==> prefilling[0].pending.consumed == |prefilling[0].pending.context| - 1
      ensures
        var r, had := prefilling[0].request, old(prefilling[0].pending.consumed);
        && (outcome.Ok? <==> Feedable(rt.c, r, had, budget))
        && (outcome == Ok(true) ==> had + Max(budget, 1) >= |r.spec.prompt| - 1)
        && (outcome == Ok(false) ==> had + Max(budget, 1) < |r.spec.prompt| - 1)
    {
      hide DeskOk, View, Actives;
      assert PrefillOk(rt.c, prefilling[0]);
      outcome := rt.AdvancePrefill(prefilling[0].pending, budget);
    }

    method RotateWaiting()
      requires Valid() && prefilling != []
      modifies this`prefilling
      ensures Valid() && prefilling == old(prefilling)[1..] + [old(prefilling)[0]] && View() == Turned(old(View()), Kept)
    {
      hide DeskOk, Held, Silent, PrefillOk, ActiveOk, DistinctActives, InferenceRuntime.Valid;
      ghost var d := View();
      RotateWaitingKeeps(TheShop(), d);
      prefilling := prefilling[1..] + [prefilling[0]];
      assert View() == RotatedWaiting(d);
    }

    /** The first prefilling request has its prompt in and starts to decode. */
    method Promote()
      requires Valid() && prefilling != []
      requires prefilling[0].pending.consumed == |prefilling[0].pending.context| - 1
      modifies this`prefilling, this`active
      ensures Valid() && prefilling == old(prefilling)[1..] && View() == Turned(old(View()), Risen)
      ensures forall x :: x in Sessions() ==> x in old(Sessions()) || fresh(x)
    {
      hide DeskOk, Held, Silent, DistinctActives, DistinctPendings, ActiveOk, Streaming, InferenceRuntime.Valid;
      var p := prefilling[0];
      assert PrefillOk(rt.c, p);
      var session := rt.FinishPrefill(p.pending);
      PromoteKeeps(TheShop(), View());
      MayDecode(p, session);
      MoveUp(Active(p.request, session));
    }

    lemma MayDecode(p: Prefilling, session: Session)
      requires rt.c.Valid() && session.Ready(rt.c) && p.request.id in events && events[p.request.id] == []
      requires session.context == p.request.spec.prompt && session.promptLen == |session.context|
      ensures ActiveOk(rt.c, events, Active(p.request, session))
    {
      StreamStarts(rt.c, p.request);
    }

    method MoveUp(a: Active)
      requires Valid() && prefilling != [] && a.request == prefilling[0].request && a.session !in Sessions()
      requires ActiveOk(rt.c, events, a)
      modifies this`prefilling, this`active
      ensures Valid() && prefilling == old(prefilling)[1..] && View() == Turned(old(View()), Risen)
      ensures forall x :: x in Sessions() ==> x in old(Sessions()) || x == a.session
    {
      hide DeskOk, Held, Silent, DistinctActives, ActiveOk, PrefillOk, InferenceRuntime.Valid;
      PromoteKeeps(TheShop(), View());
      assert PendingRequests(prefilling)[1..] == PendingRequests(prefilling[1..]);
      prefilling := prefilling[1..];
      Decode(a);
    }

    method Decode(a: Active)
      requires Actives(events) && ActiveOk(rt.c, events, a) && a.session !in Sessions()
      modifies this`active
      ensures Actives(events) && active == old(active) + [a]
      ensures ActiveRequests(active) == old(ActiveRequests(active)) + [a.request]
      ensures forall x :: x in Sessions() ==> x in old(Sessions()) || x == a.session
    {
      hide ActiveOk;
      active := active + [a];
    }

    // -------------------------------------------------------------- decoding

    /** Only a request that was given up may end without a last event. */
    predicate Suits(cause: Cause, e: Option<Event>) {
      (e.Some? ==> EndsFor([e.value], cause)) && (e.None? ==> cause == Cancelled)
    }

    /** The first running request's log may end as it is, and with `e` if that is a last event. */
    ghost predicate MayEnd(cause: Cause, e: Option<Event>, cut: bool)
      reads `active, `events, `truncated, `registry, `gone, `cancelFlags
    {
      && Suits(cause, e) && active != [] && (cause == Cancelled ==> Absent().Has(active[0].request))
      && rt.c.Valid() && active != [] && active[0].request.id in events && (cut ==> MayCut(TheShop(), registry))
      && var r := active[0].request;
      && LogOk(rt.c, r, events[r.id], r.id in truncated || cut)
      && (e.Some? ==> LogOk(rt.c, r, events[r.id] + [e.value], r.id in truncated || cut))
    }

    /** Count a request out, return its permit and send its last event, if it has one. */
    method SignOff(r: Request, cause: Cause, e: Option<Event>, ghost cut: bool) returns (ghost log: seq<Event>)
      requires r.id in events && Suits(cause, e) && (cause == Cancelled ==> Absent().Has(r))
      modifies this`n, this`slots, this`book, this`events, this`gone, this`cancelFlags, this`truncated
      ensures book == Closed(old(book), r.id, cause, log) && (old(Honest(book, Absent())) ==> Honest(book, Absent()))
      ensures n == Count(old(n), cause) && slots == Return(old(slots), r.spec.user)
      ensures truncated == if cut then old(truncated) + {r.id} else old(truncated)
      ensures events == old(events)[r.id := log]
      ensures log == if e.Some? && r.id !in gone then old(events)[r.id] + [e.value] else old(events)[r.id]
      ensures old(Absent()).Then(Absent())
    {
      n := Count(n, cause);
      slots := Return(slots, r.spec.user);
      truncated := if cut then truncated + {r.id} else truncated;
      log := events[r.id];
      if e.Some? {
        var delivered := Send(r.id, e.value);
        log := events[r.id];
      } else {
        assert events == events[r.id := log];
      }
      if Honest(book, Absent()) {
        HonestClosed(book, Absent(), r, cause, log);
      }
      book := Closed(book, r.id, cause, log);
    }

    /** Settle the first running request, after a last event if there is one to send. */
    method EndHead(cause: Cause, e: Option<Event>, ghost cut: bool) returns (ghost log: seq<Event>)
      requires Sound() && MayEnd(cause, e, cut)
      modifies this`active, this`n, this`slots, this`book, this`events, this`gone, this`cancelFlags, this`truncated
      ensures Sound() && active == old(active)[1..]
      ensures events == old(events)[old(active)[0].request.id := log]
      ensures View() == Settled(Unrunning(old(View())), old(active)[0].request, cause, log, cut)
      ensures
        var id := old(active)[0].request.id;
        log == if e.Some? && id !in gone then old(events)[id] + [e.value] else old(events)[id]
      ensures old(Absent()).Then(Absent())
      ensures Grows(old(events), events)
    {
      hide DeskOk, LogOk, Settled, Config.Valid, Held, Silent, Absence.Then, MayCut, Honest;
      ghost var d := View();
      assert d.running[0] == active[0].request;
      RunningLog(TheShop(), d);
      log := CloseRunning(cause, e, cut);
      SettleRunningKeeps(TheShop(), d, cause, log, cut);
    }

    method CloseRunning(cause: Cause, e: Option<Event>, ghost cut: bool) returns (ghost log: seq<Event>)
      requires active != [] && active[0].request.id in events
      requires Suits(cause, e) && (cause == Cancelled ==> Absent().Has(active[0].request))
      modifies this`active, this`n, this`slots, this`book, this`events, this`gone, this`cancelFlags, this`truncated
      ensures old(Honest(book, Absent())) ==> Honest(book, Absent())
      ensures active == old(active)[1..] && events == old(events)[old(active)[0].request.id := log]
      ensures View() == Settled(Unrunning(old(View())), old(active)[0].request, cause, log, cut)
      ensures
        var id := old(active)[0].request.id;
        log == if e.Some? && id !in gone then old(events)[id] + [e.value] else old(events)[id]
      ensures old(Absent()).Then(Absent()) && Grows(old(events), events)
    {
      hide Count, Return, Closed, Honest, Suits, Absence.Has, Absence.Then, PendingRequests;
      var r := active[0].request;
      assert ActiveRequests(active) == [r] + ActiveRequests(active[1..]);
      active := active[1..];
      log := SignOff(r, cause, e, cut);
    }

    /** The first running request's log may go on with a token. */
    ghost predicate MaySend(t: Token)
      reads `active, `events, `truncated
    {
      && rt.c.Valid() && active != [] && active[0].request.id in events
      && LogOk(rt.c, active[0].request, events[active[0].request.id] + [Piece(t)], active[0].request.id in truncated)
    }

    /** Send one token to the first running request's client. */
    method SendPiece(t: Token) returns (delivered: bool)
      requires Sound() && MaySend(t)
      modifies this`events, this`gone, this`cancelFlags
      ensures Sound() && old(Absent()).Then(Absent())
      ensures Grows(old(events), events)
      ensures var id := active[0].request.id;
        && events == old(events)[id := if delivered then old(events)[id] + [Piece(t)] else old(events)[id]]
        && (delivered <==> id !in gone)
    {
      hide DeskOk, LogOk, Honest, Absence.Then;
      ghost var d := View();
      var id := active[0].request.id;
      RunningLog(TheShop(), d);
      assert d.running[0] == active[0].request;
      SendRunningKeeps(TheShop(), d, events[id] + [Piece(t)]);
      delivered := Send(id, Piece(t));
      assert !delivered ==> View() == d;
    }

    /** The first running request goes to the back of the line. */
    method RotateHead()
      requires Sound() && active != []
      modifies this`active
      ensures Sound() && active == old(active)[1..] + [old(active)[0]]
      ensures View() == RotatedRunning(old(View()))
    {
      hide DeskOk, Held, Silent;
      ghost var d := View();
      RotateRunningKeeps(TheShop(), d);
      active := active[1..] + [active[0]];
      assert View() == RotatedRunning(d);
    }

    lemma HeadsApart()
      requires DeskOk(TheShop(), View()) && active != []
      ensures Apart1(active) && active[0].request.id in events
    {
      hide DeskOk;
      RunningApart(TheShop(), View());
      forall i | 1 <= i < |active|
        ensures active[i].request.id != active[0].request.id
      {
        assert ActiveRequests(active)[1..][i - 1] == active[i].request;
      }
    }

    /** Between tokens: drop the first running request if its client is gone or it is `late`; it is told if it
      * is there. */
    method CheckOne(late: bool) returns (ghost fate: Fate)
      requires Valid() && active != []
      modifies this`active, this`n, this`slots, this`book, this`events, this`gone, this`cancelFlags, this`truncated
      ensures Valid() && Sessions() <= old(Sessions()) && old(Absent()).Then(Absent())
      ensures old(active[0].request.id in events) && View() == Checked(old(View()), fate)
      ensures Seen(old(active[0].request), late, old(Absent()), Absent(), fate) && !fate.Risen?
      ensures fate.Dropped? ==> fate.cause != Failed
      ensures Grows(old(events), events)
    {
      hide Valid, DeskOk, Grows, Checked, Told, Warranted;
      var r := active[0].request;
      HeadKnown();
      GrowsSame(events);
      ghost var before := Absent();
      var drop, cause, tell := Look(r, late);
      if drop {
        ghost var absent := Absent();
        WarrantIs(r, late, before, absent, cause, tell);
        HeadMayEnd(cause, tell);
        fate := DropHead(cause, tell);
        DroppedSeen(r, late, before, absent, Absent(), cause, tell, fate);
      } else {
        PassHead();
        fate := Kept;
      }
    }

    lemma HeadKnown()
      requires Valid() && active != []
      ensures active[0].request.id in events
    {
      HeadCanEnd();
    }

    lemma HeadMayEnd(cause: Cause, tell: bool)
      requires Valid() && active != []
      requires cause != Completed && (cause == Cancelled ==> Absent().Has(active[0].request)) && (!tell ==> cause == Cancelled)
      ensures MayEnd(cause, if tell then Some(Error(cause)) else None, false)
    {
      hide Valid, LogOk, MayCut, Config.Valid;
      HeadCanEnd();
    }

    method PassHead()
      requires Valid() && active != [] && active[0].request.id in events
      modifies this`active
      ensures Valid() && Sessions() <= old(Sessions()) && View() == Checked(old(View()), Kept)
    {
      hide DeskOk, LogOk, PrefillOk, ActiveOk, DistinctActives, DistinctPendings, InferenceRuntime.Valid;
      MixedFrom(rt.c, events, active);
      ghost var xs, d := active, View();
      assert d.running[0] == active[0].request;
      RotateHead();
      Rotated(xs);
    }

    /** Drop the first running request with an error, or silently. */
    method DropHead(cause: Cause, tell: bool) returns (ghost fate: Fate)
      requires Valid() && active != [] && MayEnd(cause, if tell then Some(Error(cause)) else None, false)
      modifies this`active, this`n, this`slots, this`book, this`events, this`gone, this`cancelFlags, this`truncated
      ensures Valid() && Sessions() <= old(Sessions()) && old(Absent()).Then(Absent())
      ensures Told(fate, cause, tell, old(active[0].request.id), Absent())
      ensures old(active[0].request.id in events) && View() == Checked(old(View()), fate)
      ensures Grows(old(events), events)
    {
      hide DeskOk, LogOk, PrefillOk, ActiveOk, DistinctActives, DistinctPendings, Grows, Settled, InferenceRuntime.Valid;
      HeadsApart();
      MixedFrom(rt.c, events, active);
      ghost var ev, xs := events, active;
      ghost var log := EndHead(cause, if tell then Some(Error(cause)) else None, false);
      fate := Dropped(cause, tell && xs[0].request.id !in gone);
      assert log == ev[xs[0].request.id] + LastWord(fate);
      MixedTail(rt.c, ev, false, xs, 0, [], [], log);
    }

    lemma Rotated(xs: seq<Active>)
      requires xs != [] && active == xs[1..] + [xs[0]] && Mixed(rt.c, events, false, xs, 0, [], [])
      ensures Actives(events) && Sessions() <= SessionSet(xs)
    {
      hide ActiveOk;
    }

    lemma HeadCanEnd()
      requires Valid() && active != []
      ensures
        var r := active[0].request;
        && r.id in events && rt.c.Valid()
        && LogOk(rt.c, r, events[r.id], r.id in truncated)
        && forall cause :: LogOk(rt.c, r, events[r.id] + [Error(cause)], r.id in truncated)
    {
      var a := active[0];
      assert ActiveOk(rt.c, events, a);
      CanEnd(rt.c, a, events[a.request.id], a.request.id in truncated);
    }

    // -------------------------------------------------------------- one step for a lone request

    /** The first running request may be sent these tokens one by one. */
    ghost predicate MaySendAll(out: seq<Token>, log0: seq<Event>)
      reads `active, `events, `truncated
    {
      && rt.c.Valid() && active != [] && active[0].request.id in events && events[active[0].request.id] == log0
      && forall k :: 0 <= k <= |out| ==>
        LogOk(rt.c, active[0].request, Sent(log0, out[..k]), active[0].request.id in truncated)
    }

    /** Send a run of tokens to the first running request's client until it turns out to be gone. */
    method SendRun(out: seq<Token>, ghost log0: seq<Event>) returns (hungUp: bool, ghost sent: nat)
      requires Sound() && MaySendAll(out, log0)
      modifies this`events, this`gone, this`cancelFlags
      ensures Sound() && old(Absent()).Then(Absent()) && Grows(old(events), events)
      ensures sent <= |out| && (hungUp <==> sent < |out|)
      ensures events == old(events)[active[0].request.id := Sent(log0, out[..sent])]
      ensures hungUp ==> active[0].request.id in gone
    {
      hide DeskOk, LogOk, Held, Silent, Sound, Absence.Then;
      var id := active[0].request.id;
      ghost var ev := events;
      assert Sent(log0, out[..0]) == log0;
      StillHere(Absent());
      sent := 0;
      for k := 0 to |out|
        invariant Sound() && sent == k && old(Absent()).Then(Absent())
        invariant events == ev[id := Sent(log0, out[..k])]
      {
        SentMore(log0, out, k);
        ghost var absent := Absent();
        var delivered := SendPiece(out[k]);
        LaterStill(old(Absent()), absent, Absent());
        if !delivered {
          return true, k;
        }
        sent := k + 1;
      }
      return false, sent;
    }

    lemma StillHere(a: Absence)
      ensures a.Then(a)
    {
    }

    lemma LaterStill(a: Absence, b: Absence, c: Absence)
      requires a.Then(b) && b.Then(c)
      ensures a.Then(c)
    {
    }

    lemma SentMore(log: seq<Event>, out: seq<Token>, k: nat)
      requires k < |out|
      ensures Sent(log, out[..k]) + [Piece(out[k])] == Sent(log, out[..k + 1])
    {
    }

    /** What a speculative call leaves owing to a client that has been sent `log`. */
    ghost predicate Owes(a: Active, before: seq<Token>, log: seq<Event>, out: seq<Token>, stop: Option<StopReason>)
      reads a.session
    {
      && rt.c.Valid() && before != [] && a.session.promptLen <= |before|
      && Streaming(rt.c, a.request, log, before, a.session.promptLen)
      && SpeculatedWell(rt.c, a.request.spec.params, lookahead, before, a.session, out, stop)
      && (EndsBelow(a.request.spec.prompt, rt.c.net.vocab) ==> EndsBelow(before, rt.c.net.vocab))
    }

    lemma SoloOwes(
      a: Active, log: seq<Event>, before: seq<Token>, out: seq<Token>, stop: Option<StopReason>, cut0: bool)
      requires Owes(a, before, log, out, stop)
      ensures rt.c.Valid() && forall k :: 0 <= k <= |out| ==> LogOk(rt.c, a.request, Sent(log, out[..k]), cut0)
      ensures stop.None? ==> Streaming(rt.c, a.request, Sent(log, out), a.session.context, a.session.promptLen)
      ensures stop.Some? ==> LogOk(rt.c, a.request, Sent(log, out) + [Done(stop.value)], cut0 || a.session.refused)
      ensures LogOk(rt.c, a.request, Sent(log, out), cut0 || a.session.refused)
      ensures a.session.refused ==> rt.c.net.CanRefuse(lookahead)
    {
      hide Follows, IsNext, Streaming, GreedyRun, Advanced, LogOk;
      StreamPartly(rt.c, a.request, log, before, a.session.promptLen, out, |out|, cut0 || a.session.refused);
      assert out[..|out|] == out;
      forall k | 0 <= k <= |out|
        ensures LogOk(rt.c, a.request, Sent(log, out[..k]), cut0)
      {
        StreamPartly(rt.c, a.request, log, before, a.session.promptLen, out, k, cut0);
      }
      if stop.None? {
        StreamAdvances(rt.c, a.request, log, before, a.session.promptLen, out, a.session.context);
      } else {
        DoneEnds(rt.c, a.request, log, before, a.session.promptLen, out, stop.value, cut0 || a.session.refused);
      }
    }

    /** What a speculative call gives is what decoding gives. */
    lemma SoloTook(a: Active, log: seq<Event>, before: seq<Token>, out: seq<Token>, stop: Option<StopReason>)
      requires Owes(a, before, log, out, stop)
      ensures rt.c.Valid() && Took(rt.c, a.request, log, out, stop, stop.Some? && a.session.refused)
      ensures a.session.refused ==> MayCut(TheShop(), registry)
    {
      hide Follows, IsNext, GreedyRun, Advanced;
    }

    /** One sequence has nothing to share a pass with, so it guesses ahead. */
    method StepSolo() returns (ghost st: Step)
      requires Valid() && |active| == 1
      modifies this`active, this`n, this`slots, this`book, this`events, this`gone, this`cancelFlags, this`truncated, Sessions()
      ensures Valid() && Sessions() <= old(Sessions()) && Grows(old(events), events) && old(Absent()).Then(Absent())
      ensures
        var r, d := old(active[0].request), old(View());
        && st.Fits() && r.id in d.events && Fair(TheShop(), registry, Absent(), r, d.events[r.id], st) && View() == AfterStep(d, st)
    {
      hide DeskOk, LogOk, Held, Silent, PrefillOk, Streaming, SpeculatedWell, Honest, AfterStep, Fair, Grows;
      var a := active[0];
      assert ActiveOk(rt.c, events, a);
      ghost var before, log0 := a.session.context, events[a.request.id];
      var jam: bool := *;
      var out, stop := NextTokensSpeculative(rt.c, a.session, a.request.spec.params, lookahead, a.request.id, jam);
      st := SettleSolo(before, log0, out, stop);
    }

    method SettleSolo(ghost before: seq<Token>, ghost log0: seq<Event>, out: seq<Token>, stop: Option<StopReason>)
      returns (ghost st: Step)
      requires rt.Valid() && Sound() && Prefills() && |active| == 1
      requires active[0].request.id in events && events[active[0].request.id] == log0
      requires Owes(active[0], before, log0, out, stop)
      modifies this`active, this`n, this`slots, this`book, this`events, this`gone, this`cancelFlags, this`truncated
      ensures Valid() && Sessions() <= old(Sessions()) && Grows(old(events), events) && old(Absent()).Then(Absent())
      ensures st.Fits() && Fair(TheShop(), registry, Absent(), old(active[0].request), log0, st)
      ensures View() == AfterStep(old(View()), st)
    {
      hide Valid, Sound, PrefillOk, DistinctPendings, Owes, Grows, MayCut, Took, Absence.Then, ActiveOk, AfterStep, MaySendAll, MayEnd;
      var a := active[0];
      ghost var d, absent := View(), Absent();
      SoloMaySend(before, log0, out, stop);
      var hungUp;
      ghost var sent;
      hungUp, sent := SendRun(out, log0);
      assert View() == d.(events := d.events[a.request.id := events[a.request.id]]);
      if !hungUp && stop.None? {
        st := Step(out, stop, sent, false, false);
        assert out[..|out|] == out;
        SoloContinues(a, before, log0, out);
        SoloStays();
        SoloGoesOn(d, st);
        return;
      }
      ghost var ev, absent' := events, Absent();
      SoloMayEnd(a, before, log0, out, stop, hungUp, sent);
      st := LeaveSolo(d, out, stop, hungUp, sent, a.session.refused);
      GrowsOn(old(events), ev, events);
      LaterStill(absent, absent', Absent());
    }

    lemma SoloMaySend(before: seq<Token>, log: seq<Event>, out: seq<Token>, stop: Option<StopReason>)
      requires active != [] && active[0].request.id in events && events[active[0].request.id] == log
      requires Owes(active[0], before, log, out, stop)
      ensures MaySendAll(out, log) && rt.c.Valid()
      ensures Took(rt.c, active[0].request, log, out, stop, stop.Some? && active[0].session.refused)
      ensures active[0].session.refused ==> MayCut(TheShop(), registry)
    {
      SoloOwes(active[0], log, before, out, stop, active[0].request.id in truncated);
      SoloTook(active[0], log, before, out, stop);
      hide LogOk, Took, SpeculatedWell, Streaming, MayCut;
    }

    lemma SoloMayEnd(
      a: Active, before: seq<Token>, log: seq<Event>, out: seq<Token>, stop: Option<StopReason>, hungUp: bool, sent: nat)
      requires active != [] && a == active[0] && a.request.id in events && sent <= |out| && (hungUp <==> sent < |out|)
      requires events[a.request.id] == Sent(log, out[..sent]) && (hungUp ==> a.request.id in gone) && (!hungUp ==> stop.Some?)
      requires (a.session.refused ==> MayCut(TheShop(), registry)) && Owes(a, before, log, out, stop)
      ensures
        var cause, last := if hungUp then Cancelled else Completed, if hungUp then None else Some(Done(stop.value));
        MayEnd(cause, last, !hungUp && a.session.refused)
    {
      hide LogOk, MayCut, Owes, Config.Valid;
      SoloOwes(a, log, before, out, stop, a.request.id in truncated);
      assert out[..|out|] == out;
      if hungUp {
        assert LogOk(rt.c, a.request, Sent(log, out[..sent]), a.request.id in truncated);
      }
    }

    /** The lone running request has been sent `sent` of its tokens. It is done, or its client is gone. */
    method LeaveSolo(ghost d: Desk, out: seq<Token>, stop: Option<StopReason>, hungUp: bool, ghost sent: nat, ghost refused: bool)
      returns (ghost st: Step)
      requires rt.Valid() && Sound() && Prefills() && |active| == 1 && active[0].request.id in events
      requires |d.running| == 1 && d.running[0] == active[0].request && d.running[0].id in d.events
      requires View() == d.(events := d.events[active[0].request.id := events[active[0].request.id]])
      requires sent <= |out| && events[active[0].request.id] == Sent(d.events[active[0].request.id], out[..sent])
      requires (hungUp <==> sent < |out|) && (hungUp ==> active[0].request.id in gone) && (!hungUp ==> stop.Some?)
      requires
        var cause, last := if hungUp then Cancelled else Completed, if hungUp then None else Some(Done(stop.value));
        MayEnd(cause, last, !hungUp && refused)
      modifies this`active, this`n, this`slots, this`book, this`events, this`gone, this`cancelFlags, this`truncated
      ensures Valid() && Sessions() <= old(Sessions()) && Grows(old(events), events) && old(Absent()).Then(Absent())
      ensures st == Step(out, stop, sent, d.running[0].id !in gone, stop.Some? && refused) && View() == AfterStep(d, st)
      ensures hungUp ==> d.running[0].id in gone
    {
      hide Valid, Sound, PrefillOk, DistinctPendings, Grows, Settled, Absence.Then, AfterStep, MayEnd;
      var cause := if hungUp then Cancelled else Completed;
      var last := if hungUp then None else Some(Done(stop.value));
      ghost var said, id, absent := events[active[0].request.id], active[0].request.id, Absent();
      ghost var log := FinishSolo(cause, last, !hungUp && refused);
      if hungUp {
        GoneStill(id, absent, Absent());
      }
      st := Step(out, stop, sent, id !in gone, stop.Some? && refused);
      StepLeaves(d, said, st, log);
    }

    /** The account after a step of a request that goes on, or leaves. */
    lemma StepGoesOn(d: Desk, st: Step, now: Desk)
      requires d.running != [] && d.running[0].id in d.events && st.Fits() && st.Stays()
      requires now == d.(events := d.events[d.running[0].id := st.LogAfter(d.events[d.running[0].id])])
      requires View() == RotatedRunning(now)
      ensures View() == AfterStep(d, st)
    {
    }

    lemma SoloStays()
      requires rt.Valid() && Sound() && Prefills() && |active| == 1 && ActiveOk(rt.c, events, active[0])
      ensures Valid()
    {
      hide Sound, PrefillOk, ActiveOk, InferenceRuntime.Valid;
    }

    lemma SoloGoesOn(d: Desk, st: Step)
      requires |d.running| == 1 && d.running[0].id in d.events && st.Fits() && st.Stays()
      requires View() == d.(events := d.events[d.running[0].id := st.LogAfter(d.events[d.running[0].id])])
      ensures View() == AfterStep(d, st)
    {
      assert d.running[1..] + [d.running[0]] == d.running;
    }

    lemma StepLeaves(d: Desk, said: seq<Event>, st: Step, log: seq<Event>)
      requires d.running != [] && d.running[0].id in d.events && st.Fits() && !st.Stays()
      requires log == st.LogAfter(d.events[d.running[0].id])
      requires
        View() == Settled(
          Unrunning(d.(events := d.events[d.running[0].id := said])), d.running[0],
          if st.sent < |st.out| then Cancelled else Completed, log, st.sent == |st.out| && st.cut)
      ensures View() == AfterStep(d, st)
    {
      hide Count, Return, Closed, Step.LogAfter;
      var id := d.running[0].id;
      assert d.events[id := said][id := log] == d.events[id := log];
    }

    /** The lone running request leaves. */
    method FinishSolo(cause: Cause, e: Option<Event>, ghost cut: bool) returns (ghost log: seq<Event>)
      requires rt.Valid() && Sound() && Prefills() && |active| == 1 && MayEnd(cause, e, cut)
      modifies this`active, this`n, this`slots, this`book, this`events, this`gone, this`cancelFlags, this`truncated
      ensures Valid() && Sessions() <= old(Sessions()) && Grows(old(events), events) && old(Absent()).Then(Absent())
      ensures View() == Settled(Unrunning(old(View())), old(active)[0].request, cause, log, cut)
      ensures
        var id := old(active)[0].request.id;
        log == if e.Some? && id !in gone then old(events)[id] + [e.value] else old(events)[id]
    {
      hide DeskOk, MayEnd, PrefillOk, ActiveOk, DistinctPendings, Grows, Settled, InferenceRuntime.Valid, Honest, Absence.Then;
      log := EndHead(cause, e, cut);
    }

    lemma SoloContinues(a: Active, before: seq<Token>, log: seq<Event>, out: seq<Token>)
      requires Owes(a, before, log, out, None) && a.request.id in events && events[a.request.id] == Sent(log, out)
      ensures ActiveOk(rt.c, events, a)
    {
      SoloOwes(a, log, before, out, None, false);
      hide Streaming, Follows, IsNext, GreedyRun, Advanced, LogOk;
      assert AllBelow(out, rt.c.net.vocab) && a.session.context == before + out;
    }

    // -------------------------------------------------------------- one step for several requests

    /** Send the first running request what its step produced. */
    method DeliverOne(r: Result<Token, StopReason>, ghost harm: bool, ghost ctx: seq<Token>)
      returns (ghost log: seq<Event>, kept: bool, ghost st: Step)
      requires Sound() && active != [] && Owed(rt.c, events, harm, active[0], r, ctx)
      requires harm ==> MayCut(TheShop(), registry)
      modifies this`active, this`n, this`slots, this`book, this`events, this`gone, this`cancelFlags, this`truncated
      ensures Sound() && Grows(old(events), events) && old(Absent()).Then(Absent())
      ensures active == old(active)[1..] + if kept then [old(active)[0]] else []
      ensures events == old(events)[old(active)[0].request.id := log]
      ensures kept ==> ActiveOk(rt.c, events, old(active)[0])
      ensures
        var a, d := old(active)[0].request, old(View());
        && a.id in d.events && Fair(TheShop(), registry, Absent(), a, d.events[a.id], st) && View() == AfterStep(d, st)
    {
      hide DeskOk, LogOk, Held, Silent, Streaming, MayCut, Honest, Took, Absence.Then, Grows, SteppedAlone, MaySend, MayEnd, AfterStep;
      var a := active[0];
      ghost var starved := !SteppedAlone(rt.c, a.request.spec.params, ctx, a.session, r);
      BatchTook(a, ctx, r, harm, starved);
      BatchMay(a, ctx, r, harm, starved);
      match r
      case Ok(token) =>
        log, kept, st := DeliverToken(token);
      case Err(reason) =>
        log, st := DeliverStop(reason, starved);
        kept := false;
    }

    /** A token, unless its client turns out to be gone. */
    method DeliverToken(token: Token) returns (ghost log: seq<Event>, kept: bool, ghost st: Step)
      requires Sound() && MaySend(token) && MayEndAsIs()
      modifies this`active, this`n, this`slots, this`book, this`events, this`gone, this`cancelFlags, this`truncated
      ensures Sound() && Grows(old(events), events) && old(Absent()).Then(Absent())
      ensures active == old(active)[1..] + if kept then [old(active)[0]] else []
      ensures
        var id := old(active)[0].request.id;
        && events == old(events)[id := log] && log == (if kept then old(events)[id] + [Piece(token)] else old(events)[id])
        && (!kept ==> id in gone)
      ensures st.Fits() && st.out == [token] && st.stop == None && !st.cut && (st.sent == 1 <==> kept)
      ensures old(active)[0].request.id in old(events) && View() == AfterStep(old(View()), st)
    {
      hide DeskOk, LogOk, Held, Silent, MayCut, Honest, Settled, Absence.Then, Grows;
      var a := active[0];
      ghost var ev, d, absent := events, View(), Absent();
      assert d.running[0] == a.request;
      kept := SendPiece(token);
      st := Step([token], None, if kept then 1 else 0, false, false);
      OneSent(ev[a.request.id], token);
      if kept {
        log := events[a.request.id];
        ghost var now := View();
        RotateHead();
        StepGoesOn(d, st, now);
        return;
      }
      assert events == ev;
      ghost var absent' := Absent();
      log := EndHead(Cancelled, None, false);
      LaterStill(absent, absent', Absent());
      GoneStill(a.request.id, absent', Absent());
      StepLeaves(d, ev[a.request.id], st, log);
    }

    /** The end, if its client is there to be told. */
    method DeliverStop(reason: StopReason, ghost cut: bool) returns (ghost log: seq<Event>, ghost st: Step)
      requires Sound() && MayEnd(Completed, Some(Done(reason)), cut)
      modifies this`active, this`n, this`slots, this`book, this`events, this`gone, this`cancelFlags, this`truncated
      ensures Sound() && Grows(old(events), events) && old(Absent()).Then(Absent())
      ensures active == old(active)[1..] && events == old(events)[old(active)[0].request.id := log]
      ensures st == Step([], Some(reason), 0, old(active)[0].request.id !in gone, cut)
      ensures old(active)[0].request.id in old(events) && View() == AfterStep(old(View()), st)
    {
      hide DeskOk, LogOk, Held, Silent, MayCut, Honest, Settled, Absence.Then, Grows;
      var a := active[0];
      ghost var ev, d := events, View();
      assert d.running[0] == a.request;
      log := EndHead(Completed, Some(Done(reason)), cut);
      st := Step([], Some(reason), 0, a.request.id !in gone, cut);
      NoTokens(ev[a.request.id]);
      assert ev[a.request.id := ev[a.request.id]] == ev;
      StepLeaves(d, ev[a.request.id], st, log);
    }

    /** The first running request's log may end here, should its client be gone. */
    ghost predicate MayEndAsIs()
      reads `active, `events, `truncated
    {
      && rt.c.Valid() && active != [] && active[0].request.id in events
      && LogOk(rt.c, active[0].request, events[active[0].request.id], active[0].request.id in truncated)
    }

    /** What its result lets the first running request's log become. */
    lemma BatchMay(a: Active, ctx: seq<Token>, r: Result<Token, StopReason>, harm: bool, starved: bool)
      requires active != [] && a == active[0] && Owed(rt.c, events, harm, a, r, ctx) && (harm ==> MayCut(TheShop(), registry))
      requires starved == !SteppedAlone(rt.c, a.request.spec.params, ctx, a.session, r)
      ensures r.Ok? ==> MaySend(r.value) && MayEndAsIs()
      ensures r.Ok? ==> ActiveOk(rt.c, events[a.request.id := events[a.request.id] + [Piece(r.value)]], a)
      ensures r.Err? ==> MayEnd(Completed, Some(Done(r.error)), starved)
    {
      assert a.request.id in events && rt.c.Valid();
      BatchOwes(a, events[a.request.id], ctx, r, a.request.id in truncated, harm, starved);
      hide LogOk, Streaming, SteppedAlone, MayCut, ActiveOk;
    }

    lemma GoneStill(id: nat, a: Absence, b: Absence)
      requires id in a.closed && a.Then(b)
      ensures id in b.closed
    {
    }

    lemma OneSent(log: seq<Event>, t: Token)
      ensures Sent(log, [t][..1]) == log + [Piece(t)] && Sent(log, [t][..0]) == log
    {
    }

    lemma NoTokens(log: seq<Event>)
      ensures Sent(log, [][..0]) == log
    {
    }

    /** A result is what decoding gives. */
    lemma BatchTook(a: Active, ctx: seq<Token>, r: Result<Token, StopReason>, harm: bool, starved: bool)
      requires a.request.id in events && Owed(rt.c, events, harm, a, r, ctx)
      requires starved == !SteppedAlone(rt.c, a.request.spec.params, ctx, a.session, r)
      ensures r.Ok? ==> Took(rt.c, a.request, events[a.request.id], [r.value], None, false)
      ensures r.Err? ==> Took(rt.c, a.request, events[a.request.id], [], Some(r.error), starved)
    {
      hide IsNext, Follows, PlainStep;
      FollowsNone(rt.c, a.request.spec.params, a.session.promptLen, ctx);
      if r.Ok? {
        FollowsOne(rt.c, a.request.spec.params, a.session.promptLen, ctx, [], r.value);
        assert [] + [r.value] == [r.value];
      }
    }

    lemma BatchOwes(
      a: Active, log: seq<Event>, ctx: seq<Token>, r: Result<Token, StopReason>, cut: bool, harm: bool, starved: bool)
      requires a.request.id in events && events[a.request.id] == log && Owed(rt.c, events, harm, a, r, ctx)
      requires starved == !SteppedAlone(rt.c, a.request.spec.params, ctx, a.session, r)
      ensures LogOk(rt.c, a.request, log, cut)
      ensures r.Ok? ==> LogOk(rt.c, a.request, log + [Piece(r.value)], cut)
      ensures r.Ok? ==> ActiveOk(rt.c, events[a.request.id := log + [Piece(r.value)]], a)
      ensures r.Err? ==> LogOk(rt.c, a.request, log, cut || starved)
      ensures r.Err? ==> LogOk(rt.c, a.request, log + [Done(r.error)], cut || starved)
    {
      StreamingIsOk(rt.c, a.request, log, ctx, a.session.promptLen, cut);
      StreamingIsOk(rt.c, a.request, log, ctx, a.session.promptLen, cut || starved);
      hide Streaming, LogOk;
      match r
      case Ok(token) =>
        OwesToken(a, log, ctx, token, cut);
      case Err(reason) =>
        OwesStop(a, log, ctx, reason, cut || starved, harm);
    }

    lemma OwesToken(a: Active, log: seq<Event>, ctx: seq<Token>, token: Token, cut: bool)
      requires a.request.id in events && events[a.request.id] == log && Owed(rt.c, events, false, a, Ok(token), ctx)
      ensures LogOk(rt.c, a.request, log + [Piece(token)], cut)
      ensures ActiveOk(rt.c, events[a.request.id := log + [Piece(token)]], a)
    {
      FollowsNone(rt.c, a.request.spec.params, a.session.promptLen, ctx);
      FollowsOne(rt.c, a.request.spec.params, a.session.promptLen, ctx, [], token);
      assert [] + [token] == [token];
      hide PlainStep, GreedyRun, Streaming, Follows, IsNext, LogOk;
      StreamAdvances(rt.c, a.request, log, ctx, a.session.promptLen, [token], ctx + [token]);
      assert Sent(log, [token]) == log + [Piece(token)];
      StreamingIsOk(rt.c, a.request, log + [Piece(token)], ctx + [token], a.session.promptLen, cut);
    }

    lemma OwesStop(a: Active, log: seq<Event>, ctx: seq<Token>, reason: StopReason, cut: bool, harm: bool)
      requires a.request.id in events && events[a.request.id] == log && Owed(rt.c, events, harm, a, Err(reason), ctx)
      requires cut || SteppedAlone(rt.c, a.request.spec.params, ctx, a.session, Err(reason))
      ensures LogOk(rt.c, a.request, log + [Done(reason)], cut)
    {
      FollowsNone(rt.c, a.request.spec.params, a.session.promptLen, ctx);
      hide Streaming, LogOk, Follows, IsNext, PlainStep;
      DoneEnds(rt.c, a.request, log, ctx, a.session.promptLen, [], reason, cut);
      assert Sent(log, []) == log;
    }

    /** The requests that have had their step, in line, are as their steps left them. */
    ghost predicate Stepping(d: Desk, steps: seq<Step>)
      reads `channel, `heap, `admitted, `prefilling, `active, `n, `slots, `nextId, `events, `registry, `truncated, `book
      reads `gone, `cancelFlags
    {
      AllFair(TheShop(), registry, Absent(), d, steps) && View() == AfterSteps(d, steps)
    }

    /** The next request in line stands first, and has been sent nothing since. */
    lemma StandsNext(d: Desk, steps: seq<Step>)
      requires Stepping(d, steps) && |steps| < |d.running|
      ensures AllFair(TheShop(), registry, Absent(), d, steps) && View() == AfterSteps(d, steps)
      ensures active != [] && active[0].request == d.running[|steps|]
      ensures active[0].request.id in events && events[active[0].request.id] == d.events[active[0].request.id]
    {
      NextToStep(d, steps);
      assert View().running[0] == active[0].request;
    }

    lemma OneMoreStep(d: Desk, steps: seq<Step>, st: Step, before: Absence, now: Desk)
      requires AllFair(TheShop(), registry, before, d, steps) && before.Then(Absent()) && |steps| < |d.running|
      requires Fair(TheShop(), registry, Absent(), d.running[|steps|], d.events[d.running[|steps|].id], st)
      requires now == AfterSteps(d, steps) && now.running != [] && now.running[0].id in now.events && View() == AfterStep(now, st)
      ensures Stepping(d, steps + [st])
    {
      MoreFair(TheShop(), registry, before, Absent(), d, steps, st);
      hide AfterStep, Fair;
      assert (steps + [st])[..|steps|] == steps;
    }

    /** Send every running request its result, in order. */
    method DeliverAll(rs: seq<Result<Token, StopReason>>, ghost harm: bool, ghost ctxs: seq<seq<Token>>)
      returns (ghost steps: seq<Step>)
      requires Sound() && Mixed(rt.c, events, harm, active, |rs|, rs, ctxs) && |rs| == |active|
      requires harm ==> MayCut(TheShop(), registry)
      modifies this`active, this`n, this`slots, this`book, this`events, this`gone, this`cancelFlags, this`truncated
      ensures Sound() && Actives(events) && Sessions() <= old(Sessions())
      ensures Grows(old(events), events) && old(Absent()).Then(Absent())
      ensures |steps| == |rs| && Stepping(old(View()), steps)
    {
      hide DeskOk, LogOk, Held, Silent, Streaming, SteppedAlone, DistinctActives, MayCut, Stepping, Sound, Grows, Absence.Then;
      var todo := rs;
      ghost var owed := ctxs;
      steps := [];
      ghost var d := View();
      BeforeStepping();
      while todo != []
        invariant Sound() && Mixed(rt.c, events, harm, active, |todo|, todo, owed)
        invariant SessionSet(active) <= old(SessionSet(active))
        invariant Grows(old(events), events) && old(Absent()).Then(Absent())
        invariant |steps| + |todo| == |rs| == |d.running| && Stepping(d, steps)
        decreases |todo|
      {
        ghost var ev, absent := events, Absent();
        steps := DeliverNext(todo, harm, owed, d, steps);
        GrowsOn(old(events), ev, events);
        LaterStill(old(Absent()), absent, Absent());
        todo := todo[1..];
        owed := owed[1..];
      }
      AllDelivered(harm, todo, owed);
    }

    lemma AllDelivered(harm: bool, todo: seq<Result<Token, StopReason>>, owed: seq<seq<Token>>)
      requires Mixed(rt.c, events, harm, active, |todo|, todo, owed) && todo == []
      ensures Actives(events)
    {
      hide ActiveOk, Owed;
    }

    lemma BeforeStepping()
      requires Sound()
      ensures Stepping(View(), []) && Grows(events, events) && Absent().Then(Absent())
    {
      hide DeskOk, Known, DistinctIds, Honest, Grows;
      RunningLog(TheShop(), View());
      RunningDistinct(TheShop(), View());
      GrowsSame(events);
    }

    method DeliverNext(
      todo: seq<Result<Token, StopReason>>, ghost harm: bool, ghost owed: seq<seq<Token>>, ghost d: Desk, ghost steps: seq<Step>)
      returns (ghost steps': seq<Step>)
      requires Sound() && todo != [] && Mixed(rt.c, events, harm, active, |todo|, todo, owed)
      requires (harm ==> MayCut(TheShop(), registry)) && Stepping(d, steps) && |steps| < |d.running|
      modifies this`active, this`n, this`slots, this`book, this`events, this`gone, this`cancelFlags, this`truncated
      ensures Sound() && Mixed(rt.c, events, harm, active, |todo| - 1, todo[1..], owed[1..])
      ensures SessionSet(active) <= old(SessionSet(active))
      ensures Grows(old(events), events) && old(Absent()).Then(Absent())
      ensures |steps'| == |steps| + 1 && Stepping(d, steps')
    {
      hide Sound, Mixed, Owed, ActiveOk, MayCut, Fair, AfterStep, Stepping, Grows, Absence.Then, AllFair;
      ghost var ev, xs, now, absent := events, active, View(), Absent();
      MixedHead(xs, harm, todo, owed);
      NextApart();
      TailSessions(xs);
      StandsNext(d, steps);
      ghost var log, st;
      var kept;
      log, kept, st := DeliverOne(todo[0], harm, owed[0]);
      MixedTail(rt.c, ev, harm, xs, |todo|, todo, owed, log);
      if kept {
        HeadNotInTail(rt.c, ev, harm, xs, |todo|, todo, owed);
        MixedPush(rt.c, events, harm, xs[1..], |todo| - 1, todo[1..], owed[1..], xs[0]);
      } else {
        assert active == xs[1..];
      }
      steps' := steps + [st];
      OneMoreStep(d, steps, st, absent, now);
    }

    lemma NextApart()
      requires Sound() && active != []
      ensures Apart1(active) && active[0].request.id in events
    {
      HeadsApart();
    }

    lemma MixedHead(xs: seq<Active>, harm: bool, todo: seq<Result<Token, StopReason>>, owed: seq<seq<Token>>)
      requires todo != [] && Mixed(rt.c, events, harm, xs, |todo|, todo, owed)
      ensures xs != [] && |owed| == |todo| && Owed(rt.c, events, harm, xs[0], todo[0], owed[0])
    {
      hide Owed, ActiveOk;
    }

    /** A batch starves somebody only if a harmful request was accepted. */
    lemma HarmIsKnown(bars: seq<Option<StopReason>>, ctxs: seq<seq<Token>>) returns (harm: bool)
      requires DeskOk(TheShop(), View()) && |bars| == |ctxs| == |active|
      requires forall i :: 0 <= i < |active| ==> Before(rt.c, events, active[i], ctxs[i])
      ensures forall i :: Starved(rt.c, bars, ctxs, i) ==> harm
      ensures harm ==> MayCut(TheShop(), registry)
    {
      hide Before, Starved, Harmful;
      harm := exists i :: Starved(rt.c, bars, ctxs, i);
      if harm {
        var i :| Starved(rt.c, bars, ctxs, i);
        WhoStarves(rt.c, events, active, bars, ctxs, i);
        var j :| 0 <= j < |active| && Harmful(rt.c, active[j].request);
        RunningIsKnown(TheShop(), View(), j);
      }
    }

    /** Several sequences share a pass over the weights. */
    method StepMany() returns (ghost steps: seq<Step>)
      requires Valid() && active != []
      modifies this`active, this`n, this`slots, this`book, this`events, this`gone, this`cancelFlags, this`truncated, Sessions()
      ensures Valid() && Sessions() <= old(Sessions())
      ensures Grows(old(events), events) && old(Absent()).Then(Absent())
      ensures |steps| == |old(active)| && Stepping(old(View()), steps)
    {
      hide DeskOk, LogOk, PrefillOk, ActiveOk, BatchOutcome, Before, Owed, Mixed, DistinctActives, DistinctPendings, Starved, MayCut, Grows;
      hide Held, Silent, Steppable, DistinctSessions, Honest, Stepping, Absence.Then;
      var xs := SessionsOf(active);
      var ps := ParamsOf(active);
      ghost var bars, ctxs := Bars(rt.c, xs, ps), Contexts(xs);
      ReadyForBatch(rt.c, events, active);
      ghost var harm := HarmIsKnown(bars, ctxs);
      var rs := NextTokenBatch(rt.c, xs, ps);
      OwedAfterBatch(rt.c, events, active, bars, ctxs, rs, harm);
      steps := DeliverAll(rs, harm, ctxs);
    }

    // -------------------------------------------------------------- the loop

    /** Those that can start, in order. */
    function Starters(rs: seq<Request>): seq<Request> {
      if rs == [] then [] else (if CanStart(rs[0]) then [rs[0]] else []) + Starters(rs[1..])
    }

    /** What prefills, and what is still to start, come to what was there and what was to start. */
    ghost predicate Starting(ps: seq<Prefilling>, wanted: seq<Request>)
      reads `admitted, `prefilling
    {
      ps <= prefilling && PendingRequests(prefilling) + Starters(admitted) == wanted
    }

    /** Every admitted request begins to prefill, in order, or is told why it cannot. */
    method AdmitAll()
      requires Valid()
      modifies this`admitted, this`prefilling, this`n, this`slots, this`book, this`events, this`gone, this`cancelFlags, rt, rt.cache
      ensures Valid() && admitted == [] && Grows(old(events), events) && old(Absent()).Then(Absent())
      ensures old(prefilling) <= prefilling
      ensures PendingRequests(prefilling) == old(PendingRequests(prefilling)) + Starters(old(admitted))
      ensures forall p :: p in Pendings() ==> p in old(Pendings()) || fresh(p)
    {
      hide Valid, Grows, PendingRequests, Absence.Then, Starters, CanStart;
      ghost var ps, wanted := prefilling, PendingRequests(prefilling) + Starters(admitted);
      GrowsSame(events);
      StillHere(Absent());
      while admitted != []
        invariant Valid() && Grows(old(events), events) && old(Absent()).Then(Absent()) && Starting(ps, wanted)
        invariant forall p :: p in Pendings() ==> p in old(Pendings()) || fresh(p)
        decreases |admitted|
      {
        ghost var ev, absent := events, Absent();
        StartNext(ps, wanted);
        GrowsOn(old(events), ev, events);
        LaterStill(old(Absent()), absent, Absent());
      }
      AllStarted(wanted);
    }

    lemma AllStarted(wanted: seq<Request>)
      requires admitted == [] && PendingRequests(prefilling) + Starters(admitted) == wanted
      ensures PendingRequests(prefilling) == wanted
    {
      assert PendingRequests(prefilling) + [] == wanted;
    }

    method StartNext(ghost ps: seq<Prefilling>, ghost wanted: seq<Request>)
      requires Valid() && admitted != [] && Starting(ps, wanted)
      modifies this`admitted, this`prefilling, this`n, this`slots, this`book, this`events, this`gone, this`cancelFlags, rt, rt.cache
      ensures Valid() && Starting(ps, wanted) && |admitted| < |old(admitted)|
      ensures Grows(old(events), events) && old(Absent()).Then(Absent())
      ensures forall p :: p in Pendings() ==> p in old(Pendings()) || fresh(p)
    {
      hide Valid, Grows, PendingRequests, Absence.Then, CanStart, Told, Settled, StartedPrefill, LastWord;
      ghost var first := if CanStart(admitted[0]) then [admitted[0]] else [];
      Regroup(PendingRequests(prefilling), first, Starters(admitted[1..]));
      ghost var fate := AdmitOne();
    }

    lemma Regroup(a: seq<Request>, b: seq<Request>, c: seq<Request>)
      ensures a + (b + c) == (a + b) + c
    {
    }

    /** Part of the way through the turns: those of `ps` that have had theirs got `fates`, and the rest are as
      * they were. */
    ghost predicate Feeding(
      ps: seq<Prefilling>, had: seq<nat>, kept: seq<Prefilling>, fates: seq<Fate>, budget: nat, late: set<nat>,
      d0: Desk, before: Absence)
      reads `channel, `heap, `admitted, `prefilling, `active, `n, `slots, `nextId, `events, `registry, `truncated, `book
      reads `gone, `cancelFlags, PendingSet(ps)
    {
      && |fates| <= |ps| == |had| == |d0.waiting| && prefilling == ps[|fates|..] + kept
      && DistinctPendings(ps) && StillAt(ps, had, |fates|)
      && View() == TurnedAll(d0, fates) && Grows(d0.events, events) && before.Then(Absent())
      && forall j :: 0 <= j < |fates| ==>
        Deserves(rt.c, ps[j].request, had[j], budget, ps[j].request.id in late, before, Absent(), fates[j])
    }

    lemma FeedingStarts(had: seq<nat>, budget: nat, late: set<nat>)
      requires Valid() && had == Absorbed(prefilling)
      ensures Feeding(prefilling, had, [], [], budget, late, View(), Absent())
    {
      hide DeskOk, PrefillOk, Actives, InferenceRuntime.Valid;
      GrowsSame(events);
    }

    /** Feed each pending prompt a little further, promoting the ones that finish. Everyone gets one turn, in
      * order; `late` are the requests whose time is up. */
    method AdvancePrefills(budget: nat, late: set<nat>) returns (ghost fates: seq<Fate>)
      requires Valid()
      modifies this`prefilling, this`active, this`n, this`slots, this`book, this`events, this`gone, this`cancelFlags, rt.cache, Pendings()
      ensures Valid() && Grows(old(events), events) && old(Absent()).Then(Absent())
      ensures |fates| == |old(prefilling)| && View() == TurnedAll(old(View()), fates)
      ensures AllDeserve(rt.c, old(View()).waiting, old(Absorbed(prefilling)), budget, late, old(Absent()), Absent(), fates)
      ensures forall i :: 0 <= i < |fates| ==>
        var p := old(prefilling)[i];
        Deserves(rt.c, p.request, old(p.pending.consumed), budget, p.request.id in late, old(Absent()), Absent(), fates[i])
      ensures forall x :: x in Sessions() ==> x in old(Sessions()) || fresh(x)
      ensures Pendings() <= old(Pendings())
    {
      hide Valid, Grows, Deserves, Absence.Then;
      fates := [];
      ghost var ps, d, before, had, kept := prefilling, View(), Absent(), Absorbed(prefilling), [];
      FeedingStarts(had, budget, late);
      var waiting := |prefilling|;
      for i := 0 to waiting
        invariant Valid() && |fates| == i && Feeding(ps, had, kept, fates, budget, late, d, before)
        invariant Pendings() <= old(Pendings())
        invariant forall x :: x in Sessions() ==> x in old(Sessions()) || fresh(x)
      {
        kept, fates := AdvanceNext(budget, late, ps, had, kept, fates, d, before);
      }
      AllFed(ps, had, budget, late, before, fates);
    }

    lemma AllFed(ps: seq<Prefilling>, had: seq<nat>, budget: nat, late: set<nat>, before: Absence, fates: seq<Fate>)
      requires |fates| <= |ps| == |had|
      requires forall j :: 0 <= j < |fates| ==>
        Deserves(rt.c, ps[j].request, had[j], budget, ps[j].request.id in late, before, Absent(), fates[j])
      ensures AllDeserve(rt.c, PendingRequests(ps), had, budget, late, before, Absent(), fates)
    {
      hide Deserves;
    }

    method AdvanceNext(
      budget: nat, late: set<nat>, ghost ps: seq<Prefilling>, ghost had: seq<nat>, ghost kept: seq<Prefilling>,
      ghost fates: seq<Fate>, ghost d: Desk, ghost before: Absence)
      returns (ghost kept': seq<Prefilling>, ghost fates': seq<Fate>)
      requires Valid() && Feeding(ps, had, kept, fates, budget, late, d, before) && |fates| < |ps|
      modifies this`prefilling, this`active, this`n, this`slots, this`book, this`events, this`gone, this`cancelFlags
      modifies rt.cache, prefilling[0].pending
      ensures Valid() && Feeding(ps, had, kept', fates', budget, late, d, before) && |fates'| == |fates| + 1
      ensures Pendings() <= old(Pendings())
      ensures forall x :: x in Sessions() ==> x in old(Sessions()) || fresh(x)
    {
      hide Valid, Grows, Deserves, Absence.Then, Turned;
      ghost var i, ev, absent := |fates|, events, Absent();
      assert prefilling[0] == ps[i] && prefilling[0].pending.consumed == had[i];
      ghost var fate := AdvanceOne(budget, prefilling[0].request.id in late);
      GrowsOn(d.events, ev, events);
      AllStillDeserve(ps, had, budget, late, before, absent, Absent(), fates);
      fates' := fates + [fate];
      kept' := if fate == Kept then kept + [ps[i]] else kept;
      assert fates'[..i] == fates;
      HeadThenRest(ps, i, kept, if fate == Kept then [ps[i]] else []);
      assert kept' == kept + if fate == Kept then [ps[i]] else [];
      DeservesFrom(rt.c, ps[i].request, had[i], budget, ps[i].request.id in late, before, absent, Absent(), fate);
    }

    lemma AllStillDeserve(
      ps: seq<Prefilling>, had: seq<nat>, budget: nat, late: set<nat>, before: Absence, after: Absence, later: Absence, fates: seq<Fate>)
      requires |fates| <= |ps| == |had| && before.Then(after) && after.Then(later)
      requires forall j :: 0 <= j < |fates| ==>
        Deserves(rt.c, ps[j].request, had[j], budget, ps[j].request.id in late, before, after, fates[j])
      ensures before.Then(later)
      ensures forall j :: 0 <= j < |fates| ==>
        Deserves(rt.c, ps[j].request, had[j], budget, ps[j].request.id in late, before, later, fates[j])
    {
      hide Deserves;
      forall j | 0 <= j < |fates|
        ensures Deserves(rt.c, ps[j].request, had[j], budget, ps[j].request.id in late, before, later, fates[j])
      {
        DeservesStill(rt.c, ps[j].request, had[j], budget, ps[j].request.id in late, before, after, later, fates[j]);
      }
    }

    /** Between tokens, every running request is looked at, in order. */
    method CheckAll(late: set<nat>) returns (ghost looks: seq<Fate>)
      requires Valid()
      modifies this`active, this`n, this`slots, this`book, this`events, this`gone, this`cancelFlags, this`truncated
      ensures Valid() && Sessions() <= old(Sessions()) && Grows(old(events), events)
      ensures |looks| == |old(active)| && Looking(old(View()), looks, late, old(Absent()))
    {
      hide Valid, Grows, Looking, Absence.Then;
      looks := [];
      ghost var d, before := View(), Absent();
      assert |d.running| == |active|;
      StartLooking(late);
      var left := |active|;
      while left > 0 && active != []
        invariant Valid() && Sessions() <= old(Sessions()) && Grows(old(events), events)
        invariant left >= 0 && |looks| + left == |d.running| && Looking(d, looks, late, before)
        decreases left
      {
        ghost var ev := events;
        looks := CheckNext(d, looks, late, before);
        GrowsOn(old(events), ev, events);
        left := left - 1;
      }
      LookedAtAll(d, looks, late, before);
    }

    /** The first running requests of `d`, in line, have been looked at. */
    ghost predicate Looking(d: Desk, looks: seq<Fate>, late: set<nat>, before: Absence)
      reads `channel, `heap, `admitted, `prefilling, `active, `n, `slots, `nextId, `events, `registry, `truncated, `book
      reads `gone, `cancelFlags
    {
      && |looks| <= |d.running| && Known(d) && View() == CheckedAll(d, looks) && before.Then(Absent())
      && AllLooked(d, looks, late, before, Absent())
    }

    lemma StartLooking(late: set<nat>)
      requires Valid()
      ensures Looking(View(), [], late, Absent()) && Grows(events, events)
    {
      hide DeskOk, Known, Honest, Grows, Actives, InferenceRuntime.Valid, Prefills;
      RunningLog(TheShop(), View());
      GrowsSame(events);
    }

    lemma LookedAtAll(d: Desk, looks: seq<Fate>, late: set<nat>, before: Absence)
      requires Looking(d, looks, late, before)
      ensures active == [] ==> |looks| == |d.running|
    {
      assert |View().running| == |active|;
    }

    method CheckNext(ghost d: Desk, ghost looks: seq<Fate>, late: set<nat>, ghost before: Absence) returns (ghost looks': seq<Fate>)
      requires Valid() && active != [] && Looking(d, looks, late, before) && |looks| < |d.running|
      modifies this`active, this`n, this`slots, this`book, this`events, this`gone, this`cancelFlags, this`truncated
      ensures Valid() && Sessions() <= old(Sessions()) && Grows(old(events), events)
      ensures |looks'| == |looks| + 1 && Looking(d, looks', late, before)
    {
      hide Valid, Grows, Checked, Seen, AllLooked, Absence.Then;
      ghost var now, absent := View(), Absent();
      ChecksLine(d, looks);
      assert d.running[|looks|..][0] == d.running[|looks|] == now.running[0] == active[0].request;
      ghost var fate := CheckOne(active[0].request.id in late);
      looks' := looks + [fate];
      assert looks'[..|looks|] == looks;
      MoreLooked(d, looks, late, before, absent, Absent(), fate);
    }

    /** Advance every active sequence, retiring those that are done: each is looked at, and those that stay have
      * a step each. */
    method StepBatch() returns (ghost late: set<nat>, ghost looks: seq<Fate>, ghost steps: seq<Step>)
      requires Valid()
      modifies this`active, this`n, this`slots, this`book, this`events, this`gone, this`cancelFlags, this`truncated, Sessions()
      ensures Valid() && Grows(old(events), events) && Sessions() <= old(Sessions()) && old(Absent()).Then(Absent())
      ensures BatchStepped(old(View()), old(Absent()), late, looks, steps)
    {
      hide Valid, Grows, AllLooked, Fair, Absence.Then, AfterStep, AfterSteps;
      var out: set<nat> := *;
      late := out;
      looks := CheckAll(out);
      ghost var ev, mid, absent := events, View(), Absent();
      StillHere(absent);
      if active == [] {
        steps := [];
        NobodySteps(mid);
        return;
      }
      if |active| == 1 && lookahead > 0 {
        ghost var st := StepSolo();
        assert View() == AfterStep(mid, st);
        steps := [st];
        LoneStep(mid, st);
      } else {
        steps := StepMany();
      }
      GrowsOn(old(events), ev, events);
      LaterStill(old(Absent()), absent, Absent());
      StillHere(old(Absent()));
      LookedLater(old(View()), looks, late, old(Absent()), old(Absent()), absent, Absent());
    }

    /** What `StepBatch` makes of an account: `looks` at every running request, then `steps` for those left. */
    ghost predicate BatchStepped(d: Desk, before: Absence, late: set<nat>, looks: seq<Fate>, steps: seq<Step>)
      reads `channel, `heap, `admitted, `prefilling, `active, `n, `slots, `nextId, `events, `registry, `truncated, `book
      reads `gone, `cancelFlags
    {
      && |looks| == |d.running| && Known(d) && AllLooked(d, looks, late, before, Absent())
      && var mid := CheckedAll(d, looks);
      && |steps| == |mid.running| && AllFair(TheShop(), registry, Absent(), mid, steps) && View() == AfterSteps(mid, steps)
    }

    lemma NobodySteps(mid: Desk)
      requires active == [] && mid == View()
      ensures AllFair(TheShop(), registry, Absent(), mid, []) && View() == AfterSteps(mid, [])
    {
    }

    lemma LoneStep(mid: Desk, st: Step)
      requires |mid.running| == 1 && mid.running[0].id in mid.events && st.Fits() && View() == AfterStep(mid, st)
      requires Fair(TheShop(), registry, Absent(), mid.running[0], mid.events[mid.running[0].id], st)
      ensures AllFair(TheShop(), registry, Absent(), mid, [st]) && View() == AfterSteps(mid, [st])
    {
      hide Fair, AfterStep, AfterSteps, Step.Fits;
      assert Known(mid);
      OneAfter(mid, st);
    }

    /** Take in what has been submitted and fill the free places: `taken` are the best of those queued, and those of
      * them that can start join the ones that prefill. */
    method Intake() returns (ghost taken: seq<Request>)
      requires Valid() && admitted == []
      modifies this`channel, this`heap, this`admitted, this`prefilling, this`n, this`slots, this`book, this`events,
               this`gone, this`cancelFlags, rt, rt.cache
      ensures Valid() && admitted == [] && Grows(old(events), events) && old(Absent()).Then(Absent())
      ensures TakenIn(old(View()), old(Absent()), taken, View()) && old(prefilling) <= prefilling
      ensures forall p :: p in Pendings() ==> p in old(Pendings()) || fresh(p)
    {
      hide Valid, Grows, InOrder, Absence.Then, Starters;
      ghost var d := View();
      FillPlaces();
      ghost var absent := Absent();
      taken := admitted;
      AdmitAll();
      LaterStill(old(Absent()), absent, Absent());
    }

    /** The submission queue goes into the heap, and the best of the heap fill the free places. */
    method FillPlaces()
      requires Valid() && admitted == []
      modifies this`channel, this`heap, this`admitted, this`n, this`slots, this`book, this`gone, this`cancelFlags
      ensures Valid() && channel == [] && old(Absent()).Then(Absent())
      ensures InOrder(admitted, heap) && heap + multiset(admitted) <= old(heap) + multiset(old(channel))
      ensures heap == multiset{} || |active| + |prefilling| + |admitted| == maxActive
      ensures NoneHas(heap, old(Absent()))
    {
      hide Valid, AllHave, NoneHas, InOrder, Absence.Then, Held;
      Drain();
      ghost var purged := PurgeHeap();
      ghost var absent, queued := Absent(), heap;
      Admit();
      FewerHave(heap, queued, old(Absent()));
      LaterStill(old(Absent()), absent, Absent());
    }

    /** The queue is empty, as many of the best queued requests as there were places for have been taken, and no
      * request waits whose client had left before. */
    ghost predicate TakenIn(d: Desk, before: Absence, taken: seq<Request>, d': Desk) {
      && d'.channel == [] && d'.running == d.running && d'.waiting == d.waiting + Starters(taken)
      && InOrder(taken, d'.heap) && d'.heap + multiset(taken) <= d.heap + multiset(d.channel)
      && (d'.heap == multiset{} || |d.running| + |d.waiting| + |taken| == maxActive) && NoneHas(d'.heap, before)
    }

    /** One iteration of the loop, with any prefill budget: what was submitted is taken in, every prefilling
      * request is fed, and every running one is looked at and has its step. */
    method Iterate(budget: nat)
      returns (ghost taken: seq<Request>, ghost mid: Desk, ghost had: seq<nat>, ghost late: set<nat>, ghost fates: seq<Fate>,
               ghost late': set<nat>, ghost looks: seq<Fate>, ghost steps: seq<Step>)
      requires Valid() && admitted == []
      modifies this`channel, this`heap, this`admitted, this`prefilling, this`active, this`n, this`slots, this`book, this`events,
               this`gone, this`cancelFlags, this`truncated, rt, rt.cache, Pendings(), Sessions()
      ensures Valid() && admitted == [] && Grows(old(events), events) && old(Absent()).Then(Absent())
      ensures forall p :: p in Pendings() ==> p in old(Pendings()) || fresh(p)
      ensures forall x :: x in Sessions() ==> x in old(Sessions()) || fresh(x)
      ensures forall id :: Heard(id)
      ensures IsTurn(old(View()), old(Absent()), old(Absorbed(prefilling)), budget, taken, mid, had, late, fates, late', looks, steps)
    {
      hide Valid, Grows, Absence.Then, TakenIn, AllAdvanced, Absorbed;
      taken := Intake();
      mid, had := View(), Absorbed(prefilling);
      ghost var ev, absent := events, Absent();
      late, fates, late', looks, steps := Advance(budget);
      GrowsOn(old(events), ev, events);
      AllHear();
      TurnFrom(old(View()), old(Absent()), absent, old(Absorbed(prefilling)), budget, taken, mid, had, late, fates, late', looks, steps);
      LaterStill(old(Absent()), absent, Absent());
    }

    /** Every prefilling request is fed, and every running one is looked at and has its step. */
    method Advance(budget: nat)
      returns (ghost late: set<nat>, ghost fates: seq<Fate>, ghost late': set<nat>, ghost looks: seq<Fate>, ghost steps: seq<Step>)
      requires Valid()
      modifies this`prefilling, this`active, this`n, this`slots, this`book, this`events, this`gone, this`cancelFlags,
               this`truncated, rt.cache, Pendings(), Sessions()
      ensures Valid() && Grows(old(events), events) && old(Absent()).Then(Absent())
      ensures Pendings() <= old(Pendings()) && forall x :: x in Sessions() ==> x in old(Sessions()) || fresh(x)
      ensures AllAdvanced(old(View()), old(Absent()), old(Absorbed(prefilling)), budget, late, fates, late', looks, steps)
    {
      hide Valid, Grows, Deserves, TurnedAll, Absence.Then, AllDeserve, BatchStepped, Absorbed;
      var now: set<nat> := *;
      late := now;
      fates := AdvancePrefills(budget, now);
      ghost var ev, absent := events, Absent();
      late', looks, steps := StepBatch();
      GrowsOn(old(events), ev, events);
      StillHere(old(Absent()));
      BatchFrom(TurnedAll(old(View()), fates), old(Absent()), absent, late', looks, steps);
      DeserveLater(
        rt.c, old(View()).waiting, old(Absorbed(prefilling)), budget, late, old(Absent()), old(Absent()), absent, Absent(), fates);
      LaterStill(old(Absent()), absent, Absent());
    }

    /** Every prefilling request had its turn, and then the running ones were looked at and stepped. */
    ghost predicate AllAdvanced(
      d: Desk, before: Absence, had: seq<nat>, budget: nat, late: set<nat>, fates: seq<Fate>, late': set<nat>, looks: seq<Fate>,
      steps: seq<Step>)
      reads `channel, `heap, `admitted, `prefilling, `active, `n, `slots, `nextId, `events, `registry, `truncated, `book
      reads `gone, `cancelFlags
    {
      && |had| == |fates| == |d.waiting| && AllDeserve(rt.c, d.waiting, had, budget, late, before, Absent(), fates)
      && BatchStepped(TurnedAll(d, fates), before, late', looks, steps)
    }

    lemma TurnFrom(
      d: Desk, first: Absence, before: Absence, absorbed: seq<nat>, budget: nat, taken: seq<Request>, mid: Desk, had: seq<nat>,
      late: set<nat>, fates: seq<Fate>, late': set<nat>, looks: seq<Fate>, steps: seq<Step>)
      requires TakenIn(d, first, taken, mid) && absorbed <= had && first.Then(before)
      requires AllAdvanced(mid, before, had, budget, late, fates, late', looks, steps)
      ensures IsTurn(d, first, absorbed, budget, taken, mid, had, late, fates, late', looks, steps)
    {
      hide TakenIn, AllDeserve, BatchStepped, TurnedAll, Absence.Then;
      StillHere(Absent());
      BatchFrom(TurnedAll(mid, fates), first, before, late', looks, steps);
      DeserveLater(rt.c, mid.waiting, had, budget, late, first, before, Absent(), Absent(), fates);
    }

    /** What one turn of the loop makes of an account: `mid` is what taking in leaves, and `had` what of their
      * prompts its prefilling requests had absorbed by then. */
    ghost predicate IsTurn(
      d: Desk, before: Absence, absorbed: seq<nat>, budget: nat, taken: seq<Request>, mid: Desk, had: seq<nat>, late: set<nat>,
      fates: seq<Fate>, late': set<nat>, looks: seq<Fate>, steps: seq<Step>)
      reads `channel, `heap, `admitted, `prefilling, `active, `n, `slots, `nextId, `events, `registry, `truncated, `book
      reads `gone, `cancelFlags
    {
      && TakenIn(d, before, taken, mid) && absorbed <= had && AllAdvanced(mid, before, had, budget, late, fates, late', looks, steps)
    }

    lemma BatchFrom(d: Desk, first: Absence, before: Absence, late: set<nat>, looks: seq<Fate>, steps: seq<Step>)
      requires BatchStepped(d, before, late, looks, steps) && first.Then(before)
      ensures BatchStepped(d, first, late, looks, steps)
    {
      hide AllFair, AfterSteps, CheckedAll, AllLooked, Known;
      StillHere(Absent());
      LookedLater(d, looks, late, first, before, Absent(), Absent());
    }

    /** Any run: requests arrive and the loop turns in any order, with any prefill budget each time,
      * while clients cancel and hang up whenever they like. */
    method Serve(visits: seq<Visit>)
      requires Valid() && admitted == []
      modifies this, rt, rt.cache, Pendings(), Sessions()
      ensures Valid() && admitted == [] && Grows(old(events), events) && forall id :: Heard(id)
    {
      for i := 0 to |visits|
        invariant Valid() && admitted == [] && Grows(old(events), events)
        invariant forall p :: p in Pendings() ==> p in old(Pendings()) || fresh(p)
        invariant forall x :: x in Sessions() ==> x in old(Sessions()) || fresh(x)
      {
        hide Valid, Grows;
        ghost var ev := events;
        Visited(visits[i]);
        GrowsOn(old(events), ev, events);
      }
      AllHear();
    }

    method Visited(v: Visit)
      requires Valid() && admitted == []
      modifies this, rt, rt.cache, Pendings(), Sessions()
      ensures Valid() && admitted == [] && Grows(old(events), events)
      ensures forall p :: p in Pendings() ==> p in old(Pendings()) || fresh(p)
      ensures forall x :: x in Sessions() ==> x in old(Sessions()) || fresh(x)
    {
      hide Valid, Grows;
      match v
      case Arrival(spec) =>
        var _ := Submit(spec);
      case Turn(budget) =>
        ghost var taken, mid, had, late, fates, late', looks, steps := Iterate(budget);
    }

    /** What a client that is still there has heard of its request once it is over, and what it has heard before:
      * the whole reply and its reason if it was completed, the error if it failed or ran out of time, and of one
      * that goes on tokens alone. Only a request whose client cancelled or left counts as cancelled. */
    ghost predicate Heard(id: nat)
      requires rt.c.Valid()
      reads `registry, `events, `book, `truncated, `gone, `cancelFlags
    {
      id in registry ==>
        && id in events
        && if id !in book.ends then OnlyTokens(events[id])
           else match book.ends[id]
             case Completed => id in gone || FullyAnswered(rt.c, registry[id], events[id], id in truncated)
             case Cancelled => id in gone || id in cancelFlags
             case TimedOut => id in gone || EndsFor(events[id], TimedOut)
             case Failed => id in gone || EndsFor(events[id], Failed)
    }

    lemma AllHear()
      requires Valid()
      ensures rt.c.Valid() && forall id :: Heard(id)
    {
      hide FullyAnswered, LogOk, Tallied, Accounted, Prefills, Actives, Balanced, Permitted, Identified, MayCut, AllQuiet;
      assert rt.c.Valid();
      forall id ensures Heard(id) {
        if id in registry {
          assert Concluded(book, id, events[id]) && LogOk(rt.c, registry[id], events[id], id in truncated);
          if id in book.ends && book.ends[id] == Completed && EndsFor(events[id], Completed) {
            DoneAnswers(rt.c, registry[id], events[id], id in truncated);
          }
        }
      }
    }

    /** What `Valid` amounts to, at any point of any run: every accepted request is held or has ended, and not both;
      * each counter counts the requests that ended for its cause; no user holds more than the limit; no more than
      * `maxActive` requests are past the heap; and every client has been sent what `LogOk` says. */
    lemma Promises(u: User, id: nat)
      requires Valid()
      ensures n.submitted == n.completed + n.cancelled + n.timedOut + n.failed + |Held(View())|
      ensures Tallied(n, book.ends)
      ensures id in registry ==> (id in book.ends <==> registry[id] !in Held(View()))
      ensures Mine(Held(View()), u) <= limit && Available(slots, limit, u) == limit - Mine(Held(View()), u)
      ensures |active| + |prefilling| + |admitted| <= maxActive
      ensures id in registry ==> id in events && LogOk(rt.c, registry[id], events[id], id in truncated)
      ensures truncated != {} ==> MayCut(TheShop(), registry)
    {
      assert Even(slots, limit, Held(View()), u);
    }
  }
}
