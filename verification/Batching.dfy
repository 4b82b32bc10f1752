/** Batched decoding: one pass over the weights for several sessions, a fallback for when it
  * fails, and the exact condition under which the whole thing is only an optimisation. */
module Batching {
  import opened Basics
  import opened Backend
  import opened Runtime

  // ---------------------------------------------------------------- batched decoding

  ghost predicate DistinctSessions(xs: seq<Session>) {
    forall i, j :: 0 <= i < j < |xs| ==> xs[i] != xs[j]
  }

  /** Every context, in order. */
  function Contexts(xs: seq<Session>): (r: seq<seq<Token>>)
    reads xs
    ensures |r| == |xs| && forall i :: 0 <= i < |xs| ==> r[i] == xs[i].context
  {
    if xs == [] then [] else [xs[0].context] + Contexts(xs[1..])
  }

  /** Finished already, or with its cache where a step expects it. */
  ghost predicate Steppable(c: Config, x: Session)
    reads x
  {
    0 < x.promptLen <= |x.context| && (x.finished || x.Ready(c))
  }

  /** Why each session must not reach the backend, if it must not. */
  function Bars(c: Config, xs: seq<Session>, ps: seq<Params>): (r: seq<Option<StopReason>>)
    requires |ps| == |xs|
    reads xs
    ensures |r| == |xs| && forall i :: 0 <= i < |xs| ==> r[i] == xs[i].Barred(c, ps[i])
  {
    if xs == [] then [] else [xs[0].Barred(c, ps[0])] + Bars(c, xs[1..], ps[1..])
  }

  predicate IsLive(bars: seq<Option<StopReason>>, i: int) {
    0 <= i < |bars| && bars[i].None?
  }

  /** The live sessions at or after `i`, in order. */
  function LiveFrom(bars: seq<Option<StopReason>>, i: nat): (live: seq<nat>)
    requires i <= |bars|
    ensures forall k :: 0 <= k < |live| ==> i <= live[k] < |bars|
    decreases |bars| - i
  {
    if i == |bars| then [] else
      var rest := LiveFrom(bars, i + 1);
      if bars[i].None? then [i] + rest else rest
  }

  lemma {:induction false} LiveFacts(bars: seq<Option<StopReason>>, i: nat)
    requires i <= |bars|
    ensures forall k :: 0 <= k < |LiveFrom(bars, i)| ==> IsLive(bars, LiveFrom(bars, i)[k])
    ensures forall k, m :: 0 <= k < m < |LiveFrom(bars, i)| ==> LiveFrom(bars, i)[k] < LiveFrom(bars, i)[m]
    ensures forall j :: i <= j && IsLive(bars, j) ==> j in LiveFrom(bars, i)
    decreases |bars| - i
  {
    if i < |bars| {
      LiveFacts(bars, i + 1);
    }
  }

  /** How many live sessions come before `i`: its place in the batch. */
  function Slot(bars: seq<Option<StopReason>>, i: nat): nat
    requires i <= |bars|
  {
    if i == 0 then 0 else Slot(bars, i - 1) + if bars[i - 1].None? then 1 else 0
  }

  lemma {:induction false} SlotOf(bars: seq<Option<StopReason>>, i: nat)
    requires i <= |bars|
    ensures Slot(bars, i) <= |LiveFrom(bars, 0)| && LiveFrom(bars, i) == LiveFrom(bars, 0)[Slot(bars, i)..]
    ensures IsLive(bars, i) ==> Slot(bars, i) < |LiveFrom(bars, 0)| && LiveFrom(bars, 0)[Slot(bars, i)] == i
  {
    if i > 0 {
      SlotOf(bars, i - 1);
      if bars[i - 1].None? {
        assert LiveFrom(bars, i) == LiveFrom(bars, i - 1)[1..];
      }
    }
    if i < |bars| && bars[i].None? {
      assert LiveFrom(bars, i)[0] == i;
    }
  }

  /** The forward pass of live session `i` fails: its last token is not in the vocabulary. */
  predicate Rejected(c: Config, bars: seq<Option<StopReason>>, ctxs: seq<seq<Token>>, i: int)
    requires |bars| == |ctxs|
  {
    IsLive(bars, i) && ctxs[i] != [] && ctxs[i][|ctxs[i]| - 1] >= c.net.vocab
  }

  /** With the default `logits_batch`, a live session ahead of every rejected one is stepped
    * twice: once by the batch that fails, and again, too late, by the fallback. */
  ghost predicate Starved(c: Config, bars: seq<Option<StopReason>>, ctxs: seq<seq<Token>>, i: int)
    requires |bars| == |ctxs|
  {
    && !c.net.fused && IsLive(bars, i)
    && (forall j :: 0 <= j <= i ==> !Rejected(c, bars, ctxs, j))
    && (exists j :: i < j && Rejected(c, bars, ctxs, j))
  }

  predicate Sized(x: Session, ctx: seq<Token>) { ctx != [] && x.promptLen <= |ctx| }

  /** What a batched step must have done to session `i`, whose bar and context were `bars[i]`
    * and `ctxs[i]`. */
  ghost predicate BatchOutcome(
    c: Config, p: Params, bars: seq<Option<StopReason>>, ctxs: seq<seq<Token>>, finishedAlready: bool,
    i: nat, x: Session, r: Result<Token, StopReason>)
    requires c.Valid() && |bars| == |ctxs| && i < |ctxs| && Sized(x, ctxs[i])
    reads x
  {
    if finishedAlready then r == Err(Length) && x.finished
    else if Starved(c, bars, ctxs, i) then r == Err(ContextFull) && x.finished && !x.refused
    else SteppedAlone(c, p, ctxs[i], x, r)
  }

  /** Decide who is still running, and retire the rest, before any work. */
  method Retire(c: Config, xs: seq<Session>, ps: seq<Params>) returns (bars: seq<Option<StopReason>>)
    requires |ps| == |xs| && DistinctSessions(xs)
    modifies xs`finished
    ensures bars == old(Bars(c, xs, ps))
    ensures forall i :: 0 <= i < |xs| ==> xs[i].finished == bars[i].Some?
  {
    ghost var want := Bars(c, xs, ps);
    bars := [];
    for i := 0 to |xs|
      invariant |bars| == i && bars == want[..i]
      invariant forall k :: 0 <= k < i ==> xs[k].finished == bars[k].Some?
      invariant forall k :: i <= k < |xs| ==> xs[k].finished == old(xs[k].finished)
    {
      var bar := xs[i].Barred(c, ps[i]);
      bars := bars + [bar];
      if bar.Some? {
        xs[i].finished := true;
      }
    }
  }

  /** Hand each live session the cache state the backend left it in. */
  method Absorb(xs: seq<Session>, live: seq<nat>, ss: seq<SeqState>)
    requires DistinctSessions(xs) && |live| == |ss|
    requires forall k :: 0 <= k < |live| ==> live[k] < |xs|
    requires forall k, m :: 0 <= k < m < |live| ==> live[k] < live[m]
    modifies xs`s
    ensures forall k :: 0 <= k < |live| ==> xs[live[k]].s == ss[k]
  {
    for k := 0 to |live|
      invariant forall m :: 0 <= m < k ==> xs[live[m]].s == ss[m]
    {
      xs[live[k]].s := ss[k];
    }
  }

  /** The batch failed: step each live session alone, so that the error lands where it belongs. */
  method StepAlone(
    c: Config, xs: seq<Session>, ps: seq<Params>, bars: seq<Option<StopReason>>,
    ghost ctxs: seq<seq<Token>>, ghost was: seq<bool>)
    returns (rs: seq<Result<Token, StopReason>>)
    requires c.Valid() && |ps| == |xs| == |bars| == |ctxs| == |was| && DistinctSessions(xs)
    requires forall i :: 0 <= i < |xs| ==> Parked(c, ps[i], bars, ctxs, was[i], i, xs[i], Starved(c, bars, ctxs, i))
    modifies xs
    ensures |rs| == |xs|
    ensures forall i :: 0 <= i < |xs| ==> Sized(xs[i], ctxs[i]) && BatchOutcome(c, ps[i], bars, ctxs, was[i], i, xs[i], rs[i])
  {
    rs := [];
    for i := 0 to |xs|
      invariant |rs| == i
      invariant forall k :: i <= k < |xs| ==> Parked(c, ps[k], bars, ctxs, was[k], k, xs[k], Starved(c, bars, ctxs, k))
      invariant forall k :: 0 <= k < i ==> Sized(xs[k], ctxs[k]) && BatchOutcome(c, ps[k], bars, ctxs, was[k], k, xs[k], rs[k])
    {
      hide Starved, SteppedAlone, PlainStep;
      assert Parked(c, ps[i], bars, ctxs, was[i], i, xs[i], Starved(c, bars, ctxs, i));
      if bars[i].Some? {
        rs := rs + [Err(bars[i].value)];
        BarredStep(c, ps[i], bars, ctxs, was[i], i, xs[i]);
      } else {
        var r := NextToken(c, xs[i], ps[i]);
        rs := rs + [r];
      }
    }
  }

  /** A session between `Retire` and its own step: barred, or ready, or already starved. */
  ghost predicate Parked(
    c: Config, p: Params, bars: seq<Option<StopReason>>, ctxs: seq<seq<Token>>, finishedAlready: bool,
    i: nat, x: Session, starved: bool)
    requires c.Valid() && i < |bars| == |ctxs|
    reads x
  {
    && x.context == ctxs[i] && 0 < x.promptLen <= |ctxs[i]|
    && (bars[i].Some? ==> BarredBy(c, p, bars[i].value, finishedAlready, x))
    && (bars[i].None? ==> !finishedAlready && x.Barred(c, p).None? && !x.refused && if starved then x.Stuck(c, p) else x.Ready(c))
  }

  ghost predicate BarredBy(c: Config, p: Params, reason: StopReason, finishedAlready: bool, x: Session)
    requires 0 < x.promptLen <= |x.context|
    reads x`context, x`finished, x`refused
  {
    && x.finished
    && (finishedAlready ==> reason == Length)
    && (!finishedAlready ==> !x.refused)
    && (!finishedAlready && x.Generated() >= p.maxTokens ==> reason == Length)
    && (!finishedAlready && x.Generated() < p.maxTokens ==> |x.context| >= c.maxContext && reason == ContextFull)
  }

  lemma BarredStep(
    c: Config, p: Params, bars: seq<Option<StopReason>>, ctxs: seq<seq<Token>>, finishedAlready: bool, i: nat, x: Session)
    requires c.Valid() && i < |bars| == |ctxs| && bars[i].Some?
    requires Parked(c, p, bars, ctxs, finishedAlready, i, x, Starved(c, bars, ctxs, i))
    ensures BatchOutcome(c, p, bars, ctxs, finishedAlready, i, x, Err(bars[i].value))
  {
  }

  /** A session whose pass succeeded and whose answer has not been read yet. */
  ghost predicate Answered(c: Config, p: Params, ctx: seq<Token>, x: Session, logits: Logits)
    requires c.Valid()
    reads x
  {
    && x.context == ctx && 0 < x.promptLen <= |ctx| && Runnable(c, p, x)
    && x.s.tokens == ctx && AllBelow(ctx, c.net.vocab) && logits == c.net.logits(ctx)
    && (!c.net.spills ==> !x.s.HasSpill())
    && (x.draftSeq.Some? ==> Trails(x.draftSeq.value, ctx))
    && x.specGain >= 0.0 && !x.refused
  }

  ghost predicate Runnable(c: Config, p: Params, x: Session)
    requires 0 < x.promptLen <= |x.context|
    reads x
  {
    x.Barred(c, p).None?
  }

  method ReadAnswer(c: Config, x: Session, p: Params, logits: Logits) returns (r: Result<Token, StopReason>)
    requires c.Valid() && Answered(c, p, x.context, x, logits)
    modifies x
    ensures SteppedAlone(c, p, old(x.context), x, r)
  {
    var token := Sample(logits, p);
    x.context := x.context + [token];
    if c.EndsTurn(token) {
      x.finished := true;
      return Err(Eos);
    }
    return Ok(token);
  }

  /** The batch succeeded: read each live session's answer. */
  method ReadAnswers(
    c: Config, xs: seq<Session>, ps: seq<Params>, bars: seq<Option<StopReason>>, answers: seq<Logits>,
    ghost ctxs: seq<seq<Token>>, ghost was: seq<bool>)
    returns (rs: seq<Result<Token, StopReason>>)
    requires c.Valid() && |ps| == |xs| == |bars| == |ctxs| == |was| && DistinctSessions(xs)
    requires forall i :: 0 <= i < |xs| ==> Idle(c, ps[i], bars, ctxs, was[i], i, xs[i])
    requires forall i :: 0 <= i < |xs| && bars[i].None? ==>
      Slot(bars, i) < |answers| && Answered(c, ps[i], ctxs[i], xs[i], answers[Slot(bars, i)])
    requires forall j :: !Rejected(c, bars, ctxs, j)
    modifies xs
    ensures |rs| == |xs|
    ensures forall i :: 0 <= i < |xs| ==> Sized(xs[i], ctxs[i]) && BatchOutcome(c, ps[i], bars, ctxs, was[i], i, xs[i], rs[i])
  {
    rs := [];
    var next := 0;
    for i := 0 to |xs|
      invariant |rs| == i && next == Slot(bars, i)
      invariant forall k :: i <= k < |xs| ==> Idle(c, ps[k], bars, ctxs, was[k], k, xs[k])
      invariant forall k :: i <= k < |xs| && bars[k].None? ==> Answered(c, ps[k], ctxs[k], xs[k], answers[Slot(bars, k)])
      invariant forall k :: 0 <= k < i ==> Sized(xs[k], ctxs[k]) && BatchOutcome(c, ps[k], bars, ctxs, was[k], k, xs[k], rs[k])
    {
      hide SteppedAlone, Answered, Idle, Rejected, BatchOutcome, Config.Valid;
      if bars[i].Some? {
        BarredOutcome(c, ps[i], bars, ctxs, was[i], i, xs[i]);
        rs := rs + [Err(bars[i].value)];
      } else {
        IdleLive(c, ps[i], bars, ctxs, was[i], i, xs[i]);
        AnsweredHere(c, ps[i], ctxs[i], xs[i], answers[next]);
        var r := ReadAnswer(c, xs[i], ps[i], answers[next]);
        LiveOutcome(c, ps[i], bars, ctxs, i, xs[i], r);
        rs := rs + [r];
        next := next + 1;
      }
    }
  }

  /** The contexts and cache states of the live sessions, as the backend takes them. */
  method Gather(xs: seq<Session>, live: seq<nat>) returns (contexts: seq<seq<Token>>, ss: seq<SeqState>)
    requires forall k :: 0 <= k < |live| ==> live[k] < |xs|
    ensures |contexts| == |ss| == |live|
    ensures forall k :: 0 <= k < |live| ==> contexts[k] == xs[live[k]].context && ss[k] == xs[live[k]].s
  {
    contexts, ss := [], [];
    for k := 0 to |live|
      invariant |contexts| == |ss| == k
      invariant forall m :: 0 <= m < k ==> contexts[m] == xs[live[m]].context && ss[m] == xs[live[m]].s
    {
      contexts := contexts + [xs[live[k]].context];
      ss := ss + [xs[live[k]].s];
    }
  }

  /** The gathered inputs of a batch, tied to the sessions they came from. */
  ghost predicate Gathered(
    c: Config, bars: seq<Option<StopReason>>, ctxs: seq<seq<Token>>, contexts: seq<seq<Token>>, ss: seq<SeqState>)
    requires c.Valid() && |bars| == |ctxs|
  {
    var live := LiveFrom(bars, 0);
    && |contexts| == |ss| == |live|
    && forall k :: 0 <= k < |live| ==>
        && contexts[k] == ctxs[live[k]] && contexts[k] != [] && |contexts[k]| <= c.net.capacity
        && ss[k].tokens == contexts[k][..|contexts[k]| - 1]
  }

  lemma FailIsReject(
    c: Config, bars: seq<Option<StopReason>>, ctxs: seq<seq<Token>>, contexts: seq<seq<Token>>, ss: seq<SeqState>, k: nat)
    requires c.Valid() && |bars| == |ctxs| && Gathered(c, bars, ctxs, contexts, ss) && k < |ss|
    ensures ForwardOk(c.net, contexts[k], ss[k], 1) <==> !Rejected(c, bars, ctxs, LiveFrom(bars, 0)[k])
    ensures |contexts[k]| == |ss[k].tokens| + 1
  {
    var ctx := contexts[k];
    LiveFacts(bars, 0);
    assert AllBelow(ctx[|ctx| - 1..], c.net.vocab) <==> ctx[|ctx| - 1] < c.net.vocab;
  }

  /** Nobody is rejected before the first failure. */
  lemma RejectedLate(
    c: Config, bars: seq<Option<StopReason>>, ctxs: seq<seq<Token>>, contexts: seq<seq<Token>>, ss: seq<SeqState>, j: nat)
    requires c.Valid() && |bars| == |ctxs| && Gathered(c, bars, ctxs, contexts, ss) && Rejected(c, bars, ctxs, j)
    ensures
      var f, live := FirstFail(c.net, contexts, ss, 0), LiveFrom(bars, 0);
      f < |ss| == |live| && live[f] <= j
  {
    var live := LiveFrom(bars, 0);
    LiveFacts(bars, 0);
    var m :| 0 <= m < |live| && live[m] == j;
    FailIsReject(c, bars, ctxs, contexts, ss, m);
  }

  /** Which live sessions the default batch starves: exactly those ahead of the first failure. */
  lemma StarvedAhead(
    c: Config, bars: seq<Option<StopReason>>, ctxs: seq<seq<Token>>, contexts: seq<seq<Token>>, ss: seq<SeqState>, k: nat)
    requires c.Valid() && |bars| == |ctxs| && Gathered(c, bars, ctxs, contexts, ss) && k < |ss|
    ensures
      var f := FirstFail(c.net, contexts, ss, 0);
      Starved(c, bars, ctxs, LiveFrom(bars, 0)[k]) <==> !c.net.fused && k < f < |ss|
  {
    var live := LiveFrom(bars, 0);
    LiveFacts(bars, 0);
    var f := FirstFail(c.net, contexts, ss, 0);
    forall j: nat | Rejected(c, bars, ctxs, j)
      ensures f < |ss| && live[f] <= j
    {
      RejectedLate(c, bars, ctxs, contexts, ss, j);
    }
    if f < |ss| {
      FailIsReject(c, bars, ctxs, contexts, ss, f);
    }
    hide Rejected, LiveFrom, FirstFail, Gathered, Config.Valid;
  }

  lemma NobodyRejected(
    c: Config, bars: seq<Option<StopReason>>, ctxs: seq<seq<Token>>, contexts: seq<seq<Token>>, ss: seq<SeqState>)
    requires c.Valid() && |bars| == |ctxs| && Gathered(c, bars, ctxs, contexts, ss)
    requires FirstFail(c.net, contexts, ss, 0) == |ss|
    ensures forall j :: !Rejected(c, bars, ctxs, j)
  {
    var live := LiveFrom(bars, 0);
    LiveFacts(bars, 0);
    forall j
      ensures !Rejected(c, bars, ctxs, j)
    {
      if IsLive(bars, j) {
        var m :| 0 <= m < |live| && live[m] == j;
        FailIsReject(c, bars, ctxs, contexts, ss, m);
      }
    }
  }

  /** A session after `Retire`, apart from its cache: barred, or free to run. */
  ghost predicate Idle(
    c: Config, p: Params, bars: seq<Option<StopReason>>, ctxs: seq<seq<Token>>, finishedAlready: bool, i: nat, x: Session)
    requires c.Valid() && i < |bars| == |ctxs|
    reads x`context, x`finished, x`refused, x`draftSeq, x`specGain
  {
    && x.context == ctxs[i] && 0 < x.promptLen <= |ctxs[i]|
    && (bars[i].Some? ==> BarredBy(c, p, bars[i].value, finishedAlready, x))
    && (bars[i].None? ==> !finishedAlready && x.Barred(c, p).None? && x.Sound(c))
  }

  /** After a failed batch every session is where the fallback expects it. */
  lemma ParkedAfter(
    c: Config, p: Params, bars: seq<Option<StopReason>>, ctxs: seq<seq<Token>>, finishedAlready: bool, x: Session,
    contexts: seq<seq<Token>>, ss: seq<SeqState>, ss': seq<SeqState>, k: nat)
    requires c.Valid() && |bars| == |ctxs| && Gathered(c, bars, ctxs, contexts, ss)
    requires k < |ss| == |ss'| && x.s == ss'[k]
    requires Idle(c, p, bars, ctxs, finishedAlready, LiveFrom(bars, 0)[k], x)
    requires CacheBehind(c, contexts[k], ss[k])
    requires FirstFail(c.net, contexts, ss, 0) < |ss| && FailedBatch(c.net, contexts, ss, ss')
    ensures
      var i := LiveFrom(bars, 0)[k];
      Parked(c, p, bars, ctxs, finishedAlready, i, x, Starved(c, bars, ctxs, i))
  {
    hide Starved, Rejected, ForwardOk;
    var f := FirstFail(c.net, contexts, ss, 0);
    StarvedAhead(c, bars, ctxs, contexts, ss, k);
    FailIsReject(c, bars, ctxs, contexts, ss, k);
    FailIsReject(c, bars, ctxs, contexts, ss, f);
    if ChecksFirst(c.net, contexts, ss) {
    } else if k < f {
      assert Backend.Stepped(c.net, contexts[k], ss[k], ss'[k]);
      assert ss'[k].tokens == contexts[k];
      assert !c.net.fused by {
        forall i | 0 <= i < |ss| ensures |contexts[i]| == |ss[i].tokens| + 1 {
          FailIsReject(c, bars, ctxs, contexts, ss, i);
        }
      }
    }
  }

  lemma AnsweredAfter(
    c: Config, p: Params, bars: seq<Option<StopReason>>, ctxs: seq<seq<Token>>, finishedAlready: bool, x: Session,
    contexts: seq<seq<Token>>, ss: seq<SeqState>, ss': seq<SeqState>, logits: Logits, k: nat)
    requires c.Valid() && |bars| == |ctxs| && Gathered(c, bars, ctxs, contexts, ss)
    requires k < |ss| == |ss'| && x.s == ss'[k]
    requires Idle(c, p, bars, ctxs, finishedAlready, LiveFrom(bars, 0)[k], x)
    requires CacheBehind(c, contexts[k], ss[k])
    requires ForwardOk(c.net, contexts[k], ss[k], 1)
    requires Backend.Stepped(c.net, contexts[k], ss[k], ss'[k]) && logits == c.net.logits(ss'[k].tokens)
    ensures Answered(c, p, ctxs[LiveFrom(bars, 0)[k]], x, logits)
  {
    LiveFacts(bars, 0);
    var ctx := contexts[k];
    assert ss'[k].tokens == ctx;
    assert ctx == ss[k].tokens + ctx[|ss[k].tokens|..];
  }

  /** A barred session's result is decided before the batch, and nothing after touches it. */
  lemma BarredOutcome(
    c: Config, p: Params, bars: seq<Option<StopReason>>, ctxs: seq<seq<Token>>, finishedAlready: bool, i: nat, x: Session)
    requires c.Valid() && i < |bars| == |ctxs| && bars[i].Some?
    requires Idle(c, p, bars, ctxs, finishedAlready, i, x)
    ensures Sized(x, ctxs[i]) && BatchOutcome(c, p, bars, ctxs, finishedAlready, i, x, Err(bars[i].value))
  {
  }

  lemma LiveOutcome(
    c: Config, p: Params, bars: seq<Option<StopReason>>, ctxs: seq<seq<Token>>, i: nat, x: Session,
    r: Result<Token, StopReason>)
    requires c.Valid() && i < |bars| == |ctxs| && Sized(x, ctxs[i]) && SteppedAlone(c, p, ctxs[i], x, r)
    requires forall j :: !Rejected(c, bars, ctxs, j)
    ensures BatchOutcome(c, p, bars, ctxs, false, i, x, r)
  {
    hide SteppedAlone;
  }

  lemma AnsweredHere(c: Config, p: Params, ctx: seq<Token>, x: Session, logits: Logits)
    requires c.Valid() && Answered(c, p, ctx, x, logits)
    ensures x.context == ctx && Sized(x, ctx)
  {
  }

  lemma IdleLive(
    c: Config, p: Params, bars: seq<Option<StopReason>>, ctxs: seq<seq<Token>>, finishedAlready: bool, i: nat, x: Session)
    requires c.Valid() && i < |bars| == |ctxs| && bars[i].None?
    requires Idle(c, p, bars, ctxs, finishedAlready, i, x)
    ensures !finishedAlready && x.context == ctxs[i]
  {
  }

  lemma ParkedBarred(
    c: Config, p: Params, bars: seq<Option<StopReason>>, ctxs: seq<seq<Token>>, finishedAlready: bool, i: nat, x: Session,
    starved: bool)
    requires c.Valid() && i < |bars| == |ctxs| && bars[i].Some?
    requires Idle(c, p, bars, ctxs, finishedAlready, i, x)
    ensures Parked(c, p, bars, ctxs, finishedAlready, i, x, starved)
  {
  }

  lemma GatheredHere(
    c: Config, xs: seq<Session>, bars: seq<Option<StopReason>>, ctxs: seq<seq<Token>>, contexts: seq<seq<Token>>, ss: seq<SeqState>)
    requires c.Valid() && |xs| == |bars| == |ctxs| && |contexts| == |ss| == |LiveFrom(bars, 0)|
    requires forall k :: 0 <= k < |ss| ==>
      var i := LiveFrom(bars, 0)[k]; contexts[k] == ctxs[i] && ss[k] == xs[i].s && contexts[k] == xs[i].context
    requires forall i :: 0 <= i < |xs| && bars[i].None? ==> CacheBehind(c, xs[i].context, xs[i].s) && |ctxs[i]| <= c.net.capacity
    ensures Gathered(c, bars, ctxs, contexts, ss)
    ensures forall k :: 0 <= k < |ss| ==> CacheBehind(c, contexts[k], ss[k])
  {
    LiveFacts(bars, 0);
  }

  /** Where a batch leaves the sessions: what it was given, and what it made of it. */
  ghost predicate Batched(
    c: Config, xs: seq<Session>, ps: seq<Params>, bars: seq<Option<StopReason>>, ctxs: seq<seq<Token>>, was: seq<bool>,
    contexts: seq<seq<Token>>, ss: seq<SeqState>, ss': seq<SeqState>)
    requires c.Valid()
    reads xs
  {
    && |ps| == |xs| == |bars| == |ctxs| == |was|
    && (forall i :: 0 <= i < |xs| ==> Idle(c, ps[i], bars, ctxs, was[i], i, xs[i]))
    && Gathered(c, bars, ctxs, contexts, ss) && |ss'| == |ss|
    && (forall k :: 0 <= k < |ss| ==> CacheBehind(c, contexts[k], ss[k]) && xs[LiveFrom(bars, 0)[k]].s == ss'[k])
  }

  method Fallback(
    c: Config, xs: seq<Session>, ps: seq<Params>, bars: seq<Option<StopReason>>, ghost ctxs: seq<seq<Token>>, ghost was: seq<bool>,
    ghost contexts: seq<seq<Token>>, ghost ss: seq<SeqState>, ghost ss': seq<SeqState>)
    returns (rs: seq<Result<Token, StopReason>>)
    requires c.Valid() && DistinctSessions(xs) && Batched(c, xs, ps, bars, ctxs, was, contexts, ss, ss')
    requires FirstFail(c.net, contexts, ss, 0) < |ss| && FailedBatch(c.net, contexts, ss, ss')
    modifies xs
    ensures |rs| == |xs|
    ensures forall i :: 0 <= i < |xs| ==> Sized(xs[i], ctxs[i]) && BatchOutcome(c, ps[i], bars, ctxs, was[i], i, xs[i], rs[i])
  {
    hide BatchOutcome, Starved, Parked, Idle, CacheBehind, FailedBatch, Config.Valid, DistinctSessions;
    forall i | 0 <= i < |xs|
      ensures Parked(c, ps[i], bars, ctxs, was[i], i, xs[i], Starved(c, bars, ctxs, i))
    {
      if bars[i].Some? {
        ParkedBarred(c, ps[i], bars, ctxs, was[i], i, xs[i], Starved(c, bars, ctxs, i));
      } else {
        var k := Slot(bars, i);
        SlotOf(bars, i);
        ParkedAfter(c, ps[i], bars, ctxs, was[i], xs[i], contexts, ss, ss', k);
      }
    }
    rs := StepAlone(c, xs, ps, bars, ctxs, was);
  }

  method ReadAll(
    c: Config, xs: seq<Session>, ps: seq<Params>, bars: seq<Option<StopReason>>, ghost ctxs: seq<seq<Token>>, ghost was: seq<bool>,
    ghost contexts: seq<seq<Token>>, ghost ss: seq<SeqState>, ghost ss': seq<SeqState>, answers: seq<Logits>)
    returns (rs: seq<Result<Token, StopReason>>)
    requires c.Valid() && DistinctSessions(xs) && Batched(c, xs, ps, bars, ctxs, was, contexts, ss, ss')
    requires FirstFail(c.net, contexts, ss, 0) == |ss| == |answers|
    requires forall k :: 0 <= k < |ss| ==>
      Backend.Stepped(c.net, contexts[k], ss[k], ss'[k]) && answers[k] == c.net.logits(ss'[k].tokens)
    modifies xs
    ensures |rs| == |xs|
    ensures forall i :: 0 <= i < |xs| ==> Sized(xs[i], ctxs[i]) && BatchOutcome(c, ps[i], bars, ctxs, was[i], i, xs[i], rs[i])
  {
    hide BatchOutcome, Rejected, Answered, Idle, CacheBehind, ForwardOk, Backend.Stepped, Config.Valid, DistinctSessions;
    forall i | 0 <= i < |xs| && bars[i].None?
      ensures Slot(bars, i) < |answers| && Answered(c, ps[i], ctxs[i], xs[i], answers[Slot(bars, i)])
    {
      var k := Slot(bars, i);
      SlotOf(bars, i);
      AnsweredAfter(c, ps[i], bars, ctxs, was[i], xs[i], contexts, ss, ss', answers[k], k);
    }
    NobodyRejected(c, bars, ctxs, contexts, ss);
    rs := ReadAnswers(c, xs, ps, bars, answers, ctxs, was);
  }

  method Collect(
    c: Config, xs: seq<Session>, ghost ps: seq<Params>, bars: seq<Option<StopReason>>,
    ghost ctxs: seq<seq<Token>>, ghost was: seq<bool>)
    returns (contexts: seq<seq<Token>>, ss: seq<SeqState>)
    requires c.Valid() && |ps| == |xs| == |bars| == |ctxs| == |was|
    requires forall i :: 0 <= i < |xs| ==> Idle(c, ps[i], bars, ctxs, was[i], i, xs[i])
    requires forall i :: 0 <= i < |xs| && bars[i].None? ==>
      CacheBehind(c, xs[i].context, xs[i].s) && |ctxs[i]| <= c.net.capacity
    ensures |contexts| == |ss| && Gathered(c, bars, ctxs, contexts, ss)
    ensures forall k :: 0 <= k < |ss| ==> CacheBehind(c, contexts[k], ss[k])
  {
    hide Idle, CacheBehind, Gathered, Config.Valid;
    var live := LiveFrom(bars, 0);
    LiveFacts(bars, 0);
    contexts, ss := Gather(xs, live);
    forall k | 0 <= k < |live| ensures contexts[k] == ctxs[live[k]] {
      IdleLive(c, ps[live[k]], bars, ctxs, was[live[k]], live[k], xs[live[k]]);
    }
    GatheredHere(c, xs, bars, ctxs, contexts, ss);
  }

  method Deliver(
    c: Config, xs: seq<Session>, ghost ps: seq<Params>, bars: seq<Option<StopReason>>, ghost ctxs: seq<seq<Token>>,
    ghost was: seq<bool>, ghost contexts: seq<seq<Token>>, ghost ss: seq<SeqState>, ss': seq<SeqState>)
    requires c.Valid() && |ps| == |xs| == |bars| == |ctxs| == |was| && DistinctSessions(xs)
    requires forall i :: 0 <= i < |xs| ==> Idle(c, ps[i], bars, ctxs, was[i], i, xs[i])
    requires Gathered(c, bars, ctxs, contexts, ss) && |ss'| == |ss|
    requires forall k :: 0 <= k < |ss| ==> CacheBehind(c, contexts[k], ss[k])
    modifies xs`s
    ensures Batched(c, xs, ps, bars, ctxs, was, contexts, ss, ss')
  {
    hide Idle, CacheBehind, Config.Valid, DistinctSessions;
    LiveFacts(bars, 0);
    Absorb(xs, LiveFrom(bars, 0), ss');
  }

  method StepLive(
    c: Config, xs: seq<Session>, ps: seq<Params>, bars: seq<Option<StopReason>>,
    ghost ctxs: seq<seq<Token>>, ghost was: seq<bool>)
    returns (rs: seq<Result<Token, StopReason>>)
    requires c.Valid() && |ps| == |xs| == |bars| == |ctxs| == |was| && DistinctSessions(xs)
    requires forall i :: 0 <= i < |xs| ==> Idle(c, ps[i], bars, ctxs, was[i], i, xs[i])
    requires forall i :: 0 <= i < |xs| && bars[i].None? ==>
      CacheBehind(c, xs[i].context, xs[i].s) && |ctxs[i]| <= c.net.capacity
    modifies xs
    ensures |rs| == |xs|
    ensures forall i :: 0 <= i < |xs| ==> Sized(xs[i], ctxs[i]) && BatchOutcome(c, ps[i], bars, ctxs, was[i], i, xs[i], rs[i])
  {
    hide BatchOutcome, Idle, CacheBehind, Gathered, Backend.Stepped, Config.Valid, DistinctSessions, FailedBatch, Batched;
    var contexts, ss := Collect(c, xs, ps, bars, ctxs, was);
    var answers, ss' := LogitsBatch(c.net, contexts, ss);
    Deliver(c, xs, ps, bars, ctxs, was, contexts, ss, ss');
    if answers.Err? {
      rs := Fallback(c, xs, ps, bars, ctxs, was, contexts, ss, ss');
    } else {
      rs := ReadAll(c, xs, ps, bars, ctxs, was, contexts, ss, ss', answers.value);
    }
  }

  /** One decode step for several sessions at once: each gets exactly what stepping it alone
    * would have given it, except the ones the default `logits_batch` starves. */
  method NextTokenBatch(c: Config, xs: seq<Session>, ps: seq<Params>) returns (rs: seq<Result<Token, StopReason>>)
    requires c.Valid() && |ps| == |xs| && DistinctSessions(xs)
    requires forall i :: 0 <= i < |xs| ==> Steppable(c, xs[i])
    modifies xs
    ensures |rs| == |xs|
    ensures forall i :: 0 <= i < |xs| ==>
      && Sized(xs[i], old(Contexts(xs))[i])
      && BatchOutcome(c, ps[i], old(Bars(c, xs, ps)), old(Contexts(xs)), old(xs[i].finished), i, xs[i], rs[i])
  {
    hide BatchOutcome, Starved;
    ghost var ctxs, was := Contexts(xs), Finished(xs);
    var bars := Retire(c, xs, ps);
    rs := StepLive(c, xs, ps, bars, ctxs, was);
  }

  ghost function Finished(xs: seq<Session>): (r: seq<bool>)
    reads xs
    ensures |r| == |xs| && forall i :: 0 <= i < |xs| ==> r[i] == xs[i].finished
  {
    if xs == [] then [] else [xs[0].finished] + Finished(xs[1..])
  }

  // ---------------------------------------------------------------- when batching changes an answer

  /** The outcome a batched greedy step gives live session `i`, as a value. */
  ghost function BatchStep(
    c: Config, p: Params, promptLen: nat, bars: seq<Option<StopReason>>, ctxs: seq<seq<Token>>, i: nat): Outcome
    requires c.Valid() && i < |bars| == |ctxs| && ctxs[i] != [] && promptLen <= |ctxs[i]|
  {
    if Starved(c, bars, ctxs, i) then Stop(ContextFull) else PlainStep(c, p, promptLen, ctxs[i])
  }

  predicate FirstLive(bars: seq<Option<StopReason>>, i: int) {
    IsLive(bars, i) && forall j :: 0 <= j < i ==> !IsLive(bars, j)
  }

  /** Nothing a failing forward pass could drag down: the batch is checked before it runs, or
    * no live session would fail, or the very first one would. */
  ghost predicate FailsFirstOrNever(c: Config, bars: seq<Option<StopReason>>, ctxs: seq<seq<Token>>)
    requires |bars| == |ctxs|
  {
    c.net.fused || forall i, j :: FirstLive(bars, i) && Rejected(c, bars, ctxs, j) ==> Rejected(c, bars, ctxs, i)
  }

  lemma {:induction false} FirstLiveExists(bars: seq<Option<StopReason>>, j: nat) returns (i: nat)
    requires IsLive(bars, j)
    ensures FirstLive(bars, i) && i <= j
  {
    if k: nat :| k < j && IsLive(bars, k) {
      i := FirstLiveExists(bars, k);
    } else {
      i := j;
    }
  }

  /** A batched step gives every live session its own plain step if and only if
    * `FailsFirstOrNever` holds: otherwise the first live session, whose pass succeeds, is
    * reported as out of context. */
  lemma BatchMatchesPlainIff(
    c: Config, ps: seq<Params>, lens: seq<nat>, bars: seq<Option<StopReason>>, ctxs: seq<seq<Token>>)
    requires c.Valid() && |ps| == |lens| == |bars| == |ctxs|
    requires forall i :: 0 <= i < |ctxs| ==> ctxs[i] != [] && lens[i] <= |ctxs[i]|
    requires forall i :: IsLive(bars, i) ==> |ctxs[i]| - lens[i] < ps[i].maxTokens && |ctxs[i]| < c.maxContext
    ensures
      (forall i :: IsLive(bars, i) ==> BatchStep(c, ps[i], lens[i], bars, ctxs, i) == PlainStep(c, ps[i], lens[i], ctxs[i]))
      <==> FailsFirstOrNever(c, bars, ctxs)
  {
    if FailsFirstOrNever(c, bars, ctxs) {
      forall i | IsLive(bars, i)
        ensures !Starved(c, bars, ctxs, i)
      {
        var f := FirstLiveExists(bars, i);
      }
    } else {
      var i, j :| FirstLive(bars, i) && Rejected(c, bars, ctxs, j) && !Rejected(c, bars, ctxs, i);
      assert Starved(c, bars, ctxs, i);
      assert PlainStep(c, ps[i], lens[i], ctxs[i]) != Stop(ContextFull);
    }
  }

  /** The default `logits_batch` does change an answer: two one-token prompts, the second outside
    * the vocabulary. Alone the first emits token 0; batched, it is told its context is full. */
  lemma DefaultBatchStarves()
    ensures
      var net := Net(_ => [1.0], 1, 8, false, false, false, None);
      var c := Config(net, None, 9, None, 8);
      var p := Params(true, 4, true);
      var bars: seq<Option<StopReason>> := [None, None];
      && c.Valid()
      && PlainStep(c, p, 1, [0]) == Emit(0)
      && BatchStep(c, p, 1, bars, [[0], [5]], 0) == Stop(ContextFull)
  {
    var net := Net(_ => [1.0], 1, 8, false, false, false, None);
    var c := Config(net, None, 9, None, 8);
    var bars: seq<Option<StopReason>> := [None, None];
    var ctxs: seq<seq<Token>> := [[0], [5]];
    assert Rejected(c, bars, ctxs, 1);
    assert Starved(c, bars, ctxs, 0);
  }
}
