/** The decode loop: plain decoding, speculative decoding, batched decoding and chunked
  * prefill. `GreedyRun` says what plain decoding alone produces; every other path is proved
  * to produce the same tokens and the same stop reason for a temperature-0 request.
  *
  * Requests with a positive temperature run through the same methods, with each draw modelled
  * as an arbitrary choice; how those draws are distributed is the business of `Sampling`. */
module Runtime {
  import opened Basics
  import opened Backend
  import opened PromptCaches

  datatype StopReason = Eos | Length | ContextFull

  /** `greedy` is temperature 0; `acceptable` is the outcome of the checks on the float fields. */
  datatype Params = Params(greedy: bool, maxTokens: nat, acceptable: bool) {
    predicate Valid() { acceptable && maxTokens > 0 }
  }

  datatype Config = Config(net: Net, drafter: Option<Net>, eos: Token, turnEnd: Option<Token>, maxContext: nat) {
    /** The caches are as large as the context window, and the draft model shares the vocabulary. */
    ghost predicate Valid() {
      && net.Valid() && net.capacity == Max(maxContext, 1)
      && (drafter.Some? ==> drafter.value.Valid() && drafter.value.vocab == net.vocab)
    }

    predicate EndsTurn(t: Token) { t == eos || Some(t) == turnEnd }
  }

  // ---------------------------------------------------------------- the reference

  datatype Outcome = Emit(token: Token) | Stop(reason: StopReason)

  /** What one plain step does from a context: nothing but the context, the budget and the
    * network decide it. */
  ghost function PlainStep(c: Config, p: Params, promptLen: nat, ctx: seq<Token>): Outcome
    requires c.Valid() && promptLen <= |ctx| && ctx != []
  {
    if |ctx| - promptLen >= p.maxTokens then Stop(Length)
    else if |ctx| >= c.maxContext then Stop(ContextFull)
    else if ctx[|ctx| - 1] >= c.net.vocab then Stop(ContextFull)
    else
      var t := Argmax(c.net.logits(ctx));
      if c.EndsTurn(t) then Stop(Eos) else Emit(t)
  }

  datatype Run = Run(tokens: seq<Token>, reason: StopReason)

  /** Everything plain greedy decoding emits from `ctx` on, and why it stops. */
  ghost function GreedyRun(c: Config, p: Params, promptLen: nat, ctx: seq<Token>): Run
    requires c.Valid() && promptLen <= |ctx| && ctx != []
    decreases p.maxTokens - (|ctx| - promptLen)
  {
    match PlainStep(c, p, promptLen, ctx)
    case Stop(reason) => Run([], reason)
    case Emit(t) =>
      var rest := GreedyRun(c, p, promptLen, ctx + [t]);
      Run([t] + rest.tokens, rest.reason)
  }

  /** What a step from `ctx` may come to, said of the logits: the budget is looked at first, then whether
    * another pass is possible, then whether the token picked is one of the two that end a reply. A greedy
    * request picks the first largest logit. */
  ghost predicate IsNext(c: Config, p: Params, promptLen: nat, ctx: seq<Token>, r: Result<Token, StopReason>)
    requires c.Valid() && promptLen <= |ctx| && ctx != []
  {
    var logits := c.net.logits(ctx);
    var spent, full := |ctx| >= promptLen + p.maxTokens, |ctx| >= c.maxContext || ctx[|ctx| - 1] >= c.net.vocab;
    match r
    case Ok(t) => !spent && !full && Picked(p, logits, t) && t != c.eos && Some(t) != c.turnEnd
    case Err(Length) => spent
    case Err(ContextFull) => !spent && full
    case Err(Eos) => !spent && !full && (Picked(p, logits, c.eos) || (c.turnEnd.Some? && Picked(p, logits, c.turnEnd.value)))
  }

  ghost predicate Picked(p: Params, logits: Logits, t: Token) {
    && t < |logits|
    && (p.greedy ==> forall i :: 0 <= i < |logits| ==> logits[i] <= logits[t] && (i < t ==> logits[i] < logits[t]))
  }

  /** Each token is a next one after those before it. */
  ghost predicate Follows(c: Config, p: Params, promptLen: nat, ctx: seq<Token>, tokens: seq<Token>)
    requires c.Valid() && promptLen <= |ctx| && ctx != []
  {
    forall i: nat :: i < |tokens| ==> IsNext(c, p, promptLen, ctx + tokens[..i], Ok(tokens[i]))
  }

  /** A whole reply: tokens one after another, and then decoding stops for the reason given. */
  ghost predicate IsReply(c: Config, p: Params, promptLen: nat, ctx: seq<Token>, tokens: seq<Token>, reason: StopReason)
    requires c.Valid() && promptLen <= |ctx| && ctx != []
  {
    Follows(c, p, promptLen, ctx, tokens) && IsNext(c, p, promptLen, ctx + tokens, Err(reason))
  }

  lemma FollowsNone(c: Config, p: Params, promptLen: nat, ctx: seq<Token>)
    requires c.Valid() && promptLen <= |ctx| && ctx != []
    ensures Follows(c, p, promptLen, ctx, []) && ctx + [] == ctx
  {
  }

  lemma FollowsOne(c: Config, p: Params, promptLen: nat, ctx: seq<Token>, out: seq<Token>, t: Token)
    requires c.Valid() && promptLen <= |ctx| && ctx != []
    requires Follows(c, p, promptLen, ctx, out) && IsNext(c, p, promptLen, ctx + out, Ok(t))
    ensures Follows(c, p, promptLen, ctx, out + [t])
  {
    hide IsNext;
    forall i: nat | i < |out + [t]| ensures IsNext(c, p, promptLen, ctx + (out + [t])[..i], Ok((out + [t])[i])) {
      assert (out + [t])[..i] == out[..i];
      assert out[..|out|] == out;
    }
  }

  lemma FollowsOn(c: Config, p: Params, promptLen: nat, ctx: seq<Token>, a: seq<Token>, b: seq<Token>)
    requires c.Valid() && promptLen <= |ctx| && ctx != []
    requires Follows(c, p, promptLen, ctx, a) && Follows(c, p, promptLen, ctx + a, b)
    ensures Follows(c, p, promptLen, ctx, a + b)
  {
    hide IsNext;
    forall i: nat | i < |a + b| ensures IsNext(c, p, promptLen, ctx + (a + b)[..i], Ok((a + b)[i])) {
      if i < |a| {
        assert (a + b)[..i] == a[..i];
      } else {
        assert ctx + (a + b)[..i] == ctx + a + b[..i - |a|];
      }
    }
  }

  lemma FollowsPart(c: Config, p: Params, promptLen: nat, ctx: seq<Token>, out: seq<Token>, k: nat)
    requires c.Valid() && promptLen <= |ctx| && ctx != [] && Follows(c, p, promptLen, ctx, out) && k <= |out|
    ensures Follows(c, p, promptLen, ctx, out[..k])
  {
    hide IsNext;
    forall i: nat | i < k ensures IsNext(c, p, promptLen, ctx + out[..k][..i], Ok(out[..k][i])) {
      assert out[..k][..i] == out[..i];
    }
  }

  lemma PickedIsArgmax(p: Params, logits: Logits, t: Token)
    requires logits != [] && p.greedy
    ensures Picked(p, logits, t) <==> t == Argmax(logits)
  {
    var b := Argmax(logits);
    assert Picked(p, logits, t) && t < |logits| ==> logits[b] <= logits[t];
  }

  /** A greedy step gives its outcome and no other. */
  lemma StepIsNext(c: Config, p: Params, promptLen: nat, ctx: seq<Token>, r: Result<Token, StopReason>)
    requires c.Valid() && promptLen <= |ctx| && ctx != [] && p.greedy
    ensures IsNext(c, p, promptLen, ctx, r) <==>
      r == match PlainStep(c, p, promptLen, ctx) case Emit(t) => Ok(t) case Stop(reason) => Err(reason)
  {
    hide Picked;
    var logits := c.net.logits(ctx);
    assert |logits| == c.net.vocab;
    PickedIsArgmax(p, logits, c.eos);
    if c.turnEnd.Some? {
      PickedIsArgmax(p, logits, c.turnEnd.value);
    }
    if r.Ok? {
      PickedIsArgmax(p, logits, r.value);
    }
  }

  /** From every context there is exactly one greedy reply, and it is the run. */
  lemma {:induction false} RunIsReply(c: Config, p: Params, promptLen: nat, ctx: seq<Token>, tokens: seq<Token>, reason: StopReason)
    requires c.Valid() && promptLen <= |ctx| && ctx != [] && p.greedy
    ensures IsReply(c, p, promptLen, ctx, tokens, reason) <==> GreedyRun(c, p, promptLen, ctx) == Run(tokens, reason)
    decreases p.maxTokens - (|ctx| - promptLen)
  {
    hide IsNext, PlainStep;
    var step := PlainStep(c, p, promptLen, ctx);
    assert step == Stop(Length) || |ctx| - promptLen < p.maxTokens by { InBudget(c, p, promptLen, ctx); }
    assert ctx + tokens[..0] == ctx;
    StepIsNext(c, p, promptLen, ctx, if tokens == [] then Err(reason) else Ok(tokens[0]));
    if tokens != [] && step.Emit? {
      RunIsReply(c, p, promptLen, ctx + [step.token], tokens[1..], reason);
      if tokens[0] == step.token {
        ReplyTail(c, p, promptLen, ctx, tokens, reason);
      }
    }
  }

  lemma InBudget(c: Config, p: Params, promptLen: nat, ctx: seq<Token>)
    requires c.Valid() && promptLen <= |ctx| && ctx != []
    ensures PlainStep(c, p, promptLen, ctx) == Stop(Length) || |ctx| - promptLen < p.maxTokens
  {
  }

  lemma ReplyTail(c: Config, p: Params, promptLen: nat, ctx: seq<Token>, tokens: seq<Token>, reason: StopReason)
    requires c.Valid() && promptLen <= |ctx| && ctx != [] && tokens != [] && IsNext(c, p, promptLen, ctx, Ok(tokens[0]))
    ensures IsReply(c, p, promptLen, ctx, tokens, reason) <==> IsReply(c, p, promptLen, ctx + [tokens[0]], tokens[1..], reason)
  {
    hide IsNext;
    var ctx', rest := ctx + [tokens[0]], tokens[1..];
    assert ctx' + rest == ctx + tokens;
    assert ctx + tokens[..0] == ctx;
    forall i: nat | i < |rest| ensures ctx' + rest[..i] == ctx + tokens[..i + 1] && rest[i] == tokens[i + 1] {
    }
    if IsReply(c, p, promptLen, ctx', rest, reason) {
      forall i: nat | i < |tokens| ensures IsNext(c, p, promptLen, ctx + tokens[..i], Ok(tokens[i])) {
        if i > 0 {
          assert IsNext(c, p, promptLen, ctx' + rest[..i - 1], Ok(rest[i - 1]));
        }
      }
    }
    if IsReply(c, p, promptLen, ctx, tokens, reason) {
      forall i: nat | i < |rest| ensures IsNext(c, p, promptLen, ctx' + rest[..i], Ok(rest[i])) {
        assert IsNext(c, p, promptLen, ctx + tokens[..i + 1], Ok(tokens[i + 1]));
      }
    }
  }

  /** What may follow, greedily, is a part of the run. */
  lemma {:induction false} FollowsRun(c: Config, p: Params, promptLen: nat, ctx: seq<Token>, out: seq<Token>)
    requires c.Valid() && promptLen <= |ctx| && ctx != [] && p.greedy && Follows(c, p, promptLen, ctx, out)
    ensures out <= GreedyRun(c, p, promptLen, ctx).tokens
    decreases |out|
  {
    hide IsNext, PlainStep;
    if out != [] {
      assert ctx + out[..0] == ctx;
      StepIsNext(c, p, promptLen, ctx, Ok(out[0]));
      FollowsTail(c, p, promptLen, ctx, out);
      FollowsRun(c, p, promptLen, ctx + [out[0]], out[1..]);
    }
  }

  lemma FollowsTail(c: Config, p: Params, promptLen: nat, ctx: seq<Token>, out: seq<Token>)
    requires c.Valid() && promptLen <= |ctx| && ctx != [] && out != [] && Follows(c, p, promptLen, ctx, out)
    ensures Follows(c, p, promptLen, ctx + [out[0]], out[1..])
  {
    hide IsNext;
    var ctx', rest := ctx + [out[0]], out[1..];
    forall i: nat | i < |rest| ensures IsNext(c, p, promptLen, ctx' + rest[..i], Ok(rest[i])) {
      assert ctx' + rest[..i] == ctx + out[..i + 1];
      assert IsNext(c, p, promptLen, ctx + out[..i + 1], Ok(out[i + 1]));
    }
  }

  lemma InRoom(c: Config, p: Params, promptLen: nat, ctx: seq<Token>, out: seq<Token>)
    requires c.Valid() && promptLen <= |ctx| && ctx != [] && out != [] && Follows(c, p, promptLen, ctx, out)
    ensures |ctx| - promptLen < p.maxTokens
  {
    assert IsNext(c, p, promptLen, ctx + out[..0], Ok(out[0]));
  }

  /** Emitting `out` took plain decoding from `before` to `after`. */
  ghost predicate Advanced(c: Config, p: Params, promptLen: nat, before: seq<Token>, out: seq<Token>, after: seq<Token>)
    requires c.Valid() && promptLen <= |before| && before != [] && promptLen <= |after| && after != []
  {
    var r0, r1 := GreedyRun(c, p, promptLen, before), GreedyRun(c, p, promptLen, after);
    r0.tokens == out + r1.tokens && r0.reason == r1.reason
  }

  lemma AdvanceOne(c: Config, p: Params, promptLen: nat, a: seq<Token>, out: seq<Token>, b: seq<Token>, t: Token)
    requires c.Valid() && promptLen <= |a| && a != [] && promptLen <= |b| && b != []
    requires Advanced(c, p, promptLen, a, out, b) && PlainStep(c, p, promptLen, b) == Emit(t)
    ensures Advanced(c, p, promptLen, a, out + [t], b + [t])
  {
    var r := GreedyRun(c, p, promptLen, b + [t]);
    assert out + ([t] + r.tokens) == (out + [t]) + r.tokens;
  }

  // ---------------------------------------------------------------- guessing ahead

  const NGRAM: nat := 4

  predicate MatchAt(context: seq<Token>, ngram: nat, start: int)
    requires ngram < |context|
  {
    0 <= start < |context| - ngram && context[start..start + ngram] == context[|context| - ngram..]
  }

  /** Prompt lookup: copy what followed the latest earlier occurrence of the last `ngram` tokens. */
  method DraftFromContext(context: seq<Token>, maxTokens: nat, ngram: nat) returns (d: seq<Token>)
    ensures |d| <= maxTokens
    ensures forall i :: 0 <= i < |d| ==> d[i] in context
    ensures d != [] ==> ngram < |context| && exists s ::
      && MatchAt(context, ngram, s)
      && (forall s' :: s < s' ==> !MatchAt(context, ngram, s'))
      && d == context[s + ngram..s + ngram + Min(maxTokens, |context| - s - ngram)]
    ensures d == [] && maxTokens > 0 && 0 < ngram < |context| ==> forall s :: !MatchAt(context, ngram, s)
  {
    if maxTokens == 0 || ngram == 0 || |context| <= ngram {
      return [];
    }
    var start := |context| - ngram;
    while start > 0
      invariant 0 <= start <= |context| - ngram
      invariant forall s :: start <= s ==> !MatchAt(context, ngram, s)
    {
      start := start - 1;
      if context[start..start + ngram] == context[|context| - ngram..] {
        assert MatchAt(context, ngram, start);
        var from := start + ngram;
        return context[from..from + Min(maxTokens, |context| - from)];
      }
    }
    return [];
  }

  predicate Comparable(a: seq<Token>, b: seq<Token>) { a <= b || b <= a }

  lemma BothPrefixes(a: seq<Token>, b: seq<Token>, whole: seq<Token>)
    requires a <= whole && b <= whole
    ensures Comparable(a, b)
  {
    if |a| <= |b| {
      assert b[..|a|] == whole[..|a|];
    } else {
      assert a[..|b|] == whole[..|b|];
    }
  }

  /** A draft cache between rounds describes a proper prefix of the context. */
  predicate Trails(s: SeqState, context: seq<Token>) {
    s.tokens <= context && |s.tokens| < |context|
  }

  /** Run the draft model ahead of the context, absorbing its own guesses as it goes. */
  method ProposeWithModel(drafter: Net, s: SeqState, context: seq<Token>, p: Params, n: nat)
    returns (r: Result<seq<Token>, ()>, s': SeqState)
    requires drafter.Valid() && Trails(s, context)
    ensures r.Ok? ==> |r.value| <= n && AllBelow(r.value, drafter.vocab)
    ensures r.Ok? ==> s'.tokens <= context + r.value
    ensures Comparable(s'.tokens, context)
  {
    var guesses: seq<Token> := [];
    var probe := context;
    s' := s;
    assert s'.tokens <= context;
    while |guesses| < n
      invariant |guesses| <= n && probe == context + guesses && AllBelow(guesses, drafter.vocab)
      invariant s'.tokens <= probe && |s'.tokens| < |probe|
      invariant Comparable(s'.tokens, context)
      decreases n - |guesses|
    {
      var answers;
      answers, s' := LogitsMulti(drafter, probe, s', 1);
      BothPrefixes(s'.tokens, context, probe);
      if answers.Err? {
        return Err(()), s';
      }
      assert s'.tokens == probe;
      var token: nat;
      if p.greedy {
        token := Argmax(answers.value[0]);
      } else {
        var exhausted: bool := *;
        if exhausted {
          return Ok(guesses), s';
        }
        token :| token < drafter.vocab;
      }
      guesses := guesses + [token];
      probe := probe + [token];
    }
    return Ok(guesses), s';
  }

  // ---------------------------------------------------------------- sessions

  /** The cache describes the context minus its last token. */
  ghost predicate CacheBehind(c: Config, context: seq<Token>, s: SeqState) {
    && context != [] && s.tokens == context[..|context| - 1]
    && AllBelow(s.tokens, c.net.vocab)
    && (!c.net.spills ==> !s.HasSpill())
  }

  /** A sequence that is being decoded. `refused` records that a truncation was turned down,
    * which only a cache with spilled blocks ever does. */
  class Session {
    var s: SeqState
    var context: seq<Token>
    const promptLen: nat
    var finished: bool
    var specGain: real
    var specIdle: nat
    var draftSeq: Option<SeqState>
    ghost var refused: bool

    constructor (pending: Pending)
      ensures s == pending.s && context == pending.context && promptLen == |pending.context|
      ensures !finished && !refused && draftSeq == None && specGain == 1.0
    {
      s := pending.s;
      context := pending.context;
      promptLen := |pending.context|;
      finished := false;
      specGain := 1.0;
      specIdle := 0;
      draftSeq := None;
      refused := false;
    }

    /** The discipline every step restores: the cache describes the context minus its last
      * token, and the draft cache describes a prefix of it. */
    ghost predicate Ready(c: Config)
      reads this
    {
      Sound(c) && CacheBehind(c, context, s)
    }

    /** The part of `Ready` that does not concern the cache. */
    ghost predicate Sound(c: Config)
      reads `finished, `refused, `context, `draftSeq, `specGain
    {
      && !finished && !refused
      && 0 < promptLen <= |context|
      && (draftSeq.Some? ==> Trails(draftSeq.value, context))
      && specGain >= 0.0
    }

    /** Why the session must not reach the backend, if it must not. */
    function Barred(c: Config, p: Params): Option<StopReason>
      reads `finished, `context
    {
      if finished then Some(Length)
      else if Generated() >= p.maxTokens then Some(Length)
      else if |context| >= c.maxContext then Some(ContextFull)
      else None
    }

    /** A session whose cache has swallowed the whole context without anyone reading the answer. */
    ghost predicate Stuck(c: Config, p: Params)
      reads this
    {
      0 < promptLen <= |context| && Barred(c, p).None? && s.tokens == context
    }

    function Generated(): nat
      reads `context
    {
      Max(|context| - promptLen, 0)
    }
  }

  /** What a single step must have done to a session that was ready with context `before`. */
  ghost predicate SteppedAlone(c: Config, p: Params, before: seq<Token>, x: Session, r: Result<Token, StopReason>)
    requires c.Valid() && before != [] && x.promptLen <= |before|
    reads x
  {
    && (r.Ok? ==> x.Ready(c) && x.context == before + [r.value] && r.value < c.net.vocab)
    && (r.Err? ==> x.finished && !x.refused)
    && (p.greedy ==> r == match PlainStep(c, p, x.promptLen, before) case Emit(t) => Ok(t) case Stop(reason) => Err(reason))
    && IsNext(c, p, x.promptLen, before, r)
  }

  /** Pick a token: the first largest logit at temperature 0, otherwise anything in range. */
  method Sample(logits: Logits, p: Params) returns (t: Token)
    requires logits != []
    ensures t < |logits|
    ensures p.greedy ==> t == Argmax(logits)
  {
    if p.greedy {
      t := Argmax(logits);
    } else {
      t :| t < |logits|;
    }
  }

  method NextToken(c: Config, x: Session, p: Params) returns (r: Result<Token, StopReason>)
    requires c.Valid() && (x.finished || x.Ready(c) || x.Stuck(c, p))
    modifies x
    ensures old(x.finished) ==> r == Err(Length) && x.finished
    ensures old(x.Stuck(c, p)) ==> r == Err(ContextFull) && x.finished
    ensures x.refused == old(x.refused)
    ensures old(x.Ready(c)) ==> SteppedAlone(c, p, old(x.context), x, r)
  {
    if x.finished {
      return Err(Length);
    }
    if x.Generated() >= p.maxTokens {
      x.finished := true;
      return Err(Length);
    }
    if |x.context| >= c.maxContext {
      x.finished := true;
      return Err(ContextFull);
    }
    var logits, s' := LogitsNext(c.net, x.context, x.s);
    x.s := s';
    if logits.Err? {
      x.finished := true;
      return Err(ContextFull);
    }
    var token := Sample(logits.value, p);
    x.context := x.context + [token];
    if c.EndsTurn(token) {
      x.finished := true;
      return Err(Eos);
    }
    return Ok(token);
  }

  /** A prompt that is still going in. */
  class Pending {
    var s: SeqState
    const context: seq<Token>
    var consumed: nat
    var cacheOnFinish: bool

    constructor (s: SeqState, context: seq<Token>, consumed: nat, cacheOnFinish: bool)
      ensures this.s == s && this.context == context && this.consumed == consumed && this.cacheOnFinish == cacheOnFinish
    {
      this.s := s;
      this.context := context;
      this.consumed := consumed;
      this.cacheOnFinish := cacheOnFinish;
    }

    ghost predicate Valid(c: Config)
      reads this
    {
      && context != [] && |context| < c.maxContext
      && consumed <= |context| - 1
      && s.tokens == context[..consumed]
      && AllBelow(s.tokens, c.net.vocab)
      && (!c.net.spills ==> !s.HasSpill())
    }
  }

  // ---------------------------------------------------------------- speculative decoding

  /** Guesses worth making: none that the budget or the window could not take. */
  function Room(c: Config, p: Params, x: Session): nat
    requires x.promptLen <= |x.context|
    reads x
  {
    Max(Min(Max(p.maxTokens - x.Generated(), 0), Max(c.maxContext - |x.context|, 0)) - 1, 0)
  }

  /** A draft cache that has run ahead over `draft`, or fallen over while trying to. */
  predicate RanAhead(s: SeqState, context: seq<Token>, draft: seq<Token>) {
    s.tokens <= context + draft || (draft == [] && Comparable(s.tokens, context))
  }

  /** Size the request to what guesses have been winning, then guess with the draft model if
    * there is one, and by prompt lookup otherwise. */
  method Guess(c: Config, x: Session, p: Params, lookahead: nat, nextId: nat) returns (draft: seq<Token>)
    requires c.Valid() && x.Ready(c)
    modifies x`specIdle, x`draftSeq
    ensures |draft| <= Room(c, p, x) && |draft| <= lookahead
    ensures AllBelow(x.context, c.net.vocab) ==> AllBelow(draft, c.net.vocab)
    ensures x.draftSeq.Some? ==> RanAhead(x.draftSeq.value, x.context, draft)
  {
    var room := Room(c, p, x);
    var budget := 0;
    if x.specGain < 0.35 && x.specIdle < 16 {
      x.specIdle := x.specIdle + 1;
    } else {
      x.specIdle := 0;
      budget := Min(-(-x.specGain).Floor + 1, lookahead);
    }
    if c.drafter.Some? && budget > 0 {
      if x.draftSeq.None? {
        x.draftSeq := Some(NewSeq(nextId));
      }
      var guesses, ds := ProposeWithModel(c.drafter.value, x.draftSeq.value, x.context, p, Min(budget, room));
      x.draftSeq := Some(ds);
      return if guesses.Ok? then guesses.value else [];
    }
    draft := DraftFromContext(x.context, Min(budget, room), NGRAM);
    if x.draftSeq.Some? {
      PrefixGrows(x.draftSeq.value.tokens, x.context, draft);
    }
  }

  lemma PrefixGrows(a: seq<Token>, b: seq<Token>, more: seq<Token>)
    requires a <= b
    ensures a <= b + more
  {
  }

  /** What walking the model's answers along the draft must establish: `j` guesses were kept
    * and one more token `t` was chosen. */
  ghost predicate Walked(
    c: Config, p: Params, promptLen: nat, before: seq<Token>, draft: seq<Token>,
    after: seq<Token>, out: seq<Token>, stop: Option<StopReason>, j: nat)
    requires c.Valid() && promptLen <= |before| && before != []
  {
    && j <= |draft| && |after| == |before| + j + 1
    && after[..|before| + j] == before + draft[..j] && after[|before| + j] < c.net.vocab
    && (stop.None? ==> out == draft[..j] + [after[|before| + j]])
    && (stop.Some? ==> stop == Some(Eos) && out == draft[..j])
    && Follows(c, p, promptLen, before, out) && (stop.Some? ==> IsNext(c, p, promptLen, before + out, Err(Eos)))
    && (p.greedy && stop.None? ==> Advanced(c, p, promptLen, before, out, after))
    && (p.greedy && stop.Some? ==> GreedyRun(c, p, promptLen, before) == Run(out, Eos))
  }

  lemma PlainStepHere(c: Config, p: Params, promptLen: nat, ctx: seq<Token>)
    requires c.Valid() && promptLen <= |ctx| && ctx != []
    requires |ctx| - promptLen < p.maxTokens && |ctx| < c.maxContext && AllBelow(ctx, c.net.vocab)
    ensures PlainStep(c, p, promptLen, ctx) ==
      var t := Argmax(c.net.logits(ctx)); if c.EndsTurn(t) then Stop(Eos) else Emit(t)
  {
  }

  /** A token picked where a pass is possible either ends the reply or is the next one. */
  lemma NextHere(c: Config, p: Params, promptLen: nat, ctx: seq<Token>, t: Token)
    requires c.Valid() && promptLen <= |ctx| && ctx != []
    requires |ctx| - promptLen < p.maxTokens && |ctx| < c.maxContext && AllBelow(ctx, c.net.vocab)
    requires t < c.net.vocab && (p.greedy ==> t == Argmax(c.net.logits(ctx)))
    ensures IsNext(c, p, promptLen, ctx, if c.EndsTurn(t) then Err(Eos) else Ok(t))
  {
    if p.greedy {
      PickedIsArgmax(p, c.net.logits(ctx), t);
    }
  }

  /** One step of a walk: the token picked ends the reply there, or carries it one token further. */
  lemma WalkStep(
    c: Config, p: Params, promptLen: nat, before: seq<Token>, out: seq<Token>, here: seq<Token>, t: Token)
    requires c.Valid() && promptLen <= |before| && before != [] && here == before + out
    requires |here| - promptLen < p.maxTokens && |here| < c.maxContext && AllBelow(here, c.net.vocab)
    requires t < c.net.vocab && (p.greedy ==> t == Argmax(c.net.logits(here)))
    requires Follows(c, p, promptLen, before, out) && (p.greedy ==> Advanced(c, p, promptLen, before, out, here))
    ensures c.EndsTurn(t) ==> IsNext(c, p, promptLen, here, Err(Eos))
    ensures c.EndsTurn(t) && p.greedy ==> GreedyRun(c, p, promptLen, before) == Run(out, Eos)
    ensures !c.EndsTurn(t) ==> Follows(c, p, promptLen, before, out + [t])
    ensures !c.EndsTurn(t) && p.greedy ==> Advanced(c, p, promptLen, before, out + [t], here + [t])
  {
    hide IsNext, Follows, GreedyRun, PlainStep, Advanced;
    PlainStepHere(c, p, promptLen, here);
    NextHere(c, p, promptLen, here, t);
    if c.EndsTurn(t) {
      if p.greedy {
        StopHere(c, p, promptLen, before, out, here);
      }
    } else {
      if p.greedy {
        AdvanceOne(c, p, promptLen, before, out, here, t);
      }
      FollowsOne(c, p, promptLen, before, out, t);
    }
  }

  lemma NextGuess(before: seq<Token>, draft: seq<Token>, i: nat)
    requires i < |draft|
    ensures (before + draft[..i]) + [draft[i]] == before + draft[..i + 1]
    ensures draft[..i] + [draft[i]] == draft[..i + 1]
  {
  }

  lemma ProbePrefix(before: seq<Token>, draft: seq<Token>, i: nat)
    requires i <= |draft|
    ensures (before + draft)[..|before| + i] == before + draft[..i]
  {
  }

  lemma StopHere(c: Config, p: Params, promptLen: nat, a: seq<Token>, out: seq<Token>, b: seq<Token>)
    requires c.Valid() && promptLen <= |a| && a != [] && promptLen <= |b| && b != []
    requires Advanced(c, p, promptLen, a, out, b) && PlainStep(c, p, promptLen, b) == Stop(Eos)
    ensures GreedyRun(c, p, promptLen, a) == Run(out, Eos)
  {
    assert out + [] == out;
  }

  lemma AdvancedNone(c: Config, p: Params, promptLen: nat, ctx: seq<Token>)
    requires c.Valid() && promptLen <= |ctx| && ctx != []
    ensures Advanced(c, p, promptLen, ctx, [], ctx)
  {
    assert [] + GreedyRun(c, p, promptLen, ctx).tokens == GreedyRun(c, p, promptLen, ctx).tokens;
  }

  /** One verdict: the token to emit after the first `i` guesses, and whether it is guess `i`. */
  method Verdict(p: Params, answer: Logits, draft: seq<Token>, i: nat) returns (kept: bool, token: Token)
    requires answer != [] && i <= |draft| && AllBelow(draft, |answer|)
    ensures token < |answer|
    ensures kept ==> i < |draft| && token == draft[i]
    ensures p.greedy ==> token == Argmax(answer) && (kept <==> i < |draft| && token == draft[i])
  {
    if i == |draft| {
      token := Sample(answer, p);
      return false, token;
    }
    if p.greedy {
      token := Sample(answer, p);
      return token == draft[i], token;
    }
    kept := *;
    token := draft[i];
    if !kept {
      token :| token < |answer|;
    }
  }

  /** Walk the answers: answer `i` is what the model says after the first `i` guesses, and is
    * only reached if all of them were right. */
  method Walk(c: Config, x: Session, p: Params, draft: seq<Token>, answers: seq<Logits>)
    returns (out: seq<Token>, stop: Option<StopReason>, ghost j: nat)
    requires c.Valid() && x.context != [] && x.promptLen <= |x.context|
    requires x.Generated() < p.maxTokens && |x.context| < c.maxContext && |draft| <= Room(c, p, x)
    requires AllBelow(x.context, c.net.vocab) && AllBelow(draft, c.net.vocab)
    requires |answers| == |draft| + 1
    requires forall i :: 0 <= i <= |draft| ==> answers[i] == c.net.logits(x.context + draft[..i])
    modifies x`context
    ensures Walked(c, p, x.promptLen, old(x.context), draft, x.context, out, stop, j)
  {
    hide IsNext, Follows, GreedyRun, PlainStep, Advanced;
    ghost var before := x.context;
    out, stop, j := [], None, 0;
    FollowsNone(c, p, x.promptLen, before);
    AdvancedNone(c, p, x.promptLen, before);
    var i := 0;
    assert before + draft[..0] == before;
    while i < |answers|
      invariant 0 <= i <= |draft|
      invariant x.context == before + draft[..i] && out == draft[..i] && Follows(c, p, x.promptLen, before, out)
      invariant p.greedy ==> Advanced(c, p, x.promptLen, before, out, x.context)
      decreases |answers| - i
    {
      j := i;
      var kept, token := Verdict(p, answers[i], draft, i);
      WalkStep(c, p, x.promptLen, before, out, x.context, token);
      x.context := x.context + [token];
      if c.EndsTurn(token) {
        stop := Some(Eos);
        return;
      }
      out := out + [token];
      if !kept {
        return;
      }
      NextGuess(before, draft, i);
      i := i + 1;
      if x.Generated() >= p.maxTokens {
        stop := Some(Length);
        return;
      }
    }
  }

  /** Settle the round: score it, give back the positions of tokens that were never produced,
    * and cut the draft cache to the guesses that survived. `jam` is whether the cut would land in a
    * block on disk, where there may be one. */
  method Settle(
    c: Config, x: Session, p: Params, base: nat, draft: seq<Token>, out: seq<Token>, stop: Option<StopReason>,
    jam: bool, ghost before: seq<Token>, ghost j: nat)
    returns (ok: bool)
    requires c.Valid() && before != [] && base == |before| && 0 < x.promptLen <= |before|
    requires Walked(c, p, x.promptLen, before, draft, x.context, out, stop, j)
    requires x.s.tokens == before + draft && AllBelow(x.s.tokens, c.net.vocab)
    requires x.draftSeq.Some? ==> RanAhead(x.draftSeq.value, before, draft)
    requires !x.finished && !x.refused && x.specGain >= 0.0
    requires !c.net.spills ==> !x.s.HasSpill()
    requires x.s.cold <= c.net.Start(|x.s.tokens|) && (draft != [] ==> x.s.back < |before|)
    modifies x`s, x`specGain, x`draftSeq, x`finished, x`refused
    ensures ok ==> x.Ready(c)
    ensures !ok ==> x.finished && x.refused && c.net.CanRefuse(|draft|)
    ensures !ok <==> jam && |x.context| - 1 < old(x.s.cold)
  {
    hide GreedyRun, Advanced, Follows, IsNext;
    if draft != [] {
      var won := Max(|out| + (if stop.Some? then 1 else 0) - 1, 0);
      x.specGain := x.specGain * 0.7 + (won as real) * 0.3;
    }
    var keep := Max(|x.context| - 1, 0);
    ProbePrefix(before, draft, j);
    var cut;
    cut, x.s := Truncate(x.s, keep, jam);
    if !cut {
      x.finished := true;
      x.refused := true;
      return false;
    }
    assert x.s.tokens == x.context[..|x.context| - 1];
    var keptGuesses := Min(Max(|out| - 1, 0), |draft|);
    assert keptGuesses <= j;
    if x.draftSeq.Some? {
      x.draftSeq := CutDraft(x.draftSeq.value, base + keptGuesses, before, draft, keptGuesses, j, x.context);
    }
    return true;
  }

  method CutDraft(
    ds: SeqState, len: nat, ghost before: seq<Token>, ghost draft: seq<Token>, ghost kept: nat, ghost j: nat,
    ghost after: seq<Token>)
    returns (r: Option<SeqState>)
    requires RanAhead(ds, before, draft) && kept <= j <= |draft| && len == |before| + kept
    requires |after| == |before| + j + 1 && after[..|before| + j] == before + draft[..j]
    ensures r.Some? ==> Trails(r.value, after)
  {
    var jam: bool := *;
    var fine, cut := Truncate(ds, len, jam);
    if !fine {
      return None;
    }
    DraftCut(ds, cut, before, draft, kept, j, after);
    return Some(cut);
  }

  /** Cutting the draft cache to `kept <= j` guesses leaves a prefix of the new context. */
  lemma DraftCut(
    ds: SeqState, ds': SeqState, before: seq<Token>, draft: seq<Token>, kept: nat, j: nat, after: seq<Token>)
    requires RanAhead(ds, before, draft) && kept <= j <= |draft|
    requires |after| == |before| + j + 1 && after[..|before| + j] == before + draft[..j]
    requires ds'.tokens == if |before| + kept >= |ds.tokens| then ds.tokens else ds.tokens[..|before| + kept]
    ensures Trails(ds', after)
  {
    var n := |before| + kept;
    assert |ds'.tokens| <= n;
    forall i | 0 <= i < |ds'.tokens|
      ensures ds'.tokens[i] == after[i]
    {
      assert ds'.tokens[i] == ds.tokens[i];
      assert after[i] == after[..|before| + j][i] == (before + draft[..j])[i] == (before + draft)[i];
      if !(ds.tokens <= before + draft) {
        assert i < |before| && ds.tokens[i] == before[i];
      }
    }
  }

  /** What a speculative call must have done to a session that was ready with context `before`. */
  ghost predicate SpeculatedWell(
    c: Config, p: Params, lookahead: nat, before: seq<Token>, x: Session, out: seq<Token>, stop: Option<StopReason>)
    requires c.Valid() && before != [] && x.promptLen <= |before|
    reads x
  {
    && (stop.None? ==> x.Ready(c) && x.context == before + out && out != [] && AllBelow(out, c.net.vocab))
    && (stop.Some? ==> x.finished)
    && Follows(c, p, x.promptLen, before, out)
    && (stop.Some? && !x.refused ==> IsNext(c, p, x.promptLen, before + out, Err(stop.value)))
    && (x.refused ==> c.net.CanRefuse(lookahead) && stop == Some(ContextFull))
    && (p.greedy && stop.None? ==> Advanced(c, p, x.promptLen, before, out, x.context))
    && (p.greedy && stop.Some? ==>
          var run := GreedyRun(c, p, x.promptLen, before);
          if x.refused then out <= run.tokens else run == Run(out, stop.value))
  }

  /** One pass over the context and the guesses. It fails exactly where a plain step would. */
  method Probe(c: Config, x: Session, draft: seq<Token>) returns (answers: Option<seq<Logits>>)
    requires c.Valid() && CacheBehind(c, x.context, x.s) && |x.context| + |draft| <= c.net.capacity && c.net.speculates
    requires AllBelow(x.context, c.net.vocab) ==> AllBelow(draft, c.net.vocab)
    modifies x`s
    ensures answers.None? <==> x.context[|x.context| - 1] >= c.net.vocab
    ensures answers.Some? ==>
      && AllBelow(x.context, c.net.vocab) && AllBelow(draft, c.net.vocab)
      && x.s.tokens == x.context + draft && AllBelow(x.s.tokens, c.net.vocab)
      && |answers.value| == |draft| + 1
      && (forall i :: 0 <= i <= |draft| ==> answers.value[i] == c.net.logits(x.context + draft[..i]))
      && (!c.net.spills ==> !x.s.HasSpill())
      && x.s.cold <= c.net.Start(|x.s.tokens|) && (draft != [] ==> x.s.back < |x.context|)
  {
    ghost var before, s0 := x.context, x.s;
    ProbeForward(c, before, draft, s0);
    var r;
    r, x.s := LogitsMulti(c.net, x.context + draft, x.s, |draft| + 1);
    if r.Err? {
      return None;
    }
    ProbeAnswers(c, before, draft, s0, x.s, r.value);
    return Some(r.value);
  }

  /** One round of guessing and checking. */
  method Round(c: Config, x: Session, p: Params, lookahead: nat, nextId: nat, jam: bool)
    returns (out: seq<Token>, stop: Option<StopReason>)
    requires c.Valid() && x.Ready(c) && x.Generated() < p.maxTokens && |x.context| < c.maxContext && c.net.speculates
    modifies x
    ensures SpeculatedWell(c, p, lookahead, old(x.context), x, out, stop) && (x.refused ==> jam)
  {
    ghost var before := x.context;
    var draft := Guess(c, x, p, lookahead, nextId);
    var base := |x.context|;
    var answers := Probe(c, x, draft);
    if answers.None? {
      x.finished := true;
      return [], Some(ContextFull);
    }
    hide GreedyRun, PlainStep, Advanced, ForwardOk, Room, RanAhead;
    ghost var j, walked;
    out, stop, j, walked := Judge(c, x, p, base, draft, answers.value, jam, lookahead);
  }

  /** Emit what the answers say, and settle the round. `j` guesses were right, and `walked` is how the
    * walk stopped. The round is cut short exactly if the cut lands in a block on disk. */
  method Judge(
    c: Config, x: Session, p: Params, base: nat, draft: seq<Token>, answers: seq<Logits>, jam: bool, ghost lookahead: nat)
    returns (out: seq<Token>, stop: Option<StopReason>, ghost j: nat, ghost walked: Option<StopReason>)
    requires c.Valid() && 0 < x.promptLen <= |x.context| == base && |draft| <= lookahead
    requires x.Generated() < p.maxTokens && |x.context| < c.maxContext && |draft| <= Room(c, p, x)
    requires AllBelow(x.context, c.net.vocab) && AllBelow(draft, c.net.vocab) && |answers| == |draft| + 1
    requires forall i :: 0 <= i <= |draft| ==> answers[i] == c.net.logits(x.context + draft[..i])
    requires x.s.tokens == x.context + draft && AllBelow(x.s.tokens, c.net.vocab)
    requires x.draftSeq.Some? ==> RanAhead(x.draftSeq.value, x.context, draft)
    requires !x.finished && !x.refused && x.specGain >= 0.0 && (!c.net.spills ==> !x.s.HasSpill())
    requires x.s.cold <= c.net.Start(|x.s.tokens|) && (draft != [] ==> x.s.back < |x.context|)
    modifies x
    ensures SpeculatedWell(c, p, lookahead, old(x.context), x, out, stop)
    ensures Walked(c, p, x.promptLen, old(x.context), draft, x.context, out, walked, j)
    ensures x.refused <==> jam && |x.context| - 1 < old(x.s.cold)
  {
    hide GreedyRun, PlainStep, Advanced, Room, RanAhead, Follows, IsNext;
    ghost var before := x.context;
    out, stop, j := Walk(c, x, p, draft, answers);
    walked := stop;
    ContextIs(before, draft, j, x.context, out, stop);
    StillPlain(c, p, x.promptLen, before, out, x.context);
    var settled := Settle(c, x, p, base, draft, out, stop, jam, before, j);
    if !settled {
      stop := Some(ContextFull);
      return;
    }
    x.finished := stop.Some?;
  }

  lemma StillPlain(c: Config, p: Params, promptLen: nat, before: seq<Token>, out: seq<Token>, after: seq<Token>)
    requires c.Valid() && promptLen <= |before| && before != [] && promptLen <= |after| && after != []
    ensures Advanced(c, p, promptLen, before, out, after) ==> out <= GreedyRun(c, p, promptLen, before).tokens
  {
  }

  /** Produce the next token, and as many after it as a guess gets right. For a greedy request
    * the tokens and the stop reason are plain decoding's, whatever was guessed. Only where blocks
    * spill and attention reads back fewer positions than were guessed can a truncation be refused,
    * and then the request ends early with tokens that are still plain decoding's. */
  method NextTokensSpeculative(c: Config, x: Session, p: Params, lookahead: nat, nextId: nat, jam: bool)
    returns (out: seq<Token>, stop: Option<StopReason>)
    requires c.Valid() && x.Ready(c)
    modifies x
    ensures SpeculatedWell(c, p, lookahead, old(x.context), x, out, stop) && (x.refused ==> jam)
  {
    FollowsNone(c, p, x.promptLen, x.context);
    if lookahead == 0 || !c.net.speculates {
      ghost var before := x.context;
      var r := NextToken(c, x, p);
      if r.Ok? {
        if p.greedy {
          FirstStep(c, p, x.promptLen, before, r.value);
        }
        FollowsOne(c, p, x.promptLen, before, [], r.value);
        assert [] + [r.value] == [r.value];
        return [r.value], None;
      }
      return [], Some(r.error);
    }
    if x.Generated() >= p.maxTokens {
      x.finished := true;
      return [], Some(Length);
    }
    if |x.context| >= c.maxContext {
      x.finished := true;
      return [], Some(ContextFull);
    }
    out, stop := Round(c, x, p, lookahead, nextId, jam);
  }

  lemma ContextIs(before: seq<Token>, draft: seq<Token>, j: nat, after: seq<Token>, out: seq<Token>, stop: Option<StopReason>)
    requires j <= |draft| && |after| == |before| + j + 1 && after[..|before| + j] == before + draft[..j]
    requires stop.None? ==> out == draft[..j] + [after[|before| + j]]
    ensures stop.None? ==> after == before + out && out != []
  {
    assert after == after[..|before| + j] + [after[|before| + j]];
  }

  lemma FirstStep(c: Config, p: Params, promptLen: nat, a: seq<Token>, t: Token)
    requires c.Valid() && promptLen <= |a| && a != [] && PlainStep(c, p, promptLen, a) == Emit(t)
    ensures Advanced(c, p, promptLen, a, [t], a + [t])
  {
    assert [] + GreedyRun(c, p, promptLen, a).tokens == GreedyRun(c, p, promptLen, a).tokens;
    AdvanceOne(c, p, promptLen, a, [], a, t);
    assert [] + [t] == [t];
  }

  /** The verification pass succeeds exactly when a plain step from here would. */
  lemma ProbeForward(c: Config, before: seq<Token>, draft: seq<Token>, s: SeqState)
    requires c.Valid() && before != [] && s.tokens == before[..|before| - 1] && AllBelow(s.tokens, c.net.vocab)
    requires |before| + |draft| <= c.net.capacity && c.net.speculates
    requires AllBelow(before, c.net.vocab) ==> AllBelow(draft, c.net.vocab)
    ensures ForwardOk(c.net, before + draft, s, |draft| + 1) <==> before[|before| - 1] < c.net.vocab
    ensures before[|before| - 1] < c.net.vocab ==> AllBelow(before, c.net.vocab)
  {
    var probe := before + draft;
    assert probe[|s.tokens|..] == [before[|before| - 1]] + draft;
    assert forall i :: 0 <= i < |before| - 1 ==> before[i] == s.tokens[i];
    assert ([before[|before| - 1]] + draft)[0] == before[|before| - 1];
  }

  lemma ProbeAnswers(c: Config, before: seq<Token>, draft: seq<Token>, s: SeqState, s': SeqState, answers: seq<Logits>)
    requires c.Valid() && before != [] && s.tokens == before[..|before| - 1]
    requires s'.tokens == s.tokens + (before + draft)[|s.tokens|..] && |answers| == |draft| + 1
    requires forall i :: 0 <= i < |answers| ==> answers[i] == c.net.logits(s'.tokens[..|s'.tokens| - |answers| + 1 + i])
    requires AllBelow(before, c.net.vocab) && AllBelow(draft, c.net.vocab)
    ensures s'.tokens == before + draft && AllBelow(s'.tokens, c.net.vocab)
    ensures forall i :: 0 <= i <= |draft| ==> answers[i] == c.net.logits(before + draft[..i])
  {
    assert s'.tokens == before + draft;
    forall i | 0 <= i <= |draft|
      ensures answers[i] == c.net.logits(before + draft[..i])
    {
      ProbePrefix(before, draft, i);
    }
  }

  // ---------------------------------------------------------------- whole runs

  /** Repeated `next_token` until it stops gives a whole reply: for a greedy request, the one there is. */
  method DecodePlain(c: Config, x: Session, p: Params) returns (out: seq<Token>, reason: StopReason)
    requires c.Valid() && x.Ready(c)
    modifies x
    ensures IsReply(c, p, x.promptLen, old(x.context), out, reason)
    ensures p.greedy ==> Run(out, reason) == GreedyRun(c, p, x.promptLen, old(x.context))
  {
    ghost var start := x.context;
    out := [];
    FollowsNone(c, p, x.promptLen, start);
    while true
      invariant x.Ready(c) && x.context == start + out && Follows(c, p, x.promptLen, start, out)
      decreases Max(p.maxTokens - |x.context| + x.promptLen, 0)
    {
      ghost var here := x.context;
      var r := NextToken(c, x, p);
      if r.Err? {
        if p.greedy {
          RunIsReply(c, p, x.promptLen, start, out, r.error);
        }
        return out, r.error;
      }
      FollowsOne(c, p, x.promptLen, start, out, r.value);
      out := out + [r.value];
    }
  }

  lemma ReplyEnds(c: Config, p: Params, promptLen: nat, ctx: seq<Token>, out: seq<Token>, reason: StopReason)
    requires c.Valid() && promptLen <= |ctx| && ctx != [] && Follows(c, p, promptLen, ctx, out)
    ensures p.greedy ==> out <= GreedyRun(c, p, promptLen, ctx).tokens
    ensures IsNext(c, p, promptLen, ctx + out, Err(reason)) ==> IsReply(c, p, promptLen, ctx, out, reason)
    ensures p.greedy && IsReply(c, p, promptLen, ctx, out, reason) ==> GreedyRun(c, p, promptLen, ctx) == Run(out, reason)
  {
    hide Follows, IsNext, GreedyRun;
    if p.greedy {
      RunIsReply(c, p, promptLen, ctx, out, reason);
      FollowsRun(c, p, promptLen, ctx, out);
    }
  }

  /** Repeated speculative rounds, with any lookahead up to `most` in each, give a whole reply too, and for a
    * greedy request the same one, unless blocks spill and attention reads back fewer than `most` positions.
    * Even then they give a prefix. */
  method DecodeSpeculating(c: Config, x: Session, p: Params, most: nat) returns (out: seq<Token>, reason: StopReason)
    requires c.Valid() && x.Ready(c)
    modifies x
    ensures !c.net.CanRefuse(most) ==> !x.refused
    ensures !x.refused ==> IsReply(c, p, x.promptLen, old(x.context), out, reason)
    ensures !x.refused && p.greedy ==> Run(out, reason) == GreedyRun(c, p, x.promptLen, old(x.context))
    ensures Follows(c, p, x.promptLen, old(x.context), out)
    ensures p.greedy ==> out <= GreedyRun(c, p, x.promptLen, old(x.context)).tokens
  {
    hide Follows, IsNext, GreedyRun, Advanced;
    ghost var start := x.context;
    out := [];
    FollowsNone(c, p, x.promptLen, start);
    while true
      invariant x.Ready(c) && x.context == start + out && Follows(c, p, x.promptLen, start, out)
      decreases Max(p.maxTokens - |x.context| + x.promptLen, 0)
    {
      ghost var here := x.context;
      var lookahead: nat :| lookahead <= most;
      var jam: bool := *;
      var more, stop := NextTokensSpeculative(c, x, p, lookahead, 0, jam);
      assert start + (out + more) == here + more;
      FollowsOn(c, p, x.promptLen, start, out, more);
      if stop.Some? {
        ReplyEnds(c, p, x.promptLen, start, out + more, stop.value);
        return out + more, stop.value;
      }
      InRoom(c, p, x.promptLen, here, more);
      out := out + more;
    }
  }

  // ---------------------------------------------------------------- prefill

  /** The runtime's shared state: the prompt cache and the sequence counter. */
  class InferenceRuntime {
    const c: Config
    const cache: PromptCache
    var nextSeq: nat

    constructor (c: Config, capacity: nat, budget: nat)
      requires c.Valid()
      ensures this.c == c && Valid() && fresh(cache)
    {
      this.c := c;
      cache := new PromptCache(capacity, budget);
      nextSeq := 1;
    }

    ghost predicate Valid()
      reads this, cache
    {
      c.Valid() && cache.Valid() && forall k :: k in cache.entries ==> AllBelow(k, c.net.vocab)
    }

    method FreshSeqId() returns (id: nat)
      modifies this
      ensures id == old(nextSeq) && nextSeq == id + 1
    {
      id := nextSeq;
      nextSeq := nextSeq + 1;
    }

    /** Begin a sequence without absorbing the prompt; a cached prefix arrives absorbed. */
    method StartIncremental(prompt: seq<Token>, p: Params) returns (r: Result<Pending, ()>)
      requires Valid()
      modifies this, cache
      ensures Valid()
      ensures r.Ok? <==> p.acceptable && p.maxTokens > 0 && prompt != [] && |prompt| < c.maxContext
      ensures r.Ok? ==> fresh(r.value) && r.value.Valid(c) && r.value.context == prompt
      ensures r.Ok? ==> r.value.s.id == old(nextSeq) && nextSeq == old(nextSeq) + 1
      ensures r.Ok? ==>
        var hit := |prompt| > 1 && prompt[..|prompt| - 1] in old(cache.entries);
        && r.value.consumed == (if hit then |prompt| - 1 else 0) && (r.value.cacheOnFinish <==> |prompt| > 1 && !hit)
        && (hit ==> r.value.s == old(cache.entries)[prompt[..|prompt| - 1]].(id := old(nextSeq)))
      ensures r.Err? ==> nextSeq == old(nextSeq) && cache.lru == old(cache.lru)
      ensures cache.entries == old(cache.entries)
    {
      if !p.Valid() || prompt == [] || |prompt| >= c.maxContext {
        return Err(());
      }
      var id := FreshSeqId();
      var prefix := prompt[..|prompt| - 1];
      var pending: Pending;
      if prefix == [] {
        pending := new Pending(NewSeq(id), prompt, 0, false);
      } else {
        var hit := cache.Get(prefix, id);
        if hit.Some? {
          pending := new Pending(hit.value, prompt, |prefix|, false);
        } else {
          pending := new Pending(NewSeq(id), prompt, 0, true);
        }
      }
      return Ok(pending);
    }

    /** Absorb up to `maxTokens` more of a pending prompt. */
    method AdvancePrefill(x: Pending, maxTokens: nat) returns (r: Result<bool, ()>)
      requires Valid() && x.Valid(c)
      modifies x, cache
      ensures Valid()
      ensures r.Ok? ==> x.Valid(c) && (r.value <==> x.consumed == |x.context| - 1)
      ensures r.Ok? ==> x.consumed == Min(|x.context| - 1, old(x.consumed) + Max(maxTokens, 1))
      ensures r.Err? ==> !AllBelow(x.context[..|x.context| - 1], c.net.vocab)
      ensures
        var from := old(x.consumed);
        r.Err? <==> !AllBelow(x.context[from..Min(|x.context| - 1, from + Max(maxTokens, 1))], c.net.vocab)
      ensures x.s.id == old(x.s.id) && x.cacheOnFinish == old(x.cacheOnFinish)
      ensures
        var key := x.context[..|x.context| - 1];
        if r == Ok(true) && old(x.consumed) < |key| && x.cacheOnFinish && !x.s.HasSpill() && x.s.bytes <= cache.budget
        then key in cache.entries && cache.entries[key] == x.s
        else cache.entries == old(cache.entries) && cache.lru == old(cache.lru)
    {
      var prefixLen := |x.context| - 1;
      if x.consumed >= prefixLen {
        return Ok(true);
      }
      var target := Min(prefixLen, x.consumed + Max(maxTokens, 1));
      var answers, s' := LogitsMulti(c.net, x.context[..target], x.s, 1);
      assert x.context[..target][x.consumed..] == x.context[x.consumed..target];
      if answers.Err? {
        x.s := s';
        BadPrefix(c, x.context, x.consumed, target);
        return Err(());
      }
      GoodPrefix(c, x.context, x.consumed, target);
      x.s := s';
      x.consumed := target;
      var done := x.consumed >= prefixLen;
      if done && x.cacheOnFinish && !x.s.HasSpill() {
        cache.Insert(x.context[..prefixLen], x.s);
      }
      return Ok(done);
    }

    /** A fully absorbed prompt becomes a session that is ready to decode. */
    method FinishPrefill(x: Pending) returns (session: Session)
      requires Valid() && x.Valid(c) && x.consumed == |x.context| - 1
      ensures fresh(session) && session.Ready(c)
      ensures session.s == x.s && session.context == x.context && session.promptLen == |x.context|
    {
      session := new Session(x);
    }

    /** However a prompt is cut into pieces, the session that comes out is the same. */
    method Start(prompt: seq<Token>, p: Params) returns (r: Result<Session, ()>)
      requires Valid()
      modifies this, cache
      ensures Valid()
      ensures r.Ok? ==> fresh(r.value) && r.value.Ready(c) && r.value.context == prompt && r.value.promptLen == |prompt|
      ensures r.Ok? ==> r.value.s.id == old(nextSeq) && nextSeq == old(nextSeq) + 1
      ensures p.acceptable && p.maxTokens > 0 && prompt != [] && |prompt| < c.maxContext && AllBelow(prompt[..|prompt| - 1], c.net.vocab) ==> r.Ok?
    {
      var started := StartIncremental(prompt, p);
      if started.Err? {
        return Err(());
      }
      var pending := started.value;
      var done := false;
      while !done
        invariant Valid() && pending.Valid(c) && pending.context == prompt && fresh(pending)
        invariant done ==> pending.consumed == |prompt| - 1
        invariant pending.s.id == old(nextSeq) && nextSeq == old(nextSeq) + 1
        decreases |prompt| - pending.consumed, !done
      {
        var chunk: nat := *;
        var outcome := AdvancePrefill(pending, chunk);
        if outcome.Err? {
          return Err(());
        }
        done := outcome.value;
      }
      var session := FinishPrefill(pending);
      return Ok(session);
    }
  }

  lemma GoodPrefix(c: Config, context: seq<Token>, consumed: nat, target: nat)
    requires consumed <= target <= |context|
    ensures context[..consumed] + context[..target][consumed..] == context[..target]
    ensures AllBelow(context[..consumed], c.net.vocab) && AllBelow(context[..target][consumed..], c.net.vocab) ==>
      AllBelow(context[..target], c.net.vocab)
  {
  }

  lemma BadPrefix(c: Config, context: seq<Token>, consumed: nat, target: nat)
    requires consumed < target < |context|
    requires !AllBelow(context[..target][consumed..], c.net.vocab)
    ensures !AllBelow(context[..|context| - 1], c.net.vocab)
  {
    var i :| 0 <= i < target - consumed && context[..target][consumed..][i] >= c.net.vocab;
    assert context[..|context| - 1][consumed + i] >= c.net.vocab;
  }
}
