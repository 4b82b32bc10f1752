/** The compute backend as the decode loop sees it: a deterministic network behind a cache.
  *
  * What a forward pass answers is a function of the tokens the cache has *absorbed*, never
  * of the context the caller passes, so a cache that described other tokens would give
  * other answers. That is what makes the runtime's cache discipline worth proving. */
module Backend {
  import opened Basics

  type Token = nat
  type Logits = seq<real>

  /** One sequence's attention state: the tokens it has absorbed; the position up to which blocks
    * may live on disk, which is 0 if none does; the earliest length it can surely be put back to;
    * the bytes it occupies and the identity its spill files are named by. */
  datatype SeqState = SeqState(tokens: seq<Token>, cold: nat, back: nat, bytes: nat, id: nat) {
    predicate HasSpill() { cold > 0 }
  }

  function NewSeq(id: nat): SeqState { SeqState([], 0, 0, 0, id) }

  /** `logits` is the network; `capacity` the context window; `speculates` whether one pass can
    * answer for several positions; `spills` whether there is anywhere to spill to; `window` how far
    * back attention reads; `fused` whether `logits_batch` is overridden by one that checks every
    * sequence before it touches any. */
  datatype Net = Net(
    logits: seq<Token> -> Logits, vocab: nat, capacity: nat, speculates: bool, spills: bool, fused: bool,
    window: Option<nat>)
  {
    /** The oldest position attention may read after `len` tokens. */
    function Start(len: nat): nat {
      match window
      case None => 0
      case Some(w) => Max(len - w, 0)
    }

    /** Whether taking back up to `n` positions can run into a block on disk: only if there is
      * somewhere to spill to and attention does not read back that far. */
    predicate CanRefuse(n: nat) { spills && window.Some? && window.value < n }

    /** The plugin contract: one logit per vocabulary entry. */
    ghost predicate Valid() {
      vocab > 0 && forall s :: |logits(s)| == vocab
    }
  }

  predicate AllBelow(ts: seq<Token>, vocab: nat) {
    forall i :: 0 <= i < |ts| ==> ts[i] < vocab
  }

  predicate EndsBelow(ts: seq<Token>, vocab: nat) { ts != [] ==> ts[|ts| - 1] < vocab }

  /** When a forward pass over the unseen part of `context`, answering for the last `n`
    * positions, succeeds. */
  predicate ForwardOk(net: Net, context: seq<Token>, s: SeqState, n: nat) {
    && |s.tokens| < |context| <= net.capacity
    && AllBelow(context[|s.tokens|..], net.vocab)
    && 1 <= n <= |context| - |s.tokens|
    && (n > 1 ==> net.speculates)
  }

  /** Spill bookkeeping changes freely during a pass, but only if there is somewhere to spill. */
  predicate SameIdentity(net: Net, before: SeqState, after: SeqState) {
    after.id == before.id && (after.HasSpill() ==> before.HasSpill() || net.spills)
  }

  /** What a pass leaves on disk and what it can go back to: each token's attention has read its
    * window back into memory, and a pass for several answers keeps a copy from every position. */
  predicate PassLeaves(net: Net, s: SeqState, n: nat, s': SeqState) {
    && (s'.tokens == s.tokens ==> s'.cold == s.cold)
    && (s'.tokens != s.tokens ==>
      s'.cold <= net.Start(|s'.tokens|) && s'.back <= if n > 1 then |s.tokens| else |s'.tokens|)
    && SameIdentity(net, s, s')
  }

  /** `logits_multi`: consume `context[len..]`, answer for the last `n`. A failing pass may have
    * absorbed some of the tokens ahead of the one it rejected. */
  method LogitsMulti(net: Net, context: seq<Token>, s: SeqState, n: nat)
    returns (r: Result<seq<Logits>, ()>, s': SeqState)
    ensures r.Ok? <==> ForwardOk(net, context, s, n)
    ensures r.Ok? ==>
      && s'.tokens == s.tokens + context[|s.tokens|..]
      && |r.value| == n
      && forall i :: 0 <= i < n ==> r.value[i] == net.logits(s'.tokens[..|s'.tokens| - n + 1 + i])
    ensures r.Err? ==> s.tokens <= s'.tokens
    ensures r.Err? && |s.tokens| <= |context| ==> s'.tokens <= s.tokens + context[|s.tokens|..]
    ensures r.Err? && n == 1 && |context| == |s.tokens| + 1 ==> s' == s
    ensures PassLeaves(net, s, n, s')
  {
    s' := s;
    if n == 0 || (n > 1 && !net.speculates) || context == [] || |s.tokens| >= |context| || |context| > net.capacity {
      return Err(()), s';
    }
    var fresh': seq<Token> := context[|s.tokens|..];
    var good := 0;
    while good < |fresh'| && fresh'[good] < net.vocab
      invariant 0 <= good <= |fresh'|
      invariant AllBelow(fresh'[..good], net.vocab)
    {
      good := good + 1;
    }
    if good < |fresh'| {
      var absorbed: nat :| absorbed <= good;
      if absorbed > 0 {
        s' := AfterPass(net, s, s.tokens + fresh'[..absorbed], n);
      }
      return Err(()), s';
    }
    assert fresh'[..good] == fresh';
    s' := AfterPass(net, s, s.tokens + fresh', n);
    if n > |fresh'| {
      return Err(()), s';
    }
    var all := s'.tokens;
    var answers := seq(n, i requires 0 <= i < n => net.logits(all[..|all| - n + 1 + i]));
    return Ok(answers), s';
  }

  /** Whatever a pass over new tokens may leave. */
  method AfterPass(net: Net, s: SeqState, tokens: seq<Token>, n: nat) returns (s': SeqState)
    requires |tokens| > |s.tokens|
    ensures s'.tokens == tokens && PassLeaves(net, s, n, s')
  {
    var cold: nat :| cold <= net.Start(|tokens|) && (cold > 0 ==> net.spills);
    var back: nat :| back <= if n > 1 then |s.tokens| else |tokens|;
    var bytes: nat := *;
    s' := SeqState(tokens, cold, back, bytes, s.id);
  }

  /** `logits` where at most one token is unseen. Asking again about a context the cache has
    * already absorbed is an error. */
  method LogitsNext(net: Net, context: seq<Token>, s: SeqState) returns (r: Result<Logits, ()>, s': SeqState)
    requires net.Valid() && context != [] && |context| <= net.capacity
    requires s.tokens == context[..|context| - 1] || s.tokens == context
    ensures r.Ok? <==> |s.tokens| < |context| && context[|context| - 1] < net.vocab
    ensures r.Ok? ==> s'.tokens == context && r.value == net.logits(context) && |r.value| == net.vocab
    ensures r.Err? ==> s'.tokens == s.tokens
    ensures PassLeaves(net, s, 1, s')
  {
    var answers;
    answers, s' := LogitsMulti(net, context, s, 1);
    assert context == context[..|context| - 1] + context[|context| - 1..];
    assert AllBelow(context[|context| - 1..], net.vocab) <==> context[|context| - 1] < net.vocab;
    assert context[..|context|] == context;
    r := if answers.Ok? then Ok(answers.value[0]) else Err(());
  }

  /** `SeqState::truncate`. A cut is refused only before the earliest position there is a way back
    * to, or where blocks may be on disk, and there if `jam` says that something is in the way; a
    * refusal leaves the state unusable. */
  method Truncate(s: SeqState, len: nat, jam: bool) returns (ok: bool, s': SeqState)
    ensures ok <==> len >= |s.tokens| || (len >= s.back && len >= s.cold) || !jam
    ensures ok ==>
      && s'.tokens == (if len < |s.tokens| then s.tokens[..len] else s.tokens)
      && s'.cold <= s.cold && s'.back <= |s'.tokens| && s'.id == s.id
  {
    if len < |s.tokens| && (len < s.back || len < s.cold) && jam {
      return false, s;
    }
    var tokens := if len < |s.tokens| then s.tokens[..len] else s.tokens;
    var cold: nat :| cold <= s.cold;
    var back: nat :| back <= |tokens|;
    var bytes: nat := *;
    return true, SeqState(tokens, cold, back, bytes, s.id);
  }

  /** The greedy sampler's fold: the first largest logit. */
  function Argmax(data: Logits): (best: nat)
    requires data != []
    ensures best < |data|
    ensures forall i :: 0 <= i < |data| ==> data[i] <= data[best]
    ensures forall i :: 0 <= i < best ==> data[i] < data[best]
  {
    if |data| == 1 then 0
    else
      var last := |data| - 1;
      var b := Argmax(data[..last]);
      assert forall i :: 0 <= i < last ==> data[..last][i] == data[i];
      if data[last] > data[b] then last else b
  }

  // ---------------------------------------------------------------- one step for many sequences

  predicate OneStepEach(contexts: seq<seq<Token>>, ss: seq<SeqState>)
    requires |contexts| == |ss|
  {
    forall i :: 0 <= i < |ss| ==> |contexts[i]| == |ss[i].tokens| + 1
  }

  /** The first sequence at or after `i` whose pass fails, or their number if none does. */
  function FirstFail(net: Net, contexts: seq<seq<Token>>, ss: seq<SeqState>, i: nat): (f: nat)
    requires |contexts| == |ss| && i <= |ss|
    ensures i <= f <= |ss|
    ensures f < |ss| ==> !ForwardOk(net, contexts[f], ss[f], 1)
    ensures forall j :: i <= j < f ==> ForwardOk(net, contexts[j], ss[j], 1)
    decreases |ss| - i
  {
    if i == |ss| || !ForwardOk(net, contexts[i], ss[i], 1) then i else FirstFail(net, contexts, ss, i + 1)
  }

  /** `s'` is `s` after absorbing all of `context`. */
  predicate Stepped(net: Net, context: seq<Token>, s: SeqState, s': SeqState) {
    && |s.tokens| <= |context|
    && s'.tokens == s.tokens + context[|s.tokens|..]
    && PassLeaves(net, s, 1, s')
  }

  /** Whether `logits_batch` rejects a bad batch before touching any sequence in it. */
  predicate ChecksFirst(net: Net, contexts: seq<seq<Token>>, ss: seq<SeqState>)
    requires |contexts| == |ss|
  {
    net.fused && |ss| > 1 && OneStepEach(contexts, ss)
  }

  /** Where a batch that fails leaves its sequences. */
  ghost predicate FailedBatch(net: Net, contexts: seq<seq<Token>>, ss: seq<SeqState>, ss': seq<SeqState>)
    requires |contexts| == |ss| == |ss'| && FirstFail(net, contexts, ss, 0) < |ss|
  {
    if ChecksFirst(net, contexts, ss) then ss' == ss
    else
      var f := FirstFail(net, contexts, ss, 0);
      && (forall i :: 0 <= i < f ==> Stepped(net, contexts[i], ss[i], ss'[i]))
      && (|contexts[f]| == |ss[f].tokens| + 1 ==> ss'[f] == ss[f])
      && (forall i :: f < i < |ss| ==> ss'[i] == ss[i])
  }

  /** `logits_batch`. The override looks before it leaps: it rejects the batch with every
    * sequence untouched. The default runs them in turn and stops at the first failure, by
    * which time the sequences ahead of it have already absorbed their contexts. */
  method LogitsBatch(net: Net, contexts: seq<seq<Token>>, ss: seq<SeqState>)
    returns (r: Result<seq<Logits>, ()>, ss': seq<SeqState>)
    requires |contexts| == |ss|
    ensures |ss'| == |ss|
    ensures r.Ok? <==> FirstFail(net, contexts, ss, 0) == |ss|
    ensures r.Ok? ==> |r.value| == |ss| && forall i :: 0 <= i < |ss| ==>
      Stepped(net, contexts[i], ss[i], ss'[i]) && r.value[i] == net.logits(ss'[i].tokens)
    ensures r.Err? ==> FailedBatch(net, contexts, ss, ss')
  {
    var f := FirstFail(net, contexts, ss, 0);
    if ChecksFirst(net, contexts, ss) && f < |ss| {
      return Err(()), ss;
    }
    ss' := ss;
    var answers: seq<Logits> := [];
    for k := 0 to |ss|
      invariant |ss'| == |ss| && |answers| == k <= f
      invariant forall i :: 0 <= i < k ==> Stepped(net, contexts[i], ss[i], ss'[i])
      invariant forall i :: 0 <= i < k ==> answers[i] == net.logits(ss'[i].tokens)
      invariant forall i :: k <= i < |ss| ==> ss'[i] == ss[i]
    {
      var one, s' := LogitsMulti(net, contexts[k], ss[k], 1);
      ss' := ss'[k := s'];
      if one.Err? {
        return Err(()), ss';
      }
      assert s'.tokens[..|s'.tokens|] == s'.tokens;
      answers := answers + one.value;
    }
    r := Ok(answers);
  }
}
