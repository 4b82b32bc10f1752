/** A backend's answers over sequence state: chunked passes, the last few answers, recorded rounds. */
module Rounds {
  import opened Basics
  import opened Experts
  import opened Forward
  import opened Hybrid
  import opened Passes

  datatype Failure = NothingNew | Full | BadToken | TooFew

  predicate AllBelow(ts: seq<Token>, vocab: nat) {
    forall i :: 0 <= i < |ts| ==> ts[i] < vocab
  }

  /** `tail` are the final hidden states at the last positions of `all`. */
  ghost predicate TailIs(m: Model, all: seq<Token>, tail: seq<Vec>)
    requires m.Valid()
  {
    |tail| <= |all| && forall i :: 0 <= i < |tail| ==> TailAt(m, all, tail, i)
  }

  ghost predicate TailAt(m: Model, all: seq<Token>, tail: seq<Vec>, i: nat)
    requires m.Valid() && i < |tail| <= |all|
  {
    tail[i] == Hidden(m, all[..|all| - |tail| + i + 1])
  }

  lemma TailMore(m: Model, all: seq<Token>, tail: seq<Vec>, chunk: seq<Token>, xs: seq<Vec>)
    requires m.Valid() && TailIs(m, all, tail) && HiddenAre(m, all, chunk, xs)
    ensures TailIs(m, all + chunk, tail + xs)
  {
    hide Hidden;
    var all', tail' := all + chunk, tail + xs;
    forall i: nat | i < |tail'| ensures TailAt(m, all', tail', i) {
      if i < |tail| {
        assert TailAt(m, all, tail, i);
        assert all'[..|all| - |tail| + i + 1] == all[..|all| - |tail| + i + 1];
      } else {
        assert all'[..|all| + (i - |tail|) + 1] == all + chunk[..i - |tail| + 1];
      }
    }
  }

  lemma TailDrop(m: Model, all: seq<Token>, tail: seq<Vec>, k: nat)
    requires m.Valid() && TailIs(m, all, tail) && k <= |tail|
    ensures TailIs(m, all, tail[k..])
  {
    hide Hidden;
    forall i: nat | i < |tail| - k ensures TailAt(m, all, tail[k..], i) {
      assert TailAt(m, all, tail, k + i);
    }
  }

  /** Embed a chunk, rejecting an out-of-vocabulary token before any layer has run. */
  method EmbedChunk(m: Model, ghost cells: seq<Cell>, ghost recording: bool, chunk: seq<Token>) returns (r: Option<seq<Vec>>)
    requires m.Valid() && |cells| == |m.blocks|
    ensures r.Some? <==> AllBelow(chunk, m.vocab)
    ensures r.Some? ==> UpTo(m, cells, recording, chunk, 0, cells, r.value)
  {
    var xs: seq<Vec> := [];
    for i := 0 to |chunk|
      invariant AllBelow(chunk[..i], m.vocab)
      invariant xs == Embedded(m, chunk[..i])
    {
      if chunk[i] >= m.vocab {
        return None;
      }
      xs := xs + [m.embed(chunk[i])];
    }
    assert chunk[..|chunk|] == chunk;
    UpToStart(m, cells, recording, chunk, xs);
    return Some(xs);
  }

  /** Consume the unseen part of `context` a chunk at a time, keeping the last `nLast` hidden states
    * across chunks. Whatever the chunk size, the state is as if the tokens had come one at a time;
    * a token outside the vocabulary stops it with the chunks before it absorbed. */
  method ForwardTail(m: Model, s: SeqState, context: seq<Token>, nLast: nat, prefillChunk: nat)
    returns (r: Result<seq<Vec>, Failure>)
    requires m.Valid() && s.Valid(m)
    modifies s`cells, s`spilled, s`tokens
    ensures s.Valid(m)
    ensures
      var had := |old(s.tokens)|;
      r.Ok? <==> had < |context| <= s.capacity && AllBelow(context[had..], m.vocab) && nLast <= |context| - had
    ensures r.Ok? ==>
      && s.tokens == old(s.tokens) + context[|old(s.tokens)|..]
      && |r.value| == nLast && TailIs(m, s.tokens, r.value)
    ensures r.Err? ==> old(s.tokens) <= s.tokens
    ensures r.Err? && |old(s.tokens)| <= |context| ==> s.tokens <= old(s.tokens) + context[|old(s.tokens)|..]
    ensures r.Err? && nLast <= 1 && |old(s.tokens)| < |context| ==> |s.tokens| < |context|
    ensures CopiesKept(old(s.cells), s.cells)
    ensures s.recording ==> Recorded(m, s.cells, |old(s.tokens)|, |s.tokens|)
    ensures DiskAfter(m, s, old(s.tokens), old(s.spilled))
  {
    var already := s.Len();
    SameLength(m, s);
    KeptNow(s.cells);
    if already >= |context| {
      return Err(NothingNew);
    }
    if |context| > s.capacity {
      return Err(Full);
    }
    var unseen: seq<Token> := context[already..];
    var tail;
    tail := Consume(m, s, unseen, nLast, Max(prefillChunk, 1));
    if tail.None? {
      return Err(BadToken);
    }
    if nLast > |tail.value| {
      return Err(TooFew);
    }
    return Ok(tail.value);
  }

  lemma SameLength(m: Model, s: SeqState)
    requires m.Valid() && s.Valid(m)
    ensures s.Len() == |s.tokens|
  {
    assert CellOk(m, s.tokens, 0, s.cells[0]);
  }

  lemma KeptNow(cells: seq<Cell>)
    ensures CopiesKept(cells, cells)
  {
  }

  lemma KeptOver(a: seq<Cell>, b: seq<Cell>, c: seq<Cell>)
    requires CopiesKept(a, b) && CopiesKept(b, c)
    ensures CopiesKept(a, c)
  {
    hide HasCopy;
    forall l | 0 <= l < |a| ensures CopiesKeptIn(a[l], c[l]) {
      assert CopiesKeptIn(a[l], b[l]) && CopiesKeptIn(b[l], c[l]);
    }
  }

  lemma RecordedOver(m: Model, b: seq<Cell>, c: seq<Cell>, from: nat, mid: nat, to: nat)
    requires |b| == |c| == |m.blocks| && CopiesKept(b, c) && Recorded(m, b, from, mid) && Recorded(m, c, mid, to)
    ensures Recorded(m, c, from, to)
  {
    hide HasCopy;
    forall l, n: nat | 0 <= l < |c| && from <= n < to && m.blocks[l].mixer.Recurrent? ensures HasCopy(c[l], n) {
      assert CopiesKeptIn(b[l], c[l]);
    }
  }

  /** Without a new token nothing moved; after one, every window has been read back. */
  ghost predicate DiskAfter(m: Model, s: SeqState, before: seq<Token>, spilled: seq<set<nat>>)
    reads s`cells, s`spilled, s`tokens
  {
    if s.tokens == before then s.spilled == spilled else ReadTo(m, s, |m.blocks|)
  }

  lemma DiskNow(m: Model, s: SeqState)
    ensures DiskAfter(m, s, s.tokens, s.spilled)
  {
  }

  lemma DiskSoon(m: Model, s: SeqState, before: seq<Token>, spilled: seq<set<nat>>)
    requires s.tokens != before && ReadTo(m, s, |m.blocks|)
    ensures DiskAfter(m, s, before, spilled)
  {
  }

  /** The chunk loop. The window of kept states rolls across chunks. */
  method Consume(m: Model, s: SeqState, unseen: seq<Token>, nLast: nat, size: nat) returns (r: Option<seq<Vec>>)
    requires m.Valid() && s.Valid(m) && |s.tokens| + |unseen| <= s.capacity && size > 0
    modifies s`cells, s`spilled, s`tokens
    ensures s.Valid(m)
    ensures r.Some? <==> AllBelow(unseen, m.vocab)
    ensures r.Some? ==>
      s.tokens == old(s.tokens) + unseen && |r.value| == Min(nLast, |unseen|) && TailIs(m, s.tokens, r.value)
    ensures old(s.tokens) <= s.tokens <= old(s.tokens) + unseen
    ensures r.None? ==> |s.tokens| < |old(s.tokens)| + |unseen|
    ensures CopiesKept(old(s.cells), s.cells)
    ensures s.recording ==> Recorded(m, s.cells, |old(s.tokens)|, |s.tokens|)
    ensures DiskAfter(m, s, old(s.tokens), old(s.spilled))
  {
    var done := 0;
    var tail: seq<Vec> := [];
    KeptNow(s.cells);
    hide Model.Valid, CellsOk, NothingOnDisk, UpTo, TailIs, HiddenAre, CopiesKept, Recorded, DiskAfter;
    DiskNow(m, s);
    while done < |unseen|
      invariant done <= |unseen| && AllBelow(unseen[..done], m.vocab)
      invariant s.Valid(m) && s.tokens == old(s.tokens) + unseen[..done]
      invariant |tail| == Min(nLast, done) && TailIs(m, s.tokens, tail)
      invariant CopiesKept(old(s.cells), s.cells)
      invariant s.recording ==> Recorded(m, s.cells, |old(s.tokens)|, |s.tokens|)
      invariant DiskAfter(m, s, old(s.tokens), old(s.spilled))
    {
      var upTo := Min(done + size, |unseen|);
      var chunk: seq<Token> := unseen[done..upTo];
      assert unseen[..upTo] == unseen[..done] + chunk;
      var xs := EmbedChunk(m, s.cells, s.recording, chunk);
      if xs.None? {
        return None;
      }
      tail := OneChunk(m, s, chunk, xs.value, tail, nLast, old(s.cells), |old(s.tokens)|);
      DiskSoon(m, s, old(s.tokens), old(s.spilled));
      done := upTo;
    }
    assert unseen[..done] == unseen;
    return Some(tail);
  }

  method OneChunk(
    m: Model, s: SeqState, chunk: seq<Token>, embedded: seq<Vec>, tail: seq<Vec>, nLast: nat, ghost cells: seq<Cell>, ghost from: nat)
    returns (tail': seq<Vec>)
    requires m.Valid() && s.Valid(m) && |s.tokens| + |chunk| <= s.capacity
    requires UpTo(m, s.cells, s.recording, chunk, 0, s.cells, embedded) && TailIs(m, s.tokens, tail)
    requires CopiesKept(cells, s.cells) && (s.recording ==> Recorded(m, s.cells, from, |s.tokens|))
    modifies s`cells, s`spilled, s`tokens
    ensures s.Valid(m) && s.tokens == old(s.tokens) + chunk
    ensures |tail'| == Min(nLast, |tail| + |chunk|) && TailIs(m, s.tokens, tail')
    ensures CopiesKept(cells, s.cells) && (s.recording ==> Recorded(m, s.cells, from, |s.tokens|))
    ensures chunk != [] ==> ReadTo(m, s, |m.blocks|)
  {
    hide Model.Valid, CellsOk, NothingOnDisk, UpTo, TailIs, CopiesKept, Recorded, ReadTo;
    var xs := ForwardChunk(m, s, chunk, embedded);
    KeptOver(cells, old(s.cells), s.cells);
    if s.recording {
      RecordedOver(m, old(s.cells), s.cells, from, |old(s.tokens)|, |s.tokens|);
    }
    TailMore(m, old(s.tokens), tail, chunk, xs);
    tail' := tail + xs;
    if |tail'| > nLast {
      TailDrop(m, s.tokens, tail', |tail'| - nLast);
      tail' := tail'[|tail'| - nLast..];
    }
  }

  // ---------------------------------------------------------------- answers

  /** Answer `i` of `n` is what stopping at that prefix of `all` gives. */
  ghost predicate AnswersAre(m: Model, all: seq<Token>, answers: seq<Vec>)
    requires m.Valid()
  {
    |answers| <= |all| && forall i :: 0 <= i < |answers| ==> answers[i] == m.Answer(Hidden(m, all[..|all| - |answers| + i + 1]))
  }

  lemma AnswersFromTail(m: Model, all: seq<Token>, tail: seq<Vec>, answers: seq<Vec>)
    requires m.Valid() && TailIs(m, all, tail) && |answers| == |tail|
    requires forall i :: 0 <= i < |tail| ==> answers[i] == m.Answer(tail[i])
    ensures AnswersAre(m, all, answers)
  {
    hide Hidden;
    forall i: nat | i < |answers| ensures answers[i] == m.Answer(Hidden(m, all[..|all| - |answers| + i + 1])) {
      assert TailAt(m, all, tail, i);
    }
  }

  lemma LastOfTail(m: Model, all: seq<Token>, tail: seq<Vec>)
    requires m.Valid() && TailIs(m, all, tail) && |tail| == 1
    ensures all != [] && tail[0] == Hidden(m, all)
  {
    assert TailAt(m, all, tail, 0);
    assert all[..|all|] == all;
  }

  lemma OneAnswer(m: Model, all: seq<Token>, answer: Vec)
    requires m.Valid() && all != [] && answer == m.Answer(Hidden(m, all))
    ensures AnswersAre(m, all, [answer])
  {
    assert all[..|all|] == all;
  }

  /** A failing pass may have absorbed some of what was unseen, in order. */
  predicate Partly(before: seq<Token>, context: seq<Token>, after: seq<Token>) {
    && before <= after
    && (|before| <= |context| ==> after <= before + context[|before|..])
  }

  /** `logits`: the answer for the last position. */
  method Logits(m: Model, s: SeqState, context: seq<Token>, prefillChunk: nat) returns (r: Result<Vec, Failure>)
    requires m.Valid() && s.Valid(m)
    modifies s`cells, s`spilled, s`tokens
    ensures s.Valid(m)
    ensures
      var had := |old(s.tokens)|;
      r.Ok? <==> had < |context| <= s.capacity && AllBelow(context[had..], m.vocab)
    ensures r.Ok? ==>
      && s.tokens == old(s.tokens) + context[|old(s.tokens)|..]
      && s.tokens != [] && r.value == m.Answer(Hidden(m, s.tokens))
    ensures r.Err? ==> Partly(old(s.tokens), context, s.tokens)
    ensures r.Err? && |old(s.tokens)| < |context| ==> |s.tokens| < |context|
    ensures CopiesKept(old(s.cells), s.cells) && DiskAfter(m, s, old(s.tokens), old(s.spilled))
  {
    hide CopiesKept, Recorded, CellsOk, NothingOnDisk, Model.Valid, AllBelow, TailIs, Hidden;
    var tail := ForwardTail(m, s, context, 1, prefillChunk);
    if tail.Err? {
      return Err(tail.error);
    }
    LastOfTail(m, s.tokens, tail.value);
    var answer := Matvec(m.k, m.head, m.outputNorm(tail.value[0]));
    return Ok(answer);
  }

  method HeadAll(m: Model, tail: seq<Vec>) returns (answers: seq<Vec>)
    ensures |answers| == |tail| && forall i :: 0 <= i < |tail| ==> answers[i] == m.Answer(tail[i])
  {
    answers := [];
    for i := 0 to |tail|
      invariant |answers| == i && forall j :: 0 <= j < i ==> answers[j] == m.Answer(tail[j])
    {
      var answer := Matvec(m.k, m.head, m.outputNorm(tail[i]));
      answers := answers + [answer];
    }
  }

  lemma ClearedOk(m: Model, tokens: seq<Token>, before: seq<Cell>, after: seq<Cell>)
    requires m.Valid() && CellsOk(m, tokens, before) && |after| == |before|
    requires forall l :: 0 <= l < |after| ==> after[l] == Cleared(before[l])
    ensures CellsOk(m, tokens, after)
  {
    hide Model.Valid, StateAfter;
    forall l: nat | l < |after| ensures CellOk(m, tokens, l, after[l]) {
      assert CellOk(m, tokens, l, before[l]);
    }
  }

  /** `logits_multi` of the hybrid backend: the answers at the last `n` positions from one pass. For
    * more than one it records, and then a copy from every position of the round is held. */
  method LogitsMulti(m: Model, s: SeqState, context: seq<Token>, n: nat, prefillChunk: nat) returns (r: Result<seq<Vec>, Failure>)
    requires m.Valid() && s.Valid(m) && !s.recording
    modifies s`cells, s`spilled, s`tokens, s`recording
    ensures s.Valid(m) && !s.recording
    ensures
      var had := |old(s.tokens)|;
      r.Ok? <==> had < |context| <= s.capacity && AllBelow(context[had..], m.vocab) && n <= |context| - had
    ensures r.Ok? ==>
      && s.tokens == old(s.tokens) + context[|old(s.tokens)|..]
      && |r.value| == n && AnswersAre(m, s.tokens, r.value)
    ensures r.Err? ==> Partly(old(s.tokens), context, s.tokens)
    ensures r.Err? && n == 1 && |old(s.tokens)| < |context| ==> |s.tokens| < |context|
    ensures n == 1 ==> CopiesKept(old(s.cells), s.cells)
    ensures n != 1 ==> Recorded(m, s.cells, |old(s.tokens)|, |s.tokens|)
    ensures DiskAfter(m, s, old(s.tokens), old(s.spilled))
  {
    hide CopiesKept, Recorded, CellsOk, NothingOnDisk, Model.Valid, AllBelow, AnswersAre, Model.Answer;
    if n == 1 {
      var one := Logits(m, s, context, prefillChunk);
      if one.Err? {
        return Err(one.error);
      }
      OneAnswer(m, s.tokens, one.value);
      return Ok([one.value]);
    }
    r := RecordedRound(m, s, context, n, prefillChunk);
  }

  method RecordedRound(m: Model, s: SeqState, context: seq<Token>, n: nat, prefillChunk: nat) returns (r: Result<seq<Vec>, Failure>)
    requires m.Valid() && s.Valid(m) && !s.recording
    modifies s`cells, s`spilled, s`tokens, s`recording
    ensures s.Valid(m) && !s.recording
    ensures
      var had := |old(s.tokens)|;
      r.Ok? <==> had < |context| <= s.capacity && AllBelow(context[had..], m.vocab) && n <= |context| - had
    ensures r.Ok? ==>
      && s.tokens == old(s.tokens) + context[|old(s.tokens)|..]
      && |r.value| == n && AnswersAre(m, s.tokens, r.value)
    ensures r.Err? ==> Partly(old(s.tokens), context, s.tokens)
    ensures Recorded(m, s.cells, |old(s.tokens)|, |s.tokens|)
    ensures DiskAfter(m, s, old(s.tokens), old(s.spilled))
  {
    hide CopiesKept, Recorded, CellsOk, NothingOnDisk, Model.Valid, TailIs, AnswersAre, AllBelow;
    s.BeginRecording();
    ClearedOk(m, s.tokens, old(s.cells), s.cells);
    var tail := ForwardTail(m, s, context, n, prefillChunk);
    s.EndRecording();
    if tail.Err? {
      return Err(tail.error);
    }
    var answers := HeadAll(m, tail.value);
    AnswersFromTail(m, s.tokens, tail.value, answers);
    return Ok(answers);
  }
}
