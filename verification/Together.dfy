/** One decode step of many sequences in one pass over the weights. */
module Together {
  import opened Basics
  import opened Experts
  import opened Forward
  import opened Hybrid
  import opened Passes
  import opened Rounds

  /** What stepping one sequence alone gives: its context absorbed, and the answer for its end. */
  ghost predicate Answered(m: Model, tokens: seq<Token>, context: seq<Token>, tokens': seq<Token>, answer: Vec)
    requires m.Valid()
  {
    |tokens| < |context| && tokens' == tokens + context[|tokens|..] && answer == m.Answer(Hidden(m, tokens'))
  }

  /** Sequence `s`, which began as `before`, has put its token `t` through the layers below `l`. */
  ghost predicate Part(m: Model, before: seq<Cell>, s: SeqState, t: Token, l: nat, x: Vec)
    requires m.Valid()
    reads s`cells, s`spilled, s`recording
  {
    && l <= |m.blocks| == |before| && s.Shaped(|m.blocks|) && UpTo(m, before, s.recording, [t], l, s.cells, [x])
    && ReadTo(m, s, l)
  }

  lemma MetOneIsAll(b: Block, l: nat, recording: bool, x: Vec, before: seq<Cell>, after: seq<Cell>, z: Vec)
    requires b.Valid() && |x| == b.d && l < |before| && MetOne(b, l, recording, x, before, after, z)
    ensures MetAll(b, l, recording, [x], before, after, [z])
  {
    assert [x][..0] == [];
  }

  lemma PartNext(m: Model, before: seq<Cell>, recording: bool, t: Token, l: nat, cells: seq<Cell>, x: Vec, cells': seq<Cell>, z: Vec)
    requires m.Valid() && l < |m.blocks| == |before| && UpTo(m, before, recording, [t], l, cells, [x])
    requires m.blocks[l].Valid() && |x| == m.blocks[l].d && l < |cells| && MetOne(m.blocks[l], l, recording, x, cells, cells', z)
    ensures UpTo(m, before, recording, [t], l + 1, cells', [z])
    ensures |cells'| == |cells| && forall k :: 0 <= k < |cells| && k != l ==> cells'[k] == cells[k]
  {
    hide Model.Valid, Block.Valid, UpTo, MetOne, MetAll;
    MetOneIsAll(m.blocks[l], l, recording, x, cells, cells', z);
    UpToNext(m, before, recording, [t], l, cells, [x], cells', [z]);
    OtherLayers(m.blocks[l], l, recording, [x], cells, cells', [z]);
  }

  method NextLayerEach(
    m: Model, seqs: seq<SeqState>, ghost befores: seq<seq<Cell>>, ghost ts: seq<Token>, l: nat, xs: seq<Vec>, ghost next: nat)
    returns (zs: seq<Vec>)
    requires m.Valid() && Separate(seqs) && |befores| == |ts| == |xs| == |seqs| && l < |m.blocks| && next == l + 1
    requires forall i :: 0 <= i < |seqs| ==> Part(m, befores[i], seqs[i], ts[i], l, xs[i])
    modifies seqs`cells, seqs`spilled
    ensures |zs| == |xs|
    ensures forall i :: 0 <= i < |seqs| ==> Part(m, befores[i], seqs[i], ts[i], next, zs[i])
  {
    hide Model.Valid, Block.Valid, UpTo, MetOne, NothingOnDisk, ReadBack, ReadLayer;
    BlockFits(m, l);
    forall i | 0 <= i < |xs| ensures |xs[i]| == m.d {
      StillWide(m, befores[i], seqs[i].recording, [ts[i]], l, seqs[i].cells, [xs[i]]);
      assert |[xs[i]][0]| == m.d;
    }
    zs := RunLayer(m.blocks[l], l, xs, PerToken(seqs));
    forall i | 0 <= i < |seqs| ensures Part(m, befores[i], seqs[i], ts[i], next, zs[i]) {
      PartNext(m, befores[i], seqs[i].recording, ts[i], l, old(seqs[i].cells), xs[i], seqs[i].cells, zs[i]);
      ReadNext(m, l, old(seqs[i].cells), old(seqs[i].spilled), seqs[i].cells, seqs[i].spilled, seqs[i].blockSize);
    }
  }

  /** Output norm and head over the whole batch at once. */
  method AnswerAll(m: Model, xs: seq<Vec>) returns (answers: seq<Vec>)
    requires m.Valid()
    ensures |answers| == |xs| && forall i :: 0 <= i < |xs| ==> answers[i] == m.Answer(xs[i])
  {
    var n := |xs|;
    var flat := Flatten(seq(n, i requires 0 <= i < n => m.outputNorm(xs[i])), m.d);
    var out := Matmul(m.k, m.head, m.d, flat, n);
    answers := seq(n, i requires 0 <= i < n => Chunk(out, i, |m.head|));
    forall i: nat | i < n ensures answers[i] == m.Answer(xs[i]) {
      assert ProductAt(m.k, m.head, m.d, flat, out, i);
    }
  }

  lemma PartEnds(m: Model, tokens: seq<Token>, before: seq<Cell>, recording: bool, t: Token, cells: seq<Cell>, x: Vec)
    requires m.Valid() && CellsOk(m, tokens, before) && UpTo(m, before, recording, [t], |m.blocks|, cells, [x])
    ensures CellsOk(m, tokens + [t], cells) && x == Hidden(m, tokens + [t])
  {
    hide Model.Valid, CellsOk, UpTo, Hidden, HiddenAre, CopiesKept, Recorded;
    ChunkEnds(m, tokens, before, recording, [t], cells, [x]);
    HiddenOne(m, tokens, t, x);
  }

  lemma HiddenOne(m: Model, tokens: seq<Token>, t: Token, x: Vec)
    requires m.Valid() && HiddenAre(m, tokens, [t], [x])
    ensures x == Hidden(m, tokens + [t])
  {
    hide Hidden;
    assert [x][0] == Hidden(m, tokens + [t][..0 + 1]);
    assert [t][..0 + 1] == [t];
  }

  /** Each sequence takes its token note once its last layer has run. */
  ghost method Absorb(m: Model, seqs: seq<SeqState>, befores: seq<seq<Cell>>, ts: seq<Token>, xs: seq<Vec>)
    requires m.Valid() && Separate(seqs) && |befores| == |ts| == |xs| == |seqs|
    requires forall i :: 0 <= i < |seqs| ==> Done(m, befores[i], seqs[i], ts[i], xs[i])
    modifies seqs`tokens
    ensures forall i :: 0 <= i < |seqs| ==>
      seqs[i].Valid(m) && seqs[i].tokens == old(seqs[i].tokens) + [ts[i]] && xs[i] == Hidden(m, seqs[i].tokens)
    ensures forall i :: 0 <= i < |seqs| ==> ReadTo(m, seqs[i], |m.blocks|)
  {
    hide Model.Valid, CellsOk, UpTo, NothingOnDisk, Hidden;
    for k := 0 to |seqs|
      invariant forall i :: 0 <= i < k ==>
        seqs[i].Valid(m) && seqs[i].tokens == old(seqs[i].tokens) + [ts[i]] && xs[i] == Hidden(m, seqs[i].tokens)
      invariant forall i :: k <= i < |seqs| ==> Done(m, befores[i], seqs[i], ts[i], xs[i])
      invariant forall i :: k <= i < |seqs| ==> seqs[i].tokens == old(seqs[i].tokens)
    {
      PartEnds(m, seqs[k].tokens, befores[k], seqs[k].recording, ts[k], seqs[k].cells, xs[k]);
      seqs[k].tokens := seqs[k].tokens + [ts[k]];
    }
  }

  /** Every layer of `s` has met its token, and there is room for it. */
  ghost predicate Done(m: Model, before: seq<Cell>, s: SeqState, t: Token, x: Vec)
    requires m.Valid()
    reads s`cells, s`spilled, s`recording, s`tokens
  {
    CellsOk(m, s.tokens, before) && |s.tokens| < s.capacity && Part(m, before, s, t, |m.blocks|, x)
  }

  /** The batched step: one token of each sequence, all layers, one pass. */
  method StepTogether(m: Model, seqs: seq<SeqState>, ts: seq<Token>) returns (answers: seq<Vec>)
    requires m.Valid() && Separate(seqs) && |ts| == |seqs|
    requires forall i :: 0 <= i < |seqs| ==> seqs[i].Valid(m) && |seqs[i].tokens| < seqs[i].capacity
    modifies seqs`cells, seqs`spilled, seqs`tokens
    ensures |answers| == |seqs|
    ensures forall i :: 0 <= i < |seqs| ==>
      && seqs[i].Valid(m) && seqs[i].tokens == old(seqs[i].tokens) + [ts[i]]
      && answers[i] == m.Answer(Hidden(m, seqs[i].tokens))
      && ReadTo(m, seqs[i], |m.blocks|)
  {
    hide Model.Valid, CellsOk, UpTo, NothingOnDisk, Hidden, Model.Answer;
    var n := |seqs|;
    ghost var befores := seq(n, i requires 0 <= i < n reads seqs => seqs[i].cells);
    var xs := EmbedEach(m, ts);
    forall i | 0 <= i < n ensures Part(m, befores[i], seqs[i], ts[i], 0, xs[i]) {
      PartStart(m, befores[i], seqs[i].recording, ts[i], xs[i]);
    }
    xs := LayersEach(m, seqs, befores, ts, xs);
    forall i | 0 <= i < n ensures Done(m, befores[i], seqs[i], ts[i], xs[i]) {
      assert Part(m, befores[i], seqs[i], ts[i], |m.blocks|, xs[i]);
    }
    answers := AnswerAll(m, xs);
    Absorb(m, seqs, befores, ts, xs);
  }

  lemma PartStart(m: Model, before: seq<Cell>, recording: bool, t: Token, x: Vec)
    requires m.Valid() && |before| == |m.blocks| && x == m.embed(t)
    ensures UpTo(m, before, recording, [t], 0, before, [x])
  {
    assert Embedded(m, [t]) == [x];
    UpToStart(m, before, recording, [t], [x]);
  }

  method EmbedEach(m: Model, ts: seq<Token>) returns (xs: seq<Vec>)
    ensures |xs| == |ts| && forall i :: 0 <= i < |ts| ==> xs[i] == m.embed(ts[i])
  {
    xs := [];
    for i := 0 to |ts|
      invariant |xs| == i && forall j :: 0 <= j < i ==> xs[j] == m.embed(ts[j])
    {
      xs := xs + [m.embed(ts[i])];
    }
  }

  method LayersEach(m: Model, seqs: seq<SeqState>, ghost befores: seq<seq<Cell>>, ghost ts: seq<Token>, embedded: seq<Vec>)
    returns (xs: seq<Vec>)
    requires m.Valid() && Separate(seqs) && |befores| == |ts| == |embedded| == |seqs|
    requires forall i :: 0 <= i < |seqs| ==> Part(m, befores[i], seqs[i], ts[i], 0, embedded[i])
    modifies seqs`cells, seqs`spilled
    ensures |xs| == |seqs|
    ensures forall i :: 0 <= i < |seqs| ==> Part(m, befores[i], seqs[i], ts[i], |m.blocks|, xs[i])
  {
    hide Model.Valid, UpTo, NothingOnDisk;
    xs := embedded;
    for l := 0 to |m.blocks|
      invariant |xs| == |seqs|
      invariant forall i :: 0 <= i < |seqs| ==> Part(m, befores[i], seqs[i], ts[i], l, xs[i])
    {
      xs := NextLayerEach(m, seqs, befores, ts, l, xs, l + 1);
    }
  }

  /** When a sequence's turn succeeds. */
  predicate TurnFits(m: Model, tokens: seq<Token>, context: seq<Token>, capacity: nat) {
    |tokens| < |context| <= capacity && AllBelow(context[|tokens|..], m.vocab)
  }

  /** A sequence has had its turn: its context is absorbed. */
  ghost predicate Took(m: Model, tokens: seq<Token>, spilled: seq<set<nat>>, context: seq<Token>, s: SeqState)
    reads s`cells, s`spilled, s`tokens
  {
    |tokens| < |context| && s.tokens == tokens + context[|tokens|..] && DiskAfter(m, s, tokens, spilled)
  }

  /** A sequence's turn failed part of the way; a single new token leaves nothing. */
  ghost predicate Stumbled(m: Model, tokens: seq<Token>, spilled: seq<set<nat>>, context: seq<Token>, s: SeqState)
    reads s`cells, s`spilled, s`tokens
  {
    && Partly(tokens, context, s.tokens) && DiskAfter(m, s, tokens, spilled)
    && (|context| == |tokens| + 1 ==> s.tokens == tokens)
  }

  ghost function TokensOf(seqs: seq<SeqState>): (r: seq<seq<Token>>)
    reads seqs
    ensures |r| == |seqs| && forall i :: 0 <= i < |seqs| ==> r[i] == seqs[i].tokens
  {
    seq(|seqs|, i requires 0 <= i < |seqs| reads seqs => seqs[i].tokens)
  }

  ghost function CellsOf(seqs: seq<SeqState>): (r: seq<seq<Cell>>)
    reads seqs
    ensures |r| == |seqs| && forall i :: 0 <= i < |seqs| ==> r[i] == seqs[i].cells
  {
    seq(|seqs|, i requires 0 <= i < |seqs| reads seqs => seqs[i].cells)
  }

  ghost function SpilledOf(seqs: seq<SeqState>): (r: seq<seq<set<nat>>>)
    reads seqs
    ensures |r| == |seqs| && forall i :: 0 <= i < |seqs| ==> r[i] == seqs[i].spilled
  {
    seq(|seqs|, i requires 0 <= i < |seqs| reads seqs => seqs[i].spilled)
  }

  /** One new token for each of several sequences. */
  predicate OneStepEach(contexts: seq<seq<Token>>, tokens: seq<seq<Token>>) {
    |contexts| == |tokens| > 1 && forall i :: 0 <= i < |tokens| ==> |contexts[i]| == |tokens[i]| + 1
  }

  /** The sequences from `from` on are as they were. */
  ghost predicate Untouched(
    seqs: seq<SeqState>, tokens: seq<seq<Token>>, cells: seq<seq<Cell>>, spilled: seq<seq<set<nat>>>, from: nat)
    reads seqs
  {
    && |tokens| == |cells| == |spilled| == |seqs|
    && forall i :: from <= i < |seqs| ==>
      seqs[i].tokens == tokens[i] && seqs[i].cells == cells[i] && seqs[i].spilled == spilled[i]
  }

  /** What a batch leaves of sequences that had `tokens`, `cells` and `spilled`. If it went through,
    * every one has had its turn, and that is when each of them fits. A batch of one step each that
    * does not go through leaves everything as it was; any other stops at `at`, the first that does
    * not fit, with the ones before it stepped and the ones after it untouched. */
  ghost predicate BatchLeaves(
    m: Model, contexts: seq<seq<Token>>, seqs: seq<SeqState>,
    tokens: seq<seq<Token>>, cells: seq<seq<Cell>>, spilled: seq<seq<set<nat>>>, ok: bool, at: nat)
    requires m.Valid()
    reads seqs
  {
    && |contexts| == |tokens| == |cells| == |spilled| == |seqs|
    && (ok <==> forall i :: 0 <= i < |seqs| ==> TurnFits(m, tokens[i], contexts[i], seqs[i].capacity))
    && (ok ==> forall i :: 0 <= i < |seqs| ==> Took(m, tokens[i], spilled[i], contexts[i], seqs[i]))
    && (!ok ==>
      if OneStepEach(contexts, tokens) then Untouched(seqs, tokens, cells, spilled, 0)
      else StoppedAt(m, contexts, seqs, tokens, cells, spilled, at))
  }

  ghost predicate StoppedAt(
    m: Model, contexts: seq<seq<Token>>, seqs: seq<SeqState>,
    tokens: seq<seq<Token>>, cells: seq<seq<Cell>>, spilled: seq<seq<set<nat>>>, at: nat)
    requires m.Valid()
    reads seqs
  {
    && |contexts| == |tokens| == |cells| == |spilled| == |seqs| && at < |seqs|
    && !TurnFits(m, tokens[at], contexts[at], seqs[at].capacity)
    && Stumbled(m, tokens[at], spilled[at], contexts[at], seqs[at]) && CopiesKept(cells[at], seqs[at].cells)
    && (forall i :: 0 <= i < at ==>
      TurnFits(m, tokens[i], contexts[i], seqs[i].capacity) && Took(m, tokens[i], spilled[i], contexts[i], seqs[i]))
    && Untouched(seqs, tokens, cells, spilled, at + 1)
  }

  /** `logits_batch`. With one new token each, everything is checked before any state is touched and
    * all sequences share one pass; otherwise they run one after another until one fails. Each
    * sequence that was reached ends as if it had been stepped alone, with the answer it would have
    * been given alone. `at` is the sequence a failing batch failed at. */
  method LogitsBatch(m: Model, contexts: seq<seq<Token>>, seqs: seq<SeqState>, prefillChunk: nat)
    returns (r: Result<seq<Vec>, Failure>, ghost at: nat)
    requires m.Valid() && Separate(seqs) && |contexts| == |seqs|
    requires forall i :: 0 <= i < |seqs| ==> seqs[i].Valid(m)
    modifies seqs`cells, seqs`spilled, seqs`tokens
    ensures forall i :: 0 <= i < |seqs| ==> seqs[i].Valid(m)
    ensures BatchLeaves(m, contexts, seqs, old(TokensOf(seqs)), old(CellsOf(seqs)), old(SpilledOf(seqs)), r.Ok?, at)
    ensures r.Ok? ==> |r.value| == |seqs| && forall i :: 0 <= i < |seqs| ==>
      Answered(m, old(seqs[i].tokens), contexts[i], seqs[i].tokens, r.value[i])
  {
    hide Model.Valid, CellsOk, NothingOnDisk, Hidden, Model.Answer, CopiesKept, AllBelow, ReadTo;
    at := 0;
    var n := |seqs|;
    forall i | 0 <= i < n ensures seqs[i].Len() == |seqs[i].tokens| {
      SameLength(m, seqs[i]);
    }
    if n > 1 && forall i :: 0 <= i < n ==> |contexts[i]| == seqs[i].Len() + 1 {
      r := Checked(m, contexts, seqs);
    } else {
      r, at := InTurn(m, contexts, seqs, prefillChunk);
    }
  }

  /** One new token each: look at everything, then step together. */
  method Checked(m: Model, contexts: seq<seq<Token>>, seqs: seq<SeqState>) returns (r: Result<seq<Vec>, Failure>)
    requires m.Valid() && Separate(seqs) && |contexts| == |seqs|
    requires forall i :: 0 <= i < |seqs| ==> seqs[i].Valid(m) && |contexts[i]| == |seqs[i].tokens| + 1
    modifies seqs`cells, seqs`spilled, seqs`tokens
    ensures forall i :: 0 <= i < |seqs| ==> seqs[i].Valid(m)
    ensures r.Ok? <==> forall i :: 0 <= i < |seqs| ==> TurnFits(m, old(seqs[i].tokens), contexts[i], seqs[i].capacity)
    ensures r.Ok? ==> |r.value| == |seqs| && forall i :: 0 <= i < |seqs| ==>
      && Answered(m, old(seqs[i].tokens), contexts[i], seqs[i].tokens, r.value[i])
      && Took(m, old(seqs[i].tokens), old(seqs[i].spilled), contexts[i], seqs[i])
    ensures r.Err? ==> forall i :: 0 <= i < |seqs| ==>
      seqs[i].tokens == old(seqs[i].tokens) && seqs[i].cells == old(seqs[i].cells) && seqs[i].spilled == old(seqs[i].spilled)
  {
    hide Model.Valid, CellsOk, NothingOnDisk, Hidden, Model.Answer, ReadTo;
    var n := |seqs|;
    for k := 0 to n
      invariant forall i :: 0 <= i < k ==> TurnFits(m, seqs[i].tokens, contexts[i], seqs[i].capacity)
    {
      var last := contexts[k][|contexts[k]| - 1];
      assert contexts[k][|seqs[k].tokens|..] == [last];
      if last >= m.vocab {
        assert !AllBelow([last], m.vocab);
        return Err(BadToken);
      }
      if |contexts[k]| > seqs[k].capacity {
        return Err(Full);
      }
    }
    var answers := StepTogether(m, seqs, seq(n, i requires 0 <= i < n => contexts[i][|contexts[i]| - 1]));
    forall i | 0 <= i < n
      ensures Answered(m, old(seqs[i].tokens), contexts[i], seqs[i].tokens, answers[i])
      ensures Took(m, old(seqs[i].tokens), old(seqs[i].spilled), contexts[i], seqs[i])
    {
      assert contexts[i][|contexts[i]| - 1..] == [contexts[i][|contexts[i]| - 1]];
    }
    return Ok(answers);
  }

  /** One sequence's turn. */
  method TakeTurn(m: Model, s: SeqState, context: seq<Token>, prefillChunk: nat) returns (one: Result<Vec, Failure>)
    requires m.Valid() && s.Valid(m)
    modifies s`cells, s`spilled, s`tokens
    ensures s.Valid(m) && CopiesKept(old(s.cells), s.cells)
    ensures one.Ok? <==> TurnFits(m, old(s.tokens), context, s.capacity)
    ensures one.Ok? ==>
      Answered(m, old(s.tokens), context, s.tokens, one.value) && Took(m, old(s.tokens), old(s.spilled), context, s)
    ensures one.Err? ==> Stumbled(m, old(s.tokens), old(s.spilled), context, s)
  {
    hide Model.Valid, CellsOk, NothingOnDisk, Hidden, Model.Answer, CopiesKept, AllBelow, ReadTo;
    one := Logits(m, s, context, prefillChunk);
  }

  /** A sequence whose turn is over and went well. */
  ghost predicate Served(m: Model, tokens: seq<Token>, spilled: seq<set<nat>>, context: seq<Token>, s: SeqState, answer: Vec)
    requires m.Valid()
    reads s
  {
    Answered(m, tokens, context, s.tokens, answer) && TurnFits(m, tokens, context, s.capacity) && Took(m, tokens, spilled, context, s)
  }

  ghost predicate AllValid(m: Model, seqs: seq<SeqState>)
    requires m.Valid()
    reads seqs
  {
    forall i :: 0 <= i < |seqs| ==> seqs[i].Valid(m)
  }

  /** The first sequences have had their turns, with these answers; the rest are as they were. */
  ghost predicate Serving(
    m: Model, contexts: seq<seq<Token>>, seqs: seq<SeqState>,
    tokens: seq<seq<Token>>, cells: seq<seq<Cell>>, spilled: seq<seq<set<nat>>>, answers: seq<Vec>)
    requires m.Valid()
    reads seqs
  {
    && |contexts| == |tokens| == |cells| == |spilled| == |seqs| && |answers| <= |seqs| && AllValid(m, seqs)
    && (forall i :: 0 <= i < |answers| ==> Served(m, tokens[i], spilled[i], contexts[i], seqs[i], answers[i]))
    && Untouched(seqs, tokens, cells, spilled, |answers|)
  }

  method ServeNext(
    m: Model, contexts: seq<seq<Token>>, seqs: seq<SeqState>, prefillChunk: nat, answers: seq<Vec>,
    ghost tokens: seq<seq<Token>>, ghost cells: seq<seq<Cell>>, ghost spilled: seq<seq<set<nat>>>)
    returns (one: Result<Vec, Failure>)
    requires m.Valid() && Separate(seqs) && Serving(m, contexts, seqs, tokens, cells, spilled, answers) && |answers| < |seqs|
    modifies seqs`cells, seqs`spilled, seqs`tokens
    ensures one.Ok? ==> Serving(m, contexts, seqs, tokens, cells, spilled, answers + [one.value])
    ensures one.Err? ==> AllValid(m, seqs) && StoppedAt(m, contexts, seqs, tokens, cells, spilled, |answers|)
  {
    hide Model.Valid, CellsOk, NothingOnDisk, Answered, CopiesKept, TurnFits, Took, Stumbled;
    one := TakeTurn(m, seqs[|answers|], contexts[|answers|], prefillChunk);
  }

  lemma ServedAll(
    m: Model, contexts: seq<seq<Token>>, seqs: seq<SeqState>,
    tokens: seq<seq<Token>>, cells: seq<seq<Cell>>, spilled: seq<seq<set<nat>>>, answers: seq<Vec>)
    requires m.Valid() && Serving(m, contexts, seqs, tokens, cells, spilled, answers) && |answers| == |seqs|
    ensures AllValid(m, seqs) && forall i :: 0 <= i < |seqs| ==>
      && TurnFits(m, tokens[i], contexts[i], seqs[i].capacity)
      && Answered(m, tokens[i], contexts[i], seqs[i].tokens, answers[i])
      && Took(m, tokens[i], spilled[i], contexts[i], seqs[i])
  {
    hide Model.Valid, AllValid, Answered, TurnFits, Took;
  }

  /** One after another, stopping at the first that fails. */
  method InTurn(m: Model, contexts: seq<seq<Token>>, seqs: seq<SeqState>, prefillChunk: nat)
    returns (r: Result<seq<Vec>, Failure>, ghost at: nat)
    requires m.Valid() && Separate(seqs) && |contexts| == |seqs|
    requires forall i :: 0 <= i < |seqs| ==> seqs[i].Valid(m)
    modifies seqs`cells, seqs`spilled, seqs`tokens
    ensures forall i :: 0 <= i < |seqs| ==> seqs[i].Valid(m)
    ensures r.Ok? <==> forall i :: 0 <= i < |seqs| ==> TurnFits(m, old(seqs[i].tokens), contexts[i], seqs[i].capacity)
    ensures r.Ok? ==> |r.value| == |seqs| && forall i :: 0 <= i < |seqs| ==>
      && Answered(m, old(seqs[i].tokens), contexts[i], seqs[i].tokens, r.value[i])
      && Took(m, old(seqs[i].tokens), old(seqs[i].spilled), contexts[i], seqs[i])
    ensures r.Err? ==>
      StoppedAt(m, contexts, seqs, old(TokensOf(seqs)), old(CellsOf(seqs)), old(SpilledOf(seqs)), at)
  {
    hide Model.Valid, SeqState.Valid, Answered, CopiesKept, TurnFits, Took, Stumbled, Served;
    ghost var tokens, cells, spilled := TokensOf(seqs), CellsOf(seqs), SpilledOf(seqs);
    var answers: seq<Vec> := [];
    at := 0;
    assert Serving(m, contexts, seqs, tokens, cells, spilled, answers);
    hide Serving;
    for k := 0 to |seqs|
      invariant |answers| == k && Serving(m, contexts, seqs, tokens, cells, spilled, answers)
    {
      var one := ServeNext(m, contexts, seqs, prefillChunk, answers, tokens, cells, spilled);
      if one.Err? {
        return Err(one.error), k;
      }
      answers := answers + [one.value];
    }
    ServedAll(m, contexts, seqs, tokens, cells, spilled, answers);
    return Ok(answers), 0;
  }
}
