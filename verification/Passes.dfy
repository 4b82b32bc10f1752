/** The backend's passes over mutable sequence state: prefill in chunks, answers for the last `n`
  * positions, one step of many sequences, and rolling a recorded round back. */
module Passes {
  import opened Basics
  import opened Experts
  import opened Forward
  import opened Hybrid

  predicate NothingOnDisk(spilled: seq<set<nat>>) {
    forall l :: 0 <= l < |spilled| ==> spilled[l] == {}
  }

  /** Block `b` ends at or before position `pos`. */
  predicate EndsBy(b: nat, blockSize: nat, pos: nat) { (b + 1) * blockSize <= pos }

  predicate AllEndBy(blocks: set<nat>, blockSize: nat, pos: nat) {
    forall b :: b in blocks ==> EndsBy(b, blockSize, pos)
  }

  /** The oldest position attention reads after `len` tokens. */
  function WindowStart(window: Option<nat>, len: nat): nat {
    match window
    case Some(w) => Max(len - w, 0)
    case None => 0
  }

  /** What may be on disk once a token has been through a layer: attention has read its window back
    * into memory, and a recurrent layer stores nothing that could be spilled. */
  predicate ReadBack(mixer: Mixer, onDisk: set<nat>, blockSize: nat, len: nat) {
    match mixer
    case Attention(window, _, _) => AllEndBy(onDisk, blockSize, WindowStart(window, len))
    case Recurrent(_, _) => onDisk == {}
  }

  class SeqState {
    const capacity: nat
    const blockSize: nat
    const hasStorage: bool
    var cells: seq<Cell>
    var spilled: seq<set<nat>>
    var recording: bool

    /** The tokens this state has absorbed. */
    ghost var tokens: seq<Token>

    constructor (layers: nat, capacity: nat, blockSize: nat, hasStorage: bool)
      requires layers > 0
      ensures Shaped(layers) && tokens == [] && !recording
      ensures this.capacity == Max(capacity, 1) && this.blockSize == Max(blockSize, 1) && this.hasStorage == hasStorage
      ensures cells == seq(layers, _ => Cell([], None)) && NothingOnDisk(spilled)
    {
      this.capacity, this.blockSize, this.hasStorage := Max(capacity, 1), Max(blockSize, 1), hasStorage;
      cells := seq(layers, _ => Cell([], None));
      spilled := seq(layers, _ => {});
      recording := false;
      tokens := [];
    }

    predicate Shaped(layers: nat)
      reads `cells, `spilled
    {
      && |cells| == |spilled| == layers > 0 && blockSize > 0
      && (!hasStorage ==> NothingOnDisk(spilled))
    }

    /** Every layer describes the tokens absorbed, and they fit the context window. */
    ghost predicate Valid(m: Model)
      requires m.Valid()
      reads `cells, `spilled, `tokens
    {
      Shaped(|m.blocks|) && CellsOk(m, tokens, cells) && |tokens| <= capacity
    }

    function Len(): nat
      requires cells != []
      reads `cells
    {
      |cells[0].items|
    }

    method BeginRecording()
      modifies `cells, `recording
      ensures recording && |cells| == |old(cells)|
      ensures forall l :: 0 <= l < |cells| ==> cells[l] == Cleared(old(cells[l]))
    {
      var was := cells;
      cells := seq(|was|, l requires 0 <= l < |was| => Cleared(was[l]));
      recording := true;
    }

    method EndRecording()
      modifies `recording
      ensures !recording
    {
      recording := false;
    }

    /** One token in layer `l`: an attention layer appends its pair and reads its window back; a
      * recurrent one is copied if the round is recorded, folds the token in, and counts it. Which
      * blocks outside the window end up on disk is the cache's business. */
    method MixOne(l: nat, mixer: Mixer, p: Vec) returns (context: Vec)
      requires l < |cells| == |spilled| && Shaped(|cells|)
      modifies `cells, `spilled
      ensures Shaped(|old(cells)|)
      ensures
        var next := MixCell(mixer, old(cells[l]), recording, p);
        cells == old(cells)[l := next.0] && context == next.1
      ensures ReadBack(mixer, spilled[l], blockSize, |cells[l].items|)
      ensures forall k :: 0 <= k < |spilled| && k != l ==> spilled[k] == old(spilled[k])
    {
      var cell := cells[l];
      var onDisk: set<nat> := {};
      match mixer {
        case Attention(window, entry, attend) =>
          var pos := |cell.items|;
          var items := cell.items + [entry(p, pos)];
          context := attend(p, pos, Seen(window, items));
          cells := cells[l := Cell(items, cell.linear)];
          if hasStorage {
            assert AllEndBy({}, blockSize, WindowStart(window, |items|));
            onDisk :| AllEndBy(onDisk, blockSize, WindowStart(window, |items|));
          }
        case Recurrent(zero, step) =>
          var linear := if cell.linear.Some? then cell.linear.value else Linear(zero, 0, []);
          if recording {
            linear := linear.(history := linear.history + [Copy(linear.folded, linear.memory)]);
          }
          var next := step(linear.memory, p);
          context := next.1;
          linear := linear.(memory := next.0, folded := linear.folded + 1);
          cells := cells[l := Cell(cell.items + [Pair([], [])], Some(linear))];
      }
      spilled := spilled[l := onDisk];
    }
  }

  function Cleared(cell: Cell): Cell {
    if cell.linear.Some? then Cell(cell.items, Some(cell.linear.value.(history := []))) else cell
  }

  /** Where each token of a batch keeps its state: all in one sequence, or each in its own. */
  datatype Targets = Shared(one: SeqState) | PerToken(each: seq<SeqState>) {
    function All(): set<SeqState> {
      match this
      case Shared(s) => {s}
      case PerToken(seqs) => set s | s in seqs
    }

    /** Every sequence has the layer, and no two tokens of a per-token batch share one. */
    ghost predicate Fit(l: nat, n: nat)
      reads All()`cells, All()`spilled
    {
      && (PerToken? ==> |each| == n && Separate(each))
      && forall s :: s in All() ==> l < |s.cells| && s.Shaped(|s.cells|)
    }
  }

  // ---------------------------------------------------------------- the batched parts of a layer

  method Flatten(vs: seq<Vec>, d: nat) returns (flat: Vec)
    requires Wide(vs, d)
    ensures Sized(flat, |vs|, d) && forall i: nat :: i < |vs| ==> Chunk(flat, i, d) == vs[i]
  {
    flat := [];
    for i := 0 to |vs|
      invariant Sized(flat, i, d) && forall j: nat :: j < i ==> Chunk(flat, j, d) == vs[j]
    {
      forall j: nat | j <= i ensures Chunk(flat + vs[i], j, d) == vs[j] {
        ChunkPush(flat, i, d, vs[i], j);
      }
      ChunkPush(flat, i, d, vs[i], 0);
      flat := flat + vs[i];
    }
  }

  /** Norm and project a whole batch at once. */
  method EnterAll(b: Block, xs: seq<Vec>) returns (ps: seq<Vec>)
    requires b.Valid()
    ensures |ps| == |xs| && forall i :: 0 <= i < |xs| ==> ps[i] == b.Enter(xs[i])
  {
    var n := |xs|;
    var hs := Flatten(seq(n, i requires 0 <= i < n => b.norm(xs[i])), b.d);
    var out := Matmul(b.k, b.win, b.d, hs, n);
    ps := seq(n, i requires 0 <= i < n => Chunk(out, i, |b.win|));
    forall i: nat | i < n ensures ps[i] == b.Enter(xs[i]) {
      assert ProductAt(b.k, b.win, b.d, hs, out, i);
    }
  }

  /** The output projection and residual of a whole batch. */
  method ProjectAll(b: Block, xs: seq<Vec>, contexts: seq<Vec>) returns (ys: seq<Vec>)
    requires b.Valid() && Wide(xs, b.d) && |contexts| == |xs| && Wide(contexts, b.c)
    ensures |ys| == |xs| && forall i :: 0 <= i < |xs| ==> ys[i] == b.Sum(xs[i], b.k.Apply(b.wout, contexts[i]))
  {
    var n := |xs|;
    var flat := Flatten(contexts, b.c);
    var out := Matmul(b.k, b.wout, b.c, flat, n);
    forall i: nat | i < n ensures Chunk(out, i, b.d) == b.k.Apply(b.wout, contexts[i]) {
      assert ProductAt(b.k, b.wout, b.c, flat, out, i);
    }
    ys := seq(n, i requires 0 <= i < n => b.Sum(xs[i], Chunk(out, i, b.d)));
  }

  /** The feed-forward and residual of a whole batch. */
  method FeedAll(b: Block, ys: seq<Vec>) returns (zs: seq<Vec>)
    requires b.Valid() && Wide(ys, b.d)
    ensures |zs| == |ys| && forall i :: 0 <= i < |ys| ==> zs[i] == b.Sum(ys[i], b.Feed(b.postNorm(ys[i])))
  {
    var n := |ys|;
    var normed := seq(n, i requires 0 <= i < n => b.postNorm(ys[i]));
    var hs := Flatten(normed, b.d);
    var out;
    match b.ffn {
      case Dense(w) =>
        out := ExpertBatch(w, 0, hs, n);
      case Moe(w, route) =>
        out := FeedForwardBatch(w, hs, seq(n, i requires 0 <= i < n => route(normed[i])));
    }
    zs := seq(n, i requires 0 <= i < n => b.Sum(ys[i], Chunk(out, i, b.d)));
  }

  method CloseAll(b: Block, xs: seq<Vec>, contexts: seq<Vec>) returns (zs: seq<Vec>)
    requires b.Valid() && Wide(xs, b.d) && |contexts| == |xs| && Wide(contexts, b.c)
    ensures |zs| == |xs| && forall i :: 0 <= i < |xs| ==> zs[i] == b.Close(xs[i], contexts[i])
  {
    var ys := ProjectAll(b, xs, contexts);
    zs := FeedAll(b, ys);
  }

  // ---------------------------------------------------------------- one layer

  /** Layer `l` of a sequence has met one token: `z` is the token's state after the layer. */
  ghost predicate MetOne(b: Block, l: nat, recording: bool, x: Vec, before: seq<Cell>, after: seq<Cell>, z: Vec)
    requires b.Valid() && |x| == b.d && l < |before|
  {
    var next := StepCell(b, before[l], recording, x);
    after == before[l := next.0] && z == next.1
  }

  /** Nothing was moved to or from disk in another layer. */
  predicate OnlyLayer(l: nat, before: seq<set<nat>>, after: seq<set<nat>>) {
    |after| == |before| && forall k :: 0 <= k < |before| && k != l ==> after[k] == before[k]
  }

  /** Layer `l` has read its window back. */
  predicate LayerRead(mixer: Mixer, l: nat, s: SeqState)
    reads s`cells, s`spilled
  {
    ReadLayer(mixer, l, s.cells, s.spilled, s.blockSize)
  }

  predicate ReadLayer(mixer: Mixer, l: nat, cells: seq<Cell>, spilled: seq<set<nat>>, blockSize: nat) {
    l < |cells| && l < |spilled| && ReadBack(mixer, spilled[l], blockSize, |cells[l].items|)
  }

  method StepOne(b: Block, l: nat, s: SeqState, ghost x: Vec, p: Vec) returns (context: Vec)
    requires b.Valid() && |x| == b.d && p == b.Enter(x)
    requires l < |s.cells| && s.Shaped(|s.cells|)
    modifies s`cells, s`spilled
    ensures s.Shaped(|old(s.cells)|) && |context| == b.c
    ensures MetOne(b, l, s.recording, x, old(s.cells), s.cells, b.Close(x, context))
    ensures LayerRead(b.mixer, l, s) && OnlyLayer(l, old(s.spilled), s.spilled)
  {
    context := s.MixOne(l, b.mixer, p);
  }

  /** Layer `l` of a sequence has met `xs` in order; `zs` are their states after the layer. */
  ghost predicate MetAll(
    b: Block, l: nat, recording: bool, xs: seq<Vec>, before: seq<Cell>, after: seq<Cell>, zs: seq<Vec>)
    requires b.Valid() && Wide(xs, b.d) && l < |before|
  {
    var run := RunCell(b, before[l], recording, xs);
    after == before[l := run.0] && zs == run.1
  }

  lemma MetMore(
    b: Block, l: nat, recording: bool, xs: seq<Vec>, i: nat,
    before: seq<Cell>, middle: seq<Cell>, after: seq<Cell>, zs: seq<Vec>, z: Vec)
    requires b.Valid() && Wide(xs, b.d) && l < |before| == |middle| && i < |xs|
    requires MetAll(b, l, recording, xs[..i], before, middle, zs) && MetOne(b, l, recording, xs[i], middle, after, z)
    ensures MetAll(b, l, recording, xs[..i + 1], before, after, zs + [z])
  {
    assert xs[..i + 1][..i] == xs[..i];
  }

  lemma OnlyNow(l: nat, a: seq<set<nat>>)
    ensures OnlyLayer(l, a, a)
  {
  }

  lemma OnlyThen(l: nat, a: seq<set<nat>>, b: seq<set<nat>>, c: seq<set<nat>>)
    requires OnlyLayer(l, a, b) && OnlyLayer(l, b, c)
    ensures OnlyLayer(l, a, c)
  {
  }

  /** The mixer over a batch of one sequence's tokens, in order. */
  method MixShared(b: Block, l: nat, s: SeqState, xs: seq<Vec>, ps: seq<Vec>)
    returns (contexts: seq<Vec>, ghost zs: seq<Vec>)
    requires b.Valid() && Wide(xs, b.d) && |ps| == |xs| && forall i :: 0 <= i < |xs| ==> ps[i] == b.Enter(xs[i])
    requires l < |s.cells| && s.Shaped(|s.cells|)
    modifies s`cells, s`spilled
    ensures s.Shaped(|old(s.cells)|) && |contexts| == |xs| == |zs| && Wide(contexts, b.c)
    ensures MetAll(b, l, s.recording, xs, old(s.cells), s.cells, zs)
    ensures forall i :: 0 <= i < |xs| ==> zs[i] == b.Close(xs[i], contexts[i])
    ensures OnlyLayer(l, old(s.spilled), s.spilled) && (xs != [] ==> LayerRead(b.mixer, l, s))
  {
    contexts, zs := [], [];
    ghost var before, spilled := s.cells, s.spilled;
    OnlyNow(l, s.spilled);
    assert Mixed(b, l, s, xs, before, spilled, contexts, zs);
    hide Block.Valid, Block.Close, Block.Enter, Mixed, NothingOnDisk, MetAll, OnlyLayer, LayerRead;
    for i := 0 to |xs|
      invariant |contexts| == i && Mixed(b, l, s, xs, before, spilled, contexts, zs)
    {
      var context;
      ghost var z;
      context, z := MixNext(b, l, s, xs, ps[i], before, spilled, contexts, zs);
      contexts, zs := contexts + [context], zs + [z];
    }
    AllMixed(b, l, s, xs, before, spilled, contexts, zs);
  }

  /** The first tokens have met the layer. */
  ghost predicate Mixed(
    b: Block, l: nat, s: SeqState, xs: seq<Vec>, before: seq<Cell>, spilled: seq<set<nat>>, contexts: seq<Vec>, zs: seq<Vec>)
    requires b.Valid() && Wide(xs, b.d) && l < |before|
    reads s`cells, s`spilled, s`recording
  {
    && s.Shaped(|before|) && |contexts| == |zs| <= |xs| && Wide(contexts, b.c)
    && MetAll(b, l, s.recording, xs[..|zs|], before, s.cells, zs)
    && (forall j :: 0 <= j < |zs| ==> zs[j] == b.Close(xs[j], contexts[j]))
    && OnlyLayer(l, spilled, s.spilled) && (zs != [] ==> LayerRead(b.mixer, l, s))
  }

  lemma AllMixed(
    b: Block, l: nat, s: SeqState, xs: seq<Vec>, before: seq<Cell>, spilled: seq<set<nat>>, contexts: seq<Vec>, zs: seq<Vec>)
    requires b.Valid() && Wide(xs, b.d) && l < |before| && |contexts| == |xs|
    requires Mixed(b, l, s, xs, before, spilled, contexts, zs)
    ensures s.Shaped(|before|) && |contexts| == |xs| == |zs| && Wide(contexts, b.c)
    ensures MetAll(b, l, s.recording, xs, before, s.cells, zs)
    ensures forall i :: 0 <= i < |xs| ==> zs[i] == b.Close(xs[i], contexts[i])
    ensures OnlyLayer(l, spilled, s.spilled) && (xs != [] ==> LayerRead(b.mixer, l, s))
  {
    hide Block.Valid, Block.Close, MetAll, OnlyLayer, LayerRead, NothingOnDisk;
    assert xs[..|xs|] == xs;
  }

  method MixNext(
    b: Block, l: nat, s: SeqState, ghost xs: seq<Vec>, p: Vec, ghost before: seq<Cell>, ghost spilled: seq<set<nat>>,
    ghost contexts: seq<Vec>, ghost zs: seq<Vec>)
    returns (context: Vec, ghost z: Vec)
    requires b.Valid() && Wide(xs, b.d) && |contexts| < |xs| && p == b.Enter(xs[|contexts|]) && l < |before|
    requires Mixed(b, l, s, xs, before, spilled, contexts, zs)
    modifies s`cells, s`spilled
    ensures Mixed(b, l, s, xs, before, spilled, contexts + [context], zs + [z])
  {
    hide Block.Valid, Block.Close, Block.Enter, MetAll, MetOne, NothingOnDisk, ReadBack, OnlyLayer;
    ghost var i, onDisk := |contexts|, s.spilled;
    context := StepOne(b, l, s, xs[i], p);
    z := b.Close(xs[i], context);
    MetMore(b, l, s.recording, xs, i, before, old(s.cells), s.cells, zs, z);
    OnlyThen(l, spilled, onDisk, s.spilled);
  }

  predicate Separate(seqs: seq<SeqState>) {
    forall i, j :: 0 <= i < j < |seqs| ==> seqs[i] != seqs[j]
  }

  /** The mixer over one token from each of several sequences. */
  method MixEach(b: Block, l: nat, seqs: seq<SeqState>, xs: seq<Vec>, ps: seq<Vec>)
    returns (contexts: seq<Vec>)
    requires b.Valid() && Wide(xs, b.d) && |ps| == |xs| == |seqs| && Separate(seqs)
    requires forall i :: 0 <= i < |xs| ==> ps[i] == b.Enter(xs[i])
    requires forall i :: 0 <= i < |seqs| ==> l < |seqs[i].cells| && seqs[i].Shaped(|seqs[i].cells|)
    modifies seqs`cells, seqs`spilled
    ensures |contexts| == |xs| && Wide(contexts, b.c)
    ensures forall i :: 0 <= i < |seqs| ==>
      && seqs[i].Shaped(|old(seqs[i].cells)|)
      && MetOne(b, l, seqs[i].recording, xs[i], old(seqs[i].cells), seqs[i].cells, b.Close(xs[i], contexts[i]))
      && LayerRead(b.mixer, l, seqs[i]) && OnlyLayer(l, old(seqs[i].spilled), seqs[i].spilled)
  {
    hide Block.Valid, Block.Close, Block.Enter, MetOne, ReadBack;
    contexts := [];
    for k := 0 to |seqs|
      invariant |contexts| == k && Wide(contexts, b.c)
      invariant forall i :: 0 <= i < k ==>
        && seqs[i].Shaped(|old(seqs[i].cells)|)
        && MetOne(b, l, seqs[i].recording, xs[i], old(seqs[i].cells), seqs[i].cells, b.Close(xs[i], contexts[i]))
        && LayerRead(b.mixer, l, seqs[i]) && OnlyLayer(l, old(seqs[i].spilled), seqs[i].spilled)
      invariant forall i :: k <= i < |seqs| ==>
        seqs[i].cells == old(seqs[i].cells) && seqs[i].spilled == old(seqs[i].spilled) && seqs[i].Shaped(|seqs[i].cells|)
    {
      var context := StepOne(b, l, seqs[k], xs[k], ps[k]);
      contexts := contexts + [context];
    }
  }

  /** One layer over a batch: everything is done to the whole batch at once except the mixer, which
    * meets the tokens one by one, each in its own sequence's state. */
  method RunLayer(b: Block, l: nat, xs: seq<Vec>, targets: Targets) returns (zs: seq<Vec>)
    requires b.Valid() && Wide(xs, b.d) && targets.Fit(l, |xs|)
    modifies targets.All()`cells, targets.All()`spilled
    ensures |zs| == |xs|
    ensures targets.Shared? ==>
      && targets.one.Shaped(|old(targets.one.cells)|)
      && MetAll(b, l, targets.one.recording, xs, old(targets.one.cells), targets.one.cells, zs)
      && OnlyLayer(l, old(targets.one.spilled), targets.one.spilled)
      && (xs != [] ==> LayerRead(b.mixer, l, targets.one))
    ensures targets.PerToken? ==> forall i :: 0 <= i < |xs| ==>
      && targets.each[i].Shaped(|old(targets.each[i].cells)|)
      && MetOne(b, l, targets.each[i].recording, xs[i], old(targets.each[i].cells), targets.each[i].cells, zs[i])
      && LayerRead(b.mixer, l, targets.each[i])
      && OnlyLayer(l, old(targets.each[i].spilled), targets.each[i].spilled)
  {
    hide Block.Valid, Block.Close, Block.Enter, MetAll, MetOne, ReadBack;
    var ps := EnterAll(b, xs);
    var contexts;
    match targets {
      case Shared(s) =>
        ghost var met;
        contexts, met := MixShared(b, l, s, xs, ps);
        zs := CloseAll(b, xs, contexts);
        assert zs == met;
      case PerToken(seqs) =>
        contexts := MixEach(b, l, seqs, xs, ps);
        zs := CloseAll(b, xs, contexts);
    }
  }

  // ---------------------------------------------------------------- one chunk

  /** The layers below `l` have run over the chunk and the rest have not. */
  ghost predicate UpTo(
    m: Model, before: seq<Cell>, recording: bool, chunk: seq<Token>, l: nat, cells: seq<Cell>, xs: seq<Vec>)
    requires m.Valid() && |before| == |m.blocks| && l <= |m.blocks|
  {
    && |cells| == |before|
    && (forall j :: 0 <= j < l ==> cells[j] == ChunkCell(m, before, recording, chunk, j))
    && (forall j :: l <= j < |cells| ==> cells[j] == before[j])
    && xs == LayerMajor(m, Cores(m, before), Embedded(m, chunk), l).1
  }

  lemma UpToNext(
    m: Model, before: seq<Cell>, recording: bool, chunk: seq<Token>, l: nat,
    cells: seq<Cell>, xs: seq<Vec>, cells': seq<Cell>, zs: seq<Vec>)
    requires m.Valid() && |before| == |m.blocks| && l < |m.blocks| && UpTo(m, before, recording, chunk, l, cells, xs)
    requires m.blocks[l].Valid() && Wide(xs, m.blocks[l].d) && MetAll(m.blocks[l], l, recording, xs, cells, cells', zs)
    ensures UpTo(m, before, recording, chunk, l + 1, cells', zs)
  {
    EmbeddedWide(m, chunk);
    hide Model.Valid, Block.Valid, RunCell, Run, LayerMajor;
    RunCellCore(m.blocks[l], before[l], recording, xs);
    LayerMajorNext(m, Cores(m, before), Embedded(m, chunk), l);
  }

  lemma EmbeddedWide(m: Model, chunk: seq<Token>)
    requires m.Valid()
    ensures Wide(Embedded(m, chunk), m.d)
  {
  }

  lemma LayerMajorNext(m: Model, cores: seq<Core>, xs: seq<Vec>, l: nat)
    requires m.Valid() && |cores| == |m.blocks| && l < |m.blocks| && Wide(xs, m.d)
    ensures m.blocks[l].Valid() && m.blocks[l].d == m.d
    ensures LayerMajor(m, cores, xs, l + 1).1 == Run(m.blocks[l], cores[l], LayerMajor(m, cores, xs, l).1).1
  {
    BlockFits(m, l);
    hide Model.Valid, Block.Valid, Run;
  }

  lemma UpToStart(m: Model, before: seq<Cell>, recording: bool, chunk: seq<Token>, xs: seq<Vec>)
    requires m.Valid() && |before| == |m.blocks| && xs == Embedded(m, chunk)
    ensures UpTo(m, before, recording, chunk, 0, before, xs)
  {
  }

  /** `xs` are the final hidden states at `chunk`'s positions, after `tokens`. */
  ghost predicate HiddenAre(m: Model, tokens: seq<Token>, chunk: seq<Token>, xs: seq<Vec>)
    requires m.Valid()
  {
    |xs| == |chunk| && forall i :: 0 <= i < |chunk| ==> xs[i] == Hidden(m, tokens + chunk[..i + 1])
  }

  /** A copy that was held is still held. */
  ghost predicate CopiesKept(before: seq<Cell>, after: seq<Cell>) {
    |after| == |before| && forall l :: 0 <= l < |before| ==> CopiesKeptIn(before[l], after[l])
  }

  ghost predicate CopiesKeptIn(before: Cell, after: Cell) {
    forall n: nat :: HasCopy(before, n) ==> HasCopy(after, n)
  }

  lemma HiddenHere(
    m: Model, tokens: seq<Token>, before: seq<Cell>, recording: bool, chunk: seq<Token>, cells: seq<Cell>, xs: seq<Vec>)
    requires m.Valid() && CellsOk(m, tokens, before) && UpTo(m, before, recording, chunk, |m.blocks|, cells, xs)
    ensures HiddenAre(m, tokens, chunk, xs)
  {
    CoresDescribe(m, tokens, before);
    LayerMajorIsTokenMajor(m, StateAfter(m, tokens), Embedded(m, chunk));
    ContinueFrom(m, tokens, chunk);
    hide Model.Valid, CellsOk, ChunkCell, StateAfter, Hidden, LayerMajor, TokenMajor;
  }

  lemma ChunkEnds(
    m: Model, tokens: seq<Token>, before: seq<Cell>, recording: bool, chunk: seq<Token>, cells: seq<Cell>, xs: seq<Vec>)
    requires m.Valid() && CellsOk(m, tokens, before) && UpTo(m, before, recording, chunk, |m.blocks|, cells, xs)
    ensures CellsOk(m, tokens + chunk, cells) && CopiesKept(before, cells)
    ensures recording ==> Recorded(m, cells, |tokens|, |tokens| + |chunk|)
    ensures HiddenAre(m, tokens, chunk, xs)
  {
    HiddenHere(m, tokens, before, recording, chunk, cells, xs);
    hide Model.Valid, ChunkCell, StateAfter, HasCopy, HiddenAre, Hybrid.CellOk;
    forall l: nat | l < |cells|
      ensures CellOk(m, tokens + chunk, l, cells[l]) && CopiesKeptIn(before[l], cells[l])
      ensures recording && m.blocks[l].mixer.Recurrent? ==>
        forall n: nat :: |tokens| <= n < |tokens| + |chunk| ==> HasCopy(cells[l], n)
    {
      ChunkKeeps(m, tokens, before, recording, chunk, l);
    }
  }

  /** The first `l` layers have read their windows back. */
  predicate ReadTo(m: Model, s: SeqState, l: nat)
    reads s`cells, s`spilled
  {
    ReadUpTo(m, s.cells, s.spilled, s.blockSize, l)
  }

  predicate ReadUpTo(m: Model, cells: seq<Cell>, spilled: seq<set<nat>>, blockSize: nat, l: nat) {
    l <= |m.blocks| && forall k :: 0 <= k < l ==> ReadLayer(m.blocks[k].mixer, k, cells, spilled, blockSize)
  }

  /** One more layer has read its window back, and the ones below still have. */
  lemma ReadNext(
    m: Model, l: nat, cells: seq<Cell>, spilled: seq<set<nat>>, cells': seq<Cell>, spilled': seq<set<nat>>, blockSize: nat)
    requires l < |m.blocks| && ReadUpTo(m, cells, spilled, blockSize, l)
    requires ReadLayer(m.blocks[l].mixer, l, cells', spilled', blockSize) && OnlyLayer(l, spilled, spilled')
    requires |cells'| == |cells| && forall k :: 0 <= k < |cells| && k != l ==> cells'[k] == cells[k]
    ensures ReadUpTo(m, cells', spilled', blockSize, l + 1)
  {
    hide ReadBack;
    forall k: nat | k <= l ensures ReadLayer(m.blocks[k].mixer, k, cells', spilled', blockSize) {
      if k < l {
        assert ReadLayer(m.blocks[k].mixer, k, cells, spilled, blockSize);
      }
    }
  }

  /** A chunk goes through one layer after another. */
  method ForwardChunk(m: Model, s: SeqState, chunk: seq<Token>, embedded: seq<Vec>) returns (xs: seq<Vec>)
    requires m.Valid() && s.Valid(m) && |s.tokens| + |chunk| <= s.capacity
    requires UpTo(m, s.cells, s.recording, chunk, 0, s.cells, embedded)
    modifies s`cells, s`spilled, s`tokens
    ensures s.Valid(m) && s.tokens == old(s.tokens) + chunk
    ensures HiddenAre(m, old(s.tokens), chunk, xs)
    ensures CopiesKept(old(s.cells), s.cells)
    ensures s.recording ==> Recorded(m, s.cells, |old(s.tokens)|, |s.tokens|)
    ensures chunk != [] ==> ReadTo(m, s, |m.blocks|)
  {
    hide ReadTo, NothingOnDisk, Model.Valid, UpTo, CellsOk, CopiesKept, Recorded, HiddenAre;
    xs := RunLayers(m, s, s.cells, chunk, embedded);
    ChunkEnds(m, s.tokens, old(s.cells), s.recording, chunk, s.cells, xs);
    s.tokens := s.tokens + chunk;
  }

  lemma ReadNone(m: Model, s: SeqState, l: nat)
    requires l == 0
    ensures ReadTo(m, s, l)
  {
  }

  method RunLayers(m: Model, s: SeqState, ghost before: seq<Cell>, ghost chunk: seq<Token>, embedded: seq<Vec>)
    returns (xs: seq<Vec>)
    requires m.Valid() && s.Shaped(|m.blocks|) && |before| == |m.blocks|
    requires UpTo(m, before, s.recording, chunk, 0, s.cells, embedded)
    modifies s`cells, s`spilled
    ensures s.Shaped(|m.blocks|) && UpTo(m, before, s.recording, chunk, |m.blocks|, s.cells, xs)
    ensures chunk != [] ==> ReadTo(m, s, |m.blocks|)
  {
    hide Model.Valid, Block.Valid, UpTo, NothingOnDisk, ReadTo, SeqState.Shaped;
    xs := embedded;
    var l := 0;
    ReadNone(m, s, l);
    while l < |m.blocks|
      invariant l <= |m.blocks| == |before| && s.Shaped(|m.blocks|)
      invariant UpTo(m, before, s.recording, chunk, l, s.cells, xs) && (chunk != [] ==> ReadTo(m, s, l))
    {
      xs := NextLayer(m, s, before, chunk, l, xs);
      l := l + 1;
    }
  }

  method NextLayer(m: Model, s: SeqState, ghost before: seq<Cell>, ghost chunk: seq<Token>, l: nat, xs: seq<Vec>)
    returns (zs: seq<Vec>)
    requires m.Valid() && s.Shaped(|m.blocks|) && |before| == |m.blocks| && l < |m.blocks|
    requires UpTo(m, before, s.recording, chunk, l, s.cells, xs)
    modifies s`cells, s`spilled
    ensures s.Shaped(|m.blocks|) && UpTo(m, before, s.recording, chunk, l + 1, s.cells, zs)
    ensures chunk != [] && old(ReadTo(m, s, l)) ==> ReadTo(m, s, l + 1)
  {
    hide Model.Valid, Block.Valid, UpTo, NothingOnDisk, MetAll, ReadBack;
    StillWide(m, before, s.recording, chunk, l, s.cells, xs);
    BlockFits(m, l);
    zs := RunLayer(m.blocks[l], l, xs, Shared(s));
    UpToNext(m, before, s.recording, chunk, l, old(s.cells), xs, s.cells, zs);
    OtherLayers(m.blocks[l], l, s.recording, xs, old(s.cells), s.cells, zs);
    if chunk != [] && old(ReadTo(m, s, l)) {
      ReadNext(m, l, old(s.cells), old(s.spilled), s.cells, s.spilled, s.blockSize);
    }
  }

  /** A layer leaves the other layers' cells alone. */
  lemma OtherLayers(b: Block, l: nat, recording: bool, xs: seq<Vec>, before: seq<Cell>, after: seq<Cell>, zs: seq<Vec>)
    requires b.Valid() && Wide(xs, b.d) && l < |before| && MetAll(b, l, recording, xs, before, after, zs)
    ensures |after| == |before| && forall k :: 0 <= k < |before| && k != l ==> after[k] == before[k]
  {
  }

  lemma StillWide(
    m: Model, before: seq<Cell>, recording: bool, chunk: seq<Token>, l: nat, cells: seq<Cell>, xs: seq<Vec>)
    requires m.Valid() && |before| == |m.blocks| && l <= |m.blocks| && UpTo(m, before, recording, chunk, l, cells, xs)
    ensures Wide(xs, m.d) && |xs| == |chunk|
  {
  }
}
