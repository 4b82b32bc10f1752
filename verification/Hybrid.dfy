/** The backend over one sequence's mutable state: chunked, layer-major passes; recording a copy of
  * every recurrent memory during a speculative round; rolling back to any position of it. */
module Hybrid {
  import opened Basics
  import opened Experts
  import opened Forward

  /** A recurrent layer's memory as it stood after `at` tokens. */
  datatype Copy = Copy(at: nat, memory: Memory)

  datatype Linear = Linear(memory: Memory, folded: nat, history: seq<Copy>)

  /** One layer of one sequence. The recurrent part is allocated on first use. */
  datatype Cell = Cell(items: seq<Pair>, linear: Option<Linear>)

  function CoreOf(mixer: Mixer, cell: Cell): Core {
    Core(cell.items,
         match mixer
         case Attention(_, _, _) => None
         case Recurrent(zero, _) => Some(if cell.linear.Some? then cell.linear.value.memory else zero))
  }

  function LinearOf(zero: Memory, cell: Cell): Linear {
    if cell.linear.Some? then cell.linear.value else Linear(zero, 0, [])
  }

  /** A recurrent layer meets one token: a copy first if the round is being recorded. */
  function Fold(l: Linear, recording: bool, memory: Memory): Linear {
    Linear(memory, l.folded + 1, if recording then l.history + [Copy(l.folded, l.memory)] else l.history)
  }

  function MixCell(mixer: Mixer, cell: Cell, recording: bool, p: Vec): (Cell, Vec) {
    var next := Mix(mixer, CoreOf(mixer, cell), p);
    var linear :=
      if mixer.Recurrent? then Some(Fold(LinearOf(mixer.zero, cell), recording, next.0.memory.value)) else cell.linear;
    (Cell(next.0.items, linear), next.1)
  }

  ghost function StepCell(b: Block, cell: Cell, recording: bool, x: Vec): (Cell, Vec)
    requires b.Valid() && |x| == b.d
  {
    var next := MixCell(b.mixer, cell, recording, b.Enter(x));
    (next.0, b.Close(x, next.1))
  }

  ghost function RunCell(b: Block, cell: Cell, recording: bool, xs: seq<Vec>): (r: (Cell, seq<Vec>))
    requires b.Valid() && Wide(xs, b.d)
    ensures |r.1| == |xs|
  {
    if xs == [] then (cell, [])
    else
      var before := RunCell(b, cell, recording, xs[..|xs| - 1]);
      var next := StepCell(b, before.0, recording, xs[|xs| - 1]);
      (next.0, before.1 + [next.1])
  }

  lemma {:induction false} RunCellCore(b: Block, cell: Cell, recording: bool, xs: seq<Vec>)
    requires b.Valid() && Wide(xs, b.d)
    ensures
      var r := RunCell(b, cell, recording, xs);
      Run(b, CoreOf(b.mixer, cell), xs) == (CoreOf(b.mixer, r.0), r.1)
    decreases |xs|
  {
    if xs != [] {
      RunCellCore(b, cell, recording, xs[..|xs| - 1]);
    }
  }

  predicate HasCopy(cell: Cell, at: nat) {
    cell.linear.Some? && exists i :: 0 <= i < |cell.linear.value.history| && cell.linear.value.history[i].at == at
  }

  function MemoryOf(core: Core, zero: Memory): Memory {
    if core.memory.Some? then core.memory.value else zero
  }

  /** A copy says what the memory was after the tokens it was taken after. */
  ghost predicate CopyOk(m: Model, tokens: seq<Token>, l: nat, copy: Copy)
    requires m.Valid() && l < |m.blocks|
  {
    copy.at < |tokens| && StateAfter(m, tokens[..copy.at])[l].memory == Some(copy.memory)
  }

  /** A layer describes `tokens`: its state is what consuming them one at a time leaves, and its
    * copies are true. */
  ghost predicate CellOk(m: Model, tokens: seq<Token>, l: nat, cell: Cell)
    requires m.Valid() && l < |m.blocks|
  {
    && CoreOf(m.blocks[l].mixer, cell) == StateAfter(m, tokens)[l]
    && |cell.items| == |tokens|
    && (m.blocks[l].mixer.Recurrent? && tokens != [] ==> cell.linear.Some?)
    && (cell.linear.Some? ==>
      && m.blocks[l].mixer.Recurrent?
      && cell.linear.value.folded == |tokens|
      && forall i :: 0 <= i < |cell.linear.value.history| ==> CopyOk(m, tokens, l, cell.linear.value.history[i]))
  }

  ghost predicate CellsOk(m: Model, tokens: seq<Token>, cells: seq<Cell>)
    requires m.Valid()
  {
    |cells| == |m.blocks| && forall l :: 0 <= l < |cells| ==> CellOk(m, tokens, l, cells[l])
  }

  /** Every recurrent layer holds a copy from each position of `from..to`. */
  ghost predicate Recorded(m: Model, cells: seq<Cell>, from: nat, to: nat)
    requires |cells| == |m.blocks|
  {
    forall l, n :: 0 <= l < |cells| && from <= n < to && m.blocks[l].mixer.Recurrent? ==> HasCopy(cells[l], n)
  }

  function Cores(m: Model, cells: seq<Cell>): (r: seq<Core>)
    requires |cells| == |m.blocks|
    ensures |r| == |cells|
  {
    seq(|cells|, l requires 0 <= l < |cells| => CoreOf(m.blocks[l].mixer, cells[l]))
  }

  // ---------------------------------------------------------------- one chunk, one layer

  /** The copies taken while a recurrent layer meets `xs`. */
  ghost function Taken(b: Block, core: Core, folded: nat, xs: seq<Vec>): (r: seq<Copy>)
    requires b.Valid() && Wide(xs, b.d) && b.mixer.Recurrent?
    ensures |r| == |xs|
  {
    if xs == [] then []
    else
      var front := xs[..|xs| - 1];
      Taken(b, core, folded, front) + [Copy(folded + |front|, MemoryOf(Run(b, core, front).0, b.mixer.zero))]
  }

  lemma {:induction false} TakenAt(b: Block, core: Core, folded: nat, xs: seq<Vec>, i: nat)
    requires b.Valid() && Wide(xs, b.d) && b.mixer.Recurrent? && i < |xs|
    ensures Taken(b, core, folded, xs)[i] == Copy(folded + i, MemoryOf(Run(b, core, xs[..i]).0, b.mixer.zero))
    decreases |xs|
  {
    hide Block.Valid, Run;
    var front := xs[..|xs| - 1];
    if i < |front| {
      TakenAt(b, core, folded, front, i);
      assert front[..i] == xs[..i];
    }
  }

  lemma StepCellCopies(b: Block, cell: Cell, recording: bool, x: Vec)
    requires b.Valid() && |x| == b.d && b.mixer.Recurrent?
    ensures
      var after, l := StepCell(b, cell, recording, x).0, LinearOf(b.mixer.zero, cell);
      && after.linear.Some? && LinearOf(b.mixer.zero, after).folded == l.folded + 1
      && LinearOf(b.mixer.zero, after).history == (if recording then l.history + [Copy(l.folded, l.memory)] else l.history)
      && MemoryOf(CoreOf(b.mixer, cell), b.mixer.zero) == l.memory
  {
  }

  /** What meeting `xs` does to a recurrent layer's copies. */
  lemma {:induction false} RunCellCopies(b: Block, cell: Cell, recording: bool, xs: seq<Vec>)
    requires b.Valid() && Wide(xs, b.d) && b.mixer.Recurrent?
    ensures
      var before, after := LinearOf(b.mixer.zero, cell), LinearOf(b.mixer.zero, RunCell(b, cell, recording, xs).0);
      && after.folded == before.folded + |xs|
      && (xs != [] ==> RunCell(b, cell, recording, xs).0.linear.Some?)
      && after.history == before.history + if recording then Taken(b, CoreOf(b.mixer, cell), before.folded, xs) else []
    decreases |xs|
  {
    hide Block.Valid, Run, StepCell, CoreOf, MemoryOf, LinearOf;
    var l := LinearOf(b.mixer.zero, cell);
    if xs == [] {
      assert l.history + [] == l.history;
    } else {
      var front := xs[..|xs| - 1];
      RunCellCopies(b, cell, recording, front);
      RunCellCore(b, cell, recording, front);
      var before := RunCell(b, cell, recording, front).0;
      StepCellCopies(b, before, recording, xs[|xs| - 1]);
      assert RunCell(b, cell, recording, xs).0 == StepCell(b, before, recording, xs[|xs| - 1]).0;
      if recording {
        OneMoreCopy(l.history, Taken(b, CoreOf(b.mixer, cell), l.folded, front),
                    Copy(l.folded + |front|, MemoryOf(Run(b, CoreOf(b.mixer, cell), front).0, b.mixer.zero)));
      }
    }
  }

  lemma OneMoreCopy(history: seq<Copy>, taken: seq<Copy>, last: Copy)
    ensures (history + taken) + [last] == history + (taken + [last])
  {
  }

  lemma {:induction false} RunLength(b: Block, cell: Cell, recording: bool, xs: seq<Vec>)
    requires b.Valid() && Wide(xs, b.d)
    ensures |RunCell(b, cell, recording, xs).0.items| == |cell.items| + |xs|
    ensures b.mixer.Attention? ==> RunCell(b, cell, recording, xs).0.linear == cell.linear
    decreases |xs|
  {
    if xs != [] {
      RunLength(b, cell, recording, xs[..|xs| - 1]);
    }
  }

  /** Layer `l` after a chunk, the layers run one after the other. */
  ghost function ChunkCell(m: Model, cells: seq<Cell>, recording: bool, chunk: seq<Token>, l: nat): Cell
    requires m.Valid() && |cells| == |m.blocks| && l < |m.blocks|
  {
    RunCell(m.blocks[l], cells[l], recording, LayerMajor(m, Cores(m, cells), Embedded(m, chunk), l).1).0
  }

  /** The layer meets what the layers below it make of the chunk, and ends in the state of the longer context. */
  lemma ChunkDescribes(m: Model, tokens: seq<Token>, cells: seq<Cell>, recording: bool, chunk: seq<Token>, l: nat)
    requires m.Valid() && CellsOk(m, tokens, cells) && l < |m.blocks|
    ensures CellOk(m, tokens, l, cells[l]) && m.blocks[l].Valid() && m.blocks[l].d == m.d
    ensures
      var b, after := m.blocks[l], ChunkCell(m, cells, recording, chunk, l);
      && after == RunCell(b, cells[l], recording, Met(m, tokens, chunk, l)).0
      && CoreOf(b.mixer, after) == StateAfter(m, tokens + chunk)[l] && |after.items| == |tokens| + |chunk|
      && CoreOf(b.mixer, cells[l]) == StateAfter(m, tokens)[l]
      && (b.mixer.Attention? ==> after.linear == cells[l].linear)
  {
    var b, xs := m.blocks[l], Met(m, tokens, chunk, l);
    assert CellOk(m, tokens, l, cells[l]);
    CoresDescribe(m, tokens, cells);
    InsideChunk(m, tokens, chunk, l, |chunk|);
    hide Model.Valid, Block.Valid, CellsOk, RunCell, LayerMajor, CoreOf, StateAfter;
    RunCellCore(b, cells[l], recording, xs);
    RunLength(b, cells[l], recording, xs);
    assert chunk[..|chunk|] == chunk && xs[..|chunk|] == xs;
  }

  /** A chunk leaves a layer describing the tokens it had and the chunk's, its old copies still
    * true, and if it recorded, with a true copy from each of the chunk's positions. */
  lemma ChunkKeeps(
    m: Model, tokens: seq<Token>, cells: seq<Cell>, recording: bool, chunk: seq<Token>, l: nat)
    requires m.Valid() && CellsOk(m, tokens, cells) && l < |m.blocks|
    ensures CellOk(m, tokens + chunk, l, ChunkCell(m, cells, recording, chunk, l))
    ensures forall n: nat :: HasCopy(cells[l], n) ==> HasCopy(ChunkCell(m, cells, recording, chunk, l), n)
    ensures recording && m.blocks[l].mixer.Recurrent? ==>
      forall n: nat :: |tokens| <= n < |tokens| + |chunk| ==> HasCopy(ChunkCell(m, cells, recording, chunk, l), n)
  {
    ChunkDescribes(m, tokens, cells, recording, chunk, l);
    var b, xs := m.blocks[l], Met(m, tokens, chunk, l);
    hide Model.Valid, Block.Valid, CellsOk, RunCell, ChunkCell, Taken, LayerMajor, CoreOf, StateAfter;
    if b.mixer.Recurrent? {
      RunCellCopies(b, cells[l], recording, xs);
      FirstFolded(m, tokens, l, cells[l]);
      var taken := ChunkCopies(m, tokens, chunk, l);
      forall i: nat | i < |chunk| ensures CopyOk(m, tokens + chunk, l, taken[i]) && taken[i].at == |tokens| + i {
        CopyTrue(m, tokens, chunk, l, i);
      }
      JoinCopies(
        m, tokens, cells[l], ChunkCell(m, cells, recording, chunk, l), recording, chunk, l, if recording then taken else []);
    }
  }

  lemma FirstFolded(m: Model, tokens: seq<Token>, l: nat, cell: Cell)
    requires m.Valid() && l < |m.blocks| && CellOk(m, tokens, l, cell) && m.blocks[l].mixer.Recurrent?
    ensures LinearOf(m.blocks[l].mixer.zero, cell).folded == |tokens|
  {
  }

  lemma JoinCopies(
    m: Model, tokens: seq<Token>, before: Cell, after: Cell, recording: bool, chunk: seq<Token>, l: nat,
    taken: seq<Copy>)
    requires m.Valid() && l < |m.blocks| && m.blocks[l].mixer.Recurrent? && CellOk(m, tokens, l, before)
    requires CoreOf(m.blocks[l].mixer, after) == StateAfter(m, tokens + chunk)[l] && |after.items| == |tokens| + |chunk|
    requires
      var b, a := LinearOf(m.blocks[l].mixer.zero, before), LinearOf(m.blocks[l].mixer.zero, after);
      && b.folded == |tokens| && a.folded == |tokens| + |chunk|
      && a.history == b.history + taken && (chunk != [] ==> after.linear.Some?)
      && (before.linear.Some? ==> after.linear.Some?)
    requires |taken| == if recording then |chunk| else 0
    requires forall i :: 0 <= i < |taken| ==> CopyOk(m, tokens + chunk, l, taken[i]) && taken[i].at == |tokens| + i
    ensures CellOk(m, tokens + chunk, l, after)
    ensures forall n: nat :: HasCopy(before, n) ==> HasCopy(after, n)
    ensures recording ==> forall n: nat :: |tokens| <= n < |tokens| + |chunk| ==> HasCopy(after, n)
  {
    hide Model.Valid, StateAfter;
    var b, a := LinearOf(m.blocks[l].mixer.zero, before), LinearOf(m.blocks[l].mixer.zero, after);
    forall i | 0 <= i < |b.history| && before.linear.Some?
      ensures CopyOk(m, tokens + chunk, l, b.history[i])
    {
      assert CopyOk(m, tokens, l, b.history[i]);
      assert (tokens + chunk)[..b.history[i].at] == tokens[..b.history[i].at];
    }
    forall n: nat | HasCopy(before, n) ensures HasCopy(after, n) {
      var i :| 0 <= i < |b.history| && b.history[i].at == n;
      assert a.history[i].at == n;
    }
    if recording {
      forall n: nat | |tokens| <= n < |tokens| + |chunk| ensures HasCopy(after, n) {
        assert a.history[|b.history| + (n - |tokens|)].at == n;
      }
    }
  }

  lemma CoresDescribe(m: Model, tokens: seq<Token>, cells: seq<Cell>)
    requires m.Valid() && CellsOk(m, tokens, cells)
    ensures Cores(m, cells) == StateAfter(m, tokens)
  {
    forall l | 0 <= l < |cells| ensures Cores(m, cells)[l] == StateAfter(m, tokens)[l] {
      assert CellOk(m, tokens, l, cells[l]);
    }
  }

  /** The hidden states layer `l` meets in a chunk. */
  ghost function Met(m: Model, tokens: seq<Token>, chunk: seq<Token>, l: nat): (xs: seq<Vec>)
    requires m.Valid() && l < |m.blocks|
    ensures |xs| == |chunk| && Wide(xs, m.d)
  {
    LayerMajor(m, StateAfter(m, tokens), Embedded(m, chunk), l).1
  }

  lemma InsideChunk(m: Model, tokens: seq<Token>, chunk: seq<Token>, l: nat, i: nat)
    requires m.Valid() && l < |m.blocks| && i <= |chunk|
    ensures m.blocks[l].Valid() && m.blocks[l].d == m.d
    ensures Run(m.blocks[l], StateAfter(m, tokens)[l], Met(m, tokens, chunk, l)[..i]).0 == StateAfter(m, tokens + chunk[..i])[l]
  {
    BlockFits(m, l);
    LayerInside(m, StateAfter(m, tokens), Embedded(m, chunk), l, i);
    assert Embedded(m, chunk)[..i] == Embedded(m, chunk[..i]);
    ContinueFrom(m, tokens, chunk[..i]);
  }

  lemma PrefixOf(tokens: seq<Token>, chunk: seq<Token>, i: nat)
    requires i <= |chunk|
    ensures (tokens + chunk)[..|tokens| + i] == tokens + chunk[..i]
  {
  }

  /** The copies a recurrent layer takes in a chunk. */
  ghost function ChunkCopies(m: Model, tokens: seq<Token>, chunk: seq<Token>, l: nat): (r: seq<Copy>)
    requires m.Valid() && l < |m.blocks| && m.blocks[l].mixer.Recurrent?
    ensures |r| == |chunk|
  {
    BlockFits(m, l);
    Taken(m.blocks[l], StateAfter(m, tokens)[l], |tokens|, Met(m, tokens, chunk, l))
  }

  lemma ChunkCopyIs(m: Model, tokens: seq<Token>, chunk: seq<Token>, l: nat, i: nat)
    requires m.Valid() && l < |m.blocks| && m.blocks[l].mixer.Recurrent? && i < |chunk|
    ensures ChunkCopies(m, tokens, chunk, l)[i] ==
      Copy(|tokens| + i, MemoryOf(StateAfter(m, tokens + chunk[..i])[l], m.blocks[l].mixer.zero))
  {
    InsideChunk(m, tokens, chunk, l, i);
    hide Model.Valid, Block.Valid, Run, Taken, Met, StateAfter, MemoryOf;
    TakenAt(m.blocks[l], StateAfter(m, tokens)[l], |tokens|, Met(m, tokens, chunk, l), i);
  }

  /** The copy taken at the chunk's position `i` is what the memory was after the tokens before it. */
  lemma CopyTrue(m: Model, tokens: seq<Token>, chunk: seq<Token>, l: nat, i: nat)
    requires m.Valid() && l < |m.blocks| && m.blocks[l].mixer.Recurrent? && i < |chunk|
    ensures CopyOk(m, tokens + chunk, l, ChunkCopies(m, tokens, chunk, l)[i])
    ensures ChunkCopies(m, tokens, chunk, l)[i].at == |tokens| + i
  {
    hide Model.Valid, Block.Valid, ChunkCopies, StateAfter;
    ChunkCopyIs(m, tokens, chunk, l, i);
    PrefixOf(tokens, chunk, i);
    AlwaysMemory(m, tokens + chunk[..i], l);
  }

  /** Exactly the recurrent layers carry a memory. */
  lemma {:induction false} AlwaysMemory(m: Model, tokens: seq<Token>, l: nat)
    requires m.Valid() && l < |m.blocks|
    ensures StateAfter(m, tokens)[l].memory.Some? <==> m.blocks[l].mixer.Recurrent?
  {
    if tokens != [] {
      var front := tokens[..|tokens| - 1];
      AlwaysMemory(m, front, l);
      LastToken(m, tokens);
      UpAppends(m, StateAfter(m, front), m.embed(tokens[|tokens| - 1]), |m.blocks|, l);
    }
  }

  lemma LastToken(m: Model, tokens: seq<Token>)
    requires m.Valid() && tokens != []
    ensures
      var front := tokens[..|tokens| - 1];
      StateAfter(m, tokens) == Up(m, StateAfter(m, front), m.embed(tokens[|tokens| - 1]), |m.blocks|).0
  {
    assert Embedded(m, tokens)[..|tokens| - 1] == Embedded(m, tokens[..|tokens| - 1]);
  }

  /** A token adds one entry to every layer and keeps memories where they are. */
  lemma {:induction false} UpAppends(m: Model, cores: seq<Core>, x: Vec, upTo: nat, l: nat)
    requires m.Valid() && |cores| == |m.blocks| && upTo <= |m.blocks| && |x| == m.d && l < |m.blocks|
    requires cores[l].memory.Some? <==> m.blocks[l].mixer.Recurrent?
    ensures Up(m, cores, x, upTo).0[l].memory.Some? <==> m.blocks[l].mixer.Recurrent?
    ensures l < upTo ==> AddsOne(cores[l].items, Up(m, cores, x, upTo).0[l].items)
  {
    hide Model.Valid, Block.Valid, Step, AddsOne;
    if upTo > 0 {
      UpAppends(m, cores, x, upTo - 1, l);
      BlockFits(m, upTo - 1);
      var below := Up(m, cores, x, upTo - 1);
      StepAppends(m.blocks[upTo - 1], below.0[upTo - 1], below.1);
    }
  }

  predicate AddsOne(before: seq<Pair>, after: seq<Pair>) {
    |after| == |before| + 1 && after[..|before|] == before
  }

  lemma StepAppends(b: Block, core: Core, x: Vec)
    requires b.Valid() && |x| == b.d
    ensures AddsOne(core.items, Step(b, core, x).0.items)
    ensures b.mixer.Recurrent? ==> Step(b, core, x).0.memory.Some?
    ensures b.mixer.Attention? ==> Step(b, core, x).0.memory == core.memory
  {
  }

  lemma OneMoreItem(m: Model, tokens: seq<Token>, l: nat)
    requires m.Valid() && l < |m.blocks| && tokens != []
    ensures AddsOne(StateAfter(m, tokens[..|tokens| - 1])[l].items, StateAfter(m, tokens)[l].items)
  {
    hide AddsOne, Step;
    var front := tokens[..|tokens| - 1];
    AlwaysMemory(m, front, l);
    LastToken(m, tokens);
    UpAppends(m, StateAfter(m, front), m.embed(tokens[|tokens| - 1]), |m.blocks|, l);
  }

  lemma NoItems(m: Model, l: nat)
    requires m.Valid() && l < |m.blocks|
    ensures StateAfter(m, [])[l].items == []
  {
    assert Embedded(m, []) == [];
  }

  lemma FirstItems(before: seq<Pair>, after: seq<Pair>, len: nat)
    requires AddsOne(before, after) && len <= |before|
    ensures after[..len] == before[..len] && |after| == |before| + 1
  {
    assert after[..|before|][..len] == after[..len];
  }

  /** The entries after `len` tokens are the first `len` of those after all of them. */
  lemma {:induction false} ItemsPrefix(m: Model, tokens: seq<Token>, l: nat, len: nat)
    requires m.Valid() && l < |m.blocks| && len <= |tokens|
    ensures |StateAfter(m, tokens)[l].items| == |tokens|
    ensures StateAfter(m, tokens)[l].items[..len] == StateAfter(m, tokens[..len])[l].items
    decreases |tokens|
  {
    hide Model.Valid, Up, StateAfter, AddsOne;
    if tokens != [] {
      var front := tokens[..|tokens| - 1];
      ItemsPrefix(m, front, l, Min(len, |front|));
      OneMoreItem(m, tokens, l);
      FirstItems(StateAfter(m, front)[l].items, StateAfter(m, tokens)[l].items, Min(len, |front|));
      if len == |tokens| {
        assert tokens[..len] == tokens;
      } else {
        assert front[..len] == tokens[..len];
      }
    } else {
      NoItems(m, l);
      assert tokens[..len] == [];
    }
  }
}
