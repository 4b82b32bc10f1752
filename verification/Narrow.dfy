/** What a window narrower than the guesses leads to, on a model small enough to follow: one recurrent
  * layer, and one attention layer that reads one position back. The prompt is one token, two guesses are
  * checked in one recorded pass, and both are wrong. */
module Narrow {
  import opened Basics
  import opened Experts
  import opened Forward
  import opened Hybrid
  import opened Passes
  import B = Backend
  import Co = Contracts
  import K = KvCache
  import P = Pages
  import Pg = Paging
  import R = Rollback
  import Ro = Rounds
  import Rt = Runtime

  // ---------------------------------------------------------------- the model

  /** A kernel that answers with the first number of a row. */
  function Firsts(): Kernel<Packed, Ready> {
    Kernel((x: Vec) => x, (row: Packed, x: Ready) => if row == [] then 0 else row[0])
  }

  function Layer(mixer: Mixer): Block {
    var ops := Ops((x: F32) => x, (x: F32, y: F32) => x, (x: F32, y: F32, z: F32) => x, 0);
    Block(Firsts(), 1, 1, (x: Vec) => [0], [[0]], mixer, [[0]], (x: Vec) => [0],
          Dense(Swiglu(Firsts(), ops, 1, 1, [[[0]]], [[[0]]], [[[0]]])), (x: F32, y: F32) => x)
  }

  /** A memory that counts, and an attention layer that stores the same pair at every position. */
  function Tiny(pair: Pair): Model {
    var counter := Recurrent(Memory([], []), (mem: Memory, p: Vec) => (Memory(mem.conv + [0], mem.state), [0]));
    var attention := Attention(Some(1), (p: Vec, pos: nat) => pair, (p: Vec, pos: nat, seen: seq<Pair>) => [0]);
    Model([Layer(counter), Layer(attention)], 2, 1, (t: Token) => [0], (x: Vec) => [0], Firsts(), [[1], [0]])
  }

  lemma TinyValid(pair: Pair)
    ensures Tiny(pair).Valid()
  {
    var m := Tiny(pair);
    assert m.blocks[0].Valid() && m.blocks[1].Valid();
  }

  /** It always says that token 0 is the better one. */
  lemma TinySays(pair: Pair, x: Vec)
    ensures Tiny(pair).Answer(x) == [1, 0]
  {
  }

  // ---------------------------------------------------------------- the round

  /** The state a recorded round of a token and two guesses leaves, with the first block of the attention
    * layer on disk: one of the choices a pass allows, and the one the paged cache makes. */
  ghost predicate AfterRound(m: Model, cells: seq<Cell>, spilled: seq<set<nat>>)
    requires m.Valid()
  {
    && CellsOk(m, [1, 1, 1], cells) && Recorded(m, cells, 0, 3)
    && spilled == [{}, {0}] && ReadUpTo(m, cells, spilled, 2, 2)
  }

  lemma TinyRead(pair: Pair, cells: seq<Cell>)
    requires Tiny(pair).Valid() && CellsOk(Tiny(pair), [1, 1, 1], cells)
    ensures ReadUpTo(Tiny(pair), cells, [{}, {0}], 2, 2)
  {
    var m := Tiny(pair);
    hide Model.Valid, StateAfter;
    assert CellOk(m, [1, 1, 1], 1, cells[1]);
    assert EndsBy(0, 2, WindowStart(Some(1), 3));
    assert ReadLayer(m.blocks[0].mixer, 0, cells, [{}, {0}], 2) && ReadLayer(m.blocks[1].mixer, 1, cells, [{}, {0}], 2);
  }

  method TakeRound(pair: Pair) returns (s: SeqState, answers: seq<Vec>)
    ensures Tiny(pair).Valid() && fresh(s) && s.Valid(Tiny(pair)) && !s.recording
    ensures s.blockSize == 2 && s.hasStorage && s.tokens == [1, 1, 1]
    ensures AfterRound(Tiny(pair), s.cells, s.spilled)
    ensures |answers| == 3 && Ro.AnswersAre(Tiny(pair), s.tokens, answers)
  {
    TinyValid(pair);
    hide Model.Valid, CellsOk, Recorded, ReadUpTo, Ro.AnswersAre, Tiny;
    var m := Tiny(pair);
    TinyShape(pair);
    var layers: nat, room: nat, two: nat, chunk: nat := 2, 8, 2, 8;
    s := new SeqState(layers, room, two, true);
    Co.NothingAbsorbed(m, s.cells);
    var context := [1, 1, 1];
    var r := Ro.LogitsMulti(m, s, context, 3, chunk);
    answers := r.value;
    assert s.tokens == context;
    TinyRead(pair, s.cells);
    s.spilled := [{}, {0}];
  }

  lemma TinyShape(pair: Pair)
    ensures |Tiny(pair).blocks| == 2 && Tiny(pair).vocab == 2 && Ro.AllBelow([1, 1, 1], 2)
  {
  }

  // ---------------------------------------------------------------- the cut that comes too late

  /** The attention layer's cache on pages after the same three tokens. */
  method PagedRound(pair: P.Pair) returns (kv: K.KVCacheState, read: bool)
    requires |pair.key| == |pair.value| == 1
    ensures fresh(kv) && fresh(kv.storage) && kv.blockSize == 2
    ensures var p := Pg.Taken(pair); read ==> Pg.Backs(kv, [p, p, p], {0})
  {
    kv, read := K.NarrowWindow(pair);
  }

  /** The round's cut back to its first token: the recurrent layer is rewound to one token, the attention
    * layer refuses and keeps three. The paged cache, if its disk does not fail, has the block there. */
  method HalfwayExample(pair: P.Pair)
    returns (
      s: SeqState, r: Result<(), R.Refusal>, kv: K.KVCacheState, read: bool, ghost before: seq<Cell>, ghost onDisk: seq<set<nat>>)
    requires |pair.key| == |pair.value| == 1
    ensures fresh(s) && Tiny(Pg.Taken(pair)).Valid() && AfterRound(Tiny(Pg.Taken(pair)), before, onDisk)
    ensures read ==> Pg.Backs(kv, before[1].items, onDisk[1])
    ensures r == Err(R.WouldCutSpilled) && |s.cells| == 2 && s.cells != before
    ensures s.cells[0].linear.Some? && s.cells[0].linear.value.folded == 1
    ensures exists l :: 0 <= l < 2 && |s.cells[l].items| == 3
  {
    hide Model.Valid, Tiny, AfterRound, CellsOk, CellOk, StateAfter, Pg.Backs, Ro.AnswersAre, R.Recoverable, R.CutsSomewhere, R.InTime, NothingOnDisk;
    var p := Pg.Taken(pair);
    kv, read := PagedRound(pair);
    var answers;
    s, answers := TakeRound(p);
    before, onDisk := s.cells, s.spilled;
    BeforeCut(p, before, onDisk);
    if read {
      SamePairs(p, before[1]);
    }
    r := R.Truncate(Tiny(p), s, 1);
    assert r.error.NoCopy? || r.error.WouldCutSpilled?;
  }

  /** Everything stored is the one pair. */
  lemma {:induction false} TinyStores(pair: Pair, tokens: seq<Token>)
    requires Tiny(pair).Valid()
    ensures forall i :: 0 <= i < |StateAfter(Tiny(pair), tokens)[1].items| ==> StateAfter(Tiny(pair), tokens)[1].items[i] == pair
    decreases |tokens|
  {
    var m := Tiny(pair);
    hide Model.Valid, Block.Valid, Block.Close, Block.Enter;
    if tokens != [] {
      var front := tokens[..|tokens| - 1];
      TinyStores(pair, front);
      LastToken(m, tokens);
      TinyUp(pair, StateAfter(m, front), m.embed(tokens[|tokens| - 1]));
    } else {
      assert StateAfter(m, tokens)[1] == Nothing(m.blocks[1].mixer);
    }
  }

  lemma TinyUp(pair: Pair, cores: seq<Core>, x: Vec)
    requires Tiny(pair).Valid() && |cores| == 2 && |x| == 1
    ensures Up(Tiny(pair), cores, x, 2).0[1].items == cores[1].items + [pair]
  {
    hide Block.Close, Block.Enter;
    var m := Tiny(pair);
    var below := Up(m, cores, x, 1);
    assert below.0[1] == cores[1];
  }

  lemma SamePairs(pair: Pair, cell: Cell)
    requires Tiny(pair).Valid() && CellOk(Tiny(pair), [1, 1, 1], 1, cell)
    ensures cell.items == [pair, pair, pair]
  {
    TinyStores(pair, [1, 1, 1]);
    hide StateAfter, Model.Valid;
    assert |cell.items| == 3 && forall i :: 0 <= i < 3 ==> cell.items[i] == pair;
  }

  lemma BeforeCut(pair: Pair, cells: seq<Cell>, spilled: seq<set<nat>>)
    requires Tiny(pair).Valid() && AfterRound(Tiny(pair), cells, spilled)
    ensures |cells| == 2 && R.Recoverable(cells, 1) && R.CutsSomewhere(spilled, 2, 1)
    ensures cells[0].linear.Some? && CellOk(Tiny(pair), [1, 1, 1], 1, cells[1]) && !R.InTime(cells, spilled, 2, 1)
    ensures |cells[0].items| == |cells[1].items| == 3 && cells[0].linear.value.folded == 3 && spilled[1] == {0}
  {
    hide Model.Valid, StateAfter;
    var m := Tiny(pair);
    assert CellOk(m, [1, 1, 1], 0, cells[0]) && CellOk(m, [1, 1, 1], 1, cells[1]);
    R.RoundIsRecoverable(m, [1, 1, 1], cells, 0, 1);
    assert R.CutsSpilled(spilled[1], 2, 1);
  }

  // ---------------------------------------------------------------- the run that is cut short

  /** The network the tiny model is. */
  function TinyNet(): B.Net { B.Net((ts: seq<B.Token>) => [1.0, 0.0], 2, 8, true, true, true, Some(1)) }

  lemma TinyNetIs(pair: Pair, ts: seq<Token>)
    requires Tiny(pair).Valid()
    ensures Co.Says(Tiny(pair), (x: F32) => x as real, ts) == TinyNet().logits(ts)
  {
    var value := (x: F32) => x as real;
    TinySays(pair, if ts != [] then Hidden(Tiny(pair), ts) else []);
    hide Tiny, Hidden;
    assert Co.Numbers(value, [1, 0]) == [1.0, 0.0] by {
      assert [1, 0][..1] == [1] && [1][..0] == [];
      assert Co.Numbers(value, []) == [];
      assert Co.Numbers(value, [1]) == [1.0];
    }
  }

  function TinyConfig(): Rt.Config { Rt.Config(TinyNet(), None, 9, None, 8) }

  function Four(): Rt.Params { Rt.Params(true, 4, true) }

  lemma TinyConfigValid()
    ensures TinyConfig().Valid()
  {
  }

  function Zeros(n: nat): (r: seq<Token>)
    ensures |r| == n && forall i :: 0 <= i < n ==> r[i] == 0
  {
    if n == 0 then [] else [0] + Zeros(n - 1)
  }

  /** Plain decoding emits zeros until the budget is spent. */
  lemma {:induction false} PlainZeros(ctx: seq<Token>)
    requires TinyConfig().Valid() && 1 <= |ctx| <= 5 && ctx[|ctx| - 1] < 2
    ensures Rt.GreedyRun(TinyConfig(), Four(), 1, ctx) == Rt.Run(Zeros(5 - |ctx|), Rt.Length)
    decreases 5 - |ctx|
  {
    var c, p := TinyConfig(), Four();
    if |ctx| < 5 {
      assert B.Argmax([1.0, 0.0]) == 0;
      assert Rt.PlainStep(c, p, 1, ctx) == Rt.Emit(0);
      PlainZeros(ctx + [0]);
    }
  }

  /** After the round the decode loop may think of the state as this: blocks up to position 2 may be on disk,
    * and there is a way back to every position. */
  lemma RoundShows(pair: Pair, s: SeqState)
    requires Tiny(pair).Valid() && s.Valid(Tiny(pair)) && !s.recording && s.tokens == [1, 1, 1] && s.blockSize == 2
    requires AfterRound(Tiny(pair), s.cells, s.spilled)
    ensures Co.Shows(Tiny(pair), s, B.SeqState([1, 1, 1], 2, 0, 0, 0))
  {
    hide Model.Valid, CellsOk, ReadUpTo, Recorded;
    Co.RecordedWayBack(Tiny(pair), s, 0);
    assert EndsBy(0, 2, 2);
    assert Co.ColdTo(s.spilled, 2, 2);
  }

  /** The walk kept no guess: the first answer already disagrees. */
  lemma NothingKept(after: seq<Token>, out: seq<Token>, walked: Option<Rt.StopReason>, j: nat)
    requires TinyConfig().Valid() && Rt.Walked(TinyConfig(), Four(), 1, [1], [1, 1], after, out, walked, j)
    ensures j == 0 && |after| == 2 && out == [0]
  {
    var c, p := TinyConfig(), Four();
    hide Rt.PlainStep;
    assert walked.None? && j > 0 ==> out[0] == 1;
    PlainZeros([1]);
    if walked.None? {
      var rest := Rt.GreedyRun(c, p, 1, after);
      assert Zeros(4)[0] == (out + rest.tokens)[0] == out[0];
    }
  }

  lemma RoundAnswers(pair: Pair, numbers: seq<B.Logits>)
    requires Tiny(pair).Valid() && |numbers| == 3
    requires forall i :: 0 <= i < 3 ==> numbers[i] == Co.Says(Tiny(pair), (x: F32) => x as real, [1, 1, 1][..3 - 3 + 1 + i])
    ensures forall i :: 0 <= i <= 2 ==> numbers[i] == TinyNet().logits([1] + [1, 1][..i])
  {
    hide Tiny, Co.Says;
    forall i | 0 <= i <= 2 ensures numbers[i] == TinyNet().logits([1] + [1, 1][..i]) {
      TinyNetIs(pair, [1, 1, 1][..3 - 3 + 1 + i]);
    }
  }

  /** The round over real layers, and the cut the loop will ask for. `kv` is the attention layer's cache on
    * pages; unless its disk fails it has the block there too, and does not take the cut either. */
  method RealRound(pair: P.Pair) returns (numbers: seq<B.Logits>, fits: bool, kv: K.KVCacheState, read: bool, kvFits: bool)
    requires |pair.key| == |pair.value| == 1
    ensures |numbers| == 3 && forall i :: 0 <= i <= 2 ==> numbers[i] == TinyNet().logits([1] + [1, 1][..i])
    ensures !fits && (read ==> !kvFits)
  {
    hide Model.Valid, Tiny, AfterRound, CellsOk, CellOk, StateAfter, Pg.Backs, Ro.AnswersAre, R.Recoverable, R.CutsSomewhere, R.InTime, NothingOnDisk, Co.Says, Co.Shows;
    var p := Pg.Taken(pair);
    kv, read := PagedRound(pair);
    kvFits := false;
    var s, answers := TakeRound(p);
    BeforeCut(p, s.cells, s.spilled);
    if read {
      SamePairs(p, s.cells[1]);
      kvFits := Pg.CutOne(kv, 1, s.cells[1].items, s.spilled[1]);
    }
    RoundShows(p, s);
    assert Co.Shows(Tiny(p), s, B.SeqState([1, 1, 1], 2, 0, 0, 0));
    numbers := Co.ReadAll(Tiny(p), (v: F32) => v as real, s.tokens, answers);
    RoundAnswers(p, numbers);
    var cut := R.Truncate(Tiny(p), s, 1);
    fits := cut.Ok?;
  }

  /** Speculation with a window narrower than the guesses, cut short: the round's answers are plain
    * decoding's, the real cut is refused, and the loop ends with `ContextFull` after one token, where
    * plain decoding goes on for three more. */
  method CutShort(pair: P.Pair) returns (x: Rt.Session, out: seq<Token>, stop: Option<Rt.StopReason>)
    requires |pair.key| == |pair.value| == 1
    ensures TinyConfig().Valid() && fresh(x) && x.refused && x.promptLen == 1
    ensures out == [0] && stop == Some(Rt.ContextFull)
    ensures Rt.GreedyRun(TinyConfig(), Four(), 1, [1]) == Rt.Run(Zeros(4), Rt.Length)
  {
    TinyConfigValid();
    PlainZeros([1]);
    hide Rt.GreedyRun, Rt.PlainStep, Rt.Advanced, Zeros;
    var numbers, fits, kv, read, kvFits := RealRound(pair);
    x := AfterProbe();
    ghost var j, walked;
    out, stop, j, walked := Rt.Judge(TinyConfig(), x, Four(), 1, [1, 1], numbers, !fits, 2);
    NothingKept(x.context, out, walked, j);
  }

  /** The session once the pass over its one token and the two guesses has come back. */
  method AfterProbe() returns (x: Rt.Session)
    ensures fresh(x) && x.context == [1] && x.promptLen == 1 && x.s == B.SeqState([1, 1, 1], 2, 0, 0, 0)
    ensures x.draftSeq == None && !x.finished && !x.refused && x.specGain == 1.0
  {
    var prompt: seq<Token> := [1];
    var pending := new Rt.Pending(B.NewSeq(0), prompt, 0, false);
    x := new Rt.Session(pending);
    x.s := B.SeqState([1, 1, 1], 2, 0, 0, 0);
  }
}
