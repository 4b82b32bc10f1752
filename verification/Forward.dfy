/** The forward pass as values: layers with an attention cache or a recurrent memory, run token by
  * token or layer by layer. What one layer does to one token is left uninterpreted, and the two
  * orders are proved to leave the same state and the same hidden states, bit for bit. */
module Forward {
  import opened Basics
  import opened Experts

  type Token = nat

  /** A weight row as the file packs it, and an activation as a kernel prepares it. */
  type Packed = seq<int>

  type Ready = seq<int>

  datatype Pair = Pair(key: Vec, value: Vec)

  /** What a recurrent layer carries: its convolution inputs and its matrix state. */
  datatype Memory = Memory(conv: Vec, state: Vec)

  /** A layer's own part. An attention layer stores one pair per position and reads back a window
    * of them; a recurrent one folds every token into its memory. */
  datatype Mixer =
    | Attention(window: Option<nat>, entry: (Vec, nat) -> Pair, attend: (Vec, nat, seq<Pair>) -> Vec)
    | Recurrent(zero: Memory, step: (Memory, Vec) -> (Memory, Vec))

  datatype Ffn = Dense(w: Swiglu<Packed, Ready>) | Moe(w: Swiglu<Packed, Ready>, route: Vec -> seq<Pick>)

  datatype Block = Block(
    k: Kernel<Packed, Ready>, d: nat, c: nat, norm: Vec -> Vec, win: seq<Packed>, mixer: Mixer, wout: seq<Packed>,
    postNorm: Vec -> Vec, ffn: Ffn, add: (F32, F32) -> F32)
  {
    /** Every vector has the width the next operation expects. */
    ghost predicate Valid() {
      && |wout| == d
      && (forall x :: |norm(x)| == d && |postNorm(x)| == d)
      && (match mixer
          case Attention(_, entry, attend) => forall p, pos, seen :: |attend(p, pos, seen)| == c
          case Recurrent(_, step) => forall mem, p :: |step(mem, p).1| == c)
      && ffn.w.Valid() && ffn.w.d == d && (ffn.Dense? ==> |ffn.w.gate| > 0)
      && (ffn.Moe? ==> forall h :: Routed(ffn.route(h), |ffn.w.gate|))
    }

    function Sum(x: Vec, y: Vec): (r: Vec)
      requires |x| == |y|
      ensures |r| == |x|
    {
      seq(|x|, i requires 0 <= i < |x| => add(x[i], y[i]))
    }

    ghost function Feed(h: Vec): (r: Vec)
      requires Valid()
      ensures |r| == d
    {
      if ffn.Dense? then Expert(ffn.w, 0, h) else Alone(ffn.w, ffn.route(h), h)
    }

    function Enter(x: Vec): Vec { k.Apply(win, norm(x)) }

    /** What follows the mixer: its output projected, the residual, the feed-forward. */
    ghost function Close(x: Vec, context: Vec): (r: Vec)
      requires Valid() && |x| == d
      ensures |r| == d
    {
      var y := Sum(x, k.Apply(wout, context));
      Sum(y, Feed(postNorm(y)))
    }
  }

  /** Both residuals, number by number: what entered, what the mixer made of it, and the feed-forward of their
    * normalised sum. */
  lemma ResidualAt(b: Block, x: Vec, context: Vec, i: nat)
    requires b.Valid() && |x| == b.d && i < b.d
    ensures
      var mixed := b.k.Apply(b.wout, context);
      && |mixed| == b.d
      && exists y: Vec ::
        && |y| == b.d && (forall j :: 0 <= j < b.d ==> y[j] == b.add(x[j], mixed[j]))
        && b.Close(x, context)[i] == b.add(y[i], b.Feed(b.postNorm(y))[i])
  {
    hide Block.Feed, Expert, Alone;
    var y := b.Sum(x, b.k.Apply(b.wout, context));
    assert |y| == b.d && forall j :: 0 <= j < b.d ==> y[j] == b.add(x[j], b.k.Apply(b.wout, context)[j]);
  }

  /** One layer's state: one entry per position (empty pairs for a recurrent layer, which only counts
    * them) and, for a recurrent layer, its memory. */
  datatype Core = Core(items: seq<Pair>, memory: Option<Memory>)

  /** The positions attention reads for the newest token. */
  function Seen(window: Option<nat>, items: seq<Pair>): seq<Pair> {
    match window
    case None => items
    case Some(w) => items[Max(|items| - w, 0)..]
  }

  function Mix(mixer: Mixer, core: Core, p: Vec): (Core, Vec) {
    match mixer
    case Attention(window, entry, attend) =>
      var items := core.items + [entry(p, |core.items|)];
      (Core(items, core.memory), attend(p, |core.items|, Seen(window, items)))
    case Recurrent(zero, step) =>
      var next := step(if core.memory.Some? then core.memory.value else zero, p);
      (Core(core.items + [Pair([], [])], Some(next.0)), next.1)
  }

  /** One token through one layer. */
  ghost function Step(b: Block, core: Core, x: Vec): (Core, Vec)
    requires b.Valid() && |x| == b.d
  {
    var next := Mix(b.mixer, core, b.Enter(x));
    (next.0, b.Close(x, next.1))
  }

  datatype Model = Model(
    blocks: seq<Block>, vocab: nat, d: nat, embed: Token -> Vec, outputNorm: Vec -> Vec,
    k: Kernel<Packed, Ready>, head: seq<Packed>)
  {
    ghost predicate Valid() {
      && blocks != [] && (forall l :: 0 <= l < |blocks| ==> blocks[l].Valid() && blocks[l].d == d)
      && (forall t :: |embed(t)| == d) && forall x :: |outputNorm(x)| == d
    }

    /** The output norm and head of one hidden state. */
    function Answer(x: Vec): Vec { k.Apply(head, outputNorm(x)) }
  }

  /** What a layer holds before any token: a recurrent one starts from its zero memory. */
  function Nothing(mixer: Mixer): Core {
    Core([], if mixer.Recurrent? then Some(mixer.zero) else None)
  }

  function Fresh(m: Model): seq<Core> {
    seq(|m.blocks|, l requires 0 <= l < |m.blocks| => Nothing(m.blocks[l].mixer))
  }

  predicate Wide(xs: seq<Vec>, d: nat) {
    forall i :: 0 <= i < |xs| ==> |xs[i]| == d
  }

  function Embedded(m: Model, tokens: seq<Token>): (r: seq<Vec>)
    ensures |r| == |tokens|
  {
    seq(|tokens|, i requires 0 <= i < |tokens| => m.embed(tokens[i]))
  }

  // ---------------------------------------------------------------- token by token

  /** One token through the layers below `l`. */
  ghost function Up(m: Model, cores: seq<Core>, x: Vec, l: nat): (r: (seq<Core>, Vec))
    requires m.Valid() && |cores| == |m.blocks| && l <= |m.blocks| && |x| == m.d
    ensures |r.0| == |cores| && |r.1| == m.d
    ensures forall j :: l <= j < |cores| ==> r.0[j] == cores[j]
  {
    if l == 0 then (cores, x)
    else
      var below := Up(m, cores, x, l - 1);
      var next := Step(m.blocks[l - 1], below.0[l - 1], below.1);
      (below.0[l - 1 := next.0], next.1)
  }

  /** Tokens one at a time, each through every layer before the next begins. */
  ghost function TokenMajor(m: Model, cores: seq<Core>, xs: seq<Vec>): (r: (seq<Core>, seq<Vec>))
    requires m.Valid() && |cores| == |m.blocks| && Wide(xs, m.d)
    ensures |r.0| == |cores| && |r.1| == |xs| && Wide(r.1, m.d)
  {
    if xs == [] then (cores, [])
    else
      var before := TokenMajor(m, cores, xs[..|xs| - 1]);
      var next := Up(m, before.0, xs[|xs| - 1], |m.blocks|);
      (next.0, before.1 + [next.1])
  }

  /** Every layer's state after consuming `tokens` one at a time from nothing. */
  ghost function StateAfter(m: Model, tokens: seq<Token>): (r: seq<Core>)
    requires m.Valid()
    ensures |r| == |m.blocks|
  {
    TokenMajor(m, Fresh(m), Embedded(m, tokens)).0
  }

  /** The last token's final hidden state, all tokens consumed one at a time from nothing. */
  ghost function Hidden(m: Model, tokens: seq<Token>): (r: Vec)
    requires m.Valid() && tokens != []
    ensures |r| == m.d
  {
    TokenMajor(m, Fresh(m), Embedded(m, tokens)).1[|tokens| - 1]
  }

  // ---------------------------------------------------------------- layer by layer

  /** Many tokens through one layer. */
  ghost function Run(b: Block, core: Core, xs: seq<Vec>): (r: (Core, seq<Vec>))
    requires b.Valid() && Wide(xs, b.d)
    ensures |r.1| == |xs| && Wide(r.1, b.d)
  {
    if xs == [] then (core, [])
    else
      var before := Run(b, core, xs[..|xs| - 1]);
      var next := Step(b, before.0, xs[|xs| - 1]);
      (next.0, before.1 + [next.1])
  }

  /** Many tokens through the layers below `l`, one layer at a time. */
  ghost function LayerMajor(m: Model, cores: seq<Core>, xs: seq<Vec>, l: nat): (r: (seq<Core>, seq<Vec>))
    requires m.Valid() && |cores| == |m.blocks| && l <= |m.blocks| && Wide(xs, m.d)
    ensures |r.0| == |cores| && |r.1| == |xs| && Wide(r.1, m.d)
    ensures forall j :: l <= j < |cores| ==> r.0[j] == cores[j]
  {
    if l == 0 then (cores, xs)
    else
      var below := LayerMajor(m, cores, xs, l - 1);
      var next := Run(m.blocks[l - 1], below.0[l - 1], below.1);
      (below.0[l - 1 := next.0], next.1)
  }

  lemma {:induction false} SettledBelow(m: Model, cores: seq<Core>, xs: seq<Vec>, l: nat, j: nat)
    requires m.Valid() && |cores| == |m.blocks| && j < l <= |m.blocks| && Wide(xs, m.d)
    ensures LayerMajor(m, cores, xs, |m.blocks|).0[j] == LayerMajor(m, cores, xs, l).0[j]
    decreases |m.blocks| - l
  {
    hide Model.Valid, Block.Valid, Step, Run, Wide;
    if l < |m.blocks| {
      SettledBelow(m, cores, xs, l + 1, j);
    }
  }

  /** One more token at the end of a batch: below layer `l` it is as if the batch had gone through
    * every layer first and the token had followed alone. */
  lemma {:induction false} OneMore(m: Model, cores: seq<Core>, xs: seq<Vec>, x: Vec, l: nat)
    requires m.Valid() && |cores| == |m.blocks| && l <= |m.blocks| && Wide(xs, m.d) && |x| == m.d
    ensures Wide(xs + [x], m.d)
    ensures
      var settled := LayerMajor(m, cores, xs, |m.blocks|).0;
      var both := LayerMajor(m, cores, xs + [x], l);
      var alone := Up(m, settled, x, l);
      && both.1 == LayerMajor(m, cores, xs, l).1 + [alone.1]
      && forall j :: 0 <= j < l ==> both.0[j] == alone.0[j]
  {
    hide Model.Valid, Block.Valid, Step, Run;
    if l > 0 {
      OneMore(m, cores, xs, x, l - 1);
      var below := LayerMajor(m, cores, xs, l - 1);
      var alone := Up(m, LayerMajor(m, cores, xs, |m.blocks|).0, x, l - 1);
      SettledBelow(m, cores, xs, l, l - 1);
      BlockFits(m, l - 1);
      RunPush(m.blocks[l - 1], cores[l - 1], below.1, alone.1);
      var next := Step(m.blocks[l - 1], alone.0[l - 1], alone.1);
      assert Up(m, LayerMajor(m, cores, xs, |m.blocks|).0, x, l) == (alone.0[l - 1 := next.0], next.1);
      assert LayerMajor(m, cores, xs + [x], l).0[l - 1] == next.0;
    }
  }

  lemma BlockFits(m: Model, l: nat)
    requires m.Valid() && l < |m.blocks|
    ensures m.blocks[l].Valid() && m.blocks[l].d == m.d
  {
  }

  lemma RunPush(b: Block, core: Core, ys: seq<Vec>, y: Vec)
    requires b.Valid() && Wide(ys, b.d) && |y| == b.d
    ensures Wide(ys + [y], b.d)
    ensures
      var before := Run(b, core, ys);
      var next := Step(b, before.0, y);
      Run(b, core, ys + [y]) == (next.0, before.1 + [next.1])
  {
    assert (ys + [y])[..|ys|] == ys;
  }

  /** Layer by layer is token by token. */
  lemma {:induction false} LayerMajorIsTokenMajor(m: Model, cores: seq<Core>, xs: seq<Vec>)
    requires m.Valid() && |cores| == |m.blocks| && Wide(xs, m.d)
    ensures LayerMajor(m, cores, xs, |m.blocks|) == TokenMajor(m, cores, xs)
    decreases |xs|
  {
    hide Model.Valid, Block.Valid, Step, Run;
    if xs == [] {
      NothingMoves(m, cores, |m.blocks|);
    } else {
      var front, x := xs[..|xs| - 1], xs[|xs| - 1];
      LayerMajorIsTokenMajor(m, cores, front);
      OneMore(m, cores, front, x, |m.blocks|);
      assert front + [x] == xs;
      assert LayerMajor(m, cores, xs, |m.blocks|).0 == Up(m, TokenMajor(m, cores, front).0, x, |m.blocks|).0;
    }
  }

  lemma {:induction false} NothingMoves(m: Model, cores: seq<Core>, l: nat)
    requires m.Valid() && |cores| == |m.blocks| && l <= |m.blocks|
    ensures LayerMajor(m, cores, [], l) == (cores, [])
  {
    if l > 0 {
      NothingMoves(m, cores, l - 1);
      var c := cores[l - 1];
      assert Run(m.blocks[l - 1], c, []) == (c, []);
      assert cores[l - 1 := c] == cores;
    }
  }

  // ---------------------------------------------------------------- splitting a context across calls

  lemma {:induction false} Continue(m: Model, cores: seq<Core>, xs: seq<Vec>, ys: seq<Vec>)
    requires m.Valid() && |cores| == |m.blocks| && Wide(xs, m.d) && Wide(ys, m.d)
    ensures Wide(xs + ys, m.d)
    ensures
      var first := TokenMajor(m, cores, xs);
      var second := TokenMajor(m, first.0, ys);
      TokenMajor(m, cores, xs + ys) == (second.0, first.1 + second.1)
    decreases |ys|
  {
    hide Model.Valid, Block.Valid, Step, Run, Up;
    if ys == [] {
      assert xs + ys == xs;
      assert TokenMajor(m, cores, xs).1 + [] == TokenMajor(m, cores, xs).1;
    } else {
      Continue(m, cores, xs, ys[..|ys| - 1]);
      var front, y := ys[..|ys| - 1], ys[|ys| - 1];
      assert (xs + ys)[..|xs + ys| - 1] == xs + front;
      var first := TokenMajor(m, cores, xs);
      var middle := TokenMajor(m, first.0, front);
      var next := Up(m, middle.0, y, |m.blocks|);
      assert TokenMajor(m, cores, xs + ys) == (next.0, (first.1 + middle.1) + [next.1]);
      assert (first.1 + middle.1) + [next.1] == first.1 + (middle.1 + [next.1]);
    }
  }

  lemma EmbeddedConcat(m: Model, a: seq<Token>, b: seq<Token>)
    ensures Embedded(m, a + b) == Embedded(m, a) + Embedded(m, b)
  {
  }

  /** Consuming more tokens from where `done` left off is having consumed them all. */
  lemma ContinueFrom(m: Model, done: seq<Token>, more: seq<Token>)
    requires m.Valid()
    ensures StateAfter(m, done + more) == TokenMajor(m, StateAfter(m, done), Embedded(m, more)).0
    ensures forall i :: 0 <= i < |more| ==>
      TokenMajor(m, StateAfter(m, done), Embedded(m, more)).1[i] == Hidden(m, done + more[..i + 1])
  {
    EmbeddedConcat(m, done, more);
    Continue(m, Fresh(m), Embedded(m, done), Embedded(m, more));
    forall i | 0 <= i < |more|
      ensures TokenMajor(m, StateAfter(m, done), Embedded(m, more)).1[i] == Hidden(m, done + more[..i + 1])
    {
      HiddenAt(m, done, more, i);
    }
  }

  lemma HiddenAt(m: Model, done: seq<Token>, more: seq<Token>, i: nat)
    requires m.Valid() && i < |more|
    ensures TokenMajor(m, StateAfter(m, done), Embedded(m, more)).1[i] == Hidden(m, done + more[..i + 1])
  {
    hide Up, Block.Valid;
    var upTo := more[..i + 1];
    EmbeddedConcat(m, done, upTo);
    Continue(m, Fresh(m), Embedded(m, done), Embedded(m, upTo));
    EmbeddedConcat(m, upTo, more[i + 1..]);
    assert upTo + more[i + 1..] == more;
    Continue(m, StateAfter(m, done), Embedded(m, upTo), Embedded(m, more[i + 1..]));
  }

  /** Inside one layer of a chunk, the state after the chunk's first `j` tokens is the state token by
    * token processing has there. */
  lemma LayerInside(m: Model, cores: seq<Core>, xs: seq<Vec>, l: nat, j: nat)
    requires m.Valid() && |cores| == |m.blocks| && l < |m.blocks| && Wide(xs, m.d) && j <= |xs|
    ensures Run(m.blocks[l], cores[l], LayerMajor(m, cores, xs, l).1[..j]).0 == TokenMajor(m, cores, xs[..j]).0[l]
  {
    hide Model.Valid, Block.Valid, Step, Run, Up;
    Causal(m, cores, xs, l, j);
    LayerMajorIsTokenMajor(m, cores, xs[..j]);
    SettledBelow(m, cores, xs[..j], l + 1, l);
  }

  /** Later tokens do not reach back. */
  lemma {:induction false} Causal(m: Model, cores: seq<Core>, xs: seq<Vec>, l: nat, j: nat)
    requires m.Valid() && |cores| == |m.blocks| && l <= |m.blocks| && Wide(xs, m.d) && j <= |xs|
    ensures LayerMajor(m, cores, xs, l).1[..j] == LayerMajor(m, cores, xs[..j], l).1
    decreases |xs|
  {
    hide Model.Valid, Block.Valid, Step, Run, Up;
    if j == |xs| {
      assert xs[..j] == xs;
    } else {
      var front, x := xs[..|xs| - 1], xs[|xs| - 1];
      Causal(m, cores, front, l, j);
      OneMore(m, cores, front, x, l);
      assert front + [x] == xs && front[..j] == xs[..j];
    }
  }
}
