/** Batched matrix products and expert grouping. Everything a kernel does to one number is left
  * uninterpreted, so agreement here is bit for bit: the batched code applies the same operations
  * to the same operands in the same order as the code for one vector. */
module Experts {
  /** A single-precision number, as the bits it is stored in. */
  type F32 = int

  type Vec = seq<F32>

  /** A kernel prepares an activation once (leaving it be, or quantising it) and then takes the
    * dot product of any packed row with it. */
  datatype Kernel<!Row, !Ready> = Kernel(prepare: Vec -> Ready, dot: (Row, Ready) -> F32)
  {
    /** `matvec`: one result per row. */
    function Apply(weight: seq<Row>, x: Vec): (r: Vec)
      ensures |r| == |weight|
    {
      seq(|weight|, i requires 0 <= i < |weight| => dot(weight[i], prepare(x)))
    }
  }

  // ---------------------------------------------------------------- flat batches

  predicate Sized(xs: Vec, n: nat, d: nat) { |xs| == n * d }

  /** Vector `b` of a flat batch of `d`-wide vectors. */
  function Chunk(xs: Vec, b: nat, d: nat): Vec {
    if 0 <= b * d <= b * d + d <= |xs| then xs[b * d..b * d + d] else []
  }

  lemma {:induction false} Inside(b: nat, n: nat, d: nat)
    requires b < n
    ensures 0 <= b * d && b * d + d == (b + 1) * d <= n * d
    decreases n
  {
    assert n * d == (n - 1) * d + d;
    if b < n - 1 {
      Inside(b, n - 1, d);
    }
  }

  /** Two vectors of a batch do not overlap. */
  lemma Apart(s: nat, t: nat, d: nat)
    ensures s < t ==> s * d + d <= t * d
    ensures t < s ==> t * d + d <= s * d
  {
    if s < t {
      Inside(s, t, d);
    } else if t < s {
      Inside(t, s, d);
    }
  }

  lemma ChunkAt(xs: Vec, n: nat, d: nat, b: nat)
    requires Sized(xs, n, d) && b < n
    ensures |Chunk(xs, b, d)| == d && 0 <= b * d && b * d + d <= |xs|
    ensures forall i :: 0 <= i < d ==> Chunk(xs, b, d)[i] == xs[b * d + i]
  {
    Inside(b, n, d);
  }

  /** Appending one more vector to a batch. */
  lemma ChunkPush(xs: Vec, n: nat, d: nat, y: Vec, b: nat)
    requires Sized(xs, n, d) && |y| == d && b <= n
    ensures Sized(xs + y, n + 1, d)
    ensures Chunk(xs + y, b, d) == if b < n then Chunk(xs, b, d) else y
  {
    Inside(n, n + 1, d);
    if b < n {
      Inside(b, n, d);
      assert (xs + y)[b * d..b * d + d] == xs[b * d..b * d + d];
    } else {
      assert (xs + y)[n * d..n * d + d] == y;
    }
  }

  // ---------------------------------------------------------------- matrix products

  /** Vector `b` of the result is what `matvec` gives for vector `b` of the input. */
  ghost predicate ProductAt<Row, Ready>(k: Kernel<Row, Ready>, weight: seq<Row>, cols: nat, xs: Vec, out: Vec, b: nat) {
    Chunk(out, b, |weight|) == k.Apply(weight, Chunk(xs, b, cols))
  }

  function RowOf<Row, Ready>(k: Kernel<Row, Ready>, row: Row, cols: nat, xs: Vec, n: nat): (r: Vec)
    ensures |r| == n
  {
    seq(n, b requires 0 <= b < n => k.dot(row, k.prepare(Chunk(xs, b, cols))))
  }

  method Matvec<Row, Ready>(k: Kernel<Row, Ready>, weight: seq<Row>, x: Vec) returns (out: Vec)
    ensures out == k.Apply(weight, x)
  {
    var ready := k.prepare(x);
    out := [];
    for r := 0 to |weight|
      invariant |out| == r && forall q :: 0 <= q < r ==> out[q] == k.dot(weight[q], ready)
    {
      out := out + [k.dot(weight[r], ready)];
    }
  }

  /** `matmul`: the rows are the outer axis, so the products are laid down row by row and the result
    * is flipped at the end. */
  method Matmul<Row, Ready>(k: Kernel<Row, Ready>, weight: seq<Row>, cols: nat, xs: Vec, n: nat) returns (out: Vec)
    requires Sized(xs, n, cols)
    ensures Sized(out, n, |weight|)
    ensures forall b: nat :: b < n ==> ProductAt(k, weight, cols, xs, out, b)
  {
    if n == 1 {
      out := Matvec(k, weight, xs);
      assert Chunk(xs, 0, cols) == xs && Chunk(out, 0, |weight|) == out;
      return;
    }
    var ready := PrepareAll(k, cols, xs, n);
    var byRow: Vec := [];
    for r := 0 to |weight|
      invariant Sized(byRow, r, n)
      invariant forall q: nat :: q < r ==> Chunk(byRow, q, n) == RowOf(k, weight[q], cols, xs, n)
    {
      var row := DotAll(k, weight[r], cols, xs, n, ready);
      forall q: nat | q <= r ensures Chunk(byRow + row, q, n) == RowOf(k, weight[q], cols, xs, n) {
        ChunkPush(byRow, r, n, row, q);
      }
      ChunkPush(byRow, r, n, row, 0);
      byRow := byRow + row;
    }
    out := Flip(byRow, |weight|, n);
    forall b: nat | b < n ensures ProductAt(k, weight, cols, xs, out, b) {
      FlippedProduct(k, weight, cols, xs, n, byRow, out, b);
    }
  }

  lemma FlippedProduct<Row, Ready>(
    k: Kernel<Row, Ready>, weight: seq<Row>, cols: nat, xs: Vec, n: nat, byRow: Vec, out: Vec, b: nat)
    requires Sized(byRow, |weight|, n) && Sized(out, n, |weight|) && b < n
    requires forall q: nat :: q < |weight| ==> Chunk(byRow, q, n) == RowOf(k, weight[q], cols, xs, n)
    requires forall r: nat :: r < |weight| ==> FlippedRow(byRow, out, |weight|, n, r, n)
    ensures ProductAt(k, weight, cols, xs, out, b)
  {
    ChunkAt(out, n, |weight|, b);
    forall r: nat | r < |weight|
      ensures Chunk(out, b, |weight|)[r] == k.Apply(weight, Chunk(xs, b, cols))[r]
    {
      assert FlippedRow(byRow, out, |weight|, n, r, n) && FlippedAt(byRow, out, |weight|, n, b, r);
      assert Chunk(byRow, r, n)[b] == RowOf(k, weight[r], cols, xs, n)[b];
    }
  }

  method PrepareAll<Row, Ready>(k: Kernel<Row, Ready>, cols: nat, xs: Vec, n: nat) returns (ready: seq<Ready>)
    requires Sized(xs, n, cols)
    ensures |ready| == n && forall b :: 0 <= b < n ==> ready[b] == k.prepare(Chunk(xs, b, cols))
  {
    ready := [];
    for b := 0 to n
      invariant |ready| == b && forall c :: 0 <= c < b ==> ready[c] == k.prepare(Chunk(xs, c, cols))
    {
      Inside(b, n, cols);
      ready := ready + [k.prepare(xs[b * cols..b * cols + cols])];
    }
  }

  /** One row, read once and dotted against every vector. */
  method DotAll<Row, Ready>(k: Kernel<Row, Ready>, row: Row, ghost cols: nat, ghost xs: Vec, n: nat, ready: seq<Ready>)
    returns (dots: Vec)
    requires |ready| == n && forall b :: 0 <= b < n ==> ready[b] == k.prepare(Chunk(xs, b, cols))
    ensures dots == RowOf(k, row, cols, xs, n)
  {
    dots := [];
    for b := 0 to n
      invariant |dots| == b && forall c :: 0 <= c < b ==> dots[c] == RowOf(k, row, cols, xs, n)[c]
    {
      dots := dots + [k.dot(row, ready[b])];
    }
  }

  /** Row `r`'s product with vector `b` has moved to where vector `b`'s results are. */
  ghost predicate FlippedAt(byRow: Vec, out: Vec, rows: nat, n: nat, b: nat, r: nat)
    requires b < n && r < rows && Sized(byRow, rows, n) && Sized(out, n, rows)
  {
    ChunkAt(out, n, rows, b);
    ChunkAt(byRow, rows, n, r);
    Chunk(out, b, rows)[r] == Chunk(byRow, r, n)[b]
  }

  /** Number `i` of vector `b` becomes `x`. */
  function Put(xs: Vec, b: nat, d: nat, i: nat, x: F32): Vec {
    if 0 <= b * d + i < |xs| then xs[b * d + i := x] else xs
  }

  lemma PutAt(xs: Vec, n: nat, d: nat, b: nat, i: nat, x: F32, c: nat)
    requires Sized(xs, n, d) && b < n && i < d && c < n
    ensures Sized(Put(xs, b, d, i, x), n, d) && |Chunk(xs, c, d)| == d
    ensures Chunk(Put(xs, b, d, i, x), c, d) == if c == b then Chunk(xs, c, d)[i := x] else Chunk(xs, c, d)
  {
    ChunkAt(xs, n, d, b);
    ChunkAt(xs, n, d, c);
    ChunkAt(Put(xs, b, d, i, x), n, d, c);
    Apart(b, c, d);
  }

  /** The first `done` vectors have their products with row `r`. */
  ghost predicate FlippedRow(byRow: Vec, out: Vec, rows: nat, n: nat, r: nat, done: nat)
    requires done <= n && r < rows && Sized(byRow, rows, n) && Sized(out, n, rows)
  {
    forall b: nat :: b < done ==> FlippedAt(byRow, out, rows, n, b, r)
  }

  method FlipOne(byRow: Vec, was: Vec, rows: nat, n: nat, b: nat, r: nat) returns (out: Vec)
    requires b < n && r < rows && Sized(byRow, rows, n) && Sized(was, n, rows)
    requires FlippedRow(byRow, was, rows, n, r, b)
    ensures Sized(out, n, rows) && FlippedRow(byRow, out, rows, n, r, b + 1)
    ensures forall q: nat :: q < r && FlippedRow(byRow, was, rows, n, q, n) ==> FlippedRow(byRow, out, rows, n, q, n)
  {
    hide Chunk, Put, Sized;
    ChunkAt(byRow, rows, n, r);
    var x := Chunk(byRow, r, n)[b];
    out := Put(was, b, rows, r, x);
    PutAt(was, n, rows, b, r, x, b);
    forall c: nat, q: nat | c < n && q < rows && FlippedAt(byRow, was, rows, n, c, q)
      ensures FlippedAt(byRow, out, rows, n, c, q)
    {
      PutAt(was, n, rows, b, r, x, c);
    }
  }

  /** Row-major products become vector-major ones. */
  method Flip(byRow: Vec, rows: nat, n: nat) returns (out: Vec)
    requires Sized(byRow, rows, n)
    ensures Sized(out, n, rows)
    ensures forall r: nat :: r < rows ==> FlippedRow(byRow, out, rows, n, r, n)
  {
    out := seq(n * rows, _ => 0);
    assert Sized(out, n, rows);
    hide FlippedAt, Chunk, Sized;
    for r := 0 to rows
      invariant Sized(out, n, rows)
      invariant forall q: nat :: q < r ==> FlippedRow(byRow, out, rows, n, q, n)
    {
      for b := 0 to n
        invariant Sized(out, n, rows)
        invariant forall q: nat :: q < r ==> FlippedRow(byRow, out, rows, n, q, n)
        invariant FlippedRow(byRow, out, rows, n, r, b)
      {
        out := FlipOne(byRow, out, rows, n, b, r);
      }
    }
  }

  // ---------------------------------------------------------------- one expert

  /** The number-by-number operations of a feed-forward. */
  datatype Ops = Ops(silu: F32 -> F32, mul: (F32, F32) -> F32, addScaled: (F32, F32, F32) -> F32, zero: F32)

  /** Each expert's three matrices. */
  datatype Swiglu<!Row, !Ready> = Swiglu(
    k: Kernel<Row, Ready>, ops: Ops, d: nat, f: nat, gate: seq<seq<Row>>, up: seq<seq<Row>>, down: seq<seq<Row>>)
  {
    predicate Valid() {
      && |gate| == |up| == |down|
      && forall e :: 0 <= e < |gate| ==> |gate[e]| == f && |up[e]| == f && |down[e]| == d
    }
  }

  function Gated(ops: Ops, g: Vec, u: Vec): (r: Vec)
    requires |g| == |u|
    ensures |r| == |g|
  {
    seq(|g|, i requires 0 <= i < |g| => ops.mul(ops.silu(g[i]), u[i]))
  }

  /** The gate, bent, times the other half, number by number. */
  lemma GatedAt(ops: Ops, g: Vec, u: Vec, i: nat)
    requires |g| == |u| && i < |g|
    ensures Gated(ops, g, u)[i] == ops.mul(ops.silu(g[i]), u[i])
  {
  }

  /** Expert `e`'s answer for one hidden state. */
  function Expert<Row, Ready>(w: Swiglu<Row, Ready>, e: nat, h: Vec): (r: Vec)
    requires w.Valid() && e < |w.gate|
    ensures |r| == w.d
  {
    w.k.Apply(w.down[e], Gated(w.ops, w.k.Apply(w.gate[e], h), w.k.Apply(w.up[e], h)))
  }

  /** An expert's rows, read once for every hidden state that needs them. */
  method ExpertBatch<Row, Ready>(w: Swiglu<Row, Ready>, e: nat, hs: Vec, n: nat) returns (out: Vec)
    requires w.Valid() && e < |w.gate| && Sized(hs, n, w.d)
    ensures Sized(out, n, w.d)
    ensures forall b: nat :: b < n ==> Chunk(out, b, w.d) == Expert(w, e, Chunk(hs, b, w.d))
  {
    hide Chunk, Kernel<Row, Ready>.Apply;
    var g := Matmul(w.k, w.gate[e], w.d, hs, n);
    var u := Matmul(w.k, w.up[e], w.d, hs, n);
    out := Matmul(w.k, w.down[e], w.f, Gated(w.ops, g, u), n);
    forall b: nat | b < n
      ensures Chunk(out, b, w.d) == Expert(w, e, Chunk(hs, b, w.d))
    {
      assert ProductAt(w.k, w.gate[e], w.d, hs, g, b) && ProductAt(w.k, w.up[e], w.d, hs, u, b);
      assert ProductAt(w.k, w.down[e], w.f, Gated(w.ops, g, u), out, b);
      GatedChunk(w.ops, g, u, n, w.f, b);
    }
  }

  lemma GatedChunk(ops: Ops, g: Vec, u: Vec, n: nat, f: nat, b: nat)
    requires Sized(g, n, f) && Sized(u, n, f) && b < n
    ensures |Chunk(g, b, f)| == |Chunk(u, b, f)| == f
    ensures Chunk(Gated(ops, g, u), b, f) == Gated(ops, Chunk(g, b, f), Chunk(u, b, f))
  {
    ChunkAt(g, n, f, b);
    ChunkAt(u, n, f, b);
    ChunkAt(Gated(ops, g, u), n, f, b);
  }

  // ---------------------------------------------------------------- routing

  datatype Pick = Pick(expert: nat, weight: F32)

  datatype Member = Member(token: nat, weight: F32)

  /** The weights a token's routing gives expert `e`, in order. */
  function WeightsFor(picks: seq<Pick>, e: nat): seq<F32> {
    if picks == [] then []
    else
      var last := picks[|picks| - 1];
      WeightsFor(picks[..|picks| - 1], e) + if last.expert == e then [last.weight] else []
  }

  /** The weights an expert's list gives token `t`, in order. */
  function WeightsOf(members: seq<Member>, t: nat): seq<F32> {
    if members == [] then []
    else
      var last := members[|members| - 1];
      WeightsOf(members[..|members| - 1], t) + if last.token == t then [last.weight] else []
  }

  predicate Routed(picks: seq<Pick>, experts: nat) {
    forall i :: 0 <= i < |picks| ==> picks[i].expert < experts
  }

  predicate TokensBelow(members: seq<Member>, t: nat) {
    forall i :: 0 <= i < |members| ==> members[i].token < t
  }

  /** `members` is the routing of the first `t` tokens turned inside out. */
  ghost predicate Inverted(members: seq<seq<Member>>, picks: seq<seq<Pick>>, t: nat)
    requires t <= |picks|
  {
    && (forall e :: 0 <= e < |members| ==> TokensBelow(members[e], t))
    && (forall e: nat, s: nat :: e < |members| && s < t ==> SameWeights(members, picks, e, s))
  }

  predicate SameWeights(members: seq<seq<Member>>, picks: seq<seq<Pick>>, e: nat, s: nat)
    requires e < |members| && s < |picks|
  {
    WeightsOf(members[e], s) == WeightsFor(picks[s], e)
  }

  lemma {:induction false} NoneLater(members: seq<Member>, t: nat)
    requires TokensBelow(members, t)
    ensures WeightsOf(members, t) == []
  {
    if members != [] {
      NoneLater(members[..|members| - 1], t);
    }
  }

  lemma PushMember(members: seq<Member>, m: Member, t: nat)
    ensures WeightsOf(members + [m], t) == WeightsOf(members, t) + if m.token == t then [m.weight] else []
  {
    assert (members + [m])[..|members|] == members;
  }

  lemma PushPick(picks: seq<Pick>, j: nat, e: nat)
    requires j < |picks|
    ensures WeightsFor(picks[..j + 1], e) == WeightsFor(picks[..j], e) + if picks[j].expert == e then [picks[j].weight] else []
  {
    assert picks[..j + 1][..j] == picks[..j];
  }

  /** Which tokens each expert owes an answer to. */
  method Invert(picks: seq<seq<Pick>>, experts: nat) returns (members: seq<seq<Member>>)
    requires forall t :: 0 <= t < |picks| ==> Routed(picks[t], experts)
    ensures |members| == experts && Inverted(members, picks, |picks|)
  {
    members := seq(experts, _ => []);
    for t := 0 to |picks|
      invariant |members| == experts && Inverted(members, picks, t)
    {
      members := InvertOne(picks, t, members);
    }
  }

  method InvertOne(picks: seq<seq<Pick>>, t: nat, before: seq<seq<Member>>) returns (members: seq<seq<Member>>)
    requires t < |picks| && Routed(picks[t], |before|) && Inverted(before, picks, t)
    ensures |members| == |before| && Inverted(members, picks, t + 1)
  {
    members := before;
    forall e: nat | e < |before| ensures Partial(before, before, picks, t, 0, e) {
      NoneLater(before[e], t);
    }
    for j := 0 to |picks[t]|
      invariant |members| == |before|
      invariant forall e: nat :: e < |members| ==> Partial(before, members, picks, t, j, e)
    {
      var p := picks[t][j];
      ghost var was, j' := members, j + 1;
      members := members[p.expert := members[p.expert] + [Member(t, p.weight)]];
      forall e: nat | e < |members| ensures Partial(before, members, picks, t, j', e) {
        PartialStep(before, was, members, picks, t, j, e);
      }
    }
    forall e: nat, s: nat | e < |members| && s < t + 1 ensures SameWeights(members, picks, e, s) {
      assert Partial(before, members, picks, t, |picks[t]|, e);
      assert picks[t][..|picks[t]|] == picks[t];
      assert s < t ==> SameWeights(before, picks, e, s);
    }
    forall e | 0 <= e < |members| ensures TokensBelow(members[e], t + 1) {
      assert Partial(before, members, picks, t, |picks[t]|, e);
    }
  }

  /** Part-way through token `t`: its first `j` picks are filed, earlier tokens are as they were. */
  ghost predicate Partial(
    before: seq<seq<Member>>, members: seq<seq<Member>>, picks: seq<seq<Pick>>, t: nat, j: nat, e: nat)
    requires e < |members| == |before| && t < |picks| && j <= |picks[t]|
  {
    && TokensBelow(members[e], t + 1)
    && WeightsOf(members[e], t) == WeightsFor(picks[t][..j], e)
    && forall s: nat :: s < t ==> WeightsOf(members[e], s) == WeightsOf(before[e], s)
  }

  lemma PartialStep(
    before: seq<seq<Member>>, was: seq<seq<Member>>, members: seq<seq<Member>>, picks: seq<seq<Pick>>, t: nat, j: nat, e: nat)
    requires e < |was| == |before| && t < |picks| && j < |picks[t]| && picks[t][j].expert < |was|
    requires Partial(before, was, picks, t, j, e)
    requires
      var p := picks[t][j];
      members == was[p.expert := was[p.expert] + [Member(t, p.weight)]]
    ensures Partial(before, members, picks, t, j + 1, e)
  {
    var p := picks[t][j];
    PushPick(picks[t], j, e);
    if e == p.expert {
      forall s: nat
        ensures WeightsOf(members[e], s) == WeightsOf(was[e], s) + if t == s then [p.weight] else []
      {
        PushMember(was[e], Member(t, p.weight), s);
      }
    }
  }

  // ---------------------------------------------------------------- grouping

  function AddScaled(ops: Ops, acc: Vec, y: Vec, weight: F32): (r: Vec)
    requires |acc| == |y|
    ensures |r| == |acc|
  {
    seq(|acc|, i requires 0 <= i < |acc| => ops.addScaled(acc[i], y[i], weight))
  }

  lemma AddScaledAt(ops: Ops, acc: Vec, y: Vec, weight: F32, i: nat)
    requires |acc| == |y| && i < |acc|
    ensures AddScaled(ops, acc, y, weight)[i] == ops.addScaled(acc[i], y[i], weight)
  {
  }

  function AddEach(ops: Ops, acc: Vec, y: Vec, weights: seq<F32>): (r: Vec)
    requires |acc| == |y|
    ensures |r| == |acc|
  {
    if weights == [] then acc
    else AddScaled(ops, AddEach(ops, acc, y, weights[..|weights| - 1]), y, weights[|weights| - 1])
  }

  function Zeros(ops: Ops, n: nat): Vec { seq(n, _ => ops.zero) }

  /** A token that no expert is chosen for gets nothing. */
  lemma {:induction false} NobodyChosen<Row, Ready>(w: Swiglu<Row, Ready>, h: Vec, e: nat, i: nat)
    requires w.Valid() && e <= |w.gate| && i < w.d
    ensures TokenAfter(w, [], h, e)[i] == w.ops.zero
  {
    if e > 0 {
      NobodyChosen(w, h, e - 1, i);
    }
  }

  /** One token's output once the experts below `e` have answered, were it alone in the batch. */
  function TokenAfter<Row, Ready>(w: Swiglu<Row, Ready>, picks: seq<Pick>, h: Vec, e: nat): (r: Vec)
    requires w.Valid() && e <= |w.gate|
    ensures |r| == w.d
  {
    if e == 0 then Zeros(w.ops, w.d)
    else AddEach(w.ops, TokenAfter(w, picks, h, e - 1), Expert(w, e - 1, h), WeightsFor(picks, e - 1))
  }

  /** One token's feed-forward output, were it alone in the batch. */
  function Alone<Row, Ready>(w: Swiglu<Row, Ready>, picks: seq<Pick>, h: Vec): (r: Vec)
    requires w.Valid()
  {
    TokenAfter(w, picks, h, |w.gate|)
  }

  /** Token `t`'s vector in `out` once the experts below `e` have answered. */
  ghost predicate Each<Row, Ready>(w: Swiglu<Row, Ready>, picks: seq<seq<Pick>>, hs: Vec, out: Vec, e: nat, t: nat)
    requires w.Valid() && e <= |w.gate| && t < |picks|
  {
    Chunk(out, t, w.d) == TokenAfter(w, picks[t], Chunk(hs, t, w.d), e)
  }

  /** Part-way through scattering expert `e`'s answers: `done` are the members dealt with. */
  ghost predicate Scattered<Row, Ready>(
    w: Swiglu<Row, Ready>, picks: seq<seq<Pick>>, hs: Vec, out: Vec, e: nat, done: seq<Member>, t: nat)
    requires w.Valid() && e < |w.gate| && t < |picks|
  {
    var h := Chunk(hs, t, w.d);
    Chunk(out, t, w.d) == AddEach(w.ops, TokenAfter(w, picks[t], h, e), Expert(w, e, h), WeightsOf(done, t))
  }

  /** `add_scaled` into one vector of a flat batch; the others stay as they were. */
  method AddInto(ops: Ops, out: Vec, n: nat, d: nat, t: nat, y: Vec, weight: F32) returns (out': Vec)
    requires Sized(out, n, d) && t < n && |y| == d
    ensures Sized(out', n, d) && |Chunk(out, t, d)| == d
    ensures Chunk(out', t, d) == AddScaled(ops, Chunk(out, t, d), y, weight)
    ensures forall s: nat :: s < n && s != t ==> Chunk(out', s, d) == Chunk(out, s, d)
  {
    Inside(t, n, d);
    var at := t * d;
    out' := out[..at] + AddScaled(ops, out[at..at + d], y, weight) + out[at + d..];
    forall s: nat | s < n && s != t ensures Chunk(out', s, d) == Chunk(out, s, d) {
      ChunkAt(out, n, d, s);
      ChunkAt(out', n, d, s);
      Apart(s, t, d);
    }
  }

  /** `feed_forward_batch` of a mixture of experts, for any routing: gathered per expert, answered
    * a whole expert at a time and scattered back, every token gets exactly what it would get
    * alone in the batch. */
  method FeedForwardBatch<Row, Ready>(w: Swiglu<Row, Ready>, hs: Vec, picks: seq<seq<Pick>>) returns (out: Vec)
    requires w.Valid() && Sized(hs, |picks|, w.d)
    requires forall t :: 0 <= t < |picks| ==> Routed(picks[t], |w.gate|)
    ensures Sized(out, |picks|, w.d)
    ensures forall t: nat :: t < |picks| ==> Chunk(out, t, w.d) == Alone(w, picks[t], Chunk(hs, t, w.d))
  {
    var n := |picks|;
    var members := Invert(picks, |w.gate|);
    out := Zeros(w.ops, n * w.d);
    forall t: nat | t < n ensures Each(w, picks, hs, out, 0, t) {
      Inside(t, n, w.d);
    }
    hide Chunk;
    for e := 0 to |w.gate|
      invariant Sized(out, n, w.d)
      invariant forall t: nat :: t < n ==> Each(w, picks, hs, out, e, t)
    {
      forall t: nat | t < n ensures WeightsOf(members[e], t) == WeightsFor(picks[t], e) {
        assert SameWeights(members, picks, e, t);
      }
      var e' := e + 1;
      if members[e] == [] {
        forall t: nat | t < n ensures Each(w, picks, hs, out, e', t) {
          assert Each(w, picks, hs, out, e, t);
        }
      } else {
        out := ServeExpert(w, hs, picks, e, members[e], out, e');
      }
    }
    forall t: nat | t < n ensures Chunk(out, t, w.d) == Alone(w, picks[t], Chunk(hs, t, w.d)) {
      assert Each(w, picks, hs, out, |w.gate|, t);
    }
  }

  /** Gather the hidden states expert `e` owes answers for, answer them together, scatter. */
  method ServeExpert<Row, Ready>(
    w: Swiglu<Row, Ready>, hs: Vec, picks: seq<seq<Pick>>, e: nat, tokens: seq<Member>, before: Vec, ghost e': nat)
    returns (out: Vec)
    requires w.Valid() && e < |w.gate| && e' == e + 1 && Sized(hs, |picks|, w.d) && Sized(before, |picks|, w.d)
    requires forall t: nat :: t < |picks| ==> Each(w, picks, hs, before, e, t)
    requires forall t: nat :: t < |picks| ==> WeightsOf(tokens, t) == WeightsFor(picks[t], e)
    requires TokensBelow(tokens, |picks|)
    ensures Sized(out, |picks|, w.d)
    ensures forall t: nat :: t < |picks| ==> Each(w, picks, hs, out, e', t)
  {
    hide Chunk, Expert;
    var n := |picks|;
    var gathered := Gather(hs, n, w.d, tokens);
    var answers := ExpertBatch(w, e, gathered, |tokens|);
    out := before;
    ghost var done: seq<Member> := [];
    forall t: nat | t < n ensures Scattered(w, picks, hs, out, e, done, t) {
      assert Each(w, picks, hs, before, e, t);
    }
    for i := 0 to |tokens|
      invariant Sized(out, n, w.d) && done == tokens[..i]
      invariant forall t: nat :: t < n ==> Scattered(w, picks, hs, out, e, done, t)
    {
      var m := tokens[i];
      ChunkAt(answers, |tokens|, w.d, i);
      ghost var was, filed := out, done + [m];
      var answer := Chunk(answers, i, w.d);
      out := AddInto(w.ops, out, n, w.d, m.token, answer, m.weight);
      forall t: nat | t < n ensures Scattered(w, picks, hs, out, e, filed, t) {
        ChunkAt(was, n, w.d, t);
        ScatterOne(w, picks, hs, was, out, e, done, m, t);
      }
      done := filed;
    }
    assert done == tokens;
    forall t: nat | t < n ensures Each(w, picks, hs, out, e', t) {
      assert Scattered(w, picks, hs, out, e, done, t);
    }
  }

  lemma ScatterOne<Row, Ready>(
    w: Swiglu<Row, Ready>, picks: seq<seq<Pick>>, hs: Vec, was: Vec, out: Vec, e: nat, done: seq<Member>, m: Member, t: nat)
    requires w.Valid() && e < |w.gate| && t < |picks| && Scattered(w, picks, hs, was, e, done, t)
    requires |Chunk(was, t, w.d)| == w.d
    requires t == m.token ==>
      Chunk(out, t, w.d) == AddScaled(w.ops, Chunk(was, t, w.d), Expert(w, e, Chunk(hs, t, w.d)), m.weight)
    requires t != m.token ==> Chunk(out, t, w.d) == Chunk(was, t, w.d)
    ensures Scattered(w, picks, hs, out, e, done + [m], t)
  {
    hide Chunk, Expert, TokenAfter;
    PushMember(done, m, t);
    var ws := WeightsOf(done, t);
    if t == m.token {
      assert (ws + [m.weight])[..|ws|] == ws;
    } else {
      assert ws + [] == ws;
    }
  }

  method Gather(hs: Vec, n: nat, d: nat, tokens: seq<Member>) returns (gathered: Vec)
    requires Sized(hs, n, d) && TokensBelow(tokens, n)
    ensures Sized(gathered, |tokens|, d)
    ensures forall i: nat :: i < |tokens| ==> Chunk(gathered, i, d) == Chunk(hs, tokens[i].token, d)
  {
    gathered := [];
    for i := 0 to |tokens|
      invariant Sized(gathered, i, d)
      invariant forall j: nat :: j < i ==> Chunk(gathered, j, d) == Chunk(hs, tokens[j].token, d)
    {
      var one := Chunk(hs, tokens[i].token, d);
      ChunkAt(hs, n, d, tokens[i].token);
      forall j: nat | j <= i ensures Chunk(gathered + one, j, d) == Chunk(hs, tokens[j].token, d) {
        ChunkPush(gathered, i, d, one, j);
      }
      ChunkPush(gathered, i, d, one, 0);
      gathered := gathered + one;
    }
  }
}
