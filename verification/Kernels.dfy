/** The integer kernels and the decoders, loop for loop. Each kernel is proved to give, in exact
  * arithmetic, the sum of dequantised weight times scaled int8 activation; each decoder to write
  * exactly those weights. */
module Kernels {
  import opened Sums
  import opened Formats
  import opened Quants

  // ---------------------------------------------------------------- the integer dot product

  method DotScalar(a: seq<int>, b: seq<int>) returns (r: int)
    requires |a| == |b|
    ensures r == Dot(a, b)
  {
    r := 0;
    for i := 0 to |a|
      invariant r == Dot(a[..i], b[..i])
    {
      assert a[..i + 1][..i] == a[..i] && b[..i + 1][..i] == b[..i];
      r := r + a[i] * b[i];
    }
    assert a[..|a|] == a && b[..|b|] == b;
  }

  /** Four running sums. */
  datatype Lanes = Lanes(a: int, b: int, c: int, d: int) {
    function Sum(): int { a + b + c + d }
  }

  /** Eight products, added pairwise into the lanes. */
  function Accumulate(acc: Lanes, a: seq<int>, b: seq<int>, at: nat): Lanes
    requires at + 8 <= |a| == |b|
  {
    Lanes(
      acc.a + (a[at] * b[at] + a[at + 1] * b[at + 1]),
      acc.b + (a[at + 2] * b[at + 2] + a[at + 3] * b[at + 3]),
      acc.c + (a[at + 4] * b[at + 4] + a[at + 5] * b[at + 5]),
      acc.d + (a[at + 6] * b[at + 6] + a[at + 7] * b[at + 7]))
  }

  /** The lanes after `k` steps of eight. */
  function LanesAt(a: seq<int>, b: seq<int>, k: nat): Lanes
    requires 8 * k <= |a| == |b|
  {
    if k == 0 then Lanes(0, 0, 0, 0) else Accumulate(LanesAt(a, b, k - 1), a, b, 8 * (k - 1))
  }

  /** Every lane is a 32-bit integer. */
  predicate LanesFit(l: Lanes) { Fits32(l.a) && Fits32(l.b) && Fits32(l.c) && Fits32(l.d) }

  predicate Fits32(x: int) { -0x8000_0000 <= x < 0x8000_0000 }

  predicate AtMost(x: int, k: nat) { -32768 * k <= x <= 32768 * k }

  /** Eight int8 products put at most 2^15 into a lane. */
  lemma {:induction false} LanesWithin(a: seq<int>, b: seq<int>, k: nat)
    requires 8 * k <= |a| == |b| && Int8(a) && Int8(b)
    ensures
      var l := LanesAt(a, b, k);
      AtMost(l.a, k) && AtMost(l.b, k) && AtMost(l.c, k) && AtMost(l.d, k)
  {
    if k > 0 {
      LanesWithin(a, b, k - 1);
      var at := 8 * (k - 1);
      PairWithin(a, b, at);
      PairWithin(a, b, at + 2);
      PairWithin(a, b, at + 4);
      PairWithin(a, b, at + 6);
    }
  }

  lemma PairWithin(a: seq<int>, b: seq<int>, at: nat)
    requires at + 2 <= |a| == |b| && Int8(a) && Int8(b)
    ensures -32768 <= a[at] * b[at] + a[at + 1] * b[at + 1] <= 32768
  {
    Product8(a[at], b[at]);
    Product8(a[at + 1], b[at + 1]);
  }

  lemma EightMore(acc: Lanes, a: seq<int>, b: seq<int>, at: nat)
    requires at + 8 <= |a| == |b|
    ensures Accumulate(acc, a, b, at).Sum() - acc.Sum() == Dot(a[..at + 8], b[..at + 8]) - Dot(a[..at], b[..at])
  {
    DotStep(a, b, at);
    DotStep(a, b, at + 1);
    DotStep(a, b, at + 2);
    DotStep(a, b, at + 3);
    DotStep(a, b, at + 4);
    DotStep(a, b, at + 5);
    DotStep(a, b, at + 6);
    DotStep(a, b, at + 7);
  }

  lemma DotStep(a: seq<int>, b: seq<int>, i: nat)
    requires i < |a| == |b|
    ensures Dot(a[..i + 1], b[..i + 1]) == Dot(a[..i], b[..i]) + a[i] * b[i]
  {
    assert a[..i + 1][..i] == a[..i] && b[..i + 1][..i] == b[..i];
  }

  /** The vector kernel: sixteen at a time in four lanes, then the ragged tail. */
  method DotVector(a: seq<int>, b: seq<int>) returns (r: int)
    requires |a| == |b|
    ensures r == Dot(a, b)
  {
    hide Dot, Lanes.Sum, LanesAt;
    var chunks := |a| / 16;
    var lanes := DotChunks(a, b, chunks);
    r := lanes.Sum();
    for j := chunks * 16 to |a|
      invariant r == Dot(a[..j], b[..j])
    {
      DotStep(a, b, j);
      r := r + a[j] * b[j];
    }
    assert a[..|a|] == a && b[..|b|] == b;
  }

  method DotChunks(a: seq<int>, b: seq<int>, chunks: nat) returns (acc: Lanes)
    requires chunks * 16 <= |a| == |b|
    ensures acc.Sum() == Dot(a[..chunks * 16], b[..chunks * 16]) && acc == LanesAt(a, b, 2 * chunks)
  {
    hide Dot, Lanes.Sum, LanesAt;
    var done := 0;
    acc := Lanes(done, done, done, done);
    NoStep(a, b, done);
    while done < chunks
      invariant done <= chunks
      invariant acc.Sum() == Dot(a[..done * 16], b[..done * 16]) && acc == LanesAt(a, b, 2 * done)
    {
      acc := Sixteen(acc, a, b, done);
      done := done + 1;
    }
  }

  lemma NoStep(a: seq<int>, b: seq<int>, k: nat)
    requires k == 0 && |a| == |b|
    ensures Lanes(k, k, k, k) == LanesAt(a, b, 2 * k)
    ensures Lanes(k, k, k, k).Sum() == Dot(a[..k * 16], b[..k * 16])
  {
    hide LanesAt;
    NoLanes(a, b, 2 * k);
    assert k * 16 == k;
  }

  lemma NoLanes(a: seq<int>, b: seq<int>, k: nat)
    requires k == 0 && |a| == |b|
    ensures Lanes(k, k, k, k) == LanesAt(a, b, k)
  {
  }

  method Sixteen(before: Lanes, a: seq<int>, b: seq<int>, k: nat) returns (acc: Lanes)
    requires 16 * k + 16 <= |a| == |b| && before == LanesAt(a, b, 2 * k)
    ensures acc.Sum() - before.Sum() == Dot(a[..16 * k + 16], b[..16 * k + 16]) - Dot(a[..16 * k], b[..16 * k])
    ensures acc == LanesAt(a, b, 2 * k + 2)
  {
    hide Accumulate, Dot, Lanes.Sum;
    var at := 16 * k;
    EightMore(before, a, b, at);
    acc := Accumulate(before, a, b, at);
    assert acc == LanesAt(a, b, 2 * k + 1);
    EightMore(acc, a, b, at + 8);
    acc := Accumulate(acc, a, b, at + 8);
  }

  predicate Int8(xs: seq<int>) {
    forall i :: 0 <= i < |xs| ==> -128 <= xs[i] <= 127
  }

  /** Every product fits sixteen bits, and a run's sum fits thirty-two: nothing wraps. */
  lemma {:induction false} NothingWraps(a: seq<int>, b: seq<int>)
    requires |a| == |b| && Int8(a) && Int8(b)
    ensures forall i :: 0 <= i < |a| ==> -16384 <= a[i] * b[i] <= 16384
    ensures -16384 * |a| <= Dot(a, b) <= 16384 * |a|
    ensures -128 * |b| <= Total(b) <= 128 * |b|
  {
    forall i: nat | i < |a| ensures -16384 <= a[i] * b[i] <= 16384 {
      Product8(a[i], b[i]);
    }
    if a != [] {
      NothingWraps(a[..|a| - 1], b[..|b| - 1]);
    }
  }

  lemma Product8(x: int, y: int)
    requires -128 <= x <= 127 && -128 <= y <= 127
    ensures -16384 <= x * y <= 16384
  {
    if y >= 0 {
      Between(x, y);
    } else {
      Between(x, -y);
      assert x * y == -(x * -y);
    }
  }

  lemma {:induction false} Between(x: int, y: nat)
    requires -128 <= x <= 128
    ensures -128 * y <= x * y <= 128 * y
  {
    if y > 0 {
      Between(x, y - 1);
      assert x * y == x * (y - 1) + x;
    }
  }

  // ---------------------------------------------------------------- runs

  /** The products before position `j` are in `acc`. */
  predicate Summed(f: Format, row: seq<B8>, n: nat, xq: seq<int>, xs: seq<real>, j: nat, acc: real)
    requires Whole(f, row, n) && Activation(f, n, xq, xs)
  {
    acc == Sum(j, Products(f, row, n, xq, xs))
  }

  /** Sub-block `s` of block `b` is unpacked in `q`. */
  predicate Placed(f: Format, row: seq<B8>, n: nat, xq: seq<int>, xs: seq<real>, b: nat, s: nat, q: seq<int>) {
    && Whole(f, row, n) && Activation(f, n, xq, xs) && b < n && s < f.Subs() && (b + 1) * f.Bytes() <= |row|
    && |q| == f.Width() && Unpacked(f, Block(f, row, b), s, q)
    && At(f, b, s) + f.Width() <= |xq|
  }

  lemma InScales(f: Format, n: nat, xq: seq<int>, xs: seq<real>, b: nat, s: nat)
    requires Activation(f, n, xq, xs) && b < n && s < f.Subs()
    ensures At(f, b, s) / 32 < |xs|
  {
    ScaleIndex(f, n, b, s);
  }

  /** The numbers a sub-block is dotted with, and their scale. */
  function RunOf(f: Format, xq: seq<int>, b: nat, s: nat): seq<int>
    requires At(f, b, s) + f.Width() <= |xq|
  {
    xq[At(f, b, s)..At(f, b, s) + f.Width()]
  }

  /** The part of sub-block `s` of block `b`. */
  function PartAt(f: Format, row: seq<B8>, n: nat, xq: seq<int>, xs: seq<real>, b: nat, s: nat, q: seq<int>): real
    requires Placed(f, row, n, xq, xs, b, s, q)
  {
    InScales(f, n, xq, xs, b, s);
    Part(f, Block(f, row, b), s, xs[At(f, b, s) / 32], q, RunOf(f, xq, b, s))
  }

  lemma RunAdds(f: Format, row: seq<B8>, n: nat, xq: seq<int>, xs: seq<real>, b: nat, s: nat, q: seq<int>, acc: real)
    requires Placed(f, row, n, xq, xs, b, s, q) && Summed(f, row, n, xq, xs, At(f, b, s), acc)
    ensures Advanced(f, row, n, xq, xs, b, s, q, acc)
  {
    var off := At(f, b, s);
    assert off / 32 < |xs| by {
      InScales(f, n, xq, xs, b, s);
    }
    var part := PartAt(f, row, n, xq, xs, b, s, q);
    assert part == Part(f, Block(f, row, b), s, xs[off / 32], q, xq[off..off + |q|]);
    RunSum(f, row, n, xq, xs, b, s, q);
    hide PartAt, Part;
  }

  /** Adding its part takes the sum past the sub-block. */
  predicate Advanced(
    f: Format, row: seq<B8>, n: nat, xq: seq<int>, xs: seq<real>, b: nat, s: nat, q: seq<int>, acc: real)
    requires Placed(f, row, n, xq, xs, b, s, q)
  {
    Summed(f, row, n, xq, xs, At(f, b, s) + f.Width(), acc + PartAt(f, row, n, xq, xs, b, s, q))
  }

  /** Add one affine sub-block: one integer dot product, then the scale and the minimum. */
  method AddAffine(
    f: Format, ghost row: seq<B8>, ghost n: nat, xq: seq<int>, xs: seq<real>, b: nat, s: nat,
    scale: real, min: real, q: seq<int>, sum: int, acc: real)
    returns (r: real)
    requires Placed(f, row, n, xq, xs, b, s, q) && Summed(f, row, n, xq, xs, At(f, b, s), acc)
    requires scale == Scale(f, Block(f, row, b), s) && min == Minimum(f, Block(f, row, b), s)
    requires sum == Total(RunOf(f, xq, b, s))
    ensures Summed(f, row, n, xq, xs, At(f, b, s) + f.Width(), r)
  {
    RunAdds(f, row, n, xq, xs, b, s, q, acc);
    InScales(f, n, xq, xs, b, s);
    hide Scale, Minimum, Block, Summed, Unpacked, Dot, Total, Affine, At, RunOf, Whole;
    var dot := DotVector(q, RunOf(f, xq, b, s));
    r := acc + Affine(xs[At(f, b, s) / 32], scale, min, dot, sum);
  }

  /** Add one symmetric sub-block. */
  method AddSymmetric(
    f: Format, ghost row: seq<B8>, ghost n: nat, xq: seq<int>, xs: seq<real>, b: nat, s: nat,
    scale: real, q: seq<int>, acc: real)
    returns (r: real)
    requires Placed(f, row, n, xq, xs, b, s, q) && Summed(f, row, n, xq, xs, At(f, b, s), acc)
    requires scale == Scale(f, Block(f, row, b), s) && Minimum(f, Block(f, row, b), s) == 0.0
    ensures Summed(f, row, n, xq, xs, At(f, b, s) + f.Width(), r)
  {
    RunAdds(f, row, n, xq, xs, b, s, q, acc);
    InScales(f, n, xq, xs, b, s);
    hide Scale, Minimum, Block, Summed, Unpacked, Dot, Total, Affine, At, RunOf, Whole, Symmetric;
    var dot := DotVector(q, RunOf(f, xq, b, s));
    NoMinimum(xs[At(f, b, s) / 32], scale, dot, Total(RunOf(f, xq, b, s)));
    r := acc + Symmetric(xs[At(f, b, s) / 32], scale, dot);
  }

  function Symmetric(x: real, scale: real, dot: int): real { x * scale * dot as real }

  lemma NoMinimum(x: real, scale: real, dot: int, total: int)
    ensures Affine(x, scale, 0.0, dot, total) == Symmetric(x, scale, dot)
  {
  }

  /** Runs of `width` summed once for every row. */
  ghost predicate RunSums(xq: seq<int>, width: nat, sums: seq<int>) {
    width > 0 && |xq| == |sums| * width &&
    forall k :: 0 <= k < |sums| ==> SumAt(xq, width, sums, k)
  }

  ghost predicate SumAt(xq: seq<int>, width: nat, sums: seq<int>, k: nat)
    requires k < |sums|
  {
    k * width + width <= |xq| && sums[k] == Total(xq[k * width..k * width + width])
  }

  // ---------------------------------------------------------------- where a kernel stands

  /** Everything before sub-block `s` of block `b` has been added. */
  predicate Stands(f: Format, row: seq<B8>, n: nat, xq: seq<int>, xs: seq<real>, b: nat, s: nat, acc: real) {
    && Whole(f, row, n) && Activation(f, n, xq, xs) && b < n && s <= f.Subs()
    && Summed(f, row, n, xq, xs, At(f, b, s), acc)
  }

  lemma BlockIs(f: Format, row: seq<B8>, n: nat, b: nat)
    requires Whole(f, row, n) && b < n
    ensures (b + 1) * f.Bytes() <= |row| && b * f.Bytes() + f.Bytes() <= |row|
    ensures Block(f, row, b) == row[b * f.Bytes()..b * f.Bytes() + f.Bytes()]
  {
    Within(b, n, f.Bytes());
  }

  lemma Places(f: Format, row: seq<B8>, n: nat, xq: seq<int>, xs: seq<real>, b: nat, s: nat, acc: real, q: seq<int>)
    requires Stands(f, row, n, xq, xs, b, s, acc) && s < f.Subs()
    requires |q| == f.Width() && Unpacked(f, BlockOf(f, row, n, b), s, q)
    ensures Placed(f, row, n, xq, xs, b, s, q) && Block(f, row, b) == BlockOf(f, row, n, b)
  {
    Position(f, n, b, s, f.Width() - 1);
    BlockIs(f, row, n, b);
    hide Quant;
  }

  /** The bytes of block `b`, as `chunks_exact` hands them out. */
  function BlockOf(f: Format, row: seq<B8>, n: nat, b: nat): (r: seq<B8>)
    requires Whole(f, row, n) && b < n
    ensures |r| == f.Bytes()
  {
    BlockIs(f, row, n, b);
    row[b * f.Bytes()..b * f.Bytes() + f.Bytes()]
  }

  method StepAffine(
    f: Format, ghost row: seq<B8>, ghost n: nat, xq: seq<int>, xs: seq<real>, b: nat, s: nat,
    scale: real, min: real, q: seq<int>, sums: seq<int>, acc: real)
    returns (r: real)
    requires Stands(f, row, n, xq, xs, b, s, acc) && s < f.Subs()
    requires |q| == f.Width() && Unpacked(f, BlockOf(f, row, n, b), s, q)
    requires scale == Scale(f, BlockOf(f, row, n, b), s) && min == Minimum(f, BlockOf(f, row, n, b), s)
    requires RunSums(xq, f.Width(), sums)
    ensures Stands(f, row, n, xq, xs, b, s + 1, r)
  {
    Ready(f, row, n, xq, xs, b, s, acc);
    hide Quant, Scale, Minimum, Block, BlockOf, Placed, Unpacked, Summed, RunSums, RunOf, Stands, At, Whole, Activation,
      Format.Elements, Format.Subs, Format.Width;
    Places(f, row, n, xq, xs, b, s, acc, q);
    SumFor(f, n, xq, xs, b, s, sums);
    r := AddAffine(f, row, n, xq, xs, b, s, scale, min, q, sums[b * f.Subs() + s], acc);
    Passed(f, row, n, xq, xs, b, s, r);
  }

  lemma Ready(f: Format, row: seq<B8>, n: nat, xq: seq<int>, xs: seq<real>, b: nat, s: nat, acc: real)
    requires Stands(f, row, n, xq, xs, b, s, acc)
    ensures Whole(f, row, n) && Activation(f, n, xq, xs) && b < n && Summed(f, row, n, xq, xs, At(f, b, s), acc)
  {
  }

  lemma Passed(f: Format, row: seq<B8>, n: nat, xq: seq<int>, xs: seq<real>, b: nat, s: nat, acc: real)
    requires Whole(f, row, n) && Activation(f, n, xq, xs) && b < n && s < f.Subs()
    requires Summed(f, row, n, xq, xs, At(f, b, s) + f.Width(), acc)
    ensures Stands(f, row, n, xq, xs, b, s + 1, acc)
  {
    NextAt(f, b, s);
    hide Summed, At;
  }

  method StepSymmetric(
    f: Format, ghost row: seq<B8>, ghost n: nat, xq: seq<int>, xs: seq<real>, b: nat, s: nat,
    scale: real, q: seq<int>, acc: real)
    returns (r: real)
    requires Stands(f, row, n, xq, xs, b, s, acc) && s < f.Subs()
    requires |q| == f.Width() && Unpacked(f, BlockOf(f, row, n, b), s, q)
    requires scale == Scale(f, BlockOf(f, row, n, b), s) && Minimum(f, BlockOf(f, row, n, b), s) == 0.0
    ensures Stands(f, row, n, xq, xs, b, s + 1, r)
  {
    Ready(f, row, n, xq, xs, b, s, acc);
    hide Quant, Scale, Minimum, Block, BlockOf, Placed, Unpacked, Summed, Stands, At, Whole, Activation,
      Format.Elements, Format.Subs, Format.Width;
    Places(f, row, n, xq, xs, b, s, acc, q);
    r := AddSymmetric(f, row, n, xq, xs, b, s, scale, q, acc);
    Passed(f, row, n, xq, xs, b, s, r);
  }

  lemma NextAt(f: Format, b: nat, s: nat)
    ensures At(f, b, s) + f.Width() == At(f, b, s + 1)
  {
    Step(s, f.Width());
  }

  lemma SumFor(f: Format, n: nat, xq: seq<int>, xs: seq<real>, b: nat, s: nat, sums: seq<int>)
    requires Activation(f, n, xq, xs) && b < n && s < f.Subs() && RunSums(xq, f.Width(), sums)
    ensures b * f.Subs() + s < |sums| && At(f, b, s) + f.Width() <= |xq|
    ensures sums[b * f.Subs() + s] == Total(RunOf(f, xq, b, s))
  {
    Position(f, n, b, s, f.Width() - 1);
    var k := b * f.Subs() + s;
    RunIndex(f, n, b, s, |sums|);
    assert SumAt(xq, f.Width(), sums, k);
    hide Format.Elements, Format.Subs, Format.Width;
  }

  lemma RunIndex(f: Format, n: nat, b: nat, s: nat, runs: nat)
    requires b < n && s < f.Subs() && runs * f.Width() == n * f.Elements()
    ensures b * f.Subs() + s < runs && (b * f.Subs() + s) * f.Width() == At(f, b, s)
  {
    match f
    case Q8_0 =>
    case Q2_K | Q3_K | Q6_K =>
    case Q4_K | Q5_K =>
  }

  /** The blocks before `b` are done. */
  predicate Done(f: Format, row: seq<B8>, n: nat, xq: seq<int>, xs: seq<real>, b: nat, acc: real) {
    && Whole(f, row, n) && Activation(f, n, xq, xs) && b <= n
    && (b < n ==> Stands(f, row, n, xq, xs, b, 0, acc))
    && (b == n ==> acc == Reference(f, row, n, xq, xs))
  }

  /** Nothing added yet. */
  method Begin(f: Format, ghost row: seq<B8>, ghost n: nat, ghost xq: seq<int>, ghost xs: seq<real>) returns (acc: real)
    requires Whole(f, row, n) && Activation(f, n, xq, xs)
    ensures Done(f, row, n, xq, xs, 0, acc)
  {
    hide Products;
    acc := 0.0;
  }

  /** The first sub-block of a block. */
  method Enter(f: Format, ghost row: seq<B8>, ghost n: nat, ghost xq: seq<int>, ghost xs: seq<real>, ghost b: nat, ghost acc: real)
    returns (s: nat)
    requires Done(f, row, n, xq, xs, b, acc) && b < n
    ensures s == 0 && Whole(f, row, n) && Stands(f, row, n, xq, xs, b, s, acc)
  {
    s := 0;
  }

  lemma AllDone(f: Format, row: seq<B8>, n: nat, xq: seq<int>, xs: seq<real>, acc: real)
    requires Done(f, row, n, xq, xs, n, acc)
    ensures Whole(f, row, n) && Activation(f, n, xq, xs) && acc == Reference(f, row, n, xq, xs)
  {
  }

  lemma EndOfBlock(f: Format, b: nat)
    ensures At(f, b, f.Subs()) == (b + 1) * f.Elements() == At(f, b + 1, 0)
  {
    match f
    case Q8_0 =>
    case Q2_K | Q3_K | Q6_K =>
    case Q4_K | Q5_K =>
  }

  /** A block done is the next begun, or the row done. */
  lemma NextBlock(f: Format, row: seq<B8>, n: nat, xq: seq<int>, xs: seq<real>, b: nat, s: nat, acc: real)
    requires Stands(f, row, n, xq, xs, b, s, acc) && s == f.Subs()
    ensures Done(f, row, n, xq, xs, b + 1, acc)
  {
    EndOfBlock(f, b);
    hide At, Products;
  }
}
