/** Quantising an activation to int8, and how far the integer kernels can be from the exact dot
  * product because of it. */
module Activations {
  import opened Basics
  import opened Sums
  import opened Formats
  import opened Quants
  import opened Kernels
  import opened Dots

  function Abs(x: real): real { if x < 0.0 then -x else x }

  /** Round to the nearest whole number, halves away from zero. */
  function Round(x: real): int {
    if x >= 0.0 then (x + 0.5).Floor else -((0.5 - x).Floor)
  }

  lemma RoundIsNear(x: real)
    ensures Abs(Round(x) as real - x) <= 0.5
  {
  }

  function AbsMax(xs: seq<real>): (m: real)
    ensures m >= 0.0 && forall i :: 0 <= i < |xs| ==> Abs(xs[i]) <= m
  {
    if xs == [] then 0.0
    else
      var before := AbsMax(xs[..|xs| - 1]);
      var last := Abs(xs[|xs| - 1]);
      assert forall i :: 0 <= i < |xs| - 1 ==> xs[..|xs| - 1][i] == xs[i];
      if last > before then last else before
  }

  /** The largest magnitude among the 32 numbers `j` shares a scale with. */
  function Largest(x: seq<real>, b: nat): real
    requires (b + 1) * 32 <= |x|
  {
    AbsMax(x[b * 32..b * 32 + 32])
  }

  /** One number: its int8 value, and how far off that is. */
  method QuantiseOne(v: real, amax: real, scale: real, inv: real) returns (q: int)
    requires Abs(v) <= amax && scale == amax / 127.0 && inv == if scale > 0.0 then 1.0 / scale else 0.0
    ensures -127 <= q <= 127 && Abs(v - Mul(scale, q as real)) <= amax / 254.0
  {
    var y := v * inv;
    q := Max(-127, Min(127, Round(y)));
    if scale > 0.0 {
      Scaled(v, amax, scale, inv);
      RoundIsNear(y);
      InRange(y);
      Close(v, scale, y, q);
    } else {
      AllZero(v, amax, scale, q);
    }
  }

  lemma AllZero(v: real, amax: real, scale: real, q: int)
    requires Abs(v) <= amax && scale == amax / 127.0 && scale <= 0.0
    ensures Abs(v - scale * q as real) <= amax / 254.0
  {
    assert v == 0.0 && scale == 0.0;
  }

  lemma InRange(y: real)
    requires -127.0 <= y <= 127.0
    ensures -127 <= Round(y) <= 127
  {
  }

  lemma Scaled(v: real, amax: real, scale: real, inv: real)
    requires Abs(v) <= amax && scale == amax / 127.0 && scale > 0.0 && inv == 1.0 / scale
    ensures v * inv * scale == v && -127.0 <= v * inv <= 127.0
  {
    var y := v * inv;
    Inverse(v, scale, inv);
    assert y * scale == v && 127.0 * scale == amax;
    if y > 127.0 {
      Grows(y, 127.0, scale);
    } else if y < -127.0 {
      Grows(-127.0, y, scale);
    }
  }

  lemma Inverse(v: real, scale: real, inv: real)
    requires scale > 0.0 && inv == 1.0 / scale
    ensures v * inv * scale == v
  {
    assert inv * scale == 1.0;
    assert v * inv * scale == v * (inv * scale);
  }

  lemma Grows(x: real, y: real, scale: real)
    requires x > y && scale > 0.0
    ensures x * scale > y * scale
  {
  }

  lemma Close(v: real, scale: real, y: real, r: int)
    requires y * scale == v && scale > 0.0 && Abs(r as real - y) <= 0.5
    ensures Abs(v - scale * r as real) <= scale / 2.0
  {
    var e := y - r as real;
    assert v - scale * r as real == scale * e;
    if e >= 0.0 {
      assert scale * e <= scale * 0.5;
    } else {
      assert scale * -e <= scale * 0.5;
    }
  }

  /** A block of numbers and what it became: int8, each within half a step. */
  predicate Good(blk: seq<real>, q: seq<int>, scale: real) {
    |q| <= |blk| && forall l :: 0 <= l < |q| ==> GoodAt(blk, q, scale, l)
  }

  predicate GoodAt(blk: seq<real>, q: seq<int>, scale: real, l: nat)
    requires l < |q| <= |blk|
  {
    -127 <= q[l] <= 127 && Abs(blk[l] - Mul(scale, q[l] as real)) <= AbsMax(blk) / 254.0
  }

  method QuantiseBlock(blk: seq<real>) returns (q: seq<int>, scale: real)
    ensures |q| == |blk| && Good(blk, q, scale)
  {
    var amax := AbsMax(blk);
    scale := amax / 127.0;
    var inv := if scale > 0.0 then 1.0 / scale else 0.0;
    q := [];
    for l := 0 to |blk|
      invariant |q| == l && Good(blk, q, scale)
    {
      q := QuantiseNext(blk, q, amax, scale, inv);
    }
  }

  method QuantiseNext(blk: seq<real>, q: seq<int>, amax: real, scale: real, inv: real) returns (q': seq<int>)
    requires |q| < |blk| && Good(blk, q, scale)
    requires amax == AbsMax(blk) && scale == amax / 127.0 && inv == if scale > 0.0 then 1.0 / scale else 0.0
    ensures |q'| == |q| + 1 && Good(blk, q', scale)
  {
    hide Abs, Mul;
    var one := QuantiseOne(blk[|q|], amax, scale, inv);
    q' := q + [one];
    forall i: nat | i < |q'| ensures GoodAt(blk, q', scale, i) {
      assert i < |q| ==> GoodAt(blk, q, scale, i);
    }
  }

  /** Block `b` of an activation. */
  predicate BlockGood(x: seq<real>, xq: seq<int>, xs: seq<real>, b: nat) {
    && b * 32 + 32 <= |x| && b * 32 + 32 <= |xq| && b < |xs|
    && Good(x[b * 32..b * 32 + 32], xq[b * 32..b * 32 + 32], xs[b])
  }

  /** `quantize_activation`: int8 numbers and one scale per 32 of them. */
  method Quantise(x: seq<real>) returns (xq: seq<int>, xs: seq<real>)
    requires |x| % 32 == 0
    ensures |xq| == |x| && |xs| == |x| / 32
    ensures forall b: nat :: b < |xs| ==> BlockGood(x, xq, xs, b)
  {
    xq, xs := [], [];
    for b := 0 to |x| / 32
      invariant |xq| == b * 32 && |xs| == b
      invariant forall i: nat :: i < b ==> BlockGood(x, xq, xs, i)
    {
      var q, scale := QuantiseBlock(x[b * 32..b * 32 + 32]);
      forall i: nat | i <= b ensures BlockGood(x, xq + q, xs + [scale], i) {
        BlockKept(x, xq, xs, q, scale, b, i);
      }
      xq, xs := xq + q, xs + [scale];
    }
  }

  lemma BlockKept(x: seq<real>, xq: seq<int>, xs: seq<real>, q: seq<int>, scale: real, b: nat, i: nat)
    requires |xq| == b * 32 && |xs| == b && |q| == 32 && b * 32 + 32 <= |x| && i <= b
    requires Good(x[b * 32..b * 32 + 32], q, scale) && (i < b ==> BlockGood(x, xq, xs, i))
    ensures BlockGood(x, xq + q, xs + [scale], i)
  {
    hide Good;
    if i < b {
      assert (xq + q)[i * 32..i * 32 + 32] == xq[i * 32..i * 32 + 32];
    } else {
      assert (xq + q)[b * 32..b * 32 + 32] == q;
    }
  }

  /** Number `j` is off by at most half a step of its block. */
  lemma CloseAt(x: seq<real>, xq: seq<int>, xs: seq<real>, j: nat)
    requires j < |x| == |xq| && j / 32 < |xs| && BlockGood(x, xq, xs, j / 32)
    ensures (j / 32 + 1) * 32 <= |x| && -127 <= xq[j] <= 127
    ensures Abs(x[j] - Mul(xs[j / 32], xq[j] as real)) <= Largest(x, j / 32) / 254.0
  {
    var b, l := j / 32, j % 32;
    assert j == b * 32 + l;
    var blk, q := x[b * 32..b * 32 + 32], xq[b * 32..b * 32 + 32];
    hide Abs, Mul, AbsMax;
    assert GoodAt(blk, q, xs[b], l) && blk[l] == x[j] && q[l] == xq[j];
  }

  /** `block_sums`: the sums an affine format's minima need, over runs of 16 or 32. */
  method BlockSums(xq: seq<int>, width: nat) returns (sums: seq<int>)
    requires (width == 16 || width == 32) && |xq| % width == 0
    ensures RunSums(xq, width, sums)
  {
    sums := [];
    for k := 0 to |xq| / width
      invariant |sums| == k && forall i :: 0 <= i < k ==> SumAt(xq, width, sums, i)
    {
      var run := xq[k * width..k * width + width];
      ghost var was := sums;
      sums := sums + [Total(run)];
      forall i | 0 <= i <= k ensures SumAt(xq, width, sums, i) {
        if i < k {
          assert SumAt(xq, width, was, i);
        }
      }
    }
  }

  // ---------------------------------------------------------------- the bound

  /** The dequantised row times the activation itself. */
  function Exact(f: Format, row: seq<B8>, n: nat, x: seq<real>): int -> real
    requires Whole(f, row, n) && |x| == n * f.Elements()
  {
    j => if 0 <= j < n * f.Elements() then Mul(Weight(f, row, n, j), x[j]) else 0.0
  }

  /** What rounding number `j` of the activation can cost. */
  function SlackAt(f: Format, row: seq<B8>, n: nat, x: seq<real>, j: nat): real
    requires Whole(f, row, n) && |x| == n * f.Elements() && j < |x|
  {
    ScaleOf(f, n, j);
    Mul(Abs(Weight(f, row, n, j)), Largest(x, j / 32) / 254.0)
  }

  function Slack(f: Format, row: seq<B8>, n: nat, x: seq<real>): int -> real
    requires Whole(f, row, n) && |x| == n * f.Elements()
  {
    j => if 0 <= j < n * f.Elements() then SlackAt(f, row, n, x, j) else 0.0
  }

  /** `x` became `xq` and `xs`, every block within half a step. */
  ghost predicate Quantised(x: seq<real>, xq: seq<int>, xs: seq<real>) {
    |x| == |xq| && forall b: nat :: b < |xs| ==> BlockGood(x, xq, xs, b)
  }

  /** `r` is within the sum of |weight| times largest / 254 of the exact product. */
  ghost predicate NearExact(f: Format, row: seq<B8>, n: nat, x: seq<real>, r: real) {
    && Whole(f, row, n) && |x| == n * f.Elements()
    && Abs(r - Sum(|x|, Exact(f, row, n, x))) <= Sum(|x|, Slack(f, row, n, x))
  }

  lemma ReferenceIsSum(f: Format, row: seq<B8>, n: nat, x: seq<real>, xq: seq<int>, xs: seq<real>)
    requires Whole(f, row, n) && Activation(f, n, xq, xs) && Quantised(x, xq, xs)
    ensures |x| == n * f.Elements() && Reference(f, row, n, xq, xs) == Sum(|x|, Products(f, row, n, xq, xs))
  {
    hide Weight, BlockGood, Sum, Products;
  }

  /** What the kernels compute is near the exact product. */
  lemma WithinSlack(f: Format, row: seq<B8>, n: nat, x: seq<real>, xq: seq<int>, xs: seq<real>)
    requires Whole(f, row, n) && Activation(f, n, xq, xs) && Quantised(x, xq, xs)
    ensures NearExact(f, row, n, x, Reference(f, row, n, xq, xs))
  {
    hide Exact, Slack, Abs, Whole, Quantised, Products, Sum, Reference, Activation;
    var r := Reference(f, row, n, xq, xs);
    ReferenceIsSum(f, row, n, x, xq, xs);
    var p, e, k := Products(f, row, n, xq, xs), Exact(f, row, n, x), Slack(f, row, n, x);
    forall j: nat | j < |x| ensures Abs(p(j) - e(j)) <= k(j) {
      ErrorAt(f, row, n, x, xq, xs, j);
    }
    Apart(|x|, p, e, k);
    assert NearExact(f, row, n, x, r);
  }

  lemma ErrorAt(f: Format, row: seq<B8>, n: nat, x: seq<real>, xq: seq<int>, xs: seq<real>, j: nat)
    requires Whole(f, row, n) && Activation(f, n, xq, xs) && Quantised(x, xq, xs) && j < |x|
    ensures |x| == n * f.Elements()
    ensures Abs(Products(f, row, n, xq, xs)(j) - Exact(f, row, n, x)(j)) <= Slack(f, row, n, x)(j)
  {
    hide Weight, BlockGood, Whole, Largest, Abs, Mul;
    ScaleOf(f, n, j);
    CloseAt(x, xq, xs, j);
    OneError(Weight(f, row, n, j), x[j], Mul(xs[j / 32], xq[j] as real), Largest(x, j / 32) / 254.0);
  }

  lemma OneError(w: real, x: real, y: real, bound: real)
    requires Abs(x - y) <= bound
    ensures Abs(Mul(w, y) - Mul(w, x)) <= Mul(Abs(w), bound)
  {
    assert w * y - w * x == w * (y - x);
    Bounded(w, y - x, bound);
  }

  lemma Bounded(w: real, d: real, bound: real)
    requires Abs(d) <= bound
    ensures Abs(w * d) <= Abs(w) * bound
  {
    assert Abs(w * d) == Abs(w) * Abs(d);
    assert Abs(w) * (bound - Abs(d)) >= 0.0;
  }

  lemma {:induction false} Apart(n: nat, p: int -> real, e: int -> real, k: int -> real)
    requires forall j :: 0 <= j < n ==> Abs(p(j) - e(j)) <= k(j)
    ensures Abs(Sum(n, p) - Sum(n, e)) <= Sum(n, k)
  {
    if n > 0 {
      Apart(n - 1, p, e, k);
    }
  }

  /** `matvec` of one row through the integer kernel: how far it is from the exact product. */
  method RowProduct(f: Format, row: seq<B8>, n: nat, x: seq<real>) returns (r: real)
    requires Whole(f, row, n) && |x| == n * f.Elements()
    ensures NearExact(f, row, n, x, r)
  {
    WholeRuns(f, n);
    hide BlockGood, Reference, Whole, RunSums, Format.Elements, NearExact;
    var xq, xs := Quantise(x);
    var sums := SumsFor(f, xq);
    r := Int8Dot(f, row, n, xq, xs, sums);
    WithinSlack(f, row, n, x, xq, xs);
  }

  /** The sums a format's kernel asks for, if it asks for any. */
  method SumsFor(f: Format, xq: seq<int>) returns (sums: seq<int>)
    requires |xq| % 32 == 0 && |xq| % 16 == 0
    ensures f.Q2_K? || f.Q4_K? || f.Q5_K? ==> RunSums(xq, f.Width(), sums)
  {
    hide RunSums;
    sums := [];
    if f.Q2_K? || f.Q4_K? || f.Q5_K? {
      sums := BlockSums(xq, f.Width());
    }
  }

  lemma WholeRuns(f: Format, n: nat)
    ensures n * f.Elements() % 32 == 0 && n * f.Elements() % 16 == 0
  {
    if !f.Q8_0? {
      Div32(n * 8, 0);
      Div16(n * 16, 0);
    } else {
      Div32(n, 0);
      Div16(n * 2, 0);
    }
  }

  /** With an activation from `Quantise`, no integer in a kernel outgrows its type at any point: quants
    * fit eight bits and products sixteen, and thirty-two bits hold every partial sum of the scalar
    * kernel and of the vector kernel's tail, every lane after every step, and the precomputed sums. */
  lemma KernelsFit(f: Format, block: seq<B8>, s: nat, q: seq<int>, run: seq<int>, n: nat, k: nat)
    requires Unpacked(f, block, s, q) && |q| == |run| == f.Width()
    requires forall i :: 0 <= i < |run| ==> -127 <= run[i] <= 127
    requires n <= |q| && 8 * k <= |q|
    ensures Int8(q)
    ensures forall i :: 0 <= i < |q| ==> -0x8000 <= q[i] * run[i] < 0x8000
    ensures Fits32(Dot(q[..n], run[..n])) && Fits32(Total(run[..n]))
    ensures LanesFit(LanesAt(q, run, k)) && Fits32(LanesAt(q, run, k).Sum())
  {
    forall l: nat | l < |q| ensures -128 <= q[l] <= 127 {
      QuantFits(f, block, s, l);
    }
    NothingWraps(q, run);
    NothingWraps(q[..n], run[..n]);
    LanesWithin(q, run, k);
  }

  lemma QuantFits(f: Format, block: seq<B8>, s: nat, l: nat)
    requires |block| == f.Bytes() && s < f.Subs() && l < f.Width()
    ensures -128 <= Quant(f, block, s, l) <= 127
  {
    hide Two, Low, High, Signed, Centred, Down, Bit;
    match f
    case Q8_0 => SignedFits(block[2 + l]);
    case Q2_K => TwoFits(block[16 + s / 8 * 32 + s % 2 * 16 + l], s % 8 / 2 * 2);
    case Q3_K => TwoFits(block[32 + s / 8 * 32 + s % 2 * 16 + l], s % 8 / 2 * 2);
    case Q4_K => NibbleFits(block[16 + s / 2 * 32 + l]);
    case Q5_K => NibbleFits(block[48 + s / 2 * 32 + l]);
    case Q6_K =>
      var half, part, at := s / 8, s % 8 / 2, s % 2 * 16 + l;
      var ql, qh := block[half * 64 + part % 2 * 32 + at], block[128 + half * 32 + at];
      NibblesFit(ql);
      CentredFits(if part < 2 then ql & 0x0F else ql >> 4, Down(qh, part));
  }

  lemma SignedFits(b: B8)
    ensures -128 <= Signed(b) <= 127
  {
  }

  lemma TwoFits(b: B8, shift: nat)
    requires shift <= 8
    ensures 0 <= Two(b, shift) <= 3
  {
    assert (b >> shift) & 3 <= 3;
  }

  lemma NibbleFits(b: B8)
    ensures 0 <= Low(b) <= 15 && 0 <= High(b) <= 15
  {
    assert b & 0x0F <= 15 && b >> 4 <= 15;
  }

  lemma CentredFits(nibble: B8, pair: B8)
    ensures -32 <= Centred(nibble, pair)
    ensures nibble < 16 ==> Centred(nibble, pair) <= 31
  {
    if nibble < 16 {
      assert nibble | ((pair & 3) << 4) <= 63;
    }
  }
}
