/** What a packed row means: each weight as scale times quant minus minimum, and the dot product of
  * a row of such weights with an activation quantised to int8. Scales decode to reals. */
module Quants {
  import opened Sums
  import opened Formats

  function Power2(k: int): real
    decreases if k < 0 then -k else k
  {
    if k == 0 then 1.0 else if k > 0 then 2.0 * Power2(k - 1) else Power2(k + 1) / 2.0
  }

  /** A half-precision number. The two bit patterns that are not finite numbers read as zero. */
  function Half(lo: B8, hi: B8): real {
    var size := HalfSize(((hi >> 2) & 0x1F) as int, (hi & 3) as int * 256 + lo as int);
    if hi >> 7 == 1 then -size else size
  }

  function HalfSize(exp: nat, mant: nat): real {
    if exp == 0 then mant as real * Power2(-24)
    else if exp == 31 then 0.0
    else (1.0 + mant as real / 1024.0) * Power2(exp - 15)
  }

  function Low(b: B8): int { (b & 0x0F) as int }

  function High(b: B8): int { (b >> 4) as int }

  /** Two bits of `b`, `shift` places up. */
  function Two(b: B8, shift: nat): int
    requires shift <= 8
  {
    ((b >> shift) & 3) as int
  }

  /** A six-bit quant out of a nibble and a pair, centred. */
  function Centred(nibble: B8, pair: B8): int { (nibble | ((pair & 3) << 4)) as int - 32 }

  /** Quant `l` of sub-block `s`. */
  function Quant(f: Format, block: seq<B8>, s: nat, l: nat): int
    requires |block| == f.Bytes() && s < f.Subs() && l < f.Width()
  {
    match f
    case Q8_0 => Signed(block[2 + l])
    case Q2_K => Two(block[16 + s / 8 * 32 + s % 2 * 16 + l], s % 8 / 2 * 2)
    case Q3_K =>
      Two(block[32 + s / 8 * 32 + s % 2 * 16 + l], s % 8 / 2 * 2) - if Bit(block[s % 2 * 16 + l], s / 2) then 0 else 4
    case Q4_K => if s % 2 == 0 then Low(block[16 + s / 2 * 32 + l]) else High(block[16 + s / 2 * 32 + l])
    case Q5_K =>
      (if s % 2 == 0 then Low(block[48 + s / 2 * 32 + l]) else High(block[48 + s / 2 * 32 + l])) +
      (if Bit(block[16 + l], s) then 16 else 0)
    case Q6_K =>
      var half, part, at := s / 8, s % 8 / 2, s % 2 * 16 + l;
      var ql, qh := block[half * 64 + part % 2 * 32 + at], block[128 + half * 32 + at];
      Centred(if part < 2 then ql & 0x0F else ql >> 4, Down(qh, part))
  }

  /** The pair of bits that goes with part `part` of a half, brought down. */
  function Down(b: B8, part: nat): B8 {
    if part == 0 then b else if part == 1 then b >> 2 else if part == 2 then b >> 4 else b >> 6
  }

  function Times(d: real, x: B8): real { d * (x as int) as real }

  /** The factor of sub-block `s`'s quants. */
  function Scale(f: Format, block: seq<B8>, s: nat): real
    requires |block| == f.Bytes() && s < f.Subs()
  {
    match f
    case Q8_0 => Half(block[0], block[1])
    case Q2_K => Half(block[80], block[81]) * Low(block[s]) as real
    case Q3_K => Half(block[108], block[109]) * (Scale3(s, block[96..108]) as int - 32) as real
    case Q4_K | Q5_K => Times(Half(block[0], block[1]), ScaleMin(s, block[4..16]).0)
    case Q6_K => Half(block[208], block[209]) * Signed(block[192 + s]) as real
  }

  /** What is taken off each weight of sub-block `s`. */
  function Minimum(f: Format, block: seq<B8>, s: nat): real
    requires |block| == f.Bytes() && s < f.Subs()
  {
    match f
    case Q8_0 | Q3_K | Q6_K => 0.0
    case Q2_K => Half(block[82], block[83]) * High(block[s]) as real
    case Q4_K | Q5_K => Times(Half(block[2], block[3]), ScaleMin(s, block[4..16]).1)
  }

  function WeightIn(f: Format, block: seq<B8>, i: nat): real
    requires |block| == f.Bytes() && i < f.Elements()
  {
    var s, l := i / f.Width(), i % f.Width();
    Scale(f, block, s) * Quant(f, block, s, l) as real - Minimum(f, block, s)
  }

  // ---------------------------------------------------------------- rows

  /** A row of `n` whole blocks. */
  predicate Whole(f: Format, row: seq<B8>, n: nat) { |row| == n * f.Bytes() }

  function Block(f: Format, row: seq<B8>, b: nat): (r: seq<B8>)
    requires (b + 1) * f.Bytes() <= |row|
    ensures |r| == f.Bytes()
  {
    Step(b, f.Bytes());
    row[b * f.Bytes()..(b + 1) * f.Bytes()]
  }

  lemma Step(b: nat, d: nat)
    ensures 0 <= b * d <= (b + 1) * d == b * d + d
  {
  }

  lemma {:induction false} Within(b: nat, n: nat, d: nat)
    requires b < n
    ensures 0 <= b * d && (b + 1) * d <= n * d && b * d + d == (b + 1) * d
    decreases n
  {
    assert n * d == (n - 1) * d + d;
    if b < n - 1 {
      Within(b, n - 1, d);
    }
  }

  /** Weight `i` of block `b`. */
  function WeightAt(f: Format, row: seq<B8>, n: nat, b: nat, i: nat): real
    requires Whole(f, row, n) && b < n && i < f.Elements()
  {
    Within(b, n, f.Bytes());
    WeightIn(f, Block(f, row, b), i)
  }

  /** An int8 activation with one scale per 32 numbers. */
  predicate Activation(f: Format, n: nat, xq: seq<int>, xs: seq<real>) {
    |xq| == n * f.Elements() && |xs| == |xq| / 32
  }

  /** Weight `j` of the row, `j` counting across blocks. */
  function Weight(f: Format, row: seq<B8>, n: nat, j: nat): real
    requires Whole(f, row, n) && j < n * f.Elements()
  {
    InBlock(f, n, j);
    WeightAt(f, row, n, j / f.Elements(), j % f.Elements())
  }

  lemma InBlock(f: Format, n: nat, j: nat)
    requires j < n * f.Elements()
    ensures j / f.Elements() < n
  {
    if f.Q8_0? {
      assert j < n * 32;
    } else {
      assert j < n * 256;
    }
  }

  function Mul(x: real, y: real): real { x * y }

  lemma ScaleOf(f: Format, n: nat, j: nat)
    requires j < n * f.Elements()
    ensures (j / 32 + 1) * 32 <= n * f.Elements() && j / 32 < n * f.Elements() / 32
  {
    if f.Q8_0? {
      Div32(n, 0);
    } else {
      Div32(n * 8, 0);
    }
  }

  /** Weight `j` times the scaled activation's number `j`. */
  function Product(f: Format, row: seq<B8>, n: nat, xq: seq<int>, xs: seq<real>, j: nat): real
    requires Whole(f, row, n) && Activation(f, n, xq, xs) && j < n * f.Elements()
  {
    ScaleOf(f, n, j);
    Mul(Weight(f, row, n, j), Mul(xs[j / 32], xq[j] as real))
  }

  /** The dequantised row times the scaled activation, number by number. */
  function Products(f: Format, row: seq<B8>, n: nat, xq: seq<int>, xs: seq<real>): int -> real
    requires Whole(f, row, n) && Activation(f, n, xq, xs)
  {
    j => if 0 <= j < n * f.Elements() then Product(f, row, n, xq, xs, j) else 0.0
  }

  /** The reference: dequantise, scale the activation, multiply, add. */
  function Reference(f: Format, row: seq<B8>, n: nat, xq: seq<int>, xs: seq<real>): real
    requires Whole(f, row, n) && Activation(f, n, xq, xs)
  {
    Sum(n * f.Elements(), Products(f, row, n, xq, xs))
  }

  // ---------------------------------------------------------------- integer dot products

  function Dot(a: seq<int>, b: seq<int>): int
    requires |a| == |b|
  {
    if a == [] then 0 else Dot(a[..|a| - 1], b[..|b| - 1]) + a[|a| - 1] * b[|b| - 1]
  }

  function Total(a: seq<int>): int {
    if a == [] then 0 else Total(a[..|a| - 1]) + a[|a| - 1]
  }

  /** Where sub-block `s` of block `b` begins. */
  function At(f: Format, b: nat, s: nat): nat { b * f.Elements() + s * f.Width() }

  lemma Position(f: Format, n: nat, b: nat, s: nat, l: nat)
    requires b < n && s < f.Subs() && l < f.Width()
    ensures
      var j := At(f, b, s) + l;
      && j < n * f.Elements() && j / f.Elements() == b && j % f.Elements() == s * f.Width() + l
      && (s * f.Width() + l) / f.Width() == s && (s * f.Width() + l) % f.Width() == l
      && j / 32 == At(f, b, s) / 32 && s * f.Width() + l < f.Elements()
  {
    Within(b, n, f.Elements());
    match f
    case Q8_0 => Div32(b, l);
    case Q2_K | Q3_K | Q6_K => Position16(b, s, l);
    case Q4_K | Q5_K => Position8(b, s, l);
  }

  lemma Div16(q: nat, r: nat)
    requires r < 16
    ensures (q * 16 + r) / 16 == q && (q * 16 + r) % 16 == r
  {
  }

  lemma Div32(q: nat, r: nat)
    requires r < 32
    ensures (q * 32 + r) / 32 == q && (q * 32 + r) % 32 == r
  {
  }

  lemma Div256(q: nat, r: nat)
    requires r < 256
    ensures (q * 256 + r) / 256 == q && (q * 256 + r) % 256 == r
  {
  }

  lemma Halves(s: nat)
    ensures s == s / 2 * 2 + s % 2 && s % 2 <= 1
  {
  }

  lemma Position16(b: nat, s: nat, l: nat)
    requires s < 16 && l < 16
    ensures (s * 16 + l) / 16 == s && (s * 16 + l) % 16 == l
    ensures (b * 256 + s * 16 + l) / 256 == b && (b * 256 + s * 16 + l) % 256 == s * 16 + l
    ensures (b * 256 + s * 16 + l) / 32 == (b * 256 + s * 16) / 32 == b * 8 + s / 2
  {
    Div16(s, l);
    Div256(b, s * 16 + l);
    Halves(s);
    Div32(b * 8 + s / 2, s % 2 * 16 + l);
    Div32(b * 8 + s / 2, s % 2 * 16);
  }

  lemma Position8(b: nat, s: nat, l: nat)
    requires s < 8 && l < 32
    ensures (s * 32 + l) / 32 == s && (s * 32 + l) % 32 == l
    ensures (b * 256 + s * 32 + l) / 256 == b && (b * 256 + s * 32 + l) % 256 == s * 32 + l
    ensures (b * 256 + s * 32 + l) / 32 == (b * 256 + s * 32) / 32 == b * 8 + s
  {
    Div32(s, l);
    Div256(b, s * 32 + l);
    Div32(b * 8 + s, l);
    Div32(b * 8 + s, 0);
  }

  /** A sub-block's scale is one of the activation's. */
  lemma ScaleIndex(f: Format, n: nat, b: nat, s: nat)
    requires b < n && s < f.Subs()
    ensures At(f, b, s) / 32 < n * f.Elements() / 32
  {
    match f
    case Q8_0 =>
      Div32(b, 0);
      Div32(n, 0);
    case Q2_K | Q3_K | Q6_K =>
      Position16(b, s, 0);
      Div32(n * 8, 0);
    case Q4_K | Q5_K =>
      Position8(b, s, 0);
      Div32(n * 8, 0);
  }

  /** The part of sub-block `s`'s products a kernel computes in integers: one multiplication by the
    * scales for the whole run. */
  function Part(f: Format, block: seq<B8>, s: nat, x: real, q: seq<int>, xq: seq<int>): real
    requires |block| == f.Bytes() && s < f.Subs() && |q| == |xq|
  {
    Affine(x, Scale(f, block, s), Minimum(f, block, s), Dot(q, xq), Total(xq))
  }

  function Affine(x: real, scale: real, min: real, dot: int, total: int): real {
    x * (scale * dot as real - min * total as real)
  }

  /** `q` holds the first quants of sub-block `s`. */
  predicate Unpacked(f: Format, block: seq<B8>, s: nat, q: seq<int>) {
    |block| == f.Bytes() && s < f.Subs() && |q| <= f.Width() && forall l :: 0 <= l < |q| ==> q[l] == Quant(f, block, s, l)
  }

  /** The scales factor out: a run's products add up to its part. */
  lemma {:induction false} RunSum(
    f: Format, row: seq<B8>, n: nat, xq: seq<int>, xs: seq<real>, b: nat, s: nat, q: seq<int>)
    requires Whole(f, row, n) && Activation(f, n, xq, xs) && b < n && s < f.Subs()
    requires (b + 1) * f.Bytes() <= |row| && Unpacked(f, Block(f, row, b), s, q)
    requires At(f, b, s) + |q| <= |xq| && At(f, b, s) / 32 < |xs|
    ensures
      var off, p := At(f, b, s), Products(f, row, n, xq, xs);
      Sum(off + |q|, p) == Sum(off, p) + Part(f, Block(f, row, b), s, xs[off / 32], q, xq[off..off + |q|])
    decreases |q|
  {
    hide Products, Scale, Minimum, At, Block, Quant, Part;
    var off, block, p := At(f, b, s), Block(f, row, b), Products(f, row, n, xq, xs);
    if q == [] {
      NoPart(f, block, s, xs[off / 32]);
      assert xq[off..off] == [];
    } else {
      var l := |q| - 1;
      RunSum(f, row, n, xq, xs, b, s, q[..l]);
      ProductAt(f, row, n, xq, xs, b, s, q, l);
      assert xq[off..off + |q|][..l] == xq[off..off + l];
      PartStep(f, block, s, xs[off / 32], q, xq[off..off + |q|]);
      assert Sum(off + |q|, p) == Sum(off + l, p) + p(off + l);
    }
  }

  lemma NoPart(f: Format, block: seq<B8>, s: nat, x: real)
    requires |block| == f.Bytes() && s < f.Subs()
    ensures Part(f, block, s, x, [], []) == 0.0
  {
    hide Scale, Minimum;
  }

  lemma PartStep(f: Format, block: seq<B8>, s: nat, x: real, q: seq<int>, xq: seq<int>)
    requires |block| == f.Bytes() && s < f.Subs() && |q| == |xq| > 0
    ensures
      var l := |q| - 1;
      Part(f, block, s, x, q, xq) == Part(f, block, s, x, q[..l], xq[..l]) +
        (Scale(f, block, s) * q[l] as real - Minimum(f, block, s)) * (x * xq[l] as real)
  {
    hide Scale, Minimum;
    var l := |q| - 1;
    OneMore(x, Scale(f, block, s), Minimum(f, block, s), Dot(q[..l], xq[..l]), Total(xq[..l]), q[l], xq[l]);
  }

  lemma ProductAt(
    f: Format, row: seq<B8>, n: nat, xq: seq<int>, xs: seq<real>, b: nat, s: nat, q: seq<int>, l: nat)
    requires Whole(f, row, n) && Activation(f, n, xq, xs) && b < n && s < f.Subs()
    requires (b + 1) * f.Bytes() <= |row| && Unpacked(f, Block(f, row, b), s, q) && l < |q|
    requires At(f, b, s) + l < |xq| && At(f, b, s) / 32 < |xs|
    ensures
      var off, block := At(f, b, s), Block(f, row, b);
      Products(f, row, n, xq, xs)(off + l) ==
        (Scale(f, block, s) * q[l] as real - Minimum(f, block, s)) * (xs[off / 32] * xq[off + l] as real)
  {
    hide Quant, Scale, Minimum, Block, At, Weight, Format.Elements, Format.Width, Format.Subs, Format.Bytes;
    Position(f, n, b, s, l);
    WeightIs(f, row, n, b, s, l);
  }

  /** Sub-block by sub-block or number by number, it is the same weight. */
  lemma WeightIs(f: Format, row: seq<B8>, n: nat, b: nat, s: nat, l: nat)
    requires Whole(f, row, n) && b < n && s < f.Subs() && l < f.Width() && (b + 1) * f.Bytes() <= |row|
    requires At(f, b, s) + l < n * f.Elements()
    ensures
      var block := Block(f, row, b);
      Weight(f, row, n, At(f, b, s) + l) ==
        Scale(f, block, s) * Quant(f, block, s, l) as real - Minimum(f, block, s)
  {
    hide Quant, Scale, Minimum, Block, At, Format.Elements, Format.Width, Format.Subs, Format.Bytes;
    Position(f, n, b, s, l);
  }

  lemma OneMore(x: real, scale: real, min: real, dot: int, total: int, q: int, a: int)
    ensures x * (scale * (dot + q * a) as real - min * (total + a) as real) ==
      x * (scale * dot as real - min * total as real) + (scale * q as real - min) * (x * a as real)
  {
  }
}
