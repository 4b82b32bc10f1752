/** One packed row dotted against an int8 activation, format by format, unpacking as it goes. */
module Dots {
  import opened Formats
  import opened Quants
  import opened Kernels

  // ---------------------------------------------------------------- bits as the kernels see them

  lemma TwoBits(b: B8, shift: nat)
    requires shift <= 8
    ensures Signed((b >> shift) & 3) == Two(b, shift)
  {
    assert (b >> shift) & 3 < 128;
  }

  lemma Nibbles(b: B8)
    ensures Signed(b & 0x0F) == Low(b) && Signed(b >> 4) == High(b)
  {
    assert b & 0x0F < 128 && b >> 4 < 128;
  }

  lemma FifthBit(b: B8)
    ensures Signed((b & 0x0F) | 0) == Low(b) && Signed((b >> 4) | 0) == High(b)
    ensures Signed((b & 0x0F) | 16) == Low(b) + 16 && Signed((b >> 4) | 16) == High(b) + 16
  {
    assert (b & 0x0F) | 0 == b & 0x0F && (b >> 4) | 0 == b >> 4;
    Nibbles(b);
    assert b & 0x0F < 16 && b >> 4 < 16;
    Sixteen(b & 0x0F);
    Sixteen(b >> 4);
  }

  lemma Sixteen(x: B8)
    requires x < 16
    ensures Signed(x | 16) == x as int + 16
  {
    assert x | 16 == x + 16 && x | 16 < 128;
  }

  lemma SixBits(nibble: B8, pair: B8)
    requires nibble < 16
    ensures Signed(nibble | ((pair & 3) << 4)) - 32 == Centred(nibble, pair)
  {
    assert nibble | ((pair & 3) << 4) < 128;
  }

  /** The loop counters of a sixteen-way block, and the sub-block they are at. */
  lemma Counters(half: nat, k: nat, o: nat)
    requires half < 2 && k < 4 && o < 2
    ensures
      var s := half * 8 + k * 2 + o;
      s < 16 && s / 8 == half && s % 8 / 2 == k && s % 2 == o && s / 2 == half * 4 + k
  {
  }

  /** One more quant of a sub-block. */
  method Push(ghost f: Format, ghost block: seq<B8>, ghost s: nat, q: seq<int>, x: int) returns (q': seq<int>)
    requires Unpacked(f, block, s, q) && |q| < f.Width() && x == Quant(f, block, s, |q|)
    ensures |q'| == |q| + 1 && Unpacked(f, block, s, q')
  {
    hide Quant;
    q' := q + [x];
  }

  // ---------------------------------------------------------------- Q8_0

  method Q8Block(ghost row: seq<B8>, ghost n: nat, b: nat, block: seq<B8>, xq: seq<int>, xs: seq<real>, start: real)
    returns (acc: real)
    requires Done(Q8_0, row, n, xq, xs, b, start) && b < n && block == BlockOf(Q8_0, row, n, b)
    ensures Done(Q8_0, row, n, xq, xs, b + 1, acc)
  {
    hide Done, Stands, Whole, BlockOf, Signed;
    var sub := Enter(Q8_0, row, n, xq, xs, b, start);
    var q := seq(32, l requires 0 <= l < 32 => Signed(block[2 + l]));
    acc := StepSymmetric(Q8_0, row, n, xq, xs, b, sub, Half(block[0], block[1]), q, start);
    NextBlock(Q8_0, row, n, xq, xs, b, sub + 1, acc);
  }

  /** The weights are already int8: nothing to unpack but their sign. */
  method Q8Dot(row: seq<B8>, n: nat, xq: seq<int>, xs: seq<real>) returns (acc: real)
    requires Whole(Q8_0, row, n) && Activation(Q8_0, n, xq, xs)
    ensures acc == Reference(Q8_0, row, n, xq, xs)
  {
    hide Done, Stands, Reference, Activation, Whole, RunSums, BlockOf;
    acc := Begin(Q8_0, row, n, xq, xs);
    for b := 0 to n
      invariant Done(Q8_0, row, n, xq, xs, b, acc)
    {
      acc := Q8Block(row, n, b, BlockOf(Q8_0, row, n, b), xq, xs, acc);
    }
    AllDone(Q8_0, row, n, xq, xs, acc);
  }

  // ---------------------------------------------------------------- Q2_K

  method Q2Slots(block: seq<B8>, half: nat, k: nat, o: nat) returns (q: seq<int>)
    requires |block| == 84 && half < 2 && k < 4 && o < 2
    ensures |q| == 16 && Unpacked(Q2_K, block, half * 8 + k * 2 + o, q)
  {
    var qb := block[16 + half * 32..16 + half * 32 + 32];
    var shift, offset := k * 2, o * 16;
    Counters(half, k, o);
    q := [];
    for l := 0 to 16
      invariant |q| == l && Unpacked(Q2_K, block, half * 8 + k * 2 + o, q)
    {
      TwoBits(qb[l + offset], shift);
      q := q + [Signed((qb[l + offset] >> shift) & 3)];
    }
  }

  /** Both runs that share a shift. */
  method Q2Pair(
    ghost row: seq<B8>, ghost n: nat, b: nat, block: seq<B8>, xq: seq<int>, xs: seq<real>, sums: seq<int>,
    half: nat, k: nat, sub: nat, start: real)
    returns (acc: real)
    requires half < 2 && k < 4 && sub == half * 8 + k * 2 && RunSums(xq, 16, sums)
    requires Whole(Q2_K, row, n) && b < n && block == BlockOf(Q2_K, row, n, b) && Stands(Q2_K, row, n, xq, xs, b, sub, start)
    ensures Stands(Q2_K, row, n, xq, xs, b, sub + 2, acc)
  {
    hide Stands, Whole, Quant, Unpacked, RunSums, BlockOf, Half, Low, High;
    var d, dmin := Half(block[80], block[81]), Half(block[82], block[83]);
    acc := start;
    for o := 0 to 2
      invariant Stands(Q2_K, row, n, xq, xs, b, sub + o, acc)
    {
      var sc := block[sub + o];
      var dl, ml := d * Low(sc) as real, dmin * High(sc) as real;
      var q := Q2Slots(block, half, k, o);
      acc := StepAffine(Q2_K, row, n, xq, xs, b, sub + o, dl, ml, q, sums, acc);
    }
  }

  method Q2Block(
    ghost row: seq<B8>, ghost n: nat, b: nat, block: seq<B8>, xq: seq<int>, xs: seq<real>, sums: seq<int>, start: real)
    returns (acc: real)
    requires Done(Q2_K, row, n, xq, xs, b, start) && b < n && block == BlockOf(Q2_K, row, n, b) && RunSums(xq, 16, sums)
    ensures Done(Q2_K, row, n, xq, xs, b + 1, acc)
  {
    hide Done, Stands, Whole, RunSums, BlockOf;
    var sub := Enter(Q2_K, row, n, xq, xs, b, start);
    acc := start;
    for half := 0 to 2
      invariant sub == half * 8 && Stands(Q2_K, row, n, xq, xs, b, sub, acc)
    {
      for k := 0 to 4
        invariant sub == half * 8 + k * 2 && Stands(Q2_K, row, n, xq, xs, b, sub, acc)
      {
        acc := Q2Pair(row, n, b, block, xq, xs, sums, half, k, sub, acc);
        sub := sub + 2;
      }
    }
    NextBlock(Q2_K, row, n, xq, xs, b, sub, acc);
  }

  method Q2Dot(row: seq<B8>, n: nat, xq: seq<int>, xs: seq<real>, sums: seq<int>) returns (acc: real)
    requires Whole(Q2_K, row, n) && Activation(Q2_K, n, xq, xs) && RunSums(xq, 16, sums)
    ensures acc == Reference(Q2_K, row, n, xq, xs)
  {
    hide Done, Stands, Reference, Activation, Whole, RunSums, BlockOf;
    acc := Begin(Q2_K, row, n, xq, xs);
    for b := 0 to n
      invariant Done(Q2_K, row, n, xq, xs, b, acc)
    {
      acc := Q2Block(row, n, b, BlockOf(Q2_K, row, n, b), xq, xs, sums, acc);
    }
    AllDone(Q2_K, row, n, xq, xs, acc);
  }

  // ---------------------------------------------------------------- Q3_K

  /** The high bit is inverted: a set mask bit means nothing is taken off. */
  method Q3Slots(block: seq<B8>, half: nat, k: nat, o: nat, m: B8) returns (q: seq<int>)
    requires |block| == 110 && half < 2 && k < 4 && o < 2 && m == Mask(half * 4 + k)
    ensures |q| == 16 && Unpacked(Q3_K, block, half * 8 + k * 2 + o, q)
  {
    q := [];
    for l := 0 to 16
      invariant |q| == l && Unpacked(Q3_K, block, half * 8 + k * 2 + o, q)
    {
      q := Q3Next(block, half, k, o, m, q);
    }
  }

  method Q3Next(block: seq<B8>, half: nat, k: nat, o: nat, m: B8, q: seq<int>) returns (q': seq<int>)
    requires |block| == 110 && half < 2 && k < 4 && o < 2 && m == Mask(half * 4 + k)
    requires |q| < 16 && Unpacked(Q3_K, block, half * 8 + k * 2 + o, q)
    ensures |q'| == |q| + 1 && Unpacked(Q3_K, block, half * 8 + k * 2 + o, q')
  {
    hide Quant, Mask, Signed, Two, Bit, Unpacked;
    var hmask, qh := block[0..32], block[32 + half * 32..32 + half * 32 + 32];
    var l, shift, offset := |q|, k * 2, o * 16;
    Q3Slot(block, half, k, o, l);
    var x := Q3One(qh[l + offset], shift, hmask[l + offset], half * 4 + k, m);
    q' := Push(Q3_K, block, half * 8 + k * 2 + o, q, x);
  }

  method Q3One(low: B8, shift: nat, high: B8, ghost bit: nat, m: B8) returns (x: int)
    requires shift <= 8 && m == Mask(bit)
    ensures x == Two(low, shift) - if Bit(high, bit) then 0 else 4
  {
    TwoBits(low, shift);
    hide Two, Mask;
    var hbit := if high & m != 0 then 0 else 4;
    x := Signed((low >> shift) & 3) - hbit;
  }

  lemma Q3Slot(block: seq<B8>, half: nat, k: nat, o: nat, l: nat)
    requires |block| == 110 && half < 2 && k < 4 && o < 2 && l < 16
    ensures
      var s, hbit := half * 8 + k * 2 + o, if Bit(block[l + o * 16], half * 4 + k) then 0 else 4;
      s < 16 && Two(block[32 + half * 32 + (l + o * 16)], k * 2) - hbit == Quant(Q3_K, block, s, l)
  {
    hide Two, Bit;
    Counters(half, k, o);
  }

  lemma Q3Scale(block: seq<B8>, s: nat)
    requires |block| == 110 && s < 16
    ensures Scale(Q3_K, block, s) == Half(block[108], block[109]) * (UnpackQ3(block[96..108])[s] as int - 32) as real
    ensures Minimum(Q3_K, block, s) == 0.0
  {
    UnpackQ3Is(block[96..108], s);
    hide UnpackQ3, Scale3, Half;
  }

  /** Both runs that share a shift and a mask bit. */
  method Q3Pair(
    ghost row: seq<B8>, ghost n: nat, b: nat, block: seq<B8>, xq: seq<int>, xs: seq<real>,
    half: nat, k: nat, m: B8, sub: nat, start: real)
    returns (acc: real)
    requires half < 2 && k < 4 && sub == half * 8 + k * 2 && m == Mask(half * 4 + k)
    requires Whole(Q3_K, row, n) && b < n && block == BlockOf(Q3_K, row, n, b) && Stands(Q3_K, row, n, xq, xs, b, sub, start)
    ensures Stands(Q3_K, row, n, xq, xs, b, sub + 2, acc)
  {
    hide Stands, Whole, Quant, Unpacked, BlockOf, UnpackQ3, Scale, Minimum, Half, Mask;
    var d, scales := Half(block[108], block[109]), UnpackQ3(block[96..108]);
    acc := start;
    for o := 0 to 2
      invariant Stands(Q3_K, row, n, xq, xs, b, sub + o, acc)
    {
      Q3Scale(block, sub + o);
      var dl := d * (scales[sub + o] as int - 32) as real;
      var q := Q3Slots(block, half, k, o, m);
      acc := StepSymmetric(Q3_K, row, n, xq, xs, b, sub + o, dl, q, acc);
    }
  }

  method Q3Block(ghost row: seq<B8>, ghost n: nat, b: nat, block: seq<B8>, xq: seq<int>, xs: seq<real>, start: real)
    returns (acc: real)
    requires Done(Q3_K, row, n, xq, xs, b, start) && b < n && block == BlockOf(Q3_K, row, n, b)
    ensures Done(Q3_K, row, n, xq, xs, b + 1, acc)
  {
    hide Done, Stands, Whole, BlockOf;
    var sub := Enter(Q3_K, row, n, xq, xs, b, start);
    var m: B8 := 1;
    acc := start;
    for half := 0 to 2
      invariant sub == half * 8 && m == Mask(half * 4) && Stands(Q3_K, row, n, xq, xs, b, sub, acc)
    {
      for k := 0 to 4
        invariant sub == half * 8 + k * 2 && m == Mask(half * 4 + k) && Stands(Q3_K, row, n, xq, xs, b, sub, acc)
      {
        acc := Q3Pair(row, n, b, block, xq, xs, half, k, m, sub, acc);
        sub := sub + 2;
        m := m << 1;
      }
    }
    NextBlock(Q3_K, row, n, xq, xs, b, sub, acc);
  }

  method Q3Dot(row: seq<B8>, n: nat, xq: seq<int>, xs: seq<real>) returns (acc: real)
    requires Whole(Q3_K, row, n) && Activation(Q3_K, n, xq, xs)
    ensures acc == Reference(Q3_K, row, n, xq, xs)
  {
    hide Done, Stands, Reference, Activation, Whole, RunSums, BlockOf;
    acc := Begin(Q3_K, row, n, xq, xs);
    for b := 0 to n
      invariant Done(Q3_K, row, n, xq, xs, b, acc)
    {
      acc := Q3Block(row, n, b, BlockOf(Q3_K, row, n, b), xq, xs, acc);
    }
    AllDone(Q3_K, row, n, xq, xs, acc);
  }

  // ---------------------------------------------------------------- Q4_K

  /** One byte feeds two sub-blocks: its low nibble the first, its high one the second. */
  method Q4Slots(block: seq<B8>, g: nat) returns (lo: seq<int>, hi: seq<int>)
    requires |block| == 144 && g < 4
    ensures |lo| == |hi| == 32 && Unpacked(Q4_K, block, g * 2, lo) && Unpacked(Q4_K, block, g * 2 + 1, hi)
  {
    var chunk := block[16 + g * 32..16 + g * 32 + 32];
    lo, hi := [], [];
    for l := 0 to 32
      invariant |lo| == |hi| == l && Unpacked(Q4_K, block, g * 2, lo) && Unpacked(Q4_K, block, g * 2 + 1, hi)
    {
      Nibbles(chunk[l]);
      lo, hi := lo + [Signed(chunk[l] & 0x0F)], hi + [Signed(chunk[l] >> 4)];
    }
  }

  /** The affine scales, as the kernels compute them. */
  lemma AffineScales(f: Format, block: seq<B8>, s: nat)
    requires (f == Q4_K || f == Q5_K) && |block| == f.Bytes() && s < 8
    ensures Scale(f, block, s) == Times(Half(block[0], block[1]), ScaleMin(s, block[4..16]).0)
    ensures Minimum(f, block, s) == Times(Half(block[2], block[3]), ScaleMin(s, block[4..16]).1)
  {
  }

  method Q4Group(
    ghost row: seq<B8>, ghost n: nat, b: nat, block: seq<B8>, xq: seq<int>, xs: seq<real>, sums: seq<int>,
    g: nat, sub: nat, start: real)
    returns (acc: real)
    requires g < 4 && sub == g * 2 && Stands(Q4_K, row, n, xq, xs, b, sub, start)
    requires Whole(Q4_K, row, n) && b < n && block == BlockOf(Q4_K, row, n, b) && RunSums(xq, 32, sums)
    ensures Stands(Q4_K, row, n, xq, xs, b, sub + 2, acc)
  {
    hide Stands, Whole, Quant, Unpacked, RunSums, BlockOf, ScaleMin, Scale, Minimum, Half, Times;
    var d, dmin, scales := Half(block[0], block[1]), Half(block[2], block[3]), block[4..16];
    var lo, hi := Q4Slots(block, g);
    var (sc1, m1) := ScaleMin(sub, scales);
    var (sc2, m2) := ScaleMin(sub + 1, scales);
    AffineScales(Q4_K, block, sub);
    AffineScales(Q4_K, block, sub + 1);
    acc := StepAffine(Q4_K, row, n, xq, xs, b, sub, Times(d, sc1), Times(dmin, m1), lo, sums, start);
    acc := StepAffine(Q4_K, row, n, xq, xs, b, sub + 1, Times(d, sc2), Times(dmin, m2), hi, sums, acc);
  }

  method Q4Block(
    ghost row: seq<B8>, ghost n: nat, b: nat, block: seq<B8>, xq: seq<int>, xs: seq<real>, sums: seq<int>, start: real)
    returns (acc: real)
    requires Done(Q4_K, row, n, xq, xs, b, start) && b < n && block == BlockOf(Q4_K, row, n, b) && RunSums(xq, 32, sums)
    ensures Done(Q4_K, row, n, xq, xs, b + 1, acc)
  {
    hide Done, Stands, Whole, RunSums, BlockOf;
    var sub := Enter(Q4_K, row, n, xq, xs, b, start);
    acc := start;
    for g := 0 to 4
      invariant sub == g * 2 && Stands(Q4_K, row, n, xq, xs, b, sub, acc)
    {
      acc := Q4Group(row, n, b, block, xq, xs, sums, g, sub, acc);
      sub := sub + 2;
    }
    NextBlock(Q4_K, row, n, xq, xs, b, sub, acc);
  }

  method Q4Dot(row: seq<B8>, n: nat, xq: seq<int>, xs: seq<real>, sums: seq<int>) returns (acc: real)
    requires Whole(Q4_K, row, n) && Activation(Q4_K, n, xq, xs) && RunSums(xq, 32, sums)
    ensures acc == Reference(Q4_K, row, n, xq, xs)
  {
    hide Done, Stands, Reference, Activation, Whole, RunSums, BlockOf;
    acc := Begin(Q4_K, row, n, xq, xs);
    for b := 0 to n
      invariant Done(Q4_K, row, n, xq, xs, b, acc)
    {
      acc := Q4Block(row, n, b, BlockOf(Q4_K, row, n, b), xq, xs, sums, acc);
    }
    AllDone(Q4_K, row, n, xq, xs, acc);
  }

  // ---------------------------------------------------------------- Q5_K

  method Q5Slots(block: seq<B8>, g: nat, high: nat, u: B8) returns (q: seq<int>)
    requires |block| == 176 && g < 4 && high < 2 && u == Mask(g * 2 + high)
    ensures |q| == 32 && Unpacked(Q5_K, block, g * 2 + high, q)
  {
    var qh, ql := block[16..48], block[48 + g * 32..48 + g * 32 + 32];
    q := [];
    hide Quant, Mask, Signed;
    for l := 0 to 32
      invariant |q| == l && Unpacked(Q5_K, block, g * 2 + high, q)
    {
      Q5Slot(block, g, high, l);
      hide Unpacked;
      var fifth: B8 := if qh[l] & u != 0 then 16 else 0;
      q := Push(Q5_K, block, g * 2 + high, q, Signed((if high == 1 then ql[l] >> 4 else ql[l] & 0x0F) | fifth));
    }
  }

  lemma Q5Slot(block: seq<B8>, g: nat, high: nat, l: nat)
    requires |block| == 176 && g < 4 && high < 2 && l < 32
    ensures
      var b, fifth: B8 := block[48 + g * 32 + l], if block[16 + l] & Mask(g * 2 + high) != 0 then 16 else 0;
      Signed((if high == 1 then b >> 4 else b & 0x0F) | fifth) == Quant(Q5_K, block, g * 2 + high, l)
  {
    FifthBit(block[48 + g * 32 + l]);
    assert (g * 2 + high) / 2 == g && (g * 2 + high) % 2 == high;
    hide Low, High, Signed, Mask;
  }

  lemma TwoUp(k: nat)
    ensures Mask(k) << 2 == Mask(k + 2)
  {
    assert (Mask(k) << 1) << 1 == Mask(k) << 2;
  }

  method Q5Group(
    ghost row: seq<B8>, ghost n: nat, b: nat, block: seq<B8>, xq: seq<int>, xs: seq<real>, sums: seq<int>,
    g: nat, sub: nat, u1: B8, u2: B8, start: real)
    returns (acc: real)
    requires g < 4 && sub == g * 2 && u1 == Mask(sub) && u2 == Mask(sub + 1)
    requires Stands(Q5_K, row, n, xq, xs, b, sub, start)
    requires Whole(Q5_K, row, n) && b < n && block == BlockOf(Q5_K, row, n, b) && RunSums(xq, 32, sums)
    ensures Stands(Q5_K, row, n, xq, xs, b, sub + 2, acc)
  {
    hide Stands, Whole, Quant, Unpacked, RunSums, BlockOf, ScaleMin, Scale, Minimum, Half, Times, Mask;
    var d, dmin, scales := Half(block[0], block[1]), Half(block[2], block[3]), block[4..16];
    var (sc1, m1) := ScaleMin(sub, scales);
    var (sc2, m2) := ScaleMin(sub + 1, scales);
    AffineScales(Q5_K, block, sub);
    AffineScales(Q5_K, block, sub + 1);
    var q := Q5Slots(block, g, 0, u1);
    acc := StepAffine(Q5_K, row, n, xq, xs, b, sub, Times(d, sc1), Times(dmin, m1), q, sums, start);
    q := Q5Slots(block, g, 1, u2);
    acc := StepAffine(Q5_K, row, n, xq, xs, b, sub + 1, Times(d, sc2), Times(dmin, m2), q, sums, acc);
  }

  method Q5Block(
    ghost row: seq<B8>, ghost n: nat, b: nat, block: seq<B8>, xq: seq<int>, xs: seq<real>, sums: seq<int>, start: real)
    returns (acc: real)
    requires Done(Q5_K, row, n, xq, xs, b, start) && b < n && block == BlockOf(Q5_K, row, n, b) && RunSums(xq, 32, sums)
    ensures Done(Q5_K, row, n, xq, xs, b + 1, acc)
  {
    hide Done, Stands, Whole, RunSums, BlockOf;
    var sub := Enter(Q5_K, row, n, xq, xs, b, start);
    var u1: B8, u2: B8 := 1, 2;
    acc := start;
    for g := 0 to 4
      invariant sub == g * 2 && u1 == Mask(sub) && u2 == Mask(sub + 1) && Stands(Q5_K, row, n, xq, xs, b, sub, acc)
    {
      acc := Q5Group(row, n, b, block, xq, xs, sums, g, sub, u1, u2, acc);
      TwoUp(sub);
      TwoUp(sub + 1);
      sub := sub + 2;
      u1, u2 := u1 << 2, u2 << 2;
    }
    NextBlock(Q5_K, row, n, xq, xs, b, sub, acc);
  }

  method Q5Dot(row: seq<B8>, n: nat, xq: seq<int>, xs: seq<real>, sums: seq<int>) returns (acc: real)
    requires Whole(Q5_K, row, n) && Activation(Q5_K, n, xq, xs) && RunSums(xq, 32, sums)
    ensures acc == Reference(Q5_K, row, n, xq, xs)
  {
    hide Done, Stands, Reference, Activation, Whole, RunSums, BlockOf;
    acc := Begin(Q5_K, row, n, xq, xs);
    for b := 0 to n
      invariant Done(Q5_K, row, n, xq, xs, b, acc)
    {
      acc := Q5Block(row, n, b, BlockOf(Q5_K, row, n, b), xq, xs, sums, acc);
    }
    AllDone(Q5_K, row, n, xq, xs, acc);
  }

  // ---------------------------------------------------------------- Q6_K

  /** Number `l` of part `part` of a half. */
  function Six(block: seq<B8>, half: nat, part: nat, l: nat): int
    requires |block| == 210 && half < 2 && part < 4 && l < 32
  {
    var ql, qh := block[half * 64 + part % 2 * 32 + l], block[128 + half * 32 + l];
    Centred(if part < 2 then ql & 0x0F else ql >> 4, Down(qh, part))
  }

  lemma SixIsQuant(block: seq<B8>, half: nat, part: nat, l: nat)
    requires |block| == 210 && half < 2 && part < 4 && l < 32
    ensures half * 8 + part * 2 + l / 16 < 16
    ensures Six(block, half, part, l) == Quant(Q6_K, block, half * 8 + part * 2 + l / 16, l % 16)
  {
    hide Centred, Down;
    Counters(half, part, l / 16);
    assert l / 16 * 16 + l % 16 == l;
  }

  /** The four numbers the bits of one `qh` byte finish. */
  lemma LowSixes(block: seq<B8>, half: nat, l: nat)
    requires |block| == 210 && half < 2 && l < 32
    ensures
      var a, c, qh := block[half * 64 + l], block[half * 64 + l + 32], block[128 + half * 32 + l];
      && Signed((a & 0x0F) | ((qh & 3) << 4)) - 32 == Six(block, half, 0, l)
      && Signed((c & 0x0F) | (((qh >> 2) & 3) << 4)) - 32 == Six(block, half, 1, l)
  {
    hide Signed, Centred;
    var a, c, qh := block[half * 64 + l], block[half * 64 + l + 32], block[128 + half * 32 + l];
    NibblesFit(a);
    NibblesFit(c);
    SixBits(a & 0x0F, qh);
    SixBits(c & 0x0F, qh >> 2);
  }

  lemma HighSixes(block: seq<B8>, half: nat, l: nat)
    requires |block| == 210 && half < 2 && l < 32
    ensures
      var a, c, qh := block[half * 64 + l], block[half * 64 + l + 32], block[128 + half * 32 + l];
      && Signed((a >> 4) | (((qh >> 4) & 3) << 4)) - 32 == Six(block, half, 2, l)
      && Signed((c >> 4) | (((qh >> 6) & 3) << 4)) - 32 == Six(block, half, 3, l)
  {
    hide Signed, Centred;
    var a, c, qh := block[half * 64 + l], block[half * 64 + l + 32], block[128 + half * 32 + l];
    NibblesFit(a);
    NibblesFit(c);
    SixBits(a >> 4, qh >> 4);
    SixBits(c >> 4, qh >> 6);
  }

  lemma NibblesFit(b: B8)
    ensures b & 0x0F < 16 && b >> 4 < 16
  {
  }

  predicate Sixes(block: seq<B8>, half: nat, part: nat, p: seq<int>)
    requires |block| == 210 && half < 2 && part < 4
  {
    |p| <= 32 && forall l :: 0 <= l < |p| ==> p[l] == Six(block, half, part, l)
  }

  /** One half's hundred and twenty-eight numbers, written four at a time thirty-two apart. */
  method Q6Half(block: seq<B8>, half: nat) returns (p0: seq<int>, p1: seq<int>, p2: seq<int>, p3: seq<int>)
    requires |block| == 210 && half < 2
    ensures |p0| == |p1| == |p2| == |p3| == 32
    ensures Sixes(block, half, 0, p0) && Sixes(block, half, 1, p1) && Sixes(block, half, 2, p2) && Sixes(block, half, 3, p3)
  {
    var ql, qh := block[half * 64..half * 64 + 64], block[128 + half * 32..128 + half * 32 + 32];
    p0, p1, p2, p3 := [], [], [], [];
    hide Six, Signed;
    for l := 0 to 32
      invariant |p0| == |p1| == |p2| == |p3| == l
      invariant Sixes(block, half, 0, p0) && Sixes(block, half, 1, p1) && Sixes(block, half, 2, p2) && Sixes(block, half, 3, p3)
    {
      hide Sixes;
      LowSixes(block, half, l);
      HighSixes(block, half, l);
      p0 := PushSix(block, half, 0, p0, Signed((ql[l] & 0x0F) | ((qh[l] & 3) << 4)) - 32);
      p1 := PushSix(block, half, 1, p1, Signed((ql[l + 32] & 0x0F) | (((qh[l] >> 2) & 3) << 4)) - 32);
      p2 := PushSix(block, half, 2, p2, Signed((ql[l] >> 4) | (((qh[l] >> 4) & 3) << 4)) - 32);
      p3 := PushSix(block, half, 3, p3, Signed((ql[l + 32] >> 4) | (((qh[l] >> 6) & 3) << 4)) - 32);
    }
  }

  method PushSix(ghost block: seq<B8>, ghost half: nat, ghost part: nat, p: seq<int>, x: int) returns (p': seq<int>)
    requires |block| == 210 && half < 2 && part < 4 && |p| < 32 && Sixes(block, half, part, p) && x == Six(block, half, part, |p|)
    ensures |p'| == |p| + 1 && Sixes(block, half, part, p')
  {
    hide Six;
    p' := p + [x];
  }

  /** Sixteen numbers of a part are a sub-block. */
  lemma SixteenOf(block: seq<B8>, half: nat, part: nat, o: nat, p: seq<int>)
    requires |block| == 210 && half < 2 && part < 4 && o < 2 && |p| == 32 && Sixes(block, half, part, p)
    ensures Unpacked(Q6_K, block, half * 8 + part * 2 + o, p[o * 16..o * 16 + 16])
  {
    hide Six, Quant;
    var run := p[o * 16..o * 16 + 16];
    forall l: nat | l < 16 ensures run[l] == Quant(Q6_K, block, half * 8 + part * 2 + o, l) {
      SixIsQuant(block, half, part, o * 16 + l);
      Div16(o, l);
    }
  }

  /** One part: two sub-blocks. */
  method Q6Part(
    ghost row: seq<B8>, ghost n: nat, b: nat, block: seq<B8>, xq: seq<int>, xs: seq<real>,
    half: nat, part: nat, p: seq<int>, sub: nat, start: real)
    returns (acc: real)
    requires |block| == 210 && half < 2 && part < 4 && |p| == 32 && Sixes(block, half, part, p) && sub == half * 8 + part * 2
    requires Whole(Q6_K, row, n) && b < n && block == BlockOf(Q6_K, row, n, b) && Stands(Q6_K, row, n, xq, xs, b, sub, start)
    ensures Stands(Q6_K, row, n, xq, xs, b, sub + 2, acc)
  {
    hide Stands, Whole, Quant, Unpacked, BlockOf, Half, Sixes, Signed;
    var d := Half(block[208], block[209]);
    acc := start;
    for o := 0 to 2
      invariant Stands(Q6_K, row, n, xq, xs, b, sub + o, acc)
    {
      SixteenOf(block, half, part, o, p);
      var scale := d * Signed(block[192 + (sub + o)]) as real;
      acc := StepSymmetric(Q6_K, row, n, xq, xs, b, sub + o, scale, p[o * 16..o * 16 + 16], acc);
    }
  }

  method Q6Block(ghost row: seq<B8>, ghost n: nat, b: nat, block: seq<B8>, xq: seq<int>, xs: seq<real>, start: real)
    returns (acc: real)
    requires Done(Q6_K, row, n, xq, xs, b, start) && b < n && block == BlockOf(Q6_K, row, n, b)
    ensures Done(Q6_K, row, n, xq, xs, b + 1, acc)
  {
    hide Done, Stands, Whole, BlockOf, Sixes;
    var sub := Enter(Q6_K, row, n, xq, xs, b, start);
    acc := start;
    for half := 0 to 2
      invariant sub == half * 8 && Stands(Q6_K, row, n, xq, xs, b, sub, acc)
    {
      var p0, p1, p2, p3 := Q6Half(block, half);
      acc := Q6Part(row, n, b, block, xq, xs, half, 0, p0, sub, acc);
      acc := Q6Part(row, n, b, block, xq, xs, half, 1, p1, sub + 2, acc);
      acc := Q6Part(row, n, b, block, xq, xs, half, 2, p2, sub + 4, acc);
      acc := Q6Part(row, n, b, block, xq, xs, half, 3, p3, sub + 6, acc);
      sub := sub + 8;
    }
    NextBlock(Q6_K, row, n, xq, xs, b, sub, acc);
  }

  method Q6Dot(row: seq<B8>, n: nat, xq: seq<int>, xs: seq<real>) returns (acc: real)
    requires Whole(Q6_K, row, n) && Activation(Q6_K, n, xq, xs)
    ensures acc == Reference(Q6_K, row, n, xq, xs)
  {
    hide Done, Stands, Reference, Activation, Whole, BlockOf;
    acc := Begin(Q6_K, row, n, xq, xs);
    for b := 0 to n
      invariant Done(Q6_K, row, n, xq, xs, b, acc)
    {
      acc := Q6Block(row, n, b, BlockOf(Q6_K, row, n, b), xq, xs, acc);
    }
    AllDone(Q6_K, row, n, xq, xs, acc);
  }

  // ---------------------------------------------------------------- all of them

  /** `int8_dot`: whatever the format and whatever the bits, the kernel gives the sum of dequantised
    * weight times scaled activation. */
  method Int8Dot(f: Format, row: seq<B8>, n: nat, xq: seq<int>, xs: seq<real>, sums: seq<int>) returns (acc: real)
    requires Whole(f, row, n) && Activation(f, n, xq, xs)
    requires f.Q2_K? || f.Q4_K? || f.Q5_K? ==> RunSums(xq, f.Width(), sums)
    ensures acc == Reference(f, row, n, xq, xs)
  {
    hide Reference;
    match f
    case Q8_0 => acc := Q8Dot(row, n, xq, xs);
    case Q2_K => acc := Q2Dot(row, n, xq, xs, sums);
    case Q3_K => acc := Q3Dot(row, n, xq, xs);
    case Q4_K => acc := Q4Dot(row, n, xq, xs, sums);
    case Q5_K => acc := Q5Dot(row, n, xq, xs, sums);
    case Q6_K => acc := Q6Dot(row, n, xq, xs);
  }
}
