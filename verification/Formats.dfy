/** The packed weight formats: which bits of a block are which weight's quant, scale and minimum.
  * Every position is a closed form in the sub-block and the element; the unpacking loops of the
  * decoders and of the integer kernels are both proved against it. */
module Formats {
  type B8 = bv8

  datatype Format = Q8_0 | Q2_K | Q3_K | Q4_K | Q5_K | Q6_K {
    /** Weights a block holds, and the bytes it takes. */
    function Elements(): nat { if Q8_0? then 32 else 256 }

    function Bytes(): nat {
      match this
      case Q8_0 => 34
      case Q2_K => 84
      case Q3_K => 110
      case Q4_K => 144
      case Q5_K => 176
      case Q6_K => 210
    }

    /** Weights that share one scale. */
    function Width(): nat { if Q8_0? || Q4_K? || Q5_K? then 32 else 16 }

    function Subs(): nat { if Q8_0? then 1 else if Q4_K? || Q5_K? then 8 else 16 }
  }

  /** A byte read as a signed one. */
  function Signed(b: B8): int { if b < 128 then b as int else b as int - 256 }

  function Mask(k: nat): B8 { if k == 0 then 1 else Mask(k - 1) << 1 }

  predicate Bit(b: B8, k: nat) { b & Mask(k) != 0 }

  /** Bit `k` is bit `k`. */
  lemma BitIsShift(b: B8, k: nat)
    requires k < 8
    ensures Bit(b, k) <==> (b >> k) & 1 == 1
  {
    assert Mask(0) == 1 && Mask(1) == 2 && Mask(2) == 4 && Mask(3) == 8;
    assert Mask(4) == 16 && Mask(5) == 32 && Mask(6) == 64 && Mask(7) == 128;
    BitMasks(b);
  }

  lemma BitMasks(b: B8)
    ensures (b & 1 != 0 <==> (b >> 0) & 1 == 1) && (b & 2 != 0 <==> (b >> 1) & 1 == 1)
    ensures (b & 4 != 0 <==> (b >> 2) & 1 == 1) && (b & 8 != 0 <==> (b >> 3) & 1 == 1)
    ensures (b & 16 != 0 <==> (b >> 4) & 1 == 1) && (b & 32 != 0 <==> (b >> 5) & 1 == 1)
    ensures (b & 64 != 0 <==> (b >> 6) & 1 == 1) && (b & 128 != 0 <==> (b >> 7) & 1 == 1)
  {
  }

  // ---------------------------------------------------------------- six-bit scales

  /** `get_scale_min_k4`: sub-block `j`'s scale and minimum out of twelve bytes. */
  function ScaleMin(j: nat, s: seq<B8>): (B8, B8)
    requires j < 8 && |s| == 12
  {
    if j < 4 then (s[j] & 63, s[j + 4] & 63)
    else ((s[j + 4] & 0x0F) | ((s[j - 4] >> 6) << 4), (s[j + 4] >> 4) | ((s[j] >> 6) << 4))
  }

  /** Eight scales and eight minima of six bits each, packed into twelve bytes. */
  function PackScaleMin(scales: seq<B8>, mins: seq<B8>): (s: seq<B8>)
    requires |scales| == |mins| == 8
    ensures |s| == 12
  {
    seq(12, j requires 0 <= j < 12 => PackedAt(scales, mins, j))
  }

  function PackedAt(scales: seq<B8>, mins: seq<B8>, j: nat): B8
    requires |scales| == |mins| == 8 && j < 12
  {
    if j < 4 then (scales[j] & 63) | ((scales[j + 4] >> 4) << 6)
    else if j < 8 then (mins[j - 4] & 63) | ((mins[j] >> 4) << 6)
    else (scales[j - 4] & 0x0F) | ((mins[j - 4] & 0x0F) << 4)
  }

  /** Unpacking undoes packing. */
  lemma ScaleMinRoundTrip(scales: seq<B8>, mins: seq<B8>, j: nat)
    requires |scales| == |mins| == 8 && j < 8
    requires forall i :: 0 <= i < 8 ==> scales[i] < 64 && mins[i] < 64
    ensures ScaleMin(j, PackScaleMin(scales, mins)) == (scales[j], mins[j])
  {
    if j < 4 {
      LowSix(scales[j], scales[j + 4]);
      LowSix(mins[j], mins[j + 4]);
    } else {
      SplitSix(scales[j], mins[j], scales[j - 4], mins[j - 4]);
    }
  }

  lemma LowSix(x: B8, y: B8)
    requires x < 64
    ensures ((x & 63) | ((y >> 4) << 6)) & 63 == x
  {
  }

  lemma SplitSix(x: B8, y: B8, a: B8, b: B8)
    requires x < 64 && y < 64
    ensures
      var low := (x & 0x0F) | ((y & 0x0F) << 4);
      && (low & 0x0F) | ((((a & 63) | ((x >> 4) << 6)) >> 6) << 4) == x
      && (low >> 4) | ((((b & 63) | ((y >> 4) << 6)) >> 6) << 4) == y
  {
  }

  /** Q3_K's scale `s`: its low four bits are a nibble of one of the first eight bytes, its high two a
    * pair of bits of one of the last four. */
  function Scale3(s: nat, b: seq<B8>): B8
    requires s < 16 && |b| == 12
  {
    if s < 4 then Six0(b[s], b[8 + s])
    else if s < 8 then Six1(b[s], b[4 + s])
    else if s < 12 then Six2(b[s - 8], b[s])
    else Six3(b[s - 8], b[s - 4])
  }

  function Six0(a: B8, t: B8): B8 { (a & 0x0F) | ((t & 3) << 4) }

  function Six1(a: B8, t: B8): B8 { (a & 0x0F) | (((t >> 2) & 3) << 4) }

  function Six2(a: B8, t: B8): B8 { (a >> 4) | (((t >> 4) & 3) << 4) }

  function Six3(a: B8, t: B8): B8 { (a >> 4) | (((t >> 6) & 3) << 4) }

  /** Four bytes as one little-endian word. */
  function Join(b0: B8, b1: B8, b2: B8, b3: B8): bv32 {
    (b0 as bv32) | ((b1 as bv32) << 8) | ((b2 as bv32) << 16) | ((b3 as bv32) << 24)
  }

  function BytesOf(w: bv32): (r: seq<B8>)
    ensures |r| == 4
  {
    [(w & 0xFF) as B8, ((w >> 8) & 0xFF) as B8, ((w >> 16) & 0xFF) as B8, ((w >> 24) & 0xFF) as B8]
  }

  lemma JoinRoundTrip(b0: B8, b1: B8, b2: B8, b3: B8)
    ensures BytesOf(Join(b0, b1, b2, b3)) == [b0, b1, b2, b3]
  {
  }

  function Word0(a: bv32, tmp: bv32): bv32 { (a & 0x0f0f_0f0f) | ((tmp & 0x0303_0303) << 4) }

  function Word1(a: bv32, tmp: bv32): bv32 { (a & 0x0f0f_0f0f) | (((tmp >> 2) & 0x0303_0303) << 4) }

  function Word2(a: bv32, tmp: bv32): bv32 { ((a >> 4) & 0x0f0f_0f0f) | (((tmp >> 4) & 0x0303_0303) << 4) }

  function Word3(a: bv32, tmp: bv32): bv32 { ((a >> 4) & 0x0f0f_0f0f) | (((tmp >> 6) & 0x0303_0303) << 4) }

  /** `unpack_q3_k_scales`: the word juggling. */
  function UnpackQ3(b: seq<B8>): (r: seq<B8>)
    requires |b| == 12
    ensures |r| == 16
  {
    var a0, a1, tmp := Join(b[0], b[1], b[2], b[3]), Join(b[4], b[5], b[6], b[7]), Join(b[8], b[9], b[10], b[11]);
    BytesOf(Word0(a0, tmp)) + BytesOf(Word1(a1, tmp)) + BytesOf(Word2(a0, tmp)) + BytesOf(Word3(a1, tmp))
  }

  lemma Bits0(a0: B8, a1: B8, a2: B8, a3: B8, t0: B8, t1: B8, t2: B8, t3: B8)
    ensures (Join(a0, a1, a2, a3) & 0x0f0f_0f0f) | ((Join(t0, t1, t2, t3) & 0x0303_0303) << 4) ==
      Join(
        (a0 & 0x0F) | ((t0 & 3) << 4),
        (a1 & 0x0F) | ((t1 & 3) << 4),
        (a2 & 0x0F) | ((t2 & 3) << 4),
        (a3 & 0x0F) | ((t3 & 3) << 4))
  {
  }

  lemma Bits1(a0: B8, a1: B8, a2: B8, a3: B8, t0: B8, t1: B8, t2: B8, t3: B8)
    ensures (Join(a0, a1, a2, a3) & 0x0f0f_0f0f) | (((Join(t0, t1, t2, t3) >> 2) & 0x0303_0303) << 4) ==
      Join(
        (a0 & 0x0F) | (((t0 >> 2) & 3) << 4),
        (a1 & 0x0F) | (((t1 >> 2) & 3) << 4),
        (a2 & 0x0F) | (((t2 >> 2) & 3) << 4),
        (a3 & 0x0F) | (((t3 >> 2) & 3) << 4))
  {
  }

  lemma Bits2(a0: B8, a1: B8, a2: B8, a3: B8, t0: B8, t1: B8, t2: B8, t3: B8)
    ensures ((Join(a0, a1, a2, a3) >> 4) & 0x0f0f_0f0f) | (((Join(t0, t1, t2, t3) >> 4) & 0x0303_0303) << 4) ==
      Join(
        (a0 >> 4) | (((t0 >> 4) & 3) << 4),
        (a1 >> 4) | (((t1 >> 4) & 3) << 4),
        (a2 >> 4) | (((t2 >> 4) & 3) << 4),
        (a3 >> 4) | (((t3 >> 4) & 3) << 4))
  {
  }

  lemma Bits3(a0: B8, a1: B8, a2: B8, a3: B8, t0: B8, t1: B8, t2: B8, t3: B8)
    ensures ((Join(a0, a1, a2, a3) >> 4) & 0x0f0f_0f0f) | (((Join(t0, t1, t2, t3) >> 6) & 0x0303_0303) << 4) ==
      Join(
        (a0 >> 4) | (((t0 >> 6) & 3) << 4),
        (a1 >> 4) | (((t1 >> 6) & 3) << 4),
        (a2 >> 4) | (((t2 >> 6) & 3) << 4),
        (a3 >> 4) | (((t3 >> 6) & 3) << 4))
  {
  }

  lemma Word0Is(a0: B8, a1: B8, a2: B8, a3: B8, t0: B8, t1: B8, t2: B8, t3: B8)
    ensures Word0(Join(a0, a1, a2, a3), Join(t0, t1, t2, t3)) == Join(Six0(a0, t0), Six0(a1, t1), Six0(a2, t2), Six0(a3, t3))
  {
    hide Join;
    Bits0(a0, a1, a2, a3, t0, t1, t2, t3);
  }

  lemma Word1Is(a0: B8, a1: B8, a2: B8, a3: B8, t0: B8, t1: B8, t2: B8, t3: B8)
    ensures Word1(Join(a0, a1, a2, a3), Join(t0, t1, t2, t3)) == Join(Six1(a0, t0), Six1(a1, t1), Six1(a2, t2), Six1(a3, t3))
  {
    hide Join;
    Bits1(a0, a1, a2, a3, t0, t1, t2, t3);
  }

  lemma Word2Is(a0: B8, a1: B8, a2: B8, a3: B8, t0: B8, t1: B8, t2: B8, t3: B8)
    ensures Word2(Join(a0, a1, a2, a3), Join(t0, t1, t2, t3)) == Join(Six2(a0, t0), Six2(a1, t1), Six2(a2, t2), Six2(a3, t3))
  {
    hide Join;
    Bits2(a0, a1, a2, a3, t0, t1, t2, t3);
  }

  lemma Word3Is(a0: B8, a1: B8, a2: B8, a3: B8, t0: B8, t1: B8, t2: B8, t3: B8)
    ensures Word3(Join(a0, a1, a2, a3), Join(t0, t1, t2, t3)) == Join(Six3(a0, t0), Six3(a1, t1), Six3(a2, t2), Six3(a3, t3))
  {
    hide Join;
    Bits3(a0, a1, a2, a3, t0, t1, t2, t3);
  }

  lemma Quarter0(b: seq<B8>)
    requires |b| == 12
    ensures BytesOf(Word0(Join(b[0], b[1], b[2], b[3]), Join(b[8], b[9], b[10], b[11]))) == [Scale3(0, b), Scale3(1, b), Scale3(2, b), Scale3(3, b)]
  {
    hide Join, BytesOf, Word0, Six0, Six1, Six2, Six3;
    Word0Is(b[0], b[1], b[2], b[3], b[8], b[9], b[10], b[11]);
    JoinRoundTrip(Scale3(0, b), Scale3(1, b), Scale3(2, b), Scale3(3, b));
  }

  lemma Quarter1(b: seq<B8>)
    requires |b| == 12
    ensures BytesOf(Word1(Join(b[4], b[5], b[6], b[7]), Join(b[8], b[9], b[10], b[11]))) == [Scale3(4, b), Scale3(5, b), Scale3(6, b), Scale3(7, b)]
  {
    hide Join, BytesOf, Word1, Six0, Six1, Six2, Six3;
    Word1Is(b[4], b[5], b[6], b[7], b[8], b[9], b[10], b[11]);
    JoinRoundTrip(Scale3(4, b), Scale3(5, b), Scale3(6, b), Scale3(7, b));
  }

  lemma Quarter2(b: seq<B8>)
    requires |b| == 12
    ensures BytesOf(Word2(Join(b[0], b[1], b[2], b[3]), Join(b[8], b[9], b[10], b[11]))) == [Scale3(8, b), Scale3(9, b), Scale3(10, b), Scale3(11, b)]
  {
    hide Join, BytesOf, Word2, Six0, Six1, Six2, Six3;
    Word2Is(b[0], b[1], b[2], b[3], b[8], b[9], b[10], b[11]);
    JoinRoundTrip(Scale3(8, b), Scale3(9, b), Scale3(10, b), Scale3(11, b));
  }

  lemma Quarter3(b: seq<B8>)
    requires |b| == 12
    ensures BytesOf(Word3(Join(b[4], b[5], b[6], b[7]), Join(b[8], b[9], b[10], b[11]))) == [Scale3(12, b), Scale3(13, b), Scale3(14, b), Scale3(15, b)]
  {
    hide Join, BytesOf, Word3, Six0, Six1, Six2, Six3;
    Word3Is(b[4], b[5], b[6], b[7], b[8], b[9], b[10], b[11]);
    JoinRoundTrip(Scale3(12, b), Scale3(13, b), Scale3(14, b), Scale3(15, b));
  }

  /** The juggling gathers each scale's six bits. */
  lemma UnpackQ3Is(b: seq<B8>, s: nat)
    requires |b| == 12 && s < 16
    ensures UnpackQ3(b)[s] == Scale3(s, b)
  {
    hide Join, BytesOf, Word0, Word1, Word2, Word3, Scale3;
    Quarter0(b);
    Quarter1(b);
    Quarter2(b);
    Quarter3(b);
    FourFours(
      [Scale3(0, b), Scale3(1, b), Scale3(2, b), Scale3(3, b)], [Scale3(4, b), Scale3(5, b), Scale3(6, b), Scale3(7, b)],
      [Scale3(8, b), Scale3(9, b), Scale3(10, b), Scale3(11, b)], [Scale3(12, b), Scale3(13, b), Scale3(14, b), Scale3(15, b)], s);
  }

  lemma FourFours(a: seq<B8>, b: seq<B8>, c: seq<B8>, d: seq<B8>, i: nat)
    requires |a| == |b| == |c| == |d| == 4 && i < 16
    ensures (a + b + c + d)[i] == if i < 4 then a[i] else if i < 8 then b[i - 4] else if i < 12 then c[i - 8] else d[i - 12]
  {
  }
}
