/** The decoders: packed rows written out number by number. */
module Decoders {
  import opened Formats
  import opened Quants
  import opened Kernels
  import opened Dots

  /** Everything before sub-block `s` of block `b` has been written, and it is the row's weights. */
  predicate Wrote(f: Format, row: seq<B8>, n: nat, b: nat, s: nat, out: seq<real>) {
    Whole(f, row, n) && |out| == At(f, b, s) <= n * f.Elements() && Written(f, row, n, out)
  }

  predicate Written(f: Format, row: seq<B8>, n: nat, out: seq<real>)
    requires Whole(f, row, n)
  {
    |out| <= n * f.Elements() && forall j :: 0 <= j < |out| ==> out[j] == Weight(f, row, n, j)
  }

  /** The decoders' one arithmetic step: scale times quant, less the minimum. */
  method WriteRun(f: Format, ghost row: seq<B8>, ghost n: nat, ghost b: nat, ghost s: nat, scale: real, min: real, q: seq<int>, out: seq<real>)
    returns (r: seq<real>)
    requires Wrote(f, row, n, b, s, out) && b < n && s < f.Subs()
    requires |q| == f.Width() && Unpacked(f, BlockOf(f, row, n, b), s, q)
    requires scale == Scale(f, BlockOf(f, row, n, b), s) && min == Minimum(f, BlockOf(f, row, n, b), s)
    ensures Wrote(f, row, n, b, s + 1, r)
  {
    EndOfRun(f, n, b, s);
    hide Scale, Minimum, Quant, At, Weight, Whole, BlockOf, Unpacked, Format.Elements, Format.Subs, Format.Width;
    r := out;
    for l := 0 to |q|
      invariant |r| == |out| + l && Written(f, row, n, r)
    {
      r := WriteOne(f, row, n, b, s, scale, min, q, l, r);
    }
  }

  lemma EndOfRun(f: Format, n: nat, b: nat, s: nat)
    requires b < n && s < f.Subs()
    ensures At(f, b, s + 1) == At(f, b, s) + f.Width() <= n * f.Elements()
  {
    Position(f, n, b, s, f.Width() - 1);
    NextAt(f, b, s);
  }

  method WriteOne(
    f: Format, ghost row: seq<B8>, ghost n: nat, ghost b: nat, ghost s: nat, scale: real, min: real, q: seq<int>, l: nat, out: seq<real>)
    returns (r: seq<real>)
    requires Whole(f, row, n) && Written(f, row, n, out) && b < n && s < f.Subs() && |out| == At(f, b, s) + l
    requires l < |q| == f.Width() && Unpacked(f, BlockOf(f, row, n, b), s, q)
    requires scale == Scale(f, BlockOf(f, row, n, b), s) && min == Minimum(f, BlockOf(f, row, n, b), s)
    ensures |r| == |out| + 1 && Written(f, row, n, r)
  {
    hide Scale, Minimum, Quant, At, Weight, Whole, BlockOf, Unpacked, Format.Elements, Format.Subs, Format.Width;
    WeightHere(f, row, n, b, s, l, q);
    r := out + [scale * q[l] as real - min];
  }

  lemma WeightHere(f: Format, row: seq<B8>, n: nat, b: nat, s: nat, l: nat, q: seq<int>)
    requires Whole(f, row, n) && b < n && s < f.Subs() && l < |q| == f.Width() && Unpacked(f, BlockOf(f, row, n, b), s, q)
    ensures At(f, b, s) + l < n * f.Elements()
    ensures Weight(f, row, n, At(f, b, s) + l) ==
      Scale(f, BlockOf(f, row, n, b), s) * q[l] as real - Minimum(f, BlockOf(f, row, n, b), s)
  {
    hide Scale, Minimum, Quant, At, Weight, Whole, Block, BlockOf, Format.Elements, Format.Subs, Format.Width, Format.Bytes;
    SameBlock(f, row, n, b);
    Position(f, n, b, s, l);
    WeightIs(f, row, n, b, s, l);
  }

  lemma SameBlock(f: Format, row: seq<B8>, n: nat, b: nat)
    requires Whole(f, row, n) && b < n
    ensures (b + 1) * f.Bytes() <= |row| && Block(f, row, b) == BlockOf(f, row, n, b)
  {
    BlockIs(f, row, n, b);
  }

  /** The blocks before `b` are written out. */
  predicate Decoded(f: Format, row: seq<B8>, n: nat, b: nat, out: seq<real>) {
    b <= n && Wrote(f, row, n, b, 0, out)
  }

  lemma Start(f: Format, row: seq<B8>, n: nat, b: nat, out: seq<real>)
    requires Whole(f, row, n) && b == 0 && out == []
    ensures Decoded(f, row, n, b, out)
  {
    hide At, Weight, Whole, Format.Elements;
    AtStart(f, b, 0);
    Room(n, f.Elements());
  }

  lemma AtStart(f: Format, b: nat, s: nat)
    requires b == 0 && s == 0
    ensures At(f, b, s) == 0
  {
  }

  lemma Room(n: nat, elements: nat)
    ensures 0 <= n * elements
  {
  }

  method First(f: Format, ghost row: seq<B8>, ghost n: nat, ghost b: nat, ghost out: seq<real>) returns (s: nat)
    requires Decoded(f, row, n, b, out) && b < n
    ensures s == 0 && Whole(f, row, n) && Wrote(f, row, n, b, s, out)
  {
    s := 0;
  }

  lemma BlockWritten(f: Format, row: seq<B8>, n: nat, b: nat, s: nat, out: seq<real>)
    requires Wrote(f, row, n, b, s, out) && s == f.Subs() && b < n
    ensures Decoded(f, row, n, b + 1, out)
  {
    EndOfBlock(f, b);
  }

  lemma RowWritten(f: Format, row: seq<B8>, n: nat, out: seq<real>)
    requires Decoded(f, row, n, n, out)
    ensures Whole(f, row, n) && |out| == n * f.Elements() && Written(f, row, n, out)
  {
  }

  // ---------------------------------------------------------------- blocks

  method DecodeBlock8(ghost row: seq<B8>, ghost n: nat, ghost b: nat, block: seq<B8>, before: seq<real>) returns (out: seq<real>)
    requires Decoded(Q8_0, row, n, b, before) && b < n && block == BlockOf(Q8_0, row, n, b)
    ensures Decoded(Q8_0, row, n, b + 1, out)
  {
    hide Decoded, Wrote, Whole, BlockOf, Signed, Half;
    var sub := First(Q8_0, row, n, b, before);
    var q := seq(32, l requires 0 <= l < 32 => Signed(block[2 + l]));
    out := WriteRun(Q8_0, row, n, b, sub, Half(block[0], block[1]), 0.0, q, before);
    BlockWritten(Q8_0, row, n, b, sub + 1, out);
  }

  method Q2Ints(block: seq<B8>, half: nat, k: nat, o: nat) returns (q: seq<int>)
    requires |block| == 84 && half < 2 && k < 4 && o < 2
    ensures |q| == 16 && Unpacked(Q2_K, block, half * 8 + k * 2 + o, q)
  {
    var run := block[16 + half * 32 + o * 16..16 + half * 32 + o * 16 + 16];
    var shift := k * 2;
    Counters(half, k, o);
    hide Two;
    q := [];
    for l := 0 to 16
      invariant |q| == l && Unpacked(Q2_K, block, half * 8 + k * 2 + o, q)
    {
      q := q + [Two(run[l], shift)];
    }
  }

  method DecodeBlock2(ghost row: seq<B8>, ghost n: nat, ghost b: nat, block: seq<B8>, before: seq<real>) returns (out: seq<real>)
    requires Decoded(Q2_K, row, n, b, before) && b < n && block == BlockOf(Q2_K, row, n, b)
    ensures Decoded(Q2_K, row, n, b + 1, out)
  {
    hide Decoded, Wrote, Whole, BlockOf, Half, Unpacked, Quant, Low, High;
    var d, dmin := Half(block[80], block[81]), Half(block[82], block[83]);
    var sub := First(Q2_K, row, n, b, before);
    out := before;
    for half := 0 to 2
      invariant sub == half * 8 && Wrote(Q2_K, row, n, b, sub, out)
    {
      for k := 0 to 4
        invariant sub == half * 8 + k * 2 && Wrote(Q2_K, row, n, b, sub, out)
      {
        for o := 0 to 2
          invariant sub == half * 8 + k * 2 + o && Wrote(Q2_K, row, n, b, sub, out)
        {
          var sc := block[sub];
          var q := Q2Ints(block, half, k, o);
          out := WriteRun(Q2_K, row, n, b, sub, d * Low(sc) as real, dmin * High(sc) as real, q, out);
          sub := sub + 1;
        }
      }
    }
    BlockWritten(Q2_K, row, n, b, sub, out);
  }

  method Q3Ints(block: seq<B8>, half: nat, k: nat, o: nat, m: B8) returns (q: seq<int>)
    requires |block| == 110 && half < 2 && k < 4 && o < 2 && m == Mask(half * 4 + k)
    ensures |q| == 16 && Unpacked(Q3_K, block, half * 8 + k * 2 + o, q)
  {
    q := [];
    for l := 0 to 16
      invariant |q| == l && Unpacked(Q3_K, block, half * 8 + k * 2 + o, q)
    {
      q := Q3NextInt(block, half, k, o, m, q);
    }
  }

  method Q3NextInt(block: seq<B8>, half: nat, k: nat, o: nat, m: B8, q: seq<int>) returns (q': seq<int>)
    requires |block| == 110 && half < 2 && k < 4 && o < 2 && m == Mask(half * 4 + k)
    requires |q| < 16 && Unpacked(Q3_K, block, half * 8 + k * 2 + o, q)
    ensures |q'| == |q| + 1 && Unpacked(Q3_K, block, half * 8 + k * 2 + o, q')
  {
    hide Quant, Mask, Two, Unpacked;
    var l, offset := |q|, o * 16;
    Q3Slot(block, half, k, o, l);
    var hbit := if block[l + offset] & m != 0 then 0 else 4;
    q' := Push(Q3_K, block, half * 8 + k * 2 + o, q, Two(block[32 + half * 32 + (l + offset)], k * 2) - hbit);
  }

  method DecodePair3(
    ghost row: seq<B8>, ghost n: nat, ghost b: nat, block: seq<B8>, half: nat, k: nat, m: B8, sub: nat, before: seq<real>)
    returns (out: seq<real>)
    requires half < 2 && k < 4 && sub == half * 8 + k * 2 && m == Mask(half * 4 + k)
    requires Whole(Q3_K, row, n) && b < n && block == BlockOf(Q3_K, row, n, b) && Wrote(Q3_K, row, n, b, sub, before)
    ensures Wrote(Q3_K, row, n, b, sub + 2, out)
  {
    hide Wrote, Whole, Quant, Unpacked, BlockOf, UnpackQ3, Scale, Minimum, Half, Mask;
    var d, scales := Half(block[108], block[109]), UnpackQ3(block[96..108]);
    out := before;
    for o := 0 to 2
      invariant Wrote(Q3_K, row, n, b, sub + o, out)
    {
      Q3Scale(block, sub + o);
      var dl := d * (scales[sub + o] as int - 32) as real;
      var q := Q3Ints(block, half, k, o, m);
      out := WriteRun(Q3_K, row, n, b, sub + o, dl, 0.0, q, out);
    }
  }

  method DecodeBlock3(ghost row: seq<B8>, ghost n: nat, ghost b: nat, block: seq<B8>, before: seq<real>) returns (out: seq<real>)
    requires Decoded(Q3_K, row, n, b, before) && b < n && block == BlockOf(Q3_K, row, n, b)
    ensures Decoded(Q3_K, row, n, b + 1, out)
  {
    hide Decoded, Wrote, Whole, BlockOf;
    var sub := First(Q3_K, row, n, b, before);
    var m: B8 := 1;
    out := before;
    for half := 0 to 2
      invariant sub == half * 8 && m == Mask(half * 4) && Wrote(Q3_K, row, n, b, sub, out)
    {
      for k := 0 to 4
        invariant sub == half * 8 + k * 2 && m == Mask(half * 4 + k) && Wrote(Q3_K, row, n, b, sub, out)
      {
        out := DecodePair3(row, n, b, block, half, k, m, sub, out);
        sub := sub + 2;
        m := m << 1;
      }
    }
    BlockWritten(Q3_K, row, n, b, sub, out);
  }

  /** The low nibbles of a chunk, then the high ones. */
  method Q4Ints(block: seq<B8>, g: nat) returns (lo: seq<int>, hi: seq<int>)
    requires |block| == 144 && g < 4
    ensures |lo| == |hi| == 32 && Unpacked(Q4_K, block, g * 2, lo) && Unpacked(Q4_K, block, g * 2 + 1, hi)
  {
    var chunk := block[16 + g * 32..16 + g * 32 + 32];
    hide Low, High;
    lo := seq(32, l requires 0 <= l < 32 => Low(chunk[l]));
    hi := seq(32, l requires 0 <= l < 32 => High(chunk[l]));
  }

  method DecodeGroup4(ghost row: seq<B8>, ghost n: nat, ghost b: nat, block: seq<B8>, g: nat, sub: nat, before: seq<real>)
    returns (out: seq<real>)
    requires g < 4 && sub == g * 2 && Wrote(Q4_K, row, n, b, sub, before)
    requires Whole(Q4_K, row, n) && b < n && block == BlockOf(Q4_K, row, n, b)
    ensures Wrote(Q4_K, row, n, b, sub + 2, out)
  {
    hide Wrote, Whole, Quant, Unpacked, BlockOf, ScaleMin, Scale, Minimum, Half, Times;
    var d, dmin, scales := Half(block[0], block[1]), Half(block[2], block[3]), block[4..16];
    var lo, hi := Q4Ints(block, g);
    var (sc1, m1) := ScaleMin(sub, scales);
    var (sc2, m2) := ScaleMin(sub + 1, scales);
    AffineScales(Q4_K, block, sub);
    AffineScales(Q4_K, block, sub + 1);
    out := WriteRun(Q4_K, row, n, b, sub, Times(d, sc1), Times(dmin, m1), lo, before);
    out := WriteRun(Q4_K, row, n, b, sub + 1, Times(d, sc2), Times(dmin, m2), hi, out);
  }

  method DecodeBlock4(ghost row: seq<B8>, ghost n: nat, ghost b: nat, block: seq<B8>, before: seq<real>) returns (out: seq<real>)
    requires Decoded(Q4_K, row, n, b, before) && b < n && block == BlockOf(Q4_K, row, n, b)
    ensures Decoded(Q4_K, row, n, b + 1, out)
  {
    hide Decoded, Wrote, Whole, BlockOf;
    var sub := First(Q4_K, row, n, b, before);
    out := before;
    for g := 0 to 4
      invariant sub == g * 2 && Wrote(Q4_K, row, n, b, sub, out)
    {
      out := DecodeGroup4(row, n, b, block, g, sub, out);
      sub := sub + 2;
    }
    BlockWritten(Q4_K, row, n, b, sub, out);
  }

  method Q5Ints(block: seq<B8>, g: nat, high: nat, u: B8) returns (q: seq<int>)
    requires |block| == 176 && g < 4 && high < 2 && u == Mask(g * 2 + high)
    ensures |q| == 32 && Unpacked(Q5_K, block, g * 2 + high, q)
  {
    q := [];
    for l := 0 to 32
      invariant |q| == l && Unpacked(Q5_K, block, g * 2 + high, q)
    {
      q := Q5NextInt(block, g, high, u, q);
    }
  }

  method Q5NextInt(block: seq<B8>, g: nat, high: nat, u: B8, q: seq<int>) returns (q': seq<int>)
    requires |block| == 176 && g < 4 && high < 2 && u == Mask(g * 2 + high)
    requires |q| < 32 && Unpacked(Q5_K, block, g * 2 + high, q)
    ensures |q'| == |q| + 1 && Unpacked(Q5_K, block, g * 2 + high, q')
  {
    hide Mask, Low, High, Unpacked, Quant;
    var l := |q|;
    Q5Int(block, g, high, l);
    var hi := if block[16 + l] & u != 0 then 16 else 0;
    var b := block[48 + g * 32 + l];
    q' := Push(Q5_K, block, g * 2 + high, q, (if high == 1 then High(b) else Low(b)) + hi);
  }

  lemma Q5Int(block: seq<B8>, g: nat, high: nat, l: nat)
    requires |block| == 176 && g < 4 && high < 2 && l < 32
    ensures
      var b, hi := block[48 + g * 32 + l], if block[16 + l] & Mask(g * 2 + high) != 0 then 16 else 0;
      (if high == 1 then High(b) else Low(b)) + hi == Quant(Q5_K, block, g * 2 + high, l)
  {
    assert (g * 2 + high) / 2 == g && (g * 2 + high) % 2 == high;
    hide Low, High, Mask;
  }

  method DecodeGroup5(
    ghost row: seq<B8>, ghost n: nat, ghost b: nat, block: seq<B8>, g: nat, sub: nat, u1: B8, u2: B8, before: seq<real>)
    returns (out: seq<real>)
    requires g < 4 && sub == g * 2 && u1 == Mask(sub) && u2 == Mask(sub + 1) && Wrote(Q5_K, row, n, b, sub, before)
    requires Whole(Q5_K, row, n) && b < n && block == BlockOf(Q5_K, row, n, b)
    ensures Wrote(Q5_K, row, n, b, sub + 2, out)
  {
    hide Wrote, Whole, Quant, Unpacked, BlockOf, ScaleMin, Scale, Minimum, Half, Times, Mask;
    var d, dmin, scales := Half(block[0], block[1]), Half(block[2], block[3]), block[4..16];
    var (sc1, m1) := ScaleMin(sub, scales);
    var (sc2, m2) := ScaleMin(sub + 1, scales);
    AffineScales(Q5_K, block, sub);
    AffineScales(Q5_K, block, sub + 1);
    var q := Q5Ints(block, g, 0, u1);
    out := WriteRun(Q5_K, row, n, b, sub, Times(d, sc1), Times(dmin, m1), q, before);
    q := Q5Ints(block, g, 1, u2);
    out := WriteRun(Q5_K, row, n, b, sub + 1, Times(d, sc2), Times(dmin, m2), q, out);
  }

  method DecodeBlock5(ghost row: seq<B8>, ghost n: nat, ghost b: nat, block: seq<B8>, before: seq<real>) returns (out: seq<real>)
    requires Decoded(Q5_K, row, n, b, before) && b < n && block == BlockOf(Q5_K, row, n, b)
    ensures Decoded(Q5_K, row, n, b + 1, out)
  {
    hide Decoded, Wrote, Whole, BlockOf;
    var sub := First(Q5_K, row, n, b, before);
    var u1: B8, u2: B8 := 1, 2;
    out := before;
    for g := 0 to 4
      invariant sub == g * 2 && u1 == Mask(sub) && u2 == Mask(sub + 1) && Wrote(Q5_K, row, n, b, sub, out)
    {
      out := DecodeGroup5(row, n, b, block, g, sub, u1, u2, out);
      TwoUp(sub);
      TwoUp(sub + 1);
      sub := sub + 2;
      u1, u2 := u1 << 2, u2 << 2;
    }
    BlockWritten(Q5_K, row, n, b, sub, out);
  }

  /** One of a half's four runs of thirty-two. */
  method Q6Ints(block: seq<B8>, half: nat, part: nat) returns (p: seq<int>)
    requires |block| == 210 && half < 2 && part < 4
    ensures |p| == 32 && Sixes(block, half, part, p)
  {
    p := [];
    hide Centred, Down;
    for l := 0 to 32
      invariant |p| == l && Sixes(block, half, part, p)
    {
      var ql, qh := block[half * 64 + part % 2 * 32 + l], block[128 + half * 32 + l];
      p := p + [Centred(if part < 2 then ql & 0x0F else ql >> 4, Down(qh, part))];
    }
  }

  method DecodePart6(
    ghost row: seq<B8>, ghost n: nat, ghost b: nat, block: seq<B8>, half: nat, part: nat, sub: nat, before: seq<real>)
    returns (out: seq<real>)
    requires |block| == 210 && half < 2 && part < 4 && sub == half * 8 + part * 2
    requires Whole(Q6_K, row, n) && b < n && block == BlockOf(Q6_K, row, n, b) && Wrote(Q6_K, row, n, b, sub, before)
    ensures Wrote(Q6_K, row, n, b, sub + 2, out)
  {
    hide Wrote, Whole, Quant, Unpacked, BlockOf, Half, Sixes, Signed;
    var d := Half(block[208], block[209]);
    var p := Q6Ints(block, half, part);
    out := before;
    for o := 0 to 2
      invariant Wrote(Q6_K, row, n, b, sub + o, out)
    {
      SixteenOf(block, half, part, o, p);
      var scale := d * Signed(block[192 + (sub + o)]) as real;
      out := WriteRun(Q6_K, row, n, b, sub + o, scale, 0.0, p[o * 16..o * 16 + 16], out);
    }
  }

  method DecodeBlock6(ghost row: seq<B8>, ghost n: nat, ghost b: nat, block: seq<B8>, before: seq<real>) returns (out: seq<real>)
    requires Decoded(Q6_K, row, n, b, before) && b < n && block == BlockOf(Q6_K, row, n, b)
    ensures Decoded(Q6_K, row, n, b + 1, out)
  {
    hide Decoded, Wrote, Whole, BlockOf;
    var sub := First(Q6_K, row, n, b, before);
    out := before;
    for half := 0 to 2
      invariant sub == half * 8 && Wrote(Q6_K, row, n, b, sub, out)
    {
      for part := 0 to 4
        invariant sub == half * 8 + part * 2 && Wrote(Q6_K, row, n, b, sub, out)
      {
        out := DecodePart6(row, n, b, block, half, part, sub, out);
        sub := sub + 2;
      }
    }
    BlockWritten(Q6_K, row, n, b, sub, out);
  }

  // ---------------------------------------------------------------- rows

  method DecodeBlock(f: Format, ghost row: seq<B8>, ghost n: nat, ghost b: nat, block: seq<B8>, before: seq<real>)
    returns (out: seq<real>)
    requires Decoded(f, row, n, b, before) && b < n && block == BlockOf(f, row, n, b)
    ensures Decoded(f, row, n, b + 1, out)
  {
    hide Decoded, BlockOf;
    match f
    case Q8_0 => out := DecodeBlock8(row, n, b, block, before);
    case Q2_K => out := DecodeBlock2(row, n, b, block, before);
    case Q3_K => out := DecodeBlock3(row, n, b, block, before);
    case Q4_K => out := DecodeBlock4(row, n, b, block, before);
    case Q5_K => out := DecodeBlock5(row, n, b, block, before);
    case Q6_K => out := DecodeBlock6(row, n, b, block, before);
  }

  /** `dequant_into`: a whole row, every format. */
  method Dequantise(f: Format, row: seq<B8>, n: nat) returns (out: seq<real>)
    requires Whole(f, row, n)
    ensures |out| == n * f.Elements() && Written(f, row, n, out)
  {
    out := DecodeFrom(f, row, n, []);
    RowWritten(f, row, n, out);
    hide Decoded, Whole, Written;
  }

  method DecodeFrom(f: Format, row: seq<B8>, n: nat, begun: seq<real>) returns (out: seq<real>)
    requires Whole(f, row, n) && begun == []
    ensures Decoded(f, row, n, n, out)
  {
    hide Decoded, Whole, BlockOf, Written, Format.Elements;
    out := begun;
    var b := 0;
    Start(f, row, n, b, out);
    while b < n
      invariant b <= n && Decoded(f, row, n, b, out)
    {
      out := DecodeBlock(f, row, n, b, BlockOf(f, row, n, b), out);
      b := b + 1;
    }
  }
}
