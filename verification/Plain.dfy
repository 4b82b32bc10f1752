/** `dequant_into`: every format the engine reads, those with an integer kernel and the three without. */
module Plain {
  import opened Basics
  import opened Formats
  import opened Quants
  import D = Decoders

  /** Whole floats, half floats, four-bit quants about eight, or a format with an integer kernel. */
  datatype Kind = Single | HalfFloat | Q4_0 | Kernelled(f: Format)

  datatype Error = NotWholeBlocks | WrongLength

  /** `block_layout`: numbers in a block, and its bytes. */
  function Elements(k: Kind): nat
    ensures Elements(k) > 0
  {
    match k
    case Single => 1
    case HalfFloat => 1
    case Q4_0 => 32
    case Kernelled(f) => f.Elements()
  }

  function Bytes(k: Kind): nat {
    match k
    case Single => 4
    case HalfFloat => 2
    case Q4_0 => 18
    case Kernelled(f) => f.Bytes()
  }

  /** A single-precision number. The bit patterns that are not finite numbers read as zero. */
  function Float(b0: B8, b1: B8, b2: B8, b3: B8): real {
    var exp := ((b3 & 0x7F) as int) * 2 + (b2 >> 7) as int;
    var mant := ((b2 & 0x7F) as int) * 65536 + b1 as int * 256 + b0 as int;
    if b3 >> 7 == 1 then -FloatSize(exp, mant) else FloatSize(exp, mant)
  }

  function FloatSize(exp: nat, mant: nat): real {
    if exp == 0 then mant as real * Power2(-149)
    else if exp == 255 then 0.0
    else (1.0 + mant as real / 8388608.0) * Power2(exp - 127)
  }

  /** The bytes of block `b`. */
  function Piece(k: Kind, raw: seq<B8>, b: nat): (r: seq<B8>)
    requires (b + 1) * Bytes(k) <= |raw|
    ensures |r| == Bytes(k)
  {
    Room(b, Bytes(k));
    raw[b * Bytes(k)..b * Bytes(k) + Bytes(k)]
  }

  lemma Room(b: nat, d: nat)
    ensures b * d + d == (b + 1) * d && 0 <= b * d
  {
  }

  /** Number `i` of a four-bit block: the low nibbles come first, then the high ones. */
  function Nibble(block: seq<B8>, i: nat): int
    requires |block| == 18 && i < 32
  {
    (if i < 16 then Low(block[2 + i]) else High(block[2 + i - 16])) - 8
  }

  function InBlock(k: Kind, block: seq<B8>, i: nat): real
    requires |block| == Bytes(k) && i < Elements(k)
  {
    match k
    case Single => Float(block[0], block[1], block[2], block[3])
    case HalfFloat => Half(block[0], block[1])
    case Q4_0 => Half(block[0], block[1]) * Nibble(block, i) as real
    case Kernelled(f) => WeightIn(f, block, i)
  }

  /** What number `j` of the row is. */
  predicate IsNumber(k: Kind, raw: seq<B8>, j: nat, x: real) {
    var b := j / Elements(k);
    (b + 1) * Bytes(k) <= |raw| && x == InBlock(k, Piece(k, raw, b), j % Elements(k))
  }

  /** The numbers of the first `i` bytes are in place. */
  ghost predicate PairsTo(block: seq<B8>, out: seq<real>, i: nat)
    requires |block| == 18 && |out| == 32
  {
    forall j: nat :: j < 32 && j % 16 < i ==> Placed(block, out, j)
  }

  predicate Placed(block: seq<B8>, out: seq<real>, j: nat)
    requires |block| == 18 && |out| == 32 && j < 32
  {
    out[j] == InBlock(Q4_0, block, j)
  }

  /** The four-bit decoder: each byte gives two numbers, sixteen apart. */
  method DecodeNibbles(block: seq<B8>) returns (out: seq<real>)
    requires |block| == 18
    ensures |out| == 32 && forall i :: 0 <= i < 32 ==> out[i] == InBlock(Q4_0, block, i)
  {
    hide InBlock, Placed;
    var buf := new real[32](_ => 0.0);
    var i := 0;
    while i < 16
      invariant i <= 16 && buf.Length == 32 && PairsTo(block, buf[..], i)
    {
      PutPair(block, buf, i);
      i := i + 1;
    }
    AllPlaced(block, buf[..], i);
    return buf[..];
  }

  method PutPair(block: seq<B8>, buf: array<real>, i: nat)
    requires |block| == 18 && buf.Length == 32 && i < 16 && PairsTo(block, buf[..], i)
    modifies buf
    ensures PairsTo(block, buf[..], i + 1)
  {
    hide Half, Low, High, PairsTo;
    ghost var before := buf[..];
    var scale := Half(block[0], block[1]);
    buf[i] := scale * (Low(block[2 + i]) - 8) as real;
    buf[i + 16] := scale * (High(block[2 + i]) - 8) as real;
    assert Placed(block, buf[..], i) && Placed(block, buf[..], i + 16);
    OthersStay(block, before, buf[..], i);
  }

  lemma OthersStay(block: seq<B8>, before: seq<real>, after: seq<real>, i: nat)
    requires |block| == 18 && |before| == |after| == 32 && i < 16 && PairsTo(block, before, i)
    requires forall j :: 0 <= j < 32 && j != i && j != i + 16 ==> after[j] == before[j]
    requires Placed(block, after, i) && Placed(block, after, i + 16)
    ensures PairsTo(block, after, i + 1)
  {
    hide InBlock;
    forall j: nat | j < 32 && j % 16 < i + 1 ensures Placed(block, after, j) {
      if j != i && j != i + 16 {
        assert Placed(block, before, j);
      }
    }
  }

  lemma AllPlaced(block: seq<B8>, out: seq<real>, i: nat)
    requires |block| == 18 && |out| == 32 && i == 16 && PairsTo(block, out, i)
    ensures forall j :: 0 <= j < 32 ==> out[j] == InBlock(Q4_0, block, j)
  {
    hide InBlock;
    forall j: nat | j < 32 ensures out[j] == InBlock(Q4_0, block, j) {
      assert Placed(block, out, j);
    }
  }

  method DecodeBlock(k: Kind, block: seq<B8>) returns (out: seq<real>)
    requires |block| == Bytes(k) && !k.Kernelled?
    ensures |out| == Elements(k) && forall i :: 0 <= i < |out| ==> out[i] == InBlock(k, block, i)
  {
    match k
    case Single => out := [Float(block[0], block[1], block[2], block[3])];
    case HalfFloat => out := [Half(block[0], block[1])];
    case Q4_0 => out := DecodeNibbles(block);
  }

  // ---------------------------------------------------------------- rows

  /** `byte_size` and the length check. */
  function Misfit(k: Kind, raw: seq<B8>, n: nat): Option<Error> {
    if n % Elements(k) != 0 then Some(NotWholeBlocks)
    else if |raw| != n / Elements(k) * Bytes(k) then Some(WrongLength)
    else None
  }

  /** Every number written so far is what the row says. */
  ghost predicate Filled(k: Kind, raw: seq<B8>, out: seq<real>) {
    forall j: nat :: j < |out| ==> IsNumber(k, raw, j, out[j])
  }

  /** What a decoded block is. */
  ghost predicate IsBlock(k: Kind, block: seq<B8>, out: seq<real>)
    requires |block| == Bytes(k)
  {
    |out| == Elements(k) && forall i :: 0 <= i < |out| ==> out[i] == InBlock(k, block, i)
  }

  lemma Position(e: nat, b: nat, i: nat)
    requires i < e
    ensures b * e + i >= 0 && (b * e + i) / e == b && (b * e + i) % e == i
  {
    var x := b * e + i;
    var q, r := x / e, x % e;
    assert x == e * q + r;
    SameQuotient(e, b, q, i, r);
  }

  lemma SameQuotient(e: nat, b: int, q: int, i: nat, r: nat)
    requires i < e && r < e && b * e + i == e * q + r
    ensures b == q && i == r
  {
    var d := b - q;
    assert d * e == r - i;
    assert d >= 1 ==> d * e >= e;
    assert d <= -1 ==> d * e <= -1 * e;
  }

  lemma MoreFilled(k: Kind, raw: seq<B8>, b: nat, out: seq<real>, added: seq<real>)
    requires Filled(k, raw, out) && |out| == b * Elements(k) && (b + 1) * Bytes(k) <= |raw|
    requires IsBlock(k, Piece(k, raw, b), added)
    ensures Filled(k, raw, out + added) && |out + added| == (b + 1) * Elements(k)
  {
    hide InBlock, Elements, Bytes, Piece;
    var e := Elements(k);
    Room(b, e);
    forall j: nat | j < |out + added| ensures IsNumber(k, raw, j, (out + added)[j]) {
      if j < |out| {
        assert IsNumber(k, raw, j, out[j]);
      } else {
        var i := j - |out|;
        Position(e, b, i);
        assert added[i] == InBlock(k, Piece(k, raw, b), i);
      }
    }
  }

  lemma BlocksFit(e: nat, d: nat, n: nat, b: nat)
    requires e > 0 && n % e == 0 && b < n / e
    ensures (b + 1) * d <= n / e * d
  {
  }

  lemma RowFilled(f: Format, raw: seq<B8>, n: nat, out: seq<real>)
    requires Whole(f, raw, n) && |out| == n * f.Elements() && D.Written(f, raw, n, out)
    ensures Filled(Kernelled(f), raw, out)
  {
    hide WeightIn, Weight, IsNumber, Format.Elements, Format.Bytes;
    forall j: nat | j < |out| ensures IsNumber(Kernelled(f), raw, j, out[j]) {
      NumberIs(f, raw, n, j);
      assert out[j] == Weight(f, raw, n, j);
    }
  }

  lemma NumberIs(f: Format, raw: seq<B8>, n: nat, j: nat)
    requires Whole(f, raw, n) && j < n * f.Elements()
    ensures IsNumber(Kernelled(f), raw, j, Weight(f, raw, n, j))
  {
    hide WeightIn, Format.Elements, Format.Bytes;
    Quants.InBlock(f, n, j);
    var b := j / f.Elements();
    Within(b, n, f.Bytes());
    Step(b, f.Bytes());
    assert Piece(Kernelled(f), raw, b) == Block(f, raw, b);
  }

  /** The dispatch: a row is decoded exactly if it is whole blocks of the right length, and number by number. */
  method DequantInto(k: Kind, raw: seq<B8>, n: nat) returns (r: Result<seq<real>, Error>)
    ensures Misfit(k, raw, n).Some? ==> r == Err(Misfit(k, raw, n).value)
    ensures Misfit(k, raw, n).None? ==> r.Ok? && |r.value| == n && Filled(k, raw, r.value)
  {
    hide Filled, IsBlock, Elements, Bytes;
    if n % Elements(k) != 0 {
      return Err(NotWholeBlocks);
    }
    if |raw| != n / Elements(k) * Bytes(k) {
      return Err(WrongLength);
    }
    match k
    case Kernelled(f) =>
      var out := KernelledRow(f, raw, n);
      return Ok(out);
    case _ =>
      var out := PlainRow(k, raw, n, []);
      return Ok(out);
  }

  method KernelledRow(f: Format, raw: seq<B8>, n: nat) returns (out: seq<real>)
    requires Misfit(Kernelled(f), raw, n).None?
    ensures |out| == n && Filled(Kernelled(f), raw, out)
  {
    hide Filled;
    WholeAsRow(f, raw, n);
    out := D.Dequantise(f, raw, n / f.Elements());
    RowFilled(f, raw, n / f.Elements(), out);
  }

  lemma WholeAsRow(f: Format, raw: seq<B8>, n: nat)
    requires Misfit(Kernelled(f), raw, n).None?
    ensures Whole(f, raw, n / f.Elements()) && n / f.Elements() * f.Elements() == n
  {
  }

  method PlainRow(k: Kind, raw: seq<B8>, n: nat, begun: seq<real>) returns (out: seq<real>)
    requires Misfit(k, raw, n).None? && !k.Kernelled? && begun == []
    ensures |out| == n && Filled(k, raw, out)
  {
    hide Elements, Bytes, InBlock, Piece, IsNumber;
    out := begun;
    var b := 0;
    while b < n / Elements(k)
      invariant b <= n / Elements(k) && |out| == b * Elements(k) && Filled(k, raw, out)
    {
      BlocksFit(Elements(k), Bytes(k), n, b);
      var block := DecodeBlock(k, Piece(k, raw, b));
      MoreFilled(k, raw, b, out, block);
      out := out + block;
      b := b + 1;
    }
  }
}
