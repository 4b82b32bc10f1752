/** Little-endian integers as bytes. */
module Bytes {
  import opened Utf8

  function Pow256(n: nat): (p: nat)
    ensures p >= 1
  {
    if n == 0 then 1 else 256 * Pow256(n - 1)
  }

  function Le(x: nat, width: nat): (bs: seq<Byte>)
    ensures |bs| == width
  {
    if width == 0 then [] else [x % 256] + Le(x / 256, width - 1)
  }

  function FromLe(bs: seq<Byte>): (x: nat)
    ensures x < Pow256(|bs|)
  {
    if bs == [] then 0 else bs[0] + 256 * FromLe(bs[1..])
  }

  lemma {:induction false} LeRoundTrip(x: nat, width: nat)
    requires x < Pow256(width)
    ensures FromLe(Le(x, width)) == x
  {
    if width > 0 {
      LeRoundTrip(x / 256, width - 1);
      assert Le(x, width)[1..] == Le(x / 256, width - 1);
    }
  }

  lemma {:induction false} FromLeRoundTrip(bs: seq<Byte>)
    ensures Le(FromLe(bs), |bs|) == bs
  {
    if bs != [] {
      FromLeRoundTrip(bs[1..]);
      var x := FromLe(bs[1..]);
      assert (bs[0] + 256 * x) % 256 == bs[0] && (bs[0] + 256 * x) / 256 == x;
    }
  }

  lemma Widths()
    ensures Pow256(1) == 0x100 && Pow256(2) == 0x1_0000 && Pow256(4) == 0x1_0000_0000
    ensures Pow256(8) == 0x1_0000_0000_0000_0000
  {
    assert Pow256(0) == 1 && Pow256(1) == 256 && Pow256(2) == 65536;
    assert Pow256(3) == 0x100_0000 && Pow256(4) == 0x1_0000_0000;
    assert Pow256(5) == 0x100_0000_0000 && Pow256(6) == 0x1_0000_0000_0000;
    assert Pow256(7) == 0x100_0000_0000_0000;
  }

  /** A 32-bit pattern: an `f32` as it is stored. */
  type Word = w: int | 0 <= w < 0x1_0000_0000

  function WordsToBytes(ws: seq<Word>): (bs: seq<Byte>)
    ensures |bs| == 4 * |ws|
  {
    if ws == [] then [] else Le(ws[0], 4) + WordsToBytes(ws[1..])
  }

  function BytesToWords(bs: seq<Byte>): (ws: seq<Word>)
    requires |bs| % 4 == 0
    ensures |ws| == |bs| / 4
  {
    if bs == [] then [] else
      Widths();
      [FromLe(bs[..4])] + BytesToWords(bs[4..])
  }

  lemma {:induction false} WordsRoundTrip(ws: seq<Word>)
    ensures BytesToWords(WordsToBytes(ws)) == ws
  {
    hide Le, FromLe, Pow256;
    if ws != [] {
      Widths();
      LeRoundTrip(ws[0], 4);
      WordsRoundTrip(ws[1..]);
      assert WordsToBytes(ws)[..4] == Le(ws[0], 4) && WordsToBytes(ws)[4..] == WordsToBytes(ws[1..]);
    }
  }
}
