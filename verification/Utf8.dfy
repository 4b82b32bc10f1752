/** UTF-8 (sections 3 and 4 of RFC 3629), as the tokenizers and the GGUF reader use it:
  * encoding, the strict validity check, and lossy decoding, which replaces each maximal
  * ill-formed run by one U+FFFD. */
module Utf8 {

  type Byte = b: int | 0 <= b < 256

  const REPLACEMENT: char := '\U{FFFD}'

  /** What the bytes at the front of a buffer are: a whole character of `len` bytes, or an
    * ill-formed run of `len` bytes. A sequence that the end of the buffer cuts short is ill-formed. */
  datatype Head = Good(c: char, len: nat) | Bad(len: nat)

  function EncodeChar(c: char): (r: seq<Byte>)
    ensures 1 <= |r| <= 4
  {
    var x := c as int;
    if x < 0x80 then [x]
    else if x < 0x800 then [0xC0 + x / 64, 0x80 + x % 64]
    else if x < 0x10000 then [0xE0 + x / 4096, 0x80 + x / 64 % 64, 0x80 + x % 64]
    else [0xF0 + x / 262144, 0x80 + x / 4096 % 64, 0x80 + x / 64 % 64, 0x80 + x % 64]
  }

  function Encode(s: string): (r: seq<Byte>) {
    if s == [] then [] else EncodeChar(s[0]) + Encode(s[1..])
  }

  predicate InRange(bs: seq<Byte>, i: nat, lo: int, hi: int) {
    i < |bs| && lo <= bs[i] <= hi
  }

  /** The second byte's range, which is what excludes overlong forms, surrogates and
    * values past U+10FFFF. */
  function SecondLo(b: Byte): Byte {
    if b == 0xE0 then 0xA0 else if b == 0xF0 then 0x90 else 0x80
  }

  function SecondHi(b: Byte): Byte {
    if b == 0xED then 0x9F else if b == 0xF4 then 0x8F else 0xBF
  }

  function Two(a: int, b: int): int { (a - 0xC0) * 64 + (b - 0x80) }

  function Three(a: int, b: int, c: int): int { (a - 0xE0) * 4096 + (b - 0x80) * 64 + (c - 0x80) }

  function Four(a: int, b: int, c: int, d: int): int {
    (a - 0xF0) * 262144 + (b - 0x80) * 4096 + (c - 0x80) * 64 + (d - 0x80)
  }

  function Classify(bs: seq<Byte>): (h: Head)
    requires bs != []
    ensures 1 <= h.len <= |bs|
  {
    var b := bs[0];
    if b < 0x80 then Good(b as char, 1)
    else if 0xC2 <= b <= 0xDF then
      if InRange(bs, 1, 0x80, 0xBF) then Good(Two(b, bs[1]) as char, 2) else Bad(1)
    else if 0xE0 <= b <= 0xEF then
      if !InRange(bs, 1, SecondLo(b), SecondHi(b)) then Bad(1)
      else if !InRange(bs, 2, 0x80, 0xBF) then Bad(2)
      else Good(Three(b, bs[1], bs[2]) as char, 3)
    else if 0xF0 <= b <= 0xF4 then
      if !InRange(bs, 1, SecondLo(b), SecondHi(b)) then Bad(1)
      else if !InRange(bs, 2, 0x80, 0xBF) then Bad(2)
      else if !InRange(bs, 3, 0x80, 0xBF) then Bad(3)
      else Good(Four(b, bs[1], bs[2], bs[3]) as char, 4)
    else Bad(1)
  }

  /** Lossy decoding: every ill-formed run becomes one replacement character. */
  function Lossy(bs: seq<Byte>): string
    decreases |bs|
  {
    if bs == [] then []
    else match Classify(bs)
      case Good(c, n) => [c] + Lossy(bs[n..])
      case Bad(n) => [REPLACEMENT] + Lossy(bs[n..])
  }

  /** Length of the longest well-formed prefix. */
  function ValidUpTo(bs: seq<Byte>): (n: nat)
    ensures n <= |bs|
    decreases |bs|
  {
    if bs == [] then 0
    else match Classify(bs)
      case Good(_, n) => n + ValidUpTo(bs[n..])
      case Bad(_) => 0
  }

  predicate WellFormed(bs: seq<Byte>) { ValidUpTo(bs) == |bs| }

  /** An integer is the sum of its base-64 digits. */
  lemma Digits(x: nat)
    ensures x == x / 64 * 64 + x % 64
    ensures x / 64 == x / 4096 * 64 + x / 64 % 64
    ensures x / 4096 == x / 262144 * 64 + x / 4096 % 64
  {
  }

  lemma Encoded2(c: char, rest: seq<Byte>)
    requires 0x80 <= c as int < 0x800
    ensures Classify(EncodeChar(c) + rest) == Good(c, 2)
  {
    var x := c as int;
    var bs := EncodeChar(c) + rest;
    assert bs[0] == 0xC0 + x / 64 && bs[1] == 0x80 + x % 64;
  }

  lemma Encoded3(c: char, rest: seq<Byte>)
    requires 0x800 <= c as int < 0x10000
    ensures Classify(EncodeChar(c) + rest) == Good(c, 3)
  {
    var x := c as int;
    Digits(x);
    var p, q, r := x / 4096, x / 64 % 64, x % 64;
    var bs := EncodeChar(c) + rest;
    assert bs[0] == 0xE0 + p && bs[1] == 0x80 + q && bs[2] == 0x80 + r;
    assert Three(bs[0], bs[1], bs[2]) == x;
  }

  lemma Encoded4(c: char, rest: seq<Byte>)
    requires 0x10000 <= c as int
    ensures Classify(EncodeChar(c) + rest) == Good(c, 4)
  {
    var x := c as int;
    Digits(x);
    var o, p, q, r := x / 262144, x / 4096 % 64, x / 64 % 64, x % 64;
    var bs := EncodeChar(c) + rest;
    assert bs[0] == 0xF0 + o && bs[1] == 0x80 + p && bs[2] == 0x80 + q && bs[3] == 0x80 + r;
    assert Four(bs[0], bs[1], bs[2], bs[3]) == x;
  }

  lemma ClassifyEncoded(c: char, rest: seq<Byte>)
    ensures Classify(EncodeChar(c) + rest) == Good(c, |EncodeChar(c)|)
  {
    if c as int < 0x80 {
    } else if c as int < 0x800 {
      Encoded2(c, rest);
    } else if c as int < 0x10000 {
      Encoded3(c, rest);
    } else {
      Encoded4(c, rest);
    }
  }

  /** A character's classification does not look past the character. */
  lemma ClassifyLocal(a: seq<Byte>, b: seq<Byte>)
    requires a != [] && Classify(a).Good?
    ensures Classify(a + b) == Classify(a)
  {
    var s := a + b;
    assert s[0] == a[0];
    forall i | 0 <= i < |a| ensures s[i] == a[i] {}
  }

  lemma OneMore(c: char, t: seq<Byte>)
    ensures Lossy(EncodeChar(c) + t) == [c] + Lossy(t)
    ensures ValidUpTo(EncodeChar(c) + t) == |EncodeChar(c)| + ValidUpTo(t)
  {
    var e := EncodeChar(c);
    ClassifyEncoded(c, t);
    assert (e + t)[|e|..] == t;
  }

  /** Any string survives encoding, with anything after it left to decode on its own. */
  lemma {:induction false} EncodeDecode(s: string, rest: seq<Byte>)
    ensures Lossy(Encode(s) + rest) == s + Lossy(rest)
  {
    if s == [] {
      assert Encode(s) + rest == rest;
    } else {
      EncodeDecode(s[1..], rest);
      OneMore(s[0], Encode(s[1..]) + rest);
      Regroup(EncodeChar(s[0]), Encode(s[1..]), rest);
      Regroup([s[0]], s[1..], Lossy(rest));
    }
  }

  lemma {:induction false} EncodeIsValid(s: string, rest: seq<Byte>)
    ensures ValidUpTo(Encode(s) + rest) == |Encode(s)| + ValidUpTo(rest)
  {
    if s == [] {
      assert Encode(s) + rest == rest;
    } else {
      EncodeIsValid(s[1..], rest);
      OneMore(s[0], Encode(s[1..]) + rest);
      Regroup(EncodeChar(s[0]), Encode(s[1..]), rest);
    }
  }

  lemma Regroup<T>(a: seq<T>, b: seq<T>, c: seq<T>)
    ensures (a + b) + c == a + (b + c)
  {
  }

  lemma EncodeIsWellFormed(s: string)
    ensures WellFormed(Encode(s)) && Lossy(Encode(s)) == s
  {
    EncodeDecode(s, []);
    EncodeIsValid(s, []);
    assert Encode(s) + [] == Encode(s);
    assert s + Lossy([]) == s;
  }

  lemma {:induction false} EncodeConcat(a: string, b: string)
    ensures Encode(a + b) == Encode(a) + Encode(b)
  {
    if a == [] {
      assert a + b == b;
    } else {
      assert (a + b)[1..] == a[1..] + b;
      EncodeConcat(a[1..], b);
    }
  }

  /** Decoding splits at the end of any well-formed prefix. */
  lemma {:induction false} WellFormedPrefix(a: seq<Byte>, b: seq<Byte>)
    requires WellFormed(a)
    ensures Lossy(a + b) == Lossy(a) + Lossy(b)
    ensures ValidUpTo(a + b) == |a| + ValidUpTo(b)
    decreases |a|
  {
    if a == [] {
      assert a + b == b;
    } else {
      var n := Classify(a).len;
      ClassifyLocal(a, b);
      assert (a + b)[n..] == a[n..] + b;
      WellFormedPrefix(a[n..], b);
    }
  }

  /** The prefix `ValidUpTo` measures is well formed. */
  lemma {:induction false} ValidPrefixIsWellFormed(bs: seq<Byte>)
    ensures WellFormed(bs[..ValidUpTo(bs)])
    decreases |bs|
  {
    if bs != [] && Classify(bs).Good? {
      var n := Classify(bs).len;
      var v := ValidUpTo(bs);
      ValidPrefixIsWellFormed(bs[n..]);
      var p := bs[..v];
      assert p[n..] == bs[n..][..v - n];
      ClassifyPrefix(bs, v);
    }
  }

  lemma ClassifyPrefix(bs: seq<Byte>, v: nat)
    requires bs != [] && Classify(bs).Good? && Classify(bs).len <= v <= |bs|
    ensures Classify(bs[..v]) == Classify(bs)
  {
    var p := bs[..v];
    assert p[0] == bs[0];
    forall i | 0 <= i < v ensures p[i] == bs[i] {}
  }

  /** And it is the longest that is. */
  lemma ValidIsLongest(bs: seq<Byte>, n: nat)
    requires n <= |bs| && WellFormed(bs[..n])
    ensures n <= ValidUpTo(bs)
  {
    WellFormedPrefix(bs[..n], bs[n..]);
    assert bs[..n] + bs[n..] == bs;
  }

  // ---------------------------------------------------------------- and back

  lemma Decoded2(bs: seq<Byte>)
    requires bs != [] && 0xC2 <= bs[0] <= 0xDF && Classify(bs).Good?
    ensures EncodeChar(Classify(bs).c) == bs[..2]
  {
    var b: int, q: int := bs[0] - 0xC0, bs[1] - 0x80;
    var x := b * 64 + q;
    assert Classify(bs).c as int == x;
    assert x / 64 == b && x % 64 == q;
  }

  lemma Decoded3(bs: seq<Byte>)
    requires bs != [] && 0xE0 <= bs[0] <= 0xEF && Classify(bs).Good?
    ensures EncodeChar(Classify(bs).c) == bs[..3]
  {
    var b: int, q: int, r: int := bs[0] - 0xE0, bs[1] - 0x80, bs[2] - 0x80;
    var y := b * 64 + q;
    var x := y * 64 + r;
    assert Classify(bs).c as int == x;
    assert x / 64 == y && x % 64 == r;
    assert x / 4096 == b && y / 64 == b && y % 64 == q;
  }

  lemma Decoded4(bs: seq<Byte>)
    requires bs != [] && 0xF0 <= bs[0] <= 0xF4 && Classify(bs).Good?
    ensures EncodeChar(Classify(bs).c) == bs[..4]
  {
    var b: int, p: int, q: int, r: int := bs[0] - 0xF0, bs[1] - 0x80, bs[2] - 0x80, bs[3] - 0x80;
    var z := b * 64 + p;
    var y := z * 64 + q;
    var x := y * 64 + r;
    assert Classify(bs).c as int == x;
    assert x / 64 == y && x % 64 == r && y / 64 == z && y % 64 == q && z / 64 == b && z % 64 == p;
    assert x / 4096 == z && x / 262144 == b;
  }

  /** A character read from bytes is written as those bytes. */
  lemma GoodIsEncoded(bs: seq<Byte>)
    requires bs != [] && Classify(bs).Good?
    ensures EncodeChar(Classify(bs).c) == bs[..Classify(bs).len]
  {
    if 0xC2 <= bs[0] <= 0xDF {
      Decoded2(bs);
    } else if 0xE0 <= bs[0] <= 0xEF {
      Decoded3(bs);
    } else if bs[0] >= 0xF0 {
      Decoded4(bs);
    }
  }

  /** Well-formed bytes are the encoding of the string they decode to. */
  lemma {:induction false} DecodeEncode(bs: seq<Byte>)
    requires WellFormed(bs)
    ensures Encode(Lossy(bs)) == bs
    decreases |bs|
  {
    hide Classify, EncodeChar;
    if bs != [] {
      var n := Classify(bs).len;
      GoodIsEncoded(bs);
      DecodeEncode(bs[n..]);
      assert bs == bs[..n] + bs[n..];
      assert Lossy(bs)[1..] == Lossy(bs[n..]);
    }
  }

  // ---------------------------------------------------------------- what is replaced

  /** The first `n` bytes could begin a character that goes on. */
  ghost predicate Begins(bs: seq<Byte>, n: nat) {
    exists c: char :: BeginsLike(bs, n, c)
  }

  predicate BeginsLike(bs: seq<Byte>, n: nat, c: char) {
    n <= |bs| && n < |EncodeChar(c)| && EncodeChar(c)[..n] == bs[..n]
  }

  /** As much of an ill-formed front as could have begun a character, or else its first byte. */
  ghost predicate MaximalSubpart(bs: seq<Byte>, n: nat) {
    1 <= n <= |bs| && (n == 1 || Begins(bs, n)) && forall m: nat :: n < m <= |bs| ==> !Begins(bs, m)
  }

  /** Character by character, and one U+FFFD for each maximal part of what is none. */
  ghost predicate Decodes(bs: seq<Byte>, s: string)
    decreases |bs|
  {
    if bs == [] || s == [] then bs == [] && s == []
    else if exists c: char :: EncodeChar(c) <= bs then EncodeChar(s[0]) <= bs && Decodes(bs[|EncodeChar(s[0])|..], s[1..])
    else s[0] == '\U{FFFD}' && exists n: nat :: 1 <= n <= |bs| && MaximalSubpart(bs, n) && Decodes(bs[n..], s[1..])
  }

  lemma NoneBegins(bs: seq<Byte>, m: nat)
    requires bs != [] && Classify(bs).Bad? && Classify(bs).len < m <= |bs|
    ensures !Begins(bs, m)
  {
    forall c: char ensures !BeginsLike(bs, m, c) {
      var e := EncodeChar(c);
      if BeginsLike(bs, m, c) {
        ClassifyEncoded(c, []);
        assert e + [] == e;
        SameFront(e, bs, m);
      }
    }
  }

  lemma SameFront(e: seq<Byte>, bs: seq<Byte>, m: nat)
    requires bs != [] && e != [] && Classify(e).Good? && Classify(e).len == |e| && m <= |bs| && m < |e| && e[..m] == bs[..m]
    ensures Classify(bs).Good? || Classify(bs).len >= m
  {
    assert forall i :: 0 <= i < m ==> e[i] == e[..m][i] == bs[i];
    if m > 0 {
      assert e[0] == bs[0];
    }
  }

  lemma NoneWhole(bs: seq<Byte>, c: char)
    requires bs != [] && Classify(bs).Bad?
    ensures !(EncodeChar(c) <= bs)
  {
    var n := |EncodeChar(c)|;
    if n <= |bs| {
      ClassifyEncoded(c, bs[n..]);
      assert bs[..n] + bs[n..] == bs;
    }
  }

  /** What could begin a character of three or four bytes does begin one. */
  lemma ThreeBegin(bs: seq<Byte>)
    requires |bs| >= 2 && 0xE0 <= bs[0] <= 0xEF && SecondLo(bs[0]) <= bs[1] <= SecondHi(bs[0])
    ensures Begins(bs, 2)
  {
    var whole := [bs[0], bs[1], 0x80];
    assert Classify(whole) == Good(Three(bs[0], bs[1], 0x80) as char, 3);
    GoodIsEncoded(whole);
    assert BeginsLike(bs, 2, Classify(whole).c);
  }

  lemma FourBegin(bs: seq<Byte>)
    requires |bs| >= 2 && 0xF0 <= bs[0] <= 0xF4 && SecondLo(bs[0]) <= bs[1] <= SecondHi(bs[0])
    ensures Begins(bs, 2) && (InRange(bs, 2, 0x80, 0xBF) ==> Begins(bs, 3))
  {
    var third := if InRange(bs, 2, 0x80, 0xBF) then bs[2] else 0x80;
    var whole := [bs[0], bs[1], third, 0x80];
    assert Classify(whole) == Good(Four(bs[0], bs[1], third, 0x80) as char, 4);
    GoodIsEncoded(whole);
    assert BeginsLike(bs, 2, Classify(whole).c);
    assert InRange(bs, 2, 0x80, 0xBF) ==> BeginsLike(bs, 3, Classify(whole).c);
  }

  lemma BadIsMaximal(bs: seq<Byte>)
    requires bs != [] && Classify(bs).Bad?
    ensures MaximalSubpart(bs, Classify(bs).len)
  {
    var n := Classify(bs).len;
    forall m: nat | n < m <= |bs| ensures !Begins(bs, m) {
      NoneBegins(bs, m);
    }
    if n > 1 {
      if bs[0] <= 0xEF {
        ThreeBegin(bs);
      } else {
        FourBegin(bs);
      }
    }
  }

  /** Lossy decoding is exactly that, on any bytes. */
  lemma {:induction false} LossyDecodes(bs: seq<Byte>)
    ensures Decodes(bs, Lossy(bs))
    decreases |bs|
  {
    hide Classify, EncodeChar, MaximalSubpart;
    if bs != [] {
      var h := Classify(bs);
      LossyDecodes(bs[h.len..]);
      assert Lossy(bs)[1..] == Lossy(bs[h.len..]);
      if h.Good? {
        GoodIsEncoded(bs);
        assert EncodeChar(h.c) <= bs && |EncodeChar(h.c)| == h.len;
        assert exists c: char :: EncodeChar(c) <= bs;
      } else {
        forall c: char ensures !(EncodeChar(c) <= bs) {
          NoneWhole(bs, c);
        }
        BadIsMaximal(bs);
      }
    }
  }

  /** And bytes decode to one string only. */
  lemma {:induction false} DecodesOnce(bs: seq<Byte>, s: string, t: string)
    requires Decodes(bs, s) && Decodes(bs, t)
    ensures s == t
    decreases |bs|
  {
    hide Classify, EncodeChar, MaximalSubpart;
    if bs != [] && s != [] {
      if exists c: char :: EncodeChar(c) <= bs {
        OneCharacter(bs, s[0], t[0]);
        DecodesOnce(bs[|EncodeChar(s[0])|..], s[1..], t[1..]);
      } else {
        var n: nat :| 1 <= n <= |bs| && MaximalSubpart(bs, n) && Decodes(bs[n..], s[1..]);
        var m: nat :| 1 <= m <= |bs| && MaximalSubpart(bs, m) && Decodes(bs[m..], t[1..]);
        OneSubpart(bs, n, m);
        DecodesOnce(bs[n..], s[1..], t[1..]);
      }
      assert s == [s[0]] + s[1..] && t == [t[0]] + t[1..];
    }
  }

  lemma OneCharacter(bs: seq<Byte>, c: char, d: char)
    requires EncodeChar(c) <= bs && EncodeChar(d) <= bs
    ensures c == d
  {
    ClassifyEncoded(c, bs[|EncodeChar(c)|..]);
    ClassifyEncoded(d, bs[|EncodeChar(d)|..]);
    assert EncodeChar(c) + bs[|EncodeChar(c)|..] == bs == EncodeChar(d) + bs[|EncodeChar(d)|..];
  }

  lemma OneSubpart(bs: seq<Byte>, n: nat, m: nat)
    requires MaximalSubpart(bs, n) && MaximalSubpart(bs, m)
    ensures n == m
  {
    hide Begins;
  }
}
