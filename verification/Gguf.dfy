/** The GGUF container: what a reader makes of any bytes, and that it inverts writing. Bounds checks and
  * count guards refuse no honest file. */
module Ggufs {
  import opened Basics
  import opened Utf8
  import opened Bytes

  // ---------------------------------------------------------------- values

  datatype Kind = U8 | I8 | U16 | I16 | U32 | I32 | F32 | U64 | I64 | F64

  /** A metadata value. A float is its bit pattern, and an array remembers the element type it declares. */
  datatype Value = Number(kind: Kind, n: int) | Bool(b: bool) | Str(s: string) | Array(elem: nat, items: seq<Value>)

  datatype Error = Truncated | Overruns | NotUtf8 | TooDeep | UnknownType | BadMagic | BadVersion | TooMany | TooManyDims | BadAlignment

  const DEPTH: nat := 8
  const BOOL: nat := 7
  const STRING: nat := 8
  const ARRAY: nat := 9

  function IdOf(k: Kind): nat {
    match k
    case U8 => 0 case I8 => 1 case U16 => 2 case I16 => 3 case U32 => 4 case I32 => 5 case F32 => 6
    case U64 => 10 case I64 => 11 case F64 => 12
  }

  function KindOf(id: nat): Option<Kind> {
    if id == 0 then Some(U8) else if id == 1 then Some(I8)
    else if id == 2 then Some(U16) else if id == 3 then Some(I16)
    else if id == 4 then Some(U32) else if id == 5 then Some(I32) else if id == 6 then Some(F32)
    else if id == 10 then Some(U64) else if id == 11 then Some(I64) else if id == 12 then Some(F64)
    else None
  }

  function Width(k: Kind): nat {
    match k
    case U8 => 1 case I8 => 1 case U16 => 2 case I16 => 2 case U32 => 4 case I32 => 4 case F32 => 4
    case U64 => 8 case I64 => 8 case F64 => 8
  }

  predicate Signed(k: Kind) { k == I8 || k == I16 || k == I32 || k == I64 }

  /** A cast of `width` unsigned bytes to a kind: two's complement. */
  function Cast(k: Kind, x: nat): int {
    if Signed(k) && 2 * x >= Pow256(Width(k)) then x - Pow256(Width(k)) else x
  }

  predicate Fits(k: Kind, n: int) {
    if Signed(k) then 0 <= 2 * n + Pow256(Width(k)) < 2 * Pow256(Width(k)) else 0 <= n < Pow256(Width(k))
  }

  /** The unsigned pattern of a number. */
  function Pattern(k: Kind, n: int): nat
    requires Fits(k, n)
  {
    if n < 0 then n + Pow256(Width(k)) else n
  }

  lemma CastPattern(k: Kind, n: int)
    requires Fits(k, n)
    ensures Pattern(k, n) < Pow256(Width(k)) && Cast(k, Pattern(k, n)) == n
  {
  }

  /** The wire's type numbers: which are numbers, how wide, which are signed and which are floats. */
  lemma KindsAre(id: nat)
    ensures KindOf(id).Some? <==> id <= 6 || 10 <= id <= 12
    ensures KindOf(id).Some? ==>
      var k := KindOf(id).value;
      && IdOf(k) == id && (Signed(k) <==> id in {1, 3, 5, 11}) && (k == F32 <==> id == 6) && (k == F64 <==> id == 12)
      && Width(k) == if id <= 1 then 1 else if id <= 3 then 2 else if id <= 6 then 4 else 8
    ensures BOOL == 7 && STRING == 8 && ARRAY == 9 && DEPTH == 8
  {
  }

  /** Integers are stored with the lowest byte first. */
  lemma LowestFirst(x: nat, width: nat)
    requires width > 0
    ensures Le(x, width)[0] == x % 256 && Le(x, width)[1..] == Le(x / 256, width - 1)
  {
  }

  function AsU64(v: Value): Option<nat> {
    if v.Number? && v.kind != F32 && v.kind != F64 && v.n >= 0 then Some(v.n) else None
  }

  function TypeId(v: Value): nat {
    match v
    case Number(k, _) => IdOf(k)
    case Bool(_) => BOOL
    case Str(_) => STRING
    case Array(_, _) => ARRAY
  }

  /** What a writer can write: numbers in range, and items of the declared type. */
  predicate Writable(v: Value) {
    match v
    case Number(k, n) => Fits(k, n)
    case Bool(_) => true
    case Str(s) => |Encode(s)| < Pow256(8)
    case Array(elem, items) =>
      elem < Pow256(4) && |items| < Pow256(8) &&
      forall i :: 0 <= i < |items| ==> Writable(items[i]) && TypeId(items[i]) == elem
  }

  /** Every value in it is at most `d` arrays deep. */
  predicate Within(v: Value, d: int) {
    d >= 0 && (v.Array? ==> forall i :: 0 <= i < |v.items| ==> Within(v.items[i], d - 1))
  }

  // ---------------------------------------------------------------- writing

  function StringBytes(s: string): seq<Byte> { Le(|Encode(s)|, 8) + Encode(s) }

  function ValueBytes(v: Value): seq<Byte>
    requires Writable(v)
    decreases v, 1, 0
  {
    match v
    case Number(k, n) => Le(Pattern(k, n), Width(k))
    case Bool(b) => [if b then 1 else 0]
    case Str(s) => StringBytes(s)
    case Array(elem, items) => Le(elem, 4) + (Le(|items|, 8) + ItemBytes(v, 0))
  }

  function ItemBytes(v: Value, i: nat): seq<Byte>
    requires v.Array? && Writable(v) && i <= |v.items|
    decreases v, 0, |v.items| - i
  {
    if i == |v.items| then [] else ValueBytes(v.items[i]) + ItemBytes(v, i + 1)
  }

  // ---------------------------------------------------------------- reading

  datatype Read<+T> = Got(value: T, pos: nat) | Failed(error: Error)

  function ReadLe(buf: seq<Byte>, pos: nat, width: nat): (r: Read<nat>)
    ensures r.Got? ==> r.pos == pos + width <= |buf|
  {
    if pos + width <= |buf| then Got(FromLe(buf[pos..pos + width]), pos + width) else Failed(Truncated)
  }

  function ReadString(buf: seq<Byte>, pos: nat): (r: Read<string>)
    ensures r.Got? ==> pos + 8 <= r.pos <= |buf|
  {
    match ReadLe(buf, pos, 8)
    case Failed(e) => Failed(e)
    case Got(len, p) =>
      if len > |buf| - p then Failed(Overruns)
      else if !WellFormed(buf[p..p + len]) then Failed(NotUtf8)
      else Got(Lossy(buf[p..p + len]), p + len)
  }

  /** The fewest bytes a value of a type can take. */
  function MinBytes(id: nat): (n: nat)
    ensures n >= 1
  {
    if id == 0 || id == 1 || id == 7 then 1
    else if id == 2 || id == 3 then 2
    else if 4 <= id <= 6 then 4
    else if id == 8 then 8
    else if id == 9 then 12
    else if 10 <= id <= 12 then 8
    else 1
  }

  /** More entries than the bytes left could hold. */
  predicate Lies(buf: seq<Byte>, pos: nat, n: nat, least: nat)
    requires pos <= |buf| && least > 0
  {
    n > (|buf| - pos) / least
  }

  function ReadValue(buf: seq<Byte>, pos: nat, id: nat, depth: nat): (r: Read<Value>)
    requires pos <= |buf| && depth <= DEPTH + 1
    ensures r.Got? ==> r.pos <= |buf|
    decreases DEPTH + 1 - depth, 0, 0
  {
    if depth > DEPTH then Failed(TooDeep)
    else if KindOf(id).Some? then
      match ReadLe(buf, pos, Width(KindOf(id).value)) {
        case Got(x, p) => Got(Number(KindOf(id).value, Cast(KindOf(id).value, x)), p)
        case Failed(e) => Failed(e)
      }
    else if id == BOOL then
      match ReadLe(buf, pos, 1) {
        case Got(x, p) => Got(Bool(x != 0), p)
        case Failed(e) => Failed(e)
      }
    else if id == STRING then
      match ReadString(buf, pos) {
        case Got(s, p) => Got(Str(s), p)
        case Failed(e) => Failed(e)
      }
    else if id == ARRAY then ReadArray(buf, pos, depth)
    else Failed(UnknownType)
  }

  function ReadArray(buf: seq<Byte>, pos: nat, depth: nat): (r: Read<Value>)
    requires pos <= |buf| && depth <= DEPTH
    ensures r.Got? ==> r.pos <= |buf|
    decreases DEPTH - depth, 2, 0
  {
    match ReadLe(buf, pos, 4)
    case Failed(e) => Failed(e)
    case Got(elem, p) => match ReadLe(buf, p, 8)
    case Failed(e) => Failed(e)
    case Got(n, q) =>
      if Lies(buf, q, n, MinBytes(elem)) then Failed(Overruns)
      else match ReadItems(buf, q, elem, n, depth + 1)
        case Got(items, end) => Got(Array(elem, items), end)
        case Failed(e) => Failed(e)
  }

  function ReadItems(buf: seq<Byte>, pos: nat, elem: nat, n: nat, depth: nat): (r: Read<seq<Value>>)
    requires pos <= |buf| && depth <= DEPTH + 1
    ensures r.Got? ==> r.pos <= |buf| && |r.value| == n
    decreases DEPTH + 1 - depth, 1, n
  {
    if n == 0 then Got([], pos)
    else match ReadValue(buf, pos, elem, depth)
      case Failed(e) => Failed(e)
      case Got(v, p) => Prepend([v], ReadItems(buf, p, elem, n - 1, depth))
  }

  function Prepend<T>(front: seq<T>, r: Read<seq<T>>): (q: Read<seq<T>>)
    ensures q.Got? ==> r.Got? && q.pos == r.pos && q.value == front + r.value
  {
    match r
    case Got(back, p) => Got(front + back, p)
    case Failed(e) => Failed(e)
  }

  // ---------------------------------------------------------------- reading what was written

  /** The buffer has these bytes there. */
  predicate Holds(buf: seq<Byte>, pos: nat, bytes: seq<Byte>) {
    pos + |bytes| <= |buf| && buf[pos..pos + |bytes|] == bytes
  }

  lemma HoldsParts(buf: seq<Byte>, pos: nat, a: seq<Byte>, b: seq<Byte>)
    requires Holds(buf, pos, a + b)
    ensures Holds(buf, pos, a) && Holds(buf, pos + |a|, b)
  {
    var all := buf[pos..pos + |a + b|];
    assert all[..|a|] == a && all[|a|..] == b;
  }

  /** The buffer spells a value there: as a writer writes it, except that any byte but zero stands for
    * true. */
  predicate Spells(buf: seq<Byte>, pos: nat, v: Value)
    requires Writable(v)
    decreases v, 1, 0
  {
    match v
    case Number(k, n) => Holds(buf, pos, Le(Pattern(k, n), Width(k)))
    case Bool(b) => pos < |buf| && (buf[pos] != 0) == b
    case Str(s) => Holds(buf, pos, StringBytes(s))
    case Array(elem, items) =>
      Holds(buf, pos, Le(elem, 4)) && Holds(buf, pos + 4, Le(|items|, 8)) && SpellsItems(buf, pos + 12, v, 0)
  }

  predicate SpellsItems(buf: seq<Byte>, pos: nat, v: Value, i: nat)
    requires v.Array? && Writable(v) && i <= |v.items|
    decreases v, 0, |v.items| - i
  {
    if i == |v.items| then pos <= |buf|
    else Spells(buf, pos, v.items[i]) && SpellsItems(buf, pos + |ValueBytes(v.items[i])|, v, i + 1)
  }

  lemma {:induction false} SpellsInside(buf: seq<Byte>, pos: nat, v: Value)
    requires Writable(v) && Spells(buf, pos, v)
    ensures pos + |ValueBytes(v)| <= |buf|
    decreases v, 1, 0
  {
    hide Le, Encode;
    if v.Array? {
      ItemsInside(buf, pos + 12, v, 0);
    }
  }

  lemma {:induction false} ItemsInside(buf: seq<Byte>, pos: nat, v: Value, i: nat)
    requires v.Array? && Writable(v) && i <= |v.items| && SpellsItems(buf, pos, v, i)
    ensures pos + |ItemBytes(v, i)| <= |buf|
    decreases v, 0, |v.items| - i
  {
    hide ValueBytes, Spells;
    if i < |v.items| {
      ItemsInside(buf, pos + |ValueBytes(v.items[i])|, v, i + 1);
    }
  }

  /** What a writer writes is a spelling. */
  lemma {:induction false} WrittenSpells(buf: seq<Byte>, pos: nat, v: Value)
    requires Writable(v) && Holds(buf, pos, ValueBytes(v))
    ensures Spells(buf, pos, v)
    decreases v, 1, 0
  {
    hide Le, Encode;
    match v
    case Number(_, _) =>
    case Bool(_) => assert buf[pos] == buf[pos..pos + 1][0];
    case Str(_) =>
    case Array(elem, items) =>
      HoldsParts(buf, pos, Le(elem, 4), Le(|items|, 8) + ItemBytes(v, 0));
      HoldsParts(buf, pos + 4, Le(|items|, 8), ItemBytes(v, 0));
      WrittenItems(buf, pos + 12, v, 0);
  }

  lemma {:induction false} WrittenItems(buf: seq<Byte>, pos: nat, v: Value, i: nat)
    requires v.Array? && Writable(v) && i <= |v.items| && Holds(buf, pos, ItemBytes(v, i))
    ensures SpellsItems(buf, pos, v, i)
    decreases v, 0, |v.items| - i
  {
    hide ValueBytes, Spells;
    if i < |v.items| {
      HoldsParts(buf, pos, ValueBytes(v.items[i]), ItemBytes(v, i + 1));
      WrittenSpells(buf, pos, v.items[i]);
      WrittenItems(buf, pos + |ValueBytes(v.items[i])|, v, i + 1);
    }
  }

  lemma HoldsFront(bytes: seq<Byte>, rest: seq<Byte>)
    ensures Holds(bytes + rest, 0, bytes)
  {
  }

  lemma ItemWritable(v: Value, i: nat)
    requires v.Array? && Writable(v) && i < |v.items|
    ensures Writable(v.items[i]) && TypeId(v.items[i]) == v.elem
  {
  }

  lemma ReadLeBack(buf: seq<Byte>, pos: nat, x: nat, width: nat)
    requires Holds(buf, pos, Le(x, width)) && x < Pow256(width)
    ensures ReadLe(buf, pos, width) == Got(x, pos + width)
  {
    LeRoundTrip(x, width);
  }

  lemma ReadStringBack(buf: seq<Byte>, pos: nat, s: string)
    requires Holds(buf, pos, StringBytes(s)) && |Encode(s)| < Pow256(8)
    ensures ReadString(buf, pos) == Got(s, pos + |StringBytes(s)|)
  {
    hide WellFormed, Lossy, Encode, ReadLe;
    HoldsParts(buf, pos, Le(|Encode(s)|, 8), Encode(s));
    ReadLeBack(buf, pos, |Encode(s)|, 8);
    EncodeIsWellFormed(s);
  }

  lemma BytesAtLeast(v: Value)
    requires Writable(v)
    ensures |ValueBytes(v)| >= MinBytes(TypeId(v))
  {
    hide Le, Encode;
  }

  lemma {:induction false} ItemsAtLeast(v: Value, i: nat)
    requires v.Array? && Writable(v) && i <= |v.items|
    ensures |ItemBytes(v, i)| >= MinBytes(v.elem) * (|v.items| - i)
    decreases |v.items| - i
  {
    hide ValueBytes, MinBytes;
    if i < |v.items| {
      BytesAtLeast(v.items[i]);
      ItemsAtLeast(v, i + 1);
      Distribute(MinBytes(v.elem), |v.items| - i);
    }
  }

  lemma Distribute(m: nat, n: nat)
    requires n > 0
    ensures m * n == m + m * (n - 1)
  {
  }

  /** A count is called a lie exactly if the bytes left cannot hold as many of the shortest entries. */
  lemma HonestCount(buf: seq<Byte>, pos: nat, n: nat, least: nat)
    requires pos <= |buf| && least > 0
    ensures Lies(buf, pos, n, least) <==> least * n > |buf| - pos
  {
    var x := |buf| - pos;
    if least * n <= x {
      AtMostTheQuotient(least, n, x);
    } else if n <= x / least {
      Divided(x, least);
      Distribute(least, n);
      Reaches(least, n, x / least);
    }
  }

  lemma {:induction false} Reaches(d: nat, a: nat, b: nat)
    requires a <= b
    ensures d * a <= d * b
    decreases b
  {
    if a < b {
      Reaches(d, a, b - 1);
    }
  }

  /** No type's least size is set too high or too low: some value of the type takes just that. */
  lemma LeastIsTaken(id: nat) returns (v: Value)
    requires KindOf(id).Some? || id == BOOL || id == STRING || id == ARRAY
    ensures Writable(v) && TypeId(v) == id && |ValueBytes(v)| == MinBytes(id)
  {
    if KindOf(id).Some? {
      v := Number(KindOf(id).value, 0);
      assert Pow256(Width(v.kind)) >= 1;
    } else if id == BOOL {
      v := Bool(false);
    } else if id == STRING {
      v := Str("");
      Widths();
      assert Encode("") == [];
    } else {
      v := Array(0, []);
      Widths();
      assert ItemBytes(v, 0) == [];
    }
  }

  lemma AtMostTheQuotient(d: nat, n: nat, x: nat)
    requires d > 0 && d * n <= x
    ensures n <= x / d
  {
    var q := x / d;
    Divided(x, d);
    Distribute(d, q + 1);
    if n > q {
      Grows(d, q + 1, n);
    }
  }

  lemma Divided(x: nat, d: nat)
    requires d > 0
    ensures x < d * (x / d) + d
  {
  }

  lemma {:induction false} Grows(d: nat, a: nat, b: nat)
    requires a <= b
    ensures d * a <= d * b
    decreases b
  {
    if a < b {
      Grows(d, a, b - 1);
      Distribute(d, b);
    }
  }

  /** At any depth, a spelled value is read back, and it is refused exactly if it nests too deeply. */
  lemma {:induction false} ReadValueBack(buf: seq<Byte>, pos: nat, v: Value, depth: nat)
    requires Writable(v) && depth <= DEPTH + 1 && pos <= |buf| && Spells(buf, pos, v)
    ensures Within(v, DEPTH - depth) ==> ReadValue(buf, pos, TypeId(v), depth) == Got(v, pos + |ValueBytes(v)|)
    ensures !Within(v, DEPTH - depth) ==> ReadValue(buf, pos, TypeId(v), depth) == Failed(TooDeep)
    decreases v, 1, 0
  {
    if depth <= DEPTH {
      match v {
        case Number(_, _) =>
          ReadNumberBack(buf, pos, v, depth);
        case Bool(_) =>
          ReadBoolBack(buf, pos, v, depth);
        case Str(s) =>
          hide ReadString, Encode, StringBytes, Holds;
          ReadStringBack(buf, pos, s);
        case Array(_, _) =>
          hide ReadArray, ValueBytes, Spells, Within;
          ReadArrayBack(buf, pos, v, depth);
      }
    }
  }

  lemma ReadNumberBack(buf: seq<Byte>, pos: nat, v: Value, depth: nat)
    requires v.Number? && Writable(v) && depth <= DEPTH && pos <= |buf| && Spells(buf, pos, v)
    ensures ReadValue(buf, pos, TypeId(v), depth) == Got(v, pos + |ValueBytes(v)|)
  {
    hide Le, ReadLe, Holds, Pow256, Cast, Pattern, Fits;
    CastPattern(v.kind, v.n);
    ReadLeBack(buf, pos, Pattern(v.kind, v.n), Width(v.kind));
  }

  lemma ReadBoolBack(buf: seq<Byte>, pos: nat, v: Value, depth: nat)
    requires v.Bool? && depth <= DEPTH && pos <= |buf| && Spells(buf, pos, v)
    ensures ReadValue(buf, pos, TypeId(v), depth) == Got(v, pos + |ValueBytes(v)|)
  {
    OneByte(buf, pos);
  }

  lemma OneByte(buf: seq<Byte>, pos: nat)
    requires pos < |buf|
    ensures ReadLe(buf, pos, 1) == Got(buf[pos], pos + 1)
  {
    var b := buf[pos..pos + 1];
    assert b[1..] == [] && FromLe([]) == 0;
  }

  lemma {:induction false} ReadArrayBack(buf: seq<Byte>, pos: nat, v: Value, depth: nat)
    requires v.Array? && Writable(v) && depth <= DEPTH && pos <= |buf| && Spells(buf, pos, v)
    ensures Within(v, DEPTH - depth) ==> ReadArray(buf, pos, depth) == Got(v, pos + |ValueBytes(v)|)
    ensures !Within(v, DEPTH - depth) ==> ReadArray(buf, pos, depth) == Failed(TooDeep)
    decreases v, 0, |v.items| + 1
  {
    hide Le, ReadLe, ReadItems, ItemBytes, Holds, Lies, SpellsItems;
    ReadLeBack(buf, pos, v.elem, 4);
    ReadLeBack(buf, pos + 4, |v.items|, 8);
    ItemsAtLeast(v, 0);
    var q := pos + 12;
    ItemsInside(buf, q, v, 0);
    HonestCount(buf, q, |v.items|, MinBytes(v.elem));
    ReadItemsBack(buf, q, v, 0, depth + 1);
    assert v.items[0..] == v.items;
  }

  lemma {:induction false} ReadItemsBack(buf: seq<Byte>, pos: nat, v: Value, i: nat, depth: nat)
    requires v.Array? && Writable(v) && i <= |v.items| && depth <= DEPTH + 1 && pos <= |buf|
    requires SpellsItems(buf, pos, v, i)
    ensures ItemsRead(buf, pos, v, i, depth)
    decreases v, 0, |v.items| - i
  {
    hide ValueBytes, ReadValue, Within, AllWithin, Spells, Writable;
    if i < |v.items| {
      var item := v.items[i];
      ItemWritable(v, i);
      ReadValueBack(buf, pos, item, depth);
      var p := pos + |ValueBytes(item)|;
      SpellsInside(buf, pos, item);
      ReadItemsBack(buf, p, v, i + 1, depth);
      OneItem(buf, pos, v, i, depth);
    } else {
      NoItem(buf, pos, v, depth);
    }
  }

  lemma NoItem(buf: seq<Byte>, pos: nat, v: Value, depth: nat)
    requires v.Array? && Writable(v) && depth <= DEPTH + 1 && pos <= |buf|
    ensures ItemsRead(buf, pos, v, |v.items|, depth)
  {
    hide ReadValue, Within, Writable;
    assert AllWithin(v, |v.items|, DEPTH - depth);
    assert v.items[|v.items|..] == [];
  }

  /** The items from `i` on are read back, or refused because one of them nests too deeply. */
  ghost predicate ItemsRead(buf: seq<Byte>, pos: nat, v: Value, i: nat, depth: nat)
    requires v.Array? && Writable(v) && i <= |v.items| && depth <= DEPTH + 1 && pos <= |buf|
  {
    ReadItems(buf, pos, v.elem, |v.items| - i, depth) ==
    if AllWithin(v, i, DEPTH - depth) then Got(v.items[i..], pos + |ItemBytes(v, i)|) else Failed(TooDeep)
  }

  lemma OneItem(buf: seq<Byte>, pos: nat, v: Value, i: nat, depth: nat)
    requires v.Array? && Writable(v) && i < |v.items| && depth <= DEPTH + 1
    requires pos + |ValueBytes(v.items[i])| <= |buf|
    requires ItemsRead(buf, pos + |ValueBytes(v.items[i])|, v, i + 1, depth)
    requires ReadValue(buf, pos, v.elem, depth) ==
      if Within(v.items[i], DEPTH - depth) then Got(v.items[i], pos + |ValueBytes(v.items[i])|) else Failed(TooDeep)
    ensures ItemsRead(buf, pos, v, i, depth)
  {
    hide ValueBytes, ReadValue, Within, AllWithin, Writable;
    FirstWithin(v, i, DEPTH - depth);
    assert v.items[i..] == [v.items[i]] + v.items[i + 1..];
    assert |v.items| - i - 1 == |v.items| - (i + 1);
  }

  lemma FirstWithin(v: Value, i: nat, d: int)
    requires v.Array? && i < |v.items|
    ensures AllWithin(v, i, d) <==> Within(v.items[i], d) && AllWithin(v, i + 1, d)
  {
    hide Within;
    if Within(v.items[i], d) && AllWithin(v, i + 1, d) {
      forall j | i <= j < |v.items| ensures Within(v.items[j], d) {}
    }
  }

  predicate AllWithin(v: Value, from: nat, d: int)
    requires v.Array?
  {
    forall i :: from <= i < |v.items| ==> Within(v.items[i], d)
  }

  // ---------------------------------------------------------------- the header

  datatype Entry = Entry(key: string, value: Value)

  datatype Tensor = Tensor(name: string, dims: seq<nat>, ggmlType: nat, offset: nat)

  datatype Header = Header(version: nat, entries: seq<Entry>, tensors: seq<Tensor>)

  datatype Gguf = Gguf(version: nat, metadata: map<string, Value>, tensors: seq<Tensor>, dataOffset: nat)

  const MAGIC: seq<Byte> := [0x47, 0x47, 0x55, 0x46]
  const MIN_TENSOR_BYTES: nat := 24
  const MIN_KV_BYTES: nat := 13
  const MAX_DIMS: nat := 4

  predicate EntryWritable(e: Entry) { |Encode(e.key)| < Pow256(8) && Writable(e.value) }

  predicate TensorWritable(t: Tensor) {
    && |Encode(t.name)| < Pow256(8) && |t.dims| < Pow256(4)
    && t.ggmlType < Pow256(4) && t.offset < Pow256(8)
    && forall i :: 0 <= i < |t.dims| ==> t.dims[i] < Pow256(8)
  }

  predicate HeaderWritable(h: Header) {
    && h.version < Pow256(4) && |h.entries| < Pow256(8) && |h.tensors| < Pow256(8)
    && (forall i :: 0 <= i < |h.entries| ==> EntryWritable(h.entries[i]))
    && forall i :: 0 <= i < |h.tensors| ==> TensorWritable(h.tensors[i])
  }

  function EntryBytes(e: Entry): seq<Byte>
    requires EntryWritable(e)
  {
    StringBytes(e.key) + (Le(TypeId(e.value), 4) + ValueBytes(e.value))
  }

  function DimBytes(dims: seq<nat>, i: nat): seq<Byte>
    requires i <= |dims|
    decreases |dims| - i
  {
    if i == |dims| then [] else Le(dims[i], 8) + DimBytes(dims, i + 1)
  }

  function TensorBytes(t: Tensor): seq<Byte> {
    StringBytes(t.name) + (Le(|t.dims|, 4) + (DimBytes(t.dims, 0) + (Le(t.ggmlType, 4) + Le(t.offset, 8))))
  }

  function EntriesBytes(h: Header, i: nat): seq<Byte>
    requires HeaderWritable(h) && i <= |h.entries|
    decreases |h.entries| - i
  {
    if i == |h.entries| then [] else EntryBytes(h.entries[i]) + EntriesBytes(h, i + 1)
  }

  function TensorsBytes(h: Header, i: nat): seq<Byte>
    requires i <= |h.tensors|
    decreases |h.tensors| - i
  {
    if i == |h.tensors| then [] else TensorBytes(h.tensors[i]) + TensorsBytes(h, i + 1)
  }

  function HeaderBytes(h: Header): seq<Byte>
    requires HeaderWritable(h)
  {
    MAGIC + (Le(h.version, 4) + (Le(|h.tensors|, 8) + (Le(|h.entries|, 8) + (EntriesBytes(h, 0) + TensorsBytes(h, 0)))))
  }

  function ReadEntry(buf: seq<Byte>, pos: nat): (r: Read<Entry>)
    requires pos <= |buf|
    ensures r.Got? ==> r.pos <= |buf|
  {
    match ReadString(buf, pos)
    case Failed(e) => Failed(e)
    case Got(key, p) => match ReadLe(buf, p, 4)
    case Failed(e) => Failed(e)
    case Got(id, q) => match ReadValue(buf, q, id, 0)
    case Failed(e) => Failed(e)
    case Got(v, end) => Got(Entry(key, v), end)
  }

  function ReadEntries(buf: seq<Byte>, pos: nat, n: nat): (r: Read<seq<Entry>>)
    requires pos <= |buf|
    ensures r.Got? ==> r.pos <= |buf| && |r.value| == n
    decreases n
  {
    if n == 0 then Got([], pos)
    else match ReadEntry(buf, pos)
      case Failed(e) => Failed(e)
      case Got(x, p) => Prepend([x], ReadEntries(buf, p, n - 1))
  }

  function ReadDims(buf: seq<Byte>, pos: nat, n: nat): (r: Read<seq<nat>>)
    requires pos <= |buf|
    ensures r.Got? ==> r.pos <= |buf| && |r.value| == n
    decreases n
  {
    if n == 0 then Got([], pos)
    else match ReadLe(buf, pos, 8)
      case Failed(e) => Failed(e)
      case Got(x, p) => Prepend([x], ReadDims(buf, p, n - 1))
  }

  function ReadTensor(buf: seq<Byte>, pos: nat): (r: Read<Tensor>)
    requires pos <= |buf|
    ensures r.Got? ==> r.pos <= |buf|
  {
    match ReadString(buf, pos)
    case Failed(e) => Failed(e)
    case Got(name, p) => match ReadLe(buf, p, 4)
    case Failed(e) => Failed(e)
    case Got(n, p) =>
      if n > MAX_DIMS then Failed(TooManyDims)
      else match ReadDims(buf, p, n)
    case Failed(e) => Failed(e)
    case Got(dims, p) => match ReadLe(buf, p, 4)
    case Failed(e) => Failed(e)
    case Got(ty, p) => match ReadLe(buf, p, 8)
    case Failed(e) => Failed(e)
    case Got(offset, end) => Got(Tensor(name, dims, ty, offset), end)
  }

  function ReadTensors(buf: seq<Byte>, pos: nat, n: nat): (r: Read<seq<Tensor>>)
    requires pos <= |buf|
    ensures r.Got? ==> r.pos <= |buf| && |r.value| == n
    decreases n
  {
    if n == 0 then Got([], pos)
    else match ReadTensor(buf, pos)
      case Failed(e) => Failed(e)
      case Got(x, p) => Prepend([x], ReadTensors(buf, p, n - 1))
  }

  // ---------------------------------------------------------------- reading a written header

  predicate Shallow(e: Entry) { Within(e.value, DEPTH) }

  predicate FewDims(t: Tensor) { |t.dims| <= MAX_DIMS }

  predicate SpellsEntry(buf: seq<Byte>, pos: nat, e: Entry)
    requires EntryWritable(e)
  {
    && Holds(buf, pos, StringBytes(e.key)) && Holds(buf, pos + |StringBytes(e.key)|, Le(TypeId(e.value), 4))
    && Spells(buf, pos + |StringBytes(e.key)| + 4, e.value)
  }

  predicate SpellsEntries(buf: seq<Byte>, pos: nat, h: Header, i: nat)
    requires HeaderWritable(h) && i <= |h.entries|
    decreases |h.entries| - i
  {
    if i == |h.entries| then pos <= |buf|
    else SpellsEntry(buf, pos, h.entries[i]) && SpellsEntries(buf, pos + |EntryBytes(h.entries[i])|, h, i + 1)
  }

  lemma EntryInside(buf: seq<Byte>, pos: nat, e: Entry)
    requires EntryWritable(e) && SpellsEntry(buf, pos, e)
    ensures pos + |EntryBytes(e)| <= |buf| && |EntryBytes(e)| >= MIN_KV_BYTES
  {
    hide Le, Encode, ValueBytes, Spells;
    SpellsInside(buf, pos + |StringBytes(e.key)| + 4, e.value);
    BytesAtLeast(e.value);
  }

  lemma {:induction false} EntriesInside(buf: seq<Byte>, pos: nat, h: Header, i: nat)
    requires HeaderWritable(h) && i <= |h.entries| && SpellsEntries(buf, pos, h, i)
    ensures pos + |EntriesBytes(h, i)| <= |buf|
    decreases |h.entries| - i
  {
    hide EntryBytes, SpellsEntry;
    if i < |h.entries| {
      EntriesInside(buf, pos + |EntryBytes(h.entries[i])|, h, i + 1);
    }
  }

  lemma WrittenEntry(buf: seq<Byte>, pos: nat, e: Entry)
    requires EntryWritable(e) && Holds(buf, pos, EntryBytes(e))
    ensures SpellsEntry(buf, pos, e)
  {
    hide Le, StringBytes, ValueBytes, Spells, Holds;
    var key, id := StringBytes(e.key), Le(TypeId(e.value), 4);
    HoldsParts(buf, pos, key, id + ValueBytes(e.value));
    HoldsParts(buf, pos + |key|, id, ValueBytes(e.value));
    WrittenSpells(buf, pos + |key| + 4, e.value);
  }

  lemma {:induction false} WrittenEntries(buf: seq<Byte>, pos: nat, h: Header, i: nat)
    requires HeaderWritable(h) && i <= |h.entries| && Holds(buf, pos, EntriesBytes(h, i))
    ensures SpellsEntries(buf, pos, h, i)
    decreases |h.entries| - i
  {
    hide EntryBytes, SpellsEntry;
    if i < |h.entries| {
      var e := h.entries[i];
      HoldsParts(buf, pos, EntryBytes(e), EntriesBytes(h, i + 1));
      WrittenEntry(buf, pos, e);
      WrittenEntries(buf, pos + |EntryBytes(e)|, h, i + 1);
    }
  }

  lemma ReadEntryBack(buf: seq<Byte>, pos: nat, e: Entry)
    requires pos <= |buf| && EntryWritable(e) && SpellsEntry(buf, pos, e)
    ensures Shallow(e) ==> ReadEntry(buf, pos) == Got(e, pos + |EntryBytes(e)|)
    ensures !Shallow(e) ==> ReadEntry(buf, pos) == Failed(TooDeep)
    ensures |EntryBytes(e)| >= MIN_KV_BYTES
  {
    hide Le, ReadLe, ReadString, Encode, ReadValue, ValueBytes, Within, Spells;
    var key := StringBytes(e.key);
    ReadStringBack(buf, pos, e.key);
    assert TypeId(e.value) < Pow256(4) by {
      Widths();
    }
    ReadLeBack(buf, pos + |key|, TypeId(e.value), 4);
    ReadValueBack(buf, pos + |key| + 4, e.value, 0);
    EntryInside(buf, pos, e);
  }

  lemma {:induction false} ReadDimsBack(buf: seq<Byte>, pos: nat, dims: seq<nat>, i: nat)
    requires pos <= |buf| && i <= |dims| && Holds(buf, pos, DimBytes(dims, i))
    requires forall j :: 0 <= j < |dims| ==> dims[j] < Pow256(8)
    ensures ReadDims(buf, pos, |dims| - i) == Got(dims[i..], pos + |DimBytes(dims, i)|)
    decreases |dims| - i
  {
    hide Le, ReadLe;
    if i < |dims| {
      HoldsParts(buf, pos, Le(dims[i], 8), DimBytes(dims, i + 1));
      ReadLeBack(buf, pos, dims[i], 8);
      ReadDimsBack(buf, pos + 8, dims, i + 1);
      assert dims[i..] == [dims[i]] + dims[i + 1..];
    } else {
      assert dims[i..] == [];
    }
  }

  lemma ReadTensorBack(buf: seq<Byte>, pos: nat, t: Tensor)
    requires pos <= |buf| && TensorWritable(t) && Holds(buf, pos, TensorBytes(t))
    ensures FewDims(t) ==> ReadTensor(buf, pos) == Got(t, pos + |TensorBytes(t)|)
    ensures !FewDims(t) ==> ReadTensor(buf, pos) == Failed(TooManyDims)
    ensures |TensorBytes(t)| >= MIN_TENSOR_BYTES
  {
    hide Le, ReadLe, ReadString, Encode, StringBytes, ReadDims, DimBytes, Holds, Pow256;
    var name, n, dims, ty, offset := StringBytes(t.name), Le(|t.dims|, 4), DimBytes(t.dims, 0), Le(t.ggmlType, 4), Le(t.offset, 8);
    NameAtLeast(t.name);
    HoldsParts(buf, pos, name, n + (dims + (ty + offset)));
    var p := pos + |name|;
    HoldsParts(buf, p, n, dims + (ty + offset));
    HoldsParts(buf, p + 4, dims, ty + offset);
    HoldsParts(buf, p + 4 + |dims|, ty, offset);
    ReadStringBack(buf, pos, t.name);
    ReadLeBack(buf, p, |t.dims|, 4);
    ReadDimsBack(buf, p + 4, t.dims, 0);
    assert t.dims[0..] == t.dims;
    ReadLeBack(buf, p + 4 + |dims|, t.ggmlType, 4);
    ReadLeBack(buf, p + 8 + |dims|, t.offset, 8);
  }

  lemma NameAtLeast(s: string)
    ensures |StringBytes(s)| >= 8
  {
  }

  predicate AllShallow(h: Header, from: nat) { forall i :: from <= i < |h.entries| ==> Shallow(h.entries[i]) }

  predicate AllFewDims(h: Header, from: nat) { forall i :: from <= i < |h.tensors| ==> FewDims(h.tensors[i]) }

  lemma {:induction false} ReadEntriesBack(buf: seq<Byte>, pos: nat, h: Header, i: nat)
    requires HeaderWritable(h) && i <= |h.entries| && pos <= |buf| && SpellsEntries(buf, pos, h, i)
    ensures ReadEntries(buf, pos, |h.entries| - i) ==
      if AllShallow(h, i) then Got(h.entries[i..], pos + |EntriesBytes(h, i)|) else Failed(TooDeep)
    ensures |EntriesBytes(h, i)| >= MIN_KV_BYTES * (|h.entries| - i)
    decreases |h.entries| - i
  {
    hide EntryBytes, ReadEntry, Shallow, EntryWritable, SpellsEntry;
    if i < |h.entries| {
      var e := h.entries[i];
      EntryInside(buf, pos, e);
      ReadEntryBack(buf, pos, e);
      ReadEntriesBack(buf, pos + |EntryBytes(e)|, h, i + 1);
      assert h.entries[i..] == [e] + h.entries[i + 1..];
      assert AllShallow(h, i) <==> Shallow(e) && AllShallow(h, i + 1);
    } else {
      assert h.entries[i..] == [];
    }
  }

  lemma {:induction false} ReadTensorsBack(buf: seq<Byte>, pos: nat, h: Header, i: nat)
    requires HeaderWritable(h) && i <= |h.tensors| && pos <= |buf| && Holds(buf, pos, TensorsBytes(h, i))
    ensures ReadTensors(buf, pos, |h.tensors| - i) ==
      if AllFewDims(h, i) then Got(h.tensors[i..], pos + |TensorsBytes(h, i)|) else Failed(TooManyDims)
    ensures |TensorsBytes(h, i)| >= MIN_TENSOR_BYTES * (|h.tensors| - i)
    decreases |h.tensors| - i
  {
    hide TensorBytes, ReadTensor, FewDims, TensorWritable;
    if i < |h.tensors| {
      var t := h.tensors[i];
      HoldsParts(buf, pos, TensorBytes(t), TensorsBytes(h, i + 1));
      ReadTensorBack(buf, pos, t);
      ReadTensorsBack(buf, pos + |TensorBytes(t)|, h, i + 1);
      assert h.tensors[i..] == [t] + h.tensors[i + 1..];
      assert AllFewDims(h, i) <==> FewDims(t) && AllFewDims(h, i + 1);
    } else {
      assert h.tensors[i..] == [];
    }
  }

  // ---------------------------------------------------------------- the whole header

  /** A later entry of the same key replaces an earlier one. */
  function Collect(entries: seq<Entry>): map<string, Value> {
    if entries == [] then map[]
    else Collect(entries[..|entries| - 1])[entries[|entries| - 1].key := entries[|entries| - 1].value]
  }

  /** Under distinct keys nothing is lost. */
  lemma {:induction false} CollectKeepsAll(entries: seq<Entry>)
    requires forall i, j :: 0 <= i < j < |entries| ==> entries[i].key != entries[j].key
    ensures forall i :: 0 <= i < |entries| ==> entries[i].key in Collect(entries) && Collect(entries)[entries[i].key] == entries[i].value
    ensures |Collect(entries)| == |entries|
  {
    if entries != [] {
      var front, last := entries[..|entries| - 1], entries[|entries| - 1];
      CollectKeepsAll(front);
      CollectOnly(front, last.key);
      assert forall i :: 0 <= i < |front| ==> entries[i] == front[i];
    }
  }

  lemma {:induction false} CollectOnly(entries: seq<Entry>, key: string)
    requires forall i :: 0 <= i < |entries| ==> entries[i].key != key
    ensures key !in Collect(entries)
  {
    if entries != [] {
      CollectOnly(entries[..|entries| - 1], key);
    }
  }

  const DEFAULT_ALIGNMENT: nat := 32

  /** The alignment the metadata asks for, if it asks with a whole number. */
  function Alignment(m: map<string, Value>): nat {
    if "general.alignment" in m && AsU64(m["general.alignment"]).Some? then AsU64(m["general.alignment"]).value
    else DEFAULT_ALIGNMENT
  }

  /** The magic is the four letters GGUF, and data that asks for nothing else begins at a multiple of 32. A whole
    * number under the right key asks for another; anything else is ignored. */
  lemma AlignmentIs(m: map<string, Value>)
    ensures MAGIC == Encode("GGUF")
    ensures
      var key := "general.alignment";
      Alignment(m) ==
        if key in m && m[key].Number? && m[key].kind in {U8, I8, U16, I16, U32, I32, U64, I64} && m[key].n >= 0 then m[key].n
        else 32
  {
    assert Encode("F") == [0x46] && Encode("UF") == [0x55, 0x46] && Encode("GUF") == [0x47, 0x55, 0x46] by {
      assert "F"[1..] == "" && "UF"[1..] == "F" && "GUF"[1..] == "UF";
    }
    assert "GGUF"[1..] == "GUF";
  }

  function Two(k: nat): nat { if k == 0 then 1 else 2 * Two(k - 1) }

  /** The alignments accepted are the powers of two. */
  lemma {:induction false} PowerIs(k: nat)
    ensures PowerOfTwo(Two(k)) && Two(k) >= 1
  {
    if k > 0 {
      PowerIs(k - 1);
    }
  }

  lemma {:induction false} IsPower(n: nat)
    requires PowerOfTwo(n)
    ensures exists k: nat :: n == Two(k)
  {
    if n == 1 {
      assert n == Two(0);
    } else {
      IsPower(n / 2);
      var k: nat :| n / 2 == Two(k);
      assert n == Two(k + 1);
    }
  }

  predicate PowerOfTwo(n: nat) { n == 1 || (n > 0 && n % 2 == 0 && PowerOfTwo(n / 2)) }

  function NextMultiple(x: nat, a: nat): nat
    requires a > 0
  {
    if x % a == 0 then x else x + a - x % a
  }

  /** The first multiple at or after `x`. */
  lemma NextMultipleIs(x: nat, a: nat)
    requires a > 0
    ensures x <= NextMultiple(x, a) < x + a
    ensures exists k: nat :: NextMultiple(x, a) == a * k
  {
    var k := x / a;
    assert x == a * k + x % a;
    assert a * (k + 1) == a * k + a;
    assert NextMultiple(x, a) == a * k || NextMultiple(x, a) == a * (k + 1);
  }

  /** `Gguf::parse`. */
  function ReadHeader(buf: seq<Byte>): Result<Gguf, Error> {
    if |buf| < 4 then Err(Truncated)
    else if buf[..4] != MAGIC then Err(BadMagic)
    else match ReadLe(buf, 4, 4)
    case Failed(e) => Err(e)
    case Got(version, p) =>
      if !(2 <= version <= 3) then Err(BadVersion)
      else match ReadLe(buf, p, 8)
    case Failed(e) => Err(e)
    case Got(tensors, p) => match ReadLe(buf, p, 8)
    case Failed(e) => Err(e)
    case Got(kvs, p) =>
      if Lies(buf, p, tensors, MIN_TENSOR_BYTES) || Lies(buf, p, kvs, MIN_KV_BYTES) then Err(TooMany)
      else ReadBody(buf, version, p, kvs, tensors)
  }

  function ReadBody(buf: seq<Byte>, version: nat, pos: nat, kvs: nat, tensors: nat): Result<Gguf, Error>
    requires pos <= |buf|
  {
    match ReadEntries(buf, pos, kvs)
    case Failed(e) => Err(e)
    case Got(entries, p) => match ReadTensors(buf, p, tensors)
    case Failed(e) => Err(e)
    case Got(ts, p) => Settle(version, Collect(entries), ts, p)
  }

  /** The data begins at the next boundary. */
  function Settle(version: nat, metadata: map<string, Value>, tensors: seq<Tensor>, pos: nat): Result<Gguf, Error> {
    var a := Alignment(metadata);
    if a == 0 || !PowerOfTwo(a) then Err(BadAlignment)
    else Ok(Gguf(version, metadata, tensors, NextMultiple(pos, a)))
  }

  /** What a written header comes back as. */
  function Expected(h: Header): Result<Gguf, Error>
    requires HeaderWritable(h)
  {
    if !(2 <= h.version <= 3) then Err(BadVersion)
    else if !AllShallow(h, 0) then Err(TooDeep)
    else if !AllFewDims(h, 0) then Err(TooManyDims)
    else Settle(h.version, Collect(h.entries), h.tensors, |HeaderBytes(h)|)
  }

  lemma CountsFit(h: Header)
    requires HeaderWritable(h)
    ensures h.version < Pow256(4) && |h.tensors| < Pow256(8) && |h.entries| < Pow256(8)
  {
  }

  /** The buffer begins with a header, spelled as a writer writes it but for the byte of a true. */
  predicate SpellsHeader(buf: seq<Byte>, h: Header) {
    && HeaderWritable(h) && Holds(buf, 0, MAGIC) && Holds(buf, 4, Le(h.version, 4))
    && Holds(buf, 8, Le(|h.tensors|, 8)) && Holds(buf, 16, Le(|h.entries|, 8))
    && SpellsEntries(buf, 24, h, 0) && Holds(buf, 24 + |EntriesBytes(h, 0)|, TensorsBytes(h, 0))
  }

  /** Whatever follows a spelled header, reading gives the header back, unless its version, a nesting, a
    * tensor's dimensions or its alignment is out of bounds. No count or length guard refuses it. */
  lemma ReadSpelled(buf: seq<Byte>, h: Header)
    requires SpellsHeader(buf, h)
    ensures ReadHeader(buf) == Expected(h)
  {
    hide Le, ReadLe, EntriesBytes, TensorsBytes, ReadEntries, ReadTensors, Lies, HeaderWritable, AllShallow, AllFewDims, Settle, SpellsEntries;
    var es, ts := EntriesBytes(h, 0), TensorsBytes(h, 0);
    assert buf[..4] == buf[0..4] == MAGIC;
    EntriesInside(buf, 24, h, 0);
    CountsFit(h);
    ReadLeBack(buf, 4, h.version, 4);
    ReadLeBack(buf, 8, |h.tensors|, 8);
    ReadLeBack(buf, 16, |h.entries|, 8);
    ReadEntriesBack(buf, 24, h, 0);
    ReadTensorsBack(buf, 24 + |es|, h, 0);
    HonestCount(buf, 24, |h.tensors|, MIN_TENSOR_BYTES);
    HonestCount(buf, 24, |h.entries|, MIN_KV_BYTES);
    assert h.entries[0..] == h.entries && h.tensors[0..] == h.tensors;
  }

  lemma ReadInvertsWriting(h: Header, rest: seq<Byte>)
    requires HeaderWritable(h)
    ensures ReadHeader(HeaderBytes(h) + rest) == Expected(h)
  {
    hide Le, EntriesBytes, TensorsBytes, Holds, HeaderWritable, SpellsEntries, ReadHeader, Expected;
    var buf := HeaderBytes(h) + rest;
    HeaderHolds(h, rest);
    HoldsParts(buf, 24, EntriesBytes(h, 0), TensorsBytes(h, 0));
    WrittenEntries(buf, 24, h, 0);
    ReadSpelled(buf, h);
  }

  lemma HeaderHolds(h: Header, rest: seq<Byte>)
    requires HeaderWritable(h)
    ensures
      var buf := HeaderBytes(h) + rest;
      Holds(buf, 0, MAGIC) && Holds(buf, 4, Le(h.version, 4)) && Holds(buf, 8, Le(|h.tensors|, 8)) && Holds(buf, 16, Le(|h.entries|, 8)) &&
      Holds(buf, 24, EntriesBytes(h, 0) + TensorsBytes(h, 0))
  {
    hide Le, EntriesBytes, TensorsBytes, Holds, HeaderWritable;
    var buf := HeaderBytes(h) + rest;
    var v, n, m, body := Le(h.version, 4), Le(|h.tensors|, 8), Le(|h.entries|, 8), EntriesBytes(h, 0) + TensorsBytes(h, 0);
    HoldsFront(HeaderBytes(h), rest);
    HoldsParts(buf, 0, MAGIC, v + (n + (m + body)));
    HoldsParts(buf, 4, v, n + (m + body));
    HoldsParts(buf, 8, n, m + body);
    HoldsParts(buf, 16, m, body);
  }

  // ---------------------------------------------------------------- the cursor

  function Outcome<T>(r: Result<T, Error>, pos: nat): Read<T> {
    match r
    case Ok(v) => Got(v, pos)
    case Err(e) => Failed(e)
  }

  lemma PrependTwice<T>(a: seq<T>, b: seq<T>, r: Read<seq<T>>)
    ensures Prepend(a, Prepend(b, r)) == Prepend(a + b, r)
  {
    if r.Got? {
      Regroup(a, b, r.value);
    }
  }

  lemma PrependNothing<T>(r: Read<seq<T>>)
    ensures Prepend([], r) == r
  {
    if r.Got? {
      assert [] + r.value == r.value;
    }
  }

  lemma PrependToNothing<T>(a: seq<T>, pos: nat)
    ensures Prepend(a, Got([], pos)) == Got(a, pos)
  {
    assert a + [] == a;
  }

  /** A position in a buffer, and reads that advance it. */
  class Cursor {
    const buf: seq<Byte>
    var pos: nat

    constructor (buf: seq<Byte>)
      ensures Valid() && this.buf == buf && pos == 0
    {
      this.buf := buf;
      pos := 0;
    }

    predicate Valid()
      reads this
    {
      pos <= |buf|
    }

    method Take(n: nat) returns (r: Result<seq<Byte>, Error>)
      requires Valid()
      modifies this`pos
      ensures Valid()
      ensures r == if old(pos) + n <= |buf| then Ok(buf[old(pos)..old(pos) + n]) else Err(Truncated)
      ensures pos == if r.Ok? then old(pos) + n else old(pos)
    {
      if pos + n > |buf| {
        return Err(Truncated);
      }
      r := Ok(buf[pos..pos + n]);
      pos := pos + n;
    }

    method Unsigned(width: nat) returns (r: Result<nat, Error>)
      requires Valid()
      modifies this`pos
      ensures Valid() && Outcome(r, pos) == ReadLe(buf, old(pos), width)
    {
      var bytes := Take(width);
      r := match bytes case Ok(b) => Ok(FromLe(b)) case Err(e) => Err(e);
    }

    method String() returns (r: Result<string, Error>)
      requires Valid()
      modifies this`pos
      ensures Valid() && Outcome(r, pos) == ReadString(buf, old(pos))
    {
      hide WellFormed, Lossy;
      var len := Unsigned(8);
      if len.Err? {
        return Err(len.error);
      }
      if len.value > |buf| - pos {
        return Err(Overruns);
      }
      var bytes := Take(len.value);
      if !WellFormed(bytes.value) {
        return Err(NotUtf8);
      }
      r := Ok(Lossy(bytes.value));
    }

    /** Whatever the bytes, reading a value ends, in bounds. */
    method Value(id: nat, depth: nat) returns (r: Result<Value, Error>)
      requires Valid() && depth <= DEPTH + 1
      modifies this`pos
      ensures Valid() && Outcome(r, pos) == ReadValue(buf, old(pos), id, depth)
      decreases DEPTH + 1 - depth, 0
    {
      hide ReadLe, ReadString, ReadArray;
      if depth > DEPTH {
        return Err(TooDeep);
      }
      if KindOf(id).Some? {
        var x := Unsigned(Width(KindOf(id).value));
        r := match x case Ok(v) => Ok(Number(KindOf(id).value, Cast(KindOf(id).value, v))) case Err(e) => Err(e);
      } else if id == BOOL {
        var x := Unsigned(1);
        r := match x case Ok(v) => Ok(Bool(v != 0)) case Err(e) => Err(e);
      } else if id == STRING {
        var s := String();
        r := match s case Ok(v) => Ok(Str(v)) case Err(e) => Err(e);
      } else if id == ARRAY {
        r := Items(depth);
      } else {
        r := Err(UnknownType);
      }
    }

    method Items(depth: nat) returns (r: Result<Value, Error>)
      requires Valid() && depth <= DEPTH
      modifies this`pos
      ensures Valid() && Outcome(r, pos) == ReadArray(buf, old(pos), depth)
      decreases DEPTH - depth, 2
    {
      hide ReadLe, ReadItems;
      var elem := Unsigned(4);
      if elem.Err? {
        return Err(elem.error);
      }
      var n := Unsigned(8);
      if n.Err? {
        return Err(n.error);
      }
      if n.value > (|buf| - pos) / MinBytes(elem.value) {
        return Err(Overruns);
      }
      var items := ItemList(elem.value, n.value, depth + 1);
      r := match items case Ok(vs) => Ok(Array(elem.value, vs)) case Err(e) => Err(e);
    }

    method ItemList(elem: nat, n: nat, depth: nat) returns (r: Result<seq<Value>, Error>)
      requires Valid() && depth <= DEPTH + 1
      modifies this`pos
      ensures Valid() && Outcome(r, pos) == ReadItems(buf, old(pos), elem, n, depth)
      decreases DEPTH + 1 - depth, 1
    {
      hide ReadValue;
      var items: seq<Value> := [];
      PrependNothing(ReadItems(buf, pos, elem, n, depth));
      for i := 0 to n
        invariant Valid()
        invariant ReadItems(buf, old(pos), elem, n, depth) == Prepend(items, ReadItems(buf, pos, elem, n - i, depth))
      {
        ghost var from := pos;
        var v := Value(elem, depth);
        if v.Err? {
          return Err(v.error);
        }
        PrependTwice(items, [v.value], ReadItems(buf, pos, elem, n - i - 1, depth));
        items := items + [v.value];
      }
      PrependToNothing(items, pos);
      r := Ok(items);
    }

    method KeyAndValue() returns (r: Result<Entry, Error>)
      requires Valid()
      modifies this`pos
      ensures Valid() && Outcome(r, pos) == ReadEntry(buf, old(pos))
    {
      hide ReadString, ReadLe, ReadValue;
      var key := String();
      if key.Err? {
        return Err(key.error);
      }
      var id := Unsigned(4);
      if id.Err? {
        return Err(id.error);
      }
      var v := Value(id.value, 0);
      r := match v case Ok(x) => Ok(Entry(key.value, x)) case Err(e) => Err(e);
    }

    /** The metadata, inserted as it is read. */
    method Metadata(n: nat) returns (r: Result<map<string, Value>, Error>, ghost entries: seq<Entry>)
      requires Valid()
      modifies this`pos
      ensures Valid()
      ensures r.Ok? ==> ReadEntries(buf, old(pos), n) == Got(entries, pos) && r.value == Collect(entries)
      ensures r.Err? ==> ReadEntries(buf, old(pos), n) == Failed(r.error)
    {
      hide ReadEntry;
      var metadata := map[];
      entries := [];
      PrependNothing(ReadEntries(buf, pos, n));
      for i := 0 to n
        invariant Valid() && metadata == Collect(entries)
        invariant ReadEntries(buf, old(pos), n) == Prepend(entries, ReadEntries(buf, pos, n - i))
      {
        var e := KeyAndValue();
        if e.Err? {
          return Err(e.error), entries;
        }
        PrependTwice(entries, [e.value], ReadEntries(buf, pos, n - i - 1));
        metadata := metadata[e.value.key := e.value.value];
        assert (entries + [e.value])[..|entries|] == entries;
        entries := entries + [e.value];
      }
      PrependToNothing(entries, pos);
      r := Ok(metadata);
    }

    method Dims(n: nat) returns (r: Result<seq<nat>, Error>)
      requires Valid()
      modifies this`pos
      ensures Valid() && Outcome(r, pos) == ReadDims(buf, old(pos), n)
    {
      hide ReadLe;
      var dims: seq<nat> := [];
      PrependNothing(ReadDims(buf, pos, n));
      for i := 0 to n
        invariant Valid()
        invariant ReadDims(buf, old(pos), n) == Prepend(dims, ReadDims(buf, pos, n - i))
      {
        var d := Unsigned(8);
        if d.Err? {
          return Err(d.error);
        }
        PrependTwice(dims, [d.value], ReadDims(buf, pos, n - i - 1));
        dims := dims + [d.value];
      }
      PrependToNothing(dims, pos);
      r := Ok(dims);
    }

    method Descriptor() returns (r: Result<Tensor, Error>)
      requires Valid()
      modifies this`pos
      ensures Valid() && Outcome(r, pos) == ReadTensor(buf, old(pos))
    {
      hide ReadString, ReadLe, ReadDims;
      var name := String();
      if name.Err? {
        return Err(name.error);
      }
      var n := Unsigned(4);
      if n.Err? {
        return Err(n.error);
      }
      if n.value > MAX_DIMS {
        return Err(TooManyDims);
      }
      var dims := Dims(n.value);
      if dims.Err? {
        return Err(dims.error);
      }
      var ty := Unsigned(4);
      if ty.Err? {
        return Err(ty.error);
      }
      var offset := Unsigned(8);
      r := match offset case Ok(x) => Ok(Tensor(name.value, dims.value, ty.value, x)) case Err(e) => Err(e);
    }

    method Tensors(n: nat) returns (r: Result<seq<Tensor>, Error>)
      requires Valid()
      modifies this`pos
      ensures Valid() && Outcome(r, pos) == ReadTensors(buf, old(pos), n)
    {
      hide ReadTensor;
      var tensors: seq<Tensor> := [];
      PrependNothing(ReadTensors(buf, pos, n));
      for i := 0 to n
        invariant Valid()
        invariant ReadTensors(buf, old(pos), n) == Prepend(tensors, ReadTensors(buf, pos, n - i))
      {
        var t := Descriptor();
        if t.Err? {
          return Err(t.error);
        }
        PrependTwice(tensors, [t.value], ReadTensors(buf, pos, n - i - 1));
        tensors := tensors + [t.value];
      }
      PrependToNothing(tensors, pos);
      r := Ok(tensors);
    }

    method Body(version: nat, kvs: nat, tensors: nat) returns (r: Result<Gguf, Error>)
      requires Valid()
      modifies this`pos
      ensures r == ReadBody(buf, version, old(pos), kvs, tensors)
    {
      hide ReadEntries, ReadTensors, Collect, PowerOfTwo;
      var metadata, _ := Metadata(kvs);
      if metadata.Err? {
        return Err(metadata.error);
      }
      var ts := Tensors(tensors);
      if ts.Err? {
        return Err(ts.error);
      }
      var alignment := Alignment(metadata.value);
      if alignment == 0 || !PowerOfTwo(alignment) {
        return Err(BadAlignment);
      }
      r := Ok(Gguf(version, metadata.value, ts.value, NextMultiple(pos, alignment)));
    }
  }

  /** `Gguf::parse`, a cursor over the file. */
  method Parse(data: seq<Byte>) returns (r: Result<Gguf, Error>)
    ensures r == ReadHeader(data)
  {
    hide ReadLe, ReadBody;
    var c := new Cursor(data);
    var magic := c.Take(4);
    if magic.Err? {
      return Err(magic.error);
    }
    if magic.value != MAGIC {
      return Err(BadMagic);
    }
    var version := c.Unsigned(4);
    if version.Err? {
      return Err(version.error);
    }
    if !(2 <= version.value <= 3) {
      return Err(BadVersion);
    }
    var tensors := c.Unsigned(8);
    if tensors.Err? {
      return Err(tensors.error);
    }
    var kvs := c.Unsigned(8);
    if kvs.Err? {
      return Err(kvs.error);
    }
    var remaining := |data| - c.pos;
    if tensors.value > remaining / MIN_TENSOR_BYTES || kvs.value > remaining / MIN_KV_BYTES {
      return Err(TooMany);
    }
    r := c.Body(version.value, kvs.value, tensors.value);
  }

  /** A written header comes back from the parser. */
  method WriteThenParse(h: Header, rest: seq<Byte>) returns (r: Result<Gguf, Error>)
    requires HeaderWritable(h)
    ensures r == Expected(h)
  {
    r := Parse(HeaderBytes(h) + rest);
    ReadInvertsWriting(h, rest);
  }
}
