/** The converse of `Ggufs.ReadInvertsWriting`: whatever the parser accepts begins with a header a writer
  * could have written, spelled as the writer spells it but for the byte of a true. */
module Spelled {
  import opened Basics
  import opened Utf8
  import opened Bytes
  import opened Ggufs

  lemma LeSpelled(buf: seq<Byte>, pos: nat, width: nat)
    requires ReadLe(buf, pos, width).Got?
    ensures ReadLe(buf, pos, width).value < Pow256(width)
    ensures Holds(buf, pos, Le(ReadLe(buf, pos, width).value, width))
  {
    FromLeRoundTrip(buf[pos..pos + width]);
  }

  lemma CastFits(k: Kind, x: nat)
    requires x < Pow256(Width(k))
    ensures Fits(k, Cast(k, x)) && Pattern(k, Cast(k, x)) == x
  {
    hide Pow256;
  }

  lemma StringSpelled(buf: seq<Byte>, pos: nat)
    requires ReadString(buf, pos).Got?
    ensures
      var r := ReadString(buf, pos);
      |Encode(r.value)| < Pow256(8) && Holds(buf, pos, StringBytes(r.value)) && r.pos == pos + |StringBytes(r.value)|
  {
    hide Lossy, Encode, Le, Pow256, WellFormed;
    LeSpelled(buf, pos, 8);
    var len, p := ReadLe(buf, pos, 8).value, pos + 8;
    var text := buf[p..p + len];
    DecodeEncode(text);
    assert buf[pos..p + len] == buf[pos..p] + text;
  }

  /** A value that was read is one a writer can write, of the type asked for and not too deep, and it is
    * what the buffer spells there. */
  ghost predicate IsSpelled(buf: seq<Byte>, pos: nat, id: nat, depth: nat, v: Value, end: nat) {
    && Writable(v) && TypeId(v) == id && Within(v, DEPTH - depth)
    && Spells(buf, pos, v) && end == pos + |ValueBytes(v)|
  }

  lemma {:induction false} ValueSpelled(buf: seq<Byte>, pos: nat, id: nat, depth: nat)
    requires pos <= |buf| && depth <= DEPTH + 1 && ReadValue(buf, pos, id, depth).Got?
    ensures
      var r := ReadValue(buf, pos, id, depth);
      IsSpelled(buf, pos, id, depth, r.value, r.pos)
    decreases DEPTH + 1 - depth, 0, 0
  {
    if KindOf(id).Some? {
      NumberSpelled(buf, pos, id, depth);
    } else if id == BOOL {
      OneByte(buf, pos);
    } else if id == STRING {
      hide ReadString, Encode, StringBytes;
      StringSpelled(buf, pos);
    } else {
      hide ReadArray, IsSpelled;
      ArraySpelled(buf, pos, depth);
    }
  }

  lemma NumberSpelled(buf: seq<Byte>, pos: nat, id: nat, depth: nat)
    requires pos <= |buf| && depth <= DEPTH && KindOf(id).Some? && ReadValue(buf, pos, id, depth).Got?
    ensures
      var r := ReadValue(buf, pos, id, depth);
      IsSpelled(buf, pos, id, depth, r.value, r.pos)
  {
    hide Pow256, Le, FromLe;
    var k := KindOf(id).value;
    LeSpelled(buf, pos, Width(k));
    CastFits(k, ReadLe(buf, pos, Width(k)).value);
  }

  lemma {:induction false} ArraySpelled(buf: seq<Byte>, pos: nat, depth: nat)
    requires pos <= |buf| && depth <= DEPTH && ReadArray(buf, pos, depth).Got?
    ensures
      var r := ReadArray(buf, pos, depth);
      IsSpelled(buf, pos, ARRAY, depth, r.value, r.pos)
    decreases DEPTH - depth, 2, 0
  {
    hide Pow256, Le, ReadLe, ReadItems, Lies, Holds, ItemBytes, SpellsItems;
    LeSpelled(buf, pos, 4);
    LeSpelled(buf, pos + 4, 8);
    var elem, n := ReadLe(buf, pos, 4).value, ReadLe(buf, pos + 4, 8).value;
    var q := pos + 12;
    var items := ReadItems(buf, q, elem, n, depth + 1);
    var v := Array(elem, items.value);
    assert v.items[0..] == v.items;
    ItemsFit(buf, q, v, 0, depth + 1, items.pos);
    ItemsSpelled(buf, q, v, 0, depth + 1, items.pos);
  }

  /** The items from `i` on are what is read. */
  predicate Tail(buf: seq<Byte>, pos: nat, v: Value, i: nat, depth: nat, end: nat) {
    && v.Array? && i <= |v.items| && pos <= |buf| && depth <= DEPTH + 1
    && ReadItems(buf, pos, v.elem, |v.items| - i, depth) == Got(v.items[i..], end)
  }

  lemma NextItem(buf: seq<Byte>, pos: nat, v: Value, i: nat, depth: nat, end: nat)
    requires Tail(buf, pos, v, i, depth, end) && i < |v.items|
    ensures ReadValue(buf, pos, v.elem, depth).Got? && ReadValue(buf, pos, v.elem, depth).value == v.items[i]
    ensures Tail(buf, ReadValue(buf, pos, v.elem, depth).pos, v, i + 1, depth, end)
  {
    hide ReadValue;
    var one := ReadValue(buf, pos, v.elem, depth);
    var rest := ReadItems(buf, one.pos, v.elem, |v.items| - i - 1, depth);
    assert v.items[i..] == [one.value] + rest.value;
    assert v.items[i..][1..] == v.items[i + 1..];
  }

  lemma {:induction false} ItemsFit(buf: seq<Byte>, pos: nat, v: Value, i: nat, depth: nat, end: nat)
    requires Tail(buf, pos, v, i, depth, end)
    ensures forall j :: i <= j < |v.items| ==> Writable(v.items[j]) && TypeId(v.items[j]) == v.elem && Within(v.items[j], DEPTH - depth)
    decreases DEPTH + 1 - depth, 1, |v.items| - i
  {
    hide ReadValue, ReadItems, Writable, Within, Spells, ValueBytes;
    if i < |v.items| {
      NextItem(buf, pos, v, i, depth, end);
      ValueSpelled(buf, pos, v.elem, depth);
      ItemsFit(buf, ReadValue(buf, pos, v.elem, depth).pos, v, i + 1, depth, end);
    }
  }

  lemma {:induction false} ItemsSpelled(buf: seq<Byte>, pos: nat, v: Value, i: nat, depth: nat, end: nat)
    requires Tail(buf, pos, v, i, depth, end) && Writable(v)
    ensures SpellsItems(buf, pos, v, i) && end == pos + |ItemBytes(v, i)|
    decreases DEPTH + 1 - depth, 1, |v.items| - i
  {
    hide ReadValue, Within, Spells, ValueBytes;
    if i < |v.items| {
      ItemWritable(v, i);
      hide Writable, ReadItems;
      NextItem(buf, pos, v, i, depth, end);
      ValueSpelled(buf, pos, v.elem, depth);
      ItemsSpelled(buf, ReadValue(buf, pos, v.elem, depth).pos, v, i + 1, depth, end);
    }
  }

  // ---------------------------------------------------------------- the header

  lemma EntrySpelled(buf: seq<Byte>, pos: nat)
    requires pos <= |buf| && ReadEntry(buf, pos).Got?
    ensures
      var r := ReadEntry(buf, pos);
      && EntryWritable(r.value) && Shallow(r.value)
      && SpellsEntry(buf, pos, r.value) && r.pos == pos + |EntryBytes(r.value)|
  {
    hide ReadString, ReadLe, ReadValue, StringBytes, ValueBytes, Spells, Writable, Within, Encode, Le, Holds, Pow256;
    StringSpelled(buf, pos);
    var p := ReadString(buf, pos).pos;
    LeSpelled(buf, p, 4);
    ValueSpelled(buf, p + 4, ReadLe(buf, p, 4).value, 0);
  }

  lemma {:induction false} EntriesSpelled(buf: seq<Byte>, pos: nat, h: Header, i: nat, end: nat)
    requires i <= |h.entries| && pos <= |buf| && ReadEntries(buf, pos, |h.entries| - i) == Got(h.entries[i..], end)
    ensures forall j :: i <= j < |h.entries| ==> EntryWritable(h.entries[j]) && Shallow(h.entries[j])
    ensures HeaderWritable(h) ==> SpellsEntries(buf, pos, h, i) && end == pos + |EntriesBytes(h, i)|
    decreases |h.entries| - i
  {
    hide ReadEntry, EntryWritable, Shallow, SpellsEntry, EntryBytes, TensorWritable;
    if i < |h.entries| {
      var one := ReadEntry(buf, pos);
      var rest := ReadEntries(buf, one.pos, |h.entries| - i - 1);
      assert h.entries[i..] == [one.value] + rest.value;
      assert h.entries[i..][1..] == h.entries[i + 1..];
      EntrySpelled(buf, pos);
      EntriesSpelled(buf, one.pos, h, i + 1, end);
    }
  }

  lemma {:induction false} DimsSpelled(buf: seq<Byte>, pos: nat, dims: seq<nat>, i: nat, end: nat)
    requires i <= |dims| && pos <= |buf| && ReadDims(buf, pos, |dims| - i) == Got(dims[i..], end)
    ensures forall j :: i <= j < |dims| ==> dims[j] < Pow256(8)
    ensures Holds(buf, pos, DimBytes(dims, i)) && end == pos + |DimBytes(dims, i)|
    decreases |dims| - i
  {
    hide ReadLe, Le, Pow256;
    if i < |dims| {
      LeSpelled(buf, pos, 8);
      var one := ReadLe(buf, pos, 8);
      var rest := ReadDims(buf, pos + 8, |dims| - i - 1);
      assert dims[i..] == [one.value] + rest.value;
      assert dims[i..][1..] == dims[i + 1..];
      DimsSpelled(buf, pos + 8, dims, i + 1, end);
      Join(buf, pos, Le(dims[i], 8), DimBytes(dims, i + 1));
    }
  }

  lemma Join(buf: seq<Byte>, pos: nat, a: seq<Byte>, b: seq<Byte>)
    requires Holds(buf, pos, a) && Holds(buf, pos + |a|, b)
    ensures Holds(buf, pos, a + b)
  {
    assert buf[pos..pos + |a + b|] == a + b;
  }

  lemma TensorSpelled(buf: seq<Byte>, pos: nat)
    requires pos <= |buf| && ReadTensor(buf, pos).Got?
    ensures
      var r := ReadTensor(buf, pos);
      && TensorWritable(r.value) && FewDims(r.value)
      && Holds(buf, pos, TensorBytes(r.value)) && r.pos == pos + |TensorBytes(r.value)|
  {
    hide ReadString, ReadLe, ReadDims, StringBytes, DimBytes, Encode, Le, Holds, Pow256;
    var name := ReadString(buf, pos);
    StringSpelled(buf, pos);
    var p := name.pos;
    LeSpelled(buf, p, 4);
    var n := ReadLe(buf, p, 4).value;
    var dims := ReadDims(buf, p + 4, n);
    assert dims.value[0..] == dims.value;
    DimsSpelled(buf, p + 4, dims.value, 0, dims.pos);
    LeSpelled(buf, dims.pos, 4);
    LeSpelled(buf, dims.pos + 4, 8);
    var ty, offset := ReadLe(buf, dims.pos, 4).value, ReadLe(buf, dims.pos + 4, 8).value;
    Join(buf, dims.pos, Le(ty, 4), Le(offset, 8));
    Join(buf, p + 4, DimBytes(dims.value, 0), Le(ty, 4) + Le(offset, 8));
    Join(buf, p, Le(n, 4), DimBytes(dims.value, 0) + (Le(ty, 4) + Le(offset, 8)));
    Join(buf, pos, StringBytes(name.value), Le(n, 4) + (DimBytes(dims.value, 0) + (Le(ty, 4) + Le(offset, 8))));
  }

  lemma {:induction false} TensorsSpelled(buf: seq<Byte>, pos: nat, h: Header, i: nat, end: nat)
    requires i <= |h.tensors| && pos <= |buf| && ReadTensors(buf, pos, |h.tensors| - i) == Got(h.tensors[i..], end)
    ensures forall j :: i <= j < |h.tensors| ==> TensorWritable(h.tensors[j]) && FewDims(h.tensors[j])
    ensures Holds(buf, pos, TensorsBytes(h, i)) && end == pos + |TensorsBytes(h, i)|
    decreases |h.tensors| - i
  {
    hide ReadTensor, TensorWritable, FewDims, TensorBytes;
    if i < |h.tensors| {
      var one := ReadTensor(buf, pos);
      var rest := ReadTensors(buf, one.pos, |h.tensors| - i - 1);
      assert h.tensors[i..] == [one.value] + rest.value;
      assert h.tensors[i..][1..] == h.tensors[i + 1..];
      TensorSpelled(buf, pos);
      TensorsSpelled(buf, one.pos, h, i + 1, end);
      Join(buf, pos, TensorBytes(one.value), TensorsBytes(h, i + 1));
    }
  }

  /** The header a parsed buffer begins with. */
  lemma HeaderSpelled(buf: seq<Byte>) returns (h: Header)
    requires ReadHeader(buf).Ok?
    ensures SpellsHeader(buf, h) && ReadHeader(buf) == Expected(h)
  {
    hide ReadLe, ReadEntries, ReadTensors, Settle, Le, Pow256, Lies, Holds, EntriesBytes, TensorsBytes, SpellsEntries, Expected;
    hide EntryWritable, TensorWritable, Shallow, FewDims;
    LeSpelled(buf, 4, 4);
    LeSpelled(buf, 8, 8);
    LeSpelled(buf, 16, 8);
    var version, tensors, kvs := ReadLe(buf, 4, 4).value, ReadLe(buf, 8, 8).value, ReadLe(buf, 16, 8).value;
    var es := ReadEntries(buf, 24, kvs);
    var ts := ReadTensors(buf, es.pos, tensors);
    h := Header(version, es.value, ts.value);
    assert h.entries[0..] == h.entries && h.tensors[0..] == h.tensors;
    EntriesSpelled(buf, 24, h, 0, es.pos);
    TensorsSpelled(buf, es.pos, h, 0, ts.pos);
    EntriesSpelled(buf, 24, h, 0, es.pos);
    MagicSpelled(buf);
    ReadSpelled(buf, h);
  }

  lemma MagicSpelled(buf: seq<Byte>)
    requires |buf| >= 4 && buf[..4] == MAGIC
    ensures Holds(buf, 0, MAGIC)
  {
    assert buf[0..4] == buf[..4];
  }

  /** The parser accepts exactly the buffers that begin with a spelled header in bounds, and what it gives
    * is that header with its data offset. */
  lemma AcceptsIff(buf: seq<Byte>, g: Gguf)
    ensures ReadHeader(buf) == Ok(g) <==> exists h :: SpellsHeader(buf, h) && Expected(h) == Ok(g)
  {
    hide ReadHeader, HeaderWritable, Holds, SpellsEntries, Expected, EntriesBytes, TensorsBytes;
    if ReadHeader(buf).Ok? {
      var h := HeaderSpelled(buf);
    }
    forall h | SpellsHeader(buf, h) ensures ReadHeader(buf) == Expected(h) {
      ReadSpelled(buf, h);
    }
  }
}
