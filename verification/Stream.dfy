/** Weight bytes wherever they live: in the mapped file, in a buffer a block was pinned into, or in a ring
  * of buffers that readers fill ahead of the pass. A row is the same file bytes from all three. */
module Streams {
  import opened Basics
  import opened Utf8
  import C = Civil

  // ---------------------------------------------------------------- tensors and their blocks

  /** A block format: how many elements share a block, and its bytes. */
  datatype Layout = Layout(block: nat, bytes: nat)

  datatype Tensor = Tensor(name: string, layout: Layout, elements: nat, start: nat)

  function ByteSize(y: Layout, n: nat): Option<nat> {
    if y.block > 0 && n % y.block == 0 then Some(n / y.block * y.bytes) else None
  }

  function SizeOf(t: Tensor): nat {
    match ByteSize(t.layout, t.elements)
    case Some(n) => n
    case None => 0
  }

  predicate AllDigits(s: string) { s != [] && C.Digits(s) }

  const USIZE: nat := 0x1_0000_0000_0000_0000

  /** A number as the parser reads it: digits after an optional sign, in range. */
  function ParseIndex(s: string): Option<nat> {
    var digits := if s != [] && s[0] == '+' then s[1..] else s;
    if AllDigits(digits) && 0 <= C.Value(digits) < USIZE then Some(C.Value(digits)) else None
  }

  /** The text before the first dot. */
  function UpToDot(s: string): Option<string> {
    if s == [] then None
    else if s[0] == '.' then Some([])
    else match UpToDot(s[1..])
      case Some(r) => Some([s[0]] + r)
      case None => None
  }

  const PREFIX: string := "blk."

  /** The decoder block a tensor's name puts it in. */
  function BlockOf(name: string): Option<nat> {
    if !(PREFIX <= name) then None
    else match UpToDot(name[4..])
      case Some(idx) => ParseIndex(idx)
      case None => None
  }

  lemma {:induction false} UpToDotStops(s: string, rest: string)
    requires '.' !in s
    ensures UpToDot(s + ("." + rest)) == Some(s)
  {
    var all := s + ("." + rest);
    if s == [] {
      assert all == "." + rest;
    } else {
      assert all[0] == s[0] && all[1..] == s[1..] + ("." + rest);
      UpToDotStops(s[1..], rest);
      assert [s[0]] + s[1..] == s;
    }
  }

  /** A name written for block `l` is read as block `l`. */
  lemma NameRead(l: nat, rest: string)
    requires l < 0x1_0000_0000_0000_0000
    ensures BlockOf("blk." + (C.Decimal(l) + ("." + rest))) == Some(l)
  {
    hide C.Value, C.Decimal;
    var d := C.Decimal(l);
    C.DecimalReads(l);
    UpToDotStops(d, rest);
    var name := PREFIX + (d + ("." + rest));
    assert name[4..] == d + ("." + rest);
    assert d[0] != '+';
  }

  /** And only such a name is: a number in range between the prefix and the next dot, with a sign or without. */
  lemma NameIs(name: string, l: nat) returns (sign: string, digits: string, rest: string)
    requires BlockOf(name) == Some(l)
    ensures name == "blk." + (sign + (digits + ("." + rest))) && (sign == "" || sign == "+")
    ensures AllDigits(digits) && C.Value(digits) == l && l < 0x1_0000_0000_0000_0000
  {
    hide C.Value, C.Digits;
    var idx := UpToDot(name[4..]).value;
    rest := UpToDotSplits(name[4..]);
    sign, digits := if idx[0] == '+' then "+" else "", if idx[0] == '+' then idx[1..] else idx;
    assert idx == sign + digits;
    assert name == name[..4] + name[4..];
  }

  lemma {:induction false} UpToDotSplits(s: string) returns (rest: string)
    requires UpToDot(s).Some?
    ensures s == UpToDot(s).value + ("." + rest)
  {
    if s[0] == '.' {
      rest := s[1..];
      assert UpToDot(s).value == "";
    } else {
      rest := UpToDotSplits(s[1..]);
      assert s == [s[0]] + s[1..];
    }
  }

  // ---------------------------------------------------------------- spans

  type Span = (nat, nat)

  predicate Inside(t: Tensor, s: Span) { s.0 <= t.start && t.start + SizeOf(t) <= s.0 + s.1 }

  predicate InBlock(t: Tensor, l: nat) { BlockOf(t.name) == Some(l) }

  /** A running span: from the least start to the greatest end so far. */
  ghost predicate Covers(ts: seq<Tensor>, n: nat, l: nat, s: Option<Span>)
    requires n <= |ts|
  {
    match s
    case None => forall i :: 0 <= i < n ==> !InBlock(ts[i], l)
    case Some((lo, hi)) =>
      && (forall i :: 0 <= i < n && InBlock(ts[i], l) ==> Between(ts[i], lo, hi))
      && Starts(ts, n, l, lo) && Ends(ts, n, l, hi)
  }

  predicate Between(t: Tensor, lo: nat, hi: nat) { lo <= t.start && t.start + SizeOf(t) <= hi }

  /** Both ends belong to tensors of the block. */
  ghost predicate Starts(ts: seq<Tensor>, n: nat, l: nat, lo: nat)
    requires n <= |ts|
  {
    exists i :: 0 <= i < n && InBlock(ts[i], l) && ts[i].start == lo
  }

  ghost predicate Ends(ts: seq<Tensor>, n: nat, l: nat, hi: nat)
    requires n <= |ts|
  {
    exists i :: 0 <= i < n && InBlock(ts[i], l) && ts[i].start + SizeOf(ts[i]) == hi
  }

  function Widen(s: Option<Span>, t: Tensor): Option<Span> {
    match s
    case None => Some((t.start, t.start + SizeOf(t)))
    case Some((lo, hi)) => Some((Min(lo, t.start), Max(hi, t.start + SizeOf(t))))
  }

  lemma WidenCovers(ts: seq<Tensor>, n: nat, l: nat, s: Option<Span>)
    requires n < |ts| && Covers(ts, n, l, s)
    ensures InBlock(ts[n], l) ==> Covers(ts, n + 1, l, Widen(s, ts[n]))
    ensures !InBlock(ts[n], l) ==> Covers(ts, n + 1, l, s)
  {
    hide SizeOf, InBlock;
    if s.Some? {
      var i :| 0 <= i < n && InBlock(ts[i], l) && ts[i].start == s.value.0;
      var j :| 0 <= j < n && InBlock(ts[j], l) && ts[j].start + SizeOf(ts[j]) == s.value.1;
    }
  }

  function Settled(s: Option<Span>): Span {
    match s
    case None => (0, 0)
    case Some((lo, hi)) => (lo, Max(0, hi - lo))
  }

  /** The least span with every tensor of the block in it; none at all if it has no tensor. */
  ghost predicate SpanIs(ts: seq<Tensor>, l: nat, s: Span) {
    exists r: Option<Span> :: Covers(ts, |ts|, l, r) && s == Settled(r)
  }

  /** `block_spans`. */
  method BlockSpans(ts: seq<Tensor>, n: nat) returns (spans: seq<Span>)
    ensures |spans| == n && forall l :: 0 <= l < n ==> SpanIs(ts, l, spans[l])
  {
    hide BlockOf, SizeOf;
    var running := seq(n, _ => None);
    for i := 0 to |ts|
      invariant |running| == n && forall l :: 0 <= l < n ==> Covers(ts, i, l, running[l])
    {
      forall l | 0 <= l < n
        ensures InBlock(ts[i], l) ==> Covers(ts, i + 1, l, Widen(running[l], ts[i]))
        ensures !InBlock(ts[i], l) ==> Covers(ts, i + 1, l, running[l])
      {
        WidenCovers(ts, i, l, running[l]);
      }
      var block := BlockOf(ts[i].name);
      if block.Some? && block.value < n {
        running := running[block.value := Widen(running[block.value], ts[i])];
      }
    }
    spans := seq(n, l requires 0 <= l < n => Settled(running[l]));
  }

  /** Every tensor of a block lies in the block's span. */
  lemma TensorInside(ts: seq<Tensor>, i: nat, l: nat, s: Span)
    requires i < |ts| && InBlock(ts[i], l) && SpanIs(ts, l, s)
    ensures Inside(ts[i], s)
  {
    hide InBlock, SizeOf, Starts, Ends;
    var r: Option<Span> :| Covers(ts, |ts|, l, r) && s == Settled(r);
    assert r.Some? && Between(ts[i], r.value.0, r.value.1);
  }

  // ---------------------------------------------------------------- holding blocks

  /** The bytes of the blocks marked. */
  function Held(spans: seq<Span>, pinned: seq<bool>): nat
    requires |pinned| <= |spans|
  {
    if pinned == [] then 0
    else Held(spans, pinned[..|pinned| - 1]) + if pinned[|pinned| - 1] then spans[|pinned| - 1].1 else 0
  }

  /** The spans a streamer is given: none for a held block. */
  predicate Streamable(spans: seq<Span>, pinned: seq<bool>, left: seq<Span>) {
    && |pinned| == |spans| == |left|
    && forall l :: 0 <= l < |spans| ==> left[l] == if pinned[l] then (0, 0) else spans[l]
  }

  /** Whole blocks in order, while they fit. */
  method Hold(spans: seq<Span>, budget: nat) returns (pinned: seq<bool>, held: nat, left: seq<Span>)
    ensures Streamable(spans, pinned, left) && held == Held(spans, pinned) <= budget
    ensures forall l :: 0 <= l < |spans| && !pinned[l] ==> spans[l].1 == 0 || held + spans[l].1 > budget
  {
    pinned, held, left := [], 0, [];
    for l := 0 to |spans|
      invariant |pinned| == |left| == l && held == Held(spans, pinned) <= budget
      invariant forall k :: 0 <= k < l ==> left[k] == if pinned[k] then (0, 0) else spans[k]
      invariant forall k :: 0 <= k < l && !pinned[k] ==> spans[k].1 == 0 || held + spans[k].1 > budget
    {
      var fits := spans[l].1 > 0 && spans[l].1 <= budget - held;
      assert (pinned + [fits])[..l] == pinned;
      pinned := pinned + [fits];
      left := left + [if fits then (0, 0) else spans[l]];
      if fits {
        held := held + spans[l].1;
      }
    }
  }

  // ---------------------------------------------------------------- weights

  /** A packed matrix inside a buffer. */
  datatype Weight = Weight(layout: Layout, cols: nat, src: seq<Byte>, start: nat)

  datatype LoadError = WrongElements | BadLayout | BeforeBuffer | PastBuffer | PastFile

  /** `pinned_weight`: `src` holds the file from `base` on. */
  function PinnedWeight(t: Tensor, src: seq<Byte>, base: nat, rows: nat, cols: nat): Result<Weight, LoadError> {
    if t.elements != rows * cols then Err(WrongElements)
    else if ByteSize(t.layout, t.elements) == None then Err(BadLayout)
    else if t.start < base then Err(BeforeBuffer)
    else if t.start - base + SizeOf(t) > |src| then Err(PastBuffer)
    else Ok(Weight(t.layout, cols, src, t.start - base))
  }

  /** A block's weight: out of the block's own copy if it is held, else out of the map. */
  function LoadWeight(file: seq<Byte>, t: Tensor, span: Span, pinned: bool, rows: nat, cols: nat): Result<Weight, LoadError> {
    if !pinned then PinnedWeight(t, file, 0, rows, cols)
    else if span.0 + span.1 > |file| then Err(PastFile)
    else PinnedWeight(t, file[span.0..span.0 + span.1], span.0, rows, cols)
  }

  /** A weight of a block loads exactly if it has the rows and columns asked for, its format can hold as many
    * numbers, and it lies in the file, whether its block is held or not. */
  lemma LoadsWhen(file: seq<Byte>, t: Tensor, span: Span, pinned: bool, rows: nat, cols: nat)
    requires Inside(t, span) && (pinned ==> span.0 + span.1 <= |file|)
    ensures LoadWeight(file, t, span, pinned, rows, cols).Ok? <==>
      t.elements == rows * cols && t.layout.block > 0 && t.elements % t.layout.block == 0 && t.start + SizeOf(t) <= |file|
  {
  }

  /** A streamed block: a buffer and the file offset it starts at. */
  type Lent = Option<(seq<Byte>, nat)>

  /** `located`: the buffer to read and where in it. */
  function Located(w: Weight, block: Lent): (seq<Byte>, nat) {
    match block
    case Some((bytes, base)) => if w.start >= base then (bytes, w.start - base) else (w.src, w.start)
    case None => (w.src, w.start)
  }

  /** The packed bytes of row `r`. */
  function Row(w: Weight, block: Lent, r: nat): Option<seq<Byte>> {
    match ByteSize(w.layout, w.cols)
    case None => None
    case Some(n) =>
      var (bytes, at) := Located(w, block);
      if at + r * n + n <= |bytes| then Some(bytes[at + r * n..at + r * n + n]) else None
  }

  lemma {:induction false} WholeBlocks(rows: nat, b: nat, k: nat)
    requires b > 0
    ensures rows * (k * b) == rows * k * b && (rows * k * b) % b == 0 && rows * k * b / b == rows * k
  {
    Multiple(rows * k, b);
  }

  lemma Multiple(m: nat, b: nat)
    requires b > 0
    ensures (m * b) % b == 0 && m * b / b == m
  {
    var x := m * b;
    Divided(x, b);
    var q := x / b;
    assert (m - q) * b == m * b - q * b && (q - m) * b == q * b - m * b;
    if q < m {
      Times(m - q, b);
    } else if m < q {
      Times(q - m, b);
    }
  }

  lemma Divided(x: nat, b: nat)
    requires b > 0
    ensures x == x / b * b + x % b && 0 <= x % b < b
  {
  }

  lemma Times(n: nat, b: nat)
    requires n >= 1
    ensures n * b >= b
  {
  }

  /** A matrix of whole-block rows is its rows one after another. */
  lemma RowsFill(y: Layout, rows: nat, cols: nat)
    requires ByteSize(y, cols).Some?
    ensures ByteSize(y, rows * cols) == Some(rows * ByteSize(y, cols).value)
  {
    var k := cols / y.block;
    Quotient(cols, y.block);
    WholeBlocks(rows, y.block, k);
    assert rows * cols == rows * k * y.block;
    assert rows * k * y.bytes == rows * (k * y.bytes);
  }

  lemma Quotient(x: nat, b: nat)
    requires b > 0 && x % b == 0
    ensures x == x / b * b
  {
  }

  lemma RowFits(start: nat, rows: nat, r: nat, n: nat)
    requires r < rows
    ensures start + r * n + n <= start + rows * n
  {
    var more := rows - r - 1;
    assert rows * n == (r + 1 + more) * n == r * n + n + more * n;
    assert more * n >= 0;
  }

  /** The file bytes of row `r` of a tensor. */
  function FileRow(file: seq<Byte>, t: Tensor, r: nat, n: nat): Option<seq<Byte>> {
    if t.start + r * n + n <= |file| then Some(file[t.start + r * n..t.start + r * n + n]) else None
  }

  /** The buffer is that part of the file. */
  predicate Part(file: seq<Byte>, buf: seq<Byte>, base: nat) {
    base + |buf| <= |file| && buf == file[base..base + |buf|]
  }

  lemma PartOfPart(file: seq<Byte>, buf: seq<Byte>, base: nat, at: nat, n: nat)
    requires Part(file, buf, base) && at + n <= |buf|
    ensures buf[at..at + n] == file[base + at..base + at + n]
  {
    var all := file[base..base + |buf|];
    var part, same := all[at..at + n], file[base + at..base + at + n];
    forall i | 0 <= i < n ensures part[i] == same[i] {
      assert part[i] == all[at + i];
    }
  }

  /** A weight loaded from any part of the file reads the tensor's own rows. */
  lemma LoadedRow(file: seq<Byte>, t: Tensor, src: seq<Byte>, base: nat, rows: nat, cols: nat, r: nat)
    requires Part(file, src, base) && r < rows && ByteSize(t.layout, cols).Some?
    requires PinnedWeight(t, src, base, rows, cols).Ok?
    ensures
      var n := ByteSize(t.layout, cols).value;
      Row(PinnedWeight(t, src, base, rows, cols).value, None, r) == FileRow(file, t, r, n) != None
  {
    hide ByteSize;
    var n := ByteSize(t.layout, cols).value;
    RowsFill(t.layout, rows, cols);
    RowFits(t.start - base, rows, r, n);
    PartOfPart(file, src, base, t.start - base + r * n, n);
  }

  /** A mapped weight whose block was streamed reads the same rows out of the streamed buffer. */
  lemma StreamedRow(file: seq<Byte>, t: Tensor, buf: seq<Byte>, base: nat, rows: nat, cols: nat, r: nat)
    requires Part(file, buf, base) && Inside(t, (base, |buf|)) && r < rows && ByteSize(t.layout, cols).Some?
    requires PinnedWeight(t, file, 0, rows, cols).Ok?
    ensures
      var n := ByteSize(t.layout, cols).value;
      Row(PinnedWeight(t, file, 0, rows, cols).value, Some((buf, base)), r) == FileRow(file, t, r, n) != None
  {
    hide ByteSize;
    var n := ByteSize(t.layout, cols).value;
    RowsFill(t.layout, rows, cols);
    RowFits(t.start - base, rows, r, n);
    PartOfPart(file, buf, base, t.start - base + r * n, n);
  }

  /** What `run_layer` lends a block's weights: nothing unless the block is streamed. */
  predicate LentFor(file: seq<Byte>, left: Span, block: Lent) {
    if left.1 == 0 then block == None
    else block == None || (block.value.1 == left.0 && |block.value.0| == left.1 && Part(file, block.value.0, left.0))
  }

  /** Held, mapped or streamed, a weight that loads reads the file bytes of its tensor's rows. */
  lemma RowsAgree(
    file: seq<Byte>, ts: seq<Tensor>, spans: seq<Span>, pinned: seq<bool>, left: seq<Span>,
    l: nat, i: nat, rows: nat, cols: nat, r: nat, block: Lent
  )
    requires Streamable(spans, pinned, left) && l < |spans| && SpanIs(ts, l, spans[l])
    requires i < |ts| && InBlock(ts[i], l) && r < rows && ByteSize(ts[i].layout, cols).Some?
    requires LoadWeight(file, ts[i], spans[l], pinned[l], rows, cols).Ok?
    requires LentFor(file, left[l], block)
    ensures
      var w := LoadWeight(file, ts[i], spans[l], pinned[l], rows, cols).value;
      Row(w, block, r) == FileRow(file, ts[i], r, ByteSize(ts[i].layout, cols).value) != None
  {
    hide ByteSize, InBlock, SpanIs, Row, FileRow, PinnedWeight;
    var t, s := ts[i], spans[l];
    TensorInside(ts, i, l, s);
    if pinned[l] {
      LoadedRow(file, t, file[s.0..s.0 + s.1], s.0, rows, cols, r);
    } else {
      assert Part(file, file, 0);
      if block == None {
        LoadedRow(file, t, file, 0, rows, cols, r);
      } else {
        StreamedRow(file, t, block.value.0, block.value.1, rows, cols, r);
      }
    }
  }

  // ---------------------------------------------------------------- the ring

  /** A buffer of the ring: the block it holds, if its last read finished. */
  datatype Slot = Slot(block: Option<nat>, ready: bool, buf: seq<Byte>)

  const SLOTS: nat := 3

  /** The buffer is exactly the span's bytes. */
  predicate IsBlock(file: seq<Byte>, s: Span, buf: seq<Byte>) {
    |buf| == s.1 && (buf != [] ==> Part(file, buf, s.0))
  }

  /** A slot that says it is ready has its block's bytes. */
  predicate SlotOk(file: seq<Byte>, spans: seq<Span>, s: Slot) {
    && (s.ready <==> s.block.Some?)
    && (s.ready ==> s.block.value < |spans| && IsBlock(file, spans[s.block.value], s.buf))
  }

  predicate Hit(s: Slot, l: nat) { s.block == Some(l) && s.ready }

  /** One positioned read: some of what was asked for, nothing at the end of the file, or an error. */
  method ReadAt(file: seq<Byte>, offset: nat, want: nat) returns (r: Option<seq<Byte>>)
    ensures r.Some? && r.value != [] ==> |r.value| <= want && Part(file, r.value, offset)
    ensures r == Some([]) ==> want == 0 || offset >= |file|
  {
    var fails: bool := *;
    if fails {
      return None;
    }
    var some: nat := *;
    var most := Min(want, Max(0, |file| - offset));
    if most == 0 {
      return Some([]);
    }
    var n := if 1 <= some <= most then some else most;
    r := Some(file[offset..offset + n]);
  }

  /** What filling a slot with block `l` can leave. */
  predicate Filled(file: seq<Byte>, spans: seq<Span>, l: nat, before: Slot, after: Slot) {
    if l >= |spans| then after == before
    else
      && |after.buf| == spans[l].1
      && (after.ready ==> after.block == Some(l))
      && (!after.ready ==> after.block == None)
      && SlotOk(file, spans, after)
  }

  lemma PartGrows(file: seq<Byte>, a: seq<Byte>, b: seq<Byte>, base: nat)
    requires (a != [] ==> Part(file, a, base)) && (b != [] ==> Part(file, b, base + |a|))
    ensures a + b != [] ==> Part(file, a + b, base)
  {
    if b == [] {
      assert a + b == a;
    } else if a == [] {
      assert a + b == b;
    } else {
      assert file[base..base + |a| + |b|] == file[base..base + |a|] + file[base + |a|..base + |a| + |b|];
    }
  }

  /** Write a run of bytes into a buffer. */
  method CopyInto(buf: array<Byte>, at: nat, bytes: seq<Byte>)
    requires at + |bytes| <= buf.Length
    modifies buf
    ensures buf[..at + |bytes|] == old(buf[..at]) + bytes
  {
    for i := 0 to |bytes|
      invariant buf[..at + i] == old(buf[..at]) + bytes[..i]
    {
      buf[at + i] := bytes[i];
    }
  }

  /** `fill`: read after read until the span is in, the file ends or a read fails. */
  method Fill(file: seq<Byte>, spans: seq<Span>, l: nat, before: Slot) returns (after: Slot, failed: bool)
    ensures Filled(file, spans, l, before, after)
    ensures l < |spans| && !failed && spans[l].0 + spans[l].1 <= |file| ==> Hit(after, l)
  {
    hide Part;
    failed := false;
    if l >= |spans| {
      return before, false;
    }
    var (start, len) := spans[l];
    var buf := new Byte[len](_ => 0);
    var at := 0;
    while at < len
      invariant 0 <= at <= len && buf.Length == len
      invariant buf[..at] != [] ==> Part(file, buf[..at], start)
    {
      var got := ReadAt(file, start + at, len - at);
      if got.None? {
        return Slot(None, false, buf[..]), true;
      }
      if got.value == [] {
        break;
      }
      PartGrows(file, buf[..at], got.value, start);
      CopyInto(buf, at, got.value);
      at := at + |got.value|;
    }
    if at == len {
      assert buf[..at] == buf[..];
      after := Slot(Some(l), true, buf[..]);
    } else {
      after := Slot(None, false, buf[..]);
    }
  }

  /** A slot behind its lock, and the block someone is computing on, if anyone is. */
  datatype Cell = Cell(slot: Slot, holder: Option<nat>)

  /** A reader fetching ahead, the pass borrowing, the pass letting go. */
  datatype Event = Fetch(l: nat) | Borrow(l: nat) | Drop(l: nat)

  predicate Streams(spans: seq<Span>, l: nat) { l < |spans| && spans[l].1 > 0 }

  /** The lock is free, or the guard is there to drop. */
  predicate Enabled(cells: seq<Cell>, e: Event)
    requires |cells| == SLOTS
  {
    cells[e.l % SLOTS].holder == if e.Drop? then Some(e.l) else None
  }

  predicate NextCell(file: seq<Byte>, spans: seq<Span>, e: Event, c: Cell, d: Cell) {
    match e
    case Fetch(l) =>
      d.holder == None && if Streams(spans, l) && !Hit(c.slot, l) then Filled(file, spans, l, c.slot, d.slot) else d.slot == c.slot
    case Borrow(l) =>
      d.holder == Some(l) && if !Hit(c.slot, l) then Filled(file, spans, l, c.slot, d.slot) else d.slot == c.slot
    case Drop(_) =>
      d.holder == None && d.slot == c.slot
  }

  predicate Next(file: seq<Byte>, spans: seq<Span>, s: seq<Cell>, e: Event, t: seq<Cell>) {
    && |s| == |t| == SLOTS && Enabled(s, e)
    && NextCell(file, spans, e, s[e.l % SLOTS], t[e.l % SLOTS])
    && forall k :: 0 <= k < SLOTS && k != e.l % SLOTS ==> t[k] == s[k]
  }

  class BlockStreamer {
    const file: seq<Byte>
    const spans: seq<Span>
    var cells: seq<Cell>
    var hits: nat
    var inline: nat

    constructor (file: seq<Byte>, spans: seq<Span>)
      ensures this.file == file && this.spans == spans && Initial(cells) && hits + inline == 0
    {
      this.file := file;
      this.spans := spans;
      cells := [Cell(Slot(None, false, []), None), Cell(Slot(None, false, []), None), Cell(Slot(None, false, []), None)];
      hits, inline := 0, 0;
    }

    /** A reader's `fetch`, once it has the lock. */
    method Ahead(l: nat)
      requires |cells| == SLOTS && Enabled(cells, Fetch(l))
      modifies this`cells
      ensures Next(file, spans, old(cells), Fetch(l), cells)
    {
      hide Filled;
      if !Streams(spans, l) {
        return;
      }
      var k := l % SLOTS;
      if Hit(cells[k].slot, l) {
        return;
      }
      var slot, _ := Fill(file, spans, l, cells[k].slot);
      cells := cells[k := Cell(slot, None)];
    }

    /** `borrow`, once the pass has the lock: the bytes it will compute on. */
    method Lend(l: nat) returns (bytes: seq<Byte>)
      requires |cells| == SLOTS && Enabled(cells, Borrow(l))
      modifies this
      ensures Next(file, spans, old(cells), Borrow(l), cells) && bytes == cells[l % SLOTS].slot.buf
      ensures hits + inline == old(hits + inline) + 1
    {
      hide Filled;
      var k := l % SLOTS;
      var slot := cells[k].slot;
      if Hit(slot, l) {
        hits := hits + 1;
      } else {
        inline := inline + 1;
        var filled, _ := Fill(file, spans, l, slot);
        slot := filled;
      }
      cells := cells[k := Cell(slot, Some(l))];
      bytes := slot.buf;
    }

    /** The guard goes out of scope. */
    method Return(l: nat)
      requires |cells| == SLOTS && Enabled(cells, Drop(l))
      modifies this`cells
      ensures Next(file, spans, old(cells), Drop(l), cells)
    {
      var k := l % SLOTS;
      cells := cells[k := Cell(cells[k].slot, None)];
    }
  }

  // ---------------------------------------------------------------- every interleaving

  predicate Initial(cells: seq<Cell>) {
    |cells| == SLOTS && forall k :: 0 <= k < SLOTS ==> cells[k] == Cell(Slot(None, false, []), None)
  }

  /** Readers and the pass in any order the locks allow. */
  predicate Run(file: seq<Byte>, spans: seq<Span>, states: seq<seq<Cell>>, events: seq<Event>) {
    && |states| == |events| + 1 && Initial(states[0])
    && forall i :: 0 <= i < |events| ==> Next(file, spans, states[i], events[i], states[i + 1])
  }

  /** Ready slots are right, and a guard is on the slot of its block. */
  predicate CellOk(file: seq<Byte>, spans: seq<Span>, k: nat, c: Cell) {
    SlotOk(file, spans, c.slot) && (c.holder.Some? ==> c.holder.value % SLOTS == k)
  }

  predicate CellsOk(file: seq<Byte>, spans: seq<Span>, cells: seq<Cell>) {
    |cells| == SLOTS && forall k :: 0 <= k < SLOTS ==> CellOk(file, spans, k, cells[k])
  }

  lemma NextKeepsCells(file: seq<Byte>, spans: seq<Span>, s: seq<Cell>, e: Event, t: seq<Cell>)
    requires CellsOk(file, spans, s) && Next(file, spans, s, e, t)
    ensures CellsOk(file, spans, t)
  {
    hide IsBlock;
    var k := e.l % SLOTS;
    assert CellOk(file, spans, k, s[k]);
    assert CellOk(file, spans, k, t[k]);
    forall j | 0 <= j < SLOTS ensures CellOk(file, spans, j, t[j]) {
      assert CellOk(file, spans, j, s[j]);
    }
  }

  lemma {:induction false} RunKeepsCells(file: seq<Byte>, spans: seq<Span>, states: seq<seq<Cell>>, events: seq<Event>, n: nat)
    requires Run(file, spans, states, events) && n < |states|
    ensures CellsOk(file, spans, states[n])
  {
    hide Next;
    if n > 0 {
      RunKeepsCells(file, spans, states, events, n - 1);
      NextKeepsCells(file, spans, states[n - 1], events[n - 1], states[n]);
    }
  }

  /** The guard on slot `k` is not dropped between `i` and `j`. */
  predicate Guarded(events: seq<Event>, i: nat, j: nat, k: nat)
    requires i <= j <= |events|
  {
    forall m :: i <= m < j ==> !(events[m].Drop? && events[m].l % SLOTS == k)
  }

  /** Under every interleaving, what a guard lends does not change until it is dropped. */
  lemma {:induction false} GuardHolds(
    file: seq<Byte>, spans: seq<Span>, states: seq<seq<Cell>>, events: seq<Event>, i: nat, j: nat, k: nat
  )
    requires Run(file, spans, states, events) && i <= j <= |events| && k < SLOTS
    requires |states[i]| == SLOTS && states[i][k].holder.Some? && Guarded(events, i, j, k)
    ensures |states[j]| == SLOTS && states[j][k] == states[i][k]
    decreases j
  {
    hide Filled;
    if i < j {
      GuardHolds(file, spans, states, events, i, j - 1, k);
      assert Next(file, spans, states[j - 1], events[j - 1], states[j]);
    }
  }

  /** From a borrow whose read finished to the drop of its guard, the slot is exactly the block's bytes,
    * so every row of every tensor of the block is read as the file has it. */
  lemma BorrowedBytes(
    file: seq<Byte>, spans: seq<Span>, states: seq<seq<Cell>>, events: seq<Event>, i: nat, j: nat, l: nat
  )
    requires Run(file, spans, states, events) && i < j <= |events| && events[i] == Borrow(l)
    requires Guarded(events, i + 1, j, l % SLOTS) && |states[i + 1]| == SLOTS && Hit(states[i + 1][l % SLOTS].slot, l)
    ensures |states[j]| == SLOTS && l < |spans| && IsBlock(file, spans[l], states[j][l % SLOTS].slot.buf)
    ensures spans[l].1 > 0 ==> LentFor(file, spans[l], Some((states[j][l % SLOTS].slot.buf, spans[l].0)))
  {
    var k := l % SLOTS;
    assert Next(file, spans, states[i], events[i], states[i + 1]);
    RunKeepsCells(file, spans, states, events, i + 1);
    RunKeepsCells(file, spans, states, events, i);
    assert CellOk(file, spans, k, states[i][k]) && CellOk(file, spans, k, states[i + 1][k]);
    GuardHolds(file, spans, states, events, i + 1, j, k);
  }
}
