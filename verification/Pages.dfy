/** The paged KV cache as a value: pages in memory, pages on disk, and the plain list of
  * key/value pairs that both together stand for. */
module Pages {
  import opened Basics
  import opened Utf8
  import opened Bytes

  type Vector = seq<Word>

  datatype Pair = Pair(key: Vector, value: Vector)

  /** One page: up to a block's worth of contiguous positions, keys and values row after row. */
  datatype KvBlock = KvBlock(keys: seq<Word>, values: seq<Word>, filled: nat)

  /** A spill file's name. */
  datatype Path = Path(seqId: nat, layer: nat, block: nat)

  type Files = map<Path, seq<Byte>>

  /** A layer's dimensions and bounds; `hasStorage` is whether there is anywhere to spill. */
  datatype Shape = Shape(
    d: nat, bs: nat, maxPositions: nat, maxResident: nat, hasStorage: bool, seqId: nat, layer: nat)
  {
    predicate Valid() { 0 < bs < 0x1_0000_0000 && maxResident >= 1 }

    function PathOf(b: nat): Path { Path(seqId, layer, b) }
  }

  datatype Book = Book(resident: map<nat, KvBlock>, spilled: map<nat, Path>, len: nat)

  predicate Rows(d: nat, seg: seq<Pair>) {
    forall i :: 0 <= i < |seg| ==> |seg[i].key| == d && |seg[i].value| == d
  }

  function Keys(seg: seq<Pair>): seq<Word> {
    if seg == [] then [] else Keys(seg[..|seg| - 1]) + seg[|seg| - 1].key
  }

  function Values(seg: seq<Pair>): seq<Word> {
    if seg == [] then [] else Values(seg[..|seg| - 1]) + seg[|seg| - 1].value
  }

  lemma {:induction false} RowLengths(d: nat, seg: seq<Pair>)
    requires Rows(d, seg)
    ensures |Keys(seg)| == |seg| * d && |Values(seg)| == |seg| * d
  {
    if seg != [] {
      RowLengths(d, seg[..|seg| - 1]);
      assert |seg| * d == (|seg| - 1) * d + d;
    }
  }

  lemma AddRow(seg: seq<Pair>, x: Pair)
    ensures Keys(seg + [x]) == Keys(seg) + x.key && Values(seg + [x]) == Values(seg) + x.value
  {
    assert (seg + [x])[..|seg|] == seg;
  }

  /** Cutting the flat rows at row `k` is cutting the list at `k`. */
  lemma {:induction false} CutRows(d: nat, seg: seq<Pair>, k: nat)
    requires Rows(d, seg) && k <= |seg|
    ensures k * d <= |Keys(seg)| == |Values(seg)|
    ensures Keys(seg)[..k * d] == Keys(seg[..k]) && Values(seg)[..k * d] == Values(seg[..k])
    decreases |seg|
  {
    RowLengths(d, seg);
    RowLengths(d, seg[..k]);
    if k == |seg| {
      assert seg[..k] == seg;
    } else {
      var rest := seg[..|seg| - 1];
      CutRows(d, rest, k);
      assert rest[..k] == seg[..k];
      RowLengths(d, rest);
      assert Keys(seg)[..k * d] == Keys(rest)[..k * d];
      assert Values(seg)[..k * d] == Values(rest)[..k * d];
    }
  }

  lemma LastPart<T>(a: seq<T>, p: nat, q: nat, front: seq<T>, row: seq<T>)
    requires p <= q <= |a| && a[..q] == front + row && |front| == p
    ensures a[p..q] == row
  {
    assert a[p..q] == a[..q][p..];
  }

  /** Row `k` of the flat rows is the list's element `k`. */
  lemma RowAt(d: nat, seg: seq<Pair>, k: nat)
    requires Rows(d, seg) && k < |seg|
    ensures k * d + d <= |Keys(seg)| == |Values(seg)|
    ensures Keys(seg)[k * d..k * d + d] == seg[k].key && Values(seg)[k * d..k * d + d] == seg[k].value
  {
    hide Keys, Values;
    CutRows(d, seg, k + 1);
    assert (k + 1) * d == k * d + d;
    var front, end := seg[..k], k * d + d;
    assert seg[..k + 1] == front + [seg[k]];
    AddRow(front, seg[k]);
    RowLengths(d, front);
    LastPart(Keys(seg), k * d, end, Keys(front), seg[k].key);
    LastPart(Values(seg), k * d, end, Values(front), seg[k].value);
  }

  // ---------------------------------------------------------------- blocks

  /** Block `b` covers positions `Start(b)` up to `Start(b + 1)`. */
  function Start(sh: Shape, b: nat): nat { b * sh.bs }

  predicate HasBlock(sh: Shape, len: nat, b: nat) { Start(sh, b) < len }

  predicate Complete(sh: Shape, len: nat, b: nat) { Start(sh, b + 1) <= len }

  lemma StartStep(sh: Shape, a: nat, b: nat)
    requires sh.Valid()
    ensures Start(sh, b + 1) == Start(sh, b) + sh.bs
    ensures a < b ==> Start(sh, a + 1) <= Start(sh, b)
    ensures a <= b ==> Start(sh, a) <= Start(sh, b)
    ensures Start(sh, a) < Start(sh, b) ==> a < b
  {
    if a < b {
      assert (a + 1) * sh.bs <= b * sh.bs;
    } else {
      assert b * sh.bs <= a * sh.bs;
    }
    assert (b + 1) * sh.bs == b * sh.bs + sh.bs;
  }

  /** Position `pos` lies in block `pos / bs`, at row `pos % bs`. */
  lemma Locate(sh: Shape, pos: nat)
    requires sh.Valid()
    ensures var b := pos / sh.bs; Start(sh, b) <= pos < Start(sh, b + 1) && pos == Start(sh, b) + pos % sh.bs
  {
    StartStep(sh, 0, pos / sh.bs);
    assert pos == (pos / sh.bs) * sh.bs + pos % sh.bs;
  }

  function Segment(sh: Shape, items: seq<Pair>, b: nat): seq<Pair>
    requires sh.Valid() && HasBlock(sh, |items|, b)
  {
    StartStep(sh, b, b);
    items[Start(sh, b)..Min(Start(sh, b + 1), |items|)]
  }

  function Block(sh: Shape, items: seq<Pair>, b: nat): KvBlock
    requires sh.Valid() && HasBlock(sh, |items|, b)
  {
    var seg := Segment(sh, items, b);
    KvBlock(Keys(seg), Values(seg), |seg|)
  }

  function EncodeBlock(block: KvBlock): seq<Byte> {
    Le(block.filled, 8) + WordsToBytes(block.keys + block.values)
  }

  /** What a spill file decodes to, or nothing if it is not one. */
  function DecodeBlock(sh: Shape, bytes: seq<Byte>): Option<KvBlock> {
    if |bytes| < 8 then None
    else
      var filled := FromLe(bytes[..8]);
      if |bytes| != 8 + filled * sh.d * 2 * 4 || filled > sh.bs then None
      else
        assert |bytes[8..]| == 4 * (filled * sh.d * 2);
        var vals := BytesToWords(bytes[8..]);
        Some(KvBlock(vals[..filled * sh.d], vals[filled * sh.d..], filled))
  }

  lemma BlockRoundTrip(sh: Shape, block: KvBlock)
    requires sh.Valid() && block.filled <= sh.bs
    requires |block.keys| == block.filled * sh.d == |block.values|
    ensures DecodeBlock(sh, EncodeBlock(block)) == Some(block)
  {
    var bytes := EncodeBlock(block);
    Widths();
    LeRoundTrip(block.filled, 8);
    assert bytes[..8] == Le(block.filled, 8);
    var words := block.keys + block.values;
    assert bytes[8..] == WordsToBytes(words);
    WordsRoundTrip(words);
    assert words[..block.filled * sh.d] == block.keys && words[block.filled * sh.d..] == block.values;
    assert |words| == block.filled * sh.d * 2;
  }

  lemma BlockShape(sh: Shape, items: seq<Pair>, b: nat)
    requires sh.Valid() && HasBlock(sh, |items|, b) && Rows(sh.d, items)
    ensures var k := Block(sh, items, b); k.filled <= sh.bs && |k.keys| == k.filled * sh.d == |k.values|
    ensures DecodeBlock(sh, EncodeBlock(Block(sh, items, b))) == Some(Block(sh, items, b))
  {
    StartStep(sh, b, b);
    RowLengths(sh.d, Segment(sh, items, b));
    BlockRoundTrip(sh, Block(sh, items, b));
  }

  // ---------------------------------------------------------------- the refinement

  ghost predicate ResidentOk(sh: Shape, book: Book, items: seq<Pair>, b: nat)
    requires sh.Valid()
  {
    b in book.resident ==> HasBlock(sh, |items|, b) && b !in book.spilled && book.resident[b] == Block(sh, items, b)
  }

  ghost predicate SpilledOk(sh: Shape, files: Files, book: Book, items: seq<Pair>, b: nat)
    requires sh.Valid()
  {
    b in book.spilled ==>
      && HasBlock(sh, |items|, b) && Complete(sh, |items|, b)
      && book.spilled[b] == sh.PathOf(b) && sh.PathOf(b) in files
      && files[sh.PathOf(b)] == EncodeBlock(Block(sh, items, b))
  }

  predicate Covered(sh: Shape, book: Book, b: nat) {
    HasBlock(sh, book.len, b) ==> b in book.resident || b in book.spilled
  }

  /** The pages stand for `items`: every block is in memory or on disk and nowhere twice, what is
    * in memory and what the files decode to is that block of the list, and only whole blocks are
    * on disk. */
  ghost predicate Stands(sh: Shape, files: Files, book: Book, items: seq<Pair>) {
    && sh.Valid() && |items| == book.len <= sh.maxPositions && Rows(sh.d, items)
    && (forall b :: ResidentOk(sh, book, items, b))
    && (forall b :: SpilledOk(sh, files, book, items, b))
    && (forall b :: Covered(sh, book, b))
    && (book.spilled != map[] ==> sh.hasStorage && sh.d > 0)
  }

  // ---------------------------------------------------------------- append

  function Grown(sh: Shape, book: Book, x: Pair): Book
    requires sh.Valid()
  {
    var idx := book.len / sh.bs;
    var old' := if idx in book.resident then book.resident[idx] else KvBlock([], [], 0);
    Book(book.resident[idx := KvBlock(old'.keys + x.key, old'.values + x.value, old'.filled + 1)], book.spilled, book.len + 1)
  }

  lemma SameBlock(sh: Shape, items: seq<Pair>, x: Pair, b: nat)
    requires sh.Valid() && HasBlock(sh, |items|, b) && b != |items| / sh.bs
    ensures HasBlock(sh, |items| + 1, b) && Block(sh, items + [x], b) == Block(sh, items, b)
    ensures Complete(sh, |items|, b)
  {
    var idx := |items| / sh.bs;
    Locate(sh, |items|);
    StartStep(sh, b, idx);
    StartStep(sh, idx + 1, b);
    assert Segment(sh, items + [x], b) == Segment(sh, items, b);
  }

  lemma OneRow(x: Pair)
    ensures Keys([x]) == x.key && Values([x]) == x.value
  {
    assert [] + [x] == [x];
    AddRow([], x);
    assert Keys([]) + x.key == x.key && Values([]) + x.value == x.value;
  }

  lemma SliceMore<T>(a: seq<T>, x: T, s: nat)
    requires s <= |a|
    ensures (a + [x])[s..|a| + 1] == a[s..|a|] + [x]
  {
  }

  lemma SliceCut<T>(a: seq<T>, s: nat, e: nat, m: nat)
    requires s <= m <= e <= |a|
    ensures a[..m][s..m] == a[s..e][..m - s]
  {
  }

  lemma NewRow(sh: Shape, items: seq<Pair>, x: Pair)
    requires sh.Valid()
    ensures
      var idx, more := |items| / sh.bs, items + [x];
      && |more| == |items| + 1 && HasBlock(sh, |more|, idx)
      && Block(sh, more, idx) ==
          if HasBlock(sh, |items|, idx) then
            var o := Block(sh, items, idx); KvBlock(o.keys + x.key, o.values + x.value, o.filled + 1)
          else KvBlock(x.key, x.value, 1)
  {
    hide Keys, Values;
    var idx := |items| / sh.bs;
    Locate(sh, |items|);
    StartStep(sh, idx, idx);
    if HasBlock(sh, |items|, idx) {
      SliceMore(items, x, Start(sh, idx));
      AddRow(Segment(sh, items, idx), x);
    } else {
      SliceMore(items, x, |items|);
      assert items[|items|..|items|] == [];
      OneRow(x);
      assert Segment(sh, items + [x], idx) == [x];
    }
  }

  lemma AppendStands(sh: Shape, files: Files, book: Book, items: seq<Pair>, x: Pair)
    requires Stands(sh, files, book, items) && book.len < sh.maxPositions
    requires |x.key| == sh.d == |x.value|
    ensures Stands(sh, files, Grown(sh, book, x), items + [x])
  {
    var idx := book.len / sh.bs;
    var book' := Grown(sh, book, x);
    Locate(sh, |items|);
    assert SpilledOk(sh, files, book, items, idx);
    assert ResidentOk(sh, book, items, idx);
    assert Covered(sh, book, idx);
    NewRow(sh, items, x);
    forall b
      ensures ResidentOk(sh, book', items + [x], b)
    {
      assert ResidentOk(sh, book, items, b);
      if b in book.resident && b != idx {
        SameBlock(sh, items, x, b);
      }
    }
    forall b
      ensures SpilledOk(sh, files, book', items + [x], b)
    {
      assert SpilledOk(sh, files, book, items, b);
      if b in book.spilled {
        StartStep(sh, idx, b);
        SameBlock(sh, items, x, b);
      }
    }
    forall b
      ensures Covered(sh, book', b)
    {
      assert Covered(sh, book, b);
      StartStep(sh, b, idx);
      StartStep(sh, idx, b);
    }
  }

  // ---------------------------------------------------------------- spill and reload

  function SpilledBook(sh: Shape, book: Book, b: nat): Book {
    Book(book.resident - {b}, book.spilled[b := sh.PathOf(b)], book.len)
  }

  function ReloadedBook(book: Book, b: nat, block: KvBlock): Book {
    Book(book.resident[b := block], book.spilled - {b}, book.len)
  }

  lemma SpillStands(sh: Shape, files: Files, book: Book, items: seq<Pair>, b: nat)
    requires Stands(sh, files, book, items) && sh.hasStorage && sh.d > 0
    requires b in book.resident && Complete(sh, book.len, b)
    ensures Stands(sh, files[sh.PathOf(b) := EncodeBlock(book.resident[b])], SpilledBook(sh, book, b), items)
  {
    var files', book' := files[sh.PathOf(b) := EncodeBlock(book.resident[b])], SpilledBook(sh, book, b);
    assert ResidentOk(sh, book, items, b);
    forall k
      ensures ResidentOk(sh, book', items, k) && SpilledOk(sh, files', book', items, k)
    {
      assert ResidentOk(sh, book, items, k) && SpilledOk(sh, files, book, items, k);
    }
    forall k
      ensures Covered(sh, book', k)
    {
      assert Covered(sh, book, k);
    }
  }

  /** A spilled block's file decodes to the block it was: reloading is the identity. */
  lemma ReloadStands(sh: Shape, files: Files, book: Book, items: seq<Pair>, b: nat)
    requires Stands(sh, files, book, items) && b in book.spilled
    ensures book.spilled[b] in files && DecodeBlock(sh, files[book.spilled[b]]).Some?
    ensures Stands(sh, files, ReloadedBook(book, b, DecodeBlock(sh, files[book.spilled[b]]).value), items)
  {
    assert SpilledOk(sh, files, book, items, b);
    BlockShape(sh, items, b);
    var book' := ReloadedBook(book, b, DecodeBlock(sh, files[book.spilled[b]]).value);
    forall k
      ensures ResidentOk(sh, book', items, k) && SpilledOk(sh, files, book', items, k)
    {
      assert ResidentOk(sh, book, items, k) && SpilledOk(sh, files, book, items, k);
    }
    forall k
      ensures Covered(sh, book', k)
    {
      assert Covered(sh, book, k);
    }
  }

  /** The block being written to is the only one that may be incomplete. */
  lemma OthersComplete(sh: Shape, files: Files, book: Book, items: seq<Pair>, current: nat, b: nat)
    requires Stands(sh, files, book, items) && b in book.resident && b != current
    requires book.len > 0 && current == (book.len - 1) / sh.bs
    ensures Complete(sh, book.len, b)
  {
    assert ResidentOk(sh, book, items, b);
    Locate(sh, book.len - 1);
    StartStep(sh, b, current);
    StartStep(sh, current + 1, b);
  }

  lemma ResidentInRange(sh: Shape, files: Files, book: Book, items: seq<Pair>, b: nat)
    requires Stands(sh, files, book, items) && b in book.resident
    ensures b <= book.len / sh.bs
  {
    assert ResidentOk(sh, book, items, b);
    Locate(sh, book.len);
    StartStep(sh, book.len / sh.bs + 1, b);
  }

  // ---------------------------------------------------------------- reading

  /** A row read from a resident page is the list's element at that position. */
  lemma ReadRow(sh: Shape, files: Files, book: Book, items: seq<Pair>, pos: nat)
    requires Stands(sh, files, book, items) && pos < book.len && pos / sh.bs in book.resident
    ensures
      var off, block := pos % sh.bs * sh.d, book.resident[pos / sh.bs];
      && off + sh.d <= |block.keys| && off + sh.d <= |block.values|
      && block.keys[off..off + sh.d] == items[pos].key && block.values[off..off + sh.d] == items[pos].value
  {
    var b := pos / sh.bs;
    Locate(sh, pos);
    assert ResidentOk(sh, book, items, b);
    var seg := Segment(sh, items, b);
    assert seg[pos % sh.bs] == items[pos];
    RowAt(sh.d, seg, pos % sh.bs);
  }

  // ---------------------------------------------------------------- truncate

  /** Whether a cut at `len` lands inside a block that is on disk. */
  predicate CutsSpilled(sh: Shape, book: Book, len: nat)
    requires sh.Valid()
  {
    len % sh.bs > 0 && len / sh.bs in book.spilled
  }

  predicate Kept(sh: Shape, len: nat, b: nat)
    requires sh.Valid()
  {
    b < len / sh.bs || (b == len / sh.bs && len % sh.bs > 0)
  }

  function CutBlock(sh: Shape, block: KvBlock, keep: nat): KvBlock {
    KvBlock(block.keys[..Min(keep * sh.d, |block.keys|)], block.values[..Min(keep * sh.d, |block.values|)], keep)
  }

  function CutBook(sh: Shape, book: Book, len: nat): Book
    requires sh.Valid()
  {
    var resident := map b | b in book.resident && Kept(sh, len, b) :: book.resident[b];
    var cut, keep := len / sh.bs, len % sh.bs;
    Book(if keep > 0 && cut in resident then resident[cut := CutBlock(sh, resident[cut], keep)] else resident,
         map b | b in book.spilled && Kept(sh, len, b) :: book.spilled[b], len)
  }

  lemma KeptIsHas(sh: Shape, len: nat, b: nat)
    requires sh.Valid()
    ensures Kept(sh, len, b) <==> HasBlock(sh, len, b)
  {
    Locate(sh, len);
    StartStep(sh, b, len / sh.bs);
    StartStep(sh, len / sh.bs, b);
  }

  lemma CutOneBlock(sh: Shape, items: seq<Pair>, len: nat, b: nat)
    requires sh.Valid() && len <= |items| && HasBlock(sh, len, b) && Rows(sh.d, items)
    ensures HasBlock(sh, |items|, b)
    ensures b < len / sh.bs ==> Block(sh, items[..len], b) == Block(sh, items, b) && Complete(sh, len, b)
    ensures b == len / sh.bs ==> Block(sh, items[..len], b) == CutBlock(sh, Block(sh, items, b), len % sh.bs)
  {
    Locate(sh, len);
    StartStep(sh, b, len / sh.bs);
    StartStep(sh, b, b);
    if b < len / sh.bs {
      assert Segment(sh, items[..len], b) == Segment(sh, items, b);
    } else if b == len / sh.bs {
      var seg, keep := Segment(sh, items, b), len % sh.bs;
      SliceCut(items, Start(sh, b), Min(Start(sh, b + 1), |items|), len);
      assert Segment(sh, items[..len], b) == seg[..keep];
      CutRows(sh.d, seg, keep);
      RowLengths(sh.d, seg[..keep]);
    }
  }

  /** The cut book stands for the cut list, whatever happened to files it no longer names. */
  lemma CutStands(sh: Shape, files: Files, book: Book, items: seq<Pair>, len: nat, files': Files)
    requires Stands(sh, files, book, items) && len < book.len && !CutsSpilled(sh, book, len)
    requires forall b :: b in book.spilled && Kept(sh, len, b) && sh.PathOf(b) in files ==>
      sh.PathOf(b) in files' && files'[sh.PathOf(b)] == files[sh.PathOf(b)]
    ensures Stands(sh, files', CutBook(sh, book, len), items[..len])
  {
    var book' := CutBook(sh, book, len);
    forall b
      ensures ResidentOk(sh, book', items[..len], b) && SpilledOk(sh, files', book', items[..len], b)
    {
      CutEachBlock(sh, files, book, items, len, files', b);
    }
    forall b
      ensures Covered(sh, book', b)
    {
      KeptIsHas(sh, len, b);
      assert Covered(sh, book, b);
    }
  }

  lemma CutEachBlock(sh: Shape, files: Files, book: Book, items: seq<Pair>, len: nat, files': Files, b: nat)
    requires Stands(sh, files, book, items) && len < book.len && !CutsSpilled(sh, book, len)
    requires b in book.spilled && Kept(sh, len, b) && sh.PathOf(b) in files ==>
      sh.PathOf(b) in files' && files'[sh.PathOf(b)] == files[sh.PathOf(b)]
    ensures ResidentOk(sh, CutBook(sh, book, len), items[..len], b)
    ensures SpilledOk(sh, files', CutBook(sh, book, len), items[..len], b)
  {
    KeptIsHas(sh, len, b);
    assert ResidentOk(sh, book, items, b) && SpilledOk(sh, files, book, items, b);
    if Kept(sh, len, b) {
      CutOneBlock(sh, items, len, b);
    }
  }

  // ---------------------------------------------------------------- other sequences

  /** The same file, or its absence, under `p`. */
  predicate SameFile(files: Files, files': Files, p: Path) {
    (p in files <==> p in files') && (p in files ==> files'[p] == files[p])
  }

  /** Only files of layer `layer` of sequence `seqId` may differ. */
  ghost predicate OwnOnly(files: Files, files': Files, seqId: nat, layer: nat) {
    forall p: Path :: p.seqId != seqId || p.layer != layer ==> SameFile(files, files', p)
  }

  /** A cache of another sequence, or of another layer, keeps standing. */
  lemma OthersStand(files: Files, files': Files, seqId: nat, layer: nat, sh: Shape, book: Book, items: seq<Pair>)
    requires OwnOnly(files, files', seqId, layer) && (sh.seqId != seqId || sh.layer != layer)
    requires Stands(sh, files, book, items)
    ensures Stands(sh, files', book, items)
  {
    forall p | p in files && p.seqId == sh.seqId && p.layer == sh.layer
      ensures p in files' && files'[p] == files[p]
    {
      assert SameFile(files, files', p);
    }
    ForeignFiles(sh, files, files', book, items);
  }

  /** Changes to files under other names leave a cache standing. */
  lemma ForeignFiles(sh: Shape, files: Files, files': Files, book: Book, items: seq<Pair>)
    requires Stands(sh, files, book, items)
    requires forall p :: p in files && p.seqId == sh.seqId && p.layer == sh.layer ==> p in files' && files'[p] == files[p]
    ensures Stands(sh, files', book, items)
  {
    forall b
      ensures SpilledOk(sh, files', book, items, b)
    {
      assert SpilledOk(sh, files, book, items, b);
    }
  }
}
