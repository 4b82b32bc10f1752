/** One layer's paged KV cache, with real spill and reload. Under every interleaving of its
  * operations, disk failures included, it stands for a plain list of key/value pairs. */
module KvCache {
  import opened Basics
  import opened Utf8
  import opened Pages

  datatype Error = Mismatch | Exhausted | Io | NeverSpilled | NoStorage | Malformed | WouldCutSpilled | Spilled

  /** A store of named files. Any access may fail, and a failed access changes nothing. */
  class Storage {
    var files: Files

    /** How many reads and writes have failed. */
    ghost var failures: nat

    constructor ()
      ensures files == map[] && failures == 0
    {
      files := map[];
      failures := 0;
    }

    method Write(path: Path, bytes: seq<Byte>) returns (ok: bool)
      modifies this
      ensures files == if ok then old(files)[path := bytes] else old(files)
      ensures failures == if ok then old(failures) else old(failures) + 1
    {
      ok := *;
      if ok {
        files := files[path := bytes];
      } else {
        failures := failures + 1;
      }
    }

    method Read(path: Path) returns (r: Result<seq<Byte>, Error>)
      modifies this`failures
      ensures r.Ok? ==> path in files && r.value == files[path] && failures == old(failures)
      ensures r.Err? && path in files ==> failures == old(failures) + 1
    {
      var ok: bool := *;
      r := if ok && path in files then Ok(files[path]) else Err(Io);
      if !ok {
        failures := failures + 1;
      }
    }

    method Remove(path: Path)
      modifies this`files
      ensures files == old(files) || files == old(files) - {path}
    {
      var ok: bool := *;
      if ok {
        files := files - {path};
      }
    }
  }

  class KVCacheState {
    const kvDim: nat
    const blockSize: nat
    const maxPositions: nat
    const maxResident: nat
    const window: Option<nat>
    const storage: Storage
    const hasStorage: bool
    const layer: nat
    var seqId: nat
    var resident: map<nat, KvBlock>
    var spilled: map<nat, Path>
    var len: nat
    var spills: nat
    var reloads: nat

    /** The list of key/value pairs this cache stands for. */
    ghost var items: seq<Pair>

    constructor (
      kvDim: nat, blockSize: nat, maxPositions: nat, maxResident: nat, window: Option<nat>,
      storage: Storage, hasStorage: bool, seqId: nat, layer: nat)
      requires blockSize < 0x1_0000_0000
      ensures Valid() && items == [] && this.seqId == seqId && this.layer == layer && this.storage == storage
      ensures this.kvDim == kvDim && this.blockSize == Max(blockSize, 1) && this.maxPositions == Max(maxPositions, 1)
      ensures this.maxResident == Max(maxResident, 1) && this.window == window && this.hasStorage == hasStorage
    {
      this.kvDim := kvDim;
      this.blockSize := Max(blockSize, 1);
      this.maxPositions := Max(maxPositions, 1);
      this.maxResident := Max(maxResident, 1);
      this.window := window;
      this.storage := storage;
      this.hasStorage := hasStorage;
      this.seqId := seqId;
      this.layer := layer;
      resident, spilled, len, spills, reloads := map[], map[], 0, 0, 0;
      items := [];
    }

    function Sh(): Shape
      reads `seqId
    {
      Shape(kvDim, blockSize, maxPositions, maxResident, hasStorage, seqId, layer)
    }

    ghost function View(): Book
      reads `resident, `spilled, `len
    {
      Book(resident, spilled, len)
    }

    ghost predicate Valid()
      reads this, storage
    {
      Stands(Sh(), storage.files, View(), items)
    }

    function HasSpill(): bool
      reads `spilled
    {
      spilled != map[]
    }

    /** The oldest position attention may attend to. */
    function AttentionStart(): nat
      reads `len
    {
      match window
      case Some(w) => Max(len - w, 0)
      case None => 0
    }

    /** Append the next position's vectors. A failed spill is reported, but the position has
      * already been added. */
    method Append(key: Vector, value: Vector) returns (r: Result<(), Error>)
      requires Valid()
      modifies this`resident, this`spilled, this`len, this`spills, this`items, storage
      ensures Valid() && OwnOnly(old(storage.files), storage.files, seqId, layer)
      ensures
        if |key| != kvDim || |value| != kvDim then r == Err(Mismatch) && items == old(items)
        else if old(len) >= maxPositions then r == Err(Exhausted) && items == old(items)
        else items == old(items) + [Pair(key, value)] && (r.Err? ==> r.error == Io) && (r.Err? <==> storage.failures > old(storage.failures))
      ensures storage.failures >= old(storage.failures)
      ensures r.Ok? && hasStorage && kvDim > 0 ==> |resident| <= maxResident
      ensures r.Ok? && blockSize > 0 ==> old(len) / blockSize in resident
    {
      if |key| != kvDim || |value| != kvDim {
        return Err(Mismatch);
      }
      if len >= maxPositions {
        return Err(Exhausted);
      }
      hide Stands;
      ghost var book := View();
      var idx := len / blockSize;
      AppendStands(Sh(), storage.files, book, items, Pair(key, value));
      var block := if idx in resident then resident[idx] else KvBlock([], [], 0);
      resident := resident[idx := KvBlock(block.keys + key, block.values + value, block.filled + 1)];
      len := len + 1;
      items := items + [Pair(key, value)];
      assert View() == Grown(Sh(), book, Pair(key, value));
      r := EnforceResidency(idx);
    }

    /** The oldest block in memory other than `current`. */
    method OldestBut(current: nat) returns (victim: Option<nat>)
      requires Valid()
      ensures victim.Some? ==> victim.value in resident && victim.value != current
      ensures victim.Some? ==> forall b :: b in resident && b < victim.value ==> b == current
      ensures victim.None? ==> forall b :: b in resident ==> b == current
    {
      var b := 0;
      forall k | k in resident ensures k <= len / blockSize {
        ResidentInRange(Sh(), storage.files, View(), items, k);
      }
      while b <= len / blockSize
        invariant forall k :: k in resident && k < b ==> k == current
      {
        if b in resident && b != current {
          return Some(b);
        }
        b := b + 1;
      }
      return None;
    }

    /** Spill oldest blocks until the residency budget is met, never the one being written. */
    method EnforceResidency(current: nat) returns (r: Result<(), Error>)
      requires Valid() && len > 0 && current == (len - 1) / blockSize
      modifies this`resident, this`spilled, this`spills, storage
      ensures Valid() && OwnOnly(old(storage.files), storage.files, seqId, layer) && (r.Err? ==> r.error == Io)
      ensures r.Ok? && hasStorage && kvDim > 0 ==> |resident| <= maxResident
      ensures current in old(resident) ==> current in resident
      ensures storage.failures >= old(storage.failures) && (r.Err? <==> storage.failures > old(storage.failures))
      ensures !hasStorage || kvDim == 0 || old(|resident|) <= maxResident ==> r.Ok? && resident == old(resident) && spilled == old(spilled)
    {
      if kvDim == 0 || !hasStorage {
        return Ok(());
      }
      assert Sh().Valid();
      hide Stands;
      while |resident| > maxResident
        invariant Valid() && OwnOnly(old(storage.files), storage.files, seqId, layer)
        invariant current in old(resident) ==> current in resident
        invariant storage.failures == old(storage.failures)
        invariant old(|resident|) <= maxResident ==> resident == old(resident) && spilled == old(spilled)
        decreases |resident|
      {
        ghost var before := storage.files;
        var victim := OldestBut(current);
        if victim.None? {
          OnlyOne(resident, current);
          break;
        }
        var ok := SpillOne(victim.value, current);
        OwnOnlyTrans(old(storage.files), before, storage.files, seqId, layer);
        if !ok {
          return Err(Io);
        }
      }
      return Ok(());
    }

    /** Write one block out. If the write fails the block stays in memory. */
    method SpillOne(victim: nat, ghost current: nat) returns (ok: bool)
      requires Valid() && hasStorage && kvDim > 0 && victim in resident && victim != current
      requires len > 0 && current == (len - 1) / blockSize
      modifies this`resident, this`spilled, this`spills, storage
      ensures Valid()
      ensures OwnOnly(old(storage.files), storage.files, seqId, layer)
      ensures ok ==> resident == old(resident) - {victim} && victim in spilled
      ensures !ok ==> resident == old(resident) && spilled == old(spilled)
      ensures storage.failures == old(storage.failures) + if ok then 0 else 1
    {
      hide Stands;
      ghost var book := View();
      OthersComplete(Sh(), storage.files, book, items, current, victim);
      SpillStands'(victim);
      var block := resident[victim];
      var path := Sh().PathOf(victim);
      ok := storage.Write(path, EncodeBlock(block));
      if !ok {
        return;
      }
      resident := resident - {victim};
      spilled := spilled[victim := path];
      spills := spills + 1;
      assert View() == SpilledBook(Sh(), book, victim);
    }

    lemma SpillStands'(b: nat)
      requires Valid() && hasStorage && kvDim > 0 && b in resident && Complete(Sh(), len, b)
      ensures Stands(Sh(), storage.files[Sh().PathOf(b) := EncodeBlock(resident[b])], SpilledBook(Sh(), View(), b), items)
    {
      SpillStands(Sh(), storage.files, View(), items, b);
    }

    /** Read one block back. The file stays where it is; the page is the block it was. */
    method Reload(b: nat) returns (r: Result<(), Error>)
      requires Valid()
      modifies this`resident, this`spilled, this`reloads, storage`failures
      ensures Valid()
      ensures r.Ok? <==> b in old(spilled) && b !in spilled
      ensures r.Ok? ==> b in resident && resident.Keys == old(resident.Keys) + {b} && spilled == old(spilled) - {b}
      ensures r.Err? ==> resident == old(resident) && spilled == old(spilled)
      ensures storage.failures == old(storage.failures) + if b in old(spilled) && r.Err? then 1 else 0
      ensures b in old(spilled) && r.Err? ==> r.error == Io
    {
      if b !in spilled {
        return Err(NeverSpilled);
      }
      SpilledNeedsStorage(b);
      if !hasStorage {
        return Err(NoStorage);
      }
      hide Stands;
      ghost var book := View();
      ReloadStands(Sh(), storage.files, book, items, b);
      var bytes := storage.Read(spilled[b]);
      if bytes.Err? {
        return Err(Io);
      }
      var block := DecodeBlock(Sh(), bytes.value);
      if block.None? {
        return Err(Malformed);
      }
      resident := resident[b := block.value];
      spilled := spilled - {b};
      reloads := reloads + 1;
      assert View() == ReloadedBook(book, b, block.value);
      return Ok(());
    }

    /** Bring every block covering `start..end` into memory. If it succeeds, every read in that
      * range gives the list's element. */
    method EnsureResident(start: nat, end: nat) returns (r: Result<(), Error>)
      requires Valid()
      modifies this`resident, this`spilled, this`reloads, storage`failures
      ensures Valid()
      ensures r.Ok? ==> forall pos :: start <= pos < end && pos < len ==> pos / blockSize in resident
      ensures r.Ok? && blockSize > 0 ==> forall pos :: start <= pos < end ==> pos / blockSize !in spilled
      ensures blockSize > 0 ==> forall b :: b in old(spilled) && b < start / blockSize ==> b in spilled
      ensures storage.failures >= old(storage.failures) && (r.Err? <==> storage.failures > old(storage.failures))
      ensures r.Err? ==> r.error == Io
      ensures old(spilled) == map[] ==> r.Ok? && resident == old(resident) && spilled == old(spilled)
    {
      if start >= end {
        return Ok(());
      }
      assert Sh().Valid();
      var b := start / blockSize;
      while b <= (end - 1) / blockSize
        invariant Valid() && start / blockSize <= b
        invariant forall k :: start / blockSize <= k < b ==> k !in spilled
        invariant forall k :: k in old(spilled) && k < start / blockSize ==> k in spilled
        invariant storage.failures == old(storage.failures)
        invariant old(spilled) == map[] ==> resident == old(resident) && spilled == old(spilled)
      {
        if b in spilled {
          r := Reload(b);
          if r.Err? {
            return;
          }
        }
        b := b + 1;
      }
      forall pos | start <= pos < end && pos < len
        ensures pos / blockSize in resident
      {
        Covering(start, end, pos);
      }
      forall pos | start <= pos < end
        ensures pos / blockSize !in spilled
      {
        Between(start, pos, end - 1);
      }
      return Ok(());
    }

    lemma SpilledNeedsStorage(b: nat)
      requires Valid() && b in spilled
      ensures hasStorage && spilled[b] in storage.files
    {
      assert SpilledOk(Sh(), storage.files, View(), items, b);
      ReloadStands(Sh(), storage.files, View(), items, b);
    }

    lemma Between(a: nat, b: nat, c: nat)
      requires Valid() && a <= b <= c
      ensures blockSize > 0 && a / blockSize <= b / blockSize <= c / blockSize
    {
      assert Sh().Valid();
      Locate(Sh(), a);
      Locate(Sh(), b);
      Locate(Sh(), c);
      StartStep(Sh(), a / blockSize, b / blockSize + 1);
      StartStep(Sh(), b / blockSize, c / blockSize + 1);
    }

    /** Attention has just read back to the window's start, as every step ends by doing: then no cut
      * at or past it is refused. Under full attention that is every cut. */
    method CutAfterReading(newLen: nat) returns (read: Result<(), Error>, cut: Result<(), Error>)
      requires Valid() && AttentionStart() <= newLen
      modifies this`resident, this`spilled, this`len, this`items, this`reloads, storage
      ensures Valid() && (old(spilled) == map[] ==> read.Ok?)
      ensures read.Ok? ==> cut.Ok? && items == if newLen < old(len) then old(items)[..newLen] else old(items)
    {
      read := EnsureResident(AttentionStart(), len);
      if read.Err? {
        return read, read;
      }
      cut := Truncate(newLen);
    }

    lemma Covering(start: nat, end: nat, pos: nat)
      requires Valid() && start <= pos < end && pos < len
      requires forall k :: start / blockSize <= k <= (end - 1) / blockSize ==> k !in spilled
      ensures pos / blockSize in resident
    {
      Locate(Sh(), pos);
      Locate(Sh(), start);
      Locate(Sh(), end - 1);
      StartStep(Sh(), start / blockSize, pos / blockSize + 1);
      StartStep(Sh(), pos / blockSize, (end - 1) / blockSize + 1);
      assert Covered(Sh(), View(), pos / blockSize);
    }

    /** The key vector at `pos`, if its page is in memory. */
    function KeyAt(pos: nat): (r: Option<Vector>)
      requires Valid()
      reads this, storage
      ensures pos < len && pos / blockSize in resident ==> r == Some(items[pos].key)
      ensures pos >= len ==> r == None
    {
      if pos >= len || pos / blockSize !in resident then None
      else
        ReadRow(Sh(), storage.files, View(), items, pos);
        var off := pos % blockSize * kvDim;
        Some(resident[pos / blockSize].keys[off..off + kvDim])
    }

    function ValueAt(pos: nat): (r: Option<Vector>)
      requires Valid()
      reads this, storage
      ensures pos < len && pos / blockSize in resident ==> r == Some(items[pos].value)
      ensures pos >= len ==> r == None
    {
      if pos >= len || pos / blockSize !in resident then None
      else
        ReadRow(Sh(), storage.files, View(), items, pos);
        var off := pos % blockSize * kvDim;
        Some(resident[pos / blockSize].values[off..off + kvDim])
    }

    /** Drop every position from `newLen` on. Refused, with nothing changed, exactly when the cut
      * would land inside a block that is on disk. */
    method Truncate(newLen: nat) returns (r: Result<(), Error>)
      requires Valid()
      modifies this`resident, this`spilled, this`len, this`items, storage
      ensures Valid() && OwnOnly(old(storage.files), storage.files, seqId, layer)
      ensures r.Err? <==> newLen < old(len) && blockSize > 0 && newLen % blockSize > 0 && newLen / blockSize in old(spilled)
      ensures r.Ok? ==> items == if newLen < old(len) then old(items)[..newLen] else old(items)
      ensures r.Err? ==> r.error == WouldCutSpilled
      ensures spilled.Keys <= old(spilled.Keys)
      ensures r.Err? ==> items == old(items) && resident == old(resident) && spilled == old(spilled)
      ensures old(spilled) == map[] ==> r.Ok? && spilled == map[] && storage.files == old(storage.files)
    {
      assert Sh().Valid();
      if newLen >= len {
        return Ok(());
      }
      var cut, keep := newLen / blockSize, newLen % blockSize;
      if keep > 0 && cut in spilled {
        return Err(WouldCutSpilled);
      }
      hide Stands;
      ghost var book, files0 := View(), storage.files;
      var kept := map b | b in resident && Kept(Sh(), newLen, b) :: resident[b];
      RemoveStale(newLen);
      if keep > 0 && cut in kept {
        kept := kept[cut := CutBlock(Sh(), kept[cut], keep)];
      }
      KeptPaths(Sh(), files0, book, items, newLen, storage.files);
      CutStands(Sh(), files0, book, items, newLen, storage.files);
      resident := kept;
      spilled := map b | b in spilled && Kept(Sh(), newLen, b) :: spilled[b];
      len := newLen;
      items := items[..newLen];
      assert View() == CutBook(Sh(), book, newLen);
      return Ok(());
    }

    /** Delete the files of the spilled blocks past a cut. */
    method RemoveStale(newLen: nat)
      requires Valid()
      modifies storage
      ensures forall p :: !Stale(Sh(), View(), newLen, p) ==> SameFile(old(storage.files), storage.files, p)
      ensures spilled == map[] ==> storage.files == old(storage.files)
    {
      var stale := set b | b in spilled && !Kept(Sh(), newLen, b);
      while stale != {}
        invariant forall b :: b in stale ==> b in spilled && !Kept(Sh(), newLen, b)
        invariant forall p :: !Stale(Sh(), View(), newLen, p) ==> SameFile(old(storage.files), storage.files, p)
        invariant spilled == map[] ==> storage.files == old(storage.files)
        decreases stale
      {
        var b :| b in stale;
        assert Stale(Sh(), View(), newLen, spilled[b]);
        storage.Remove(spilled[b]);
        stale := stale - {b};
      }
    }

    /** Take a new identity, unless files are already named for the old one. */
    method Rekey(newId: nat) returns (r: Result<(), Error>)
      requires Valid()
      modifies this`seqId
      ensures Valid()
      ensures r.Ok? <==> old(spilled) == map[]
      ensures seqId == if r.Ok? then newId else old(seqId)
    {
      if HasSpill() {
        return Err(Spilled);
      }
      ghost var sh := Sh();
      seqId := newId;
      Renamed(sh, storage.files, View(), items, newId);
      return Ok(());
    }
  }

  lemma OneBlock(resident: map<nat, KvBlock>, b: nat)
    requires b in resident && |resident| <= 1
    ensures forall k :: k in resident ==> k == b
  {
    forall k | k in resident ensures k == b {
      if k != b {
        assert |{k, b}| == 2 && {k, b} <= resident.Keys;
        SubsetSize({k, b}, resident.Keys);
      }
    }
  }

  lemma SubsetSize(a: set<nat>, b: set<nat>)
    requires a <= b
    ensures |a| <= |b|
  {
    assert |b| == |a| + |b - a| by {
      assert a + (b - a) == b;
    }
  }

  lemma FirstBlockSpilled(kv: KVCacheState)
    requires kv.Valid() && kv.blockSize == 2 && kv.len == 3 && 1 in kv.resident && |kv.resident| <= 1
    ensures 0 in kv.spilled
  {
    OneBlock(kv.resident, 1);
    assert Start(kv.Sh(), 0) == 0;
    assert Covered(kv.Sh(), kv.View(), 0);
  }

  lemma OnlyFirstSpilled(kv: KVCacheState)
    requires kv.Valid() && kv.blockSize == 2 && kv.len == 3 && 0 in kv.spilled
    ensures kv.spilled.Keys == {0}
  {
    forall b | b in kv.spilled ensures b == 0 {
      assert SpilledOk(kv.Sh(), kv.storage.files, kv.View(), kv.items, b);
      assert Start(kv.Sh(), b + 1) == 2 * (b + 1);
    }
  }

  /** One position and then two guesses, in blocks of two, with room for one block in memory and
    * attention reading one position back: unless the disk fails, the first block ends up on disk. */
  method NarrowWindow(p: Pair) returns (kv: KVCacheState, read: bool)
    requires |p.key| == |p.value| == 1
    ensures fresh(kv) && fresh(kv.storage) && kv.Valid() && kv.blockSize == 2 && kv.window == Some(1)
    ensures read ==> kv.items == [p, p, p] && kv.spilled.Keys == {0}
    ensures read <==> kv.storage.failures == 0
  {
    var disk := new Storage();
    var one: nat, two: nat, room: nat := 1, 2, 8;
    kv := new KVCacheState(one, two, room, one, Some(one), disk, true, 0, 0);
    for i := 0 to 3
      invariant kv.Valid() && kv.len == |kv.items| == i && fresh(kv) && fresh(disk)
      invariant kv.kvDim == 1 && kv.blockSize == 2 && kv.maxPositions == 8 && kv.maxResident == 1
      invariant kv.window == Some(1) && kv.hasStorage && kv.storage == disk
      invariant forall j :: 0 <= j < i ==> kv.items[j] == p
      invariant i == 3 ==> 1 in kv.resident && |kv.resident| <= 1
      invariant disk.failures == 0
    {
      var added := kv.Append(p.key, p.value);
      if added.Err? {
        return kv, false;
      }
    }
    FirstBlockSpilled(kv);
    var done := kv.EnsureResident(kv.AttentionStart(), 3);
    if done.Ok? {
      OnlyFirstSpilled(kv);
    }
    return kv, done.Ok?;
  }

  /** A window narrower than the guesses does get a cut refused: when both guesses are wrong the cut
    * lands in the block on disk. Only a failing disk prevents it. */
  method NarrowWindowRefuses(p: Pair) returns (kv: KVCacheState, r: Result<(), Error>)
    requires |p.key| == |p.value| == 1
    ensures r == Err(WouldCutSpilled) || (r == Err(Io) && kv.storage.failures > 0)
  {
    var read;
    kv, read := NarrowWindow(p);
    if !read {
      return kv, Err(Io);
    }
    r := kv.Truncate(1);
  }

  lemma Renamed(sh: Shape, files: Files, book: Book, items: seq<Pair>, id: nat)
    requires Stands(sh, files, book, items) && book.spilled == map[]
    ensures Stands(sh.(seqId := id), files, book, items)
  {
    forall b
      ensures ResidentOk(sh.(seqId := id), book, items, b) && Covered(sh.(seqId := id), book, b)
    {
      assert ResidentOk(sh, book, items, b) && Covered(sh, book, b);
      if b in book.resident {
        assert Segment(sh.(seqId := id), items, b) == Segment(sh, items, b);
      }
    }
  }

  lemma OnlyOne(m: map<nat, KvBlock>, k: nat)
    requires forall b :: b in m ==> b == k
    ensures |m| <= 1
  {
    assert m.Keys == if k in m then {k} else {};
  }

  lemma OwnOnlyTrans(a: Files, b: Files, c: Files, seqId: nat, layer: nat)
    requires OwnOnly(a, b, seqId, layer) && OwnOnly(b, c, seqId, layer)
    ensures OwnOnly(a, c, seqId, layer)
  {
    forall p: Path | p.seqId != seqId || p.layer != layer
      ensures SameFile(a, c, p)
    {
      assert SameFile(a, b, p) && SameFile(b, c, p);
    }
  }

  /** A file that a cut to `len` makes stale. */
  ghost predicate Stale(sh: Shape, book: Book, len: nat, p: Path)
    requires sh.Valid()
  {
    exists b :: b in book.spilled && !Kept(sh, len, b) && book.spilled[b] == p
  }

  lemma KeptPaths(sh: Shape, files: Files, book: Book, items: seq<Pair>, len: nat, files': Files)
    requires Stands(sh, files, book, items)
    requires forall p :: !Stale(sh, book, len, p) ==> SameFile(files, files', p)
    ensures OwnOnly(files, files', sh.seqId, sh.layer)
    ensures forall b :: b in book.spilled && Kept(sh, len, b) && sh.PathOf(b) in files ==>
      sh.PathOf(b) in files' && files'[sh.PathOf(b)] == files[sh.PathOf(b)]
  {
    forall p | Stale(sh, book, len, p)
      ensures exists b :: p == sh.PathOf(b) && !Kept(sh, len, b)
    {
      var b :| b in book.spilled && !Kept(sh, len, b) && book.spilled[b] == p;
      assert SpilledOk(sh, files, book, items, b);
    }
    forall b | b in book.spilled && Kept(sh, len, b) && sh.PathOf(b) in files
      ensures sh.PathOf(b) in files' && files'[sh.PathOf(b)] == files[sh.PathOf(b)]
    {
      assert SameFile(files, files', sh.PathOf(b));
    }
  }
}
