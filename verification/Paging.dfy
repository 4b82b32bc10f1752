/** The passes leave open which blocks outside an attention layer's window are on disk. The paged cache
  * makes that choice: one token through a layer, and a cut, done on pages with a disk that may fail,
  * are among what `Passes` and `Rollback` allow. */
module Paging {
  import opened Basics
  import opened KvCache
  import E = Experts
  import F = Forward
  import P = Pages
  import R = Rollback
  import S = Passes

  /** A stored pair, as attention takes it. */
  function Taken(p: P.Pair): F.Pair { F.Pair(p.key, p.value) }

  /** The paged cache holds a layer's entries, with these blocks on disk. */
  ghost predicate Backs(kv: KVCacheState, items: seq<F.Pair>, onDisk: set<nat>)
    reads kv, kv.storage
  {
    && kv.Valid() && kv.blockSize > 0 && |items| == |kv.items| == kv.len
    && (forall i :: 0 <= i < |items| ==> items[i] == Taken(kv.items[i]))
    && onDisk == kv.spilled.Keys
  }

  /** A whole block on disk that reaches into the window has a position of the window in it. */
  lemma ReachesIn(sh: P.Shape, b: nat, start: nat)
    requires sh.Valid() && P.Start(sh, b + 1) > start
    ensures exists pos :: start <= pos < P.Start(sh, b + 1) && pos / sh.bs == b
  {
    var pos := P.Start(sh, b + 1) - 1;
    P.StartStep(sh, b, b);
    P.Locate(sh, pos);
    var q := pos / sh.bs;
    P.StartStep(sh, q, b);
    P.StartStep(sh, b, q);
    P.StartStep(sh, b + 1, q);
    P.StartStep(sh, q + 1, b + 1);
  }

  /** With the window in memory, every block on disk ends before it. */
  lemma ColdIsOutside(kv: KVCacheState)
    requires kv.Valid() && kv.blockSize > 0
    requires forall pos :: kv.AttentionStart() <= pos < kv.len ==> pos / kv.blockSize !in kv.spilled
    ensures S.AllEndBy(kv.spilled.Keys, kv.blockSize, S.WindowStart(kv.window, kv.len))
  {
    var start := kv.AttentionStart();
    forall b | b in kv.spilled.Keys ensures S.EndsBy(b, kv.blockSize, start) {
      assert P.SpilledOk(kv.Sh(), kv.storage.files, kv.View(), kv.items, b);
      if P.Start(kv.Sh(), b + 1) > start {
        ReachesIn(kv.Sh(), b, start);
      }
    }
  }

  /** Attention's reads, position by position. */
  method ReadWindow(kv: KVCacheState, ghost items: seq<F.Pair>) returns (seen: seq<F.Pair>)
    requires Backs(kv, items, kv.spilled.Keys)
    requires forall pos :: kv.AttentionStart() <= pos < kv.len ==> pos / kv.blockSize in kv.resident
    ensures seen == F.Seen(kv.window, items)
  {
    var start := kv.AttentionStart();
    seen := [];
    for pos := start to kv.len
      invariant seen == items[start..pos]
    {
      var key, value := kv.KeyAt(pos), kv.ValueAt(pos);
      seen := seen + [F.Pair(key.value, value.value)];
    }
    assert items[start..kv.len] == items[start..];
  }

  /** One token through an attention layer, on pages: append, read the window back, attend. Unless the
    * disk fails, the layer's entries, the answer and the blocks left on disk are as `MixOne` has
    * them. `pair` is the token's key and value as bits. */
  method AttendOne(kv: KVCacheState, mixer: F.Mixer, p: E.Vec, pair: P.Pair, ghost items: seq<F.Pair>)
    returns (r: Result<E.Vec, Error>)
    requires Backs(kv, items, kv.spilled.Keys) && kv.len < kv.maxPositions
    requires mixer.Attention? && mixer.window == kv.window && mixer.entry(p, |items|) == Taken(pair)
    requires |pair.key| == |pair.value| == kv.kvDim
    modifies kv`resident, kv`spilled, kv`len, kv`items, kv`spills, kv`reloads, kv.storage
    ensures kv.Valid()
    ensures r.Err? <==> kv.storage.failures > old(kv.storage.failures)
    ensures r.Ok? ==>
      var next := F.Mix(mixer, F.Core(items, None), p);
      && Backs(kv, next.0.items, kv.spilled.Keys) && r.value == next.1
      && S.ReadBack(mixer, kv.spilled.Keys, kv.blockSize, kv.len)
  {
    var pos := kv.len;
    var added := kv.Append(pair.key, pair.value);
    if added.Err? {
      return Err(added.error);
    }
    ghost var all := items + [mixer.entry(p, |items|)];
    var read := kv.EnsureResident(kv.AttentionStart(), kv.len);
    if read.Err? {
      return Err(read.error);
    }
    var seen := ReadWindow(kv, all);
    ColdIsOutside(kv);
    return Ok(mixer.attend(p, pos, seen));
  }

  /** A cut, on pages: refused exactly where `TruncateLayer` refuses it. */
  method CutOne(kv: KVCacheState, len: nat, ghost items: seq<F.Pair>, ghost onDisk: set<nat>) returns (ok: bool)
    requires Backs(kv, items, onDisk)
    modifies kv`resident, kv`spilled, kv`len, kv`items, kv.storage
    ensures ok <==> len >= |items| || !R.CutsSpilled(onDisk, kv.blockSize, len)
    ensures !ok ==> Backs(kv, items, onDisk)
    ensures ok ==> Backs(kv, if len < |items| then items[..len] else items, kv.spilled.Keys) && kv.spilled.Keys <= onDisk
  {
    var r := kv.Truncate(len);
    return r.Ok?;
  }
}
