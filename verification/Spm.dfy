/** The SentencePiece encoder: a doubly linked list of symbols and a heap of candidate
  * merges in which entries are never removed, only recognised as stale when they surface.
  * It is proved to compute exactly what its simple description says: merge the
  * highest-scoring, leftmost mergeable adjacent pair until no pair merges. */
module Spm {
  import opened Utf8
  import Heap

  type Token = nat
  type Piece = seq<Byte>

  const SPACE_MARK: char := '\U{2581}'

  /** `scores` holds each token's rank in the total order the heap compares floats by. */
  datatype Vocab = Vocab(
    lookup: map<Piece, Token>, scores: seq<int>, byteToken: seq<Token>, unk: Token, bos: Token, addBos: bool)
  {
    predicate Valid() {
      && (forall p :: p in lookup ==> lookup[p] < |scores|)
      && |byteToken| == 256
    }

    function Score(p: Piece): int
      requires Valid() && p in lookup
    {
      scores[lookup[p]]
    }

    function ByteToToken(b: Byte): Token
      requires Valid()
    {
      if byteToken[b] == 0 then unk else byteToken[b]
    }
  }

  // ---------------------------------------------------------------- the reference

  function Normalize(text: string, lead: bool): string {
    (if lead then [SPACE_MARK] else []) + seq(|text|, i requires 0 <= i < |text| => if text[i] == ' ' then SPACE_MARK else text[i])
  }

  function Symbols(norm: string): seq<Piece> {
    seq(|norm|, i requires 0 <= i < |norm| => EncodeChar(norm[i]))
  }

  predicate Mergeable(v: Vocab, segs: seq<Piece>, i: int) {
    0 <= i < |segs| - 1 && segs[i] + segs[i + 1] in v.lookup
  }

  /** Pair `i` has the highest score of all mergeable pairs, and no pair to its left ties. */
  ghost predicate IsBest(v: Vocab, segs: seq<Piece>, i: int)
    requires v.Valid()
  {
    && Mergeable(v, segs, i)
    && forall j :: Mergeable(v, segs, j) ==>
        var si, sj := v.Score(segs[i] + segs[i + 1]), v.Score(segs[j] + segs[j + 1]);
        sj < si || (sj == si && i <= j)
  }

  function MergeAt(segs: seq<Piece>, i: nat): seq<Piece>
    requires i < |segs| - 1
  {
    segs[..i] + [segs[i] + segs[i + 1]] + segs[i + 2..]
  }

  /** Merge the best pair until nothing merges. */
  ghost function Greedy(v: Vocab, segs: seq<Piece>): seq<Piece>
    requires v.Valid()
    decreases |segs|
  {
    if i: nat :| IsBest(v, segs, i) then Greedy(v, MergeAt(segs, i)) else segs
  }

  function Emit(v: Vocab, p: Piece): seq<Token>
    requires v.Valid()
  {
    if p in v.lookup then [v.lookup[p]] else seq(|p|, i requires 0 <= i < |p| => v.ByteToToken(p[i]))
  }

  function EmitAll(v: Vocab, segs: seq<Piece>): seq<Token>
    requires v.Valid()
  {
    if segs == [] then [] else EmitAll(v, segs[..|segs| - 1]) + Emit(v, segs[|segs| - 1])
  }

  ghost function Reference(v: Vocab, text: string, lead: bool): seq<Token>
    requires v.Valid()
  {
    (if lead && v.addBos then [v.bos] else []) + EmitAll(v, Greedy(v, Symbols(Normalize(text, lead))))
  }

  // ---------------------------------------------------------------- facts about the reference

  function Flatten(segs: seq<Piece>): Piece {
    if segs == [] then [] else segs[0] + Flatten(segs[1..])
  }

  lemma {:induction false} FlattenConcat(a: seq<Piece>, b: seq<Piece>)
    ensures Flatten(a + b) == Flatten(a) + Flatten(b)
  {
    if a == [] {
      assert a + b == b;
    } else {
      assert (a + b)[1..] == a[1..] + b;
      FlattenConcat(a[1..], b);
    }
  }

  lemma FlattenThree(a: seq<Piece>, m: seq<Piece>, b: seq<Piece>)
    ensures Flatten(a + m + b) == Flatten(a) + Flatten(m) + Flatten(b)
  {
    FlattenConcat(a + m, b);
    FlattenConcat(a, m);
  }

  lemma MergeKeepsBytes(segs: seq<Piece>, i: nat)
    requires i < |segs| - 1
    ensures Flatten(MergeAt(segs, i)) == Flatten(segs)
  {
    hide Flatten;
    var p, q := segs[i], segs[i + 1];
    assert segs == segs[..i] + [p, q] + segs[i + 2..];
    FlattenThree(segs[..i], [p, q], segs[i + 2..]);
    FlattenThree(segs[..i], [p + q], segs[i + 2..]);
    PairFlattens(p, q);
  }

  lemma PairFlattens(p: Piece, q: Piece)
    ensures Flatten([p, q]) == p + q == Flatten([p + q])
  {
    assert [p, q][1..] == [q];
    assert Flatten([q]) == q && Flatten([p + q]) == p + q;
  }

  lemma {:induction false} BestExists(v: Vocab, segs: seq<Piece>, n: nat) returns (i: nat)
    requires v.Valid() && n < |segs|
    requires exists j :: 0 <= j < n && Mergeable(v, segs, j)
    ensures i < n && Mergeable(v, segs, i)
    ensures forall j :: 0 <= j < n && Mergeable(v, segs, j) ==>
      var si, sj := v.Score(segs[i] + segs[i + 1]), v.Score(segs[j] + segs[j + 1]);
      sj < si || (sj == si && i <= j)
  {
    if exists j :: 0 <= j < n - 1 && Mergeable(v, segs, j) {
      i := BestExists(v, segs, n - 1);
      if Mergeable(v, segs, n - 1) && v.Score(segs[i] + segs[i + 1]) < v.Score(segs[n - 1] + segs[n]) {
        i := n - 1;
      }
    } else {
      i := n - 1;
    }
  }

  /** The reference loses no byte and stops only when no adjacent pair is in the vocabulary. */
  lemma {:induction false} GreedyResult(v: Vocab, segs: seq<Piece>)
    requires v.Valid()
    ensures Flatten(Greedy(v, segs)) == Flatten(segs)
    ensures forall i :: !Mergeable(v, Greedy(v, segs), i)
    decreases |segs|
  {
    if i: nat :| IsBest(v, segs, i) {
      var j: nat :| IsBest(v, segs, j) && Greedy(v, segs) == Greedy(v, MergeAt(segs, j));
      MergeKeepsBytes(segs, j);
      GreedyResult(v, MergeAt(segs, j));
    } else if j :| Mergeable(v, segs, j) {
      var i := BestExists(v, segs, |segs| - 1);
      assert IsBest(v, segs, i);
    }
  }

  lemma BestIsUnique(v: Vocab, segs: seq<Piece>, i: nat, j: nat)
    requires v.Valid() && IsBest(v, segs, i) && IsBest(v, segs, j)
    ensures i == j
  {
    assert Mergeable(v, segs, i) && Mergeable(v, segs, j);
  }

  lemma GreedyStep(v: Vocab, segs: seq<Piece>, i: nat)
    requires v.Valid() && IsBest(v, segs, i)
    ensures Greedy(v, segs) == Greedy(v, MergeAt(segs, i))
  {
    forall j: nat | IsBest(v, segs, j) ensures j == i {
      BestIsUnique(v, segs, i, j);
    }
  }

  // ---------------------------------------------------------------- what the tokens spell

  /** The text to be segmented: a mark in front exactly if it begins the prompt, a mark for each space, and
    * every other character as it is, all in order. */
  ghost predicate Marked(text: string, lead: bool, norm: string) {
    var at := if lead then 1 else 0;
    && |norm| == |text| + at && (lead ==> norm[0] == '\U{2581}')
    && forall i :: 0 <= i < |text| ==> norm[at + i] == if text[i] == ' ' then '\U{2581}' else text[i]
  }

  lemma NormalizeMarks(text: string, lead: bool, norm: string)
    ensures Marked(text, lead, norm) <==> norm == Normalize(text, lead)
  {
    var n := Normalize(text, lead);
    assert Marked(text, lead, n);
    if Marked(text, lead, norm) {
      var at := if lead then 1 else 0;
      forall k | 0 <= k < |norm| ensures norm[k] == n[k] {
        assert k >= at ==> norm[at + (k - at)] == n[at + (k - at)];
      }
    }
  }

  /** A segment's tokens: its own id if it is listed; otherwise one token for each byte, the byte's own or,
    * where it has none, the unknown one. */
  ghost predicate SaysOne(v: Vocab, p: Piece, ids: seq<Token>)
    requires v.Valid()
  {
    if p in v.lookup then ids == [v.lookup[p]]
    else |ids| == |p| && forall k :: 0 <= k < |p| ==> ids[k] == if v.byteToken[p[k]] != 0 then v.byteToken[p[k]] else v.unk
  }

  /** The tokens of one segment after another. */
  ghost predicate Says(v: Vocab, segs: seq<Piece>, ids: seq<Token>)
    requires v.Valid()
  {
    if segs == [] then ids == []
    else exists n: nat :: n <= |ids| && SaysOne(v, segs[|segs| - 1], ids[n..]) && Says(v, segs[..|segs| - 1], ids[..n])
  }

  lemma {:induction false} EmitAllSays(v: Vocab, segs: seq<Piece>)
    requires v.Valid()
    ensures Says(v, segs, EmitAll(v, segs))
  {
    if segs != [] {
      var front, last := segs[..|segs| - 1], segs[|segs| - 1];
      EmitAllSays(v, front);
      var ids := EmitAll(v, segs);
      var n := |EmitAll(v, front)|;
      assert ids[n..] == Emit(v, last) && ids[..n] == EmitAll(v, front);
      assert SaysOne(v, last, ids[n..]);
    }
  }

  /** What one token stands for: a listed text, or a byte. */
  predicate Stands(v: Vocab, id: Token, p: Piece)
    requires v.Valid()
  {
    (p in v.lookup && v.lookup[p] == id) || (|p| == 1 && id != 0 && v.byteToken[p[0]] == id)
  }

  /** The tokens stand for these bytes, one stretch after another. */
  ghost predicate Spells(v: Vocab, ids: seq<Token>, bytes: Piece)
    requires v.Valid()
  {
    if ids == [] then bytes == []
    else exists n: nat :: n <= |bytes| && Stands(v, ids[|ids| - 1], bytes[n..]) && Spells(v, ids[..|ids| - 1], bytes[..n])
  }

  lemma SpellsOneMore(v: Vocab, ids: seq<Token>, bytes: Piece, id: Token, p: Piece)
    requires v.Valid() && Spells(v, ids, bytes) && Stands(v, id, p)
    ensures Spells(v, ids + [id], bytes + p)
  {
    hide Stands;
    var all, whole, n := ids + [id], bytes + p, |bytes|;
    assert all[..|all| - 1] == ids && whole[n..] == p && whole[..n] == bytes;
  }

  /** Every one of these bytes has a token of its own. */
  predicate HaveTokens(v: Vocab, bytes: Piece)
    requires v.Valid()
  {
    forall i :: 0 <= i < |bytes| ==> v.byteToken[bytes[i]] != 0
  }

  lemma {:induction false} BytesSpell(v: Vocab, ids: seq<Token>, bytes: Piece, p: Piece, k: nat)
    requires v.Valid() && Spells(v, ids, bytes) && k <= |p| == |Emit(v, p)| && HaveTokens(v, p) && p !in v.lookup
    ensures Spells(v, ids + Emit(v, p)[..k], bytes + p[..k])
    decreases k
  {
    hide Spells, Stands, Emit, HaveTokens;
    var e := Emit(v, p);
    if k == 0 {
      assert ids + e[..0] == ids && bytes + p[..0] == bytes;
    } else {
      BytesSpell(v, ids, bytes, p, k - 1);
      OneByte(v, p, k - 1);
      SpellsOneMore(v, ids + e[..k - 1], bytes + p[..k - 1], e[k - 1], [p[k - 1]]);
      OneFurther(ids, e, k - 1);
      OneFurther(bytes, p, k - 1);
    }
  }

  lemma OneFurther<T>(a: seq<T>, b: seq<T>, k: nat)
    requires k < |b|
    ensures a + b[..k] + [b[k]] == a + b[..k + 1]
  {
  }

  lemma OneByte(v: Vocab, p: Piece, k: nat)
    requires v.Valid() && k < |p| && HaveTokens(v, p) && p !in v.lookup
    ensures |Emit(v, p)| == |p| && Stands(v, Emit(v, p)[k], [p[k]])
  {
  }

  lemma SegmentSpells(v: Vocab, ids: seq<Token>, bytes: Piece, p: Piece)
    requires v.Valid() && Spells(v, ids, bytes) && HaveTokens(v, p)
    ensures Spells(v, ids + Emit(v, p), bytes + p)
  {
    hide Spells;
    if p in v.lookup {
      SpellsOneMore(v, ids, bytes, v.lookup[p], p);
    } else {
      BytesSpell(v, ids, bytes, p, |p|);
      assert Emit(v, p)[..|p|] == Emit(v, p) && p[..|p|] == p;
    }
  }

  /** If every byte has a token, no text is lost: the tokens spell the segments' bytes. */
  lemma {:induction false} EmitAllSpells(v: Vocab, segs: seq<Piece>)
    requires v.Valid() && HaveTokens(v, Flatten(segs))
    ensures Spells(v, EmitAll(v, segs), Flatten(segs))
  {
    if segs != [] {
      var front, last := segs[..|segs| - 1], segs[|segs| - 1];
      hide Spells;
      assert segs == front + [last];
      FlattenConcat(front, [last]);
      OneFlattens(last);
      var whole := Flatten(segs);
      assert forall i :: 0 <= i < |Flatten(front)| ==> Flatten(front)[i] == whole[i];
      assert forall i :: 0 <= i < |last| ==> last[i] == whole[|Flatten(front)| + i];
      EmitAllSpells(v, front);
      SegmentSpells(v, EmitAll(v, front), Flatten(front), last);
    }
  }

  lemma OneFlattens(p: Piece)
    ensures Flatten([p]) == p
  {
    assert [p][1..] == [];
  }

  lemma {:induction false} SymbolsFlatten(norm: string)
    ensures Flatten(Symbols(norm)) == Encode(norm)
  {
    if norm != [] {
      SymbolsFlatten(norm[1..]);
      assert Symbols(norm)[1..] == Symbols(norm[1..]);
    }
  }

  /** A right tokenisation of the bytes: segments that no pair of neighbours could be merged of, said one after
    * another, and spelling every byte if every byte has a token. */
  ghost predicate Tokenises(v: Vocab, bytes: Piece, segs: seq<Piece>, ids: seq<Token>)
    requires v.Valid()
  {
    && Flatten(segs) == bytes && (forall i :: !Mergeable(v, segs, i))
    && Says(v, segs, ids) && (HaveTokens(v, bytes) ==> Spells(v, ids, bytes))
  }

  lemma ReferenceTokenises(v: Vocab, text: string, lead: bool, norm: string)
    requires v.Valid() && Marked(text, lead, norm)
    ensures
      var at := if lead && v.addBos then 1 else 0;
      var out := Reference(v, text, lead);
      && |out| >= at && out[..at] == [v.bos][..at]
      && Tokenises(v, Encode(norm), Greedy(v, Symbols(norm)), out[at..])
  {
    hide Says, Spells, Greedy, Symbols, HaveTokens, EmitAll;
    NormalizeMarks(text, lead, norm);
    var segs := Greedy(v, Symbols(norm));
    GreedyResult(v, Symbols(norm));
    SymbolsFlatten(norm);
    EmitAllSays(v, segs);
    var at := if lead && v.addBos then 1 else 0;
    assert Reference(v, text, lead)[at..] == EmitAll(v, segs);
    if HaveTokens(v, Encode(norm)) {
      EmitAllSpells(v, segs);
    }
  }

  // ---------------------------------------------------------------- the linked list

  /** A symbol in the merge list. `len == 0` marks one that was merged away. */
  datatype Sym = Sym(start: nat, len: nat, prev: int, next: int)

  ghost predicate Increasing(s: seq<nat>) {
    forall i, j :: 0 <= i < j < |s| ==> s[i] < s[j]
  }

  lemma Rises(s: seq<nat>, i: nat, j: nat)
    requires Increasing(s) && i < |s| && j < |s|
    ensures i < j <==> s[i] < s[j]
  {
  }

  /** The bytes being segmented: `ofs[i]` is where character `i` starts, and the last entry
    * is the length. */
  datatype Input = Input(v: Vocab, bytes: Piece, ofs: seq<nat>) {
    ghost predicate Valid() {
      && v.Valid()
      && |ofs| > 0 && ofs[|ofs| - 1] == |bytes|
      && Increasing(ofs)
    }

    ghost predicate Cuts(b: seq<nat>)
      requires Valid()
    {
      && |b| > 0 && b[0] == 0 && b[|b| - 1] == |ofs| - 1
      && Increasing(b)
    }

    /** The segment between cuts `k` and `k + 1`. */
    ghost function Seg(b: seq<nat>, k: nat): Piece
      requires Valid() && Cuts(b) && k < |b| - 1
    {
      Slice(b, k, k + 1)
    }

    ghost function Slice(b: seq<nat>, i: nat, j: nat): Piece
      requires Valid() && Cuts(b) && i < j < |b|
    {
      assert b[j] < |ofs| by { assert b[j] <= b[|b| - 1]; }
      assert ofs[b[j]] <= |bytes| by { assert ofs[b[j]] <= ofs[|ofs| - 1]; }
      bytes[ofs[b[i]]..ofs[b[j]]]
    }

    ghost function Segs(b: seq<nat>): seq<Piece>
      requires Valid() && Cuts(b)
    {
      seq(|b| - 1, k requires 0 <= k < |b| - 1 => Seg(b, k))
    }

    /** What the list must hold for the live symbol between cuts `k` and `k + 1`. */
    ghost function Expected(b: seq<nat>, k: nat): Sym
      requires Valid() && Cuts(b) && k < |b| - 1
    {
      assert b[k + 1] <= b[|b| - 1];
      Sym(ofs[b[k]], ofs[b[k + 1]] - ofs[b[k]], if k == 0 then -1 else b[k - 1], if k + 2 < |b| then b[k + 1] else -1)
    }

    ghost predicate Linked(s: seq<Sym>, b: seq<nat>, k: nat)
      requires Valid() && Cuts(b) && k < |b| - 1
    {
      b[k] < |s| && s[b[k]] == Expected(b, k)
    }

    /** The list threads exactly the symbols that start at a cut; all others are dead. */
    ghost predicate List(s: seq<Sym>, b: seq<nat>)
      requires Valid()
    {
      && Cuts(b) && |s| == |ofs| - 1
      && (forall k :: 0 <= k < |b| - 1 ==> Linked(s, b, k))
      && (forall i :: 0 <= i < |s| && s[i].len > 0 ==> i in b)
    }

    /** A queued pair was once adjacent with this piece, and its left symbol, while it lives,
      * has only grown. */
    ghost predicate Entry(s: seq<Sym>, e: Bigram)
      requires Valid() && |s| == |ofs| - 1
    {
      && e.left < e.right < |s|
      && (s[e.left].len > 0 ==> ofs[e.left] + s[e.left].len >= ofs[e.right])
      && ofs[e.left] + e.size <= |bytes|
      && bytes[ofs[e.left]..ofs[e.left] + e.size] in v.lookup
      && e.score == v.Score(bytes[ofs[e.left]..ofs[e.left] + e.size])
    }

    /** The entry a mergeable pair `k` must have in the heap. */
    ghost function Candidate(b: seq<nat>, k: nat): Bigram
      requires Valid() && Cuts(b) && k < |b| - 2 && Slice(b, k, k + 2) in v.lookup
    {
      assert b[k] < b[k + 2] <= b[|b| - 1];
      Bigram(b[k], b[k + 1], v.Score(Slice(b, k, k + 2)), ofs[b[k + 2]] - ofs[b[k]])
    }

    ghost predicate Covered(b: seq<nat>, h: multiset<Bigram>, k: int)
      requires Valid() && Cuts(b)
    {
      0 <= k < |b| - 2 && Slice(b, k, k + 2) in v.lookup ==> Candidate(b, k) in h
    }

    ghost predicate Queue(s: seq<Sym>, b: seq<nat>, h: multiset<Bigram>)
      requires Valid() && List(s, b)
    {
      && (forall e :: e in h ==> Entry(s, e))
      && (forall k :: Covered(b, h, k))
    }
  }

  /** A candidate merge, ordered so that the highest score pops first (ties: leftmost). */
  datatype Bigram = Bigram(left: nat, right: nat, score: int, size: nat)

  predicate BigramLe(x: Bigram, y: Bigram) {
    x.score < y.score || (x.score == y.score && y.left <= x.left)
  }

  predicate Fresh(s: seq<Sym>, e: Bigram)
    requires e.left < |s| && e.right < |s|
  {
    s[e.left].len != 0 && s[e.right].len != 0 && s[e.left].len + s[e.right].len == e.size
  }

  lemma CutOrder(inp: Input, b: seq<nat>, i: nat, j: nat)
    requires inp.Valid() && inp.Cuts(b) && i < |b| && j < |b|
    ensures b[i] < |inp.ofs| && b[j] < |inp.ofs| && inp.ofs[b[j]] <= |inp.bytes|
    ensures i < j <==> b[i] < b[j]
    ensures i < j <==> inp.ofs[b[i]] < inp.ofs[b[j]]
  {
    hide Increasing;
    Rises(b, i, |b| - 1);
    Rises(b, j, |b| - 1);
    Rises(b, i, j);
    Rises(b, j, i);
    Rises(inp.ofs, b[i], b[j]);
    Rises(inp.ofs, b[j], b[i]);
    Rises(inp.ofs, |inp.ofs| - 1, b[j]);
  }

  lemma PairIsSlice(inp: Input, b: seq<nat>, k: nat)
    requires inp.Valid() && inp.Cuts(b) && k < |b| - 2
    ensures inp.Segs(b)[k] + inp.Segs(b)[k + 1] == inp.Slice(b, k, k + 2)
  {
    hide Increasing;
    CutOrder(inp, b, k, k + 1);
    CutOrder(inp, b, k + 1, k + 2);
  }

  /** The stale check is exact: an entry passes it precisely when its two symbols are live,
    * adjacent and unchanged, that is, when it is the candidate of some pair. */
  lemma FreshMeansAdjacent(inp: Input, s: seq<Sym>, b: seq<nat>, e: Bigram) returns (k: nat)
    requires inp.Valid() && inp.List(s, b) && inp.Entry(s, e) && Fresh(s, e)
    ensures k < |b| - 2 && inp.Slice(b, k, k + 2) in inp.v.lookup && e == inp.Candidate(b, k)
  {
    hide Increasing;
    assert e.left in b && e.right in b;
    k :| 0 <= k < |b| && b[k] == e.left;
    var m :| 0 <= m < |b| && b[m] == e.right;
    CutOrder(inp, b, k, m);
    CutOrder(inp, b, m, |b| - 1);
    assert inp.Linked(s, b, k) && inp.Linked(s, b, m);
    CutOrder(inp, b, k + 1, m);
    assert m == k + 1;
  }

  lemma CandidateIsFresh(inp: Input, s: seq<Sym>, b: seq<nat>, k: nat)
    requires inp.Valid() && inp.List(s, b) && k < |b| - 2 && inp.Slice(b, k, k + 2) in inp.v.lookup
    ensures var e := inp.Candidate(b, k); inp.Entry(s, e) && Fresh(s, e)
  {
    hide Increasing;
    CutOrder(inp, b, k, k + 1);
    CutOrder(inp, b, k + 1, k + 2);
    assert inp.Linked(s, b, k) && inp.Linked(s, b, k + 1);
  }

  /** The entry on top of the heap, once fresh, is the pair the reference merges. */
  lemma TopIsBest(inp: Input, s: seq<Sym>, b: seq<nat>, h: multiset<Bigram>, e: Bigram, k: nat)
    requires inp.Valid() && inp.List(s, b) && inp.Queue(s, b, h)
    requires forall x :: x in h ==> BigramLe(x, e)
    requires k < |b| - 2 && inp.Slice(b, k, k + 2) in inp.v.lookup && e == inp.Candidate(b, k)
    ensures IsBest(inp.v, inp.Segs(b), k)
  {
    hide Increasing;
    var segs := inp.Segs(b);
    PairIsSlice(inp, b, k);
    forall j | Mergeable(inp.v, segs, j)
      ensures
        var si, sj := inp.v.Score(segs[k] + segs[k + 1]), inp.v.Score(segs[j] + segs[j + 1]);
        sj < si || (sj == si && k <= j)
    {
      PairIsSlice(inp, b, j);
      assert inp.Covered(b, h, j);
      assert BigramLe(inp.Candidate(b, j), e);
      CutOrder(inp, b, j, k);
    }
  }

  lemma EmptyQueueMeansDone(inp: Input, s: seq<Sym>, b: seq<nat>)
    requires inp.Valid() && inp.List(s, b) && inp.Queue(s, b, multiset{})
    ensures Greedy(inp.v, inp.Segs(b)) == inp.Segs(b)
  {
    hide Increasing;
    var none: multiset<Bigram> := multiset{};
    forall i
      ensures !IsBest(inp.v, inp.Segs(b), i)
    {
      if 0 <= i < |b| - 2 {
        PairIsSlice(inp, b, i);
      }
      assert inp.Covered(b, none, i);
    }
  }

  // ---------------------------------------------------------------- one merge

  function Drop(b: seq<nat>, k: nat): seq<nat>
    requires k + 1 < |b|
  {
    b[..k + 1] + b[k + 2..]
  }

  /** The list after symbol `r` has been folded into `l`. */
  function Unlinked(s: seq<Sym>, l: nat, r: nat): seq<Sym>
    requires l < r < |s| && s[r].next < |s|
  {
    var rNext := s[r].next;
    var merged := s[l := s[l].(len := s[l].len + s[r].len, next := rNext)][r := s[r].(len := 0)];
    if rNext >= 0 then merged[rNext := merged[rNext].(prev := l)] else merged
  }

  lemma DropIncreasing(b: seq<nat>, k: nat)
    requires Increasing(b) && k < |b| - 2
    ensures Increasing(Drop(b, k))
  {
    var d := Drop(b, k);
    forall i, j | 0 <= i < j < |d| ensures d[i] < d[j] {
      assert d[i] == b[if i <= k then i else i + 1] && d[j] == b[if j <= k then j else j + 1];
    }
  }

  lemma DropCuts(inp: Input, b: seq<nat>, k: nat)
    requires inp.Valid() && inp.Cuts(b) && k < |b| - 2
    ensures inp.Cuts(Drop(b, k))
    ensures inp.Segs(Drop(b, k)) == MergeAt(inp.Segs(b), k)
  {
    hide Increasing;
    DropIncreasing(b, k);
    var d := Drop(b, k);
    forall i | 0 <= i < |d| - 1
      ensures inp.Segs(d)[i] == MergeAt(inp.Segs(b), k)[i]
    {
      if i == k {
        PairIsSlice(inp, b, k);
      }
    }
  }

  lemma LinksInRange(inp: Input, s: seq<Sym>, b: seq<nat>, k: nat)
    requires inp.Valid() && inp.List(s, b) && k < |b| - 2
    ensures s[b[k]] == inp.Expected(b, k) && s[b[k + 1]] == inp.Expected(b, k + 1)
    ensures b[k] < b[k + 1] < b[k + 2] < |inp.ofs| && s[b[k + 1]].next < |s|
    ensures inp.ofs[b[k]] < inp.ofs[b[k + 1]] < inp.ofs[b[k + 2]]
  {
    hide Increasing;
    CutOrder(inp, b, k, k + 1);
    CutOrder(inp, b, k + 1, k + 2);
    CutOrder(inp, b, k + 2, |b| - 1);
    assert inp.Linked(s, b, k) && inp.Linked(s, b, k + 1);
    if k + 3 < |b| {
      CutOrder(inp, b, k + 2, |b| - 1);
    }
  }

  /** What unlinking does to symbol `i` of a well-formed list. */
  ghost function After(inp: Input, s: seq<Sym>, b: seq<nat>, k: nat, i: nat): Sym
    requires inp.Valid() && inp.List(s, b) && k < |b| - 2 && i < |s|
  {
    LinksInRange(inp, s, b, k);
    if i == b[k] then
      inp.Expected(b, k).(len := inp.ofs[b[k + 2]] - inp.ofs[b[k]], next := inp.Expected(b, k + 1).next)
    else if i == b[k + 1] then s[i].(len := 0)
    else if k + 3 < |b| && i == b[k + 2] then s[i].(prev := b[k])
    else s[i]
  }

  ghost predicate Unlinks(inp: Input, s: seq<Sym>, b: seq<nat>, k: nat, t: seq<Sym>)
    requires inp.Valid() && inp.List(s, b) && k < |b| - 2
  {
    |t| == |s| && forall i :: 0 <= i < |s| ==> t[i] == After(inp, s, b, k, i)
  }

  lemma UnlinkedUnlinks(inp: Input, s: seq<Sym>, b: seq<nat>, k: nat)
    requires inp.Valid() && inp.List(s, b) && k < |b| - 2
    ensures b[k] < b[k + 1] < |s| && s[b[k + 1]].next < |s|
    ensures Unlinks(inp, s, b, k, Unlinked(s, b[k], b[k + 1]))
  {
    hide Increasing;
    LinksInRange(inp, s, b, k);
    CutOrder(inp, b, k + 1, |b| - 1);
  }

  lemma ExpectedAfterDrop(inp: Input, b: seq<nat>, k: nat, i: nat)
    requires inp.Valid() && inp.Cuts(b) && k < |b| - 2 && i < |b| - 2 && inp.Cuts(Drop(b, k))
    ensures b[k] < b[k + 1] < b[k + 2] < |inp.ofs| && inp.ofs[b[k]] < inp.ofs[b[k + 2]]
    ensures inp.Expected(Drop(b, k), i) ==
      if i == k then inp.Expected(b, k).(len := inp.ofs[b[k + 2]] - inp.ofs[b[k]], next := inp.Expected(b, k + 1).next)
      else if i == k + 1 then inp.Expected(b, k + 2).(prev := b[k])
      else inp.Expected(b, if i < k then i else i + 1)
  {
    hide Increasing;
    CutOrder(inp, b, k, k + 1);
    CutOrder(inp, b, k + 1, k + 2);
    CutOrder(inp, b, k, k + 2);
  }

  lemma UnlinkedLive(inp: Input, s: seq<Sym>, b: seq<nat>, k: nat, t: seq<Sym>, i: nat)
    requires inp.Valid() && inp.List(s, b) && k < |b| - 2 && inp.Cuts(Drop(b, k))
    requires Unlinks(inp, s, b, k, t) && i < |b| - 2
    ensures inp.Linked(t, Drop(b, k), i)
  {
    hide Increasing;
    ExpectedAfterDrop(inp, b, k, i);
    var o := if i <= k then i else i + 1;
    assert Drop(b, k)[i] == b[o] && inp.Linked(s, b, o);
    assert t[b[o]] == After(inp, s, b, k, b[o]);
    CutOrder(inp, b, o, k);
    CutOrder(inp, b, k, o);
    CutOrder(inp, b, k + 2, o);
  }

  lemma UnlinkedDead(inp: Input, s: seq<Sym>, b: seq<nat>, k: nat, t: seq<Sym>, i: nat)
    requires inp.Valid() && inp.List(s, b) && k < |b| - 2 && Unlinks(inp, s, b, k, t)
    requires i < |s| && t[i].len > 0
    ensures i in Drop(b, k)
  {
    hide Increasing;
    var d := Drop(b, k);
    LinksInRange(inp, s, b, k);
    var o :| 0 <= o < |b| && b[o] == i;
    assert d[if o <= k then o else o - 1] == i;
  }

  lemma UnlinkedList(inp: Input, s: seq<Sym>, b: seq<nat>, k: nat, t: seq<Sym>)
    requires inp.Valid() && inp.List(s, b) && k < |b| - 2 && Unlinks(inp, s, b, k, t)
    ensures inp.List(t, Drop(b, k))
  {
    hide Increasing, Unlinks;
    DropCuts(inp, b, k);
    assert |t| == |s| by { SameLength(inp, s, b, k, t); }
    forall i | 0 <= i < |b| - 2
      ensures inp.Linked(t, Drop(b, k), i)
    {
      UnlinkedLive(inp, s, b, k, t, i);
    }
    forall i | 0 <= i < |t| && t[i].len > 0
      ensures i in Drop(b, k)
    {
      UnlinkedDead(inp, s, b, k, t, i);
    }
  }

  lemma SameLength(inp: Input, s: seq<Sym>, b: seq<nat>, k: nat, t: seq<Sym>)
    requires inp.Valid() && inp.List(s, b) && k < |b| - 2 && Unlinks(inp, s, b, k, t)
    ensures |t| == |s|
  {
  }

  /** Merging only grows the left symbol and kills the right one, so queued entries stay sound. */
  lemma EntrySurvives(inp: Input, s: seq<Sym>, b: seq<nat>, k: nat, t: seq<Sym>, e: Bigram)
    requires inp.Valid() && inp.List(s, b) && k < |b| - 2 && Unlinks(inp, s, b, k, t)
    requires inp.Entry(s, e)
    ensures inp.Entry(t, e)
  {
    hide Increasing;
    LinksInRange(inp, s, b, k);
    assert t[e.left] == After(inp, s, b, k, e.left);
  }

  /** Every pair other than the two that touch the merged symbol keeps its candidate. */
  lemma CandidateSurvives(inp: Input, b: seq<nat>, k: nat, h: multiset<Bigram>, e: Bigram, j: int)
    requires inp.Valid() && inp.Cuts(b) && k < |b| - 2
    requires e.left == b[k]
    requires forall i :: inp.Covered(b, h, i)
    requires j != k - 1 && j != k
    ensures inp.Cuts(Drop(b, k))
    ensures inp.Covered(Drop(b, k), h - multiset{e}, j)
  {
    hide Increasing;
    var d := Drop(b, k);
    DropCuts(inp, b, k);
    if 0 <= j < |d| - 2 && inp.Slice(d, j, j + 2) in inp.v.lookup {
      var o := if j < k then j else j + 1;
      assert d[j] == b[o] && d[j + 1] == b[o + 1] && d[j + 2] == b[o + 2];
      assert inp.Covered(b, h, o);
      assert inp.Candidate(d, j) == inp.Candidate(b, o);
      CutOrder(inp, b, o, k);
      CutOrder(inp, b, k, o);
    }
  }

  /** The heap after `left` and `right` have been offered as a candidate merge. */
  function Offer(inp: Input, s: seq<Sym>, left: int, right: int, h: multiset<Bigram>): multiset<Bigram>
    requires inp.v.Valid() && left < |s| && right < |s|
    requires left >= 0 && right >= 0 ==> s[left].start <= s[right].start + s[right].len <= |inp.bytes|
  {
    if left < 0 || right < 0 || s[left].len == 0 || s[right].len == 0 then h
    else
      var piece := inp.bytes[s[left].start..s[right].start + s[right].len];
      if piece in inp.v.lookup then h + multiset{Bigram(left, right, inp.v.Score(piece), |piece|)} else h
  }

  method TryBigram(inp: Input, syms: array<Sym>, left: int, right: int, h: multiset<Bigram>)
    returns (h': multiset<Bigram>)
    requires inp.v.Valid() && left < syms.Length && right < syms.Length
    requires left >= 0 && right >= 0 ==> syms[left].start <= syms[right].start + syms[right].len <= |inp.bytes|
    ensures h' == Offer(inp, syms[..], left, right, h)
  {
    if left < 0 || right < 0 {
      return h;
    }
    var l, r := syms[left], syms[right];
    if l.len == 0 || r.len == 0 {
      return h;
    }
    var piece := inp.bytes[l.start..r.start + r.len];
    if piece in inp.v.lookup {
      return h + multiset{Bigram(left, right, inp.v.scores[inp.v.lookup[piece]], |piece|)};
    }
    return h;
  }

  /** Offering an adjacent live pair adds exactly the candidate it needs, if it needs one. */
  lemma OfferPair(inp: Input, s: seq<Sym>, b: seq<nat>, k: nat, h: multiset<Bigram>)
    requires inp.Valid() && inp.List(s, b) && k < |b| - 2
    ensures b[k] < |s| && b[k + 1] < |s|
    ensures s[b[k]].start <= s[b[k + 1]].start + s[b[k + 1]].len <= |inp.bytes|
    ensures
      var h' := Offer(inp, s, b[k], b[k + 1], h);
      && h' == h + (if inp.Slice(b, k, k + 2) in inp.v.lookup then multiset{inp.Candidate(b, k)} else multiset{})
      && inp.Covered(b, h', k)
      && h <= h'
      && forall x :: x in h' ==> x in h || inp.Entry(s, x)
  {
    hide Increasing;
    LinksInRange(inp, s, b, k);
    CutOrder(inp, b, k + 1, k + 2);
    if inp.Slice(b, k, k + 2) in inp.v.lookup {
      CandidateIsFresh(inp, s, b, k);
    }
  }

  lemma MoreCovers(inp: Input, b: seq<nat>, h: multiset<Bigram>, h': multiset<Bigram>, k: int)
    requires inp.Valid() && inp.Cuts(b) && h <= h' && inp.Covered(b, h, k)
    ensures inp.Covered(b, h', k)
  {
  }

  /** Dropping an entry that fails the check costs no live pair its candidate. */
  lemma StaleDropped(inp: Input, s: seq<Sym>, b: seq<nat>, h: multiset<Bigram>, e: Bigram)
    requires inp.Valid() && inp.List(s, b) && inp.Queue(s, b, h)
    requires e in h && e.left < |s| && e.right < |s| && !Fresh(s, e)
    ensures inp.Queue(s, b, h - multiset{e})
  {
    hide Increasing;
    forall k
      ensures inp.Covered(b, h - multiset{e}, k)
    {
      assert inp.Covered(b, h, k);
      if 0 <= k < |b| - 2 && inp.Slice(b, k, k + 2) in inp.v.lookup {
        CandidateIsFresh(inp, s, b, k);
      }
    }
  }

  /** The two heap offers a merge makes around the merged symbol. */
  function Reoffer(inp: Input, t: seq<Sym>, l: nat, h: multiset<Bigram>): multiset<Bigram>
    requires inp.v.Valid() && l < |t| && t[l].prev < |t| && t[l].next < |t|
    requires t[l].prev >= 0 ==> t[t[l].prev].start <= t[l].start + t[l].len <= |inp.bytes|
    requires t[l].next >= 0 ==> t[l].start <= t[t[l].next].start + t[t[l].next].len <= |inp.bytes|
  {
    Offer(inp, t, l, t[l].next, Offer(inp, t, t[l].prev, l, h))
  }

  lemma NeighbourBounds(inp: Input, t: seq<Sym>, d: seq<nat>, k: nat)
    requires inp.Valid() && inp.List(t, d) && k < |d| - 1
    ensures d[k] < |t| && t[d[k]] == inp.Expected(d, k)
    ensures t[d[k]].prev < |t| && t[d[k]].next < |t|
    ensures t[d[k]].prev >= 0 ==> t[t[d[k]].prev].start <= t[d[k]].start + t[d[k]].len <= |inp.bytes|
    ensures t[d[k]].next >= 0 ==> t[d[k]].start <= t[t[d[k]].next].start + t[t[d[k]].next].len <= |inp.bytes|
  {
    hide Increasing;
    assert inp.Linked(t, d, k);
    CutOrder(inp, d, k, k + 1);
    if k > 0 {
      OfferPair(inp, t, d, k - 1, multiset{});
    }
    if k < |d| - 2 {
      OfferPair(inp, t, d, k, multiset{});
    }
  }

  lemma OfferGrows(inp: Input, s: seq<Sym>, left: int, right: int, h: multiset<Bigram>)
    requires inp.v.Valid() && left < |s| && right < |s|
    requires left >= 0 && right >= 0 ==> s[left].start <= s[right].start + s[right].len <= |inp.bytes|
    ensures h <= Offer(inp, s, left, right, h)
    ensures left < 0 || right < 0 ==> Offer(inp, s, left, right, h) == h
  {
  }

  /** The first offer, to the merged symbol's left neighbour. */
  lemma LeftOffer(inp: Input, t: seq<Sym>, d: seq<nat>, k: nat, h0: multiset<Bigram>, h1: multiset<Bigram>)
    requires inp.Valid() && inp.List(t, d) && k < |d| - 1 && d[k] < |t| && t[d[k]].prev < |t|
    requires t[d[k]].prev >= 0 ==> t[t[d[k]].prev].start <= t[d[k]].start + t[d[k]].len <= |inp.bytes|
    requires h1 == Offer(inp, t, t[d[k]].prev, d[k], h0)
    ensures h0 <= h1 && inp.Covered(d, h1, k - 1)
    ensures forall x :: x in h1 ==> x in h0 || inp.Entry(t, x)
  {
    hide Increasing, Offer;
    NeighbourBounds(inp, t, d, k);
    OfferGrows(inp, t, t[d[k]].prev, d[k], h0);
    if k > 0 {
      OfferPair(inp, t, d, k - 1, h0);
    }
  }

  /** The second offer, to its right neighbour. */
  lemma RightOffer(inp: Input, t: seq<Sym>, d: seq<nat>, k: nat, h1: multiset<Bigram>, h2: multiset<Bigram>)
    requires inp.Valid() && inp.List(t, d) && k < |d| - 1 && d[k] < |t| && t[d[k]].next < |t|
    requires t[d[k]].next >= 0 ==> t[d[k]].start <= t[t[d[k]].next].start + t[t[d[k]].next].len <= |inp.bytes|
    requires h2 == Offer(inp, t, d[k], t[d[k]].next, h1)
    ensures h1 <= h2 && inp.Covered(d, h2, k)
    ensures forall x :: x in h2 ==> x in h1 || inp.Entry(t, x)
  {
    hide Increasing, Offer;
    NeighbourBounds(inp, t, d, k);
    OfferGrows(inp, t, d[k], t[d[k]].next, h1);
    if k < |d| - 2 {
      OfferPair(inp, t, d, k, h1);
    }
  }

  /** After a merge and the two offers, the heap again covers every mergeable pair. */
  lemma MergedQueue(inp: Input, s: seq<Sym>, b: seq<nat>, k: nat, h: multiset<Bigram>, e: Bigram, t: seq<Sym>)
    requires inp.Valid() && inp.List(s, b) && inp.Queue(s, b, h) && k < |b| - 2
    requires Unlinks(inp, s, b, k, t) && e.left == b[k]
    ensures inp.List(t, Drop(b, k)) && b[k] < |t| && t[b[k]].prev < |t| && t[b[k]].next < |t|
    ensures t[b[k]].prev >= 0 ==> t[t[b[k]].prev].start <= t[b[k]].start + t[b[k]].len <= |inp.bytes|
    ensures t[b[k]].next >= 0 ==> t[b[k]].start <= t[t[b[k]].next].start + t[t[b[k]].next].len <= |inp.bytes|
    ensures inp.Queue(t, Drop(b, k), Reoffer(inp, t, b[k], h - multiset{e}))
  {
    hide Increasing, Unlinks, Offer;
    var d := Drop(b, k);
    assert d[k] == b[k];
    UnlinkedList(inp, s, b, k, t);
    NeighbourBounds(inp, t, d, k);
    var h0 := h - multiset{e};
    var h1 := Offer(inp, t, t[b[k]].prev, b[k], h0);
    var h2 := Offer(inp, t, b[k], t[b[k]].next, h1);
    LeftOffer(inp, t, d, k, h0, h1);
    RightOffer(inp, t, d, k, h1, h2);
    forall x | x in h2
      ensures inp.Entry(t, x)
    {
      if x in h {
        EntrySurvives(inp, s, b, k, t, x);
      }
    }
    forall j
      ensures inp.Covered(d, h2, j)
    {
      if j == k - 1 {
        MoreCovers(inp, d, h1, h2, j);
      } else if j != k {
        CandidateSurvives(inp, b, k, h, e, j);
        MoreCovers(inp, d, h0, h2, j);
      }
    }
  }

  // ---------------------------------------------------------------- the encoder

  function Offsets(norm: string): seq<nat> {
    seq(|norm| + 1, i requires 0 <= i <= |norm| => |Encode(norm[..i])|)
  }

  ghost function Identity(n: nat): seq<nat> {
    seq(n + 1, i requires 0 <= i <= n => i)
  }

  lemma EncodeSplit(norm: string, i: nat)
    requires i < |norm|
    ensures Encode(norm[..i + 1]) == Encode(norm[..i]) + EncodeChar(norm[i])
    ensures Encode(norm) == Encode(norm[..i]) + EncodeChar(norm[i]) + Encode(norm[i + 1..])
  {
    hide EncodeChar, Encode;
    var a, m, z := norm[..i], [norm[i]], norm[i + 1..];
    assert norm[..i + 1] == a + m;
    EncodeConcat(a, m);
    OneEncoded(norm[i]);
    assert norm == (a + m) + z;
    EncodeConcat(a + m, z);
  }

  lemma OneEncoded(c: char)
    ensures Encode([c]) == EncodeChar(c)
  {
    assert [c][1..] == [] && Encode([]) == [];
  }

  lemma {:induction false} OffsetsIncrease(norm: string, i: nat, j: nat)
    requires i < j <= |norm|
    ensures |Encode(norm[..i])| < |Encode(norm[..j])|
    decreases j
  {
    EncodeSplit(norm, j - 1);
    if i < j - 1 {
      OffsetsIncrease(norm, i, j - 1);
    }
  }

  lemma OffsetsValid(v: Vocab, norm: string)
    requires v.Valid()
    ensures Input(v, Encode(norm), Offsets(norm)).Valid()
    ensures Input(v, Encode(norm), Offsets(norm)).Cuts(Identity(|norm|))
  {
    var ofs := Offsets(norm);
    assert norm[..|norm|] == norm;
    forall i, j | 0 <= i < j < |ofs|
      ensures ofs[i] < ofs[j]
    {
      OffsetsIncrease(norm, i, j);
    }
  }

  lemma InitialSeg(v: Vocab, norm: string, i: nat)
    requires v.Valid() && i < |norm| && Input(v, Encode(norm), Offsets(norm)).Valid()
    requires Input(v, Encode(norm), Offsets(norm)).Cuts(Identity(|norm|))
    ensures Input(v, Encode(norm), Offsets(norm)).Seg(Identity(|norm|), i) == EncodeChar(norm[i])
  {
    hide Increasing, EncodeChar;
    EncodeSplit(norm, i);
    var ofs := Offsets(norm);
    assert ofs[i] == |Encode(norm[..i])| && ofs[i + 1] == |Encode(norm[..i + 1])|;
  }

  lemma InitialInput(v: Vocab, norm: string)
    requires v.Valid()
    ensures var inp := Input(v, Encode(norm), Offsets(norm));
      inp.Valid() && inp.Cuts(Identity(|norm|)) && inp.Segs(Identity(|norm|)) == Symbols(norm)
  {
    hide Increasing, EncodeChar;
    OffsetsValid(v, norm);
    var inp, b := Input(v, Encode(norm), Offsets(norm)), Identity(|norm|);
    forall i | 0 <= i < |norm|
      ensures inp.Segs(b)[i] == Symbols(norm)[i]
    {
      InitialSeg(v, norm, i);
    }
  }

  method BuildSymbols(norm: string) returns (syms: array<Sym>)
    ensures fresh(syms) && syms.Length == |norm|
    ensures forall i :: 0 <= i < |norm| ==>
      syms[i] == Sym(|Encode(norm[..i])|, |EncodeChar(norm[i])|, i - 1, if i == |norm| - 1 then -1 else i + 1)
  {
    syms := new Sym[|norm|](_ => Sym(0, 0, -1, -1));
    var start := 0;
    for idx := 0 to |norm|
      invariant start == |Encode(norm[..idx])|
      invariant forall i :: 0 <= i < idx ==>
        syms[i] == Sym(|Encode(norm[..i])|, |EncodeChar(norm[i])|, i - 1, i + 1)
    {
      EncodeSplit(norm, idx);
      syms[idx] := Sym(start, |EncodeChar(norm[idx])|, idx - 1, idx + 1);
      start := start + |EncodeChar(norm[idx])|;
    }
    if syms.Length > 0 {
      var last := syms.Length - 1;
      syms[last] := syms[last].(next := -1);
    }
  }

  lemma InitialList(v: Vocab, norm: string, s: seq<Sym>)
    requires v.Valid() && |s| == |norm|
    requires forall i :: 0 <= i < |norm| ==>
      s[i] == Sym(|Encode(norm[..i])|, |EncodeChar(norm[i])|, i - 1, if i == |norm| - 1 then -1 else i + 1)
    ensures var inp := Input(v, Encode(norm), Offsets(norm)); inp.Valid() && inp.List(s, Identity(|norm|))
  {
    hide Increasing;
    InitialInput(v, norm);
    var inp, b := Input(v, Encode(norm), Offsets(norm)), Identity(|norm|);
    forall k | 0 <= k < |b| - 1
      ensures inp.Linked(s, b, k)
    {
      EncodeSplit(norm, k);
    }
    forall i | 0 <= i < |s|
      ensures i in b
    {
      assert b[i] == i;
    }
  }

  /** The first pass offers every adjacent pair once. */
  method Seed(inp: Input, syms: array<Sym>, ghost b: seq<nat>) returns (h: multiset<Bigram>)
    requires inp.Valid() && inp.List(syms[..], b)
    requires |b| == syms.Length + 1 && forall i :: 0 <= i < |b| ==> b[i] == i
    ensures inp.Queue(syms[..], b, h)
  {
    h := multiset{};
    var i := 1;
    while i < syms.Length
      invariant 1 <= i && (i <= syms.Length || syms.Length == 0)
      invariant forall x :: x in h ==> inp.Entry(syms[..], x)
      invariant forall k :: k < i - 1 ==> inp.Covered(b, h, k)
    {
      OfferPair(inp, syms[..], b, i - 1, h);
      assert b[i - 1] == i - 1 && b[i] == i;
      ghost var was := h;
      h := TryBigram(inp, syms, i - 1, i, h);
      forall k | k < i
        ensures inp.Covered(b, h, k)
      {
        if k < i - 1 {
          MoreCovers(inp, b, was, h, k);
        }
      }
      i := i + 1;
    }
  }

  lemma OrderIsTotal()
    ensures Heap.TotalPreorder(BigramLe)
  {
  }

  /** Fold symbol `r` into `l` and thread the list past it. */
  method Fold(syms: array<Sym>, l: nat, r: nat)
    requires l < r < syms.Length && r as int != syms[r].next < syms.Length && l as int != syms[r].next
    modifies syms
    ensures syms[..] == Unlinked(old(syms[..]), l, r)
  {
    var rNext := syms[r].next;
    syms[l] := syms[l].(len := syms[l].len + syms[r].len);
    syms[r] := syms[r].(len := 0);
    syms[l] := syms[l].(next := rNext);
    if rNext >= 0 {
      syms[rNext] := syms[rNext].(prev := l);
    }
  }

  lemma NextIsFurther(inp: Input, s: seq<Sym>, b: seq<nat>, k: nat)
    requires inp.Valid() && inp.List(s, b) && k < |b| - 2
    ensures b[k] < b[k + 1] < |s| && s[b[k + 1]].next < |s|
    ensures s[b[k + 1]].next >= 0 ==> b[k + 1] < s[b[k + 1]].next
  {
    hide Increasing;
    LinksInRange(inp, s, b, k);
    CutOrder(inp, b, k + 1, |b| - 1);
  }

  /** One merge, in terms of the reference: the popped pair is the best pair. */
  lemma MergeIsGreedy(inp: Input, s: seq<Sym>, b: seq<nat>, h: multiset<Bigram>, e: Bigram) returns (k: nat)
    requires inp.Valid() && inp.List(s, b) && inp.Queue(s, b, h)
    requires e in h && forall x :: x in h ==> BigramLe(x, e)
    requires e.left < |s| && e.right < |s| && Fresh(s, e)
    ensures k < |b| - 2 && e.left == b[k] && e.right == b[k + 1]
    ensures b[k] < b[k + 1] < |s| && s[b[k + 1]].next < |s|
    ensures inp.Cuts(Drop(b, k)) && Greedy(inp.v, inp.Segs(Drop(b, k))) == Greedy(inp.v, inp.Segs(b))
    ensures Unlinks(inp, s, b, k, Unlinked(s, b[k], b[k + 1]))
  {
    hide Increasing, Unlinks;
    k := FreshMeansAdjacent(inp, s, b, e);
    TopIsBest(inp, s, b, h, e, k);
    GreedyStep(inp.v, inp.Segs(b), k);
    DropCuts(inp, b, k);
    UnlinkedUnlinks(inp, s, b, k);
  }

  /** Merge the pair on top of the heap, and offer the merged symbol to its neighbours. */
  method MergeOne(inp: Input, syms: array<Sym>, ghost heap: multiset<Bigram>, rest: multiset<Bigram>, bg: Bigram, ghost b: seq<nat>)
    returns (h: multiset<Bigram>, ghost b': seq<nat>)
    requires inp.Valid() && inp.List(syms[..], b) && inp.Queue(syms[..], b, heap)
    requires bg in heap && rest == heap - multiset{bg} && forall x :: x in heap ==> BigramLe(x, bg)
    requires bg.left < syms.Length && bg.right < syms.Length && Fresh(syms[..], bg)
    modifies syms
    ensures inp.List(syms[..], b') && inp.Queue(syms[..], b', h) && |b'| < |b|
    ensures Greedy(inp.v, inp.Segs(b')) == Greedy(inp.v, inp.Segs(b))
  {
    hide Increasing, Unlinks, Unlinked, Offer, Greedy, Input.List, Input.Queue, Input.Segs, BigramLe, Fresh;
    ghost var s := syms[..];
    var l, r := bg.left, bg.right;
    ghost var k := MergeIsGreedy(inp, s, b, heap, bg);
    NextIsFurther(inp, s, b, k);
    Fold(syms, l, r);
    MergedQueue(inp, s, b, k, heap, bg, syms[..]);
    var prev, next := syms[l].prev, syms[l].next;
    h := TryBigram(inp, syms, prev, l, rest);
    h := TryBigram(inp, syms, l, next, h);
    b' := Drop(b, k);
  }

  /** Merge until the heap runs dry. */
  method MergeAll(inp: Input, syms: array<Sym>, h: multiset<Bigram>, ghost b: seq<nat>)
    returns (ghost b': seq<nat>)
    requires inp.Valid() && inp.List(syms[..], b) && inp.Queue(syms[..], b, h)
    modifies syms
    ensures inp.List(syms[..], b')
    ensures inp.Segs(b') == Greedy(inp.v, inp.Segs(b))
  {
    hide Increasing, Unlinks, Unlinked, Offer;
    OrderIsTotal();
    b' := b;
    var heap := h;
    while heap != multiset{}
      invariant inp.List(syms[..], b') && inp.Queue(syms[..], b', heap)
      invariant Greedy(inp.v, inp.Segs(b')) == Greedy(inp.v, inp.Segs(b))
      decreases |b'|, |heap|
    {
      var bg, rest := Heap.PopMax(heap, BigramLe);
      var l, r := bg.left, bg.right;
      ghost var s := syms[..];
      assert inp.Entry(s, bg);
      if syms[l].len == 0 || syms[r].len == 0 {
        StaleDropped(inp, s, b', heap, bg);
        heap := rest;
        continue;
      }
      if syms[l].len + syms[r].len != bg.size {
        StaleDropped(inp, s, b', heap, bg);
        heap := rest;
        continue;
      }
      heap, b' := MergeOne(inp, syms, heap, rest, bg, b');
    }
    EmptyQueueMeansDone(inp, syms[..], b');
  }

  lemma LiveSymbol(inp: Input, s: seq<Sym>, b: seq<nat>, k: nat)
    requires inp.Valid() && inp.List(s, b) && k < |b| - 1
    ensures b[k] < |s| && s[b[k]].len > 0 && s[b[k]].start + s[b[k]].len <= |inp.bytes|
    ensures inp.bytes[s[b[k]].start..s[b[k]].start + s[b[k]].len] == inp.Segs(b)[k]
    ensures s[b[k]].next == if k + 1 < |b| - 1 then b[k + 1] else -1
  {
    hide Increasing;
    assert inp.Linked(s, b, k);
    CutOrder(inp, b, k, k + 1);
  }

  lemma ListShape(inp: Input, s: seq<Sym>, b: seq<nat>)
    requires inp.Valid() && inp.List(s, b)
    ensures inp.v.Valid() && inp.Cuts(b) && |inp.Segs(b)| == |b| - 1 && b[0] == 0
    ensures |s| == 0 <==> |b| == 1
    ensures EmitAll(inp.v, inp.Segs(b)[..0]) == []
  {
  }

  /** Walk the list from the front, emitting each live symbol. */
  method Output(inp: Input, syms: array<Sym>, ghost b: seq<nat>, head: seq<Token>) returns (out: seq<Token>)
    requires inp.Valid() && inp.List(syms[..], b)
    ensures out == head + EmitAll(inp.v, inp.Segs(b))
    ensures |out| >= |head| && out[..|head|] == head && Says(inp.v, inp.Segs(b), out[|head|..])
    ensures HaveTokens(inp.v, Flatten(inp.Segs(b))) ==> Spells(inp.v, out[|head|..], Flatten(inp.Segs(b)))
  {
    hide *;
    out := head;
    var i: int := 0;
    ghost var k := 0;
    ListShape(inp, syms[..], b);
    ghost var segs := inp.Segs(b);
    while i >= 0 && i < syms.Length
      invariant 0 <= k <= |segs|
      invariant i == if k < |segs| then b[k] else if |segs| == 0 then 0 else -1
      invariant out == head + EmitAll(inp.v, segs[..k])
      decreases |segs| - k
    {
      LiveSymbol(inp, syms[..], b, k);
      var s := syms[i];
      if s.len > 0 {
        EmitNext(inp.v, segs, k);
        out := out + Emit(inp.v, inp.bytes[s.start..s.start + s.len]);
      }
      i := s.next;
      k := k + 1;
    }
    if k < |segs| {
      LiveSymbol(inp, syms[..], b, k);
    }
    assert segs[..|segs|] == segs;
    EmitAllSays(inp.v, segs);
    if HaveTokens(inp.v, Flatten(segs)) {
      EmitAllSpells(inp.v, segs);
    }
    assert out[|head|..] == EmitAll(inp.v, segs);
  }

  lemma EmitNext(v: Vocab, segs: seq<Piece>, k: nat)
    requires v.Valid() && k < |segs|
    ensures EmitAll(v, segs[..k + 1]) == EmitAll(v, segs[..k]) + Emit(v, segs[k])
  {
    assert segs[..k + 1][..k] == segs[..k];
  }

  /** The encoder computes exactly the reference's tokens, for every text and vocabulary. */
  method EncodeSpm(v: Vocab, text: string, lead: bool) returns (out: seq<Token>)
    requires v.Valid()
    ensures out == Reference(v, text, lead)
    ensures
      var at := if lead && v.addBos then 1 else 0;
      && |out| >= at && out[..at] == [v.bos][..at]
      && exists norm, segs :: Marked(text, lead, norm) && Tokenises(v, Encode(norm), segs, out[at..])
  {
    var norm := Normalize(text, lead);
    var syms := BuildSymbols(norm);
    ghost var b := Identity(|norm|);
    InitialInput(v, norm);
    InitialList(v, norm, syms[..]);
    var bytes := Encode(norm);
    var inp := Input(v, bytes, Offsets(norm));
    var heap := Seed(inp, syms, b);
    ghost var b' := MergeAll(inp, syms, heap, b);
    out := Output(inp, syms, b', if lead && v.addBos then [v.bos] else []);
    NormalizeMarks(text, lead, norm);
    ReferenceTokenises(v, text, lead, norm);
  }
}
