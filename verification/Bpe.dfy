/** The byte-level BPE tokenizer: every byte has a character, every text survives encoding and
  * decoding, and decoding a token at a time says what decoding all at once says. */
module Bpe {
  import opened Basics
  import opened Utf8
  import opened Pattern
  import opened Split

  // ---------------------------------------------------------------- bytes as characters

  predicate Printable(b: Byte) {
    0x21 <= b < 0x7F || 0xA1 <= b < 0xAD || 0xAE <= b < 0x100
  }

  /** How many bytes below `n` are displaced. */
  function Displaced(n: nat): (r: nat)
    requires n <= 256
    ensures r <= n
  {
    if n == 0 then 0 else Displaced(n - 1) + if Printable(n - 1) then 0 else 1
  }

  /** The character that stands for a byte. */
  function CharOf(b: Byte): char {
    if Printable(b) then b as char else (0x100 + Displaced(b)) as char
  }

  /** `byte_to_char`: the table, filled in order with a running counter. */
  method ByteToChar() returns (table: seq<char>)
    ensures |table| == 256 && forall b: Byte :: table[b] == CharOf(b)
  {
    table := [];
    var next := 0;
    for b := 0 to 256
      invariant |table| == b && next == Displaced(b)
      invariant forall i: Byte :: i < b ==> table[i] == CharOf(i)
    {
      if Printable(b) {
        table := table + [b as char];
      } else {
        table := table + [(0x100 + next) as char];
        next := next + 1;
      }
    }
  }

  lemma {:induction false} DisplacedGrows(a: nat, b: nat)
    requires a < b <= 256 && !Printable(a)
    ensures Displaced(a) < Displaced(b)
    decreases b
  {
    if a < b - 1 {
      DisplacedGrows(a, b - 1);
    }
  }

  /** No two bytes share a character. */
  lemma CharOfIsInjective(a: Byte, b: Byte)
    requires CharOf(a) == CharOf(b)
    ensures a == b
  {
    if !Printable(a) && !Printable(b) {
      if a < b {
        DisplacedGrows(a, b);
      } else if b < a {
        DisplacedGrows(b, a);
      }
    }
  }

  /** The byte alphabet, range by range: the visible characters of Latin-1 are themselves, and the others are
    * the characters from U+0100 on, in order. */
  lemma CharOfIs(b: Byte)
    ensures CharOf(b) as int ==
      if b <= 0x20 then 0x100 + b
      else if 0x7F <= b <= 0xA0 then 0x121 + (b - 0x7F)
      else if b == 0xAD then 0x143
      else b
  {
    DisplacedIs(b);
  }

  lemma {:induction false} DisplacedIs(n: nat)
    requires n <= 256
    ensures Displaced(n) ==
      if n <= 0x21 then n else if n <= 0x7F then 0x21 else if n <= 0xA1 then 0x21 + (n - 0x7F)
      else if n <= 0xAD then 0x43 else 0x44
  {
    if n > 0 {
      DisplacedIs(n - 1);
    }
  }

  /** The byte a character stands for, if it stands for one. */
  function ByteFor(c: char, n: nat): (r: Option<Byte>)
    requires n <= 256
    ensures r.Some? ==> CharOf(r.value) == c
    ensures r.None? ==> forall b: Byte :: b < n ==> CharOf(b) != c
  {
    if n == 0 then None else if CharOf(n - 1) == c then Some(n - 1) else ByteFor(c, n - 1)
  }

  lemma ByteForChar(b: Byte)
    ensures ByteFor(CharOf(b), 256) == Some(b)
  {
    CharOfIsInjective(b, ByteFor(CharOf(b), 256).value);
  }

  /** A text of stand-in characters. */
  function Rewritten(bs: seq<Byte>): (s: string)
    ensures |s| == |bs|
  {
    if bs == [] then [] else [CharOf(bs[0])] + Rewritten(bs[1..])
  }

  // ---------------------------------------------------------------- the vocabulary

  datatype Vocab = Vocab(tokens: seq<string>, special: seq<bool>, lookup: map<string, nat>, merges: map<(string, string), nat>)
  {
    /** What loading guarantees: the table leads back to the entry, never to one without text, and
      * every byte can be said. */
    ghost predicate Valid() {
      && |special| == |tokens|
      && (forall t :: t in lookup ==> Leads(t))
      && forall b: Byte :: [CharOf(b)] in lookup
    }

    predicate Leads(t: string)
      requires t in lookup && |special| == |tokens|
    {
      lookup[t] < |tokens| && tokens[lookup[t]] == t && !special[lookup[t]]
    }
  }

  const TYPE_CONTROL := 3
  const TYPE_USER_DEFINED := 4
  const TYPE_UNUSED := 5

  function TypeOf(types: seq<int>, i: nat): int { if i < |types| then types[i] else 1 }

  predicate NoText(t: int) { t == TYPE_CONTROL || t == TYPE_UNUSED }

  /** Whether entry `i` can be reached from ordinary text. */
  predicate Ordinary(types: seq<int>, i: nat) {
    !NoText(TypeOf(types, i)) && TypeOf(types, i) != TYPE_USER_DEFINED
  }

  /** Control tokens and unused ones (types 3 and 5) have no text, and those, like the user's own (type 4), are
    * never reached from ordinary text. A token without a type is an ordinary one. */
  lemma TypesAre(types: seq<int>, i: nat)
    ensures NoText(TypeOf(types, i)) <==> i < |types| && (types[i] == 3 || types[i] == 5)
    ensures Ordinary(types, i) <==> i >= |types| || (types[i] != 3 && types[i] != 4 && types[i] != 5)
  {
  }

  /** The bytes of one token: stand-ins back to bytes, anything else as its own UTF-8. */
  function CharBytes(c: char): seq<Byte> {
    match ByteFor(c, 256)
    case Some(b) => [b]
    case None => EncodeChar(c)
  }

  function StringBytes(s: string): seq<Byte> {
    if s == [] then [] else CharBytes(s[0]) + StringBytes(s[1..])
  }

  function TokenBytes(v: Vocab, id: nat): seq<Byte>
    requires |v.special| == |v.tokens|
  {
    if id >= |v.tokens| || v.special[id] then [] else StringBytes(v.tokens[id])
  }

  function AllBytes(v: Vocab, ids: seq<nat>): seq<Byte>
    requires |v.special| == |v.tokens|
  {
    if ids == [] then [] else AllBytes(v, ids[..|ids| - 1]) + TokenBytes(v, ids[|ids| - 1])
  }

  lemma {:induction false} StringBytesRewritten(bs: seq<Byte>)
    ensures StringBytes(Rewritten(bs)) == bs
  {
    if bs != [] {
      ByteForChar(bs[0]);
      StringBytesRewritten(bs[1..]);
      assert Rewritten(bs)[1..] == Rewritten(bs[1..]);
    }
  }

  lemma {:induction false} StringBytesConcat(a: string, b: string)
    ensures StringBytes(a + b) == StringBytes(a) + StringBytes(b)
  {
    if a == [] {
      assert a + b == b;
    } else {
      assert (a + b)[1..] == a[1..] + b;
      StringBytesConcat(a[1..], b);
    }
  }

  lemma {:induction false} AllBytesConcat(v: Vocab, a: seq<nat>, b: seq<nat>)
    requires |v.special| == |v.tokens|
    ensures AllBytes(v, a + b) == AllBytes(v, a) + AllBytes(v, b)
    decreases |b|
  {
    hide TokenBytes;
    if b == [] {
      assert a + b == a;
    } else {
      var front, last := b[..|b| - 1], TokenBytes(v, b[|b| - 1]);
      assert (a + b)[..|a + b| - 1] == a + front;
      AllBytesConcat(v, a, front);
      Regroup(AllBytes(v, a), AllBytes(v, front), last);
    }
  }

  /** A text without stand-ins is its own UTF-8. */
  lemma {:induction false} OwnText(s: string)
    requires forall i, b: Byte :: 0 <= i < |s| ==> CharOf(b) != s[i]
    ensures StringBytes(s) == Encode(s)
  {
    if s != [] {
      assert forall i, b: Byte :: 0 <= i < |s[1..]| ==> CharOf(b) != s[1..][i];
      OwnText(s[1..]);
      assert ByteFor(s[0], 256).None?;
    }
  }

  // ---------------------------------------------------------------- the merge list

  /** `split_once(' ')`: before and after the first space. */
  function Halves(s: string): (r: Option<(string, string)>)
    ensures r.Some? ==> s == r.value.0 + (" " + r.value.1) && ' ' !in r.value.0
    ensures r.None? ==> ' ' !in s
  {
    if s == [] then None
    else if s[0] == ' ' then Some(("", s[1..]))
    else match Halves(s[1..])
      case Some((l, r)) => Some(([s[0]] + l, r))
      case None => None
  }

  /** Entry `i` of the list says to merge the pair. */
  predicate Merging(list: seq<Option<string>>, i: nat, pair: (string, string)) {
    i < |list| && list[i].Some? && Halves(list[i].value) == Some(pair)
  }

  /** A pair's rank is the last place the list has it. */
  ghost predicate RanksOf(list: seq<Option<string>>, n: nat, merges: map<(string, string), nat>) {
    && (forall pair :: pair in merges ==> merges[pair] < n && Merging(list, merges[pair], pair))
    && (forall i: nat, pair :: i < n && Merging(list, i, pair) ==> pair in merges && i <= merges[pair])
  }

  /** The merge list of the file: entries that are no text, or have no space, are skipped. */
  method ReadMerges(list: seq<Option<string>>) returns (merges: map<(string, string), nat>)
    ensures RanksOf(list, |list|, merges)
  {
    hide Halves;
    merges := map[];
    for rank := 0 to |list|
      invariant RanksOf(list, rank, merges)
    {
      if list[rank].Some? {
        var halves := Halves(list[rank].value);
        if halves.Some? {
          merges := merges[halves.value := rank];
        }
      }
    }
  }

  /** An ordinary entry has the text. */
  ghost predicate Said(tokens: seq<string>, types: seq<int>, t: string) {
    exists i: nat :: i < |tokens| && tokens[i] == t && Ordinary(types, i)
  }

  /** Every listed text leads to the first ordinary entry that has it, and every such text is listed. */
  ghost predicate FirstOf(tokens: seq<string>, types: seq<int>, lookup: map<string, nat>) {
    && (forall t :: t in lookup ==> lookup[t] < |tokens| && tokens[lookup[t]] == t && Ordinary(types, lookup[t]))
    && (forall i: nat :: i < |tokens| && Ordinary(types, i) ==> tokens[i] in lookup && lookup[tokens[i]] <= i)
  }

  /** What is missing when loading fails: the first of the three that is. */
  ghost predicate Lacks(tokens: seq<string>, types: seq<int>, list: seq<Option<string>>, e: LoadError) {
    match e
    case NoTokens => tokens == []
    case NoMerges => tokens != [] && !exists i: nat, pair :: Merging(list, i, pair)
    case MissingByte(b) =>
      && tokens != [] && (exists i: nat, pair :: Merging(list, i, pair))
      && !Said(tokens, types, [CharOf(b)]) && forall c: Byte :: c < b ==> Said(tokens, types, [CharOf(c)])
  }

  /** `from_gguf`, from the file's token list, types and merge list: the tables, or why there can be none. */
  datatype LoadError = NoTokens | NoMerges | MissingByte(b: Byte)

  method Load(tokens: seq<string>, types: seq<int>, list: seq<Option<string>>) returns (r: Result<Vocab, LoadError>)
    ensures r.Ok? ==> r.value.Valid() && r.value.tokens == tokens && RanksOf(list, |list|, r.value.merges)
    ensures r.Ok? ==> forall i: nat :: i < |tokens| ==> (r.value.special[i] <==> i < |types| && (types[i] == 3 || types[i] == 5))
    ensures r.Ok? ==> FirstOf(tokens, types, r.value.lookup)
    ensures r.Ok? <==>
      tokens != [] && (exists i: nat, pair :: Merging(list, i, pair)) && forall b: Byte :: Said(tokens, types, [CharOf(b)])
    ensures r.Err? ==> Lacks(tokens, types, list, r.error)
  {
    if tokens == [] {
      return Err(NoTokens);
    }
    var merges := ReadMerges(list);
    SomeMerges(list, merges);
    if merges == map[] {
      return Err(NoMerges);
    }
    var special := seq(|tokens|, i requires 0 <= i < |tokens| => NoText(TypeOf(types, i)));
    var lookup := Table(tokens, types);
    var v := Vocab(tokens, special, lookup, merges);
    hide CharOf, Ordinary, Merging, RanksOf, Said;
    var missing := Unsayable(lookup);
    if missing.Some? {
      return Err(MissingByte(missing.value));
    }
    Loaded(v, types);
    return Ok(v);
  }

  /** The first byte that has no entry. */
  method Unsayable(lookup: map<string, nat>) returns (r: Option<Byte>)
    ensures r.None? ==> forall b: Byte :: [CharOf(b)] in lookup
    ensures r.Some? ==> [CharOf(r.value)] !in lookup && forall b: Byte :: b < r.value ==> [CharOf(b)] in lookup
  {
    hide CharOf;
    for b := 0 to 256
      invariant forall i: Byte :: i < b ==> [CharOf(i)] in lookup
    {
      if [CharOf(b)] !in lookup {
        return Some(b);
      }
    }
    return None;
  }

  lemma Loaded(v: Vocab, types: seq<int>)
    requires |v.special| == |v.tokens| && FirstOf(v.tokens, types, v.lookup)
    requires forall i: nat :: i < |v.tokens| ==> v.special[i] == NoText(TypeOf(types, i))
    requires forall b: Byte :: [CharOf(b)] in v.lookup
    ensures v.Valid()
  {
    hide CharOf, TypeOf;
    forall t | t in v.lookup ensures v.Leads(t) {
    }
  }

  lemma SomeMerges(list: seq<Option<string>>, merges: map<(string, string), nat>)
    requires RanksOf(list, |list|, merges)
    ensures merges != map[] <==> exists i: nat, pair :: Merging(list, i, pair)
  {
    hide Halves;
    if pair :| pair in merges {
      assert Merging(list, merges[pair], pair);
    }
  }

  /** The first ordinary entry with a text is the one its text leads to. */
  method Table(tokens: seq<string>, types: seq<int>) returns (lookup: map<string, nat>)
    ensures FirstOf(tokens, types, lookup)
    ensures forall t :: t in lookup <==> Said(tokens, types, t)
  {
    lookup := map[];
    for id := 0 to |tokens|
      invariant forall t :: t in lookup ==> lookup[t] < id && tokens[lookup[t]] == t && Ordinary(types, lookup[t])
      invariant forall i: nat :: i < id && Ordinary(types, i) ==> tokens[i] in lookup && lookup[tokens[i]] <= i
    {
      if Ordinary(types, id) && tokens[id] !in lookup {
        lookup := lookup[tokens[id] := id];
      }
    }
  }

  // ---------------------------------------------------------------- merging

  function Joined(symbols: seq<string>): string {
    if symbols == [] then [] else symbols[0] + Joined(symbols[1..])
  }

  lemma {:induction false} JoinedConcat(a: seq<string>, b: seq<string>)
    ensures Joined(a + b) == Joined(a) + Joined(b)
  {
    if a == [] {
      assert a + b == b;
    } else {
      assert (a + b)[1..] == a[1..] + b;
      JoinedConcat(a[1..], b);
      Regroup(a[0], Joined(a[1..]), Joined(b));
    }
  }

  predicate Mergeable(v: Vocab, symbols: seq<string>, i: nat) {
    i + 1 < |symbols| && (symbols[i], symbols[i + 1]) in v.merges
  }

  function RankAt(v: Vocab, symbols: seq<string>, i: nat): nat
    requires Mergeable(v, symbols, i)
  {
    v.merges[(symbols[i], symbols[i + 1])]
  }

  /** The lowest-ranked adjacent pair, the leftmost of equals. */
  ghost predicate IsBest(v: Vocab, symbols: seq<string>, i: nat) {
    && Mergeable(v, symbols, i)
    && forall j: nat :: Mergeable(v, symbols, j) ==>
        RankAt(v, symbols, i) <= RankAt(v, symbols, j) && (j < i ==> RankAt(v, symbols, i) < RankAt(v, symbols, j))
  }

  function MergedAt(symbols: seq<string>, i: nat): seq<string>
    requires i + 1 < |symbols|
  {
    symbols[..i] + [symbols[i] + symbols[i + 1]] + symbols[i + 2..]
  }

  /** One after another, the best pair is merged, and in the end there is none. */
  ghost predicate Merges(v: Vocab, from: seq<string>, to: seq<string>)
    decreases |from|
  {
    if forall i: nat :: !Mergeable(v, from, i) then to == from
    else exists i: nat :: i + 1 < |from| && IsBest(v, from, i) && Merges(v, MergedAt(from, i), to)
  }

  lemma OneJoins(x: string)
    ensures Joined([x]) == x
  {
    assert [x][1..] == [];
  }

  lemma PairJoins(x: string, y: string)
    ensures Joined([x, y]) == x + y
  {
    assert [x, y][1..] == [y];
    OneJoins(y);
  }

  lemma ThreeJoin(a: seq<string>, b: seq<string>, c: seq<string>)
    ensures Joined(a + b + c) == Joined(a) + Joined(b) + Joined(c)
  {
    JoinedConcat(a + b, c);
    JoinedConcat(a, b);
  }

  lemma MergedJoins(symbols: seq<string>, i: nat)
    requires i + 1 < |symbols|
    ensures Joined(MergedAt(symbols, i)) == Joined(symbols)
  {
    hide Joined;
    var a, x, y, rest := symbols[..i], symbols[i], symbols[i + 1], symbols[i + 2..];
    assert symbols == a + [x, y] + rest;
    PairJoins(x, y);
    OneJoins(x + y);
    ThreeJoin(a, [x, y], rest);
    ThreeJoin(a, [x + y], rest);
  }

  lemma {:induction false} MergesJoin(v: Vocab, from: seq<string>, to: seq<string>)
    requires Merges(v, from, to)
    ensures Joined(to) == Joined(from)
    ensures forall i: nat :: !Mergeable(v, to, i)
    decreases |from|
  {
    if i: nat :| Mergeable(v, from, i) {
      var j: nat :| j + 1 < |from| && IsBest(v, from, j) && Merges(v, MergedAt(from, j), to);
      MergesJoin(v, MergedAt(from, j), to);
      MergedJoins(from, j);
    }
  }

  method Best(v: Vocab, symbols: seq<string>) returns (best: Option<nat>)
    ensures best.Some? ==> best.value + 1 < |symbols| && IsBest(v, symbols, best.value)
    ensures best.None? ==> forall i: nat :: !Mergeable(v, symbols, i)
  {
    best := None;
    var i := 0;
    while i + 1 < |symbols|
      invariant best.Some? ==> best.value < i && Mergeable(v, symbols, best.value)
      invariant best.Some? ==> forall j: nat :: j < i && Mergeable(v, symbols, j) ==>
        RankAt(v, symbols, best.value) <= RankAt(v, symbols, j) &&
        (j < best.value ==> RankAt(v, symbols, best.value) < RankAt(v, symbols, j))
      invariant best.None? ==> forall j: nat :: j < i ==> !Mergeable(v, symbols, j)
    {
      if (symbols[i], symbols[i + 1]) in v.merges {
        var rank := v.merges[(symbols[i], symbols[i + 1])];
        if best.None? || rank < RankAt(v, symbols, best.value) {
          best := Some(i);
        }
      }
      i := i + 1;
    }
  }

  /** What is reached from `to` is reached from `from`. */
  ghost predicate LeadsTo(v: Vocab, from: seq<string>, to: seq<string>) {
    forall end :: Merges(v, to, end) ==> Merges(v, from, end)
  }

  lemma OneMerge(v: Vocab, from: seq<string>, now: seq<string>, i: nat)
    requires LeadsTo(v, from, now) && i + 1 < |now| && IsBest(v, now, i)
    ensures LeadsTo(v, from, MergedAt(now, i))
  {
    forall end | Merges(v, MergedAt(now, i), end) ensures Merges(v, from, end) {
      assert Merges(v, now, end);
    }
  }

  /** `merge`: the best pair, over and over. */
  method Merge(v: Vocab, symbols: seq<string>) returns (merged: seq<string>)
    ensures Merges(v, symbols, merged)
  {
    merged := symbols;
    while true
      invariant LeadsTo(v, symbols, merged)
      decreases |merged|
    {
      var best := Best(v, merged);
      if best.None? {
        assert Merges(v, merged, merged);
        return;
      }
      OneMerge(v, symbols, merged, best.value);
      merged := MergedAt(merged, best.value);
    }
  }

  lemma BestIsUnique(v: Vocab, symbols: seq<string>, i: nat, j: nat)
    requires IsBest(v, symbols, i) && IsBest(v, symbols, j)
    ensures i == j
  {
    assert Mergeable(v, symbols, i) && Mergeable(v, symbols, j);
  }

  /** Merging comes to one end only. */
  lemma {:induction false} MergesOnce(v: Vocab, from: seq<string>, a: seq<string>, b: seq<string>)
    requires Merges(v, from, a) && Merges(v, from, b)
    ensures a == b
    decreases |from|
  {
    if k: nat :| Mergeable(v, from, k) {
      var i: nat :| i + 1 < |from| && IsBest(v, from, i) && Merges(v, MergedAt(from, i), a);
      var j: nat :| j + 1 < |from| && IsBest(v, from, j) && Merges(v, MergedAt(from, j), b);
      BestIsUnique(v, from, i, j);
      MergesOnce(v, MergedAt(from, i), a, b);
    }
  }

  // ---------------------------------------------------------------- what the ids are

  /** A symbol's ids: its own if it is listed, otherwise those of its characters one by one. */
  ghost predicate SymbolSays(v: Vocab, sym: string, ids: seq<nat>) {
    if sym in v.lookup then ids == [v.lookup[sym]]
    else |ids| == |sym| && forall k :: 0 <= k < |sym| ==> [sym[k]] in v.lookup && ids[k] == v.lookup[[sym[k]]]
  }

  /** The ids of one symbol after another. */
  ghost predicate SymbolsSay(v: Vocab, symbols: seq<string>, ids: seq<nat>) {
    if symbols == [] then ids == []
    else exists n: nat ::
      n <= |ids| && SymbolSays(v, symbols[|symbols| - 1], ids[n..]) && SymbolsSay(v, symbols[..|symbols| - 1], ids[..n])
  }

  /** The ids of one piece of text: its bytes, each its own symbol, merged as far as they go. */
  ghost predicate PieceSays(v: Vocab, piece: string, ids: seq<nat>) {
    exists to :: Merges(v, Singles(Encode(piece)), to) && SymbolsSay(v, to, ids)
  }

  /** The ids of one piece after another. */
  ghost predicate PiecesSay(v: Vocab, text: string, pieces: seq<(nat, nat)>, ids: seq<nat>) {
    if pieces == [] then ids == []
    else
      var (a, b) := pieces[|pieces| - 1];
      && a <= b <= |text|
      && exists n: nat :: n <= |ids| && PieceSays(v, text[a..b], ids[n..]) && PiecesSay(v, text, pieces[..|pieces| - 1], ids[..n])
  }

  lemma {:induction false} SymbolsSayOnce(v: Vocab, symbols: seq<string>, a: seq<nat>, b: seq<nat>)
    requires SymbolsSay(v, symbols, a) && SymbolsSay(v, symbols, b)
    ensures a == b
    decreases |symbols|
  {
    if symbols != [] {
      var front, last := symbols[..|symbols| - 1], symbols[|symbols| - 1];
      var n := LastSymbol(v, symbols, a);
      var m := LastSymbol(v, symbols, b);
      hide SymbolsSay, SymbolSays;
      SymbolsSayOnce(v, front, a[..n], b[..m]);
      SymbolSaysOnce(v, last, a[n..], b[m..]);
      assert a == a[..n] + a[n..] && b == b[..m] + b[m..];
    }
  }

  lemma LastSymbol(v: Vocab, symbols: seq<string>, ids: seq<nat>) returns (n: nat)
    requires symbols != [] && SymbolsSay(v, symbols, ids)
    ensures n <= |ids| && SymbolSays(v, symbols[|symbols| - 1], ids[n..]) && SymbolsSay(v, symbols[..|symbols| - 1], ids[..n])
  {
    hide SymbolSays;
    n :| n <= |ids| && SymbolSays(v, symbols[|symbols| - 1], ids[n..]) && SymbolsSay(v, symbols[..|symbols| - 1], ids[..n]);
  }

  lemma SymbolSaysOnce(v: Vocab, sym: string, a: seq<nat>, b: seq<nat>)
    requires SymbolSays(v, sym, a) && SymbolSays(v, sym, b)
    ensures a == b
  {
  }

  /** A text has one tokenisation. */
  lemma {:induction false} PiecesSayOnce(v: Vocab, text: string, pieces: seq<(nat, nat)>, a: seq<nat>, b: seq<nat>)
    requires PiecesSay(v, text, pieces, a) && PiecesSay(v, text, pieces, b)
    ensures a == b
    decreases |pieces|
  {
    if pieces != [] {
      var front := pieces[..|pieces| - 1];
      var (x, y) := pieces[|pieces| - 1];
      var n := LastPiece(v, text, pieces, a);
      var m := LastPiece(v, text, pieces, b);
      hide PieceSays, PiecesSay;
      PiecesSayOnce(v, text, front, a[..n], b[..m]);
      PieceSaysOnce(v, text[x..y], a[n..], b[m..]);
      assert a == a[..n] + a[n..] && b == b[..m] + b[m..];
    }
  }

  lemma LastPiece(v: Vocab, text: string, pieces: seq<(nat, nat)>, ids: seq<nat>) returns (n: nat)
    requires pieces != [] && PiecesSay(v, text, pieces, ids)
    ensures
      var (a, b) := pieces[|pieces| - 1];
      && a <= b <= |text| && n <= |ids|
      && PieceSays(v, text[a..b], ids[n..]) && PiecesSay(v, text, pieces[..|pieces| - 1], ids[..n])
  {
    hide PieceSays;
    var (a, b) := pieces[|pieces| - 1];
    n :| n <= |ids| && PieceSays(v, text[a..b], ids[n..]) && PiecesSay(v, text, pieces[..|pieces| - 1], ids[..n]);
  }

  lemma PieceSaysOnce(v: Vocab, piece: string, a: seq<nat>, b: seq<nat>)
    requires PieceSays(v, piece, a) && PieceSays(v, piece, b)
    ensures a == b
  {
    hide Merges, SymbolsSay;
    var s :| Merges(v, Singles(Encode(piece)), s) && SymbolsSay(v, s, a);
    var t :| Merges(v, Singles(Encode(piece)), t) && SymbolsSay(v, t, b);
    MergesOnce(v, Singles(Encode(piece)), s, t);
    SymbolsSayOnce(v, s, a, b);
  }

  lemma MoreSymbols(v: Vocab, symbols: seq<string>, i: nat, ids: seq<nat>, more: seq<nat>)
    requires i < |symbols| && SymbolsSay(v, symbols[..i], ids) && SymbolSays(v, symbols[i], more)
    ensures SymbolsSay(v, symbols[..i + 1], ids + more)
  {
    hide SymbolSays;
    var all := ids + more;
    assert symbols[..i + 1][..i] == symbols[..i] && all[|ids|..] == more && all[..|ids|] == ids;
  }

  lemma MorePieces(v: Vocab, text: string, pieces: seq<(nat, nat)>, i: nat, ids: seq<nat>, more: seq<nat>)
    requires i < |pieces| && pieces[i].0 <= pieces[i].1 <= |text|
    requires PiecesSay(v, text, pieces[..i], ids) && PieceSays(v, text[pieces[i].0..pieces[i].1], more)
    ensures PiecesSay(v, text, pieces[..i + 1], ids + more)
  {
    hide PieceSays;
    var all := ids + more;
    assert pieces[..i + 1][..i] == pieces[..i] && all[|ids|..] == more && all[..|ids|] == ids;
  }

  // ---------------------------------------------------------------- encoding

  /** One pre-token's bytes, each its own symbol. */
  function Singles(bs: seq<Byte>): (r: seq<string>)
    ensures |r| == |bs|
  {
    if bs == [] then [] else [[CharOf(bs[0])]] + Singles(bs[1..])
  }

  lemma {:induction false} SinglesJoin(bs: seq<Byte>)
    ensures Joined(Singles(bs)) == Rewritten(bs)
  {
    if bs != [] {
      SinglesJoin(bs[1..]);
      assert Singles(bs)[1..] == Singles(bs[1..]);
    }
  }

  /** Every character of `s` stands for a byte. */
  predicate StandIns(s: string) {
    forall i :: 0 <= i < |s| ==> ByteFor(s[i], 256).Some?
  }

  lemma {:induction false} RewrittenStandsIn(bs: seq<Byte>)
    ensures StandIns(Rewritten(bs))
  {
    if bs != [] {
      ByteForChar(bs[0]);
      RewrittenStandsIn(bs[1..]);
    }
  }

  /** Every id names an entry. */
  predicate InVocab(v: Vocab, ids: seq<nat>) { forall i :: 0 <= i < |ids| ==> ids[i] < |v.tokens| }

  lemma OneToken(v: Vocab, ids: seq<nat>, id: nat)
    requires |v.special| == |v.tokens|
    ensures AllBytes(v, ids + [id]) == AllBytes(v, ids) + TokenBytes(v, id)
  {
    hide TokenBytes;
    assert (ids + [id])[..|ids|] == ids;
  }

  /** The id of a symbol, or of its characters one by one. */
  method SymbolIds(v: Vocab, sym: string) returns (ids: seq<nat>)
    requires v.Valid() && StandIns(sym)
    ensures AllBytes(v, ids) == StringBytes(sym) && InVocab(v, ids) && SymbolSays(v, sym, ids)
  {
    if sym in v.lookup {
      Listed(v, sym);
      ids := [v.lookup[sym]];
      OneToken(v, [], ids[0]);
      assert ids == [] + [ids[0]];
    } else {
      ids := CharIds(v, sym);
    }
  }

  lemma Listed(v: Vocab, sym: string)
    requires v.Valid() && sym in v.lookup
    ensures v.lookup[sym] < |v.tokens| && TokenBytes(v, v.lookup[sym]) == StringBytes(sym)
  {
    assert v.Leads(sym);
  }

  lemma NothingSaid(v: Vocab)
    requires |v.special| == |v.tokens|
    ensures AllBytes(v, []) == StringBytes([])
  {
  }

  method CharIds(v: Vocab, sym: string) returns (ids: seq<nat>)
    requires v.Valid() && StandIns(sym)
    ensures AllBytes(v, ids) == StringBytes(sym) && InVocab(v, ids)
    ensures |ids| == |sym| && forall k :: 0 <= k < |sym| ==> [sym[k]] in v.lookup && ids[k] == v.lookup[[sym[k]]]
  {
    hide TokenBytes, StringBytes, AllBytes, CharOf;
    ids := [];
    NothingSaid(v);
    for i := 0 to |sym|
      invariant AllBytes(v, ids) == StringBytes(sym[..i]) && InVocab(v, ids)
      invariant |ids| == i && forall k :: 0 <= k < i ==> [sym[k]] in v.lookup && ids[k] == v.lookup[[sym[k]]]
    {
      var one := [sym[i]];
      SingleListed(v, sym[i]);
      var id := v.lookup[one];
      OneToken(v, ids, id);
      assert sym[..i + 1] == sym[..i] + one;
      StringBytesConcat(sym[..i], one);
      ids := ids + [id];
    }
    assert sym[..|sym|] == sym;
  }

  /** A stand-in is always in the vocabulary on its own. */
  lemma SingleListed(v: Vocab, c: char)
    requires v.Valid() && ByteFor(c, 256).Some?
    ensures [c] in v.lookup && v.lookup[[c]] < |v.tokens| && TokenBytes(v, v.lookup[[c]]) == StringBytes([c])
  {
    Listed(v, [c]);
  }

  /** `encode`: split, rewrite, merge, look up. */
  method Tokenize(v: Vocab, k: Classes, text: string) returns (ids: seq<nat>)
    requires v.Valid() && k.Valid()
    ensures AllBytes(v, ids) == Encode(text) && InVocab(v, ids)
    ensures PiecesSay(v, text, MatchAll(k, Qwen(), text, 0), ids)
  {
    hide MatchAll, Qwen, Tokenized, Vocab.Valid, Classes.Valid;
    var pieces := SplitText(k, text);
    StartTokens(v, text, pieces);
    ids := [];
    var from := 0;
    for p := 0 to |pieces|
      invariant Tokenized(v, text, pieces, p, from, ids)
    {
      NextPiece(v, text, pieces, p, from, ids);
      var (a, b) := pieces[p];
      var more := EncodePiece(v, text[a..b]);
      MoreTokens(v, text, pieces, p, ids, more);
      ids := ids + more;
      from := b;
    }
    AllTokens(v, text, pieces, from, ids);
  }

  /** The first `p` pieces, up to character `from`, have been tokenised. */
  ghost predicate Tokenized(v: Vocab, text: string, pieces: seq<(nat, nat)>, p: nat, from: nat, ids: seq<nat>) {
    && |v.special| == |v.tokens| && p <= |pieces| && from <= |text| && Tiles(pieces[p..], from, |text|)
    && AllBytes(v, ids) == Encode(text[..from]) && InVocab(v, ids) && PiecesSay(v, text, pieces[..p], ids)
  }

  lemma StartTokens(v: Vocab, text: string, pieces: seq<(nat, nat)>)
    requires v.Valid() && Tiles(pieces, 0, |text|)
    ensures Tokenized(v, text, pieces, 0, 0, [])
  {
    assert pieces[0..] == pieces && pieces[..0] == [] && text[..0] == [];
  }

  lemma NextPiece(v: Vocab, text: string, pieces: seq<(nat, nat)>, p: nat, from: nat, ids: seq<nat>)
    requires Tokenized(v, text, pieces, p, from, ids) && p < |pieces|
    ensures
      var (a, b) := pieces[p];
      && a == from && a < b <= |text| && Tiles(pieces[p + 1..], b, |text|) && |v.special| == |v.tokens|
      && AllBytes(v, ids) == Encode(text[..a]) && InVocab(v, ids) && PiecesSay(v, text, pieces[..p], ids)
  {
    hide PiecesSay, AllBytes, Encode;
    assert pieces[p..][0] == pieces[p] && pieces[p..][1..] == pieces[p + 1..];
  }

  lemma MoreTokens(v: Vocab, text: string, pieces: seq<(nat, nat)>, p: nat, ids: seq<nat>, more: seq<nat>)
    requires p < |pieces| && pieces[p].0 < pieces[p].1 <= |text| && Tiles(pieces[p + 1..], pieces[p].1, |text|)
    requires |v.special| == |v.tokens| && InVocab(v, ids) && InVocab(v, more)
    requires AllBytes(v, ids) == Encode(text[..pieces[p].0]) && PiecesSay(v, text, pieces[..p], ids)
    requires AllBytes(v, more) == Encode(text[pieces[p].0..pieces[p].1]) && PieceSays(v, text[pieces[p].0..pieces[p].1], more)
    ensures Tokenized(v, text, pieces, p + 1, pieces[p].1, ids + more)
  {
    hide PiecesSay, PieceSays, AllBytes, Encode, Tiles;
    var (a, b) := pieces[p];
    AllBytesConcat(v, ids, more);
    EncodeConcat(text[..a], text[a..b]);
    assert text[..b] == text[..a] + text[a..b];
    MorePieces(v, text, pieces, p, ids, more);
  }

  lemma AllTokens(v: Vocab, text: string, pieces: seq<(nat, nat)>, from: nat, ids: seq<nat>)
    requires Tokenized(v, text, pieces, |pieces|, from, ids)
    ensures AllBytes(v, ids) == Encode(text) && InVocab(v, ids) && PiecesSay(v, text, pieces, ids)
  {
    hide PiecesSay, AllBytes, Encode;
    assert pieces[|pieces|..] == [] && pieces[..|pieces|] == pieces;
    assert text[..|text|] == text;
  }

  method EncodePiece(v: Vocab, piece: string) returns (ids: seq<nat>)
    requires v.Valid()
    ensures AllBytes(v, ids) == Encode(piece) && InVocab(v, ids) && PieceSays(v, piece, ids)
  {
    var bs := Encode(piece);
    var symbols := Merge(v, Singles(bs));
    MergesJoin(v, Singles(bs), symbols);
    SinglesJoin(bs);
    RewrittenStandsIn(bs);
    StringBytesRewritten(bs);
    assert Joined(symbols) == Rewritten(bs);
    ids := PieceIds(v, symbols);
  }

  method PieceIds(v: Vocab, symbols: seq<string>) returns (ids: seq<nat>)
    requires v.Valid() && StandIns(Joined(symbols))
    ensures AllBytes(v, ids) == StringBytes(Joined(symbols)) && InVocab(v, ids) && SymbolsSay(v, symbols, ids)
  {
    hide SymbolSays;
    ids := [];
    for i := 0 to |symbols|
      invariant AllBytes(v, ids) == StringBytes(Joined(symbols[..i])) && InVocab(v, ids)
      invariant SymbolsSay(v, symbols[..i], ids)
    {
      PartStandsIn(symbols, i);
      var more := SymbolIds(v, symbols[i]);
      AllBytesConcat(v, ids, more);
      StringBytesConcat(Joined(symbols[..i]), symbols[i]);
      MoreSymbols(v, symbols, i, ids, more);
      ids := ids + more;
    }
    assert symbols[..|symbols|] == symbols;
  }

  lemma PartStandsIn(symbols: seq<string>, i: nat)
    requires i < |symbols| && StandIns(Joined(symbols))
    ensures StandIns(symbols[i]) && Joined(symbols[..i + 1]) == Joined(symbols[..i]) + symbols[i]
  {
    hide Joined, StandIns;
    var a, x, rest := symbols[..i], symbols[i], symbols[i + 1..];
    assert symbols == a + [x] + rest && symbols[..i + 1] == a + [x];
    ThreeJoin(a, [x], rest);
    JoinedConcat(a, [x]);
    OneJoins(x);
    MiddleStandsIn(Joined(a), x, Joined(rest));
  }

  lemma MiddleStandsIn(a: string, x: string, rest: string)
    requires StandIns(a + x + rest)
    ensures StandIns(x)
  {
    hide ByteFor;
    var all := a + x + rest;
    forall j: nat | j < |x| ensures ByteFor(x[j], 256).Some? {
      assert all[|a| + j] == x[j];
    }
  }

  // ---------------------------------------------------------------- decoding

  datatype DecodeError = InvalidToken(id: nat)

  /** `decode`: all at once. */
  method Decode(v: Vocab, ids: seq<nat>) returns (r: Result<string, DecodeError>)
    requires |v.special| == |v.tokens|
    ensures r.Ok? <==> InVocab(v, ids)
    ensures r.Ok? ==> r.value == Lossy(AllBytes(v, ids))
  {
    hide Lossy, TokenBytes;
    var bytes: seq<Byte> := [];
    for i := 0 to |ids|
      invariant bytes == AllBytes(v, ids[..i]) && forall j :: 0 <= j < i ==> ids[j] < |v.tokens|
    {
      if ids[i] >= |v.tokens| {
        return Err(InvalidToken(ids[i]));
      }
      assert ids[..i + 1][..i] == ids[..i];
      bytes := bytes + TokenBytes(v, ids[i]);
    }
    assert ids[..|ids|] == ids;
    return Ok(Lossy(bytes));
  }

  /** Whatever the text, decoding what it encodes to gives it back. */
  method RoundTrip(v: Vocab, k: Classes, text: string) returns (r: Result<string, DecodeError>)
    requires v.Valid() && k.Valid()
    ensures r == Ok(text)
  {
    var ids := Tokenize(v, k, text);
    r := Decode(v, ids);
    EncodeIsWellFormed(text);
  }

  // ---------------------------------------------------------------- streaming

  class BpeStreamDecoder {
    const vocab: Vocab
    var pending: seq<Byte>

    /** The bytes pushed so far, how many of them have been said, and what was said. */
    ghost var seen: seq<Byte>
    ghost var said: string

    constructor (vocab: Vocab)
      requires |vocab.special| == |vocab.tokens|
      ensures Valid() && this.vocab == vocab && seen == [] && said == []
    {
      this.vocab := vocab;
      pending := [];
      seen := [];
      said := [];
    }

    /** What has been said decodes a well-formed beginning; the rest is held back. */
    ghost predicate Valid()
      reads this
    {
      && |vocab.special| == |vocab.tokens|
      && |pending| <= |seen| && pending == seen[|seen| - |pending|..]
      && WellFormed(seen[..|seen| - |pending|]) && said == Lossy(seen[..|seen| - |pending|])
    }

    /** Say as much as is certain; keep the tail. */
    method Push(id: nat) returns (out: string)
      requires Valid()
      modifies this
      ensures Valid() && seen == old(seen) + TokenBytes(vocab, id) && said == old(said) + out
    {
      hide Lossy, ValidUpTo, TokenBytes;
      ghost var begun := seen[..|seen| - |pending|];
      pending := pending + TokenBytes(vocab, id);
      seen := seen + TokenBytes(vocab, id);
      var valid := ValidUpTo(pending);
      out := Lossy(pending[..valid]);
      ValidPrefixIsWellFormed(pending);
      WellFormedPrefix(begun, pending[..valid]);
      assert seen == begun + pending;
      assert seen[..|begun| + valid] == begun + pending[..valid];
      pending := pending[valid..];
      said := said + out;
    }

    /** Whatever is left, complete or not. */
    method Finish() returns (out: string)
      requires Valid()
      modifies this
      ensures seen == old(seen) && old(said) + out == Lossy(seen) && pending == []
    {
      ghost var begun := seen[..|seen| - |pending|];
      WellFormedPrefix(begun, pending);
      assert seen == begun + pending;
      out := Lossy(pending);
      pending := [];
    }
  }

  /** For every sequence of tokens in range, malformed UTF-8 included, what the streaming decoder says
    * token by token and at the end is what decoding them all at once says. */
  method StreamIsBatch(v: Vocab, ids: seq<nat>) returns (streamed: string, batch: Result<string, DecodeError>)
    requires |v.special| == |v.tokens| && InVocab(v, ids)
    ensures batch == Ok(streamed)
  {
    var d := new BpeStreamDecoder(v);
    streamed := [];
    for i := 0 to |ids|
      invariant d.Valid() && d.vocab == v && fresh(d)
      invariant d.seen == AllBytes(v, ids[..i]) && d.said == streamed
    {
      assert ids[..i + 1][..i] == ids[..i];
      var out := d.Push(ids[i]);
      streamed := streamed + out;
    }
    assert ids[..|ids|] == ids;
    var last := d.Finish();
    streamed := streamed + last;
    batch := Decode(v, ids);
  }
}
