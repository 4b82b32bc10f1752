/** Putting a sequence back to an earlier position of a recorded round. */
module Rollback {
  import opened Basics
  import opened Forward
  import opened Hybrid
  import opened Passes

  datatype Refusal = NoCopy | WouldCutSpilled

  /** `rewind_to`: back to what the memory was after `len` tokens, if that is now or a copy from
    * then is held; otherwise nothing changes. */
  method RewindTo(l: Linear, len: nat) returns (ok: bool, l': Linear)
    ensures ok <==> CanRewind(l, len)
    ensures ok && l.folded == len ==> l' == l.(history := [])
    ensures ok && l.folded != len ==> exists i :: 0 <= i < |l.history| && FromCopy(l, i, len, l')
    ensures !ok ==> l' == l
  {
    if len == l.folded {
      return true, l.(history := []);
    }
    var at := 0;
    while at < |l.history| && l.history[at].at != len
      invariant at <= |l.history| && forall i :: 0 <= i < at ==> l.history[i].at != len
    {
      at := at + 1;
    }
    if at == |l.history| {
      return false, l;
    }
    l' := Linear(l.history[at].memory, l.history[at].at, []);
    assert FromCopy(l, at, len, l');
    return true, l';
  }

  predicate CanRewind(l: Linear, len: nat) {
    l.folded == len || exists i :: 0 <= i < |l.history| && l.history[i].at == len
  }

  predicate FromCopy(l: Linear, i: nat, len: nat, l': Linear)
    requires i < |l.history|
  {
    l.history[i].at == len && l' == Linear(l.history[i].memory, len, [])
  }

  predicate Recoverable(cells: seq<Cell>, len: nat) {
    forall l :: 0 <= l < |cells| && cells[l].linear.Some? ==> CanRewind(cells[l].linear.value, len)
  }

  /** Whether a cut at `len` lands inside a block that is on disk. */
  predicate CutsSpilled(spilled: set<nat>, blockSize: nat, len: nat)
    requires blockSize > 0
  {
    len % blockSize > 0 && len / blockSize in spilled
  }

  /** `after` is `before` with its recurrent part put back to `len` where that is possible. */
  ghost predicate RewoundCell(before: Cell, after: Cell, len: nat) {
    && after.items == before.items
    && after.linear.Some? == before.linear.Some?
    && (before.linear.Some? ==> RewoundLinear(before.linear.value, after.linear.value, len))
  }

  ghost predicate RewoundLinear(l: Linear, l': Linear, len: nat) {
    if l.folded == len then l' == l.(history := [])
    else if CanRewind(l, len) then exists i :: 0 <= i < |l.history| && FromCopy(l, i, len, l')
    else l' == l
  }

  /** Put back to `len`, an attention layer's entries are cut and a recurrent layer's memory is the
    * copy: the layer describes the kept tokens. */
  lemma CutCell(m: Model, tokens: seq<Token>, l: nat, before: Cell, after: Cell, len: nat)
    requires m.Valid() && l < |m.blocks| && CellOk(m, tokens, l, before) && len < |tokens|
    requires RewoundCell(before, after, len) && (before.linear.Some? ==> CanRewind(before.linear.value, len))
    ensures CellOk(m, tokens[..len], l, Cell(after.items[..len], after.linear))
  {
    hide Model.Valid, StateAfter;
    ItemsPrefix(m, tokens, l, len);
    AlwaysMemory(m, tokens[..len], l);
    if before.linear.Some? {
      var h := before.linear.value;
      var i: nat :| i < |h.history| && FromCopy(h, i, len, after.linear.value);
      assert CopyOk(m, tokens, l, h.history[i]);
    }
  }

  /** Asked for no cut, a layer goes on describing the same tokens. */
  lemma UncutCell(m: Model, tokens: seq<Token>, l: nat, before: Cell, after: Cell, len: nat)
    requires m.Valid() && l < |m.blocks| && CellOk(m, tokens, l, before) && len >= |tokens|
    requires RewoundCell(before, after, len)
    ensures CellOk(m, tokens, l, after)
  {
    hide Model.Valid, StateAfter;
    if before.linear.Some? && len != |tokens| {
      var h := before.linear.value;
      forall i: nat | i < |h.history| ensures h.history[i].at != len {
        assert CopyOk(m, tokens, l, h.history[i]);
      }
    }
  }

  /** Every position of a recorded round can be gone back to, its end included. */
  lemma RoundIsRecoverable(m: Model, tokens: seq<Token>, cells: seq<Cell>, from: nat, len: nat)
    requires m.Valid() && CellsOk(m, tokens, cells) && Recorded(m, cells, from, |tokens|) && from <= len <= |tokens|
    ensures Recoverable(cells, len)
  {
    hide Model.Valid, StateAfter;
    forall l: nat | l < |cells| && cells[l].linear.Some? ensures CanRewind(cells[l].linear.value, len) {
      assert CellOk(m, tokens, l, cells[l]);
      if len < |tokens| {
        assert HasCopy(cells[l], len);
      }
    }
  }

  /** Put every recurrent layer back where that is possible. */
  method RewindAll(s: SeqState, len: nat)
    modifies s`cells
    ensures |s.cells| == |old(s.cells)|
    ensures forall l :: 0 <= l < |s.cells| ==> RewoundCell(old(s.cells[l]), s.cells[l], len)
  {
    for l := 0 to |s.cells|
      invariant |s.cells| == |old(s.cells)|
      invariant forall k :: 0 <= k < l ==> RewoundCell(old(s.cells[k]), s.cells[k], len)
      invariant forall k :: l <= k < |s.cells| ==> s.cells[k] == old(s.cells[k])
    {
      var cell := s.cells[l];
      if cell.linear.Some? {
        var ok, linear := RewindTo(cell.linear.value, len);
        s.cells := s.cells[l := Cell(cell.items, Some(linear))];
      }
    }
  }

  /** `truncate` of one layer's cache. */
  method TruncateLayer(s: SeqState, l: nat, len: nat) returns (ok: bool)
    requires l < |s.cells| && s.Shaped(|s.cells|)
    modifies s`cells, s`spilled
    ensures s.Shaped(|old(s.cells)|)
    ensures ok <==> len >= |old(s.cells[l]).items| || !CutsSpilled(old(s.spilled[l]), s.blockSize, len)
    ensures !ok || len >= |old(s.cells[l]).items| ==> s.cells == old(s.cells) && s.spilled == old(s.spilled)
    ensures ok && len < |old(s.cells[l]).items| ==>
      s.cells == old(s.cells)[l := Cell(old(s.cells[l]).items[..len], old(s.cells[l]).linear)]
    ensures OnlyLayer(l, old(s.spilled), s.spilled) && s.spilled[l] <= old(s.spilled[l])
  {
    var cell := s.cells[l];
    if len >= |cell.items| {
      return true;
    }
    var cut, keep := len / s.blockSize, len % s.blockSize;
    if keep > 0 && cut in s.spilled[l] {
      return false;
    }
    s.cells := s.cells[l := Cell(cell.items[..len], cell.linear)];
    s.spilled := s.spilled[l := set b | b in s.spilled[l] && (b < cut || (b == cut && keep > 0))];
    return true;
  }

  /** Layer `l` is the first whose cut would land in a block on disk. */
  predicate FirstToCut(spilled: seq<set<nat>>, blockSize: nat, len: nat, l: nat)
    requires blockSize > 0 && l < |spilled|
  {
    CutsSpilled(spilled[l], blockSize, len) && forall k :: 0 <= k < l ==> !CutsSpilled(spilled[k], blockSize, len)
  }

  /** Cut every layer's cache in turn, stopping at the first refusal. */
  method TruncateLayers(s: SeqState, len: nat, ghost had: nat) returns (refused: Option<nat>)
    requires s.Shaped(|s.cells|) && forall l :: 0 <= l < |s.cells| ==> |s.cells[l].items| == had
    modifies s`cells, s`spilled
    ensures s.Shaped(|old(s.cells)|)
    ensures refused.None? <==>
      len >= had || forall l :: 0 <= l < |s.cells| ==> !CutsSpilled(old(s.spilled[l]), s.blockSize, len)
    ensures refused.None? ==> forall l :: 0 <= l < |s.cells| ==> CutTo(old(s.cells[l]), s.cells[l], len)
    ensures refused.Some? ==>
      && refused.value < |s.cells| && FirstToCut(old(s.spilled), s.blockSize, len, refused.value)
      && (forall l :: refused.value <= l < |s.spilled| ==> s.spilled[l] == old(s.spilled[l]))
      && forall l :: 0 <= l < |s.cells| ==>
        if l < refused.value then CutTo(old(s.cells[l]), s.cells[l], len) else s.cells[l] == old(s.cells[l])
    ensures forall l :: 0 <= l < |s.spilled| ==> s.spilled[l] <= old(s.spilled[l])
  {
    for l := 0 to |s.cells|
      invariant s.Shaped(|old(s.cells)|)
      invariant forall k :: 0 <= k < l ==> CutTo(old(s.cells[k]), s.cells[k], len)
      invariant forall k :: l <= k < |s.cells| ==> s.cells[k] == old(s.cells[k]) && s.spilled[k] == old(s.spilled[k])
      invariant len >= had || forall k :: 0 <= k < l ==> !CutsSpilled(old(s.spilled[k]), s.blockSize, len)
      invariant forall k :: 0 <= k < |s.spilled| ==> s.spilled[k] <= old(s.spilled[k])
    {
      var ok := TruncateLayer(s, l, len);
      if !ok {
        return Some(l);
      }
    }
    return None;
  }

  predicate CutTo(before: Cell, after: Cell, len: nat) {
    if len < |before.items| then after == Cell(before.items[..len], before.linear) else after == before
  }

  lemma AllEven(m: Model, tokens: seq<Token>, cells: seq<Cell>)
    requires m.Valid() && CellsOk(m, tokens, cells)
    ensures Even(cells, |tokens|)
  {
    hide Model.Valid, StateAfter;
    forall l: nat | l < |cells| ensures EvenCell(cells[l], |tokens|) {
      assert CellOk(m, tokens, l, cells[l]);
    }
  }

  lemma SameItems(before: Cell, rewound: Cell, len: nat)
    requires RewoundCell(before, rewound, len)
    ensures rewound.items == before.items
  {
  }

  lemma TruncatedOk(m: Model, tokens: seq<Token>, before: seq<Cell>, after: seq<Cell>, len: nat)
    requires m.Valid() && CellsOk(m, tokens, before) && |before| == |after|
    requires len < |tokens| ==> Recoverable(before, len)
    requires forall l :: 0 <= l < |before| ==> PutBack(before[l], after[l], len)
    ensures CellsOk(m, if len < |tokens| then tokens[..len] else tokens, after)
  {
    hide Model.Valid, StateAfter, CanRewind, CellOk, RewoundCell;
    AllEven(m, tokens, before);
    forall l: nat | l < |after| ensures CellOk(m, if len < |tokens| then tokens[..len] else tokens, l, after[l]) {
      assert PutBack(before[l], after[l], len);
      var rewound :| RewoundCell(before[l], rewound, len) && CutTo(rewound, after[l], len);
      assert EvenCell(before[l], |tokens|);
      SameItems(before[l], rewound, len);
      if len < |tokens| {
        CutCell(m, tokens, l, before[l], rewound, len);
      } else {
        UncutCell(m, tokens, l, before[l], rewound, len);
      }
    }
  }

  /** All layers have the same length, and recurrent ones have folded that many tokens. */
  predicate Even(cells: seq<Cell>, had: nat) {
    forall l :: 0 <= l < |cells| ==> EvenCell(cells[l], had)
  }

  predicate EvenCell(cell: Cell, had: nat) {
    |cell.items| == had && (cell.linear.Some? ==> cell.linear.value.folded == had)
  }

  predicate CutsSomewhere(spilled: seq<set<nat>>, blockSize: nat, len: nat)
    requires blockSize > 0
  {
    exists l :: 0 <= l < |spilled| && CutsSpilled(spilled[l], blockSize, len)
  }

  /** When a refusal over a block on disk leaves everything as it was: no layer is recurrent, and the
    * first is the one that refuses. */
  predicate InTime(cells: seq<Cell>, spilled: seq<set<nat>>, blockSize: nat, len: nat)
    requires blockSize > 0 && spilled != []
  {
    (forall l :: 0 <= l < |cells| ==> cells[l].linear.None?) && CutsSpilled(spilled[0], blockSize, len)
  }

  /** `truncate` of a whole sequence, layer by layer: whether it goes through, and whether a refusal
    * comes before anything has changed. For want of a copy it always does. Over a block on disk it
    * does exactly if `InTime`; otherwise recurrent layers are back at `len` or earlier layers are
    * cut, while the refusing layer still holds every position. */
  method TruncateCells(s: SeqState, len: nat, ghost had: nat) returns (r: Result<(), Refusal>)
    requires s.Shaped(|s.cells|) && Even(s.cells, had)
    modifies s`cells, s`spilled
    ensures s.Shaped(|old(s.cells)|) && forall l :: 0 <= l < |s.spilled| ==> s.spilled[l] <= old(s.spilled[l])
    ensures r == Err(NoCopy) <==> len < had && !Recoverable(old(s.cells), len)
    ensures r == Err(NoCopy) ==> s.cells == old(s.cells) && s.spilled == old(s.spilled)
    ensures r.Ok? <==> len >= had || (Recoverable(old(s.cells), len) && !CutsSomewhere(old(s.spilled), s.blockSize, len))
    ensures r.Ok? ==> forall l :: 0 <= l < |s.cells| ==> PutBack(old(s.cells[l]), s.cells[l], len)
    ensures r == Err(WouldCutSpilled) ==>
      && HalfRewound(old(s.cells), s.cells, len)
      && (s.cells == old(s.cells) && s.spilled == old(s.spilled) <==> InTime(old(s.cells), old(s.spilled), s.blockSize, len))
  {
    hide RewoundCell, CutTo, HalfRewound, NothingOnDisk, CutsSpilled;
    assert EvenCell(s.cells[0], had);
    if len < s.Len() && !Recoverable(s.cells, len) {
      return Err(NoCopy);
    }
    RewindAll(s, len);
    ghost var rewound := s.cells;
    RewoundEven(old(s.cells), rewound, len, had);
    var refused := TruncateLayers(s, len, had);
    if refused.Some? {
      LeftHalfway(old(s.cells), rewound, s.cells, len, refused.value, had);
      RefusedInTime(
        old(s.cells), rewound, s.cells, old(s.spilled), s.spilled, s.blockSize, len, refused.value, had);
      return Err(WouldCutSpilled);
    }
    return Ok(());
  }

  /** Put back to `len` and cut there. */
  ghost predicate PutBack(before: Cell, after: Cell, len: nat) {
    exists rewound :: RewoundCell(before, rewound, len) && CutTo(rewound, after, len)
  }

  lemma RewoundEven(before: seq<Cell>, rewound: seq<Cell>, len: nat, had: nat)
    requires Even(before, had) && |rewound| == |before|
    requires forall l :: 0 <= l < |before| ==> RewoundCell(before[l], rewound[l], len)
    ensures forall l :: 0 <= l < |rewound| ==> |rewound[l].items| == had
  {
    hide RewoundLinear;
    forall l | 0 <= l < |rewound| ensures |rewound[l].items| == had {
      assert EvenCell(before[l], had);
    }
  }

  /** Some layer still holds every position while every recurrent memory is back at `len`. */
  ghost predicate HalfRewound(before: seq<Cell>, after: seq<Cell>, len: nat) {
    && |after| == |before| && (forall l :: 0 <= l < |after| ==> after[l].linear.Some? == before[l].linear.Some?)
    && (exists l :: 0 <= l < |after| && after[l].items == before[l].items && len < |after[l].items|)
    && forall l :: 0 <= l < |after| && after[l].linear.Some? ==> after[l].linear.value.folded == len
  }

  lemma LeftHalfway(before: seq<Cell>, rewound: seq<Cell>, after: seq<Cell>, len: nat, refused: nat, had: nat)
    requires |before| == |rewound| == |after| && refused < |after| && Recoverable(before, len) && Even(before, had)
    requires forall l :: 0 <= l < |before| ==> RewoundCell(before[l], rewound[l], len)
    requires forall l :: 0 <= l < |after| ==>
      if l < refused then CutTo(rewound[l], after[l], len) else after[l] == rewound[l]
    requires len < had
    ensures HalfRewound(before, after, len)
  {
    assert EvenCell(before[refused], had);
    assert after[refused].items == before[refused].items;
  }

  lemma RefusedInTime(
    before: seq<Cell>, rewound: seq<Cell>, after: seq<Cell>, spilled: seq<set<nat>>, spilled': seq<set<nat>>,
    blockSize: nat, len: nat, refused: nat, had: nat)
    requires |before| == |rewound| == |after| == |spilled| == |spilled'| && refused < |after| && blockSize > 0
    requires Recoverable(before, len) && Even(before, had) && len < had
    requires forall l :: 0 <= l < |before| ==> RewoundCell(before[l], rewound[l], len)
    requires forall l :: 0 <= l < |after| ==>
      if l < refused then CutTo(rewound[l], after[l], len) else after[l] == rewound[l]
    requires FirstToCut(spilled, blockSize, len, refused)
    requires forall l :: refused <= l < |spilled| ==> spilled'[l] == spilled[l]
    ensures after == before && spilled' == spilled <==> InTime(before, spilled, blockSize, len)
  {
    hide CutsSpilled, CanRewind, FromCopy;
    if l :| 0 <= l < |before| && before[l].linear.Some? {
      assert EvenCell(before[l], had);
      RewoundMoves(before[l], rewound[l], len, had);
      assert after[l].linear == rewound[l].linear;
    } else if refused > 0 {
      assert EvenCell(before[0], had);
      assert |after[0].items| == len;
    } else {
      forall l | 0 <= l < |before| ensures after[l] == before[l] {
        assert RewoundCell(before[l], rewound[l], len);
      }
    }
  }

  /** Going back changes a recurrent layer. */
  lemma RewoundMoves(before: Cell, rewound: Cell, len: nat, had: nat)
    requires EvenCell(before, had) && len < had && before.linear.Some? && CanRewind(before.linear.value, len)
    requires RewoundCell(before, rewound, len)
    ensures rewound.linear.Some? && rewound.linear.value.folded == len && rewound.linear != before.linear
  {
  }

  /** `truncate` of a whole sequence. It succeeds exactly when every recurrent layer can be put back
    * and no cache would have to cut a block on disk, and then every layer is as if only the kept
    * tokens had been consumed. For want of a copy it refuses with nothing changed; for when a
    * refusal over a block on disk changes nothing, see `InTime`. */
  method Truncate(ghost m: Model, s: SeqState, len: nat) returns (r: Result<(), Refusal>)
    requires m.Valid() && s.Valid(m)
    modifies s`cells, s`spilled, s`tokens
    ensures |s.spilled| == |old(s.spilled)| && forall l :: 0 <= l < |s.spilled| ==> s.spilled[l] <= old(s.spilled[l])
    ensures r == Err(NoCopy) <==> len < |old(s.tokens)| && !Recoverable(old(s.cells), len)
    ensures r == Err(NoCopy) ==> s.cells == old(s.cells) && s.spilled == old(s.spilled)
    ensures r.Ok? <==>
      len >= |old(s.tokens)| || (Recoverable(old(s.cells), len) && !CutsSomewhere(old(s.spilled), s.blockSize, len))
    ensures r.Ok? ==> s.Valid(m) && s.tokens == if len < |old(s.tokens)| then old(s.tokens)[..len] else old(s.tokens)
    ensures r == Err(WouldCutSpilled) ==>
      && HalfRewound(old(s.cells), s.cells, len)
      && (s.cells == old(s.cells) && s.spilled == old(s.spilled) <==> InTime(old(s.cells), old(s.spilled), s.blockSize, len))
    ensures r.Err? ==> s.tokens == old(s.tokens)
  {
    AllEven(m, s.tokens, s.cells);
    hide CellsOk, PutBack, HalfRewound, NothingOnDisk, Even;
    r := TruncateCells(s, len, |s.tokens|);
    if r.Ok? {
      TruncatedOk(m, s.tokens, old(s.cells), s.cells, len);
      s.tokens := if len < |s.tokens| then s.tokens[..len] else s.tokens;
    }
  }
}
