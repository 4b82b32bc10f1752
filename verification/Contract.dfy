/** What the decode loop is told about a backend is what the forward pass does: the passes over real
  * layers meet the contracts the loop is proved against, rollback and disk included. */
module Contracts {
  import opened Basics
  import opened Experts
  import opened Forward
  import opened Hybrid
  import opened Passes
  import B = Backend
  import Ro = Rounds
  import R = Rollback
  import T = Together

  /** All attention layers read back equally far, as the cache's configuration has it. */
  predicate Windowed(m: Model, window: Option<nat>) {
    forall l :: 0 <= l < |m.blocks| && m.blocks[l].mixer.Attention? ==> m.blocks[l].mixer.window == window
  }

  /** What a float's bits stand for, as the sampler compares them. */
  type Reading = F32 -> real

  function Numbers(value: Reading, v: Vec): (r: B.Logits)
    ensures |r| == |v|
  {
    if v == [] then [] else Numbers(value, v[..|v| - 1]) + [value(v[|v| - 1])]
  }

  /** The network a model is: what it answers after consuming some tokens from nothing. */
  ghost function NetOf(m: Model, value: Reading, capacity: nat, spills: bool, window: Option<nat>): (net: B.Net)
    ensures m.vocab > 0 && |m.head| == m.vocab ==> net.Valid()
  {
    B.Net((ts: seq<nat>) => Says(m, value, ts), m.vocab, capacity, true, spills, true, window)
  }

  ghost function Says(m: Model, value: Reading, ts: seq<Token>): (r: B.Logits)
    ensures |r| == |m.head|
  {
    Numbers(value, if m.Valid() && ts != [] then m.Answer(Hidden(m, ts)) else m.Answer([]))
  }

  /** Every prefix from `back` on can be gone back to. */
  ghost predicate WayBack(cells: seq<Cell>, back: nat, len: nat) {
    forall n: nat :: back <= n <= len ==> R.Recoverable(cells, n)
  }

  ghost predicate ColdTo(spilled: seq<set<nat>>, blockSize: nat, pos: nat) {
    forall l :: 0 <= l < |spilled| ==> AllEndBy(spilled[l], blockSize, pos)
  }

  /** The state `a` the decode loop keeps in mind is true of the sequence: its tokens, how far blocks
    * are on disk, and how far back there is a way. */
  ghost predicate Shows(m: Model, s: SeqState, a: B.SeqState)
    requires m.Valid()
    reads s`cells, s`spilled, s`tokens, s`recording
  {
    && s.Valid(m) && !s.recording && a.tokens == s.tokens
    && ColdTo(s.spilled, s.blockSize, a.cold)
    && WayBack(s.cells, a.back, |s.tokens|)
  }

  /** A new sequence has absorbed nothing. */
  method NewSequence(m: Model, capacity: nat, blockSize: nat, hasStorage: bool, id: nat) returns (s: SeqState, ghost a: B.SeqState)
    requires m.Valid()
    ensures fresh(s) && Shows(m, s, a) && a == B.SeqState([], 0, 0, 0, id)
    ensures s.capacity == Max(capacity, 1) && s.hasStorage == hasStorage
  {
    s := new SeqState(|m.blocks|, capacity, blockSize, hasStorage);
    a := B.SeqState([], 0, 0, 0, id);
    NothingAbsorbed(m, s.cells);
    HereWayBack(m, s);
  }

  lemma NothingAbsorbed(m: Model, cells: seq<Cell>)
    requires m.Valid() && cells == seq(|m.blocks|, _ => Cell([], None))
    ensures CellsOk(m, [], cells)
  {
  }

  // ---------------------------------------------------------------- disk

  /** A block that ends before a position is not the one the position is in. */
  lemma NotInside(b: nat, blockSize: nat, pos: nat)
    requires blockSize > 0 && EndsBy(b, blockSize, pos)
    ensures b < pos / blockSize
  {
    var q := pos / blockSize;
    assert pos < q * blockSize + blockSize by {
      Division(pos, blockSize);
    }
    if b >= q {
      Products(q + 1, b + 1, blockSize);
    }
  }

  lemma Division(x: nat, d: nat)
    requires d > 0
    ensures x < x / d * d + d
  {
  }

  lemma Products(a: nat, b: nat, d: nat)
    requires a <= b
    ensures a * d <= b * d
  {
  }

  /** No cut at or past where blocks may be on disk is refused. */
  lemma NoCutRefused(spilled: seq<set<nat>>, blockSize: nat, pos: nat, len: nat)
    requires blockSize > 0 && ColdTo(spilled, blockSize, pos) && len >= pos
    ensures !R.CutsSomewhere(spilled, blockSize, len)
  {
    if R.CutsSomewhere(spilled, blockSize, len) {
      var l :| 0 <= l < |spilled| && R.CutsSpilled(spilled[l], blockSize, len);
      var b := len / blockSize;
      assert AllEndBy(spilled[l], blockSize, pos) && b in spilled[l];
      NotInside(b, blockSize, len);
    }
  }

  /** Once every layer has read its window back, nothing in the window is on disk. */
  lemma WindowsCold(m: Model, s: SeqState, window: Option<nat>)
    requires m.Valid() && s.Valid(m) && Windowed(m, window) && ReadTo(m, s, |m.blocks|)
    ensures ColdTo(s.spilled, s.blockSize, WindowStart(window, |s.tokens|))
  {
    hide Model.Valid, StateAfter;
    forall l | 0 <= l < |s.spilled| ensures AllEndBy(s.spilled[l], s.blockSize, WindowStart(window, |s.tokens|)) {
      assert ReadLayer(m.blocks[l].mixer, l, s.cells, s.spilled, s.blockSize);
      assert CellOk(m, s.tokens, l, s.cells[l]);
    }
  }

  lemma NothingCold(s: SeqState, layers: nat)
    requires s.Shaped(layers) && !s.hasStorage
    ensures ColdTo(s.spilled, s.blockSize, 0)
  {
  }

  // ---------------------------------------------------------------- the way back

  /** A recorded round can be gone back to from its start on; any state to where it is. */
  lemma RecordedWayBack(m: Model, s: SeqState, from: nat)
    requires m.Valid() && s.Valid(m) && Recorded(m, s.cells, from, |s.tokens|)
    ensures WayBack(s.cells, from, |s.tokens|)
  {
    hide Model.Valid, R.Recoverable, CellsOk, Recorded;
    forall n: nat | from <= n <= |s.tokens| ensures R.Recoverable(s.cells, n) {
      R.RoundIsRecoverable(m, s.tokens, s.cells, from, n);
    }
  }

  lemma HereWayBack(m: Model, s: SeqState)
    requires m.Valid() && s.Valid(m)
    ensures WayBack(s.cells, |s.tokens|, |s.tokens|)
  {
    RecordedWayBack(m, s, |s.tokens|);
  }

  /** Copies that are kept keep the way back. */
  lemma KeptWayBack(m: Model, tokens: seq<Token>, before: seq<Cell>, after: seq<Cell>, back: nat)
    requires m.Valid() && CellsOk(m, tokens, before) && CellsOk(m, tokens, after) && CopiesKept(before, after)
    requires WayBack(before, back, |tokens|)
    ensures WayBack(after, back, |tokens|)
  {
    hide Model.Valid, StateAfter, HasCopy;
    forall n: nat | back <= n <= |tokens| ensures R.Recoverable(after, n) {
      assert R.Recoverable(before, n);
      forall l | 0 <= l < |after| && after[l].linear.Some? ensures R.CanRewind(after[l].linear.value, n) {
        assert CellOk(m, tokens, l, before[l]) && CellOk(m, tokens, l, after[l]);
        KeptRewind(before[l], after[l], n, |tokens|);
      }
    }
  }

  lemma KeptRewind(before: Cell, after: Cell, n: nat, had: nat)
    requires CopiesKeptIn(before, after) && after.linear.Some? && after.linear.value.folded == had
    requires before.linear.Some? ==> before.linear.value.folded == had && R.CanRewind(before.linear.value, n)
    requires before.linear.None? ==> n == had
    ensures R.CanRewind(after.linear.value, n)
  {
    if n != had {
      assert HasCopy(before, n);
      assert HasCopy(after, n);
    }
  }

  // ---------------------------------------------------------------- the three contracts

  /** The network's side of a sequence: its window, its room, and whether it can spill. */
  ghost predicate Serves(net: B.Net, m: Model, value: Reading, s: SeqState) {
    net == NetOf(m, value, s.capacity, s.hasStorage, net.window) && Windowed(m, net.window)
  }

  /** What the decode loop may think of the sequence after a pass that asked for `n` answers. */
  ghost function AfterPass(net: B.Net, s: SeqState, a: B.SeqState, n: nat): B.SeqState
    reads s`tokens
  {
    var same := s.tokens == a.tokens;
    B.SeqState(
      s.tokens,
      if same then a.cold else if net.spills then net.Start(|s.tokens|) else 0,
      if same && n == 1 then a.back else if n > 1 then |a.tokens| else |s.tokens|,
      a.bytes, a.id)
  }

  lemma PassShows(
    m: Model, value: Reading, net: B.Net, s: SeqState, a: B.SeqState, n: nat, cells: seq<Cell>, spilled: seq<set<nat>>)
    requires m.Valid() && s.Valid(m) && !s.recording && Serves(net, m, value, s) && n >= 1
    requires CellsOk(m, a.tokens, cells) && ColdTo(spilled, s.blockSize, a.cold) && WayBack(cells, a.back, |a.tokens|)
    requires a.tokens <= s.tokens && Ro.DiskAfter(m, s, a.tokens, spilled)
    requires n == 1 && s.tokens == a.tokens ==> CopiesKept(cells, s.cells)
    requires n > 1 ==> Recorded(m, s.cells, |a.tokens|, |s.tokens|)
    ensures Shows(m, s, AfterPass(net, s, a, n))
  {
    hide Model.Valid, CellsOk, WayBack, CopiesKept, Recorded, AllEndBy, ReadTo;
    if s.tokens != a.tokens {
      WindowsCold(m, s, net.window);
      if !net.spills {
        NothingCold(s, |m.blocks|);
      }
    }
    if n > 1 {
      RecordedWayBack(m, s, |a.tokens|);
    } else if s.tokens == a.tokens {
      KeptWayBack(m, s.tokens, cells, s.cells, a.back);
    } else {
      HereWayBack(m, s);
    }
  }

  /** `logits_multi` over real layers, as the decode loop is promised it. */
  method LogitsMulti(
    m: Model, value: Reading, ghost net: B.Net, s: SeqState, ghost a: B.SeqState, context: seq<Token>, n: nat, prefillChunk: nat)
    returns (r: Result<seq<B.Logits>, Ro.Failure>, ghost a': B.SeqState)
    requires m.Valid() && Shows(m, s, a) && Serves(net, m, value, s) && n >= 1
    modifies s`cells, s`spilled, s`tokens, s`recording
    ensures Shows(m, s, a') && B.PassLeaves(net, a, n, a')
    ensures r.Ok? <==> B.ForwardOk(net, context, a, n)
    ensures r.Ok? ==>
      && a'.tokens == a.tokens + context[|a.tokens|..]
      && |r.value| == n
      && forall i :: 0 <= i < n ==> r.value[i] == net.logits(a'.tokens[..|a'.tokens| - n + 1 + i])
    ensures r.Err? ==> Ro.Partly(a.tokens, context, a'.tokens)
    ensures r.Err? && n == 1 && |context| == |a.tokens| + 1 ==> a' == a
  {
    hide Model.Valid, CellsOk, WayBack, CopiesKept, Recorded, ColdTo, ReadTo, NothingOnDisk, Hidden, Says, Numbers;
    var answers := Ro.LogitsMulti(m, s, context, n, prefillChunk);
    a' := AfterPass(net, s, a, n);
    PassShows(m, value, net, s, a, n, old(s.cells), old(s.spilled));
    if answers.Err? {
      return Err(answers.error), a';
    }
    var all := ReadAll(m, value, s.tokens, answers.value);
    return Ok(all), a';
  }

  method ReadAll(m: Model, value: Reading, ghost all: seq<Token>, answers: seq<Vec>) returns (r: seq<B.Logits>)
    requires m.Valid() && Ro.AnswersAre(m, all, answers)
    ensures |r| == |answers| <= |all|
    ensures forall i :: 0 <= i < |r| ==> r[i] == Says(m, value, all[..|all| - |r| + 1 + i])
  {
    hide Model.Valid, Hidden, Model.Answer;
    r := [];
    for k := 0 to |answers|
      invariant |r| == k
      invariant forall i :: 0 <= i < k ==> r[i] == Says(m, value, all[..|all| - |answers| + 1 + i])
    {
      assert all[..|all| - |answers| + k + 1] == all[..|all| - |answers| + 1 + k];
      r := r + [Numbers(value, answers[k])];
    }
  }

  /** `truncate` of a real sequence, as the decode loop is promised it. */
  method Truncate(ghost m: Model, s: SeqState, ghost a: B.SeqState, len: nat) returns (ok: bool, ghost a': B.SeqState)
    requires m.Valid() && Shows(m, s, a)
    modifies s`cells, s`spilled, s`tokens
    ensures len >= |a.tokens| || (len >= a.back && len >= a.cold) ==> ok
    ensures ok ==>
      && Shows(m, s, a')
      && a'.tokens == (if len < |a.tokens| then a.tokens[..len] else a.tokens)
      && a'.cold <= a.cold && a'.back <= |a'.tokens| && a'.id == a.id
  {
    hide Model.Valid, CellsOk, R.Recoverable, R.CutsSomewhere, R.HalfRewound, R.InTime, AllEndBy, NothingOnDisk;
    if len >= a.cold {
      NoCutRefused(s.spilled, s.blockSize, a.cold, len);
    }
    var r := R.Truncate(m, s, len);
    a' := B.SeqState(s.tokens, a.cold, |s.tokens|, a.bytes, a.id);
    if r.Ok? {
      HereWayBack(m, s);
      StillCold(old(s.spilled), s.spilled, s.blockSize, a.cold);
    }
    return r.Ok?, a';
  }

  lemma StillCold(before: seq<set<nat>>, after: seq<set<nat>>, blockSize: nat, pos: nat)
    requires ColdTo(before, blockSize, pos) && |after| == |before| && forall l :: 0 <= l < |after| ==> after[l] <= before[l]
    ensures ColdTo(after, blockSize, pos)
  {
    forall l | 0 <= l < |after| ensures AllEndBy(after[l], blockSize, pos) {
      assert AllEndBy(before[l], blockSize, pos);
    }
  }

  // ---------------------------------------------------------------- many sequences

  ghost predicate AllShow(m: Model, value: Reading, net: B.Net, seqs: seq<SeqState>, vs: seq<B.SeqState>)
    requires m.Valid()
    reads seqs
  {
    |vs| == |seqs| && forall i :: 0 <= i < |seqs| ==> Shows(m, seqs[i], vs[i]) && Serves(net, m, value, seqs[i])
  }

  lemma FitsIsOk(m: Model, value: Reading, net: B.Net, s: SeqState, a: B.SeqState, context: seq<Token>)
    requires Serves(net, m, value, s)
    ensures T.TurnFits(m, a.tokens, context, s.capacity) <==> B.ForwardOk(net, context, a, 1)
  {
  }

  lemma FirstFailIs(net: B.Net, contexts: seq<seq<Token>>, vs: seq<B.SeqState>, at: nat)
    requires |contexts| == |vs| && at <= |vs| && (at < |vs| ==> !B.ForwardOk(net, contexts[at], vs[at], 1))
    requires forall i :: 0 <= i < at ==> B.ForwardOk(net, contexts[i], vs[i], 1)
    ensures B.FirstFail(net, contexts, vs, 0) == at
  {
    hide B.ForwardOk;
    var f := B.FirstFail(net, contexts, vs, 0);
  }

  /** A sequence nothing was done to still shows what it showed, and one that absorbed its context
    * shows that. */
  lemma TookShows(
    m: Model, value: Reading, net: B.Net, s: SeqState, a: B.SeqState, context: seq<Token>, cells: seq<Cell>, spilled: seq<set<nat>>)
    requires m.Valid() && s.Valid(m) && !s.recording && Serves(net, m, value, s)
    requires CellsOk(m, a.tokens, cells) && ColdTo(spilled, s.blockSize, a.cold) && WayBack(cells, a.back, |a.tokens|)
    requires T.Took(m, a.tokens, spilled, context, s)
    ensures Shows(m, s, AfterPass(net, s, a, 1)) && B.Stepped(net, context, a, AfterPass(net, s, a, 1))
  {
    hide Model.Valid, CellsOk, WayBack, CopiesKept, ColdTo, Ro.DiskAfter;
    PassShows(m, value, net, s, a, 1, cells, spilled);
  }

  /** One sequence, as it was shown before a batch and as it is now. */
  ghost predicate Was(m: Model, value: Reading, net: B.Net, s: SeqState, a: B.SeqState, cells: seq<Cell>, spilled: seq<set<nat>>)
    requires m.Valid()
    reads s`cells, s`spilled, s`tokens, s`recording
  {
    && s.Valid(m) && !s.recording && Serves(net, m, value, s)
    && CellsOk(m, a.tokens, cells) && ColdTo(spilled, s.blockSize, a.cold) && WayBack(cells, a.back, |a.tokens|)
  }

  ghost predicate AllWere(
    m: Model, value: Reading, net: B.Net, seqs: seq<SeqState>, vs: seq<B.SeqState>, cells: seq<seq<Cell>>, spilled: seq<seq<set<nat>>>)
    requires m.Valid()
    reads seqs
  {
    && |cells| == |spilled| == |vs| == |seqs|
    && forall i :: 0 <= i < |seqs| ==> Was(m, value, net, seqs[i], vs[i], cells[i], spilled[i])
  }

  ghost function Views(net: B.Net, seqs: seq<SeqState>, vs: seq<B.SeqState>): (r: seq<B.SeqState>)
    requires |vs| == |seqs|
    reads seqs
    ensures |r| == |seqs| && forall i :: 0 <= i < |r| ==> r[i] == AfterPass(net, seqs[i], vs[i], 1)
  {
    seq(|seqs|, i requires 0 <= i < |seqs| reads seqs => AfterPass(net, seqs[i], vs[i], 1))
  }

  lemma AllTook(
    m: Model, value: Reading, net: B.Net, seqs: seq<SeqState>, vs: seq<B.SeqState>, contexts: seq<seq<Token>>,
    cells: seq<seq<Cell>>, spilled: seq<seq<set<nat>>>, upTo: nat)
    requires m.Valid() && AllWere(m, value, net, seqs, vs, cells, spilled) && |contexts| == |seqs| && upTo <= |seqs|
    requires forall i :: 0 <= i < upTo ==> T.Took(m, vs[i].tokens, spilled[i], contexts[i], seqs[i])
    ensures forall i :: 0 <= i < upTo ==>
      Shows(m, seqs[i], Views(net, seqs, vs)[i]) && B.Stepped(net, contexts[i], vs[i], Views(net, seqs, vs)[i])
  {
    hide Model.Valid, CellsOk, WayBack, ColdTo, T.Took, Shows, AfterPass, Views;
    forall i | 0 <= i < upTo
      ensures Shows(m, seqs[i], Views(net, seqs, vs)[i]) && B.Stepped(net, contexts[i], vs[i], Views(net, seqs, vs)[i])
    {
      assert Was(m, value, net, seqs[i], vs[i], cells[i], spilled[i]);
      TookShows(m, value, net, seqs[i], vs[i], contexts[i], cells[i], spilled[i]);
    }
  }

  /** Whatever was not reached is as it was. */
  lemma RestAsBefore(
    m: Model, value: Reading, net: B.Net, seqs: seq<SeqState>, vs: seq<B.SeqState>,
    cells: seq<seq<Cell>>, spilled: seq<seq<set<nat>>>, from: nat)
    requires m.Valid() && AllWere(m, value, net, seqs, vs, cells, spilled) && from <= |seqs|
    requires forall i :: from <= i < |seqs| ==>
      seqs[i].tokens == vs[i].tokens && seqs[i].cells == cells[i] && seqs[i].spilled == spilled[i]
    ensures forall i :: from <= i < |seqs| ==> Views(net, seqs, vs)[i] == vs[i] && Shows(m, seqs[i], vs[i])
  {
    hide Model.Valid, CellsOk, WayBack, ColdTo;
    forall i | from <= i < |seqs| ensures Views(net, seqs, vs)[i] == vs[i] && Shows(m, seqs[i], vs[i]) {
      assert Was(m, value, net, seqs[i], vs[i], cells[i], spilled[i]);
      UntouchedShows(net, seqs[i], vs[i]);
    }
  }

  /** A batch that stopped at `at`. */
  lemma BatchStopped(
    m: Model, value: Reading, net: B.Net, seqs: seq<SeqState>, vs: seq<B.SeqState>, contexts: seq<seq<Token>>,
    cells: seq<seq<Cell>>, spilled: seq<seq<set<nat>>>, at: nat)
    requires m.Valid() && AllWere(m, value, net, seqs, vs, cells, spilled) && |contexts| == |seqs| && at < |seqs|
    requires !(|vs| > 1 && forall i :: 0 <= i < |vs| ==> |contexts[i]| == |vs[i].tokens| + 1)
    requires B.FirstFail(net, contexts, vs, 0) == at
    requires forall i :: 0 <= i < at ==> T.Took(m, vs[i].tokens, spilled[i], contexts[i], seqs[i])
    requires T.Stumbled(m, vs[at].tokens, spilled[at], contexts[at], seqs[at]) && CopiesKept(cells[at], seqs[at].cells)
    requires forall i :: at < i < |seqs| ==>
      seqs[i].tokens == vs[i].tokens && seqs[i].cells == cells[i] && seqs[i].spilled == spilled[i]
    ensures forall i :: 0 <= i < |seqs| ==> Shows(m, seqs[i], Views(net, seqs, vs)[i])
    ensures B.FailedBatch(net, contexts, vs, Views(net, seqs, vs))
  {
    hide Model.Valid, CellsOk, WayBack, ColdTo, T.Took, T.Stumbled, Shows, AfterPass, Views, CopiesKept, Serves, B.Stepped;
    AllTook(m, value, net, seqs, vs, contexts, cells, spilled, at);
    assert Was(m, value, net, seqs[at], vs[at], cells[at], spilled[at]);
    StumbledShows(m, value, net, seqs[at], vs[at], contexts[at], cells[at], spilled[at]);
    RestAsBefore(m, value, net, seqs, vs, cells, spilled, at + 1);
    FailsInTurn(net, contexts, vs, Views(net, seqs, vs), at);
  }

  /** `logits_batch` over real layers, as the decode loop is promised it of a backend that looks
    * before it leaps. */
  method LogitsBatch(
    m: Model, value: Reading, ghost net: B.Net, seqs: seq<SeqState>, ghost vs: seq<B.SeqState>, contexts: seq<seq<Token>>,
    prefillChunk: nat)
    returns (r: Result<seq<B.Logits>, Ro.Failure>, ghost vs': seq<B.SeqState>)
    requires m.Valid() && Separate(seqs) && |contexts| == |seqs| && AllShow(m, value, net, seqs, vs)
    modifies seqs`cells, seqs`spilled, seqs`tokens
    ensures |vs'| == |vs| && AllShow(m, value, net, seqs, vs')
    ensures r.Ok? <==> B.FirstFail(net, contexts, vs, 0) == |vs|
    ensures r.Ok? ==> |r.value| == |vs| && forall i :: 0 <= i < |vs| ==>
      B.Stepped(net, contexts[i], vs[i], vs'[i]) && r.value[i] == net.logits(vs'[i].tokens)
    ensures r.Err? ==> B.FailedBatch(net, contexts, vs, vs')
  {
    hide Model.Valid, CellsOk, WayBack, CopiesKept, ColdTo, ReadTo, NothingOnDisk, Hidden, Says, Numbers, B.ForwardOk;
    hide T.TurnFits, T.Took, T.Stumbled, Model.Answer, AfterPass, B.Stepped, B.FailedBatch, Serves, T.Answered, T.BatchLeaves;
    ghost var tokens, cells, spilled := T.TokensOf(seqs), T.CellsOf(seqs), T.SpilledOf(seqs);
    var answers;
    ghost var at;
    answers, at := T.LogitsBatch(m, contexts, seqs, prefillChunk);
    WereShown(m, value, net, seqs, vs, cells, spilled);
    vs' := Views(net, seqs, vs);
    BatchShows(m, value, net, seqs, vs, contexts, tokens, cells, spilled, answers.Ok?, at);
    if answers.Err? {
      return Err(answers.error), vs';
    }
    EachSays(m, seqs, vs, contexts, answers.value);
    var all := ReadEach(m, value, seqs, answers.value);
    AllSay(m, value, net, seqs, vs', all);
    return Ok(all), vs';
  }

  lemma WereShown(
    m: Model, value: Reading, net: B.Net, seqs: seq<SeqState>, vs: seq<B.SeqState>, cells: seq<seq<Cell>>, spilled: seq<seq<set<nat>>>)
    requires m.Valid() && |cells| == |spilled| == |vs| == |seqs|
    requires forall i :: 0 <= i < |seqs| ==>
      && seqs[i].Valid(m) && !seqs[i].recording && Serves(net, m, value, seqs[i])
      && CellsOk(m, vs[i].tokens, cells[i]) && ColdTo(spilled[i], seqs[i].blockSize, vs[i].cold)
      && WayBack(cells[i], vs[i].back, |vs[i].tokens|)
    ensures AllWere(m, value, net, seqs, vs, cells, spilled)
  {
    hide Model.Valid, CellsOk, WayBack, ColdTo, Serves, NothingOnDisk;
  }

  lemma AllSay(m: Model, value: Reading, net: B.Net, seqs: seq<SeqState>, vs: seq<B.SeqState>, all: seq<B.Logits>)
    requires m.Valid() && AllShow(m, value, net, seqs, vs) && |all| == |seqs|
    requires forall i :: 0 <= i < |all| ==> all[i] == Says(m, value, seqs[i].tokens)
    ensures forall i :: 0 <= i < |all| ==> all[i] == net.logits(vs[i].tokens)
  {
    hide Model.Valid, CellsOk, WayBack, ColdTo, NothingOnDisk, Says;
  }

  lemma EachSays(m: Model, seqs: seq<SeqState>, vs: seq<B.SeqState>, contexts: seq<seq<Token>>, answers: seq<Vec>)
    requires m.Valid() && |vs| == |contexts| == |answers| == |seqs|
    requires forall i :: 0 <= i < |seqs| ==> T.Answered(m, vs[i].tokens, contexts[i], seqs[i].tokens, answers[i])
    ensures forall i :: 0 <= i < |seqs| ==> seqs[i].tokens != [] && answers[i] == m.Answer(Hidden(m, seqs[i].tokens))
  {
    hide Hidden, Model.Answer;
  }

  /** What a batch leaves, whether it went through, was rejected, or stopped at `at`. */
  lemma BatchShows(
    m: Model, value: Reading, net: B.Net, seqs: seq<SeqState>, vs: seq<B.SeqState>, contexts: seq<seq<Token>>,
    tokens: seq<seq<Token>>, cells: seq<seq<Cell>>, spilled: seq<seq<set<nat>>>, ok: bool, at: nat)
    requires m.Valid() && AllWere(m, value, net, seqs, vs, cells, spilled)
    requires T.BatchLeaves(m, contexts, seqs, tokens, cells, spilled, ok, at)
    requires forall i :: 0 <= i < |seqs| ==> tokens[i] == vs[i].tokens
    ensures AllShow(m, value, net, seqs, Views(net, seqs, vs))
    ensures ok <==> B.FirstFail(net, contexts, vs, 0) == |vs|
    ensures ok ==> forall i :: 0 <= i < |vs| ==> B.Stepped(net, contexts[i], vs[i], Views(net, seqs, vs)[i])
    ensures !ok ==> B.FailedBatch(net, contexts, vs, Views(net, seqs, vs))
  {
    hide Model.Valid, CellsOk, WayBack, CopiesKept, ColdTo, T.TurnFits, T.Took, T.Stumbled, AfterPass, B.Stepped, B.ForwardOk, Serves, Shows, Views;
    forall i | 0 <= i < |seqs|
      ensures T.TurnFits(m, vs[i].tokens, contexts[i], seqs[i].capacity) <==> B.ForwardOk(net, contexts[i], vs[i], 1)
      ensures Serves(net, m, value, seqs[i])
    {
      assert Was(m, value, net, seqs[i], vs[i], cells[i], spilled[i]);
      FitsIsOk(m, value, net, seqs[i], vs[i], contexts[i]);
    }
    if ok {
      AllTook(m, value, net, seqs, vs, contexts, cells, spilled, |seqs|);
      FirstFailIs(net, contexts, vs, |vs|);
    } else if T.OneStepEach(contexts, tokens) {
      RestAsBefore(m, value, net, seqs, vs, cells, spilled, 0);
      assert Views(net, seqs, vs) == vs;
      Fused(m, value, net, seqs[0]);
      FailsChecked(net, contexts, vs);
    } else {
      FirstFailIs(net, contexts, vs, at);
      BatchStopped(m, value, net, seqs, vs, contexts, cells, spilled, at);
    }
  }

  lemma Fused(m: Model, value: Reading, net: B.Net, s: SeqState)
    requires Serves(net, m, value, s)
    ensures net.fused
  {
  }

  lemma FailsChecked(net: B.Net, contexts: seq<seq<Token>>, vs: seq<B.SeqState>)
    requires |contexts| == |vs| > 1 && net.fused && exists i :: 0 <= i < |vs| && !B.ForwardOk(net, contexts[i], vs[i], 1)
    requires forall i :: 0 <= i < |vs| ==> |contexts[i]| == |vs[i].tokens| + 1
    ensures B.FirstFail(net, contexts, vs, 0) < |vs| && B.FailedBatch(net, contexts, vs, vs)
  {
    hide B.ForwardOk;
    var f := B.FirstFail(net, contexts, vs, 0);
  }

  lemma FailsInTurn(net: B.Net, contexts: seq<seq<Token>>, vs: seq<B.SeqState>, vs': seq<B.SeqState>, at: nat)
    requires |contexts| == |vs| == |vs'| && at < |vs| && B.FirstFail(net, contexts, vs, 0) == at
    requires !(|vs| > 1 && forall i :: 0 <= i < |vs| ==> |contexts[i]| == |vs[i].tokens| + 1)
    requires forall i :: 0 <= i < at ==> B.Stepped(net, contexts[i], vs[i], vs'[i])
    requires |contexts[at]| == |vs[at].tokens| + 1 ==> vs'[at] == vs[at]
    requires forall i :: at < i < |vs| ==> vs'[i] == vs[i]
    ensures B.FailedBatch(net, contexts, vs, vs')
  {
  }

  lemma StumbledShows(
    m: Model, value: Reading, net: B.Net, s: SeqState, a: B.SeqState, context: seq<Token>, cells: seq<Cell>, spilled: seq<set<nat>>)
    requires m.Valid() && s.Valid(m) && !s.recording && Serves(net, m, value, s)
    requires CellsOk(m, a.tokens, cells) && ColdTo(spilled, s.blockSize, a.cold) && WayBack(cells, a.back, |a.tokens|)
    requires T.Stumbled(m, a.tokens, spilled, context, s) && CopiesKept(cells, s.cells)
    ensures Shows(m, s, AfterPass(net, s, a, 1))
    ensures |context| == |a.tokens| + 1 ==> AfterPass(net, s, a, 1) == a
  {
    hide Model.Valid, CellsOk, WayBack, CopiesKept, ColdTo, Ro.DiskAfter;
    PassShows(m, value, net, s, a, 1, cells, spilled);
  }

  /** A sequence nothing was done to shows what it showed. */
  lemma UntouchedShows(net: B.Net, s: SeqState, a: B.SeqState)
    requires s.tokens == a.tokens
    ensures AfterPass(net, s, a, 1) == a
  {
  }

  method ReadEach(m: Model, value: Reading, seqs: seq<SeqState>, answers: seq<Vec>) returns (r: seq<B.Logits>)
    requires m.Valid() && |answers| == |seqs|
    requires forall i :: 0 <= i < |seqs| ==> seqs[i].tokens != [] && answers[i] == m.Answer(Hidden(m, seqs[i].tokens))
    ensures |r| == |answers| && forall i :: 0 <= i < |r| ==> r[i] == Says(m, value, seqs[i].tokens)
  {
    hide Model.Valid, Hidden, Model.Answer;
    r := [];
    for k := 0 to |answers|
      invariant |r| == k && forall i :: 0 <= i < k ==> r[i] == Says(m, value, seqs[i].tokens)
    {
      r := r + [Numbers(value, answers[k])];
    }
  }

  // ---------------------------------------------------------------- a round, and taking it back

  /** A round of guesses in one pass, and then back to any length from its start to its end: it goes
    * through unless the cut lies behind every window, and leaves the sequence as if only the kept
    * tokens had ever been consumed. */
  method RoundAndBack(m: Model, s: SeqState, ghost window: Option<nat>, context: seq<Token>, n: nat, prefillChunk: nat, len: nat)
    returns (r: Result<seq<Vec>, Ro.Failure>, back: Result<(), R.Refusal>)
    requires m.Valid() && s.Valid(m) && !s.recording && Windowed(m, window) && n > 1
    requires s.tokens <= context && |s.tokens| <= len <= |context|
    requires !s.hasStorage || WindowStart(window, |context|) <= len
    modifies s`cells, s`spilled, s`tokens, s`recording
    ensures r.Ok? <==> |context| <= s.capacity && n <= |context| - |old(s.tokens)| && Ro.AllBelow(context[|old(s.tokens)|..], m.vocab)
    ensures r.Ok? ==> Ro.AnswersAre(m, context, r.value) && back.Ok? && s.Valid(m) && s.tokens == context[..len]
  {
    hide Model.Valid, CellsOk, Recorded, ReadTo, NothingOnDisk, Ro.AnswersAre, Ro.AllBelow, R.HalfRewound, R.InTime;
    ghost var had := |s.tokens|;
    r := Ro.LogitsMulti(m, s, context, n, prefillChunk);
    if r.Err? {
      return r, Ok(());
    }
    assert s.tokens == context;
    if s.hasStorage {
      WindowsCold(m, s, window);
      NoCutRefused(s.spilled, s.blockSize, WindowStart(window, |context|), len);
    } else {
      NothingCold(s, |m.blocks|);
      NoCutRefused(s.spilled, s.blockSize, 0, len);
    }
    R.RoundIsRecoverable(m, s.tokens, s.cells, had, len);
    back := R.Truncate(m, s, len);
    assert len == |context| ==> context[..len] == context;
  }
}
