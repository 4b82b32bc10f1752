/** The pre-tokenizer. The pattern as it is documented, and the hand-run splitter, proved to take
  * exactly the pieces a backtracking engine takes. */
module Split {
  import opened Basics
  import opened Pattern
  import U = Utf8

  // ---------------------------------------------------------------- the pattern

  function Apostrophe(rest: Re): Re { Then(One(Quote), rest) }

  /** `(?:'[sS]|'[tT]|'[rR][eE]|'[vV][eE]|'[mM]|'[lL][lL]|'[dD])` */
  function Contraction(): Re {
    Or(Apostrophe(One(Either('s'))),
    Or(Apostrophe(One(Either('t'))),
    Or(Apostrophe(Then(One(Either('r')), One(Either('e')))),
    Or(Apostrophe(Then(One(Either('v')), One(Either('e')))),
    Or(Apostrophe(One(Either('m'))),
    Or(Apostrophe(Then(One(Either('l')), One(Either('l')))),
    Apostrophe(One(Either('d')))))))))
  }

  /** `[^\r\n\p{L}\p{N}]?[\p{L}\p{M}]+` */
  function WordPart(): Re { Then(Maybe(Lead), Plus(Word)) }

  /** ` ?[^\s\p{L}\p{M}\p{N}]+[\r\n]*` */
  function SymbolPart(): Re { Then(Maybe(Blank), Then(Plus(Symbol), Many(Break))) }

  /** `\s*[\r\n]+` */
  function BreakPart(): Re { Then(Many(White), Plus(Break)) }

  /** `\s+(?!\S)` */
  function TrailPart(): Re { Then(Plus(White), OnlyBefore(White)) }

  function Qwen(): Re {
    Or(Contraction(), Or(WordPart(), Or(One(Digit), Or(SymbolPart(), Or(BreakPart(), Or(TrailPart(), Plus(White)))))))
  }

  // ---------------------------------------------------------------- 1. contractions

  /** Two letters after an apostrophe, or one. */
  function ContractionEnd(k: Classes, s: string, i: nat): Option<nat> {
    if i < |s| && s[i] == '\'' && i + 1 < |s| then
      var one := ToLower(s[i + 1]);
      if one == 's' || one == 't' || one == 'm' || one == 'd' then Some(i + 2)
      else if i + 2 < |s| && (one == 'r' || one == 'v') && ToLower(s[i + 2]) == 'e' then Some(i + 3)
      else if i + 2 < |s| && one == 'l' && ToLower(s[i + 2]) == 'l' then Some(i + 3)
      else None
    else None
  }

  lemma OneLetter(k: Classes, a: char, s: string, i: nat)
    ensures Ends(k, Apostrophe(One(Either(a))), s, i) ==
      if i + 1 < |s| && s[i] == '\'' && ToLower(s[i + 1]) == a then [i + 2] else []
  {
    if Fits(k, Quote, s, i) {
      assert Ends(k, One(Quote), s, i) == [i + 1];
      assert EndsFrom(k, One(Either(a)), s, [i + 1]) == Ends(k, One(Either(a)), s, i + 1) + [];
    }
  }

  lemma TwoLetters(k: Classes, a: char, b: char, s: string, i: nat)
    ensures Ends(k, Apostrophe(Then(One(Either(a)), One(Either(b)))), s, i) ==
      if i + 2 < |s| && s[i] == '\'' && ToLower(s[i + 1]) == a && ToLower(s[i + 2]) == b then [i + 3] else []
  {
    var both := Then(One(Either(a)), One(Either(b)));
    if Fits(k, Quote, s, i) {
      assert Ends(k, One(Quote), s, i) == [i + 1];
      assert EndsFrom(k, both, s, [i + 1]) == Ends(k, both, s, i + 1) + [];
      if Fits(k, Either(a), s, i + 1) {
        assert Ends(k, One(Either(a)), s, i + 1) == [i + 2];
        assert EndsFrom(k, One(Either(b)), s, [i + 2]) == Ends(k, One(Either(b)), s, i + 2) + [];
      } else {
        assert Ends(k, One(Either(a)), s, i + 1) == [] && Ends(k, both, s, i + 1) == [];
      }
    }
  }

  lemma ContractionIs(k: Classes, s: string, i: nat)
    ensures Match(k, Contraction(), s, i) == ContractionEnd(k, s, i)
  {
    OneLetter(k, 's', s, i);
    OneLetter(k, 't', s, i);
    TwoLetters(k, 'r', 'e', s, i);
    TwoLetters(k, 'v', 'e', s, i);
    OneLetter(k, 'm', s, i);
    TwoLetters(k, 'l', 'l', s, i);
    OneLetter(k, 'd', s, i);
    hide Apostrophe, Ends;
    ContractionAlternatives(k, s, i);
  }

  /** Seven alternatives in a row. */
  lemma ContractionAlternatives(k: Classes, s: string, i: nat)
    ensures
      var a, b, c, d := Apostrophe(One(Either('s'))), Apostrophe(One(Either('t'))),
        Apostrophe(Then(One(Either('r')), One(Either('e')))), Apostrophe(Then(One(Either('v')), One(Either('e'))));
      var e, f, g := Apostrophe(One(Either('m'))), Apostrophe(Then(One(Either('l')), One(Either('l')))), Apostrophe(One(Either('d')));
      Match(k, Contraction(), s, i) ==
        if Match(k, a, s, i).Some? then Match(k, a, s, i)
        else if Match(k, b, s, i).Some? then Match(k, b, s, i)
        else if Match(k, c, s, i).Some? then Match(k, c, s, i)
        else if Match(k, d, s, i).Some? then Match(k, d, s, i)
        else if Match(k, e, s, i).Some? then Match(k, e, s, i)
        else if Match(k, f, s, i).Some? then Match(k, f, s, i)
        else Match(k, g, s, i)
  {
    var a, b, c, d := Apostrophe(One(Either('s'))), Apostrophe(One(Either('t'))),
      Apostrophe(Then(One(Either('r')), One(Either('e')))), Apostrophe(Then(One(Either('v')), One(Either('e'))));
    var e, f, g := Apostrophe(One(Either('m'))), Apostrophe(Then(One(Either('l')), One(Either('l')))), Apostrophe(One(Either('d')));
    hide Apostrophe, Match;
    OrIs(k, f, g, s, i);
    OrIs(k, e, Or(f, g), s, i);
    OrIs(k, d, Or(e, Or(f, g)), s, i);
    OrIs(k, c, Or(d, Or(e, Or(f, g))), s, i);
    OrIs(k, b, Or(c, Or(d, Or(e, Or(f, g)))), s, i);
    OrIs(k, a, Or(b, Or(c, Or(d, Or(e, Or(f, g))))), s, i);
  }

  // ---------------------------------------------------------------- 2. words, 4. symbols

  /** An optional leading character, then a run that may not be empty. */
  function OptionalThen(k: Classes, lead: Kind, run: Kind, s: string, i: nat): Option<nat> {
    if Fits(k, lead, s, i) && Fits(k, run, s, i + 1) then Some(Run(k, run, s, i + 1))
    else if Fits(k, run, s, i) then Some(Run(k, run, s, i))
    else None
  }

  /** With the leading character if the rest matches then, without it otherwise. */
  lemma MaybeThen(k: Classes, lead: Kind, rest: Re, s: string, i: nat)
    ensures Match(k, Then(Maybe(lead), rest), s, i) ==
      if Fits(k, lead, s, i) && Ends(k, rest, s, i + 1) != [] then Match(k, rest, s, i + 1) else Match(k, rest, s, i)
  {
    assert EndsFrom(k, rest, s, [i]) == Ends(k, rest, s, i) + [];
    if Fits(k, lead, s, i) {
      var starts: seq<nat> := [i + 1, i];
      assert Ends(k, Maybe(lead), s, i) == starts;
      assert starts[1..] == [i];
      assert Ends(k, Then(Maybe(lead), rest), s, i) == Ends(k, rest, s, i + 1) + EndsFrom(k, rest, s, [i]);
    } else {
      assert Ends(k, Maybe(lead), s, i) == [i];
    }
  }

  lemma WordIs(k: Classes, s: string, i: nat)
    ensures Match(k, WordPart(), s, i) == OptionalThen(k, Lead, Word, s, i)
  {
    MaybeThen(k, Lead, Plus(Word), s, i);
    PlusIs(k, Word, s, i);
    PlusIs(k, Word, s, i + 1);
    hide Ends, Plus;
  }

  /** The greedy choice of a sequence of two runs is its first. */
  lemma RunThenRun(k: Classes, a: Kind, b: Kind, s: string, i: nat)
    ensures Match(k, Then(Plus(a), Many(b)), s, i) ==
      if Fits(k, a, s, i) then Some(Run(k, b, s, Run(k, a, s, i))) else None
  {
    PlusIs(k, a, s, i);
    assert Ends(k, Then(Plus(a), Many(b)), s, i) == EndsFrom(k, Many(b), s, Ends(k, Plus(a), s, i));
    hide Ends, Run;
    if Fits(k, a, s, i) {
      var e := Run(k, a, s, i);
      ManyIsDown(k, b, s, e);
      assert Down(e, i + 1)[0] == e && Down(Run(k, b, s, e), e)[0] == Run(k, b, s, e);
      FirstFrom(k, Many(b), s, Down(e, i + 1), 0);
    } else {
      NoneFrom(k, Many(b), s, []);
    }
  }

  function SymbolEnd(k: Classes, s: string, i: nat): Option<nat> {
    match OptionalThen(k, Blank, Symbol, s, i)
    case None => None
    case Some(e) => Some(Run(k, Break, s, e))
  }

  lemma SymbolIs(k: Classes, s: string, i: nat)
    ensures Match(k, SymbolPart(), s, i) == SymbolEnd(k, s, i)
  {
    var rest := Then(Plus(Symbol), Many(Break));
    MaybeThen(k, Blank, rest, s, i);
    RunThenRun(k, Symbol, Break, s, i);
    RunThenRun(k, Symbol, Break, s, i + 1);
    hide Ends, Run;
  }

  // ---------------------------------------------------------------- 5. to 7. white space

  /** The last line break of `i..end`. */
  function LastBreak(s: string, i: nat, end: nat): (r: Option<nat>)
    requires i <= end <= |s|
    ensures r.Some? ==> i <= r.value < end && IsBreak(s, r.value) && forall j :: r.value < j < end ==> !IsBreak(s, j)
    ensures r.None? ==> forall j :: i <= j < end ==> !IsBreak(s, j)
    decreases end - i
  {
    if i == end then None else if IsBreak(s, end - 1) then Some(end - 1) else LastBreak(s, i, end - 1)
  }

  predicate IsBreak(s: string, j: nat) { j < |s| && (s[j] == '\r' || s[j] == '\n') }

  lemma BreakAt(k: Classes, s: string, j: nat)
    requires !IsBreak(s, j + 1)
    ensures Ends(k, Plus(Break), s, j) == if IsBreak(s, j) then [j + 1] else []
  {
    PlusIs(k, Break, s, j);
    assert Run(k, Break, s, j + 1) == j + 1;
    hide Ends, Plus;
  }

  /** Giving back one character at a time from `e`, the first place a break can match is the last
    * break. */
  lemma {:induction false} BreakFrom(k: Classes, s: string, i: nat, e: nat)
    requires i <= e <= |s| && !IsBreak(s, e)
    ensures
      var last := LastBreak(s, i, e);
      First(EndsFrom(k, Plus(Break), s, Down(e, i))) == if last.Some? then Some(last.value + 1) else None
  {
    PlusIs(k, Break, s, e);
    hide Ends, Plus, Run;
    if e == i {
      assert Down(e, i)[1..] == [];
    } else {
      assert Down(e, i)[1..] == Down(e - 1, i) && Down(e - 1, i)[0] == e - 1;
      BreakAt(k, s, e - 1);
      if !IsBreak(s, e - 1) {
        BreakFrom(k, s, i, e - 1);
      }
    }
  }

  /** Greedy white space gives characters back until a line break can match. */
  lemma BreakIs(k: Classes, s: string, i: nat)
    requires k.Valid() && i <= |s|
    ensures
      var last := LastBreak(s, i, Run(k, White, s, i));
      Match(k, BreakPart(), s, i) == if last.Some? then Some(last.value + 1) else None
  {
    ManyIsDown(k, White, s, i);
    BreakFrom(k, s, i, Run(k, White, s, i));
  }

  /** White space up to a following word, less the character that goes with the word. */
  function TrailEnd(k: Classes, s: string, i: nat): Option<nat>
    requires i <= |s|
  {
    var end := Run(k, White, s, i);
    var keep := if end == |s| then end else end - 1;
    if keep > i then Some(keep) else None
  }

  lemma TrailIs(k: Classes, s: string, i: nat)
    requires i < |s| && Is(k, White, s[i])
    ensures Match(k, TrailPart(), s, i) == TrailEnd(k, s, i)
  {
    var end := Run(k, White, s, i);
    var starts := Down(end, i + 1);
    PlusIs(k, White, s, i);
    assert Ends(k, TrailPart(), s, i) == EndsFrom(k, OnlyBefore(White), s, starts);
    if end == |s| {
      FirstFrom(k, OnlyBefore(White), s, starts, 0);
    } else if end - 1 > i {
      assert Ends(k, OnlyBefore(White), s, end) == [];
      assert Ends(k, OnlyBefore(White), s, end - 1) == [end - 1];
      FirstFrom(k, OnlyBefore(White), s, starts, 1);
    } else {
      assert starts == [end] && Ends(k, OnlyBefore(White), s, end) == [];
      NoneFrom(k, OnlyBefore(White), s, starts);
    }
  }

  // ---------------------------------------------------------------- the splitter

  /** Where the piece beginning at `i` ends. */
  function PieceEnd(k: Classes, s: string, i: nat): (e: nat)
    requires i < |s|
    ensures i < e <= |s|
  {
    if ContractionEnd(k, s, i).Some? then ContractionEnd(k, s, i).value
    else if OptionalThen(k, Lead, Word, s, i).Some? then OptionalThen(k, Lead, Word, s, i).value
    else if Is(k, Digit, s[i]) then i + 1
    else if SymbolEnd(k, s, i).Some? then SymbolEnd(k, s, i).value
    else
      var end := Run(k, White, s, i);
      match LastBreak(s, i, end)
      case Some(last) => last + 1
      case None =>
        assert Is(k, White, s[i]);
        if TrailEnd(k, s, i).Some? then TrailEnd(k, s, i).value else end
  }

  /** The first piece is what the engine matches first. */
  lemma PieceIsMatch(k: Classes, s: string, i: nat)
    requires k.Valid() && i < |s|
    ensures Match(k, Qwen(), s, i) == Some(PieceEnd(k, s, i))
  {
    ContractionIs(k, s, i);
    WordIs(k, s, i);
    SymbolIs(k, s, i);
    BreakIs(k, s, i);
    PlusIs(k, White, s, i);
    if Is(k, White, s[i]) {
      TrailIs(k, s, i);
    }
    Alternatives(k, s, i);
  }

  lemma Alternatives(k: Classes, s: string, i: nat)
    ensures
      Match(k, Qwen(), s, i) ==
        if Match(k, Contraction(), s, i).Some? then Match(k, Contraction(), s, i)
        else if Match(k, WordPart(), s, i).Some? then Match(k, WordPart(), s, i)
        else if Match(k, One(Digit), s, i).Some? then Match(k, One(Digit), s, i)
        else if Match(k, SymbolPart(), s, i).Some? then Match(k, SymbolPart(), s, i)
        else if Match(k, BreakPart(), s, i).Some? then Match(k, BreakPart(), s, i)
        else if Match(k, TrailPart(), s, i).Some? then Match(k, TrailPart(), s, i)
        else Match(k, Plus(White), s, i)
  {
    hide Contraction, WordPart, SymbolPart, BreakPart, TrailPart, Plus, Match;
    var w, t := Plus(White), TrailPart();
    OrIs(k, t, w, s, i);
    OrIs(k, BreakPart(), Or(t, w), s, i);
    OrIs(k, SymbolPart(), Or(BreakPart(), Or(t, w)), s, i);
    OrIs(k, One(Digit), Or(SymbolPart(), Or(BreakPart(), Or(t, w))), s, i);
    OrIs(k, WordPart(), Or(One(Digit), Or(SymbolPart(), Or(BreakPart(), Or(t, w)))), s, i);
    OrIs(k, Contraction(), Or(WordPart(), Or(One(Digit), Or(SymbolPart(), Or(BreakPart(), Or(t, w))))), s, i);
  }

  /** Pieces that follow on from one another, none empty, from `from` to `to`. */
  predicate Tiles(pieces: seq<(nat, nat)>, from: nat, to: nat) {
    if pieces == [] then from == to
    else pieces[0].0 == from && pieces[0].0 < pieces[0].1 <= to && Tiles(pieces[1..], pieces[0].1, to)
  }

  lemma {:induction false} MatchAllTiles(k: Classes, s: string, i: nat)
    requires k.Valid() && i <= |s|
    ensures Tiles(MatchAll(k, Qwen(), s, i), i, |s|)
    decreases |s| - i
  {
    if i < |s| {
      PieceIsMatch(k, s, i);
      MatchAllTiles(k, s, PieceEnd(k, s, i));
    }
  }

  method Scan(k: Classes, kind: Kind, s: string, from: nat) returns (j: nat)
    ensures j == Run(k, kind, s, from)
  {
    j := from;
    while j < |s| && Is(k, kind, s[j])
      invariant j >= from && Run(k, kind, s, j) == Run(k, kind, s, from)
      decreases |s| - j
    {
      j := j + 1;
    }
  }

  lemma RunMoves(k: Classes, kind: Kind, s: string, i: nat)
    ensures Run(k, kind, s, i) > i <==> Fits(k, kind, s, i)
  {
  }

  lemma OptionalRuns(k: Classes, lead: Kind, kind: Kind, s: string, i: nat)
    requires i < |s|
    ensures OptionalThen(k, lead, kind, s, i) ==
      var with, without := Run(k, kind, s, i + 1), Run(k, kind, s, i);
      if Is(k, lead, s[i]) && with > i + 1 then Some(with) else if without > i then Some(without) else None
  {
    FitsHere(k, lead, s, i);
    RunMoves(k, kind, s, i);
    RunMoves(k, kind, s, i + 1);
    hide Is, Fits, Run;
  }

  lemma FitsHere(k: Classes, kind: Kind, s: string, i: nat)
    requires i < |s|
    ensures Fits(k, kind, s, i) == Is(k, kind, s[i])
  {
  }

  /** With the leading character, then without. */
  method TryRun(k: Classes, lead: Kind, kind: Kind, s: string, i: nat) returns (r: Option<nat>)
    requires i < |s|
    ensures r == OptionalThen(k, lead, kind, s, i)
  {
    OptionalRuns(k, lead, kind, s, i);
    hide OptionalThen, Is, Fits, Run;
    if Is(k, lead, s[i]) {
      var j := Scan(k, kind, s, i + 1);
      if j > i + 1 {
        return Some(j);
      }
    }
    var j := Scan(k, kind, s, i);
    r := if j > i then Some(j) else None;
  }

  method Piece(k: Classes, s: string, i: nat) returns (e: nat)
    requires i < |s|
    ensures e == PieceEnd(k, s, i)
  {
    var contraction := ContractionEnd(k, s, i);
    if contraction.Some? {
      return contraction.value;
    }
    var word := TryRun(k, Lead, Word, s, i);
    if word.Some? {
      return word.value;
    }
    if Is(k, Digit, s[i]) {
      return i + 1;
    }
    var symbols := TryRun(k, Blank, Symbol, s, i);
    if symbols.Some? {
      e := Scan(k, Break, s, symbols.value);
      return;
    }
    var end := Scan(k, White, s, i);
    var last := LastBreak(s, i, end);
    if last.Some? {
      return last.value + 1;
    }
    var keep := if end == |s| then end else end - 1;
    e := if keep > i then keep else end;
  }

  /** `split`: the pieces are those a backtracking engine takes one after another, none is empty,
    * and together they are the whole text. */
  method SplitText(k: Classes, text: string) returns (out: seq<(nat, nat)>)
    requires k.Valid()
    ensures out == MatchAll(k, Qwen(), text, 0) && Tiles(out, 0, |text|)
  {
    hide PieceEnd, Qwen, Match, Classes.Valid;
    out := [];
    var i := 0;
    while i < |text|
      invariant i <= |text| && out + MatchAll(k, Qwen(), text, i) == MatchAll(k, Qwen(), text, 0)
    {
      PieceIsMatch(k, text, i);
      var e := Piece(k, text, i);
      assert MatchAll(k, Qwen(), text, i) == [(i, e)] + MatchAll(k, Qwen(), text, e);
      out := out + [(i, e)];
      i := e;
    }
    MatchAllTiles(k, text, 0);
  }

  // ---------------------------------------------------------------- byte ranges

  /** The byte offset of character `i`, or the length of the text past its end. */
  function ByteAt(text: string, i: nat): nat
    requires i <= |text|
  {
    |U.Encode(text[..i])|
  }

  /** Bytes before a character, the character's, and those after. */
  lemma ByteParts(text: string, i: nat, j: nat)
    requires i <= j <= |text|
    ensures ByteAt(text, i) <= ByteAt(text, j) <= |U.Encode(text)|
    ensures U.Encode(text)[ByteAt(text, i)..ByteAt(text, j)] == U.Encode(text[i..j])
  {
    hide U.Encode;
    var a, b, c := text[..i], text[i..j], text[j..];
    assert text[..j] == a + b && text == (a + b) + c;
    U.EncodeConcat(a, b);
    U.EncodeConcat(a + b, c);
    var all := U.Encode(text);
    assert all == U.Encode(a) + U.Encode(b) + U.Encode(c);
  }

  lemma NotNothing(piece: string)
    requires piece != []
    ensures U.Encode(piece) != []
  {
  }

  /** `char_indices`: where each character begins. */
  method Offsets(text: string) returns (at: seq<nat>)
    ensures |at| == |text| + 1 && forall i :: 0 <= i <= |text| ==> at[i] == ByteAt(text, i)
  {
    hide U.Encode, U.EncodeChar;
    at := [0];
    assert text[..0] == [] && U.Encode([]) == [] by {
      NoBytes();
    }
    for k := 0 to |text|
      invariant |at| == k + 1 && forall i :: 0 <= i <= k ==> at[i] == ByteAt(text, i)
    {
      assert text[..k + 1] == text[..k] + [text[k]];
      U.EncodeConcat(text[..k], [text[k]]);
      OneChar(text[k]);
      at := at + [at[k] + |U.EncodeChar(text[k])|];
    }
  }

  lemma NoBytes()
    ensures U.Encode([]) == []
  {
  }

  lemma OneChar(c: char)
    ensures U.Encode([c]) == U.EncodeChar(c)
  {
    assert [c][1..] == [];
    NoBytes();
  }

  /** A piece's byte range. */
  function ByteRange(text: string, piece: (nat, nat)): (nat, nat)
    requires piece.0 <= |text| && piece.1 <= |text|
  {
    (ByteAt(text, piece.0), ByteAt(text, piece.1))
  }

  lemma {:induction false} TilesInside(pieces: seq<(nat, nat)>, from: nat, to: nat, p: nat)
    requires Tiles(pieces, from, to) && p < |pieces|
    ensures from <= pieces[p].0 < pieces[p].1 <= to
    decreases |pieces|
  {
    if p > 0 {
      TilesInside(pieces[1..], pieces[0].1, to, p - 1);
      assert pieces[1..][p - 1] == pieces[p];
    }
  }

  lemma {:induction false} BytesTile(text: string, pieces: seq<(nat, nat)>, ranges: seq<(nat, nat)>, from: nat)
    requires from <= |text| && Tiles(pieces, from, |text|) && |ranges| == |pieces|
    requires forall p :: 0 <= p < |pieces| ==>
      pieces[p].0 <= |text| && pieces[p].1 <= |text| && ranges[p] == ByteRange(text, pieces[p])
    ensures Tiles(ranges, ByteAt(text, from), |U.Encode(text)|)
    decreases |pieces|
  {
    hide U.Encode;
    if pieces == [] {
      assert text[..|text|] == text;
    } else {
      var (i, j) := pieces[0];
      BytesTile(text, pieces[1..], ranges[1..], j);
      ByteParts(text, i, j);
      NotNothing(text[i..j]);
    }
  }

  /** `split`: the byte ranges of the pieces a backtracking engine takes one after another. Each range
    * holds its piece's bytes, none is empty, and together they are all of the text's bytes. */
  method SplitBytes(k: Classes, text: string) returns (out: seq<(nat, nat)>)
    requires k.Valid()
    ensures Tiles(out, 0, |U.Encode(text)|)
    ensures
      var pieces := MatchAll(k, Qwen(), text, 0);
      && |out| == |pieces|
      && forall p :: 0 <= p < |pieces| ==> pieces[p].0 <= pieces[p].1 <= |text| && HoldsPiece(text, pieces[p], out[p])
  {
    hide U.Encode, MatchAll, Qwen;
    var pieces := SplitText(k, text);
    var at := Offsets(text);
    out := [];
    for n := 0 to |pieces|
      invariant |out| == n
      invariant forall p :: 0 <= p < n ==>
        pieces[p].0 <= |text| && pieces[p].1 <= |text| && out[p] == ByteRange(text, pieces[p])
    {
      TilesInside(pieces, 0, |text|, n);
      out := out + [(at[pieces[n].0], at[pieces[n].1])];
    }
    forall p | 0 <= p < |pieces|
      ensures pieces[p].0 <= pieces[p].1 <= |text| && HoldsPiece(text, pieces[p], out[p])
    {
      TilesInside(pieces, 0, |text|, p);
      ByteParts(text, pieces[p].0, pieces[p].1);
    }
    BytesTile(text, pieces, out, 0);
    NoBytes();
    assert text[..0] == [];
  }

  /** The bytes in the range are the piece's. */
  ghost predicate HoldsPiece(text: string, piece: (nat, nat), range: (nat, nat))
    requires piece.0 <= piece.1 <= |text|
  {
    && range.0 <= range.1 <= |U.Encode(text)|
    && U.Encode(text)[range.0..range.1] == U.Encode(text[piece.0..piece.1])
  }
}
