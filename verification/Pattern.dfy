/** Regular expressions as a backtracking engine runs them: alternatives in order, repetition greedy,
  * every way to match listed in the order the engine would come to it. */
module Pattern {
  import opened Basics

  /** Character classes, left abstract: letters, combining marks, numerals and white space may
    * overlap in any way. */
  datatype Classes = Classes(letter: char -> bool, mark: char -> bool, numeric: char -> bool, white: char -> bool)
  {
    /** The one thing taken for granted of them. */
    ghost predicate Valid() { white('\r') && white('\n') }
  }

  /** The sets of characters the pattern is made of. */
  datatype Kind =
    | Quote
    | Either(lower: char)
    | Lead
    | Word
    | Digit
    | Blank
    | Symbol
    | Break
    | White

  function ToLower(c: char): char {
    if 'A' <= c <= 'Z' then c + 32 as char else c
  }

  predicate Is(k: Classes, kind: Kind, c: char) {
    match kind
    case Quote => c == '\''
    case Either(lower) => ToLower(c) == lower
    case Lead => c != '\r' && c != '\n' && !k.letter(c) && !k.numeric(c)
    case Word => k.letter(c) || k.mark(c)
    case Digit => k.numeric(c)
    case Blank => c == ' '
    case Symbol => !k.white(c) && !k.letter(c) && !k.mark(c) && !k.numeric(c)
    case Break => c == '\r' || c == '\n'
    case White => k.white(c)
  }

  /** Which characters the sets hold: an ASCII letter in either case, and for the rest how they divide the
    * alphabet. */
  lemma KindsAre(k: Classes, c: char, lower: char)
    requires 'a' <= lower <= 'z'
    ensures Is(k, Either(lower), c) <==> c == lower || c as int + 32 == lower as int
    ensures Is(k, Symbol, c) <==> !Is(k, White, c) && !Is(k, Word, c) && !Is(k, Digit, c)
    ensures Is(k, Lead, c) || Is(k, Digit, c) || Is(k, Break, c) || (Is(k, Word, c) && k.letter(c))
    ensures Is(k, Lead, c) ==> !Is(k, Digit, c) && !Is(k, Break, c) && !k.letter(c)
    ensures (Is(k, Break, c) <==> c in "\r\n") && (Is(k, Blank, c) <==> c in " ") && (Is(k, Quote, c) <==> c in "'")
    ensures (Is(k, Word, c) <==> k.letter(c) || k.mark(c)) && (Is(k, Digit, c) <==> k.numeric(c)) && (Is(k, White, c) <==> k.white(c))
  {
  }

  /** One character, a greedy run, a greedy option, a sequence, ordered alternatives, and "not
    * followed by anything but". */
  datatype Re =
    | One(kind: Kind)
    | Many(kind: Kind)
    | Maybe(kind: Kind)
    | Then(first: Re, second: Re)
    | Or(left: Re, right: Re)
    | OnlyBefore(kind: Kind)

  predicate Fits(k: Classes, kind: Kind, s: string, i: nat) { i < |s| && Is(k, kind, s[i]) }

  /** Where a match beginning at `i` can end, first choice first. */
  function Ends(k: Classes, re: Re, s: string, i: nat): seq<nat>
    decreases re, |s| - i
  {
    match re
    case One(kind) => if Fits(k, kind, s, i) then [i + 1] else []
    case Many(kind) => if Fits(k, kind, s, i) then Ends(k, re, s, i + 1) + [i] else [i]
    case Maybe(kind) => if Fits(k, kind, s, i) then [i + 1, i] else [i]
    case Then(first, second) => EndsFrom(k, second, s, Ends(k, first, s, i))
    case Or(left, right) => Ends(k, left, s, i) + Ends(k, right, s, i)
    case OnlyBefore(kind) => if i < |s| && !Is(k, kind, s[i]) then [] else [i]
  }

  /** A continuation tried from each end in turn. */
  function EndsFrom(k: Classes, re: Re, s: string, starts: seq<nat>): seq<nat>
    decreases re, |s| + 1, |starts|
  {
    if starts == [] then [] else Ends(k, re, s, starts[0]) + EndsFrom(k, re, s, starts[1..])
  }

  /** What the engine settles on. */
  function First(ends: seq<nat>): Option<nat> { if ends == [] then None else Some(ends[0]) }

  function Match(k: Classes, re: Re, s: string, i: nat): Option<nat> { First(Ends(k, re, s, i)) }

  /** Matches one after another from `i` on; whatever nothing matches ends it. */
  function MatchAll(k: Classes, re: Re, s: string, i: nat): seq<(nat, nat)>
    decreases |s| - i
  {
    if i >= |s| then []
    else
      match Match(k, re, s, i)
      case None => []
      case Some(e) => if e <= i then [] else [(i, e)] + MatchAll(k, re, s, e)
  }

  // ---------------------------------------------------------------- greedy runs

  /** The end of the run of `kind` that begins at `i`. */
  function Run(k: Classes, kind: Kind, s: string, i: nat): (e: nat)
    ensures e >= i && (i <= |s| ==> e <= |s|)
    ensures forall j :: i <= j < e ==> j < |s| && Is(k, kind, s[j])
    ensures !Fits(k, kind, s, e)
    decreases |s| - i
  {
    if Fits(k, kind, s, i) then Run(k, kind, s, i + 1) else i
  }

  /** From `e` down to `i`. */
  function Down(e: nat, i: nat): (r: seq<nat>)
    requires i <= e
    ensures |r| == e - i + 1 && forall j :: 0 <= j < |r| ==> r[j] == e - j
  {
    if e == i then [i] else [e] + Down(e - 1, i)
  }

  /** A greedy run gives its characters back one at a time. */
  lemma {:induction false} ManyIsDown(k: Classes, kind: Kind, s: string, i: nat)
    ensures Ends(k, Many(kind), s, i) == Down(Run(k, kind, s, i), i)
    decreases |s| - i
  {
    hide Is, Down;
    if Fits(k, kind, s, i) {
      ManyIsDown(k, kind, s, i + 1);
      DownLonger(Run(k, kind, s, i), i);
    } else {
      DownOne(i);
    }
  }

  lemma DownLonger(e: nat, i: nat)
    requires i < e
    ensures Down(e, i) == Down(e, i + 1) + [i]
  {
  }

  lemma DownOne(i: nat)
    ensures Down(i, i) == [i]
  {
  }

  /** `kind+` */
  function Plus(kind: Kind): Re { Then(One(kind), Many(kind)) }

  lemma PlusIs(k: Classes, kind: Kind, s: string, i: nat)
    ensures Ends(k, Plus(kind), s, i) == if Fits(k, kind, s, i) then Down(Run(k, kind, s, i), i + 1) else []
  {
    ManyIsDown(k, kind, s, i + 1);
    if Fits(k, kind, s, i) {
      assert Ends(k, One(kind), s, i) == [i + 1];
      assert EndsFrom(k, Many(kind), s, [i + 1]) == Ends(k, Many(kind), s, i + 1) + [];
    }
  }

  /** The first start from which the continuation matches decides. */
  lemma {:induction false} FirstFrom(k: Classes, re: Re, s: string, starts: seq<nat>, at: nat)
    requires at < |starts| && Ends(k, re, s, starts[at]) != []
    requires forall j :: 0 <= j < at ==> Ends(k, re, s, starts[j]) == []
    ensures First(EndsFrom(k, re, s, starts)) == First(Ends(k, re, s, starts[at]))
  {
    if at > 0 {
      FirstFrom(k, re, s, starts[1..], at - 1);
    }
  }

  lemma {:induction false} NoneFrom(k: Classes, re: Re, s: string, starts: seq<nat>)
    requires forall j :: 0 <= j < |starts| ==> Ends(k, re, s, starts[j]) == []
    ensures EndsFrom(k, re, s, starts) == []
  {
    if starts != [] {
      NoneFrom(k, re, s, starts[1..]);
    }
  }

  /** The first alternative that matches decides. */
  lemma OrIs(k: Classes, a: Re, b: Re, s: string, i: nat)
    ensures Match(k, Or(a, b), s, i) == if Match(k, a, s, i).Some? then Match(k, a, s, i) else Match(k, b, s, i)
  {
  }
}
