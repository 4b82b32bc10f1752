/** Speculative sampling over the reals: however guesses are made, checking them emits every token,
  * and every string of tokens, with the probability plain sampling gives it. */
module Sampling {
  import opened Basics
  import opened Sums

  type Token = nat

  datatype Candidate = Candidate(token: Token, weight: real)

  /** What `candidates` returns: at least one token, none twice, no negative weight. */
  predicate Listed(c: seq<Candidate>) {
    && c != [] && (forall i :: 0 <= i < |c| ==> c[i].weight >= 0.0)
    && forall i, j :: 0 <= i < j < |c| ==> c[i].token != c[j].token
  }

  // ---------------------------------------------------------------- masses

  function At(ws: seq<real>, i: int): real { if 0 <= i < |ws| then ws[i] else 0.0 }

  function WeightsOf(c: seq<Candidate>): (ws: seq<real>)
    ensures |ws| == |c|
  {
    seq(|c|, i requires 0 <= i < |c| => c[i].weight)
  }

  /** The weight of the first `n`. */
  function UpTo(ws: seq<real>, n: nat): real { Sum(n, Ats(ws)) }

  function Ats(ws: seq<real>): int -> real { i => At(ws, i) }

  function Total(c: seq<Candidate>): real { UpTo(WeightsOf(c), |c|) }

  /** Where `t` is listed, or nowhere. */
  function Find(c: seq<Candidate>, t: Token): (i: int)
    ensures -1 <= i < |c|
    ensures i >= 0 ==> c[i].token == t
    ensures i < 0 ==> forall j :: 0 <= j < |c| ==> c[j].token != t
  {
    if c == [] then -1 else if c[0].token == t then 0
    else
      var r := Find(c[1..], t);
      assert forall j :: 0 < j < |c| ==> c[j] == c[1..][j - 1];
      if r < 0 then -1 else r + 1
  }

  lemma FindAt(c: seq<Candidate>, i: nat)
    requires Listed(c) && i < |c|
    ensures Find(c, c[i].token) == i
  {
    var j := Find(c, c[i].token);
    assert j < i || j > i || j == i;
  }

  function Mass(c: seq<Candidate>, t: Token): real { At(WeightsOf(c), Find(c, t)) }

  /** The share of `t` in what is listed: the chance plain sampling gives it. */
  function Share(c: seq<Candidate>, t: Token): real
    requires Total(c) > 0.0
  {
    Mass(c, t) / Total(c)
  }

  function ShareAt(c: seq<Candidate>, i: int): real
    requires Total(c) > 0.0
  {
    At(WeightsOf(c), i) / Total(c)
  }

  function Shares(c: seq<Candidate>): int -> real
    requires Total(c) > 0.0
  {
    i => ShareAt(c, i)
  }

  lemma SharesScale(c: seq<Candidate>, i: int)
    requires Total(c) > 0.0
    ensures Shares(c)(i) == Reciprocal(Total(c)) * Ats(WeightsOf(c))(i)
  {
    hide At, WeightsOf, Total, Reciprocal;
    Divide(At(WeightsOf(c), i), Total(c));
  }

  lemma SharesSum(c: seq<Candidate>)
    requires Listed(c) && Total(c) > 0.0
    ensures Sum(|c|, Shares(c)) == 1.0
  {
    hide Shares, Ats, Reciprocal, Listed, WeightsOf;
    forall i ensures Shares(c)(i) == Reciprocal(Total(c)) * Ats(WeightsOf(c))(i) {
      SharesScale(c, i);
    }
    SumTimes(|c|, Ats(WeightsOf(c)), Reciprocal(Total(c)), Shares(c));
  }

  function Reciprocal(x: real): (k: real)
    requires x > 0.0
    ensures k * x == 1.0
  {
    1.0 / x
  }

  lemma ShareIs(c: seq<Candidate>, i: nat)
    requires Listed(c) && Total(c) > 0.0 && i < |c|
    ensures Share(c, c[i].token) == ShareAt(c, i) >= 0.0
  {
    FindAt(c, i);
    Divide(c[i].weight, Total(c));
  }

  lemma Divide(x: real, y: real)
    requires y > 0.0
    ensures x / y == (1.0 / y) * x
    ensures x >= 0.0 ==> x / y >= 0.0
    ensures y / y == 1.0
  {
  }

  lemma ShareBounds(c: seq<Candidate>, t: Token)
    requires Listed(c) && Total(c) > 0.0
    ensures 0.0 <= Share(c, t) <= 1.0
  {
    var at := Find(c, t);
    SharesSum(c);
    forall i: nat | i < |c| ensures ShareAt(c, i) >= 0.0 {
      ShareIs(c, i);
    }
    hide ShareAt;
    SumAtMost(|c|, i => if i == at then ShareAt(c, i) else 0.0, Shares(c));
    SumOnly(|c|, i => if i == at then ShareAt(c, i) else 0.0, at);
  }

  // ---------------------------------------------------------------- the walk

  /** A point on a line of `ws` laid end to end falls in the stretch of index `i`. */
  predicate Hit(ws: seq<real>, point: real, i: nat) {
    i < |ws| && (i == 0 || UpTo(ws, i) < point) && point <= UpTo(ws, i + 1)
  }

  /** A number of the unit interval, scaled to a line of length `total`. */
  function Point(u: real, total: real): (p: real)
    requires 0.0 <= u < 1.0 && total > 0.0
    ensures 0.0 <= p && p < total && (u > 0.0 ==> p > 0.0)
  {
    Shrinks(u, total);
    u * total
  }

  lemma Shrinks(u: real, total: real)
    requires 0.0 <= u < 1.0 && total > 0.0
    ensures 0.0 <= u * total && u * total < total && (u > 0.0 ==> u * total > 0.0)
  {
  }

  /** Subtract the weights one by one until nothing is left of the point. */
  method Walk(ws: seq<real>, start: real) returns (r: Option<nat>)
    requires start >= 0.0
    ensures r.Some? ==> Hit(ws, start, r.value)
    ensures r.None? ==> ws == [] || UpTo(ws, |ws|) < start
  {
    var point := start;
    for i := 0 to |ws|
      invariant point == start - UpTo(ws, i)
      invariant i == 0 || UpTo(ws, i) < start
    {
      point := point - ws[i];
      if point <= 0.0 {
        return Some(i);
      }
    }
    return None;
  }

  lemma {:induction false} UpToGrows(ws: seq<real>, i: nat, j: nat)
    requires i <= j && forall k :: 0 <= k < |ws| ==> ws[k] >= 0.0
    ensures UpTo(ws, i) <= UpTo(ws, j)
    decreases j
  {
    if i < j {
      UpToGrows(ws, i, j - 1);
    }
  }

  /** The stretches do not overlap, so a point falls in one of them only, and the points of the unit
    * interval that the walk takes to `i` are an interval as long as `i`'s share of the weight. */
  lemma HitIsShare(ws: seq<real>, i: nat, j: nat, u: real)
    requires forall k :: 0 <= k < |ws| ==> ws[k] >= 0.0
    requires i < |ws| && UpTo(ws, |ws|) > 0.0 && 0.0 <= u < 1.0
    ensures
      var total := UpTo(ws, |ws|);
      && (Hit(ws, Point(u, total), i) && Hit(ws, Point(u, total), j) ==> i == j)
      && (u > 0.0 ==> (Hit(ws, Point(u, total), i) <==> UpTo(ws, i) / total < u <= UpTo(ws, i + 1) / total))
      && UpTo(ws, i + 1) / total - UpTo(ws, i) / total == ws[i] / total
  {
    var total := UpTo(ws, |ws|);
    assert UpTo(ws, 0) == 0.0;
    hide UpTo, Point;
    if i < j {
      UpToGrows(ws, i + 1, j);
    } else if j < i {
      UpToGrows(ws, j + 1, i);
    }
    Scale(UpTo(ws, i), u, total);
    Scale(UpTo(ws, i + 1), u, total);
    Stretch(ws, i);
    DivideMinus(UpTo(ws, i + 1), UpTo(ws, i), total);
  }

  lemma Stretch(ws: seq<real>, i: nat)
    requires i < |ws|
    ensures UpTo(ws, i + 1) - UpTo(ws, i) == ws[i]
  {
  }

  lemma Scale(x: real, u: real, total: real)
    requires total > 0.0 && 0.0 <= u < 1.0
    ensures x / total < u <==> x < Point(u, total)
    ensures u <= x / total <==> Point(u, total) <= x
    ensures x == 0.0 ==> x / total == 0.0
  {
    var y := x / total;
    assert x == y * total;
    if y < u {
      assert y * total < u * total;
    } else {
      assert u * total <= y * total;
    }
  }

  lemma DivideMinus(x: real, y: real, total: real)
    requires total > 0.0
    ensures x / total - y / total == (x - y) / total
  {
  }

  // ---------------------------------------------------------------- plain sampling

  /** Draw from the candidates, `u` being the next number from the generator. */
  method Sample(c: seq<Candidate>, u: real) returns (t: Token)
    requires Listed(c) && 0.0 <= u < 1.0
    ensures Total(c) <= 0.0 ==> t == c[0].token
    ensures Total(c) > 0.0 ==> exists i: nat :: i < |c| && Hit(WeightsOf(c), Point(u, Total(c)), i) && t == c[i].token
  {
    var total := Total(c);
    if total <= 0.0 {
      return c[0].token;
    }
    var i := Walk(WeightsOf(c), Point(u, total));
    return c[i.value].token;
  }

  /** The chance that a plain draw is `t`. */
  function Chance(c: seq<Candidate>, t: Token): real
    requires c != []
  {
    if Total(c) > 0.0 then Share(c, t) else if t == c[0].token then 1.0 else 0.0
  }

  // ---------------------------------------------------------------- checking a guess

  /** How sure the guesser was: a lookup is certain of its guess. */
  function Sureness(drafted: Token, q: Option<seq<Candidate>>): real
    requires q.Some? ==> Total(q.value) > 0.0
  {
    if q.None? then 1.0 else Share(q.value, drafted)
  }

  function Least(x: real, y: real): real { if x <= y then x else y }

  function Most(x: real, y: real): real { if x <= y then y else x }

  /** The chance that the guess is kept. */
  function Keep(c: seq<Candidate>, drafted: Token, q: Option<seq<Candidate>>): real
    requires Total(c) > 0.0 && (q.Some? ==> Total(q.value) > 0.0)
  {
    var sure := Sureness(drafted, q);
    if sure > 0.0 then Least(Share(c, drafted) / sure, 1.0) else 0.0
  }

  /** What is left of a candidate's weight once the guesser's part is taken out. */
  function Leftover(c: seq<Candidate>, drafted: Token, q: Option<seq<Candidate>>, t: Token, weight: real): real
    requires q.Some? ==> Total(q.value) > 0.0
  {
    match q
    case None => if t == drafted then 0.0 else weight
    case Some(q) => Most(weight - Share(q, t) * Total(c), 0.0)
  }

  function Leftovers(c: seq<Candidate>, drafted: Token, q: Option<seq<Candidate>>): (ws: seq<real>)
    requires q.Some? ==> Total(q.value) > 0.0
    ensures |ws| == |c|
  {
    seq(|c|, i requires 0 <= i < |c| => Leftover(c, drafted, q, c[i].token, c[i].weight))
  }

  function Residual(c: seq<Candidate>, drafted: Token, q: Option<seq<Candidate>>): real
    requires q.Some? ==> Total(q.value) > 0.0
  {
    UpTo(Leftovers(c, drafted, q), |c|)
  }

  /** `verify_against`, `u` and `v` being the next two numbers from the generator. */
  method VerifyAgainst(c: seq<Candidate>, drafted: Token, q: Option<seq<Candidate>>, u: real, v: real)
    returns (kept: bool, t: Token)
    requires Listed(c) && (q.Some? ==> Listed(q.value)) && 0.0 <= u < 1.0 && 0.0 <= v < 1.0
    ensures Total(c) <= 0.0 || (q.Some? && Total(q.value) <= 0.0) ==> !kept && t == c[0].token
    ensures Total(c) > 0.0 && (q.Some? ==> Total(q.value) > 0.0) ==>
      var ws := Leftovers(c, drafted, q);
      if u < Keep(c, drafted, q) || Residual(c, drafted, q) <= 0.0 then kept && t == drafted
      else !kept && exists i: nat :: i < |c| && Hit(ws, Point(v, Residual(c, drafted, q)), i) && t == c[i].token
  {
    var total := Total(c);
    if total <= 0.0 {
      return false, c[0].token;
    }
    if q.Some? && Total(q.value) <= 0.0 {
      return false, c[0].token;
    }
    var sure := Sureness(drafted, q);
    if sure > 0.0 && u < Least(Share(c, drafted) / sure, 1.0) {
      return true, drafted;
    }
    assert !(u < Keep(c, drafted, q));
    var ws := Leftovers(c, drafted, q);
    var residual := UpTo(ws, |ws|);
    if residual <= 0.0 {
      return true, drafted;
    }
    var i := Walk(ws, Point(v, residual));
    return false, c[i.value].token;
  }

  // ---------------------------------------------------------------- one token is exact

  function If(b: bool, x: real): real { if b then x else 0.0 }

  /** The chance that the verdict on `drafted` keeps it and it is `t`. */
  function KeptPart(c: seq<Candidate>, drafted: Token, q: Option<seq<Candidate>>, t: Token): real
    requires q.Some? ==> Total(q.value) > 0.0
  {
    if Total(c) <= 0.0 then 0.0
    else if Residual(c, drafted, q) <= 0.0 then If(t == drafted, 1.0)
    else If(t == drafted, Keep(c, drafted, q))
  }

  /** The chance that the verdict on `drafted` rejects it and draws `t` instead. */
  function DrawnPart(c: seq<Candidate>, drafted: Token, q: Option<seq<Candidate>>, t: Token): real
    requires c != [] && (q.Some? ==> Total(q.value) > 0.0)
  {
    if Total(c) <= 0.0 then If(t == c[0].token, 1.0)
    else if Residual(c, drafted, q) <= 0.0 then 0.0
    else (1.0 - Keep(c, drafted, q)) * (At(Leftovers(c, drafted, q), Find(c, t)) / Residual(c, drafted, q))
  }

  lemma {:induction false} OneAtMostAll(ws: seq<real>, at: int)
    requires forall k :: 0 <= k < |ws| ==> ws[k] >= 0.0
    ensures 0.0 <= At(ws, at) <= UpTo(ws, |ws|)
  {
    SumOnly(|ws|, i => if i == at then At(ws, i) else 0.0, at);
    SumAtMost(|ws|, i => if i == at then At(ws, i) else 0.0, Ats(ws));
    SumTimes(|ws|, Ats(ws), 0.0, i => 0.0);
    SumAtMost(|ws|, i => 0.0, Ats(ws));
  }

  /** Striking the guess out leaves the rest of the weight. */
  lemma LookupResidual(c: seq<Candidate>, drafted: Token)
    requires Listed(c)
    ensures Residual(c, drafted, None) == Total(c) - Mass(c, drafted)
    ensures forall t :: t != drafted ==> At(Leftovers(c, drafted, None), Find(c, t)) == Mass(c, t)
    ensures At(Leftovers(c, drafted, None), Find(c, drafted)) == 0.0
  {
    var ws, at := Leftovers(c, drafted, None), Find(c, drafted);
    var struck: int -> real := i => if i == at then At(WeightsOf(c), i) else 0.0;
    forall i: nat | i < |c| ensures At(WeightsOf(c), i) == At(ws, i) + struck(i) {
      FindAt(c, i);
    }
    SumPlus(|c|, Ats(ws), struck, Ats(WeightsOf(c)));
    SumOnly(|c|, struck, at);
  }

  /** A guess made with certainty: whatever it was, `t` comes out with its own chance. */
  lemma LookupExact(c: seq<Candidate>, drafted: Token, t: Token)
    requires Listed(c)
    ensures KeptPart(c, drafted, None, t) + DrawnPart(c, drafted, None, t) == Chance(c, t)
  {
    var total := Total(c);
    if total > 0.0 {
      LookupResidual(c, drafted);
      ShareBounds(c, drafted);
      var m, ws := Mass(c, drafted), Leftovers(c, drafted, None);
      OneAtMostAll(ws, Find(c, t));
      hide Leftovers, Residual, Total, Mass, Listed, Find, At;
      if total - m <= 0.0 {
        AllOrNothing(m, Mass(c, t), total);
      } else if t != drafted {
        Cancel(m, Mass(c, t), total);
      }
    }
  }

  lemma AllOrNothing(m: real, x: real, total: real)
    requires total > 0.0 && m / total <= 1.0 && total - m <= 0.0
    ensures m / total == 1.0 && (x == 0.0 ==> x / total == 0.0)
  {
    assert m >= total;
    assert (m / total) * total == m;
  }

  lemma Cancel(m: real, x: real, total: real)
    requires total > 0.0 && total - m > 0.0
    ensures (1.0 - m / total) * (x / (total - m)) == x / total
  {
    var r := total - m;
    Divide(total, total);
    DivideMinus(total, m, total);
    var a, b := r / total, x / r;
    assert a * total == r && b * r == x;
    assert (a * b) * total == x;
  }

  // ---------------------------------------------------------------- a guess drawn from a model

  /** What guesser and target agree on, counted over the guesser's candidates. */
  function Common(q: seq<Candidate>, c: seq<Candidate>): int -> real
    requires Total(c) > 0.0 && Total(q) > 0.0
  {
    i => if 0 <= i < |q| then Least(ShareAt(q, i), Share(c, q[i].token)) else 0.0
  }

  function Cell(q: seq<Candidate>, c: seq<Candidate>): (int, int) -> real
    requires Total(c) > 0.0 && Total(q) > 0.0
  {
    (i, k) =>
      if 0 <= i < |q| && 0 <= k < |c| && q[i].token == c[k].token then Least(ShareAt(q, i), ShareAt(c, k)) else 0.0
  }

  /** Counted over either's candidates, the agreement is the same. */
  lemma CommonIsMutual(q: seq<Candidate>, c: seq<Candidate>)
    requires Listed(c) && Listed(q) && Total(c) > 0.0 && Total(q) > 0.0
    ensures Sum(|q|, Common(q, c)) == Sum(|c|, Common(c, q))
  {
    forall i: nat | i < |q| ensures Common(q, c)(i) == Row(Cell(q, c), i, |c|) {
      CommonRow(q, c, i);
    }
    forall k: nat | k < |c| ensures Common(c, q)(k) == Column(Cell(q, c), k, |q|) {
      CommonColumn(q, c, k);
    }
    hide Common, Cell;
    SumSwap(|q|, |c|, Cell(q, c), Common(q, c), Common(c, q));
  }

  lemma CommonRow(q: seq<Candidate>, c: seq<Candidate>, i: nat)
    requires Listed(c) && Listed(q) && Total(c) > 0.0 && Total(q) > 0.0 && i < |q|
    ensures Common(q, c)(i) == Row(Cell(q, c), i, |c|)
  {
    var at := Find(c, q[i].token);
    forall k: nat | k < |c| && k != at ensures Cell(q, c)(i, k) == 0.0 {
      FindAt(c, k);
    }
    RowOnly(Cell(q, c), i, |c|, at);
    ShareIs(q, i);
    if at >= 0 {
      ShareIs(c, at);
    } else {
      NoShare(c, q[i].token);
    }
  }

  lemma CommonColumn(q: seq<Candidate>, c: seq<Candidate>, k: nat)
    requires Listed(c) && Listed(q) && Total(c) > 0.0 && Total(q) > 0.0 && k < |c|
    ensures Common(c, q)(k) == Column(Cell(q, c), k, |q|)
  {
    var at := Find(q, c[k].token);
    forall i: nat | i < |q| && i != at ensures Cell(q, c)(i, k) == 0.0 {
      FindAt(q, i);
    }
    ColumnOnly(Cell(q, c), k, |q|, at);
    ShareIs(c, k);
    if at >= 0 {
      ShareIs(q, at);
    } else {
      NoShare(q, c[k].token);
    }
  }

  lemma NoShare(c: seq<Candidate>, t: Token)
    requires Total(c) > 0.0 && Find(c, t) < 0
    ensures Share(c, t) == 0.0
  {
  }

  function Agreement(q: seq<Candidate>, c: seq<Candidate>): real
    requires Total(c) > 0.0 && Total(q) > 0.0
  {
    Sum(|q|, Common(q, c))
  }

  /** The residual is the part of the target's weight the guesser does not cover. */
  lemma ModelResidual(c: seq<Candidate>, drafted: Token, q: seq<Candidate>)
    requires Listed(c) && Listed(q) && Total(c) > 0.0 && Total(q) > 0.0
    ensures Residual(c, drafted, Some(q)) == Total(c) * (1.0 - Agreement(q, c))
  {
    ResidualSplit(c, drafted, q);
    CoveredSum(c, q);
    Spread(Total(c), Agreement(q, c));
    hide Residual, Total, Agreement, Covered;
  }

  /** The part of the target's weight the guesser covers, candidate by candidate. */
  function Covered(c: seq<Candidate>, q: seq<Candidate>): int -> real
    requires Total(c) > 0.0 && Total(q) > 0.0
  {
    k => Total(c) * Common(c, q)(k)
  }

  lemma ResidualSplit(c: seq<Candidate>, drafted: Token, q: seq<Candidate>)
    requires Total(c) > 0.0 && Total(q) > 0.0
    ensures Total(c) == Residual(c, drafted, Some(q)) + Sum(|c|, Covered(c, q))
  {
    hide Common, At, Share, ShareAt, Find, Covered, Leftovers, WeightsOf;
    var ws := Leftovers(c, drafted, Some(q));
    forall k: nat | k < |c| ensures Ats(WeightsOf(c))(k) == Ats(ws)(k) + Covered(c, q)(k) {
      CoveredAt(c, drafted, q, k);
    }
    SumPlus(|c|, Ats(ws), Covered(c, q), Ats(WeightsOf(c)));
  }

  lemma CoveredSum(c: seq<Candidate>, q: seq<Candidate>)
    requires Listed(c) && Listed(q) && Total(c) > 0.0 && Total(q) > 0.0
    ensures Sum(|c|, Covered(c, q)) == Total(c) * Agreement(q, c)
  {
    hide Common, Total;
    SumTimes(|c|, Common(c, q), Total(c), Covered(c, q));
    CommonIsMutual(q, c);
  }

  lemma Spread(total: real, x: real)
    ensures total * (1.0 - x) == total - total * x
  {
  }

  lemma CoveredAt(c: seq<Candidate>, drafted: Token, q: seq<Candidate>, k: nat)
    requires Total(c) > 0.0 && Total(q) > 0.0 && k < |c|
    ensures At(WeightsOf(c), k) == At(Leftovers(c, drafted, Some(q)), k) + Covered(c, q)(k)
  {
    hide Total, Share;
    var w, share := c[k].weight, Share(q, c[k].token);
    LeftoverIs(w, share, Total(c));
    assert Common(c, q)(k) == Least(w / Total(c), share);
    assert At(Leftovers(c, drafted, Some(q)), k) == Most(w - share * Total(c), 0.0);
  }

  lemma LeftoverIs(w: real, q: real, total: real)
    requires total > 0.0
    ensures w == Most(w - q * total, 0.0) + total * Least(w / total, q)
  {
    var p := w / total;
    assert w == p * total;
    if p <= q {
      assert p * total <= q * total;
    } else {
      assert q * total < p * total;
    }
  }

  /** Each guess's chance times the chance that it is kept is what both sides agree on there. */
  lemma KeepIsCommon(c: seq<Candidate>, q: seq<Candidate>, i: nat)
    requires Listed(c) && Listed(q) && Total(c) > 0.0 && Total(q) > 0.0 && i < |q|
    ensures ShareAt(q, i) * Keep(c, q[i].token, Some(q)) == Common(q, c)(i)
  {
    ShareIs(q, i);
    ShareBounds(c, q[i].token);
    hide Share, ShareAt;
    LeastTimes(ShareAt(q, i), Share(c, q[i].token));
  }

  lemma LeastTimes(q: real, p: real)
    requires q >= 0.0 && p >= 0.0
    ensures q > 0.0 ==> q * Least(p / q, 1.0) == Least(q, p)
    ensures q == 0.0 ==> Least(q, p) == 0.0
  {
    if q > 0.0 {
      assert q * (p / q) == p;
      if p / q <= 1.0 {
        assert q * (p / q) <= q * 1.0;
      } else {
        assert q * 1.0 < q * (p / q);
      }
    }
  }

  /** The chance that `t` comes out when the guess is drawn from `q`, the kept part. */
  function KeptOf(c: seq<Candidate>, q: seq<Candidate>, t: Token): int -> real
    requires Total(q) > 0.0
  {
    i => if 0 <= i < |q| then ShareAt(q, i) * KeptPart(c, q[i].token, Some(q), t) else 0.0
  }

  function DrawnOf(c: seq<Candidate>, q: seq<Candidate>, t: Token): int -> real
    requires c != [] && Total(q) > 0.0
  {
    i => if 0 <= i < |q| then ShareAt(q, i) * DrawnPart(c, q[i].token, Some(q), t) else 0.0
  }

  /** Nothing left over means guesser and target agree on everything. */
  lemma FullAgreement(c: seq<Candidate>, q: seq<Candidate>, t: Token)
    requires Listed(c) && Listed(q) && Total(c) > 0.0 && Total(q) > 0.0 && Agreement(q, c) >= 1.0
    ensures Share(q, t) == Share(c, t)
  {
    CommonIsMutual(q, c);
    NoMoreThan(c, q, t);
    NoMoreThan(q, c, t);
  }

  lemma NoMoreThan(c: seq<Candidate>, q: seq<Candidate>, t: Token)
    requires Listed(c) && Listed(q) && Total(c) > 0.0 && Total(q) > 0.0 && Sum(|c|, Common(c, q)) >= 1.0
    ensures Share(c, t) <= Share(q, t)
  {
    var k := Find(c, t);
    if k >= 0 {
      SharesSum(c);
      ShareIs(c, k);
      hide Share, ShareAt, Total;
      NoSlack(|c|, Common(c, q), Shares(c), k);
    } else {
      NoShare(c, t);
      ShareBounds(q, t);
    }
  }

  lemma SpreadKept(c: seq<Candidate>, q: seq<Candidate>, t: Token)
    requires Listed(c) && Listed(q) && Total(c) > 0.0 && Total(q) > 0.0
    ensures Agreement(q, c) < 1.0 ==> Sum(|q|, KeptOf(c, q, t)) == Least(Share(q, t), Share(c, t))
    ensures Agreement(q, c) >= 1.0 ==> Sum(|q|, KeptOf(c, q, t)) == Share(q, t)
  {
    var at := Find(q, t);
    forall i: nat | i < |q|
      ensures i != at ==> KeptOf(c, q, t)(i) == 0.0
      ensures Agreement(q, c) < 1.0 && i == at ==> KeptOf(c, q, t)(i) == Common(q, c)(i)
      ensures Agreement(q, c) >= 1.0 && i == at ==> KeptOf(c, q, t)(i) == ShareAt(q, i)
    {
      KeptTerm(c, q, t, i);
    }
    hide KeptOf, Common;
    SumOnly(|q|, KeptOf(c, q, t), at);
    ShareBounds(c, t);
    if at >= 0 {
      ShareIs(q, at);
      CommonIs(c, q, at);
    } else {
      NoShare(q, t);
    }
  }

  lemma CommonIs(c: seq<Candidate>, q: seq<Candidate>, i: nat)
    requires Total(c) > 0.0 && Total(q) > 0.0 && i < |q|
    ensures Common(q, c)(i) == Least(ShareAt(q, i), Share(c, q[i].token))
  {
  }

  lemma KeptTerm(c: seq<Candidate>, q: seq<Candidate>, t: Token, i: nat)
    requires Listed(c) && Listed(q) && Total(c) > 0.0 && Total(q) > 0.0 && i < |q|
    ensures i != Find(q, t) ==> KeptOf(c, q, t)(i) == 0.0
    ensures Agreement(q, c) < 1.0 && i == Find(q, t) ==> KeptOf(c, q, t)(i) == Common(q, c)(i)
    ensures Agreement(q, c) >= 1.0 && i == Find(q, t) ==> KeptOf(c, q, t)(i) == ShareAt(q, i)
  {
    hide Agreement, Common, Keep, ShareAt, Total, KeptPart, Find;
    FindAt(q, i);
    KeptPartIs(c, q[i].token, q, t);
    KeepIsCommon(c, q, i);
  }

  lemma KeptPartIs(c: seq<Candidate>, drafted: Token, q: seq<Candidate>, t: Token)
    requires Listed(c) && Listed(q) && Total(c) > 0.0 && Total(q) > 0.0
    ensures Residual(c, drafted, Some(q)) <= 0.0 <==> Agreement(q, c) >= 1.0
    ensures KeptPart(c, drafted, Some(q), t) ==
      if t != drafted then 0.0 else if Agreement(q, c) >= 1.0 then 1.0 else Keep(c, drafted, Some(q))
  {
    hide Agreement, Keep, Total, Residual;
    ModelResidual(c, drafted, q);
    Signs(Total(c), Agreement(q, c));
  }

  lemma Signs(total: real, a: real)
    requires total > 0.0
    ensures total * (1.0 - a) <= 0.0 <==> a >= 1.0
  {
    if a < 1.0 {
      assert total * (1.0 - a) > 0.0;
    } else {
      assert total * (a - 1.0) >= 0.0;
    }
  }

  /** The weight `t` keeps in the residual; it does not depend on which token was guessed. */
  function Left(c: seq<Candidate>, q: seq<Candidate>, t: Token): real
    requires Total(q) > 0.0
  {
    At(Leftovers(c, 0, Some(q)), Find(c, t))
  }

  lemma LeftIs(c: seq<Candidate>, drafted: Token, q: seq<Candidate>, t: Token)
    requires Listed(c) && Listed(q) && Total(c) > 0.0 && Total(q) > 0.0
    ensures At(Leftovers(c, drafted, Some(q)), Find(c, t)) == Left(c, q, t)
    ensures Left(c, q, t) == Excess(Total(c), Share(c, t), Share(q, t))
  {
    hide Excess, Leftovers, Total, Share, ShareAt;
    var k := Find(c, t);
    if k >= 0 {
      LeftAt(c, drafted, q, k);
      LeftAt(c, 0, q, k);
      ShareIs(c, k);
    } else {
      NoShare(c, t);
      ShareBounds(q, t);
      NoExcess(Total(c), Share(q, t));
    }
  }

  /** The weight by which the target's share `p` exceeds the guesser's. */
  function Excess(total: real, p: real, q: real): real { total * (p - Least(q, p)) }

  lemma NoExcess(total: real, q: real)
    requires q >= 0.0
    ensures Excess(total, 0.0, q) == 0.0
  {
  }

  lemma LeftAt(c: seq<Candidate>, drafted: Token, q: seq<Candidate>, k: nat)
    requires Total(c) > 0.0 && Total(q) > 0.0 && k < |c|
    ensures At(Leftovers(c, drafted, Some(q)), k) == Excess(Total(c), ShareAt(c, k), Share(q, c[k].token))
  {
    hide Leftovers, Total, Share, Find;
    CoveredAt(c, drafted, q, k);
    Unscale(At(WeightsOf(c), k), Total(c), Common(c, q)(k));
  }

  lemma Unscale(w: real, total: real, x: real)
    requires total > 0.0
    ensures w - total * x == total * (w / total - x)
  {
    assert total * (w / total) == w;
  }

  lemma DrawnPartIs(c: seq<Candidate>, drafted: Token, q: seq<Candidate>, t: Token)
    requires Listed(c) && Listed(q) && Total(c) > 0.0 && Total(q) > 0.0
    ensures Agreement(q, c) >= 1.0 ==> DrawnPart(c, drafted, Some(q), t) == 0.0
    ensures Agreement(q, c) < 1.0 ==>
      && Total(c) * (1.0 - Agreement(q, c)) > 0.0
      && DrawnPart(c, drafted, Some(q), t) ==
          (1.0 - Keep(c, drafted, Some(q))) * (Left(c, q, t) / (Total(c) * (1.0 - Agreement(q, c))))
  {
    hide Agreement, Keep, Total, Residual, Left, Leftovers;
    ModelResidual(c, drafted, q);
    Signs(Total(c), Agreement(q, c));
    LeftIs(c, drafted, q, t);
  }

  lemma SpreadDrawn(c: seq<Candidate>, q: seq<Candidate>, t: Token)
    requires Listed(c) && Listed(q) && Total(c) > 0.0 && Total(q) > 0.0
    ensures Agreement(q, c) >= 1.0 ==> Sum(|q|, DrawnOf(c, q, t)) == 0.0
    ensures Agreement(q, c) < 1.0 ==> Sum(|q|, DrawnOf(c, q, t)) == Share(c, t) - Least(Share(q, t), Share(c, t))
  {
    hide Left, Agreement, Total, Share, ShareAt, Rejected, DrawnOf, Per, Least;
    if Agreement(q, c) >= 1.0 {
      forall i: nat | i < |q| ensures DrawnOf(c, q, t)(i) == 0.0 {
        DrawnTerm(c, q, t, i);
      }
      SumOnly(|q|, DrawnOf(c, q, t), -1);
    } else {
      forall i: nat | i < |q| ensures DrawnOf(c, q, t)(i) == Per(c, q, t) * Rejected(c, q)(i) {
        DrawnTerm(c, q, t, i);
      }
      SumTimes(|q|, Rejected(c, q), Per(c, q, t), DrawnOf(c, q, t));
      RejectedSum(c, q);
      PerAll(c, q, t);
    }
  }

  lemma PerAll(c: seq<Candidate>, q: seq<Candidate>, t: Token)
    requires Listed(c) && Listed(q) && Total(c) > 0.0 && Total(q) > 0.0 && Agreement(q, c) < 1.0
    ensures Per(c, q, t) * (1.0 - Agreement(q, c)) == Share(c, t) - Least(Share(q, t), Share(c, t))
  {
    hide Left, Agreement, Total, Share, Least;
    LeftIs(c, 0, q, t);
    Signs(Total(c), Agreement(q, c));
    Cancels(Total(c), 1.0 - Agreement(q, c), Share(c, t) - Least(Share(q, t), Share(c, t)));
  }

  /** What `t` gets of each unit of rejected chance. */
  function Per(c: seq<Candidate>, q: seq<Candidate>, t: Token): real
    requires Total(c) > 0.0 && Total(q) > 0.0 && Agreement(q, c) < 1.0
  {
    Signs(Total(c), Agreement(q, c));
    Left(c, q, t) / (Total(c) * (1.0 - Agreement(q, c)))
  }

  lemma DrawnTerm(c: seq<Candidate>, q: seq<Candidate>, t: Token, i: nat)
    requires Listed(c) && Listed(q) && Total(c) > 0.0 && Total(q) > 0.0 && i < |q|
    ensures Agreement(q, c) >= 1.0 ==> DrawnOf(c, q, t)(i) == 0.0
    ensures Agreement(q, c) < 1.0 ==> DrawnOf(c, q, t)(i) == Per(c, q, t) * Rejected(c, q)(i)
  {
    hide Left, Agreement, Total, Keep, ShareAt, Common, DrawnPart;
    DrawnPartIs(c, q[i].token, q, t);
    if Agreement(q, c) < 1.0 {
      KeepIsCommon(c, q, i);
      Regroup(ShareAt(q, i), Keep(c, q[i].token, Some(q)), Per(c, q, t));
    }
  }

  /** The chance that the guess is candidate `i` and is rejected. */
  function Rejected(c: seq<Candidate>, q: seq<Candidate>): int -> real
    requires Total(c) > 0.0 && Total(q) > 0.0
  {
    i => ShareAt(q, i) - Common(q, c)(i)
  }

  lemma RejectedSum(c: seq<Candidate>, q: seq<Candidate>)
    requires Listed(q) && Total(c) > 0.0 && Total(q) > 0.0
    ensures Sum(|q|, Rejected(c, q)) == 1.0 - Agreement(q, c)
  {
    SharesSum(q);
    hide Common, ShareAt;
    SumPlus(|q|, Rejected(c, q), Common(q, c), Shares(q));
  }

  lemma Regroup(s: real, keep: real, per: real)
    ensures s * ((1.0 - keep) * per) == per * (s - s * keep)
  {
    assert s * (1.0 - keep) == s - s * keep;
    assert s * ((1.0 - keep) * per) == (s * (1.0 - keep)) * per;
  }

  lemma Cancels(total: real, rest: real, x: real)
    requires total > 0.0 && rest > 0.0
    ensures total * rest > 0.0 && total * x / (total * rest) * rest == x
  {
    var y := total * x / (total * rest);
    assert y * (total * rest) == total * x;
    assert total * (y * rest) == total * x;
    assert total * (y * rest - x) == 0.0;
  }

  /** A guess drawn from `q`: over the draw and the verdict, `t` comes out with its own chance. */
  lemma ModelExact(c: seq<Candidate>, q: seq<Candidate>, t: Token)
    requires Listed(c) && Listed(q) && Total(q) > 0.0
    ensures Sum(|q|, KeptOf(c, q, t)) + Sum(|q|, DrawnOf(c, q, t)) == Chance(c, t)
  {
    if Total(c) > 0.0 {
      SpreadKept(c, q, t);
      SpreadDrawn(c, q, t);
      if Agreement(q, c) >= 1.0 {
        FullAgreement(c, q, t);
      }
    } else {
      SumOnly(|q|, KeptOf(c, q, t), -1);
      SharesSum(q);
      SumTimes(|q|, Shares(q), Chance(c, t), DrawnOf(c, q, t));
    }
  }

  // ---------------------------------------------------------------- strings

  /** What a round guesses next: nothing more, a token copied from earlier text, or a token drawn from
    * a draft model's candidates. */
  datatype Guess = NoMore | Copied(token: Token) | Drawn(q: seq<Candidate>)

  /** A point in a run: the context the round began with, the context now, and how many tokens each
    * earlier round emitted. Everything that decides how to guess is a function of these. */
  datatype Moment = Moment(began: seq<Token>, now: seq<Token>, rounds: seq<nat>)

  datatype Source = Source(target: seq<Token> -> seq<Candidate>, guess: Moment -> Guess) {
    ghost predicate Valid() {
      && (forall ctx :: Listed(target(ctx)))
      && forall m :: guess(m).Drawn? ==> Listed(guess(m).q) && Total(guess(m).q) > 0.0
    }
  }

  /** The chance that plain sampling continues `ctx` with `w`. */
  ghost function Plainly(s: Source, ctx: seq<Token>, w: seq<Token>): real
    requires s.Valid()
    decreases |w|
  {
    if w == [] then 1.0 else Chance(s.target(ctx), w[0]) * Plainly(s, ctx + [w[0]], w[1..])
  }

  /** The round goes on: its guess was kept. */
  function GoOn(m: Moment, t: Token): Moment { Moment(m.began, m.now + [t], m.rounds) }

  /** The round is over and the next begins. */
  function NextRound(m: Moment, t: Token): Moment
    requires |m.began| <= |m.now|
  {
    Moment(m.now + [t], m.now + [t], m.rounds + [|m.now| + 1 - |m.began|])
  }

  /** The chance that guessing and checking, round after round, continues `m.now` with `w`. */
  ghost function Speculatively(s: Source, m: Moment, w: seq<Token>): real
    requires s.Valid() && |m.began| <= |m.now|
    decreases |w|
  {
    if w == [] then 1.0
    else
      var c, t := s.target(m.now), w[0];
      var on, anew := Speculatively(s, GoOn(m, t), w[1..]), Speculatively(s, NextRound(m, t), w[1..]);
      match s.guess(m)
      case NoMore => Chance(c, t) * anew
      case Copied(d) => KeptPart(c, d, None, t) * on + DrawnPart(c, d, None, t) * anew
      case Drawn(q) => Sum(|q|, KeptOf(c, q, t)) * on + Sum(|q|, DrawnOf(c, q, t)) * anew
  }

  /** Whatever guesses, in whatever rounds: every finite string comes out with the probability plain
    * sampling gives it. */
  lemma {:induction false} StringsExact(s: Source, m: Moment, w: seq<Token>)
    requires s.Valid() && |m.began| <= |m.now|
    ensures Speculatively(s, m, w) == Plainly(s, m.now, w)
    decreases |w|
  {
    hide KeptPart, DrawnPart, KeptOf, DrawnOf, Chance, Listed, Total, Sum;
    if w != [] {
      var c, t := s.target(m.now), w[0];
      Never(c);
      StringsExact(s, GoOn(m, t), w[1..]);
      StringsExact(s, NextRound(m, t), w[1..]);
      var rest := Plainly(s, m.now + [t], w[1..]);
      match s.guess(m)
      case NoMore =>
      case Copied(d) =>
        LookupExact(c, d, t);
        Together(KeptPart(c, d, None, t), DrawnPart(c, d, None, t), rest);
      case Drawn(q) =>
        ModelExact(c, q, t);
        Together(Sum(|q|, KeptOf(c, q, t)), Sum(|q|, DrawnOf(c, q, t)), rest);
    }
  }

  lemma Never(c: seq<Candidate>)
    requires Listed(c)
    ensures c != []
  {
  }

  lemma Together(x: real, y: real, rest: real)
    ensures x * rest + y * rest == (x + y) * rest
  {
  }
}
