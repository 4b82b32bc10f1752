/** Finite sums of reals, and tables summed by rows and by columns. */
module Sums {
  function Sum(n: nat, f: int -> real): real {
    if n == 0 then 0.0 else Sum(n - 1, f) + f(n - 1)
  }

  lemma {:induction false} SumPlus(n: nat, f: int -> real, g: int -> real, h: int -> real)
    requires forall i :: 0 <= i < n ==> h(i) == f(i) + g(i)
    ensures Sum(n, h) == Sum(n, f) + Sum(n, g)
  {
    if n > 0 {
      SumPlus(n - 1, f, g, h);
    }
  }

  lemma {:induction false} SumTimes(n: nat, f: int -> real, k: real, h: int -> real)
    requires forall i :: 0 <= i < n ==> h(i) == k * f(i)
    ensures Sum(n, h) == k * Sum(n, f)
  {
    if n > 0 {
      SumTimes(n - 1, f, k, h);
    }
  }

  lemma {:induction false} SumAtMost(n: nat, f: int -> real, g: int -> real)
    requires forall i :: 0 <= i < n ==> f(i) <= g(i)
    ensures Sum(n, f) <= Sum(n, g)
  {
    if n > 0 {
      SumAtMost(n - 1, f, g);
    }
  }

  /** A sum with at most one term that is not zero. */
  lemma {:induction false} SumOnly(n: nat, f: int -> real, at: int)
    requires forall i :: 0 <= i < n && i != at ==> f(i) == 0.0
    ensures Sum(n, f) == if 0 <= at < n then f(at) else 0.0
  {
    if n > 0 {
      SumOnly(n - 1, f, at);
    }
  }

  function Row(f: (int, int) -> real, i: int, m: nat): real {
    if m == 0 then 0.0 else Row(f, i, m - 1) + f(i, m - 1)
  }

  function Column(f: (int, int) -> real, j: int, n: nat): real {
    if n == 0 then 0.0 else Column(f, j, n - 1) + f(n - 1, j)
  }

  /** A table's sum by rows is its sum by columns. */
  lemma {:induction false} SumSwap(n: nat, m: nat, f: (int, int) -> real, rows: int -> real, columns: int -> real)
    requires forall i :: 0 <= i < n ==> rows(i) == Row(f, i, m)
    requires forall j :: 0 <= j < m ==> columns(j) == Column(f, j, n)
    ensures Sum(n, rows) == Sum(m, columns)
  {
    if n == 0 {
      SumTimes(m, columns, 0.0, columns);
    } else {
      SumSwap(n - 1, m, f, rows, j => Column(f, j, n - 1));
      SumPlus(m, j => Column(f, j, n - 1), j => f(n - 1, j), columns);
      RowIsSum(f, n - 1, m);
    }
  }

  lemma {:induction false} RowIsSum(f: (int, int) -> real, i: int, m: nat)
    ensures Row(f, i, m) == Sum(m, j => f(i, j))
  {
    if m > 0 {
      RowIsSum(f, i, m - 1);
    }
  }

  lemma {:induction false} RowOnly(f: (int, int) -> real, i: int, m: nat, at: int)
    requires forall j :: 0 <= j < m && j != at ==> f(i, j) == 0.0
    ensures Row(f, i, m) == if 0 <= at < m then f(i, at) else 0.0
  {
    if m > 0 {
      RowOnly(f, i, m - 1, at);
    }
  }

  lemma {:induction false} ColumnOnly(f: (int, int) -> real, j: int, n: nat, at: int)
    requires forall i :: 0 <= i < n && i != at ==> f(i, j) == 0.0
    ensures Column(f, j, n) == if 0 <= at < n then f(at, j) else 0.0
  {
    if n > 0 {
      ColumnOnly(f, j, n - 1, at);
    }
  }

  /** Terms no larger whose sum is no smaller are the same terms. */
  lemma {:induction false} NoSlack(n: nat, f: int -> real, g: int -> real, at: nat)
    requires forall i :: 0 <= i < n ==> f(i) <= g(i)
    requires Sum(n, f) >= Sum(n, g) && at < n
    ensures f(at) == g(at)
  {
    SumAtMost(n - 1, f, g);
    if at < n - 1 {
      NoSlack(n - 1, f, g, at);
    }
  }
}
