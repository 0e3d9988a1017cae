/**
 * SQL aggregate semantics over nullable numeric columns, as PostgreSQL
 * evaluates them: `SUM` and `AVG` skip NULLs and are NULL when nothing is
 * left, arithmetic on a NULL is NULL, and `ORDER BY ... DESC` places NULLs
 * first.
 */
module Aggregates {
  import opened Wrappers

  /** The sum of a column of numbers. */
  function Sum(xs: seq<real>): real {
    if xs == [] then 0.0 else xs[0] + Sum(xs[1..])
  }

  /** The non-NULL values of a column, in order. */
  function Present(xs: seq<Option<real>>): (r: seq<real>)
    ensures |r| <= |xs|
    ensures r == [] <==> forall i :: 0 <= i < |xs| ==> xs[i].None?
  {
    if xs == [] then []
    else if xs[0].Some? then [xs[0].value] + Present(xs[1..])
    else
      assert forall i :: 1 <= i < |xs| ==> xs[i] == xs[1..][i - 1];
      Present(xs[1..])
  }

  /** `a + b` where either side may be NULL and NULLs are skipped, as `SUM` does. */
  function AddSkippingNull(a: Option<real>, b: Option<real>): Option<real> {
    if a.None? then b
    else if b.None? then a
    else Some(a.value + b.value)
  }

  /** `SUM(column)` */
  function SqlSum(xs: seq<Option<real>>): Option<real> {
    if xs == [] then None else AddSkippingNull(xs[0], SqlSum(xs[1..]))
  }

  /** `COUNT(column)`: the number of non-NULL values. */
  function SqlCount(xs: seq<Option<real>>): nat {
    |Present(xs)|
  }

  /** `AVG(column)` */
  function SqlAvg(xs: seq<Option<real>>): Option<real> {
    var p := Present(xs);
    if p == [] then None else Some(Sum(p) / (|p| as real))
  }

  /** `a - b`, NULL when either side is. */
  function Minus(a: Option<real>, b: Option<real>): Option<real> {
    if a.Some? && b.Some? then Some(a.value - b.value) else None
  }

  /** `c * a`, NULL when `a` is. */
  function Times(c: real, a: Option<real>): Option<real> {
    if a.Some? then Some(c * a.value) else None
  }

  /**
   * `a / b * 100`, NULL when either side is. A zero divisor, for which
   * PostgreSQL raises an error, is also NULL here.
   */
  function Percent(a: Option<real>, b: Option<real>): Option<real> {
    if a.Some? && b.Some? && b.value != 0.0 then Some(a.value / b.value * 100.0) else None
  }

  /**
   * `SUM` skips NULLs: it is NULL exactly when every value is NULL, and
   * otherwise the sum of the values that are present.
   */
  lemma {:induction false} SqlSumSkipsNulls(xs: seq<Option<real>>)
    ensures SqlSum(xs).None? <==> Present(xs) == []
    ensures SqlSum(xs).Some? ==> SqlSum(xs).value == Sum(Present(xs))
  {
    if xs != [] {
      SqlSumSkipsNulls(xs[1..]);
    }
  }

  /** `y` is `c * x`, NULL in the same places. */
  predicate Scaled(c: real, x: Option<real>, y: Option<real>) {
    x.Some? == y.Some? && (x.Some? ==> y.value == c * x.value)
  }

  lemma TimesScaled(c: real, x: Option<real>)
    ensures Scaled(c, x, Times(c, x))
  {
  }

  lemma AddScaled(c: real, x: Option<real>, y: Option<real>, a: Option<real>, b: Option<real>)
    requires Scaled(c, x, y) && Scaled(c, a, b)
    ensures Scaled(c, AddSkippingNull(x, a), AddSkippingNull(y, b))
  {
    if x.Some? && a.Some? {
      assert c * (x.value + a.value) == c * x.value + c * a.value;
    }
  }

  /** `SUM(c * column)` is `c * SUM(column)`. */
  lemma {:induction false} SqlSumTimes(c: real, xs: seq<Option<real>>, ys: seq<Option<real>>)
    requires |xs| == |ys|
    requires forall i :: 0 <= i < |xs| ==> Scaled(c, xs[i], ys[i])
    ensures Scaled(c, SqlSum(xs), SqlSum(ys))
  {
    if xs != [] {
      assert forall i :: 0 <= i < |xs| - 1 ==> Scaled(c, xs[1..][i], ys[1..][i]);
      SqlSumTimes(c, xs[1..], ys[1..]);
      assert Scaled(c, xs[0], ys[0]);
      AddScaled(c, xs[0], ys[0], SqlSum(xs[1..]), SqlSum(ys[1..]));
    }
  }

  /** `SUM` of two columns with NULLs in the same places is NULL for both or for neither. */
  lemma {:induction false} SqlSumNullsTogether(xs: seq<Option<real>>, ys: seq<Option<real>>)
    requires |xs| == |ys|
    requires forall i :: 0 <= i < |xs| ==> xs[i].Some? == ys[i].Some?
    ensures SqlSum(xs).Some? == SqlSum(ys).Some?
  {
    if xs != [] {
      assert forall i :: 0 <= i < |xs| - 1 ==> xs[1..][i].Some? == ys[1..][i].Some?;
      SqlSumNullsTogether(xs[1..], ys[1..]);
      assert xs[0].Some? == ys[0].Some?;
    }
  }

  /** `ys` lies between `lo` times and once `xs`, NULL in the same places. */
  predicate Between(lo: real, x: Option<real>, y: Option<real>) {
    x.Some? == y.Some? && (x.Some? ==> lo * x.value <= y.value <= x.value)
  }

  lemma AddBetween(lo: real, x: Option<real>, y: Option<real>, a: Option<real>, b: Option<real>)
    requires Between(lo, x, y) && Between(lo, a, b)
    ensures Between(lo, AddSkippingNull(x, a), AddSkippingNull(y, b))
  {
    if x.Some? && a.Some? {
      assert lo * (x.value + a.value) == lo * x.value + lo * a.value;
    }
  }

  /** If each value of `ys` lies between `lo` times and once the matching value of `xs`, so does their sum. */
  lemma {:induction false} SqlSumBetween(lo: real, xs: seq<Option<real>>, ys: seq<Option<real>>)
    requires |xs| == |ys|
    requires forall i :: 0 <= i < |xs| ==> Between(lo, xs[i], ys[i])
    ensures Between(lo, SqlSum(xs), SqlSum(ys))
  {
    if xs != [] {
      assert forall i :: 0 <= i < |xs| - 1 ==> Between(lo, xs[1..][i], ys[1..][i]);
      SqlSumBetween(lo, xs[1..], ys[1..]);
      assert Between(lo, xs[0], ys[0]);
      AddBetween(lo, xs[0], ys[0], SqlSum(xs[1..]), SqlSum(ys[1..]));
    }
  }

  /** `ORDER BY v DESC` in PostgreSQL: NULLs first, then larger values first. */
  predicate DescNullsFirst(a: Option<real>, b: Option<real>) {
    a.None? || (b.Some? && a.value >= b.value)
  }

  /** `ORDER BY v DESC NULLS LAST`: larger values first, NULLs last. */
  predicate DescNullsLast(a: Option<real>, b: Option<real>) {
    b.None? || (a.Some? && a.value >= b.value)
  }

  lemma DescOrders(a: Option<real>, b: Option<real>, c: Option<real>)
    ensures DescNullsFirst(a, b) || DescNullsFirst(b, a)
    ensures DescNullsFirst(a, b) && DescNullsFirst(b, c) ==> DescNullsFirst(a, c)
    ensures DescNullsLast(a, b) || DescNullsLast(b, a)
    ensures DescNullsLast(a, b) && DescNullsLast(b, c) ==> DescNullsLast(a, c)
  {
  }
}
