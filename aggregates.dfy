/** Column reducers: sums, guarded means and ratios, minimum and maximum of a
    date column, and the unguarded division pandas performs column-wise. */
module Aggregates {
  import opened Common

  /** `df[col].sum()`; 0 on an empty table. */
  function Sum<T>(rows: seq<T>, col: T -> real): real
  {
    if rows == [] then 0.0 else col(rows[0]) + Sum(rows[1..], col)
  }

  lemma {:induction false} SumAppend<T>(a: seq<T>, b: seq<T>, col: T -> real)
    ensures Sum(a + b, col) == Sum(a, col) + Sum(b, col)
  {
    if a != [] {
      assert (a + b)[0] == a[0] && (a + b)[1..] == a[1..] + b;
      SumAppend(a[1..], b, col);
    } else {
      assert a + b == b;
    }
  }

  /** A sum does not depend on the order of the rows: any reordering of a
      table (a sort, a regrouping) keeps its column totals. */
  lemma {:induction false} SumPermutation<T>(a: seq<T>, b: seq<T>, col: T -> real)
    requires multiset(a) == multiset(b)
    ensures Sum(a, col) == Sum(b, col)
    decreases |a|
  {
    if a == [] {
      assert |b| == |multiset(b)| == 0;
    } else {
      var x := a[0];
      assert x in multiset(b);
      var i :| 0 <= i < |b| && b[i] == x;
      var rest := b[..i] + b[i + 1..];
      RemoveAt(b, i);
      assert a == [x] + a[1..];
      assert multiset(a[1..]) == multiset(a) - multiset{x};
      SumPermutation(a[1..], rest, col);
      SumRemoveAt(b, i, col);
    }
  }

  /** Taking the row at `i` out of a table leaves the other rows. */
  lemma RemoveAt<T>(b: seq<T>, i: nat)
    requires i < |b|
    ensures multiset(b[..i] + b[i + 1..]) == multiset(b) - multiset{b[i]}
  {
    assert b == b[..i] + [b[i]] + b[i + 1..];
  }

  /** The row at `i` contributes its value once to the sum. */
  lemma SumRemoveAt<T>(b: seq<T>, i: nat, col: T -> real)
    requires i < |b|
    ensures Sum(b, col) == col(b[i]) + Sum(b[..i] + b[i + 1..], col)
  {
    assert b == b[..i] + [b[i]] + b[i + 1..];
    SumAppend(b[..i], b[i + 1..], col);
    SumAppend(b[..i] + [b[i]], b[i + 1..], col);
    SumAppend(b[..i], [b[i]], col);
  }

  /** A pointwise larger column has a larger sum. */
  lemma {:induction false} SumMonotone<T>(rows: seq<T>, small: T -> real, large: T -> real)
    requires forall x :: x in rows ==> small(x) <= large(x)
    ensures Sum(rows, small) <= Sum(rows, large)
  {
    if rows != [] {
      assert forall x :: x in rows[1..] ==> x in rows;
      SumMonotone(rows[1..], small, large);
    }
  }

  /** `(m + 1) * k == m * k + k`, the one step of arithmetic the bounds below need. */
  lemma CountStep(m: real, k: real)
    ensures (m + 1.0) * k == m * k + k
  {
  }

  /** Every value at least `lo` puts the sum at or above `n * lo`. */
  lemma {:induction false} SumAtLeast<T>(rows: seq<T>, col: T -> real, lo: real)
    requires forall x :: x in rows ==> lo <= col(x)
    ensures (|rows| as real) * lo <= Sum(rows, col)
  {
    if rows != [] {
      assert forall x :: x in rows[1..] ==> x in rows;
      SumAtLeast(rows[1..], col, lo);
      CountStep(|rows[1..]| as real, lo);
    }
  }

  /** Every value at most `hi` puts the sum at or below `n * hi`. */
  lemma {:induction false} SumAtMost<T>(rows: seq<T>, col: T -> real, hi: real)
    requires forall x :: x in rows ==> col(x) <= hi
    ensures Sum(rows, col) <= (|rows| as real) * hi
  {
    if rows != [] {
      assert forall x :: x in rows[1..] ==> x in rows;
      SumAtMost(rows[1..], col, hi);
      CountStep(|rows[1..]| as real, hi);
    }
  }

  /** Every value strictly below `hi` puts a non-empty sum strictly below `n * hi`. */
  lemma {:induction false} SumStrictlyBelow<T>(rows: seq<T>, col: T -> real, hi: real)
    requires |rows| > 0
    requires forall x :: x in rows ==> col(x) < hi
    ensures Sum(rows, col) < (|rows| as real) * hi
  {
    assert forall x :: x in rows[1..] ==> x in rows;
    if |rows| > 1 {
      SumStrictlyBelow(rows[1..], col, hi);
    }
    CountStep(|rows[1..]| as real, hi);
  }

  /** `df[col].mean() if len(df) > 0 else 0`. */
  function MeanOrZero<T>(rows: seq<T>, col: T -> real): (m: real)
    ensures |rows| == 0 ==> m == 0.0
    ensures |rows| > 0 ==> m * (|rows| as real) == Sum(rows, col)
  {
    if |rows| > 0 then Sum(rows, col) / (|rows| as real) else 0.0
  }

  /** A mean of values all at least `lo` is at least `lo`. */
  lemma MeanAtLeast<T>(rows: seq<T>, col: T -> real, lo: real)
    requires |rows| > 0
    requires forall x :: x in rows ==> lo <= col(x)
    ensures lo <= MeanOrZero(rows, col)
  {
    SumAtLeast(rows, col, lo);
    var n, m := |rows| as real, MeanOrZero(rows, col);
    if m < lo {
      assert (lo - m) * n > 0.0;
    }
  }

  /** A mean of values all strictly below `hi` is strictly below `hi`. */
  lemma MeanBelow<T>(rows: seq<T>, col: T -> real, hi: real)
    requires |rows| > 0
    requires forall x :: x in rows ==> col(x) < hi
    ensures MeanOrZero(rows, col) < hi
  {
    SumStrictlyBelow(rows, col, hi);
  }

  /** A mean lies between the smallest and the largest value averaged. */
  lemma MeanWithinBounds<T>(rows: seq<T>, col: T -> real, lo: real, hi: real)
    requires |rows| > 0
    requires forall x :: x in rows ==> lo <= col(x) <= hi
    ensures lo <= MeanOrZero(rows, col) <= hi
  {
    SumAtLeast(rows, col, lo);
    SumAtMost(rows, col, hi);
    var n := |rows| as real;
    var m := MeanOrZero(rows, col);
    assert m * n == Sum(rows, col);
    assert n * lo <= m * n <= n * hi;
  }

  /** `num / den if den > 0 else 0`: the quotient, or 0 when there is nothing
      (or less than nothing) to divide by. */
  function SafeRatio(num: real, den: real): (q: real)
    ensures den <= 0.0 ==> q == 0.0
    ensures den > 0.0 ==> q * den == num
  {
    if den > 0.0 then num / den else 0.0
  }

  /** `(part / whole * 100) if whole > 0 else 0`. */
  function Percent(part: real, whole: real): (q: real)
    ensures whole <= 0.0 ==> q == 0.0
    ensures whole > 0.0 ==> q * whole == 100.0 * part
  {
    if whole > 0.0 then part / whole * 100.0 else 0.0
  }

  /** A part of a positive whole is between 0 and 100 percent of it. */
  lemma PercentBounded(part: real, whole: real)
    requires 0.0 <= part <= whole
    ensures 0.0 <= Percent(part, whole) <= 100.0
  {
    if whole > 0.0 {
      var q := Percent(part, whole);
      assert q * whole == 100.0 * part;
    }
  }

  /** `df[col].min()` of a date column: NaT cells are skipped, and a column
      with no valid date has no minimum. */
  function Earliest<T(!new)>(rows: seq<T>, day: T -> Option<Day>): (d: Option<Day>)
    ensures d.None? <==> forall x :: x in rows ==> day(x).None?
    ensures d.Some? ==> exists x :: x in rows && day(x) == d
    ensures d.Some? ==> forall x :: x in rows && day(x).Some? ==> d.value <= day(x).value
  {
    if rows == [] then None
    else
      var rest := Earliest(rows[1..], day);
      assert forall x :: x in rows <==> x == rows[0] || x in rows[1..];
      match day(rows[0])
      case None => rest
      case Some(a) =>
        if rest.Some? && rest.value < a then rest else Some(a)
  }

  /** `df[col].max()` of a date column, skipping NaT cells. */
  function Latest<T(!new)>(rows: seq<T>, day: T -> Option<Day>): (d: Option<Day>)
    ensures d.None? <==> forall x :: x in rows ==> day(x).None?
    ensures d.Some? ==> exists x :: x in rows && day(x) == d
    ensures d.Some? ==> forall x :: x in rows && day(x).Some? ==> day(x).value <= d.value
  {
    if rows == [] then None
    else
      var rest := Latest(rows[1..], day);
      assert forall x :: x in rows <==> x == rows[0] || x in rows[1..];
      match day(rows[0])
      case None => rest
      case Some(a) =>
        if rest.Some? && rest.value > a then rest else Some(a)
  }

  /** The result of an unguarded floating-point division, as pandas computes
      it column-wise: a finite quotient, an infinity, or NaN for 0 / 0. */
  datatype Quotient = Finite(value: real) | PosInfinity | NegInfinity | NaN

  function Divide(num: real, den: real): (q: Quotient)
    ensures q.Finite? <==> den != 0.0
    ensures q.Finite? ==> q.value * den == num
    ensures q == NaN <==> den == 0.0 && num == 0.0
    ensures q == PosInfinity <==> den == 0.0 && num > 0.0
  {
    if den != 0.0 then Finite(num / den)
    else if num > 0.0 then PosInfinity
    else if num < 0.0 then NegInfinity
    else NaN
  }

  /** Multiplying a quotient by a positive constant (`* 100`). */
  function Scale(q: Quotient, c: real): (r: Quotient)
    requires c > 0.0
    ensures r.Finite? <==> q.Finite?
    ensures r.Finite? ==> r.value == q.value * c
    ensures !q.Finite? ==> r == q
  {
    if q.Finite? then Finite(q.value * c) else q
  }

  /** Scaling an unguarded quotient by a positive constant is dividing the
      scaled numerator: `a / b * c` and `c * a / b` agree, infinities and
      NaN included. */
  lemma ScaleDivide(num: real, den: real, c: real)
    requires c > 0.0
    ensures Scale(Divide(num, den), c) == Divide(c * num, den)
  {
  }

  function Abs(x: real): (r: real)
    ensures r >= 0.0 && (r == x || r == -x)
  {
    if x < 0.0 then -x else x
  }
}
