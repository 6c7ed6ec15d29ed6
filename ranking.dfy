/** Ordering a table by one numeric column, descending, and keeping its
    first rows: `sort_values(col, ascending=False).head(n)` and
    `nlargest(n, col)`. */
module Ranking {

  ghost predicate Descending<T>(s: seq<T>, v: T -> real)
  {
    forall i, j :: 0 <= i < j < |s| ==> v(s[i]) >= v(s[j])
  }

  /** Inserts `x` before the first row with a strictly smaller value. */
  function InsertDescending<T>(x: T, s: seq<T>, v: T -> real): (r: seq<T>)
    ensures |r| == |s| + 1
    ensures multiset(r) == multiset(s) + multiset{x}
  {
    if s == [] || v(x) >= v(s[0]) then [x] + s
    else
      assert s == [s[0]] + s[1..];
      [s[0]] + InsertDescending(x, s[1..], v)
  }

  /** The table reordered by `v`, largest first. */
  function SortDescending<T>(s: seq<T>, v: T -> real): (r: seq<T>)
    ensures |r| == |s|
    ensures multiset(r) == multiset(s)
  {
    if s == [] then []
    else
      assert s == [s[0]] + s[1..];
      InsertDescending(s[0], SortDescending(s[1..], v), v)
  }

  /** A row no smaller than every row of a descending tail can lead it. */
  lemma ConsDescending<T>(h: T, t: seq<T>, v: T -> real)
    requires Descending(t, v)
    requires forall y :: y in t ==> v(y) <= v(h)
    ensures Descending([h] + t, v)
  {
    var r := [h] + t;
    forall i, j | 0 <= i < j < |r| ensures v(r[i]) >= v(r[j]) {
      if i == 0 { assert r[j] == t[j - 1]; } else { assert r[i] == t[i - 1] && r[j] == t[j - 1]; }
    }
  }

  lemma {:induction false} InsertDescendingSorted<T>(x: T, s: seq<T>, v: T -> real)
    requires Descending(s, v)
    ensures Descending(InsertDescending(x, s, v), v)
  {
    if s == [] {
    } else if v(x) >= v(s[0]) {
      forall y | y in s ensures v(y) <= v(x) {
        var j :| 0 <= j < |s| && s[j] == y;
        if j > 0 { assert v(s[0]) >= v(s[j]); }
      }
      ConsDescending(x, s, v);
    } else {
      var tail := s[1..];
      assert Descending(tail, v) by {
        forall i, j | 0 <= i < j < |tail| ensures v(tail[i]) >= v(tail[j]) { assert tail[i] == s[i + 1] && tail[j] == s[j + 1]; }
      }
      var rest := InsertDescending(x, tail, v);
      InsertDescendingSorted(x, tail, v);
      forall y | y in rest ensures v(y) <= v(s[0]) {
        assert y in multiset(rest);
        if y != x {
          assert y in multiset(tail);
          var j :| 0 <= j < |tail| && tail[j] == y;
          assert v(s[0]) >= v(s[j + 1]);
        }
      }
      ConsDescending(s[0], rest, v);
    }
  }

  /** Sorting gives a descending ordering of the same rows. */
  lemma {:induction false} SortDescendingSorted<T>(s: seq<T>, v: T -> real)
    ensures Descending(SortDescending(s, v), v)
  {
    if s != [] {
      SortDescendingSorted(s[1..], v);
      InsertDescendingSorted(s[0], SortDescending(s[1..], v), v);
    }
  }

  /** Cutting a descending sequence at `k`: nothing after the cut is larger
      than anything before it. */
  lemma PrefixDominates<T>(s: seq<T>, k: nat, v: T -> real)
    requires k <= |s| && Descending(s, v)
    ensures multiset(s[..k]) <= multiset(s)
    ensures forall x, y :: x in s[..k] && y in multiset(s) - multiset(s[..k]) ==> v(y) <= v(x)
  {
    assert s == s[..k] + s[k..];
    assert multiset(s) - multiset(s[..k]) == multiset(s[k..]);
    forall x, y | x in s[..k] && y in multiset(s) - multiset(s[..k]) ensures v(y) <= v(x) {
      var i :| 0 <= i < k && s[..k][i] == x;
      assert y in s[k..];
      var j :| 0 <= j < |s| - k && s[k..][j] == y;
      assert s[i] == x && s[k + j] == y;
    }
  }

  function Min(a: nat, b: nat): nat
  {
    if a < b then a else b
  }

  /** The first `k` rows of the descending order are sorted, come from the
      table, and are no smaller than any row left behind. */
  lemma SortedPrefixIsLargest<T>(rows: seq<T>, k: nat, v: T -> real)
    requires k <= |rows|
    ensures Descending(SortDescending(rows, v)[..k], v)
    ensures multiset(SortDescending(rows, v)[..k]) <= multiset(rows)
    ensures forall x, y :: x in SortDescending(rows, v)[..k] && y in multiset(rows) - multiset(SortDescending(rows, v)[..k]) ==>
      v(y) <= v(x)
  {
    var sorted := SortDescending(rows, v);
    SortDescendingSorted(rows, v);
    PrefixDominates(sorted, k, v);
  }

  /** The `n` rows with the largest `v`, largest first. Ties are ordered by
      first occurrence, but nothing below relies on that. */
  function NLargest<T>(rows: seq<T>, n: nat, v: T -> real): (top: seq<T>)
    ensures |top| == Min(n, |rows|)
    ensures Descending(top, v)
    ensures multiset(top) <= multiset(rows)
    ensures forall x, y :: x in top && y in multiset(rows) - multiset(top) ==> v(y) <= v(x)
  {
    SortedPrefixIsLargest(rows, Min(n, |rows|), v);
    SortDescending(rows, v)[..Min(n, |rows|)]
  }
}
