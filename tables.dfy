/** Tables as ordered sequences of rows, and boolean-mask selection over them. */
module Tables {

  /** `df[mask]` with the mask built from a row predicate: the rows of `s`
      satisfying `p`, in their original order. Every row filter of the
      dashboard is a composition of this one operation. */
  function Where<T(!new)>(s: seq<T>, p: T -> bool): (r: seq<T>)
    ensures |r| <= |s|
    ensures forall x :: x in r <==> x in s && p(x)
  {
    if s == [] then []
    else
      assert s == [s[0]] + s[1..];
      if p(s[0]) then [s[0]] + Where(s[1..], p) else Where(s[1..], p)
  }

  /** Filtering never duplicates a row: each kept row occurs as often as in
      the input, each dropped row not at all. */
  lemma {:induction false} WhereCounts<T(!new)>(s: seq<T>, p: T -> bool)
    ensures forall x :: multiset(Where(s, p))[x] == if p(x) then multiset(s)[x] else 0
  {
    if s != [] {
      WhereCounts(s[1..], p);
      assert s == [s[0]] + s[1..];
      assert multiset(s) == multiset{s[0]} + multiset(s[1..]);
    }
  }

  /** One column of a table, `df[col]`, as the sequence of its cells. */
  function Column<T, U>(rows: seq<T>, col: T -> U): (c: seq<U>)
    ensures |c| == |rows|
    ensures forall i :: 0 <= i < |rows| ==> c[i] == col(rows[i])
  {
    if rows == [] then [] else [col(rows[0])] + Column(rows[1..], col)
  }

  /** `a` can be obtained from `b` by deleting elements: order is kept and
      nothing is created or duplicated. */
  ghost predicate IsSubsequence<T>(a: seq<T>, b: seq<T>)
    decreases |b|
  {
    a == [] || (b != [] && ((a[0] == b[0] && IsSubsequence(a[1..], b[1..])) || IsSubsequence(a, b[1..])))
  }

  /** Filtering yields a subsequence of its input. */
  lemma {:induction false} WhereIsSubsequence<T(!new)>(s: seq<T>, p: T -> bool)
    ensures IsSubsequence(Where(s, p), s)
  {
    if s != [] {
      WhereIsSubsequence(s[1..], p);
    }
  }

  /** A stronger predicate selects a subsequence of what a weaker one selects. */
  lemma {:induction false} WhereNarrows<T(!new)>(s: seq<T>, p: T -> bool, q: T -> bool)
    requires forall x :: x in s && q(x) ==> p(x)
    ensures IsSubsequence(Where(s, q), Where(s, p))
  {
    if s != [] {
      WhereNarrows(s[1..], p, q);
      var wq, wp := Where(s[1..], q), Where(s[1..], p);
      if q(s[0]) {
        assert Where(s, q) == [s[0]] + wq && Where(s, p) == [s[0]] + wp;
        assert ([s[0]] + wq)[1..] == wq && ([s[0]] + wp)[1..] == wp;
      } else if p(s[0]) {
        assert Where(s, q) == wq && Where(s, p) == [s[0]] + wp;
        assert ([s[0]] + wp)[1..] == wp;
      }
    }
  }

  /** Filtering twice is filtering once by the conjunction. */
  lemma {:induction false} WhereAnd<T(!new)>(s: seq<T>, p: T -> bool, q: T -> bool, pq: T -> bool)
    requires forall x :: x in s ==> pq(x) == (p(x) && q(x))
    ensures Where(Where(s, p), q) == Where(s, pq)
  {
    if s != [] {
      assert forall x :: x in s[1..] ==> x in s;
      WhereAnd(s[1..], p, q, pq);
    }
  }

  /** A predicate that holds of no row empties the table. */
  lemma {:induction false} WhereNone<T(!new)>(s: seq<T>, p: T -> bool)
    requires forall x :: x in s ==> !p(x)
    ensures Where(s, p) == []
  {
    if s != [] {
      assert forall x :: x in s[1..] ==> x in s;
      WhereNone(s[1..], p);
    }
  }

  /** Filtering depends only on the values the predicate takes on the table. */
  lemma {:induction false} WhereSame<T(!new)>(s: seq<T>, p: T -> bool, q: T -> bool)
    requires forall x :: x in s ==> p(x) == q(x)
    ensures Where(s, p) == Where(s, q)
  {
    if s != [] {
      assert forall x :: x in s[1..] ==> x in s;
      WhereSame(s[1..], p, q);
    }
  }

  /** A predicate that holds of every row keeps the table unchanged. */
  lemma {:induction false} WhereAll<T(!new)>(s: seq<T>, p: T -> bool)
    requires forall x :: x in s ==> p(x)
    ensures Where(s, p) == s
  {
    if s != [] {
      assert forall x :: x in s[1..] ==> x in s;
      WhereAll(s[1..], p);
      assert s == [s[0]] + s[1..];
    }
  }
}
