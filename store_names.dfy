/** Sorting store names the way Python's `sorted` sorts strings, and the
    store selector lists built from them. */
module StoreNames {
  import opened Common

  /** Python's `<` on `str`: lexicographic by code point, a proper prefix first. */
  predicate Precedes(a: string, b: string)
  {
    if |a| == 0 then |b| > 0
    else if |b| == 0 then false
    else if a[0] != b[0] then a[0] < b[0]
    else Precedes(a[1..], b[1..])
  }

  lemma {:induction false} PrecedesIrreflexive(a: string)
    ensures !Precedes(a, a)
  {
    if |a| > 0 { PrecedesIrreflexive(a[1..]); }
  }

  lemma {:induction false} PrecedesTransitive(a: string, b: string, c: string)
    requires Precedes(a, b) && Precedes(b, c)
    ensures Precedes(a, c)
  {
    if |a| > 0 && |b| > 0 && |c| > 0 && a[0] == b[0] == c[0] {
      PrecedesTransitive(a[1..], b[1..], c[1..]);
    }
  }

  lemma {:induction false} PrecedesTotal(a: string, b: string)
    requires a != b
    ensures Precedes(a, b) || Precedes(b, a)
  {
    if |a| > 0 && |b| > 0 && a[0] == b[0] {
      assert a == [a[0]] + a[1..] && b == [b[0]] + b[1..];
      PrecedesTotal(a[1..], b[1..]);
    }
  }

  lemma {:induction false} PrecedesAsymmetric(a: string, b: string)
    requires Precedes(a, b)
    ensures !Precedes(b, a)
  {
    if |a| > 0 && |b| > 0 && a[0] == b[0] {
      PrecedesAsymmetric(a[1..], b[1..]);
    }
  }

  /** Strictly increasing, hence free of duplicates. */
  ghost predicate StrictlyAscending(s: seq<string>)
  {
    forall i, j :: 0 <= i < j < |s| ==> Precedes(s[i], s[j])
  }

  ghost predicate Distinct<T>(s: seq<T>)
  {
    forall i, j :: 0 <= i < j < |s| ==> s[i] != s[j]
  }

  ghost function Elements<T>(s: seq<T>): set<T>
  {
    set x | x in s
  }

  /** Inserts a name into a sorted list of distinct names, unless present. */
  function InsertName(x: string, s: seq<string>): (r: seq<string>)
    ensures forall y :: y in r <==> y == x || y in s
  {
    if s == [] then [x]
    else if x == s[0] then s
    else if Precedes(x, s[0]) then [x] + s
    else [s[0]] + InsertName(x, s[1..])
  }

  /** `sorted(column.unique())`. */
  function SortedUnique(names: seq<string>): (r: seq<string>)
    ensures forall y :: y in r <==> y in names
  {
    if names == [] then []
    else InsertName(names[|names| - 1], SortedUnique(names[..|names| - 1]))
  }

  /** The selector list: `['All'] + sorted(column.unique().tolist())`. */
  function StoreOptions(names: seq<string>): (r: seq<string>)
    ensures |r| >= 1 && r[0] == AllOption
    ensures forall y :: y in r[1..] <==> y in names
  {
    [AllOption] + SortedUnique(names)
  }

  lemma {:induction false} InsertNameAscending(x: string, s: seq<string>)
    requires StrictlyAscending(s)
    ensures StrictlyAscending(InsertName(x, s))
  {
    if s == [] || x == s[0] {
    } else if Precedes(x, s[0]) {
      forall j | 0 < j < |s| ensures Precedes(x, s[j]) {
        PrecedesTransitive(x, s[0], s[j]);
      }
    } else {
      PrecedesTotal(x, s[0]);
      var rest := InsertName(x, s[1..]);
      InsertNameAscending(x, s[1..]);
      forall y | y in rest ensures Precedes(s[0], y) {
        if y != x {
          var j :| 1 <= j < |s| && s[j] == y;
        }
      }
      var r := [s[0]] + rest;
      forall i, j | 0 <= i < j < |r| ensures Precedes(r[i], r[j]) {
        if i == 0 { assert r[j] in rest; } else { assert r[i] == rest[i - 1] && r[j] == rest[j - 1]; }
      }
    }
  }

  /** The sorted unique list is strictly ascending and holds exactly the
      names of the column. */
  lemma {:induction false} SortedUniqueAscending(names: seq<string>)
    ensures StrictlyAscending(SortedUnique(names))
  {
    if names != [] {
      SortedUniqueAscending(names[..|names| - 1]);
      InsertNameAscending(names[|names| - 1], SortedUnique(names[..|names| - 1]));
    }
  }

  lemma AscendingIsDistinct(s: seq<string>)
    requires StrictlyAscending(s)
    ensures Distinct(s)
  {
    forall i, j | 0 <= i < j < |s| ensures s[i] != s[j] {
      if s[i] == s[j] { PrecedesIrreflexive(s[i]); }
    }
  }

  /** A duplicate-free list has as many entries as it has distinct elements. */
  lemma {:induction false} DistinctLength<T>(s: seq<T>)
    requires Distinct(s)
    ensures |s| == |Elements(s)|
  {
    if s != [] {
      var t := s[1..];
      assert Distinct(t) by {
        forall i, j | 0 <= i < j < |t| ensures t[i] != t[j] { assert t[i] == s[i + 1] && t[j] == s[j + 1]; }
      }
      DistinctLength(t);
      assert s[0] !in t by {
        forall k | 0 <= k < |t| ensures t[k] != s[0] { assert t[k] == s[k + 1]; }
      }
      assert Elements(s) == {s[0]} + Elements(t) by {
        assert s == [s[0]] + t;
      }
    }
  }

  /** The store selector starts with 'All', followed by every distinct store
      name exactly once, in ascending order. */
  lemma StoreOptionsSpec(names: seq<string>)
    ensures |StoreOptions(names)| == 1 + |Elements(names)|
    ensures StoreOptions(names)[0] == AllOption
    ensures StrictlyAscending(StoreOptions(names)[1..])
    ensures forall y :: y in StoreOptions(names)[1..] <==> y in names
  {
    var u := SortedUnique(names);
    SortedUniqueAscending(names);
    AscendingIsDistinct(u);
    DistinctLength(u);
    assert Elements(u) == Elements(names);
    assert StoreOptions(names)[1..] == u;
  }
}
