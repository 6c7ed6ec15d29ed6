/** `df.groupby(key)`: one group per distinct key, keys in ascending order
    (pandas sorts group keys by default), each group holding the rows with
    that key in their original order. */
module Grouping {
  import opened Tables
  import opened StoreNames
  import opened Aggregates

  datatype Group<T> = Group(key: string, rows: seq<T>)

  /** `df[df[key] == k]`. */
  function RowsWithKey<T(!new)>(rows: seq<T>, key: T -> string, k: string): seq<T>
  {
    Where(rows, HasKey(key, k))
  }

  function HasKey<T>(key: T -> string, k: string): T -> bool
  {
    (x: T) => key(x) == k
  }

  /** Selecting a key every row already carries keeps the whole table. */
  lemma RowsWithKeyAll<T(!new)>(rows: seq<T>, key: T -> string, k: string)
    requires forall r :: r in rows ==> key(r) == k
    ensures RowsWithKey(rows, key, k) == rows
  {
    WhereAll(rows, HasKey(key, k));
  }

  /** The sorted distinct keys of the column. */
  function GroupKeys<T>(rows: seq<T>, key: T -> string): seq<string>
  {
    SortedUnique(Column(rows, key))
  }

  function GroupsFor<T(!new)>(rows: seq<T>, key: T -> string, keys: seq<string>): seq<Group<T>>
  {
    if keys == [] then []
    else [Group(keys[0], RowsWithKey(rows, key, keys[0]))] + GroupsFor(rows, key, keys[1..])
  }

  function GroupBy<T(!new)>(rows: seq<T>, key: T -> string): seq<Group<T>>
  {
    GroupsFor(rows, key, GroupKeys(rows, key))
  }

  /** `df.groupby(key).agg(...)`: each group reduced to one output row. */
  function Rollup<T(!new), U>(rows: seq<T>, key: T -> string, agg: Group<T> -> U): seq<U>
  {
    Column(GroupBy(rows, key), agg)
  }

  /** The total of one column over all groups. */
  function SumGroups<T>(gs: seq<Group<T>>, col: T -> real): real
  {
    if gs == [] then 0.0 else Sum(gs[0].rows, col) + SumGroups(gs[1..], col)
  }

  lemma {:induction false} GroupsForShape<T(!new)>(rows: seq<T>, key: T -> string, keys: seq<string>)
    ensures |GroupsFor(rows, key, keys)| == |keys|
    ensures forall i :: 0 <= i < |keys| ==>
      GroupsFor(rows, key, keys)[i] == Group(keys[i], RowsWithKey(rows, key, keys[i]))
  {
    if keys != [] {
      GroupsForShape(rows, key, keys[1..]);
    }
  }

  /** The number of groups is the number of distinct keys. */
  lemma GroupByCount<T(!new)>(rows: seq<T>, key: T -> string)
    ensures |GroupBy(rows, key)| == |Elements(Column(rows, key))|
  {
    var keys := GroupKeys(rows, key);
    SortedUniqueAscending(Column(rows, key));
    AscendingIsDistinct(keys);
    DistinctLength(keys);
    assert Elements(keys) == Elements(Column(rows, key));
    GroupsForShape(rows, key, keys);
  }

  /** Group keys come out strictly ascending, so no key has two groups. */
  lemma GroupByAscending<T(!new)>(rows: seq<T>, key: T -> string)
    ensures forall i, j :: 0 <= i < j < |GroupBy(rows, key)| ==>
      Precedes(GroupBy(rows, key)[i].key, GroupBy(rows, key)[j].key)
  {
    SortedUniqueAscending(Column(rows, key));
    GroupsForShape(rows, key, GroupKeys(rows, key));
  }

  /** Every row lies in the group of its key. */
  lemma GroupByCovers<T(!new)>(rows: seq<T>, key: T -> string)
    ensures forall r :: r in rows ==>
      exists i :: 0 <= i < |GroupBy(rows, key)| && GroupBy(rows, key)[i].key == key(r)
  {
    var col := Column(rows, key);
    var keys := GroupKeys(rows, key);
    var gs := GroupBy(rows, key);
    GroupsForShape(rows, key, keys);
    forall r | r in rows ensures exists i :: 0 <= i < |gs| && gs[i].key == key(r) {
      var n :| 0 <= n < |rows| && rows[n] == r;
      assert col[n] == key(r) && key(r) in col && key(r) in keys;
      var i :| 0 <= i < |keys| && keys[i] == key(r);
      assert gs[i].key == key(r);
    }
  }

  /** A group holds exactly the rows carrying its key, and is never empty. */
  lemma GroupByMembers<T(!new)>(rows: seq<T>, key: T -> string, i: nat)
    requires i < |GroupBy(rows, key)|
    ensures GroupBy(rows, key)[i].rows != []
    ensures forall r :: r in GroupBy(rows, key)[i].rows <==> r in rows && key(r) == GroupBy(rows, key)[i].key
  {
    var col := Column(rows, key);
    var keys := GroupKeys(rows, key);
    GroupsForShape(rows, key, keys);
    var g := GroupBy(rows, key)[i];
    assert g == Group(keys[i], RowsWithKey(rows, key, keys[i]));
    assert keys[i] in col;
    var n :| 0 <= n < |col| && col[n] == keys[i];
    assert rows[n] in g.rows;
  }

  /** Splitting off the first row: it contributes its value to the one
      group whose key it carries, if any. */
  lemma {:induction false} SumGroupsFirstRow<T(!new)>(rows: seq<T>, key: T -> string, keys: seq<string>, col: T -> real)
    requires |rows| > 0 && Distinct(keys)
    ensures SumGroups(GroupsFor(rows, key, keys), col)
      == (if key(rows[0]) in keys then col(rows[0]) else 0.0) + SumGroups(GroupsFor(rows[1..], key, keys), col)
  {
    if keys != [] {
      var k, tail := keys[0], keys[1..];
      assert Distinct(tail) by {
        forall i, j | 0 <= i < j < |tail| ensures tail[i] != tail[j] { assert tail[i] == keys[i + 1] && tail[j] == keys[j + 1]; }
      }
      assert k !in tail by {
        forall j | 0 <= j < |tail| ensures tail[j] != k { assert tail[j] == keys[j + 1]; }
      }
      SumGroupsFirstRow(rows, key, tail, col);
      var here := RowsWithKey(rows, key, k);
      var later := RowsWithKey(rows[1..], key, k);
      if key(rows[0]) == k {
        assert here == [rows[0]] + later;
        assert ([rows[0]] + later)[1..] == later;
      } else {
        assert here == later;
      }
      assert key(rows[0]) in keys <==> key(rows[0]) == k || key(rows[0]) in tail;
    }
  }

  lemma {:induction false} SumGroupsCoversRows<T(!new)>(rows: seq<T>, key: T -> string, keys: seq<string>, col: T -> real)
    requires Distinct(keys)
    requires forall r :: r in rows ==> key(r) in keys
    ensures SumGroups(GroupsFor(rows, key, keys), col) == Sum(rows, col)
    decreases |rows|
  {
    if rows == [] {
      SumGroupsEmpty(key, keys, col);
    } else {
      assert forall r :: r in rows[1..] ==> r in rows;
      SumGroupsFirstRow(rows, key, keys, col);
      SumGroupsCoversRows(rows[1..], key, keys, col);
    }
  }

  lemma {:induction false} SumGroupsEmpty<T(!new)>(key: T -> string, keys: seq<string>, col: T -> real)
    ensures SumGroups(GroupsFor([], key, keys), col) == 0.0
  {
    if keys != [] {
      SumGroupsEmpty(key, keys[1..], col);
    }
  }

  /** The per-group totals of a column add up to the column's total. */
  lemma GroupByPartition<T(!new)>(rows: seq<T>, key: T -> string, col: T -> real)
    ensures SumGroups(GroupBy(rows, key), col) == Sum(rows, col)
  {
    var column := Column(rows, key);
    var keys := GroupKeys(rows, key);
    SortedUniqueAscending(column);
    AscendingIsDistinct(keys);
    forall r | r in rows ensures key(r) in keys {
      var n :| 0 <= n < |rows| && rows[n] == r;
      assert column[n] == key(r);
    }
    SumGroupsCoversRows(rows, key, keys, col);
  }

  /** A table derived row by row from groups, whose column `v` holds each
      group's total of `col`, has the groups' grand total as its own total. */
  lemma {:induction false} SumOfAggregated<T, U>(gs: seq<Group<T>>, us: seq<U>, v: U -> real, col: T -> real)
    requires |us| == |gs|
    requires forall i :: 0 <= i < |gs| ==> v(us[i]) == Sum(gs[i].rows, col)
    ensures Sum(us, v) == SumGroups(gs, col)
  {
    if gs != [] {
      SumOfAggregated(gs[1..], us[1..], v, col);
    }
  }

  /** A roll-up built group by group with an aggregate that keeps the group
      key: one output row per distinct key, no key twice, every row's key
      present, and each output row aggregated from exactly its key's rows. */
  lemma RollupShape<T(!new), U>(rows: seq<T>, key: T -> string, agg: Group<T> -> U, outKey: U -> string)
    requires forall g :: outKey(agg(g)) == g.key
    ensures |Rollup(rows, key, agg)| == |Elements(Column(rows, key))|
    ensures forall i, j :: 0 <= i < j < |Rollup(rows, key, agg)| ==>
      outKey(Rollup(rows, key, agg)[i]) != outKey(Rollup(rows, key, agg)[j])
    ensures forall r :: r in rows ==>
      exists i :: 0 <= i < |Rollup(rows, key, agg)| && outKey(Rollup(rows, key, agg)[i]) == key(r)
    ensures forall i :: 0 <= i < |Rollup(rows, key, agg)| ==>
      && RowsWithKey(rows, key, outKey(Rollup(rows, key, agg)[i])) != []
      && Rollup(rows, key, agg)[i] ==
         agg(Group(outKey(Rollup(rows, key, agg)[i]), RowsWithKey(rows, key, outKey(Rollup(rows, key, agg)[i]))))
  {
    GroupByCount(rows, key);
    RollupDistinct(rows, key, agg, outKey);
    RollupCovers(rows, key, agg, outKey);
    RollupRows(rows, key, agg, outKey);
  }

  lemma RollupDistinct<T(!new), U>(rows: seq<T>, key: T -> string, agg: Group<T> -> U, outKey: U -> string)
    requires forall g :: outKey(agg(g)) == g.key
    ensures forall i, j :: 0 <= i < j < |Rollup(rows, key, agg)| ==>
      outKey(Rollup(rows, key, agg)[i]) != outKey(Rollup(rows, key, agg)[j])
  {
    var gs := GroupBy(rows, key);
    var out := Column(gs, agg);
    GroupByAscending(rows, key);
    forall i, j | 0 <= i < j < |out| ensures outKey(out[i]) != outKey(out[j]) {
      assert outKey(out[i]) == gs[i].key && outKey(out[j]) == gs[j].key;
      PrecedesIrreflexive(gs[i].key);
    }
  }

  lemma RollupCovers<T(!new), U>(rows: seq<T>, key: T -> string, agg: Group<T> -> U, outKey: U -> string)
    requires forall g :: outKey(agg(g)) == g.key
    ensures forall r :: r in rows ==>
      exists i :: 0 <= i < |Rollup(rows, key, agg)| && outKey(Rollup(rows, key, agg)[i]) == key(r)
  {
    var gs := GroupBy(rows, key);
    assert Rollup(rows, key, agg) == Column(gs, agg);
    RollupKeys(gs, agg, outKey);
    GroupByCovers(rows, key);
  }

  /** Aggregating each group keeps the groups' keys, in order. */
  lemma RollupKeys<T, U>(gs: seq<Group<T>>, agg: Group<T> -> U, outKey: U -> string)
    requires forall g :: outKey(agg(g)) == g.key
    ensures |Column(gs, agg)| == |gs|
    ensures forall i :: 0 <= i < |gs| ==> outKey(Column(gs, agg)[i]) == gs[i].key
  {
  }

  lemma RollupRows<T(!new), U>(rows: seq<T>, key: T -> string, agg: Group<T> -> U, outKey: U -> string)
    requires forall g :: outKey(agg(g)) == g.key
    ensures forall i :: 0 <= i < |Rollup(rows, key, agg)| ==>
      && RowsWithKey(rows, key, outKey(Rollup(rows, key, agg)[i])) != []
      && Rollup(rows, key, agg)[i] ==
         agg(Group(outKey(Rollup(rows, key, agg)[i]), RowsWithKey(rows, key, outKey(Rollup(rows, key, agg)[i]))))
  {
    var gs := GroupBy(rows, key);
    var out := Column(gs, agg);
    GroupsForShape(rows, key, GroupKeys(rows, key));
    forall i | 0 <= i < |out|
      ensures RowsWithKey(rows, key, outKey(out[i])) != []
      ensures out[i] == agg(Group(outKey(out[i]), RowsWithKey(rows, key, outKey(out[i]))))
    {
      GroupByMembers(rows, key, i);
      assert outKey(out[i]) == gs[i].key;
    }
  }
}
