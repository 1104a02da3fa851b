/** Grouping rows by a key, as pandas' `groupby` and Python's
    "accumulate into a dict" loops do.  A group keeps its rows in input order.
    With a strict total order on keys the groups come out in ascending key
    order (pandas sorts group keys); with `InsertionOrder` a new key goes after
    all existing ones (a Python dict keeps first-insertion order). */
module Grouping {
  import opened Common

  datatype Group<K, R> = Group(key: K, rows: seq<R>)

  /** The order in which a Python dict lists its keys: no key precedes another,
      so a new key is appended. */
  predicate InsertionOrder<K>(a: K, b: K)
  {
    false
  }

  /** `less` is irreflexive and transitive. */
  ghost predicate StrictOrder<K(!new)>(less: (K, K) -> bool)
  {
    && (forall a :: !less(a, a))
    && (forall a, b, c :: less(a, b) && less(b, c) ==> less(a, c))
  }

  /** A strict order in which any two different keys are comparable. */
  ghost predicate StrictTotalOrder<K(!new)>(less: (K, K) -> bool)
  {
    && StrictOrder(less)
    && (forall a, b :: a != b ==> less(a, b) || less(b, a))
  }

  lemma InsertionOrderIsStrict<K(!new)>()
    ensures StrictOrder<K>(InsertionOrder)
  {
  }

  /** The rows whose key is `k`, in input order. */
  function RowsWithKey<K(==), R>(rows: seq<R>, keyOf: R -> K, k: K): seq<R>
  {
    if |rows| == 0 then []
    else
      var last := rows[|rows| - 1];
      RowsWithKey(rows[..|rows| - 1], keyOf, k) + (if keyOf(last) == k then [last] else [])
  }

  /** The rows filed under key `k` (empty when there is no such group). */
  function Lookup<K(==), R>(groups: seq<Group<K, R>>, k: K): seq<R>
  {
    if |groups| == 0 then []
    else if groups[0].key == k then groups[0].rows
    else Lookup(groups[1..], k)
  }

  function Keys<K, R>(groups: seq<Group<K, R>>): set<K>
  {
    set i | 0 <= i < |groups| :: groups[i].key
  }

  predicate DistinctKeys<K(==), R>(groups: seq<Group<K, R>>)
  {
    forall i, j :: 0 <= i < j < |groups| ==> groups[i].key != groups[j].key
  }

  ghost predicate Ascending<K, R>(groups: seq<Group<K, R>>, less: (K, K) -> bool)
  {
    forall i, j :: 0 <= i < j < |groups| ==> less(groups[i].key, groups[j].key)
  }

  /** No later key precedes an earlier one. */
  ghost predicate Orderly<K, R>(groups: seq<Group<K, R>>, less: (K, K) -> bool)
  {
    forall i, j :: 0 <= i < j < |groups| ==> !less(groups[j].key, groups[i].key)
  }

  predicate NonEmptyGroups<K, R>(groups: seq<Group<K, R>>)
  {
    forall i :: 0 <= i < |groups| ==> |groups[i].rows| > 0
  }

  /** The invariant every grouping keeps. */
  ghost predicate WellFormed<K(!new), R>(groups: seq<Group<K, R>>, less: (K, K) -> bool)
  {
    DistinctKeys(groups) && Orderly(groups, less) && NonEmptyGroups(groups)
  }

  /** Files one row: appended to the group of its key, or a new group placed
      before the first group whose key it precedes. */
  function AddRow<K(==), R>(groups: seq<Group<K, R>>, r: R, keyOf: R -> K, less: (K, K) -> bool)
    : seq<Group<K, R>>
  {
    if |groups| == 0 then [Group(keyOf(r), [r])]
    else if groups[0].key == keyOf(r) then [Group(groups[0].key, groups[0].rows + [r])] + groups[1..]
    else if less(keyOf(r), groups[0].key) then [Group(keyOf(r), [r])] + groups
    else [groups[0]] + AddRow(groups[1..], r, keyOf, less)
  }

  /** Files every row, first to last. */
  function GroupBy<K(==), R>(rows: seq<R>, keyOf: R -> K, less: (K, K) -> bool): seq<Group<K, R>>
  {
    if |rows| == 0 then []
    else AddRow(GroupBy(rows[..|rows| - 1], keyOf, less), rows[|rows| - 1], keyOf, less)
  }

  /** The grouping of the first `i` rows, as a loop over the rows builds it. */
  function GroupFirst<K(==), R>(rows: seq<R>, i: nat, keyOf: R -> K, less: (K, K) -> bool): seq<Group<K, R>>
    requires i <= |rows|
  {
    if i == 0 then [] else AddRow(GroupFirst(rows, i - 1, keyOf, less), rows[i - 1], keyOf, less)
  }

  /** Filing the rows one at a time is grouping them. */
  lemma {:induction false} GroupFirstIsGroupBy<K, R>(rows: seq<R>, i: nat, keyOf: R -> K, less: (K, K) -> bool)
    requires i <= |rows|
    ensures GroupFirst(rows, i, keyOf, less) == GroupBy(rows[..i], keyOf, less)
    decreases i
  {
    if i > 0 {
      GroupFirstIsGroupBy(rows, i - 1, keyOf, less);
      assert rows[..i][..i - 1] == rows[..i - 1];
    }
  }

  lemma {:induction false} GroupFirstWellFormed<K(!new), R>(rows: seq<R>, i: nat, keyOf: R -> K, less: (K, K) -> bool)
    requires i <= |rows| && StrictOrder(less)
    ensures WellFormed(GroupFirst(rows, i, keyOf, less), less)
    decreases i
  {
    if i > 0 {
      var before := GroupFirst(rows, i - 1, keyOf, less);
      GroupFirstWellFormed(rows, i - 1, keyOf, less);
      AddRowWellFormed(before, rows[i - 1], keyOf, less);
      assert GroupFirst(rows, i, keyOf, less) == AddRow(before, rows[i - 1], keyOf, less);
    }
  }

  lemma GroupFirstAll<K, R>(rows: seq<R>, keyOf: R -> K, less: (K, K) -> bool)
    ensures GroupFirst(rows, |rows|, keyOf, less) == GroupBy(rows, keyOf, less)
  {
    GroupFirstIsGroupBy(rows, |rows|, keyOf, less);
    assert rows[..|rows|] == rows;
  }

  /** Filing a row adds its key to the key set and nothing else. */
  lemma {:induction false} AddRowKeys<K, R>(groups: seq<Group<K, R>>, r: R, keyOf: R -> K, less: (K, K) -> bool)
    ensures Keys(AddRow(groups, r, keyOf, less)) == Keys(groups) + {keyOf(r)}
    decreases |groups|
  {
    var k := keyOf(r);
    var res := AddRow(groups, r, keyOf, less);
    if |groups| == 0 {
      KeysCons(Group(k, [r]), []);
      assert [Group(k, [r])] + [] == res;
    } else if groups[0].key == k {
      assert groups == [groups[0]] + groups[1..];
      KeysCons(groups[0], groups[1..]);
      KeysCons(res[0], groups[1..]);
    } else if less(k, groups[0].key) {
      KeysCons(Group(k, [r]), groups);
    } else {
      var rest := groups[1..];
      assert groups == [groups[0]] + rest;
      AddRowKeys(rest, r, keyOf, less);
      KeysCons(groups[0], rest);
      KeysCons(groups[0], AddRow(rest, r, keyOf, less));
    }
  }

  /** A key that precedes the first key of an orderly grouping is none of its
      keys and is preceded by none of them. */
  lemma PrecedesAll<K(!new), R>(groups: seq<Group<K, R>>, k: K, less: (K, K) -> bool)
    requires StrictOrder(less) && Orderly(groups, less)
    requires |groups| > 0 && less(k, groups[0].key)
    ensures forall j :: 0 <= j < |groups| ==> groups[j].key != k && !less(groups[j].key, k)
  {
    forall j | 0 <= j < |groups|
      ensures groups[j].key != k && !less(groups[j].key, k)
    {
      if j > 0 {
        assert !less(groups[j].key, groups[0].key);
      }
    }
  }

  /** A non-empty group in front of a well-formed grouping whose keys all
      differ from its key and none of which precedes it. */
  lemma ConsWellFormed<K(!new), R>(g: Group<K, R>, tail: seq<Group<K, R>>, less: (K, K) -> bool)
    requires WellFormed(tail, less) && |g.rows| > 0
    requires forall x :: x in Keys(tail) ==> x != g.key && !less(x, g.key)
    ensures WellFormed([g] + tail, less)
  {
    var t := [g] + tail;
    forall i, j | 0 <= i < j < |t|
      ensures t[i].key != t[j].key && !less(t[j].key, t[i].key)
    {
      assert t[j] == tail[j - 1];
      if i > 0 {
        assert t[i] == tail[i - 1];
      } else {
        assert tail[j - 1].key in Keys(tail);
      }
    }
    forall i | 0 <= i < |t|
      ensures |t[i].rows| > 0
    {
      if i > 0 {
        assert t[i] == tail[i - 1];
      }
    }
  }

  lemma WellFormedRest<K(!new), R>(groups: seq<Group<K, R>>, less: (K, K) -> bool)
    requires WellFormed(groups, less) && |groups| > 0
    ensures WellFormed(groups[1..], less)
    ensures forall x :: x in Keys(groups[1..]) ==> x != groups[0].key && !less(x, groups[0].key)
  {
    var rest := groups[1..];
    forall x | x in Keys(rest)
      ensures x != groups[0].key && !less(x, groups[0].key)
    {
      var i :| 0 <= i < |rest| && rest[i].key == x;
      assert rest[i] == groups[i + 1];
    }
  }

  /** Filing a row keeps keys distinct, keeps the key order and leaves no
      group empty. */
  lemma {:induction false} AddRowWellFormed<K(!new), R>(groups: seq<Group<K, R>>, r: R, keyOf: R -> K, less: (K, K) -> bool)
    requires StrictOrder(less) && WellFormed(groups, less)
    ensures WellFormed(AddRow(groups, r, keyOf, less), less)
    decreases |groups|
  {
    var k := keyOf(r);
    if |groups| > 0 && groups[0].key != k {
      if less(k, groups[0].key) {
        PrecedesAll(groups, k, less);
      } else {
        var rest := groups[1..];
        WellFormedRest(groups, less);
        AddRowWellFormed(rest, r, keyOf, less);
        AddRowKeys(rest, r, keyOf, less);
        ConsWellFormed(groups[0], AddRow(rest, r, keyOf, less), less);
        assert AddRow(groups, r, keyOf, less) == [groups[0]] + AddRow(rest, r, keyOf, less);
      }
    }
  }

  /** Filing a row appends it to the rows of its own key and changes no other
      key's rows. */
  lemma {:induction false} AddRowLookup<K(!new), R>(groups: seq<Group<K, R>>, r: R, keyOf: R -> K, less: (K, K) -> bool, q: K)
    requires StrictOrder(less) && WellFormed(groups, less)
    ensures Lookup(AddRow(groups, r, keyOf, less), q)
            == Lookup(groups, q) + (if q == keyOf(r) then [r] else [])
    decreases |groups|
  {
    var k := keyOf(r);
    if |groups| > 0 && groups[0].key != k {
      if less(k, groups[0].key) {
        PrecedesAll(groups, k, less);
        if q == k {
          LookupAbsent(groups, k);
        }
      } else {
        AddRowLookup(groups[1..], r, keyOf, less, q);
      }
    }
  }

  /** Every grouping is well formed. */
  lemma {:induction false} GroupByWellFormed<K(!new), R>(rows: seq<R>, keyOf: R -> K, less: (K, K) -> bool)
    requires StrictOrder(less)
    ensures WellFormed(GroupBy(rows, keyOf, less), less)
    ensures Keys(GroupBy(rows, keyOf, less)) == set i | 0 <= i < |rows| :: keyOf(rows[i])
    decreases |rows|
  {
    if |rows| > 0 {
      var init := rows[..|rows| - 1];
      GroupByWellFormed(init, keyOf, less);
      AddRowWellFormed(GroupBy(init, keyOf, less), rows[|rows| - 1], keyOf, less);
      AddRowKeys(GroupBy(init, keyOf, less), rows[|rows| - 1], keyOf, less);
      assert GroupBy(rows, keyOf, less) == AddRow(GroupBy(init, keyOf, less), rows[|rows| - 1], keyOf, less);
      var all := set i | 0 <= i < |rows| :: keyOf(rows[i]);
      var before := set i | 0 <= i < |init| :: keyOf(init[i]);
      forall x | x in all ensures x in before + {keyOf(rows[|rows| - 1])} {
        var i :| 0 <= i < |rows| && keyOf(rows[i]) == x;
        if i < |init| {
          assert init[i] == rows[i];
        }
      }
      forall x | x in before ensures x in all {
        var i :| 0 <= i < |init| && keyOf(init[i]) == x;
        assert init[i] == rows[i];
      }
    }
  }

  /** The group of key `q` holds exactly the rows with key `q`, in input order. */
  lemma {:induction false} GroupByLookup<K(!new), R>(rows: seq<R>, keyOf: R -> K, less: (K, K) -> bool, q: K)
    requires StrictOrder(less)
    ensures Lookup(GroupBy(rows, keyOf, less), q) == RowsWithKey(rows, keyOf, q)
    decreases |rows|
  {
    if |rows| > 0 {
      var init := rows[..|rows| - 1];
      GroupByLookup(init, keyOf, less, q);
      GroupByWellFormed(init, keyOf, less);
      AddRowLookup(GroupBy(init, keyOf, less), rows[|rows| - 1], keyOf, less, q);
    }
  }

  /** Under a strict total order the groups come out in ascending key order. */
  lemma GroupByAscending<K(!new), R>(rows: seq<R>, keyOf: R -> K, less: (K, K) -> bool)
    requires StrictTotalOrder(less)
    ensures Ascending(GroupBy(rows, keyOf, less), less)
  {
    var g := GroupBy(rows, keyOf, less);
    GroupByWellFormed(rows, keyOf, less);
    forall i, j | 0 <= i < j < |g|
      ensures less(g[i].key, g[j].key)
    {
      assert g[i].key != g[j].key;
      assert !less(g[j].key, g[i].key);
    }
  }

  /** With distinct keys, looking up a group's own key yields its rows. */
  lemma {:induction false} LookupAt<K, R>(groups: seq<Group<K, R>>, i: nat)
    requires DistinctKeys(groups) && i < |groups|
    ensures Lookup(groups, groups[i].key) == groups[i].rows
    decreases i
  {
    if i > 0 {
      LookupAt(groups[1..], i - 1);
      assert groups[0].key != groups[i].key;
    }
  }

  lemma KeysCons<K, R>(g: Group<K, R>, groups: seq<Group<K, R>>)
    ensures Keys([g] + groups) == {g.key} + Keys(groups)
  {
    var all := [g] + groups;
    forall x | x in Keys(all) ensures x in {g.key} + Keys(groups) {
      var i :| 0 <= i < |all| && all[i].key == x;
      if i > 0 {
        assert groups[i - 1].key == x;
      }
    }
    forall x | x in Keys(groups) ensures x in Keys(all) {
      var i :| 0 <= i < |groups| && groups[i].key == x;
      assert all[i + 1].key == x;
    }
    assert all[0].key == g.key;
  }

  lemma LookupAbsent<K, R>(groups: seq<Group<K, R>>, k: K)
    requires k !in Keys(groups)
    ensures Lookup(groups, k) == []
  {
  }

  /** Sum of `f` over every row of every group. */
  function GroupTotal<K, R>(groups: seq<Group<K, R>>, f: R -> real): real
  {
    if |groups| == 0 then 0.0 else SumBy(groups[0].rows, f) + GroupTotal(groups[1..], f)
  }

  lemma SumBySingle<R>(r: R, f: R -> real)
    ensures SumBy([r], f) == f(r)
  {
    assert [r][..0] == [];
  }

  lemma SumBySnoc<R>(rows: seq<R>, r: R, f: R -> real)
    ensures SumBy(rows + [r], f) == SumBy(rows, f) + f(r)
  {
    assert (rows + [r])[..|rows|] == rows;
  }

  /** Filing a row adds its value to the grand total. */
  lemma {:induction false} AddRowTotal<K, R>(groups: seq<Group<K, R>>, r: R, keyOf: R -> K, less: (K, K) -> bool, f: R -> real)
    ensures GroupTotal(AddRow(groups, r, keyOf, less), f) == GroupTotal(groups, f) + f(r)
    decreases |groups|
  {
    var res := AddRow(groups, r, keyOf, less);
    if |groups| == 0 {
      SumBySingle(r, f);
      assert res[1..] == [];
    } else if groups[0].key == keyOf(r) {
      SumBySnoc(groups[0].rows, r, f);
      assert res[1..] == groups[1..];
    } else if less(keyOf(r), groups[0].key) {
      SumBySingle(r, f);
      assert res[1..] == groups;
    } else {
      AddRowTotal(groups[1..], r, keyOf, less, f);
      assert res[1..] == AddRow(groups[1..], r, keyOf, less);
    }
  }

  /** Grouping neither loses nor duplicates anything: the group totals add up
      to the total over all rows. */
  lemma {:induction false} GroupByTotal<K, R>(rows: seq<R>, keyOf: R -> K, less: (K, K) -> bool, f: R -> real)
    ensures GroupTotal(GroupBy(rows, keyOf, less), f) == SumBy(rows, f)
    decreases |rows|
  {
    if |rows| > 0 {
      GroupByTotal(rows[..|rows| - 1], keyOf, less, f);
      AddRowTotal(GroupBy(rows[..|rows| - 1], keyOf, less), rows[|rows| - 1], keyOf, less, f);
    }
  }

  /** Filing a row adds one to the total row count. */
  function RowCount<K, R>(groups: seq<Group<K, R>>): nat
  {
    if |groups| == 0 then 0 else |groups[0].rows| + RowCount(groups[1..])
  }

  lemma {:induction false} AddRowCount<K, R>(groups: seq<Group<K, R>>, r: R, keyOf: R -> K, less: (K, K) -> bool)
    ensures RowCount(AddRow(groups, r, keyOf, less)) == RowCount(groups) + 1
    decreases |groups|
  {
    var res := AddRow(groups, r, keyOf, less);
    if |groups| == 0 {
      assert res[1..] == [];
    } else if groups[0].key == keyOf(r) {
      assert res[1..] == groups[1..];
    } else if less(keyOf(r), groups[0].key) {
      assert res[1..] == groups;
    } else {
      AddRowCount(groups[1..], r, keyOf, less);
      assert res[1..] == AddRow(groups[1..], r, keyOf, less);
    }
  }

  /** Every row lands in exactly one group. */
  lemma {:induction false} GroupByCount<K, R>(rows: seq<R>, keyOf: R -> K, less: (K, K) -> bool)
    ensures RowCount(GroupBy(rows, keyOf, less)) == |rows|
    decreases |rows|
  {
    if |rows| > 0 {
      GroupByCount(rows[..|rows| - 1], keyOf, less);
      AddRowCount(GroupBy(rows[..|rows| - 1], keyOf, less), rows[|rows| - 1], keyOf, less);
    }
  }

  /** A non-empty input yields at least one group. */
  lemma GroupByNonEmpty<K, R>(rows: seq<R>, keyOf: R -> K, less: (K, K) -> bool)
    ensures |GroupBy(rows, keyOf, less)| == 0 <==> |rows| == 0
  {
    if |rows| > 0 {
      GroupByCount(rows, keyOf, less);
    }
  }

  // With InsertionOrder the groups come in order of first appearance.

  /** Position of the first row with key `k`; |rows| when there is none. */
  function FirstPos<K(==), R>(rows: seq<R>, keyOf: R -> K, k: K): (p: nat)
    ensures p <= |rows|
    ensures p < |rows| ==> keyOf(rows[p]) == k
    ensures forall i :: 0 <= i < p ==> keyOf(rows[i]) != k
  {
    if |rows| == 0 then 0
    else if keyOf(rows[0]) == k then 0
    else 1 + FirstPos(rows[1..], keyOf, k)
  }

  /** Filing a row in insertion order keeps the keys in place and appends a
      new key at the end. */
  lemma {:induction false} AddRowAppends<K, R>(groups: seq<Group<K, R>>, r: R, keyOf: R -> K)
    ensures var res := AddRow(groups, r, keyOf, InsertionOrder);
      && |res| == |groups| + (if keyOf(r) in Keys(groups) then 0 else 1)
      && (forall i :: 0 <= i < |groups| ==> res[i].key == groups[i].key)
      && (keyOf(r) !in Keys(groups) ==> res[|groups|].key == keyOf(r))
    decreases |groups|
  {
    if |groups| > 0 && groups[0].key != keyOf(r) {
      var rest := groups[1..];
      AddRowAppends(rest, r, keyOf);
      assert groups == [groups[0]] + rest;
      KeysCons(groups[0], rest);
    }
  }

  /** A first position within the rows before the last stays the same. */
  lemma FirstPosSnoc<K, R>(rows: seq<R>, keyOf: R -> K, k: K)
    requires |rows| > 0
    ensures var init := rows[..|rows| - 1];
      && (FirstPos(init, keyOf, k) < |init| ==> FirstPos(rows, keyOf, k) == FirstPos(init, keyOf, k))
      && (FirstPos(init, keyOf, k) == |init| && keyOf(rows[|rows| - 1]) == k ==> FirstPos(rows, keyOf, k) == |init|)
  {
    var init := rows[..|rows| - 1];
    var p := FirstPos(init, keyOf, k);
    if p < |init| {
      assert rows[p] == init[p];
    }
  }

  /** `unique()` and dict insertion order: every group's key occurs in the
      rows, and the groups are ordered by the first row of each key. */
  lemma {:induction false} GroupByFirstAppearance<K(!new), R>(rows: seq<R>, keyOf: R -> K)
    ensures forall i :: 0 <= i < |GroupBy(rows, keyOf, InsertionOrder)| ==>
      FirstPos(rows, keyOf, GroupBy(rows, keyOf, InsertionOrder)[i].key) < |rows|
    ensures forall i, j :: 0 <= i < j < |GroupBy(rows, keyOf, InsertionOrder)| ==>
      FirstPos(rows, keyOf, GroupBy(rows, keyOf, InsertionOrder)[i].key)
        < FirstPos(rows, keyOf, GroupBy(rows, keyOf, InsertionOrder)[j].key)
    decreases |rows|
  {
    if |rows| > 0 {
      var init := rows[..|rows| - 1];
      var last := rows[|rows| - 1];
      var gi := GroupBy(init, keyOf, InsertionOrder);
      var g := GroupBy(rows, keyOf, InsertionOrder);
      GroupByFirstAppearance(init, keyOf);
      assert g == AddRow(gi, last, keyOf, InsertionOrder);
      AddRowAppends(gi, last, keyOf);
      forall i | 0 <= i < |gi| ensures FirstPos(rows, keyOf, g[i].key) == FirstPos(init, keyOf, gi[i].key) {
        assert g[i].key == gi[i].key;
        assert FirstPos(init, keyOf, gi[i].key) < |init|;
        FirstPosSnoc(rows, keyOf, gi[i].key);
      }
      if keyOf(last) !in Keys(gi) {
        InsertionOrderIsStrict<K>();
        GroupByWellFormed(init, keyOf, InsertionOrder);
        FirstPosSnoc(rows, keyOf, keyOf(last));
      }
    }
  }
}
