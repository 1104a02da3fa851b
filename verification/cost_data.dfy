/** The cost table every analysis reads: one record per day, service and
    region with its cost and usage, and the daily series obtained from it by
    pandas' `groupby("date")[column].sum()`.  Days are day numbers, so
    "last day + i" is plain addition. */
module CostData {
  import opened Common
  import opened Grouping
  import Text

  datatype CostRecord = CostRecord(date: int, service: string, region: string, cost: real, usage: real)

  function DateOf(r: CostRecord): int { r.date }
  function ServiceOf(r: CostRecord): string { r.service }
  function CostOf(r: CostRecord): real { r.cost }
  function UsageOf(r: CostRecord): real { r.usage }

  predicate DayBefore(a: int, b: int) { a < b }

  lemma DayOrder()
    ensures StrictTotalOrder(DayBefore)
  {
  }

  /** pandas orders string group keys as Python's `<` does. */
  lemma ServiceOrder()
    ensures StrictTotalOrder(Text.LexLess)
  {
    forall a ensures !Text.LexLess(a, a) {
      Text.LexLessIrreflexive(a);
    }
    forall a, b, c | Text.LexLess(a, b) && Text.LexLess(b, c) ensures Text.LexLess(a, c) {
      Text.LexLessTransitive(a, b, c);
    }
    forall a, b | a != b ensures Text.LexLess(a, b) || Text.LexLess(b, a) {
      Text.LexLessTotal(a, b);
    }
  }

  /** One entry of a daily series: the day and the column's total over it. */
  datatype Day = Day(date: int, total: real)

  function DateGroups(records: seq<CostRecord>): seq<Group<int, CostRecord>>
  {
    GroupBy(records, DateOf, DayBefore)
  }

  function DayTotals(groups: seq<Group<int, CostRecord>>, column: CostRecord -> real): seq<Day>
  {
    seq(|groups|, i requires 0 <= i < |groups| => Day(groups[i].key, SumBy(groups[i].rows, column)))
  }

  /** `records.groupby("date")[column].sum()`: one entry per distinct day, in
      ascending day order. */
  function Daily(records: seq<CostRecord>, column: CostRecord -> real): (days: seq<Day>)
    ensures |days| == 0 <==> |records| == 0
  {
    GroupByNonEmpty(records, DateOf, DayBefore);
    DayTotals(DateGroups(records), column)
  }

  function Totals(days: seq<Day>): seq<real>
  {
    seq(|days|, i requires 0 <= i < |days| => days[i].total)
  }

  ghost predicate StrictlyIncreasingDates(days: seq<Day>)
  {
    forall i, j :: 0 <= i < j < |days| ==> days[i].date < days[j].date
  }

  /** The days of the series are strictly increasing, and they are exactly
      the table's dates. */
  lemma DailyShape(records: seq<CostRecord>, column: CostRecord -> real)
    ensures StrictlyIncreasingDates(Daily(records, column))
    ensures (set i | 0 <= i < |Daily(records, column)| :: Daily(records, column)[i].date)
         == (set i | 0 <= i < |records| :: records[i].date)
  {
    var groups := DateGroups(records);
    var days := Daily(records, column);
    DayOrder();
    GroupByAscending(records, DateOf, DayBefore);
    GroupByWellFormed(records, DateOf, DayBefore);
    forall x | x in Keys(groups) ensures x in (set i | 0 <= i < |days| :: days[i].date) {
      var i :| 0 <= i < |groups| && groups[i].key == x;
      assert days[i].date == x;
    }
    assert (set i | 0 <= i < |days| :: days[i].date) == Keys(groups);
    assert (set i | 0 <= i < |records| :: records[i].date)
        == (set i | 0 <= i < |records| :: DateOf(records[i]));
  }

  /** Each day of the series is the date of some record. */
  lemma DailyDateOccurs(records: seq<CostRecord>, column: CostRecord -> real, i: nat)
    requires i < |Daily(records, column)|
    ensures exists j :: 0 <= j < |records| && records[j].date == Daily(records, column)[i].date
  {
    var groups := DateGroups(records);
    DayOrder();
    GroupByWellFormed(records, DateOf, DayBefore);
    assert groups[i].key in Keys(groups);
  }

  /** Each day's total is the column summed over that day's records. */
  lemma DailyTotalAt(records: seq<CostRecord>, column: CostRecord -> real, i: nat)
    requires i < |Daily(records, column)|
    ensures Daily(records, column)[i].total
         == SumBy(RowsWithKey(records, DateOf, Daily(records, column)[i].date), column)
  {
    var groups := DateGroups(records);
    DayOrder();
    GroupByWellFormed(records, DateOf, DayBefore);
    LookupAt(groups, i);
    GroupByLookup(records, DateOf, DayBefore, groups[i].key);
  }

  lemma {:induction false} DayTotalsSum(groups: seq<Group<int, CostRecord>>, column: CostRecord -> real)
    ensures Sum(Totals(DayTotals(groups, column))) == GroupTotal(groups, column)
    decreases |groups|
  {
    if |groups| > 0 {
      var all := Totals(DayTotals(groups, column));
      var rest := Totals(DayTotals(groups[1..], column));
      assert all == [all[0]] + rest;
      SumAppend([all[0]], rest);
      assert [all[0]][..0] == [];
      DayTotalsSum(groups[1..], column);
    }
  }

  /** Grouping by day neither loses nor double-counts: the daily totals add up
      to the column's total over the table. */
  lemma DailySum(records: seq<CostRecord>, column: CostRecord -> real)
    ensures Sum(Totals(Daily(records, column))) == SumBy(records, column)
  {
    DayTotalsSum(DateGroups(records), column);
    GroupByTotal(records, DateOf, DayBefore, column);
  }
}
