/** The batch analyses of `DataProcessor` (data_processor.py): cleaning raw
    records, the trend summary, z-score anomalies and the closed-form forecast
    over the daily series, the per-service distribution and summary
    statistics.  A `try`/`except` that turns a failure into `{}` or `[]` is an
    `Option` or an empty result here. */
module DataProcessor {
  import opened Common
  import opened CostData
  import opened Grouping
  import opened Stats
  import Sorting
  import Text

  // ---------------------------------------------------------------- process_cost_data

  /** A cost or usage cell before coercion: absent from the record, a value
      `pd.to_numeric` reads as a number, or one it cannot read. */
  datatype RawValue = Missing | Number(x: real) | Unparsable

  datatype RawRecord = RawRecord(date: int, service: string, region: string, cost: RawValue, usage: RawValue)

  /** `pd.to_numeric(..., errors="coerce").fillna(0)` on one cell. */
  function Coerce(v: RawValue): real
  {
    if v.Number? then v.x else 0.0
  }

  /** Some raw record carries a cost key, so the table has a `cost` column. */
  predicate HasCostColumn(raw: seq<RawRecord>)
  {
    exists i :: 0 <= i < |raw| && !raw[i].cost.Missing?
  }

  /** Some raw record carries a usage key, so the table has a `usage` column. */
  predicate HasUsageColumn(raw: seq<RawRecord>)
  {
    exists i :: 0 <= i < |raw| && !raw[i].usage.Missing?
  }

  /** Coerces the cost and usage columns; no row is added, dropped or moved,
      and every other column is kept.  When no record has a cost key, or none
      has a usage key, `df.get` yields the scalar 0, `pd.to_numeric(0)` is a
      scalar without `fillna`, and the handler returns the empty table. */
  method ProcessCostData(raw: seq<RawRecord>) returns (records: seq<CostRecord>)
    ensures !HasCostColumn(raw) || !HasUsageColumn(raw) ==> records == []
    ensures HasCostColumn(raw) && HasUsageColumn(raw) ==> |records| == |raw|
    ensures HasCostColumn(raw) && HasUsageColumn(raw) ==> forall i :: 0 <= i < |raw| ==>
      && records[i].date == raw[i].date
      && records[i].service == raw[i].service
      && records[i].region == raw[i].region
      && records[i].cost == (if raw[i].cost.Number? then raw[i].cost.x else 0.0)
      && records[i].usage == (if raw[i].usage.Number? then raw[i].usage.x else 0.0)
  {
    records := [];
    if !HasCostColumn(raw) || !HasUsageColumn(raw) {
      return;
    }
    var i := 0;
    while i < |raw|
      invariant 0 <= i <= |raw| && |records| == i
      invariant forall j :: 0 <= j < i ==>
        records[j] == CostRecord(raw[j].date, raw[j].service, raw[j].region, Coerce(raw[j].cost), Coerce(raw[j].usage))
    {
      var r := raw[i];
      records := records + [CostRecord(r.date, r.service, r.region, Coerce(r.cost), Coerce(r.usage))];
      i := i + 1;
    }
  }

  // ---------------------------------------------------------------- calculate_trends

  datatype Direction = Increasing | Decreasing

  datatype Trends = Trends(
    trend: Direction,
    percentageChange: real,
    current: real,
    average: Option<real>,
    minimum: real,
    maximum: real)

  /** `rolling(window).mean().iloc[-1]`: the mean of the last `window` values,
      NaN (None) when the window is empty or longer than the series. */
  function RollingMean(xs: seq<real>, window: nat): Option<real>
  {
    if window == 0 || window > |xs| then None else Some(Mean(xs[|xs| - window..]))
  }

  /** The trend summary of a non-empty daily series; a negative window makes
      pandas raise, which the source turns into `{}`. */
  function TrendOf(xs: seq<real>, window: int): Option<Trends>
    requires |xs| > 0
  {
    if window < 0 then None
    else
      var first := xs[0];
      var last := xs[|xs| - 1];
      Some(Trends(
        if last > first then Increasing else Decreasing,
        if first != 0.0 then (last - first) / first * 100.0 else 0.0,
        last,
        RollingMean(xs, window),
        MinOf(xs),
        MaxOf(xs)))
  }

  function CalculateTrends(records: seq<CostRecord>, window: int): Option<Trends>
  {
    if |records| == 0 then None
    else TrendOf(Totals(Daily(records, CostOf)), window)
  }

  /** `{}` exactly for an empty table or a negative window. */
  lemma TrendsDefined(records: seq<CostRecord>, window: int)
    ensures CalculateTrends(records, window).None? <==> |records| == 0 || window < 0
  {
  }

  /** The direction compares the last day with the first: equal ends read as
      decreasing.  The percentage change is relative to the first day, and is
      0 when the first day cost nothing. */
  lemma TrendDirection(xs: seq<real>, window: int)
    requires |xs| > 0 && window >= 0
    ensures var t := TrendOf(xs, window).value;
      && (t.trend == Increasing <==> xs[|xs| - 1] > xs[0])
      && (xs[0] != 0.0 ==> t.percentageChange * xs[0] == (xs[|xs| - 1] - xs[0]) * 100.0)
      && (xs[0] == 0.0 ==> t.percentageChange == 0.0)
      && (xs[0] > 0.0 ==> (t.percentageChange > 0.0 <==> t.trend == Increasing))
  {
    var first := xs[0];
    var last := xs[|xs| - 1];
    if first > 0.0 {
      var q := (last - first) / first;
      assert q * first == last - first;
      if last > first {
        MulPositive(q * 100.0, first);
      } else if q > 0.0 {
        MulPositive(q, first);
      }
    }
  }

  /** The current day lies between the cheapest and the dearest day, and so
      does the rolling average when it is defined. */
  lemma TrendBounds(xs: seq<real>, window: int)
    requires |xs| > 0 && window >= 0
    ensures var t := TrendOf(xs, window).value;
      && t.minimum <= t.current <= t.maximum
      && (t.average.Some? ==> t.minimum <= t.average.value <= t.maximum)
      && (t.average.Some? <==> 0 < window <= |xs|)
  {
    if 0 < window <= |xs| {
      var tail := xs[|xs| - window..];
      forall i | 0 <= i < |tail| ensures MinOf(xs) <= tail[i] <= MaxOf(xs) {
        assert tail[i] == xs[|xs| - window + i];
      }
      MeanBounds(tail, MinOf(xs), MaxOf(xs));
    }
  }

  /** Three days costing 100, 90 and 80 read as a 20% decrease; a seven-day
      window is longer than the series, so there is no rolling average. */
  lemma TrendExample()
    ensures var t := TrendOf([100.0, 90.0, 80.0], 7);
      t.Some? && t.value.trend == Decreasing && t.value.percentageChange == -20.0
        && t.value.current == 80.0 && t.value.average.None?
        && t.value.minimum == 80.0 && t.value.maximum == 100.0
  {
    var xs := [100.0, 90.0, 80.0];
    assert xs[..2] == [100.0, 90.0] && xs[..2][..1] == [100.0];
  }

  // ---------------------------------------------------------------- identify_anomalies

  datatype ZAnomaly = ZAnomaly(date: int, cost: real, zScore: real, deviation: real)

  /** `abs((cost - mean) / std) if std != 0 else 0` with pandas' sample
      standard deviation `std`, which exists for two or more days. */
  function SampleZ(x: real, xs: seq<real>, sqrt: real -> real): real
    requires |xs| >= 2
  {
    var s := sqrt(SampleVar(xs));
    if s != 0.0 then Abs((x - Mean(xs)) / s) else 0.0
  }

  /** Whether a day's cost is reported.  With one day the standard deviation
      is NaN, so is the z-score, and no comparison with NaN holds. */
  predicate ZFlagged(x: real, xs: seq<real>, threshold: real, sqrt: real -> real)
  {
    |xs| >= 2 && SampleZ(x, xs, sqrt) > threshold
  }

  /** The percentage by which a cost departs from the mean, 0 for a zero mean. */
  function Deviation(x: real, m: real): real
  {
    if m != 0.0 then (x - m) / m * 100.0 else 0.0
  }

  function ZEntry(d: Day, xs: seq<real>, sqrt: real -> real): ZAnomaly
    requires |xs| >= 2
  {
    ZAnomaly(d.date, d.total, SampleZ(d.total, xs, sqrt), Deviation(d.total, Mean(xs)))
  }

  /** The reported days among `days`, in order, judged against the statistics
      of `xs`. */
  function ZAnomaliesOf(days: seq<Day>, xs: seq<real>, threshold: real, sqrt: real -> real): seq<ZAnomaly>
  {
    if |days| == 0 then []
    else
      var d := days[|days| - 1];
      ZAnomaliesOf(days[..|days| - 1], xs, threshold, sqrt)
        + (if ZFlagged(d.total, xs, threshold, sqrt) then [ZEntry(d, xs, sqrt)] else [])
  }

  /** What `identify_anomalies` reports for a table. */
  function Anomalies(records: seq<CostRecord>, threshold: real, sqrt: real -> real): seq<ZAnomaly>
  {
    var days := Daily(records, CostOf);
    ZAnomaliesOf(days, Totals(days), threshold, sqrt)
  }

  /** The loop of `identify_anomalies` over the daily series. */
  method IdentifyAnomalies(records: seq<CostRecord>, threshold: real, sqrt: real -> real)
    returns (anomalies: seq<ZAnomaly>)
    ensures anomalies == Anomalies(records, threshold, sqrt)
  {
    anomalies := [];
    if |records| == 0 {
      return;
    }
    var days := Daily(records, CostOf);
    var xs := Totals(days);
    var i := 0;
    while i < |days|
      invariant 0 <= i <= |days|
      invariant anomalies == ZAnomaliesOf(days[..i], xs, threshold, sqrt)
    {
      var d := days[i];
      if ZFlagged(d.total, xs, threshold, sqrt) {
        anomalies := anomalies + [ZEntry(d, xs, sqrt)];
      }
      assert days[..i + 1][..i] == days[..i];
      i := i + 1;
    }
    assert days[..i] == days;
  }

  /** Every reported anomaly is the entry of a flagged day. */
  lemma {:induction false} ZAnomaliesSound(days: seq<Day>, xs: seq<real>, threshold: real, sqrt: real -> real)
    ensures forall a :: a in ZAnomaliesOf(days, xs, threshold, sqrt) ==>
      exists i :: 0 <= i < |days| && ZFlagged(days[i].total, xs, threshold, sqrt) && a == ZEntry(days[i], xs, sqrt)
    decreases |days|
  {
    if |days| > 0 {
      var k := |days| - 1;
      ZAnomaliesSound(days[..k], xs, threshold, sqrt);
      forall a | a in ZAnomaliesOf(days, xs, threshold, sqrt)
        ensures exists i :: 0 <= i < |days| && ZFlagged(days[i].total, xs, threshold, sqrt) && a == ZEntry(days[i], xs, sqrt)
      {
        if a in ZAnomaliesOf(days[..k], xs, threshold, sqrt) {
          var i :| 0 <= i < k && ZFlagged(days[..k][i].total, xs, threshold, sqrt) && a == ZEntry(days[..k][i], xs, sqrt);
          assert days[..k][i] == days[i];
        } else {
          assert ZFlagged(days[k].total, xs, threshold, sqrt) && a == ZEntry(days[k], xs, sqrt);
        }
      }
    }
  }

  /** Every flagged day is reported. */
  lemma {:induction false} ZAnomaliesComplete(days: seq<Day>, xs: seq<real>, threshold: real, sqrt: real -> real, i: nat)
    requires i < |days| && ZFlagged(days[i].total, xs, threshold, sqrt)
    ensures ZEntry(days[i], xs, sqrt) in ZAnomaliesOf(days, xs, threshold, sqrt)
    decreases |days|
  {
    var k := |days| - 1;
    if i < k {
      ZAnomaliesComplete(days[..k], xs, threshold, sqrt, i);
    }
  }

  ghost predicate ZDatesIncreasing(r: seq<ZAnomaly>)
  {
    forall j, k :: 0 <= j < k < |r| ==> r[j].date < r[k].date
  }

  /** Anomalies keep the order of the series: strictly increasing dates. */
  lemma {:induction false} ZAnomaliesOrdered(days: seq<Day>, xs: seq<real>, threshold: real, sqrt: real -> real)
    requires StrictlyIncreasingDates(days)
    ensures ZDatesIncreasing(ZAnomaliesOf(days, xs, threshold, sqrt))
    decreases |days|
  {
    if |days| > 0 {
      var k := |days| - 1;
      var front := ZAnomaliesOf(days[..k], xs, threshold, sqrt);
      ZAnomaliesOrdered(days[..k], xs, threshold, sqrt);
      ZAnomaliesSound(days[..k], xs, threshold, sqrt);
      forall a | a in front ensures a.date < days[k].date {
        var i :| 0 <= i < k && a == ZEntry(days[..k][i], xs, sqrt);
        assert days[..k][i] == days[i];
      }
      var r := ZAnomaliesOf(days, xs, threshold, sqrt);
      forall j, l | 0 <= j < l < |r| ensures r[j].date < r[l].date {
        if l < |front| {
          assert r[j] == front[j] && r[l] == front[l];
        } else {
          assert ZFlagged(days[k].total, xs, threshold, sqrt);
          assert r == front + [ZEntry(days[k], xs, sqrt)];
          assert r[j] == front[j] && r[j] in front;
          assert r[l] == ZEntry(days[k], xs, sqrt);
        }
      }
    }
  }

  lemma {:induction false} ZAnomaliesNone(days: seq<Day>, xs: seq<real>, threshold: real, sqrt: real -> real)
    requires forall x :: !ZFlagged(x, xs, threshold, sqrt)
    ensures ZAnomaliesOf(days, xs, threshold, sqrt) == []
    decreases |days|
  {
    if |days| > 0 {
      ZAnomaliesNone(days[..|days| - 1], xs, threshold, sqrt);
    }
  }

  /** With a true square root and a non-negative threshold, the z-score test
      is the squared test: never for a zero variance, otherwise
      (x - mean)² > threshold² · variance. */
  lemma SampleZTest(x: real, xs: seq<real>, threshold: real, sqrt: real -> real)
    requires |xs| >= 2 && threshold >= 0.0
    requires sqrt(SampleVar(xs)) >= 0.0 && sqrt(SampleVar(xs)) * sqrt(SampleVar(xs)) == SampleVar(xs)
    ensures ZFlagged(x, xs, threshold, sqrt) <==>
      SampleVar(xs) != 0.0 && (x - Mean(xs)) * (x - Mean(xs)) > threshold * threshold * SampleVar(xs)
  {
    var s := sqrt(SampleVar(xs));
    var d := x - Mean(xs);
    if s != 0.0 {
      assert Abs(d / s) == Abs(d) / s;
      SquaredZTest(x, Mean(xs), s, threshold);
    }
  }

  /** A series of one day, or a constant series under a non-negative
      threshold, has no anomalies. */
  lemma NoZAnomalies(days: seq<Day>, xs: seq<real>, c: real, threshold: real, sqrt: real -> real)
    requires |xs| < 2 || (threshold >= 0.0 && sqrt(0.0) == 0.0 && forall i :: 0 <= i < |xs| ==> xs[i] == c)
    ensures ZAnomaliesOf(days, xs, threshold, sqrt) == []
  {
    if |xs| >= 2 {
      ConstantSeries(xs, c);
    }
    ZAnomaliesNone(days, xs, threshold, sqrt);
  }

  // ---------------------------------------------------------------- forecast_costs

  datatype Forecast = Forecast(date: int, forecastedCost: real)

  function Max0(x: real): real
  {
    if x > 0.0 then x else 0.0
  }

  /** The cost forecast `i` days after the last: the series mean moved by
      `slope · i` and floored at 0.  With a single day the slope is 0/0, NaN
      in NumPy, and `max(0, nan)` is 0. */
  function ForecastValue(xs: seq<real>, i: int): (v: real)
    requires |xs| > 0
    ensures v >= 0.0
    ensures |xs| == 1 ==> v == 0.0
  {
    DenominatorZeroIff(|xs|);
    if SlopeDenominator(|xs|) == 0.0 then 0.0 else TrendValue(Mean(xs), Slope(xs), i)
  }

  /** `max(0, avg_cost + slope * i)`. */
  function TrendValue(m: real, slope: real, i: int): real
  {
    Max0(m + slope * i as real)
  }

  /** The loop of `forecast_costs`: one entry per day 1 .. days_ahead after
      the last day of the series. */
  method ForecastCosts(records: seq<CostRecord>, daysAhead: int) returns (forecast: seq<Forecast>)
    ensures |records| == 0 || daysAhead <= 0 ==> forecast == []
    ensures |records| > 0 ==> var days := Daily(records, CostOf);
      && |forecast| == (if daysAhead > 0 then daysAhead else 0)
      && forall k :: 0 <= k < |forecast| ==>
           forecast[k] == Forecast(days[|days| - 1].date + k + 1, ForecastValue(Totals(days), k + 1))
  {
    forecast := [];
    if |records| == 0 {
      return;
    }
    var days := Daily(records, CostOf);
    var xs := Totals(days);
    var lastDate := days[|days| - 1].date;
    var i := 1;
    while i <= daysAhead
      invariant 1 <= i <= (if daysAhead > 0 then daysAhead else 0) + 1
      invariant |forecast| == i - 1
      invariant forall k :: 0 <= k < |forecast| ==> forecast[k] == Forecast(lastDate + k + 1, ForecastValue(xs, k + 1))
    {
      forecast := forecast + [Forecast(lastDate + i, ForecastValue(xs, i))];
      i := i + 1;
    }
  }

  /** For a series lying exactly on a line of slope b, the slope is recovered
      and the forecast is the series mean moved by b per day: the line is
      anchored at the mean, which sits at the centre of the series (see
      `MeanOnLine`), not at its last day. */
  lemma ForecastOnLine(xs: seq<real>, a: real, b: real, i: int)
    requires |xs| >= 2 && OnLine(xs, a, b)
    ensures ForecastValue(xs, i) == Max0(Mean(xs) + b * i as real)
  {
    DenominatorZeroIff(|xs|);
    ExactLineSlope(xs, a, b);
  }

  /** The mean of a series on the line a + b·t is the line's value at the
      centre (n - 1)/2. */
  lemma MeanOnLine(xs: seq<real>, a: real, b: real)
    requires |xs| > 0 && OnLine(xs, a, b)
    ensures Mean(xs) == a + b * ((|xs| as real - 1.0) / 2.0)
  {
    LineSum(xs, a, b);
    IndexSumClosed(|xs|);
    MeanOfLine(|xs| as real, IndexSum(|xs|), Sum(xs), a, b);
  }

  lemma MeanOfLine(n: real, s1: real, sy: real, a: real, b: real)
    requires n > 0.0 && sy == n * a + b * s1 && 2.0 * s1 == n * (n - 1.0)
    ensures sy / n == a + b * ((n - 1.0) / 2.0)
  {
    assert b * s1 == n * (b * ((n - 1.0) / 2.0));
    assert sy == n * (a + b * ((n - 1.0) / 2.0));
  }

  // ---------------------------------------------------------------- analyze_service_distribution

  datatype ServiceShare = ServiceShare(
    service: string,
    totalCost: real,
    averageCost: real,
    percentage: real,
    usageCount: nat)

  function TotalCostOf(s: ServiceShare): real { s.totalCost }
  function PercentageOf(s: ServiceShare): real { s.percentage }
  function UsageCountOf(s: ServiceShare): real { s.usageCount as real }

  /** `groupby("service")`: one group per service, in string order. */
  function ServiceGroups(records: seq<CostRecord>): seq<Group<string, CostRecord>>
  {
    GroupBy(records, ServiceOf, Text.LexLess)
  }

  /** `total_cost / total * 100 if total > 0 else 0`. */
  function Percent(part: real, whole: real): real
  {
    if whole > 0.0 then part / whole * 100.0 else 0.0
  }

  /** One row of the aggregated table: the sum, mean and count of the
      service's costs, and its share of `grand`. */
  function Share(g: Group<string, CostRecord>, grand: real): ServiceShare
  {
    var total := SumBy(g.rows, CostOf);
    ServiceShare(
      g.key,
      total,
      if |g.rows| > 0 then total / |g.rows| as real else 0.0,
      Percent(total, grand),
      |g.rows|)
  }

  function ShareTable(groups: seq<Group<string, CostRecord>>, grand: real): seq<ServiceShare>
  {
    seq(|groups|, i requires 0 <= i < |groups| => Share(groups[i], grand))
  }

  /** The aggregated table, percentages against the sum of the service
      totals, sorted by total cost, largest first. */
  function ServiceDistribution(records: seq<CostRecord>): seq<ServiceShare>
  {
    var groups := ServiceGroups(records);
    Sorting.SortDesc(ShareTable(groups, GroupTotal(groups, CostOf)), TotalCostOf)
  }

  /** The loop of `analyze_service_distribution` over the sorted table. */
  method AnalyzeServiceDistribution(records: seq<CostRecord>) returns (result: seq<ServiceShare>)
    ensures result == ServiceDistribution(records)
  {
    result := [];
    if |records| == 0 {
      assert ServiceGroups(records) == [];
      return;
    }
    var table := ServiceDistribution(records);
    var i := 0;
    while i < |table|
      invariant 0 <= i <= |table| && result == table[..i]
    {
      var row := table[i];
      result := result + [ServiceShare(row.service, row.totalCost, row.averageCost, row.percentage, row.usageCount)];
      assert table[..i + 1] == table[..i] + [table[i]];
      i := i + 1;
    }
    assert table[..i] == table;
  }

  /** The distribution is the aggregated table, reordered. */
  lemma DistributionIsTable(records: seq<CostRecord>)
    ensures var groups := ServiceGroups(records);
      var table := ShareTable(groups, GroupTotal(groups, CostOf));
      var r := ServiceDistribution(records);
      && |r| == |table|
      && multiset(r) == multiset(table)
      && Sorting.NonIncreasing(r, TotalCostOf)
  {
    var groups := ServiceGroups(records);
    Sorting.SortDescProperties(ShareTable(groups, GroupTotal(groups, CostOf)), TotalCostOf);
  }

  /** Each row comes from one service group. */
  lemma DistributionRowFrom(records: seq<CostRecord>, j: nat)
    requires j < |ServiceDistribution(records)|
    ensures var groups := ServiceGroups(records);
      exists a :: 0 <= a < |groups| && ServiceDistribution(records)[j] == Share(groups[a], GroupTotal(groups, CostOf))
  {
    var groups := ServiceGroups(records);
    var table := ShareTable(groups, GroupTotal(groups, CostOf));
    var r := ServiceDistribution(records);
    DistributionIsTable(records);
    assert r[j] in multiset(table);
    var a :| 0 <= a < |table| && table[a] == r[j];
  }

  /** No service has two rows. */
  lemma DistributionDistinct(records: seq<CostRecord>)
    ensures var r := ServiceDistribution(records);
      forall j, k :: 0 <= j < k < |r| ==> r[j].service != r[k].service
  {
    var groups := ServiceGroups(records);
    var table := ShareTable(groups, GroupTotal(groups, CostOf));
    var r := ServiceDistribution(records);
    ServiceOrder();
    GroupByWellFormed(records, ServiceOf, Text.LexLess);
    DistributionIsTable(records);
    assert Distinct(table) by {
      forall a, b | 0 <= a < b < |table| ensures table[a] != table[b] {
        assert table[a].service == groups[a].key;
      }
    }
    PermutationDistinct(r, table);
    forall j, k | 0 <= j < k < |r| ensures r[j].service != r[k].service {
      DistributionRowFrom(records, j);
      DistributionRowFrom(records, k);
      var a :| 0 <= a < |groups| && r[j] == Share(groups[a], GroupTotal(groups, CostOf));
      var b :| 0 <= b < |groups| && r[k] == Share(groups[b], GroupTotal(groups, CostOf));
      assert a != b;
    }
  }

  /** The rows name exactly the services that occur in the table. */
  lemma DistributionCoversServices(records: seq<CostRecord>)
    ensures var r := ServiceDistribution(records);
      (set j | 0 <= j < |r| :: r[j].service) == (set j | 0 <= j < |records| :: records[j].service)
  {
    var groups := ServiceGroups(records);
    var table := ShareTable(groups, GroupTotal(groups, CostOf));
    var r := ServiceDistribution(records);
    ServiceOrder();
    GroupByWellFormed(records, ServiceOf, Text.LexLess);
    DistributionIsTable(records);
    var inRecords := set j | 0 <= j < |records| :: records[j].service;
    var inResult := set j | 0 <= j < |r| :: r[j].service;
    assert inRecords == Keys(groups) by {
      assert inRecords == set j | 0 <= j < |records| :: ServiceOf(records[j]);
    }
    forall x | x in Keys(groups) ensures x in inResult {
      var a :| 0 <= a < |groups| && groups[a].key == x;
      assert table[a] in multiset(r);
      var j :| 0 <= j < |r| && r[j] == table[a];
    }
    forall x | x in inResult ensures x in Keys(groups) {
      var j :| 0 <= j < |r| && r[j].service == x;
      DistributionRowFrom(records, j);
    }
  }

  /** Percentages of one whole add up like their parts. */
  lemma PercentAdd(a: real, b: real, whole: real)
    ensures Percent(a, whole) + Percent(b, whole) == Percent(a + b, whole)
  {
    if whole > 0.0 {
      assert a / whole + b / whole == (a + b) / whole;
    }
  }

  lemma PercentOfWhole(whole: real)
    requires whole > 0.0
    ensures Percent(whole, whole) == 100.0
  {
    assert whole / whole == 1.0;
  }

  /** The rows' percentages add up to the percentage of the groups' total. */
  lemma {:induction false} SharePercentSum(groups: seq<Group<string, CostRecord>>, grand: real)
    ensures SumBy(ShareTable(groups, grand), PercentageOf) == Percent(GroupTotal(groups, CostOf), grand)
    decreases |groups|
  {
    if |groups| > 0 {
      ShareTableSplit(groups, grand, PercentageOf);
      SharePercentSum(groups[1..], grand);
      PercentAdd(SumBy(groups[0].rows, CostOf), GroupTotal(groups[1..], CostOf), grand);
    } else {
      assert ShareTable(groups, grand) == [];
    }
  }

  /** Splits a sum over the table into its first row and the rest. */
  lemma ShareTableSplit(groups: seq<Group<string, CostRecord>>, grand: real, f: ServiceShare -> real)
    requires |groups| > 0
    ensures SumBy(ShareTable(groups, grand), f)
         == f(Share(groups[0], grand)) + SumBy(ShareTable(groups[1..], grand), f)
  {
    var head := Share(groups[0], grand);
    var rest := ShareTable(groups[1..], grand);
    assert ShareTable(groups, grand) == [head] + rest;
    SumByAppend([head], rest, f);
    SumBySingle(head, f);
  }

  /** When the services' total is positive the percentages add up to 100;
      otherwise every percentage is 0.  The total is the sum of all costs. */
  lemma DistributionPercentages(records: seq<CostRecord>)
    ensures var groups := ServiceGroups(records);
      var r := ServiceDistribution(records);
      && GroupTotal(groups, CostOf) == SumBy(records, CostOf)
      && (SumBy(records, CostOf) > 0.0 ==> SumBy(r, PercentageOf) == 100.0)
      && (SumBy(records, CostOf) <= 0.0 ==> forall j :: 0 <= j < |r| ==> r[j].percentage == 0.0)
  {
    var groups := ServiceGroups(records);
    var grand := GroupTotal(groups, CostOf);
    var table := ShareTable(groups, grand);
    var r := ServiceDistribution(records);
    GroupByTotal(records, ServiceOf, Text.LexLess, CostOf);
    DistributionIsTable(records);
    if grand > 0.0 {
      SumByPermutation(r, table, PercentageOf);
      SharePercentSum(groups, grand);
      PercentOfWhole(grand);
    } else {
      forall j | 0 <= j < |r| ensures r[j].percentage == 0.0 {
        DistributionRowFrom(records, j);
      }
    }
  }

  lemma {:induction false} ShareCountSum(groups: seq<Group<string, CostRecord>>, grand: real)
    ensures SumBy(ShareTable(groups, grand), UsageCountOf) == RowCount(groups) as real
    decreases |groups|
  {
    if |groups| > 0 {
      ShareTableSplit(groups, grand, UsageCountOf);
      ShareCountSum(groups[1..], grand);
    }
  }

  /** The usage counts add up to the number of records. */
  lemma DistributionCounts(records: seq<CostRecord>)
    ensures SumBy(ServiceDistribution(records), UsageCountOf) == |records| as real
  {
    var groups := ServiceGroups(records);
    var table := ShareTable(groups, GroupTotal(groups, CostOf));
    DistributionIsTable(records);
    SumByPermutation(ServiceDistribution(records), table, UsageCountOf);
    ShareCountSum(groups, GroupTotal(groups, CostOf));
    GroupByCount(records, ServiceOf, Text.LexLess);
  }

  /** A row's figures are those of the records of its service: their cost
      sum, their number, and the mean cost. */
  lemma DistributionRow(records: seq<CostRecord>, j: nat)
    requires j < |ServiceDistribution(records)|
    ensures var row := ServiceDistribution(records)[j];
      var mine := RowsWithKey(records, ServiceOf, row.service);
      && row.totalCost == SumBy(mine, CostOf)
      && row.usageCount == |mine| > 0
      && row.averageCost == row.totalCost / row.usageCount as real
  {
    var groups := ServiceGroups(records);
    DistributionRowFrom(records, j);
    var a :| 0 <= a < |groups| && ServiceDistribution(records)[j] == Share(groups[a], GroupTotal(groups, CostOf));
    ServiceOrder();
    GroupByWellFormed(records, ServiceOf, Text.LexLess);
    LookupAt(groups, a);
    GroupByLookup(records, ServiceOf, Text.LexLess, groups[a].key);
  }

  // ---------------------------------------------------------------- generate_summary_stats

  datatype Summary = Summary(
    totalCost: real,
    averageCost: real,
    minCost: real,
    maxCost: real,
    stdDev: Option<real>,
    totalUsage: real,
    recordCount: nat,
    start: int,
    end: int)

  /** The earliest and the latest date of a non-empty table. */
  function DateRange(records: seq<CostRecord>): (r: (int, int))
    requires |records| > 0
    ensures exists i :: 0 <= i < |records| && records[i].date == r.0
    ensures exists i :: 0 <= i < |records| && records[i].date == r.1
    ensures forall i :: 0 <= i < |records| ==> r.0 <= records[i].date <= r.1
  {
    if |records| == 1 then (records[0].date, records[0].date)
    else
      var (lo, hi) := DateRange(records[..|records| - 1]);
      var d := records[|records| - 1].date;
      (if d < lo then d else lo, if d > hi then d else hi)
  }

  /** The statistics of a non-empty table; the sample standard deviation of
      a single record is pandas' NaN, here `None`. */
  function SummaryOf(records: seq<CostRecord>, sqrt: real -> real): Summary
    requires |records| > 0
  {
    var costs := Column(records, CostOf);
    var range := DateRange(records);
    Summary(Sum(costs), Mean(costs), MinOf(costs), MaxOf(costs),
      if |costs| >= 2 then Some(sqrt(SampleVar(costs))) else None,
      Sum(Column(records, UsageOf)), |records|, range.0, range.1)
  }

  /** `generate_summary_stats`: `{}` for an empty table. */
  function SummaryStats(records: seq<CostRecord>, sqrt: real -> real): Option<Summary>
  {
    if |records| == 0 then None else Some(SummaryOf(records, sqrt))
  }

  /** The totals are the column sums, the cost total is also the sum of the
      daily series, and every record is counted. */
  lemma SummaryTotals(records: seq<CostRecord>, sqrt: real -> real)
    requires |records| > 0
    ensures var s := SummaryOf(records, sqrt);
      && s.totalCost == SumBy(records, CostOf) == Sum(Totals(Daily(records, CostOf)))
      && s.totalUsage == SumBy(records, UsageOf)
      && s.recordCount == |records|
  {
    SumColumn(records, CostOf);
    SumColumn(records, UsageOf);
    DailySum(records, CostOf);
  }

  /** The mean cost lies between the cheapest and the dearest record, the
      date range is ordered, and the deviation is defined from two records on. */
  lemma SummaryBounds(records: seq<CostRecord>, sqrt: real -> real)
    requires |records| > 0
    ensures var s := SummaryOf(records, sqrt);
      && s.minCost <= s.averageCost <= s.maxCost
      && s.start <= s.end
      && (s.stdDev.Some? <==> |records| >= 2)
  {
    MeanBetweenMinMax(Column(records, CostOf));
  }
}
