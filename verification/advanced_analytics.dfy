/** The static analyses of `AdvancedAnalytics` (advanced_analytics.py): the
    z-score and IQR anomaly detectors, cost elasticity, the least-squares
    forecast with a confidence band, cost-driver ranking, ROI, scenario
    comparison and unit economics.  Square roots and the normal quantile
    function are parameters; everything else is exact arithmetic on reals. */
module AdvancedAnalytics {
  import opened Common
  import opened CostData
  import opened Grouping
  import opened Stats
  import Sorting
  import Text
  import DataProcessor

  // ---------------------------------------------------------------- detect_cost_anomalies_advanced

  /** The rule a detection method applies.  "zscore" and "iqr" name their
      rule; any other name asks for IsolationForest, and with scikit-learn
      absent the source falls back to the IQR rule. */
  datatype Rule = ZScoreRule | IqrRule

  function RuleFor(methodName: string): Rule
  {
    if methodName == "zscore" then ZScoreRule else IqrRule
  }

  /** `abs(stats.zscore(costs)) > 3`: SciPy divides by the population
      standard deviation; when that is 0 every z-score is NaN and no
      comparison with NaN holds. */
  predicate ZScoreOutlier(x: real, xs: seq<real>, sqrt: real -> real)
    requires |xs| > 0
  {
    var s := sqrt(PopVar(xs));
    s != 0.0 && Abs((x - Mean(xs)) / s) > 3.0
  }

  /** Q1 - 1.5·IQR with NumPy's interpolated quartiles. */
  function LowerFence(xs: seq<real>): real
    requires |xs| > 0
  {
    var q1 := Percentile(xs, 25);
    var q3 := Percentile(xs, 75);
    q1 - 1.5 * (q3 - q1)
  }

  /** Q3 + 1.5·IQR. */
  function UpperFence(xs: seq<real>): real
    requires |xs| > 0
  {
    var q1 := Percentile(xs, 25);
    var q3 := Percentile(xs, 75);
    q3 + 1.5 * (q3 - q1)
  }

  predicate IqrOutlier(x: real, xs: seq<real>)
    requires |xs| > 0
  {
    x < LowerFence(xs) || x > UpperFence(xs)
  }

  predicate Outlier(rule: Rule, x: real, xs: seq<real>, sqrt: real -> real)
    requires |xs| > 0
  {
    match rule
    case ZScoreRule => ZScoreOutlier(x, xs, sqrt)
    case IqrRule => IqrOutlier(x, xs)
  }

  datatype Severity = High | Medium

  /** One reported day; `methodName` is the name the caller asked for. */
  datatype Anomaly = Anomaly(date: int, cost: real, methodName: string, severity: Severity)

  /** "high" when the day costs more than half as much again as the mean day. */
  function SeverityOf(x: real, xs: seq<real>): Severity
    requires |xs| > 0
  {
    if x > Mean(xs) * 1.5 then High else Medium
  }

  function AnomalyEntry(d: Day, xs: seq<real>, methodName: string): Anomaly
    requires |xs| > 0
  {
    Anomaly(d.date, d.total, methodName, SeverityOf(d.total, xs))
  }

  /** The reported days among `days`, in order, judged against `xs`. */
  function AnomaliesOf(days: seq<Day>, xs: seq<real>, methodName: string, sqrt: real -> real): seq<Anomaly>
    requires |xs| > 0
  {
    if |days| == 0 then []
    else
      var d := days[|days| - 1];
      AnomaliesOf(days[..|days| - 1], xs, methodName, sqrt)
        + (if Outlier(RuleFor(methodName), d.total, xs, sqrt) then [AnomalyEntry(d, xs, methodName)] else [])
  }

  /** What `detect_cost_anomalies_advanced` reports for a table. */
  function AdvancedAnomalies(records: seq<CostRecord>, methodName: string, sqrt: real -> real): seq<Anomaly>
  {
    if |records| == 0 then []
    else
      var days := Daily(records, CostOf);
      AnomaliesOf(days, Totals(days), methodName, sqrt)
  }

  /** The loop that turns the flagged days into anomaly entries. */
  method DetectCostAnomaliesAdvanced(records: seq<CostRecord>, methodName: string, sqrt: real -> real)
    returns (anomalies: seq<Anomaly>)
    ensures |records| == 0 ==> anomalies == []
    ensures anomalies == AdvancedAnomalies(records, methodName, sqrt)
  {
    anomalies := [];
    if |records| == 0 {
      return;
    }
    var days := Daily(records, CostOf);
    var xs := Totals(days);
    var rule := RuleFor(methodName);
    var i := 0;
    while i < |days|
      invariant 0 <= i <= |days|
      invariant anomalies == AnomaliesOf(days[..i], xs, methodName, sqrt)
    {
      var d := days[i];
      if Outlier(rule, d.total, xs, sqrt) {
        anomalies := anomalies + [Anomaly(d.date, d.total, methodName, SeverityOf(d.total, xs))];
      }
      assert days[..i + 1][..i] == days[..i];
      i := i + 1;
    }
    assert days[..i] == days;
  }

  /** An entry is reported exactly when it belongs to a day the rule flags. */
  lemma {:induction false} AnomalyMembership(days: seq<Day>, xs: seq<real>, methodName: string, sqrt: real -> real, a: Anomaly)
    requires |xs| > 0
    ensures a in AnomaliesOf(days, xs, methodName, sqrt) <==>
      exists i :: 0 <= i < |days| && Outlier(RuleFor(methodName), days[i].total, xs, sqrt) && a == AnomalyEntry(days[i], xs, methodName)
    decreases |days|
  {
    if |days| > 0 {
      var k := |days| - 1;
      AnomalyMembership(days[..k], xs, methodName, sqrt, a);
      assert forall i :: 0 <= i < k ==> days[..k][i] == days[i];
    }
  }

  /** The day a reported entry belongs to. */
  lemma AnomalyIndex(days: seq<Day>, xs: seq<real>, methodName: string, sqrt: real -> real, a: Anomaly)
    returns (i: nat)
    requires |xs| > 0 && a in AnomaliesOf(days, xs, methodName, sqrt)
    ensures i < |days| && a == AnomalyEntry(days[i], xs, methodName)
  {
    AnomalyMembership(days, xs, methodName, sqrt, a);
    i :| 0 <= i < |days| && Outlier(RuleFor(methodName), days[i].total, xs, sqrt) && a == AnomalyEntry(days[i], xs, methodName);
  }

  ghost predicate AnomalyDatesIncreasing(r: seq<Anomaly>)
  {
    forall j, k :: 0 <= j < k < |r| ==> r[j].date < r[k].date
  }

  /** Anomalies come out in ascending date order. */
  lemma {:induction false} AnomaliesOrdered(days: seq<Day>, xs: seq<real>, methodName: string, sqrt: real -> real)
    requires |xs| > 0 && StrictlyIncreasingDates(days)
    ensures AnomalyDatesIncreasing(AnomaliesOf(days, xs, methodName, sqrt))
    decreases |days|
  {
    if |days| > 0 {
      var k := |days| - 1;
      var front := AnomaliesOf(days[..k], xs, methodName, sqrt);
      AnomaliesOrdered(days[..k], xs, methodName, sqrt);
      forall a | a in front ensures a.date < days[k].date {
        AnomalyMembership(days[..k], xs, methodName, sqrt, a);
        var i :| 0 <= i < k && a == AnomalyEntry(days[..k][i], xs, methodName);
        assert days[..k][i] == days[i];
      }
      var r := AnomaliesOf(days, xs, methodName, sqrt);
      forall j, l | 0 <= j < l < |r| ensures r[j].date < r[l].date {
        if l < |front| {
          assert r[j] == front[j] && r[l] == front[l];
        } else {
          assert r == front + [AnomalyEntry(days[k], xs, methodName)];
          assert r[j] == front[j] && r[j] in front;
        }
      }
    }
  }

  /** A reported anomaly carries the requested method name, and "high"
      severity exactly above 1.5 times the mean daily total. */
  lemma AnomalyFields(records: seq<CostRecord>, methodName: string, sqrt: real -> real, a: Anomaly)
    requires |records| > 0 && a in AdvancedAnomalies(records, methodName, sqrt)
    ensures a.methodName == methodName
    ensures a.severity == High <==> a.cost > Mean(Totals(Daily(records, CostOf))) * 1.5
  {
    var days := Daily(records, CostOf);
    AnomalyMembership(days, Totals(days), methodName, sqrt, a);
  }

  /** A reported anomaly is a day of the table, and its cost is the sum over
      that day's records. */
  lemma AnomalyDay(records: seq<CostRecord>, methodName: string, sqrt: real -> real, a: Anomaly)
    requires |records| > 0 && a in AdvancedAnomalies(records, methodName, sqrt)
    ensures exists i :: 0 <= i < |records| && records[i].date == a.date
    ensures a.cost == SumBy(RowsWithKey(records, DateOf, a.date), CostOf)
  {
    var days := Daily(records, CostOf);
    var xs := Totals(days);
    var i := AnomalyIndex(days, xs, methodName, sqrt, a);
    DailyDateOccurs(records, CostOf, i);
    DailyTotalAt(records, CostOf, i);
  }

  lemma {:induction false} AnomaliesNone(days: seq<Day>, xs: seq<real>, methodName: string, sqrt: real -> real)
    requires |xs| > 0
    requires forall i :: 0 <= i < |days| ==> !Outlier(RuleFor(methodName), days[i].total, xs, sqrt)
    ensures AnomaliesOf(days, xs, methodName, sqrt) == []
    decreases |days|
  {
    if |days| > 0 {
      AnomaliesNone(days[..|days| - 1], xs, methodName, sqrt);
    }
  }

  /** With a true square root the z-score rule is the squared test
      (x - mean)² > 9 · variance on a series with some spread. */
  lemma ZScoreSquared(x: real, xs: seq<real>, sqrt: real -> real)
    requires |xs| > 0
    requires sqrt(PopVar(xs)) >= 0.0 && sqrt(PopVar(xs)) * sqrt(PopVar(xs)) == PopVar(xs)
    ensures ZScoreOutlier(x, xs, sqrt) <==>
      PopVar(xs) != 0.0 && (x - Mean(xs)) * (x - Mean(xs)) > 9.0 * PopVar(xs)
  {
    ZTestNumbers(x - Mean(xs), sqrt(PopVar(xs)), PopVar(xs));
  }

  /** The z-score rule on plain numbers: deviation d, root s of variance v. */
  lemma ZTestNumbers(d: real, s: real, v: real)
    requires s >= 0.0 && s * s == v
    ensures s != 0.0 && Abs(d / s) > 3.0 <==> v != 0.0 && d * d > 9.0 * v
  {
    if s != 0.0 {
      assert Abs(d / s) == Abs(d) / s;
      SquaredZTest(d, 0.0, s, 3.0);
    }
  }

  /** The fences bracket the quartiles: a day between Q1 and Q3 is never
      flagged by the IQR rule. */
  lemma IqrFences(xs: seq<real>)
    requires |xs| > 0
    ensures LowerFence(xs) <= Percentile(xs, 25) <= Percentile(xs, 75) <= UpperFence(xs)
    ensures forall x :: Percentile(xs, 25) <= x <= Percentile(xs, 75) ==> !IqrOutlier(x, xs)
  {
    PercentileMonotone(xs, 25, 75);
  }

  /** A table whose days all cost the same has no anomalies under either
      rule (the z-score rule given sqrt(0) = 0). */
  lemma ConstantNoAnomalies(records: seq<CostRecord>, methodName: string, sqrt: real -> real, c: real)
    requires sqrt(0.0) == 0.0
    requires forall i :: 0 <= i < |Daily(records, CostOf)| ==> Daily(records, CostOf)[i].total == c
    ensures AdvancedAnomalies(records, methodName, sqrt) == []
  {
    if |records| > 0 {
      var days := Daily(records, CostOf);
      var xs := Totals(days);
      assert forall i :: 0 <= i < |xs| ==> xs[i] == c;
      ConstantSeries(xs, c);
      PercentileConstant(xs, c, 25);
      PercentileConstant(xs, c, 75);
      AnomaliesNone(days, xs, methodName, sqrt);
    }
  }

  // ---------------------------------------------------------------- calculate_cost_elasticity

  /** `if service:` filters on the service; None and the empty string are
      falsy and select every row. */
  function Selected(records: seq<CostRecord>, service: Option<string>): seq<CostRecord>
  {
    if service.Some? && service.value != "" then RowsWithKey(records, ServiceOf, service.value) else records
  }

  /** `service or "all"`. */
  function ServiceLabel(service: Option<string>): string
  {
    if service.Some? && service.value != "" then service.value else "all"
  }

  /** `pct_change().dropna()`: x[i] / x[i-1] - 1 for every day after the
      first.  0/0 is NaN and dropped; a change away from 0 is infinite and
      kept by pandas, which `FiniteChanges` rules out. */
  function PctChanges(xs: seq<real>): (r: seq<real>)
    ensures |r| < |xs| || |xs| == 0
  {
    if |xs| < 2 then []
    else
      PctChanges(xs[..|xs| - 1]) + Change(xs[|xs| - 2], xs[|xs| - 1])
  }

  /** The change from one day to the next; none after a zero day. */
  function Change(prev: real, cur: real): seq<real>
  {
    if prev != 0.0 then [cur / prev - 1.0] else []
  }

  /** No day follows a zero day with a non-zero value. */
  predicate FiniteChanges(xs: seq<real>)
  {
    forall i :: 1 <= i < |xs| ==> xs[i - 1] != 0.0 || xs[i] == 0.0
  }

  /** Mean cost change over mean usage change; 0 when either series has no
      change or the usage changes average to 0. */
  function ElasticityOf(costs: seq<real>, usages: seq<real>): real
  {
    var c := PctChanges(costs);
    var u := PctChanges(usages);
    if |c| > 0 && |u| > 0 && Mean(u) != 0.0 then Mean(c) / Mean(u) else 0.0
  }

  /** The figures kept from `calculate_cost_elasticity`; `elasticity` is None
      where a percentage change divides by a zero day. */
  datatype Elasticity = Elasticity(elasticity: Option<real>, service: string)

  /** `calculate_cost_elasticity`; None is the `{}` of an empty table or of a
      filter that matches nothing. */
  function CostElasticity(records: seq<CostRecord>, service: Option<string>): Option<Elasticity>
  {
    if |records| == 0 then None
    else
      var data := Selected(records, service);
      if |data| == 0 then None
      else
        var costs := Totals(Daily(data, CostOf));
        var usages := Totals(Daily(data, UsageOf));
        Some(Elasticity(
          if FiniteChanges(costs) && FiniteChanges(usages) then Some(ElasticityOf(costs, usages)) else None,
          ServiceLabel(service)))
  }

  lemma {:induction false} RowsWithKeyEmpty<K>(rows: seq<CostRecord>, keyOf: CostRecord -> K, k: K)
    ensures |RowsWithKey(rows, keyOf, k)| == 0 <==> forall i :: 0 <= i < |rows| ==> keyOf(rows[i]) != k
    decreases |rows|
  {
    if |rows| > 0 {
      var n := |rows| - 1;
      RowsWithKeyEmpty(rows[..n], keyOf, k);
      assert forall i :: 0 <= i < n ==> rows[..n][i] == rows[i];
    }
  }

  /** `{}` exactly for an empty table or a service no row carries; otherwise
      the label names the service, or "all" without a filter. */
  lemma ElasticityDefined(records: seq<CostRecord>, service: Option<string>)
    ensures CostElasticity(records, service).None? <==>
      |records| == 0
      || (service.Some? && service.value != "" && forall i :: 0 <= i < |records| ==> records[i].service != service.value)
    ensures CostElasticity(records, service).Some? && (service.None? || service.value == "") ==>
      CostElasticity(records, service).value.service == "all"
    ensures CostElasticity(records, service).Some? && service.Some? && service.value != "" ==>
      CostElasticity(records, service).value.service == service.value
  {
    if service.Some? {
      RowsWithKeyEmpty(records, ServiceOf, service.value);
    }
  }

  /** With fewer than two days there is no change to compare: elasticity 0. */
  lemma ElasticityFewDays(records: seq<CostRecord>, service: Option<string>)
    requires CostElasticity(records, service).Some?
    requires |Daily(Selected(records, service), CostOf)| < 2
    ensures CostElasticity(records, service).value.elasticity == Some(0.0)
  {
  }

  /** Every row costs `p` per unit of usage. */
  ghost predicate PricedAt(rows: seq<CostRecord>, p: real)
  {
    forall i :: 0 <= i < |rows| ==> rows[i].cost == p * rows[i].usage
  }

  /** Every day's cost is `p` times its usage. */
  ghost predicate SeriesPricedAt(costs: seq<real>, usages: seq<real>, p: real)
  {
    |costs| == |usages| && forall i :: 0 <= i < |costs| ==> costs[i] == p * usages[i]
  }

  /** If every row costs `p` per unit of usage, so does every day. */
  lemma DailyProportional(records: seq<CostRecord>, p: real)
    requires PricedAt(records, p)
    ensures SeriesPricedAt(Totals(Daily(records, CostOf)), Totals(Daily(records, UsageOf)), p)
  {
    var groups := DateGroups(records);
    var costs := Totals(Daily(records, CostOf));
    var usages := Totals(Daily(records, UsageOf));
    forall i | 0 <= i < |costs| ensures costs[i] == p * usages[i] {
      DayPriced(records, p, i);
    }
  }

  lemma DayPriced(records: seq<CostRecord>, p: real, i: nat)
    requires PricedAt(records, p) && i < |DateGroups(records)|
    ensures Totals(Daily(records, CostOf))[i] == p * Totals(Daily(records, UsageOf))[i]
  {
    var rows := DateGroups(records)[i].rows;
    GroupRowsFrom(records, i);
    SumByScale(rows, UsageOf, CostOf, p);
    assert Totals(Daily(records, CostOf))[i] == SumBy(rows, CostOf);
    assert Totals(Daily(records, UsageOf))[i] == SumBy(rows, UsageOf);
  }

  /** The rows of every day group come from the table. */
  lemma GroupRowsFrom(records: seq<CostRecord>, i: nat)
    requires i < |DateGroups(records)|
    ensures forall r :: r in DateGroups(records)[i].rows ==> r in records
  {
    var groups := DateGroups(records);
    DayOrder();
    GroupByWellFormed(records, DateOf, DayBefore);
    LookupAt(groups, i);
    GroupByLookup(records, DateOf, DayBefore, groups[i].key);
    RowsWithKeyFrom(records, DateOf, groups[i].key);
  }

  lemma {:induction false} RowsWithKeyFrom<K>(rows: seq<CostRecord>, keyOf: CostRecord -> K, k: K)
    ensures forall r :: r in RowsWithKey(rows, keyOf, k) ==> r in rows
    decreases |rows|
  {
    if |rows| > 0 {
      var n := |rows| - 1;
      RowsWithKeyFrom(rows[..n], keyOf, k);
      assert forall r :: r in rows[..n] ==> r in rows;
    }
  }

  /** Scaling a series by a non-zero factor leaves its percentage changes
      as they are ... */
  lemma {:induction false} PctChangesScaled(costs: seq<real>, usages: seq<real>, p: real)
    requires p != 0.0 && SeriesPricedAt(costs, usages, p)
    ensures PctChanges(costs) == PctChanges(usages)
    decreases |costs|
  {
    if |costs| >= 2 {
      var n := |costs| - 1;
      PricedSplit(costs, usages, p);
      PctChangesScaled(costs[..n], usages[..n], p);
    }
  }

  /** A priced series stays priced without its last day, and its last change
      is that of the usage. */
  lemma PricedSplit(costs: seq<real>, usages: seq<real>, p: real)
    requires p != 0.0 && SeriesPricedAt(costs, usages, p) && |costs| >= 2
    ensures var n := |costs| - 1;
      && SeriesPricedAt(costs[..n], usages[..n], p)
      && Change(costs[n - 1], costs[n]) == Change(usages[n - 1], usages[n])
  {
    var n := |costs| - 1;
    assert SeriesPricedAt(costs[..n], usages[..n], p);
    LastChangeScaled(costs[n - 1], costs[n], usages[n - 1], usages[n], p);
  }

  lemma LastChangeScaled(c0: real, c1: real, u0: real, u1: real, p: real)
    requires p != 0.0 && c0 == p * u0 && c1 == p * u1
    ensures Change(c0, c1) == Change(u0, u1)
  {
    ScaledZero(p, u0);
    if u0 != 0.0 {
      ScaledRatio(p, u1, u0);
    }
  }

  /** ... and which of its days follow a zero day with a non-zero value. */
  lemma FiniteChangesScaled(costs: seq<real>, usages: seq<real>, p: real)
    requires p != 0.0 && SeriesPricedAt(costs, usages, p)
    ensures FiniteChanges(costs) == FiniteChanges(usages)
  {
    forall i | 0 <= i < |costs| ensures costs[i] == 0.0 <==> usages[i] == 0.0 {
      ScaledZero(p, usages[i]);
    }
  }

  lemma ScaledZero(p: real, x: real)
    requires p != 0.0
    ensures p * x == 0.0 <==> x == 0.0
  {
  }

  lemma ScaledRatio(p: real, a: real, b: real)
    requires p != 0.0 && b != 0.0
    ensures (p * a) / (p * b) == a / b
  {
    ScaledZero(p, b);
    assert (a / b) * (p * b) == p * a;
  }

  /** Cost that follows usage at a fixed unit price has elasticity 1, or 0
      when the usage changes average to 0. */
  lemma ElasticityProportional(records: seq<CostRecord>, service: Option<string>, p: real)
    requires p != 0.0 && CostElasticity(records, service).Some?
    requires forall i :: 0 <= i < |records| ==> records[i].cost == p * records[i].usage
    ensures var e := CostElasticity(records, service).value.elasticity;
      var u := PctChanges(Totals(Daily(Selected(records, service), UsageOf)));
      e.Some? ==> e.value == (if |u| > 0 && Mean(u) != 0.0 then 1.0 else 0.0)
  {
    var data := Selected(records, service);
    SelectedProportional(records, service, p);
    DailyProportional(data, p);
    SeriesElasticityProportional(Totals(Daily(data, CostOf)), Totals(Daily(data, UsageOf)), p);
  }

  lemma SelectedProportional(records: seq<CostRecord>, service: Option<string>, p: real)
    requires PricedAt(records, p)
    ensures PricedAt(Selected(records, service), p)
  {
    var data := Selected(records, service);
    if service.Some? && service.value != "" {
      RowsWithKeyFrom(records, ServiceOf, service.value);
      forall i | 0 <= i < |data| ensures data[i].cost == p * data[i].usage {
        assert data[i] in records;
      }
    }
  }

  lemma SeriesElasticityProportional(costs: seq<real>, usages: seq<real>, p: real)
    requires p != 0.0 && SeriesPricedAt(costs, usages, p)
    ensures FiniteChanges(costs) == FiniteChanges(usages)
    ensures var u := PctChanges(usages);
      ElasticityOf(costs, usages) == if |u| > 0 && Mean(u) != 0.0 then 1.0 else 0.0
  {
    PctChangesScaled(costs, usages, p);
    FiniteChangesScaled(costs, usages, p);
    var u := PctChanges(usages);
    assert PctChanges(costs) == u;
    if |u| > 0 && Mean(u) != 0.0 {
      SelfRatio(Mean(u));
    }
  }

  lemma SelfRatio(x: real)
    requires x != 0.0
    ensures x / x == 1.0
  {
  }

  /** Usage that is positive and grows every day has a positive change every
      day after the first. */
  lemma {:induction false} PctChangesGrowing(xs: seq<real>)
    requires forall i :: 0 <= i < |xs| ==> xs[i] > 0.0
    requires forall i :: 1 <= i < |xs| ==> xs[i - 1] < xs[i]
    ensures |xs| > 0 ==> |PctChanges(xs)| == |xs| - 1
    ensures forall j :: 0 <= j < |PctChanges(xs)| ==> PctChanges(xs)[j] > 0.0
    ensures FiniteChanges(xs)
    decreases |xs|
  {
    if |xs| >= 2 {
      var n := |xs| - 1;
      PctChangesGrowing(xs[..n]);
      GrowthRatio(xs[n - 1], xs[n]);
    }
  }

  lemma GrowthRatio(prev: real, cur: real)
    requires 0.0 < prev < cur
    ensures cur / prev - 1.0 > 0.0
  {
    assert cur / prev * prev == cur;
  }

  lemma MeanPositive(xs: seq<real>)
    requires |xs| > 0 && forall i :: 0 <= i < |xs| ==> xs[i] > 0.0
    ensures Mean(xs) > 0.0
  {
    var m := MinOf(xs);
    var i :| 0 <= i < |xs| && xs[i] == m;
    MeanBetweenMinMax(xs);
  }

  /** Cost at a fixed unit price over usage that grows every day, as in the
      sample table of tests/test_chatbot.py, has elasticity exactly 1. */
  lemma ElasticityGrowing(records: seq<CostRecord>, service: Option<string>, p: real)
    requires p != 0.0 && CostElasticity(records, service).Some?
    requires forall i :: 0 <= i < |records| ==> records[i].cost == p * records[i].usage
    requires var u := Totals(Daily(Selected(records, service), UsageOf));
      && |u| >= 2
      && (forall i :: 0 <= i < |u| ==> u[i] > 0.0)
      && (forall i :: 1 <= i < |u| ==> u[i - 1] < u[i])
    ensures CostElasticity(records, service).value.elasticity == Some(1.0)
  {
    var data := Selected(records, service);
    var costs := Totals(Daily(data, CostOf));
    var usages := Totals(Daily(data, UsageOf));
    SelectedProportional(records, service, p);
    DailyProportional(data, p);
    SeriesElasticityProportional(costs, usages, p);
    PctChangesGrowing(usages);
    MeanPositive(PctChanges(usages));
  }

  // ---------------------------------------------------------------- forecast_with_confidence_intervals

  datatype Interval = Interval(date: int, forecastedCost: real, lowerBound: real, upperBound: real, confidence: real)

  /** `np.poly1d(np.polyfit(arange(n), y, 1))` at `x`: the least-squares
      line through (i, ys[i]).  With one point `polyfit` raises, so two are
      needed. */
  function Fitted(ys: seq<real>, x: int): real
    requires |ys| >= 2
  {
    var b := Slope(ys);
    LineAt(Intercept(ys, b), b, x)
  }

  function LineAt(a: real, b: real, x: int): real
  {
    a + b * x as real
  }

  /** `y - poly(x)`. */
  function FitResiduals(ys: seq<real>): seq<real>
    requires |ys| >= 2
  {
    var b := Slope(ys);
    Residuals(ys, Intercept(ys, b), b)
  }

  /** `z_score * residual_std * sqrt(1 + 1/n)` with the normal quantile
      `ppf` at (1 + confidence)/2 and the population deviation of the
      residuals; it does not depend on the day. */
  function Margin(ys: seq<real>, confidence: real, sqrt: real -> real, ppf: real -> real): real
    requires |ys| >= 2
  {
    ppf((1.0 + confidence) / 2.0) * sqrt(PopVar(FitResiduals(ys))) * sqrt(1.0 + 1.0 / |ys| as real)
  }

  /** The entry for day `i` after the last, read off the line at position
      n + i - 1. */
  function IntervalAt(ys: seq<real>, lastDate: int, i: int, confidence: real, sqrt: real -> real, ppf: real -> real): Interval
    requires |ys| >= 2
  {
    var v := Fitted(ys, |ys| + i - 1);
    var m := Margin(ys, confidence, sqrt, ppf);
    Interval(lastDate + i, v, DataProcessor.Max0(v - m), v + m, confidence)
  }

  /** The loop of `forecast_with_confidence_intervals`; fewer than two days
      make `polyfit` raise and the source return `[]`. */
  method ForecastWithConfidenceIntervals(records: seq<CostRecord>, daysAhead: int, confidence: real,
                                         sqrt: real -> real, ppf: real -> real)
    returns (forecast: seq<Interval>)
    ensures |Daily(records, CostOf)| < 2 || daysAhead <= 0 ==> forecast == []
    ensures var days := Daily(records, CostOf);
      |days| >= 2 && daysAhead > 0 ==>
        && |forecast| == daysAhead
        && forall k :: 0 <= k < daysAhead ==>
             forecast[k] == IntervalAt(Totals(days), days[|days| - 1].date, k + 1, confidence, sqrt, ppf)
  {
    forecast := [];
    var days := Daily(records, CostOf);
    if |days| < 2 {
      return;
    }
    var ys := Totals(days);
    var lastDate := days[|days| - 1].date;
    var i := 1;
    while i <= daysAhead
      invariant 1 <= i <= (if daysAhead > 0 then daysAhead else 0) + 1
      invariant |forecast| == i - 1
      invariant forall k :: 0 <= k < |forecast| ==> forecast[k] == IntervalAt(ys, lastDate, k + 1, confidence, sqrt, ppf)
    {
      var v := Fitted(ys, |ys| + i - 1);
      var m := Margin(ys, confidence, sqrt, ppf);
      forecast := forecast + [Interval(lastDate + i, v, DataProcessor.Max0(v - m), v + m, confidence)];
      i := i + 1;
    }
  }

  /** Every entry sits in the same band around the line: upper = value +
      margin and lower = max(0, value - margin) >= 0, for one margin shared by
      all days; a non-negative quantile keeps the value below the upper bound. */
  lemma IntervalBand(ys: seq<real>, lastDate: int, i: int, j: int, confidence: real, sqrt: real -> real, ppf: real -> real)
    requires |ys| >= 2
    ensures var e := IntervalAt(ys, lastDate, i, confidence, sqrt, ppf);
      var f := IntervalAt(ys, lastDate, j, confidence, sqrt, ppf);
      && e.upperBound - e.forecastedCost == f.upperBound - f.forecastedCost
      && e.lowerBound >= 0.0
      && e.lowerBound == DataProcessor.Max0(e.forecastedCost - (e.upperBound - e.forecastedCost))
      && e.date - f.date == i - j
    ensures var m := Margin(ys, confidence, sqrt, ppf);
      (ppf((1.0 + confidence) / 2.0) >= 0.0 && sqrt(PopVar(FitResiduals(ys))) >= 0.0
        && sqrt(1.0 + 1.0 / |ys| as real) >= 0.0) ==> m >= 0.0
  {
    var z := ppf((1.0 + confidence) / 2.0);
    var r := sqrt(PopVar(FitResiduals(ys)));
    var q := sqrt(1.0 + 1.0 / |ys| as real);
    if z >= 0.0 && r >= 0.0 && q >= 0.0 {
      MulNonNegative(z, r);
      MulNonNegative(z * r, q);
    }
  }

  /** The first n points of the line a + b·i. */
  ghost function Line(n: nat, a: real, b: real): (l: seq<real>)
    ensures |l| == n
  {
    seq(n, i requires 0 <= i < n => a + b * i as real)
  }

  lemma LineTotal(n: nat, a: real, b: real)
    ensures Sum(Line(n, a, b)) == n as real * a + b * IndexSum(n)
  {
    assert OnLine(Line(n, a, b), a, b);
    LineSum(Line(n, a, b), a, b);
  }

  /** Residuals sum to the values' sum less the line's. */
  lemma ResidualsLessLine(ys: seq<real>, a: real, b: real)
    ensures Sum(Residuals(ys, a, b)) == Sum(ys) - Sum(Line(|ys|, a, b))
  {
    var line := Line(|ys|, a, b);
    var r := Residuals(ys, a, b);
    forall i | 0 <= i < |ys|
      ensures r[i] == ys[i] - line[i]
    {
      assert line[i] == a + b * i as real;
      ResidualAt(ys, a, b, i);
    }
    SumDiff(ys, line, r);
  }

  /** The fitted line is the least-squares line: its residuals sum to 0. */
  lemma FitResidualsSumZero(ys: seq<real>)
    requires |ys| >= 2
    ensures Sum(FitResiduals(ys)) == 0.0
  {
    CentredResidualsSumZero(ys, Slope(ys));
  }

  /** Whatever the slope, the intercept through the centroid leaves residuals
      that sum to 0. */
  lemma CentredResidualsSumZero(ys: seq<real>, b: real)
    requires |ys| > 0
    ensures Sum(Residuals(ys, Intercept(ys, b), b)) == 0.0
  {
    InterceptCentroid(ys, b);
    LineThroughCentroid(ys, Intercept(ys, b), b, Sum(ys));
    ResidualSumZero(ys, Intercept(ys, b), b);
  }

  /** A line satisfying the first normal equation has the values' total. */
  lemma LineThroughCentroid(ys: seq<real>, a: real, b: real, total: real)
    requires total == Sum(ys)
    requires |ys| as real * a + b * IndexSum(|ys|) == total
    ensures Sum(Line(|ys|, a, b)) == total
  {
    LineTotal(|ys|, a, b);
  }

  /** Residuals of a line with the values' total sum to 0. */
  lemma ResidualSumZero(ys: seq<real>, a: real, b: real)
    requires Sum(Line(|ys|, a, b)) == Sum(ys)
    ensures Sum(Residuals(ys, a, b)) == 0.0
  {
    ResidualsLessLine(ys, a, b);
  }

  /** Points on a line are fitted by that line ... */
  lemma FittedOnLine(ys: seq<real>, a: real, b: real, x: int)
    requires |ys| >= 2 && OnLine(ys, a, b)
    ensures Fitted(ys, x) == a + b * x as real
  {
    ExactLineSlope(ys, a, b);
    ExactLineIntercept(ys, a, b);
    assert Fitted(ys, x) == LineAt(Intercept(ys, Slope(ys)), Slope(ys), x);
  }

  /** ... and leave no residual spread. */
  lemma FitResidualsOnLine(ys: seq<real>, a: real, b: real)
    requires |ys| >= 2 && OnLine(ys, a, b)
    ensures PopVar(FitResiduals(ys)) == 0.0
  {
    ExactLineSlope(ys, a, b);
    ExactLineIntercept(ys, a, b);
    var res := FitResiduals(ys);
    assert res == Residuals(ys, a, b);
    forall k | 0 <= k < |res| ensures res[k] == 0.0 {
      ResidualAt(ys, a, b, k);
    }
    ConstantSeries(res, 0.0);
  }

  /** A series lying on a line is continued along that line with a zero
      margin, given sqrt(0) = 0: the band collapses onto the line, floored at
      0 below. */
  lemma IntervalOnLine(ys: seq<real>, a: real, b: real, lastDate: int, i: int, confidence: real,
                       sqrt: real -> real, ppf: real -> real)
    requires |ys| >= 2 && OnLine(ys, a, b) && sqrt(0.0) == 0.0
    ensures var e := IntervalAt(ys, lastDate, i, confidence, sqrt, ppf);
      && e.forecastedCost == a + b * (|ys| + i - 1) as real
      && e.upperBound == e.forecastedCost
      && e.lowerBound == DataProcessor.Max0(e.forecastedCost)
  {
    FittedOnLine(ys, a, b, |ys| + i - 1);
    FitResidualsOnLine(ys, a, b);
  }

  // ---------------------------------------------------------------- identify_cost_drivers

  /** One row of the ranking: a (service, region) pair with its figures. */
  datatype Driver = Driver(
    service: string,
    region: string,
    totalCost: real,
    percentage: real,
    cumulativePercentage: real,
    costPerUnit: real,
    volatility: Option<real>)

  function DriverTotalOf(d: Driver): real { d.totalCost }

  function PairOf(r: CostRecord): (string, string) { (r.service, r.region) }

  /** pandas orders (service, region) group keys lexicographically. */
  predicate PairLess(a: (string, string), b: (string, string))
  {
    Text.LexLess(a.0, b.0) || (a.0 == b.0 && Text.LexLess(a.1, b.1))
  }

  lemma PairOrder()
    ensures StrictTotalOrder(PairLess)
  {
    forall a: (string, string) ensures !PairLess(a, a) {
      Text.LexLessIrreflexive(a.0);
      Text.LexLessIrreflexive(a.1);
    }
    forall a: (string, string), b: (string, string), c: (string, string) | PairLess(a, b) && PairLess(b, c)
      ensures PairLess(a, c)
    {
      ServiceOrder();
    }
    forall a: (string, string), b: (string, string) | a != b ensures PairLess(a, b) || PairLess(b, a) {
      ServiceOrder();
    }
  }

  /** `groupby(["service", "region"])`: one group per pair, in key order. */
  function PairGroups(records: seq<CostRecord>): seq<Group<(string, string), CostRecord>>
  {
    GroupBy(records, PairOf, PairLess)
  }

  /** Cost per unit of usage, 0 when the usage is not positive. */
  function UnitCost(total: real, usage: real): (u: real)
    ensures usage > 0.0 ==> u * usage == total
    ensures usage <= 0.0 ==> u == 0.0
  {
    if usage > 0.0 then total / usage else 0.0
  }

  /** pandas' `std` (ddof 1) of a group's costs; NaN for a single row. */
  function Volatility(costs: seq<real>, sqrt: real -> real): Option<real>
  {
    if |costs| >= 2 then Some(sqrt(SampleVar(costs))) else None
  }

  /** A group's share of `grand`, in percent. */
  function GroupPercent(g: Group<(string, string), CostRecord>, grand: real): real
  {
    DataProcessor.Percent(SumBy(g.rows, CostOf), grand)
  }

  function GroupPercents(groups: seq<Group<(string, string), CostRecord>>, grand: real): seq<real>
  {
    seq(|groups|, i requires 0 <= i < |groups| => GroupPercent(groups[i], grand))
  }

  /** The row of one group, given its percentage and cumulative percentage. */
  function DriverRow(g: Group<(string, string), CostRecord>, percentage: real, cumulative: real,
                     sqrt: real -> real): Driver
  {
    Driver(
      g.key.0,
      g.key.1,
      SumBy(g.rows, CostOf),
      percentage,
      cumulative,
      UnitCost(SumBy(g.rows, CostOf), SumBy(g.rows, UsageOf)),
      Volatility(Column(g.rows, CostOf), sqrt))
  }

  /** The aggregated table in key order; `cumsum` runs down this order. */
  function DriverTable(groups: seq<Group<(string, string), CostRecord>>, grand: real, sqrt: real -> real): seq<Driver>
  {
    var pcts := GroupPercents(groups, grand);
    seq(|groups|, i requires 0 <= i < |groups| => DriverRow(groups[i], pcts[i], Sum(pcts[..i + 1]), sqrt))
  }

  /** `head(n)`: the first n rows; a negative n drops the last -n rows. */
  function Head<T>(s: seq<T>, n: int): (r: seq<T>)
    ensures r <= s
    ensures |r| == if n >= 0 then (if n < |s| then n else |s|) else (if |s| + n > 0 then |s| + n else 0)
  {
    if n >= 0 then (if n < |s| then s[..n] else s)
    else if |s| + n > 0 then s[..|s| + n]
    else []
  }

  /** `identify_cost_drivers` with the unit cost guarded group by group, as
      the code intends: the table sorted by total cost, largest first, cut
      to `topN` rows.  Equal totals keep key order. */
  function CostDrivers(records: seq<CostRecord>, topN: int, sqrt: real -> real): seq<Driver>
  {
    if |records| == 0 then []
    else
      var groups := PairGroups(records);
      Head(Sorting.SortDesc(DriverTable(groups, GroupTotal(groups, CostOf), sqrt), DriverTotalOf), topN)
  }

  /** Python's truth test on a pandas Series: `if series` raises ValueError
      ("the truth value of a Series is ambiguous") whatever the series holds,
      so it never yields a truth value. */
  function SeriesTruth(s: seq<bool>): Option<bool>
  {
    None
  }

  /** `identify_cost_drivers` as written: the unit-cost guard tests the whole
      `total_usage > 0` Series, which raises; the handler returns []. */
  function CostDriversAsWritten(records: seq<CostRecord>, topN: int, sqrt: real -> real): seq<Driver>
  {
    if |records| == 0 then []
    else
      var groups := PairGroups(records);
      var positive := seq(|groups|, i requires 0 <= i < |groups| => SumBy(groups[i].rows, UsageOf) > 0.0);
      if SeriesTruth(positive).None? then []
      else CostDrivers(records, topN, sqrt)
  }

  /** As written, no input yields a driver. */
  lemma CostDriversAsWrittenEmpty(records: seq<CostRecord>, topN: int, sqrt: real -> real)
    ensures CostDriversAsWritten(records, topN, sqrt) == []
  {
  }

  /** A table with rows has at least one group. */
  lemma PairGroupsNonEmpty(records: seq<CostRecord>)
    requires |records| > 0
    ensures |PairGroups(records)| > 0
  {
    GroupByNonEmpty(records, PairOf, PairLess);
  }

  /** With the intended guard, every non-empty table and positive `topN`
      yields drivers, as the test of identify_cost_drivers expects. */
  lemma CostDriversNonEmpty(records: seq<CostRecord>, topN: int, sqrt: real -> real)
    requires |records| > 0 && topN > 0
    ensures |CostDrivers(records, topN, sqrt)| > 0
  {
    var groups := PairGroups(records);
    PairGroupsNonEmpty(records);
    Sorting.SortDescProperties(DriverTable(groups, GroupTotal(groups, CostOf), sqrt), DriverTotalOf);
  }

  /** The discrepancy on one record: as written nothing comes back, while
      the intended ranking has the record's pair. */
  lemma CostDriversDefect(sqrt: real -> real)
    ensures var records := [CostRecord(0, "EC2", "us-east-1", 100.0, 50.0)];
      && CostDriversAsWritten(records, 10, sqrt) == []
      && |CostDrivers(records, 10, sqrt)| == 1
      && CostDrivers(records, 10, sqrt)[0].totalCost == 100.0
      && CostDrivers(records, 10, sqrt)[0].costPerUnit == 2.0
  {
    var records := [CostRecord(0, "EC2", "us-east-1", 100.0, 50.0)];
    var groups := PairGroups(records);
    assert records[..0] == [];
    assert groups == [Group(("EC2", "us-east-1"), records)];
    SumBySingle(records[0], CostOf);
    SumBySingle(records[0], UsageOf);
    var table := DriverTable(groups, GroupTotal(groups, CostOf), sqrt);
    assert |table| == 1 && table[0].totalCost == 100.0 && table[0].costPerUnit == 2.0;
    assert Sorting.SortDesc(table, DriverTotalOf) == table;
  }

  /** The ranking is ordered by total cost, largest first, and has `topN`
      rows, all rows when there are fewer pairs, and for a negative `topN`
      all but the last -topN. */
  lemma CostDriversRanked(records: seq<CostRecord>, topN: int, sqrt: real -> real)
    ensures var groups := PairGroups(records);
      var r := CostDrivers(records, topN, sqrt);
      && Sorting.NonIncreasing(r, DriverTotalOf)
      && (topN >= 0 ==> |r| == if topN < |groups| then topN else |groups|)
      && (topN < 0 ==> |r| == if |groups| + topN > 0 then |groups| + topN else 0)
  {
    var groups := PairGroups(records);
    var sorted := Sorting.SortDesc(DriverTable(groups, GroupTotal(groups, CostOf), sqrt), DriverTotalOf);
    Sorting.SortDescProperties(DriverTable(groups, GroupTotal(groups, CostOf), sqrt), DriverTotalOf);
    var r := CostDrivers(records, topN, sqrt);
    if |records| > 0 {
      assert forall j :: 0 <= j < |r| ==> r[j] == sorted[j];
    }
  }

  /** Each ranked row is the table row of one group. */
  lemma DriverFrom(records: seq<CostRecord>, topN: int, sqrt: real -> real, j: nat) returns (a: nat)
    requires j < |CostDrivers(records, topN, sqrt)|
    ensures var groups := PairGroups(records);
      && a < |groups|
      && CostDrivers(records, topN, sqrt)[j] == DriverTable(groups, GroupTotal(groups, CostOf), sqrt)[a]
  {
    var groups := PairGroups(records);
    var table := DriverTable(groups, GroupTotal(groups, CostOf), sqrt);
    var sorted := Sorting.SortDesc(table, DriverTotalOf);
    Sorting.SortDescProperties(table, DriverTotalOf);
    assert CostDrivers(records, topN, sqrt)[j] == sorted[j];
    assert sorted[j] in multiset(table);
    a :| 0 <= a < |table| && table[a] == sorted[j];
  }

  /** The table has one row per group, so no row twice. */
  lemma TableDistinct(records: seq<CostRecord>, sqrt: real -> real)
    ensures var groups := PairGroups(records);
      Distinct(DriverTable(groups, GroupTotal(groups, CostOf), sqrt))
  {
    var groups := PairGroups(records);
    var table := DriverTable(groups, GroupTotal(groups, CostOf), sqrt);
    assert DistinctKeys(groups) by {
      PairOrder();
      GroupByWellFormed(records, PairOf, PairLess);
    }
    forall a, b | 0 <= a < b < |table| ensures table[a] != table[b] {
      TableRowKey(groups, GroupTotal(groups, CostOf), sqrt, a);
      TableRowKey(groups, GroupTotal(groups, CostOf), sqrt, b);
    }
  }

  /** Different rows of the ranking are different rows of the table. */
  lemma RankedFromDistinctGroups(records: seq<CostRecord>, topN: int, sqrt: real -> real)
    ensures Distinct(CostDrivers(records, topN, sqrt))
  {
    var groups := PairGroups(records);
    var table := DriverTable(groups, GroupTotal(groups, CostOf), sqrt);
    var sorted := Sorting.SortDesc(table, DriverTotalOf);
    Sorting.SortDescProperties(table, DriverTotalOf);
    TableDistinct(records, sqrt);
    PermutationDistinct(sorted, table);
    var r := CostDrivers(records, topN, sqrt);
    assert r <= sorted;
  }

  /** No (service, region) pair is ranked twice. */
  lemma CostDriversDistinct(records: seq<CostRecord>, topN: int, sqrt: real -> real)
    ensures var r := CostDrivers(records, topN, sqrt);
      forall j, k :: 0 <= j < k < |r| ==> (r[j].service, r[j].region) != (r[k].service, r[k].region)
  {
    var groups := PairGroups(records);
    var r := CostDrivers(records, topN, sqrt);
    assert DistinctKeys(groups) by {
      PairOrder();
      GroupByWellFormed(records, PairOf, PairLess);
    }
    RankedFromDistinctGroups(records, topN, sqrt);
    forall j, k | 0 <= j < k < |r| ensures (r[j].service, r[j].region) != (r[k].service, r[k].region) {
      DistinctPairs(records, topN, sqrt, j, k);
    }
  }

  lemma DistinctPairs(records: seq<CostRecord>, topN: int, sqrt: real -> real, j: nat, k: nat)
    requires DistinctKeys(PairGroups(records)) && Distinct(CostDrivers(records, topN, sqrt))
    requires j < k < |CostDrivers(records, topN, sqrt)|
    ensures var r := CostDrivers(records, topN, sqrt);
      (r[j].service, r[j].region) != (r[k].service, r[k].region)
  {
    var groups := PairGroups(records);
    var r := CostDrivers(records, topN, sqrt);
    var a := DriverFrom(records, topN, sqrt, j);
    var b := DriverFrom(records, topN, sqrt, k);
    assert r[j] != r[k];
    TableRowKey(groups, GroupTotal(groups, CostOf), sqrt, a);
    TableRowKey(groups, GroupTotal(groups, CostOf), sqrt, b);
    assert groups[a].key != groups[b].key by {
      if a < b {} else {}
    }
  }

  /** Each row of the table names its group's pair. */
  lemma TableRowKey(groups: seq<Group<(string, string), CostRecord>>, grand: real, sqrt: real -> real, a: nat)
    requires a < |groups|
    ensures var d := DriverTable(groups, grand, sqrt)[a];
      (d.service, d.region) == groups[a].key
  {
    var d := DriverTable(groups, grand, sqrt)[a];
    assert d.service == groups[a].key.0 && d.region == groups[a].key.1;
  }

  /** The figures of group `a`'s row are those of its pair's records. */
  lemma TableRowFigures(records: seq<CostRecord>, sqrt: real -> real, a: nat)
    requires a < |PairGroups(records)|
    ensures var groups := PairGroups(records);
      var d := DriverTable(groups, GroupTotal(groups, CostOf), sqrt)[a];
      var mine := RowsWithKey(records, PairOf, (d.service, d.region));
      && mine == groups[a].rows
      && |mine| > 0
      && d.totalCost == SumBy(mine, CostOf)
      && d.percentage == DataProcessor.Percent(d.totalCost, SumBy(records, CostOf))
      && d.costPerUnit == UnitCost(d.totalCost, SumBy(mine, UsageOf))
      && d.volatility == Volatility(Column(mine, CostOf), sqrt)
  {
    var groups := PairGroups(records);
    PairOrder();
    GroupByWellFormed(records, PairOf, PairLess);
    GroupByTotal(records, PairOf, PairLess, CostOf);
    LookupAt(groups, a);
    GroupByLookup(records, PairOf, PairLess, groups[a].key);
    assert (groups[a].key.0, groups[a].key.1) == groups[a].key;
  }

  /** A ranked row's figures are those of its pair's records: their cost sum,
      its percentage of all cost, the cost per unit of their usage, and the
      sample deviation of their costs (none for a single record). */
  lemma DriverFigures(records: seq<CostRecord>, topN: int, sqrt: real -> real, j: nat)
    requires j < |CostDrivers(records, topN, sqrt)|
    ensures var d := CostDrivers(records, topN, sqrt)[j];
      var mine := RowsWithKey(records, PairOf, (d.service, d.region));
      && |mine| > 0
      && d.totalCost == SumBy(mine, CostOf)
      && d.percentage == DataProcessor.Percent(d.totalCost, SumBy(records, CostOf))
      && d.costPerUnit == UnitCost(d.totalCost, SumBy(mine, UsageOf))
      && (d.volatility.Some? <==> |mine| >= 2)
      && (|mine| >= 2 ==> d.volatility.value == sqrt(SampleVar(Column(mine, CostOf))))
  {
    var groups := PairGroups(records);
    var a := DriverFrom(records, topN, sqrt, j);
    TableRowFigures(records, sqrt, a);
  }

  /** `cumsum`: down the key order each cumulative percentage is the previous
      one plus the row's own percentage. */
  lemma DriverCumulativeStep(groups: seq<Group<(string, string), CostRecord>>, grand: real, sqrt: real -> real, i: nat)
    requires i < |groups|
    ensures var t := DriverTable(groups, grand, sqrt);
      t[i].cumulativePercentage == (if i == 0 then 0.0 else t[i - 1].cumulativePercentage) + t[i].percentage
  {
    var pcts := GroupPercents(groups, grand);
    var t := DriverTable(groups, grand, sqrt);
    assert t[i].cumulativePercentage == Sum(pcts[..i + 1]);
    assert pcts[..i + 1][..i] == pcts[..i];
    if i > 0 {
      assert t[i - 1].cumulativePercentage == Sum(pcts[..i]);
    }
  }

  /** The groups' percentages added up front to back. */
  function PercentTotal(groups: seq<Group<(string, string), CostRecord>>, grand: real): real
  {
    if |groups| == 0 then 0.0 else GroupPercent(groups[0], grand) + PercentTotal(groups[1..], grand)
  }

  lemma {:induction false} PercentsAsTotal(groups: seq<Group<(string, string), CostRecord>>, grand: real)
    ensures Sum(GroupPercents(groups, grand)) == PercentTotal(groups, grand)
    decreases |groups|
  {
    if |groups| > 0 {
      var pcts := GroupPercents(groups, grand);
      var rest := GroupPercents(groups[1..], grand);
      assert pcts == [pcts[0]] + rest;
      SumAppend([pcts[0]], rest);
      assert [pcts[0]][..0] == [];
      PercentsAsTotal(groups[1..], grand);
    }
  }

  /** The groups' percentages add up to the percentage of their total cost. */
  lemma {:induction false} PercentsLinear(groups: seq<Group<(string, string), CostRecord>>, grand: real)
    ensures PercentTotal(groups, grand) == DataProcessor.Percent(GroupTotal(groups, CostOf), grand)
    decreases |groups|
  {
    if |groups| > 0 {
      PercentsLinear(groups[1..], grand);
      DataProcessor.PercentAdd(SumBy(groups[0].rows, CostOf), GroupTotal(groups[1..], CostOf), grand);
    } else {
      assert DataProcessor.Percent(0.0, grand) == 0.0;
    }
  }

  /** The cumulative percentage adds up the percentages of the pairs up to
      and including this one. */
  lemma CumulativeIsPercentTotal(groups: seq<Group<(string, string), CostRecord>>, grand: real, sqrt: real -> real, i: nat)
    requires i < |groups|
    ensures DriverTable(groups, grand, sqrt)[i].cumulativePercentage == PercentTotal(groups[..i + 1], grand)
  {
    var pcts := GroupPercents(groups, grand);
    assert DriverTable(groups, grand, sqrt)[i].cumulativePercentage == Sum(pcts[..i + 1]);
    assert pcts[..i + 1] == GroupPercents(groups[..i + 1], grand);
    PercentsAsTotal(groups[..i + 1], grand);
  }

  /** The cumulative percentage is the share, in percent, of the cost of the
      pairs up to and including this one in key order (0 when the grand
      total is not positive). */
  lemma DriverCumulativeShare(groups: seq<Group<(string, string), CostRecord>>, grand: real, sqrt: real -> real, i: nat)
    requires i < |groups|
    ensures DriverTable(groups, grand, sqrt)[i].cumulativePercentage
         == DataProcessor.Percent(GroupTotal(groups[..i + 1], CostOf), grand)
  {
    CumulativeIsPercentTotal(groups, grand, sqrt, i);
    PercentsLinear(groups[..i + 1], grand);
  }

  /** When the total cost is positive the cumulative percentage reaches 100
      at the last pair in key order. */
  lemma DriverCumulativeComplete(records: seq<CostRecord>, sqrt: real -> real)
    requires SumBy(records, CostOf) > 0.0
    ensures var groups := PairGroups(records);
      var t := DriverTable(groups, GroupTotal(groups, CostOf), sqrt);
      |t| > 0 && t[|t| - 1].cumulativePercentage == 100.0
  {
    var groups := PairGroups(records);
    var grand := GroupTotal(groups, CostOf);
    GroupByTotal(records, PairOf, PairLess, CostOf);
    PairGroupsNonEmpty(records);
    DriverCumulativeShare(groups, grand, sqrt, |groups| - 1);
    assert groups[..|groups| - 1 + 1] == groups;
    DataProcessor.PercentOfWhole(grand);
  }

  // ---------------------------------------------------------------- calculate_roi_for_optimization

  /** The ROI figures; `paybackMonths` is None where the source has an
      infinite payback (no positive savings). */
  datatype Roi = Roi(
    roiPercentage: real,
    totalSavings: real,
    netBenefit: real,
    paybackMonths: Option<real>,
    analysisMonths: int,
    monthlySavings: real)

  /** `calculate_roi_for_optimization`; the current cost takes no part. */
  function RoiForOptimization(currentCost: real, savings: real, implementation: real, months: int): Roi
  {
    var total := savings * months as real;
    var net := total - implementation;
    Roi(
      if implementation > 0.0 then net / implementation * 100.0 else 0.0,
      total,
      net,
      if savings > 0.0 then Some(implementation / savings) else None,
      months,
      savings)
  }

  /** The ROI relates the net benefit to the implementation cost, and the
      payback period is the number of months of savings that repay it. */
  lemma RoiMeaning(currentCost: real, savings: real, implementation: real, months: int)
    ensures var r := RoiForOptimization(currentCost, savings, implementation, months);
      && r.netBenefit == r.totalSavings - implementation
      && r.totalSavings == savings * months as real
      && (implementation > 0.0 ==> r.roiPercentage * implementation == r.netBenefit * 100.0)
      && (implementation <= 0.0 ==> r.roiPercentage == 0.0)
      && (r.paybackMonths.Some? <==> savings > 0.0)
      && (savings > 0.0 ==> r.paybackMonths.value * savings == implementation)
  {
  }

  lemma DivideAtMost(x: real, y: real, m: real)
    requires y > 0.0
    ensures x / y <= m <==> x <= m * y
  {
    assert x / y * y == x;
  }

  /** With positive savings and implementation cost, the initiative pays
      off within the period (non-negative ROI) exactly when the payback
      period is at most the period's length. */
  lemma RoiPaysOff(currentCost: real, savings: real, implementation: real, months: int)
    requires savings > 0.0 && implementation > 0.0
    ensures var r := RoiForOptimization(currentCost, savings, implementation, months);
      r.roiPercentage >= 0.0 <==> r.paybackMonths.value <= months as real
  {
    var r := RoiForOptimization(currentCost, savings, implementation, months);
    var m := months as real;
    DivideAtMost(implementation, savings, m);
    assert r.roiPercentage >= 0.0 <==> savings * m - implementation >= 0.0 by {
      var net := savings * m - implementation;
      assert r.roiPercentage == net / implementation * 100.0;
      if net >= 0.0 {
        assert net / implementation >= 0.0;
      } else {
        assert net / implementation < 0.0;
      }
    }
  }

  /** The worked example: 200 a month for 12 months against 500 up front. */
  lemma RoiExample()
    ensures RoiForOptimization(1000.0, 200.0, 500.0, 12)
         == Roi(380.0, 2400.0, 1900.0, Some(2.5), 12, 200.0)
  {
  }

  // ---------------------------------------------------------------- compare_cost_scenarios

  /** A scenario as given: each key may be missing. */
  datatype Scenario = Scenario(name: Option<string>, cost: Option<real>, description: Option<string>)

  /** A scenario as listed in the comparison, defaults filled in. */
  datatype ScenarioRow = ScenarioRow(name: string, cost: real, description: string)

  datatype Comparison = Comparison(
    scenarios: seq<ScenarioRow>,
    bestScenario: Option<string>,
    worstScenario: Option<string>,
    averageCost: real,
    costRange: real,
    savingsPotential: real)

  /** `scenario.get("cost", 0)`. */
  function CostOrZero(sc: Scenario): real
  {
    if sc.cost.Some? then sc.cost.value else 0.0
  }

  function RowOf(sc: Scenario): ScenarioRow
  {
    ScenarioRow(
      if sc.name.Some? then sc.name.value else "Unknown",
      CostOrZero(sc),
      if sc.description.Some? then sc.description.value else "")
  }

  function ScenarioCosts(scenarios: seq<Scenario>): seq<real>
  {
    seq(|scenarios|, i requires 0 <= i < |scenarios| => CostOrZero(scenarios[i]))
  }

  /** `list.index`: the position of the first occurrence of `v`. */
  function FirstIndex(xs: seq<real>, v: real): (i: nat)
    requires v in xs
    ensures i < |xs| && xs[i] == v
    ensures forall j :: 0 <= j < i ==> xs[j] != v
  {
    if xs[0] == v then 0 else 1 + FirstIndex(xs[1..], v)
  }

  /** The comparison `compare_cost_scenarios` returns; None for no scenarios. */
  function ScenarioComparison(scenarios: seq<Scenario>): Option<Comparison>
  {
    if |scenarios| == 0 then None
    else
      var costs := ScenarioCosts(scenarios);
      var lo := MinOf(costs);
      var hi := MaxOf(costs);
      Some(Comparison(
        seq(|scenarios|, i requires 0 <= i < |scenarios| => RowOf(scenarios[i])),
        scenarios[FirstIndex(costs, lo)].name,
        scenarios[FirstIndex(costs, hi)].name,
        Mean(costs),
        hi - lo,
        hi - lo))
  }

  /** `compare_cost_scenarios`; None for no scenarios. */
  method CompareCostScenarios(scenarios: seq<Scenario>) returns (r: Option<Comparison>)
    ensures r == ScenarioComparison(scenarios)
  {
    if |scenarios| == 0 {
      return None;
    }
    var costs, rows := CollectScenarios(scenarios);
    var lo := MinOf(costs);
    var hi := MaxOf(costs);
    r := Some(Comparison(
      rows,
      scenarios[FirstIndex(costs, lo)].name,
      scenarios[FirstIndex(costs, hi)].name,
      Sum(costs) / |costs| as real,
      hi - lo,
      hi - lo));
  }

  /** The loop of `compare_cost_scenarios` collecting the costs and rows. */
  method CollectScenarios(scenarios: seq<Scenario>) returns (costs: seq<real>, rows: seq<ScenarioRow>)
    ensures costs == ScenarioCosts(scenarios)
    ensures rows == seq(|scenarios|, k requires 0 <= k < |scenarios| => RowOf(scenarios[k]))
  {
    costs, rows := [], [];
    var i := 0;
    while i < |scenarios|
      invariant 0 <= i <= |scenarios|
      invariant |costs| == |rows| == i
      invariant forall k :: 0 <= k < i ==> costs[k] == CostOrZero(scenarios[k]) && rows[k] == RowOf(scenarios[k])
    {
      var sc := scenarios[i];
      var cost := if sc.cost.Some? then sc.cost.value else 0.0;
      costs := costs + [cost];
      rows := rows + [ScenarioRow(
        if sc.name.Some? then sc.name.value else "Unknown",
        cost,
        if sc.description.Some? then sc.description.value else "")];
      i := i + 1;
    }
  }

  /** The best scenario is the first of least cost and the worst the first
      of greatest cost.  There is a comparison exactly when there are
      scenarios. */
  lemma ScenarioExtremes(scenarios: seq<Scenario>)
    ensures ScenarioComparison(scenarios).None? <==> |scenarios| == 0
    ensures |scenarios| > 0 ==> exists b, w :: BestAndWorst(scenarios, b, w)
  {
    if |scenarios| > 0 {
      var costs := ScenarioCosts(scenarios);
      var c := ScenarioComparison(scenarios).value;
      var b, w := CostExtremes(costs);
      assert c.bestScenario == scenarios[b].name;
      assert c.worstScenario == scenarios[w].name;
      assert BestAndWorst(scenarios, b, w);
    }
  }

  /** Scenario `b` is named best and has the first smallest cost; scenario
      `w` is named worst and has the first largest. */
  ghost predicate BestAndWorst(scenarios: seq<Scenario>, b: int, w: int)
    requires |scenarios| > 0
  {
    var c := ScenarioComparison(scenarios).value;
    var costs := ScenarioCosts(scenarios);
    && 0 <= b < |scenarios| && 0 <= w < |scenarios|
    && c.bestScenario == scenarios[b].name
    && c.worstScenario == scenarios[w].name
    && (forall j :: 0 <= j < |costs| ==> costs[b] <= costs[j] <= costs[w])
    && (forall j :: 0 <= j < b ==> costs[j] > costs[b])
    && (forall j :: 0 <= j < w ==> costs[j] < costs[w])
  }

  /** The first smallest and the first largest cost. */
  lemma CostExtremes(costs: seq<real>) returns (b: nat, w: nat)
    requires |costs| > 0
    ensures b == FirstIndex(costs, MinOf(costs)) && w == FirstIndex(costs, MaxOf(costs))
    ensures b < |costs| && w < |costs|
    ensures forall j :: 0 <= j < |costs| ==> costs[b] <= costs[j] <= costs[w]
    ensures forall j :: 0 <= j < b ==> costs[j] > costs[b]
    ensures forall j :: 0 <= j < w ==> costs[j] < costs[w]
  {
    b := FirstIndex(costs, MinOf(costs));
    w := FirstIndex(costs, MaxOf(costs));
  }

  /** The range and the savings potential are the gap between the largest
      and the smallest cost, never negative; the average lies between them. */
  lemma ScenarioSpread(scenarios: seq<Scenario>)
    requires |scenarios| > 0
    ensures var c := ScenarioComparison(scenarios).value;
      var costs := ScenarioCosts(scenarios);
      && c.costRange == c.savingsPotential == MaxOf(costs) - MinOf(costs) >= 0.0
      && MinOf(costs) <= c.averageCost <= MaxOf(costs)
  {
    var costs := ScenarioCosts(scenarios);
    var c := ScenarioComparison(scenarios).value;
    assert c.averageCost == Mean(costs);
    MeanBetweenMinMax(costs);
    assert costs[0] <= MaxOf(costs);
  }

  /** Every scenario is listed, in order, with its defaults filled in. */
  lemma ScenarioRows(scenarios: seq<Scenario>, i: nat)
    requires i < |scenarios|
    ensures var row := ScenarioComparison(scenarios).value.scenarios[i];
      && |ScenarioComparison(scenarios).value.scenarios| == |scenarios|
      && (scenarios[i].name.Some? ==> row.name == scenarios[i].name.value)
      && (scenarios[i].name.None? ==> row.name == "Unknown")
      && (scenarios[i].cost.None? ==> row.cost == 0.0)
      && (scenarios[i].cost.Some? ==> row.cost == scenarios[i].cost.value)
  {
  }

  /** The three scenarios of the comparison test: Aggressive is best and
      Current worst, 500 apart. */
  lemma ScenarioExample()
    ensures var c := ScenarioComparison([
        Scenario(Some("Current"), Some(1000.0), None),
        Scenario(Some("Optimized"), Some(700.0), None),
        Scenario(Some("Aggressive"), Some(500.0), None)]).value;
      && c.bestScenario == Some("Aggressive")
      && c.worstScenario == Some("Current")
      && c.costRange == 500.0
  {
    var scenarios := [
        Scenario(Some("Current"), Some(1000.0), None),
        Scenario(Some("Optimized"), Some(700.0), None),
        Scenario(Some("Aggressive"), Some(500.0), None)];
    var costs := ScenarioCosts(scenarios);
    assert costs == [1000.0, 700.0, 500.0];
    assert MinOf(costs) == 500.0;
    assert MaxOf(costs) == 1000.0;
  }

  // ---------------------------------------------------------------- calculate_unit_economics

  datatype ServiceEconomics = ServiceEconomics(service: string, costPerUnit: real, totalCost: real, totalUsage: real)

  datatype UnitEconomics = UnitEconomics(
    overallCostPerUnit: real,
    businessMetric: string,
    totalCost: real,
    totalUsage: real,
    byService: seq<ServiceEconomics>)

  function EconomicsTotalOf(e: ServiceEconomics): real { e.totalCost }
  function EconomicsUsageOf(e: ServiceEconomics): real { e.totalUsage }

  /** The services in order of first appearance, each with its records, as
      `unique()` and the mask `service == s` find them. */
  function ServicesInOrder(records: seq<CostRecord>): seq<Group<string, CostRecord>>
  {
    GroupBy(records, ServiceOf, InsertionOrder)
  }

  function EconomicsRow(g: Group<string, CostRecord>): ServiceEconomics
  {
    var cost := SumBy(g.rows, CostOf);
    var usage := SumBy(g.rows, UsageOf);
    ServiceEconomics(g.key, UnitCost(cost, usage), cost, usage)
  }

  function EconomicsRows(groups: seq<Group<string, CostRecord>>): seq<ServiceEconomics>
  {
    seq(|groups|, i requires 0 <= i < |groups| => EconomicsRow(groups[i]))
  }

  /** What `calculate_unit_economics` returns; None for an empty table. */
  function UnitEconomicsOf(records: seq<CostRecord>, metric: string): Option<UnitEconomics>
  {
    if |records| == 0 then None
    else
      var cost := SumBy(records, CostOf);
      var usage := SumBy(records, UsageOf);
      Some(UnitEconomics(UnitCost(cost, usage), metric, cost, usage, EconomicsRows(ServicesInOrder(records))))
  }

  /** The loop of `calculate_unit_economics` over the distinct services. */
  method CalculateUnitEconomics(records: seq<CostRecord>, metric: string) returns (r: Option<UnitEconomics>)
    ensures r == UnitEconomicsOf(records, metric)
  {
    if |records| == 0 {
      return None;
    }
    var cost := SumBy(records, CostOf);
    var usage := SumBy(records, UsageOf);
    var overall := if usage > 0.0 then cost / usage else 0.0;
    var services := ServicesInOrder(records);
    var rows: seq<ServiceEconomics> := [];
    var i := 0;
    while i < |services|
      invariant 0 <= i <= |services|
      invariant rows == EconomicsRows(services[..i])
    {
      var g := services[i];
      var serviceCost := SumBy(g.rows, CostOf);
      var serviceUsage := SumBy(g.rows, UsageOf);
      var cpu := if serviceUsage > 0.0 then serviceCost / serviceUsage else 0.0;
      rows := rows + [ServiceEconomics(g.key, cpu, serviceCost, serviceUsage)];
      i := i + 1;
    }
    assert services[..i] == services;
    r := Some(UnitEconomics(overall, metric, cost, usage, rows));
  }

  lemma {:induction false} EconomicsRowsSum(groups: seq<Group<string, CostRecord>>)
    ensures SumBy(EconomicsRows(groups), EconomicsTotalOf) == GroupTotal(groups, CostOf)
    ensures SumBy(EconomicsRows(groups), EconomicsUsageOf) == GroupTotal(groups, UsageOf)
    decreases |groups|
  {
    if |groups| > 0 {
      var rows := EconomicsRows(groups);
      var rest := EconomicsRows(groups[1..]);
      assert rows == [rows[0]] + rest;
      SumByAppend([rows[0]], rest, EconomicsTotalOf);
      SumByAppend([rows[0]], rest, EconomicsUsageOf);
      SumBySingle(rows[0], EconomicsTotalOf);
      SumBySingle(rows[0], EconomicsUsageOf);
      EconomicsRowsSum(groups[1..]);
    }
  }

  /** The per-service totals add up to the overall cost and usage. */
  lemma UnitEconomicsTotals(records: seq<CostRecord>, metric: string)
    requires |records| > 0
    ensures var e := UnitEconomicsOf(records, metric).value;
      && SumBy(e.byService, EconomicsTotalOf) == e.totalCost == SumBy(records, CostOf)
      && SumBy(e.byService, EconomicsUsageOf) == e.totalUsage == SumBy(records, UsageOf)
  {
    EconomicsRowsSum(ServicesInOrder(records));
    GroupByTotal(records, ServiceOf, InsertionOrder, CostOf);
    GroupByTotal(records, ServiceOf, InsertionOrder, UsageOf);
  }

  /** There are figures exactly when there are records; each service row
      holds the cost and usage of that service's records. */
  lemma UnitEconomicsRow(records: seq<CostRecord>, metric: string, i: nat)
    requires |records| > 0 && i < |UnitEconomicsOf(records, metric).value.byService|
    ensures var row := UnitEconomicsOf(records, metric).value.byService[i];
      var mine := RowsWithKey(records, ServiceOf, row.service);
      && |mine| > 0
      && row.totalCost == SumBy(mine, CostOf)
      && row.totalUsage == SumBy(mine, UsageOf)
      && row.costPerUnit == UnitCost(row.totalCost, row.totalUsage)
  {
    var groups := ServicesInOrder(records);
    assert WellFormed(groups, InsertionOrder) by {
      InsertionOrderIsStrict<string>();
      GroupByWellFormed(records, ServiceOf, InsertionOrder);
    }
    LookupAt(groups, i);
    assert Lookup(groups, groups[i].key) == RowsWithKey(records, ServiceOf, groups[i].key) by {
      InsertionOrderIsStrict<string>();
      GroupByLookup(records, ServiceOf, InsertionOrder, groups[i].key);
    }
  }

  /** One row per service, in the order in which the services first occur. */
  lemma UnitEconomicsServices(records: seq<CostRecord>, metric: string)
    requires |records| > 0
    ensures var rows := UnitEconomicsOf(records, metric).value.byService;
      && (set i | 0 <= i < |rows| :: rows[i].service) == (set j | 0 <= j < |records| :: records[j].service)
      && (forall i, k :: 0 <= i < k < |rows| ==>
            FirstPos(records, ServiceOf, rows[i].service) < FirstPos(records, ServiceOf, rows[k].service))
  {
    var groups := ServicesInOrder(records);
    var rows := UnitEconomicsOf(records, metric).value.byService;
    InsertionOrderIsStrict<string>();
    GroupByWellFormed(records, ServiceOf, InsertionOrder);
    GroupByFirstAppearance(records, ServiceOf);
    assert (set i | 0 <= i < |rows| :: rows[i].service) == Keys(groups) by {
      forall x | x in Keys(groups) ensures x in (set i | 0 <= i < |rows| :: rows[i].service) {
        var i :| 0 <= i < |groups| && groups[i].key == x;
        assert rows[i].service == x;
      }
    }
    assert (set j | 0 <= j < |records| :: records[j].service)
        == (set j | 0 <= j < |records| :: ServiceOf(records[j]));
  }
}
