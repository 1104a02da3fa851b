/** The rule engine behind the chatbot's recommendations: three analyses that
    turn the cost list, the instance list and the unused-resource lists into
    insights, and their merge sorted by estimated savings.  Query answering
    is in EngineAnswers and the Markdown report in EngineReport. */
module InsightEngine {
  import opened Common
  import opened Grouping
  import opened Sorting
  import opened Insights
  import Text

  // ---------------------------------------------------------------- inputs

  /** One entry of the cost list; every key may be missing. */
  datatype CostItem = CostItem(service: Option<string>, cost: Option<real>, region: Option<string>)

  /** `item.get("service", "Unknown")`. */
  function ServiceName(c: CostItem): string
  {
    if c.service.Some? then c.service.value else "Unknown"
  }

  /** `float(item.get("cost", 0))`. */
  function CostValue(c: CostItem): real
  {
    if c.cost.Some? then c.cost.value else 0.0
  }

  /** One entry of the instance list. */
  datatype Resource = Resource(
    instanceId: Option<string>,
    instanceType: Option<string>,
    state: Option<string>,
    region: Option<string>)

  /** `resource.get("instance_type", "Unknown")`. */
  function TypeName(r: Resource): string
  {
    if r.instanceType.Some? then r.instanceType.value else "Unknown"
  }

  /** The lengths of the three lists of the unused-resource dict; a missing
      key counts as an empty list. */
  datatype UnusedCounts = UnusedCounts(stoppedInstances: nat, unattachedVolumes: nat, unusedElasticIps: nat)

  // ---------------------------------------------------------------- cost patterns

  /** `service_costs.items()` for a grouping: each service with its summed cost. */
  function Tally(groups: seq<Group<string, CostItem>>): seq<(string, real)>
  {
    seq(|groups|, k requires 0 <= k < |groups| => (groups[k].key, SumBy(groups[k].rows, CostValue)))
  }

  /** The dict `service_costs` as the loop leaves it: services in order of
      first appearance, each with the sum of its costs. */
  function ServiceCosts(items: seq<CostItem>): seq<(string, real)>
  {
    Tally(GroupBy(items, ServiceName, InsertionOrder))
  }

  function TotalOf(p: (string, real)): real { p.1 }

  // The fixed texts of the insights are named constants.
  const TopSpendingDescription: string :=
    " is your highest cost driver. Consider reviewing usage patterns and implementing cost controls."
  const TopSpendingRecommendation: string := " usage and consider reserved instances or savings plans."

  function TopSpending(service: string, cost: real): Insight
  {
    Insight(
      "High spending on " + service,
      service + TopSpendingDescription,
      cost * 0.15,
      High,
      "Cost Optimization",
      "Review " + service + TopSpendingRecommendation)
  }

  /** `set(item.get("region") for item in cost_data)`: a missing region is
      one more value, None. */
  function Regions(items: seq<CostItem>): set<Option<string>>
  {
    set i | 0 <= i < |items| :: items[i].region
  }

  const MultiRegionTitle: string := "Multi-region deployment detected"
  const MultiRegionSpread: string := "Your resources are spread across "
  const MultiRegionDescription: string := " regions. Consolidation could reduce costs."
  const MultiRegionCategory: string := "Architecture Optimization"
  const MultiRegionRecommendation: string := "Evaluate if all regions are necessary and consolidate where possible."

  function MultiRegion(regionCount: nat, grandTotal: real): Insight
  {
    Insight(
      MultiRegionTitle,
      MultiRegionSpread + Text.NatToString(regionCount) + MultiRegionDescription,
      grandTotal * 0.10,
      Medium,
      MultiRegionCategory,
      MultiRegionRecommendation)
  }

  /** What `_analyze_cost_patterns` returns. */
  function CostPatterns(items: seq<CostItem>): seq<Insight>
  {
    if |items| == 0 then []
    else
      var pairs := ServiceCosts(items);
      var sorted := SortDesc(pairs, TotalOf);
      (if |sorted| > 0 then [TopSpending(sorted[0].0, sorted[0].1)] else [])
      + (if |Regions(items)| > 3 then [MultiRegion(|Regions(items)|, Sum(Column(pairs, TotalOf)))] else [])
  }

  /** The ordered dict (`services`, `totals`) holds the grouping `g`: same
      keys in the same order, each total the sum of its group. */
  ghost predicate Tallied(g: seq<Group<string, CostItem>>, services: seq<string>, totals: map<string, real>)
  {
    KeysListed(g, services, totals) && TotalsSummed(g, totals)
  }

  ghost predicate KeysListed(g: seq<Group<string, CostItem>>, services: seq<string>, totals: map<string, real>)
  {
    && |services| == |g|
    && (forall k :: 0 <= k < |g| ==> services[k] == g[k].key)
    && (forall s :: s in totals <==> s in services)
  }

  ghost predicate TotalsSummed(g: seq<Group<string, CostItem>>, totals: map<string, real>)
  {
    forall s :: s in totals ==> totals[s] == SumBy(Lookup(g, s), CostValue)
  }

  /** A service is listed exactly when it is a key of the grouping. */
  lemma ListedKeys(g: seq<Group<string, CostItem>>, services: seq<string>, totals: map<string, real>, s: string)
    requires KeysListed(g, services, totals)
    ensures s in Keys(g) <==> s in totals
  {
    if s in services {
      var k :| 0 <= k < |services| && services[k] == s;
      assert g[k].key == s;
    }
  }

  /** Filing an item adds its service at the end of the list if it is new. */
  lemma KeysStep(g: seq<Group<string, CostItem>>, d: (seq<string>, map<string, real>), x: CostItem)
    requires KeysListed(g, d.0, d.1)
    ensures KeysListed(AddRow(g, x, ServiceName, InsertionOrder), DictStep(d, x).0, DictStep(d, x).1)
  {
    ListedKeys(g, d.0, d.1, ServiceName(x));
    AddRowAppends(g, x, ServiceName);
  }

  /** Filing an item adds its cost to its service's total and no other. */
  lemma TotalsStep(g: seq<Group<string, CostItem>>, d: (seq<string>, map<string, real>), x: CostItem)
    requires WellFormed(g, InsertionOrder) && TotalsSummed(g, d.1)
    requires ServiceName(x) !in d.1 ==> ServiceName(x) !in Keys(g)
    ensures TotalsSummed(AddRow(g, x, ServiceName, InsertionOrder), DictStep(d, x).1)
  {
    forall q | q in DictStep(d, x).1
      ensures DictStep(d, x).1[q] == SumBy(Lookup(AddRow(g, x, ServiceName, InsertionOrder), q), CostValue)
    {
      TotalAt(g, d, x, q);
    }
  }

  /** `TotalsStep` for one service `q`. */
  lemma TotalAt(g: seq<Group<string, CostItem>>, d: (seq<string>, map<string, real>), x: CostItem, q: string)
    requires WellFormed(g, InsertionOrder)
    requires q in d.1 ==> d.1[q] == SumBy(Lookup(g, q), CostValue)
    requires ServiceName(x) !in d.1 ==> ServiceName(x) !in Keys(g)
    ensures q in DictStep(d, x).1 ==> DictStep(d, x).1[q] == SumBy(Lookup(AddRow(g, x, ServiceName, InsertionOrder), q), CostValue)
  {
    InsertionOrderIsStrict<string>();
    AddRowLookup(g, x, ServiceName, InsertionOrder, q);
    if q == ServiceName(x) {
      TotalAtService(g, d, x);
    } else {
      assert Lookup(g, q) + [] == Lookup(g, q);
    }
  }

  /** The item's own service gains the item's cost. */
  lemma TotalAtService(g: seq<Group<string, CostItem>>, d: (seq<string>, map<string, real>), x: CostItem)
    requires ServiceName(x) in d.1 ==> d.1[ServiceName(x)] == SumBy(Lookup(g, ServiceName(x)), CostValue)
    requires ServiceName(x) !in d.1 ==> ServiceName(x) !in Keys(g)
    ensures DictStep(d, x).1[ServiceName(x)] == SumBy(Lookup(g, ServiceName(x)) + [x], CostValue)
  {
    var s := ServiceName(x);
    SumBySnoc(Lookup(g, s), x, CostValue);
    if s !in d.1 {
      LookupAbsent(g, s);
    }
  }

  /** Read in insertion order, the dict's entries are the grouping's sums. */
  lemma TalliedItems(items: seq<CostItem>, services: seq<string>, totals: map<string, real>)
    requires Tallied(GroupBy(items, ServiceName, InsertionOrder), services, totals)
    ensures forall k :: 0 <= k < |services| ==> services[k] in totals
    ensures seq(|services|, k requires 0 <= k < |services| && services[k] in totals => (services[k], totals[services[k]]))
         == ServiceCosts(items)
  {
    var g := GroupBy(items, ServiceName, InsertionOrder);
    InsertionOrderIsStrict<string>();
    GroupByWellFormed(items, ServiceName, InsertionOrder);
    forall k | 0 <= k < |g| ensures services[k] in totals && totals[services[k]] == SumBy(g[k].rows, CostValue) {
      LookupAt(g, k);
    }
  }

  /** One pass of the loop body: a new service is first entered with 0,
      then the item's cost is added to its service. */
  function DictStep(d: (seq<string>, map<string, real>), x: CostItem): (seq<string>, map<string, real>)
  {
    var s := ServiceName(x);
    if s in d.1 then (d.0, d.1[s := d.1[s] + CostValue(x)])
    else (d.0 + [s], d.1[s := 0.0][s := 0.0 + CostValue(x)])
  }

  /** The ordered dict after the loop has read the first `i` items: the
      services in insertion order and their running totals. */
  function DictAfter(items: seq<CostItem>, i: nat): (seq<string>, map<string, real>)
    requires i <= |items|
  {
    if i == 0 then ([], map[]) else DictStep(DictAfter(items, i - 1), items[i - 1])
  }

  /** One pass of the loop body keeps the dict equal to the grouping. */
  lemma TallyStep(g: seq<Group<string, CostItem>>, d: (seq<string>, map<string, real>), x: CostItem)
    requires WellFormed(g, InsertionOrder) && Tallied(g, d.0, d.1)
    ensures Tallied(AddRow(g, x, ServiceName, InsertionOrder), DictStep(d, x).0, DictStep(d, x).1)
  {
    ListedKeys(g, d.0, d.1, ServiceName(x));
    KeysStep(g, d, x);
    TotalsStep(g, d, x);
  }

  /** At every step the dict holds the grouping of the items read so far. */
  lemma {:induction false} DictAfterTallied(items: seq<CostItem>, i: nat)
    requires i <= |items|
    ensures Tallied(GroupFirst(items, i, ServiceName, InsertionOrder), DictAfter(items, i).0, DictAfter(items, i).1)
    decreases i
  {
    if i > 0 {
      DictAfterTallied(items, i - 1);
      InsertionOrderIsStrict<string>();
      GroupFirstWellFormed(items, i - 1, ServiceName, InsertionOrder);
      TallyStep(GroupFirst(items, i - 1, ServiceName, InsertionOrder), DictAfter(items, i - 1), items[i - 1]);
    }
  }

  /** The loop of `_analyze_cost_patterns` summing costs into the ordered
      dict `service_costs`; returns its items in insertion order. */
  method TallyServiceCosts(items: seq<CostItem>) returns (pairs: seq<(string, real)>)
    ensures pairs == ServiceCosts(items)
  {
    var services: seq<string> := [];
    var totals: map<string, real> := map[];
    var i := 0;
    while i < |items|
      invariant 0 <= i <= |items|
      invariant (services, totals) == DictAfter(items, i)
    {
      var service := ServiceName(items[i]);
      var cost := CostValue(items[i]);
      if service !in totals {
        totals := totals[service := 0.0];
        services := services + [service];
      }
      totals := totals[service := totals[service] + cost];
      i := i + 1;
    }
    DictAfterTallied(items, i);
    GroupFirstAll(items, ServiceName, InsertionOrder);
    TalliedItems(items, services, totals);
    pairs := seq(|services|, k requires 0 <= k < |services| && services[k] in totals => (services[k], totals[services[k]]));
  }

  /** `_analyze_cost_patterns`: the per-service totals, then the top-service
      and multi-region checks. */
  method AnalyzeCostPatterns(items: seq<CostItem>) returns (insights: seq<Insight>)
    ensures insights == CostPatterns(items)
  {
    insights := [];
    if |items| == 0 {
      return;
    }
    var pairs := TallyServiceCosts(items);
    var sorted := SortDesc(pairs, TotalOf);
    if |sorted| > 0 {
      var top := sorted[0];
      insights := insights + [TopSpending(top.0, top.1)];
    }
    assert insights == if |sorted| > 0 then [TopSpending(sorted[0].0, sorted[0].1)] else [];
    var regions := Regions(items);
    if |regions| > 3 {
      insights := insights + [MultiRegion(|regions|, Sum(Column(pairs, TotalOf)))];
    }
  }

  lemma {:induction false} TallyTotal(groups: seq<Group<string, CostItem>>)
    ensures SumBy(Tally(groups), TotalOf) == GroupTotal(groups, CostValue)
    decreases |groups|
  {
    if |groups| > 0 {
      var t := Tally(groups);
      assert t == [t[0]] + Tally(groups[1..]);
      SumByAppend([t[0]], Tally(groups[1..]), TotalOf);
      SumBySingle(t[0], TotalOf);
      TallyTotal(groups[1..]);
    }
  }

  /** The per-service sums add up to the cost of every item. */
  lemma ServiceCostsTotal(items: seq<CostItem>)
    ensures Sum(Column(ServiceCosts(items), TotalOf)) == SumBy(items, CostValue)
  {
    SumColumn(ServiceCosts(items), TotalOf);
    TallyTotal(GroupBy(items, ServiceName, InsertionOrder));
    GroupByTotal(items, ServiceName, InsertionOrder, CostValue);
  }

  /** The cost summed over the items of service `s`. */
  function ServiceTotal(items: seq<CostItem>, s: string): real
  {
    SumBy(RowsWithKey(items, ServiceName, s), CostValue)
  }

  /** Position of the first item of service `s`. */
  function FirstSeen(items: seq<CostItem>, s: string): nat
  {
    FirstPos(items, ServiceName, s)
  }

  /** Each entry of the dict is a service of the input with its total, the
      entries are distinct and come in order of first appearance. */
  lemma ServiceCostsEntries(items: seq<CostItem>)
    ensures (set k | 0 <= k < |ServiceCosts(items)| :: ServiceCosts(items)[k].0)
         == (set i | 0 <= i < |items| :: ServiceName(items[i]))
    ensures forall k :: 0 <= k < |ServiceCosts(items)| ==>
      ServiceCosts(items)[k].1 == ServiceTotal(items, ServiceCosts(items)[k].0)
    ensures forall k, l :: 0 <= k < l < |ServiceCosts(items)| ==>
      FirstSeen(items, ServiceCosts(items)[k].0) < FirstSeen(items, ServiceCosts(items)[l].0)
  {
    var g := GroupBy(items, ServiceName, InsertionOrder);
    var pairs := ServiceCosts(items);
    InsertionOrderIsStrict<string>();
    GroupByWellFormed(items, ServiceName, InsertionOrder);
    GroupByFirstAppearance(items, ServiceName);
    forall k | 0 <= k < |pairs| ensures pairs[k].1 == ServiceTotal(items, pairs[k].0) {
      LookupAt(g, k);
      GroupByLookup(items, ServiceName, InsertionOrder, g[k].key);
    }
    forall x | x in Keys(g) ensures x in (set k | 0 <= k < |pairs| :: pairs[k].0) {
      var k :| 0 <= k < |g| && g[k].key == x;
      assert pairs[k].0 == x;
    }
    assert (set i | 0 <= i < |items| :: ServiceName(items[i])) == Keys(g);
  }

  /** `sorted(service_costs.items(), key=..., reverse=True)[0]` is the
      service with the largest total, the first-seen one among equal totals,
      and the insight estimates 15% of that total. */
  lemma CostPatternsTop(items: seq<CostItem>) returns (top: string)
    requires |items| > 0
    ensures |CostPatterns(items)| > 0
    ensures CostPatterns(items)[0] == TopSpending(top, ServiceTotal(items, top))
    ensures CostPatterns(items)[0].potentialSavings == 0.15 * ServiceTotal(items, top)
    ensures exists i :: 0 <= i < |items| && ServiceName(items[i]) == top
    ensures forall i :: 0 <= i < |items| ==> ServiceTotal(items, ServiceName(items[i])) <= ServiceTotal(items, top)
    ensures forall i :: 0 <= i < |items| && FirstSeen(items, ServiceName(items[i])) < FirstSeen(items, top) ==>
      ServiceTotal(items, ServiceName(items[i])) < ServiceTotal(items, top)
  {
    var pairs := ServiceCosts(items);
    GroupByNonEmpty(items, ServiceName, InsertionOrder);
    SortDescProperties(pairs, TotalOf);
    var t := SortDescHead(pairs, TotalOf);
    top := pairs[t].0;
    ServiceCostsEntries(items);
    var names := set k | 0 <= k < |pairs| :: pairs[k].0;
    assert top in names;
    forall i | 0 <= i < |items|
      ensures ServiceTotal(items, ServiceName(items[i])) <= ServiceTotal(items, top)
      ensures FirstSeen(items, ServiceName(items[i])) < FirstSeen(items, top) ==>
        ServiceTotal(items, ServiceName(items[i])) < ServiceTotal(items, top)
    {
      assert ServiceName(items[i]) in names;
      var k :| 0 <= k < |pairs| && pairs[k].0 == ServiceName(items[i]);
      assert TotalOf(pairs[k]) <= TotalOf(pairs[t]);
      if k < t {
        assert TotalOf(pairs[k]) < TotalOf(pairs[t]);
      }
    }
  }

  /** Nothing for no items; otherwise the top-service insight, then the
      multi-region insight exactly when more than three distinct region
      values occur, estimating 10% of the whole bill. */
  lemma CostPatternsShape(items: seq<CostItem>)
    ensures |CostPatterns(items)| == 0 <==> |items| == 0
    ensures |items| > 0 ==> |CostPatterns(items)| == if |Regions(items)| > 3 then 2 else 1
    ensures |items| > 0 && |Regions(items)| > 3 ==>
      CostPatterns(items)[1] == MultiRegion(|Regions(items)|, SumBy(items, CostValue))
  {
    if |items| > 0 {
      GroupByNonEmpty(items, ServiceName, InsertionOrder);
      SortDescProperties(ServiceCosts(items), TotalOf);
      ServiceCostsTotal(items);
    }
  }

  // ---------------------------------------------------------------- resource utilization

  /** A type counts as large when it contains one of "xlarge", "2xlarge",
      "3xlarge". */
  predicate IsLarge(t: string)
  {
    Text.Contains(t, "xlarge") || Text.Contains(t, "2xlarge") || Text.Contains(t, "3xlarge")
  }

  /** The number of resources whose type satisfies `p`. */
  function CountTypes(resources: seq<Resource>, p: string -> bool): nat
  {
    if |resources| == 0 then 0
    else CountTypes(resources[..|resources| - 1], p) + (if p(TypeName(resources[|resources| - 1])) then 1 else 0)
  }

  /** The number of resources of a large type. */
  function LargeCount(resources: seq<Resource>): nat
  {
    CountTypes(resources, IsLarge)
  }

  const LargeInstancesTitle: string := "Large instance types in use ("
  const LargeInstancesDescription: string :=
    "You have large instance types running. Consider right-sizing to smaller instances if utilization is low."
  const LargeInstancesRecommendation: string :=
    "Enable CloudWatch monitoring and analyze CPU/memory utilization to identify right-sizing opportunities."

  function LargeInstances(n: nat): Insight
  {
    Insight(
      LargeInstancesTitle + Text.NatToString(n) + " instances)",
      LargeInstancesDescription,
      n as real * 50.0,
      Medium,
      "Right-sizing",
      LargeInstancesRecommendation)
  }

  /** What `_analyze_resource_utilization` returns. */
  function ResourceUtilization(resources: seq<Resource>): seq<Insight>
  {
    if |resources| == 0 || LargeCount(resources) == 0 then []
    else [LargeInstances(LargeCount(resources))]
  }

  /** `sum(v for k, v in instance_types.items() if p(k))`, over the types in
      insertion order. */
  function SumCounts(types: seq<string>, counts: map<string, nat>, p: string -> bool): nat
  {
    if |types| == 0 then 0
    else
      var t := types[|types| - 1];
      SumCounts(types[..|types| - 1], counts, p) + (if p(t) && t in counts then counts[t] else 0)
  }

  /** Changing the count of one type moves the sum by the change when that
      type satisfies `p` and is listed once, and not at all when it is not
      listed. */
  lemma {:induction false} SumCountsUpdate(types: seq<string>, counts: map<string, nat>, p: string -> bool, t: string, v: nat)
    requires Distinct(types)
    ensures t !in types ==> SumCounts(types, counts[t := v], p) == SumCounts(types, counts, p)
    ensures t in types && t in counts ==>
      SumCounts(types, counts[t := v], p) + (if p(t) then counts[t] else 0)
        == SumCounts(types, counts, p) + (if p(t) then v else 0)
    decreases |types|
  {
    if |types| > 0 {
      var init := types[..|types| - 1];
      var last := types[|types| - 1];
      assert Distinct(init);
      SumCountsUpdate(init, counts, p, t, v);
      if last == t {
        assert t !in init;
      } else {
        assert t in types ==> t in init;
      }
    }
  }

  /** With every listed type counted at least once, the sum is positive
      exactly when some listed type satisfies `p`. */
  lemma {:induction false} SumCountsPositive(types: seq<string>, counts: map<string, nat>, p: string -> bool)
    requires forall t :: t in types ==> t in counts && counts[t] >= 1
    ensures SumCounts(types, counts, p) > 0 <==> exists k :: 0 <= k < |types| && p(types[k])
    decreases |types|
  {
    if |types| > 0 {
      var init := types[..|types| - 1];
      SumCountsPositive(init, counts, p);
      if exists k :: 0 <= k < |init| && p(init[k]) {
        var k :| 0 <= k < |init| && p(init[k]);
        assert types[k] == init[k];
      }
      if exists k :: 0 <= k < |types| && p(types[k]) {
        var k :| 0 <= k < |types| && p(types[k]);
        if k < |init| {
          assert init[k] == types[k];
        }
      }
    }
  }

  /** The dict `instance_types` (`types` in insertion order, `counts`) as far
      as the filtered sum is concerned: each type listed once and counted at
      least once, and the counts of the types satisfying `p` adding up to `n`. */
  ghost predicate Counted(types: seq<string>, counts: map<string, nat>, p: string -> bool, n: nat)
  {
    && Distinct(types)
    && (forall t :: t in counts <==> t in types)
    && (forall t :: t in counts ==> counts[t] >= 1)
    && SumCounts(types, counts, p) == n
  }

  /** One pass of the counting loop's body: a new type is first entered
      with 0, then its count goes up by one. */
  function CountsStep(d: (seq<string>, map<string, nat>), r: Resource): (seq<string>, map<string, nat>)
  {
    var t := TypeName(r);
    if t in d.1 then (d.0, d.1[t := d.1[t] + 1])
    else (d.0 + [t], d.1[t := 0][t := 0 + 1])
  }

  /** The dict `instance_types` after the loop has read the first `i`
      resources: the types in insertion order and their counts. */
  function CountsAfter(resources: seq<Resource>, i: nat): (seq<string>, map<string, nat>)
    requires i <= |resources|
  {
    if i == 0 then ([], map[]) else CountsStep(CountsAfter(resources, i - 1), resources[i - 1])
  }

  lemma CountTypesPrefix(resources: seq<Resource>, i: nat, p: string -> bool)
    requires i < |resources|
    ensures CountTypes(resources[..i + 1], p) == CountTypes(resources[..i], p) + Indicator(p(TypeName(resources[i])))
  {
    assert resources[..i + 1][..i] == resources[..i];
  }

  /** One pass of the loop body keeps `Counted`, counting the resource when
      its type satisfies `p`. */
  lemma CountStep(d: (seq<string>, map<string, nat>), r: Resource, p: string -> bool, n: nat)
    requires Counted(d.0, d.1, p, n)
    ensures Counted(CountsStep(d, r).0, CountsStep(d, r).1, p, n + Indicator(p(TypeName(r))))
  {
    var t := TypeName(r);
    var d' := CountsStep(d, r);
    if t in d.1 {
      SumCountsUpdate(d.0, d.1, p, t, d.1[t] + 1);
    } else {
      MapUpdateTwice(d.1, t, 0, 1);
      SumCountsUpdate(d.0, d.1, p, t, 1);
      assert d'.0[..|d.0|] == d.0;
      DistinctSnoc(d.0, t);
    }
  }

  /** At every step the counts are those of the resources read so far. */
  lemma {:induction false} CountsAfterCounted(resources: seq<Resource>, i: nat)
    requires i <= |resources|
    ensures Counted(CountsAfter(resources, i).0, CountsAfter(resources, i).1, IsLarge, CountTypes(resources[..i], IsLarge))
    decreases i
  {
    if i > 0 {
      CountsAfterCounted(resources, i - 1);
      CountStep(CountsAfter(resources, i - 1), resources[i - 1], IsLarge, CountTypes(resources[..i - 1], IsLarge));
      CountTypesPrefix(resources, i - 1, IsLarge);
    }
  }

  /** The per-type counts determine the analysis: an insight exactly when a
      counted type is large, carrying the large types' total. */
  lemma CountedUtilization(resources: seq<Resource>, types: seq<string>, counts: map<string, nat>)
    requires |resources| > 0 && Counted(types, counts, IsLarge, LargeCount(resources))
    ensures ResourceUtilization(resources)
         == if exists k :: 0 <= k < |types| && IsLarge(types[k]) then [LargeInstances(SumCounts(types, counts, IsLarge))] else []
  {
    SumCountsPositive(types, counts, IsLarge);
  }

  /** The loop of `_analyze_resource_utilization` counting instances per
      type, followed by the large-type selection. */
  method AnalyzeResourceUtilization(resources: seq<Resource>) returns (insights: seq<Insight>)
    ensures insights == ResourceUtilization(resources)
  {
    insights := [];
    if |resources| == 0 {
      return;
    }
    var types: seq<string> := [];
    var counts: map<string, nat> := map[];
    var i := 0;
    while i < |resources|
      invariant 0 <= i <= |resources|
      invariant (types, counts) == CountsAfter(resources, i)
    {
      var itype := TypeName(resources[i]);
      if itype !in counts {
        counts := counts[itype := 0];
        types := types + [itype];
      }
      counts := counts[itype := counts[itype] + 1];
      i := i + 1;
    }
    CountsAfterCounted(resources, i);
    assert resources[..i] == resources;
    CountedUtilization(resources, types, counts);
    // `large_instances` is non-empty exactly when some counted type is large.
    var anyLarge := exists k :: 0 <= k < |types| && IsLarge(types[k]);
    if anyLarge {
      var totalLarge := SumCounts(types, counts, IsLarge);
      insights := [LargeInstances(totalLarge)];
    }
  }

  /** "2xlarge" and "3xlarge" add nothing: a type is large exactly when it
      contains "xlarge". */
  lemma LargeMeansXlarge(t: string)
    ensures IsLarge(t) <==> Text.Contains(t, "xlarge")
  {
    assert Text.Contains("2xlarge", "xlarge") by {
      assert Text.StartsWith("2xlarge"[1..], "xlarge");
    }
    assert Text.Contains("3xlarge", "xlarge") by {
      assert Text.StartsWith("3xlarge"[1..], "xlarge");
    }
    if Text.Contains(t, "2xlarge") {
      Text.ContainsTransitive(t, "2xlarge", "xlarge");
    }
    if Text.Contains(t, "3xlarge") {
      Text.ContainsTransitive(t, "3xlarge", "xlarge");
    }
  }

  lemma {:induction false} CountTypesPositive(resources: seq<Resource>, p: string -> bool)
    ensures CountTypes(resources, p) > 0 <==> exists i :: 0 <= i < |resources| && p(TypeName(resources[i]))
    decreases |resources|
  {
    if |resources| > 0 {
      var init := resources[..|resources| - 1];
      CountTypesPositive(init, p);
      if exists i :: 0 <= i < |init| && p(TypeName(init[i])) {
        var i :| 0 <= i < |init| && p(TypeName(init[i]));
        assert resources[i] == init[i];
      }
      if exists i :: 0 <= i < |resources| && p(TypeName(resources[i])) {
        var i :| 0 <= i < |resources| && p(TypeName(resources[i]));
        if i < |init| {
          assert init[i] == resources[i];
        }
      }
    }
  }

  /** At most one insight, present exactly when some resource's type
      contains "xlarge", and estimating $50 per large resource. */
  lemma ResourceUtilizationShape(resources: seq<Resource>)
    ensures |ResourceUtilization(resources)| <= 1
    ensures |ResourceUtilization(resources)| == 1 <==>
      exists i :: 0 <= i < |resources| && Text.Contains(TypeName(resources[i]), "xlarge")
    ensures |ResourceUtilization(resources)| == 1 ==>
      ResourceUtilization(resources)[0].potentialSavings == 50.0 * LargeCount(resources) as real
  {
    var r := ResourceUtilization(resources);
    CountTypesPositive(resources, IsLarge);
    assert |r| == 1 <==> exists i :: 0 <= i < |resources| && IsLarge(TypeName(resources[i]));
    forall i | 0 <= i < |resources| ensures IsLarge(TypeName(resources[i])) <==> Text.Contains(TypeName(resources[i]), "xlarge") {
      LargeMeansXlarge(TypeName(resources[i]));
    }
  }

  // ---------------------------------------------------------------- unused resources

  const Cleanup: string := "Resource Cleanup"
  const StoppedTitle: string := "Stopped EC2 instances ("
  const StoppedDescription: string := " stopped instances. Consider terminating if no longer needed."
  const StoppedRecommendation: string :=
    "Review stopped instances and terminate those no longer needed. Consider using Auto Scaling for dynamic capacity."
  const VolumesTitle: string := "Unattached EBS volumes ("
  const VolumesDescription: string := " unattached volumes incurring costs."
  const VolumesRecommendation: string := "Delete unattached volumes or attach them to running instances."
  const AddressesTitle: string := "Unused Elastic IPs ("
  const AddressesDescription: string := " unassociated Elastic IPs incurring charges."
  const AddressesRecommendation: string := "Release unused Elastic IPs or associate them with running instances."

  function StoppedInstances(n: nat): Insight
  {
    Insight(
      StoppedTitle + Text.NatToString(n) + " found)",
      "You have " + Text.NatToString(n) + StoppedDescription,
      n as real * 30.0,
      High,
      Cleanup,
      StoppedRecommendation)
  }

  function UnattachedVolumes(n: nat): Insight
  {
    Insight(
      VolumesTitle + Text.NatToString(n) + " found)",
      "You have " + Text.NatToString(n) + VolumesDescription,
      n as real * 5.0,
      Medium,
      Cleanup,
      VolumesRecommendation)
  }

  function UnusedElasticIps(n: nat): Insight
  {
    Insight(
      AddressesTitle + Text.NatToString(n) + " found)",
      "You have " + Text.NatToString(n) + AddressesDescription,
      n as real * 3.65,
      Low,
      Cleanup,
      AddressesRecommendation)
  }

  /** What `_analyze_unused_resources` returns: one insight per non-empty list. */
  function UnusedResources(u: UnusedCounts): seq<Insight>
  {
    (if u.stoppedInstances > 0 then [StoppedInstances(u.stoppedInstances)] else [])
    + (if u.unattachedVolumes > 0 then [UnattachedVolumes(u.unattachedVolumes)] else [])
    + (if u.unusedElasticIps > 0 then [UnusedElasticIps(u.unusedElasticIps)] else [])
  }

  function Indicator(b: bool): nat { if b then 1 else 0 }

  /** One insight per non-empty list, so at most three. */
  lemma UnusedResourcesCount(u: UnusedCounts)
    ensures |UnusedResources(u)|
         == Indicator(u.stoppedInstances > 0) + Indicator(u.unattachedVolumes > 0) + Indicator(u.unusedElasticIps > 0)
    ensures |UnusedResources(u)| <= 3
  {
  }

  /** Together the insights estimate $30 per stopped instance, $5 per volume
      and $3.65 per address. */
  lemma UnusedResourcesSavings(u: UnusedCounts)
    ensures SumBy(UnusedResources(u), SavingsOf)
         == 30.0 * u.stoppedInstances as real + 5.0 * u.unattachedVolumes as real + 3.65 * u.unusedElasticIps as real
  {
    var a := if u.stoppedInstances > 0 then [StoppedInstances(u.stoppedInstances)] else [];
    var b := if u.unattachedVolumes > 0 then [UnattachedVolumes(u.unattachedVolumes)] else [];
    var c := if u.unusedElasticIps > 0 then [UnusedElasticIps(u.unusedElasticIps)] else [];
    SumByAppend(a + b, c, SavingsOf);
    SumByAppend(a, b, SavingsOf);
    if |a| > 0 { SumBySingle(a[0], SavingsOf); }
    if |b| > 0 { SumBySingle(b[0], SavingsOf); }
    if |c| > 0 { SumBySingle(c[0], SavingsOf); }
  }

  /** Stopped instances rank High, volumes Medium, addresses Low. */
  lemma UnusedResourcesPriorities(u: UnusedCounts)
    ensures forall k :: 0 <= k < |UnusedResources(u)| ==>
      (UnusedResources(u)[k].priority == High <==> UnusedResources(u)[k] == StoppedInstances(u.stoppedInstances))
    ensures forall k :: 0 <= k < |UnusedResources(u)| ==>
      (UnusedResources(u)[k].priority == Low <==> UnusedResources(u)[k] == UnusedElasticIps(u.unusedElasticIps))
  {
  }

  // ---------------------------------------------------------------- all insights

  /** What `generate_optimization_insights` returns: the three analyses
      concatenated and stably sorted by savings, largest first. */
  function OptimizationInsights(costItems: seq<CostItem>, resources: seq<Resource>, unused: UnusedCounts): seq<Insight>
  {
    SortDesc(CostPatterns(costItems) + ResourceUtilization(resources) + UnusedResources(unused), SavingsOf)
  }

  method GenerateOptimizationInsights(costItems: seq<CostItem>, resources: seq<Resource>, unused: UnusedCounts)
    returns (insights: seq<Insight>)
    ensures insights == OptimizationInsights(costItems, resources, unused)
  {
    var fromCosts := AnalyzeCostPatterns(costItems);
    var fromResources := AnalyzeResourceUtilization(resources);
    var all := fromCosts + fromResources + UnusedResources(unused);
    insights := SortDesc(all, SavingsOf);
  }

  /** The merged list is a permutation of the three analyses' output, ordered
      by savings, largest first, with insights of equal savings in their
      original order; there are at most six. */
  lemma OptimizationInsightsOrder(costItems: seq<CostItem>, resources: seq<Resource>, unused: UnusedCounts)
    ensures var all := CostPatterns(costItems) + ResourceUtilization(resources) + UnusedResources(unused);
      && multiset(OptimizationInsights(costItems, resources, unused)) == multiset(all)
      && NonIncreasing(OptimizationInsights(costItems, resources, unused), SavingsOf)
      && (forall v :: WithKey(OptimizationInsights(costItems, resources, unused), SavingsOf, v) == WithKey(all, SavingsOf, v))
    ensures |OptimizationInsights(costItems, resources, unused)| <= 6
  {
    var all := CostPatterns(costItems) + ResourceUtilization(resources) + UnusedResources(unused);
    SortDescProperties(all, SavingsOf);
    forall v ensures WithKey(SortDesc(all, SavingsOf), SavingsOf, v) == WithKey(all, SavingsOf, v) {
      SortDescStable(all, SavingsOf, v);
    }
    CostPatternsShape(costItems);
    ResourceUtilizationShape(resources);
    UnusedResourcesCount(unused);
  }
}
