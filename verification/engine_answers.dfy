/** How the engine answers a question.  With synced costs, instances or
    optimizations it answers from that data, choosing the topic by keyword;
    otherwise it hands the language model a summary of what it has, and
    answers from the canned table when the model gives nothing. */
module EngineAnswers {
  import opened Common
  import opened Insights
  import opened InsightEngine
  import Text

  // ---------------------------------------------------------------- inputs

  /** An entry of the optimizations or insights list, as the answers read it;
      every key may be missing. */
  datatype Suggestion = Suggestion(
    title: Option<string>,
    description: Option<string>,
    savings: Option<real>,
    potentialSavings: Option<real>)

  /** The context dict handed to `answer_query`; a missing key is an empty list. */
  datatype QueryContext = QueryContext(
    costs: seq<CostItem>,
    resources: seq<Resource>,
    insights: seq<Suggestion>,
    optimizations: seq<Suggestion>)

  /** `s[:n]`. */
  function Take<T>(s: seq<T>, n: nat): (r: seq<T>)
    ensures |r| == if |s| <= n then |s| else n
    ensures forall k :: 0 <= k < |r| ==> r[k] == s[k]
  {
    if |s| <= n then s else s[..n]
  }

  // ---------------------------------------------------------------- data-driven answers

  const ResourceWords: seq<string> := ["resource", "instance", "running", "ec2"]
  const CostWords: seq<string> := ["cost", "spend", "bill", "expensive", "price"]
  const OptimizationWords: seq<string> := ["optim", "save", "reduce", "improve", "recommendation"]

  /** `any(word in q for word in words)`. */
  predicate Mentions(q: string, words: seq<string>)
  {
    exists k :: 0 <= k < |words| && Text.Contains(q, words[k])
  }

  /** A cost entry is falsy only as an empty dict: no key present. */
  predicate Truthy(c: CostItem)
  {
    c.service.Some? || c.cost.Some? || c.region.Some?
  }

  const DefaultTitle: string := "Cost optimization"
  const DefaultDescription: string := "Review your AWS resources for cost reduction opportunities."

  /** `item.get('savings') or item.get('potential_savings', 0)`: a zero
      `savings` counts as missing. */
  function SuggestedSavings(s: Suggestion): real
  {
    if s.savings.Some? && s.savings.value != 0.0 then s.savings.value
    else if s.potentialSavings.Some? then s.potentialSavings.value
    else 0.0
  }

  /** The answers `_get_data_driven_response` can give; each stands for its
      sentence, with the values the sentence shows. */
  datatype Answer =
    | ResourcesRunning(count: nat, shown: seq<Resource>)  // "You have N resources running. Key instances: ..."
    | NoResources                                         // "No resources found in your AWS account. ..."
    | TotalSpending(total: real, top: CostItem)           // "Your total AWS spending is $x. Top service: ..."
    | TotalSpendingOnly(total: real)                      // "Your total AWS spending is $x. Review your services ..."
    | NoCostData                                          // "No cost data available. ..."
    | TopOptimization(title: string, savings: real, description: string)
    | ReviewOptimizations                                 // "Review your AWS resources for optimization opportunities. ..."
    | Overview(instances: Option<nat>, totalCost: Option<real>)  // "You have N resources running. with total costs of $x. ..."
    | NoData                                              // "No AWS data available. Please sync your account first ..."

  datatype Topic = ResourceTopic | CostTopic | OptimizationTopic | GeneralTopic

  function TopicOf(a: Answer): Topic
  {
    match a
    case ResourcesRunning(_, _) => ResourceTopic
    case NoResources => ResourceTopic
    case TotalSpending(_, _) => CostTopic
    case TotalSpendingOnly(_) => CostTopic
    case NoCostData => CostTopic
    case TopOptimization(_, _, _) => OptimizationTopic
    case ReviewOptimizations => OptimizationTopic
    case _ => GeneralTopic
  }

  function ResourceAnswer(ctx: QueryContext): Answer
  {
    if |ctx.resources| > 0 then ResourcesRunning(|ctx.resources|, Take(ctx.resources, 3)) else NoResources
  }

  function CostAnswer(ctx: QueryContext): Answer
  {
    if |ctx.costs| > 0 then
      var total := SumBy(ctx.costs, CostValue);
      if Truthy(ctx.costs[0]) then TotalSpending(total, ctx.costs[0]) else TotalSpendingOnly(total)
    else NoCostData
  }

  function OptimizationAnswer(ctx: QueryContext): Answer
  {
    var items := ctx.optimizations + ctx.insights;
    if |items| > 0 then
      var top := items[0];
      TopOptimization(
        if top.title.Some? then top.title.value else DefaultTitle,
        SuggestedSavings(top),
        if top.description.Some? then top.description.value else DefaultDescription)
    else ReviewOptimizations
  }

  function GeneralAnswer(ctx: QueryContext): Answer
  {
    if |ctx.resources| > 0 || |ctx.costs| > 0 then
      Overview(
        if |ctx.resources| > 0 then Some(|ctx.resources|) else None,
        if |ctx.costs| > 0 then Some(SumBy(ctx.costs, CostValue)) else None)
    else NoData
  }

  /** `_get_data_driven_response`: the first keyword list the lower-cased
      query mentions picks the topic. */
  function DataDrivenResponse(query: string, ctx: QueryContext): Answer
  {
    var q := Text.Lower(query);
    if Mentions(q, ResourceWords) then ResourceAnswer(ctx)
    else if Mentions(q, CostWords) then CostAnswer(ctx)
    else if Mentions(q, OptimizationWords) then OptimizationAnswer(ctx)
    else GeneralAnswer(ctx)
  }

  /** Resource words win over cost words, cost words over optimization
      words; a query mentioning none gets the overview. */
  lemma DataDrivenTopic(query: string, ctx: QueryContext)
    ensures var q := Text.Lower(query); var t := TopicOf(DataDrivenResponse(query, ctx));
      && (t == ResourceTopic <==> Mentions(q, ResourceWords))
      && (t == CostTopic <==> !Mentions(q, ResourceWords) && Mentions(q, CostWords))
      && (t == OptimizationTopic <==> !Mentions(q, ResourceWords) && !Mentions(q, CostWords) && Mentions(q, OptimizationWords))
      && (t == GeneralTopic <==> !Mentions(q, ResourceWords) && !Mentions(q, CostWords) && !Mentions(q, OptimizationWords))
  {
  }

  /** The resource answer gives the number of instances and shows the first
      three, or says there are none. */
  lemma ResourceAnswerShape(ctx: QueryContext)
    ensures ResourceAnswer(ctx).ResourcesRunning? <==> |ctx.resources| > 0
    ensures ResourceAnswer(ctx).ResourcesRunning? ==>
      var a := ResourceAnswer(ctx);
      && a.count == |ctx.resources|
      && |a.shown| == (if |ctx.resources| < 3 then |ctx.resources| else 3)
      && forall k :: 0 <= k < |a.shown| ==> a.shown[k] == ctx.resources[k]
  {
  }

  /** The cost answer's total is the sum over all cost entries, which is also
      the sum of the per-service totals of the cost-pattern analysis; the
      service it names is the first entry's. */
  lemma CostAnswerShape(ctx: QueryContext)
    ensures CostAnswer(ctx) == NoCostData <==> |ctx.costs| == 0
    ensures CostAnswer(ctx).TotalSpending? || CostAnswer(ctx).TotalSpendingOnly? ==>
      CostAnswer(ctx).total == SumBy(ctx.costs, CostValue)
      && CostAnswer(ctx).total == Sum(Column(ServiceCosts(ctx.costs), TotalOf))
    ensures CostAnswer(ctx).TotalSpending? ==> CostAnswer(ctx).top == ctx.costs[0]
    ensures CostAnswer(ctx).TotalSpendingOnly? ==> !Truthy(ctx.costs[0])
  {
    ServiceCostsTotal(ctx.costs);
  }

  /** The optimization answer shows the first optimization, or the first
      insight when there is no optimization. */
  lemma OptimizationAnswerShape(ctx: QueryContext)
    ensures OptimizationAnswer(ctx) == ReviewOptimizations <==> |ctx.optimizations| == 0 && |ctx.insights| == 0
    ensures |ctx.optimizations| > 0 ==>
      OptimizationAnswer(ctx).savings == SuggestedSavings(ctx.optimizations[0])
    ensures |ctx.optimizations| == 0 && |ctx.insights| > 0 ==>
      OptimizationAnswer(ctx).savings == SuggestedSavings(ctx.insights[0])
  {
    if |ctx.optimizations| > 0 {
      assert (ctx.optimizations + ctx.insights)[0] == ctx.optimizations[0];
    }
  }

  /** The overview mentions the instance count when there are instances and
      the total cost when there are costs. */
  lemma GeneralAnswerShape(ctx: QueryContext)
    ensures GeneralAnswer(ctx) == NoData <==> |ctx.resources| == 0 && |ctx.costs| == 0
    ensures GeneralAnswer(ctx).Overview? ==>
      (GeneralAnswer(ctx).instances == if |ctx.resources| > 0 then Some(|ctx.resources|) else None)
      && (GeneralAnswer(ctx).totalCost.Some? <==> |ctx.costs| > 0)
      && (GeneralAnswer(ctx).totalCost.Some? ==> GeneralAnswer(ctx).totalCost.value == SumBy(ctx.costs, CostValue))
  {
  }

  /** The savings shown fall back to `potential_savings` exactly when
      `savings` is missing or zero. */
  lemma SuggestedSavingsChoice(s: Suggestion)
    ensures s.savings.Some? && s.savings.value != 0.0 ==> SuggestedSavings(s) == s.savings.value
    ensures !(s.savings.Some? && s.savings.value != 0.0) ==>
      SuggestedSavings(s) == if s.potentialSavings.Some? then s.potentialSavings.value else 0.0
  {
  }

  const Ec2CostQuery: string := "EC2 cost"

  /** Any query whose lower-cased form contains "ec2" is answered as a
      resource question, whatever cost or optimization words it also has. */
  lemma Ec2IsAResourceQuestion(query: string, ctx: QueryContext)
    requires Text.Contains(Text.Lower(query), "ec2")
    ensures TopicOf(DataDrivenResponse(query, ctx)) == ResourceTopic
  {
    assert ResourceWords[3] == "ec2";
    assert Mentions(Text.Lower(query), ResourceWords);
  }

  /** "EC2 cost" contains the cost word "cost" but is answered as a resource
      question. */
  lemma Ec2CostIsAResourceQuestion(ctx: QueryContext)
    ensures Mentions(Text.Lower(Ec2CostQuery), CostWords)
    ensures TopicOf(DataDrivenResponse(Ec2CostQuery, ctx)) == ResourceTopic
  {
    var q := Text.Lower(Ec2CostQuery);
    assert q[..3] == ResourceWords[3];
    assert Text.Contains(q, ResourceWords[3]);
    assert q[4..][..4] == CostWords[0];
    assert Text.Contains(q[4..], CostWords[0]);
    assert q[3..][1..] == q[4..] && q[2..][1..] == q[3..] && q[1..][1..] == q[2..];
    assert Text.Contains(q[1..], CostWords[0]);
    assert Text.Contains(q, CostWords[0]);
  }

  // ---------------------------------------------------------------- the language-model context

  /** One block of `_build_context_string`, with the entries it lists. */
  datatype ContextPart =
    | CostLines(costs: seq<CostItem>)                 // "Cost Data:" and one line per entry
    | ResourceLines(resources: seq<Resource>)         // "Running Resources:"
    | InsightLines(insights: seq<Suggestion>)         // "Key Insights:"
    | OpportunityLines(optimizations: seq<Suggestion>)  // "Optimization Opportunities:"

  /** The blocks joined by newlines, or the no-data sentence. */
  datatype ContextText = Parts(parts: seq<ContextPart>) | NoDataYet

  function Block<T>(entries: seq<T>, n: nat, part: seq<T> -> ContextPart): seq<ContextPart>
  {
    if |entries| > 0 then [part(Take(entries, n))] else []
  }

  function CostBlock(s: seq<CostItem>): ContextPart { CostLines(s) }
  function ResourceBlock(s: seq<Resource>): ContextPart { ResourceLines(s) }
  function InsightBlock(s: seq<Suggestion>): ContextPart { InsightLines(s) }
  function OpportunityBlock(s: seq<Suggestion>): ContextPart { OpportunityLines(s) }

  function BuildContext(ctx: QueryContext): ContextText
  {
    var parts := Block(ctx.costs, 5, CostBlock) + Block(ctx.resources, 5, ResourceBlock)
               + Block(ctx.insights, 3, InsightBlock) + Block(ctx.optimizations, 3, OpportunityBlock);
    if |parts| == 0 then NoDataYet else Parts(parts)
  }

  /** Which list a block comes from, in the order the blocks are written. */
  function Rank(p: ContextPart): nat
  {
    match p
    case CostLines(_) => 0
    case ResourceLines(_) => 1
    case InsightLines(_) => 2
    case OpportunityLines(_) => 3
  }

  /** At most as many entries as the block shows. */
  function Limit(p: ContextPart): nat
  {
    match p
    case CostLines(s) => 5
    case ResourceLines(s) => 5
    case InsightLines(s) => 3
    case OpportunityLines(s) => 3
  }

  function Size(p: ContextPart): nat
  {
    match p
    case CostLines(s) => |s|
    case ResourceLines(s) => |s|
    case InsightLines(s) => |s|
    case OpportunityLines(s) => |s|
  }

  /** The context says there is no data exactly when all four lists are
      empty. */
  lemma BuildContextEmpty(ctx: QueryContext)
    ensures BuildContext(ctx).NoDataYet? <==>
      |ctx.costs| == 0 && |ctx.resources| == 0 && |ctx.insights| == 0 && |ctx.optimizations| == 0
  {
  }

  /** Otherwise it has one block per non-empty list, ... */
  lemma BuildContextCount(ctx: QueryContext)
    requires BuildContext(ctx).Parts?
    ensures |BuildContext(ctx).parts| == Indicator(|ctx.costs| > 0) + Indicator(|ctx.resources| > 0)
                                       + Indicator(|ctx.insights| > 0) + Indicator(|ctx.optimizations| > 0)
  {
  }

  /** ... in the order costs, instances, insights, optimizations ... */
  lemma BuildContextOrder(ctx: QueryContext)
    requires BuildContext(ctx).Parts?
    ensures var parts := BuildContext(ctx).parts;
      forall i, j :: 0 <= i < j < |parts| ==> Rank(parts[i]) < Rank(parts[j])
  {
  }

  /** Every block lists at least one entry and at most its limit. */
  ghost predicate Bounded(parts: seq<ContextPart>)
  {
    forall i :: 0 <= i < |parts| ==> 0 < Size(parts[i]) <= Limit(parts[i])
  }

  lemma BoundedAppend(a: seq<ContextPart>, b: seq<ContextPart>)
    requires Bounded(a) && Bounded(b)
    ensures Bounded(a + b)
  {
    forall i | 0 <= i < |a + b|
      ensures 0 < Size((a + b)[i]) <= Limit((a + b)[i])
    {
      if i >= |a| {
        assert (a + b)[i] == b[i - |a|];
      }
    }
  }

  /** ... each cut to its limit. */
  lemma BuildContextLimits(ctx: QueryContext)
    requires BuildContext(ctx).Parts?
    ensures Bounded(BuildContext(ctx).parts)
  {
    var c := Block(ctx.costs, 5, CostBlock);
    var r := Block(ctx.resources, 5, ResourceBlock);
    var n := Block(ctx.insights, 3, InsightBlock);
    var o := Block(ctx.optimizations, 3, OpportunityBlock);
    assert Bounded(c) && Bounded(r) && Bounded(n) && Bounded(o);
    BoundedAppend(c, r);
    BoundedAppend(c + r, n);
    BoundedAppend(c + r + n, o);
  }

  // ---------------------------------------------------------------- routing

  /** What the model call gives back: no client configured, an error, an
      empty completion, or a text. */
  datatype ModelReply = NoClient | CallFailed | EmptyCompletion | Completion(text: string)

  /** The answer to a query: from the data, from the model, or canned. */
  datatype Reply = DataDriven(answer: Answer) | FromModel(text: string) | Canned(text: string)

  /** `_get_fallback_response`: the answer of the first key of the canned
      table occurring in the lower-cased query. */
  function FallbackResponse(query: string): string
  {
    FirstMatch(CannedAnswers, Text.Lower(query), DefaultAnswer)
  }

  /** The fallback is the answer of the first key the query contains, and
      the default answer when it contains none. */
  lemma FallbackResponseChoice(query: string)
    ensures var i := FirstMatchIndex(CannedAnswers, Text.Lower(query));
      && (i < |CannedAnswers| ==> FallbackResponse(query) == CannedAnswers[i].1)
      && (i == |CannedAnswers| ==> FallbackResponse(query) == DefaultAnswer)
      && (forall j :: 0 <= j < i ==> !Text.Contains(Text.Lower(query), CannedAnswers[j].0))
  {
    FirstMatchAt(CannedAnswers, Text.Lower(query), DefaultAnswer);
  }

  /** `_call_mistral_api`: the completion's text, or the fallback. */
  function CallModel(query: string, reply: ModelReply): Reply
  {
    if reply.Completion? then FromModel(reply.text) else Canned(FallbackResponse(query))
  }

  /** `has_data`: costs, instances or optimizations; insights alone do not count. */
  predicate HasData(ctx: QueryContext)
  {
    |ctx.costs| > 0 || |ctx.resources| > 0 || |ctx.optimizations| > 0
  }

  /** `answer_query`; `model` is the language model, asked with the query
      and the context built from the data. */
  function AnswerQuery(query: string, ctx: QueryContext, model: (string, ContextText) -> ModelReply): Reply
  {
    if HasData(ctx) then DataDriven(DataDrivenResponse(query, ctx))
    else CallModel(query, model(query, BuildContext(ctx)))
  }

  /** With data the answer always comes from the data and the model is not
      asked; without, the model sees only the insights (at most three) or
      the no-data sentence, and a missing completion gives the canned answer. */
  lemma AnswerQueryRoute(query: string, ctx: QueryContext, model: (string, ContextText) -> ModelReply)
    ensures AnswerQuery(query, ctx, model).DataDriven? <==> HasData(ctx)
    ensures !HasData(ctx) ==>
      BuildContext(ctx) == (if |ctx.insights| > 0 then Parts([InsightLines(Take(ctx.insights, 3))]) else NoDataYet)
    ensures !HasData(ctx) && !model(query, BuildContext(ctx)).Completion? ==>
      AnswerQuery(query, ctx, model) == Canned(FallbackResponse(query))
  {
  }

  /** With optimizations but no costs or instances, a query mentioning no
      keyword is told that there is no data. */
  lemma OptimizationsOnlyOverview(query: string, ctx: QueryContext, model: (string, ContextText) -> ModelReply)
    requires |ctx.costs| == 0 && |ctx.resources| == 0 && |ctx.optimizations| > 0
    requires var q := Text.Lower(query);
      !Mentions(q, ResourceWords) && !Mentions(q, CostWords) && !Mentions(q, OptimizationWords)
    ensures HasData(ctx)
    ensures AnswerQuery(query, ctx, model) == DataDriven(NoData)
  {
  }
}
