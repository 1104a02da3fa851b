/** The demo chatbot (finops_chatbot_simple.py): one list of insights, set to
    three fixed demo insights by a sync and emptied by a clear, a keyword
    lookup for queries, a summary and a Markdown report.  Timestamps are
    left out of every reply. */
module SimpleChatbot {
  import opened Common
  import opened Insights
  import Text

  const DemoInsights: seq<Insight> := [
    Insight("High spending on Amazon EC2", "EC2 is your highest cost driver", 1500.0, High,
            "Cost Optimization", "Review EC2 usage and consider reserved instances"),
    Insight("Unused EBS volumes", "You have unattached volumes incurring costs", 250.0, Medium,
            "Resource Cleanup", "Delete unattached volumes"),
    Insight("Multi-region deployment", "Resources spread across multiple regions", 500.0, Medium,
            "Architecture Optimization", "Consolidate resources to fewer regions")]

  const Success: string := "success"
  const SyncedMessage: string := "AWS data synced successfully"
  const ClearedMessage: string := "All data cleared"
  const DemoDataPoints: nat := 150
  const DemoCostRecords: nat := 150
  const DemoResourceRecords: nat := 45
  const RecommendationsHeading: string := "Recommendations"

  datatype SyncReply = SyncReply(status: string, message: string, dataPoints: nat, insightsGenerated: nat)

  /** The reply to a query; its three `relevant_*` lists are always empty. */
  datatype QueryReply = QueryReply(status: string, query: string, response: string)

  datatype Summary = Summary(
    status: string,
    costRecords: nat,
    resourceRecords: nat,
    optimizationRecords: nat,
    totalInsights: nat,
    totalPotentialSavings: real,
    topInsights: seq<Insight>)

  datatype ClearReply = ClearReply(status: string, message: string)

  /** `get_summary` for a list of insights. */
  function SummaryOf(insights: seq<Insight>): (s: Summary)
    ensures s.totalInsights == s.optimizationRecords == |insights|
    ensures |s.topInsights| == if |insights| < 5 then |insights| else 5
    ensures forall k :: 0 <= k < |s.topInsights| ==> s.topInsights[k] == insights[k]
  {
    Summary("active", DemoCostRecords, DemoResourceRecords, |insights|, |insights|,
            SumBy(insights, SavingsOf), if |insights| <= 5 then insights else insights[..5])
  }

  /** How `{insight.get('priority')}` renders; `Unranked` stands for a
      missing priority. */
  function PriorityName(p: Priority): string
  {
    match p
    case High => "High"
    case Medium => "Medium"
    case Low => "Low"
    case Unranked => "None"
  }

  /** The entry of an insight in the report. */
  function Entry(i: Insight): seq<Line>
  {
    [Heading(3, i.title),
     Field(DescriptionLabel, i.description),
     MoneyField(SavingsLabel, i.potentialSavings),
     Field(PriorityLabel, PriorityName(i.priority)),
     Field(RecommendationLabel, i.recommendation),
     Blank]
  }

  /** `get_optimization_report` for a list of insights. */
  function Report(insights: seq<Insight>): seq<Line>
  {
    ReportHeader(insights) + [Heading(2, RecommendationsHeading)] + Entries(insights, Entry)
  }

  class FinOpsChatbot {
    var optimizationInsights: seq<Insight>

    /** The list is only ever empty or the demo insights. */
    ghost predicate Valid()
      reads this
    {
      optimizationInsights == [] || optimizationInsights == DemoInsights
    }

    constructor()
      ensures Valid() && optimizationInsights == []
    {
      optimizationInsights := [];
    }

    /** `sync_aws_data`: `days` is not used. */
    method SyncAwsData(days: int) returns (reply: SyncReply)
      modifies this
      ensures Valid()
      ensures optimizationInsights == DemoInsights
      ensures reply == SyncReply(Success, SyncedMessage, DemoDataPoints, |DemoInsights|)
    {
      optimizationInsights := DemoInsights;
      reply := SyncReply(Success, SyncedMessage, DemoDataPoints, |optimizationInsights|);
    }

    /** `query`: the answer of the first key of the table occurring in the
        lower-cased query, else the default; the status is always success. */
    method Query(userQuery: string) returns (reply: QueryReply)
      ensures reply.status == Success && reply.query == userQuery
      ensures reply.response == FirstMatch(CannedAnswers, Text.Lower(userQuery), DefaultAnswer)
    {
      var q := Text.Lower(userQuery);
      var response := DefaultAnswer;
      var i := 0;
      while i < |CannedAnswers|
        invariant 0 <= i <= |CannedAnswers|
        invariant response == DefaultAnswer
        invariant FirstMatch(CannedAnswers, q, DefaultAnswer) == FirstMatch(CannedAnswers[i..], q, DefaultAnswer)
      {
        assert CannedAnswers[i..][1..] == CannedAnswers[i + 1..];
        if Text.Contains(q, CannedAnswers[i].0) {
          response := CannedAnswers[i].1;
          break;
        }
        i := i + 1;
      }
      reply := QueryReply(Success, userQuery, response);
    }

    /** `get_summary`; between syncs and clears it reports either nothing or
        the three demo insights worth 2250. */
    method GetSummary() returns (s: Summary)
      ensures s == SummaryOf(optimizationInsights)
      ensures Valid() ==>
        || (s.totalInsights == 0 && s.totalPotentialSavings == 0.0)
        || (s.totalInsights == 3 && s.totalPotentialSavings == 2250.0)
    {
      DemoSummary();
      var total := SumBy(optimizationInsights, SavingsOf);
      var top := if |optimizationInsights| <= 5 then optimizationInsights else optimizationInsights[..5];
      s := Summary("active", DemoCostRecords, DemoResourceRecords, |optimizationInsights|,
                   |optimizationInsights|, total, top);
    }

    /** `clear_data`. */
    method ClearData() returns (reply: ClearReply)
      modifies this
      ensures Valid()
      ensures optimizationInsights == []
      ensures reply == ClearReply(Success, ClearedMessage)
    {
      optimizationInsights := [];
      reply := ClearReply(Success, ClearedMessage);
    }

    /** `get_optimization_report`: built line by line. */
    method GetOptimizationReport() returns (report: seq<Line>)
      ensures report == Report(optimizationInsights)
    {
      var insights := optimizationInsights;
      report := [Heading(1, ReportTitle), Blank, Generated, Blank];
      report := report + [Heading(2, SummaryHeading)];
      var total := SumBy(insights, SavingsOf);
      report := report + [Money(TotalSavingsLabel, total), Count(InsightCountLabel, |insights|), Blank];
      report := report + [Heading(2, RecommendationsHeading)];
      var opening := report;
      for k := 0 to |insights|
        invariant report == opening + Entries(insights[..k], Entry)
      {
        AppendEntry(opening, insights, Entry, k);
        report := report + Entry(insights[k]);
      }
      assert insights[..|insights|] == insights;
    }
  }

  /** The demo insights sum to 2250 in savings: the summary after a sync. */
  lemma DemoSummary()
    ensures SummaryOf(DemoInsights).totalPotentialSavings == 2250.0
    ensures SummaryOf(DemoInsights).totalInsights == 3
    ensures SummaryOf(DemoInsights).topInsights == DemoInsights
  {
    var d := DemoInsights;
    assert d[..3][..2] == d[..2] && d[..2][..1] == d[..1] && d[..1][..0] == [];
    assert SumBy(d[..1], SavingsOf) == 1500.0;
    assert SumBy(d[..2], SavingsOf) == 1750.0;
    assert d[..3] == d;
  }

  /** After a clear the summary counts nothing and totals zero. */
  lemma ClearedSummary()
    ensures SummaryOf([]).totalPotentialSavings == 0.0
    ensures SummaryOf([]).totalInsights == 0
    ensures SummaryOf([]).topInsights == []
  {
  }

  /** Each entry lists its insight's title, priority and recommendation once. */
  lemma EntryLines(x: Insight)
    ensures Titles(Entry(x)) == [x.title]
    ensures FieldValues(Entry(x), PriorityLabel) == [PriorityName(x.priority)]
    ensures FieldValues(Entry(x), RecommendationLabel) == [x.recommendation]
  {
    EntryTitle(Entry(x), x.title);
    OneField(Entry(x), PriorityLabel, 3);
    OneField(Entry(x), RecommendationLabel, 4);
  }

  /** The report lists every insight exactly once, in order, whatever its
      priority. */
  lemma ReportTitles(insights: seq<Insight>)
    ensures Titles(Report(insights)) == TitlesOf(insights)
  {
    forall x ensures Titles(Entry(x)) == [x.title] {
      EntryLines(x);
    }
    EntriesTitles(insights, Entry);
    ReportHeaderEmpty(insights, "");
    NoTitles(ReportHeader(insights) + [Heading(2, RecommendationsHeading)]);
    TitlesAppend(ReportHeader(insights) + [Heading(2, RecommendationsHeading)], Entries(insights, Entry));
  }

  /** Every insight's recommendation is shown, in order. */
  lemma ReportRecommendations(insights: seq<Insight>)
    ensures FieldValues(Report(insights), RecommendationLabel) == RecommendationsOf(insights)
  {
    forall x ensures FieldValues(Entry(x), RecommendationLabel) == [x.recommendation] {
      EntryLines(x);
    }
    EntriesRecommendations(insights, Entry, RecommendationLabel);
    NoFields(ReportHeader(insights) + [Heading(2, RecommendationsHeading)], RecommendationLabel);
    FieldValuesAppend(ReportHeader(insights) + [Heading(2, RecommendationsHeading)], Entries(insights, Entry), RecommendationLabel);
  }

  /** The report's total is the sum of the savings of all insights, and its
      count is their number. */
  lemma ReportSummary(insights: seq<Insight>)
    ensures Report(insights)[5] == Money(TotalSavingsLabel, SumBy(insights, SavingsOf))
    ensures Report(insights)[6] == Count(InsightCountLabel, |insights|)
  {
    Regroup(ReportHeader(insights), [Heading(2, RecommendationsHeading)], Entries(insights, Entry));
    HeaderSummary(insights, [Heading(2, RecommendationsHeading)] + Entries(insights, Entry));
  }
}
