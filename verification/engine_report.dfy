/** The engine's Markdown optimization report: the shared header, then the
    high-priority insights with their recommendations, then the
    medium-priority ones without.  Low-priority insights count in the
    summary but get no entry. */
module EngineReport {
  import opened Common
  import opened Insights

  const HighHeading: string := "High Priority Actions"
  const MediumHeading: string := "Medium Priority Actions"

  /** The entry of a high-priority insight. */
  function HighEntry(i: Insight): seq<Line>
  {
    [Heading(3, i.title),
     Field(DescriptionLabel, i.description),
     MoneyField(SavingsLabel, i.potentialSavings),
     Field(RecommendationLabel, i.recommendation),
     Blank]
  }

  /** The entry of a medium-priority insight: no recommendation line. */
  function MediumEntry(i: Insight): seq<Line>
  {
    [Heading(3, i.title),
     Field(DescriptionLabel, i.description),
     MoneyField(SavingsLabel, i.potentialSavings),
     Blank]
  }

  /** A section appears only when it has an entry. */
  function Section(heading: string, insights: seq<Insight>, entry: Insight -> seq<Line>): seq<Line>
  {
    if |insights| == 0 then [] else [Heading(2, heading)] + Entries(insights, entry)
  }

  function Report(insights: seq<Insight>): seq<Line>
  {
    ReportHeader(insights)
      + Section(HighHeading, WithPriority(insights, High), HighEntry)
      + Section(MediumHeading, WithPriority(insights, Medium), MediumEntry)
  }

  /** `generate_report`: builds the report line by line. */
  method GenerateReport(insights: seq<Insight>) returns (report: seq<Line>)
    ensures report == Report(insights)
  {
    report := [Heading(1, ReportTitle), Blank];
    report := report + [Generated, Blank];
    var high := WithPriority(insights, High);
    var medium := WithPriority(insights, Medium);
    var total := SumBy(insights, SavingsOf);
    report := report + [Heading(2, SummaryHeading)];
    report := report + [Money(TotalSavingsLabel, total)];
    report := report + [Count(InsightCountLabel, |insights|), Blank];
    report := AppendSection(report, HighHeading, high, HighEntry);
    report := AppendSection(report, MediumHeading, medium, MediumEntry);
  }

  /** One `if insights: ... for insight in insights: ...` block of the report. */
  method AppendSection(report: seq<Line>, heading: string, insights: seq<Insight>, entry: Insight -> seq<Line>)
    returns (r: seq<Line>)
    ensures r == report + Section(heading, insights, entry)
  {
    r := report;
    if |insights| > 0 {
      r := r + [Heading(2, heading)];
      var opening := r;
      for k := 0 to |insights|
        invariant r == opening + Entries(insights[..k], entry)
      {
        AppendEntry(opening, insights, entry, k);
        r := r + entry(insights[k]);
      }
      Regroup(report, [Heading(2, heading)], Entries(insights, entry));
      assert insights[..|insights|] == insights;
    }
  }

  /** Each entry lists its insight's title, and only the high-priority entry
      shows the recommendation. */
  lemma EntryLines(x: Insight)
    ensures Titles(HighEntry(x)) == [x.title]
    ensures Titles(MediumEntry(x)) == [x.title]
    ensures FieldValues(HighEntry(x), RecommendationLabel) == [x.recommendation]
    ensures FieldValues(MediumEntry(x), RecommendationLabel) == []
  {
    EntryTitle(HighEntry(x), x.title);
    EntryTitle(MediumEntry(x), x.title);
    OneField(HighEntry(x), RecommendationLabel, 3);
    NoFields(MediumEntry(x), RecommendationLabel);
  }

  lemma {:induction false} SectionTitles(heading: string, insights: seq<Insight>, entry: Insight -> seq<Line>)
    requires forall x :: Titles(entry(x)) == [x.title]
    ensures Titles(Section(heading, insights, entry)) == TitlesOf(insights)
  {
    if |insights| > 0 {
      EntriesTitles(insights, entry);
      TitlesAppend([Heading(2, heading)], Entries(insights, entry));
      NoTitles([Heading(2, heading)]);
    }
  }

  lemma {:induction false} SectionFields(heading: string, insights: seq<Insight>, entry: Insight -> seq<Line>, name: string)
    ensures FieldValues(Section(heading, insights, entry), name)
         == if |insights| == 0 then [] else FieldValues(Entries(insights, entry), name)
  {
    if |insights| > 0 {
      FieldValuesAppend([Heading(2, heading)], Entries(insights, entry), name);
      NoFields([Heading(2, heading)], name);
    }
  }

  lemma HighSectionTitles(insights: seq<Insight>)
    ensures Titles(Section(HighHeading, insights, HighEntry)) == TitlesOf(insights)
  {
    forall x ensures Titles(HighEntry(x)) == [x.title] {
      EntryLines(x);
    }
    SectionTitles(HighHeading, insights, HighEntry);
  }

  lemma MediumSectionTitles(insights: seq<Insight>)
    ensures Titles(Section(MediumHeading, insights, MediumEntry)) == TitlesOf(insights)
  {
    forall x ensures Titles(MediumEntry(x)) == [x.title] {
      EntryLines(x);
    }
    SectionTitles(MediumHeading, insights, MediumEntry);
  }

  lemma LayoutTitles(header: seq<Line>, high: seq<Line>, medium: seq<Line>)
    requires Titles(header) == []
    ensures Titles(header + high + medium) == Titles(high) + Titles(medium)
  {
    TitlesAppend(header, high);
    TitlesAppend(header + high, medium);
  }

  /** The report has one entry per high-priority insight, then one per
      medium-priority insight, each in the order given; no other insight
      gets an entry. */
  lemma ReportTitles(insights: seq<Insight>)
    ensures Titles(Report(insights))
         == TitlesOf(WithPriority(insights, High)) + TitlesOf(WithPriority(insights, Medium))
  {
    ReportHeaderEmpty(insights, "");
    HighSectionTitles(WithPriority(insights, High));
    MediumSectionTitles(WithPriority(insights, Medium));
    LayoutTitles(ReportHeader(insights),
                 Section(HighHeading, WithPriority(insights, High), HighEntry),
                 Section(MediumHeading, WithPriority(insights, Medium), MediumEntry));
  }

  /** Every title of the high list followed by the medium list is that of a
      high- or medium-priority insight. */
  lemma ListedTitle(insights: seq<Insight>, t: seq<string>, k: nat)
    requires t == TitlesOf(WithPriority(insights, High)) + TitlesOf(WithPriority(insights, Medium))
    requires k < |t|
    ensures exists y :: y in insights && y.title == t[k] && (y.priority == High || y.priority == Medium)
  {
    var high := WithPriority(insights, High);
    var medium := WithPriority(insights, Medium);
    if k < |high| {
      var y := high[k];
      assert t[k] == TitlesOf(high)[k];
      WithPriorityMembers(insights, High, y);
      assert y in insights && y.title == t[k] && y.priority == High;
    } else {
      var y := medium[k - |high|];
      assert t[k] == TitlesOf(medium)[k - |high|];
      WithPriorityMembers(insights, Medium, y);
      assert y in insights && y.title == t[k] && y.priority == Medium;
    }
  }

  /** Every entry of the report is that of a high- or medium-priority insight. */
  lemma ReportListsHighAndMedium(insights: seq<Insight>, k: nat)
    requires k < |Titles(Report(insights))|
    ensures exists y :: y in insights && y.title == Titles(Report(insights))[k]
                        && (y.priority == High || y.priority == Medium)
  {
    ReportTitles(insights);
    ListedTitle(insights, Titles(Report(insights)), k);
  }

  lemma LayoutFields(header: seq<Line>, high: seq<Line>, medium: seq<Line>, name: string)
    requires FieldValues(header, name) == []
    ensures FieldValues(header + high + medium, name) == FieldValues(high, name) + FieldValues(medium, name)
  {
    FieldValuesAppend(header, high, name);
    FieldValuesAppend(header + high, medium, name);
  }

  lemma HighSectionRecommendations(insights: seq<Insight>)
    ensures FieldValues(Section(HighHeading, insights, HighEntry), RecommendationLabel) == RecommendationsOf(insights)
  {
    forall x ensures FieldValues(HighEntry(x), RecommendationLabel) == [x.recommendation] {
      EntryLines(x);
    }
    SectionFields(HighHeading, insights, HighEntry, RecommendationLabel);
    EntriesRecommendations(insights, HighEntry, RecommendationLabel);
  }

  lemma MediumSectionRecommendations(insights: seq<Insight>)
    ensures FieldValues(Section(MediumHeading, insights, MediumEntry), RecommendationLabel) == []
  {
    forall x ensures FieldValues(MediumEntry(x), RecommendationLabel) == [] {
      EntryLines(x);
    }
    SectionFields(MediumHeading, insights, MediumEntry, RecommendationLabel);
    EntriesWithoutField(insights, MediumEntry, RecommendationLabel);
  }

  /** Recommendations are shown for the high-priority insights only, one
      each, in order. */
  lemma ReportRecommendations(insights: seq<Insight>)
    ensures FieldValues(Report(insights), RecommendationLabel) == RecommendationsOf(WithPriority(insights, High))
  {
    ReportHeaderEmpty(insights, RecommendationLabel);
    HighSectionRecommendations(WithPriority(insights, High));
    MediumSectionRecommendations(WithPriority(insights, Medium));
    LayoutFields(ReportHeader(insights),
                 Section(HighHeading, WithPriority(insights, High), HighEntry),
                 Section(MediumHeading, WithPriority(insights, Medium), MediumEntry),
                 RecommendationLabel);
  }

  /** The summary counts every insight and sums the savings of all of them;
      by `PrioritySplit` that includes the low-priority and unranked ones,
      which get no entry. */
  lemma ReportSummary(insights: seq<Insight>)
    ensures Report(insights)[5] == Money(TotalSavingsLabel, SumBy(insights, SavingsOf))
    ensures Report(insights)[6] == Count(InsightCountLabel, |insights|)
  {
    var high := Section(HighHeading, WithPriority(insights, High), HighEntry);
    var medium := Section(MediumHeading, WithPriority(insights, Medium), MediumEntry);
    Regroup(ReportHeader(insights), high, medium);
    HeaderSummary(insights, high + medium);
  }
}
