/** What the insight engine and the demo chatbot share: the insight record,
    the lines of a Markdown report, and the table of canned answers both
    consult when a query has no better answer. */
module Insights {
  import opened Common
  import Text

  /** An insight's "priority"; `Unranked` stands for any other value or a
      missing key. */
  datatype Priority = High | Medium | Low | Unranked

  datatype Insight = Insight(
    title: string,
    description: string,
    potentialSavings: real,
    priority: Priority,
    category: string,
    recommendation: string)

  function SavingsOf(i: Insight): real { i.potentialSavings }

  /** One line of a report.  Amounts stay numbers: rendering them with two
      decimals is not modelled. */
  datatype Line =
    | Heading(level: nat, text: string)       // "#"*level + " " + text
    | Field(name: string, text: string)       // "- name: text"
    | MoneyField(name: string, amount: real)  // "- name: $amount"
    | Money(name: string, amount: real)       // "name: $amount"
    | Count(name: string, n: nat)             // "name: n"
    | Generated                               // "Generated: " and the timestamp
    | Blank

  /** The insights of a given priority, in order. */
  function WithPriority(insights: seq<Insight>, p: Priority): (r: seq<Insight>)
    ensures |r| <= |insights|
    ensures forall k :: 0 <= k < |r| ==> r[k].priority == p
  {
    if |insights| == 0 then []
    else
      var init := WithPriority(insights[..|insights| - 1], p);
      if insights[|insights| - 1].priority == p then init + [insights[|insights| - 1]] else init
  }

  /** An insight has the priority exactly when it is kept. */
  lemma {:induction false} WithPriorityMembers(insights: seq<Insight>, p: Priority, x: Insight)
    ensures x in WithPriority(insights, p) <==> x in insights && x.priority == p
    decreases |insights|
  {
    if |insights| > 0 {
      var init := insights[..|insights| - 1];
      WithPriorityMembers(init, p, x);
      assert insights == init + [insights[|insights| - 1]];
    }
  }

  // ---------------------------------------------------------------- canned answers

  const DefaultAnswer: string :=
    "I can help you optimize your AWS costs. Ask me about specific services, cost patterns, or optimization strategies."

  /** The keyword table, in the dict's iteration order. */
  const CannedAnswers: seq<(string, string)> := [
    ("cost", "Based on your AWS usage, I recommend implementing Reserved Instances for your top services, which could save 30-40% on compute costs."),
    ("optimization", "To optimize your AWS spending, focus on: 1) Right-sizing instances, 2) Implementing auto-scaling, 3) Using spot instances for non-critical workloads."),
    ("savings", "By implementing the recommended optimizations, you could potentially save 25-35% on your monthly AWS bill."),
    ("ec2", "EC2 is often the largest cost driver. Consider: 1) Using Reserved Instances for predictable workloads, 2) Spot Instances for flexible workloads, 3) Right-sizing your instances."),
    ("unused", "Unused resources are costing you money. Regularly audit and terminate: 1) Stopped instances, 2) Unattached volumes, 3) Unused Elastic IPs."),
    ("default", DefaultAnswer)]

  /** Position of the first entry whose key occurs in `q`; |table| if none. */
  function FirstMatchIndex(table: seq<(string, string)>, q: string): (i: nat)
    ensures i <= |table|
    ensures i < |table| ==> Text.Contains(q, table[i].0)
    ensures forall j :: 0 <= j < i ==> !Text.Contains(q, table[j].0)
  {
    if |table| == 0 then 0
    else if Text.Contains(q, table[0].0) then 0
    else 1 + FirstMatchIndex(table[1..], q)
  }

  /** The answer of the first entry whose key occurs in `q`, else `otherwise`. */
  function FirstMatch(table: seq<(string, string)>, q: string, otherwise: string): string
  {
    if |table| == 0 then otherwise
    else if Text.Contains(q, table[0].0) then table[0].1
    else FirstMatch(table[1..], q, otherwise)
  }

  /** First-match dispatch answers with the entry at the first matching
      position, and with `otherwise` when no key occurs. */
  lemma {:induction false} FirstMatchAt(table: seq<(string, string)>, q: string, otherwise: string)
    ensures var i := FirstMatchIndex(table, q);
      FirstMatch(table, q, otherwise) == if i < |table| then table[i].1 else otherwise
    decreases |table|
  {
    if |table| > 0 && !Text.Contains(q, table[0].0) {
      FirstMatchAt(table[1..], q, otherwise);
    }
  }

  // ---------------------------------------------------------------- reports

  const ReportTitle: string := "AWS FinOps Optimization Report"
  const SummaryHeading: string := "Summary"
  const TotalSavingsLabel: string := "Total Potential Savings"
  const InsightCountLabel: string := "Total Insights"
  const DescriptionLabel: string := "Description"
  const SavingsLabel: string := "Potential Savings"
  const PriorityLabel: string := "Priority"
  const RecommendationLabel: string := "Recommendation"

  /** The lines every optimization report opens with: title, timestamp and
      the summary of all insights, whatever their priority. */
  function ReportHeader(insights: seq<Insight>): seq<Line>
  {
    [Heading(1, ReportTitle), Blank, Generated, Blank,
     Heading(2, SummaryHeading),
     Money(TotalSavingsLabel, SumBy(insights, SavingsOf)),
     Count(InsightCountLabel, |insights|),
     Blank]
  }

  /** The entries of a report section: `entry` of each insight, in order. */
  function Entries(insights: seq<Insight>, entry: Insight -> seq<Line>): seq<Line>
  {
    if |insights| == 0 then []
    else Entries(insights[..|insights| - 1], entry) + entry(insights[|insights| - 1])
  }

  /** One more insight adds its entry at the end. */
  lemma EntriesSnoc(insights: seq<Insight>, entry: Insight -> seq<Line>, k: nat)
    requires k < |insights|
    ensures Entries(insights[..k + 1], entry) == Entries(insights[..k], entry) + entry(insights[k])
  {
    assert insights[..k + 1][..k] == insights[..k];
  }

  lemma Regroup(a: seq<Line>, b: seq<Line>, c: seq<Line>)
    ensures a + b + c == a + (b + c)
  {
  }

  /** Appending the next entry to whatever precedes the entries. */
  lemma AppendEntry(opening: seq<Line>, insights: seq<Insight>, entry: Insight -> seq<Line>, k: nat)
    requires k < |insights|
    ensures opening + Entries(insights[..k + 1], entry) == opening + Entries(insights[..k], entry) + entry(insights[k])
  {
    EntriesSnoc(insights, entry, k);
  }

  /** The entry titles of a report: the text of each level-3 heading. */
  function Titles(lines: seq<Line>): seq<string>
  {
    if |lines| == 0 then []
    else
      var last := lines[|lines| - 1];
      Titles(lines[..|lines| - 1]) + (if IsTitle(last) then [last.text] else [])
  }

  /** The texts of the `- name: ...` lines of a report. */
  function FieldValues(lines: seq<Line>, name: string): seq<string>
  {
    if |lines| == 0 then []
    else
      var last := lines[|lines| - 1];
      FieldValues(lines[..|lines| - 1], name) + (if last.Field? && last.name == name then [last.text] else [])
  }

  lemma {:induction false} TitlesAppend(a: seq<Line>, b: seq<Line>)
    ensures Titles(a + b) == Titles(a) + Titles(b)
    decreases |b|
  {
    if |b| > 0 {
      assert (a + b)[..|a + b| - 1] == a + b[..|b| - 1];
      TitlesAppend(a, b[..|b| - 1]);
    } else {
      assert a + b == a;
    }
  }

  lemma {:induction false} FieldValuesAppend(a: seq<Line>, b: seq<Line>, name: string)
    ensures FieldValues(a + b, name) == FieldValues(a, name) + FieldValues(b, name)
    decreases |b|
  {
    if |b| > 0 {
      assert (a + b)[..|a + b| - 1] == a + b[..|b| - 1];
      FieldValuesAppend(a, b[..|b| - 1], name);
    } else {
      assert a + b == a;
    }
  }

  function TitlesOf(insights: seq<Insight>): seq<string>
  {
    seq(|insights|, k requires 0 <= k < |insights| => insights[k].title)
  }

  function RecommendationsOf(insights: seq<Insight>): seq<string>
  {
    seq(|insights|, k requires 0 <= k < |insights| => insights[k].recommendation)
  }

  /** An entry format that heads each entry with its insight's title lists
      the insights' titles, once each and in order. */
  lemma {:induction false} EntriesTitles(insights: seq<Insight>, entry: Insight -> seq<Line>)
    requires forall x :: Titles(entry(x)) == [x.title]
    ensures Titles(Entries(insights, entry)) == TitlesOf(insights)
    decreases |insights|
  {
    if |insights| > 0 {
      var init := insights[..|insights| - 1];
      EntriesTitles(init, entry);
      TitlesAppend(Entries(init, entry), entry(insights[|insights| - 1]));
    }
  }

  /** An entry format with one `- name:` line showing the recommendation
      lists every recommendation, in order. */
  lemma {:induction false} EntriesRecommendations(insights: seq<Insight>, entry: Insight -> seq<Line>, name: string)
    requires forall x :: FieldValues(entry(x), name) == [x.recommendation]
    ensures FieldValues(Entries(insights, entry), name) == RecommendationsOf(insights)
    decreases |insights|
  {
    if |insights| > 0 {
      var init := insights[..|insights| - 1];
      EntriesRecommendations(init, entry, name);
      FieldValuesAppend(Entries(init, entry), entry(insights[|insights| - 1]), name);
    }
  }

  /** An entry format without a `- name:` line never shows one. */
  lemma {:induction false} EntriesWithoutField(insights: seq<Insight>, entry: Insight -> seq<Line>, name: string)
    requires forall x :: FieldValues(entry(x), name) == []
    ensures FieldValues(Entries(insights, entry), name) == []
    decreases |insights|
  {
    if |insights| > 0 {
      var init := insights[..|insights| - 1];
      EntriesWithoutField(init, entry, name);
      FieldValuesAppend(Entries(init, entry), entry(insights[|insights| - 1]), name);
    }
  }

  predicate IsTitle(l: Line) { l.Heading? && l.level == 3 }

  /** Lines without a level-3 heading list no title. */
  lemma {:induction false} NoTitles(lines: seq<Line>)
    requires forall i :: 0 <= i < |lines| ==> !IsTitle(lines[i])
    ensures Titles(lines) == []
    decreases |lines|
  {
    if |lines| > 0 {
      NoTitles(lines[..|lines| - 1]);
    }
  }

  /** Lines without a `- name:` line show no such field. */
  lemma {:induction false} NoFields(lines: seq<Line>, name: string)
    requires forall i :: 0 <= i < |lines| ==> !(lines[i].Field? && lines[i].name == name)
    ensures FieldValues(lines, name) == []
    decreases |lines|
  {
    if |lines| > 0 {
      NoFields(lines[..|lines| - 1], name);
    }
  }

  /** An entry that opens with its title and has no other level-3 heading
      lists exactly that title. */
  lemma EntryTitle(lines: seq<Line>, title: string)
    requires |lines| > 0 && lines[0] == Heading(3, title)
    requires forall i :: 1 <= i < |lines| ==> !IsTitle(lines[i])
    ensures Titles(lines) == [title]
  {
    var head, rest := [lines[0]], lines[1..];
    forall i | 0 <= i < |rest|
      ensures !IsTitle(rest[i])
    {
      assert rest[i] == lines[i + 1];
    }
    NoTitles(rest);
    assert head[..0] == [];
    assert Titles(head) == [title];
    TitlesAppend(head, rest);
    assert lines == head + rest;
  }

  /** Lines whose only `- name:` line is the one at `j` show just its text. */
  lemma OneField(lines: seq<Line>, name: string, j: nat)
    requires j < |lines| && lines[j].Field? && lines[j].name == name
    requires forall i :: 0 <= i < |lines| && i != j ==> !(lines[i].Field? && lines[i].name == name)
    ensures FieldValues(lines, name) == [lines[j].text]
  {
    assert lines == lines[..j] + [lines[j]] + lines[j + 1..];
    assert [lines[j]][..0] == [];
    NoFields(lines[..j], name);
    NoFields(lines[j + 1..], name);
    FieldValuesAppend(lines[..j], [lines[j]], name);
    FieldValuesAppend(lines[..j] + [lines[j]], lines[j + 1..], name);
  }

  /** The header lists no entry and no field. */
  lemma ReportHeaderEmpty(insights: seq<Insight>, name: string)
    ensures Titles(ReportHeader(insights)) == []
    ensures FieldValues(ReportHeader(insights), name) == []
  {
    NoTitles(ReportHeader(insights));
    NoFields(ReportHeader(insights), name);
  }

  /** Whatever follows the header, lines 5 and 6 of the report are the
      total savings and the number of insights. */
  lemma HeaderSummary(insights: seq<Insight>, rest: seq<Line>)
    ensures (ReportHeader(insights) + rest)[5] == Money(TotalSavingsLabel, SumBy(insights, SavingsOf))
    ensures (ReportHeader(insights) + rest)[6] == Count(InsightCountLabel, |insights|)
  {
    var h := ReportHeader(insights);
    assert |h| == 8;
    assert (h + rest)[5] == h[5] && (h + rest)[6] == h[6];
  }

  /** Splitting the insights by priority loses no savings: the report's
      total is the sum over the four priority classes, low ones included. */
  lemma {:induction false} PrioritySplit(insights: seq<Insight>)
    ensures SumBy(insights, SavingsOf)
         == SumBy(WithPriority(insights, High), SavingsOf) + SumBy(WithPriority(insights, Medium), SavingsOf)
          + SumBy(WithPriority(insights, Low), SavingsOf) + SumBy(WithPriority(insights, Unranked), SavingsOf)
    decreases |insights|
  {
    if |insights| > 0 {
      var init := insights[..|insights| - 1];
      var x := insights[|insights| - 1];
      PrioritySplit(init);
      var kept := WithPriority(insights, x.priority);
      assert kept[..|kept| - 1] == WithPriority(init, x.priority);
    }
  }
}
