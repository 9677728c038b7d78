/**
  What the results pop-up shows, as functions of the totals record: the
  overall score, the two-way verdict and the bar chart's data.
 */
module Results {
  import opened Entries
  import opened Aggregation

  /** The two verdict texts: a strategy with more advantages than risks, or
      one that needs adjusting to reduce its risks. */
  datatype Verdict = Favourable | NeedsAdjustment

  /** Favourable exactly when Strengths plus Opportunities strictly exceed
      Weaknesses plus Threats; a tie needs adjustment. */
  function VerdictOf(t: Totals): Verdict
  {
    if t.Get(Strengths) + t.Get(Opportunities) > t.Get(Weaknesses) + t.Get(Threats)
    then Favourable
    else NeedsAdjustment
  }

  /** The "total score" line: the sum of the four totals divided by four. */
  function OverallScore(t: Totals): real
  {
    (t.Get(Strengths) + t.Get(Weaknesses) + t.Get(Opportunities) + t.Get(Threats)) / 4.0
  }

  /** Position of a category's bar in the chart. */
  function ChartIndex(c: Category): nat
  {
    match c
    case Strengths => 0
    case Weaknesses => 1
    case Opportunities => 2
    case Threats => 3
  }

  /** The chart's data array: one bar per category, in the order S, W, O, T. */
  function ChartData(t: Totals): (r: seq<real>)
    ensures |r| == 4
    ensures forall c: Category :: r[ChartIndex(c)] == t.Get(c)
  {
    [t.strengths, t.weaknesses, t.opportunities, t.threats]
  }

  /** The chart's labels: each bar is labelled with its category's initial. */
  function ChartLabels(): (r: seq<string>)
    ensures |r| == 4
    ensures forall c: Category :: r[ChartIndex(c)] == Name(c)[..1]
  {
    ["S", "W", "O", "T"]
  }

  /** With totals that agree with the committed entries, the verdict is
      favourable exactly when the entries' balance is positive. */
  lemma VerdictFromEntries(t: Totals, entries: seq<Entry>)
    requires Aggregates(t, entries)
    ensures VerdictOf(t) == Favourable <==> Balance(entries) > 0.0
  {
    BalanceByCategory(entries);
  }

  /** With totals that agree with the committed entries, the overall score is
      the sum of all committed scores divided by four. */
  lemma OverallFromEntries(t: Totals, entries: seq<Entry>)
    requires Aggregates(t, entries)
    ensures OverallScore(t) == TotalScore(entries) / 4.0
  {
    TotalByCategory(entries);
  }

  /** The overall score is the mean of the chart's four bars. */
  lemma OverallIsChartMean(t: Totals)
    ensures var d := ChartData(t); OverallScore(t) == (d[0] + d[1] + d[2] + d[3]) / 4.0
  {
  }
}
