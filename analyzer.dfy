/**
 * What the page shows for one statement and one setting of the sidebar:
 * the filtered table, the three metrics and the monthly chart, all drawn
 * from the same filtered records.
 */
module Analyzer {
  import opened Lines
  import opened Dates
  import opened Parser
  import opened Filtering
  import opened Summary
  import opened Monthly

  datatype View = View(shown: seq<Record>, kpis: Kpis, months: seq<MonthRow>)

  /**
   * The metrics and the chart agree: the chart's months are in order, each
   * once, and its incomes and expenses add up to the Total Income and the
   * Total Expenses.
   */
  function ViewOf(records: seq<Record>, start: Date, end: Date, query: string): (v: View)
    ensures |v.shown| <= |records|
    ensures Sorted(v.months)
    ensures RowsIncome(v.months) == v.kpis.income && RowsExpense(v.months) == v.kpis.expense
    ensures v.kpis.income + v.kpis.expense == Sum(v.shown)
  {
    var shown := Filter(records, start, end, query);
    SummarizeSorted(shown);
    SummarizeTotals(shown);
    View(shown, KpisOf(shown), Summarize(shown))
  }

  /** The page for an uploaded statement: parse it, then filter and summarize its records. */
  method Analyze(text: string, start: Date, end: Date, query: string) returns (v: View)
    ensures v == ViewOf(StatementRecords(text), start, end, query)
    ensures |v.shown| <= if |SplitLines(text)| <= 7 then 0 else |SplitLines(text)| - 7
  {
    var records := ParseStatement(text);
    v := ViewOf(records, start, end, query);
  }
}
