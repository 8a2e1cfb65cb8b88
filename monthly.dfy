/**
 * The monthly chart: the shown records grouped by calendar month
 * (`to_period("M")`), with the sum of the positive amounts and the sum of
 * the negative amounts of each month, months in increasing order as
 * `groupby` sorts its keys.
 */
module Monthly {
  import opened Wrappers
  import opened Parser
  import opened Summary

  datatype Month = Month(year: nat, month: nat)

  function MonthOf(r: Record): Month {
    Month(r.date.year, r.date.month)
  }

  /** The order of periods: year first, then month. */
  predicate Before(a: Month, b: Month) {
    a.year < b.year || (a.year == b.year && a.month < b.month)
  }

  /** One bar pair of the chart: a month, its income and its expenses. */
  datatype MonthRow = MonthRow(month: Month, income: real, expense: real)

  /** Strictly increasing months, so no month has two rows. */
  predicate Sorted(rows: seq<MonthRow>) {
    forall i, j :: 0 <= i < j < |rows| ==> Before(rows[i].month, rows[j].month)
  }

  /** The row a record opens for its month. */
  function Opening(r: Record): MonthRow {
    MonthRow(MonthOf(r), Credit(r.amount), Debit(r.amount))
  }

  /** The row of a record's month once the record is in it, given the row before. */
  function Grow(prev: Option<MonthRow>, r: Record): Option<MonthRow> {
    match prev
    case None => Some(Opening(r))
    case Some(row) => Some(MonthRow(row.month, row.income + Credit(r.amount), row.expense + Debit(r.amount)))
  }

  /** Puts a record in its month's row, opening the row in its place when the month is new. */
  function AddRecord(rows: seq<MonthRow>, r: Record): (grown: seq<MonthRow>)
    ensures |rows| <= |grown| <= |rows| + 1
    ensures grown != []
    decreases |rows|
  {
    if rows == [] then [Opening(r)]
    else if rows[0].month == MonthOf(r) then
      [MonthRow(rows[0].month, rows[0].income + Credit(r.amount), rows[0].expense + Debit(r.amount))] + rows[1..]
    else if Before(MonthOf(r), rows[0].month) then [Opening(r)] + rows
    else [rows[0]] + AddRecord(rows[1..], r)
  }

  /** The summary table of the chart, built record by record. */
  function Summarize(rs: seq<Record>): (rows: seq<MonthRow>)
    ensures |rows| <= |rs|
    ensures rs != [] ==> rows != []
  {
    if rs == [] then [] else AddRecord(Summarize(rs[..|rs| - 1]), rs[|rs| - 1])
  }

  /** The records of one month, in order. */
  function InMonth(rs: seq<Record>, mo: Month): seq<Record> {
    if rs == [] then []
    else
      var init := InMonth(rs[..|rs| - 1], mo);
      if MonthOf(rs[|rs| - 1]) == mo then init + [rs[|rs| - 1]] else init
  }

  /** The row of a month, if the table has one. */
  function Find(rows: seq<MonthRow>, mo: Month): Option<MonthRow> {
    if rows == [] then None
    else if rows[0].month == mo then Some(rows[0])
    else Find(rows[1..], mo)
  }

  /** The number of rows of a month. */
  function Count(rows: seq<MonthRow>, mo: Month): nat {
    if rows == [] then 0 else (if rows[0].month == mo then 1 else 0) + Count(rows[1..], mo)
  }

  function RowsIncome(rows: seq<MonthRow>): real {
    if rows == [] then 0.0 else rows[0].income + RowsIncome(rows[1..])
  }

  function RowsExpense(rows: seq<MonthRow>): real {
    if rows == [] then 0.0 else rows[0].expense + RowsExpense(rows[1..])
  }

  /** Every month of the new table is the record's month or above a bound that both respect. */
  lemma {:induction false} AddRecordAbove(rows: seq<MonthRow>, r: Record, lo: Month)
    requires forall i :: 0 <= i < |rows| ==> Before(lo, rows[i].month)
    requires Before(lo, MonthOf(r))
    ensures forall i :: 0 <= i < |AddRecord(rows, r)| ==> Before(lo, AddRecord(rows, r)[i].month)
    decreases |rows|
  {
    if rows != [] && rows[0].month != MonthOf(r) && !Before(MonthOf(r), rows[0].month) {
      AddRecordAbove(rows[1..], r, lo);
    }
  }

  /** Adding a record keeps the months strictly increasing. */
  lemma {:induction false} AddRecordSorted(rows: seq<MonthRow>, r: Record)
    requires Sorted(rows)
    ensures Sorted(AddRecord(rows, r))
    decreases |rows|
  {
    if rows != [] && rows[0].month != MonthOf(r) && !Before(MonthOf(r), rows[0].month) {
      var rest := rows[1..];
      AddRecordSorted(rest, r);
      AddRecordAbove(rest, r, rows[0].month);
    }
  }

  /** The chart's months are strictly increasing: sorted, and none appears twice. */
  lemma {:induction false} SummarizeSorted(rs: seq<Record>)
    ensures Sorted(Summarize(rs))
  {
    if rs != [] {
      SummarizeSorted(rs[..|rs| - 1]);
      AddRecordSorted(Summarize(rs[..|rs| - 1]), rs[|rs| - 1]);
    }
  }

  /** Where a record goes: its month's row grows by its amount, or opens with it; other months stay. */
  lemma {:induction false} FindAddRecord(rows: seq<MonthRow>, r: Record, mo: Month)
    requires Sorted(rows)
    ensures Find(AddRecord(rows, r), mo) == if mo == MonthOf(r) then Grow(Find(rows, mo), r) else Find(rows, mo)
    decreases |rows|
  {
    if rows != [] {
      if rows[0].month == MonthOf(r) {
      } else if Before(MonthOf(r), rows[0].month) {
        if mo == MonthOf(r) {
          FindBelow(rows, mo);
        }
      } else {
        FindAddRecord(rows[1..], r, mo);
      }
    }
  }

  /** A month before the first month of a sorted table has no row in it. */
  lemma {:induction false} FindBelow(rows: seq<MonthRow>, mo: Month)
    requires Sorted(rows)
    requires rows != [] && Before(mo, rows[0].month)
    ensures Find(rows, mo).None?
    decreases |rows|
  {
    if |rows| > 1 {
      assert Before(rows[0].month, rows[1].month);
      FindBelow(rows[1..], mo);
    }
  }

  /** One more record of a month, and the month's records gain it; other months are unchanged. */
  lemma {:induction false} MonthSnoc(rs: seq<Record>, r: Record, mo: Month)
    ensures MonthOf(r) == mo ==> InMonth(rs + [r], mo) == InMonth(rs, mo) + [r]
    ensures MonthOf(r) != mo ==> InMonth(rs + [r], mo) == InMonth(rs, mo)
  {
    assert (rs + [r])[..|rs|] == rs;
  }

  /** The row of a month, as the records of that month determine it. */
  function RowOf(xs: seq<Record>, mo: Month): Option<MonthRow> {
    if xs == [] then None else Some(MonthRow(mo, Income(xs), Expense(xs)))
  }

  /**
   * Each month's row holds exactly the income and the expenses of that
   * month's records, and a month has a row exactly when it has a record.
   */
  lemma {:induction false} SummarizeRows(rs: seq<Record>, mo: Month)
    ensures Find(Summarize(rs), mo) == RowOf(InMonth(rs, mo), mo)
  {
    if rs != [] {
      var init, r := rs[..|rs| - 1], rs[|rs| - 1];
      var rows, xs := Summarize(init), InMonth(init, mo);
      assert Summarize(rs) == AddRecord(rows, r);
      MonthSnoc(init, r, mo);
      assert rs == init + [r];
      SummarizeRows(init, mo);
      SummarizeSorted(init);
      FindAddRecord(rows, r, mo);
      if MonthOf(r) == mo {
        RowStep(Find(rows, mo), xs, r);
      }
    }
  }

  /** A record's month row grows by the record's amount, or opens with the record. */
  lemma {:induction false} RowStep(prev: Option<MonthRow>, xs: seq<Record>, r: Record)
    requires prev == RowOf(xs, MonthOf(r))
    ensures Grow(prev, r) == RowOf(xs + [r], MonthOf(r))
  {
    var ys := xs + [r];
    assert Income(ys) == Income(xs) + Credit(r.amount) && Expense(ys) == Expense(xs) + Debit(r.amount) by {
      AddOne(xs, r);
    }
    if xs == [] {
      assert Income(xs) == 0.0 && Expense(xs) == 0.0;
    }
  }

  /** In a sorted table a month has one row when it has a row at all, and none otherwise. */
  lemma {:induction false} CountSorted(rows: seq<MonthRow>, mo: Month)
    requires Sorted(rows)
    ensures Count(rows, mo) == if Find(rows, mo).Some? then 1 else 0
    decreases |rows|
  {
    if rows != [] {
      CountSorted(rows[1..], mo);
      if rows[0].month == mo && |rows| > 1 {
        FindBelow(rows[1..], mo);
      }
    }
  }

  /** Each shown record falls in exactly one row of the chart: the row of its month. */
  lemma {:induction false} OneRowPerRecord(rs: seq<Record>, k: nat)
    requires k < |rs|
    ensures Count(Summarize(rs), MonthOf(rs[k])) == 1
    ensures Find(Summarize(rs), MonthOf(rs[k])).Some?
  {
    var mo := MonthOf(rs[k]);
    InMonthHas(rs, k);
    SummarizeRows(rs, mo);
    SummarizeSorted(rs);
    CountSorted(Summarize(rs), mo);
  }

  /** A record is among the records of its month. */
  lemma {:induction false} InMonthHas(rs: seq<Record>, k: nat)
    requires k < |rs|
    ensures InMonth(rs, MonthOf(rs[k])) != []
  {
    var n := |rs| - 1;
    if k < n {
      InMonthHas(rs[..n], k);
      assert rs[..n][k] == rs[k];
    }
  }

  /** The incomes and the expenses of a new record's row change by its amount alone. */
  lemma {:induction false} AddRecordTotals(rows: seq<MonthRow>, r: Record)
    ensures RowsIncome(AddRecord(rows, r)) == RowsIncome(rows) + Credit(r.amount)
    ensures RowsExpense(AddRecord(rows, r)) == RowsExpense(rows) + Debit(r.amount)
    decreases |rows|
  {
    if rows != [] {
      var rest := rows[1..];
      if rows[0].month == MonthOf(r) {
        assert AddRecord(rows, r)[1..] == rest;
      } else if Before(MonthOf(r), rows[0].month) {
        assert AddRecord(rows, r)[1..] == rows;
      } else {
        AddRecordTotals(rest, r);
        assert AddRecord(rows, r)[1..] == AddRecord(rest, r);
      }
    }
  }

  /** The months add up to the whole: their incomes to the Total Income, their expenses to the Total Expenses. */
  lemma {:induction false} SummarizeTotals(rs: seq<Record>)
    ensures RowsIncome(Summarize(rs)) == Income(rs)
    ensures RowsExpense(Summarize(rs)) == Expense(rs)
  {
    if rs != [] {
      var init, r := rs[..|rs| - 1], rs[|rs| - 1];
      assert rs == init + [r];
      SummarizeTotals(init);
      AddRecordTotals(Summarize(init), r);
      AddOne(init, r);
    }
  }

  /** In a sorted table, the row found for a row's month is that row. */
  lemma {:induction false} FindSorted(rows: seq<MonthRow>, i: nat)
    requires Sorted(rows) && i < |rows|
    ensures Find(rows, rows[i].month) == Some(rows[i])
    decreases i
  {
    if i > 0 {
      assert Before(rows[0].month, rows[i].month);
      assert rows[1..][i - 1] == rows[i];
      FindSorted(rows[1..], i - 1);
    }
  }

  /** Every row of the chart is a month with records, and holds that month's income and expenses. */
  lemma {:induction false} RowsHaveRecords(rs: seq<Record>, i: nat)
    requires i < |Summarize(rs)|
    ensures var row := Summarize(rs)[i];
            && InMonth(rs, row.month) != []
            && row.income == Income(InMonth(rs, row.month))
            && row.expense == Expense(InMonth(rs, row.month))
  {
    var rows := Summarize(rs);
    SummarizeSorted(rs);
    FindSorted(rows, i);
    SummarizeRows(rs, rows[i].month);
  }
}
