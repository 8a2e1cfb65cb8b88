/**
 * The figures drawn from the filtered table: the three KPI metrics,
 * Total Income, Total Expenses and Ending Balance.
 */
module Summary {
  import opened Wrappers
  import opened Dates
  import opened Parser
  import opened Filtering

  /** `.sum()` of the Amount column. */
  function Sum(rs: seq<Record>): real {
    if rs == [] then 0.0 else Sum(rs[..|rs| - 1]) + rs[|rs| - 1].amount
  }

  /** `rs[rs["Amount"] > 0]` */
  function Credits(rs: seq<Record>): (cs: seq<Record>)
    ensures forall k :: 0 <= k < |cs| ==> cs[k].amount > 0.0
  {
    if rs == [] then []
    else
      var init := Credits(rs[..|rs| - 1]);
      var r := rs[|rs| - 1];
      if r.amount > 0.0 then init + [r] else init
  }

  /** `rs[rs["Amount"] < 0]` */
  function Debits(rs: seq<Record>): (ds: seq<Record>)
    ensures forall k :: 0 <= k < |ds| ==> ds[k].amount < 0.0
  {
    if rs == [] then []
    else
      var init := Debits(rs[..|rs| - 1]);
      var r := rs[|rs| - 1];
      if r.amount < 0.0 then init + [r] else init
  }

  /** A sum of amounts none of which is negative is not negative. */
  lemma {:induction false} SumNonNegative(rs: seq<Record>)
    requires forall k :: 0 <= k < |rs| ==> rs[k].amount >= 0.0
    ensures Sum(rs) >= 0.0
  {
    if rs != [] {
      SumNonNegative(rs[..|rs| - 1]);
    }
  }

  /** A sum of amounts none of which is positive is not positive. */
  lemma {:induction false} SumNonPositive(rs: seq<Record>)
    requires forall k :: 0 <= k < |rs| ==> rs[k].amount <= 0.0
    ensures Sum(rs) <= 0.0
  {
    if rs != [] {
      SumNonPositive(rs[..|rs| - 1]);
    }
  }

  /** Total Income: the sum of the positive amounts. */
  function Income(rs: seq<Record>): (income: real)
    ensures income >= 0.0
  {
    SumNonNegative(Credits(rs));
    Sum(Credits(rs))
  }

  /** Total Expenses: the sum of the negative amounts. */
  function Expense(rs: seq<Record>): (expense: real)
    ensures expense <= 0.0
  {
    SumNonPositive(Debits(rs));
    Sum(Debits(rs))
  }

  /** What a record adds to the income, and to the expenses. */
  function Credit(amount: real): real {
    if amount > 0.0 then amount else 0.0
  }

  function Debit(amount: real): real {
    if amount < 0.0 then amount else 0.0
  }

  /** One more record adds its amount to the income or to the expenses, as its sign says. */
  lemma {:induction false} AddOne(rs: seq<Record>, r: Record)
    ensures Income(rs + [r]) == Income(rs) + Credit(r.amount)
    ensures Expense(rs + [r]) == Expense(rs) + Debit(r.amount)
    ensures Sum(rs + [r]) == Sum(rs) + r.amount
  {
    assert (rs + [r])[..|rs|] == rs;
    assert Sum(Credits(rs) + [r]) == Sum(Credits(rs)) + r.amount by {
      assert (Credits(rs) + [r])[..|Credits(rs)|] == Credits(rs);
    }
    assert Sum(Debits(rs) + [r]) == Sum(Debits(rs)) + r.amount by {
      assert (Debits(rs) + [r])[..|Debits(rs)|] == Debits(rs);
    }
  }

  /** Income and expenses together are the net of all amounts: no amount is counted twice or lost. */
  lemma {:induction false} IncomeExpenseTotal(rs: seq<Record>)
    ensures Income(rs) + Expense(rs) == Sum(rs)
  {
    if rs != [] {
      var init, r := rs[..|rs| - 1], rs[|rs| - 1];
      assert rs == init + [r];
      IncomeExpenseTotal(init);
      AddOne(init, r);
    }
  }

  /** The income and expenses of a table cut in two are those of the parts, added. */
  lemma {:induction false} IncomeExpenseAppend(a: seq<Record>, b: seq<Record>)
    ensures Income(a + b) == Income(a) + Income(b)
    ensures Expense(a + b) == Expense(a) + Expense(b)
    decreases |b|
  {
    if b == [] {
      assert a + b == a;
    } else {
      var init, r := b[..|b| - 1], b[|b| - 1];
      assert a + b == (a + init) + [r];
      assert b == init + [r];
      IncomeExpenseAppend(a, init);
      AddOne(a + init, r);
      AddOne(init, r);
    }
  }

  /** A zero amount, wherever it stands, counts toward neither the income nor the expenses. */
  lemma {:induction false} ZeroAmountIgnored(a: seq<Record>, r: Record, b: seq<Record>)
    requires r.amount == 0.0
    ensures Income(a + [r] + b) == Income(a + b)
    ensures Expense(a + [r] + b) == Expense(a + b)
  {
    IncomeExpenseAppend(a + [r], b);
    IncomeExpenseAppend(a, b);
    AddOne(a, r);
  }

  /** Ending Balance: the running balance of the last record shown, or 0 when none is. */
  function EndingBalance(rs: seq<Record>): real {
    if rs == [] then 0.0 else rs[|rs| - 1].balance
  }

  /** Records after the last shown one decide the ending balance; none after it leave it as it was. */
  lemma {:induction false} EndingBalanceAppend(a: seq<Record>, b: seq<Record>)
    ensures EndingBalance(a + b) == if b == [] then EndingBalance(a) else EndingBalance(b)
  {
    if b == [] {
      assert a + b == a;
    }
  }

  /** The three metrics. */
  datatype Kpis = Kpis(income: real, expense: real, balance: real)

  function KpisOf(shown: seq<Record>): (k: Kpis)
    ensures k.income >= 0.0 && k.expense <= 0.0
    ensures k.income + k.expense == Sum(shown)
  {
    IncomeExpenseTotal(shown);
    Kpis(Income(shown), Expense(shown), EndingBalance(shown))
  }

  /**
   * The ending balance is the running balance written on the last record
   * of the table that passes the filters (k), and 0 when no record passes
   * (k == -1); it is never recomputed from the amounts.
   */
  lemma {:induction false} EndingBalanceOfFiltered(rs: seq<Record>, start: Date, end: Date, query: string)
    returns (k: int)
    ensures -1 <= k < |rs|
    ensures k == -1 ==> EndingBalance(Filter(rs, start, end, query)) == 0.0
    ensures k == -1 ==> forall j :: 0 <= j < |rs| ==> !Keep(rs[j], start, end, query)
    ensures 0 <= k ==> Keep(rs[k], start, end, query) && EndingBalance(Filter(rs, start, end, query)) == rs[k].balance
    ensures 0 <= k ==> forall j :: k < j < |rs| ==> !Keep(rs[j], start, end, query)
  {
    if rs == [] {
      k := -1;
    } else {
      var n := |rs| - 1;
      var init, r := rs[..n], rs[n];
      assert rs == init + [r];
      FilterAppend(init, [r], start, end, query);
      var last := Filter([r], start, end, query);
      assert Marks([r], start, end, query)[0] == if Keep(r, start, end, query) then Some(r) else None;
      if Keep(r, start, end, query) {
        assert last == [r];
        k := n;
      } else {
        assert last == [];
        assert init + [] == init;
        k := EndingBalanceOfFiltered(init, start, end, query);
      }
    }
  }
}
