/**
 * Worked values: the fields of a small export, read as the parser reads
 * them, and the figures the page shows for its records.
 */
module Examples {
  import opened Wrappers
  import opened Lines
  import opened Strings
  import opened Numerals
  import opened Dates
  import opened Pattern
  import opened Parser
  import opened Filtering
  import opened Summary
  import opened Monthly

  /** `float("-4.50")` */
  lemma {:induction false} CoffeeAmountRead()
    ensures IsNumeral("-4.50") && DecimalValue("-4.50") == -4.5
  {
    CoffeeDigits();
    assert DigitsValue("50") == 50 by {
      assert "50"[..1] == "5" && "5"[..0] == "";
    }
    assert DigitsValue("4") == 4 by {
      assert "4"[..0] == "";
    }
    assert Pow10(2) == 100;
  }

  /** "-4.50" is a numeral with the digits "4" before its point and "50" after it. */
  lemma {:induction false} CoffeeDigits()
    ensures IsNumeral("-4.50") && IntegerDigits("-4.50") == "4" && FractionDigits("-4.50") == "50"
  {
    var t := "-4.50";
    CoffeeNumeral();
    assert IntegerDigits(t) == t[1..2];
    assert FractionDigits(t) == t[3..];
    assert t[1..2] == "4" && t[3..] == "50";
  }

  lemma {:induction false} CoffeeNumeral()
    ensures IsNumeral("-4.50") && SignEnd("-4.50", 0, 5) == 1 && PointOf("-4.50", 0, 5) == 2
  {
    var t := "-4.50";
    assert DigitRunEnd(t, 1, 5) == 2 by {
      assert DigitRunEnd(t, 2, 5) == 2;
    }
    assert DigitRunEnd(t, 3, 5) == 5 by {
      assert DigitRunEnd(t, 4, 5) == 5;
    }
  }

  function Coffee(): Record {
    Record(Date(1, 5, 2024), "Coffee Shop", -4.5, 995.5)
  }

  function Paycheck(): Record {
    Record(Date(1, 6, 2024), "Paycheck", 1500.0, 2495.5)
  }

  /** The line of the export that the coffee record comes from. */
  lemma {:induction false} CoffeeRowParsed()
    ensures ParseLine("01/05/2024,\"Coffee Shop\",\"-4.50\",\"995.50\"") == Some(Coffee())
  {
    CoffeeRowWritten();
    CoffeeRowRead();
  }

  /** The coffee row, built from its parts with a quoted balance. */
  lemma {:induction false} CoffeeRowWritten()
    ensures Row("01/05/2024", "Coffee Shop", "-4.50", "\"" + "995.50", true) == "01/05/2024,\"Coffee Shop\",\"-4.50\",\"995.50\""
  {
  }

  lemma {:induction false} CoffeeRowRead()
    ensures ParseLine(Row("01/05/2024", "Coffee Shop", "-4.50", "\"" + "995.50", true)) == Some(Coffee())
  {
    CoffeeDescriptionPlain();
    CoffeeAmountRead();
    CoffeeBalanceRead();
    CoffeeDateRead();
    BalanceQuotesIgnored("01/05/2024", "Coffee Shop", "-4.50", "995.50", true, true);
  }

  /** The description holds no quote and no newline. */
  lemma {:induction false} CoffeeDescriptionPlain()
    ensures NoQuote("Coffee Shop") && forall k :: 0 <= k < |"Coffee Shop"| ==> "Coffee Shop"[k] != '\n'
  {
  }

  /** `float("995.50")` */
  lemma {:induction false} CoffeeBalanceRead()
    ensures IsNumeral("995.50") && DecimalValue("995.50") == 995.5
  {
    CoffeeBalanceDigits();
    assert DigitsValue("995") == 995 by {
      assert "995"[..2] == "99" && "99"[..1] == "9" && "9"[..0] == "";
    }
    assert DigitsValue("50") == 50 by {
      assert "50"[..1] == "5" && "5"[..0] == "";
    }
    assert Pow10(2) == 100;
  }

  /** "995.50" is a numeral with the digits "995" before its point and "50" after it. */
  lemma {:induction false} CoffeeBalanceDigits()
    ensures IsNumeral("995.50") && IntegerDigits("995.50") == "995" && FractionDigits("995.50") == "50"
  {
    var t := "995.50";
    assert DigitRunEnd(t, 0, 6) == 3 by {
      assert DigitRunEnd(t, 3, 6) == 3;
    }
    assert DigitRunEnd(t, 4, 6) == 6 by {
      assert DigitRunEnd(t, 5, 6) == 6;
    }
    assert IntegerDigits(t) == t[..3] == "995";
    assert FractionDigits(t) == t[4..] == "50";
  }

  /** The date of the coffee row. */
  lemma {:induction false} CoffeeDateRead()
    ensures IsDateText("01/05/2024") && DateOf("01/05/2024") == Date(1, 5, 2024)
  {
    var date := "01/05/2024";
    assert DateAt(date, 0);
    assert date[..2] == "01" && date[3..5] == "05" && date[6..] == "2024";
    assert DigitsValue("01") == 1 by {
      assert "01"[..1] == "0";
    }
    assert DigitsValue("05") == 5 by {
      assert "05"[..1] == "0";
    }
    assert DigitsValue("2024") == 2024 by {
      assert "2024"[..3] == "202" && "202"[..2] == "20" && "20"[..1] == "2";
    }
  }

  /** The line of the export that the paycheck record comes from: its balance has no closing quote. */
  lemma {:induction false} PaycheckRowParsed()
    ensures ParseLine("01/06/2024,\"Paycheck\",\"1500.00\",\"2495.50") == Some(Paycheck())
  {
    PaycheckRowWritten();
    PaycheckRowRead();
  }

  /** The paycheck row, built from its parts with a leading balance quote and no closing one. */
  lemma {:induction false} PaycheckRowWritten()
    ensures Row("01/06/2024", "Paycheck", "1500.00", "\"" + "2495.50", false) == "01/06/2024,\"Paycheck\",\"1500.00\",\"2495.50"
  {
  }

  lemma {:induction false} PaycheckRowRead()
    ensures ParseLine(Row("01/06/2024", "Paycheck", "1500.00", "\"" + "2495.50", false)) == Some(Paycheck())
  {
    PaycheckPartsRead("01/06/2024", "Paycheck", "1500.00", "2495.50");
  }

  /** The paycheck row read from its parts, passed as variables so that the line is not evaluated as a literal. */
  lemma {:induction false} PaycheckPartsRead(date: string, description: string, amount: string, balance: string)
    requires date == "01/06/2024" && description == "Paycheck" && amount == "1500.00" && balance == "2495.50"
    ensures ParseLine(Row(date, description, amount, "\"" + balance, false)) == Some(Paycheck())
  {
    PaycheckPartsWellFormed(date, description, amount, balance);
    RowReadAs(date, description, amount, balance, true, false, Paycheck());
  }

  /** The parts of the paycheck row are well formed and read as the paycheck record. */
  lemma {:induction false} PaycheckPartsWellFormed(date: string, description: string, amount: string, balance: string)
    requires date == "01/06/2024" && description == "Paycheck" && amount == "1500.00" && balance == "2495.50"
    ensures IsDateText(date) && NoQuote(description)
    ensures forall k :: 0 <= k < |description| ==> description[k] != '\n'
    ensures IsNumeral(amount) && IsNumeral(balance)
    ensures Paycheck() == Record(DateOf(date), description, DecimalValue(amount), DecimalValue(balance))
  {
    PaycheckDescriptionPlain();
    PaycheckFieldsRead();
  }

  /** The paycheck record is what its date, amount and balance texts read as. */
  lemma {:induction false} PaycheckFieldsRead()
    ensures IsDateText("01/06/2024") && IsNumeral("1500.00") && IsNumeral("2495.50")
    ensures Paycheck() == Record(DateOf("01/06/2024"), "Paycheck", DecimalValue("1500.00"), DecimalValue("2495.50"))
  {
    PaycheckAmountRead();
    PaycheckBalanceRead();
    PaycheckDateRead();
  }

  /** A well-formed row whose parts read as the fields of r parses to r. */
  lemma {:induction false} RowReadAs(date: string, description: string, amount: string, balance: string,
                                     leadingQuote: bool, closingQuote: bool, r: Record)
    requires IsDateText(date) && NoQuote(description)
    requires forall k :: 0 <= k < |description| ==> description[k] != '\n'
    requires IsNumeral(amount) && IsNumeral(balance)
    requires r == Record(DateOf(date), description, DecimalValue(amount), DecimalValue(balance))
    ensures ParseLine(Row(date, description, amount, if leadingQuote then "\"" + balance else balance, closingQuote)) == Some(r)
  {
    BalanceQuotesIgnored(date, description, amount, balance, leadingQuote, closingQuote);
  }

  /** The description holds no quote and no newline. */
  lemma {:induction false} PaycheckDescriptionPlain()
    ensures NoQuote("Paycheck") && forall k :: 0 <= k < |"Paycheck"| ==> "Paycheck"[k] != '\n'
  {
  }

  /** `float("1500.00")` */
  lemma {:induction false} PaycheckAmountRead()
    ensures IsNumeral("1500.00") && DecimalValue("1500.00") == 1500.0
  {
    FourDigitNumeral("1500.00");
    assert "1500.00"[..4] == "1500" && "1500.00"[5..] == "00";
    assert DigitsValue("1500") == 1500 by {
      assert "1500"[..3] == "150" && "150"[..2] == "15" && "15"[..1] == "1" && "1"[..0] == "";
    }
    assert DigitsValue("00") == 0 by {
      assert "00"[..1] == "0" && "0"[..0] == "";
    }
  }

  /** Four digits, a point and two digits make a numeral, split at its point. */
  lemma {:induction false} FourDigitNumeral(t: string)
    requires |t| == 7 && AllDigits(t[..4]) && t[4] == '.' && AllDigits(t[5..])
    ensures IsNumeral(t) && IntegerDigits(t) == t[..4] && FractionDigits(t) == t[5..]
  {
    assert DigitRunEnd(t, 0, 7) == 4 by {
      assert DigitRunEnd(t, 4, 7) == 4;
    }
    assert DigitRunEnd(t, 5, 7) == 7 by {
      assert DigitRunEnd(t, 6, 7) == 7;
    }
  }

  /** `float("2495.50")` */
  lemma {:induction false} PaycheckBalanceRead()
    ensures IsNumeral("2495.50") && DecimalValue("2495.50") == 2495.5
  {
    FourDigitNumeral("2495.50");
    assert "2495.50"[..4] == "2495" && "2495.50"[5..] == "50";
    assert DigitsValue("2495") == 2495 by {
      assert "2495"[..3] == "249" && "249"[..2] == "24" && "24"[..1] == "2" && "2"[..0] == "";
    }
    assert DigitsValue("50") == 50 by {
      assert "50"[..1] == "5" && "5"[..0] == "";
    }
    assert Pow10(2) == 100;
  }

  /** The date of the paycheck row. */
  lemma {:induction false} PaycheckDateRead()
    ensures IsDateText("01/06/2024") && DateOf("01/06/2024") == Date(1, 6, 2024)
  {
    var date := "01/06/2024";
    assert DateAt(date, 0);
    assert date[..2] == "01" && date[3..5] == "06" && date[6..] == "2024";
    assert DigitsValue("01") == 1 by {
      assert "01"[..1] == "0";
    }
    assert DigitsValue("06") == 6 by {
      assert "06"[..1] == "0";
    }
    assert DigitsValue("2024") == 2024 by {
      assert "2024"[..3] == "202" && "202"[..2] == "20" && "20"[..1] == "2";
    }
  }

  /**
   * The whole small export: any six preamble lines, the column header and
   * the two rows give exactly the coffee and paycheck records, in order.
   */
  lemma {:induction false} SmallStatementParsed(preamble: seq<string>, header: string, coffee: string, paycheck: string)
    requires |preamble| == PreambleLines
    requires forall k :: 0 <= k < |preamble| ==> NoBreaks(preamble[k])
    requires header == "Date,Description,Amount,Balance"
    requires coffee == "01/05/2024,\"Coffee Shop\",\"-4.50\",\"995.50\""
    requires paycheck == "01/06/2024,\"Paycheck\",\"1500.00\",\"2495.50"
    ensures StatementRecords(Join(preamble + [header, coffee, paycheck])) == [Coffee(), Paycheck()]
  {
    SmallStatementLinesPlain(header, coffee, paycheck);
    TwoRowStatement(preamble, header, coffee, paycheck);
    SmallStatementRows(coffee, paycheck);
  }

  /** The header and the two rows hold no line boundary. */
  lemma {:induction false} SmallStatementLinesPlain(header: string, coffee: string, paycheck: string)
    requires header == "Date,Description,Amount,Balance"
    requires coffee == "01/05/2024,\"Coffee Shop\",\"-4.50\",\"995.50\""
    requires paycheck == "01/06/2024,\"Paycheck\",\"1500.00\",\"2495.50"
    ensures NoBreaks(header) && NoBreaks(coffee) && NoBreaks(paycheck)
  {
    HeaderPlain(header);
    CoffeePlain(coffee);
    PaycheckPlain(paycheck);
  }

  lemma {:induction false} HeaderPlain(header: string)
    requires header == "Date,Description,Amount,Balance"
    ensures NoBreaks(header)
  {
  }

  lemma {:induction false} CoffeePlain(coffee: string)
    requires coffee == "01/05/2024,\"Coffee Shop\",\"-4.50\",\"995.50\""
    ensures NoBreaks(coffee)
  {
  }

  lemma {:induction false} PaycheckPlain(paycheck: string)
    requires paycheck == "01/06/2024,\"Paycheck\",\"1500.00\",\"2495.50"
    ensures NoBreaks(paycheck)
  {
  }

  /** The two rows of the small export, passed as variables so that they are not evaluated as literals. */
  lemma {:induction false} SmallStatementRows(coffee: string, paycheck: string)
    requires coffee == "01/05/2024,\"Coffee Shop\",\"-4.50\",\"995.50\""
    requires paycheck == "01/06/2024,\"Paycheck\",\"1500.00\",\"2495.50"
    ensures ParseLines([coffee, paycheck]) == [Coffee(), Paycheck()]
  {
    assert ParseLine(coffee) == Some(Coffee()) by {
      CoffeeRowParsed();
    }
    assert ParseLine(paycheck) == Some(Paycheck()) by {
      PaycheckRowParsed();
    }
    TwoRecords(coffee, paycheck, Coffee(), Paycheck());
  }

  /** A statement of a seven-line preamble and two rows holds the records of those two rows. */
  lemma {:induction false} TwoRowStatement(preamble: seq<string>, header: string, first: string, second: string)
    requires |preamble| == PreambleLines
    requires forall k :: 0 <= k < |preamble| ==> NoBreaks(preamble[k])
    requires NoBreaks(header) && NoBreaks(first) && NoBreaks(second)
    ensures StatementRecords(Join(preamble + [header, first, second])) == ParseLines([first, second])
  {
    var skipped := preamble + [header];
    var rows := [first, second];
    assert [header, first, second] == [header] + rows;
    assert preamble + ([header] + rows) == skipped + rows;
    forall k | 0 <= k < |skipped|
      ensures NoBreaks(skipped[k])
    {
      if k < |preamble| {
        assert skipped[k] == preamble[k];
      }
    }
    PreambleIgnored(skipped, rows);
  }

  /** Two lines that each yield a record yield both, in their order. */
  lemma {:induction false} TwoRecords(first: string, second: string, r1: Record, r2: Record)
    requires ParseLine(first) == Some(r1) && ParseLine(second) == Some(r2)
    ensures ParseLines([first, second]) == [r1, r2]
  {
    TwoAttempts(first, second);
    TwoSomes(ParseLine(first), ParseLine(second), r1, r2);
  }

  /** The attempts on two lines are the parse of each. */
  lemma {:induction false} TwoAttempts(first: string, second: string)
    ensures Attempts([first, second]) == [ParseLine(first), ParseLine(second)]
  {
  }

  /** Two present entries give their two values. */
  lemma {:induction false} TwoSomes(x: Option<Record>, y: Option<Record>, r1: Record, r2: Record)
    requires x == Some(r1) && y == Some(r2)
    ensures Somes([x, y]) == [r1, r2]
  {
    assert [x, y][..1] == [x] && [x][..0] == [];
  }

  /** The metrics of a coffee purchase and a paycheck in January 2024. */
  lemma {:induction false} SmallStatementKpis()
    ensures KpisOf([Coffee(), Paycheck()]) == Kpis(1500.0, -4.5, 2495.5)
  {
    var c, p := Coffee(), Paycheck();
    AddOne([c], p);
    AddOne([], c);
    assert [c] + [p] == [c, p] && [] + [c] == [c];
  }

  /** The chart of the same two records: one January bar pair. */
  lemma {:induction false} SmallStatementMonths()
    ensures Summarize([Coffee(), Paycheck()]) == [MonthRow(Month(2024, 1), 1500.0, -4.5)]
  {
    var c, p := Coffee(), Paycheck();
    var rs := [c, p];
    assert rs[..1] == [c];
    assert Summarize([c]) == [Opening(c)] by {
      assert [c][..0] == [];
    }
    var row := Opening(c);
    assert row == MonthRow(Month(2024, 1), 0.0, -4.5);
    assert Summarize(rs) == AddRecord([row], p);
  }

  /**
   * Dates are not checked against the calendar: `13/40/2024` fits
   * `\d{2}/\d{2}/\d{4}`, so a row dated so is parsed, as month 13, day 40.
   */
  lemma {:induction false} ImpossibleDateAccepted(description: string, amount: string, balance: string, closingQuote: bool)
    requires NoQuote(description) && forall k :: 0 <= k < |description| ==> description[k] != '\n'
    requires IsNumeral(amount) && IsNumeral(balance)
    ensures ParseLine(Row("13/40/2024", description, amount, balance, closingQuote)).Some?
    ensures ParseLine(Row("13/40/2024", description, amount, balance, closingQuote)).value.date == Date(13, 40, 2024)
  {
    ImpossibleDateRead();
    BalanceQuotesIgnored("13/40/2024", description, amount, balance, false, closingQuote);
  }

  lemma {:induction false} ImpossibleDateRead()
    ensures IsDateText("13/40/2024") && DateOf("13/40/2024") == Date(13, 40, 2024)
  {
    var date := "13/40/2024";
    assert DateAt(date, 0);
    assert date[..2] == "13" && date[3..5] == "40" && date[6..] == "2024";
    FieldsRead();
  }

  /** The values of the three fields of `13/40/2024`. */
  lemma {:induction false} FieldsRead()
    ensures DigitsValue("13") == 13 && DigitsValue("40") == 40 && DigitsValue("2024") == 2024
  {
    assert DigitsValue("13") == 13 by {
      assert "13"[..1] == "1";
    }
    assert DigitsValue("40") == 40 by {
      assert "40"[..1] == "4";
    }
    assert DigitsValue("2024") == 2024 by {
      assert "2024"[..3] == "202" && "202"[..2] == "20" && "20"[..1] == "2";
    }
  }
}
