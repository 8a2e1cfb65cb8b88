/**
 * The statement parser: the text of an uploaded statement is cut into
 * lines, the bank's preamble and the column header are dropped, and every
 * remaining line on which the pattern matches becomes one record. Lines
 * that do not match are skipped without error.
 */
module Parser {
  import opened Wrappers
  import opened Strings
  import opened Lines
  import opened Numerals
  import opened Dates
  import opened Pattern

  /** The lines of the bank's preamble, dropped by `splitlines()[6:]`. */
  const PreambleLines: nat := 6

  /** The column header that follows the preamble, dropped by `lines[1:]`. */
  const HeaderLines: nat := 1

  /** One transaction: `(date, desc, float(amt), float(bal))`, with exact amounts. */
  datatype Record = Record(date: Date, description: string, amount: real, balance: real)

  /** Python's `s[n:]`: the elements after the first n, or none when there are fewer. */
  function Drop<T>(s: seq<T>, n: nat): (r: seq<T>)
    ensures |r| == if |s| <= n then 0 else |s| - n
  {
    if |s| <= n then [] else s[n..]
  }

  /** `.replace('"', '').strip()` */
  function Clean(t: string): (c: string)
    ensures NoQuote(c)
    ensures c == [] || (!IsSpace(c[0]) && !IsSpace(c[|c| - 1]))
  {
    var u := RemoveQuotes(t);
    var v := TrimStart(u);
    assert NoQuote(v) by {
      assert forall k :: 0 <= k < |v| ==> v[k] == u[|u| - |v| + k];
    }
    Strip(u)
  }

  /** The numeral of a balance group: the group without its leading quote, if it has one. */
  function BalanceNumeral(t: string): (n: string)
    requires IsBalanceText(t)
    ensures IsNumeral(n)
  {
    if t[0] == '"' then
      NumeralSlice(t, 1, |t|);
      assert t[1..|t|] == t[1..];
      t[1..]
    else
      assert t[0..|t|] == t;
      t
  }

  /** The numeral of a balance group is the group itself or the group after its quote, and holds no quote. */
  lemma {:induction false} BalanceNumeralShape(t: string)
    requires IsBalanceText(t)
    ensures var n := BalanceNumeral(t); NoQuote(n) && (t == n || t == "\"" + n)
  {
    var n := BalanceNumeral(t);
    NumeralChars(n);
    if t[0] == '"' {
      assert t == [t[0]] + t[1..];
    }
  }

  /** Cleaning leaves a numeral exactly as it is. */
  lemma {:induction false} CleanNumeral(t: string)
    requires IsNumeral(t)
    ensures Clean(t) == t
  {
    NumeralChars(t);
    NumeralStart(t);
  }

  /** Cleaning a balance group gives its numeral: the quote goes, the digits stay as written. */
  lemma {:induction false} CleanBalance(t: string)
    requires IsBalanceText(t)
    ensures Clean(t) == BalanceNumeral(t)
  {
    var n := BalanceNumeral(t);
    CleanNumeral(n);
    if t[0] == '"' {
      assert t == "\"" + n;
      RemoveLeadingQuote(n);
      NumeralChars(n);
    } else {
      NumeralChars(t);
    }
  }

  /** The record a match yields, once its amount and balance are cleaned and read. */
  function RecordOf(line: string, m: Match): (r: Record)
    requires Occurs(line, m)
    ensures IsNumeral(AmountGroup(line, m)) && IsBalanceText(BalanceGroup(line, m))
    ensures IsDateText(DateGroup(line, m)) && r.date == DateOf(DateGroup(line, m))
    ensures r.description == DescriptionGroup(line, m)
    ensures r.amount == DecimalValue(AmountGroup(line, m))
    ensures r.balance == DecimalValue(BalanceNumeral(BalanceGroup(line, m)))
  {
    GroupShapes(line, m);
    var amt := Clean(AmountGroup(line, m));
    var bal := Clean(BalanceGroup(line, m));
    CleanNumeral(AmountGroup(line, m));
    CleanBalance(BalanceGroup(line, m));
    Record(DateOf(DateGroup(line, m)), DescriptionGroup(line, m), DecimalValue(amt), DecimalValue(bal))
  }

  /** One pass of the loop body: `pattern.search(line)` and, on a match, its record. */
  function ParseLine(line: string): (r: Option<Record>)
    ensures r.Some? <==> Search(line).Some?
  {
    match Search(line)
    case None => None
    case Some(m) => Some(RecordOf(line, m))
  }

  /** What the pattern makes of each line. */
  function Attempts(lines: seq<string>): (xs: seq<Option<Record>>)
    ensures |xs| == |lines|
  {
    seq(|lines|, k requires 0 <= k < |lines| => ParseLine(lines[k]))
  }

  /** The records a sequence of lines yields, in the order of the lines. */
  function ParseLines(lines: seq<string>): (records: seq<Record>)
    ensures |records| <= |lines|
  {
    Somes(Attempts(lines))
  }

  /** The lines the loop runs over: `splitlines()[6:]`, then `[1:]`. */
  function Body(text: string): (lines: seq<string>)
    ensures |lines| == if |SplitLines(text)| <= PreambleLines + HeaderLines then 0
                       else |SplitLines(text)| - (PreambleLines + HeaderLines)
    ensures forall k :: 0 <= k < |lines| ==> lines[k] == SplitLines(text)[k + PreambleLines + HeaderLines]
  {
    Drop(Drop(SplitLines(text), PreambleLines), HeaderLines)
  }

  /** The records of a whole statement. */
  function StatementRecords(text: string): (records: seq<Record>)
    ensures |records| <= if |SplitLines(text)| <= 7 then 0 else |SplitLines(text)| - 7
  {
    ParseLines(Body(text))
  }

  /**
   * The parse loop: `records` grows by one record for every line of the
   * body on which the pattern matches, in the order of the lines.
   */
  method ParseStatement(text: string) returns (records: seq<Record>)
    ensures records == StatementRecords(text)
    ensures |records| <= if |SplitLines(text)| <= 7 then 0 else |SplitLines(text)| - 7
  {
    var lines := Drop(SplitLines(text), PreambleLines);
    var body := Drop(lines, HeaderLines);
    records := [];
    ghost var attempts: seq<Option<Record>> := [];
    var i := 0;
    while i < |body|
      invariant 0 <= i <= |body|
      invariant |attempts| == i
      invariant attempts == Attempts(body[..i])
      invariant records == Somes(attempts)
    {
      var attempt := ParseLine(body[i]);
      assert (attempts + [attempt])[..i] == attempts;
      AttemptsSnoc(body, i);
      match attempt {
        case Some(r) => records := records + [r];
        case None =>
      }
      attempts := attempts + [attempt];
      i := i + 1;
    }
    assert body[..i] == body;
  }

  /** One more line adds what the pattern makes of it. */
  lemma {:induction false} AttemptsSnoc(lines: seq<string>, i: nat)
    requires i < |lines|
    ensures Attempts(lines[..i + 1]) == Attempts(lines[..i]) + [ParseLine(lines[i])]
  {
    assert lines[..i + 1] == lines[..i] + [lines[i]];
  }

  /** One more line adds its record, if it has one, after the others. */
  lemma {:induction false} ParseLinesSnoc(lines: seq<string>, line: string)
    ensures ParseLines(lines + [line]) == match ParseLine(line)
                                          case None => ParseLines(lines)
                                          case Some(r) => ParseLines(lines) + [r]
  {
    var xs := Attempts(lines + [line]);
    assert xs[..|lines|] == Attempts(lines);
    assert xs[|lines|] == ParseLine(line);
  }

  /** A line on which the pattern matches nowhere adds no record and costs no error. */
  lemma {:induction false} SkipsNonMatching(lines: seq<string>, line: string)
    requires forall m :: !Occurs(line, m)
    ensures ParseLines(lines + [line]) == ParseLines(lines)
  {
    SearchNoneIff(line);
    ParseLinesSnoc(lines, line);
  }

  /**
   * A row whose amount field is not `-?\d+\.\d+` yields no record, when
   * neither its description nor its amount field holds a quote and its
   * balance is well formed.
   */
  lemma {:induction false} MalformedAmountSkipped(date: string, description: string, amount: string, balance: string,
                                                  closingQuote: bool)
    requires |date| == 10 && NoQuote(description)
    requires NoQuote(amount) && !IsNumeral(amount)
    requires IsBalanceText(balance)
    ensures ParseLine(Row(date, description, amount, balance, closingQuote)).None?
  {
    SearchMalformedAmount(date, description, amount, balance, closingQuote);
  }

  /**
   * Records come from lines one for one and in order: record i is the
   * record of line idx[i], the indices increase, and every line on which
   * the pattern matches is one of them.
   */
  lemma {:induction false} ParseLinesOrigins(lines: seq<string>) returns (idx: seq<nat>)
    ensures |idx| == |ParseLines(lines)|
    ensures forall i :: 0 <= i < |idx| ==> idx[i] < |lines| && ParseLine(lines[idx[i]]) == Some(ParseLines(lines)[i])
    ensures forall i, j :: 0 <= i < j < |idx| ==> idx[i] < idx[j]
    ensures forall k :: 0 <= k < |lines| && ParseLine(lines[k]).Some? ==> exists i :: 0 <= i < |idx| && idx[i] == k
  {
    var xs := Attempts(lines);
    var vs := ParseLines(lines);
    idx := SomesOrigins(xs);
    assert |idx| == |vs|;
    forall i | 0 <= i < |idx|
      ensures idx[i] < |lines| && ParseLine(lines[idx[i]]) == Some(vs[i])
    {
      assert idx[i] < |xs| && xs[idx[i]] == Some(vs[i]);
      assert xs[idx[i]] == ParseLine(lines[idx[i]]);
    }
    forall k | 0 <= k < |lines| && ParseLine(lines[k]).Some?
      ensures exists i :: 0 <= i < |idx| && idx[i] == k
    {
      assert xs[k] == ParseLine(lines[k]);
      assert xs[k].Some?;
    }
  }

  /** Every record is the record of one line of the body, and they keep the order of the body. */
  lemma {:induction false} RecordsInOrder(text: string) returns (idx: seq<nat>)
    ensures |idx| == |StatementRecords(text)|
    ensures forall i :: 0 <= i < |idx| ==>
              idx[i] + 7 < |SplitLines(text)| &&
              ParseLine(SplitLines(text)[idx[i] + 7]) == Some(StatementRecords(text)[i])
    ensures forall i, j :: 0 <= i < j < |idx| ==> idx[i] < idx[j]
  {
    idx := ParseLinesOrigins(Body(text));
  }

  /** The preamble and the header are never examined: a text of seven lines or fewer yields nothing. */
  lemma {:induction false} ShortTextYieldsNothing(text: string)
    requires |SplitLines(text)| <= PreambleLines + HeaderLines
    ensures StatementRecords(text) == []
  {
  }

  /**
   * Whatever the first seven lines hold, the records are those of the
   * lines after them.
   */
  lemma {:induction false} PreambleIgnored(preamble: seq<string>, rows: seq<string>)
    requires |preamble| == PreambleLines + HeaderLines
    requires forall k :: 0 <= k < |preamble| ==> NoBreaks(preamble[k])
    requires forall k :: 0 <= k < |rows| ==> NoBreaks(rows[k])
    ensures StatementRecords(Join(preamble + rows)) == ParseLines(rows)
  {
    var all := preamble + rows;
    assert forall k :: 0 <= k < |all| ==> NoBreaks(all[k]);
    SplitJoin(all);
    assert Body(Join(all)) == rows;
  }

  /**
   * The amount and balance that reach a record are the numerals of the
   * line's groups, digit for digit: cleaning leaves the amount group as it
   * is written and removes only the balance group's leading quote, and what
   * remains holds no quote.
   */
  lemma {:induction false} ParsedNumberText(line: string, m: Match)
    requires Occurs(line, m)
    ensures var amount, balance := Clean(AmountGroup(line, m)), Clean(BalanceGroup(line, m));
            && amount == AmountGroup(line, m)
            && (balance == BalanceGroup(line, m) || "\"" + balance == BalanceGroup(line, m))
            && NoQuote(amount) && IsNumeral(amount)
            && NoQuote(balance) && IsNumeral(balance)
  {
    AmountShape(line, m);
    BalanceShape(line, m);
    GroupsClean(AmountGroup(line, m), BalanceGroup(line, m));
  }

  /** ParsedNumberText for the group texts alone. */
  lemma {:induction false} GroupsClean(a: string, b: string)
    requires IsNumeral(a) && IsBalanceText(b)
    ensures Clean(a) == a && (Clean(b) == b || "\"" + Clean(b) == b)
    ensures NoQuote(Clean(a)) && IsNumeral(Clean(a)) && NoQuote(Clean(b)) && IsNumeral(Clean(b))
  {
    AmountClean(a);
    BalanceClean(b);
  }

  lemma {:induction false} AmountClean(a: string)
    requires IsNumeral(a)
    ensures Clean(a) == a && NoQuote(a)
  {
    CleanNumeral(a);
    NumeralChars(a);
  }

  lemma {:induction false} BalanceClean(b: string)
    requires IsBalanceText(b)
    ensures Clean(b) == b || "\"" + Clean(b) == b
    ensures NoQuote(Clean(b)) && IsNumeral(Clean(b))
  {
    CleanBalance(b);
    BalanceNumeralShape(b);
  }

  /**
   * Quote tolerance: a row's balance reads the same whether it is written
   * `"995.50"`, `"995.50` or `995.50`, and the row yields exactly the
   * record of its parts.
   */
  lemma {:induction false} BalanceQuotesIgnored(date: string, description: string, amount: string, balance: string,
                             leadingQuote: bool, closingQuote: bool)
    requires IsDateText(date) && NoQuote(description)
    requires forall k :: 0 <= k < |description| ==> description[k] != '\n'
    requires IsNumeral(amount) && IsNumeral(balance)
    ensures ParseLine(Row(date, description, amount, if leadingQuote then "\"" + balance else balance, closingQuote))
         == Some(Record(DateOf(date), description, DecimalValue(amount), DecimalValue(balance)))
  {
    var written := if leadingQuote then "\"" + balance else balance;
    BalanceWritten(balance, leadingQuote);
    SearchRow(date, description, amount, written, closingQuote);
    var line := Row(date, description, amount, written, closingQuote);
    var m := RowMatch(description, amount, written);
    assert DateGroup(line, m) == date;
  }

  /** A numeral, with or without a quote in front, is a balance group whose numeral is itself. */
  lemma {:induction false} BalanceWritten(balance: string, leadingQuote: bool)
    requires IsNumeral(balance)
    ensures var written := if leadingQuote then "\"" + balance else balance;
            IsBalanceText(written) && BalanceNumeral(written) == balance
  {
    NumeralStart(balance);
    var t := "\"" + balance;
    NumeralSlice(t, 1, |t|);
    assert t[1..|t|] == balance;
    assert t[1..] == balance;
  }
}
