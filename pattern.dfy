/**
 * A hand-written matcher for the one regular expression the statement
 * parser uses,
 *
 *     (\d{2}/\d{2}/\d{4}),"(.*?)","(-?\d+\.\d+)",("?-?\d+\.\d+)"?
 *
 * with the semantics of Python's `re.search`: the match is the one that
 * starts at the leftmost index of the line, and among those the one with the
 * shortest description (`.*?` is lazy). Once the start and the description
 * are fixed, the amount and balance groups are forced, and the trailing `"?`
 * never decides whether the line matches.
 *
 * A match is recorded by the indices of the line where its parts end; the
 * groups are the slices between them.
 */
module Pattern {
  import opened Wrappers
  import opened Strings
  import opened Numerals
  import opened Dates

  /**
   * A match of the pattern in a line: the date group is line[start..start + 10],
   * the description line[start + 12..descEnd], the amount
   * line[descEnd + 3..amountEnd] and the balance line[amountEnd + 2..balanceEnd].
   */
  datatype Match = Match(start: nat, descEnd: nat, amountEnd: nat, balanceEnd: nat)

  /** Where the amount and balance groups end, for a tail whose description is already fixed. */
  datatype Tail = Tail(amountEnd: nat, balanceEnd: nat)

  /** `"?-?\d+\.\d+` spans line[a..b]: the balance may open with a quote of its own. */
  predicate BalanceAt(line: string, a: nat, b: nat)
    requires a <= b <= |line|
  {
    a < b && (if line[a] == '"' then NumeralAt(line, a + 1, b) else NumeralAt(line, a, b))
  }

  predicate IsBalanceText(t: string) {
    BalanceAt(t, 0, |t|)
  }

  /** `.` matches anything but a newline. */
  predicate NoNewlineIn(line: string, a: nat, b: nat)
    requires a <= b <= |line|
    decreases b - a
  {
    a == b || (line[b - 1] != '\n' && NoNewlineIn(line, a, b - 1))
  }

  /** No newline in line[a..b] means none at any index in it, and none in any prefix of it. */
  lemma {:induction false} NoNewlinePointwise(line: string, a: nat, e: nat, b: nat)
    requires a <= e <= b <= |line| && NoNewlineIn(line, a, b)
    ensures NoNewlineIn(line, a, e)
    ensures forall k :: a <= k < b ==> line[k] != '\n'
    decreases b - a
  {
    if a < b {
      NoNewlinePointwise(line, a, if e == b then e - 1 else e, b - 1);
    }
  }

  /** From index e, line holds `","`, an amount, `",` and a balance. */
  predicate TailOccurs(line: string, e: nat, t: Tail) {
    && e + 3 <= t.amountEnd && t.amountEnd + 2 <= t.balanceEnd <= |line|
    && line[e] == '"' && line[e + 1] == ',' && line[e + 2] == '"'
    && NumeralAt(line, e + 3, t.amountEnd)
    && line[t.amountEnd] == '"' && line[t.amountEnd + 1] == ','
    && BalanceAt(line, t.amountEnd + 2, t.balanceEnd)
  }

  /** `\d+` is greedy: no digit follows the balance group. */
  predicate Greedy(line: string, b: nat) {
    b == |line| || (b < |line| && !IsDigit(line[b]))
  }

  function TailOf(m: Match): Tail {
    Tail(m.amountEnd, m.balanceEnd)
  }

  /** The indices of m lie in line, in order. */
  predicate InLine(line: string, m: Match) {
    m.start + 12 <= m.descEnd && m.descEnd + 3 <= m.amountEnd && m.amountEnd + 2 <= m.balanceEnd <= |line|
  }

  /**
   * The pattern matches line from m.start with m's groups: the date, `,"`,
   * a description without newlines, and a tail.
   */
  predicate Occurs(line: string, m: Match) {
    && m.start + 12 <= m.descEnd <= |line|
    && DateAt(line, m.start) && line[m.start + 10] == ',' && line[m.start + 11] == '"'
    && NoNewlineIn(line, m.start + 12, m.descEnd)
    && TailOccurs(line, m.descEnd, TailOf(m))
  }

  /** Where the balance group that starts at index a ends, or None. */
  function BalanceEnd(line: string, a: nat): (r: Option<nat>)
    requires a <= |line|
    ensures r.Some? ==> a < r.value <= |line| && BalanceAt(line, a, r.value) && Greedy(line, r.value)
  {
    if a < |line| && line[a] == '"' then NumeralEnd(line, a + 1) else NumeralEnd(line, a)
  }

  /** The amount and balance groups, if they can follow a description that ends at e. */
  function TailAt(line: string, e: nat): (r: Option<Tail>)
    requires e <= |line|
    ensures r.Some? ==> e + 3 <= r.value.amountEnd
  {
    if e + 3 <= |line| && line[e] == '"' && line[e + 1] == ',' && line[e + 2] == '"' then
      match NumeralEnd(line, e + 3)
      case None => None
      case Some(j) =>
        if j + 2 <= |line| && line[j] == '"' && line[j + 1] == ',' then
          match BalanceEnd(line, j + 2)
          case None => None
          case Some(b) => Some(Tail(j, b))
        else None
    else None
  }

  /**
   * The lazy `(.*?)`: try to end the description at e, and only when the
   * rest of the pattern fails there take one more character.
   */
  function DescScan(line: string, p: nat, e: nat): (r: Option<Match>)
    requires p + 12 <= e <= |line|
    requires NoNewlineIn(line, p + 12, e)
    ensures r.Some? ==> r.value.start == p && e <= r.value.descEnd <= |line|
    decreases |line| - e
  {
    match TailAt(line, e)
    case Some(t) => Some(Match(p, e, t.amountEnd, t.balanceEnd))
    case None =>
      if e < |line| && line[e] != '\n' then DescScan(line, p, e + 1) else None
  }

  /** `re.match` at index p: the match that starts at p with the shortest description. */
  function MatchAt(line: string, p: nat): (r: Option<Match>)
    ensures r.Some? ==> r.value.start == p
  {
    if p + 12 <= |line| && DateAt(line, p) && line[p + 10] == ',' && line[p + 11] == '"' then
      DescScan(line, p, p + 12)
    else None
  }

  /** `re.search` from index p on: the first index at which MatchAt succeeds. */
  function SearchFrom(line: string, p: nat): (r: Option<Match>)
    ensures r.Some? ==> p <= r.value.start
    decreases |line| + 1 - p
  {
    if p > |line| then None
    else
      match MatchAt(line, p)
      case Some(m) => Some(m)
      case None => SearchFrom(line, p + 1)
  }

  /**
   * `pattern.search(line)`: whatever it finds is a match of the pattern, with
   * the greedy balance.
   */
  function Search(line: string): (r: Option<Match>)
    ensures r.Some? ==> Occurs(line, r.value) && Greedy(line, r.value.balanceEnd)
  {
    SearchFromSound(line, 0);
    SearchFrom(line, 0)
  }

  /** What TailAt finds is a tail of the pattern, with the greedy balance. */
  lemma {:induction false} TailAtSound(line: string, e: nat)
    requires e <= |line|
    ensures TailAt(line, e).Some? ==>
              TailOccurs(line, e, TailAt(line, e).value) && Greedy(line, TailAt(line, e).value.balanceEnd)
  {
  }

  lemma {:induction false} DescScanSound(line: string, p: nat, e: nat)
    requires p + 12 <= e <= |line|
    requires NoNewlineIn(line, p + 12, e)
    ensures DescScan(line, p, e).Some? ==>
              && NoNewlineIn(line, p + 12, DescScan(line, p, e).value.descEnd)
              && TailOccurs(line, DescScan(line, p, e).value.descEnd, TailOf(DescScan(line, p, e).value))
              && Greedy(line, DescScan(line, p, e).value.balanceEnd)
    decreases |line| - e
  {
    TailAtSound(line, e);
    if TailAt(line, e).None? && e < |line| && line[e] != '\n' {
      DescScanSound(line, p, e + 1);
    }
  }

  lemma {:induction false} MatchAtSound(line: string, p: nat)
    ensures MatchAt(line, p).Some? ==> Occurs(line, MatchAt(line, p).value) && Greedy(line, MatchAt(line, p).value.balanceEnd)
  {
    if p + 12 <= |line| && DateAt(line, p) && line[p + 10] == ',' && line[p + 11] == '"' {
      DescScanSound(line, p, p + 12);
    }
  }

  lemma {:induction false} SearchFromSound(line: string, p: nat)
    ensures SearchFrom(line, p).Some? ==>
              Occurs(line, SearchFrom(line, p).value) && Greedy(line, SearchFrom(line, p).value.balanceEnd)
    decreases |line| + 1 - p
  {
    if p <= |line| {
      MatchAtSound(line, p);
      if MatchAt(line, p).None? {
        SearchFromSound(line, p + 1);
      }
    }
  }

  /** Every balance the pattern allows at a is found, and the greedy one ends no earlier than b. */
  lemma {:induction false} BalanceEndComplete(line: string, a: nat, b: nat)
    requires a <= b <= |line| && BalanceAt(line, a, b)
    ensures BalanceEnd(line, a).Some? && BalanceEnd(line, a).value >= b
    ensures Greedy(line, b) ==> BalanceEnd(line, a).value == b
  {
    if line[a] == '"' {
      NumeralEndComplete(line, a + 1, b);
    } else {
      NumeralEndComplete(line, a, b);
    }
  }

  /**
   * Every tail the pattern allows at e is found by TailAt: with the same
   * amount, and exactly that tail when its balance is the greedy one.
   */
  lemma {:induction false} TailAtComplete(line: string, e: nat, t: Tail)
    requires TailOccurs(line, e, t)
    ensures TailAt(line, e).Some? && TailAt(line, e).value.amountEnd == t.amountEnd
    ensures Greedy(line, t.balanceEnd) ==> TailAt(line, e) == Some(t)
  {
    NumeralEndComplete(line, e + 3, t.amountEnd);
    BalanceEndComplete(line, t.amountEnd + 2, t.balanceEnd);
  }

  lemma {:induction false} DescScanComplete(line: string, p: nat, e: nat, target: nat)
    requires p + 12 <= e <= target <= |line|
    requires NoNewlineIn(line, p + 12, e) && NoNewlineIn(line, p + 12, target)
    requires TailAt(line, target).Some?
    ensures DescScan(line, p, e).Some?
    ensures DescScan(line, p, e).value.descEnd <= target
    decreases target - e
  {
    if TailAt(line, e).None? && e < target {
      NoNewlinePointwise(line, p + 12, e + 1, target);
      DescScanComplete(line, p, e + 1, target);
    }
  }

  lemma {:induction false} MatchAtComplete(line: string, m: Match)
    requires Occurs(line, m)
    ensures MatchAt(line, m.start).Some?
    ensures MatchAt(line, m.start).value.descEnd <= m.descEnd
  {
    TailAtComplete(line, m.descEnd, TailOf(m));
    DescScanComplete(line, m.start, m.start + 12, m.descEnd);
  }

  lemma {:induction false} SearchFromComplete(line: string, q: nat, m: Match)
    requires q <= m.start && Occurs(line, m)
    ensures SearchFrom(line, q).Some?
    ensures SearchFrom(line, q).value.start < m.start
         || (SearchFrom(line, q).value.start == m.start &&
             SearchFrom(line, q).value.descEnd <= m.descEnd)
    decreases m.start - q
  {
    MatchAtComplete(line, m);
    if MatchAt(line, q).None? {
      SearchFromComplete(line, q + 1, m);
    }
  }

  /**
   * Search is leftmost and lazy: whenever the pattern matches line at all,
   * Search finds a match, and it starts no later than any other match, and
   * among matches with the same start it has the shortest description.
   */
  lemma {:induction false} SearchLeftmostShortest(line: string, m: Match)
    requires Occurs(line, m)
    ensures Search(line).Some?
    ensures Search(line).value.start < m.start
         || (Search(line).value.start == m.start && Search(line).value.descEnd <= m.descEnd)
  {
    SearchFromComplete(line, 0, m);
  }

  /** A line is skipped exactly when the pattern matches it nowhere. */
  lemma {:induction false} SearchNoneIff(line: string)
    ensures Search(line).None? <==> forall m :: !Occurs(line, m)
  {
    forall m | Occurs(line, m)
      ensures Search(line).Some?
    {
      SearchLeftmostShortest(line, m);
    }
  }

  /**
   * Once the start and the description are fixed, the amount and balance
   * groups are forced: the amount runs to the next quote and the greedy
   * balance runs to the last digit.
   */
  lemma {:induction false} GroupsDetermined(line: string, m1: Match, m2: Match)
    requires Occurs(line, m1) && Greedy(line, m1.balanceEnd)
    requires Occurs(line, m2) && Greedy(line, m2.balanceEnd)
    requires m1.start == m2.start && m1.descEnd == m2.descEnd
    ensures m1 == m2
  {
    TailAtComplete(line, m1.descEnd, TailOf(m1));
    TailAtComplete(line, m2.descEnd, TailOf(m2));
  }

  /** The four groups of a match, as `match.groups()` returns them. */
  function DateGroup(line: string, m: Match): string
    requires InLine(line, m)
  {
    line[m.start..m.start + 10]
  }

  function DescriptionGroup(line: string, m: Match): string
    requires InLine(line, m)
  {
    line[m.start + 12..m.descEnd]
  }

  function AmountGroup(line: string, m: Match): string
    requires InLine(line, m)
  {
    line[m.descEnd + 3..m.amountEnd]
  }

  function BalanceGroup(line: string, m: Match): string
    requires InLine(line, m)
  {
    line[m.amountEnd + 2..m.balanceEnd]
  }

  /** A balance in a line is a balance once cut out of it, and back. */
  lemma {:induction false} BalanceSlice(line: string, a: nat, b: nat)
    requires a <= b <= |line|
    ensures BalanceAt(line, a, b) <==> IsBalanceText(line[a..b])
  {
    var t := line[a..b];
    if a < b {
      assert t[0] == line[a];
      if line[a] == '"' {
        NumeralSlice(line, a + 1, b);
        NumeralSlice(t, 1, |t|);
        assert t[1..|t|] == line[a + 1..b];
      } else {
        NumeralSlice(line, a, b);
        assert t[0..|t|] == t;
      }
    }
  }

  /**
   * The groups of a match have the shapes the pattern gives them: a date
   * text, a description without newlines, an amount numeral and a balance
   * that is a numeral after an optional quote.
   */
  lemma {:induction false} GroupShapes(line: string, m: Match)
    requires Occurs(line, m)
    ensures IsDateText(DateGroup(line, m))
    ensures forall k :: 0 <= k < |DescriptionGroup(line, m)| ==> DescriptionGroup(line, m)[k] != '\n'
    ensures IsNumeral(AmountGroup(line, m))
    ensures IsBalanceText(BalanceGroup(line, m))
  {
    DateShape(line, m);
    DescriptionShape(line, m);
    AmountShape(line, m);
    BalanceShape(line, m);
  }

  lemma {:induction false} DateShape(line: string, m: Match)
    requires Occurs(line, m)
    ensures IsDateText(DateGroup(line, m))
  {
    DateSlice(line, m.start);
  }

  lemma {:induction false} AmountShape(line: string, m: Match)
    requires Occurs(line, m)
    ensures IsNumeral(AmountGroup(line, m))
  {
    var a, b := m.descEnd + 3, m.amountEnd;
    assert NumeralAt(line, a, b) by {
      assert TailOccurs(line, m.descEnd, TailOf(m));
    }
    NumeralGroup(line, a, b);
  }

  lemma {:induction false} NumeralGroup(line: string, a: nat, b: nat)
    requires a <= b <= |line| && NumeralAt(line, a, b)
    ensures IsNumeral(line[a..b])
  {
    NumeralSlice(line, a, b);
  }

  lemma {:induction false} BalanceShape(line: string, m: Match)
    requires Occurs(line, m)
    ensures IsBalanceText(BalanceGroup(line, m))
  {
    var a, b := m.amountEnd + 2, m.balanceEnd;
    assert BalanceAt(line, a, b) by {
      assert TailOccurs(line, m.descEnd, TailOf(m));
    }
    BalanceGroupText(line, a, b);
  }

  lemma {:induction false} BalanceGroupText(line: string, a: nat, b: nat)
    requires a <= b <= |line| && BalanceAt(line, a, b)
    ensures IsBalanceText(line[a..b])
  {
    BalanceSlice(line, a, b);
  }

  lemma {:induction false} DescriptionShape(line: string, m: Match)
    requires Occurs(line, m)
    ensures forall k :: 0 <= k < |DescriptionGroup(line, m)| ==> DescriptionGroup(line, m)[k] != '\n'
  {
    var desc := DescriptionGroup(line, m);
    NoNewlinePointwise(line, m.start + 12, m.descEnd, m.descEnd);
    assert forall k :: 0 <= k < |desc| ==> desc[k] == line[m.start + 12 + k];
  }

  lemma {:induction false} NoNewlineOfPointwise(line: string, a: nat, b: nat)
    requires a <= b <= |line|
    requires forall k :: a <= k < b ==> line[k] != '\n'
    ensures NoNewlineIn(line, a, b)
    decreases b - a
  {
    if a < b {
      NoNewlineOfPointwise(line, a, b - 1);
    }
  }

  /** A well-formed statement row: the balance group is written with or without its quotes. */
  function Row(date: string, description: string, amount: string, balance: string, closingQuote: bool): string {
    date + (",\"" + (description + ("\",\"" + (amount + ("\"," + (balance + (if closingQuote then "\"" else "")))))))
  }

  /** The match a well-formed row is meant to give, by the lengths of its parts. */
  function RowMatch(description: string, amount: string, balance: string): Match {
    var e := 12 + |description|;
    var j := e + 3 + |amount|;
    Match(0, e, j, j + 2 + |balance|)
  }

  /** When s from index a on is x followed by y, x sits at a and y right after it. */
  lemma {:induction false} Split(s: string, a: nat, x: string, y: string)
    requires a <= |s| && s[a..] == x + y
    ensures a + |x| <= |s| && s[a..a + |x|] == x && s[a + |x|..] == y
  {
    assert s[a..a + |x|] == s[a..][..|x|];
    assert s[a + |x|..] == s[a..][|x|..];
  }

  /** What follows each part of a row. */
  lemma {:induction false} RowSuffixes(date: string, description: string, amount: string, balance: string, closingQuote: bool)
    requires |date| == 10
    ensures var line := Row(date, description, amount, balance, closingQuote);
            var m := RowMatch(description, amount, balance);
            var q := if closingQuote then "\"" else "";
            && line[0..] == date + (",\"" + (description + ("\",\"" + (amount + ("\"," + (balance + q))))))
            && line[10..] == ",\"" + (description + ("\",\"" + (amount + ("\"," + (balance + q)))))
            && line[12..] == description + ("\",\"" + (amount + ("\"," + (balance + q))))
            && line[m.descEnd..] == "\",\"" + (amount + ("\"," + (balance + q)))
            && line[m.descEnd + 3..] == amount + ("\"," + (balance + q))
            && line[m.amountEnd..] == "\"," + (balance + q)
            && line[m.amountEnd + 2..] == balance + q
  {
    var line := Row(date, description, amount, balance, closingQuote);
    var m := RowMatch(description, amount, balance);
    var q := if closingQuote then "\"" else "";
    var t6 := balance + q;
    var t5 := "\"," + t6;
    var t4 := amount + t5;
    var t3 := "\",\"" + t4;
    var t2 := description + t3;
    var t1 := ",\"" + t2;
    assert line[0..] == date + t1;
    Skip(line, 0, date, t1);
    Skip(line, 10, ",\"", t2);
    Skip(line, 12, description, t3);
    Skip(line, m.descEnd, "\",\"", t4);
    Skip(line, m.descEnd + 3, amount, t5);
    Skip(line, m.amountEnd, "\",", t6);
  }

  /** When s from index a on is x followed by y, y starts right after x. */
  lemma {:induction false} Skip(s: string, a: nat, x: string, y: string)
    requires a <= |s| && s[a..] == x + y
    ensures a + |x| <= |s| && s[a + |x|..] == y
  {
    assert s[a + |x|..] == s[a..][|x|..];
  }

  lemma {:induction false} DateIn(line: string, x: string, y: string)
    requires line[0..] == x + y && IsDateText(x)
    ensures DateAt(line, 0)
  {
    Split(line, 0, x, y);
    DateSlice(line, 0);
  }

  lemma {:induction false} DescriptionIn(line: string, e: nat, x: string, y: string)
    requires 12 <= |line| && line[12..] == x + y && e == 12 + |x|
    requires NoQuote(x) && forall k :: 0 <= k < |x| ==> x[k] != '\n'
    ensures e <= |line|
    ensures NoNewlineIn(line, 12, e) && forall k :: 12 <= k < e ==> line[k] != '"'
  {
    Split(line, 12, x, y);
    assert forall k :: 12 <= k < e ==> line[k] == x[k - 12];
    NoNewlineOfPointwise(line, 12, e);
  }

  lemma {:induction false} NumeralIn(line: string, a: nat, b: nat, x: string, y: string)
    requires a <= |line| && line[a..] == x + y && IsNumeral(x) && b == a + |x|
    ensures b <= |line| && NumeralAt(line, a, b)
  {
    Split(line, a, x, y);
    NumeralSlice(line, a, b);
  }

  lemma {:induction false} BalanceIn(line: string, a: nat, b: nat, x: string, y: string)
    requires a <= |line| && line[a..] == x + y && IsBalanceText(x) && b == a + |x|
    ensures b <= |line| && BalanceAt(line, a, b)
  {
    Split(line, a, x, y);
    BalanceSlice(line, a, b);
  }

  /** The separators of a row sit where RowMatch expects them. */
  lemma {:induction false} RowSeparators(date: string, description: string, amount: string, balance: string, closingQuote: bool)
    requires |date| == 10
    ensures var line := Row(date, description, amount, balance, closingQuote);
            var m := RowMatch(description, amount, balance);
            && m.balanceEnd <= |line|
            && line[10] == ',' && line[11] == '"'
            && line[m.descEnd] == '"' && line[m.descEnd + 1] == ',' && line[m.descEnd + 2] == '"'
            && line[m.amountEnd] == '"' && line[m.amountEnd + 1] == ','
            && Greedy(line, m.balanceEnd)
  {
    var line := Row(date, description, amount, balance, closingQuote);
    var m := RowMatch(description, amount, balance);
    var q := if closingQuote then "\"" else "";
    RowSuffixes(date, description, amount, balance, closingQuote);
    assert line[10] == line[10..][0] && line[11] == line[10..][1];
    assert line[m.descEnd] == line[m.descEnd..][0];
    assert line[m.descEnd + 1] == line[m.descEnd..][1];
    assert line[m.descEnd + 2] == line[m.descEnd..][2];
    assert line[m.amountEnd] == line[m.amountEnd..][0];
    assert line[m.amountEnd + 1] == line[m.amountEnd..][1];
    Split(line, m.amountEnd + 2, balance, q);
    if m.balanceEnd < |line| {
      assert line[m.balanceEnd] == line[m.balanceEnd..][0];
    }
  }

  /** The groups of a row have the shapes the pattern asks for, in place. */
  lemma {:induction false} RowDate(date: string, description: string, amount: string, balance: string, closingQuote: bool)
    requires IsDateText(date)
    ensures DateAt(Row(date, description, amount, balance, closingQuote), 0)
  {
    var q := if closingQuote then "\"" else "";
    RowSuffixes(date, description, amount, balance, closingQuote);
    DateIn(Row(date, description, amount, balance, closingQuote), date,
      ",\"" + (description + ("\",\"" + (amount + ("\"," + (balance + q))))));
  }

  lemma {:induction false} RowDescription(date: string, description: string, amount: string, balance: string, closingQuote: bool)
    requires |date| == 10 && NoQuote(description)
    requires forall k :: 0 <= k < |description| ==> description[k] != '\n'
    ensures var line := Row(date, description, amount, balance, closingQuote);
            var m := RowMatch(description, amount, balance);
            && m.descEnd <= |line| && NoNewlineIn(line, 12, m.descEnd)
            && (forall k :: 12 <= k < m.descEnd ==> line[k] != '"')
  {
    var q := if closingQuote then "\"" else "";
    RowSuffixes(date, description, amount, balance, closingQuote);
    DescriptionIn(Row(date, description, amount, balance, closingQuote), RowMatch(description, amount, balance).descEnd, description,
      "\",\"" + (amount + ("\"," + (balance + q))));
  }

  lemma {:induction false} RowAmount(date: string, description: string, amount: string, balance: string, closingQuote: bool)
    requires |date| == 10 && IsNumeral(amount)
    ensures var line := Row(date, description, amount, balance, closingQuote);
            var m := RowMatch(description, amount, balance);
            m.amountEnd <= |line| && NumeralAt(line, m.descEnd + 3, m.amountEnd)
  {
    var q := if closingQuote then "\"" else "";
    RowSuffixes(date, description, amount, balance, closingQuote);
    var m := RowMatch(description, amount, balance);
    NumeralIn(Row(date, description, amount, balance, closingQuote), m.descEnd + 3, m.amountEnd, amount,
      "\"," + (balance + q));
  }

  lemma {:induction false} RowBalance(date: string, description: string, amount: string, balance: string, closingQuote: bool)
    requires |date| == 10 && IsBalanceText(balance)
    ensures var line := Row(date, description, amount, balance, closingQuote);
            var m := RowMatch(description, amount, balance);
            m.balanceEnd <= |line| && BalanceAt(line, m.amountEnd + 2, m.balanceEnd)
  {
    var q := if closingQuote then "\"" else "";
    var line := Row(date, description, amount, balance, closingQuote);
    var m := RowMatch(description, amount, balance);
    var a, b := m.amountEnd + 2, m.balanceEnd;
    assert line[a..] == balance + q by {
      RowSuffixes(date, description, amount, balance, closingQuote);
    }
    BalanceIn(line, a, b, balance, q);
  }

  /** A row is matched by the pattern from index 0, and its description holds no quote. */
  lemma {:induction false} RowOccurs(date: string, description: string, amount: string, balance: string, closingQuote: bool)
    requires IsDateText(date) && NoQuote(description)
    requires forall k :: 0 <= k < |description| ==> description[k] != '\n'
    requires IsNumeral(amount) && IsBalanceText(balance)
    ensures var line := Row(date, description, amount, balance, closingQuote);
            var m := RowMatch(description, amount, balance);
            && Occurs(line, m) && Greedy(line, m.balanceEnd)
            && (forall k :: 12 <= k < m.descEnd ==> line[k] != '"')
  {
    var line := Row(date, description, amount, balance, closingQuote);
    var m := RowMatch(description, amount, balance);
    RowSeparators(date, description, amount, balance, closingQuote);
    RowDate(date, description, amount, balance, closingQuote);
    RowDescription(date, description, amount, balance, closingQuote);
    RowAmount(date, description, amount, balance, closingQuote);
    RowBalance(date, description, amount, balance, closingQuote);
    OccursOfParts(line, m);
  }

  /** The parts of a match, found one by one, make the match. */
  lemma {:induction false} OccursOfParts(line: string, m: Match)
    requires m.start == 0 && 12 <= m.descEnd && m.descEnd + 3 <= m.amountEnd
    requires m.amountEnd + 2 <= m.balanceEnd <= |line|
    requires DateAt(line, 0) && line[10] == ',' && line[11] == '"'
    requires NoNewlineIn(line, 12, m.descEnd)
    requires line[m.descEnd] == '"' && line[m.descEnd + 1] == ',' && line[m.descEnd + 2] == '"'
    requires NumeralAt(line, m.descEnd + 3, m.amountEnd)
    requires line[m.amountEnd] == '"' && line[m.amountEnd + 1] == ','
    requires BalanceAt(line, m.amountEnd + 2, m.balanceEnd)
    ensures Occurs(line, m)
  {
    assert TailOccurs(line, m.descEnd, TailOf(m));
  }

  /** The groups of a row, cut out at the indices RowMatch gives, are the parts it was built from. */
  lemma {:induction false} RowGroups(date: string, description: string, amount: string, balance: string, closingQuote: bool)
    requires |date| == 10
    ensures var line := Row(date, description, amount, balance, closingQuote);
            var m := RowMatch(description, amount, balance);
            && InLine(line, m)
            && DateGroup(line, m) == date && DescriptionGroup(line, m) == description
            && AmountGroup(line, m) == amount && BalanceGroup(line, m) == balance
  {
    var line := Row(date, description, amount, balance, closingQuote);
    var m := RowMatch(description, amount, balance);
    var q := if closingQuote then "\"" else "";
    var t4 := "\"," + (balance + q);
    var t3 := "\",\"" + (amount + t4);
    var t1 := ",\"" + (description + t3);
    var e, a, j, c, b := m.descEnd, m.descEnd + 3, m.amountEnd, m.amountEnd + 2, m.balanceEnd;
    assert line[0..] == date + t1 && line[12..] == description + t3 &&
           line[a..] == amount + t4 && line[c..] == balance + q by {
      RowSuffixes(date, description, amount, balance, closingQuote);
    }
    assert line[0..10] == date by {
      Split(line, 0, date, t1);
    }
    assert line[12..e] == description by {
      Split(line, 12, description, t3);
    }
    assert line[a..j] == amount by {
      Split(line, a, amount, t4);
    }
    assert line[c..b] == balance by {
      Split(line, c, balance, q);
    }
  }

  /**
   * When the pattern matches from index 0 and no quote lies between the
   * start of the description and the end m gives it, Search finds m.
   */
  lemma {:induction false} SearchFirst(line: string, m: Match)
    requires m.start == 0 && Occurs(line, m) && Greedy(line, m.balanceEnd)
    requires forall k :: 12 <= k < m.descEnd ==> line[k] != '"'
    ensures Search(line) == Some(m)
  {
    SearchLeftmostShortest(line, m);
    var r := Search(line).value;
    assert r.start == 0 && r.descEnd == m.descEnd;
    GroupsDetermined(line, r, m);
  }

  /**
   * A well-formed row whose description holds no quote matches at index 0
   * with exactly the groups it was built from, whether or not it carries the
   * balance's closing quote.
   */
  lemma {:induction false} SearchRow(date: string, description: string, amount: string, balance: string, closingQuote: bool)
    requires IsDateText(date) && NoQuote(description)
    requires forall k :: 0 <= k < |description| ==> description[k] != '\n'
    requires IsNumeral(amount) && IsBalanceText(balance)
    ensures var line := Row(date, description, amount, balance, closingQuote);
            var m := RowMatch(description, amount, balance);
            && Search(line) == Some(m) && InLine(line, m)
            && DateGroup(line, m) == date && DescriptionGroup(line, m) == description
            && AmountGroup(line, m) == amount && BalanceGroup(line, m) == balance
  {
    RowOccurs(date, description, amount, balance, closingQuote);
    RowGroups(date, description, amount, balance, closingQuote);
    SearchFirst(Row(date, description, amount, balance, closingQuote), RowMatch(description, amount, balance));
  }

  /** A balance group holds no comma: it is a numeral, with or without a leading quote. */
  lemma {:induction false} BalanceNoComma(t: string)
    requires IsBalanceText(t)
    ensures forall k :: 0 <= k < |t| ==> t[k] != ','
  {
    if t[0] == '"' {
      NumeralAtFacts(t, 1, |t|);
    } else {
      NumeralAtFacts(t, 0, |t|);
    }
  }

  /** When line from index a on is x followed by y and x holds no quote, no quote lies where x sits. */
  lemma {:induction false} QuoteFree(line: string, a: nat, x: string, y: string)
    requires a <= |line| && line[a..] == x + y && NoQuote(x)
    ensures a + |x| <= |line| && line[a..a + |x|] == x
    ensures forall k :: a <= k < a + |x| ==> line[k] != '"'
  {
    Split(line, a, x, y);
    assert forall k :: a <= k < a + |x| ==> line[k] == x[k - a];
  }

  /** When line from index a on is x and x holds no comma, no comma lies from a on. */
  lemma {:induction false} CommaFree(line: string, a: nat, x: string)
    requires a <= |line| && line[a..] == x
    requires forall k :: 0 <= k < |x| ==> x[k] != ','
    ensures forall k :: a <= k < |line| ==> line[k] != ','
  {
    assert forall k :: a <= k < |line| ==> line[k] == x[k - a];
  }

  /**
   * Where the quotes and commas of a row stand, when neither its description
   * nor its amount field holds a quote: no quote lies between index 12 and
   * the `","` that opens the amount field, none lies inside that field, a
   * `",` closes it, and no comma follows. (When the balance has its leading
   * quote, that `",` and the quote form a second `","`.)
   */
  lemma {:induction false} RowLayout(date: string, description: string, amount: string, balance: string, closingQuote: bool)
    requires |date| == 10 && NoQuote(description) && NoQuote(amount) && IsBalanceText(balance)
    ensures var line := Row(date, description, amount, balance, closingQuote);
            var m := RowMatch(description, amount, balance);
            && 12 <= m.descEnd && m.descEnd + 3 <= m.amountEnd && m.amountEnd + 2 <= |line|
            && (forall k :: 12 <= k < m.descEnd ==> line[k] != '"')
            && line[m.descEnd] == '"' && line[m.descEnd + 1] == ',' && line[m.descEnd + 2] == '"'
            && line[m.descEnd + 3..m.amountEnd] == amount
            && (forall k :: m.descEnd + 3 <= k < m.amountEnd ==> line[k] != '"')
            && line[m.amountEnd] == '"' && line[m.amountEnd + 1] == ','
            && (forall k :: m.amountEnd + 2 <= k < |line| ==> line[k] != ',')
  {
    RowFields(date, description, amount, balance, closingQuote);
    RowTail(date, description, amount, balance, closingQuote);
  }

  /** The quoted description and amount fields of a row, and the separators around them. */
  lemma {:induction false} RowFields(date: string, description: string, amount: string, balance: string, closingQuote: bool)
    requires |date| == 10 && NoQuote(description) && NoQuote(amount)
    ensures var line := Row(date, description, amount, balance, closingQuote);
            var m := RowMatch(description, amount, balance);
            && 12 <= m.descEnd && m.descEnd + 3 <= m.amountEnd && m.amountEnd + 2 <= |line|
            && (forall k :: 12 <= k < m.descEnd ==> line[k] != '"')
            && line[m.descEnd] == '"' && line[m.descEnd + 1] == ',' && line[m.descEnd + 2] == '"'
            && line[m.descEnd + 3..m.amountEnd] == amount
            && (forall k :: m.descEnd + 3 <= k < m.amountEnd ==> line[k] != '"')
            && line[m.amountEnd] == '"' && line[m.amountEnd + 1] == ','
  {
    var line := Row(date, description, amount, balance, closingQuote);
    var m := RowMatch(description, amount, balance);
    var q := if closingQuote then "\"" else "";
    var t5 := "\"," + (balance + q);
    var t3 := "\",\"" + (amount + t5);
    RowSuffixes(date, description, amount, balance, closingQuote);
    RowSeparators(date, description, amount, balance, closingQuote);
    QuoteFree(line, 12, description, t3);
    QuoteFree(line, m.descEnd + 3, amount, t5);
  }

  /** After the `",` that closes a row's amount field, the row holds no comma. */
  lemma {:induction false} RowTail(date: string, description: string, amount: string, balance: string, closingQuote: bool)
    requires |date| == 10 && IsBalanceText(balance)
    ensures var line := Row(date, description, amount, balance, closingQuote);
            var m := RowMatch(description, amount, balance);
            && m.amountEnd + 2 <= |line|
            && (forall k :: m.amountEnd + 2 <= k < |line| ==> line[k] != ',')
  {
    var line := Row(date, description, amount, balance, closingQuote);
    var m := RowMatch(description, amount, balance);
    var q := if closingQuote then "\"" else "";
    RowSuffixes(date, description, amount, balance, closingQuote);
    BalanceNoComma(balance);
    assert forall k :: 0 <= k < |balance + q| ==> (balance + q)[k] != ',';
    CommaFree(line, m.amountEnd + 2, balance + q);
  }

  /**
   * In a line laid out as RowLayout describes, whose amount field is not a
   * numeral, the pattern matches nowhere. A description ending at the `","`
   * that opens the amount field is followed by that field, which is not a
   * numeral. A description ending later must end at the amount field's
   * closing quote, and the balance numeral after it is then followed by no
   * `",` because no comma lies after that point.
   */
  lemma {:induction false} NoMatchAroundAmount(line: string, m: Match, e: nat, j: nat, amount: string)
    requires 12 <= e && e + 3 <= j && j + 2 <= |line|
    requires forall k :: 12 <= k < e ==> line[k] != '"'
    requires line[e] == '"' && line[e + 1] == ',' && line[e + 2] == '"'
    requires line[e + 3..j] == amount && !IsNumeral(amount)
    requires forall k :: e + 3 <= k < j ==> line[k] != '"'
    requires line[j] == '"' && line[j + 1] == ','
    requires forall k :: j + 2 <= k < |line| ==> line[k] != ','
    ensures !Occurs(line, m)
  {
    NumeralSlice(line, e + 3, j);
    NumeralAtFacts(line, m.descEnd + 3, m.amountEnd);
  }

  /**
   * A row whose amount field is not `-?\d+\.\d+` is not matched anywhere,
   * when neither its description nor its amount field holds a quote and its
   * balance is well formed.
   */
  lemma {:induction false} SearchMalformedAmount(date: string, description: string, amount: string, balance: string,
                                                 closingQuote: bool)
    requires |date| == 10 && NoQuote(description)
    requires NoQuote(amount) && !IsNumeral(amount)
    requires IsBalanceText(balance)
    ensures Search(Row(date, description, amount, balance, closingQuote)).None?
  {
    var line := Row(date, description, amount, balance, closingQuote);
    var rm := RowMatch(description, amount, balance);
    RowLayout(date, description, amount, balance, closingQuote);
    forall m: Match
      ensures !Occurs(line, m)
    {
      NoMatchAroundAmount(line, m, rm.descEnd, rm.amountEnd, amount);
    }
    SearchNoneIff(line);
  }
}
