/**
 * Transaction dates: the `\d{2}/\d{2}/\d{4}` text of the first column, read
 * as month, day and year, and compared as calendar dates are.
 */
module Dates {
  import opened Strings

  /** The numbers a date's text holds; they are not checked against the calendar. */
  datatype Date = Date(month: nat, day: nat, year: nat)

  /** `\d{2}/\d{2}/\d{4}` spans line[p..p + 10]: digits everywhere except two slashes. */
  predicate DateAt(line: string, p: nat) {
    && p + 10 <= |line|
    && IsDigit(line[p]) && IsDigit(line[p + 1]) && line[p + 2] == '/'
    && IsDigit(line[p + 3]) && IsDigit(line[p + 4]) && line[p + 5] == '/'
    && IsDigit(line[p + 6]) && IsDigit(line[p + 7]) && IsDigit(line[p + 8]) && IsDigit(line[p + 9])
  }

  predicate IsDateText(t: string) {
    |t| == 10 && DateAt(t, 0)
  }

  /** A date in a line is a date once cut out of it, and back. */
  lemma {:induction false} DateSlice(line: string, p: nat)
    requires p + 10 <= |line|
    ensures DateAt(line, p) <==> IsDateText(line[p..p + 10])
  {
    var t := line[p..p + 10];
    assert forall k :: 0 <= k < 10 ==> t[k] == line[p + k];
  }

  /** The month, day and year fields of a date text are digit strings. */
  lemma {:induction false} DateFields(t: string)
    requires IsDateText(t)
    ensures AllDigits(t[..2]) && AllDigits(t[3..5]) && AllDigits(t[6..])
  {
    var m, d, y := t[..2], t[3..5], t[6..];
    assert forall k :: 0 <= k < 10 && k != 2 && k != 5 ==> IsDigit(t[k]);
    assert forall k :: 0 <= k < 2 ==> m[k] == t[k];
    assert forall k :: 0 <= k < 2 ==> d[k] == t[3 + k];
    assert forall k :: 0 <= k < 4 ==> y[k] == t[6 + k];
  }

  /**
   * MM/DD/YYYY, always month first. `pd.to_datetime` gives the same date
   * only when the text is a valid calendar date read month first and lies
   * within pandas' Timestamp range; for other texts it raises or reads the
   * date day first, and this function does not follow it.
   */
  function DateOf(t: string): (d: Date)
    requires IsDateText(t)
    ensures d.month < 100 && d.day < 100 && d.year < 10000
  {
    DateFields(t);
    Date(DigitsValue(t[..2]), DigitsValue(t[3..5]), DigitsValue(t[6..]))
  }

  /** Different date texts never read as the same date. */
  lemma {:induction false} DateOfInjective(s: string, t: string)
    requires IsDateText(s) && IsDateText(t)
    requires DateOf(s) == DateOf(t)
    ensures s == t
  {
    DateFields(s);
    DateFields(t);
    DigitsValueInjective(s[..2], t[..2]);
    DigitsValueInjective(s[3..5], t[3..5]);
    DigitsValueInjective(s[6..], t[6..]);
    assert s == s[..2] + [s[2]] + s[3..5] + [s[5]] + s[6..];
    assert t == t[..2] + [t[2]] + t[3..5] + [t[5]] + t[6..];
  }

  /** a is on or before b: year first, then month, then day. */
  predicate OnOrBefore(a: Date, b: Date) {
    || a.year < b.year
    || (a.year == b.year && a.month < b.month)
    || (a.year == b.year && a.month == b.month && a.day <= b.day)
  }
}
