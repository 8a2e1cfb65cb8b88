/**
 * Decimal numerals of the shape `-?\d+\.\d+`, the form both money columns
 * of the statement take, and their exact values.
 */
module Numerals {
  import opened Wrappers
  import opened Strings

  /** The end of the run of digits that starts at index i of line, looking no further than b. */
  function DigitRunEnd(line: string, i: nat, b: nat): (j: nat)
    requires i <= b <= |line|
    ensures i <= j <= b
    ensures j < b ==> !IsDigit(line[j])
    decreases b - i
  {
    if i == b || !IsDigit(line[i]) then i else DigitRunEnd(line, i + 1, b)
  }

  /** Every character of a run is a digit. */
  lemma {:induction false} DigitRunDigits(line: string, i: nat, b: nat)
    requires i <= b <= |line|
    ensures forall k :: i <= k < DigitRunEnd(line, i, b) ==> IsDigit(line[k])
    decreases b - i
  {
    if i < b && IsDigit(line[i]) {
      DigitRunDigits(line, i + 1, b);
    }
  }

  /** A run of digits reaches at least as far as the digits do. */
  lemma {:induction false} DigitRunCovers(line: string, i: nat, e: nat, b: nat)
    requires i <= e <= b <= |line|
    requires forall k :: i <= k < e ==> IsDigit(line[k])
    ensures DigitRunEnd(line, i, b) >= e
    decreases e - i
  {
    if i < e {
      DigitRunCovers(line, i + 1, e, b);
    }
  }

  /** Looking no further than b cuts the run off at b and changes nothing else. */
  lemma {:induction false} DigitRunNarrow(line: string, i: nat, b: nat, c: nat)
    requires i <= b <= c <= |line|
    ensures DigitRunEnd(line, i, b) == if DigitRunEnd(line, i, c) < b then DigitRunEnd(line, i, c) else b
    decreases b - i
  {
    if i < b && IsDigit(line[i]) {
      DigitRunNarrow(line, i + 1, b, c);
    }
  }

  /** A run that fills line[i..b] and meets a non-digit at b ends there however far one looks. */
  lemma {:induction false} DigitRunStops(line: string, i: nat, b: nat, c: nat)
    requires i <= b < c <= |line|
    requires DigitRunEnd(line, i, b) == b && !IsDigit(line[b])
    ensures DigitRunEnd(line, i, c) == b
    decreases b - i
  {
    if i < b {
      DigitRunStops(line, i + 1, b, c);
    }
  }

  /** A run read in a slice of line is the same run, shifted. */
  lemma {:induction false} DigitRunSlice(line: string, a: nat, i: nat, b: nat)
    requires a <= i <= b <= |line|
    ensures DigitRunEnd(line[a..b], i - a, b - a) + a == DigitRunEnd(line, i, b)
    decreases b - i
  {
    if i < b {
      assert line[a..b][i - a] == line[i];
      DigitRunSlice(line, a, i + 1, b);
    }
  }

  /** Where the digits of line[a..b] begin: after its minus sign, if it has one. */
  function SignEnd(line: string, a: nat, b: nat): nat
    requires a <= b <= |line|
  {
    if a < b && line[a] == '-' then a + 1 else a
  }

  /** The index of the point in a numeral spanning line[a..b]: where its first run of digits ends. */
  function PointOf(line: string, a: nat, b: nat): nat
    requires a <= b <= |line|
  {
    DigitRunEnd(line, SignEnd(line, a, b), b)
  }

  /**
   * `-?\d+\.\d+` spans line[a..b]: an optional minus, a run of digits,
   * a point, and a run of digits up to b.
   */
  predicate NumeralAt(line: string, a: nat, b: nat)
    requires a <= b <= |line|
  {
    var s := SignEnd(line, a, b);
    var d := PointOf(line, a, b);
    && s < d && d + 1 < b && line[d] == '.'
    && DigitRunEnd(line, d + 1, b) == b
  }

  predicate IsNumeral(t: string) {
    NumeralAt(t, 0, |t|)
  }

  /** A numeral in a line is a numeral once cut out of it, and back. */
  lemma {:induction false} NumeralSlice(line: string, a: nat, b: nat)
    requires a <= b <= |line|
    ensures NumeralAt(line, a, b) <==> IsNumeral(line[a..b])
  {
    var t := line[a..b];
    var s := SignEnd(line, a, b);
    if a < b {
      assert t[0] == line[a];
    }
    assert SignEnd(t, 0, |t|) + a == s;
    DigitRunSlice(line, a, s, b);
    var d := PointOf(line, a, b);
    assert PointOf(t, 0, |t|) + a == d;
    if d < b {
      assert t[d - a] == line[d];
      DigitRunSlice(line, a, d + 1, b);
    }
  }

  /** The characters of a numeral: a minus only in front, one point, digits elsewhere. */
  lemma {:induction false} NumeralLayout(t: string)
    requires IsNumeral(t)
    ensures forall k :: 0 <= k < |t| ==> t[k] == '-' || t[k] == '.' || IsDigit(t[k])
    ensures forall k :: 0 < k < |t| ==> t[k] != '-'
  {
    var s := SignEnd(t, 0, |t|);
    var d := PointOf(t, 0, |t|);
    DigitRunDigits(t, s, |t|);
    DigitRunDigits(t, d + 1, |t|);
  }

  /** A numeral opens with a minus or a digit, so never with a quote. */
  lemma {:induction false} NumeralStart(t: string)
    requires IsNumeral(t)
    ensures t != [] && (t[0] == '-' || IsDigit(t[0]))
  {
    DigitRunDigits(t, SignEnd(t, 0, |t|), |t|);
  }

  /** A numeral inside a line opens with a minus or a digit and holds only minus signs, points and digits. */
  lemma {:induction false} NumeralAtFacts(line: string, a: nat, b: nat)
    ensures a <= b <= |line| && NumeralAt(line, a, b) ==>
              && a < b && (line[a] == '-' || IsDigit(line[a]))
              && forall k :: a <= k < b ==> line[k] == '-' || line[k] == '.' || IsDigit(line[k])
  {
    if a <= b <= |line| && NumeralAt(line, a, b) {
      var t := line[a..b];
      NumeralSlice(line, a, b);
      NumeralLayout(t);
      NumeralStart(t);
      assert forall k :: a <= k < b ==> line[k] == t[k - a];
    }
  }

  /** A numeral holds no quote and no white space. */
  lemma {:induction false} NumeralChars(t: string)
    requires IsNumeral(t)
    ensures NoQuote(t)
    ensures forall k :: 0 <= k < |t| ==> !IsSpace(t[k])
  {
    NumeralLayout(t);
  }

  /**
   * Where the numeral that starts at index a of line ends, reading `-?`,
   * `\d+`, `\.`, `\d+` greedily as a backtracking matcher does, or None.
   */
  function NumeralEnd(line: string, a: nat): (r: Option<nat>)
    requires a <= |line|
    ensures r.Some? ==> a < r.value <= |line| && NumeralAt(line, a, r.value)
    ensures r.Some? ==> r.value == |line| || !IsDigit(line[r.value])
  {
    var s := SignEnd(line, a, |line|);
    var d := DigitRunEnd(line, s, |line|);
    if s < d < |line| && line[d] == '.' then
      var f := DigitRunEnd(line, d + 1, |line|);
      if d + 1 < f then
        DigitRunNarrow(line, s, f, |line|);
        DigitRunNarrow(line, d + 1, f, |line|);
        Some(f)
      else None
    else None
  }

  /**
   * The greedy reading finds every numeral: if one spans line[a..j], the
   * reading ends no earlier than j, and exactly at j when no digit follows.
   */
  lemma {:induction false} NumeralEndComplete(line: string, a: nat, j: nat)
    requires a <= j <= |line| && NumeralAt(line, a, j)
    ensures NumeralEnd(line, a).Some? && NumeralEnd(line, a).value >= j
    ensures j == |line| || !IsDigit(line[j]) ==> NumeralEnd(line, a).value == j
  {
    var s := SignEnd(line, a, j);
    var d := PointOf(line, a, j);
    DigitRunNarrow(line, s, j, |line|);
    DigitRunNarrow(line, d + 1, j, |line|);
    if j < |line| && !IsDigit(line[j]) {
      DigitRunStops(line, d + 1, j, |line|);
    }
  }

  /** The digits of a numeral before its point. */
  function IntegerDigits(t: string): (w: string)
    requires IsNumeral(t)
    ensures AllDigits(w) && w != []
  {
    var s := SignEnd(t, 0, |t|);
    var d := PointOf(t, 0, |t|);
    DigitRunDigits(t, s, |t|);
    var w := t[s..d];
    assert forall k :: 0 <= k < |w| ==> w[k] == t[s + k];
    w
  }

  /** The digits of a numeral after its point. */
  function FractionDigits(t: string): (f: string)
    requires IsNumeral(t)
    ensures AllDigits(f) && f != []
  {
    var d := PointOf(t, 0, |t|);
    DigitRunDigits(t, d + 1, |t|);
    var f := t[d + 1..];
    assert forall k :: 0 <= k < |f| ==> f[k] == t[d + 1 + k];
    f
  }

  /** The size of a numeral, regardless of its sign. */
  function Magnitude(t: string): (m: real)
    requires IsNumeral(t)
    ensures m >= 0.0
  {
    var f := FractionDigits(t);
    var fraction := DigitsValue(f) as real / Pow10(|f|) as real;
    assert fraction >= 0.0;
    DigitsValue(IntegerDigits(t)) as real + fraction
  }

  /** The exact value of a numeral, as `float()` would read it without rounding. */
  function DecimalValue(t: string): (v: real)
    requires IsNumeral(t)
    ensures t[0] == '-' ==> v <= 0.0
    ensures t[0] != '-' ==> v >= 0.0
  {
    if t[0] == '-' then -Magnitude(t) else Magnitude(t)
  }

  /**
   * The value of a numeral is the whole number its digits spell with the
   * point left out, divided by ten to the number of its fraction digits,
   * and negated when the numeral has a minus: `-4.50` is -450 / 100.
   */
  lemma {:induction false} DecimalScaled(t: string)
    requires IsNumeral(t)
    ensures AllDigits(IntegerDigits(t) + FractionDigits(t))
    ensures var unsigned := DigitsValue(IntegerDigits(t) + FractionDigits(t)) as real / Pow10(|FractionDigits(t)|) as real;
            DecimalValue(t) == if t[0] == '-' then -unsigned else unsigned
  {
    var w, f := IntegerDigits(t), FractionDigits(t);
    DigitsValueAppend(w, f);
    assert Magnitude(t) == DigitsValue(w) as real + DigitsValue(f) as real / Pow10(|f|) as real;
    OverPlaces(DigitsValue(w), DigitsValue(f), Pow10(|f|));
  }

  /** i + x / p is the whole number i * p + x over p. */
  lemma {:induction false} OverPlaces(i: nat, x: nat, p: nat)
    requires p >= 1
    ensures i as real + x as real / p as real == (i * p + x) as real / p as real
  {
  }

  /** A numeral holds a digit other than '0'. */
  predicate HasNonZeroDigit(t: string) {
    exists k :: 0 <= k < |t| && '1' <= t[k] <= '9'
  }

  /** The non-zero digits of a numeral are those of its integer part and those of its fraction. */
  lemma {:induction false} NonZeroParts(t: string)
    requires IsNumeral(t)
    ensures HasNonZeroDigit(t) <==> HasNonZeroDigit(IntegerDigits(t)) || HasNonZeroDigit(FractionDigits(t))
  {
    var s := SignEnd(t, 0, |t|);
    var d := PointOf(t, 0, |t|);
    var w, f := IntegerDigits(t), FractionDigits(t);
    if HasNonZeroDigit(t) {
      var k :| 0 <= k < |t| && '1' <= t[k] <= '9';
      if k < d {
        assert w[k - s] == t[k];
      } else {
        assert f[k - d - 1] == t[k];
      }
    }
    if HasNonZeroDigit(w) {
      var k :| 0 <= k < |w| && '1' <= w[k] <= '9';
      assert t[s + k] == w[k];
    }
    if HasNonZeroDigit(f) {
      var k :| 0 <= k < |f| && '1' <= f[k] <= '9';
      assert t[d + 1 + k] == f[k];
    }
  }

  /** A digit string is worth something exactly when it has a digit other than '0'. */
  lemma {:induction false} DigitsPositive(w: string)
    requires AllDigits(w)
    ensures DigitsValue(w) > 0 <==> HasNonZeroDigit(w)
  {
    DigitsValuePositive(w);
    if HasNonZeroDigit(w) {
      var k :| 0 <= k < |w| && '1' <= w[k] <= '9';
      assert w[k] != '0';
    }
  }

  lemma {:induction false} MagnitudePositive(t: string)
    requires IsNumeral(t)
    ensures Magnitude(t) > 0.0 <==> HasNonZeroDigit(t)
  {
    var w, f := IntegerDigits(t), FractionDigits(t);
    NonZeroParts(t);
    DigitsPositive(w);
    DigitsPositive(f);
    var p := Pow10(|f|) as real;
    assert DigitsValue(f) as real / p > 0.0 <==> DigitsValue(f) > 0;
  }

  /**
   * Sign handling: a numeral is negative exactly when it carries a minus and
   * a non-zero digit, positive exactly when it has a non-zero digit and no minus.
   */
  lemma {:induction false} DecimalSign(t: string)
    requires IsNumeral(t)
    ensures DecimalValue(t) < 0.0 <==> t[0] == '-' && HasNonZeroDigit(t)
    ensures DecimalValue(t) > 0.0 <==> t[0] != '-' && HasNonZeroDigit(t)
  {
    MagnitudePositive(t);
  }
}
