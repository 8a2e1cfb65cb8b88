/**
 * Python's `str.splitlines()`: the uploaded text is cut at every line
 * boundary, where "\r\n" counts as one boundary, and the text after the last
 * boundary becomes a line only when it is not empty.
 */
module Lines {

  /** The line boundaries `splitlines()` recognises ("\r\n" is handled in SplitLines). */
  predicate IsLineBreak(c: char) {
    || c == '\n' || c == '\r' || c == '\U{0B}' || c == '\U{0C}'
    || c == '\U{1C}' || c == '\U{1D}' || c == '\U{1E}' || c == '\U{85}'
    || c == '\U{2028}' || c == '\U{2029}'
  }

  predicate NoBreaks(s: string) {
    forall k :: 0 <= k < |s| ==> !IsLineBreak(s[k])
  }

  /** The index of the first line boundary in s, or |s| when there is none. */
  function FirstBreak(s: string): (i: nat)
    ensures i <= |s|
  {
    if s == [] || IsLineBreak(s[0]) then 0 else 1 + FirstBreak(s[1..])
  }

  /** FirstBreak finds the first boundary: none before it, one at it unless it is the end. */
  lemma {:induction false} FirstBreakFirst(s: string)
    ensures forall k :: 0 <= k < FirstBreak(s) ==> !IsLineBreak(s[k])
    ensures FirstBreak(s) < |s| ==> IsLineBreak(s[FirstBreak(s)])
    decreases |s|
  {
    if s != [] && !IsLineBreak(s[0]) {
      var t := s[1..];
      FirstBreakFirst(t);
      forall k | 0 < k < FirstBreak(s)
        ensures !IsLineBreak(s[k])
      {
        assert s[k] == t[k - 1];
      }
    }
  }

  /** An index with no boundary before it and a boundary (or the end) at it is the first boundary. */
  lemma {:induction false} FirstBreakAt(s: string, i: nat)
    requires i <= |s|
    requires forall k :: 0 <= k < i ==> !IsLineBreak(s[k])
    requires i < |s| ==> IsLineBreak(s[i])
    ensures FirstBreak(s) == i
    decreases i
  {
    if i > 0 {
      var t := s[1..];
      forall k | 0 <= k < i - 1
        ensures !IsLineBreak(t[k])
      {
        assert t[k] == s[k + 1];
      }
      FirstBreakAt(t, i - 1);
    }
  }

  /** The length of the boundary at index i: 2 for "\r\n", else 1. */
  function BreakWidth(s: string, i: nat): (w: nat)
    requires i < |s|
    ensures i + w <= |s| && (w == 1 || w == 2)
  {
    if s[i] == '\r' && i + 1 < |s| && s[i + 1] == '\n' then 2 else 1
  }

  function SplitLines(s: string): (lines: seq<string>)
    ensures |lines| <= |s|
    decreases |s|
  {
    if s == [] then []
    else
      var i := FirstBreak(s);
      if i == |s| then [s]
      else
        [s[..i]] + SplitLines(s[i + BreakWidth(s, i)..])
  }

  /** No line holds a line boundary. */
  lemma {:induction false} SplitLinesNoBreaks(s: string)
    ensures forall k :: 0 <= k < |SplitLines(s)| ==> NoBreaks(SplitLines(s)[k])
    decreases |s|
  {
    if s != [] {
      var i := FirstBreak(s);
      FirstBreakFirst(s);
      var head := s[..i];
      assert NoBreaks(head) by {
        assert forall k :: 0 <= k < i ==> head[k] == s[k];
      }
      if i < |s| {
        var rest := s[i + BreakWidth(s, i)..];
        SplitLinesNoBreaks(rest);
        assert SplitLines(s) == [head] + SplitLines(rest);
      } else {
        assert head == s;
      }
    }
  }

  /** The text of a file whose lines are `lines`, each ended by "\n". */
  function Join(lines: seq<string>): string {
    if lines == [] then [] else lines[0] + "\n" + Join(lines[1..])
  }

  /** Splitting undoes joining, for lines that hold no line boundary. */
  lemma {:induction false} SplitJoin(lines: seq<string>)
    requires forall k :: 0 <= k < |lines| ==> NoBreaks(lines[k])
    ensures SplitLines(Join(lines)) == lines
  {
    if lines != [] {
      var l, tail := lines[0], lines[1..];
      JoinCons(l, tail);
      assert [l] + tail == lines;
      NewlineSplit(l, Join(tail));
      SplitJoin(tail);
    }
  }

  /** Join puts the first line, then "\n", then the join of the rest. */
  lemma {:induction false} JoinCons(head: string, tail: seq<string>)
    ensures Join([head] + tail) == head + "\n" + Join(tail)
  {
    assert ([head] + tail)[1..] == tail;
  }

  /** A line without boundaries, ended by "\n", is split off the front of the text. */
  lemma {:induction false} NewlineSplit(l: string, rest: string)
    requires NoBreaks(l)
    ensures SplitLines(l + "\n" + rest) == [l] + SplitLines(rest)
  {
    var s := l + "\n" + rest;
    var i := |l|;
    assert s[i] == '\n';
    forall k | 0 <= k < i
      ensures !IsLineBreak(s[k])
    {
      assert s[k] == l[k];
    }
    FirstBreakAt(s, i);
    SplitAtNewline(s, i);
    assert s[..i] == l;
    assert s[i + 1..] == rest;
  }

  /** A line ended by "\n" alone is split off the front of the text. */
  lemma {:induction false} SplitAtNewline(s: string, i: nat)
    requires i < |s| && i == FirstBreak(s) && s[i] == '\n'
    ensures SplitLines(s) == [s[..i]] + SplitLines(s[i + 1..])
  {
    assert BreakWidth(s, i) == 1;
  }

  /** The text uses "\n" as its only line boundary. */
  predicate OnlyNewlines(s: string) {
    forall k :: 0 <= k < |s| && IsLineBreak(s[k]) ==> s[k] == '\n'
  }

  /** In text that uses only "\n" and ends with it, the first boundary is a "\n" before the end. */
  lemma {:induction false} FirstNewline(s: string)
    requires OnlyNewlines(s) && s != [] && s[|s| - 1] == '\n'
    ensures FirstBreak(s) < |s| && s[FirstBreak(s)] == '\n'
    ensures OnlyNewlines(s[FirstBreak(s) + 1..])
    ensures var rest := s[FirstBreak(s) + 1..]; rest == [] || rest[|rest| - 1] == '\n'
  {
    FirstBreakFirst(s);
    var i := FirstBreak(s);
    assert IsLineBreak(s[|s| - 1]);
    var rest := s[i + 1..];
    forall k | 0 <= k < |rest| && IsLineBreak(rest[k])
      ensures rest[k] == '\n'
    {
      assert rest[k] == s[i + 1 + k];
    }
    if rest != [] {
      assert rest[|rest| - 1] == s[|s| - 1];
    }
  }

  /** Joining undoes splitting, for text that ends each line with "\n" and uses no other boundary. */
  lemma {:induction false} JoinSplit(s: string)
    requires OnlyNewlines(s)
    requires s == [] || s[|s| - 1] == '\n'
    ensures Join(SplitLines(s)) == s
    decreases |s|
  {
    if s != [] {
      var i := FirstBreak(s);
      FirstNewline(s);
      var head, rest := s[..i], s[i + 1..];
      JoinSplit(rest);
      SplitAtNewline(s, i);
      JoinCons(head, SplitLines(rest));
      CutAtNewline(s, i);
    }
  }

  /** Text is its part before a "\n", the "\n", and its part after. */
  lemma {:induction false} CutAtNewline(s: string, i: nat)
    requires i < |s| && s[i] == '\n'
    ensures s == s[..i] + "\n" + s[i + 1..]
  {
  }
}
