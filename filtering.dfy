/**
 * The sidebar filters: a transaction is shown when its date lies between
 * the start and end dates, both included, and its description, lowered,
 * contains the lowered search text.
 */
module Filtering {
  import opened Wrappers
  import opened Strings
  import opened Dates
  import opened Parser

  predicate InRange(r: Record, start: Date, end: Date) {
    OnOrBefore(start, r.date) && OnOrBefore(r.date, end)
  }

  /** The description mentions the search text, ignoring the case of ASCII letters. */
  predicate Mentions(r: Record, query: string) {
    Contains(Lower(r.description), Lower(query))
  }

  /** The three conditions of the row mask, joined by `&`. */
  predicate Keep(r: Record, start: Date, end: Date, query: string) {
    InRange(r, start, end) && Mentions(r, query)
  }

  /** The row mask: each record, if it is kept. */
  function Marks(rs: seq<Record>, start: Date, end: Date, query: string): (xs: seq<Option<Record>>)
    ensures |xs| == |rs|
  {
    seq(|rs|, k requires 0 <= k < |rs| => if Keep(rs[k], start, end, query) then Some(rs[k]) else None)
  }

  /** `df[mask]`: the records that pass the filters, in the order of the table. */
  function Filter(rs: seq<Record>, start: Date, end: Date, query: string): (shown: seq<Record>)
    ensures |shown| <= |rs|
  {
    Somes(Marks(rs, start, end, query))
  }

  /**
   * The filtered table is a subsequence of the table made of exactly the
   * kept records: shown record i is record idx[i], the indices increase,
   * each of them is kept, and every kept record is among them.
   */
  lemma {:induction false} FilterOrigins(rs: seq<Record>, start: Date, end: Date, query: string) returns (idx: seq<nat>)
    ensures |idx| == |Filter(rs, start, end, query)|
    ensures forall i :: 0 <= i < |idx| ==>
              idx[i] < |rs| && rs[idx[i]] == Filter(rs, start, end, query)[i] && Keep(rs[idx[i]], start, end, query)
    ensures forall i, j :: 0 <= i < j < |idx| ==> idx[i] < idx[j]
    ensures forall k :: 0 <= k < |rs| && Keep(rs[k], start, end, query) ==> exists i :: 0 <= i < |idx| && idx[i] == k
  {
    var xs := Marks(rs, start, end, query);
    idx := SomesOrigins(xs);
    forall i | 0 <= i < |idx|
      ensures idx[i] < |rs| && rs[idx[i]] == Filter(rs, start, end, query)[i] && Keep(rs[idx[i]], start, end, query)
    {
      assert xs[idx[i]].Some?;
    }
    forall k | 0 <= k < |rs| && Keep(rs[k], start, end, query)
      ensures exists i :: 0 <= i < |idx| && idx[i] == k
    {
      assert xs[k].Some?;
    }
  }

  /** A record is shown exactly when it is in the table and passes the filters. */
  lemma {:induction false} FilterMembership(rs: seq<Record>, start: Date, end: Date, query: string, r: Record)
    ensures r in Filter(rs, start, end, query) <==> r in rs && Keep(r, start, end, query)
  {
    var shown := Filter(rs, start, end, query);
    var idx := FilterOrigins(rs, start, end, query);
    if r in shown {
      var i :| 0 <= i < |shown| && shown[i] == r;
      assert rs[idx[i]] == r;
    }
    if r in rs && Keep(r, start, end, query) {
      var k :| 0 <= k < |rs| && rs[k] == r;
      var i :| 0 <= i < |idx| && idx[i] == k;
      assert shown[i] == r;
    }
  }

  /** When every record passes the filters, the whole table is shown. */
  lemma {:induction false} FilterAll(rs: seq<Record>, start: Date, end: Date, query: string)
    requires forall k :: 0 <= k < |rs| ==> Keep(rs[k], start, end, query)
    ensures Filter(rs, start, end, query) == rs
  {
    var xs := Marks(rs, start, end, query);
    SomesPresent(xs);
    assert forall k :: 0 <= k < |rs| ==> xs[k].value == rs[k];
  }

  /** Filtering twice with the same settings shows what filtering once does. */
  lemma {:induction false} FilterIdempotent(rs: seq<Record>, start: Date, end: Date, query: string)
    ensures Filter(Filter(rs, start, end, query), start, end, query) == Filter(rs, start, end, query)
  {
    var shown := Filter(rs, start, end, query);
    var idx := FilterOrigins(rs, start, end, query);
    FilterAll(shown, start, end, query);
  }

  /** Filtering a table cut in two is filtering each part. */
  lemma {:induction false} FilterAppend(a: seq<Record>, b: seq<Record>, start: Date, end: Date, query: string)
    ensures Filter(a + b, start, end, query) == Filter(a, start, end, query) + Filter(b, start, end, query)
  {
    assert Marks(a + b, start, end, query) == Marks(a, start, end, query) + Marks(b, start, end, query);
    SomesAppend(Marks(a, start, end, query), Marks(b, start, end, query));
  }

  /** The search text is lowered before it is used, so its case never matters. */
  lemma {:induction false} SearchIgnoresCase(rs: seq<Record>, start: Date, end: Date, query: string)
    ensures Filter(rs, start, end, Lower(query)) == Filter(rs, start, end, query)
  {
    LowerIdempotent(query);
    assert Marks(rs, start, end, Lower(query)) == Marks(rs, start, end, query);
  }

  /** An empty search text filters on the dates alone. */
  lemma {:induction false} EmptySearchKeepsRange(rs: seq<Record>, start: Date, end: Date, r: Record)
    ensures r in Filter(rs, start, end, "") <==> r in rs && InRange(r, start, end)
  {
    FilterMembership(rs, start, end, "", r);
    assert StartsWith(Lower(r.description), Lower(""));
  }

  /** `df["Date"].min()`: the earliest date of a non-empty table. */
  function Earliest(rs: seq<Record>): (d: Date)
    requires rs != []
    ensures forall k :: 0 <= k < |rs| ==> OnOrBefore(d, rs[k].date)
    ensures exists k :: 0 <= k < |rs| && rs[k].date == d
  {
    if |rs| == 1 then rs[0].date
    else
      var rest := Earliest(rs[1..]);
      if OnOrBefore(rs[0].date, rest) then rs[0].date else rest
  }

  /** `df["Date"].max()`: the latest date of a non-empty table. */
  function Latest(rs: seq<Record>): (d: Date)
    requires rs != []
    ensures forall k :: 0 <= k < |rs| ==> OnOrBefore(rs[k].date, d)
    ensures exists k :: 0 <= k < |rs| && rs[k].date == d
  {
    if |rs| == 1 then rs[0].date
    else
      var rest := Latest(rs[1..]);
      if OnOrBefore(rest, rs[0].date) then rs[0].date else rest
  }

  /**
   * With the sidebar left at its defaults (the earliest date, the latest
   * date and no search text), every record is shown.
   */
  lemma {:induction false} DefaultFiltersShowAll(rs: seq<Record>)
    requires rs != []
    ensures Filter(rs, Earliest(rs), Latest(rs), "") == rs
  {
    var start, end := Earliest(rs), Latest(rs);
    forall k | 0 <= k < |rs|
      ensures Keep(rs[k], start, end, "")
    {
      assert StartsWith(Lower(rs[k].description), Lower(""));
    }
    FilterAll(rs, start, end, "");
  }
}
