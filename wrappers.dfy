/** Optional values, and the values a sequence of them holds. */
module Wrappers {

  datatype Option<+T> = None | Some(value: T)

  /** The values of the entries that are present, in order. */
  function Somes<T>(xs: seq<Option<T>>): (vs: seq<T>)
    ensures |vs| <= |xs|
  {
    if xs == [] then []
    else
      var init := Somes(xs[..|xs| - 1]);
      match xs[|xs| - 1]
      case None => init
      case Some(v) => init + [v]
  }

  /** The values of two sequences put together are those of each, put together. */
  lemma {:induction false} SomesAppend<T>(xs: seq<Option<T>>, ys: seq<Option<T>>)
    ensures Somes(xs + ys) == Somes(xs) + Somes(ys)
    decreases |ys|
  {
    if ys == [] {
      assert xs + ys == xs;
    } else {
      var ys' := ys[..|ys| - 1];
      assert (xs + ys)[..|xs + ys| - 1] == xs + ys';
      assert (xs + ys)[|xs + ys| - 1] == ys[|ys| - 1];
      SomesAppend(xs, ys');
    }
  }

  /**
   * vs are the values of xs one for one and in order: value i is the one at
   * idx[i], the indices increase, and every present entry is one of them.
   */
  ghost predicate Origins<T>(xs: seq<Option<T>>, vs: seq<T>, idx: seq<nat>) {
    && |idx| == |vs|
    && (forall i :: 0 <= i < |idx| ==> idx[i] < |xs| && xs[idx[i]] == Some(vs[i]))
    && (forall i, j :: 0 <= i < j < |idx| ==> idx[i] < idx[j])
    && (forall k :: 0 <= k < |xs| && xs[k].Some? ==> exists i :: 0 <= i < |idx| && idx[i] == k)
  }

  /** Each value comes from its own present entry, in the order of the entries. */
  lemma {:induction false} SomesOrigins<T>(xs: seq<Option<T>>) returns (idx: seq<nat>)
    ensures Origins(xs, Somes(xs), idx)
  {
    if xs == [] {
      idx := [];
    } else {
      var n := |xs| - 1;
      var init, x := xs[..n], xs[n];
      var prev := SomesOrigins(init);
      assert xs == init + [x];
      if x.Some? {
        assert Somes(xs) == Somes(init) + [x.value];
        OriginsPresent(init, Somes(init), prev, x.value);
        idx := prev + [n];
      } else {
        OriginsAbsent(init, Somes(init), prev);
        idx := prev;
      }
    }
  }

  /** An absent entry at the end adds no value and no index. */
  lemma {:induction false} OriginsAbsent<T>(xs: seq<Option<T>>, vs: seq<T>, idx: seq<nat>)
    requires Origins(xs, vs, idx)
    ensures Origins(xs + [None], vs, idx)
  {
    var ys := xs + [None];
    forall i | 0 <= i < |idx|
      ensures idx[i] < |ys| && ys[idx[i]] == Some(vs[i])
    {
      assert ys[idx[i]] == xs[idx[i]];
    }
    forall k | 0 <= k < |ys| && ys[k].Some?
      ensures exists i :: 0 <= i < |idx| && idx[i] == k
    {
      assert ys[k] == xs[k];
    }
  }

  /** A present entry at the end adds its value, from its own index. */
  lemma {:induction false} OriginsPresent<T>(xs: seq<Option<T>>, vs: seq<T>, idx: seq<nat>, v: T)
    requires Origins(xs, vs, idx)
    ensures Origins(xs + [Some(v)], vs + [v], idx + [|xs|])
  {
    var ys, ws, jdx := xs + [Some(v)], vs + [v], idx + [|xs|];
    forall i | 0 <= i < |jdx|
      ensures jdx[i] < |ys| && ys[jdx[i]] == Some(ws[i])
    {
      if i < |idx| {
        assert jdx[i] == idx[i] && ws[i] == vs[i] && ys[idx[i]] == xs[idx[i]];
      }
    }
    forall k | 0 <= k < |ys| && ys[k].Some?
      ensures exists i :: 0 <= i < |jdx| && jdx[i] == k
    {
      if k == |xs| {
        assert jdx[|idx|] == k;
      } else {
        assert ys[k] == xs[k];
        var i :| 0 <= i < |idx| && idx[i] == k;
        assert jdx[i] == k;
      }
    }
  }

  /** When every entry is present, the values are all of them, in place. */
  lemma {:induction false} SomesPresent<T>(xs: seq<Option<T>>)
    requires forall k :: 0 <= k < |xs| ==> xs[k].Some?
    ensures |Somes(xs)| == |xs|
    ensures forall k :: 0 <= k < |xs| ==> Somes(xs)[k] == xs[k].value
  {
    if xs != [] {
      var n := |xs| - 1;
      var init := xs[..n];
      SomesPresent(init);
      assert Somes(xs) == Somes(init) + [xs[n].value];
    }
  }
}
