/** List comprehensions over an opaque element test or rendering. */
module Lists {

  /** `[x for x in xs if keep(x)]`. */
  function Filter<T>(xs: seq<T>, keep: T -> bool): (kept: seq<T>)
  {
    if |xs| == 0 then []
    else
      var n := |xs| - 1;
      Filter(xs[..n], keep) + (if keep(xs[n]) then [xs[n]] else [])
  }

  /** `[f(x) for x in xs]`. */
  function Map<T, U>(xs: seq<T>, f: T -> U): (ys: seq<U>)
  {
    if |xs| == 0 then [] else var n := |xs| - 1; Map(xs[..n], f) + [f(xs[n])]
  }

  lemma {:induction false} FilterConcat<T>(a: seq<T>, b: seq<T>, keep: T -> bool)
    ensures Filter(a + b, keep) == Filter(a, keep) + Filter(b, keep)
    decreases |b|
  {
    if |b| == 0 {
      assert a + b == a;
    } else {
      var n := |b| - 1;
      FilterConcat(a, b[..n], keep);
      assert (a + b)[..|a| + n] == a + b[..n];
    }
  }

  lemma {:induction false} FilterMembership<T>(xs: seq<T>, keep: T -> bool)
    ensures forall x :: x in Filter(xs, keep) <==> x in xs && keep(x)
  {
    if |xs| > 0 {
      var n := |xs| - 1;
      FilterMembership(xs[..n], keep);
      assert xs == xs[..n] + [xs[n]];
    }
  }

  lemma {:induction false} MapConcat<T, U>(a: seq<T>, b: seq<T>, f: T -> U)
    ensures Map(a + b, f) == Map(a, f) + Map(b, f)
    decreases |b|
  {
    if |b| == 0 {
      assert a + b == a;
    } else {
      var n := |b| - 1;
      MapConcat(a, b[..n], f);
      assert (a + b)[..|a| + n] == a + b[..n];
    }
  }

  lemma {:induction false} MapAt<T, U>(xs: seq<T>, f: T -> U)
    ensures |Map(xs, f)| == |xs|
    ensures forall i :: 0 <= i < |xs| ==> Map(xs, f)[i] == f(xs[i])
  {
    if |xs| > 0 {
      var n := |xs| - 1;
      MapAt(xs[..n], f);
      assert forall i :: 0 <= i < n ==> xs[..n][i] == xs[i];
    }
  }

  /** The positions of the elements that pass `keep`, in increasing order. */
  function Indices<T>(xs: seq<T>, keep: T -> bool): (idx: seq<nat>)
    ensures forall j :: 0 <= j < |idx| ==> idx[j] < |xs| && keep(xs[idx[j]])
    ensures forall j, k :: 0 <= j < k < |idx| ==> idx[j] < idx[k]
    ensures forall i :: 0 <= i < |xs| && keep(xs[i]) ==> i in idx
  {
    if |xs| == 0 then []
    else
      var n := |xs| - 1;
      assert forall i :: 0 <= i < n ==> xs[..n][i] == xs[i];
      Indices(xs[..n], keep) + (if keep(xs[n]) then [n] else [])
  }

  lemma FilterSnoc<T>(xs: seq<T>, x: T, keep: T -> bool)
    ensures Filter(xs + [x], keep) == Filter(xs, keep) + (if keep(x) then [x] else [])
  {
    assert (xs + [x])[..|xs|] == xs;
  }

  lemma MapSnoc<T, U>(xs: seq<T>, x: T, f: T -> U)
    ensures Map(xs + [x], f) == Map(xs, f) + [f(x)]
  {
    assert (xs + [x])[..|xs|] == xs;
  }

  /** The kept elements are exactly the elements at the kept positions. */
  lemma {:induction false} FilterAtIndices<T>(xs: seq<T>, keep: T -> bool)
    ensures |Filter(xs, keep)| == |Indices(xs, keep)|
    ensures forall j :: 0 <= j < |Filter(xs, keep)| ==> Filter(xs, keep)[j] == xs[Indices(xs, keep)[j]]
  {
    if |xs| > 0 {
      var n := |xs| - 1;
      FilterAtIndices(xs[..n], keep);
      var f, idx := Filter(xs[..n], keep), Indices(xs[..n], keep);
      forall j | 0 <= j < |f| ensures Filter(xs, keep)[j] == xs[Indices(xs, keep)[j]] {
        assert Filter(xs, keep)[j] == f[j];
        assert Indices(xs, keep)[j] == idx[j];
        assert xs[..n][idx[j]] == xs[idx[j]];
      }
    }
  }

  /** When every element passes, nothing is dropped. */
  lemma {:induction false} FilterAll<T>(xs: seq<T>, keep: T -> bool)
    requires forall i :: 0 <= i < |xs| ==> keep(xs[i])
    ensures Filter(xs, keep) == xs
  {
    if |xs| > 0 {
      var n := |xs| - 1;
      assert forall i :: 0 <= i < n ==> xs[..n][i] == xs[i];
      FilterAll(xs[..n], keep);
      assert xs[..n] + [xs[n]] == xs;
    }
  }

  /** When no element passes, nothing is kept. */
  lemma {:induction false} FilterNone<T>(xs: seq<T>, keep: T -> bool)
    requires forall i :: 0 <= i < |xs| ==> !keep(xs[i])
    ensures Filter(xs, keep) == []
  {
    if |xs| > 0 {
      var n := |xs| - 1;
      assert forall i :: 0 <= i < n ==> xs[..n][i] == xs[i];
      FilterNone(xs[..n], keep);
    }
  }
}
