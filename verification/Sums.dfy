/** Options and integer sums shared by the models. */
module Options {
  datatype Option<+T> = None | Some(value: T) {
    function GetOr(default: T): T {
      if Some? then value else default
    }
  }
}

/** Sums over sequences, added up from the left as the source's `reduce` calls do. */
module Sums {

  function Sum(s: seq<int>): int {
    if s == [] then 0 else Sum(s[..|s| - 1]) + s[|s| - 1]
  }

  lemma {:induction false} SumConcat(s: seq<int>, t: seq<int>)
    ensures Sum(s + t) == Sum(s) + Sum(t)
    decreases |t|
  {
    if t == [] {
      assert s + t == s;
    } else {
      var u := t[..|t| - 1];
      assert (s + t)[..|s + t| - 1] == s + u;
      SumConcat(s, u);
    }
  }

  lemma {:induction false} SumUpdate(s: seq<int>, i: nat, v: int)
    requires i < |s|
    ensures Sum(s[i := v]) == Sum(s) - s[i] + v
    decreases |s|
  {
    var n := |s| - 1;
    if i == n {
      assert s[i := v][..n] == s[..n];
    } else {
      assert s[i := v][..n] == s[..n][i := v];
      SumUpdate(s[..n], i, v);
    }
  }

  lemma {:induction false} SumZeros(s: seq<int>)
    requires forall i :: 0 <= i < |s| ==> s[i] == 0
    ensures Sum(s) == 0
  {
    if s != [] {
      SumZeros(s[..|s| - 1]);
    }
  }

  ghost predicate Distinct<T>(s: seq<T>) {
    forall i, j :: 0 <= i < j < |s| ==> s[i] != s[j]
  }

  lemma {:induction false} DistinctSnoc<T>(s: seq<T>, x: T)
    requires Distinct(s) && x !in s
    ensures Distinct(s + [x])
  {
  }

  /** The weights found at the given positions. */
  function Pick(w: seq<int>, at: seq<nat>): (r: seq<int>)
    requires forall i :: 0 <= i < |at| ==> at[i] < |w|
    ensures |r| == |at|
  {
    seq(|at|, i requires 0 <= i < |at| => w[at[i]])
  }

  /** Visiting every non-zero weight exactly once, in any order, gives the whole sum. */
  lemma {:induction false} SumOfPicked(w: seq<int>, at: seq<nat>)
    requires forall i :: 0 <= i < |at| ==> at[i] < |w|
    requires Distinct(at)
    requires forall j: nat :: j < |w| && j !in at ==> w[j] == 0
    ensures Sum(Pick(w, at)) == Sum(w)
    decreases |at|
  {
    if at == [] {
      SumZeros(w);
    } else {
      var n := |at| - 1;
      var rest, last := at[..n], at[n];
      var w' := w[last := 0];
      assert last !in rest;
      forall j: nat | j < |w'| && j !in rest ensures w'[j] == 0 {
        assert j != last ==> j !in at;
      }
      SumOfPicked(w', rest);
      SumUpdate(w, last, 0);
      assert Pick(w', rest) == Pick(w, rest);
      assert Pick(w, at)[..n] == Pick(w, rest);
    }
  }
}
