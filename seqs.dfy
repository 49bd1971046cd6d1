/** Order-preserving selection from a sequence. */
module Seqs {
  import opened Wrappers

  /** `xs` is obtained from `ys` by deleting some elements and keeping the order of the rest. */
  ghost predicate IsSubsequence<T>(xs: seq<T>, ys: seq<T>)
    decreases |ys|
  {
    if xs == [] then true
    else if ys == [] then false
    else if xs[|xs| - 1] == ys[|ys| - 1] then IsSubsequence(xs[..|xs| - 1], ys[..|ys| - 1])
    else IsSubsequence(xs, ys[..|ys| - 1])
  }

  /** The elements of `ys` that satisfy `p`, in their order. */
  function Filter<T>(p: T -> bool, ys: seq<T>): (xs: seq<T>)
    ensures |xs| <= |ys|
    ensures forall x :: x in xs ==> x in ys && p(x)
    ensures forall y :: y in ys && p(y) ==> y in xs
    decreases |ys|
  {
    if ys == [] then []
    else
      var init := Filter(p, ys[..|ys| - 1]);
      assert forall y :: y in ys ==> y in ys[..|ys| - 1] || y == ys[|ys| - 1];
      if p(ys[|ys| - 1]) then init + [ys[|ys| - 1]] else init
  }

  /** Filtering one more element. */
  lemma FilterAppend<T>(p: T -> bool, ys: seq<T>, y: T)
    ensures Filter(p, ys + [y]) == if p(y) then Filter(p, ys) + [y] else Filter(p, ys)
  {
    assert (ys + [y])[..|ys|] == ys;
  }

  lemma {:induction false} FilterIsSubsequence<T>(p: T -> bool, ys: seq<T>)
    ensures IsSubsequence(Filter(p, ys), ys)
    decreases |ys|
  {
    if ys != [] {
      var init := ys[..|ys| - 1];
      FilterIsSubsequence(p, init);
      if p(ys[|ys| - 1]) {
        var xs := Filter(p, ys);
        assert xs[..|xs| - 1] == Filter(p, init);
      } else {
        assert ys == init + [ys[|ys| - 1]];
        SubsequenceExtend(Filter(p, init), init, ys[|ys| - 1]);
      }
    }
  }

  /** A subsequence of `ys` stays one when `ys` grows by an element at the end. */
  lemma {:induction false} SubsequenceExtend<T>(xs: seq<T>, ys: seq<T>, y: T)
    requires IsSubsequence(xs, ys)
    ensures IsSubsequence(xs, ys + [y])
    decreases |ys|, 1
  {
    var zs := ys + [y];
    assert zs[..|zs| - 1] == ys;
    if xs != [] && xs[|xs| - 1] == y {
      SubsequenceDropLast(xs, ys);
    }
  }

  /** Dropping the last element of a subsequence keeps it a subsequence. */
  lemma {:induction false} SubsequenceDropLast<T>(xs: seq<T>, ys: seq<T>)
    requires xs != [] && IsSubsequence(xs, ys)
    ensures IsSubsequence(xs[..|xs| - 1], ys)
    decreases |ys|, 0
  {
    var xi, yi := xs[..|xs| - 1], ys[..|ys| - 1];
    assert ys == yi + [ys[|ys| - 1]];
    if xs[|xs| - 1] != ys[|ys| - 1] {
      SubsequenceDropLast(xs, yi);
    }
    SubsequenceExtend(xi, yi, ys[|ys| - 1]);
  }

  /** The values of the first `n` results, or the first failure among them: the
      outcome of a loop that stops at the first exception. */
  function AllOk<T, E>(rs: seq<Result<T, E>>, n: nat): Result<seq<T>, E>
    requires n <= |rs|
  {
    if n == 0 then Ok([])
    else
      match AllOk(rs, n - 1)
      case Err(e) => Err(e)
      case Ok(vs) =>
        match rs[n - 1]
        case Err(e) => Err(e)
        case Ok(v) => Ok(vs + [v])
  }

  /** The loop fails exactly when some result failed, and then with the first failure. */
  lemma {:induction false} AllOkFailure<T, E>(rs: seq<Result<T, E>>, n: nat)
    requires n <= |rs|
    ensures AllOk(rs, n).Err? <==> exists i :: 0 <= i < n && rs[i].Err?
    ensures AllOk(rs, n).Err? ==>
      exists i :: 0 <= i < n && rs[i] == Err(AllOk(rs, n).error) && forall j :: 0 <= j < i ==> rs[j].Ok?
  {
    if n > 0 {
      AllOkFailure(rs, n - 1);
    }
  }

  /** Without a failure, the loop yields every value, in order. */
  lemma {:induction false} AllOkValues<T, E>(rs: seq<Result<T, E>>, n: nat)
    requires n <= |rs| && AllOk(rs, n).Ok?
    ensures |AllOk(rs, n).value| == n
    ensures forall i :: 0 <= i < n ==> rs[i].Ok? && AllOk(rs, n).value[i] == rs[i].value
  {
    if n > 0 {
      AllOkValues(rs, n - 1);
    }
  }

  /** Once the loop has failed, its outcome does not change. */
  lemma {:induction false} AllOkStops<T, E>(rs: seq<Result<T, E>>, i: nat, n: nat)
    requires i <= n <= |rs| && AllOk(rs, i).Err?
    ensures AllOk(rs, n) == AllOk(rs, i)
    decreases n - i
  {
    if i < n {
      AllOkStops(rs, i, n - 1);
    }
  }
}
