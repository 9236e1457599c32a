/** Optional values, results, and the map-with-throw that JavaScript's
    `Array.prototype.map` becomes when its callback may throw. */
module Wrappers {

  datatype Option<+T> = None | Some(value: T) {
    function GetOr(default: T): T {
      match this
      case Some(v) => v
      case None => default
    }
  }

  datatype Result<+T, +E> = Success(value: T) | Failure(error: E) {
    predicate IsFailure() {
      Failure?
    }

    function PropagateFailure<U>(): Result<U, E>
      requires Failure?
    {
      Failure(error)
    }

    function Extract(): T
      requires Success?
    {
      value
    }
  }

  /** Applies `f` to every element in order and stops at the first failure,
      as a `map` whose callback throws does. */
  function MapAll<A, B, E>(xs: seq<A>, f: A -> Result<B, E>): (r: Result<seq<B>, E>)
    ensures r.Success? <==> forall i :: 0 <= i < |xs| ==> f(xs[i]).Success?
    ensures r.Success? ==> |r.value| == |xs|
    ensures r.Success? ==> forall i :: 0 <= i < |xs| ==> f(xs[i]) == Success(r.value[i])
    ensures r.Failure? ==>
      exists i :: 0 <= i < |xs| && f(xs[i]) == Failure(r.error) &&
        forall j :: 0 <= j < i ==> f(xs[j]).Success?
    decreases |xs|
  {
    if |xs| == 0 then Success([])
    else
      match f(xs[0])
      case Failure(e) => Failure(e)
      case Success(y) =>
        match MapAll(xs[1..], f)
        case Failure(e) =>
          FailureShifts(xs, f, e);
          Failure(e)
        case Success(ys) =>
          SuccessShifts(xs, f, y, ys);
          Success([y] + ys)
  }

  /** A failure in the tail is a failure in `xs`, one place further on. */
  lemma {:induction false} FailureShifts<A, B, E>(xs: seq<A>, f: A -> Result<B, E>, e: E)
    requires |xs| > 0 && f(xs[0]).Success?
    requires exists i :: 0 <= i < |xs| - 1 && f(xs[1..][i]) == Failure(e) &&
               forall j :: 0 <= j < i ==> f(xs[1..][j]).Success?
    ensures exists i :: 0 <= i < |xs| && f(xs[i]) == Failure(e) &&
              forall j :: 0 <= j < i ==> f(xs[j]).Success?
  {
    var i :| 0 <= i < |xs| - 1 && f(xs[1..][i]) == Failure(e) &&
             forall j :: 0 <= j < i ==> f(xs[1..][j]).Success?;
    assert f(xs[i + 1]) == Failure(e);
    forall j | 0 <= j < i + 1 ensures f(xs[j]).Success? {
      if j > 0 {
        assert xs[j] == xs[1..][j - 1];
      }
    }
  }

  /** The results of the head and of the tail are the results of `xs`. */
  lemma {:induction false} SuccessShifts<A, B, E>(xs: seq<A>, f: A -> Result<B, E>, y: B, ys: seq<B>)
    requires |xs| > 0 && f(xs[0]) == Success(y) && |ys| == |xs| - 1
    requires forall i :: 0 <= i < |xs| - 1 ==> f(xs[1..][i]) == Success(ys[i])
    ensures forall i :: 0 <= i < |xs| ==> f(xs[i]) == Success(([y] + ys)[i])
  {
    forall i | 0 <= i < |xs| ensures f(xs[i]) == Success(([y] + ys)[i]) {
      if i > 0 {
        assert xs[i] == xs[1..][i - 1];
      }
    }
  }

  /** A prefix one element longer is the prefix and that element. */
  lemma {:induction false} TakeOneMore<A>(xs: seq<A>, i: nat)
    requires i < |xs|
    ensures xs[..i + 1] == xs[..i] + [xs[i]]
  {
  }

  /** The position of the first occurrence of `x` in `xs`. */
  function FirstPos<A(==)>(xs: seq<A>, x: A): (i: nat)
    requires x in xs
    ensures i < |xs| && xs[i] == x
    ensures forall j :: 0 <= j < i ==> xs[j] != x
    decreases |xs|
  {
    if xs[0] == x then 0
    else
      assert x in xs[1..] by {
        var k :| 0 <= k < |xs| && xs[k] == x;
        assert xs[1..][k - 1] == x;
      }
      var t := FirstPos(xs[1..], x);
      assert forall j :: 1 <= j < t + 1 ==> xs[j] == xs[1..][j - 1];
      t + 1
  }

  /** Appending elements does not move a first occurrence. */
  lemma {:induction false} FirstPosAppend<A>(xs: seq<A>, ys: seq<A>, x: A)
    requires x in xs
    ensures x in xs + ys && FirstPos(xs + ys, x) == FirstPos(xs, x)
  {
    var q := FirstPos(xs, x);
    assert (xs + ys)[q] == x;
    var p := FirstPos(xs + ys, x);
    assert p <= q;
    assert xs[p] == (xs + ys)[p];
  }

  /** The elements of `xs` that satisfy `p`, in their original order. */
  function Filter<A>(xs: seq<A>, p: A -> bool): (r: seq<A>)
    ensures |r| <= |xs|
    ensures forall i :: 0 <= i < |r| ==> r[i] in xs && p(r[i])
    ensures forall i :: 0 <= i < |xs| && p(xs[i]) ==> xs[i] in r
    decreases |xs|
  {
    if |xs| == 0 then []
    else if p(xs[0]) then [xs[0]] + Filter(xs[1..], p)
    else Filter(xs[1..], p)
  }

  /** `filter` keeps every occurrence of a value that passes and none of
      one that fails. */
  lemma {:induction false} FilterCounts<A(!new)>(xs: seq<A>, p: A -> bool)
    ensures forall x :: multiset(Filter(xs, p))[x] == if p(x) then multiset(xs)[x] else 0
    decreases |xs|
  {
    if |xs| > 0 {
      FilterCounts(xs[1..], p);
      assert xs == [xs[0]] + xs[1..];
    }
  }

  /** `sub` is obtained from `xs` by deleting elements. */
  ghost predicate IsSubsequence<A>(sub: seq<A>, xs: seq<A>)
    decreases |xs|
  {
    if |sub| == 0 then true
    else if |xs| == 0 then false
    else if sub[0] == xs[0] then IsSubsequence(sub[1..], xs[1..])
    else IsSubsequence(sub, xs[1..])
  }

  lemma {:induction false} FilterIsSubsequence<A>(xs: seq<A>, p: A -> bool)
    ensures IsSubsequence(Filter(xs, p), xs)
    decreases |xs|
  {
    if |xs| > 0 {
      FilterIsSubsequence(xs[1..], p);
      if !p(xs[0]) {
        SubsequenceOfTail(Filter(xs[1..], p), xs);
      }
    }
  }

  lemma {:induction false} SubsequenceOfTail<A>(sub: seq<A>, xs: seq<A>)
    requires |xs| > 0 && IsSubsequence(sub, xs[1..])
    ensures IsSubsequence(sub, xs)
    decreases |xs|, 1
  {
    if |sub| > 0 && sub[0] == xs[0] {
      SubsequenceDropHead(sub, xs[1..]);
      assert xs[1..][1..] == xs[2..];
      SubsequenceOfTail(sub[1..], xs[1..]);
    }
  }

  lemma {:induction false} SubsequenceDropHead<A>(sub: seq<A>, xs: seq<A>)
    requires |sub| > 0 && IsSubsequence(sub, xs)
    ensures |xs| > 0 && IsSubsequence(sub[1..], xs[1..])
    decreases |xs|, 0
  {
    if sub[0] != xs[0] {
      SubsequenceDropHead(sub, xs[1..]);
      SubsequenceOfTail(sub[1..], xs[1..]);
    }
  }
}
