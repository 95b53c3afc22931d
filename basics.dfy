/** Small wrapper types shared by every module of the model. */
module Basics {

  /** A value that may be absent: a missing dictionary key, `None`, `null` or `undefined`. */
  datatype Option<+T> = None | Some(value: T) {

    /** The wrapped value, or `default` when absent. */
    function GetOr(default: T): T {
      match this
      case Some(v) => v
      case None => default
    }
  }

  /** The smaller of two integers. */
  function Min(a: int, b: int): int {
    if a <= b then a else b
  }

  /** Python's `min` / JavaScript's `Math.min` on two numbers. */
  function MinReal(a: real, b: real): real {
    if b < a then b else a
  }

  /** Python's `max` / JavaScript's `Math.max` on two numbers. */
  function MaxReal(a: real, b: real): real {
    if b > a then b else a
  }

  function Abs(x: real): real {
    if x < 0.0 then -x else x
  }

  /** `a` keeps some of the elements of `b`, in their order. */
  predicate Subsequence<T(==)>(a: seq<T>, b: seq<T>) {
    a == [] || (b != [] && ((a[0] == b[0] && Subsequence(a[1..], b[1..])) || Subsequence(a, b[1..])))
  }

  lemma {:induction false} SubsequenceOfSelf<T>(a: seq<T>)
    ensures Subsequence(a, a)
  {
    if a != [] { SubsequenceOfSelf(a[1..]); }
  }

  /**
   * One step of a filter, counted: keeping or dropping the head of `xs` in
   * front of a filtered tail gives each kept value its count in `xs`, and
   * each dropped value none.
   */
  lemma FilterConsCount<T>(xs: seq<T>, keep: T -> bool, rest: seq<T>)
    requires xs != []
    requires forall x :: multiset(rest)[x] == if keep(x) then multiset(xs[1..])[x] else 0
    ensures forall x :: multiset(if keep(xs[0]) then [xs[0]] + rest else rest)[x] == if keep(x) then multiset(xs)[x] else 0
  {
    assert xs == [xs[0]] + xs[1..];
  }

  /** The position of the first occurrence of `x` in `xs`. */
  function FirstIndex<T(==)>(xs: seq<T>, x: T): (k: nat)
    requires x in xs
    ensures k < |xs| && xs[k] == x
    ensures forall j :: 0 <= j < k ==> xs[j] != x
  {
    if xs[0] == x then 0
    else
      assert x in xs[1..] by { var j :| 0 <= j < |xs| && xs[j] == x; assert xs[1..][j - 1] == x; }
      FirstIndex(xs[1..], x) + 1
  }

  /** No element occurs twice. */
  predicate Distinct<T(==)>(s: seq<T>) {
    forall i, j :: 0 <= i < j < |s| ==> s[i] != s[j]
  }
}
