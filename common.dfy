/** Small generic helpers shared by the storefront modules: an optional
    value, order-preserving filtering, counting and the `reduce`-style
    sums the components compute over their lists. */
module Common {

  datatype Option<+T> = None | Some(value: T) {
    /** The contained value, or `default` when there is none. */
    function GetOr(default: T): T {
      match this
      case Some(v) => v
      case None => default
    }
  }

  /** `Math.min` on integers. */
  function Min(a: int, b: int): (m: int)
    ensures m <= a && m <= b && (m == a || m == b)
  {
    if a <= b then a else b
  }

  /** `a` can be obtained from `b` by deleting elements, keeping the order. */
  ghost predicate IsSubsequence<T>(a: seq<T>, b: seq<T>)
    decreases |b|
  {
    if a == [] then true
    else if b == [] then false
    else (a[0] == b[0] && IsSubsequence(a[1..], b[1..])) || IsSubsequence(a, b[1..])
  }

  lemma {:induction false} SubsequenceReflexive<T>(a: seq<T>)
    ensures IsSubsequence(a, a)
  {
    if a != [] {
      SubsequenceReflexive(a[1..]);
    }
  }

  lemma {:induction false} SubsequenceLength<T>(a: seq<T>, b: seq<T>)
    requires IsSubsequence(a, b)
    ensures |a| <= |b|
    decreases |b|
  {
    if a != [] {
      if a[0] == b[0] && IsSubsequence(a[1..], b[1..]) {
        SubsequenceLength(a[1..], b[1..]);
      } else {
        SubsequenceLength(a, b[1..]);
      }
    }
  }

  /** The elements of `s` kept by `keep`, in their original order
      (JavaScript's `Array.prototype.filter`). */
  function Filter<T>(keep: T -> bool, s: seq<T>): (r: seq<T>)
    ensures |r| <= |s|
    ensures forall i :: 0 <= i < |r| ==> r[i] in s && keep(r[i])
    ensures forall i :: 0 <= i < |s| && keep(s[i]) ==> s[i] in r
    ensures IsSubsequence(r, s)
  {
    if s == [] then []
    else if keep(s[0]) then [s[0]] + Filter(keep, s[1..])
    else Filter(keep, s[1..])
  }

  /** Number of elements of `s` satisfying `p`. */
  function Count<T>(p: T -> bool, s: seq<T>): (n: nat)
    ensures n <= |s|
  {
    if s == [] then 0
    else (if p(s[0]) then 1 else 0) + Count(p, s[1..])
  }

  lemma {:induction false} FilterLengthIsCount<T>(p: T -> bool, s: seq<T>)
    ensures |Filter(p, s)| == Count(p, s)
  {
    if s != [] {
      FilterLengthIsCount(p, s[1..]);
    }
  }

  lemma {:induction false} FilterAll<T>(p: T -> bool, s: seq<T>)
    requires forall i :: 0 <= i < |s| ==> p(s[i])
    ensures Filter(p, s) == s
  {
    if s != [] {
      FilterAll(p, s[1..]);
    }
  }

  /** The sum of `g` over `s`, defined from the right. */
  function SumOf<T>(g: T -> int, s: seq<T>): int
  {
    if s == [] then 0 else g(s[0]) + SumOf(g, s[1..])
  }

  /** JavaScript's `s.reduce((sum, x) => sum + g(x), acc)`: a left fold. */
  function FoldSum<T>(g: T -> int, acc: int, s: seq<T>): int
    decreases |s|
  {
    if s == [] then acc else FoldSum(g, acc + g(s[0]), s[1..])
  }

  /** The left fold used by the components equals the sum plus the seed. */
  lemma {:induction false} FoldSumIsSum<T>(g: T -> int, acc: int, s: seq<T>)
    ensures FoldSum(g, acc, s) == acc + SumOf(g, s)
    decreases |s|
  {
    if s != [] {
      FoldSumIsSum(g, acc + g(s[0]), s[1..]);
    }
  }

  lemma {:induction false} SumOfAppend<T>(g: T -> int, a: seq<T>, b: seq<T>)
    ensures SumOf(g, a + b) == SumOf(g, a) + SumOf(g, b)
  {
    if a == [] {
      assert a + b == b;
    } else {
      assert (a + b)[1..] == a[1..] + b;
      SumOfAppend(g, a[1..], b);
    }
  }

  lemma {:induction false} SumOfNonNegative<T>(g: T -> int, s: seq<T>)
    requires forall i :: 0 <= i < |s| ==> g(s[i]) >= 0
    ensures SumOf(g, s) >= 0
  {
    if s != [] {
      SumOfNonNegative(g, s[1..]);
    }
  }

  /** Every element contributing at least one makes the sum at least the length. */
  lemma {:induction false} SumOfAtLeastLength<T>(g: T -> int, s: seq<T>)
    requires forall i :: 0 <= i < |s| ==> g(s[i]) >= 1
    ensures SumOf(g, s) >= |s|
  {
    if s != [] {
      SumOfAtLeastLength(g, s[1..]);
    }
  }
}
