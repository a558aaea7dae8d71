/** `Array.decimate(into:)` of Extension/Array+.swift: keep every `step`-th
    element, where `step` is the array's length divided by the requested
    count (Swift integer division, which truncates toward zero). */
module ArrayExtension {
  import opened ArrayAccess
  import opened IntArith

  function Abs(x: int): nat
  {
    if x < 0 then -x else x
  }

  /** Swift's `n / d` for a non-negative dividend: it truncates toward zero,
      so a negative divisor gives the negated quotient of the magnitudes. */
  function SwiftDiv(n: nat, d: int): (q: int)
    requires d != 0
    ensures Abs(q) == n / Abs(d)
    ensures d > 0 ==> q >= 0
    ensures d < 0 ==> q <= 0
  {
    if d > 0 then n / d else -(n / -d)
  }

  /** Swift's `i % d` is zero exactly when `|d|` divides `i`. */
  function SwiftRemIsZero(i: nat, d: int): bool
    requires d != 0
  {
    i % Abs(d) == 0
  }

  /** Whether `decimate(into: count)` traps: the guard lets a non-empty array
      with `count <= a.count` through, and then `a.count / count` is a division
      by zero when `count == 0`, and `index % step` is one when the step
      truncates to zero (`|count| > a.count`). */
  predicate DecimateTraps<T>(a: seq<T>, count: int)
  {
    IsNotEmpty(a) && count <= |a| && (count == 0 || |a| / Abs(count) == 0)
  }

  /** The distance between kept indices once the guard has passed. */
  function Stride(n: nat, count: int): nat
    requires count != 0
  {
    n / Abs(count)
  }

  /** `r` holds the elements of `a` at indices `0, stride, 2 * stride, ...`,
      in order, and all of them: `|r|` is the ceiling of `|a| / stride`. */
  ghost predicate IsStrideSample<T>(a: seq<T>, r: seq<T>, stride: nat)
  {
    && stride >= 1
    && |r| * stride - stride < |a| <= |r| * stride
    && forall k :: 0 <= k < |r| ==> k * stride < |a| && r[k] == a[k * stride]
  }

  /** How the loop's window `(m*s - s, m*s]` moves when the index advances by
      one: a multiple of `s` can only be `m*s`; it is appended and opens the
      next window, while any other index stays in the current one. */
  lemma WindowStep(i: nat, m: nat, s: nat)
    requires s >= 1
    requires m * s - s < i <= m * s
    ensures i % s == 0 ==> i == m * s && (m + 1) * s - s < i + 1 <= (m + 1) * s
    ensures i % s != 0 ==> m * s - s < i + 1 <= m * s
  {
    assert (m + 1) * s == m * s + s;
    if i % s == 0 {
      var q := i / s;
      DivModUnique(i, s, q, 0);
      if q < m {
        MulMonotone(q + 1, m, s);
      } else if q > m {
        MulMonotone(m + 1, q, s);
      }
    } else if i == m * s {
      DivModUnique(i, s, m, 0);
    }
  }

  /** `Array.decimate(into:)`. An empty array, or a count larger than the
      array, returns the array unchanged; otherwise the result keeps exactly
      the elements whose index is a multiple of the step. */
  method Decimate<T>(a: seq<T>, count: int) returns (r: seq<T>)
    requires !DecimateTraps(a, count)
    ensures !IsNotEmpty(a) || count > |a| ==> r == a
    ensures IsNotEmpty(a) && count <= |a| ==> count != 0 && IsStrideSample(a, r, Stride(|a|, count))
  {
    if !IsNotEmpty(a) || !(count <= |a|) {
      return a;
    }
    var step := SwiftDiv(|a|, count);
    ghost var stride := Abs(step);
    var result: seq<T> := [];
    var index := 0;
    while index < |a|
      invariant 0 <= index <= |a|
      invariant |result| * stride - stride < index <= |result| * stride
      invariant forall k :: 0 <= k < |result| ==> k * stride < index && result[k] == a[k * stride]
    {
      WindowStep(index, |result|, stride);
      if SwiftRemIsZero(index, step) {
        result := result + [a[index]];
      }
      index := index + 1;
    }
    r := result;
  }

  /** The kept elements are exactly those whose index is a multiple of the
      stride: every such index is kept, at position `index / stride`, and
      every kept element comes from such an index. */
  lemma StrideSampleIsIndexFilter<T>(a: seq<T>, r: seq<T>, stride: nat, j: nat)
    requires IsStrideSample(a, r, stride)
    requires j < |a|
    ensures j % stride == 0 ==> j / stride < |r| && r[j / stride] == a[j]
    ensures j < |r| ==> exists k :: 0 <= k < |a| && k % stride == 0 && r[j] == a[k]
  {
    if j % stride == 0 {
      var q := j / stride;
      DivModUnique(j, stride, q, 0);
      if q >= |r| {
        MulMonotone(|r|, q, stride);
      }
    }
    if j < |r| {
      DivModUnique(j * stride, stride, j, 0);
      assert j * stride < |a| && r[j] == a[j * stride];
    }
  }

  /** A non-empty array keeps its first element in front. */
  lemma StrideSampleStartsWithFirst<T>(a: seq<T>, r: seq<T>, stride: nat)
    requires IsStrideSample(a, r, stride)
    requires |a| >= 1
    ensures |r| >= 1 && r[0] == a[0]
  {
    assert 0 * stride == 0;
  }

  /** Whether `r` is a subsequence of `a`: it picks elements of `a` at
      strictly increasing indices. */
  ghost predicate IsSubsequence<T>(r: seq<T>, a: seq<T>)
  {
    exists picks: seq<nat> ::
      && |picks| == |r|
      && (forall k :: 0 <= k < |r| ==> picks[k] < |a| && r[k] == a[picks[k]])
      && (forall k, l :: 0 <= k < l < |picks| ==> picks[k] < picks[l])
  }

  /** A stride sample is a subsequence of the input. */
  lemma StrideSampleIsSubsequence<T>(a: seq<T>, r: seq<T>, stride: nat)
    requires IsStrideSample(a, r, stride)
    ensures IsSubsequence(r, a)
  {
    var picks := seq(|r|, k => k * stride);
    forall k, l | 0 <= k < l < |picks|
      ensures picks[k] < picks[l]
    {
      MulMonotone(k + 1, l, stride);
    }
    assert forall k :: 0 <= k < |r| ==> picks[k] < |a| && r[k] == a[picks[k]];
  }

  /** The result has at least `|count|` elements, and a count equal to the
      array's length returns the array itself. */
  lemma DecimateLength<T>(a: seq<T>, r: seq<T>, count: int)
    requires count != 0 && Abs(count) <= |a|
    requires IsStrideSample(a, r, Stride(|a|, count))
    ensures |r| >= Abs(count)
    ensures Abs(count) == |a| ==> r == a
  {
    var c := Abs(count);
    var s := Stride(|a|, count);
    assert s * c <= |a|;
    if |r| < c {
      MulMonotone(|r| + 1, c, s);
    }
    if c == |a| {
      assert s == 1;
      assert forall k :: 0 <= k < |r| ==> r[k] == a[k];
    }
  }
}
