/**
  The few tensor operations the layers use, over flat sequences of reals:
  the element-wise `clamp_`, `zero_` and `copy_` that change a buffer in place,
  and the sums and means the running statistics are built from.
*/
module Tensors {

  /** `x.clamp(lo, hi)` on one element: the lower bound is applied first, then the upper one,
      so when `lo > hi` every element becomes `hi`. */
  function Clamp(x: real, lo: real, hi: real): (r: real)
    ensures lo <= hi ==> lo <= r <= hi
    ensures lo <= x <= hi ==> r == x
    ensures hi < lo ==> r == hi
    ensures r == x || r == lo || r == hi
  {
    var raised := if x < lo then lo else x;
    if raised > hi then hi else raised
  }

  /** Every element of `s` lies in the closed interval `[lo, hi]`. */
  predicate InRange(s: seq<real>, lo: real, hi: real)
  {
    forall i :: 0 <= i < |s| ==> lo <= s[i] <= hi
  }

  /** The contents of a tensor after `clamp_(lo, hi)`. */
  function ClampAll(s: seq<real>, lo: real, hi: real): (r: seq<real>)
    ensures |r| == |s|
    ensures lo <= hi ==> InRange(r, lo, hi)
    ensures forall i :: 0 <= i < |s| && lo <= s[i] <= hi ==> r[i] == s[i]
    ensures forall i :: 0 <= i < |s| ==> r[i] == s[i] || r[i] == lo || r[i] == hi
  {
    seq(|s|, i requires 0 <= i < |s| => Clamp(s[i], lo, hi))
  }

  /** Clamping twice is clamping once, whatever the bounds. */
  lemma ClampAllIdempotent(s: seq<real>, lo: real, hi: real)
    ensures ClampAll(ClampAll(s, lo, hi), lo, hi) == ClampAll(s, lo, hi)
  {
    var once := ClampAll(s, lo, hi);
    forall i | 0 <= i < |s|
      ensures Clamp(once[i], lo, hi) == once[i]
    {
      if hi < lo {
        assert once[i] == hi;
      }
    }
  }

  /** A tensor whose elements already lie in `[lo, hi]` is left as it is by the clamp. */
  lemma ClampAllKeepsInRange(s: seq<real>, lo: real, hi: real)
    requires InRange(s, lo, hi)
    ensures ClampAll(s, lo, hi) == s
  {
  }

  /** The contents of a tensor of `n` elements after `zero_()`. */
  function Zeros(n: nat): (r: seq<real>)
    ensures |r| == n && forall i :: 0 <= i < n ==> r[i] == 0.0
  {
    seq(n, _ => 0.0)
  }

  /** `torch.ones(n)`. */
  function Ones(n: nat): (r: seq<real>)
    ensures |r| == n && forall i :: 0 <= i < n ==> r[i] == 1.0
  {
    seq(n, _ => 1.0)
  }

  /** `a.clamp_(lo, hi)`: every element is clamped in place. */
  method ClampInPlace(a: array<real>, lo: real, hi: real)
    modifies a
    ensures a[..] == ClampAll(old(a[..]), lo, hi)
  {
    var i := 0;
    while i < a.Length
      invariant 0 <= i <= a.Length
      invariant forall k :: 0 <= k < i ==> a[k] == Clamp(old(a[k]), lo, hi)
      invariant forall k :: i <= k < a.Length ==> a[k] == old(a[k])
    {
      a[i] := Clamp(a[i], lo, hi);
      i := i + 1;
    }
  }

  /** `a.zero_()`. */
  method ZeroInPlace(a: array<real>)
    modifies a
    ensures a[..] == Zeros(a.Length)
  {
    var i := 0;
    while i < a.Length
      invariant 0 <= i <= a.Length
      invariant forall k :: 0 <= k < i ==> a[k] == 0.0
    {
      a[i] := 0.0;
      i := i + 1;
    }
  }

  /** `dst.copy_(src)` between tensors of the same shape. */
  method CopyInto(dst: array<real>, src: seq<real>)
    requires dst.Length == |src|
    modifies dst
    ensures dst[..] == src
  {
    var i := 0;
    while i < dst.Length
      invariant 0 <= i <= dst.Length
      invariant forall k :: 0 <= k < i ==> dst[k] == src[k]
    {
      dst[i] := src[i];
      i := i + 1;
    }
  }

  /** The sum of the elements of a tensor. */
  function Sum(s: seq<real>): real
  {
    if s == [] then 0.0 else s[0] + Sum(s[1..])
  }

  /** `torch.mean` over a non-empty tensor. */
  function Mean(s: seq<real>): real
    requires |s| > 0
  {
    Sum(s) / (|s| as real)
  }

  /** A sum of non-negative elements is non-negative. */
  lemma {:induction false} SumNonNegative(s: seq<real>)
    requires forall i :: 0 <= i < |s| ==> 0.0 <= s[i]
    ensures 0.0 <= Sum(s)
  {
    if s != [] {
      SumNonNegative(s[1..]);
    }
  }

  /** A mean of non-negative elements is non-negative. */
  lemma MeanNonNegative(s: seq<real>)
    requires |s| > 0
    requires forall i :: 0 <= i < |s| ==> 0.0 <= s[i]
    ensures 0.0 <= Mean(s)
  {
    SumNonNegative(s);
  }

  /** The concatenation of the rows of a tensor, in row-major order. */
  function Flatten(rows: seq<seq<real>>): (r: seq<real>)
    ensures rows != [] && rows[0] != [] ==> |r| > 0
  {
    if rows == [] then [] else rows[0] + Flatten(rows[1..])
  }

  /** `b ** e` for a natural exponent. */
  function Power(b: real, e: nat): real
  {
    if e == 0 then 1.0 else b * Power(b, e - 1)
  }

  /** A power of a non-zero base is non-zero. */
  lemma {:induction false} PowerNonZero(b: real, e: nat)
    requires b != 0.0
    ensures Power(b, e) != 0.0
  {
    if e > 0 {
      PowerNonZero(b, e - 1);
    }
  }

  /** A power of a non-negative base is non-negative. */
  lemma {:induction false} PowerNonNegative(b: real, e: nat)
    requires 0.0 <= b
    ensures 0.0 <= Power(b, e)
  {
    if e > 0 {
      PowerNonNegative(b, e - 1);
    }
  }
}
