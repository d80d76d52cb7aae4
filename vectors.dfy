/**
 * Real-valued vectors standing in for the numeric tensors of the source:
 * sums, means and element-wise arithmetic, with the facts about them that
 * the score functions and combiners rely on.
 */
module Vectors {

  /** Sum of a vector, accumulated left to right as the source's loops do. */
  function Sum(s: seq<real>): real
  {
    if s == [] then 0.0 else Sum(s[..|s| - 1]) + s[|s| - 1]
  }

  /** Arithmetic mean; the source's `mean` of an empty tensor is undefined. */
  function Mean(s: seq<real>): real
    requires |s| > 0
  {
    Sum(s) / |s| as real
  }

  function Zeros(n: nat): (r: seq<real>)
    ensures |r| == n && forall i :: 0 <= i < n ==> r[i] == 0.0
  {
    seq(n, _ => 0.0)
  }

  /** Element-wise sum of two vectors of equal length. */
  function Add(a: seq<real>, b: seq<real>): (r: seq<real>)
    requires |a| == |b|
    ensures |r| == |a|
  {
    seq(|a|, i requires 0 <= i < |a| => a[i] + b[i])
  }

  /** Element-wise product of two vectors of equal length. */
  function Mul(a: seq<real>, b: seq<real>): (r: seq<real>)
    requires |a| == |b|
    ensures |r| == |a|
  {
    seq(|a|, i requires 0 <= i < |a| => a[i] * b[i])
  }

  /** Every component multiplied by c. */
  function Scale(v: seq<real>, c: real): (r: seq<real>)
    ensures |r| == |v|
  {
    seq(|v|, i requires 0 <= i < |v| => v[i] * c)
  }

  /** Every vector in `vs` has length `width`. */
  predicate Rectangular(vs: seq<seq<real>>, width: nat)
  {
    forall i :: 0 <= i < |vs| ==> |vs[i]| == width
  }

  /** The k-th component of every vector, in order. */
  function Column(vs: seq<seq<real>>, k: nat): (c: seq<real>)
    requires forall i :: 0 <= i < |vs| ==> k < |vs[i]|
    ensures |c| == |vs|
  {
    seq(|vs|, i requires 0 <= i < |vs| => vs[i][k])
  }

  /**
   * Element-wise sum of a list of vectors, starting from the zero vector
   * (the source starts from the scalar 0.0, which broadcasts to zeros).
   */
  function SumVectors(vs: seq<seq<real>>, width: nat): (r: seq<real>)
    requires Rectangular(vs, width)
    ensures |r| == width
  {
    if vs == [] then Zeros(width)
    else Add(SumVectors(vs[..|vs| - 1], width), vs[|vs| - 1])
  }

  lemma SumAppend(s: seq<real>, x: real)
    ensures Sum(s + [x]) == Sum(s) + x
  {
    assert (s + [x])[..|s|] == s;
  }

  /** Component k of a sum of vectors is the sum of the k-th components. */
  lemma {:induction false} SumVectorsAt(vs: seq<seq<real>>, width: nat, k: nat)
    requires Rectangular(vs, width) && k < width
    ensures SumVectors(vs, width)[k] == Sum(Column(vs, k))
  {
    if vs != [] {
      var init := vs[..|vs| - 1];
      SumVectorsAt(init, width, k);
      assert Column(vs, k)[..|vs| - 1] == Column(init, k);
    }
  }

  lemma {:induction false} SumNonNegative(s: seq<real>)
    requires forall i :: 0 <= i < |s| ==> s[i] >= 0.0
    ensures Sum(s) >= 0.0
  {
    if s != [] {
      SumNonNegative(s[..|s| - 1]);
    }
  }

  /** A sum of non-negative terms is zero exactly when every term is. */
  lemma {:induction false} SumZeroIff(s: seq<real>)
    requires forall i :: 0 <= i < |s| ==> s[i] >= 0.0
    ensures Sum(s) == 0.0 <==> forall i :: 0 <= i < |s| ==> s[i] == 0.0
  {
    if s != [] {
      var init := s[..|s| - 1];
      SumZeroIff(init);
      SumNonNegative(init);
    }
  }

  /** Summing n copies of v gives n times v. */
  lemma {:induction false} SumConstant(s: seq<real>, v: real)
    requires forall i :: 0 <= i < |s| ==> s[i] == v
    ensures Sum(s) == |s| as real * v
  {
    if s != [] {
      SumConstant(s[..|s| - 1], v);
    }
  }

  /** A sum is bounded by the sum of a pointwise larger vector. */
  lemma {:induction false} SumMonotone(a: seq<real>, b: seq<real>)
    requires |a| == |b|
    requires forall i :: 0 <= i < |a| ==> a[i] <= b[i]
    ensures Sum(a) <= Sum(b)
  {
    if a != [] {
      SumMonotone(a[..|a| - 1], b[..|b| - 1]);
    }
  }

  /** Sum distributes over concatenation. */
  lemma {:induction false} SumConcat(a: seq<real>, b: seq<real>)
    ensures Sum(a + b) == Sum(a) + Sum(b)
  {
    if b != [] {
      var bi := b[..|b| - 1];
      assert (a + b)[..|a + b| - 1] == a + bi;
      SumConcat(a, bi);
    } else {
      assert a + b == a;
    }
  }

  /** Scaling every term scales the sum. */
  lemma {:induction false} SumScale(s: seq<real>, c: real, t: seq<real>)
    requires |t| == |s|
    requires forall i :: 0 <= i < |s| ==> t[i] == s[i] * c
    ensures Sum(t) == Sum(s) * c
  {
    if s != [] {
      SumScale(s[..|s| - 1], c, t[..|t| - 1]);
    }
  }
}
