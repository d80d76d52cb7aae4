/**
 * The ensemble combiners: plain averaging of the member outputs
 * (AverageCombiner), a weighted sum with one weight per member
 * (WeightAverageCombiner) whose weights follow the closed-form update of
 * Perrone and Cooper, and the two classifiers built on them, which look up
 * a target label at the index decoded from the combined output.
 *
 * Tensors are vectors of reals. Each member's output (or error) for the
 * sample is given in member order, all of the same width.
 */
module Combiners {
  import opened Wrappers
  import opened Vectors

  /**
   * The sum of the member outputs divided by the number of members:
   * component k is the mean of the members' k-th components.
   */
  function Average(outputs: seq<seq<real>>, width: nat): (r: seq<real>)
    requires |outputs| > 0 && Rectangular(outputs, width)
    ensures |r| == width
    ensures forall k :: 0 <= k < width ==> r[k] == Mean(Column(outputs, k))
  {
    ColumnSums(outputs, width);
    var total := SumVectors(outputs, width);
    seq(width, k requires 0 <= k < width => total[k] / |outputs| as real)
  }

  lemma ColumnSums(vs: seq<seq<real>>, width: nat)
    requires Rectangular(vs, width)
    ensures forall k :: 0 <= k < width ==> SumVectors(vs, width)[k] == Sum(Column(vs, k))
  {
    forall k | 0 <= k < width
      ensures SumVectors(vs, width)[k] == Sum(Column(vs, k))
    {
      SumVectorsAt(vs, width, k);
    }
  }

  /**
   * AverageCombiner.output: the member outputs added up one by one in
   * member order, then divided by the number of members.
   */
  method AverageOutput(outputs: seq<seq<real>>, width: nat) returns (r: seq<real>)
    requires |outputs| > 0 && Rectangular(outputs, width)
    ensures r == Average(outputs, width)
  {
    var total := Zeros(width);
    for i := 0 to |outputs|
      invariant total == SumVectors(outputs[..i], width)
    {
      assert outputs[..i + 1][..i] == outputs[..i];
      total := Add(total, outputs[i]);
    }
    assert outputs[..|outputs|] == outputs;
    r := seq(width, k requires 0 <= k < width => total[k] / |outputs| as real);
  }

  /** When every member outputs v, the average is v. */
  lemma {:induction false} AverageConstant(outputs: seq<seq<real>>, v: seq<real>)
    requires |outputs| > 0 && forall i :: 0 <= i < |outputs| ==> outputs[i] == v
    ensures Average(outputs, |v|) == v
  {
    forall k | 0 <= k < |v|
      ensures Average(outputs, |v|)[k] == v[k]
    {
      assert Average(outputs, |v|)[k] == Mean(Column(outputs, k));
      SumConstant(Column(outputs, k), v[k]);
      NTimesOverN(|outputs|, v[k]);
    }
  }

  lemma NTimesOverN(n: nat, x: real)
    requires n > 0
    ensures n as real * x / n as real == x
  {
  }

  /**
   * The sum over the first |outputs| members of output i times weight i,
   * starting from zero: component k is the dot product of the members'
   * k-th components with their weights.
   */
  function WeightedSum(outputs: seq<seq<real>>, weights: seq<real>, width: nat): (r: seq<real>)
    requires |outputs| <= |weights| && Rectangular(outputs, width)
    ensures |r| == width
    ensures forall k :: 0 <= k < width ==> r[k] == Sum(Mul(Column(outputs, k), weights[..|outputs|]))
  {
    if |outputs| == 0 then Zeros(width)
    else
      var n := |outputs| - 1;
      DotPrefix(outputs, weights, width);
      Add(WeightedSum(outputs[..n], weights, width), Scale(outputs[n], weights[n]))
  }

  /** Dropping the last member drops the last term of every component's dot product. */
  lemma DotPrefix(outputs: seq<seq<real>>, weights: seq<real>, width: nat)
    requires 0 < |outputs| <= |weights| && Rectangular(outputs, width)
    ensures var n := |outputs| - 1;
            forall k :: 0 <= k < width ==>
              Mul(Column(outputs, k), weights[..|outputs|])[..n] == Mul(Column(outputs[..n], k), weights[..n])
  {
    var n := |outputs| - 1;
    forall k | 0 <= k < width
      ensures Mul(Column(outputs, k), weights[..|outputs|])[..n] == Mul(Column(outputs[..n], k), weights[..n])
    {
      var p := Mul(Column(outputs, k), weights[..|outputs|]);
      forall i | 0 <= i < n
        ensures p[..n][i] == Mul(Column(outputs[..n], k), weights[..n])[i]
      {
      }
    }
  }

  /** With every weight 1 (the initial weights) the weighted sum is the plain sum of the outputs. */
  lemma {:induction false} WeightedSumOnes(outputs: seq<seq<real>>, weights: seq<real>, width: nat)
    requires |outputs| <= |weights| && Rectangular(outputs, width)
    requires forall i :: 0 <= i < |weights| ==> weights[i] == 1.0
    ensures WeightedSum(outputs, weights, width) == SumVectors(outputs, width)
  {
    if |outputs| > 0 {
      var n := |outputs| - 1;
      WeightedSumOnes(outputs[..n], weights, width);
      assert Scale(outputs[n], weights[n]) == outputs[n];
    }
  }

  /** With every weight 1/n for n members, the weighted sum is the average. */
  lemma {:induction false} WeightedSumUniform(outputs: seq<seq<real>>, weights: seq<real>, width: nat)
    requires |outputs| > 0 && |outputs| <= |weights| && Rectangular(outputs, width)
    requires forall i :: 0 <= i < |weights| ==> weights[i] == 1.0 / |outputs| as real
    ensures WeightedSum(outputs, weights, width) == Average(outputs, width)
  {
    forall k | 0 <= k < width
      ensures WeightedSum(outputs, weights, width)[k] == Average(outputs, width)[k]
    {
      UniformAt(outputs, weights, width, k);
    }
  }

  lemma {:induction false} UniformAt(outputs: seq<seq<real>>, weights: seq<real>, width: nat, k: nat)
    requires |outputs| > 0 && |outputs| <= |weights| && Rectangular(outputs, width) && k < width
    requires forall i :: 0 <= i < |weights| ==> weights[i] == 1.0 / |outputs| as real
    ensures WeightedSum(outputs, weights, width)[k] == Average(outputs, width)[k]
  {
    var col, n := Column(outputs, k), |outputs| as real;
    UniformProduct(col, weights[..|outputs|], 1.0 / n);
    SumVectorsAt(outputs, width, k);
    TimesInverseIsDivide(Sum(col), n);
  }

  /** A dot product with a constant vector c is the sum times c. */
  lemma {:induction false} UniformProduct(v: seq<real>, w: seq<real>, c: real)
    requires |w| == |v| && forall i :: 0 <= i < |w| ==> w[i] == c
    ensures Sum(Mul(v, w)) == Sum(v) * c
  {
    forall i | 0 <= i < |v|
      ensures Mul(v, w)[i] == v[i] * c
    {
    }
    SumScale(v, c, Mul(v, w));
  }

  lemma TimesInverseIsDivide(x: real, n: real)
    requires n != 0.0
    ensures x * (1.0 / n) == x / n
  {
  }

  /** The label at a decoded index; the source raises IndexError when it is out of range. */
  function LabelAt<L>(labels: seq<L>, index: nat): (r: Option<L>)
    ensures r.Some? <==> index < |labels|
    ensures r.Some? ==> r.value == labels[index] && r.value in labels
  {
    if index < |labels| then Some(labels[index]) else None
  }

  /**
   * PluralityVotingCombiner.predict: the target label at the index decoded
   * from the averaged output (decode stands for get_index_label_classes).
   * It is a target label exactly when the decoded index is in range, and
   * then it is the label at that index.
   */
  function PluralityPredict<L>(outputs: seq<seq<real>>, width: nat, labels: seq<L>, decode: seq<real> -> nat): (r: Option<L>)
    requires |outputs| > 0 && Rectangular(outputs, width)
    ensures var i := decode(Average(outputs, width));
            (r.Some? <==> i < |labels|) && (r.Some? ==> r.value in labels && r.value == labels[i])
  {
    LabelAt(labels, decode(Average(outputs, width)))
  }

  /** The total error: the element-wise sum of the members' error vectors. */
  function ErrorTotal(errors: seq<seq<real>>, width: nat): (s: seq<real>)
    requires Rectangular(errors, width)
    ensures |s| == width
  {
    SumVectors(errors, width)
  }

  /** The mean of the total error times member i's error: the member's share of the error correlation. */
  function Correlation(errors: seq<seq<real>>, width: nat, i: nat): real
    requires Rectangular(errors, width) && width > 0 && i < |errors|
  {
    Mean(Mul(ErrorTotal(errors, width), errors[i]))
  }

  /** Every member's correlation is non-zero, so its inverse exists. */
  predicate Invertible(errors: seq<seq<real>>, width: nat)
  {
    Rectangular(errors, width) && width > 0 &&
    forall i :: 0 <= i < |errors| ==> Correlation(errors, width, i) != 0.0
  }

  /** The inverse correlations d_i, in member order. */
  function Inverses(errors: seq<seq<real>>, width: nat): (d: seq<real>)
    requires Invertible(errors, width)
    ensures |d| == |errors|
  {
    seq(|errors|, i requires 0 <= i < |errors| => 1.0 / Correlation(errors, width, i))
  }

  /** The weight update is defined: the inverses exist and their sum is non-zero. */
  predicate UpdateDefined(errors: seq<seq<real>>, width: nat)
  {
    Invertible(errors, width) && Sum(Inverses(errors, width)) != 0.0
  }

  /**
   * The Perrone-Cooper weights: each inverse correlation divided by their
   * sum. They sum to 1, and every member's weight times its correlation is
   * the same constant, so the weights are inversely proportional to the
   * correlations.
   */
  function PerroneCooper(errors: seq<seq<real>>, width: nat): (w: seq<real>)
    requires UpdateDefined(errors, width)
    ensures |w| == |errors|
    ensures Sum(w) == 1.0
    ensures forall i :: 0 <= i < |errors| ==> w[i] * Correlation(errors, width, i) == 1.0 / Sum(Inverses(errors, width))
  {
    var d := Inverses(errors, width);
    var w := Scale(d, 1.0 / Sum(d));
    NormalisedSum(d, w);
    ScaledInverses(errors, width, w);
    w
  }

  lemma NormalisedSum(d: seq<real>, w: seq<real>)
    requires Sum(d) != 0.0 && w == Scale(d, 1.0 / Sum(d))
    ensures Sum(w) == 1.0
  {
    SumScale(d, 1.0 / Sum(d), w);
    TimesInverse(Sum(d));
  }

  lemma TimesInverse(x: real)
    requires x != 0.0
    ensures x * (1.0 / x) == 1.0
  {
  }

  lemma ScaledInverses(errors: seq<seq<real>>, width: nat, w: seq<real>)
    requires UpdateDefined(errors, width) && w == Scale(Inverses(errors, width), 1.0 / Sum(Inverses(errors, width)))
    ensures forall i :: 0 <= i < |errors| ==> w[i] * Correlation(errors, width, i) == 1.0 / Sum(Inverses(errors, width))
  {
    forall i | 0 <= i < |errors|
      ensures w[i] * Correlation(errors, width, i) == 1.0 / Sum(Inverses(errors, width))
    {
      InverseScaled(Correlation(errors, width, i), Sum(Inverses(errors, width)));
    }
  }

  lemma InverseScaled(c: real, s: real)
    requires c != 0.0 && s != 0.0
    ensures 1.0 / c * (1.0 / s) * c == 1.0 / s
  {
  }

  /**
   * A WeightAverageCombiner (and the WeightedVotingCombiner built on it):
   * one weight per member, all 1 to begin with.
   */
  class WeightAverageCombiner {
    const nModels: nat
    var weights: seq<real>

    constructor (nModels: nat)
      ensures this.nModels == nModels
      ensures |weights| == nModels && forall i :: 0 <= i < nModels ==> weights[i] == 1.0
    {
      this.nModels := nModels;
      weights := seq(nModels, _ => 1.0);
    }

    /** output: the members' outputs, each times its weight, summed in member order. */
    method Output(outputs: seq<seq<real>>, width: nat) returns (r: seq<real>)
      requires |outputs| <= |weights| && Rectangular(outputs, width)
      ensures r == WeightedSum(outputs, weights, width)
    {
      r := Zeros(width);
      for i := 0 to |outputs|
        invariant r == WeightedSum(outputs[..i], weights, width)
      {
        assert outputs[..i + 1][..i] == outputs[..i];
        r := Add(r, Scale(outputs[i], weights[i]));
      }
      assert outputs[..|outputs|] == outputs;
    }

    /**
     * update_parameters, given each member's error for the sample: the
     * total error of the first n_models members, each member's inverse
     * correlation with it, and the inverses scaled by the inverse of their
     * sum become the new weights. Nothing else changes.
     */
    method UpdateParameters(errors: seq<seq<real>>, width: nat)
      modifies this
      requires nModels <= |errors| && UpdateDefined(errors[..nModels], width)
      ensures weights == PerroneCooper(errors[..nModels], width)
    {
      var es := errors[..nModels];
      var total := TotalError(es, width);
      var d, dSum := InverseCorrelations(es, width, total);
      weights := Scale(d, 1.0 / dSum);
    }

    /** The loop of update_parameters that sums the members' error vectors. */
    static method TotalError(es: seq<seq<real>>, width: nat) returns (total: seq<real>)
      requires Rectangular(es, width)
      ensures total == ErrorTotal(es, width)
    {
      total := Zeros(width);
      for j := 0 to |es|
        invariant total == SumVectors(es[..j], width)
      {
        assert es[..j + 1][..j] == es[..j];
        total := Add(total, es[j]);
      }
      assert es[..|es|] == es;
    }

    /**
     * The loop of update_parameters that computes each member's inverse
     * correlation with the total error, and their sum.
     */
    static method InverseCorrelations(es: seq<seq<real>>, width: nat, total: seq<real>) returns (d: seq<real>, dSum: real)
      requires Invertible(es, width) && total == ErrorTotal(es, width)
      ensures d == Inverses(es, width) && dSum == Sum(d)
    {
      d, dSum := [], 0.0;
      for i := 0 to |es|
        invariant d == Inverses(es, width)[..i] && dSum == Sum(d)
      {
        assert Correlation(es, width, i) == Mean(Mul(total, es[i]));
        var di := 1.0 / Mean(Mul(total, es[i]));
        SumAppend(d, di);
        d, dSum := d + [di], dSum + di;
      }
    }
  }

  /**
   * WeightedVotingCombiner.predict: the target label at the index decoded
   * from the weighted output. It is a target label exactly when the decoded
   * index is in range, and then it is the label at that index.
   */
  function WeightedVotingPredict<L>(outputs: seq<seq<real>>, weights: seq<real>, width: nat, labels: seq<L>,
                                    decode: seq<real> -> nat): (r: Option<L>)
    requires |outputs| <= |weights| && Rectangular(outputs, width)
    ensures var i := decode(WeightedSum(outputs, weights, width));
            (r.Some? <==> i < |labels|) && (r.Some? ==> r.value in labels && r.value == labels[i])
  {
    LabelAt(labels, decode(WeightedSum(outputs, weights, width)))
  }

  /** With uniform weights 1/n the weighted vote is the plurality vote. */
  lemma {:induction false} WeightedVotingUniform<L>(outputs: seq<seq<real>>, weights: seq<real>, width: nat, labels: seq<L>,
                                                    decode: seq<real> -> nat)
    requires |outputs| > 0 && |outputs| <= |weights| && Rectangular(outputs, width)
    requires forall i :: 0 <= i < |weights| ==> weights[i] == 1.0 / |outputs| as real
    ensures WeightedVotingPredict(outputs, weights, width, labels, decode) == PluralityPredict(outputs, width, labels, decode)
  {
    WeightedSumUniform(outputs, weights, width);
  }
}
