/**
 * The plain-arithmetic score functions of the library (score_functions.py):
 * accuracy as a fraction of matching labels, the mean squared error
 * (`score_rms`), the ensemble ambiguity, the soft accuracy score and the
 * dummy score.  Tensors are real vectors; a matrix is a sequence of rows.
 */
module Scores {
  import opened Vectors

  /** Number of positions at which the prediction equals the target. */
  function CountMatches<T(==)>(y: seq<T>, target: seq<T>): (c: nat)
    requires |y| == |target|
    ensures c <= |target|
  {
    if target == [] then 0
    else CountMatches(y[..|y| - 1], target[..|target| - 1])
         + (if y[|y| - 1] == target[|target| - 1] then 1 else 0)
  }

  /** get_accuracy: matches divided by the number of targets. */
  function Accuracy<T(==)>(y: seq<T>, target: seq<T>): (a: real)
    requires |y| == |target| > 0
    ensures 0.0 <= a <= 1.0
  {
    CountMatches(y, target) as real / |target| as real
  }

  lemma {:induction false} CountMatchesAllIff<T>(y: seq<T>, target: seq<T>)
    requires |y| == |target|
    ensures CountMatches(y, target) == |target| <==> y == target
  {
    if target != [] {
      var n := |target|;
      CountMatchesAllIff(y[..n - 1], target[..n - 1]);
      if y == target {
        assert y[..n - 1] == target[..n - 1];
      }
      if CountMatches(y, target) == n {
        assert y[..n - 1] == target[..n - 1];
        assert y == y[..n - 1] + [y[n - 1]];
        assert target == target[..n - 1] + [target[n - 1]];
      }
    }
  }

  lemma {:induction false} CountMatchesNoneIff<T>(y: seq<T>, target: seq<T>)
    requires |y| == |target|
    ensures CountMatches(y, target) == 0 <==> forall i :: 0 <= i < |y| ==> y[i] != target[i]
  {
    if target != [] {
      var n := |target|;
      CountMatchesNoneIff(y[..n - 1], target[..n - 1]);
      if CountMatches(y, target) == 0 {
        forall i | 0 <= i < n ensures y[i] != target[i] {
          if i < n - 1 {
            assert y[..n - 1][i] == y[i] && target[..n - 1][i] == target[i];
          }
        }
      }
    }
  }

  /** Accuracy is 1 exactly when every prediction matches its target. */
  lemma AccuracyOneIff<T>(y: seq<T>, target: seq<T>)
    requires |y| == |target| > 0
    ensures Accuracy(y, target) == 1.0 <==> y == target
  {
    CountMatchesAllIff(y, target);
    var c, n := CountMatches(y, target) as real, |target| as real;
    if c / n == 1.0 {
      assert c == n;
    }
  }

  /** Accuracy is 0 exactly when no prediction matches its target. */
  lemma AccuracyZeroIff<T>(y: seq<T>, target: seq<T>)
    requires |y| == |target| > 0
    ensures Accuracy(y, target) == 0.0 <==> forall i :: 0 <= i < |y| ==> y[i] != target[i]
  {
    CountMatchesNoneIff(y, target);
  }

  /** dummy_score: zeros with the target's shape. */
  function DummyScore(target: seq<seq<real>>): (r: seq<seq<real>>)
    ensures |r| == |target|
    ensures forall i :: 0 <= i < |r| ==> |r[i]| == |target[i]| && forall j :: 0 <= j < |r[i]| ==> r[i][j] == 0.0
  {
    seq(|target|, i requires 0 <= i < |target| => Zeros(|target[i]|))
  }

  function Square(d: real): (r: real)
    ensures r >= 0.0
  {
    d * d
  }

  function SquaredErrors(output: seq<real>, target: seq<real>): (r: seq<real>)
    requires |output| == |target|
    ensures |r| == |output|
  {
    seq(|output|, i requires 0 <= i < |output| => Square(output[i] - target[i]))
  }

  /** score_rms: the mean of the squared differences between output and target. */
  function ScoreRms(output: seq<real>, target: seq<real>): (r: real)
    requires |output| == |target| > 0
    ensures r >= 0.0
  {
    SumNonNegative(SquaredErrors(output, target));
    Mean(SquaredErrors(output, target))
  }

  /** The mean squared error vanishes exactly when output equals target. */
  lemma ScoreRmsZeroIff(output: seq<real>, target: seq<real>)
    requires |output| == |target| > 0
    ensures ScoreRms(output, target) == 0.0 <==> output == target
  {
    var sq := SquaredErrors(output, target);
    SumZeroIff(sq);
    if ScoreRms(output, target) == 0.0 {
      assert Sum(sq) == 0.0;
      forall i | 0 <= i < |output| ensures output[i] == target[i] {
        assert sq[i] == 0.0;
        ProductZero(output[i] - target[i], output[i] - target[i]);
      }
    }
    if output == target {
      assert forall i :: 0 <= i < |sq| ==> sq[i] == 0.0;
    }
  }

  /** A product vanishes only when a factor does. */
  lemma ProductZero(a: real, b: real)
    requires a * b == 0.0
    ensures a == 0.0 || b == 0.0
  {
    if a > 0.0 && b > 0.0 {
      assert false;
    } else if a > 0.0 && b < 0.0 {
      assert false;
    } else if a < 0.0 && b > 0.0 {
      assert false;
    } else if a < 0.0 && b < 0.0 {
      assert false;
    }
  }

  /** The per-member mean squared deviations from the ensemble output. */
  function Deviations(members: seq<seq<real>>, ensemble: seq<real>): (r: seq<real>)
    requires |ensemble| > 0 && Rectangular(members, |ensemble|)
    ensures |r| == |members|
    ensures forall i :: 0 <= i < |r| ==> r[i] >= 0.0
  {
    seq(|members|, i requires 0 <= i < |members| => ScoreRms(members[i], ensemble))
  }

  /**
   * score_ensemble_ambiguity: the average over the members of each member's
   * mean squared deviation from the ensemble output.
   */
  function EnsembleAmbiguity(members: seq<seq<real>>, ensemble: seq<real>): (r: real)
    requires |members| > 0 && |ensemble| > 0 && Rectangular(members, |ensemble|)
    ensures r >= 0.0
  {
    SumNonNegative(Deviations(members, ensemble));
    Sum(Deviations(members, ensemble)) / |members| as real
  }

  /** The ambiguity vanishes exactly when every member agrees with the ensemble. */
  lemma EnsembleAmbiguityZeroIff(members: seq<seq<real>>, ensemble: seq<real>)
    requires |members| > 0 && |ensemble| > 0 && Rectangular(members, |ensemble|)
    ensures EnsembleAmbiguity(members, ensemble) == 0.0 <==>
            forall i :: 0 <= i < |members| ==> members[i] == ensemble
  {
    var dev := Deviations(members, ensemble);
    SumZeroIff(dev);
    forall i | 0 <= i < |members| ensures dev[i] == 0.0 <==> members[i] == ensemble {
      ScoreRmsZeroIff(members[i], ensemble);
    }
    if EnsembleAmbiguity(members, ensemble) == 0.0 {
      assert Sum(dev) == 0.0;
    }
  }

  /** The rows of a matrix laid end to end (row-major order). */
  function Flatten(m: seq<seq<real>>): (r: seq<real>)
  {
    if |m| == 0 then [] else Flatten(m[..|m| - 1]) + m[|m| - 1]
  }

  lemma {:induction false} FlattenLength(m: seq<seq<real>>, width: nat)
    requires Rectangular(m, width)
    ensures |Flatten(m)| == |m| * width
  {
    if |m| > 0 {
      var k := |m| - 1;
      FlattenLength(m[..k], width);
      assert |Flatten(m)| == k * width + width;
      assert k * width + width == (k + 1) * width;
    }
  }

  /** Element-wise product of two matrices of the same shape. */
  function MulRows(a: seq<seq<real>>, b: seq<seq<real>>): (r: seq<seq<real>>)
    requires |a| == |b| && forall i :: 0 <= i < |a| ==> |a[i]| == |b[i]|
    ensures |r| == |a| && forall i :: 0 <= i < |r| ==> |r[i]| == |a[i]|
  {
    seq(|a|, i requires 0 <= i < |a| => Mul(a[i], b[i]))
  }

  /** Targets and outputs: non-empty matrices of equal shape `rows x width`. */
  predicate SameShape(output: seq<seq<real>>, target: seq<seq<real>>, width: nat)
  {
    |target| > 0 && width > 0 && |output| == |target| &&
    Rectangular(target, width) && Rectangular(output, width)
  }

  /**
   * score_accuracy: the size of the target's last dimension times the mean
   * of the element-wise product of target and output. The width factor
   * cancels: the score is the average over samples of the dot product of
   * the target and output rows.
   */
  function ScoreAccuracy(output: seq<seq<real>>, target: seq<seq<real>>, width: nat): (r: real)
    requires SameShape(output, target, width)
    ensures r == Mean(RowScores(output, target, width))
  {
    var f := Flatten(MulRows(target, output));
    FlattenLength(MulRows(target, output), width);
    SumProductRows(output, target, width);
    MeanOfWide(f, RowScores(output, target, width), width);
    width as real * Mean(f)
  }

  /** Sum of the flattened matrix is the sum of the row sums. */
  lemma {:induction false} SumFlatten(m: seq<seq<real>>)
    ensures Sum(Flatten(m)) == Sum(seq(|m|, i requires 0 <= i < |m| => Sum(m[i])))
  {
    var rs := seq(|m|, i requires 0 <= i < |m| => Sum(m[i]));
    if |m| > 0 {
      var init := m[..|m| - 1];
      SumFlatten(init);
      SumConcat(Flatten(init), m[|m| - 1]);
      assert rs[..|m| - 1] == seq(|init|, i requires 0 <= i < |init| => Sum(init[i]));
    }
  }

  /** The per-sample agreement: the dot product of a target row with an output row. */
  function RowScores(output: seq<seq<real>>, target: seq<seq<real>>, width: nat): (r: seq<real>)
    requires SameShape(output, target, width)
    ensures |r| == |target|
  {
    seq(|target|, i requires 0 <= i < |target| => Sum(Mul(target[i], output[i])))
  }

  /** A sum spread over width times as many entries: width times its mean is the narrow mean. */
  lemma MeanOfWide(wide: seq<real>, narrow: seq<real>, width: nat)
    requires |narrow| > 0 && width > 0
    requires |wide| == |narrow| * width && Sum(wide) == Sum(narrow)
    ensures |wide| > 0 && width as real * Mean(wide) == Mean(narrow)
  {
    ProductPositive(|narrow|, width);
    WidthTimesMean(wide, |narrow|, width);
  }

  lemma ProductPositive(a: nat, b: nat)
    requires a > 0 && b > 0
    ensures a * b > 0
  {
  }

  /** Width times the mean of rows * width entries is their sum over the rows. */
  lemma WidthTimesMean(wide: seq<real>, rows: nat, width: nat)
    requires rows > 0 && width > 0 && |wide| == rows * width && |wide| > 0
    ensures width as real * Mean(wide) == Sum(wide) / rows as real
  {
    var n, w, d := rows as real, width as real, |wide| as real;
    assert d == n * w;
    var q := Sum(wide) / d;
    assert q * (n * w) == Sum(wide);
    assert (w * q) * n == Sum(wide);
  }

  /** Summing the flattened product is summing the per-sample dot products. */
  lemma SumProductRows(output: seq<seq<real>>, target: seq<seq<real>>, width: nat)
    requires SameShape(output, target, width)
    ensures Sum(Flatten(MulRows(target, output))) == Sum(RowScores(output, target, width))
  {
    var m := MulRows(target, output);
    SumFlatten(m);
    assert seq(|m|, i requires 0 <= i < |m| => Sum(m[i])) == RowScores(output, target, width);
  }

  /** The mean of values in [0, 1] lies in [0, 1]. */
  lemma MeanUnitBounds(rs: seq<real>)
    requires |rs| > 0
    requires forall i :: 0 <= i < |rs| ==> 0.0 <= rs[i] <= 1.0
    ensures 0.0 <= Mean(rs) <= 1.0
  {
    var ones := seq(|rs|, _ => 1.0);
    SumNonNegative(rs);
    SumMonotone(rs, ones);
    SumConstant(ones, 1.0);
    var n := |rs| as real;
    assert Sum(rs) <= n;
    assert Sum(rs) / n <= n / n;
  }

  predicate IsOneHot(row: seq<real>)
  {
    (forall j :: 0 <= j < |row| ==> row[j] == 0.0 || row[j] == 1.0) && Sum(row) == 1.0
  }

  predicate IsProbability(row: seq<real>)
  {
    forall j :: 0 <= j < |row| ==> 0.0 <= row[j] <= 1.0
  }

  lemma RowScoreBounds(t: seq<real>, o: seq<real>)
    requires |t| == |o| && IsOneHot(t) && IsProbability(o)
    ensures 0.0 <= Sum(Mul(t, o)) <= 1.0
  {
    var p := Mul(t, o);
    forall j | 0 <= j < |p| ensures 0.0 <= p[j] <= t[j] {
      if t[j] == 1.0 { assert p[j] == o[j]; } else { assert p[j] == 0.0; }
    }
    SumNonNegative(p);
    SumMonotone(p, t);
  }

  /**
   * With one-hot targets and outputs in [0, 1] (class probabilities),
   * score_accuracy lies in [0, 1].
   */
  lemma ScoreAccuracyBounds(output: seq<seq<real>>, target: seq<seq<real>>, width: nat)
    requires SameShape(output, target, width)
    requires forall i :: 0 <= i < |target| ==> IsOneHot(target[i]) && IsProbability(output[i])
    ensures 0.0 <= ScoreAccuracy(output, target, width) <= 1.0
  {
    var rs := RowScores(output, target, width);
    forall i | 0 <= i < |rs| ensures 0.0 <= rs[i] <= 1.0 {
      RowScoreBounds(target[i], output[i]);
    }
    MeanUnitBounds(rs);
  }
}
