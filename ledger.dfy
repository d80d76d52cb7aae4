/**
 * The metric ledger of one model (BaseMetrics in basemetrics.py): per data
 * split, an error series, a total-cost series and two insertion-ordered maps
 * of labelled series (sub-costs and scores), plus the predictions and
 * targets seen so far.
 *
 * A ledger is specified as a value (Ledger) with pure transitions
 * (AppendStep, MergeLedger, Cleared); the class BaseMetrics holds the same
 * state in mutable fields and its methods are proved to perform exactly
 * those transitions.
 */
module Metrics {
  import opened Wrappers
  import opened Plots
  import opened Channels
  import opened Scores

  /** The two kinds of data a ledger records: 'train' and 'test'. */
  datatype Split = Train | Test

  /** The split named by a string; only "train" and "test" name one. */
  function ParseSplit(s: string): (r: Option<Split>)
    ensures r == Some(Train) <==> s == "train"
    ensures r == Some(Test) <==> s == "test"
    ensures r == None <==> s != "train" && s != "test"
  {
    if s == "train" then Some(Train) else if s == "test" then Some(Test) else None
  }

  /** A {'train': ..., 'test': ...} dictionary. */
  datatype PerSplit<T> = PerSplit(train: T, test: T)
  {
    function Get(s: Split): T
    {
      if s == Train then train else test
    }

    /** Replace the entry of one split; the other split keeps its entry. */
    function Set(s: Split, v: T): (r: PerSplit<T>)
      ensures r.Get(s) == v
      ensures forall o: Split :: o != s ==> r.Get(o) == Get(o)
    {
      if s == Train then PerSplit(v, test) else PerSplit(train, v)
    }
  }

  datatype LedgerError = InvalidSplit

  /**
   * What a ledger asks of its model: its name, the labels of the positions
   * of a training-step tuple, how many costs and scores it declares, and
   * whether it is a classifier.
   */
  datatype ModelInfo = ModelInfo(name: string, resultLabels: seq<string>, nCosts: nat, nScores: nat, isClassifier: bool)

  /** Sub-costs are recorded only when the model declares more than one cost. */
  function CostsConsumed(m: ModelInfo): (n: nat)
    ensures n == 0 <==> m.nCosts <= 1
    ensures n > 0 ==> n == m.nCosts
  {
    if m.nCosts > 1 then m.nCosts else 0
  }

  /**
   * The number of positions append_data reads from a tuple: the error, the
   * total cost, the sub-costs (if recorded) and the scores.
   */
  function StepWidth(m: ModelInfo): nat
  {
    2 + CostsConsumed(m) + m.nScores
  }

  const NoPlots: PerSplit<seq<PlotData>> := PerSplit([], [])
  const NoMaps: PerSplit<Channels> := PerSplit(NoChannels, NoChannels)

  /** The state of a BaseMetrics object, as a value. */
  datatype Ledger = Ledger(
    model: ModelInfo,
    error: PerSplit<seq<PlotData>>,
    cost: PerSplit<seq<PlotData>>,
    costs: PerSplit<Channels>,
    scores: PerSplit<Channels>,
    yPred: seq<seq<real>>,
    yTrue: seq<seq<real>>)
  {
    /** One split is well formed: ordered maps, and every series aligned. */
    ghost predicate SplitValid(s: Split)
    {
      costs.Get(s).Valid() && scores.Get(s).Valid() &&
      AllAligned(error.Get(s)) && AllAligned(cost.Get(s)) &&
      costs.Get(s).AllAlignedIn() && scores.Get(s).AllAlignedIn()
    }

    ghost predicate Valid()
    {
      SplitValid(Train) && SplitValid(Test)
    }
  }

  /** A freshly constructed ledger: every container empty. */
  function NewLedger(m: ModelInfo): (l: Ledger)
    ensures l.Valid()
    ensures forall s: Split :: l.error.Get(s) == [] && l.cost.Get(s) == [] &&
                               l.costs.Get(s).series == map[] && l.scores.Get(s).series == map[]
    ensures l.yPred == [] && l.yTrue == []
  {
    Ledger(m, NoPlots, NoPlots, NoMaps, NoMaps, [], [])
  }

  /**
   * reset: the ledger looks freshly constructed for the same model, except
   * that the predictions and targets recorded so far are kept.
   */
  function Cleared(l: Ledger): (r: Ledger)
    ensures r == NewLedger(l.model).(yPred := l.yPred, yTrue := l.yTrue)
    ensures r.Valid()
  {
    l.(error := NoPlots, cost := NoPlots, costs := NoMaps, scores := NoMaps)
  }

  /**
   * append_data on a valid split: (epoch, data[0]) onto the error series,
   * (epoch, data[1]) onto the total-cost series, then the sub-costs (only
   * when the model declares more than one cost) and the scores, each keyed
   * by the label at its own position. The first error plot and the first
   * cost plot of the split each end with the new value; the other split,
   * the model and the predictions are left alone.
   */
  function AppendStep(l: Ledger, s: Split, data: seq<real>, epoch: real): (r: Ledger)
    requires StepWidth(l.model) <= |data| && StepWidth(l.model) <= |l.model.resultLabels|
    ensures r.model == l.model && r.yPred == l.yPred && r.yTrue == l.yTrue
    ensures |r.error.Get(s)| > 0 && r.error.Get(s)[0].ys == HeadOr(l.error.Get(s), l.model.resultLabels[0], l.model.name).ys + [data[0]]
    ensures |r.cost.Get(s)| > 0 && r.cost.Get(s)[0].ys == HeadOr(l.cost.Get(s), l.model.resultLabels[1], l.model.name).ys + [data[1]]
    ensures forall o: Split :: o != s ==>
              r.error.Get(o) == l.error.Get(o) && r.cost.Get(o) == l.cost.Get(o) &&
              r.costs.Get(o) == l.costs.Get(o) && r.scores.Get(o) == l.scores.Get(o)
  {
    var labels := l.model.resultLabels;
    var name := l.model.name;
    var nc := CostsConsumed(l.model);
    l.(error := l.error.Set(s, AddPointTo(l.error.Get(s), epoch, data[0], labels[0], name)),
       cost := l.cost.Set(s, AddPointTo(l.cost.Get(s), epoch, data[1], labels[1], name)),
       costs := l.costs.Set(s, RecordRange(l.costs.Get(s), labels, data, name, epoch, 2, 2 + nc)),
       scores := l.scores.Set(s, RecordRange(l.scores.Get(s), labels, data, name, epoch, 2 + nc, StepWidth(l.model))))
  }

  /**
   * append_data on split s: the error and cost lists each gain one point
   * (epoch, data[0]) and (epoch, data[1]) on their first plot, creating it
   * only when the list was empty.
   */
  lemma AppendStepTotals(l: Ledger, s: Split, data: seq<real>, epoch: real)
    requires StepWidth(l.model) <= |data| && StepWidth(l.model) <= |l.model.resultLabels|
    ensures var r := AppendStep(l, s, data, epoch);
            var labels := l.model.resultLabels;
            r.error.Get(s) == Extended(l.error.Get(s), [epoch], [data[0]], labels[0], l.model.name) &&
            r.cost.Get(s) == Extended(l.cost.Get(s), [epoch], [data[1]], labels[1], l.model.name)
  {
    var labels := l.model.resultLabels;
    AddPointToIsExtended(l.error.Get(s), epoch, data[0], labels[0], l.model.name);
    AddPointToIsExtended(l.cost.Get(s), epoch, data[1], labels[1], l.model.name);
  }

  /**
   * append_data on split s, sub-costs and scores: the series under each
   * label k gains the values at the positions labelled k, in order, at
   * x = epoch; sub-costs read positions 2 .. 2+n_costs only when the model
   * declares more than one cost, and are untouched otherwise; scores read
   * the n_scores positions after them.
   */
  lemma AppendStepChannels(l: Ledger, s: Split, data: seq<real>, epoch: real, k: string)
    requires StepWidth(l.model) <= |data| && StepWidth(l.model) <= |l.model.resultLabels|
    ensures var r := AppendStep(l, s, data, epoch);
            var labels := l.model.resultLabels;
            var nc := CostsConsumed(l.model);
            var hc := Hits(labels, data, 2, 2 + nc, k);
            var hs := Hits(labels, data, 2 + nc, StepWidth(l.model), k);
            r.costs.Get(s).Get(k) == Extended(l.costs.Get(s).Get(k), Repeat(epoch, |hc|), hc, k, l.model.name) &&
            r.scores.Get(s).Get(k) == Extended(l.scores.Get(s).Get(k), Repeat(epoch, |hs|), hs, k, l.model.name) &&
            (l.model.nCosts <= 1 ==> r.costs.Get(s) == l.costs.Get(s))
  {
    var labels := l.model.resultLabels;
    var nc := CostsConsumed(l.model);
    RecordRangeGet(l.costs.Get(s), labels, data, l.model.name, epoch, 2, 2 + nc, k);
    RecordRangeGet(l.scores.Get(s), labels, data, l.model.name, epoch, 2 + nc, StepWidth(l.model), k);
  }

  /**
   * append_data on split s, keys: the sub-cost and score maps gain exactly
   * the labels of the positions they consume.
   */
  lemma AppendStepKeys(l: Ledger, s: Split, data: seq<real>, epoch: real)
    requires StepWidth(l.model) <= |data| && StepWidth(l.model) <= |l.model.resultLabels|
    ensures var r := AppendStep(l, s, data, epoch);
            var labels := l.model.resultLabels;
            var nc := CostsConsumed(l.model);
            r.costs.Get(s).series.Keys == l.costs.Get(s).series.Keys + (set i | 2 <= i < 2 + nc :: labels[i]) &&
            r.scores.Get(s).series.Keys == l.scores.Get(s).series.Keys + (set i | 2 + nc <= i < StepWidth(l.model) :: labels[i])
  {
    var labels := l.model.resultLabels;
    var nc := CostsConsumed(l.model);
    RecordRangeKeys(l.costs.Get(s), labels, data, l.model.name, epoch, 2, 2 + nc);
    RecordRangeKeys(l.scores.Get(s), labels, data, l.model.name, epoch, 2 + nc, StepWidth(l.model));
  }

  /** append_data keeps a well-formed ledger well formed. */
  lemma AppendStepValid(l: Ledger, s: Split, data: seq<real>, epoch: real)
    requires StepWidth(l.model) <= |data| && StepWidth(l.model) <= |l.model.resultLabels|
    requires l.Valid()
    ensures AppendStep(l, s, data, epoch).Valid()
  {
    var labels := l.model.resultLabels;
    var name := l.model.name;
    var nc := CostsConsumed(l.model);
    var r := AppendStep(l, s, data, epoch);
    AddPointToAligned(l.error.Get(s), epoch, data[0], labels[0], name);
    AddPointToAligned(l.cost.Get(s), epoch, data[1], labels[1], name);
    RecordRangeValid(l.costs.Get(s), labels, data, name, epoch, 2, 2 + nc);
    RecordRangeValid(l.scores.Get(s), labels, data, name, epoch, 2 + nc, StepWidth(l.model));
    RecordRangeAligned(l.costs.Get(s), labels, data, name, epoch, 2, 2 + nc);
    RecordRangeAligned(l.scores.Get(s), labels, data, name, epoch, 2 + nc, StepWidth(l.model));
    assert r.SplitValid(s);
    if s == Train {
      assert r.SplitValid(Test);
    } else {
      assert r.SplitValid(Train);
    }
  }

  /**
   * append_metric: per split, the error and cost lists are concatenated
   * self-then-other and the two maps merged key by key; the model and the
   * predictions are self's.
   */
  function MergeLedger(a: Ledger, b: Ledger): (r: Ledger)
    ensures r.model == a.model && r.yPred == a.yPred && r.yTrue == a.yTrue
    ensures forall s: Split :: r.error.Get(s) == a.error.Get(s) + b.error.Get(s) && r.cost.Get(s) == a.cost.Get(s) + b.cost.Get(s)
  {
    a.(error := PerSplit(a.error.train + b.error.train, a.error.test + b.error.test),
       cost := PerSplit(a.cost.train + b.cost.train, a.cost.test + b.cost.test),
       costs := PerSplit(MergeChannels(a.costs.train, b.costs.train), MergeChannels(a.costs.test, b.costs.test)),
       scores := PerSplit(MergeChannels(a.scores.train, b.scores.train), MergeChannels(a.scores.test, b.scores.test)))
  }

  /**
   * append_metric, per split: lists are self ++ other; a key in both maps
   * has self's plots then other's, a key only in other is adopted, a key
   * only in self is kept, and the keys are the union; a well-formed pair
   * gives a well-formed ledger.
   */
  lemma MergeLedgerSpec(a: Ledger, b: Ledger, s: Split)
    requires a.Valid() && b.Valid()
    ensures var r := MergeLedger(a, b);
            r.model == a.model && r.yPred == a.yPred && r.yTrue == a.yTrue &&
            r.error.Get(s) == a.error.Get(s) + b.error.Get(s) &&
            r.cost.Get(s) == a.cost.Get(s) + b.cost.Get(s) &&
            r.costs.Get(s).series.Keys == a.costs.Get(s).series.Keys + b.costs.Get(s).series.Keys &&
            r.scores.Get(s).series.Keys == a.scores.Get(s).series.Keys + b.scores.Get(s).series.Keys &&
            (forall k :: r.costs.Get(s).Get(k) == a.costs.Get(s).Get(k) + b.costs.Get(s).Get(k)) &&
            (forall k :: r.scores.Get(s).Get(k) == a.scores.Get(s).Get(k) + b.scores.Get(s).Get(k))
  {
    MergeChannelsSpec(a.costs.Get(s), b.costs.Get(s));
    MergeChannelsSpec(a.scores.Get(s), b.scores.Get(s));
  }

  /** append_metric keeps ledgers well formed. */
  lemma MergeLedgerValid(a: Ledger, b: Ledger)
    requires a.Valid() && b.Valid()
    ensures MergeLedger(a, b).Valid()
  {
    MergeSplitValid(a, b, Train);
    MergeSplitValid(a, b, Test);
  }

  lemma MergeSplitValid(a: Ledger, b: Ledger, s: Split)
    requires a.SplitValid(s) && b.SplitValid(s)
    ensures MergeLedger(a, b).SplitValid(s)
  {
    MergeFirstValid(a.costs.Get(s), b.costs.Get(s), |b.costs.Get(s).order|);
    MergeFirstValid(a.scores.Get(s), b.scores.Get(s), |b.scores.Get(s).order|);
    MergeChannelsAligned(a.costs.Get(s), b.costs.Get(s));
    MergeChannelsAligned(a.scores.Get(s), b.scores.Get(s));
    AllAlignedConcat(a.error.Get(s), b.error.Get(s));
    AllAlignedConcat(a.cost.Get(s), b.cost.Get(s));
  }

  lemma AllAlignedConcat(p: seq<PlotData>, q: seq<PlotData>)
    requires AllAligned(p) && AllAligned(q)
    ensures AllAligned(p + q)
  {
    forall i | 0 <= i < |p + q| ensures (p + q)[i].Aligned() {
      if i >= |p| {
        assert (p + q)[i] == q[i - |p|];
      }
    }
  }

  /** Merging in a ledger that was just reset changes nothing. */
  lemma MergeClearedIsIdentity(a: Ledger, b: Ledger)
    ensures MergeLedger(a, Cleared(b)) == a
  {
    assert a.error.train + [] == a.error.train && a.error.test + [] == a.error.test;
    assert a.cost.train + [] == a.cost.train && a.cost.test + [] == a.cost.test;
  }

  /**
   * The score get_score_prediction reports for one sample: accuracy for a
   * classifier, mean squared error for a regressor.
   */
  function PredictionScore(m: ModelInfo, target: seq<real>, output: seq<real>): (r: real)
    requires |output| == |target| > 0
    ensures 0.0 <= r
    ensures m.isClassifier ==> r <= 1.0 && (r == 1.0 <==> target == output)
    ensures !m.isClassifier ==> (r == 0.0 <==> target == output)
  {
    if m.isClassifier then
      AccuracyOneIff(target, output);
      Accuracy(target, output)
    else
      ScoreRmsZeroIff(output, target);
      ScoreRms(output, target)
  }

  /**
   * The second half of append_data: the sub-costs (only when the model
   * declares more than one cost) and then the scores, each an add_data run
   * continuing from the index the previous one returned.
   */
  method RecordChannels(m: ModelInfo, costs: Channels, scores: Channels, data: seq<real>, epoch: real)
    returns (ch: Channels, sc: Channels, n: nat)
    requires StepWidth(m) <= |data| && StepWidth(m) <= |m.resultLabels|
    ensures ch == RecordRange(costs, m.resultLabels, data, m.name, epoch, 2, 2 + CostsConsumed(m))
    ensures sc == RecordRange(scores, m.resultLabels, data, m.name, epoch, 2 + CostsConsumed(m), StepWidth(m))
    ensures n == StepWidth(m) - 1
  {
    ch, n := costs, 1;
    if m.nCosts > 1 {
      ch, n := AddData(m.resultLabels, m.name, ch, m.nCosts, n, data, epoch);
    }
    sc, n := AddData(m.resultLabels, m.name, scores, m.nScores, n, data, epoch);
  }

  /** A BaseMetrics object: one model's ledger, updated in place. */
  class BaseMetrics {
    const model: ModelInfo
    var error: PerSplit<seq<PlotData>>
    var cost: PerSplit<seq<PlotData>>
    var costs: PerSplit<Channels>
    var scores: PerSplit<Channels>
    var yPred: seq<seq<real>>
    var yTrue: seq<seq<real>>

    /** The ledger this object currently holds. */
    function Value(): (l: Ledger)
      reads this
      ensures l.model == model
    {
      Ledger(model, error, cost, costs, scores, yPred, yTrue)
    }

    constructor (model: ModelInfo)
      ensures Value() == NewLedger(model)
    {
      this.model := model;
      error := NoPlots;
      cost := NoPlots;
      costs := NoMaps;
      scores := NoMaps;
      yPred := [];
      yTrue := [];
    }

    /** reset: empty every series container; keep predictions and targets. */
    method Reset()
      modifies this
      ensures Value() == Cleared(old(Value()))
    {
      error := NoPlots;
      cost := NoPlots;
      costs := NoMaps;
      scores := NoMaps;
    }

    /**
     * append_data: reject an unknown split before touching anything;
     * otherwise record one training-step tuple and return the index of the
     * last value read.
     */
    method AppendData(data: seq<real>, epoch: real, split: string) returns (r: Result<nat, LedgerError>)
      modifies this
      requires ParseSplit(split).Some? ==> StepWidth(model) <= |data| && StepWidth(model) <= |model.resultLabels|
      ensures ParseSplit(split).None? ==> r == Err(InvalidSplit) && Value() == old(Value())
      ensures ParseSplit(split).Some? ==>
                r == Ok(StepWidth(model) - 1) &&
                Value() == AppendStep(old(Value()), ParseSplit(split).value, data, epoch)
    {
      match ParseSplit(split)
      case None =>
        r := Err(InvalidSplit);
      case Some(s) =>
        var n := RecordStep(s, data, epoch);
        r := Ok(n);
    }

    /** append_data once the split is known: record the tuple, return the last index read. */
    method RecordStep(s: Split, data: seq<real>, epoch: real) returns (n: nat)
      modifies this
      requires StepWidth(model) <= |data| && StepWidth(model) <= |model.resultLabels|
      ensures n == StepWidth(model) - 1
      ensures Value() == AppendStep(old(Value()), s, data, epoch)
    {
      var labels, name := model.resultLabels, model.name;
      var e := AddPointTo(error.Get(s), epoch, data[0], labels[0], name);
      var c := AddPointTo(cost.Get(s), epoch, data[1], labels[1], name);
      var ch, sc;
      ch, sc, n := RecordChannels(model, costs.Get(s), scores.Get(s), data, epoch);
      error, cost, costs, scores := error.Set(s, e), cost.Set(s, c), costs.Set(s, ch), scores.Set(s, sc);
    }

    /**
     * append_metric: merge another ledger into this one, split by split.
     * The other ledger is read before anything changes, so merging a ledger
     * into itself doubles every series.
     */
    method AppendMetric(other: BaseMetrics)
      modifies this
      ensures Value() == MergeLedger(old(Value()), old(other.Value()))
    {
      var o := other.Value();
      MergeSplit(Train, o);
      MergeSplit(Test, o);
    }

    /** The body of append_metric's loop for one split. */
    method MergeSplit(s: Split, o: Ledger)
      modifies this
      ensures error == old(error).Set(s, old(error).Get(s) + o.error.Get(s))
      ensures cost == old(cost).Set(s, old(cost).Get(s) + o.cost.Get(s))
      ensures costs == old(costs).Set(s, MergeChannels(old(costs).Get(s), o.costs.Get(s)))
      ensures scores == old(scores).Set(s, MergeChannels(old(scores).Get(s), o.scores.Get(s)))
      ensures yPred == old(yPred) && yTrue == old(yTrue)
    {
      error := error.Set(s, error.Get(s) + o.error.Get(s));
      cost := cost.Set(s, cost.Get(s) + o.cost.Get(s));
      var ch := MergeInto(costs.Get(s), o.costs.Get(s));
      costs := costs.Set(s, ch);
      var sc := MergeInto(scores.Get(s), o.scores.Get(s));
      scores := scores.Set(s, sc);
    }

    /**
     * append_prediction, given the model's output for the sample: record
     * the output and the target, and return the sample's score.
     */
    method AppendPrediction(output: seq<real>, target: seq<real>) returns (score: real)
      modifies this
      requires |output| == |target| > 0
      ensures yPred == old(yPred) + [output] && yTrue == old(yTrue) + [target]
      ensures error == old(error) && cost == old(cost) && costs == old(costs) && scores == old(scores)
      ensures score == PredictionScore(model, target, output)
    {
      yPred := yPred + [output];
      yTrue := yTrue + [target];
      score := PredictionScore(model, target, output);
    }
  }
}
