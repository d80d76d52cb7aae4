# Metrics ledgers and ensemble combiners

This project models the bookkeeping and combining core of a deep-ensemble
library:

- **Plot series (`Plots`).** A `DataPlot` is a named series of (x, y) points.
  Most often x is the training epoch and y a cost or a score.
- **Channels (`Channels`).** A ledger keeps insertion-ordered maps from a
  result label to its list of plots. `AddData` records a window of a model's
  result tuple into such a map. `MergeChannels` merges one map into another.
- **Ledgers (`Metrics`).** `BaseMetrics` is one model's ledger, with one part
  per data split (`train` / `test`). Each part holds:
  - the error series;
  - the total-cost series;
  - the map of sub-costs;
  - the map of scores.

  `append_data` records one result tuple in the ledger and returns the index
  of the last value it read. `append_metric` concatenates another ledger onto
  this one. `append_prediction` stores a prediction and its target, and
  scores it: accuracy for a classifier, mean squared error for a regressor.
- **Ensemble ledgers (`Ensembles`).** `EnsembleMetrics` is the ledger of an
  ensemble. It keeps:
  - the ledger of the ensemble itself;
  - one ledger per member, keyed by the member's name;
  - per-member predictions.

  Its `append_data` reads the ensemble's own window of the result tuple first.
  It then reads, member after member, each member's total cost, sub-costs and
  scores.
- **Plot alignment (`Alignment`).** Several series are laid out side by side
  as columns. Shorter columns are padded with missing values (NaN in the
  source).
- **Scores (`Scores`).** These are the score functions:
  - accuracy;
  - the dummy score;
  - the classifier accuracy score;
  - the ensemble ambiguity;
  - the RMS-like score.
- **Combiners (`Combiners`).**
  - Averaging and plurality voting.
  - A weighted sum with one weight per member. Its weights follow the
    closed-form update of Perrone and Cooper: each weight is proportional to
    the inverse of the member's error correlation with the total error, and
    the weights are normalised to sum to one.
  - Weighted voting on top of the weighted sum.

State that the source changes in place takes the form of classes with
`modifies` clauses: `DataPlot`, `BaseMetrics`, `EnsembleMetrics` and
`WeightAverageCombiner`. The three ledger classes are specified by a value
function (`Data()` or `Value()`); `WeightAverageCombiner` is specified by
its `weights` field. The properties are proved about the pure functions
those methods are tied to. Tensors are sequences of reals. Python floats
are reals.

Source paths below are relative to the repository root.

## Model

| member | source | states |
|---|---|---|
| Plots.DataPlot.constructor | deepensemble/metrics/basemetrics.py:56-61 | A new plot carries its name and type, and no points. |
| Plots.DataPlot.Reset | deepensemble/metrics/basemetrics.py:63-67 | Reset empties both coordinate lists and keeps the name and type. |
| Plots.DataPlot.SetData | deepensemble/metrics/basemetrics.py:99-111 | set_data replaces the coordinates with exactly the given lists. |
| Plots.DataPlot.GetData | deepensemble/metrics/basemetrics.py:113-121 | get_data returns the stored x and y lists. |
| Plots.DataPlot.LenData | deepensemble/metrics/basemetrics.py:123-131 | len_data is the number of x values. |
| Plots.DataPlot.AddPoint | deepensemble/metrics/basemetrics.py:133-145 | add_point appends x and y at the end. An aligned plot (as many x as y) stays aligned and grows by one point. |
| Plots.AddPointTo | deepensemble/metrics/basemetrics.py:578-601 | The static add_point: the list keeps its length (or gets one plot when empty), its first plot (created when the list is empty) gains (x, y) at the end, and every other plot is unchanged. |
| Plots.AddPointToAligned | deepensemble/metrics/basemetrics.py:578-601 | The static add_point keeps every plot in a list aligned, including a freshly created first plot. |
| Plots.AddPointToIsExtended | deepensemble/metrics/basemetrics.py:578-601 | The static add_point adds the point to the first plot, creating that plot only when the list is empty. |
| Plots.ExtendedThenAddPoint | deepensemble/metrics/basemetrics.py:578-601 | Adding point after point to a list accumulates them in order on the same first plot. |
| Channels.PutValid | deepensemble/metrics/basemetrics.py:486-492 | Assigning a key keeps the ordered map well formed: every key is listed exactly once, and a new key goes last. |
| Channels.ValidKeys | deepensemble/metrics/basemetrics.py:486-492 | In a well-formed ordered map, a key is present exactly when its order lists it. |
| Channels.RecordGet | deepensemble/metrics/basemetrics.py:488-492 | Recording one value under a label changes only that label's list. |
| Channels.RecordRangeGet | deepensemble/metrics/basemetrics.py:455-492 | add_data reads exactly positions index+1 .. index+n_data. The list under each label gains, in order and at x = epoch, the values at the positions carrying that label. Every other list is unchanged. |
| Channels.RecordRange | deepensemble/metrics/basemetrics.py:486-492 | Recording positions lo .. hi keeps the key order and lengthens it by at most one key per value read. |
| Channels.RecordAfter | deepensemble/metrics/basemetrics.py:455-492 | add_data's window of n values lengthens the key order by at most n keys and keeps the old ones. |
| Channels.RecordRangeValid | deepensemble/metrics/basemetrics.py:486-492 | add_data keeps the ordered map well formed and only appends to its key order. |
| Channels.RecordRangeKeys | deepensemble/metrics/basemetrics.py:486-492 | After add_data the keys are the old keys plus every label read. |
| Channels.RecordRangeAligned | deepensemble/metrics/basemetrics.py:486-492 | add_data keeps every plot aligned. |
| Channels.AddData | deepensemble/metrics/basemetrics.py:455-492 | The loop records the window of labelled values and returns index + n_data. |
| Channels.MergeFirstGet | deepensemble/metrics/basemetrics.py:397-408 | After merging the first n keys of the other map, a key among them holds self's plots followed by the other's. Any other key is unchanged. |
| Channels.MergeFirstValid | deepensemble/metrics/basemetrics.py:397-408 | The merge loop keeps the map well formed. |
| Channels.MergeFirstKeys | deepensemble/metrics/basemetrics.py:397-408 | After n steps the keys are self's keys plus the other's first n keys. |
| Channels.MergeChannelsSpec | deepensemble/metrics/basemetrics.py:397-408 | Merging maps: a key in both gets self's plots followed by the other's, a key only in the other is adopted, and a key only in self is kept. The keys are the union, and the result is well formed. |
| Channels.MergeChannels | deepensemble/metrics/basemetrics.py:397-408 | Merging keeps self's key order and lengthens it by at most the other map's number of keys. |
| Channels.MergeChannelsAligned | deepensemble/metrics/basemetrics.py:397-408 | Merging keeps every plot aligned. |
| Channels.MergeFirstNext | deepensemble/metrics/basemetrics.py:399-402 | One loop iteration concatenates under a present key and adopts under an absent one. |
| Channels.MergeInto | deepensemble/metrics/basemetrics.py:397-408 | The key loop run over the other map's order computes the merge. |
| Metrics.ParseSplit | deepensemble/metrics/basemetrics.py:283-284 | Only "train" and "test" name a split. Any other string is the error case. |
| Metrics.PerSplit.Set | deepensemble/metrics/basemetrics.py:191-199 | Writing one split's entry reads back the new value and leaves the other split unchanged. |
| Metrics.CostsConsumed | deepensemble/metrics/basemetrics.py:294-297 | Sub-costs read n_costs values when the model declares more than one cost, and none otherwise. |
| Metrics.NewLedger | deepensemble/metrics/basemetrics.py:191-199 | A new ledger is well formed, with empty error and cost lists, empty maps and no predictions, for both splits. |
| Metrics.Cleared | deepensemble/metrics/basemetrics.py:256-262 | reset clears every series and map and keeps the stored predictions. |
| Metrics.AppendStep | deepensemble/metrics/basemetrics.py:264-300 | append_data on split s: the first error plot's y values end with data[0] and the first cost plot's with data[1], each plot created when its list is empty. The other split, the model and the predictions are unchanged. |
| Metrics.AppendStepTotals | deepensemble/metrics/basemetrics.py:288-292 | The error list gains (epoch, data[0]) and the cost list gains (epoch, data[1]). Each point goes on the list's first plot, which is created when the list is empty. |
| Metrics.AppendStepChannels | deepensemble/metrics/basemetrics.py:294-300 | Each sub-cost label gains the values labelled with it among positions 2 .. 2+n_costs. This happens only with more than one cost; otherwise the map is untouched. Scores gain the values among the n_scores positions that follow. |
| Metrics.AppendStepKeys | deepensemble/metrics/basemetrics.py:294-300 | The sub-cost and score maps gain exactly the labels of the positions they read. |
| Metrics.AppendStepValid | deepensemble/metrics/basemetrics.py:264-300 | append_data keeps a well-formed ledger well formed: maps ordered and plots aligned. |
| Metrics.MergeLedgerSpec | deepensemble/metrics/basemetrics.py:388-408 | append_metric, per split: self's error and cost lists are followed by the other's, and the maps are merged key by key. |
| Metrics.MergeLedger | deepensemble/metrics/basemetrics.py:388-408 | append_metric: on every split self's error and cost lists are followed by the other's; the model and the predictions stay self's. |
| Metrics.MergeLedgerValid | deepensemble/metrics/basemetrics.py:388-408 | append_metric keeps a well-formed ledger well formed. |
| Metrics.MergeSplitValid | deepensemble/metrics/basemetrics.py:396-408 | One split's merge keeps that split well formed. |
| Metrics.AllAlignedConcat | deepensemble/metrics/basemetrics.py:397-398 | Concatenated plot lists stay aligned. |
| Metrics.MergeClearedIsIdentity | deepensemble/metrics/basemetrics.py:388-408 | Appending a reset ledger changes nothing. |
| Metrics.PredictionScore | deepensemble/metrics/basemetrics.py:432-452 | For a classifier the score is an accuracy in [0, 1], equal to 1 exactly when the prediction equals the target. For a regressor it is a mean squared error ≥ 0, equal to 0 exactly when the prediction equals the target. |
| Metrics.RecordChannels | deepensemble/metrics/basemetrics.py:294-300 | The two add_data runs record the sub-cost window, then the score window. The returned index is the last position read. |
| Metrics.BaseMetrics.constructor | deepensemble/metrics/basemetrics.py:191-199 | A new ledger is the empty ledger of its model. |
| Metrics.BaseMetrics.Reset | deepensemble/metrics/basemetrics.py:256-262 | reset yields the cleared ledger. |
| Metrics.BaseMetrics.AppendData | deepensemble/metrics/basemetrics.py:264-300 | An unknown split is an error that changes nothing. Otherwise the ledger becomes AppendStep of the old one, and the result is the last index read. |
| Metrics.BaseMetrics.RecordStep | deepensemble/metrics/basemetrics.py:286-300 | Records one tuple on a split and returns the last index read. |
| Metrics.BaseMetrics.AppendMetric | deepensemble/metrics/basemetrics.py:388-408 | The ledger becomes the merge of the old one with the other's. |
| Metrics.BaseMetrics.MergeSplit | deepensemble/metrics/basemetrics.py:396-408 | One iteration of the split loop: that split's four parts are merged and the predictions are untouched. |
| Metrics.BaseMetrics.AppendPrediction | deepensemble/metrics/basemetrics.py:410-430 | Appends the prediction and the target, leaves every series unchanged, and returns the sample's score. |
| Alignment.NanRow | deepensemble/metrics/basemetrics.py:684-686 | A padding row holds c missing values. |
| Alignment.ResizeRows | deepensemble/metrics/basemetrics.py:664-688 | The resized table has nr rows. |
| Alignment.ResizeRowsWidth | deepensemble/metrics/basemetrics.py:664-688 | Resizing a c-wide table keeps it c wide. |
| Alignment.ResizeRowsRoundTrip | deepensemble/metrics/basemetrics.py:664-688 | Growing a table and shrinking it back returns the original. |
| Alignment.ResizeRowsSame | deepensemble/metrics/basemetrics.py:664-688 | Resizing to the current row count is the identity. |
| Alignment.ResizeRowsTwice | deepensemble/metrics/basemetrics.py:664-688 | Growing in two steps equals growing once to the final size. |
| Alignment.MaxLenBounds | deepensemble/metrics/basemetrics.py:660 | The running n is at least every column's length so far, and equals one of them. |
| Alignment.HStack | deepensemble/metrics/basemetrics.py:657-658 | Stacking side by side keeps the row count and adds the widths. |
| Alignment.PerColumn | deepensemble/metrics/basemetrics.py:633-661 | The stacked table has as many rows as the longest series and one column per series. Cell (i, j) is series j's i-th value, or missing past its end. |
| Alignment.MaxLenAligned | deepensemble/metrics/basemetrics.py:645 | For aligned plots the x and y columns have the same lengths, so the x and y tables have the same shape. |
| Alignment.PaddedGrow | deepensemble/metrics/basemetrics.py:650-652 | Resizing the stacked table to a longer column pads every column. |
| Alignment.StackNext | deepensemble/metrics/basemetrics.py:657-658 | Stacking the next padded column extends the table by that column. |
| Alignment.ColumnCells | deepensemble/metrics/basemetrics.py:653-655 | A short column resized to n rows reads its values, then missing cells. |
| Alignment.FirstColumn | deepensemble/metrics/basemetrics.py:646-648 | The first series alone is the one-column table. |
| Alignment.AddColumnStep | deepensemble/metrics/basemetrics.py:649-660 | One iteration, whether it grows the table, pads the column or neither, yields the table of the first k+1 series. |
| Alignment.GetDataPerCol | deepensemble/metrics/basemetrics.py:633-661 | No series gives no tables. Otherwise the loop returns the padded x and y tables. |
| Scores.CountMatches | deepensemble/utils/score_functions.py:47-49 | The number of matching positions is at most the number of targets. |
| Scores.Accuracy | deepensemble/utils/score_functions.py:47-49 | get_accuracy lies in [0, 1]. |
| Scores.CountMatchesAllIff | deepensemble/utils/score_functions.py:47-49 | Every position matches exactly when the prediction equals the target. |
| Scores.CountMatchesNoneIff | deepensemble/utils/score_functions.py:47-49 | No position matches exactly when every position differs. |
| Scores.AccuracyOneIff | deepensemble/utils/score_functions.py:47-49 | Accuracy is 1 exactly when the prediction equals the target. |
| Scores.AccuracyZeroIff | deepensemble/utils/score_functions.py:47-49 | Accuracy is 0 exactly when every position differs. |
| Scores.DummyScore | deepensemble/utils/score_functions.py:19-41 | Zeros of the target's shape. |
| Scores.ScoreRms | deepensemble/utils/score_functions.py:137-159 | The mean squared difference is ≥ 0. |
| Scores.ScoreRmsZeroIff | deepensemble/utils/score_functions.py:137-159 | It is 0 exactly when output equals target. |
| Scores.Deviations | deepensemble/utils/score_functions.py:101-102 | Each member's mean squared deviation from the ensemble output is ≥ 0. |
| Scores.EnsembleAmbiguity | deepensemble/utils/score_functions.py:79-103 | The ambiguity, a mean of member deviations, is ≥ 0. |
| Scores.EnsembleAmbiguityZeroIff | deepensemble/utils/score_functions.py:79-103 | The ambiguity is 0 exactly when every member's output equals the ensemble output. |
| Scores.ScoreAccuracy | deepensemble/utils/score_functions.py:53-75 | width · mean(target ⊙ output) equals the mean over samples of each row's target-weighted output: the width factor cancels. |
| Scores.ScoreAccuracyBounds | deepensemble/utils/score_functions.py:53-75 | With one-hot targets and probability outputs, the score lies in [0, 1]. |
| Ensembles.NewEnsemble | deepensemble/metrics/basemetrics.py:711-715 | A new ensemble ledger is well formed, with an empty own ledger, no member ledgers and no predictions. |
| Ensembles.OffsetMonotone | deepensemble/metrics/basemetrics.py:751-766 | The read position only moves forward, and member j's window ends before member k's starts for j < k. |
| Ensembles.MemberLedger | deepensemble/metrics/basemetrics.py:752-766 | A member's window lies inside the tuple, and its ledger (the existing one, or a new one) gains exactly one cost point (epoch, value at its start position) on the current split. The error list, the model, the predictions and the other split are untouched. |
| Ensembles.MemberLedgerCosts | deepensemble/metrics/basemetrics.py:760-762 | A member's sub-costs gain the values among its next n_costs positions, by label. Unlike the ensemble's own step, this happens even with one cost. |
| Ensembles.MemberLedgerScores | deepensemble/metrics/basemetrics.py:764-766 | A member's scores gain the values among the n_scores positions after its sub-costs. |
| Ensembles.MemberLedgerValid | deepensemble/metrics/basemetrics.py:751-766 | One member's update keeps its ledger well formed. |
| Ensembles.MembersUpTo | deepensemble/metrics/basemetrics.py:751-766 | After the loop over the first k members, each of them has a ledger and no existing ledger is dropped. |
| Ensembles.MembersAt | deepensemble/metrics/basemetrics.py:751-766 | After the loop, each member (names unique) holds its previous ledger, or a new one, updated with its own window. |
| Ensembles.MembersValid | deepensemble/metrics/basemetrics.py:751-766 | The loop keeps every member ledger well formed. |
| Ensembles.MembersKeys | deepensemble/metrics/basemetrics.py:751-766 | The member ledgers afterwards are the old ones plus one per member name. Ledgers under other names are unchanged. |
| Ensembles.GuardAsWrittenNeverSkips | deepensemble/metrics/basemetrics.py:746-748 | The guard as written always holds after the base step, even when the tuple has nothing left to read. |
| Ensembles.GuardAsWrittenCounterexample | deepensemble/metrics/basemetrics.py:746-758 | For an ensemble with labels ["error", "cost"] (one cost, no scores) and one member, on data [0.5, 0.25] the guard as written holds, while member 0's read position is 2 = len(data): its window does not fit in the tuple, where the source raises IndexError. The corrected guard is false there, so the member loop is skipped. |
| Ensembles.HasMemberDataIff | deepensemble/metrics/basemetrics.py:746-748 | After the ensemble's own part, the corrected guard holds exactly when the tuple is longer than that part. It implies the guard as written, and the two differ only on a tuple of exactly that length. |
| Ensembles.EnsembleAppendStep | deepensemble/metrics/basemetrics.py:727-768 | append_data leaves the members and the predictions alone and drops no member ledger. With member data every member has a ledger afterwards; without it the member ledgers stay as they were. |
| Ensembles.BaseOnlyTuple | deepensemble/metrics/basemetrics.py:746-768 | Under the corrected guard, a tuple holding only the ensemble's own values is accepted, leaves the member ledgers untouched, and returns its last index. |
| Ensembles.EnsembleAppendStepValid | deepensemble/metrics/basemetrics.py:727-768 | append_data keeps the ensemble ledger well formed. |
| Ensembles.PredictionsAddedSpec | deepensemble/metrics/basemetrics.py:806-810 | Each member's prediction list gains that member's output, created empty when absent. |
| Ensembles.PredictionsAdded | deepensemble/metrics/basemetrics.py:806-810 | After the loop every member has a prediction list and no list is dropped. |
| Ensembles.PredictionsAddedKeys | deepensemble/metrics/basemetrics.py:806-810 | The prediction map gains exactly the member names. |
| Ensembles.MergeSubs | deepensemble/metrics/basemetrics.py:820-827 | Member ledgers of the same name are merged self-then-other, a name only in the other ensemble is adopted, a name only in self is kept; the names are the union. |
| Ensembles.MergeSubsValid | deepensemble/metrics/basemetrics.py:820-827 | Merging member ledgers gives the union of names, and every ledger stays well formed. |
| Ensembles.MergeSubsEmpty | deepensemble/metrics/basemetrics.py:820-827 | Merging no member ledgers changes nothing. |
| Ensembles.AdoptOrMerge | deepensemble/metrics/basemetrics.py:828-832 | Appending one model's ledger adds its name to the member names and changes no other member ledger. |
| Ensembles.AdoptOrMergeIsMergeSubs | deepensemble/metrics/basemetrics.py:828-832 | Appending a single model's ledger is the member merge with a one-entry map. |
| Ensembles.EnsembleMetrics.constructor | deepensemble/metrics/basemetrics.py:711-715 | A new ensemble ledger is NewEnsemble of its model and members. |
| Ensembles.EnsembleMetrics.AppendData | deepensemble/metrics/basemetrics.py:727-768 | An unknown split is an error that changes nothing. Otherwise the ledger becomes the append step, and the result is the last index read. The member loop runs under the corrected guard len(data) > n + 1 (see Findings): on [0.5, 0.25] with one member it returns Ok(1), where the source raises IndexError. |
| Ensembles.EnsembleMetrics.RecordMembers | deepensemble/metrics/basemetrics.py:751-766 | The member loop computes the folded member ledgers and the final read position. |
| Ensembles.EnsembleMetrics.RecordNext | deepensemble/metrics/basemetrics.py:751-766 | One iteration advances the fold and the read position by one member. |
| Ensembles.EnsembleMetrics.RecordMember | deepensemble/metrics/basemetrics.py:752-766 | One member's cost and two add_data runs produce its updated ledger and end position. |
| Ensembles.EnsembleMetrics.AppendPredictionPerModel | deepensemble/metrics/basemetrics.py:789-810 | The target is appended once, and each member's output goes under its name. |
| Ensembles.EnsembleMetrics.AppendPrediction | deepensemble/metrics/basemetrics.py:770-787 | Records the per-member outputs, then the ensemble's own prediction and target, and returns its score. |
| Ensembles.EnsembleMetrics.AppendEnsembleMetric | deepensemble/metrics/basemetrics.py:820-827 | Member ledgers are merged by name and the own ledger is merged. |
| Ensembles.EnsembleMetrics.MergeMembers | deepensemble/metrics/basemetrics.py:821-825 | The name loop computes the member merge. |
| Ensembles.EnsembleMetrics.AppendModelMetric | deepensemble/metrics/basemetrics.py:828-832 | A single model's ledger is merged into the member of that name, or adopted. |
| Combiners.Average | deepensemble/combiner/averagecombiner.py:33-37 | Each component of the average is the mean of the members' values in that component. |
| Combiners.AverageOutput | deepensemble/combiner/averagecombiner.py:33-37 | The loop that adds the member outputs one by one and divides by their number computes the average. |
| Combiners.AverageConstant | deepensemble/combiner/averagecombiner.py:33-37 | Members that all output v average to v. |
| Combiners.LabelAt | deepensemble/combiner/averagecombiner.py:76-78 | Indexing the target labels succeeds exactly when the index is in range. |
| Combiners.PluralityPredict | deepensemble/combiner/averagecombiner.py:74-78 | The prediction is the label at the index decoded from the averaged output, and there is none exactly when that index is out of range. |
| Combiners.WeightedSum | libml/combiner/weightaveragecombiner.py:63-71 | Each component of the output is the sum over members of output times weight. |
| Combiners.WeightedSumOnes | libml/combiner/weightaveragecombiner.py:41-44 | With the initial all-ones weights, the output is the plain sum of the member outputs. |
| Combiners.WeightedSumUniform | libml/combiner/weightaveragecombiner.py:63-71 | With all weights 1/n, the weighted output equals the average combiner's. |
| Combiners.PerroneCooper | libml/combiner/weightaveragecombiner.py:98-111 | One weight per member; the weights sum to 1, and each weight times its member's error correlation with the total error is the same constant, 1 / Σ d. |
| Combiners.WeightAverageCombiner.constructor | libml/combiner/weightaveragecombiner.py:41-44 | n_models weights, all 1. |
| Combiners.WeightAverageCombiner.Output | libml/combiner/weightaveragecombiner.py:63-71 | The loop computes the weighted sum of the member outputs. |
| Combiners.WeightAverageCombiner.UpdateParameters | libml/combiner/weightaveragecombiner.py:92-111 | The weights become the normalised inverse correlations of the first n_models members' errors. |
| Combiners.WeightAverageCombiner.TotalError | libml/combiner/weightaveragecombiner.py:98-100 | The loop computes the sum of the member errors. |
| Combiners.WeightAverageCombiner.InverseCorrelations | libml/combiner/weightaveragecombiner.py:102-107 | The loop computes each d_i = 1 / mean(total error · error_i) and their sum. |
| Combiners.WeightedVotingPredict | libml/combiner/weightaveragecombiner.py:135-151 | The prediction is the label at the index decoded from the weighted output, and there is none exactly when that index is out of range. |
| Combiners.WeightedVotingUniform | libml/combiner/weightaveragecombiner.py:135-151 | With all weights 1/n, weighted voting equals plurality voting. |

## Left out

- Plotting (`plot`, `plot_cost`, `plot_costs`, `plot_scores`, `plot_data`, `plot_list_data`) and the name and type getters and setters: these draw with matplotlib or only read a field.
- `get_cost`, `get_costs`, `get_scores`, `get_model` and `get_models_metric`: plain field reads, visible through `Value()`.
- `FactoryMetrics` is not part of this model. A member's new ledger is `NewLedger` of the member's model description.
- Model objects (`get_result_labels`, `get_costs`, `get_scores`, `is_classifier`, `predict`, `output`, `error`, `get_target_labels`) are not part of this model. They become the `ModelInfo` record and explicit arguments: member outputs, errors and predictions are passed in.
- `get_index_label_classes` is not part of this model. It is a `decode` parameter from the combined output to a class index.
- Theano machinery: shared variables, the symbolic branch of `WeightAverageCombiner.output`, `.eval()` and the update dictionary returned by `update_parameters`. The model applies the update directly to the weights and works on concrete values only.
- `np.squeeze`, NumPy array shapes and dtypes: outputs and targets are flat sequences of reals. Tables are sequences of rows, and NaN is an absent cell.
- `accuracy_score` and `mean_squared_error` (scikit-learn) are modelled by `Accuracy` and `ScoreRms` on flat vectors.
- `score_silverman` and the mutual-information scores: they rely on kernel density estimates outside the core.
- Floating point: reals are exact, so rounding, `inf` and `nan` are not modelled. A division by zero the source would hit is a precondition: an empty ensemble in `Average` and in `EnsembleAmbiguity` (`sum(err) / ensemble.get_num_models()`, deepensemble/utils/score_functions.py:103), a zero correlation or a zero Σ d in the Perrone–Cooper update, and an empty target in `get_accuracy`.
- An `IndexError` raised part-way through `append_data` (a tuple or label list shorter than the model declares) is excluded by preconditions. The one case where the guard itself lets the short tuple through is recorded under Findings.
- Object identity: ledgers are values. After `append_metric` adopts another ledger's list or member ledger, Python shares that object between the two ledgers. The model copies it, so a later update through one of them is not seen by the other.
- `EnsembleMetrics.append_metric` walks the other ensemble's member dictionary in insertion order. The model merges by name, which gives the same contents because each name is merged once. The member dictionaries are maps, so the insertion order of their names is not kept; in the source only plotting reads that order.
- The ensemble's member list is fixed when its ledger is created. The source reads it from the ensemble model at each call.
- Combiners.WeightAverageCombiner.UpdateParameters: it uses the first n_models errors, as the source's loops do. When the ensemble has fewer members than n_models, the source fails with an index error; here the precondition excludes that case.
- Combiners.WeightAverageCombiner.Output: requires at most as many member outputs as weights. With more members than n_models, the source's `params[i]` (libml/combiner/weightaveragecombiner.py:69-70) raises IndexError; that error path is not modelled.
- Combiners.WeightedVotingPredict: same precondition and the same unmodelled IndexError, since it calls the weighted output.
- Channels.RecordRange, Channels.RecordAfter: the contracts bound only the key order. What each list gains is stated by RecordRangeGet and the key set by RecordRangeKeys; a key-set ensures on the recursive function makes the ledger proofs too slow.
- Channels.MergeChannels: the contract bounds only the key order. The merged contents and keys are stated by MergeChannelsSpec, for the same reason.
- Ensembles.MembersUpTo, Ensembles.PredictionsAdded, Ensembles.EnsembleAppendStep: the contracts say that every member gets an entry and none is dropped. That no other name appears, and what each entry holds, are stated by MembersKeys, MembersAt, PredictionsAddedKeys and PredictionsAddedSpec.
- The weighted voting combiner's constructor only sets the model type and has no state of its own to model.

## Findings

| source | as written | input that shows it | evidently intended | confidence | as-written member | corrected member |
|---|---|---|---|---|---|---|
| deepensemble/metrics/basemetrics.py:748 | `if len(data) > n:` guards the member loop, where `n` is the index of the last value the ensemble's own step read, so it always holds | ensemble with result labels ["error", "cost"], one cost, no scores and at least one member; `data = [0.5, 0.25]`: the base step returns n = 1, the guard passes, and the first member reads `data[2]` | `len(data) > n + 1`, so the member loop runs only when values remain after position n | not executed | Ensembles.GuardAsWrittenCounterexample | Ensembles.BaseOnlyTuple |
