# Classifiers of the neuro-umd bundle, modelled in Dafny

The bundle `dist/index.umd.js` has two learners for sparse and dense feature
vectors. This project models both, together with the helpers they share, and
proves what each operation computes:

- **svm.js.** `SVM` is a support vector machine trained by Simplified SMO.
  Its kernels are linear, RBF or a caller's function. It offers margins,
  predictions, weights and a JSON snapshot. `SvmJs` is the bundle's adapter:
  it maps outputs to labels +1/-1 and explains a linear SVM's decision by
  per-coordinate relevance.
- **WinnowHash.** This is a Balanced Winnow learner over feature hashes
  (feature name to number). It keeps a positive and a negative weight per
  feature and two averaging sums. It promotes and demotes weights
  multiplicatively after a mistake, and classifies the normalised input.
- **Hash helpers.** `add`, `multiply_scalar`, `sum_of_absolute_values` and
  `normalize_sum_of_values_to_1` work on feature hashes in place.

The modules are:

- `SparseHash` (sparse_hash.dfy): a JavaScript object is a list of entries in
  insertion order. `Wf` says each key occurs once. Objects the source edits in
  place are `FeatureHash` objects whose `entries` field the methods reassign.
- `Kernels` and `Ranking`: the kernels, and a stable descending sort plus
  truncation. Those stand for `Array.prototype.sort` with a comparator, and
  for `splice`/`slice`.
- `Smo`: the SMO solver stated on values. `SvmModel` holds `class Svm`, whose
  methods run the same loops on the object's fields. Each method is proved to
  end in the state the value functions give.
- `SvmJsModel`: the adapter class `SvmJs`.
- `WinnowModel`: Winnow stated on values. Each operation returns the new maps
  together with its result or the error it throws (`Step`).
- `WinnowLearner`: `class WinnowHash` with its four weight objects. Each
  method is proved equal to its `WinnowModel` counterpart.

Numbers are mathematical reals. `Math.exp` is a parameter of the SVM. The
random partner `randi` of the SMO loop is an oracle `partner(iter, i)`.

## Model

| member | source | states |
|---|---|---|
| Wrappers.OrDefault | dist/index.umd.js:45-47 | `options.x \|\| d`: an absent option or 0 gives the default, any other value is kept |
| Wrappers.OrDefaultInt | dist/index.umd.js:48-49 | the same for the integer options `maxiter` and `numpasses` |
| Wrappers.Abs | dist/index.umd.js:111 | `Math.abs(x)`: non-negative, and either `x` or `-x` |
| Wrappers.InOrDefault | dist/index.umd.js:752-758 | `'k' in opts ? opts.k : d`: a present option is kept even when 0 |
| Kernels.Zeros | dist/index.umd.js:345-349 | `zeros(n)` has length n and every entry 0 |
| Kernels.LinearKernel | dist/index.umd.js:333-337 | `linearKernel(v1, v2)`, the sum of `v1[q] * v2[q]` for q < `v1.length`; its properties are LinearKernelSymmetric and LinearKernelPrefix |
| Kernels.RbfKernel | dist/index.umd.js:325-331 | `makeRbfKernel(sigma)(v1, v2)`, `exp(-s / (2 sigma^2))` with s the squared distance over q < `v1.length`; its properties are the SqDist lemmas and RbfSymmetric |
| Kernels.LinearKernelSymmetric | dist/index.umd.js:333-337 | the dot product of two vectors of equal length does not depend on argument order |
| Kernels.LinearKernelPrefix | dist/index.umd.js:333-337 | the loop runs over `v1.length`, so only that many coordinates of `v2` matter |
| Kernels.SqDistNonNegative | dist/index.umd.js:325-331 | the RBF kernel's squared distance is never negative |
| Kernels.SqDistSelf | dist/index.umd.js:325-331 | a vector's squared distance to itself is 0 |
| Kernels.SqDistSymmetric | dist/index.umd.js:325-331 | the squared distance is symmetric |
| Kernels.SqDistPrefix | dist/index.umd.js:328 | only the first `v1.length` coordinates of `v2` enter the distance |
| Kernels.RbfSymmetric | dist/index.umd.js:325-331 | `makeRbfKernel(sigma)` is symmetric in its two vectors |
| SparseHash.AddAllSpec | dist/index.umd.js:445-453 | `add(target, source)` (own keys only, see Left out): keys are the union, each value is the sum of both (absent as 0), old keys keep their positions, new keys come after them |
| SparseHash.AddAll | dist/index.umd.js:445-453 | `add(target, source)` on values, one source entry at a time: the result is at least as long as the target and gains at most one entry per source key; AddAllSpec gives keys and values |
| SparseHash.AddFeature | dist/index.umd.js:446-450 | one iteration of `add`: the key is created with 0 if missing, then `source`'s value is added |
| SparseHash.Add | dist/index.umd.js:445-453 | the target's entries become the sum of both hashes, and the target stays well formed |
| SparseHash.Scale | dist/index.umd.js:460-466 | `multiply_scalar` on values: the same number of entries with the same key at each position; ScaleAt gives the values |
| SparseHash.ScaleAt | dist/index.umd.js:460-466 | after `multiply_scalar`, entry i has the same key and its value times the scalar |
| SparseHash.ScaleKeys | dist/index.umd.js:460-466 | scaling keeps every key in place, so the key set and well-formedness are kept |
| SparseHash.MultiplyScalar | dist/index.umd.js:460-466 | the target's entries become the scaled entries |
| SparseHash.SumAbsScale | dist/index.umd.js:460-476 | scaling by c > 0 multiplies the sum of absolute values by c |
| SparseHash.SumOfAbsoluteValues | dist/index.umd.js:468-476 | the result is the sum of the absolute values, and it is at least 0 |
| SparseHash.Normalize | dist/index.umd.js:478-485 | `normalize_sum_of_values_to_1` on values: same length and keys at each position, and a hash whose sum of absolute values is 0 is returned unchanged; NormalizeSpec gives the rest |
| SparseHash.SumAbsNonNegative | dist/index.umd.js:468-476 | the sum of absolute values is at least 0 |
| SparseHash.EntryBelowSumAbs | dist/index.umd.js:468-476 | each value's magnitude is at most the sum of absolute values |
| SparseHash.NormalizeSumOfValuesTo1 | dist/index.umd.js:482-485 | the hash's entries become the normalised entries |
| SparseHash.NormalizeSpec | dist/index.umd.js:478-485 | same keys in the same order; a hash whose sum is 0 is unchanged; otherwise the new sum of absolute values is 1 and each value is divided by the old sum, which puts it in [-1, 1] |
| SparseHash.NormalizeIdempotent | dist/index.umd.js:482-485 | normalising twice gives the same as normalising once |
| SparseHash.Restrict | dist/index.umd.js:786-790 | the `delete` loop of `editFeatureValues` on values: never longer than the input; RestrictSpec gives which keys remain |
| SparseHash.RestrictSpec | dist/index.umd.js:786-790 | deleting the unknown features leaves exactly the known keys, with their values |
| SparseHash.RestrictAllKnown | dist/index.umd.js:786-790 | when every key is known, nothing is deleted |
| Ranking.SortDescSpec | dist/index.umd.js:931-933 | the sort is a permutation, in descending key order, and stable: for each key the records keep their input order |
| Ranking.SortDesc | dist/index.umd.js:931-933 | `sort` with a `b - a` comparator, as stable insertion: one record out per record in; SortDescSpec gives permutation, order and stability |
| Ranking.Take | dist/index.umd.js:934 | truncating to n keeps the first min(n, length) records (none for n <= 0) |
| Ranking.TopRecords | dist/index.umd.js:930-934 | the top n records are a sub-multiset of the input, sorted, and no record left out ranks above one kept |
| Smo.Start | dist/index.umd.js:78-79 | `alpha = zeros(N)`, `b = 0`: one coefficient per sample; TrainingKeepsBox starts from it |
| Smo.KernelSum | dist/index.umd.js:213-216 | the kernel sum `sum_i alpha_i y_i K(x, x_i)` of `marginOne`; KernelSumZeroAlpha, DenseMarginAgrees and SvmModel.LinearMarginAgrees state its properties |
| Smo.Violates | dist/index.umd.js:91-92 | the KKT test; StepAtPair and StepAtQuiet state what a violating and a satisfying sample do |
| Smo.ConfigureSpec | dist/index.umd.js:43-72 | the kernel type names the kernel; "rbf" gets `rbfsigma` (default 0.5, never 0); any other string gives the linear kernel; a 0 option falls back to its default |
| Smo.Configure | dist/index.umd.js:43-72 | the options with their `\|\|` defaults: the kernel tag is "rbf" exactly for the RBF kernel and "custom" exactly for a caller's function, and the RBF width is never 0 |
| Smo.Bounds | dist/index.umd.js:102-109 | L and H for the two cases of the labels; BoundsInBox states them |
| Smo.BoundsInBox | dist/index.umd.js:102-109 | for coefficients in [0, C], the bounds satisfy 0 <= L <= H <= C |
| Smo.Clip | dist/index.umd.js:118-120 | the clipping of `newaj`; ClipInBounds states that it lands in [L, H] |
| Smo.ClipInBounds | dist/index.umd.js:118-120 | the clipped `newaj` lies in [L, H] |
| Smo.NewAlphaIInBox | dist/index.umd.js:123-124 | the matching `newai` stays in [0, C] |
| Smo.NewAlphaI | dist/index.umd.js:123 | `ai + y_i y_j (aj - newaj)`; NewAlphaIInBox and PairSumKept state that it stays in [0, C] and keeps the label sum |
| Smo.BiasAfter | dist/index.umd.js:127-133 | the bias after an update, from `b1` and `b2`; BiasAfterIs ties it to NewBias |
| Smo.NewBias | dist/index.umd.js:131-133 | `b2` when `newaj` is interior, else `b1` when `newai` is interior, else their mean; ChooseBias computes it in place |
| Smo.PairUpdate | dist/index.umd.js:99-133 | the update of one pair with its three skip tests; PairUpdateAccepted and PairUpdateSpec state what an accepted update is and keeps |
| Smo.PairSumKept | dist/index.umd.js:123-124 | the update keeps `y_i a_i + y_j a_j` |
| Smo.PairUpdateSpec | dist/index.umd.js:100-133 | an accepted pair update leaves both coefficients in [0, C], keeps `y_i a_i + y_j a_j`, and moves `a_j` by at least 1e-4 |
| Smo.Pair | dist/index.umd.js:121-124 | the accepted pair written into the solver: the coefficient vector keeps its length; PairSpec gives the rest |
| Smo.PairSpec | dist/index.umd.js:97-135 | a pair step keeps the box and the weighted sum of the labels, and changes only coefficients i and j |
| Smo.StepAtPair | dist/index.umd.js:88-137 | a sample that violates the KKT test is paired with its drawn partner; the change counter goes up exactly when the pair is updated |
| Smo.StepAtQuiet | dist/index.umd.js:90-92 | a sample that passes the KKT test changes nothing |
| Smo.SweepUpTo | dist/index.umd.js:87-138 | the inner `for` loop over the first i samples: the state keeps its shape; SweepUpToNext, RunSpec and SweepNeverThrows state the rest |
| Smo.StepAt | dist/index.umd.js:90-137 | one inner iteration on sample i: the state keeps its shape, only the bundled (strict) form throws, and only a single sample can hang |
| Smo.Run | dist/index.umd.js:83-145 | the outer `while` loop: when it ends, the state keeps its shape, `iter` has not decreased, and `passes >= numpasses` or `iter >= maxiter` |
| Smo.RunSpec | dist/index.umd.js:83-145 | with `ai` and `aj` declared (see Findings): the outer loop never throws; it runs forever only when N = 1; when it ends, the box and label sum are kept, passes >= numpasses or iter >= maxiter, and iter <= maxiter |
| Smo.TrainingKeepsBox | dist/index.umd.js:75-145 | from `alpha = zeros(N)`, the trained coefficients lie in [0, C] and `sum y_i a_i = 0` |
| Smo.DenseMarginAgrees | dist/index.umd.js:149-160 | the linear margin through the stored weights equals the kernel sum over the training data |
| Smo.Weights | dist/index.umd.js:149-160 | the dense weights of the linear kernel: one weight per coordinate; TrainLinear and DenseMarginAgrees give their value and meaning |
| Smo.SelectSpec | dist/index.umd.js:169-185 | compaction keeps exactly the samples with `alpha > alphatol`, in their original order |
| Smo.RetainedAboveTol | dist/index.umd.js:174-177 | every retained coefficient exceeds `alphatol` |
| Smo.Select | dist/index.umd.js:169-185 | the `alpha > alphatol` filter: never more than N entries; SelectSpec gives which ones |
| Smo.KernelSumZeroAlpha | dist/index.umd.js:214-216 | with all coefficients 0, the kernel sum of the margin is 0 |
| Smo.StrictTrainThrows | dist/index.umd.js:100-101 | as bundled under `'use strict'`, training on N >= 2 samples (C > 0, tol < 1) throws a ReferenceError in the first sweep |
| Smo.CorrectedTrainDoesNotThrow | dist/index.umd.js:83-145 | with `ai` and `aj` declared, training ends whenever N != 1; that it does not throw holds by construction, since no corrected step throws |
| SvmModel.Sign | dist/index.umd.js:222-224 | `m > 0 ? 1 : -1`, in both directions |
| SvmModel.Configured | dist/index.umd.js:40-73 | the fields that `train` sets from its arguments and options; TrainSpec and Svm.ApplyOptions state them |
| SvmModel.Finish | dist/index.umd.js:147-187 | the post-loop step; TrainLinear, TrainCompacts and TrainRbf state it for each kernel |
| SvmModel.Margin | dist/index.umd.js:197-220 | `marginOne(x)`: `b` alone when the weights are in use with D = 0, or when the kernel sum has no samples; LinearMarginAgrees ties the two paths |
| SvmModel.TrainSpec | dist/index.umd.js:37-192 | with `ai` and `aj` declared (see Findings), `train` on values: a TypeError exactly on empty data, and the kernel and its tag come from the options; TrainOutcome gives the rest |
| SvmModel.TrainOutcome | dist/index.umd.js:37-192 | with `ai` and `aj` declared (see Findings): `train` fails with a TypeError exactly on empty data; it hangs only for one sample; otherwise it returns 0 <= iters <= maxiter and leaves every coefficient in [0, C] |
| SvmModel.TrainLinear | dist/index.umd.js:149-160 | a linear SVM keeps its data and stores `w[j] = sum_i alpha_i y_i x_ij` for each of the D coordinates |
| SvmModel.LinearMarginAgrees | dist/index.umd.js:197-220 | the fast path through `w` gives the same margin as the kernel sum |
| SvmModel.TrainCompacts | dist/index.umd.js:161-187 | a non-linear SVM keeps exactly the support vectors (`alpha > alphatol`), in order, with their labels and coefficients |
| SvmModel.TrainRbf | dist/index.umd.js:61-66 | an RBF SVM records its sigma, uses the RBF kernel with that sigma, and does not use weights |
| SvmModel.LinearRoundTrip | dist/index.umd.js:266-321 | loading a trained linear SVM's snapshot into any SVM gives the same margin on every D-dimensional input |
| SvmModel.RbfRoundTrip | dist/index.umd.js:266-321 | loaded into an SVM whose `usew_` is false, an RBF snapshot reproduces the state except `w`, and gives the same margin (RbfLoadKeepsWeights covers a target that used weights, whose stale `w` then decides the margin) |
| SvmModel.RbfLoadKeepsWeights | dist/index.umd.js:308-317 | loading an RBF snapshot leaves `usew_` and `w` as they were |
| SvmModel.SnapshotOf | dist/index.umd.js:266-292 | with `json` declared (see Findings), `toJSON` on values: `{}` exactly for a custom kernel, else N, D, b and the tag; a linear snapshot, or an RBF one with sigma, loads |
| SvmModel.Load | dist/index.umd.js:294-321 | `fromJSON` on values: N, D, b and the tag are the snapshot's; `usew_` becomes true for "linear" and stays otherwise; only an RBF load replaces data, labels and coefficients |
| SvmModel.SnapshotAsWritten | dist/index.umd.js:266-292 | the bundled `toJSON`: `{}` for a custom kernel, a ReferenceError otherwise; SnapshotAsWrittenThrows states it |
| SvmModel.SnapshotAsWrittenThrows | dist/index.umd.js:273 | as bundled, `toJSON` throws for every linear or RBF SVM, while the corrected snapshot is loadable |
| SvmModel.Svm.constructor | dist/index.umd.js:31-32 | a new SVM is in the fresh state with the given `Math.exp` |
| SvmModel.Svm.MarginOne | dist/index.umd.js:197-220 | returns the margin of the current state: `b + x.w` with weights, else `b + sum alpha_i y_i k(x, x_i)` |
| SvmModel.Svm.PredictOne | dist/index.umd.js:222-224 | returns 1 exactly when the margin is positive, else -1 |
| SvmModel.Svm.Margins | dist/index.umd.js:227-237 | one margin per input row, in order |
| SvmModel.Svm.Predict | dist/index.umd.js:240-246 | one sign per input row, in order |
| SvmModel.Svm.SumColumn | dist/index.umd.js:257-261 | one column sum `sum_i alpha_i y_i x_ij` |
| SvmModel.Svm.GetWeights | dist/index.umd.js:252-264 | returns the D column sums and the bias |
| SvmModel.Svm.PairStep | dist/index.umd.js:99-133 | the pair update is applied exactly when it passes the bound, `eta` and step tests; then it gives the new coefficients and bias |
| SvmModel.Svm.Accept | dist/index.umd.js:122-133 | computes `newai` and the bias b1, b2 or their mean |
| SvmModel.Svm.ChooseBias | dist/index.umd.js:131-133 | b2 if `newaj` is interior, else b1 if `newai` is interior, else the mean |
| SvmModel.Svm.Examine | dist/index.umd.js:90-137 | one inner iteration performs the step for sample i |
| SvmModel.Svm.TryPair | dist/index.umd.js:97-135 | updates the pair in place exactly when the value-level pair step succeeds |
| SvmModel.Svm.Sweep | dist/index.umd.js:87-138 | one pass over all samples performs the sweep |
| SvmModel.Svm.Solve | dist/index.umd.js:83-145 | with `ai` and `aj` declared (see Findings): the SMO loop ends in the state the solver gives, and hangs exactly when it does |
| SvmModel.Svm.StoreWeights | dist/index.umd.js:149-160 | stores the weights and sets `usew_` when D > 0 |
| SvmModel.Svm.Compact | dist/index.umd.js:169-185 | filters data, labels and coefficients by `alpha > alphatol`, and sets N |
| SvmModel.Svm.Finalize | dist/index.umd.js:147-187 | weights for a linear kernel; compaction otherwise |
| SvmModel.Svm.ApplyOptions | dist/index.umd.js:40-75 | stores data and labels, kernel type, sigma, kernel and N |
| SvmModel.Svm.Reset | dist/index.umd.js:76-80 | sets D, zero coefficients, `b = 0` and `usew_ = false` |
| SvmModel.Svm.Train | dist/index.umd.js:37-192 | with `ai` and `aj` declared (see Findings): `train` leaves the state and returns what the specification of training gives |
| SvmModel.Svm.ToJson | dist/index.umd.js:266-292 | with `json` declared (see Findings): the snapshot of the current state |
| SvmModel.Svm.ToJsonAsWritten | dist/index.umd.js:266-292 | `toJSON` as bundled: `{}` for a custom kernel, a ReferenceError otherwise |
| SvmModel.Svm.FromJson | dist/index.umd.js:294-321 | the state becomes the loaded snapshot |
| SvmJsModel.LabelOf | dist/index.umd.js:378 | `output > 0 ? 1 : -1`: always 1 or -1, and 1 exactly for a positive output |
| SvmJsModel.LabelsBinary | dist/index.umd.js:376-379 | each label is +1 exactly when the output is positive, and -1 exactly when it is not |
| SvmJsModel.BatchIsMatrix | dist/index.umd.js:373-381 | samples of one dimension give an N x D training set |
| SvmJsModel.TrainBatchOutcome | dist/index.umd.js:373-381 | with `ai` and `aj` declared (see Findings): batch training fails exactly on an empty set, hangs only on one sample, and keeps the coefficients in [0, C] |
| SvmJsModel.ClassifyOutcome | dist/index.umd.js:389-423 | the classification is the score, or 1 exactly when the score is positive; an explanation appears exactly when `explain > 0` |
| SvmJsModel.ClassOf | dist/index.umd.js:391 | the score for continuous output, else 1 exactly for a positive score and 0 otherwise |
| SvmJsModel.Records | dist/index.umd.js:400-409 | the D explanation records built from `w`; TotalRelevanceIsDot sums them |
| SvmJsModel.Explanations | dist/index.umd.js:398-411 | the records when `usew_` holds, else none; ExplanationRanked and RelevanceSumsToMargin state their length, order and sum |
| SvmJsModel.ClassifySpec | dist/index.umd.js:389-423 | `classify` on values: an explanation exactly when `explain > 0`, and a 0/1 classification unless continuous; ClassifyOutcome gives the rest |
| SvmJsModel.ExplanationRanked | dist/index.umd.js:398-418 | the explanation has min(explain, D) records (none without weights), sorted by descending relevance, drawn from the per-coordinate records, and none left out is more relevant |
| SvmJsModel.TotalRelevanceIsDot | dist/index.umd.js:403-410 | the relevances of the first j coordinates add up to their dot product with `w` |
| SvmJsModel.RelevanceSumsToMargin | dist/index.umd.js:400-410 | with weights, all relevances add up to the margin minus the bias |
| SvmJsModel.SvmJs.constructor | dist/index.umd.js:362-367 | a fresh base SVM and the stored options |
| SvmJsModel.SvmJs.TrainOnline | dist/index.umd.js:370-372 | always throws |
| SvmJsModel.SvmJs.TrainBatch | dist/index.umd.js:373-381 | with `ai` and `aj` declared (see Findings): trains the base on the inputs and the +1/-1 labels with the stored options |
| SvmJsModel.SvmJs.Classify | dist/index.umd.js:389-423 | returns the classification, and the ranked explanation when asked |
| SvmJsModel.SvmJs.ToJson | dist/index.umd.js:424-426 | with `json` declared (see Findings): the base SVM's snapshot; as bundled `base.toJSON()` throws at line 273 |
| SvmJsModel.SvmJs.FromJson | dist/index.umd.js:427-429 | loads the snapshot into the base |
| WinnowModel.DefaultSettings | dist/index.umd.js:746-758 | the defaults: weights 2 and 1, no averaging, threshold 1, promotion 1.5, demotion 0.5, margin 1, no retraining, brief explanations, bias 1 |
| WinnowModel.ConfigureZeros | dist/index.umd.js:749-758 | `\|\|` options replace 0 by the default; `in` options keep a given 0 |
| WinnowModel.Configure | dist/index.umd.js:746-758 | the constructor's settings: `threshold`, `margin` and `bias` keep any given value, and averaging is on exactly when `do_averaging` is true |
| WinnowModel.WithBias | dist/index.umd.js:784 | the bias feature; WithBiasSpec states when it is added |
| WinnowModel.WithBiasSpec | dist/index.umd.js:784 | a nonzero bias adds feature "bias" = 1 when it is missing, and keeps every other value |
| WinnowModel.EditSpec | dist/index.umd.js:783-793 | the edited keys are the input's plus "bias" (if the bias is nonzero), restricted to the known features when asked; the values are normalised to sum 1 unless their sum is 0 |
| WinnowModel.EditIdempotent | dist/index.umd.js:783-793 | editing an edited hash again changes nothing |
| WinnowModel.Edit | dist/index.umd.js:783-793 | `editFeatureValues` on values: bias, optional deletion, normalisation; EditSpec, EditIdempotent and EditBounded state its contract |
| WinnowModel.ContributionsOk | dist/index.umd.js:889-923 | perception throws exactly when a feature with a positive weight cannot be read (an undefined map or a missing negative weight) |
| WinnowModel.FirstErrorUndefined | dist/index.umd.js:889-890 | with the positive map undefined, a nonempty input throws a TypeError |
| WinnowModel.PerceiveUndefined | dist/index.umd.js:889-890 | with the positive map undefined, perception throws exactly when the input is nonempty |
| WinnowModel.NetScoreIsTotal | dist/index.umd.js:889-915 | the score is the sum over the input of `value * (pos - neg)` for the features that have a positive weight |
| WinnowModel.ContributionsSpec | dist/index.umd.js:889-922 | the contributions are the features with a positive weight, in input order, with both weights and their relevance |
| WinnowModel.Contributions | dist/index.umd.js:889-922 | the loop of `perceive_features` on values; ContributionsOk, ContributionsSpec and NetScoreIsTotal state its contract |
| WinnowModel.NetScore | dist/index.umd.js:885-923 | the summed relevances; NetScoreIsTotal states it over the input |
| WinnowModel.Render | dist/index.umd.js:936-940 | one explanation record per contribution, in order |
| WinnowModel.PerceiveSpec | dist/index.umd.js:885-949 | the result is score - threshold, or 1 exactly when that is positive; the explanation appears when `explain > 0` and has min(explain, #contributions) records, ranked by descending \|relevance\|, none left out more relevant |
| WinnowModel.Perceive | dist/index.umd.js:885-949 | `perceive_features` on values: it throws exactly when the loop does, explains exactly when `explain > 0`, and classifies 0/1 unless continuous; PerceiveSpec gives the rest |
| WinnowModel.FillSpec | dist/index.umd.js:803-806 | existing weights are kept and each new feature gets the default weight, appended |
| WinnowModel.Fill | dist/index.umd.js:803-806 | the default-weight loop on values: the old entries and at most one new entry per feature; FillSpec gives which |
| WinnowModel.MulAtSpec | dist/index.umd.js:819-820 | `w[k] *= x` changes only key k |
| WinnowModel.ReweightSpec | dist/index.umd.js:816-827 | each input feature's weight is multiplied by its factor, and other weights stay |
| WinnowModel.ReweightValue | dist/index.umd.js:816-827 | each key's value after the loop |
| WinnowModel.Reweight | dist/index.umd.js:816-827 | the `*=` loop on values: same length and the same keys, still well formed; ReweightSpec gives the values |
| WinnowModel.AddInto | dist/index.umd.js:834-835 | adding into an undefined sum throws exactly when there is a weight to add |
| WinnowModel.AverageSpec | dist/index.umd.js:833-836 | the running weights are unchanged; the sums gain the weights; an undefined sum with weights throws a TypeError after the earlier additions |
| WinnowModel.Average | dist/index.umd.js:833-836 | the averaging `add`s on values: the maps stay well formed, the running weights are untouched, and a success returns true |
| WinnowModel.FilledSpec | dist/index.umd.js:803-806 | after filling, both maps hold every input feature, so every input feature can be read |
| WinnowModel.Mistake | dist/index.umd.js:814 | the mistake test; TrainFeaturesSpec states that training returns false exactly on it |
| WinnowModel.Update | dist/index.umd.js:816-828 | promotion and demotion after a mistake; UpdateSpec states the new weights |
| WinnowModel.Factor | dist/index.umd.js:816-828 | `promotion * (1 + v)` and `demotion * (1 - v)`; FactorNonNegative and DemotionReachesZero bound it |
| WinnowModel.UpdateSpec | dist/index.umd.js:814-828 | after a mistake, each map's input-feature weights are promoted or demoted by `rate * (1 +/- value)` |
| WinnowModel.TrainFeaturesSpec | dist/index.umd.js:800-840 | returns false exactly on a mistake (and then updates); otherwise returns true after averaging, and an error can only come from averaging |
| WinnowModel.TrainFeatures | dist/index.umd.js:800-840 | `train_features` on values: the maps stay well formed; TrainFeaturesSpec gives the result and the updates |
| WinnowModel.TrainingInput | dist/index.umd.js:851 | `editFeatureValues(features, false)`; EditSpec and EditBounded state it |
| WinnowModel.TrainOnline | dist/index.umd.js:849-854 | `trainOnline` on values: the maps stay well formed; TrainingConsistent and TrainOnlineNonNegative give the rest |
| WinnowModel.Pass | dist/index.umd.js:871-873 | one pass over the dataset: the maps stay well formed; PassConsistent and PassNonNegative state the rest |
| WinnowModel.Rounds | dist/index.umd.js:870-874 | the retraining passes: the maps stay well formed; RoundsConsistent and RoundsNonNegative state the rest |
| WinnowModel.RoundCount | dist/index.umd.js:870-874 | `retrain_count + 1` passes, none for a negative count |
| WinnowModel.TrainBatch | dist/index.umd.js:861-875 | `trainBatch` on values: the maps stay well formed; TrainingConsistent and TrainBatchNonNegative give the rest |
| WinnowModel.ClassifyInput | dist/index.umd.js:958 | `editFeatureValues(features, true)` against the running positive weights; EditSpec states it |
| WinnowModel.Classify | dist/index.umd.js:957-963 | `classify` on values: an explanation exactly when `explain > 0`, and a 0/1 classification unless continuous |
| WinnowModel.Initial | dist/index.umd.js:759-763 | the four empty maps are consistent |
| WinnowModel.TrainFeaturesConsistent | dist/index.umd.js:800-840 | from consistent maps, training never throws and keeps the maps consistent (for feature names that are not inherited from `Object.prototype`, see Left out) |
| WinnowModel.PassConsistent | dist/index.umd.js:871-873 | a pass over the samples never throws and keeps consistency |
| WinnowModel.RoundsConsistent | dist/index.umd.js:870-874 | so do the `retrain_count + 1` passes |
| WinnowModel.TrainingConsistent | dist/index.umd.js:849-875 | online and batch training of a learner built by the constructor never throw (for feature names that are not inherited from `Object.prototype`, see Left out) |
| WinnowModel.ClassifyConsistent | dist/index.umd.js:957-963 | classification with consistent maps never throws (for feature names that are not inherited from `Object.prototype`, see Left out) |
| WinnowModel.DefaultsNonNegative | dist/index.umd.js:749-754 | the default weights and rates are non-negative |
| WinnowModel.EditBounded | dist/index.umd.js:783-793 | every edited value lies in [-1, 1] |
| WinnowModel.DemotionReachesZero | dist/index.umd.js:819-826 | weights are non-negative but not always positive: demoting a feature of value 1 by 0.5 turns a weight of 2 into exactly 0 |
| WinnowModel.FactorNonNegative | dist/index.umd.js:819-826 | a non-negative rate times `1 +/- v`, for v in [-1, 1], is non-negative |
| WinnowModel.FillNonNegative | dist/index.umd.js:803-806 | filling with a non-negative default keeps the weights non-negative |
| WinnowModel.ReweightNonNegative | dist/index.umd.js:816-827 | reweighting by such factors keeps the weights non-negative |
| WinnowModel.TrainFeaturesNonNegative | dist/index.umd.js:800-840 | with non-negative default weights, promotion and demotion, training on an edited input keeps all four maps non-negative (a negative `promotion` option can make a weight negative) |
| WinnowModel.TrainOnlineNonNegative | dist/index.umd.js:849-854 | with the same settings, so does online training |
| WinnowModel.PassNonNegative | dist/index.umd.js:871-873 | with the same settings, so does one pass |
| WinnowModel.RoundsNonNegative | dist/index.umd.js:870-874 | with the same settings, so do the retraining rounds |
| WinnowModel.TrainBatchNonNegative | dist/index.umd.js:861-875 | with the same settings, so does batch training |
| WinnowModel.SnapshotOf | dist/index.umd.js:767-774 | a snapshot always has both weight maps |
| WinnowModel.LoadSnapshot | dist/index.umd.js:767-782 | loading a snapshot restores its maps, whatever the learner held before |
| WinnowModel.LoadJson | dist/index.umd.js:775-782 | `fromJSON` on values: success exactly when both weight maps are present, nothing changes without positive weights, and the maps stay well formed |
| WinnowModel.SnapshotOfLoaded | dist/index.umd.js:775-782 | a load succeeds exactly when both weight maps are present; the snapshot then gives back the loaded object |
| WinnowModel.LoadJsonPartial | dist/index.umd.js:775-782 | without positive weights nothing changes; without negative weights only the positive side is installed before the throw |
| WinnowLearner.DeleteUnknown | dist/index.umd.js:786-790 | deleting inside the `for...in` loop leaves the hash restricted to the known features |
| WinnowLearner.Tally | dist/index.umd.js:886-923 | the loop throws exactly when, and what, the specification of the contributions throws; otherwise it gives their net score and, when explaining, the records |
| WinnowLearner.TrainScoreIsPerception | dist/index.umd.js:809-811 | the score `train_features` tests is continuous perception over the filled running weights |
| WinnowLearner.ContributionsFail | dist/index.umd.js:889-903 | the three ways the i-th feature ends the loop with an error |
| WinnowLearner.WinnowHash.constructor | dist/index.umd.js:743-764 | the settings from the options, and four new empty maps |
| WinnowLearner.WinnowHash.EditFeatureValues | dist/index.umd.js:783-793 | the caller's hash becomes its edited form |
| WinnowLearner.WinnowHash.PerceiveFeatures | dist/index.umd.js:885-949 | returns the perception of the hash with the given maps |
| WinnowLearner.WinnowHash.FillWeights | dist/index.umd.js:803-806 | both running maps are filled, so they hold every input feature |
| WinnowLearner.WinnowHash.UpdateWeights | dist/index.umd.js:814-828 | both running maps are promoted or demoted in place |
| WinnowLearner.WinnowHash.Average | dist/index.umd.js:833-836 | the sums are updated, or a TypeError is thrown, as the averaging step gives |
| WinnowLearner.WinnowHash.TrainFeatures | dist/index.umd.js:800-840 | maps and result are those of `train_features` |
| WinnowLearner.WinnowHash.TrainOnline | dist/index.umd.js:849-854 | edits the caller's hash, then trains on it |
| WinnowLearner.WinnowHash.EditAll | dist/index.umd.js:863-867 | every sample's input is edited; a hash shared by several samples ends up edited once per occurrence, which is the same as once |
| WinnowLearner.WinnowHash.RunPass | dist/index.umd.js:871-873 | one pass trains on each sample in order and stops at the first throw |
| WinnowLearner.WinnowHash.RunRounds | dist/index.umd.js:870-874 | the `retrain_count + 1` passes |
| WinnowLearner.WinnowHash.TrainBatch | dist/index.umd.js:861-875 | edited inputs, maps and result are those of `trainBatch` |
| WinnowLearner.WinnowHash.Classify | dist/index.umd.js:957-963 | drops unknown features from the caller's hash, then perceives with the sums when averaging, else with the running weights |
| WinnowLearner.WinnowHash.ToJson | dist/index.umd.js:767-774 | the four maps, with a sum missing exactly when it is undefined |
| WinnowLearner.WinnowHash.FromJson | dist/index.umd.js:775-782 | the maps and result are those the load gives, including the partial load before a throw |

## Left out

- The sprintf library (`str_format`, `sprintf`, `vsprintf`): brief Winnow explanations keep the feature and relevance they are printed from.
- `console.log`, `console.dir` and the `debug` option: output only.
- Floating point: NaN, infinities and rounding do not exist on reals. So the `isFinite` and `isNaN` checks of `perceive_features` reduce to their one reachable case, a missing negative weight.
- `toString.call(x) != '[object Number]'` in `add` and `multiply_scalar`: every hash value is a number.
- JavaScript property order for integer-like keys, which come before string keys: every key keeps insertion order.
- Inherited property names: a hash's keys are its own properties. `feature in obj` (dist/index.umd.js:447, 788, 804-805, 890) also finds names inherited from `Object.prototype` (`constructor`, `toString`, `valueOf`, `hasOwnProperty`, ...). For such a feature the source reads a function instead of a number, skips it in `add`, writes no default weight, and throws in `perceive_features`. The model treats these names like any other, so the never-throws results of WinnowModel.TrainFeaturesConsistent, TrainingConsistent and ClassifyConsistent hold only for feature names that are not inherited.
- The undeclared-variable errors at dist/index.umd.js:100-101 and 273 (see Findings) are modelled once each, by Smo.StrictTrainThrows, SvmModel.SnapshotAsWrittenThrows and SvmModel.Svm.ToJsonAsWritten. The other training and snapshot members, Smo.Run with `strict` off, Smo.RunSpec, SvmModel.TrainSpec, TrainOutcome, SvmModel.Svm.Solve and Train, SvmJsModel.TrainBatchOutcome and SvmJs.TrainBatch, SvmModel.SnapshotOf, SvmModel.Svm.ToJson and SvmJs.ToJson, model the bundle with `var ai`, `var aj` and `var json` declared.
- Kernels.LinearKernel: requires `|v1| <= |v2|`, because a shorter `v2` would give NaN in the source.
- SvmModel.Svm.constructor: a new SVM's fields are undefined in the source, and the model starts from empty values.
- SvmModel.Svm.Train: a custom kernel is a pure total function of two vectors. A caller's kernel that throws, has side effects or reads past a vector's end is not modelled.
- Smo.Run: a KKT violation with a single sample loops forever in `while(j === i)`; the model reports this as the outcome `NoPartner` / `Diverges`.
- SvmModel.Svm.FromJson, SvmModel.Load, SvmJsModel.SvmJs.FromJson: require a snapshot with the fields its kernel type needs. Loading `{}` (a custom kernel's snapshot) or a snapshot without them is not modelled.
- SvmModel.SnapshotOf, WinnowModel.SnapshotOf: `toJSON` hands out the learner's own arrays and objects, and the model copies them by value.
- WinnowLearner.WinnowHash.FromJson: the source installs the JSON's objects, so they become shared with the caller; the model copies their entries into the learner's four objects. An undefined sum is a flag. Aliasing between two maps of one JSON object is not modelled.
- WinnowLearner.WinnowHash.TrainFeatures: `expected` is a boolean, the truth value of the source's `output`.
- `randi`: the random draw is the oracle `partner`.
- Non-integer counts: `maxiter`, `numpasses`, `retrain_count` and `explain` are JavaScript numbers, but Wrappers.OrDefaultInt, Smo.Options, the Winnow options and every `explain` parameter take them as integers. A fractional count is not modelled: `maxiter` 2.5 runs 3 iterations, and `splice(2.5, ...)` keeps 2 records.

## Findings

| source | as written | input that shows it | evidently intended | confidence | as-written member | corrected member |
|---|---|---|---|---|---|---|
| dist/index.umd.js:100-101 | `ai` and `aj` are assigned without a declaration inside the strict-mode bundle (line 4), which throws a ReferenceError | `train` on data `[[0],[1]]`, labels `[1,-1]`, default options: sample 0 violates the KKT test at `alpha = 0`, so line 100 runs | local variables declared with `var` | not executed | Smo.StrictTrainThrows | Smo.CorrectedTrainDoesNotThrow |
| dist/index.umd.js:273 | `json = {}` assigns an undeclared variable in strict mode, so `toJSON` throws for every linear or RBF SVM | `toJSON` on any SVM trained with the linear kernel | `var json = {}` | not executed | SvmModel.SnapshotAsWrittenThrows | SvmModel.LinearRoundTrip |
