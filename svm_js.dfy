/**
 * The SvmJs adapter of dist/index.umd.js:362-430: a classifier with one SVM
 * as its base. Batch training maps each sample's output to the label +1 or
 * -1; classification reports the margin or 0/1, and for a linear SVM an
 * explanation of the strongest per-coordinate contributions.
 */
module SvmJsModel {
  import opened Wrappers
  import opened Kernels
  import opened Smo
  import opened SvmModel
  import opened Ranking

  /** One training sample: `{input, output}`. */
  datatype Datum = Datum(input: Vector, output: real)

  /** `datum.output > 0 ? 1 : -1`. */
  function LabelOf(output: real): (r: real)
    ensures r == 1.0 || r == -1.0
    ensures r == 1.0 <==> output > 0.0
  {
    if output > 0.0 then 1.0 else -1.0
  }

  function Inputs(dataset: seq<Datum>): (r: seq<Vector>)
  {
    seq(|dataset|, i requires 0 <= i < |dataset| => dataset[i].input)
  }

  function Labels(dataset: seq<Datum>): (r: seq<real>)
  {
    seq(|dataset|, i requires 0 <= i < |dataset| => LabelOf(dataset[i].output))
  }

  /** Every sample has as many coordinates as the first. */
  predicate SameDimension(dataset: seq<Datum>)
  {
    forall i :: 0 <= i < |dataset| ==> |dataset[i].input| == |dataset[0].input|
  }

  /** The labels handed to the SVM are +1 exactly for the samples with a positive output, and -1 for the rest. */
  lemma LabelsBinary(dataset: seq<Datum>)
    ensures |Labels(dataset)| == |dataset| && Binary(Labels(dataset))
    ensures forall i :: 0 <= i < |dataset| ==> (Labels(dataset)[i] == 1.0 <==> dataset[i].output > 0.0)
    ensures forall i :: 0 <= i < |dataset| ==> (Labels(dataset)[i] == -1.0 <==> dataset[i].output <= 0.0)
  {
  }

  /** The inputs and mapped labels form an N x D training set when the samples share a dimension. */
  lemma BatchIsMatrix(dataset: seq<Datum>)
    requires SameDimension(dataset)
    ensures Matrix(Inputs(dataset), Labels(dataset))
  {
  }

  /**
   * Batch training inherits `train`'s outcome: it fails with a TypeError
   * exactly on an empty data set, hangs only on a single sample, and
   * otherwise keeps every coefficient in [0, C].
   */
  lemma TrainBatchOutcome(st: SvmState, exp: real -> real, dataset: seq<Datum>, o: Options, partner: (int, int) -> int)
    requires SameDimension(dataset) && PartnerOk(partner, |dataset|) && Configure(o).c >= 0.0
    ensures Matrix(Inputs(dataset), Labels(dataset))
    ensures var t := TrainSpec(st, exp, Inputs(dataset), Labels(dataset), o, partner);
      && (t.result == Failure(TypeError) <==> |dataset| == 0)
      && (t.result == Failure(NoPartner) ==> |dataset| == 1)
      && (t.result.Success? ==> Box(t.st.alpha, Configure(o).c))
  {
    BatchIsMatrix(dataset);
    LabelsBinary(dataset);
    TrainOutcome(st, exp, Inputs(dataset), Labels(dataset), o, partner);
  }

  // ---------------------------------------------------------------------------
  // Classification (dist/index.umd.js:389-423)
  // ---------------------------------------------------------------------------

  /** One explanation record: coordinate `feature`, its value, its weight and their product. */
  datatype Explanation = Explanation(feature: int, value: real, weight: real, relevance: real)

  function Relevance(e: Explanation): real
  {
    e.relevance
  }

  /** What `classify` returns: the classification alone, or with its explanation. */
  datatype Classification = Plain(classification: real) | Explained(classification: real, explanation: seq<Explanation>)

  /** The record of coordinate j. */
  function Record(features: Vector, w: seq<real>, j: nat): Explanation
    requires j < |features| && j < |w|
  {
    Explanation(j, features[j], w[j], features[j] * w[j])
  }

  /** The records of coordinates 0 .. d-1, in that order. */
  function Records(features: Vector, w: seq<real>, d: nat): (r: seq<Explanation>)
    requires d <= |features| && d <= |w|
  {
    seq(d, j requires 0 <= j < d => Record(features, w, j))
  }

  /** One record per coordinate j < D when the weights are in use, none otherwise. */
  function Explanations(st: SvmState, features: Vector): seq<Explanation>
    requires CanEvaluate(st, features)
  {
    if st.usew then Records(features, st.w, st.d) else []
  }

  /** The score's classification: the score itself for continuous output, else 1 when it is positive and 0 otherwise. */
  function ClassOf(score: real, continuous: bool): (r: real)
    ensures continuous ==> r == score
    ensures !continuous ==> (r == 0.0 || r == 1.0) && (r == 1.0 <==> score > 0.0)
  {
    if continuous then score else if score > 0.0 then 1.0 else 0.0
  }

  /** `classify(features, explain, continuous_output)` on an SVM in state `st`. */
  function ClassifySpec(st: SvmState, exp: real -> real, features: Vector, explain: int, continuous: bool): (r: Classification)
    requires CanEvaluate(st, features)
    ensures r.Explained? <==> explain > 0
    ensures !continuous ==> r.classification == 0.0 || r.classification == 1.0
  {
    var c := ClassOf(Margin(st, exp, features), continuous);
    if explain > 0 then Explained(c, Take(SortDesc(Explanations(st, features), Relevance), explain))
    else Plain(c)
  }

  /** The sum of the records' relevances. */
  function TotalRelevance(es: seq<Explanation>): real
    decreases |es|
  {
    if |es| == 0 then 0.0 else TotalRelevance(es[..|es| - 1]) + es[|es| - 1].relevance
  }

  /**
   * The 0/1 classification says whether the margin is positive; an
   * explanation appears exactly when `explain > 0`, holds `explain` records
   * or all D of them, in descending relevance, each taken from the
   * per-coordinate records, and none left out is more relevant than one kept.
   */
  lemma ClassifyOutcome(st: SvmState, exp: real -> real, features: Vector, explain: int, continuous: bool)
    requires CanEvaluate(st, features)
    ensures var r := ClassifySpec(st, exp, features, explain, continuous);
      var m := Margin(st, exp, features);
      && (continuous ==> r.classification == m)
      && (!continuous ==> (r.classification == 1.0 <==> m > 0.0) && (r.classification == 0.0 <==> m <= 0.0))
      && (r.Explained? <==> explain > 0)
  {
  }

  lemma ExplanationRanked(st: SvmState, exp: real -> real, features: Vector, explain: int, continuous: bool)
    requires CanEvaluate(st, features) && explain > 0
    ensures var r := ClassifySpec(st, exp, features, explain, continuous);
      var all := Explanations(st, features);
      && r.Explained?
      && |r.explanation| == (if explain < |all| then explain else |all|)
      && |all| == (if st.usew then st.d else 0)
      && SortedDesc(r.explanation, Relevance)
      && multiset(r.explanation) <= multiset(all)
      && (forall x, y :: x in multiset(all) - multiset(r.explanation) && y in r.explanation ==> y.relevance >= x.relevance)
  {
    var all := Explanations(st, features);
    SortDescSpec(all, Relevance);
    TopRecords(all, Relevance, explain);
  }

  lemma {:induction false} TotalRelevanceIsDot(features: Vector, w: seq<real>, j: nat)
    requires j <= |features| && j <= |w|
    ensures TotalRelevance(Records(features, w, j)) == LinearKernel(features[..j], w)
  {
    if j > 0 {
      assert Records(features, w, j)[..j - 1] == Records(features, w, j - 1);
      assert features[..j][..j - 1] == features[..j - 1];
      TotalRelevanceIsDot(features, w, j - 1);
    }
  }

  /** With the weights in use, the relevances of all D records add up to the margin minus the bias. */
  lemma RelevanceSumsToMargin(st: SvmState, exp: real -> real, features: Vector)
    requires CanEvaluate(st, features) && st.usew
    ensures TotalRelevance(Explanations(st, features)) == Margin(st, exp, features) - st.b
  {
    TotalRelevanceIsDot(features, st.w, st.d);
  }

  /** Online training always fails. */
  datatype OnlineError = OnlineUnsupported

  class SvmJs {
    /** The wrapped SVM, created with the adapter. */
    const base: Svm
    /** The options every `trainBatch` passes to `train`. */
    var opts: Options

    constructor(opts: Options, exp: real -> real)
      ensures fresh(base) && base.State() == Fresh() && base.exp == exp && this.opts == opts
    {
      base := new Svm(exp);
      this.opts := opts;
    }

    /** `trainOnline`: svm.js does not support online training, so it always throws. */
    method TrainOnline(features: Vector, y: real) returns (r: Result<(), OnlineError>)
      ensures r == Failure(OnlineUnsupported)
    {
      return Failure(OnlineUnsupported);
    }

    /** `trainBatch(dataset)`: the inputs, the labels +1/-1 by the sign of each output, and `train` with the stored options. */
    method TrainBatch(dataset: seq<Datum>, partner: (int, int) -> int) returns (r: Result<int, TrainError>)
      requires SameDimension(dataset) && PartnerOk(partner, |dataset|)
      modifies base
      ensures var t := TrainSpec(old(base.State()), base.exp, Inputs(dataset), Labels(dataset), opts, partner);
        r == t.result && (r != Failure(NoPartner) ==> base.State() == t.st)
    {
      var data: seq<Vector>, labels: seq<real> := [], [];
      var i := 0;
      while i < |dataset|
        invariant 0 <= i <= |dataset|
        invariant data == Inputs(dataset[..i]) && labels == Labels(dataset[..i])
      {
        assert Inputs(dataset[..i + 1]) == Inputs(dataset[..i]) + [dataset[i].input];
        assert Labels(dataset[..i + 1]) == Labels(dataset[..i]) + [LabelOf(dataset[i].output)];
        data := data + [dataset[i].input];
        labels := labels + [if dataset[i].output > 0.0 then 1.0 else -1.0];
        i := i + 1;
      }
      assert dataset[..i] == dataset;
      BatchIsMatrix(dataset);
      r := base.Train(data, labels, opts, partner);
    }

    /** `classify(features, explain, continuous_output)`. */
    method Classify(features: Vector, explain: int, continuous: bool) returns (r: Classification)
      requires CanEvaluate(base.State(), features)
      ensures r == ClassifySpec(base.State(), base.exp, features, explain, continuous)
    {
      var score := base.MarginOne(features);
      var c := if continuous then score else if score > 0.0 then 1.0 else 0.0;
      if explain > 0 {
        var explanations: seq<Explanation> := [];
        if base.usew {
          var w := base.w;
          var j := 0;
          while j < base.d
            invariant 0 <= j <= base.d && |explanations| == j
            invariant forall k :: 0 <= k < j ==> explanations[k] == Record(features, w, k)
          {
            explanations := explanations + [Explanation(j, features[j], w[j], features[j] * w[j])];
            j := j + 1;
          }
        }
        assert explanations == Explanations(base.State(), features);
        r := Explained(c, Take(SortDesc(explanations, Relevance), explain));
      } else {
        r := Plain(c);
      }
    }

    /** `toJSON()`: the base SVM's snapshot. */
    function ToJson(): (j: SvmJson)
      reads this, base
      ensures j == SnapshotOf(base.State())
    {
      base.ToJson()
    }

    /** `fromJSON(json)`: loads the snapshot into the base SVM. */
    method FromJson(j: SvmJson)
      requires Loadable(j)
      modifies base
      ensures base.State() == Load(old(base.State()), j)
    {
      base.FromJson(j);
    }
  }
}
