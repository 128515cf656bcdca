/**
 * `WinnowHash` (dist/index.umd.js:743-964) as an object: its four maps are
 * hash objects that its methods update in place, and the caller's feature
 * hashes are edited in place too. Every method is proved against the
 * functions of `WinnowModel`.
 */
module WinnowLearner {
  import opened Wrappers
  import opened SparseHash
  import opened Ranking
  import opened WinnowModel

  /** The entries of a hash object, `None` for `undefined`. */
  function EntriesOf(h: FeatureHash?): Option<Hash>
    reads h
  {
    if h == null then None else Some(h.entries)
  }

  /** `delete h[k]`: the entry of `k` leaves, the others keep their order. */
  function RemoveKey(h: Hash, k: string): Hash
    requires k in Keys(h)
  {
    var j := IndexOf(h, k);
    h[..j] + h[j + 1..]
  }

  /** The position of a key that no earlier entry has. */
  lemma {:induction false} IndexOfFirst(h: Hash, i: nat)
    requires i < |h| && forall j :: 0 <= j < i ==> h[j].key != h[i].key
    ensures h[i].key in Keys(h) && IndexOf(h, h[i].key) == i
    decreases i
  {
    if i > 0 {
      assert h[1..][i - 1] == h[i];
      forall j | 0 <= j < i - 1
        ensures h[1..][j].key != h[1..][i - 1].key
      {
        assert h[1..][j] == h[j + 1];
      }
      IndexOfFirst(h[1..], i - 1);
    }
  }

  /**
   * Deleting the i-th feature, which is unknown, from the hash whose first i
   * features have been filtered leaves the first i + 1 filtered.
   */
  lemma DeleteStep(es: Hash, i: nat, known: set<string>)
    requires Wf(es) && i < |es| && es[i].key !in known
    ensures var cur := Restrict(es[..i], known) + es[i..];
      es[i].key in Keys(cur) && RemoveKey(cur, es[i].key) == Restrict(es[..i + 1], known) + es[i + 1..]
  {
    var a := Restrict(es[..i], known);
    var cur := a + es[i..];
    DeletedAt(es, i, known);
    assert es[..i + 1][..i] == es[..i];
    assert cur[..|a|] == a && cur[|a| + 1..] == es[i + 1..];
  }

  /** The i-th feature sits right after the filtered prefix, which does not hold its key. */
  lemma DeletedAt(es: Hash, i: nat, known: set<string>)
    requires Wf(es) && i < |es|
    ensures var a := Restrict(es[..i], known);
      var cur := a + es[i..];
      cur[|a|] == es[i] && es[i].key in Keys(cur) && IndexOf(cur, es[i].key) == |a|
  {
    var a := Restrict(es[..i], known);
    var cur := a + es[i..];
    WfPrefix(es, i);
    RestrictSpec(es[..i], known);
    assert cur[|a|] == es[i];
    forall j | 0 <= j < |a|
      ensures cur[j].key != cur[|a|].key
    {
      assert cur[j] == a[j];
      assert a[j].key in Keys(a);
      var l :| 0 <= l < i && es[..i][l].key == a[j].key;
      assert es[..i][l] == es[l];
    }
    IndexOfFirst(cur, |a|);
  }

  /** Keeping the i-th feature, which is known, leaves the first i + 1 filtered. */
  lemma KeepStep(es: Hash, i: nat, known: set<string>)
    requires i < |es| && es[i].key in known
    ensures Restrict(es[..i + 1], known) + es[i + 1..] == Restrict(es[..i], known) + es[i..]
  {
    assert es[..i + 1][..i] == es[..i];
    assert es[i..] == [es[i]] + es[i + 1..];
  }

  /** The deletion loop of `editFeatureValues`: every feature outside `known` is deleted. */
  method DeleteUnknown(features: FeatureHash, known: set<string>)
    requires features.Valid()
    modifies features
    ensures features.entries == Restrict(old(features.entries), known)
  {
    var es := features.entries;
    var i := 0;
    while i < |es|
      invariant 0 <= i <= |es|
      invariant features.entries == Restrict(es[..i], known) + es[i..]
    {
      if es[i].key !in known {
        DeleteStep(es, i, known);
        features.entries := RemoveKey(features.entries, es[i].key);
      } else {
        KeepStep(es, i, known);
      }
      i := i + 1;
    }
    assert es[..i] == es;
  }

  /**
   * The loop of `perceive_features`: the net score and, when `keep` is set,
   * the contributions in feature order; the first unreadable feature ends it
   * with its error.
   */
  method Tally(es: Hash, pos: FeatureHash?, neg: FeatureHash?, keep: bool) returns (r: Result<(real, seq<Contribution>), WinnowError>)
    ensures var c := Contributions(es, EntriesOf(pos), EntriesOf(neg));
      && (r.Failure? <==> c.Failure?)
      && (r.Failure? ==> r.error == c.error)
      && (r.Success? ==> r.value.0 == NetScore(c.value) && (keep ==> r.value.1 == c.value))
  {
    ghost var pm, nm := EntriesOf(pos), EntriesOf(neg);
    ghost var cs: seq<Contribution> := [];
    var score := 0.0;
    var explanations: seq<Contribution> := [];
    var i := 0;
    while i < |es|
      invariant 0 <= i <= |es|
      invariant Contributions(es[..i], pm, nm) == Success(cs)
      invariant score == NetScore(cs)
      invariant keep ==> explanations == cs
    {
      var k := es[i].key;
      if pos == null {
        ContributionsFail(es, i, pm, nm, cs);
        return Failure(TypeError);
      }
      var positive := pos.entries;
      assert pm == Some(positive);
      if k in Keys(positive) {
        var positiveWeight := Value(positive, k);
        if neg == null {
          ContributionsFail(es, i, pm, nm, cs);
          return Failure(TypeError);
        }
        var negative := neg.entries;
        assert nm == Some(negative);
        if k !in Keys(negative) {
          ContributionsFail(es, i, pm, nm, cs);
          return Failure(NegativeWeightMissing(k));
        }
        var negativeWeight := Value(negative, k);
        var relevance := es[i].value * (positiveWeight - negativeWeight);
        ContributionsPush(es, i, positive, negative, cs);
        var c := Contribution(k, es[i].value, positiveWeight, negativeWeight, relevance);
        assert c == Contribution(es[i].key, es[i].value, Value(positive, es[i].key), Value(negative, es[i].key), es[i].value * (Value(positive, es[i].key) - Value(negative, es[i].key)));
        score := score + relevance;
        assert NetScore(cs + [c]) == NetScore(cs) + relevance by {
          assert (cs + [c])[..|cs|] == cs;
        }
        cs := cs + [c];
        if keep {
          explanations := explanations + [c];
        }
      } else {
        ContributionsSkip(es, i, positive, nm, cs);
      }
      i := i + 1;
    }
    assert es[..i] == es;
    r := Success((score, explanations));
  }

  /** One sample of `trainBatch`, with its input object. */
  datatype Datum = Datum(input: FeatureHash, expected: bool)

  function Inputs(dataset: seq<Datum>): set<FeatureHash>
  {
    set i | 0 <= i < |dataset| :: dataset[i].input
  }

  /** The samples as values: each input object's current entries. */
  function SamplesOf(dataset: seq<Datum>): (r: seq<Sample>)
    reads Inputs(dataset)
    ensures |r| == |dataset|
  {
    seq(|dataset|, i reads Inputs(dataset) requires 0 <= i < |dataset| => Sample(dataset[i].input.entries, dataset[i].expected))
  }

  /** `samples` are the samples' current values. */
  ghost predicate Holds(dataset: seq<Datum>, samples: seq<Sample>)
    reads Inputs(dataset)
  {
    |samples| == |dataset| &&
    forall i :: 0 <= i < |dataset| ==> samples[i] == Sample(dataset[i].input.entries, dataset[i].expected)
  }

  lemma SamplesOfHolds(dataset: seq<Datum>)
    ensures Holds(dataset, SamplesOf(dataset))
  {
  }

  /** Samples that share an input object share its value. */
  lemma SharedInputs(dataset: seq<Datum>, samples: seq<Sample>)
    requires Holds(dataset, samples)
    ensures forall i, j :: 0 <= i < |dataset| && 0 <= j < |dataset| && dataset[i].input == dataset[j].input ==> samples[i].input == samples[j].input
  {
  }

  class WinnowHash {
    const settings: Settings
    const positiveWeights: FeatureHash
    const negativeWeights: FeatureHash
    const positiveWeightsSum: FeatureHash
    const negativeWeightsSum: FeatureHash
    /** Whether each sum is defined; `fromJSON` can leave either one `undefined`. */
    var hasPositiveWeightsSum: bool
    var hasNegativeWeightsSum: bool

    ghost function Repr(): set<object>
    {
      {positiveWeights, negativeWeights, positiveWeightsSum, negativeWeightsSum}
    }

    /** The four maps are distinct objects and well formed. */
    ghost predicate Valid()
      reads this, Repr()
    {
      && positiveWeights != negativeWeights && positiveWeights != positiveWeightsSum && positiveWeights != negativeWeightsSum
      && negativeWeights != positiveWeightsSum && negativeWeights != negativeWeightsSum
      && positiveWeightsSum != negativeWeightsSum
      && MapsWf(Maps())
    }

    /** The sum objects as the source sees them: `null` where undefined. */
    function PositiveSum(): FeatureHash?
      reads this
    {
      if hasPositiveWeightsSum then positiveWeightsSum else null
    }

    function NegativeSum(): FeatureHash?
      reads this
    {
      if hasNegativeWeightsSum then negativeWeightsSum else null
    }

    function Maps(): Maps
      reads this, Repr()
    {
      WinnowModel.Maps(positiveWeights.entries, negativeWeights.entries, EntriesOf(PositiveSum()), EntriesOf(NegativeSum()))
    }

    /** `new WinnowHash(opts)`: the settings and four empty maps. */
    constructor(o: WinnowOptions)
      ensures Valid() && fresh(Repr()) && settings == Configure(o) && Maps() == Initial()
    {
      settings := Configure(o);
      positiveWeights := new FeatureHash([]);
      negativeWeights := new FeatureHash([]);
      positiveWeightsSum := new FeatureHash([]);
      negativeWeightsSum := new FeatureHash([]);
      hasPositiveWeightsSum, hasNegativeWeightsSum := true, true;
    }

    /** `editFeatureValues(features, remove_unknown_features)`. */
    method EditFeatureValues(features: FeatureHash, removeUnknown: bool)
      requires Valid() && features.Valid() && features !in Repr()
      modifies features
      ensures features.Valid()
      ensures features.entries == Edit(old(features.entries), settings.bias, Keys(positiveWeights.entries), removeUnknown)
    {
      ghost var h := features.entries;
      EditSpec(h, settings.bias, Keys(positiveWeights.entries), removeUnknown);
      WithBiasSpec(h, settings.bias);
      if settings.bias != 0.0 && "bias" !in Keys(features.entries) {
        features.entries := features.entries + [Entry("bias", 1.0)];
      }
      if removeUnknown {
        DeleteUnknown(features, Keys(positiveWeights.entries));
      }
      NormalizeSumOfValuesTo1(features);
    }

    /** `perceive_features(features, continuous_output, pos, neg, explain)`. */
    method PerceiveFeatures(features: FeatureHash, continuous: bool, pos: FeatureHash?, neg: FeatureHash?, explain: int)
      returns (r: Result<Perception, WinnowError>)
      ensures r == Perceive(features.entries, EntriesOf(pos), EntriesOf(neg), settings.threshold, continuous, explain, settings.detailedExplanations)
    {
      var tally := Tally(features.entries, pos, neg, explain > 0);
      if tally.Failure? {
        return Failure(tally.error);
      }
      var (score, explanations) := tally.value;
      score := score - settings.threshold;
      var result := if continuous then score else if score > 0.0 then 1.0 else 0.0;
      if explain > 0 {
        var ranked := Take(SortDesc(explanations, AbsRelevance), explain);
        r := Success(Explained(result, Render(ranked, settings.detailedExplanations)));
      } else {
        r := Success(Plain(result));
      }
    }

    /** The first loop of `train_features`: a default weight for every new feature, in both maps. */
    method FillWeights(features: FeatureHash)
      requires Valid() && features !in Repr()
      modifies positiveWeights, negativeWeights
      ensures Valid() && Maps() == Filled(old(Maps()), settings, features.entries)
      ensures Keys(features.entries) <= Keys(positiveWeights.entries) && Keys(features.entries) <= Keys(negativeWeights.entries)
    {
      ghost var m := Maps();
      FilledSpec(m, settings, features.entries);
      var es := features.entries;
      var i := 0;
      while i < |es|
        invariant 0 <= i <= |es|
        invariant positiveWeights.entries == Fill(m.pos, es[..i], settings.defaultPositiveWeight)
        invariant negativeWeights.entries == Fill(m.neg, es[..i], settings.defaultNegativeWeight)
      {
        assert es[..i + 1][..i] == es[..i];
        var k := es[i].key;
        if k !in Keys(positiveWeights.entries) {
          positiveWeights.entries := positiveWeights.entries + [Entry(k, settings.defaultPositiveWeight)];
        }
        if k !in Keys(negativeWeights.entries) {
          negativeWeights.entries := negativeWeights.entries + [Entry(k, settings.defaultNegativeWeight)];
        }
        i := i + 1;
      }
      assert es[..i] == es;
    }

    /** The update loops of `train_features` after a mistake: each input feature's two weights are multiplied by their factors. */
    method UpdateWeights(features: FeatureHash, expected: bool)
      requires Valid() && features !in Repr()
      requires Keys(features.entries) <= Keys(positiveWeights.entries) && Keys(features.entries) <= Keys(negativeWeights.entries)
      modifies positiveWeights, negativeWeights
      ensures Valid() && Maps() == Update(old(Maps()), settings, features.entries, expected)
    {
      ghost var m := Maps();
      var es := features.entries;
      var i := 0;
      while i < |es|
        invariant 0 <= i <= |es|
        invariant Keys(es[..i]) <= Keys(es)
        invariant positiveWeights.entries == Reweight(m.pos, es[..i], RateOf(settings, expected, true), DirOf(expected, true))
        invariant negativeWeights.entries == Reweight(m.neg, es[..i], RateOf(settings, expected, false), DirOf(expected, false))
      {
        assert es[..i + 1][..i] == es[..i];
        KeysInit(es[..i + 1]);
        assert es[i] in es;
        var k, value := es[i].key, es[i].value;
        assert k in Keys(es);
        if expected {
          positiveWeights.entries := MulAt(positiveWeights.entries, k, Factor(settings.promotion, Up, value));
          negativeWeights.entries := MulAt(negativeWeights.entries, k, Factor(settings.demotion, Down, value));
        } else {
          positiveWeights.entries := MulAt(positiveWeights.entries, k, Factor(settings.demotion, Down, value));
          negativeWeights.entries := MulAt(negativeWeights.entries, k, Factor(settings.promotion, Up, value));
        }
        i := i + 1;
      }
      assert es[..i] == es;
    }

    /** The averaging step: `add` of each running map into its sum; an undefined sum throws once there is a weight to add. */
    method Average() returns (r: Result<bool, WinnowError>)
      requires Valid()
      modifies positiveWeightsSum, negativeWeightsSum
      ensures Valid()
      ensures Maps() == WinnowModel.Average(old(Maps())).m && r == WinnowModel.Average(old(Maps())).result
    {
      if !hasPositiveWeightsSum {
        if |positiveWeights.entries| > 0 {
          return Failure(TypeError);
        }
      } else {
        Add(positiveWeightsSum, positiveWeights);
      }
      if !hasNegativeWeightsSum {
        if |negativeWeights.entries| > 0 {
          return Failure(TypeError);
        }
      } else {
        Add(negativeWeightsSum, negativeWeights);
      }
      r := Success(true);
    }

    /** `train_features(features, expected)`. */
    method TrainFeatures(features: FeatureHash, expected: bool) returns (r: Result<bool, WinnowError>)
      requires Valid() && features.Valid() && features !in Repr()
      modifies Repr()
      ensures Valid()
      ensures var st := WinnowModel.TrainFeatures(old(Maps()), settings, features.entries, expected);
        Maps() == st.m && r == st.result
    {
      ghost var m := Maps();
      FillWeights(features);
      TrainScoreIsPerception(m, settings, features.entries);
      var p := PerceiveFeatures(features, true, positiveWeights, negativeWeights, 0);
      var score := p.value.classification;
      if (expected && score <= settings.margin) || (!expected && score >= -settings.margin) {
        UpdateWeights(features, expected);
        r := Success(false);
      } else if settings.doAveraging {
        r := Average();
      } else {
        r := Success(true);
      }
    }

    /** `trainOnline(features, expected)`: edit the hash, then train on it. */
    method TrainOnline(features: FeatureHash, expected: bool) returns (r: Result<bool, WinnowError>)
      requires Valid() && features.Valid() && features !in Repr()
      modifies Repr(), features
      ensures Valid() && features.Valid() && features.entries == TrainingInput(settings, old(features.entries))
      ensures var st := WinnowModel.TrainOnline(old(Maps()), settings, old(features.entries), expected);
        Maps() == st.m && r == st.result
    {
      EditFeatureValues(features, false);
      r := TrainFeatures(features, expected);
    }

    /** The first loop of `trainBatch`: every input is edited; an object shared by several samples is edited again, to no effect. */
    method EditAll(dataset: seq<Datum>)
      requires Valid() && forall i :: 0 <= i < |dataset| ==> dataset[i].input.Valid() && dataset[i].input !in Repr()
      modifies Inputs(dataset)
      ensures Valid() && Maps() == old(Maps())
      ensures forall i :: 0 <= i < |dataset| ==> dataset[i].input.Valid()
      ensures SamplesOf(dataset) == EditInputs(settings, old(SamplesOf(dataset)))
    {
      ghost var before := SamplesOf(dataset);
      SamplesOfHolds(dataset);
      SharedInputs(dataset, before);
      var i := 0;
      while i < |dataset|
        invariant 0 <= i <= |dataset|
        invariant Valid() && Maps() == old(Maps())
        invariant forall j :: 0 <= j < |dataset| ==> dataset[j].input.Valid()
        invariant forall j :: 0 <= j < |dataset| ==>
          dataset[j].input.entries == before[j].input || dataset[j].input.entries == TrainingInput(settings, before[j].input)
        invariant forall j :: 0 <= j < i ==> dataset[j].input.entries == TrainingInput(settings, before[j].input)
      {
        var o := dataset[i].input;
        EditIdempotent(before[i].input, settings.bias, {}, false);
        EditFeatureValues(o, false);
        forall j | 0 <= j <= i
          ensures dataset[j].input.entries == TrainingInput(settings, before[j].input)
        {
          if dataset[j].input == o {
            assert before[j].input == before[i].input;
          }
        }
        i := i + 1;
      }
      SamplesOfHolds(dataset);
      assert forall j :: 0 <= j < |dataset| ==> SamplesOf(dataset)[j] == EditInputs(settings, before)[j];
    }

    /** One pass of `train_features` over the edited samples; the first error ends it. */
    method RunPass(dataset: seq<Datum>, ghost samples: seq<Sample>) returns (r: Result<(), WinnowError>)
      requires Valid() && forall i :: 0 <= i < |dataset| ==> dataset[i].input.Valid() && dataset[i].input !in Repr()
      requires Holds(dataset, samples)
      modifies Repr()
      ensures Valid() && Holds(dataset, samples)
      ensures var st := Pass(old(Maps()), settings, samples); Maps() == st.m && r == st.result
    {
      ghost var m := Maps();
      var i := 0;
      while i < |dataset|
        invariant 0 <= i <= |dataset|
        invariant Valid() && Holds(dataset, samples)
        invariant Pass(m, settings, samples[..i]) == Step(Maps(), Success(()))
      {
        var d := dataset[i];
        assert samples[i] == Sample(d.input.entries, d.expected);
        PassNext(m, settings, samples, i, Maps());
        var ok := TrainFeatures(d.input, d.expected);
        if ok.Failure? {
          PassStops(m, settings, samples, i + 1);
          return Failure(ok.error);
        }
        i := i + 1;
      }
      assert samples[..i] == samples;
      r := Success(());
    }

    /** `trainBatch(dataset)`: edit every input, then `retrain_count + 1` passes. */
    method TrainBatch(dataset: seq<Datum>) returns (r: Result<(), WinnowError>)
      requires Valid() && forall i :: 0 <= i < |dataset| ==> dataset[i].input.Valid() && dataset[i].input !in Repr()
      modifies Repr(), Inputs(dataset)
      ensures Valid()
      ensures SamplesOf(dataset) == EditInputs(settings, old(SamplesOf(dataset)))
      ensures var st := WinnowModel.TrainBatch(old(Maps()), settings, old(SamplesOf(dataset)));
        Maps() == st.m && r == st.result
    {
      EditAll(dataset);
      ghost var samples := SamplesOf(dataset);
      SamplesOfHolds(dataset);
      r := RunRounds(dataset, samples);
      SamplesOfHolds(dataset);
    }

    /** The passes of `trainBatch`: `for (r = 0; r <= retrain_count; ++r)`, the first error ending them. */
    method RunRounds(dataset: seq<Datum>, ghost samples: seq<Sample>) returns (r: Result<(), WinnowError>)
      requires Valid() && forall i :: 0 <= i < |dataset| ==> dataset[i].input.Valid() && dataset[i].input !in Repr()
      requires Holds(dataset, samples)
      modifies Repr()
      ensures Valid() && Holds(dataset, samples)
      ensures var st := Rounds(old(Maps()), settings, samples, RoundCount(settings)); Maps() == st.m && r == st.result
    {
      ghost var m := Maps();
      var n := RoundCount(settings);
      var round := 0;
      while round < n
        invariant 0 <= round <= n
        invariant Valid() && Holds(dataset, samples)
        invariant Rounds(m, settings, samples, round) == Step(Maps(), Success(()))
      {
        r := RunPass(dataset, samples);
        if r.Failure? {
          RoundsStop(m, settings, samples, round + 1, n);
          return;
        }
        round := round + 1;
      }
      r := Success(());
    }

    /** `classify(features, explain, continuous_output)`. */
    method Classify(features: FeatureHash, explain: int, continuous: bool) returns (r: Result<Perception, WinnowError>)
      requires Valid() && features.Valid() && features !in Repr()
      modifies features
      ensures features.Valid() && features.entries == ClassifyInput(Maps(), settings, old(features.entries))
      ensures r == WinnowModel.Classify(Maps(), settings, old(features.entries), explain, continuous)
    {
      EditFeatureValues(features, true);
      if settings.doAveraging {
        r := PerceiveFeatures(features, continuous, PositiveSum(), NegativeSum(), explain);
      } else {
        r := PerceiveFeatures(features, continuous, positiveWeights, negativeWeights, explain);
      }
    }

    /** `toJSON()`: the four maps. */
    function ToJson(): (j: WinnowJson)
      reads this, Repr()
      ensures j.positiveWeights == Some(positiveWeights.entries) && j.negativeWeights == Some(negativeWeights.entries)
      ensures j.positiveWeightsSum == (if hasPositiveWeightsSum then Some(positiveWeightsSum.entries) else None)
      ensures j.negativeWeightsSum == (if hasNegativeWeightsSum then Some(negativeWeightsSum.entries) else None)
    {
      SnapshotOf(Maps())
    }

    /** `fromJSON(json)`: the loaded maps; a missing weight map throws part-way. */
    method FromJson(j: WinnowJson) returns (r: Result<(), WinnowError>)
      requires Valid() && JsonWf(j)
      modifies this, Repr()
      ensures Valid()
      ensures Maps() == LoadJson(old(Maps()), j).m && r == LoadJson(old(Maps()), j).result
    {
      if j.positiveWeights.None? {
        return Failure(NoPositiveWeights);
      }
      positiveWeights.entries := j.positiveWeights.value;
      hasPositiveWeightsSum := Load(positiveWeightsSum, j.positiveWeightsSum);
      if j.negativeWeights.None? {
        return Failure(NoNegativeWeights);
      }
      negativeWeights.entries := j.negativeWeights.value;
      hasNegativeWeightsSum := Load(negativeWeightsSum, j.negativeWeightsSum);
      r := Success(());
    }

    /** A defined map is copied into `target`; an undefined one leaves `target` as it is and reports it undefined. */
    static method Load(target: FeatureHash, h: Option<Hash>) returns (defined: bool)
      modifies target
      ensures defined == h.Some? && (defined ==> target.entries == h.value) && (!defined ==> target.entries == old(target.entries))
    {
      if h.Some? {
        target.entries := h.value;
      }
      defined := h.Some?;
    }
  }

  /** An error in the loop of `perceive_features` is the function's result. */
  lemma {:induction false} ContributionsStop(es: Hash, n: nat, e: WinnowError, pos: Option<Hash>, neg: Option<Hash>)
    requires 0 < n <= |es| && Contributions(es[..n], pos, neg) == Failure(e)
    ensures Contributions(es, pos, neg) == Failure(e)
    decreases |es| - n
  {
    if n < |es| {
      assert es[..n + 1][..n] == es[..n];
      ContributionsStop(es, n + 1, e, pos, neg);
    } else {
      assert es[..n] == es;
    }
  }

  /** A feature with both weights adds its contribution. */
  lemma ContributionsPush(es: Hash, i: nat, pos: Hash, neg: Hash, cs: seq<Contribution>)
    requires i < |es| && Contributions(es[..i], Some(pos), Some(neg)) == Success(cs)
    requires es[i].key in Keys(pos) && es[i].key in Keys(neg)
    ensures var f, pw, nw := es[i], Value(pos, es[i].key), Value(neg, es[i].key);
      Contributions(es[..i + 1], Some(pos), Some(neg)) == Success(cs + [Contribution(f.key, f.value, pw, nw, f.value * (pw - nw))])
  {
    var h := es[..i + 1];
    assert h[..|h| - 1] == es[..i];
    assert h[|h| - 1] == es[i];
    var r := Contributions(h, Some(pos), Some(neg)).value;
    assert |r| == |cs| + 1 && r[..|cs|] == cs;
    assert r[|cs|].relevance == es[i].value * (Value(pos, es[i].key) - Value(neg, es[i].key));
  }

  /** The score `train_features` tests is what `perceive_features` computes on the filled maps. */
  lemma TrainScoreIsPerception(m: Maps, s: Settings, features: Hash)
    requires MapsWf(m)
    ensures var f := Filled(m, s, features);
      Perceive(features, Some(f.pos), Some(f.neg), s.threshold, true, 0, s.detailedExplanations) == Success(Plain(TrainScore(m, s, features)))
  {
    var f := Filled(m, s, features);
    FilledSpec(m, s, features);
    ContributionsOk(features, Some(f.pos), Some(f.neg));
  }

  /** The pass over the first i + 1 samples, from the pass over the first i. */
  lemma PassNext(m: Maps, s: Settings, samples: seq<Sample>, i: nat, before: Maps)
    requires MapsWf(m) && i < |samples| && Pass(m, s, samples[..i]) == Step(before, Success(()))
    ensures MapsWf(before)
    ensures var st := WinnowModel.TrainFeatures(before, s, samples[i].input, samples[i].expected);
      Pass(m, s, samples[..i + 1]) == Step(st.m, if st.result.Failure? then Failure(st.result.error) else Success(()))
  {
    assert samples[..i + 1][..i] == samples[..i];
  }

  /** The three ways the i-th feature ends the loop with an error. */
  lemma ContributionsFail(es: Hash, i: nat, pos: Option<Hash>, neg: Option<Hash>, cs: seq<Contribution>)
    requires i < |es| && Contributions(es[..i], pos, neg) == Success(cs)
    ensures pos.None? ==> Contributions(es, pos, neg) == Failure(TypeError)
    ensures pos.Some? && es[i].key in Keys(pos.value) && neg.None? ==> Contributions(es, pos, neg) == Failure(TypeError)
    ensures pos.Some? && es[i].key in Keys(pos.value) && neg.Some? && es[i].key !in Keys(neg.value) ==>
      Contributions(es, pos, neg) == Failure(NegativeWeightMissing(es[i].key))
  {
    var h := es[..i + 1];
    assert h[..|h| - 1] == es[..i];
    assert h[|h| - 1] == es[i];
    if pos.None? || (es[i].key in Keys(pos.value) && neg.None?) {
      ContributionsStop(es, i + 1, TypeError, pos, neg);
    } else if es[i].key in Keys(pos.value) && es[i].key !in Keys(neg.value) {
      ContributionsStop(es, i + 1, NegativeWeightMissing(es[i].key), pos, neg);
    }
  }

  /** A feature without a positive weight contributes nothing. */
  lemma ContributionsSkip(es: Hash, i: nat, pos: Hash, neg: Option<Hash>, cs: seq<Contribution>)
    requires i < |es| && Contributions(es[..i], Some(pos), neg) == Success(cs) && es[i].key !in Keys(pos)
    ensures Contributions(es[..i + 1], Some(pos), neg) == Success(cs)
  {
    var h := es[..i + 1];
    assert h[..|h| - 1] == es[..i];
    assert h[|h| - 1] == es[i];
  }

  /** A failing sample ends the pass with its error. */
  lemma {:induction false} PassStops(m: Maps, s: Settings, samples: seq<Sample>, n: nat)
    requires MapsWf(m) && 0 < n <= |samples| && Pass(m, s, samples[..n]).result.Failure?
    ensures Pass(m, s, samples) == Pass(m, s, samples[..n])
    decreases |samples| - n
  {
    if n < |samples| {
      assert samples[..n + 1][..n] == samples[..n];
      PassStops(m, s, samples, n + 1);
    } else {
      assert samples[..n] == samples;
    }
  }

  /** A failing pass ends the rounds with its error. */
  lemma {:induction false} RoundsStop(m: Maps, s: Settings, samples: seq<Sample>, k: nat, n: nat)
    requires MapsWf(m) && 0 < k <= n && Rounds(m, s, samples, k).result.Failure?
    ensures Rounds(m, s, samples, n) == Rounds(m, s, samples, k)
    decreases n - k
  {
    if k < n {
      RoundsStop(m, s, samples, k + 1, n);
    }
  }
}
