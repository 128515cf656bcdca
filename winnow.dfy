/**
 * The WinnowHash learner of dist/index.umd.js:743-964: a balanced Winnow
 * over sparse feature hashes, with one positive and one negative weight per
 * feature, multiplicative promotion and demotion on mistakes, and optional
 * averaging into two sum maps. The functions here state what each operation
 * computes; `class WinnowHash` keeps the four maps as shared hash objects and
 * updates them in place.
 */
module WinnowModel {
  import opened Wrappers
  import opened SparseHash
  import opened Ranking

  // ---------------------------------------------------------------------------
  // Options (dist/index.umd.js:743-766)
  // ---------------------------------------------------------------------------

  /** The constructor's options; `None` is an absent option. `debug` only prints and is not modelled. */
  datatype WinnowOptions = WinnowOptions(
    defaultPositiveWeight: Option<real>, defaultNegativeWeight: Option<real>, doAveraging: Option<bool>,
    threshold: Option<real>, promotion: Option<real>, demotion: Option<real>, margin: Option<real>,
    retrainCount: Option<int>, detailedExplanations: Option<bool>, bias: Option<real>)

  /** The settings the constructor stores. */
  datatype Settings = Settings(
    defaultPositiveWeight: real, defaultNegativeWeight: real, doAveraging: bool,
    threshold: real, promotion: real, demotion: real, margin: real,
    retrainCount: int, detailedExplanations: bool, bias: real)

  /** `opts.x || false`. */
  function OrFalse(x: Option<bool>): bool
  {
    x == Some(true)
  }

  /**
   * Options read with `||` fall back to their default when absent or 0
   * (weights 2 and 1, promotion 1.5, demotion 0.5, retrain count 0);
   * `threshold`, `margin` and `bias` are read with `in`, so an explicit 0 is kept.
   */
  function Configure(o: WinnowOptions): (s: Settings)
    ensures o.threshold.Some? ==> s.threshold == o.threshold.value
    ensures o.margin.Some? ==> s.margin == o.margin.value
    ensures o.bias.Some? ==> s.bias == o.bias.value
    ensures s.doAveraging <==> o.doAveraging == Some(true)
  {
    Settings(
      OrDefault(o.defaultPositiveWeight, 2.0), OrDefault(o.defaultNegativeWeight, 1.0), OrFalse(o.doAveraging),
      InOrDefault(o.threshold, 1.0), OrDefault(o.promotion, 1.5), OrDefault(o.demotion, 0.5),
      InOrDefault(o.margin, 1.0), OrDefaultInt(o.retrainCount, 0), OrFalse(o.detailedExplanations),
      InOrDefault(o.bias, 1.0))
  }

  /** Without options: weights 2 and 1, threshold 1, promotion 1.5, demotion 0.5, margin 1, bias 1, no averaging, no retraining. */
  lemma DefaultSettings()
    ensures Configure(WinnowOptions(None, None, None, None, None, None, None, None, None, None))
      == Settings(2.0, 1.0, false, 1.0, 1.5, 0.5, 1.0, 0, false, 1.0)
  {
  }

  /** A 0 given for a `||` option is replaced by its default; a 0 given for `threshold`, `margin` or `bias` is kept. */
  lemma ConfigureZeros(o: WinnowOptions)
    ensures var s := Configure(o);
      && (o.defaultPositiveWeight == Some(0.0) ==> s.defaultPositiveWeight == 2.0)
      && (o.defaultNegativeWeight == Some(0.0) ==> s.defaultNegativeWeight == 1.0)
      && (o.promotion == Some(0.0) ==> s.promotion == 1.5)
      && (o.demotion == Some(0.0) ==> s.demotion == 0.5)
      && (o.threshold.Some? ==> s.threshold == o.threshold.value)
      && (o.margin.Some? ==> s.margin == o.margin.value)
      && (o.bias.Some? ==> s.bias == o.bias.value)
  {
  }
  // ---------------------------------------------------------------------------
  // editFeatureValues (dist/index.umd.js:783-793)
  // ---------------------------------------------------------------------------

  /** A truthy `bias` option adds the feature "bias" with value 1 when the hash lacks it. */
  function WithBias(h: Hash, bias: real): Hash
  {
    if bias != 0.0 && "bias" !in Keys(h) then h + [Entry("bias", 1.0)] else h
  }

  /** The hash before normalisation: the bias, then (optionally) only the `known` features. */
  function Prepared(h: Hash, bias: real, known: set<string>, removeUnknown: bool): Hash
  {
    var b := WithBias(h, bias);
    if removeUnknown then Restrict(b, known) else b
  }

  /** `editFeatureValues(features, remove_unknown_features)`, with `known` the positive-weight features. */
  function Edit(h: Hash, bias: real, known: set<string>, removeUnknown: bool): Hash
  {
    Normalize(Prepared(h, bias, known, removeUnknown))
  }

  lemma WithBiasSpec(h: Hash, bias: real)
    requires Wf(h)
    ensures Wf(WithBias(h, bias))
    ensures Keys(WithBias(h, bias)) == Keys(h) + (if bias != 0.0 then {"bias"} else {})
    ensures forall k :: k in Keys(h) ==> Value(WithBias(h, bias), k) == Value(h, k)
    ensures bias != 0.0 && "bias" !in Keys(h) ==> "bias" in Keys(WithBias(h, bias)) && Value(WithBias(h, bias), "bias") == 1.0
  {
    if bias != 0.0 && "bias" !in Keys(h) {
      var e := Entry("bias", 1.0);
      KeysSnoc(h, e);
      assert Wf(h + [e]);
      ValueSnoc(h, e, "bias");
      forall k | k in Keys(h)
        ensures Value(h + [e], k) == Value(h, k)
      {
        ValueSnoc(h, e, k);
      }
    }
  }

  /**
   * The edited hash is well formed; it has the bias feature exactly when the
   * option is truthy or the feature was there, unless unknown features are
   * removed and "bias" is not known; with removal every feature is known; and
   * its L1 norm is 1 unless the prepared hash had norm 0, which is then kept.
   */
  lemma EditSpec(h: Hash, bias: real, known: set<string>, removeUnknown: bool)
    requires Wf(h)
    ensures var p := Prepared(h, bias, known, removeUnknown);
      var r := Edit(h, bias, known, removeUnknown);
      && Wf(r)
      && var kb := Keys(h) + (if bias != 0.0 then {"bias"} else {});
      && Keys(r) == Keys(p) == (if removeUnknown then kb * known else kb)
      && ("bias" in Keys(r) <==> ("bias" in Keys(h) || bias != 0.0) && (!removeUnknown || "bias" in known))
      && (removeUnknown ==> Keys(r) <= known)
      && (forall k :: k in Keys(p) ==> k in Keys(WithBias(h, bias)) && Value(p, k) == Value(WithBias(h, bias), k))
      && (SumAbs(p) != 0.0 ==> SumAbs(r) == 1.0)
      && (SumAbs(p) == 0.0 ==> r == p)
  {
    var b := WithBias(h, bias);
    WithBiasSpec(h, bias);
    var p := Prepared(h, bias, known, removeUnknown);
    if removeUnknown {
      RestrictSpec(b, known);
    }
    NormalizeSpec(p);
  }

  /** Editing an edited hash again changes nothing. */
  lemma EditIdempotent(h: Hash, bias: real, known: set<string>, removeUnknown: bool)
    requires Wf(h)
    ensures Edit(Edit(h, bias, known, removeUnknown), bias, known, removeUnknown) == Edit(h, bias, known, removeUnknown)
  {
    var r := Edit(h, bias, known, removeUnknown);
    EditSpec(h, bias, known, removeUnknown);
    var b := WithBias(r, bias);
    if removeUnknown {
      if bias != 0.0 && "bias" !in Keys(r) {
        RestrictSnoc(r, Entry("bias", 1.0), known);
      }
      RestrictAllKnown(r, known);
    }
    assert Prepared(r, bias, known, removeUnknown) == r;
    NormalizeIdempotent(Prepared(h, bias, known, removeUnknown));
  }
  // ---------------------------------------------------------------------------
  // perceive_features (dist/index.umd.js:885-948)
  // ---------------------------------------------------------------------------

  /** How the learner's operations throw. */
  datatype WinnowError =
    | TypeError                            // `in` or a property read on an undefined map
    | NegativeWeightMissing(feature: string) // `isFinite(negative_weight)` fails: the key is absent
    | NoPositiveWeights                    // `fromJSON` without positive weights
    | NoNegativeWeights                    // `fromJSON` without negative weights

  /** A feature that has a positive weight: its value, both weights and `value * (positive - negative)`. */
  datatype Contribution = Contribution(feature: string, value: real, positiveWeight: real, negativeWeight: real, relevance: real)

  function AbsRelevance(c: Contribution): real
  {
    Abs(c.relevance)
  }

  /**
   * The loop over the features in order: a feature without a positive
   * weight is skipped; reading an undefined map is a TypeError; a positive
   * weight without a negative one fails the `isFinite` check.
   */
  function Contributions(features: Hash, pos: Option<Hash>, neg: Option<Hash>): Result<seq<Contribution>, WinnowError>
    decreases |features|
  {
    if |features| == 0 then Success([])
    else
      match Contributions(features[..|features| - 1], pos, neg)
      case Failure(e) => Failure(e)
      case Success(cs) =>
        var f := features[|features| - 1];
        if pos.None? then Failure(TypeError)
        else if f.key !in Keys(pos.value) then Success(cs)
        else if neg.None? then Failure(TypeError)
        else if f.key !in Keys(neg.value) then Failure(NegativeWeightMissing(f.key))
        else
          var pw, nw := Value(pos.value, f.key), Value(neg.value, f.key);
          Success(cs + [Contribution(f.key, f.value, pw, nw, f.value * (pw - nw))])
  }

  /** `score += relevance` over the contributions. */
  function NetScore(cs: seq<Contribution>): real
    decreases |cs|
  {
    if |cs| == 0 then 0.0 else NetScore(cs[..|cs| - 1]) + cs[|cs| - 1].relevance
  }

  /** An explanation record: all of it with `detailed_explanations`, else the feature and relevance it is printed from. */
  datatype WinnowExplanation = Detailed(c: Contribution) | Brief(feature: string, relevance: real)

  function Render(cs: seq<Contribution>, detailed: bool): (r: seq<WinnowExplanation>)
    ensures |r| == |cs|
  {
    seq(|cs|, i requires 0 <= i < |cs| => if detailed then Detailed(cs[i]) else Brief(cs[i].feature, cs[i].relevance))
  }

  /** What `perceive_features` returns: the classification, with an explanation when `explain > 0`. */
  datatype Perception = Plain(classification: real) | Explained(classification: real, explanation: seq<WinnowExplanation>)

  /**
   * `perceive_features(features, continuous_output, pos, neg, explain)`: the
   * score minus the threshold, or 1/0 by its sign; the explanation is the
   * contributions ranked by descending |relevance|, the first `explain` kept.
   */
  function Perceive(features: Hash, pos: Option<Hash>, neg: Option<Hash>, threshold: real,
                    continuous: bool, explain: int, detailed: bool): (r: Result<Perception, WinnowError>)
    ensures r.Failure? <==> Contributions(features, pos, neg).Failure?
    ensures r.Success? ==> (r.value.Explained? <==> explain > 0)
    ensures r.Success? && !continuous ==> r.value.classification == 0.0 || r.value.classification == 1.0
  {
    match Contributions(features, pos, neg)
    case Failure(e) => Failure(e)
    case Success(cs) =>
      var score := NetScore(cs) - threshold;
      var c := if continuous then score else if score > 0.0 then 1.0 else 0.0;
      if explain > 0 then Success(Explained(c, Render(Take(SortDesc(cs, AbsRelevance), explain), detailed)))
      else Success(Plain(c))
  }

  /** Every feature with a positive weight can be read: the maps are defined and it has a negative weight too. */
  predicate Readable(features: Hash, pos: Option<Hash>, neg: Option<Hash>)
  {
    && (|features| > 0 ==> pos.Some?)
    && (pos.Some? ==>
          forall i :: 0 <= i < |features| && features[i].key in Keys(pos.value) ==> neg.Some? && features[i].key in Keys(neg.value))
  }

  /** The per-feature terms of the score: `value * (pos - neg)` for features with a positive weight, 0 for the others. */
  function NetTerms(features: Hash, pos: Hash, neg: Hash): (r: seq<real>)
    requires Readable(features, Some(pos), Some(neg))
    ensures |r| == |features|
  {
    seq(|features|, i requires 0 <= i < |features| =>
      var k := features[i].key;
      if k in Keys(pos) then features[i].value * (Value(pos, k) - Value(neg, k)) else 0.0)
  }

  lemma ReadablePrefix(features: Hash, pos: Option<Hash>, neg: Option<Hash>, n: nat)
    requires Readable(features, pos, neg) && 0 < n <= |features|
    ensures Readable(features[..n], pos, neg)
  {
  }

  /** Perception throws exactly when some feature with a positive weight cannot be read. */
  lemma {:induction false} ContributionsOk(features: Hash, pos: Option<Hash>, neg: Option<Hash>)
    ensures Contributions(features, pos, neg).Success? <==> Readable(features, pos, neg)
    decreases |features|
  {
    if |features| > 0 {
      var n := |features| - 1;
      ContributionsOk(features[..n], pos, neg);
      if Readable(features, pos, neg) && n > 0 {
        ReadablePrefix(features, pos, neg, n);
      }
      if !Readable(features[..n], pos, neg) && n > 0 {
        assert forall i :: 0 <= i < n ==> features[..n][i] == features[i];
      }
    }
  }

  lemma NetTermsPrefix(features: Hash, pos: Hash, neg: Hash, n: nat)
    requires Readable(features, Some(pos), Some(neg)) && 0 < n <= |features|
    ensures Readable(features[..n], Some(pos), Some(neg))
    ensures NetTerms(features, pos, neg)[..n] == NetTerms(features[..n], pos, neg)
  {
    ReadablePrefix(features, Some(pos), Some(neg), n);
    var a, b := NetTerms(features, pos, neg)[..n], NetTerms(features[..n], pos, neg);
    forall i | 0 <= i < n
      ensures a[i] == b[i]
    {
      assert features[..n][i] == features[i];
    }
  }

  /** The net score of the contributions is the sum of the score's per-feature terms. */
  lemma {:induction false} NetScoreIsTotal(features: Hash, pos: Hash, neg: Hash)
    requires Readable(features, Some(pos), Some(neg))
    ensures Contributions(features, Some(pos), Some(neg)).Success?
    ensures NetScore(Contributions(features, Some(pos), Some(neg)).value) == Total(NetTerms(features, pos, neg))
    decreases |features|
  {
    ContributionsOk(features, Some(pos), Some(neg));
    if |features| > 0 {
      var n := |features| - 1;
      if n > 0 {
        NetTermsPrefix(features, pos, neg, n);
      }
      NetScoreIsTotal(features[..n], pos, neg);
      var ts := NetTerms(features, pos, neg);
      assert ts[..n] == NetTerms(features[..n], pos, neg);
      assert Total(ts) == Total(ts[..n]) + ts[n];
      var cs := Contributions(features[..n], Some(pos), Some(neg)).value;
      var f := features[n];
      if f.key in Keys(pos) {
        assert f.key in Keys(neg);
        var r := Contributions(features, Some(pos), Some(neg)).value;
        assert |r| == |cs| + 1 && r[..|cs|] == cs;
        assert r[|cs|].relevance == ts[n];
      } else {
        assert Contributions(features, Some(pos), Some(neg)).value == cs;
      }
    }
  }

  /**
   * The contributions are the features that have a positive weight, in
   * input order, each with both weights and its relevance.
   */
  lemma {:induction false} ContributionsSpec(features: Hash, pos: Hash, neg: Hash)
    requires Readable(features, Some(pos), Some(neg))
    ensures Contributions(features, Some(pos), Some(neg)).Success?
    ensures var cs := Contributions(features, Some(pos), Some(neg)).value;
      var r := Restrict(features, Keys(pos));
      && |cs| == |r|
      && (forall i :: 0 <= i < |cs| ==>
            && cs[i].feature == r[i].key && cs[i].value == r[i].value
            && r[i].key in Keys(pos) && cs[i].positiveWeight == Value(pos, r[i].key)
            && r[i].key in Keys(neg) && cs[i].negativeWeight == Value(neg, r[i].key)
            && cs[i].relevance == cs[i].value * (cs[i].positiveWeight - cs[i].negativeWeight))
    decreases |features|
  {
    ContributionsOk(features, Some(pos), Some(neg));
    if |features| > 0 {
      var n := |features| - 1;
      var p, f := features[..n], features[n];
      assert features == p + [f];
      if n > 0 {
        ReadablePrefix(features, Some(pos), Some(neg), n);
      }
      ContributionsSpec(p, pos, neg);
      RestrictSnoc(p, f, Keys(pos));
    }
  }

  /**
   * The discrete classification is 1 exactly when the score is positive; the
   * explanation appears exactly when `explain > 0`, holds `explain` records or
   * all contributing features, ranked by descending |relevance|, and none left
   * out is more relevant than one kept.
   */
  lemma PerceiveSpec(features: Hash, pos: Hash, neg: Hash, threshold: real, continuous: bool, explain: int, detailed: bool)
    requires Readable(features, Some(pos), Some(neg))
    ensures var r := Perceive(features, Some(pos), Some(neg), threshold, continuous, explain, detailed);
      var score := Total(NetTerms(features, pos, neg)) - threshold;
      && r.Success?
      && Contributions(features, Some(pos), Some(neg)).Success?
      && var cs := Contributions(features, Some(pos), Some(neg)).value;
      && (continuous ==> r.value.classification == score)
      && (!continuous ==> (r.value.classification == 1.0 <==> score > 0.0) && (r.value.classification == 0.0 <==> score <= 0.0))
      && (r.value.Explained? <==> explain > 0)
      && (explain > 0 ==>
            var ranked := Take(SortDesc(cs, AbsRelevance), explain);
            && |cs| == |Restrict(features, Keys(pos))|
            && r.value.explanation == Render(ranked, detailed)
            && |ranked| == (if explain < |cs| then explain else |cs|)
            && SortedDesc(ranked, AbsRelevance)
            && multiset(ranked) <= multiset(cs)
            && forall x, y :: x in multiset(cs) - multiset(ranked) && y in ranked ==> Abs(y.relevance) >= Abs(x.relevance))
  {
    ContributionsSpec(features, pos, neg);
    NetScoreIsTotal(features, pos, neg);
    var cs := Contributions(features, Some(pos), Some(neg)).value;
    SortDescSpec(cs, AbsRelevance);
    TopRecords(cs, AbsRelevance, explain);
  }

  /** Perception on undefined maps: a TypeError for any feature, nothing to read for none. */
  lemma PerceiveUndefined(features: Hash, neg: Option<Hash>, threshold: real, continuous: bool, explain: int, detailed: bool)
    ensures |features| > 0 ==> Perceive(features, None, neg, threshold, continuous, explain, detailed) == Failure(TypeError)
    ensures |features| == 0 ==> Perceive(features, None, neg, threshold, continuous, explain, detailed).Success?
  {
    if |features| > 0 {
      ContributionsOk(features, None, neg);
      FirstErrorUndefined(features, neg);
    }
  }

  lemma {:induction false} FirstErrorUndefined(features: Hash, neg: Option<Hash>)
    requires |features| > 0
    ensures Contributions(features, None, neg) == Failure(TypeError)
    decreases |features|
  {
    if |features| > 1 {
      FirstErrorUndefined(features[..|features| - 1], neg);
    }
  }
  // ---------------------------------------------------------------------------
  // train_features (dist/index.umd.js:800-841)
  // ---------------------------------------------------------------------------

  /** The first loop for one map: every feature without a weight gets the default `d`, appended in feature order. */
  function Fill(w: Hash, features: Hash, d: real): (r: Hash)
    ensures |w| <= |r| <= |w| + |features|
    decreases |features|
  {
    if |features| == 0 then w
    else
      var w' := Fill(w, features[..|features| - 1], d);
      var k := features[|features| - 1].key;
      if k in Keys(w') then w' else w' + [Entry(k, d)]
  }

  /**
   * Filling keeps the old entries as they are and in place, adds exactly the
   * missing features, and gives each of those the default.
   */
  lemma {:induction false} FillSpec(w: Hash, features: Hash, d: real)
    requires Wf(w)
    ensures var r := Fill(w, features, d);
      && Wf(r) && |w| <= |r| && r[..|w|] == w
      && Keys(r) == Keys(w) + Keys(features)
      && forall k :: k in Keys(r) ==> Value(r, k) == if k in Keys(w) then Value(w, k) else d
    decreases |features|
  {
    if |features| > 0 {
      var p, f := features[..|features| - 1], features[|features| - 1];
      assert features == p + [f];
      KeysSnoc(p, f);
      FillSpec(w, p, d);
      var w' := Fill(w, p, d);
      if f.key !in Keys(w') {
        var e := Entry(f.key, d);
        KeysSnoc(w', e);
        assert Wf(w' + [e]);
        assert (w' + [e])[..|w|] == w'[..|w|];
        forall k | k in Keys(w' + [e])
          ensures Value(w' + [e], k) == if k in Keys(w) then Value(w, k) else d
        {
          ValueSnoc(w', e, k);
        }
      }
    }
  }

  /** Promotion multiplies by `rate * (1 + value)`, demotion by `rate * (1 - value)`. */
  datatype Direction = Up | Down

  function Factor(rate: real, dir: Direction, value: real): real
  {
    match dir
    case Up => rate * (1.0 + value)
    case Down => rate * (1.0 - value)
  }

  /** Two hashes with the same keys at the same positions have the same key set. */
  lemma SameKeys(a: Hash, b: Hash)
    requires |a| == |b| && forall i :: 0 <= i < |a| ==> a[i].key == b[i].key
    ensures Keys(a) == Keys(b) && (Wf(a) ==> Wf(b))
  {
    forall k | k in Keys(a)
      ensures k in Keys(b)
    {
      var i :| 0 <= i < |a| && a[i].key == k;
      assert b[i].key == k;
    }
    forall k | k in Keys(b)
      ensures k in Keys(a)
    {
      var i :| 0 <= i < |b| && b[i].key == k;
      assert a[i].key == k;
    }
  }

  /** One multiplication of the update loop: `w[k] *= x` for a present key. */
  function MulAt(w: Hash, k: string, x: real): (r: Hash)
    requires k in Keys(w)
    ensures |r| == |w| && Keys(r) == Keys(w) && (Wf(w) ==> Wf(r))
  {
    var i := IndexOf(w, k);
    var r := w[i := Entry(k, w[i].value * x)];
    SameKeys(w, r);
    r
  }

  /** `MulAtSpec` for one key `k'`. */
  lemma MulAtValue(w: Hash, k: string, x: real, k': string)
    requires Wf(w) && k in Keys(w) && k' in Keys(w)
    ensures k' in Keys(MulAt(w, k, x))
    ensures Value(MulAt(w, k, x), k') == if k' == k then Value(w, k) * x else Value(w, k')
  {
    MulAtSpec(w, k, x);
  }

  lemma MulAtSpec(w: Hash, k: string, x: real)
    requires Wf(w) && k in Keys(w)
    ensures var r := MulAt(w, k, x);
      && Wf(r) && Keys(r) == Keys(w)
      && forall k' :: k' in Keys(w) ==> Value(r, k') == if k' == k then Value(w, k) * x else Value(w, k')
  {
    var r := MulAt(w, k, x);
    forall k' | k' in Keys(w)
      ensures Value(r, k') == if k' == k then Value(w, k) * x else Value(w, k')
    {
      var j := IndexOf(w, k');
      ValueAt(w, j);
      ValueAt(r, j);
    }
  }

  /** The update loop for one map: `w[feature] *= Factor(rate, dir, value)` for each feature in order. */
  function Reweight(w: Hash, features: Hash, rate: real, dir: Direction): (r: Hash)
    requires Keys(features) <= Keys(w)
    ensures |r| == |w| && Keys(r) == Keys(w) && (Wf(w) ==> Wf(r))
    decreases |features|
  {
    if |features| == 0 then w
    else
      var p, f := features[..|features| - 1], features[|features| - 1];
      KeysInit(features);
      MulAt(Reweight(w, p, rate, dir), f.key, Factor(rate, dir, f.value))
  }

  /** The keys of a nonempty hash are those of all its entries but the last, and the last one's. */
  lemma KeysInit(h: Hash)
    requires |h| > 0
    ensures Keys(h) == Keys(h[..|h| - 1]) + {h[|h| - 1].key}
  {
    assert h == h[..|h| - 1] + [h[|h| - 1]];
    KeysSnoc(h[..|h| - 1], h[|h| - 1]);
  }

  /** The weight of `k` that reweighting `w` by `features` should give: multiplied by its factor once if it is an input feature. */
  function Reweighted(w: Hash, features: Hash, rate: real, dir: Direction, k: string): real
    requires k in Keys(w)
  {
    if k in Keys(features) then Value(w, k) * Factor(rate, dir, Value(features, k)) else Value(w, k)
  }

  /** The weight of one key after reweighting is the intended one. */
  lemma {:induction false} ReweightValue(w: Hash, features: Hash, rate: real, dir: Direction, k: string)
    requires Wf(w) && Wf(features) && Keys(features) <= Keys(w) && k in Keys(w)
    ensures Value(Reweight(w, features, rate, dir), k) == Reweighted(w, features, rate, dir, k)
    decreases |features|
  {
    if |features| > 0 {
      var p, f := features[..|features| - 1], features[|features| - 1];
      KeysInit(features);
      WfPrefix(features, |features| - 1);
      ReweightValue(w, p, rate, dir, k);
      var w' := Reweight(w, p, rate, dir);
      assert Reweight(w, features, rate, dir) == MulAt(w', f.key, Factor(rate, dir, f.value));
      ReweightLast(w, features, w', rate, dir, k);
    } else {
      assert k !in Keys(features);
      assert Reweight(w, features, rate, dir) == w;
    }
  }

  /** The inductive step of `ReweightValue`: the last feature's multiplication of the weights `w'` after the others. */
  lemma ReweightLast(w: Hash, features: Hash, w': Hash, rate: real, dir: Direction, k: string)
    requires Wf(w') && Wf(features) && |features| > 0 && Keys(features) <= Keys(w') && k in Keys(w) && Keys(w') == Keys(w)
    requires Value(w', k) == Reweighted(w, features[..|features| - 1], rate, dir, k)
    ensures var f := features[|features| - 1];
      Value(MulAt(w', f.key, Factor(rate, dir, f.value)), k) == Reweighted(w, features, rate, dir, k)
  {
    var f := features[|features| - 1];
    var x := Factor(rate, dir, f.value);
    MulAtValue(w', f.key, x, k);
    ReweightKey(features, k, Value(w, k), Value(w', k), Value(MulAt(w', f.key, x), k), rate, dir);
  }

  /**
   * Reweighting keeps the keys and their order, multiplies the weight of
   * every input feature by its factor once, and leaves every other weight alone.
   */
  lemma ReweightSpec(w: Hash, features: Hash, rate: real, dir: Direction)
    requires Wf(w) && Wf(features) && Keys(features) <= Keys(w)
    ensures var r := Reweight(w, features, rate, dir);
      && Wf(r) && Keys(r) == Keys(w)
      && forall k :: k in Keys(w) ==> Value(r, k) == Reweighted(w, features, rate, dir, k)
  {
    forall k | k in Keys(w)
      ensures Value(Reweight(w, features, rate, dir), k) == Reweighted(w, features, rate, dir, k)
    {
      ReweightValue(w, features, rate, dir, k);
    }
  }

  /** The step of `ReweightValue` for one key `k` with old weight `a`, weight `b` after all features but the last and `c` after the last. */
  lemma ReweightKey(features: Hash, k: string, a: real, b: real, c: real, rate: real, dir: Direction)
    requires Wf(features) && |features| > 0
    requires var p := features[..|features| - 1];
      b == if k in Keys(p) then a * Factor(rate, dir, Value(p, k)) else a
    requires var f := features[|features| - 1];
      c == if k == f.key then b * Factor(rate, dir, f.value) else b
    ensures c == if k in Keys(features) then a * Factor(rate, dir, Value(features, k)) else a
  {
    var p, f := features[..|features| - 1], features[|features| - 1];
    assert features == p + [f];
    KeysSnoc(p, f);
    ValueSnoc(p, f, k);
  }

  /** The four maps: the running weights and the averaging sums, which `fromJSON` may leave undefined. */
  datatype Maps = Maps(pos: Hash, neg: Hash, posSum: Option<Hash>, negSum: Option<Hash>)

  predicate MapsWf(m: Maps)
  {
    Wf(m.pos) && Wf(m.neg) && (m.posSum.Some? ==> Wf(m.posSum.value)) && (m.negSum.Some? ==> Wf(m.negSum.value))
  }

  /** The maps after an operation, and what it returned or threw. */
  datatype Step<T> = Step(m: Maps, result: Result<T, WinnowError>)

  /** `add(sum, weights)` on a possibly undefined sum: a TypeError as soon as there is a weight to add. */
  function AddInto(sum: Option<Hash>, w: Hash): (r: Result<Hash, WinnowError>)
    requires Wf(w) && (sum.Some? ==> Wf(sum.value))
    ensures r.Success? ==> Wf(r.value)
  {
    if sum.None? then (if |w| == 0 then Success([]) else Failure(TypeError))
    else
      AddAllSpec(sum.value, w);
      Success(AddAll(sum.value, w))
  }

  /** The averaging step: the positive sum first, then the negative one; an error keeps what was already added. */
  function Average(m: Maps): (r: Step<bool>)
    requires MapsWf(m)
    ensures MapsWf(r.m)
    ensures r.m.pos == m.pos && r.m.neg == m.neg
    ensures r.result.Success? ==> r.result.value
  {
    match AddInto(m.posSum, m.pos)
    case Failure(e) => Step(m, Failure(e))
    case Success(ps) =>
      var m1 := if m.posSum.Some? then m.(posSum := Some(ps)) else m;
      match AddInto(m.negSum, m.neg)
      case Failure(e) => Step(m1, Failure(e))
      case Success(ns) => Step(if m.negSum.Some? then m1.(negSum := Some(ns)) else m1, Success(true))
  }

  /** The learner's mistake test: a positive sample scored at most `margin`, or a negative one at least `-margin`. */
  predicate Mistake(s: Settings, expected: bool, score: real)
  {
    (expected && score <= s.margin) || (!expected && score >= -s.margin)
  }

  /** Both running maps after the first loop of `train_features`. */
  function Filled(m: Maps, s: Settings, features: Hash): Maps
  {
    m.(pos := Fill(m.pos, features, s.defaultPositiveWeight), neg := Fill(m.neg, features, s.defaultNegativeWeight))
  }

  /** After filling, both running maps hold every input feature, and every one can be read. */
  lemma FilledSpec(m: Maps, s: Settings, features: Hash)
    requires MapsWf(m)
    ensures var f := Filled(m, s, features);
      && MapsWf(f) && f.posSum == m.posSum && f.negSum == m.negSum
      && Keys(f.pos) == Keys(m.pos) + Keys(features) && Keys(f.neg) == Keys(m.neg) + Keys(features)
      && Readable(features, Some(f.pos), Some(f.neg))
  {
    FillSpec(m.pos, features, s.defaultPositiveWeight);
    FillSpec(m.neg, features, s.defaultNegativeWeight);
  }

  /** The score `train_features` tests: continuous perception with the filled running weights. */
  function TrainScore(m: Maps, s: Settings, features: Hash): real
    requires MapsWf(m)
  {
    var f := Filled(m, s, features);
    FilledSpec(m, s, features);
    ContributionsOk(features, Some(f.pos), Some(f.neg));
    NetScore(Contributions(features, Some(f.pos), Some(f.neg)).value) - s.threshold
  }

  /** Promotion and demotion of both maps after a mistake on a sample labelled `expected`. */
  function Update(f: Maps, s: Settings, features: Hash, expected: bool): Maps
    requires Keys(features) <= Keys(f.pos) && Keys(features) <= Keys(f.neg)
  {
    if expected then
      f.(pos := Reweight(f.pos, features, s.promotion, Up), neg := Reweight(f.neg, features, s.demotion, Down))
    else
      f.(pos := Reweight(f.pos, features, s.demotion, Down), neg := Reweight(f.neg, features, s.promotion, Up))
  }

  /**
   * `train_features(features, expected)`: fill both maps, then on a mistake
   * promote and demote the input features' weights and return false,
   * otherwise average (if enabled) and return true.
   */
  function TrainFeatures(m: Maps, s: Settings, features: Hash, expected: bool): (r: Step<bool>)
    requires MapsWf(m)
    ensures MapsWf(r.m)
  {
    var f := Filled(m, s, features);
    FilledSpec(m, s, features);
    if Mistake(s, expected, TrainScore(m, s, features)) then Step(Update(f, s, features, expected), Success(false))
    else if s.doAveraging then Average(f)
    else Step(f, Success(true))
  }

  /** The rate and direction that a mistake applies to the positive map, and (`!positive`) to the negative one. */
  function RateOf(s: Settings, expected: bool, positive: bool): real
  {
    if expected == positive then s.promotion else s.demotion
  }

  function DirOf(expected: bool, positive: bool): Direction
  {
    if expected == positive then Up else Down
  }

  /**
   * After a mistake only the input features' weights change: the positive
   * weight of each is promoted and the negative one demoted for a positive
   * sample, the other way round for a negative one; the sums are untouched.
   */
  lemma UpdateSpec(f: Maps, s: Settings, features: Hash, expected: bool)
    requires MapsWf(f) && Wf(features) && Keys(features) <= Keys(f.pos) && Keys(features) <= Keys(f.neg)
    ensures var u := Update(f, s, features, expected);
      && MapsWf(u) && u.posSum == f.posSum && u.negSum == f.negSum
      && Keys(u.pos) == Keys(f.pos) && Keys(u.neg) == Keys(f.neg)
      && (forall k :: k in Keys(f.pos) ==> Value(u.pos, k) == Reweighted(f.pos, features, RateOf(s, expected, true), DirOf(expected, true), k))
      && (forall k :: k in Keys(f.neg) ==> Value(u.neg, k) == Reweighted(f.neg, features, RateOf(s, expected, false), DirOf(expected, false), k))
  {
    ReweightSpec(f.pos, features, RateOf(s, expected, true), DirOf(expected, true));
    ReweightSpec(f.neg, features, RateOf(s, expected, false), DirOf(expected, false));
  }

  /**
   * Averaging adds the running weights into each defined sum; an undefined
   * sum throws a TypeError as soon as its weights are nonempty. The positive
   * sum is updated first, so a failure on the negative one keeps that update.
   */
  lemma AverageSpec(m: Maps)
    requires MapsWf(m)
    ensures var st := Average(m);
      && MapsWf(st.m) && st.m.pos == m.pos && st.m.neg == m.neg
      && var posOk := m.posSum.Some? || |m.pos| == 0;
      && var negOk := m.negSum.Some? || |m.neg| == 0;
      && (st.result == Success(true) <==> posOk && negOk)
      && (st.result.Failure? ==> st.result == Failure(TypeError))
      && (!posOk ==> st.m == m)
      && (posOk ==> st.m.posSum == if m.posSum.Some? then Some(AddAll(m.posSum.value, m.pos)) else None)
      && (posOk && negOk ==> st.m.negSum == if m.negSum.Some? then Some(AddAll(m.negSum.value, m.neg)) else None)
      && (posOk && !negOk ==> st.m.negSum == None)
  {
    if m.posSum.Some? {
      AddAllSpec(m.posSum.value, m.pos);
    }
    if m.negSum.Some? {
      AddAllSpec(m.negSum.value, m.neg);
    }
  }

  /**
   * Training on one sample keeps the maps well formed, leaves every input
   * feature in both running maps (defaults only for new ones), and returns
   * false exactly on a mistake; without a mistake the weights are the
   * filled ones, and the sums change only by averaging.
   */
  lemma TrainFeaturesSpec(m: Maps, s: Settings, features: Hash, expected: bool)
    requires MapsWf(m) && Wf(features)
    ensures var st := TrainFeatures(m, s, features, expected);
      var f := Filled(m, s, features);
      var mistake := Mistake(s, expected, TrainScore(m, s, features));
      && MapsWf(st.m)
      && Keys(st.m.pos) == Keys(m.pos) + Keys(features) && Keys(st.m.neg) == Keys(m.neg) + Keys(features)
      && (st.result == Success(false) <==> mistake)
      && (st.result.Failure? ==> !mistake && s.doAveraging && st.result == Failure(TypeError))
      && (mistake ==> st.m == Update(f, s, features, expected))
      && (!mistake ==> st.m.pos == f.pos && st.m.neg == f.neg)
      && (!mistake && !s.doAveraging ==> st == Step(f, Success(true)))
      && (!mistake && s.doAveraging ==> st == Average(f))
  {
    var f := Filled(m, s, features);
    FilledSpec(m, s, features);
    if Mistake(s, expected, TrainScore(m, s, features)) {
      UpdateSpec(f, s, features, expected);
    } else if s.doAveraging {
      AverageSpec(f);
    }
  }

  // ---------------------------------------------------------------------------
  // trainOnline, trainBatch and classify (dist/index.umd.js:843-883, 950-964)
  // ---------------------------------------------------------------------------

  /** The caller's hash after `editFeatureValues(features, false)`: the bias, then normalised (known features play no part). */
  function TrainingInput(s: Settings, features: Hash): Hash
  {
    Edit(features, s.bias, {}, false)
  }

  /** `trainOnline(features, expected)`: train on the edited hash. */
  function TrainOnline(m: Maps, s: Settings, features: Hash, expected: bool): (r: Step<bool>)
    requires MapsWf(m)
    ensures MapsWf(r.m)
  {
    TrainFeatures(m, s, TrainingInput(s, features), expected)
  }

  /** One sample of `trainBatch`; `expected` is the truth value of its `output`. */
  datatype Sample = Sample(input: Hash, expected: bool)

  /** The samples after `trainBatch`'s first loop has edited every input. */
  function EditInputs(s: Settings, dataset: seq<Sample>): (r: seq<Sample>)
    ensures |r| == |dataset|
  {
    seq(|dataset|, i requires 0 <= i < |dataset| => Sample(TrainingInput(s, dataset[i].input), dataset[i].expected))
  }

  /** One pass of `train_features` over the samples in order; the first error ends it. */
  function Pass(m: Maps, s: Settings, samples: seq<Sample>): (r: Step<()>)
    requires MapsWf(m)
    ensures MapsWf(r.m)
    decreases |samples|
  {
    if |samples| == 0 then Step(m, Success(()))
    else
      var prev := Pass(m, s, samples[..|samples| - 1]);
      if prev.result.Failure? then prev
      else
        var x := samples[|samples| - 1];
        var st := TrainFeatures(prev.m, s, x.input, x.expected);
        Step(st.m, if st.result.Failure? then Failure(st.result.error) else Success(()))
  }

  /** `n` passes, the first error ending them all. */
  function Rounds(m: Maps, s: Settings, samples: seq<Sample>, n: nat): (r: Step<()>)
    requires MapsWf(m)
    ensures MapsWf(r.m)
  {
    if n == 0 then Step(m, Success(()))
    else
      var prev := Rounds(m, s, samples, n - 1);
      if prev.result.Failure? then prev else Pass(prev.m, s, samples)
  }

  /** `for (r = 0; r <= retrain_count; ++r)` runs `retrain_count + 1` passes, none for a negative count. */
  function RoundCount(s: Settings): (n: nat)
    ensures s.retrainCount >= 0 ==> n == s.retrainCount + 1
    ensures s.retrainCount < 0 ==> n == 0
  {
    if s.retrainCount < 0 then 0 else s.retrainCount + 1
  }

  /** `trainBatch(dataset)`: edit every input, then run the passes. */
  function TrainBatch(m: Maps, s: Settings, dataset: seq<Sample>): (r: Step<()>)
    requires MapsWf(m)
    ensures MapsWf(r.m)
  {
    Rounds(m, s, EditInputs(s, dataset), RoundCount(s))
  }

  /** The caller's hash after `editFeatureValues(features, true)`: unknown features (without a positive weight) are dropped. */
  function ClassifyInput(m: Maps, s: Settings, features: Hash): Hash
  {
    Edit(features, s.bias, Keys(m.pos), true)
  }

  /** `classify(features, explain, continuous_output)`: perception of the edited hash with the sums when averaging, else the running weights. */
  function Classify(m: Maps, s: Settings, features: Hash, explain: int, continuous: bool): (r: Result<Perception, WinnowError>)
    ensures r.Success? ==> (r.value.Explained? <==> explain > 0)
    ensures r.Success? && !continuous ==> r.value.classification == 0.0 || r.value.classification == 1.0
  {
    Perceive(ClassifyInput(m, s, features),
             if s.doAveraging then m.posSum else Some(m.pos),
             if s.doAveraging then m.negSum else Some(m.neg),
             s.threshold, continuous, explain, s.detailedExplanations)
  }

  // ---------------------------------------------------------------------------
  // What training preserves
  // ---------------------------------------------------------------------------

  /**
   * The maps a learner built by the constructor and trained keeps: both
   * running maps know the same features, both sums are defined and know the
   * same features. Only `fromJSON` can break this.
   */
  predicate Consistent(m: Maps)
  {
    && MapsWf(m) && Keys(m.pos) == Keys(m.neg)
    && m.posSum.Some? && m.negSum.Some? && Keys(m.posSum.value) == Keys(m.negSum.value)
  }

  /** The constructor's four empty maps. */
  function Initial(): (m: Maps)
    ensures Consistent(m)
  {
    Maps([], [], Some([]), Some([]))
  }

  /** On consistent maps `train_features` never throws and keeps them consistent. */
  lemma TrainFeaturesConsistent(m: Maps, s: Settings, features: Hash, expected: bool)
    requires Consistent(m) && Wf(features)
    ensures TrainFeatures(m, s, features, expected).result.Success?
    ensures Consistent(TrainFeatures(m, s, features, expected).m)
  {
    TrainFeaturesSpec(m, s, features, expected);
    var f := Filled(m, s, features);
    FilledSpec(m, s, features);
    if !Mistake(s, expected, TrainScore(m, s, features)) && s.doAveraging {
      AverageSpec(f);
      AddAllSpec(f.posSum.value, f.pos);
      AddAllSpec(f.negSum.value, f.neg);
    }
  }

  predicate AllWf(samples: seq<Sample>)
  {
    forall i :: 0 <= i < |samples| ==> Wf(samples[i].input)
  }

  lemma {:induction false} PassConsistent(m: Maps, s: Settings, samples: seq<Sample>)
    requires Consistent(m) && AllWf(samples)
    ensures Pass(m, s, samples).result.Success? && Consistent(Pass(m, s, samples).m)
    decreases |samples|
  {
    if |samples| > 0 {
      var p := samples[..|samples| - 1];
      assert AllWf(p) by {
        forall i | 0 <= i < |p|
          ensures Wf(p[i].input)
        {
          assert p[i] == samples[i];
        }
      }
      PassConsistent(m, s, p);
      var x := samples[|samples| - 1];
      TrainFeaturesConsistent(Pass(m, s, p).m, s, x.input, x.expected);
    }
  }

  lemma {:induction false} RoundsConsistent(m: Maps, s: Settings, samples: seq<Sample>, n: nat)
    requires Consistent(m) && AllWf(samples)
    ensures Rounds(m, s, samples, n).result.Success? && Consistent(Rounds(m, s, samples, n).m)
  {
    if n > 0 {
      RoundsConsistent(m, s, samples, n - 1);
      PassConsistent(Rounds(m, s, samples, n - 1).m, s, samples);
    }
  }

  /** Editing keeps a hash well formed. */
  lemma EditWf(h: Hash, bias: real, known: set<string>, removeUnknown: bool)
    requires Wf(h)
    ensures Wf(Edit(h, bias, known, removeUnknown))
  {
    EditSpec(h, bias, known, removeUnknown);
  }

  /** On consistent maps, online and batch training never throw and keep the maps consistent. */
  lemma TrainingConsistent(m: Maps, s: Settings, features: Hash, expected: bool, dataset: seq<Sample>)
    requires Consistent(m) && Wf(features) && AllWf(dataset)
    ensures TrainOnline(m, s, features, expected).result.Success? && Consistent(TrainOnline(m, s, features, expected).m)
    ensures TrainBatch(m, s, dataset).result.Success? && Consistent(TrainBatch(m, s, dataset).m)
  {
    EditWf(features, s.bias, {}, false);
    TrainFeaturesConsistent(m, s, TrainingInput(s, features), expected);
    var samples := EditInputs(s, dataset);
    forall i | 0 <= i < |samples|
      ensures Wf(samples[i].input)
    {
      EditWf(dataset[i].input, s.bias, {}, false);
    }
    RoundsConsistent(m, s, samples, RoundCount(s));
  }

  /** On consistent maps classification never throws, with or without averaging. */
  lemma ClassifyConsistent(m: Maps, s: Settings, features: Hash, explain: int, continuous: bool)
    requires Consistent(m) && Wf(features)
    ensures Classify(m, s, features, explain, continuous).Success?
  {
    var h := ClassifyInput(m, s, features);
    EditSpec(features, s.bias, Keys(m.pos), true);
    var pos := if s.doAveraging then m.posSum else Some(m.pos);
    var neg := if s.doAveraging then m.negSum else Some(m.neg);
    assert Readable(h, pos, neg);
    ContributionsOk(h, pos, neg);
  }

  /** Every value is at least 0. */
  predicate NonNegative(h: Hash)
  {
    forall i :: 0 <= i < |h| ==> h[i].value >= 0.0
  }

  /** Every value lies in [-1, 1]. */
  predicate UnitBounded(h: Hash)
  {
    forall i :: 0 <= i < |h| ==> -1.0 <= h[i].value <= 1.0
  }

  predicate NonNegativeMaps(m: Maps)
  {
    && NonNegative(m.pos) && NonNegative(m.neg)
    && (m.posSum.Some? ==> NonNegative(m.posSum.value)) && (m.negSum.Some? ==> NonNegative(m.negSum.value))
  }

  /** The settings under which Winnow's multiplicative updates cannot make a weight negative. */
  predicate NonNegativeSettings(s: Settings)
  {
    s.defaultPositiveWeight >= 0.0 && s.defaultNegativeWeight >= 0.0 && s.promotion >= 0.0 && s.demotion >= 0.0
  }

  /** The constructor's defaults are such settings. */
  lemma DefaultsNonNegative()
    ensures NonNegativeSettings(Configure(WinnowOptions(None, None, None, None, None, None, None, None, None, None)))
  {
  }

  /** An edited hash has every value in [-1, 1]: normalised, or all zero when its norm was 0. */
  lemma EditBounded(h: Hash, bias: real, known: set<string>, removeUnknown: bool)
    ensures UnitBounded(Edit(h, bias, known, removeUnknown))
  {
    var p := Prepared(h, bias, known, removeUnknown);
    NormalizeSpec(p);
    if SumAbs(p) == 0.0 {
      forall i | 0 <= i < |p|
        ensures -1.0 <= p[i].value <= 1.0
      {
        EntryBelowSumAbs(p, i);
      }
    }
  }

  lemma NonNegativeByKey(h: Hash)
    requires Wf(h)
    ensures NonNegative(h) <==> forall k :: k in Keys(h) ==> Value(h, k) >= 0.0
  {
    if NonNegative(h) {
      forall k | k in Keys(h)
        ensures Value(h, k) >= 0.0
      {
        ValueAt(h, IndexOf(h, k));
      }
    }
    if forall k :: k in Keys(h) ==> Value(h, k) >= 0.0 {
      forall i | 0 <= i < |h|
        ensures h[i].value >= 0.0
      {
        ValueAt(h, i);
      }
    }
  }

  lemma BoundedValue(h: Hash, k: string)
    requires Wf(h) && UnitBounded(h) && k in Keys(h)
    ensures -1.0 <= Value(h, k) <= 1.0
  {
    ValueAt(h, IndexOf(h, k));
  }

  /** A factor for a value in [-1, 1] and a rate of at least 0 is at least 0. */
  lemma FactorNonNegative(rate: real, dir: Direction, v: real)
    requires rate >= 0.0 && -1.0 <= v <= 1.0
    ensures Factor(rate, dir, v) >= 0.0
  {
  }

  /**
   * Weights stay non-negative but not positive: demoting a feature of value 1
   * multiplies its weight by `rate * (1 - 1) = 0`, here with the default demotion 0.5.
   */
  lemma DemotionReachesZero()
    ensures var w, features := [Entry("f", 2.0)], [Entry("f", 1.0)];
      && Keys(features) <= Keys(w)
      && Reweight(w, features, 0.5, Down) == [Entry("f", 0.0)]
  {
    var w, features := [Entry("f", 2.0)], [Entry("f", 1.0)];
    assert Keys(features) == {"f"} == Keys(w) by {
      assert features[0].key == "f" && w[0].key == "f";
    }
    assert features[..0] == [];
    assert IndexOf(w, "f") == 0;
  }

  lemma FillNonNegative(w: Hash, features: Hash, d: real)
    requires Wf(w) && NonNegative(w) && d >= 0.0
    ensures NonNegative(Fill(w, features, d))
  {
    var r := Fill(w, features, d);
    FillSpec(w, features, d);
    NonNegativeByKey(w);
    NonNegativeByKey(r);
  }

  lemma ReweightNonNegative(w: Hash, features: Hash, rate: real, dir: Direction)
    requires Wf(w) && Wf(features) && Keys(features) <= Keys(w) && NonNegative(w) && UnitBounded(features) && rate >= 0.0
    ensures NonNegative(Reweight(w, features, rate, dir))
  {
    var r := Reweight(w, features, rate, dir);
    ReweightSpec(w, features, rate, dir);
    NonNegativeByKey(w);
    forall k | k in Keys(r)
      ensures Value(r, k) >= 0.0
    {
      if k in Keys(features) {
        BoundedValue(features, k);
        FactorNonNegative(rate, dir, Value(features, k));
      }
    }
    NonNegativeByKey(r);
  }

  lemma AddAllNonNegative(t: Hash, w: Hash)
    requires Wf(t) && Wf(w) && NonNegative(t) && NonNegative(w)
    ensures NonNegative(AddAll(t, w))
  {
    var r := AddAll(t, w);
    AddAllSpec(t, w);
    NonNegativeByKey(t);
    NonNegativeByKey(w);
    NonNegativeByKey(r);
  }

  /**
   * Winnow keeps every weight and every sum at least 0 when the defaults,
   * promotion and demotion are, and the sample's values lie in [-1, 1].
   */
  lemma TrainFeaturesNonNegative(m: Maps, s: Settings, features: Hash, expected: bool)
    requires MapsWf(m) && NonNegativeMaps(m) && NonNegativeSettings(s) && Wf(features) && UnitBounded(features)
    ensures NonNegativeMaps(TrainFeatures(m, s, features, expected).m)
  {
    var f := Filled(m, s, features);
    FilledSpec(m, s, features);
    FillNonNegative(m.pos, features, s.defaultPositiveWeight);
    FillNonNegative(m.neg, features, s.defaultNegativeWeight);
    if Mistake(s, expected, TrainScore(m, s, features)) {
      ReweightNonNegative(f.pos, features, RateOf(s, expected, true), DirOf(expected, true));
      ReweightNonNegative(f.neg, features, RateOf(s, expected, false), DirOf(expected, false));
    } else if s.doAveraging {
      if f.posSum.Some? {
        AddAllNonNegative(f.posSum.value, f.pos);
      }
      if f.negSum.Some? {
        AddAllNonNegative(f.negSum.value, f.neg);
      }
    }
  }

  /** Online training edits the sample first, so its values always lie in [-1, 1]. */
  lemma TrainOnlineNonNegative(m: Maps, s: Settings, features: Hash, expected: bool)
    requires MapsWf(m) && NonNegativeMaps(m) && NonNegativeSettings(s) && Wf(features)
    ensures NonNegativeMaps(TrainOnline(m, s, features, expected).m)
  {
    EditWf(features, s.bias, {}, false);
    EditBounded(features, s.bias, {}, false);
    TrainFeaturesNonNegative(m, s, TrainingInput(s, features), expected);
  }

  /** Batch training keeps every weight and sum at least 0 under the same settings. */
  lemma {:induction false} PassNonNegative(m: Maps, s: Settings, samples: seq<Sample>)
    requires MapsWf(m) && NonNegativeMaps(m) && NonNegativeSettings(s)
    requires forall i :: 0 <= i < |samples| ==> Wf(samples[i].input) && UnitBounded(samples[i].input)
    ensures NonNegativeMaps(Pass(m, s, samples).m)
    decreases |samples|
  {
    if |samples| > 0 {
      var p := samples[..|samples| - 1];
      assert forall i :: 0 <= i < |p| ==> p[i] == samples[i];
      PassNonNegative(m, s, p);
      if Pass(m, s, p).result.Success? {
        var x := samples[|samples| - 1];
        TrainFeaturesNonNegative(Pass(m, s, p).m, s, x.input, x.expected);
      }
    }
  }

  lemma {:induction false} RoundsNonNegative(m: Maps, s: Settings, samples: seq<Sample>, n: nat)
    requires MapsWf(m) && NonNegativeMaps(m) && NonNegativeSettings(s)
    requires forall i :: 0 <= i < |samples| ==> Wf(samples[i].input) && UnitBounded(samples[i].input)
    ensures NonNegativeMaps(Rounds(m, s, samples, n).m)
  {
    if n > 0 {
      RoundsNonNegative(m, s, samples, n - 1);
      PassNonNegative(Rounds(m, s, samples, n - 1).m, s, samples);
    }
  }

  lemma TrainBatchNonNegative(m: Maps, s: Settings, dataset: seq<Sample>)
    requires MapsWf(m) && NonNegativeMaps(m) && NonNegativeSettings(s) && AllWf(dataset)
    ensures NonNegativeMaps(TrainBatch(m, s, dataset).m)
  {
    var samples := EditInputs(s, dataset);
    forall i | 0 <= i < |samples|
      ensures Wf(samples[i].input) && UnitBounded(samples[i].input)
    {
      EditWf(dataset[i].input, s.bias, {}, false);
      EditBounded(dataset[i].input, s.bias, {}, false);
    }
    RoundsNonNegative(m, s, samples, RoundCount(s));
  }

  // ---------------------------------------------------------------------------
  // toJSON, fromJSON (dist/index.umd.js:767-782)
  // ---------------------------------------------------------------------------

  /** The four properties `toJSON` writes and `fromJSON` reads; `None` is a missing or undefined one. */
  datatype WinnowJson = WinnowJson(
    positiveWeights: Option<Hash>, negativeWeights: Option<Hash>,
    positiveWeightsSum: Option<Hash>, negativeWeightsSum: Option<Hash>)

  predicate JsonWf(j: WinnowJson)
  {
    && (j.positiveWeights.Some? ==> Wf(j.positiveWeights.value))
    && (j.negativeWeights.Some? ==> Wf(j.negativeWeights.value))
    && (j.positiveWeightsSum.Some? ==> Wf(j.positiveWeightsSum.value))
    && (j.negativeWeightsSum.Some? ==> Wf(j.negativeWeightsSum.value))
  }

  /** `toJSON()`: the four maps (by value here; the source hands out the objects themselves). */
  function SnapshotOf(m: Maps): (j: WinnowJson)
    ensures j.positiveWeights.Some? && j.negativeWeights.Some?
  {
    WinnowJson(Some(m.pos), Some(m.neg), m.posSum, m.negSum)
  }

  /**
   * `fromJSON(json)`: without positive weights it throws before changing
   * anything; it then installs the positive weights and their sum, and
   * without negative weights throws after that; otherwise it installs the
   * negative weights and their sum too.
   */
  function LoadJson(m: Maps, j: WinnowJson): (r: Step<()>)
    requires MapsWf(m) && JsonWf(j)
    ensures MapsWf(r.m)
    ensures r.result.Success? <==> j.positiveWeights.Some? && j.negativeWeights.Some?
    ensures j.positiveWeights.None? ==> r.m == m
  {
    if j.positiveWeights.None? then Step(m, Failure(NoPositiveWeights))
    else
      var m1 := m.(pos := j.positiveWeights.value, posSum := j.positiveWeightsSum);
      if j.negativeWeights.None? then Step(m1, Failure(NoNegativeWeights))
      else Step(m1.(neg := j.negativeWeights.value, negSum := j.negativeWeightsSum), Success(()))
  }

  /** Loading a snapshot restores the maps it was taken from, whatever the learner held before. */
  lemma LoadSnapshot(before: Maps, m: Maps)
    requires MapsWf(before) && MapsWf(m)
    ensures JsonWf(SnapshotOf(m)) && LoadJson(before, SnapshotOf(m)) == Step(m, Success(()))
  {
  }

  /** A load succeeds exactly when both weight maps are present, and then the snapshot gives back the loaded object. */
  lemma SnapshotOfLoaded(before: Maps, j: WinnowJson)
    requires MapsWf(before) && JsonWf(j)
    ensures LoadJson(before, j).result.Success? <==> j.positiveWeights.Some? && j.negativeWeights.Some?
    ensures LoadJson(before, j).result.Success? ==> SnapshotOf(LoadJson(before, j).m) == j
  {
  }

  /** What a failed load leaves: nothing changed without positive weights, only the positive side without negative ones. */
  lemma LoadJsonPartial(before: Maps, j: WinnowJson)
    requires MapsWf(before) && JsonWf(j)
    ensures j.positiveWeights.None? ==> LoadJson(before, j) == Step(before, Failure(NoPositiveWeights))
    ensures j.positiveWeights.Some? && j.negativeWeights.None? ==>
      && LoadJson(before, j).result == Failure(NoNegativeWeights)
      && LoadJson(before, j).m == before.(pos := j.positiveWeights.value, posSum := j.positiveWeightsSum)
  {
  }
}
