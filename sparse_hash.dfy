/**
 * Sparse feature hashes: JavaScript objects used as maps from feature name to
 * number (dist/index.umd.js:432-485). A hash is its list of own enumerable
 * entries in insertion order, which is the order `for (feature in h)` visits
 * them; a well-formed hash has no key twice.
 */
module SparseHash {
  import opened Wrappers

  datatype Entry = Entry(key: string, value: real)

  type Hash = seq<Entry>

  function Keys(h: Hash): set<string>
  {
    set i | 0 <= i < |h| :: h[i].key
  }

  /** No key occurs twice, as in any JavaScript object. */
  predicate Wf(h: Hash)
  {
    forall i, j :: 0 <= i < j < |h| ==> h[i].key != h[j].key
  }

  lemma KeysTail(h: Hash, k: string)
    requires k in Keys(h) && h[0].key != k
    ensures k in Keys(h[1..])
  {
    var i :| 0 <= i < |h| && h[i].key == k;
    assert h[1..][i - 1].key == k;
  }

  /** The position of key `k`. */
  function IndexOf(h: Hash, k: string): (i: nat)
    requires k in Keys(h)
    ensures i < |h| && h[i].key == k
    decreases |h|
  {
    if h[0].key == k then 0
    else
      KeysTail(h, k);
      1 + IndexOf(h[1..], k)
  }

  /** `h[k]` for a key that is present. */
  function Value(h: Hash, k: string): real
    requires k in Keys(h)
  {
    h[IndexOf(h, k)].value
  }

  /** `h[k]` with an absent key read as 0. */
  function ValueOr0(h: Hash, k: string): real
  {
    if k in Keys(h) then Value(h, k) else 0.0
  }

  lemma ValueAt(h: Hash, i: nat)
    requires Wf(h) && i < |h|
    ensures h[i].key in Keys(h) && IndexOf(h, h[i].key) == i && Value(h, h[i].key) == h[i].value
  {
  }

  lemma KeysSnoc(h: Hash, e: Entry)
    ensures Keys(h + [e]) == Keys(h) + {e.key}
  {
    var h' := h + [e];
    forall k | k in Keys(h')
      ensures k in Keys(h) + {e.key}
    {
      var i :| 0 <= i < |h'| && h'[i].key == k;
      if i < |h| { assert h[i].key == k; }
    }
    forall k | k in Keys(h)
      ensures k in Keys(h')
    {
      var i :| 0 <= i < |h| && h[i].key == k;
      assert h'[i].key == k;
    }
    assert h'[|h|].key == e.key;
  }

  lemma WfPrefix(h: Hash, n: nat)
    requires Wf(h) && n <= |h|
    ensures Wf(h[..n])
  {
  }

  /** Reading a hash with one more entry at the end. */
  lemma ValueSnoc(h: Hash, e: Entry, k: string)
    requires Wf(h + [e])
    ensures e.key !in Keys(h)
    ensures ValueOr0(h + [e], k) == if k == e.key then e.value else ValueOr0(h, k)
  {
    var h' := h + [e];
    KeysSnoc(h, e);
    forall i | 0 <= i < |h|
      ensures h[i].key != e.key
    {
      assert h'[i] == h[i] && h'[|h|] == e;
    }
    if k == e.key {
      ValueAt(h', |h|);
    } else if k in Keys(h) {
      var i := IndexOf(h, k);
      assert h'[i] == h[i];
      ValueAt(h', i);
    }
  }

  // ---------------------------------------------------------------------------
  // add(target, source): target += source (dist/index.umd.js:445-453)
  // ---------------------------------------------------------------------------

  /** One step of `add`: a missing key is first created with 0, then incremented. */
  function AddEntry(t: Hash, e: Entry): Hash
  {
    if e.key in Keys(t) then
      var i := IndexOf(t, e.key);
      t[i := Entry(e.key, t[i].value + e.value)]
    else
      t + [Entry(e.key, 0.0 + e.value)]
  }

  /** `add(target, source)`, visiting source in its own key order. */
  function AddAll(t: Hash, s: Hash): (r: Hash)
    ensures |t| <= |r| <= |t| + |s|
    decreases |s|
  {
    if |s| == 0 then t else AddEntry(AddAll(t, s[..|s| - 1]), s[|s| - 1])
  }

  lemma AddEntrySpec(t: Hash, e: Entry)
    requires Wf(t)
    ensures var r := AddEntry(t, e);
      && Wf(r)
      && Keys(r) == Keys(t) + {e.key}
      && |t| <= |r|
      && (forall i :: 0 <= i < |t| ==> r[i].key == t[i].key)
      && (forall k :: k in Keys(r) ==> Value(r, k) == ValueOr0(t, k) + (if k == e.key then e.value else 0.0))
  {
    var r := AddEntry(t, e);
    if e.key in Keys(t) {
      var i := IndexOf(t, e.key);
      assert forall j :: 0 <= j < |t| ==> r[j].key == t[j].key;
      assert Keys(r) == Keys(t);
      forall k | k in Keys(r)
        ensures Value(r, k) == ValueOr0(t, k) + (if k == e.key then e.value else 0.0)
      {
        var j := IndexOf(t, k);
        ValueAt(t, j);
        ValueAt(r, j);
      }
    } else {
      KeysSnoc(t, e);
      assert Wf(r);
      forall k | k in Keys(r)
        ensures Value(r, k) == ValueOr0(t, k) + (if k == e.key then e.value else 0.0)
      {
        if k == e.key {
          ValueAt(r, |t|);
        } else {
          var j := IndexOf(t, k);
          ValueAt(t, j);
          ValueAt(r, j);
        }
      }
    }
  }

  /**
   * `add` extends the target by the source's new keys (appended after the
   * target's own, which keep their places) and adds value by value.
   */
  lemma {:induction false} AddAllSpec(t: Hash, s: Hash)
    requires Wf(t) && Wf(s)
    ensures var r := AddAll(t, s);
      && Wf(r)
      && Keys(r) == Keys(t) + Keys(s)
      && |t| <= |r|
      && (forall i :: 0 <= i < |t| ==> r[i].key == t[i].key)
      && (forall k :: k in Keys(r) ==> Value(r, k) == ValueOr0(t, k) + ValueOr0(s, k))
    decreases |s|
  {
    if |s| > 0 {
      var s', e := s[..|s| - 1], s[|s| - 1];
      assert s == s' + [e];
      WfPrefix(s, |s| - 1);
      AddAllSpec(t, s');
      var r' := AddAll(t, s');
      AddEntrySpec(r', e);
      KeysSnoc(s', e);
      forall k | k in Keys(AddAll(t, s))
        ensures Value(AddAll(t, s), k) == ValueOr0(t, k) + ValueOr0(s, k)
      {
        ValueSnoc(s', e, k);
      }
    }
  }

  // ---------------------------------------------------------------------------
  // multiply_scalar(target, c) (dist/index.umd.js:460-467)
  // ---------------------------------------------------------------------------

  /** `target[feature] *= c` for one entry. */
  function ScaleEntry(e: Entry, c: real): Entry
  {
    Entry(e.key, e.value * c)
  }

  /** Every value multiplied by `c`, keys and order unchanged. */
  function Scale(h: Hash, c: real): (r: Hash)
    ensures |r| == |h|
    ensures forall i :: 0 <= i < |r| ==> r[i].key == h[i].key
    decreases |h|
  {
    if |h| == 0 then [] else Scale(h[..|h| - 1], c) + [ScaleEntry(h[|h| - 1], c)]
  }

  lemma {:induction false} ScaleAt(h: Hash, c: real, i: nat)
    requires i < |h|
    ensures Scale(h, c)[i] == Entry(h[i].key, h[i].value * c)
    decreases |h|
  {
    if i < |h| - 1 {
      ScaleAt(h[..|h| - 1], c, i);
    }
  }

  lemma ScaleKeys(h: Hash, c: real)
    ensures forall i :: 0 <= i < |h| ==> Scale(h, c)[i].key == h[i].key
    ensures Keys(Scale(h, c)) == Keys(h)
    ensures Wf(h) ==> Wf(Scale(h, c))
  {
    var r := Scale(h, c);
    forall i | 0 <= i < |h|
      ensures r[i].key == h[i].key
    {
      ScaleAt(h, c, i);
    }
  }

  // ---------------------------------------------------------------------------
  // sum_of_absolute_values and normalize_sum_of_values_to_1 (dist/index.umd.js:468-485)
  // ---------------------------------------------------------------------------

  /** The absolute values of a hash, in key order. */
  function Magnitudes(h: Hash): (r: seq<real>)
    ensures |r| == |h|
  {
    seq(|h|, i requires 0 <= i < |h| => Abs(h[i].value))
  }

  /** Left-to-right sum of a list of numbers. */
  function Total(xs: seq<real>): real
    decreases |xs|
  {
    if |xs| == 0 then 0.0 else Total(xs[..|xs| - 1]) + xs[|xs| - 1]
  }

  /** The L1 norm of a hash, summed in key order. */
  function SumAbs(h: Hash): real
  {
    Total(Magnitudes(h))
  }

  lemma MagnitudeAt(h: Hash, i: nat)
    requires i < |h|
    ensures Magnitudes(h)[i] == Abs(h[i].value)
  {
  }

  lemma SumAbsSnoc(h: Hash, e: Entry)
    ensures SumAbs(h + [e]) == SumAbs(h) + Abs(e.value)
  {
    assert Magnitudes(h + [e]) == Magnitudes(h) + [Abs(e.value)];
    assert (Magnitudes(h) + [Abs(e.value)])[..|h|] == Magnitudes(h);
  }

  lemma SumAbsLast(h: Hash)
    requires |h| > 0
    ensures SumAbs(h) == SumAbs(h[..|h| - 1]) + Abs(h[|h| - 1].value)
  {
    assert h == h[..|h| - 1] + [h[|h| - 1]];
    SumAbsSnoc(h[..|h| - 1], h[|h| - 1]);
  }

  lemma {:induction false} SumAbsNonNegative(h: Hash)
    ensures SumAbs(h) >= 0.0
    decreases |h|
  {
    if |h| > 0 {
      SumAbsNonNegative(h[..|h| - 1]);
      SumAbsLast(h);
    }
  }

  /** No single value outweighs the L1 norm. */
  lemma {:induction false} EntryBelowSumAbs(h: Hash, i: nat)
    requires i < |h|
    ensures Abs(h[i].value) <= SumAbs(h)
    decreases |h|
  {
    SumAbsNonNegative(h[..|h| - 1]);
    SumAbsLast(h);
    if i < |h| - 1 {
      EntryBelowSumAbs(h[..|h| - 1], i);
    }
  }

  lemma {:induction false} MulDistrib(t: real, a: real, x: real, c: real)
    requires t == a + x
    ensures t * c == a * c + x * c
  {
  }

  /** `ys` is `xs` with every number multiplied by `k`. */
  ghost predicate ScaledList(xs: seq<real>, ys: seq<real>, k: real)
  {
    |xs| == |ys| && forall i :: 0 <= i < |xs| ==> ys[i] == xs[i] * k
  }

  /** Scaling every number scales the total. */
  lemma {:induction false} TotalScaled(xs: seq<real>, ys: seq<real>, k: real)
    requires ScaledList(xs, ys, k)
    ensures Total(ys) == Total(xs) * k
    decreases |xs|
  {
    if |xs| > 0 {
      TotalScaled(xs[..|xs| - 1], ys[..|xs| - 1], k);
      MulDistrib(Total(xs), Total(xs[..|xs| - 1]), xs[|xs| - 1], k);
    }
  }

  lemma {:induction false} AbsMulPos(x: real, c: real)
    requires c > 0.0
    ensures (x * c < 0.0) == (x < 0.0)
    ensures Abs(x * c) == Abs(x) * c
  {
    if x < 0.0 {
      assert x * c < 0.0;
    } else {
      assert x * c >= 0.0;
    }
  }

  lemma {:induction false} ScaledMagnitudeAt(h: Hash, c: real, i: nat)
    requires i < |h|
    ensures Magnitudes(Scale(h, c))[i] == Abs(h[i].value * c)
  {
    ScaleAt(h, c, i);
    MagnitudeAt(Scale(h, c), i);
  }

  lemma {:induction false} AbsScaledAt(h: Hash, c: real, i: nat)
    requires i < |h| && c > 0.0
    ensures (h[i].value * c < 0.0) == (h[i].value < 0.0)
    ensures Abs(h[i].value * c) == Abs(h[i].value) * c
  {
    AbsMulPos(h[i].value, c);
  }

  lemma {:induction false} MagnitudeTimesAt(h: Hash, c: real, i: nat)
    requires i < |h|
    ensures Magnitudes(h)[i] * c == Abs(h[i].value) * c
  {
    MagnitudeAt(h, i);
  }

  lemma {:induction false} MagnitudeScaleAt(h: Hash, c: real, i: nat)
    requires i < |h| && c > 0.0
    ensures Magnitudes(Scale(h, c))[i] == Magnitudes(h)[i] * c
  {
    ScaledMagnitudeAt(h, c, i);
    AbsScaledAt(h, c, i);
    MagnitudeTimesAt(h, c, i);
  }

  lemma {:induction false} MagnitudesScale(h: Hash, c: real)
    requires c > 0.0
    ensures ScaledList(Magnitudes(h), Magnitudes(Scale(h, c)), c)
  {
    forall i | 0 <= i < |Magnitudes(h)|
      ensures Magnitudes(Scale(h, c))[i] == Magnitudes(h)[i] * c
    {
      MagnitudeScaleAt(h, c, i);
    }
  }

  /** Scaling by a positive `c` scales the L1 norm by `c`. */
  lemma {:induction false} SumAbsScale(h: Hash, c: real)
    requires c > 0.0
    ensures SumAbs(Scale(h, c)) == SumAbs(h) * c
  {
    MagnitudesScale(h, c);
    TotalScaled(Magnitudes(h), Magnitudes(Scale(h, c)), c);
  }

  lemma ScaleEntryOne(e: Entry)
    ensures ScaleEntry(e, 1.0) == e
  {
  }

  /** Multiplying by 1 changes nothing. */
  lemma {:induction false} ScaleOne(h: Hash)
    ensures Scale(h, 1.0) == h
    decreases |h|
  {
    if |h| > 0 {
      ScaleOne(h[..|h| - 1]);
      ScaleSnoc(h, 1.0);
      ScaleEntryOne(h[|h| - 1]);
      assert h == h[..|h| - 1] + [h[|h| - 1]];
    }
  }

  /** `normalize_sum_of_values_to_1`: multiply by 1 / (L1 norm) unless the norm is 0. */
  function Normalize(h: Hash): (r: Hash)
    ensures |r| == |h|
    ensures forall i :: 0 <= i < |r| ==> r[i].key == h[i].key
    ensures SumAbs(h) == 0.0 ==> r == h
  {
    var sum := SumAbs(h);
    if sum != 0.0 then Scale(h, 1.0 / sum) else h
  }

  /** Nonlinear step of ScaledEntry: dividing by a bound on its absolute value keeps a value in [-1, 1]. */
  lemma DivBound(v: real, s: real)
    requires s > 0.0 && Abs(v) <= s
    ensures v * (1.0 / s) == v / s
    ensures -1.0 <= v / s <= 1.0
  {
    var q := v / s;
    assert q * s == v;
  }

  lemma ScaledEntry(h: Hash, i: nat, s: real)
    requires i < |h| && s > 0.0 && Abs(h[i].value) <= s
    ensures Scale(h, 1.0 / s)[i].value == h[i].value / s
    ensures -1.0 <= Scale(h, 1.0 / s)[i].value <= 1.0
  {
    DivBound(h[i].value, s);
    ScaleAt(h, 1.0 / s, i);
  }

  /** Dividing by a non-zero L1 norm puts every value in [-1, 1]. */
  lemma NormalizedEntry(h: Hash, i: nat)
    requires i < |h| && SumAbs(h) != 0.0
    ensures Normalize(h)[i].value == h[i].value / SumAbs(h)
    ensures -1.0 <= Normalize(h)[i].value <= 1.0
  {
    SumAbsNonNegative(h);
    EntryBelowSumAbs(h, i);
    ScaledEntry(h, i, SumAbs(h));
  }

  lemma NormTimesInverse(h: Hash)
    requires SumAbs(h) > 0.0
    ensures SumAbs(h) * (1.0 / SumAbs(h)) == 1.0
  {
  }

  /** After normalising a hash of non-zero norm, the norm is 1. */
  lemma NormalizedSumAbs(h: Hash)
    requires SumAbs(h) != 0.0
    ensures SumAbs(Normalize(h)) == 1.0
  {
    SumAbsNonNegative(h);
    SumAbsScale(h, 1.0 / SumAbs(h));
    NormTimesInverse(h);
  }

  /**
   * Normalising keeps keys and order; afterwards the L1 norm is 1 and every
   * value lies in [-1, 1], unless the norm was 0, in which case nothing changed.
   */
  lemma NormalizeSpec(h: Hash)
    ensures var r := Normalize(h);
      && Keys(r) == Keys(h)
      && (Wf(h) ==> Wf(r))
      && (forall i :: 0 <= i < |h| ==> r[i].key == h[i].key)
      && (SumAbs(h) == 0.0 ==> r == h)
      && (SumAbs(h) != 0.0 ==>
            && SumAbs(r) == 1.0
            && forall i :: 0 <= i < |h| ==> r[i].value == h[i].value / SumAbs(h) && -1.0 <= r[i].value <= 1.0)
  {
    if SumAbs(h) != 0.0 {
      ScaleKeys(h, 1.0 / SumAbs(h));
      NormalizedSumAbs(h);
      forall i | 0 <= i < |h|
        ensures Normalize(h)[i].value == h[i].value / SumAbs(h) && -1.0 <= Normalize(h)[i].value <= 1.0
      {
        NormalizedEntry(h, i);
      }
    } else {
      assert Normalize(h) == h;
    }
  }

  /** Normalising twice is normalising once. */
  lemma NormalizeIdempotent(h: Hash)
    ensures Normalize(Normalize(h)) == Normalize(h)
  {
    if SumAbs(h) != 0.0 {
      NormalizedSumAbs(h);
      ScaleOne(Normalize(h));
    }
  }

  // ---------------------------------------------------------------------------
  // Deleting keys (editFeatureValues, dist/index.umd.js:786-790)
  // ---------------------------------------------------------------------------

  /** The entries whose key is in `known`, in their original order. */
  function Restrict(h: Hash, known: set<string>): (r: Hash)
    ensures |r| <= |h|
    decreases |h|
  {
    if |h| == 0 then []
    else Restrict(h[..|h| - 1], known) + (if h[|h| - 1].key in known then [h[|h| - 1]] else [])
  }

  /** Deleting the unknown keys keeps exactly the known ones, with their values. */
  lemma {:induction false} RestrictSpec(h: Hash, known: set<string>)
    requires Wf(h)
    ensures var r := Restrict(h, known);
      && Wf(r)
      && Keys(r) == Keys(h) * known
      && (forall k :: k in Keys(r) ==> Value(r, k) == Value(h, k))
      && |r| <= |h|
    decreases |h|
  {
    if |h| > 0 {
      var h', e := h[..|h| - 1], h[|h| - 1];
      assert h == h' + [e];
      WfPrefix(h, |h| - 1);
      RestrictSpec(h', known);
      var r' := Restrict(h', known);
      KeysSnoc(h', e);
      ValueSnoc(h', e, e.key);
      if e.key in known {
        var r := r' + [e];
        KeysSnoc(r', e);
        assert Wf(r);
        forall k | k in Keys(r)
          ensures Value(r, k) == Value(h, k)
        {
          ValueSnoc(r', e, k);
          ValueSnoc(h', e, k);
        }
      } else {
        assert Restrict(h, known) == r';
        assert Keys(h) * known == Keys(h') * known;
        forall k | k in Keys(r')
          ensures Value(r', k) == Value(h, k)
        {
          ValueSnoc(h', e, k);
        }
      }
    }
  }

  lemma {:induction false} RestrictAllKnown(h: Hash, known: set<string>)
    requires Keys(h) <= known
    ensures Restrict(h, known) == h
    decreases |h|
  {
    if |h| > 0 {
      var h', e := h[..|h| - 1], h[|h| - 1];
      assert h == h' + [e];
      KeysSnoc(h', e);
      RestrictAllKnown(h', known);
    }
  }

  lemma {:induction false} RestrictSnoc(h: Hash, e: Entry, known: set<string>)
    ensures Restrict(h + [e], known) == Restrict(h, known) + (if e.key in known then [e] else [])
  {
    assert (h + [e])[..|h|] == h;
  }

  // ---------------------------------------------------------------------------
  // A JavaScript object holding a hash, shared by reference
  // ---------------------------------------------------------------------------

  /** A mutable hash object; callers and the models hold it by reference. */
  class FeatureHash {
    var entries: Hash

    ghost predicate Valid()
      reads this
    {
      Wf(entries)
    }

    constructor (h: Hash)
      ensures entries == h
    {
      entries := h;
    }
  }

  lemma AddEntryWf(t: Hash, e: Entry)
    requires Wf(t)
    ensures Wf(AddEntry(t, e))
  {
    AddEntrySpec(t, e);
  }

  lemma AddAllStep(t: Hash, s: Hash, n: nat)
    requires n < |s|
    ensures AddAll(t, s[..n + 1]) == AddEntry(AddAll(t, s[..n]), s[n])
  {
    assert s[..n + 1][..n] == s[..n];
  }

  /** Incrementing a present key in place is one step of `add`. */
  lemma AddEntryPresent(t: Hash, e: Entry, i: nat)
    requires e.key in Keys(t) && i == IndexOf(t, e.key)
    ensures AddEntry(t, e) == t[i := Entry(e.key, t[i].value + e.value)]
  {
  }

  /** Creating a missing key with 0 and then incrementing it is one step of `add`. */
  lemma AddEntryAbsent(t: Hash, e: Entry)
    requires e.key !in Keys(t)
    ensures var z := t + [Entry(e.key, 0.0)];
      AddEntry(t, e) == z[|t| := Entry(e.key, z[|t|].value + e.value)]
  {
  }

  /** The body of `add`'s loop for one source entry `e`. */
  method AddFeature(target: FeatureHash, e: Entry)
    modifies target
    ensures target.entries == AddEntry(old(target.entries), e)
  {
    if e.key !in Keys(target.entries) {
      AddEntryAbsent(target.entries, e);
      target.entries := target.entries + [Entry(e.key, 0.0)];
      var i := |target.entries| - 1;
      target.entries := target.entries[i := Entry(e.key, target.entries[i].value + e.value)];
    } else {
      var i := IndexOf(target.entries, e.key);
      AddEntryPresent(target.entries, e, i);
      target.entries := target.entries[i := Entry(e.key, target.entries[i].value + e.value)];
    }
  }

  /**
   * `add(target, source)` in place (dist/index.umd.js:445-453). `source` may be
   * `target` itself: each key is visited once, before its own update.
   */
  method Add(target: FeatureHash, source: FeatureHash)
    requires target.Valid() && source.Valid()
    modifies target
    ensures target.Valid()
    ensures target.entries == AddAll(old(target.entries), old(source.entries))
  {
    ghost var t0 := target.entries;
    var s := source.entries;
    var n := 0;
    while n < |s|
      invariant 0 <= n <= |s|
      invariant target.entries == AddAll(t0, s[..n])
      invariant Wf(target.entries)
    {
      AddAllStep(t0, s, n);
      AddEntryWf(target.entries, s[n]);
      AddFeature(target, s[n]);
      n := n + 1;
    }
    assert s[..n] == s;
  }

  lemma ScaleSnoc(h: Hash, c: real)
    requires |h| > 0
    ensures Scale(h, c) == Scale(h[..|h| - 1], c) + [ScaleEntry(h[|h| - 1], c)]
  {
  }

  /** One iteration of `multiply_scalar`: the i-th value is scaled next. */
  lemma ScaleStep(cur: Hash, h: Hash, c: real, i: nat)
    requires i < |h| && cur == Scale(h[..i], c) + h[i..]
    ensures i < |cur| == |h| && cur[i := ScaleEntry(cur[i], c)] == Scale(h[..i + 1], c) + h[i + 1..]
  {
    assert h[..i + 1][..i] == h[..i];
    var r := Scale(h[..i + 1], c) + h[i + 1..];
    ScaleSnoc(h[..i + 1], c);
    assert cur[i] == h[i];
    forall j | 0 <= j < |cur|
      ensures cur[i := ScaleEntry(cur[i], c)][j] == r[j]
    {
      if j < i {
        assert r[j] == Scale(h[..i], c)[j];
      }
    }
  }

  /** `multiply_scalar(target, c)` in place (dist/index.umd.js:460-467). */
  method MultiplyScalar(target: FeatureHash, c: real)
    modifies target
    ensures target.entries == Scale(old(target.entries), c)
  {
    ghost var h0 := target.entries;
    var i := 0;
    while i < |target.entries|
      invariant 0 <= i <= |h0| == |target.entries|
      invariant target.entries == Scale(h0[..i], c) + h0[i..]
    {
      ScaleStep(target.entries, h0, c, i);
      target.entries := target.entries[i := ScaleEntry(target.entries[i], c)];
      i := i + 1;
    }
    assert h0[..i] == h0;
  }

  /** `sum_of_absolute_values(h)` (dist/index.umd.js:468-476). */
  method SumOfAbsoluteValues(h: FeatureHash) returns (result: real)
    ensures result == SumAbs(h.entries)
    ensures result >= 0.0
  {
    var es := h.entries;
    result := 0.0;
    var i := 0;
    while i < |es|
      invariant 0 <= i <= |es|
      invariant result == SumAbs(es[..i])
    {
      assert es[..i + 1][..i] == es[..i];
      SumAbsLast(es[..i + 1]);
      result := result + Abs(es[i].value);
      i := i + 1;
    }
    assert es[..i] == es;
    SumAbsNonNegative(es);
  }

  /** `normalize_sum_of_values_to_1(h)` in place (dist/index.umd.js:482-485). */
  method NormalizeSumOfValuesTo1(features: FeatureHash)
    modifies features
    ensures features.entries == Normalize(old(features.entries))
  {
    var sum := SumOfAbsoluteValues(features);
    if sum != 0.0 {
      MultiplyScalar(features, 1.0 / sum);
    }
  }
}
