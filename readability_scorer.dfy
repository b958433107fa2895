// The linear readability model of rate_snippet.py: the eight features are
// standardised with the survey means and standard deviations, and the raw score
// is their dot product with the fitted coefficients plus the intercept. Values are
// exact reals; the source computes in 64-bit floating point.

module ReadabilityScorer {
  import opened Options
  import opened FeatureExtractor

  /** `FEATURE_MEAN` */
  const FeatureMean: seq<real> :=
    [0.07916667, 28.79916667, 1.49, 1.77666667, 0.36583333, 12.9, 15.22916667, 7.9025]

  /** `FEATURE_STD` */
  const FeatureStd: seq<real> :=
    [0.14822945, 8.57692831, 0.75379042, 0.57920531, 0.14323905, 14.38345009, 21.13728952, 2.04951934]

  /** `MODEL_COEFFICIENTS` */
  const ModelCoefficients: seq<real> :=
    [-0.32295017, -0.02162178, -0.14302383, 0.16994715, 0.53624519, -0.87802927, 0.94317421, -0.08688262]

  /** `MODEL_INTERCEPT` */
  const ModelIntercept: real := -0.27823503

  /** The model has one mean, one standard deviation and one coefficient per feature
      name, and every standard deviation is positive, so standardising never divides
      by zero. */
  lemma ModelShape()
    ensures |FeatureMean| == |FeatureStd| == |ModelCoefficients| == |FeatureNames| == 8
    ensures forall i :: 0 <= i < 8 ==> FeatureStd[i] > 0.0
  {
  }

  /** `[features[feat] for feat in features]`: the values in insertion order. */
  function Values(features: FeatureDict): (vs: seq<real>)
    ensures |vs| == |features|
    ensures forall i :: 0 <= i < |features| ==> vs[i] == features[i].1
  {
    seq(|features|, i requires 0 <= i < |features| => features[i].1)
  }

  /** `normalize_features`: `(values - FEATURE_MEAN) / FEATURE_STD` element by element.
      The values are taken by position, whatever their keys; numpy broadcasting also
      accepts a single value, which is then standardised against every feature, and
      rejects every other length (`None`). */
  function NormalizeFeatures(features: FeatureDict): (r: Option<seq<real>>)
    ensures r.Some? <==> |features| == 8 || |features| == 1
    ensures r.Some? ==> |r.value| == 8 && forall i :: 0 <= i < 8 ==>
              r.value[i] * FeatureStd[i] + FeatureMean[i]
              == features[if |features| == 1 then 0 else i].1
  {
    var vs := Values(features);
    if |vs| != 8 && |vs| != 1 then None
    else
      Some(seq(8, i requires 0 <= i < 8 =>
        ((if |vs| == 1 then vs[0] else vs[i]) - FeatureMean[i]) / FeatureStd[i]))
  }

  /** `np.dot(a, b)` of two vectors of the same length. */
  function Dot(a: seq<real>, b: seq<real>): real
    requires |a| == |b|
  {
    if a == [] then 0.0 else a[0] * b[0] + Dot(a[1..], b[1..])
  }

  /** `calculate_readability_score`: the dot product with the coefficients plus the
      intercept; numpy rejects a vector of another length than the coefficients (`None`). */
  function CalculateReadabilityScore(normalized: seq<real>): (r: Option<real>)
    ensures r.Some? <==> |normalized| == 8
  {
    if |normalized| != 8 then None else Some(Dot(normalized, ModelCoefficients) + ModelIntercept)
  }

  /** The raw score `main` computes for a snippet before the sigmoid. The extractor's
      dictionary always has the eight entries the scorer needs, so every snippet gets
      a score. */
  function RawScore(code: string): (r: Option<real>)
    ensures r.Some?
  {
    match NormalizeFeatures(FeaturesOf(code))
    case Some(n) => CalculateReadabilityScore(n)
    case None => None
  }

  /** A feature at its mean standardises to zero. */
  lemma AtMeanIsZero(features: FeatureDict, i: nat)
    requires |features| == 8 && i < 8 && features[i].1 == FeatureMean[i]
    ensures NormalizeFeatures(features).Some? && NormalizeFeatures(features).value[i] == 0.0
  {
    var n := NormalizeFeatures(features).value;
    assert n[i] * FeatureStd[i] == 0.0;
  }

  lemma {:induction false} DotWithZeros(a: seq<real>, b: seq<real>)
    requires |a| == |b|
    requires forall i :: 0 <= i < |a| ==> a[i] == 0.0
    ensures Dot(a, b) == 0.0
  {
    if a != [] {
      DotWithZeros(a[1..], b[1..]);
    }
  }

  /** A snippet whose every feature is at its mean scores the intercept. */
  lemma AllMeansGiveIntercept(features: FeatureDict)
    requires |features| == 8
    requires forall i :: 0 <= i < 8 ==> features[i].1 == FeatureMean[i]
    ensures NormalizeFeatures(features).Some?
    ensures CalculateReadabilityScore(NormalizeFeatures(features).value) == Some(ModelIntercept)
  {
    var n := NormalizeFeatures(features).value;
    forall i | 0 <= i < 8
      ensures n[i] == 0.0
    {
      AtMeanIsZero(features, i);
    }
    DotWithZeros(n, ModelCoefficients);
  }

  /** Adding `d` to one component of a vector adds `d` times the matching component of
      the other to the dot product. */
  lemma {:induction false} DotShift(a: seq<real>, b: seq<real>, i: nat, d: real)
    requires |a| == |b| && i < |a|
    ensures Dot(a[i := a[i] + d], b) == Dot(a, b) + d * b[i]
  {
    if i > 0 {
      assert a[i := a[i] + d][1..] == a[1..][i - 1 := a[1..][i - 1] + d];
      DotShift(a[1..], b[1..], i - 1, d);
    } else {
      assert a[i := a[i] + d][1..] == a[1..];
    }
  }

  /** The score is affine in each standardised feature, with the coefficient as slope. */
  lemma ScoreAffine(normalized: seq<real>, i: nat, d: real)
    requires |normalized| == 8 && i < 8
    ensures CalculateReadabilityScore(normalized[i := normalized[i] + d]).value
            == CalculateReadabilityScore(normalized).value + d * ModelCoefficients[i]
  {
    DotShift(normalized, ModelCoefficients, i, d);
  }

  lemma DivideSum(x: real, d: real, s: real)
    requires s != 0.0
    ensures (x + d) / s == x / s + d / s
  {
  }

  /** Raising one raw feature by `d` raises its standardised value by `d` divided by
      the feature's standard deviation and leaves the others as they were. */
  lemma NormalizeShift(features: FeatureDict, i: nat, d: real)
    requires |features| == 8 && i < 8
    ensures var n := NormalizeFeatures(features).value;
            NormalizeFeatures(features[i := (features[i].0, features[i].1 + d)])
            == Some(n[i := n[i] + d / FeatureStd[i]])
  {
    var g := features[i := (features[i].0, features[i].1 + d)];
    var n, m := NormalizeFeatures(features).value, NormalizeFeatures(g).value;
    DivideSum(features[i].1 - FeatureMean[i], d, FeatureStd[i]);
    assert m[i] == n[i] + d / FeatureStd[i] by {
      assert Values(g)[i] - FeatureMean[i] == (features[i].1 - FeatureMean[i]) + d;
    }
    assert forall j :: 0 <= j < 8 && j != i ==> m[j] == n[j];
    assert m == n[i := n[i] + d / FeatureStd[i]];
  }

  /** Hence raising one raw feature by `d` changes the score by `d * coefficient / std`. */
  lemma FeatureAffine(features: FeatureDict, i: nat, d: real)
    requires |features| == 8 && i < 8
    ensures var g := features[i := (features[i].0, features[i].1 + d)];
            CalculateReadabilityScore(NormalizeFeatures(g).value).value
            == CalculateReadabilityScore(NormalizeFeatures(features).value).value
               + d / FeatureStd[i] * ModelCoefficients[i]
  {
    NormalizeShift(features, i, d);
    ScoreAffine(NormalizeFeatures(features).value, i, d / FeatureStd[i]);
  }

  /** The values are bound to the means by position, not by key: the same entries in
      another order standardise differently. */
  lemma BindingIsByPosition()
    ensures var a := seq(8, i requires 0 <= i < 8 => (FeatureNames[i], FeatureMean[i]));
            var b := a[0 := a[1]][1 := a[0]];
            multiset(a) == multiset(b)
            && NormalizeFeatures(a).value[0] == 0.0 && NormalizeFeatures(b).value[0] != 0.0
  {
    var a := seq(8, i requires 0 <= i < 8 => (FeatureNames[i], FeatureMean[i]));
    var b := a[0 := a[1]][1 := a[0]];
    assert b == [a[1], a[0]] + a[2..];
    assert a == [a[0], a[1]] + a[2..];
    AtMeanIsZero(a, 0);
    var nb := NormalizeFeatures(b).value;
    assert nb[0] * FeatureStd[0] + FeatureMean[0] == FeatureMean[1];
  }
}
