/**
 * The thirteen clinical features every component of the system agrees on,
 * and their split into numeric (scaled) and categorical (passed through) columns.
 */
module Features {

  /** The canonical column order of the classifier's input. */
  const FeatureNames: seq<string> :=
    ["age", "sex", "cp", "trestbps", "chol", "fbs", "restecg",
     "thalach", "exang", "oldpeak", "slope", "ca", "thal"]

  /** Continuous measurements: age, resting blood pressure, cholesterol, maximum heart rate, ST depression. */
  const NumericalFeatures: seq<string> := ["age", "trestbps", "chol", "thalach", "oldpeak"]

  /** Small integer codes: sex, chest pain, blood sugar flag, ECG, angina, slope, vessels, thalassemia. */
  const CategoricalFeatures: seq<string> := ["sex", "cp", "fbs", "restecg", "exang", "slope", "ca", "thal"]

  /** No element occurs twice. */
  predicate Distinct<T(==)>(s: seq<T>) {
    forall i, j :: 0 <= i < j < |s| ==> s[i] != s[j]
  }

  /** The keys of an object's entries, in insertion order: a request body's or a form record's. */
  function Keys<V>(entries: seq<(string, V)>): (ks: seq<string>)
    ensures |ks| == |entries| && forall k :: 0 <= k < |entries| ==> ks[k] == entries[k].0
  {
    seq(|entries|, k requires 0 <= k < |entries| => entries[k].0)
  }

  predicate IsNumerical(name: string) {
    name in NumericalFeatures
  }

  predicate IsCategorical(name: string) {
    name in CategoricalFeatures
  }

  /** The two groups partition the feature list: disjoint, and together exactly the thirteen names. */
  lemma FeatureSplit()
    ensures |FeatureNames| == 13 && Distinct(FeatureNames)
    ensures |NumericalFeatures| == 5 && Distinct(NumericalFeatures)
    ensures |CategoricalFeatures| == 8 && Distinct(CategoricalFeatures)
    ensures forall n :: n in NumericalFeatures ==> n !in CategoricalFeatures
    ensures forall n :: n in FeatureNames <==> n in NumericalFeatures || n in CategoricalFeatures
  {
  }
}
