/**
 * The synthetic training set of the offline trainer: the generator's value
 * domains, the five risk masks, and the label array that the trainer
 * zero-initialises and then overwrites in a fixed precedence order.
 */
module SyntheticData {
  import opened Wrappers
  import Features
  import Frames

  /** One generated record, fields in the trainer's column order. */
  datatype Patient = Patient(
    age: int, sex: int, cp: int, trestbps: int, chol: int, fbs: int, restecg: int,
    thalach: int, exang: int, oldpeak: real, slope: int, ca: int, thal: int)

  /** Number of rows the trainer generates. */
  const SampleCount: nat := 3000

  // ---------------------------------------------------------------------------
  // Generator domains
  // ---------------------------------------------------------------------------

  /** A binomial(1, p) draw. */
  type Bit = x: int | 0 <= x <= 1
  /** A randint(0, 3) draw. */
  type Below3 = x: int | 0 <= x < 3
  /** A randint(0, 4) draw. */
  type Below4 = x: int | 0 <= x < 4

  /** The raw random draws behind one record: normal and exponential samples before clipping, and the integer draws. */
  datatype Draw = Draw(
    age: real, sex: Bit, cp: Below4, trestbps: real, chol: real, sugar: real, restecg: Below3,
    thalach: real, exang: Bit, oldpeak: real, slope: Below3, ca: Below4, thal: Below3)

  /** numpy's clip: the value limited to [lo, hi]. */
  function Clip(x: real, lo: real, hi: real): (r: real)
    requires lo <= hi
    ensures lo <= r <= hi
    ensures lo <= x <= hi ==> r == x
  {
    if x < lo then lo else if x > hi then hi else x
  }

  /** Clip then astype(int); the clipped value is positive, so truncation is the floor. */
  function ClipToInt(x: real, lo: int, hi: int): (r: int)
    requires 0 <= lo <= hi
    ensures lo <= r <= hi
  {
    Clip(x, lo as real, hi as real).Floor
  }

  /** The ranges every generated record lies in. */
  predicate InGeneratorDomain(p: Patient) {
    && 25 <= p.age <= 80
    && 0 <= p.sex <= 1
    && 0 <= p.cp <= 3
    && 90 <= p.trestbps <= 200
    && 120 <= p.chol <= 400
    && 0 <= p.fbs <= 1
    && 0 <= p.restecg <= 2
    && 70 <= p.thalach <= 200
    && 0 <= p.exang <= 1
    && 0.0 <= p.oldpeak <= 6.2
    && 0 <= p.slope <= 2
    && 0 <= p.ca <= 3
    && 0 <= p.thal <= 2
  }

  /** One record from its draws, as the generator's column expressions compute it. */
  function Generate(d: Draw): (p: Patient)
    ensures InGeneratorDomain(p)
    ensures p.fbs == 1 <==> d.sugar > 120.0
    ensures 0.0 <= d.oldpeak <= 6.2 ==> p.oldpeak == d.oldpeak
  {
    Patient(
      age := ClipToInt(d.age, 25, 80),
      sex := d.sex,
      cp := d.cp,
      trestbps := ClipToInt(d.trestbps, 90, 200),
      chol := ClipToInt(d.chol, 120, 400),
      fbs := if d.sugar > 120.0 then 1 else 0,
      restecg := d.restecg,
      thalach := ClipToInt(d.thalach, 70, 200),
      exang := d.exang,
      oldpeak := Clip(d.oldpeak, 0.0, 6.2),
      slope := d.slope,
      ca := d.ca,
      thal := d.thal)
  }

  // ---------------------------------------------------------------------------
  // Risk masks
  // ---------------------------------------------------------------------------

  /** Three or more vessels, severe ST depression, or asymptomatic angina with exercise angina and two vessels. */
  predicate CriticalRisk(p: Patient) {
    || p.ca >= 3
    || p.oldpeak > 4.5
    || (p.cp == 3 && p.exang == 1 && p.ca >= 2)
  }

  predicate SevereRisk(p: Patient) {
    || (p.age > 65 && p.chol > 320)
    || (p.thalach < 100 && p.age > 60)
    || (p.trestbps > 180 && p.chol > 300)
    || (p.cp == 3 && p.oldpeak > 3.0)
  }

  predicate ModerateRisk(p: Patient) {
    || (p.age > 60 && p.chol > 280)
    || (p.cp >= 2 && p.exang == 1)
    || p.oldpeak > 2.0
    || p.ca == 2
    || (p.thalach < 120 && p.age > 50)
    || (p.trestbps > 160 && p.chol > 260)
  }

  predicate Protective(p: Patient) {
    && p.age < 40
    && p.chol < 200
    && p.trestbps < 120
    && p.thalach > 150
    && p.ca == 0
    && p.oldpeak < 0.5
    && p.cp == 0
    && p.exang == 0
  }

  predicate VeryLowRisk(p: Patient) {
    && p.age < 35
    && p.chol < 180
    && p.trestbps < 110
    && p.thalach > 170
    && p.ca == 0
    && p.oldpeak == 0.0
    && p.cp == 0
    && p.exang == 0
    && p.fbs == 0
    && p.restecg == 0
  }

  /** The label in closed form: high risk when critical, severe, or moderate without protection. */
  predicate HighRisk(p: Patient) {
    CriticalRisk(p) || SevereRisk(p) || (ModerateRisk(p) && !Protective(p))
  }

  function ClosedFormLabel(p: Patient): (y: int)
    ensures y == 0 || y == 1
    ensures y == 1 <==> HighRisk(p)
  {
    if HighRisk(p) then 1 else 0
  }

  // ---------------------------------------------------------------------------
  // The label array, overwritten in place in precedence order
  // ---------------------------------------------------------------------------

  /** `y[mask] = v`: every row selected by the mask gets v, every other row keeps its label. */
  method AssignWhere(y: array<int>, rows: seq<Patient>, mask: Patient -> bool, v: int)
    requires y.Length == |rows|
    modifies y
    ensures forall i :: 0 <= i < y.Length ==> y[i] == (if mask(rows[i]) then v else old(y[i]))
  {
    var i := 0;
    while i < y.Length
      invariant 0 <= i <= y.Length
      invariant forall k :: 0 <= k < i ==> y[k] == (if mask(rows[k]) then v else old(y[k]))
      invariant forall k :: i <= k < y.Length ==> y[k] == old(y[k])
    {
      if mask(rows[i]) {
        y[i] := v;
      }
      i := i + 1;
    }
  }

  /**
   * The labels of the generated rows: zeros, then critical, severe-not-critical,
   * moderate-unprotected, protective and very-low overwrites in that order.
   * The array ends equal to the closed form.
   */
  method AssignLabels(rows: seq<Patient>) returns (y: array<int>)
    ensures fresh(y) && y.Length == |rows|
    ensures forall i :: 0 <= i < |rows| ==> y[i] == ClosedFormLabel(rows[i])
  {
    y := new int[|rows|](_ => 0);
    AssignWhere(y, rows, p => CriticalRisk(p), 1);
    AssignWhere(y, rows, p => SevereRisk(p) && !CriticalRisk(p), 1);
    AssignWhere(y, rows, p => ModerateRisk(p) && !CriticalRisk(p) && !SevereRisk(p) && !Protective(p), 1);
    AssignWhere(y, rows, p => Protective(p) && !CriticalRisk(p) && !SevereRisk(p), 0);
    AssignWhere(y, rows, p => VeryLowRisk(p), 0);
    forall i | 0 <= i < |rows|
      ensures y[i] == ClosedFormLabel(rows[i])
    {
      VeryLowIsProtective(rows[i]);
      ProtectiveExcludesCriticalAndSevere(rows[i]);
    }
  }

  /** The generator: each record from its draws, then the labels. */
  method CreateHeartDiseaseDataset(draws: seq<Draw>) returns (rows: seq<Patient>, y: array<int>)
    requires |draws| == SampleCount
    ensures |rows| == SampleCount && forall i :: 0 <= i < |rows| ==> rows[i] == Generate(draws[i])
    ensures forall i :: 0 <= i < |rows| ==> InGeneratorDomain(rows[i])
    ensures fresh(y) && y.Length == SampleCount
    ensures forall i :: 0 <= i < SampleCount ==> y[i] == ClosedFormLabel(rows[i])
  {
    rows := seq(|draws|, i requires 0 <= i < |draws| => Generate(draws[i]));
    y := AssignLabels(rows);
  }

  // ---------------------------------------------------------------------------
  // Properties of the cascade
  // ---------------------------------------------------------------------------

  /** Very-low-risk records are protective. */
  lemma VeryLowIsProtective(p: Patient)
    ensures VeryLowRisk(p) ==> Protective(p)
  {
  }

  /** Protective records are neither critical nor severe. */
  lemma ProtectiveExcludesCriticalAndSevere(p: Patient)
    ensures Protective(p) ==> !CriticalRisk(p) && !SevereRisk(p)
  {
  }

  /** The final very-low override never meets a critical record, so it never downgrades critical risk. */
  lemma VeryLowNeverCritical(p: Patient)
    ensures VeryLowRisk(p) ==> !CriticalRisk(p)
  {
  }

  lemma CriticalIsLabelledHigh(p: Patient)
    requires CriticalRisk(p)
    ensures ClosedFormLabel(p) == 1
  {
  }

  lemma SevereIsLabelledHigh(p: Patient)
    requires SevereRisk(p) && !CriticalRisk(p)
    ensures ClosedFormLabel(p) == 1
  {
  }

  lemma ModerateUnprotectedIsLabelledHigh(p: Patient)
    requires ModerateRisk(p) && !CriticalRisk(p) && !SevereRisk(p) && !Protective(p)
    ensures ClosedFormLabel(p) == 1
  {
  }

  lemma ProtectiveIsLabelledLow(p: Patient)
    requires Protective(p)
    ensures ClosedFormLabel(p) == 0
  {
  }

  /** A record with no risk mask at all keeps the initial zero. */
  lemma NoRiskIsLabelledLow(p: Patient)
    requires !CriticalRisk(p) && !SevereRisk(p) && !ModerateRisk(p)
    ensures ClosedFormLabel(p) == 0
  {
  }

  // ---------------------------------------------------------------------------
  // The trainer's two named check cases
  // ---------------------------------------------------------------------------

  const VeryLowRiskCase: Patient := Patient(
    age := 35, sex := 0, cp := 0, trestbps := 110, chol := 170, fbs := 0, restecg := 0,
    thalach := 170, exang := 0, oldpeak := 0.0, slope := 2, ca := 0, thal := 2)

  const VeryHighRiskCase: Patient := Patient(
    age := 70, sex := 1, cp := 3, trestbps := 185, chol := 340, fbs := 1, restecg := 2,
    thalach := 95, exang := 1, oldpeak := 4.5, slope := 0, ca := 3, thal := 1)

  /** The "Very Low Risk" case misses the very-low mask at its boundaries, but it is protective and labelled 0. */
  lemma VeryLowRiskCaseLabel()
    ensures !VeryLowRisk(VeryLowRiskCase) && Protective(VeryLowRiskCase)
    ensures InGeneratorDomain(VeryLowRiskCase)
    ensures ClosedFormLabel(VeryLowRiskCase) == 0
  {
  }

  /** The "Very High Risk" case is critical through its three vessels (its ST depression is exactly 4.5, not above). */
  lemma VeryHighRiskCaseLabel()
    ensures CriticalRisk(VeryHighRiskCase) && !(VeryHighRiskCase.oldpeak > 4.5)
    ensures InGeneratorDomain(VeryHighRiskCase)
    ensures ClosedFormLabel(VeryHighRiskCase) == 1
  {
  }

  // ---------------------------------------------------------------------------
  // The trainer's own scaling: all thirteen columns
  // ---------------------------------------------------------------------------

  /** The feature values of a record in canonical column order. */
  function Values(p: Patient): (v: seq<real>)
    ensures |v| == |Features.FeatureNames|
  {
    [p.age as real, p.sex as real, p.cp as real, p.trestbps as real, p.chol as real,
     p.fbs as real, p.restecg as real, p.thalach as real, p.exang as real, p.oldpeak,
     p.slope as real, p.ca as real, p.thal as real]
  }

  /** pd.DataFrame(data) of the generated records, indexed 0..n-1. */
  function PatientFrame(rows: seq<Patient>): (f: Frames.Frame)
    ensures Frames.WellFormed(f) && |f.index| == |rows|
    ensures Frames.Names(f.columns) == Features.FeatureNames
    ensures forall j, i :: 0 <= j < 13 && 0 <= i < |rows| ==> f.columns[j].values[i] == Values(rows[i])[j]
  {
    Features.FeatureSplit();
    var f := Frames.Frame(
      seq(|rows|, i => i),
      seq(13, j requires 0 <= j < 13 =>
        Frames.Column(Features.FeatureNames[j], seq(|rows|, i requires 0 <= i < |rows| => Values(rows[i])[j]))));
    assert Frames.Names(f.columns) == Features.FeatureNames;
    f
  }

  /**
   * The trainer's scaling step: one scaler fitted on every column of the
   * training rows, categorical codes included, and applied to both splits.
   */
  function ScaleAllFeatures(fitColumn: seq<real> -> (real, real), train: seq<Patient>, test: seq<Patient>)
    : (r: Result<(Frames.Frame, Frames.Frame), Frames.Error>)
    ensures r.Ok? <==> |train| > 0 && |test| > 0
    ensures r.Ok? ==>
      var fitted := Frames.FitParams(fitColumn, PatientFrame(train));
      && r.value.0 == Frames.Standardized(fitted, PatientFrame(train))
      && r.value.1 == Frames.Standardized(fitted, PatientFrame(test))
  {
    var scaler :- Frames.Fit(fitColumn, PatientFrame(train));
    // a scaler never fails on the very frame it was just fitted on
    var trainScaled := Frames.Transform(scaler, PatientFrame(train)).value;
    var testScaled :- Frames.Transform(scaler, PatientFrame(test));
    Ok((trainScaled, testScaled))
  }
}
