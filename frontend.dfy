/**
 * The browser form: assembly of the thirteen-field record from parsed input
 * values, the check that rejects the first invalid value, and how a server
 * response is classified and defaulted for display.
 */
module Frontend {
  import opened Wrappers
  import opened Features

  /**
   * The parsed form inputs, in the order the record lists them; a value that
   * does not parse (NaN) is None.
   */
  datatype ParsedForm = ParsedForm(
    age: Option<real>, sex: Option<real>, cp: Option<real>, trestbps: Option<real>,
    chol: Option<real>, fbs: Option<real>, restecg: Option<real>, thalach: Option<real>,
    exang: Option<real>, oldpeak: Option<real>, slope: Option<real>, ca: Option<real>,
    thal: Option<real>)

  /** An object's entries in insertion order. */
  type Entries = seq<(string, Option<real>)>

  /** The record object literal: the thirteen features as keys, in canonical order. */
  function AssembleRecord(f: ParsedForm): (rec: Entries)
    ensures Keys(rec) == FeatureNames
    ensures rec[0].1 == f.age && rec[1].1 == f.sex && rec[2].1 == f.cp && rec[3].1 == f.trestbps
    ensures rec[4].1 == f.chol && rec[5].1 == f.fbs && rec[6].1 == f.restecg && rec[7].1 == f.thalach
    ensures rec[8].1 == f.exang && rec[9].1 == f.oldpeak && rec[10].1 == f.slope && rec[11].1 == f.ca
    ensures rec[12].1 == f.thal
  {
    var rec := [("age", f.age), ("sex", f.sex), ("cp", f.cp), ("trestbps", f.trestbps),
      ("chol", f.chol), ("fbs", f.fbs), ("restecg", f.restecg), ("thalach", f.thalach),
      ("exang", f.exang), ("oldpeak", f.oldpeak), ("slope", f.slope), ("ca", f.ca), ("thal", f.thal)];
    var ks := Keys(rec);
    assert |ks| == |FeatureNames| && forall k :: 0 <= k < 13 ==> ks[k] == FeatureNames[k];
    rec
  }

  /** The error raised for an invalid value. */
  function InvalidValueMessage(key: string): (m: string)
    ensures |m| >= |key| && m[|m| - |key|..] == key
  {
    var m := "Please enter a valid value for " + key;
    assert m[|m| - |key|..] == key;
    m
  }

  /**
   * Walk the entries in insertion order and fail on the first value that is
   * missing, naming its key; a record with no invalid value is returned as it
   * is.
   */
  method ValidateRecord(rec: Entries) returns (r: Result<Entries, string>)
    ensures r.Ok? <==> forall i :: 0 <= i < |rec| ==> rec[i].1.Some?
    ensures r.Ok? ==> r.value == rec
    ensures r.Err? ==> exists i :: (0 <= i < |rec| && rec[i].1.None? &&
      (forall j :: 0 <= j < i ==> rec[j].1.Some?) && r.error == InvalidValueMessage(rec[i].0))
  {
    var i := 0;
    while i < |rec|
      invariant 0 <= i <= |rec|
      invariant forall j :: 0 <= j < i ==> rec[j].1.Some?
    {
      if rec[i].1.None? {
        return Err(InvalidValueMessage(rec[i].0));
      }
      i := i + 1;
    }
    r := Ok(rec);
  }

  /**
   * Collect the form: assemble the record and check it. A valid form is sent
   * with the thirteen keys in canonical order; otherwise the error names the
   * first feature, in that order, whose value did not parse.
   */
  method GetFormData(f: ParsedForm) returns (r: Result<Entries, string>)
    ensures r.Ok? <==> forall i :: 0 <= i < |FeatureNames| ==> AssembleRecord(f)[i].1.Some?
    ensures r.Ok? ==> r.value == AssembleRecord(f) && Keys(r.value) == FeatureNames
    ensures r.Err? ==> exists i :: (0 <= i < |FeatureNames| && AssembleRecord(f)[i].1.None? &&
      (forall j :: 0 <= j < i ==> AssembleRecord(f)[j].1.Some?) && r.error == InvalidValueMessage(FeatureNames[i]))
  {
    var rec := AssembleRecord(f);
    assert forall i :: 0 <= i < |rec| ==> rec[i].0 == FeatureNames[i] by {
      assert forall i :: 0 <= i < |rec| ==> Keys(rec)[i] == rec[i].0;
    }
    r := ValidateRecord(rec);
  }

  /** The form data a valid submission sends: every field present. */
  lemma ValidFormHasAllFields(f: ParsedForm)
    requires forall i :: 0 <= i < 13 ==> AssembleRecord(f)[i].1.Some?
    ensures f.age.Some? && f.sex.Some? && f.cp.Some? && f.trestbps.Some? && f.chol.Some?
    ensures f.fbs.Some? && f.restecg.Some? && f.thalach.Some? && f.exang.Some?
    ensures f.oldpeak.Some? && f.slope.Some? && f.ca.Some? && f.thal.Some?
  {
    var rec := AssembleRecord(f);
    assert rec[0].1.Some? && rec[1].1.Some? && rec[2].1.Some? && rec[3].1.Some? && rec[4].1.Some?;
    assert rec[5].1.Some? && rec[6].1.Some? && rec[7].1.Some? && rec[8].1.Some? && rec[9].1.Some?;
    assert rec[10].1.Some? && rec[11].1.Some? && rec[12].1.Some?;
  }

  // ---------------------------------------------------------------------------
  // Display of a response
  // ---------------------------------------------------------------------------

  /** The fields of a parsed response that the page reads; an absent or non-number field is None. */
  datatype ServerResult = ServerResult(prediction: Option<real>, probability: Option<real>, message: Option<string>)

  const HighRiskClass: string := "result-container high-risk"
  const LowRiskClass: string := "result-container low-risk"
  const DefaultMessage: string := "Prediction completed"

  /** Styled high-risk exactly when the prediction is the number 1. */
  function ResultClass(r: ServerResult): (c: string)
    ensures c == HighRiskClass <==> r.prediction == Some(1.0)
    ensures c == LowRiskClass <==> r.prediction != Some(1.0)
  {
    if r.prediction == Some(1.0) then HighRiskClass else LowRiskClass
  }

  /** The message shown: the server's, unless absent or empty. */
  function DisplayMessage(r: ServerResult): (m: string)
    ensures r.message.Some? && r.message.value != "" ==> m == r.message.value
    ensures r.message.None? || r.message.value == "" ==> m == DefaultMessage
    ensures m != ""
  {
    if r.message.Some? && r.message.value != "" then r.message.value else DefaultMessage
  }

  /** The probability shown and charted: a missing (or NaN) one counts as 0. */
  function DisplayProbability(r: ServerResult): (p: real)
    ensures r.probability.None? ==> p == 0.0
    ensures r.probability.Some? ==> p == r.probability.value
  {
    if r.probability.Some? then r.probability.value else 0.0
  }

  /** The doughnut's two parts, low risk then high risk. */
  function ChartData(p: real): (d: seq<real>)
    ensures |d| == 2 && d[1] == p
    ensures d[0] + d[1] == 1.0
  {
    [1.0 - p, p]
  }

  /** The probability is displayed as a percentage. */
  function ProbabilityPercent(r: ServerResult): (pct: real)
    ensures pct == DisplayProbability(r) * 100.0
    ensures 0.0 <= DisplayProbability(r) <= 1.0 ==> 0.0 <= pct <= 100.0
  {
    DisplayProbability(r) * 100.0
  }

  /** What the page shows for a response: class, message, percentage and chart agree. */
  lemma DisplayAgrees(r: ServerResult)
    ensures ChartData(DisplayProbability(r))[1] * 100.0 == ProbabilityPercent(r)
    ensures r.probability.None? ==> ChartData(DisplayProbability(r)) == [1.0, 0.0]
  {
  }
}
