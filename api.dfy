/**
 * The HTTP service around the risk model: the in-memory prediction history
 * (append on predict, list, delete by index) and the two constant tables it
 * serves.
 */
module Api {
  import opened Wrappers
  import opened Features
  import opened Frames
  import opened HeartModel

  // ---------------------------------------------------------------------------
  // Requests and responses
  // ---------------------------------------------------------------------------

  /** A request body: a JSON object of numeric fields, keys unique, in document order. */
  type JsonObject = s: seq<(string, real)> | Distinct(Keys(s)) witness []

  /** `DataFrame([data])`: one row, labelled 0, with a column per key in key order. */
  function FrameOf(data: JsonObject): (f: Frame)
    ensures WellFormed(f) && f.index == [0]
    ensures Names(f.columns) == Keys(data)
    ensures forall k :: 0 <= k < |data| ==> f.columns[k].values == [data[k].1]
  {
    var f := Frame([0], seq(|data|, k requires 0 <= k < |data| => Column(data[k].0, [data[k].1])));
    assert Names(f.columns) == Keys(data);
    f
  }

  const HighRiskMessage: string := "High risk of heart disease"
  const LowRiskMessage: string := "Low risk of heart disease"
  const DeletedMessage: string := "Prediction deleted successfully"

  /** The response message names high risk exactly when the predicted label is 1. */
  function Message(prediction: int): (m: string)
    ensures m == HighRiskMessage <==> prediction == 1
    ensures m == LowRiskMessage <==> prediction != 1
  {
    if prediction == 1 then HighRiskMessage else LowRiskMessage
  }

  datatype Response = Response(prediction: int, probability: real, message: string, timestamp: string)

  datatype PredictionRecord = PredictionRecord(inputData: JsonObject, result: Response)

  /** A failure turned into an HTTP status. */
  datatype ApiError = BadRequest(cause: Error) | InvalidIndex

  function Status(e: ApiError): (code: int)
    ensures code == 400 <==> e.BadRequest?
    ensures code == 404 <==> e.InvalidIndex?
  {
    match e
    case BadRequest(_) => 400
    case InvalidIndex => 404
  }

  /** The response for the first (only) row of a prediction. */
  function ResponseFor(p: Prediction, now: string): (r: Response)
    requires |p.labels| > 0 && |p.probabilities| > 0
    ensures r.prediction == p.labels[0] && r.probability == p.probabilities[0] && r.timestamp == now
    ensures r.message == HighRiskMessage <==> r.prediction == 1
  {
    Response(p.labels[0], p.probabilities[0], Message(p.labels[0]), now)
  }

  /** Remove the element at i, keeping the others in order. */
  function RemoveAt<T>(s: seq<T>, i: nat): (r: seq<T>)
    requires i < |s|
    ensures |r| == |s| - 1
    ensures forall k :: 0 <= k < i ==> r[k] == s[k]
    ensures forall k :: i <= k < |r| ==> r[k] == s[k + 1]
    ensures multiset(r) + multiset{s[i]} == multiset(s)
  {
    assert s == s[..i] + [s[i]] + s[i + 1..];
    s[..i] + s[i + 1..]
  }

  // ---------------------------------------------------------------------------
  // The service
  // ---------------------------------------------------------------------------

  class PredictionService {
    /** The model loaded at start-up. */
    const model: HeartFailureModel
    /** The history, oldest first. */
    var predictions: seq<PredictionRecord>

    constructor (model: HeartFailureModel)
      ensures this.model == model && predictions == []
    {
      this.model := model;
      predictions := [];
    }

    /**
     * Predict for one request body. Success appends exactly one record, the
     * body with its response, to the end of the history; any failure appends
     * nothing and is reported as a bad request.
     */
    method Predict(data: JsonObject, now: string) returns (r: Result<Response, ApiError>)
      modifies this
      ensures var p := model.Predict(FrameOf(data));
        && (r.Ok? <==> p.Ok?)
        && (p.Ok? ==> r.value == ResponseFor(p.value, now) && predictions == old(predictions) + [PredictionRecord(data, r.value)])
        && (p.Err? ==> r == Err(BadRequest(p.error)) && predictions == old(predictions))
    {
      var input := FrameOf(data);
      var p := model.Predict(input);
      if p.Err? {
        return Err(BadRequest(p.error));
      }
      var response := ResponseFor(p.value, now);
      predictions := predictions + [PredictionRecord(data, response)];
      r := Ok(response);
    }

    /** The history, as it is. */
    function GetPredictions(): (r: seq<PredictionRecord>)
      reads this
      ensures r == predictions
    {
      predictions
    }

    /** Remove the record at a valid index; any other index changes nothing and is not found. */
    method DeletePrediction(index: int) returns (r: Result<string, ApiError>)
      modifies this
      ensures 0 <= index < |old(predictions)| ==>
        r == Ok(DeletedMessage) && predictions == RemoveAt(old(predictions), index)
      ensures !(0 <= index < |old(predictions)|) ==>
        r == Err(InvalidIndex) && predictions == old(predictions)
    {
      if 0 <= index < |predictions| {
        predictions := RemoveAt(predictions, index);
        return Ok(DeletedMessage);
      }
      r := Err(InvalidIndex);
    }
  }

  /** A successful request for a complete record answers for that one row. */
  lemma PredictAnswersOneRow(h: HeartFailureModel, data: JsonObject)
    requires h.Predict(FrameOf(data)).Ok?
    ensures |h.Predict(FrameOf(data)).value.labels| == 1
    ensures |h.Predict(FrameOf(data)).value.probabilities| == 1
  {
  }

  /**
   * A request body is predicted exactly when the model and scaler are loaded
   * and it carries all thirteen features.
   */
  lemma PredictDefinedFor(h: HeartFailureModel, data: JsonObject)
    ensures h.Predict(FrameOf(data)).Ok? <==>
      && h.model.Some? && h.scaler.Fitted? && ParamNames(h.scaler.params) == NumericalFeatures
      && forall n :: n in FeatureNames ==> n in Keys(data)
  {
    TransformColumnsSpec(h.scaler, FrameOf(data));
  }

  // ---------------------------------------------------------------------------
  // The feature table
  // ---------------------------------------------------------------------------

  datatype FeatureKind =
    | Numeric(lo: real, hi: real)
    | Categorical(values: seq<int>, valueDescriptions: seq<(int, string)>)

  datatype FeatureInfo = FeatureInfo(name: string, description: string, kind: FeatureKind)

  /** The documented domain of each input feature. */
  const FeatureTable: seq<FeatureInfo> := [
    FeatureInfo("age", "Age in years", Numeric(0.0, 150.0)),
    FeatureInfo("sex", "Gender (1 = male; 0 = female)", Categorical([0, 1], [])),
    FeatureInfo("cp", "Chest pain type", Categorical([0, 1, 2, 3],
      [(0, "Typical angina"), (1, "Atypical angina"), (2, "Non-anginal pain"), (3, "Asymptomatic")])),
    FeatureInfo("trestbps", "Resting blood pressure (in mm Hg)", Numeric(94.0, 200.0)),
    FeatureInfo("chol", "Serum cholesterol in mg/dl", Numeric(126.0, 564.0)),
    FeatureInfo("fbs", "Fasting blood sugar > 120 mg/dl", Categorical([0, 1], [(0, "False"), (1, "True")])),
    FeatureInfo("restecg", "Resting electrocardiographic results", Categorical([0, 1, 2],
      [(0, "Normal"), (1, "Having ST-T wave abnormality"),
       (2, "Showing probable or definite left ventricular hypertrophy")])),
    FeatureInfo("thalach", "Maximum heart rate achieved", Numeric(71.0, 202.0)),
    FeatureInfo("exang", "Exercise induced angina", Categorical([0, 1], [(0, "No"), (1, "Yes")])),
    FeatureInfo("oldpeak", "ST depression induced by exercise relative to rest", Numeric(0.0, 6.2)),
    FeatureInfo("slope", "Slope of the peak exercise ST segment", Categorical([0, 1, 2],
      [(0, "Upsloping"), (1, "Flat"), (2, "Downsloping")])),
    FeatureInfo("ca", "Number of major vessels colored by flourosopy", Categorical([0, 1, 2, 3], [])),
    FeatureInfo("thal", "Thalassemia", Categorical([0, 1, 2, 3],
      [(0, "Normal"), (1, "Fixed defect"), (2, "Reversable defect"), (3, "Unknown")]))
  ]

  /** Every value description is for one of the entry's listed codes, without repeats. */
  predicate DescriptionsListed(kind: FeatureKind) {
    kind.Categorical? ==>
      forall i :: 0 <= i < |kind.valueDescriptions| ==> kind.valueDescriptions[i].0 in kind.values
  }

  /**
   * The table documents the thirteen features in canonical order, numeric
   * entries for exactly the numeric features, a proper range for each of
   * them, and only listed codes in its value descriptions.
   */
  lemma FeatureTableShape()
    ensures |FeatureTable| == |FeatureNames|
    ensures forall k :: 0 <= k < |FeatureTable| ==> FeatureTable[k].name == FeatureNames[k]
    ensures forall k :: 0 <= k < |FeatureTable| ==>
      (FeatureTable[k].kind.Numeric? <==> IsNumerical(FeatureTable[k].name))
    ensures forall k :: 0 <= k < |FeatureTable| && FeatureTable[k].kind.Numeric? ==>
      FeatureTable[k].kind.lo < FeatureTable[k].kind.hi
    ensures forall k :: 0 <= k < |FeatureTable| ==> DescriptionsListed(FeatureTable[k].kind)
  {
  }

  /** The allowed codes of the categorical features. */
  lemma CategoricalCodes()
    ensures FeatureTable[1].name == "sex" && FeatureTable[1].kind.values == [0, 1]
    ensures FeatureTable[2].name == "cp" && FeatureTable[2].kind.values == [0, 1, 2, 3]
    ensures FeatureTable[5].name == "fbs" && FeatureTable[5].kind.values == [0, 1]
    ensures FeatureTable[6].name == "restecg" && FeatureTable[6].kind.values == [0, 1, 2]
    ensures FeatureTable[8].name == "exang" && FeatureTable[8].kind.values == [0, 1]
    ensures FeatureTable[10].name == "slope" && FeatureTable[10].kind.values == [0, 1, 2]
    ensures FeatureTable[11].name == "ca" && FeatureTable[11].kind.values == [0, 1, 2, 3]
    ensures FeatureTable[12].name == "thal" && FeatureTable[12].kind.values == [0, 1, 2, 3]
  {
  }

  // ---------------------------------------------------------------------------
  // The static importance ranking
  // ---------------------------------------------------------------------------

  /** A displayed feature with its importance in ten-thousandths. */
  datatype RankedFeature = RankedFeature(feature: string, tenThousandths: nat)

  const StaticImportance: seq<RankedFeature> := [
    RankedFeature("Number of Major Vessels", 1469),
    RankedFeature("Chest Pain Type", 1457),
    RankedFeature("Thalassemia", 1338),
    RankedFeature("ST Depression", 1106),
    RankedFeature("Maximum Heart Rate", 893),
    RankedFeature("Age", 779),
    RankedFeature("Exercise-Induced Angina", 725),
    RankedFeature("ST Slope", 586),
    RankedFeature("Cholesterol", 568),
    RankedFeature("Blood Pressure", 503),
    RankedFeature("Gender", 406),
    RankedFeature("ECG Results", 121),
    RankedFeature("Fasting Blood Sugar", 49)
  ]

  /** The sum of the weights from position i on. */
  function WeightFrom(s: seq<RankedFeature>, i: nat): nat
    decreases |s| - i
  {
    if i >= |s| then 0 else s[i].tenThousandths + WeightFrom(s, i + 1)
  }

  function TotalWeight(s: seq<RankedFeature>): nat {
    WeightFrom(s, 0)
  }

  predicate Decreasing(s: seq<RankedFeature>) {
    forall i, j :: 0 <= i < j < |s| ==> s[i].tenThousandths > s[j].tenThousandths
  }

  /** The ranking as the model's importance rows, weights as fractions of one. */
  function AsImportances(s: seq<RankedFeature>): (r: seq<Importance>)
    ensures |r| == |s|
    ensures forall k :: 0 <= k < |s| ==>
      r[k].feature == s[k].feature && r[k].importance * 10000.0 == s[k].tenThousandths as real
  {
    seq(|s|, k requires 0 <= k < |s| => Importance(s[k].feature, s[k].tenThousandths as real / 10000.0))
  }

  predicate AdjacentDecreasing(s: seq<RankedFeature>) {
    forall i :: 0 <= i < |s| - 1 ==> s[i].tenThousandths > s[i + 1].tenThousandths
  }

  /** Strict order between neighbours extends to every pair. */
  lemma {:induction false} AdjacentOrderSuffices(s: seq<RankedFeature>)
    requires AdjacentDecreasing(s)
    ensures Decreasing(s)
  {
    if |s| > 1 {
      AdjacentOrderSuffices(s[1..]);
      forall j | 1 <= j < |s| ensures s[0].tenThousandths > s[j].tenThousandths {
        assert s[j] == s[1..][j - 1];
        if j > 1 {
          assert s[1..][0].tenThousandths > s[1..][j - 1].tenThousandths;
        }
      }
      forall i, j | 1 <= i < j < |s| ensures s[i].tenThousandths > s[j].tenThousandths {
        assert s[i] == s[1..][i - 1] && s[j] == s[1..][j - 1];
      }
    }
  }

  /** Thirteen rows, most important first, no two with the same weight. */
  lemma StaticImportanceOrdered()
    ensures |StaticImportance| == |FeatureNames|
    ensures Decreasing(StaticImportance)
  {
    AdjacentOrderSuffices(StaticImportance);
  }

  /** The weights add up to exactly one. */
  lemma StaticImportanceSum()
    ensures TotalWeight(StaticImportance) == 10000
  {
    var s := StaticImportance;
    assert WeightFrom(s, 13) == 0;
    assert WeightFrom(s, 12) == 49;
    assert WeightFrom(s, 11) == 170;
    assert WeightFrom(s, 10) == 576;
    assert WeightFrom(s, 9) == 1079;
    assert WeightFrom(s, 8) == 1647;
    assert WeightFrom(s, 7) == 2233;
    assert WeightFrom(s, 6) == 2958;
    assert WeightFrom(s, 5) == 3737;
    assert WeightFrom(s, 4) == 4630;
    assert WeightFrom(s, 3) == 5736;
    assert WeightFrom(s, 2) == 7074;
    assert WeightFrom(s, 1) == 8531;
  }

  /** The served ranking is already in the order the model's importance sort produces. */
  lemma StaticImportanceIsSorted()
    ensures SortByImportance(AsImportances(StaticImportance)) == AsImportances(StaticImportance)
  {
    StaticImportanceOrdered();
    var r := AsImportances(StaticImportance);
    assert StrictlyRanked(r) by {
      forall i, j | 0 <= i < j < |r| ensures r[i].importance > r[j].importance {
        assert StaticImportance[i].tenThousandths > StaticImportance[j].tenThousandths;
      }
    }
    SortKeepsSorted(r);
  }
}
