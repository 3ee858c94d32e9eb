/**
 * The learned risk model: column handling shared by training and inference,
 * evaluation counts, the feature-importance ranking, and the paired
 * model/scaler artifact. The classifier itself is opaque.
 */
module HeartModel {
  import opened Wrappers
  import opened Features
  import opened Frames

  /** An opaque fitted forest: a label and a probability per input row, and one importance per feature. */
  datatype Forest = Forest(classify: seq<real> -> int, probability: seq<real> -> real, importances: seq<real>)

  datatype Prediction = Prediction(labels: seq<int>, probabilities: seq<real>)

  /** The values of row i, one per column. */
  function Row(f: Frame, i: nat): (row: seq<real>)
    requires Rectangular(f) && i < |f.index|
    ensures |row| == |f.columns| && forall j :: 0 <= j < |f.columns| ==> row[j] == f.columns[j].values[i]
  {
    seq(|f.columns|, j requires 0 <= j < |f.columns| => f.columns[j].values[i])
  }

  /** The forest's label for every row, in row order. */
  function Classify(m: Forest, f: Frame): (labels: seq<int>)
    requires Rectangular(f)
    ensures |labels| == |f.index| && forall i :: 0 <= i < |f.index| ==> labels[i] == m.classify(Row(f, i))
  {
    seq(|f.index|, i requires 0 <= i < |f.index| => m.classify(Row(f, i)))
  }

  /** The forest's high-risk probability for every row, in row order. */
  function Probabilities(m: Forest, f: Frame): (ps: seq<real>)
    requires Rectangular(f)
    ensures |ps| == |f.index| && forall i :: 0 <= i < |f.index| ==> ps[i] == m.probability(Row(f, i))
  {
    seq(|f.index|, i requires 0 <= i < |f.index| => m.probability(Row(f, i)))
  }

  // ---------------------------------------------------------------------------
  // Column treatment
  // ---------------------------------------------------------------------------

  /** A scaler fitted on the numeric columns of a frame. */
  function FitNumeric(fitColumn: seq<real> -> (real, real), x: Frame): (r: Result<Scaler, Error>)
    ensures r.Ok? <==> (forall n :: n in NumericalFeatures ==> n in Names(x.columns)) && |x.index| > 0
    ensures r.Ok? ==> r.value.Fitted? && ParamNames(r.value.params) == NumericalFeatures
    ensures r.Ok? ==> r.value == Fitted(FitParams(fitColumn, Select(x, NumericalFeatures).value))
  {
    FeatureSplit();
    var numeric :- Select(x, NumericalFeatures);
    Fit(fitColumn, numeric)
  }

  /**
   * Scale the numeric columns, add the categorical ones back unchanged, and
   * put the columns in canonical order: the treatment of both training and
   * inference.
   */
  function TransformColumns(s: Scaler, x: Frame): (r: Result<Frame, Error>)
  {
    var numeric :- Select(x, NumericalFeatures);
    var scaled :- Transform(s, numeric);
    var combined :- AssignColumns(scaled, CategoricalFeatures, x);
    Select(combined, FeatureNames)
  }

  /** With distinct names, the lookup of a column's own name finds that column. */
  lemma LookupOwnName(cols: seq<Column>, k: nat)
    requires Distinct(Names(cols)) && k < |cols|
    ensures cols[k].name in Names(cols) && ColumnNamed(cols, cols[k].name) == cols[k]
  {
    FirstOfName(cols, cols[k].name, k);
  }

  /**
   * What the transformed frame is: defined exactly when the thirteen features
   * are present, the scaler was fitted on the numeric columns and there is a
   * row; then it has the input's index, the canonical column order, every
   * categorical column unchanged and every numeric column standardized with
   * its fitted parameters.
   */
  lemma TransformColumnsSpec(s: Scaler, x: Frame)
    ensures TransformColumns(s, x).Ok? <==>
      && (forall n :: n in FeatureNames ==> n in Names(x.columns))
      && s.Fitted? && ParamNames(s.params) == NumericalFeatures
      && |x.index| > 0
    ensures TransformColumns(s, x).Ok? ==>
      var t := TransformColumns(s, x).value;
      && t.index == x.index
      && Names(t.columns) == FeatureNames
      && (forall j :: 0 <= j < |FeatureNames| && FeatureNames[j] in CategoricalFeatures ==>
            t.columns[j] == ColumnNamed(x.columns, FeatureNames[j]))
      && (forall j, k :: 0 <= j < |FeatureNames| && 0 <= k < |NumericalFeatures| && FeatureNames[j] == NumericalFeatures[k] ==>
            t.columns[j].values == StandardizeAll(s.params[k].affine, ColumnNamed(x.columns, FeatureNames[j]).values))
      && (Rectangular(x) ==> Rectangular(t))
  {
    TransformColumnsDefined(s, x);
    if TransformColumns(s, x).Ok? {
      TransformColumnsLayout(s, x);
      TransformColumnsNumeric(s, x);
    }
  }

  /** When the shared treatment is defined. */
  lemma TransformColumnsDefined(s: Scaler, x: Frame)
    ensures TransformColumns(s, x).Ok? <==>
      && (forall n :: n in FeatureNames ==> n in Names(x.columns))
      && s.Fitted? && ParamNames(s.params) == NumericalFeatures
      && |x.index| > 0
  {
    FeatureSplit();
    var numeric := Select(x, NumericalFeatures);
    if numeric.Ok? {
      var scaled := Transform(s, numeric.value);
      if scaled.Ok? {
        var combined := AssignColumns(scaled.value, CategoricalFeatures, x);
        if combined.Ok? {
          assert Select(combined.value, FeatureNames).Ok?;
        } else {
          assert exists n :: n in CategoricalFeatures && n !in Names(x.columns);
        }
      }
    } else {
      assert exists n :: n in NumericalFeatures && n !in Names(x.columns);
    }
  }

  /** The treated frame's index, column order, categorical columns and shape. */
  lemma TransformColumnsLayout(s: Scaler, x: Frame)
    requires TransformColumns(s, x).Ok?
    ensures var t := TransformColumns(s, x).value;
      && t.index == x.index
      && Names(t.columns) == FeatureNames
      && (forall j :: 0 <= j < |FeatureNames| && FeatureNames[j] in CategoricalFeatures ==>
            t.columns[j] == ColumnNamed(x.columns, FeatureNames[j]))
      && (Rectangular(x) ==> Rectangular(t))
  {
    FeatureSplit();
    var numeric := Select(x, NumericalFeatures).value;
    var sc := Transform(s, numeric).value;
    assert Names(sc.columns) == NumericalFeatures;
    var c := AssignColumns(sc, CategoricalFeatures, x).value;
    assert Select(c, FeatureNames).Ok?;
  }

  /** The treated frame's numeric columns. */
  lemma TransformColumnsNumeric(s: Scaler, x: Frame)
    requires TransformColumns(s, x).Ok?
    ensures s.Fitted? && |s.params| == |NumericalFeatures|
    ensures var t := TransformColumns(s, x).value;
      && |t.columns| == |FeatureNames|
      && forall j, k :: 0 <= j < |FeatureNames| && 0 <= k < |NumericalFeatures| && FeatureNames[j] == NumericalFeatures[k] ==>
           FeatureNames[j] in Names(x.columns) &&
           t.columns[j].values == StandardizeAll(s.params[k].affine, ColumnNamed(x.columns, FeatureNames[j]).values)
  {
    FeatureSplit();
    var numeric := Select(x, NumericalFeatures).value;
    var sc := Transform(s, numeric).value;
    assert Names(sc.columns) == NumericalFeatures;
    var c := AssignColumns(sc, CategoricalFeatures, x).value;
    var t := Select(c, FeatureNames);
    assert t.Ok?;
    forall j, k | 0 <= j < |FeatureNames| && 0 <= k < |NumericalFeatures| && FeatureNames[j] == NumericalFeatures[k]
      ensures t.value.columns[j].values == StandardizeAll(s.params[k].affine, ColumnNamed(x.columns, FeatureNames[j]).values)
    {
      LookupOwnName(sc.columns, k);
      assert sc.columns[k].name == NumericalFeatures[k];
    }
  }

  /** Selecting the thirteen features first does not change the treatment. */
  lemma SelectedTransformsAlike(s: Scaler, x: Frame)
    requires Select(x, FeatureNames).Ok?
    ensures TransformColumns(s, Select(x, FeatureNames).value) == TransformColumns(s, x)
  {
    var x' := Select(x, FeatureNames).value;
    SelectionLookups(x);
    FeatureSplit();
    SameSelection(x', x, NumericalFeatures);
    SameSelection(x', x, CategoricalFeatures);
    var numeric := Select(x, NumericalFeatures);
    if numeric.Ok? {
      var scaled := Transform(s, numeric.value);
      if scaled.Ok? {
        assert AssignColumns(scaled.value, CategoricalFeatures, x') == AssignColumns(scaled.value, CategoricalFeatures, x);
      }
    }
  }

  /** The selected features look up the same columns as in the frame they were selected from. */
  lemma SelectionLookups(x: Frame)
    requires Select(x, FeatureNames).Ok?
    ensures var x' := Select(x, FeatureNames).value;
      && x'.index == x.index
      && forall n :: n in FeatureNames ==>
        n in Names(x.columns) && n in Names(x'.columns) && ColumnNamed(x'.columns, n) == ColumnNamed(x.columns, n)
  {
    FeatureSplit();
    var x' := Select(x, FeatureNames).value;
    forall n | n in FeatureNames
      ensures n in Names(x'.columns) && ColumnNamed(x'.columns, n) == ColumnNamed(x.columns, n)
    {
      var k :| 0 <= k < |FeatureNames| && FeatureNames[k] == n;
      LookupOwnName(x'.columns, k);
    }
  }

  /** Two frames with one index that agree on the named columns give the same selection. */
  lemma SameSelection(a: Frame, b: Frame, names: seq<string>)
    requires a.index == b.index
    requires forall n :: n in names ==> n in Names(a.columns) && n in Names(b.columns) && ColumnNamed(a.columns, n) == ColumnNamed(b.columns, n)
    ensures Select(a, names) == Select(b, names)
  {
    var sa, sb := Select(a, names).value, Select(b, names).value;
    assert sa.columns == sb.columns by {
      forall k | 0 <= k < |names| ensures sa.columns[k] == sb.columns[k] {
        assert names[k] in names;
      }
    }
  }

  // ---------------------------------------------------------------------------
  // Evaluation counts
  // ---------------------------------------------------------------------------

  /** The unpacked 2×2 confusion matrix. */
  datatype Counts = Counts(tn: nat, fp: nat, fn: nat, tp: nat)

  datatype Report = Report(accuracy: real, sensitivity: real, specificity: real, confusion: Counts)

  /** The (true, predicted) label pair at each position. */
  function Pairs(yTrue: seq<int>, yPred: seq<int>): (ps: seq<(int, int)>)
    requires |yTrue| == |yPred|
    ensures |ps| == |yTrue| && forall i :: 0 <= i < |yTrue| ==> ps[i] == (yTrue[i], yPred[i])
  {
    seq(|yTrue|, i requires 0 <= i < |yTrue| => (yTrue[i], yPred[i]))
  }

  /** Number of positions whose true label is t and predicted label is p. */
  function CountPairs(yTrue: seq<int>, yPred: seq<int>, t: int, p: int): (c: nat)
    requires |yTrue| == |yPred|
    ensures c <= |yTrue|
  {
    if |yTrue| == 0 then 0
    else (if yTrue[0] == t && yPred[0] == p then 1 else 0) + CountPairs(yTrue[1..], yPred[1..], t, p)
  }

  /** A confusion cell is the multiplicity of its (true, predicted) pair among the positions' pairs. */
  lemma {:induction false} CountPairsIsMultiplicity(yTrue: seq<int>, yPred: seq<int>, t: int, p: int)
    requires |yTrue| == |yPred|
    ensures CountPairs(yTrue, yPred, t, p) == multiset(Pairs(yTrue, yPred))[(t, p)]
  {
    if |yTrue| > 0 {
      assert Pairs(yTrue, yPred) == [(yTrue[0], yPred[0])] + Pairs(yTrue[1..], yPred[1..]);
      CountPairsIsMultiplicity(yTrue[1..], yPred[1..], t, p);
    }
  }

  /** Number of positions whose true label is t. */
  function CountLabel(y: seq<int>, t: int): (c: nat)
    ensures c <= |y|
  {
    if |y| == 0 then 0 else (if y[0] == t then 1 else 0) + CountLabel(y[1..], t)
  }

  /** Number of exact label matches. */
  function Matches(yTrue: seq<int>, yPred: seq<int>): (c: nat)
    requires |yTrue| == |yPred|
    ensures c <= |yTrue|
  {
    if |yTrue| == 0 then 0
    else (if yTrue[0] == yPred[0] then 1 else 0) + Matches(yTrue[1..], yPred[1..])
  }

  function Confusion(yTrue: seq<int>, yPred: seq<int>, neg: int, pos: int): Counts
    requires |yTrue| == |yPred|
  {
    Counts(CountPairs(yTrue, yPred, neg, neg), CountPairs(yTrue, yPred, neg, pos),
           CountPairs(yTrue, yPred, pos, neg), CountPairs(yTrue, yPred, pos, pos))
  }

  predicate AllIn(y: seq<int>, neg: int, pos: int) {
    forall i :: 0 <= i < |y| ==> y[i] == neg || y[i] == pos
  }

  /** When every label is one of two classes, the four cells count every position once. */
  lemma {:induction false} ConfusionTotal(yTrue: seq<int>, yPred: seq<int>, neg: int, pos: int)
    requires |yTrue| == |yPred| && neg != pos
    requires AllIn(yTrue, neg, pos) && AllIn(yPred, neg, pos)
    ensures var c := Confusion(yTrue, yPred, neg, pos); c.tn + c.fp + c.fn + c.tp == |yTrue|
    ensures var c := Confusion(yTrue, yPred, neg, pos); c.fn + c.tp == CountLabel(yTrue, pos)
    ensures var c := Confusion(yTrue, yPred, neg, pos); c.tn + c.fp == CountLabel(yTrue, neg)
    ensures var c := Confusion(yTrue, yPred, neg, pos); c.tn + c.tp == Matches(yTrue, yPred)
  {
    if |yTrue| > 0 {
      ConfusionTotal(yTrue[1..], yPred[1..], neg, pos);
    }
  }

  /** A label that occurs somewhere is counted at least once. */
  lemma {:induction false} CountLabelPositive(y: seq<int>, t: int, i: nat)
    requires i < |y| && y[i] == t
    ensures CountLabel(y, t) > 0
  {
    if i > 0 {
      CountLabelPositive(y[1..], t, i - 1);
    }
  }

  /** Exactly two classes occur: the unique labels are lo < hi. */
  predicate TwoClasses(y: seq<int>, lo: int, hi: int) {
    lo < hi && AllIn(y, lo, hi) && (exists i :: 0 <= i < |y| && y[i] == lo) && (exists i :: 0 <= i < |y| && y[i] == hi)
  }

  /** The smallest label, or 0 for no labels. */
  function MinLabel(y: seq<int>): (m: int)
    ensures |y| > 0 ==> (exists i :: 0 <= i < |y| && y[i] == m) && forall i :: 0 <= i < |y| ==> m <= y[i]
  {
    if |y| == 0 then 0
    else if |y| == 1 || y[0] <= MinLabel(y[1..]) then y[0]
    else MinLabel(y[1..])
  }

  /** The largest label, or 0 for no labels. */
  function MaxLabel(y: seq<int>): (m: int)
    ensures |y| > 0 ==> (exists i :: 0 <= i < |y| && y[i] == m) && forall i :: 0 <= i < |y| ==> y[i] <= m
  {
    if |y| == 0 then 0
    else if |y| == 1 || y[0] >= MaxLabel(y[1..]) then y[0]
    else MaxLabel(y[1..])
  }

  /** The true-positive rate; its denominator is the number of positive test labels. */
  function Sensitivity(c: Counts): (r: real)
    requires c.tp + c.fn > 0
    ensures r * ((c.tp + c.fn) as real) == c.tp as real
    ensures 0.0 <= r <= 1.0
    ensures r == 1.0 <==> c.fn == 0
    ensures r == 0.0 <==> c.tp == 0
  {
    Ratio(c.tp, c.fn)
  }

  /** The true-negative rate; its denominator is the number of negative test labels. */
  function Specificity(c: Counts): (r: real)
    requires c.tn + c.fp > 0
    ensures r * ((c.tn + c.fp) as real) == c.tn as real
    ensures 0.0 <= r <= 1.0
    ensures r == 1.0 <==> c.fp == 0
    ensures r == 0.0 <==> c.tn == 0
  {
    Ratio(c.tn, c.fp)
  }

  /** hit / (hit + miss). */
  function Ratio(hit: nat, miss: nat): (r: real)
    requires hit + miss > 0
    ensures r * ((hit + miss) as real) == hit as real
    ensures 0.0 <= r <= 1.0
    ensures r == 1.0 <==> miss == 0
    ensures r == 0.0 <==> hit == 0
  {
    RatioBounds(hit, miss);
    hit as real / (hit + miss) as real
  }

  lemma RatioBounds(hit: nat, miss: nat)
    requires hit + miss > 0
    ensures var r := hit as real / (hit + miss) as real;
      && r * ((hit + miss) as real) == hit as real
      && 0.0 <= r <= 1.0
      && (r == 1.0 <==> miss == 0)
      && (r == 0.0 <==> hit == 0)
  {
    var d := (hit + miss) as real;
    var r := hit as real / d;
    assert r * d == hit as real;
    assert hit as real <= d;
    if r == 1.0 {
      assert d == hit as real;
    }
  }

  /**
   * The report for labels of exactly two classes and predictions within them:
   * the four cells count every test row once, both rate denominators are the
   * (positive) class sizes, and accuracy is the share of exact matches.
   */
  function Score(yTest: seq<int>, yPred: seq<int>, neg: int, pos: int): (r: Report)
    requires |yTest| == |yPred|
    requires TwoClasses(yTest, neg, pos) && AllIn(yPred, neg, pos)
    ensures var c := r.confusion;
      && c == Confusion(yTest, yPred, neg, pos)
      && c.tn + c.fp + c.fn + c.tp == |yTest|
      && c.tp + c.fn == CountLabel(yTest, pos) > 0
      && c.tn + c.fp == CountLabel(yTest, neg) > 0
      && r.sensitivity * ((c.tp + c.fn) as real) == c.tp as real
      && r.specificity * ((c.tn + c.fp) as real) == c.tn as real
      && r.accuracy * (|yTest| as real) == Matches(yTest, yPred) as real
      && Matches(yTest, yPred) == c.tn + c.tp
  {
    var c := Confusion(yTest, yPred, neg, pos);
    ConfusionTotal(yTest, yPred, neg, pos);
    BothClassesCounted(yTest, neg, pos);
    var m := Matches(yTest, yPred);
    var accuracy := Ratio(m, |yTest| - m);
    var sensitivity := Sensitivity(c);
    var specificity := Specificity(c);
    Report(accuracy, sensitivity, specificity, c)
  }

  /** Both classes of a two-class labelling occur, so both are counted. */
  lemma BothClassesCounted(y: seq<int>, neg: int, pos: int)
    requires TwoClasses(y, neg, pos)
    ensures CountLabel(y, neg) > 0 && CountLabel(y, pos) > 0
  {
    var iPos :| 0 <= iPos < |y| && y[iPos] == pos;
    var iNeg :| 0 <= iNeg < |y| && y[iNeg] == neg;
    CountLabelPositive(y, pos, iPos);
    CountLabelPositive(y, neg, iNeg);
  }

  // ---------------------------------------------------------------------------
  // Feature-importance ranking
  // ---------------------------------------------------------------------------

  datatype Importance = Importance(feature: string, importance: real)

  /** One row per feature name, paired with its weight. */
  function Zip(names: seq<string>, weights: seq<real>): (r: seq<Importance>)
    requires |names| == |weights|
    ensures |r| == |names| && forall k :: 0 <= k < |r| ==> r[k] == Importance(names[k], weights[k])
  {
    seq(|names|, k requires 0 <= k < |names| => Importance(names[k], weights[k]))
  }

  predicate SortedByImportance(s: seq<Importance>) {
    forall i, j :: 0 <= i < j < |s| ==> s[i].importance >= s[j].importance
  }

  /** Insert into a non-increasing sequence before the first smaller weight. */
  function Insert(x: Importance, s: seq<Importance>): (r: seq<Importance>)
    requires SortedByImportance(s)
    ensures SortedByImportance(r)
    ensures multiset(r) == multiset(s) + multiset{x}
    ensures forall e :: e in r ==> e == x || e in s
  {
    if |s| == 0 then [x]
    else if x.importance >= s[0].importance then [x] + s
    else
      var rest := Insert(x, s[1..]);
      assert s == [s[0]] + s[1..];
      ConsSorted(s, x, rest);
      [s[0]] + rest
  }

  /** Putting a sorted sequence's head before an insertion into its tail keeps the order. */
  lemma ConsSorted(s: seq<Importance>, x: Importance, rest: seq<Importance>)
    requires SortedByImportance(s) && |s| > 0 && x.importance < s[0].importance
    requires SortedByImportance(rest) && forall e :: e in rest ==> e == x || e in s[1..]
    ensures SortedByImportance([s[0]] + rest)
  {
    forall e | e in rest ensures e.importance <= s[0].importance {
      if e != x {
        var k :| 0 <= k < |s[1..]| && s[1..][k] == e;
        assert s[k + 1] == e;
      }
    }
    var t := [s[0]] + rest;
    forall i, j | 0 <= i < j < |t| ensures t[i].importance >= t[j].importance {
      if i == 0 {
        assert t[j] == rest[j - 1];
        assert rest[j - 1] in rest;
      } else {
        assert t[i] == rest[i - 1] && t[j] == rest[j - 1];
      }
    }
  }

  /** `sort_values('importance', ascending=False)`: a non-increasing permutation. */
  function SortByImportance(s: seq<Importance>): (r: seq<Importance>)
    ensures SortedByImportance(r)
    ensures multiset(r) == multiset(s) && |r| == |s|
  {
    if |s| == 0 then []
    else
      assert s == [s[0]] + s[1..];
      Insert(s[0], SortByImportance(s[1..]))
  }

  /** Strictly decreasing importances: no two rows tie. */
  predicate StrictlyRanked(s: seq<Importance>) {
    forall i, j :: 0 <= i < j < |s| ==> s[i].importance > s[j].importance
  }

  /**
   * A ranking whose importances strictly decrease comes back as it is: with
   * no ties there is only one non-increasing order of its rows.
   */
  lemma {:induction false} SortKeepsSorted(s: seq<Importance>)
    requires StrictlyRanked(s)
    ensures SortByImportance(s) == s
  {
    if |s| > 0 {
      assert StrictlyRanked(s[1..]) && SortedByImportance(s[1..]);
      SortKeepsSorted(s[1..]);
      assert s == [s[0]] + s[1..];
    }
  }

  // ---------------------------------------------------------------------------
  // Artifacts
  // ---------------------------------------------------------------------------

  /** A file path: its parent directory and its file name. */
  datatype Path = Path(dir: seq<string>, name: string)

  const ScalerFileName: string := "scaler.joblib"

  /** The scaler is stored beside the model: the model path's parent joined with the scaler's file name. */
  function ScalerPath(modelPath: Path): (p: Path)
    ensures p.dir == modelPath.dir && p.name == ScalerFileName
    ensures p == modelPath <==> modelPath.name == ScalerFileName
  {
    Path(modelPath.dir, ScalerFileName)
  }

  datatype Artifact = ModelFile(model: Option<Forest>) | ScalerFile(scaler: Scaler)

  /** The files on disk. */
  type Store = map<Path, Artifact>

  /** A loaded object used as the classifier; anything but a classifier behaves like none at all. */
  function AsModel(a: Artifact): Option<Forest> {
    if a.ModelFile? then a.model else None
  }

  /** A loaded object used as the scaler; anything but a scaler behaves like an unfitted one. */
  function AsScaler(a: Artifact): Scaler {
    if a.ScalerFile? then a.scaler else Unfitted
  }

  /** What a load finds at a model path: both halves of the pair, or the first missing file. */
  function ArtifactPair(store: Store, modelPath: Path): (r: Result<(Option<Forest>, Scaler), Error>)
    ensures r.Ok? <==> modelPath in store && ScalerPath(modelPath) in store
    ensures modelPath !in store ==> r == Err(FileNotFound(modelPath.dir, modelPath.name))
    ensures modelPath in store && ScalerPath(modelPath) !in store ==> r == Err(FileNotFound(modelPath.dir, ScalerFileName))
    ensures r.Ok? ==> r.value == (AsModel(store[modelPath]), AsScaler(store[ScalerPath(modelPath)]))
  {
    var sp := ScalerPath(modelPath);
    if modelPath !in store then Err(FileNotFound(modelPath.dir, modelPath.name))
    else if sp !in store then Err(FileNotFound(sp.dir, sp.name))
    else Ok((AsModel(store[modelPath]), AsScaler(store[sp])))
  }

  // ---------------------------------------------------------------------------
  // The model object
  // ---------------------------------------------------------------------------

  class HeartFailureModel {
    var model: Option<Forest>
    var scaler: Scaler
    const featureNames: seq<string> := FeatureNames
    /** The scaler's fitting rule: a column's (mean, standard deviation). */
    const fitColumn: seq<real> -> (real, real)

    constructor (fitColumn: seq<real> -> (real, real))
      ensures model == None && scaler == Unfitted && this.fitColumn == fitColumn
    {
      model := None;
      scaler := Unfitted;
      this.fitColumn := fitColumn;
    }

    /**
     * Fit the scaler on the training split's numeric columns, then give both
     * splits the shared column treatment with that one scaler. The scaler is
     * kept once fitted, even when a later step fails. A fit that starts (the
     * numeric columns are present) first resets the scaler, so a fit that then
     * fails on a split with no rows leaves it unfitted; a missing numeric
     * column fails before the fit and leaves the scaler as it was.
     */
    method PreprocessData(xTrain: Frame, xTest: Frame) returns (r: Result<(Frame, Frame), Error>)
      modifies this
      ensures model == old(model)
      ensures var fitted := FitNumeric(fitColumn, xTrain);
        && scaler == (if fitted.Ok? then fitted.value
                      else if Select(xTrain, NumericalFeatures).Ok? then Unfitted
                      else old(scaler))
        && (r.Ok? <==> fitted.Ok? && TransformColumns(fitted.value, xTrain).Ok? && TransformColumns(fitted.value, xTest).Ok?)
        && (r.Ok? ==> r.value == (TransformColumns(fitted.value, xTrain).value, TransformColumns(fitted.value, xTest).value))
    {
      var trainNumeric :- Select(xTrain, NumericalFeatures);
      var fit := Fit(fitColumn, trainNumeric);
      if fit.Err? {
        scaler := Unfitted;
        return fit.PropagateFailure();
      }
      scaler := fit.value;
      // a scaler never fails on the very frame it was just fitted on
      var trainScaled := Transform(scaler, trainNumeric).value;
      var testNumeric :- Select(xTest, NumericalFeatures);
      var testScaled :- Transform(scaler, testNumeric);
      var trainCombined :- AssignColumns(trainScaled, CategoricalFeatures, xTrain);
      var testCombined :- AssignColumns(testScaled, CategoricalFeatures, xTest);
      TransformColumnsSpec(scaler, xTrain);
      TransformColumnsSpec(scaler, xTest);
      var trainOut := Select(trainCombined, featureNames).value;
      var testOut := Select(testCombined, featureNames).value;
      r := Ok((trainOut, testOut));
    }

    /** Keep the estimator the hyperparameter search selected. */
    method Train(best: Forest)
      modifies this
      ensures model == Some(best) && scaler == old(scaler)
    {
      model := Some(best);
    }

    /**
     * Accuracy, sensitivity and specificity on a test split. The ROC-AUC step
     * fails unless the test labels are exactly two classes, and the unpacking
     * of the confusion matrix fails when a prediction is a third label; when
     * evaluation succeeds both rate denominators are therefore positive.
     */
    function Evaluate(xTest: Frame, yTest: seq<int>): (r: Result<Report, Error>)
      reads this
      requires Rectangular(xTest)
      ensures model.None? ==> r == Err(NoModel)
      ensures r.Ok? <==>
        && model.Some? && |yTest| == |xTest.index|
        && TwoClasses(yTest, MinLabel(yTest), MaxLabel(yTest))
        && AllIn(Classify(model.value, xTest), MinLabel(yTest), MaxLabel(yTest))
      ensures r.Ok? ==>
        r.value == Score(yTest, Classify(model.value, xTest), MinLabel(yTest), MaxLabel(yTest))
    {
      if model.None? then Err(NoModel)
      else
        var yPred := Classify(model.value, xTest);
        if |yTest| != |yPred| then Err(InconsistentLength)
        else
          var lo, hi := MinLabel(yTest), MaxLabel(yTest);
          if !TwoClasses(yTest, lo, hi) then Err(SingleClass)
          else if !AllIn(yPred, lo, hi) then Err(ConfusionShape)
          else Ok(Score(yTest, yPred, lo, hi))
    }

    /** The forest's importances paired with the feature names, most important first. */
    function GetFeatureImportance(): (r: Result<seq<Importance>, Error>)
      reads this
      ensures model.None? ==> r == Err(NoModel)
      ensures r.Ok? <==> model.Some? && |model.value.importances| == |featureNames|
      ensures r.Ok? ==>
        && |r.value| == |featureNames|
        && SortedByImportance(r.value)
        && multiset(r.value) == multiset(Zip(featureNames, model.value.importances))
    {
      if model.None? then Err(NoModel)
      else if |model.value.importances| != |featureNames| then Err(LengthMismatch)
      else Ok(SortByImportance(Zip(featureNames, model.value.importances)))
    }

    /**
     * Labels and probabilities for every row of a frame: the thirteen features
     * are selected, given the shared column treatment with the loaded scaler,
     * and classified row by row.
     */
    function Predict(x: Frame): (r: Result<Prediction, Error>)
      reads this
      requires Rectangular(x)
      ensures r.Ok? <==> TransformColumns(scaler, x).Ok? && model.Some?
      ensures r.Ok? ==>
        var t := TransformColumns(scaler, x).value;
        && Rectangular(t) && t.index == x.index
        && |r.value.labels| == |x.index| && |r.value.probabilities| == |x.index|
        && (forall i :: 0 <= i < |x.index| ==> r.value.labels[i] == model.value.classify(Row(t, i)))
        && (forall i :: 0 <= i < |x.index| ==> r.value.probabilities[i] == model.value.probability(Row(t, i)))
    {
      FeatureSplit();
      TransformColumnsSpec(scaler, x);
      var selected :- Select(x, featureNames);
      SelectedTransformsAlike(scaler, x);
      var transformed :- TransformColumns(scaler, selected);
      if model.None? then Err(NoModel)
      else Ok(Prediction(Classify(model.value, transformed), Probabilities(model.value, transformed)))
    }

    /** The store after dumping the model at its path and the scaler beside it. */
    function SaveModel(store: Store, modelPath: Path): (r: Store)
      reads this
      ensures ScalerPath(modelPath) in r && r[ScalerPath(modelPath)] == ScalerFile(scaler)
      ensures modelPath in r
      ensures modelPath != ScalerPath(modelPath) ==> r[modelPath] == ModelFile(model)
      ensures forall q :: q != modelPath && q != ScalerPath(modelPath) ==>
        (q in r <==> q in store) && (q in store ==> r[q] == store[q])
    {
      store[modelPath := ModelFile(model)][ScalerPath(modelPath) := ScalerFile(scaler)]
    }

    /**
     * Load the model, then the scaler beside it. When the scaler file is
     * missing the model has already been replaced.
     */
    method LoadModel(store: Store, modelPath: Path) returns (r: Result<(), Error>)
      modifies this
      ensures modelPath !in store ==> r == ArtifactPair(store, modelPath).PropagateFailure() && unchanged(this)
      ensures modelPath in store && ScalerPath(modelPath) !in store ==>
        && r == ArtifactPair(store, modelPath).PropagateFailure()
        && r == Err(FileNotFound(modelPath.dir, ScalerFileName))
        && model == AsModel(store[modelPath]) && scaler == old(scaler)
      ensures ArtifactPair(store, modelPath).Ok? ==>
        r == Ok(()) && (model, scaler) == ArtifactPair(store, modelPath).value
    {
      var sp := ScalerPath(modelPath);
      if modelPath !in store {
        return Err(FileNotFound(modelPath.dir, modelPath.name));
      }
      model := AsModel(store[modelPath]);
      if sp !in store {
        return Err(FileNotFound(sp.dir, sp.name));
      }
      scaler := AsScaler(store[sp]);
      r := Ok(());
    }
  }

  /** A saved pair is found again on load, unless the model itself is named like the scaler file. */
  lemma SaveThenLoad(h: HeartFailureModel, store: Store, modelPath: Path)
    requires modelPath.name != ScalerFileName
    ensures ArtifactPair(h.SaveModel(store, modelPath), modelPath) == Ok((h.model, h.scaler))
  {
  }

  /** A model saved under the scaler's own file name is overwritten by the scaler and lost. */
  lemma SaveUnderScalerName(h: HeartFailureModel, store: Store, modelPath: Path)
    requires modelPath.name == ScalerFileName
    ensures ArtifactPair(h.SaveModel(store, modelPath), modelPath) == Ok((None, h.scaler))
  {
  }
}
