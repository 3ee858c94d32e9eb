/**
 * The handful of data-frame and standard-scaler operations the core relies
 * on: column selection by name, column assignment, and a scaler that is an
 * abstract per-column affine map fitted once and then applied.
 */
module Frames {
  import opened Wrappers
  import opened Features

  /** The library failures the core can raise. */
  datatype Error =
    | KeyError(missing: seq<string>)     // selected columns that the frame lacks
    | NotFitted                          // scaler used before it was fitted
    | FeatureNamesMismatch               // scaler applied to other columns than it was fitted on
    | NoSamples                          // scaler fitted or applied on zero rows
    | NoFeatures                         // scaler fitted on zero columns
    | NoModel                            // classifier attribute used while the model is None
    | InconsistentLength                 // true and predicted labels of different lengths
    | SingleClass                        // ROC-AUC on test labels that are not exactly two classes
    | ConfusionShape                     // a confusion matrix that does not unpack into tn, fp, fn, tp
    | LengthMismatch                     // frame built from columns of different lengths
    | FileNotFound(dir: seq<string>, name: string)

  datatype Column = Column(name: string, values: seq<real>)

  /** A frame: a row index and named columns, in order. */
  datatype Frame = Frame(index: seq<int>, columns: seq<Column>)

  function Names(cols: seq<Column>): (r: seq<string>)
    ensures |r| == |cols| && forall j :: 0 <= j < |cols| ==> r[j] == cols[j].name
  {
    seq(|cols|, j requires 0 <= j < |cols| => cols[j].name)
  }

  /** Every column holds one value per row. */
  predicate Rectangular(f: Frame) {
    forall j :: 0 <= j < |f.columns| ==> |f.columns[j].values| == |f.index|
  }

  predicate WellFormed(f: Frame) {
    Rectangular(f) && Distinct(Names(f.columns))
  }

  /** Position of the first column with the given name. */
  function Position(cols: seq<Column>, name: string): (r: Option<nat>)
    ensures r.None? <==> name !in Names(cols)
    ensures r.Some? ==> r.value < |cols| && cols[r.value].name == name
    ensures r.Some? ==> forall j :: 0 <= j < r.value ==> cols[j].name != name
  {
    if |cols| == 0 then None
    else if cols[0].name == name then Some(0)
    else
      assert Names(cols) == [cols[0].name] + Names(cols[1..]);
      match Position(cols[1..], name)
      case None => None
      case Some(k) => Some(k + 1)
  }

  /** `f[name]`: the first column carrying that name. */
  function ColumnNamed(cols: seq<Column>, name: string): (c: Column)
    requires name in Names(cols)
    ensures c in cols && c.name == name
  {
    cols[Position(cols, name).value]
  }

  /** The requested names that the columns lack, in request order. */
  function MissingNames(cols: seq<Column>, names: seq<string>): (r: seq<string>)
    ensures forall n :: n in r <==> n in names && n !in Names(cols)
  {
    if |names| == 0 then []
    else (if names[0] in Names(cols) then [] else [names[0]]) + MissingNames(cols, names[1..])
  }

  /** `f[names]`: the named columns in request order, same index; KeyError if any is missing. */
  function Select(f: Frame, names: seq<string>): (r: Result<Frame, Error>)
    ensures r.Ok? <==> forall k :: 0 <= k < |names| ==> names[k] in Names(f.columns)
    ensures r.Err? ==> r.error == KeyError(MissingNames(f.columns, names)) && |r.error.missing| > 0
    ensures r.Ok? ==> r.value.index == f.index && Names(r.value.columns) == names
    ensures r.Ok? ==> forall k :: 0 <= k < |names| ==> r.value.columns[k] == ColumnNamed(f.columns, names[k])
    ensures r.Ok? && Rectangular(f) ==> Rectangular(r.value)
  {
    var missing := MissingNames(f.columns, names);
    if |missing| > 0 then
      assert missing[0] in missing;
      Err(KeyError(missing))
    else
      assert forall k :: 0 <= k < |names| ==> names[k] !in missing;
      var cols := seq(|names|, k requires 0 <= k < |names| => ColumnNamed(f.columns, names[k]));
      assert Names(cols) == names;
      Ok(Frame(f.index, cols))
  }

  /** A column standing before every other column of its name is the one a lookup finds. */
  lemma FirstOfName(cols: seq<Column>, n: string, p: nat)
    requires p < |cols| && cols[p].name == n
    requires forall j :: 0 <= j < p ==> cols[j].name != n
    ensures n in Names(cols) && Position(cols, n) == Some(p)
  {
    assert Names(cols)[p] == n;
  }

  /** `f[c.name] = c.values`: replace the column of that name, or append a new one. */
  function Put(cols: seq<Column>, c: Column): (r: seq<Column>)
    ensures forall n :: n in Names(r) <==> n in Names(cols) || n == c.name
    ensures c.name in Names(r) && ColumnNamed(r, c.name) == c
    ensures forall n :: n in Names(cols) && n != c.name ==> ColumnNamed(r, n) == ColumnNamed(cols, n)
    ensures forall j :: 0 <= j < |r| ==> r[j] == c || r[j] in cols
  {
    match Position(cols, c.name)
    case Some(k) =>
      var r := cols[k := c];
      assert Names(r) == Names(cols);
      forall n | n in Names(cols) && n != c.name
        ensures ColumnNamed(r, n) == ColumnNamed(cols, n)
      {
        FirstOfName(r, n, Position(cols, n).value);
      }
      FirstOfName(r, c.name, k);
      r
    case None =>
      var r := cols + [c];
      assert Names(r) == Names(cols) + [c.name];
      forall n | n in Names(cols)
        ensures ColumnNamed(r, n) == ColumnNamed(cols, n)
      {
        FirstOfName(r, n, Position(cols, n).value);
      }
      FirstOfName(r, c.name, |cols|);
      r
  }

  /** `dst[names] = cols`: put each column in turn. */
  function PutAll(cols: seq<Column>, add: seq<Column>): seq<Column>
    decreases |add|
  {
    if |add| == 0 then cols else PutAll(Put(cols, add[0]), add[1..])
  }

  lemma NamesTail(add: seq<Column>)
    requires |add| > 0
    ensures Names(add) == [add[0].name] + Names(add[1..])
    ensures Distinct(Names(add)) ==> Distinct(Names(add[1..])) && add[0].name !in Names(add[1..])
  {
    assert Names(add) == [add[0].name] + Names(add[1..]);
  }

  lemma {:induction false} PutAllNames(cols: seq<Column>, add: seq<Column>)
    ensures forall n :: n in Names(PutAll(cols, add)) <==> n in Names(cols) || n in Names(add)
    decreases |add|
  {
    if |add| > 0 {
      PutAllNames(Put(cols, add[0]), add[1..]);
      NamesTail(add);
    }
  }

  lemma {:induction false} PutAllKeeps(cols: seq<Column>, add: seq<Column>, n: string)
    requires n in Names(cols) && n !in Names(add)
    ensures n in Names(PutAll(cols, add)) && ColumnNamed(PutAll(cols, add), n) == ColumnNamed(cols, n)
    decreases |add|
  {
    if |add| > 0 {
      NamesTail(add);
      PutAllKeeps(Put(cols, add[0]), add[1..], n);
    }
  }

  lemma {:induction false} PutAllSets(cols: seq<Column>, add: seq<Column>, k: nat)
    requires Distinct(Names(add)) && k < |add|
    ensures add[k].name in Names(PutAll(cols, add)) && ColumnNamed(PutAll(cols, add), add[k].name) == add[k]
    decreases |add|
  {
    NamesTail(add);
    var put, rest := Put(cols, add[0]), add[1..];
    if k == 0 {
      PutAllKeeps(put, rest, add[0].name);
    } else {
      assert add[k] == rest[k - 1];
      PutAllSets(put, rest, k - 1);
    }
  }

  lemma {:induction false} PutAllFrom(cols: seq<Column>, add: seq<Column>)
    ensures forall j :: 0 <= j < |PutAll(cols, add)| ==> PutAll(cols, add)[j] in cols || PutAll(cols, add)[j] in add
    decreases |add|
  {
    if |add| > 0 {
      PutAllFrom(Put(cols, add[0]), add[1..]);
    }
  }

  /** Putting a batch keeps every other column and installs each column of a batch with distinct names. */
  lemma PutAllLookups(cols: seq<Column>, add: seq<Column>)
    ensures forall n :: n in Names(cols) && n !in Names(add) ==>
      n in Names(PutAll(cols, add)) && ColumnNamed(PutAll(cols, add), n) == ColumnNamed(cols, n)
    ensures Distinct(Names(add)) ==> forall k :: 0 <= k < |add| ==>
      add[k].name in Names(PutAll(cols, add)) && ColumnNamed(PutAll(cols, add), add[k].name) == add[k]
  {
    forall n | n in Names(cols) && n !in Names(add)
      ensures n in Names(PutAll(cols, add)) && ColumnNamed(PutAll(cols, add), n) == ColumnNamed(cols, n)
    {
      PutAllKeeps(cols, add, n);
    }
    if Distinct(Names(add)) {
      forall k | 0 <= k < |add|
        ensures add[k].name in Names(PutAll(cols, add)) && ColumnNamed(PutAll(cols, add), add[k].name) == add[k]
      {
        PutAllSets(cols, add, k);
      }
    }
  }

  /** `dst[names] = src[names]`, both frames sharing one index. */
  function AssignColumns(dst: Frame, names: seq<string>, src: Frame): (r: Result<Frame, Error>)
    ensures r.Ok? <==> forall k :: 0 <= k < |names| ==> names[k] in Names(src.columns)
    ensures r.Err? ==> r == Err(KeyError(MissingNames(src.columns, names)))
    ensures r.Ok? ==> r.value.index == dst.index
    ensures r.Ok? ==> forall n :: n in Names(r.value.columns) <==> n in Names(dst.columns) || n in names
    ensures r.Ok? && Distinct(names) ==>
      forall n :: n in names ==> ColumnNamed(r.value.columns, n) == ColumnNamed(src.columns, n)
    ensures r.Ok? ==>
      forall n :: n in Names(dst.columns) && n !in names ==> ColumnNamed(r.value.columns, n) == ColumnNamed(dst.columns, n)
    ensures r.Ok? && Rectangular(dst) && Rectangular(src) && |src.index| == |dst.index| ==> Rectangular(r.value)
  {
    var selected :- Select(src, names);
    var cols := PutAll(dst.columns, selected.columns);
    PutAllNames(dst.columns, selected.columns);
    PutAllFrom(dst.columns, selected.columns);
    PutAllLookups(dst.columns, selected.columns);
    assert Names(selected.columns) == names;
    Ok(Frame(dst.index, cols))
  }

  // ---------------------------------------------------------------------------
  // Standard scaler, as an abstract per-column affine map
  // ---------------------------------------------------------------------------

  type NonZero = x: real | x != 0.0 witness 1.0

  /** One column's fitted parameters: subtract the mean, divide by the scale. */
  datatype Affine = Affine(mean: real, scale: NonZero)

  datatype FittedColumn = FittedColumn(name: string, affine: Affine)

  datatype Scaler = Unfitted | Fitted(params: seq<FittedColumn>)

  /** The fitted parameters from a column's (mean, standard deviation); a zero deviation is replaced by 1. */
  function AffineFrom(stats: (real, real)): (a: Affine)
    ensures a.mean == stats.0
    ensures stats.1 != 0.0 ==> a.scale == stats.1
    ensures stats.1 == 0.0 ==> a.scale == 1.0
  {
    Affine(stats.0, if stats.1 == 0.0 then 1.0 else stats.1)
  }

  function Standardize(a: Affine, x: real): (z: real)
    ensures z * a.scale + a.mean == x
  {
    (x - a.mean) / a.scale
  }

  function StandardizeAll(a: Affine, xs: seq<real>): (zs: seq<real>)
    ensures |zs| == |xs| && forall i :: 0 <= i < |xs| ==> zs[i] == Standardize(a, xs[i])
  {
    seq(|xs|, i requires 0 <= i < |xs| => Standardize(a, xs[i]))
  }

  function ParamNames(ps: seq<FittedColumn>): (r: seq<string>)
    ensures |r| == |ps| && forall j :: 0 <= j < |ps| ==> r[j] == ps[j].name
  {
    seq(|ps|, j requires 0 <= j < |ps| => ps[j].name)
  }

  /** Parameters fitted column by column, from that column's values alone. */
  function FitParams(fitColumn: seq<real> -> (real, real), f: Frame): (ps: seq<FittedColumn>)
    ensures |ps| == |f.columns| && ParamNames(ps) == Names(f.columns)
    ensures forall j :: 0 <= j < |ps| ==> ps[j].affine == AffineFrom(fitColumn(f.columns[j].values))
  {
    var ps := seq(|f.columns|, j requires 0 <= j < |f.columns| =>
      FittedColumn(f.columns[j].name, AffineFrom(fitColumn(f.columns[j].values))));
    assert ParamNames(ps) == Names(f.columns);
    ps
  }

  /** Each column standardized with its own parameters; names and index kept. */
  function Standardized(ps: seq<FittedColumn>, f: Frame): (g: Frame)
    requires |ps| == |f.columns|
    ensures g.index == f.index && |g.columns| == |f.columns| && Names(g.columns) == Names(f.columns)
    ensures forall j :: 0 <= j < |f.columns| ==>
      g.columns[j].values == StandardizeAll(ps[j].affine, f.columns[j].values)
    ensures Rectangular(f) ==> Rectangular(g)
  {
    var g := Frame(f.index, seq(|f.columns|, j requires 0 <= j < |f.columns| =>
      Column(f.columns[j].name, StandardizeAll(ps[j].affine, f.columns[j].values))));
    assert Names(g.columns) == Names(f.columns);
    g
  }

  /** `fit`: needs at least one row and one column. */
  function Fit(fitColumn: seq<real> -> (real, real), f: Frame): (r: Result<Scaler, Error>)
    ensures |f.index| == 0 ==> r == Err(NoSamples)
    ensures |f.index| > 0 && |f.columns| == 0 ==> r == Err(NoFeatures)
    ensures r.Ok? <==> |f.index| > 0 && |f.columns| > 0
    ensures r.Ok? ==> r.value == Fitted(FitParams(fitColumn, f))
  {
    if |f.index| == 0 then Err(NoSamples)
    else if |f.columns| == 0 then Err(NoFeatures)
    else Ok(Fitted(FitParams(fitColumn, f)))
  }

  /** `transform`: only a fitted scaler, only on the columns it was fitted on, in that order, and on at least one row. */
  function Transform(s: Scaler, f: Frame): (r: Result<Frame, Error>)
    ensures s.Unfitted? ==> r == Err(NotFitted)
    ensures r.Ok? <==> s.Fitted? && ParamNames(s.params) == Names(f.columns) && |f.index| > 0
    ensures r.Ok? ==> r.value == Standardized(s.params, f)
  {
    match s
    case Unfitted => Err(NotFitted)
    case Fitted(ps) =>
      if ParamNames(ps) != Names(f.columns) then Err(FeatureNamesMismatch)
      else if |f.index| == 0 then Err(NoSamples)
      else Ok(Standardized(ps, f))
  }
}
