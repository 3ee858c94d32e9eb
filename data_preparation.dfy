/**
 * Cleaning of the raw tabular dataset: the thirteen feature columns are
 * coerced to numbers (unparseable text becomes missing), the target is
 * binarised, and every row with a missing value is dropped.
 */
module DataPreparation {
  import opened Wrappers
  import opened Features

  /** A cell as read from the file: a number, unparsed text, or missing. */
  datatype Cell = Number(x: real) | Text(s: string) | Missing

  /** A table of named columns, stored row by row. */
  datatype Table = Table(names: seq<string>, rows: seq<seq<Cell>>)

  datatype CleanError = KeyError(column: string) | TypeError

  const TargetColumn: string := "target"

  /** The columns coerced, in the order they are coerced. */
  const CoercedColumns: seq<string> := NumericalFeatures + CategoricalFeatures

  /** Names are unique (the file reader renames repeats) and every row has one cell per name. */
  predicate WellShaped(t: Table) {
    Distinct(t.names) && forall r :: 0 <= r < |t.rows| ==> |t.rows[r]| == |t.names|
  }

  function IndexOf(names: seq<string>, n: string): (r: Option<nat>)
    ensures r.None? <==> n !in names
    ensures r.Some? ==> r.value < |names| && names[r.value] == n
  {
    if |names| == 0 then None
    else if names[0] == n then Some(0)
    else match IndexOf(names[1..], n)
      case None => None
      case Some(k) => Some(k + 1)
  }

  /** With unique names, the position of a name is the only one carrying it. */
  lemma IndexOfUnique(names: seq<string>, j: nat)
    requires Distinct(names) && j < |names|
    ensures IndexOf(names, names[j]) == Some(j)
  {
    var r := IndexOf(names, names[j]);
    assert r.Some?;
    assert names[r.value] == names[j];
  }

  // ---------------------------------------------------------------------------
  // Cell operations
  // ---------------------------------------------------------------------------

  /** `to_numeric(errors='coerce')` on one cell: numbers and missing stay, text is parsed or becomes missing. */
  function ToNumeric(c: Cell, parse: string -> Option<real>): (d: Cell)
    ensures d.Number? || d.Missing?
    ensures c.Number? ==> d == c
    ensures c.Missing? ==> d == Missing
    ensures c.Text? ==> (d.Number? <==> parse(c.s).Some?)
  {
    match c
    case Number(_) => c
    case Missing => Missing
    case Text(s) => if parse(s).Some? then Number(parse(s).value) else Missing
  }

  /** Coercing twice is coercing once. */
  lemma ToNumericIdempotent(c: Cell, parse: string -> Option<real>)
    ensures ToNumeric(ToNumeric(c, parse), parse) == ToNumeric(c, parse)
  {
  }

  /**
   * `(target > 0).astype(int)` on one cell: 1 for a positive number, 0 for any
   * other number and for missing (which compares false).
   */
  function Binarise(c: Cell): (d: Cell)
    requires !c.Text?
    ensures d == Number(0.0) || d == Number(1.0)
    ensures d == Number(1.0) <==> c.Number? && c.x > 0.0
  {
    if c.Number? && c.x > 0.0 then Number(1.0) else Number(0.0)
  }

  predicate Complete(row: seq<Cell>) {
    forall j :: 0 <= j < |row| ==> !row[j].Missing?
  }

  /** `dropna()`: the rows with no missing cell, in their original order. */
  function KeepComplete(rows: seq<seq<Cell>>): (r: seq<seq<Cell>>)
    ensures |r| <= |rows|
    ensures forall k :: 0 <= k < |r| ==> Complete(r[k]) && r[k] in rows
  {
    if |rows| == 0 then []
    else if Complete(rows[0]) then [rows[0]] + KeepComplete(rows[1..])
    else KeepComplete(rows[1..])
  }

  /** A row survives exactly when it is one of the input rows and is complete. */
  lemma {:induction false} KeepCompleteMembers(rows: seq<seq<Cell>>, row: seq<Cell>)
    ensures row in KeepComplete(rows) <==> row in rows && Complete(row)
  {
    if |rows| > 0 {
      KeepCompleteMembers(rows[1..], row);
      assert rows == [rows[0]] + rows[1..];
    }
  }

  /** Filtering commutes with concatenation, so relative order is kept. */
  lemma {:induction false} KeepCompleteAppend(a: seq<seq<Cell>>, b: seq<seq<Cell>>)
    ensures KeepComplete(a + b) == KeepComplete(a) + KeepComplete(b)
  {
    if |a| == 0 {
      assert a + b == b;
    } else {
      assert (a + b)[1..] == a[1..] + b;
      KeepCompleteAppend(a[1..], b);
    }
  }

  // ---------------------------------------------------------------------------
  // Column operations, as the cleaning performs them
  // ---------------------------------------------------------------------------

  /** Every row with column j replaced by its coercion. */
  function CoerceColumn(t: Table, j: nat, parse: string -> Option<real>): (r: Table)
    requires WellShaped(t) && j < |t.names|
    ensures WellShaped(r) && r.names == t.names && |r.rows| == |t.rows|
    ensures forall k, i :: 0 <= k < |t.rows| && 0 <= i < |t.names| ==>
      r.rows[k][i] == (if i == j then ToNumeric(t.rows[k][j], parse) else t.rows[k][i])
  {
    Table(t.names, seq(|t.rows|, k requires 0 <= k < |t.rows| => t.rows[k][j := ToNumeric(t.rows[k][j], parse)]))
  }

  /** The first requested column the table lacks, if any. */
  function FirstAbsent(names: seq<string>, wanted: seq<string>): (r: Option<string>)
    ensures r.None? <==> forall n :: n in wanted ==> n in names
    ensures r.Some? ==> r.value in wanted && r.value !in names
    ensures r.Some? ==> exists k :: 0 <= k < |wanted| && wanted[k] == r.value && forall j :: 0 <= j < k ==> wanted[j] in names
  {
    if |wanted| == 0 then None
    else if wanted[0] !in names then Some(wanted[0])
    else FirstAbsent(names, wanted[1..])
  }

  /**
   * Coerce the named columns one after another; the first name the table
   * lacks stops the loop with a key error.
   */
  method CoerceColumns(t: Table, cols: seq<string>, parse: string -> Option<real>) returns (r: Result<Table, CleanError>)
    requires WellShaped(t)
    ensures r.Err? <==> FirstAbsent(t.names, cols).Some?
    ensures r.Err? ==> r.error == KeyError(FirstAbsent(t.names, cols).value)
    ensures r.Ok? ==> WellShaped(r.value) && r.value.names == t.names && |r.value.rows| == |t.rows|
    ensures r.Ok? ==> forall k, i :: 0 <= k < |t.rows| && 0 <= i < |t.names| ==>
      r.value.rows[k][i] == (if t.names[i] in cols then ToNumeric(t.rows[k][i], parse) else t.rows[k][i])
  {
    var df := t;
    var n := 0;
    while n < |cols|
      invariant 0 <= n <= |cols|
      invariant WellShaped(df) && df.names == t.names && |df.rows| == |t.rows|
      invariant FirstAbsent(t.names, cols) == FirstAbsent(t.names, cols[n..])
      invariant forall k, i :: 0 <= k < |t.rows| && 0 <= i < |t.names| ==>
        df.rows[k][i] == (if t.names[i] in cols[..n] then ToNumeric(t.rows[k][i], parse) else t.rows[k][i])
    {
      var col := cols[n];
      assert cols[n..][0] == col && cols[n..][1..] == cols[n + 1..];
      var j := IndexOf(df.names, col);
      if j.None? {
        return Err(KeyError(col));
      }
      CoerceColumnStep(t, df, cols, n, j.value, parse);
      df := CoerceColumn(df, j.value, parse);
      n := n + 1;
    }
    assert cols[..n] == cols;
    r := Ok(df);
  }

  /** One pass of the coercion loop: coercing the next name's column extends the coerced prefix by that name. */
  lemma CoerceColumnStep(t: Table, df: Table, cols: seq<string>, n: nat, j: nat, parse: string -> Option<real>)
    requires WellShaped(t) && WellShaped(df) && df.names == t.names && |df.rows| == |t.rows|
    requires n < |cols| && j < |t.names| && t.names[j] == cols[n]
    requires forall k, i :: 0 <= k < |t.rows| && 0 <= i < |t.names| ==>
      df.rows[k][i] == (if t.names[i] in cols[..n] then ToNumeric(t.rows[k][i], parse) else t.rows[k][i])
    ensures var e := CoerceColumn(df, j, parse);
      forall k, i :: 0 <= k < |t.rows| && 0 <= i < |t.names| ==>
        e.rows[k][i] == (if t.names[i] in cols[..n + 1] then ToNumeric(t.rows[k][i], parse) else t.rows[k][i])
  {
    var e := CoerceColumn(df, j, parse);
    assert cols[..n + 1] == cols[..n] + [cols[n]];
    forall k, i | 0 <= k < |t.rows| && 0 <= i < |t.names|
      ensures e.rows[k][i] == (if t.names[i] in cols[..n + 1] then ToNumeric(t.rows[k][i], parse) else t.rows[k][i])
    {
      if i != j {
        assert t.names[i] != t.names[j];
      } else {
        ToNumericIdempotent(t.rows[k][i], parse);
      }
    }
  }

  /** Some row holds text in column j. */
  predicate AnyText(rows: seq<seq<Cell>>, j: nat) {
    exists k :: 0 <= k < |rows| && j < |rows[k]| && rows[k][j].Text?
  }

  /** Every row with column j binarised. */
  function BinariseColumn(t: Table, j: nat): (r: Table)
    requires WellShaped(t) && j < |t.names| && !AnyText(t.rows, j)
    ensures WellShaped(r) && r.names == t.names && |r.rows| == |t.rows|
    ensures forall k, i :: 0 <= k < |t.rows| && 0 <= i < |t.names| ==>
      r.rows[k][i] == (if i == j then Binarise(t.rows[k][j]) else t.rows[k][i])
  {
    Table(t.names, seq(|t.rows|, k requires 0 <= k < |t.rows| => t.rows[k][j := Binarise(t.rows[k][j])]))
  }

  // ---------------------------------------------------------------------------
  // The row-wise reference
  // ---------------------------------------------------------------------------

  /** One raw row as cleaning leaves it before rows are dropped. */
  function CleanRow(names: seq<string>, row: seq<Cell>, parse: string -> Option<real>): (r: seq<Cell>)
    requires |row| == |names|
    requires TargetColumn in names ==> !row[IndexOf(names, TargetColumn).value].Text?
    ensures |r| == |row|
  {
    seq(|row|, i requires 0 <= i < |row| =>
      if names[i] == TargetColumn && IndexOf(names, TargetColumn) == Some(i) then Binarise(row[i])
      else if names[i] in CoercedColumns then ToNumeric(row[i], parse)
      else row[i])
  }

  /** The cleaned table, defined row by row. */
  function Cleaned(raw: Table, parse: string -> Option<real>): (r: Result<Table, CleanError>)
    requires WellShaped(raw)
  {
    match FirstAbsent(raw.names, CoercedColumns + [TargetColumn])
    case Some(n) => Err(KeyError(n))
    case None =>
      var t := IndexOf(raw.names, TargetColumn).value;
      if AnyText(raw.rows, t) then Err(TypeError)
      else Ok(Table(raw.names, KeepComplete(seq(|raw.rows|, k requires 0 <= k < |raw.rows| =>
        CleanRow(raw.names, raw.rows[k], parse)))))
  }

  /** The coerced columns are the thirteen features; the target is not among them. */
  lemma CoercedMembership()
    ensures forall n :: n in CoercedColumns <==> n in NumericalFeatures || n in CategoricalFeatures
    ensures TargetColumn !in CoercedColumns
  {
  }

  /** Every cell of a row, coerced where its column is one of the thirteen features. */
  predicate CoercedFrom(raw: Table, df: Table, parse: string -> Option<real>)
    requires WellShaped(raw) && WellShaped(df) && df.names == raw.names && |df.rows| == |raw.rows|
  {
    forall k, i :: 0 <= k < |raw.rows| && 0 <= i < |raw.names| ==>
      df.rows[k][i] == (if raw.names[i] in CoercedColumns then ToNumeric(raw.rows[k][i], parse) else raw.rows[k][i])
  }

  /** Binarising the target of the coerced table gives the row-wise reference. */
  lemma BinarisedIsClean(raw: Table, df: Table, parse: string -> Option<real>, t: nat)
    requires WellShaped(raw) && WellShaped(df) && df.names == raw.names && |df.rows| == |raw.rows|
    requires CoercedFrom(raw, df, parse)
    requires IndexOf(raw.names, TargetColumn) == Some(t) && !AnyText(df.rows, t)
    ensures !AnyText(raw.rows, t)
    ensures BinariseColumn(df, t).rows ==
      seq(|raw.rows|, k requires 0 <= k < |raw.rows| => CleanRow(raw.names, raw.rows[k], parse))
  {
    CoercedMembership();
    forall k | 0 <= k < |raw.rows| ensures !raw.rows[k][t].Text? {
      assert df.rows[k][t] == raw.rows[k][t];
    }
    var binary := BinariseColumn(df, t);
    var cleanRows := seq(|raw.rows|, k requires 0 <= k < |raw.rows| => CleanRow(raw.names, raw.rows[k], parse));
    forall k | 0 <= k < |raw.rows| ensures binary.rows[k] == cleanRows[k] {
      forall i | 0 <= i < |raw.names| ensures binary.rows[k][i] == cleanRows[k][i] {
        if i != t {
          IndexOfUnique(raw.names, i);
        }
      }
    }
  }

  /**
   * Coerce the thirteen feature columns (numeric ones first), binarise the
   * target, then drop incomplete rows.
   */
  method PrepareData(raw: Table, parse: string -> Option<real>) returns (r: Result<Table, CleanError>)
    requires WellShaped(raw)
    ensures r == Cleaned(raw, parse)
  {
    AbsentInOrder(raw.names);
    var numericDone :- CoerceColumns(raw, NumericalFeatures, parse);
    var df :- CoerceColumns(numericDone, CategoricalFeatures, parse);
    TwoPasses(raw, numericDone, df, parse);
    var t := IndexOf(df.names, TargetColumn);
    if t.None? {
      return Err(KeyError(TargetColumn));
    }
    if AnyText(df.rows, t.value) {
      TextSurvivesCoercion(raw, df, parse, t.value);
      return Err(TypeError);
    }
    BinarisedIsClean(raw, df, parse, t.value);
    var binary := BinariseColumn(df, t.value);
    r := Ok(Table(binary.names, KeepComplete(binary.rows)));
  }

  /** The key error names the first absent column in the order the columns are used. */
  lemma AbsentInOrder(names: seq<string>)
    ensures FirstAbsent(names, CoercedColumns + [TargetColumn]) ==
      if FirstAbsent(names, NumericalFeatures).Some? then FirstAbsent(names, NumericalFeatures)
      else if FirstAbsent(names, CategoricalFeatures).Some? then FirstAbsent(names, CategoricalFeatures)
      else FirstAbsent(names, [TargetColumn])
  {
    FirstAbsentAppend(names, NumericalFeatures, CategoricalFeatures + [TargetColumn]);
    FirstAbsentAppend(names, CategoricalFeatures, [TargetColumn]);
    assert CoercedColumns + [TargetColumn] == NumericalFeatures + (CategoricalFeatures + [TargetColumn]);
  }

  /** Coercing the numeric columns and then the categorical ones coerces the thirteen features. */
  lemma TwoPasses(raw: Table, mid: Table, df: Table, parse: string -> Option<real>)
    requires WellShaped(raw) && WellShaped(mid) && WellShaped(df)
    requires mid.names == raw.names && |mid.rows| == |raw.rows|
    requires df.names == raw.names && |df.rows| == |raw.rows|
    requires forall k, i :: 0 <= k < |raw.rows| && 0 <= i < |raw.names| ==>
      mid.rows[k][i] == (if raw.names[i] in NumericalFeatures then ToNumeric(raw.rows[k][i], parse) else raw.rows[k][i])
    requires forall k, i :: 0 <= k < |mid.rows| && 0 <= i < |mid.names| ==>
      df.rows[k][i] == (if mid.names[i] in CategoricalFeatures then ToNumeric(mid.rows[k][i], parse) else mid.rows[k][i])
    ensures CoercedFrom(raw, df, parse)
  {
    CoercedMembership();
    forall k, i | 0 <= k < |raw.rows| && 0 <= i < |raw.names|
      ensures df.rows[k][i] == (if raw.names[i] in CoercedColumns then ToNumeric(raw.rows[k][i], parse) else raw.rows[k][i])
    {
      ToNumericIdempotent(raw.rows[k][i], parse);
    }
  }

  /** Coercion leaves the target column as it was, so text there is raw text. */
  lemma TextSurvivesCoercion(raw: Table, df: Table, parse: string -> Option<real>, t: nat)
    requires WellShaped(raw) && WellShaped(df) && df.names == raw.names && |df.rows| == |raw.rows|
    requires CoercedFrom(raw, df, parse)
    requires IndexOf(raw.names, TargetColumn) == Some(t) && AnyText(df.rows, t)
    ensures AnyText(raw.rows, t)
  {
    CoercedMembership();
    var k :| 0 <= k < |df.rows| && t < |df.rows[k]| && df.rows[k][t].Text?;
    assert df.rows[k][t] == raw.rows[k][t];
  }

  /** The first absent name of a concatenation is sought in the first part first. */
  lemma {:induction false} FirstAbsentAppend(names: seq<string>, a: seq<string>, b: seq<string>)
    ensures FirstAbsent(names, a + b) == if FirstAbsent(names, a).Some? then FirstAbsent(names, a) else FirstAbsent(names, b)
  {
    if |a| == 0 {
      assert a + b == b;
    } else {
      assert (a + b)[0] == a[0] && (a + b)[1..] == a[1..] + b;
      FirstAbsentAppend(names, a[1..], b);
    }
  }

  // ---------------------------------------------------------------------------
  // What cleaning guarantees
  // ---------------------------------------------------------------------------

  /**
   * Before rows are dropped, the target of each row is 0 or 1, and 1 exactly
   * when the raw target is a positive number; a missing target becomes 0.
   */
  lemma CleanRowTarget(names: seq<string>, row: seq<Cell>, parse: string -> Option<real>, t: nat)
    requires |row| == |names| && IndexOf(names, TargetColumn) == Some(t)
    requires !row[t].Text?
    ensures var c := CleanRow(names, row, parse)[t]; c == Number(0.0) || c == Number(1.0)
    ensures CleanRow(names, row, parse)[t] == Number(1.0) <==> row[t].Number? && row[t].x > 0.0
    ensures row[t].Missing? ==> CleanRow(names, row, parse)[t] == Number(0.0)
  {
  }

  /** Before rows are dropped, each coerced column holds a number or missing. */
  lemma CleanRowCoerced(names: seq<string>, row: seq<Cell>, parse: string -> Option<real>, i: nat)
    requires |row| == |names| && i < |names| && names[i] in CoercedColumns
    requires TargetColumn in names ==> !row[IndexOf(names, TargetColumn).value].Text?
    ensures CleanRow(names, row, parse)[i] == ToNumeric(row[i], parse)
    ensures CleanRow(names, row, parse)[i].Number? || CleanRow(names, row, parse)[i].Missing?
  {
    CoercedMembership();
  }

  /**
   * The cleaned table keeps the raw header; each of its rows is complete,
   * with a number in every coerced column and a 0/1 target.
   */
  lemma CleanedRows(raw: Table, parse: string -> Option<real>)
    requires WellShaped(raw) && Cleaned(raw, parse).Ok?
    ensures var out := Cleaned(raw, parse).value;
      && out.names == raw.names
      && forall k :: 0 <= k < |out.rows| ==>
        && Complete(out.rows[k]) && |out.rows[k]| == |raw.names|
        && (forall i :: 0 <= i < |raw.names| && raw.names[i] in CoercedColumns ==> out.rows[k][i].Number?)
        && var t := IndexOf(raw.names, TargetColumn).value;
           out.rows[k][t] == Number(0.0) || out.rows[k][t] == Number(1.0)
  {
    var t := IndexOf(raw.names, TargetColumn).value;
    var cleanRows := seq(|raw.rows|, k requires 0 <= k < |raw.rows| => CleanRow(raw.names, raw.rows[k], parse));
    var out := Cleaned(raw, parse).value;
    assert out.rows == KeepComplete(cleanRows);
    forall k | 0 <= k < |out.rows|
      ensures Complete(out.rows[k]) && |out.rows[k]| == |raw.names|
      ensures forall i :: 0 <= i < |raw.names| && raw.names[i] in CoercedColumns ==> out.rows[k][i].Number?
      ensures out.rows[k][t] == Number(0.0) || out.rows[k][t] == Number(1.0)
    {
      var m :| 0 <= m < |cleanRows| && cleanRows[m] == out.rows[k];
      assert !raw.rows[m][t].Text?;
      forall i | 0 <= i < |raw.names| && raw.names[i] in CoercedColumns ensures out.rows[k][i].Number? {
        CleanRowCoerced(raw.names, raw.rows[m], parse, i);
      }
      CleanRowTarget(raw.names, raw.rows[m], parse, t);
    }
  }

  /**
   * A raw row is kept, in cleaned form, exactly when its cleaned form has no
   * missing cell; in particular a missing target alone never drops a row.
   */
  lemma CleanedKeeps(raw: Table, parse: string -> Option<real>, k: nat)
    requires WellShaped(raw) && Cleaned(raw, parse).Ok? && k < |raw.rows|
    ensures var row := CleanRow(raw.names, raw.rows[k], parse);
      Complete(row) ==> row in Cleaned(raw, parse).value.rows
    ensures var t := IndexOf(raw.names, TargetColumn).value;
      raw.rows[k][t].Missing? ==> !CleanRow(raw.names, raw.rows[k], parse)[t].Missing?
  {
    var cleanRows := seq(|raw.rows|, m requires 0 <= m < |raw.rows| => CleanRow(raw.names, raw.rows[m], parse));
    KeepCompleteMembers(cleanRows, cleanRows[k]);
    var t := IndexOf(raw.names, TargetColumn).value;
    assert !raw.rows[k][t].Text?;
    CleanRowTarget(raw.names, raw.rows[k], parse, t);
  }
}
