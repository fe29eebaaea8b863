/** Row decoding and the row loop of one (server, query) unit of the SQL
    Server input plugin. The database driver is replaced by a Response value
    that says how far the unit gets: opening the connection, running the
    query, reading the column names, then one outcome per row. */
module SqlRows {
  import opened Telegraf

  /** The reserved column whose value names the measurement. */
  const MeasurementHeader: string := "measurement"

  /** What rows.Next/rows.Scan yield for one row: the scanned values, one per
      column, or the error Scan reports. */
  datatype RowOutcome = Row(values: seq<Value>) | ScanFailed(err: Error)

  /** How one unit's conversation with the database goes. */
  datatype Response =
    | OpenFailed(err: Error)
    | QueryFailed(err: Error)
    | ColumnsFailed(err: Error)
    | Rows(columns: seq<string>, rows: seq<RowOutcome>, rowsErr: Option<Error>)

  /** What accRow does with one row: hand one record to the accumulator,
      return an error, or panic on a failed type assertion. */
  datatype RowStep = Emitted(metric: Metric) | Failed(err: Error) | Panicked

  /** What one unit produces: the records emitted, in order, the error
      gatherServer returns, and whether it panicked instead of returning. */
  datatype UnitResult = UnitResult(records: seq<Metric>, err: Option<Error>, panicked: bool)

  datatype ColumnKind = MeasurementKind | TagKind | FieldKind

  /** The classification of a column by its name alone: the measurement
      column first, then the configured tag keys, everything else a field. */
  function Classify(header: string, tagKeys: set<string>): ColumnKind
  {
    if header == MeasurementHeader then MeasurementKind
    else if header in tagKeys then TagKind
    else FieldKind
  }

  /** The columnMap of accRow after Scan: every column name bound to the
      value scanned for it; when a name repeats, its last occurrence wins. */
  function ColumnMap(columns: seq<string>, values: seq<Value>): map<string, Value>
    requires |columns| == |values|
    decreases |columns|
  {
    if columns == [] then map[]
    else
      var n := |columns| - 1;
      ColumnMap(columns[..n], values[..n])[columns[n] := values[n]]
  }

  /** The column map holds exactly the column names. */
  lemma {:induction false} ColumnMapKeys(columns: seq<string>, values: seq<Value>)
    requires |columns| == |values|
    ensures ColumnMap(columns, values).Keys == set c | c in columns
    decreases |columns|
  {
    if columns != [] {
      var n := |columns| - 1;
      ColumnMapKeys(columns[..n], values[..n]);
      assert columns == columns[..n] + [columns[n]];
    }
  }

  /** A column whose name does not occur again later holds its own scanned
      value in the column map. */
  lemma {:induction false} ColumnMapAt(columns: seq<string>, values: seq<Value>, i: nat)
    requires |columns| == |values|
    requires i < |columns|
    requires forall j | i < j < |columns| :: columns[j] != columns[i]
    ensures columns[i] in ColumnMap(columns, values)
    ensures ColumnMap(columns, values)[columns[i]] == values[i]
    decreases |columns|
  {
    var n := |columns| - 1;
    if i < n {
      var c, v := columns[..n], values[..n];
      assert c[i] == columns[i];
      assert forall j | i < j < n :: c[j] == columns[j];
      ColumnMapAt(c, v, i);
      assert v[i] == values[i];
    }
  }

  function TextOf(v: Value): string
  {
    if v.VString? then v.s else ""
  }

  /** No measurement or tag column holds a non-string: every type assertion
      of accRow succeeds. */
  predicate Assertable(columnMap: map<string, Value>, tagKeys: set<string>)
  {
    forall h | h in columnMap && Classify(h, tagKeys) != FieldKind :: columnMap[h].VString?
  }

  /** The tags built from the columns named in `done`. */
  function TagsOf(columnMap: map<string, Value>, tagKeys: set<string>, done: set<string>): map<string, string>
  {
    map h | h in done && h in columnMap && Classify(h, tagKeys) == TagKind :: TextOf(columnMap[h])
  }

  /** The fields built from the columns named in `done`. */
  function FieldsOf(columnMap: map<string, Value>, tagKeys: set<string>, done: set<string>): map<string, Value>
  {
    map h | h in done && h in columnMap && Classify(h, tagKeys) == FieldKind :: columnMap[h]
  }

  /** The measurement after visiting the columns named in `done`: "" until
      the measurement column has been seen. */
  function MeasurementOf(columnMap: map<string, Value>, done: set<string>): string
  {
    if MeasurementHeader in done && MeasurementHeader in columnMap then TextOf(columnMap[MeasurementHeader]) else ""
  }

  /** The record accRow builds from a scanned row, or the panic. */
  function Decode(columnMap: map<string, Value>, tagKeys: set<string>): (r: RowStep)
    ensures !r.Failed?
  {
    if Assertable(columnMap, tagKeys) then
      Emitted(Metric(MeasurementOf(columnMap, columnMap.Keys),
                     FieldsOf(columnMap, tagKeys, columnMap.Keys),
                     TagsOf(columnMap, tagKeys, columnMap.Keys)))
    else
      Panicked
  }

  /** What a decoded row means: it panics exactly when the measurement
      column or a tag column holds a non-string; otherwise the measurement is
      that column's text ("" without one), every tag-key column other than
      the measurement becomes a tag with its text, and every other column
      becomes a field with its value unchanged. */
  lemma DecodeMeaning(columnMap: map<string, Value>, tagKeys: set<string>)
    ensures var r := Decode(columnMap, tagKeys);
            && (r.Panicked? <==> exists h | h in columnMap :: (h == MeasurementHeader || h in tagKeys) && !columnMap[h].VString?)
            && (r.Emitted? ==>
                  && r.metric.measurement == (if MeasurementHeader in columnMap then columnMap[MeasurementHeader].s else "")
                  && r.metric.tags.Keys == (columnMap.Keys * tagKeys) - {MeasurementHeader}
                  && r.metric.fields.Keys == columnMap.Keys - tagKeys - {MeasurementHeader}
                  && (forall h | h in r.metric.tags :: columnMap[h] == VString(r.metric.tags[h]))
                  && (forall h | h in r.metric.fields :: r.metric.fields[h] == columnMap[h]))
  {
  }

  function DigitChar(d: nat): char
    requires d < 10
  {
    ['0', '1', '2', '3', '4', '5', '6', '7', '8', '9'][d]
  }

  /** Decimal rendering of a natural number, as %d prints it. */
  function NatToString(n: nat): string
    decreases n
  {
    if n < 10 then [DigitChar(n)] else NatToString(n / 10) + [DigitChar(n % 10)]
  }

  /** The error database/sql's Scan returns when the number of destinations
      differs from the number of values in the row. */
  function ScanArityError(rowValues: nat, destinations: nat): Error
  {
    Error("sql: expected " + NatToString(rowValues) + " destination arguments in Scan, not "
          + NatToString(destinations))
  }

  /** accRow on one row: Scan into one destination per column, then decode. */
  function RowSpec(columns: seq<string>, row: RowOutcome, tagKeys: set<string>): RowStep
  {
    match row
    case ScanFailed(e) => Failed(e)
    case Row(values) =>
      if |values| != |columns| then Failed(ScanArityError(|values|, |columns|))
      else Decode(ColumnMap(columns, values), tagKeys)
  }

  /** The row loop of gatherServer: rows in order until the first one that
      does not yield a record; after the last row, the error rows.Err reports. */
  function RunRows(columns: seq<string>, rows: seq<RowOutcome>, rowsErr: Option<Error>, tagKeys: set<string>): UnitResult
    decreases |rows|
  {
    if rows == [] then UnitResult([], rowsErr, false)
    else
      match RowSpec(columns, rows[0], tagKeys)
      case Failed(e) => UnitResult([], Some(e), false)
      case Panicked => UnitResult([], None, true)
      case Emitted(m) =>
        var rest := RunRows(columns, rows[1..], rowsErr, tagKeys);
        rest.(records := [m] + rest.records)
  }

  /** A row that yields a record puts it in front of the records of the rows
      after it; the error and the panic flag are those of the rows after it. */
  lemma RunRowsEmitted(columns: seq<string>, rows: seq<RowOutcome>, rowsErr: Option<Error>, tagKeys: set<string>, i: nat)
    requires i < |rows| && RowSpec(columns, rows[i], tagKeys).Emitted?
    ensures var here, next := RunRows(columns, rows[i..], rowsErr, tagKeys), RunRows(columns, rows[i + 1..], rowsErr, tagKeys);
            && here.records == [RowSpec(columns, rows[i], tagKeys).metric] + next.records
            && here.err == next.err
            && here.panicked == next.panicked
  {
    assert rows[i..][0] == rows[i] && rows[i..][1..] == rows[i + 1..];
  }

  /** gatherServer for one unit. */
  function RunUnit(response: Response, tagKeys: set<string>): UnitResult
  {
    match response
    case OpenFailed(e) => UnitResult([], Some(e), false)
    case QueryFailed(e) => UnitResult([], Some(e), false)
    case ColumnsFailed(e) => UnitResult([], Some(e), false)
    case Rows(columns, rows, rowsErr) => RunRows(columns, rows, rowsErr, tagKeys)
  }

  /** The records of a unit are exactly the records of its rows up to the
      first row that yields none; that row's error or panic ends the unit,
      and if every row yields a record the unit returns rows.Err. */
  lemma {:induction false} RunRowsStopsAtFirstFailure(columns: seq<string>, rows: seq<RowOutcome>,
                                                      rowsErr: Option<Error>, tagKeys: set<string>)
    ensures var r := RunRows(columns, rows, rowsErr, tagKeys);
            && |r.records| <= |rows|
            && (forall i | 0 <= i < |r.records| :: RowSpec(columns, rows[i], tagKeys) == Emitted(r.records[i]))
            && (|r.records| == |rows| ==> r.err == rowsErr && !r.panicked)
            && (|r.records| < |rows| ==>
                  match RowSpec(columns, rows[|r.records|], tagKeys)
                  case Emitted(_) => false
                  case Failed(e) => r.err == Some(e) && !r.panicked
                  case Panicked => r.err == None && r.panicked)
    decreases |rows|
  {
    if rows != [] {
      RunRowsStopsAtFirstFailure(columns, rows[1..], rowsErr, tagKeys);
      var r := RunRows(columns, rows, rowsErr, tagKeys);
      if RowSpec(columns, rows[0], tagKeys).Emitted? {
        forall i | 0 < i < |r.records|
          ensures RowSpec(columns, rows[i], tagKeys) == Emitted(r.records[i])
        {
          assert rows[1..][i - 1] == rows[i];
        }
      }
    }
  }

  /** A unit that fails before any row is read emits nothing and returns the
      failing step's error. */
  lemma UnitFailsBeforeRows(response: Response, tagKeys: set<string>)
    requires !response.Rows?
    ensures RunUnit(response, tagKeys) == UnitResult([], Some(response.err), false)
  {
  }

  /** Visiting one more column extends the tags, the fields or the
      measurement according to its classification, and nothing else. */
  lemma VisitColumn(columnMap: map<string, Value>, tagKeys: set<string>, done: set<string>, header: string)
    requires header in columnMap && header !in done
    ensures TagsOf(columnMap, tagKeys, done + {header})
            == if Classify(header, tagKeys) == TagKind
               then TagsOf(columnMap, tagKeys, done)[header := TextOf(columnMap[header])]
               else TagsOf(columnMap, tagKeys, done)
    ensures FieldsOf(columnMap, tagKeys, done + {header})
            == if Classify(header, tagKeys) == FieldKind
               then FieldsOf(columnMap, tagKeys, done)[header := columnMap[header]]
               else FieldsOf(columnMap, tagKeys, done)
    ensures MeasurementOf(columnMap, done + {header})
            == if header == MeasurementHeader then TextOf(columnMap[header]) else MeasurementOf(columnMap, done)
  {
  }

  /** The first loop of accRow: one entry of columnMap per column. */
  method BuildColumnMap(columns: seq<string>, values: seq<Value>) returns (columnMap: map<string, Value>)
    requires |columns| == |values|
    ensures columnMap == ColumnMap(columns, values)
  {
    columnMap := map[];
    for i := 0 to |columns|
      invariant columnMap == ColumnMap(columns[..i], values[..i])
    {
      assert columns[..i + 1][..i] == columns[..i] && values[..i + 1][..i] == values[..i];
      columnMap := columnMap[columns[i] := values[i]];
    }
    assert columns[..|columns|] == columns && values[..|values|] == values;
  }

  /** The classification loop of accRow. Map iteration order is
      unspecified, so the loop visits the column names in an arbitrary
      order; a non-string measurement or tag value panics. */
  method ClassifyColumns(columnMap: map<string, Value>, tagKeys: set<string>) returns (r: RowStep)
    ensures r == Decode(columnMap, tagKeys)
  {
    var tags: map<string, string> := map[];
    var fields: map<string, Value> := map[];
    var measurement := "";
    var todo := columnMap.Keys;
    while todo != {}
      invariant todo <= columnMap.Keys
      invariant forall h | h in columnMap.Keys - todo && Classify(h, tagKeys) != FieldKind :: columnMap[h].VString?
      invariant tags == TagsOf(columnMap, tagKeys, columnMap.Keys - todo)
      invariant fields == FieldsOf(columnMap, tagKeys, columnMap.Keys - todo)
      invariant measurement == MeasurementOf(columnMap, columnMap.Keys - todo)
      decreases |todo|
    {
      var header :| header in todo;
      var val := columnMap[header];
      ghost var done := columnMap.Keys - todo;
      assert columnMap.Keys - (todo - {header}) == done + {header};
      VisitColumn(columnMap, tagKeys, done, header);
      if header == MeasurementHeader {
        if !val.VString? {
          assert !Assertable(columnMap, tagKeys);
          return Panicked;
        }
        measurement := val.s;
      } else if header in tagKeys {
        if !val.VString? {
          assert !Assertable(columnMap, tagKeys);
          return Panicked;
        }
        tags := tags[header := val.s];
      } else {
        fields := fields[header := val];
      }
      todo := todo - {header};
    }
    assert columnMap.Keys - todo == columnMap.Keys;
    return Emitted(Metric(measurement, fields, tags));
  }

  /** accRow after a successful Scan: both loops. */
  method DecodeRow(columns: seq<string>, values: seq<Value>, tagKeys: set<string>) returns (r: RowStep)
    requires |columns| == |values|
    ensures r == Decode(ColumnMap(columns, values), tagKeys)
  {
    var columnMap := BuildColumnMap(columns, values);
    r := ClassifyColumns(columnMap, tagKeys);
  }

  /** A row with a measurement column, a tag-key column and a numeric
      column becomes one record with that measurement, one tag and one
      field. */
  lemma DecodeExample()
    ensures RowSpec(["measurement", "host", "value"], Row([VString("m"), VString("h1"), VInt(42)]), {"host"})
            == Emitted(Metric("m", map["value" := VInt(42)], map["host" := "h1"]))
  {
    var columns := ["measurement", "host", "value"];
    var values := [VString("m"), VString("h1"), VInt(42)];
    ColumnMapKeys(columns, values);
    ColumnMapAt(columns, values, 0);
    ColumnMapAt(columns, values, 1);
    ColumnMapAt(columns, values, 2);
    var cm := ColumnMap(columns, values);
    assert cm == map["measurement" := VString("m"), "host" := VString("h1"), "value" := VInt(42)];
    DecodeMeaning(cm, {"host"});
    assert Assertable(cm, {"host"});
    var r := Decode(cm, {"host"});
    assert r.metric.tags.Keys == {"host"};
    assert r.metric.fields.Keys == {"value"};
  }

  /** Without a measurement column the record is still emitted, with an
      empty measurement name. */
  lemma MissingMeasurementIsEmpty(columnMap: map<string, Value>, tagKeys: set<string>)
    requires MeasurementHeader !in columnMap
    requires Assertable(columnMap, tagKeys)
    ensures Decode(columnMap, tagKeys).Emitted?
    ensures Decode(columnMap, tagKeys).metric.measurement == ""
  {
  }
}
