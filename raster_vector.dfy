/**
 * ingest/raster_vector.py: the coordinate clamp applied to contour lines, the geometry-type check,
 * the rows process_geojson builds from a GeoJSON file, the column list of the table DDL, and the
 * effect insert_update_data has on the table it writes.
 */
module RasterVector {
  import opened Wrappers
  import opened Errors
  import opened Json
  import opened DateUtils
  import Strings

  // ---------------------------------------------------------------- clamping

  function Min(a: real, b: real): real { if a <= b then a else b }
  function Max(a: real, b: real): real { if a >= b then a else b }

  /** clamp: `max(min(val, max_val), min_val)`. */
  function Clamp(val: real, lo: real, hi: real): (r: real)
    ensures lo <= hi ==> lo <= r <= hi
    ensures lo <= val <= hi ==> r == val
    ensures lo <= hi && val < lo ==> r == lo
    ensures lo <= hi && val > hi ==> r == hi
  {
    Max(Min(val, hi), lo)
  }

  /** A (lon, lat) pair inside the world's extents. */
  predicate InWorld(c: (real, real))
  {
    -180.0 <= c.0 <= 180.0 && -90.0 <= c.1 <= 90.0
  }

  function ClampPoint(c: (real, real)): (r: (real, real))
  {
    (Clamp(c.0, -180.0, 180.0), Clamp(c.1, -90.0, 90.0))
  }

  /** fix_coordinates: one clamped pair per pair, in order; pairs inside the world stay as they are. */
  method FixCoordinates(coords: seq<(real, real)>) returns (fixed: seq<(real, real)>)
    ensures |fixed| == |coords|
    ensures forall k :: 0 <= k < |coords| ==> fixed[k] == ClampPoint(coords[k])
    ensures forall k :: 0 <= k < |fixed| ==> InWorld(fixed[k])
    ensures forall k :: 0 <= k < |coords| && InWorld(coords[k]) ==> fixed[k] == coords[k]
  {
    fixed := [];
    for i := 0 to |coords|
      invariant |fixed| == i
      invariant forall k :: 0 <= k < i ==> fixed[k] == ClampPoint(coords[k])
    {
      var (lon, lat) := coords[i];
      fixed := fixed + [(Clamp(lon, -180.0, 180.0), Clamp(lat, -90.0, 90.0))];
    }
  }

  // ---------------------------------------------------------------- geometry types

  const AllowedGeomTypes: seq<string> := ["Point", "LineString", "Polygon", "MultiPoint", "MultiLineString", "MultiPolygon"]

  predicate IsValidGeomType(geomType: string)
  {
    geomType in AllowedGeomTypes
  }

  /** Exactly the six simple-feature names are accepted, spelled as GeoJSON spells them. */
  lemma ValidGeomTypes(geomType: string)
    ensures IsValidGeomType(geomType) <==>
      geomType == "Point" || geomType == "LineString" || geomType == "Polygon"
      || geomType == "MultiPoint" || geomType == "MultiLineString" || geomType == "MultiPolygon"
    ensures !IsValidGeomType("point") && !IsValidGeomType("GeometryCollection")
  {
    assert "point"[0] != "Point"[0];
  }

  /** The settings of a VectorDbManager; the connection parameters are passed through to the driver. */
  datatype VectorDbManager = VectorDbManager(connParams: map<string, string>, schemaName: string, tableName: string,
                                             fullTableName: string, geomType: string, srid: int,
                                             dataColumns: seq<string>, deletePastData: bool)

  /** VectorDbManager.__init__ up to its geometry-type check. */
  function NewVectorDbManager(connParams: map<string, string>, schemaName: string, tableName: string, geomType: string,
                              dataColumns: seq<string>, srid: int, deletePastData: bool): (r: Result<VectorDbManager, Error>)
    ensures r.Err? <==> !IsValidGeomType(geomType)
    ensures r.Err? ==> r.error == UnKnownGeomType("Unknown geom type: " + geomType)
    ensures r.Ok? ==> r.value.fullTableName == schemaName + "." + tableName && r.value.geomType == geomType
                      && r.value.dataColumns == dataColumns && r.value.srid == srid
                      && r.value.deletePastData == deletePastData
  {
    if IsValidGeomType(geomType) then
      Ok(VectorDbManager(connParams, schemaName, tableName, schemaName + "." + tableName, geomType, srid,
                         dataColumns, deletePastData))
    else Err(UnKnownGeomType("Unknown geom type: " + geomType))
  }

  /** The data-column part of the CREATE TABLE statement: ", " then `c REAL` for each column, joined by ", ". */
  function ColumnsSql(columns: seq<string>): string
  {
    ", " + Strings.Join(seq(|columns|, k requires 0 <= k < |columns| => columns[k] + " REAL"), ", ")
  }

  /** Each column on its own, as ", c REAL". */
  function EachColumn(columns: seq<string>): string
  {
    if columns == [] then "" else ", " + columns[0] + " REAL" + EachColumn(columns[1..])
  }

  /** The fragment declares every column as REAL, in order, each after a ", "; with no column it is a
      bare ", ", which leaves a trailing comma in the column list of the statement. */
  lemma {:induction false} ColumnsSqlEach(columns: seq<string>)
    ensures columns != [] ==> ColumnsSql(columns) == EachColumn(columns)
    ensures columns == [] ==> ColumnsSql(columns) == ", "
  {
    if columns != [] {
      JoinEach(columns);
    }
  }

  lemma {:induction false} JoinEach(columns: seq<string>)
    requires columns != []
    ensures ", " + Strings.Join(seq(|columns|, k requires 0 <= k < |columns| => columns[k] + " REAL"), ", ") == EachColumn(columns)
  {
    var parts := seq(|columns|, k requires 0 <= k < |columns| => columns[k] + " REAL");
    if |columns| > 1 {
      JoinEach(columns[1..]);
      var rest := seq(|columns[1..]|, k requires 0 <= k < |columns[1..]| => columns[1..][k] + " REAL");
      assert parts[1..] == rest;
      assert Strings.Join(parts, ", ") == parts[0] + ", " + Strings.Join(rest, ", ");
    } else {
      assert columns[1..] == [];
    }
  }

  // ---------------------------------------------------------------- process_geojson

  /** One row of the table: the date, the geometry as WKT and the data-column values. */
  datatype Row = Row(date: DateTime, wkt: string, values: seq<Json>)

  /** The shapely side: the WKT of `shape(geometry)` and, for a LineString, the WKT of the line once
      fix_linestring_within_world_extents has simplified it (if not simple) and clamped it (or the
      error the library raises). */
  datatype Geometry = Geometry(wkt: Json -> Result<string, Error>, worldWkt: Json -> Result<string, Error>)

  /** Python's `for x in j`: a list's items; a string's characters; a dict's keys (strings, in an
      order not modelled here: each of them fails alike when subscripted with a string); TypeError
      otherwise. */
  function Iterate(j: Json): (r: Result<seq<Json>, Error>)
  {
    match j
    case Arr(items) => Ok(items)
    case Str(s) => Ok(seq(|s|, k requires 0 <= k < |s| => Str([s[k]])))
    case Obj(fields) => Ok(seq(|fields|, _ => Str("")))
    case _ => Err(TypeError)
  }

  /** How the f-string names the feature's type, as `str()` does: a string as its text, then None,
      True, False and decimal integers; a list or dict is shown as "..." here. */
  function Shown(t: Json): string
  {
    match t
    case Str(s) => s
    case Null => "None"
    case Bool(b) => if b then "True" else "False"
    case Num(n) => Strings.IntToString(n)
    case _ => "..."
  }

  /** `[feature['properties'][c] for c in data_columns]`, the properties looked up once per column. */
  function ColumnValues(feature: Json, columns: seq<string>): (r: Result<seq<Json>, Error>)
    ensures r.Ok? ==> |r.value| == |columns|
    ensures r.Ok? && columns != [] ==> At(feature, "properties").Ok?
    ensures r.Ok? ==> forall j :: 0 <= j < |columns| ==>
      At(At(feature, "properties").value, columns[j]) == Ok(r.value[j])
  {
    if columns == [] then Ok([])
    else match At(feature, "properties")
      case Err(e) => Err(e)
      case Ok(props) =>
        match At(props, columns[0])
        case Err(e) => Err(e)
        case Ok(v) =>
          match ColumnValues(feature, columns[1..])
          case Err(e) => Err(e)
          case Ok(vs) => Ok([v] + vs)
  }

  /** The row of one feature, or the error raised on the way: the geometry's type must be the
      table's, a LineString is clamped to the world before it is written as WKT. */
  function FeatureRow(m: VectorDbManager, feature: Json, d: DateTime, geo: Geometry): (r: Result<Row, Error>)
    ensures r.Ok? ==> r.value.date == d && |r.value.values| == |m.dataColumns|
    ensures r.Ok? ==> At(feature, "geometry").Ok? && Get(At(feature, "geometry").value, "type") == Ok(Str(m.geomType))
    ensures r.Ok? ==> ColumnValues(feature, m.dataColumns) == Ok(r.value.values)
    ensures r.Ok? && m.geomType == "LineString" ==> geo.worldWkt(At(feature, "geometry").value) == Ok(r.value.wkt)
    ensures r.Ok? && m.geomType != "LineString" ==> geo.wkt(At(feature, "geometry").value) == Ok(r.value.wkt)
  {
    match At(feature, "geometry")
    case Err(e) => Err(e)
    case Ok(g) =>
      match Get(g, "type")
      case Err(e) => Err(e)
      case Ok(t) =>
        if t != Str(m.geomType) then
          Err(UnKnownGeomType("GeomType from feature " + Shown(t) + " is different from table geom type: " + m.geomType))
        else
          match (if m.geomType == "LineString" then geo.worldWkt(g) else geo.wkt(g))
          case Err(e) => Err(e)
          case Ok(wkt) =>
            match ColumnValues(feature, m.dataColumns)
            case Err(e) => Err(e)
            case Ok(vs) => Ok(Row(d, wkt, vs))
  }

  /** The loop of process_geojson over the features; `date` is what strptime makes of the date string,
      parsed again, and so raised again, for every feature. */
  function FeatureRows(m: VectorDbManager, features: seq<Json>, date: Result<DateTime, Error>, geo: Geometry)
    : Result<seq<Row>, Error>
  {
    if features == [] then Ok([])
    else if date.Err? then Err(date.error)
    else match FeatureRow(m, features[0], date.value, geo)
      case Err(e) => Err(e)
      case Ok(row) => Prepend([row], FeatureRows(m, features[1..], date, geo))
  }

  /** process_geojson, given what json.load made of the file (or raised). */
  function GeojsonRows(m: VectorDbManager, data: Result<Json, Error>, date: Result<DateTime, Error>, geo: Geometry)
    : Result<seq<Row>, Error>
  {
    match data
    case Err(e) => Err(e)
    case Ok(j) =>
      match At(j, "features")
      case Err(e) => Err(e)
      case Ok(fs) =>
        match Iterate(fs)
        case Err(e) => Err(e)
        case Ok(features) => FeatureRows(m, features, date, geo)
  }

  /** process_geojson. */
  method ProcessGeojson(m: VectorDbManager, data: Result<Json, Error>, date: Result<DateTime, Error>, geo: Geometry)
    returns (r: Result<seq<Row>, Error>)
    ensures r == GeojsonRows(m, data, date, geo)
  {
    if data.Err? {
      return Err(data.error);
    }
    var fs := At(data.value, "features");
    if fs.Err? {
      return Err(fs.error);
    }
    var features := Iterate(fs.value);
    if features.Err? {
      return Err(features.error);
    }
    var all := features.value;
    var rows: seq<Row> := [];
    var i := 0;
    assert all[0..] == all;
    assert Prepend([], FeatureRows(m, all, date, geo)) == FeatureRows(m, all, date, geo) by {
      if FeatureRows(m, all, date, geo).Ok? {
        assert [] + FeatureRows(m, all, date, geo).value == FeatureRows(m, all, date, geo).value;
      }
    }
    while i < |all|
      invariant 0 <= i <= |all|
      invariant FeatureRows(m, all, date, geo) == Prepend(rows, FeatureRows(m, all[i..], date, geo))
    {
      assert all[i..][0] == all[i] && all[i..][1..] == all[i + 1..];
      if date.Err? {
        return Err(date.error);
      }
      var row := FeatureRow(m, all[i], date.value, geo);
      if row.Err? {
        return Err(row.error);
      }
      PrependAppend(rows, [row.value], FeatureRows(m, all[i + 1..], date, geo));
      rows := rows + [row.value];
      i := i + 1;
    }
    assert all[i..] == [] && rows + [] == rows;
    r := Ok(rows);
  }

  /** When process_geojson succeeds it yields one row per feature, in feature order: the date, the
      WKT of the feature's geometry, whose type is the table's, and the feature's values of the data
      columns, in column order. */
  lemma {:induction false} RowsFollowFeatures(m: VectorDbManager, features: seq<Json>, d: DateTime, geo: Geometry)
    requires FeatureRows(m, features, Ok(d), geo).Ok?
    ensures var rows := FeatureRows(m, features, Ok(d), geo).value;
      && |rows| == |features|
      && forall k :: 0 <= k < |features| ==>
           && FeatureRow(m, features[k], d, geo) == Ok(rows[k])
           && rows[k].date == d && |rows[k].values| == |m.dataColumns|
           && At(features[k], "geometry").Ok? && Get(At(features[k], "geometry").value, "type") == Ok(Str(m.geomType))
           && ColumnValues(features[k], m.dataColumns) == Ok(rows[k].values)
           && (m.geomType == "LineString" ==> geo.worldWkt(At(features[k], "geometry").value) == Ok(rows[k].wkt))
           && (m.geomType != "LineString" ==> geo.wkt(At(features[k], "geometry").value) == Ok(rows[k].wkt))
  {
    if features != [] {
      RowsFollowFeatures(m, features[1..], d, geo);
      var rows := FeatureRows(m, features, Ok(d), geo).value;
      var rest := FeatureRows(m, features[1..], Ok(d), geo).value;
      assert rows == [rows[0]] + rest;
      forall k | 0 <= k < |features|
        ensures FeatureRow(m, features[k], d, geo) == Ok(rows[k])
      {
        if k > 0 {
          assert features[k] == features[1..][k - 1] && rows[k] == rest[k - 1];
        }
      }
    }
  }

  /** A feature whose geometry type is not the table's raises UnKnownGeomType, unless an earlier
      feature already raised. */
  lemma {:induction false} MismatchRaises(m: VectorDbManager, features: seq<Json>, d: DateTime, geo: Geometry, k: nat)
    requires k < |features|
    requires forall i :: 0 <= i < k ==> FeatureRow(m, features[i], d, geo).Ok?
    requires At(features[k], "geometry").Ok? && Get(At(features[k], "geometry").value, "type").Ok?
    requires Get(At(features[k], "geometry").value, "type").value != Str(m.geomType)
    ensures FeatureRows(m, features, Ok(d), geo).Err?
    ensures FeatureRows(m, features, Ok(d), geo).error.UnKnownGeomType?
  {
    if k > 0 {
      assert forall i :: 0 <= i < k - 1 ==> features[1..][i] == features[i + 1];
      MismatchRaises(m, features[1..], d, geo, k - 1);
    }
  }

  // ---------------------------------------------------------------- insert_update_data

  /** The rows dated `d`. */
  function OnDate(t: seq<Row>, d: DateTime): seq<Row>
  {
    if t == [] then [] else (if t[0].date == d then [t[0]] else []) + OnDate(t[1..], d)
  }

  /** `DELETE ... WHERE date = d`: the rows dated otherwise, in order. */
  function OffDate(t: seq<Row>, d: DateTime): seq<Row>
  {
    if t == [] then [] else (if t[0].date != d then [t[0]] else []) + OffDate(t[1..], d)
  }

  /** `DELETE ... WHERE date < latest`: the rows dated `latest` or later, in order. */
  function Since(t: seq<Row>, latest: DateTime): seq<Row>
  {
    if t == [] then [] else (if !Before(t[0].date, latest) then [t[0]] else []) + Since(t[1..], latest)
  }

  /** The table after insert_update_data: the rows of the date replaced by the new ones, then, when
      past data is deleted and a latest date is given, every row dated before it removed. */
  function Inserted(m: VectorDbManager, table: seq<Row>, rows: seq<Row>, d: DateTime, latest: Option<DateTime>): seq<Row>
  {
    var replaced := OffDate(table, d) + rows;
    if m.deletePastData && latest.Some? then Since(replaced, latest.value) else replaced
  }

  /** The database the manager writes: each table as its rows. */
  class Database {
    var tables: map<string, seq<Row>>

    constructor (tables: map<string, seq<Row>>)
      ensures this.tables == tables
    {
      this.tables := tables;
    }

    /** create_table_if_not_exists, as its effect on the tables: an absent table is created empty. */
    method CreateTableIfNotExists(m: VectorDbManager)
      modifies this
      ensures tables == if m.fullTableName in old(tables) then old(tables) else old(tables)[m.fullTableName := []]
    {
      if m.fullTableName !in tables {
        tables := tables[m.fullTableName := []];
      }
    }

    /** insert_update_data: nothing changes when process_geojson raises (or the table is missing);
        otherwise the date's rows are replaced, then old rows pruned. `latest` is the latest date or
        None when latest_date_str is falsy. */
    method InsertUpdateData(m: VectorDbManager, data: Result<Json, Error>, date: Result<DateTime, Error>,
                            latest: Option<DateTime>, geo: Geometry) returns (r: Outcome<Error>)
      modifies this
      ensures var rows := GeojsonRows(m, data, date, geo);
        && (rows.Err? ==> r == Fail(rows.error) && tables == old(tables))
        && (rows.Ok? && m.fullTableName !in old(tables) ==> r.Fail? && tables == old(tables))
        && (rows.Ok? && m.fullTableName in old(tables) && date.Err? ==> r == Fail(date.error) && tables == old(tables))
        && (rows.Ok? && m.fullTableName in old(tables) && date.Ok? ==>
              r == Pass
              && tables == old(tables)[m.fullTableName := Inserted(m, old(tables)[m.fullTableName], rows.value, date.value, latest)])
    {
      var rows := ProcessGeojson(m, data, date, geo);
      if rows.Err? {
        return Fail(rows.error);
      }
      if m.fullTableName !in tables {
        return Fail(ExternalFailure("relation " + m.fullTableName + " does not exist"));
      }
      if date.Err? {
        // strptime raised for every feature, so there were none; the statement's date fails in the database
        return Fail(date.error);
      }
      var table := tables[m.fullTableName];
      var d := date.value;
      table := OffDate(table, d) + rows.value;
      if m.deletePastData && latest.Some? {
        table := Since(table, latest.value);
      }
      tables := tables[m.fullTableName := table];
      r := Pass;
    }
  }

  lemma {:induction false} OnDateAppend(a: seq<Row>, b: seq<Row>, e: DateTime)
    ensures OnDate(a + b, e) == OnDate(a, e) + OnDate(b, e)
  {
    if a != [] {
      assert (a + b)[1..] == a[1..] + b;
      OnDateAppend(a[1..], b, e);
    } else {
      assert a + b == b;
    }
  }

  lemma {:induction false} OffDateAppend(a: seq<Row>, b: seq<Row>, e: DateTime)
    ensures OffDate(a + b, e) == OffDate(a, e) + OffDate(b, e)
  {
    if a != [] {
      assert (a + b)[1..] == a[1..] + b;
      OffDateAppend(a[1..], b, e);
    } else {
      assert a + b == b;
    }
  }

  lemma {:induction false} SinceAppend(a: seq<Row>, b: seq<Row>, l: DateTime)
    ensures Since(a + b, l) == Since(a, l) + Since(b, l)
  {
    if a != [] {
      assert (a + b)[1..] == a[1..] + b;
      SinceAppend(a[1..], b, l);
    } else {
      assert a + b == b;
    }
  }

  lemma {:induction false} OnDateOff(t: seq<Row>, d: DateTime, e: DateTime)
    ensures OnDate(OffDate(t, d), e) == if e == d then [] else OnDate(t, e)
  {
    if t != [] {
      OnDateOff(t[1..], d, e);
      OnDateAppend(if t[0].date != d then [t[0]] else [], OffDate(t[1..], d), e);
    }
  }

  lemma {:induction false} OnDateSince(t: seq<Row>, l: DateTime, e: DateTime)
    ensures OnDate(Since(t, l), e) == if Before(e, l) then [] else OnDate(t, e)
  {
    if t != [] {
      OnDateSince(t[1..], l, e);
      OnDateAppend(if !Before(t[0].date, l) then [t[0]] else [], Since(t[1..], l), e);
    }
  }

  /** Rows all dated `d` are all on `d` and none on another date. */
  lemma {:induction false} OnDateAll(rows: seq<Row>, d: DateTime, e: DateTime)
    requires forall k :: 0 <= k < |rows| ==> rows[k].date == d
    ensures OnDate(rows, e) == if e == d then rows else []
    ensures OffDate(rows, d) == []
  {
    if rows != [] {
      OnDateAll(rows[1..], d, e);
    }
  }

  lemma {:induction false} OffDateTwice(t: seq<Row>, d: DateTime)
    ensures OffDate(OffDate(t, d), d) == OffDate(t, d)
  {
    if t != [] {
      OffDateTwice(t[1..], d);
      OffDateAppend(if t[0].date != d then [t[0]] else [], OffDate(t[1..], d), d);
    }
  }

  lemma {:induction false} SinceTwice(t: seq<Row>, l: DateTime)
    ensures Since(Since(t, l), l) == Since(t, l)
  {
    if t != [] {
      SinceTwice(t[1..], l);
      SinceAppend(if !Before(t[0].date, l) then [t[0]] else [], Since(t[1..], l), l);
    }
  }

  lemma {:induction false} OffDateSince(t: seq<Row>, d: DateTime, l: DateTime)
    ensures OffDate(Since(t, l), d) == Since(OffDate(t, d), l)
  {
    if t != [] {
      OffDateSince(t[1..], d, l);
      OffDateAppend(if !Before(t[0].date, l) then [t[0]] else [], Since(t[1..], l), d);
      SinceAppend(if t[0].date != d then [t[0]] else [], OffDate(t[1..], d), l);
    }
  }

  /** After an insert, the rows of the inserted date are exactly the new ones (unless the date is
      before the latest date and pruned), and every other date keeps exactly its rows (unless pruned). */
  lemma InsertReplacesDate(m: VectorDbManager, table: seq<Row>, rows: seq<Row>, d: DateTime, latest: Option<DateTime>, e: DateTime)
    requires forall k :: 0 <= k < |rows| ==> rows[k].date == d
    ensures var pruned := m.deletePastData && latest.Some? && Before(e, latest.value);
      OnDate(Inserted(m, table, rows, d, latest), e) == if pruned then [] else if e == d then rows else OnDate(table, e)
  {
    var replaced := OffDate(table, d) + rows;
    OnDateAppend(OffDate(table, d), rows, e);
    OnDateOff(table, d, e);
    OnDateAll(rows, d, e);
    if m.deletePastData && latest.Some? {
      OnDateSince(replaced, latest.value, e);
    }
    if e == d {
      assert [] + rows == rows;
    } else {
      assert OnDate(table, e) + [] == OnDate(table, e);
    }
  }

  /** With past data deleted and a latest date given, no row dated before it remains. */
  lemma {:induction false} NoRowBeforeLatest(t: seq<Row>, l: DateTime)
    ensures forall k :: 0 <= k < |Since(t, l)| ==> !Before(Since(t, l)[k].date, l)
  {
    if t != [] {
      NoRowBeforeLatest(t[1..], l);
      var first: seq<Row> := if !Before(t[0].date, l) then [t[0]] else [];
      assert Since(t, l) == first + Since(t[1..], l);
      forall k | 0 <= k < |Since(t, l)| ensures !Before(Since(t, l)[k].date, l) {
        if k >= |first| {
          assert Since(t, l)[k] == Since(t[1..], l)[k - |first|];
        }
      }
    }
  }

  /** Loading the same rows for the same date twice leaves the table as loading them once. */
  lemma InsertTwice(m: VectorDbManager, table: seq<Row>, rows: seq<Row>, d: DateTime, latest: Option<DateTime>)
    requires forall k :: 0 <= k < |rows| ==> rows[k].date == d
    ensures Inserted(m, Inserted(m, table, rows, d, latest), rows, d, latest) == Inserted(m, table, rows, d, latest)
  {
    var off := OffDate(table, d);
    OnDateAll(rows, d, d);
    OffDateAppend(off, rows, d);
    OffDateTwice(table, d);
    assert OffDate(off + rows, d) == off by {
      assert off + [] == off;
    }
    if m.deletePastData && latest.Some? {
      var l := latest.value;
      var once := Since(off + rows, l);
      OffDateSince(off + rows, d, l);
      assert OffDate(once, d) == Since(off, l);
      SinceAppend(Since(off, l), rows, l);
      SinceTwice(off, l);
      SinceAppend(off, rows, l);
    }
  }
}
