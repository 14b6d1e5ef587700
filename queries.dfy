/** The user-defined query subsystem: loading query definitions from a
    directory listing, and one collection cycle of a query, which turns the
    rows of its JSON result into the series of a labelled gauge. */
module QueryCollector {
  import opened Wrappers
  import opened JsonValues

  /** A query definition as decoded from a `.yml` file. `labelFields` is
      `None` when the file gives no label list at all, which the collector
      treats differently from an empty list. `interval` is a duration in
      nanoseconds and may be negative. */
  datatype Query = Query(
    name: string,
    rql: string,
    database: string,
    valueOnError: real,
    valueField: string,
    labelFields: Option<seq<string>>,
    interval: int)

  /** Why a load was rejected. */
  datatype LoadError =
    | ListingFailed(dir: string)
    | FileFailed(filePath: string)
    | NameMissing
    | DatabaseMissing(query: string)
    | RqlMissing(query: string)
    | IntervalZero(query: string)
    | ValueFieldMissing(query: string)

  /** One entry of the directory listing, in listing order, with the
      definitions its file decodes to, or `None` when opening, reading or
      decoding it fails. */
  datatype DirEntry = DirEntry(fileName: string, contents: Option<seq<Query>>)

  // ---------------------------------------------------------------------
  // Loading query definitions.
  // ---------------------------------------------------------------------

  /** The fields a loaded query must have. Only a zero interval is refused. */
  predicate ValidQuery(q: Query) {
    q.name != "" && q.database != "" && q.rql != "" && q.interval != 0 && q.valueField != ""
  }

  /** Every definition of `qs` is valid. */
  predicate AllValid(qs: seq<Query>) {
    forall i | 0 <= i < |qs| :: ValidQuery(qs[i])
  }

  /** `strings.HasSuffix`. */
  predicate HasSuffix(s: string, suffix: string) {
    |s| >= |suffix| && s[|s| - |suffix|..] == suffix
  }

  /** `strings.TrimRight(s, "/")`: `s` without its trailing slashes. */
  function TrimSlashes(s: string): (r: string)
    ensures r <= s
    ensures r == [] || r[|r| - 1] != '/'
    ensures forall i | |r| <= i < |s| :: s[i] == '/'
    decreases |s|
  {
    if s != [] && s[|s| - 1] == '/' then TrimSlashes(s[..|s| - 1]) else s
  }

  /** The path a file of the directory is opened under. */
  function FilePath(dir: string, fileName: string): string {
    TrimSlashes(dir) + "/" + fileName
  }

  /** The checks of one definition, in the order the loader makes them; the
      first failing one names the error. */
  function Validate(q: Query): (r: Option<LoadError>)
    ensures r.None? <==> ValidQuery(q)
    ensures r == Some(NameMissing) <==> q.name == ""
    ensures q.name != "" && q.database == "" ==> r == Some(DatabaseMissing(q.name))
    ensures q.name != "" && q.database != "" && q.rql == "" ==> r == Some(RqlMissing(q.name))
    ensures q.name != "" && q.database != "" && q.rql != "" && q.interval == 0 ==> r == Some(IntervalZero(q.name))
    ensures q.name != "" && q.database != "" && q.rql != "" && q.interval != 0 && q.valueField == "" ==>
      r == Some(ValueFieldMissing(q.name))
  {
    if q.name == "" then Some(NameMissing)
    else if q.database == "" then Some(DatabaseMissing(q.name))
    else if q.rql == "" then Some(RqlMissing(q.name))
    else if q.interval == 0 then Some(IntervalZero(q.name))
    else if q.valueField == "" then Some(ValueFieldMissing(q.name))
    else None
  }

  /** The error of the first invalid definition of a file, if any. */
  function FirstInvalid(qs: seq<Query>): (r: Option<LoadError>)
    ensures r.None? <==> forall i | 0 <= i < |qs| :: ValidQuery(qs[i])
  {
    if qs == [] then None
    else
      match FirstInvalid(qs[..|qs| - 1])
      case Some(e) => Some(e)
      case None => Validate(qs[|qs| - 1])
  }

  /** The outcome of loading the listing `entries` of directory `dir`,
      entry by entry: non-`.yml` entries are skipped, and the first file that
      cannot be read or holds an invalid definition ends the load. */
  function LoadEntries(dir: string, entries: seq<DirEntry>): (r: Result<seq<Query>, LoadError>)
    ensures r.Success? ==> AllValid(r.value)
  {
    if entries == [] then Success([])
    else
      match LoadEntries(dir, entries[..|entries| - 1])
      case Failure(e) => Failure(e)
      case Success(qs) =>
        var e := entries[|entries| - 1];
        if !HasSuffix(e.fileName, ".yml") then Success(qs)
        else
          match e.contents
          case None => Failure(FileFailed(FilePath(dir, e.fileName)))
          case Some(fileQueries) =>
            match FirstInvalid(fileQueries)
            case Some(err) => Failure(err)
            case None => Success(qs + fileQueries)
  }

  /** `loadQueriesFromDir` for directory path `dir`, whose listing is
      `listing` (`None` when the directory cannot be read). */
  function LoadFromDir(dir: string, listing: Option<seq<DirEntry>>): (r: Result<seq<Query>, LoadError>)
    ensures r.Success? ==> AllValid(r.value)
  {
    if dir == "" then Success([])
    else
      match listing
      case None => Failure(ListingFailed(dir))
      case Some(entries) => LoadEntries(dir, entries)
  }

  /** Without a directory path nothing is loaded, and that is no error. */
  lemma EmptyPathLoadsNothing(listing: Option<seq<DirEntry>>)
    ensures LoadFromDir("", listing) == Success([])
  {
  }

  /** The definitions of the `.yml` files of a listing, in listing order
      and, within a file, in file order. */
  function YmlQueries(entries: seq<DirEntry>): seq<Query> {
    if entries == [] then []
    else
      var e := entries[|entries| - 1];
      YmlQueries(entries[..|entries| - 1])
        + (if HasSuffix(e.fileName, ".yml") && e.contents.Some? then e.contents.value else [])
  }

  /** Every `.yml` file of the listing could be read and holds only valid
      definitions. */
  predicate Loadable(entries: seq<DirEntry>) {
    forall i | 0 <= i < |entries| && HasSuffix(entries[i].fileName, ".yml") ::
      entries[i].contents.Some? && FirstInvalid(entries[i].contents.value).None?
  }

  /** A listing loads exactly when it is loadable, and then yields the
      definitions of its `.yml` files in order. */
  lemma {:induction false} LoadEntriesOutcome(dir: string, entries: seq<DirEntry>)
    ensures LoadEntries(dir, entries).Success? <==> Loadable(entries)
    ensures LoadEntries(dir, entries).Success? ==> LoadEntries(dir, entries).value == YmlQueries(entries)
    decreases |entries|
  {
    if entries != [] {
      var init := entries[..|entries| - 1];
      LoadEntriesOutcome(dir, init);
      assert Loadable(entries) ==> Loadable(init) by {
        forall i | 0 <= i < |init| ensures init[i] == entries[i] { }
      }
      var e := entries[|entries| - 1];
      assert Loadable(entries) <==>
        Loadable(init) && (HasSuffix(e.fileName, ".yml") ==> e.contents.Some? && FirstInvalid(e.contents.value).None?)
      by {
        forall i | 0 <= i < |init| ensures init[i] == entries[i] { }
      }
    }
  }

  /** The `.yml` definitions of a loadable listing are all valid. */
  lemma {:induction false} YmlQueriesValid(entries: seq<DirEntry>)
    requires Loadable(entries)
    ensures forall q | q in YmlQueries(entries) :: ValidQuery(q)
    decreases |entries|
  {
    if entries != [] {
      var init := entries[..|entries| - 1];
      assert Loadable(init) by {
        forall i | 0 <= i < |init| ensures init[i] == entries[i] { }
      }
      YmlQueriesValid(init);
      var e := entries[|entries| - 1];
      if HasSuffix(e.fileName, ".yml") {
        assert FirstInvalid(e.contents.value).None?;
      }
    }
  }

  /** Once a prefix of the listing fails, the load fails with that error. */
  lemma {:induction false} LoadEntriesFailurePersists(dir: string, entries: seq<DirEntry>, n: nat)
    requires n <= |entries| && LoadEntries(dir, entries[..n]).Failure?
    ensures LoadEntries(dir, entries) == LoadEntries(dir, entries[..n])
    decreases |entries| - n
  {
    if n < |entries| {
      assert entries[..n + 1][..n] == entries[..n];
      LoadEntriesFailurePersists(dir, entries, n + 1);
    } else {
      assert entries[..n] == entries;
    }
  }

  /** Once a prefix of a file holds an invalid definition, its first error
      is the file's. */
  lemma {:induction false} FirstInvalidPersists(qs: seq<Query>, n: nat)
    requires n <= |qs| && FirstInvalid(qs[..n]).Some?
    ensures FirstInvalid(qs) == FirstInvalid(qs[..n])
    decreases |qs| - n
  {
    if n < |qs| {
      assert qs[..n + 1][..n] == qs[..n];
      FirstInvalidPersists(qs, n + 1);
    } else {
      assert qs[..n] == qs;
    }
  }

  /** One more entry of the listing: skipped, or its file's definitions
      appended, or the load's error. */
  lemma LoadEntriesStep(dir: string, entries: seq<DirEntry>, i: nat, qs: seq<Query>)
    requires i < |entries| && LoadEntries(dir, entries[..i]) == Success(qs)
    ensures LoadEntries(dir, entries[..i + 1]) ==
      var e := entries[i];
      if !HasSuffix(e.fileName, ".yml") then Success(qs)
      else
        match e.contents
        case None => Failure(FileFailed(FilePath(dir, e.fileName)))
        case Some(fileQueries) =>
          match FirstInvalid(fileQueries)
          case Some(err) => Failure(err)
          case None => Success(qs + fileQueries)
  {
    assert entries[..i + 1][..i] == entries[..i];
    assert entries[..i + 1][i] == entries[i];
  }

  /** The loop over one file's definitions: each is checked in turn and
      appended to `result`; the first invalid one ends the load. */
  method AppendFileQueries(result: seq<Query>, fromFileQueries: seq<Query>)
    returns (res: Result<seq<Query>, LoadError>)
    ensures res == match FirstInvalid(fromFileQueries)
      case Some(err) => Failure(err)
      case None => Success(result + fromFileQueries)
  {
    var acc := result;
    for j := 0 to |fromFileQueries|
      invariant FirstInvalid(fromFileQueries[..j]).None?
      invariant acc == result + fromFileQueries[..j]
    {
      var query := fromFileQueries[j];
      assert fromFileQueries[..j + 1][..j] == fromFileQueries[..j];
      var err: Option<LoadError> := None;
      if query.name == "" {
        err := Some(NameMissing);
      } else if query.database == "" {
        err := Some(DatabaseMissing(query.name));
      } else if query.rql == "" {
        err := Some(RqlMissing(query.name));
      } else if query.interval == 0 {
        err := Some(IntervalZero(query.name));
      } else if query.valueField == "" {
        err := Some(ValueFieldMissing(query.name));
      }
      if err.Some? {
        FirstInvalidPersists(fromFileQueries, j + 1);
        return Failure(err.value);
      }
      acc := acc + [query];
      assert fromFileQueries[..j + 1] == fromFileQueries[..j] + [query];
    }
    assert fromFileQueries[..|fromFileQueries|] == fromFileQueries;
    return Success(acc);
  }

  /** `loadQueriesFromDir`: the loop over the listing, returning at the
      first problem. */
  method LoadQueriesFromDir(dir: string, listing: Option<seq<DirEntry>>) returns (res: Result<seq<Query>, LoadError>)
    ensures res == LoadFromDir(dir, listing)
  {
    var result: seq<Query> := [];
    if dir == "" {
      return Success(result);
    }
    if listing.None? {
      return Failure(ListingFailed(dir));
    }
    var files := listing.value;
    for i := 0 to |files|
      invariant LoadEntries(dir, files[..i]) == Success(result)
    {
      LoadEntriesStep(dir, files, i, result);
      var f := files[i];
      if HasSuffix(f.fileName, ".yml") {
        if f.contents.None? {
          LoadEntriesFailurePersists(dir, files, i + 1);
          return Failure(FileFailed(FilePath(dir, f.fileName)));
        }
        var fileResult := AppendFileQueries(result, f.contents.value);
        if fileResult.Failure? {
          LoadEntriesFailurePersists(dir, files, i + 1);
          return fileResult;
        }
        result := fileResult.value;
      }
    }
    assert files[..|files|] == files;
    return Success(result);
  }

  /** A file whose only definition lacks a database fails the whole load. */
  lemma ExampleMissingDatabase(dir: string, q: Query)
    requires dir != "" && q.name != "" && q.database == ""
    ensures LoadFromDir(dir, Some([DirEntry("queries.yml", Some([q]))])) == Failure(DatabaseMissing(q.name))
  {
    var entries := [DirEntry("queries.yml", Some([q]))];
    assert entries[..0] == [];
    assert LoadEntries(dir, entries[..0]) == Success([]);
    assert [q][..0] == [];
    assert FirstInvalid([q]) == Some(DatabaseMissing(q.name));
    assert HasSuffix("queries.yml", ".yml") by {
      assert "queries.yml"[7..] == ".yml";
    }
  }

  /** Only a zero interval is refused: a negative one loads. */
  lemma NegativeIntervalLoads(q: Query)
    requires q.name != "" && q.database != "" && q.rql != "" && q.valueField != "" && q.interval < 0
    ensures Validate(q).None?
  {
  }

  /** Files without the `.yml` suffix are never read. */
  lemma {:induction false} OtherFilesIgnored(dir: string, entries: seq<DirEntry>, e: DirEntry)
    requires !HasSuffix(e.fileName, ".yml")
    ensures LoadEntries(dir, entries + [e]) == LoadEntries(dir, entries)
  {
    assert (entries + [e])[..|entries + [e]| - 1] == entries;
  }

  // ---------------------------------------------------------------------
  // The query metric and one collection cycle.
  // ---------------------------------------------------------------------

  const MetricPrefix: string := "ravendb_queryresult_"

  /** The name the query's gauge is registered under. */
  function MetricName(q: Query): (r: string)
    ensures |r| == |MetricPrefix| + |q.name|
    ensures r[..|MetricPrefix|] == MetricPrefix && r[|MetricPrefix|..] == q.name
  {
    MetricPrefix + q.name
  }

  /** Queries with different names get different metrics. */
  lemma MetricNameInjective(p: Query, q: Query)
    requires MetricName(p) == MetricName(q)
    ensures p.name == q.name
  {
    assert p.name == MetricName(p)[|MetricPrefix|..];
  }

  /** The label names of the query's gauge: its label fields in declared
      order, none without a label list. */
  function LabelSchema(q: Query): (r: seq<string>)
    ensures q.labelFields.Some? ==> r == q.labelFields.value
    ensures q.labelFields.None? ==> r == []
  {
    q.labelFields.GetOr([])
  }

  /** The labels of a row: each label field's string, or `None` when one of
      them is missing or not a string. */
  function RowLabels(row: Json, fields: seq<string>): (r: Option<map<string, string>>)
    ensures r.None? <==> exists i | 0 <= i < |fields| :: GetString(row, [fields[i]]).None?
    ensures r.Some? ==> r.value.Keys == set i | 0 <= i < |fields| :: fields[i]
    ensures r.Some? ==> forall i | 0 <= i < |fields| :: r.value[fields[i]] == GetString(row, [fields[i]]).value
  {
    if fields == [] then Some(map[])
    else
      var init := fields[..|fields| - 1];
      var labelField := fields[|fields| - 1];
      match RowLabels(row, init)
      case None =>
        assert forall i | 0 <= i < |init| :: init[i] == fields[i];
        None
      case Some(m) =>
        match GetString(row, [labelField])
        case None => None
        case Some(v) =>
          assert forall i | 0 <= i < |init| :: init[i] == fields[i];
          assert (set i | 0 <= i < |fields| :: fields[i]) == (set i | 0 <= i < |init| :: init[i]) + {labelField};
          Some(m[labelField := v])
  }

  /** The series a row sets and its value: the value field's number, with
      the row's labels when the query has a label list and the unlabelled
      series otherwise; `None` when the row cannot be read. */
  function RowSample(q: Query, row: Json): (r: Option<(map<string, string>, real)>)
    ensures r.Some? <==>
      GetFloat(row, [q.valueField]).Some? && (q.labelFields.Some? ==> RowLabels(row, q.labelFields.value).Some?)
    ensures r.Some? ==> r.value.1 == GetFloat(row, [q.valueField]).value
    ensures r.Some? && q.labelFields.None? ==> r.value.0 == map[]
    ensures r.Some? && q.labelFields.Some? ==> r.value.0 == RowLabels(row, q.labelFields.value).value
  {
    match GetFloat(row, [q.valueField])
    case None => None
    case Some(value) =>
      match q.labelFields
      case None => Some((map[], value))
      case Some(fields) =>
        match RowLabels(row, fields)
        case None => None
        case Some(labels) => Some((labels, value))
  }

  /** The series after the rows are processed in order, each readable row
      setting its series. */
  function ApplyRows(series: map<map<string, string>, real>, q: Query, rows: seq<Json>): map<map<string, string>, real>
  {
    if rows == [] then series
    else
      var before := ApplyRows(series, q, rows[..|rows| - 1]);
      match RowSample(q, rows[|rows| - 1])
      case None => before
      case Some((labels, value)) => before[labels := value]
  }

  /** The label combinations the readable rows name. */
  function RowSeries(q: Query, rows: seq<Json>): set<map<string, string>> {
    if rows == [] then {}
    else
      RowSeries(q, rows[..|rows| - 1])
        + match RowSample(q, rows[|rows| - 1])
          case None => {}
          case Some((labels, _)) => {labels}
  }

  /** A label combination is named by a readable row exactly when some
      readable row's value is recorded for it. */
  lemma {:induction false} RowSeriesLastValue(q: Query, rows: seq<Json>, labels: map<string, string>)
    ensures labels in RowSeries(q, rows) <==> LastValue(q, rows, labels).Some?
    decreases |rows|
  {
    if rows != [] {
      RowSeriesLastValue(q, rows[..|rows| - 1], labels);
    }
  }

  /** The series after the rows are the old ones plus one per label
      combination a readable row names. */
  lemma {:induction false} ApplyRowsKeys(series: map<map<string, string>, real>, q: Query, rows: seq<Json>)
    ensures ApplyRows(series, q, rows).Keys == series.Keys + RowSeries(q, rows)
    decreases |rows|
  {
    if rows != [] {
      ApplyRowsKeys(series, q, rows[..|rows| - 1]);
    }
  }

  /** One more row sets its series, or nothing when it cannot be read. */
  lemma ApplyRowsStep(series: map<map<string, string>, real>, q: Query, rows: seq<Json>, i: nat)
    requires i < |rows|
    ensures ApplyRows(series, q, rows[..i + 1]) ==
      match RowSample(q, rows[i])
      case None => ApplyRows(series, q, rows[..i])
      case Some((labels, value)) => ApplyRows(series, q, rows[..i])[labels := value]
  {
    assert rows[..i + 1][..i] == rows[..i];
    assert rows[..i + 1][i] == rows[i];
  }

  /** Some row cannot be read. */
  predicate AnyRowFails(q: Query, rows: seq<Json>) {
    exists i | 0 <= i < |rows| :: RowSample(q, rows[i]).None?
  }

  /** One more row fails the prefix exactly when it fails itself or an
      earlier row did. */
  lemma AnyRowFailsStep(q: Query, rows: seq<Json>, i: nat)
    requires i < |rows|
    ensures AnyRowFails(q, rows[..i + 1]) <==> AnyRowFails(q, rows[..i]) || RowSample(q, rows[i]).None?
  {
    assert rows[..i + 1][i] == rows[i];
    forall k | 0 <= k < i ensures rows[..i + 1][k] == rows[..i][k] { }
  }

  /** The value of the last readable row whose labels are `labels`. */
  function LastValue(q: Query, rows: seq<Json>, labels: map<string, string>): Option<real> {
    if rows == [] then None
    else
      match RowSample(q, rows[|rows| - 1])
      case Some((l, v)) =>
        if l == labels then Some(v) else LastValue(q, rows[..|rows| - 1], labels)
      case None => LastValue(q, rows[..|rows| - 1], labels)
  }

  /** Series by series: a label combination some readable row names holds
      the last such row's value; every other series keeps its value. */
  lemma {:induction false} ApplyRowsSeries(
      series: map<map<string, string>, real>, q: Query, rows: seq<Json>, labels: map<string, string>)
    ensures labels in ApplyRows(series, q, rows) <==> labels in series || LastValue(q, rows, labels).Some?
    ensures LastValue(q, rows, labels).Some? ==>
      ApplyRows(series, q, rows)[labels] == LastValue(q, rows, labels).value
    ensures labels in series && LastValue(q, rows, labels).None? ==>
      ApplyRows(series, q, rows)[labels] == series[labels]
    decreases |rows|
  {
    if rows != [] {
      ApplyRowsSeries(series, q, rows[..|rows| - 1], labels);
    }
  }

  /** Processing `a` then `b` is processing `a + b`. */
  lemma {:induction false} ApplyRowsConcat(series: map<map<string, string>, real>, q: Query, a: seq<Json>, b: seq<Json>)
    ensures ApplyRows(series, q, a + b) == ApplyRows(ApplyRows(series, q, a), q, b)
    decreases |b|
  {
    if b == [] {
      assert a + b == a;
    } else {
      assert (a + b)[..|a + b| - 1] == a + b[..|b| - 1];
      assert (a + b)[|a + b| - 1] == b[|b| - 1];
      ApplyRowsConcat(series, q, a, b[..|b| - 1]);
    }
  }

  /** An unreadable row changes nothing: the rows around it are processed as
      if it were not there. */
  lemma FailingRowSkipped(series: map<map<string, string>, real>, q: Query, a: seq<Json>, row: Json, b: seq<Json>)
    requires RowSample(q, row).None?
    ensures ApplyRows(series, q, a + [row] + b) == ApplyRows(series, q, a + b)
  {
    ApplyRowsConcat(series, q, a + [row], b);
    ApplyRowsConcat(series, q, a, b);
    assert (a + [row])[..|a + [row]| - 1] == a;
  }

  /** The example of two rows in different regions. */
  lemma ExampleTwoRegions(q: Query, series: map<map<string, string>, real>)
    requires q.valueField == "value" && q.labelFields == Some(["region"])
    ensures var eu := JObject([("value", JNumber(5.0)), ("region", JString("eu"))]);
            var us := JObject([("value", JNumber(7.0)), ("region", JString("us"))]);
            ApplyRows(series, q, [eu, us]) == series[map["region" := "eu"] := 5.0][map["region" := "us"] := 7.0]
  {
    var eu := JObject([("value", JNumber(5.0)), ("region", JString("eu"))]);
    var us := JObject([("value", JNumber(7.0)), ("region", JString("us"))]);
    assert GetFloat(eu, ["value"]) == Some(5.0);
    assert GetFloat(us, ["value"]) == Some(7.0);
    assert GetString(eu, ["region"]) == Some("eu");
    assert GetString(us, ["region"]) == Some("us");
    assert RowLabels(eu, ["region"]) == Some(map["region" := "eu"]) by {
      assert ["region"][..0] == [];
    }
    assert RowLabels(us, ["region"]) == Some(map["region" := "us"]) by {
      assert ["region"][..0] == [];
    }
    assert RowSample(q, eu) == Some((map["region" := "eu"], 5.0));
    assert RowSample(q, us) == Some((map["region" := "us"], 7.0));
    assert [eu][..0] == [];
    assert ApplyRows(series, q, [eu]) == series[map["region" := "eu"] := 5.0];
    assert [eu, us][..1] == [eu];
  }

  /** The labelled gauge registered for a query, and the series it holds. */
  class QueryMetric {
    const name: string
    const labelNames: seq<string>
    var series: map<map<string, string>, real>

    /** `createMetricObj`: a gauge named after the query with the query's
        label schema, holding no series yet. */
    constructor (q: Query)
      ensures name == MetricName(q) && labelNames == LabelSchema(q)
      ensures series == map[]
    {
      name := MetricPrefix + q.name;
      labelNames := q.labelFields.GetOr([]);
      series := map[];
    }
  }

  /** The loop over the label fields of one row. */
  method ReadLabels(row: Json, fields: seq<string>) returns (labels: Option<map<string, string>>)
    ensures labels == RowLabels(row, fields)
  {
    var labelValues: map<string, string> := map[];
    for k := 0 to |fields|
      invariant RowLabels(row, fields[..k]) == Some(labelValues)
    {
      assert fields[..k + 1][..k] == fields[..k];
      var labelValue := GetString(row, [fields[k]]);
      if labelValue.None? {
        RowLabelsFailurePersists(row, fields, k + 1);
        return None;
      }
      labelValues := labelValues[fields[k] := labelValue.value];
    }
    assert fields[..|fields|] == fields;
    return Some(labelValues);
  }

  /** A label that cannot be read makes the whole row unreadable. */
  lemma RowLabelsFailurePersists(row: Json, fields: seq<string>, n: nat)
    requires n <= |fields| && RowLabels(row, fields[..n]).None?
    ensures RowLabels(row, fields).None?
  {
    var i :| 0 <= i < n && GetString(row, [fields[..n][i]]).None?;
    assert fields[..n][i] == fields[i];
  }

  /** The callback `readAndSetMetrics` runs on one row: the value field,
      then, when the query has a label list, each label in turn. */
  method ReadRow(q: Query, node: Json) returns (sample: Option<(map<string, string>, real)>)
    ensures sample == RowSample(q, node)
  {
    var value := GetFloat(node, [q.valueField]);
    if value.None? {
      return None;
    }
    if q.labelFields.Some? {
      var labelValues := ReadLabels(node, q.labelFields.value);
      if labelValues.None? {
        return None;
      }
      return Some((labelValues.value, value.value));
    }
    return Some((map[], value.value));
  }

  /** `readAndSetMetrics`: processes the rows of the response's `Results`
      array in order. Reports an error when the fetch failed or some row
      could not be read. */
  method ReadAndSetMetrics(q: Query, response: Fetch<Json>, metric: QueryMetric) returns (failed: bool)
    modifies metric
    ensures response.FetchError? ==> failed && metric.series == old(metric.series)
    ensures response.Fetched? ==>
      var rows := ArrayElements(response.doc, ["Results"]);
      metric.series == ApplyRows(old(metric.series), q, rows) && (failed <==> AnyRowFails(q, rows))
  {
    if response.FetchError? {
      return true;
    }
    var rows := ArrayElements(response.doc, ["Results"]);
    ghost var start := metric.series;
    failed := false;
    for i := 0 to |rows|
      invariant metric.series == ApplyRows(start, q, rows[..i])
      invariant failed <==> AnyRowFails(q, rows[..i])
    {
      ApplyRowsStep(start, q, rows, i);
      AnyRowFailsStep(q, rows, i);
      var sample := ReadRow(q, rows[i]);
      if sample.None? {
        failed := true;
      } else {
        metric.series := metric.series[sample.value.0 := sample.value.1];
      }
    }
    assert rows[..|rows|] == rows;
  }

  /** One iteration of `runQueryCollector`: run the query, and when that
      reports an error set the unlabelled series to the fallback value. */
  method RunQueryIteration(q: Query, response: Fetch<Json>, metric: QueryMetric)
    modifies metric
    ensures response.FetchError? ==> metric.series == old(metric.series)[map[] := q.valueOnError]
    ensures response.Fetched? ==>
      var rows := ArrayElements(response.doc, ["Results"]);
      var after := ApplyRows(old(metric.series), q, rows);
      metric.series == if AnyRowFails(q, rows) then after[map[] := q.valueOnError] else after
  {
    var failed := ReadAndSetMetrics(q, response, metric);
    if failed {
      metric.series := metric.series[map[] := q.valueOnError];
    }
  }
}
