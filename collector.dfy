/** The stats exporter: one scrape cycle maps the server's statistics
    documents onto fixed server-wide gauges and counters and onto series
    keyed by database name. */
module Collector {
  import opened Wrappers
  import opened JsonValues
  import opened TimeSpans

  /** One database's entry in a snapshot: its name, its stats document and
      its metrics document. */
  datatype DbStats = DbStats(database: string, databaseStats: Json, metrics: Json)

  /** The documents fetched in one scrape cycle. */
  datatype Stats = Stats(cpu: Json, memory: Json, nodeInfo: Json, metrics: Json, dbStats: seq<DbStats>)

  // ---------------------------------------------------------------------
  // Server-wide extractors. Each reads one fixed key path; a missing or
  // non-numeric value reads as 0 because the library's error is dropped.
  // ---------------------------------------------------------------------

  function MemoryWorkingSet(s: Stats): (r: real)
    ensures NumberOrZero(s.memory, ["WorkingSet"], r)
  {
    GetFloat(s.memory, ["WorkingSet"]).GetOr(0.0)
  }

  /** 1 exactly when the node's cluster state is the string "Leader". */
  function IsLeader(s: Stats): (r: real)
    ensures r == 1.0 <==> Lookup(s.nodeInfo, ["CurrentState"]) == Some(JString("Leader"))
    ensures r == 0.0 || r == 1.0
  {
    if GetString(s.nodeInfo, ["CurrentState"]).GetOr("") == "Leader" then 1.0 else 0.0
  }

  function RequestTotal(s: Stats): (r: real)
    ensures NumberOrZero(s.metrics, ["Requests", "RequestsPerSec", "Count"], r)
  {
    GetFloat(s.metrics, ["Requests", "RequestsPerSec", "Count"]).GetOr(0.0)
  }

  function DocumentPutTotal(s: Stats): (r: real)
    ensures NumberOrZero(s.metrics, ["Docs", "PutsPerSec", "Count"], r)
  {
    GetFloat(s.metrics, ["Docs", "PutsPerSec", "Count"]).GetOr(0.0)
  }

  function DocumentPutBytesTotal(s: Stats): (r: real)
    ensures NumberOrZero(s.metrics, ["Docs", "BytesPutsPerSec", "Count"], r)
  {
    GetFloat(s.metrics, ["Docs", "BytesPutsPerSec", "Count"]).GetOr(0.0)
  }

  /** Reads the mapped (not the indexed) count of the map indexes. */
  function MapIndexIndexedTotal(s: Stats): (r: real)
    ensures NumberOrZero(s.metrics, ["MapIndexes", "MappedPerSec", "Count"], r)
  {
    GetFloat(s.metrics, ["MapIndexes", "MappedPerSec", "Count"]).GetOr(0.0)
  }

  function MapReduceIndexMappedTotal(s: Stats): (r: real)
    ensures NumberOrZero(s.metrics, ["MapReduceIndexes", "MappedPerSec", "Count"], r)
  {
    GetFloat(s.metrics, ["MapReduceIndexes", "MappedPerSec", "Count"]).GetOr(0.0)
  }

  function MapReduceIndexReducedTotal(s: Stats): (r: real)
    ensures NumberOrZero(s.metrics, ["MapReduceIndexes", "ReducedPerSec", "Count"], r)
  {
    GetFloat(s.metrics, ["MapReduceIndexes", "ReducedPerSec", "Count"]).GetOr(0.0)
  }

  // ---------------------------------------------------------------------
  // CPU time: the TotalProcessorTime of the last CpuStats entry.
  // ---------------------------------------------------------------------

  function CpuStatsEntries(s: Stats): seq<Json> {
    ArrayElements(s.cpu, ["CpuStats"])
  }

  /** The text the CPU-time loop is left holding: every entry overwrites it,
      with "" when the entry has no string TotalProcessorTime. */
  function LastProcessorTime(entries: seq<Json>): string {
    if entries == [] then ""
    else GetString(entries[|entries| - 1], ["TotalProcessorTime"]).GetOr("")
  }

  /** The timespan parser only handles text in its grammar: an empty
      CpuStats array, or a last entry without that text, is excluded. */
  predicate CpuTimeParses(s: Stats) {
    Parse(LastProcessorTime(CpuStatsEntries(s))).Some?
  }

  function CpuSeconds(s: Stats): real
    requires CpuTimeParses(s)
  {
    Seconds(Parse(LastProcessorTime(CpuStatsEntries(s))).value)
  }

  /** Only the last entry matters: earlier entries are overwritten. */
  lemma CpuTimeUsesLastEntry(earlier: seq<Json>, other: seq<Json>, last: Json)
    ensures LastProcessorTime(earlier + [last]) == LastProcessorTime(other + [last])
    ensures LastProcessorTime(earlier + [last]) == GetString(last, ["TotalProcessorTime"]).GetOr("")
  {
  }

  /** `getCPUTime`: walks CpuStats keeping the last TotalProcessorTime, then
      converts it to seconds. */
  method GetCpuTime(s: Stats) returns (r: real)
    requires CpuTimeParses(s)
    ensures r == CpuSeconds(s)
  {
    var entries := CpuStatsEntries(s);
    var cpuTimeString := "";
    for i := 0 to |entries|
      invariant cpuTimeString == LastProcessorTime(entries[..i])
    {
      cpuTimeString := GetString(entries[i], ["TotalProcessorTime"]).GetOr("");
      assert entries[..i + 1][i] == entries[i];
    }
    assert entries[..|entries|] == entries;
    r := TimeSpanToSeconds(cpuTimeString);
  }

  // ---------------------------------------------------------------------
  // Per-database extractors.
  // ---------------------------------------------------------------------

  function DatabaseDocuments(d: DbStats): (r: real)
    ensures NumberOrZero(d.databaseStats, ["CountOfDocuments"], r)
  {
    GetFloat(d.databaseStats, ["CountOfDocuments"]).GetOr(0.0)
  }

  function DatabaseIndexes(d: DbStats): (r: real)
    ensures NumberOrZero(d.databaseStats, ["CountOfIndexes"], r)
  {
    GetFloat(d.databaseStats, ["CountOfIndexes"]).GetOr(0.0)
  }

  function DatabaseSize(d: DbStats): (r: real)
    ensures NumberOrZero(d.databaseStats, ["SizeOnDisk", "SizeInBytes"], r)
  {
    GetFloat(d.databaseStats, ["SizeOnDisk", "SizeInBytes"]).GetOr(0.0)
  }

  function DatabaseRequestTotal(d: DbStats): (r: real)
    ensures NumberOrZero(d.metrics, ["Requests", "RequestsPerSec", "Count"], r)
  {
    GetFloat(d.metrics, ["Requests", "RequestsPerSec", "Count"]).GetOr(0.0)
  }

  function DatabaseDocumentPutTotal(d: DbStats): (r: real)
    ensures NumberOrZero(d.metrics, ["Docs", "PutsPerSec", "Count"], r)
  {
    GetFloat(d.metrics, ["Docs", "PutsPerSec", "Count"]).GetOr(0.0)
  }

  function DatabaseDocumentPutBytes(d: DbStats): (r: real)
    ensures NumberOrZero(d.metrics, ["Docs", "BytesPutsPerSec", "Count"], r)
  {
    GetFloat(d.metrics, ["Docs", "BytesPutsPerSec", "Count"]).GetOr(0.0)
  }

  function DatabaseMapIndexIndexedTotal(d: DbStats): (r: real)
    ensures NumberOrZero(d.metrics, ["MapIndexes", "IndexedPerSec", "Count"], r)
  {
    GetFloat(d.metrics, ["MapIndexes", "IndexedPerSec", "Count"]).GetOr(0.0)
  }

  /** Reads the MapIndexes section, not MapReduceIndexes. */
  function DatabaseMapReduceIndexMappedTotal(d: DbStats): (r: real)
    ensures NumberOrZero(d.metrics, ["MapIndexes", "MappedPerSec", "Count"], r)
  {
    GetFloat(d.metrics, ["MapIndexes", "MappedPerSec", "Count"]).GetOr(0.0)
  }

  /** Reads the MapIndexes section, not MapReduceIndexes. */
  function DatabaseMapReduceIndexReducedTotal(d: DbStats): (r: real)
    ensures NumberOrZero(d.metrics, ["MapIndexes", "ReducedPerSec", "Count"], r)
  {
    GetFloat(d.metrics, ["MapIndexes", "ReducedPerSec", "Count"]).GetOr(0.0)
  }

  // ---------------------------------------------------------------------
  // Stale indexes.
  // ---------------------------------------------------------------------

  function IndexEntries(d: DbStats): seq<Json> {
    ArrayElements(d.databaseStats, ["Indexes"])
  }

  /** An index entry counts as stale only when IsStale is the boolean true. */
  predicate IsStale(entry: Json) {
    GetBoolean(entry, ["IsStale"]).GetOr(false)
  }

  function StaleCount(entries: seq<Json>): (n: nat)
    ensures n <= |entries|
  {
    if entries == [] then 0
    else StaleCount(entries[..|entries| - 1]) + (if IsStale(entries[|entries| - 1]) then 1 else 0)
  }

  /** Counting is additive over concatenation. */
  lemma {:induction false} StaleCountAppend(xs: seq<Json>, ys: seq<Json>)
    ensures StaleCount(xs + ys) == StaleCount(xs) + StaleCount(ys)
    decreases |ys|
  {
    if ys == [] {
      assert xs + ys == xs;
    } else {
      var init := ys[..|ys| - 1];
      assert (xs + ys)[..|xs + ys| - 1] == xs + init;
      assert (xs + ys)[|xs + ys| - 1] == ys[|ys| - 1];
      StaleCountAppend(xs, init);
    }
  }

  /** No entry is stale exactly when the count is 0. */
  lemma {:induction false} StaleCountZero(entries: seq<Json>)
    ensures StaleCount(entries) == 0 <==> forall i | 0 <= i < |entries| :: !IsStale(entries[i])
    decreases |entries|
  {
    if entries != [] {
      var init := entries[..|entries| - 1];
      StaleCountZero(init);
      assert forall i | 0 <= i < |init| :: init[i] == entries[i];
    }
  }

  /** Every entry is stale exactly when the count is the number of entries. */
  lemma {:induction false} StaleCountAll(entries: seq<Json>)
    ensures StaleCount(entries) == |entries| <==> forall i | 0 <= i < |entries| :: IsStale(entries[i])
    decreases |entries|
  {
    if entries != [] {
      var init := entries[..|entries| - 1];
      StaleCountAll(init);
      assert forall i | 0 <= i < |init| :: init[i] == entries[i];
    }
  }

  /** `getDatabaseStaleIndexes`: counts the entries of Indexes whose IsStale
      is true; none when Indexes is missing. */
  method DatabaseStaleIndexes(d: DbStats) returns (r: real)
    ensures r == StaleCount(IndexEntries(d)) as real
    ensures 0.0 <= r <= |IndexEntries(d)| as real
  {
    var entries := IndexEntries(d);
    var count: nat := 0;
    for i := 0 to |entries|
      invariant count == StaleCount(entries[..i])
    {
      if GetBoolean(entries[i], ["IsStale"]).GetOr(false) {
        count := count + 1;
      }
      assert entries[..i + 1][..i] == entries[..i];
    }
    assert entries[..|entries|] == entries;
    r := count as real;
  }

  /** The stale-index gauge's value for one database, as a function. */
  function StaleIndexes(d: DbStats): real {
    StaleCount(IndexEntries(d)) as real
  }

  /** Three indexes, one of them stale, give 1. */
  lemma ExampleOneStaleOfThree(a: Json, b: Json)
    requires !IsStale(a) && !IsStale(b)
    ensures StaleCount([a, JObject([("IsStale", JBool(true))]), b]) == 1
  {
    var stale := JObject([("IsStale", JBool(true))]);
    assert Member(stale.members, "IsStale") == Some(JBool(true));
    assert Lookup(stale, ["IsStale"]) == Some(JBool(true));
    assert IsStale(stale);
    assert [a, stale, b][..2] == [a, stale];
    assert [a, stale][..1] == [a];
    assert [a][..0] == [];
    assert StaleCount([a]) == 0;
    assert StaleCount([a, stale]) == 1;
  }

  // ---------------------------------------------------------------------
  // Series keyed by database name.
  // ---------------------------------------------------------------------

  /** The last entry of the snapshot for database `name`. */
  function LastWith(dbs: seq<DbStats>, name: string): (r: Option<DbStats>)
    ensures r.None? <==> forall j | 0 <= j < |dbs| :: dbs[j].database != name
    ensures r.Some? ==> r.value.database == name
  {
    if dbs == [] then None
    else if dbs[|dbs| - 1].database == name then Some(dbs[|dbs| - 1])
    else
      assert forall j | 0 <= j < |dbs| - 1 :: dbs[..|dbs| - 1][j] == dbs[j];
      LastWith(dbs[..|dbs| - 1], name)
  }

  /** The entry found is the last one of the snapshot carrying the name:
      a later entry for the same database overwrites an earlier one. */
  lemma {:induction false} LastWithIsLast(dbs: seq<DbStats>, name: string)
    requires LastWith(dbs, name).Some?
    ensures exists i | 0 <= i < |dbs| ::
      dbs[i] == LastWith(dbs, name).value && forall j | i < j < |dbs| :: dbs[j].database != name
    decreases |dbs|
  {
    var last := |dbs| - 1;
    if dbs[last].database != name {
      var init := dbs[..last];
      LastWithIsLast(init, name);
      var i :| 0 <= i < |init| && init[i] == LastWith(init, name).value
        && forall j | i < j < |init| :: init[j].database != name;
      assert dbs[i] == init[i];
      forall j | i < j < |dbs| ensures dbs[j].database != name {
        if j < last { assert dbs[j] == init[j]; }
      }
    } else {
      assert dbs[last] == LastWith(dbs, name).value;
    }
  }

  /** The database names of a snapshot. */
  function Names(dbs: seq<DbStats>): set<string> {
    if dbs == [] then {} else Names(dbs[..|dbs| - 1]) + {dbs[|dbs| - 1].database}
  }

  /** A name is among the snapshot's names exactly when some entry carries it. */
  lemma {:induction false} NamesListed(dbs: seq<DbStats>, name: string)
    ensures name in Names(dbs) <==> LastWith(dbs, name).Some?
    decreases |dbs|
  {
    if dbs != [] {
      NamesListed(dbs[..|dbs| - 1], name);
    }
  }

  /** The sum of `f` over the snapshot's entries for database `name`. */
  function Total(dbs: seq<DbStats>, name: string, f: DbStats -> real): real {
    if dbs == [] then 0.0
    else Total(dbs[..|dbs| - 1], name, f) + (if dbs[|dbs| - 1].database == name then f(dbs[|dbs| - 1]) else 0.0)
  }

  /** After setting a gauge vector from the snapshot: the series of a listed
      database holds `f` of its (last) entry, other series keep their value. */
  ghost predicate GaugeUpdated(before: map<string, real>, after: map<string, real>, dbs: seq<DbStats>, f: DbStats -> real) {
    && (forall name :: name in after <==> name in before || LastWith(dbs, name).Some?)
    && (forall name | name in after && LastWith(dbs, name).Some? :: after[name] == f(LastWith(dbs, name).value))
    && (forall name | name in before && LastWith(dbs, name).None? :: after[name] == before[name])
  }

  /** After adding to a counter vector from the snapshot: the series of a
      listed database grew by `f` of its entries (starting from 0 for a new
      series), other series keep their value. */
  ghost predicate CounterUpdated(before: map<string, real>, after: map<string, real>, dbs: seq<DbStats>, f: DbStats -> real) {
    && (forall name :: name in after <==> name in before || LastWith(dbs, name).Some?)
    && (forall name | name in after && LastWith(dbs, name).Some? ::
          after[name] == (if name in before then before[name] else 0.0) + Total(dbs, name, f))
    && (forall name | name in before && LastWith(dbs, name).None? :: after[name] == before[name])
  }

  /** The gauge vector after setting, entry by entry, each listed
      database's series to `f` of its entry. */
  function GaugeAfter(before: map<string, real>, dbs: seq<DbStats>, f: DbStats -> real): map<string, real>
  {
    if dbs == [] then before
    else
      var d := dbs[|dbs| - 1];
      GaugeAfter(before, dbs[..|dbs| - 1], f)[d.database := f(d)]
  }

  /** The counter vector after adding, entry by entry, `f` of each entry to
      its database's series (a new series starts from 0). */
  function CounterAfter(before: map<string, real>, dbs: seq<DbStats>, f: DbStats -> real): map<string, real>
  {
    if dbs == [] then before
    else
      var d := dbs[|dbs| - 1];
      var m := CounterAfter(before, dbs[..|dbs| - 1], f);
      m[d.database := (if d.database in m then m[d.database] else 0.0) + f(d)]
  }

  /** The gauge series after a snapshot are the old ones plus one per listed database. */
  lemma {:induction false} GaugeAfterKeys(before: map<string, real>, dbs: seq<DbStats>, f: DbStats -> real)
    ensures GaugeAfter(before, dbs, f).Keys == before.Keys + Names(dbs)
    decreases |dbs|
  {
    if dbs != [] {
      GaugeAfterKeys(before, dbs[..|dbs| - 1], f);
    }
  }

  /** The counter series after a snapshot are the old ones plus one per listed database. */
  lemma {:induction false} CounterAfterKeys(before: map<string, real>, dbs: seq<DbStats>, f: DbStats -> real)
    ensures CounterAfter(before, dbs, f).Keys == before.Keys + Names(dbs)
    decreases |dbs|
  {
    if dbs != [] {
      CounterAfterKeys(before, dbs[..|dbs| - 1], f);
    }
  }

  /** Setting the gauges from a snapshot touches exactly the listed databases. */
  lemma {:induction false} GaugeAfterUpdates(before: map<string, real>, dbs: seq<DbStats>, f: DbStats -> real)
    ensures GaugeUpdated(before, GaugeAfter(before, dbs, f), dbs, f)
    decreases |dbs|
  {
    if dbs != [] {
      GaugeAfterUpdates(before, dbs[..|dbs| - 1], f);
    }
  }

  /** Adding to the counters from a snapshot touches exactly the listed databases. */
  lemma {:induction false} CounterAfterUpdates(before: map<string, real>, dbs: seq<DbStats>, f: DbStats -> real)
    ensures CounterUpdated(before, CounterAfter(before, dbs, f), dbs, f)
    decreases |dbs|
  {
    if dbs != [] {
      var init := dbs[..|dbs| - 1];
      var d := dbs[|dbs| - 1];
      CounterAfterUpdates(before, init, f);
      var m := CounterAfter(before, init, f);
      var after := CounterAfter(before, dbs, f);
      assert (if d.database in m then m[d.database] else 0.0)
        == (if d.database in before then before[d.database] else 0.0) + Total(init, d.database, f) by {
        if LastWith(init, d.database).None? {
          TotalUnlisted(init, d.database, f);
        }
      }
      forall name | name in after && LastWith(dbs, name).Some?
        ensures after[name] == (if name in before then before[name] else 0.0) + Total(dbs, name, f)
      {
        if name != d.database {
          assert LastWith(dbs, name) == LastWith(init, name);
          assert Total(dbs, name, f) == Total(init, name, f);
        }
      }
      forall name | name in before && LastWith(dbs, name).None?
        ensures after[name] == before[name]
      {
        assert name != d.database;
        assert LastWith(dbs, name) == LastWith(init, name);
      }
    }
  }

  /** One more entry sets its database's gauge series. */
  lemma GaugeAfterStep(before: map<string, real>, dbs: seq<DbStats>, i: nat, f: DbStats -> real)
    requires i < |dbs|
    ensures GaugeAfter(before, dbs[..i + 1], f) == GaugeAfter(before, dbs[..i], f)[dbs[i].database := f(dbs[i])]
  {
    assert dbs[..i + 1][..i] == dbs[..i];
    assert dbs[..i + 1][i] == dbs[i];
  }

  /** One more entry adds to its database's counter series, a new one starting from 0. */
  lemma CounterAfterStep(before: map<string, real>, dbs: seq<DbStats>, i: nat, f: DbStats -> real)
    requires i < |dbs|
    ensures var m := CounterAfter(before, dbs[..i], f);
      CounterAfter(before, dbs[..i + 1], f)
        == m[dbs[i].database := (if dbs[i].database in m then m[dbs[i].database] else 0.0) + f(dbs[i])]
  {
    assert dbs[..i + 1][..i] == dbs[..i];
    assert dbs[..i + 1][i] == dbs[i];
  }

  /** `collectPerDatabaseGauge`: sets the series of every listed database. */
  method CollectPerDatabaseGauge(vec: map<string, real>, dbs: seq<DbStats>, f: DbStats -> real)
    returns (r: map<string, real>)
    ensures r == GaugeAfter(vec, dbs, f)
  {
    r := vec;
    for i := 0 to |dbs|
      invariant r == GaugeAfter(vec, dbs[..i], f)
    {
      GaugeAfterStep(vec, dbs, i, f);
      r := r[dbs[i].database := f(dbs[i])];
    }
    assert dbs[..|dbs|] == dbs;
  }

  /** `collectPerDatabaseCounter`: adds to the series of every listed database. */
  method CollectPerDatabaseCounter(vec: map<string, real>, dbs: seq<DbStats>, f: DbStats -> real)
    returns (r: map<string, real>)
    ensures r == CounterAfter(vec, dbs, f)
  {
    r := vec;
    for i := 0 to |dbs|
      invariant r == CounterAfter(vec, dbs[..i], f)
    {
      CounterAfterStep(vec, dbs, i, f);
      var current := if dbs[i].database in r then r[dbs[i].database] else 0.0;
      r := r[dbs[i].database := current + f(dbs[i])];
    }
    assert dbs[..|dbs|] == dbs;
  }

  predicate DistinctNames(dbs: seq<DbStats>) {
    forall i, j | 0 <= i < j < |dbs| :: dbs[i].database != dbs[j].database
  }

  /** With distinct names, an entry is the last (and only) one for its name. */
  lemma {:induction false} LastWithDistinct(dbs: seq<DbStats>, i: nat)
    requires DistinctNames(dbs) && i < |dbs|
    ensures LastWith(dbs, dbs[i].database) == Some(dbs[i])
    decreases |dbs|
  {
    if i < |dbs| - 1 {
      var init := dbs[..|dbs| - 1];
      assert init[i] == dbs[i];
      LastWithDistinct(init, i);
    }
  }

  /** With distinct names, a database's total is `f` of its one entry. */
  lemma {:induction false} TotalDistinct(dbs: seq<DbStats>, i: nat, f: DbStats -> real)
    requires DistinctNames(dbs) && i < |dbs|
    ensures Total(dbs, dbs[i].database, f) == f(dbs[i])
    decreases |dbs|
  {
    var init := dbs[..|dbs| - 1];
    if i < |dbs| - 1 {
      assert init[i] == dbs[i];
      TotalDistinct(init, i, f);
    } else {
      TotalUnlisted(init, dbs[i].database, f);
    }
  }

  /** A database not in the snapshot receives nothing. */
  lemma {:induction false} TotalUnlisted(dbs: seq<DbStats>, name: string, f: DbStats -> real)
    requires forall j | 0 <= j < |dbs| :: dbs[j].database != name
    ensures Total(dbs, name, f) == 0.0
    decreases |dbs|
  {
    if dbs != [] {
      var init := dbs[..|dbs| - 1];
      assert forall j | 0 <= j < |init| :: init[j] == dbs[j];
      TotalUnlisted(init, name, f);
    }
  }

  /** With distinct names, each listed database's gauge holds its extracted value. */
  lemma GaugeOfListedDatabase(before: map<string, real>, after: map<string, real>, dbs: seq<DbStats>, f: DbStats -> real, i: nat)
    requires GaugeUpdated(before, after, dbs, f)
    requires DistinctNames(dbs) && i < |dbs|
    ensures dbs[i].database in after && after[dbs[i].database] == f(dbs[i])
  {
    LastWithDistinct(dbs, i);
  }

  /** With distinct names, each listed database's counter grew by exactly its extracted value. */
  lemma CounterOfListedDatabase(before: map<string, real>, after: map<string, real>, dbs: seq<DbStats>, f: DbStats -> real, i: nat)
    requires CounterUpdated(before, after, dbs, f)
    requires DistinctNames(dbs) && i < |dbs|
    ensures dbs[i].database in after
    ensures after[dbs[i].database] ==
      (if dbs[i].database in before then before[dbs[i].database] else 0.0) + f(dbs[i])
  {
    LastWithDistinct(dbs, i);
    TotalDistinct(dbs, i, f);
  }

  /** The gauge update is deterministic: it fixes the whole new vector. */
  lemma GaugeUpdateUnique(before: map<string, real>, a: map<string, real>, b: map<string, real>, dbs: seq<DbStats>, f: DbStats -> real)
    requires GaugeUpdated(before, a, dbs, f) && GaugeUpdated(before, b, dbs, f)
    ensures a == b
  {
    assert a.Keys == b.Keys;
    forall name | name in a ensures a[name] == b[name] {
      if LastWith(dbs, name).None? { assert name in before; }
    }
  }

  /** A snapshot without databases creates and changes no series. */
  lemma EmptySnapshotLeavesSeries(before: map<string, real>, g: map<string, real>, c: map<string, real>, f: DbStats -> real)
    requires GaugeUpdated(before, g, [], f) && CounterUpdated(before, c, [], f)
    ensures g == before && c == before
  {
    assert g.Keys == before.Keys && c.Keys == before.Keys;
  }

  // ---------------------------------------------------------------------
  // The exporter.
  // ---------------------------------------------------------------------

  /** The values of the ten server-wide metrics: `up`, `workingSet` and
      `isLeader` are gauges, the others counters. */
  datatype ServerMetrics = ServerMetrics(
    up: real, workingSet: real, cpuTime: real, isLeader: real,
    requestTotal: real, documentPutTotal: real, documentPutBytes: real,
    mapIndexIndexedTotal: real, mapReduceIndexMappedTotal: real, mapReduceIndexReducedTotal: real)

  /** The series of the ten per-database vectors, keyed by the `database`
      label: four gauge vectors, then six counter vectors. */
  datatype DatabaseMetrics = DatabaseMetrics(
    databaseDocuments: map<string, real>, databaseIndexes: map<string, real>,
    databaseStaleIndexes: map<string, real>, databaseSize: map<string, real>,
    databaseRequestTotal: map<string, real>, databaseDocumentPutTotal: map<string, real>,
    databaseDocumentPutBytes: map<string, real>, databaseMapIndexIndexedTotal: map<string, real>,
    databaseMapReduceIndexMappedTotal: map<string, real>, databaseMapReduceIndexReducedTotal: map<string, real>)

  /** The server-wide part of a successful scrape: `up` becomes 1, the
      gauges take the fresh reading, and the counters grow by it. */
  method CollectServerMetrics(m: ServerMetrics, s: Stats) returns (r: ServerMetrics)
    requires CpuTimeParses(s)
    ensures r.up == 1.0
    ensures r.workingSet == MemoryWorkingSet(s) && r.isLeader == IsLeader(s)
    ensures r.cpuTime == m.cpuTime + CpuSeconds(s)
    ensures r.requestTotal == m.requestTotal + RequestTotal(s)
    ensures r.documentPutTotal == m.documentPutTotal + DocumentPutTotal(s)
    ensures r.documentPutBytes == m.documentPutBytes + DocumentPutBytesTotal(s)
    ensures r.mapIndexIndexedTotal == m.mapIndexIndexedTotal + MapIndexIndexedTotal(s)
    ensures r.mapReduceIndexMappedTotal == m.mapReduceIndexMappedTotal + MapReduceIndexMappedTotal(s)
    ensures r.mapReduceIndexReducedTotal == m.mapReduceIndexReducedTotal + MapReduceIndexReducedTotal(s)
  {
    var cpu := GetCpuTime(s);
    r := ServerMetrics(
      1.0, MemoryWorkingSet(s), m.cpuTime + cpu, IsLeader(s),
      m.requestTotal + RequestTotal(s),
      m.documentPutTotal + DocumentPutTotal(s),
      m.documentPutBytes + DocumentPutBytesTotal(s),
      m.mapIndexIndexedTotal + MapIndexIndexedTotal(s),
      m.mapReduceIndexMappedTotal + MapReduceIndexMappedTotal(s),
      m.mapReduceIndexReducedTotal + MapReduceIndexReducedTotal(s));
  }

  /** The per-database part of a successful scrape: the ten
      `collectPerDatabaseGauge`/`collectPerDatabaseCounter` calls. */
  method CollectDatabaseMetrics(m: DatabaseMetrics, dbs: seq<DbStats>) returns (r: DatabaseMetrics)
    ensures r.databaseDocuments == GaugeAfter(m.databaseDocuments, dbs, DatabaseDocuments)
    ensures r.databaseIndexes == GaugeAfter(m.databaseIndexes, dbs, DatabaseIndexes)
    ensures r.databaseStaleIndexes == GaugeAfter(m.databaseStaleIndexes, dbs, StaleIndexes)
    ensures r.databaseSize == GaugeAfter(m.databaseSize, dbs, DatabaseSize)
    ensures r.databaseRequestTotal == CounterAfter(m.databaseRequestTotal, dbs, DatabaseRequestTotal)
    ensures r.databaseDocumentPutTotal == CounterAfter(m.databaseDocumentPutTotal, dbs, DatabaseDocumentPutTotal)
    ensures r.databaseDocumentPutBytes == CounterAfter(m.databaseDocumentPutBytes, dbs, DatabaseDocumentPutBytes)
    ensures r.databaseMapIndexIndexedTotal
      == CounterAfter(m.databaseMapIndexIndexedTotal, dbs, DatabaseMapIndexIndexedTotal)
    ensures r.databaseMapReduceIndexMappedTotal
      == CounterAfter(m.databaseMapReduceIndexMappedTotal, dbs, DatabaseMapReduceIndexMappedTotal)
    ensures r.databaseMapReduceIndexReducedTotal
      == CounterAfter(m.databaseMapReduceIndexReducedTotal, dbs, DatabaseMapReduceIndexReducedTotal)
  {
    var documents := CollectPerDatabaseGauge(m.databaseDocuments, dbs, DatabaseDocuments);
    var indexes := CollectPerDatabaseGauge(m.databaseIndexes, dbs, DatabaseIndexes);
    var staleIndexes := CollectPerDatabaseGauge(m.databaseStaleIndexes, dbs, StaleIndexes);
    var size := CollectPerDatabaseGauge(m.databaseSize, dbs, DatabaseSize);
    var requests := CollectPerDatabaseCounter(m.databaseRequestTotal, dbs, DatabaseRequestTotal);
    var putBytes := CollectPerDatabaseCounter(m.databaseDocumentPutBytes, dbs, DatabaseDocumentPutBytes);
    var puts := CollectPerDatabaseCounter(m.databaseDocumentPutTotal, dbs, DatabaseDocumentPutTotal);
    var mapIndexed := CollectPerDatabaseCounter(m.databaseMapIndexIndexedTotal, dbs, DatabaseMapIndexIndexedTotal);
    var mapped := CollectPerDatabaseCounter(m.databaseMapReduceIndexMappedTotal, dbs, DatabaseMapReduceIndexMappedTotal);
    var reduced := CollectPerDatabaseCounter(m.databaseMapReduceIndexReducedTotal, dbs, DatabaseMapReduceIndexReducedTotal);
    r := DatabaseMetrics(documents, indexes, staleIndexes, size, requests, puts, putBytes, mapIndexed, mapped, reduced);
  }

  /** The exporter and the values its Prometheus metrics hold between scrapes. */
  class Exporter {
    var server: ServerMetrics
    var databases: DatabaseMetrics

    /** `newExporter`: every metric starts at 0, no per-database series. */
    constructor ()
      ensures server == ServerMetrics(0.0, 0.0, 0.0, 0.0, 0.0, 0.0, 0.0, 0.0, 0.0, 0.0)
      ensures databases == DatabaseMetrics(map[], map[], map[], map[], map[], map[], map[], map[], map[], map[])
    {
      server := ServerMetrics(0.0, 0.0, 0.0, 0.0, 0.0, 0.0, 0.0, 0.0, 0.0, 0.0);
      databases := DatabaseMetrics(map[], map[], map[], map[], map[], map[], map[], map[], map[], map[]);
    }

    /** `Collect`: one scrape cycle on the result of fetching the stats. */
    method Collect(fetched: Fetch<Stats>)
      requires fetched.Fetched? ==> CpuTimeParses(fetched.doc)
      modifies this
      // A failed fetch sets `up` to 0 and leaves every other metric alone.
      ensures fetched.FetchError? ==>
        server == old(server).(up := 0.0) && databases == old(databases)
      // On success gauges are overwritten and counters grow by the fresh reading.
      ensures fetched.Fetched? ==>
        var s, was := fetched.doc, old(server);
        && server.up == 1.0
        && server.workingSet == MemoryWorkingSet(s)
        && server.isLeader == IsLeader(s)
        && server.cpuTime == was.cpuTime + CpuSeconds(s)
        && server.requestTotal == was.requestTotal + RequestTotal(s)
        && server.documentPutTotal == was.documentPutTotal + DocumentPutTotal(s)
        && server.documentPutBytes == was.documentPutBytes + DocumentPutBytesTotal(s)
        && server.mapIndexIndexedTotal == was.mapIndexIndexedTotal + MapIndexIndexedTotal(s)
        && server.mapReduceIndexMappedTotal == was.mapReduceIndexMappedTotal + MapReduceIndexMappedTotal(s)
        && server.mapReduceIndexReducedTotal == was.mapReduceIndexReducedTotal + MapReduceIndexReducedTotal(s)
      ensures fetched.Fetched? ==>
        var dbs, was := fetched.doc.dbStats, old(databases);
        && databases.databaseDocuments == GaugeAfter(was.databaseDocuments, dbs, DatabaseDocuments)
        && databases.databaseIndexes == GaugeAfter(was.databaseIndexes, dbs, DatabaseIndexes)
        && databases.databaseStaleIndexes == GaugeAfter(was.databaseStaleIndexes, dbs, StaleIndexes)
        && databases.databaseSize == GaugeAfter(was.databaseSize, dbs, DatabaseSize)
        && databases.databaseRequestTotal == CounterAfter(was.databaseRequestTotal, dbs, DatabaseRequestTotal)
        && databases.databaseDocumentPutTotal == CounterAfter(was.databaseDocumentPutTotal, dbs, DatabaseDocumentPutTotal)
        && databases.databaseDocumentPutBytes == CounterAfter(was.databaseDocumentPutBytes, dbs, DatabaseDocumentPutBytes)
        && databases.databaseMapIndexIndexedTotal
           == CounterAfter(was.databaseMapIndexIndexedTotal, dbs, DatabaseMapIndexIndexedTotal)
        && databases.databaseMapReduceIndexMappedTotal
           == CounterAfter(was.databaseMapReduceIndexMappedTotal, dbs, DatabaseMapReduceIndexMappedTotal)
        && databases.databaseMapReduceIndexReducedTotal
           == CounterAfter(was.databaseMapReduceIndexReducedTotal, dbs, DatabaseMapReduceIndexReducedTotal)
    {
      if fetched.FetchError? {
        server := server.(up := 0.0);
      } else {
        var s := fetched.doc;
        server := CollectServerMetrics(server, s);
        databases := CollectDatabaseMetrics(databases, s.dbStats);
      }
    }
  }
}
