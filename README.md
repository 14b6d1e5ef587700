# ravendb_exporter in Dafny

A model of the two sequential cores of `ravendb_exporter`, a Prometheus
exporter for RavenDB, with proofs of what each scrape or query cycle does to
the metric state.

- **Stats exporter** (`collector.go`). One scrape cycle fetches the server's
  statistics documents. If the fetch fails, only `up` changes, to 0. If it
  succeeds:
  - `up` becomes 1;
  - the gauges are overwritten with freshly extracted values;
  - the counters grow by exactly the extracted values;
  - the ten per-database series families are set or increased, one series
    per database entry of the snapshot.

  The extractors read fixed JSON key paths, and a missing or non-numeric
  value reads as 0. The stale-index gauge counts the index entries whose
  `IsStale` is the boolean true. The CPU time is the last `TotalProcessorTime`
  of `CpuStats`, parsed as a .NET timespan `[d.]hh:mm:ss[.fffffff]` into
  seconds.
- **Query subsystem** (`fromQueryCollector.go`).
  - Query definitions are loaded from the `.yml` files of a directory listing.
    The load stops at the first unreadable file or invalid definition.
  - Each query owns a labelled gauge named `ravendb_queryresult_<name>`. One
    collection cycle sets one series per readable row of the `Results`
    array. When the fetch fails or any row is unreadable, the cycle also sets
    the unlabelled series to the query's `ValueOnError`.

Files:

- `wrappers.dfy`: `Option`, `Result`, and `Fetch` (the outcome of an HTTP
  request).
- `json.dfy`: an abstract JSON document and the jsonparser reads
  (`GetFloat`, `GetString`, `GetBoolean`, `ArrayEach`). A value of the wrong
  type counts as absent. The source's `value, _ :=` pattern becomes
  `GetOr(zero)`.
- `timespan.dfy`: the timespan grammar as a matcher over digit strings, with
  `matchNamedGroups` and `timeSpanToSeconds` as methods.
- `collector.dfy`:
  - the extractors;
  - the per-database loops;
  - the `Exporter` class, whose `Collect` updates the metric state in place.
- `queries.dfy`:
  - the `Query` record and the directory loader;
  - the row loop of `readAndSetMetrics`;
  - the `QueryMetric` class;
  - one iteration of `runQueryCollector`.

Inputs that the source gets from the outside world are parameters of the
model:
- the fetched stats document, or a fetch error;
- the directory listing, with each file's decoded definitions (or a read or
  decode failure);
- the query response document, or a fetch error.

Where the code and the system's documentation disagree, the model follows the
code:
- The documentation says a CPU-time text that does not match yields 0. In
  the code, a text with no match at all makes `matchNamedGroups` index the
  nil result of `FindStringSubmatch`, which panics. A text that only
  contains a match somewhere yields the value of its first match. The model
  handles neither case: the parser and its callers require a text that is
  wholly in the grammar.
- The documentation says an unreadable query row aborts the whole row set.
  In the code, the `return` leaves only that row's callback, so later rows
  are still processed. The error is still reported.

## Model

| member | source | states |
|---|---|---|
| Collector.Exporter.constructor | collector.go:41-66 | every gauge and counter starts at 0 and no per-database series exists |
| Collector.Exporter.Collect | collector.go:92-145 | on a failed fetch `up` becomes 0 and every other metric and series is unchanged; on success `up` is 1, the gauges hold the fresh readings, every counter equals its old value plus the fresh reading, and the ten vectors are the gauge/counter updates of the snapshot |
| Collector.CollectServerMetrics | collector.go:100-129 | the server-wide part of a successful scrape: `up` is 1, `workingSet` and `isLeader` are overwritten, the seven counters are incremented by exactly the extracted value |
| Collector.CollectDatabaseMetrics | collector.go:131-142 | each of the four gauge vectors is the gauge update and each of the six counter vectors the counter update of the snapshot, with the extractor the source passes for it |
| Collector.CollectPerDatabaseGauge | collector.go:147-152 | the loop over the snapshot yields the vector with each entry's series set in order (`GaugeAfter`) |
| Collector.CollectPerDatabaseCounter | collector.go:154-159 | the loop over the snapshot yields the vector with each entry's value added to its series, a new series starting at 0 (`CounterAfter`) |
| Collector.GaugeAfterUpdates | collector.go:147-152 | after the gauge update a series exists exactly for the old series and the listed databases; a listed database holds the value of its last entry, an unlisted one keeps its value |
| Collector.CounterAfterUpdates | collector.go:154-159 | after the counter update a series exists exactly for the old series and the listed databases; a listed database's series grew by the sum over its entries, an unlisted one keeps its value |
| Collector.LastWith | collector.go:148-149 | the entry for a name is absent exactly when no snapshot entry carries that name, and otherwise carries it |
| Collector.LastWithIsLast | collector.go:148-149 | the entry found is the last entry of the snapshot carrying the name, so a later entry for a database overwrites an earlier one |
| Collector.GaugeAfterKeys | collector.go:148-149 | after setting the gauges entry by entry, the series are exactly the old series plus the names of the snapshot's databases |
| Collector.CounterAfterKeys | collector.go:155-156 | after adding to the counters entry by entry, the series are exactly the old series plus the names of the snapshot's databases |
| Collector.NamesListed | collector.go:147-159 | a name is among the snapshot's database names exactly when some entry of the snapshot carries it |
| Collector.GaugeAfterStep | collector.go:148-149 | one more entry sets its database's gauge series to that entry's value and leaves the rest of the vector as it was |
| Collector.CounterAfterStep | collector.go:155-156 | one more entry adds its value to its database's counter series, a new series starting from 0, and leaves the rest of the vector as it was |
| Collector.LastWithDistinct | collector.go:148-149 | with distinct database names each entry is the last one for its name |
| Collector.TotalDistinct | collector.go:155-156 | with distinct names a database's added amount is its single entry's value |
| Collector.TotalUnlisted | collector.go:155-156 | a database absent from the snapshot receives nothing |
| Collector.GaugeOfListedDatabase | collector.go:147-152 | with distinct names every listed database's gauge series equals its extracted value |
| Collector.CounterOfListedDatabase | collector.go:154-159 | with distinct names every listed database's counter series is its old value (0 when new) plus its extracted value |
| Collector.GaugeUpdateUnique | collector.go:147-152 | the gauge-update relation determines the new vector uniquely |
| Collector.EmptySnapshotLeavesSeries | collector.go:147-159 | a snapshot without databases leaves every gauge and counter vector as it was |
| Collector.MemoryWorkingSet | collector.go:170-173 | the number at `WorkingSet`, or 0 when it is missing or not a number |
| Collector.IsLeader | collector.go:175-181 | 1 exactly when `CurrentState` is the string "Leader", otherwise 0 (also when missing) |
| Collector.RequestTotal | collector.go:183-186 | the number at `Requests.RequestsPerSec.Count`, or 0 |
| Collector.DocumentPutTotal | collector.go:188-191 | the number at `Docs.PutsPerSec.Count`, or 0 |
| Collector.DocumentPutBytesTotal | collector.go:193-196 | the number at `Docs.BytesPutsPerSec.Count`, or 0 |
| Collector.MapIndexIndexedTotal | collector.go:198-201 | the number at `MapIndexes.MappedPerSec.Count` (the mapped figure), or 0 |
| Collector.MapReduceIndexMappedTotal | collector.go:203-206 | the number at `MapReduceIndexes.MappedPerSec.Count`, or 0 |
| Collector.MapReduceIndexReducedTotal | collector.go:208-211 | the number at `MapReduceIndexes.ReducedPerSec.Count`, or 0 |
| Collector.CpuTimeUsesLastEntry | collector.go:161-168 | the CPU-time text depends only on the last `CpuStats` entry, which overwrites the text even without a `TotalProcessorTime` |
| Collector.GetCpuTime | collector.go:161-168 | the loop leaves the last entry's text and the result is that timespan in seconds |
| Collector.DatabaseDocuments | collector.go:213-216 | the number at `CountOfDocuments`, or 0 |
| Collector.DatabaseIndexes | collector.go:218-221 | the number at `CountOfIndexes`, or 0 |
| Collector.DatabaseStaleIndexes | collector.go:223-232 | the count of `Indexes` entries whose `IsStale` is boolean true, between 0 and the number of entries (0 when `Indexes` is missing) |
| Collector.StaleCount | collector.go:225-229 | the number of stale entries is at most the number of entries |
| Collector.StaleCountAppend | collector.go:225-229 | counting stale entries is additive over concatenation |
| Collector.StaleCountZero | collector.go:225-229 | the count is 0 exactly when no entry is stale |
| Collector.StaleCountAll | collector.go:225-229 | the count equals the number of entries exactly when every entry is stale |
| Collector.ExampleOneStaleOfThree | collector.go:223-232 | three entries of which one has `IsStale: true` count 1 |
| Collector.DatabaseSize | collector.go:234-237 | the number at `SizeOnDisk.SizeInBytes`, or 0 |
| Collector.DatabaseRequestTotal | collector.go:239-242 | the number at `Requests.RequestsPerSec.Count` of the database metrics, or 0 |
| Collector.DatabaseDocumentPutTotal | collector.go:244-247 | the number at `Docs.PutsPerSec.Count`, or 0 |
| Collector.DatabaseDocumentPutBytes | collector.go:249-252 | the number at `Docs.BytesPutsPerSec.Count`, or 0 |
| Collector.DatabaseMapIndexIndexedTotal | collector.go:254-257 | the number at `MapIndexes.IndexedPerSec.Count`, or 0 |
| Collector.DatabaseMapReduceIndexMappedTotal | collector.go:259-262 | the number at `MapIndexes.MappedPerSec.Count` (the map-index section), or 0 |
| Collector.DatabaseMapReduceIndexReducedTotal | collector.go:264-267 | the number at `MapIndexes.ReducedPerSec.Count` (the map-index section), or 0 |
| JsonValues.Member | collector.go:171 | a key is missing exactly when no member of the object carries it |
| JsonValues.MemberIsFirst | collector.go:171 | a found member is the first one in document order carrying the key |
| JsonValues.LookupConcat | collector.go:184 | following a multi-key path is following its first keys, then the rest from there |
| TimeSpans.Atoi | collector.go:313 | the empty text is a syntax error; a non-empty digit string yields its decimal value; a negative sign gives a value of at most 0 |
| TimeSpans.AtoiOrZero | collector.go:312-330 | with the error discarded, a digit string (possibly the empty text of an unmatched group) yields its value, 0 for the empty text |
| TimeSpans.Parse | collector.go:305 | whatever the matcher accepts has digit-only groups, two-digit clock fields and a fraction of none or exactly seven digits |
| TimeSpans.ParseSound | collector.go:305 | an accepted text is exactly the text of the timespan it parses to |
| TimeSpans.ParseFormat | collector.go:305 | the text of every well-formed timespan parses back to it |
| TimeSpans.FractionBelowOneSecond | collector.go:328-331 | the fraction adds at least 0 and less than one second to the whole seconds |
| TimeSpans.ExampleWithDaysAndFraction | collector.go:305-334 | "1.02:03:04.5000000" is in the grammar and gives 93784.5 seconds |
| TimeSpans.ExampleZero | collector.go:305-334 | "00:00:00" is in the grammar and gives 0 seconds |
| TimeSpans.EmptyTextNotInGrammar | collector.go:162-167 | the empty text, which an empty `CpuStats` leaves, is not in the grammar |
| TimeSpans.ShortFractionNotInGrammar | collector.go:305 | a one-digit fraction ("00:00:00.5") is not recognised |
| TimeSpans.SubexpNamesUnique | collector.go:305 | each named group of the pattern has a name no other group carries, at the group numbers of the pattern |
| TimeSpans.FindStringSubmatch | collector.go:337 | on a text in the grammar there is one entry per group of the pattern, entry 0 being the whole text; the groups tile the text in pattern order (optional days-with-dot, hours, `:`, minutes, `:`, seconds, optional dot-with-fraction); group 1 is group 2 followed by a dot, or empty when group 2 is, and group 6 is a dot followed by group 7, or empty; the days are digits, each clock group is two digits, the fraction is empty or seven digits; and groups 2 to 5 and 7 are the matched days, clock fields and fraction |
| TimeSpans.GroupLayout | collector.go:337 | a text the matcher accepts is, character for character, its days-with-dot, hours, `:`, minutes, `:`, seconds and dot-with-fraction laid end to end, and each of those fields has the shape the pattern demands |
| TimeSpans.MatchNamedGroups | collector.go:336-346 | the result's keys are exactly the non-empty group names, and a name used by one group only maps to that group's text |
| TimeSpans.TimeSpanToSeconds | collector.go:307-334 | on a text in the grammar the result is days·86400 + hours·3600 + minutes·60 + seconds + fraction/10^7, absent groups counting 0 |
| QueryCollector.TrimSlashes | fromQueryCollector.go:52 | the result is a prefix of the path without a trailing slash, and only slashes were removed |
| QueryCollector.Validate | fromQueryCollector.go:68-83 | no error exactly when the definition is valid; the checks run in the order name, database, RQL, interval, value field and the first failing one names the error, down to `ValueFieldMissing` when only the value field is empty |
| QueryCollector.FirstInvalid | fromQueryCollector.go:68-83 | a file's definitions yield no error exactly when all of them are valid |
| QueryCollector.EmptyPathLoadsNothing | fromQueryCollector.go:37-42 | an empty directory path loads an empty list without error |
| QueryCollector.LoadEntriesOutcome | fromQueryCollector.go:49-88 | a listing loads exactly when every `.yml` file was readable and holds only valid definitions, and then the result is the definitions of the `.yml` files in listing order and file order |
| QueryCollector.LoadEntries | fromQueryCollector.go:49-88 | the listing loaded entry by entry: on success every loaded definition has a name, database, RQL and value field and a non-zero interval |
| QueryCollector.LoadFromDir | fromQueryCollector.go:37-89 | as `LoadEntries`, after the empty-path and unreadable-directory cases: on success every loaded definition is valid |
| QueryCollector.LoadEntriesStep | fromQueryCollector.go:49-86 | one more entry of the listing is skipped when it is not `.yml`, fails the load when unreadable or invalid, and otherwise appends its definitions |
| QueryCollector.YmlQueriesValid | fromQueryCollector.go:68-84 | the `.yml` definitions of a loadable listing are all valid |
| QueryCollector.LoadEntriesFailurePersists | fromQueryCollector.go:55-82 | once a prefix of the listing fails, the load fails with that error |
| QueryCollector.FirstInvalidPersists | fromQueryCollector.go:68-83 | the first invalid definition of a prefix decides the file's error |
| QueryCollector.AppendFileQueries | fromQueryCollector.go:68-85 | the loop over one file's definitions fails with the first invalid definition's error and otherwise appends all of them to the result |
| QueryCollector.LoadQueriesFromDir | fromQueryCollector.go:37-89 | the loop over the listing with its early returns computes the outcome described by `LoadFromDir` (empty path, unreadable directory, suffix filter, unreadable file, validation, concatenation) |
| QueryCollector.ExampleMissingDatabase | fromQueryCollector.go:72-74 | a single file whose only definition lacks a database fails the load with that query's missing-database error |
| QueryCollector.NegativeIntervalLoads | fromQueryCollector.go:78 | a definition with a negative interval passes validation |
| QueryCollector.OtherFilesIgnored | fromQueryCollector.go:51 | a file without the `.yml` suffix does not change the load |
| QueryCollector.MetricName | fromQueryCollector.go:110 | the gauge's name is `ravendb_queryresult_` followed by the query name |
| QueryCollector.MetricNameInjective | fromQueryCollector.go:110 | queries with the same metric name have the same name |
| QueryCollector.LabelSchema | fromQueryCollector.go:112 | the label names are the label fields in declared order, none without a label list |
| QueryCollector.QueryMetric.constructor | fromQueryCollector.go:108-115 | a new query gauge has the query's name and label schema and no series |
| QueryCollector.RowLabels | fromQueryCollector.go:133-143 | a row's labels are missing exactly when some label field is not a string; otherwise they map exactly the label fields to their strings |
| QueryCollector.ReadLabels | fromQueryCollector.go:134-143 | the label loop, returning at the first unreadable label, computes `RowLabels` |
| QueryCollector.RowLabelsFailurePersists | fromQueryCollector.go:136-141 | a label that cannot be read makes the whole row's labels unreadable |
| QueryCollector.RowSample | fromQueryCollector.go:127-148 | a row is readable exactly when its value field is a number and, with a label list, all labels read; its series is those labels, or the unlabelled series without a label list, and its value is that number |
| QueryCollector.ReadRow | fromQueryCollector.go:126-149 | the row callback computes `RowSample` |
| QueryCollector.ApplyRowsKeys | fromQueryCollector.go:126-149 | after the rows are processed in order, the series are exactly the old series plus the label combinations the readable rows name |
| QueryCollector.RowSeriesLastValue | fromQueryCollector.go:126-149 | a label combination is named by some readable row exactly when a last readable row's value is recorded for it |
| QueryCollector.ApplyRowsStep | fromQueryCollector.go:126-149 | one more row sets its series to its value, or changes nothing when it cannot be read |
| QueryCollector.AnyRowFailsStep | fromQueryCollector.go:130-140 | the error flag after one more row is set exactly when it was set or that row fails |
| QueryCollector.ApplyRowsSeries | fromQueryCollector.go:126-149 | after the rows, a series exists exactly when it did or some readable row names it; it then holds the last such row's value, and every other series keeps its value |
| QueryCollector.ApplyRowsConcat | fromQueryCollector.go:126-149 | processing two row sequences one after the other is processing their concatenation |
| QueryCollector.FailingRowSkipped | fromQueryCollector.go:126-149 | an unreadable row sets nothing, and the rows around it are processed as if it were absent |
| QueryCollector.ExampleTwoRegions | fromQueryCollector.go:126-149 | two rows labelled "eu" and "us" set those two series to 5 and 7 |
| QueryCollector.ReadAndSetMetrics | fromQueryCollector.go:117-151 | a failed fetch reports an error and sets no series; otherwise every readable `Results` row sets its series in order, and the error is reported exactly when some row is unreadable |
| QueryCollector.RunQueryIteration | fromQueryCollector.go:94-100 | on error (failed fetch or an unreadable row), the unlabelled series is set to `ValueOnError` after the row updates; without error the row updates are all that changes |

## Left out

- HTTP fetching, URL building and query escaping (`getStats`, `get`, and the query URL at fromQueryCollector.go:119) are I/O. Each fetch is an input: the decoded document, or an error.
- Directory listing, opening, reading and YAML decoding (fromQueryCollector.go:44-67) are I/O and library calls. The listing is an input: each entry's file name plus its decoded definitions, or a failure. The specific error values those calls return are folded into `ListingFailed` and `FileFailed`.
- The listing's order is taken as given. `ioutil.ReadDir` sorts by file name; that sorting is the library's, not modelled.
- `defer file.Close()` is resource handling with no effect on the result.
- Goroutines, the per-query loop and the `time.After` sleep (fromQueryCollector.go:26-35, 92-105) are concurrency and timing. One loop iteration is modelled.
- Prometheus plumbing is library behaviour, not modelled. This covers:
  - `Describe` (including its omission of `databaseDocumentPutBytes`);
  - the `create*` constructors, descriptions and help texts;
  - channel sends and `MustRegister`.
  Metrics are values in the exporter's fields and maps.
- Library panics are not modelled:
  - a negative `Counter.Add`;
  - a label-cardinality mismatch in `WithLabelValues()` on a gauge that has labels;
  - `MustRegister` on a duplicate name.
- Byte-level JSON parsing and malformed documents are not modelled. A document is an abstract tree.
- Array-index keys are not modelled. A query's value field or label field is used as a jsonparser key, and a key such as `[0]` would index an array row. The model's `Lookup` follows object keys only and finds nothing in an array.
- Duplicate keys in a document are not modelled faithfully. At each step of a key path `Lookup` follows the first member with the key. On a multi-key path, jsonparser goes on searching later siblings with the same key when the rest of the path is not found under the first.
- float64 rounding and Go `int` overflow in `strconv.Atoi` are not modelled. Values are `real` and digit strings are `nat`.
- Logging and `log.Fatal` are left out; they affect no metric.
- The general, unanchored leftmost-first regular-expression search on arbitrary text is not modelled. Only texts that are wholly in the timespan grammar are handled.
- TimeSpans.TimeSpanToSeconds: requires its text to be wholly in the grammar. A text with no match makes the source panic. A text that only contains a match, such as "-00:00:01" or "00:00:00.5", yields the value of its first match in the source, and is outside the model.
- TimeSpans.FindStringSubmatch: defined only on texts in the grammar, for the same reason.
- Collector.GetCpuTime: requires the last `CpuStats` text to be wholly in the grammar. An empty `CpuStats` array, or a last entry without that text, leaves the empty text, which has no match and makes the source panic. A text that only contains a match is outside the model.
- Collector.Exporter.Collect: requires the same of a successful fetch, for the same reason.
- Collector.Exporter: the twenty metric objects are grouped into two datatype fields, with one component per metric, rather than twenty separate fields. Each scrape replaces the components the source updates.
