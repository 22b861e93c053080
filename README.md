# homeassistant2influxdb in Dafny

A model of the migration script `homeassistant2influxdb.py`. The script reads
the history of a Home Assistant recorder database and writes it to InfluxDB.
It reads the `states` table, the long-term `statistics` table, or both. For
each result row it:

- extracts the columns;
- renames the entity id and the friendly name through two fixed tables;
- rebuilds the Home Assistant `State` and `Event`;
- asks the InfluxDB converter for a record;
- counts how often every entity id appeared under every friendly name;
- queues the record in a batch that is written every 1024 records.

At the end the script writes the remainder of the batch and prints a sorted
summary of the name counts.

The project has six modules:

- `Wrappers`: `Option`.
- `Values`: the `Scalar` values of JSON attributes and database columns, and
  the strict total order the report is sorted by (`ScalarLess`). On the keys
  Python can compare it is Python's order: numbers by value with `False` and
  `True` as 0 and 1, strings by code point. Kinds Python cannot compare with
  each other are ordered by kind (see "## Left out").
- `Attributes`: the two rename tables, `rename_entity_id`,
  `rename_friendly_name` and `create_statistics_attributes`. The pure
  functions are the specification. The class `AttrDict` updates a dictionary
  in place, as the Python functions do, and is proved against them.
- `Queries`: `get_tables`, `formulate_sql_query` and `formulate_tmp_table_sql`.
  The SQL text is built line by line as the script builds it. Its properties
  are proved on the text: a duplicate-eliminating `UNION`, the column counts,
  the `mean != 0` filter, and the time-window clause exactly for `--table both`.
- `Statistics`: the nested counter `statistics[entity_id][friendly_name]`, its
  "new name" message, and the sorted report.
- `Pipeline`: the row loop as a pure state machine over `Progress`. `Step` is
  one row, `RunRows` one table, `StartTable` the per-table reset, `Finish` the
  final write, and `Migrate` a whole run. The foreign calls are the fields of
  `Env`: `json.loads`, `strptime`, building `State`/`Event`, and the
  converter. Each returns an `Option` or a three-way outcome (`Construction`,
  `Conversion`), so the model keeps which failures the script catches and
  which end the run.
- `Migration`: the class `Migrator`. It holds the batch, the counter, the
  statistics, the write log and the printed diagnostics, and updates them row
  by row in place. Each of its methods is proved to equal the matching
  `Pipeline` function.

Batch records have a type parameter `R`. The converter's output is opaque to
the script.

## Model

| member | source | states |
|---|---|---|
| Values.ScalarLessTransitive | homeassistant2influxdb.py:270-272 | the order used for the report's `sorted` calls is transitive |
| Values.ScalarLessTotal | homeassistant2influxdb.py:270-272 | any two different keys are ordered one way or the other, so each sorted listing is unique |
| Values.ScalarLessIrreflexive | homeassistant2influxdb.py:270-272 | no key sorts before itself |
| Attributes.RenameEntityId | homeassistant2influxdb.py:37-44 | an id in the rename table maps to its entry; any other id comes back unchanged; the result is always either a table value or the input |
| Attributes.RenameEntityValue | homeassistant2influxdb.py:186 | on a column value: only a string listed in the table is replaced; a non-string or unlisted value is returned as is |
| Attributes.RenameEntityIdIsIdempotent | homeassistant2influxdb.py:37-44 | renaming a renamed id changes nothing: one pass of the table is final |
| Attributes.RenamedFriendlyValue | homeassistant2influxdb.py:57-58 | a friendly name listed in the table maps to its entry; anything else is kept |
| Attributes.RenameFriendlyName | homeassistant2influxdb.py:53-60 | no key is added or removed; every key except `friendly_name` keeps its value; `friendly_name` is renamed; the map changes only if that key holds a listed string |
| Attributes.RenameFriendlyNameIsIdempotent | homeassistant2influxdb.py:53-60 | applying the friendly-name rename twice equals applying it once |
| Attributes.CreateStatisticsAttributes | homeassistant2influxdb.py:67-71 | the keys are the input's plus `mean`, `min`, `max`; those three equal the arguments, even when the input had them; every other key holds its renamed value |
| Attributes.StatisticsAttributesAreRightBiasedUnion | homeassistant2influxdb.py:67-71 | the result is the renamed payload overwritten by a map of exactly the three statistic entries |
| Attributes.AttrDict.RenameFriendlyNameInPlace | homeassistant2influxdb.py:57-58 | the in-place update leaves the dictionary equal to `RenameFriendlyName` of its old contents |
| Attributes.AttrDict.CreateStatisticsAttributesInPlace | homeassistant2influxdb.py:67-71 | the in-place update leaves the dictionary equal to `CreateStatisticsAttributes` of its old contents |
| Queries.TableName | homeassistant2influxdb.py:282-284 | the name is `states` exactly for the states table and `statistics` exactly for the statistics table |
| Queries.TableNames | homeassistant2influxdb.py:282-284 | a list of tables maps to their names one for one, in order |
| Queries.GetTables | homeassistant2influxdb.py:281-289 | a list exactly for `states`, `statistics` and `both`; it holds statistics unless the key is `states` and states unless the key is `statistics`; statistics comes before states; the names of the list are exactly the switcher's: `['states']`, `['statistics']` or `['statistics', 'states']`; any other key gives None |
| Queries.Spaces | homeassistant2influxdb.py:300-342 | the indentation of the query text is exactly `n` blanks |
| Queries.StatesQuery | homeassistant2influxdb.py:297-316 | no contract of its own: the text of the states query, line by line; specified by `StatesQueryIsDistinctUnion` |
| Queries.StatisticsQuery | homeassistant2influxdb.py:317-342 | no contract of its own: the text of the statistics query around the optional window clause; specified by `StatisticsQueryFilters`, `NoLessThanWithoutWindow` and `StatisticsQueryReadsLookup` |
| Queries.FormulateTmpTableSql | homeassistant2influxdb.py:346-358 | no contract of its own: the DDL text, line by line; specified by `TmpTableFeedsStatisticsQuery` |
| Queries.FormulateSqlQuery | homeassistant2influxdb.py:292-343 | any table other than `states` and `statistics` gives the empty query |
| Queries.StatesQueryIsDistinctUnion | homeassistant2influxdb.py:297-316 | the states query is the same whatever `--table` is; it is the legacy select and the detached select joined by a bare `UNION` with only blanks around it (so not `UNION ALL`); each branch selects five columns |
| Queries.StatisticsQueryFilters | homeassistant2influxdb.py:317-342 | the statistics query selects seven columns; it always holds ` AND mean != 0 `; it holds the `statistics.start < (select min(events.time_fired) ...)` clause if and only if `--table` is `both` |
| Queries.NoLessThanWithoutWindow | homeassistant2influxdb.py:322-342 | without the window clause the statistics query has no `<` at all, so no other time filter is applied |
| Queries.WindowClauseHasLessThan | homeassistant2influxdb.py:321 | the window clause compares `statistics.start` with `<` |
| Queries.StatisticsQueryReadsLookup | homeassistant2influxdb.py:338-341 | the statistics query reads its attributes through `FROM state_tmp` |
| Queries.TmpTableFeedsStatisticsQuery | homeassistant2influxdb.py:353-358 | the DDL creates `state_tmp`, the table the statistics query reads; it keeps `max(states.attributes_id)` grouped by entity id |
| Statistics.Bump | homeassistant2influxdb.py:232-240 | the entity and name become known; the pair's count goes up by one (from zero when new); every other count and every other entity is unchanged |
| Statistics.CountSighting | homeassistant2influxdb.py:232-240 | the loop's three-way update gives exactly `Bump`; it takes the branch that prints a new name exactly when `NewNameFires`, and then the name is listed with count 1 beside the names known before |
| Statistics.Tally | homeassistant2influxdb.py:229-240 | no contract of its own: the counter after a sequence of sightings; specified by `TallyCounts`, `TallyKnowsEntity`, `TallyListsName`, `TallyCountsPositive` and `TallySnoc` |
| Statistics.OccurrencesPositive | homeassistant2influxdb.py:229-240 | a pair's occurrence count is positive exactly when the pair was sighted |
| Statistics.TallyCounts | homeassistant2influxdb.py:229-240 | after any sequence of sightings, each (entity, name) count equals the number of sightings of that pair |
| Statistics.TallyKnowsEntity | homeassistant2influxdb.py:232-233 | an entity is a key of the tally exactly when some sighting named it |
| Statistics.TallyListsName | homeassistant2influxdb.py:234-235 | a name is listed under a known entity exactly when that pair was sighted |
| Statistics.TallyCountsPositive | homeassistant2influxdb.py:233-240 | every count in the tally is at least one |
| Statistics.NewNameFiresIff | homeassistant2influxdb.py:232-238 | the "new name" message fires for a sighting exactly when its entity was sighted before and never under this name, so an entity's first name never fires it |
| Statistics.SummaryExample | homeassistant2influxdb.py:229-240 | for (A,X),(A,X),(A,Y),(B,Z) the tally is A: X 2, Y 1 and B: Z 1, and only the third sighting is reported as a new name |
| Statistics.TallySnoc | homeassistant2influxdb.py:232-240 | one more sighting updates the tally by exactly one `Bump` |
| Statistics.Least | homeassistant2influxdb.py:270 | the result is in the set and below every other element |
| Statistics.SortScalars | homeassistant2influxdb.py:270-272 | `sorted(keys)`: strictly ascending, the same elements as the set, each once |
| Statistics.ListNames | homeassistant2influxdb.py:272-274 | an entity's names in ascending order, each once, each with the count the tally holds |
| Statistics.BuildReport | homeassistant2influxdb.py:270-274 | the report lists every entity of the tally once, in ascending order, and under each its names in ascending order with their counts |
| Statistics.SummaryOfEntries | homeassistant2influxdb.py:270-274 | entries built one per sorted key make a complete report |
| Pipeline.Arity | homeassistant2influxdb.py:185-201 | the extraction reads as many columns as the matching query selects (5 and 7), and the attribute column is not one of the last two |
| Pipeline.Decode | homeassistant2influxdb.py:185-201 | extraction succeeds exactly when the row has all its columns and the raw attributes parse as an object; the entity id is renamed; the state, event type and timestamp come from their columns; a states row's attributes get the friendly-name rename and a statistics row's get the mean/min/max fields |
| Pipeline.Classify | homeassistant2influxdb.py:184-226 | no contract of its own: a row's fate from the foreign calls, each consulted only when the one before succeeded; `Migration.Migrator.Examine` performs the calls and is proved equal to it; the lemmas below are stated for every fate |
| Pipeline.Observe | homeassistant2influxdb.py:229-240 | no contract of its own: the statistics update; specified by `ObservePreservesTally`, `ObservePreservesInv`, `ObserveDiagnosesNewName` and `ObserveShadow` |
| Pipeline.Append | homeassistant2influxdb.py:242-249 | no contract of its own: the append and the flush at capacity; specified by `AppendPreservesInv`, `AppendFlushesAtCapacity` and `AppendShadow` |
| Pipeline.Settle | homeassistant2influxdb.py:202-249 | no contract of its own: a row's effect for a given fate; specified by `SettleOutcome`, `SettlePreservesInv`, `SettleKeepsMode`, `SettleAppends` and `SettleShadow` |
| Pipeline.Step | homeassistant2influxdb.py:181-249 | no contract of its own: one iteration, `Settle` of `Classify`; specified by `SkippedRowsChangeNothing`, `StrptimeFailureIsFatal` and `UncaughtFaultsAreFatal` |
| Pipeline.RunRows | homeassistant2influxdb.py:181-249 | no contract of its own: the rows of one table in cursor order; specified by `RunRowsPreservesInv`, `RunRowsAppends`, `RunRowsKeepsHalt`, `RunRowsNeverFinish`, `RunRowsShadow` and `HaltedRunIgnoresRows` |
| Pipeline.StartTable | homeassistant2influxdb.py:170 | no contract of its own: `statistics = {}` at a table's start; specified by `StartTablePreservesInv` and `StartTableKeepsHalt` |
| Pipeline.RunTables | homeassistant2influxdb.py:156-252 | no contract of its own: the tables in order over one batch; specified by `RunTablesPreservesInv`, `RunTablesAppends`, `RunTablesNeverFinish` and `RunTablesShadow` |
| Pipeline.Finish | homeassistant2influxdb.py:261-262 | no contract of its own: the final write; specified by `FinishWritesRemainder` and `FinishPreservesInv` |
| Pipeline.Migrate | homeassistant2influxdb.py:141-262 | no contract of its own: a whole run, halting at once when `get_tables` gives None; specified by `MigrateInv`, `MigrateCompletes`, `MigrateHaltLosesPending` and `DryRunOnlySuppressesWrites` |
| Pipeline.FlattenAppend | homeassistant2influxdb.py:242-249 | writing one more batch extends the written records by exactly that batch |
| Pipeline.InitialInv | homeassistant2influxdb.py:145-147 | the empty batch and counter satisfy the loop invariant |
| Pipeline.ObservePreservesTally | homeassistant2influxdb.py:229-240 | the counter update keeps the tally equal to the count of the table's sightings, and changes nothing but the tally, the sightings and the messages |
| Pipeline.ObservePreservesInv | homeassistant2influxdb.py:229-240 | the statistics update keeps the loop invariant |
| Pipeline.AppendPreservesInv | homeassistant2influxdb.py:242-249 | an append keeps `cur == len(batch) < 1024`, keeps every filled batch at 1024 records, keeps them with the pending batch equal to all records appended, and keeps the writes equal to the filled batches unless dry |
| Pipeline.SettleOutcome | homeassistant2influxdb.py:202-249 | only a converted row appends and counts; any other row changes only `_attributes_raw`, the fault and the messages |
| Pipeline.SettlePreservesInv | homeassistant2influxdb.py:184-249 | every row, whatever its fate, keeps the loop invariant |
| Pipeline.SettleKeepsMode | homeassistant2influxdb.py:181-249 | no row changes the dry-run flag or ends the run normally |
| Pipeline.RunRowsPreservesInv | homeassistant2influxdb.py:181-249 | a whole table of rows keeps the invariant |
| Pipeline.StartTablePreservesInv | homeassistant2influxdb.py:170 | resetting `statistics` at a table's start keeps the invariant; the batch is untouched |
| Pipeline.RunTablesPreservesInv | homeassistant2influxdb.py:156-252 | any sequence of tables keeps the invariant |
| Pipeline.FinishPreservesInv | homeassistant2influxdb.py:261-262 | the final write keeps the invariant |
| Pipeline.MigrateInv | homeassistant2influxdb.py:141-262 | every run, halted or not, ends in a state that satisfies the invariant |
| Pipeline.RunRowsNeverFinish | homeassistant2influxdb.py:181-252 | the row loop neither changes dry-run nor performs the final write |
| Pipeline.RunTablesNeverFinish | homeassistant2influxdb.py:156-259 | the same for the loop over tables |
| Pipeline.RunRowsSnoc | homeassistant2influxdb.py:181 | the rows are processed one after the other in cursor order |
| Pipeline.SettleAppends | homeassistant2influxdb.py:225-243 | a row that does not halt appends its converted record, if any, and its sighting, if any |
| Pipeline.HaltedRunIgnoresRows | homeassistant2influxdb.py:208-222 | after an uncaught exception no further row has any effect |
| Pipeline.RunRowsAppends | homeassistant2influxdb.py:184-243 | a table that does not halt appends exactly its converted records, in cursor order, and exactly their sightings; a skipped row does not stop later rows |
| Pipeline.ObserveDiagnosesNewName | homeassistant2influxdb.py:232-238 | the "new name" line is printed exactly when the entity was seen earlier in this table but never under this name; it lists the names known after the update |
| Pipeline.AppendFlushesAtCapacity | homeassistant2influxdb.py:242-249 | a batch is flushed exactly when the 1024th record is appended; then it is written once, unless dry, with exactly those 1024 records in append order, and the batch and counter restart |
| Pipeline.ObserveShadow | homeassistant2influxdb.py:229-240 | the counter update does not depend on dry-run or on past writes |
| Pipeline.AppendShadow | homeassistant2influxdb.py:242-249 | the batch bookkeeping does not depend on dry-run |
| Pipeline.SettleShadow | homeassistant2influxdb.py:184-249 | no row's processing depends on dry-run except the write itself |
| Pipeline.RunRowsShadow | homeassistant2influxdb.py:181-249 | the same for a whole table |
| Pipeline.RunTablesShadow | homeassistant2influxdb.py:156-252 | the same for every table |
| Pipeline.DryRunOnlySuppressesWrites | homeassistant2influxdb.py:245-262 | under `--dry-run` no write is ever issued, and the batch, counter, statistics, messages and faults are exactly those of the real run |
| Pipeline.SkippedRowsChangeNothing | homeassistant2influxdb.py:202-226 | a row rejected as an invalid entity or suppressed by the converter is neither counted nor appended; a row whose extraction fails, once some row of the run has assigned `_attributes_raw`, only prints its message; nothing else but the leftover `_attributes_raw` changes. Before any assignment the handler's print itself raises and the run ends (`UncaughtFaultsAreFatal`) |
| Pipeline.StrptimeFailureIsFatal | homeassistant2influxdb.py:208 | a timestamp `strptime` rejects ends the run: later rows are ignored and no final write follows |
| Pipeline.UncaughtFaultsAreFatal | homeassistant2influxdb.py:202-226 | a failed extraction while `_attributes_raw` was never assigned (`UnboundLocalError` in the handler's print), a `State`/`Event` exception other than the invalid-entity error, and a converter exception each end the run with that fault; later rows are ignored and no final write follows |
| Pipeline.FinishWritesRemainder | homeassistant2influxdb.py:261-262 | unless dry, the final write sends the pending batch even when it is empty, and then the writes hold every appended record exactly once, in order; under dry-run nothing is written |
| Pipeline.StartTableKeepsHalt | homeassistant2influxdb.py:170 | the per-table reset touches neither faults nor the batch |
| Pipeline.RunRowsKeepsHalt | homeassistant2influxdb.py:181-252 | a run that has halted stays halted with the same fault |
| Pipeline.RunTablesAppends | homeassistant2influxdb.py:145-252 | over several tables the batch spans them all: the appended records are every table's converted records in order, while the tally holds only the last table's sightings |
| Pipeline.MigrateCompletes | homeassistant2influxdb.py:141-274 | a run that does not halt appends every converted record of every table in order; its report counts each (entity, name) pair as often as it was converted in the last table read; unless dry, the writes are full 1024-record batches followed by one shorter remainder that together are exactly the appended records; under dry-run nothing is written |
| Pipeline.MigrateHaltLosesPending | homeassistant2influxdb.py:208-262 | a run that halts never reaches the final write: only the filled batches were written and the pending records are lost |
| Migration.Migrator.constructor | homeassistant2influxdb.py:145-147 | a new migrator has an empty batch, a zero counter and no writes |
| Migration.Migrator.DecodeRow | homeassistant2influxdb.py:185-201 | the in-place extraction gives what `Decode` specifies |
| Migration.Migrator.Count | homeassistant2influxdb.py:229-240 | the in-place counter update is `Observe`; it is a step of `Apply`, which keeps the invariant around it |
| Migration.Migrator.Push | homeassistant2influxdb.py:242-249 | the in-place append and flush is `Append`; it is allowed only before the final write, and it is a step of `Apply`, which keeps the invariant around it |
| Migration.Migrator.Examine | homeassistant2influxdb.py:184-226 | the foreign calls of one row, each made only if the one before succeeded, give the row's fate as `Classify` specifies |
| Migration.Migrator.Apply | homeassistant2influxdb.py:202-249 | the in-place effect of a row with a given fate is `Settle`, and keeps the invariant |
| Migration.Migrator.ProcessRow | homeassistant2influxdb.py:181-249 | one loop iteration is `Step` and keeps the invariant |
| Migration.Migrator.StartTable | homeassistant2influxdb.py:170 | the per-table reset is `StartTable` |
| Migration.Migrator.RunTable | homeassistant2influxdb.py:156-252 | a table's loop is `RunRows` after the reset, and keeps the invariant |
| Migration.Migrator.Finish | homeassistant2influxdb.py:261-274 | the final write is `Finish`; a report is produced exactly when the run did not halt, and it is the sorted summary of the statistics |
| Migration.Migrate | homeassistant2influxdb.py:141-274 | the whole migration ends in the state `Pipeline.Migrate` specifies, with a report exactly when it did not halt |

## Left out

- Command-line parsing, loading and validating `influxdb.yaml`, and the placeholder-token check (lines 79-122) are not modelled. They are configuration I/O. `--table` and `--dry-run` are parameters of `Migrate`.
- The InfluxDB connection and `influx.close()` are not modelled: they are a network client. `influx.write` is the log `writes`. A failing write is not modelled.
- The converter built by `_generate_event_to_json` is the function `Env.convert`, not its semantics. Its three endings are kept: a record, a falsy result (the row is skipped) and an exception (the run ends).
- Database connections, cursors and the `COUNT(*)` probe are not modelled. Nor is running the SQL, including creating and dropping `state_tmp`. Each table's cursor is the input `seq<Row>` given by `input`.
- The MySQL `Error` handler (lines 250-252) is not modelled: it ends a table's rows early. A cursor error is therefore a shorter row list. That handler's `continue` also skips the table's `remove_tmp_table` and `cursor.close()`, which are not modelled either.
- `remove_tmp_table` runs after every table (lines 256-257 are inside the per-table loop). With MySQL and `--table both`, the second `DROP TEMPORARY TABLE state_tmp` targets a table already dropped. That would end the run before the final write and the report. This is not modelled, because temporary-table execution is outside the model.
- `json.loads`, `datetime.strptime` and building `State`/`Event` are the functions of `Env`, not their semantics. The model keeps which of their failures are caught. A JSON document that is not an object is folded into a parse failure.
- Nested JSON values (lists, objects) in attributes are not modelled. Attribute values are `Scalar`. An unhashable friendly name would make `rename_friendly_name` raise; that case is not modelled.
- Floating point is not modelled. `mean`, `min` and `max` are passed through as opaque `Scalar` values and never computed with.
- Python's key equality across types is not modelled: `True == 1 == 1.0` share one dictionary key. The statistics use structural equality of `Scalar`.
- `Statistics.SortScalars`: Python's `sorted` raises `TypeError` on keys it cannot compare, such as a `None` entity id next to strings, or a string next to a number. The model instead orders all scalars by kind: null, then booleans and numbers, then strings. Booleans among numbers are not such a case: Python compares `False` and `True` as 0 and 1 (`sorted([True, 0.5])` is `[0.5, True]`), and `ScalarLess` does the same. A boolean and a number of equal value are different scalars in the model, and the boolean sorts first; in Python they are one dictionary key (see the line on key equality above).
- The tqdm progress bar and the exact text of printed messages are not modelled. Printed data is kept as `Diagnostic` values and the report entries.
- A row longer than 5 (states) or 7 (statistics) columns is accepted: the code reads only the columns it needs, and `Decode` does the same.
- The format `%Y-%m-%d %H:%M:%S.%f` requires fractional seconds. `strptime` is abstracted as `Env.parseTime`, so the model does not state it.
