# Shock Absorber: a verified model of the write-behind cache

Shock Absorber puts a key-value store in front of a database table. A write goes to the store,
then to a write-ahead log (WAL) kept in the same store, then to a queue; a rate-limited
background drainer replays the queue into the database. Reads try the store first, and on a
miss read the database and fill the store later. Concurrent reads of one key are coordinated
by a stampede preventer. This project models that machinery and proves what it keeps.

## How it is organised

| file | part of the system |
|---|---|
| `GoText.dfy`, `Binary64.dfy` | decimal text and `strconv`; rounding integers to IEEE 754 binary64 |
| `Mapper.dfy`, `MapperLaws.dfy` | type mapper, and what the columns of each type name store |
| `Validator.dfy`, `Sql.dfy`, `Translator.dfy` | schema validator, an evaluator for the three statement forms, schema translator |
| `StoreKeys.dfy` | the key formats that share one store, and WAL operation identifiers |
| `WriteOps.dfy` | write operations, what executing one does to the database, how cached documents relate to rows |
| `WriteBack.dfy` | the write-back protocol as a step system: invariant, refinement, WAL |
| `WriteBackLimits.dfy`, `WriteBackRuns.dfy` | exactly how far its assumptions are needed, and runs that go wrong without them |
| `WriteBackReads.dfy`, `WriteBackWal.dfy` | what a hit holds, reading your writes, expiry; the WAL's index |
| `TableImpl.dfy` | `TableImpl` as a program that takes the protocol's steps |
| `Stampede.dfy`, `StampedePreventer.dfy` | the stampede preventer as a step system, and its methods with `CacheHandler.Read` as programs |
| `FlushGroups.dfy`, `WriteBuffer.dfy` | grouping a batch by TTL, and the write buffer over a reused array |
| `Queues.dfy` | the in-memory queue and the two-list Redis queue |
| `RateLimit.dfy`, `Drain.dfy`, `DrainWorker.dfy` | the token bucket, the drainer with failures and restarts as a step system, and its `run` loop as a program |
| `Lifecycle.dfy`, `ClientWrapper.dfy` | drainers, channels and workers under `Start`, `Stop`, `EnableKV`, `DisableKV`, as a step system and as programs |
| `Dynamo.dfy` | the TTL arithmetic of the DynamoDB store |
| `Sample.dfy` | a concrete table showing that what the protocol results assume can be met |

Concurrent parts come twice. A step system has one step for every lock region or shared access
that changes something, and its theorems hold in every state of every interleaving. A class then
gives the methods in the source's own form, and each method is proved to take exactly the
system's steps while everything else moves in between (`OthersMove`, `Elapse`, `WorkersMove`),
so the theorems apply to every way the program can go. In `TableImpl` everything else is any
step of the protocol except a write on the call's own key, since writers are serial per key.

## What the write-back results assume

The code relies on these without checking them; they are guards of the step system or part of
`WriteOps.GoodConfig`:

- one table per queue (`WriteOps.ForeignOperationChangesThisTable` shows why), a table name
  without `:` that is neither `wal` nor `wbq`, and no namespace (`StoreKeys.NamespaceMustBeEmpty`);
- primary keys that render the same from the caller and from a scan, which a fill needs to land
  where readers look (`WriteOps.FillKeyExact`). Integers within 2^53 that the key column stores
  unchanged do, text keys never do (`WriteOps.KeyRenderings`); the protocol is stated for such
  integers;
- writers serial per key, Creates on absent keys, non-empty Updates of schema columns other
  than the key, values the cache keeps exactly, no binary column;
- no database query of a missed read while an operation on its key is pending, and a fill lands
  only if no write to its key has reached the cache since it was read. The source checks
  neither. `WriteBackLimits.MissExact` and `WriteBackLimits.LandingExact` say exactly when a miss
  and a fill are safe all the same, and `WriteBackRuns.PendingMissRun` and
  `WriteBackRuns.LateFillRun` are runs from the start, on any database row, that put a deleted
  record back into the cache;
- every reader leads: no call shares the read of another one's leader.
  `WriteBackLimits.FollowerUpdateExact` says exactly when an update that does is safe, and
  `WriteBackRuns.StaleFollowerRun` is a run in which it is not. Shared reads by themselves, and
  how stale they can be, are the subject of `Stampede`;
- the database driver returns stored text as it was stored (`Mapper.Scan`); MySQL may normalise
  the text of JSON and DECIMAL columns;
- the store, the WAL and the queue do not fail in `WriteBack`; database failures,
  cancellation and restarts are the subject of `Drain`;
- the clock advances with every WAL entry.

`Mapper.Lawful` collects what is asked of Go's standard library: converting an out-of-range
float gives some value of the integer type, rounding to float32 is idempotent and undone by its
shortest text, RFC 3339 nanosecond text parses back, `json.Marshal` gives valid JSON, and a byte
slice prints longer than the text it holds.

## Where the code and its documentation disagree

The model follows the code.

- The WAL comment says writes are recorded in the WAL first (internal/write/wal.go:40-41); the
  table writes the cached record before the WAL entry (internal/table/table_impl.go:97-115), so
  the WAL precedes the queue but not the cache.
- Fault tolerance without data loss and `MaxRetries` are promised; the drainer never retries,
  and an operation that fails or meets a cancelled limiter is gone
  (pkg/shockabsorber/drainer.go:204-225). `Drain` accounts for each of them.
- `TINYINT(1)` is listed as a boolean type, but the size is cut off before the switch, so such a
  column is a small integer (internal/schema/mapper.go:63-101; `Mapper.NoTinyintOneBase`,
  `Mapper.TinyintIsInteger`).
- `FromKV` validates the record and discards the result (internal/schema/translator.go:135-143).
- `Dequeue` promises the order of enqueuing (internal/writeback/queue.go:128-131); two overlapping
  enqueues can reach the global list in the other order than their table's list
  (`Queues.OverlappingEnqueuesReverse`).
- A second `EnableKV` of a table replaces its drainer in the map without stopping it
  (pkg/shockabsorber/client.go:184-185); `Lifecycle.OrphanOutlivesStop` states the consequence.

## Model

| member | source | states |
|---|---|---|
| `StoreKeys.NamespaceMustBeEmpty` | internal/read/cache_handler.go:85-91 | readers look where `ToKV` writes if and only if the namespace is empty |
| `StoreKeys.WalKeysNeverCollide` | internal/write/wal.go:79-119 | entry, timestamp and ack keys of well-named tables that agree after their first segment are the same key |
| `StoreKeys.KeysNeverCollide` | internal/write/wal.go:79-119 | data, WAL and queue keys of well-named tables have equal text if and only if they are the same key |
| `StoreKeys.GlobalTableCollides` | internal/writeback/queue.go:55-62 | the list of a table called `global` is the global list |
| `StoreKeys.OperationIdInjective` | internal/write/wal.go:136-140 | for a fixed table, identifiers agree if and only if key rendering and time agree |
| `StoreKeys.OperationIdAmbiguousAcrossTables` | internal/write/wal.go:136-140 | two tables can produce the same identifier |
| `Binary64.RoundNatExact` | internal/schema/translator.go:105-133 | rounding gives a representable number, and changes nothing if and only if the integer was one |
| `Binary64.RoundNatNearest` | internal/schema/translator.go:105-133 | the rounding is to a nearest representable number: no other is closer |
| `Binary64.TiesToEven` | internal/schema/translator.go:105-133 | when two representable numbers are as near, the chosen one is the even multiple of their gap |
| `Binary64.RoundIdempotent` | internal/schema/translator.go:105-133 | rounding twice is rounding once, for every integer, and up to 2^53 it changes nothing |
| `Binary64.FitsInt64AfterRounding` | internal/schema/mapper.go:196-230 | an int64 still fits int64 after rounding if and only if it is below 2^63 − 512 |
| `Binary64.DriftExample` | internal/schema/translator.go:105-133 | 2^53 + 1 does drift |
| `Mapper.Wrap` | internal/schema/mapper.go:159-264 | Go's narrowing conversions: the result fits the width, differs from the argument by a multiple of 2^width, and is the argument if that fits |
| `Mapper.NoTinyintOneBase` | internal/schema/mapper.go:68-95 | no column type reaches the case for `TINYINT(1)` |
| `Mapper.TinyintIsInteger` | internal/schema/mapper.go:68-80 | a `TINYINT(1)` column is a small integer |
| `MapperLaws.SpelledBase` | internal/schema/mapper.go:68-72 | a type spelled in any case, with blanks around it and any size after it, has its name as base |
| `MapperLaws.ParsePrinted` | internal/schema/mapper.go:184-190 | a printed integer parses back, exactly when it fits the width |
| `MapperLaws.TruncTowardZero` | internal/schema/mapper.go:180-183 | floats are cut toward zero |
| `MapperLaws.IntegerColumns` | internal/schema/mapper.go:75-78 | INT, INTEGER, MEDIUMINT and BIGINT columns store every 64-bit integer, given as any Go number type or as text; out-of-range text, bytes, truth values and times are refused |
| `MapperLaws.SmallColumns` | internal/schema/mapper.go:79-80 | SMALLINT and TINYINT columns store every 16-bit integer, except that uint32 and uint64 are refused |
| `MapperLaws.FloatColumns` | internal/schema/mapper.go:81-84 | FLOAT columns store the float32, DOUBLE, DOUBLE PRECISION and REAL columns the float64, of numbers and parsable text; of integers only int and int64 |
| `MapperLaws.TextColumns` | internal/schema/mapper.go:85-88 | DECIMAL, NUMERIC and character columns store text as it is, integers in decimal and truth values as words |
| `MapperLaws.BinaryColumns` | internal/schema/mapper.go:89-90 | binary columns store bytes and the bytes of text, and refuse numbers |
| `MapperLaws.TimeColumns` | internal/schema/mapper.go:91-92 | date and time columns store instants, their RFC 3339 text and Unix seconds given as int64 |
| `MapperLaws.BooleanColumns` | internal/schema/mapper.go:93-94 | BOOLEAN and BOOL columns store truth values and words, and any number, printed or not, as its being other than 0 |
| `MapperLaws.JsonColumns` | internal/schema/mapper.go:95-96 | JSON and JSONB columns store exactly valid JSON text, and the JSON of any other value |
| `MapperLaws.OtherColumns` | internal/schema/mapper.go:97-100 | every other type stores text and printed integers; null is null everywhere |
| `Mapper.EncodeDecode` | internal/schema/translator.go:81-105 | decoding a JSON value and encoding it again gives the same JSON, unless an integer passes 2^53 |
| `Mapper.ConvertIdempotent` | internal/schema/mapper.go:63-101 | for every column type, converting a converted value changes nothing |
| `Mapper.ConvertedWellTyped` | internal/schema/mapper.go:63-101 | conversion keeps float32 values float32 |
| `Mapper.ReadBack` | internal/schema/mapper.go:105-155 | a converted value, written as JSON and read through `ConvertFromDBValue`, is the same value |
| `Mapper.ValueRoundTrip` | internal/schema/mapper.go:63-264 | the value-level round trip for integers within 2^53 and every supported column type |
| `Mapper.DriftHappensOnce` | internal/schema/mapper.go:63-264 | for every int64 below 2^63 − 512 one trip through the cache is binary64 rounding and a second trip changes nothing more, so drift happens at most once |
| `Mapper.TopIntegersOverflow` | internal/schema/mapper.go:196-230 | from 2^63 − 512 on, the trip ends in the out-of-range conversion of 2^63 instead |
| `Mapper.ScanConverts` | internal/read/fallback.go:114-137 | a scanned database value converts back to the stored value, the driver returning text as stored |
| `Validator.SearchColumn` | internal/schema/validator.go:72-83 | the search loop finds the first column of that name, or none |
| `Validator.ValidateRecord` | internal/schema/validator.go:25-60 | accepts exactly the records that hold the primary key and suit every column |
| `Validator.ValidatePartialRecord` | internal/schema/validator.go:64-103 | accepts exactly the records whose schema fields suit their columns, in any map order |
| `Validator.ValidatePrimaryKey` | internal/schema/validator.go:119-143 | accepts exactly the non-null keys that convert to the key column's type |
| `Validator.ValidRecordAt` | internal/schema/validator.go:25-60 | a valid record suits the column a search by name finds |
| `Sql.BindLookup` | internal/schema/translator.go:166-205 | what each column of a row holds after its placeholders are bound |
| `Sql.BindIsOverride` | internal/schema/translator.go:243-292 | binding any listing of a map overrides the row with that map |
| `Translator.ToKV` | internal/schema/translator.go:37-92 | succeeds exactly on valid, convertible records with a key, with the key's text and each converted field, in any map order |
| `Translator.FromKV` | internal/schema/translator.go:96-143 | succeeds exactly when every field converts, with exactly those values, in any map order |
| `Translator.KvRoundTrip` | internal/schema/translator.go:61-133 | a cached document reads back, and caching what was read gives the same document, integers within 2^53; its key is the same if and only if the key column keeps the key's rendering |
| `Translator.ToDB` | internal/schema/translator.go:148-205 | succeeds exactly on valid records with some schema column, with columns, placeholders and arguments aligned in schema order |
| `Translator.PresentNames` | internal/schema/translator.go:166-190 | the emitted columns are exactly the schema columns the record holds |
| `Translator.InsertMeaning` | internal/schema/translator.go:148-205 | executing any statement `ToDB` may emit inserts, under the converted key, the record restricted to the schema with converted values and defaults elsewhere; on a present key it fails |
| `Translator.ToDBUpdate` | internal/schema/translator.go:209-296 | succeeds exactly on non-empty valid updates without the key column and with a valid key; the last argument is the key converted to the key column's type |
| `Translator.SetClause` | internal/schema/translator.go:243-276 | lists every update once, aligned with its converted argument, in any map order |
| `Translator.UpdateMeaning` | internal/schema/translator.go:209-296 | executing any statement `ToDBUpdate` may emit changes only the row of the converted key, to that row overridden by the converted updates |
| `Translator.UnknownFieldFails` | internal/schema/translator.go:243-276 | an update of a field outside the schema is translated but the database refuses it |
| `Translator.AcceptedCreateDrains` | internal/schema/translator.go:37-92 | a record `ToKV` accepted is later translated by `ToDB` |
| `Translator.AcceptedUpdateDrains` | internal/table/table_impl.go:200-233 | an update accepted into the cache is later translated if and only if it is non-empty, leaves out the key and comes with a convertible key |
| `WriteOps.StatementFor` | internal/table/table_impl.go:303-373 | finds a statement exactly for translatable operations, and that statement is the operation's |
| `WriteOps.ExecuteMeaning` | internal/table/table_impl.go:303-373 | executing an operation applies it to the row of its key and to nothing else |
| `WriteOps.ExecuteSucceeds` | internal/table/table_impl.go:303-373 | the database takes an operation's statement if and only if it does not create a key that is there |
| `WriteOps.ForeignOperationChangesThisTable` | internal/table/table_impl.go:432-439 | an operation enqueued for another table changes this table's row all the same |
| `WriteOps.FillKeyExact` | internal/read/fallback.go:75-84 | a fill lands where readers of the key look if and only if the key renders the same from the caller and from a scan |
| `WriteOps.KeyRenderings` | internal/read/cache_handler.go:85-91 | integer keys stored unchanged do, text keys never do |
| `WriteOps.RowApplyGood` | internal/table/table_impl.go:303-373 | admissible operations keep rows complete and storable |
| `WriteOps.HitMirrors` | internal/read/cache_handler.go:49-65 | reading a document that agrees with a row gives a record that converts to it |
| `WriteOps.ScanMirrors` | internal/read/fallback.go:114-137 | so does scanning the row |
| `WriteOps.MergeMirrors` | internal/table/table_impl.go:194-197 | merging updates into such a record mirrors the updated row |
| `WriteOps.MirrorAgrees` | internal/table/table_impl.go:200-207 | caching such a record gives a document that agrees with the row, under the same key |
| `WriteBack.KeysApart` | internal/write/wal.go:79-90 | all keys of one table's protocol are distinct |
| `WriteBack.InvariantHolds` | internal/table/table_impl.go:66-285 | the protocol invariant holds in every state of every interleaving |
| `WriteBack.WriteBackRefinement` | internal/table/table_impl.go:66-285 | in every state, pending queue and in-flight operation replayed over the database give the plain table's row, and each cached record agrees with it on every schema column it holds |
| `WriteBack.HitReadsTable` | internal/read/cache_handler.go:34-66 | a cache hit reads the plain table's row, column for column |
| `WriteBack.MissReadsTable` | internal/read/fallback.go:40-71 | a miss with nothing pending on its key reads the plain table's row |
| `WriteBack.DrainedDatabaseIsTable` | pkg/shockabsorber/drainer.go:166-231 | once drained, the database is the plain table |
| `WriteBack.WalRetrievable` | internal/write/wal.go:62-113 | at every point, each operation ever enqueued has a WAL entry that `Get` returns, until its 24 hours are over, with the same table and type, the same JSON of the key, and data with the same fields and the same JSON in each |
| `WriteBack.WalExpires` | internal/write/wal.go:82-85 | once the 24 hours are over `Get` finds nothing |
| `WriteBackWal.WalIndexed` | internal/write/wal.go:87-93 | at every point, each operation ever enqueued has a timestamp key that names its entry |
| `WriteBackReads.KeepsHolds` | internal/table/table_impl.go:79-100 | in every run, cached documents and prepared writes hold what was supplied and leave out only columns at their default |
| `WriteBackReads.HitIsTheRow` | internal/read/cache_handler.go:56-65 | a hit, at any point of any run, holds every schema column supplied since the key was created, and with defaults for the others it is the plain table's row |
| `WriteBackReads.ReadYourWrites` | internal/table/table_impl.go:95-101 | a create or update that reached the cache is found there at every later point until its key is deleted or its TTL is over |
| `WriteBackReads.HitIsRecent` | internal/table/table_impl.go:95-101 | a hit was stored by a write or a fill less than a TTL before |
| `WriteBackLimits.TidyHolds` | internal/table/table_impl.go:66-285 | in every run database rows, table rows and fills respect NOT NULL and are complete, and cached documents hold every column that may not be null |
| `WriteBackLimits.HitReadable` | internal/read/cache_handler.go:57-65 | a cached record never fails to deserialize, and reads as the table's row |
| `WriteBackLimits.MergedAccepted` | internal/table/table_impl.go:194-203 | what `Update` merges is accepted if and only if the updates suit their columns, whichever mirror of the row it read |
| `WriteBackLimits.CachingExact` | internal/table/table_impl.go:97-99 | caching a complete record of row r keeps the cache in agreement if and only if the key's row is r |
| `WriteBackLimits.LandingExact` | internal/read/fallback.go:75-90 | a fill landing at any point of any run, as the source lands it, keeps the agreement if and only if the table's row is still the one that was read |
| `WriteBackLimits.MissExact` | internal/read/fallback.go:40-90 | a miss queried at any point of any run and then cached keeps the agreement if and only if replaying what is pending leaves the database row as it is |
| `WriteBackLimits.FollowerUpdateExact` | internal/table/table_impl.go:188-207 | an update merging a record fetched earlier keeps the agreement if and only if the fetched row and the table's row, both updated, are one |
| `WriteBackRuns.LateFillRun` | internal/read/fallback.go:67-90 | from any start with a row: a run with a read, a deletion and the late landing of the read's fill, ending in disagreement |
| `WriteBackRuns.PendingMissRun` | internal/table/table_impl.go:165-174 | from any start with a row: a run that enqueues a deletion, then a miss and its current fill, ending in disagreement |
| `WriteBackRuns.StaleFollowerRun` | internal/read/cache_handler.go:38-42 | from any start with a row: a run in which an update shares a read made before a deletion, ending in disagreement |
| `TableImpl.Table.Create` | internal/table/table_impl.go:66-139 | accepted exactly when `ToKV` accepts the record; then, whatever calls on other keys, readers, fills, the drainer and the clock do in between, the row is the table's, the operation the last logged, the record's fields count as supplied, and the look-up hits for a TTL from its cache write; refused, nothing changed |
| `TableImpl.Table.Update` | internal/table/table_impl.go:178-236 | accepted exactly when the table has the row and the updates suit their columns; then the row is overridden with the converted updates, the operation is the last logged, the fields are added to the supplied ones and the look-up hits for a TTL; refused, the key is left alone |
| `TableImpl.Table.Merge` | internal/table/table_impl.go:194-197 | merging field by field in any order is map override |
| `TableImpl.Table.Delete` | internal/table/table_impl.go:239-285 | the table has no such row afterwards, nothing counts as supplied and the deletion is the last logged, whatever else moved |
| `TableImpl.Table.Read` | internal/table/table_impl.go:142-175 | returns a record exactly when the table has the row; it holds every column that was supplied and leaves out only columns at their default; a hit gives the row's values, a miss exactly the scanned row; others move between look-up and query |
| `TableImpl.Table.ReadFromDB` | internal/read/fallback.go:40-71 | the scanned row and exactly one new fill, holding that row; or none and no fill |
| `TableImpl.Table.PopulateCache` | internal/read/fallback.go:75-90 | a current, accepted fill is stored under the record's key with the table's TTL, any other leaves the store alone |
| `TableImpl.Table.Append` | internal/write/wal.go:62-96 | entry and index are two shared writes with everybody else in between; the table's row stays |
| `TableImpl.Table.Complete` | internal/table/table_impl.go:95-133 | from prepared to enqueued, with everybody else moving in between, the write takes effect once, is logged, counts as supplied and can be read back for a TTL |
| `TableImpl.Table.Store` | internal/table/table_impl.go:95-101 | the document is stored under the record's key with the table's TTL, or a deletion removes it, and the table's row changes with it |
| `TableImpl.Table.OtherMoves` | internal/table/table_impl.go:66-285 | any step that is not a write on key n leaves the key's write in flight, its table row and its being settled alone |
| `TableImpl.Table.ExecuteWrite` | internal/table/table_impl.go:432-455 | whatever the protocol enqueued translates, and is applied to the row of its key and to nothing else |
| `TableImpl.EnqueuedTranslates` | internal/table/table_impl.go:303-373 | accepted implies drainable, for every operation of the protocol |
| `Sample.ProtocolRuns` | internal/table/table_impl.go:66-139 | the assumptions can be met: a concrete table on which a create begins |
| `Stampede.InvariantHolds` | internal/read/cache_handler.go:96-241 | the stampede invariant holds in every interleaving of readers and timers |
| `Stampede.ReferenceCounting` | internal/read/cache_handler.go:136-174 | `waiters` is the number of readers between `MarkInFlight` and `MarkComplete`; a key without an entry has none |
| `Stampede.CleanupSparesActiveEntries` | internal/read/cache_handler.go:162-174 | no cleanup timer, however old, removes an entry with an active leader |
| `Stampede.LeadersStayHome` | internal/read/cache_handler.go:153-212 | what a leader publishes or completes lands on the entry it marked |
| `Stampede.ClosedExactlyOnce` | internal/read/cache_handler.go:177-212 | `done` is closed at most once, exactly when one of result and error is set |
| `Stampede.NoStrandedFollower` | internal/read/cache_handler.go:215-241 | the entry a follower holds, even once removed, is closed or has a leader that will publish |
| `Stampede.FollowersAgree` | internal/read/cache_handler.go:215-241 | followers of one entry return the same outcome |
| `Stampede.BoundedStaleness` | internal/read/cache_handler.go:118-150 | what a follower returns was read no earlier than 30 seconds before its own check, even if the entry was replaced |
| `Stampede.FollowersGetTheFetch` | internal/read/cache_handler.go:177-241 | what a follower returns is what a leader of its entry fetched from the store, at an earlier step of the run and at the entry's read time |
| `Stampede.EntriesAreCleanedUp` | internal/read/cache_handler.go:162-174 | no entry leaks: one that nobody leads has a cleanup timer due within 100 milliseconds |
| `StampedePreventer.Preventer.IsInFlight` | internal/read/cache_handler.go:118-133 | true exactly when the key's entry is not past its deadline |
| `StampedePreventer.Preventer.MarkInFlight` | internal/read/cache_handler.go:136-150 | one step of the system; an existing entry is reused |
| `StampedePreventer.Preventer.FindEntry` | internal/read/cache_handler.go:177-185 | the look-up of `SetResult` and `SetError` finds the marked entry |
| `StampedePreventer.Preventer.PublishEntry` | internal/read/cache_handler.go:186-212 | an open entry is closed with the leader's outcome and read time, a closed one is left as it is |
| `StampedePreventer.Preventer.MarkComplete` | internal/read/cache_handler.go:153-174 | the count of the marked entry drops by one |
| `StampedePreventer.Preventer.Cleanup` | internal/read/cache_handler.go:165-173 | removes at most its own key's entry, and only one nobody leads |
| `StampedePreventer.Preventer.TryReceive` | internal/read/cache_handler.go:225-240 | a closed entry gives its outcome, which a leader fetched at its read time, with the staleness bound; an open one gives nothing |
| `StampedePreventer.Preventer.WaitForResult` | internal/read/cache_handler.go:215-241 | returns what a leader of the entry it found fetched, at most 30 seconds before the check; nothing only if there was no entry or the entry is still open when the context is cancelled |
| `StampedePreventer.Preventer.Lead` | internal/read/cache_handler.go:44-65 | the leader finishes, its entry is closed, and the fetch it returns is its own and never older than its call |
| `StampedePreventer.Preventer.Tell` | internal/read/cache_handler.go:177-212 | publishing and completing end with the marked entry closed, whatever others do between the regions |
| `StampedePreventer.Preventer.Read` | internal/read/cache_handler.go:34-66 | a reader that found no read in flight returns what it fetched, any other what a leader of the key fetched or nothing, and nothing returned was read more than 30 seconds before the call |
| `FlushGroups.GroupedIsSequential` | internal/write/buffer.go:152-203 | with one TTL per key, flushing by TTL groups in any order equals writing one by one |
| `FlushGroups.FlushRefinementExact` | internal/write/buffer.go:152-203 | flushing by TTL groups equals writing one by one for every order of the groups if and only if each key of the batch has one TTL |
| `FlushGroups.FullBatch` | internal/write/buffer.go:176-190 | a successful `BatchSet` of a group equals its writes in order |
| `FlushGroups.PartialBatch` | internal/write/buffer.go:190-198 | a `BatchSet` that failed part-way, followed by all individual `Set` calls, does too |
| `WriteBuffer.GroupByTtl` | internal/write/buffer.go:158-166 | the groups are the writes of each TTL, in order |
| `WriteBuffer.CollectItems` | internal/write/buffer.go:168-175 | the batch map holds each key's last value |
| `WriteBuffer.FlushGroup` | internal/write/buffer.go:168-199 | the group's writes reach the store in effect in order, whether or not the batch failed |
| `WriteBuffer.FlushWrites` | internal/write/buffer.go:152-203 | the store is left as some order of the TTL groups leaves it, and as writing one by one leaves it when each key has one TTL |
| `WriteBuffer.BufferConserves` | internal/write/buffer.go:108-149 | accepted writes are the flushed batches followed by the buffer, in every run; the buffer never exceeds its maximum |
| `WriteBuffer.CloseLeavesNothing` | internal/write/buffer.go:234-249 | once a take follows a close, in any run around them, nothing is buffered, all accepted writes are flushed and no more are accepted |
| `WriteBuffer.FlushStaysFaithful` | internal/write/buffer.go:135-149 | the store stays the sequential effect of everything flushed |
| `WriteBuffer.Buffer.Write` | internal/write/buffer.go:108-132 | an open buffer with room accepts and appends in place, a full or closed one refuses and changes nothing; the flush is signalled exactly when the flush size is reached; earlier flushed copies stay as they were |
| `WriteBuffer.Buffer.TakeBatch` | internal/write/buffer.go:135-149 | the copy holds exactly what was buffered and does not alias the reused array |
| `WriteBuffer.Buffer.Flush` | internal/write/buffer.go:135-149 | the batch reaches the store and the buffer is empty |
| `WriteBuffer.Buffer.Close` | internal/write/buffer.go:234-249 | the closing call leaves an empty buffer and every accepted write flushed, others flushing in between; a second call does nothing |
| `Queues.MemoryQueue.constructor` | internal/writeback/memory_queue.go:27-36 | a non-positive capacity becomes 10000 |
| `Queues.MemoryQueue.Enqueue` | internal/writeback/memory_queue.go:39-56 | appends or reports closed, full or cancelled, with each reply's exact condition |
| `Queues.MemoryQueue.Dequeue` | internal/writeback/memory_queue.go:60-84 | takes a prefix, in full unless the context was cancelled; everything ever enqueued is what came out followed by what is in |
| `Queues.QueueKeysApart` | internal/writeback/queue.go:55-62 | table lists are distinct, and distinct from the global list unless the table is `global` |
| `Queues.StepInView` | internal/writeback/queue.go:66-211 | each push or pop keeps both views |
| `Queues.TwoListViews` | internal/writeback/queue.go:66-211 | in every interleaving of pushes and pops the global list is its own push order minus what was popped from it, each table's list its share of the table push order minus what was popped from it, and both orders hold the same operations up to enqueues on their way |
| `Queues.StepInViewExact` | internal/writeback/queue.go:66-211 | a push or pop keeps the views if and only if it is not for a table called `global`, or pops an empty list |
| `Queues.StepInOrderExact` | internal/writeback/queue.go:91-106 | the global order keeps following the table order if and only if no push to the global list overtakes a different operation |
| `Queues.SerialEnqueuesAgree` | internal/writeback/queue.go:91-106 | when enqueues do not overlap both orders are one enqueue sequence |
| `Queues.OverlappingEnqueuesReverse` | internal/writeback/queue.go:91-106 | a run that leaves any two operations in opposite orders |
| `Queues.RedisQueue.Enqueue` | internal/writeback/queue.go:66-107 | pushes to its table's list next and to the global list last, other callers in between, or reports the exact error |
| `Queues.RedisQueue.Dequeue` | internal/writeback/queue.go:132-171 | returns, in pop order, operations it popped itself, up to the batch size, and fewer only if the global list was empty, other callers in between |
| `Queues.RedisQueue.DequeueFromTable` | internal/writeback/queue.go:175-211 | the same for one table's list |
| `RateLimit.ReservationsApart` | pkg/shockabsorber/drainer.go:155-158 | successive reservations of one limiter come due at least one token's time apart |
| `RateLimit.IdleGrantsOne` | pkg/shockabsorber/drainer.go:155-158 | a limiter idle for at least one token's time grants at once and the next token exactly one token's time later, for every rate |
| `RateLimit.BusyGrantsLater` | pkg/shockabsorber/drainer.go:155-158 | a busier one grants exactly one token's time after the last |
| `RateLimit.ActsSpaced` | pkg/shockabsorber/drainer.go:155-158 | whenever tokens of one limiter are reserved, they come due spaced |
| `RateLimit.RateBound` | pkg/shockabsorber/drainer.go:94-110 | over k successive worker runs a window of length T holds at most floor(R·T) + k due grants |
| `RateLimit.RateBoundWithLag` | pkg/shockabsorber/drainer.go:202-212 | with workers that wake up to `lag` late, at most floor(R·(T + lag)) + k |
| `RateLimit.LateWakeExceeds` | pkg/shockabsorber/drainer.go:202-212 | the lag term is needed: reservations of one limiter, one of them taken up late, that exceed floor(R·T) + 1 |
| `Drain.DrainConserves` | pkg/shockabsorber/drainer.go:166-231 | in every run, with failures, cancellation and restarts, the enqueue sequence is log, hand and queue in that order, each operation has one outcome, and a batch size of 1 loses none at the dequeue |
| `Drain.DatabaseIsReplayOfSuccesses` | pkg/shockabsorber/drainer.go:218-229 | the database is, row by row, the replay in enqueue order of exactly the successful operations |
| `Drain.FailuresExplained` | pkg/shockabsorber/drainer.go:218-225 | in every run, faults of the database aside, an attempted operation fails if and only if it creates a key whose row the successes before it left in place |
| `Drain.NIterationsEmptyTheQueue` | pkg/shockabsorber/drainer.go:166-231 | with producers stopped and nothing failing, n non-idle iterations empty an n-element queue, no more are possible, and the database is the replay of the queue |
| `Drain.DrainRateBound` | pkg/shockabsorber/drainer.go:152-212 | every executed or failed operation was granted once, and any worker runs of one drainer obey the rate bound in any window |
| `Drain.RestartsRefill` | pkg/shockabsorber/drainer.go:94-110 | the + k is needed: with k operations queued, a run of k restarts grants all of them at one instant |
| `DrainWorker.Drainer.constructor` | pkg/shockabsorber/drainer.go:70-89 | non-positive rate and batch size become 50 and 1 |
| `DrainWorker.Drainer.Run` | pkg/shockabsorber/drainer.go:152-232 | however producers, clock, cancellation and failures go, the loop is a run of the drain system and its counter the number of granted operations; when nobody produces, stops, cancels or refuses, each iteration grants one operation until the queue is empty |
| `DrainWorker.Drainer.HandleBatch` | pkg/shockabsorber/drainer.go:196-229 | every operation of a batch is waited for and handled in order, or the worker exits |
| `DrainWorker.Drainer.Wait` | pkg/shockabsorber/drainer.go:202-210 | refused, cancelled or granted no earlier than due; a cancelled wait ends the worker |
| `DrainWorker.Drainer.TakeBatch` | pkg/shockabsorber/drainer.go:177-194 | the batch in hand is what was dequeued; nothing is granted here |
| `DrainWorker.Drainer.ExecuteWriteOperation` | internal/table/table_impl.go:432-455 | untranslatable operations and faults fail; otherwise it succeeds exactly when the database takes the operation's statement; for an operation of the protocol, without a fault, unless it creates a key that is there, and then it is applied to its row and to nothing else |
| `DrainWorker.Drainer.Perform` | pkg/shockabsorber/drainer.go:212-229 | one granted operation gets one outcome |
| `Lifecycle.InvariantHolds` | pkg/shockabsorber/drainer.go:94-128 | the lifecycle invariant holds in every run of client calls and workers |
| `Lifecycle.RunningIsStarted` | pkg/shockabsorber/client.go:245-276 | with no call at work each managed drainer runs exactly when the client is started; no channel was ever closed twice |
| `Lifecycle.StopWaitsForTheWorker` | pkg/shockabsorber/drainer.go:114-128 | a waiting `Stop` always has a worker that will close its channel, and returns only when that worker is gone, at most one batch later |
| `Lifecycle.NoTwoWorkers` | pkg/shockabsorber/client.go:125-198 | no table has two live workers if it is never enabled twice without `DisableKV` |
| `Lifecycle.StopLeavesNoWorker` | pkg/shockabsorber/client.go:262-276 | then, once `Stop` has returned, no worker is left |
| `Lifecycle.DoubleEnableExact` | pkg/shockabsorber/client.go:184-192 | enabling a table with a live worker gives it a second one if and only if the client is started |
| `Lifecycle.DoubleEnableOrphans` | pkg/shockabsorber/client.go:184-185 | the replaced drainer is running and in nobody's map |
| `Lifecycle.OrphanOutlivesStop` | pkg/shockabsorber/client.go:184-185 | whatever calls follow, it keeps running and its stop channel stays open |
| `ClientWrapper.Wrapper.EnableKV` | pkg/shockabsorber/client.go:125-198 | the table gets a drainer, running exactly if the client is started; other tables keep theirs |
| `ClientWrapper.Wrapper.DisableKV` | pkg/shockabsorber/client.go:211-224 | comes back, with the drainer out of the map |
| `ClientWrapper.Wrapper.Start` | pkg/shockabsorber/client.go:245-259 | every managed drainer runs |
| `ClientWrapper.Wrapper.Stop` | pkg/shockabsorber/client.go:262-276 | comes back, with every managed drainer's workers exited at most one batch after the signal |
| `ClientWrapper.Wrapper.StartAll` | pkg/shockabsorber/drainer.go:272-282 | starts all drainers in any order, workers moving meanwhile |
| `ClientWrapper.Wrapper.StopAll` | pkg/shockabsorber/drainer.go:285-295 | stops all drainers in any order, one wait at a time |
| `ClientWrapper.Wrapper.Await` | pkg/shockabsorber/drainer.go:123-127 | the wait ends: a stopped worker is at most three moves from its exit |
| `Dynamo.GetReturnsLatest` | internal/kvstore/dynamodb.go:110-121 | in every run under a monotone clock `Get` returns the latest value exactly while it is alive, whenever the sweeper ran |
| `Dynamo.ExpiryBound` | internal/kvstore/dynamodb.go:175-179 | it is returned throughout [t, t + ttl], never from t + ttl + 1 s, and for ever if ttl is not positive |
| `Dynamo.ExtraSecond` | internal/kvstore/dynamodb.go:110-121 | the extra second is tight at both ends |
| `Dynamo.Store.Set` | internal/kvstore/dynamodb.go:149-199 | records the set; a closed store refuses |
| `Dynamo.Store.Get` | internal/kvstore/dynamodb.go:85-146 | the latest value that no delete followed, exactly while it is alive |
| `Dynamo.Store.Delete` | internal/kvstore/dynamodb.go:202-220 | records the delete; a closed store refuses |

## Left out

- Store, WAL and queue failures inside one `Create`, `Update` or `Delete`: a call that fails half way leaves cache and queue apart, so the refinement is stated without them.
- Direct database reads and writes while KV is disabled, and non-empty namespaces: the cache and the database are not kept in step there.
- Aliasing of the record a miss returns with the one its fill caches: `Update` merges into it in place while the fill may be reading it; the model gives the fill the record as read.
- Panicking leaders and callers that change the map a leader returned: the stampede results assume neither.
- JSON byte text: documents are maps from field to JSON value, with numbers as binary64.
- Floating-point columns and time parsing are opaque library functions under `Mapper.Lawful`; binary columns are excluded from the round trip, since JSON encodes bytes in base64 and `toBytes` does not decode it.
- Nil schemas, SQL text and quoting, triggers and generated columns: statements are a datatype with an evaluator.
- StampedePreventer.Preventer.MarkComplete: the branch for a missing entry is not written, because the invariant rules it out; `Stampede.CompleteStep` has it.
- StampedePreventer.Preventer.Lead: does not say which error text a miss produces.
- Mapper.ScanConverts: takes stored text to be scanned unchanged; the normalisation MySQL applies to JSON and DECIMAL text is not modelled.
- Lifecycle: written over values and numbered channels rather than Go objects; aliasing between drainers is the map from table to drainer number.
- RateLimit.RateBound: counts when grants come due; when a late worker goes ahead is covered by `RateLimit.RateBoundWithLag`.
- The limiter's refund on cancellation: the worker exits at once and its limiter with it.
- WAL appends made by the write buffer, its flush ticker and its statistics beyond the counts of accepted and flushed writes.
- The Redis queue without list operations (key-value fallback), undecodable payloads and list errors.
- Closing either queue while it is being used: the client never closes it.
- DynamoDB `Exists`, `BatchSet`, eventual consistency and connection set-up; `created_at` is not modelled.
- `IsAcknowledged` and `Acknowledge` beyond their key: nothing in the table path uses them.
- Kafka, MySQL and Redis drivers, the registry, configuration defaults and validation, `FindByField`, the test server, logging and previews: plumbing, or only easy members.
