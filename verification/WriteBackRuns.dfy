/** Runs that go wrong without the write-back assumptions. They exist for every good
    configuration, every database row and every key. */
module WriteBackRuns {
  import opened GoText
  import opened Mapper
  import opened Validator
  import opened Sql
  import opened Translator
  import opened WriteOps
  import opened WriteBack
  import opened WriteBackLimits
  import StoreKeys

  ghost function Last(states: seq<State>): State
    requires states != []
  {
    states[|states|-1]
  }

  lemma Extends(c: Config, states: seq<State>, steps: seq<Step>, s': State, step: Step)
    requires Run(c, states, steps) && Next(c, Last(states), s', step)
    ensures Run(c, states + [s'], steps + [step]) && Last(states + [s']) == s' && (states + [s'])[0] == states[0]
  {
    hide Next, Init;
  }

  function Missed(s: State, n: int, fill: nat): State
    requires Lookup(s.db, n).Some?
  {
    s.(fills := s.fills[fill := Fill(n, Lookup(s.db, n).value, Version(s, n))])
  }

  function Landed(c: Config, s: State, fill: nat): State
    requires fill in s.fills && KvAccepts(c.lib, c.s, ScanRow(s.fills[fill].row))
  {
    var rec := ScanRow(s.fills[fill].row);
    s.(kv := s.kv[CacheKey(c.lib, c.s, rec[c.s.primaryKey]) :=
                  Cell(Cached(KvDoc(c.lib, c.s, rec)), Expiry(s.now, c.ttl))],
       fills := s.fills - {fill})
  }

  lemma MissStep(c: Config, s: State, n: int, fill: nat)
    requires Settled(s, n) && Lookup(s.db, n).Some? && fill !in s.fills
    ensures Next(c, s, Missed(s, n, fill), ReadMiss(n, fill))
  {
    hide Begins, Proceeds, Settled;
  }

  lemma LandStep(c: Config, s: State, fill: nat)
    requires fill in s.fills && KvAccepts(c.lib, c.s, ScanRow(s.fills[fill].row))
    ensures Lands(c, s, Landed(c, s, fill), fill)
    ensures s.fills[fill].version == Version(s, s.fills[fill].n) ==> Next(c, s, Landed(c, s, fill), LandFill(fill))
  {
    hide Begins, Proceeds, ValidRecord, CacheKey, KvDoc, ScanRow;
  }

  function DeleteOf(c: Config, key: Value): WriteOp { WriteOp(c.s.tableName, OperationDelete, key, None) }

  function Deleting(c: Config, s: State, n: int, key: Value): State {
    s.(flights := s.flights[n := Flight(DeleteOf(c, key), DataKey(c, n), map[], Prepared)])
  }

  /** The deletion has reached the cache. */
  function Deleted(c: Config, s: State, n: int, key: Value): State {
    s.(flights := s.flights[n := Flight(DeleteOf(c, key), DataKey(c, n), map[], Stored)],
       kv := s.kv - {DataKey(c, n)}, versions := s.versions[n := Version(s, n) + 1], table := s.table - {n})
  }

  lemma DeleteSteps(c: Config, s: State, n: int, key: Value)
    requires n !in s.flights && KeyOk(c, n, key)
    ensures Next(c, s, Deleting(c, s, n, key), BeginDelete(n, key))
    ensures Next(c, Deleting(c, s, n, key), Deleted(c, s, n, key), Store(n))
  {
    hide KeyOk, DataKey, Serves;
    assert Begins(c, s, Deleting(c, s, n, key), BeginDelete(n, key));
    var s1, s2 := Deleting(c, s, n, key), Deleted(c, s, n, key);
    assert s1.flights[n := Flight(DeleteOf(c, key), DataKey(c, n), map[], Stored)] == s2.flights;
    assert Proceeds(c, s1, s2, Store(n));
  }

  lemma DeleteRun(c: Config, states: seq<State>, steps: seq<Step>, n: int, key: Value)
    returns (states': seq<State>, steps': seq<Step>)
    requires Run(c, states, steps) && n !in Last(states).flights && KeyOk(c, n, key)
    ensures Run(c, states', steps') && states <= states' && states != []
    ensures Last(states') == Deleted(c, Last(states), n, key)
  {
    hide Run, Next, KeyOk, DataKey;
    RunNotEmpty(c, states, steps);
    var s := Last(states);
    DeleteSteps(c, s, n, key);
    Extends(c, states, steps, Deleting(c, s, n, key), BeginDelete(n, key));
    states', steps' := states + [Deleting(c, s, n, key)], steps + [BeginDelete(n, key)];
    Extends(c, states', steps', Deleted(c, s, n, key), Store(n));
    states', steps' := states' + [Deleted(c, s, n, key)], steps' + [Store(n)];
  }

  lemma RunNotEmpty(c: Config, states: seq<State>, steps: seq<Step>)
    requires Run(c, states, steps)
    ensures states != []
  {
  }

  /** From the cache write to the queue. */
  lemma FinishRun(c: Config, states: seq<State>, steps: seq<Step>, n: int)
    returns (states': seq<State>, steps': seq<Step>)
    requires Run(c, states, steps) && n in Last(states).flights && Last(states).flights[n].stage.Stored?
    ensures Run(c, states', steps') && states <= states' && states != []
    ensures var s, s' := Last(states), Last(states');
      && s'.table == s.table && s'.db == s.db && s'.fills == s.fills && s'.hand == s.hand
      && s'.flights == s.flights - {n} && s'.queue == s.queue + [s.flights[n].op]
  {
    hide Run, Begins, Serves, EntryKey, StampKey, WalOf, Render, StoreKeys.OperationId;
    RunNotEmpty(c, states, steps);
    var s, f := Last(states), Last(states).flights[n];
    var id := StoreKeys.OperationId(c.s.tableName, Render(c.lib, f.op.key), s.now);
    var s1 := s.(kv := s.kv[EntryKey(c, id) := Cell(Entry(WalOf(c, f.op)), Some(s.now + DAY))],
                 flights := s.flights[n := f.(stage := EntryWritten(id, s.now))], now := s.now + 1);
    var s2 := s1.(kv := s1.kv[StampKey(c, 0, id) := Cell(Index(id), Some(s1.now + DAY))],
                  flights := s1.flights[n := f.(stage := Logged(id, s.now))]);
    var s3 := s2.(queue := s2.queue + [f.op], flights := s2.flights - {n},
                  log := s2.log + [Logging(f.op, id, s.now)]);
    Extends(c, states, steps, s1, WriteEntry(n));
    Extends(c, states + [s1], steps + [WriteEntry(n)], s2, WriteIndex(n, 0));
    Extends(c, states + [s1] + [s2], steps + [WriteEntry(n)] + [WriteIndex(n, 0)], s3, Enqueue(n));
    states', steps' := states + [s1] + [s2] + [s3], steps + [WriteEntry(n)] + [WriteIndex(n, 0)] + [Enqueue(n)];
  }

  /** A miss over the initial state. */
  lemma FirstMiss(c: Config, s0: State, n: int)
    requires GoodConfig(c) && Init(c, s0) && Lookup(s0.db, n).Some?
    ensures Run(c, [s0, Missed(s0, n, 0)], [ReadMiss(n, 0)])
    ensures Whole(c, n, Lookup(s0.db, n).value) && KvAccepts(c.lib, c.s, ScanRow(Lookup(s0.db, n).value))
    ensures s0.flights == map[] && s0.fills == map[]
  {
    hide GoodConfig, RowGood, NotNull, KvAccepts, ScanRow, RowsNotNull, Next;
    assert Settled(s0, n);
    MissStep(c, s0, n, 0);
    InTable(c, s0.db, n);
    ScannedAccepted(c, n, Lookup(s0.db, n).value);
  }

  /** A late fill: a row is read and a fill started, the row is deleted, and the fill lands as
      the source lands it. The deleted record is back in the cache. */
  lemma LateFillRun(c: Config, s0: State, n: int, key: Value)
    returns (states: seq<State>, steps: seq<Step>, s': State)
    requires GoodConfig(c) && Init(c, s0) && Lookup(s0.db, n).Some? && KeyOk(c, n, key)
    ensures Run(c, states, steps) && states[0] == s0 && Lands(c, Last(states), s', 0) && !CacheOk(c, s')
  {
    hide GoodConfig, Run, Init, Inv, KeyOk, DataKey, KvAccepts, ScanRow, CacheOk, Whole, Lands, Landed;
    FirstMiss(c, s0, n);
    states, steps := DeleteRun(c, [s0, Missed(s0, n, 0)], [ReadMiss(n, 0)], n, key);
    s' := Landed(c, Last(states), 0);
    LandStep(c, Last(states), 0);
    LandingExact(c, states, steps, |states| - 1, 0, s');
  }

  /** A miss while an operation is pending: a row is deleted up to the queue, and a miss reads
      the row the drainer has not deleted yet. Its fill is current and lands. */
  lemma PendingMissRun(c: Config, s0: State, n: int, key: Value)
    returns (states: seq<State>, steps: seq<Step>, s1: State, s2: State)
    requires GoodConfig(c) && Init(c, s0) && Lookup(s0.db, n).Some? && KeyOk(c, n, key)
    ensures Run(c, states, steps) && states[0] == s0
    ensures Misses(Last(states), s1, n, 0) && Lands(c, s1, s2, 0) && !CacheOk(c, s2)
    ensures s1.fills[0].version == Version(s1, n)
  {
    hide GoodConfig, Run, Init, Inv, KeyOk, DataKey, KvAccepts, ScanRow, CacheOk, Whole, Lands, Landed, View;
    FirstMiss(c, s0, n);
    OneState(c, s0);
    states, steps := DeleteRun(c, [s0], [], n, key);
    states, steps := FinishRun(c, states, steps, n);
    var s := Last(states);
    s1 := Missed(s, n, 0);
    s2 := Landed(c, s1, 0);
    LandStep(c, s1, 0);
    MissExact(c, states, steps, |states| - 1, n, 0, s1, s2);
    InvariantHolds(c, states, steps, |states| - 1);
    RowAt(c, s, n);
  }

  lemma OneState(c: Config, s0: State)
    requires Init(c, s0)
    ensures Run(c, [s0], [])
  {
  }

  /** The record of a row, read through the cache, as a leader fetches it. */
  function Fetched(c: Config, row: Row): Record
    requires KvAccepts(c.lib, c.s, ScanRow(row)) && KvReadable(c.lib, c.s, KvDoc(c.lib, c.s, ScanRow(row)))
  {
    KvRecord(c.lib, c.s, KvDoc(c.lib, c.s, ScanRow(row)))
  }

  /** A row is read and cached, and a leader fetches it from there. */
  lemma FetchRun(c: Config, s0: State, n: int) returns (states: seq<State>, steps: seq<Step>)
    requires GoodConfig(c) && Init(c, s0) && Lookup(s0.db, n).Some?
    ensures var row := Lookup(s0.db, n).value;
      && Run(c, states, steps) && states != [] && states[0] == s0 && Last(states).flights == map[]
      && Whole(c, n, row) && KvAccepts(c.lib, c.s, ScanRow(row))
      && KvReadable(c.lib, c.s, KvDoc(c.lib, c.s, ScanRow(row)))
      && DataKey(c, n) in Last(states).kv
      && Last(states).kv[DataKey(c, n)].content == Cached(KvDoc(c.lib, c.s, ScanRow(row)))
      && Mirrors(c, n, Fetched(c, row), row) && Fetched(c, row).Keys == ColumnSet(c.s.columns)
  {
    hide GoodConfig, Run, Init, Inv, DataKey, CacheKey, ValidRecord, AllConvert, ScanRow, KvReadable, Mirrors, Whole,
      Lands, Fetched, KvDoc;
    var row := Lookup(s0.db, n).value;
    FirstMiss(c, s0, n);
    var s1 := Missed(s0, n, 0);
    var s2 := Landed(c, s1, 0);
    LandStep(c, s1, 0);
    Extends(c, [s0, s1], [ReadMiss(n, 0)], s2, LandFill(0));
    states, steps := [s0, s1] + [s2], [ReadMiss(n, 0)] + [LandFill(0)];
    InvariantHolds(c, states, steps, 2);
    FillRow(c, s0, s2, n);
    FetchedMirrors(c, s2, n, row);
  }

  lemma FetchedMirrors(c: Config, s: State, n: int, row: Row)
    requires GoodConfig(c) && Inv(c, s) && Whole(c, n, row) && KvAccepts(c.lib, c.s, ScanRow(row))
    requires n in s.table && s.table[n] == row
    requires var k := CacheKey(c.lib, c.s, ScanRow(row)[c.s.primaryKey]);
      k in s.kv && s.kv[k].content == Cached(KvDoc(c.lib, c.s, ScanRow(row)))
    ensures CacheKey(c.lib, c.s, ScanRow(row)[c.s.primaryKey]) == DataKey(c, n)
    ensures KvReadable(c.lib, c.s, KvDoc(c.lib, c.s, ScanRow(row)))
    ensures Mirrors(c, n, Fetched(c, row), row) && Fetched(c, row).Keys == ColumnSet(c.s.columns)
  {
    hide GoodConfig, Inv, DataKey, CacheKey, ValidRecord, AllConvert, KvReadable, Mirrors, RowGood, NotNull, ScanRow;
    ScannedAccepted(c, n, row);
    MirrorAgrees(c, n, ScanRow(row), row);
    ScanHolds(c, n, row);
    HitReadable(c, s, n);
  }

  lemma FillRow(c: Config, s0: State, s2: State, n: int)
    requires Init(c, s0) && s2.table == s0.table && Lookup(s0.db, n).Some?
    ensures n in s2.table && s2.table[n] == Lookup(s0.db, n).value
  {
    hide RowGood, RowsNotNull;
    assert TableRow(s0.table, n) == Lookup(s0.db, n);
  }

  /** An update that follows such a leader after a deletion has completed caches a record the
      table lacks. */
  lemma StaleFollowerRun(c: Config, s0: State, n: int, key: Value, updates: Record)
    returns (states: seq<State>, steps: seq<Step>, rec: Record, s1: State, s2: State)
    requires GoodConfig(c) && Init(c, s0) && Lookup(s0.db, n).Some? && KeyOk(c, n, key)
    requires GoodUpdates(c, updates) && ValidPartial(c.lib, c.s, updates)
    ensures Run(c, states, steps) && states != [] && states[0] == s0
    ensures exists i :: 0 <= i < |states| && ReadsAs(c, states[i], n, rec)
    ensures Follows(c, Last(states), s1, n, key, updates, rec) && Proceeds(c, s1, s2, Store(n)) && !CacheOk(c, s2)
  {
    hide GoodConfig, Run, Init, Inv, KeyOk, DataKey, KvAccepts, ScanRow, CacheOk, Whole, RowGood, Mirrors,
      GoodUpdates, ValidPartial, KvReadable, KvRecord, Follows, Proceeds;
    var row := Lookup(s0.db, n).value;
    var before, taken := FetchRun(c, s0, n);
    rec := Fetched(c, row);
    states, steps := DeleteRun(c, before, taken, n, key);
    states, steps := FinishRun(c, states, steps, n);
    assert ReadsAs(c, states[|before|-1], n, rec);
    InvariantHolds(c, states, steps, |states| - 1);
    s1, s2 := StoreStale(c, Last(states), n, key, updates, rec, row);
  }

  lemma StoreStale(c: Config, s: State, n: int, key: Value, updates: Record, rec: Record, row: Row)
    returns (s1: State, s2: State)
    requires GoodConfig(c) && Inv(c, s) && n !in s.flights && n !in s.table
    requires KeyOk(c, n, key) && GoodUpdates(c, updates) && ValidPartial(c.lib, c.s, updates)
    requires Whole(c, n, row) && Mirrors(c, n, rec, row) && rec.Keys == ColumnSet(c.s.columns)
    ensures Follows(c, s, s1, n, key, updates, rec) && Proceeds(c, s1, s2, Store(n)) && !CacheOk(c, s2)
  {
    hide GoodConfig, Inv, KeyOk, GoodUpdates, ValidPartial, RowGood, NotNull, Mirrors, CacheOk,
      ValidRecord, AllConvert, CacheKey, KvDoc;
    ColumnsComplete(c, rec);
    MergedAccepted(c, n, rec, row, updates);
    var op := UpdateOp(c, key, updates);
    var f := Fly(op, c, rec + updates);
    s1 := s.(flights := s.flights[n := f]);
    s2 := s1.(
      kv := s1.kv[f.kvKey := Cell(Cached(f.doc), Expiry(s1.now, c.ttl))],
      flights := s1.flights[n := f.(stage := Stored)],
      versions := s1.versions[n := Version(s1, n) + 1],
      table := SetRow(s1.table, n, Apply(c, op, TableRow(s1.table, n))));
    UpdatesConvert(c, updates);
    FollowerUpdateExact(c, s, s1, s2, n, key, updates, rec, row);
  }

  lemma ColumnsComplete(c: Config, rec: Record)
    requires rec.Keys == ColumnSet(c.s.columns)
    ensures Complete(c, rec)
  {
    hide ConvertToDB;
  }

  /** The record a leader fetches from the cache in a state. */
  ghost predicate ReadsAs(c: Config, s: State, n: int, rec: Record) {
    && DataKey(c, n) in s.kv && s.kv[DataKey(c, n)].content.Cached?
    && KvReadable(c.lib, c.s, s.kv[DataKey(c, n)].content.doc)
    && rec == KvRecord(c.lib, c.s, s.kv[DataKey(c, n)].content.doc)
  }
}
