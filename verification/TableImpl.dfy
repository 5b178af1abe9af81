/** `TableImpl` as a program over the shared store, queue and database. Each shared access is a
    method that takes one step of `WriteBack`, or a cache look-up, which changes nothing.
    Between the accesses of one call, calls on other keys begin and proceed, readers miss,
    fills land or are lost, the drainer works and time passes, in any order. */
module TableImpl {
  import opened GoText
  import opened Mapper
  import opened Validator
  import opened Sql
  import opened Translator
  import opened WriteOps
  import opened WriteBack
  import opened WriteBackLimits
  import opened WriteBackReads
  import StoreKeys

  class Table {
    const c: Config
    var now: int
    var kv: map<string, Cell>
    var db: Db
    var queue: seq<WriteOp>
    var hand: Option<WriteOp>
    var flights: map<int, Flight>
    var fills: map<nat, Fill>
    var nextFill: nat
    var versions: map<int, nat>
    ghost var table: map<int, Row>
    ghost var log: seq<Logging>
    ghost var states: seq<State>
    ghost var steps: seq<Step>

    ghost function Abs(): State
      reads this
    {
      State(now, kv, db, queue, hand, flights, fills, versions, table, log)
    }

    ghost predicate Valid()
      reads this
    {
      GoodConfig(c) && Run(c, states, steps) && states[|states|-1] == Abs() && Inv(c, Abs()) && FillsNumbered()
    }

    /** Fills are numbered as they start. */
    ghost predicate FillsNumbered()
      reads this
    {
      forall i :: i in fills ==> i < nextFill
    }

    /** What a guard may look at: everything but the bookkeeping of the proof. */
    function Snapshot(): State
      reads this
    {
      State(now, kv, db, queue, hand, flights, fills, versions, map[], [])
    }

    /** Over a database of good rows. */
    constructor (c0: Config, now0: int, db0: Db, ghost rows: map<int, Row>)
      requires GoodConfig(c0) && RowsNotNull(c0.s, db0)
      requires forall n :: TableRow(rows, n) == Lookup(db0, n)
      requires forall n :: Lookup(db0, n).Some? ==> RowGood(c0, n, Lookup(db0, n).value)
      ensures Valid() && c == c0 && db == db0 && table == rows && flights == map[] && log == []
    {
      hide GoodConfig, Inv, Run, RowsNotNull, RowGood, Lookup, TableRow;
      FreshRun(c0, now0, db0, rows);
      c, now, kv, db, queue, hand := c0, now0, map[], db0, [], None;
      flights, fills, nextFill, versions, table, log := map[], map[], 0, map[], rows, [];
      states, steps := [Fresh(now0, db0, rows)], [];
    }

    /** Record a step the fields have just taken. */
    ghost method Note(step: Step)
      requires GoodConfig(c) && Run(c, states, steps) && Next(c, states[|states|-1], Abs(), step) && FillsNumbered()
      modifies this`states, this`steps
      ensures Valid() && states == old(states) + [Abs()] && steps == old(steps) + [step]
    {
      hide GoodConfig, Inv, Next, Init;
      states, steps := states + [Abs()], steps + [step];
      InvariantHolds(c, states, steps, |states| - 1);
    }

    /** A write's KV access: `Set`, or `Delete` for a deletion. */
    method Store(n: int)
      requires Valid() && n in flights && flights[n].stage.Prepared?
      modifies this`kv, this`flights, this`versions, this`table, this`states, this`steps
      ensures Valid() && states == old(states) + [Abs()] && steps == old(steps) + [Step.Store(n)]
      ensures var f := old(flights)[n];
        kv == if f.op.kind == OperationDelete then old(kv) - {f.kvKey}
              else old(kv)[f.kvKey := Cell(Cached(f.doc), Expiry(now, c.ttl))]
      ensures flights == old(flights)[n := old(flights[n]).(stage := Stored)]
      ensures table == SetRow(old(table), n, Apply(c, old(flights[n]).op, TableRow(old(table), n)))
    {
      hide GoodConfig, Inv, Run, Next, Apply, SetRow, TableRow, Expiry;
      StoreStep(c, Abs(), n);
      var f := flights[n];
      if f.op.kind == OperationDelete {
        kv := kv - {f.kvKey};
      } else {
        kv := kv[f.kvKey := Cell(Cached(f.doc), Expiry(now, c.ttl))];
      }
      flights := flights[n := f.(stage := Stored)];
      versions := versions[n := (if n in versions then versions[n] else 0) + 1];
      table := SetRow(table, n, Apply(c, f.op, TableRow(table, n)));
      Note(Step.Store(n));
    }

    /** `WALManager.Append`, first write: the entry, under an identifier of the key and time. */
    method AppendEntry(n: int)
      requires Valid() && n in flights && flights[n].stage.Stored?
      modifies this`now, this`kv, this`flights, this`states, this`steps
      ensures Valid() && old(states) <= states && NoStores(old(steps), steps)
      ensures n in flights && flights[n].stage.EntryWritten?
      ensures flights == old(flights)[n := old(flights[n]).(stage := flights[n].stage)]
      ensures now == old(now) + 1
    {
      hide GoodConfig, Inv, Run, Begins, Serves, Render, StoreKeys.Text, StoreKeys.OperationId;
      var f := flights[n];
      var id := StoreKeys.OperationId(c.s.tableName, Render(c.lib, f.op.key), now);
      kv := kv[EntryKey(c, id) := Cell(Entry(WalOf(c, f.op)), Some(now + DAY))];
      flights := flights[n := f.(stage := EntryWritten(id, now))];
      now := now + 1;
      Note(WriteEntry(n));
    }

    /** Second write: the timestamp key. */
    method AppendIndex(n: int, stamp: int)
      requires Valid() && n in flights && flights[n].stage.EntryWritten?
      modifies this`kv, this`flights, this`states, this`steps
      ensures Valid() && old(states) <= states && NoStores(old(steps), steps)
      ensures n in flights && flights[n].stage.Logged?
      ensures flights == old(flights)[n := old(flights[n]).(stage := flights[n].stage)]
    {
      hide GoodConfig, Inv, Run, Begins, Serves, StoreKeys.Text;
      var f := flights[n];
      kv := kv[StampKey(c, stamp, f.stage.id) := Cell(Index(f.stage.id), Some(now + DAY))];
      flights := flights[n := f.(stage := Logged(f.stage.id, f.stage.at))];
      Note(WriteIndex(n, stamp));
    }

    method EnqueueWrite(n: int)
      requires Valid() && n in flights && flights[n].stage.Logged?
      modifies this`queue, this`flights, this`log, this`states, this`steps
      ensures Valid() && old(states) <= states && NoStores(old(steps), steps)
      ensures flights == old(flights) - {n} && queue == old(queue) + [old(flights[n]).op]
      ensures log == old(log) + [Logging(old(flights[n]).op, old(flights[n]).stage.id, old(flights[n]).stage.at)]
    {
      hide GoodConfig, Inv, Run, Begins, Serves;
      var f := flights[n];
      queue := queue + [f.op];
      flights := flights - {n};
      log := log + [Logging(f.op, f.stage.id, f.stage.at)];
      Note(Enqueue(n));
    }

    /** The next access of one write in flight. */
    method Proceed(m: int)
      requires Valid() && m in flights
      modifies this`now, this`kv, this`queue, this`flights, this`versions, this`table, this`log, this`states, this`steps
      ensures Valid() && old(states) <= states && old(log) <= log && StoresOnly(old(steps), steps, m)
      ensures forall n :: n != m ==> TableRow(table, n) == TableRow(old(table), n)
      ensures forall n :: n != m ==> (n in flights <==> n in old(flights))
      ensures forall n :: n != m && n in flights ==> flights[n] == old(flights)[n]
      ensures queue == old(queue) || queue == old(queue) + [old(flights)[m].op]
      ensures now >= old(now)
    {
      hide GoodConfig, Inv, Run, Apply;
      match flights[m].stage
      case Prepared => Store(m);
      case Stored => AppendEntry(m);
      case EntryWritten(_, _) =>
        var stamp: int := *;
        AppendIndex(m, stamp);
      case Logged(_, _) => EnqueueWrite(m);
    }

    method Elapse(dt: nat)
      requires Valid()
      modifies this`now, this`states, this`steps
      ensures Valid() && old(states) <= states && NoStores(old(steps), steps)
      ensures now == old(now) + dt
    {
      hide GoodConfig, Inv, Run, Begins, Proceeds;
      now := now + dt;
      Note(Tick(dt));
    }

    function Current(i: nat): bool
      requires i in fills
      reads this
    {
      fills[i].version == if fills[i].n in versions then versions[fills[i].n] else 0
    }

    /** `populateCache`: a fill lands if it is still current and `ToKV` accepts it; any other
        leaves the store alone. */
    method PopulateCache(i: nat)
      requires Valid() && i in fills
      modifies this`kv, this`fills, this`states, this`steps
      ensures Valid() && old(states) <= states && NoStores(old(steps), steps) && fills == old(fills) - {i}
      ensures var rec := ScanRow(old(fills)[i].row);
        kv == if old(Current(i)) && KvAccepts(c.lib, c.s, rec)
              then old(kv)[CacheKey(c.lib, c.s, rec[c.s.primaryKey]) :=
                           Cell(Cached(KvDoc(c.lib, c.s, rec)), Expiry(now, c.ttl))]
              else old(kv)
    {
      hide GoodConfig, Inv, Run, Begins, Proceeds, ValidRecord, AllConvert, CacheKey, KvDoc, ScanRow, Expiry;
      var rec := ScanRow(fills[i].row);
      var current := Current(i);
      var value := ToKV(c.lib, c.s, Some(rec));
      fills := fills - {i};
      if current && value.Some? {
        kv := kv[value.value.0 := Cell(Cached(value.value.1), Expiry(now, c.ttl))];
        Note(LandFill(i));
      } else {
        Note(LoseFill(i));
      }
    }

    /** A fill that fails on the way. */
    method DropFill(i: nat)
      requires Valid() && i in fills
      modifies this`fills, this`states, this`steps
      ensures Valid() && old(states) <= states && NoStores(old(steps), steps) && fills == old(fills) - {i}
    {
      hide GoodConfig, Inv, Run, Begins, Proceeds;
      fills := fills - {i};
      Note(LoseFill(i));
    }

    /** The drainer takes the first operation. */
    method DequeueWrite()
      requires Valid() && hand.None? && queue != []
      modifies this`queue, this`hand, this`states, this`steps
      ensures Valid() && old(states) <= states && NoStores(old(steps), steps)
      ensures hand == Some(old(queue)[0]) && queue == old(queue)[1..]
    {
      hide GoodConfig, Inv, Run, Begins, Proceeds;
      hand, queue := Some(queue[0]), queue[1..];
      Note(Dequeue);
    }

    /** `ExecuteWriteOperation`: what the protocol enqueued always translates, and is applied to
        the row of its key and to nothing else. */
    method ExecuteWrite()
      requires Valid() && hand.Some?
      modifies this`db, this`hand, this`states, this`steps
      ensures Valid() && old(states) <= states && NoStores(old(steps), steps) && hand.None?
      ensures var op := old(hand).value;
        op.key.Int? && Applicable(c, op) && Applied(c, op.key.n, op, old(db), db)
    {
      hide Inv, Run, Begins, Proceeds, OpOk, Translates, Exec, GoodConfig, Translatable, RowsNotNull, RowApply, After;
      HandOk(c, Abs());
      OpOkApplicable(c, hand.value.key.n, hand.value);
      EnqueuedTranslates(c, hand.value.key.n, hand.value);
      InvParts(c, Abs());
      var statement := StatementFor(c, hand.value);
      ExecuteMeaning(c, hand.value.key.n, hand.value, statement.value.0, statement.value.1, db);
      db := After(c.s, db, statement.value.0, statement.value.1);
      hand := None;
      Note(Execute(statement.value.0, statement.value.1));
    }

    /* ---------- everybody else ---------- */

    /** Another write proceeds. */
    method OtherProceeds(n: int, m: int)
      requires Valid() && m != n && m in flights
      modifies this
      ensures Valid() && old(states) <= states && Quiet(old(steps), steps, n)
      ensures Spares(old(Abs()), Abs(), n)
    {
      hide GoodConfig, Inv, Run, Apply;
      ghost var before := Abs();
      FlightIsFor(c, Abs(), m);
      Proceed(m);
      StillSettled(before, Abs(), n, before.flights[m].op);
      assert Quiet(old(steps), steps, n);
    }

    /** The drainer moves. */
    method DrainerMoves(n: int)
      requires Valid()
      modifies this
      ensures Valid() && old(states) <= states && Quiet(old(steps), steps, n)
      ensures Spares(old(Abs()), Abs(), n)
    {
      hide GoodConfig, Inv, Run, Applied, Applicable;
      ghost var before := Abs();
      if hand.Some? {
        ExecuteWrite();
      } else if queue != [] {
        DequeueWrite();
      }
      FewerPending(before, Abs(), n);
    }

    /** A fill moves, or time passes. */
    method QuietMoves(n: int)
      requires Valid()
      modifies this
      ensures Valid() && old(states) <= states && Quiet(old(steps), steps, n)
      ensures Spares(old(Abs()), Abs(), n)
    {
      hide GoodConfig, Inv, Run, KvAccepts, CacheKey, KvDoc, ScanRow, Expiry;
      ghost var before := Abs();
      var i: nat :| i >= 0;
      if * {
        if i in fills { PopulateCache(i); }
      } else if * {
        if i in fills { DropFill(i); }
      } else {
        Elapse(i);
      }
      FewerPending(before, Abs(), n);
    }

    /** A create or a delete on another key begins. */
    method OtherStarts(n: int)
      requires Valid()
      modifies this
      ensures Valid() && old(states) <= states && Quiet(old(steps), steps, n)
      ensures Spares(old(Abs()), Abs(), n)
    {
      hide GoodConfig, Inv, Run, KvAccepts, AllFaithful, KeyOk, View, Settled, Hit;
      ghost var before := Abs();
      SnapshotSees(Abs(), Snapshot(), c);
      var m: int := *;
      var key: Value := *;
      var record: Record := *;
      if * {
        if m != n && m !in flights && View(c, Snapshot(), m).None? && KvAccepts(c.lib, c.s, record)
          && AllFaithful(c, record) && RecordKeyOk(c, m, record) {
          RowAt(c, Abs(), m);
          StartCreate(m, record);
        }
      } else if m != n && m !in flights && KeyOk(c, m, key) {
        StartDelete(m, key);
      }
      FewerPending(before, Abs(), n);
    }

    /** Another update hits or misses, or a reader that missed queries. */
    method OtherReads(n: int)
      requires Valid()
      modifies this
      ensures Valid() && old(states) <= states && Quiet(old(steps), steps, n)
      ensures Spares(old(Abs()), Abs(), n)
    {
      hide GoodConfig, Inv, Run, KeyOk, GoodUpdates, View, Settled, Hit, Mirrors, ValidPartial;
      ghost var before := Abs();
      SnapshotSees(Abs(), Snapshot(), c);
      var m: int := *;
      var key: Value := *;
      var updates: Record := *;
      if * {
        if m != n && m !in flights && KeyOk(c, m, key) && GoodUpdates(c, updates) && Hit(c, Snapshot(), m) {
          var _ := BeginUpdateCached(m, key, updates);
        }
      } else if * {
        if m != n && m !in flights && KeyOk(c, m, key) && GoodUpdates(c, updates) && Settled(Snapshot(), m) {
          var _ := BeginUpdateUncached(m, key, updates);
        }
      } else if Settled(Snapshot(), m) {
        var _ := ReadFromDB(m);
      }
      FewerPending(before, Abs(), n);
    }

    /** One event that is not the write on `n`. */
    method OtherMoves(n: int)
      requires Valid()
      modifies this
      ensures Valid() && old(states) <= states && Quiet(old(steps), steps, n)
      ensures Spares(old(Abs()), Abs(), n)
    {
      hide GoodConfig, Inv, Run, Spares;
      ghost var before := Abs();
      SparesSelf(before, n);
      var m: int := *;
      if * {
        if m != n && m in flights { OtherProceeds(n, m); }
      } else if * {
        DrainerMoves(n);
      } else if * {
        QuietMoves(n);
      } else if * {
        OtherStarts(n);
      } else {
        OtherReads(n);
      }
    }

    method OthersMove(n: int)
      requires Valid()
      modifies this
      ensures Valid() && old(states) <= states && Quiet(old(steps), steps, n)
      ensures Spares(old(Abs()), Abs(), n)
    {
      hide GoodConfig, Inv, Run, Spares;
      ghost var before := Abs();
      SparesSelf(before, n);
      var moves: nat :| moves >= 0;
      for k := 0 to moves
        invariant Valid() && old(states) <= states && Quiet(old(steps), steps, n) && Spares(before, Abs(), n)
      {
        ghost var turn, taken := Abs(), steps;
        OtherMoves(n);
        SparesOn(before, turn, Abs(), n);
        QuietOn(old(steps), taken, steps, n);
      }
    }

    /* ---------- the calls ---------- */

    /** `WALManager.Append`. */
    method Append(n: int, stamp: int)
      requires Valid() && n in flights && flights[n].stage.Stored?
      modifies this
      ensures Valid() && old(states) <= states && old(log) <= log && Quiet(old(steps), steps, n)
      ensures n in flights && flights[n].op == old(flights)[n].op && flights[n].stage.Logged?
      ensures TableRow(table, n) == TableRow(old(table), n)
    {
      hide GoodConfig, Inv, Run, TableRow, Settled;
      AppendEntry(n);
      OthersMove(n);
      AppendIndex(n, stamp);
    }

    /** The write reaches the cache: the moment it takes effect. */
    method ReachCache(n: int) returns (ghost j: nat)
      requires Valid() && n in flights && flights[n].stage.Prepared?
      modifies this
      ensures Valid() && old(states) <= states && old(log) <= log
      ensures n in flights && flights[n].op == old(flights)[n].op && flights[n].stage.Stored?
      ensures OneWrite(old(steps), states, steps, j, n, old(flights)[n].op) && states[j].now >= old(now)
      ensures TableRow(table, n) == Apply(c, old(flights)[n].op, TableRow(old(table), n))
    {
      hide GoodConfig, Inv, Next, Init, Apply, Settled, TableRow, SetRow, Expiry;
      OthersMove(n);
      j := |steps|;
      RowAfter(table, n, Apply(c, flights[n].op, TableRow(table, n)));
      Store(n);
    }

    /** From the cache to the queue. */
    method LogAndEnqueue(n: int, stamp: int)
      requires Valid() && n in flights && flights[n].stage.Stored?
      modifies this
      ensures Valid() && old(states) <= states && Quiet(old(steps), steps, n) && n !in flights
      ensures TableRow(table, n) == TableRow(old(table), n)
      ensures old(log) < log && log[|log|-1].op == old(flights)[n].op
    {
      hide GoodConfig, Inv, Run, Settled, TableRow;
      OthersMove(n);
      Append(n, stamp);
      OthersMove(n);
      EnqueueWrite(n);
    }

    /** From prepared to enqueued. What the write stored can be read back for a TTL from `at`
        on, and its fields count as supplied. */
    method Complete(n: int, stamp: int) returns (ghost at: int)
      requires Valid() && n in flights && flights[n].stage.Prepared?
      modifies this
      ensures Valid() && old(states) <= states && n !in flights
      ensures TableRow(table, n) == Apply(c, old(flights)[n].op, TableRow(old(table), n))
      ensures old(log) < log && log[|log|-1].op == old(flights)[n].op
      ensures var op := old(flights)[n].op;
        && Must(states, steps, n) == Supplies(op, old(Must(states, steps, n)))
        && (op.kind != OperationDelete ==> old(now) <= at <= now && Lasting(c, Abs(), n, at))
    {
      hide GoodConfig, Inv, Next, Init, Apply, TableRow, Lasting, Must;
      ghost var op, states0, steps0 := flights[n].op, states, steps;
      ghost var j := ReachCache(n);
      ghost var states1 := states;
      at := states[j].now;
      LogAndEnqueue(n, stamp);
      assert OneWrite(steps0, states, steps, j, n, op);
      OneWriteMust(states0, steps0, states, steps, j, n, op);
      if op.kind != OperationDelete { OneWriteLasts(c, steps0, states, steps, j, n, op); }
    }

    /** Translate an accepted record and prepare its write. */
    method StartCreate(n: int, record: Record)
      requires Valid() && n !in flights && TableRow(table, n).None? && KvAccepts(c.lib, c.s, record)
      requires AllFaithful(c, record) && KeyOk(c, n, record[c.s.primaryKey])
      modifies this`flights, this`states, this`steps
      ensures Valid() && old(states) <= states && NoStores(old(steps), steps)
      ensures n in flights && flights == old(flights)[n := flights[n]]
      ensures flights[n].stage.Prepared? && flights[n].op == CreateOp(c, record)
    {
      hide GoodConfig, Inv, Run, Proceeds, Serves, AllFaithful, KeyOk, CacheKey, KvDoc, View, AllConvert, ValidRecord;
      var value := ToKV(c.lib, c.s, Some(record));
      RowAt(c, Abs(), n);
      flights := flights[n := Flight(CreateOp(c, record), value.value.0, value.value.1, Prepared)];
      Note(BeginCreate(n, record));
    }

    /** `Create` on an absent key, writers being serial per key: accepted exactly when the
        record is valid, and then the row is in the table and its operation in the log. */
    method Create(n: int, record: Option<Record>, stamp: int) returns (ok: bool, ghost at: int)
      requires Valid() && n !in flights && TableRow(table, n).None?
      requires record.Some? && KvAccepts(c.lib, c.s, record.value) ==>
        AllFaithful(c, record.value) && KeyOk(c, n, record.value[c.s.primaryKey])
      modifies this
      ensures Valid() && old(states) <= states && n !in flights
      ensures ok <==> record.Some? && KvAccepts(c.lib, c.s, record.value)
      ensures ok ==> TableRow(table, n) == Some(RowOf(c.lib, c.s, record.value))
      ensures ok ==> old(log) < log && log[|log|-1].op == CreateOp(c, record.value)
      ensures ok ==> old(now) <= at <= now && Lasting(c, Abs(), n, at)
      ensures ok ==> Must(states, steps, n) == record.value.Keys
      ensures !ok ==> Abs() == old(Abs())
    {
      hide GoodConfig, Inv, Next, Init, AllFaithful, KeyOk, CacheKey, KvDoc, AllConvert, ValidRecord, Lasting, Must;
      at := now;
      var value := ToKV(c.lib, c.s, record);
      if value.None? { return false, at; }
      StartCreate(n, record.value);
      at := Complete(n, stamp);
      return true, at;
    }

    /** `Read`, while nothing on the key is pending or the key is cached: a record exactly when
        the table has the row, holding every column that was supplied and leaving out only
        columns at their default. A hit gives the row's values, a miss the whole scanned row.
        Others move between the look-up and the query. */
    method Read(n: int, key: Value) returns (r: Option<Record>)
      requires Valid() && KeyOk(c, n, key) && (Hit(c, Abs(), n) || Settled(Abs(), n))
      modifies this
      ensures Valid() && old(states) <= states && Quiet(old(steps), steps, n) && Spares(old(Abs()), Abs(), n)
      ensures r.Some? <==> TableRow(table, n).Some?
      ensures r.Some? ==> Mirrors(c, n, r.value, table[n]) && HoldsRow(c, r.value, table[n], Must(states, steps, n))
      ensures r.Some? && old(Hit(c, Abs(), n)) ==>
        forall f :: f in r.value && f in ColumnSet(c.s.columns) ==> f in table[n] && r.value[f] == table[n][f]
      ensures r.Some? && !old(Hit(c, Abs(), n)) ==> r.value == ScanRow(table[n])
    {
      hide GoodConfig, Inv, Next, Init, KeyOk, DataKey, Render, Settled, KvReadable, KvRecord, Mirrors, HoldsRow, Live;
      CacheKeyOf(c, n, key);
      var cacheKey := StoreKeys.BuildKey("", c.s.tableName, Render(c.lib, key));
      if cacheKey in kv && Live(kv[cacheKey], now) {
        HitReadable(c, Abs(), n);
        r := FromKV(c.lib, c.s, kv[cacheKey].content.doc);
        HitRecordHolds(c, states, steps, n);
      } else {
        OthersMove(n);
        r := ReadFromDB(n);
        if r.Some? { ScanHoldsRow(c, Abs(), n, Must(states, steps, n)); }
      }
    }

    /** The fallback's query: the row, and a fill under way. */
    method ReadFromDB(n: int) returns (r: Option<Record>)
      requires Valid() && Settled(Abs(), n)
      modifies this`fills, this`nextFill, this`states, this`steps
      ensures Valid() && old(states) <= states && NoStores(old(steps), steps)
      ensures r.Some? <==> TableRow(table, n).Some?
      ensures r.Some? ==> r.value == ScanRow(table[n]) && Mirrors(c, n, r.value, table[n])
      ensures fills == if r.Some? then old(fills)[old(nextFill) := Fill(n, table[n], Version(Abs(), n))] else old(fills)
      ensures Settled(Abs(), n)
    {
      hide GoodConfig, Inv, Run, Begins, Proceeds, DataKey, View, Mirrors, RowGood;
      RowAt(c, Abs(), n);
      SettledView(c, Abs(), n);
      if KeyInt(n) !in db { return None; }
      r := Some(ScanRow(db[KeyInt(n)]));
      ScanMirrors(c, n, db[KeyInt(n)]);
      StartFill(n, db[KeyInt(n)]);
      Note(ReadMiss(n, nextFill - 1));
    }

    method StartFill(n: int, row: Row)
      requires FillsNumbered()
      modifies this`fills, this`nextFill
      ensures FillsNumbered() && old(nextFill) !in old(fills) && nextFill == old(nextFill) + 1
      ensures fills == old(fills)[old(nextFill) := Fill(n, row, Version(Abs(), n))]
    {
      fills := fills[nextFill := Fill(n, row, if n in versions then versions[n] else 0)];
      nextFill := nextFill + 1;
    }

    /** Merge updates into a record, field by field, in any order. */
    static method Merge(record: Record, updates: Record) returns (merged: Record)
      ensures merged == record + updates
    {
      merged := record;
      var rest := updates.Keys;
      while rest != {}
        invariant rest <= updates.Keys && merged.Keys == record.Keys + (updates.Keys - rest)
        invariant forall f :: f in merged ==> merged[f] == if f in updates && f !in rest then updates[f] else record[f]
        decreases rest
      {
        var k :| k in rest;
        merged := merged[k := updates[k]];
        rest := rest - {k};
      }
    }

    /** `Update` of non-key columns: accepted exactly when the table has the row and the updates
        suit their columns; accepted, it overrides the row with the converted updates;
        refused, it leaves the key alone. */
    method Update(n: int, key: Value, updates: Record, stamp: int) returns (ok: bool, ghost at: int)
      requires Valid() && n !in flights && KeyOk(c, n, key) && GoodUpdates(c, updates)
      requires Hit(c, Abs(), n) || Settled(Abs(), n)
      modifies this
      ensures Valid() && old(states) <= states && n !in flights
      ensures ok <==> n in old(table) && ValidPartial(c.lib, c.s, updates)
      ensures OnColumns(c.s, updates) && AllConvert(c.lib, c.s, updates)
      ensures ok ==> TableRow(table, n) == Some(old(table)[n] + UpdateRow(c.lib, c.s, updates))
      ensures ok ==> old(log) < log && log[|log|-1].op == UpdateOp(c, key, updates)
      ensures ok ==> old(now) <= at <= now && Lasting(c, Abs(), n, at)
      ensures ok ==> Must(states, steps, n) == old(Must(states, steps, n)) + updates.Keys
      ensures !ok ==> Spares(old(Abs()), Abs(), n)
    {
      hide GoodConfig, Inv, Next, Init, KeyOk, GoodUpdates, DataKey, Settled, Hit, ValidPartial, Lasting, Must,
        AllConvert;
      ghost var row := TableRow(table, n);
      ghost var states0, steps0 := states, steps;
      at := now;
      UpdatesConvert(c, updates);
      ok := BeginUpdate(n, key, updates);
      if ok {
        QuietMust(states0, steps0, states, steps, n);
        UpdateApplies(c, key, updates, row);
        at := Complete(n, stamp);
      }
    }

    /** Read, merge, translate: what `Update` does before it touches the store. */
    method BeginUpdate(n: int, key: Value, updates: Record) returns (ok: bool)
      requires Valid() && n !in flights && KeyOk(c, n, key) && GoodUpdates(c, updates)
      requires Hit(c, Abs(), n) || Settled(Abs(), n)
      modifies this
      ensures Valid() && old(states) <= states && Quiet(old(steps), steps, n) && now >= old(now)
      ensures old(log) <= log && TableRow(table, n) == TableRow(old(table), n)
      ensures ok <==> TableRow(table, n).Some? && ValidPartial(c.lib, c.s, updates)
      ensures ok ==> n in flights && flights[n].stage.Prepared? && flights[n].op == UpdateOp(c, key, updates)
      ensures !ok ==> Spares(old(Abs()), Abs(), n)
    {
      hide GoodConfig, Inv, Run, KeyOk, GoodUpdates, DataKey, Render, Settled, ValidPartial;
      ghost var before := Abs();
      CacheKeyOf(c, n, key);
      var cacheKey := StoreKeys.BuildKey("", c.s.tableName, Render(c.lib, key));
      if cacheKey in kv && Live(kv[cacheKey], now) {
        ok := BeginUpdateCached(n, key, updates);
        if !ok { FewerPending(before, Abs(), n); }
      } else {
        OthersMove(n);
        ghost var turn := Abs();
        ok := BeginUpdateUncached(n, key, updates);
        if !ok {
          FewerPending(turn, Abs(), n);
          SparesOn(before, turn, Abs(), n);
        }
      }
    }

    method BeginUpdateCached(n: int, key: Value, updates: Record) returns (ok: bool)
      requires Valid() && n !in flights && KeyOk(c, n, key) && GoodUpdates(c, updates) && Hit(c, Abs(), n)
      modifies this`flights, this`states, this`steps
      ensures Valid() && old(states) <= states && NoStores(old(steps), steps) && TableRow(table, n).Some?
      ensures ok <==> ValidPartial(c.lib, c.s, updates)
      ensures ok ==> n in flights && flights == old(flights)[n := flights[n]]
      ensures ok ==> flights[n].stage.Prepared? && flights[n].op == UpdateOp(c, key, updates)
      ensures !ok ==> flights == old(flights)
    {
      hide GoodConfig, Inv, Run, Next, KeyOk, GoodUpdates, DataKey, KvReadable, KvRecord, ValidRecord, AllConvert,
        CacheKey, KvDoc, ValidPartial, Live;
      HitAccepted(c, states, steps, n, updates);
      var record := FromKV(c.lib, c.s, kv[DataKey(c, n)].content.doc);
      var merged := Merge(record.value, updates);
      var value := ToKV(c.lib, c.s, Some(merged));
      if value.None? { return false; }
      UpdateHitStep(c, Abs(), n, key, updates);
      flights := flights[n := Flight(UpdateOp(c, key, updates), value.value.0, value.value.1, Prepared)];
      Note(BeginUpdateHit(n, key, updates));
      return true;
    }

    method BeginUpdateUncached(n: int, key: Value, updates: Record) returns (ok: bool)
      requires Valid() && n !in flights && KeyOk(c, n, key) && GoodUpdates(c, updates) && Settled(Abs(), n)
      modifies this`flights, this`fills, this`nextFill, this`states, this`steps
      ensures Valid() && old(states) <= states && NoStores(old(steps), steps)
      ensures ok <==> TableRow(table, n).Some? && ValidPartial(c.lib, c.s, updates)
      ensures ok ==> n in flights && flights == old(flights)[n := flights[n]]
      ensures ok ==> flights[n].stage.Prepared? && flights[n].op == UpdateOp(c, key, updates)
      ensures !ok ==> flights == old(flights)
    {
      hide GoodConfig, Inv, Run, KeyOk, GoodUpdates, Settled, ValidRecord, AllConvert, CacheKey, KvDoc, View,
        RowGood, ValidPartial, ScanRow, Mirrors;
      RowAt(c, Abs(), n);
      SettledView(c, Abs(), n);
      if KeyInt(n) !in db { return false; }
      MissAccepted(c, states, steps, n, updates);
      var merged := Merge(ScanRow(db[KeyInt(n)]), updates);
      var value := ToKV(c.lib, c.s, Some(merged));
      ok := value.Some?;
      if ok {
        PrepareMiss(n, key, updates, value.value.0, value.value.1);
      } else {
        var _ := ReadFromDB(n);
      }
    }

    /** The query of an update that is accepted: its fill starts and its write is prepared. */
    method PrepareMiss(n: int, key: Value, updates: Record, kvKey: string, doc: Doc)
      requires Valid() && n !in flights && KeyOk(c, n, key) && GoodUpdates(c, updates) && Settled(Abs(), n)
      requires Lookup(db, n).Some? && KvAccepts(c.lib, c.s, ScanRow(Lookup(db, n).value) + updates)
      requires var merged := ScanRow(Lookup(db, n).value) + updates;
        kvKey == CacheKey(c.lib, c.s, merged[c.s.primaryKey]) && doc == KvDoc(c.lib, c.s, merged)
      modifies this`flights, this`fills, this`nextFill, this`states, this`steps
      ensures Valid() && old(states) <= states && NoStores(old(steps), steps)
      ensures flights == old(flights)[n := Flight(UpdateOp(c, key, updates), kvKey, doc, Prepared)]
    {
      hide GoodConfig, Inv, Run, Next, KeyOk, GoodUpdates, Settled, ValidRecord, AllConvert, CacheKey, KvDoc, ScanRow;
      ghost var before := Abs();
      StartFill(n, db[KeyInt(n)]);
      flights := flights[n := Flight(UpdateOp(c, key, updates), kvKey, doc, Prepared)];
      UpdateMissStep(c, before, n, key, updates, nextFill - 1);
      Note(BeginUpdateMiss(n, key, updates, nextFill - 1));
    }

    method StartDelete(n: int, key: Value)
      requires Valid() && n !in flights && KeyOk(c, n, key)
      modifies this`flights, this`states, this`steps
      ensures Valid() && old(states) <= states && NoStores(old(steps), steps)
      ensures n in flights && flights == old(flights)[n := flights[n]]
      ensures flights[n].stage.Prepared? && flights[n].op == DeleteOp(c, key)
    {
      hide GoodConfig, Inv, Run, Proceeds, Serves, KeyOk, DataKey, Render;
      CacheKeyOf(c, n, key);
      var cacheKey := StoreKeys.BuildKey("", c.s.tableName, Render(c.lib, key));
      flights := flights[n := Flight(DeleteOp(c, key), cacheKey, map[], Prepared)];
      Note(BeginDelete(n, key));
    }

    method Delete(n: int, key: Value, stamp: int)
      requires Valid() && n !in flights && KeyOk(c, n, key)
      modifies this
      ensures Valid() && old(states) <= states && n !in flights && TableRow(table, n).None?
      ensures old(log) < log && log[|log|-1].op == DeleteOp(c, key) && Must(states, steps, n) == {}
    {
      hide GoodConfig, Inv, Next, Init, KeyOk, Must;
      StartDelete(n, key);
      ghost var _ := Complete(n, stamp);
    }
  }

  /** What other events leave alone on key `n`: its write in flight, its row of the table, that
      nothing on it is pending, and what was logged. */
  ghost predicate Spares(a: State, b: State, n: int) {
    && (n in b.flights <==> n in a.flights) && (n in b.flights ==> b.flights[n] == a.flights[n])
    && TableRow(b.table, n) == TableRow(a.table, n)
    && (Settled(a, n) ==> Settled(b, n))
    && a.log <= b.log && a.now <= b.now
  }

  /** Steps added, none of them a write reaching the cache. */
  ghost predicate NoStores(before: seq<Step>, after: seq<Step>) {
    before <= after && forall k :: |before| <= k < |after| ==> !after[k].Store?
  }

  /** Steps added, none of them another key's write reaching the cache. */
  ghost predicate StoresOnly(before: seq<Step>, after: seq<Step>, m: int) {
    before <= after && forall k :: |before| <= k < |after| ==> (after[k].Store? ==> after[k].n == m)
  }

  /** A record of a row: every schema column that must be there is, and any other it leaves out
      is at its default. */
  ghost predicate HoldsRow(c: Config, rec: Record, row: Row, must: set<string>) {
    && must * ColumnSet(c.s.columns) <= rec.Keys
    && forall f :: f in ColumnSet(c.s.columns) && f !in rec ==> f in row && row[f] == Fallback(c.s.columns, f)
  }

  lemma HitRecordHolds(c: Config, states: seq<State>, steps: seq<Step>, n: int)
    requires GoodConfig(c) && Run(c, states, steps) && Hit(c, states[|states|-1], n)
    requires states[|states|-1].kv[DataKey(c, n)].content.Cached?
    requires KvReadable(c.lib, c.s, states[|states|-1].kv[DataKey(c, n)].content.doc)
    ensures var s := states[|states|-1];
      var rec := KvRecord(c.lib, c.s, s.kv[DataKey(c, n)].content.doc);
      && n in s.table && HoldsRow(c, rec, s.table[n], Must(states, steps, n))
      && forall f :: f in rec && f in ColumnSet(c.s.columns) ==> f in s.table[n] && rec[f] == s.table[n][f]
  {
    hide GoodConfig, Next, Init, DataKey, ReadField, Live;
    HitIsTheRow(c, states, steps, |states| - 1, n);
    var s := states[|states|-1];
    var doc := s.kv[DataKey(c, n)].content.doc;
    forall f | f in doc && f in ColumnSet(c.s.columns)
      ensures f in s.table[n] && KvRecord(c.lib, c.s, doc)[f] == s.table[n][f]
    {
      assert ColumnRead(c, doc, f) == Some(s.table[n][f]);
    }
    forall f | f in ColumnSet(c.s.columns) && f !in doc
      ensures f in s.table[n] && s.table[n][f] == Fallback(c.s.columns, f)
    {
      assert ColumnRead(c, doc, f) == Some(s.table[n][f]);
    }
  }

  lemma ScanHoldsRow(c: Config, s: State, n: int, must: set<string>)
    requires Inv(c, s) && n in s.table
    ensures HoldsRow(c, ScanRow(s.table[n]), s.table[n], must)
  {
    hide Inv, View, RowGood, ScanRow;
    RowAt(c, s, n);
    ScanHolds(c, n, s.table[n]);
  }

  lemma RowAfter(table: map<int, Row>, n: int, row: Option<Row>)
    ensures TableRow(SetRow(table, n, row), n) == row
  {
  }

  lemma SparesSelf(a: State, n: int)
    ensures Spares(a, a, n)
  {
  }

  lemma SparesOn(a: State, b: State, d: State, n: int)
    requires Spares(a, b, n) && Spares(b, d, n)
    ensures Spares(a, d, n)
  {
    hide Settled, TableRow;
  }

  lemma StillSettled(a: State, b: State, n: int, op: WriteOp)
    requires (n in b.flights <==> n in a.flights) && (n in b.flights ==> b.flights[n] == a.flights[n])
    requires b.hand == a.hand && (b.queue == a.queue || b.queue == a.queue + [op]) && !IsFor(op, n)
    ensures Settled(a, n) ==> Settled(b, n)
  {
  }

  lemma FewerPending(a: State, b: State, n: int)
    requires (n in b.flights <==> n in a.flights) && (n in b.flights ==> b.flights[n] == a.flights[n])
    requires b.table == a.table && b.log == a.log && a.now <= b.now
    requires forall op :: op in Pending(b) ==> op in Pending(a)
    ensures Spares(a, b, n)
  {
  }

  lemma SnapshotSees(s: State, snap: State, c: Config)
    requires snap == s.(table := map[], log := [])
    ensures forall n :: View(c, snap, n) == View(c, s, n) && (Settled(snap, n) <==> Settled(s, n))
    ensures forall n :: Hit(c, snap, n) <==> Hit(c, s, n)
  {
    hide Replay, Apply;
  }

  predicate RecordKeyOk(c: Config, n: int, record: Record) {
    c.s.primaryKey in record && KeyOk(c, n, record[c.s.primaryKey])
  }

  lemma FlightIsFor(c: Config, s: State, m: int)
    requires Inv(c, s) && m in s.flights
    ensures IsFor(s.flights[m].op, m)
  {
    hide Inv, View, Apply, Stands;
    FlightAt(c, s, m);
    OpOkApplicable(c, m, s.flights[m].op);
  }

  lemma RowWhole(c: Config, states: seq<State>, steps: seq<Step>, n: int)
    requires GoodConfig(c) && Run(c, states, steps) && n in states[|states|-1].table
    ensures Whole(c, n, states[|states|-1].table[n])
  {
    hide GoodConfig, Next, Init, Inv, View, RowGood, NotNull, DocsTidy;
    InvariantHolds(c, states, steps, |states| - 1);
    TidyHolds(c, states, steps, |states| - 1);
    RowAt(c, states[|states|-1], n);
  }

  lemma HitAccepted(c: Config, states: seq<State>, steps: seq<Step>, n: int, updates: Record)
    requires GoodConfig(c) && Run(c, states, steps) && DataKey(c, n) in states[|states|-1].kv && GoodUpdates(c, updates)
    ensures var s := states[|states|-1];
      && s.kv[DataKey(c, n)].content.Cached? && n in s.table
      && var doc := s.kv[DataKey(c, n)].content.doc;
      && KvReadable(c.lib, c.s, doc)
      && (KvAccepts(c.lib, c.s, KvRecord(c.lib, c.s, doc) + updates) <==> ValidPartial(c.lib, c.s, updates))
  {
    hide GoodConfig, Next, Init, Inv, Whole, Mirrors, GoodUpdates, KvAccepts, ValidPartial, KvReadable, KvRecord,
      DataKey, WriteBackLimits.Complete;
    var s := states[|states|-1];
    InvariantHolds(c, states, steps, |states| - 1);
    HitReadable(c, s, n);
    HitRecordComplete(c, states, steps, n);
    RowWhole(c, states, steps, n);
    MergedAccepted(c, n, KvRecord(c.lib, c.s, s.kv[DataKey(c, n)].content.doc), s.table[n], updates);
  }

  lemma MissAccepted(c: Config, states: seq<State>, steps: seq<Step>, n: int, updates: Record)
    requires GoodConfig(c) && Run(c, states, steps) && n in states[|states|-1].table && GoodUpdates(c, updates)
    ensures var row := states[|states|-1].table[n];
      KvAccepts(c.lib, c.s, ScanRow(row) + updates) <==> ValidPartial(c.lib, c.s, updates)
  {
    hide GoodConfig, Next, Init, Whole, RowGood, Mirrors, GoodUpdates, KvAccepts, ValidPartial, ScanRow,
      WriteBackLimits.Complete;
    var row := states[|states|-1].table[n];
    RowWhole(c, states, steps, n);
    ScannedAccepted(c, n, row);
    WholeIsGood(c, n, row);
    ScanComplete(c, n, row);
    MergedAccepted(c, n, ScanRow(row), row, updates);
  }

  lemma WholeIsGood(c: Config, n: int, row: Row)
    requires Whole(c, n, row)
    ensures RowGood(c, n, row)
  {
  }

  lemma HitRecordComplete(c: Config, states: seq<State>, steps: seq<Step>, n: int)
    requires GoodConfig(c) && Run(c, states, steps) && DataKey(c, n) in states[|states|-1].kv
    requires states[|states|-1].kv[DataKey(c, n)].content.Cached?
    requires KvReadable(c.lib, c.s, states[|states|-1].kv[DataKey(c, n)].content.doc)
    ensures WriteBackLimits.Complete(c, KvRecord(c.lib, c.s, states[|states|-1].kv[DataKey(c, n)].content.doc))
  {
    hide GoodConfig, Next, Init, RowsTidy, Full, KvReadable, WriteBackLimits.Complete, DataKey;
    TidyHolds(c, states, steps, |states| - 1);
    HitComplete(c, states[|states|-1].kv[DataKey(c, n)].content.doc);
  }

  function Fresh(now: int, db: Db, rows: map<int, Row>): State {
    State(now, map[], db, [], None, map[], map[], map[], rows, [])
  }

  lemma FreshRun(c: Config, now: int, db: Db, rows: map<int, Row>)
    requires GoodConfig(c) && RowsNotNull(c.s, db)
    requires forall n :: TableRow(rows, n) == Lookup(db, n)
    requires forall n :: Lookup(db, n).Some? ==> RowGood(c, n, Lookup(db, n).value)
    ensures Run(c, [Fresh(now, db, rows)], []) && Inv(c, Fresh(now, db, rows))
  {
    hide GoodConfig, RowsNotNull, RowGood, Lookup, TableRow, Inv;
    InitInv(c, Fresh(now, db, rows));
  }

  /** The key the cache handler and `Delete` build for an integer key is the record's. */
  lemma CacheKeyOf(c: Config, n: int, key: Value)
    requires KeyOk(c, n, key)
    ensures StoreKeys.BuildKey("", c.s.tableName, Render(c.lib, key)) == DataKey(c, n)
    ensures key.Int? && key.n == n
  {
  }

  lemma StoreStep(c: Config, s: State, n: int)
    requires n in s.flights && s.flights[n].stage.Prepared?
    ensures var f := s.flights[n];
      var s' := s.(
        kv := if f.op.kind == OperationDelete then s.kv - {f.kvKey}
              else s.kv[f.kvKey := Cell(Cached(f.doc), Expiry(s.now, c.ttl))],
        flights := s.flights[n := f.(stage := Stored)],
        versions := s.versions[n := Version(s, n) + 1],
        table := SetRow(s.table, n, Apply(c, f.op, TableRow(s.table, n))));
      Next(c, s, s', Store(n))
  {
    hide Begins, Serves, Apply, SetRow, TableRow, Expiry;
  }

  lemma UpdateHitStep(c: Config, s: State, n: int, key: Value, updates: Record)
    requires n !in s.flights && KeyOk(c, n, key) && GoodUpdates(c, updates)
    requires Hit(c, s, n) && s.kv[DataKey(c, n)].content.Cached?
    requires KvReadable(c.lib, c.s, s.kv[DataKey(c, n)].content.doc)
    requires KvAccepts(c.lib, c.s, KvRecord(c.lib, c.s, s.kv[DataKey(c, n)].content.doc) + updates)
    ensures var merged := KvRecord(c.lib, c.s, s.kv[DataKey(c, n)].content.doc) + updates;
      var f := Flight(UpdateOp(c, key, updates), CacheKey(c.lib, c.s, merged[c.s.primaryKey]),
                      KvDoc(c.lib, c.s, merged), Prepared);
      Next(c, s, s.(flights := s.flights[n := f]), BeginUpdateHit(n, key, updates))
  {
    hide Proceeds, Serves, KeyOk, GoodUpdates, CacheKey, KvDoc, KvReadable, KvRecord, DataKey, Live;
  }

  lemma UpdateMissStep(c: Config, s: State, n: int, key: Value, updates: Record, i: nat)
    requires n !in s.flights && KeyOk(c, n, key) && GoodUpdates(c, updates)
    requires Settled(s, n) && Lookup(s.db, n).Some? && i !in s.fills
    requires KvAccepts(c.lib, c.s, ScanRow(Lookup(s.db, n).value) + updates)
    ensures var row := Lookup(s.db, n).value;
      var merged := ScanRow(row) + updates;
      var f := Flight(UpdateOp(c, key, updates), CacheKey(c.lib, c.s, merged[c.s.primaryKey]),
                      KvDoc(c.lib, c.s, merged), Prepared);
      Next(c, s, s.(flights := s.flights[n := f], fills := s.fills[i := Fill(n, row, Version(s, n))]),
           BeginUpdateMiss(n, key, updates, i))
  {
    hide Proceeds, Serves, Settled, ScanRow, KeyOk, GoodUpdates, CacheKey, KvDoc;
  }

  lemma UpdateApplies(c: Config, key: Value, updates: Record, row: Option<Row>)
    requires row.Some? && OnColumns(c.s, updates) && AllConvert(c.lib, c.s, updates)
    ensures Apply(c, UpdateOp(c, key, updates), row) == Some(row.value + UpdateRow(c.lib, c.s, updates))
  {
  }

  function CreateOp(c: Config, record: Record): WriteOp
    requires c.s.primaryKey in record
  {
    WriteOp(c.s.tableName, OperationCreate, record[c.s.primaryKey], Some(record))
  }

  function DeleteOp(c: Config, key: Value): WriteOp { WriteOp(c.s.tableName, OperationDelete, key, None) }

  lemma EnqueuedTranslates(c: Config, n: int, op: WriteOp)
    requires GoodConfig(c) && OpOk(c, n, op)
    ensures Translatable(c, op)
  {
    if op.kind == OperationCreate {
      AcceptedCreateDrains(c.lib, c.s, op.data.value);
    }
  }
}
