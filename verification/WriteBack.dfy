/** The write-back protocol as a step system. Writers store in the cache, log to the WAL
    and enqueue in separate steps; readers that miss read the database and fill the cache
    later; entries expire; the drainer takes one operation at a time and executes it. All
    of these interleave freely. */
module WriteBack {
  import opened GoText
  import opened Mapper
  import opened Validator
  import opened Sql
  import opened Translator
  import opened WriteOps
  import StoreKeys

  /* ---------- the shared KV store ---------- */

  /** A WAL entry as the JSON document it is stored as. */
  datatype WalRecord = WalRecord(table: string, kind: OpType, key: Json, data: Option<Doc>)

  datatype Content = Cached(doc: Doc) | Entry(wal: WalRecord) | Index(id: string)

  datatype Cell = Cell(content: Content, expiry: Option<int>)

  predicate Live(cell: Cell, now: int) { cell.expiry.Some? ==> now < cell.expiry.value }

  function Expiry(now: int, ttl: int): Option<int> { if ttl > 0 then Some(now + ttl) else None }

  const DAY := 24 * 60 * 60 * 1_000_000_000

  function EntryKey(c: Config, id: string): string { StoreKeys.Text(StoreKeys.WalEntry(c.s.tableName, id)) }

  function StampKey(c: Config, stamp: int, id: string): string {
    StoreKeys.Text(StoreKeys.WalStamp(c.s.tableName, stamp, id))
  }

  function RawDoc(lib: Lib, rec: Record): Doc { map f | f in rec :: Encode(lib, rec[f]) }

  function WalOf(c: Config, op: WriteOp): WalRecord {
    WalRecord(op.table, op.kind, Encode(c.lib, op.key),
              if op.data.Some? then Some(RawDoc(c.lib, op.data.value)) else None)
  }

  /** All keys of one table's protocol, told apart. */
  lemma KeysApart(c: Config)
    requires GoodConfig(c)
    ensures forall n, m :: DataKey(c, n) == DataKey(c, m) ==> n == m
    ensures forall n, id :: DataKey(c, n) != EntryKey(c, id)
    ensures forall n, stamp, id :: DataKey(c, n) != StampKey(c, stamp, id)
    ensures forall i, j :: EntryKey(c, i) == EntryKey(c, j) ==> i == j
    ensures forall i, stamp, id :: EntryKey(c, i) != StampKey(c, stamp, id)
  {
    var t := c.s.tableName;
    forall n, m | DataKey(c, n) == DataKey(c, m) ensures n == m {
      StoreKeys.KeysNeverCollide(StoreKeys.Data(t, Dec(n)), StoreKeys.Data(t, Dec(m)));
      DecInjective(n, m);
    }
    forall n, id ensures DataKey(c, n) != EntryKey(c, id) {
      StoreKeys.KeysNeverCollide(StoreKeys.Data(t, Dec(n)), StoreKeys.WalEntry(t, id));
    }
    forall n, stamp, id ensures DataKey(c, n) != StampKey(c, stamp, id) {
      StoreKeys.KeysNeverCollide(StoreKeys.Data(t, Dec(n)), StoreKeys.WalStamp(t, stamp, id));
    }
    forall i, j | EntryKey(c, i) == EntryKey(c, j) ensures i == j {
      StoreKeys.KeysNeverCollide(StoreKeys.WalEntry(t, i), StoreKeys.WalEntry(t, j));
    }
    forall i, stamp, id ensures EntryKey(c, i) != StampKey(c, stamp, id) {
      StoreKeys.KeysNeverCollide(StoreKeys.WalEntry(t, i), StoreKeys.WalStamp(t, stamp, id));
    }
  }

  /* ---------- state ---------- */

  /** How far a write has got: before and after its cache write, after its WAL entry, after
      its WAL index. */
  datatype Stage = Prepared | Stored | EntryWritten(id: string, at: int) | Logged(id: string, at: int)

  datatype Flight = Flight(op: WriteOp, kvKey: string, doc: Doc, stage: Stage)

  /** A cache fill on its way: the row as read, and how many writes its key had seen. */
  datatype Fill = Fill(n: int, row: Row, version: nat)

  datatype Logging = Logging(op: WriteOp, id: string, at: int)

  /** `table` is the plain table the system stands in for; `log` lists what was enqueued. */
  datatype State = State(
    now: int, kv: map<string, Cell>, db: Db, queue: seq<WriteOp>, hand: Option<WriteOp>,
    flights: map<int, Flight>, fills: map<nat, Fill>, versions: map<int, nat>,
    table: map<int, Row>, log: seq<Logging>)

  function Version(s: State, n: int): nat { if n in s.versions then s.versions[n] else 0 }

  function TableRow(table: map<int, Row>, n: int): Option<Row> { if n in table then Some(table[n]) else None }

  function SetRow(table: map<int, Row>, n: int, row: Option<Row>): map<int, Row> {
    if row.Some? then table[n := row.value] else table - {n}
  }

  /** Dequeued but not yet executed counts as pending. */
  function Pending(s: State): seq<WriteOp> {
    (if s.hand.Some? then [s.hand.value] else []) + s.queue
  }

  predicate Applicable(c: Config, op: WriteOp) {
    op.kind != OperationDelete ==> op.data.Some? && AllConvert(c.lib, c.s, op.data.value)
  }

  function Apply(c: Config, op: WriteOp, row: Option<Row>): Option<Row> {
    if Applicable(c, op) then RowApply(c, op, row) else row
  }

  predicate IsFor(op: WriteOp, n: int) { op.key.Int? && op.key.n == n }

  /** Replaying operations, in order, over the row of one key. */
  function Replay(c: Config, ops: seq<WriteOp>, n: int, row: Option<Row>): Option<Row> {
    if ops == [] then row
    else Replay(c, ops[1..], n, if IsFor(ops[0], n) then Apply(c, ops[0], row) else row)
  }

  lemma {:induction false} ReplayAppend(c: Config, ops: seq<WriteOp>, op: WriteOp, n: int, row: Option<Row>)
    ensures Replay(c, ops + [op], n, row)
         == if IsFor(op, n) then Apply(c, op, Replay(c, ops, n, row)) else Replay(c, ops, n, row)
    decreases |ops|
  {
    if ops != [] {
      assert (ops + [op])[1..] == ops[1..] + [op];
      ReplayAppend(c, ops[1..], op, n, if IsFor(ops[0], n) then Apply(c, ops[0], row) else row);
    }
  }

  lemma ReplayHead(c: Config, op: WriteOp, ops: seq<WriteOp>, n: int, row: Option<Row>)
    ensures Replay(c, [op] + ops, n, row) == Replay(c, ops, n, if IsFor(op, n) then Apply(c, op, row) else row)
  {
    hide Apply;
    assert ([op] + ops)[1..] == ops;
  }

  lemma {:induction false} ReplaySkips(c: Config, ops: seq<WriteOp>, n: int, row: Option<Row>)
    requires forall op :: op in ops ==> !IsFor(op, n)
    ensures Replay(c, ops, n, row) == row
    decreases |ops|
  {
    if ops != [] {
      assert ops[0] in ops;
      ReplaySkips(c, ops[1..], n, row);
    }
  }

  /** The operation in flight on `n` that the cache already shows, if any. */
  function Shown(s: State, n: int): Option<WriteOp> {
    if n in s.flights && !s.flights[n].stage.Prepared? then Some(s.flights[n].op) else None
  }

  /** The row of `n` got by replaying the pending queue, then the key's in-flight operation,
      over the database. */
  function View(c: Config, s: State, n: int): Option<Row> {
    var row := Replay(c, Pending(s), n, Lookup(s.db, n));
    if Shown(s, n).Some? then Apply(c, Shown(s, n).value, row) else row
  }

  /** No operation on `n` is waiting for the database. */
  predicate Settled(s: State, n: int) {
    Shown(s, n).None? && forall op :: op in Pending(s) ==> !IsFor(op, n)
  }

  /* ---------- steps ---------- */

  datatype Step =
    | Tick(dt: nat)
    | BeginCreate(n: int, rec: Record)
    | BeginUpdateHit(n: int, key: Value, updates: Record)
    | BeginUpdateMiss(n: int, key: Value, updates: Record, fill: nat)
    | BeginDelete(n: int, key: Value)
    | Store(n: int)
    | WriteEntry(n: int)
    | WriteIndex(n: int, stamp: int)
    | Enqueue(n: int)
    | ReadMiss(n: int, fill: nat)
    | LandFill(fill: nat)
    | LoseFill(fill: nat)
    | Dequeue
    | Execute(stmt: Stmt, args: seq<Value>)

  predicate Hit(c: Config, s: State, n: int) {
    DataKey(c, n) in s.kv && Live(s.kv[DataKey(c, n)], s.now)
  }

  function Fly(op: WriteOp, c: Config, rec: Record): Flight
    requires KvAccepts(c.lib, c.s, rec)
  {
    Flight(op, CacheKey(c.lib, c.s, rec[c.s.primaryKey]), KvDoc(c.lib, c.s, rec), Prepared)
  }

  /** The updates a caller may pass: not empty, on schema columns other than the key, with
      values the cache keeps exactly. */
  predicate GoodUpdates(c: Config, updates: Record) {
    updates != map[] && OnColumns(c.s, updates) && AllFaithful(c, updates)
  }

  function UpdateOp(c: Config, key: Value, updates: Record): WriteOp {
    WriteOp(c.s.tableName, OperationUpdate, key, Some(updates))
  }

  /** Begin: read, merge, validate. Nothing is shared yet. Writers are serial per key, and
      Creates go to absent keys. */
  ghost predicate Begins(c: Config, s: State, s': State, step: Step) {
    match step
    case BeginCreate(n, rec) =>
      && n !in s.flights && View(c, s, n).None?
      && KvAccepts(c.lib, c.s, rec) && AllFaithful(c, rec) && KeyOk(c, n, rec[c.s.primaryKey])
      && var op := WriteOp(c.s.tableName, OperationCreate, rec[c.s.primaryKey], Some(rec));
         s' == s.(flights := s.flights[n := Fly(op, c, rec)])
    case BeginUpdateHit(n, key, updates) =>
      && n !in s.flights && KeyOk(c, n, key) && GoodUpdates(c, updates)
      && Hit(c, s, n) && s.kv[DataKey(c, n)].content.Cached?
      && var doc := s.kv[DataKey(c, n)].content.doc;
      && KvReadable(c.lib, c.s, doc)
      && var merged := KvRecord(c.lib, c.s, doc) + updates;
      && KvAccepts(c.lib, c.s, merged)
      && s' == s.(flights := s.flights[n := Fly(UpdateOp(c, key, updates), c, merged)])
    case BeginUpdateMiss(n, key, updates, fill) =>
      && n !in s.flights && KeyOk(c, n, key) && GoodUpdates(c, updates)
      && Settled(s, n) && Lookup(s.db, n).Some? && fill !in s.fills
      && var row := Lookup(s.db, n).value;
      && KvAccepts(c.lib, c.s, ScanRow(row) + updates)
      && s' == s.(flights := s.flights[n := Fly(UpdateOp(c, key, updates), c, ScanRow(row) + updates)],
                  fills := s.fills[fill := Fill(n, row, Version(s, n))])
    case BeginDelete(n, key) =>
      && n !in s.flights && KeyOk(c, n, key)
      && var op := WriteOp(c.s.tableName, OperationDelete, key, None);
         s' == s.(flights := s.flights[n := Flight(op, DataKey(c, n), map[], Prepared)])
    case _ => false
  }

  /** The remaining sub-steps of a write in flight. */
  ghost predicate Proceeds(c: Config, s: State, s': State, step: Step) {
    match step
    case Store(n) =>
      && n in s.flights && s.flights[n].stage.Prepared?
      && var f := s.flights[n];
      && s' == s.(
           kv := if f.op.kind == OperationDelete then s.kv - {f.kvKey}
                 else s.kv[f.kvKey := Cell(Cached(f.doc), Expiry(s.now, c.ttl))],
           flights := s.flights[n := f.(stage := Stored)],
           versions := s.versions[n := Version(s, n) + 1],
           table := SetRow(s.table, n, Apply(c, f.op, TableRow(s.table, n))))
    case WriteEntry(n) =>
      && n in s.flights && s.flights[n].stage.Stored?
      && var f := s.flights[n];
      && var id := StoreKeys.OperationId(c.s.tableName, Render(c.lib, f.op.key), s.now);
      && s' == s.(
           kv := s.kv[EntryKey(c, id) := Cell(Entry(WalOf(c, f.op)), Some(s.now + DAY))],
           flights := s.flights[n := f.(stage := EntryWritten(id, s.now))],
           now := s.now + 1)
    case WriteIndex(n, stamp) =>
      && n in s.flights && s.flights[n].stage.EntryWritten?
      && var f := s.flights[n];
      && s' == s.(
           kv := s.kv[StampKey(c, stamp, f.stage.id) := Cell(Index(f.stage.id), Some(s.now + DAY))],
           flights := s.flights[n := f.(stage := Logged(f.stage.id, f.stage.at))])
    case Enqueue(n) =>
      && n in s.flights && s.flights[n].stage.Logged?
      && var f := s.flights[n];
      && s' == s.(
           queue := s.queue + [f.op],
           flights := s.flights - {n},
           log := s.log + [Logging(f.op, f.stage.id, f.stage.at)])
    case _ => false
  }

  /** The database query of a read that missed the cache: it starts a fill. */
  ghost predicate Misses(s: State, s': State, n: int, fill: nat) {
    && Lookup(s.db, n).Some? && fill !in s.fills
    && s' == s.(fills := s.fills[fill := Fill(n, Lookup(s.db, n).value, Version(s, n))])
  }

  /** `populateCache`: the fill lands. */
  ghost predicate Lands(c: Config, s: State, s': State, fill: nat) {
    && fill in s.fills
    && var f := s.fills[fill];
    && var rec := ScanRow(f.row);
    && KvAccepts(c.lib, c.s, rec)
    && s' == s.(
         kv := s.kv[CacheKey(c.lib, c.s, rec[c.s.primaryKey]) :=
                    Cell(Cached(KvDoc(c.lib, c.s, rec)), Expiry(s.now, c.ttl))],
         fills := s.fills - {fill})
  }

  /** Clock, cache-miss reads with their fills, and the drainer. The source queries and lands
      at any time; here a miss is read only while nothing on its key is pending, and a fill
      lands only if no write to its key has reached the cache since it was read. */
  ghost predicate Serves(c: Config, s: State, s': State, step: Step) {
    match step
    case Tick(dt) => s' == s.(now := s.now + dt)
    case ReadMiss(n, fill) => Settled(s, n) && Misses(s, s', n, fill)
    case LandFill(fill) =>
      fill in s.fills && s.fills[fill].version == Version(s, s.fills[fill].n) && Lands(c, s, s', fill)
    case LoseFill(fill) => fill in s.fills && s' == s.(fills := s.fills - {fill})
    case Dequeue =>
      && s.hand.None? && s.queue != []
      && s' == s.(hand := Some(s.queue[0]), queue := s.queue[1..])
    case Execute(stmt, args) =>
      && s.hand.Some? && Applicable(c, s.hand.value) && Translates(c, s.hand.value, stmt, args)
      && s' == s.(hand := None, db := After(c.s, s.db, stmt, args))
    case _ => false
  }

  ghost predicate Next(c: Config, s: State, s': State, step: Step) {
    Begins(c, s, s', step) || Proceeds(c, s, s', step) || Serves(c, s, s', step)
  }

  /** The system starts over a database of good rows, with everything else empty. */
  ghost predicate Init(c: Config, s: State) {
    && s.kv == map[] && s.queue == [] && s.hand.None? && s.flights == map[] && s.fills == map[] && s.log == []
    && RowsNotNull(c.s, s.db)
    && (forall n :: Lookup(s.db, n).Some? ==> RowGood(c, n, Lookup(s.db, n).value))
    && (forall n :: TableRow(s.table, n) == Lookup(s.db, n))
  }

  /* ---------- the invariant ---------- */

  ghost predicate PendingOk(c: Config, s: State) {
    forall op :: op in Pending(s) ==> op.key.Int? && OpOk(c, op.key.n, op)
  }

  ghost predicate RowsOk(c: Config, s: State) {
    forall n :: View(c, s, n).Some? ==> RowGood(c, n, View(c, s, n).value)
  }

  /** Refinement: the view of every key is the plain table's row. */
  ghost predicate Refines(c: Config, s: State) {
    forall n :: View(c, s, n) == TableRow(s.table, n)
  }

  /** A document stands for a row: it agrees with it and holds the key column. */
  predicate Stands(c: Config, doc: Doc, row: Option<Row>) {
    row.Some? && c.s.primaryKey in doc && Agrees(c, doc, row.value)
  }

  /** Every cached record agrees with its key's view. */
  ghost predicate CacheOk(c: Config, s: State) {
    forall n :: DataKey(c, n) in s.kv ==> CellOk(c, s.kv[DataKey(c, n)], View(c, s, n))
  }

  predicate CellOk(c: Config, cell: Cell, row: Option<Row>) {
    cell.content.Cached? && Stands(c, cell.content.doc, row)
  }

  ghost predicate FlightOk(c: Config, n: int, f: Flight, row: Option<Row>) {
    && OpOk(c, n, f.op) && f.kvKey == DataKey(c, n)
    && (f.stage.Prepared? && f.op.kind != OperationDelete ==> Stands(c, f.doc, Apply(c, f.op, row)))
  }

  ghost predicate FlightsOk(c: Config, s: State) {
    forall n :: n in s.flights ==> FlightOk(c, n, s.flights[n], View(c, s, n))
  }

  ghost predicate FillOk(f: Fill, version: nat, row: Option<Row>) {
    f.version <= version && (f.version == version ==> row == Some(f.row))
  }

  ghost predicate FillsOk(c: Config, s: State) {
    forall i :: i in s.fills ==> FillOk(s.fills[i], Version(s, s.fills[i].n), View(c, s, s.fills[i].n))
  }

  /** The WAL holds this operation's entry. */
  ghost predicate Recorded(c: Config, s: State, l: Logging) {
    && l.at < s.now
    && l.id == StoreKeys.OperationId(c.s.tableName, Render(c.lib, l.op.key), l.at)
    && EntryKey(c, l.id) in s.kv && s.kv[EntryKey(c, l.id)] == Cell(Entry(WalOf(c, l.op)), Some(l.at + DAY))
  }

  ghost predicate WalOk(c: Config, s: State) {
    && (forall i :: 0 <= i < |s.log| ==> Recorded(c, s, s.log[i]))
    && (forall n :: n in s.flights && (s.flights[n].stage.EntryWritten? || s.flights[n].stage.Logged?) ==>
          Recorded(c, s, Logging(s.flights[n].op, s.flights[n].stage.id, s.flights[n].stage.at)))
  }

  ghost predicate Inv(c: Config, s: State) {
    && RowsNotNull(c.s, s.db) && PendingOk(c, s) && RowsOk(c, s) && Refines(c, s)
    && CacheOk(c, s) && FlightsOk(c, s) && FillsOk(c, s) && WalOk(c, s)
  }

  lemma InitInv(c: Config, s: State)
    requires GoodConfig(c) && Init(c, s)
    ensures Inv(c, s)
  {
    assert Pending(s) == [];
  }

  lemma OpOkApplicable(c: Config, n: int, op: WriteOp)
    requires OpOk(c, n, op)
    ensures Applicable(c, op) && IsFor(op, n)
  {
  }

  /** A state with the same database, pending operations and shown flights has the same view. */
  lemma SameView(c: Config, s: State, s': State)
    requires s'.db == s.db && Pending(s') == Pending(s)
    requires forall n :: Shown(s', n) == Shown(s, n)
    ensures forall n :: View(c, s', n) == View(c, s, n)
  {
  }

  lemma SettledView(c: Config, s: State, n: int)
    requires Settled(s, n)
    ensures View(c, s, n) == Lookup(s.db, n)
  {
    ReplaySkips(c, Pending(s), n, Lookup(s.db, n));
  }

  /** Recorded operations stay recorded. */
  ghost predicate KeepsWal(c: Config, s: State, s': State) {
    forall l :: Recorded(c, s, l) ==> Recorded(c, s', l)
  }

  /** Writing one cell that is not a recorded entry keeps the WAL. */
  lemma CellKeepsWal(c: Config, s: State, s': State, key: string, cell: Cell)
    requires s'.kv == s.kv[key := cell] || s'.kv == s.kv - {key}
    requires s.now <= s'.now
    requires forall l :: Recorded(c, s, l) ==> EntryKey(c, l.id) != key
    ensures KeepsWal(c, s, s')
  {
    hide EntryKey, WalOf, Render;
  }

  /** A step that leaves every view alone keeps the invariant if it keeps the parts that are
      not about views. */
  lemma Frame(c: Config, s: State, s': State)
    requires Inv(c, s)
    requires forall m :: View(c, s', m) == View(c, s, m)
    requires s'.table == s.table && RowsNotNull(c.s, s'.db) && PendingOk(c, s')
    requires CacheOk(c, s') && FlightsOk(c, s') && FillsOk(c, s') && WalOk(c, s')
    ensures Inv(c, s')
  {
    hide View, RowGood, RowsNotNull, PendingOk, CacheOk, FlightsOk, FillsOk, WalOk;
  }

  /** The cache part, when one data cell is written or none. */
  lemma CacheFrame(c: Config, s: State, s': State, n: int)
    requires CacheOk(c, s)
    requires forall m :: m != n ==> View(c, s', m) == View(c, s, m)
    requires forall m :: m != n && DataKey(c, m) in s'.kv ==>
      DataKey(c, m) in s.kv && s'.kv[DataKey(c, m)] == s.kv[DataKey(c, m)]
    requires DataKey(c, n) in s'.kv ==> CellOk(c, s'.kv[DataKey(c, n)], View(c, s', n))
    ensures CacheOk(c, s')
  {
    hide View, CellOk, DataKey;
    forall m | DataKey(c, m) in s'.kv
      ensures CellOk(c, s'.kv[DataKey(c, m)], View(c, s', m))
    {
      if m != n {
        assert CellOk(c, s.kv[DataKey(c, m)], View(c, s, m));
      }
    }
  }

  lemma SameCells(c: Config, s: State, s': State)
    requires CacheOk(c, s)
    requires forall m :: View(c, s', m) == View(c, s, m)
    requires forall m :: DataKey(c, m) in s'.kv ==> DataKey(c, m) in s.kv && s'.kv[DataKey(c, m)] == s.kv[DataKey(c, m)]
    ensures CacheOk(c, s')
  {
    hide View, CellOk, DataKey;
    forall m | DataKey(c, m) in s'.kv
      ensures CellOk(c, s'.kv[DataKey(c, m)], View(c, s', m))
    {
      assert CellOk(c, s.kv[DataKey(c, m)], View(c, s, m));
    }
  }

  lemma SameFlights(c: Config, s: State, s': State)
    requires FlightsOk(c, s) && forall m :: View(c, s', m) == View(c, s, m)
    requires forall m :: m in s'.flights ==> m in s.flights && s'.flights[m] == s.flights[m]
    ensures FlightsOk(c, s')
  {
    hide View, FlightOk;
    forall m | m in s'.flights ensures FlightOk(c, m, s'.flights[m], View(c, s', m)) {
      assert FlightOk(c, m, s.flights[m], View(c, s, m));
    }
  }

  lemma SameFills(c: Config, s: State, s': State)
    requires FillsOk(c, s) && s'.versions == s.versions && forall m :: View(c, s', m) == View(c, s, m)
    requires forall i :: i in s'.fills ==> i in s.fills && s'.fills[i] == s.fills[i]
    ensures FillsOk(c, s')
  {
    hide View, FillOk;
    forall i | i in s'.fills
      ensures FillOk(s'.fills[i], Version(s', s'.fills[i].n), View(c, s', s'.fills[i].n))
    {
      assert FillOk(s.fills[i], Version(s, s.fills[i].n), View(c, s, s.fills[i].n));
    }
  }

  /** The WAL part, for the flights and log entries that were there. */
  lemma SameWal(c: Config, s: State, s': State)
    requires WalOk(c, s) && KeepsWal(c, s, s') && s'.log == s.log
    requires forall m :: m in s'.flights && !s'.flights[m].stage.Prepared? && !s'.flights[m].stage.Stored? ==>
      m in s.flights && s'.flights[m] == s.flights[m]
    ensures WalOk(c, s')
  {
    hide Recorded;
  }

  /* ---------- beginning a write keeps the invariant ---------- */

  lemma CreateReady(c: Config, n: int, op: WriteOp)
    requires GoodConfig(c) && OpOk(c, n, op) && op.kind == OperationCreate
    ensures FlightOk(c, n, Fly(op, c, op.data.value), None)
  {
    OpOkApplicable(c, n, op);
    CreateGood(c, n, op);
  }

  lemma UpdateOpOk(c: Config, n: int, key: Value, updates: Record, rec: Record)
    requires GoodConfig(c) && KeyOk(c, n, key) && GoodUpdates(c, updates) && KvAccepts(c.lib, c.s, rec + updates)
    ensures OpOk(c, n, UpdateOp(c, key, updates))
  {
    AcceptedUpdateDrains(c.lib, c.s, key, rec, updates);
  }

  lemma MirrorHasKey(c: Config, n: int, rec: Record, row: Row)
    requires Mirrors(c, n, rec, row)
    ensures c.s.primaryKey in rec
  {
  }

  /** A record that mirrors the current row, merged with good updates and accepted, is ready
      to be stored for the updated row. */
  lemma UpdateReady(c: Config, n: int, key: Value, updates: Record, rec: Record, row: Row)
    requires GoodConfig(c) && KeyOk(c, n, key) && GoodUpdates(c, updates)
    requires Mirrors(c, n, rec, row) && KvAccepts(c.lib, c.s, rec + updates)
    ensures FlightOk(c, n, Fly(UpdateOp(c, key, updates), c, rec + updates), Some(row))
  {
    hide OpOk, Agrees, Mirrors, GoodConfig, KeyOk, ValidRecord, Faithful, ConvertToDB, ColumnSet;
    var op := UpdateOp(c, key, updates);
    UpdateOpOk(c, n, key, updates, rec);
    OpOkApplicable(c, n, op);
    MergeMirrors(c, n, op, rec, row);
    MirrorAgrees(c, n, rec + updates, row + UpdateRow(c.lib, c.s, updates));
    MirrorHasKey(c, n, rec, row);
  }

  /** What the invariant says about one data cell, one flight and one fill. */
  lemma DataCell(c: Config, s: State, n: int)
    requires Inv(c, s) && DataKey(c, n) in s.kv
    ensures CellOk(c, s.kv[DataKey(c, n)], View(c, s, n))
    ensures RowGood(c, n, View(c, s, n).value)
  {
    hide View, RowGood, OpOk, RowsNotNull, Recorded, Agrees;
    assert CacheOk(c, s) && RowsOk(c, s);
  }

  lemma FlightAt(c: Config, s: State, n: int)
    requires Inv(c, s) && n in s.flights
    ensures FlightOk(c, n, s.flights[n], View(c, s, n))
    ensures OpOk(c, n, s.flights[n].op) && s.flights[n].kvKey == DataKey(c, n)
    ensures Applicable(c, s.flights[n].op) && IsFor(s.flights[n].op, n)
  {
    hide View, RowGood, RowsNotNull, Recorded, Stands, Apply;
    assert FlightsOk(c, s);
    OpOkApplicable(c, n, s.flights[n].op);
  }

  lemma FillAt(c: Config, s: State, i: nat)
    requires Inv(c, s) && i in s.fills
    ensures FillOk(s.fills[i], Version(s, s.fills[i].n), View(c, s, s.fills[i].n))
  {
    hide View, RowGood, OpOk, RowsNotNull, Recorded, FillOk;
    assert FillsOk(c, s);
  }

  lemma RowAt(c: Config, s: State, n: int)
    requires Inv(c, s)
    ensures View(c, s, n) == TableRow(s.table, n)
    ensures View(c, s, n).Some? ==> RowGood(c, n, View(c, s, n).value)
  {
    hide View, RowGood, OpOk, RowsNotNull, Recorded, FillOk, CellOk, FlightOk;
    assert Refines(c, s) && RowsOk(c, s);
  }

  lemma HitReady(c: Config, s: State, n: int, key: Value, updates: Record)
    requires GoodConfig(c) && Inv(c, s) && KeyOk(c, n, key) && GoodUpdates(c, updates)
    requires DataKey(c, n) in s.kv && s.kv[DataKey(c, n)].content.Cached?
    requires KvReadable(c.lib, c.s, s.kv[DataKey(c, n)].content.doc)
    requires KvAccepts(c.lib, c.s, KvRecord(c.lib, c.s, s.kv[DataKey(c, n)].content.doc) + updates)
    ensures var merged := KvRecord(c.lib, c.s, s.kv[DataKey(c, n)].content.doc) + updates;
            FlightOk(c, n, Fly(UpdateOp(c, key, updates), c, merged), View(c, s, n))
  {
    hide RowGood, Agrees, GoodConfig, KeyOk, GoodUpdates, FlightOk, View;
    var doc, row := s.kv[DataKey(c, n)].content.doc, View(c, s, n);
    DataCell(c, s, n);
    HitMirrors(c, n, doc, row.value);
    UpdateReady(c, n, key, updates, KvRecord(c.lib, c.s, doc), row.value);
  }

  lemma MissReady(c: Config, s: State, n: int, key: Value, updates: Record)
    requires GoodConfig(c) && Inv(c, s) && KeyOk(c, n, key) && GoodUpdates(c, updates)
    requires Settled(s, n) && Lookup(s.db, n).Some?
    requires KvAccepts(c.lib, c.s, ScanRow(Lookup(s.db, n).value) + updates)
    ensures View(c, s, n) == Lookup(s.db, n)
    ensures FlightOk(c, n, Fly(UpdateOp(c, key, updates), c, ScanRow(Lookup(s.db, n).value) + updates), View(c, s, n))
  {
    SettledView(c, s, n);
    var row := Lookup(s.db, n).value;
    ScanMirrors(c, n, row);
    UpdateReady(c, n, key, updates, ScanRow(row), row);
  }

  /** Adding a prepared flight, and possibly a fill read from the settled database. */
  lemma BeginKeeps(c: Config, s: State, s': State, n: int, f: Flight)
    requires Inv(c, s) && n !in s.flights
    requires f.stage.Prepared? && FlightOk(c, n, f, View(c, s, n))
    requires s' == s.(flights := s.flights[n := f], fills := s'.fills)
    requires forall i :: i in s'.fills ==>
      || (i in s.fills && s'.fills[i] == s.fills[i])
      || FillOk(s'.fills[i], Version(s, s'.fills[i].n), View(c, s, s'.fills[i].n))
    ensures Inv(c, s')
  {
    hide View, FlightOk, FillOk, CellOk, OpOk, NotNull, RowGood, Recorded;
    assert Pending(s') == Pending(s);
    SameView(c, s, s');
    SameCells(c, s, s');
    BeginKeepsWal(c, s, s');
    SameWal(c, s, s');
    forall m | m in s'.flights ensures FlightOk(c, m, s'.flights[m], View(c, s', m)) {
      if m != n { FlightAt(c, s, m); }
    }
    forall i | i in s'.fills
      ensures FillOk(s'.fills[i], Version(s', s'.fills[i].n), View(c, s', s'.fills[i].n))
    {
      if i in s.fills && s'.fills[i] == s.fills[i] { FillAt(c, s, i); }
    }
    Frame(c, s, s');
  }

  lemma BeginKeepsWal(c: Config, s: State, s': State)
    requires s'.kv == s.kv && s.now <= s'.now
    ensures KeepsWal(c, s, s')
  {
    hide EntryKey, WalOf, Render;
  }

  lemma BeginCreateInv(c: Config, s: State, s': State, n: int, rec: Record)
    requires GoodConfig(c) && Inv(c, s) && Begins(c, s, s', BeginCreate(n, rec))
    ensures Inv(c, s')
  {
    hide Inv, GoodConfig, View, KvAccepts, AllFaithful, KeyOk, FlightOk;
    CreateReady(c, n, s'.flights[n].op);
    BeginKeeps(c, s, s', n, s'.flights[n]);
  }

  lemma BeginUpdateInv(c: Config, s: State, s': State, step: Step)
    requires GoodConfig(c) && Inv(c, s) && Begins(c, s, s', step)
    requires step.BeginUpdateHit? || step.BeginUpdateMiss?
    ensures Inv(c, s')
  {
    hide Inv, GoodConfig, View, KvAccepts, KvReadable, GoodUpdates, KeyOk, FlightOk, Settled, ScanRow;
    if step.BeginUpdateHit? {
      HitReady(c, s, step.n, step.key, step.updates);
    } else {
      MissReady(c, s, step.n, step.key, step.updates);
    }
    BeginKeeps(c, s, s', step.n, s'.flights[step.n]);
  }

  lemma BeginDeleteInv(c: Config, s: State, s': State, n: int, key: Value)
    requires GoodConfig(c) && Inv(c, s) && Begins(c, s, s', BeginDelete(n, key))
    ensures Inv(c, s')
  {
    hide Inv, GoodConfig, View, KeyOk, Stands, Apply;
    BeginKeeps(c, s, s', n, s'.flights[n]);
  }

  lemma BeginsInv(c: Config, s: State, s': State, step: Step)
    requires GoodConfig(c) && Inv(c, s) && Begins(c, s, s', step)
    ensures Inv(c, s')
  {
    hide Inv, GoodConfig, View, KvAccepts, KvReadable, GoodUpdates, AllFaithful, KeyOk, Settled, Hit;
    match step
    case BeginCreate(n, rec) => BeginCreateInv(c, s, s', n, rec);
    case BeginDelete(n, key) => BeginDeleteInv(c, s, s', n, key);
    case _ => BeginUpdateInv(c, s, s', step);
  }

  /* ---------- the sub-steps of a write keep the invariant ---------- */

  /** What storing does to the views: the operation takes effect on its own key. */
  lemma StoreView(c: Config, s: State, s': State, n: int)
    requires Proceeds(c, s, s', Store(n))
    ensures View(c, s', n) == Apply(c, s.flights[n].op, View(c, s, n))
    ensures forall m :: m != n ==> View(c, s', m) == View(c, s, m)
  {
    assert Pending(s') == Pending(s);
  }

  lemma StoreRows(c: Config, s: State, s': State, n: int)
    requires GoodConfig(c) && Inv(c, s) && Proceeds(c, s, s', Store(n))
    ensures RowsOk(c, s') && Refines(c, s')
  {
    hide Inv, View, RowApply, RowGood, OpOk, GoodConfig, DataKey, FlightOk;
    StoreView(c, s, s', n);
    FlightAt(c, s, n);
    forall m
      ensures View(c, s', m) == TableRow(s'.table, m)
      ensures View(c, s', m).Some? ==> RowGood(c, m, View(c, s', m).value)
    {
      RowAt(c, s, m);
      if m == n {
        RowApplyGood(c, n, s.flights[n].op, View(c, s, n));
      }
    }
  }

  lemma CachePart(c: Config, s: State)
    requires Inv(c, s)
    ensures CacheOk(c, s)
  {
  }

  lemma StoreCache(c: Config, s: State, s': State, n: int)
    requires GoodConfig(c) && Inv(c, s) && Proceeds(c, s, s', Store(n))
    ensures CacheOk(c, s')
  {
    hide Inv, View, OpOk, Agrees, GoodConfig, DataKey, Apply;
    StoreView(c, s, s', n);
    KeysApart(c);
    FlightAt(c, s, n);
    CacheFrame(c, s, s', n) by { CachePart(c, s); }
  }

  lemma StoreFlights(c: Config, s: State, s': State, n: int)
    requires Inv(c, s) && Proceeds(c, s, s', Store(n))
    ensures FlightsOk(c, s') && FillsOk(c, s')
  {
    hide Inv, View, OpOk, Stands, Apply, DataKey, ScanRow;
    StoreView(c, s, s', n);
    forall m | m in s'.flights ensures FlightOk(c, m, s'.flights[m], View(c, s', m)) {
      FlightAt(c, s, m);
    }
    forall i | i in s'.fills
      ensures FillOk(s'.fills[i], Version(s', s'.fills[i].n), View(c, s', s'.fills[i].n))
    {
      FillAt(c, s, i);
    }
  }

  lemma StoreInv(c: Config, s: State, s': State, n: int)
    requires GoodConfig(c) && Inv(c, s) && Proceeds(c, s, s', Store(n))
    ensures Inv(c, s')
  {
    hide GoodConfig, RowsOk, Refines, CacheOk, FlightsOk, FillsOk, OpOk, RowsNotNull, Recorded, Apply, EntryKey,
      DataKey, View, FlightOk;
    StoreRows(c, s, s', n);
    StoreCache(c, s, s', n);
    StoreFlights(c, s, s', n);
    KeysApart(c);
    assert Pending(s') == Pending(s);
    FlightAt(c, s, n);
    CellKeepsWal(c, s, s', DataKey(c, n), Cell(Cached(s.flights[n].doc), Expiry(s.now, c.ttl)));
    SameWal(c, s, s');
  }

  /** A fresh identifier: every recorded one is from an earlier instant. */
  lemma FreshEntry(c: Config, s: State, op: WriteOp, l: Logging)
    requires GoodConfig(c) && Recorded(c, s, l)
    ensures EntryKey(c, l.id) != EntryKey(c, StoreKeys.OperationId(c.s.tableName, Render(c.lib, op.key), s.now))
  {
    hide GoodConfig;
    KeysApart(c);
    StoreKeys.OperationIdInjective(c.s.tableName, Render(c.lib, l.op.key), l.at, Render(c.lib, op.key), s.now);
  }

  /** Writing a cell that is neither a data cell nor a recorded entry, and moving one flight
      on past its storing, keeps the invariant if the WAL part holds for that flight. */
  lemma WalWriteKeeps(c: Config, s: State, s': State, n: int, key: string, cell: Cell, f: Flight)
    requires Inv(c, s) && n in s.flights && !s.flights[n].stage.Prepared?
    requires forall m :: DataKey(c, m) != key
    requires forall l :: Recorded(c, s, l) ==> EntryKey(c, l.id) != key
    requires f == s.flights[n].(stage := f.stage) && (f.stage.EntryWritten? || f.stage.Logged?)
    requires s.now <= s'.now && s' == s.(kv := s.kv[key := cell], flights := s.flights[n := f], now := s'.now)
    requires Recorded(c, s', Logging(f.op, f.stage.id, f.stage.at))
    ensures Inv(c, s')
  {
    hide View, OpOk, Stands, Apply, DataKey, EntryKey, RowsNotNull, Recorded, CellOk, FillOk;
    assert Pending(s') == Pending(s);
    SameView(c, s, s');
    SameCells(c, s, s');
    SameFills(c, s, s');
    forall m | m in s'.flights ensures FlightOk(c, m, s'.flights[m], View(c, s', m)) {
      FlightAt(c, s, m);
    }
    CellKeepsWal(c, s, s', key, cell);
    assert WalOk(c, s') by { assert WalOk(c, s); }
    Frame(c, s, s');
  }

  lemma WriteEntryInv(c: Config, s: State, s': State, n: int)
    requires GoodConfig(c) && Inv(c, s) && Proceeds(c, s, s', WriteEntry(n))
    ensures Inv(c, s')
  {
    hide GoodConfig, Inv, EntryKey, DataKey, WalOf, Render;
    var f := s.flights[n];
    var id := StoreKeys.OperationId(c.s.tableName, Render(c.lib, f.op.key), s.now);
    KeysApart(c);
    forall l | Recorded(c, s, l) ensures EntryKey(c, l.id) != EntryKey(c, id) {
      FreshEntry(c, s, f.op, l);
    }
    WalWriteKeeps(c, s, s', n, EntryKey(c, id), Cell(Entry(WalOf(c, f.op)), Some(s.now + DAY)), s'.flights[n]);
  }

  lemma FlightRecorded(c: Config, s: State, n: int)
    requires Inv(c, s) && n in s.flights && (s.flights[n].stage.EntryWritten? || s.flights[n].stage.Logged?)
    ensures Recorded(c, s, Logging(s.flights[n].op, s.flights[n].stage.id, s.flights[n].stage.at))
  {
    hide View, OpOk, RowGood, RowsNotNull, CellOk, FlightOk, FillOk, Recorded;
    assert WalOk(c, s);
  }

  lemma WriteIndexInv(c: Config, s: State, s': State, n: int, stamp: int)
    requires GoodConfig(c) && Inv(c, s) && Proceeds(c, s, s', WriteIndex(n, stamp))
    ensures Inv(c, s')
  {
    hide GoodConfig, Inv, EntryKey, DataKey, StampKey, WalOf, Render;
    var f := s.flights[n];
    KeysApart(c);
    FlightRecorded(c, s, n);
    var cell := Cell(Index(f.stage.id), Some(s.now + DAY));
    WalWriteKeeps(c, s, s', n, StampKey(c, stamp, f.stage.id), cell, s'.flights[n]);
  }

  /** Enqueueing moves the operation from in flight to the end of the queue: no view changes. */
  lemma EnqueueView(c: Config, s: State, s': State, n: int)
    requires Inv(c, s) && Proceeds(c, s, s', Enqueue(n))
    ensures Pending(s') == Pending(s) + [s.flights[n].op] && OpOk(c, n, s.flights[n].op)
    ensures forall m :: View(c, s', m) == View(c, s, m)
  {
    hide Inv, OpOk, Apply, FlightOk, DataKey;
    var op := s.flights[n].op;
    FlightAt(c, s, n);
    assert Pending(s') == Pending(s) + [op];
    forall m ensures View(c, s', m) == View(c, s, m) {
      ReplayAppend(c, Pending(s), op, m, Lookup(s.db, m));
    }
  }

  lemma EnqueueInv(c: Config, s: State, s': State, n: int)
    requires Inv(c, s) && Proceeds(c, s, s', Enqueue(n))
    ensures Inv(c, s')
  {
    hide View, OpOk, Apply, DataKey, RowsNotNull, CellOk, FillOk, FlightOk, Recorded;
    var f := s.flights[n];
    EnqueueView(c, s, s', n);
    FlightAt(c, s, n);
    SameCells(c, s, s');
    SameFlights(c, s, s');
    SameFills(c, s, s');
    BeginKeepsWal(c, s, s');
    assert PendingOk(c, s') by { assert PendingOk(c, s); }
    assert WalOk(c, s') by { assert WalOk(c, s); }
    Frame(c, s, s');
  }

  lemma ProceedsInv(c: Config, s: State, s': State, step: Step)
    requires GoodConfig(c) && Inv(c, s) && Proceeds(c, s, s', step)
    ensures Inv(c, s')
  {
    hide GoodConfig, Inv;
    match step
    case Store(n) => StoreInv(c, s, s', n);
    case WriteEntry(n) => WriteEntryInv(c, s, s', n);
    case WriteIndex(n, stamp) => WriteIndexInv(c, s, s', n, stamp);
    case Enqueue(n) => EnqueueInv(c, s, s', n);
  }

  /* ---------- clock, reads and drainer keep the invariant ---------- */

  /** A current fill stands for its key's row. */
  lemma FillStands(c: Config, s: State, f: Fill)
    requires GoodConfig(c) && Inv(c, s) && KvAccepts(c.lib, c.s, ScanRow(f.row))
    requires FillOk(f, Version(s, f.n), View(c, s, f.n)) && f.version == Version(s, f.n)
    ensures Stands(c, KvDoc(c.lib, c.s, ScanRow(f.row)), View(c, s, f.n))
    ensures CacheKey(c.lib, c.s, ScanRow(f.row)[c.s.primaryKey]) == DataKey(c, f.n)
  {
    hide Inv, View, RowGood, Agrees, GoodConfig;
    var row := View(c, s, f.n).value;
    RowAt(c, s, f.n);
    ScanMirrors(c, f.n, row);
    MirrorAgrees(c, f.n, ScanRow(f.row), row);
  }

  lemma LandFillInv(c: Config, s: State, s': State, fill: nat)
    requires GoodConfig(c) && Inv(c, s) && Serves(c, s, s', LandFill(fill))
    ensures Inv(c, s')
  {
    hide GoodConfig, View, OpOk, Stands, Apply, DataKey, EntryKey, RowsNotNull, FillOk, FlightOk, Recorded, KvAccepts;
    var f := s.fills[fill];
    FillAt(c, s, fill);
    FillStands(c, s, f);
    KeysApart(c);
    assert Pending(s') == Pending(s);
    SameView(c, s, s');
    CacheFrame(c, s, s', f.n);
    SameFlights(c, s, s');
    SameFills(c, s, s');
    CellKeepsWal(c, s, s', DataKey(c, f.n), s'.kv[DataKey(c, f.n)]);
    SameWal(c, s, s');
    Frame(c, s, s');
  }

  /** Steps that touch neither the store nor any view. */
  lemma QuietKeeps(c: Config, s: State, s': State)
    requires Inv(c, s) && forall m :: View(c, s', m) == View(c, s, m)
    requires s'.kv == s.kv && s'.flights == s.flights && s'.versions == s.versions && s'.table == s.table
    requires s'.log == s.log && s.now <= s'.now && RowsNotNull(c.s, s'.db)
    requires forall op :: op in Pending(s') ==> op in Pending(s)
    requires FillsOk(c, s')
    ensures Inv(c, s')
  {
    hide View, OpOk, DataKey, RowsNotNull, CellOk, FlightOk, FillsOk, Recorded, Pending;
    SameCells(c, s, s');
    SameFlights(c, s, s');
    BeginKeepsWal(c, s, s');
    SameWal(c, s, s');
    assert PendingOk(c, s') by { assert PendingOk(c, s); }
    Frame(c, s, s');
  }

  lemma ReadMissInv(c: Config, s: State, s': State, n: int, fill: nat)
    requires Inv(c, s) && Serves(c, s, s', ReadMiss(n, fill))
    ensures Inv(c, s')
  {
    hide View, Inv, RowsNotNull, ScanRow;
    SettledView(c, s, n);
    assert Pending(s') == Pending(s);
    SameView(c, s, s');
    forall i | i in s'.fills
      ensures FillOk(s'.fills[i], Version(s', s'.fills[i].n), View(c, s', s'.fills[i].n))
    {
      if i != fill { FillAt(c, s, i); }
    }
    InvParts(c, s);
    QuietKeeps(c, s, s');
  }

  lemma InvParts(c: Config, s: State)
    requires Inv(c, s)
    ensures RowsNotNull(c.s, s.db) && FillsOk(c, s)
  {
  }

  lemma QuietInv(c: Config, s: State, s': State, step: Step)
    requires Inv(c, s) && Serves(c, s, s', step)
    requires step.Tick? || step.LoseFill? || step.Dequeue?
    ensures Inv(c, s')
  {
    hide View, Inv, RowsNotNull, FillOk;
    assert Pending(s') == Pending(s) by {
      if step.Dequeue? { assert s.queue == [s.queue[0]] + s.queue[1..]; }
    }
    SameView(c, s, s');
    InvParts(c, s);
    SameFills(c, s, s');
    QuietKeeps(c, s, s');
  }

  lemma HandOk(c: Config, s: State)
    requires Inv(c, s) && s.hand.Some?
    ensures s.hand.value.key.Int? && OpOk(c, s.hand.value.key.n, s.hand.value)
  {
    hide View, OpOk, RowGood, RowsNotNull, CellOk, FlightOk, FillOk, Recorded;
    assert s.hand.value in Pending(s);
  }

  /** Executing the operation in hand shortens the replay by its first step: no view changes. */
  lemma ExecuteView(c: Config, s: State, s': State, stmt: Stmt, args: seq<Value>)
    requires GoodConfig(c) && Inv(c, s) && Serves(c, s, s', Execute(stmt, args))
    ensures RowsNotNull(c.s, s'.db)
    ensures forall m :: View(c, s', m) == View(c, s, m)
  {
    hide GoodConfig, Inv, OpOk, RowApply, RowsNotNull, Translates, After, Replay;
    var op := s.hand.value;
    assert Pending(s) == [op] + s.queue && Pending(s') == s.queue;
    HandOk(c, s);
    ExecuteMeaning(c, op.key.n, op, stmt, args, s.db) by { InvParts(c, s); }
    forall m ensures View(c, s', m) == View(c, s, m) {
      ReplayHead(c, op, s.queue, m, Lookup(s.db, m));
    }
  }

  lemma ExecuteInv(c: Config, s: State, s': State, stmt: Stmt, args: seq<Value>)
    requires GoodConfig(c) && Inv(c, s) && Serves(c, s, s', Execute(stmt, args))
    ensures Inv(c, s')
  {
    hide GoodConfig, View, Inv, RowsNotNull, FillOk, Translates, After;
    ExecuteView(c, s, s', stmt, args);
    assert forall op :: op in Pending(s') ==> op in Pending(s);
    InvParts(c, s);
    SameFills(c, s, s');
    QuietKeeps(c, s, s');
  }

  lemma ServesInv(c: Config, s: State, s': State, step: Step)
    requires GoodConfig(c) && Inv(c, s) && Serves(c, s, s', step)
    ensures Inv(c, s')
  {
    hide GoodConfig, Inv;
    match step
    case ReadMiss(n, fill) => ReadMissInv(c, s, s', n, fill);
    case LandFill(fill) => LandFillInv(c, s, s', fill);
    case Execute(stmt, args) => ExecuteInv(c, s, s', stmt, args);
    case _ => QuietInv(c, s, s', step);
  }

  /* ---------- whole runs ---------- */

  /** A run: states joined by steps. */
  ghost predicate Run(c: Config, states: seq<State>, steps: seq<Step>) {
    && |states| == |steps| + 1 && Init(c, states[0])
    && forall i :: 0 <= i < |steps| ==> Next(c, states[i], states[i+1], steps[i])
  }

  lemma {:induction false} InvariantHolds(c: Config, states: seq<State>, steps: seq<Step>, i: nat)
    requires GoodConfig(c) && Run(c, states, steps) && i < |states|
    ensures Inv(c, states[i])
  {
    hide GoodConfig, Inv, Init, Begins, Proceeds, Serves;
    if i == 0 {
      InitInv(c, states[0]);
    } else {
      InvariantHolds(c, states, steps, i - 1);
      var s, s', step := states[i-1], states[i], steps[i-1];
      assert Next(c, s, s', step);
      if Begins(c, s, s', step) {
        BeginsInv(c, s, s', step);
      } else if Proceeds(c, s, s', step) {
        ProceedsInv(c, s, s', step);
      } else {
        ServesInv(c, s, s', step);
      }
    }
  }

  /** Write-back refinement. In every state of every run, each key's view - the pending queue
      and then its in-flight operation replayed over the database - is the plain table's
      row, and every cached record agrees with it on every schema column it holds. */
  lemma WriteBackRefinement(c: Config, states: seq<State>, steps: seq<Step>, i: nat, n: int)
    requires GoodConfig(c) && Run(c, states, steps) && i < |states|
    ensures var s := states[i];
            && View(c, s, n) == TableRow(s.table, n)
            && (DataKey(c, n) in s.kv ==>
                && s.kv[DataKey(c, n)].content.Cached?
                && n in s.table
                && forall f :: f in s.kv[DataKey(c, n)].content.doc && f in ColumnSet(c.s.columns) ==>
                     f in s.table[n] && s.kv[DataKey(c, n)].content.doc[f] == Encode(c.lib, s.table[n][f]))
  {
    hide GoodConfig, Run, Inv, View, RowGood;
    InvariantHolds(c, states, steps, i);
    RowAt(c, states[i], n);
    if DataKey(c, n) in states[i].kv {
      DataCell(c, states[i], n);
    }
  }

  /** A cache hit reads, column for column, the plain table's row. */
  lemma HitReadsTable(c: Config, states: seq<State>, steps: seq<Step>, i: nat, n: int)
    requires GoodConfig(c) && Run(c, states, steps) && i < |states| && Hit(c, states[i], n)
    ensures var s := states[i];
            && s.kv[DataKey(c, n)].content.Cached? && n in s.table
            && var doc := s.kv[DataKey(c, n)].content.doc;
               forall f :: f in doc && f in ColumnSet(c.s.columns) ==>
                 f in s.table[n] && ReadField(c.lib, c.s, f, doc[f]) == Some(s.table[n][f])
  {
    hide GoodConfig, Run, Inv, View, Storable, ReadField;
    var s := states[i];
    InvariantHolds(c, states, steps, i);
    RowAt(c, s, n);
    DataCell(c, s, n);
    var doc := s.kv[DataKey(c, n)].content.doc;
    forall f | f in doc && f in ColumnSet(c.s.columns)
      ensures f in s.table[n] && ReadField(c.lib, c.s, f, doc[f]) == Some(s.table[n][f])
    {
      CachedFieldReads(c, f, s.table[n][f]);
    }
  }

  /** What a cache miss reads from the database, while nothing on its key is pending, is the
      plain table's row. */
  lemma MissReadsTable(c: Config, states: seq<State>, steps: seq<Step>, i: nat, n: int)
    requires GoodConfig(c) && Run(c, states, steps) && i < |states| && Settled(states[i], n)
    ensures Lookup(states[i].db, n) == TableRow(states[i].table, n)
  {
    hide GoodConfig, Run, Inv, View, RowGood, Settled;
    InvariantHolds(c, states, steps, i);
    RowAt(c, states[i], n);
    SettledView(c, states[i], n);
  }

  /** Once the queue is drained and no write is past its cache write, the database is the
      plain table: nothing accepted is lost. */
  lemma DrainedDatabaseIsTable(c: Config, states: seq<State>, steps: seq<Step>, i: nat)
    requires GoodConfig(c) && Run(c, states, steps) && i < |states|
    requires Pending(states[i]) == [] && forall n :: Shown(states[i], n).None?
    ensures forall n :: Lookup(states[i].db, n) == TableRow(states[i].table, n)
  {
    hide GoodConfig, Run, View;
    forall n ensures Lookup(states[i].db, n) == TableRow(states[i].table, n) {
      MissReadsTable(c, states, steps, i, n);
    }
  }

  /* ---------- the WAL ---------- */

  /** `WALManager.Get`: the stored document, decoded. */
  function WalGet(c: Config, s: State, id: string): Option<WriteOp> {
    var k := EntryKey(c, id);
    if k !in s.kv || !Live(s.kv[k], s.now) || !s.kv[k].content.Entry? then None
    else
      var w := s.kv[k].content.wal;
      Some(WriteOp(w.table, w.kind, Decode(w.key),
                   if w.data.Some? then Some(map f | f in w.data.value :: Decode(w.data.value[f])) else None))
  }

  /** WAL precedes queue and stays retrievable: at every point of every run, each operation
      ever enqueued has a WAL entry that, until its 24 hours are over, `Get` returns with the
      same table, type and JSON text of key and data (integers within 2^53). */
  lemma WalRetrievable(c: Config, states: seq<State>, steps: seq<Step>, i: nat, l: Logging)
    requires GoodConfig(c) && Run(c, states, steps) && i < |states|
    requires l in states[i].log && states[i].now < l.at + DAY
    requires Within53(l.op.key)
    requires l.op.data.Some? ==> forall f :: f in l.op.data.value ==> Within53(l.op.data.value[f])
    ensures var got := WalGet(c, states[i], l.id);
            && got.Some? && got.value.table == l.op.table && got.value.kind == l.op.kind
            && Encode(c.lib, got.value.key) == Encode(c.lib, l.op.key)
            && (got.value.data.Some? <==> l.op.data.Some?)
            && (l.op.data.Some? ==> SameJson(c, got.value.data.value, l.op.data.value))
  {
    hide GoodConfig, Run, EntryKey, Inv;
    InvariantHolds(c, states, steps, i);
    LogRecorded(c, states[i], l);
    var got := WalGet(c, states[i], l.id).value;
    JsonKept(c.lib, l.op.key);
    if l.op.data.Some? {
      forall f | f in l.op.data.value
        ensures Encode(c.lib, Decode(Encode(c.lib, l.op.data.value[f]))) == Encode(c.lib, l.op.data.value[f])
      {
        JsonKept(c.lib, l.op.data.value[f]);
      }
    }
  }

  /** The same fields with the same JSON. */
  ghost predicate SameJson(c: Config, a: Record, b: Record) {
    a.Keys == b.Keys && forall f :: f in b ==> Encode(c.lib, a[f]) == Encode(c.lib, b[f])
  }

  /** And no longer: once the 24 hours are over, `Get` finds nothing. */
  lemma WalExpires(c: Config, states: seq<State>, steps: seq<Step>, i: nat, l: Logging)
    requires GoodConfig(c) && Run(c, states, steps) && i < |states|
    requires l in states[i].log && states[i].now >= l.at + 24 * 60 * 60 * 1_000_000_000
    ensures WalGet(c, states[i], l.id) == None
  {
    hide GoodConfig, Run, EntryKey, Inv;
    InvariantHolds(c, states, steps, i);
    LogRecorded(c, states[i], l);
  }

  lemma LogRecorded(c: Config, s: State, l: Logging)
    requires Inv(c, s) && l in s.log
    ensures Recorded(c, s, l)
  {
    hide View, OpOk, RowGood, RowsNotNull, CellOk, FlightOk, FillOk, Recorded;
    assert WalOk(c, s);
  }

  lemma JsonKept(lib: Lib, v: Value)
    requires Within53(v)
    ensures Encode(lib, Decode(Encode(lib, v))) == Encode(lib, v)
  {
    EncodeDecode(lib, Encode(lib, v));
  }
}
