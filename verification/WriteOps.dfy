/** Write operations, what executing one does to the database, and how cached documents
    relate to rows: the value-level half of the write-back protocol. */
module WriteOps {
  import opened GoText
  import opened Mapper
  import opened Validator
  import opened Sql
  import opened Translator
  import Binary64
  import StoreKeys

  datatype OpType = OperationCreate | OperationUpdate | OperationDelete

  /** `core.WriteOperation`, without its timestamp and the unused retry count. */
  datatype WriteOp = WriteOp(table: string, kind: OpType, key: Value, data: Option<Record>)

  /** A table's fixed surroundings. */
  datatype Config = Config(lib: Lib, s: Schema, ttl: int)

  /** What the code relies on without checking: a lawful library, one definition per column,
      the primary key among them, a table name the key formats can tell apart, no binary
      column, and defaults that the columns can store. */
  ghost predicate GoodConfig(c: Config) {
    && Lawful(c.lib) && DistinctColumns(c.s) && StoreKeys.GoodTable(c.s.tableName)
    && FindColumn(c.s.columns, c.s.primaryKey).Some? && c.s.primaryKey != ""
    && forall i :: 0 <= i < |c.s.columns| ==>
         KindOf(c.s.columns[i].dbType) != BinaryKind && Storable(c, c.s.columns[i].name, c.s.columns[i].fallback)
  }

  /** A value a column stores as it is: converting it changes nothing. */
  predicate Storable(c: Config, name: string, v: Value) {
    Faithful(c.lib, c.s, name, v) && Converted(c.lib, c.s, name, v) == Some(v)
  }

  /** An integer key the column type takes without change, within 2^53. */
  predicate KeyOk(c: Config, n: int, key: Value) {
    && key.Int? && key.n == n
    && -Binary64.TWO53 <= n <= Binary64.TWO53
    && var k := Converted(c.lib, c.s, c.s.primaryKey, key); k.Some? && k.value.Int? && k.value.n == n
  }

  /** What the cache asks of a key: it reads the same from the caller and from the database. */
  predicate RendersSame(c: Config, key: Value) {
    var k := Converted(c.lib, c.s, c.s.primaryKey, key);
    k.Some? && Render(c.lib, Scan(k.value)) == Render(c.lib, key)
  }

  /** A fill lands where readers of the caller's key look if and only if the key renders the
      same both ways. */
  lemma FillKeyExact(c: Config, key: Value)
    requires Converted(c.lib, c.s, c.s.primaryKey, key).Some?
    ensures var scanned := Scan(Converted(c.lib, c.s, c.s.primaryKey, key).value);
      RendersSame(c, key) <==>
      CacheKey(c.lib, c.s, scanned) == StoreKeys.BuildKey("", c.s.tableName, Render(c.lib, key))
  {
    hide ConvertToDB;
    var scanned := Scan(Converted(c.lib, c.s, c.s.primaryKey, key).value);
    var a, b := Render(c.lib, scanned), Render(c.lib, key);
    if CacheKey(c.lib, c.s, scanned) == StoreKeys.BuildKey("", c.s.tableName, b) {
      CancelPrefix(c.s.tableName + ":", a, b);
    }
  }

  /** Integer keys that their column stores unchanged do; text keys never do, since a scan
      gives their bytes. */
  lemma KeyRenderings(c: Config, n: int, key: Value, text: string)
    requires Lawful(c.lib)
    ensures KeyOk(c, n, key) ==> RendersSame(c, key)
    ensures KindOf(TypeOf(c.s, c.s.primaryKey)) == TextKind ==> !RendersSame(c, Str(text))
  {
    hide KindOf;
    assert |c.lib.render(Bytes(text))| > |text|;
  }

  predicate AllFaithful(c: Config, rec: Record) {
    forall f :: f in rec ==> Faithful(c.lib, c.s, f, rec[f])
  }

  /** An operation the protocol may hold for key `n`. */
  predicate OpOk(c: Config, n: int, op: WriteOp) {
    && op.table == c.s.tableName && KeyOk(c, n, op.key)
    && match op.kind
       case OperationCreate =>
         op.data.Some? && KvAccepts(c.lib, c.s, op.data.value) && AllFaithful(c, op.data.value)
         && op.data.value[c.s.primaryKey] == op.key
       case OperationUpdate =>
         op.data.Some? && UpdateAccepts(c.lib, c.s, op.key, op.data.value) && AllFaithful(c, op.data.value)
         && OnColumns(c.s, op.data.value)
       case OperationDelete => op.data.None?
  }

  /** What an operation does to the row of its key. A Create on a present row fails. */
  function RowApply(c: Config, op: WriteOp, row: Option<Row>): Option<Row>
    requires op.kind != OperationDelete ==> op.data.Some? && AllConvert(c.lib, c.s, op.data.value)
  {
    match op.kind
    case OperationCreate => if row.Some? then row else Some(RowOf(c.lib, c.s, op.data.value))
    case OperationUpdate => if row.Some? then Some(row.value + UpdateRow(c.lib, c.s, op.data.value)) else None
    case OperationDelete => None
  }

  /** The statement and arguments `writeToDatabase` may execute for an operation. */
  ghost predicate Translates(c: Config, op: WriteOp, stmt: Stmt, args: seq<Value>)
    requires op.kind != OperationDelete ==> op.data.Some?
  {
    match op.kind
    case OperationCreate => IsInsertOf(c.lib, c.s, op.data.value, stmt, args)
    case OperationUpdate => IsUpdateOf(c.lib, c.s, op.key, op.data.value, stmt, args)
    case OperationDelete => stmt == Delete(c.s.tableName, c.s.primaryKey) && args == [op.key]
  }

  /** The database after executing a statement; a failing statement changes nothing. */
  function After(s: Schema, db: Db, stmt: Stmt, args: seq<Value>): Db {
    var r := Exec(s, db, stmt, args);
    if r.Some? then r.value else db
  }

  function Lookup(db: Db, n: int): Option<Row> {
    if KeyInt(n) in db then Some(db[KeyInt(n)]) else None
  }

  ghost predicate RowsNotNull(s: Schema, db: Db) {
    forall k :: k in db ==> NotNull(s, db[k])
  }

  /** `out` is `db` with operation `op` applied to the row of `n`, and otherwise unchanged. */
  ghost predicate Applied(c: Config, n: int, op: WriteOp, db: Db, out: Db)
    requires op.kind != OperationDelete ==> op.data.Some? && AllConvert(c.lib, c.s, op.data.value)
  {
    && RowsNotNull(c.s, out)
    && forall m :: Lookup(out, m) == if m == n then RowApply(c, op, Lookup(db, n)) else Lookup(db, m)
  }

  lemma ExecuteCreate(c: Config, n: int, op: WriteOp, stmt: Stmt, args: seq<Value>, db: Db)
    requires GoodConfig(c) && OpOk(c, n, op) && Translates(c, op, stmt, args) && RowsNotNull(c.s, db)
    requires op.kind == OperationCreate
    ensures Applied(c, n, op, db, After(c.s, db, stmt, args))
  {
    InsertMeaning(c.lib, c.s, op.data.value, stmt, args, db);
    RowNotNull(c.lib, c.s, op.data.value);
    OneRowChanged(c.s, db, n, RowOf(c.lib, c.s, op.data.value));
  }

  lemma ExecuteUpdate(c: Config, n: int, op: WriteOp, stmt: Stmt, args: seq<Value>, db: Db)
    requires GoodConfig(c) && OpOk(c, n, op) && Translates(c, op, stmt, args) && RowsNotNull(c.s, db)
    requires op.kind == OperationUpdate
    ensures Applied(c, n, op, db, After(c.s, db, stmt, args))
  {
    UpdateMeaning(c.lib, c.s, op.key, op.data.value, stmt, args, db);
    if KeyInt(n) in db {
      var row := db[KeyInt(n)] + UpdateRow(c.lib, c.s, op.data.value);
      UpdateNotNull(c.lib, c.s, op.data.value, db[KeyInt(n)]);
      OneRowChanged(c.s, db, n, row);
    }
  }

  lemma ExecuteDelete(c: Config, n: int, op: WriteOp, stmt: Stmt, args: seq<Value>, db: Db)
    requires GoodConfig(c) && OpOk(c, n, op) && Translates(c, op, stmt, args) && RowsNotNull(c.s, db)
    requires op.kind == OperationDelete
    ensures Applied(c, n, op, db, After(c.s, db, stmt, args))
  {
    hide GoodConfig, NotNull;
    assert After(c.s, db, stmt, args) == db - {KeyInt(n)};
  }

  /** Replacing one row of a table. */
  lemma OneRowChanged(s: Schema, db: Db, n: int, row: Row)
    requires RowsNotNull(s, db) && NotNull(s, row)
    ensures RowsNotNull(s, db[KeyInt(n) := row])
    ensures forall m :: Lookup(db[KeyInt(n) := row], m) == if m == n then Some(row) else Lookup(db, m)
  {
    hide NotNull;
    var out := db[KeyInt(n) := row];
    forall k | k in out ensures NotNull(s, out[k]) {
      assert out[k] == if k == KeyInt(n) then row else db[k];
    }
    forall m ensures Lookup(out, m) == if m == n then Some(row) else Lookup(db, m) {
      assert KeyInt(m) in out <==> m == n || KeyInt(m) in db;
    }
  }

  /** Executing an operation's statement applies it to the row of its key and to nothing else. */
  lemma ExecuteMeaning(c: Config, n: int, op: WriteOp, stmt: Stmt, args: seq<Value>, db: Db)
    requires GoodConfig(c) && OpOk(c, n, op) && Translates(c, op, stmt, args) && RowsNotNull(c.s, db)
    ensures Applied(c, n, op, db, After(c.s, db, stmt, args))
  {
    hide GoodConfig, OpOk, Translates, RowsNotNull, After, Applied;
    match op.kind
    case OperationCreate => ExecuteCreate(c, n, op, stmt, args, db);
    case OperationUpdate => ExecuteUpdate(c, n, op, stmt, args, db);
    case OperationDelete => ExecuteDelete(c, n, op, stmt, args, db);
  }

  /** The database takes an operation's statement unless it creates a key that is there. */
  lemma ExecuteSucceeds(c: Config, n: int, op: WriteOp, stmt: Stmt, args: seq<Value>, db: Db)
    requires GoodConfig(c) && OpOk(c, n, op) && Translates(c, op, stmt, args) && RowsNotNull(c.s, db)
    ensures Exec(c.s, db, stmt, args).Some? <==> !(op.kind == OperationCreate && Lookup(db, n).Some?)
  {
    hide Exec, NotNull;
    match op.kind
    case OperationCreate => InsertMeaning(c.lib, c.s, op.data.value, stmt, args, db);
    case OperationUpdate => UpdateMeaning(c.lib, c.s, op.key, op.data.value, stmt, args, db);
    case OperationDelete => DeleteTaken(c, op, stmt, args, db);
  }

  lemma DeleteTaken(c: Config, op: WriteOp, stmt: Stmt, args: seq<Value>, db: Db)
    requires op.kind == OperationDelete && Translates(c, op, stmt, args)
    ensures Exec(c.s, db, stmt, args).Some?
  {
  }

  /** One queue must serve one table: `ExecuteWriteOperation` ignores the operation's own
      table, so one enqueued for another table changes this table's row all the same. */
  lemma ForeignOperationChangesThisTable(c: Config, n: int, op: WriteOp, other: string,
                                         stmt: Stmt, args: seq<Value>, db: Db)
    requires GoodConfig(c) && OpOk(c, n, op.(table := c.s.tableName)) && op.table == other && RowsNotNull(c.s, db)
    requires Translates(c, op, stmt, args)
    ensures Applied(c, n, op, db, After(c.s, db, stmt, args))
  {
    hide OpOk, GoodConfig, After;
    var mine := op.(table := c.s.tableName);
    SoundData(c, n, mine);
    SameStatement(c, op, stmt, args);
    ExecuteMeaning(c, n, mine, stmt, args, db);
  }

  lemma SoundData(c: Config, n: int, op: WriteOp)
    requires OpOk(c, n, op)
    ensures op.kind != OperationDelete ==> op.data.Some? && AllConvert(c.lib, c.s, op.data.value)
  {
  }

  lemma SameStatement(c: Config, op: WriteOp, stmt: Stmt, args: seq<Value>)
    requires op.kind != OperationDelete ==> op.data.Some?
    ensures Translates(c, op, stmt, args) <==> Translates(c, op.(table := c.s.tableName), stmt, args)
  {
  }

  /** The operations `writeToDatabase` finds a statement for. */
  predicate Translatable(c: Config, op: WriteOp) {
    match op.kind
    case OperationCreate => op.data.Some? && DbAccepts(c.lib, c.s, op.data.value)
    case OperationUpdate => op.data.Some? && UpdateAccepts(c.lib, c.s, op.key, op.data.value)
    case OperationDelete => true
  }

  /** The translation half of `writeToDatabase`: the statement it executes, or none when
      the translator reports an error. */
  method StatementFor(c: Config, op: WriteOp) returns (r: Option<(Stmt, seq<Value>)>)
    ensures r.Some? <==> Translatable(c, op)
    ensures r.Some? ==> Translates(c, op, r.value.0, r.value.1)
  {
    match op.kind
    case OperationCreate => r := ToDB(c.lib, c.s, op.data);
    case OperationUpdate => r := ToDBUpdate(c.lib, c.s, op.key, op.data);
    case OperationDelete => r := Some((Delete(c.s.tableName, c.s.primaryKey), [op.key]));
  }

  /* ---------- rows and documents ---------- */

  /** A row of key `n`: every column, each storable, the key column holding `n`. */
  ghost predicate RowGood(c: Config, n: int, row: Row) {
    && row.Keys == ColumnSet(c.s.columns)
    && (forall f :: f in row ==> Storable(c, f, row[f]))
    && c.s.primaryKey in row && row[c.s.primaryKey].Int? && row[c.s.primaryKey].n == n
  }

  /** A cached document agrees with a row on every schema column it holds. */
  predicate Agrees(c: Config, doc: Doc, row: Row) {
    forall f :: f in doc && f in ColumnSet(c.s.columns) ==> f in row && doc[f] == Encode(c.lib, row[f])
  }

  /** The record `scanRow` builds from a row. */
  function ScanRow(row: Row): Record {
    map f | f in row :: Scan(row[f])
  }

  lemma ConvertedIsStorable(c: Config, name: string, v: Value)
    requires GoodConfig(c) && Faithful(c.lib, c.s, name, v)
    ensures Storable(c, name, Converted(c.lib, c.s, name, v).value)
  {
    if !v.Nil? {
      ConvertIdempotent(c.lib, v, KindOf(TypeOf(c.s, name)));
      ConvertedWellTyped(c.lib, v, KindOf(TypeOf(c.s, name)));
    }
  }

  /** Applying an admissible operation to a good row, or to none, leaves a good row or none. */
  lemma RowApplyGood(c: Config, n: int, op: WriteOp, row: Option<Row>)
    requires GoodConfig(c) && OpOk(c, n, op)
    requires row.Some? ==> RowGood(c, n, row.value)
    ensures RowApply(c, op, row).Some? ==> RowGood(c, n, RowApply(c, op, row).value)
  {
    if op.kind == OperationCreate && row.None? {
      CreateGood(c, n, op);
    } else if op.kind == OperationUpdate && row.Some? {
      UpdateGood(c, n, op.data.value, row.value);
    }
  }

  lemma CreateGood(c: Config, n: int, op: WriteOp)
    requires GoodConfig(c) && OpOk(c, n, op) && op.kind == OperationCreate
    ensures RowGood(c, n, RowOf(c.lib, c.s, op.data.value))
    ensures Agrees(c, KvDoc(c.lib, c.s, op.data.value), RowOf(c.lib, c.s, op.data.value))
  {
    var rec := op.data.value;
    InColumnSet(c.s.columns, c.s.primaryKey);
    forall f | f in ColumnSet(c.s.columns)
      ensures Storable(c, f, RowOf(c.lib, c.s, rec)[f])
    {
      if f in rec {
        ConvertedIsStorable(c, f, rec[f]);
      } else {
        InColumnSet(c.s.columns, f);
      }
    }
  }

  lemma OverrideGood(c: Config, n: int, row: Row, over: Row)
    requires RowGood(c, n, row)
    requires over.Keys <= row.Keys && c.s.primaryKey !in over
    requires forall f :: f in over ==> Storable(c, f, over[f])
    ensures RowGood(c, n, row + over)
  {
    assert (row + over).Keys == row.Keys;
    forall f | f in row + over ensures Storable(c, f, (row + over)[f]) {
      assert (row + over)[f] == if f in over then over[f] else row[f];
    }
  }

  lemma UpdateGood(c: Config, n: int, updates: Record, row: Row)
    requires GoodConfig(c) && AllFaithful(c, updates) && OnColumns(c.s, updates) && RowGood(c, n, row)
    ensures RowGood(c, n, row + UpdateRow(c.lib, c.s, updates))
  {
    var over := UpdateRow(c.lib, c.s, updates);
    forall f | f in over ensures Storable(c, f, over[f]) {
      ConvertedIsStorable(c, f, updates[f]);
    }
    OverrideGood(c, n, row, over);
  }

  /** A field read back from a cached document is the stored value itself. */
  lemma CachedFieldReads(c: Config, name: string, v: Value)
    requires GoodConfig(c) && Storable(c, name, v)
    ensures ReadField(c.lib, c.s, name, Encode(c.lib, v)) == Some(v)
  {
    ReadBack(c.lib, v, TypeOf(c.s, name));
  }

  /** A record that holds, for each schema column, the row's value or something that
      converts to it. */
  ghost predicate Mirrors(c: Config, n: int, rec: Record, row: Row) {
    && (forall f :: f in rec && f in ColumnSet(c.s.columns) ==>
          f in row && Converted(c.lib, c.s, f, rec[f]) == Some(row[f]))
    && c.s.primaryKey in rec && rec[c.s.primaryKey].Int? && rec[c.s.primaryKey].n == n
  }

  /** Reading a cached document that agrees with a row gives a record that mirrors it. */
  lemma HitMirrors(c: Config, n: int, doc: Doc, row: Row)
    requires GoodConfig(c) && RowGood(c, n, row) && Agrees(c, doc, row)
    requires c.s.primaryKey in doc && KvReadable(c.lib, c.s, doc)
    ensures Mirrors(c, n, KvRecord(c.lib, c.s, doc), row)
  {
    InColumnSet(c.s.columns, c.s.primaryKey);
    forall f | f in doc && f in ColumnSet(c.s.columns)
      ensures ReadField(c.lib, c.s, f, doc[f]) == Some(row[f])
    {
      CachedFieldReads(c, f, row[f]);
    }
  }

  /** Scanning a database row gives a record that mirrors it. */
  lemma ScanMirrors(c: Config, n: int, row: Row)
    requires GoodConfig(c) && RowGood(c, n, row)
    ensures Mirrors(c, n, ScanRow(row), row)
  {
    forall f | f in row
      ensures Converted(c.lib, c.s, f, Scan(row[f])) == Some(row[f])
    {
      ScanConverts(c.lib, row[f], TypeOf(c.s, f));
    }
  }

  /** Caching a record that mirrors a row gives a document that agrees with it. */
  lemma MirrorAgrees(c: Config, n: int, rec: Record, row: Row)
    requires GoodConfig(c) && Mirrors(c, n, rec, row) && KvAccepts(c.lib, c.s, rec)
    ensures Agrees(c, KvDoc(c.lib, c.s, rec), row)
    ensures CacheKey(c.lib, c.s, rec[c.s.primaryKey]) == DataKey(c, n)
  {
  }

  /** The key a table's record for `n` is cached under. */
  function DataKey(c: Config, n: int): string { StoreKeys.KvKey(c.s.tableName, Dec(n)) }

  /** Merging an update into a mirror of a row gives a mirror of the updated row. */
  lemma MergeMirrors(c: Config, n: int, op: WriteOp, rec: Record, row: Row)
    requires GoodConfig(c) && Mirrors(c, n, rec, row)
    requires op.kind == OperationUpdate && op.data.Some?
    requires AllFaithful(c, op.data.value) && OnColumns(c.s, op.data.value)
    ensures Mirrors(c, n, rec + op.data.value, row + UpdateRow(c.lib, c.s, op.data.value))
  {
  }
}
