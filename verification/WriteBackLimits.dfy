/** Beyond the write-back invariant: what rows and documents look like in every run, and exactly
    how far the assumptions on misses, fills and shared reads are needed, with runs that go
    wrong without them. */
module WriteBackLimits {
  import opened GoText
  import opened Mapper
  import opened Validator
  import opened Sql
  import opened Translator
  import opened WriteOps
  import opened WriteBack

  /* ---------- whole rows and full documents ---------- */

  ghost predicate Whole(c: Config, n: int, row: Row) { RowGood(c, n, row) && NotNull(c.s, row) }

  /** A document holds every column that may not be null, and its other fields are text. */
  ghost predicate Full(c: Config, doc: Doc) {
    && (forall i :: 0 <= i < |c.s.columns| && !c.s.columns[i].nullable ==> c.s.columns[i].name in doc)
    && forall f :: f in doc && f !in ColumnSet(c.s.columns) ==> ConvertToDB(c.lib, Decode(doc[f]), "").Some?
  }

  ghost predicate RowsTidy(c: Config, s: State) {
    && (forall n :: Lookup(s.db, n).Some? ==> Whole(c, n, Lookup(s.db, n).value))
    && (forall n :: n in s.table ==> NotNull(c.s, s.table[n]))
    && (forall i :: i in s.fills ==> Whole(c, s.fills[i].n, s.fills[i].row))
  }

  ghost predicate DocsTidy(c: Config, s: State) {
    && (forall k :: k in s.kv && s.kv[k].content.Cached? ==> Full(c, s.kv[k].content.doc))
    && (forall n :: n in s.flights && s.flights[n].op.kind != OperationDelete ==> Full(c, s.flights[n].doc))
  }

  ghost predicate Tidy(c: Config, s: State) { RowsTidy(c, s) && DocsTidy(c, s) }

  lemma AcceptedFull(c: Config, rec: Record)
    requires KvAccepts(c.lib, c.s, rec)
    ensures Full(c, KvDoc(c.lib, c.s, rec))
  {
    hide ConvertToDB, Encode, Decode;
    forall i | 0 <= i < |c.s.columns| && !c.s.columns[i].nullable ensures c.s.columns[i].name in rec {
      assert HoldsColumn(c.lib, c.s.columns[i], rec);
    }
    forall f | f in rec && f !in ColumnSet(c.s.columns)
      ensures ConvertToDB(c.lib, Decode(KvDoc(c.lib, c.s, rec)[f]), "").Some?
    {
      InColumnSet(c.s.columns, f);
      OtherFieldConverts(c.lib, rec[f]);
    }
  }

  /** A field without a column is cached as text, which converts again. */
  lemma OtherFieldConverts(lib: Lib, v: Value)
    requires ConvertToDB(lib, v, "").Some?
    ensures ConvertToDB(lib, Decode(Encode(lib, ConvertToDB(lib, v, "").value)), "").Some?
  {
    hide KindOf;
    NoType();
  }

  /** A prepared write with a full document, and possibly a fill of a whole row. */
  lemma PreparedTidy(c: Config, s: State, s': State, n: int, f: Flight)
    requires Tidy(c, s) && s'.kv == s.kv && s'.db == s.db && s'.table == s.table && s'.flights == s.flights[n := f]
    requires f.op.kind != OperationDelete ==> Full(c, f.doc)
    requires forall i :: i in s'.fills ==>
      (i in s.fills && s'.fills[i] == s.fills[i]) || Whole(c, s'.fills[i].n, s'.fills[i].row)
    ensures Tidy(c, s')
  {
    hide Full, Whole, NotNull;
  }

  lemma BeginsTidy(c: Config, s: State, s': State, step: Step)
    requires Tidy(c, s) && Begins(c, s, s', step)
    ensures Tidy(c, s')
  {
    hide Full, Whole, ValidRecord, AllConvert, KvDoc, CacheKey, View, KeyOk, GoodUpdates, AllFaithful, Settled, DataKey,
      ScanRow, NotNull, DocsTidy;
    match step
    case BeginCreate(n, rec) => AcceptedFull(c, rec); PreparedTidy(c, s, s', n, s'.flights[n]);
    case BeginUpdateHit(n, key, updates) =>
      AcceptedFull(c, KvRecord(c.lib, c.s, s.kv[DataKey(c, n)].content.doc) + updates);
      PreparedTidy(c, s, s', n, s'.flights[n]);
    case BeginUpdateMiss(n, key, updates, fill) =>
      AcceptedFull(c, ScanRow(Lookup(s.db, n).value) + updates);
      PreparedTidy(c, s, s', n, s'.flights[n]);
    case BeginDelete(n, key) => PreparedTidy(c, s, s', n, s'.flights[n]);
  }

  lemma ApplyNotNull(c: Config, n: int, op: WriteOp, row: Option<Row>)
    requires GoodConfig(c) && OpOk(c, n, op) && (row.Some? ==> NotNull(c.s, row.value))
    ensures Apply(c, op, row).Some? ==> NotNull(c.s, Apply(c, op, row).value)
  {
    hide NotNull;
    OpOkApplicable(c, n, op);
    if op.kind == OperationCreate && row.None? {
      RowNotNull(c.lib, c.s, op.data.value);
    } else if op.kind == OperationUpdate && row.Some? {
      UpdateNotNull(c.lib, c.s, op.data.value, row.value);
    }
  }

  lemma StoreTidy(c: Config, s: State, s': State, n: int)
    requires GoodConfig(c) && Inv(c, s) && Tidy(c, s) && Proceeds(c, s, s', Store(n))
    ensures Tidy(c, s')
  {
    hide GoodConfig, Inv, Full, Whole, NotNull, Apply, Expiry;
    StoredNotNull(c, s, n);
  }

  lemma StoredNotNull(c: Config, s: State, n: int)
    requires GoodConfig(c) && Inv(c, s) && RowsTidy(c, s) && n in s.flights
    ensures var row := Apply(c, s.flights[n].op, TableRow(s.table, n)); row.Some? ==> NotNull(c.s, row.value)
  {
    hide GoodConfig, Inv, Whole, NotNull, Apply, View, OpOk, Stands;
    FlightAt(c, s, n);
    ApplyNotNull(c, n, s.flights[n].op, TableRow(s.table, n));
  }

  lemma ProceedsTidy(c: Config, s: State, s': State, step: Step)
    requires GoodConfig(c) && Inv(c, s) && Tidy(c, s) && Proceeds(c, s, s', step)
    ensures Tidy(c, s')
  {
    hide GoodConfig, Inv, Full, Whole, NotNull, Apply, View, EntryKey, StampKey, WalOf, Render;
    if step.Store? { StoreTidy(c, s, s', step.n); }
  }

  lemma ExecuteTidy(c: Config, s: State, s': State, stmt: Stmt, args: seq<Value>)
    requires GoodConfig(c) && Inv(c, s) && Tidy(c, s) && Serves(c, s, s', Execute(stmt, args))
    ensures forall n :: Lookup(s'.db, n).Some? ==> Whole(c, n, Lookup(s'.db, n).value)
  {
    hide GoodConfig, Inv, OpOk, RowGood, NotNull, RowApply, Translates, After, DocsTidy;
    var op := s.hand.value;
    HandOk(c, s);
    InvParts(c, s);
    ExecuteMeaning(c, op.key.n, op, stmt, args, s.db);
    forall n | Lookup(s'.db, n).Some? ensures Whole(c, n, Lookup(s'.db, n).value) {
      if n == op.key.n { RowApplyGood(c, n, op, Lookup(s.db, n)); }
      InTable(c, s'.db, n);
    }
  }

  lemma InTable(c: Config, db: Db, n: int)
    requires RowsNotNull(c.s, db) && Lookup(db, n).Some?
    ensures NotNull(c.s, Lookup(db, n).value)
  {
  }

  lemma ServesTidy(c: Config, s: State, s': State, step: Step)
    requires GoodConfig(c) && Inv(c, s) && Tidy(c, s) && Serves(c, s, s', step)
    ensures Tidy(c, s')
  {
    hide GoodConfig, Inv, Full, Whole, NotNull, KvAccepts, KvDoc, CacheKey, Translates, After, Settled, ScanRow;
    match step
    case Execute(stmt, args) => ExecuteTidy(c, s, s', stmt, args);
    case LandFill(fill) => AcceptedFull(c, ScanRow(s.fills[fill].row));
    case _ =>
  }

  /** In every run, database rows, fills and table rows are whole, and cached documents full. */
  lemma {:induction false} TidyHolds(c: Config, states: seq<State>, steps: seq<Step>, i: nat)
    requires GoodConfig(c) && Run(c, states, steps) && i < |states|
    ensures Tidy(c, states[i])
  {
    hide GoodConfig, Inv, Begins, Proceeds, Serves, Tidy, Init;
    if i == 0 {
      InitTidy(c, states[0]);
    } else {
      TidyHolds(c, states, steps, i - 1);
      InvariantHolds(c, states, steps, i - 1);
      var s, s', step := states[i-1], states[i], steps[i-1];
      assert Next(c, s, s', step);
      if Begins(c, s, s', step) {
        BeginsTidy(c, s, s', step);
      } else if Proceeds(c, s, s', step) {
        ProceedsTidy(c, s, s', step);
      } else {
        ServesTidy(c, s, s', step);
      }
    }
  }

  lemma InitTidy(c: Config, s: State)
    requires Init(c, s)
    ensures Tidy(c, s)
  {
    hide RowGood, NotNull;
    forall n | Lookup(s.db, n).Some? ensures Whole(c, n, Lookup(s.db, n).value) { InTable(c, s.db, n); }
    forall n | n in s.table ensures NotNull(c.s, s.table[n]) {
      assert TableRow(s.table, n) == Lookup(s.db, n);
    }
  }

  /* ---------- reading and merging ---------- */

  /** A live cached record is readable, and reads as the table's row. */
  lemma HitReadable(c: Config, s: State, n: int)
    requires GoodConfig(c) && Inv(c, s) && DataKey(c, n) in s.kv
    ensures s.kv[DataKey(c, n)].content.Cached? && TableRow(s.table, n).Some?
    ensures var doc := s.kv[DataKey(c, n)].content.doc;
      KvReadable(c.lib, c.s, doc) && Mirrors(c, n, KvRecord(c.lib, c.s, doc), s.table[n])
  {
    hide Inv, View, GoodConfig, Storable, ReadField, Mirrors, KvRecord;
    RowAt(c, s, n);
    DataCell(c, s, n);
    var doc := s.kv[DataKey(c, n)].content.doc;
    forall f | f in doc ensures ReadField(c.lib, c.s, f, doc[f]).Some? {
      if f in ColumnSet(c.s.columns) {
        CachedFieldReads(c, f, s.table[n][f]);
      } else {
        OtherFieldReads(c, f, doc[f]);
      }
    }
    HitMirrors(c, n, doc, s.table[n]);
  }

  /** A field without a column is returned as it was decoded. */
  lemma OtherFieldReads(c: Config, f: string, j: Json)
    requires f !in ColumnSet(c.s.columns)
    ensures ReadField(c.lib, c.s, f, j) == Some(Decode(j))
  {
    hide Convert, KindOf;
    NoType();
    InColumnSet(c.s.columns, f);
  }

  /** A record with every column that may not be null, whose other fields convert. */
  ghost predicate Complete(c: Config, rec: Record) {
    && (forall i :: 0 <= i < |c.s.columns| && !c.s.columns[i].nullable ==> c.s.columns[i].name in rec)
    && forall f :: f in rec && f !in ColumnSet(c.s.columns) ==> Converted(c.lib, c.s, f, rec[f]).Some?
  }

  lemma HitComplete(c: Config, doc: Doc)
    requires Full(c, doc) && KvReadable(c.lib, c.s, doc)
    ensures Complete(c, KvRecord(c.lib, c.s, doc))
  {
    hide ConvertToDB, ReadField, Decode;
    forall f | f in doc && f !in ColumnSet(c.s.columns)
      ensures Converted(c.lib, c.s, f, KvRecord(c.lib, c.s, doc)[f]).Some?
    {
      InColumnSet(c.s.columns, f);
      OtherFieldReads(c, f, doc[f]);
    }
  }

  lemma ScanComplete(c: Config, n: int, row: Row)
    requires RowGood(c, n, row)
    ensures Complete(c, ScanRow(row))
  {
    hide ConvertToDB, Storable;
  }

  /** What `Update` merges is accepted exactly when the updates suit their columns, whichever
      mirror of the row it read. */
  lemma MergedAccepted(c: Config, n: int, rec: Record, row: Row, updates: Record)
    requires GoodConfig(c) && Mirrors(c, n, rec, row) && Whole(c, n, row) && Complete(c, rec) && GoodUpdates(c, updates)
    ensures KvAccepts(c.lib, c.s, rec + updates) <==> ValidPartial(c.lib, c.s, updates)
  {
    hide GoodConfig, Mirrors, Whole, Complete, GoodUpdates, ValidRecord, AllConvert, ValidPartial;
    MergedHasKey(c, n, rec, row, updates);
    if ValidPartial(c.lib, c.s, updates) {
      MergedValid(c, n, rec, row, updates);
      MergedConverts(c, n, rec, row, updates);
    }
    if KvAccepts(c.lib, c.s, rec + updates) { UpdatesSuit(c, rec, updates); }
  }

  lemma MergedHasKey(c: Config, n: int, rec: Record, row: Row, updates: Record)
    requires Mirrors(c, n, rec, row)
    ensures c.s.primaryKey in rec + updates
  {
  }

  lemma UpdatesSuit(c: Config, rec: Record, updates: Record)
    requires ValidRecord(c.lib, c.s, rec + updates) && GoodUpdates(c, updates)
    ensures ValidPartial(c.lib, c.s, updates)
  {
    hide FieldSuits, ValidRecord, AllFaithful;
    forall f | f in updates ensures FieldSuits(c.lib, c.s, f, updates[f]) {
      InColumnSet(c.s.columns, f);
      ValidRecordAt(c.lib, c.s, rec + updates, f);
    }
  }

  lemma MergedConverts(c: Config, n: int, rec: Record, row: Row, updates: Record)
    requires Mirrors(c, n, rec, row) && Complete(c, rec) && GoodUpdates(c, updates)
    ensures AllConvert(c.lib, c.s, rec + updates)
  {
    hide ConvertToDB, WellTyped, Within53, KindOf;
    forall f | f in rec + updates ensures Converted(c.lib, c.s, f, (rec + updates)[f]).Some? {
      assert (rec + updates)[f] == if f in updates then updates[f] else rec[f];
    }
  }

  lemma MergedValid(c: Config, n: int, rec: Record, row: Row, updates: Record)
    requires GoodConfig(c) && Mirrors(c, n, rec, row) && Whole(c, n, row) && Complete(c, rec) && GoodUpdates(c, updates)
    requires ValidPartial(c.lib, c.s, updates)
    ensures ValidRecord(c.lib, c.s, rec + updates)
  {
    hide GoodConfig, Mirrors, Whole, Complete, GoodUpdates, HoldsColumn, ValidPartial;
    MergedHasKey(c, n, rec, row, updates);
    forall i | 0 <= i < |c.s.columns| ensures HoldsColumn(c.lib, c.s.columns[i], rec + updates) {
      MergedSuits(c, n, rec, row, updates, i);
    }
  }

  lemma MergedSuits(c: Config, n: int, rec: Record, row: Row, updates: Record, i: nat)
    requires GoodConfig(c) && Mirrors(c, n, rec, row) && Whole(c, n, row) && Complete(c, rec) && GoodUpdates(c, updates)
    requires ValidPartial(c.lib, c.s, updates) && i < |c.s.columns|
    ensures HoldsColumn(c.lib, c.s.columns[i], rec + updates)
  {
    hide ConvertToDB, GoodConfig, GoodUpdates, Mirrors, Whole;
    var f := c.s.columns[i].name;
    ColumnAt(c, i);
    if f in updates {
      assert FieldSuits(c.lib, c.s, f, updates[f]);
    } else if f in rec {
      HeldSuits(c, n, rec, row, i);
    }
  }

  lemma ColumnAt(c: Config, i: nat)
    requires GoodConfig(c) && i < |c.s.columns|
    ensures FindColumn(c.s.columns, c.s.columns[i].name) == Some(c.s.columns[i])
    ensures c.s.columns[i].name in ColumnSet(c.s.columns)
  {
    FindColumnAt(c.s.columns, i);
  }

  lemma HeldSuits(c: Config, n: int, rec: Record, row: Row, i: nat)
    requires GoodConfig(c) && Mirrors(c, n, rec, row) && Whole(c, n, row) && i < |c.s.columns|
    requires c.s.columns[i].name in rec
    ensures Suits(c.lib, c.s.columns[i], rec[c.s.columns[i].name])
  {
    hide Convert, KindOf, Storable, GoodConfig;
    ColumnAt(c, i);
  }

  /* ---------- exactly when what is cached agrees ---------- */

  /** A whole row, scanned, is accepted by `ToKV`. */
  lemma ScannedAccepted(c: Config, n: int, row: Row)
    requires GoodConfig(c) && Whole(c, n, row)
    ensures KvAccepts(c.lib, c.s, ScanRow(row)) && Mirrors(c, n, ScanRow(row), row)
  {
    hide ConvertToDB, Storable, Scan;
    ScanMirrors(c, n, row);
    forall i | 0 <= i < |c.s.columns| ensures HoldsColumn(c.lib, c.s.columns[i], ScanRow(row)) {
      ScannedSuits(c, n, row, i);
    }
  }

  lemma ScannedSuits(c: Config, n: int, row: Row, i: nat)
    requires GoodConfig(c) && Whole(c, n, row) && i < |c.s.columns| && Mirrors(c, n, ScanRow(row), row)
    ensures HoldsColumn(c.lib, c.s.columns[i], ScanRow(row))
  {
    hide Convert, KindOf, Storable;
    var f := c.s.columns[i].name;
    FindColumnAt(c.s.columns, i);
    assert f in ColumnSet(c.s.columns);
    ScanNil(row[f]);
  }

  lemma ScanNil(v: Value)
    ensures Scan(v).Nil? <==> v.Nil?
  {
  }

  /** Two rows that one document agrees with, column for column, are one row. */
  lemma AgreedRowsEqual(c: Config, n: int, doc: Doc, a: Row, b: Row)
    requires GoodConfig(c) && RowGood(c, n, a) && RowGood(c, n, b)
    requires ColumnSet(c.s.columns) <= doc.Keys && Agrees(c, doc, a) && Agrees(c, doc, b)
    ensures a == b
  {
    hide GoodConfig, Storable, ReadField, Encode;
    forall f | f in a ensures a[f] == b[f] {
      CachedFieldReads(c, f, a[f]);
      CachedFieldReads(c, f, b[f]);
    }
  }

  /** Caching a complete record that mirrors row `r` keeps the cache in agreement exactly when
      the key's row is `r`. */
  lemma CachingExact(c: Config, s: State, n: int, rec: Record, r: Row)
    requires GoodConfig(c) && RowGood(c, n, r) && KvAccepts(c.lib, c.s, rec) && Mirrors(c, n, rec, r)
    requires ColumnSet(c.s.columns) <= rec.Keys
    requires DataKey(c, n) in s.kv && s.kv[DataKey(c, n)].content == Cached(KvDoc(c.lib, c.s, rec))
    requires View(c, s, n).Some? ==> RowGood(c, n, View(c, s, n).value)
    requires forall m :: m != n && DataKey(c, m) in s.kv ==> CellOk(c, s.kv[DataKey(c, m)], View(c, s, m))
    ensures CacheOk(c, s) <==> View(c, s, n) == Some(r)
  {
    hide GoodConfig, RowGood, Agrees, View, DataKey, ValidRecord, AllConvert, Mirrors;
    var doc := KvDoc(c.lib, c.s, rec);
    MirrorAgrees(c, n, rec, r);
    PrimaryHeld(c, n, rec, r);
    if CacheOk(c, s) {
      assert CellOk(c, s.kv[DataKey(c, n)], View(c, s, n));
      AgreedRowsEqual(c, n, doc, View(c, s, n).value, r);
    }
  }

  lemma PrimaryHeld(c: Config, n: int, rec: Record, r: Row)
    requires Mirrors(c, n, rec, r)
    ensures c.s.primaryKey in rec
  {
  }

  /** Caching a scanned row over a state of the protocol. */
  lemma LandsExact(c: Config, s: State, s': State, n: int, row: Row, cell: Cell)
    requires GoodConfig(c) && Inv(c, s) && Whole(c, n, row)
    requires KvAccepts(c.lib, c.s, ScanRow(row)) && cell.content == Cached(KvDoc(c.lib, c.s, ScanRow(row)))
    requires s'.kv == s.kv[CacheKey(c.lib, c.s, ScanRow(row)[c.s.primaryKey]) := cell]
    requires s'.db == s.db && s'.queue == s.queue && s'.hand == s.hand && s'.flights == s.flights
    ensures CacheOk(c, s') <==> TableRow(s.table, n) == Some(row)
  {
    hide GoodConfig, Inv, RowGood, View, DataKey, KvAccepts, Mirrors, NotNull, CellOk, Agrees;
    ScannedAccepted(c, n, row);
    MirrorAgrees(c, n, ScanRow(row), row);
    ScanHolds(c, n, row);
    KeysApart(c);
    SameView(c, s, s');
    RowAt(c, s, n);
    forall m | m != n && DataKey(c, m) in s'.kv ensures CellOk(c, s'.kv[DataKey(c, m)], View(c, s', m)) {
      DataCell(c, s, m);
    }
    CachingExact(c, s', n, ScanRow(row), row);
  }

  lemma ScanHolds(c: Config, n: int, row: Row)
    requires RowGood(c, n, row)
    ensures ScanRow(row).Keys == ColumnSet(c.s.columns)
  {
  }

  /** A fill that lands as the source lands it, at any point of any run, keeps the cache in
      agreement if and only if the table's row is still the one that was read. */
  lemma LandingExact(c: Config, states: seq<State>, steps: seq<Step>, i: nat, fill: nat, s': State)
    requires GoodConfig(c) && Run(c, states, steps) && i < |states| && Lands(c, states[i], s', fill)
    ensures var f := states[i].fills[fill]; CacheOk(c, s') <==> TableRow(states[i].table, f.n) == Some(f.row)
  {
    hide GoodConfig, Run, Inv, RowGood, NotNull, ValidRecord, AllConvert, ScanRow, CacheKey, KvDoc, CacheOk, DocsTidy;
    var s := states[i];
    InvariantHolds(c, states, steps, i);
    TidyHolds(c, states, steps, i);
    var f := s.fills[fill];
    LandsExact(c, s, s', f.n, f.row, Cell(Cached(KvDoc(c.lib, c.s, ScanRow(f.row))), Expiry(s.now, c.ttl)));
  }

  /** A miss read as the source reads it, at any point of any run, and then cached, keeps the
      cache in agreement if and only if replaying what is pending on the key leaves the
      database's row as it is. */
  lemma MissExact(c: Config, states: seq<State>, steps: seq<Step>, i: nat, n: int, fill: nat, s1: State, s2: State)
    requires GoodConfig(c) && Run(c, states, steps) && i < |states|
    requires Misses(states[i], s1, n, fill) && Lands(c, s1, s2, fill)
    ensures CacheOk(c, s2) <==> View(c, states[i], n) == Lookup(states[i].db, n)
  {
    hide GoodConfig, Run, Inv, RowGood, NotNull, ValidRecord, AllConvert, ScanRow, CacheKey, KvDoc, CacheOk,
      DocsTidy, View;
    var s := states[i];
    InvariantHolds(c, states, steps, i);
    TidyHolds(c, states, steps, i);
    var row := Lookup(s.db, n).value;
    RowAt(c, s, n);
    LandsExact(c, s, s2, n, row, Cell(Cached(KvDoc(c.lib, c.s, ScanRow(row))), Expiry(s.now, c.ttl)));
  }

  /** An update that shares a leader's read: it merges the record the leader fetched earlier. */
  ghost predicate Follows(c: Config, s: State, s': State, n: int, key: Value, updates: Record, rec: Record) {
    && n !in s.flights && KeyOk(c, n, key) && GoodUpdates(c, updates) && KvAccepts(c.lib, c.s, rec + updates)
    && s' == s.(flights := s.flights[n := Fly(UpdateOp(c, key, updates), c, rec + updates)])
  }

  /** Its cache write keeps the agreement if and only if the table's row and the row that was
      fetched, both updated, are one row. */
  lemma FollowerUpdateExact(c: Config, s: State, s1: State, s2: State,
                            n: int, key: Value, updates: Record, rec: Record, r: Row)
    requires GoodConfig(c) && Inv(c, s)
    requires RowGood(c, n, r) && Mirrors(c, n, rec, r) && ColumnSet(c.s.columns) <= rec.Keys
    requires Follows(c, s, s1, n, key, updates, rec) && Proceeds(c, s1, s2, Store(n))
    ensures OnColumns(c.s, updates) && AllConvert(c.lib, c.s, updates)
    ensures CacheOk(c, s2) <==>
      Apply(c, UpdateOp(c, key, updates), TableRow(s.table, n)) == Some(r + UpdateRow(c.lib, c.s, updates))
  {
    hide GoodConfig, Inv, RowGood, Mirrors, View, ValidRecord, AllConvert, CellOk, Apply, KeyOk, GoodUpdates, DataKey,
      Expiry, OpOk, CacheKey, KvDoc, CacheOk;
    var op := UpdateOp(c, key, updates);
    UpdatesConvert(c, updates);
    FollowerMerged(c, n, key, updates, rec, r);
    FollowerViews(c, s, s1, s2, n);
    RowAt(c, s, n);
    AppliedGood(c, n, op, View(c, s, n));
    KeysApart(c);
    forall m | m != n && DataKey(c, m) in s2.kv ensures CellOk(c, s2.kv[DataKey(c, m)], View(c, s2, m)) {
      DataCell(c, s, m);
    }
    CachingExact(c, s2, n, rec + updates, r + UpdateRow(c.lib, c.s, updates));
  }

  lemma FollowerMerged(c: Config, n: int, key: Value, updates: Record, rec: Record, r: Row)
    requires GoodConfig(c) && RowGood(c, n, r) && Mirrors(c, n, rec, r) && KeyOk(c, n, key) && GoodUpdates(c, updates)
    requires KvAccepts(c.lib, c.s, rec + updates)
    ensures OpOk(c, n, UpdateOp(c, key, updates)) && OnColumns(c.s, updates) && AllConvert(c.lib, c.s, updates)
    ensures var r' := r + UpdateRow(c.lib, c.s, updates); RowGood(c, n, r') && Mirrors(c, n, rec + updates, r')
    ensures CacheKey(c.lib, c.s, (rec + updates)[c.s.primaryKey]) == DataKey(c, n)
  {
    hide GoodConfig, RowGood, Mirrors, ValidRecord, AllConvert, KeyOk, CacheKey, DataKey, OpOk;
    UpdatesConvert(c, updates);
    UpdateOpOk(c, n, key, updates, rec);
    MergeMirrors(c, n, UpdateOp(c, key, updates), rec, r);
    UpdateGood(c, n, updates, r);
    MirrorAgrees(c, n, rec + updates, r + UpdateRow(c.lib, c.s, updates));
  }

  lemma UpdatesConvert(c: Config, updates: Record)
    requires GoodUpdates(c, updates)
    ensures OnColumns(c.s, updates) && AllConvert(c.lib, c.s, updates) && AllFaithful(c, updates)
  {
  }

  lemma FollowerViews(c: Config, s: State, s1: State, s2: State, n: int)
    requires n !in s.flights && n in s1.flights && s1.flights[n].stage.Prepared?
    requires s1 == s.(flights := s.flights[n := s1.flights[n]]) && Proceeds(c, s1, s2, Store(n))
    ensures View(c, s2, n) == Apply(c, s1.flights[n].op, View(c, s, n))
    ensures forall m :: m != n ==> View(c, s2, m) == View(c, s, m)
  {
    hide Apply, Replay, Proceeds;
    assert Pending(s1) == Pending(s);
    SameView(c, s, s1);
    StoreView(c, s1, s2, n);
  }

  lemma AppliedGood(c: Config, n: int, op: WriteOp, row: Option<Row>)
    requires GoodConfig(c) && OpOk(c, n, op) && (row.Some? ==> RowGood(c, n, row.value))
    ensures Apply(c, op, row).Some? ==> RowGood(c, n, Apply(c, op, row).value)
  {
    hide GoodConfig, OpOk, RowGood, RowApply;
    OpOkApplicable(c, n, op);
    RowApplyGood(c, n, op, row);
  }
}
