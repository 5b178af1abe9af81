/** The schema translator: records to cache documents and back, records and updates to
    SQL, and the meaning each translation preserves. */
module Translator {
  import opened GoText
  import opened Mapper
  import opened Validator
  import opened Sql
  import StoreKeys

  type Doc = map<string, Json>

  /** The type a field is converted with; fields outside the schema have none. */
  function TypeOf(s: Schema, name: string): string {
    var col := FindColumn(s.columns, name);
    if col.Some? then col.value.dbType else ""
  }

  function Converted(lib: Lib, s: Schema, name: string, v: Value): Option<Value> {
    ConvertToDB(lib, v, TypeOf(s, name))
  }

  /* ---------- records and cache documents ---------- */

  predicate AllConvert(lib: Lib, s: Schema, rec: Record) {
    forall c :: c in rec ==> Converted(lib, s, c, rec[c]).Some?
  }

  /** The document a convertible record is cached as. */
  function KvDoc(lib: Lib, s: Schema, rec: Record): Doc
    requires AllConvert(lib, s, rec)
  {
    map c | c in rec :: Encode(lib, Converted(lib, s, c, rec[c]).value)
  }

  /** `ToKV` accepts exactly these. */
  predicate KvAccepts(lib: Lib, s: Schema, rec: Record) {
    ValidRecord(lib, s, rec) && s.primaryKey in rec && AllConvert(lib, s, rec)
  }

  function CacheKey(lib: Lib, s: Schema, key: Value): string {
    StoreKeys.KvKey(s.tableName, Render(lib, key))
  }

  method ToKV(lib: Lib, s: Schema, rec: Option<Record>) returns (r: Option<(string, Doc)>)
    ensures r.Some? <==> rec.Some? && KvAccepts(lib, s, rec.value)
    ensures r.Some? ==> r.value == (CacheKey(lib, s, rec.value[s.primaryKey]), KvDoc(lib, s, rec.value))
  {
    hide Convert, KindOf, Render, ValidRecord;
    if rec.None? { return None; }
    var record := rec.value;
    var valid := ValidateRecord(lib, s, rec);
    if !valid || s.primaryKey !in record { return None; }
    var key := CacheKey(lib, s, record[s.primaryKey]);
    var doc: Doc := map[];
    var rest := record.Keys;
    while rest != {}
      invariant rest <= record.Keys && doc.Keys == record.Keys - rest
      invariant forall c :: c in doc ==> Converted(lib, s, c, record[c]).Some?
      invariant forall c :: c in doc ==> doc[c] == Encode(lib, Converted(lib, s, c, record[c]).value)
      decreases |rest|
    {
      var colName :| colName in rest;
      rest := rest - {colName};
      var col := SearchColumn(s.columns, colName);
      var dbType := if col.Some? then col.value.dbType else "";
      if !record[colName].Nil? {
        var converted := ConvertToDB(lib, record[colName], dbType);
        if converted.None? { return None; }
        doc := doc[colName := Encode(lib, converted.value)];
      } else {
        doc := doc[colName := JNull];
      }
    }
    assert doc == KvDoc(lib, s, record);
    return Some((key, doc));
  }

  function ReadField(lib: Lib, s: Schema, name: string, j: Json): Option<Value> {
    ConvertFromDB(lib, Decode(j), TypeOf(s, name))
  }

  /** `FromKV` accepts exactly these; its own validation result is ignored. */
  predicate KvReadable(lib: Lib, s: Schema, doc: Doc) {
    forall c :: c in doc ==> ReadField(lib, s, c, doc[c]).Some?
  }

  function KvRecord(lib: Lib, s: Schema, doc: Doc): Record
    requires KvReadable(lib, s, doc)
  {
    map c | c in doc :: ReadField(lib, s, c, doc[c]).value
  }

  method FromKV(lib: Lib, s: Schema, doc: Doc) returns (r: Option<Record>)
    ensures r.Some? <==> KvReadable(lib, s, doc)
    ensures r.Some? ==> r.value == KvRecord(lib, s, doc)
  {
    var record: Record := map[];
    var rest := doc.Keys;
    while rest != {}
      invariant rest <= doc.Keys && record.Keys == doc.Keys - rest
      invariant forall c :: c in record ==> ReadField(lib, s, c, doc[c]) == Some(record[c])
      decreases |rest|
    {
      var colName :| colName in rest;
      rest := rest - {colName};
      var col := SearchColumn(s.columns, colName);
      var dbType := if col.Some? then col.value.dbType else "";
      var value := Decode(doc[colName]);
      if !value.Nil? {
        var converted := ConvertFromDB(lib, value, dbType);
        if converted.None? { return None; }
        record := record[colName := converted.value];
      } else {
        record := record[colName := Nil];
      }
    }
    assert record == KvRecord(lib, s, doc);
    return Some(record);
  }

  /** Fields the cache keeps exactly: no binary column, converted integers within 2^53. */
  predicate Faithful(lib: Lib, s: Schema, name: string, v: Value) {
    && WellTyped(lib, v)
    && KindOf(TypeOf(s, name)) != BinaryKind
    && Converted(lib, s, name, v).Some?
    && Within53(Converted(lib, s, name, v).value)
  }

  /** KV round trip of a whole record: it is readable again, gives the same document, and is
      found under the same key exactly when its key renders as its converted form does. */
  lemma KvRoundTrip(lib: Lib, s: Schema, rec: Record)
    requires Lawful(lib) && DistinctColumns(s) && KvAccepts(lib, s, rec)
    requires forall c :: c in rec ==> Faithful(lib, s, c, rec[c])
    ensures KvReadable(lib, s, KvDoc(lib, s, rec))
    ensures var back := KvRecord(lib, s, KvDoc(lib, s, rec));
            && KvAccepts(lib, s, back)
            && KvDoc(lib, s, back) == KvDoc(lib, s, rec)
            && (CacheKey(lib, s, back[s.primaryKey]) == CacheKey(lib, s, rec[s.primaryKey]) <==>
                Render(lib, Converted(lib, s, s.primaryKey, rec[s.primaryKey]).value) == Render(lib, rec[s.primaryKey]))
  {
    var doc := KvDoc(lib, s, rec);
    forall c | c in doc
      ensures ReadField(lib, s, c, doc[c]) == Converted(lib, s, c, rec[c])
    {
      ReadBack(lib, rec[c], TypeOf(s, c));
    }
    var back := KvRecord(lib, s, doc);
    forall c | c in back
      ensures Converted(lib, s, c, back[c]) == Converted(lib, s, c, rec[c]) && (back[c].Nil? <==> rec[c].Nil?)
    {
      if !rec[c].Nil? {
        ConvertIdempotent(lib, rec[c], KindOf(TypeOf(s, c)));
      }
    }
    forall i | 0 <= i < |s.columns|
      ensures HoldsColumn(lib, s.columns[i], back)
    {
      assert HoldsColumn(lib, s.columns[i], rec);
      FindColumnAt(s.columns, i);
    }
    assert KvDoc(lib, s, back) == doc;
    if CacheKey(lib, s, back[s.primaryKey]) == CacheKey(lib, s, rec[s.primaryKey]) {
      CancelPrefix(s.tableName + ":", Render(lib, back[s.primaryKey]), Render(lib, rec[s.primaryKey]));
    }
  }

  /* ---------- INSERT ---------- */

  /** The schema columns a record holds, in schema order. */
  function Present(cols: seq<Column>, rec: Record): (r: seq<Column>)
    ensures forall c :: c in r <==> c in cols && c.name in rec
  {
    if cols == [] then []
    else (if cols[0].name in rec then [cols[0]] else []) + Present(cols[1..], rec)
  }

  lemma {:induction false} PresentAppend(cols: seq<Column>, i: nat, rec: Record)
    requires i < |cols|
    ensures Present(cols[..i+1], rec) == Present(cols[..i], rec) + if cols[i].name in rec then [cols[i]] else []
  {
    if i == 0 {
      assert cols[..1] == [cols[0]];
    } else {
      assert cols[..i+1][1..] == cols[1..][..i] && cols[..i][1..] == cols[1..][..i-1];
      PresentAppend(cols[1..], i - 1, rec);
    }
  }

  lemma {:induction false} PresentDistinct(cols: seq<Column>, rec: Record)
    requires forall j, k :: 0 <= j < k < |cols| ==> cols[j].name != cols[k].name
    ensures forall j, k :: 0 <= j < k < |Present(cols, rec)| ==>
      Present(cols, rec)[j].name != Present(cols, rec)[k].name
  {
    if cols != [] {
      PresentDistinct(cols[1..], rec);
      assert forall c :: c in Present(cols[1..], rec) ==> c in cols[1..];
    }
  }

  /** The translation of a record into an INSERT: exactly the schema columns present, in
      schema order, one placeholder and one converted argument each. */
  predicate IsInsertOf(lib: Lib, s: Schema, rec: Record, stmt: Stmt, args: seq<Value>) {
    var cols := Present(s.columns, rec);
    stmt == Insert(s.tableName, Names(cols), |cols|) && Aligned(lib, cols, rec, args)
  }

  /** One converted argument per column. */
  predicate Aligned(lib: Lib, cols: seq<Column>, rec: Record, args: seq<Value>)
    requires forall c :: c in cols ==> c.name in rec
  {
    && |args| == |cols|
    && forall i :: 0 <= i < |cols| ==> ConvertToDB(lib, rec[cols[i].name], cols[i].dbType) == Some(args[i])
  }

  lemma AlignedAppend(lib: Lib, cols: seq<Column>, rec: Record, args: seq<Value>, col: Column, arg: Value)
    requires forall c :: c in cols ==> c.name in rec
    requires col.name in rec && Aligned(lib, cols, rec, args)
    requires ConvertToDB(lib, rec[col.name], col.dbType) == Some(arg)
    ensures forall c :: c in cols + [col] ==> c.name in rec
    ensures Aligned(lib, cols + [col], rec, args + [arg])
    ensures Names(cols + [col]) == Names(cols) + [col.name]
  {
    var all := cols + [col];
    assert forall i :: 0 <= i < |cols| ==> all[i] == cols[i];
  }

  /** `ToDB` accepts exactly the valid records with at least one schema column. */
  predicate DbAccepts(lib: Lib, s: Schema, rec: Record) {
    ValidRecord(lib, s, rec) && Present(s.columns, rec) != []
  }

  method ToDB(lib: Lib, s: Schema, rec: Option<Record>) returns (r: Option<(Stmt, seq<Value>)>)
    ensures r.Some? <==> rec.Some? && DbAccepts(lib, s, rec.value)
    ensures r.Some? ==> IsInsertOf(lib, s, rec.value, r.value.0, r.value.1)
  {
    hide Convert, KindOf;
    if rec.None? { return None; }
    var record := rec.value;
    var valid := ValidateRecord(lib, s, rec);
    if !valid { return None; }
    var columns: seq<string>, placeholders, args: seq<Value> := [], 0, [];
    for i := 0 to |s.columns|
      invariant placeholders == |columns|
      invariant columns == Names(Present(s.columns[..i], record))
      invariant Aligned(lib, Present(s.columns[..i], record), record, args)
    {
      var col := s.columns[i];
      assert HoldsColumn(lib, col, record);
      PresentAppend(s.columns, i, record);
      if col.name !in record && col.nullable { continue; }
      columns, placeholders := columns + [col.name], placeholders + 1;
      var value := record[col.name];
      var arg := Nil;
      if !value.Nil? {
        var converted := ConvertToDB(lib, value, col.dbType);
        if converted.None? { return None; }
        arg := converted.value;
      }
      AlignedAppend(lib, Present(s.columns[..i], record), record, args, col, arg);
      args := args + [arg];
    }
    assert s.columns[..|s.columns|] == s.columns;
    if columns == [] { return None; }
    return Some((Insert(s.tableName, columns, placeholders), args));
  }

  /** The row a record denotes: converted where present, defaulted where absent. */
  function RowOf(lib: Lib, s: Schema, rec: Record): Row
    requires AllConvert(lib, s, rec)
  {
    map c | c in ColumnSet(s.columns) ::
      if c in rec then Converted(lib, s, c, rec[c]).value else Fallback(s.columns, c)
  }

  lemma PresentNames(s: Schema, rec: Record)
    requires DistinctColumns(s)
    ensures var names := Names(Present(s.columns, rec));
            && Distinct(names) && Known(s, names)
            && forall c :: c in names <==> c in rec && c in ColumnSet(s.columns)
  {
    var cols := Present(s.columns, rec);
    var names := Names(cols);
    PresentDistinct(s.columns, rec);
    forall j | 0 <= j < |names|
      ensures names[j] in rec && names[j] in ColumnSet(s.columns) && FindColumn(s.columns, names[j]).Some?
    {
      assert cols[j] in cols;
      var i :| 0 <= i < |s.columns| && s.columns[i] == cols[j];
    }
    forall c | c in rec && c in ColumnSet(s.columns)
      ensures c in names
    {
      var i :| 0 <= i < |s.columns| && s.columns[i].name == c;
      assert s.columns[i] in cols;
      var j :| 0 <= j < |cols| && cols[j] == s.columns[i];
      assert names[j] == c;
    }
  }

  /** The argument that lands in a present column is its converted value. */
  lemma ArgumentOf(lib: Lib, s: Schema, rec: Record, args: seq<Value>, j: nat)
    requires DistinctColumns(s) && Aligned(lib, Present(s.columns, rec), rec, args) && j < |args|
    ensures var name := Present(s.columns, rec)[j].name;
            name in rec && Converted(lib, s, name, rec[name]) == Some(args[j])
  {
    var cols := Present(s.columns, rec);
    assert cols[j] in cols;
    var i :| 0 <= i < |s.columns| && s.columns[i] == cols[j];
    FindColumnAt(s.columns, i);
  }

  /** The schema columns a record holds, converted. */
  function HeldRow(lib: Lib, s: Schema, rec: Record): Row
    requires AllConvert(lib, s, rec)
  {
    map c | c in rec && c in ColumnSet(s.columns) :: Converted(lib, s, c, rec[c]).value
  }

  lemma HeldOverDefaults(lib: Lib, s: Schema, rec: Record)
    requires AllConvert(lib, s, rec)
    ensures DefaultRow(s.columns) + HeldRow(lib, s, rec) == RowOf(lib, s, rec)
  {
  }

  lemma InsertRow(lib: Lib, s: Schema, rec: Record, args: seq<Value>)
    requires DistinctColumns(s) && AllConvert(lib, s, rec)
    requires Aligned(lib, Present(s.columns, rec), rec, args)
    ensures Bind(DefaultRow(s.columns), Names(Present(s.columns, rec)), args) == RowOf(lib, s, rec)
  {
    var names := Names(Present(s.columns, rec));
    PresentNames(s, rec);
    forall j | 0 <= j < |names|
      ensures args[j] == HeldRow(lib, s, rec)[names[j]]
    {
      ArgumentOf(lib, s, rec, args, j);
    }
    BindIsOverride(DefaultRow(s.columns), names, args, HeldRow(lib, s, rec));
    HeldOverDefaults(lib, s, rec);
  }

  lemma RowNotNull(lib: Lib, s: Schema, rec: Record)
    requires Lawful(lib) && DistinctColumns(s) && ValidRecord(lib, s, rec) && AllConvert(lib, s, rec)
    ensures NotNull(s, RowOf(lib, s, rec))
  {
    forall i | 0 <= i < |s.columns|
      ensures var c := s.columns[i].name;
              var row := RowOf(lib, s, rec);
              c in row && row[c].Nil? ==> s.columns[i].nullable
    {
      FindColumnAt(s.columns, i);
      assert HoldsColumn(lib, s.columns[i], rec);
      var c := s.columns[i].name;
      if c in rec && !rec[c].Nil? {
        ConvertIdempotent(lib, rec[c], KindOf(s.columns[i].dbType));
      }
    }
  }

  /** INSERT preserves meaning: the table gains the record restricted to the schema with
      converted values, under the converted key, unless that key is taken. */
  lemma InsertMeaning(lib: Lib, s: Schema, rec: Record, stmt: Stmt, args: seq<Value>, db: Db)
    requires Lawful(lib) && DistinctColumns(s) && ValidRecord(lib, s, rec) && AllConvert(lib, s, rec)
    requires s.primaryKey in rec && FindColumn(s.columns, s.primaryKey).Some?
    requires IsInsertOf(lib, s, rec, stmt, args)
    ensures var k := KeyOf(Converted(lib, s, s.primaryKey, rec[s.primaryKey]).value);
            Exec(s, db, stmt, args) == if k in db then None else Some(db[k := RowOf(lib, s, rec)])
  {
    PresentNames(s, rec);
    InsertRow(lib, s, rec, args);
    RowNotNull(lib, s, rec);
    InColumnSet(s.columns, s.primaryKey);
  }

  /* ---------- UPDATE ---------- */

  /** The argument of one SET part: fields outside the schema are passed as they are. */
  function SetArgument(lib: Lib, s: Schema, name: string, v: Value): Option<Value> {
    if FindColumn(s.columns, name).Some? then Converted(lib, s, name, v) else Some(v)
  }

  /** The translation of an update: some listing of its fields without repetition, an
      argument each, and last the key converted with the primary-key column's type. */
  ghost predicate IsUpdateOf(lib: Lib, s: Schema, key: Value, updates: Record, stmt: Stmt, args: seq<Value>) {
    && stmt.Update? && stmt.table == s.tableName && stmt.keyColumn == s.primaryKey
    && Lists(stmt.sets, updates)
    && |args| == |stmt.sets| + 1
    && SetsAligned(lib, s, updates, stmt.sets, args[..|stmt.sets|])
    && Converted(lib, s, s.primaryKey, key) == Some(args[|stmt.sets|])
  }

  ghost predicate Lists(names: seq<string>, rec: Record) {
    Distinct(names) && forall c :: c in names <==> c in rec
  }

  predicate SetsAligned(lib: Lib, s: Schema, updates: Record, sets: seq<string>, args: seq<Value>) {
    && |sets| == |args|
    && forall i :: 0 <= i < |sets| ==>
         sets[i] in updates && SetArgument(lib, s, sets[i], updates[sets[i]]) == Some(args[i])
  }

  /** `ToDBUpdate` accepts exactly these. */
  predicate UpdateAccepts(lib: Lib, s: Schema, key: Value, updates: Record) {
    updates != map[] && ValidPartial(lib, s, updates) && ValidKey(lib, s, key) && s.primaryKey !in updates
  }

  lemma PartialConverts(lib: Lib, s: Schema, updates: Record, name: string)
    requires ValidPartial(lib, s, updates) && name in updates
    ensures SetArgument(lib, s, name, updates[name]).Some?
  {
    assert FieldSuits(lib, s, name, updates[name]);
  }

  method ToDBUpdate(lib: Lib, s: Schema, key: Value, updates: Option<Record>) returns (r: Option<(Stmt, seq<Value>)>)
    ensures r.Some? <==> updates.Some? && UpdateAccepts(lib, s, key, updates.value)
    ensures r.Some? ==> IsUpdateOf(lib, s, key, updates.value, r.value.0, r.value.1)
  {
    if updates.None? || updates.value == map[] { return None; }
    var fields := updates.value;
    var valid := ValidatePartialRecord(lib, s, fields);
    if !valid { return None; }
    var validKey := ValidatePrimaryKey(lib, s, key);
    if !validKey || s.primaryKey in fields { return None; }
    var setParts, args := SetClause(lib, s, fields);
    var pkValue := ConvertToDB(lib, key, s.columns[0].dbType);
    var pkColumn := SearchColumn(s.columns, s.primaryKey);
    if pkColumn.Some? { pkValue := ConvertToDB(lib, key, pkColumn.value.dbType); }
    if pkValue.None? { return None; }
    assert (args + [pkValue.value])[..|setParts|] == args;
    return Some((Update(s.tableName, setParts, s.primaryKey), args + [pkValue.value]));
  }

  /** The loop of `ToDBUpdate` over the updates map, in any order. */
  method SetClause(lib: Lib, s: Schema, fields: Record) returns (setParts: seq<string>, args: seq<Value>)
    requires ValidPartial(lib, s, fields)
    ensures Lists(setParts, fields) && SetsAligned(lib, s, fields, setParts, args)
  {
    setParts, args := [], [];
    var rest := fields.Keys;
    while rest != {}
      invariant rest <= fields.Keys && Distinct(setParts)
      invariant forall c :: c in setParts <==> c in fields.Keys - rest
      invariant SetsAligned(lib, s, fields, setParts, args)
      decreases |rest|
    {
      var colName :| colName in rest;
      assert colName !in setParts;
      rest := rest - {colName};
      var col := SearchColumn(s.columns, colName);
      PartialConverts(lib, s, fields, colName);
      var arg := fields[colName];
      if col.Some? && !arg.Nil? {
        arg := ConvertToDB(lib, arg, col.value.dbType).value;
      }
      setParts, args := setParts + [colName], args + [arg];
    }
  }

  /** The converted updates, as they land in a row. */
  function UpdateRow(lib: Lib, s: Schema, updates: Record): Row
    requires AllConvert(lib, s, updates)
  {
    map c | c in updates :: Converted(lib, s, c, updates[c]).value
  }

  /** Every field of the update is a column other than the key. */
  predicate OnColumns(s: Schema, updates: Record) {
    updates.Keys <= ColumnSet(s.columns) && s.primaryKey !in updates
  }

  lemma UpdateNotNull(lib: Lib, s: Schema, updates: Record, row: Row)
    requires Lawful(lib) && DistinctColumns(s) && ValidPartial(lib, s, updates) && AllConvert(lib, s, updates)
    requires NotNull(s, row)
    ensures NotNull(s, row + UpdateRow(lib, s, updates))
  {
    forall i | 0 <= i < |s.columns| && s.columns[i].name in updates
      ensures UpdateRow(lib, s, updates)[s.columns[i].name].Nil? ==> s.columns[i].nullable
    {
      var c := s.columns[i].name;
      FindColumnAt(s.columns, i);
      assert FieldSuits(lib, s, c, updates[c]);
      if !updates[c].Nil? {
        ConvertIdempotent(lib, updates[c], KindOf(s.columns[i].dbType));
      }
    }
  }

  lemma UpdateBinds(lib: Lib, s: Schema, updates: Record, sets: seq<string>, args: seq<Value>, row: Row)
    requires OnColumns(s, updates) && AllConvert(lib, s, updates)
    requires Lists(sets, updates) && SetsAligned(lib, s, updates, sets, args)
    ensures Known(s, sets) && s.primaryKey !in sets
    ensures Bind(row, sets, args) == row + UpdateRow(lib, s, updates)
  {
    var over := UpdateRow(lib, s, updates);
    forall i | 0 <= i < |sets|
      ensures FindColumn(s.columns, sets[i]).Some? && args[i] == over[sets[i]]
    {
      InColumnSet(s.columns, sets[i]);
    }
    BindIsOverride(row, sets, args, over);
  }

  /** UPDATE preserves meaning, for every iteration order of the updates map: only the row
      with the converted key changes, to that row overridden by the converted updates. */
  lemma UpdateMeaning(lib: Lib, s: Schema, key: Value, updates: Record, stmt: Stmt, args: seq<Value>, db: Db)
    requires Lawful(lib) && DistinctColumns(s) && OnColumns(s, updates)
    requires UpdateAccepts(lib, s, key, updates) && AllConvert(lib, s, updates)
    requires IsUpdateOf(lib, s, key, updates, stmt, args)
    requires forall k :: k in db ==> NotNull(s, db[k])
    ensures var k := KeyOf(Converted(lib, s, s.primaryKey, key).value);
            Exec(s, db, stmt, args) == Some(if k in db then db[k := db[k] + UpdateRow(lib, s, updates)] else db)
  {
    var n := |stmt.sets|;
    var k := KeyOf(args[n]);
    UpdateBinds(lib, s, updates, stmt.sets, args[..n], if k in db then db[k] else map[]);
    if k in db {
      UpdateNotNull(lib, s, updates, db[k]);
    }
  }

  /** A field outside the schema makes the database reject the whole update. */
  lemma UnknownFieldFails(lib: Lib, s: Schema, key: Value, updates: Record, stmt: Stmt, args: seq<Value>, db: Db,
                          c: string)
    requires IsUpdateOf(lib, s, key, updates, stmt, args)
    requires c in updates && FindColumn(s.columns, c).None?
    ensures Exec(s, db, stmt, args) == None
  {
    assert c in stmt.sets;
    var i :| 0 <= i < |stmt.sets| && stmt.sets[i] == c;
  }

  /* ---------- accepted implies drainable ---------- */

  /** A record `Create` accepted into the cache is later translated by `ToDB`. */
  lemma AcceptedCreateDrains(lib: Lib, s: Schema, rec: Record)
    requires KvAccepts(lib, s, rec) && FindColumn(s.columns, s.primaryKey).Some?
    ensures DbAccepts(lib, s, rec)
  {
    assert FindColumn(s.columns, s.primaryKey).value in Present(s.columns, rec);
  }

  /** An update whose merged record `Update` accepted into the cache is later translated by
      `ToDBUpdate` exactly when it is non-empty, leaves out the primary key and comes with
      a valid key. */
  lemma AcceptedUpdateDrains(lib: Lib, s: Schema, key: Value, current: Record, updates: Record)
    requires KvAccepts(lib, s, current + updates)
    ensures UpdateAccepts(lib, s, key, updates) <==>
            updates != map[] && s.primaryKey !in updates && ValidKey(lib, s, key)
  {
    forall f | f in updates
      ensures FieldSuits(lib, s, f, updates[f])
    {
      if FindColumn(s.columns, f).Some? {
        ValidRecordAt(lib, s, current + updates, f);
      }
    }
  }
}
