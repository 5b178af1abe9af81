/** Schemas, records and the schema validator. Go iterates maps in no fixed order, so the
    loops here take any remaining field next. */
module Validator {
  import opened GoText
  import opened Mapper

  datatype Column = Column(name: string, dbType: string, nullable: bool, fallback: Value)

  datatype Schema = Schema(tableName: string, primaryKey: string, columns: seq<Column>)

  type Record = map<string, Value>

  /** The first column of that name, as every search loop of the source finds it. */
  function FindColumn(cols: seq<Column>, name: string): (r: Option<Column>)
    ensures r.Some? ==> r.value in cols && r.value.name == name
    ensures r.None? <==> forall i :: 0 <= i < |cols| ==> cols[i].name != name
  {
    if cols == [] then None
    else if cols[0].name == name then Some(cols[0])
    else FindColumn(cols[1..], name)
  }

  /** The names of the columns. */
  function ColumnSet(cols: seq<Column>): set<string> {
    set i | 0 <= i < |cols| :: cols[i].name
  }

  lemma InColumnSet(cols: seq<Column>, name: string)
    ensures name in ColumnSet(cols) <==> FindColumn(cols, name).Some?
  {
    if FindColumn(cols, name).Some? {
      var i :| 0 <= i < |cols| && cols[i] == FindColumn(cols, name).value;
    }
  }

  ghost predicate DistinctColumns(s: Schema) {
    forall i, j :: 0 <= i < j < |s.columns| ==> s.columns[i].name != s.columns[j].name
  }

  lemma {:induction false} FindColumnAt(cols: seq<Column>, i: nat)
    requires i < |cols|
    requires forall j, k :: 0 <= j < k < |cols| ==> cols[j].name != cols[k].name
    ensures FindColumn(cols, cols[i].name) == Some(cols[i])
  {
    if i > 0 {
      FindColumnAt(cols[1..], i - 1);
    }
  }

  method SearchColumn(cols: seq<Column>, name: string) returns (r: Option<Column>)
    ensures r == FindColumn(cols, name)
  {
    for i := 0 to |cols|
      invariant FindColumn(cols, name) == FindColumn(cols[i..], name)
    {
      if cols[i].name == name {
        return Some(cols[i]);
      }
    }
    return None;
  }

  /** A present value suits a column: null where null is allowed, convertible otherwise. */
  predicate Suits(lib: Lib, col: Column, v: Value) {
    if v.Nil? then col.nullable else ConvertToDB(lib, v, col.dbType).Some?
  }

  /** `ValidateRecord` accepts exactly these. */
  predicate ValidRecord(lib: Lib, s: Schema, rec: Record) {
    && (s.primaryKey != "" ==> s.primaryKey in rec)
    && forall i :: 0 <= i < |s.columns| ==> HoldsColumn(lib, s.columns[i], rec)
  }

  predicate HoldsColumn(lib: Lib, col: Column, rec: Record) {
    Suits(lib, col, if col.name in rec then rec[col.name] else Nil)
  }

  method ValidateRecord(lib: Lib, s: Schema, rec: Option<Record>) returns (ok: bool)
    ensures ok <==> rec.Some? && ValidRecord(lib, s, rec.value)
  {
    if rec.None? { return false; }
    if s.primaryKey != "" && s.primaryKey !in rec.value { return false; }
    for i := 0 to |s.columns|
      invariant forall j :: 0 <= j < i ==> HoldsColumn(lib, s.columns[j], rec.value)
    {
      var column := s.columns[i];
      if column.name !in rec.value || rec.value[column.name].Nil? {
        if !column.nullable { return false; }
        continue;
      }
      if ConvertToDB(lib, rec.value[column.name], column.dbType).None? { return false; }
    }
    return true;
  }

  /** `ValidatePartialRecord`: fields outside the schema are let through. */
  predicate ValidPartial(lib: Lib, s: Schema, rec: Record) {
    forall f :: f in rec ==> FieldSuits(lib, s, f, rec[f])
  }

  predicate FieldSuits(lib: Lib, s: Schema, field: string, v: Value) {
    var col := FindColumn(s.columns, field);
    col.Some? ==> Suits(lib, col.value, v)
  }

  method ValidatePartialRecord(lib: Lib, s: Schema, rec: Record) returns (ok: bool)
    ensures ok <==> ValidPartial(lib, s, rec)
  {
    var rest := rec.Keys;
    while rest != {}
      invariant rest <= rec.Keys
      invariant forall f :: f in rec.Keys - rest ==> FieldSuits(lib, s, f, rec[f])
      decreases |rest|
    {
      var field :| field in rest;
      rest := rest - {field};
      var column := SearchColumn(s.columns, field);
      if column.None? { continue; }
      if rec[field].Nil? {
        if !column.value.nullable { return false; }
        continue;
      }
      if ConvertToDB(lib, rec[field], column.value.dbType).None? { return false; }
    }
    return true;
  }

  /** `ValidatePrimaryKey`. */
  predicate ValidKey(lib: Lib, s: Schema, key: Value) {
    var col := FindColumn(s.columns, s.primaryKey);
    !key.Nil? && s.primaryKey != "" && col.Some? && ConvertToDB(lib, key, col.value.dbType).Some?
  }

  method ValidatePrimaryKey(lib: Lib, s: Schema, key: Value) returns (ok: bool)
    ensures ok <==> ValidKey(lib, s, key)
  {
    if key.Nil? || s.primaryKey == "" { return false; }
    var column := SearchColumn(s.columns, s.primaryKey);
    if column.None? { return false; }
    return ConvertToDB(lib, key, column.value.dbType).Some?;
  }

  /** A record holding a column whose value fails the column's test is rejected, and the
      test of a named column is the test of its first definition. */
  lemma ValidRecordAt(lib: Lib, s: Schema, rec: Record, name: string)
    requires ValidRecord(lib, s, rec) && name in rec && FindColumn(s.columns, name).Some?
    ensures FieldSuits(lib, s, name, rec[name])
  {
    var i :| 0 <= i < |s.columns| && s.columns[i] == FindColumn(s.columns, name).value;
    assert HoldsColumn(lib, s.columns[i], rec);
  }
}
