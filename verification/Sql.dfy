/** The three statement forms the translator and the table emit, and what they do to one
    database table. */
module Sql {
  import opened GoText
  import opened Mapper
  import opened Validator

  datatype Stmt =
    | Insert(table: string, cols: seq<string>, placeholders: nat)
    | Update(table: string, sets: seq<string>, keyColumn: string)
    | Delete(table: string, keyColumn: string)

  type Row = map<string, Value>

  /** Primary keys as SQL compares them: the Go integer type does not matter. */
  datatype SqlKey = KeyInt(n: int) | KeyText(s: string) | KeyOther(v: Value)

  function KeyOf(v: Value): SqlKey {
    match v
    case Int(_, n) => KeyInt(n)
    case Bool(b) => KeyInt(if b then 1 else 0)
    case Str(s) => KeyText(s)
    case Bytes(s) => KeyText(s)
    case _ => KeyOther(v)
  }

  type Db = map<SqlKey, Row>

  predicate Distinct(names: seq<string>) {
    forall i, j :: 0 <= i < j < |names| ==> names[i] != names[j]
  }

  function Names(cols: seq<Column>): (r: seq<string>)
    ensures |r| == |cols| && forall i :: 0 <= i < |cols| ==> r[i] == cols[i].name
  {
    seq(|cols|, i requires 0 <= i < |cols| => cols[i].name)
  }

  /** Every column at its default. */
  function DefaultRow(cols: seq<Column>): Row {
    map c | c in ColumnSet(cols) :: Fallback(cols, c)
  }

  function Fallback(cols: seq<Column>, name: string): Value
    requires name in ColumnSet(cols)
  {
    InColumnSet(cols, name);
    FindColumn(cols, name).value.fallback
  }

  /** Assign the placeholders left to right. */
  function Bind(row: Row, cols: seq<string>, args: seq<Value>): Row
    requires |cols| == |args|
    decreases |cols|
  {
    if cols == [] then row else Bind(row[cols[0] := args[0]], cols[1..], args[1..])
  }

  predicate Known(s: Schema, cols: seq<string>) {
    forall i :: 0 <= i < |cols| ==> FindColumn(s.columns, cols[i]).Some?
  }

  /** The NOT NULL constraints. */
  predicate NotNull(s: Schema, row: Row) {
    forall i :: 0 <= i < |s.columns| ==>
      (s.columns[i].name in row && row[s.columns[i].name].Nil? ==> s.columns[i].nullable)
  }

  /** Executing one statement; `None` is a database error, which changes nothing. */
  function Exec(s: Schema, db: Db, stmt: Stmt, args: seq<Value>): Option<Db> {
    if stmt.table != s.tableName then None else
    match stmt
    case Insert(_, cols, n) =>
      if |cols| != n || |args| != n || !Distinct(cols) || !Known(s, cols) then None else
      var row := Bind(DefaultRow(s.columns), cols, args);
      if s.primaryKey !in row || !NotNull(s, row) || KeyOf(row[s.primaryKey]) in db then None
      else Some(db[KeyOf(row[s.primaryKey]) := row])
    case Update(_, sets, keyColumn) =>
      if |args| != |sets| + 1 || !Known(s, sets) || keyColumn != s.primaryKey || keyColumn in sets then None else
      var k := KeyOf(args[|sets|]);
      if k !in db then Some(db) else
      var row := Bind(db[k], sets, args[..|sets|]);
      if !NotNull(s, row) then None else Some(db[k := row])
    case Delete(_, keyColumn) =>
      if |args| != 1 || keyColumn != s.primaryKey then None
      else Some(db - {KeyOf(args[0])})
  }

  /** What binding leaves in the row, column by column. */
  lemma {:induction false} BindLookup(row: Row, cols: seq<string>, args: seq<Value>)
    requires |cols| == |args| && Distinct(cols)
    ensures Bind(row, cols, args).Keys == row.Keys + set c | c in cols
    ensures forall i :: 0 <= i < |cols| ==>
      cols[i] in Bind(row, cols, args) && Bind(row, cols, args)[cols[i]] == args[i]
    ensures forall c :: c in row && c !in cols ==> Bind(row, cols, args)[c] == row[c]
    decreases |cols|
  {
    if cols != [] {
      var row1, rest := row[cols[0] := args[0]], cols[1..];
      assert forall c :: c in cols <==> c == cols[0] || c in rest;
      BindLookup(row1, rest, args[1..]);
      var out := Bind(row, cols, args);
      assert cols[0] !in rest;
      assert forall i :: 0 < i < |cols| ==> cols[i] == rest[i - 1] && args[i] == args[1..][i - 1];
    }
  }

  /** Binding a listing of a map, in any order, overrides the row with that map. */
  lemma BindIsOverride(row: Row, cols: seq<string>, args: seq<Value>, m: Row)
    requires |cols| == |args| && Distinct(cols)
    requires forall c :: c in cols <==> c in m
    requires forall i :: 0 <= i < |cols| ==> args[i] == m[cols[i]]
    ensures Bind(row, cols, args) == row + m
  {
    BindLookup(row, cols, args);
    var out := Bind(row, cols, args);
    assert out.Keys == (row + m).Keys;
    forall c | c in out ensures out[c] == (row + m)[c] {
      if c in m {
        var i :| 0 <= i < |cols| && cols[i] == c;
      }
    }
  }
}
