/** A table the whole-protocol results apply to: what they ask of the library, the schema and
    the records can be met. */
module Sample {
  import opened GoText
  import opened Mapper
  import opened Validator
  import opened Translator
  import opened WriteOps
  import opened WriteBack
  import Binary64

  ghost function Undo(s: string): Option<int> {
    if t: int :| Dec(t) == s then Some(t) else None
  }

  lemma UndoDec(t: int)
    ensures Undo(Dec(t)) == Some(t)
  {
    var u :| Dec(u) == Dec(t) && Undo(Dec(t)) == Some(u);
    DecInjective(u, t);
  }

  /** Times printed as their nanoseconds, everything else constant. */
  ghost function Library(): Lib {
    Lib((_, _) => 0, _ => "", (_, _) => None, x => x, x => x, t => Dec(t), t => Dec(t), s => Undo(s),
        s => s, _ => true, _ => None, (v: Value) => if v.Bytes? then "[" + v.bytes + "]" else "")
  }

  lemma LibraryLawful()
    ensures Lawful(Library())
  {
    forall bits: nat, x: real | bits > 0 ensures FitsSigned(bits, Library().floatToInt(bits, x)) {
      assert PowTwo(bits - 1) > 0;
    }
    forall t: int ensures Library().parseTime(Library().formatNanoTime(t)) == Some(t) { UndoDec(t); }
  }

  const USERS := Schema("users", "id", [Column("id", "INT", false, Nil), Column("name", "TEXT", true, Nil)])

  ghost function Users(): Config { Config(Library(), USERS, 0) }

  lemma Kinds()
    ensures KindOf("INT") == IntKind && KindOf("TEXT") == TextKind
  {
    hide CaseOf, Upper;
    UpperKeeps("INT");
    UpperKeeps("TEXT");
    assert BaseType("INT") == "INT";
    assert BaseType("TEXT") == "TEXT";
    CaseOfAt(TYPE_NAMES, "INT", 0);
    CaseOfAt(TYPE_NAMES, "TEXT", 6);
  }

  lemma UsersGood()
    ensures GoodConfig(Users())
  {
    hide KindOf, Lawful, Convert, Within53;
    LibraryLawful();
    Kinds();
    NilWithin53();
  }

  lemma NilWithin53()
    ensures Within53(Nil)
  {
  }

  function User(n: int): Record { map["id" := Int(GoInt, n)] }

  lemma IdColumn()
    ensures FindColumn(USERS.columns, "id") == Some(USERS.columns[0])
    ensures FindColumn(USERS.columns, "name") == Some(USERS.columns[1])
  {
    FindColumnAt(USERS.columns, 0);
    FindColumnAt(USERS.columns, 1);
  }

  /** An id is stored as it is. */
  lemma IdConverts(n: int)
    requires -Binary64.TWO53 <= n <= Binary64.TWO53
    ensures ConvertToDB(Library(), Int(GoInt, n), "INT") == Some(Int(GoInt, n)) && Within53(Int(GoInt, n))
  {
    hide KindOf;
    Kinds();
    WidthsNest();
    assert FitsSigned(64, n);
  }

  /** Every user with an integer id within 2^53 may be created. */
  lemma UserAccepted(n: int)
    requires -Binary64.TWO53 <= n <= Binary64.TWO53
    ensures KvAccepts(Library(), USERS, User(n)) && AllFaithful(Users(), User(n)) && KeyOk(Users(), n, User(n)["id"])
  {
    hide KindOf, ConvertToDB, Within53, Library;
    Kinds();
    IdColumn();
    IdConverts(n);
  }

  ghost function Empty(): State { State(0, map[], map[], [], None, map[], map[], map[], map[], []) }

  /** So the protocol has runs: a create can begin over the empty table. */
  lemma ProtocolRuns(n: int)
    requires -Binary64.TWO53 <= n <= Binary64.TWO53
    ensures GoodConfig(Users()) && exists s :: Run(Users(), [Empty(), s], [BeginCreate(n, User(n))])
  {
    hide GoodConfig, KvAccepts, AllFaithful, KeyOk, Inv, KindOf, Convert, CacheKey, KvDoc;
    UsersGood();
    UserAccepted(n);
    var op := WriteOp("users", OperationCreate, User(n)["id"], Some(User(n)));
    var s := Empty().(flights := map[n := Fly(op, Users(), User(n))]);
    assert Next(Users(), Empty(), s, BeginCreate(n, User(n)));
    assert Run(Users(), [Empty(), s], [BeginCreate(n, User(n))]);
  }
}
