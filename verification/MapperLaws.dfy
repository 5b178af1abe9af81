/** What the columns of each type name store, said value by value and without the mapper's own
    switch, for every spelling of the name: any case, blanks around it, a size after it. */
module MapperLaws {
  import opened GoText
  import opened Mapper
  import Binary64

  /* ---------- spelling a type ---------- */

  predicate Blank(s: string) { forall i :: 0 <= i < |s| ==> IsSpace(s[i]) }

  /** A letter of a type name, in either case. */
  predicate SameLetter(x: char, y: char) { x == y || ('A' <= y <= 'Z' && x == y - 'A' + 'a') }

  /** A type name as it is compared: upper case, no blank at its ends, no size. */
  predicate Plain(name: string) {
    && name != "" && !IsSpace(name[0]) && !IsSpace(name[|name|-1])
    && forall i :: 0 <= i < |name| ==> name[i] != '(' && !('a' <= name[i] <= 'z')
  }

  /** The name, in any case, and possibly a size. */
  predicate Sized(word: string, name: string) {
    && |name| <= |word| && word != "" && !IsSpace(word[|word|-1])
    && (forall i :: 0 <= i < |name| ==> SameLetter(word[i], name[i]))
    && (|word| > |name| ==> word[|name|] == '(')
  }

  ghost predicate Spells(dbType: string, name: string) {
    exists a, word, b :: dbType == a + word + b && Blank(a) && Blank(b) && Sized(word, name)
  }

  lemma {:induction false} TrimsLeft(a: string, s: string)
    requires Blank(a) && s != "" && !IsSpace(s[0])
    ensures TrimLeft(a + s) == s
  {
    if a == "" {
      assert a + s == s;
    } else {
      assert (a + s)[1..] == a[1..] + s;
      TrimsLeft(a[1..], s);
    }
  }

  lemma {:induction false} TrimsRight(s: string, b: string)
    requires Blank(b) && s != "" && !IsSpace(s[|s|-1])
    ensures TrimRight(s + b) == s
  {
    if b == "" {
      assert s + b == s;
    } else {
      assert (s + b)[..|s + b|-1] == s + b[..|b|-1];
      TrimsRight(s, b[..|b|-1]);
    }
  }

  lemma {:induction false} UpperAt(s: string)
    ensures |Upper(s)| == |s| && forall i :: 0 <= i < |s| ==> Upper(s)[i] == UpperChar(s[i])
  {
    if s != "" { UpperAt(s[1..]); }
  }

  lemma {:induction false} NoCut(s: string, from: nat)
    requires from <= |s| && forall i :: from <= i < |s| ==> s[i] != '('
    ensures CutAtParen(s, from) == s
    decreases |s| - from
  {
    if from < |s| { NoCut(s, from + 1); }
  }

  lemma SizedBase(word: string, name: string)
    requires Plain(name) && Sized(word, name)
    ensures Upper(word) != "" && Upper(word)[0] != '(' && CutAtParen(Upper(word), 0) == name
  {
    hide CutAtParen, Upper;
    UpperAt(word);
    var u := Upper(word);
    forall i | 0 <= i < |name| ensures u[i] == name[i] { assert SameLetter(word[i], name[i]); }
    assert u[..|name|] == name;
    if |word| > |name| {
      CutsAt(u, 0, |name|);
    } else {
      NoCut(u, 0);
      assert u == u[..|name|];
    }
  }

  /** However a type is spelled, its base is the name. */
  lemma SpelledBase(dbType: string, name: string)
    requires Spells(dbType, name) && Plain(name)
    ensures BaseType(dbType) == name
  {
    hide TrimLeft, TrimRight, Upper, CutAtParen, IsSpace;
    var a, word, b :| dbType == a + word + b && Blank(a) && Blank(b) && Sized(word, name);
    FirstNotBlank(word, name);
    assert dbType == a + (word + b);
    TrimsLeft(a, word + b);
    TrimsRight(word, b);
    SizedBase(word, name);
  }

  lemma FirstNotBlank(word: string, name: string)
    requires Plain(name) && Sized(word, name)
    ensures word != "" && !IsSpace(word[0])
  {
    assert SameLetter(word[0], name[0]);
  }

  /* ---------- the kind of each name ---------- */

  lemma IntegerNames(name: string)
    requires name in {"INT", "INTEGER", "MEDIUMINT", "BIGINT"}
    ensures Plain(name) && KindOfBase(name) == if name == "BIGINT" then BigIntKind else IntKind
  {
    hide CaseOf;
    CaseOfAt(TYPE_NAMES, name, if name == "BIGINT" then 1 else 0);
  }

  lemma SmallNames(name: string)
    requires name in {"SMALLINT", "TINYINT"}
    ensures Plain(name) && KindOfBase(name) == SmallIntKind
  {
    hide CaseOf;
    CaseOfAt(TYPE_NAMES, name, 2);
  }

  lemma FloatNames(name: string)
    requires name in {"FLOAT", "DOUBLE", "DOUBLE PRECISION", "REAL"}
    ensures Plain(name) && KindOfBase(name) == if name == "FLOAT" then FloatKind else DoubleKind
  {
    hide CaseOf;
    CaseOfAt(TYPE_NAMES, name, if name == "FLOAT" then 3 else 4);
  }

  lemma TextNamesPlain(name: string)
    requires name in {"DECIMAL", "NUMERIC", "VARCHAR", "CHAR", "TEXT", "LONGTEXT", "MEDIUMTEXT", "TINYTEXT"}
    ensures Plain(name)
  {
  }

  lemma TextNames(name: string)
    requires name in {"DECIMAL", "NUMERIC", "VARCHAR", "CHAR", "TEXT", "LONGTEXT", "MEDIUMTEXT", "TINYTEXT"}
    ensures Plain(name) && KindOfBase(name) == TextKind
  {
    hide CaseOf, Plain;
    TextNamesPlain(name);
    CaseOfAt(TYPE_NAMES, name, if name in {"DECIMAL", "NUMERIC"} then 5 else 6);
  }

  lemma BinaryNamesPlain(name: string)
    requires name in {"BINARY", "VARBINARY", "BLOB", "LONGBLOB", "MEDIUMBLOB", "TINYBLOB"}
    ensures Plain(name)
  {
  }

  lemma BinaryNames(name: string)
    requires name in {"BINARY", "VARBINARY", "BLOB", "LONGBLOB", "MEDIUMBLOB", "TINYBLOB"}
    ensures Plain(name) && KindOfBase(name) == BinaryKind
  {
    hide CaseOf, Plain;
    BinaryNamesPlain(name);
    CaseOfAt(TYPE_NAMES, name, 7);
  }

  lemma TimeNames(name: string)
    requires name in {"DATE", "DATETIME", "TIMESTAMP", "TIME"}
    ensures Plain(name) && KindOfBase(name) == TimeKind
  {
    hide CaseOf;
    CaseOfAt(TYPE_NAMES, name, 8);
  }

  lemma BooleanNames(name: string)
    requires name in {"BOOLEAN", "BOOL"}
    ensures Plain(name) && KindOfBase(name) == BoolKind
  {
    hide CaseOf;
    CaseOfAt(TYPE_NAMES, name, 9);
  }

  lemma JsonNames(name: string)
    requires name in {"JSON", "JSONB"}
    ensures Plain(name) && KindOfBase(name) == JsonKind
  {
    hide CaseOf;
    CaseOfAt(TYPE_NAMES, name, 10);
  }

  /** A type is spelled by its own name, and by its name with any size. */
  lemma SpelledPlainly(name: string, size: string)
    requires Plain(name)
    ensures Spells(name, name) && Spells(name + "(" + size + ")", name)
  {
    assert name == "" + name + "";
    var sized := name + "(" + size + ")";
    assert sized == "" + sized + "";
    assert sized[|name|] == '(' && sized[|sized|-1] == ')';
  }

  /* ---------- what columns store ---------- */

  /** Reading back a printed integer: exactly those that fit the width. */
  lemma ParsePrinted(n: int, bits: nat)
    requires bits > 0
    ensures ParseInt(Dec(n), bits) == if FitsSigned(bits, n) then Some(n) else None
  {
    hide FitsSigned, DecNat, DigitsValue;
    if n < 0 {
      assert Dec(n)[1..] == DecNat(-n);
      DigitsValueOfDec(-n);
    } else {
      assert IsDigit(Dec(n)[0]);
      DigitsValueOfDec(n);
    }
  }

  /** A float is cut toward zero. */
  lemma TruncTowardZero(x: real, n: int)
    ensures x >= 0.0 ==> 0 <= Trunc(x) && Trunc(x) as real <= x < Trunc(x) as real + 1.0
    ensures Trunc(0.0 - x) == 0 - Trunc(x)
    ensures Trunc(n as real) == n
  {
  }

  /** INT and BIGINT columns store every 64-bit integer, given as a number of any Go type or as
      text, and refuse text out of range. */
  lemma IntegerColumns(lib: Lib, dbType: string, name: string, t: IntType, n: int)
    requires name in {"INT", "INTEGER", "MEDIUMINT", "BIGINT"} && Spells(dbType, name)
    ensures var stored := Some(Int(if name == "BIGINT" then Int64 else GoInt, n));
      && (FitsSigned(64, n) ==> ConvertToDB(lib, Int(t, n), dbType) == stored)
      && (FitsSigned(64, n) ==> ConvertToDB(lib, Float64(n as real), dbType) == stored)
      && ConvertToDB(lib, Str(Dec(n)), dbType) == if FitsSigned(64, n) then stored else None
    ensures forall v: Value :: v.Bool? || v.Bytes? || v.Time? ==> ConvertToDB(lib, v, dbType) == None
  {
    hide BaseType, KindOfBase, Convert, FitsSigned;
    IntegerNames(name);
    SpelledBase(dbType, name);
    IntegerKinds(lib, t, n);
  }

  lemma IntegerKinds(lib: Lib, t: IntType, n: int)
    ensures FitsSigned(64, n) ==>
      && Convert(lib, Int(t, n), IntKind) == Convert(lib, Float64(n as real), IntKind) == Some(Int(GoInt, n))
      && Convert(lib, Int(t, n), BigIntKind) == Convert(lib, Float64(n as real), BigIntKind) == Some(Int(Int64, n))
    ensures Convert(lib, Str(Dec(n)), IntKind) == if FitsSigned(64, n) then Some(Int(GoInt, n)) else None
    ensures Convert(lib, Str(Dec(n)), BigIntKind) == if FitsSigned(64, n) then Some(Int(Int64, n)) else None
    ensures forall v: Value :: v.Bool? || v.Bytes? || v.Time? ==>
      Convert(lib, v, IntKind) == Convert(lib, v, BigIntKind) == None
  {
    hide ParseInt, FitsSigned, Trunc, Dec;
    ParsePrinted(n, 64);
    TruncTowardZero(0.0, n);
  }

  /** SMALLINT and TINYINT columns store every 16-bit integer, except that unsigned 32- and
      64-bit numbers are refused. */
  lemma SmallColumns(lib: Lib, dbType: string, name: string, t: IntType, n: int)
    requires name in {"SMALLINT", "TINYINT"} && Spells(dbType, name)
    ensures t in {Uint32, Uint64} ==> ConvertToDB(lib, Int(t, n), dbType) == None
    ensures t !in {Uint32, Uint64} && FitsSigned(16, n) ==> ConvertToDB(lib, Int(t, n), dbType) == Some(Int(Int16, n))
    ensures ConvertToDB(lib, Str(Dec(n)), dbType) == if FitsSigned(16, n) then Some(Int(Int16, n)) else None
  {
    hide BaseType, KindOfBase, ParseInt, FitsSigned;
    SmallNames(name);
    SpelledBase(dbType, name);
    ParsePrinted(n, 16);
  }

  /** DOUBLE columns store every number they can hold, FLOAT columns its float32, both also from
      text, and integers of type int and int64 only. */
  lemma FloatColumns(lib: Lib, dbType: string, name: string, x: real, n: int, t: IntType, text: string)
    requires name in {"FLOAT", "DOUBLE", "DOUBLE PRECISION", "REAL"} && Spells(dbType, name)
    ensures t !in {GoInt, Int64} ==> ConvertToDB(lib, Int(t, n), dbType) == None
    ensures var f := lib.parseFloat(text, if name == "FLOAT" then 32 else 64);
      ConvertToDB(lib, Str(text), dbType) ==
        if f.None? then None else Some(if name == "FLOAT" then Float32(lib.round32(f.value)) else Float64(f.value))
    ensures name == "FLOAT" ==>
      && ConvertToDB(lib, Float32(x), dbType) == Some(Float32(x))
      && ConvertToDB(lib, Float64(x), dbType) == Some(Float32(lib.round32(x)))
      && ConvertToDB(lib, Int(Int64, n), dbType) == Some(Float32(lib.round32(n as real)))
    ensures name != "FLOAT" ==>
      && ConvertToDB(lib, Float64(x), dbType) == Some(Float64(x))
      && ConvertToDB(lib, Float32(x), dbType) == Some(Float64(x))
      && (-Binary64.TWO53 <= n <= Binary64.TWO53 ==>
            ConvertToDB(lib, Int(Int64, n), dbType) == Some(Float64(n as real)))
  {
    hide BaseType, KindOfBase;
    FloatNames(name);
    SpelledBase(dbType, name);
    Binary64.RoundIdempotent(n);
  }

  /** Character and decimal columns store text as it is, integers in decimal and truth values
      as words. */
  lemma TextColumns(lib: Lib, dbType: string, name: string, text: string, t: IntType, n: int, b: bool)
    requires name in {"DECIMAL", "NUMERIC", "VARCHAR", "CHAR", "TEXT", "LONGTEXT", "MEDIUMTEXT", "TINYTEXT"}
    requires Spells(dbType, name)
    ensures ConvertToDB(lib, Str(text), dbType) == ConvertToDB(lib, Bytes(text), dbType) == Some(Str(text))
    ensures ConvertToDB(lib, Int(t, n), dbType) == Some(Str(Dec(n)))
    ensures ConvertToDB(lib, Bool(b), dbType) == Some(Str(if b then "true" else "false"))
  {
    hide BaseType, KindOfBase;
    TextNames(name);
    SpelledBase(dbType, name);
  }

  /** Binary columns store bytes and the bytes of text, and refuse numbers. */
  lemma BinaryColumns(lib: Lib, dbType: string, name: string, text: string, t: IntType, n: int)
    requires name in {"BINARY", "VARBINARY", "BLOB", "LONGBLOB", "MEDIUMBLOB", "TINYBLOB"} && Spells(dbType, name)
    ensures ConvertToDB(lib, Str(text), dbType) == ConvertToDB(lib, Bytes(text), dbType) == Some(Bytes(text))
    ensures ConvertToDB(lib, Int(t, n), dbType) == None
  {
    hide BaseType, KindOfBase;
    BinaryNames(name);
    SpelledBase(dbType, name);
  }

  /** Date and time columns store instants, their RFC 3339 text and Unix seconds as int64. */
  lemma TimeColumns(lib: Lib, dbType: string, name: string, at: int, seconds: int)
    requires Lawful(lib) && name in {"DATE", "DATETIME", "TIMESTAMP", "TIME"} && Spells(dbType, name)
    ensures ConvertToDB(lib, Time(at), dbType) == Some(Time(at))
    ensures ConvertToDB(lib, Str(lib.formatNanoTime(at)), dbType) == Some(Time(at))
    ensures ConvertToDB(lib, Int(Int64, seconds), dbType) == Some(Time(seconds * 1_000_000_000))
    ensures ConvertToDB(lib, Int(GoInt, seconds), dbType) == None
  {
    hide BaseType, KindOfBase;
    TimeNames(name);
    SpelledBase(dbType, name);
  }

  /** Boolean columns store truth values; a number, printed or not, is true unless it is 0. */
  lemma BooleanColumns(lib: Lib, dbType: string, name: string, t: IntType, n: int, b: bool)
    requires name in {"BOOLEAN", "BOOL"} && Spells(dbType, name)
    ensures ConvertToDB(lib, Bool(b), dbType) == Some(Bool(b))
    ensures ConvertToDB(lib, Int(t, n), dbType) == Some(Bool(n != 0))
    ensures ConvertToDB(lib, Str(if b then "true" else "false"), dbType) == Some(Bool(b))
    ensures FitsSigned(64, n) ==> ConvertToDB(lib, Str(Dec(n)), dbType) == Some(Bool(n != 0))
  {
    hide BaseType, KindOfBase, ParseInt, FitsSigned;
    BooleanNames(name);
    SpelledBase(dbType, name);
    ParsePrinted(n, 64);
    PrintedBool(n);
  }

  /** A printed number is a truth word only if it is 0 or 1. */
  lemma PrintedBool(n: int)
    ensures ParseBool(Dec(n)) == if n == 1 then Some(true) else if n == 0 then Some(false) else None
  {
    assert Dec(0) == "0" && Dec(1) == "1";
    DecInjective(n, 0);
    DecInjective(n, 1);
    assert IsDigit(Dec(n)[0]) || Dec(n)[0] == '-';
  }

  /** JSON columns store exactly valid JSON text, and the JSON of anything else. */
  lemma JsonColumns(lib: Lib, dbType: string, name: string, text: string, v: Value)
    requires name in {"JSON", "JSONB"} && Spells(dbType, name) && !v.Nil? && !v.Str? && !v.Bytes?
    ensures ConvertToDB(lib, Str(text), dbType) == ConvertToDB(lib, Bytes(text), dbType)
         == if lib.validJson(text) then Some(Str(text)) else None
    ensures ConvertToDB(lib, v, dbType) == if lib.marshal(v).Some? then Some(Str(lib.marshal(v).value)) else None
  {
    hide BaseType, KindOfBase;
    JsonNames(name);
    SpelledBase(dbType, name);
  }

  /** Any other type stores like text; null is null everywhere. */
  lemma OtherColumns(lib: Lib, dbType: string, text: string, t: IntType, n: int)
    requires BaseType(dbType) !in {"INT", "INTEGER", "MEDIUMINT", "BIGINT", "SMALLINT", "TINYINT", "FLOAT", "DOUBLE",
      "DOUBLE PRECISION", "REAL", "DECIMAL", "NUMERIC", "VARCHAR", "CHAR", "TEXT", "LONGTEXT", "MEDIUMTEXT",
      "TINYTEXT", "BINARY", "VARBINARY", "BLOB", "LONGBLOB", "MEDIUMBLOB", "TINYBLOB", "DATE", "DATETIME",
      "TIMESTAMP", "TIME", "BOOLEAN", "BOOL", "JSON", "JSONB"}
    ensures ConvertToDB(lib, Str(text), dbType) == Some(Str(text))
    ensures ConvertToDB(lib, Int(t, n), dbType) == Some(Str(Dec(n)))
    ensures ConvertToDB(lib, Nil, dbType) == Some(Nil)
  {
    hide BaseType, CaseOf;
    NoTinyintOneBase(dbType);
    CaseOfAt(TYPE_NAMES, BaseType(dbType), |TYPE_NAMES|);
  }
}
