/** Go values, column types, the type mapper's conversions, and the JSON number line
    between them: what a column value becomes on its way into and out of the cache. */
module Mapper {
  import opened GoText
  import Binary64

  datatype IntType = GoInt | Int8 | Int16 | Int32 | Int64 | Uint | Uint8 | Uint16 | Uint32 | Uint64

  /** The dynamic values a Go `interface{}` holds here. A float is the real number it
      denotes, a time its nanoseconds, bytes and text their characters; `Composite`
      stands for maps, slices and structs, known only through `json.Marshal`. */
  datatype Value =
    | Nil
    | Int(t: IntType, n: int)
    | Float32(x: real)
    | Float64(x: real)
    | Str(s: string)
    | Bytes(bytes: string)
    | Bool(b: bool)
    | Time(nanos: int)
    | Composite(id: int)

  /** The parts of Go's standard library whose internals do not matter here. */
  datatype Lib = Lib(
    floatToInt: (nat, real) -> int,      // int conversion of an out-of-range float
    formatFloat: real -> string,         // "%g"
    parseFloat: (string, nat) -> Option<real>,
    round32: real -> real,               // float32(x)
    read32: real -> real,                // the float64 read from a float32's shortest text
    formatTime: int -> string,           // RFC 3339
    formatNanoTime: int -> string,       // RFC 3339 with nanoseconds, as JSON prints it
    parseTime: string -> Option<int>,
    base64: string -> string,
    validJson: string -> bool,
    marshal: Value -> Option<string>,    // json.Marshal
    render: Value -> string              // "%v" of anything but integers, text and booleans
  )

  /** What the standard library promises about those parts. */
  ghost predicate Lawful(lib: Lib) {
    && (forall bits: nat, x: real :: bits > 0 ==> FitsSigned(bits, lib.floatToInt(bits, x)))
    && (forall x: real :: lib.round32(lib.round32(x)) == lib.round32(x))
    && (forall x: real :: lib.round32(x) == x ==> lib.round32(lib.read32(x)) == x)
    && (forall t: int :: lib.parseTime(lib.formatNanoTime(t)) == Some(t))
    && (forall v: Value :: lib.marshal(v).Some? ==> lib.validJson(lib.marshal(v).value))
    && (forall s: string :: |lib.render(Bytes(s))| > |s|)    // a bracketed list of numbers
  }

  /** A float32 holds a float32. */
  predicate WellTyped(lib: Lib, v: Value) {
    v.Float32? ==> lib.round32(v.x) == v.x
  }

  /* ---------- column types ---------- */

  datatype Kind =
    IntKind | BigIntKind | SmallIntKind | FloatKind | DoubleKind | TextKind | BinaryKind
    | TimeKind | BoolKind | JsonKind | UnknownKind

  predicate IsSpace(c: char) { c in {' ', '\t', '\n', '\r', '\U{0B}', '\U{0C}'} }

  function TrimLeft(s: string): string {
    if s != "" && IsSpace(s[0]) then TrimLeft(s[1..]) else s
  }

  function TrimRight(s: string): string {
    if s != "" && IsSpace(s[|s|-1]) then TrimRight(s[..|s|-1]) else s
  }

  function UpperChar(c: char): char {
    if 'a' <= c <= 'z' then c - 'a' + 'A' else c
  }

  function Upper(s: string): string {
    if s == "" then "" else [UpperChar(s[0])] + Upper(s[1..])
  }

  /** The part before the first '(' at or after `from`, or all of it. */
  function CutAtParen(s: string, from: nat): string
    requires from <= |s|
    decreases |s| - from
  {
    if from == |s| then s else if s[from] == '(' then s[..from] else CutAtParen(s, from + 1)
  }

  /** The type name without its size: VARCHAR(255) is VARCHAR. A leading '(' is kept. */
  function BaseType(dbType: string): string {
    var u := Upper(TrimRight(TrimLeft(dbType)));
    if u != "" && u[0] == '(' then u else CutAtParen(u, 0)
  }

  /** The type names the mapper knows. */
  const TYPE_NAMES: seq<(seq<string>, Kind)> := [
    (["INT", "INTEGER", "MEDIUMINT"], IntKind),
    (["BIGINT"], BigIntKind),
    (["SMALLINT", "TINYINT"], SmallIntKind),
    (["FLOAT"], FloatKind),
    (["DOUBLE", "DOUBLE PRECISION", "REAL"], DoubleKind),
    (["DECIMAL", "NUMERIC"], TextKind),
    (["VARCHAR", "CHAR", "TEXT", "LONGTEXT", "MEDIUMTEXT", "TINYTEXT"], TextKind),
    (["BINARY", "VARBINARY", "BLOB", "LONGBLOB", "MEDIUMBLOB", "TINYBLOB"], BinaryKind),
    (["DATE", "DATETIME", "TIMESTAMP", "TIME"], TimeKind),
    (["BOOLEAN", "BOOL", "TINYINT(1)"], BoolKind),
    (["JSON", "JSONB"], JsonKind)]

  /** The switch over type names: the first case that lists the name. */
  function CaseOf(cases: seq<(seq<string>, Kind)>, base: string): Kind {
    if cases == [] then UnknownKind
    else if base in cases[0].0 then cases[0].1
    else CaseOf(cases[1..], base)
  }

  lemma {:induction false} CaseOfAt(cases: seq<(seq<string>, Kind)>, base: string, k: nat)
    requires k <= |cases| && forall j :: 0 <= j < k ==> base !in cases[j].0
    requires k < |cases| ==> base in cases[k].0
    ensures CaseOf(cases, base) == if k < |cases| then cases[k].1 else UnknownKind
  {
    if k > 0 { CaseOfAt(cases[1..], base, k - 1); }
  }

  /** A field outside the schema has no type. */
  lemma NoType()
    ensures KindOf("") == UnknownKind
  {
    hide CaseOf;
    assert BaseType("") == "";
    CaseOfAt(TYPE_NAMES, "", |TYPE_NAMES|);
  }

  function KindOfBase(base: string): Kind { CaseOf(TYPE_NAMES, base) }

  function KindOf(dbType: string): Kind { KindOfBase(BaseType(dbType)) }

  lemma {:induction false} NoParen(s: string, from: nat)
    requires from <= |s| && '(' !in s[..from]
    ensures '(' !in CutAtParen(s, from)
    decreases |s| - from
  {
    if from < |s| && s[from] != '(' {
      assert s[..from+1] == s[..from] + [s[from]];
      NoParen(s, from + 1);
    } else {
      assert s[..|s|] == s;
    }
  }

  /** The case for TINYINT(1) is never taken: no type has that base. */
  lemma NoTinyintOneBase(dbType: string)
    ensures BaseType(dbType) != "TINYINT(1)"
  {
    hide CutAtParen, Upper, TrimLeft, TrimRight;
    NoParen(Upper(TrimRight(TrimLeft(dbType))), 0);
    assert "TINYINT(1)"[7] == '(';
  }

  /** A column of that very type is a small integer. */
  lemma TinyintIsInteger()
    ensures KindOf("TINYINT(1)") == SmallIntKind
  {
    hide CaseOf, BaseType;
    TinyintBase();
    CaseOfAt(TYPE_NAMES, "TINYINT", 2);
  }

  lemma {:induction false} UpperKeeps(s: string)
    requires forall i :: 0 <= i < |s| ==> UpperChar(s[i]) == s[i]
    ensures Upper(s) == s
  {
    if s != "" { UpperKeeps(s[1..]); }
  }

  lemma {:induction false} CutsAt(s: string, from: nat, k: nat)
    requires from <= k < |s| && s[k] == '(' && forall i :: from <= i < k ==> s[i] != '('
    ensures CutAtParen(s, from) == s[..k]
    decreases k - from
  {
    if from < k { CutsAt(s, from + 1, k); }
  }

  lemma TinyintBase()
    ensures BaseType("TINYINT(1)") == "TINYINT"
  {
    hide CutAtParen, Upper;
    var t := "TINYINT(1)";
    assert TrimLeft(t) == t && TrimRight(t) == t;
    UpperKeeps(t);
    CutsAt(t, 0, 7);
    assert t[..7] == "TINYINT";
  }

  /* ---------- conversions ---------- */

  /** Go's conversion to a signed type keeps the low bits. */
  function Wrap(bits: nat, n: int): (r: int)
    requires bits > 0
    ensures FitsSigned(bits, r)
    ensures FitsSigned(bits, n) ==> r == n
    ensures exists q :: n == r + q * PowTwo(bits)
  {
    var h := PowTwo(bits - 1);
    assert PowTwo(bits) == 2 * h;
    assert 0 <= n + h < 2 * h ==> (n + h) % (2 * h) == n + h by {
      if 0 <= n + h < 2 * h { Binary64.DivModUnique(n + h, 2 * h, 0, n + h); }
    }
    assert n == (n + h) % PowTwo(bits) - h + ((n + h) / PowTwo(bits)) * PowTwo(bits);
    (n + h) % PowTwo(bits) - h
  }

  /** Truncation toward zero. */
  function Trunc(x: real): int {
    if x >= 0.0 then x.Floor else 0 - (0.0 - x).Floor
  }

  function FloatToInt(lib: Lib, bits: nat, x: real): int
    requires bits > 0
  {
    if FitsSigned(bits, Trunc(x)) then Trunc(x) else lib.floatToInt(bits, x)
  }

  function ToInteger(lib: Lib, v: Value, bits: nat): Option<int>
    requires bits > 0
  {
    match v
    case Int(_, n) => Some(Wrap(bits, n))
    case Float32(x) => Some(FloatToInt(lib, bits, x))
    case Float64(x) => Some(FloatToInt(lib, bits, x))
    case Str(s) => ParseInt(s, bits)
    case _ => None
  }

  function Tagged(t: IntType, n: Option<int>): Option<Value> {
    if n.Some? then Some(Int(t, n.value)) else None
  }

  /** `toInt16` has no case for uint32 and uint64. */
  function ToInt16(lib: Lib, v: Value): Option<Value> {
    if v.Int? && v.t in {Uint32, Uint64} then None else Tagged(Int16, ToInteger(lib, v, 16))
  }

  function ToFloat32(lib: Lib, v: Value): Option<Value> {
    match v
    case Float32(x) => Some(v)
    case Float64(x) => Some(Float32(lib.round32(x)))
    case Int(t, n) => if t in {GoInt, Int64} then Some(Float32(lib.round32(n as real))) else None
    case Str(s) =>
      var f := lib.parseFloat(s, 32);
      if f.Some? then Some(Float32(lib.round32(f.value))) else None
    case _ => None
  }

  function ToFloat64(lib: Lib, v: Value): Option<Value> {
    match v
    case Float64(x) => Some(v)
    case Float32(x) => Some(Float64(x))
    case Int(t, n) => if t in {GoInt, Int64} then Some(Float64(Binary64.Round(n) as real)) else None
    case Str(s) =>
      var f := lib.parseFloat(s, 64);
      if f.Some? then Some(Float64(f.value)) else None
    case _ => None
  }

  function ToText(lib: Lib, v: Value): Option<string> {
    match v
    case Str(s) => Some(s)
    case Bytes(s) => Some(s)
    case Int(_, n) => Some(Dec(n))
    case Float32(x) => Some(lib.formatFloat(x))
    case Float64(x) => Some(lib.formatFloat(x))
    case Bool(b) => Some(if b then "true" else "false")
    case Time(t) => Some(lib.formatTime(t))
    case _ => lib.marshal(v)
  }

  function Texted(s: Option<string>): Option<Value> {
    if s.Some? then Some(Str(s.value)) else None
  }

  function ToBytes(v: Value): Option<Value> {
    match v
    case Bytes(_) => Some(v)
    case Str(s) => Some(Bytes(s))
    case _ => None
  }

  function ToTime(lib: Lib, v: Value): Option<Value> {
    match v
    case Time(_) => Some(v)
    case Str(s) =>
      var t := lib.parseTime(s);
      if t.Some? then Some(Time(t.value)) else None
    case Int(t, n) => if t == Int64 then Some(Time(n * 1_000_000_000)) else None
    case _ => None
  }

  function ToBool(v: Value): Option<Value> {
    match v
    case Bool(_) => Some(v)
    case Int(_, n) => Some(Bool(n != 0))
    case Str(s) =>
      if ParseBool(s).Some? then Some(Bool(ParseBool(s).value))
      else if ParseInt(s, 64).Some? then Some(Bool(ParseInt(s, 64).value != 0))
      else None
    case _ => None
  }

  function ToJson(lib: Lib, v: Value): Option<Value> {
    match v
    case Str(s) => if lib.validJson(s) then Some(v) else None
    case Bytes(s) => if lib.validJson(s) then Some(Str(s)) else None
    case _ => Texted(lib.marshal(v))
  }

  /** The switch shared by both directions, for a non-nil value. */
  function Convert(lib: Lib, v: Value, kind: Kind): Option<Value> {
    match kind
    case IntKind => Tagged(GoInt, ToInteger(lib, v, 64))
    case BigIntKind => Tagged(Int64, ToInteger(lib, v, 64))
    case SmallIntKind => ToInt16(lib, v)
    case FloatKind => ToFloat32(lib, v)
    case DoubleKind => ToFloat64(lib, v)
    case TextKind => Texted(ToText(lib, v))
    case BinaryKind => ToBytes(v)
    case TimeKind => ToTime(lib, v)
    case BoolKind => ToBool(v)
    case JsonKind => ToJson(lib, v)
    case UnknownKind => Texted(ToText(lib, v))
  }

  /** `ConvertToDBValue`; `None` is its error return. */
  function ConvertToDB(lib: Lib, v: Value, dbType: string): Option<Value> {
    if v.Nil? then Some(Nil) else Convert(lib, v, KindOf(dbType))
  }

  /** `ConvertFromDBValue`: the same switch, except that unknown types pass through. */
  function ConvertFromDB(lib: Lib, v: Value, dbType: string): Option<Value> {
    if v.Nil? then Some(Nil)
    else if KindOf(dbType) == UnknownKind then Some(v)
    else Convert(lib, v, KindOf(dbType))
  }

  /** `%v`. */
  function Render(lib: Lib, v: Value): string {
    match v
    case Int(_, n) => Dec(n)
    case Str(s) => s
    case Bool(b) => if b then "true" else "false"
    case _ => lib.render(v)
  }

  /* ---------- JSON ---------- */

  /** A scalar of a JSON document. `JInt` is an integer literal with its exact digits,
      `JFloat` any other number literal, named by the float64 it is read as. */
  datatype Json = JNull | JBool(b: bool) | JInt(n: int) | JFloat(x: real) | JText(s: string) | JComposite(id: int)

  /** How `json.Marshal` prints a float64: small whole numbers as plain integers. */
  function NumberLiteral(x: real): Json {
    if x == x.Floor as real && -Binary64.TWO53 <= x.Floor <= Binary64.TWO53 then JInt(x.Floor) else JFloat(x)
  }

  /** `json.Marshal` of a value with valid UTF-8 text. */
  function Encode(lib: Lib, v: Value): Json {
    match v
    case Nil => JNull
    case Int(_, n) => JInt(n)
    case Float32(x) => NumberLiteral(lib.read32(x))
    case Float64(x) => NumberLiteral(x)
    case Str(s) => JText(s)
    case Bytes(s) => JText(lib.base64(s))
    case Bool(b) => JBool(b)
    case Time(t) => JText(lib.formatNanoTime(t))
    case Composite(id) => JComposite(id)
  }

  /** `json.Unmarshal` into an `interface{}`: every number becomes a float64. */
  function Decode(j: Json): Value {
    match j
    case JNull => Nil
    case JBool(b) => Bool(b)
    case JInt(n) => Float64(Binary64.Round(n) as real)
    case JFloat(x) => Float64(x)
    case JText(s) => Str(s)
    case JComposite(id) => Composite(id)
  }

  /** Integers that binary64 holds exactly. */
  predicate Within53(v: Value) {
    v.Int? ==> -Binary64.TWO53 <= v.n <= Binary64.TWO53
  }

  /** Decoding a document and encoding it again gives the same document, as long as its
      integers are within 2^53. */
  lemma EncodeDecode(lib: Lib, j: Json)
    requires j.JInt? ==> -Binary64.TWO53 <= j.n <= Binary64.TWO53
    requires j.JFloat? ==> NumberLiteral(j.x) == j
    ensures Encode(lib, Decode(j)) == j
  {
    if j.JInt? {
      Binary64.RoundIdempotent(j.n);
    }
  }

  /* ---------- the value laws ---------- */

  lemma WidthsNest()
    ensures PowTwo(15) == 0x8000 && PowTwo(63) == Binary64.TWO63
    ensures forall n :: -Binary64.TWO53 <= n <= Binary64.TWO53 ==> FitsSigned(64, n)
  {
    assert PowTwo(5) == 32;
    assert PowTwo(10) == 1024;
    assert PowTwo(15) == 0x8000;
    assert PowTwo(20) == 0x10_0000;
    assert PowTwo(25) == 0x200_0000;
    assert PowTwo(30) == 0x4000_0000;
    assert PowTwo(35) == 0x8_0000_0000;
    assert PowTwo(40) == 0x100_0000_0000;
    assert PowTwo(45) == 0x2000_0000_0000;
    assert PowTwo(50) == 0x4_0000_0000_0000;
    assert PowTwo(55) == 0x80_0000_0000_0000;
    assert PowTwo(60) == 0x1000_0000_0000_0000;
  }

  /** Converting a converted value changes nothing, whatever the column type. */
  lemma ConvertIdempotent(lib: Lib, v: Value, kind: Kind)
    requires Lawful(lib)
    requires Convert(lib, v, kind).Some?
    ensures Convert(lib, Convert(lib, v, kind).value, kind) == Convert(lib, v, kind)
    ensures !Convert(lib, v, kind).value.Nil?
  {
    if kind.IntKind? || kind.BigIntKind? || kind.SmallIntKind? {
      IntegerIdempotent(lib, v, kind);
    }
  }

  lemma IntegerIdempotent(lib: Lib, v: Value, kind: Kind)
    requires Lawful(lib) && (kind.IntKind? || kind.BigIntKind? || kind.SmallIntKind?)
    requires Convert(lib, v, kind).Some?
    ensures Convert(lib, Convert(lib, v, kind).value, kind) == Convert(lib, v, kind)
    ensures !Convert(lib, v, kind).value.Nil?
  {
    match kind
    case SmallIntKind => assert Convert(lib, v, kind).value.t == Int16;
    case _ =>
  }

  lemma ConvertedWellTyped(lib: Lib, v: Value, kind: Kind)
    requires Lawful(lib) && WellTyped(lib, v)
    requires Convert(lib, v, kind).Some?
    ensures WellTyped(lib, Convert(lib, v, kind).value)
  {
    if kind == FloatKind {
      match v
      case Float64(x) => assert lib.round32(lib.round32(x)) == lib.round32(x);
      case Int(_, n) => assert lib.round32(lib.round32(n as real)) == lib.round32(n as real);
      case Str(s) =>
        var x := lib.parseFloat(s, 32).value;
        assert lib.round32(lib.round32(x)) == lib.round32(x);
      case _ =>
    }
  }

  /** The JSON trip of an integer column: out through its digits, back through a float64. */
  lemma IntegerTrip(lib: Lib, n: int, bits: nat)
    requires Lawful(lib) && bits in {16, 64} && FitsSigned(bits, n)
    requires -Binary64.TWO53 <= n <= Binary64.TWO53
    ensures ToInteger(lib, Decode(JInt(n)), bits) == Some(n)
  {
    Binary64.RoundIdempotent(n);
  }

  lemma ReadBackOfKind(lib: Lib, v: Value, kind: Kind)
    requires Lawful(lib) && WellTyped(lib, v) && kind != BinaryKind && kind != UnknownKind
    requires Convert(lib, v, kind).Some? && Within53(Convert(lib, v, kind).value)
    ensures Convert(lib, Decode(Encode(lib, Convert(lib, v, kind).value)), kind) == Convert(lib, v, kind)
  {
    var w := Convert(lib, v, kind).value;
    ConvertIdempotent(lib, v, kind);
    match kind
    case IntKind => IntegerTrip(lib, w.n, 64);
    case BigIntKind => IntegerTrip(lib, w.n, 64);
    case SmallIntKind => IntegerTrip(lib, w.n, 16);
    case FloatKind =>
      ConvertedWellTyped(lib, v, kind);
      FloatReadBack(lib.read32(w.x));
    case DoubleKind => FloatReadBack(w.x);
    case _ =>
  }

  /** A converted value read back from its JSON form is that converted value: every column
      type except binary, whose base64 text is not decoded again. */
  lemma ReadBack(lib: Lib, v: Value, dbType: string)
    requires Lawful(lib) && WellTyped(lib, v) && KindOf(dbType) != BinaryKind
    requires ConvertToDB(lib, v, dbType).Some?
    requires Within53(ConvertToDB(lib, v, dbType).value)
    ensures ConvertFromDB(lib, Decode(Encode(lib, ConvertToDB(lib, v, dbType).value)), dbType)
         == ConvertToDB(lib, v, dbType)
  {
    var kind := KindOf(dbType);
    if !v.Nil? && kind != UnknownKind {
      ConvertIdempotent(lib, v, kind);
      ReadBackOfKind(lib, v, kind);
      assert !Decode(Encode(lib, Convert(lib, v, kind).value)).Nil?;
    }
  }

  lemma FloatReadBack(x: real)
    ensures Decode(NumberLiteral(x)) == Float64(x)
  {
    if NumberLiteral(x).JInt? {
      Binary64.RoundIdempotent(x.Floor);
    }
  }

  /** KV round trip of one value: encode, decode, encode again. */
  lemma ValueRoundTrip(lib: Lib, v: Value, dbType: string)
    requires Lawful(lib) && WellTyped(lib, v) && KindOf(dbType) != BinaryKind
    requires ConvertToDB(lib, v, dbType).Some?
    requires Within53(ConvertToDB(lib, v, dbType).value)
    ensures var w := ConvertToDB(lib, v, dbType).value;
            var back := ConvertFromDB(lib, Decode(Encode(lib, w)), dbType);
            && back.Some?
            && ConvertToDB(lib, back.value, dbType).Some?
            && Encode(lib, ConvertToDB(lib, back.value, dbType).value) == Encode(lib, w)
  {
    ReadBack(lib, v, dbType);
    if !v.Nil? {
      ConvertIdempotent(lib, v, KindOf(dbType));
    }
  }

  /** The integer an integer column holds after one trip through the cache. */
  function Trip(lib: Lib, n: int): Option<int> { ToInteger(lib, Decode(JInt(n)), 64) }

  lemma TripIsRounding(lib: Lib, n: int)
    requires FitsSigned(64, Binary64.Round(n))
    ensures Trip(lib, n) == Some(Binary64.Round(n))
  {
    var r := Binary64.Round(n);
    assert (r as real).Floor == r && (0.0 - r as real).Floor == 0 - r;
  }

  /** Beyond 2^53 a cached integer drifts to its nearest binary64 neighbour, once: for
      every int64 below 2^63 - 2^9 a second trip changes nothing more. */
  lemma DriftHappensOnce(lib: Lib, n: int)
    requires -Binary64.TWO63 <= n < Binary64.TWO63 - 512
    ensures Trip(lib, n) == Some(Binary64.Round(n))
    ensures Trip(lib, Trip(lib, n).value) == Trip(lib, n)
  {
    WidthsNest();
    Binary64.FitsInt64AfterRounding(n);
    Binary64.RoundIdempotent(n);
    TripIsRounding(lib, n);
    TripIsRounding(lib, Binary64.Round(n));
  }

  /** From 2^63 - 2^9 on the float64 is 2^63, which no int64 holds: the result is whatever
      the platform's conversion gives. */
  lemma TopIntegersOverflow(lib: Lib, n: int)
    requires Binary64.TWO63 - 512 <= n < Binary64.TWO63
    ensures Trip(lib, n) == Some(lib.floatToInt(64, Binary64.TWO63 as real))
  {
    WidthsNest();
    Binary64.RoundBelow(n);
    Binary64.FitsInt64AfterRounding(n);
  }

  /* ---------- the database driver ---------- */

  /** What the driver hands back when a stored value is scanned: whole numbers as int64,
      text and documents as bytes. */
  function Scan(v: Value): Value {
    match v
    case Int(_, n) => Int(Int64, n)
    case Str(s) => Bytes(s)
    case Bool(b) => Int(Int64, if b then 1 else 0)
    case _ => v
  }

  lemma ScanConvertsOfKind(lib: Lib, v: Value, kind: Kind)
    requires Lawful(lib) && Convert(lib, v, kind).Some?
    ensures Convert(lib, Scan(Convert(lib, v, kind).value), kind) == Convert(lib, v, kind)
    ensures !Scan(Convert(lib, v, kind).value).Nil?
  {
    if kind.IntKind? || kind.BigIntKind? || kind.SmallIntKind? {
      IntegerScans(lib, v, kind);
    } else {
      ConvertIdempotent(lib, v, kind);
    }
  }

  lemma IntegerScans(lib: Lib, v: Value, kind: Kind)
    requires Lawful(lib) && Convert(lib, v, kind).Some? && (kind.IntKind? || kind.BigIntKind? || kind.SmallIntKind?)
    ensures Convert(lib, Scan(Convert(lib, v, kind).value), kind) == Convert(lib, v, kind)
    ensures !Scan(Convert(lib, v, kind).value).Nil?
  {
    IntegerIdempotent(lib, v, kind);
  }

  /** A scanned value converts back to the stored one. */
  lemma ScanConverts(lib: Lib, v: Value, dbType: string)
    requires Lawful(lib)
    requires ConvertToDB(lib, v, dbType).Some?
    ensures ConvertToDB(lib, Scan(ConvertToDB(lib, v, dbType).value), dbType) == ConvertToDB(lib, v, dbType)
  {
    if !v.Nil? {
      ScanConvertsOfKind(lib, v, KindOf(dbType));
    }
  }
}
