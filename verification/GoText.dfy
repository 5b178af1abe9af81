/** The pieces of Go's text formatting and parsing that the repository relies on:
    `%d` / `%v` of integers, `strconv.ParseInt` and `strconv.ParseBool`, and the two
    facts about separators that make composite keys readable back. */
module GoText {

  datatype Option<+T> = None | Some(value: T)

  /* ---------- decimal rendering ---------- */

  function Digit(d: nat): (c: char)
    requires d < 10
    ensures '0' <= c <= '9' && c as int - '0' as int == d
  {
    '0' + d as char
  }

  predicate IsDigit(c: char) { '0' <= c <= '9' }

  predicate AllDigits(s: string) { forall i :: 0 <= i < |s| ==> IsDigit(s[i]) }

  function DecNat(n: nat): (s: string)
    ensures s != "" && AllDigits(s)
  {
    if n < 10 then [Digit(n)] else DecNat(n / 10) + [Digit(n % 10)]
  }

  /** `fmt.Sprintf("%d", n)`. */
  function Dec(n: int): (s: string)
    ensures s != ""
  {
    if n < 0 then "-" + DecNat(-n) else DecNat(n)
  }

  /** The number a digit string denotes; the reading half of `DecNat`. */
  function DigitsValue(s: string): nat
    requires AllDigits(s)
  {
    if s == "" then 0 else 10 * DigitsValue(s[..|s|-1]) + (s[|s|-1] as int - '0' as int)
  }

  lemma {:induction false} DigitsValueOfDec(n: nat)
    ensures DigitsValue(DecNat(n)) == n
  {
    if n >= 10 {
      DigitsValueOfDec(n / 10);
      assert DecNat(n)[..|DecNat(n)|-1] == DecNat(n / 10);
    }
  }

  /** Rendering an integer loses nothing, and never yields a separator. */
  lemma DecInjective(a: int, b: int)
    ensures Dec(a) == Dec(b) <==> a == b
    ensures ':' !in Dec(a) && '_' !in Dec(a)
  {
    if Dec(a) == Dec(b) {
      assert a < 0 <==> Dec(a)[0] == '-';
      assert b < 0 <==> Dec(b)[0] == '-';
      if a < 0 {
        assert DecNat(-a) == Dec(a)[1..] == DecNat(-b);
        DigitsValueOfDec(-a);
        DigitsValueOfDec(-b);
      } else {
        DigitsValueOfDec(a);
        DigitsValueOfDec(b);
      }
    }
  }

  /* ---------- separators ---------- */

  /** A text is split unambiguously at its first separator. */
  lemma SplitAtFirst(c: char, p: string, x: string, q: string, y: string)
    requires c !in p && c !in q
    requires p + [c] + x == q + [c] + y
    ensures p == q && x == y
  {
    var s := p + [c] + x;
    assert s[|p|] == c && s[|q|] == c;
    assert forall i :: 0 <= i < |p| ==> s[i] == p[i];
    assert forall i :: 0 <= i < |q| ==> s[i] == q[i];
    assert |p| == |q|;
    assert p == s[..|p|] == (q + [c] + y)[..|q|] == q;
    assert x == s[|p|+1..] == (q + [c] + y)[|q|+1..] == y;
  }

  /** A text is split unambiguously at its last separator. */
  lemma SplitAtLast(c: char, x: string, p: string, y: string, q: string)
    requires c !in p && c !in q
    requires x + [c] + p == y + [c] + q
    ensures x == y && p == q
  {
    var s, t := x + [c] + p, y + [c] + q;
    assert s[|x|] == c && s[|y|] == c;
    assert forall i :: |x| < i < |s| ==> s[i] == p[i - |x| - 1];
    assert forall i :: |y| < i < |s| ==> s[i] == q[i - |y| - 1];
    assert |x| == |y|;
    assert x == s[..|x|] == t[..|y|] == y;
    assert p == s[|x|+1..] == t[|y|+1..] == q;
  }

  lemma CancelPrefix(a: string, x: string, y: string)
    requires a + x == a + y
    ensures x == y
  {
    assert x == (a + x)[|a|..] == (a + y)[|a|..] == y;
  }

  /* ---------- parsing ---------- */

  function PowTwo(k: nat): (p: int)
    ensures p >= 1
  {
    if k == 0 then 1 else 2 * PowTwo(k - 1)
  }

  /** Whether `n` is a value of Go's signed integer type of the given width. */
  predicate FitsSigned(bits: nat, n: int)
    requires bits > 0
  {
    -PowTwo(bits - 1) <= n < PowTwo(bits - 1)
  }

  /** `strconv.ParseInt(s, 10, bits)`; `strconv.Atoi` is the 64-bit case. */
  function ParseInt(s: string, bits: nat): (r: Option<int>)
    requires bits > 0
    ensures r.Some? ==> FitsSigned(bits, r.value)
  {
    var signed := s != "" && (s[0] == '-' || s[0] == '+');
    var digits := if signed then s[1..] else s;
    if digits == "" || !AllDigits(digits) then None
    else
      var n := if signed && s[0] == '-' then -(DigitsValue(digits) as int) else DigitsValue(digits);
      if FitsSigned(bits, n) then Some(n) else None
  }

  /** `strconv.ParseBool`. */
  function ParseBool(s: string): Option<bool> {
    if s in {"1", "t", "T", "TRUE", "true", "True"} then Some(true)
    else if s in {"0", "f", "F", "FALSE", "false", "False"} then Some(false)
    else None
  }
}
