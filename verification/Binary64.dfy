/** Integers through IEEE 754 binary64: what happens to a JSON number (section 6 of
    RFC 8259) when Go decodes it into a float64. */
module Binary64 {

  const TWO52: int := 0x10_0000_0000_0000
  const TWO53: int := 0x20_0000_0000_0000
  const TWO63: int := 0x8000_0000_0000_0000

  /** The spacing of binary64 values around `m`. */
  function Quantum(m: nat): (q: nat)
    ensures q >= 1
  {
    if m < TWO53 then 1 else 2 * Quantum(m / 2)
  }

  /** Round to nearest, ties to even: `strconv.ParseFloat` of an integer literal. */
  function RoundNat(m: nat): nat {
    RoundTo(m, Quantum(m))
  }

  /** The multiple of `q` nearest to `m`, the even one on a tie. */
  function RoundTo(m: nat, q: nat): (x: nat)
    requires q >= 1
    ensures x == m / q * q || x == (m / q + 1) * q
  {
    var s, r := m / q, m % q;
    if 2 * r < q || (2 * r == q && s % 2 == 0) then s * q else (s + 1) * q
  }

  function Round(n: int): int {
    if n < 0 then 0 - RoundNat(-n) else RoundNat(n)
  }

  /** Reference definition: a significand below 2^53 followed by zero bits. */
  predicate Representable(m: nat) {
    m < TWO53 || (m % 2 == 0 && Representable(m / 2))
  }

  predicate PowerOfTwo(q: nat) {
    q == 1 || (q > 0 && q % 2 == 0 && PowerOfTwo(q / 2))
  }

  lemma MulMonotone(a: int, b: int, q: int)
    requires a <= b && q >= 0
    ensures a * q <= b * q
  {
    assert (b - a) * q >= 0;
  }

  lemma DivModUnique(m: int, n: int, d: int, r: int)
    requires n > 0 && 0 <= r < n && m == d * n + r
    ensures m / n == d && m % n == r
  {
    var d' := m / n;
    assert m == d' * n + m % n;
    if d > d' {
      MulMonotone(d' + 1, d, n);
      assert false;
    } else if d < d' {
      MulMonotone(d + 1, d', n);
      assert false;
    }
  }

  lemma {:induction false} QuantumIsPower(m: nat)
    ensures PowerOfTwo(Quantum(m))
  {
    if m >= TWO53 {
      QuantumIsPower(m / 2);
    }
  }

  lemma {:induction false} QuantumBounds(m: nat)
    ensures m < TWO53 * Quantum(m)
    ensures m >= TWO53 ==> TWO52 * Quantum(m) <= m
  {
    if m >= TWO53 {
      QuantumBounds(m / 2);
    }
  }

  lemma {:induction false} QuantumOfRange(x: nat, q: nat)
    requires PowerOfTwo(q) && q >= 2
    requires TWO52 * q <= x < TWO53 * q
    ensures Quantum(x) == q
  {
    var h := q / 2;
    assert q == 2 * h;
    if h > 1 {
      assert TWO52 * h <= x / 2 < TWO53 * h;
      QuantumOfRange(x / 2, h);
    }
  }

  lemma {:induction false} RepresentableIsMultiple(m: nat)
    ensures Representable(m) <==> m % Quantum(m) == 0
  {
    if m >= TWO53 {
      var q := Quantum(m / 2);
      RepresentableIsMultiple(m / 2);
      var d, e := (m / 2) / q, (m / 2) % q;
      assert m / 2 == d * q + e;
      assert m == d * (2 * q) + (2 * e + m % 2) by { assert d * (2 * q) == 2 * (d * q); }
      DivModUnique(m, 2 * q, d, 2 * e + m % 2);
    }
  }

  lemma {:induction false} ScaledRepresentable(s: nat, q: nat)
    requires s <= TWO53 && PowerOfTwo(q)
    ensures Representable(s * q)
  {
    if s * q >= TWO53 && q > 1 {
      var h := q / 2;
      assert q == 2 * h;
      assert s * q == 2 * (s * h);
      ScaledRepresentable(s, h);
    }
  }

  /** A number with `q` as its quantum is less than 2^53 whole quanta. */
  lemma QuotientBounds(m: nat, q: nat)
    requires q >= 1 && m < TWO53 * q
    ensures 0 <= m / q < TWO53
    ensures TWO52 * q <= m ==> TWO52 <= m / q
    ensures m == m / q * q + m % q
  {
    var s := m / q;
    assert m == s * q + m % q;
    if s >= TWO53 {
      MulMonotone(TWO53, s, q);
      assert false;
    }
    if s < TWO52 && TWO52 * q <= m {
      MulMonotone(s + 1, TWO52, q);
      assert false;
    }
  }

  lemma RoundToFixes(m: nat, q: nat)
    requires q >= 1
    ensures RoundTo(m, q) == m <==> m % q == 0
  {
    var s := m / q;
    assert m == s * q + m % q;
    assert (s + 1) * q == s * q + q;
  }

  /** Rounding lands on a binary64 value, and moves nothing that is one already. */
  lemma RoundNatExact(m: nat)
    ensures Representable(RoundNat(m))
    ensures RoundNat(m) == m <==> Representable(m)
  {
    var q := Quantum(m);
    QuantumBounds(m);
    QuantumIsPower(m);
    RepresentableIsMultiple(m);
    QuotientBounds(m, q);
    RoundToFixes(m, q);
    ScaledRepresentable(m / q, q);
    ScaledRepresentable(m / q + 1, q);
  }

  function Distance(a: int, b: int): int { if a < b then b - a else a - b }

  /** Multiples of `q`: the chosen one is as near as anything outside the open gap around `m`. */
  lemma RoundToNearest(m: nat, q: nat, x: int)
    requires q >= 1
    requires x <= m / q * q || (m / q + 1) * q <= x
    ensures Distance(RoundTo(m, q), m) <= Distance(x, m)
  {
    var s := m / q;
    assert m == s * q + m % q;
    assert (s + 1) * q == s * q + q;
  }

  /** There is no binary64 value strictly between two neighbouring multiples of the quantum. */
  lemma NothingInTheGap(m: nat, x: nat)
    requires Representable(x)
    ensures x <= m / Quantum(m) * Quantum(m) || (m / Quantum(m) + 1) * Quantum(m) <= x
  {
    var q := Quantum(m);
    var s := m / q;
    assert (s + 1) * q == s * q + q;
    if q > 1 && s * q < x < s * q + q {
      QuantumBounds(m);
      QuantumIsPower(m);
      QuotientBounds(m, q);
      MulMonotone(TWO52, s, q);
      MulMonotone(s + 1, TWO53, q);
      QuantumOfRange(x, q);
      RepresentableIsMultiple(x);
      DivModUnique(x, q, s, x - s * q);
      assert false;
    }
  }

  /** No binary64 integer is nearer to `m` than the one chosen. */
  lemma RoundNatNearest(m: nat, x: nat)
    requires Representable(x)
    ensures Distance(RoundNat(m), m) <= Distance(x, m)
  {
    NothingInTheGap(m, x);
    RoundToNearest(m, Quantum(m), x);
  }

  /** When another binary64 integer is as near, the chosen one is the even multiple of the gap
      between them. */
  lemma TiesToEven(m: nat, x: nat)
    requires Representable(x) && x != RoundNat(m) && Distance(RoundNat(m), m) == Distance(x, m)
    ensures var gap := Distance(x, RoundNat(m)); gap > 0 && RoundNat(m) % (2 * gap) == 0
  {
    NothingInTheGap(m, x);
    TieTo(m, Quantum(m), x);
  }

  lemma TieTo(m: nat, q: nat, x: nat)
    requires q >= 1 && (x <= m / q * q || (m / q + 1) * q <= x)
    requires x != RoundTo(m, q) && Distance(RoundTo(m, q), m) == Distance(x, m)
    ensures Distance(x, RoundTo(m, q)) == q && RoundTo(m, q) % (2 * q) == 0
  {
    hide RoundTo;
    var s, r := m / q, m % q;
    var lo := s * q;
    assert m == lo + r && (s + 1) * q == lo + q;
    RoundToIs(m, q);
    TieInGap(m, lo, q, r, x, RoundTo(m, q));
    EvenMultiple(if s % 2 == 0 then s else s + 1, q);
  }

  lemma RoundToIs(m: nat, q: nat)
    requires q >= 1
    ensures 2 * (m % q) < q ==> RoundTo(m, q) == m / q * q
    ensures 2 * (m % q) > q ==> RoundTo(m, q) == (m / q + 1) * q
    ensures 2 * (m % q) == q ==> RoundTo(m, q) == (if (m / q) % 2 == 0 then m / q else m / q + 1) * q
  {
  }

  lemma TieInGap(m: nat, lo: nat, q: nat, r: nat, x: nat, y: nat)
    requires m == lo + r && r < q && (x <= lo || lo + q <= x)
    requires (2 * r < q ==> y == lo) && (2 * r > q ==> y == lo + q) && (y == lo || y == lo + q)
    requires x != y && Distance(x, m) == Distance(y, m)
    ensures 2 * r == q && Distance(x, y) == q
  {
  }

  lemma EvenMultiple(k: nat, q: nat)
    requires k % 2 == 0 && q >= 1
    ensures (k * q) % (2 * q) == 0
  {
    var h := k / 2;
    assert k == 2 * h;
    assert k * q == h * (2 * q);
    DivModUnique(k * q, 2 * q, h, 0);
  }

  /** Drift happens at most once. */
  lemma RoundIdempotent(n: int)
    ensures Round(Round(n)) == Round(n)
    ensures -TWO53 <= n <= TWO53 ==> Round(n) == n
  {
    var m: nat := if n < 0 then -n else n;
    RoundNatExact(m);
    RoundNatExact(RoundNat(m));
    if m == TWO53 {
      assert Representable(TWO53);
    }
  }

  lemma Powers()
    ensures PowerOfTwo(1024) && PowerOfTwo(2048)
  {
    assert PowerOfTwo(16);
    assert PowerOfTwo(128);
    assert PowerOfTwo(1024);
  }

  lemma RoundBelow(m: nat)
    requires m < TWO63
    ensures RoundNat(m) <= TWO63
    ensures RoundNat(m) < TWO63 <==> m < TWO63 - 512
  {
    Powers();
    if m >= TWO63 / 2 {
      QuantumOfRange(m, 1024);
    } else {
      ScaledRepresentable(TWO52, 1024);
      RoundNatNearest(m, TWO63 / 2);
    }
  }

  /** Exactly when the decoded number still converts back to an int64. */
  lemma FitsInt64AfterRounding(n: int)
    requires -TWO63 <= n < TWO63
    ensures -TWO63 <= Round(n) < TWO63 <==> n < TWO63 - 512
  {
    if n == -TWO63 {
      Powers();
      ScaledRepresentable(TWO52, 2048);
      RoundNatExact(TWO63);
    } else if n < 0 {
      RoundBelow(-n);
    } else {
      RoundBelow(n);
    }
  }

  /** Beyond 2^53 the first pass does drift: 2^53 + 1 comes back as 2^53. */
  lemma DriftExample()
    ensures Round(TWO53 + 1) == TWO53
  {
    assert Quantum(TWO53 + 1) == 2;
  }
}
