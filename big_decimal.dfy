/** The part of `java.math.BigDecimal` that `aRandomDecimal` uses: a decimal is an
    unscaled integer and a scale, rounding to a precision is HALF_UP, and moving
    the decimal point raises the scale. Values are exact integers; nothing here is
    floating point. */
module BigDecimal {

  /** The number `unscaled * 10^(-scale)`. */
  datatype Decimal = Decimal(unscaled: int, scale: int)

  function Pow10(n: nat): (p: nat)
    ensures p >= 1
    ensures n >= 1 ==> p >= 10
  {
    if n == 0 then 1 else 10 * Pow10(n - 1)
  }

  function Abs(x: int): nat {
    if x < 0 then -x else x
  }

  /** The number of decimal digits of `m` (zero has one). */
  function Digits(m: nat): (k: nat)
    ensures k >= 1
    ensures m >= 10 ==> k >= 2
  {
    if m < 10 then 1 else 1 + Digits(m / 10)
  }

  /** `BigDecimal.precision()`: the digits of the unscaled value. */
  function Precision(d: Decimal): nat {
    Digits(Abs(d.unscaled))
  }

  /** A number has at most `k` digits exactly when it is below 10^k. */
  lemma {:induction false} DigitsWithin(m: nat, k: nat)
    requires k >= 1
    ensures Digits(m) <= k <==> m < Pow10(k)
    decreases k
  {
    if m >= 10 && k >= 2 {
      DigitsWithin(m / 10, k - 1);
    }
  }

  /** `q` is `m / p` rounded HALF_UP: `q * p` lies within half of `p` of `m`,
      and at an exact half the larger candidate is taken (away from zero, as
      `m` is a magnitude). */
  predicate HalfUpOf(q: nat, m: nat, p: nat) {
    2 * (q * p) - p <= 2 * m < 2 * (q * p) + p
  }

  /** `m / p` rounded HALF_UP: a remainder of half of `p` or more rounds up. */
  function HalfUpQuotient(m: nat, p: nat): (q: nat)
    requires p >= 1
    ensures HalfUpOf(q, m, p)
    ensures p >= 10 && m >= 10 ==> q < m
  {
    DivisionFacts(m, p);
    if 2 * (m % p) >= p then m / p + 1 else m / p
  }

  lemma DivisionFacts(m: nat, p: nat)
    requires p >= 1
    ensures m / p >= 0 && m == (m / p) * p + m % p && 0 <= m % p < p
    ensures (m / p + 1) * p == (m / p) * p + p
    ensures p >= 10 && m >= 10 ==> m / p + 1 < m
  {
  }

  /** Removes the `k` lowest digits of the unscaled value, rounding HALF_UP (a
      discarded half or more raises the magnitude by one, so ties go away from
      zero), and lowers the scale by `k` so that the value is kept as nearly as
      the remaining digits allow. */
  function DropDigits(d: Decimal, k: nat): (r: Decimal)
    ensures r.scale == d.scale - k
    ensures Abs(r.unscaled) == HalfUpQuotient(Abs(d.unscaled), Pow10(k))
    ensures (d.unscaled < 0 ==> r.unscaled <= 0) && (d.unscaled >= 0 ==> r.unscaled >= 0)
  {
    var q: int := HalfUpQuotient(Abs(d.unscaled), Pow10(k));
    Decimal(if d.unscaled < 0 then -q else q, d.scale - k)
  }

  lemma {:induction false} Pow10Add(a: nat, b: nat)
    ensures Pow10(a + b) == Pow10(b) * Pow10(a)
    decreases a
  {
    if a > 0 {
      Pow10Add(a - 1, b);
      assert Pow10(a + b) == 10 * Pow10(a - 1 + b);
      MultiplyAssociates(Pow10(b), 10, Pow10(a - 1));
    }
  }

  lemma MultiplyAssociates(a: int, b: int, c: int)
    ensures a * (b * c) == b * (a * c)
  {
  }

  lemma {:induction false} DigitsOfPow10(n: nat)
    ensures Digits(Pow10(n)) == n + 1
  {
    if n > 0 {
      assert Pow10(n) / 10 == Pow10(n - 1);
      DigitsOfPow10(n - 1);
    }
  }

  lemma MultiplyMonotone(a: nat, b: nat, p: nat)
    requires a <= b
    ensures a * p <= b * p
  {
  }

  lemma Distributes(n: nat, p: nat)
    ensures (n + 1) * p == n * p + p
  {
  }

  /** When dropping `k` digits from a `(k + prec)`-digit number carries into
      an extra digit, the result is exactly `10^prec`. */
  lemma CarryIsPowerOfTen(m: nat, k: nat, prec: nat)
    requires k >= 1 && prec >= 1 && Digits(m) == k + prec
    requires Digits(HalfUpQuotient(m, Pow10(k))) > prec
    ensures HalfUpQuotient(m, Pow10(k)) == Pow10(prec)
  {
    var p, q, n := Pow10(k), HalfUpQuotient(m, Pow10(k)), Pow10(prec);
    DigitsWithin(m, k + prec);
    Pow10Add(k, prec);
    assert m < n * p;
    DigitsWithin(q, prec);
    assert q >= n;
    if q > n {
      MultiplyMonotone(n + 1, q, p);
      Distributes(n, p);
      assert false;
    }
  }

  /** Dropping the last digit of `10^prec` is exact. */
  lemma DropFromPowerOfTen(d: Decimal, prec: nat)
    requires prec >= 1 && Abs(d.unscaled) == Pow10(prec)
    ensures Precision(d) == prec + 1
    ensures Abs(DropDigits(d, 1).unscaled) == Pow10(prec - 1)
    ensures Precision(DropDigits(d, 1)) == prec
  {
    assert Pow10(prec) == 10 * Pow10(prec - 1);
    assert Pow10(prec) / 10 == Pow10(prec - 1) && Pow10(prec) % 10 == 0;
    DigitsOfPow10(prec);
    DigitsOfPow10(prec - 1);
  }

  lemma ShiftUnit(a: nat, b: nat)
    ensures Pow10(a) * Pow10(b + 1) == Pow10(a + 1) * Pow10(b)
  {
    MultiplyAssociates(Pow10(a), 10, Pow10(b));
  }

  /** Rounding HALF_UP to a unit, then exactly to a ten times coarser one,
      rounds HALF_UP to the coarser unit. */
  lemma CoarserExactly(q: nat, m: nat, p: nat, q': nat)
    requires p >= 1 && HalfUpOf(q, m, p) && q' * (10 * p) == q * p
    ensures HalfUpOf(q', m, 10 * p)
  {
  }

  /** The carry case of rounding: two drops, the second exact, together round
      the number HALF_UP to a unit of `10^(k + 1)`. */
  lemma CarryStep(d: Decimal, k: nat, prec: nat)
    requires prec >= 1 && k >= 1 && Precision(d) == k + prec
    requires Precision(DropDigits(d, k)) > prec
    ensures Precision(DropDigits(d, k)) == prec + 1
    ensures Precision(DropDigits(DropDigits(d, k), 1)) == prec
    ensures HalfUpOf(Abs(DropDigits(DropDigits(d, k), 1).unscaled), Abs(d.unscaled), Pow10(k + 1))
  {
    var once := DropDigits(d, k);
    CarryIsPowerOfTen(Abs(d.unscaled), k, prec);
    DropFromPowerOfTen(once, prec);
    ShiftUnit(prec - 1, k);
    CoarserExactly(Pow10(prec), Abs(d.unscaled), Pow10(k), Pow10(prec - 1));
  }

  /** Dropping the excess digits of a `(k + prec)`-digit number leaves at least
      `prec` digits: the number is at least `10^(prec - 1) * 10^k`, and rounding
      never goes below the truncated quotient. */
  lemma DropKeepsPrecision(d: Decimal, k: nat, prec: nat)
    requires prec >= 1 && k >= 1 && Precision(d) == k + prec
    ensures Precision(DropDigits(d, k)) >= prec
  {
    var m, p, a := Abs(d.unscaled), Pow10(k), Pow10(prec - 1);
    var q := Abs(DropDigits(d, k).unscaled);
    DigitsWithin(m, k + prec - 1);
    Pow10Add(k, prec - 1);
    assert m >= a * p;
    if q < a {
      MultiplyMonotone(q, a - 1, p);
      Distributes(a - 1, p);
      assert false;
    }
    if prec >= 2 {
      DigitsWithin(q, prec - 1);
    }
  }

  /** `BigDecimal.round(new MathContext(prec, RoundingMode.HALF_UP))`: while the
      number has more than `prec` digits, drop the excess HALF_UP (a carry can
      leave one digit too many, hence the loop). The result is the HALF_UP
      rounding of the number to a unit of `10^(d.scale - r.scale)`. */
  function Round(d: Decimal, prec: nat): (r: Decimal)
    requires prec >= 1
    ensures Precision(r) <= prec
    ensures Precision(d) > prec ==> Precision(r) == prec
    ensures Precision(d) <= prec ==> r == d
    ensures r.scale <= d.scale && (Precision(d) > prec ==> r.scale < d.scale)
    ensures HalfUpOf(Abs(r.unscaled), Abs(d.unscaled), Pow10(d.scale - r.scale))
    ensures (d.unscaled < 0 ==> r.unscaled <= 0) && (d.unscaled >= 0 ==> r.unscaled >= 0)
    decreases Abs(d.unscaled)
  {
    if Precision(d) <= prec then d
    else
      var k := Precision(d) - prec;
      var once := DropDigits(d, k);
      if Precision(once) <= prec then
        DropKeepsPrecision(d, k, prec);
        Round(once, prec)
      else
        CarryStep(d, k, prec);
        assert Round(DropDigits(once, 1), prec) == DropDigits(once, 1);
        Round(once, prec)
  }

  /** `BigDecimal.movePointLeft(n)` for a non-negative `n`: the value is divided
      by 10^n. With a non-negative resulting scale the unscaled value is kept and
      the scale grows by `n`; a negative resulting scale is normalised to zero by
      multiplying the unscaled value out. */
  function MovePointLeft(d: Decimal, n: nat): (r: Decimal)
    ensures n > 0 ==> r.scale >= 0
    ensures d.scale + n >= 0 ==> r == Decimal(d.unscaled, d.scale + n)
  {
    if n == 0 then d
    else if d.scale + n < 0 then Decimal(d.unscaled * Pow10(-(d.scale + n)), 0)
    else Decimal(d.unscaled, d.scale + n)
  }

  /** Every Java `int` has at most ten digits, so rounding it to ten significant
      digits changes nothing. */
  lemma RoundIntIsIdentity(x: int)
    requires -0x8000_0000 <= x <= 0x7FFF_FFFF
    ensures Round(Decimal(x, 0), 10) == Decimal(x, 0)
  {
    assert Pow10(10) == 10_000_000_000;
    DigitsWithin(Abs(x), 10);
  }
}
