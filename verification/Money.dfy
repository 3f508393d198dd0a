/**
 Money: exact decimal amounts with a currency. Rounding works on the sign and the digits, the
 way Decimal.quantize does; what it means is stated against roundTiesToEven of IEEE 754-2019,
 section 4.3.1. Decimals are unbounded, and the sign of a zero has no meaning.
 */
module Money {
  import opened Decimals

  // ---------------------------------------------------------------- values on a common scale

  function Lower(a: int, b: int): int {
    if a < b then a else b
  }

  /** The value in units of 10^e. */
  function At(d: Decimal, e: int): int
    requires e <= d.exponent
  {
    Signed(d) * Pow10(d.exponent - e)
  }

  predicate Same(a: Decimal, b: Decimal) {
    var e := Lower(a.exponent, b.exponent); At(a, e) == At(b, e)
  }

  predicate AtMost(a: Decimal, b: Decimal) {
    var e := Lower(a.exponent, b.exponent); At(a, e) <= At(b, e)
  }

  function FromSigned(x: int, e: int): Decimal {
    Decimal(x < 0, if x < 0 then -x else x, e)
  }

  lemma {:induction false} PowerAdds(i: nat, j: nat)
    ensures Pow10(i + j) == Pow10(i) * Pow10(j)
  {
    if i > 0 {
      PowerAdds(i - 1, j);
      Associates(10, Pow10(i - 1), Pow10(j));
    }
  }

  lemma {:induction false} AtFiner(d: Decimal, e: int, m: int)
    requires m <= e <= d.exponent
    ensures At(d, m) == At(d, e) * Pow10(e - m)
  {
    PowerAdds(d.exponent - e, e - m);
    Associates(Signed(d), Pow10(d.exponent - e), Pow10(e - m));
  }

  lemma Associates(x: int, y: int, z: int)
    ensures x * (y * z) == (x * y) * z
  {
  }

  lemma SignedFromSigned(x: int, e: int)
    ensures At(FromSigned(x, e), e) == x
  {
    assert Pow10(0) == 1;
  }

  // ---------------------------------------------------------------- rounding

  /** The quotient of a coefficient, half to even. */
  function DivideHalfEven(c: nat, p: nat): nat
    requires p > 0
  {
    var q, r := c / p, c % p;
    if 2 * r > p || (2 * r == p && q % 2 == 1) then q + 1 else q
  }

  /** Drops `k` digits of a coefficient. */
  function RoundDigits(c: nat, k: nat): nat {
    DivideHalfEven(c, Pow10(k))
  }

  /** Same value, or the nearest one, with exponent `e`. */
  function Quantize(d: Decimal, e: int): Decimal {
    if d.exponent >= e then Decimal(d.negative, d.digits * Pow10(d.exponent - e), e)
    else Decimal(d.negative, RoundDigits(d.digits, e - d.exponent), e)
  }

  /** The exponent of 10^-places as a Decimal: a power with a positive exponent is a whole number, exponent 0. */
  function GridExponent(places: int): int {
    if places > 0 then -places else 0
  }

  function RoundTo(d: Decimal, places: int): Decimal {
    Quantize(d, GridExponent(places))
  }

  function Abs(x: int): nat {
    if x < 0 then -x else x
  }

  /** `y` is what roundTiesToEven makes of x / p. */
  predicate HalfEven(x: int, p: nat, y: int) {
    2 * Abs(x - p * y) <= p && (2 * Abs(x - p * y) == p ==> y % 2 == 0)
  }

  lemma QuotientHalfEven(c: nat, p: nat)
    requires p > 0
    ensures HalfEven(c, p, DivideHalfEven(c, p))
  {
    var q, r := c / p, c % p;
    assert c == p * q + r;
    assert p * (q + 1) == p * q + p;
  }

  lemma HalfEvenNegates(x: int, p: nat, y: int)
    requires HalfEven(x, p, y)
    ensures HalfEven(-x, p, -y)
  {
    assert p * (-y) == -(p * y);
  }

  lemma HalfEvenScales(x: int, p: nat, y: int, f: nat)
    requires HalfEven(x, p, y) && f > 0
    ensures HalfEven(x * f, p * f, y)
  {
    Factors(x, p, y, f);
    AbsScales(x - p * y, f);
    Associates(2, Abs(x - p * y), f);
    Scales(2 * Abs(x - p * y), p, f);
  }

  lemma Factors(x: int, p: int, y: int, f: int)
    ensures x * f - (p * f) * y == (x - p * y) * f
  {
    assert (p * f) * y == (p * y) * f;
  }

  lemma AbsScales(z: int, f: nat)
    ensures Abs(z * f) == Abs(z) * f
  {
    if z >= 0 {
      assert z * f >= 0;
    } else {
      assert (-z) * f == -(z * f);
      assert (-z) * f >= 0;
    }
  }

  lemma Scales(a: nat, p: nat, f: nat)
    requires f > 0
    ensures a <= p ==> a * f <= p * f
    ensures a < p ==> a * f < p * f
  {
    if a < p {
      assert (p - a) * f > 0;
      assert (p - a) * f == p * f - a * f;
    }
  }

  /** Half-even results keep the order of what they round. */
  lemma HalfEvenMonotone(x: int, x': int, p: nat, y: int, y': int)
    requires p > 0 && x <= x' && HalfEven(x, p, y) && HalfEven(x', p, y')
    ensures y <= y'
  {
    // The results are at most one unit apart; if one unit, both errors are half a unit, so both
    // results would be even.
    assert p * y - p * y' <= p;
    AtMostOne(p, y - y');
    assert p * (y' + 1) == p * y' + p;
  }

  lemma AtMostOne(p: nat, d: int)
    requires p > 0
    ensures p * d <= p ==> d <= 1
  {
    if d >= 2 { assert p * d >= p * 2 by { assert p * (d - 2) >= 0; } }
  }

  lemma HalfEvenUnique(x: int, p: nat, y: int, y': int)
    requires p > 0 && HalfEven(x, p, y) && HalfEven(x, p, y')
    ensures y == y'
  {
    HalfEvenMonotone(x, x, p, y, y');
    HalfEvenMonotone(x, x, p, y', y);
  }

  /** On any scale fine enough for both, the rounded value is the half-even multiple of the grid. */
  lemma {:induction false} QuantizeHalfEven(d: Decimal, e: int, m: int)
    requires m <= e && m <= d.exponent
    ensures HalfEven(At(d, m), Pow10(e - m), Signed(Quantize(d, e)))
  {
    if d.exponent >= e { PaddingIsExact(d, e, m); } else { DroppingIsHalfEven(d, e, m); }
  }

  lemma {:induction false} PaddingIsExact(d: Decimal, e: int, m: int)
    requires m <= e <= d.exponent
    ensures HalfEven(At(d, m), Pow10(e - m), Signed(Quantize(d, e)))
  {
    var y := Signed(Quantize(d, e));
    AtFiner(d, e, m);
    SignDistributes(d.negative, d.digits, Pow10(d.exponent - e));
    ExactIsHalfEven(y, Pow10(e - m));
  }

  lemma ExactIsHalfEven(y: int, p: nat)
    requires p > 0
    ensures HalfEven(y * p, p, y)
  {
    assert y * p - p * y == 0;
  }

  lemma {:induction false} DroppingIsHalfEven(d: Decimal, e: int, m: int)
    requires m <= d.exponent < e
    ensures HalfEven(At(d, m), Pow10(e - m), Signed(Quantize(d, e)))
  {
    var y := Signed(Quantize(d, e));
    var p, f := Pow10(e - d.exponent), Pow10(d.exponent - m);
    assert HalfEven(Signed(d), p, y) by { SignedHalfEven(d, p); }
    PowerAdds(e - d.exponent, d.exponent - m);
    HalfEvenScales(Signed(d), p, y, f);
  }

  lemma SignedHalfEven(d: Decimal, p: nat)
    requires p > 0
    ensures HalfEven(Signed(d), p, Signed(Decimal(d.negative, DivideHalfEven(d.digits, p), 0)))
  {
    QuotientHalfEven(d.digits, p);
    if d.negative { HalfEvenNegates(d.digits, p, DivideHalfEven(d.digits, p)); }
  }

  lemma SignDistributes(negative: bool, digits: nat, f: nat)
    ensures Signed(Decimal(negative, digits * f, 0)) == Signed(Decimal(negative, digits, 0)) * f
  {
    assert (-(digits as int)) * f == -(digits * f);
  }

  /**
   Rounding to a number of places gives a multiple of the grid at most half a unit away, the
   even one of two that are equally far, and no multiple is nearer.
   */
  lemma RoundIsNearest(d: Decimal, places: int, other: int)
    ensures var e := GridExponent(places);
      var m := Lower(e, d.exponent);
      var p := Pow10(e - m);
      var r := RoundTo(d, places);
      && r.exponent == e
      && 2 * Abs(At(d, m) - At(r, m)) <= p
      && (2 * Abs(At(d, m) - At(r, m)) == p ==> Signed(r) % 2 == 0)
      && Abs(At(d, m) - At(r, m)) <= Abs(At(d, m) - other * p)
  {
    var e := GridExponent(places);
    var m := Lower(e, d.exponent);
    var p := Pow10(e - m);
    var r := RoundTo(d, places);
    QuantizeHalfEven(d, e, m);
    assert At(r, m) == Signed(r) * p == p * Signed(r);
    OthersAreNoNearer(At(d, m), p, Signed(r), other);
  }

  lemma OthersAreNoNearer(x: int, p: nat, y: int, other: int)
    requires 2 * Abs(x - p * y) <= p
    ensures Abs(x - p * y) <= Abs(x - other * p)
  {
    var d := other - y;
    assert other * p == p * y + p * d;
    if d >= 1 { assert p * d >= p; } else if d <= -1 { assert p * d <= -(p as int); }
  }

  /** And it is the only decimal on the grid with these properties. */
  lemma RoundIsUnique(d: Decimal, places: int, y: int)
    requires var e := GridExponent(places);
      var m := Lower(e, d.exponent);
      HalfEven(At(d, m), Pow10(e - m), y)
    ensures Signed(RoundTo(d, places)) == y
  {
    var e := GridExponent(places);
    var m := Lower(e, d.exponent);
    QuantizeHalfEven(d, e, m);
    HalfEvenUnique(At(d, m), Pow10(e - m), Signed(RoundTo(d, places)), y);
  }

  /** Rounding keeps the order, whatever the scales of the two amounts. */
  lemma RoundIsMonotone(a: Decimal, b: Decimal, places: int)
    requires AtMost(a, b)
    ensures AtMost(RoundTo(a, places), RoundTo(b, places))
  {
    var e := GridExponent(places);
    var c := Lower(a.exponent, b.exponent);
    var m := Lower(e, c);
    AtFiner(a, c, m);
    AtFiner(b, c, m);
    OrderScales(At(a, c), At(b, c), Pow10(c - m));
    QuantizeHalfEven(a, e, m);
    QuantizeHalfEven(b, e, m);
    HalfEvenMonotone(At(a, m), At(b, m), Pow10(e - m), Signed(RoundTo(a, places)), Signed(RoundTo(b, places)));
    OrderScales(Signed(RoundTo(a, places)), Signed(RoundTo(b, places)), Pow10(0));
  }

  lemma OrderScales(x: int, y: int, f: nat)
    requires x <= y
    ensures x * f <= y * f
  {
    assert (y - x) * f >= 0;
    assert (y - x) * f == y * f - x * f;
  }

  /** Amounts that are equal round to equal amounts, and rounding again changes nothing. */
  lemma RoundIsIdempotent(d: Decimal, places: int)
    ensures RoundTo(RoundTo(d, places), places) == RoundTo(d, places)
  {
    assert Pow10(0) == 1;
  }

  function Neg(d: Decimal): Decimal {
    FromSigned(-Signed(d), d.exponent)
  }

  /** Rounding commutes with negation. */
  lemma RoundIsOdd(d: Decimal, places: int)
    ensures Same(RoundTo(Neg(d), places), Neg(RoundTo(d, places)))
  {
    var e := GridExponent(places);
    var m := Lower(e, d.exponent);
    QuantizeHalfEven(d, e, m);
    HalfEvenNegates(At(d, m), Pow10(e - m), Signed(RoundTo(d, places)));
    assert At(Neg(d), m) == -At(d, m) by {
      assert (-Signed(d)) * Pow10(d.exponent - m) == -(Signed(d) * Pow10(d.exponent - m));
    }
    RoundIsUnique(Neg(d), places, -Signed(RoundTo(d, places)));
  }

  /** The value is a whole number of units of 10^e. */
  ghost predicate MultipleOf(d: Decimal, e: int) {
    exists y :: Same(d, FromSigned(y, e))
  }

  lemma OneIsNoMultiple(k: nat, y: int)
    requires k > 0
    ensures !Same(Decimal(false, 1, 0), FromSigned(y, k))
  {
    assert At(Decimal(false, 1, 0), 0) == 1 by { assert Pow10(0) == 1; }
    assert At(FromSigned(y, k), 0) == y * Pow10(k);
    assert y * Pow10(k) == 10 * (y * Pow10(k - 1));
  }

  /**
   Rounding to n places gives multiples of 10^-n, whatever it is given, if and only if n is not
   negative: a negative number of places does not round to tens or hundreds but to whole units.
   */
  lemma RoundsToTheGridIff(places: int)
    ensures (forall d :: MultipleOf(RoundTo(d, places), -places)) <==> places >= 0
  {
    if places >= 0 {
      forall d
        ensures MultipleOf(RoundTo(d, places), -places)
      {
        var r := RoundTo(d, places);
        assert Same(r, FromSigned(Signed(r), -places));
      }
    } else {
      var one := Decimal(false, 1, 0);
      assert RoundTo(one, places) == one by { assert Pow10(0) == 1; }
      if MultipleOf(one, -places) {
        var y :| Same(one, FromSigned(y, -places));
        OneIsNoMultiple(-places, y);
      }
    }
  }

  // ---------------------------------------------------------------- arithmetic

  function Add(a: Decimal, b: Decimal): Decimal {
    var e := Lower(a.exponent, b.exponent); FromSigned(At(a, e) + At(b, e), e)
  }

  datatype Currency = USD | EUR | GBP | INR | CAD | AUD | JPY

  datatype Money = Money(amount: Decimal, currency: Currency)

  datatype Result = Ok(money: Money) | CurrencyMismatch

  function Plus(a: Money, b: Money): Result {
    if a.currency != b.currency then CurrencyMismatch else Ok(Money(Add(a.amount, b.amount), a.currency))
  }

  function Minus(a: Money, b: Money): Result {
    if a.currency != b.currency then CurrencyMismatch else Ok(Money(Add(a.amount, Neg(b.amount)), a.currency))
  }

  function Negate(a: Money): Money {
    Money(Neg(a.amount), a.currency)
  }

  predicate Equal(a: Money, b: Money) {
    a.currency == b.currency && Same(a.amount, b.amount)
  }

  function Then(r: Result, f: Money -> Result): Result {
    if r.Ok? then f(r.money) else r
  }

  lemma AddAt(a: Decimal, b: Decimal, m: int)
    requires m <= a.exponent && m <= b.exponent
    ensures At(Add(a, b), m) == At(a, m) + At(b, m)
  {
    var e := Lower(a.exponent, b.exponent);
    var s := Add(a, b);
    SignedFromSigned(At(a, e) + At(b, e), e);
    AtFiner(s, e, m);
    AtFiner(a, e, m);
    AtFiner(b, e, m);
    assert (At(a, e) + At(b, e)) * Pow10(e - m) == At(a, e) * Pow10(e - m) + At(b, e) * Pow10(e - m);
  }

  lemma AddAssociates(a: Decimal, b: Decimal, c: Decimal)
    ensures Add(Add(a, b), c) == Add(a, Add(b, c))
  {
    var e := Lower(Lower(a.exponent, b.exponent), c.exponent);
    AddAt(a, b, e);
    AddAt(b, c, e);
  }

  lemma AddCancels(a: Decimal, b: Decimal)
    ensures Same(Add(Add(a, b), Neg(b)), a)
  {
    var e := Lower(a.exponent, b.exponent);
    AddAt(a, b, e);
    AddAt(Add(a, b), Neg(b), e);
    assert At(Neg(b), e) == -At(b, e) by {
      assert (-Signed(b)) * Pow10(b.exponent - e) == -(Signed(b) * Pow10(b.exponent - e));
    }
  }

  /**
   Amounts of one currency form an exact commutative group: sums do not depend on order or
   grouping, subtraction undoes addition, every amount has an inverse; and no operation ever
   mixes currencies.
   */
  lemma ExactGroup(a: Money, b: Money, c: Money)
    ensures Plus(a, b).Ok? <==> a.currency == b.currency
    ensures Minus(a, b).Ok? <==> a.currency == b.currency
    ensures Plus(a, b) == Plus(b, a)
    ensures Then(Plus(a, b), (s: Money) => Plus(s, c)) == Then(Plus(b, c), (s: Money) => Plus(a, s))
    ensures Minus(a, b) == Plus(a, Negate(b))
    ensures Plus(a, b).Ok? ==> var s := Then(Plus(a, b), (x: Money) => Minus(x, b)); s.Ok? && Equal(s.money, a)
    ensures Minus(a, a).Ok? && Minus(a, a).money.amount.digits == 0
  {
    AddAssociates(a.amount, b.amount, c.amount);
    AddCancels(a.amount, b.amount);
    assert At(Neg(a.amount), a.amount.exponent) == -At(a.amount, a.amount.exponent) by {
      assert Pow10(0) == 1;
    }
  }

  /** Equal amounts behave alike: equality of values is kept by sums, whatever the scales. */
  lemma SumsRespectEquality(a: Decimal, a': Decimal, b: Decimal)
    requires Same(a, a')
    ensures Same(Add(a, b), Add(a', b))
  {
    var e := Lower(a.exponent, a'.exponent);
    var m := Lower(e, b.exponent);
    AtFiner(a, e, m);
    AtFiner(a', e, m);
    AddAt(a, b, m);
    AddAt(a', b, m);
    var s, t := Add(a, b), Add(a', b);
    var k := Lower(s.exponent, t.exponent);
    AtFiner(s, k, m);
    AtFiner(t, k, m);
    CancelFactor(At(s, k), At(t, k), Pow10(k - m));
  }

  lemma CancelFactor(x: int, y: int, f: nat)
    requires f > 0 && x * f == y * f
    ensures x == y
  {
    assert (x - y) * f == 0;
  }
}
