/** The part of binary64 arithmetic behind `int64(vout.Value * 100000000)`: rounding to nearest,
    ties to even (section 4.3.1 of IEEE 754-2019). Powers of two appear only as repeated
    doubling, so every fact below is linear. */
module Float64 {

  /** x * 2^e */
  function Shift(x: real, e: int): real
    decreases if e < 0 then -e else e
  {
    if e == 0 then x else if e > 0 then 2.0 * Shift(x, e - 1) else Shift(x, e + 1) / 2.0
  }

  lemma ShiftStep(x: real, e: int)
    ensures Shift(x, e + 1) == 2.0 * Shift(x, e)
  {}

  lemma {:induction false} ShiftSub(x: real, y: real, e: int)
    ensures Shift(x - y, e) == Shift(x, e) - Shift(y, e)
    decreases if e < 0 then -e else e
  {
    if e > 0 { ShiftSub(x, y, e - 1); } else if e < 0 { ShiftSub(x, y, e + 1); }
  }

  lemma {:induction false} ShiftOrder(x: real, y: real, e: int)
    requires x <= y
    ensures Shift(x, e) <= Shift(y, e)
    decreases if e < 0 then -e else e
  {
    if e > 0 { ShiftOrder(x, y, e - 1); } else if e < 0 { ShiftOrder(x, y, e + 1); }
  }

  lemma {:induction false} ShiftShift(x: real, a: int, b: int)
    ensures Shift(Shift(x, a), b) == Shift(x, a + b)
    decreases if b < 0 then -b else b
  {
    if b > 0 {
      ShiftShift(x, a, b - 1);
      ShiftStep(x, a + b - 1);
    } else if b < 0 {
      ShiftShift(x, a, b + 1);
      ShiftStep(x, a + b);
    }
  }

  /** Shifting back. */
  lemma Unshift(x: real, e: int)
    ensures Shift(Shift(x, -e), e) == x
  {
    ShiftShift(x, -e, e);
    assert -e + e == 0 && Shift(x, 0) == x;
  }

  lemma {:induction false} ShiftZero(e: int)
    ensures Shift(0.0, e) == 0.0
    decreases if e < 0 then -e else e
  {
    if e > 0 { ShiftZero(e - 1); } else if e < 0 { ShiftZero(e + 1); }
  }

  lemma {:induction false} ShiftGrows(x: real, e: nat)
    requires x >= 0.0
    ensures x <= Shift(x, e)
    ensures Shift(x, 0 - e) <= x
  {
    if e > 0 { ShiftGrows(x, e - 1); }
    ShiftZero(0 - e);
    ShiftOrder(0.0, x, 0 - e);
  }

  function Abs(x: real): real { if x < 0.0 then -x else x }

  lemma ShiftAbs(x: real, y: real, e: int)
    ensures Abs(Shift(x, e) - Shift(y, e)) == Shift(Abs(x - y), e)
  {
    ShiftZero(e);
    ShiftSub(x, y, e);
    ShiftSub(y, x, e);
    ShiftOrder(0.0, Abs(x - y), e);
  }

  const MIN_EXPONENT := -1074
  const MAX_EXPONENT := 971
  const TWO_53: int := 9007199254740992
  const TWO_52: int := 4503599627370496

  predicate IsScaled(x: real, m: int, e: int) {
    -TWO_53 < m < TWO_53 && x == Shift(m as real, e)
  }

  /** The finite binary64 numbers: an integer of at most 53 bits scaled by a power of two. */
  ghost predicate IsDouble(x: real) {
    exists m: int, e: int :: MIN_EXPONENT <= e <= MAX_EXPONENT && IsScaled(x, m, e)
  }

  /** The integer nearest to q, the even one of two. */
  function NearestInt(q: real): int {
    var f := q.Floor;
    var d := q - f as real;
    if d < 0.5 then f else if d > 0.5 then f + 1 else if f % 2 == 0 then f else f + 1
  }

  lemma NearestIntIsNearest(q: real, j: int)
    ensures Abs(NearestInt(q) as real - q) <= Abs(j as real - q)
    ensures Abs(NearestInt(q) as real - q) <= 0.5
  {
    var f := q.Floor;
    if j <= f { assert j as real <= f as real; } else { assert j as real >= f as real + 1.0; }
  }

  /** The least exponent from e on at which r needs no more than 53 bits before the point. */
  function Exponent(r: real, e: int): (x: int)
    requires e <= MAX_EXPONENT
    ensures e <= x <= MAX_EXPONENT
    decreases MAX_EXPONENT - e
  {
    if Shift(r, -e) < TWO_53 as real || e == MAX_EXPONENT then e else Exponent(r, e + 1)
  }

  lemma {:induction false} ExponentIs(r: real, e: int, x: int)
    requires e <= x <= MAX_EXPONENT
    requires TWO_52 as real <= Shift(r, -x) < TWO_53 as real
    ensures Exponent(r, e) == x
    decreases x - e
  {
    if e < x {
      ShiftShift(r, -x, x - e);
      ShiftStep(Shift(r, -x), x - e - 1);
      ShiftGrows(Shift(r, -x), x - e - 1);
      ExponentIs(r, e + 1, x);
    }
  }

  lemma {:induction false} ExponentBounds(r: real, e: int)
    requires e <= MAX_EXPONENT
    ensures Exponent(r, e) > e ==> TWO_52 as real <= Shift(r, -Exponent(r, e))
    decreases MAX_EXPONENT - e
  {
    if Shift(r, -e) >= TWO_53 as real && e < MAX_EXPONENT {
      ExponentBounds(r, e + 1);
      ShiftStep(r, -e - 1);
    }
  }

  /** Correct rounding of a non-negative number below 2^1024. */
  function Round(r: real): real
    requires r >= 0.0
  {
    var e := Exponent(r, MIN_EXPONENT);
    Shift(NearestInt(Shift(r, -e)) as real, e)
  }

  /** Distances seen in units of 2^e. */
  lemma Distance(y: real, r: real, e: int)
    ensures Abs(Shift(y, e) - r) == Shift(Abs(y - Shift(r, -e)), e)
  {
    hide Shift, Abs;
    Unshift(r, e);
    ShiftAbs(y, Shift(r, -e), e);
  }

  lemma RoundError(r: real, x: real)
    requires r >= 0.0
    ensures var e := Exponent(r, MIN_EXPONENT);
            var q := Shift(r, -e);
            && Abs(Round(r) - r) == Shift(Abs(NearestInt(q) as real - q), e)
            && Abs(Shift(x, e) - r) == Shift(Abs(x - q), e)
  {
    hide Shift, Abs, NearestInt, Exponent;
    var e := Exponent(r, MIN_EXPONENT);
    Distance(NearestInt(Shift(r, -e)) as real, r, e);
    Distance(x, r, e);
  }

  lemma {:induction false} ShiftedInt(m: int, n: nat) returns (j: int)
    ensures Shift(m as real, n) == j as real
  {
    if n == 0 { j := m; } else { j := ShiftedInt(m, n - 1); j := 2 * j; }
  }

  lemma {:induction false} ExponentFits(r: real, e: int)
    requires e <= MAX_EXPONENT
    ensures Shift(r, -Exponent(r, e)) < TWO_53 as real || Exponent(r, e) == MAX_EXPONENT
    decreases MAX_EXPONENT - e
  {
    if Shift(r, -e) >= TWO_53 as real && e < MAX_EXPONENT { ExponentFits(r, e + 1); }
  }

  /** Rounded to 53 bits, r would need more than the largest exponent. */
  predicate Overflows(r: real) {
    var e := Exponent(r, MIN_EXPONENT);
    e == MAX_EXPONENT && Shift(r, -e) >= TWO_53 as real - 0.5
  }

  /** Below the point where binary64 overflows, the rounded value is a binary64 number. */
  lemma RoundIsDouble(r: real)
    requires r >= 0.0 && !Overflows(r)
    ensures IsDouble(Round(r))
  {
    var e := Exponent(r, MIN_EXPONENT);
    var q := Shift(r, -e);
    ExponentFits(r, MIN_EXPONENT);
    ShiftZero(-e);
    ShiftOrder(0.0, r, -e);
    hide Shift, Exponent, IsScaled;
    var m := NearestInt(q);
    assert 0 <= m <= TWO_53 && Round(r) == Shift(m as real, e) && (e == MAX_EXPONENT ==> m < TWO_53);
    hide NearestInt, Round;
    if m < TWO_53 {
      ScaledIs(m, e);
    } else {
      assert m == TWO_53 && e < MAX_EXPONENT;
      TopOfBinade(e);
      ScaledIs(TWO_52, e + 1);
    }
  }

  lemma ScaledIs(m: int, e: int)
    requires -TWO_53 < m < TWO_53 && MIN_EXPONENT <= e <= MAX_EXPONENT
    ensures IsDouble(Shift(m as real, e))
  {
    hide Shift;
    assert IsScaled(Shift(m as real, e), m, e);
  }

  lemma TopOfBinade(e: int)
    ensures Shift(TWO_53 as real, e) == Shift(TWO_52 as real, e + 1)
  {
    assert Shift(TWO_52 as real, 1) == TWO_53 as real;
    ShiftShift(TWO_52 as real, 1, e);
  }

  /** The range is that of binary64: 2^-1074 is the least positive number, and (2^53 - 1) * 2^971
      the greatest. */
  lemma Extremes(x: real, low: int, high: int)
    requires low == -1074 && high == 971 && IsDouble(x)
    ensures x > 0.0 ==> x >= Shift(1.0, low)
    ensures x <= Shift(9007199254740991.0, high)
    ensures IsDouble(Shift(1.0, low)) && IsDouble(Shift(9007199254740991.0, high))
  {
    var m, e :| low <= e <= high && IsScaled(x, m, e);
    ShiftZero(e);
    hide Shift, IsDouble;
    if m <= 0 { ShiftOrder(m as real, 0.0, e); } else { ShiftOrder(1.0, m as real, e); }
    ShiftOrder(m as real, 9007199254740991.0, e);
    ShiftMore(1.0, low, e);
    ShiftMore(9007199254740991.0, e, high);
    ScaledIs(1, low);
    ScaledIs(9007199254740991, high);
  }

  lemma {:induction false} ShiftMore(x: real, a: int, b: int)
    requires x >= 0.0 && a <= b
    ensures 0.0 <= Shift(x, a) <= Shift(x, b)
    decreases b - a
  {
    if a == b {
      ShiftZero(a);
      ShiftOrder(0.0, x, a);
    } else {
      ShiftMore(x, a + 1, b);
      ShiftStep(x, a);
    }
  }

  /** Round returns a nearest binary64 number: no other one is closer. */
  lemma RoundIsNearest(r: real, y: real)
    requires r >= 0.0 && IsDouble(y)
    ensures Abs(Round(r) - r) <= Abs(y - r)
    ensures !Overflows(r) ==> IsDouble(Round(r))
  {
    if !Overflows(r) { RoundIsDouble(r); }
    NearestDouble(r, y);
  }

  lemma NearestDouble(r: real, y: real)
    requires r >= 0.0 && IsDouble(y)
    ensures Abs(Round(r) - r) <= Abs(y - r)
  {
    var m, f :| MIN_EXPONENT <= f <= MAX_EXPONENT && IsScaled(y, m, f);
    var e := Exponent(r, MIN_EXPONENT);
    var x := Shift(m as real, f - e);
    assert y == Shift(x, e) by { ShiftShift(m as real, f - e, e); }
    SignificandIsNearest(r, m, f, e);
    NearestInUnits(r, x, e);
  }

  lemma NearestInUnits(r: real, x: real, e: int)
    requires r >= 0.0 && e == Exponent(r, MIN_EXPONENT)
    requires var q := Shift(r, -e); Abs(NearestInt(q) as real - q) <= Abs(x - q)
    ensures Abs(Round(r) - r) <= Abs(Shift(x, e) - r)
  {
    hide Shift, Abs, NearestInt, Exponent, Round;
    var q := Shift(r, -e);
    RoundError(r, x);
    ShiftOrder(Abs(NearestInt(q) as real - q), Abs(x - q), e);
  }

  /** Seen in units of 2^e, a double is an integer or lies below the least 53-bit one. */
  lemma SignificandIsNearest(r: real, m: int, f: int, e: int)
    requires m < TWO_53 && MIN_EXPONENT <= f && e == Exponent(r, MIN_EXPONENT)
    ensures var q := Shift(r, -e); Abs(NearestInt(q) as real - q) <= Abs(Shift(m as real, f - e) - q)
  {
    hide Shift, Exponent, NearestInt;
    var q := Shift(r, -e);
    if f >= e {
      var j := ShiftedInt(m, f - e);
      NearestIntIsNearest(q, j);
    } else {
      ExponentBounds(r, MIN_EXPONENT);
      BelowBinade(m, e - f);
      NearestIntIsNearest(q, TWO_52);
    }
  }

  /** A 53-bit integer shifted right stays below 2^52. */
  lemma BelowBinade(m: int, n: nat)
    requires m < TWO_53 && n > 0
    ensures Shift(m as real, 0 - n) <= TWO_52 as real
  {
    ShiftOrder(m as real, TWO_53 as real, 0 - n);
    assert Shift(TWO_53 as real, -1) == TWO_52 as real;
    ShiftShift(TWO_53 as real, -1, 1 - n);
    ShiftGrows(TWO_52 as real, n - 1);
  }

  lemma {:induction false} ShiftTimes(x: real, e: int)
    ensures Shift(9007199254740992.0 * x, e) == 9007199254740992.0 * Shift(x, e)
    decreases if e < 0 then -e else e
  {
    if e > 0 { ShiftTimes(x, e - 1); } else if e < 0 { ShiftTimes(x, e + 1); }
  }

  /** The relative error of rounding is at most 2^-53, above the subnormal range. */
  lemma RelativeError(r: real)
    requires r >= 0.00000001
    ensures Abs(Round(r) - r) * 9007199254740992.0 <= r
  {
    hide Shift, Exponent, Round, NearestInt;
    var e := Exponent(r, MIN_EXPONENT);
    var q := Shift(r, -e);
    SignificandIsLarge(r);
    RoundError(r, 0.0);
    NearestIntIsNearest(q, 0);
    Unshift(r, e);
    var d := Abs(NearestInt(q) as real - q);
    hide Abs;
    ShiftTimes(d, e);
    ShiftOrder(9007199254740992.0 * d, q, e);
  }

  lemma SignificandIsLarge(r: real)
    requires r >= 0.00000001
    ensures TWO_52 as real <= Shift(r, -Exponent(r, MIN_EXPONENT))
  {
    hide Shift, Exponent;
    Normal(r);
    ExponentBounds(r, MIN_EXPONENT);
  }

  lemma Normal(r: real)
    requires r >= 0.00000001
    ensures Shift(r, -MIN_EXPONENT) >= TWO_52 as real
  {
    Shift27(r);
    Shift27(Shift(r, 27));
    Shift27(Shift(Shift(r, 27), 27));
    ShiftShift(r, 27, 27);
    ShiftShift(r, 54, 27);
    ShiftGrows(Shift(r, 81), 993);
    ShiftShift(r, 81, 993);
  }

  lemma Shift27(x: real)
    ensures Shift(x, 27) == 134217728.0 * x
  {
    Shift9(x);
    Shift9(Shift(x, 9));
    Shift9(Shift(Shift(x, 9), 9));
    ShiftShift(x, 9, 9);
    ShiftShift(x, 18, 9);
  }

  lemma Shift9(x: real)
    ensures Shift(x, 9) == 512.0 * x
  {
    Shift3(x);
    Shift3(Shift(x, 3));
    Shift3(Shift(Shift(x, 3), 3));
    ShiftShift(x, 3, 3);
    ShiftShift(x, 6, 3);
  }

  lemma Shift3(x: real)
    ensures Shift(x, 3) == 8.0 * x
  {
    ShiftStep(x, 0);
    ShiftStep(x, 1);
    ShiftStep(x, 2);
  }

  // ----- amounts

  const SATS_PER_BTC := 100000000.0
  const MAX_MONEY: int := 21_000_000 * 100_000_000

  /** The float64 that the node's decimal amount of s satoshi is read into. */
  function AmountOf(s: nat): real { Round(s as real / SATS_PER_BTC) }

  /** `int64(value * 100000000)`: one rounded multiplication, then truncation. */
  function ToSats(value: real): int {
    if value >= 0.0 then Round(value * SATS_PER_BTC).Floor else -(Round(-value * SATS_PER_BTC).Floor)
  }

  /** Truncation is toward zero: a negative value is its positive counterpart with a sign. */
  lemma ToSatsIsOdd(value: real)
    ensures ToSats(-value) == -ToSats(value)
  {
    ZeroRounds();
    if value > 0.0 { assert -(-value) == value; }
    if value == 0.0 { assert -value == 0.0 && 0.0 * SATS_PER_BTC == 0.0; }
  }

  /** Every amount of money that can exist comes out as s or one satoshi less, never more. */
  lemma SatoshiBound(s: nat)
    requires s <= MAX_MONEY
    ensures ToSats(AmountOf(s)) == s || ToSats(AmountOf(s)) == s - 1
  {
    if s == 0 {
      ZeroRounds();
    } else {
      var exact := s as real / SATS_PER_BTC;
      RelativeError(exact);
      var v := AmountOf(s);
      var scaled := v * SATS_PER_BTC;
      RelativeError(scaled);
    }
  }

  lemma {:induction false} ShiftStrict(x: real, y: real, e: int)
    requires x < y
    ensures Shift(x, e) < Shift(y, e)
    decreases if e < 0 then -e else e
  {
    if e > 0 { ShiftStrict(x, y, e - 1); } else if e < 0 { ShiftStrict(x, y, e + 1); }
  }

  lemma {:induction false} ExponentAtMost(r: real, e: int, x: int)
    requires e <= x <= MAX_EXPONENT && Shift(r, -x) < TWO_53 as real
    ensures Exponent(r, e) <= x
    decreases x - e
  {
    if e < x { ExponentAtMost(r, e + 1, x); }
  }

  /** The product before it is rounded, and its unit in the last place as a power of two. */
  function Product(s: nat): real { AmountOf(s) * SATS_PER_BTC }

  function Unit(s: nat): int
    requires Product(s) >= 0.0
  {
    Exponent(Product(s), MIN_EXPONENT)
  }

  /** How far the product falls short of s, in units of its last place. */
  function Shortfall(s: nat): real
    requires Product(s) >= 0.0
  {
    Shift(s as real - Product(s), -Unit(s))
  }

  lemma ProductBounds(s: nat)
    requires 0 < s <= MAX_MONEY
    ensures 0.0 <= AmountOf(s) && 0.0 <= Product(s) < TWO_53 as real
    ensures Unit(s) <= 0
  {
    var exact := s as real / SATS_PER_BTC;
    RelativeError(exact);
    ExponentAtMost(Product(s), MIN_EXPONENT, 0);
  }

  /** The truncation is exact if and only if the product falls short of s by less than half a
      unit in its last place, or by half a unit when s is an even number of units. */
  lemma SatoshiExactIff(s: nat)
    requires 0 < s <= MAX_MONEY
    ensures Product(s) >= 0.0 && Unit(s) <= 0
    ensures ToSats(AmountOf(s)) == s <==>
      Shortfall(s) < 0.5 || (Shortfall(s) == 0.5 && Shift(s as real, -Unit(s)).Floor % 2 == 0)
  {
    ProductBounds(s);
    SatoshiBound(s);
    hide Shift, Exponent, Round;
    assert AmountOf(s) * SATS_PER_BTC == Product(s);
    assert Round(Product(s)).Floor == ToSats(AmountOf(s));
    RoundAtLeast(Product(s), s);
  }

  /** A rounded number reaches an integer that its own lies just below. */
  lemma RoundAtLeast(x: real, s: nat)
    requires x >= 0.0 && Exponent(x, MIN_EXPONENT) <= 0
    ensures var e := Exponent(x, MIN_EXPONENT);
            Round(x) >= s as real <==>
              Shift(s as real - x, -e) < 0.5 || (Shift(s as real - x, -e) == 0.5 && Shift(s as real, -e).Floor % 2 == 0)
  {
    hide Shift, NearestInt, Exponent;
    var e := Exponent(x, MIN_EXPONENT);
    var q := Shift(x, -e);
    var units := ShiftedInt(s, 0 - e);
    assert Shift(s as real, -e) == units as real;
    assert Round(x) == Shift(NearestInt(q) as real, e);
    hide Round;
    ShiftSub(s as real, x, -e);
    Unshift(s as real, e);
    ShiftedAtLeast(NearestInt(q), units, e);
    NearestAtLeast(q, units);
  }

  lemma ShiftedAtLeast(m: int, n: int, e: int)
    ensures Shift(m as real, e) >= Shift(n as real, e) <==> m >= n
  {
    hide Shift;
    if m >= n { ShiftOrder(n as real, m as real, e); } else { ShiftStrict(m as real, n as real, e); }
  }

  lemma NearestAtLeast(q: real, j: int)
    ensures NearestInt(q) >= j <==> j as real - q < 0.5 || (j as real - q == 0.5 && j % 2 == 0)
  {
    var f := q.Floor;
    if f >= j { assert f as real >= j as real; } else if f < j - 1 { assert f as real <= j as real - 2.0; }
  }

  lemma ZeroRounds()
    ensures Round(0.0) == 0.0
  {
    var e := Exponent(0.0, MIN_EXPONENT);
    ShiftZero(-e);
    ShiftZero(e);
    assert NearestInt(0.0) == 0;
  }

  /** The bound is reached: 0.29 BTC, an exact number of satoshi, loses one. */
  lemma OneSatoshiCanBeLost()
    ensures ToSats(AmountOf(29_000_000)) == 28_999_999
  {
    var exact := 29_000_000.0 / SATS_PER_BTC;
    Shift54(exact);
    ExponentIs(exact, MIN_EXPONENT, -54);
    assert NearestInt(5224175567749775.36) == 5224175567749775;
    var v := AmountOf(29_000_000);
    Shift54(Shift(5224175567749775.0, -54));
    ShiftShift(5224175567749775.0, -54, 54);
    assert v == 5224175567749775.0 / 18014398509481984.0;
    var scaled := v * SATS_PER_BTC;
    Shift28(scaled);
    ExponentIs(scaled, MIN_EXPONENT, -28);
    assert NearestInt(scaled * 268435456.0) == 7784628223999999;
    Shift28(Shift(7784628223999999.0, -28));
    ShiftShift(7784628223999999.0, -28, 28);
  }

  lemma Shift54(x: real)
    ensures Shift(x, 54) == 18014398509481984.0 * x
  {
    Shift27(x);
    Shift27(Shift(x, 27));
    ShiftShift(x, 27, 27);
  }

  lemma Shift28(x: real)
    ensures Shift(x, 28) == 268435456.0 * x
  {
    Shift27(x);
    ShiftStep(x, 27);
  }
}
