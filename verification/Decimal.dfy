/** Python's decimal arithmetic as the invoicing service uses it. */
module Decimal {
  // A number is a coefficient times a power of ten, every operation rounds to the context's number of significant
  // digits, and `quantize` refuses a result that needs more digits than the context has.

  import opened Basics

  datatype Mode = HalfUp | HalfEven

  /** coef * 10^exp; trailing zeros are significant for the representation, not for the value. */
  datatype Dec = Dec(coef: int, exp: int)

  function Abs(n: int): nat { if n < 0 then -n else n }

  function Digits(n: nat): nat {
    if n < 10 then 1 else 1 + Digits(n / 10)
  }

  function RoundNat(mode: Mode, n: nat, d: nat): nat
    requires d > 0
  {
    var q, r := n / d, n % d;
    if 2 * r > d || (2 * r == d && (mode.HalfUp? || q % 2 == 1)) then q + 1 else q
  }

  /** Rounds the magnitude and keeps the sign. */
  function Round(mode: Mode, n: int, d: nat): int
    requires d > 0
  {
    if n < 0 then 0 - RoundNat(mode, -n, d) else RoundNat(mode, n, d)
  }

  /** The context's rounding: keep at most `prec` significant digits, half to even. */
  function Fit(prec: nat, d: Dec): Dec {
    var digits := Digits(Abs(d.coef));
    if digits <= prec then d
    else Dec(Round(HalfEven, d.coef, Pow10(digits - prec)), d.exp + digits - prec)
  }

  function Mul(prec: nat, a: Dec, b: Dec): Dec {
    Fit(prec, Dec(a.coef * b.coef, a.exp + b.exp))
  }

  /** The coefficient of `d` written with the smaller exponent `e`. */
  function Shift(d: Dec, e: int): int
    requires e <= d.exp
  {
    d.coef * Pow10(d.exp - e)
  }

  function Add(prec: nat, a: Dec, b: Dec): Dec {
    var e := if a.exp <= b.exp then a.exp else b.exp;
    Fit(prec, Dec(Shift(a, e) + Shift(b, e), e))
  }

  function Neg(d: Dec): Dec { Dec(-d.coef, d.exp) }

  function Sub(prec: nat, a: Dec, b: Dec): Dec {
    Add(prec, a, Neg(b))
  }

  /** Division by one hundred, which only moves the exponent. */
  function Div100(prec: nat, a: Dec): Dec {
    Fit(prec, Dec(a.coef, a.exp - 2))
  }

  /** The coefficient of `d` rounded to `places` decimals, without any limit on its length. */
  function Rescale(mode: Mode, d: Dec, places: nat): int {
    if d.exp + places >= 0 then d.coef * Pow10(d.exp + places)
    else Round(mode, d.coef, Pow10(-(d.exp + places)))
  }

  /** None stands for the InvalidOperation that Python raises. */
  function Quantize(prec: nat, mode: Mode, d: Dec, places: nat): Option<Dec> {
    var c := Rescale(mode, d, places);
    if Digits(Abs(c)) > prec then None else Some(Dec(c, 0 - places))
  }

  function SumOf(prec: nat, xs: seq<Dec>): Dec {
    if xs == [] then Dec(0, 0) else Add(prec, SumOf(prec, xs[..|xs| - 1]), xs[|xs| - 1])
  }

  /** `d` denotes exactly n / 10^k. */
  predicate Is(d: Dec, k: nat, n: int) {
    if d.exp + k >= 0 then d.coef * Pow10(d.exp + k) == n
    else d.coef == n * Pow10(-(d.exp + k))
  }

  /** `d` denotes a number below n / 10^k. */
  predicate Below(d: Dec, k: nat, n: int) {
    if d.exp + k >= 0 then d.coef * Pow10(d.exp + k) < n
    else d.coef < n * Pow10(-(d.exp + k))
  }

  // ---- digits ----

  lemma {:induction false} DigitsBound(n: nat)
    ensures n < Pow10(Digits(n))
    ensures n > 0 ==> Pow10(Digits(n) - 1) <= n
    ensures Digits(n) >= 1
  {
    if n >= 10 {
      DigitsBound(n / 10);
      assert Pow10(Digits(n)) == 10 * Pow10(Digits(n / 10));
    } else {
      assert Pow10(1) == 10 * Pow10(0);
    }
  }

  lemma Pow10Reflects(a: nat, b: nat)
    requires Pow10(a) < Pow10(b)
    ensures a < b
  {
    if b <= a {
      Pow10Mono(b, a);
    }
  }

  lemma DigitsAtMost(n: nat, k: nat)
    requires k >= 1 && n < Pow10(k)
    ensures Digits(n) <= k
  {
    DigitsBound(n);
    if n > 0 {
      Pow10Reflects(Digits(n) - 1, k);
    }
  }

  lemma DigitsAtLeast(n: nat, k: nat)
    requires Digits(n) <= k
    ensures n < Pow10(k)
  {
    DigitsBound(n);
    Pow10Mono(Digits(n), k);
  }

  // ---- rounding a quotient ----

  lemma RoundExact(mode: Mode, n: int, d: nat)
    requires d > 0
    ensures Round(mode, n * d, d) == n
  {
    if n >= 0 {
      MultipleOf(n, d);
      assert n * d >= 0;
    } else {
      MultipleOf(-n, d);
      assert -(n * d) == (-n) * d;
      assert (-n) * d >= 1 * d;
    }
  }

  lemma RoundNatScale(mode: Mode, n: nat, d: nat, m: nat)
    requires d > 0 && m > 0
    ensures d * m > 0 && n * m >= 0
    ensures RoundNat(mode, n * m, d * m) == RoundNat(mode, n, d)
  {
    var q, r := n / d, n % d;
    ScaledDivision(n, d, m);
    ScaleOrder(d, 2 * r, m);
    ScaleOrder(2 * r, d, m);
    MulAssoc(2, r, m);
  }

  lemma ScaledDivision(n: nat, d: nat, m: nat)
    requires d > 0 && m > 0
    ensures d * m > 0 && n * m >= 0
    ensures (n * m) / (d * m) == n / d && (n * m) % (d * m) == (n % d) * m
  {
    var q, r := n / d, n % d;
    ScaleOrder(0, d, m);
    ScaleOrder(n, 0, m);
    ScaleOrder(r, d, m);
    ScaledIdentity(n, d, m, q, r);
    DivUnique(n * m, d * m, q, r * m);
  }

  lemma ScaledIdentity(n: int, d: int, m: int, q: int, r: int)
    requires n == q * d + r
    ensures n * m == q * (d * m) + r * m
  {
    Distribute(q * d, r, m);
    MulAssoc(q, d, m);
  }

  lemma ScaleOrder(x: int, y: int, m: nat)
    requires m > 0
    ensures x < y <==> x * m < y * m
    ensures x == y <==> x * m == y * m
    ensures x >= 0 ==> x * m >= 0
  {
    MultipleGrows(y - x, m);
    assert (y - x) * m == y * m - x * m;
  }

  lemma RoundScale(mode: Mode, n: int, d: nat, m: nat)
    requires d > 0 && m > 0
    ensures d * m > 0
    ensures Round(mode, n * m, d * m) == Round(mode, n, d)
  {
    ScaleOrder(n, 0, m);
    if n < 0 {
      RoundNatScale(mode, -n, d, m);
      assert (-n) * m == -(n * m);
    } else {
      RoundNatScale(mode, n, d, m);
    }
  }

  // ---- exactness ----

  lemma IsUnique(d: Dec, k: nat, m: int, n: int)
    requires Is(d, k, m) && Is(d, k, n)
    ensures m == n
  {
    if d.exp + k < 0 {
      var p := Pow10(-(d.exp + k));
      ScaleOrder(m, n, p);
    }
  }

  /** More decimals describe the same number. */
  lemma IsFiner(d: Dec, k: nat, n: int, j: nat)
    requires Is(d, k, n)
    ensures Is(d, k + j, n * Pow10(j))
  {
    if d.exp + k >= 0 {
      Pow10Add(d.exp + k, j);
      MulAssoc(d.coef, Pow10(d.exp + k), Pow10(j));
    } else if d.exp + k + j >= 0 {
      var y := -(d.exp + k);
      Pow10Add(y, d.exp + k + j);
      MulAssoc(n, Pow10(y), Pow10(d.exp + k + j));
    } else {
      var y := -(d.exp + k + j);
      Pow10Add(j, y);
      MulAssoc(n, Pow10(j), Pow10(y));
    }
  }

  lemma ZeroTimes(x: int)
    ensures 0 * x == 0
  {}

  /** Rounding to `prec` digits keeps every number that has at most `prec` digits at some scale. */
  lemma FitExact(prec: nat, d: Dec, k: nat, n: int)
    requires prec >= 1 && Is(d, k, n) && Abs(n) < Pow10(prec)
    ensures Is(Fit(prec, d), k, n)
  {
    var digits := Digits(Abs(d.coef));
    if digits > prec {
      var drop := digits - prec;
      DigitsBound(Abs(d.coef));
      Pow10Mono(prec, digits - 1);
      if d.exp + k >= 0 {
        MultipleGrowsAbs(d.coef, Pow10(d.exp + k));
        assert false;
      } else {
        DroppedZeros(prec, d, n, -(d.exp + k));
      }
    }
  }

  lemma DroppedZeros(prec: nat, d: Dec, n: int, y: nat)
    requires prec >= 1 && d.coef == n * Pow10(y) && Abs(n) < Pow10(prec) && Digits(Abs(d.coef)) > prec
    ensures var drop := Digits(Abs(d.coef)) - prec;
            drop <= y && Fit(prec, d) == Dec(n * Pow10(y - drop), d.exp + drop)
  {
    var drop := Digits(Abs(d.coef)) - prec;
    AbsTimes(n, Pow10(y));
    Pow10Add(prec, y);
    ScaleOrder(Abs(n), Pow10(prec), Pow10(y));
    DigitsAtMost(Abs(d.coef), prec + y);
    Pow10Add(y - drop, drop);
    MulAssoc(n, Pow10(y - drop), Pow10(drop));
    RoundExact(HalfEven, n * Pow10(y - drop), Pow10(drop));
  }

  lemma MultipleGrowsAbs(c: int, m: int)
    requires m >= 1
    ensures Abs(c * m) >= Abs(c)
  {
    if c >= 0 {
      assert c * m == c * (m - 1) + c;
      assert c * (m - 1) >= 0;
    } else {
      assert c * m == c * (m - 1) + c;
      assert (-c) * (m - 1) >= 0;
    }
  }

  lemma AbsTimes(n: int, m: nat)
    ensures Abs(n * m) == Abs(n) * m
  {
    if n < 0 {
      assert (-n) * m == -(n * m);
      assert (-n) * m >= 0;
    }
  }

  lemma ProductIs(a: Dec, k: nat, m: int, b: Dec, j: nat, n: int)
    requires Is(a, k, m) && Is(b, j, n)
    ensures Is(Dec(a.coef * b.coef, a.exp + b.exp), k + j, m * n)
  {
    var x, y := a.exp + k, b.exp + j;
    if x >= 0 && y >= 0 {
      Pow10Add(x, y);
      Regroup(a.coef, Pow10(x), b.coef, Pow10(y));
    } else if x < 0 && y < 0 {
      Pow10Add(-x, -y);
      Regroup(m, Pow10(-x), n, Pow10(-y));
    } else if x >= 0 {
      MixedProduct(a.coef, m, x, b.coef, n, -y);
    } else {
      MixedProduct(b.coef, n, y, a.coef, m, -x);
    }
  }

  lemma MixedProduct(c: int, m: int, x: nat, b: int, n: int, y: nat)
    requires c * Pow10(x) == m && b == n * Pow10(y)
    ensures x >= y ==> (c * b) * Pow10(x - y) == m * n
    ensures x < y ==> c * b == (m * n) * Pow10(y - x)
  {
    if x >= y {
      Pow10Add(x - y, y);
      calc {
        (c * b) * Pow10(x - y);
        == { Regroup4(c, n, Pow10(y), Pow10(x - y)); }
        (c * (Pow10(x - y) * Pow10(y))) * n;
      }
    } else {
      Pow10Add(y - x, x);
      calc {
        c * b;
        == { Regroup4(c, n, Pow10(y - x), Pow10(x)); }
        (c * Pow10(x)) * n * Pow10(y - x);
      }
    }
  }

  lemma Regroup(a: int, b: int, c: int, d: int)
    ensures (a * c) * (b * d) == (a * b) * (c * d)
  {}

  lemma Regroup4(c: int, n: int, p: int, q: int)
    ensures (c * (n * p)) * q == (c * (q * p)) * n
    ensures c * (n * (p * q)) == (c * q) * n * p
  {}

  lemma MulExact(prec: nat, a: Dec, k: nat, m: int, b: Dec, j: nat, n: int)
    requires prec >= 1 && Is(a, k, m) && Is(b, j, n) && Abs(m * n) < Pow10(prec)
    ensures Is(Mul(prec, a, b), k + j, m * n)
  {
    ProductIs(a, k, m, b, j, n);
    FitExact(prec, Dec(a.coef * b.coef, a.exp + b.exp), k + j, m * n);
  }

  /** Writing `d` with a smaller exponent keeps its value. */
  lemma Aligned(d: Dec, e: int, k: nat, n: int)
    requires e <= d.exp && Is(d, k, n)
    ensures Is(Dec(Shift(d, e), e), k, n)
  {
    if e + k >= 0 {
      Pow10Add(d.exp - e, e + k);
      MulAssoc(d.coef, Pow10(d.exp - e), Pow10(e + k));
    } else if d.exp + k >= 0 {
      Pow10Add(d.exp + k, -(e + k));
      MulAssoc(d.coef, Pow10(d.exp + k), Pow10(-(e + k)));
    } else {
      Pow10Add(-(d.exp + k), d.exp - e);
      MulAssoc(n, Pow10(-(d.exp + k)), Pow10(d.exp - e));
    }
  }

  lemma SameExponentSum(a: int, b: int, e: int, k: nat, m: int, n: int)
    requires Is(Dec(a, e), k, m) && Is(Dec(b, e), k, n)
    ensures Is(Dec(a + b, e), k, m + n)
  {
    if e + k >= 0 {
      Distribute(a, b, Pow10(e + k));
    } else {
      Distribute(m, n, Pow10(-(e + k)));
    }
  }

  lemma Distribute(a: int, b: int, p: int)
    ensures (a + b) * p == a * p + b * p
  {}

  lemma AddExact(prec: nat, a: Dec, b: Dec, k: nat, m: int, n: int)
    requires prec >= 1 && Is(a, k, m) && Is(b, k, n) && Abs(m + n) < Pow10(prec)
    ensures Is(Add(prec, a, b), k, m + n)
  {
    var e := if a.exp <= b.exp then a.exp else b.exp;
    var x, y := Shift(a, e), Shift(b, e);
    Aligned(a, e, k, m);
    Aligned(b, e, k, n);
    AlignedSum(prec, x, y, e, k, m, n);
  }

  lemma AlignedSum(prec: nat, a: int, b: int, e: int, k: nat, m: int, n: int)
    requires prec >= 1 && Is(Dec(a, e), k, m) && Is(Dec(b, e), k, n) && Abs(m + n) < Pow10(prec)
    ensures Is(Fit(prec, Dec(a + b, e)), k, m + n)
  {
    SameExponentSum(a, b, e, k, m, n);
    FitExact(prec, Dec(a + b, e), k, m + n);
  }

  lemma NegatedIs(d: Dec, k: nat, n: int)
    requires Is(d, k, n)
    ensures Is(Neg(d), k, -n)
  {
    if d.exp + k >= 0 {
      assert (-d.coef) * Pow10(d.exp + k) == -(d.coef * Pow10(d.exp + k));
    } else {
      assert (-n) * Pow10(-(d.exp + k)) == -(n * Pow10(-(d.exp + k)));
    }
  }

  lemma SubExact(prec: nat, a: Dec, b: Dec, k: nat, m: int, n: int)
    requires prec >= 1 && Is(a, k, m) && Is(b, k, n) && Abs(m - n) < Pow10(prec)
    ensures Is(Sub(prec, a, b), k, m - n)
  {
    NegatedIs(b, k, n);
    AddExact(prec, a, Neg(b), k, m, -n);
  }

  lemma Div100Exact(prec: nat, a: Dec, k: nat, n: int)
    requires prec >= 1 && Is(a, k, n) && Abs(n) < Pow10(prec)
    ensures Is(Div100(prec, a), k + 2, n)
  {
    FitExact(prec, Dec(a.coef, a.exp - 2), k + 2, n);
  }

  lemma RescaleIs(mode: Mode, d: Dec, k: nat, n: int, places: nat)
    requires Is(d, k, n) && places <= k
    ensures Rescale(mode, d, places) == Round(mode, n, Pow10(k - places))
  {
    var x := d.exp + places;
    if x >= 0 {
      Pow10Add(x, k - places);
      MulAssoc(d.coef, Pow10(x), Pow10(k - places));
      RoundExact(mode, d.coef * Pow10(x), Pow10(k - places));
    } else if d.exp + k >= 0 {
      Pow10Add(-x, d.exp + k);
      RoundScale(mode, d.coef, Pow10(-x), Pow10(d.exp + k));
    } else {
      Pow10Add(k - places, -(d.exp + k));
      RoundScale(mode, n, Pow10(k - places), Pow10(-(d.exp + k)));
    }
  }

  /** `quantize` raises exactly when the rounded coefficient needs more than `prec` digits. */
  lemma QuantizeIs(prec: nat, mode: Mode, d: Dec, k: nat, n: int, places: nat)
    requires prec >= 1 && Is(d, k, n) && places <= k
    ensures var c := Round(mode, n, Pow10(k - places));
            Quantize(prec, mode, d, places) == if Abs(c) < Pow10(prec) then Some(Dec(c, 0 - places)) else None
  {
    RescaleIs(mode, d, k, n, places);
    var c := Round(mode, n, Pow10(k - places));
    if Abs(c) < Pow10(prec) {
      DigitsAtMost(Abs(c), prec);
    } else if Digits(Abs(c)) <= prec {
      DigitsAtLeast(Abs(c), prec);
      assert false;
    }
  }

  lemma UnitIs(c: int, places: nat)
    ensures Is(Dec(c, 0 - places), places, c)
  {
    assert Pow10(0) == 1;
  }

  /** A sum whose running totals fit the context is exact, whatever the representations. */
  lemma {:induction false} SumExact(prec: nat, xs: seq<Dec>, k: nat, ns: seq<int>, hi: int)
    requires prec >= 1 && |xs| == |ns| && hi >= 0
    requires forall i :: 0 <= i < |xs| ==> Is(xs[i], k, ns[i]) && 0 <= ns[i] <= hi
    requires |xs| * hi < Pow10(prec)
    ensures Is(SumOf(prec, xs), k, Sum(ns))
  {
    if xs == [] {
      assert Is(Dec(0, 0), k, 0) by { ZeroTimes(Pow10(k)); }
    } else {
      var last := |xs| - 1;
      assert |xs| * hi == last * hi + hi;
      SumExact(prec, xs[..last], k, ns[..last], hi);
      SumBounds(ns, hi);
      SumBounds(ns[..last], hi);
      AddExact(prec, SumOf(prec, xs[..last]), xs[last], k, Sum(ns[..last]), ns[last]);
    }
  }
}
