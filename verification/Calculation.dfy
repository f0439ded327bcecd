/** Reading decimal inputs and pricing invoice lines. */
module Calculation {
  // The exact arithmetic is over integers: amounts in millionths, rates in ten-thousandths of a percent, rounded
  // amounts in quanta of 10^-precision.

  import opened Basics
  import opened Decimal

  const MAX_AMOUNT: int := 9999999999999999999999
  const MAX_QUANTITY: int := 9999999999999999
  const MAX_RATE: int := 1000000
  const MAX_LINES: nat := 200
  const CALCULATION_DIGITS: nat := 50
  const DEFAULT_DIGITS: nat := 28

  /** NotDecimal stands for floats, booleans, other types, unreadable text, NaN and infinities. */
  datatype Raw = NotDecimal | Number(d: Dec)

  predicate Above(d: Dec, k: nat, n: int) {
    !Below(d, k, n) && !Is(d, k, n)
  }

  /** The accepted value in units of 10^-places; `lo` and `hi` are in millionths. */
  function Parse(prec: nat, raw: Raw, places: nat, lo: int, hi: int, positive: bool): Option<int> {
    if raw.NotDecimal? || Below(raw.d, 6, lo) || Above(raw.d, 6, hi) then None
    else if positive && raw.d.coef <= 0 then None
    else match Quantize(prec, HalfEven, raw.d, places)
      case None => None
      case Some(q) => if Is(raw.d, places, q.coef) then Some(q.coef) else None
  }

  lemma BelowIs(d: Dec, k: nat, n: int, m: int)
    requires Is(d, k, n)
    ensures Below(d, k, m) <==> n < m
    ensures Above(d, k, m) <==> n > m
    ensures d.coef <= 0 <==> n <= 0
  {
    if d.exp + k >= 0 {
      ScaleOrder(d.coef, 0, Pow10(d.exp + k));
      ScaleOrder(0, d.coef, Pow10(d.exp + k));
    } else {
      var p := Pow10(-(d.exp + k));
      ScaleOrder(n, m, p);
      ScaleOrder(n, 0, p);
      ScaleOrder(0, n, p);
    }
  }

  /**
   An input is accepted, with value n, exactly when it denotes n / 10^places inside the bounds:
   trailing zeros never matter, and no accepted value is altered.
   */
  lemma ParseIff(prec: nat, raw: Raw, places: nat, lo: int, hi: int, positive: bool, n: int)
    requires prec >= 1 && places <= 6 && Abs(lo) < Pow10(prec) && Abs(hi) < Pow10(prec)
    ensures Parse(prec, raw, places, lo, hi, positive) == Some(n) <==>
            raw.Number? && Is(raw.d, places, n) && lo <= n * Pow10(6 - places) <= hi && (positive ==> n > 0)
  {
    hide Quantize, Is, Below, Pow10;
    if raw.Number? && Is(raw.d, places, n) {
      InputBounds(raw.d, places, n, lo, hi);
      if lo <= n * Pow10(6 - places) <= hi && (positive ==> n > 0) {
        InputKept(prec, raw.d, places, n, lo, hi);
      }
    }
    if Parse(prec, raw, places, lo, hi, positive) == Some(n) {
      InputBounds(raw.d, places, n, lo, hi);
    }
  }

  lemma InputBounds(d: Dec, places: nat, n: int, lo: int, hi: int)
    requires places <= 6 && Is(d, places, n)
    ensures Below(d, 6, lo) <==> n * Pow10(6 - places) < lo
    ensures Above(d, 6, hi) <==> n * Pow10(6 - places) > hi
    ensures d.coef <= 0 <==> n <= 0
  {
    var m := Pow10(6 - places);
    IsFiner(d, places, n, 6 - places);
    BelowIs(d, 6, n * m, lo);
    BelowIs(d, 6, n * m, hi);
    ScaleOrder(0, n, m);
    ScaleOrder(n, 0, m);
  }

  lemma InputKept(prec: nat, d: Dec, places: nat, n: int, lo: int, hi: int)
    requires prec >= 1 && places <= 6 && Abs(lo) < Pow10(prec) && Abs(hi) < Pow10(prec)
    requires Is(d, places, n) && lo <= n * Pow10(6 - places) <= hi
    ensures Quantize(prec, HalfEven, d, places) == Some(Dec(n, 0 - places))
  {
    hide Quantize, Is;
    MultipleGrowsAbs(n, Pow10(6 - places));
    QuantizeIs(prec, HalfEven, d, places, n, places);
    RoundExact(HalfEven, n, 1);
    assert Pow10(0) == 1;
  }

  /** A stored value, read back from a column with `places` decimals. */
  function Column(n: int, places: nat): Raw {
    Number(Dec(n, 0 - places))
  }

  lemma ColumnParses(prec: nat, n: int, places: nat, lo: int, hi: int, positive: bool)
    requires prec >= 1 && places <= 6 && Abs(lo) < Pow10(prec) && Abs(hi) < Pow10(prec)
    requires lo <= n * Pow10(6 - places) <= hi && (positive ==> n > 0)
    ensures Parse(prec, Column(n, places), places, lo, hi, positive) == Some(n)
  {
    UnitIs(n, places);
    ParseIff(prec, Column(n, places), places, lo, hi, positive, n);
  }

  // ---- one line ----

  /** Net amount in quanta: quantity x price x (1 - discount), rounded half up. */
  function NetQuanta(precision: nat, quantity: int, price: int, discount: int): int
    requires precision <= 6
  {
    Round(HalfUp, quantity * price * (MAX_RATE - discount), Pow10(18 - precision))
  }

  /** Tax in quanta, computed on the rounded net amount. */
  function TaxQuanta(net: int, rate: int): int {
    Round(HalfUp, net * rate, MAX_RATE)
  }

  /** The service's own decimal operations, in its order; None is a raised InvalidOperation. */
  function LineDecimals(precision: nat, quantity: Dec, price: Dec, rate: Dec, discount: Dec): Option<(Dec, Dec)> {
    var p := CALCULATION_DIGITS;
    var share := Sub(p, Dec(1, 0), Div100(p, discount));
    match Quantize(p, HalfUp, Mul(p, Mul(p, quantity, price), share), precision)
    case None => None
    case Some(net) =>
      match Quantize(p, HalfUp, Div100(p, Mul(p, net, rate)), precision)
      case None => None
      case Some(tax) => Some((net, tax))
  }

  predicate LineInRange(quantity: int, price: int, rate: int, discount: int) {
    0 < quantity <= MAX_QUANTITY && 0 <= price <= MAX_AMOUNT && 0 <= rate <= MAX_RATE && 0 <= discount <= MAX_RATE
  }

  lemma Powers()
    ensures Pow10(6) == 1000000 && Pow10(28) == 10000000000000000000000000000
    ensures Pow10(50) == 100000000000000000000000000000000000000000000000000
  {
    assert Pow10(10) == 10000000000;
    Pow10Add(10, 10);
    Pow10Add(20, 8);
    Pow10Add(20, 20);
    Pow10Add(40, 10);
    assert Pow10(8) == 100000000;
  }

  lemma ProductBound(x: int, y: int, hx: int, hy: int)
    requires 0 <= x <= hx && 0 <= y <= hy
    ensures 0 <= x * y <= hx * hy
  {
    ScaleOrder(x, hx, y + 1);
    assert x * y <= hx * y;
    assert hx * y <= hx * hy by {
      ScaleOrder(y, hy, hx + 1);
    }
  }

  /** Bounds and error of a half-up quotient: at most half a unit away, and at most the dividend. */
  lemma RoundBounds(n: nat, d: nat)
    requires d > 0
    ensures var r := Round(HalfUp, n, d);
            0 <= r <= n && 0 - d <= 2 * (r * d - n) <= d
  {
    var q, r := n / d, n % d;
    assert n == q * d + r;
    QuotientBounds(n, d, q, r);
  }

  /** The same for a quotient and a remainder that are given, without division. */
  lemma QuotientBounds(n: nat, d: nat, q: nat, r: nat)
    requires n == q * d + r && r < d
    ensures q <= n && (r > 0 ==> q < n)
    ensures 0 - d <= 2 * (q * d - n) || 2 * r > d
    ensures 2 * r >= d ==> 0 <= 2 * ((q + 1) * d - n) <= d && q + 1 <= n
    ensures 2 * (q * d - n) <= 0
  {
    NextMultiple(q, d);
    if q > 0 { AtLeastFactor(q, d); }
  }

  lemma NextMultiple(q: nat, d: nat)
    ensures (q + 1) * d == q * d + d
  {}

  lemma AtLeastFactor(q: nat, d: nat)
    requires d > 0
    ensures q <= q * d
  {
    assert q * d == q * (d - 1) + q;
    assert q * (d - 1) >= 0;
  }

  /**
   The fifty-digit context never alters a value: for accepted inputs in any representation, the only
   roundings are the two quantizations, they succeed, and they give the exact half-up amounts.
   */
  lemma LineExact(precision: nat, q: Dec, qn: int, p: Dec, pn: int, t: Dec, tn: int, d: Dec, dn: int)
    requires precision <= 4 && LineInRange(qn, pn, tn, dn)
    requires Is(q, 6, qn) && Is(p, 6, pn) && Is(t, 4, tn) && Is(d, 4, dn)
    ensures var net := NetQuanta(precision, qn, pn, dn);
            LineDecimals(precision, q, p, t, d)
            == Some((Dec(net, 0 - precision), Dec(TaxQuanta(net, tn), 0 - precision)))
  {
    var digits := CALCULATION_DIGITS;
    var share := Sub(digits, Dec(1, 0), Div100(digits, d));
    ShareExact(d, dn);
    ProductBound(qn, pn, MAX_QUANTITY, MAX_AMOUNT);
    ProductBound(qn * pn, MAX_RATE - dn, MAX_QUANTITY * MAX_AMOUNT, MAX_RATE);
    GrossExact(q, qn, p, pn, share, MAX_RATE - dn);
    QuantizedLine(precision, Mul(digits, Mul(digits, q, p), share), qn * pn * (MAX_RATE - dn), t, tn);
  }

  lemma ShareExact(d: Dec, dn: int)
    requires 0 <= dn <= MAX_RATE && Is(d, 4, dn)
    ensures Is(Sub(CALCULATION_DIGITS, Dec(1, 0), Div100(CALCULATION_DIGITS, d)), 6, MAX_RATE - dn)
  {
    Powers();
    Div100Exact(CALCULATION_DIGITS, d, 4, dn);
    SubExact(CALCULATION_DIGITS, Dec(1, 0), Div100(CALCULATION_DIGITS, d), 6, MAX_RATE, dn);
  }

  lemma GrossExact(q: Dec, qn: int, p: Dec, pn: int, share: Dec, sn: int)
    requires Is(q, 6, qn) && Is(p, 6, pn) && Is(share, 6, sn)
    requires 0 <= qn * pn <= MAX_QUANTITY * MAX_AMOUNT
    requires 0 <= qn * pn * sn <= MAX_QUANTITY * MAX_AMOUNT * MAX_RATE
    ensures Is(Mul(CALCULATION_DIGITS, Mul(CALCULATION_DIGITS, q, p), share), 18, qn * pn * sn)
  {
    hide Mul, Is, Pow10;
    Powers();
    MulExact(CALCULATION_DIGITS, q, 6, qn, p, 6, pn);
    MulExact(CALCULATION_DIGITS, Mul(CALCULATION_DIGITS, q, p), 12, qn * pn, share, 6, sn);
  }

  lemma QuantizedLine(precision: nat, gross: Dec, gn: int, t: Dec, tn: int)
    requires precision <= 4 && 0 <= tn <= MAX_RATE && Is(t, 4, tn) && Is(gross, 18, gn)
    requires 0 <= gn <= MAX_QUANTITY * MAX_AMOUNT * MAX_RATE
    ensures var net := Round(HalfUp, gn, Pow10(18 - precision));
            var netDec := Dec(net, 0 - precision);
            Quantize(CALCULATION_DIGITS, HalfUp, gross, precision) == Some(netDec) &&
            Quantize(CALCULATION_DIGITS, HalfUp, Div100(CALCULATION_DIGITS, Mul(CALCULATION_DIGITS, netDec, t)),
                     precision)
            == Some(Dec(TaxQuanta(net, tn), 0 - precision))
  {
    hide Quantize, Mul, Div100, Is, Pow10, Round;
    Powers();
    var digits := CALCULATION_DIGITS;
    var net := Round(HalfUp, gn, Pow10(18 - precision));
    RoundBounds(gn, Pow10(18 - precision));
    QuantizeIs(digits, HalfUp, gross, 18, gn, precision);
    UnitIs(net, precision);
    ProductBound(net, tn, MAX_QUANTITY * MAX_AMOUNT * MAX_RATE, MAX_RATE);
    MulExact(digits, Dec(net, 0 - precision), precision, net, t, 4, tn);
    var product := Mul(digits, Dec(net, 0 - precision), t);
    Div100Exact(digits, product, precision + 4, net * tn);
    RoundBounds(net * tn, MAX_RATE);
    QuantizeIs(digits, HalfUp, Div100(digits, product), precision + 6, net * tn, precision);
  }

  /** On every line 0 <= tax <= net, and a positive total comes with a positive net. */
  lemma TaxWithinNet(precision: nat, qn: int, pn: int, tn: int, dn: int)
    requires precision <= 4 && LineInRange(qn, pn, tn, dn)
    ensures var net := NetQuanta(precision, qn, pn, dn);
            0 <= TaxQuanta(net, tn) <= net
  {
    var net := NetQuanta(precision, qn, pn, dn);
    ProductBound(qn, pn, qn, pn);
    ProductBound(qn * pn, MAX_RATE - dn, qn * pn, MAX_RATE);
    RoundBounds(qn * pn * (MAX_RATE - dn), Pow10(18 - precision));
    ProductBound(net, tn, net, MAX_RATE);
    RoundBounds(net * tn, MAX_RATE);
    RoundMono(net * tn, net * MAX_RATE, MAX_RATE);
    RoundExact(HalfUp, net, MAX_RATE);
  }

  lemma RoundMono(a: nat, b: nat, d: nat)
    requires d > 0 && a <= b
    ensures Round(HalfUp, a, d) <= Round(HalfUp, b, d)
  {
    var qa, ra := a / d, a % d;
    var qb, rb := b / d, b % d;
    assert (qb - qa) * d >= ra - rb;
    MultipleGrows(qb - qa, d);
  }

  /** The exact total of a line, tax included, in units of 10^-24. */
  function ExactTotal(qn: int, pn: int, tn: int, dn: int): int {
    qn * pn * (MAX_RATE - dn) * (MAX_RATE + tn)
  }

  /** A line's rounded total is within one and a half quanta of its exact total. */
  lemma LineRoundingBound(precision: nat, qn: int, pn: int, tn: int, dn: int)
    requires precision <= 4 && LineInRange(qn, pn, tn, dn)
    ensures var net := NetQuanta(precision, qn, pn, dn);
            var quantum := Pow10(24 - precision);
            -3 * quantum <= 2 * ((net + TaxQuanta(net, tn)) * quantum - ExactTotal(qn, pn, tn, dn)) <= 3 * quantum
  {
    var e := qn * pn * (MAX_RATE - dn);
    var d := Pow10(18 - precision);
    var net := NetQuanta(precision, qn, pn, dn);
    var tax := TaxQuanta(net, tn);
    ProductBound(qn, pn, qn, pn);
    ProductBound(qn * pn, MAX_RATE - dn, qn * pn, MAX_RATE);
    RoundBounds(e, d);
    ProductBound(net, tn, net, MAX_RATE);
    RoundBounds(net * tn, MAX_RATE);
    Powers();
    Pow10Add(18 - precision, 6);
    TotalError(e, d, net, tax, tn);
  }

  lemma TotalError(e: int, d: int, net: int, tax: int, tn: int)
    requires d >= 1 && 0 <= tn <= MAX_RATE
    requires -d <= 2 * (net * d - e) <= d
    requires -MAX_RATE <= 2 * (tax * MAX_RATE - net * tn) <= MAX_RATE
    ensures var quantum := d * MAX_RATE;
            -3 * quantum <= 2 * ((net + tax) * quantum - e * (MAX_RATE + tn)) <= 3 * quantum
  {
    var x, y := net * d - e, tax * MAX_RATE - net * tn;
    TotalIdentity(e, d, net, tax, tn, MAX_RATE);
    Sandwich(2 * x, d, MAX_RATE + tn);
    Sandwich(2 * y, MAX_RATE, d);
    ProductBound(d, tn, d, MAX_RATE);
    MulAssoc(2, x, MAX_RATE + tn);
    MulAssoc(2, y, d);
    Distribute(MAX_RATE, tn, d);
  }

  lemma TotalIdentity(e: int, d: int, net: int, tax: int, t: int, m: int)
    ensures (net + tax) * (d * m) - e * (m + t) == (net * d - e) * (m + t) + (tax * m - net * t) * d
  {
    var a, b := net * d, net * t;
    assert (a - e) * (m + t) == a * m + a * t - e * (m + t);
    assert (tax * m - b) * d == tax * m * d - b * d;
    assert a * t == b * d;
    assert (net + tax) * (d * m) == a * m + tax * m * d;
  }

  lemma Sandwich(x: int, b: int, m: nat)
    requires -b <= x <= b
    ensures -(b * m) <= x * m <= b * m
  {
    if m > 0 {
      ScaleOrder(x, b, m);
      ScaleOrder(-b, x, m);
      assert (-b) * m == -(b * m);
    }
  }
}
