/** Pricing the lines of a draft: `_calculate`, its exact specification, and re-reading stored lines. */
module Pricing {
  import opened Basics
  import opened Decimal
  import opened Calculation

  /** NotALine is an item that is not a dictionary, or whose description is not text. */
  datatype LineInput =
    | NotALine
    | LineInput(product: Option<nat>, description: string,
                quantity: Raw, unitPrice: Raw, taxRate: Raw, discountRate: Raw)

  /** A stored line: quantity, price and amounts in millionths, rates in ten-thousandths of a percent. */
  datatype Line = Line(product: Option<nat>, description: string,
                       quantity: int, unitPrice: int, taxRate: int, discountRate: int, net: int, tax: int)
  {
    function Total(): int { net + tax }
  }

  const RATE_LIMIT: int := 100000000

  /** Millionths in one unit of the last printed decimal. */
  function Quantum(precision: nat): (q: nat)
    requires precision <= 6
    ensures q >= 1
  {
    Pow10(6 - precision)
  }

  // ---- descriptions ----

  predicate IsSpace(c: char) {
    var n := c as int;
    0x09 <= n <= 0x0D || 0x1C <= n <= 0x20 || n == 0x85 || n == 0xA0 || n == 0x1680 || 0x2000 <= n <= 0x200A
    || n == 0x2028 || n == 0x2029 || n == 0x202F || n == 0x205F || n == 0x3000
  }

  function TrimLeft(s: string): string {
    if s == "" || !IsSpace(s[0]) then s else TrimLeft(s[1..])
  }

  function TrimRight(s: string): string {
    if s == "" || !IsSpace(s[|s| - 1]) then s else TrimRight(s[..|s| - 1])
  }

  function Strip(s: string): string { TrimRight(TrimLeft(s)) }

  lemma {:induction false} TrimLeftShape(s: string)
    ensures |TrimLeft(s)| <= |s|
    ensures TrimLeft(s) == "" || !IsSpace(TrimLeft(s)[0])
  {
    if s != "" && IsSpace(s[0]) {
      TrimLeftShape(s[1..]);
    }
  }

  lemma {:induction false} TrimRightShape(s: string)
    ensures |TrimRight(s)| <= |s|
    ensures TrimRight(s) == "" || !IsSpace(TrimRight(s)[|TrimRight(s)| - 1])
    ensures s != "" && !IsSpace(s[0]) ==> TrimRight(s) != "" && TrimRight(s)[0] == s[0]
  {
    if s != "" && IsSpace(s[|s| - 1]) {
      TrimRightShape(s[..|s| - 1]);
    }
  }

  /** A stripped description strips to itself, so saving it again changes nothing. */
  lemma StripTwice(s: string)
    ensures Strip(Strip(s)) == Strip(s) && |Strip(s)| <= |s|
  {
    TrimLeftShape(s);
    TrimRightShape(TrimLeft(s));
  }

  // ---- specification ----

  function ProductCheck(products: seq<bool>, product: Option<nat>): Result<()> {
    if product.None? then Ok(())
    else if product.value >= |products| then Err(NotFound)
    else if products[product.value] then Err(ArchivedReference)
    else Ok(())
  }

  predicate DescriptionOk(item: LineInput) {
    item.LineInput? && Strip(item.description) != "" && |item.description| <= 500
  }

  /** The stored form of a line whose inputs have been accepted. */
  function Price(precision: nat, product: Option<nat>, description: string,
                 quantity: int, price: int, rate: int, discount: int): Line
    requires precision <= 4
  {
    var net := NetQuanta(precision, quantity, price, discount);
    Line(product, description, quantity, price, rate, discount,
         net * Quantum(precision), TaxQuanta(net, rate) * Quantum(precision))
  }

  function LineOf(products: seq<bool>, precision: nat, item: LineInput): Result<Line>
    requires precision <= 4
  {
    if !DescriptionOk(item) then Err(InvalidInput)
    else if ProductCheck(products, item.product).Err? then Err(ProductCheck(products, item.product).error)
    else
      var q := Parse(CALCULATION_DIGITS, item.quantity, 6, 0, MAX_QUANTITY, true);
      var p := Parse(CALCULATION_DIGITS, item.unitPrice, 6, 0, MAX_AMOUNT, false);
      var t := Parse(CALCULATION_DIGITS, item.taxRate, 4, 0, RATE_LIMIT, false);
      var d := Parse(CALCULATION_DIGITS, item.discountRate, 4, 0, RATE_LIMIT, false);
      if q.None? || p.None? || t.None? || d.None? then Err(InvalidAmount)
      else
        var line := Price(precision, item.product, Strip(item.description), q.value, p.value, t.value, d.value);
        if line.Total() > MAX_AMOUNT then Err(InvalidAmount) else Ok(line)
  }

  /** The first rejected item decides the error. */
  function LinesOf(products: seq<bool>, precision: nat, items: seq<LineInput>): (r: Result<seq<Line>>)
    requires precision <= 4
    ensures r.Ok? ==> |r.value| == |items|
  {
    if items == [] then Ok([])
    else
      var last := |items| - 1;
      match LinesOf(products, precision, items[..last])
      case Err(e) => Err(e)
      case Ok(lines) =>
        match LineOf(products, precision, items[last])
        case Err(e) => Err(e)
        case Ok(line) => Ok(lines + [line])
  }

  function Nets(lines: seq<Line>): (r: seq<int>)
    ensures |r| == |lines|
  {
    seq(|lines|, i requires 0 <= i < |lines| => lines[i].net)
  }
  function Taxes(lines: seq<Line>): (r: seq<int>)
    ensures |r| == |lines|
  {
    seq(|lines|, i requires 0 <= i < |lines| => lines[i].tax)
  }
  function Totals(lines: seq<Line>): (r: seq<int>)
    ensures |r| == |lines|
  {
    seq(|lines|, i requires 0 <= i < |lines| => lines[i].Total())
  }

  function Calculated(products: seq<bool>, precision: nat, items: seq<LineInput>): Result<seq<Line>>
    requires precision <= 4
  {
    if items == [] || |items| > MAX_LINES then Err(InvalidInput)
    else match LinesOf(products, precision, items)
      case Err(e) => Err(e)
      case Ok(lines) => if Sum(Totals(lines)) > MAX_AMOUNT then Err(InvalidAmount) else Ok(lines)
  }

  // ---- what an accepted line satisfies ----

  predicate Sane(line: Line) {
    && line.description != "" && Strip(line.description) == line.description && |line.description| <= 500
    && LineInRange(line.quantity, line.unitPrice, line.taxRate, line.discountRate)
    && 0 <= line.tax <= line.net && line.Total() <= MAX_AMOUNT
  }

  /** The amounts of `line` are the ones its own inputs give at this precision. */
  predicate PricedAt(precision: nat, line: Line)
    requires precision <= 4
  {
    line == Price(precision, line.product, line.description,
                  line.quantity, line.unitPrice, line.taxRate, line.discountRate)
  }

  predicate ProductsActive(products: seq<bool>, lines: seq<Line>) {
    forall i :: 0 <= i < |lines| ==> ProductCheck(products, lines[i].product).Ok?
  }

  lemma ParsedRate(raw: Raw)
    ensures var r := Parse(CALCULATION_DIGITS, raw, 4, 0, RATE_LIMIT, false);
            r.Some? ==> 0 <= r.value <= MAX_RATE && Is(raw.d, 4, r.value)
  {
    var r := Parse(CALCULATION_DIGITS, raw, 4, 0, RATE_LIMIT, false);
    if r.Some? {
      Powers();
      ParseIff(CALCULATION_DIGITS, raw, 4, 0, RATE_LIMIT, false, r.value);
      assert Pow10(2) == 100;
    }
  }

  lemma ParsedAmount(raw: Raw, hi: int, positive: bool)
    requires 0 <= hi <= MAX_AMOUNT
    ensures var r := Parse(CALCULATION_DIGITS, raw, 6, 0, hi, positive);
            r.Some? ==> 0 <= r.value <= hi && (positive ==> r.value > 0) && Is(raw.d, 6, r.value)
  {
    var r := Parse(CALCULATION_DIGITS, raw, 6, 0, hi, positive);
    if r.Some? {
      Powers();
      ParseIff(CALCULATION_DIGITS, raw, 6, 0, hi, positive, r.value);
      assert Pow10(0) == 1;
    }
  }

  lemma PriceIsSane(precision: nat, product: Option<nat>, description: string, q: int, p: int, t: int, d: int)
    requires precision <= 4 && LineInRange(q, p, t, d)
    ensures var line := Price(precision, product, description, q, p, t, d);
            0 <= line.tax <= line.net && PricedAt(precision, line)
            && line.net % Quantum(precision) == 0 && line.tax % Quantum(precision) == 0
  {
    var net := NetQuanta(precision, q, p, d);
    TaxWithinNet(precision, q, p, t, d);
    ScaleOrder(TaxQuanta(net, t), net + 1, Quantum(precision));
    ProductBound(TaxQuanta(net, t), Quantum(precision), net, Quantum(precision));
    MultipleOf(net, Quantum(precision));
    MultipleOf(TaxQuanta(net, t), Quantum(precision));
  }

  lemma LineOfSane(products: seq<bool>, precision: nat, item: LineInput)
    requires precision <= 4 && LineOf(products, precision, item).Ok?
    ensures var line := LineOf(products, precision, item).value;
            Sane(line) && PricedAt(precision, line) && ProductCheck(products, line.product).Ok?
  {
    ParsedAmount(item.quantity, MAX_QUANTITY, true);
    ParsedAmount(item.unitPrice, MAX_AMOUNT, false);
    ParsedRate(item.taxRate);
    ParsedRate(item.discountRate);
    StripTwice(item.description);
    var line := LineOf(products, precision, item).value;
    PriceIsSane(precision, line.product, line.description,
                line.quantity, line.unitPrice, line.taxRate, line.discountRate);
  }

  lemma {:induction false} LinesOfSane(products: seq<bool>, precision: nat, items: seq<LineInput>)
    requires precision <= 4 && LinesOf(products, precision, items).Ok?
    ensures var lines := LinesOf(products, precision, items).value;
            forall i :: 0 <= i < |lines| ==>
              Sane(lines[i]) && PricedAt(precision, lines[i]) && ProductCheck(products, lines[i].product).Ok?
  {
    if items != [] {
      LinesOfSane(products, precision, items[..|items| - 1]);
      LineOfSane(products, precision, items[|items| - 1]);
    }
  }

  // ---- the loop ----

  /** What one pass of the loop needs to know about its decimals. */
  lemma LineStep(products: seq<bool>, precision: nat, item: LineInput, q: int, p: int, t: int, d: int)
    requires precision <= 4 && DescriptionOk(item) && ProductCheck(products, item.product).Ok?
    requires Parse(CALCULATION_DIGITS, item.quantity, 6, 0, MAX_QUANTITY, true) == Some(q)
    requires Parse(CALCULATION_DIGITS, item.unitPrice, 6, 0, MAX_AMOUNT, false) == Some(p)
    requires Parse(CALCULATION_DIGITS, item.taxRate, 4, 0, RATE_LIMIT, false) == Some(t)
    requires Parse(CALCULATION_DIGITS, item.discountRate, 4, 0, RATE_LIMIT, false) == Some(d)
    ensures var amounts := LineDecimals(precision, item.quantity.d, item.unitPrice.d, item.taxRate.d,
                                        item.discountRate.d);
            var line := Price(precision, item.product, Strip(item.description), q, p, t, d);
            && amounts.Some?
            && Rescale(HalfEven, amounts.value.0, 6) == line.net
            && Rescale(HalfEven, amounts.value.1, 6) == line.tax
            && Is(amounts.value.0, 6, line.net) && Is(amounts.value.1, 6, line.tax)
            && Is(Add(CALCULATION_DIGITS, amounts.value.0, amounts.value.1), 6, line.Total())
            && 0 <= line.tax && 0 <= line.net
  {
    ParsedAmount(item.quantity, MAX_QUANTITY, true);
    ParsedAmount(item.unitPrice, MAX_AMOUNT, false);
    ParsedRate(item.taxRate);
    ParsedRate(item.discountRate);
    LineExact(precision, item.quantity.d, q, item.unitPrice.d, p, item.taxRate.d, t, item.discountRate.d, d);
    var net := NetQuanta(precision, q, p, d);
    var tax := TaxQuanta(net, t);
    TaxWithinNet(precision, q, p, t, d);
    NetBelow(precision, q, p, d);
    AmountsStored(precision, net, tax);
  }

  lemma AmountsStored(precision: nat, net: int, tax: int)
    requires precision <= 4 && 0 <= tax <= net <= MAX_QUANTITY * MAX_AMOUNT * MAX_RATE / 1000
    requires Quantum(precision) <= 1000000
    ensures Rescale(HalfEven, Dec(net, 0 - precision), 6) == net * Quantum(precision)
    ensures Rescale(HalfEven, Dec(tax, 0 - precision), 6) == tax * Quantum(precision)
    ensures Is(Add(CALCULATION_DIGITS, Dec(net, 0 - precision), Dec(tax, 0 - precision)), 6,
               net * Quantum(precision) + tax * Quantum(precision))
    ensures Is(Dec(net, 0 - precision), 6, net * Quantum(precision))
            && Is(Dec(tax, 0 - precision), 6, tax * Quantum(precision))
    ensures 0 <= net * Quantum(precision) && 0 <= tax * Quantum(precision)
  {
    var q := Quantum(precision);
    StoredQuanta(precision, net);
    StoredQuanta(precision, tax);
    ProductBound(net, q, MAX_QUANTITY * MAX_AMOUNT * MAX_RATE / 1000, 1000000);
    ProductBound(tax, q, MAX_QUANTITY * MAX_AMOUNT * MAX_RATE / 1000, 1000000);
    Powers();
    AddExact(CALCULATION_DIGITS, Dec(net, 0 - precision), Dec(tax, 0 - precision), 6, net * q, tax * q);
  }

  lemma NetBelow(precision: nat, q: int, p: int, d: int)
    requires precision <= 4 && LineInRange(q, p, 0, d)
    ensures 0 <= NetQuanta(precision, q, p, d) <= MAX_QUANTITY * MAX_AMOUNT * MAX_RATE / 1000
    ensures Quantum(precision) <= 1000000
  {
    Powers();
    Pow10Mono(6 - precision, 6);
    Pow10Mono(6, 18 - precision);
    ProductBound(q, p, MAX_QUANTITY, MAX_AMOUNT);
    ProductBound(q * p, MAX_RATE - d, MAX_QUANTITY * MAX_AMOUNT, MAX_RATE);
    var n := q * p * (MAX_RATE - d);
    RoundShrinks(n, Pow10(18 - precision), MAX_QUANTITY * MAX_AMOUNT * MAX_RATE);
  }

  lemma RoundShrinks(n: nat, d: nat, hi: nat)
    requires d >= 1000000 && n <= hi && hi >= 1000000
    ensures 0 <= Round(HalfUp, n, d) <= hi / 1000
  {
    RoundBounds(n, d);
    var r := Round(HalfUp, n, d);
    assert r * d == r * (d - 1000000) + r * 1000000;
    ProductBound(r, d - 1000000, r, d - 1000000);
    if r >= 2 {
      assert 2 * r * d <= 2 * n + d;
      ProductBound(2, d, r, d);
    }
  }

  lemma StoredQuanta(precision: nat, c: int)
    requires precision <= 4
    ensures Rescale(HalfEven, Dec(c, 0 - precision), 6) == c * Quantum(precision)
    ensures Is(Dec(c, 0 - precision), 6, c * Quantum(precision))
  {
    UnitIs(c, precision);
    IsFiner(Dec(c, 0 - precision), precision, c, 6 - precision);
  }

  lemma PrefixOfLines(products: seq<bool>, precision: nat, items: seq<LineInput>, i: nat)
    requires precision <= 4 && i < |items|
    ensures LinesOf(products, precision, items[..i]).Err? ==>
              LinesOf(products, precision, items[..i + 1]) == LinesOf(products, precision, items[..i])
    ensures LinesOf(products, precision, items[..i]).Ok? ==>
              LinesOf(products, precision, items[..i + 1]) ==
              match LineOf(products, precision, items[i])
              case Err(e) => Err(e)
              case Ok(line) => Ok(LinesOf(products, precision, items[..i]).value + [line])
  {
    assert items[..i + 1][..i] == items[..i];
  }

  lemma {:induction false} EarlyError(products: seq<bool>, precision: nat, items: seq<LineInput>, i: nat)
    requires precision <= 4 && i <= |items| && LinesOf(products, precision, items[..i]).Err?
    ensures LinesOf(products, precision, items) == LinesOf(products, precision, items[..i])
    decreases |items| - i
  {
    if i == |items| {
      assert items[..i] == items;
    } else {
      PrefixOfLines(products, precision, items, i);
      EarlyError(products, precision, items, i + 1);
    }
  }

  /** A line as the loop leaves it: what is stored, and the decimals of its amounts. */
  datatype Priced = Priced(line: Line, net: Dec, tax: Dec, total: Dec)

  predicate PricedOk(p: Priced) {
    && Is(p.net, 6, p.line.net) && Is(p.tax, 6, p.line.tax) && Is(p.total, 6, p.line.Total())
    && 0 <= p.line.net && 0 <= p.line.tax && p.line.Total() <= MAX_AMOUNT
  }

  /** One pass of the loop. */
  method PriceLine(products: seq<bool>, precision: nat, item: LineInput) returns (r: Result<Priced>)
    requires precision <= 4
    ensures LineOf(products, precision, item) == match r case Err(e) => Err(e) case Ok(priced) => Ok(priced.line)
    ensures r.Ok? ==> PricedOk(r.value)
  {
    if !DescriptionOk(item) {
      return Err(InvalidInput);
    }
    var reference := ProductCheck(products, item.product);
    if reference.Err? {
      return Err(reference.error);
    }
    var q := Parse(CALCULATION_DIGITS, item.quantity, 6, 0, MAX_QUANTITY, true);
    var p := Parse(CALCULATION_DIGITS, item.unitPrice, 6, 0, MAX_AMOUNT, false);
    var t := Parse(CALCULATION_DIGITS, item.taxRate, 4, 0, RATE_LIMIT, false);
    var d := Parse(CALCULATION_DIGITS, item.discountRate, 4, 0, RATE_LIMIT, false);
    if q.None? || p.None? || t.None? || d.None? {
      return Err(InvalidAmount);
    }
    LineStep(products, precision, item, q.value, p.value, t.value, d.value);
    var amounts := LineDecimals(precision, item.quantity.d, item.unitPrice.d, item.taxRate.d, item.discountRate.d);
    var (net, tax) := amounts.value;
    var total := Add(CALCULATION_DIGITS, net, tax);
    var line := Line(item.product, Strip(item.description), q.value, p.value, t.value, d.value,
                     Rescale(HalfEven, net, 6), Rescale(HalfEven, tax, 6));
    BelowIs(total, 6, line.Total(), MAX_AMOUNT);
    if Above(total, 6, MAX_AMOUNT) {
      return Err(InvalidAmount);
    }
    return Ok(Priced(line, net, tax, total));
  }

  /** The decimals stand for the amounts, and none of them is out of range. */
  predicate Denote(decimals: seq<Dec>, amounts: seq<int>) {
    |decimals| == |amounts| && forall k :: 0 <= k < |amounts| ==>
        Is(decimals[k], 6, amounts[k]) && 0 <= amounts[k] <= MAX_AMOUNT
  }

  /**
   `_calculate`: a fifty-digit context for each line, the default context for the final sum. It meets
   the exact specification for every input, including numbers written with any number of zeros.
   */
  method Calculate(products: seq<bool>, precision: nat, items: seq<LineInput>)
    returns (r: Result<seq<Line>>, nets: seq<Dec>, taxes: seq<Dec>)
    requires precision <= 4
    ensures r == Calculated(products, precision, items)
    ensures r.Ok? ==> |r.value| <= MAX_LINES && Denote(nets, Nets(r.value)) && Denote(taxes, Taxes(r.value))
  {
    hide LineOf, SumOf, Is, Above;
    nets, taxes := [], [];
    if items == [] || |items| > MAX_LINES {
      r := Err(InvalidInput);
      return;
    }
    var lines: seq<Line>, totals: seq<Dec> := [], [];
    for i := 0 to |items|
      invariant |lines| == i
      invariant LinesOf(products, precision, items[..i]) == Ok(lines)
      invariant Denote(nets, Nets(lines)) && Denote(taxes, Taxes(lines)) && Denote(totals, Totals(lines))
    {
      var priced := PriceLine(products, precision, items[i]);
      PrefixOfLines(products, precision, items, i);
      if priced.Err? {
        EarlyError(products, precision, items, i + 1);
        r := Err(priced.error);
        return;
      }
      lines, totals := lines + [priced.value.line], totals + [priced.value.total];
      nets, taxes := nets + [priced.value.net], taxes + [priced.value.tax];
    }
    assert items[..|items|] == items;
    SumFits(totals, Totals(lines));
    r := if Above(SumOf(DEFAULT_DIGITS, totals), 6, MAX_AMOUNT) then Err(InvalidAmount) else Ok(lines);
  }

  /** The amounts of a document: three operations of the default context, and the values that are stored. */
  method AddUp(lines: seq<Line>, nets: seq<Dec>, taxes: seq<Dec>) returns (net: int, tax: int, total: int)
    requires |lines| <= MAX_LINES && Denote(nets, Nets(lines)) && Denote(taxes, Taxes(lines))
    ensures net == Sum(Nets(lines)) && tax == Sum(Taxes(lines)) && total == net + tax
  {
    SumFits(nets, Nets(lines));
    SumFits(taxes, Taxes(lines));
    var netSum, taxSum := SumOf(DEFAULT_DIGITS, nets), SumOf(DEFAULT_DIGITS, taxes);
    var totalSum := Add(DEFAULT_DIGITS, netSum, taxSum);
    SumsAreSmall(Nets(lines));
    SumsAreSmall(Taxes(lines));
    AddExact(DEFAULT_DIGITS, netSum, taxSum, 6, Sum(Nets(lines)), Sum(Taxes(lines)));
    StoredExactly(netSum, Sum(Nets(lines)));
    StoredExactly(taxSum, Sum(Taxes(lines)));
    StoredExactly(totalSum, Sum(Nets(lines)) + Sum(Taxes(lines)));
    net, tax, total := Rescale(HalfEven, netSum, 6), Rescale(HalfEven, taxSum, 6), Rescale(HalfEven, totalSum, 6);
  }

  lemma SumsAreSmall(amounts: seq<int>)
    requires |amounts| <= MAX_LINES && forall k :: 0 <= k < |amounts| ==> 0 <= amounts[k] <= MAX_AMOUNT
    ensures 0 <= Sum(amounts) && 2 * Sum(amounts) < Pow10(DEFAULT_DIGITS)
  {
    Powers();
    SumBounds(amounts, MAX_AMOUNT);
  }

  lemma StoredExactly(d: Dec, n: int)
    requires Is(d, 6, n)
    ensures Rescale(HalfEven, d, 6) == n
  {
    RescaleIs(HalfEven, d, 6, n, 6);
    assert Pow10(0) == 1;
    RoundExact(HalfEven, n, 1);
  }

  /** The default context adds up to two hundred accepted amounts exactly: nets, taxes or totals. */
  lemma SumFits(decimals: seq<Dec>, amounts: seq<int>)
    requires |amounts| <= MAX_LINES && Denote(decimals, amounts)
    ensures Is(SumOf(DEFAULT_DIGITS, decimals), 6, Sum(amounts))
    ensures Above(SumOf(DEFAULT_DIGITS, decimals), 6, MAX_AMOUNT) <==> Sum(amounts) > MAX_AMOUNT
  {
    Powers();
    SumExact(DEFAULT_DIGITS, decimals, 6, amounts, MAX_AMOUNT);
    BelowIs(SumOf(DEFAULT_DIGITS, decimals), 6, Sum(amounts), MAX_AMOUNT);
  }

  // ---- reading a stored draft back ----

  /** The values a stored line gives to a later calculation. */
  function Reread(line: Line): LineInput {
    LineInput(line.product, line.description, Column(line.quantity, 6), Column(line.unitPrice, 6),
              Column(line.taxRate, 4), Column(line.discountRate, 4))
  }

  function RereadAll(lines: seq<Line>): (r: seq<LineInput>)
    ensures |r| == |lines|
  {
    seq(|lines|, i requires 0 <= i < |lines| => Reread(lines[i]))
  }

  /** Re-reading a stored line gives back its inputs, priced at the precision now in force. */
  lemma RereadLine(products: seq<bool>, precision: nat, line: Line)
    requires precision <= 4 && Sane(line)
    ensures LineOf(products, precision, Reread(line)) ==
            if ProductCheck(products, line.product).Err? then Err(ProductCheck(products, line.product).error)
            else
              var again := Price(precision, line.product, line.description,
                                 line.quantity, line.unitPrice, line.taxRate, line.discountRate);
              if again.Total() > MAX_AMOUNT then Err(InvalidAmount) else Ok(again)
  {
    hide Parse, Price, ProductCheck, Pow10, Strip;
    RereadBounds();
    ColumnParses(CALCULATION_DIGITS, line.quantity, 6, 0, MAX_QUANTITY, true);
    ColumnParses(CALCULATION_DIGITS, line.unitPrice, 6, 0, MAX_AMOUNT, false);
    ColumnParses(CALCULATION_DIGITS, line.taxRate, 4, 0, RATE_LIMIT, false);
    ColumnParses(CALCULATION_DIGITS, line.discountRate, 4, 0, RATE_LIMIT, false);
  }

  lemma RereadBounds()
    ensures Pow10(0) == 1 && Pow10(2) == 100 && Abs(MAX_QUANTITY) < Pow10(CALCULATION_DIGITS)
    ensures Abs(MAX_AMOUNT) < Pow10(CALCULATION_DIGITS) && Abs(RATE_LIMIT) < Pow10(CALCULATION_DIGITS)
  {
    Powers();
  }

  lemma RereadPriced(products: seq<bool>, precision: nat, line: Line)
    requires precision <= 4 && Sane(line) && PricedAt(precision, line) && ProductCheck(products, line.product).Ok?
    ensures LineOf(products, precision, Reread(line)) == Ok(line)
  {
    RereadLine(products, precision, line);
  }

  lemma LinesExtend(products: seq<bool>, precision: nat, items: seq<LineInput>, item: LineInput, lines: seq<Line>,
                    line: Line)
    requires precision <= 4 && LinesOf(products, precision, items) == Ok(lines)
             && LineOf(products, precision, item) == Ok(line)
    ensures LinesOf(products, precision, items + [item]) == Ok(lines + [line])
  {
    assert (items + [item])[..|items|] == items;
  }

  /** Recalculation is a fixed point: lines priced at a precision come back unchanged at that precision. */
  lemma {:induction false} RecalculationFixed(products: seq<bool>, precision: nat, lines: seq<Line>)
    requires precision <= 4 && ProductsActive(products, lines)
    requires forall i :: 0 <= i < |lines| ==> Sane(lines[i]) && PricedAt(precision, lines[i])
    ensures LinesOf(products, precision, RereadAll(lines)) == Ok(lines)
  {
    hide LineOf, Sane, PricedAt, ProductCheck;
    if lines != [] {
      var last := |lines| - 1;
      RecalculationFixed(products, precision, lines[..last]);
      RereadPriced(products, precision, lines[last]);
      LinesExtend(products, precision, RereadAll(lines[..last]), Reread(lines[last]), lines[..last], lines[last]);
      assert RereadAll(lines) == RereadAll(lines[..last]) + [Reread(lines[last])];
      assert lines == lines[..last] + [lines[last]];
    }
  }

  lemma RecalculationIsIdentity(products: seq<bool>, precision: nat, items: seq<LineInput>)
    requires precision <= 4 && Calculated(products, precision, items).Ok?
    ensures var lines := Calculated(products, precision, items).value;
            Calculated(products, precision, RereadAll(lines)) == Ok(lines)
  {
    var lines := Calculated(products, precision, items).value;
    LinesOfSane(products, precision, items);
    RecalculationFixed(products, precision, lines);
  }

  /** An invoice of n lines is within 1.5 n quanta of its exact total. */
  lemma {:induction false} InvoiceRoundingBound(precision: nat, lines: seq<Line>)
    requires precision <= 4
    requires forall i :: 0 <= i < |lines| ==> Sane(lines[i]) && PricedAt(precision, lines[i])
    ensures var scale := Pow10(18); var quantum := Pow10(24 - precision);
            -3 * |lines| * quantum <= 2 * (Sum(Totals(lines)) * scale - ExactSum(lines)) <= 3 * |lines| * quantum
  {
    hide ExactTotal, Sane, PricedAt, Pow10;
    if lines != [] {
      var last := |lines| - 1;
      var line := lines[last];
      InvoiceRoundingBound(precision, lines[..last]);
      assert Totals(lines)[..last] == Totals(lines[..last]);
      StoredLineBound(precision, line);
      ErrorsAdd(Sum(Totals(lines[..last])), ExactSum(lines[..last]), line.Total(),
                ExactTotal(line.quantity, line.unitPrice, line.taxRate, line.discountRate),
                last, Pow10(18), Pow10(24 - precision));
    }
  }

  lemma ErrorsAdd(a: int, ea: int, b: int, eb: int, n: nat, scale: int, quantum: int)
    requires -3 * n * quantum <= 2 * (a * scale - ea) <= 3 * n * quantum
    requires -3 * quantum <= 2 * (b * scale - eb) <= 3 * quantum
    ensures -3 * (n + 1) * quantum <= 2 * ((a + b) * scale - (ea + eb)) <= 3 * (n + 1) * quantum
  {}

  lemma StoredLineBound(precision: nat, line: Line)
    requires precision <= 4 && Sane(line) && PricedAt(precision, line)
    ensures var quantum := Pow10(24 - precision);
            var exact := ExactTotal(line.quantity, line.unitPrice, line.taxRate, line.discountRate);
            -3 * quantum <= 2 * (line.Total() * Pow10(18) - exact) <= 3 * quantum
  {
    LineRoundingBound(precision, line.quantity, line.unitPrice, line.taxRate, line.discountRate);
    var net := NetQuanta(precision, line.quantity, line.unitPrice, line.discountRate);
    InMillionths(precision, net, TaxQuanta(net, line.taxRate));
  }

  lemma InMillionths(precision: nat, net: int, tax: int)
    requires precision <= 4
    ensures (net * Quantum(precision) + tax * Quantum(precision)) * Pow10(18) == (net + tax) * Pow10(24 - precision)
  {
    Pow10Add(6 - precision, 18);
    Distribute(net, tax, Quantum(precision));
    MulAssoc(net + tax, Quantum(precision), Pow10(18));
  }

  /** Exact total of an invoice in units of 10^-24. */
  function ExactSum(lines: seq<Line>): int {
    if lines == [] then 0
    else
      var l := lines[|lines| - 1];
      ExactSum(lines[..|lines| - 1]) + ExactTotal(l.quantity, l.unitPrice, l.taxRate, l.discountRate)
  }
}
