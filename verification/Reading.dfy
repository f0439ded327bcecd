/** What a line of a draft and a row of a statement become, said from the inputs alone. */
module Reading {
  import opened Basics
  import opened Decimal
  import opened Calculation
  import opened Pricing
  import opened Books
  import opened Banking

  // ---- half-up rounding ----

  /** `r` is the whole number nearest to n / d, the greater one when two are as near. */
  predicate NearestUp(n: int, d: int, r: int) {
    (2 * r - 1) * d <= 2 * n < (2 * r + 1) * d
  }

  lemma NearestUpExactly(n: nat, d: nat, r: int)
    requires d > 0
    ensures Round(HalfUp, n, d) == r <==> NearestUp(n, d, r)
  {
    var q, m := n / d, n % d;
    assert n == q * d + m;
    NearestOfQuotient(n, d, q, m);
    if NearestUp(n, d, r) { NearestIsUnique(n, d, r, Round(HalfUp, n, d)); }
  }

  lemma NearestOfQuotient(n: nat, d: nat, q: nat, m: nat)
    requires n == q * d + m && m < d
    ensures NearestUp(n, d, if 2 * m >= d then q + 1 else q)
  {
    assert (2 * q - 1) * d == 2 * (q * d) - d;
    assert (2 * q + 1) * d == 2 * (q * d) + d;
    assert (2 * (q + 1) + 1) * d == 2 * (q * d) + 3 * d;
    assert (2 * (q + 1) - 1) * d == 2 * (q * d) + d;
  }

  lemma NearestIsUnique(n: int, d: int, r: int, t: int)
    requires d > 0 && NearestUp(n, d, r) && NearestUp(n, d, t)
    ensures r == t
  {
    if r < t { Gap(r, t, d); }
    if t < r { Gap(t, r, d); }
  }

  lemma Gap(r: int, t: int, d: int)
    requires r < t && d > 0
    ensures (2 * r + 1) * d <= (2 * t - 1) * d
  {
    ScaleOrder(2 * r, 2 * t - 1, d);
    assert (2 * r + 1) * d == 2 * r * d + d;
    assert (2 * t - 1) * d - (2 * r + 1) * d == (2 * t - 2 * r - 2) * d;
    assert (2 * t - 2 * r - 2) * d >= 0;
  }

  // ---- descriptions and identifiers ----

  predicate Blank(s: string) { forall i :: 0 <= i < |s| ==> IsSpace(s[i]) }

  /** `t` is `s` without the white space around it. */
  ghost predicate Trimmed(s: string, t: string) {
    && (exists a, b :: s == a + t + b && Blank(a) && Blank(b))
    && (t != "" ==> !IsSpace(t[0]) && !IsSpace(t[|t| - 1]))
  }

  lemma {:induction false} LeftOf(s: string) returns (a: string)
    ensures s == a + TrimLeft(s) && Blank(a)
  {
    if s != "" && IsSpace(s[0]) {
      var rest := LeftOf(s[1..]);
      a := [s[0]] + rest;
      assert s == [s[0]] + s[1..];
    } else {
      a := "";
    }
  }

  lemma {:induction false} RightOf(s: string) returns (b: string)
    ensures s == TrimRight(s) + b && Blank(b)
  {
    if s != "" && IsSpace(s[|s| - 1]) {
      var rest := RightOf(s[..|s| - 1]);
      b := rest + [s[|s| - 1]];
      assert s == s[..|s| - 1] + [s[|s| - 1]];
    } else {
      b := "";
    }
  }

  lemma StripIs(s: string)
    ensures Trimmed(s, Strip(s))
  {
    TrimLeftShape(s);
    TrimRightShape(TrimLeft(s));
    var a := LeftOf(s);
    var b := RightOf(TrimLeft(s));
    assert s == a + Strip(s) + b;
  }

  // ---- a line of a draft ----

  /** The line holds the numbers, the product and the description of the item. */
  predicate LineFrom(item: LineInput, line: Line) {
    && item.LineInput? && line.product == item.product && line.description == Strip(item.description)
    && item.quantity.Number? && Is(item.quantity.d, 6, line.quantity)
    && item.unitPrice.Number? && Is(item.unitPrice.d, 6, line.unitPrice)
    && item.taxRate.Number? && Is(item.taxRate.d, 4, line.taxRate)
    && item.discountRate.Number? && Is(item.discountRate.d, 4, line.discountRate)
  }

  /** The amounts of a line in quanta: net of the discount, and the tax on the rounded net, both rounded half up. */
  predicate Amounts(line: Line, precision: nat, net: int, tax: int)
    requires precision <= 4
  {
    && NearestUp(line.quantity * line.unitPrice * (MAX_RATE - line.discountRate), Pow10(18 - precision), net)
    && NearestUp(net * line.taxRate, MAX_RATE, tax)
    && line.net == net * Quantum(precision) && line.tax == tax * Quantum(precision)
  }

  ghost predicate RoundedHalfUp(line: Line, precision: nat)
    requires precision <= 4
  {
    exists net, tax :: Amounts(line, precision, net, tax)
  }

  lemma RoundedExactly(line: Line, precision: nat)
    requires precision <= 4 && LineInRange(line.quantity, line.unitPrice, line.taxRate, line.discountRate)
    ensures RoundedHalfUp(line, precision) <==> PricedAt(precision, line)
  {
    hide NearestUp, Round, Pow10;
    var gross := line.quantity * line.unitPrice * (MAX_RATE - line.discountRate);
    GrossIsNatural(line.quantity, line.unitPrice, MAX_RATE - line.discountRate);
    var net := NetQuanta(precision, line.quantity, line.unitPrice, line.discountRate);
    TaxWithinNet(precision, line.quantity, line.unitPrice, line.taxRate, line.discountRate);
    ProductNatural(net, line.taxRate);
    NearestUpExactly(gross, Pow10(18 - precision), net);
    NearestUpExactly(net * line.taxRate, MAX_RATE, TaxQuanta(net, line.taxRate));
    if PricedAt(precision, line) {
      assert Amounts(line, precision, net, TaxQuanta(net, line.taxRate));
    }
    if RoundedHalfUp(line, precision) {
      var n, t :| Amounts(line, precision, n, t);
      NearestUpExactly(gross, Pow10(18 - precision), n);
      NearestUpExactly(net * line.taxRate, MAX_RATE, t);
    }
  }

  lemma GrossIsNatural(q: int, p: int, share: int)
    requires q >= 0 && p >= 0 && share >= 0
    ensures q * p * share >= 0
  {
    ProductNatural(q, p);
    ProductNatural(q * p, share);
  }

  lemma ProductNatural(a: int, b: int)
    requires a >= 0 && b >= 0
    ensures a * b >= 0
  {}

  predicate ProductOk(products: seq<bool>, product: Option<nat>) {
    product.Some? ==> product.value < |products| && !products[product.value]
  }

  /** An item is accepted as this line, at this precision. */
  ghost predicate LineAccepted(products: seq<bool>, precision: nat, item: LineInput, line: Line)
    requires precision <= 4
  {
    && LineFrom(item, line) && line.description != "" && |item.description| <= 500 && ProductOk(products, line.product)
    && LineInRange(line.quantity, line.unitPrice, line.taxRate, line.discountRate)
    && RoundedHalfUp(line, precision) && line.net + line.tax <= MAX_AMOUNT
  }

  lemma RateExactly(raw: Raw, n: int)
    ensures Parse(CALCULATION_DIGITS, raw, 4, 0, RATE_LIMIT, false) == Some(n) <==>
            raw.Number? && Is(raw.d, 4, n) && 0 <= n <= MAX_RATE
  {
    Powers();
    ParseIff(CALCULATION_DIGITS, raw, 4, 0, RATE_LIMIT, false, n);
    assert Pow10(2) == 100;
  }

  lemma AmountExactly(raw: Raw, hi: int, positive: bool, n: int)
    requires 0 <= hi <= MAX_AMOUNT
    ensures Parse(CALCULATION_DIGITS, raw, 6, 0, hi, positive) == Some(n) <==>
            raw.Number? && Is(raw.d, 6, n) && 0 <= n <= hi && (positive ==> n > 0)
  {
    Powers();
    ParseIff(CALCULATION_DIGITS, raw, 6, 0, hi, positive, n);
    assert Pow10(0) == 1;
  }

  /** One item: accepted exactly as the line that denotes its numbers, with amounts rounded half up. */
  lemma LineReadExactly(products: seq<bool>, precision: nat, item: LineInput, line: Line)
    requires precision <= 4
    ensures LineOf(products, precision, item) == Ok(line) <==> LineAccepted(products, precision, item, line)
  {
    hide Parse, Is, RoundedHalfUp, Strip, Quantum, NetQuanta, TaxQuanta;
    if item.LineInput? {
      AmountExactly(item.quantity, MAX_QUANTITY, true, line.quantity);
      AmountExactly(item.unitPrice, MAX_AMOUNT, false, line.unitPrice);
      RateExactly(item.taxRate, line.taxRate);
      RateExactly(item.discountRate, line.discountRate);
      if LineInRange(line.quantity, line.unitPrice, line.taxRate, line.discountRate) {
        RoundedExactly(line, precision);
      }
    }
  }

  ghost predicate LinesAccepted(products: seq<bool>, precision: nat, items: seq<LineInput>, lines: seq<Line>)
    requires precision <= 4
  {
    |lines| == |items| && forall i :: 0 <= i < |items| ==> LineAccepted(products, precision, items[i], lines[i])
  }

  lemma {:induction false} LinesOfExactly(products: seq<bool>, precision: nat, items: seq<LineInput>, lines: seq<Line>)
    requires precision <= 4
    ensures LinesOf(products, precision, items) == Ok(lines) <==> LinesAccepted(products, precision, items, lines)
  {
    hide LineOf, LineAccepted;
    if items != [] && |lines| == |items| {
      var n := |items| - 1;
      LinesOfExactly(products, precision, items[..n], lines[..n]);
      LineReadExactly(products, precision, items[n], lines[n]);
      assert lines == lines[..n] + [lines[n]];
      if LinesAccepted(products, precision, items, lines) {
        assert LinesAccepted(products, precision, items[..n], lines[..n]);
      }
      if LinesOf(products, precision, items) == Ok(lines) {
        assert LinesOf(products, precision, items[..n]).value == lines[..n];
        assert LineOf(products, precision, items[n]).value == lines[n];
      }
    }
  }

  /** All items: accepted exactly as those lines, between one and two hundred, with a total within the maximum. */
  lemma CalculationExactly(products: seq<bool>, precision: nat, items: seq<LineInput>, lines: seq<Line>)
    requires precision <= 4
    ensures Calculated(products, precision, items) == Ok(lines) <==>
            && 1 <= |items| <= MAX_LINES && LinesAccepted(products, precision, items, lines)
            && Sum(Totals(lines)) <= MAX_AMOUNT
  {
    hide LinesOf, LinesAccepted;
    LinesOfExactly(products, precision, items, lines);
  }

  // ---- a row of a statement ----

  /** The row holds the cells: identifier without white space around it, day, exact amount, description, reference. */
  predicate RowFrom(cells: CsvRow, row: BankRow) {
    && row.externalId == Strip(cells.externalId) && Some(row.date) == cells.date
    && cells.amount.Number? && Is(cells.amount.d, 6, row.amount)
    && row.description == cells.description && row.reference == cells.reference
  }

  predicate RowAccepted(cells: CsvRow, row: BankRow) {
    cells.complete && RowFrom(cells, row) && RowOk(row)
  }

  lemma CellExactly(raw: Raw, n: int)
    ensures Parse(DEFAULT_DIGITS, raw, 6, -MAX_AMOUNT, MAX_AMOUNT, false) == Some(n) <==>
            raw.Number? && Is(raw.d, 6, n) && -MAX_AMOUNT <= n <= MAX_AMOUNT
  {
    Powers();
    ParseIff(DEFAULT_DIGITS, raw, 6, -MAX_AMOUNT, MAX_AMOUNT, false, n);
    assert Pow10(0) == 1;
  }

  lemma RowExactly(cells: CsvRow, before: seq<BankRow>, row: BankRow)
    ensures ReadRow(cells, before) == Ok(row) <==>
            RowAccepted(cells, row) && |before| < MAX_ROWS && !Seen(before, row.externalId)
  {
    hide Parse, Is, Strip, Seen;
    CellExactly(cells.amount, row.amount);
  }

  ghost predicate StatementAccepted(cells: seq<CsvRow>, rows: seq<BankRow>) {
    && |rows| == |cells| <= MAX_ROWS && DistinctIds(rows)
    && forall i :: 0 <= i < |cells| ==> RowAccepted(cells[i], rows[i])
  }

  lemma {:induction false} RowsExactly(cells: seq<CsvRow>, rows: seq<BankRow>)
    ensures ReadRows(cells) == Ok(rows) <==> StatementAccepted(cells, rows)
  {
    hide ReadRow, RowAccepted;
    if cells != [] && |rows| == |cells| {
      var n := |cells| - 1;
      RowsExactly(cells[..n], rows[..n]);
      RowExactly(cells[n], rows[..n], rows[n]);
      assert rows == rows[..n] + [rows[n]];
      if StatementAccepted(cells, rows) {
        assert StatementAccepted(cells[..n], rows[..n]);
        forall i | 0 <= i < n ensures rows[..n][i].externalId != rows[n].externalId {
          assert rows[..n][i] == rows[i];
        }
      }
      if ReadRows(cells) == Ok(rows) {
        assert ReadRows(cells[..n]).value == rows[..n];
        forall i | 0 <= i < n ensures rows[i].externalId != rows[n].externalId {
          assert rows[..n][i] == rows[i];
        }
      }
    }
  }

  /** A statement: accepted exactly as the rows that hold its cells, with distinct identifiers. */
  lemma StatementExactly(csv: Option<seq<CsvRow>>, rows: seq<BankRow>)
    ensures ParseCsv(csv) == Ok(rows) <==> csv.Some? && csv.value != [] && StatementAccepted(csv.value, rows)
  {
    hide ReadRows;
    if csv.Some? { RowsExactly(csv.value, rows); }
  }
}
