/** Bank statements: reading rows, importing them once, and matching a row with an invoice. */
module Banking {
  import opened Basics
  import opened Calculation
  import opened Pricing
  import opened Numbering
  import opened Books
  import opened Services

  const MAX_ROWS: nat := 500

  /** A row of cells: `complete` when no cell is missing or extra, `date` when it is in canonical form. */
  datatype CsvRow = CsvRow(complete: bool, externalId: string, date: Option<Date>, amount: Raw,
                           description: string, reference: string)

  datatype Digest = Digest(account: nat, currency: string, rows: seq<BankRow>)

  datatype Report = Report(rows: seq<BankRow>, count: nat, duplicates: nat, created: nat, digest: Digest, total: int)

  predicate Seen(rows: seq<BankRow>, id: string) {
    exists i :: 0 <= i < |rows| && rows[i].externalId == id
  }

  function ReadRow(row: CsvRow, before: seq<BankRow>): Result<BankRow> {
    var id := Strip(row.externalId);
    if |before| >= MAX_ROWS || !row.complete || id == "" || |id| > 128 || Seen(before, id) then Err(InvalidInput)
    else match Parse(DEFAULT_DIGITS, row.amount, 6, -MAX_AMOUNT, MAX_AMOUNT, false)
      case None => Err(InvalidAmount)
      case Some(n) =>
        if n == 0 then Err(InvalidAmount)
        else if |row.description| > 500 || |row.reference| > 200 || row.date.None? then Err(InvalidInput)
        else Ok(BankRow(id, row.date.value, n, row.description, row.reference))
  }

  function ReadRows(rows: seq<CsvRow>): (r: Result<seq<BankRow>>)
    ensures r.Ok? ==> |r.value| == |rows|
  {
    if rows == [] then Ok([])
    else
      match ReadRows(rows[..|rows| - 1])
      case Err(e) => Err(e)
      case Ok(before) =>
        match ReadRow(rows[|rows| - 1], before)
        case Err(e) => Err(e)
        case Ok(row) => Ok(before + [row])
  }

  /** `csv` is None when the text, its size or its header is refused. */
  function ParseCsv(csv: Option<seq<CsvRow>>): Result<seq<BankRow>> {
    if csv.None? || csv.value == [] then Err(InvalidInput) else ReadRows(csv.value)
  }

  predicate DistinctIds(rows: seq<BankRow>) {
    forall i, j :: 0 <= i < j < |rows| ==> rows[i].externalId != rows[j].externalId
  }

  predicate RowOk(row: BankRow) {
    row.externalId != "" && |row.externalId| <= 128 && row.amount != 0 && -MAX_AMOUNT <= row.amount <= MAX_AMOUNT
    && |row.description| <= 500 && |row.reference| <= 200
  }

  lemma ReadRowOk(row: CsvRow, before: seq<BankRow>)
    requires ReadRow(row, before).Ok?
    ensures RowOk(ReadRow(row, before).value) && !Seen(before, ReadRow(row, before).value.externalId)
    ensures |before| < MAX_ROWS
  {
    var n := ReadRow(row, before).value.amount;
    Powers();
    assert Pow10(0) == 1;
    ParseIff(DEFAULT_DIGITS, row.amount, 6, -MAX_AMOUNT, MAX_AMOUNT, false, n);
  }

  /** Every accepted statement has between one and five hundred well-formed rows with distinct identifiers. */
  lemma {:induction false} ReadRowsOk(rows: seq<CsvRow>)
    requires ReadRows(rows).Ok?
    ensures var r := ReadRows(rows).value;
            DistinctIds(r) && |r| <= MAX_ROWS && forall i :: 0 <= i < |r| ==> RowOk(r[i])
  {
    if rows != [] {
      var before := ReadRows(rows[..|rows| - 1]).value;
      ReadRowsOk(rows[..|rows| - 1]);
      ReadRowOk(rows[|rows| - 1], before);
    }
  }

  lemma {:induction false} RefusedPrefix(rows: seq<CsvRow>, i: nat)
    requires i <= |rows| && ReadRows(rows[..i]).Err?
    ensures ReadRows(rows) == ReadRows(rows[..i])
    decreases |rows| - i
  {
    if i == |rows| {
      assert rows[..i] == rows;
    } else {
      assert rows[..i + 1][..i] == rows[..i];
      RefusedPrefix(rows, i + 1);
    }
  }

  /** The row loop of `parse_csv`, which keeps the identifiers already seen in a set. */
  method ReadStatement(csv: Option<seq<CsvRow>>) returns (r: Result<seq<BankRow>>)
    ensures r == ParseCsv(csv)
  {
    hide Seen, Parse, Strip;
    if csv.None? {
      return Err(InvalidInput);
    }
    EmptySeen();
    var rows := csv.value;
    var result: seq<BankRow>, seen: set<string> := [], {};
    for i := 0 to |rows|
      invariant ReadRows(rows[..i]) == Ok(result) && |result| == i
      invariant forall id :: id in seen <==> Seen(result, id)
    {
      var row := rows[i];
      assert rows[..i + 1][..i] == rows[..i];
      if ReadRow(row, result).Err? {
        RefusedPrefix(rows, i + 1);
      }
      var id := Strip(row.externalId);
      if |result| >= MAX_ROWS || !row.complete || id == "" || |id| > 128 || id in seen {
        return Err(InvalidInput);
      }
      seen := seen + {id};
      var amount := Parse(DEFAULT_DIGITS, row.amount, 6, -MAX_AMOUNT, MAX_AMOUNT, false);
      if amount.None? || amount.value == 0 {
        return Err(InvalidAmount);
      }
      if |row.description| > 500 || |row.reference| > 200 || row.date.None? {
        return Err(InvalidInput);
      }
      ghost var before := result;
      result := result + [BankRow(id, row.date.value, amount.value, row.description, row.reference)];
      assert forall x :: Seen(result, x) <==> Seen(before, x) || x == id by {
        forall x ensures Seen(result, x) <==> Seen(before, x) || x == id {
          SeenAppend(before, result[i], x);
        }
      }
    }
    assert rows[..|rows|] == rows;
    if result == [] {
      return Err(InvalidInput);
    }
    return Ok(result);
  }

  lemma EmptySeen()
    ensures forall id :: !Seen([], id)
  {}

  lemma SeenAppend(rows: seq<BankRow>, row: BankRow, id: string)
    ensures Seen(rows + [row], id) <==> Seen(rows, id) || row.externalId == id
  {
    if Seen(rows, id) {
      var i :| 0 <= i < |rows| && rows[i].externalId == id;
      assert (rows + [row])[i].externalId == id;
    } else if row.externalId == id {
      assert (rows + [row])[|rows|].externalId == id;
    }
  }

  // ---- import ----

  /** The stored row of an account with this identifier, when there is one. */
  function Stored(bank: seq<BankTransaction>, account: nat, id: string): Option<BankRow> {
    if bank == [] then None
    else
      var last := bank[|bank| - 1];
      if last.account == account && last.row.externalId == id then Some(last.row)
      else Stored(bank[..|bank| - 1], account, id)
  }

  predicate Compatible(bank: seq<BankTransaction>, account: nat, rows: seq<BankRow>) {
    forall i :: 0 <= i < |rows| ==>
      Stored(bank, account, rows[i].externalId).None? || Stored(bank, account, rows[i].externalId) == Some(rows[i])
  }

  /** The rows that are not stored yet, in the order of the statement. */
  function NewRows(bank: seq<BankTransaction>, account: nat, rows: seq<BankRow>): seq<BankRow> {
    if rows == [] then []
    else
      var rest := NewRows(bank, account, rows[..|rows| - 1]);
      var last := rows[|rows| - 1];
      if Stored(bank, account, last.externalId).None? then rest + [last] else rest
  }

  function Unmatched(account: nat, rows: seq<BankRow>): (r: seq<BankTransaction>)
    ensures |r| == |rows|
  {
    seq(|rows|, i requires 0 <= i < |rows| => BankTransaction(account, rows[i], None))
  }

  function Amounts(rows: seq<BankRow>): (r: seq<int>) ensures |r| == |rows| {
    seq(|rows|, i requires 0 <= i < |rows| => rows[i].amount)
  }

  lemma {:induction false} NewRowsShort(bank: seq<BankTransaction>, account: nat, rows: seq<BankRow>)
    ensures |NewRows(bank, account, rows)| <= |rows|
  {
    if rows != [] {
      NewRowsShort(bank, account, rows[..|rows| - 1]);
    }
  }

  function Import(s: State, actor: Actor, account: nat, csv: Option<seq<CsvRow>>, confirm: bool,
                  digest: Option<Digest>): Outcome<Report> {
    if !Allowed(actor, FINANCE) then Outcome(s, Err(PermissionDenied))
    else if account >= |s.bankAccounts| || s.bankAccounts[account].archived then Outcome(s, Err(NotFound))
    else if s.bankAccounts[account].currency != s.company.currency then Outcome(s, Err(InvalidInput))
    else
      match ParseCsv(csv) case Err(e) => Outcome(s, Err(e)) case Ok(rows) =>
      var seal := Digest(account, s.bankAccounts[account].currency, rows);
      if confirm && digest != Some(seal) then Outcome(s, Err(IdempotencyConflict))
      else if !Compatible(s.bankRows, account, rows) then Outcome(s, Err(IdempotencyConflict))
      else
        var added := NewRows(s.bankRows, account, rows);
        NewRowsShort(s.bankRows, account, rows);
        Outcome(if confirm then s.(bankRows := s.bankRows + Unmatched(account, added)) else s,
                Ok(Report(rows, |rows|, |rows| - |added|, if confirm then |added| else 0, seal, Sum(Amounts(rows)))))
  }

  // ---- reconciliation ----

  /** The largest identifier of a payment of this invoice, or -1. */
  function LastPayment(payments: seq<Payment>, invoice: nat): (r: int)
    ensures -1 <= r < |payments|
    ensures forall k :: r < k < |payments| ==> payments[k].invoice != invoice
  {
    if payments == [] then -1
    else if payments[|payments| - 1].invoice == invoice then |payments| - 1
    else LastPayment(payments[..|payments| - 1], invoice)
  }

  /** The payments of this invoice above an identifier. */
  function PaymentsAbove(payments: seq<Payment>, invoice: nat, above: int): seq<nat> {
    if payments == [] then []
    else
      var n := |payments| - 1;
      var rest := PaymentsAbove(payments[..n], invoice, above);
      if payments[n].invoice == invoice && n > above then rest + [n] else rest
  }

  function BankReference(row: nat): string { "BANKTX-" + Text(row) }

  function BankPayment(row: nat, item: BankTransaction): PaymentData {
    PaymentData(Column(item.row.amount, 6), Given(item.row.date), Given(BankReference(row)))
  }

  function Reconcile(s: State, actor: Actor, row: nat, invoice: nat): Outcome<nat> {
    if !Allowed(actor, FINANCE) then Outcome(s, Err(PermissionDenied))
    else if row >= |s.bankRows| || invoice >= |s.invoices| then Outcome(s, Err(NotFound))
    else
      var item := s.bankRows[row];
      if item.matched.Some? then
        if item.matched.value.invoice != invoice then Outcome(s, Err(IdempotencyConflict)) else Outcome(s, Ok(row))
      else if item.account >= |s.bankAccounts| then Outcome(s, Err(NotFound))
      else
        var account := s.bankAccounts[item.account];
        var inv := s.invoices[invoice];
        if account.archived || item.row.amount <= 0 || inv.status != Validated || inv.currency != account.currency then
          Outcome(s, Err(InvalidInput))
        else
          var previous := LastPayment(s.payments, invoice);
          var paid := RecordPayment(s, actor, invoice, Some(BankKey(row)), BankPayment(row, item));
          if paid.answer.Err? then Outcome(s, Err(paid.answer.error))
          else
            var added := PaymentsAbove(paid.state.payments, invoice, previous);
            if |added| != 1 then Outcome(s, Err(DatabaseRejected))
            else
              var matched := item.(matched := Some(Match(invoice, added[0])));
              Outcome(paid.state.(bankRows := paid.state.bankRows[row := matched]), Ok(row))
  }
}
