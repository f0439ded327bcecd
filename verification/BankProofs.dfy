/** Importing statements is all-or-nothing and idempotent; reconciling creates exactly one payment. */
module BankProofs {
  import opened Basics
  import opened Decimal
  import opened Calculation
  import opened Pricing
  import opened Books
  import opened Services
  import opened Banking
  import opened Invariants
  import opened Runs

  // ---- import ----

  /** The row of a statement with this identifier. */
  function Listed(rows: seq<BankRow>, id: string): Option<BankRow> {
    if rows == [] then None
    else if rows[|rows| - 1].externalId == id then Some(rows[|rows| - 1])
    else Listed(rows[..|rows| - 1], id)
  }

  lemma {:induction false} ListedSeen(rows: seq<BankRow>, id: string)
    ensures Listed(rows, id).Some? <==> Seen(rows, id)
    ensures Listed(rows, id).Some? ==> Listed(rows, id).value in rows && Listed(rows, id).value.externalId == id
  {
    if rows != [] {
      ListedSeen(rows[..|rows| - 1], id);
      SeenAppend(rows[..|rows| - 1], rows[|rows| - 1], id);
      assert rows == rows[..|rows| - 1] + [rows[|rows| - 1]];
    }
  }

  lemma {:induction false} StoredAfter(bank: seq<BankTransaction>, account: nat, added: seq<BankRow>, a: nat,
                                       id: string)
    ensures Stored(bank + Unmatched(account, added), a, id) ==
            if a == account && Listed(added, id).Some? then Listed(added, id) else Stored(bank, a, id)
  {
    if added == [] {
      assert bank + Unmatched(account, added) == bank;
    } else {
      var n := |added| - 1;
      StoredAfter(bank, account, added[..n], a, id);
      assert (bank + Unmatched(account, added))[..|bank| + n] == bank + Unmatched(account, added[..n]);
    }
  }

  lemma {:induction false} ListedNew(bank: seq<BankTransaction>, account: nat, rows: seq<BankRow>, id: string)
    requires DistinctIds(rows)
    ensures Listed(NewRows(bank, account, rows), id) ==
            if Stored(bank, account, id).None? then Listed(rows, id) else None
  {
    if rows != [] {
      var n := |rows| - 1;
      ListedNew(bank, account, rows[..n], id);
      var rest := NewRows(bank, account, rows[..n]);
      assert (rest + [rows[n]])[..|rest|] == rest;
    }
  }

  /** The rows on file after an import, as a whole: existing rows stay, missing rows are added. */
  function AfterImport(bank: seq<BankTransaction>, account: nat, rows: seq<BankRow>): seq<BankTransaction> {
    bank + Unmatched(account, NewRows(bank, account, rows))
  }

  /** A confirmed import stores exactly the previewed rows that were missing and keeps every other one. */
  lemma ImportStores(bank: seq<BankTransaction>, account: nat, rows: seq<BankRow>, a: nat, id: string)
    requires DistinctIds(rows)
    ensures Stored(AfterImport(bank, account, rows), a, id) ==
            if a == account && Stored(bank, a, id).None? then Listed(rows, id) else Stored(bank, a, id)
  {
    StoredAfter(bank, account, NewRows(bank, account, rows), a, id);
    ListedNew(bank, account, rows, id);
  }

  lemma {:induction false} NothingNew(bank: seq<BankTransaction>, account: nat, rows: seq<BankRow>)
    requires forall i :: 0 <= i < |rows| ==> Stored(bank, account, rows[i].externalId).Some?
    ensures NewRows(bank, account, rows) == []
  {
    if rows != [] {
      NothingNew(bank, account, rows[..|rows| - 1]);
    }
  }

  lemma {:induction false} ListedAt(rows: seq<BankRow>, i: nat)
    requires DistinctIds(rows) && i < |rows|
    ensures Listed(rows, rows[i].externalId) == Some(rows[i])
  {
    if i < |rows| - 1 {
      ListedAt(rows[..|rows| - 1], i);
    }
  }

  /** After a statement is imported every one of its rows is on file, exactly as listed. */
  lemma ImportedAreOnFile(bank: seq<BankTransaction>, account: nat, rows: seq<BankRow>)
    requires DistinctIds(rows) && Compatible(bank, account, rows)
    ensures forall i :: 0 <= i < |rows| ==>
              Stored(AfterImport(bank, account, rows), account, rows[i].externalId) == Some(rows[i])
  {
    forall i | 0 <= i < |rows|
      ensures Stored(AfterImport(bank, account, rows), account, rows[i].externalId) == Some(rows[i])
    {
      ImportStores(bank, account, rows, account, rows[i].externalId);
      ListedAt(rows, i);
    }
  }

  lemma StatementOk(csv: Option<seq<CsvRow>>)
    requires ParseCsv(csv).Ok?
    ensures DistinctIds(ParseCsv(csv).value)
    ensures forall i :: 0 <= i < |ParseCsv(csv).value| ==> RowOk(ParseCsv(csv).value[i])
    ensures 1 <= |ParseCsv(csv).value| <= MAX_ROWS
  {
    ReadRowsOk(csv.value);
  }

  lemma {:induction false} StoredExists(bank: seq<BankTransaction>, account: nat, id: string)
    ensures Stored(bank, account, id).Some? <==>
            exists i :: 0 <= i < |bank| && bank[i].account == account && bank[i].row.externalId == id
  {
    if bank != [] {
      var n := |bank| - 1;
      StoredExists(bank[..n], account, id);
      if Stored(bank[..n], account, id).Some? {
        var i :| 0 <= i < n && bank[..n][i].account == account && bank[..n][i].row.externalId == id;
        assert bank[i].account == account && bank[i].row.externalId == id;
      }
      if i :| 0 <= i < n && bank[i].account == account && bank[i].row.externalId == id {
        assert bank[..n][i].account == account && bank[..n][i].row.externalId == id;
      }
    }
  }

  lemma {:induction false} StoredRow(bank: seq<BankTransaction>, account: nat, id: string) returns (i: nat)
    requires Stored(bank, account, id).Some?
    ensures i < |bank| && bank[i].account == account && bank[i].row.externalId == id
            && Stored(bank, account, id) == Some(bank[i].row)
  {
    var n := |bank| - 1;
    if bank[n].account == account && bank[n].row.externalId == id {
      i := n;
    } else {
      i := StoredRow(bank[..n], account, id);
    }
  }

  /** A row on file is found unchanged in any later file that kept it and in which identifiers are unique. */
  lemma StoredKept(accounts: seq<BankAccount>, bank: seq<BankTransaction>, later: seq<BankTransaction>, account: nat,
                   id: string)
    requires |bank| <= |later| && forall i :: 0 <= i < |bank| ==>
               later[i].account == bank[i].account && later[i].row == bank[i].row
    requires RowsOk(accounts, later) && Stored(bank, account, id).Some?
    ensures Stored(later, account, id) == Stored(bank, account, id)
  {
    var i := StoredRow(bank, account, id);
    StoredExists(later, account, id);
    assert later[i].account == account && later[i].row.externalId == id;
    var j := StoredRow(later, account, id);
  }

  /** Two statements agree when they give the same row to every identifier they share. */
  ghost predicate Agree(first: seq<BankRow>, second: seq<BankRow>) {
    forall id :: Listed(first, id).Some? && Listed(second, id).Some? ==> Listed(first, id) == Listed(second, id)
  }

  /** Compatible imports commute: either order is accepted and leaves the same rows on file. */
  lemma ImportsCommute(bank: seq<BankTransaction>, x: nat, first: seq<BankRow>, y: nat, second: seq<BankRow>)
    requires DistinctIds(first) && DistinctIds(second) && Compatible(bank, x, first) && Compatible(bank, y, second)
    requires x == y ==> Agree(first, second)
    ensures Compatible(AfterImport(bank, x, first), y, second) && Compatible(AfterImport(bank, y, second), x, first)
    ensures forall a, id ::
              Stored(AfterImport(AfterImport(bank, x, first), y, second), a, id)
              == Stored(AfterImport(AfterImport(bank, y, second), x, first), a, id)
  {
    StillCompatible(bank, x, first, y, second);
    StillCompatible(bank, y, second, x, first);
    forall a, id
      ensures Stored(AfterImport(AfterImport(bank, x, first), y, second), a, id)
           == Stored(AfterImport(AfterImport(bank, y, second), x, first), a, id)
    {
      hide AfterImport, Stored, Listed;
      ImportStores(AfterImport(bank, x, first), y, second, a, id);
      ImportStores(AfterImport(bank, y, second), x, first, a, id);
      ImportStores(bank, x, first, a, id);
      ImportStores(bank, y, second, a, id);
    }
  }

  lemma StillCompatible(bank: seq<BankTransaction>, x: nat, first: seq<BankRow>, y: nat, second: seq<BankRow>)
    requires DistinctIds(first) && DistinctIds(second) && Compatible(bank, y, second)
    requires x == y ==> Agree(first, second)
    ensures Compatible(AfterImport(bank, x, first), y, second)
  {
    hide AfterImport;
    forall i | 0 <= i < |second|
      ensures Stored(AfterImport(bank, x, first), y, second[i].externalId).None?
           || Stored(AfterImport(bank, x, first), y, second[i].externalId) == Some(second[i])
    {
      ImportStores(bank, x, first, y, second[i].externalId);
      ListedAt(second, i);
    }
  }

  /** created + duplicates = count, a preview changes nothing, and a refusal changes nothing. */
  lemma ImportReport(s: State, actor: Actor, account: nat, csv: Option<seq<CsvRow>>, confirm: bool,
                     digest: Option<Digest>)
    ensures var o := Import(s, actor, account, csv, confirm, digest);
            && (o.answer.Err? || !confirm ==> o.state == s)
            && (o.answer.Ok? ==>
                  && o.answer.value.count == |o.answer.value.rows|
                  && (confirm ==> o.answer.value.created + o.answer.value.duplicates == o.answer.value.count
                                  && o.state == s.(bankRows := AfterImport(s.bankRows, account, o.answer.value.rows))
                                  && |o.state.bankRows| == |s.bankRows| + o.answer.value.created)
                  && (!confirm ==> o.answer.value.created == 0))
  {
    hide ParseCsv, Allowed, Compatible;
    if ParseCsv(csv).Ok? {
      NewRowsShort(s.bankRows, account, ParseCsv(csv).value);
    }
  }

  /** What a preview shows is what its confirmation stores, as long as the stored rows have not changed. */
  lemma ConfirmFollowsPreview(s: State, actor: Actor, account: nat, csv: Option<seq<CsvRow>>)
    requires Import(s, actor, account, csv, false, None).answer.Ok?
    ensures var shown := Import(s, actor, account, csv, false, None).answer.value;
            var done := Import(s, actor, account, csv, true, Some(shown.digest));
            done.answer.Ok? && done.answer.value == shown.(created := shown.count - shown.duplicates)
  {
    hide ParseCsv, Allowed, Compatible;
    NewRowsShort(s.bankRows, account, ParseCsv(csv).value);
  }

  lemma {:induction false} NewRowsIn(bank: seq<BankTransaction>, account: nat, rows: seq<BankRow>)
    ensures forall i :: 0 <= i < |NewRows(bank, account, rows)| ==>
              NewRows(bank, account, rows)[i] in rows
              && Stored(bank, account, NewRows(bank, account, rows)[i].externalId).None?
    ensures DistinctIds(rows) ==> DistinctIds(NewRows(bank, account, rows))
  {
    if rows != [] {
      NewRowsIn(bank, account, rows[..|rows| - 1]);
    }
  }

  lemma ImportKeepsRows(accounts: seq<BankAccount>, bank: seq<BankTransaction>, account: nat, rows: seq<BankRow>)
    requires RowsOk(accounts, bank) && account < |accounts| && DistinctIds(rows)
    requires forall i :: 0 <= i < |rows| ==> RowOk(rows[i])
    ensures RowsOk(accounts, AfterImport(bank, account, rows))
  {
    NewRowsIn(bank, account, rows);
    var after := AfterImport(bank, account, rows);
    var added := NewRows(bank, account, rows);
    forall i, j | 0 <= i < j < |after| && after[i].account == after[j].account
      ensures after[i].row.externalId != after[j].row.externalId
    {
      if j >= |bank| && i < |bank| {
        StoredExists(bank, account, added[j - |bank|].externalId);
      }
    }
    forall i | 0 <= i < |after| ensures after[i].account < |accounts| && after[i].row.amount != 0 {
      if i >= |bank| {
        assert added[i - |bank|] in rows;
      }
    }
  }

  // ---- reconciliation ----

  lemma {:induction false} NoneAbove(payments: seq<Payment>, invoice: nat, above: int)
    requires forall k :: above < k < |payments| && k >= 0 ==> payments[k].invoice != invoice
    ensures PaymentsAbove(payments, invoice, above) == []
  {
    if payments != [] {
      NoneAbove(payments[..|payments| - 1], invoice, above);
    }
  }

  /** Exactly one payment of the invoice has an identifier above the previous largest one: the new one. */
  lemma OneAbove(payments: seq<Payment>, p: Payment)
    ensures PaymentsAbove(payments + [p], p.invoice, LastPayment(payments, p.invoice)) == [|payments|]
  {
    NoneAbove(payments, p.invoice, LastPayment(payments, p.invoice));
    assert (payments + [p])[..|payments|] == payments;
  }

  lemma ColumnValue(prec: nat, amount: int, places: nat, n: int)
    requires prec >= 28 && places <= 6 && Parse(prec, Column(amount, 6), places, 0, MAX_AMOUNT, true) == Some(n)
    ensures n * Quantum(places) == amount
  {
    Powers();
    Pow10Mono(28, prec);
    ParseIff(prec, Column(amount, 6), places, 0, MAX_AMOUNT, true, n);
    IsFiner(Dec(amount, 0 - 6), places, n, 6 - places);
    UnitIs(amount, 6);
    IsUnique(Dec(amount, 0 - 6), 6, amount, n * Pow10(6 - places));
  }

  /** The outcome of a reconciliation that is not a repetition. */
  ghost predicate Reconciled(s: State, t: State, row: nat, invoice: nat)
    requires row < |s.bankRows|
  {
    var item := s.bankRows[row];
    && item.matched.None?
    && t.payments == s.payments + [Payment(invoice, item.row.amount, item.row.date, BankReference(row))]
    && t.bankRows == s.bankRows[row := item.(matched := Some(Match(invoice, |s.payments|)))]
    && t.invoices == s.invoices && t.bankAccounts == s.bankAccounts && t.externals == s.externals
    && BankKey(row) !in s.records && t.records.Keys == s.records.Keys + {BankKey(row)}
  }

  lemma BankPaymentExact(s: State, row: nat, invoice: nat)
    requires row < |s.bankRows| && invoice < |s.invoices|
    requires PaymentRequest(s.invoices[invoice], BankPayment(row, s.bankRows[row])).Ok?
    ensures PaymentRequest(s.invoices[invoice], BankPayment(row, s.bankRows[row])).value.(invoice := invoice)
            == Payment(invoice, s.bankRows[row].row.amount, s.bankRows[row].row.date, BankReference(row))
  {
    var places := PlacesOf(s.invoices[invoice]);
    var amount := s.bankRows[row].row.amount;
    ColumnValue(DEFAULT_DIGITS, amount, places,
                Parse(DEFAULT_DIGITS, Column(amount, 6), places, 0, MAX_AMOUNT, true).value);
  }

  /** A reconciliation refuses and changes nothing, finds the row reconciled, or makes a payment and looks for it. */
  lemma ReconcileCases(s: State, actor: Actor, row: nat, invoice: nat)
    ensures var o := Reconcile(s, actor, row, invoice);
            || (o.answer.Err? && o.state == s && o.answer.error != DatabaseRejected)
            || (o == Outcome(s, Ok(row)) && row < |s.bankRows| && s.bankRows[row].matched.Some?
                && s.bankRows[row].matched.value.invoice == invoice)
            || (row < |s.bankRows| && invoice < |s.invoices| && s.bankRows[row].matched.None?
                && o == Settled(s, row, invoice, RecordPayment(s, actor, invoice, Some(BankKey(row)),
                                                               BankPayment(row, s.bankRows[row]))))
  {
    hide RecordPayment, BankPayment, PaymentsAbove, LastPayment;
    if row < |s.bankRows| {
      PaymentKeepsRows(s, actor, invoice, Some(BankKey(row)), BankPayment(row, s.bankRows[row]));
    }
  }

  lemma PaymentKeepsRows(s: State, actor: Actor, id: nat, key: Option<Key>, data: PaymentData)
    ensures RecordPayment(s, actor, id, key, data).state.bankRows == s.bankRows
  {
    hide Parse, NonZero, PeriodOf, PaymentMark, Paid;
  }

  /** The end of a reconciliation, after the payment. */
  function Settled(s: State, row: nat, invoice: nat, paid: Outcome<nat>): Outcome<nat>
    requires row < |s.bankRows|
  {
    if paid.answer.Err? then Outcome(s, Err(paid.answer.error))
    else
      var added := PaymentsAbove(paid.state.payments, invoice, LastPayment(s.payments, invoice));
      if |added| != 1 || row >= |paid.state.bankRows| then Outcome(s, Err(DatabaseRejected))
      else
        var matched := s.bankRows[row].(matched := Some(Match(invoice, added[0])));
        Outcome(paid.state.(bankRows := paid.state.bankRows[row := matched]), Ok(row))
  }

  /**
   A reconciliation never meets an unexpected number of payments. Either nothing changes, or the row
   was free, its key was new, and it is now matched with the one payment created: same invoice, same
   amount, same day.
   */
  lemma ReconcileCreatesOnePayment(s: State, actor: Actor, row: nat, invoice: nat)
    requires Inv(s)
    ensures var o := Reconcile(s, actor, row, invoice);
            && o.answer != Err(DatabaseRejected)
            && (o.answer.Err? ==> o.state == s)
            && (o.state == s || (row < |s.bankRows| && invoice < |s.invoices| && Reconciled(s, o.state, row, invoice)))
            && (o.answer.Ok? ==> row < |o.state.bankRows| && o.state.bankRows[row].matched.Some?
                                 && o.state.bankRows[row].matched.value.invoice == invoice)
    ensures Moves(s, Reconcile(s, actor, row, invoice).state.(bankRows := s.bankRows))
  {
    hide LedgerOk, Extends, RecordPayment, Reconcile, PaymentRequest, Paying, PaymentMark, Allowed, BankPayment,
      BankReference, CurrenciesOk, RowsOk, MatchesOk, MatchesInjective, PaymentsAbove, LastPayment;
    Stays(s);
    ReconcileCases(s, actor, row, invoice);
    if row < |s.bankRows| && invoice < |s.invoices| && s.bankRows[row].matched.None? {
      var key := Some(BankKey(row));
      var data := BankPayment(row, s.bankRows[row]);
      var paid := RecordPayment(s, actor, invoice, key, data);
      RecordPaymentCases(s, actor, invoice, key, data);
      RecordPaymentErrors(s, actor, invoice, key, data);
      if paid.state != s {
        var p := PaymentRequest(s.invoices[invoice], data).value.(invoice := invoice);
        PayingMoves(s, paid.state, p, key.value, PaymentMark(invoice, s.invoices[invoice], p));
        BankPaymentExact(s, row, invoice);
        OneAbove(s.payments, p);
      }
    }
  }

  lemma RecordPaymentErrors(s: State, actor: Actor, id: nat, key: Option<Key>, data: PaymentData)
    ensures RecordPayment(s, actor, id, key, data).answer != Err(DatabaseRejected)
    ensures RecordPayment(s, actor, id, key, data).answer.Err? ==> RecordPayment(s, actor, id, key, data).state == s
  {
    hide Parse, NonZero, PeriodOf, PaymentMark, Paid;
  }

  lemma ReconcileKeeps(s: State, actor: Actor, row: nat, invoice: nat)
    requires Inv(s)
    ensures Inv(Reconcile(s, actor, row, invoice).state) && Extends(s, Reconcile(s, actor, row, invoice).state)
  {
    hide LedgerOk, Reconcile, BankReference, CurrenciesOk, RowsOk;
    var t := Reconcile(s, actor, row, invoice).state;
    ReconcileCreatesOnePayment(s, actor, row, invoice);
    if t != s {
      var u := t.(bankRows := s.bankRows);
      SameLedgerTables(u, t);
      MatchAdded(s, t, row, invoice);
      RowsMatched(s, t, row, invoice);
    }
  }

  /** The bank rows play no part in the ledger's own invariant. */
  lemma SameLedgerTables(u: State, t: State)
    requires LedgerOk(u) && t == u.(bankRows := t.bankRows)
    ensures LedgerOk(t)
  {
    hide Balance, Documents, Paid, NumbersOk, PeriodsOk, DocumentOk, SealedOk, DraftOk, RecordsOk, CompanyOk;
    SameLedger(u, t);
    forall i | 0 <= i < |t.invoices| ensures InvoiceOk(t, t.invoices[i]) {
      SameInvoiceOk(u, t, u.invoices[i]);
    }
  }

  lemma MatchAdded(s: State, t: State, row: nat, invoice: nat)
    requires row < |s.bankRows| && Reconciled(s, t, row, invoice)
    requires MatchesOk(s.payments, s.records, s.bankRows) && MatchesInjective(s.bankRows)
             && BankKeysUsed(s.records, s.bankRows)
    ensures MatchesOk(t.payments, t.records, t.bankRows) && MatchesInjective(t.bankRows)
            && BankKeysUsed(t.records, t.bankRows)
  {
    hide BankReference;
    forall i | 0 <= i < |t.bankRows|
      ensures MatchOk(t.payments, t.records, i, t.bankRows[i])
      ensures i != row && t.bankRows[i].matched.Some? ==> t.bankRows[i].matched.value.payment < |s.payments|
    {
      if i != row {
        assert MatchOk(s.payments, s.records, i, s.bankRows[i]);
      }
    }
  }

  lemma RowsMatched(s: State, t: State, row: nat, invoice: nat)
    requires row < |s.bankRows| && Reconciled(s, t, row, invoice) && RowsOk(s.bankAccounts, s.bankRows)
    ensures RowsOk(t.bankAccounts, t.bankRows)
  {
    hide BankReference;
    assert forall i :: 0 <= i < |t.bankRows| ==>
        t.bankRows[i].account == s.bankRows[i].account && t.bankRows[i].row == s.bankRows[i].row;
  }
}
