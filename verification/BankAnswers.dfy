/** What importing a statement, reconciling a row and storing a notice answer and change. */
module BankAnswers {
  // Said from the request and the rows.

  import opened Basics
  import opened Calculation
  import opened Pricing
  import opened Numbering
  import opened Books
  import opened Services
  import opened Banking
  import opened Invariants
  import opened Runs
  import opened BankProofs
  import opened Reachability
  import opened Reading
  import opened DraftAnswers
  import opened LedgerAnswers
  import opened PaymentAnswers

  // ---- import ----

  /** A row with this identifier is on file for the account. */
  predicate OnFileAs(bank: seq<BankTransaction>, account: nat, id: string) {
    exists k :: 0 <= k < |bank| && bank[k].account == account && bank[k].row.externalId == id
  }

  /** What is on file under the identifier of a row is that row. */
  predicate AgreesOn(bank: seq<BankTransaction>, account: nat, row: BankRow) {
    forall k :: 0 <= k < |bank| && bank[k].account == account && bank[k].row.externalId == row.externalId ==>
      bank[k].row == row
  }

  /** Every row on file under an identifier of the statement is the statement's row. */
  predicate Agrees(bank: seq<BankTransaction>, account: nat, rows: seq<BankRow>) {
    forall i :: 0 <= i < |rows| ==> AgreesOn(bank, account, rows[i])
  }

  lemma StoredExactly(accounts: seq<BankAccount>, bank: seq<BankTransaction>, account: nat, id: string)
    requires RowsOk(accounts, bank)
    ensures Stored(bank, account, id).Some? <==> OnFileAs(bank, account, id)
    ensures forall k :: 0 <= k < |bank| && bank[k].account == account && bank[k].row.externalId == id ==>
              Stored(bank, account, id) == Some(bank[k].row)
  {
    StoredExists(bank, account, id);
    if Stored(bank, account, id).Some? {
      var i := StoredRow(bank, account, id);
    }
  }

  lemma CompatibleExactly(accounts: seq<BankAccount>, bank: seq<BankTransaction>, account: nat, rows: seq<BankRow>)
    requires RowsOk(accounts, bank)
    ensures Compatible(bank, account, rows) <==> Agrees(bank, account, rows)
  {
    hide Stored, RowsOk, OnFileAs;
    forall i | 0 <= i < |rows|
      ensures Stored(bank, account, rows[i].externalId) in {None, Some(rows[i])} <==>
              AgreesOn(bank, account, rows[i]) {
      var id := rows[i].externalId;
      StoredExactly(accounts, bank, account, id);
      if Stored(bank, account, id).Some? {
        var k := StoredRow(bank, account, id);
      }
      if Stored(bank, account, id).None? { NotOnFile(bank, account, id); }
    }
  }

  lemma NotOnFile(bank: seq<BankTransaction>, account: nat, id: string)
    requires Stored(bank, account, id).None?
    ensures forall k :: 0 <= k < |bank| && bank[k].account == account ==> bank[k].row.externalId != id
  {
    StoredExists(bank, account, id);
  }

  /** The new rows are those of the statement that are not on file, each once. */
  lemma {:induction false} NewRowsExactly(accounts: seq<BankAccount>, bank: seq<BankTransaction>, account: nat,
                                          rows: seq<BankRow>)
    requires RowsOk(accounts, bank)
    ensures forall row :: row in NewRows(bank, account, rows) <==>
              row in rows && !OnFileAs(bank, account, row.externalId)
  {
    hide Stored, RowsOk, OnFileAs;
    if rows != [] {
      var n := |rows| - 1;
      NewRowsExactly(accounts, bank, account, rows[..n]);
      StoredExactly(accounts, bank, account, rows[n].externalId);
      assert rows == rows[..n] + [rows[n]];
    }
  }

  /** The rows of the statement that are on file already. */
  function OnFileRows(bank: seq<BankTransaction>, account: nat, rows: seq<BankRow>): set<nat> {
    set i | 0 <= i < |rows| && OnFileAs(bank, account, rows[i].externalId)
  }

  lemma {:induction false} CountOnFile(accounts: seq<BankAccount>, bank: seq<BankTransaction>, account: nat,
                                       rows: seq<BankRow>)
    requires RowsOk(accounts, bank)
    ensures |rows| - |NewRows(bank, account, rows)| == |OnFileRows(bank, account, rows)|
  {
    hide Stored, RowsOk, OnFileAs;
    if rows != [] {
      var n := |rows| - 1;
      CountOnFile(accounts, bank, account, rows[..n]);
      StoredExactly(accounts, bank, account, rows[n].externalId);
      var rest := OnFileRows(bank, account, rows[..n]);
      assert OnFileRows(bank, account, rows) ==
             if OnFileAs(bank, account, rows[n].externalId) then rest + {n} else rest;
    }
  }

  /** The bank rows after an import: those before, and each missing row of the statement once, not matched. */
  ghost predicate Imported(bank: seq<BankTransaction>, account: nat, rows: seq<BankRow>, after: seq<BankTransaction>) {
    && bank <= after
    && (forall k :: |bank| <= k < |after| ==>
          && after[k].account == account && after[k].matched.None? && after[k].row in rows
          && !OnFileAs(bank, account, after[k].row.externalId))
    && (forall i :: 0 <= i < |rows| ==> OnFileAs(after, account, rows[i].externalId))
  }

  /**
   What an import needs: who, an open account in the company's currency, the digest when it is confirmed, no conflict.
   */
  ghost predicate MayImport(s: State, actor: Actor, account: nat, rows: seq<BankRow>, confirm: bool,
                            digest: Option<Digest>) {
    && MayPost(actor) && account < |s.bankAccounts| && !s.bankAccounts[account].archived
    && s.bankAccounts[account].currency == s.company.currency
    && (confirm ==> digest == Some(Digest(account, s.company.currency, rows)))
    && Agrees(s.bankRows, account, rows)
  }

  /**
   In every reachable state: an import is accepted exactly when the statement holds these rows and it may be imported;
   a preview then changes nothing, and a confirmation stores the missing rows, which denote the cells they come from.
   */
  lemma ImportExactly(s: State, actor: Actor, account: nat, csv: Option<seq<CsvRow>>, confirm: bool,
                      digest: Option<Digest>,
                      rows: seq<BankRow>)
    requires Reachable(s)
    ensures var o := Import(s, actor, account, csv, confirm, digest);
            (o.answer.Ok? && o.answer.value.rows == rows) <==>
            && csv.Some? && csv.value != [] && StatementAccepted(csv.value, rows)
            && MayImport(s, actor, account, rows, confirm, digest)
    ensures var o := Import(s, actor, account, csv, confirm, digest);
            o.answer.Ok? && o.answer.value.rows == rows ==>
              && o.state == s.(bankRows := o.state.bankRows)
              && (if confirm then Imported(s.bankRows, account, rows, o.state.bankRows) else o.state == s)
              && o.answer.value.total == Sum(seq(|rows|, i requires 0 <= i < |rows| => rows[i].amount))
              && o.answer.value.created == (if confirm then |o.state.bankRows| - |s.bankRows| else 0)
              && o.answer.value.duplicates == |OnFileRows(s.bankRows, account, rows)|
              && o.answer.value.count == |rows| && o.answer.value.digest == Digest(account, s.company.currency, rows)
  {
    hide LedgerOk, ParseCsv, StatementAccepted, Compatible, Agrees, NewRows, RowsOk, Imported, Reachable;
    ReachableIsOk(s);
    StatementExactly(csv, rows);
    BankIsOk(s);
    CompatibleExactly(s.bankAccounts, s.bankRows, account, rows);
    assert Banking.Amounts(rows) == seq(|rows|, i requires 0 <= i < |rows| => rows[i].amount);
    CountOnFile(s.bankAccounts, s.bankRows, account, rows);
    var o := Import(s, actor, account, csv, confirm, digest);
    if o.answer.Ok? && o.answer.value.rows == rows && confirm {
      StatementOk(csv);
      ImportedIs(s.bankAccounts, s.bankRows, account, rows);
    }
  }

  lemma BankIsOk(s: State)
    requires Inv(s)
    ensures RowsOk(s.bankAccounts, s.bankRows)
  {}

  lemma ImportedIs(accounts: seq<BankAccount>, bank: seq<BankTransaction>, account: nat, rows: seq<BankRow>)
    requires RowsOk(accounts, bank)
    ensures Imported(bank, account, rows, bank + Unmatched(account, NewRows(bank, account, rows)))
  {
    hide RowsOk, NewRows;
    NewRowsExactly(accounts, bank, account, rows);
    var added := NewRows(bank, account, rows);
    var after := bank + Unmatched(account, added);
    assert forall j :: 0 <= j < |added| ==> added[j] in added;
    forall i | 0 <= i < |rows| ensures OnFileAs(after, account, rows[i].externalId) {
      if OnFileAs(bank, account, rows[i].externalId) {
        var k :| 0 <= k < |bank| && bank[k].account == account && bank[k].row.externalId == rows[i].externalId;
        assert after[k] == bank[k];
      } else {
        var j :| 0 <= j < |added| && added[j] == rows[i];
        assert after[|bank| + j].row == rows[i];
      }
    }
  }

  // ---- reconciliation ----

  /** What a reconciliation of a free row needs: a payment of the row's amount and day that the invoice can take. */
  ghost predicate MayReconcile(s: State, actor: Actor, row: nat, invoice: nat) {
    && MayPost(actor) && row < |s.bankRows| && invoice < |s.invoices|
    && var item := s.bankRows[row];
    && item.account < |s.bankAccounts| && !s.bankAccounts[item.account].archived && item.row.amount > 0
    && s.invoices[invoice].status == Validated && s.invoices[invoice].currency == s.bankAccounts[item.account].currency
    && item.row.amount % Quantum(s.company.precision) == 0 && item.row.amount <= Due(s, invoice)
    && Leq(s.invoices[invoice].issue, item.row.date) && PostsPayment(s) && |BankReference(row)| <= 200
    && exists period :: OpenOn(s, period, item.row.date)
  }

  function RowPayment(s: State, row: nat, invoice: nat): Payment
    requires row < |s.bankRows|
  {
    Payment(invoice, s.bankRows[row].row.amount, s.bankRows[row].row.date, BankReference(row))
  }

  lemma RowAsks(s: State, row: nat, invoice: nat, p: Payment)
    requires row < |s.bankRows| && invoice < |s.invoices|
    ensures Asks(s, invoice, BankPayment(row, s.bankRows[row]), p) ==> p == RowPayment(s, row, invoice)
    ensures var item := s.bankRows[row];
            Asks(s, invoice, BankPayment(row, item), RowPayment(s, row, invoice)) <==>
            && 0 < item.row.amount <= MAX_AMOUNT && item.row.amount % Quantum(s.company.precision) == 0
            && Leq(s.invoices[invoice].issue, item.row.date) && |BankReference(row)| <= 200
  {
    hide BankReference, Leq;
    ColumnIs(s.bankRows[row].row.amount, 6, p.amount);
    ColumnIs(s.bankRows[row].row.amount, 6, s.bankRows[row].row.amount);
  }

  lemma FreeKey(s: State, row: nat)
    requires Inv(s) && row < |s.bankRows| && s.bankRows[row].matched.None?
    ensures BankKey(row) !in s.records
  {}

  lemma TotalIsBounded(s: State, i: nat)
    requires Inv(s) && i < |s.invoices| && s.invoices[i].status == Validated
    ensures Due(s, i) <= MAX_AMOUNT
  {
    assert InvoiceOk(s, s.invoices[i]);
  }

  /**
   In every reachable state: a free row is reconciled exactly when the invoice can take its amount on its day; it then
   makes one payment of the row's amount, day and reference and matches the row with it. A matched row stays matched.
   */
  lemma ReconcileExactly(s: State, actor: Actor, row: nat, invoice: nat)
    requires Reachable(s) && row < |s.bankRows|
    ensures var o := Reconcile(s, actor, row, invoice);
            s.bankRows[row].matched.None? ==>
              && (o.answer.Ok? <==> MayReconcile(s, actor, row, invoice))
              && (o.answer.Ok? ==>
                    && o.answer == Ok(row) && o.state.payments == s.payments + [RowPayment(s, row, invoice)]
                    && o.state.bankRows ==
                       s.bankRows[row := s.bankRows[row].(matched := Some(Match(invoice, |s.payments|)))])
    ensures s.bankRows[row].matched.Some? ==>
              && Reconcile(s, actor, row, invoice).state == s
              && (Reconcile(s, actor, row, invoice).answer == Ok(row) <==>
                  MayPost(actor) && invoice < |s.invoices| && s.bankRows[row].matched.value.invoice == invoice)
  {
    hide Inv, RecordPayment, BankPayment, Due, OpenOn, Asks, PostsPayment, PaymentsAbove, LastPayment, BankReference,
      Moves, Reachable;
    ReachableIsOk(s);
    if s.bankRows[row].matched.None? && invoice < |s.invoices| {
      ReconcileCreatesOnePayment(s, actor, row, invoice);
      FreeKey(s, row);
      var data, p := BankPayment(row, s.bankRows[row]), RowPayment(s, row, invoice);
      RowAsks(s, row, invoice, p);
      PaymentNeeds(s, actor, invoice, Some(BankKey(row)), data);
      if s.invoices[invoice].status == Validated { TotalIsBounded(s, invoice); }
      if RecordPayment(s, actor, invoice, Some(BankKey(row)), data).answer.Ok? {
        var r, period :| Asks(s, invoice, data, r) && r.amount <= Due(s, invoice) && OpenOn(s, period, r.date);
        RowAsks(s, row, invoice, r);
      }
      if MayReconcile(s, actor, row, invoice) {
        var period :| OpenOn(s, period, s.bankRows[row].row.date);
        assert Asks(s, invoice, data, p) && p.amount <= Due(s, invoice) && OpenOn(s, period, p.date);
      }
    }
  }

  /** The reference of a reconciled payment reads BANKTX and the number of the row. */
  lemma ReferenceReads(row: nat) returns (digits: string)
    ensures BankReference(row) == "BANKTX-" + digits && Plain(digits) && Value(digits) == row
  {
    TextPlain(row);
    digits := Text(row);
  }

  // ---- notices ----

  predicate SameNotice(e: External, data: External) {
    e.integration == data.integration && e.externalId == data.externalId
  }

  /** A notice is on file with the integration's own identifier. */
  predicate Noticed(s: State, data: External) {
    exists k :: 0 <= k < |s.externals| && SameNotice(s.externals[k], data)
  }

  lemma {:induction false} KnownExactly(externals: seq<External>, data: External)
    ensures Known(externals, data.integration, data.externalId).None? <==>
            forall k :: 0 <= k < |externals| ==> !SameNotice(externals[k], data)
    ensures var known := Known(externals, data.integration, data.externalId);
            known.Some? ==> known.value in externals && SameNotice(known.value, data)
  {
    if externals != [] {
      KnownExactly(externals[..|externals| - 1], data);
    }
  }

  /**
   A new notice in the company's currency is stored as it is. A known identifier stores nothing: it is acknowledged for
   the same notice, and refused for another.
   */
  lemma ReceiveExactly(s: State, data: External)
    ensures !Noticed(s, data) ==>
              Receive(s, data) == if data.currency == s.company.currency && data.amount != 0
                                  then Outcome(s.(externals := s.externals + [data]), Ok(()))
                                  else Outcome(s, Err(InvalidInput))
    ensures Noticed(s, data) ==> Receive(s, data).state == s
    ensures Noticed(s, data) && data !in s.externals ==> Receive(s, data).answer.Err?
    ensures (forall e :: e in s.externals && SameNotice(e, data) ==> e == data) ==>
              Receive(s, data).answer.Ok? == (data.currency == s.company.currency && data.amount != 0)
  {
    KnownExactly(s.externals, data);
  }
}
