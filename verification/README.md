# Verification of the Azula accounting core

This project models three connected parts of Azula's backend and proves what they promise over all
inputs and all runs. `dafny verify dfyconfig.toml` checks everything.

- **The invoice ledger** of one company: drafts, validation with numbering and double-entry postings,
  payments, periods, the configuration lock and idempotency records, with the exact decimal arithmetic
  of `_calculate`, the database's own triggers as a second specification, and the reports.
- **Bank import and reconciliation**: the preview and confirmation of a statement, duplicates, and the
  payment that a reconciliation creates; external writes with their own idempotency keys.
- **The subscription protocol** with a remote payment provider whose answers can be lost, late or
  repeated: checkout in three transactions, recovery, notifications in any order, canonical reads.

## How it is built

A service call is one step on the company's rows, because every service takes the company lock and runs
in one transaction. Each service exists twice. The *specification* is a function from the old rows to the
new rows and the answer (`Services`, `Banking`, `Billing`). The *service as it runs* is a method that
changes one field or table at a time and returns to the saved rows on a refusal (`Database.Tables`,
`BillingService.Service`, `ExternalWrites.RequestLog`, `Pricing.Calculate`, `Banking.ReadStatement`,
`Billing.FindCheckout`, `Reports.TrialBalance`), and its contract says that it does exactly what the
specification says. The laws are lemmas about the specification and about runs of it.

What each operation answers and stores is stated once more from the outside, in the modules `Reading` and
`...Answers`: when exactly it is accepted, by conditions on the request, the rows and the provider, and what the
rows then hold, field by field. These statements name none of the functions that compute the answer, and they
hold in every reachable state.

In `Database.Tables` each write is first submitted to the row triggers and constraints, and each
transaction to the deferred triggers; either may refuse and would then abort the service with
`DatabaseRejected`. Every service is proved to do what its specification says and never to answer that way, so
no trigger ever refuses a service: the services refine the database's rules.

Modules, from the bottom up: `Basics`, `Decimal` (the decimal contexts), `Calculation` and `Pricing`
(lines and totals), `Numbering`, `Books` (rows), `Services`, `Banking`, `Invariants`, `Preservation`,
`Runs`, `BankProofs`, `Reachability` (runs), `Replay` (idempotency), `Reports`, `Guards`, `GuardProofs`,
`Refinement`, `Database`, `Printing`; `Reading` (items and statements), `DraftAnswers`, `LedgerAnswers`,
`PaymentAnswers`, `SettingsAnswers`, `BankAnswers`, `ReportAnswers`; `ExternalWrites`; `Billing`, `BillingRuns` (the provider, the clock and
the service interleaved), `BillingInvariant`, `BillingKeeps`, `BillingOutside` (what happens outside, also
during a transaction), `BillingSteps`, `BillingHistory`, `BillingReads`, `BillingTrials`, `BillingSafety`,
`BillingExamples`, `BillingService`, `BillingFollowed`, `BillingAnswers`, `CheckoutAnswers`.

Amounts are integers in millionths, rates in ten-thousandths of a percent. A decimal value is a
coefficient and an exponent, with the context's number of digits as a parameter, so trailing zeros and
roundings are visible. Rows are identified by their position. A run is any sequence of calls, by any
actors, from a company without documents; `Reachable` means reached by such a run.

## Assumptions

- The provider: the same key and arguments give the same session or customer, and other arguments under a
  used key are refused; no session is created at or after its deadline; complete and expired sessions stay
  so; `canceled` and `incomplete_expired` are absorbing; a subscription arises only from an open session,
  which it completes, and keeps its customer. A request whose answer was lost may be acted on at any later
  time, and the provider may act between any two calls and clock readings of one transaction.
- The company's own customer has no sessions and no subscriptions but those this service asked for: sessions
  and subscriptions made by hand or by another application belong to other customers.
- A fingerprint is the structured value it digests, and bank keys are a key space of their own.

## What the proofs found

- **An attempt can be given up too early.** `recover_checkout` reads the clock twice
  (`backend/billing/services.py:135` and `:147`). If the first reading is before the deadline and the
  second is not, and the session is unknown because its answer was lost, the attempt is marked expired
  without a search, although its session may be open, may have been paid, or may be created between the
  readings. `BillingSafety.ExpiryIsSafeExactly` gives the exact condition, which the two readings decide: the
  expiry is safe whatever the provider is and does, if and only if they do not straddle the deadline. The
  rest of the protocol's invariant holds in every run; that at most one subscription is unfinished holds in
  every run without such a recovery, `BillingSafety.SecondSubscriptionWasGivenUp` says that nothing else
  leads to two, and `BillingExamples.TwoSubscriptionsAreReached` is a run that ends with two.
- **A trial can be prolonged** through another status: line 301 overwrites the remembered end of the trial on
  every read, and line 307 compares the next trial with the remembered end only. While the row remembers an
  end within the first trial, no read gives access by trial past it. In a run whose followed subscription
  is not over, a change at the provider and one step of the service can give such access if and only if the row
  remembers a later end (`BillingTrials.ProlongedExactly`); every such access in a run has that cause
  (`BillingTrials.AccessPastHasCause`), and `BillingExamples.TrialIsProlonged` is a run in which it happens.
- `docs/architecture.md:32` leaves the discount out of the net amount; the code applies it, as
  `docs/documents.md:5` says. The model follows the code.

## Model

| member | source | states |
|---|---|---|
| `Decimal.FitExact` | backend/erp/services.py:142-143 | rounding a result to the context's digits keeps every number that has that many digits at some scale, whatever zeros its representation carries |
| `Decimal.MulExact` | backend/erp/services.py:155-156 | a product that fits the context at some scale is exact in every representation of its factors |
| `Decimal.QuantizeIs` | backend/erp/services.py:77 | `quantize` gives the rounding of the exact value, and raises exactly when that needs more digits than the context has |
| `Decimal.SumExact` | backend/erp/services.py:160 | a sum whose running totals fit the context is exact |
| `Calculation.ParseIff` | backend/erp/services.py:66-81 | an input is accepted with a value if and only if it denotes that value at the allowed decimals, inside the bounds and, where asked, positive; trailing zeros never matter |
| `Calculation.LineExact` | backend/erp/services.py:142-159 | for all accepted inputs the fifty-digit context alters nothing: the only roundings are the two half-up quantizations, which never raise |
| `Calculation.TaxWithinNet` | backend/erp/services.py:151-157 | on every line the tax lies between zero and the net amount |
| `Calculation.LineRoundingBound` | backend/erp/services.py:155-159 | a line's total is within one and a half quanta of its exact value |
| `Pricing.InvoiceRoundingBound` | backend/erp/services.py:137-163 | the total of n lines is within 1.5 n quanta of its exact value |
| `Pricing.SumFits` | backend/erp/services.py:160-162 | the default context adds up to two hundred accepted amounts exactly and compares the sum with the maximum correctly |
| `Pricing.LineOfSane` | backend/erp/services.py:144-159 | an accepted line is in range, priced at the company's precision and refers to an active product |
| `Pricing.Calculate` | backend/erp/services.py:137-163 | the loop with decimal contexts gives, for every input, the lines or the first error of the exact specification |
| `Pricing.PriceLine` | backend/erp/services.py:144-159 | one pass of the loop: the line or the error of the specification, with its decimal total |
| `Pricing.RecalculationFixed` | backend/erp/services.py:189-198 | stored lines, read back and priced again at their precision, come back unchanged |
| `Pricing.RecalculationIsIdentity` | backend/erp/services.py:189-198 | a whole calculation repeated on its own result is the identity |
| `Reading.LineReadExactly` | backend/erp/services.py:144-159 | an item is accepted as a line if and only if the line holds the numbers it denotes, inside their bounds, a known active product and its trimmed description, and its net and tax are the nearest quanta, halves going up, of the exact net and of the tax on the rounded net |
| `Reading.CalculationExactly` | backend/erp/services.py:137-163 | a list of items is accepted as these lines if and only if there are one to two hundred, each is accepted as its line and the totals stay within the maximum |
| `Numbering.NumberTextInjective` | backend/erp/services.py:301 | two equal invoice numbers have the same year and counter, also beyond six digits |
| `Numbering.NumberReads` | backend/erp/services.py:301 | the number reads INV, the year and the counter with at least six digits, and year and counter can be read off it |
| `Books.PeriodOf` | backend/erp/services.py:102-108 | finds a period containing the day, or none contains it |
| `Books.MoneyExact` | backend/erp/serializers.py:280-281 | an amount of whole quanta is printed at that precision without losing a digit |
| `Preservation.InvoicePostingAccepted` | backend/erp/services.py:202-216 | for an invoice being validated the amount tests of `_entry` never fire: only a missing journal or account refuses |
| `Preservation.PutDraftKeeps` | backend/erp/services.py:167-199 | storing a draft keeps the ledger's invariant and everything already frozen |
| `Preservation.SealKeeps` | backend/erp/services.py:299-314 | freezing, numbering and posting an invoice keeps the ledger's invariant and everything already frozen |
| `Preservation.SettleKeeps` | backend/erp/services.py:338-343 | recording and posting a payment keeps the ledger's invariant and everything already frozen |
| `Reachability.StepKeeps` | backend/erp/services.py:166-412 | every request of any kind keeps the whole invariant and everything already frozen |
| `Reachability.ReachableIsOk` | backend/erp/services.py:166-412 | every reachable state satisfies the whole invariant |
| `Reachability.ControlAccountsAgree` | backend/erp/services.py:310-311 | in every reachable state receivable is what is unpaid, bank is the payments, revenue the nets and tax the taxes of the validated invoices |
| `Reachability.NumbersAreGapless` | backend/erp/services.py:300-303 | the numbers of a year are exactly those from one to the counter, each on one validated invoice |
| `Reachability.ValidatedIsFrozen` | backend/erp/services.py:174-175 | a validated invoice, with its amounts, lines, number and snapshot, is the same in every later run, and its currency and precision stay the company's |
| `Reachability.PeriodsKept` | backend/erp/services.py:376-403 | periods stay pairwise disjoint, and a period with entries keeps its dates |
| `Reachability.EntriesStayInTheirPeriod` | backend/erp/services.py:376-403 | in all later runs every entry is unchanged and lies in its recorded period, which is the only period of its day |
| `Replay.ClosedPeriodGainsNothing` | backend/erp/services.py:102-108 | no request of any kind adds an entry to a period that is closed |
| `Replay.SpentKeyChangesNothing` | backend/erp/services.py:111-127 | a spent key changes nothing whatever is asked under it, and any request with another fingerprint is refused |
| `Replay.ValidateReplays` | backend/erp/services.py:279-293 | repeating a validation after any later run succeeds and changes nothing |
| `Replay.PaymentReplays` | backend/erp/services.py:317-334 | repeating a payment after any later run, with a numerically equal amount, succeeds and changes nothing, although the checks before the key are made again |
| `Replay.DuplicateReplays` | backend/erp/services.py:259-276 | repeating a duplication after any later run answers the same copy and changes nothing |
| `Replay.ReimportCreatesNothing` | backend/connections/services.py:127-143 | importing a statement again after any later run, by anybody who may and while the account is open, succeeds, finds every row on file and creates nothing |
| `Replay.PreviewForetellsSnapshot` | backend/erp/services.py:242-256 | the preview of a draft is the snapshot that a validation right after it freezes, apart from number and status |
| `DraftAnswers.SaveDraftExactly` | backend/erp/services.py:166-199 | in every reachable state a draft is saved, and is this draft, if and only if it holds what was given and otherwise what it held or the company's default, for an active customer, in order of its days, inside the limits of the texts, with lines priced from the items and the sums of the lines |
| `DraftAnswers.DuplicateExactly` | backend/erp/services.py:259-276 | under a new key a copy is made if and only if the actor, the days and the original allow it; it holds the original's customer, language, texts and items, priced again, under the new days, and is remembered under the key |
| `LedgerAnswers.ValidateExactly` | backend/erp/services.py:279-314 | in every reachable state and under a new key a validation is accepted if and only if the draft as priced now has a positive total, its day lies in an open period and journal and accounts exist; then the row, the counter, the entry and the key become as told, and nothing else changes |
| `LedgerAnswers.ValidateMakes` | backend/erp/services.py:296-314 | an accepted validation stores a document with the repriced amounts, the next number of its year, and a snapshot that tells its lines, amounts, texts and days and the customer, issuer and product references of that moment |
| `LedgerAnswers.SnapshotTells` | backend/erp/services.py:219-239 | in every reachable state the snapshot of a validated invoice tells its number, days, texts, currency and precision, and net, tax and total of the document and of every line, exactly and each in its place |
| `LedgerAnswers.PreviewExactly` | backend/erp/services.py:242-256 | a preview answers a document if and only if it is what was frozen, or tells the draft as priced now with the customer, issuer and product references of the moment |
| `PaymentAnswers.PaymentExactly` | backend/erp/services.py:317-343 | in every reachable state and under a new key a payment that the request asks for is recorded if and only if it is at most what is open, its day lies in an open period, and journal and accounts exist; the payment, its entry and the key are added, and every refusal has its own error |
| `PaymentAnswers.PaymentNeeds` | backend/erp/services.py:317-343 | a request is answered with a payment if and only if it asks for one of a positive whole number of quanta, not before the issue, within what is open, in an open period, by an allowed actor on a validated invoice |
| `PaymentAnswers.PayInFull` | backend/erp/services.py:335 | a payment of exactly what is open succeeds and leaves nothing open |
| `SettingsAnswers.ConfigureExactly` | backend/erp/services.py:346-372 | the company becomes this one if and only if an administrator asks for it, currency and precision are well formed, and they stay when anything was recorded |
| `SettingsAnswers.SetPeriodExactly` | backend/erp/services.py:375-403 | a period is stored, and is this one, if and only if it holds what was given and otherwise what it held, is disjoint from the others, and keeps its days when something was posted in it |
| `SettingsAnswers.ClosingCloses` | backend/erp/services.py:398 | asking to close or to open a period does so and changes nothing else |
| `Reports.EntryBalanced` | backend/erp/services.py:209-215 | every entry has both sides equal to the invoice's total or the payment's amount |
| `Reports.TrialTotals` | backend/erp/api.py:546-555 | in every reachable state the account totals of a period add up to its entries, and both sides are equal |
| `Reports.TrialBalance` | backend/erp/api.py:548-556 | the loop returns one row per account and equal totals, which are the sums of the period's entries |
| `Reports.ReportsAgree` | backend/erp/reporting.py:49-75 | the dashboard's outstanding amount equals the receivable balance over all periods' trial balances, and the sum of all customers' undated statements |
| `Reports.OverdueAgrees` | backend/erp/partner_api.py:99-107 | the statements' overdue amounts add up to the dashboard's, between zero and the outstanding amount |
| `ReportAnswers.OverdueExactly` | backend/erp/reporting.py:69 | nothing is overdue while no invoice was due before today, and from one day to a later one the overdue amount grows by exactly what is open on the invoices due from the first day on and before the second |
| `ReportAnswers.ReceivedExactly` | backend/erp/reporting.py:49-75 | what was received between two days includes both: a day counts its own payments, adjoining spans share only their common day, and without bounds everything is counted |
| `ReportAnswers.StatementExactly` | backend/erp/partner_api.py:99-117 | the balance of a customer's statement is what is open on its validated invoices, one by one |
| `ReportAnswers.TrialRowsAgree` | backend/erp/api.py:546-555 | in every period the customers are debited what revenue and tax are credited, and credited what the bank is debited, and no account moves the other way |
| `ReportAnswers.TrialBalancesAgree` | backend/erp/api.py:546-555 | over all periods the bank has what was received, the customers owe what is outstanding, and revenue and tax together are what was invoiced |
| `Printing.DocumentPrintsExactly` | backend/erp/partner_api.py:111-112 | in every reachable state the amounts of a validated invoice and of its lines, what is paid on it and what is open are printed at the company's precision without losing a digit |
| `Printing.PaymentPrintsExactly` | backend/erp/partner_api.py:113 | every payment is printed exactly |
| `Printing.StatementPrintsExactly` | backend/erp/partner_api.py:105-117 | the total, paid, balance and overdue amounts of every customer's undated statement are printed exactly |
| `Printing.DashboardPrintsExactly` | backend/erp/reporting.py:72-84 | the invoiced and received amounts between any two days, the outstanding and the overdue amounts are printed exactly |
| `Printing.TrialBalancePrintsExactly` | backend/erp/api.py:548-556 | the debit, credit and balance of every row of every trial balance and both its totals are printed exactly |
| `Pricing.AddUp` | backend/erp/services.py:193-195 | the sums of nets and taxes and their total, in the default context, are the exact ones |
| `GuardProofs.CommitAccepted` | backend/erp/migrations/0002_financial_guards.py:149-197 | the deferred triggers on entries, documents and payments accept every state that keeps the invariant, whatever rows were touched |
| `GuardProofs.DraftAccepted` | backend/erp/migrations/0002_financial_guards.py:21-57 | the row triggers and constraints accept every write of a draft and its lines |
| `GuardProofs.SealAccepted` | backend/erp/migrations/0002_financial_guards.py:21-34 | the trigger and constraints on invoices accept the update that validates one |
| `GuardProofs.NumberIsFree` | backend/erp/models.py:157-211 | the number given to an invoice is not on any other, so its uniqueness constraint never fires |
| `GuardProofs.PaymentAccepted` | backend/erp/migrations/0002_financial_guards.py:85-104 | the trigger on payments accepts every payment within the open amount |
| `GuardProofs.ImportAccepted` | backend/connections/migrations/0002_connection_guards.py:48-59 | the guard and uniqueness constraint accept every row an import adds |
| `GuardProofs.MatchAccepted` | backend/connections/migrations/0002_connection_guards.py:60-75 | the guard accepts the update that reconciles a row: same invoice, amount, day and currency |
| `Database.Tables.StoreDraft` | backend/erp/services.py:166-199 | the writes of a draft, one table at a time, do what the specification says; it is never refused by the database |
| `Database.Tables.PostEntry` | backend/erp/services.py:202-216 | a posting is written or refused as specified, under the entry and line triggers |
| `Database.Tables.ValidateInvoice` | backend/erp/services.py:279-314 | the writes of a validation do what the specification says, or leave every row as it was; it is never refused by the database |
| `Database.Tables.PayInvoice` | backend/erp/services.py:317-343 | the writes of a payment do what the specification says, or leave every row as it was; it is never refused by the database |
| `Database.Tables.DuplicateInvoice` | backend/erp/services.py:259-276 | the writes of a duplication do what the specification says, or leave every row as it was; it is never refused by the database |
| `Database.Tables.SetCompany` | backend/erp/services.py:346-372 | the configuration is written as specified, under the configuration triggers of both applications; it is never refused by the database |
| `Database.Tables.StorePeriod` | backend/erp/services.py:375-403 | a period is written as specified, under the trigger against overlaps and moved dates; it is never refused by the database |
| `Database.Tables.ImportStatement` | backend/connections/services.py:116-143 | an import writes all the missing rows or none, as specified; it is never refused by the database |
| `Database.Tables.ReconcileRow` | backend/connections/services.py:146-173 | a reconciliation pays and matches as specified, or leaves every row as it was; it is never refused by the database |
| `Banking.ReadStatement` | backend/connections/services.py:86-108 | the loop with its set of identifiers reads or refuses a statement as specified |
| `Reading.StatementExactly` | backend/connections/services.py:77-108 | a statement is read as these rows if and only if there are one to five hundred, every row holds its cells, with the exact amount to six decimals, its day and its stripped identifier, inside the limits, and the identifiers are distinct |
| `BankAnswers.ImportExactly` | backend/connections/services.py:116-143 | in every reachable state an import is accepted with these rows if and only if the statement reads as them, the account is open and in the company's currency, the digest fits and no row on file differs; a confirmation adds the missing rows as read, a preview changes nothing, and count, created, duplicates and total are theirs |
| `BankAnswers.ReconcileExactly` | backend/connections/services.py:146-173 | in every reachable state a free row is reconciled if and only if its amount is positive, exact at the precision and within what is open on a validated invoice of its currency, on a day of an open period not before the issue; it adds one payment of the row's amount, day and reference and matches the row with it |
| `BankAnswers.ReceiveExactly` | backend/connections/services.py:66-74 | a new notice in the company's currency is stored as it is; a known identifier stores nothing and is accepted only with the same content |
| `BankProofs.ImportStores` | backend/connections/services.py:131-140 | a confirmed import stores exactly the previewed rows that were missing and keeps every stored row |
| `BankProofs.ImportsCommute` | backend/connections/services.py:131-140 | two compatible imports are accepted in either order and leave the same rows on file |
| `BankProofs.ReconcileCreatesOnePayment` | backend/connections/services.py:146-173 | a reconciliation always finds exactly the one payment it created, with the row's invoice, amount and day; the key is always new, so the payment is never a replay |
| `BankProofs.ReconcileKeeps` | backend/connections/services.py:146-173 | it keeps the whole invariant, in which matched rows and payments correspond one to one |
| `Reachability.ReconciledForEver` | backend/connections/migrations/0002_connection_guards.py:60-75 | in all later runs a reconciled row keeps its payment, with its invoice, amount and day, and no other row has that payment |
| `ExternalWrites.AtMostOnce` | backend/connections/services.py:44-63 | over every run an external request runs its operation to the end at most once, and exactly then it is kept |
| `ExternalWrites.RepeatedWrite` | backend/connections/services.py:51-58 | after any later run the same request gets the same response and another under its key is refused, and neither changes anything |
| `ExternalWrites.FirstWrite` | backend/connections/services.py:44-63 | a write under a new, usable key does what its operation does and keeps its response, or passes its error on; any other changes nothing |
| `ExternalWrites.RequestLog.Submit` | backend/connections/services.py:44-63 | the write as it runs does what the specification says |
| `Billing.FindIsReliable` | backend/billing/provider.py:245-268 | when the bounded search finds nothing, no session of the attempt exists; when it finds one, it is the attempt's |
| `Billing.FindCheckout` | backend/billing/provider.py:245-268 | the loop over a page of a hundred sessions finds, misses or refuses as specified |
| `BillingKeeps.OneSession` | backend/billing/services.py:223-226 | two sessions of one attempt are the same, and have its key |
| `BillingKeeps.CreateKeeps` | backend/billing/services.py:149-152 | a creation, prompt or late, opens a session only for an attempt that has none and whose deadline is ahead, and keeps the invariant |
| `BillingKeeps.PayKeeps` | backend/billing/services.py:289-292 | a payment completes a session of the attempt in progress and keeps the invariant |
| `BillingKeeps.ReserveKeeps` | backend/billing/services.py:164-196 | an attempt is reserved only while none is in progress and the followed subscription is finished |
| `BillingSteps.NewSubKeeps` | backend/billing/services.py:282-295 | moving on to the subscription bought in the attempt in progress keeps the invariant, every other one being finished |
| `BillingSteps.SynchronizeKeeps` | backend/billing/services.py:266-322 | a canonical read keeps the invariant although the provider moves on between its two calls and before its end |
| `BillingSteps.RecoverKeeps` | backend/billing/services.py:121-152 | a recovery keeps the invariant whatever the provider does between its calls and clock readings; an attempt given up across its deadline is recorded |
| `BillingSteps.OpenSessionKeeps` | backend/billing/services.py:209-234 | sending a creation keeps the invariant when its answer arrives, is stale or is lost |
| `BillingSteps.ProcessEventKeeps` | backend/billing/services.py:325-361 | a notification, true or outdated, keeps the invariant |
| `BillingSteps.RunKeeps` | backend/billing/services.py:121-361 | every state of every run satisfies the protocol's invariant, with the provider acting at any instant of any transaction that reads it more than once |
| `BillingSafety.AtMostOneSubscription` | backend/billing/services.py:214-219 | over every run with lost answers, retries, recoveries and reordered events in which no recovery straddles a deadline, a company has at most one unfinished subscription |
| `BillingSafety.SecondSubscriptionWasGivenUp` | backend/billing/services.py:147-152 | in every run, of two unfinished subscriptions one was bought in an attempt that a recovery of that run gave up across its deadline |
| `BillingSafety.ExpiryIsSafeExactly` | backend/billing/services.py:121-152 | expiring an attempt in progress leaves no session of it that can complete or has completed, for every provider the rows allow and everything it may do meanwhile, if and only if the two clock readings do not straddle the attempt's deadline; when they do, the customer may have paid before it |
| `BillingSafety.RecoveryExpiresExactly` | backend/billing/services.py:133-152 | with at most a page of sessions, a recovery whose calls are answered and that does not straddle expires the attempt in progress if and only if no session of it can complete or has completed, and its session is known or its deadline has passed |
| `BillingExamples.TwoSubscriptionsAreReached` | backend/billing/services.py:135-152 | a concrete run, with one lost answer and a recovery of one second, that ends with two unfinished subscriptions |
| `Billing.FindAnswers` | backend/billing/provider.py:262-268 | the search answers whenever the customer has at most a page of sessions and no two of the attempt |
| `BillingAnswers.PageExactly` | backend/billing/provider.py:245-268 | a session of the customer is on the page if and only if fewer than a hundred of its sessions are newer |
| `BillingAnswers.FindExactly` | backend/billing/provider.py:245-268 | when an attempt has at most one session, the search finds it if and only if it is on the page, misses it only when no session exists and the page holds all, and is ambiguous otherwise |
| `BillingSafety.CreationsAreIdentical` | backend/billing/services.py:191-234 | every creation ever sent for an attempt carries the same arguments and key, through lost answers and edits of the company, the address and the catalogue |
| `BillingSafety.CustomerCreationsAreIdentical` | backend/billing/services.py:171-206 | every creation of the company's customer ever sent carries the same name and address under its key, however the company was renamed |
| `BillingKeeps.EnsureCustomerKeeps` | backend/billing/services.py:198-206 | the customer's creation keeps the invariant, and when its answer arrives it is never a conflict of keys |
| `BillingSteps.ReservedDigest` | backend/billing/services.py:180-196 | the attempt a checkout goes on with is the one of its own key, so the key it sends is the attempt's |
| `BillingSafety.OneSessionOneAttempt` | backend/billing/models.py:66-70 | in every run an attempt has at most one session, and at most one attempt is pending or open |
| `BillingSafety.ConstraintsHold` | backend/billing/models.py:6-70 | in every run plan codes, prices, attempt keys and known sessions are unique |
| `BillingSafety.ReplacedOnlyWhenFinished` | backend/billing/services.py:280-295 | the row follows another subscription only after the provider has finished the one it followed |
| `BillingHistory.PlanKeepsItsPrice` | backend/billing/management/commands/configure_subscription_plan.py:35-43 | in every continuation of every run a plan keeps its code and its price |
| `BillingHistory.FinishedAttemptIsFrozen` | backend/billing/services.py:126-127 | a complete or expired attempt is never touched again |
| `BillingHistory.EventsTakeEffectOnce` | backend/billing/services.py:343-348 | once an event is recorded, no later notification with its identifier changes anything; one with another body is refused |
| `BillingHistory.TrialIsReservedOnce` | backend/billing/services.py:191-192 | after a trial was accepted, no later attempt of any run is reserved with trial days |
| `BillingReads.LastReadDecides` | backend/billing/services.py:266-322 | two runs, with any events in any order, whose last accepted reads are equal leave equal plans, statuses and dates |
| `BillingReads.AccessIsPaidOrTrial` | backend/billing/access.py:8-17 | access without an exemption means that the last read was active with a latest invoice paid in full, by this customer, for this subscription, or of an accepted trial, that ends later |
| `BillingAnswers.AccessExactly` | backend/billing/services.py:296-317 | in every run the row shows the status and days last read, and its access ends with the period of an active subscription whose latest invoice is paid in full, with the trial or the period of a trial, whichever is first, and is absent otherwise |
| `BillingAnswers.HasAccessExactly` | backend/billing/access.py:8-17 | in every run and at every instant there is access if and only if the company is exempt, or the subscription last read is active, paid in full and its period ends later, or it is a trial that ends later |
| `BillingAnswers.ReadExactly` | backend/billing/services.py:266-322 | a canonical read is accepted if and only if the subscription is the company's, of one item at a plan's price, in a known state, with a trial that fits, and is the one followed or was bought in the attempt in progress while nothing is unfinished; the row then says what was read |
| `BillingFollowed.RunFollowed` | backend/billing/services.py:289-298 | in every run the subscription followed was bought in a session of an attempt that is complete |
| `BillingAnswers.PaidIsRecovered` | backend/billing/services.py:133-144 | a recovery that finds the session of the attempt completed follows the subscription bought in it and completes the attempt if and only if the provider answers and the subscription is as it was ordered; otherwise it changes nothing |
| `BillingAnswers.LostPaymentIsRecovered` | backend/billing/services.py:121-144 | in every run, a checkout that was paid and whose notification was lost is followed after the next recovery that the provider answers, with the attempt complete and the provider's status and days on the row |
| `BillingAnswers.UnpaidIsRecovered` | backend/billing/services.py:145-152 | a session still open leaves its attempt in progress, and one that is over expires it |
| `BillingAnswers.UnknownIsRecovered` | backend/billing/services.py:135-152 | the answer of a recovery that knows no session, by the two clock readings, the provider's page and whether it answers |
| `BillingAnswers.NotifiedExactly` | backend/billing/services.py:356-361 | a notification of a subscription is applied and recorded if and only if the canonical read of that subscription is accepted, and otherwise changes nothing |
| `BillingAnswers.ExpiryNotified` | backend/billing/services.py:348-361 | a notification that a session is over expires the attempt in progress if and only if it is its session and the provider says so |
| `CheckoutAnswers.ReserveExactly` | backend/billing/services.py:164-196 | with a plan sold and nothing unfinished, a known key goes on with its own attempt of that plan while it is in progress, a new key gets the link of an attempt in progress for that plan before its deadline, or a new attempt with the plan's trial days and one hour; everything else is refused |
| `CheckoutAnswers.OpenExactly` | backend/billing/services.py:209-234 | for an attempt that can be opened exactly its frozen arguments are sent; an answer records the attempt's one session, created unless it exists or the deadline has passed |
| `CheckoutAnswers.CustomerExactly` | backend/billing/services.py:198-206 | the customer is recorded if and only if it was already, or the provider answers the creation with the frozen name and address |
| `CheckoutAnswers.PlanExactly` | backend/billing/management/commands/configure_subscription_plan.py:34-43 | a price is imported if and only if no plan has its code with another price or its price under another code; it replaces the plan of its code or is added |
| `BillingTrials.TrialAccessIsBounded` | backend/billing/services.py:306-314 | the first trial ends within the authorised days and a minute, and access by trial never passes it in a run whose reads of other statuses report no later end |
| `BillingTrials.StepGivesNothing` | backend/billing/services.py:305-314 | while the row remembers an end within the first trial, one step of any kind, whatever it reads, gives no access by trial past that trial |
| `BillingTrials.AccessPastHasCause` | backend/billing/services.py:296-311 | in every run, access by trial past the end of the first trial comes after a state in which the row remembered a later end |
| `BillingTrials.ProlongedExactly` | backend/billing/services.py:296-311 | in every run whose followed subscription is not over, what happens outside and one step of the service can give access by trial past the end of the first trial if and only if the row remembers a later end |
| `BillingExamples.TrialIsProlonged` | backend/billing/services.py:301-311 | a concrete run with access by trial six days after the only authorised trial ended |
| `BillingService.Service.Recover` | backend/billing/services.py:121-152 | the recovery as it runs does what the specification says, or leaves every row as it was |
| `BillingService.Service.Reserve` | backend/billing/services.py:164-196 | the reservation as it runs does what the specification says, or leaves every row as it was |
| `BillingService.Service.EnsureCustomer` | backend/billing/services.py:198-206 | the customer is recorded only after the provider's answer |
| `BillingService.Service.OpenSession` | backend/billing/services.py:209-234 | the session is recorded only after its answer was checked, as specified |
| `BillingService.Service.TakeOver` | backend/billing/services.py:296-320 | the fields overwritten one by one give the row of the specification, or the trial is refused |
| `BillingService.Service.PaysInFull` | backend/billing/services.py:312-316 | the tests on the latest invoice accept exactly an invoice paid in full, by this customer, for this subscription |
| `BillingService.Service.Synchronize` | backend/billing/services.py:266-322 | the canonical read as it runs accepts and writes exactly what the specification says |
| `BillingService.Service.ProcessEvent` | backend/billing/services.py:325-361 | the notification as it runs does what the specification says, or leaves every row as it was |
| `BillingService.Service.ConfigurePlan` | backend/billing/management/commands/configure_subscription_plan.py:34-43 | a price is imported or refused as specified |

## Read off the definitions

These lemmas and contracts hold by unfolding and are stated for their callers: a refused validation consumes
no number (`Reachability.RefusedConsumesNothing`), the configuration is locked while anything depends on it
(`Reachability.ConfigureLocked`), a preview is confirmed as shown and created plus duplicates is the count
(`BankProofs.ConfirmFollowsPreview`, `BankProofs.ImportReport`), a notice is stored once
(`ExternalWrites.NoticesAreUnique`), an event is recorded or refused
(`BillingHistory.EventsAreRecordedOrRefused`), a write or a transaction is kept as the triggers decide
(`Database.Tables.Submit`, `Database.Tables.Finish`), and the specifications of the services do not answer with a
refusal of the database (`Refinement.ServicesAreNeverRejected`).

## Left out

- PostgreSQL locking and isolation: a service call is one atomic step, and a rollback restores the rows.
- Audit events, `validated_at` and the other timestamps of the ledger: written, never read by the services.
- HTTP, views, serializers, sessions, throttling: an actor is a role and an activity flag, of the right company.
- One company: its rows are the state; references to another company's rows are not expressible, so the company-mismatch branches of the triggers are not.
- Catalogue, customer and price management: a call puts any product or customer row; deletions do not occur.
- Print settings, the locale and other fields of the company that no rule reads; `full_clean` on them.
- Reading decimal text: an input is already a decimal, or not one; negative zero and the exponent limits of the contexts are not represented.
- Dates are calendar days by year and day of the year; parsing them is not modelled.
- The width of the columns beyond the amounts: counters and identifiers are unbounded.
- Fingerprints are structured values, assumed free of collisions; bank keys are a constructor of their own.
- The CSV lexer and the header of a statement: the model starts from rows of cells.
- IBANs, names and identifiers of bank accounts, and the issue of integration keys.
- The dashboard's counts, its list of eight overdue invoices, and the dates of a statement.
- `bootstrap_company`: a step of the runs; its accounts and journals are sets.
- The provider's transport, the signature and the decoding of notifications: a call answers or fails, possibly after its effect. Malformed identifiers in a notification are not represented.
- `validate_price` and the amounts of plans: whether the price still agrees is an input of the step that sends a creation.
- Test and live mode, `BILLING_ENABLED` and the configuration tests: one mode, switched on.
- The portal, `plan_data` and `overview`: they change nothing.
- Retention of idempotency keys by the provider: kept for ever, though an attempt lives for an hour only.
- The row of the subscription exists from the start, with its default values.
- Progress over time: a recovery is described call by call; the provider may refuse for ever.
- `_admin`: the billing transactions are called by an administrator; a refusal would change nothing.
- `Runs.Receive`: refuses a zero amount, which the serializer in front of it checks.
