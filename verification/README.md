# Money, stock and documents of the accounting platform, verified

A Dafny model of the parts of the platform that move money and stock, and of a few
self-contained algorithms beside them. `dafny verify dfyconfig.toml` checks all of it.

## How the model is built

**The books** (`Books.dfy`) are one state machine over append-only tables: the journal
(`Accounting`), the stock ledger (`Inventory`), invoices, payments and bank lines (`Invoicing`,
`BankMatching`), purchase orders, receipts and bills (`Procurement`). One step is one database
transaction; a thrown error is a refusal that leaves the state as it was. `Run` executes any
sequence of attempted steps, and the main results hold after every such run.

Each operation is written twice. A function says what the tables are afterwards; a method of a
class (`Journal`, `StockLedger`, `SalesBook`, `PurchaseBook`, `PayrollBook`, `ImportDesk`,
`Platform`) does it the way the service does, with loops, field updates and rollback, and is
proved to reach exactly that state. The lemmas are about the functions.

- `Valuation`, `WeightedAverage`, `LayerRebuild`, `StockTieOut`, `StockReconciliation`: weighted
  average cost, its rounding, rebuilding it from history, and the Inventory control account.
- `InvoiceEntries`, `Receivables`, `ReceivableControl`, `ReceivableSchedule`, `ReceivableAccount`:
  what invoices owe, one by one and on the control account.
- `PurchaseControl`, `PurchaseRuns`, `GrniReport`, `LateBills`, `GrniResidue`: order caps and the
  account of goods received, not invoiced.
- `JournalRuns`, `Statements`, `StatementRuns`, `PeriodClose`: reports and closed months.
- `Payroll`, `PayrollRuns`, `Billing`: payslips and their runs; subscriptions.
- `Search`, `Pagination`, `StatementImport`, `Csv`, `Base32`, `PngRows`: algorithms.

Money is integer cents, quantities are thousandths of a unit, rates are millionths.

## Where the code does less than one would expect

- The paid amount of an issued invoice stays within its total only for a positive exchange
  rate; the services take rate and price as strings of any sign (`server/src/routes.ts:1711`).
- The GRNI report filters bills by posting time as well as by journal date, so it disagrees with
  the account while a bill is dated before a cut-off and posted after it, which can happen.
- A rebuilt layer can lose cents of goods receipts whose evidence is gone, because their cost
  was a rounded total and only the rounded unit cost is left.
- Search pages agree with each other only while the sources answer in one order, which is sure
  exactly where score, title and id tell results apart; the customer and supplier documents of
  one contact share all three.
- A walk through pages of 1 to 50 can run into a refused cursor exactly when there are more than
  1,000,001 results, and no walk reaches the end of more than 1,000,050.
- Closing a month does not freeze the trial balance at its end while an earlier month is open:
  it is frozen exactly when the months back to the earliest date still posted to are all closed.
- A payroll run with no tax, no social security or no net pay cannot be posted; a payroll of
  people who are all below the tax threshold is one.

## Hypotheses

- Transactions are serial. Recording a payment and both bank matchers read the invoice without a
  row lock (`server/src/invoicing.ts:504`, `server/src/bank-reconciliation.ts:698`).
- Movements are replayed in the order they were applied, which is the order by creation time
  and id (`server/src/inventory.ts:103`).
- Row ids are random, so ids of different tables differ; here they carry a tag, and the position
  of an invoice line stands for the rank of its id.
- SHA-256 is injective: a fingerprint is the payload it was computed from.
- Rates and amounts convert exactly; the floating-point route of `toCents` and `mulRate` is
  taken to be exact in the supported range.
- Instants are integers coded so that months are consecutive intervals of equal length; only
  their order and their month matter.
- Accounts other than the payroll ones are not added during a run, and the chart lists each
  account once.
- A unique index keeps each payment key once, whoever chose it
  (`server/drizzle/0007_financial_integrity_controls.sql:26-28`).
- Search orders of the database and of the process agree.

## Model

| member | source | states |
|---|---|---|
| `Money.MulRateNearest` | server/src/lib.ts:91-98 | the rounded product is a nearest integer to cents times rate, for either sign |
| `Money.MulRateStep` | server/src/lib.ts:91-98 | at a rate of at most one, one more cent moves the rounded product by at most one cent |
| `Money.RoundHalfUpNearest` | server/src/inventory.ts:46-49 | rounding a quotient half up is nearest and never negative |
| `Money.PartialIssueWithinCost` | server/src/inventory.ts:56-70 | issuing part of a layer never costs more than the layer holds |
| `Accounting.Journal.PostJournal` | server/src/accounting.ts:20-73 | appends the entry exactly when its month is open, it has two or more one-sided lines on active accounts of the chart, and debits equal credits; a refusal changes nothing |
| `Accounting.Journal.ClosePeriod` | server/src/accounting-periods.ts:67-104 | only a completed month that is not closed can be closed |
| `Accounting.Journal.ReopenPeriod` | server/src/accounting-periods.ts:106-129 | only a closed month can be reopened |
| `Inventory.StockLedger.RebuildValuationLayer` | server/src/inventory.ts:95-157 | the loop over history computes the replay of the key, writes missing evidence and refuses evidence that disagrees |
| `Inventory.StockLedger.LockStock` | server/src/inventory.ts:159-179 | creates a missing level and rebuilds a missing layer, and touches nothing that is there |
| `Inventory.StockLedger.RecordStockMovement` | server/src/inventory.ts:181-339 | the tables after a movement are those of the specification, the replay of an idempotency key included |
| `Inventory.StockLedger.RecordOpeningStock` | server/src/inventory.ts:341-386 | opening stock and its journal entry together or not at all |
| `Inventory.StockLedger.AdjustStock` | server/src/inventory.ts:392-458 | a count correction with its entry in the direction of the delta, none when it is worth nothing, and nothing on a refusal |
| `Inventory.StockLedger.CommitOpeningImport` | server/src/imports.ts:765-860 | all rows, the cost prices and one entry, or nothing |
| `Valuation.RecordKeeps` | server/src/inventory.ts:181-339 | every recorded movement keeps level equal to layer, complete evidence and replayable history, and changes the total value by exactly the cost it reports |
| `Valuation.RecordMovesOneKey` | server/src/inventory.ts:222-318 | stock on hand of the key moves by the delta and no other key moves |
| `Valuation.RecordAppends` | server/src/inventory.ts:218-318 | a replay adds nothing; a new movement is appended with evidence of its cost and leaves earlier evidence as it was |
| `Valuation.RecordedByUnitCost` | server/src/inventory.ts:271-296 | a receipt without an authoritative total can be recomputed from its unit cost |
| `WeightedAverage.DriftBounded` | server/src/inventory.ts:284-296 | after n issues from (q0, c0) to (qn, cn), 2 abs(cn q0 - c0 qn) <= n q0 |
| `WeightedAverage.DriftOverHistory` | server/src/inventory.ts:284-296 | the same bound over any stretch of recorded history holding only issues of a key |
| `WeightedAverage.CostIsConserved` | server/src/inventory.ts:284-318 | receipt costs equal issue costs plus the cost left, and nothing is left in an empty layer |
| `LayerRebuild.RebuildRecoversExactlyWhen` | server/src/inventory.ts:95-157 | after losing a layer and any of its evidence, the rebuild restores both exactly when each lost receipt was costed by its unit cost |
| `LayerRebuild.RebuildIsIdempotent` | server/src/inventory.ts:95-157 | a rebuild of what is there changes nothing |
| `LayerRebuild.RebuildLosesACent` | server/src/inventory.ts:72-89 | a goods receipt costed by its total whose evidence is lost comes back a cent lower |
| `StockTieOut.StepTies` | server/src/inventory.ts:181-339 | every accepted transaction of the books keeps the Inventory account equal to the sum of the layer costs |
| `StockReconciliation.InventoryValuationReconciliation` | server/src/reports.ts:102-238 | the loop over positions reports RECONCILED exactly when balance, layers and levels all agree |
| `StockReconciliation.EveryRunReconciles` | server/src/reports.ts:219-222 | after any run: level equals layer and is not negative, cost is in range and zero with the quantity, and the account equals the layers |
| `StockReconciliation.EveryRunRebuilds` | server/src/inventory.ts:95-157 | after any run, replay gives the stored layer, a second rebuild changes nothing, and lost evidence comes back exactly when recomputable |
| `StockReconciliation.EveryRunConserves` | server/src/inventory.ts:284-318 | cost conservation and the drift bound after any run |
| `Invoicing.ComputeTotals` | server/src/invoicing.ts:47-58 | subtotal and tax of the lines, refused exactly when a quantity is not positive |
| `Invoicing.SalesBook.SaveDraftInvoice` | server/src/invoicing.ts:115-235 | a draft is created or replaced only while it is a draft with existing references |
| `Invoicing.LockOrderSorts` | server/src/invoicing.ts:379-380 | the stock lines are issued in a sorted arrangement of the same lines, by product, warehouse and line |
| `Invoicing.SalesBook.IssueInvoice` | server/src/invoicing.ts:237-470 | revenue entry, stock issues in locking order, cost-of-goods entry and status, all or nothing |
| `Invoicing.SalesBook.PayInvoice` | server/src/invoicing.ts:476-559 | payment row, entry at the invoice rate, paid amount and status, with idempotent replay |
| `Invoicing.SalesBook.CancelInvoice` | server/src/invoicing.ts:565-640 | reverses the invoice's own entries and returns its stock at recorded cost, or changes nothing |
| `InvoiceEntries.ReversalsCancel` | server/src/invoicing.ts:580-593 | the reversals of a void undo the invoice's own entries account by account |
| `BankMatching.MatchBankTransaction` | server/src/bank-reconciliation.ts:685-786 | one bank line pays one invoice, under the invoice's id |
| `BankMatching.SplitBankTransaction` | server/src/bank-reconciliation.ts:829-956 | one bank line pays several distinct invoices in full amount with one entry under the bank line's id, or nothing |
| `Receivables.RevenueBalances` | server/src/invoicing.ts:332-348 | the issue entry balances exactly when the converted subtotal is positive and the converted tax is not negative, and then charges the customer the sum of the two rounded parts, crediting one to sales and the other to output tax |
| `Receivables.PaymentOwes` | server/src/invoicing.ts:510-549 | a payment of any kind keeps the law of every invoice |
| `ReceivableControl.StepControls` | server/src/statutory-report-pack.ts:144-160 | every accepted transaction keeps the receivable account split into invoice sources and bank-line sources |
| `ReceivableSchedule.EveryInvoiceFits` | server/src/invoicing.ts:495-545 | after any run: paid is the sum of payments, status says how much that is, and it stays within the total exactly when the rate is positive |
| `ReceivableSchedule.NegativeRateIsIssued` | server/src/invoicing.ts:332-348 | a negative rate and price issue an invoice whose total is below what is paid on it |
| `ReceivableSchedule.OwedIsNearOutstanding` | server/src/invoicing.ts:332-348 | the entries under an invoice leave on the receivable account what is owed plus what split matches paid, and what is owed after n payments is within (2 + n) half-cents of rate times outstanding, exact at rate one |
| `ReceivableAccount.AccountIsOwed` | server/src/statutory-report-pack.ts:144-160 | after any run the receivable account is the sum of what the live invoices owe, split matches included |
| `ReceivableAccount.AccountIsNearOutstanding` | server/src/invoicing.ts:332-348 | after any run the account is within half a cent for each rounding, two at issue and one per payment, of the outstanding amounts at their rates |
| `ReceivableSchedule.BuildSchedule` | server/src/statutory-report-pack.ts:88-123 | the buckets partition the scheduled balance and the rest of the control is unallocated |
| `ReceivableSchedule.UnallocatedIsSplitMatches` | server/src/statutory-report-pack.ts:144-160 | at any cut-off the unallocated balance is exactly minus the base value of the split matches dated before it |
| `ReceivableSchedule.PaymentReplays` | server/src/invoicing.ts:490-502 | a payment request accepted once, under any key, changes nothing when repeated at any later time and is refused with any other content |
| `Procurement.PurchaseBook.PostGoodsReceipt` | server/src/procurement.ts:617-806 | receipt lines, stock, cost prices, the GRNI entry and the order status, all or nothing, with idempotent replay |
| `Procurement.PurchaseBook.EvaluateMatch` | server/src/supplier-bills.ts:265-343 | pushes exactly the reasons that block the bill; none exactly when the three-way match holds |
| `Procurement.PurchaseBook.PostSupplierBill` | server/src/supplier-bills.ts:350-426 | the matched bill is posted with its journal, or nothing changes; a replayed key must name the same bill |
| `Procurement.UnblockedMatches` | server/src/supplier-bills.ts:298-336 | the match predicate holds exactly when no reason blocks the bill |
| `PurchaseControl.BillJournalBalances` | server/src/supplier-bills.ts:387-402 | the bill journal with its exchange line balances for either sign, exactly when it clears and owes something |
| `PurchaseControl.ReceiveKeeps` | server/src/procurement.ts:636-790 | a receipt keeps the unit caps, the order status and the GRNI tie-out |
| `PurchaseControl.PostBillKeeps` | server/src/supplier-bills.ts:350-402 | a posted bill keeps the unit caps and the GRNI tie-out |
| `PurchaseRuns.EveryOrderWithin` | server/src/procurement.ts:636-694 | after any run: billed <= received <= ordered on every line, and the order is RECEIVED exactly when every line is fully received |
| `PurchaseRuns.GrniTiesOut` | server/src/procurement.ts:762-784 | after any run and at any date, the GRNI account is received base less billed base |
| `PurchaseRuns.ReceiptReplays` | server/src/procurement.ts:636-666 | a receipt accepted once changes nothing when repeated at any later time, and any other payload under its key is refused |
| `PurchaseRuns.BillReplays` | server/src/supplier-bills.ts:357-371 | a posting key names one bill for good |
| `GrniReport.BuildGrni` | server/src/supplier-analytics.ts:416-457 | one group per supplier and currency with exactly its rows, kept exactly when open, and open totals that add up to received less billed base |
| `GrniReport.ReportMissesLateBills` | server/src/supplier-analytics.ts:399-414 | the report misses the ledger by exactly the bills dated before the cut-off and posted on or after it, and agrees exactly when there are none |
| `LateBills.PostingParts` | server/src/supplier-analytics.ts:399-414 | posting a bill dated before a cut-off, at or after that cut-off, leaves the report of that cut-off above the account |
| `LateBills.LateBillIsReached` | server/src/supplier-analytics.ts:399-414 | from empty books one can order, receive, draft and post so late that report and account differ |
| `GrniResidue.GrniByOrderLine` | server/src/supplier-analytics.ts:416-457 | after any run and at any date, the GRNI account is the sum over all order lines of what their receipts put there less what their bills took |
| `GrniResidue.ClearedLinesResidue` | server/src/supplier-analytics.ts:416-457 | at any date, beside the share of the open lines, the lines cleared by R receipts and B bills each leave at most the sum of (R + B)(rate + 1)/2 cents in the account |
| `GrniResidue.ClearedAccountResidue` | server/src/supplier-analytics.ts:416-457 | when every order line is billed for all it received, the GRNI account is within that sum of zero |
| `GrniResidue.ClearedLineResidue` | server/src/supplier-analytics.ts:416-457 | one line billed for all it received leaves at most (R + B)(rate + 1)/2 cents of its own |
| `JournalRuns.StepGrew` | server/src/accounting.ts:32-73 | every accepted transaction only appends entries the journal accepts, and only an issue appends under an issuing source |
| `Statements.ProfitAndLoss` | server/src/reports.ts:280-307 | the rows are the posted income and expense accounts of the period, and net profit is credits less debits over them |
| `Statements.TrialBalanceBalances` | server/src/reports.ts:249-277 | trial-balance debits equal credits at any date |
| `Statements.BalanceSheetBalances` | server/src/reports.ts:310-332 | assets equal liabilities plus equity plus earnings at any date |
| `Statements.EarningsAreWholeProfit` | server/src/reports.ts:310-332 | current earnings are the profit of the whole history |
| `Statements.ProfitIsAdditive` | server/src/reports.ts:280-307 | profit over a period is the sum over two adjacent parts |
| `Statements.GetReportPack` | server/src/statutory-report-pack.ts:181-201 | the tie-out error is raised exactly when reports disagree, which no posted ledger does |
| `StatementRuns.EveryRunTiesOut` | server/src/statutory-report-pack.ts:196-201 | after any run the reports tie at any date |
| `StatementRuns.VoidUndoesIssue` | server/src/invoicing.ts:580-593 | issue, run anything, void: every account is left with what ran in between |
| `PeriodClose.ClosedMonthKeepsProfit` | server/src/accounting-periods.ts:36-49 | while a month stays closed its profit and loss, whole or in part, cannot change under any run |
| `PeriodClose.StaysClosedUnlessReopened` | server/src/accounting-periods.ts:67-129 | a closed month stays closed throughout a run exactly when the run does not reopen it |
| `PeriodClose.ClosedMonthsMoveTrialBalance` | server/src/accounting-periods.ts:36-49 | while months first to last stay closed, the trial balance at the end of last moves by exactly what the run adds before first |
| `PeriodClose.ClosedMonthsKeepTrialBalance` | server/src/reports.ts:249-277 | in any books it does not move under a run that adds nothing dated before first |
| `PeriodClose.FrozenExactlyWhenAllClosed` | server/src/accounting-periods.ts:36-49 | the trial balance at the end of last is frozen against every run that adds nothing before first exactly when all months from first to last are closed |
| `PeriodClose.OpenMonthMovesTrialBalance` | server/src/accounting-periods.ts:36-49 | in any books, one journal dated in an open month changes the trial balance at the end of that month and of every later one, closed or not |
| `PeriodClose.ClosingOneMonthIsNotEnough` | server/src/accounting-periods.ts:36-49 | closing one month alone lets an earlier-dated entry change the trial balance at its end |
| `Payroll.CalculatePaye` | server/src/payroll.ts:102-128 | the band walk computes the banded tax and levy, and its trace partitions the taxable pay |
| `Payroll.BandsPartition` | server/src/payroll.ts:102-128 | the amounts in the bands add up to the taxable pay |
| `Payroll.PayeMonotone` | server/src/payroll.ts:102-128 | more taxable pay never means less tax |
| `Payroll.PayeNearExact` | server/src/payroll.ts:102-128 | the tax is within half a cent for each band reached of the unrounded tax |
| `Payroll.ComputePayslip` | server/src/payroll.ts:143-203 | the payslip figures, refused for negative pay, a missing ceiling or a negative net |
| `Payroll.SlipAddsUp` | server/src/payroll.ts:143-170 | no figure is negative and gross is deductions plus net |
| `Payroll.OneCentRaise` | server/src/payroll.ts:143-170 | a one-cent raise lowers net pay by at most one cent with deductible contributions, by at most two without, and by two exactly when contribution, tax and levy all step up |
| `Payroll.RaiseCanCostTwoCents` | server/src/payroll.ts:143-170 | without deductible contributions a one-cent raise can cost two cents |
| `Payroll.RunTotals` | server/src/payroll.ts:401-411 | the totals are the sums of the payslips |
| `PayrollRuns.PayrollBook.CreatePayrollRun` | server/src/payroll.ts:413-472 | a draft with computed payslips and their totals, refused while the run the database returns for the month is live |
| `PayrollRuns.PayrollBook.UpdateDraftPayslip` | server/src/payroll.ts:477-523 | one payslip recomputed and the totals with it, for drafts only |
| `PayrollRuns.PayrollBook.EnsurePayrollAccounts` | server/src/payroll.ts:217-260 | opens those of the four payroll accounts that the chart lacks and leaves the others as they are |
| `PayrollRuns.PayrollBook.PostPayrollRun` | server/src/payroll.ts:542-600 | posts the four-line entry on the last day of the month, opening missing accounts, or changes nothing |
| `PayrollRuns.PayrollBook.ReversePayrollRun` | server/src/payroll.ts:608-648 | posts the offsetting entry for posted runs only |
| `PayrollRuns.PostLinesBalance` | server/src/payroll.ts:564-585 | the entry is balanced exactly when none of tax, social security and net pay is zero |
| `PayrollRuns.DraftPostsExactlyWhen` | server/src/payroll.ts:564-585 | a draft reached by any edits posts exactly when those totals are positive, its month is open and none of the four accounts has been made inactive |
| `PayrollRuns.UntaxedRunCannotPost` | server/src/payroll.ts:564-585 | whatever the ledger, a run of one employee below the tax threshold can be drafted and is refused by the journal |
| `PayrollRuns.RunsWeighWhilePosted` | server/src/payroll.ts:617-637 | after any life of the runs, a posted run has put exactly its lines on the accounts and a reversed one nothing |
| `Billing.Platform.BillOne` | server/src/billing.ts:96-165 | one billing run over one subscription, each branch on the status read at the start |
| `Billing.Platform.RunBillingCycle` | server/src/billing.ts:96-165 | the loop bills every subscription once |
| `Billing.Platform.MarkSubscriptionInvoicePaid` | server/src/billing.ts:179-250 | settles an unpaid invoice and reactivates when nothing is overdue |
| `Billing.EveryAccount` | server/src/billing.ts:96-176 | after any run: statuses mirror, past due or suspended exactly when an invoice is overdue, and periods tile from the end of the trial |
| `Billing.PeriodsDisjoint` | server/src/billing.ts:103-122 | no two invoiced periods overlap |
| `Billing.ActiveIsCurrent` | server/src/billing.ts:125-143 | right after a cycle an active account has no pending invoice past due |
| `Billing.SuspensionIsLate` | server/src/billing.ts:145-160 | suspension comes from past due, more than 89 days after the issue of an unpaid invoice |
| `Search.RunSearch` | server/src/search.ts:370-486 | fetching offset + limit + 1 of each ordered source answers as a stable sort of everything would, ties and has-more included, and a cursor of another query or past the limit is refused |
| `Search.SortIsMerge` | server/src/search.ts:477-479 | the stable sort of two ordered sources is their merge, the first source first on a tie |
| `Search.WalkOutcome` | server/src/search.ts:180-194 | a walk along the cursors is refused exactly when some page ends past the largest offset and before the end of the list, and it ends exactly when it is not refused and some page reaches the end |
| `Search.WalkShowsEverything` | server/src/search.ts:475-484 | following the cursor from the start shows every result exactly once and in order exactly when the pages reach the end and none oversteps the largest offset, whatever the limits |
| `Search.EnoughPagesEnd` | server/src/search.ts:475-484 | with a page for every result, a walk over at most 1,000,001 results always ends |
| `Search.SomeWalkIsRefused` | server/src/search.ts:180-194 | with page limits of 1 to 50, a caller can run into a refused cursor exactly when there are more than 1,000,001 results |
| `Search.LongWalkIsRefused` | server/src/search.ts:180-194 | the failing walk: 20,000 pages of fifty and one of one |
| `Search.SomeWalkEnds` | server/src/search.ts:180-194 | with page limits of 1 to 50, some walk reaches the end exactly when there are at most 1,000,050 results |
| `Search.ArrangementIsUnique` | server/src/search.ts:402-449 | an ordered source has one arrangement exactly when score, title and id tell its results apart |
| `Search.PagesAgreeExactlyWhenKeysTell` | server/src/search.ts:475-484 | two pages answered from any two arrangements and cut anywhere show every result exactly once, exactly when score, title and id tell the results apart |
| `Search.TiesRepeatAcrossPages` | server/src/search.ts:402-449 | with a tie, one result can show on two pages and the other on none |
| `Pagination.BestSplit` | server/src/invoice-documents.ts:277-291 | the most balanced feasible split, or 1 when none is feasible |
| `Pagination.PartitionLines` | server/src/invoice-documents.ts:264-303 | terminates with pages that hold the lines in order, none empty when there are lines, each filled by the rule for its page |
| `Pagination.DrawRows` | server/src/invoice-documents.ts:183-200 | the table ends at its top less the header and the row heights |
| `Pagination.DrawnWithinThePage` | server/src/invoice-documents.ts:202-262 | no table reaches the footer rule and the boxes under the last table stay clear of it |
| `Pagination.SplitEndsOnNextPage` | server/src/invoice-documents.ts:274-292 | a remainder with a feasible split takes exactly two pages |
| `StatementImport.ImportDesk.PreviewStatement` | server/src/imports.ts:901-929 | rows are numbered by occurrence and marked against what is stored |
| `StatementImport.ImportDesk.CommitStatement` | server/src/imports.ts:956-1004 | a previewed batch stores its valid rows that are not stored yet, once |
| `StatementImport.CommitStores` | server/src/imports.ts:961-1004 | after a commit the stored keys are the earlier ones and all keys of the batch's file |
| `StatementImport.StoredIsUnionOfCommitted` | server/src/imports.ts:901-1004 | whatever the interleaving, what is stored is the union of the committed files, each row as often as in the file where it occurs most |
| `StatementImport.OrderDoesNotMatter` | server/src/imports.ts:901-1004 | runs committing the same files store the same |
| `StatementImport.ReimportAddsNothing` | server/src/imports.ts:901-1004 | a committed file previewed again has nothing valid and cannot be committed |
| `Csv.ParseCsv` | server/src/imports.ts:276-322 | the character loop computes the scan, and accepted rows are not blank and within the limits |
| `Csv.ProtectedIsSafe` | server/src/statutory-report-exports.ts:9-14 | a printed cell never starts a formula |
| `Csv.RoundTrip` | server/src/statutory-report-exports.ts:49 | reading what was printed gives the protected cells of all rows that are not blank, exactly when the limits are met; section 2 of RFC 4180 |
| `Base32.Base32Encode` | server/src/auth-security.ts:48-62 | the wrapping accumulator computes the regrouping of bits by five; section 6 of RFC 4648 |
| `Base32.Base32Decode` | server/src/auth-security.ts:64-79 | the wrapping accumulator computes the regrouping by eight, or refuses a character outside the alphabet |
| `Base32.EncodedLength` | server/src/auth-security.ts:48-62 | n bytes become ceil(8 n / 5) symbols |
| `Base32.RoundTrip` | server/src/auth-security.ts:48-79 | decoding an encoded byte string, in either case and with any padding, gives it back |
| `PngRows.UnfilterRow` | server/src/document-layout.ts:78-88 | the in-place loop over a row computes the unfiltering |
| `PngRows.DecodeRows` | server/src/document-layout.ts:70-109 | the row loop recovers every row from the one above, or refuses short data and unknown filters |
| `PngRows.UnfilterInvertsFilter` | server/src/document-layout.ts:78-88 | unfiltering inverts filtering for every filter type; section 9 of ISO/IEC 15948 |
| `PngRows.FilterInvertsUnfilter` | server/src/document-layout.ts:78-88 | every filtered row is the filtering of exactly what is recovered |
| `PngRows.Paeth` | server/src/document-layout.ts:28-33 | the neighbour nearest to left + up - upper left, ties to left and then up |
| `PngRows.RoundTrip` | server/src/document-layout.ts:70-109 | any raw rows with any choice of filter types 0 to 4 are recovered byte for byte |

## Left out

- Authentication, encryption, sessions, routing, events, audit rows and document snapshots.
- Approval policies, roles and the draft and approval steps of purchase orders: an order enters the books approved.
- Manual journals and the migration trial balance: postings of the rest of the system may not meet Inventory, receivables or GRNI.
- Other sources of bank entries (transfers, fees) are among the postings of the rest of the system.
- BankMatching.SplitBankTransaction: names invoices by id; the lookup by trimmed invoice number is not modelled.
- Billing.Platform.MarkSubscriptionInvoicePaid: provider payment attempts and the idempotent return for a settled attempt are not modelled.
- Bank accounts and their ledger accounts always exist; the lookup errors are not modelled.
- Error values: the methods say exactly when they refuse, not which error kind is raised.
- Invoice, order and bill numbers from the document sequence.
- Order and draft-bill editing (`Procurement.PlaceOrder`, `Procurement.SaveBill`) is on values only; their request schemas are folded in.
- Inventory.StockLedger.CommitOpeningImport: rows arrive valid; the claim of the preview batch and the check of the product currency are not modelled.
- Aged reports other than the receivable schedule, supplier spend and delivery analytics, payables ageing.
- The counters a billing run returns, and usage summaries; adding a month is any function that advances.
- `wrapPdfText`: a wrapped description has one to five lines; drawing of text and boxes beyond their heights.
- Image decoding before and after the rows: chunks, inflation, palettes, blending with the background.
- Base32.Base32Decode: letters outside ASCII whose upper case is in the alphabet are refused here.
- Lone surrogates in CSV text.
- Parsing of statement rows into dates and amounts: a row either gives the text that is hashed or does not parse.
- The report rows of the CSV export: the printer is modelled for any rows.
- PayrollRuns.PayrollBook.EnsurePayrollAccounts: accounts found by code under another type or key are not modelled.
- Payroll: the approval policy and the unique index that may forbid two live runs of a month.
- Search: reindexing, permissions and the scoring expression; a document carries its score.
