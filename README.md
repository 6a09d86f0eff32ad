# Creditor aging and section 43B(h) engine — a Dafny model

This project models the computational core of a creditor-ledger tool. The core
reads a raw ledger export, reconciles each supplier's bills against payments
first-in-first-out, and ages the bills still open at a cutoff date into four
day-bands. It then applies payments made after the cutoff to those bills,
oldest first. Last, it decides per invoice whether the deduction is disallowed
under section 43B(h) of the Income-tax Act, 1961, which requires a supplier to
be paid within 45 days unless the supplier is exempt under the MSME rules.

The repository contains two near-identical versions of the engine: `app.py`
(the final one) and `app_try_1.py` (an earlier one). They differ in two places,
and both are modelled side by side through `Exemption.Variant`:

- `Final` (app.py): an invoice counts as paid on time only when the post-cutoff
  payments cover its full amount and the last of them falls within 45 days.
  A missing MSME table counts as an empty one.
- `FirstTry` (app_try_1.py): an invoice counts as paid on time when the last
  post-cutoff payment that reduced it is dated within 45 days; full payment is
  not required. A missing MSME table is an error, because the code calls
  `.rename` on `None`.

Modules, in pipeline order:

- `Common`: `Option`, `Result`, `Min`.
- `Text`: the ASCII parts of `str.strip`, `str.lower`, `str.startswith` and `in`.
- `Ledger`: `parse_ledger_df`.
  - The row loop is a method, proved against the row-by-row specification `Scan`.
  - The final sort by (party, date) is an insertion sort proved sorted and a permutation.
- `Reconciliation`: the per-party FIFO loop over two queues, unmatched bills and unmatched advances.
  - Its nested `while` loops are methods proved against `PayBills`, `ConsumeAdvances` and `Reconcile`.
  - The balance, the queue invariant and date order are proved about those functions.
- `Aging`: the bucket loop, the invoice-level aging log and the pending invoices.
- `Allocation`: the post-cutoff payments and their oldest-first allocation to the pending invoices.
- `Exemption`: `is_exempt` and the disallowance row of each pending invoice.
- `Engine`:
  - the per-party pipeline;
  - `groupby("Party")`;
  - the whole `calculate_creditor_aging_and_43b`, returning the three tables.

Amounts are whole numbers, for example paise. Dates are day numbers counted
from 1970-01-01, so 2000-01-01 is day 10957.

## Model

| member | source | states |
|---|---|---|
| Text.TrimLeftSpec | app.py:77 | The left half of `strip()` removes a prefix made only of white space, and the result does not start with white space. |
| Text.TrimRightSpec | app.py:77 | The right half of `strip()` removes a suffix made only of white space, and the result does not end with white space. |
| Text.StripSpec | app.py:78 | The stripped text occurs inside the original at some position, everything before and after it there is white space, and it neither starts nor ends with white space. |
| Text.StripIdempotent | app.py:107 | Stripping twice is the same as stripping once. Supplier names are stripped on load and again by the lookup, and this makes the second strip harmless. |
| Text.LowerSpec | app.py:117 | `lower()` keeps the length and lowers each character. No upper-case ASCII letter remains. |
| Text.ContainsAt | app.py:128 | `'trader' in btype` holds exactly when "trader" occurs at some position of `btype`. |
| Ledger.ReadRow | app.py:81-89 | A row under a current party yields a record exactly when its date parses, is on or after 2000-01-01, and both amount cells convert. The record carries that party, that date and the two amounts, a blank cell counting as 0. |
| Ledger.PreambleIgnored | app.py:80 | Rows before the first `ledger:` marker yield no records. |
| Ledger.MarkerSetsParty | app.py:77-79 | A marker row yields no record. The party becomes the marker's stripped name cell, or "Unknown" when that cell is blank. |
| Ledger.ScanSound | app.py:80-89 | Every record has a non-empty party and a date on or after 2000-01-01. There are never more records than rows. |
| Ledger.ReadLedgerRow | app.py:76-89 | One pass of the row loop. The new current party and the records appended are those given by the row-by-row specification. |
| Ledger.CollectRecords | app.py:73-89 | The row loop appends exactly the records of the row-by-row specification, in row order. |
| Ledger.StrLessTrichotomy | app.py:91 | The party order is total: two names are equal or one sorts before the other. |
| Ledger.StrLessIrreflexive | app.py:91 | No name sorts before itself. |
| Ledger.KeyTotal | app.py:91 | The (party, date) order is total. |
| Ledger.InsertSorted | app.py:91 | Inserting a record into a sorted list keeps it sorted. |
| Ledger.InsertPermutes | app.py:91 | Inserting adds exactly that record and loses none. |
| Ledger.SortRecordsSorted | app.py:91 | The records come out ordered by party, then by date. |
| Ledger.SortRecordsPermutes | app.py:91 | Sorting keeps every record, with multiplicity. |
| Ledger.SortedPartyIsDateSorted | app.py:91 | A run of one party's records in the sorted output is in date order. |
| Ledger.ParseLedger | app.py:72-92 | `parse_ledger_df` returns a permutation of the records, ordered by (party, date). |
| Reconciliation.PayBillsQueue | app.py:148-159 | A debit keeps the bill queue well formed. Every bill is partly unpaid, and only the head can be partly matched. The debit removes only the oldest bills and can add to the head's matched amount. What is left of it is at most the debit, and something is left only when no bill remains. |
| Reconciliation.PayBillsSum | app.py:150-157 | The bills' outstanding amount falls by exactly the part of the debit that was applied. |
| Reconciliation.ConsumeAdvancesQueue | app.py:161-169 | A credit keeps every advance positive and only uses up the oldest advances. What is left of it is at most the credit, and something is left only when no advance remains. |
| Reconciliation.ConsumeAdvancesSum | app.py:163-169 | The advance total falls by exactly the part of the credit that was set off. |
| Reconciliation.StepOk | app.py:143-171 | One row keeps the queue invariant: both queues are well formed, and at most one of them is non-empty. |
| Reconciliation.StepBalance | app.py:148-171 | One row moves the balance (bills owed minus advances held) by -debit if the debit is positive, else by +credit, and by nothing when the row is after the cutoff. |
| Reconciliation.ReconcileOk | app.py:143-171 | The queue invariant holds after any sequence of rows. |
| Reconciliation.ReconcileBalance | app.py:143-173 | Balance conservation: open bills minus open advances equals the net of the debits and credits up to the cutoff. |
| Reconciliation.LaterRowsIgnored | app.py:148 | Rows dated after the cutoff never change the queues. |
| Reconciliation.StepOrderedDebit | app.py:148-159 | A debit row that is no older than anything queued keeps the bills in date order. Every queued entry stays dated on or before that row and the cutoff. |
| Reconciliation.StepOrderedCredit | app.py:161-171 | A credit row that is no older than anything queued keeps the bills in date order. Every queued entry stays dated on or before that row and the cutoff. |
| Reconciliation.StepOrdered | app.py:143-171 | Any row that is no older than anything queued keeps the bills in date order. Every queued entry stays dated on or before that row and the cutoff. |
| Reconciliation.ReconcileOrdered | app.py:137-171 | Given rows in date order, the open bills are in date order and dated on or before the cutoff. |
| Reconciliation.PayOldestBills | app.py:149-159 | The debit's `while` loop computes exactly the specified oldest-first payment of the bills. |
| Reconciliation.UseOldestAdvances | app.py:162-171 | The credit's `while` loop computes exactly the specified oldest-first use of the advances. |
| Reconciliation.ReconcileParty | app.py:139-173 | The reconciliation loop produces the specified queues. They satisfy the queue invariant, and outstanding minus advances equals the net effect of the rows. |
| Aging.BucketPartition | app.py:183-190 | Every age lies in exactly one of the bands 0-45, 46-60, 61-90 and >90, the one the if/elif chain picks. |
| Aging.AddTo | app.py:191 | `buckets[bucket] += unpaid` changes only that bucket, by exactly `unpaid`. |
| Aging.BucketsPartitionUnpaid | app.py:191 | Each bucket holds exactly the unpaid amounts of its log rows, so the buckets add up to the total unpaid. |
| Aging.AgedRowsSpec | app.py:178-202 | Under the queue invariant, every open bill gives one log row, in queue order. The row holds its amount, its matched amount, unpaid = amount - matched > 0, its age in days to the cutoff and the bucket of that age. |
| Aging.AgedRowsSum | app.py:178-191 | The log's unpaid amounts add up to what the open bills still owe. |
| Aging.PendingMatchesRows | app.py:193-208 | Pending invoice i matches log row i. It has the same date and amount, remaining = unpaid > 0, and nothing paid yet. |
| Aging.AgesNonNegative | app.py:182 | Bills dated on or before the cutoff have a non-negative age. |
| Aging.AgeBills | app.py:175-208 | The aging loop builds the specified log and pending invoices. Its buckets are the bucket sums of the log, and their total is the log's unpaid sum. |
| Allocation.PaymentsSound | app.py:210-213 | Every post-cutoff payment is a positive debit dated after the cutoff, taken from one of the rows. |
| Allocation.PaymentsComplete | app.py:210-213 | Every positive debit dated after the cutoff becomes a payment. |
| Allocation.PaymentsOrdered | app.py:214 | Rows in date order give payments in date order. Python's stable sort by date therefore leaves the list unchanged. |
| Allocation.CollectPayments | app.py:210-213 | The loop collects exactly the specified payments, in row order. |
| Allocation.AllocateSpec | app.py:220-232 | One payment allocated over the invoices. See the notes below the table. |
| Allocation.AllocateAllSpec | app.py:216-232 | After all payments, each invoice keeps its date and amount, and paid + remaining equals its unpaid amount at the cutoff. Its paid date is set exactly when something was paid, and it is the date of one of the payments. |
| Allocation.FifoExample | app.py:220-232 | Invoices of 100, 200 and 300 and one payment of 150: the first is settled, the second keeps 150 open, and the third is untouched. Only the first two carry the payment date. |
| Allocation.ChargeInvoice | app.py:226-232 | One pass of the inner loop. The invoice takes min(remaining, amount left), records the payment date when it takes something, and the payment shrinks by the same amount. |
| Allocation.AllocatePayment | app.py:220-232 | The inner loop over the pending invoices computes exactly the specified allocation of one payment. |
| Allocation.AllocateAfterCutoff | app.py:216-232 | The allocation loops compute exactly the specified allocation of all payments. |
| Exemption.FindSupplierSpec | app.py:117-120 | The lookup finds nothing exactly when no row has the party's trimmed, lower-cased name. Otherwise it returns the first such row. |
| Exemption.IsExemptSpec | app.py:109-130 | A supplier is exempt exactly when its first row is not registered, is medium, or is a trader. A reason is given exactly when it is exempt, and the reason names the first of those rules that holds. |
| Exemption.UnknownNotExempt | app.py:117-119 | A supplier missing from the table is not exempt and gets no reason. |
| Exemption.KeyExample | app.py:117 | " ACME " and "Acme" have the same lookup key, "acme". |
| Exemption.PrecedenceExample | app.py:124-127 | A row that is both unregistered and medium gets the non-registered reason. |
| Exemption.ClassifySpec | app.py:239-266 | The disallowance row of one invoice. See the notes below the table. |
| Exemption.FinalStricter | app_try_1.py:212 | The final rule is stricter than the first one. On time under the final rule implies on time under the first, and disallowed under the first implies disallowed under the final. |
| Exemption.FinalOnTimeMeansSettled | app.py:241-244 | Under the final rule, "on time" means the invoice is fully paid. A non-exempt invoice left partly unpaid is disallowed. |
| Exemption.PaidOnTimeExample | app.py:239-253 | An invoice of 1000 dated 2025-01-01 and paid in full 40 days later is on time and not disallowed, under both rules. |
| Exemption.PaidLateExample | app.py:239-253 | The same invoice paid 50 days later is late and disallowed, under both rules. |
| Exemption.PartialPaymentExample | app_try_1.py:212 | A partial payment within 45 days clears the invoice under the first rule but not under the final rule. |
| Exemption.ClassifyAllSpec | app.py:235-267 | There is one disallowance row per pending invoice, row i being the classification of invoice i. |
| Exemption.BuildDisallowances | app.py:235-267 | The disallowance loop builds exactly those rows. |
| Exemption.MissingTableExemptsNobody | app.py:100-101 | Under the final version a missing MSME table is replaced by an empty one, and with it no supplier is exempt. |
| Engine.AdvanceTotalNonNegative | app.py:173 | The advance amount is never negative. |
| Engine.OutstandingNonNegative | app.py:179 | Under the queue invariant, what the open bills owe is never negative. |
| Engine.SummaryTotal | app.py:271 | Total Outstanding equals what the open bills still owe. |
| Engine.SummaryBalance | app.py:269-274 | The summary row names the party. Total Outstanding is what the bills still owe, and Advance is what the advances hold. Neither is negative, and at most one is non-zero. |
| Engine.SummaryBuckets | app.py:269-274 | Each bucket column of the summary is the unpaid sum of that bucket's log rows, and Total Outstanding is the log's unpaid sum. |
| Engine.InvoicesMatchLog | app.py:193-232 | After allocation there is still one invoice per log row. Invoice i has row i's date and amount, paid + remaining equals row i's unpaid amount, and paid never exceeds the invoice amount. |
| Engine.DisallowSpec | app.py:235-267 | There is one disallowance row per log row. Row i carries the party, invoice date and amount of log row i, and its unpaid-after and reported paid amounts add up to that row's unpaid amount at the cutoff. |
| Engine.SummaryNet | app.py:269-274 | Total Outstanding minus Advance equals the queues' balance. |
| Engine.PartyReportBalance | app.py:143-274 | For any party's rows, Total Outstanding minus Advance to Supplier equals the net of the debits and credits up to the cutoff. |
| Engine.PartyReportSettled | app.py:143-274 | For any party's rows, Total Outstanding and Advance are non-negative, and at least one of them is zero. |
| Engine.PartyReportTotal | app.py:178-275 | A party yields one summary row, whose Total Outstanding is the sum of the unpaid amounts in its log rows. |
| Engine.PartyReportRows | app.py:178-267 | For any party's rows, there is one disallowance row per log row, for the same invoice. Its unpaid-after and reported paid amounts add up to the log row's unpaid amount, so nothing owed at the cutoff is lost. |
| Engine.PartyReportOrdered | app.py:137-214 | Given rows in date order, the log has non-negative ages and is in invoice-date order, and the post-cutoff payments are in date order. |
| Engine.RunParty | app.py:136-275 | The loop body for one party computes exactly the specified three-table report of its date-sorted group, under its exemption. |
| Engine.AcmeExample | app.py:143-274 | A bill of 1000 on 2025-01-01 paid on 2025-02-01, cutoff 2025-03-31: nothing is outstanding, and there are no log or disallowance rows. |
| Engine.BetaExample | app.py:143-274 | A payment of 500 with no bill: the summary shows an advance of 500, nothing outstanding and no rows. |
| Engine.GroupingSpec | app.py:136 | `groupby("Party")` lists each party once, and exactly the parties that occur. Each group holds exactly that party's records, so every record is in exactly one group. |
| Engine.GroupOfDateSorted | app.py:136-137 | A group taken from (party, date)-sorted records is in date order. |
| Engine.SortKeepsSortedGroup | app.py:137 | The model's stable date sort leaves a date-ordered group of one party unchanged. |
| Engine.GroupOfSortedFixed | app.py:136-137 | On (party, date)-sorted records, every group is already in date order and the model's stable date sort returns it unchanged. |
| Engine.PartiesAscending | app.py:136 | On (party, date)-sorted records, the parties in order of first appearance are strictly ascending, which is the key order `groupby` visits them in. |
| Engine.PartyReportCovers | app.py:136-275 | One party's report has one summary row, for that party. It has one disallowance row per log row, and its totals match its log. |
| Engine.ReportsForSpec | app.py:132-277 | The reports of the parties, concatenated, have one summary row per party in party order. There is one disallowance row per log row, and the summary totals add up to the log's unpaid amounts. |
| Engine.CalculateSpec | app.py:94-277 | `calculate_creditor_aging_and_43b` fails exactly when the first version is given no MSME table. Otherwise it returns one summary row per distinct party, in group order. There is one disallowance row per log row, and the Total Outstanding column adds up to the log's unpaid amounts. |
| Engine.CalculateAll | app.py:132-277 | The loop over the groups computes exactly the specified result. |
| Engine.ReportsWithoutTable | app.py:117-119 | With an empty MSME table no disallowance row is marked exempt, so every invoice faces the 45-day test. |
| Engine.MissingTableMeansNoExemption | app.py:100-101 | The final version run without an MSME table gives the same result as with an empty one. It succeeds, and no disallowance row is marked exempt. |
| Engine.LastPaymentDecides | app_try_1.py:206-212 | 400 paid on day 10 and 600 on day 60 against an invoice of 1000 dated day 0: the paid date becomes day 60, the date of the last payment, so the invoice is late and disallowed under both rules. |

### Notes on Allocation.AllocateSpec

For a single payment allocated over the invoices, oldest first:

- Each invoice keeps its date and amount, and paid + remaining stays the same.
- An invoice's paid date becomes the payment's date exactly when the payment reduces it.
- The payment is used up unless every invoice ends up settled.
- An invoice is reduced only once every earlier invoice is settled.
- The total remaining falls by exactly what the payment used.

### Notes on Exemption.ClassifySpec

The disallowance row of one invoice:

- An exempt supplier gets "Exempt" and is never disallowed.
- Otherwise the invoice is disallowed exactly when it was not paid on time. On time means:
  - under the final rule: fully paid, with the last payment within 45 days of the invoice date;
  - under the first rule: the last payment that reduced it is within 45 days, paid in full or not.
- The paid amount reported is capped at the invoice amount.
- The invoice's own figures are carried over.

## Left out

- The Streamlit user interface, the login against `users.json` and secrets, the file upload, the Excel and template export, and `to_excel_bytes` are not part of this model. They are I/O around the engine.
- pandas parsing is not modelled: `pd.to_datetime(..., dayfirst=True)`, `float(...)` and `pd.isna` are taken as already applied. Each row arrives with column 0 as text and as an optional day number, and with its amount cells as blank, a number or unconvertible.
- Floating point is not modelled. Amounts are whole numbers, so the `min`/subtract loops and the `== amount` and `<= 0` tests are exact here. With floats, rounding could leave a bill with a tiny residue.
- Time of day is not modelled. Dates are whole days, as the ledger's dates are.
- Strings are ASCII only. Unicode white space and Unicode case folding in `strip()` and `lower()` are not modelled.
- Ledger.SortRecords: an insertion sort on (party, date) that places each record after the equal ones before it, like pandas' stable sort on two columns at app.py:91. It is proved sorted and a permutation. That it is stable is not stated as a lemma.
- Engine.RunParty: `group.sort_values("Date")` at app.py:137 uses pandas' default sort, which is not stable. The model keeps same-date records of a party in the order of the parsed ledger, and pandas may reorder them. The reconciliation result can depend on that order.
- Engine.Parties: `groupby` visits parties in sorted key order. The model visits them in order of first appearance. Engine.PartiesAscending proves the two orders agree on (party, date)-sorted records, taking code-point order for sorted key order.
- Allocation.PaymentsAfterCutoff: `payments_after_cutoff.sort(key=date)` is not performed. Allocation.PaymentsOrdered proves the list is already in date order, and Python's sort is stable.
- MSME table column renaming is not modelled. Neither is `astype(str)` on a blank name cell, which gives "nan". Each classification cell is `None` when its column is missing, and the rules read that as "", as `r.get(column, '')` does. A missing "Supplier Name" column raises in both versions and is not modelled.
- Two behaviours of the code are modelled as written:
  - A row with both a positive debit and a positive credit is handled as a debit only, and its credit is ignored (the `elif` at app.py:161).
  - A known supplier whose table has no "Registered" column is exempt as non-registered, because `r.get('Registered', '')` reads "" (app.py:121 and 124).
