# Bank reconciliation core of `bank_management`, in Dafny

This project models the reconciliation core of the `bank_management` Frappe app and proves properties of the model. There are two parts.

The **Bank Reconcile Report** lists the submitted Bank Transactions of a bank account.
- Each transaction is shown with the voucher it is matched to. That voucher is its first persisted link. Failing that, it is the first Payment Entry or Journal Entry that meets the exact reference-number-and-direction policy.
- Each row carries a status label and the action buttons its amounts and parties allow.
- After the transactions come one row per Payment Entry and one per Journal Entry that no transaction accounts for.
- A summary compares the bank statement's closing balance with the cleared ledger balance.
- The report also offers a search for candidate vouchers of one transaction, and derives a new Bank Transaction from a voucher.

The **Bulk Bank Transaction** document holds a table of statement lines.
- Its `validate` checks the table.
- Its `create_bank_transactions` inserts one draft Bank Transaction per row that has none. It writes each new name back into its row and reports failing rows by their 1-based index.

Conventions:
- Amounts are `real` and dates are `int` day numbers.
- In a string field the empty string stands for an unset value. SQL equality (`Records.SqlEq`) never holds for an unset operand.
- The store's tables are sequences. A query is a filter of its table in table order, and `LIMIT 1` is the first admitted element. Where a query has an `ORDER BY`, the table is taken to be in that order. Where it has none, the model fixes an order that the source leaves to the database (see "## Left out").
- Each SQL `WHERE` clause is a value (`Queries.PaymentWhere`, `Queries.JournalWhere`) with an `Admits` predicate.
- `Store.unavailable` stands for a store that fails its queries.
- Some operations loop in the source. Each of these is a `method` proved equal to a specification function, and the properties are lemmas about that function.
- The Bulk Bank Transaction document is a `class`. Its fields are the document in hand and its last saved state. A `TransactionStore` class models the Bank Transaction table it inserts into.

Modules: `Records` (records, filters, lookups), `Queries`, `Matcher`, `Candidates`, `Sweeps`, `Labels`, `Rows`, `Summary`, `Derivation`, `Bulk`.

Path abbreviations used in the table below:
- `R` is `bank_management/bank_management/report/bank_reconcile_report/bank_reconcile_report.py`
- `B` is `bank_management/bank_management/doctype/bulk_bank_transaction/bulk_bank_transaction.py`

The table itself spells the paths out.

## Model

| member | source | states |
|---|---|---|
| Records.EffectiveFrom | bank_management/bank_management/report/bank_reconcile_report/bank_reconcile_report.py:251-252 | The lower date bound is set exactly when the statement from-date or the from-date is set; the statement date wins. |
| Records.EffectiveTo | bank_management/bank_management/report/bank_reconcile_report/bank_reconcile_report.py:253-254 | The same for the upper bound: the statement to-date, else the to-date. |
| Records.FindBankAccount | bank_management/bank_management/report/bank_reconcile_report/bank_reconcile_report.py:438-440 | A found Bank Account has the requested name and is in the registry; none is found only when no record has that name (or the name is unset). |
| Records.GlAccountOf | bank_management/bank_management/report/bank_reconcile_report/bank_reconcile_report.py:1059-1061 | A non-empty ledger account is the `account` of a Bank Account with that name. |
| Records.BankAccountFor | bank_management/bank_management/report/bank_reconcile_report/bank_reconcile_report.py:115-122 | The Bank Account returned has the given ledger account; none is returned exactly when no Bank Account has it. |
| Queries.SelectPayments | bank_management/bank_management/report/bank_reconcile_report/bank_reconcile_report.py:660-685 | A Payment Entry query returns exactly the Payment Entries of the table that its clause admits. |
| Queries.SelectJournals | bank_management/bank_management/report/bank_reconcile_report/bank_reconcile_report.py:749-775 | A Journal Entry query returns exactly the admitted Journal Entries. |
| Queries.FirstPayment | bank_management/bank_management/report/bank_reconcile_report/bank_reconcile_report.py:501-527 | `LIMIT 1`: the position of an admitted Payment Entry with no admitted one before it, or none when nothing is admitted. |
| Queries.FirstJournal | bank_management/bank_management/report/bank_reconcile_report/bank_reconcile_report.py:547-572 | The same for the Journal Entry query. |
| Queries.SelectKeepsPaymentOrder | bank_management/bank_management/report/bank_reconcile_report/bank_reconcile_report.py:679 | Filtering keeps a posting-date-descending table in that order. |
| Queries.SelectKeepsJournalOrder | bank_management/bank_management/report/bank_reconcile_report/bank_reconcile_report.py:769 | The same for Journal Entries. |
| Queries.JournalAmount | bank_management/bank_management/report/bank_reconcile_report/bank_reconcile_report.py:805 | The amount shown for a Journal Entry, the absolute net debit of its rows on the account, is never negative. |
| Queries.MaxPartyType | bank_management/bank_management/report/bank_reconcile_report/bank_reconcile_report.py:755 | `MAX(party_type)` is unset or the party type of one of the rows on the account, and no party type on the account is greater in string order. |
| Queries.PaymentAdmits | bank_management/bank_management/report/bank_reconcile_report/bank_reconcile_report.py:660-685 | The Payment Entry `WHERE` clause on one record: company, submitted, not cleared, the reference number equal to the one asked for (or merely set), one of the payment types asked for, paid to or from the ledger account, and the posting date in bounds. |
| Queries.JournalAdmits | bank_management/bank_management/report/bank_reconcile_report/bank_reconcile_report.py:749-775 | The Journal Entry `WHERE` clause: company, submitted, not cleared, a voucher type other than Opening Entry, the cheque number asked for (or merely set), a row on the ledger account, and the posting date in bounds. |
| Matcher.DirectionType | bank_management/bank_management/report/bank_reconcile_report/bank_reconcile_report.py:485 | The payment type asked for is Receive exactly when the deposit is positive, and never Internal Transfer. |
| Matcher.FirstLink | bank_management/bank_management/report/bank_reconcile_report/bank_reconcile_report.py:443-451 | The link returned belongs to the transaction and no earlier link does; none is returned only when the transaction has no link. |
| Matcher.FindPayment | bank_management/bank_management/report/bank_reconcile_report/bank_reconcile_report.py:453-454 | A fetched Payment Entry has the requested name; none is fetched only when no entry has it. |
| Matcher.FindJournal | bank_management/bank_management/report/bank_reconcile_report/bank_reconcile_report.py:453-454 | The same for Journal Entries. |
| Matcher.LinkedVoucher | bank_management/bank_management/report/bank_reconcile_report/bank_reconcile_report.py:452-480 | A link gives a voucher exactly when its Payment Entry or Journal Entry can be fetched, or, for another doctype, the document exists. The voucher is marked linked with the link's doctype and name. A Payment Entry's reference, date, amount, party type and party are copied. A Journal Entry's cheque number, date and payee are copied, with amount 0 and no party type. |
| Matcher.MatchedVoucherFor | bank_management/bank_management/report/bank_reconcile_report/bank_reconcile_report.py:427-592 | No match without a reference number, a working store or the Bank Account. A usable first link always wins. A linked result is that first link. |
| Matcher.SearchByReference | bank_management/bank_management/report/bank_reconcile_report/bank_reconcile_report.py:482-587 | A match found by reference is unlinked. A Payment Entry match is one the exact query admits. Any other match is a Journal Entry the query admits, and only for a withdrawal. A transaction with neither a positive deposit nor a positive withdrawal finds nothing. |
| Matcher.ExactPaymentIsQueried | bank_management/bank_management/report/bank_reconcile_report/bank_reconcile_report.py:484-533 | A Payment Entry meets the exact-match policy exactly when the query admits it and the transaction has a positive deposit or withdrawal. |
| Matcher.FirstExactPaymentMatches | bank_management/bank_management/report/bank_reconcile_report/bank_reconcile_report.py:529-543 | Without a usable link, the first Payment Entry meeting the policy is the match. |
| Matcher.FirstExactJournalMatches | bank_management/bank_management/report/bank_reconcile_report/bank_reconcile_report.py:545-585 | Without a link or a matching Payment Entry, the first Journal Entry meeting the withdrawal policy is the match. |
| Matcher.NoExactVoucherNoMatch | bank_management/bank_management/report/bank_reconcile_report/bank_reconcile_report.py:587 | Without a link and with no voucher meeting the policy, there is no match. |
| Matcher.UnlinkedMatchMeetsPolicy | bank_management/bank_management/report/bank_reconcile_report/bank_reconcile_report.py:482-587 | An unlinked match meets the policy. It is a Journal Entry only when no Payment Entry meets it. |
| Candidates.LinkedKeys | bank_management/bank_management/report/bank_reconcile_report/bank_reconcile_report.py:843-851 | The set holds exactly the (doctype, name) keys of the transaction's links. |
| Candidates.UnlinkedPayments | bank_management/bank_management/report/bank_reconcile_report/bank_reconcile_report.py:888-898 | Every candidate is an unlinked selected Payment Entry, and every unlinked selected Payment Entry is a candidate. |
| Candidates.UnlinkedJournals | bank_management/bank_management/report/bank_reconcile_report/bank_reconcile_report.py:929-939 | The same for Journal Entries. |
| Candidates.Truncate | bank_management/bank_management/report/bank_reconcile_report/bank_reconcile_report.py:941 | `[:n]`: a prefix of the list, the whole list when it fits, and exactly `n` elements when it is longer. |
| Candidates.CandidatesFor | bank_management/bank_management/report/bank_reconcile_report/bank_reconcile_report.py:818-946 | None without a reference number or a working store. Otherwise the search returns the first `min(total, 10)` of all unlinked candidates. |
| Candidates.CollectLinkedKeys | bank_management/bank_management/report/bank_reconcile_report/bank_reconcile_report.py:843-851 | The loop computes `LinkedKeys`. |
| Candidates.AppendUnlinkedPayments | bank_management/bank_management/report/bank_reconcile_report/bank_reconcile_report.py:888-898 | The loop computes `UnlinkedPayments`. |
| Candidates.AppendUnlinkedJournals | bank_management/bank_management/report/bank_reconcile_report/bank_reconcile_report.py:929-939 | The loop computes `UnlinkedJournals`. |
| Candidates.UnmatchedVouchers | bank_management/bank_management/report/bank_reconcile_report/bank_reconcile_report.py:818-946 | `get_unmatched_vouchers` returns `CandidatesFor`. |
| Candidates.CandidatesAreNotLinked | bank_management/bank_management/report/bank_reconcile_report/bank_reconcile_report.py:888-891 | No candidate is a voucher already linked to the transaction. |
| Candidates.PaymentsBeforeJournals | bank_management/bank_management/report/bank_reconcile_report/bank_reconcile_report.py:888-941 | Every Payment Entry candidate precedes every Journal Entry candidate. |
| Candidates.CandidatesMeetQuery | bank_management/bank_management/report/bank_reconcile_report/bank_reconcile_report.py:853-927 | Each candidate is a voucher of the store that the candidate queries admit. |
| Candidates.UncutSearchIsComplete | bank_management/bank_management/report/bank_reconcile_report/bank_reconcile_report.py:876-898 | Every admitted unlinked Payment Entry is found before the cut, and is a candidate when nothing is cut. |
| Candidates.UncutJournalSearchIsComplete | bank_management/bank_management/report/bank_reconcile_report/bank_reconcile_report.py:900-939 | Every admitted unlinked Journal Entry is found before the cut, whatever the transaction's direction, and is a candidate when nothing is cut. |
| Candidates.InternalTransferIsAdmitted | bank_management/bank_management/report/bank_reconcile_report/bank_reconcile_report.py:859 | An internal transfer is admitted whatever the transaction's direction, under the same reference, company, account and date conditions. |
| Sweeps.KeptPayments | bank_management/bank_management/report/bank_reconcile_report/bank_reconcile_report.py:688-722 | Exactly the Payment Entries not in the matched set and without a fitting bank transaction are kept. |
| Sweeps.KeptJournals | bank_management/bank_management/report/bank_reconcile_report/bank_reconcile_report.py:778-808 | Exactly the Journal Entries not matched and without a fitting withdrawal are kept. |
| Sweeps.UnmatchedPayments | bank_management/bank_management/report/bank_reconcile_report/bank_reconcile_report.py:642-729 | Nothing is swept when the bank account or company filter is missing or the store fails. |
| Sweeps.UnmatchedJournals | bank_management/bank_management/report/bank_reconcile_report/bank_reconcile_report.py:732-815 | The same for Journal Entries. |
| Sweeps.FitsPayment | bank_management/bank_management/report/bank_reconcile_report/bank_reconcile_report.py:694-705 | The existence query for a Payment Entry: a submitted transaction of the filtered company and account with its reference number, a deposit for a receipt and a withdrawal for a payment. |
| Sweeps.FitsJournal | bank_management/bank_management/report/bank_reconcile_report/bank_reconcile_report.py:784-792 | The existence query for a Journal Entry: the same with its cheque number, and only a withdrawal fits. |
| Sweeps.FindPaymentTransaction | bank_management/bank_management/report/bank_reconcile_report/bank_reconcile_report.py:694-711 | The existence query finds a transaction exactly when one fits the Payment Entry. |
| Sweeps.FindJournalTransaction | bank_management/bank_management/report/bank_reconcile_report/bank_reconcile_report.py:784-797 | The same for a Journal Entry. |
| Sweeps.SweepPayments | bank_management/bank_management/report/bank_reconcile_report/bank_reconcile_report.py:642-729 | `get_unmatched_payment_entries` returns `UnmatchedPayments`. |
| Sweeps.SweepJournals | bank_management/bank_management/report/bank_reconcile_report/bank_reconcile_report.py:732-815 | `get_unmatched_journal_entries` returns `UnmatchedJournals`. |
| Sweeps.PaymentSweepIsComplete | bank_management/bank_management/report/bank_reconcile_report/bank_reconcile_report.py:660-722 | Every admitted, unmatched Payment Entry without a fitting transaction is swept. |
| Sweeps.PaymentSweepIsSound | bank_management/bank_management/report/bank_reconcile_report/bank_reconcile_report.py:660-722 | Every swept entry is the entry of a Payment Entry of the store that the sweep query admits (so it has a reference number), not in the matched set and without a fitting transaction. |
| Sweeps.JournalSweepIsComplete | bank_management/bank_management/report/bank_reconcile_report/bank_reconcile_report.py:749-808 | Every admitted, unmatched Journal Entry without a fitting withdrawal is swept. |
| Sweeps.JournalSweepIsSound | bank_management/bank_management/report/bank_reconcile_report/bank_reconcile_report.py:749-808 | Every swept entry is the entry of a Journal Entry of the store that the sweep query admits (so it has a cheque number), not matched and without a fitting withdrawal. |
| Sweeps.KeptPaymentsKeepOrder | bank_management/bank_management/report/bank_reconcile_report/bank_reconcile_report.py:679-722 | Keeping entries preserves posting-date-descending order. |
| Sweeps.KeptJournalsKeepOrder | bank_management/bank_management/report/bank_reconcile_report/bank_reconcile_report.py:769-808 | The same for Journal Entries. |
| Sweeps.SweepsKeepOrder | bank_management/bank_management/report/bank_reconcile_report/bank_reconcile_report.py:642-815 | Both sweeps report newest first. |
| Labels.MarkerFor | bank_management/bank_management/report/bank_reconcile_report/bank_reconcile_report.py:962-975 | A keycap marker exactly for row numbers 1 to 10, `n.` otherwise, always carrying the row number. |
| Labels.ShownStatus | bank_management/bank_management/report/bank_reconcile_report/bank_reconcile_report.py:978 | An unset status is shown as Unreconciled, any other as itself. |
| Labels.StatusEmoji | bank_management/bank_management/report/bank_reconcile_report/bank_reconcile_report.py:949-999 | Unmatched exactly when there is a voucher that is not matched. The checkmark appears exactly when reconciled or nothing is unallocated. A row with a voucher never shows the hourglass. A row without one shows no glyph exactly when it is Unreconciled with an amount unallocated. |
| Labels.ReconcileButton | bank_management/bank_management/report/bank_reconcile_report/bank_reconcile_report.py:1002-1013 | No button exactly when Reconciled, or when nothing is unallocated and there is no voucher. The voucher form appears exactly when a voucher and a doctype are given. |
| Labels.CreatePaymentEntryButton | bank_management/bank_management/report/bank_reconcile_report/bank_reconcile_report.py:1016-1031 | No button exactly for the five conditions. The data attributes are those given, and the optional reference appears exactly when set. |
| Labels.CreateJournalEntryButton | bank_management/bank_management/report/bank_reconcile_report/bank_reconcile_report.py:1034-1045 | No button exactly when the voucher is a Journal Entry, when there is a voucher of no type, or when nothing is unallocated. |
| Labels.CreateBankTransactionButton | bank_management/bank_management/report/bank_reconcile_report/bank_reconcile_report.py:1048-1054 | No button exactly when a transaction exists or the doctype or name is unset. |
| Labels.VoucherTypeBlocksOnlyItsOwnButton | bank_management/bank_management/report/bank_reconcile_report/bank_reconcile_report.py:1016-1045 | A voucher type blocks its own create button. For the other button it acts as no voucher at all. |
| Rows.ListedTransactions | bank_management/bank_management/report/bank_reconcile_report/bank_reconcile_report.py:241-314 | The listing holds exactly the transactions of the table that pass every filter. |
| Rows.Listed | bank_management/bank_management/report/bank_reconcile_report/bank_reconcile_report.py:241-293 | The listing filter: submitted, and each filter that is set applies (company, bank account, date bounds, reference date, reference number as a substring, owner, status). |
| Rows.StatusListed | bank_management/bank_management/report/bank_reconcile_report/bank_reconcile_report.py:282-292 | Showing unmatched vouchers or the Unreconciled filter admits only Pending or Unreconciled transactions with an unallocated amount; otherwise the Reconciled filter admits only Reconciled ones; otherwise all. |
| Rows.ReferenceDateListed | bank_management/bank_management/report/bank_reconcile_report/bank_reconcile_report.py:264-273 | When enabled with at least one bound, the reference date is set and within the bounds. |
| Rows.TransactionRows | bank_management/bank_management/report/bank_reconcile_report/bank_reconcile_report.py:320-370 | One row per listed transaction, in order. |
| Rows.SweepRows | bank_management/bank_management/report/bank_reconcile_report/bank_reconcile_report.py:375-422 | One row per swept voucher, in order. |
| Rows.TransactionRow | bank_management/bank_management/report/bank_reconcile_report/bank_reconcile_report.py:320-370 | A transaction's row carries its own fields and never offers the create-transaction button. With a matched voucher it shows that voucher's doctype, name, reference, date, amount and party. It offers no reconcile button for a persisted link, and otherwise the reconcile button built with the transaction's status. Without a voucher it has no voucher side, the reconcile button built without the status, and the status label and create buttons of a transaction with no voucher. |
| Rows.SweepRow | bank_management/bank_management/report/bank_reconcile_report/bank_reconcile_report.py:375-422 | A voucher's row has no transaction side and no unallocated amount. It shows the voucher's name, reference, date, amount, party type and party. Its label is Unmatched. It offers no reconcile, create-Payment-Entry or create-Journal-Entry button, only the create-transaction button. |
| Rows.ListTransactions | bank_management/bank_management/report/bank_reconcile_report/bank_reconcile_report.py:295-314 | The listing loop computes `ListedTransactions`. |
| Rows.AppendSweepRows | bank_management/bank_management/report/bank_reconcile_report/bank_reconcile_report.py:375-422 | The loop appends `SweepRows` to the data. |
| Rows.TransactionLoop | bank_management/bank_management/report/bank_reconcile_report/bank_reconcile_report.py:316-370 | The loop builds the transaction rows and the matched-voucher set. |
| Rows.GetData | bank_management/bank_management/report/bank_reconcile_report/bank_reconcile_report.py:237-424 | `get_data` returns `DataRows`. |
| Rows.AttachedVouchersAreMatched | bank_management/bank_management/report/bank_reconcile_report/bank_reconcile_report.py:333-336 | Every voucher shown beside a transaction is in the matched set. |
| Rows.DataLayout | bank_management/bank_management/report/bank_reconcile_report/bank_reconcile_report.py:319-424 | The data is the transaction rows in listing order, then the Payment Entry sweep rows, then the Journal Entry sweep rows. |
| Rows.NoVoucherShownTwice | bank_management/bank_management/report/bank_reconcile_report/bank_reconcile_report.py:316-400 | A voucher shown beside a transaction is not swept again. |
| Rows.VoucherRowActions | bank_management/bank_management/report/bank_reconcile_report/bank_reconcile_report.py:333-352 | A row with a voucher offers no create button. A linked voucher's row offers no reconcile button and shows a status, while an unlinked match shows Unmatched. |
| Rows.SweepRowActions | bank_management/bank_management/report/bank_reconcile_report/bank_reconcile_report.py:375-422 | A sweep row is Unmatched, offers no reconcile button, has no transaction and offers the create-transaction button exactly when the voucher has a name. |
| Summary.AccountBalance | bank_management/bank_management/report/bank_reconcile_report/bank_reconcile_report.py:1057-1082 | The loop computes the cleared balance: 0 without a ledger account, else the balance less uncleared debits plus uncleared credits and the amounts not reflected. |
| Summary.ClearedBalance | bank_management/bank_management/report/bank_reconcile_report/bank_reconcile_report.py:1057-1082 | The cleared balance is 0 without a ledger account. Otherwise it is the ledger balance less the net debit of the uncleared entries, plus the amounts not reflected. |
| Summary.BalancedEntryKeepsClearedBalance | bank_management/bank_management/report/bank_reconcile_report/bank_reconcile_report.py:1074-1082 | An uncleared entry that debits and credits equally leaves the cleared balance unchanged. |
| Summary.ReportSummary | bank_management/bank_management/report/bank_reconcile_report/bank_reconcile_report.py:1085-1141 | Empty exactly without a bank account, a company or a ledger account. Otherwise three entries in one currency: the ERP balance (blue; 0 without a to-date), the statement balance (orange) and their absolute difference (green exactly when below 0.01, else red). |
| Summary.GreenMeansAgreement | bank_management/bank_management/report/bank_reconcile_report/bank_reconcile_report.py:1116-1139 | Green exactly when the two balances differ by less than 0.01 in either direction. |
| Derivation.ReconcileAmount | bank_management/bank_management/report/bank_reconcile_report/bank_reconcile_report.py:102 | `deposit or withdrawal`: the deposit when non-zero, else the withdrawal. |
| Derivation.TargetAccount | bank_management/bank_management/report/bank_reconcile_report/bank_reconcile_report.py:24-27 | A given Bank Account is used as is; otherwise one whose ledger account is the voucher's, none exactly when there is no such account. |
| Derivation.CurrencyFor | bank_management/bank_management/report/bank_reconcile_report/bank_reconcile_report.py:88-89 | The Bank Account's `default_currency` when it has one; otherwise the `default_currency` of the voucher's company. |
| Derivation.BankAccountsOf | bank_management/bank_management/report/bank_reconcile_report/bank_reconcile_report.py:45-51 | The bank rows' accounts of a Journal Entry: empty exactly when no row is a Bank account, and the first is the account of the first Bank row. |
| Derivation.FirstRowOn | bank_management/bank_management/report/bank_reconcile_report/bank_reconcile_report.py:59-63 | The first row on an account, none exactly when no row is on it. |
| Derivation.FromPayment | bank_management/bank_management/report/bank_reconcile_report/bank_reconcile_report.py:21-41 | The branch fails exactly when no Bank Account is given and none is on `paid_to` for a receipt or `paid_from` otherwise. A success names the Payment Entry and is booked on the given Bank Account or on one with that ledger account. Its currency is the Bank Account's default, else the company's. |
| Derivation.FromJournal | bank_management/bank_management/report/bank_reconcile_report/bank_reconcile_report.py:43-75 | The branch fails for want of a bank row exactly when no row's account type is Bank. It fails for want of a Bank Account exactly when none is given and none is on the first Bank row's ledger account. A success names the Journal Entry and copies its cheque number, its date and the first row's party. It is booked on the given Bank Account or on one with the first Bank row's ledger account, in its currency or else the company's. |
| Derivation.DeriveTransaction | bank_management/bank_management/report/bank_reconcile_report/bank_reconcile_report.py:15-91 | Only Payment and Journal Entries succeed. A success keeps the voucher's doctype and name, describes its origin, uses a given Bank Account, and takes the currency of the target Bank Account, else of the voucher's company. |
| Derivation.UnsupportedTypeIsRejected | bank_management/bank_management/report/bank_reconcile_report/bank_reconcile_report.py:76-78 | An existing voucher of another doctype is rejected as unsupported. |
| Derivation.PaymentDirection | bank_management/bank_management/report/bank_reconcile_report/bank_reconcile_report.py:21-41 | A received payment becomes a deposit of the received amount, any other a withdrawal of the paid amount. Reference, date and party are copied, and the reconcile amount is that amount. |
| Derivation.DerivedDirectionFits | bank_management/bank_management/report/bank_reconcile_report/bank_reconcile_report.py:30-36 | The derived transaction of a positive payment asks the matcher for the payment's own type. |
| Derivation.JournalBankRow | bank_management/bank_management/report/bank_reconcile_report/bank_reconcile_report.py:43-70 | A Journal Entry is booked from its first Bank row: its debit is the deposit, its credit the withdrawal. |
| Bulk.ValidationOf | bank_management/bank_management/doctype/bulk_bank_transaction/bulk_bank_transaction.py:11-29 | The document is valid exactly when it has a bank account, at least one row, and every row has a date and an amount. |
| Bulk.RowsValidation | bank_management/bank_management/doctype/bulk_bank_transaction/bulk_bank_transaction.py:22-29 | Valid exactly when every row is; otherwise a missing-date or missing-amount error. |
| Bulk.FirstInvalidRowDecides | bank_management/bank_management/doctype/bulk_bank_transaction/bulk_bank_transaction.py:22-29 | The first invalid row decides the error: a missing date, or else the missing amounts with that row's date. |
| Bulk.TransactionStore.Insert | bank_management/bank_management/doctype/bulk_bank_transaction/bulk_bank_transaction.py:111-114 | An accepted insert appends the transaction and names it by the series and its position. A refused one changes nothing and reports the message. |
| Bulk.Step | bank_management/bank_management/doctype/bulk_bank_transaction/bulk_bank_transaction.py:82-121 | One iteration: a linked row is skipped. An unlinked row gets a date error, an amount error or an insert error with its index, or is named with one insert added. |
| Bulk.Process | bank_management/bank_management/doctype/bulk_bank_transaction/bulk_bank_transaction.py:81-121 | The loop keeps the table's length and inserts one transaction per creation. |
| Bulk.ProcessShape | bank_management/bank_management/doctype/bulk_bank_transaction/bulk_bank_transaction.py:84-114 | A row is changed only by naming its new transaction, and a row that had one is unchanged. |
| Bulk.CreatedCountsNewLinks | bank_management/bank_management/doctype/bulk_bank_transaction/bulk_bank_transaction.py:114-116 | `created_count` is the number of rows newly given a transaction. |
| Bulk.ErrorIndicesInOrder | bank_management/bank_management/doctype/bulk_bank_transaction/bulk_bank_transaction.py:81-121 | Error indices lie between 1 and the table's length and strictly increase. |
| Bulk.ErrorsMarkUnlinkedRows | bank_management/bank_management/doctype/bulk_bank_transaction/bulk_bank_transaction.py:81-121 | A row has an error exactly when it had no transaction and was given none. |
| Bulk.DateErrorsByRow | bank_management/bank_management/doctype/bulk_bank_transaction/bulk_bank_transaction.py:88-90 | A date error names a row exactly when that row is unlinked and has no date. |
| Bulk.AmountErrorsByRow | bank_management/bank_management/doctype/bulk_bank_transaction/bulk_bank_transaction.py:92-95 | An amount error names a row exactly when that row is unlinked, dated, and has both amounts zero. |
| Bulk.CreatedRowsAreCopied | bank_management/bank_management/doctype/bulk_bank_transaction/bulk_bank_transaction.py:97-114 | A newly named row was valid. One inserted transaction copies its fields with the batch's account, company, currency and parent, and carries the name written into the row. |
| Bulk.ValidTableOnlyInsertFailures | bank_management/bank_management/doctype/bulk_bank_transaction/bulk_bank_transaction.py:88-121 | For a table that passes `validate`, the only errors are refused inserts. |
| Bulk.LinkedTableIsUntouched | bank_management/bank_management/doctype/bulk_bank_transaction/bulk_bank_transaction.py:84-85 | A fully linked table is left as it is, with nothing created and no error. |
| Bulk.RerunCreatesNothing | bank_management/bank_management/doctype/bulk_bank_transaction/bulk_bank_transaction.py:81-121 | After a run without errors, running again creates nothing and reports nothing. |
| Bulk.BatchFailureOf | bank_management/bank_management/doctype/bulk_bank_transaction/bulk_bank_transaction.py:42-79 | The batch fails on a missing bank account, then on an empty table, then with `CompanyNotFound` exactly when no company resolves, then with `CurrencyNotFound` exactly when no currency resolves; otherwise it proceeds. It is never a save refusal. |
| Bulk.ResolveCompany | bank_management/bank_management/doctype/bulk_bank_transaction/bulk_bank_transaction.py:54-61 | The document's company when set; otherwise that of its Bank Account, or unset when there is none. |
| Bulk.ResolveCurrency | bank_management/bank_management/doctype/bulk_bank_transaction/bulk_bank_transaction.py:63-75 | The ledger account's `account_currency` when the Bank Account has a ledger account with one; otherwise the company's default currency. |
| Bulk.StartFailure | bank_management/bank_management/doctype/bulk_bank_transaction/bulk_bank_transaction.py:35-79 | A new document that fails `validate` is refused at its first save. A saved, valid document can only fail on its company or currency. |
| Bulk.ProcessKeepsValidity | bank_management/bank_management/doctype/bulk_bank_transaction/bulk_bank_transaction.py:123-125 | The table still passes `validate` after the loop, so the closing save succeeds. |
| Bulk.ProcessRow | bank_management/bank_management/doctype/bulk_bank_transaction/bulk_bank_transaction.py:82-121 | One iteration against the store follows `Step`. |
| Bulk.RunBatch | bank_management/bank_management/doctype/bulk_bank_transaction/bulk_bank_transaction.py:81-121 | The loop over the table follows `Process`, appending its inserts to the store. |
| Bulk.BulkBankTransaction.Validate | bank_management/bank_management/doctype/bulk_bank_transaction/bulk_bank_transaction.py:11-29 | `validate` returns `ValidationOf` of the document. |
| Bulk.BulkBankTransaction.Save | bank_management/bank_management/doctype/bulk_bank_transaction/bulk_bank_transaction.py:35-36 | A save keeps the document exactly when it passes `validate`. Otherwise it is refused with that error and the saved state is unchanged. |
| Bulk.BulkBankTransaction.Reload | bank_management/bank_management/doctype/bulk_bank_transaction/bulk_bank_transaction.py:39 | The fields in hand become the saved ones. |
| Bulk.BulkBankTransaction.CreateBankTransactions | bank_management/bank_management/doctype/bulk_bank_transaction/bulk_bank_transaction.py:31-141 | The run works on the saved-and-reloaded document. A failure changes nothing in the store. Otherwise the result is `{created, errors}` of `Process`, the table is the processed one, the inserts are appended, and the document is saved again only when something was created. |

## Left out

- Persistence and SQL: queries are filters of in-memory tables. Indexes, joins as such, collation and transactions are not modelled. Each table is taken to be already in the order its query sorts by.
- A failing store is one flag that fails every query at once. A single failing query, or an exception from an unexpected record shape, is not modelled separately.
- `get_columns` and `execute` are not modelled: they are column metadata and wiring. `execute` passes the filters and data on to `get_data` and `get_report_summary`, which are modelled.
- `get_linked_vouchers` is not modelled: nothing in the report calls it.
- Several ERPNext functions are outside this app and are not modelled. `get_balance_on`, `get_entries` and `get_amounts_not_reflected_in_system` are inputs (`Summary.LedgerInputs`). `get_account_currency` is the `accountCurrency` map.
- Derivation.DeriveTransaction: stops before the insert. It does not model `insert`, `submit`, the call to `reconcile_vouchers`, or the re-raise as "Error creating Bank Transaction". The reconcile amount is returned instead.
- Logging (`frappe.log_error`), `msgprint` and translated message texts are not modelled. Bulk row errors are datatypes carrying the row index, not strings.
- HTML markup and emoji: labels and buttons are datatypes carrying the attributes the markup would show.
- Floating point and `flt` are not modelled. Amounts are exact reals, and an unset amount is 0.
- SQL `LIKE` on the reference-number filter is a case-sensitive substring test. Wildcard characters inside the search text are not interpreted.
- Unordered queries: the first link of a transaction (lines 443-448 of `R`), the exact-match Payment Entry and Journal Entry searches (lines 501-519 and 547-565 of `R`) and `get_bank_account_from_account` (lines 117-121 of `R`) have no `ORDER BY`, so the database chooses which admitted row comes back; the model returns the first admitted element of a fixed table order. `Matcher.FirstLink`, `Matcher.FirstExactPaymentMatches`, `Matcher.FirstExactJournalMatches` and `Records.BankAccountFor` are stated for that order; `frappe.get_all`'s default sort is not modelled.
- `MAX(party_type)` uses byte-wise string order, not the database collation.
- Rows.ReferenceDateListed: when both reference-date bounds are set, the source appends the upper bound inside the lower bound's filter list. The model applies both bounds as evidently intended; what the framework does with that list is not modelled.
- A filter dictionary with an unset value, as in `get_bank_account_from_account(None)`, is taken to match nothing.
- The naming series of inserted Bank Transactions is `series-n`, with `n` the transaction's position in the store. Real naming rules are not modelled.
- Why an insert is refused (mandatory fields, permissions, hooks) is not modelled: the refusal message is a function given to the `TransactionStore`. An empty message means the insert is accepted.
- The rollback after a raised error is modelled only for the document's saved state and the `TransactionStore`.
- The document's name is fixed when it is constructed. The name an `is_new` save would assign is not modelled.
- The JavaScript forms and report scripts are not modelled.
- Concurrency between requests is not modelled.

Where the code departs from its own docstrings and comments, the model follows the code:
- The `get_status_emoji` docstring describes a row number for rows of the same reference (line 959 of `R`). Every caller passes 1 (lines 346 and 364 of `R`).
- The `get_unmatched_vouchers` docstring says the payment type must match the direction (lines 824-825 of `R`). The Payment Entry query also admits Internal Transfers (line 859 of `R`), and the Journal Entry query has no direction check (lines 901-927 of `R`).
- The comment on a linked Journal Entry's amount says it is to be calculated from the accounts, but it stays 0, with no party type (lines 469-476 of `R`).

Other behaviours of the code that the model keeps:
- Only a transaction's first link is shown (`limit=1`, lines 443-448 of `R`). A transaction with several links still gets a single row.
- A transaction row without a voucher builds its reconcile button without the status (line 365 of `R`), so a reconciled transaction with an unallocated amount still offers it (`Rows.TransactionRow`).
- A transaction matched by reference number shows the Unmatched label, because `is_matched` receives `is_linked` (line 346 of `R`).
- The reference date is read from the voucher (lines 39 and 73 of `R`) but never set on the derived Bank Transaction, so `Derivation.NewTransaction` has no reference date.
- A document saved through `validate` has only rows with a date and an amount. In the batch, a date or amount error can therefore only come from a table changed outside `save` (`Bulk.ValidTableOnlyInsertFailures`).
