/** The records the reconciliation core reads from the document store, the
    report filters, and the small lookups shared by every component.

    Conventions of the model:
    - an amount is a `real` (the code only compares, adds and takes absolute
      values of amounts);
    - a date is an `int` day number, so that dates are ordered;
    - in a string field the empty string stands for an unset value (NULL or
      None in the store); `SqlEq` is SQL equality, which never holds for an
      unset operand. */
module Records {

  type Date = int
  type Amount = real

  datatype Option<T> = None | Some(value: T)

  /** Document type names as they appear in link rows and report rows. */
  const PaymentEntryDoc: string := "Payment Entry"
  const JournalEntryDoc: string := "Journal Entry"

  lemma DocTypesDiffer()
    ensures PaymentEntryDoc != JournalEntryDoc
  {
    assert PaymentEntryDoc[0] != JournalEntryDoc[0];
  }

  /** The (doctype, name) pair by which the report tracks a voucher. */
  datatype VoucherKey = VoucherKey(doctype: string, name: string)

  /** Bank Transaction status values. `Blank` is a transaction whose status is unset. */
  datatype Status = Blank | Pending | Settled | Unreconciled | Reconciled | Cancelled

  datatype PaymentType = Receive | Pay | InternalTransfer

  /** A "Bank Account" record: its ledger (GL) account and its company. */
  datatype BankAccount = BankAccount(name: string, account: string, company: string, defaultCurrency: string)

  /** Account, company and bank-account registries (single-record lookups by name). */
  datatype Registry = Registry(
    bankAccounts: seq<BankAccount>,
    accountCurrency: map<string, string>,
    accountType: map<string, string>,
    companyCurrency: map<string, string>)

  datatype BankTransaction = BankTransaction(
    name: string,
    date: Date,
    deposit: Amount,
    withdrawal: Amount,
    referenceNumber: string,
    referenceDate: Option<Date>,
    unallocated: Amount,
    status: Status,
    partyType: string,
    party: string,
    bankAccount: string,
    company: string,
    owner: string,
    docstatus: int)

  /** A Payment Entry. `baseAmountAfterTax` is the amount the report shows;
      `paidAmount` and `receivedAmount` are the two sides of the payment. */
  datatype PaymentEntry = PaymentEntry(
    name: string,
    postingDate: Date,
    referenceNo: string,
    referenceDate: Option<Date>,
    paymentType: PaymentType,
    paidFrom: string,
    paidTo: string,
    company: string,
    docstatus: int,
    clearanceDate: Option<Date>,
    paidAmount: Amount,
    receivedAmount: Amount,
    baseAmountAfterTax: Amount,
    partyType: string,
    party: string)

  /** One row of a Journal Entry's accounts table. */
  datatype JournalAccount = JournalAccount(
    account: string,
    debit: Amount,
    credit: Amount,
    partyType: string,
    party: string)

  datatype JournalEntry = JournalEntry(
    name: string,
    postingDate: Date,
    chequeNo: string,
    chequeDate: Option<Date>,
    voucherType: string,
    company: string,
    docstatus: int,
    clearanceDate: Option<Date>,
    payToRecdFrom: string,
    accounts: seq<JournalAccount>)

  /** A "Bank Transaction Payments" row: a persisted link from the bank
      transaction named `parent` to the voucher (`document`, `entry`). */
  datatype PaymentLink = PaymentLink(parent: string, document: string, entry: string, allocatedAmount: Amount)

  /** The document store. A query is a filter of its table, in table order.
      Where a query sorts (transactions by date descending then reference
      number, vouchers by posting date descending), the table is taken to be
      in that order. Where it does not (the link lookup, the exact-match
      searches, the Bank Account of a ledger account), the database chooses
      which admitted row comes back; the model then takes the first admitted
      element of the table's fixed order. `otherVouchers` are the existing
      documents of any other doctype a link may name. `unavailable` stands
      for a store that fails every query. */
  datatype Store = Store(
    registry: Registry,
    transactions: seq<BankTransaction>,
    payments: seq<PaymentEntry>,
    journals: seq<JournalEntry>,
    links: seq<PaymentLink>,
    otherVouchers: set<VoucherKey>,
    unavailable: bool)

  /** The `reconciliation_status` filter; any other value filters nothing. */
  datatype StatusFilter = AnyStatus | ReconciledOnly | UnreconciledOnly

  /** The report filters. Unset strings are "", unset dates `None`. */
  datatype Filters = Filters(
    company: string,
    bankAccount: string,
    fromDate: Option<Date>,
    toDate: Option<Date>,
    statementFromDate: Option<Date>,
    statementToDate: Option<Date>,
    filterByReferenceDate: bool,
    fromReferenceDate: Option<Date>,
    toReferenceDate: Option<Date>,
    referenceNumber: string,
    createdBy: string,
    reconciliationStatus: StatusFilter,
    showUnmatchedVouchers: bool,
    statementClosingBalance: Amount)

  /** SQL equality: never true when either operand is unset. */
  predicate SqlEq(a: string, b: string)
  {
    a != "" && a == b
  }

  /** `bank_statement_from_date or from_date`. */
  function EffectiveFrom(f: Filters): (r: Option<Date>)
    ensures r.Some? <==> f.statementFromDate.Some? || f.fromDate.Some?
    ensures f.statementFromDate.Some? ==> r == f.statementFromDate
  {
    if f.statementFromDate.Some? then f.statementFromDate else f.fromDate
  }

  /** `bank_statement_to_date or to_date`. */
  function EffectiveTo(f: Filters): (r: Option<Date>)
    ensures r.Some? <==> f.statementToDate.Some? || f.toDate.Some?
    ensures f.statementToDate.Some? ==> r == f.statementToDate
  {
    if f.statementToDate.Some? then f.statementToDate else f.toDate
  }

  /** `(from IS NULL OR d >= from) AND (to IS NULL OR d <= to)`. */
  predicate InBounds(d: Date, from: Option<Date>, to: Option<Date>)
  {
    (from.None? || d >= from.value) && (to.None? || d <= to.value)
  }

  /** A single-record field lookup: "" when the record or the value is missing. */
  function Lookup(m: map<string, string>, key: string): (r: string)
    ensures r != "" ==> key in m && m[key] == r
  {
    if key in m then m[key] else ""
  }

  /** Fetch of a Bank Account by name; a missing or unnamed record is `None`. */
  function FindBankAccount(accounts: seq<BankAccount>, name: string): (r: Option<BankAccount>)
    ensures r.Some? ==> name != "" && r.value in accounts && r.value.name == name
    ensures r.None? ==> name == "" || forall i :: 0 <= i < |accounts| ==> accounts[i].name != name
  {
    if name == "" || accounts == [] then None
    else if accounts[0].name == name then Some(accounts[0])
    else FindBankAccount(accounts[1..], name)
  }

  /** The ledger account of a Bank Account, "" when there is none. */
  function GlAccountOf(reg: Registry, bankAccount: string): (r: string)
    ensures r != "" ==> exists b :: b in reg.bankAccounts && b.name == bankAccount && b.account == r
  {
    var b := FindBankAccount(reg.bankAccounts, bankAccount);
    if b.Some? then b.value.account else ""
  }

  /** `get_bank_account_from_account`: the first Bank Account whose ledger
      account is `gl`. */
  function BankAccountFor(accounts: seq<BankAccount>, gl: string): (r: Option<BankAccount>)
    ensures r.Some? ==> r.value in accounts && SqlEq(r.value.account, gl)
    ensures r.None? ==> forall i :: 0 <= i < |accounts| ==> !SqlEq(accounts[i].account, gl)
  {
    if accounts == [] then None
    else if SqlEq(accounts[0].account, gl) then Some(accounts[0])
    else BankAccountFor(accounts[1..], gl)
  }

  /** SQL `LIKE '%sub%'`: `sub` occurs in `s`. */
  predicate ContainsText(s: string, sub: string)
    decreases |s|
  {
    sub <= s || (|s| > 0 && ContainsText(s[1..], sub))
  }
}
