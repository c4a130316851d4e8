/** The field derivation of `create_bank_transaction_from_voucher`: the bank
    transaction a Payment Entry or Journal Entry gives rise to, and the
    amount it is then reconciled with. Inserting, submitting and reconciling
    are done by the document store and are not modelled. */
module Derivation {
  import opened Records
  import opened Matcher

  datatype DeriveError =
    | VoucherNotFound
    | UnsupportedVoucherType(doctype: string)
    | PaymentBankAccountNotFound
    | JournalBankRowNotFound
    | JournalBankAccountNotFound

  datatype Result<T> = Success(value: T) | Failure(error: DeriveError)

  /** The bank transaction to insert. */
  datatype NewTransaction = NewTransaction(
    date: Date,
    bankAccount: string,
    deposit: Amount,
    withdrawal: Amount,
    referenceNumber: string,
    description: string,
    currency: string,
    partyType: string,
    party: string)

  /** The derived transaction with the voucher it is reconciled against. */
  datatype Derived = Derived(transaction: NewTransaction, doctype: string, voucher: string, reconcileAmount: Amount)

  /** `deposit or withdrawal`. */
  function ReconcileAmount(deposit: Amount, withdrawal: Amount): (r: Amount)
    ensures deposit != 0.0 ==> r == deposit
    ensures deposit == 0.0 ==> r == withdrawal
  {
    if deposit != 0.0 then deposit else withdrawal
  }

  function Description(doctype: string, name: string): string
  {
    "Created from " + doctype + " " + name
  }

  /** The Bank Account the transaction is booked on: the one given, or the
      first Bank Account of the ledger account. */
  function TargetAccount(accounts: seq<BankAccount>, given: string, gl: string): (r: Option<string>)
    ensures given != "" ==> r == Some(given)
    ensures given == "" && r.Some? ==> exists b :: b in accounts && SqlEq(b.account, gl) && b.name == r.value
    ensures given == "" && r.None? ==> forall i :: 0 <= i < |accounts| ==> !SqlEq(accounts[i].account, gl)
  {
    if given != "" then Some(given)
    else
      match BankAccountFor(accounts, gl)
      case Some(b) => Some(b.name)
      case None => None
  }

  /** `default_currency` of the Bank Account, else of the voucher's company. */
  function CurrencyFor(reg: Registry, bankAccount: string, company: string): (r: string)
    ensures var b := FindBankAccount(reg.bankAccounts, bankAccount);
            b.Some? && b.value.defaultCurrency != "" ==> r == b.value.defaultCurrency
    ensures var b := FindBankAccount(reg.bankAccounts, bankAccount);
            !(b.Some? && b.value.defaultCurrency != "") ==> r == Lookup(reg.companyCurrency, company)
  {
    var b := FindBankAccount(reg.bankAccounts, bankAccount);
    if b.Some? && b.value.defaultCurrency != "" then b.value.defaultCurrency
    else Lookup(reg.companyCurrency, company)
  }

  predicate IsBankRow(reg: Registry, row: JournalAccount)
  {
    Lookup(reg.accountType, row.account) == "Bank"
  }

  /** The ledger accounts of the rows whose account type is Bank, in row order. */
  function BankAccountsOf(reg: Registry, rows: seq<JournalAccount>): (r: seq<string>)
    ensures |r| <= |rows|
    ensures r == [] <==> forall k :: 0 <= k < |rows| ==> !IsBankRow(reg, rows[k])
    ensures r != [] ==> exists k :: 0 <= k < |rows| && IsBankRow(reg, rows[k]) && rows[k].account == r[0]
                                    && forall m :: 0 <= m < k ==> !IsBankRow(reg, rows[m])
  {
    if rows == [] then []
    else
      var rest := BankAccountsOf(reg, rows[1..]);
      if IsBankRow(reg, rows[0]) then [rows[0].account] + rest
      else
        assert forall k :: 0 <= k < |rows[1..]| ==> rows[1..][k] == rows[k + 1];
        assert rest != [] ==> exists k :: 0 <= k < |rows| && IsBankRow(reg, rows[k]) && rows[k].account == rest[0]
                                          && forall m :: 0 <= m < k ==> !IsBankRow(reg, rows[m]) by {
          if rest != [] {
            var k :| 0 <= k < |rows[1..]| && IsBankRow(reg, rows[1..][k]) && rows[1..][k].account == rest[0]
                     && forall m :: 0 <= m < k ==> !IsBankRow(reg, rows[1..][m]);
            assert rows[k + 1] == rows[1..][k];
            forall m | 0 <= m < k + 1 ensures !IsBankRow(reg, rows[m]) {
              if m > 0 { assert rows[m] == rows[1..][m - 1]; }
            }
          }
        }
        rest
  }

  /** The first row on a ledger account. */
  function FirstRowOn(rows: seq<JournalAccount>, account: string): (r: Option<nat>)
    ensures r.Some? ==> r.value < |rows| && rows[r.value].account == account
                        && forall m :: 0 <= m < r.value ==> rows[m].account != account
    ensures r.None? ==> forall m :: 0 <= m < |rows| ==> rows[m].account != account
  {
    if rows == [] then None
    else if rows[0].account == account then Some(0)
    else
      match FirstRowOn(rows[1..], account)
      case None => None
      case Some(i) => Some(i + 1)
  }

  /** The Payment Entry branch: booked on the given Bank Account, or on the
      one of `paid_to` for a receipt and of `paid_from` otherwise. */
  function FromPayment(reg: Registry, p: PaymentEntry, given: string): (r: Result<Derived>)
    ensures r.Failure? <==> && given == ""
                            && forall i :: 0 <= i < |reg.bankAccounts| ==>
                                 !SqlEq(reg.bankAccounts[i].account, if p.paymentType == Receive then p.paidTo else p.paidFrom)
    ensures r.Failure? ==> r.error == PaymentBankAccountNotFound
    ensures r.Success? ==> && r.value.doctype == PaymentEntryDoc && r.value.voucher == p.name
                           && (given != "" ==> r.value.transaction.bankAccount == given)
                           && (given == "" ==> exists b :: && b in reg.bankAccounts && b.name == r.value.transaction.bankAccount
                                                           && SqlEq(b.account, if p.paymentType == Receive then p.paidTo else p.paidFrom))
                           && r.value.transaction.currency == CurrencyFor(reg, r.value.transaction.bankAccount, p.company)
  {
    var gl := if p.paymentType == Receive then p.paidTo else p.paidFrom;
    match TargetAccount(reg.bankAccounts, given, gl)
    case None => Failure(PaymentBankAccountNotFound)
    case Some(target) =>
      var deposit := if p.paymentType == Receive then p.receivedAmount else 0.0;
      var withdrawal := if p.paymentType == Receive then 0.0 else p.paidAmount;
      var t := NewTransaction(p.postingDate, target, deposit, withdrawal, p.referenceNo,
                              Description(PaymentEntryDoc, p.name), CurrencyFor(reg, target, p.company),
                              p.partyType, p.party);
      Success(Derived(t, PaymentEntryDoc, p.name, ReconcileAmount(deposit, withdrawal)))
  }

  /** The Journal Entry branch: booked on the given Bank Account, or on the
      one of its first row whose account type is Bank; the party is the
      first row's. */
  function FromJournal(reg: Registry, j: JournalEntry, given: string): (r: Result<Derived>)
    ensures r == Failure(JournalBankRowNotFound) <==> forall k :: 0 <= k < |j.accounts| ==> !IsBankRow(reg, j.accounts[k])
    ensures r.Failure? ==> r.error == JournalBankRowNotFound || r.error == JournalBankAccountNotFound
    ensures r == Failure(JournalBankAccountNotFound) <==>
              && BankAccountsOf(reg, j.accounts) != [] && given == ""
              && forall i :: 0 <= i < |reg.bankAccounts| ==> !SqlEq(reg.bankAccounts[i].account, BankAccountsOf(reg, j.accounts)[0])
    ensures r.Success? && given == "" ==>
              exists b :: && b in reg.bankAccounts && b.name == r.value.transaction.bankAccount
                          && SqlEq(b.account, BankAccountsOf(reg, j.accounts)[0])
    ensures r.Success? ==> r.value.transaction.currency == CurrencyFor(reg, r.value.transaction.bankAccount, j.company)
    ensures r.Success? ==> && r.value.doctype == JournalEntryDoc && r.value.voucher == j.name
                           && (given != "" ==> r.value.transaction.bankAccount == given)
                           && r.value.transaction.referenceNumber == j.chequeNo
                           && r.value.transaction.date == j.postingDate
                           && (j.accounts != [] ==> r.value.transaction.partyType == j.accounts[0].partyType
                                                    && r.value.transaction.party == j.accounts[0].party)
  {
    var banks := BankAccountsOf(reg, j.accounts);
    if banks == [] then Failure(JournalBankRowNotFound)
    else
      match TargetAccount(reg.bankAccounts, given, banks[0])
      case None => Failure(JournalBankAccountNotFound)
      case Some(target) =>
        var row := FirstRowOn(j.accounts, banks[0]);
        var deposit := if row.Some? then j.accounts[row.value].debit else 0.0;
        var withdrawal := if row.Some? then j.accounts[row.value].credit else 0.0;
        var partyType := if j.accounts != [] then j.accounts[0].partyType else "";
        var party := if j.accounts != [] then j.accounts[0].party else "";
        var t := NewTransaction(j.postingDate, target, deposit, withdrawal, j.chequeNo,
                                Description(JournalEntryDoc, j.name), CurrencyFor(reg, target, j.company),
                                partyType, party);
        Success(Derived(t, JournalEntryDoc, j.name, ReconcileAmount(deposit, withdrawal)))
  }

  /** `create_bank_transaction_from_voucher` up to the insert; `given` is the
      optional Bank Account argument ("" when omitted). */
  function DeriveTransaction(store: Store, doctype: string, name: string, given: string): (r: Result<Derived>)
    ensures r.Success? ==> && (r.value.doctype == PaymentEntryDoc || r.value.doctype == JournalEntryDoc)
                           && r.value.doctype == doctype && r.value.voucher == name
                           && r.value.transaction.description == Description(doctype, name)
                           && (given != "" ==> r.value.transaction.bankAccount == given)
    ensures doctype != PaymentEntryDoc && doctype != JournalEntryDoc ==> r.Failure?
    ensures r.Success? && doctype == PaymentEntryDoc ==>
              && FindPayment(store.payments, name).Some?
              && r.value.transaction.currency
                 == CurrencyFor(store.registry, r.value.transaction.bankAccount, FindPayment(store.payments, name).value.company)
    ensures r.Success? && doctype == JournalEntryDoc ==>
              && FindJournal(store.journals, name).Some?
              && r.value.transaction.currency
                 == CurrencyFor(store.registry, r.value.transaction.bankAccount, FindJournal(store.journals, name).value.company)
  {
    if doctype == PaymentEntryDoc then
      match FindPayment(store.payments, name)
      case None => Failure(VoucherNotFound)
      case Some(p) => FromPayment(store.registry, p, given)
    else if doctype == JournalEntryDoc then
      match FindJournal(store.journals, name)
      case None => Failure(VoucherNotFound)
      case Some(j) => FromJournal(store.registry, j, given)
    else if VoucherKey(doctype, name) in store.otherVouchers then Failure(UnsupportedVoucherType(doctype))
    else Failure(VoucherNotFound)
  }

  /** An existing voucher of another doctype is rejected as unsupported. */
  lemma UnsupportedTypeIsRejected(store: Store, doctype: string, name: string, given: string)
    requires doctype != PaymentEntryDoc && doctype != JournalEntryDoc
    requires VoucherKey(doctype, name) in store.otherVouchers
    ensures DeriveTransaction(store, doctype, name, given) == Failure(UnsupportedVoucherType(doctype))
  {
  }

  /** A received payment becomes a deposit of the received amount, any other
      payment a withdrawal of the paid amount, and the transaction is
      reconciled with that amount; its payment type is the one the matcher
      derives back from the transaction's direction whenever the amount is
      positive. */
  lemma PaymentDirection(reg: Registry, p: PaymentEntry, given: string)
    requires FromPayment(reg, p, given).Success?
    ensures var d := FromPayment(reg, p, given).value;
            var t := d.transaction;
            && (p.paymentType == Receive ==> t.deposit == p.receivedAmount && t.withdrawal == 0.0
                                             && d.reconcileAmount == p.receivedAmount)
            && (p.paymentType != Receive ==> t.deposit == 0.0 && t.withdrawal == p.paidAmount
                                             && d.reconcileAmount == p.paidAmount)
            && t.referenceNumber == p.referenceNo && t.date == p.postingDate
            && t.partyType == p.partyType && t.party == p.party
  {
  }

  /** The transaction of a Payment Entry with a positive amount, seen by the
      matcher, asks for the Payment Entry's own payment type. */
  lemma DerivedDirectionFits(reg: Registry, p: PaymentEntry, given: string, bt: BankTransaction)
    requires FromPayment(reg, p, given).Success? && p.paymentType != InternalTransfer
    requires var t := FromPayment(reg, p, given).value.transaction;
             bt.deposit == t.deposit && bt.withdrawal == t.withdrawal
    requires p.paymentType == Receive ==> p.receivedAmount > 0.0
    ensures DirectionType(bt) == p.paymentType
  {
  }

  /** A Journal Entry is booked from its first row whose account type is
      Bank: that row's debit is the deposit and its credit the withdrawal. */
  lemma {:induction false} JournalBankRow(reg: Registry, j: JournalEntry, given: string)
    requires FromJournal(reg, j, given).Success?
    ensures exists k :: && 0 <= k < |j.accounts| && IsBankRow(reg, j.accounts[k])
                        && (forall m :: 0 <= m < k ==> !IsBankRow(reg, j.accounts[m]))
                        && var d := FromJournal(reg, j, given).value;
                           && d.transaction.deposit == j.accounts[k].debit
                           && d.transaction.withdrawal == j.accounts[k].credit
                           && d.reconcileAmount == ReconcileAmount(j.accounts[k].debit, j.accounts[k].credit)
  {
    var banks := BankAccountsOf(reg, j.accounts);
    var k :| && 0 <= k < |j.accounts| && IsBankRow(reg, j.accounts[k]) && j.accounts[k].account == banks[0]
             && forall m :: 0 <= m < k ==> !IsBankRow(reg, j.accounts[m]);
    var row := FirstRowOn(j.accounts, banks[0]);
    assert row.Some?;
    assert row.value <= k;
    assert IsBankRow(reg, j.accounts[row.value]);
    assert row.value == k;
  }
}
