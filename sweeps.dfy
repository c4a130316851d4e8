/** The unmatched-voucher sweeps of the report (`get_unmatched_payment_entries`,
    `get_unmatched_journal_entries`): the vouchers of the filtered account that
    carry a reference, are not in the matched set, and have no bank
    transaction with that reference and a compatible direction. */
module Sweeps {
  import opened Records
  import opened Queries

  /** One voucher the sweep reports. */
  datatype SweepEntry = SweepEntry(
    name: string,
    postingDate: Date,
    reference: string,
    amount: Amount,
    partyType: string,
    party: string)

  /** The sweep's Payment Entry query: any payment type, reference number set. */
  function SweepPaymentWhere(f: Filters, gl: string): PaymentWhere
  {
    PaymentWhere(f.company, gl, EffectiveFrom(f), EffectiveTo(f), None, {Receive, Pay, InternalTransfer})
  }

  /** The sweep's Journal Entry query: cheque number set. */
  function SweepJournalWhere(f: Filters, gl: string): JournalWhere
  {
    JournalWhere(f.company, gl, EffectiveFrom(f), EffectiveTo(f), None)
  }

  /** A submitted bank transaction of the filtered account and company with
      the Payment Entry's reference number and a direction that fits its type. */
  predicate FitsPayment(t: BankTransaction, p: PaymentEntry, f: Filters)
  {
    && SqlEq(t.referenceNumber, p.referenceNo)
    && SqlEq(t.company, f.company)
    && SqlEq(t.bankAccount, f.bankAccount)
    && t.docstatus == 1
    && ((t.deposit > 0.0 && p.paymentType == Receive) || (t.withdrawal > 0.0 && p.paymentType == Pay))
  }

  /** The same for a Journal Entry, which only a withdrawal fits. */
  predicate FitsJournal(t: BankTransaction, j: JournalEntry, f: Filters)
  {
    && SqlEq(t.referenceNumber, j.chequeNo)
    && SqlEq(t.company, f.company)
    && SqlEq(t.bankAccount, f.bankAccount)
    && t.docstatus == 1
    && t.withdrawal > 0.0
  }

  predicate HasPaymentTransaction(ts: seq<BankTransaction>, p: PaymentEntry, f: Filters)
  {
    exists k :: 0 <= k < |ts| && FitsPayment(ts[k], p, f)
  }

  predicate HasJournalTransaction(ts: seq<BankTransaction>, j: JournalEntry, f: Filters)
  {
    exists k :: 0 <= k < |ts| && FitsJournal(ts[k], j, f)
  }

  function PaymentSweepEntry(p: PaymentEntry): SweepEntry
  {
    SweepEntry(p.name, p.postingDate, p.referenceNo, p.baseAmountAfterTax, p.partyType, p.party)
  }

  function JournalSweepEntry(j: JournalEntry, gl: string): SweepEntry
  {
    SweepEntry(j.name, j.postingDate, j.chequeNo, JournalAmount(j, gl), MaxPartyType(j.accounts, gl), j.payToRecdFrom)
  }

  /** A Payment Entry the sweep keeps: not matched and with no fitting transaction. */
  predicate KeepsPayment(p: PaymentEntry, matched: set<VoucherKey>, ts: seq<BankTransaction>, f: Filters)
  {
    VoucherKey(PaymentEntryDoc, p.name) !in matched && !HasPaymentTransaction(ts, p, f)
  }

  predicate KeepsJournal(j: JournalEntry, matched: set<VoucherKey>, ts: seq<BankTransaction>, f: Filters)
  {
    VoucherKey(JournalEntryDoc, j.name) !in matched && !HasJournalTransaction(ts, j, f)
  }

  function KeptPayments(ps: seq<PaymentEntry>, matched: set<VoucherKey>, ts: seq<BankTransaction>, f: Filters)
    : (r: seq<SweepEntry>)
    ensures forall e :: e in r ==> exists p :: p in ps && KeepsPayment(p, matched, ts, f) && e == PaymentSweepEntry(p)
    ensures forall p :: p in ps && KeepsPayment(p, matched, ts, f) ==> PaymentSweepEntry(p) in r
    decreases |ps|
  {
    if ps == [] then []
    else
      var last := ps[|ps| - 1];
      var rest := KeptPayments(ps[..|ps| - 1], matched, ts, f);
      assert forall p :: p in ps ==> p in ps[..|ps| - 1] || p == last;
      rest + (if KeepsPayment(last, matched, ts, f) then [PaymentSweepEntry(last)] else [])
  }

  function KeptJournals(js: seq<JournalEntry>, matched: set<VoucherKey>, ts: seq<BankTransaction>, f: Filters, gl: string)
    : (r: seq<SweepEntry>)
    ensures forall e :: e in r ==> exists j :: j in js && KeepsJournal(j, matched, ts, f) && e == JournalSweepEntry(j, gl)
    ensures forall j :: j in js && KeepsJournal(j, matched, ts, f) ==> JournalSweepEntry(j, gl) in r
    decreases |js|
  {
    if js == [] then []
    else
      var last := js[|js| - 1];
      var rest := KeptJournals(js[..|js| - 1], matched, ts, f, gl);
      assert forall j :: j in js ==> j in js[..|js| - 1] || j == last;
      rest + (if KeepsJournal(last, matched, ts, f) then [JournalSweepEntry(last, gl)] else [])
  }

  /** The store can serve a sweep: both filters set, the store answers, the
      filtered Bank Account exists. */
  predicate Sweepable(store: Store, f: Filters)
  {
    f.bankAccount != "" && f.company != "" && !store.unavailable
    && FindBankAccount(store.registry.bankAccounts, f.bankAccount).Some?
  }

  function SweepGl(store: Store, f: Filters): string
    requires Sweepable(store, f)
  {
    FindBankAccount(store.registry.bankAccounts, f.bankAccount).value.account
  }

  /** What `get_unmatched_payment_entries` returns. */
  function UnmatchedPayments(store: Store, f: Filters, matched: set<VoucherKey>): (r: seq<SweepEntry>)
    ensures f.bankAccount == "" || f.company == "" || store.unavailable ==> r == []
  {
    if !Sweepable(store, f) then []
    else KeptPayments(SelectPayments(store.payments, SweepPaymentWhere(f, SweepGl(store, f))), matched, store.transactions, f)
  }

  /** What `get_unmatched_journal_entries` returns. */
  function UnmatchedJournals(store: Store, f: Filters, matched: set<VoucherKey>): (r: seq<SweepEntry>)
    ensures f.bankAccount == "" || f.company == "" || store.unavailable ==> r == []
  {
    if !Sweepable(store, f) then []
    else
      var gl := SweepGl(store, f);
      KeptJournals(SelectJournals(store.journals, SweepJournalWhere(f, gl)), matched, store.transactions, f, gl)
  }

  /** The transaction check of the Payment Entry sweep (`LIMIT 1` existence query). */
  method FindPaymentTransaction(ts: seq<BankTransaction>, p: PaymentEntry, f: Filters) returns (found: bool)
    ensures found <==> HasPaymentTransaction(ts, p, f)
  {
    found := false;
    var k := 0;
    while k < |ts| && !found
      invariant 0 <= k <= |ts|
      invariant found <==> exists m :: 0 <= m < k && FitsPayment(ts[m], p, f)
    {
      found := FitsPayment(ts[k], p, f);
      k := k + 1;
    }
  }

  method FindJournalTransaction(ts: seq<BankTransaction>, j: JournalEntry, f: Filters) returns (found: bool)
    ensures found <==> HasJournalTransaction(ts, j, f)
  {
    found := false;
    var k := 0;
    while k < |ts| && !found
      invariant 0 <= k <= |ts|
      invariant found <==> exists m :: 0 <= m < k && FitsJournal(ts[m], j, f)
    {
      found := FitsJournal(ts[k], j, f);
      k := k + 1;
    }
  }

  /** `get_unmatched_payment_entries`: the loop over the query result. */
  method SweepPayments(store: Store, f: Filters, matched: set<VoucherKey>) returns (unmatched: seq<SweepEntry>)
    ensures unmatched == UnmatchedPayments(store, f, matched)
  {
    unmatched := [];
    if f.bankAccount == "" || f.company == "" {
      return;
    }
    var account := FindBankAccount(store.registry.bankAccounts, f.bankAccount);
    if store.unavailable || account.None? {
      return [];
    }
    var payments := SelectPayments(store.payments, SweepPaymentWhere(f, account.value.account));
    var i := 0;
    while i < |payments|
      invariant 0 <= i <= |payments|
      invariant unmatched == KeptPayments(payments[..i], matched, store.transactions, f)
    {
      var p := payments[i];
      if VoucherKey(PaymentEntryDoc, p.name) !in matched {
        var hasTransaction := FindPaymentTransaction(store.transactions, p, f);
        if !hasTransaction {
          unmatched := unmatched + [PaymentSweepEntry(p)];
        }
      }
      assert payments[..i + 1][..i] == payments[..i];
      i := i + 1;
    }
    assert payments[..i] == payments;
  }

  /** `get_unmatched_journal_entries`: the loop over the query result. */
  method SweepJournals(store: Store, f: Filters, matched: set<VoucherKey>) returns (unmatched: seq<SweepEntry>)
    ensures unmatched == UnmatchedJournals(store, f, matched)
  {
    unmatched := [];
    if f.bankAccount == "" || f.company == "" {
      return;
    }
    var account := FindBankAccount(store.registry.bankAccounts, f.bankAccount);
    if store.unavailable || account.None? {
      return [];
    }
    var gl := account.value.account;
    var journals := SelectJournals(store.journals, SweepJournalWhere(f, gl));
    var i := 0;
    while i < |journals|
      invariant 0 <= i <= |journals|
      invariant unmatched == KeptJournals(journals[..i], matched, store.transactions, f, gl)
    {
      var j := journals[i];
      if VoucherKey(JournalEntryDoc, j.name) !in matched {
        var hasTransaction := FindJournalTransaction(store.transactions, j, f);
        if !hasTransaction {
          unmatched := unmatched + [JournalSweepEntry(j, gl)];
        }
      }
      assert journals[..i + 1][..i] == journals[..i];
      i := i + 1;
    }
    assert journals[..i] == journals;
  }

  /** The Payment Entry sweep reports exactly the Payment Entries of the
      account that carry a reference number, are not in the matched set, and
      have no bank transaction with that reference and a fitting direction. */
  lemma {:induction false} PaymentSweepIsComplete(store: Store, f: Filters, matched: set<VoucherKey>, p: PaymentEntry)
    requires Sweepable(store, f) && p in store.payments
    ensures PaymentAdmits(SweepPaymentWhere(f, SweepGl(store, f)), p) && KeepsPayment(p, matched, store.transactions, f) ==>
              PaymentSweepEntry(p) in UnmatchedPayments(store, f, matched)
  {
    var sel := SelectPayments(store.payments, SweepPaymentWhere(f, SweepGl(store, f)));
    if PaymentAdmits(SweepPaymentWhere(f, SweepGl(store, f)), p) {
      assert p in sel;
    }
  }

  /** Every swept entry is the entry of a Payment Entry of the store that the
      sweep's query admits (so it carries a reference number) and that the
      sweep keeps: not matched and without a fitting transaction. */
  lemma {:induction false} PaymentSweepIsSound(store: Store, f: Filters, matched: set<VoucherKey>)
    ensures forall e :: e in UnmatchedPayments(store, f, matched) ==>
              && Sweepable(store, f)
              && VoucherKey(PaymentEntryDoc, e.name) !in matched
              && exists p :: && p in store.payments && e == PaymentSweepEntry(p) && p.referenceNo != ""
                             && PaymentAdmits(SweepPaymentWhere(f, SweepGl(store, f)), p)
                             && KeepsPayment(p, matched, store.transactions, f)
  {
    if Sweepable(store, f) {
      var sel := SelectPayments(store.payments, SweepPaymentWhere(f, SweepGl(store, f)));
      forall e | e in UnmatchedPayments(store, f, matched)
        ensures && VoucherKey(PaymentEntryDoc, e.name) !in matched
                && exists p :: && p in store.payments && e == PaymentSweepEntry(p) && p.referenceNo != ""
                               && PaymentAdmits(SweepPaymentWhere(f, SweepGl(store, f)), p)
                               && KeepsPayment(p, matched, store.transactions, f)
      {
        var p :| p in sel && KeepsPayment(p, matched, store.transactions, f) && e == PaymentSweepEntry(p);
        assert p in store.payments;
      }
    }
  }

  lemma {:induction false} JournalSweepIsComplete(store: Store, f: Filters, matched: set<VoucherKey>, j: JournalEntry)
    requires Sweepable(store, f) && j in store.journals
    ensures JournalAdmits(SweepJournalWhere(f, SweepGl(store, f)), j) && KeepsJournal(j, matched, store.transactions, f) ==>
              JournalSweepEntry(j, SweepGl(store, f)) in UnmatchedJournals(store, f, matched)
  {
    var sel := SelectJournals(store.journals, SweepJournalWhere(f, SweepGl(store, f)));
    if JournalAdmits(SweepJournalWhere(f, SweepGl(store, f)), j) {
      assert j in sel;
    }
  }

  /** Every swept entry is the entry of a Journal Entry of the store that the
      sweep's query admits (so it carries a cheque number) and that the sweep
      keeps: not matched and without a fitting withdrawal. */
  lemma {:induction false} JournalSweepIsSound(store: Store, f: Filters, matched: set<VoucherKey>)
    ensures forall e :: e in UnmatchedJournals(store, f, matched) ==>
              && Sweepable(store, f)
              && VoucherKey(JournalEntryDoc, e.name) !in matched
              && exists j :: && j in store.journals && j.chequeNo != "" && e == JournalSweepEntry(j, SweepGl(store, f))
                             && JournalAdmits(SweepJournalWhere(f, SweepGl(store, f)), j)
                             && KeepsJournal(j, matched, store.transactions, f)
  {
    if Sweepable(store, f) {
      var gl := SweepGl(store, f);
      var sel := SelectJournals(store.journals, SweepJournalWhere(f, gl));
      forall e | e in UnmatchedJournals(store, f, matched)
        ensures && VoucherKey(JournalEntryDoc, e.name) !in matched
                && exists j :: && j in store.journals && j.chequeNo != "" && e == JournalSweepEntry(j, gl)
                               && JournalAdmits(SweepJournalWhere(f, gl), j)
                               && KeepsJournal(j, matched, store.transactions, f)
      {
        var j :| j in sel && KeepsJournal(j, matched, store.transactions, f) && e == JournalSweepEntry(j, gl);
        assert j in store.journals;
      }
    }
  }

  ghost predicate EntriesNewestFirst(es: seq<SweepEntry>)
  {
    forall i, j :: 0 <= i < j < |es| ==> es[i].postingDate >= es[j].postingDate
  }

  lemma {:induction false} KeptPaymentsKeepOrder(ps: seq<PaymentEntry>, matched: set<VoucherKey>, ts: seq<BankTransaction>, f: Filters)
    requires PaymentsNewestFirst(ps)
    ensures EntriesNewestFirst(KeptPayments(ps, matched, ts, f))
    decreases |ps|
  {
    if ps != [] {
      var init := ps[..|ps| - 1];
      var last := ps[|ps| - 1];
      KeptPaymentsKeepOrder(init, matched, ts, f);
      forall e | e in KeptPayments(init, matched, ts, f) ensures e.postingDate >= last.postingDate {
        var p :| p in init && KeepsPayment(p, matched, ts, f) && e == PaymentSweepEntry(p);
        var k :| 0 <= k < |init| && init[k] == p;
      }
    }
  }

  lemma {:induction false} KeptJournalsKeepOrder(js: seq<JournalEntry>, matched: set<VoucherKey>, ts: seq<BankTransaction>, f: Filters, gl: string)
    requires JournalsNewestFirst(js)
    ensures EntriesNewestFirst(KeptJournals(js, matched, ts, f, gl))
    decreases |js|
  {
    if js != [] {
      var init := js[..|js| - 1];
      var last := js[|js| - 1];
      KeptJournalsKeepOrder(init, matched, ts, f, gl);
      forall e | e in KeptJournals(init, matched, ts, f, gl) ensures e.postingDate >= last.postingDate {
        var j :| j in init && KeepsJournal(j, matched, ts, f) && e == JournalSweepEntry(j, gl);
        var k :| 0 <= k < |init| && init[k] == j;
      }
    }
  }

  /** With the voucher tables in posting-date-descending order, both sweeps
      report their vouchers newest first. */
  lemma SweepsKeepOrder(store: Store, f: Filters, matched: set<VoucherKey>)
    requires PaymentsNewestFirst(store.payments) && JournalsNewestFirst(store.journals)
    ensures EntriesNewestFirst(UnmatchedPayments(store, f, matched))
    ensures EntriesNewestFirst(UnmatchedJournals(store, f, matched))
  {
    if Sweepable(store, f) {
      var gl := SweepGl(store, f);
      SelectKeepsPaymentOrder(store.payments, SweepPaymentWhere(f, gl));
      KeptPaymentsKeepOrder(SelectPayments(store.payments, SweepPaymentWhere(f, gl)), matched, store.transactions, f);
      SelectKeepsJournalOrder(store.journals, SweepJournalWhere(f, gl));
      KeptJournalsKeepOrder(SelectJournals(store.journals, SweepJournalWhere(f, gl)), matched, store.transactions, f, gl);
    }
  }
}
