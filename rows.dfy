/** The report rows (`get_data`): one row per listed bank transaction, with
    its matched voucher or its create buttons; then one row per unmatched
    Payment Entry and one per unmatched Journal Entry of the sweeps, which
    leave out every voucher already shown beside a transaction. */
module Rows {
  import opened Records
  import opened Queries
  import opened Matcher
  import opened Sweeps
  import opened Labels

  /** One report row. An unset date is `None`, an unset string "". */
  datatype Row = Row(
    btName: string,
    btDate: Option<Date>,
    btDeposit: Amount,
    btWithdrawal: Amount,
    btReference: string,
    btUnallocated: Amount,
    voucherDoctype: string,
    voucherName: string,
    voucherReference: string,
    voucherPostingDate: Option<Date>,
    voucherAmount: Amount,
    voucherPartyType: string,
    voucherParty: string,
    status: Label,
    reconcile: ReconcileAction,
    createPaymentEntry: PaymentEntryAction,
    createJournalEntry: JournalEntryAction,
    createBankTransaction: BankTransactionAction)

  /** The status condition of the listing: showing unmatched vouchers, or the
      Unreconciled filter, lists only pending or unreconciled transactions
      with an unallocated amount; the Reconciled filter only reconciled ones. */
  predicate StatusListed(bt: BankTransaction, f: Filters)
  {
    if f.showUnmatchedVouchers || f.reconciliationStatus == UnreconciledOnly then
      (bt.status == Pending || bt.status == Unreconciled) && bt.unallocated > 0.0
    else if f.reconciliationStatus == ReconciledOnly then bt.status == Reconciled
    else true
  }

  /** The reference-date condition: when enabled, the reference date is set
      and within the given bounds. */
  predicate ReferenceDateListed(bt: BankTransaction, f: Filters)
  {
    f.filterByReferenceDate && (f.fromReferenceDate.Some? || f.toReferenceDate.Some?) ==>
      bt.referenceDate.Some? && InBounds(bt.referenceDate.value, f.fromReferenceDate, f.toReferenceDate)
  }

  /** The Bank Transaction listing's filter; a filter left unset filters nothing. */
  predicate Listed(bt: BankTransaction, f: Filters)
  {
    && bt.docstatus == 1
    && (f.company != "" ==> bt.company == f.company)
    && (f.bankAccount != "" ==> bt.bankAccount == f.bankAccount)
    && InBounds(bt.date, EffectiveFrom(f), EffectiveTo(f))
    && ReferenceDateListed(bt, f)
    && (f.referenceNumber != "" ==> ContainsText(bt.referenceNumber, f.referenceNumber))
    && (f.createdBy != "" ==> bt.owner == f.createdBy)
    && StatusListed(bt, f)
  }

  /** The listed transactions, in the table's (query) order. */
  function ListedTransactions(ts: seq<BankTransaction>, f: Filters): (r: seq<BankTransaction>)
    ensures |r| <= |ts|
    ensures forall t :: t in r <==> t in ts && Listed(t, f)
    decreases |ts|
  {
    if ts == [] then []
    else
      var last := ts[|ts| - 1];
      ListedTransactions(ts[..|ts| - 1], f) + (if Listed(last, f) then [last] else [])
  }

  /** The row of one bank transaction. A transaction shown with a voucher
      offers no create buttons, and a reconcile button only when the voucher
      is not a persisted link; its label is the matched form only for a
      persisted link. A transaction without a voucher offers the reconcile
      and create buttons its amounts and party allow. */
  function TransactionRow(store: Store, bt: BankTransaction, f: Filters): (r: Row)
    ensures && r.btName == bt.name && r.btDate == Some(bt.date) && r.btDeposit == bt.deposit
            && r.btWithdrawal == bt.withdrawal && r.btReference == bt.referenceNumber
            && r.btUnallocated == bt.unallocated
    ensures r.createBankTransaction.NoBankTransaction?
    ensures MatchedVoucherFor(store, bt, f).Some? ==>
              && r.voucherDoctype == MatchedVoucherFor(store, bt, f).value.doctype
              && r.voucherName == MatchedVoucherFor(store, bt, f).value.name
              && r.voucherAmount == MatchedVoucherFor(store, bt, f).value.amount
              && r.voucherReference == MatchedVoucherFor(store, bt, f).value.referenceNo
              && r.voucherPostingDate == MatchedVoucherFor(store, bt, f).value.postingDate
              && r.voucherPartyType == MatchedVoucherFor(store, bt, f).value.partyType
              && r.voucherParty == MatchedVoucherFor(store, bt, f).value.party
              && r.reconcile == (if MatchedVoucherFor(store, bt, f).value.isLinked then NoReconcile
                                 else ReconcileButton(bt.name, bt.unallocated, MatchedVoucherFor(store, bt, f).value.name,
                                                      MatchedVoucherFor(store, bt, f).value.doctype, Some(bt.status)))
    ensures MatchedVoucherFor(store, bt, f).None? ==>
              && r.voucherDoctype == "" && r.voucherName == ""
              && r.reconcile == ReconcileButton(bt.name, bt.unallocated, "", "", None)
              && r.status == StatusEmoji(bt.status, bt.unallocated, false, false, 1)
              && r.createPaymentEntry == CreatePaymentEntryButton(bt.name, bt.unallocated, bt.partyType, bt.party,
                                                                  bt.referenceNumber, Some(bt.date), false, "")
              && r.createJournalEntry == CreateJournalEntryButton(bt.name, bt.unallocated, false, "")
  {
    match MatchedVoucherFor(store, bt, f)
    case Some(v) =>
      Row(bt.name, Some(bt.date), bt.deposit, bt.withdrawal, bt.referenceNumber, bt.unallocated,
          v.doctype, v.name, v.referenceNo, v.postingDate, v.amount, v.partyType, v.party,
          StatusEmoji(bt.status, bt.unallocated, true, v.isLinked, 1),
          if v.isLinked then NoReconcile else ReconcileButton(bt.name, bt.unallocated, v.name, v.doctype, Some(bt.status)),
          NoPaymentEntry, NoJournalEntry, NoBankTransaction)
    case None =>
      Row(bt.name, Some(bt.date), bt.deposit, bt.withdrawal, bt.referenceNumber, bt.unallocated,
          "", "", "", None, 0.0, "", "",
          StatusEmoji(bt.status, bt.unallocated, false, false, 1),
          ReconcileButton(bt.name, bt.unallocated, "", "", None),
          CreatePaymentEntryButton(bt.name, bt.unallocated, bt.partyType, bt.party, bt.referenceNumber, Some(bt.date), false, ""),
          CreateJournalEntryButton(bt.name, bt.unallocated, false, ""),
          NoBankTransaction)
  }

  /** The row of an unmatched voucher: no transaction side, the Unmatched
      label, and only the create-bank-transaction button. */
  function SweepRow(doctype: string, e: SweepEntry): (r: Row)
    ensures && r.btName == "" && r.btDate.None? && r.btDeposit == 0.0 && r.btWithdrawal == 0.0
    ensures && r.voucherDoctype == doctype && r.voucherName == e.name && r.voucherReference == e.reference
            && r.btReference == e.reference && r.voucherPostingDate == Some(e.postingDate) && r.voucherAmount == e.amount
    ensures r.voucherPartyType == e.partyType && r.voucherParty == e.party && r.btUnallocated == 0.0
    ensures r.status == UnmatchedLabel && r.reconcile == NoReconcile
    ensures r.createPaymentEntry == NoPaymentEntry && r.createJournalEntry == NoJournalEntry
    ensures r.createBankTransaction == CreateBankTransactionButton(doctype, e.name, false)
  {
    Row("", None, 0.0, 0.0, e.reference, 0.0,
        doctype, e.name, e.reference, Some(e.postingDate), e.amount, e.partyType, e.party,
        UnmatchedLabel, NoReconcile, NoPaymentEntry, NoJournalEntry,
        CreateBankTransactionButton(doctype, e.name, false))
  }

  function TransactionRows(store: Store, bts: seq<BankTransaction>, f: Filters): (r: seq<Row>)
    ensures |r| == |bts|
    ensures forall i :: 0 <= i < |bts| ==> r[i] == TransactionRow(store, bts[i], f)
  {
    seq(|bts|, i requires 0 <= i < |bts| => TransactionRow(store, bts[i], f))
  }

  function SweepRows(doctype: string, es: seq<SweepEntry>): (r: seq<Row>)
    ensures |r| == |es|
    ensures forall i :: 0 <= i < |es| ==> r[i] == SweepRow(doctype, es[i])
    decreases |es|
  {
    if es == [] then []
    else SweepRows(doctype, es[..|es| - 1]) + [SweepRow(doctype, es[|es| - 1])]
  }

  /** The key a transaction's matched voucher is recorded under. */
  function MatchKeyOf(store: Store, bt: BankTransaction, f: Filters): set<VoucherKey>
  {
    match MatchedVoucherFor(store, bt, f)
    case Some(v) => {VoucherKey(v.doctype, v.name)}
    case None => {}
  }

  /** `all_matched_vouchers` after the transaction loop. */
  function MatchedKeys(store: Store, bts: seq<BankTransaction>, f: Filters): set<VoucherKey>
    decreases |bts|
  {
    if bts == [] then {}
    else MatchedKeys(store, bts[..|bts| - 1], f) + MatchKeyOf(store, bts[|bts| - 1], f)
  }

  /** What `get_data` returns; `None` when the transaction listing fails,
      which the report does not catch. */
  function DataRows(store: Store, f: Filters): Option<seq<Row>>
  {
    if store.unavailable then None
    else
      var bts := ListedTransactions(store.transactions, f);
      var matched := MatchedKeys(store, bts, f);
      Some(TransactionRows(store, bts, f)
           + SweepRows(PaymentEntryDoc, UnmatchedPayments(store, f, matched))
           + SweepRows(JournalEntryDoc, UnmatchedJournals(store, f, matched)))
  }

  /** The listing query. */
  method ListTransactions(store: Store, f: Filters) returns (bts: seq<BankTransaction>)
    ensures bts == ListedTransactions(store.transactions, f)
  {
    bts := [];
    var i := 0;
    while i < |store.transactions|
      invariant 0 <= i <= |store.transactions|
      invariant bts == ListedTransactions(store.transactions[..i], f)
    {
      if Listed(store.transactions[i], f) {
        bts := bts + [store.transactions[i]];
      }
      assert store.transactions[..i + 1][..i] == store.transactions[..i];
      i := i + 1;
    }
    assert store.transactions[..i] == store.transactions;
  }

  /** The loop that appends one row per unmatched voucher. */
  method AppendSweepRows(data: seq<Row>, doctype: string, es: seq<SweepEntry>) returns (out: seq<Row>)
    ensures out == data + SweepRows(doctype, es)
  {
    out := data;
    var i := 0;
    while i < |es|
      invariant 0 <= i <= |es|
      invariant out == data + SweepRows(doctype, es[..i])
    {
      out := out + [SweepRow(doctype, es[i])];
      assert es[..i + 1][..i] == es[..i];
      i := i + 1;
    }
    assert es[..i] == es;
  }

  /** The transaction loop of `get_data`: the rows and the matched set. */
  method TransactionLoop(store: Store, bts: seq<BankTransaction>, f: Filters)
    returns (rows: seq<Row>, matched: set<VoucherKey>)
    ensures rows == TransactionRows(store, bts, f)
    ensures matched == MatchedKeys(store, bts, f)
  {
    rows := [];
    matched := {};
    var i := 0;
    while i < |bts|
      invariant 0 <= i <= |bts|
      invariant rows == TransactionRows(store, bts[..i], f)
      invariant matched == MatchedKeys(store, bts[..i], f)
    {
      var bt := bts[i];
      var v := MatchedVoucherFor(store, bt, f);
      if v.Some? {
        matched := matched + {VoucherKey(v.value.doctype, v.value.name)};
      }
      rows := rows + [TransactionRow(store, bt, f)];
      TransactionLoopStep(store, bts, f, i);
      i := i + 1;
    }
    assert bts[..i] == bts;
  }

  /** One more transaction adds its row and its match key. */
  lemma TransactionLoopStep(store: Store, bts: seq<BankTransaction>, f: Filters, i: nat)
    requires i < |bts|
    ensures TransactionRows(store, bts[..i + 1], f) == TransactionRows(store, bts[..i], f) + [TransactionRow(store, bts[i], f)]
    ensures MatchedKeys(store, bts[..i + 1], f) == MatchedKeys(store, bts[..i], f) + MatchKeyOf(store, bts[i], f)
  {
    assert bts[..i + 1][..i] == bts[..i];
  }

  /** `get_data`. */
  method GetData(store: Store, f: Filters) returns (data: Option<seq<Row>>)
    ensures data == DataRows(store, f)
  {
    if store.unavailable {
      return None;
    }
    var bts := ListTransactions(store, f);
    var rows, matched := TransactionLoop(store, bts, f);
    var payments := SweepPayments(store, f, matched);
    rows := AppendSweepRows(rows, PaymentEntryDoc, payments);
    var journals := SweepJournals(store, f, matched);
    rows := AppendSweepRows(rows, JournalEntryDoc, journals);
    data := Some(rows);
  }

  /** Every voucher shown beside a transaction is in the matched set. */
  lemma {:induction false} AttachedVouchersAreMatched(store: Store, bts: seq<BankTransaction>, f: Filters, i: nat)
    requires i < |bts| && MatchedVoucherFor(store, bts[i], f).Some?
    ensures var v := MatchedVoucherFor(store, bts[i], f).value;
            VoucherKey(v.doctype, v.name) in MatchedKeys(store, bts, f)
    decreases |bts|
  {
    if i < |bts| - 1 {
      AttachedVouchersAreMatched(store, bts[..|bts| - 1], f, i);
    }
  }

  /** The layout of the report: one row per listed transaction in listing
      order, then one row per unmatched Payment Entry, then one per
      unmatched Journal Entry, each in the sweep's order. */
  lemma DataLayout(store: Store, f: Filters)
    requires !store.unavailable
    ensures var bts := ListedTransactions(store.transactions, f);
            var matched := MatchedKeys(store, bts, f);
            var pes := UnmatchedPayments(store, f, matched);
            var jes := UnmatchedJournals(store, f, matched);
            var rows := DataRows(store, f).value;
            && |rows| == |bts| + |pes| + |jes|
            && (forall i :: 0 <= i < |bts| ==> rows[i] == TransactionRow(store, bts[i], f))
            && (forall k :: 0 <= k < |pes| ==> rows[|bts| + k] == SweepRow(PaymentEntryDoc, pes[k]))
            && (forall k :: 0 <= k < |jes| ==> rows[|bts| + |pes| + k] == SweepRow(JournalEntryDoc, jes[k]))
  {
  }

  /** No voucher appears twice: a voucher shown beside a listed transaction
      is not shown again as an unmatched Payment Entry or Journal Entry. */
  lemma NoVoucherShownTwice(store: Store, f: Filters, i: nat)
    requires !store.unavailable
    requires i < |ListedTransactions(store.transactions, f)|
    ensures var bts := ListedTransactions(store.transactions, f);
            var matched := MatchedKeys(store, bts, f);
            var row := TransactionRow(store, bts[i], f);
            && (row.voucherDoctype == PaymentEntryDoc ==>
                  forall e :: e in UnmatchedPayments(store, f, matched) ==> e.name != row.voucherName)
            && (row.voucherDoctype == JournalEntryDoc ==>
                  forall e :: e in UnmatchedJournals(store, f, matched) ==> e.name != row.voucherName)
  {
    var bts := ListedTransactions(store.transactions, f);
    var matched := MatchedKeys(store, bts, f);
    PaymentSweepIsSound(store, f, matched);
    JournalSweepIsSound(store, f, matched);
    if MatchedVoucherFor(store, bts[i], f).Some? {
      AttachedVouchersAreMatched(store, bts, f, i);
    }
  }

  /** A voucher row never offers a create-voucher button, and a persisted
      link's row offers no reconcile button and shows the matched label. */
  lemma VoucherRowActions(store: Store, bt: BankTransaction, f: Filters)
    requires MatchedVoucherFor(store, bt, f).Some?
    ensures var row := TransactionRow(store, bt, f);
            && row.createPaymentEntry.NoPaymentEntry? && row.createJournalEntry.NoJournalEntry?
            && row.createBankTransaction.NoBankTransaction?
            && (MatchedVoucherFor(store, bt, f).value.isLinked ==>
                  row.reconcile.NoReconcile? && row.status.StatusLabel?)
            && (!MatchedVoucherFor(store, bt, f).value.isLinked ==> row.status.UnmatchedLabel?)
  {
  }

  /** An unmatched voucher's row always offers to create its bank transaction
      when the voucher has a name, and nothing else. */
  lemma SweepRowActions(doctype: string, e: SweepEntry)
    requires doctype == PaymentEntryDoc || doctype == JournalEntryDoc
    ensures var row := SweepRow(doctype, e);
            && row.status.UnmatchedLabel? && row.reconcile.NoReconcile?
            && (row.createBankTransaction.CreateBankTransaction? <==> e.name != "")
            && row.btName == ""
  {
  }
}
