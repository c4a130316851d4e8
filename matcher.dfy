/** The voucher a bank transaction is shown with (`get_matched_voucher_for_bt`):
    its first persisted link when the linked document can be fetched, and
    otherwise the first voucher that meets the exact-match policy. */
module Matcher {
  import opened Records
  import opened Queries

  /** The voucher data the report attaches to a bank-transaction row. */
  datatype MatchedVoucher = MatchedVoucher(
    doctype: string,
    name: string,
    referenceNo: string,
    postingDate: Option<Date>,
    amount: Amount,
    partyType: string,
    party: string,
    isLinked: bool)

  /** The payment type a transaction's direction asks for. */
  function DirectionType(bt: BankTransaction): (r: PaymentType)
    ensures r == Receive <==> bt.deposit > 0.0
    ensures r != InternalTransfer
  {
    if bt.deposit > 0.0 then Receive else Pay
  }

  /** The first persisted link of the bank transaction named `parent`. */
  function FirstLink(links: seq<PaymentLink>, parent: string): (r: Option<PaymentLink>)
    ensures r.Some? ==> r.value in links && r.value.parent == parent
    ensures r.None? ==> forall k :: 0 <= k < |links| ==> links[k].parent != parent
    ensures r.Some? ==> exists i :: 0 <= i < |links| && links[i] == r.value &&
                                    forall k :: 0 <= k < i ==> links[k].parent != parent
  {
    if links == [] then None
    else if links[0].parent == parent then
      assert links[0] == links[0];
      Some(links[0])
    else
      var r := FirstLink(links[1..], parent);
      assert r.Some? ==> exists i :: 0 <= i < |links| && links[i] == r.value &&
                                     forall k :: 0 <= k < i ==> links[k].parent != parent by {
        if r.Some? {
          var i :| 0 <= i < |links[1..]| && links[1..][i] == r.value
                   && forall k :: 0 <= k < i ==> links[1..][k].parent != parent;
          assert links[i + 1] == r.value;
          forall k | 0 <= k < i + 1 ensures links[k].parent != parent {
            if k > 0 { assert links[k] == links[1..][k - 1]; }
          }
        }
      }
      r
  }

  /** A document fetch by name. */
  function FindPayment(ps: seq<PaymentEntry>, name: string): (r: Option<PaymentEntry>)
    ensures r.Some? ==> r.value in ps && r.value.name == name
    ensures r.None? ==> forall k :: 0 <= k < |ps| ==> ps[k].name != name
  {
    if ps == [] then None
    else if ps[0].name == name then Some(ps[0])
    else FindPayment(ps[1..], name)
  }

  function FindJournal(js: seq<JournalEntry>, name: string): (r: Option<JournalEntry>)
    ensures r.Some? ==> r.value in js && r.value.name == name
    ensures r.None? ==> forall k :: 0 <= k < |js| ==> js[k].name != name
  {
    if js == [] then None
    else if js[0].name == name then Some(js[0])
    else FindJournal(js[1..], name)
  }

  /** The voucher data of a persisted link; `None` when the linked document
      cannot be fetched (the source then falls through to the search). */
  function LinkedVoucher(store: Store, l: PaymentLink): (r: Option<MatchedVoucher>)
    ensures r.Some? ==> r.value.isLinked && r.value.doctype == l.document && r.value.name == l.entry
    ensures r.Some? <==> || (l.document == PaymentEntryDoc && FindPayment(store.payments, l.entry).Some?)
                         || (l.document == JournalEntryDoc && FindJournal(store.journals, l.entry).Some?)
                         || (l.document != PaymentEntryDoc && l.document != JournalEntryDoc
                             && VoucherKey(l.document, l.entry) in store.otherVouchers)
    ensures l.document == PaymentEntryDoc && FindPayment(store.payments, l.entry).Some? ==>
              && r.Some?
              && r.value.referenceNo == FindPayment(store.payments, l.entry).value.referenceNo
              && r.value.postingDate == Some(FindPayment(store.payments, l.entry).value.postingDate)
              && r.value.amount == FindPayment(store.payments, l.entry).value.baseAmountAfterTax
              && r.value.partyType == FindPayment(store.payments, l.entry).value.partyType
              && r.value.party == FindPayment(store.payments, l.entry).value.party
    ensures l.document == JournalEntryDoc && FindJournal(store.journals, l.entry).Some? ==>
              && r.Some?
              && r.value.referenceNo == FindJournal(store.journals, l.entry).value.chequeNo
              && r.value.postingDate == Some(FindJournal(store.journals, l.entry).value.postingDate)
              && r.value.amount == 0.0 && r.value.partyType == ""
              && r.value.party == FindJournal(store.journals, l.entry).value.payToRecdFrom
    ensures r.Some? && l.document != PaymentEntryDoc && l.document != JournalEntryDoc ==>
              r.value.referenceNo == "" && r.value.postingDate.None? && r.value.amount == 0.0
  {
    DocTypesDiffer();
    if l.document == PaymentEntryDoc then
      match FindPayment(store.payments, l.entry)
      case None => None
      case Some(p) =>
        Some(MatchedVoucher(PaymentEntryDoc, l.entry, p.referenceNo, Some(p.postingDate),
                            p.baseAmountAfterTax, p.partyType, p.party, true))
    else if l.document == JournalEntryDoc then
      match FindJournal(store.journals, l.entry)
      case None => None
      case Some(j) =>
        Some(MatchedVoucher(JournalEntryDoc, l.entry, j.chequeNo, Some(j.postingDate),
                            0.0, "", j.payToRecdFrom, true))
    else if VoucherKey(l.document, l.entry) in store.otherVouchers then
      Some(MatchedVoucher(l.document, l.entry, "", None, 0.0, "", "", true))
    else None
  }

  /** The Payment Entry query of the reference-number search. */
  function PaymentMatchWhere(bt: BankTransaction, gl: string, f: Filters): PaymentWhere
  {
    PaymentWhere(bt.company, gl, EffectiveFrom(f), EffectiveTo(f), Some(bt.referenceNumber), {DirectionType(bt)})
  }

  /** The Journal Entry query of the reference-number search (also used for candidates). */
  function JournalMatchWhere(bt: BankTransaction, gl: string, f: Filters): JournalWhere
  {
    JournalWhere(bt.company, gl, EffectiveFrom(f), EffectiveTo(f), Some(bt.referenceNumber))
  }

  function PaymentMatch(p: PaymentEntry): MatchedVoucher
  {
    MatchedVoucher(PaymentEntryDoc, p.name, p.referenceNo, Some(p.postingDate), p.baseAmountAfterTax,
                   p.partyType, p.party, false)
  }

  function JournalMatch(j: JournalEntry, gl: string): MatchedVoucher
  {
    MatchedVoucher(JournalEntryDoc, j.name, j.chequeNo, Some(j.postingDate), JournalAmount(j, gl),
                   "", j.payToRecdFrom, false)
  }

  /** The reference-number search: a Payment Entry of the transaction's
      payment type first, kept only when the direction check passes; then,
      for a withdrawal, a Journal Entry. */
  function SearchByReference(store: Store, bt: BankTransaction, gl: string, f: Filters): (r: Option<MatchedVoucher>)
    ensures r.Some? ==> !r.value.isLinked
    ensures r.Some? && r.value.doctype == PaymentEntryDoc ==>
              exists p :: p in store.payments && PaymentAdmits(PaymentMatchWhere(bt, gl, f), p) && r.value == PaymentMatch(p)
    ensures r.Some? && r.value.doctype != PaymentEntryDoc ==>
              && bt.withdrawal > 0.0
              && exists j :: j in store.journals && JournalAdmits(JournalMatchWhere(bt, gl, f), j) && r.value == JournalMatch(j, gl)
    ensures bt.deposit <= 0.0 && bt.withdrawal <= 0.0 ==> r.None?
  {
    DocTypesDiffer();
    var pt := DirectionType(bt);
    var pe := FirstPayment(store.payments, PaymentMatchWhere(bt, gl, f));
    if pe.Some? && ((bt.withdrawal > 0.0 && pt == Pay) || (bt.deposit > 0.0 && pt == Receive)) then
      Some(PaymentMatch(store.payments[pe.value]))
    else if bt.withdrawal > 0.0 then
      match FirstJournal(store.journals, JournalMatchWhere(bt, gl, f))
      case None => None
      case Some(i) => Some(JournalMatch(store.journals[i], gl))
    else None
  }

  /** The store can serve the search for this transaction: it has a
      reference number, the store answers, and its Bank Account exists. */
  predicate Searchable(store: Store, bt: BankTransaction)
  {
    bt.referenceNumber != "" && !store.unavailable
    && FindBankAccount(store.registry.bankAccounts, bt.bankAccount).Some?
  }

  /** The ledger account of the transaction's Bank Account. */
  function GlOf(store: Store, bt: BankTransaction): string
    requires Searchable(store, bt)
  {
    FindBankAccount(store.registry.bankAccounts, bt.bankAccount).value.account
  }

  /** The transaction has a first link whose document can be fetched. */
  predicate HasUsableLink(store: Store, bt: BankTransaction)
  {
    var l := FirstLink(store.links, bt.name);
    l.Some? && LinkedVoucher(store, l.value).Some?
  }

  /** `get_matched_voucher_for_bt`. */
  function MatchedVoucherFor(store: Store, bt: BankTransaction, f: Filters): (r: Option<MatchedVoucher>)
    ensures !Searchable(store, bt) ==> r.None?
    ensures Searchable(store, bt) && HasUsableLink(store, bt) ==>
              r == LinkedVoucher(store, FirstLink(store.links, bt.name).value)
    ensures r.Some? && r.value.isLinked ==>
              var l := FirstLink(store.links, bt.name);
              l.Some? && r.value.doctype == l.value.document && r.value.name == l.value.entry
  {
    if bt.referenceNumber == "" || store.unavailable then None
    else
      match FindBankAccount(store.registry.bankAccounts, bt.bankAccount)
      case None => None
      case Some(ba) =>
        var l := FirstLink(store.links, bt.name);
        var linked := if l.Some? then LinkedVoucher(store, l.value) else None;
        if linked.Some? then linked else SearchByReference(store, bt, ba.account, f)
  }

  /** The exact-match policy for a Payment Entry, stated on its own terms:
      same reference number, company and ledger account, submitted and not
      cleared, posted within the bounds, and a payment type that fits the
      transaction's direction. */
  predicate ExactPaymentMatch(bt: BankTransaction, gl: string, f: Filters, p: PaymentEntry)
  {
    && SqlEq(p.referenceNo, bt.referenceNumber)
    && SqlEq(p.company, bt.company)
    && PaysThrough(p, gl)
    && p.docstatus == 1
    && p.clearanceDate.None?
    && InBounds(p.postingDate, EffectiveFrom(f), EffectiveTo(f))
    && ((bt.deposit > 0.0 && p.paymentType == Receive)
        || (bt.deposit <= 0.0 && bt.withdrawal > 0.0 && p.paymentType == Pay))
  }

  /** The exact-match policy for a Journal Entry: only for a withdrawal. */
  predicate ExactJournalMatch(bt: BankTransaction, gl: string, f: Filters, j: JournalEntry)
  {
    && bt.withdrawal > 0.0
    && SqlEq(j.chequeNo, bt.referenceNumber)
    && SqlEq(j.company, bt.company)
    && HasRowOn(j, gl)
    && j.docstatus == 1
    && j.clearanceDate.None?
    && j.voucherType != "" && j.voucherType != "Opening Entry"
    && InBounds(j.postingDate, EffectiveFrom(f), EffectiveTo(f))
  }

  lemma ExactPaymentIsQueried(bt: BankTransaction, gl: string, f: Filters, p: PaymentEntry)
    ensures ExactPaymentMatch(bt, gl, f, p) <==>
            PaymentAdmits(PaymentMatchWhere(bt, gl, f), p) && (bt.deposit > 0.0 || bt.withdrawal > 0.0)
  {
  }

  /** Without a usable link, the first Payment Entry (in table order) that
      meets the policy is the match. */
  lemma {:induction false} FirstExactPaymentMatches(store: Store, bt: BankTransaction, f: Filters, i: nat)
    requires Searchable(store, bt) && !HasUsableLink(store, bt)
    requires i < |store.payments| && ExactPaymentMatch(bt, GlOf(store, bt), f, store.payments[i])
    requires forall k :: 0 <= k < i ==> !ExactPaymentMatch(bt, GlOf(store, bt), f, store.payments[k])
    ensures MatchedVoucherFor(store, bt, f) == Some(PaymentMatch(store.payments[i]))
  {
    var gl := GlOf(store, bt);
    var w := PaymentMatchWhere(bt, gl, f);
    ExactPaymentIsQueried(bt, gl, f, store.payments[i]);
    var pe := FirstPayment(store.payments, w);
    assert pe.Some?;
    ExactPaymentIsQueried(bt, gl, f, store.payments[pe.value]);
    assert ExactPaymentMatch(bt, gl, f, store.payments[pe.value]);
    assert pe.value == i;
  }

  /** Without a usable link or a matching Payment Entry, a withdrawal is
      matched by the first Journal Entry that meets the policy. */
  lemma {:induction false} FirstExactJournalMatches(store: Store, bt: BankTransaction, f: Filters, i: nat)
    requires Searchable(store, bt) && !HasUsableLink(store, bt)
    requires forall k :: 0 <= k < |store.payments| ==> !ExactPaymentMatch(bt, GlOf(store, bt), f, store.payments[k])
    requires i < |store.journals| && ExactJournalMatch(bt, GlOf(store, bt), f, store.journals[i])
    requires forall k :: 0 <= k < i ==> !ExactJournalMatch(bt, GlOf(store, bt), f, store.journals[k])
    ensures MatchedVoucherFor(store, bt, f) == Some(JournalMatch(store.journals[i], GlOf(store, bt)))
  {
    var gl := GlOf(store, bt);
    var pe := FirstPayment(store.payments, PaymentMatchWhere(bt, gl, f));
    if pe.Some? {
      ExactPaymentIsQueried(bt, gl, f, store.payments[pe.value]);
    }
    var w := JournalMatchWhere(bt, gl, f);
    assert JournalAdmits(w, store.journals[i]);
    var je := FirstJournal(store.journals, w);
    assert je.Some?;
    assert ExactJournalMatch(bt, gl, f, store.journals[je.value]);
    assert je.value == i;
  }

  /** Without a usable link and with no voucher meeting the policy, there is no match. */
  lemma {:induction false} NoExactVoucherNoMatch(store: Store, bt: BankTransaction, f: Filters)
    requires Searchable(store, bt) && !HasUsableLink(store, bt)
    requires forall k :: 0 <= k < |store.payments| ==> !ExactPaymentMatch(bt, GlOf(store, bt), f, store.payments[k])
    requires forall k :: 0 <= k < |store.journals| ==> !ExactJournalMatch(bt, GlOf(store, bt), f, store.journals[k])
    ensures MatchedVoucherFor(store, bt, f).None?
  {
    var gl := GlOf(store, bt);
    var pe := FirstPayment(store.payments, PaymentMatchWhere(bt, gl, f));
    if pe.Some? {
      ExactPaymentIsQueried(bt, gl, f, store.payments[pe.value]);
    }
    var je := FirstJournal(store.journals, JournalMatchWhere(bt, gl, f));
    if je.Some? {
      assert !ExactJournalMatch(bt, gl, f, store.journals[je.value]);
    }
  }

  /** A match that is not a persisted link always meets the exact-match
      policy, and a Journal Entry is chosen only when no Payment Entry does. */
  lemma {:induction false} UnlinkedMatchMeetsPolicy(store: Store, bt: BankTransaction, f: Filters)
    requires MatchedVoucherFor(store, bt, f).Some? && !MatchedVoucherFor(store, bt, f).value.isLinked
    ensures Searchable(store, bt) && !HasUsableLink(store, bt)
    ensures var r := MatchedVoucherFor(store, bt, f).value;
            var gl := GlOf(store, bt);
            || (exists i :: 0 <= i < |store.payments| && ExactPaymentMatch(bt, gl, f, store.payments[i])
                            && r == PaymentMatch(store.payments[i]))
            || (&& (forall k :: 0 <= k < |store.payments| ==> !ExactPaymentMatch(bt, gl, f, store.payments[k]))
                && exists i :: 0 <= i < |store.journals| && ExactJournalMatch(bt, gl, f, store.journals[i])
                               && r == JournalMatch(store.journals[i], gl))
  {
    var gl := GlOf(store, bt);
    var pe := FirstPayment(store.payments, PaymentMatchWhere(bt, gl, f));
    var pt := DirectionType(bt);
    if pe.Some? && ((bt.withdrawal > 0.0 && pt == Pay) || (bt.deposit > 0.0 && pt == Receive)) {
      ExactPaymentIsQueried(bt, gl, f, store.payments[pe.value]);
    } else {
      forall k | 0 <= k < |store.payments| ensures !ExactPaymentMatch(bt, gl, f, store.payments[k]) {
        ExactPaymentIsQueried(bt, gl, f, store.payments[k]);
      }
      var je := FirstJournal(store.journals, JournalMatchWhere(bt, gl, f));
    }
  }
}
