/** The candidate vouchers of one bank transaction (`get_unmatched_vouchers`):
    Payment Entries with the transaction's reference number and payment type
    (or an internal transfer), then Journal Entries with that cheque number,
    leaving out the vouchers already linked to the transaction, at most ten. */
module Candidates {
  import opened Records
  import opened Queries
  import opened Matcher

  datatype Candidate = Candidate(
    doctype: string,
    name: string,
    referenceNo: string,
    postingDate: Date,
    amount: Amount,
    party: string)

  /** The most candidates the search returns. */
  const CandidateLimit: nat := 10

  /** A party shown with its party type in parentheses, when it has one. */
  function PartyLabel(party: string, partyType: string): string
  {
    party + (if partyType != "" then " (" + partyType + ")" else "")
  }

  function PaymentCandidate(p: PaymentEntry): Candidate
  {
    Candidate(PaymentEntryDoc, p.name, p.referenceNo, p.postingDate, p.baseAmountAfterTax,
              PartyLabel(p.party, p.partyType))
  }

  function JournalCandidate(j: JournalEntry, gl: string): Candidate
  {
    Candidate(JournalEntryDoc, j.name, j.chequeNo, j.postingDate, JournalAmount(j, gl), j.payToRecdFrom)
  }

  function KeyOf(c: Candidate): VoucherKey
  {
    VoucherKey(c.doctype, c.name)
  }

  /** The keys of the links whose parent is the transaction. */
  function LinkedKeys(links: seq<PaymentLink>, parent: string): (r: set<VoucherKey>)
    ensures forall key :: key in r <==>
              exists i :: 0 <= i < |links| && links[i].parent == parent
                          && key == VoucherKey(links[i].document, links[i].entry)
    decreases |links|
  {
    if links == [] then {}
    else
      var last := links[|links| - 1];
      var rest := LinkedKeys(links[..|links| - 1], parent);
      assert forall i :: 0 <= i < |links| - 1 ==> links[..|links| - 1][i] == links[i];
      rest + (if last.parent == parent then {VoucherKey(last.document, last.entry)} else {})
  }

  /** The Payment Entry query of the candidate search: the transaction's
      payment type or an internal transfer. */
  function CandidateWhere(bt: BankTransaction, gl: string, f: Filters): PaymentWhere
  {
    PaymentWhere(bt.company, gl, EffectiveFrom(f), EffectiveTo(f), Some(bt.referenceNumber),
                 {DirectionType(bt), InternalTransfer})
  }

  /** The candidates of the selected Payment Entries that are not linked. */
  function UnlinkedPayments(ps: seq<PaymentEntry>, linked: set<VoucherKey>): (r: seq<Candidate>)
    ensures forall c :: c in r ==> exists p :: p in ps && c == PaymentCandidate(p) && KeyOf(c) !in linked
    ensures forall p :: p in ps && VoucherKey(PaymentEntryDoc, p.name) !in linked ==> PaymentCandidate(p) in r
    decreases |ps|
  {
    if ps == [] then []
    else
      var last := ps[|ps| - 1];
      var rest := UnlinkedPayments(ps[..|ps| - 1], linked);
      assert forall p :: p in ps ==> p in ps[..|ps| - 1] || p == last;
      rest + (if VoucherKey(PaymentEntryDoc, last.name) !in linked then [PaymentCandidate(last)] else [])
  }

  /** The candidates of the selected Journal Entries that are not linked. */
  function UnlinkedJournals(js: seq<JournalEntry>, linked: set<VoucherKey>, gl: string): (r: seq<Candidate>)
    ensures forall c :: c in r ==> exists j :: j in js && c == JournalCandidate(j, gl) && KeyOf(c) !in linked
    ensures forall j :: j in js && VoucherKey(JournalEntryDoc, j.name) !in linked ==> JournalCandidate(j, gl) in r
    decreases |js|
  {
    if js == [] then []
    else
      var last := js[|js| - 1];
      var rest := UnlinkedJournals(js[..|js| - 1], linked, gl);
      assert forall j :: j in js ==> j in js[..|js| - 1] || j == last;
      rest + (if VoucherKey(JournalEntryDoc, last.name) !in linked then [JournalCandidate(last, gl)] else [])
  }

  /** Every candidate before the cut to ten: payments, then journals. */
  function AllCandidates(store: Store, bt: BankTransaction, f: Filters): seq<Candidate>
    requires Searchable(store, bt)
  {
    var gl := GlOf(store, bt);
    var linked := LinkedKeys(store.links, bt.name);
    UnlinkedPayments(SelectPayments(store.payments, CandidateWhere(bt, gl, f)), linked)
      + UnlinkedJournals(SelectJournals(store.journals, JournalMatchWhere(bt, gl, f)), linked, gl)
  }

  /** `vouchers[:n]`. */
  function Truncate(s: seq<Candidate>, n: nat): (r: seq<Candidate>)
    ensures |r| <= n && r <= s
    ensures |s| <= n ==> r == s
    ensures |s| > n ==> |r| == n
  {
    if |s| <= n then s else s[..n]
  }

  /** What `get_unmatched_vouchers` returns. */
  function CandidatesFor(store: Store, bt: BankTransaction, f: Filters): (r: seq<Candidate>)
    ensures |r| <= CandidateLimit
    ensures bt.referenceNumber == "" || store.unavailable ==> r == []
    ensures Searchable(store, bt) ==> r <= AllCandidates(store, bt, f)
    ensures Searchable(store, bt) ==>
              |r| == (if |AllCandidates(store, bt, f)| <= CandidateLimit then |AllCandidates(store, bt, f)| else CandidateLimit)
  {
    if !Searchable(store, bt) then [] else Truncate(AllCandidates(store, bt, f), CandidateLimit)
  }

  /** The loop collecting the keys of the transaction's links. */
  method CollectLinkedKeys(links: seq<PaymentLink>, parent: string) returns (linked: set<VoucherKey>)
    ensures linked == LinkedKeys(links, parent)
  {
    linked := {};
    var i := 0;
    while i < |links|
      invariant 0 <= i <= |links|
      invariant linked == LinkedKeys(links[..i], parent)
    {
      var l := links[i];
      if l.parent == parent {
        linked := linked + {VoucherKey(l.document, l.entry)};
      }
      assert links[..i + 1][..i] == links[..i];
      i := i + 1;
    }
    assert links[..i] == links;
  }

  /** The loop appending the unlinked Payment Entries. */
  method AppendUnlinkedPayments(payments: seq<PaymentEntry>, linked: set<VoucherKey>) returns (vouchers: seq<Candidate>)
    ensures vouchers == UnlinkedPayments(payments, linked)
  {
    vouchers := [];
    var i := 0;
    while i < |payments|
      invariant 0 <= i <= |payments|
      invariant vouchers == UnlinkedPayments(payments[..i], linked)
    {
      var p := payments[i];
      if VoucherKey(PaymentEntryDoc, p.name) !in linked {
        vouchers := vouchers + [PaymentCandidate(p)];
      }
      assert payments[..i + 1][..i] == payments[..i];
      i := i + 1;
    }
    assert payments[..i] == payments;
  }

  /** The loop appending the unlinked Journal Entries. */
  method AppendUnlinkedJournals(journals: seq<JournalEntry>, linked: set<VoucherKey>, gl: string)
    returns (vouchers: seq<Candidate>)
    ensures vouchers == UnlinkedJournals(journals, linked, gl)
  {
    vouchers := [];
    var i := 0;
    while i < |journals|
      invariant 0 <= i <= |journals|
      invariant vouchers == UnlinkedJournals(journals[..i], linked, gl)
    {
      var j := journals[i];
      if VoucherKey(JournalEntryDoc, j.name) !in linked {
        vouchers := vouchers + [JournalCandidate(j, gl)];
      }
      assert journals[..i + 1][..i] == journals[..i];
      i := i + 1;
    }
    assert journals[..i] == journals;
  }

  /** `get_unmatched_vouchers`: collect the linked keys, append the unlinked
      Payment Entries and then the unlinked Journal Entries, cut to ten. */
  method UnmatchedVouchers(store: Store, bt: BankTransaction, f: Filters) returns (vouchers: seq<Candidate>)
    ensures vouchers == CandidatesFor(store, bt, f)
  {
    vouchers := [];
    if bt.referenceNumber == "" {
      return;
    }
    var account := FindBankAccount(store.registry.bankAccounts, bt.bankAccount);
    if store.unavailable || account.None? {
      return [];
    }
    var gl := account.value.account;
    var linked := CollectLinkedKeys(store.links, bt.name);
    var fromPayments := AppendUnlinkedPayments(SelectPayments(store.payments, CandidateWhere(bt, gl, f)), linked);
    var fromJournals := AppendUnlinkedJournals(SelectJournals(store.journals, JournalMatchWhere(bt, gl, f)), linked, gl);
    vouchers := fromPayments + fromJournals;
    assert vouchers == AllCandidates(store, bt, f);
    if |vouchers| > CandidateLimit {
      vouchers := vouchers[..CandidateLimit];
    }
  }

  /** No candidate is a voucher already linked to the transaction. */
  lemma {:induction false} CandidatesAreNotLinked(store: Store, bt: BankTransaction, f: Filters)
    ensures forall c :: c in CandidatesFor(store, bt, f) ==> KeyOf(c) !in LinkedKeys(store.links, bt.name)
  {
    if Searchable(store, bt) {
      var all := AllCandidates(store, bt, f);
      forall c | c in CandidatesFor(store, bt, f) ensures KeyOf(c) !in LinkedKeys(store.links, bt.name) {
        assert c in all;
      }
    }
  }

  /** Every Payment Entry candidate comes before every Journal Entry candidate. */
  lemma {:induction false} PaymentsBeforeJournals(store: Store, bt: BankTransaction, f: Filters)
    ensures var r := CandidatesFor(store, bt, f);
            forall i, j :: 0 <= i < j < |r| && r[j].doctype == PaymentEntryDoc ==> r[i].doctype == PaymentEntryDoc
  {
    DocTypesDiffer();
    if Searchable(store, bt) {
      var gl := GlOf(store, bt);
      var linked := LinkedKeys(store.links, bt.name);
      var ps := UnlinkedPayments(SelectPayments(store.payments, CandidateWhere(bt, gl, f)), linked);
      var js := UnlinkedJournals(SelectJournals(store.journals, JournalMatchWhere(bt, gl, f)), linked, gl);
      var all := ps + js;
      var r := CandidatesFor(store, bt, f);
      assert forall c :: c in js ==> c.doctype == JournalEntryDoc;
      forall i, j | 0 <= i < j < |r| && r[j].doctype == PaymentEntryDoc ensures r[i].doctype == PaymentEntryDoc {
        assert r[j] == all[j] && r[i] == all[i];
        assert all[i] in ps;
      }
    }
  }

  /** Each candidate is a voucher of the store that the candidate query admits:
      a Payment Entry with the same reference number whose type is the
      transaction's or an internal transfer, or a Journal Entry with that
      cheque number; the two queries also require company, ledger account,
      no clearance date and the date bounds. */
  lemma {:induction false} CandidatesMeetQuery(store: Store, bt: BankTransaction, f: Filters)
    requires Searchable(store, bt)
    ensures var gl := GlOf(store, bt);
            forall c :: c in CandidatesFor(store, bt, f) ==>
              || (exists p :: p in store.payments && PaymentAdmits(CandidateWhere(bt, gl, f), p) && c == PaymentCandidate(p))
              || (exists j :: j in store.journals && JournalAdmits(JournalMatchWhere(bt, gl, f), j) && c == JournalCandidate(j, gl))
  {
    var gl := GlOf(store, bt);
    var linked := LinkedKeys(store.links, bt.name);
    var sp := SelectPayments(store.payments, CandidateWhere(bt, gl, f));
    var sj := SelectJournals(store.journals, JournalMatchWhere(bt, gl, f));
    forall c | c in CandidatesFor(store, bt, f)
      ensures || (exists p :: p in store.payments && PaymentAdmits(CandidateWhere(bt, gl, f), p) && c == PaymentCandidate(p))
              || (exists j :: j in store.journals && JournalAdmits(JournalMatchWhere(bt, gl, f), j) && c == JournalCandidate(j, gl))
    {
      assert c in UnlinkedPayments(sp, linked) + UnlinkedJournals(sj, linked, gl);
    }
  }

  /** Every unlinked Payment Entry the query admits, internal transfers
      included, is found before the cut, and is a candidate when the search
      is not cut. */
  lemma {:induction false} UncutSearchIsComplete(store: Store, bt: BankTransaction, f: Filters, p: PaymentEntry)
    requires Searchable(store, bt)
    requires p in store.payments && PaymentAdmits(CandidateWhere(bt, GlOf(store, bt), f), p)
    requires VoucherKey(PaymentEntryDoc, p.name) !in LinkedKeys(store.links, bt.name)
    ensures PaymentCandidate(p) in AllCandidates(store, bt, f)
    ensures |AllCandidates(store, bt, f)| <= CandidateLimit ==> PaymentCandidate(p) in CandidatesFor(store, bt, f)
  {
    var gl := GlOf(store, bt);
    var sp := SelectPayments(store.payments, CandidateWhere(bt, gl, f));
    assert p in sp;
    assert PaymentCandidate(p) in UnlinkedPayments(sp, LinkedKeys(store.links, bt.name));
  }

  /** The same for Journal Entries: every unlinked Journal Entry the query
      admits, whatever the transaction's direction, is found before the cut,
      and is a candidate when the search is not cut. */
  lemma {:induction false} UncutJournalSearchIsComplete(store: Store, bt: BankTransaction, f: Filters, j: JournalEntry)
    requires Searchable(store, bt)
    requires j in store.journals && JournalAdmits(JournalMatchWhere(bt, GlOf(store, bt), f), j)
    requires VoucherKey(JournalEntryDoc, j.name) !in LinkedKeys(store.links, bt.name)
    ensures JournalCandidate(j, GlOf(store, bt)) in AllCandidates(store, bt, f)
    ensures |AllCandidates(store, bt, f)| <= CandidateLimit ==> JournalCandidate(j, GlOf(store, bt)) in CandidatesFor(store, bt, f)
  {
    var gl := GlOf(store, bt);
    var sj := SelectJournals(store.journals, JournalMatchWhere(bt, gl, f));
    assert j in sj;
    assert JournalCandidate(j, gl) in UnlinkedJournals(sj, LinkedKeys(store.links, bt.name), gl);
  }

  lemma InternalTransferIsAdmitted(bt: BankTransaction, gl: string, f: Filters, p: PaymentEntry)
    requires p.paymentType == InternalTransfer
    ensures PaymentAdmits(CandidateWhere(bt, gl, f), p) <==>
            && SqlEq(p.referenceNo, bt.referenceNumber) && SqlEq(p.company, bt.company)
            && p.docstatus == 1 && p.clearanceDate.None? && PaysThrough(p, gl)
            && InBounds(p.postingDate, EffectiveFrom(f), EffectiveTo(f))
  {
  }
}
