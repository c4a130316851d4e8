/** The store queries of the reconciliation report. Each SQL `WHERE` clause
    is a value of `PaymentWhere` or `JournalWhere`, and `Admits` is the clause
    as a predicate over one record; a query is the filter of its table
    (`SelectPayments`, `SelectJournals`), which keeps the table's order. */
module Queries {
  import opened Records

  /** The Payment Entry clause: company, submitted, no clearance date, paid
      to or from `gl`, posting date in bounds, the reference number equal to
      `reference` (or merely set, when `reference` is `None`), and the payment
      type one of `types`. */
  datatype PaymentWhere = PaymentWhere(
    company: string,
    gl: string,
    from: Option<Date>,
    to: Option<Date>,
    reference: Option<string>,
    types: set<PaymentType>)

  predicate PaysThrough(p: PaymentEntry, gl: string)
  {
    SqlEq(p.paidTo, gl) || SqlEq(p.paidFrom, gl)
  }

  predicate ReferenceAdmits(reference: Option<string>, value: string)
  {
    match reference
    case None => value != ""
    case Some(r) => SqlEq(value, r)
  }

  predicate PaymentAdmits(w: PaymentWhere, p: PaymentEntry)
  {
    && SqlEq(p.company, w.company)
    && p.docstatus == 1
    && p.clearanceDate.None?
    && ReferenceAdmits(w.reference, p.referenceNo)
    && p.paymentType in w.types
    && PaysThrough(p, w.gl)
    && InBounds(p.postingDate, w.from, w.to)
  }

  /** The Journal Entry clause (joined with its accounts rows): company,
      submitted, no clearance date, not an opening entry, the cheque number
      equal to `cheque` (or merely set), a row on `gl`, posting date in bounds. */
  datatype JournalWhere = JournalWhere(
    company: string,
    gl: string,
    from: Option<Date>,
    to: Option<Date>,
    cheque: Option<string>)

  predicate HasRowOn(j: JournalEntry, gl: string)
  {
    exists k :: 0 <= k < |j.accounts| && SqlEq(j.accounts[k].account, gl)
  }

  predicate JournalAdmits(w: JournalWhere, j: JournalEntry)
  {
    && SqlEq(j.company, w.company)
    && j.docstatus == 1
    && j.clearanceDate.None?
    && j.voucherType != "" && j.voucherType != "Opening Entry"
    && ReferenceAdmits(w.cheque, j.chequeNo)
    && HasRowOn(j, w.gl)
    && InBounds(j.postingDate, w.from, w.to)
  }

  function SelectPayments(ps: seq<PaymentEntry>, w: PaymentWhere): (r: seq<PaymentEntry>)
    ensures |r| <= |ps|
    ensures forall p :: p in r <==> p in ps && PaymentAdmits(w, p)
    decreases |ps|
  {
    if ps == [] then []
    else
      var last := ps[|ps| - 1];
      SelectPayments(ps[..|ps| - 1], w) + (if PaymentAdmits(w, last) then [last] else [])
  }

  function SelectJournals(js: seq<JournalEntry>, w: JournalWhere): (r: seq<JournalEntry>)
    ensures |r| <= |js|
    ensures forall j :: j in r <==> j in js && JournalAdmits(w, j)
    decreases |js|
  {
    if js == [] then []
    else
      var last := js[|js| - 1];
      SelectJournals(js[..|js| - 1], w) + (if JournalAdmits(w, last) then [last] else [])
  }

  /** `LIMIT 1` without an order: the position of the first admitted record of the table. */
  function FirstPayment(ps: seq<PaymentEntry>, w: PaymentWhere): (r: Option<nat>)
    ensures r.Some? ==> r.value < |ps| && PaymentAdmits(w, ps[r.value])
                        && forall k :: 0 <= k < r.value ==> !PaymentAdmits(w, ps[k])
    ensures r.None? ==> forall k :: 0 <= k < |ps| ==> !PaymentAdmits(w, ps[k])
  {
    if ps == [] then None
    else if PaymentAdmits(w, ps[0]) then Some(0)
    else
      match FirstPayment(ps[1..], w)
      case None => None
      case Some(i) => Some(i + 1)
  }

  function FirstJournal(js: seq<JournalEntry>, w: JournalWhere): (r: Option<nat>)
    ensures r.Some? ==> r.value < |js| && JournalAdmits(w, js[r.value])
                        && forall k :: 0 <= k < r.value ==> !JournalAdmits(w, js[k])
    ensures r.None? ==> forall k :: 0 <= k < |js| ==> !JournalAdmits(w, js[k])
  {
    if js == [] then None
    else if JournalAdmits(w, js[0]) then Some(0)
    else
      match FirstJournal(js[1..], w)
      case None => None
      case Some(i) => Some(i + 1)
  }

  /** The table order the vouchers' queries ask for: posting date descending. */
  ghost predicate PaymentsNewestFirst(ps: seq<PaymentEntry>)
  {
    forall i, j :: 0 <= i < j < |ps| ==> ps[i].postingDate >= ps[j].postingDate
  }

  ghost predicate JournalsNewestFirst(js: seq<JournalEntry>)
  {
    forall i, j :: 0 <= i < j < |js| ==> js[i].postingDate >= js[j].postingDate
  }

  lemma {:induction false} SelectKeepsPaymentOrder(ps: seq<PaymentEntry>, w: PaymentWhere)
    requires PaymentsNewestFirst(ps)
    ensures PaymentsNewestFirst(SelectPayments(ps, w))
    decreases |ps|
  {
    if ps != [] {
      var init := ps[..|ps| - 1];
      var last := ps[|ps| - 1];
      SelectKeepsPaymentOrder(init, w);
      var s := SelectPayments(init, w);
      forall p | p in s ensures p.postingDate >= last.postingDate {
        var k :| 0 <= k < |init| && init[k] == p;
      }
    }
  }

  lemma {:induction false} SelectKeepsJournalOrder(js: seq<JournalEntry>, w: JournalWhere)
    requires JournalsNewestFirst(js)
    ensures JournalsNewestFirst(SelectJournals(js, w))
    decreases |js|
  {
    if js != [] {
      var init := js[..|js| - 1];
      var last := js[|js| - 1];
      SelectKeepsJournalOrder(init, w);
      var s := SelectJournals(init, w);
      forall j | j in s ensures j.postingDate >= last.postingDate {
        var k :| 0 <= k < |init| && init[k] == j;
      }
    }
  }

  /** `SUM(jea.debit_in_account_currency - jea.credit_in_account_currency)`
      over the accounts rows on `gl` (the rows the join keeps). */
  function NetOn(rows: seq<JournalAccount>, gl: string): Amount
    decreases |rows|
  {
    if rows == [] then 0.0
    else
      var last := rows[|rows| - 1];
      NetOn(rows[..|rows| - 1], gl) + (if SqlEq(last.account, gl) then last.debit - last.credit else 0.0)
  }

  function Abs(x: Amount): (r: Amount)
    ensures r >= 0.0 && (r == x || r == -x)
  {
    if x < 0.0 then -x else x
  }

  /** The amount the report shows for a Journal Entry: `abs(SUM(...))`. */
  function JournalAmount(j: JournalEntry, gl: string): (r: Amount)
    ensures r >= 0.0
  {
    Abs(NetOn(j.accounts, gl))
  }

  /** Byte-wise lexical order on strings (the aggregate's collation is not modelled). */
  predicate LexLess(a: string, b: string)
    decreases |a|
  {
    if a == [] then b != []
    else if b == [] then false
    else if a[0] != b[0] then a[0] < b[0]
    else LexLess(a[1..], b[1..])
  }

  lemma {:induction false} LexLessIrreflexive(a: string)
    ensures !LexLess(a, a)
    decreases |a|
  {
    if a != [] {
      LexLessIrreflexive(a[1..]);
    }
  }

  lemma {:induction false} LexLessTransitive(a: string, b: string, c: string)
    requires LexLess(a, b) && LexLess(b, c)
    ensures LexLess(a, c)
    decreases |a|
  {
    if a != [] && a[0] == b[0] && b[0] == c[0] {
      LexLessTransitive(a[1..], b[1..], c[1..]);
    }
  }

  /** `MAX(jea.party_type)` over the accounts rows on `gl`; unset values are
      the least, so "" when no row on `gl` has a party type. */
  function MaxPartyType(rows: seq<JournalAccount>, gl: string): (r: string)
    ensures r == "" || exists k :: 0 <= k < |rows| && SqlEq(rows[k].account, gl) && rows[k].partyType == r
    ensures forall k :: 0 <= k < |rows| && SqlEq(rows[k].account, gl) ==> !LexLess(r, rows[k].partyType)
    decreases |rows|
  {
    if rows == [] then ""
    else
      var last := rows[|rows| - 1];
      var rest := MaxPartyType(rows[..|rows| - 1], gl);
      assert rest == "" || exists k :: 0 <= k < |rows| - 1 && SqlEq(rows[k].account, gl) && rows[k].partyType == rest by {
        if rest != "" {
          var k :| 0 <= k < |rows| - 1 && SqlEq(rows[..|rows| - 1][k].account, gl) && rows[..|rows| - 1][k].partyType == rest;
        }
      }
      assert forall k :: 0 <= k < |rows| - 1 ==> rows[..|rows| - 1][k] == rows[k];
      if SqlEq(last.account, gl) && LexLess(rest, last.partyType) then
        LexLessIrreflexive(last.partyType);
        assert forall k :: 0 <= k < |rows| - 1 && SqlEq(rows[k].account, gl) ==> !LexLess(last.partyType, rows[k].partyType) by {
          forall k | 0 <= k < |rows| - 1 && SqlEq(rows[k].account, gl) && LexLess(last.partyType, rows[k].partyType)
            ensures false
          {
            LexLessTransitive(rest, last.partyType, rows[k].partyType);
          }
        }
        last.partyType
      else rest
  }
}
