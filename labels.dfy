/** The status label and the action buttons of a report row
    (`get_status_emoji` and the four `get_*_button` helpers). A label is its
    family (unmatched, or a status with a glyph) plus its row-number marker;
    a button is absent or present with the attributes it would carry. The
    exact markup and symbols are not modelled. */
module Labels {
  import opened Records

  /** The row-number marker: a keycap symbol for 1 to 10, `"n."` otherwise. */
  datatype Marker = Keycap(n: int) | Numbered(n: int)

  /** The glyph between the marker and the status name: a checkmark, an
      hourglass, or none. */
  datatype Glyph = Check | NoGlyph | Hourglass

  datatype Label =
    | UnmatchedLabel
    | StatusLabel(marker: Marker, glyph: Glyph, shown: Status)

  function MarkerFor(rowNumber: int): (r: Marker)
    ensures r.n == rowNumber
    ensures r.Keycap? <==> 1 <= rowNumber <= 10
  {
    if 1 <= rowNumber <= 10 then Keycap(rowNumber) else Numbered(rowNumber)
  }

  /** The status name shown: an unset status is shown as Unreconciled. */
  function ShownStatus(status: Status): (r: Status)
    ensures r != Blank
    ensures status != Blank ==> r == status
  {
    if status == Blank then Unreconciled else status
  }

  /** `get_status_emoji`. */
  function StatusEmoji(status: Status, unallocated: Amount, hasVoucher: bool, isMatched: bool, rowNumber: int): (r: Label)
    ensures r.UnmatchedLabel? <==> hasVoucher && !isMatched
    ensures r.StatusLabel? ==> r.marker == MarkerFor(rowNumber) && r.shown == ShownStatus(status)
    ensures r.StatusLabel? ==> (r.glyph == Check <==> status == Reconciled || unallocated == 0.0)
    ensures r.StatusLabel? && hasVoucher ==> r.glyph != Hourglass
    ensures r.StatusLabel? && !hasVoucher ==>
              (r.glyph == NoGlyph <==> status == Unreconciled && unallocated > 0.0)
  {
    var marker := MarkerFor(rowNumber);
    var shown := ShownStatus(status);
    if hasVoucher && isMatched then
      if status == Reconciled || unallocated == 0.0 then StatusLabel(marker, Check, shown)
      else StatusLabel(marker, NoGlyph, shown)
    else if hasVoucher then UnmatchedLabel
    else if status == Reconciled || unallocated == 0.0 then StatusLabel(marker, Check, shown)
    else if status == Unreconciled && unallocated > 0.0 then StatusLabel(marker, NoGlyph, shown)
    else StatusLabel(marker, Hourglass, shown)
  }

  /** The reconcile button: for the transaction alone, or with the voucher to reconcile against. */
  datatype ReconcileAction =
    | NoReconcile
    | ReconcileTransaction(bt: string)
    | ReconcileWithVoucher(bt: string, voucher: string, doctype: string)

  /** `get_reconcile_button`; an omitted voucher or doctype is "", an omitted status `None`. */
  function ReconcileButton(bt: string, unallocated: Amount, voucher: string, doctype: string, status: Option<Status>)
    : (r: ReconcileAction)
    ensures r.NoReconcile? <==> status == Some(Reconciled) || (unallocated <= 0.0 && voucher == "")
    ensures r.ReconcileWithVoucher? <==> !r.NoReconcile? && voucher != "" && doctype != ""
    ensures r.ReconcileWithVoucher? ==> r == ReconcileWithVoucher(bt, voucher, doctype)
    ensures r.ReconcileTransaction? ==> r.bt == bt
  {
    if status == Some(Reconciled) then NoReconcile
    else if unallocated <= 0.0 && voucher == "" then NoReconcile
    else if voucher != "" && doctype != "" then ReconcileWithVoucher(bt, voucher, doctype)
    else ReconcileTransaction(bt)
  }

  /** The create-Payment-Entry button, with the optional reference number and date. */
  datatype PaymentEntryAction =
    | NoPaymentEntry
    | CreatePaymentEntry(bt: string, partyType: string, party: string, reference: Option<string>, date: Option<Date>)

  /** `get_create_pe_button`; an omitted voucher type is "". */
  function CreatePaymentEntryButton(
      bt: string, unallocated: Amount, partyType: string, party: string,
      reference: string, date: Option<Date>, hasVoucher: bool, voucherType: string)
    : (r: PaymentEntryAction)
    ensures r.NoPaymentEntry? <==>
              || voucherType == PaymentEntryDoc
              || (hasVoucher && voucherType == "")
              || unallocated <= 0.0
              || partyType == "" || party == ""
    ensures r.CreatePaymentEntry? ==>
              && r.bt == bt && r.partyType == partyType && r.party == party && r.date == date
              && (r.reference.Some? <==> reference != "")
              && (r.reference.Some? ==> r.reference.value == reference)
  {
    if voucherType == PaymentEntryDoc then NoPaymentEntry
    else if hasVoucher && voucherType == "" then NoPaymentEntry
    else if unallocated <= 0.0 then NoPaymentEntry
    else if partyType == "" || party == "" then NoPaymentEntry
    else CreatePaymentEntry(bt, partyType, party, if reference != "" then Some(reference) else None, date)
  }

  datatype JournalEntryAction = NoJournalEntry | CreateJournalEntry(bt: string)

  /** `get_create_je_button`; an omitted voucher type is "". */
  function CreateJournalEntryButton(bt: string, unallocated: Amount, hasVoucher: bool, voucherType: string)
    : (r: JournalEntryAction)
    ensures r.NoJournalEntry? <==>
              voucherType == JournalEntryDoc || (hasVoucher && voucherType == "") || unallocated <= 0.0
    ensures r.CreateJournalEntry? ==> r.bt == bt
  {
    if voucherType == JournalEntryDoc then NoJournalEntry
    else if hasVoucher && voucherType == "" then NoJournalEntry
    else if unallocated <= 0.0 then NoJournalEntry
    else CreateJournalEntry(bt)
  }

  datatype BankTransactionAction = NoBankTransaction | CreateBankTransaction(doctype: string, voucher: string)

  /** `get_create_bt_button`. */
  function CreateBankTransactionButton(doctype: string, voucher: string, hasBt: bool): (r: BankTransactionAction)
    ensures r.NoBankTransaction? <==> hasBt || doctype == "" || voucher == ""
    ensures r.CreateBankTransaction? ==> r == CreateBankTransaction(doctype, voucher)
  {
    if hasBt then NoBankTransaction
    else if doctype == "" || voucher == "" then NoBankTransaction
    else CreateBankTransaction(doctype, voucher)
  }

  /** A voucher of either supported type never offers to create a voucher of
      its own type, and offers the other type's button exactly when the
      amount and party conditions allow it. */
  lemma VoucherTypeBlocksOnlyItsOwnButton(bt: string, unallocated: Amount, partyType: string, party: string,
                                          reference: string, date: Option<Date>)
    ensures CreatePaymentEntryButton(bt, unallocated, partyType, party, reference, date, true, PaymentEntryDoc).NoPaymentEntry?
    ensures CreateJournalEntryButton(bt, unallocated, true, JournalEntryDoc).NoJournalEntry?
    ensures CreateJournalEntryButton(bt, unallocated, true, PaymentEntryDoc)
              == CreateJournalEntryButton(bt, unallocated, false, "")
    ensures CreatePaymentEntryButton(bt, unallocated, partyType, party, reference, date, true, JournalEntryDoc)
              == CreatePaymentEntryButton(bt, unallocated, partyType, party, reference, date, false, "")
  {
    DocTypesDiffer();
  }
}
