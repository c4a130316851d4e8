/** The Bulk Bank Transaction document (`BulkBankTransaction.validate`,
    `create_bank_transactions`): a table of statement lines from which draft
    bank transactions are inserted row by row. Each created transaction's
    name is written back into its row, failing rows are reported with their
    1-based index, and rows that already carry a transaction are skipped. */
module Bulk {
  import opened Records

  /** One row of the bank transactions table; "" is an unset string. */
  datatype TableRow = TableRow(
    date: Option<Date>,
    deposit: Amount,
    withdrawal: Amount,
    referenceNumber: string,
    description: string,
    bankTransaction: string)

  /** A draft Bank Transaction as the batch inserts it. */
  datatype NewBankTransaction = NewBankTransaction(
    date: Date,
    bankAccount: string,
    company: string,
    deposit: Amount,
    withdrawal: Amount,
    currency: string,
    description: string,
    referenceNumber: string,
    createdFrom: string)

  /** The reasons `validate` refuses the document. */
  datatype ValidationError =
    | BankAccountRequired
    | TableEmpty
    | DateRequiredForAll
    | AmountRequiredOn(date: Date)

  datatype Validation = Valid | Invalid(error: ValidationError)

  /** A row error of the batch, with the row's 1-based index. */
  datatype RowError =
    | DateRequired(idx: nat)
    | AmountRequired(idx: nat)
    | InsertFailed(idx: nat, message: string)

  /** The reasons the batch stops before its loop. */
  datatype BatchFailure =
    | NoBankAccount
    | NoRows
    | CompanyNotFound(bankAccount: string)
    | CurrencyNotFound(bankAccount: string)
    | SaveRefused(error: ValidationError)

  /** The batch's result: `{created, errors}`, or the error it raises. */
  datatype BatchOutcome = Created(created: nat, errors: seq<RowError>) | Failed(failure: BatchFailure)

  predicate NoAmount(row: TableRow)
  {
    row.deposit == 0.0 && row.withdrawal == 0.0
  }

  predicate RowIsValid(row: TableRow)
  {
    row.date.Some? && !NoAmount(row)
  }

  /** What `validate` decides: the first violation in document order. */
  function ValidationOf(bankAccount: string, rows: seq<TableRow>): (r: Validation)
    ensures r == Valid <==> bankAccount != "" && rows != [] && forall i :: 0 <= i < |rows| ==> RowIsValid(rows[i])
  {
    if bankAccount == "" then Invalid(BankAccountRequired)
    else if rows == [] then Invalid(TableEmpty)
    else RowsValidation(rows)
  }

  function RowsValidation(rows: seq<TableRow>): (r: Validation)
    ensures r == Valid <==> forall i :: 0 <= i < |rows| ==> RowIsValid(rows[i])
    ensures r.Invalid? ==> r.error == DateRequiredForAll || r.error.AmountRequiredOn?
  {
    if rows == [] then Valid
    else if rows[0].date.None? then Invalid(DateRequiredForAll)
    else if NoAmount(rows[0]) then Invalid(AmountRequiredOn(rows[0].date.value))
    else
      var r := RowsValidation(rows[1..]);
      assert forall i :: 0 < i < |rows| ==> rows[i] == rows[1..][i - 1];
      r
  }

  /** The first invalid row decides the error: a missing date, or else the
      missing amounts with that row's date. */
  lemma {:induction false} FirstInvalidRowDecides(rows: seq<TableRow>, k: nat)
    requires k < |rows| && !RowIsValid(rows[k])
    requires forall i :: 0 <= i < k ==> RowIsValid(rows[i])
    ensures rows[k].date.None? ==> RowsValidation(rows) == Invalid(DateRequiredForAll)
    ensures rows[k].date.Some? ==> RowsValidation(rows) == Invalid(AmountRequiredOn(rows[k].date.value))
    decreases k
  {
    if k > 0 {
      assert RowIsValid(rows[0]);
      assert forall i :: 0 <= i < k - 1 ==> rows[1..][i] == rows[i + 1];
      FirstInvalidRowDecides(rows[1..], k - 1);
    }
  }

  /** Decimal digits of a number. */
  function Digits(n: nat): (r: string)
    ensures r != []
    decreases n
  {
    var d := ['0', '1', '2', '3', '4', '5', '6', '7', '8', '9'][n % 10];
    if n < 10 then [d] else Digits(n / 10) + [d]
  }

  /** The name the store gives its `n`-th inserted document of a naming series. */
  function DocumentName(series: string, n: nat): (r: string)
    ensures r != ""
  {
    series + "-" + Digits(n)
  }

  /** The Bank Transaction table of the store. An insert either succeeds
      and is given the next name of the naming series, or is refused with
      the message `refusal` gives (refusal is "" for an accepted record). */
  class TransactionStore {
    var inserted: seq<NewBankTransaction>
    const series: string
    const refusal: NewBankTransaction -> string

    constructor (series: string, refusal: NewBankTransaction -> string)
      ensures this.series == series && this.refusal == refusal && inserted == []
    {
      this.series := series;
      this.refusal := refusal;
      inserted := [];
    }

    method Insert(t: NewBankTransaction) returns (name: string, message: string)
      modifies this
      ensures message == refusal(t)
      ensures message == "" ==> name == DocumentName(series, |old(inserted)|) && inserted == old(inserted) + [t]
      ensures message != "" ==> name == "" && inserted == old(inserted)
    {
      message := refusal(t);
      if message == "" {
        name := DocumentName(series, |inserted|);
        inserted := inserted + [t];
      } else {
        name := "";
      }
    }
  }

  /** The values every created transaction shares. */
  datatype Settings = Settings(parent: string, bankAccount: string, company: string, currency: string)

  function NewTransactionFor(row: TableRow, s: Settings): NewBankTransaction
    requires row.date.Some?
  {
    NewBankTransaction(row.date.value, s.bankAccount, s.company, row.deposit, row.withdrawal, s.currency,
                       row.description, row.referenceNumber, s.parent)
  }

  /** What the loop depends on besides the table: the shared values, the
      store's refusals and naming series, and `base`, the number of
      transactions the store held before the batch. */
  datatype Batch = Batch(settings: Settings, refusal: NewBankTransaction -> string, series: string, base: nat)

  /** The state of the batch after a prefix of the table. */
  datatype Progress = Progress(rows: seq<TableRow>, created: nat, errors: seq<RowError>, inserted: seq<NewBankTransaction>)

  /** What the loop may do to one row: a row that already has a transaction
      is left as it is; any other row is left as it is or given a name. */
  predicate RowOutcome(before: TableRow, after: TableRow)
  {
    && (before.bankTransaction != "" ==> after == before)
    && (after == before
        || (before.bankTransaction == "" && after.bankTransaction != ""
            && after == before.(bankTransaction := after.bankTransaction)))
  }

  /** One iteration of the loop on the row with 1-based index `idx`; `base`
      is the number of transactions the store held before the batch. The
      row is appended to the table so far, as it is or with the name of its
      new transaction; at most one error (with `idx`) or one insert is added. */
  function Step(p: Progress, idx: nat, row: TableRow, c: Batch): (r: Progress)
    ensures |r.rows| == |p.rows| + 1 && r.rows[..|p.rows|] == p.rows
    ensures RowOutcome(row, r.rows[|p.rows|])
    ensures r.rows[|p.rows|].bankTransaction != "" && row.bankTransaction == "" ==>
              && RowIsValid(row) && r.errors == p.errors && r.created == p.created + 1
              && r.inserted == p.inserted + [NewTransactionFor(row, c.settings)]
              && r.rows[|p.rows|].bankTransaction == DocumentName(c.series, c.base + |p.inserted|)
    ensures r.rows[|p.rows|].bankTransaction == "" || row.bankTransaction != "" ==>
              r.created == p.created && r.inserted == p.inserted
    ensures row.bankTransaction == "" && r.rows[|p.rows|].bankTransaction == "" ==>
              |r.errors| == |p.errors| + 1 && r.errors[..|p.errors|] == p.errors && r.errors[|p.errors|].idx == idx
    ensures row.bankTransaction != "" || r.rows[|p.rows|].bankTransaction != "" ==> r.errors == p.errors
    ensures row.bankTransaction == "" && row.date.None? ==> r.errors == p.errors + [DateRequired(idx)]
    ensures row.bankTransaction == "" && row.date.Some? && NoAmount(row) ==> r.errors == p.errors + [AmountRequired(idx)]
    ensures row.bankTransaction == "" && RowIsValid(row) && r.rows[|p.rows|].bankTransaction == "" ==>
              r.errors == p.errors + [InsertFailed(idx, c.refusal(NewTransactionFor(row, c.settings)))]
  {
    if row.bankTransaction != "" then p.(rows := p.rows + [row])
    else if row.date.None? then p.(rows := p.rows + [row], errors := p.errors + [DateRequired(idx)])
    else if NoAmount(row) then p.(rows := p.rows + [row], errors := p.errors + [AmountRequired(idx)])
    else
      var t := NewTransactionFor(row, c.settings);
      if c.refusal(t) != "" then p.(rows := p.rows + [row], errors := p.errors + [InsertFailed(idx, c.refusal(t))])
      else
        var name := DocumentName(c.series, c.base + |p.inserted|);
        Progress(p.rows + [row.(bankTransaction := name)], p.created + 1, p.errors, p.inserted + [t])
  }

  /** The loop of `create_bank_transactions` over the whole table. */
  function Process(rows: seq<TableRow>, c: Batch)
    : (r: Progress)
    ensures |r.rows| == |rows| && |r.inserted| == r.created
    decreases |rows|
  {
    if rows == [] then Progress([], 0, [], [])
    else Step(Process(rows[..|rows| - 1], c), |rows|, rows[|rows| - 1], c)
  }

  /** The loop keeps the table's length, changes a row only by naming its
      new transaction, and inserts one transaction per creation. */
  lemma {:induction false} ProcessShape(rows: seq<TableRow>, c: Batch)
    ensures forall i :: 0 <= i < |rows| ==> RowOutcome(rows[i], Process(rows, c).rows[i])
    decreases |rows|
  {
    if rows != [] {
      var n := |rows| - 1;
      var q := Process(rows[..n], c);
      var p := Process(rows, c);
      ProcessShape(rows[..n], c);
      forall i | 0 <= i < n ensures RowOutcome(rows[i], p.rows[i]) {
        assert rows[..n][i] == rows[i];
        assert p.rows[..n][i] == p.rows[i];
      }
    }
  }

  /** The number of rows that had no transaction before and have one after. */
  function NewlyLinked(before: seq<TableRow>, after: seq<TableRow>): nat
    requires |before| == |after|
    decreases |before|
  {
    if before == [] then 0
    else
      var n := |before| - 1;
      NewlyLinked(before[..n], after[..n]) + (if before[n].bankTransaction == "" && after[n].bankTransaction != "" then 1 else 0)
  }

  /** `created_count` is the number of rows newly given a transaction. */
  lemma {:induction false} CreatedCountsNewLinks(rows: seq<TableRow>, c: Batch)
    ensures Process(rows, c).created == NewlyLinked(rows, Process(rows, c).rows)
    decreases |rows|
  {
    if rows != [] {
      var n := |rows| - 1;
      var q := Process(rows[..n], c);
      var p := Process(rows, c);
      CreatedCountsNewLinks(rows[..n], c);
      assert p.rows[..n] == q.rows;
    }
  }

  predicate HasErrorAt(errors: seq<RowError>, idx: nat)
  {
    exists k :: 0 <= k < |errors| && errors[k].idx == idx
  }

  /** The error indices are in row order, between 1 and the table's length. */
  lemma {:induction false} ErrorIndicesInOrder(rows: seq<TableRow>, c: Batch)
    ensures && (forall k :: 0 <= k < |Process(rows, c).errors| ==> 1 <= Process(rows, c).errors[k].idx <= |rows|)
            && (forall a, b :: 0 <= a < b < |Process(rows, c).errors| ==> Process(rows, c).errors[a].idx < Process(rows, c).errors[b].idx)
    decreases |rows|
  {
    if rows != [] {
      var n := |rows| - 1;
      var q := Process(rows[..n], c);
      var p := Process(rows, c);
      ErrorIndicesInOrder(rows[..n], c);
      assert |rows[..n]| == n;
      assert forall k :: 0 <= k < |q.errors| ==> 1 <= q.errors[k].idx <= |rows[..n]|;
      assert forall k :: 0 <= k < |q.errors| ==> 1 <= q.errors[k].idx <= n;
      if rows[n].bankTransaction == "" && p.rows[n].bankTransaction == "" {
        assert p.errors == q.errors + [p.errors[|q.errors|]];
        assert p.errors[|q.errors|].idx == n + 1;
      } else {
        assert p.errors == q.errors;
      }
    }
  }

  /** Appending at most one error with index `idx` to errors whose indices
      are all below `idx` changes no other index's membership. */
  lemma ErrorsAfterStep(q: seq<RowError>, p: seq<RowError>, idx: nat, e: RowError)
    requires forall k :: 0 <= k < |q| ==> q[k].idx < idx
    requires p == q || (|p| == |q| + 1 && p[..|q|] == q && p[|q|].idx == idx)
    ensures e.idx != idx ==> (e in p <==> e in q)
    ensures e.idx == idx ==> (e in p <==> |p| == |q| + 1 && p[|q|] == e)
  {
    if p != q {
      assert p == q + [p[|q|]];
    }
  }

  /** A row has an error exactly when it had no transaction and was given none. */
  lemma {:induction false} ErrorsMarkUnlinkedRows(rows: seq<TableRow>, c: Batch)
    ensures forall i :: 0 <= i < |rows| ==>
              (HasErrorAt(Process(rows, c).errors, i + 1) <==> rows[i].bankTransaction == "" && Process(rows, c).rows[i].bankTransaction == "")
    decreases |rows|
  {
    if rows != [] {
      var n := |rows| - 1;
      var q := Process(rows[..n], c);
      var p := Process(rows, c);
      ErrorsMarkUnlinkedRows(rows[..n], c);
      ErrorIndicesInOrder(rows[..n], c);
      forall i | 0 <= i < |rows|
        ensures HasErrorAt(p.errors, i + 1) <==> rows[i].bankTransaction == "" && p.rows[i].bankTransaction == ""
      {
        if HasErrorAt(p.errors, i + 1) {
          var k :| 0 <= k < |p.errors| && p.errors[k].idx == i + 1;
          ErrorsAfterStep(q.errors, p.errors, n + 1, p.errors[k]);
        }
        if i < n {
          assert rows[..n][i] == rows[i];
          assert p.rows[..n][i] == p.rows[i];
          if HasErrorAt(q.errors, i + 1) {
            var k :| 0 <= k < |q.errors| && q.errors[k].idx == i + 1;
            ErrorsAfterStep(q.errors, p.errors, n + 1, q.errors[k]);
          }
        } else if rows[n].bankTransaction == "" && p.rows[n].bankTransaction == "" {
          assert p.errors[|q.errors|].idx == n + 1;
        }
      }
    }
  }

  /** A row without a transaction and without a date is reported with
      `DateRequired` and its index, and no other row is. */
  lemma {:induction false} DateErrorsByRow(rows: seq<TableRow>, c: Batch, i: nat)
    requires i < |rows|
    ensures DateRequired(i + 1) in Process(rows, c).errors <==>
              rows[i].bankTransaction == "" && rows[i].date.None?
    decreases |rows|
  {
    var n := |rows| - 1;
    var q := Process(rows[..n], c);
    var p := Process(rows, c);
    ErrorIndicesInOrder(rows[..n], c);
    assert forall k :: 0 <= k < |q.errors| ==> q.errors[k].idx <= n;
    ErrorsAfterStep(q.errors, p.errors, n + 1, DateRequired(i + 1));
    if i < n {
      DateErrorsByRow(rows[..n], c, i);
      assert rows[..n][i] == rows[i];
    }
  }

  /** A row without a transaction, with a date and with both amounts zero is
      reported with `AmountRequired` and its index, and no other row is. */
  lemma {:induction false} AmountErrorsByRow(rows: seq<TableRow>, c: Batch, i: nat)
    requires i < |rows|
    ensures AmountRequired(i + 1) in Process(rows, c).errors <==>
              rows[i].bankTransaction == "" && rows[i].date.Some? && NoAmount(rows[i])
    decreases |rows|
  {
    var n := |rows| - 1;
    var q := Process(rows[..n], c);
    var p := Process(rows, c);
    ErrorIndicesInOrder(rows[..n], c);
    assert forall k :: 0 <= k < |q.errors| ==> q.errors[k].idx <= n;
    ErrorsAfterStep(q.errors, p.errors, n + 1, AmountRequired(i + 1));
    if i < n {
      AmountErrorsByRow(rows[..n], c, i);
      assert rows[..n][i] == rows[i];
    }
  }

  /** Each new transaction copies its row's date, amounts, reference number
      and description with the batch's bank account, company, currency and
      parent, and its name is the one written into the row. */
  lemma {:induction false} CreatedRowsAreCopied(rows: seq<TableRow>, c: Batch, i: nat)
    requires i < |rows|
    requires rows[i].bankTransaction == "" && Process(rows, c).rows[i].bankTransaction != ""
    ensures RowIsValid(rows[i])
    ensures exists k :: && 0 <= k < |Process(rows, c).inserted| && Process(rows, c).inserted[k] == NewTransactionFor(rows[i], c.settings)
                        && Process(rows, c).rows[i].bankTransaction == DocumentName(c.series, c.base + k)
    decreases |rows|
  {
    var n := |rows| - 1;
    var q := Process(rows[..n], c);
    var p := Process(rows, c);
    if i < n {
      assert p.rows[..n][i] == p.rows[i] && rows[..n][i] == rows[i];
      CreatedRowsAreCopied(rows[..n], c, i);
      var k :| && 0 <= k < |q.inserted| && q.inserted[k] == NewTransactionFor(rows[i], c.settings)
               && q.rows[i].bankTransaction == DocumentName(c.series, c.base + k);
      assert p.inserted[k] == q.inserted[k];
    } else {
      assert p.inserted[|q.inserted|] == NewTransactionFor(rows[i], c.settings);
    }
  }

  /** A table that passes `validate` gets no date or amount errors: only
      refused inserts are reported. */
  lemma ValidTableOnlyInsertFailures(rows: seq<TableRow>, c: Batch)
    requires RowsValidation(rows) == Valid
    ensures forall e :: e in Process(rows, c).errors ==> e.InsertFailed?
  {
    var p := Process(rows, c);
    ErrorIndicesInOrder(rows, c);
    forall e | e in p.errors ensures e.InsertFailed? {
      var k :| 0 <= k < |p.errors| && p.errors[k] == e;
      var i := e.idx - 1;
      assert RowIsValid(rows[i]);
      DateErrorsByRow(rows, c, i);
      AmountErrorsByRow(rows, c, i);
    }
  }

  /** A table whose rows all carry a transaction is left as it is, with
      nothing created and no error. */
  lemma {:induction false} LinkedTableIsUntouched(rows: seq<TableRow>, c: Batch)
    requires forall i :: 0 <= i < |rows| ==> rows[i].bankTransaction != ""
    ensures Process(rows, c) == Progress(rows, 0, [], [])
    decreases |rows|
  {
    if rows != [] {
      var n := |rows| - 1;
      var q := Process(rows[..n], c);
      LinkedTableIsUntouched(rows[..n], c);
      assert q.rows + [rows[n]] == rows;
    }
  }

  /** A run without errors links every row, so running the batch again
      creates nothing. */
  lemma RerunCreatesNothing(rows: seq<TableRow>, c: Batch, base': nat)
    requires Process(rows, c).errors == []
    ensures Process(Process(rows, c).rows, c.(base := base')) == Progress(Process(rows, c).rows, 0, [], [])
  {
    var p := Process(rows, c);
    ErrorsMarkUnlinkedRows(rows, c);
    ProcessShape(rows, c);
    forall i | 0 <= i < |p.rows| ensures p.rows[i].bankTransaction != "" {
      assert !HasErrorAt(p.errors, i + 1);
    }
    LinkedTableIsUntouched(p.rows, c.(base := base'));
  }

  /** The company of the batch: the document's own, or its Bank Account's. */
  function ResolveCompany(reg: Registry, company: string, bankAccount: string): (r: string)
    ensures company != "" ==> r == company
    ensures company == "" && FindBankAccount(reg.bankAccounts, bankAccount).Some? ==>
              r == FindBankAccount(reg.bankAccounts, bankAccount).value.company
    ensures company == "" && FindBankAccount(reg.bankAccounts, bankAccount).None? ==> r == ""
  {
    if company != "" then company
    else
      var b := FindBankAccount(reg.bankAccounts, bankAccount);
      if b.Some? then b.value.company else ""
  }

  /** The currency of the batch: the ledger account's, or the company's default. */
  function ResolveCurrency(reg: Registry, bankAccount: string, company: string): (r: string)
    ensures GlAccountOf(reg, bankAccount) != "" && Lookup(reg.accountCurrency, GlAccountOf(reg, bankAccount)) != "" ==>
              r == Lookup(reg.accountCurrency, GlAccountOf(reg, bankAccount))
    ensures GlAccountOf(reg, bankAccount) == "" || Lookup(reg.accountCurrency, GlAccountOf(reg, bankAccount)) == "" ==>
              r == Lookup(reg.companyCurrency, company)
  {
    var account := GlAccountOf(reg, bankAccount);
    var currency := if account != "" then Lookup(reg.accountCurrency, account) else "";
    if currency != "" then currency else Lookup(reg.companyCurrency, company)
  }

  /** The failure that stops the batch before its loop, if any. */
  function BatchFailureOf(reg: Registry, bankAccount: string, company: string, rows: seq<TableRow>): (r: Option<BatchFailure>)
    ensures r == Some(NoBankAccount) <==> bankAccount == ""
    ensures r == Some(NoRows) <==> bankAccount != "" && rows == []
    ensures r.None? <==> && bankAccount != "" && rows != []
                         && ResolveCompany(reg, company, bankAccount) != ""
                         && ResolveCurrency(reg, bankAccount, ResolveCompany(reg, company, bankAccount)) != ""
    ensures r == Some(CompanyNotFound(bankAccount)) <==>
              bankAccount != "" && rows != [] && ResolveCompany(reg, company, bankAccount) == ""
    ensures r == Some(CurrencyNotFound(bankAccount)) <==>
              && bankAccount != "" && rows != [] && ResolveCompany(reg, company, bankAccount) != ""
              && ResolveCurrency(reg, bankAccount, ResolveCompany(reg, company, bankAccount)) == ""
    ensures r.Some? ==> !r.value.SaveRefused?
  {
    if bankAccount == "" then Some(NoBankAccount)
    else if rows == [] then Some(NoRows)
    else
      var c := ResolveCompany(reg, company, bankAccount);
      if c == "" then Some(CompanyNotFound(bankAccount))
      else if ResolveCurrency(reg, bankAccount, c) == "" then Some(CurrencyNotFound(bankAccount))
      else None
  }

  function SettingsOf(reg: Registry, parent: string, bankAccount: string, company: string): Settings
  {
    var c := ResolveCompany(reg, company, bankAccount);
    Settings(parent, bankAccount, c, ResolveCurrency(reg, bankAccount, c))
  }

  /** One iteration of the batch loop on the row with 1-based index `idx`. */
  method ProcessRow(ghost p: Progress, idx: nat, row: TableRow, s: Settings, store: TransactionStore,
                    created: nat, errors: seq<RowError>, ghost before: seq<NewBankTransaction>, ghost c: Batch)
    returns (newRow: TableRow, created': nat, errors': seq<RowError>)
    requires created == p.created && errors == p.errors
    requires c == Batch(s, store.refusal, store.series, |before|) && store.inserted == before + p.inserted
    modifies store
    ensures var q := Step(p, idx, row, c);
            && q.rows == p.rows + [newRow] && created' == q.created && errors' == q.errors
            && store.inserted == before + q.inserted
  {
    newRow, created', errors' := row, created, errors;
    if row.bankTransaction != "" {
    } else if row.date.None? {
      errors' := errors + [DateRequired(idx)];
    } else if NoAmount(row) {
      errors' := errors + [AmountRequired(idx)];
    } else {
      var t := NewTransactionFor(row, s);
      var btName, message := store.Insert(t);
      if message != "" {
        errors' := errors + [InsertFailed(idx, message)];
      } else {
        newRow := row.(bankTransaction := btName);
        created' := created + 1;
      }
    }
  }

  lemma ProcessUnfolds(table: seq<TableRow>, i: nat, c: Batch)
    requires i < |table|
    ensures Process(table[..i + 1], c) == Step(Process(table[..i], c), i + 1, table[i], c)
  {
    assert table[..i + 1][..i] == table[..i];
  }

  lemma ReplaceHead(done: seq<TableRow>, row: TableRow, rest: seq<TableRow>)
    requires rest != []
    ensures (done + rest)[|done| := row] == done + [row] + rest[1..]
  {
  }

  /** The loop of `create_bank_transactions` over the table, writing each
      new transaction's name into its row. */
  method RunBatch(table: seq<TableRow>, s: Settings, store: TransactionStore)
    returns (rows: seq<TableRow>, created: nat, errors: seq<RowError>)
    modifies store
    ensures var p := Process(table, Batch(s, store.refusal, store.series, |old(store.inserted)|));
            && rows == p.rows && created == p.created && errors == p.errors
            && store.inserted == old(store.inserted) + p.inserted
  {
    rows := table;
    ghost var before := store.inserted;
    ghost var c := Batch(s, store.refusal, store.series, |before|);
    created := 0;
    errors := [];
    var i := 0;
    while i < |rows|
      invariant |rows| == |table| && 0 <= i <= |table|
      invariant c == Batch(s, store.refusal, store.series, |before|) && before == old(store.inserted)
      invariant rows == Process(table[..i], c).rows + table[i..]
      invariant created == Process(table[..i], c).created && errors == Process(table[..i], c).errors
      invariant store.inserted == before + Process(table[..i], c).inserted
    {
      ghost var p := Process(table[..i], c);
      ProcessUnfolds(table, i, c);
      assert rows[i] == table[i];
      var newRow;
      newRow, created, errors := ProcessRow(p, i + 1, rows[i], s, store, created, errors, before, c);
      ReplaceHead(p.rows, newRow, table[i..]);
      rows := rows[i := newRow];
      i := i + 1;
    }
    assert table[..i] == table;
  }

  /** The fields of the document that the store keeps. */
  datatype Snapshot = Snapshot(bankAccount: string, company: string, rows: seq<TableRow>)

  /** A document that `validate` lets the store save. */
  predicate Saveable(d: Snapshot)
  {
    ValidationOf(d.bankAccount, d.rows) == Valid
  }

  /** The loop only names rows, so a table that passed `validate` still
      passes it afterwards. */
  lemma ProcessKeepsValidity(rows: seq<TableRow>, c: Batch)
    requires RowsValidation(rows) == Valid
    ensures RowsValidation(Process(rows, c).rows) == Valid
  {
    ProcessShape(rows, c);
  }

  /** What stops `create_bank_transactions` before its loop, for the document
      `d` it works on: a new document is saved first, which runs `validate`;
      then the checks of the batch itself. */
  function StartFailure(reg: Registry, isNew: bool, d: Snapshot): (r: Option<BatchFailure>)
    ensures isNew && !Saveable(d) ==> r == Some(SaveRefused(ValidationOf(d.bankAccount, d.rows).error))
    ensures Saveable(d) ==> r == BatchFailureOf(reg, d.bankAccount, d.company, d.rows)
    ensures Saveable(d) ==> r.None? || r.value.CompanyNotFound? || r.value.CurrencyNotFound?
  {
    if isNew && !Saveable(d) then Some(SaveRefused(ValidationOf(d.bankAccount, d.rows).error))
    else BatchFailureOf(reg, d.bankAccount, d.company, d.rows)
  }

  /** The Bulk Bank Transaction document: the fields in hand and the
      document as last saved (`None` while it is new). */
  class BulkBankTransaction {
    const name: string
    var bankAccount: string
    var company: string
    var rows: seq<TableRow>
    var saved: Option<Snapshot>

    /** Every saved state of the document passed `validate`. */
    predicate SavedIsValid()
      reads this
    {
      saved.Some? ==> Saveable(saved.value)
    }

    function Current(): Snapshot
      reads this
    {
      Snapshot(bankAccount, company, rows)
    }

    /** The document after `is_new`-save and `reload`: the one in hand when
        it is new, otherwise the saved one. */
    function Reloaded(): Snapshot
      reads this
    {
      if saved.None? then Current() else saved.value
    }

    constructor (name: string, bankAccount: string, company: string, rows: seq<TableRow>)
      ensures this.name == name && Current() == Snapshot(bankAccount, company, rows)
      ensures saved.None? && SavedIsValid()
    {
      this.name := name;
      this.bankAccount := bankAccount;
      this.company := company;
      this.rows := rows;
      saved := None;
    }

    /** `validate`: the first violation, in the order the document is checked. */
    method Validate() returns (outcome: Validation)
      ensures outcome == ValidationOf(bankAccount, rows)
    {
      if bankAccount == "" {
        return Invalid(BankAccountRequired);
      }
      if rows == [] {
        return Invalid(TableEmpty);
      }
      var i := 0;
      while i < |rows|
        invariant 0 <= i <= |rows|
        invariant forall k :: 0 <= k < i ==> RowIsValid(rows[k])
      {
        if rows[i].date.None? || NoAmount(rows[i]) {
          FirstInvalidRowDecides(rows, i);
          return if rows[i].date.None? then Invalid(DateRequiredForAll) else Invalid(AmountRequiredOn(rows[i].date.value));
        }
        i := i + 1;
      }
      outcome := Valid;
    }

    /** `save`: the document is kept only when `validate` passes. */
    method Save() returns (refused: Option<ValidationError>)
      requires SavedIsValid()
      modifies this
      ensures SavedIsValid() && Current() == old(Current())
      ensures ValidationOf(bankAccount, rows) == Valid ==> refused.None? && saved == Some(Current())
      ensures ValidationOf(bankAccount, rows).Invalid? ==>
                refused == Some(ValidationOf(bankAccount, rows).error) && saved == old(saved)
    {
      var outcome := Validate();
      if outcome.Invalid? {
        return Some(outcome.error);
      }
      saved := Some(Current());
      refused := None;
    }

    /** `reload`: the fields in hand become the saved ones. */
    method Reload()
      requires saved.Some?
      modifies this
      ensures Current() == old(saved.value) && saved == old(saved)
    {
      bankAccount := saved.value.bankAccount;
      company := saved.value.company;
      rows := saved.value.rows;
    }

    /** `create_bank_transactions`. An error it raises ends the request, and
        the store then rolls back what the request wrote. */
    method CreateBankTransactions(reg: Registry, store: TransactionStore) returns (outcome: BatchOutcome)
      requires SavedIsValid()
      modifies this, store
      ensures SavedIsValid()
      ensures var d := old(Reloaded());
              var failure := StartFailure(reg, old(saved).None?, d);
              failure.Some? ==> && outcome == Failed(failure.value) && Current() == d
                                && saved == old(saved) && store.inserted == old(store.inserted)
      ensures var d := old(Reloaded());
              var p := Process(d.rows, Batch(SettingsOf(reg, name, d.bankAccount, d.company), store.refusal,
                                             store.series, |old(store.inserted)|));
              StartFailure(reg, old(saved).None?, d).None? ==>
                && outcome == Created(p.created, p.errors)
                && Current() == d.(rows := p.rows)
                && store.inserted == old(store.inserted) + p.inserted
                && saved == Some(if p.created > 0 then d.(rows := p.rows) else d)
    {
      var before := saved;
      if saved.None? {
        var refused := Save();
        if refused.Some? {
          return Failed(SaveRefused(refused.value));
        }
      }
      Reload();
      var failure := BatchFailureOf(reg, bankAccount, company, rows);
      if failure.Some? {
        saved := before;
        return Failed(failure.value);
      }
      var s := SettingsOf(reg, name, bankAccount, company);
      var newRows, created, errors := RunBatch(rows, s, store);
      ghost var c := Batch(s, store.refusal, store.series, |old(store.inserted)|);
      ProcessKeepsValidity(saved.value.rows, c);
      rows := newRows;
      if created > 0 {
        var refused := Save();
      }
      outcome := Created(created, errors);
    }
  }
}
