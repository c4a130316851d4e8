/** The closing-balance summary of the report (`get_account_balance`,
    `get_report_summary`). The ledger figures come from accounting functions
    outside this model (the balance on a date, the uncleared entries and the
    amounts not reflected in the system); they are inputs here. */
module Summary {
  import opened Records
  import opened Queries

  /** One uncleared ledger entry of the bank account. */
  datatype LedgerEntry = LedgerEntry(debit: Amount, credit: Amount)

  /** The results of the external ledger functions for an account and a date. */
  datatype LedgerInputs = LedgerInputs(balanceOn: Amount, entries: seq<LedgerEntry>, notReflected: Amount)

  function TotalDebit(es: seq<LedgerEntry>): Amount
    decreases |es|
  {
    if es == [] then 0.0 else TotalDebit(es[..|es| - 1]) + es[|es| - 1].debit
  }

  function TotalCredit(es: seq<LedgerEntry>): Amount
    decreases |es|
  {
    if es == [] then 0.0 else TotalCredit(es[..|es| - 1]) + es[|es| - 1].credit
  }

  /** The net effect of entries on the ledger balance, entry by entry. */
  function NetDebit(es: seq<LedgerEntry>): Amount
    decreases |es|
  {
    if es == [] then 0.0 else es[0].debit - es[0].credit + NetDebit(es[1..])
  }

  /** The cleared balance: the ledger balance less the uncleared debits, plus
      the uncleared credits and the amounts not reflected; 0 when the Bank
      Account has no ledger account. */
  function ClearedBalance(reg: Registry, bankAccount: string, ledger: LedgerInputs): (r: Amount)
    ensures GlAccountOf(reg, bankAccount) == "" ==> r == 0.0
    ensures GlAccountOf(reg, bankAccount) != "" ==> r == ledger.balanceOn - NetDebit(ledger.entries) + ledger.notReflected
  {
    if GlAccountOf(reg, bankAccount) == "" then 0.0
    else
      TotalsAreNetDebit(ledger.entries);
      ledger.balanceOn - TotalDebit(ledger.entries) + TotalCredit(ledger.entries) + ledger.notReflected
  }

  /** `get_account_balance`: the totals are accumulated in a loop. */
  method AccountBalance(reg: Registry, bankAccount: string, ledger: LedgerInputs) returns (balance: Amount)
    ensures balance == ClearedBalance(reg, bankAccount, ledger)
  {
    var account := GlAccountOf(reg, bankAccount);
    if account == "" {
      return 0.0;
    }
    var totalDebit, totalCredit := 0.0, 0.0;
    var i := 0;
    while i < |ledger.entries|
      invariant 0 <= i <= |ledger.entries|
      invariant totalDebit == TotalDebit(ledger.entries[..i])
      invariant totalCredit == TotalCredit(ledger.entries[..i])
    {
      totalDebit := totalDebit + ledger.entries[i].debit;
      totalCredit := totalCredit + ledger.entries[i].credit;
      assert ledger.entries[..i + 1][..i] == ledger.entries[..i];
      i := i + 1;
    }
    assert ledger.entries[..i] == ledger.entries;
    balance := ledger.balanceOn - totalDebit + totalCredit + ledger.notReflected;
  }

  lemma {:induction false} NetDebitOfAppend(es: seq<LedgerEntry>, e: LedgerEntry)
    ensures NetDebit(es + [e]) == NetDebit(es) + e.debit - e.credit
    decreases |es|
  {
    if es != [] {
      assert (es + [e])[1..] == es[1..] + [e];
      NetDebitOfAppend(es[1..], e);
    }
  }

  lemma {:induction false} TotalsAreNetDebit(es: seq<LedgerEntry>)
    ensures TotalDebit(es) - TotalCredit(es) == NetDebit(es)
    decreases |es|
  {
    if es != [] {
      var init := es[..|es| - 1];
      TotalsAreNetDebit(init);
      assert es == init + [es[|es| - 1]];
      NetDebitOfAppend(init, es[|es| - 1]);
    }
  }

  /** An uncleared entry that debits and credits equally leaves the cleared
      balance as it is. */
  lemma BalancedEntryKeepsClearedBalance(reg: Registry, bankAccount: string, ledger: LedgerInputs, e: LedgerEntry)
    requires e.debit == e.credit
    ensures ClearedBalance(reg, bankAccount, ledger.(entries := ledger.entries + [e])) == ClearedBalance(reg, bankAccount, ledger)
  {
    NetDebitOfAppend(ledger.entries, e);
  }

  datatype Indicator = Blue | Orange | Green | Red

  datatype SummaryLabel = ErpClosingBalance | StatementClosingBalance | Difference

  datatype SummaryEntry = SummaryEntry(value: Amount, title: SummaryLabel, indicator: Indicator, currency: string)

  /** The largest difference the summary shows as agreeing. */
  const Tolerance: real := 0.01

  /** `get_report_summary`. `ledger` holds the external figures at the
      statement's to-date. */
  function ReportSummary(reg: Registry, f: Filters, ledger: LedgerInputs): (r: seq<SummaryEntry>)
    ensures r == [] <==> f.bankAccount == "" || f.company == "" || GlAccountOf(reg, f.bankAccount) == ""
    ensures r != [] ==>
              && |r| == 3
              && r[0].title == ErpClosingBalance && r[0].indicator == Blue
              && r[1].title == StatementClosingBalance && r[1].indicator == Orange
              && r[1].value == f.statementClosingBalance
              && r[2].title == Difference
              && r[2].value == Abs(r[1].value - r[0].value)
              && (r[2].indicator == Green <==> r[2].value < Tolerance)
              && (r[2].indicator == Red <==> r[2].value >= Tolerance)
              && r[0].currency == r[1].currency == r[2].currency
    ensures r != [] && EffectiveTo(f).None? ==> r[0].value == 0.0
    ensures r != [] && EffectiveTo(f).Some? ==> r[0].value == ClearedBalance(reg, f.bankAccount, ledger)
    ensures r != [] ==>
              var account := GlAccountOf(reg, f.bankAccount);
              r[0].currency == (if Lookup(reg.accountCurrency, account) != "" then Lookup(reg.accountCurrency, account)
                                else Lookup(reg.companyCurrency, f.company))
  {
    if f.bankAccount == "" || f.company == "" then []
    else
      var account := GlAccountOf(reg, f.bankAccount);
      if account == "" then []
      else
        var accountCurrency := Lookup(reg.accountCurrency, account);
        var currency := if accountCurrency != "" then accountCurrency else Lookup(reg.companyCurrency, f.company);
        var statement := f.statementClosingBalance;
        var erp := if EffectiveTo(f).Some? then ClearedBalance(reg, f.bankAccount, ledger) else 0.0;
        var difference := Abs(statement - erp);
        [ SummaryEntry(erp, ErpClosingBalance, Blue, currency),
          SummaryEntry(statement, StatementClosingBalance, Orange, currency),
          SummaryEntry(difference, Difference, if difference < Tolerance then Green else Red, currency) ]
  }

  /** The difference is green exactly when the statement and the cleared
      balance agree to within the tolerance, in either direction. */
  lemma GreenMeansAgreement(reg: Registry, f: Filters, ledger: LedgerInputs)
    requires ReportSummary(reg, f, ledger) != []
    ensures var r := ReportSummary(reg, f, ledger);
            r[2].indicator == Green <==>
              -Tolerance < f.statementClosingBalance - r[0].value < Tolerance
  {
  }
}
