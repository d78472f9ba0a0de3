/** Properties of the trial balance: one entry per account of the tenant's
    chart, each holding that account's own Approved totals; entries sorted
    by code; column totals that match the lines posted to the chart; and
    equal columns whenever every visible voucher is balanced. */
module TrialBalanceProofs {
  import opened Results
  import opened Enums
  import opened Entities
  import opened Postings
  import opened Sorting
  import opened Text
  import opened Reporting

  /** The Approved lines of one account, dated on or before `asOfDate` */
  function AccountAsOfQuery(accountId: int, asOfDate: int, tenantId: int): Query {
    Query(tenantId, Some(accountId), None, Some(asOfDate), None)
  }

  /** `e` is the row of account `a`: its identity columns copied from the
      account, and its totals those of the account's own lines */
  ghost predicate IsEntryFor(e: TrialBalanceEntry, a: Account, vs: seq<Voucher>, asOfDate: int, tenantId: int) {
    var ps := Select(AllPostings(vs), AccountAsOfQuery(a.id, asOfDate, tenantId));
    && e.accountId == a.id
    && e.code == a.code
    && e.name == a.name
    && e.accountLevel == a.level
    && e.isControlAccount == a.isControlAccount
    && e.debitTotal == Total(ps, DebitSide)
    && e.creditTotal == Total(ps, CreditSide)
    && e.netBalance == Net(ps)
  }

  lemma TrialEntryIsEntryFor(a: Account, vs: seq<Voucher>, asOfDate: int, tenantId: int)
    ensures IsEntryFor(TrialEntry(a, Select(AllPostings(vs), AsOfQuery(asOfDate, tenantId))), a, vs, asOfDate, tenantId)
  {
    var q := AsOfQuery(asOfDate, tenantId);
    assert q.(accountId := Some(a.id)) == AccountAsOfQuery(a.id, asOfDate, tenantId);
    AccountTotalIsSelectTotal(AllPostings(vs), q, a.id, DebitSide);
    AccountTotalIsSelectTotal(AllPostings(vs), q, a.id, CreditSide);
  }

  /** Every account of the tenant (active or not, leaf or control) gets
      exactly one row */
  lemma TrialBalanceCoversChart(db: Db, asOfDate: int, tenantId: int)
    ensures
      var r := GetTrialBalance(db, asOfDate, tenantId);
      && r.asOfDate == asOfDate
      && |r.entries| == |TenantChart(db.accounts, tenantId)|
      && (forall a :: a in db.accounts && a.tenantId == tenantId ==>
            exists e :: e in r.entries && IsEntryFor(e, a, db.vouchers, asOfDate, tenantId))
  {
    forall a | a in db.accounts && a.tenantId == tenantId
      ensures exists e :: e in GetTrialBalance(db, asOfDate, tenantId).entries && IsEntryFor(e, a, db.vouchers, asOfDate, tenantId)
    {
      var chart := TenantChart(db.accounts, tenantId);
      AccountInTenantChart(db.accounts, tenantId, a);
      var i :| 0 <= i < |chart| && chart[i] == a;
      ChartAccountHasEntry(db, asOfDate, tenantId, i);
    }
  }

  lemma AccountInTenantChart(accounts: seq<Account>, tenantId: int, a: Account)
    requires a in accounts && a.tenantId == tenantId
    ensures a in TenantChart(accounts, tenantId)
  {
    match a.accountType
    case Asset =>
    case Liability =>
    case Equity =>
    case Revenue =>
    case Expense =>
  }

  lemma ChartAccountHasEntry(db: Db, asOfDate: int, tenantId: int, i: int)
    requires 0 <= i < |TenantChart(db.accounts, tenantId)|
    ensures
      var a := TenantChart(db.accounts, tenantId)[i];
      exists e :: e in GetTrialBalance(db, asOfDate, tenantId).entries && IsEntryFor(e, a, db.vouchers, asOfDate, tenantId)
  {
    var r := GetTrialBalance(db, asOfDate, tenantId);
    var chart := TenantChart(db.accounts, tenantId);
    var visible := Select(AllPostings(db.vouchers), AsOfQuery(asOfDate, tenantId));
    var e := TrialEntries(chart, visible)[i];
    TrialEntryIsEntryFor(chart[i], db.vouchers, asOfDate, tenantId);
    assert e in multiset(r.entries);
  }

  /** Every row belongs to an account of the tenant and holds that
      account's totals */
  lemma TrialBalanceRowsBelong(db: Db, asOfDate: int, tenantId: int)
    ensures
      forall e :: e in GetTrialBalance(db, asOfDate, tenantId).entries ==>
        exists a :: a in db.accounts && a.tenantId == tenantId && IsEntryFor(e, a, db.vouchers, asOfDate, tenantId)
  {
    var r := GetTrialBalance(db, asOfDate, tenantId);
    var chart := TenantChart(db.accounts, tenantId);
    var visible := Select(AllPostings(db.vouchers), AsOfQuery(asOfDate, tenantId));
    var entries := TrialEntries(chart, visible);
    forall e | e in r.entries
      ensures exists a :: a in db.accounts && a.tenantId == tenantId && IsEntryFor(e, a, db.vouchers, asOfDate, tenantId)
    {
      assert e in multiset(entries);
      var i :| 0 <= i < |entries| && entries[i] == e;
      TrialEntryIsEntryFor(chart[i], db.vouchers, asOfDate, tenantId);
      assert chart[i] in chart;
    }
  }

  lemma CodeOrderIsTotalPreorder()
    ensures TotalPreorder(CodeOrder)
  {
    forall x: TrialBalanceEntry, y: TrialBalanceEntry
      ensures CodeOrder(x, y) || CodeOrder(y, x)
    {
      StrLeqTotal(x.code, y.code);
    }
    forall x: TrialBalanceEntry, y: TrialBalanceEntry, z: TrialBalanceEntry | CodeOrder(x, y) && CodeOrder(y, z)
      ensures CodeOrder(x, z)
    {
      StrLeqTransitive(x.code, y.code, z.code);
    }
  }

  /** Rows are listed in ascending (ordinal) order of account code */
  lemma TrialBalanceSortedByCode(db: Db, asOfDate: int, tenantId: int)
    ensures
      var es := GetTrialBalance(db, asOfDate, tenantId).entries;
      forall i, j :: 0 <= i < j < |es| ==> StrLeq(es[i].code, es[j].code)
  {
    var chart := TenantChart(db.accounts, tenantId);
    var visible := Select(AllPostings(db.vouchers), AsOfQuery(asOfDate, tenantId));
    CodeOrderIsTotalPreorder();
    SortSorted(TrialEntries(chart, visible), CodeOrder);
  }

  /** Σ of a column of the rows, one row per chart account, is that
      column's sum over the chart of the per-account group sums */
  lemma {:induction false} EntrySums(chart: seq<Account>, visible: seq<Posting>)
    ensures SumOf(TrialEntries(chart, visible), EntryDebit) == ChartTotal(chart, visible, DebitSide)
    ensures SumOf(TrialEntries(chart, visible), EntryCredit) == ChartTotal(chart, visible, CreditSide)
    decreases |chart|
  {
    if |chart| > 0 {
      EntrySums(chart[1..], visible);
      assert TrialEntries(chart, visible)[1..] == TrialEntries(chart[1..], visible);
    }
  }

  /** A chart taken from a catalog with unique ids has unique ids */
  lemma {:induction false} ChartOfTypesUnique(accounts: seq<Account>, tenantId: int, types: set<AccountType>)
    requires AccountIdsUnique(accounts)
    ensures AccountIdsUnique(ChartOfTypes(accounts, tenantId, types))
    decreases |accounts|
  {
    if |accounts| > 0 {
      ChartOfTypesUnique(accounts[1..], tenantId, types);
      var rest := ChartOfTypes(accounts[1..], tenantId, types);
      forall k | 0 <= k < |rest|
        ensures rest[k].id != accounts[0].id
      {
        assert rest[k] in accounts[1..];
        var m :| 0 <= m < |accounts[1..]| && accounts[1..][m] == rest[k];
        assert accounts[m + 1] == rest[k];
      }
    }
  }

  /** The report's column totals are the sums over the lines posted, in the
      selection, to accounts of the tenant's chart; the row order does not
      matter to them */
  lemma TrialBalanceColumnTotals(db: Db, asOfDate: int, tenantId: int)
    requires AccountIdsUnique(db.accounts)
    ensures
      var r := GetTrialBalance(db, asOfDate, tenantId);
      var chart := TenantChart(db.accounts, tenantId);
      var visible := Select(AllPostings(db.vouchers), AsOfQuery(asOfDate, tenantId));
      && r.totalDebit == SumOf(r.entries, EntryDebit)
      && r.totalCredit == SumOf(r.entries, EntryCredit)
      && r.totalDebit == Total(InAccounts(visible, IdsOf(chart)), DebitSide)
      && r.totalCredit == Total(InAccounts(visible, IdsOf(chart)), CreditSide)
  {
    var chart := TenantChart(db.accounts, tenantId);
    var visible := Select(AllPostings(db.vouchers), AsOfQuery(asOfDate, tenantId));
    var entries := TrialEntries(chart, visible);
    SortKeepsSum(entries, CodeOrder, EntryDebit);
    SortKeepsSum(entries, CodeOrder, EntryCredit);
    EntrySums(chart, visible);
    ChartOfTypesUnique(db.accounts, tenantId, AllTypes);
    ChartTotalPartition(chart, visible, DebitSide);
    ChartTotalPartition(chart, visible, CreditSide);
  }

  /** The trial balance balances: when account ids are unique, every
      visible line is posted to one of the tenant's accounts and every
      visible voucher is balanced, total debit equals total credit */
  lemma TrialBalanceBalances(db: Db, asOfDate: int, tenantId: int)
    requires AccountIdsUnique(db.accounts)
    requires PostedWithin(Select(AllPostings(db.vouchers), AsOfQuery(asOfDate, tenantId)), TenantChart(db.accounts, tenantId))
    requires VisibleBalanced(db.vouchers, AsOfQuery(asOfDate, tenantId))
    ensures GetTrialBalance(db, asOfDate, tenantId).totalDebit == GetTrialBalance(db, asOfDate, tenantId).totalCredit
  {
    var chart := TenantChart(db.accounts, tenantId);
    var visible := Select(AllPostings(db.vouchers), AsOfQuery(asOfDate, tenantId));
    TrialBalanceColumnTotals(db, asOfDate, tenantId);
    InAccountsAll(visible, IdsOf(chart));
    SelectionBalanced(db.vouchers, AsOfQuery(asOfDate, tenantId));
  }
}
