/** The four read-only reports: account ledger, trial balance, income
    statement and balance sheet, with the report records they return.
    Each report reads only the lines of Approved vouchers of one tenant. */
module Reporting {
  import opened Results
  import opened Enums
  import opened Entities
  import opened Postings
  import opened Sorting
  import opened Text

  // ---------------------------------------------------------------------
  // Report records

  datatype LedgerEntry = LedgerEntry(
    date: int,
    voucherId: int,
    voucherNo: string,
    narration: Option<string>,
    debit: int,
    credit: int,
    runningBalance: int)

  datatype LedgerReport = LedgerReport(
    accountId: int,
    accountName: string,
    accountCode: string,
    fromDate: int,
    toDate: int,
    openingBalance: int,
    transactions: seq<LedgerEntry>,
    closingBalance: int)

  datatype TrialBalanceEntry = TrialBalanceEntry(
    accountId: int,
    code: string,
    name: string,
    accountLevel: int,
    isControlAccount: bool,
    debitTotal: int,
    creditTotal: int,
    netBalance: int)

  datatype TrialBalanceReport = TrialBalanceReport(
    asOfDate: int,
    entries: seq<TrialBalanceEntry>,
    totalDebit: int,
    totalCredit: int)

  datatype ReportLine = ReportLine(accountId: int, accountName: string, accountCode: string, amount: int)

  datatype Section = Section(name: string, lines: seq<ReportLine>, total: int)

  datatype Statement = Statement(
    title: string,
    asOfDate: Option<int>,
    fromDate: Option<int>,
    toDate: Option<int>,
    sections: seq<Section>,
    grandTotal: int)

  // ---------------------------------------------------------------------
  // Chart queries

  /** The account of `id` within the tenant's chart */
  function FindTenantAccount(accounts: seq<Account>, id: int, tenantId: int): (r: Option<Account>)
    ensures r.Some? ==> r.value in accounts && r.value.id == id && r.value.tenantId == tenantId
    ensures r.None? ==> forall a :: a in accounts ==> !(a.id == id && a.tenantId == tenantId)
  {
    if |accounts| == 0 then None
    else if accounts[0].id == id && accounts[0].tenantId == tenantId then Some(accounts[0])
    else FindTenantAccount(accounts[1..], id, tenantId)
  }

  /** The tenant's accounts whose type is one of `types`, in catalog order */
  function ChartOfTypes(accounts: seq<Account>, tenantId: int, types: set<AccountType>): (r: seq<Account>)
    ensures forall a :: a in r <==> a in accounts && a.tenantId == tenantId && a.accountType in types
  {
    if |accounts| == 0 then []
    else if accounts[0].tenantId == tenantId && accounts[0].accountType in types then
      [accounts[0]] + ChartOfTypes(accounts[1..], tenantId, types)
    else ChartOfTypes(accounts[1..], tenantId, types)
  }

  const AllTypes: set<AccountType> := {Asset, Liability, Equity, Revenue, Expense}

  /** The tenant's whole chart */
  function TenantChart(accounts: seq<Account>, tenantId: int): seq<Account> {
    ChartOfTypes(accounts, tenantId, AllTypes)
  }

  // ---------------------------------------------------------------------
  // Ledger

  /** Lines of the account strictly before the period */
  function OpeningQuery(accountId: int, fromDate: int, tenantId: int): Query {
    Query(tenantId, Some(accountId), None, None, Some(fromDate))
  }

  /** Lines of the account inside the period, both ends included */
  function PeriodQuery(accountId: int, fromDate: int, toDate: int, tenantId: int): Query {
    Query(tenantId, Some(accountId), Some(fromDate), Some(toDate), None)
  }

  /** Ledger order: by voucher date, then by voucher number */
  predicate LedgerOrder(p: Posting, q: Posting) {
    p.voucher.date < q.voucher.date
    || (p.voucher.date == q.voucher.date && StrLeq(p.voucher.voucherNo, q.voucher.voucherNo))
  }

  /** The line narration, or the voucher narration when the line has none */
  function EntryNarration(p: Posting): Option<string> {
    if p.line.lineNarration.None? || p.line.lineNarration.value == "" then p.voucher.narration
    else p.line.lineNarration
  }

  function ToEntry(p: Posting, balance: int): LedgerEntry {
    LedgerEntry(p.voucher.date, p.voucher.id, p.voucher.voucherNo, EntryNarration(p), p.line.debit, p.line.credit, balance)
  }

  /** The transaction loop: starting from `balance`, each posting adds its
      debit - credit and emits a row; returns the rows and the final balance */
  function RunLedger(balance: int, ps: seq<Posting>): (seq<LedgerEntry>, int)
    decreases |ps|
  {
    if |ps| == 0 then ([], balance)
    else
      var b := balance + LineNet(ps[0]);
      var (rows, final) := RunLedger(b, ps[1..]);
      ([ToEntry(ps[0], b)] + rows, final)
  }

  /** The period's lines in ledger order */
  function LedgerTransactions(vs: seq<Voucher>, accountId: int, fromDate: int, toDate: int, tenantId: int): seq<Posting> {
    Sort(Select(AllPostings(vs), PeriodQuery(accountId, fromDate, toDate, tenantId)), LedgerOrder)
  }

  function GetLedger(db: Db, accountId: int, fromDate: int, toDate: int, tenantId: int): (r: Result<LedgerReport>)
    ensures r.Err? <==> !exists a :: a in db.accounts && a.id == accountId && a.tenantId == tenantId
    ensures r.Err? ==> r.error == General("Account not found")
    ensures r.Ok? ==> r.value.accountId == accountId && r.value.fromDate == fromDate && r.value.toDate == toDate
  {
    match FindTenantAccount(db.accounts, accountId, tenantId)
    case None => Err(General("Account not found"))
    case Some(account) =>
      var opening := Net(Select(AllPostings(db.vouchers), OpeningQuery(accountId, fromDate, tenantId)));
      var (rows, closing) := RunLedger(opening, LedgerTransactions(db.vouchers, accountId, fromDate, toDate, tenantId));
      Ok(LedgerReport(account.id, account.name, account.code, fromDate, toDate, opening, rows, closing))
  }

  // ---------------------------------------------------------------------
  // Trial balance

  /** Approved lines of the tenant dated on or before `asOfDate` */
  function AsOfQuery(asOfDate: int, tenantId: int): Query {
    Query(tenantId, None, None, Some(asOfDate), None)
  }

  function TrialEntry(a: Account, visible: seq<Posting>): TrialBalanceEntry {
    var dr := AccountTotal(visible, a.id, DebitSide);
    var cr := AccountTotal(visible, a.id, CreditSide);
    TrialBalanceEntry(a.id, a.code, a.name, a.level, a.isControlAccount, dr, cr, dr - cr)
  }

  /** One entry per chart account, in chart order */
  function TrialEntries(chart: seq<Account>, visible: seq<Posting>): (r: seq<TrialBalanceEntry>)
    ensures |r| == |chart|
    ensures forall i :: 0 <= i < |chart| ==> r[i] == TrialEntry(chart[i], visible)
  {
    if |chart| == 0 then [] else [TrialEntry(chart[0], visible)] + TrialEntries(chart[1..], visible)
  }

  predicate CodeOrder(x: TrialBalanceEntry, y: TrialBalanceEntry) {
    StrLeq(x.code, y.code)
  }

  function EntryDebit(e: TrialBalanceEntry): int {
    e.debitTotal
  }

  function EntryCredit(e: TrialBalanceEntry): int {
    e.creditTotal
  }

  function GetTrialBalance(db: Db, asOfDate: int, tenantId: int): TrialBalanceReport {
    var visible := Select(AllPostings(db.vouchers), AsOfQuery(asOfDate, tenantId));
    var entries := TrialEntries(TenantChart(db.accounts, tenantId), visible);
    TrialBalanceReport(asOfDate, Sort(entries, CodeOrder), SumOf(entries, EntryDebit), SumOf(entries, EntryCredit))
  }

  // ---------------------------------------------------------------------
  // Statements

  /** The sign convention: debit-normal types report debit - credit, the
      credit-normal ones credit - debit */
  function SignedAmount(t: AccountType, dr: int, cr: int): int {
    if t.DebitNormal() then dr - cr else cr - dr
  }

  function AccountAmount(a: Account, visible: seq<Posting>): int {
    SignedAmount(a.accountType, AccountTotal(visible, a.id, DebitSide), AccountTotal(visible, a.id, CreditSide))
  }

  /** The section of type `t`: a line for every chart account of that type
      whose amount is nonzero, in chart order, and the running total */
  function BuildSection(name: string, chart: seq<Account>, visible: seq<Posting>, t: AccountType): Section {
    if |chart| == 0 then Section(name, [], 0)
    else
      var rest := BuildSection(name, chart[1..], visible, t);
      var a := chart[0];
      var amount := AccountAmount(a, visible);
      if a.accountType == t && amount != 0 then
        Section(name, [ReportLine(a.id, a.name, a.code, amount)] + rest.lines, amount + rest.total)
      else rest
  }

  function PeriodStatementQuery(fromDate: int, toDate: int, tenantId: int): Query {
    Query(tenantId, None, Some(fromDate), Some(toDate), None)
  }

  function GetIncomeStatement(db: Db, fromDate: int, toDate: int, tenantId: int): Statement {
    var chart := ChartOfTypes(db.accounts, tenantId, {Revenue, Expense});
    var visible := Select(AllPostings(db.vouchers), PeriodStatementQuery(fromDate, toDate, tenantId));
    var revenue := BuildSection("Revenue", chart, visible, Revenue);
    var expense := BuildSection("Expense", chart, visible, Expense);
    Statement("Income Statement", None, Some(fromDate), Some(toDate), [revenue, expense], revenue.total - expense.total)
  }

  /** Net income over the given lines: revenue (credit - debit) less
      expense (debit - credit), typing each line by its account */
  function NetIncome(accounts: seq<Account>, visible: seq<Posting>): int {
    var revenue := OfType(visible, accounts, Revenue);
    var expense := OfType(visible, accounts, Expense);
    (Total(revenue, CreditSide) - Total(revenue, DebitSide)) - (Total(expense, DebitSide) - Total(expense, CreditSide))
  }

  const RetainedEarningsName: string := "Net Income (Retained Earnings)"
  const RetainedEarningsCode: string := "RE"

  function RetainedEarningsLine(netIncome: int): ReportLine {
    ReportLine(0, RetainedEarningsName, RetainedEarningsCode, netIncome)
  }

  /** Appends the derived retained-earnings line to the equity section when
      net income is nonzero */
  function WithRetainedEarnings(equity: Section, netIncome: int): Section {
    if netIncome != 0 then Section(equity.name, equity.lines + [RetainedEarningsLine(netIncome)], equity.total + netIncome)
    else equity
  }

  function GetBalanceSheet(db: Db, asOfDate: int, tenantId: int): Statement {
    var chart := ChartOfTypes(db.accounts, tenantId, {Asset, Liability, Equity});
    var visible := Select(AllPostings(db.vouchers), AsOfQuery(asOfDate, tenantId));
    var assets := BuildSection("Assets", chart, visible, Asset);
    var liabilities := BuildSection("Liabilities", chart, visible, Liability);
    var equity := WithRetainedEarnings(BuildSection("Equity", chart, visible, Equity), NetIncome(db.accounts, visible));
    Statement("Balance Sheet", Some(asOfDate), None, None, [assets, liabilities, equity],
              assets.total - (liabilities.total + equity.total))
  }
}
