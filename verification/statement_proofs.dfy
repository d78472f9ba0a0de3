/** Properties of the income statement and the balance sheet: which lines
    each section lists and with which sign, what the section totals add up
    to, that the income statement's bottom line is net income, that the
    balance sheet's retained-earnings line is the income earned to date,
    and that the balance sheet balances. */
module StatementProofs {
  import opened Results
  import opened Enums
  import opened Entities
  import opened Postings
  import opened Sorting
  import opened Reporting
  import opened TrialBalanceProofs

  function LineValue(l: ReportLine): int {
    l.amount
  }

  /** The line an account contributes to a section when its amount is nonzero */
  function LineFor(a: Account, visible: seq<Posting>): ReportLine {
    ReportLine(a.id, a.name, a.code, AccountAmount(a, visible))
  }

  /** The accounts of `chart` of type `t`, in chart order */
  function OnlyType(chart: seq<Account>, t: AccountType): (r: seq<Account>)
    ensures forall a :: a in r <==> a in chart && a.accountType == t
  {
    if |chart| == 0 then []
    else if chart[0].accountType == t then [chart[0]] + OnlyType(chart[1..], t)
    else OnlyType(chart[1..], t)
  }

  // ---------------------------------------------------------------------
  // Sections

  /** A section lists, in chart order, exactly the accounts of its type
      whose signed amount is nonzero, and its total is the sum of its lines */
  lemma {:induction false} SectionLines(name: string, chart: seq<Account>, visible: seq<Posting>, t: AccountType)
    ensures
      var s := BuildSection(name, chart, visible, t);
      && s.name == name
      && (forall l :: l in s.lines ==>
            l.amount != 0 && exists a :: a in chart && a.accountType == t && l == LineFor(a, visible))
      && (forall a :: a in chart && a.accountType == t && AccountAmount(a, visible) != 0 ==> LineFor(a, visible) in s.lines)
      && s.total == SumOf(s.lines, LineValue)
    decreases |chart|
  {
    if |chart| > 0 {
      SectionLines(name, chart[1..], visible, t);
      var s := BuildSection(name, chart, visible, t);
      var rest := BuildSection(name, chart[1..], visible, t);
      forall l | l in s.lines
        ensures l.amount != 0 && exists a :: a in chart && a.accountType == t && l == LineFor(a, visible)
      {
        if l !in rest.lines {
          assert l == LineFor(chart[0], visible);
        } else {
          var a :| a in chart[1..] && a.accountType == t && l == LineFor(a, visible);
          assert a in chart;
        }
      }
      forall a | a in chart && a.accountType == t && AccountAmount(a, visible) != 0
        ensures LineFor(a, visible) in s.lines
      {
        if a != chart[0] {
          assert a in chart[1..];
        }
      }
      if chart[0].accountType == t && AccountAmount(chart[0], visible) != 0 {
        assert s.lines[1..] == rest.lines;
      }
    }
  }

  /** A section total is the signed amount of the summed debit and credit
      columns of the section's accounts: accounts left out for a zero
      amount contribute nothing either way */
  lemma {:induction false} SectionTotal(name: string, chart: seq<Account>, visible: seq<Posting>, t: AccountType)
    ensures BuildSection(name, chart, visible, t).total
         == SignedAmount(t, ChartTotal(OnlyType(chart, t), visible, DebitSide), ChartTotal(OnlyType(chart, t), visible, CreditSide))
    decreases |chart|
  {
    if |chart| > 0 {
      SectionTotal(name, chart[1..], visible, t);
      if chart[0].accountType == t {
        assert OnlyType(chart, t)[1..] == OnlyType(chart[1..], t);
      }
    }
  }

  // ---------------------------------------------------------------------
  // From a typed chart to the lines typed by their account

  lemma {:induction false} OnlyTypeOfChart(accounts: seq<Account>, tenantId: int, types: set<AccountType>, t: AccountType)
    requires t in types
    ensures OnlyType(ChartOfTypes(accounts, tenantId, types), t) == ChartOfTypes(accounts, tenantId, {t})
    decreases |accounts|
  {
    if |accounts| > 0 {
      OnlyTypeOfChart(accounts[1..], tenantId, types, t);
      var c := ChartOfTypes(accounts, tenantId, types);
      if accounts[0].tenantId == tenantId && accounts[0].accountType in types {
        assert c[0] == accounts[0] && c[1..] == ChartOfTypes(accounts[1..], tenantId, types);
      }
    }
  }

  lemma IdOf(chart: seq<Account>, a: Account)
    requires a in chart
    ensures a.id in IdsOf(chart)
  {
    var k :| 0 <= k < |chart| && chart[k] == a;
    assert IdsOf(chart)[k] == a.id;
  }

  lemma AccountOfId(chart: seq<Account>, id: int) returns (a: Account)
    requires id in IdsOf(chart)
    ensures a in chart && a.id == id
  {
    var k :| 0 <= k < |chart| && IdsOf(chart)[k] == id;
    a := chart[k];
  }

  /** For a line posted to the tenant's chart, being posted to the tenant's
      accounts of type `t` is the same as its account having type `t` */
  lemma IdInTypedChart(accounts: seq<Account>, tenantId: int, t: AccountType, id: int)
    requires AccountIdsUnique(accounts)
    requires id in IdsOf(TenantChart(accounts, tenantId))
    ensures TypeOfAccount(accounts, id).Some?
    ensures id in IdsOf(ChartOfTypes(accounts, tenantId, {t})) <==> TypeOfAccount(accounts, id) == Some(t)
  {
    var a := AccountOfId(TenantChart(accounts, tenantId), id);
    TypeOfAccountFinds(accounts, a);
    if id in IdsOf(ChartOfTypes(accounts, tenantId, {t})) {
      var b := AccountOfId(ChartOfTypes(accounts, tenantId, {t}), id);
      TypeOfAccountFinds(accounts, b);
    }
    if a.accountType == t {
      IdOf(ChartOfTypes(accounts, tenantId, {t}), a);
    }
  }

  lemma {:induction false} InTypedChartIsOfType(ps: seq<Posting>, accounts: seq<Account>, tenantId: int, t: AccountType)
    requires AccountIdsUnique(accounts)
    requires PostedWithin(ps, TenantChart(accounts, tenantId))
    ensures InAccounts(ps, IdsOf(ChartOfTypes(accounts, tenantId, {t}))) == OfType(ps, accounts, t)
    decreases |ps|
  {
    if |ps| > 0 {
      IdInTypedChart(accounts, tenantId, t, ps[0].line.accountId);
      InTypedChartIsOfType(ps[1..], accounts, tenantId, t);
    }
  }

  /** The total of a section built from a typed chart is the signed total
      of the visible lines whose account has the section's type */
  lemma SectionIsTypeTotal(name: string, accounts: seq<Account>, tenantId: int, types: set<AccountType>, visible: seq<Posting>, t: AccountType)
    requires AccountIdsUnique(accounts)
    requires PostedWithin(visible, TenantChart(accounts, tenantId))
    requires t in types
    ensures BuildSection(name, ChartOfTypes(accounts, tenantId, types), visible, t).total
         == SignedAmount(t, Total(OfType(visible, accounts, t), DebitSide), Total(OfType(visible, accounts, t), CreditSide))
  {
    var typed := ChartOfTypes(accounts, tenantId, {t});
    SectionTotal(name, ChartOfTypes(accounts, tenantId, types), visible, t);
    OnlyTypeOfChart(accounts, tenantId, types, t);
    ChartOfTypesUnique(accounts, tenantId, {t});
    ChartTotalPartition(typed, visible, DebitSide);
    ChartTotalPartition(typed, visible, CreditSide);
    InTypedChartIsOfType(visible, accounts, tenantId, t);
  }

  // ---------------------------------------------------------------------
  // Income statement

  /** The income statement: a Revenue section listing the tenant's revenue
      accounts with a nonzero credit - debit over the period, an Expense
      section listing its expense accounts with a nonzero debit - credit,
      and revenue less expense as the bottom line */
  lemma IncomeStatementLines(db: Db, fromDate: int, toDate: int, tenantId: int)
    ensures
      var r := GetIncomeStatement(db, fromDate, toDate, tenantId);
      var visible := Select(AllPostings(db.vouchers), PeriodStatementQuery(fromDate, toDate, tenantId));
      && r.title == "Income Statement"
      && r.fromDate == Some(fromDate) && r.toDate == Some(toDate) && r.asOfDate.None?
      && |r.sections| == 2
      && r.sections[0].name == "Revenue" && r.sections[1].name == "Expense"
      && r.grandTotal == r.sections[0].total - r.sections[1].total
      && (forall k, l :: 0 <= k < 2 && l in r.sections[k].lines ==>
            l.amount != 0
            && exists a :: a in db.accounts && a.tenantId == tenantId && a.accountType == [Revenue, Expense][k]
                 && l == LineFor(a, visible))
      && (forall a :: a in db.accounts && a.tenantId == tenantId && a.accountType == Revenue
            && AccountTotal(visible, a.id, CreditSide) - AccountTotal(visible, a.id, DebitSide) != 0
            ==> LineFor(a, visible) in r.sections[0].lines)
      && (forall a :: a in db.accounts && a.tenantId == tenantId && a.accountType == Expense
            && AccountTotal(visible, a.id, DebitSide) - AccountTotal(visible, a.id, CreditSide) != 0
            ==> LineFor(a, visible) in r.sections[1].lines)
      && (forall k :: 0 <= k < 2 ==> r.sections[k].total == SumOf(r.sections[k].lines, LineValue))
  {
    var chart := ChartOfTypes(db.accounts, tenantId, {Revenue, Expense});
    var visible := Select(AllPostings(db.vouchers), PeriodStatementQuery(fromDate, toDate, tenantId));
    SectionLines("Revenue", chart, visible, Revenue);
    SectionLines("Expense", chart, visible, Expense);
  }

  /** The income statement's bottom line is net income: revenue
      (credit - debit) less expense (debit - credit) over the period's
      lines, typing each line by its account. This needs account ids to be
      unique and every line of the period to be posted to the tenant's own
      chart. */
  lemma IncomeStatementIsNetIncome(db: Db, fromDate: int, toDate: int, tenantId: int)
    requires AccountIdsUnique(db.accounts)
    requires PostedWithin(Select(AllPostings(db.vouchers), PeriodStatementQuery(fromDate, toDate, tenantId)), TenantChart(db.accounts, tenantId))
    ensures GetIncomeStatement(db, fromDate, toDate, tenantId).grandTotal
         == NetIncome(db.accounts, Select(AllPostings(db.vouchers), PeriodStatementQuery(fromDate, toDate, tenantId)))
  {
    var visible := Select(AllPostings(db.vouchers), PeriodStatementQuery(fromDate, toDate, tenantId));
    SectionIsTypeTotal("Revenue", db.accounts, tenantId, {Revenue, Expense}, visible, Revenue);
    SectionIsTypeTotal("Expense", db.accounts, tenantId, {Revenue, Expense}, visible, Expense);
  }

  // ---------------------------------------------------------------------
  // Balance sheet

  /** A section built over the tenant's chart of some types lists exactly
      the tenant's accounts of the section's type whose amount is nonzero */
  lemma ChartSectionLines(accounts: seq<Account>, tenantId: int, types: set<AccountType>, visible: seq<Posting>,
                          name: string, t: AccountType)
    requires t in types
    ensures
      var s := BuildSection(name, ChartOfTypes(accounts, tenantId, types), visible, t);
      && (forall l :: l in s.lines ==>
            l.amount != 0 && exists a :: a in accounts && a.tenantId == tenantId && a.accountType == t && l == LineFor(a, visible))
      && (forall a :: a in accounts && a.tenantId == tenantId && a.accountType == t && AccountAmount(a, visible) != 0
            ==> LineFor(a, visible) in s.lines)
      && s.total == SumOf(s.lines, LineValue)
  {
    SectionLines(name, ChartOfTypes(accounts, tenantId, types), visible, t);
  }

  /** The balance sheet's account lines: Assets (debit - credit),
      Liabilities and Equity (credit - debit), each listing the tenant's
      accounts of that type with a nonzero amount as of the date */
  lemma BalanceSheetLines(db: Db, asOfDate: int, tenantId: int)
    ensures
      var r := GetBalanceSheet(db, asOfDate, tenantId);
      var visible := Select(AllPostings(db.vouchers), AsOfQuery(asOfDate, tenantId));
      var equity := BuildSection("Equity", ChartOfTypes(db.accounts, tenantId, {Asset, Liability, Equity}), visible, Equity);
      && |r.sections| == 3
      && (forall l :: l in r.sections[0].lines ==>
            l.amount != 0 && exists a :: a in db.accounts && a.tenantId == tenantId && a.accountType == Asset && l == LineFor(a, visible))
      && (forall l :: l in r.sections[1].lines ==>
            l.amount != 0 && exists a :: a in db.accounts && a.tenantId == tenantId && a.accountType == Liability && l == LineFor(a, visible))
      && (forall l :: l in equity.lines ==>
            l.amount != 0 && exists a :: a in db.accounts && a.tenantId == tenantId && a.accountType == Equity && l == LineFor(a, visible))
      && (forall a :: a in db.accounts && a.tenantId == tenantId && a.accountType == Asset
            && AccountTotal(visible, a.id, DebitSide) - AccountTotal(visible, a.id, CreditSide) != 0
            ==> LineFor(a, visible) in r.sections[0].lines)
      && (forall a :: a in db.accounts && a.tenantId == tenantId && a.accountType == Liability
            && AccountTotal(visible, a.id, CreditSide) - AccountTotal(visible, a.id, DebitSide) != 0
            ==> LineFor(a, visible) in r.sections[1].lines)
      && (forall a :: a in db.accounts && a.tenantId == tenantId && a.accountType == Equity
            && AccountTotal(visible, a.id, CreditSide) - AccountTotal(visible, a.id, DebitSide) != 0
            ==> LineFor(a, visible) in equity.lines)
      && r.sections[0].total == SumOf(r.sections[0].lines, LineValue)
      && r.sections[1].total == SumOf(r.sections[1].lines, LineValue)
  {
    var visible := Select(AllPostings(db.vouchers), AsOfQuery(asOfDate, tenantId));
    var types := {Asset, Liability, Equity};
    var r := GetBalanceSheet(db, asOfDate, tenantId);
    ChartSectionLines(db.accounts, tenantId, types, visible, "Assets", Asset);
    ChartSectionLines(db.accounts, tenantId, types, visible, "Liabilities", Liability);
    ChartSectionLines(db.accounts, tenantId, types, visible, "Equity", Equity);
    assert r.sections[0] == BuildSection("Assets", ChartOfTypes(db.accounts, tenantId, types), visible, Asset);
    assert r.sections[1] == BuildSection("Liabilities", ChartOfTypes(db.accounts, tenantId, types), visible, Liability);
  }

  /** The balance sheet's layout: three sections, Assets, Liabilities and
      Equity; the Equity section is the equity accounts' lines followed by
      the retained-earnings line (account 0, code "RE", net income to date)
      exactly when that net income is nonzero, and its total includes it;
      the bottom line is assets less liabilities and equity */
  lemma BalanceSheetRetainedEarnings(db: Db, asOfDate: int, tenantId: int)
    ensures
      var r := GetBalanceSheet(db, asOfDate, tenantId);
      var visible := Select(AllPostings(db.vouchers), AsOfQuery(asOfDate, tenantId));
      var ni := NetIncome(db.accounts, visible);
      var equity := BuildSection("Equity", ChartOfTypes(db.accounts, tenantId, {Asset, Liability, Equity}), visible, Equity);
      && r.title == "Balance Sheet"
      && r.asOfDate == Some(asOfDate) && r.fromDate.None? && r.toDate.None?
      && |r.sections| == 3
      && r.sections[0].name == "Assets" && r.sections[1].name == "Liabilities" && r.sections[2].name == "Equity"
      && r.grandTotal == r.sections[0].total - (r.sections[1].total + r.sections[2].total)
      && r.sections[2].lines
         == equity.lines + (if ni != 0 then [ReportLine(0, "Net Income (Retained Earnings)", "RE", ni)] else [])
      && r.sections[2].total == SumOf(equity.lines, LineValue) + ni
  {
    var visible := Select(AllPostings(db.vouchers), AsOfQuery(asOfDate, tenantId));
    var chart := ChartOfTypes(db.accounts, tenantId, {Asset, Liability, Equity});
    SectionLines("Assets", chart, visible, Asset);
    SectionLines("Liabilities", chart, visible, Liability);
    SectionLines("Equity", chart, visible, Equity);
  }

  /** Every line's total splits over the five account types when every
      line's account is in the catalog */
  lemma {:induction false} TypeSplit(ps: seq<Posting>, accounts: seq<Account>, side: Side)
    requires forall i :: 0 <= i < |ps| ==> TypeOfAccount(accounts, ps[i].line.accountId).Some?
    ensures Total(ps, side)
         == Total(OfType(ps, accounts, Asset), side) + Total(OfType(ps, accounts, Liability), side)
            + Total(OfType(ps, accounts, Equity), side) + Total(OfType(ps, accounts, Revenue), side)
            + Total(OfType(ps, accounts, Expense), side)
    decreases |ps|
  {
    if |ps| > 0 {
      TypeSplit(ps[1..], accounts, side);
      match TypeOfAccount(accounts, ps[0].line.accountId).value
      case Asset =>
      case Liability =>
      case Equity =>
      case Revenue =>
      case Expense =>
      TotalCons(ps, side);
      TotalOfTypeCons(ps, accounts, Asset, side);
      TotalOfTypeCons(ps, accounts, Liability, side);
      TotalOfTypeCons(ps, accounts, Equity, side);
      TotalOfTypeCons(ps, accounts, Revenue, side);
      TotalOfTypeCons(ps, accounts, Expense, side);
    }
  }

  lemma PostedLinesAreTyped(ps: seq<Posting>, accounts: seq<Account>, tenantId: int)
    requires AccountIdsUnique(accounts)
    requires PostedWithin(ps, TenantChart(accounts, tenantId))
    ensures forall i :: 0 <= i < |ps| ==> TypeOfAccount(accounts, ps[i].line.accountId).Some?
  {
    forall i | 0 <= i < |ps|
      ensures TypeOfAccount(accounts, ps[i].line.accountId).Some?
    {
      IdInTypedChart(accounts, tenantId, Asset, ps[i].line.accountId);
    }
  }

  /** The balance sheet balances: assets equal liabilities plus equity plus
      retained earnings, so the bottom line is 0, whenever account ids are
      unique, every visible line is posted to the tenant's chart and every
      visible voucher is balanced */
  lemma BalanceSheetBalances(db: Db, asOfDate: int, tenantId: int)
    requires AccountIdsUnique(db.accounts)
    requires PostedWithin(Select(AllPostings(db.vouchers), AsOfQuery(asOfDate, tenantId)), TenantChart(db.accounts, tenantId))
    requires VisibleBalanced(db.vouchers, AsOfQuery(asOfDate, tenantId))
    ensures GetBalanceSheet(db, asOfDate, tenantId).grandTotal == 0
  {
    var visible := Select(AllPostings(db.vouchers), AsOfQuery(asOfDate, tenantId));
    var types := {Asset, Liability, Equity};
    SectionIsTypeTotal("Assets", db.accounts, tenantId, types, visible, Asset);
    SectionIsTypeTotal("Liabilities", db.accounts, tenantId, types, visible, Liability);
    SectionIsTypeTotal("Equity", db.accounts, tenantId, types, visible, Equity);
    PostedLinesAreTyped(visible, db.accounts, tenantId);
    TypeSplit(visible, db.accounts, DebitSide);
    TypeSplit(visible, db.accounts, CreditSide);
    SelectionBalanced(db.vouchers, AsOfQuery(asOfDate, tenantId));
  }

  lemma {:induction false} SameSelection(ps: seq<Posting>, q1: Query, q2: Query)
    requires forall i :: 0 <= i < |ps| ==> (Matches(q1, ps[i]) <==> Matches(q2, ps[i]))
    ensures Select(ps, q1) == Select(ps, q2)
    decreases |ps|
  {
    if |ps| > 0 {
      SameSelection(ps[1..], q1, q2);
    }
  }

  /** The retained-earnings amount of the balance sheet is the bottom line
      of the income statement from `fromDate` to the same date, when no
      visible voucher is dated before `fromDate` (the earnings are "all
      time": no closing entries are assumed) */
  lemma RetainedEarningsIsIncomeToDate(db: Db, fromDate: int, asOfDate: int, tenantId: int)
    requires AccountIdsUnique(db.accounts)
    requires PostedWithin(Select(AllPostings(db.vouchers), AsOfQuery(asOfDate, tenantId)), TenantChart(db.accounts, tenantId))
    requires forall v :: v in db.vouchers && VoucherMatches(AsOfQuery(asOfDate, tenantId), v) ==> fromDate <= v.date
    ensures NetIncome(db.accounts, Select(AllPostings(db.vouchers), AsOfQuery(asOfDate, tenantId)))
         == GetIncomeStatement(db, fromDate, asOfDate, tenantId).grandTotal
  {
    var ps := AllPostings(db.vouchers);
    forall i | 0 <= i < |ps|
      ensures Matches(AsOfQuery(asOfDate, tenantId), ps[i]) <==> Matches(PeriodStatementQuery(fromDate, asOfDate, tenantId), ps[i])
    {
      InAllPostings(db.vouchers, ps[i]);
    }
    SameSelection(ps, AsOfQuery(asOfDate, tenantId), PeriodStatementQuery(fromDate, asOfDate, tenantId));
    IncomeStatementIsNetIncome(db, fromDate, asOfDate, tenantId);
  }
}
