/** Reports read only Approved vouchers: removing every voucher that is not
    Approved from the store changes none of the four reports. */
module VisibilityProofs {
  import opened Results
  import opened Enums
  import opened Entities
  import opened Postings
  import opened Reporting

  function WithoutUnapproved(db: Db): Db {
    db.(vouchers := ApprovedOnly(db.vouchers))
  }

  lemma LedgerSeesOnlyApproved(db: Db, accountId: int, fromDate: int, toDate: int, tenantId: int)
    ensures GetLedger(db, accountId, fromDate, toDate, tenantId) == GetLedger(WithoutUnapproved(db), accountId, fromDate, toDate, tenantId)
  {
    SelectSeesOnlyApproved(db.vouchers, OpeningQuery(accountId, fromDate, tenantId));
    SelectSeesOnlyApproved(db.vouchers, PeriodQuery(accountId, fromDate, toDate, tenantId));
  }

  lemma TrialBalanceSeesOnlyApproved(db: Db, asOfDate: int, tenantId: int)
    ensures GetTrialBalance(db, asOfDate, tenantId) == GetTrialBalance(WithoutUnapproved(db), asOfDate, tenantId)
  {
    SelectSeesOnlyApproved(db.vouchers, AsOfQuery(asOfDate, tenantId));
  }

  lemma IncomeStatementSeesOnlyApproved(db: Db, fromDate: int, toDate: int, tenantId: int)
    ensures GetIncomeStatement(db, fromDate, toDate, tenantId) == GetIncomeStatement(WithoutUnapproved(db), fromDate, toDate, tenantId)
  {
    SelectSeesOnlyApproved(db.vouchers, PeriodStatementQuery(fromDate, toDate, tenantId));
  }

  lemma BalanceSheetSeesOnlyApproved(db: Db, asOfDate: int, tenantId: int)
    ensures GetBalanceSheet(db, asOfDate, tenantId) == GetBalanceSheet(WithoutUnapproved(db), asOfDate, tenantId)
  {
    SelectSeesOnlyApproved(db.vouchers, AsOfQuery(asOfDate, tenantId));
  }

  /** Two stores with the same chart and the same Approved vouchers (in the
      same order) produce the same reports, whatever Draft or Verified
      vouchers either one holds */
  lemma ReportsDependOnlyOnApproved(db1: Db, db2: Db, accountId: int, fromDate: int, toDate: int, tenantId: int)
    requires db1.accounts == db2.accounts
    requires ApprovedOnly(db1.vouchers) == ApprovedOnly(db2.vouchers)
    ensures GetLedger(db1, accountId, fromDate, toDate, tenantId) == GetLedger(db2, accountId, fromDate, toDate, tenantId)
    ensures GetTrialBalance(db1, toDate, tenantId) == GetTrialBalance(db2, toDate, tenantId)
    ensures GetIncomeStatement(db1, fromDate, toDate, tenantId) == GetIncomeStatement(db2, fromDate, toDate, tenantId)
    ensures GetBalanceSheet(db1, toDate, tenantId) == GetBalanceSheet(db2, toDate, tenantId)
  {
    LedgerSeesOnlyApproved(db1, accountId, fromDate, toDate, tenantId);
    LedgerSeesOnlyApproved(db2, accountId, fromDate, toDate, tenantId);
    TrialBalanceSeesOnlyApproved(db1, toDate, tenantId);
    TrialBalanceSeesOnlyApproved(db2, toDate, tenantId);
    IncomeStatementSeesOnlyApproved(db1, fromDate, toDate, tenantId);
    IncomeStatementSeesOnlyApproved(db2, fromDate, toDate, tenantId);
    BalanceSheetSeesOnlyApproved(db1, toDate, tenantId);
    BalanceSheetSeesOnlyApproved(db2, toDate, tenantId);
  }
}
