# Accounting core: voucher workflow and financial reports

This project models the core of a multi-tenant double-entry accounting back
end in Dafny, and proves properties of that model.

Vouchers are journal entries made of debit/credit detail lines, booked on a
branch of a tenant. A voucher is created as a Draft, can be edited only while
Draft, and moves Draft → Verified → Approved. There are two implementations
of that workflow, and both are modelled:

- **Application voucher service** (`AppVoucherService`). It refuses a request
  whose debits and credits differ. It appends a workflow-log record for
  every change.
- **Infrastructure voucher service** (`InfraVoucherService`). It looks up the
  branch and numbers vouchers `{type}-{branch code}-{year}-{sequence:D6}`.
  It checks an optional attachment against an extension allow-list. It
  writes no log and never checks the balance.

The reporting service reads only Approved vouchers of one tenant. It builds
four reports (`Reporting`):

- an account ledger with opening, running and closing balances;
- a trial balance sorted by account code;
- an income statement;
- a balance sheet with a derived retained-earnings line and an
  A − (L + E) check total.

## Layout

- `results.dfy`: `Option`, `Result` and the error kinds. Each error kind
  stands for one of the exception types the services throw.
- `enums.dfy`: voucher types, statuses and account types.
- `entities.dfy`: the entities and the store (`Db`). Also the request
  records and line totals, and the `Effect` record: the store after a call,
  plus its result.
- `text.dfy`: string order, decimal digits and zero padding, ASCII lower
  case, and file extensions.
- `sorting.dfy`: a stable insertion sort, `OrderBy`, with sortedness, stability,
  permutation and sum lemmas.
- `postings.dfy`: detail lines paired with their voucher, the report
  filters, and column sums with their lemmas.
- `reporting.dfy`: the four reports.
- `ledger_proofs.dfy`, `trial_balance_proofs.dfy`, `statement_proofs.dfy`,
  `visibility_proofs.dfy`: what the reports promise.
- `app_voucher_service.dfy`, `infra_voucher_service.dfy`: the two services.
  Each service call is a pure function from a store and a request to an
  `Effect`.
- `workflow.dfy`: the status machine across both services and the audit
  trail. Also the double-entry invariant, and worked cases of what the
  infrastructure service lets through.

Money is an unbounded integer in minor units. C# `decimal` is exact in base
10, so sums and equality behave the same. Dates are integers, compared as
the queries compare them. Database order is the order of the store's
sequences.

## Model

| member | source | states |
|---|---|---|
| Reporting.GetLedger | src/AccountingSystem.Infrastructure/Services/ReportingService.cs:18-21 | the ledger fails with "Account not found" exactly when no account has the id within the tenant; otherwise it reports on that account and period |
| Reporting.FindTenantAccount | src/AccountingSystem.Infrastructure/Services/ReportingService.cs:20 | finds an account with the given id and tenant when there is one, and nothing only when there is none |
| Reporting.ChartOfTypes | src/AccountingSystem.Infrastructure/Services/ReportingService.cs:151-153 | the chart of a report is exactly the tenant's accounts of the listed types |
| LedgerProofs.LedgerRows | src/AccountingSystem.Infrastructure/Services/ReportingService.cs:28-78 | opening balance is debit − credit over the account's Approved lines dated strictly before the period; the rows are a permutation of the account's Approved lines inside the period, ordered by date then voucher number; each row takes the line narration when non-empty, else the voucher's; row i's running balance is opening plus the net of rows 0..i; closing is the last running balance, or the opening when there are no rows |
| LedgerProofs.RunLedgerPrefixSums | src/AccountingSystem.Infrastructure/Services/ReportingService.cs:52-67 | the transaction loop emits one row per line whose balance is the start plus the prefix sum of debit − credit, and ends on the start plus the whole sum |
| LedgerProofs.LedgerClosing | src/AccountingSystem.Infrastructure/Services/ReportingService.cs:36-78 | closing balance = opening balance + net of the period's Approved lines |
| LedgerProofs.LedgerPeriodsChain | src/AccountingSystem.Infrastructure/Services/ReportingService.cs:28-48 | the closing balance of one period is the opening balance of the period that starts the day after |
| LedgerProofs.LedgerOrderIsTotalPreorder | src/AccountingSystem.Infrastructure/Services/ReportingService.cs:46-47 | ordering by date then voucher number is total and transitive, so the sort is well defined |
| TrialBalanceProofs.TrialEntryIsEntryFor | src/AccountingSystem.Infrastructure/Services/ReportingService.cs:113-134 | an entry carries its account's id, code, name, level and control flag, debit and credit sums over that account's visible lines (0/0 when it has none) and net = debit − credit |
| TrialBalanceProofs.TrialBalanceCoversChart | src/AccountingSystem.Infrastructure/Services/ReportingService.cs:85-135 | one entry per account of the tenant, zero-activity accounts included, and each tenant account has its entry |
| TrialBalanceProofs.TrialBalanceRowsBelong | src/AccountingSystem.Infrastructure/Services/ReportingService.cs:113-135 | every entry is the entry of some account of the tenant |
| TrialBalanceProofs.TrialBalanceSortedByCode | src/AccountingSystem.Infrastructure/Services/ReportingService.cs:141 | entries are in code order |
| TrialBalanceProofs.CodeOrderIsTotalPreorder | src/AccountingSystem.Infrastructure/Services/ReportingService.cs:141 | code order is total and transitive |
| TrialBalanceProofs.TrialBalanceColumnTotals | src/AccountingSystem.Infrastructure/Services/ReportingService.cs:142-143 | the totals are the column sums of the (sorted) entries and equal the sums of the visible lines posted to the tenant's chart |
| TrialBalanceProofs.TrialBalanceBalances | src/AccountingSystem.Infrastructure/Services/ReportingService.cs:91-143 | when every visible voucher balances and every visible line is posted to the tenant's chart, total debit = total credit |
| StatementProofs.SectionLines | src/AccountingSystem.Infrastructure/Services/ReportingService.cs:174-210 | a section has a line exactly for each chart account of its type whose signed amount is nonzero, that line carries the account and that amount, and the section total is the sum of its lines |
| StatementProofs.SectionTotal | src/AccountingSystem.Infrastructure/Services/ReportingService.cs:174-210 | a section total is the signed difference of the debit and credit sums over the accounts of its type |
| StatementProofs.SectionIsTypeTotal | src/AccountingSystem.Infrastructure/Services/ReportingService.cs:174-210 | with unique account ids, a section total is the signed amount of all visible lines whose account has the section's type |
| StatementProofs.IncomeStatementLines | src/AccountingSystem.Infrastructure/Services/ReportingService.cs:148-221 | title and period, a Revenue then an Expense section; revenue amounts are credit − debit, expense amounts debit − credit, over the inclusive window; only nonzero lines; totals are line sums; grand total = revenue − expense |
| StatementProofs.IncomeStatementIsNetIncome | src/AccountingSystem.Infrastructure/Services/ReportingService.cs:156-218 | when lines are posted to the tenant's chart, the grand total is the net income of the window's lines |
| StatementProofs.BalanceSheetLines | src/AccountingSystem.Infrastructure/Services/ReportingService.cs:224-297 | asset amounts are debit − credit, liability and equity amounts credit − debit, one line per nonzero account of the section's type |
| StatementProofs.BalanceSheetRetainedEarnings | src/AccountingSystem.Infrastructure/Services/ReportingService.cs:299-349 | sections Assets, Liabilities, Equity; equity gets the line {0, "Net Income (Retained Earnings)", "RE"} carrying all-history net income to the date exactly when that income is nonzero, and its total grows by it; grand total = A − (L + E) |
| StatementProofs.BalanceSheetBalances | src/AccountingSystem.Infrastructure/Services/ReportingService.cs:349-350 | when every visible voucher balances and every visible line is posted to the tenant's chart, the grand total is 0 |
| StatementProofs.RetainedEarningsIsIncomeToDate | src/AccountingSystem.Infrastructure/Services/ReportingService.cs:299-329 | when no visible voucher precedes the start date, the retained-earnings figure is the income statement's grand total from that date to the balance-sheet date |
| Postings.Select | src/AccountingSystem.Infrastructure/Services/ReportingService.cs:91-95 | a report reads exactly the lines that satisfy its query, in store order |
| Postings.SelectSeesOnlyApproved | src/AccountingSystem.Infrastructure/Services/ReportingService.cs:94 | a report query gives the same lines when every voucher that is not Approved is removed |
| VisibilityProofs.LedgerSeesOnlyApproved | src/AccountingSystem.Infrastructure/Services/ReportingService.cs:28-48 | the ledger is unchanged by removing every voucher that is not Approved |
| VisibilityProofs.TrialBalanceSeesOnlyApproved | src/AccountingSystem.Infrastructure/Services/ReportingService.cs:91-102 | the trial balance is unchanged by removing every voucher that is not Approved |
| VisibilityProofs.IncomeStatementSeesOnlyApproved | src/AccountingSystem.Infrastructure/Services/ReportingService.cs:156-168 | the income statement is unchanged by removing every voucher that is not Approved |
| VisibilityProofs.BalanceSheetSeesOnlyApproved | src/AccountingSystem.Infrastructure/Services/ReportingService.cs:233-318 | the balance sheet is unchanged by removing every voucher that is not Approved |
| VisibilityProofs.ReportsDependOnlyOnApproved | src/AccountingSystem.Infrastructure/Services/ReportingService.cs:18-354 | two stores with the same chart and the same Approved vouchers give the same four reports, whatever Draft or Verified vouchers they hold |
| Sorting.Sort | src/AccountingSystem.Infrastructure/Services/ReportingService.cs:141 | `OrderBy` returns a permutation of its input |
| Sorting.SortSorted | src/AccountingSystem.Infrastructure/Services/ReportingService.cs:46-47 | `OrderBy` on a total preorder returns a sorted sequence |
| Sorting.SortStable | src/AccountingSystem.Infrastructure/Services/ReportingService.cs:46-47 | `OrderBy` is stable: the elements that tie with any value come out in their input order |
| Sorting.SortKeepsSum | src/AccountingSystem.Infrastructure/Services/ReportingService.cs:141-143 | sorting the entries keeps every column sum |
| Entities.CopyLines | src/AccountingSystem.Application/Services/VoucherService.cs:47-54 | request lines are copied one to one and in order, keeping account, subsidiary, amounts and narration |
| Entities.CopyLinesTotals | src/AccountingSystem.Application/Services/VoucherService.cs:47-54 | copying keeps both column totals, so a balanced request gives a balanced voucher |
| Entities.FindVoucherIndex | src/AccountingSystem.Infrastructure/Services/VoucherService.cs:91-93 | finds the first voucher with the id, and nothing only when none has it |
| AppVoucherService.CheckLines | src/AccountingSystem.Application/Services/VoucherService.cs:23-34 | the check fails exactly when Σdebit ≠ Σcredit, with "Debit and Credit totals must match."; an empty request passes |
| AppVoucherService.Create | src/AccountingSystem.Application/Services/VoucherService.cs:20-80 | fails exactly when the request is unbalanced, changing nothing; otherwise stores a balanced Draft with the request's header and a line-for-line copy, and appends one Draft → Draft "Created" record |
| AppVoucherService.Verify | src/AccountingSystem.Application/Services/VoucherService.cs:82-107 | missing id: not found; not Draft: invalid operation; either way nothing changes; otherwise the voucher becomes Verified with verifier and time, nothing else of it changes, and one Draft → Verified record is appended |
| AppVoucherService.Approve | src/AccountingSystem.Application/Services/VoucherService.cs:109-134 | succeeds only from Verified, setting Approved with approver and time and appending one Verified → Approved record; failures change nothing |
| AppVoucherService.Update | src/AccountingSystem.Application/Services/VoucherService.cs:142-204 | checks not found, then not Draft, then unbalanced, changing nothing on failure; otherwise rewrites the header and every line, keeps number, tenant and creation, stays Draft and balanced, and appends a Draft → Draft "Updated" record |
| AppVoucherService.GetAll | src/AccountingSystem.Application/Services/VoucherService.cs:137-140 | lists exactly the stored vouchers stamped with the tenant |
| InfraVoucherService.SequenceCount | src/AccountingSystem.Infrastructure/Services/VoucherService.cs:32-34 | the count is at most the number of stored vouchers, and zero exactly when no voucher has the branch and type (what it counts is fixed by SequenceCountSnoc) |
| InfraVoucherService.VoucherNumberSequence | src/AccountingSystem.Infrastructure/Services/VoucherService.cs:35 | the number is the type name, branch code and year followed by a zero-padded sequence of at least six digits that reads back as the sequence; numbers of one type, branch and year are equal exactly when their sequences are |
| InfraVoucherService.SequenceCountSnoc | src/AccountingSystem.Infrastructure/Services/VoucherService.cs:32-34 | the count grows by one exactly for a voucher of the same branch and type, so a voucher's sequence is 1 + the number of earlier vouchers of its branch and type |
| InfraVoucherService.NumbersOfTypesDiffer | src/AccountingSystem.Infrastructure/Services/VoucherService.cs:35 | numbers of different voucher types never collide, whatever the branch, year and sequence, because the type names of VoucherEnums.cs differ |
| Text.PadDigitsRoundTrip | src/AccountingSystem.Infrastructure/Services/VoucherService.cs:35 | `:D6` padding never changes the value read back |
| Text.Extension | src/AccountingSystem.Infrastructure/Services/VoucherService.cs:41 | the extension is the suffix of the file-name part from its last '.', or empty when that part has no '.' or ends with one |
| Text.Lower | src/AccountingSystem.Infrastructure/Services/VoucherService.cs:41 | lower-casing keeps the length and maps each character |
| InfraVoucherService.AttachmentPath | src/AccountingSystem.Infrastructure/Services/VoucherService.cs:37-56 | only a stream with a non-empty name is checked; it is refused exactly when its lower-cased extension is not .pdf, .jpg, .jpeg or .png; with no upload the path is null |
| InfraVoucherService.AcceptedAttachment | src/AccountingSystem.Infrastructure/Services/VoucherService.cs:41-55 | an accepted upload is stored as /uploads/vouchers/{guid}{ext} with ext one of the four allowed extensions, matching the uploaded name's ending up to case |
| InfraVoucherService.CreateAsWritten | src/AccountingSystem.Infrastructure/Services/VoucherService.cs:24-87 | fails exactly on a missing branch ("Branch not found", checked first) or a refused attachment, changing nothing; otherwise adds a Draft with fiscal year 1, the next number in the branch/type sequence, the attachment path and a line copy, with TenantId left 0 and no balance check |
| InfraVoucherService.Create | src/AccountingSystem.Infrastructure/Services/VoucherService.cs:26-29 | the same call with the voucher stamped with its branch's tenant: same failures, same voucher otherwise |
| InfraVoucherService.Verify | src/AccountingSystem.Infrastructure/Services/VoucherService.cs:89-109 | succeeds only from Draft, setting Verified, verifier and last-modified; failures change nothing; no log |
| InfraVoucherService.Approve | src/AccountingSystem.Infrastructure/Services/VoucherService.cs:111-131 | succeeds only from Verified, setting Approved, approver and last-modified; failures change nothing; no log |
| InfraVoucherService.Update | src/AccountingSystem.Infrastructure/Services/VoucherService.cs:144-182 | succeeds only for a Draft: rewrites the header, replaces every line and keeps the number and status, with no balance check; failures change nothing |
| InfraVoucherService.GetAllVouchersSpec | src/AccountingSystem.Infrastructure/Services/VoucherService.cs:133-142 | lists exactly the vouchers whose branch belongs to the tenant, each as often as stored, newest first |
| Workflow.AppStepsFollowWorkflow | src/AccountingSystem.Application/Services/VoucherService.cs:82-204 | every successful verify, approve or update of the application service moves the voucher Draft → Verified, Verified → Approved or Draft → Draft, and the store then holds the new status |
| Workflow.InfraStepsFollowWorkflow | src/AccountingSystem.Infrastructure/Services/VoucherService.cs:89-182 | the same allowed steps and stored status for the infrastructure service's verify, approve and update |
| Workflow.DraftCannotBeApproved | src/AccountingSystem.Application/Services/VoucherService.cs:114-115 | approving a Draft fails in both services and leaves the store as it was: no state is skipped |
| Workflow.ApprovedIsFinal | src/AccountingSystem.Application/Services/VoucherService.cs:87-88 | an Approved voucher can be neither verified, approved nor edited by either service, and the store is left as it was |
| Workflow.ReplaceKeepsAudited | src/AccountingSystem.Application/Services/VoucherService.cs:90-104 | overwriting a voucher and logging its step keeps every voucher's history a chain from creation that ends in its current status |
| Workflow.AppCreateKeepsAudited | src/AccountingSystem.Application/Services/VoucherService.cs:57-68 | create keeps the audit trail complete |
| Workflow.AppVerifyKeepsAudited | src/AccountingSystem.Application/Services/VoucherService.cs:95-104 | verify keeps the audit trail complete |
| Workflow.AppApproveKeepsAudited | src/AccountingSystem.Application/Services/VoucherService.cs:122-131 | approve keeps the audit trail complete |
| Workflow.AppUpdateKeepsAudited | src/AccountingSystem.Application/Services/VoucherService.cs:192-201 | update keeps the audit trail complete |
| Workflow.AppKeepsBalanced | src/AccountingSystem.Application/Services/VoucherService.cs:23-34 | every call of the application service keeps all stored vouchers balanced |
| Workflow.AppCreateKeepsBalanced | src/AccountingSystem.Application/Services/VoucherService.cs:20-80 | a create with a fresh id keeps all stored vouchers balanced, since only a balanced request is stored |
| Workflow.BalancedStoreReportsBalance | src/AccountingSystem.Infrastructure/Services/ReportingService.cs:142-143 | in a store of balanced vouchers whose lines are posted to the tenant's chart, the trial balance columns agree and the balance sheet's check total is 0 |
| Workflow.InfraAcceptsUnbalanced | src/AccountingSystem.Infrastructure/Services/VoucherService.cs:58-81 | an unbalanced request is refused by the application service but stored as an unbalanced voucher by the infrastructure service's create and update |
| Workflow.InfraCreateAcceptsUnbalanced | src/AccountingSystem.Infrastructure/Services/VoucherService.cs:24-84 | given a known branch and an accepted attachment, the corrected infrastructure create stores an unbalanced request as an unbalanced voucher |
| Workflow.InfraUpdateAcceptsUnbalanced | src/AccountingSystem.Infrastructure/Services/VoucherService.cs:144-182 | updating a Draft with an unbalanced request succeeds and leaves an unbalanced voucher in the store |
| Workflow.InfraUnbalancesTrialBalance | src/AccountingSystem.Infrastructure/Services/VoucherService.cs:58-84 | a one-sided voucher created through the corrected infrastructure create, then verified and approved, leaves the trial balance at debit 100, credit 0 |
| Workflow.VoucherNumberReused | src/AccountingSystem.Infrastructure/Services/VoucherService.cs:32-35 | after two journals and a retype of the first to Payment, the next journal gets the second journal's number |
| Workflow.AsWrittenApprovedVoucherUnreported | src/AccountingSystem.Infrastructure/Services/VoucherService.cs:58-81 | as written, a voucher created, verified and approved is listed for its branch's tenant, yet none of its lines reaches that tenant's reports |
| Workflow.ApprovedVoucherReported | src/AccountingSystem.Infrastructure/Services/VoucherService.cs:26-29 | with the tenant stamped, every line of such a voucher dated on or before the report date is read by that tenant's reports |

## Left out

- EF Core and async plumbing are not modelled: `Include`, change tracking,
  `SaveChangesAsync` and the repositories. Stores are immutable sequences.
- Identity generation is a parameter. The new voucher's id is `newId`, and
  create requires it to be fresh.
- Clocks and GUIDs are parameters: `now`, the local year, the GUID-derived
  placeholder number of the application service, and the GUID naming a
  stored attachment.
- `DateTime.SpecifyKind` in the application service is not modelled, because
  dates are plain integers.
- Attachment file I/O is not modelled: directory creation, the file stream
  and the copy. Only the stored path is kept.
- Text.Extension: only '/' and '\\' count as directory separators. The
  Windows volume separator ':' and platform differences of
  `Path.GetExtension` are not modelled.
- Text.Lower: `ToLowerInvariant` is modelled for ASCII letters only.
- Atomicity is not modelled. The application service writes the voucher and
  its log record as two separate commits, and a crash in between is a
  concurrency concern outside a sequential model.
- Trial-balance codes compare by plain character order, not by the culture
  comparison of `OrderBy`.
- Reporting.LedgerOrder: ledger voucher numbers that tie on date also
  compare by character code, that is, a C collation is assumed. The ledger
  query is ordered inside PostgreSQL (ReportingService.cs:46-47, with
  `UseNpgsql` in DependencyInjection.cs), so ties follow the database
  collation. For example, `Journal-HQ-2025-000001` sorts before
  `Journal-ho-2025-000001` by character code, but after it under an en_US
  collation.
- Ties keep store order (`Sorting.SortStable`), and store order stands for the database's row
  order, which SQL leaves unspecified.
- Decimal overflow and scale are not modelled. Amounts are unbounded
  integers.
- `GetVoucherByIdAsync` of both services is a plain lookup and is not
  modelled as an operation.
- Detail-line creation times are not modelled. In the infrastructure
  service the lines record their creator, and the model keeps that.
- Controllers are not modelled: their hard-coded actors and default tenant,
  dependency injection, migrations and seeding. Users, employees and tenants
  are left out too.
- The front end is not modelled.
- AppVoucherService.Create: the new voucher's TenantId stays 0, as written.
  This is the same missing stamp as in the finding below. The application
  service is given no branch or tenant to stamp, so no correction is
  modelled there.
- Where the system's documentation and the code disagree, the model follows
  the code:
  - create accepts a request with no lines (0 = 0);
  - there is no check that subsidiary ledgers are required;
  - there is no Reject transition;
  - errors are the exception kinds the code throws.

## Findings

| source | as written | input that shows it | evidently intended | confidence | as-written member | corrected member |
|---|---|---|---|---|---|---|
| src/AccountingSystem.Infrastructure/Services/VoucherService.cs:26-29 | the branch is looked up to determine the tenant, but the new voucher's TenantId is never assigned and stays 0, while every report filters on the voucher's TenantId | a branch of tenant 7; create a voucher on it, verify it, approve it: it is listed for tenant 7, but none of its lines is in any tenant-7 report | set the voucher's TenantId to the branch's TenantId | medium, not executed: the services write to `Vouchers` and `ChartOfAccounts`, which the ApplicationDbContext.cs at hand does not declare, so the compiled context may differ; but that file leaves multi-tenancy to "later" (lines 19-20) and has no save hook, and other services stamp TenantId by hand (TenantService.cs:24, EmployeeService.cs:31) | Workflow.AsWrittenApprovedVoucherUnreported | Workflow.ApprovedVoucherReported |

The as-written create is `InfraVoucherService.CreateAsWritten`. The corrected
create, `InfraVoucherService.Create`, differs from it only in the tenant
stamp. The corrected create is the one the rest of the model uses, including
the worked trial-balance case.
