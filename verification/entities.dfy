/** The persistent entities (vouchers, their detail lines, the chart of
    accounts, branches and the workflow log), the voucher request DTO, and
    the store that holds them. Money is an integer count of minor units;
    dates and timestamps are integers. */
module Entities {
  import opened Results
  import opened Enums

  /** A chart-of-accounts node. `tenantId` scopes the account. */
  datatype Account = Account(
    id: int,
    tenantId: int,
    code: string,
    name: string,
    accountType: AccountType,
    level: int,
    parentId: Option<int>,
    isControlAccount: bool,
    isActive: bool)

  datatype Branch = Branch(id: int, tenantId: int, name: string, code: string)

  /** One debit/credit line of a voucher */
  datatype Detail = Detail(
    accountId: int,
    subsidiaryLedgerId: Option<int>,
    debit: int,
    credit: int,
    lineNarration: Option<string>,
    createdBy: Option<string>)

  datatype Voucher = Voucher(
    id: int,
    tenantId: int,
    date: int,
    voucherNo: string,
    referenceNo: Option<string>,
    narration: Option<string>,
    attachmentPath: Option<string>,
    voucherType: VoucherType,
    status: VoucherStatus,
    branchId: int,
    fiscalYearId: int,
    createdBy: Option<string>,
    createdAt: int,
    lastModifiedBy: Option<string>,
    lastModifiedAt: Option<int>,
    verifiedBy: Option<string>,
    verifiedAt: Option<int>,
    approvedBy: Option<string>,
    approvedAt: Option<int>,
    details: seq<Detail>)

  /** One audit-trail record of a workflow action */
  datatype LogEntry = LogEntry(
    voucherId: int,
    fromStatus: VoucherStatus,
    toStatus: VoucherStatus,
    actionBy: string,
    actionDate: int,
    comment: Option<string>)

  datatype DetailDto = DetailDto(
    accountId: int,
    subsidiaryLedgerId: Option<int>,
    debit: int,
    credit: int,
    lineNarration: Option<string>)

  /** The create/update request */
  datatype VoucherDto = VoucherDto(
    date: int,
    referenceNo: Option<string>,
    narration: Option<string>,
    voucherType: VoucherType,
    branchId: int,
    details: seq<DetailDto>)

  /** The database: every table the core reads or writes */
  datatype Db = Db(
    accounts: seq<Account>,
    branches: seq<Branch>,
    vouchers: seq<Voucher>,
    log: seq<LogEntry>)

  /** What a service call leaves behind: the store after the call and the
      call's result. A call that throws has an `Err` result. */
  datatype Effect = Effect(store: Db, result: Result<Voucher>)

  // ---------------------------------------------------------------------
  // Amounts

  datatype Side = DebitSide | CreditSide

  function LineAmount(d: Detail, side: Side): int {
    if side == DebitSide then d.debit else d.credit
  }

  function DtoAmount(d: DetailDto, side: Side): int {
    if side == DebitSide then d.debit else d.credit
  }

  /** Sum of one column of a voucher's lines */
  function DetailsTotal(ds: seq<Detail>, side: Side): int {
    if |ds| == 0 then 0 else LineAmount(ds[0], side) + DetailsTotal(ds[1..], side)
  }

  /** Sum of one column of a request's lines */
  function DtoTotal(ds: seq<DetailDto>, side: Side): int {
    if |ds| == 0 then 0 else DtoAmount(ds[0], side) + DtoTotal(ds[1..], side)
  }

  /** The double-entry rule: total debit equals total credit */
  predicate Balanced(v: Voucher) {
    DetailsTotal(v.details, DebitSide) == DetailsTotal(v.details, CreditSide)
  }

  predicate DtoBalanced(ds: seq<DetailDto>) {
    DtoTotal(ds, DebitSide) == DtoTotal(ds, CreditSide)
  }

  // ---------------------------------------------------------------------
  // Copying request lines into detail lines

  function ToDetail(d: DetailDto, createdBy: Option<string>): Detail {
    Detail(d.accountId, d.subsidiaryLedgerId, d.debit, d.credit, d.lineNarration, createdBy)
  }

  /** The `dto.Details.Select(d => new VoucherDetail { ... })` projection */
  function CopyLines(ds: seq<DetailDto>, createdBy: Option<string>): (r: seq<Detail>)
    ensures |r| == |ds|
    ensures forall i :: 0 <= i < |ds| ==> r[i] == ToDetail(ds[i], createdBy)
  {
    if |ds| == 0 then [] else [ToDetail(ds[0], createdBy)] + CopyLines(ds[1..], createdBy)
  }

  /** Copying keeps both column totals, so it keeps the balance */
  lemma {:induction false} CopyLinesTotals(ds: seq<DetailDto>, createdBy: Option<string>, side: Side)
    ensures DetailsTotal(CopyLines(ds, createdBy), side) == DtoTotal(ds, side)
    decreases |ds|
  {
    if |ds| > 0 {
      var r := CopyLines(ds, createdBy);
      assert r[1..] == CopyLines(ds[1..], createdBy);
      CopyLinesTotals(ds[1..], createdBy, side);
    }
  }

  // ---------------------------------------------------------------------
  // Lookups (the first row matching, as `FirstOrDefault` does)

  function FindVoucherIndex(vs: seq<Voucher>, id: int): (r: Option<nat>)
    ensures r.Some? ==> r.value < |vs| && vs[r.value].id == id
    ensures r.Some? ==> forall j :: 0 <= j < r.value ==> vs[j].id != id
    ensures r.None? ==> forall j :: 0 <= j < |vs| ==> vs[j].id != id
  {
    if |vs| == 0 then None
    else if vs[0].id == id then Some(0)
    else
      match FindVoucherIndex(vs[1..], id)
      case None => None
      case Some(k) => Some(k + 1)
  }

  function FindBranch(bs: seq<Branch>, id: int): (r: Option<Branch>)
    ensures r.Some? ==> r.value in bs && r.value.id == id
    ensures r.None? <==> forall j :: 0 <= j < |bs| ==> bs[j].id != id
  {
    if |bs| == 0 then None
    else if bs[0].id == id then Some(bs[0])
    else FindBranch(bs[1..], id)
  }

  predicate VoucherIdsUnique(vs: seq<Voucher>) {
    forall i, j :: 0 <= i < j < |vs| ==> vs[i].id != vs[j].id
  }

  predicate AccountIdsUnique(accounts: seq<Account>) {
    forall i, j :: 0 <= i < j < |accounts| ==> accounts[i].id != accounts[j].id
  }

  predicate HasVoucherId(vs: seq<Voucher>, id: int) {
    exists j :: 0 <= j < |vs| && vs[j].id == id
  }
}
