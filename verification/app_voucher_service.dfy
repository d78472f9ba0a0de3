/** The application-layer voucher service: create, verify, approve, update
    and list vouchers through the repositories, appending a workflow-log
    record for every change. Create and update refuse a request whose debit
    and credit totals differ. */
module AppVoucherService {
  import opened Results
  import opened Enums
  import opened Entities

  const UnbalancedMessage: string := "Debit and Credit totals must match."

  /** The balance check of create and update. The outer test also fires for
      an empty request, but the inner one then finds equal (zero) totals,
      so an empty request passes. */
  function CheckLines(ds: seq<DetailDto>): (r: Result<()>)
    ensures r.Ok? <==> DtoBalanced(ds)
    ensures r.Err? ==> r.error == InvalidOperation(UnbalancedMessage)
    ensures |ds| == 0 ==> r.Ok?
  {
    if |ds| == 0 || DtoTotal(ds, DebitSide) != DtoTotal(ds, CreditSide) then
      if DtoTotal(ds, DebitSide) != DtoTotal(ds, CreditSide) then Err(InvalidOperation(UnbalancedMessage))
      else Ok(())
    else Ok(())
  }

  /** The store after one voucher row is overwritten and one log record added */
  function Store(db: Db, i: nat, v: Voucher, entry: LogEntry): Db
    requires i < |db.vouchers|
  {
    db.(vouchers := db.vouchers[i := v], log := db.log + [entry])
  }

  /** `CreateVoucherAsync`. `newId` is the identity the database assigns,
      `voucherNo` the placeholder number (the first eight characters of a
      fresh GUID, upper-cased) and `now` the clock. The voucher's TenantId
      is never assigned, so it keeps the default 0. */
  function Create(db: Db, dto: VoucherDto, createdBy: string, newId: int, voucherNo: string, now: int): (e: Effect)
    requires !HasVoucherId(db.vouchers, newId)
    ensures e.result.Err? <==> !DtoBalanced(dto.details)
    ensures e.result.Err? ==> e.store == db && e.result.error == InvalidOperation(UnbalancedMessage)
    ensures e.result.Ok? ==>
      var v := e.result.value;
      && e.store == db.(vouchers := db.vouchers + [v], log := db.log + [LogEntry(newId, Draft, Draft, createdBy, now, Some("Created"))])
      && v.id == newId && v.status == Draft && Balanced(v)
      && v.date == dto.date && v.referenceNo == dto.referenceNo && v.narration == dto.narration
      && v.voucherType == dto.voucherType && v.branchId == dto.branchId
      && v.voucherNo == voucherNo && v.tenantId == 0 && v.fiscalYearId == 0 && v.attachmentPath.None?
      && v.createdBy == Some(createdBy) && v.createdAt == now
      && v.lastModifiedBy.None? && v.lastModifiedAt.None?
      && v.verifiedBy.None? && v.verifiedAt.None? && v.approvedBy.None? && v.approvedAt.None?
      && |v.details| == |dto.details|
      && (forall k :: 0 <= k < |v.details| ==> v.details[k] == ToDetail(dto.details[k], None))
  {
    match CheckLines(dto.details)
    case Err(err) => Effect(db, Err(err))
    case Ok(_) =>
      CopyLinesTotals(dto.details, None, DebitSide);
      CopyLinesTotals(dto.details, None, CreditSide);
      var v := Voucher(newId, 0, dto.date, voucherNo, dto.referenceNo, dto.narration, None, dto.voucherType,
                       Draft, dto.branchId, 0, Some(createdBy), now, None, None, None, None, None, None,
                       CopyLines(dto.details, None));
      Effect(db.(vouchers := db.vouchers + [v], log := db.log + [LogEntry(newId, Draft, Draft, createdBy, now, Some("Created"))]),
             Ok(v))
  }

  /** `VerifyVoucherAsync`: Draft -> Verified, recording who and when */
  function Verify(db: Db, id: int, verifiedBy: string, now: int): (e: Effect)
    ensures e.result.Err? <==> !HasVoucherId(db.vouchers, id) || db.vouchers[FindVoucherIndex(db.vouchers, id).value].status != Draft
    ensures e.result.Err? ==> e.store == db
    ensures e.result.Err? ==>
      e.result.error == (if HasVoucherId(db.vouchers, id) then InvalidOperation("Only Draft vouchers can be verified.")
                         else KeyNotFound("Voucher not found"))
    ensures e.result.Ok? ==>
      var i := FindVoucherIndex(db.vouchers, id).value;
      var v := e.result.value;
      && e.store == Store(db, i, v, LogEntry(id, Draft, Verified, verifiedBy, now, Some("Verified")))
      && v == db.vouchers[i].(status := Verified, verifiedBy := Some(verifiedBy), verifiedAt := Some(now))
  {
    match FindVoucherIndex(db.vouchers, id)
    case None => Effect(db, Err(KeyNotFound("Voucher not found")))
    case Some(i) =>
      var current := db.vouchers[i];
      if current.status != Draft then Effect(db, Err(InvalidOperation("Only Draft vouchers can be verified.")))
      else
        var v := current.(status := Verified, verifiedBy := Some(verifiedBy), verifiedAt := Some(now));
        Effect(Store(db, i, v, LogEntry(id, current.status, Verified, verifiedBy, now, Some("Verified"))), Ok(v))
  }

  /** `ApproveVoucherAsync`: Verified -> Approved, recording who and when */
  function Approve(db: Db, id: int, approvedBy: string, now: int): (e: Effect)
    ensures e.result.Err? <==> !HasVoucherId(db.vouchers, id) || db.vouchers[FindVoucherIndex(db.vouchers, id).value].status != Verified
    ensures e.result.Err? ==> e.store == db
    ensures e.result.Err? ==>
      e.result.error == (if HasVoucherId(db.vouchers, id) then InvalidOperation("Only Verified vouchers can be approved.")
                         else KeyNotFound("Voucher not found"))
    ensures e.result.Ok? ==>
      var i := FindVoucherIndex(db.vouchers, id).value;
      var v := e.result.value;
      && e.store == Store(db, i, v, LogEntry(id, Verified, Approved, approvedBy, now, Some("Approved")))
      && v == db.vouchers[i].(status := Approved, approvedBy := Some(approvedBy), approvedAt := Some(now))
  {
    match FindVoucherIndex(db.vouchers, id)
    case None => Effect(db, Err(KeyNotFound("Voucher not found")))
    case Some(i) =>
      var current := db.vouchers[i];
      if current.status != Verified then Effect(db, Err(InvalidOperation("Only Verified vouchers can be approved.")))
      else
        var v := current.(status := Approved, approvedBy := Some(approvedBy), approvedAt := Some(now));
        Effect(Store(db, i, v, LogEntry(id, current.status, Approved, approvedBy, now, Some("Approved"))), Ok(v))
  }

  /** `UpdateVoucherAsync`: rewrites the header and replaces every line of a
      Draft voucher. Checks, in order: the voucher exists, it is a Draft,
      the new lines balance. */
  function Update(db: Db, id: int, dto: VoucherDto, updatedBy: string, now: int): (e: Effect)
    ensures e.result.Err? <==>
      || !HasVoucherId(db.vouchers, id)
      || db.vouchers[FindVoucherIndex(db.vouchers, id).value].status != Draft
      || !DtoBalanced(dto.details)
    ensures e.result.Err? ==> e.store == db
    ensures e.result.Err? ==>
      e.result.error
      == (if !HasVoucherId(db.vouchers, id) then KeyNotFound("Voucher not found")
          else if db.vouchers[FindVoucherIndex(db.vouchers, id).value].status != Draft then InvalidOperation("Only Draft vouchers can be edited.")
          else InvalidOperation(UnbalancedMessage))
    ensures e.result.Ok? ==>
      var i := FindVoucherIndex(db.vouchers, id).value;
      var before := db.vouchers[i];
      var v := e.result.value;
      && e.store == Store(db, i, v, LogEntry(id, Draft, Draft, updatedBy, now, Some("Updated")))
      && v.status == Draft && Balanced(v)
      && v.id == before.id && v.voucherNo == before.voucherNo && v.tenantId == before.tenantId
      && v.createdBy == before.createdBy && v.createdAt == before.createdAt
      && v.fiscalYearId == before.fiscalYearId && v.attachmentPath == before.attachmentPath
      && v.verifiedBy == before.verifiedBy && v.verifiedAt == before.verifiedAt
      && v.approvedBy == before.approvedBy && v.approvedAt == before.approvedAt
      && v.date == dto.date && v.referenceNo == dto.referenceNo && v.narration == dto.narration
      && v.voucherType == dto.voucherType && v.branchId == dto.branchId
      && v.lastModifiedBy == Some(updatedBy) && v.lastModifiedAt == Some(now)
      && |v.details| == |dto.details|
      && (forall k :: 0 <= k < |v.details| ==> v.details[k] == ToDetail(dto.details[k], None))
  {
    match FindVoucherIndex(db.vouchers, id)
    case None => Effect(db, Err(KeyNotFound("Voucher not found")))
    case Some(i) =>
      var before := db.vouchers[i];
      if before.status != Draft then Effect(db, Err(InvalidOperation("Only Draft vouchers can be edited.")))
      else
        match CheckLines(dto.details)
        case Err(err) => Effect(db, Err(err))
        case Ok(_) =>
          CopyLinesTotals(dto.details, None, DebitSide);
          CopyLinesTotals(dto.details, None, CreditSide);
          var v := before.(date := dto.date, referenceNo := dto.referenceNo, narration := dto.narration,
                           voucherType := dto.voucherType, branchId := dto.branchId,
                           lastModifiedBy := Some(updatedBy), lastModifiedAt := Some(now),
                           details := CopyLines(dto.details, None));
          Effect(Store(db, i, v, LogEntry(id, before.status, before.status, updatedBy, now, Some("Updated"))), Ok(v))
  }

  /** `GetAllVouchersAsync`: the vouchers stamped with the tenant, in store order */
  function GetAll(db: Db, tenantId: int): (r: seq<Voucher>)
    ensures forall v :: v in r <==> v in db.vouchers && v.tenantId == tenantId
  {
    OfTenant(db.vouchers, tenantId)
  }

  function OfTenant(vs: seq<Voucher>, tenantId: int): (r: seq<Voucher>)
    ensures forall v :: v in r <==> v in vs && v.tenantId == tenantId
    ensures |r| <= |vs|
  {
    if |vs| == 0 then []
    else if vs[0].tenantId == tenantId then [vs[0]] + OfTenant(vs[1..], tenantId)
    else OfTenant(vs[1..], tenantId)
  }
}
