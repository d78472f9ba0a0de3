/** The infrastructure voucher service: create with a generated voucher
    number and an optional attachment, verify, approve, update and list
    vouchers directly against the database. Unlike the application service
    it writes no workflow log and never checks that debits equal credits. */
module InfraVoucherService {
  import opened Results
  import opened Enums
  import opened Entities
  import opened Sorting
  import opened Text

  const AllowedExtensions: set<string> := {".pdf", ".jpg", ".jpeg", ".png"}
  const AttachmentMessage: string := "Only PDF and Image files are allowed for attachments."
  const UploadPrefix: string := "/uploads/vouchers/"

  // ---------------------------------------------------------------------
  // Voucher numbers

  /** How many vouchers of the store share the branch and the type */
  function SequenceCount(vs: seq<Voucher>, branchId: int, t: VoucherType): (n: nat)
    ensures n <= |vs|
    ensures n == 0 <==> forall i :: 0 <= i < |vs| ==> !(vs[i].branchId == branchId && vs[i].voucherType == t)
  {
    if |vs| == 0 then 0
    else (if vs[0].branchId == branchId && vs[0].voucherType == t then 1 else 0) + SequenceCount(vs[1..], branchId, t)
  }

  /** Recording one more voucher raises the count exactly when the voucher
      belongs to the branch's sequence for that type */
  lemma {:induction false} SequenceCountSnoc(vs: seq<Voucher>, v: Voucher, branchId: int, t: VoucherType)
    ensures SequenceCount(vs + [v], branchId, t)
         == SequenceCount(vs, branchId, t) + (if v.branchId == branchId && v.voucherType == t then 1 else 0)
    decreases |vs|
  {
    if |vs| == 0 {
      assert vs + [v] == [v];
    } else {
      assert (vs + [v])[1..] == vs[1..] + [v];
      SequenceCountSnoc(vs[1..], v, branchId, t);
    }
  }

  /** `{type}-{branch code}-{year}-{sequence:D6}` */
  function VoucherNumber(t: VoucherType, branchCode: string, year: nat, sequence: nat): string {
    t.Name() + "-" + branchCode + "-" + Digits(year) + "-" + PadDigits(sequence, 6)
  }

  /** The number ends with the zero-padded sequence, from which the sequence
      reads back; so two numbers of the same type, branch and year are
      equal only when their sequences are */
  lemma VoucherNumberSequence(t: VoucherType, branchCode: string, year: nat, n1: nat, n2: nat)
    ensures
      var prefix := t.Name() + "-" + branchCode + "-" + Digits(year) + "-";
      && VoucherNumber(t, branchCode, year, n1) == prefix + PadDigits(n1, 6)
      && |PadDigits(n1, 6)| >= 6
      && DecimalValue(PadDigits(n1, 6)) == n1
    ensures VoucherNumber(t, branchCode, year, n1) == VoucherNumber(t, branchCode, year, n2) <==> n1 == n2
  {
    var prefix := t.Name() + "-" + branchCode + "-" + Digits(year) + "-";
    var s1, s2 := VoucherNumber(t, branchCode, year, n1), VoucherNumber(t, branchCode, year, n2);
    assert s1 == prefix + PadDigits(n1, 6);
    assert s2 == prefix + PadDigits(n2, 6);
    PadDigitsRoundTrip(n1, 6);
    PadDigitsRoundTrip(n2, 6);
    if s1 == s2 {
      assert PadDigits(n1, 6) == s1[|prefix|..] == s2[|prefix|..] == PadDigits(n2, 6);
    }
  }

  /** Numbers of different voucher types never collide, whatever the
      branch, year and sequence: each starts with its type's name, and the
      four names already differ in their first letter */
  lemma NumbersOfTypesDiffer(t1: VoucherType, t2: VoucherType, code1: string, code2: string,
                             year1: nat, year2: nat, n1: nat, n2: nat)
    requires t1 != t2
    ensures VoucherNumber(t1, code1, year1, n1) != VoucherNumber(t2, code2, year2, n2)
  {
    assert VoucherNumber(t1, code1, year1, n1)[0] == t1.Name()[0];
    assert VoucherNumber(t2, code2, year2, n2)[0] == t2.Name()[0];
  }

  // ---------------------------------------------------------------------
  // Attachments

  /** An attachment is handled only when a stream is given with a non-empty name */
  predicate HasUpload(hasStream: bool, name: Option<string>) {
    hasStream && name.Some? && name.value != ""
  }

  /** The stored path of an attachment, `None` when there is none. The
      stored file is named `fileStem` (a fresh GUID) plus the lower-cased
      extension of the uploaded name. */
  function AttachmentPath(hasStream: bool, name: Option<string>, fileStem: string): (r: Result<Option<string>>)
    ensures r.Err? <==> HasUpload(hasStream, name) && Lower(Extension(name.value)) !in AllowedExtensions
    ensures r.Err? ==> r.error == Argument(AttachmentMessage)
    ensures r.Ok? ==> (r.value.Some? <==> HasUpload(hasStream, name))
  {
    if HasUpload(hasStream, name) then
      var ext := Lower(Extension(name.value));
      if ext !in AllowedExtensions then Err(Argument(AttachmentMessage))
      else Ok(Some(UploadPrefix + fileStem + ext))
    else Ok(None)
  }

  /** An accepted attachment is stored under the upload directory with one
      of the four allowed extensions, which is, up to ASCII case, how the
      uploaded name ends */
  lemma AcceptedAttachment(hasStream: bool, name: Option<string>, fileStem: string)
    requires AttachmentPath(hasStream, name, fileStem).Ok?
    requires AttachmentPath(hasStream, name, fileStem).value.Some?
    ensures var ext := Lower(Extension(name.value));
      && ext in AllowedExtensions
      && AttachmentPath(hasStream, name, fileStem).value.value == UploadPrefix + fileStem + ext
      && |ext| <= |name.value| && Lower(name.value[|name.value| - |ext|..]) == ext
  {
    var n := name.value;
    var e := Extension(n);
    assert e == n[|n| - |e|..];
  }

  // ---------------------------------------------------------------------
  // Create

  /** The new voucher row. `tenantId` is what the row's TenantId ends up as. */
  function NewVoucher(dto: VoucherDto, createdBy: string, branch: Branch, tenantId: int, count: nat,
                      year: nat, path: Option<string>, newId: int, now: int): Voucher
  {
    Voucher(newId, tenantId, dto.date, VoucherNumber(dto.voucherType, branch.code, year, count + 1),
            dto.referenceNo, dto.narration, path, dto.voucherType, Draft, dto.branchId, 1,
            Some(createdBy), now, None, None, None, None, None, None,
            CopyLines(dto.details, Some(createdBy)))
  }

  /** `CreateVoucherNewAsync` as written: the branch is looked up (and must
      exist), the number is generated from the count of vouchers already in
      the branch's sequence for that type, the attachment is checked and
      stored, and the voucher is added as a Draft. The row's TenantId is
      never assigned and stays 0. `year` is the local clock's year, `now`
      the UTC clock, `fileStem` the GUID naming the stored file. */
  function CreateAsWritten(db: Db, dto: VoucherDto, createdBy: string, hasStream: bool, attachmentName: Option<string>,
                           newId: int, year: nat, fileStem: string, now: int): (e: Effect)
    requires !HasVoucherId(db.vouchers, newId)
    ensures e.result.Err? <==>
      FindBranch(db.branches, dto.branchId).None? || AttachmentPath(hasStream, attachmentName, fileStem).Err?
    ensures e.result.Err? ==> e.store == db
    ensures e.result.Err? ==>
      e.result.error == (if FindBranch(db.branches, dto.branchId).None? then Argument("Branch not found")
                         else Argument(AttachmentMessage))
    ensures e.result.Ok? ==>
      var v := e.result.value;
      var branch := FindBranch(db.branches, dto.branchId).value;
      && e.store == db.(vouchers := db.vouchers + [v])
      && v.id == newId && v.status == Draft && v.tenantId == 0 && v.fiscalYearId == 1
      && v.voucherNo == VoucherNumber(dto.voucherType, branch.code, year, SequenceCount(db.vouchers, dto.branchId, dto.voucherType) + 1)
      && v.attachmentPath == AttachmentPath(hasStream, attachmentName, fileStem).value
      && v.date == dto.date && v.referenceNo == dto.referenceNo && v.narration == dto.narration
      && v.voucherType == dto.voucherType && v.branchId == dto.branchId
      && v.createdBy == Some(createdBy) && v.createdAt == now
      && v.lastModifiedBy.None? && v.lastModifiedAt.None?
      && v.verifiedBy.None? && v.verifiedAt.None? && v.approvedBy.None? && v.approvedAt.None?
      && |v.details| == |dto.details|
      && (forall k :: 0 <= k < |v.details| ==> v.details[k] == ToDetail(dto.details[k], Some(createdBy)))
  {
    match FindBranch(db.branches, dto.branchId)
    case None => Effect(db, Err(Argument("Branch not found")))
    case Some(branch) =>
      var count := SequenceCount(db.vouchers, dto.branchId, dto.voucherType);
      match AttachmentPath(hasStream, attachmentName, fileStem)
      case Err(err) => Effect(db, Err(err))
      case Ok(path) =>
        var v := NewVoucher(dto, createdBy, branch, 0, count, year, path, newId, now);
        Effect(db.(vouchers := db.vouchers + [v]), Ok(v))
  }

  /** Create with the voucher stamped with its branch's tenant, which is
      what the branch lookup is for: every other effect is that of
      `CreateAsWritten` */
  function Create(db: Db, dto: VoucherDto, createdBy: string, hasStream: bool, attachmentName: Option<string>,
                  newId: int, year: nat, fileStem: string, now: int): (e: Effect)
    requires !HasVoucherId(db.vouchers, newId)
    ensures
      var w := CreateAsWritten(db, dto, createdBy, hasStream, attachmentName, newId, year, fileStem, now);
      && (e.result.Err? <==> w.result.Err?)
      && (e.result.Err? ==> e == w)
      && (e.result.Ok? ==>
            && e.result.value.tenantId == FindBranch(db.branches, dto.branchId).value.tenantId
            && e.result.value.(tenantId := 0) == w.result.value
            && e.store == db.(vouchers := db.vouchers + [e.result.value]))
  {
    match FindBranch(db.branches, dto.branchId)
    case None => Effect(db, Err(Argument("Branch not found")))
    case Some(branch) =>
      var count := SequenceCount(db.vouchers, dto.branchId, dto.voucherType);
      match AttachmentPath(hasStream, attachmentName, fileStem)
      case Err(err) => Effect(db, Err(err))
      case Ok(path) =>
        var v := NewVoucher(dto, createdBy, branch, branch.tenantId, count, year, path, newId, now);
        Effect(db.(vouchers := db.vouchers + [v]), Ok(v))
  }

  // ---------------------------------------------------------------------
  // Workflow

  /** `VerifyVoucherAsync`: Draft -> Verified, also stamping the last change */
  function Verify(db: Db, id: int, verifiedBy: string, now: int): (e: Effect)
    ensures e.result.Err? <==> !HasVoucherId(db.vouchers, id) || db.vouchers[FindVoucherIndex(db.vouchers, id).value].status != Draft
    ensures e.result.Err? ==> e.store == db
    ensures e.result.Err? ==>
      e.result.error == (if HasVoucherId(db.vouchers, id) then InvalidOperation("Only draft vouchers can be verified")
                         else Argument("Voucher not found"))
    ensures e.result.Ok? ==>
      var i := FindVoucherIndex(db.vouchers, id).value;
      var v := e.result.value;
      && e.store == db.(vouchers := db.vouchers[i := v])
      && v == db.vouchers[i].(status := Verified, verifiedBy := Some(verifiedBy), verifiedAt := Some(now),
                              lastModifiedBy := Some(verifiedBy), lastModifiedAt := Some(now))
  {
    match FindVoucherIndex(db.vouchers, id)
    case None => Effect(db, Err(Argument("Voucher not found")))
    case Some(i) =>
      var current := db.vouchers[i];
      if current.status != Draft then Effect(db, Err(InvalidOperation("Only draft vouchers can be verified")))
      else
        var v := current.(status := Verified, verifiedBy := Some(verifiedBy), verifiedAt := Some(now),
                          lastModifiedBy := Some(verifiedBy), lastModifiedAt := Some(now));
        Effect(db.(vouchers := db.vouchers[i := v]), Ok(v))
  }

  /** `ApproveVoucherAsync`: Verified -> Approved, also stamping the last change */
  function Approve(db: Db, id: int, approvedBy: string, now: int): (e: Effect)
    ensures e.result.Err? <==> !HasVoucherId(db.vouchers, id) || db.vouchers[FindVoucherIndex(db.vouchers, id).value].status != Verified
    ensures e.result.Err? ==> e.store == db
    ensures e.result.Err? ==>
      e.result.error == (if HasVoucherId(db.vouchers, id) then InvalidOperation("Only verified vouchers can be approved")
                         else Argument("Voucher not found"))
    ensures e.result.Ok? ==>
      var i := FindVoucherIndex(db.vouchers, id).value;
      var v := e.result.value;
      && e.store == db.(vouchers := db.vouchers[i := v])
      && v == db.vouchers[i].(status := Approved, approvedBy := Some(approvedBy), approvedAt := Some(now),
                              lastModifiedBy := Some(approvedBy), lastModifiedAt := Some(now))
  {
    match FindVoucherIndex(db.vouchers, id)
    case None => Effect(db, Err(Argument("Voucher not found")))
    case Some(i) =>
      var current := db.vouchers[i];
      if current.status != Verified then Effect(db, Err(InvalidOperation("Only verified vouchers can be approved")))
      else
        var v := current.(status := Approved, approvedBy := Some(approvedBy), approvedAt := Some(now),
                          lastModifiedBy := Some(approvedBy), lastModifiedAt := Some(now));
        Effect(db.(vouchers := db.vouchers[i := v]), Ok(v))
  }

  /** `UpdateVoucherAsync`: rewrites the header and replaces every line of a
      Draft voucher; the new lines are not checked for balance and the
      voucher number is kept even when the type or branch changes */
  function Update(db: Db, id: int, dto: VoucherDto, updatedBy: string, now: int): (e: Effect)
    ensures e.result.Err? <==> !HasVoucherId(db.vouchers, id) || db.vouchers[FindVoucherIndex(db.vouchers, id).value].status != Draft
    ensures e.result.Err? ==> e.store == db
    ensures e.result.Err? ==>
      e.result.error == (if HasVoucherId(db.vouchers, id) then InvalidOperation("Only draft vouchers can be updated")
                         else Argument("Voucher not found"))
    ensures e.result.Ok? ==>
      var i := FindVoucherIndex(db.vouchers, id).value;
      var before := db.vouchers[i];
      var v := e.result.value;
      && e.store == db.(vouchers := db.vouchers[i := v])
      && v.status == Draft && v.id == before.id && v.voucherNo == before.voucherNo
      && v.tenantId == before.tenantId && v.attachmentPath == before.attachmentPath
      && v.createdBy == before.createdBy && v.createdAt == before.createdAt
      && v.fiscalYearId == before.fiscalYearId
      && v.verifiedBy == before.verifiedBy && v.verifiedAt == before.verifiedAt
      && v.approvedBy == before.approvedBy && v.approvedAt == before.approvedAt
      && v.date == dto.date && v.referenceNo == dto.referenceNo && v.narration == dto.narration
      && v.voucherType == dto.voucherType && v.branchId == dto.branchId
      && v.lastModifiedBy == Some(updatedBy) && v.lastModifiedAt == Some(now)
      && |v.details| == |dto.details|
      && (forall k :: 0 <= k < |v.details| ==> v.details[k] == ToDetail(dto.details[k], Some(updatedBy)))
  {
    match FindVoucherIndex(db.vouchers, id)
    case None => Effect(db, Err(Argument("Voucher not found")))
    case Some(i) =>
      var before := db.vouchers[i];
      if before.status != Draft then Effect(db, Err(InvalidOperation("Only draft vouchers can be updated")))
      else
        var v := before.(date := dto.date, referenceNo := dto.referenceNo, narration := dto.narration,
                         voucherType := dto.voucherType, branchId := dto.branchId,
                         lastModifiedBy := Some(updatedBy), lastModifiedAt := Some(now),
                         details := CopyLines(dto.details, Some(updatedBy)));
        Effect(db.(vouchers := db.vouchers[i := v]), Ok(v))
  }

  // ---------------------------------------------------------------------
  // Listing

  /** The voucher's branch belongs to the tenant (a voucher whose branch is
      missing matches no tenant) */
  predicate OfTenant(branches: seq<Branch>, tenantId: int, v: Voucher) {
    var b := FindBranch(branches, v.branchId);
    b.Some? && b.value.tenantId == tenantId
  }

  function TenantVouchers(branches: seq<Branch>, vs: seq<Voucher>, tenantId: int): (r: seq<Voucher>)
    ensures forall v :: v in r <==> v in vs && OfTenant(branches, tenantId, v)
  {
    if |vs| == 0 then []
    else if OfTenant(branches, tenantId, vs[0]) then [vs[0]] + TenantVouchers(branches, vs[1..], tenantId)
    else TenantVouchers(branches, vs[1..], tenantId)
  }

  /** Newest first */
  predicate DateDescending(a: Voucher, b: Voucher) {
    a.date >= b.date
  }

  /** `GetAllVouchersAsync`: the vouchers of the tenant's branches, newest first */
  function GetAllVouchers(db: Db, tenantId: int): seq<Voucher> {
    Sort(TenantVouchers(db.branches, db.vouchers, tenantId), DateDescending)
  }

  /** The listing holds exactly the vouchers booked on the tenant's branches,
      each as often as it is stored, newest first */
  lemma GetAllVouchersSpec(db: Db, tenantId: int)
    ensures var r := GetAllVouchers(db, tenantId);
      && multiset(r) == multiset(TenantVouchers(db.branches, db.vouchers, tenantId))
      && (forall v :: v in r <==> v in db.vouchers && OfTenant(db.branches, tenantId, v))
      && (forall i, j :: 0 <= i < j < |r| ==> r[i].date >= r[j].date)
  {
    var vs := TenantVouchers(db.branches, db.vouchers, tenantId);
    var r := GetAllVouchers(db, tenantId);
    assert TotalPreorder(DateDescending);
    SortSorted(vs, DateDescending);
    forall v
      ensures v in r <==> v in vs
    {
      assert v in r <==> v in multiset(r);
      assert v in vs <==> v in multiset(vs);
    }
  }
}
