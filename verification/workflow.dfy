/** The voucher workflow across both services: which status changes a call
    can make, the audit trail the application service keeps, the double-entry
    invariant it preserves, and what the infrastructure service lets through. */
module Workflow {
  import opened Results
  import opened Enums
  import opened Entities
  import opened Postings
  import opened Reporting
  import opened TrialBalanceProofs
  import opened StatementProofs
  import App = AppVoucherService
  import Infra = InfraVoucherService

  /** The status changes the services make: editing a Draft, verifying a
      Draft, approving a Verified voucher. Nothing leads to Submitted or
      Rejected, and nothing leaves Approved. */
  predicate AllowedStep(from: VoucherStatus, to: VoucherStatus) {
    (from == Draft && (to == Draft || to == Verified)) || (from == Verified && to == Approved)
  }

  /** The stored status of voucher `id` */
  function StatusOf(vs: seq<Voucher>, id: int): Option<VoucherStatus> {
    match FindVoucherIndex(vs, id)
    case None => None
    case Some(i) => Some(vs[i].status)
  }

  lemma FindAfterReplace(vs: seq<Voucher>, i: nat, v: Voucher)
    requires i < |vs| && FindVoucherIndex(vs, vs[i].id) == Some(i) && v.id == vs[i].id
    ensures FindVoucherIndex(vs[i := v], v.id) == Some(i)
  {
  }

  // ---------------------------------------------------------------------
  // One call at a time

  /** Every successful verify, approve or edit of the application service
      moves the voucher along an allowed step, and the store then reports
      the new status */
  lemma AppStepsFollowWorkflow(db: Db, id: int, dto: VoucherDto, user: string, now: int)
    ensures var e := App.Verify(db, id, user, now);
      e.result.Ok? ==> AllowedStep(StatusOf(db.vouchers, id).value, e.result.value.status) && StatusOf(e.store.vouchers, id) == Some(Verified)
    ensures var e := App.Approve(db, id, user, now);
      e.result.Ok? ==> AllowedStep(StatusOf(db.vouchers, id).value, e.result.value.status) && StatusOf(e.store.vouchers, id) == Some(Approved)
    ensures var e := App.Update(db, id, dto, user, now);
      e.result.Ok? ==> AllowedStep(StatusOf(db.vouchers, id).value, e.result.value.status) && StatusOf(e.store.vouchers, id) == Some(Draft)
  {
    if HasVoucherId(db.vouchers, id) {
      var i := FindVoucherIndex(db.vouchers, id).value;
      var vs := db.vouchers;
      if App.Verify(db, id, user, now).result.Ok? { FindAfterReplace(vs, i, App.Verify(db, id, user, now).result.value); }
      if App.Approve(db, id, user, now).result.Ok? { FindAfterReplace(vs, i, App.Approve(db, id, user, now).result.value); }
      if App.Update(db, id, dto, user, now).result.Ok? { FindAfterReplace(vs, i, App.Update(db, id, dto, user, now).result.value); }
    }
  }

  /** The same for the infrastructure service */
  lemma InfraStepsFollowWorkflow(db: Db, id: int, dto: VoucherDto, user: string, now: int)
    ensures var e := Infra.Verify(db, id, user, now);
      e.result.Ok? ==> AllowedStep(StatusOf(db.vouchers, id).value, e.result.value.status) && StatusOf(e.store.vouchers, id) == Some(Verified)
    ensures var e := Infra.Approve(db, id, user, now);
      e.result.Ok? ==> AllowedStep(StatusOf(db.vouchers, id).value, e.result.value.status) && StatusOf(e.store.vouchers, id) == Some(Approved)
    ensures var e := Infra.Update(db, id, dto, user, now);
      e.result.Ok? ==> AllowedStep(StatusOf(db.vouchers, id).value, e.result.value.status) && StatusOf(e.store.vouchers, id) == Some(Draft)
  {
    if HasVoucherId(db.vouchers, id) {
      var i := FindVoucherIndex(db.vouchers, id).value;
      var vs := db.vouchers;
      if Infra.Verify(db, id, user, now).result.Ok? { FindAfterReplace(vs, i, Infra.Verify(db, id, user, now).result.value); }
      if Infra.Approve(db, id, user, now).result.Ok? { FindAfterReplace(vs, i, Infra.Approve(db, id, user, now).result.value); }
      if Infra.Update(db, id, dto, user, now).result.Ok? { FindAfterReplace(vs, i, Infra.Update(db, id, dto, user, now).result.value); }
    }
  }

  /** No call skips a state: a Draft cannot be approved without first being
      verified, and the refused call leaves the store as it was */
  lemma DraftCannotBeApproved(db: Db, id: int, user: string, now: int)
    requires StatusOf(db.vouchers, id) == Some(Draft)
    ensures App.Approve(db, id, user, now) == Effect(db, Err(InvalidOperation("Only Verified vouchers can be approved.")))
    ensures Infra.Approve(db, id, user, now) == Effect(db, Err(InvalidOperation("Only verified vouchers can be approved")))
  {
  }

  /** An Approved voucher is final: it can be neither edited, verified nor
      approved again, by either service, and nothing changes */
  lemma ApprovedIsFinal(db: Db, id: int, dto: VoucherDto, user: string, now: int)
    requires StatusOf(db.vouchers, id) == Some(Approved)
    ensures App.Verify(db, id, user, now).result.Err? && App.Verify(db, id, user, now).store == db
    ensures App.Approve(db, id, user, now).result.Err? && App.Approve(db, id, user, now).store == db
    ensures App.Update(db, id, dto, user, now).result.Err? && App.Update(db, id, dto, user, now).store == db
    ensures Infra.Verify(db, id, user, now).result.Err? && Infra.Verify(db, id, user, now).store == db
    ensures Infra.Approve(db, id, user, now).result.Err? && Infra.Approve(db, id, user, now).store == db
    ensures Infra.Update(db, id, dto, user, now).result.Err? && Infra.Update(db, id, dto, user, now).store == db
  {
  }

  // ---------------------------------------------------------------------
  // The audit trail of the application service

  /** The log records of one voucher, in the order they were written */
  function History(log: seq<LogEntry>, id: int): (h: seq<LogEntry>)
    ensures forall k :: 0 <= k < |h| ==> h[k].voucherId == id && h[k] in log
    ensures (forall k :: 0 <= k < |log| ==> log[k].voucherId != id) ==> h == []
  {
    if |log| == 0 then []
    else if log[0].voucherId == id then [log[0]] + History(log[1..], id)
    else History(log[1..], id)
  }

  lemma {:induction false} HistorySnoc(log: seq<LogEntry>, e: LogEntry, id: int)
    ensures History(log + [e], id) == History(log, id) + (if e.voucherId == id then [e] else [])
    decreases |log|
  {
    if |log| == 0 {
      assert log + [e] == [e];
    } else {
      assert (log + [e])[1..] == log[1..] + [e];
      HistorySnoc(log[1..], e, id);
    }
  }

  /** A history that starts with the creation record and in which every
      record continues from the previous record's status by an allowed step */
  predicate IsChain(h: seq<LogEntry>) {
    && |h| > 0
    && h[0].fromStatus == Draft && h[0].toStatus == Draft
    && (forall k :: 0 <= k < |h| ==> AllowedStep(h[k].fromStatus, h[k].toStatus))
    && (forall k :: 0 < k < |h| ==> h[k].fromStatus == h[k - 1].toStatus)
  }

  /** Voucher `v`'s history in `log` is a chain ending in its current status */
  predicate Traced(log: seq<LogEntry>, v: Voucher) {
    var h := History(log, v.id);
    IsChain(h) && h[|h| - 1].toStatus == v.status
  }

  /** Every log record belongs to a stored voucher */
  predicate LogRefersToStore(db: Db) {
    forall k :: 0 <= k < |db.log| ==> HasVoucherId(db.vouchers, db.log[k].voucherId)
  }

  /** The store's audit trail is complete: voucher ids are unique, every log
      record belongs to a stored voucher, and each voucher's history is a
      chain ending in the voucher's current status */
  predicate Audited(db: Db) {
    && VoucherIdsUnique(db.vouchers)
    && LogRefersToStore(db)
    && (forall i :: 0 <= i < |db.vouchers| ==> Traced(db.log, db.vouchers[i]))
  }

  lemma ChainExtends(h: seq<LogEntry>, e: LogEntry)
    requires IsChain(h) && e.fromStatus == h[|h| - 1].toStatus && AllowedStep(e.fromStatus, e.toStatus)
    ensures IsChain(h + [e])
  {
    var h' := h + [e];
    forall k | 0 < k < |h'|
      ensures h'[k].fromStatus == h'[k - 1].toStatus
    {
      if k < |h| { assert h'[k] == h[k] && h'[k - 1] == h[k - 1]; }
    }
  }

  /** Logging a record of a voucher extends that voucher's trace and leaves
      every other voucher's trace alone */
  lemma TracedAfterLog(log: seq<LogEntry>, before: Voucher, after: Voucher, e: LogEntry)
    requires Traced(log, before) && after.id == before.id
    requires e.voucherId == before.id && e.fromStatus == before.status && e.toStatus == after.status
    requires AllowedStep(e.fromStatus, e.toStatus)
    ensures Traced(log + [e], after)
  {
    HistorySnoc(log, e, before.id);
    ChainExtends(History(log, before.id), e);
  }

  lemma TracedOtherAfterLog(log: seq<LogEntry>, w: Voucher, e: LogEntry)
    requires Traced(log, w) && e.voucherId != w.id
    ensures Traced(log + [e], w)
  {
    HistorySnoc(log, e, w.id);
  }

  lemma RefersAfterReplace(db: Db, i: nat, v: Voucher, e: LogEntry)
    requires LogRefersToStore(db)
    requires i < |db.vouchers| && v.id == db.vouchers[i].id && e.voucherId == v.id
    ensures LogRefersToStore(App.Store(db, i, v, e))
  {
    var s := App.Store(db, i, v, e);
    forall k | 0 <= k < |s.log|
      ensures HasVoucherId(s.vouchers, s.log[k].voucherId)
    {
      if k < |db.log| {
        assert HasVoucherId(db.vouchers, db.log[k].voucherId);
        var j :| 0 <= j < |db.vouchers| && db.vouchers[j].id == db.log[k].voucherId;
        assert s.vouchers[j].id == s.log[k].voucherId;
      } else {
        assert s.vouchers[i].id == s.log[k].voucherId;
      }
    }
  }

  /** Overwriting one voucher and logging the step that took it there keeps
      the audit trail complete */
  lemma ReplaceKeepsAudited(db: Db, i: nat, v: Voucher, e: LogEntry)
    requires Audited(db)
    requires i < |db.vouchers| && v.id == db.vouchers[i].id
    requires e.voucherId == v.id && e.fromStatus == db.vouchers[i].status && e.toStatus == v.status
    requires AllowedStep(e.fromStatus, e.toStatus)
    ensures Audited(App.Store(db, i, v, e))
  {
    var s := App.Store(db, i, v, e);
    RefersAfterReplace(db, i, v, e);
    forall j | 0 <= j < |s.vouchers|
      ensures Traced(s.log, s.vouchers[j])
    {
      if j == i {
        TracedAfterLog(db.log, db.vouchers[i], v, e);
      } else {
        assert db.vouchers[j].id != v.id;
        TracedOtherAfterLog(db.log, db.vouchers[j], e);
      }
    }
  }

  lemma AppVerifyKeepsAudited(db: Db, id: int, user: string, now: int)
    requires Audited(db)
    ensures Audited(App.Verify(db, id, user, now).store)
  {
    if App.Verify(db, id, user, now).result.Ok? {
      var i := FindVoucherIndex(db.vouchers, id).value;
      ReplaceKeepsAudited(db, i, App.Verify(db, id, user, now).result.value, LogEntry(id, Draft, Verified, user, now, Some("Verified")));
    }
  }

  lemma AppApproveKeepsAudited(db: Db, id: int, user: string, now: int)
    requires Audited(db)
    ensures Audited(App.Approve(db, id, user, now).store)
  {
    if App.Approve(db, id, user, now).result.Ok? {
      var i := FindVoucherIndex(db.vouchers, id).value;
      ReplaceKeepsAudited(db, i, App.Approve(db, id, user, now).result.value, LogEntry(id, Verified, Approved, user, now, Some("Approved")));
    }
  }

  lemma AppUpdateKeepsAudited(db: Db, id: int, dto: VoucherDto, user: string, now: int)
    requires Audited(db)
    ensures Audited(App.Update(db, id, dto, user, now).store)
  {
    if App.Update(db, id, dto, user, now).result.Ok? {
      var i := FindVoucherIndex(db.vouchers, id).value;
      ReplaceKeepsAudited(db, i, App.Update(db, id, dto, user, now).result.value, LogEntry(id, Draft, Draft, user, now, Some("Updated")));
    }
  }

  /** Adding a fresh Draft together with its creation record keeps the
      audit trail complete */
  lemma AppendKeepsAudited(db: Db, v: Voucher, entry: LogEntry)
    requires Audited(db) && !HasVoucherId(db.vouchers, v.id) && v.status == Draft
    requires entry.voucherId == v.id && entry.fromStatus == Draft && entry.toStatus == Draft
    ensures Audited(db.(vouchers := db.vouchers + [v], log := db.log + [entry]))
  {
    var s := db.(vouchers := db.vouchers + [v], log := db.log + [entry]);
    AppendTraced(db, v, entry);
    AppendRefers(db, v, entry);
    forall j | 0 <= j < |s.vouchers|
      ensures Traced(s.log, s.vouchers[j])
    {
      if j < |db.vouchers| { assert s.vouchers[j] == db.vouchers[j]; }
    }
    forall i, j | 0 <= i < j < |s.vouchers|
      ensures s.vouchers[i].id != s.vouchers[j].id
    {
      if j == |db.vouchers| { assert s.vouchers[i] == db.vouchers[i]; }
    }
  }

  lemma AppendTraced(db: Db, v: Voucher, entry: LogEntry)
    requires Audited(db) && !HasVoucherId(db.vouchers, v.id) && v.status == Draft
    requires entry.voucherId == v.id && entry.fromStatus == Draft && entry.toStatus == Draft
    ensures forall j :: 0 <= j < |db.vouchers| ==> Traced(db.log + [entry], db.vouchers[j])
    ensures Traced(db.log + [entry], v)
  {
    forall j | 0 <= j < |db.vouchers|
      ensures Traced(db.log + [entry], db.vouchers[j])
    {
      TracedOtherAfterLog(db.log, db.vouchers[j], entry);
    }
    HistorySnoc(db.log, entry, v.id);
    assert forall k :: 0 <= k < |db.log| ==> db.log[k].voucherId != v.id;
  }

  lemma AppendRefers(db: Db, v: Voucher, entry: LogEntry)
    requires LogRefersToStore(db) && entry.voucherId == v.id
    ensures LogRefersToStore(db.(vouchers := db.vouchers + [v], log := db.log + [entry]))
  {
    var s := db.(vouchers := db.vouchers + [v], log := db.log + [entry]);
    forall k | 0 <= k < |s.log|
      ensures HasVoucherId(s.vouchers, s.log[k].voucherId)
    {
      if k < |db.log| {
        assert HasVoucherId(db.vouchers, db.log[k].voucherId);
        var j :| 0 <= j < |db.vouchers| && db.vouchers[j].id == db.log[k].voucherId;
        assert s.vouchers[j].id == s.log[k].voucherId;
      } else {
        assert s.vouchers[|db.vouchers|].id == s.log[k].voucherId;
      }
    }
  }

  lemma AppCreateKeepsAudited(db: Db, dto: VoucherDto, user: string, newId: int, voucherNo: string, now: int)
    requires Audited(db)
    requires !HasVoucherId(db.vouchers, newId)
    ensures Audited(App.Create(db, dto, user, newId, voucherNo, now).store)
  {
    var e := App.Create(db, dto, user, newId, voucherNo, now);
    if e.result.Ok? {
      AppendKeepsAudited(db, e.result.value, LogEntry(newId, Draft, Draft, user, now, Some("Created")));
    }
  }

  // ---------------------------------------------------------------------
  // Double entry

  predicate AllBalanced(vs: seq<Voucher>) {
    forall i :: 0 <= i < |vs| ==> Balanced(vs[i])
  }

  /** The application service only ever stores balanced vouchers */
  lemma AppCreateKeepsBalanced(db: Db, dto: VoucherDto, user: string, newId: int, voucherNo: string, now: int)
    requires AllBalanced(db.vouchers) && !HasVoucherId(db.vouchers, newId)
    ensures AllBalanced(App.Create(db, dto, user, newId, voucherNo, now).store.vouchers)
  {
    var e := App.Create(db, dto, user, newId, voucherNo, now);
    if e.result.Ok? {
      var vs := e.store.vouchers;
      assert vs == db.vouchers + [e.result.value];
      assert forall i :: 0 <= i < |db.vouchers| ==> vs[i] == db.vouchers[i];
    }
  }

  lemma ReplaceKeepsBalanced(vs: seq<Voucher>, i: nat, v: Voucher)
    requires AllBalanced(vs) && i < |vs| && Balanced(v)
    ensures AllBalanced(vs[i := v])
  {
  }

  /** The application service only ever stores balanced vouchers */
  lemma AppKeepsBalanced(db: Db, id: int, dto: VoucherDto, user: string, newId: int, voucherNo: string, now: int)
    requires AllBalanced(db.vouchers)
    ensures !HasVoucherId(db.vouchers, newId) ==> AllBalanced(App.Create(db, dto, user, newId, voucherNo, now).store.vouchers)
    ensures AllBalanced(App.Verify(db, id, user, now).store.vouchers)
    ensures AllBalanced(App.Approve(db, id, user, now).store.vouchers)
    ensures AllBalanced(App.Update(db, id, dto, user, now).store.vouchers)
  {
    if !HasVoucherId(db.vouchers, newId) {
      AppCreateKeepsBalanced(db, dto, user, newId, voucherNo, now);
    }
    if HasVoucherId(db.vouchers, id) {
      var i := FindVoucherIndex(db.vouchers, id).value;
      assert Balanced(db.vouchers[i]);
      var v := App.Verify(db, id, user, now);
      if v.result.Ok? { ReplaceKeepsBalanced(db.vouchers, i, v.result.value); }
      var a := App.Approve(db, id, user, now);
      if a.result.Ok? { ReplaceKeepsBalanced(db.vouchers, i, a.result.value); }
      var u := App.Update(db, id, dto, user, now);
      if u.result.Ok? { ReplaceKeepsBalanced(db.vouchers, i, u.result.value); }
    }
  }

  lemma AllBalancedVisible(vs: seq<Voucher>, q: Query)
    requires AllBalanced(vs)
    ensures VisibleBalanced(vs, q)
  {
    forall v | v in vs && VoucherMatches(q, v)
      ensures Balanced(v)
    {
      var i :| 0 <= i < |vs| && vs[i] == v;
    }
  }

  /** In a store whose vouchers are all balanced (every store the
      application service builds from an empty one), the trial balance's
      columns are equal and the balance sheet's bottom line is 0, provided
      account ids are unique and lines are posted to the tenant's chart */
  lemma BalancedStoreReportsBalance(db: Db, asOfDate: int, tenantId: int)
    requires AllBalanced(db.vouchers)
    requires AccountIdsUnique(db.accounts)
    requires PostedWithin(Select(AllPostings(db.vouchers), AsOfQuery(asOfDate, tenantId)), TenantChart(db.accounts, tenantId))
    ensures GetTrialBalance(db, asOfDate, tenantId).totalDebit == GetTrialBalance(db, asOfDate, tenantId).totalCredit
    ensures GetBalanceSheet(db, asOfDate, tenantId).grandTotal == 0
  {
    AllBalancedVisible(db.vouchers, AsOfQuery(asOfDate, tenantId));
    TrialBalanceBalances(db, asOfDate, tenantId);
    BalanceSheetBalances(db, asOfDate, tenantId);
  }

  // ---------------------------------------------------------------------
  // The infrastructure service

  /** The infrastructure service books whatever lines it is given: a
      one-sided request is stored as an unbalanced voucher, both on create
      and on update of a Draft, where the application service refuses it */
  lemma InfraAcceptsUnbalanced(db: Db, id: int, dto: VoucherDto, user: string, hasStream: bool, attachmentName: Option<string>,
                               newId: int, year: nat, fileStem: string, voucherNo: string, now: int)
    requires !HasVoucherId(db.vouchers, newId)
    requires !DtoBalanced(dto.details)
    ensures App.Create(db, dto, user, newId, voucherNo, now) == Effect(db, Err(InvalidOperation(App.UnbalancedMessage)))
    ensures var e := Infra.Create(db, dto, user, hasStream, attachmentName, newId, year, fileStem, now);
      FindBranch(db.branches, dto.branchId).Some? && Infra.AttachmentPath(hasStream, attachmentName, fileStem).Ok? ==>
        e.result.Ok? && !Balanced(e.result.value) && !AllBalanced(e.store.vouchers)
    ensures var e := Infra.Update(db, id, dto, user, now);
      StatusOf(db.vouchers, id) == Some(Draft) ==> e.result.Ok? && !Balanced(e.result.value) && !AllBalanced(e.store.vouchers)
  {
    InfraCreateAcceptsUnbalanced(db, dto, user, hasStream, attachmentName, newId, year, fileStem, now);
    InfraUpdateAcceptsUnbalanced(db, id, dto, user, now);
  }

  lemma InfraCreateAcceptsUnbalanced(db: Db, dto: VoucherDto, user: string, hasStream: bool, attachmentName: Option<string>,
                                     newId: int, year: nat, fileStem: string, now: int)
    requires !HasVoucherId(db.vouchers, newId)
    requires !DtoBalanced(dto.details)
    ensures var e := Infra.Create(db, dto, user, hasStream, attachmentName, newId, year, fileStem, now);
      FindBranch(db.branches, dto.branchId).Some? && Infra.AttachmentPath(hasStream, attachmentName, fileStem).Ok? ==>
        e.result.Ok? && !Balanced(e.result.value) && !AllBalanced(e.store.vouchers)
  {
    CopyLinesTotals(dto.details, Some(user), DebitSide);
    CopyLinesTotals(dto.details, Some(user), CreditSide);
    var e := Infra.Create(db, dto, user, hasStream, attachmentName, newId, year, fileStem, now);
    if e.result.Ok? {
      assert e.result.value.details == CopyLines(dto.details, Some(user));
      assert e.store.vouchers[|db.vouchers|] == e.result.value;
    }
  }

  lemma InfraUpdateAcceptsUnbalanced(db: Db, id: int, dto: VoucherDto, user: string, now: int)
    requires !DtoBalanced(dto.details)
    ensures var e := Infra.Update(db, id, dto, user, now);
      StatusOf(db.vouchers, id) == Some(Draft) ==> e.result.Ok? && !Balanced(e.result.value) && !AllBalanced(e.store.vouchers)
  {
    CopyLinesTotals(dto.details, Some(user), DebitSide);
    CopyLinesTotals(dto.details, Some(user), CreditSide);
    var u := Infra.Update(db, id, dto, user, now);
    if u.result.Ok? {
      var i := FindVoucherIndex(db.vouchers, id).value;
      assert u.result.value.details == CopyLines(dto.details, Some(user));
      assert u.store.vouchers[i] == u.result.value;
    }
  }

  lemma LinesInAllPostings(vs: seq<Voucher>, i: nat, p: Posting)
    requires i < |vs| && p in LinesOf(vs[i])
    ensures p in AllPostings(vs)
    decreases i
  {
    if i > 0 {
      LinesInAllPostings(vs[1..], i - 1, p);
    }
  }

  /** A voucher created by the infrastructure service, verified and approved */
  function InfraPosted(db: Db, dto: VoucherDto, user: string, hasStream: bool, attachmentName: Option<string>,
                       newId: int, year: nat, fileStem: string, now: int, stampTenant: bool): Effect
    requires !HasVoucherId(db.vouchers, newId)
  {
    var created :=
      if stampTenant then Infra.Create(db, dto, user, hasStream, attachmentName, newId, year, fileStem, now)
      else Infra.CreateAsWritten(db, dto, user, hasStream, attachmentName, newId, year, fileStem, now);
    VerifyThenApprove(created.store, newId, user, now)
  }

  function VerifyThenApprove(db: Db, id: int, user: string, now: int): Effect {
    Infra.Approve(Infra.Verify(db, id, user, now).store, id, user, now)
  }

  /** Verifying then approving a Draft succeeds and changes only its
      workflow fields, in place */
  lemma VerifyThenApproveDraft(db: Db, k: nat, user: string, now: int)
    requires k < |db.vouchers| && db.vouchers[k].status == Draft
    requires FindVoucherIndex(db.vouchers, db.vouchers[k].id) == Some(k)
    ensures var e := VerifyThenApprove(db, db.vouchers[k].id, user, now);
      var before := db.vouchers[k];
      && e.result.Ok? && |e.store.vouchers| == |db.vouchers| && e.store.vouchers[k] == e.result.value
      && e.store.branches == db.branches
      && e.result.value == before.(status := Approved, verifiedBy := Some(user), verifiedAt := Some(now),
                                   approvedBy := Some(user), approvedAt := Some(now),
                                   lastModifiedBy := Some(user), lastModifiedAt := Some(now))
  {
    var id := db.vouchers[k].id;
    var verified := Infra.Verify(db, id, user, now);
    FindAfterReplace(db.vouchers, k, verified.result.value);
  }

  lemma CreatedIsDraftAtEnd(db: Db, e: Effect, newId: int)
    requires !HasVoucherId(db.vouchers, newId)
    requires e.result.Ok? && e.result.value.id == newId && e.result.value.status == Draft
    requires e.store.vouchers == db.vouchers + [e.result.value]
    ensures var k := |db.vouchers|;
      k < |e.store.vouchers| && e.store.vouchers[k] == e.result.value
      && FindVoucherIndex(e.store.vouchers, newId) == Some(k)
  {
  }

  /** As written, a voucher created through the infrastructure service keeps
      TenantId 0: once approved it appears in its tenant's voucher listing
      (which goes by branch) but none of its lines reaches any report of
      that tenant */
  lemma AsWrittenApprovedVoucherUnreported(db: Db, dto: VoucherDto, user: string, hasStream: bool, attachmentName: Option<string>,
                                           newId: int, year: nat, fileStem: string, now: int, asOfDate: int)
    requires !HasVoucherId(db.vouchers, newId)
    requires Infra.CreateAsWritten(db, dto, user, hasStream, attachmentName, newId, year, fileStem, now).result.Ok?
    requires FindBranch(db.branches, dto.branchId).value.tenantId != 0
    ensures var e := InfraPosted(db, dto, user, hasStream, attachmentName, newId, year, fileStem, now, false);
      var tenantId := FindBranch(db.branches, dto.branchId).value.tenantId;
      && e.result.Ok? && e.result.value.status == Approved && e.result.value.id == newId
      && e.result.value in Infra.GetAllVouchers(e.store, tenantId)
      && (forall p :: p in LinesOf(e.result.value) ==> p !in Select(AllPostings(e.store.vouchers), AsOfQuery(asOfDate, tenantId)))
  {
    var c := Infra.CreateAsWritten(db, dto, user, hasStream, attachmentName, newId, year, fileStem, now);
    var tenantId := FindBranch(db.branches, dto.branchId).value.tenantId;
    var k := |db.vouchers|;
    CreatedIsDraftAtEnd(db, c, newId);
    VerifyThenApproveDraft(c.store, k, user, now);
    var e := VerifyThenApprove(c.store, newId, user, now);
    assert e.result.value in e.store.vouchers;
    Infra.GetAllVouchersSpec(e.store, tenantId);
  }

  /** With the voucher stamped with its branch's tenant, every line of an
      approved voucher dated on or before the report date is read by that
      tenant's reports */
  lemma ApprovedVoucherReported(db: Db, dto: VoucherDto, user: string, hasStream: bool, attachmentName: Option<string>,
                                newId: int, year: nat, fileStem: string, now: int, asOfDate: int)
    requires !HasVoucherId(db.vouchers, newId)
    requires Infra.Create(db, dto, user, hasStream, attachmentName, newId, year, fileStem, now).result.Ok?
    requires dto.date <= asOfDate
    ensures var e := InfraPosted(db, dto, user, hasStream, attachmentName, newId, year, fileStem, now, true);
      var tenantId := FindBranch(db.branches, dto.branchId).value.tenantId;
      && e.result.Ok? && e.result.value.status == Approved && e.result.value.id == newId
      && e.result.value in Infra.GetAllVouchers(e.store, tenantId)
      && (forall p :: p in LinesOf(e.result.value) ==> p in Select(AllPostings(e.store.vouchers), AsOfQuery(asOfDate, tenantId)))
  {
    var c := Infra.Create(db, dto, user, hasStream, attachmentName, newId, year, fileStem, now);
    var tenantId := FindBranch(db.branches, dto.branchId).value.tenantId;
    var k := |db.vouchers|;
    CreatedIsDraftAtEnd(db, c, newId);
    VerifyThenApproveDraft(c.store, k, user, now);
    var e := VerifyThenApprove(c.store, newId, user, now);
    assert e.result.value in e.store.vouchers;
    Infra.GetAllVouchersSpec(e.store, tenantId);
    assert VoucherMatches(AsOfQuery(asOfDate, tenantId), e.store.vouchers[k]);
    MatchingLinesSelected(e.store.vouchers, k, AsOfQuery(asOfDate, tenantId));
  }

  lemma MatchingLinesSelected(vs: seq<Voucher>, k: nat, q: Query)
    requires k < |vs| && VoucherMatches(q, vs[k]) && q.accountId.None?
    ensures forall p :: p in LinesOf(vs[k]) ==> p in Select(AllPostings(vs), q)
  {
    forall p | p in LinesOf(vs[k])
      ensures p in Select(AllPostings(vs), q)
    {
      LinesInAllPostings(vs, k, p);
      var j :| 0 <= j < |LinesOf(vs[k])| && LinesOf(vs[k])[j] == p;
    }
  }

  // ---------------------------------------------------------------------
  // Worked cases

  /** One tenant (7) with one branch and one cash account */
  function SampleStore(): Db {
    Db([Account(1, 7, "1001", "Cash", Asset, 1, None, false, true)], [Branch(1, 7, "Head Office", "HO")], [], [])
  }

  /** A journal request on branch 1 with the given lines */
  function JournalRequest(lines: seq<DetailDto>): VoucherDto {
    VoucherDto(20250101, None, None, Journal, 1, lines)
  }

  function OneSided(): VoucherDto {
    JournalRequest([DetailDto(1, None, 100, 0, None)])
  }

  /** The one-sided voucher after verification and approval */
  function PostedOneSided(): Voucher {
    Infra.NewVoucher(OneSided(), "clerk", SampleStore().branches[0], 7, 0, 2025, None, 1, 0)
      .(status := Approved, verifiedBy := Some("clerk"), verifiedAt := Some(0), approvedBy := Some("clerk"), approvedAt := Some(0),
        lastModifiedBy := Some("clerk"), lastModifiedAt := Some(0))
  }

  /** A one-sided request booked through the infrastructure service and
      approved leaves the tenant's trial balance with a debit column of 100
      and a credit column of 0 */
  lemma InfraUnbalancesTrialBalance()
    ensures var e := InfraPosted(SampleStore(), OneSided(), "clerk", false, None, 1, 2025, "f", 0, true);
      && e.result.Ok? && e.result.value.status == Approved
      && GetTrialBalance(e.store, 20250101, 7).totalDebit == 100
      && GetTrialBalance(e.store, 20250101, 7).totalCredit == 0
  {
    OneSidedPosted();
    OneSidedTrialBalance();
  }

  lemma OneSidedPosted()
    ensures InfraPosted(SampleStore(), OneSided(), "clerk", false, None, 1, 2025, "f", 0, true)
         == Effect(StoreOf([PostedOneSided()]), Ok(PostedOneSided()))
  {
    var created := Infra.NewVoucher(OneSided(), "clerk", SampleStore().branches[0], 7, 0, 2025, None, 1, 0);
    OneSidedCreated();
    VerifyThenApproveDraft(StoreOf([created]), 0, "clerk", 0);
  }

  lemma OneSidedCreated()
    ensures Infra.Create(SampleStore(), OneSided(), "clerk", false, None, 1, 2025, "f", 0)
         == Effect(StoreOf([Infra.NewVoucher(OneSided(), "clerk", SampleStore().branches[0], 7, 0, 2025, None, 1, 0)]),
                   Ok(Infra.NewVoucher(OneSided(), "clerk", SampleStore().branches[0], 7, 0, 2025, None, 1, 0)))
  {
  }

  lemma OneSidedTrialBalance()
    ensures GetTrialBalance(StoreOf([PostedOneSided()]), 20250101, 7).totalDebit == 100
    ensures GetTrialBalance(StoreOf([PostedOneSided()]), 20250101, 7).totalCredit == 0
  {
    var visible := Select(AllPostings([PostedOneSided()]), AsOfQuery(20250101, 7));
    assert visible == [Posting(PostedOneSided(), Detail(1, None, 100, 0, None, Some("clerk")))];
  }

  /** Voucher numbers count the branch's vouchers of the type, and an edit
      may change a Draft's type while keeping its number: after two journals
      and a retype of the first, the next journal gets the second's number */
  lemma VoucherNumberReused()
    ensures Infra.Create(SampleStore(), Blank(), "clerk", false, None, 1, 2025, "a", 0).result == Ok(FirstJournal())
    ensures Infra.Create(StoreOf([FirstJournal()]), Blank(), "clerk", false, None, 2, 2025, "b", 0).result == Ok(SecondJournal())
    ensures Infra.Update(StoreOf([FirstJournal(), SecondJournal()]), 1, Blank().(voucherType := Payment), "clerk", 0).result.Ok?
    ensures var third := Infra.Create(StoreOf([RetypedFirst(), SecondJournal()]), Blank(), "clerk", false, None, 3, 2025, "c", 0);
      third.result.Ok? && third.result.value.voucherNo == SecondJournal().voucherNo == Infra.VoucherNumber(Journal, "HO", 2025, 2)
  {
    FirstJournalCreated();
    SecondJournalCreated();
    FirstJournalRetyped();
    ThirdJournalCreated();
  }

  function Blank(): VoucherDto {
    JournalRequest([])
  }

  function StoreOf(vs: seq<Voucher>): Db {
    SampleStore().(vouchers := vs)
  }

  function FirstJournal(): Voucher {
    Infra.NewVoucher(Blank(), "clerk", SampleStore().branches[0], 7, 0, 2025, None, 1, 0)
  }

  function SecondJournal(): Voucher {
    Infra.NewVoucher(Blank(), "clerk", SampleStore().branches[0], 7, 1, 2025, None, 2, 0)
  }

  function RetypedFirst(): Voucher {
    FirstJournal().(voucherType := Payment, lastModifiedBy := Some("clerk"), lastModifiedAt := Some(0),
                    details := CopyLines([], Some("clerk")))
  }

  lemma FirstJournalCreated()
    ensures Infra.Create(SampleStore(), Blank(), "clerk", false, None, 1, 2025, "a", 0) == Effect(StoreOf([FirstJournal()]), Ok(FirstJournal()))
  {
  }

  lemma SecondJournalCreated()
    ensures Infra.Create(StoreOf([FirstJournal()]), Blank(), "clerk", false, None, 2, 2025, "b", 0)
         == Effect(StoreOf([FirstJournal(), SecondJournal()]), Ok(SecondJournal()))
  {
    assert Infra.SequenceCount([FirstJournal()], 1, Journal) == 1;
  }

  lemma FirstJournalRetyped()
    ensures Infra.Update(StoreOf([FirstJournal(), SecondJournal()]), 1, Blank().(voucherType := Payment), "clerk", 0)
         == Effect(StoreOf([RetypedFirst(), SecondJournal()]), Ok(RetypedFirst()))
  {
  }

  lemma ThirdJournalCreated()
    ensures Infra.Create(StoreOf([RetypedFirst(), SecondJournal()]), Blank(), "clerk", false, None, 3, 2025, "c", 0).result
         == Ok(Infra.NewVoucher(Blank(), "clerk", SampleStore().branches[0], 7, 1, 2025, None, 3, 0))
  {
    var vs := [RetypedFirst(), SecondJournal()];
    assert Infra.SequenceCount(vs[1..], 1, Journal) == 1;
  }
}
