/** The view every report is computed from: the voucher detail lines joined
    with their voucher header (`Include(vd => vd.Voucher)`), the `Where`
    filters the reports put on them, and column sums with the algebra the
    report proofs need. */
module Postings {
  import opened Results
  import opened Enums
  import opened Entities
  import opened Sorting

  /** A detail line together with the voucher that owns it */
  datatype Posting = Posting(voucher: Voucher, line: Detail)

  function LinesOf(v: Voucher): (r: seq<Posting>)
    ensures |r| == |v.details|
    ensures forall i :: 0 <= i < |r| ==> r[i] == Posting(v, v.details[i])
  {
    seq(|v.details|, i requires 0 <= i < |v.details| => Posting(v, v.details[i]))
  }

  /** Every detail line of the store, voucher by voucher */
  function AllPostings(vs: seq<Voucher>): seq<Posting> {
    if |vs| == 0 then [] else LinesOf(vs[0]) + AllPostings(vs[1..])
  }

  // ---------------------------------------------------------------------
  // The report filters

  /** A report query. Every report reads only Approved vouchers of one
      tenant; the optional parts narrow by account and by voucher date
      (`fromDate <= date`, `date <= toDate`, `date < beforeDate`). */
  datatype Query = Query(
    tenantId: int,
    accountId: Option<int>,
    fromDate: Option<int>,
    toDate: Option<int>,
    beforeDate: Option<int>)

  predicate VoucherMatches(q: Query, v: Voucher) {
    && v.status == Approved
    && v.tenantId == q.tenantId
    && (q.fromDate.Some? ==> q.fromDate.value <= v.date)
    && (q.toDate.Some? ==> v.date <= q.toDate.value)
    && (q.beforeDate.Some? ==> v.date < q.beforeDate.value)
  }

  predicate Matches(q: Query, p: Posting) {
    VoucherMatches(q, p.voucher) && (q.accountId.Some? ==> p.line.accountId == q.accountId.value)
  }

  /** The postings a query returns, in store order */
  function Select(ps: seq<Posting>, q: Query): (r: seq<Posting>)
    ensures |r| <= |ps|
    ensures forall i :: 0 <= i < |r| ==> Matches(q, r[i]) && r[i] in ps
    ensures forall p :: p in ps && Matches(q, p) ==> p in r
  {
    if |ps| == 0 then []
    else if Matches(q, ps[0]) then [ps[0]] + Select(ps[1..], q)
    else Select(ps[1..], q)
  }

  /** Postings whose account is one of `ids` */
  function InAccounts(ps: seq<Posting>, ids: seq<int>): seq<Posting> {
    if |ps| == 0 then []
    else if ps[0].line.accountId in ids then [ps[0]] + InAccounts(ps[1..], ids)
    else InAccounts(ps[1..], ids)
  }

  /** The account type of `id` in the catalog (the `vd.Account.Type` navigation) */
  function TypeOfAccount(accounts: seq<Account>, id: int): Option<AccountType> {
    if |accounts| == 0 then None
    else if accounts[0].id == id then Some(accounts[0].accountType)
    else TypeOfAccount(accounts[1..], id)
  }

  /** Postings whose account has type `t` */
  function OfType(ps: seq<Posting>, accounts: seq<Account>, t: AccountType): seq<Posting> {
    if |ps| == 0 then []
    else if TypeOfAccount(accounts, ps[0].line.accountId) == Some(t) then [ps[0]] + OfType(ps[1..], accounts, t)
    else OfType(ps[1..], accounts, t)
  }

  function IdsOf(accounts: seq<Account>): (r: seq<int>)
    ensures |r| == |accounts|
    ensures forall i :: 0 <= i < |r| ==> r[i] == accounts[i].id
  {
    if |accounts| == 0 then [] else [accounts[0].id] + IdsOf(accounts[1..])
  }

  // ---------------------------------------------------------------------
  // Column sums

  function PostingDebit(p: Posting): int {
    p.line.debit
  }

  function PostingCredit(p: Posting): int {
    p.line.credit
  }

  /** `Sum(x => x.DebitAmount)` or `Sum(x => x.CreditAmount)` */
  function Total(ps: seq<Posting>, side: Side): int {
    if side == DebitSide then SumOf(ps, PostingDebit) else SumOf(ps, PostingCredit)
  }

  lemma TotalCons(ps: seq<Posting>, side: Side)
    requires |ps| > 0
    ensures Total(ps, side) == LineAmount(ps[0].line, side) + Total(ps[1..], side)
  {
  }

  lemma NetCons(ps: seq<Posting>)
    requires |ps| > 0
    ensures Net(ps) == LineNet(ps[0]) + Net(ps[1..])
  {
  }

  lemma TotalSelectCons(ps: seq<Posting>, q: Query, side: Side)
    requires |ps| > 0
    ensures Total(Select(ps, q), side)
         == (if Matches(q, ps[0]) then LineAmount(ps[0].line, side) else 0) + Total(Select(ps[1..], q), side)
  {
    if Matches(q, ps[0]) {
      TotalCons(Select(ps, q), side);
    }
  }

  lemma TotalInAccountsCons(ps: seq<Posting>, ids: seq<int>, side: Side)
    requires |ps| > 0
    ensures Total(InAccounts(ps, ids), side)
         == (if ps[0].line.accountId in ids then LineAmount(ps[0].line, side) else 0) + Total(InAccounts(ps[1..], ids), side)
  {
    if ps[0].line.accountId in ids {
      TotalCons(InAccounts(ps, ids), side);
    }
  }

  lemma TotalOfTypeCons(ps: seq<Posting>, accounts: seq<Account>, t: AccountType, side: Side)
    requires |ps| > 0
    ensures Total(OfType(ps, accounts, t), side)
         == (if TypeOfAccount(accounts, ps[0].line.accountId) == Some(t) then LineAmount(ps[0].line, side) else 0)
            + Total(OfType(ps[1..], accounts, t), side)
  {
    if TypeOfAccount(accounts, ps[0].line.accountId) == Some(t) {
      TotalCons(OfType(ps, accounts, t), side);
    }
  }

  /** A posting of the store is a line of one of its vouchers */
  lemma {:induction false} InAllPostings(vs: seq<Voucher>, p: Posting)
    requires p in AllPostings(vs)
    ensures p.voucher in vs && p.line in p.voucher.details
    decreases |vs|
  {
    if p in LinesOf(vs[0]) {
      var i :| 0 <= i < |LinesOf(vs[0])| && LinesOf(vs[0])[i] == p;
    } else {
      InAllPostings(vs[1..], p);
    }
  }

  /** Every catalog account is found with its type when ids are unique */
  lemma {:induction false} TypeOfAccountFinds(accounts: seq<Account>, a: Account)
    requires AccountIdsUnique(accounts)
    requires a in accounts
    ensures TypeOfAccount(accounts, a.id) == Some(a.accountType)
    decreases |accounts|
  {
    if accounts[0] != a {
      assert a in accounts[1..];
      TypeOfAccountFinds(accounts[1..], a);
    }
  }

  lemma TotalPermutation(a: seq<Posting>, b: seq<Posting>, side: Side)
    requires multiset(a) == multiset(b)
    ensures Total(a, side) == Total(b, side)
  {
    SumOfPermutation(a, b, PostingDebit);
    SumOfPermutation(a, b, PostingCredit);
  }

  function LineNet(p: Posting): int {
    p.line.debit - p.line.credit
  }

  /** Σ(debit - credit) */
  function Net(ps: seq<Posting>): int {
    Total(ps, DebitSide) - Total(ps, CreditSide)
  }

  /** `g.Sum(x => x.DebitAmount)` for the group of account `id`; an account
      without a group reads 0, which is the sum over no lines */
  function AccountTotal(ps: seq<Posting>, id: int, side: Side): int {
    if |ps| == 0 then 0
    else (if ps[0].line.accountId == id then LineAmount(ps[0].line, side) else 0) + AccountTotal(ps[1..], id, side)
  }

  /** Σ over the accounts of `chart` of their group sums */
  function ChartTotal(chart: seq<Account>, ps: seq<Posting>, side: Side): int {
    if |chart| == 0 then 0 else AccountTotal(ps, chart[0].id, side) + ChartTotal(chart[1..], ps, side)
  }

  // ---------------------------------------------------------------------
  // Algebra

  lemma TotalAppend(a: seq<Posting>, b: seq<Posting>, side: Side)
    ensures Total(a + b, side) == Total(a, side) + Total(b, side)
  {
    SumOfAppend(a, b, PostingDebit);
    SumOfAppend(a, b, PostingCredit);
  }

  /** The running-balance step: one more posting adds its debit - credit */
  lemma NetSnoc(ps: seq<Posting>, p: Posting)
    ensures Net(ps + [p]) == Net(ps) + LineNet(p)
  {
    TotalAppend(ps, [p], DebitSide);
    TotalAppend(ps, [p], CreditSide);
    TotalCons([p], DebitSide);
    TotalCons([p], CreditSide);
    assert [p][1..] == [];
  }

  lemma {:induction false} SelectAppend(a: seq<Posting>, b: seq<Posting>, q: Query)
    ensures Select(a + b, q) == Select(a, q) + Select(b, q)
    decreases |a|
  {
    if |a| > 0 {
      assert (a + b)[1..] == a[1..] + b;
      SelectAppend(a[1..], b, q);
    } else {
      assert a + b == b;
    }
  }

  /** Each account's group sum equals the total of the account's own query */
  lemma {:induction false} AccountTotalIsSelectTotal(ps: seq<Posting>, q: Query, id: int, side: Side)
    requires q.accountId.None?
    ensures AccountTotal(Select(ps, q), id, side) == Total(Select(ps, q.(accountId := Some(id))), side)
    decreases |ps|
  {
    if |ps| > 0 {
      AccountTotalIsSelectTotal(ps[1..], q, id, side);
    }
  }

  lemma {:induction false} SelectOfLinesOf(v: Voucher, q: Query)
    requires q.accountId.None?
    ensures Select(LinesOf(v), q) == if VoucherMatches(q, v) then LinesOf(v) else []
  {
    var ls := LinesOf(v);
    SelectOfLinesOfFrom(v, q, ls);
  }

  lemma {:induction false} SelectOfLinesOfFrom(v: Voucher, q: Query, ls: seq<Posting>)
    requires q.accountId.None?
    requires forall i :: 0 <= i < |ls| ==> ls[i].voucher == v
    ensures Select(ls, q) == if VoucherMatches(q, v) then ls else []
    decreases |ls|
  {
    if |ls| > 0 {
      SelectOfLinesOfFrom(v, q, ls[1..]);
      if VoucherMatches(q, v) {
        assert ls == [ls[0]] + ls[1..];
      }
    }
  }

  lemma TotalOfLinesOf(v: Voucher, side: Side)
    ensures Total(LinesOf(v), side) == DetailsTotal(v.details, side)
  {
    TotalOfLinesOfFrom(v, v.details, LinesOf(v), side);
  }

  lemma {:induction false} TotalOfLinesOfFrom(v: Voucher, ds: seq<Detail>, ls: seq<Posting>, side: Side)
    requires |ls| == |ds|
    requires forall i :: 0 <= i < |ls| ==> ls[i] == Posting(v, ds[i])
    ensures Total(ls, side) == DetailsTotal(ds, side)
    decreases |ds|
  {
    if |ds| > 0 {
      TotalOfLinesOfFrom(v, ds[1..], ls[1..], side);
    }
  }

  // ---------------------------------------------------------------------
  // Approved-only visibility

  function ApprovedOnly(vs: seq<Voucher>): (r: seq<Voucher>)
    ensures forall v :: v in r <==> v in vs && v.status == Approved
  {
    if |vs| == 0 then []
    else if vs[0].status == Approved then [vs[0]] + ApprovedOnly(vs[1..])
    else ApprovedOnly(vs[1..])
  }

  /** A query sees the same postings whether or not the store holds
      vouchers that are not Approved */
  lemma {:induction false} SelectSeesOnlyApproved(vs: seq<Voucher>, q: Query)
    ensures Select(AllPostings(vs), q) == Select(AllPostings(ApprovedOnly(vs)), q)
    decreases |vs|
  {
    if |vs| > 0 {
      SelectAppend(LinesOf(vs[0]), AllPostings(vs[1..]), q);
      SelectSeesOnlyApproved(vs[1..], q);
      if vs[0].status == Approved {
        assert ApprovedOnly(vs) == [vs[0]] + ApprovedOnly(vs[1..]);
        assert AllPostings(ApprovedOnly(vs)) == LinesOf(vs[0]) + AllPostings(ApprovedOnly(vs[1..]));
        SelectAppend(LinesOf(vs[0]), AllPostings(ApprovedOnly(vs[1..])), q);
      } else {
        NoneSelected(LinesOf(vs[0]), q);
      }
    }
  }

  lemma {:induction false} NoneSelected(ps: seq<Posting>, q: Query)
    requires forall i :: 0 <= i < |ps| ==> ps[i].voucher.status != Approved
    ensures Select(ps, q) == []
    decreases |ps|
  {
    if |ps| > 0 {
      NoneSelected(ps[1..], q);
    }
  }

  // ---------------------------------------------------------------------
  // Double entry over a selection

  /** Every voucher a query can see is balanced */
  ghost predicate VisibleBalanced(vs: seq<Voucher>, q: Query) {
    forall v :: v in vs && VoucherMatches(q, v) ==> Balanced(v)
  }

  /** When every voucher a (voucher-level) query sees is balanced, the
      selected lines have equal debit and credit totals */
  lemma {:induction false} SelectionBalanced(vs: seq<Voucher>, q: Query)
    requires q.accountId.None?
    requires VisibleBalanced(vs, q)
    ensures Total(Select(AllPostings(vs), q), DebitSide) == Total(Select(AllPostings(vs), q), CreditSide)
    decreases |vs|
  {
    if |vs| > 0 {
      var v := vs[0];
      SelectAppend(LinesOf(v), AllPostings(vs[1..]), q);
      SelectOfLinesOf(v, q);
      SelectionBalanced(vs[1..], q);
      var head := Select(LinesOf(v), q);
      var rest := Select(AllPostings(vs[1..]), q);
      TotalAppend(head, rest, DebitSide);
      TotalAppend(head, rest, CreditSide);
      if VoucherMatches(q, v) {
        TotalOfLinesOf(v, DebitSide);
        TotalOfLinesOf(v, CreditSide);
      }
    }
  }

  // ---------------------------------------------------------------------
  // Partition of the lines among the accounts of a chart

  lemma {:induction false} ChartTotalCons(chart: seq<Account>, p: Posting, ps: seq<Posting>, side: Side)
    requires AccountIdsUnique(chart)
    ensures ChartTotal(chart, [p] + ps, side)
         == (if p.line.accountId in IdsOf(chart) then LineAmount(p.line, side) else 0) + ChartTotal(chart, ps, side)
    decreases |chart|
  {
    if |chart| > 0 {
      assert ([p] + ps)[1..] == ps;
      ChartTotalCons(chart[1..], p, ps, side);
      assert IdsOf(chart) == [chart[0].id] + IdsOf(chart[1..]);
      if p.line.accountId == chart[0].id {
        assert p.line.accountId !in IdsOf(chart[1..]);
      }
    }
  }

  /** Σ over a chart of the per-account sums is the sum over the lines
      posted to that chart's accounts: no line is counted twice */
  lemma {:induction false} ChartTotalPartition(chart: seq<Account>, ps: seq<Posting>, side: Side)
    requires AccountIdsUnique(chart)
    ensures ChartTotal(chart, ps, side) == Total(InAccounts(ps, IdsOf(chart)), side)
    decreases |ps|
  {
    if |ps| == 0 {
      ChartTotalEmpty(chart, side);
    } else {
      assert ps == [ps[0]] + ps[1..];
      ChartTotalCons(chart, ps[0], ps[1..], side);
      ChartTotalPartition(chart, ps[1..], side);
    }
  }

  lemma {:induction false} ChartTotalEmpty(chart: seq<Account>, side: Side)
    ensures ChartTotal(chart, [], side) == 0
    decreases |chart|
  {
    if |chart| > 0 {
      ChartTotalEmpty(chart[1..], side);
    }
  }

  /** Every line in `ps` is posted to an account of `chart` */
  ghost predicate PostedWithin(ps: seq<Posting>, chart: seq<Account>) {
    forall i :: 0 <= i < |ps| ==> ps[i].line.accountId in IdsOf(chart)
  }

  lemma {:induction false} InAccountsAll(ps: seq<Posting>, ids: seq<int>)
    requires forall i :: 0 <= i < |ps| ==> ps[i].line.accountId in ids
    ensures InAccounts(ps, ids) == ps
    decreases |ps|
  {
    if |ps| > 0 {
      InAccountsAll(ps[1..], ids);
    }
  }
}
