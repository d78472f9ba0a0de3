/** Properties of the account ledger: which lines it lists and in what
    order, the running balance, and how consecutive periods chain. */
module LedgerProofs {
  import opened Results
  import opened Enums
  import opened Entities
  import opened Postings
  import opened Sorting
  import opened Text
  import opened Reporting

  /** Ledger order is a total preorder, so sorting by it yields a sorted list */
  lemma LedgerOrderIsTotalPreorder()
    ensures TotalPreorder(LedgerOrder)
  {
    forall x: Posting, y: Posting
      ensures LedgerOrder(x, y) || LedgerOrder(y, x)
    {
      StrLeqTotal(x.voucher.voucherNo, y.voucher.voucherNo);
    }
    forall x: Posting, y: Posting, z: Posting | LedgerOrder(x, y) && LedgerOrder(y, z)
      ensures LedgerOrder(x, z)
    {
      if x.voucher.date == y.voucher.date == z.voucher.date {
        StrLeqTransitive(x.voucher.voucherNo, y.voucher.voucherNo, z.voucher.voucherNo);
      }
    }
  }

  /** The transaction loop emits one row per posting, in order, carrying
      the starting balance plus the prefix sum up to and including it; the
      final balance is the starting balance plus the sum of all postings */
  lemma {:induction false} RunLedgerPrefixSums(balance: int, ps: seq<Posting>)
    ensures |RunLedger(balance, ps).0| == |ps|
    ensures forall i :: 0 <= i < |ps| ==> RunLedger(balance, ps).0[i] == ToEntry(ps[i], balance + Net(ps[..i + 1]))
    ensures RunLedger(balance, ps).1 == balance + Net(ps)
    decreases |ps|
  {
    if |ps| > 0 {
      var b := balance + LineNet(ps[0]);
      RunLedgerPrefixSums(b, ps[1..]);
      var rows := RunLedger(balance, ps).0;
      var tail := RunLedger(b, ps[1..]).0;
      assert rows == [ToEntry(ps[0], b)] + tail;
      NetCons(ps);
      forall i | 0 <= i < |ps|
        ensures rows[i] == ToEntry(ps[i], balance + Net(ps[..i + 1]))
      {
        var prefix := ps[..i + 1];
        NetCons(prefix);
        if i == 0 {
          assert prefix[1..] == [];
        } else {
          assert prefix[1..] == ps[1..][..i];
        }
      }
    }
  }

  /** The rows of a ledger report: exactly the Approved lines of the account
      inside the period (a permutation of them), sorted by (date, voucher
      number), each carrying its voucher data, its narration (the line's,
      or the voucher's when the line has none or an empty one), and the
      balance after it; the closing balance is the last row's balance, or
      the opening balance when there are no rows */
  lemma LedgerRows(db: Db, accountId: int, fromDate: int, toDate: int, tenantId: int)
    requires GetLedger(db, accountId, fromDate, toDate, tenantId).Ok?
    ensures
      var r := GetLedger(db, accountId, fromDate, toDate, tenantId).value;
      var period := Select(AllPostings(db.vouchers), PeriodQuery(accountId, fromDate, toDate, tenantId));
      var txns := LedgerTransactions(db.vouchers, accountId, fromDate, toDate, tenantId);
      && r.openingBalance == Net(Select(AllPostings(db.vouchers), OpeningQuery(accountId, fromDate, tenantId)))
      && multiset(txns) == multiset(period)
      && (forall i, j :: 0 <= i < j < |txns| ==> LedgerOrder(txns[i], txns[j]))
      && |r.transactions| == |txns|
      && (forall i :: 0 <= i < |txns| ==>
            && r.transactions[i].date == txns[i].voucher.date
            && r.transactions[i].voucherId == txns[i].voucher.id
            && r.transactions[i].voucherNo == txns[i].voucher.voucherNo
            && r.transactions[i].debit == txns[i].line.debit
            && r.transactions[i].credit == txns[i].line.credit
            && r.transactions[i].narration
               == (if txns[i].line.lineNarration.None? || txns[i].line.lineNarration.value == ""
                   then txns[i].voucher.narration else txns[i].line.lineNarration)
            && r.transactions[i].runningBalance == r.openingBalance + Net(txns[..i + 1]))
      && r.closingBalance == (if |txns| == 0 then r.openingBalance else r.transactions[|txns| - 1].runningBalance)
  {
    var r := GetLedger(db, accountId, fromDate, toDate, tenantId).value;
    var period := Select(AllPostings(db.vouchers), PeriodQuery(accountId, fromDate, toDate, tenantId));
    var txns := LedgerTransactions(db.vouchers, accountId, fromDate, toDate, tenantId);
    LedgerOrderIsTotalPreorder();
    SortSorted(period, LedgerOrder);
    RunLedgerPrefixSums(r.openingBalance, txns);
    if |txns| > 0 {
      assert txns[..|txns|] == txns;
    }
  }

  /** The closing balance is the opening balance plus Σ(debit - credit) over
      the period's lines, whatever order the ledger lists them in */
  lemma LedgerClosing(db: Db, accountId: int, fromDate: int, toDate: int, tenantId: int)
    requires GetLedger(db, accountId, fromDate, toDate, tenantId).Ok?
    ensures
      var r := GetLedger(db, accountId, fromDate, toDate, tenantId).value;
      r.closingBalance
      == r.openingBalance + Net(Select(AllPostings(db.vouchers), PeriodQuery(accountId, fromDate, toDate, tenantId)))
  {
    var r := GetLedger(db, accountId, fromDate, toDate, tenantId).value;
    var period := Select(AllPostings(db.vouchers), PeriodQuery(accountId, fromDate, toDate, tenantId));
    var txns := LedgerTransactions(db.vouchers, accountId, fromDate, toDate, tenantId);
    RunLedgerPrefixSums(r.openingBalance, txns);
    TotalPermutation(txns, period, DebitSide);
    TotalPermutation(txns, period, CreditSide);
  }

  /** Lines before `toDate + 1` are those before `fromDate` plus those of
      the period [fromDate, toDate] */
  lemma {:induction false} BeforeSplits(ps: seq<Posting>, accountId: int, fromDate: int, toDate: int, tenantId: int, side: Side)
    requires fromDate <= toDate + 1
    ensures Total(Select(ps, OpeningQuery(accountId, toDate + 1, tenantId)), side)
         == Total(Select(ps, OpeningQuery(accountId, fromDate, tenantId)), side)
            + Total(Select(ps, PeriodQuery(accountId, fromDate, toDate, tenantId)), side)
    decreases |ps|
  {
    if |ps| > 0 {
      BeforeSplits(ps[1..], accountId, fromDate, toDate, tenantId, side);
      TotalSelectCons(ps, OpeningQuery(accountId, toDate + 1, tenantId), side);
      TotalSelectCons(ps, OpeningQuery(accountId, fromDate, tenantId), side);
      TotalSelectCons(ps, PeriodQuery(accountId, fromDate, toDate, tenantId), side);
    }
  }

  /** Consecutive periods chain: the closing balance of [fromDate, toDate]
      is the opening balance of the period that starts right after it */
  lemma LedgerPeriodsChain(db: Db, accountId: int, fromDate: int, toDate: int, nextToDate: int, tenantId: int)
    requires GetLedger(db, accountId, fromDate, toDate, tenantId).Ok?
    requires fromDate <= toDate + 1
    ensures GetLedger(db, accountId, toDate + 1, nextToDate, tenantId).Ok?
    ensures GetLedger(db, accountId, fromDate, toDate, tenantId).value.closingBalance
         == GetLedger(db, accountId, toDate + 1, nextToDate, tenantId).value.openingBalance
  {
    LedgerClosing(db, accountId, fromDate, toDate, tenantId);
    var ps := AllPostings(db.vouchers);
    BeforeSplits(ps, accountId, fromDate, toDate, tenantId, DebitSide);
    BeforeSplits(ps, accountId, fromDate, toDate, tenantId, CreditSide);
  }
}
