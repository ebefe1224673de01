/** The administrator's sales report: one fold over every stored sale into
    the total money, litres and profit. */
module AdminReports {
  import opened Common
  import Storage
  import Reports

  datatype Totals = Totals(totalMoney: int, totalLiter: int, totalProfit: int)

  /** One step of the `reduce`. */
  function Step(acc: Totals, t: Storage.TransactionRecord): Totals {
    Totals(acc.totalMoney + t.nominal, acc.totalLiter + t.liter, acc.totalProfit + t.profit)
  }

  /** The `reduce` from the left, starting at `acc`. */
  function FoldTotals(acc: Totals, txs: seq<Storage.TransactionRecord>): Totals
    decreases |txs|
  {
    if |txs| == 0 then acc else FoldTotals(Step(acc, txs[0]), txs[1..])
  }

  function AdminSummary(txs: seq<Storage.TransactionRecord>): Totals {
    FoldTotals(Totals(0, 0, 0), txs)
  }

  /** The fold from `acc` adds each column's sum to it. */
  lemma {:induction false} FoldIsSums(acc: Totals, txs: seq<Storage.TransactionRecord>)
    ensures FoldTotals(acc, txs) ==
      Totals(acc.totalMoney + SumOf(txs, Reports.Nominal), acc.totalLiter + SumOf(txs, Reports.Liter),
             acc.totalProfit + SumOf(txs, Reports.Profit))
    decreases |txs|
  {
    if |txs| > 0 {
      FoldIsSums(Step(acc, txs[0]), txs[1..]);
      assert txs == [txs[0]] + txs[1..];
      SumOfCons(txs[0], txs[1..], Reports.Nominal);
      SumOfCons(txs[0], txs[1..], Reports.Liter);
      SumOfCons(txs[0], txs[1..], Reports.Profit);
    }
  }

  /** The three totals are the column sums; with no sales they are zero. */
  lemma AdminSummaryIsSums(txs: seq<Storage.TransactionRecord>)
    ensures AdminSummary(txs) == Totals(SumOf(txs, Reports.Nominal), SumOf(txs, Reports.Liter), SumOf(txs, Reports.Profit))
    ensures AdminSummary([]) == Totals(0, 0, 0)
  {
    FoldIsSums(Totals(0, 0, 0), txs);
  }

  /** Summing two lists of sales is summing each and adding the totals. */
  lemma AdminSummaryAppend(a: seq<Storage.TransactionRecord>, b: seq<Storage.TransactionRecord>)
    ensures var s, x, y := AdminSummary(a + b), AdminSummary(a), AdminSummary(b);
      s == Totals(x.totalMoney + y.totalMoney, x.totalLiter + y.totalLiter, x.totalProfit + y.totalProfit)
  {
    AdminSummaryIsSums(a + b);
    AdminSummaryIsSums(a);
    AdminSummaryIsSums(b);
    SumOfAppend(a, b, Reports.Nominal);
    SumOfAppend(a, b, Reports.Liter);
    SumOfAppend(a, b, Reports.Profit);
  }

  /** When every sale is at or after the cutoff, the administrator's totals
      are the first three figures of the sales report. */
  lemma AgreesWithSalesReport(txs: seq<Storage.TransactionRecord>, cutoff: Instant)
    requires forall i :: 0 <= i < |txs| ==> txs[i].timestamp >= cutoff
    ensures var r := Reports.Summarize(txs, [], [], cutoff);
      AdminSummary(txs) == Totals(r.totalMoney, r.totalLiter, r.totalProfit)
  {
    AdminSummaryIsSums(txs);
    SinceAll(txs, cutoff);
  }

  lemma {:induction false} SinceAll(txs: seq<Storage.TransactionRecord>, cutoff: Instant)
    requires forall i :: 0 <= i < |txs| ==> txs[i].timestamp >= cutoff
    ensures Reports.Since(txs, Reports.TxTime, cutoff) == txs
  {
    if |txs| > 0 {
      SinceAll(txs[1..], cutoff);
    }
  }
}
