/** Closing a cashier's shift: the sales since the shift started, the cash
    the drawer should hold, the variance against the counted cash and its
    indicator, and the close itself, which also reports to the owner. */
module ShiftEnd {
  import opened Common
  import Storage
  import Services
  import Reports
  import WhatsApp

  /** The open shift; `initialCash` in rupiah. */
  datatype Shift = Shift(id: string, startTime: Instant, initialCash: int, requesterName: string)

  /** The sales total since the shift started. */
  function ShiftSales(txs: seq<Storage.TransactionRecord>, start: Instant): int {
    SumOf(Reports.Since(txs, Reports.TxTime, start), Reports.Nominal)
  }

  /** The shift's sales are the total money of the sales report over the
      shift. */
  lemma ShiftSalesIsReportTotal(txs: seq<Storage.TransactionRecord>, start: Instant)
    ensures ShiftSales(txs, start) == Reports.Summarize(txs, [], [], start).totalMoney
  {
  }

  /** A sale before the shift started does not count; one at or after it
      adds its nominal. */
  lemma ShiftSalesAfterSale(t: Storage.TransactionRecord, txs: seq<Storage.TransactionRecord>, start: Instant)
    ensures ShiftSales([t] + txs, start) == ShiftSales(txs, start) + (if t.timestamp >= start then t.nominal else 0)
  {
    Reports.SummaryAfterSale(t, txs, [], [], start);
  }

  /** The cash the drawer should hold. */
  function ExpectedCash(shift: Shift, sales: int): int {
    shift.initialCash + sales
  }

  /** `Number(finalCash.replace(/\D/g, ''))`: the counted cash. */
  function CountedCash(input: string): nat {
    DecimalValue(StripNonDigits(input))
  }

  /** Counted less expected: negative when cash is missing. */
  function Variance(counted: int, expected: int): (v: int)
    ensures v < 0 <==> counted < expected
    ensures v == 0 <==> counted == expected
  {
    counted - expected
  }

  datatype Tone = Short | Over | Exact

  /** The variance indicator: hidden until some cash is entered, then red
      for a shortfall, lime for a surplus and green when it balances. */
  function IndicatorFor(input: string, expected: int): (tone: Option<Tone>)
    ensures tone.None? <==> CountedCash(input) == 0
    ensures tone == Some(Short) <==> CountedCash(input) > 0 && CountedCash(input) < expected
    ensures tone == Some(Over) <==> CountedCash(input) > 0 && CountedCash(input) > expected
    ensures tone == Some(Exact) <==> CountedCash(input) > 0 && CountedCash(input) == expected
  {
    var counted := CountedCash(input);
    if counted <= 0 then None
    else
      var v := Variance(counted, expected);
      if v < 0 then Some(Short) else if v > 0 then Some(Over) else Some(Exact)
  }

  /** The close button is disabled while closing or while nothing is typed. */
  predicate CloseDisabled(submitting: bool, finalCash: string) {
    submitting || finalCash == ""
  }

  /** The figures of the success screen. */
  datatype Closed = Closed(variance: int, actual: int, expected: int)

  class ShiftEndScreen {
    var shift: Option<Shift>
    var totalSales: int
    var finalCash: string
    var submitting: bool
    var success: Option<Closed>

    constructor ()
      ensures shift == None && totalSales == 0 && finalCash == "" && !submitting && success == None
    {
      shift := None;
      totalSales := 0;
      finalCash := "";
      submitting := false;
      success := None;
    }

    /** Loading the open shift and the sales since it started. */
    method Load(current: Shift, txs: seq<Storage.TransactionRecord>)
      modifies this
      ensures shift == Some(current) && totalSales == ShiftSales(txs, current.startTime)
      ensures finalCash == old(finalCash) && submitting == old(submitting) && success == old(success)
    {
      shift := Some(current);
      totalSales := ShiftSales(txs, current.startTime);
    }

    /** `handleCloseShift`: the shift is closed with the counted and the
        expected cash; once that succeeded the owner's report is issued with
        the same figures and the success screen shows the variance. A
        failure ends the submitting state. */
    method HandleCloseShift(closeOk: bool) returns (calls: seq<Services.Call>, report: Option<WhatsApp.ShiftData>)
      modifies this
      ensures old(shift).None? ==> calls == [] && report == None && submitting == old(submitting) && success == old(success)
      ensures old(shift).Some? ==>
        var s, counted := old(shift).value, CountedCash(old(finalCash));
        var expected := ExpectedCash(s, old(totalSales));
        calls == [Services.CloseShift(s.id, counted, expected)] &&
        (closeOk ==> report == Some(WhatsApp.ShiftData(s.requesterName, s.initialCash, expected, counted)) &&
                     success == Some(Closed(Variance(counted, expected), counted, expected)) && submitting) &&
        (!closeOk ==> report == None && success == old(success) && !submitting)
      ensures shift == old(shift) && totalSales == old(totalSales) && finalCash == old(finalCash)
    {
      calls, report := [], None;
      if shift.None? {
        return;
      }
      submitting := true;
      var s := shift.value;
      var counted := CountedCash(finalCash);
      var expected := ExpectedCash(s, totalSales);
      calls := [Services.CloseShift(s.id, counted, expected)];
      if !closeOk {
        submitting := false;
        return;
      }
      report := Some(WhatsApp.ShiftData(s.requesterName, s.initialCash, expected, counted));
      success := Some(Closed(Variance(counted, expected), counted, expected));
    }
  }

  /** The owner's report carries the variance the success screen shows, and
      the expected cash the shift was closed with. */
  lemma ReportAgreesWithClose(s: Shift, sales: int, input: string, storeName: string)
    ensures var counted, expected := CountedCash(input), ExpectedCash(s, sales);
      var r := WhatsApp.ShiftReportOf(WhatsApp.ShiftData(s.requesterName, s.initialCash, expected, counted), storeName);
      r.variance == Variance(counted, expected) && r.expectedCash == expected && r.finalCash == counted
  {
  }
}
