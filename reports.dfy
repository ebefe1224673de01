/** The sales report: the records since a cutoff are merged into one ledger
    of sales and restocks, newest first, and folded into the summary figures,
    the sales per hour of day and the count of cash and credit sales. A row
    can be deleted by an administrator directly, or a cashier files a void
    request for it. */
module Reports {
  import opened Common
  import opened Json
  import Sorting
  import Storage
  import Services
  import Requests
  import Expenses

  // ---------------------------------------------------------------------
  // Filtering by time

  function TxTime(t: Storage.TransactionRecord): Instant { t.timestamp }
  function LogTime(l: Storage.InventoryLog): Instant { l.date }
  function ExpenseTime(e: Expenses.Expense): Instant { e.date }

  /** The elements at or after the cutoff, in their order. */
  function Since<T(!new)>(s: seq<T>, time: T -> Instant, cutoff: Instant): (r: seq<T>)
    ensures forall x :: x in r <==> x in s && time(x) >= cutoff
    ensures |r| <= |s|
  {
    if |s| == 0 then []
    else if time(s[0]) >= cutoff then [s[0]] + Since(s[1..], time, cutoff)
    else Since(s[1..], time, cutoff)
  }

  lemma SinceCons<T(!new)>(x: T, s: seq<T>, time: T -> Instant, cutoff: Instant)
    ensures Since([x] + s, time, cutoff) == (if time(x) >= cutoff then [x] else []) + Since(s, time, cutoff)
  {
    assert ([x] + s)[1..] == s;
  }

  // ---------------------------------------------------------------------
  // The ledger

  datatype RecordKind = SaleRow | RestockRow | AdjustmentRow

  /** The stored record a ledger row shows. */
  datatype Origin = OfSale(sale: Storage.TransactionRecord) | OfLog(log: Storage.InventoryLog)

  /** One row of the ledger; `nominal` in rupiah (negative for a restock),
      `liter` in centilitres. */
  datatype UnifiedRecord = UnifiedRecord(
    id: string,
    timestamp: Instant,
    kind: RecordKind,
    nominal: real,
    liter: int,
    profit: int,
    details: string,
    isSpecial: Option<bool>,
    origin: Origin)

  function RowTime(r: UnifiedRecord): int { r.timestamp }

  /** The purchase value of a restock, `|costPerLiter * volume|`, in rupiah. */
  function RestockCost(l: Storage.InventoryLog): (c: real)
    ensures c >= 0.0
  {
    var v := l.costPerLiter * l.volume;
    (if v < 0 then -v else v) as real / 100.0
  }

  function SaleRecord(t: Storage.TransactionRecord): UnifiedRecord {
    UnifiedRecord(t.id, t.timestamp, SaleRow, t.nominal as real, t.liter, t.profit,
                  if t.isSpecialRule then "Paket Hemat" else "Standard", Some(t.isSpecialRule), OfSale(t))
  }

  function RestockRecord(l: Storage.InventoryLog): UnifiedRecord {
    UnifiedRecord(l.id, l.date, RestockRow, -RestockCost(l), l.volume, 0,
                  if l.notes.Some? && l.notes.value != "" then l.notes.value else "Restock Modal", None, OfLog(l))
  }

  function SaleRecords(txs: seq<Storage.TransactionRecord>): (rs: seq<UnifiedRecord>)
    ensures |rs| == |txs|
    ensures forall i :: 0 <= i < |txs| ==> rs[i] == SaleRecord(txs[i])
  {
    if |txs| == 0 then [] else [SaleRecord(txs[0])] + SaleRecords(txs[1..])
  }

  /** The restock rows: one per IN log, in order; OUT and adjustment logs
      do not appear. */
  function RestockRecords(logs: seq<Storage.InventoryLog>): (rs: seq<UnifiedRecord>)
    ensures forall r :: r in rs <==> exists l :: l in logs && l.logType == Storage.In && r == RestockRecord(l)
  {
    if |logs| == 0 then []
    else
      var rest := RestockRecords(logs[1..]);
      assert forall l :: l in logs <==> l == logs[0] || l in logs[1..];
      if logs[0].logType == Storage.In then [RestockRecord(logs[0])] + rest else rest
  }

  /** The ledger since the cutoff, newest first. */
  function Ledger(txs: seq<Storage.TransactionRecord>, logs: seq<Storage.InventoryLog>, cutoff: Instant): (rows: seq<UnifiedRecord>)
    ensures Sorting.SortedDesc(rows, RowTime)
    ensures multiset(rows) == multiset(SaleRecords(Since(txs, TxTime, cutoff)) + RestockRecords(Since(logs, LogTime, cutoff)))
  {
    Sorting.SortDesc(SaleRecords(Since(txs, TxTime, cutoff)) + RestockRecords(Since(logs, LogTime, cutoff)), RowTime)
  }

  /** Every sale at or after the cutoff is in the ledger. */
  lemma LedgerHasSale(txs: seq<Storage.TransactionRecord>, logs: seq<Storage.InventoryLog>, cutoff: Instant,
                      t: Storage.TransactionRecord)
    requires t in txs && t.timestamp >= cutoff
    ensures SaleRecord(t) in Ledger(txs, logs, cutoff)
  {
    var ft := Since(txs, TxTime, cutoff);
    var sales := SaleRecords(ft);
    var i :| 0 <= i < |ft| && ft[i] == t;
    assert sales[i] == SaleRecord(t);
    LedgerMember(txs, logs, cutoff, SaleRecord(t));
  }

  /** Every IN log at or after the cutoff is in the ledger as a restock. */
  lemma LedgerHasRestock(txs: seq<Storage.TransactionRecord>, logs: seq<Storage.InventoryLog>, cutoff: Instant,
                         l: Storage.InventoryLog)
    requires l in logs && l.logType == Storage.In && l.date >= cutoff
    ensures RestockRecord(l) in Ledger(txs, logs, cutoff)
  {
    assert l in Since(logs, LogTime, cutoff);
    LedgerMember(txs, logs, cutoff, RestockRecord(l));
  }

  /** A row is in the ledger exactly when it is a sale row or a restock row
      of the period. */
  lemma LedgerMember(txs: seq<Storage.TransactionRecord>, logs: seq<Storage.InventoryLog>, cutoff: Instant, r: UnifiedRecord)
    ensures r in Ledger(txs, logs, cutoff) <==>
      r in SaleRecords(Since(txs, TxTime, cutoff)) || r in RestockRecords(Since(logs, LogTime, cutoff))
  {
    var both := SaleRecords(Since(txs, TxTime, cutoff)) + RestockRecords(Since(logs, LogTime, cutoff));
    assert r in Ledger(txs, logs, cutoff) <==> r in multiset(Ledger(txs, logs, cutoff));
    assert r in both <==> r in multiset(both);
  }

  /** The ledger holds no adjustment rows: adjustments are not listed. */
  lemma LedgerHasNoAdjustments(txs: seq<Storage.TransactionRecord>, logs: seq<Storage.InventoryLog>, cutoff: Instant)
    ensures forall r :: r in Ledger(txs, logs, cutoff) ==> r.kind != AdjustmentRow
  {
    var sales := SaleRecords(Since(txs, TxTime, cutoff));
    forall r | r in Ledger(txs, logs, cutoff)
      ensures r.kind != AdjustmentRow
    {
      LedgerMember(txs, logs, cutoff, r);
      if r in sales {
        var i :| 0 <= i < |sales| && sales[i] == r;
      }
    }
  }

  // ---------------------------------------------------------------------
  // Summary

  datatype Summary = Summary(
    totalMoney: int,
    totalLiter: int,
    totalProfit: int,
    totalRestock: real,
    totalOpEx: int,
    netProfit: int)

  function Nominal(t: Storage.TransactionRecord): int { t.nominal }
  function Liter(t: Storage.TransactionRecord): int { t.liter }
  function Profit(t: Storage.TransactionRecord): int { t.profit }

  /** The restock total: the sum of the restock costs of the IN logs. */
  function RestockTotal(logs: seq<Storage.InventoryLog>): (total: real)
    ensures total >= 0.0
  {
    if |logs| == 0 then 0.0
    else (if logs[0].logType == Storage.In then RestockCost(logs[0]) else 0.0) + RestockTotal(logs[1..])
  }

  /** The summary figures of the records since the cutoff. */
  function Summarize(txs: seq<Storage.TransactionRecord>, logs: seq<Storage.InventoryLog>,
                     expenses: seq<Expenses.Expense>, cutoff: Instant): Summary
  {
    var sales := Since(txs, TxTime, cutoff);
    var profit := SumOf(sales, Profit);
    var opEx := Expenses.TotalExpenses(Since(expenses, ExpenseTime, cutoff));
    Summary(SumOf(sales, Nominal), SumOf(sales, Liter), profit,
            RestockTotal(Since(logs, LogTime, cutoff)), opEx, profit - opEx)
  }

  /** A sale adds its nominal, litres and profit to the totals, and its
      profit to the net profit, when it is at or after the cutoff; an older
      sale changes nothing. */
  lemma SummaryAfterSale(t: Storage.TransactionRecord, txs: seq<Storage.TransactionRecord>, logs: seq<Storage.InventoryLog>,
                         expenses: seq<Expenses.Expense>, cutoff: Instant)
    ensures var before, after := Summarize(txs, logs, expenses, cutoff), Summarize([t] + txs, logs, expenses, cutoff);
      if t.timestamp >= cutoff then
        after == before.(totalMoney := before.totalMoney + t.nominal, totalLiter := before.totalLiter + t.liter,
                         totalProfit := before.totalProfit + t.profit, netProfit := before.netProfit + t.profit)
      else after == before
  {
    SinceCons(t, txs, TxTime, cutoff);
    var sales := Since(txs, TxTime, cutoff);
    if t.timestamp >= cutoff {
      SumOfCons(t, sales, Nominal);
      SumOfCons(t, sales, Liter);
      SumOfCons(t, sales, Profit);
    }
  }

  /** Only IN logs count as restock: any other log leaves the summary as it
      was, and an IN log at or after the cutoff adds its cost to the restock
      total and nothing else. */
  lemma SummaryAfterLog(l: Storage.InventoryLog, txs: seq<Storage.TransactionRecord>, logs: seq<Storage.InventoryLog>,
                        expenses: seq<Expenses.Expense>, cutoff: Instant)
    ensures var before, after := Summarize(txs, logs, expenses, cutoff), Summarize(txs, [l] + logs, expenses, cutoff);
      if l.logType == Storage.In && l.date >= cutoff then
        after == before.(totalRestock := before.totalRestock + RestockCost(l))
      else after == before
  {
    SinceCons(l, logs, LogTime, cutoff);
    var kept := if l.date >= cutoff then [l] else [];
    assert ([l] + Since(logs, LogTime, cutoff))[1..] == Since(logs, LogTime, cutoff);
  }

  /** An expense at or after the cutoff adds to the operating costs and
      lowers the net profit by its amount. */
  lemma SummaryAfterExpense(e: Expenses.Expense, txs: seq<Storage.TransactionRecord>, logs: seq<Storage.InventoryLog>,
                            expenses: seq<Expenses.Expense>, cutoff: Instant)
    ensures var before, after := Summarize(txs, logs, expenses, cutoff), Summarize(txs, logs, [e] + expenses, cutoff);
      if e.date >= cutoff then
        after == before.(totalOpEx := before.totalOpEx + e.amount, netProfit := before.netProfit - e.amount)
      else after == before
  {
    SinceCons(e, expenses, ExpenseTime, cutoff);
    if e.date >= cutoff {
      Expenses.TotalExpensesAppend(Since(expenses, ExpenseTime, cutoff), [], e);
    }
  }

  /** With nothing recorded every figure is zero. */
  lemma SummaryOfNothing(cutoff: Instant)
    ensures Summarize([], [], [], cutoff) == Summary(0, 0, 0, 0.0, 0, 0)
  {
  }

  // ---------------------------------------------------------------------
  // Sales per hour of day

  const MsPerHour: int := 3600000
  const MsPerDay: int := 86400000

  /** `new Date(t).getHours()` for a clock `offset` milliseconds ahead of UTC. */
  function HourOf(t: Instant, offset: int): (h: int)
    ensures 0 <= h < 24
  {
    ((t + offset) / MsPerHour) % 24
  }

  /** The day number of `t` on the same clock, for `toDateString` equality. */
  function DayOf(t: Instant, offset: int): int {
    (t + offset) / MsPerDay
  }

  /** The sales total of one hour of the day. */
  function HourTotal(txs: seq<Storage.TransactionRecord>, offset: int, h: int): int {
    if |txs| == 0 then 0
    else HourTotal(txs[..|txs| - 1], offset, h) + (if HourOf(txs[|txs| - 1].timestamp, offset) == h then txs[|txs| - 1].nominal else 0)
  }

  /** The totals of the hours below n added up. */
  function HoursUpTo(txs: seq<Storage.TransactionRecord>, offset: int, n: nat): int {
    if n == 0 then 0 else HoursUpTo(txs, offset, n - 1) + HourTotal(txs, offset, n - 1)
  }

  /** The indicator of one hour, summed over the hours below n. */
  function Indicator(k: int, v: int, n: nat): int {
    if n == 0 then 0 else Indicator(k, v, n - 1) + (if k == n - 1 then v else 0)
  }

  lemma {:induction false} IndicatorSum(k: int, v: int, n: nat)
    ensures Indicator(k, v, n) == if 0 <= k < n then v else 0
  {
    if n > 0 {
      IndicatorSum(k, v, n - 1);
    }
  }

  lemma {:induction false} HoursUpToSplit(txs: seq<Storage.TransactionRecord>, offset: int, n: nat)
    requires |txs| > 0
    ensures HoursUpTo(txs, offset, n) ==
      HoursUpTo(txs[..|txs| - 1], offset, n) + Indicator(HourOf(txs[|txs| - 1].timestamp, offset), txs[|txs| - 1].nominal, n)
  {
    if n > 0 {
      HoursUpToSplit(txs, offset, n - 1);
    }
  }

  /** Every sale falls in exactly one hour: the 24 hourly totals add up to
      the total money. */
  lemma {:induction false} HoursAddUp(txs: seq<Storage.TransactionRecord>, offset: int)
    ensures HoursUpTo(txs, offset, 24) == SumOf(txs, Nominal)
  {
    if |txs| == 0 {
      ZeroHours(offset, 24);
    } else {
      var last := txs[|txs| - 1];
      HoursUpToSplit(txs, offset, 24);
      IndicatorSum(HourOf(last.timestamp, offset), last.nominal, 24);
      HoursAddUp(txs[..|txs| - 1], offset);
    }
  }

  lemma {:induction false} ZeroHours(offset: int, n: nat)
    ensures HoursUpTo([], offset, n) == 0
  {
    if n > 0 {
      ZeroHours(offset, n - 1);
    }
  }

  /** The hourly chart: `hourMap[getHours(t)] += t.nominal` for each sale. */
  method HourlyTotals(txs: seq<Storage.TransactionRecord>, offset: int) returns (hours: seq<int>)
    ensures |hours| == 24
    ensures forall h :: 0 <= h < 24 ==> hours[h] == HourTotal(txs, offset, h)
  {
    var buckets := new int[24](_ => 0);
    var i := 0;
    while i < |txs|
      invariant 0 <= i <= |txs|
      invariant forall h :: 0 <= h < 24 ==> buckets[h] == HourTotal(txs[..i], offset, h)
    {
      var t := txs[i];
      var h := HourOf(t.timestamp, offset);
      assert txs[..i + 1][..i] == txs[..i];
      buckets[h] := buckets[h] + t.nominal;
      i := i + 1;
    }
    assert txs[..|txs|] == txs;
    hours := buckets[..];
  }

  /** The sales the hourly chart of the daily tab is drawn from: those of
      the shift in shift mode, else those of today. */
  function ChartSource(txs: seq<Storage.TransactionRecord>, cutoff: Instant, shiftMode: bool, today: int, offset: int)
    : (r: seq<Storage.TransactionRecord>)
    ensures shiftMode ==> r == Since(txs, TxTime, cutoff)
    ensures !shiftMode ==> forall t :: t in r <==> t in txs && DayOf(t.timestamp, offset) == today
  {
    if shiftMode then Since(txs, TxTime, cutoff) else OnDay(txs, today, offset)
  }

  function OnDay(txs: seq<Storage.TransactionRecord>, day: int, offset: int): (r: seq<Storage.TransactionRecord>)
    ensures forall t :: t in r <==> t in txs && DayOf(t.timestamp, offset) == day
  {
    if |txs| == 0 then []
    else if DayOf(txs[0].timestamp, offset) == day then [txs[0]] + OnDay(txs[1..], day, offset)
    else OnDay(txs[1..], day, offset)
  }

  // ---------------------------------------------------------------------
  // Payment methods

  /** The credit sales: those whose payment method is DEBT. */
  function CountDebt(txs: seq<Storage.TransactionRecord>): (n: nat)
    ensures n <= |txs|
  {
    if |txs| == 0 then 0
    else CountDebt(txs[..|txs| - 1]) + (if txs[|txs| - 1].paymentMethod == Some("DEBT") then 1 else 0)
  }

  /** The payment chart: every sale not marked DEBT counts as cash. */
  method PaymentStats(txs: seq<Storage.TransactionRecord>) returns (cash: nat, debt: nat)
    ensures debt == CountDebt(txs)
    ensures cash + debt == |txs|
  {
    cash, debt := 0, 0;
    var i := 0;
    while i < |txs|
      invariant 0 <= i <= |txs|
      invariant debt == CountDebt(txs[..i]) && cash + debt == i
    {
      assert txs[..i + 1][..i] == txs[..i];
      if txs[i].paymentMethod == Some("DEBT") {
        debt := debt + 1;
      } else {
        cash := cash + 1;
      }
      i := i + 1;
    }
    assert txs[..|txs|] == txs;
  }

  /** A credit sale of the POS counts as debt and a cash sale as cash. */
  lemma SaleMethodCounted(txs: seq<Storage.TransactionRecord>, t: Storage.TransactionRecord)
    ensures t.paymentMethod == Some("DEBT") ==> CountDebt(txs + [t]) == CountDebt(txs) + 1
    ensures t.paymentMethod == None ==> CountDebt(txs + [t]) == CountDebt(txs)
  {
    assert (txs + [t])[..|txs + [t]| - 1] == txs;
  }

  // ---------------------------------------------------------------------
  // Deleting rows and void requests

  /** A stored sale as the JSON object read from storage. */
  function SaleFields(t: Storage.TransactionRecord): map<string, Json> {
    var base := map["id" := JStr(t.id), "timestamp" := Num(t.timestamp), "nominal" := Num(t.nominal),
                    "liter" := Centi(t.liter), "cost" := Num(t.cost), "profit" := Num(t.profit),
                    "isSpecialRule" := JBool(t.isSpecialRule)];
    if t.paymentMethod.Some? then base["paymentMethod" := JStr(t.paymentMethod.value)] else base
  }

  /** An inventory log as the JSON object read from storage. */
  function LogFields(l: Storage.InventoryLog): map<string, Json> {
    var base := map["id" := JStr(l.id), "date" := Num(l.date), "type" := JStr(Storage.LogTypeName(l.logType)),
                    "volume" := Centi(l.volume), "costPerLiter" := Num(l.costPerLiter)];
    if l.notes.Some? then base["notes" := JStr(l.notes.value)] else base
  }

  function OriginFields(o: Origin): map<string, Json> {
    match o
    case OfSale(t) => SaleFields(t)
    case OfLog(l) => LogFields(l)
  }

  /** The body of a void request: the stored record, with the reason and
      the row's id written over it. */
  function VoidPayload(item: UnifiedRecord, reason: string): (p: Json)
    ensures Get(p, "reason") == Some(JStr(reason)) && Get(p, "id") == Some(JStr(item.id))
    ensures forall k :: k in OriginFields(item.origin) && k != "reason" && k != "id" ==> Get(p, k) == Some(OriginFields(item.origin)[k])
  {
    JObj(Spread(OriginFields(item.origin), map["reason" := JStr(reason), "id" := JStr(item.id)]))
  }

  /** The request type of a void: sales void transactions, every other row
      voids an inventory log. */
  function VoidType(item: UnifiedRecord): Services.RequestType {
    if item.kind == SaleRow then Services.VoidTransaction else Services.VoidInventory
  }

  /** The deletion an administrator performs on a row directly. */
  function DirectDeletion(item: UnifiedRecord): Option<Services.Call> {
    match item.kind
    case SaleRow => Some(Services.DeleteTransaction(Some(JStr(item.id)), Some(Centi(item.liter)), Some(JNum(item.nominal))))
    case RestockRow => Some(Services.DeleteInventoryLog(Some(JStr(item.id))))
    case AdjustmentRow => None
  }

  /** Approving a cashier's void request for a ledger row deletes the same
      record, with the same litres and nominal, as the administrator's
      direct deletion of that row. */
  lemma ApprovedVoidMatchesDirectDeletion(item: UnifiedRecord, reason: string, requestId: string, createdAt: Instant)
    requires item.id != ""
    requires (item.origin.OfSale? && item == SaleRecord(item.origin.sale)) || (item.origin.OfLog? && item == RestockRecord(item.origin.log))
    ensures var req := Requests.Request(requestId, VoidType(item), VoidPayload(item, reason), Requests.Pending, createdAt);
      DirectDeletion(item) == Some(Requests.Deletion(req))
  {
    var p := VoidPayload(item, reason);
    if item.kind == SaleRow {
      var t := item.origin.sale;
      assert Get(p, "liter") == Some(Centi(t.liter));
      assert Get(p, "nominal") == Some(Num(t.nominal));
    }
  }

  datatype Toast = Deleted | DeleteFailed | MissingReason | RequestSent | RequestFailed

  class ReportsScreen {
    var ledger: seq<UnifiedRecord>
    var summary: Summary
    var hourly: seq<int>
    var chart: seq<int>
    var cashCount: nat
    var debtCount: nat
    var showRequestModal: bool
    var selectedItem: Option<UnifiedRecord>
    var requestReason: string
    var toast: Option<Toast>

    constructor ()
      ensures ledger == [] && summary == Summary(0, 0, 0, 0.0, 0, 0) && !showRequestModal && selectedItem == None
    {
      ledger := [];
      summary := Summary(0, 0, 0, 0.0, 0, 0);
      hourly := [];
      chart := [];
      cashCount, debtCount := 0, 0;
      showRequestModal := false;
      selectedItem := None;
      requestReason := "";
      toast := None;
    }

    /** `processData` for a cutoff: the ledger, the summary, the hourly
        totals of the sales since the cutoff, the hourly chart of the daily
        tab and the payment counts. */
    method ProcessData(txs: seq<Storage.TransactionRecord>, logs: seq<Storage.InventoryLog>, expenses: seq<Expenses.Expense>,
                       cutoff: Instant, shiftMode: bool, today: int, offset: int)
      modifies this
      ensures ledger == Ledger(txs, logs, cutoff)
      ensures summary == Summarize(txs, logs, expenses, cutoff)
      ensures ChartsOf(Since(txs, TxTime, cutoff), ChartSource(txs, cutoff, shiftMode, today, offset), offset)
      ensures showRequestModal == old(showRequestModal) && selectedItem == old(selectedItem) && toast == old(toast)
      ensures requestReason == old(requestReason)
    {
      ledger := Ledger(txs, logs, cutoff);
      summary := Summarize(txs, logs, expenses, cutoff);
      Charts(Since(txs, TxTime, cutoff), ChartSource(txs, cutoff, shiftMode, today, offset), offset);
    }

    /** What the charts show for the sales of the period and those the
        daily chart is drawn from. */
    ghost predicate ChartsOf(sales: seq<Storage.TransactionRecord>, source: seq<Storage.TransactionRecord>, offset: int)
      reads this
    {
      |hourly| == 24 && (forall h :: 0 <= h < 24 ==> hourly[h] == HourTotal(sales, offset, h)) &&
      |chart| == 24 && (forall h :: 0 <= h < 24 ==> chart[h] == HourTotal(source, offset, h)) &&
      debtCount == CountDebt(sales) && cashCount + debtCount == |sales|
    }

    method Charts(sales: seq<Storage.TransactionRecord>, source: seq<Storage.TransactionRecord>, offset: int)
      modifies this
      ensures ChartsOf(sales, source, offset)
      ensures ledger == old(ledger) && summary == old(summary)
      ensures showRequestModal == old(showRequestModal) && selectedItem == old(selectedItem) && toast == old(toast)
      ensures requestReason == old(requestReason)
    {
      hourly := HourlyTotals(sales, offset);
      chart := HourlyTotals(source, offset);
      cashCount, debtCount := PaymentStats(sales);
    }

    /** `handleActionClick`: an administrator who confirms deletes a sale or
        a restock row directly; anyone else gets the void dialog for the row
        with an empty reason. */
    method HandleActionClick(user: Option<Services.User>, item: UnifiedRecord, confirmed: bool, deleteOk: bool)
      returns (calls: seq<Services.Call>)
      modifies this
      ensures user.Some? && user.value.isAdmin && confirmed && DirectDeletion(item).Some? ==>
        calls == [DirectDeletion(item).value] && toast == Some(if deleteOk then Deleted else DeleteFailed)
      ensures user.Some? && user.value.isAdmin && (!confirmed || DirectDeletion(item).None?) ==> calls == [] && toast == old(toast)
      ensures user.Some? && user.value.isAdmin ==>
        selectedItem == old(selectedItem) && showRequestModal == old(showRequestModal) && requestReason == old(requestReason)
      ensures hourly == old(hourly) && chart == old(chart) && cashCount == old(cashCount) && debtCount == old(debtCount)
      ensures !(user.Some? && user.value.isAdmin) ==>
        calls == [] && selectedItem == Some(item) && requestReason == "" && showRequestModal && toast == old(toast)
      ensures ledger == old(ledger) && summary == old(summary)
    {
      calls := [];
      if user.Some? && user.value.isAdmin {
        var deletion := DirectDeletion(item);
        if confirmed && deletion.Some? {
          calls := [deletion.value];
          toast := Some(if deleteOk then Deleted else DeleteFailed);
        }
      } else {
        selectedItem := Some(item);
        requestReason := "";
        showRequestModal := true;
      }
    }

    /** The dialog's send button: a reason of only white space is refused;
        otherwise the void request is filed under the user's name, or
        'Unknown', and the dialog closes once it was sent. */
    method SubmitVoidRequest(user: Option<Services.User>, addOk: bool) returns (calls: seq<Services.Call>)
      modifies this
      ensures old(selectedItem).None? ==> calls == [] && toast == old(toast)
      ensures old(selectedItem).Some? && !HasNonBlank(old(requestReason)) ==> calls == [] && toast == Some(MissingReason)
      ensures old(selectedItem).Some? && HasNonBlank(old(requestReason)) ==>
        calls == [Services.AddRequest(VoidType(old(selectedItem).value), VoidPayload(old(selectedItem).value, old(requestReason)),
                                      Services.RequesterName(user))]
      ensures old(selectedItem).Some? && HasNonBlank(old(requestReason)) && addOk ==> toast == Some(RequestSent) && !showRequestModal
      ensures old(selectedItem).Some? && HasNonBlank(old(requestReason)) && !addOk ==>
        toast == Some(RequestFailed) && showRequestModal == old(showRequestModal)
      ensures calls == [] ==> showRequestModal == old(showRequestModal)
      ensures ledger == old(ledger) && summary == old(summary) && selectedItem == old(selectedItem)
      ensures requestReason == old(requestReason)
      ensures hourly == old(hourly) && chart == old(chart) && cashCount == old(cashCount) && debtCount == old(debtCount)
    {
      calls := [];
      if selectedItem.None? {
        return;
      }
      var item := selectedItem.value;
      if !HasNonBlank(requestReason) {
        toast := Some(MissingReason);
        return;
      }
      calls := [Services.AddRequest(VoidType(item), VoidPayload(item, requestReason), Services.RequesterName(user))];
      if addOk {
        toast := Some(RequestSent);
        showRequestModal := false;
      } else {
        toast := Some(RequestFailed);
      }
    }
  }

  /** The hourly totals the screen shows add up to its total money. */
  lemma HourlyMatchesSummary(txs: seq<Storage.TransactionRecord>, logs: seq<Storage.InventoryLog>,
                             expenses: seq<Expenses.Expense>, cutoff: Instant, offset: int)
    ensures HoursUpTo(Since(txs, TxTime, cutoff), offset, 24) == Summarize(txs, logs, expenses, cutoff).totalMoney
  {
    HoursAddUp(Since(txs, TxTime, cutoff), offset);
  }
}
