/** The storage service: inventory logs, sale records and pricing rules.
    With a remote client every read and write goes to the backend, whose
    answers are parameters here. Without a client the records live in the
    device-local store, modelled as the fields of `Store`. The current stock
    is derived from the two lists, never stored. Volumes and litres are in
    centilitres. */
module Storage {
  import opened Common
  import FuelLogic

  datatype LogType = In | Out | Adjustment

  /** The name a log type is stored under. */
  function LogTypeName(t: LogType): string {
    match t
    case In => "IN"
    case Out => "OUT"
    case Adjustment => "ADJUSTMENT"
  }

  /** One inventory movement; `volume` in centilitres, `costPerLiter` in rupiah. */
  datatype InventoryLog = InventoryLog(
    id: string,
    date: Instant,
    logType: LogType,
    volume: int,
    costPerLiter: int,
    notes: Option<string>)

  /** What a caller supplies to `addInventoryLog`: a log without id and date. */
  datatype LogInput = LogInput(logType: LogType, volume: int, costPerLiter: int, notes: Option<string>)

  /** A stored sale: the priced result plus an id and a timestamp. A caller
      may add a payment method to the result it passes; the local store
      keeps it, the remote table has no column for it. */
  datatype TransactionRecord = TransactionRecord(
    id: string,
    timestamp: Instant,
    nominal: int,
    liter: int,
    cost: int,
    profit: int,
    isSpecialRule: bool,
    paymentMethod: Option<string>)

  /** What a caller supplies to `addTransaction`. */
  datatype Sale = Sale(result: FuelLogic.TransactionResult, paymentMethod: Option<string>)

  datatype PricingRule = PricingRule(id: string, nominal: int, liter: int, isActive: bool)

  /** A row of the remote `transactions` table. */
  datatype RemoteTransaction = RemoteTransaction(
    id: string,
    timestamp: Instant,
    nominal: int,
    liter: int,
    profit: int,
    isSpecialRule: bool)

  /** The answer to a remote select: the rows, or an error result. */
  datatype Read<T> = Rows(rows: seq<T>) | ReadError

  /** The answer to a remote insert: the generated id and date, or an error. */
  datatype InsertReply = Inserted(id: string, date: Instant) | InsertFailed(message: string)

  function NewLog(input: LogInput, id: string, date: Instant): InventoryLog {
    InventoryLog(id, date, input.logType, input.volume, input.costPerLiter, input.notes)
  }

  function NewRecord(sale: Sale, id: string, timestamp: Instant): TransactionRecord {
    var r := sale.result;
    TransactionRecord(id, timestamp, r.nominal, r.liter, r.cost, r.profit, r.isSpecialRule, sale.paymentMethod)
  }

  /** The mapping of a remote row: the cost is not stored remotely and reads as 0. */
  function FromRemote(row: RemoteTransaction): (t: TransactionRecord)
    ensures t.cost == 0 && t.paymentMethod == None
    ensures t.id == row.id && t.timestamp == row.timestamp
    ensures t.nominal == row.nominal && t.liter == row.liter && t.profit == row.profit
    ensures t.isSpecialRule == row.isSpecialRule
  {
    TransactionRecord(row.id, row.timestamp, row.nominal, row.liter, 0, row.profit, row.isSpecialRule, None)
  }

  function FromRemoteAll(rows: seq<RemoteTransaction>): (ts: seq<TransactionRecord>)
    ensures |ts| == |rows|
    ensures forall i :: 0 <= i < |rows| ==> ts[i] == FromRemote(rows[i])
  {
    if |rows| == 0 then [] else [FromRemote(rows[0])] + FromRemoteAll(rows[1..])
  }

  /** The pricing rules stored on first read when none exist. */
  function DefaultPricing(): seq<PricingRule> {
    [PricingRule("1", 10000, 70, true),
     PricingRule("2", 6000, 50, true),
     PricingRule("3", 15000, 120, true)]
  }

  // ---------------------------------------------------------------------
  // Derived stock

  /** The total volume of the logs whose type is in `types`, summed in list order. */
  function LogVolume(logs: seq<InventoryLog>, types: set<LogType>): int {
    if |logs| == 0 then 0
    else
      var last := logs[|logs| - 1];
      LogVolume(logs[..|logs| - 1], types) + (if last.logType in types then last.volume else 0)
  }

  /** The total litres of the sales, summed in list order. */
  function SoldLiter(txs: seq<TransactionRecord>): int {
    if |txs| == 0 then 0 else SoldLiter(txs[..|txs| - 1]) + txs[|txs| - 1].liter
  }

  /** `getCurrentStock`: deliveries and adjustments, minus the litres sold,
      minus the manual withdrawals. Every term is a whole number of
      centilitres, so rounding to two decimals leaves it unchanged. */
  function Stock(logs: seq<InventoryLog>, txs: seq<TransactionRecord>): int {
    LogVolume(logs, {In, Adjustment}) - SoldLiter(txs) - LogVolume(logs, {Out})
  }

  /** How much one log moves the stock. */
  function Effect(t: LogType, volume: int): int {
    match t
    case In => volume
    case Adjustment => volume
    case Out => -volume
  }

  lemma {:induction false} LogVolumePrepend(log: InventoryLog, logs: seq<InventoryLog>, types: set<LogType>)
    ensures LogVolume([log] + logs, types) == (if log.logType in types then log.volume else 0) + LogVolume(logs, types)
    decreases |logs|
  {
    if |logs| == 0 {
      assert ([log] + logs)[..0] == [];
    } else {
      assert ([log] + logs)[..|logs|] == [log] + logs[..|logs| - 1];
      LogVolumePrepend(log, logs[..|logs| - 1], types);
    }
  }

  lemma {:induction false} SoldLiterPrepend(t: TransactionRecord, txs: seq<TransactionRecord>)
    ensures SoldLiter([t] + txs) == t.liter + SoldLiter(txs)
    decreases |txs|
  {
    if |txs| == 0 {
      assert ([t] + txs)[..0] == [];
    } else {
      assert ([t] + txs)[..|txs|] == [t] + txs[..|txs| - 1];
      SoldLiterPrepend(t, txs[..|txs| - 1]);
    }
  }

  /** A new log raises the stock by its volume (IN, ADJUSTMENT) or lowers it
      by its volume (OUT). */
  lemma StockAfterLog(log: InventoryLog, logs: seq<InventoryLog>, txs: seq<TransactionRecord>)
    ensures Stock([log] + logs, txs) == Stock(logs, txs) + Effect(log.logType, log.volume)
  {
    LogVolumePrepend(log, logs, {In, Adjustment});
    LogVolumePrepend(log, logs, {Out});
  }

  /** A new sale lowers the stock by its litres. */
  lemma StockAfterSale(t: TransactionRecord, logs: seq<InventoryLog>, txs: seq<TransactionRecord>)
    ensures Stock(logs, [t] + txs) == Stock(logs, txs) - t.liter
  {
    SoldLiterPrepend(t, txs);
  }

  /** Nothing recorded, nothing in stock. */
  lemma StockOfNothing()
    ensures Stock([], []) == 0
  {
  }

  /** The seeded rules are exactly the package prices of the sale pricing:
      each default carries the litres `calculateTransaction` gives its
      nominal, and every package amount has a default. */
  lemma DefaultsArePackages()
    ensures forall r :: r in DefaultPricing() ==>
      r.isActive && FuelLogic.IsPackageAmount(r.nominal) && r.liter == FuelLogic.CalculateTransaction(r.nominal).liter
    ensures forall amount :: FuelLogic.IsPackageAmount(amount) ==>
      exists r :: r in DefaultPricing() && r.nominal == amount
  {
    var d := DefaultPricing();
    assert d[0].nominal == 10000 && d[1].nominal == 6000 && d[2].nominal == 15000;
  }

  // ---------------------------------------------------------------------
  // The service

  class Store {
    /** Whether a remote client was configured; it never changes. */
    const client: Client
    /** The device-local lists, newest first. */
    var inventory: seq<InventoryLog>
    var transactions: seq<TransactionRecord>
    /** The stored pricing rules, absent until the first read seeds them. */
    var pricing: Option<seq<PricingRule>>

    constructor (client: Client)
      ensures this.client == client
      ensures inventory == [] && transactions == [] && pricing == None
    {
      this.client := client;
      inventory := [];
      transactions := [];
      pricing := None;
    }

    /** `getInventoryLogs`: the remote rows (none after a read error), or the local list. */
    function InventoryLogs(remote: Read<InventoryLog>): (logs: seq<InventoryLog>)
      reads this
      ensures client.Unconfigured? ==> logs == inventory
      ensures client.Configured? && remote.ReadError? ==> logs == []
      ensures client.Configured? && remote.Rows? ==> logs == remote.rows
    {
      if client.Unconfigured? then inventory
      else if remote.ReadError? then []
      else remote.rows
    }

    /** `getTransactions`: the mapped remote rows (none after a read error), or the local list. */
    function Transactions(remote: Read<RemoteTransaction>): (txs: seq<TransactionRecord>)
      reads this
      ensures client.Unconfigured? ==> txs == transactions
      ensures client.Configured? && remote.ReadError? ==> txs == []
      ensures client.Configured? && remote.Rows? ==>
        |txs| == |remote.rows| && forall i :: 0 <= i < |txs| ==> txs[i].cost == 0 && txs[i].liter == remote.rows[i].liter
    {
      if client.Unconfigured? then transactions
      else if remote.ReadError? then []
      else FromRemoteAll(remote.rows)
    }

    /** `getCurrentStock` over whatever the two reads return. */
    function CurrentStock(remoteLogs: Read<InventoryLog>, remoteTxs: Read<RemoteTransaction>): (stock: int)
      reads this
      ensures client.Unconfigured? ==> stock == Stock(inventory, transactions)
      ensures client.Configured? && remoteLogs.Rows? && remoteTxs.Rows? ==>
        stock == Stock(remoteLogs.rows, FromRemoteAll(remoteTxs.rows))
      ensures client.Configured? && remoteLogs.Rows? && remoteTxs.ReadError? ==>
        stock == LogVolume(remoteLogs.rows, {In, Adjustment}) - LogVolume(remoteLogs.rows, {Out})
      ensures client.Configured? && remoteLogs.ReadError? && remoteTxs.Rows? ==>
        stock == -SoldLiter(FromRemoteAll(remoteTxs.rows))
      ensures client.Configured? && remoteLogs.ReadError? && remoteTxs.ReadError? ==> stock == 0
    {
      Stock(InventoryLogs(remoteLogs), Transactions(remoteTxs))
    }

    /** `addInventoryLog`. Without a client the new log, with a fresh id and
        the current date, goes in front of the local list and the stock moves
        by its effect. With a client nothing local changes: the backend's id
        and date are returned, or its error is rethrown. */
    method AddInventoryLog(input: LogInput, reply: InsertReply, freshId: string, now: Instant)
      returns (r: Result<InventoryLog>)
      modifies this
      ensures client.Unconfigured? ==>
        r == Ok(NewLog(input, freshId, now)) && inventory == [r.value] + old(inventory)
      ensures client.Unconfigured? ==>
        Stock(inventory, transactions) == old(Stock(inventory, transactions)) + Effect(input.logType, input.volume)
      ensures client.Configured? ==> inventory == old(inventory)
      ensures client.Configured? && reply.Inserted? ==> r == Ok(NewLog(input, reply.id, reply.date))
      ensures client.Configured? && reply.InsertFailed? ==> r == Err(reply.message)
      ensures transactions == old(transactions) && pricing == old(pricing)
    {
      if client.Configured? {
        match reply
        case InsertFailed(message) =>
          return Err(message);
        case Inserted(id, date) =>
          return Ok(NewLog(input, id, date));
      }
      var log := NewLog(input, freshId, now);
      StockAfterLog(log, inventory, transactions);
      inventory := [log] + inventory;
      r := Ok(log);
    }

    /** `addTransaction`, the same way for sales: the new record goes in front
        of the local list and the stock drops by its litres. */
    method AddTransaction(sale: Sale, reply: InsertReply, freshId: string, now: Instant)
      returns (r: Result<TransactionRecord>)
      modifies this
      ensures client.Unconfigured? ==>
        r == Ok(NewRecord(sale, freshId, now)) && transactions == [r.value] + old(transactions)
      ensures client.Unconfigured? ==>
        Stock(inventory, transactions) == old(Stock(inventory, transactions)) - sale.result.liter
      ensures client.Configured? ==> transactions == old(transactions)
      ensures client.Configured? && reply.Inserted? ==> r == Ok(NewRecord(sale, reply.id, reply.date))
      ensures client.Configured? && reply.InsertFailed? ==> r == Err(reply.message)
      ensures inventory == old(inventory) && pricing == old(pricing)
    {
      if client.Configured? {
        match reply
        case InsertFailed(message) =>
          return Err(message);
        case Inserted(id, date) =>
          return Ok(NewRecord(sale, id, date));
      }
      var record := NewRecord(sale, freshId, now);
      StockAfterSale(record, inventory, transactions);
      transactions := [record] + transactions;
      r := Ok(record);
    }

    /** `getPricingRules`. Non-empty remote rows win. Otherwise the local
        rules are returned, and when none are stored the three defaults are
        stored first, so that every later read returns the same list. */
    method GetPricingRules(remote: Option<seq<PricingRule>>) returns (rules: seq<PricingRule>)
      modifies this
      ensures client.Configured? && remote.Some? && |remote.value| > 0 ==>
        rules == remote.value && pricing == old(pricing)
      ensures !(client.Configured? && remote.Some? && |remote.value| > 0) ==>
        pricing == Some(rules) &&
        (old(pricing).None? ==> rules == DefaultPricing()) &&
        (old(pricing).Some? ==> rules == old(pricing).value)
      ensures inventory == old(inventory) && transactions == old(transactions)
    {
      if client.Configured? && remote.Some? && |remote.value| > 0 {
        return remote.value;
      }
      if pricing.None? {
        pricing := Some(DefaultPricing());
      }
      rules := pricing.value;
    }
  }
}
