/** The point-of-sale screen: a keypad edits the tendered amount, the sale is
    priced from it, and processing a sale writes the transaction and then an
    OUT inventory log through the storage service. A sale on credit (kasbon)
    also records a debt for the selected customer. */
module Pos {
  import opened Common
  import FuelLogic
  import Storage
  import Services

  /** The preset amount buttons. */
  const Presets: seq<nat> := [10000, 15000, 20000, 50000, 6000]

  /** The longest amount the keypad lets one type. */
  const MaxDigits: nat := 7

  /** A keypad press: a preset button, DEL, or a digit button (which passes
      its digit as text). */
  datatype Key = Preset(value: nat) | Del | Press(text: string)

  datatype Customer = Customer(id: string, name: string)

  /** The figures the success dialog shows. */
  datatype LastSale = LastSale(nominal: int, liter: int, profit: int)

  datatype SaleOutcome = Ignored | InsufficientStock | Failed(message: string) | Completed

  // ---------------------------------------------------------------------
  // The amount display

  /** What the display can hold: "0", or 1 to 7 digits without a leading zero. */
  predicate WellFormedAmount(s: string) {
    s == "0" || (1 <= |s| <= MaxDigits && AllDigits(s) && s[0] != '0')
  }

  /** A display of "0" is edited as the empty string. */
  function Editable(s: string): string {
    if s == "0" then "" else s
  }

  /** `handleInput`: the display after one key press. */
  function NextAmount(s: string, key: Key): string {
    var edit := Editable(s);
    match key
    case Preset(v) => DecimalString(v)
    case Del =>
      var cut := if |edit| == 0 then "" else edit[..|edit| - 1];
      if |cut| == 0 then "0" else cut
    case Press(t) => if |edit| < MaxDigits then edit + t else s
  }

  /** The keys the screen offers: presets below ten million and single digits. */
  predicate OfferedKey(key: Key) {
    match key
    case Preset(v) => v < Pow10(MaxDigits)
    case Del => true
    case Press(t) => |t| == 1 && IsDigit(t[0])
  }

  /** The longest run of digits at the start of s. */
  function LeadingDigits(s: string): (r: string)
    ensures AllDigits(r) && |r| <= |s| && r == s[..|r|]
    ensures |r| < |s| ==> !IsDigit(s[|r|])
  {
    if |s| == 0 || !IsDigit(s[0]) then "" else [s[0]] + LeadingDigits(s[1..])
  }

  /** `parseInt(s) || 0` on a string without white space or sign. */
  function ParseInt(s: string): nat {
    var d := LeadingDigits(s);
    if |d| == 0 then 0 else DecimalValue(d)
  }

  /** The amount a display string denotes: `parseInt(s.replace(/\./g, '')) || 0`. */
  function ParseAmount(s: string): nat {
    ParseInt(RemoveDots(s))
  }

  lemma {:induction false} LeadingDigitsOfDigits(s: string)
    requires AllDigits(s)
    ensures LeadingDigits(s) == s
  {
    if |s| > 0 {
      LeadingDigitsOfDigits(s[1..]);
    }
  }

  /** A string of digits parses to the number it denotes. */
  lemma ParseDigits(s: string)
    requires AllDigits(s)
    ensures ParseAmount(s) == DecimalValue(s)
  {
    LeadingDigitsOfDigits(s);
  }

  /** Every display the keypad produces is well formed, so the amount is
      below ten million. */
  lemma KeypadKeepsShape(s: string, key: Key)
    requires WellFormedAmount(s) && OfferedKey(key)
    ensures WellFormedAmount(NextAmount(s, key))
    ensures ParseAmount(NextAmount(s, key)) < Pow10(MaxDigits)
  {
    var r := NextAmount(s, key);
    match key {
      case Preset(v) =>
        ShortDecimal(r, MaxDigits);
      case Del =>
        var edit := Editable(s);
        if |edit| > 1 {
          assert r == edit[..|edit| - 1] && r[0] == edit[0];
        }
      case Press(t) =>
        if |Editable(s)| < MaxDigits {
          assert r == Editable(s) + t;
          if |Editable(s)| > 0 {
            assert r[0] == s[0];
          }
        }
    }
    ParseDigits(r);
    DecimalValueUpper(r);
    Pow10Monotone(|r|, MaxDigits);
  }

  /** A preset replaces the amount with its own value. */
  lemma PresetSetsAmount(s: string, v: nat)
    ensures ParseAmount(NextAmount(s, Preset(v))) == v
  {
    ParseDigits(DecimalString(v));
  }

  /** A digit shifts the amount one place left and adds the digit, while
      there is room; on a full display it is ignored. */
  lemma DigitAppends(s: string, c: char)
    requires WellFormedAmount(s) && IsDigit(c)
    ensures |Editable(s)| < MaxDigits ==> ParseAmount(NextAmount(s, Press([c]))) == 10 * ParseAmount(s) + DigitValue(c)
    ensures |Editable(s)| >= MaxDigits ==> NextAmount(s, Press([c])) == s
  {
    var edit := Editable(s);
    if |edit| < MaxDigits {
      var r := edit + [c];
      assert NextAmount(s, Press([c])) == r;
      assert r[..|r| - 1] == edit;
      ParseDigits(s);
      ParseDigits(r);
      if s == "0" {
        assert DecimalValue("0") == 0;
      }
    }
  }

  /** DEL drops the last digit: the amount is divided by ten, rounding down. */
  lemma DelDrops(s: string)
    requires WellFormedAmount(s)
    ensures ParseAmount(NextAmount(s, Del)) == ParseAmount(s) / 10
  {
    ParseDigits(s);
    var edit := Editable(s);
    if s == "0" {
      assert DecimalValue("0") == 0;
      ParseDigits("0");
    } else {
      var cut := edit[..|edit| - 1];
      assert DecimalValue(s) == DecimalValue(cut) * 10 + DigitValue(s[|s| - 1]);
      if |cut| == 0 {
        ParseDigits("0");
        assert DecimalValue("0") == 0;
        assert DecimalValue(cut) == 0;
      } else {
        ParseDigits(cut);
      }
    }
  }

  // ---------------------------------------------------------------------
  // Customers of the credit dialog

  /** The "add customer" button: a name is typed and no customer has it,
      ignoring case. */
  function AddCustomerShown(name: string, customers: seq<Customer>): (shown: bool)
    ensures shown ==> name != ""
    ensures shown ==> forall i :: 0 <= i < |customers| ==> Lower(customers[i].name) != Lower(name)
    ensures !shown && name != "" ==> exists i :: 0 <= i < |customers| && Lower(customers[i].name) == Lower(name)
  {
    name != "" && forall i :: 0 <= i < |customers| ==> Lower(customers[i].name) != Lower(name)
  }

  /** The customers listed for a search: names containing it, ignoring case. */
  function MatchingCustomers(customers: seq<Customer>, term: string): (r: seq<Customer>)
    ensures forall c :: c in r <==> c in customers && Includes(Lower(c.name), Lower(term))
  {
    if |customers| == 0 then []
    else if Includes(Lower(customers[0].name), Lower(term)) then [customers[0]] + MatchingCustomers(customers[1..], term)
    else MatchingCustomers(customers[1..], term)
  }

  /** When the button is hidden for a typed name, a customer with that name
      (ignoring case) is in the list shown; once that name is added, the
      button disappears. */
  lemma AddCustomerHiddenMeansListed(name: string, customers: seq<Customer>)
    requires name != "" && !AddCustomerShown(name, customers)
    ensures exists c :: c in MatchingCustomers(customers, name) && Lower(c.name) == Lower(name)
  {
    var i :| 0 <= i < |customers| && Lower(customers[i].name) == Lower(name);
    assert OccursAt(Lower(customers[i].name), Lower(name), 0);
    assert customers[i] in MatchingCustomers(customers, name);
  }

  lemma AddedCustomerHidesButton(name: string, customers: seq<Customer>, c: Customer)
    requires c.name == name
    ensures !AddCustomerShown(name, customers + [c])
  {
    assert (customers + [c])[|customers|] == c;
  }

  // ---------------------------------------------------------------------
  // Stock accounting of a sale

  /** The OUT log a cash sale writes. */
  function SaleLog(r: FuelLogic.TransactionResult): Storage.LogInput {
    Storage.LogInput(Storage.Out, r.liter, 0, Some("Sales Transaction"))
  }

  /** The OUT log a credit sale writes. */
  function DebtLog(r: FuelLogic.TransactionResult, customer: Customer): Storage.LogInput {
    Storage.LogInput(Storage.Out, r.liter, 0, Some("Kasbon: " + customer.name))
  }

  /** A completed sale is counted twice by the derived stock: once as sold
      litres and once as the OUT log written with it. */
  lemma SaleCountsTwice(sale: Storage.Sale, log: Storage.LogInput, logs: seq<Storage.InventoryLog>, txs: seq<Storage.TransactionRecord>,
                        txId: string, logId: string, now: Instant)
    requires log.logType == Storage.Out && log.volume == sale.result.liter
    ensures Storage.Stock([Storage.NewLog(log, logId, now)] + logs, [Storage.NewRecord(sale, txId, now)] + txs)
      == Storage.Stock(logs, txs) - 2 * sale.result.liter
  {
    Storage.StockAfterLog(Storage.NewLog(log, logId, now), logs, [Storage.NewRecord(sale, txId, now)] + txs);
    Storage.StockAfterSale(Storage.NewRecord(sale, txId, now), logs, txs);
  }

  // ---------------------------------------------------------------------
  // The screen

  class PosScreen {
    var amountStr: string
    /** The stock as last read from the storage service. */
    var currentStock: int
    var showModal: bool
    var lastSale: LastSale
    var showDebtModal: bool
    var customers: seq<Customer>
    var selectedCustomer: Option<Customer>
    var newCustomerName: string

    constructor ()
      ensures amountStr == "0" && currentStock == 0 && !showModal && !showDebtModal
      ensures customers == [] && selectedCustomer == None && newCustomerName == ""
    {
      amountStr := "0";
      currentStock := 0;
      showModal := false;
      lastSale := LastSale(0, 0, 0);
      showDebtModal := false;
      customers := [];
      selectedCustomer := None;
      newCustomerName := "";
    }

    /** The priced sale for the current display. */
    function Result(): FuelLogic.TransactionResult
      reads this
    {
      FuelLogic.CalculateTransaction(ParseAmount(amountStr))
    }

    /** `handleInput`. */
    method HandleInput(key: Key)
      modifies this
      ensures amountStr == NextAmount(old(amountStr), key)
      ensures currentStock == old(currentStock) && showModal == old(showModal) && showDebtModal == old(showDebtModal)
      ensures customers == old(customers) && selectedCustomer == old(selectedCustomer) && lastSale == old(lastSale)
      ensures newCustomerName == old(newCustomerName)
    {
      amountStr := NextAmount(amountStr, key);
    }

    /** The C key. */
    method Clear()
      modifies this
      ensures amountStr == "0" && Result().nominal == 0
      ensures currentStock == old(currentStock) && showModal == old(showModal) && showDebtModal == old(showDebtModal)
      ensures customers == old(customers) && selectedCustomer == old(selectedCustomer) && lastSale == old(lastSale)
      ensures newCustomerName == old(newCustomerName)
    {
      amountStr := "0";
      ParseDigits("0");
      assert DecimalValue("0") == 0;
    }

    /** `closeModal`: the dialog closes and the display resets. */
    method CloseModal()
      modifies this
      ensures !showModal && amountStr == "0"
      ensures currentStock == old(currentStock) && showDebtModal == old(showDebtModal)
      ensures customers == old(customers) && selectedCustomer == old(selectedCustomer) && lastSale == old(lastSale)
      ensures newCustomerName == old(newCustomerName)
    {
      showModal := false;
      amountStr := "0";
    }

    /** `updateStock`: the stock the storage service derives now. */
    method UpdateStock(store: Storage.Store, remoteLogs: Storage.Read<Storage.InventoryLog>, remoteTxs: Storage.Read<Storage.RemoteTransaction>)
      modifies this
      ensures currentStock == store.CurrentStock(remoteLogs, remoteTxs)
      ensures amountStr == old(amountStr) && showModal == old(showModal) && showDebtModal == old(showDebtModal)
      ensures customers == old(customers) && selectedCustomer == old(selectedCustomer) && lastSale == old(lastSale)
      ensures newCustomerName == old(newCustomerName)
    {
      currentStock := store.CurrentStock(remoteLogs, remoteTxs);
    }

    /** `handleProcess`: a cash sale. Nothing happens for a zero amount; a sale
        above the displayed stock is refused; otherwise the transaction and
        then an OUT log of the same litres are written, and the dialog shows
        the sale. A failed write stops the sequence. */
    method HandleProcess(store: Storage.Store, txReply: Storage.InsertReply, logReply: Storage.InsertReply,
                         txId: string, logId: string, now: Instant,
                         remoteLogs: Storage.Read<Storage.InventoryLog>, remoteTxs: Storage.Read<Storage.RemoteTransaction>)
      returns (outcome: SaleOutcome)
      modifies this, store
      ensures old(Result()).nominal == 0 ==> outcome == Ignored
      ensures old(Result()).nominal != 0 && old(Result()).liter > old(currentStock) ==> outcome == InsufficientStock
      ensures outcome == Ignored || outcome == InsufficientStock ==>
        store.inventory == old(store.inventory) && store.transactions == old(store.transactions) && showModal == old(showModal)
      ensures store.client.Unconfigured? && old(Result()).nominal != 0 && old(Result()).liter <= old(currentStock) ==>
        outcome == Completed
      ensures store.client.Unconfigured? && outcome == Completed ==>
        store.transactions == [Storage.NewRecord(Storage.Sale(old(Result()), None), txId, now)] + old(store.transactions) &&
        store.inventory == [Storage.NewLog(SaleLog(old(Result())), logId, now)] + old(store.inventory)
      ensures store.client.Unconfigured? && outcome == Completed ==>
        Storage.Stock(store.inventory, store.transactions) == old(Storage.Stock(store.inventory, store.transactions)) - 2 * old(Result()).liter
      ensures store.client.Configured? ==> store.inventory == old(store.inventory) && store.transactions == old(store.transactions)
      ensures store.client.Configured? && old(Result()).nominal != 0 && old(Result()).liter <= old(currentStock) ==>
        (outcome == Completed <==> txReply.Inserted? && logReply.Inserted?) &&
        (txReply.InsertFailed? ==> outcome == Failed(txReply.message))
      ensures outcome == Completed ==>
        showModal && lastSale == LastSale(old(Result()).nominal, old(Result()).liter, old(Result()).profit) &&
        currentStock == store.CurrentStock(remoteLogs, remoteTxs)
      ensures outcome != Completed ==>
        showModal == old(showModal) && lastSale == old(lastSale) && currentStock == old(currentStock)
      ensures showDebtModal == old(showDebtModal) && customers == old(customers) && selectedCustomer == old(selectedCustomer)
      ensures newCustomerName == old(newCustomerName)
      ensures amountStr == old(amountStr) && store.pricing == old(store.pricing)
    {
      var r := Result();
      if r.nominal == 0 {
        return Ignored;
      }
      if r.liter > currentStock {
        return InsufficientStock;
      }
      var written := store.AddTransaction(Storage.Sale(r, None), txReply, txId, now);
      if written.Err? {
        return Failed(written.message);
      }
      var logged := store.AddInventoryLog(SaleLog(r), logReply, logId, now);
      if logged.Err? {
        return Failed(logged.message);
      }
      ShowSale(r, store, remoteLogs, remoteTxs);
      outcome := Completed;
    }

    /** The success dialog after a credit sale: the credit dialog closes and
        the customer selection and name are cleared. */
    method ShowDebtSale(r: FuelLogic.TransactionResult, store: Storage.Store,
                        remoteLogs: Storage.Read<Storage.InventoryLog>, remoteTxs: Storage.Read<Storage.RemoteTransaction>)
      modifies this
      ensures showModal && lastSale == LastSale(r.nominal, r.liter, r.profit)
      ensures currentStock == store.CurrentStock(remoteLogs, remoteTxs)
      ensures !showDebtModal && newCustomerName == "" && selectedCustomer == None
      ensures amountStr == old(amountStr) && customers == old(customers)
    {
      ShowSale(r, store, remoteLogs, remoteTxs);
      showDebtModal := false;
      newCustomerName := "";
      selectedCustomer := None;
    }

    /** The success dialog after a sale, with the stock read again. */
    method ShowSale(r: FuelLogic.TransactionResult, store: Storage.Store,
                    remoteLogs: Storage.Read<Storage.InventoryLog>, remoteTxs: Storage.Read<Storage.RemoteTransaction>)
      modifies this
      ensures showModal && lastSale == LastSale(r.nominal, r.liter, r.profit)
      ensures currentStock == store.CurrentStock(remoteLogs, remoteTxs)
      ensures amountStr == old(amountStr) && showDebtModal == old(showDebtModal) && customers == old(customers)
      ensures selectedCustomer == old(selectedCustomer) && newCustomerName == old(newCustomerName)
    {
      lastSale := LastSale(r.nominal, r.liter, r.profit);
      showModal := true;
      UpdateStock(store, remoteLogs, remoteTxs);
    }

    /** The credit button: for a non-zero amount the customer list is loaded
        and the credit dialog opens. */
    method OpenDebtModal(loaded: seq<Customer>)
      modifies this
      ensures old(Result()).nominal == 0 ==> customers == old(customers) && showDebtModal == old(showDebtModal)
      ensures old(Result()).nominal != 0 ==> customers == loaded && showDebtModal
      ensures amountStr == old(amountStr) && currentStock == old(currentStock) && selectedCustomer == old(selectedCustomer)
      ensures showModal == old(showModal) && lastSale == old(lastSale) && newCustomerName == old(newCustomerName)
    {
      if Result().nominal == 0 {
        return;
      }
      customers := loaded;
      showDebtModal := true;
    }

    /** `handleAddCustomer`: with a typed name the customer is created (or
        the creation fails) and, once created, listed and selected. */
    method HandleAddCustomer(created: Option<Customer>) returns (calls: seq<Services.Call>)
      modifies this
      ensures old(newCustomerName) == "" ==> calls == [] && customers == old(customers) && selectedCustomer == old(selectedCustomer)
      ensures old(newCustomerName) != "" ==> calls == [Services.AddCustomer(old(newCustomerName))]
      ensures old(newCustomerName) != "" && created.Some? ==>
        customers == old(customers) + [created.value] && selectedCustomer == created
      ensures created.None? ==> customers == old(customers) && selectedCustomer == old(selectedCustomer)
      ensures amountStr == old(amountStr) && currentStock == old(currentStock) && showModal == old(showModal)
      ensures showDebtModal == old(showDebtModal) && lastSale == old(lastSale) && newCustomerName == old(newCustomerName)
    {
      if newCustomerName == "" {
        return [];
      }
      calls := [Services.AddCustomer(newCustomerName)];
      if created.Some? {
        customers := customers + [created.value];
        selectedCustomer := created;
      }
    }

    /** `handleDebtProcess`: a credit sale for the selected customer. After
        the stock check the transaction is written with payment method DEBT,
        a debt of the nominal is recorded against that transaction's id, and
        an OUT log of the litres is written; on success the dialogs close and
        the selection clears. */
    method HandleDebtProcess(store: Storage.Store, txReply: Storage.InsertReply, debtOk: bool, logReply: Storage.InsertReply,
                             txId: string, logId: string, now: Instant,
                             remoteLogs: Storage.Read<Storage.InventoryLog>, remoteTxs: Storage.Read<Storage.RemoteTransaction>)
      returns (outcome: SaleOutcome, calls: seq<Services.Call>)
      modifies this, store
      ensures old(Result()).nominal == 0 || old(selectedCustomer).None? ==> outcome == Ignored
      ensures old(Result()).nominal != 0 && old(selectedCustomer).Some? && old(Result()).liter > old(currentStock) ==>
        outcome == InsufficientStock
      ensures outcome == Ignored || outcome == InsufficientStock ==>
        calls == [] && store.inventory == old(store.inventory) && store.transactions == old(store.transactions)
      ensures outcome != Ignored && outcome != InsufficientStock ==>
        DebtSaleWritten(store, old(Result()), old(selectedCustomer).value, txReply, debtOk, logReply, txId, logId, now,
                        old(store.inventory), old(store.transactions), outcome, calls)
      ensures outcome == Completed ==>
        showModal && !showDebtModal && newCustomerName == "" && selectedCustomer == None &&
        lastSale == LastSale(old(Result()).nominal, old(Result()).liter, old(Result()).profit) &&
        currentStock == store.CurrentStock(remoteLogs, remoteTxs)
      ensures outcome != Completed ==>
        showModal == old(showModal) && showDebtModal == old(showDebtModal) && lastSale == old(lastSale) &&
        selectedCustomer == old(selectedCustomer) && newCustomerName == old(newCustomerName) &&
        currentStock == old(currentStock)
      ensures amountStr == old(amountStr) && customers == old(customers) && store.pricing == old(store.pricing)
    {
      var r := Result();
      if r.nominal == 0 || selectedCustomer.None? {
        return Ignored, [];
      }
      var customer := selectedCustomer.value;
      if r.liter > currentStock {
        return InsufficientStock, [];
      }
      outcome, calls := WriteDebtSale(store, r, customer, txReply, debtOk, logReply, txId, logId, now);
      if outcome != Completed {
        return;
      }
      ShowDebtSale(r, store, remoteLogs, remoteTxs);
    }
  }

  /** What the writes of a credit sale leave behind. Locally the sale is
      stored with payment method DEBT and the debt is recorded against its
      id; the OUT log follows once the debt was recorded. Remotely the local
      lists stay as they were, the debt names the id the backend returned,
      and the sale completes only when all three writes succeeded. */
  ghost predicate DebtSaleWritten(store: Storage.Store, r: FuelLogic.TransactionResult, customer: Customer,
                                  txReply: Storage.InsertReply, debtOk: bool, logReply: Storage.InsertReply,
                                  txId: string, logId: string, now: Instant,
                                  inventory: seq<Storage.InventoryLog>, transactions: seq<Storage.TransactionRecord>,
                                  outcome: SaleOutcome, calls: seq<Services.Call>)
    reads store
  {
    (outcome == Completed || outcome.Failed?) &&
    (store.client.Unconfigured? ==>
      store.transactions == [Storage.NewRecord(Storage.Sale(r, Some("DEBT")), txId, now)] + transactions &&
      calls == [Services.AddDebt(customer.id, txId, r.nominal, "Kasbon Bensin")] &&
      (outcome == Completed <==> debtOk) &&
      store.inventory == (if debtOk then [Storage.NewLog(DebtLog(r, customer), logId, now)] else []) + inventory) &&
    (store.client.Configured? ==>
      store.inventory == inventory && store.transactions == transactions &&
      calls == (if txReply.Inserted? then [Services.AddDebt(customer.id, txReply.id, r.nominal, "Kasbon Bensin")] else []) &&
      (outcome == Completed <==> txReply.Inserted? && debtOk && logReply.Inserted?))
  }

  /** The three writes of a credit sale, stopping at the first failure. */
  method WriteDebtSale(store: Storage.Store, r: FuelLogic.TransactionResult, customer: Customer,
                       txReply: Storage.InsertReply, debtOk: bool, logReply: Storage.InsertReply,
                       txId: string, logId: string, now: Instant)
    returns (outcome: SaleOutcome, calls: seq<Services.Call>)
    modifies store
    ensures DebtSaleWritten(store, r, customer, txReply, debtOk, logReply, txId, logId, now,
                            old(store.inventory), old(store.transactions), outcome, calls)
    ensures store.pricing == old(store.pricing)
  {
    calls := [];
    var written := store.AddTransaction(Storage.Sale(r, Some("DEBT")), txReply, txId, now);
    if written.Err? {
      return Failed(written.message), calls;
    }
    calls := [Services.AddDebt(customer.id, written.value.id, r.nominal, "Kasbon Bensin")];
    if !debtOk {
      return Failed("addDebt failed"), calls;
    }
    var logged := store.AddInventoryLog(DebtLog(r, customer), logReply, logId, now);
    if logged.Err? {
      return Failed(logged.message), calls;
    }
    outcome := Completed;
  }
}
