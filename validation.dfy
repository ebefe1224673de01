/** The input schemas of the application, as predicates over JSON values.
    A schema accepts an object when every field it names satisfies its
    constraint; an optional field may be absent but not `null`; fields the
    schema does not name are ignored. The transaction schema also fills in
    a default payment method, modelled by `ParseTransaction`. */
module Validation {
  import opened Common
  import opened Json
  import FuelLogic
  import Storage

  // ---------------------------------------------------------------------
  // Field constraints

  /** A number field at least `lo`. */
  predicate NumberAtLeast(v: Json, k: string, lo: real) {
    var f := Get(v, k);
    f.Some? && f.value.JNum? && f.value.n >= lo
  }

  /** A number field above zero. */
  predicate PositiveNumber(v: Json, k: string) {
    var f := Get(v, k);
    f.Some? && f.value.JNum? && f.value.n > 0.0
  }

  predicate NumberField(v: Json, k: string) {
    var f := Get(v, k);
    f.Some? && f.value.JNum?
  }

  predicate OptionalNumber(v: Json, k: string) {
    var f := Get(v, k);
    f.None? || f.value.JNum?
  }

  predicate OptionalBool(v: Json, k: string) {
    var f := Get(v, k);
    f.None? || f.value.JBool?
  }

  /** A string field whose value is one of `names`. */
  predicate EnumField(v: Json, k: string, names: set<string>) {
    var f := Get(v, k);
    f.Some? && f.value.JStr? && f.value.s in names
  }

  predicate OptionalEnum(v: Json, k: string, names: set<string>) {
    Get(v, k).None? || EnumField(v, k, names)
  }

  /** An optional string of at most `max` characters. */
  predicate OptionalStringMax(v: Json, k: string, max: nat) {
    var f := Get(v, k);
    f.None? || (f.value.JStr? && |f.value.s| <= max)
  }

  // ---------------------------------------------------------------------
  // Transactions

  datatype PaymentMethod = Cash | Debt | Qris

  function PaymentMethodName(p: PaymentMethod): string {
    match p
    case Cash => "CASH"
    case Debt => "DEBT"
    case Qris => "QRIS"
  }

  const PaymentMethodNames: set<string> := {"CASH", "DEBT", "QRIS"}

  function ParsePaymentMethod(s: string): (r: Option<PaymentMethod>)
    ensures r.Some? <==> s in PaymentMethodNames
    ensures r.Some? ==> PaymentMethodName(r.value) == s
  {
    if s == "CASH" then Some(Cash)
    else if s == "DEBT" then Some(Debt)
    else if s == "QRIS" then Some(Qris)
    else None
  }

  lemma PaymentMethodRoundTrip(p: PaymentMethod)
    ensures ParsePaymentMethod(PaymentMethodName(p)) == Some(p)
  {
  }

  /** `TransactionSchema`: nominal a number of at least 100, liter a positive
      number, profit a number, paymentMethod absent or one of CASH, DEBT and
      QRIS, isSpecialRule absent or a boolean. */
  predicate TransactionValid(v: Json) {
    v.JObj? &&
    NumberAtLeast(v, "nominal", 100.0) &&
    PositiveNumber(v, "liter") &&
    NumberField(v, "profit") &&
    OptionalEnum(v, "paymentMethod", PaymentMethodNames) &&
    OptionalBool(v, "isSpecialRule")
  }

  const TransactionKeys: set<string> := {"nominal", "liter", "profit", "paymentMethod", "isSpecialRule"}

  /** What a successful parse of a transaction yields. */
  datatype Transaction = Transaction(
    nominal: real,
    liter: real,
    profit: real,
    paymentMethod: PaymentMethod,
    isSpecialRule: Option<bool>)

  /** `TransactionSchema.safeParse`: the parsed object for a valid input,
      with the payment method defaulting to CASH when it is absent. */
  function ParseTransaction(v: Json): (r: Option<Transaction>)
    ensures r.Some? <==> TransactionValid(v)
    ensures r.Some? && Get(v, "paymentMethod").None? ==> r.value.paymentMethod == Cash
    ensures r.Some? && Get(v, "paymentMethod").Some? ==> PaymentMethodName(r.value.paymentMethod) == Get(v, "paymentMethod").value.s
    ensures r.Some? ==> r.value.nominal >= 100.0 && r.value.liter > 0.0
  {
    if !TransactionValid(v) then None
    else
      var pm := Get(v, "paymentMethod");
      var special := Get(v, "isSpecialRule");
      Some(Transaction(
        Get(v, "nominal").value.n,
        Get(v, "liter").value.n,
        Get(v, "profit").value.n,
        if pm.None? then Cash else ParsePaymentMethod(pm.value.s).value,
        if special.None? then None else Some(special.value.b)))
  }

  /** A transaction as a JSON object, the optional flag omitted when absent. */
  function TransactionJson(t: Transaction): Json {
    var base := map["nominal" := JNum(t.nominal), "liter" := JNum(t.liter), "profit" := JNum(t.profit),
                    "paymentMethod" := JStr(PaymentMethodName(t.paymentMethod))];
    if t.isSpecialRule.None? then JObj(base) else JObj(base["isSpecialRule" := JBool(t.isSpecialRule.value)])
  }

  /** Parsing gives back every transaction the schema allows. */
  lemma TransactionRoundTrip(t: Transaction)
    requires t.nominal >= 100.0 && t.liter > 0.0
    ensures ParseTransaction(TransactionJson(t)) == Some(t)
  {
    PaymentMethodRoundTrip(t.paymentMethod);
    var v := TransactionJson(t);
    assert Get(v, "paymentMethod") == Some(JStr(PaymentMethodName(t.paymentMethod)));
    assert TransactionValid(v);
  }

  /** Fields outside the schema change nothing: they are stripped. */
  lemma TransactionIgnoresOtherKeys(m: map<string, Json>, extra: map<string, Json>)
    requires extra.Keys !! TransactionKeys
    ensures ParseTransaction(JObj(m + extra)) == ParseTransaction(JObj(m))
  {
    var a, b := JObj(m + extra), JObj(m);
    forall k | k in TransactionKeys
      ensures Get(a, k) == Get(b, k)
    {
      assert k !in extra;
    }
    assert Get(a, "nominal") == Get(b, "nominal");
    assert Get(a, "liter") == Get(b, "liter");
    assert Get(a, "profit") == Get(b, "profit");
    assert Get(a, "paymentMethod") == Get(b, "paymentMethod");
    assert Get(a, "isSpecialRule") == Get(b, "isSpecialRule");
  }

  /** The JSON form of a priced sale with a payment method name, as the
      screens hand it to the storage service. */
  function SaleJson(r: FuelLogic.TransactionResult, paymentMethod: string): Json {
    JObj(map["nominal" := Num(r.nominal), "liter" := Centi(r.liter), "profit" := Num(r.profit),
             "paymentMethod" := JStr(paymentMethod), "isSpecialRule" := JBool(r.isSpecialRule)])
  }

  /** A sale priced from a non-negative amount passes the schema exactly when
      the amount is at least 100: every such amount buys at least one
      centilitre. (The POS screen also processes amounts from 1 to 99, which
      the schema would reject; no service calls the schema.) */
  lemma SaleValidIffAtLeast100(amount: int, paymentMethod: string)
    requires amount >= 0 && paymentMethod in PaymentMethodNames
    ensures TransactionValid(SaleJson(FuelLogic.CalculateTransaction(amount), paymentMethod)) <==> amount >= 100
  {
    var r := FuelLogic.CalculateTransaction(amount);
    var v := SaleJson(r, paymentMethod);
    assert Get(v, "nominal") == Some(Num(amount));
    assert Get(v, "liter") == Some(Centi(r.liter));
    if amount >= 100 && !FuelLogic.IsPackageAmount(amount) {
      assert r.liter >= 1;
    }
    if amount >= 100 {
      assert r.liter > 0;
      assert Centi(r.liter).n > 0.0;
    }
  }

  // ---------------------------------------------------------------------
  // Inventory entries

  const LogTypeNames: set<string> := {"IN", "OUT", "ADJUSTMENT"}

  /** `InventorySchema`: type one of IN, OUT and ADJUSTMENT, volume a positive
      number, costPerLiter a number of at least 0, notes absent or a string
      of at most 500 characters. */
  predicate InventoryValid(v: Json) {
    v.JObj? &&
    EnumField(v, "type", LogTypeNames) &&
    PositiveNumber(v, "volume") &&
    NumberAtLeast(v, "costPerLiter", 0.0) &&
    OptionalStringMax(v, "notes", 500)
  }

  /** The JSON form of an inventory entry; notes omitted when absent. */
  function LogInputJson(e: Storage.LogInput): Json {
    var base := map["type" := JStr(Storage.LogTypeName(e.logType)), "volume" := Centi(e.volume),
                    "costPerLiter" := Num(e.costPerLiter)];
    if e.notes.None? then JObj(base) else JObj(base["notes" := JStr(e.notes.value)])
  }

  /** An inventory entry passes the schema exactly when its volume is
      positive, its cost is not negative and its notes fit 500 characters. */
  lemma LogInputValidIff(e: Storage.LogInput)
    ensures InventoryValid(LogInputJson(e)) <==>
      e.volume > 0 && e.costPerLiter >= 0 && (e.notes.Some? ==> |e.notes.value| <= 500)
  {
    var v := LogInputJson(e);
    assert Get(v, "type") == Some(JStr(Storage.LogTypeName(e.logType)));
    assert Get(v, "volume") == Some(Centi(e.volume));
    assert Get(v, "costPerLiter") == Some(Num(e.costPerLiter));
    if e.notes.Some? {
      assert Get(v, "notes") == Some(JStr(e.notes.value));
    } else {
      assert Get(v, "notes") == None;
    }
  }

  // ---------------------------------------------------------------------
  // Attendance records

  predicate IsHexDigit(c: char) {
    IsDigit(c) || 'a' <= c <= 'f' || 'A' <= c <= 'F'
  }

  /** The positions of the dashes in the 8-4-4-4-12 form. */
  const DashPositions: set<int> := {8, 13, 18, 23}

  /** The shape of a UUID: 36 characters, dashes after the 8th, 12th, 16th
      and 20th hexadecimal digit, hexadecimal digits everywhere else. */
  predicate IsUuid(s: string) {
    |s| == 36 &&
    forall i :: 0 <= i < |s| ==> if i in DashPositions then s[i] == '-' else IsHexDigit(s[i])
  }

  const StatusNames: set<string> := {"PRESENT", "LATE", "ABSENT", "SICK", "LEAVE"}

  /** `AttendanceSchema`: employee_id a UUID string, status one of PRESENT,
      LATE, ABSENT, SICK and LEAVE, the check-in coordinates absent or
      numbers. */
  predicate AttendanceValid(v: Json) {
    v.JObj? &&
    (var id := Get(v, "employee_id"); id.Some? && id.value.JStr? && IsUuid(id.value.s)) &&
    EnumField(v, "status", StatusNames) &&
    OptionalNumber(v, "location_in_lat") &&
    OptionalNumber(v, "location_in_long")
  }

  /** A UUID has exactly four dashes, so a string without all of them, or of
      another length, is refused. */
  lemma UuidHasFourDashes(s: string)
    requires IsUuid(s)
    ensures forall i :: 0 <= i < |s| ==> (s[i] == '-' <==> i in DashPositions)
  {
    forall i | 0 <= i < |s|
      ensures s[i] == '-' <==> i in DashPositions
    {
      if i !in DashPositions {
        assert IsHexDigit(s[i]);
      }
    }
  }

  /** An attendance record needs both an employee id and a status. */
  lemma AttendanceNeedsIdAndStatus(v: Json)
    requires AttendanceValid(v)
    ensures Get(v, "employee_id").Some? && |Get(v, "employee_id").value.s| == 36
    ensures Get(v, "status").Some? && Get(v, "status").value.s in StatusNames
  {
  }

  // ---------------------------------------------------------------------
  // Employees

  /** The PIN rule: exactly six characters, all decimal digits. */
  predicate PinValid(pin: string) {
    |pin| == 6 && AllDigits(pin)
  }

  const RoleNames: set<string> := {"admin", "staff"}

  /** `EmployeeSchema`: a name of at least two characters, role admin or
      staff, and a valid PIN. */
  predicate EmployeeValid(v: Json) {
    v.JObj? &&
    (var name := Get(v, "name"); name.Some? && name.value.JStr? && |name.value.s| >= 2) &&
    EnumField(v, "role", RoleNames) &&
    (var pin := Get(v, "pin"); pin.Some? && pin.value.JStr? && PinValid(pin.value.s))
  }

  /** Every number from 100000 to 999999 written out is a valid PIN, and so
      is a PIN with leading zeros; five or seven digits are not. */
  lemma PinExamples(n: nat)
    requires 100000 <= n < 1000000
    ensures PinValid(DecimalString(n))
    ensures PinValid("012345") && !PinValid("12345") && !PinValid("1234567") && !PinValid("12a456")
  {
    assert Pow10(5) == 100000 && Pow10(6) == 1000000;
    DecimalStringLength(n, 6);
    assert !IsDigit("12a456"[2]);
  }
}
