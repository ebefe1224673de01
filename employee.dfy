/** The employee service: staff records, daily attendance and payroll
    drafts. With a remote client each write is tried remotely first; when
    that fails (or there is no client) the write goes to the device-local
    lists, and, when a client exists, the same write is queued for later
    replay on the browser's sync queue. Reads return the remote rows when
    the remote read succeeds and the local lists otherwise. Dates of
    attendance are 'YYYY-MM-DD' strings compared as strings. */
module Employees {
  import opened Common
  import opened Json
  import WebSync

  datatype Role = Manager | Cashier | Staff | Cleaning

  datatype Employee = Employee(
    id: string,
    userId: Option<string>,
    fullName: string,
    phone: Option<string>,
    address: Option<string>,
    role: Role,
    baseSalary: int,
    commissionRate: real,
    joinDate: string,
    isActive: bool)

  /** A partial employee: the properties an update sets. */
  datatype EmployeeChanges = EmployeeChanges(
    id: Option<string>,
    userId: Option<string>,
    fullName: Option<string>,
    phone: Option<string>,
    address: Option<string>,
    role: Option<Role>,
    baseSalary: Option<int>,
    commissionRate: Option<real>,
    joinDate: Option<string>,
    isActive: Option<bool>)

  datatype Status = Present | Late | Absent | Sick | Leave

  datatype Location = Location(lat: real, long: real)

  datatype AttendanceLog = AttendanceLog(
    id: string,
    employeeId: string,
    date: string,
    clockIn: Option<Instant>,
    clockOut: Option<Instant>,
    photoIn: Option<string>,
    photoOut: Option<string>,
    locationIn: Option<Location>,
    locationOut: Option<Location>,
    status: Status,
    notes: Option<string>)

  datatype SlipStatus = Draft | Paid

  datatype PayrollSlip = PayrollSlip(
    id: string,
    employeeId: string,
    employeeName: Option<string>,
    periodStart: string,
    periodEnd: string,
    baseSalary: int,
    totalCommission: int,
    totalDeductions: int,
    totalBonuses: int,
    netSalary: int,
    status: SlipStatus,
    paymentDate: Option<string>)

  /** A remote payroll row with the joined employee's name, if any. */
  datatype RemotePayroll = RemotePayroll(slip: PayrollSlip, joinedName: Option<string>)

  /** What `generatePayroll` reports; the message text is left out. */
  datatype PayrollReport = PayrollReport(success: bool, slips: nat, skipped: seq<string>)

  // ---------------------------------------------------------------------
  // Records as the JSON payloads queued for replay

  function RoleName(r: Role): string {
    match r
    case Manager => "MANAGER"
    case Cashier => "CASHIER"
    case Staff => "STAFF"
    case Cleaning => "CLEANING"
  }

  function WithOpt(m: map<string, Json>, k: string, v: Option<Json>): map<string, Json> {
    if v.Some? then m[k := v.value] else m
  }

  function OptStr(o: Option<string>): Option<Json> {
    if o.Some? then Some(JStr(o.value)) else None
  }

  function EmployeeJson(e: Employee): Json {
    var m := map["id" := JStr(e.id), "full_name" := JStr(e.fullName), "role" := JStr(RoleName(e.role)),
                 "base_salary" := Num(e.baseSalary), "commission_rate" := JNum(e.commissionRate),
                 "join_date" := JStr(e.joinDate), "is_active" := JBool(e.isActive)];
    JObj(WithOpt(WithOpt(WithOpt(m, "user_id", OptStr(e.userId)), "phone", OptStr(e.phone)), "address", OptStr(e.address)))
  }

  function ChangesJson(u: EmployeeChanges): Json {
    var m0 := WithOpt(WithOpt(map[], "id", OptStr(u.id)), "user_id", OptStr(u.userId));
    var m1 := WithOpt(WithOpt(WithOpt(m0, "full_name", OptStr(u.fullName)), "phone", OptStr(u.phone)), "address", OptStr(u.address));
    var m2 := WithOpt(m1, "role", if u.role.Some? then Some(JStr(RoleName(u.role.value))) else None);
    var m3 := WithOpt(m2, "base_salary", if u.baseSalary.Some? then Some(Num(u.baseSalary.value)) else None);
    var m4 := WithOpt(m3, "commission_rate", if u.commissionRate.Some? then Some(JNum(u.commissionRate.value)) else None);
    var m5 := WithOpt(WithOpt(m4, "join_date", OptStr(u.joinDate)), "is_active", if u.isActive.Some? then Some(JBool(u.isActive.value)) else None);
    JObj(m5)
  }

  function LocationFields(m: map<string, Json>, prefix: string, loc: Option<Location>): map<string, Json> {
    if loc.Some? then m[prefix + "_lat" := JNum(loc.value.lat)][prefix + "_long" := JNum(loc.value.long)] else m
  }

  function StatusName(s: Status): string {
    match s
    case Present => "PRESENT"
    case Late => "LATE"
    case Absent => "ABSENT"
    case Sick => "SICK"
    case Leave => "LEAVE"
  }

  function AttendanceJson(l: AttendanceLog): Json {
    var m := map["id" := JStr(l.id), "employee_id" := JStr(l.employeeId), "date" := JStr(l.date),
                 "status" := JStr(StatusName(l.status))];
    var m1 := WithOpt(WithOpt(m, "clock_in", if l.clockIn.Some? then Some(Num(l.clockIn.value)) else None),
                      "clock_out", if l.clockOut.Some? then Some(Num(l.clockOut.value)) else None);
    var m2 := WithOpt(WithOpt(WithOpt(m1, "photo_in_url", OptStr(l.photoIn)), "photo_out_url", OptStr(l.photoOut)), "notes", OptStr(l.notes));
    JObj(LocationFields(LocationFields(m2, "location_in", l.locationIn), "location_out", l.locationOut))
  }

  /** The properties a clock-out sets. */
  function ClockOutJson(now: Instant, loc: Location, photoUrl: string): Json {
    JObj(map["clock_out" := Num(now), "location_out_lat" := JNum(loc.lat),
             "location_out_long" := JNum(loc.long), "photo_out_url" := JStr(photoUrl)])
  }

  /** The `{ id, updates }` payload of the update actions. */
  function IdAndUpdates(id: string, updates: Json): (p: Json)
    ensures Get(p, "id") == Some(JStr(id)) && Get(p, "updates") == Some(updates)
  {
    JObj(map["id" := JStr(id), "updates" := updates])
  }

  function IdOnly(id: string): (p: Json)
    ensures Get(p, "id") == Some(JStr(id))
  {
    JObj(map["id" := JStr(id)])
  }

  // ---------------------------------------------------------------------
  // Employees

  /** `{ ...e, ...u }`: every property the update sets wins. */
  function Merge(e: Employee, u: EmployeeChanges): Employee {
    Employee(
      u.id.GetOr(e.id),
      if u.userId.Some? then u.userId else e.userId,
      u.fullName.GetOr(e.fullName),
      if u.phone.Some? then u.phone else e.phone,
      if u.address.Some? then u.address else e.address,
      u.role.GetOr(e.role),
      u.baseSalary.GetOr(e.baseSalary),
      u.commissionRate.GetOr(e.commissionRate),
      u.joinDate.GetOr(e.joinDate),
      u.isActive.GetOr(e.isActive))
  }

  function NoChanges(): EmployeeChanges {
    EmployeeChanges(None, None, None, None, None, None, None, None, None, None)
  }

  /** An empty update changes nothing, and merging the same update twice is
      merging it once. */
  lemma MergeLaws(e: Employee, u: EmployeeChanges)
    ensures Merge(e, NoChanges()) == e
    ensures Merge(Merge(e, u), u) == Merge(e, u)
  {
  }

  /** `findIndex(e => e.id === id)`. */
  function IndexOfEmployee(emps: seq<Employee>, id: string): (k: int)
    ensures -1 <= k < |emps|
    ensures k == -1 <==> forall i :: 0 <= i < |emps| ==> emps[i].id != id
    ensures k >= 0 ==> emps[k].id == id && forall i :: 0 <= i < k ==> emps[i].id != id
  {
    if |emps| == 0 then -1
    else if emps[0].id == id then 0
    else
      var k := IndexOfEmployee(emps[1..], id);
      if k == -1 then -1 else k + 1
  }

  /** `filter(e => e.id !== id)`. */
  function WithoutEmployee(emps: seq<Employee>, id: string): (r: seq<Employee>)
    ensures |r| <= |emps|
    ensures forall e :: e in r <==> e in emps && e.id != id
  {
    if |emps| == 0 then []
    else if emps[0].id == id then WithoutEmployee(emps[1..], id)
    else [emps[0]] + WithoutEmployee(emps[1..], id)
  }

  /** Deleting keeps the other records in their order: removing an id no
      record carries changes nothing, and the filter distributes over
      concatenation. */
  lemma {:induction false} WithoutEmployeeAbsent(emps: seq<Employee>, id: string)
    requires forall i :: 0 <= i < |emps| ==> emps[i].id != id
    ensures WithoutEmployee(emps, id) == emps
  {
    if |emps| > 0 {
      WithoutEmployeeAbsent(emps[1..], id);
    }
  }

  lemma {:induction false} WithoutEmployeeAppend(a: seq<Employee>, b: seq<Employee>, id: string)
    ensures WithoutEmployee(a + b, id) == WithoutEmployee(a, id) + WithoutEmployee(b, id)
  {
    if |a| == 0 {
      assert a + b == b;
    } else {
      assert (a + b)[1..] == a[1..] + b;
      WithoutEmployeeAppend(a[1..], b, id);
    }
  }

  /** `employees.find(e => e.id === id)`. */
  function FindEmployee(emps: seq<Employee>, id: string): (r: Option<Employee>)
    ensures r.None? <==> forall i :: 0 <= i < |emps| ==> emps[i].id != id
    ensures r.Some? ==> r.value == emps[IndexOfEmployee(emps, id)]
  {
    var k := IndexOfEmployee(emps, id);
    if k == -1 then None else Some(emps[k])
  }

  /** `emp?.full_name || 'Unknown'`. */
  function NameOrUnknown(name: Option<string>): (r: string)
    ensures name.Some? && name.value != "" ==> r == name.value
    ensures name.None? || name.value == "" ==> r == "Unknown"
  {
    if name.Some? && name.value != "" then name.value else "Unknown"
  }

  function JoinName(p: PayrollSlip, emps: seq<Employee>): (q: PayrollSlip)
    ensures q == p.(employeeName := q.employeeName)
    ensures var e := FindEmployee(emps, p.employeeId);
      q.employeeName == Some(NameOrUnknown(if e.Some? then Some(e.value.fullName) else None))
  {
    var e := FindEmployee(emps, p.employeeId);
    p.(employeeName := Some(NameOrUnknown(if e.Some? then Some(e.value.fullName) else None)))
  }

  /** The local join of `getPayrolls`: every slip, in order, named after the
      first employee with its employee id, or 'Unknown'. */
  function JoinNames(ps: seq<PayrollSlip>, emps: seq<Employee>): (r: seq<PayrollSlip>)
    ensures |r| == |ps|
    ensures forall i :: 0 <= i < |ps| ==> r[i] == JoinName(ps[i], emps)
  {
    if |ps| == 0 then [] else [JoinName(ps[0], emps)] + JoinNames(ps[1..], emps)
  }

  /** A slip whose employee is gone is shown as 'Unknown'; otherwise it
      carries the (non-empty) name of that employee. */
  lemma JoinedName(p: PayrollSlip, emps: seq<Employee>, i: int)
    requires 0 <= i < |emps| && emps[i].id == p.employeeId && emps[i].fullName != ""
    requires forall j :: 0 <= j < i ==> emps[j].id != p.employeeId
    ensures JoinName(p, emps).employeeName == Some(emps[i].fullName)
  {
    assert IndexOfEmployee(emps, p.employeeId) == i;
  }

  /** A remote payroll row with the employee name joined in: every other
      field as stored, and a name that is never empty. */
  function FromRemotePayroll(row: RemotePayroll): (p: PayrollSlip)
    ensures p == row.slip.(employeeName := p.employeeName)
    ensures p.employeeName.Some? && p.employeeName.value != ""
    ensures row.joinedName.Some? && row.joinedName.value != "" ==> p.employeeName == row.joinedName
  {
    row.slip.(employeeName := Some(NameOrUnknown(row.joinedName)))
  }

  function FromRemotePayrolls(rows: seq<RemotePayroll>): (r: seq<PayrollSlip>)
    ensures |r| == |rows|
    ensures forall i :: 0 <= i < |rows| ==> r[i] == FromRemotePayroll(rows[i])
  {
    if |rows| == 0 then [] else [FromRemotePayroll(rows[0])] + FromRemotePayrolls(rows[1..])
  }

  // ---------------------------------------------------------------------
  // Attendance

  /** `logs.filter(l => l.date === date)`. */
  function OnDate(logs: seq<AttendanceLog>, date: string): (r: seq<AttendanceLog>)
    ensures forall l :: l in r <==> l in logs && l.date == date
  {
    if |logs| == 0 then []
    else if logs[0].date == date then [logs[0]] + OnDate(logs[1..], date)
    else OnDate(logs[1..], date)
  }

  /** The employee has a log among these. */
  predicate HasLogFor(logs: seq<AttendanceLog>, employeeId: string) {
    exists i :: 0 <= i < |logs| && logs[i].employeeId == employeeId
  }

  function NewAttendance(id: string, employeeId: string, today: string, now: Instant, loc: Location, photoUrl: string): AttendanceLog {
    AttendanceLog(id, employeeId, today, Some(now), None, None, None, Some(loc), None, Present, None)
      .(photoIn := Some(photoUrl))
  }

  /** `findIndex(l => l.employee_id === employeeId && l.date === today)`. */
  function IndexOfOpenLog(logs: seq<AttendanceLog>, employeeId: string, today: string): (k: int)
    ensures -1 <= k < |logs|
    ensures k == -1 <==> forall i :: 0 <= i < |logs| ==> !(logs[i].employeeId == employeeId && logs[i].date == today)
    ensures k >= 0 ==> logs[k].employeeId == employeeId && logs[k].date == today
    ensures k >= 0 ==> forall i :: 0 <= i < k ==> !(logs[i].employeeId == employeeId && logs[i].date == today)
  {
    if |logs| == 0 then -1
    else if logs[0].employeeId == employeeId && logs[0].date == today then 0
    else
      var k := IndexOfOpenLog(logs[1..], employeeId, today);
      if k == -1 then -1 else k + 1
  }

  function ClockedOut(l: AttendanceLog, now: Instant, loc: Location, photoUrl: string): AttendanceLog {
    l.(clockOut := Some(now), locationOut := Some(loc), photoOut := Some(photoUrl))
  }

  // ---------------------------------------------------------------------
  // Payroll

  /** A date bound as `bound.split('T')[0]`. */
  function DayOf(bound: string): string {
    Before(bound, 'T')
  }

  /** The log counts as a worked day of the employee in the period. */
  predicate WorkedLog(l: AttendanceLog, e: Employee, periodStart: string, periodEnd: string) {
    l.employeeId == e.id && LexLe(DayOf(periodStart), l.date) && LexLe(l.date, DayOf(periodEnd)) && l.status == Present
  }

  predicate Worked(e: Employee, logs: seq<AttendanceLog>, periodStart: string, periodEnd: string) {
    exists i :: 0 <= i < |logs| && WorkedLog(logs[i], e, periodStart, periodEnd)
  }

  function Slip(e: Employee, id: string, periodStart: string, periodEnd: string): PayrollSlip {
    PayrollSlip(id, e.id, None, periodStart, periodEnd, e.baseSalary, 0, 0, 0, e.baseSalary, Draft, None)
  }

  function SkipNote(e: Employee): string {
    e.fullName + " (Belum ada presensi)"
  }

  /** The slips `generatePayroll` builds for these employees, in order; the
      n-th slip gets the n-th newId id. */
  function Slips(emps: seq<Employee>, logs: seq<AttendanceLog>, periodStart: string, periodEnd: string, newId: nat -> string): seq<PayrollSlip> {
    if |emps| == 0 then []
    else
      var done := Slips(emps[..|emps| - 1], logs, periodStart, periodEnd, newId);
      var e := emps[|emps| - 1];
      if Worked(e, logs, periodStart, periodEnd) then done + [Slip(e, newId(|done|), periodStart, periodEnd)] else done
  }

  /** The notes for the employees left without a slip, in order. */
  function Skipped(emps: seq<Employee>, logs: seq<AttendanceLog>, periodStart: string, periodEnd: string): seq<string> {
    if |emps| == 0 then []
    else
      var done := Skipped(emps[..|emps| - 1], logs, periodStart, periodEnd);
      var e := emps[|emps| - 1];
      if Worked(e, logs, periodStart, periodEnd) then done else done + [SkipNote(e)]
  }

  /** Every slip is a draft for the period paying exactly the base salary of
      an employee who worked in it. */
  lemma {:induction false} SlipsAreDrafts(emps: seq<Employee>, logs: seq<AttendanceLog>, periodStart: string, periodEnd: string, newId: nat -> string)
    ensures forall s :: s in Slips(emps, logs, periodStart, periodEnd, newId) ==>
      s.status == Draft && s.periodStart == periodStart && s.periodEnd == periodEnd &&
      s.netSalary == s.baseSalary && s.totalCommission == 0 && s.totalDeductions == 0 && s.totalBonuses == 0
    ensures forall s :: s in Slips(emps, logs, periodStart, periodEnd, newId) ==>
      exists i :: 0 <= i < |emps| && emps[i].id == s.employeeId && emps[i].baseSalary == s.baseSalary &&
        Worked(emps[i], logs, periodStart, periodEnd)
  {
    if |emps| > 0 {
      var init := emps[..|emps| - 1];
      SlipsAreDrafts(init, logs, periodStart, periodEnd, newId);
      forall s | s in Slips(init, logs, periodStart, periodEnd, newId)
        ensures exists i :: (0 <= i < |emps| && emps[i].id == s.employeeId && emps[i].baseSalary == s.baseSalary &&
          Worked(emps[i], logs, periodStart, periodEnd))
      {
        var i :| 0 <= i < |init| && init[i].id == s.employeeId && init[i].baseSalary == s.baseSalary &&
          Worked(init[i], logs, periodStart, periodEnd);
        assert emps[i] == init[i];
      }
    }
  }

  /** Every employee who worked in the period gets a slip, and every other
      employee is skipped. */
  lemma {:induction false} WorkedGetsSlip(emps: seq<Employee>, logs: seq<AttendanceLog>, periodStart: string, periodEnd: string, newId: nat -> string)
    ensures forall i :: 0 <= i < |emps| && Worked(emps[i], logs, periodStart, periodEnd) ==>
      exists s :: s in Slips(emps, logs, periodStart, periodEnd, newId) && s.employeeId == emps[i].id
    ensures forall i :: 0 <= i < |emps| && !Worked(emps[i], logs, periodStart, periodEnd) ==>
      SkipNote(emps[i]) in Skipped(emps, logs, periodStart, periodEnd)
  {
    if |emps| > 0 {
      var init := emps[..|emps| - 1];
      WorkedGetsSlip(init, logs, periodStart, periodEnd, newId);
      var slips := Slips(emps, logs, periodStart, periodEnd, newId);
      var skipped := Skipped(emps, logs, periodStart, periodEnd);
      var before := Slips(init, logs, periodStart, periodEnd, newId);
      assert forall s :: s in before ==> s in slips;
      assert forall n :: n in Skipped(init, logs, periodStart, periodEnd) ==> n in skipped;
      forall i | 0 <= i < |emps| && Worked(emps[i], logs, periodStart, periodEnd)
        ensures exists s :: s in slips && s.employeeId == emps[i].id
      {
        if i < |init| {
          assert emps[i] == init[i];
          var s :| s in before && s.employeeId == init[i].id;
          assert s in slips;
        } else {
          assert slips[|slips| - 1].employeeId == emps[i].id;
        }
      }
      forall i | 0 <= i < |emps| && !Worked(emps[i], logs, periodStart, periodEnd)
        ensures SkipNote(emps[i]) in skipped
      {
        if i < |init| {
          assert emps[i] == init[i];
        }
      }
    }
  }

  /** Each employee either gets a slip or is skipped. */
  lemma {:induction false} SlipsAndSkippedPartition(emps: seq<Employee>, logs: seq<AttendanceLog>, periodStart: string, periodEnd: string, newId: nat -> string)
    ensures |Slips(emps, logs, periodStart, periodEnd, newId)| + |Skipped(emps, logs, periodStart, periodEnd)| == |emps|
  {
    if |emps| > 0 {
      SlipsAndSkippedPartition(emps[..|emps| - 1], logs, periodStart, periodEnd, newId);
    }
  }

  /** The loop of `generatePayroll` over the employees. */
  method BuildSlips(emps: seq<Employee>, logs: seq<AttendanceLog>, periodStart: string, periodEnd: string, newId: nat -> string)
    returns (slips: seq<PayrollSlip>, skipped: seq<string>)
    ensures slips == Slips(emps, logs, periodStart, periodEnd, newId)
    ensures skipped == Skipped(emps, logs, periodStart, periodEnd)
  {
    slips := [];
    skipped := [];
    var k := 0;
    while k < |emps|
      invariant 0 <= k <= |emps|
      invariant slips == Slips(emps[..k], logs, periodStart, periodEnd, newId)
      invariant skipped == Skipped(emps[..k], logs, periodStart, periodEnd)
    {
      var e := emps[k];
      assert emps[..k + 1][..k] == emps[..k];
      var worked := HasWorked(e, logs, periodStart, periodEnd);
      if worked {
        slips := slips + [Slip(e, newId(|slips|), periodStart, periodEnd)];
      } else {
        skipped := skipped + [SkipNote(e)];
      }
      k := k + 1;
    }
    assert emps[..k] == emps;
  }

  /** `allLogs.filter(...).length !== 0` for one employee. */
  method HasWorked(e: Employee, logs: seq<AttendanceLog>, periodStart: string, periodEnd: string) returns (worked: bool)
    ensures worked <==> Worked(e, logs, periodStart, periodEnd)
  {
    var i := 0;
    while i < |logs|
      invariant 0 <= i <= |logs|
      invariant forall j :: 0 <= j < i ==> !WorkedLog(logs[j], e, periodStart, periodEnd)
    {
      if WorkedLog(logs[i], e, periodStart, periodEnd) {
        return true;
      }
      i := i + 1;
    }
    return false;
  }

  // ---------------------------------------------------------------------
  // The service

  /** `updates.base_salary || updates.commission_rate || updates.role`: an
      update audited as sensitive. A zero salary or rate is falsy; a role
      name is never empty. */
  predicate SensitiveChange(u: EmployeeChanges) {
    (u.baseSalary.Some? && u.baseSalary.value != 0) ||
    (u.commissionRate.Some? && u.commissionRate.value != 0.0) ||
    u.role.Some?
  }

  /** The result of a call whose last step awaits `StorageService.logAudit`:
      its value when the audit returned, a rejection otherwise. That method
      is not defined by the `StorageService` object, so as written the
      audit rejects with a TypeError. */
  function AuditResult<T>(audited: bool, value: T): (r: Result<T>)
    ensures audited <==> r == Ok(value)
    ensures !audited ==> r.Err?
  {
    if audited then Ok(value) else Err("StorageService.logAudit is not a function")
  }

  class EmployeeService {
    const client: Client
    /** The browser's sync queue the fallbacks enqueue on. */
    const queue: WebSync.SyncQueue
    /** The device-local lists. */
    var employees: seq<Employee>
    var attendance: seq<AttendanceLog>
    var payroll: seq<PayrollSlip>

    constructor (client: Client, queue: WebSync.SyncQueue)
      ensures this.client == client && this.queue == queue
      ensures employees == [] && attendance == [] && payroll == []
    {
      this.client := client;
      this.queue := queue;
      employees := [];
      attendance := [];
      payroll := [];
    }

    /** A write goes to the local lists when there is no client or the
        remote write did not succeed. */
    predicate UseLocal(remote: Outcome) {
      client.Unconfigured? || remote != Success
    }

    /** What a fallback appends to the sync queue: one newId item when a
        client exists, nothing otherwise. */
    function Queued(action: WebSync.Action, payload: Json, queueId: string, now: Instant): (q: seq<WebSync.SyncItem>)
      ensures client.Unconfigured? ==> q == []
      ensures client.Configured? ==> q == [WebSync.SyncItem(queueId, action, payload, now, 0)]
    {
      if client.Configured? then [WebSync.SyncItem(queueId, action, payload, now, 0)] else []
    }

    /** `getEmployees`: the remote rows when the remote read succeeds (`read`
        holds them), the local list otherwise. */
    function EmployeeList(read: Option<seq<Employee>>): (r: seq<Employee>)
      reads this
      ensures client.Configured? && read.Some? ==> r == read.value
      ensures client.Unconfigured? || read.None? ==> r == employees
    {
      if client.Configured? && read.Some? then read.value else employees
    }

    /** `getAttendance(date)`: the remote rows when the remote read succeeds,
        otherwise the local logs, only those of `date` when one is given. */
    function AttendanceList(date: Option<string>, read: Option<seq<AttendanceLog>>): (r: seq<AttendanceLog>)
      reads this
      ensures client.Configured? && read.Some? ==> r == read.value
      ensures (client.Unconfigured? || read.None?) && date.Some? && date.value != "" ==>
        forall l :: l in r <==> l in attendance && l.date == date.value
      ensures (client.Unconfigured? || read.None?) && (date.None? || date.value == "") ==> r == attendance
    {
      if client.Configured? && read.Some? then read.value
      else if date.Some? && date.value != "" then OnDate(attendance, date.value)
      else attendance
    }

    /** `getPayrolls`: the remote rows with their joined names, or the local
        slips joined with the employees. */
    function PayrollList(read: Option<seq<RemotePayroll>>, employeesRead: Option<seq<Employee>>): (r: seq<PayrollSlip>)
      reads this
      ensures client.Configured? && read.Some? ==> r == FromRemotePayrolls(read.value)
      ensures client.Unconfigured? || read.None? ==>
        |r| == |payroll| && forall i :: 0 <= i < |r| ==> r[i] == JoinName(payroll[i], EmployeeList(employeesRead))
    {
      if client.Configured? && read.Some? then FromRemotePayrolls(read.value)
      else JoinNames(payroll, EmployeeList(employeesRead))
    }

    method Enqueue(action: WebSync.Action, payload: Json, queueId: string, now: Instant)
      requires client.Configured? ==> queueId !in WebSync.Ids(queue.items)
      modifies queue
      ensures queue.items == old(queue.items) + Queued(action, payload, queueId, now)
    {
      if client.Configured? {
        queue.AddToQueue(queueId, action, payload, now);
      }
    }

    /** `addEmployee`: the record with a fresh id. On the local path it is
        appended to the employee list as read (so possibly the remote list)
        and queued for insertion when a client exists. The audit call that
        follows the writes decides the result: `audited` says whether it
        returned, and when it did not the call rejects after the writes. */
    method AddEmployee(employee: Employee, freshId: string, insert: Outcome, read: Option<seq<Employee>>, queueId: string, now: Instant,
                       audited: bool)
      returns (r: Result<Employee>)
      requires client.Configured? ==> queueId !in WebSync.Ids(queue.items)
      modifies this, queue
      ensures audited ==> r == Ok(employee.(id := freshId))
      ensures !audited ==> r.Err?
      ensures UseLocal(insert) ==> employees == old(EmployeeList(read)) + [employee.(id := freshId)]
      ensures UseLocal(insert) ==> queue.items == old(queue.items) + Queued(WebSync.InsertEmployee, EmployeeJson(employee.(id := freshId)), queueId, now)
      ensures !UseLocal(insert) ==> employees == old(employees) && queue.items == old(queue.items)
      ensures attendance == old(attendance) && payroll == old(payroll)
    {
      var e := employee.(id := freshId);
      if UseLocal(insert) {
        employees := EmployeeList(read) + [e];
        Enqueue(WebSync.InsertEmployee, EmployeeJson(e), queueId, now);
      }
      r := AuditResult(audited, e);
    }

    /** `updateEmployee`: on the local path the first record with that id
        takes the changes, the list is stored and the update is queued; an
        unknown id stores and queues nothing. Only a sensitive change is
        audited, and only then can the call reject after its writes. */
    method UpdateEmployee(id: string, updates: EmployeeChanges, update: Outcome, read: Option<seq<Employee>>, queueId: string, now: Instant,
                          audited: bool)
      returns (r: Result<()>)
      requires client.Configured? ==> queueId !in WebSync.Ids(queue.items)
      modifies this, queue
      ensures r.Err? <==> SensitiveChange(updates) && !audited
      ensures var list := old(EmployeeList(read)); var k := IndexOfEmployee(list, id);
        UseLocal(update) && k >= 0 ==>
          employees == list[k := Merge(list[k], updates)] &&
          queue.items == old(queue.items) + Queued(WebSync.UpdateEmployee, IdAndUpdates(id, ChangesJson(updates)), queueId, now)
      ensures var list := old(EmployeeList(read));
        !UseLocal(update) || IndexOfEmployee(list, id) == -1 ==>
          employees == old(employees) && queue.items == old(queue.items)
      ensures attendance == old(attendance) && payroll == old(payroll)
    {
      if UseLocal(update) {
        var list := EmployeeList(read);
        var k := IndexOfEmployee(list, id);
        if k != -1 {
          employees := list[k := Merge(list[k], updates)];
          Enqueue(WebSync.UpdateEmployee, IdAndUpdates(id, ChangesJson(updates)), queueId, now);
        }
      }
      r := AuditResult(!SensitiveChange(updates) || audited, ());
    }

    /** `deleteEmployee`: on the local path every record with that id goes,
        the others keep their order, and the delete is queued; the audit
        that follows decides whether the call rejects. */
    method DeleteEmployee(id: string, delete: Outcome, read: Option<seq<Employee>>, queueId: string, now: Instant,
                          audited: bool)
      returns (r: Result<()>)
      requires client.Configured? ==> queueId !in WebSync.Ids(queue.items)
      modifies this, queue
      ensures r.Ok? <==> audited
      ensures UseLocal(delete) ==> employees == WithoutEmployee(old(EmployeeList(read)), id)
      ensures UseLocal(delete) ==> queue.items == old(queue.items) + Queued(WebSync.DeleteEmployee, IdOnly(id), queueId, now)
      ensures !UseLocal(delete) ==> employees == old(employees) && queue.items == old(queue.items)
      ensures attendance == old(attendance) && payroll == old(payroll)
    {
      if UseLocal(delete) {
        employees := WithoutEmployee(EmployeeList(read), id);
        Enqueue(WebSync.DeleteEmployee, IdOnly(id), queueId, now);
      }
      r := AuditResult(audited, ());
    }

    /** `clockIn`: refused when the day's attendance (as read) already holds
        a log of the employee; otherwise a PRESENT log dated today, clocked
        in now, is written remotely or appended locally (and queued). */
    method ClockIn(employeeId: string, loc: Location, photoUrl: string, today: string, now: Instant, freshId: string,
                   todayRead: Option<seq<AttendanceLog>>, insert: Outcome, allRead: Option<seq<AttendanceLog>>, queueId: string)
      returns (r: Result<AttendanceLog>)
      requires client.Configured? ==> queueId !in WebSync.Ids(queue.items)
      modifies this, queue
      ensures HasLogFor(old(AttendanceList(Some(today), todayRead)), employeeId) ==>
        r.Err? && attendance == old(attendance) && queue.items == old(queue.items)
      ensures !HasLogFor(old(AttendanceList(Some(today), todayRead)), employeeId) ==>
        r == Ok(NewAttendance(freshId, employeeId, today, now, loc, photoUrl))
      ensures r.Ok? && UseLocal(insert) ==>
        attendance == old(AttendanceList(None, allRead)) + [r.value] &&
        queue.items == old(queue.items) + Queued(WebSync.InsertAttendance, AttendanceJson(r.value), queueId, now)
      ensures r.Ok? && !UseLocal(insert) ==> attendance == old(attendance) && queue.items == old(queue.items)
      ensures employees == old(employees) && payroll == old(payroll)
    {
      var logs := AttendanceList(Some(today), todayRead);
      var found := FindLogFor(logs, employeeId);
      if found {
        return Err("Employee already clocked in for today");
      }
      var log := NewAttendance(freshId, employeeId, today, now, loc, photoUrl);
      if UseLocal(insert) {
        attendance := AttendanceList(None, allRead) + [log];
        Enqueue(WebSync.InsertAttendance, AttendanceJson(log), queueId, now);
      }
      r := Ok(log);
    }

    /** `clockOut`: when the remote update did not happen, the first local log
        of the employee dated today gets its clock-out time, location and
        photo, and nothing else of it changes; without such a log the call
        fails and changes nothing. */
    method ClockOut(employeeId: string, loc: Location, photoUrl: string, today: string, now: Instant,
                    remote: Outcome, queueId: string)
      returns (r: Result<()>)
      requires client.Configured? ==> queueId !in WebSync.Ids(queue.items)
      modifies this, queue
      ensures !UseLocal(remote) ==> r.Ok? && attendance == old(attendance) && queue.items == old(queue.items)
      ensures UseLocal(remote) && IndexOfOpenLog(old(attendance), employeeId, today) == -1 ==>
        r.Err? && attendance == old(attendance) && queue.items == old(queue.items)
      ensures var k := IndexOfOpenLog(old(attendance), employeeId, today);
        UseLocal(remote) && k >= 0 ==>
          r.Ok? && attendance == old(attendance)[k := ClockedOut(old(attendance)[k], now, loc, photoUrl)] &&
          queue.items == old(queue.items) + Queued(WebSync.UpdateAttendance, IdAndUpdates(old(attendance)[k].id, ClockOutJson(now, loc, photoUrl)), queueId, now)
      ensures employees == old(employees) && payroll == old(payroll)
    {
      if !UseLocal(remote) {
        return Ok(());
      }
      var k := IndexOfOpenLog(attendance, employeeId, today);
      if k == -1 {
        return Err("No Clock-In record found for today (Local)");
      }
      var id := attendance[k].id;
      attendance := attendance[k := ClockedOut(attendance[k], now, loc, photoUrl)];
      Enqueue(WebSync.UpdateAttendance, IdAndUpdates(id, ClockOutJson(now, loc, photoUrl)), queueId, now);
      r := Ok(());
    }

    /** `generatePayroll`: one draft per employee (as read) who worked in the
        period. With no slip the call reports failure and writes nothing;
        otherwise the slips are inserted remotely or appended to the local
        list, and the audit that follows decides whether the success report
        is returned or the call rejects. */
    method GeneratePayroll(periodStart: string, periodEnd: string, employeesRead: Option<seq<Employee>>,
                           attendanceRead: Option<seq<AttendanceLog>>, newId: nat -> string, insert: Outcome,
                           audited: bool)
      returns (r: Result<PayrollReport>)
      modifies this
      ensures var slips := Slips(old(EmployeeList(employeesRead)), old(AttendanceList(None, attendanceRead)), periodStart, periodEnd, newId);
        var skipped := Skipped(old(EmployeeList(employeesRead)), old(AttendanceList(None, attendanceRead)), periodStart, periodEnd);
        slips == [] ==> r == Ok(PayrollReport(false, 0, skipped))
      ensures var slips := Slips(old(EmployeeList(employeesRead)), old(AttendanceList(None, attendanceRead)), periodStart, periodEnd, newId);
        var skipped := Skipped(old(EmployeeList(employeesRead)), old(AttendanceList(None, attendanceRead)), periodStart, periodEnd);
        slips != [] && audited ==> r == Ok(PayrollReport(true, |slips|, skipped))
      ensures Slips(old(EmployeeList(employeesRead)), old(AttendanceList(None, attendanceRead)), periodStart, periodEnd, newId) != [] && !audited ==> r.Err?
      ensures var slips := Slips(old(EmployeeList(employeesRead)), old(AttendanceList(None, attendanceRead)), periodStart, periodEnd, newId);
        slips != [] && UseLocal(insert) ==> payroll == old(payroll) + slips
      ensures Slips(old(EmployeeList(employeesRead)), old(AttendanceList(None, attendanceRead)), periodStart, periodEnd, newId) == [] || !UseLocal(insert) ==> payroll == old(payroll)
      ensures employees == old(employees) && attendance == old(attendance)
    {
      var emps := EmployeeList(employeesRead);
      var logs := AttendanceList(None, attendanceRead);
      var slips, skipped := BuildSlips(emps, logs, periodStart, periodEnd, newId);
      if slips == [] {
        return Ok(PayrollReport(false, 0, skipped));
      }
      if UseLocal(insert) {
        payroll := payroll + slips;
      }
      r := AuditResult(audited, PayrollReport(true, |slips|, skipped));
    }
  }

  /** `logs.find(l => l.employee_id === employeeId)` is defined. */
  method FindLogFor(logs: seq<AttendanceLog>, employeeId: string) returns (found: bool)
    ensures found <==> HasLogFor(logs, employeeId)
  {
    var i := 0;
    while i < |logs|
      invariant 0 <= i <= |logs|
      invariant forall j :: 0 <= j < i ==> logs[j].employeeId != employeeId
    {
      if logs[i].employeeId == employeeId {
        return true;
      }
      i := i + 1;
    }
    return false;
  }

  /** A successful local clock-in leaves a log of the employee dated today, so
      a second clock-in the same day is refused. */
  lemma ClockInOncePerDay(logs: seq<AttendanceLog>, log: AttendanceLog, today: string)
    requires log.date == today && today != ""
    ensures HasLogFor(OnDate(logs + [log], today), log.employeeId)
  {
    var r := OnDate(logs + [log], today);
    assert log in logs + [log];
    assert log in r;
    var i :| 0 <= i < |r| && r[i] == log;
  }

  /** A queued employee update replays as an update of the employees table
      keyed by the employee id and carrying the changes. */
  lemma QueuedUpdateReplays(id: string, updates: EmployeeChanges, queueId: string, now: Instant)
    ensures WebSync.Dispatch(WebSync.SyncItem(queueId, WebSync.UpdateEmployee, IdAndUpdates(id, ChangesJson(updates)), now, 0))
      == WebSync.UpdateWhereId(WebSync.Employees, Some(ChangesJson(updates)), Some(JStr(id)))
  {
  }
}
