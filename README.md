# e-fuel-pos in Dafny

A model of the business core of e-fuel-pos. It is a point-of-sale system for a small fuel kiosk.
- A cashier types or picks a cash amount, and the system prices it in litres.
- It records the sale and the stock movement, and keeps the stock as a figure derived from those records.
- The core also covers:
  - credit sales against a customer;
  - expenses, debts and shift closing;
  - void requests that an administrator approves or rejects;
  - sales reports;
  - an employee, attendance and payroll service;
  - WhatsApp shift reports and receipts.
- Every write can go to a remote backend. When no backend client is configured, the write goes to a device-local store. A browser queue and a mobile queue replay failed writes later.

The model is one Dafny module per source file, plus three shared modules:
- `Common`: options, results, digits and decimal strings, sums, and a stable sort.
- `Json`: payload values. JavaScript objects are maps, and truthiness follows JavaScript.
- `Services`: the storage calls the screens issue whose implementation is not part of this model.

Design choices:
- **Quantities.** Litres and volumes are whole centilitres, so pricing, cost and the stock sums are exact integers.
- **Parameters.** Time, fresh identifiers and the backend's answers are parameters: what an insert returned, whether a call threw, which rows a read gave back.
- **State.**
  - Screens and services that update state become classes whose fields are the React state or the stored lists.
  - Their methods state the whole new state.
  - Pure folds, filters, parsers and schemas are functions, with lemmas that connect them to one another.

Behaviour the model reproduces as written:
- **Stock counts a sale twice.** A completed sale on the POS screen writes a transaction and also an OUT log of the same litres. The stock subtracts both, so one sale lowers the stock by twice its litres (`Pos.SaleCountsTwice`).
- **A throw can still drop a browser-queue item.** In the browser queue, a replay that throws raises only the in-memory count. An item whose stored count is 4 is therefore still removed by a throw. It is never dropped while its stored count is below 4.
- **A throw never drops a mobile-queue item.** In the mobile queue, a throw keeps the raised count and never removes the item.

## Model

| member | source | states |
|---|---|---|
| FuelLogic.RoundDiv | src/lib/fuel-logic.ts:28 | the quotient is the nearest integer, halves away from zero (the decimal reading of `toFixed`) |
| FuelLogic.StandardLiter | src/lib/fuel-logic.ts:26-29 | an amount outside the packages buys the centilitres nearest to amount/120, never negative for a non-negative amount |
| FuelLogic.CalculateTransaction | src/lib/fuel-logic.ts:12-43 | nominal is the amount; the special flag holds exactly for 10000, 6000 and 15000, which buy 70, 50 and 120 centilitres; other amounts buy the rounded rate; the cost is exactly centilitres × 100 and profit plus cost is the amount |
| FuelLogic.StandardLiterIsNearest | src/lib/fuel-logic.ts:28 | any centilitre count within half a centilitre of the exact quotient is the one delivered, so the rounding is unique |
| FuelLogic.PackagesAgainstFormula | src/lib/fuel-logic.ts:17-29 | 10000 and 15000 buy fewer litres than the rate would give (70 vs 83, 120 vs 125); 6000 buys the same 50 |
| FuelLogic.PinnedExamples | __tests__/fuel-logic.test.ts:4-46 | the six pinned cases: 10000, 6000, 15000, 12000, 24000 and 13000 give the expected litres, profit and flag |
| Storage.FromRemote | src/services/storage.ts:133-141 | a remote transaction row reads back with cost 0, no payment method and all other fields unchanged |
| Storage.FromRemoteAll | src/services/storage.ts:133-141 | the rows are mapped one by one, in order |
| Storage.NewLog | src/services/storage.ts:90-95 | the stored log: the input's fields with the fresh id and date; no contract of its own, its effect is stated by Store.AddInventoryLog and StockAfterLog |
| Storage.NewRecord | src/services/storage.ts:170-175 | the stored sale: the result's fields with the fresh id and time; no contract of its own, its effect is stated by Store.AddTransaction and StockAfterSale |
| Storage.LogVolume | src/services/storage.ts:106-108 | the volume of the logs of some types; no contract of its own, its behaviour is proved in LogVolumePrepend |
| Storage.SoldLiter | src/services/storage.ts:110 | the litres sold; no contract of its own, its behaviour is proved in SoldLiterPrepend |
| Storage.Stock | src/services/storage.ts:101-118 | the stock formula; no contract of its own, its behaviour is proved in StockAfterLog, StockAfterSale and StockOfNothing |
| Storage.LogVolumePrepend | src/services/storage.ts:106-108 | a log in front adds its volume to the sum of its type class and nothing to the others |
| Storage.SoldLiterPrepend | src/services/storage.ts:110 | a sale in front adds its litres to the sold total |
| Storage.StockAfterLog | src/services/storage.ts:106-117 | a new IN or ADJUSTMENT log raises the stock by its volume and an OUT log lowers it by its volume |
| Storage.StockAfterSale | src/services/storage.ts:110 | a new sale lowers the stock by its litres |
| Storage.StockOfNothing | src/services/storage.ts:106-117 | no logs and no sales give stock 0 |
| Storage.DefaultsArePackages | src/services/storage.ts:200-204 | each seeded rule is active, is a package amount and carries the litres the pricing gives it; every package amount has a seeded rule |
| Storage.Store.constructor | src/services/storage.ts:25-29 | the local lists start empty and no pricing rules are stored |
| Storage.Store.InventoryLogs | src/services/storage.ts:36-64 | the local list without a client; with one, the remote rows, or nothing after a read error |
| Storage.Store.Transactions | src/services/storage.ts:121-147 | the local list without a client; with one, the mapped rows (cost 0, same litres), or nothing after a read error |
| Storage.Store.CurrentStock | src/services/storage.ts:101-118 | the stock of the local lists without a client; with one, the stock of the remote logs and the mapped remote sales; a failed read contributes nothing, so both failing gives 0 |
| Storage.Store.AddInventoryLog | src/services/storage.ts:66-99 | without a client the new log (fresh id, now) is put in front and returned, and the stock moves by its effect; with one nothing local changes, and the backend's id and date are returned or its error is rethrown |
| Storage.Store.AddTransaction | src/services/storage.ts:149-179 | the same for sales; locally the record keeps every field of the result and the stock drops by its litres |
| Storage.Store.GetPricingRules | src/services/storage.ts:182-209 | non-empty remote rules win; otherwise the three defaults are stored on the first read and every later read returns the stored list |
| Common.DecimalString | src/app/pos/page.tsx:125 | `toString` of a natural number: non-empty digits, no leading zero unless it is "0", and denoting the number |
| Common.DecimalStringLength | src/app/pos/page.tsx:125 | a number in [10^(k-1), 10^k) is written with k digits |
| Common.StripNonDigits | src/services/whatsapp.ts:33 | `replace(/\D/g, '')`: the result is all digits, no longer than the input, holds exactly the digits that occur in the input, and a digit string is kept as it is |
| Common.RemoveDots | src/app/pos/page.tsx:114 | `replace(/\./g, '')`: no dot remains, every other character that occurs still occurs, and a string without dots is kept as it is |
| Common.StripNonDigitsAppend | src/services/whatsapp.ts:33 | the digits of a concatenation are the digits of each part, so the digits stay in their input order |
| Common.RemoveDotsAppend | src/app/pos/page.tsx:114 | removing dots from a concatenation removes them from each part, so the other characters stay in order |
| Common.Lower | src/app/pos/page.tsx:332 | `toLowerCase` on ASCII: the same length, letter by letter |
| Common.HasNonBlank | src/app/reports/page.tsx:406 | `!s.trim()` is false: some character is not ECMAScript white space or a line terminator (IsJsSpace); no contract of its own, used by ReportsScreen.SubmitVoidRequest |
| Common.IsJsSpace | src/app/reports/page.tsx:406 | the characters `trim()` strips: tab, vertical tab, form feed, space, no-break space, byte order mark, the Zs separators, and line feed, carriage return, line and paragraph separator; no contract of its own |
| Common.Before | src/services/employee.ts:315 | `split('T')[0]`: the longest prefix without the separator, ending where the separator first occurs |
| Common.SumOfAppend | src/app/reports/page.tsx:162-166 | the folded sum of a concatenation is the sum of the folds |
| Sorting.SortDesc | src/app/requests/page.tsx:34 | the result is sorted newest first and is a permutation of the input |
| Sorting.InsertDesc | src/app/reports/page.tsx:156-158 | inserting keeps the order sorted and adds exactly one element |
| Sorting.InsertDescStable | src/app/reports/page.tsx:156-158 | an inserted element goes behind every element with the same key |
| Sorting.SortDescStable | src/app/reports/page.tsx:156-158 | the sort is stable: for every key, the elements with that key keep their input order |
| Json.Get | src/app/requests/page.tsx:47 | a field is present exactly when the value is an object holding that key |
| Json.Or | src/app/requests/page.tsx:49 | `a \|\| b`: a when a is truthy, b otherwise |
| Json.Spread | src/app/reports/page.tsx:409-414 | `{...a, ...b}`: the keys of both, b's values winning |
| Services.RequesterName | src/app/reports/page.tsx:420 | the username when there is a user with a non-empty name, and a non-empty fallback otherwise |
| WebSync.Dispatch | src/services/sync.ts:59-114 | each action writes its own table; exactly the DELETE actions delete by `payload.id`, exactly the UPDATE actions update `payload.updates` by `payload.id`, and exactly UPDATE_SETTINGS upserts |
| WebSync.DispatchAll | src/services/sync.ts:55-114 | one request per item, in snapshot order |
| WebSync.Settle | src/services/sync.ts:116-144 | one item's fate; no contract of its own, its behaviour is proved in PassFate, PassAllErrors and SucceedingPassEmpties |
| WebSync.Pass | src/services/sync.ts:55-145 | one pass over a snapshot, never longer than it; proved about it in PassConcat, PassIds, PassDistinct and the pass lemmas below |
| WebSync.WithoutId | src/services/sync.ts:38-42 | the filter by id, never longer; proved about it in WithoutIdAppend, WithoutIdAbsent and WithoutIdSingle |
| WebSync.IndexOfId | src/services/sync.ts:128 | `findIndex`: -1 exactly when the id is absent, otherwise the first position holding it |
| WebSync.WithoutIdAppend | src/services/sync.ts:38-42 | filtering an id out of a concatenation filters each part, so the order of the others is kept |
| WebSync.WithoutIdAbsent | src/services/sync.ts:38-42 | removing an id no item carries changes nothing |
| WebSync.WithoutIdSingle | src/services/sync.ts:38-42 | removing an item's own id removes it |
| WebSync.PassIds | src/services/sync.ts:55-145 | a pass never introduces an id |
| WebSync.PassDistinct | src/services/sync.ts:55-145 | a pass keeps the ids distinct |
| WebSync.IdIsolated | src/services/sync.ts:40 | in a queue with distinct ids an item's id occurs nowhere else |
| WebSync.SyncQueue.constructor | src/services/sync.ts:14-17 | the stored queue starts empty |
| WebSync.SyncQueue.AddToQueue | src/services/sync.ts:19-29 | exactly one item is appended, with retry count 0, the given action, payload and time; earlier items are unchanged |
| WebSync.SyncQueue.RemoveFromQueue | src/services/sync.ts:38-42 | the stored queue loses exactly the items with that id, the rest in order |
| WebSync.SyncQueue.StoreRetryCount | src/services/sync.ts:126-132 | only the first item with the id gets the new count; an absent id changes nothing |
| WebSync.SyncQueue.Replay | src/services/sync.ts:116-144 | one replay, on the stored queue, touches only the replayed item: removed, re-counted or left as its outcome decides |
| WebSync.SyncQueue.Advance | src/services/sync.ts:55-145 | after the k-th replay the stored queue is the pass over the first k+1 items followed by the untouched rest |
| WebSync.SyncQueue.ProcessQueue | src/services/sync.ts:44-146 | an empty queue or a missing client changes nothing and issues nothing; otherwise the stored queue becomes the pass over the snapshot and every item's request is issued in order |
| WebSync.SyncQueue.ReplayAll | src/services/sync.ts:55-145 | the loop replays every item of the snapshot exactly once |
| WebSync.PassStep | src/services/sync.ts:116-144 | a replay's removal or re-count by id hits exactly the current item |
| WebSync.PassConcat | src/services/sync.ts:55-145 | a pass over two halves is the two passes one after the other: relative order is preserved |
| WebSync.PassAppendOne | src/services/sync.ts:55-145 | the last item's fate is appended to the pass over the rest |
| WebSync.PassFate | src/services/sync.ts:116-143 | a removed item's id is no longer in the queue; a kept item is in it with its new count |
| WebSync.PassAround | src/services/sync.ts:55-145 | a pass splits around any one item |
| WebSync.PassAllErrors | src/services/sync.ts:116-133 | a pass of error results raises every count by one, or empties the queue when that reaches 5 |
| WebSync.ErrorPassFrom | src/services/sync.ts:116-133 | the first of several error passes, below and at the ceiling |
| WebSync.PassesOfEmpty | src/services/sync.ts:46 | passes over an empty queue leave it empty |
| WebSync.PassesErrorsBelow | src/services/sync.ts:119-132 | n error passes that stay below 5 raise every count by n and keep every item |
| WebSync.PassesErrorsReach | src/services/sync.ts:119-124 | error passes that reach 5 empty the queue |
| WebSync.AlwaysErroringDroppedAfterFive | src/services/sync.ts:119-124 | fresh items that always fail with an error are still queued, with count n, after n < 5 passes and all gone after exactly 5 |
| WebSync.ThrowingPassKeepsQueue | src/services/sync.ts:139-144 | while every stored count is below 4, a pass of thrown replays leaves the stored queue as it was |
| WebSync.AlwaysThrowingNeverDropped | src/services/sync.ts:139-144 | with stored counts below 4, any number of throwing passes never drops an item |
| WebSync.SucceedingPassEmpties | src/services/sync.ts:134-136 | a pass in which every replay succeeds empties the queue |
| WebSync.EventualDelivery | src/services/sync.ts:55-136 | after fewer than 5 error passes the same requests are issued again, and a succeeding pass then empties the queue |
| WebSync.DispatchAllSame | src/services/sync.ts:55-114 | the requests depend only on the actions and payloads, not on the counts |
| MobileSync.QueueOf | mobile-app/lib/sync.ts:17-25 | `getQueue`: the stored queue, or empty when the value is absent or cannot be read |
| MobileSync.Request | mobile-app/lib/sync.ts:69-72 | an attendance insert sends its payload; any other tag sends nothing |
| MobileSync.Requests | mobile-app/lib/sync.ts:64-72 | one request slot per item, in order |
| MobileSync.Settle | mobile-app/lib/sync.ts:74-92 | one item's fate; no contract of its own, its behaviour is proved in SettleCases |
| MobileSync.Pass | mobile-app/lib/sync.ts:64-93 | one pass over the queue, never longer than it; proved equal to the loop in RunPass and characterised in PassConcat and SettleCases |
| MobileSync.PassSnoc | mobile-app/lib/sync.ts:64-93 | the pass over k+1 items extends the pass over k by that item's fate |
| MobileSync.RunPass | mobile-app/lib/sync.ts:60-93 | the index loop with `splice` and `i--` visits every item exactly once; the copy ends as the pass over the queue, `hasChanges` holds exactly for a non-empty queue, and one request is made per item |
| MobileSync.Visit | mobile-app/lib/sync.ts:65-92 | one step of the loop: the index points at the next original item and the copy advances by that item's fate |
| MobileSync.SettleShape | mobile-app/lib/sync.ts:74-92 | the in-place count update in the copy, and the `splice`, do to the copy what the item's fate says |
| MobileSync.MobileQueue.constructor | mobile-app/lib/sync.ts:6 | nothing is stored under the queue key |
| MobileSync.MobileQueue.SaveQueue | mobile-app/lib/sync.ts:27-33 | the queue is stored, or the store is unchanged when saving fails |
| MobileSync.MobileQueue.ProcessQueue | mobile-app/lib/sync.ts:52-97 | a pass is attempted exactly when the loaded queue is non-empty; the pass's queue is then saved; the requests are those of the loaded queue |
| MobileSync.MobileQueue.AddToQueue | mobile-app/lib/sync.ts:35-49 | one item with count 0 is appended and saved, then a pass runs over what the store then holds |
| MobileSync.PassConcat | mobile-app/lib/sync.ts:74-87 | the pass keeps survivors in their original relative order |
| MobileSync.PassAppendOne | mobile-app/lib/sync.ts:64-93 | the last item's fate follows the pass over the rest |
| MobileSync.PassAround | mobile-app/lib/sync.ts:64-93 | a pass splits around any one item |
| MobileSync.SettleCases | mobile-app/lib/sync.ts:74-92 | a success removes; a throw keeps the item with its count raised by one; an error removes exactly when the raised count reaches 5; every survivor's count is exactly one higher |
| MobileSync.ThrowingPassKeepsAll | mobile-app/lib/sync.ts:88-92 | a pass of thrown replays keeps every item, whatever its count, each with a count one higher |
| MobileSync.ErringPass | mobile-app/lib/sync.ts:74-81 | a pass of error results raises every count by one, or empties the queue at 5 |
| MobileSync.ErringPassesBelow | mobile-app/lib/sync.ts:74-81 | n error passes below 5 raise every count by n |
| MobileSync.ErringPassesReach | mobile-app/lib/sync.ts:74-81 | error passes that reach 5 empty the queue |
| MobileSync.PassesOfEmpty | mobile-app/lib/sync.ts:54 | passes over an empty queue leave it empty |
| MobileSync.AlwaysErringDroppedAfterFive | mobile-app/lib/sync.ts:76-81 | fresh inserts that always fail with an error survive 4 passes with count n and are gone after exactly 5 |
| Employees.IdAndUpdates | src/services/employee.ts:131 | the queued update payload carries the id and the updates |
| Employees.IdOnly | src/services/employee.ts:162 | the queued delete payload carries the id |
| Employees.MergeLaws | src/services/employee.ts:126 | merging an empty update changes nothing, and merging the same update twice is merging it once |
| Employees.Merge | src/services/employee.ts:126 | `{...employee, ...updates}`; no contract of its own, its laws are proved in MergeLaws |
| Employees.IndexOfEmployee | src/services/employee.ts:124 | -1 exactly when no employee has the id, otherwise the first one that has it |
| Employees.WithoutEmployee | src/services/employee.ts:157 | exactly the employees with other ids remain |
| Employees.WithoutEmployeeAbsent | src/services/employee.ts:157 | deleting an unknown id keeps the list as it is |
| Employees.WithoutEmployeeAppend | src/services/employee.ts:157 | the filter keeps the order of the remaining employees |
| Employees.FindEmployee | src/services/employee.ts:388 | `find` by id: none exactly when no employee has it, otherwise the first match |
| Employees.NameOrUnknown | src/services/employee.ts:389 | the name when present and non-empty, otherwise "Unknown" |
| Employees.JoinName | src/services/employee.ts:387-390 | only the employee name of a slip changes: the matching employee's name or "Unknown" |
| Employees.JoinNames | src/services/employee.ts:387-390 | every slip is joined, in order |
| Employees.JoinedName | src/services/employee.ts:388-389 | a slip whose employee is listed with a non-empty name gets that name |
| Employees.FromRemotePayroll | src/services/employee.ts:375-378 | a remote row gets the joined name, or "Unknown" |
| Employees.FromRemotePayrolls | src/services/employee.ts:372-378 | every remote row is mapped, in order |
| Employees.OnDate | src/services/employee.ts:183-185 | the logs dated that day, and no others |
| Employees.IndexOfOpenLog | src/services/employee.ts:274 | -1 exactly when the employee has no log dated today, otherwise the first such log |
| Employees.SlipsAreDrafts | src/services/employee.ts:325-336 | every slip is a DRAFT for the period, with net salary equal to base salary and commission, deductions and bonuses 0, for an employee who worked in the period |
| Employees.WorkedGetsSlip | src/services/employee.ts:313-323 | every employee who worked gets a slip; every other employee gets a skip note |
| Employees.SlipsAndSkippedPartition | src/services/employee.ts:309-338 | slips and skip notes together number the employees |
| Employees.Slips | src/services/employee.ts:309-338 | the slips the loop builds; no contract of its own, characterised by SlipsAreDrafts, WorkedGetsSlip and BuildSlips |
| Employees.Skipped | src/services/employee.ts:320-323 | the skip notes; no contract of its own, characterised by WorkedGetsSlip and SlipsAndSkippedPartition |
| Employees.BuildSlips | src/services/employee.ts:309-338 | the loop over employees builds exactly the slips and skip notes of the specification |
| Employees.HasWorked | src/services/employee.ts:313-318 | true exactly when the employee has a PRESENT log dated within the period |
| Employees.FindLogFor | src/services/employee.ts:201 | true exactly when some log belongs to the employee |
| Employees.ClockInOncePerDay | src/services/employee.ts:200-202 | once today's log is stored, a second clock-in sees it |
| Employees.QueuedUpdateReplays | src/services/employee.ts:131 | a queued employee update replays as an update of those changes keyed by the id (src/services/sync.ts:97) |
| Employees.EmployeeService.constructor | src/services/employee.ts:49-53 | the three stored lists start empty |
| Employees.EmployeeService.Queued | src/services/employee.ts:98-100 | a fallback enqueues one item when a client exists and nothing otherwise |
| Employees.EmployeeService.EmployeeList | src/services/employee.ts:68-76 | a successful remote read wins; otherwise the stored list |
| Employees.EmployeeService.AttendanceList | src/services/employee.ts:172-187 | a successful remote read wins; otherwise the stored logs, only those of the date when one is given |
| Employees.EmployeeService.PayrollList | src/services/employee.ts:370-391 | the remote rows with joined names, or the stored slips joined to the employee list |
| Employees.EmployeeService.Enqueue | src/services/employee.ts:98-100 | the sync queue grows by exactly the queued item |
| Employees.EmployeeService.AddEmployee | src/services/employee.ts:78-107 | on the local path the record with the fresh id is appended to the list read and enqueued when a client exists; a remote success changes nothing local; the record is returned only when the audit at line 104 returns, otherwise the call rejects after those writes |
| Employees.EmployeeService.UpdateEmployee | src/services/employee.ts:109-140 | on the local path only the first employee with the id is merged, and the update is enqueued; an unknown id or a remote success changes and enqueues nothing; the call rejects exactly when the update sets a truthy salary, commission rate or role and the audit at line 138 does not return |
| Employees.EmployeeService.DeleteEmployee | src/services/employee.ts:142-168 | on the local path every employee with the id is removed and the deletion enqueued; the call resolves exactly when the audit at line 167 returns |
| Employees.EmployeeService.ClockIn | src/services/employee.ts:189-236 | an employee already logged today gets an error and nothing changes; otherwise the PRESENT log for today with clock-in now is returned, and on the local path appended and enqueued |
| Employees.EmployeeService.ClockOut | src/services/employee.ts:238-297 | on the local path a missing log for today is an error; otherwise only that log gets the clock-out fields and the update is enqueued |
| Employees.EmployeeService.GeneratePayroll | src/services/employee.ts:301-368 | with no slip built the failure report is returned and nothing is stored; otherwise the slips are stored on the local path, and the success report with the slip count and the skip notes is returned when the audit at line 361 returns, else the call rejects after storing |
| Pos.LeadingDigits | src/app/pos/page.tsx:114 | the longest run of digits at the start, as `parseInt` reads it |
| Pos.NextAmount | src/app/pos/page.tsx:120-138 | the display after a key; no contract of its own, characterised by KeypadKeepsShape, PresetSetsAmount, DigitAppends and DelDrops |
| Pos.ParseAmount | src/app/pos/page.tsx:113-117 | the amount of a display; no contract of its own, characterised by ParseDigits |
| Pos.LeadingDigitsOfDigits | src/app/pos/page.tsx:114 | a digit string is read in full |
| Pos.ParseDigits | src/app/pos/page.tsx:114 | a display of digits parses to the number it denotes |
| Pos.KeypadKeepsShape | src/app/pos/page.tsx:120-138 | every key keeps the display "0" or 1 to 7 digits without a leading zero, so the amount stays below ten million |
| Pos.PresetSetsAmount | src/app/pos/page.tsx:123-125 | a preset replaces the amount with its own value |
| Pos.DigitAppends | src/app/pos/page.tsx:133-135 | a digit shifts the amount one place and adds the digit while fewer than 7 digits are shown; on a full display it is ignored |
| Pos.DelDrops | src/app/pos/page.tsx:128-130 | DEL divides the amount by ten, rounding down, and an emptied display shows "0" |
| Pos.AddCustomerShown | src/app/pos/page.tsx:332 | the add button shows exactly when the name is non-empty and no customer has it, ignoring case |
| Pos.MatchingCustomers | src/app/pos/page.tsx:345 | exactly the customers whose lower-cased name contains the lower-cased term |
| Pos.AddCustomerHiddenMeansListed | src/app/pos/page.tsx:332-345 | when the button is hidden for a non-empty name, the customer with that name is among the matches listed |
| Pos.AddedCustomerHidesButton | src/app/pos/page.tsx:34-39 | once the added customer is in the list, the button hides |
| Pos.SaleCountsTwice | src/app/pos/page.tsx:150-156 | a sale plus its OUT log of the same litres lowers the derived stock by twice the litres |
| Pos.PosScreen.constructor | src/app/pos/page.tsx:17-27 | the display shows "0", the stock is 0 and no dialog is open |
| Pos.PosScreen.HandleInput | src/app/pos/page.tsx:120-138 | the display becomes the next display for the key; nothing else changes |
| Pos.PosScreen.Clear | src/app/pos/page.tsx:268 | C resets the display to "0", so the amount is 0; every other field is unchanged |
| Pos.PosScreen.CloseModal | src/app/pos/page.tsx:171-174 | the success dialog closes and the display resets; every other field is unchanged |
| Pos.PosScreen.UpdateStock | src/app/pos/page.tsx:107-110 | the shown stock becomes the derived stock; nothing else changes |
| Pos.PosScreen.HandleProcess | src/app/pos/page.tsx:140-169 | a zero amount does nothing; more litres than the stock is refused and writes nothing; locally the sale and then its OUT log are put in front and the stock drops by twice the litres; remotely it completes exactly when both writes succeed; on completion the dialog shows the sale and the stock is re-read; on any other outcome the dialog, last sale and stock are unchanged; the display and the credit-dialog fields never change |
| Pos.PosScreen.OpenDebtModal | src/app/pos/page.tsx:302-306 | a non-zero amount loads the customers and opens the credit dialog; nothing else changes |
| Pos.PosScreen.HandleAddCustomer | src/app/pos/page.tsx:34-44 | an empty name does nothing; otherwise the customer is added, and on success appended and selected; a failure changes nothing; the display, stock, dialogs, last sale and typed name never change |
| Pos.PosScreen.HandleDebtProcess | src/app/pos/page.tsx:46-91 | no amount or no customer does nothing; too many litres is refused; otherwise the DEBT sale, the debt of the nominal on the sale's id and the OUT log follow in order; on completion the dialogs close and the selection clears; on any other outcome the dialogs, selection, typed name, last sale and stock are unchanged |
| Pos.PosScreen.ShowSale | src/app/pos/page.tsx:159-164 | the success dialog shows the sale and the stock is re-read; the display and the credit-dialog fields are unchanged |
| Pos.PosScreen.ShowDebtSale | src/app/pos/page.tsx:79-85 | the success dialog shows the sale, the credit dialog closes, the selection and typed name clear and the stock is re-read |
| Pos.WriteDebtSale | src/app/pos/page.tsx:55-90 | the writes of a credit sale stop at the first failure; the debt names the local id, or the id the backend returned |
| Validation.ParsePaymentMethod | src/lib/validation.ts:10 | a method is read exactly from CASH, DEBT or QRIS |
| Validation.PaymentMethodRoundTrip | src/lib/validation.ts:10 | every method's name reads back as that method |
| Validation.ParseTransaction | src/lib/validation.ts:6-12 | a parse succeeds exactly for a valid object; a missing method defaults to CASH; the nominal is at least 100 and the litres positive |
| Validation.TransactionValid | src/lib/validation.ts:6-12 | the transaction schema; no contract of its own, characterised by ParseTransaction, TransactionRoundTrip and SaleValidIffAtLeast100 |
| Validation.InventoryValid | src/lib/validation.ts:15-20 | the inventory schema; no contract of its own, characterised by LogInputValidIff |
| Validation.AttendanceValid | src/lib/validation.ts:23-28 | the attendance schema; no contract of its own, characterised by AttendanceNeedsIdAndStatus and UuidHasFourDashes |
| Validation.EmployeeValid | src/lib/validation.ts:30-34 | the employee schema; no contract of its own, its PIN rule is characterised by PinExamples |
| Validation.TransactionRoundTrip | src/lib/validation.ts:6-12 | every transaction the schema allows parses back from its JSON as itself |
| Validation.TransactionIgnoresOtherKeys | src/lib/validation.ts:6-12 | keys outside the schema do not affect the parse |
| Validation.SaleValidIffAtLeast100 | src/lib/validation.ts:7-8 | a priced sale passes exactly when its amount is at least 100 |
| Validation.LogInputValidIff | src/lib/validation.ts:15-20 | an inventory entry passes exactly when its volume is positive, its cost not negative and its notes at most 500 characters |
| Validation.UuidHasFourDashes | src/lib/validation.ts:24 | a UUID-shaped id has dashes exactly at positions 8, 13, 18 and 23 |
| Validation.AttendanceNeedsIdAndStatus | src/lib/validation.ts:23-28 | a valid attendance has a 36-character employee id and one of the five statuses |
| Validation.PinExamples | src/lib/validation.ts:33 | every six-digit number is a valid PIN, and so is one with a leading zero; five or seven digits or a letter are not |
| WhatsApp.StoreName | src/services/whatsapp.ts:12 | the configured store name when non-empty, otherwise the default |
| WhatsApp.NormalizePhone | src/services/whatsapp.ts:33-36 | the normalised number; no contract of its own, characterised by NormalizePhoneShape and NormalizePhoneIdempotent |
| WhatsApp.NormalizePhoneShape | src/services/whatsapp.ts:33-36 | the number has only digits and never starts with 0; a leading 0 becomes 62, one longer; other digits are kept |
| WhatsApp.NormalizePhoneIdempotent | src/services/whatsapp.ts:33-36 | normalising twice is normalising once |
| WhatsApp.ReceiptNumber | src/services/whatsapp.ts:18 | the first eight characters of the id, or all of a shorter one |
| WhatsApp.ReceiptOf | src/services/whatsapp.ts:10-21 | the receipt shows the store name, the shortened number, the time, the nominal and the litres of the sale |
| WhatsApp.ReceiptNumberSharedPrefix | src/services/whatsapp.ts:18 | two ids with the same first eight characters print the same number |
| WhatsApp.ShiftReportOf | src/services/whatsapp.ts:43-54 | variance = final − expected, negative exactly when cash is missing; the other figures are passed through |
| WhatsApp.OwnerDelivery | src/services/whatsapp.ts:61-104 | nothing is sent without an owner phone; with an API key the report is posted, and the link is opened as well when the post throws; without a key the link is opened |
| WhatsApp.DeliveryTargetsNormalized | src/services/whatsapp.ts:70-73 | every delivery goes to a number of digits that does not start with 0 |
| Requests.NewestFirst | src/app/requests/page.tsx:34 | the list sorted by creation time, newest first, as a permutation |
| Requests.OfferedActions | src/app/requests/page.tsx:164-181 | approve and reject are offered exactly for pending requests |
| Requests.Deletion | src/app/requests/page.tsx:45-64 | an approved void executes a deletion |
| Requests.ActionCalls | src/app/requests/page.tsx:41-76 | the calls of a decision; no contract of its own, characterised by OnlyVoidApprovalsDelete and StatusOnlyAfterDeletion |
| Requests.RequestsScreen.constructor | src/app/requests/page.tsx:30-39 | no requests are listed and no notice is shown |
| Requests.RequestsScreen.Load | src/app/requests/page.tsx:30-39 | the list read, newest first, or an error notice with the list kept |
| Requests.RequestsScreen.HandleAction | src/app/requests/page.tsx:41-76 | the calls are those of the decision; success shows the done notice and reloads; any failure shows the failure notice and keeps the list |
| Requests.OnlyVoidApprovalsDelete | src/app/requests/page.tsx:44-68 | rejecting, or approving anything but a void, deletes nothing and only marks the request |
| Requests.StatusOnlyAfterDeletion | src/app/requests/page.tsx:67-75 | an approved void is marked only after its deletion was issued first and succeeded |
| Requests.VoidTransactionTarget | src/app/requests/page.tsx:49 | a truthy `payload.id` is deleted, otherwise `payload.transactionId` |
| Expenses.TotalExpensesAppend | src/app/expenses/page.tsx:123 | the total is additive, and one more expense raises it by its amount |
| Expenses.VoidPayload | src/app/expenses/page.tsx:101-106 | the request carries the expense id, the reason, the title and the amount |
| Expenses.TotalExpenses | src/app/expenses/page.tsx:123 | the total of the expenses; no contract of its own, characterised by TotalExpensesAppend |
| Expenses.ApprovedVoidDeletesExpense | src/app/requests/page.tsx:57-63 | approving the expense void deletes the same expense as the administrator's direct delete |
| Expenses.ExpensesScreen.constructor | src/app/expenses/page.tsx:16-32 | an empty form with category OPERASIONAL and no dialog |
| Expenses.ExpensesScreen.ResetForm | src/app/expenses/page.tsx:116-121 | title, amount and notes empty, category OPERASIONAL; nothing else changes |
| Expenses.ExpensesScreen.ConfirmDelete | src/app/expenses/page.tsx:73-93 | no user does nothing; an administrator deletes directly after confirming, and the selection and reason are kept; a cashier deletes nothing and opens the void dialog with an empty reason; the busy flag and the form never change |
| Expenses.ExpensesScreen.HandleRequestVoid | src/app/expenses/page.tsx:95-114 | with an expense and a user, the EXPENSE_VOID request is filed under the username; success closes the dialog; the busy flag ends false; the list, the selection, the reason and the form are unchanged |
| Reports.Since | src/app/reports/page.tsx:125-128 | exactly the records at or after the cutoff, in order |
| Reports.SinceCons | src/app/reports/page.tsx:125 | the filter over a record in front |
| Reports.RestockCost | src/app/reports/page.tsx:149 | the restock value `\|costPerLiter × volume\|` is never negative |
| Reports.SaleRecords | src/app/reports/page.tsx:131-141 | one sale row per transaction, in order |
| Reports.RestockRecords | src/app/reports/page.tsx:143-154 | exactly the rows of the IN logs |
| Reports.Ledger | src/app/reports/page.tsx:156-158 | the table is sorted newest first and is a permutation of the sale and restock rows since the cutoff |
| Reports.LedgerHasSale | src/app/reports/page.tsx:131-158 | every sale since the cutoff has its row |
| Reports.LedgerHasRestock | src/app/reports/page.tsx:143-158 | every IN log since the cutoff has its row |
| Reports.LedgerMember | src/app/reports/page.tsx:131-158 | a row is in the table exactly when it is a sale row or a restock row since the cutoff |
| Reports.LedgerHasNoAdjustments | src/app/reports/page.tsx:143-154 | no OUT or ADJUSTMENT log appears |
| Reports.RestockTotal | src/app/reports/page.tsx:165 | the restock total is never negative |
| Reports.Summarize | src/app/reports/page.tsx:162-167 | the report totals; no contract of its own, characterised by SummaryAfterSale, SummaryAfterLog, SummaryAfterExpense and SummaryOfNothing |
| Reports.SummaryAfterSale | src/app/reports/page.tsx:162-164 | a sale since the cutoff adds its nominal, litres and profit to the totals and its profit to the net profit; an earlier one changes nothing |
| Reports.SummaryAfterLog | src/app/reports/page.tsx:165 | an IN log since the cutoff adds its cost to the restock total; any other log changes nothing |
| Reports.SummaryAfterExpense | src/app/reports/page.tsx:166-167 | an expense since the cutoff adds to operating costs and lowers the net profit by its amount |
| Reports.SummaryOfNothing | src/app/reports/page.tsx:162-167 | nothing recorded gives all totals 0 |
| Reports.HourOf | src/app/reports/page.tsx:210 | the hour of day is in 0..23 |
| Reports.IndicatorSum | src/app/reports/page.tsx:211 | one record's contribution summed over the hours counts it once |
| Reports.HoursUpToSplit | src/app/reports/page.tsx:209-211 | the last record adds its nominal to its own hour only |
| Reports.HoursAddUp | src/app/reports/page.tsx:208-213 | the 24 hourly buckets add up to the sum of the nominals |
| Reports.ZeroHours | src/app/reports/page.tsx:208 | the buckets start at 0 |
| Reports.HourlyTotals | src/app/reports/page.tsx:208-213 | the loop fills each of the 24 buckets with its hour's total |
| Reports.ChartSource | src/app/reports/page.tsx:264-271 | in shift mode the filtered sales, otherwise exactly today's sales |
| Reports.OnDay | src/app/reports/page.tsx:270 | exactly the sales of that day |
| Reports.CountDebt | src/app/reports/page.tsx:254-258 | the debt count is at most the number of sales |
| Reports.PaymentStats | src/app/reports/page.tsx:254-258 | the loop counts DEBT sales as debt and all others as cash, the two adding up to the number of sales |
| Reports.SaleMethodCounted | src/app/reports/page.tsx:256-257 | one more DEBT sale adds one to the debt count; a sale without a method adds none |
| Reports.VoidPayload | src/app/reports/page.tsx:409-414 | the stored record with the reason and the row id written over it |
| Reports.ApprovedVoidMatchesDirectDeletion | src/app/reports/page.tsx:318-325 | approving a cashier's void of a row deletes the same record, with the same litres and nominal, as the administrator's direct deletion (src/app/requests/page.tsx:45-56) |
| Reports.ReportsScreen.constructor | src/app/reports/page.tsx:94-100 | an empty table and zero totals |
| Reports.ReportsScreen.ProcessData | src/app/reports/page.tsx:94-276 | the table is the ledger, the summary is the summary of the records since the cutoff, and the hourly and payment figures are those of the filtered and chart sales |
| Reports.ReportsScreen.Charts | src/app/reports/page.tsx:207-275 | the hourly buckets, payment counts and chart buckets of the given sales; the table, the summary and the dialog state are unchanged |
| Reports.ReportsScreen.HandleActionClick | src/app/reports/page.tsx:315-355 | an administrator deletes a sale or restock row directly after confirming, leaving the dialog and reason as they were; anyone else deletes nothing and opens the request dialog with an empty reason; the charts never change |
| Reports.ReportsScreen.SubmitVoidRequest | src/app/reports/page.tsx:404-427 | a blank reason is refused; otherwise VOID_TRANSACTION for a sale row and VOID_INVENTORY otherwise, with the row's payload and the requester's name; success closes the dialog; only the notice and the dialog flag change |
| Reports.HourlyMatchesSummary | src/app/reports/page.tsx:208-213 | the hourly buckets of the filtered sales add up to the total money |
| Debts.Remaining | src/app/debts/page.tsx:133 | remaining plus paid is the amount |
| Debts.TotalUnpaid | src/app/debts/page.tsx:67-69 | the unpaid total; no contract of its own, characterised by TotalUnpaidLaws and MarkPaid |
| Debts.Matches | src/app/debts/page.tsx:62-65 | the search test; no contract of its own, characterised by FilterDebts and SearchReach |
| Debts.PayValue | src/app/debts/page.tsx:44 | `Number(payAmount.replace(/\D/g, ''))`: the value of the digits typed; no contract of its own, it rests on StripNonDigits |
| Debts.TotalUnpaidLaws | src/app/debts/page.tsx:67-69 | the unpaid total is additive and never negative while no debt is overpaid |
| Debts.MarkPaid | src/app/debts/page.tsx:67-69 | marking one debt paid lowers the total by exactly what was outstanding on it |
| Debts.FilterDebts | src/app/debts/page.tsx:62-65 | exactly the debts whose customer name or notes contain the term, ignoring case |
| Debts.SearchReach | src/app/debts/page.tsx:62-65 | a debt with neither name nor notes is never found; an empty term finds every debt with one of them |
| Debts.DebtsScreen.constructor | src/app/debts/page.tsx:16-23 | no debts, no search, no dialog |
| Debts.DebtsScreen.SelectDebt | src/app/debts/page.tsx:160 | the debt is selected and the pay dialog opens; the list, search, input and notice are unchanged |
| Debts.DebtsScreen.HandlePay | src/app/debts/page.tsx:40-60 | nothing is paid without a selected debt, with an empty input or with a digit value of 0; otherwise that amount is paid on the debt, and success resets the dialog and reloads |
| ShiftEnd.ShiftSalesIsReportTotal | src/app/shift/end/page.tsx:35-37 | the shift's sales are the total money of the report since the shift began |
| ShiftEnd.ShiftSalesAfterSale | src/app/shift/end/page.tsx:35-37 | a sale since the start adds its nominal; an earlier one adds nothing |
| ShiftEnd.ShiftSales | src/app/shift/end/page.tsx:35-37 | the shift's sales; no contract of its own, characterised by ShiftSalesIsReportTotal and ShiftSalesAfterSale |
| ShiftEnd.ExpectedCash | src/app/shift/end/page.tsx:53 | initial cash plus the shift's sales; no contract of its own, used by HandleCloseShift and ReportAgreesWithClose |
| ShiftEnd.CountedCash | src/app/shift/end/page.tsx:52 | `Number(finalCash.replace(/\D/g, ''))`: the value of the digits typed; no contract of its own, it rests on StripNonDigits |
| ShiftEnd.Variance | src/app/shift/end/page.tsx:124 | negative exactly when cash is missing, zero exactly when it matches |
| ShiftEnd.IndicatorFor | src/app/shift/end/page.tsx:172-177 | no indicator for a zero input; otherwise short, over or exact as counted cash compares to expected |
| ShiftEnd.ShiftEndScreen.constructor | src/app/shift/end/page.tsx:49-53 | no shift loaded, zero sales, empty input |
| ShiftEnd.ShiftEndScreen.Load | src/app/shift/end/page.tsx:31-39 | the shift and its sales since the start |
| ShiftEnd.ShiftEndScreen.HandleCloseShift | src/app/shift/end/page.tsx:49-80 | without a shift nothing happens; otherwise the shift is closed with the counted and expected cash; success hands the report its figures and shows the variance; failure stops submitting |
| ShiftEnd.ReportAgreesWithClose | src/app/shift/end/page.tsx:59-71 | the owner's report shows the same variance, expected and counted cash as the success screen |
| AdminReports.FoldIsSums | src/app/admin/reports/page.tsx:22-29 | the reduce from any start adds each column's sum to it |
| AdminReports.AdminSummary | src/app/admin/reports/page.tsx:22-29 | the reduce from zero; no contract of its own, characterised by AdminSummaryIsSums and AdminSummaryAppend |
| AdminReports.AdminSummaryIsSums | src/app/admin/reports/page.tsx:22-29 | the totals are the sums of nominal, litres and profit, all 0 for no sales |
| AdminReports.AdminSummaryAppend | src/app/admin/reports/page.tsx:22-29 | the totals are additive over lists of sales |
| AdminReports.AgreesWithSalesReport | src/app/admin/reports/page.tsx:22-29 | over sales all since the cutoff, the admin totals equal the sales report's totals |
| AdminReports.SinceAll | src/app/reports/page.tsx:125 | a filter every record passes keeps them all |

## Left out

- UI and platform effects are not modelled:
  - rendering, routing and the login redirects;
  - loading flags, sounds, alerts, printing, Excel export and console logging;
  - the `typeof window` guards;
  - the sync queue's `init` timer and online listener, and the `navigator.onLine` check;
  - concurrency between overlapping queue passes or tabs.
- Remote calls are parameters, whatever their outcome. That covers Supabase queries, clocks and random ids.
- The mobile queue's key-value store I/O is a parameter too. A stored value can be absent or unreadable, and every save takes a success flag.
- The browser's `localStorage` is assumed to work. `Storage.Store`, `WebSync.SyncQueue` and `Employees.EmployeeService` hold it as fields whose reads and writes never fail. Two cases are therefore not modelled:
  - `JSON.parse` of an unreadable stored value throws (src/services/sync.ts:16, src/services/storage.ts:63 and 146).
  - A `setItem` that throws while a retry count is stored (src/services/sync.ts:131) lands in the catch at lines 139-144. That raises the in-memory count a second time and may remove the item.
- Several storage methods the screens and the employee service call are not defined by the `StorageService` object in src/services/storage.ts:34-210, which has only six methods. As written, each of these calls throws a TypeError. Nothing is assumed about what they would do to stored data.
- The state-changing ones are modelled as a sequence of `Services.Call`, issued with their arguments:
  - deleteTransaction, deleteInventoryLog, deleteExpense;
  - addRequest, updateRequestStatus;
  - addDebt, payDebt, closeShift, addCustomer.
- Each of those calls has a failure parameter that covers the throw: `debtOk`, `created == None`, `deleteOk`, `addOk`, `statusOk`, `payOk` and `closeOk`.
- `logAudit` is awaited as the last step of addEmployee, updateEmployee (sensitive changes only), deleteEmployee and generatePayroll (src/services/employee.ts:104, 138, 167, 361). The `audited` parameter of the matching `Employees.EmployeeService` method says whether it returned; when it did not, the method rejects after its writes.
- The reads among them are not calls in the model. Each read's answer is a parameter of the member that consumes it, and the model assumes the read returns:
  - getDebts (src/app/debts/page.tsx:36): the `reloaded` list of `Debts.DebtsScreen.HandlePay`.
  - getRequests (src/app/requests/page.tsx:32): the `read` of `Requests.RequestsScreen.Load` and the `reloaded` of `HandleAction`. Here `None` stands for the throw, which the screen catches.
  - getStoreSettings (src/services/whatsapp.ts:11 and 62): the settings fields passed to `WhatsApp.StoreName` and `WhatsApp.OwnerDelivery`.
  - getExpenses (src/app/expenses/page.tsx:47, src/app/reports/page.tsx:69): the `reloaded` list of `Expenses.ExpensesScreen.ConfirmDelete` and the expense list of `Reports.ReportsScreen.ProcessData`.
  - getCurrentShift (src/app/shift/end/page.tsx:25, src/app/reports/page.tsx:70): the `current` shift of `ShiftEnd.ShiftEndScreen.Load`, and the `cutoff` and `shiftMode` of `ProcessData`.
  - getCustomers (src/app/pos/page.tsx:30): the `loaded` list of `Pos.PosScreen.OpenDebtModal`.
- As written, a throwing read leaves the screen's list as it was (debts, expenses, customers). The reports `Promise.all` rejects, so `processData` never runs, and the shift-end load takes its catch path.
- Floating point is not modelled:
  - Litres and volumes are exact centilitres.
  - `toFixed(2)` is decimal rounding, halves away from zero. JavaScript's binary `toFixed` can round differently at exact halves, such as amounts ≡ 60 (mod 120).
  - `Number(...)` on very long digit strings loses precision in JavaScript; the model reads them exactly.
- Pos.LeadingDigits: `parseInt` is modelled without leading white space or a sign. The display never holds either.
- Common.Lower lowers ASCII letters only. Unicode case mapping is not modelled.
- Validation.UuidHasFourDashes: the UUID check is the 8-4-4-4-12 hexadecimal shape. The version and variant digits that zod also checks are not modelled. String lengths are counted in characters, not UTF-16 code units.
- Reports.ReportsScreen.ProcessData:
  - The cutoff of each range and the local-midnight arithmetic are a parameter.
  - The weekly trend and the profit trend are not modelled; both are keyed by locale date strings.
  - Hours and days come from an instant and a fixed time-zone offset.
- Reports.ReportsScreen.HandleActionClick: the toast text, and the reload after a direct deletion, are not modelled.
- Expenses: `handleAdd` is not modelled. It passes the form to an unseen storage method, and its only rule is the form reset that `ResetForm` models.
- WhatsApp: message layout, currency formatting, URL encoding, the Fonnte request and `window.open` are not modelled. What is modelled is the content of the message, the number normalisation and the choice between posting and opening a link.
- ShiftEnd.ShiftEndScreen.HandleCloseShift: a missing (`undefined`) initial cash counts as 0 on the screen (line 122) but makes the expected cash of the close call NaN (line 53); `null` counts as 0 in both. The model takes the initial cash as a number.
- Pos: the screen's `result` is recomputed from the display by an effect. The model always derives it from the display, so the `null` result before the first effect does not occur.
- WebSync.SyncQueue.AddToQueue requires a fresh id: it takes `crypto.randomUUID` to be unique. The immediate pass it triggers is a separate `ProcessQueue` call.
- WebSync.SyncQueue.ProcessQueue takes the backend's answers as one outcome function for the whole pass. What a later pass does is a separate call with its own function.
- MobileSync.MobileQueue.AddToQueue runs the pass it triggers to completion. The source does not await it.
- Employees.EmployeeService.GeneratePayroll reads the attendance list once for the whole loop. The source re-reads it for each employee, which gives the same list, since nothing writes in between.
- The validation schemas are predicates with lemmas. No service in this code calls them. The POS screen processes amounts from 1 to 99, which the transaction schema would reject.
