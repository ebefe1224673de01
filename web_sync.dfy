/** The browser's durable queue of remote writes that could not be made at
    the time: items are appended when a service falls back to local storage,
    and a processing pass replays them one at a time, in queue order,
    against the remote backend. A replay that succeeds removes its item; one
    that reports an error raises the stored retry count and drops the item
    at the fifth failure; one that throws raises only the count of the
    in-memory copy. */
module WebSync {
  import opened Common
  import opened Json

  /** The failure count at which an item is dropped. */
  const MaxRetries: nat := 5

  datatype Action =
    | InsertInventory | InsertTransaction | InsertExpense | UpdateSettings
    | DeleteStock | DeleteTransaction | DeleteExpense
    | InsertEmployee | UpdateEmployee | DeleteEmployee
    | InsertAttendance | UpdateAttendance

  /** One pending remote write, as stored. */
  datatype SyncItem = SyncItem(
    id: string,
    action: Action,
    payload: Json,
    timestamp: Instant,
    retryCount: nat)

  datatype Table = InventoryLogs | Transactions | Expenses | StoreSettings | Employees | Attendance

  /** The remote request a replay issues. `id` and `changes` are the payload's
      `id` and `updates` properties, `None` when the payload lacks them. */
  datatype RemoteCall =
    | Insert(table: Table, row: Json)
    | Upsert(table: Table, row: Json)
    | DeleteWhereId(table: Table, key: Option<Json>)
    | UpdateWhereId(table: Table, changes: Option<Json>, key: Option<Json>)

  /** The table each action writes to. */
  function TableOf(a: Action): Table {
    match a
    case InsertInventory | DeleteStock => InventoryLogs
    case InsertTransaction | DeleteTransaction => Transactions
    case InsertExpense | DeleteExpense => Expenses
    case UpdateSettings => StoreSettings
    case InsertEmployee | UpdateEmployee | DeleteEmployee => Employees
    case InsertAttendance | UpdateAttendance => Attendance
  }

  predicate IsDeleteAction(a: Action) {
    a == DeleteStock || a == DeleteTransaction || a == DeleteExpense || a == DeleteEmployee
  }

  predicate IsUpdateAction(a: Action) {
    a == UpdateEmployee || a == UpdateAttendance
  }

  /** The request replaying an item issues. */
  function Dispatch(item: SyncItem): (c: RemoteCall)
    ensures c.table == TableOf(item.action)
    ensures IsDeleteAction(item.action) <==> c.DeleteWhereId?
    ensures IsUpdateAction(item.action) <==> c.UpdateWhereId?
    ensures item.action == UpdateSettings <==> c.Upsert?
    ensures c.DeleteWhereId? || c.UpdateWhereId? ==> c.key == Get(item.payload, "id")
    ensures c.UpdateWhereId? ==> c.changes == Get(item.payload, "updates")
    ensures c.Insert? || c.Upsert? ==> c.row == item.payload
  {
    var t := TableOf(item.action);
    match item.action
    case InsertInventory | InsertTransaction | InsertExpense | InsertEmployee | InsertAttendance =>
      Insert(t, item.payload)
    case UpdateSettings =>
      Upsert(t, item.payload)
    case DeleteStock | DeleteTransaction | DeleteExpense | DeleteEmployee =>
      DeleteWhereId(t, Get(item.payload, "id"))
    case UpdateEmployee | UpdateAttendance =>
      UpdateWhereId(t, Get(item.payload, "updates"), Get(item.payload, "id"))
  }

  /** The requests a pass over `s` issues, in queue order. */
  function DispatchAll(s: seq<SyncItem>): (r: seq<RemoteCall>)
    ensures |r| == |s|
    ensures forall j :: 0 <= j < |s| ==> r[j] == Dispatch(s[j])
  {
    if |s| == 0 then [] else DispatchAll(s[..|s| - 1]) + [Dispatch(s[|s| - 1])]
  }

  lemma DispatchSnoc(s: seq<SyncItem>, k: int)
    requires 0 <= k < |s|
    ensures DispatchAll(s[..k + 1]) == DispatchAll(s[..k]) + [Dispatch(s[k])]
  {
    assert s[..k + 1][..k] == s[..k];
  }

  // ---------------------------------------------------------------------
  // The effect of one pass on the stored queue

  /** What the stored queue holds of an item after its replay: `None` when
      it was removed. */
  function Settle(item: SyncItem, o: Outcome): (r: Option<SyncItem>)
  {
    match o
    case Success => None
    case ErrorResult =>
      if item.retryCount + 1 >= MaxRetries then None else Some(item.(retryCount := item.retryCount + 1))
    case Throw =>
      if item.retryCount + 1 >= MaxRetries then None else Some(item)
  }

  function Kept(r: Option<SyncItem>): seq<SyncItem> {
    match r
    case None => []
    case Some(x) => [x]
  }

  /** The stored queue after one pass over `items`, replaying `x` having had
      outcome `outcome(x)`. */
  function Pass(items: seq<SyncItem>, outcome: SyncItem -> Outcome): (r: seq<SyncItem>)
    ensures |r| <= |items|
  {
    if |items| == 0 then []
    else
      var n := |items| - 1;
      Pass(items[..n], outcome) + Kept(Settle(items[n], outcome(items[n])))
  }

  function AlwaysSucceeds(x: SyncItem): Outcome { Success }
  function AlwaysErrs(x: SyncItem): Outcome { ErrorResult }
  function AlwaysThrows(x: SyncItem): Outcome { Throw }

  // ---------------------------------------------------------------------
  // Identifiers

  function Ids(s: seq<SyncItem>): set<string> {
    set i | 0 <= i < |s| :: s[i].id
  }

  predicate DistinctIds(s: seq<SyncItem>) {
    forall i, j :: 0 <= i < j < |s| ==> s[i].id != s[j].id
  }

  /** `queue.filter(item => item.id !== id)`. */
  function WithoutId(s: seq<SyncItem>, id: string): (r: seq<SyncItem>)
    ensures |r| <= |s|
  {
    if |s| == 0 then []
    else (if s[0].id == id then [] else [s[0]]) + WithoutId(s[1..], id)
  }

  /** `queue.findIndex(q => q.id === id)`. */
  function IndexOfId(s: seq<SyncItem>, id: string): (k: int)
    ensures -1 <= k < |s|
    ensures k == -1 <==> id !in Ids(s)
    ensures k >= 0 ==> s[k].id == id && forall j :: 0 <= j < k ==> s[j].id != id
  {
    if |s| == 0 then -1
    else if s[0].id == id then 0
    else
      var k := IndexOfId(s[1..], id);
      assert Ids(s) == {s[0].id} + Ids(s[1..]) by {
        forall x | x in Ids(s) ensures x in {s[0].id} + Ids(s[1..]) {
          var i :| 0 <= i < |s| && s[i].id == x;
          if i > 0 { assert s[1..][i - 1].id == x; }
        }
      }
      if k == -1 then -1 else k + 1
  }

  lemma IdsAppend(a: seq<SyncItem>, b: seq<SyncItem>)
    ensures Ids(a + b) == Ids(a) + Ids(b)
  {
    forall x | x in Ids(a + b) ensures x in Ids(a) + Ids(b) {
      var i :| 0 <= i < |a + b| && (a + b)[i].id == x;
      if i >= |a| { assert b[i - |a|].id == x; }
    }
    forall x | x in Ids(a) + Ids(b) ensures x in Ids(a + b) {
      if x in Ids(a) {
        var i :| 0 <= i < |a| && a[i].id == x;
        assert (a + b)[i].id == x;
      } else {
        var i :| 0 <= i < |b| && b[i].id == x;
        assert (a + b)[|a| + i].id == x;
      }
    }
  }

  lemma {:induction false} WithoutIdAppend(a: seq<SyncItem>, b: seq<SyncItem>, id: string)
    ensures WithoutId(a + b, id) == WithoutId(a, id) + WithoutId(b, id)
  {
    if |a| == 0 {
      assert a + b == b;
    } else {
      assert (a + b)[1..] == a[1..] + b;
      WithoutIdAppend(a[1..], b, id);
    }
  }

  lemma {:induction false} WithoutIdAbsent(a: seq<SyncItem>, id: string)
    requires id !in Ids(a)
    ensures WithoutId(a, id) == a
  {
    if |a| > 0 {
      AbsentFromTail(a, id);
      WithoutIdAbsent(a[1..], id);
    }
  }

  lemma AbsentFromTail(a: seq<SyncItem>, id: string)
    requires |a| > 0 && id !in Ids(a)
    ensures a[0].id != id && id !in Ids(a[1..])
  {
    assert a[0].id in Ids(a);
    var tail := a[1..];
    forall i | 0 <= i < |tail| ensures tail[i].id != id {
      assert tail[i] == a[i + 1];
      assert a[i + 1].id in Ids(a);
    }
  }

  lemma WithoutIdSingle(x: SyncItem)
    ensures WithoutId([x], x.id) == []
  {
    assert [x][1..] == [];
  }

  lemma {:induction false} PassIds(s: seq<SyncItem>, o: SyncItem -> Outcome)
    ensures Ids(Pass(s, o)) <= Ids(s)
  {
    if |s| > 0 {
      var n := |s| - 1;
      PassIds(s[..n], o);
      IdsAppend(Pass(s[..n], o), Kept(Settle(s[n], o(s[n]))));
      IdsAppend(s[..n], [s[n]]);
      assert s[..n] + [s[n]] == s;
    }
  }

  lemma {:induction false} PassDistinct(s: seq<SyncItem>, o: SyncItem -> Outcome)
    requires DistinctIds(s)
    ensures DistinctIds(Pass(s, o))
  {
    if |s| > 0 {
      var n := |s| - 1;
      var p: seq<SyncItem> := Pass(s[..n], o);
      var t: seq<SyncItem> := Kept(Settle(s[n], o(s[n])));
      PassDistinct(s[..n], o);
      PassIds(s[..n], o);
      IdIsolated(s, n);
      forall i, j | 0 <= i < j < |p + t| ensures (p + t)[i].id != (p + t)[j].id {
        if j >= |p| {
          assert (p + t)[j].id == s[n].id;
          assert (p + t)[i].id in Ids(p);
        }
      }
    }
  }

  /** In a queue without repeated ids, the k-th item's id occurs nowhere else. */
  lemma IdIsolated(s: seq<SyncItem>, k: int)
    requires DistinctIds(s) && 0 <= k < |s|
    ensures s[k].id !in Ids(s[..k]) && s[k].id !in Ids(s[k + 1..])
  {
    forall i | 0 <= i < k ensures s[..k][i].id != s[k].id {
      assert s[..k][i] == s[i];
    }
    var after := s[k + 1..];
    forall i | 0 <= i < |after| ensures after[i].id != s[k].id {
      assert after[i] == s[k + 1 + i];
    }
  }

  // ---------------------------------------------------------------------
  // The stored queue

  class SyncQueue {
    /** The queue as held under the local-storage key. */
    var items: seq<SyncItem>

    ghost predicate Valid()
      reads this
    {
      DistinctIds(items)
    }

    constructor ()
      ensures items == [] && Valid()
    {
      items := [];
    }

    /** `addToQueue`: `id` is the freshly generated identifier and `now` the
        enqueue time. */
    method AddToQueue(id: string, action: Action, payload: Json, now: Instant)
      requires id !in Ids(items)
      modifies this
      ensures items == old(items) + [SyncItem(id, action, payload, now, 0)]
      ensures old(Valid()) ==> Valid()
    {
      var item := SyncItem(id, action, payload, now, 0);
      items := items + [item];
      assert forall i :: 0 <= i < |old(items)| ==> old(items)[i].id in Ids(old(items));
    }

    /** `removeFromQueue`. */
    method RemoveFromQueue(id: string)
      modifies this
      ensures items == WithoutId(old(items), id)
    {
      items := WithoutId(items, id);
    }

    /** The error branch below the ceiling: re-read the stored queue and set
        the retry count of the first item with this id. */
    method StoreRetryCount(id: string, count: nat)
      modifies this
      ensures var k := IndexOfId(old(items), id);
        items == if k == -1 then old(items) else old(items)[k := old(items)[k].(retryCount := count)]
    {
      var k := IndexOfId(items, id);
      if k != -1 {
        items := items[k := items[k].(retryCount := count)];
      }
    }

    /** The stored-queue side of replaying `item` with outcome `o`, the
        queue being `done`, then the item, then `rest`. */
    method Replay(item: SyncItem, o: Outcome, ghost done: seq<SyncItem>, ghost rest: seq<SyncItem>)
      requires items == done + ([item] + rest)
      requires WithoutId(items, item.id) == done + rest
      requires IndexOfId(items, item.id) == |done|
      modifies this
      ensures items == done + Kept(Settle(item, o)) + rest
    {
      match o {
        case Success =>
          RemoveFromQueue(item.id);
        case ErrorResult =>
          var count := item.retryCount + 1;
          if count >= MaxRetries {
            RemoveFromQueue(item.id);
          } else {
            StoreRetryCount(item.id, count);
            UpdateBetween(done, item, rest, item.(retryCount := count));
          }
        case Throw =>
          // only the in-memory copy of the item counts this failure
          var count := item.retryCount + 1;
          if count >= MaxRetries {
            RemoveFromQueue(item.id);
          }
      }
    }

    /** Replays the k-th item of the snapshot `queue` of a pass. */
    method Advance(item: SyncItem, outcome: SyncItem -> Outcome, ghost queue: seq<SyncItem>, ghost k: int)
      requires DistinctIds(queue) && 0 <= k < |queue| && item == queue[k]
      requires items == Pass(queue[..k], outcome) + queue[k..]
      modifies this
      ensures items == Pass(queue[..k + 1], outcome) + queue[k + 1..]
    {
      ghost var done := Pass(queue[..k], outcome);
      ghost var rest := queue[k + 1..];
      PassStep(queue, outcome, k, done, rest);
      Replay(item, outcome(item), done, rest);
    }

    /** `processQueue`: one pass over a snapshot of the stored queue, made
        only when the queue is non-empty and a backend client exists.
        `outcome(x)` is what the backend did with the replay of `x`; `calls`
        are the requests issued, in order. */
    method ProcessQueue(client: Client, outcome: SyncItem -> Outcome) returns (calls: seq<RemoteCall>)
      requires Valid()
      modifies this
      ensures Valid()
      ensures old(items) == [] || client == Unconfigured ==> items == old(items) && calls == []
      ensures old(items) != [] && client == Configured ==>
        items == Pass(old(items), outcome) && calls == DispatchAll(old(items))
    {
      if items == [] || client == Unconfigured {
        return [];
      }
      PassDistinct(items, outcome);
      calls := ReplayAll(outcome);
    }

    /** The loop of `processQueue`: replays every item of the snapshot. */
    method ReplayAll(outcome: SyncItem -> Outcome) returns (calls: seq<RemoteCall>)
      requires Valid()
      modifies this
      ensures items == Pass(old(items), outcome) && calls == DispatchAll(old(items))
    {
      var queue := items;
      calls := [];
      var k := 0;
      while k < |queue|
        invariant 0 <= k <= |queue|
        invariant items == Pass(queue[..k], outcome) + queue[k..]
        invariant calls == DispatchAll(queue[..k])
      {
        var item := queue[k];
        calls := calls + [Dispatch(item)];
        DispatchSnoc(queue, k);
        Advance(item, outcome, queue, k);
        k := k + 1;
      }
      assert queue[..k] == queue;
    }
  }

  /** One replay of a pass, on the stored queue: with `done` the part
      already processed and `rest` the part still to come, removing or
      re-counting the current item by id touches that item only. */
  lemma PassStep(queue: seq<SyncItem>, o: SyncItem -> Outcome, k: int, done: seq<SyncItem>, rest: seq<SyncItem>)
    requires DistinctIds(queue) && 0 <= k < |queue|
    requires done == Pass(queue[..k], o) && rest == queue[k + 1..]
    ensures Pass(queue[..k + 1], o) == done + Kept(Settle(queue[k], o(queue[k])))
    ensures queue[k..] == [queue[k]] + rest
    ensures WithoutId(done + ([queue[k]] + rest), queue[k].id) == done + rest
    ensures IndexOfId(done + ([queue[k]] + rest), queue[k].id) == |done|
  {
    PassSnoc(queue, o, k);
    SuffixAt(queue, k);
    IsolatedAround(queue, o, k, done, rest);
  }

  lemma IsolatedAround(queue: seq<SyncItem>, o: SyncItem -> Outcome, k: int, done: seq<SyncItem>, rest: seq<SyncItem>)
    requires DistinctIds(queue) && 0 <= k < |queue|
    requires done == Pass(queue[..k], o) && rest == queue[k + 1..]
    ensures WithoutId(done + ([queue[k]] + rest), queue[k].id) == done + rest
    ensures IndexOfId(done + ([queue[k]] + rest), queue[k].id) == |done|
  {
    IdIsolated(queue, k);
    PassIds(queue[..k], o);
    RemovedHere(done, queue[k], rest);
    FoundHere(done, queue[k], rest);
  }

  lemma PassSnoc(queue: seq<SyncItem>, o: SyncItem -> Outcome, k: int)
    requires 0 <= k < |queue|
    ensures Pass(queue[..k + 1], o) == Pass(queue[..k], o) + Kept(Settle(queue[k], o(queue[k])))
  {
    assert queue[..k + 1][..k] == queue[..k];
  }

  lemma SuffixAt(queue: seq<SyncItem>, k: int)
    requires 0 <= k < |queue|
    ensures queue[k..] == [queue[k]] + queue[k + 1..]
  {
  }

  lemma UpdateBetween(done: seq<SyncItem>, x: SyncItem, rest: seq<SyncItem>, y: SyncItem)
    ensures (done + ([x] + rest))[|done| := y] == done + [y] + rest
  {
  }

  lemma RemovedHere(done: seq<SyncItem>, x: SyncItem, rest: seq<SyncItem>)
    requires x.id !in Ids(done) && x.id !in Ids(rest)
    ensures WithoutId(done + ([x] + rest), x.id) == done + rest
  {
    WithoutIdAppend([x], rest, x.id);
    WithoutIdSingle(x);
    WithoutIdAbsent(rest, x.id);
    assert WithoutId([x] + rest, x.id) == rest;
    WithoutIdAppend(done, [x] + rest, x.id);
    WithoutIdAbsent(done, x.id);
  }

  lemma FoundHere(done: seq<SyncItem>, x: SyncItem, rest: seq<SyncItem>)
    requires x.id !in Ids(done)
    ensures IndexOfId(done + ([x] + rest), x.id) == |done|
  {
    var s := done + ([x] + rest);
    assert s[|done|].id == x.id;
    forall j | 0 <= j < |done| ensures s[j].id != x.id {
      assert s[j] == done[j];
      assert done[j].id in Ids(done);
    }
  }

  // ---------------------------------------------------------------------
  // Properties of passes

  /** A pass treats the two halves of a queue independently, so everything
      kept from the first half stays in front of everything kept from the
      second: relative order is preserved. */
  lemma {:induction false} PassConcat(a: seq<SyncItem>, b: seq<SyncItem>, o: SyncItem -> Outcome)
    ensures Pass(a + b, o) == Pass(a, o) + Pass(b, o)
  {
    if |b| > 0 {
      var init := b[..|b| - 1];
      var x := b[|b| - 1];
      assert b == init + [x];
      assert a + b == (a + init) + [x];
      PassAppendOne(a + init, x, o);
      PassAppendOne(init, x, o);
      PassConcat(a, init, o);
    } else {
      assert a + b == a;
    }
  }

  lemma PassAppendOne(s: seq<SyncItem>, x: SyncItem, o: SyncItem -> Outcome)
    ensures Pass(s + [x], o) == Pass(s, o) + Kept(Settle(x, o(x)))
  {
    assert (s + [x])[..|s|] == s;
  }

  /** Item by item: a replay that succeeds, or fails for the last allowed
      time, takes the item out of the stored queue; otherwise the queue holds
      the item with its new count. */
  lemma PassFate(s: seq<SyncItem>, o: SyncItem -> Outcome, j: int)
    requires DistinctIds(s) && 0 <= j < |s|
    ensures Settle(s[j], o(s[j])) == None ==> s[j].id !in Ids(Pass(s, o))
    ensures Settle(s[j], o(s[j])).Some? ==> Settle(s[j], o(s[j])).value in Pass(s, o)
  {
    var p1 := Pass(s[..j], o);
    var kept := Kept(Settle(s[j], o(s[j])));
    var p2 := Pass(s[j + 1..], o);
    PassAround(s, o, j);
    IdIsolated(s, j);
    PassIds(s[..j], o);
    PassIds(s[j + 1..], o);
    IdsAppend(p1, kept);
    IdsAppend(p1 + kept, p2);
    if kept != [] {
      assert (p1 + kept + p2)[|p1|] == kept[0];
    }
  }

  /** A pass splits around any one item of the queue. */
  lemma PassAround(s: seq<SyncItem>, o: SyncItem -> Outcome, j: int)
    requires 0 <= j < |s|
    ensures Pass(s, o) == Pass(s[..j], o) + Kept(Settle(s[j], o(s[j]))) + Pass(s[j + 1..], o)
  {
    assert s == s[..j + 1] + s[j + 1..];
    PassConcat(s[..j + 1], s[j + 1..], o);
    PassSnoc(s, o, j);
  }

  /** `n` passes in each of which the backend treats every replay by `o`. */
  function Passes(q: seq<SyncItem>, n: nat, o: SyncItem -> Outcome): seq<SyncItem>
    decreases n
  {
    if n == 0 then q else Passes(Pass(q, o), n - 1, o)
  }

  /** q's items, each with retry count c. */
  function WithCount(q: seq<SyncItem>, c: nat): (r: seq<SyncItem>)
    ensures |r| == |q|
  {
    if |q| == 0 then [] else WithCount(q[..|q| - 1], c) + [q[|q| - 1].(retryCount := c)]
  }

  lemma {:induction false} WithCountAt(q: seq<SyncItem>, c: nat, i: int)
    requires 0 <= i < |q|
    ensures WithCount(q, c)[i] == q[i].(retryCount := c)
  {
    if i < |q| - 1 {
      WithCountAt(q[..|q| - 1], c, i);
    }
  }

  /** A pass in which every replay reports an error raises every count by
      one, or empties the queue when that reaches the ceiling. */
  lemma {:induction false} PassAllErrors(q: seq<SyncItem>, c: nat)
    ensures Pass(WithCount(q, c), AlwaysErrs) ==
      if c + 1 >= MaxRetries then [] else WithCount(q, c + 1)
  {
    if |q| > 0 {
      var n := |q| - 1;
      assert WithCount(q, c)[..n] == WithCount(q[..n], c);
      PassAllErrors(q[..n], c);
    }
  }

  /** The first of n error passes, started at count c. */
  lemma ErrorPassFrom(q: seq<SyncItem>, c: nat, n: nat)
    requires n > 0
    ensures c + 1 < MaxRetries ==>
      Passes(WithCount(q, c), n, AlwaysErrs) == Passes(WithCount(q, c + 1), n - 1, AlwaysErrs)
    ensures c + 1 >= MaxRetries ==> Passes(WithCount(q, c), n, AlwaysErrs) == Passes([], n - 1, AlwaysErrs)
  {
    PassAllErrors(q, c);
  }

  lemma {:induction false} PassesOfEmpty(n: nat, o: SyncItem -> Outcome)
    ensures Passes([], n, o) == []
  {
    if n > 0 {
      PassesOfEmpty(n - 1, o);
    }
  }

  lemma {:induction false} PassesErrorsBelow(q: seq<SyncItem>, c: nat, n: nat)
    requires c + n < MaxRetries
    ensures Passes(WithCount(q, c), n, AlwaysErrs) == WithCount(q, c + n)
    decreases n
  {
    if n > 0 {
      ErrorPassFrom(q, c, n);
      PassesErrorsBelow(q, c + 1, n - 1);
    }
  }

  lemma {:induction false} PassesErrorsReach(q: seq<SyncItem>, c: nat, n: nat)
    requires c + n == MaxRetries && n > 0
    ensures Passes(WithCount(q, c), n, AlwaysErrs) == []
    decreases n
  {
    ErrorPassFrom(q, c, n);
    if c + 1 < MaxRetries {
      PassesErrorsReach(q, c + 1, n - 1);
    } else {
      PassesOfEmpty(n - 1, AlwaysErrs);
    }
  }

  /** Retry ceiling: items that every pass fails with an error result are
      still queued, with count n, after n < 5 passes, and all gone after
      exactly 5. */
  lemma AlwaysErroringDroppedAfterFive(q: seq<SyncItem>, n: nat)
    requires n <= MaxRetries
    ensures n < MaxRetries ==> Passes(WithCount(q, 0), n, AlwaysErrs) == WithCount(q, n)
    ensures n == MaxRetries ==> Passes(WithCount(q, 0), n, AlwaysErrs) == []
  {
    if n < MaxRetries {
      PassesErrorsBelow(q, 0, n);
    } else {
      PassesErrorsReach(q, 0, n);
    }
  }

  /** A replay that throws leaves the stored count as it was, so while every
      count is below 4 a pass of thrown replays changes nothing, and an item
      whose replay always throws is never dropped. */
  lemma {:induction false} ThrowingPassKeepsQueue(q: seq<SyncItem>)
    requires forall i :: 0 <= i < |q| ==> q[i].retryCount + 1 < MaxRetries
    ensures Pass(q, AlwaysThrows) == q
  {
    if |q| > 0 {
      var n := |q| - 1;
      ThrowingPassKeepsQueue(q[..n]);
      assert q[..n] + [q[n]] == q;
    }
  }

  lemma {:induction false} AlwaysThrowingNeverDropped(q: seq<SyncItem>, n: nat)
    requires forall i :: 0 <= i < |q| ==> q[i].retryCount + 1 < MaxRetries
    ensures Passes(q, n, AlwaysThrows) == q
  {
    if n > 0 {
      ThrowingPassKeepsQueue(q);
      AlwaysThrowingNeverDropped(q, n - 1);
    }
  }

  /** A pass in which every replay succeeds empties the queue. */
  lemma {:induction false} SucceedingPassEmpties(q: seq<SyncItem>)
    ensures Pass(q, AlwaysSucceeds) == []
  {
    if |q| > 0 {
      SucceedingPassEmpties(q[..|q| - 1]);
    }
  }

  /** FIFO with retry: freshly queued items whose replays fail k < 5 times
      keep their place, action and payload, so every later pass issues the
      same requests as the first, and a pass that then succeeds empties the
      queue. */
  lemma EventualDelivery(q: seq<SyncItem>, k: nat)
    requires k < MaxRetries
    ensures var after := Passes(WithCount(q, 0), k, AlwaysErrs);
      && DispatchAll(after) == DispatchAll(q)
      && Pass(after, AlwaysSucceeds) == []
  {
    AlwaysErroringDroppedAfterFive(q, k);
    var after := Passes(WithCount(q, 0), k, AlwaysErrs);
    SucceedingPassEmpties(after);
    forall i | 0 <= i < |q| ensures after[i].action == q[i].action && after[i].payload == q[i].payload {
      WithCountAt(q, k, i);
    }
    DispatchAllSame(after, q);
  }

  lemma DispatchAllSame(a: seq<SyncItem>, b: seq<SyncItem>)
    requires |a| == |b|
    requires forall i :: 0 <= i < |a| ==> a[i].action == b[i].action && a[i].payload == b[i].payload
    ensures DispatchAll(a) == DispatchAll(b)
  {
  }
}
