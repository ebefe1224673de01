/** The mobile app's queue of attendance inserts that could not reach the
    backend. The queue lives in the device's key-value store as one value;
    a pass loads it, walks a copy with an index that steps back after each
    removal, and writes the copy back when it changed anything. Unlike the
    browser queue, a replay that throws keeps its raised count here and is
    never dropped. */
module MobileSync {
  import opened Common
  import opened Json

  /** The failure count at which an item is dropped. */
  const MaxRetries: nat := 5

  /** The action tag of a stored item. The declared type admits only
      inserting an attendance row; any other tag read back from storage
      issues no request and counts as a success. */
  datatype Action = InsertAttendance | OtherAction(tag: string)

  datatype SyncItem = SyncItem(
    id: string,
    action: Action,
    payload: Json,
    timestamp: Instant,
    retryCount: nat)

  /** What the store holds under the queue key. */
  datatype Slot = Absent | Saved(queue: seq<SyncItem>) | Unreadable

  /** `getQueue`: a missing or unparseable value reads as the empty queue. */
  function QueueOf(slot: Slot): (q: seq<SyncItem>)
    ensures slot.Saved? ==> q == slot.queue
    ensures !slot.Saved? ==> q == []
  {
    match slot
    case Saved(q) => q
    case _ => []
  }

  /** The attendance row a replay inserts, or `None` when it sends nothing. */
  function Request(item: SyncItem): (r: Option<Json>)
    ensures r.Some? <==> item.action == InsertAttendance
    ensures r.Some? ==> r.value == item.payload
  {
    if item.action == InsertAttendance then Some(item.payload) else None
  }

  /** The requests of a pass, one entry per visited item, in queue order. */
  function Requests(s: seq<SyncItem>): (r: seq<Option<Json>>)
    ensures |r| == |s|
    ensures forall j :: 0 <= j < |s| ==> r[j] == Request(s[j])
  {
    if |s| == 0 then [] else Requests(s[..|s| - 1]) + [Request(s[|s| - 1])]
  }

  /** How a replay ended: items that send nothing cannot fail. */
  function Effective(item: SyncItem, outcome: SyncItem -> Outcome): Outcome {
    if item.action == InsertAttendance then outcome(item) else Success
  }

  /** What the copy holds of an item after its replay. */
  function Settle(item: SyncItem, o: Outcome): (r: Option<SyncItem>)
  {
    var bumped := item.(retryCount := item.retryCount + 1);
    match o
    case Success => None
    case ErrorResult => if bumped.retryCount >= MaxRetries then None else Some(bumped)
    case Throw => Some(bumped)
  }

  function Kept(r: Option<SyncItem>): seq<SyncItem> {
    match r
    case None => []
    case Some(x) => [x]
  }

  /** The queue after a pass over `items`, the backend answering the
      replay of `x` with `outcome(x)`. */
  function Pass(items: seq<SyncItem>, outcome: SyncItem -> Outcome): (r: seq<SyncItem>)
    ensures |r| <= |items|
  {
    if |items| == 0 then []
    else
      var n := |items| - 1;
      Pass(items[..n], outcome) + Kept(Settle(items[n], Effective(items[n], outcome)))
  }

  lemma PassSnoc(s: seq<SyncItem>, o: SyncItem -> Outcome, k: int)
    requires 0 <= k < |s|
    ensures Pass(s[..k + 1], o) == Pass(s[..k], o) + Kept(Settle(s[k], Effective(s[k], o)))
  {
    assert s[..k + 1][..k] == s[..k];
  }

  lemma RequestsSnoc(s: seq<SyncItem>, k: int)
    requires 0 <= k < |s|
    ensures Requests(s[..k + 1]) == Requests(s[..k]) + [Request(s[k])]
  {
    assert s[..k + 1][..k] == s[..k];
  }

  // ---------------------------------------------------------------------
  // The pass loop

  /** The loop of `processQueue` over a copy of the loaded queue: `i` walks
      the copy and steps back after each `splice`. Returns the copy as left
      by the loop, whether anything changed, and the requests issued. */
  method RunPass(queue: seq<SyncItem>, outcome: SyncItem -> Outcome)
    returns (newQueue: seq<SyncItem>, hasChanges: bool, requests: seq<Option<Json>>)
    ensures newQueue == Pass(queue, outcome)
    ensures hasChanges <==> queue != []
    ensures requests == Requests(queue)
  {
    newQueue := queue;
    hasChanges := false;
    requests := [];
    var i := 0;
    ghost var k := 0;
    assert queue[..0] == [];
    while i < |newQueue|
      invariant 0 <= k <= |queue|
      invariant newQueue == Pass(queue[..k], outcome) + queue[k..]
      invariant i == |Pass(queue[..k], outcome)|
      invariant hasChanges <==> k > 0
      invariant requests == Requests(queue[..k])
      decreases |newQueue| - i
    {
      var item := newQueue[i];
      requests := requests + [Request(item)];
      RequestsSnoc(queue, k);
      newQueue, i := Visit(queue, outcome, k, newQueue, i);
      hasChanges := true;
      k := k + 1;
    }
    assert |queue[k..]| == 0;
    assert queue[..k] == queue;
  }

  /** One iteration of the loop: the item at index `i` of the copy is the
      k-th original item; it is updated in place and, when it leaves the
      queue, spliced out with the index stepped back, after which the index
      moves on. */
  method Visit(ghost queue: seq<SyncItem>, outcome: SyncItem -> Outcome, ghost k: int,
               copy: seq<SyncItem>, i: int)
    returns (next: seq<SyncItem>, j: int)
    requires 0 <= k <= |queue| && copy == Pass(queue[..k], outcome) + queue[k..]
    requires i == |Pass(queue[..k], outcome)| && i < |copy|
    ensures k < |queue| && copy[i] == queue[k]
    ensures next == Pass(queue[..k + 1], outcome) + queue[k + 1..]
    ensures j == |Pass(queue[..k + 1], outcome)|
  {
    ghost var done := Pass(queue[..k], outcome);
    ghost var rest := queue[k + 1..];
    assert queue[k..] == [queue[k]] + rest;
    PassSnoc(queue, outcome, k);
    var item := copy[i];
    var bumped := item.(retryCount := item.retryCount + 1);
    var o := Effective(item, outcome);
    next := copy;
    j := i;
    if o == Throw {
      next := next[j := bumped];
    } else if o == ErrorResult {
      next := next[j := bumped];
      if bumped.retryCount >= MaxRetries {
        next := next[..j] + next[j + 1..];
        j := j - 1;
      }
    } else {
      next := next[..j] + next[j + 1..];
      j := j - 1;
    }
    j := j + 1;
    SettleShape(done, item, rest, o, next);
  }

  /** What updating and splicing at the index leave, per outcome. */
  lemma SettleShape(done: seq<SyncItem>, item: SyncItem, rest: seq<SyncItem>, o: Outcome, next: seq<SyncItem>)
    requires var copy := done + ([item] + rest);
      var bumped := item.(retryCount := item.retryCount + 1);
      var i := |done|;
      next == (if o == Throw then copy[i := bumped]
               else if o == ErrorResult && bumped.retryCount < MaxRetries then copy[i := bumped]
               else if o == ErrorResult then copy[i := bumped][..i] + copy[i := bumped][i + 1..]
               else copy[..i] + copy[i + 1..])
    ensures next == done + Kept(Settle(item, o)) + rest
  {
    var copy := done + ([item] + rest);
    var bumped := item.(retryCount := item.retryCount + 1);
    var i := |done|;
    assert copy[i := bumped] == done + [bumped] + rest;
    assert copy[i := bumped][..i] == done && copy[i := bumped][i + 1..] == rest;
    assert copy[..i] == done && copy[i + 1..] == rest;
  }

  // ---------------------------------------------------------------------
  // The stored queue

  class MobileQueue {
    /** The value under the queue key. */
    var slot: Slot

    constructor ()
      ensures slot == Absent
    {
      slot := Absent;
    }

    /** `saveQueue`: `ok` says whether the store accepted the write; a
        failed write is logged and swallowed. */
    method SaveQueue(queue: seq<SyncItem>, ok: bool)
      modifies this
      ensures slot == if ok then Saved(queue) else old(slot)
    {
      if ok {
        slot := Saved(queue);
      }
    }

    /** `processQueue`: `saveOk` says whether the final write succeeds.
        `attempted` is whether it was made. */
    method ProcessQueue(outcome: SyncItem -> Outcome, saveOk: bool)
      returns (attempted: bool, requests: seq<Option<Json>>)
      modifies this
      ensures var q := QueueOf(old(slot));
        && attempted == (q != [])
        && requests == Requests(q)
        && slot == if q != [] && saveOk then Saved(Pass(q, outcome)) else old(slot)
    {
      var queue := QueueOf(slot);
      if |queue| == 0 {
        return false, [];
      }
      var newQueue, hasChanges;
      newQueue, hasChanges, requests := RunPass(queue, outcome);
      attempted := hasChanges;
      if hasChanges {
        SaveQueue(newQueue, saveOk);
      }
    }

    /** `addToQueue`: appends an item with count 0 under the fresh `id`,
        saves (`firstSaveOk`), then runs a pass (`outcome`, `passSaveOk`). */
    method AddToQueue(id: string, action: Action, payload: Json, now: Instant,
                      firstSaveOk: bool, outcome: SyncItem -> Outcome, passSaveOk: bool)
      returns (requests: seq<Option<Json>>)
      modifies this
      ensures var added := QueueOf(old(slot)) + [SyncItem(id, action, payload, now, 0)];
        var afterSave := if firstSaveOk then Saved(added) else old(slot);
        var q := QueueOf(afterSave);
        && requests == Requests(q)
        && slot == if q != [] && passSaveOk then Saved(Pass(q, outcome)) else afterSave
    {
      var queue := QueueOf(slot);
      queue := queue + [SyncItem(id, action, payload, now, 0)];
      SaveQueue(queue, firstSaveOk);
      var attempted;
      attempted, requests := ProcessQueue(outcome, passSaveOk);
    }
  }

  // ---------------------------------------------------------------------
  // Properties of passes

  /** The two halves of a queue are processed independently: relative
      order is preserved. */
  lemma {:induction false} PassConcat(a: seq<SyncItem>, b: seq<SyncItem>, o: SyncItem -> Outcome)
    ensures Pass(a + b, o) == Pass(a, o) + Pass(b, o)
  {
    if |b| > 0 {
      var init := b[..|b| - 1];
      var x := b[|b| - 1];
      assert b == init + [x];
      assert a + b == (a + init) + [x];
      PassAppendOne(a + init, x, o);
      PassAppendOne(init, x, o);
      PassConcat(a, init, o);
    } else {
      assert a + b == a;
    }
  }

  lemma PassAppendOne(s: seq<SyncItem>, x: SyncItem, o: SyncItem -> Outcome)
    ensures Pass(s + [x], o) == Pass(s, o) + Kept(Settle(x, Effective(x, o)))
  {
    assert (s + [x])[..|s|] == s;
  }

  /** Item by item: the pass result is what came before the j-th item,
      then what became of it, then what came after. */
  lemma PassAround(s: seq<SyncItem>, o: SyncItem -> Outcome, j: int)
    requires 0 <= j < |s|
    ensures Pass(s, o) == Pass(s[..j], o) + Kept(Settle(s[j], Effective(s[j], o))) + Pass(s[j + 1..], o)
  {
    assert s == s[..j + 1] + s[j + 1..];
    PassConcat(s[..j + 1], s[j + 1..], o);
    PassSnoc(s, o, j);
  }

  /** The fate of one item in a pass: removed on success, kept with count
      one higher on a throw whatever the count, kept with count one higher
      on an error result only below the ceiling. */
  lemma SettleCases(item: SyncItem, o: Outcome)
    ensures o == Success ==> Settle(item, o) == None
    ensures o == Throw ==> Settle(item, o) == Some(item.(retryCount := item.retryCount + 1))
    ensures o == ErrorResult ==>
      (Settle(item, o) == None <==> item.retryCount + 1 >= MaxRetries)
    ensures Settle(item, o).Some? ==> Settle(item, o).value == item.(retryCount := item.retryCount + 1)
  {
  }

  /** Every item of q is an attendance insert. */
  predicate AllInserts(q: seq<SyncItem>) {
    |q| == 0 || (AllInserts(q[..|q| - 1]) && q[|q| - 1].action == InsertAttendance)
  }

  function AlwaysErrs(x: SyncItem): Outcome { ErrorResult }
  function AlwaysThrows(x: SyncItem): Outcome { Throw }

  /** q's items, each with retry count c. */
  function WithCount(q: seq<SyncItem>, c: nat): (r: seq<SyncItem>)
    ensures |r| == |q|
  {
    if |q| == 0 then [] else WithCount(q[..|q| - 1], c) + [q[|q| - 1].(retryCount := c)]
  }

  /** q's items, each counted once more. */
  function Bumped(q: seq<SyncItem>): (r: seq<SyncItem>)
    ensures |r| == |q|
  {
    if |q| == 0 then [] else Bumped(q[..|q| - 1]) + [q[|q| - 1].(retryCount := q[|q| - 1].retryCount + 1)]
  }

  lemma {:induction false} BumpedAt(q: seq<SyncItem>, i: int)
    requires 0 <= i < |q|
    ensures Bumped(q)[i] == q[i].(retryCount := q[i].retryCount + 1)
  {
    if i < |q| - 1 {
      BumpedAt(q[..|q| - 1], i);
    }
  }

  /** A pass in which every insert throws keeps every item, in order, each
      with its count one higher, however high the count already is. */
  lemma {:induction false} ThrowingPassKeepsAll(q: seq<SyncItem>)
    requires AllInserts(q)
    ensures Pass(q, AlwaysThrows) == Bumped(q)
  {
    if |q| > 0 {
      ThrowingPassKeepsAll(q[..|q| - 1]);
    }
  }

  /** A pass in which every insert errs raises every count by one, or
      empties the queue once that reaches the ceiling. */
  lemma {:induction false} ErringPass(q: seq<SyncItem>, c: nat)
    requires AllInserts(q)
    ensures Pass(WithCount(q, c), AlwaysErrs) == if c + 1 >= MaxRetries then [] else WithCount(q, c + 1)
  {
    if |q| > 0 {
      var n := |q| - 1;
      assert WithCount(q, c)[..n] == WithCount(q[..n], c);
      ErringPass(q[..n], c);
    }
  }

  /** `n` passes in each of which the backend answers by `o`. */
  function Passes(q: seq<SyncItem>, n: nat, o: SyncItem -> Outcome): seq<SyncItem>
    decreases n
  {
    if n == 0 then q else Passes(Pass(q, o), n - 1, o)
  }

  /** Retry ceiling: fresh inserts that every pass answers with an error
      result are still queued with count n after n < 5 passes. */
  lemma {:induction false} ErringPassesBelow(q: seq<SyncItem>, c: nat, n: nat)
    requires AllInserts(q)
    requires c + n < MaxRetries
    ensures Passes(WithCount(q, c), n, AlwaysErrs) == WithCount(q, c + n)
    decreases n
  {
    if n > 0 {
      ErringPass(q, c);
      ErringPassesBelow(q, c + 1, n - 1);
    }
  }

  lemma {:induction false} ErringPassesReach(q: seq<SyncItem>, c: nat, n: nat)
    requires AllInserts(q)
    requires c + n == MaxRetries && n > 0
    ensures Passes(WithCount(q, c), n, AlwaysErrs) == []
    decreases n
  {
    ErringPass(q, c);
    if c + 1 < MaxRetries {
      ErringPassesReach(q, c + 1, n - 1);
    } else {
      PassesOfEmpty(n - 1, AlwaysErrs);
    }
  }

  lemma {:induction false} PassesOfEmpty(n: nat, o: SyncItem -> Outcome)
    ensures Passes([], n, o) == []
  {
    if n > 0 {
      PassesOfEmpty(n - 1, o);
    }
  }

  /** Retry ceiling: fresh inserts answered with an error result by every
      pass are queued with count n after n < 5 passes and all gone after
      exactly 5. */
  lemma AlwaysErringDroppedAfterFive(q: seq<SyncItem>, n: nat)
    requires AllInserts(q)
    requires n <= MaxRetries
    ensures n < MaxRetries ==> Passes(WithCount(q, 0), n, AlwaysErrs) == WithCount(q, n)
    ensures n == MaxRetries ==> Passes(WithCount(q, 0), n, AlwaysErrs) == []
  {
    if n < MaxRetries {
      ErringPassesBelow(q, 0, n);
    } else {
      ErringPassesReach(q, 0, n);
    }
  }
}
