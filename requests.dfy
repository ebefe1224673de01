/** The administrator's request inbox: requests are listed newest first and
    a pending one can be approved or rejected. Approving a void request first
    deletes the record it names and only then marks the request; rejecting
    only marks it. */
module Requests {
  import opened Common
  import opened Json
  import Sorting
  import Services

  datatype RequestStatus = Pending | Decided(decision: Services.Decision) | OtherStatus(name: string)

  /** A stored request; a `null` or missing payload is `JNull`. */
  datatype Request = Request(
    id: string,
    requestType: Services.RequestType,
    payload: Json,
    status: RequestStatus,
    createdAt: Instant)

  function CreatedAt(r: Request): int { r.createdAt }

  /** The list as shown: sorted on the creation time, newest first. */
  function NewestFirst(rs: seq<Request>): (sorted: seq<Request>)
    ensures Sorting.SortedDesc(sorted, CreatedAt)
    ensures multiset(sorted) == multiset(rs)
  {
    Sorting.SortDesc(rs, CreatedAt)
  }

  /** The buttons a row offers: approve and reject on a pending request,
      nothing otherwise. */
  function OfferedActions(r: Request): (actions: seq<Services.Decision>)
    ensures |actions| > 0 <==> r.status == Pending
    ensures r.status == Pending ==> Services.Approved in actions && Services.Rejected in actions
  {
    if r.status == Pending then [Services.Approved, Services.Rejected] else []
  }

  /** Whether approving this request deletes a record. */
  predicate IsVoid(t: Services.RequestType) {
    t.VoidTransaction? || t.VoidInventory? || t.ExpenseVoid?
  }

  /** The deletion an approval executes. A transaction void deletes
      `payload.id`, or `payload.transactionId` when that is falsy, passing
      the payload's litres and nominal; an inventory void deletes
      `payload.id` or else `payload.inventoryId`; an expense void deletes
      `payload.expenseId`. */
  function Deletion(r: Request): (c: Services.Call)
    requires IsVoid(r.requestType)
    ensures Services.IsDeletion(c)
  {
    var p := r.payload;
    match r.requestType
    case VoidTransaction => Services.DeleteTransaction(Or(Get(p, "id"), Get(p, "transactionId")), Get(p, "liter"), Get(p, "nominal"))
    case VoidInventory => Services.DeleteInventoryLog(Or(Get(p, "id"), Get(p, "inventoryId")))
    case ExpenseVoid => Services.DeleteExpense(Get(p, "expenseId"))
  }

  datatype Toast = Done(decision: Services.Decision) | ActionFailed | LoadFailed

  class RequestsScreen {
    var requests: seq<Request>
    var toast: Option<Toast>

    constructor ()
      ensures requests == [] && toast == None
    {
      requests := [];
      toast := None;
    }

    /** `fetchRequests`: the list read, newest first, or an error notice. */
    method Load(read: Option<seq<Request>>)
      modifies this
      ensures read.Some? ==> requests == NewestFirst(read.value) && toast == old(toast)
      ensures read.None? ==> requests == old(requests) && toast == Some(LoadFailed)
    {
      if read.None? {
        toast := Some(LoadFailed);
        return;
      }
      requests := NewestFirst(read.value);
    }

    /** `handleAction`: the calls issued, in order. Destructuring a `null`
        payload throws before any deletion; a failed deletion stops the
        sequence before the status update; success reloads the list. */
    method HandleAction(req: Request, decision: Services.Decision, deleteOk: bool, statusOk: bool,
                        reloaded: Option<seq<Request>>)
      returns (calls: seq<Services.Call>)
      modifies this
      ensures calls == ActionCalls(req, decision, deleteOk)
      ensures var succeeded := statusOk && Services.UpdateRequestStatus(req.id, decision) in calls;
        (succeeded && reloaded.Some? ==> requests == NewestFirst(reloaded.value) && toast == Some(Done(decision))) &&
        (succeeded && reloaded.None? ==> requests == old(requests) && toast == Some(LoadFailed)) &&
        (!succeeded ==> requests == old(requests) && toast == Some(ActionFailed))
    {
      calls := [];
      if decision == Services.Approved && IsVoid(req.requestType) {
        if req.payload.JNull? {
          toast := Some(ActionFailed);
          return;
        }
        calls := [Deletion(req)];
        if !deleteOk {
          toast := Some(ActionFailed);
          return;
        }
      }
      calls := calls + [Services.UpdateRequestStatus(req.id, decision)];
      if !statusOk {
        toast := Some(ActionFailed);
        return;
      }
      toast := Some(Done(decision));
      Load(reloaded);
    }
  }

  /** The calls `handleAction` issues, in order: for an approved void the
      deletion (none when the payload is `null`, whose destructuring
      throws), then, when the deletion succeeded, the status update; for
      anything else just the status update. */
  function ActionCalls(req: Request, decision: Services.Decision, deleteOk: bool): seq<Services.Call> {
    var status := [Services.UpdateRequestStatus(req.id, decision)];
    if decision == Services.Approved && IsVoid(req.requestType) then
      if req.payload.JNull? then []
      else [Deletion(req)] + (if deleteOk then status else [])
    else status
  }

  /** Rejecting, or approving a request that is not a void, never deletes
      anything and only marks the request. */
  lemma OnlyVoidApprovalsDelete(req: Request, decision: Services.Decision, deleteOk: bool)
    requires decision == Services.Rejected || !IsVoid(req.requestType)
    ensures ActionCalls(req, decision, deleteOk) == [Services.UpdateRequestStatus(req.id, decision)]
    ensures forall c :: c in ActionCalls(req, decision, deleteOk) ==> !Services.IsDeletion(c)
  {
  }

  /** The request is marked only after the deletion it asks for succeeded:
      wherever the status update is issued for an approved void, its
      deletion was issued first and reported success. */
  lemma StatusOnlyAfterDeletion(req: Request, deleteOk: bool)
    requires IsVoid(req.requestType)
    ensures Services.UpdateRequestStatus(req.id, Services.Approved) in ActionCalls(req, Services.Approved, deleteOk) ==>
      deleteOk && ActionCalls(req, Services.Approved, deleteOk)[0] == Deletion(req)
  {
    var calls := ActionCalls(req, Services.Approved, deleteOk);
    if !deleteOk && !req.payload.JNull? {
      assert calls == [Deletion(req)];
      assert Services.IsDeletion(calls[0]);
    }
  }

  /** The payload id wins over the fallback key whenever it is truthy. */
  lemma VoidTransactionTarget(req: Request)
    requires req.requestType.VoidTransaction?
    ensures Truthy(Get(req.payload, "id")) ==> Deletion(req).id == Get(req.payload, "id")
    ensures !Truthy(Get(req.payload, "id")) ==> Deletion(req).id == Get(req.payload, "transactionId")
  {
  }
}
