/** Storage operations the screens call whose implementation is not part of
    this model (deleting records, requests to the administrator, debts,
    customers, shifts). Each is recorded as the call a screen issues, with
    its arguments; whether it succeeded is a parameter of the screen that
    issues it. Nothing is assumed about what these calls do to the stored
    data. */
module Services {
  import opened Common
  import opened Json

  /** The signed-in user as the screens see it. */
  datatype User = User(id: string, username: string, isAdmin: bool)

  /** `user?.username || 'Unknown'`: the name a request is filed under. */
  function RequesterName(user: Option<User>): (name: string)
    ensures name != ""
    ensures user.Some? && user.value.username != "" ==> name == user.value.username
  {
    if user.Some? && user.value.username != "" then user.value.username else "Unknown"
  }

  /** The decision an administrator takes on a request. */
  datatype Decision = Approved | Rejected

  /** The kinds of request a cashier can send to the administrator. */
  datatype RequestType = VoidTransaction | VoidInventory | ExpenseVoid | OtherRequest(name: string)

  datatype Call =
    | DeleteTransaction(id: Option<Json>, liter: Option<Json>, nominal: Option<Json>)
    | DeleteInventoryLog(id: Option<Json>)
    | DeleteExpense(id: Option<Json>)
    | UpdateRequestStatus(requestId: string, status: Decision)
    | AddRequest(requestType: RequestType, payload: Json, requester: string)
    | AddDebt(customerId: string, transactionId: string, amount: int, notes: string)
    | PayDebt(debtId: string, amount: int)
    | CloseShift(shiftId: string, finalCash: int, expectedCash: int)
    | AddCustomer(name: string)

  /** Whether an issued call deletes a record. */
  predicate IsDeletion(c: Call) {
    c.DeleteTransaction? || c.DeleteInventoryLog? || c.DeleteExpense?
  }
}
