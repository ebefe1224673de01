/** The operating-expense screen: the list and its total, deletion by an
    administrator, and a void request to the administrator from a cashier. */
module Expenses {
  import opened Common
  import opened Json
  import Services
  import Requests

  /** A recorded expense; `amount` in rupiah. */
  datatype Expense = Expense(id: string, date: Instant, title: string, amount: int, category: string, notes: string)

  function Amount(e: Expense): int { e.amount }

  /** `totalExpenses`: the sum of the amounts. */
  function TotalExpenses(es: seq<Expense>): int {
    SumOf(es, Amount)
  }

  /** The total of two lists together is the sum of their totals, and
      recording one more expense raises the total by its amount. */
  lemma TotalExpensesAppend(a: seq<Expense>, b: seq<Expense>, e: Expense)
    ensures TotalExpenses(a + b) == TotalExpenses(a) + TotalExpenses(b)
    ensures TotalExpenses([e] + a) == e.amount + TotalExpenses(a)
  {
    SumOfAppend(a, b, Amount);
    SumOfCons(e, a, Amount);
  }

  /** The body of an expense void request. */
  function VoidPayload(e: Expense, reason: string): (p: Json)
    ensures Get(p, "expenseId") == Some(JStr(e.id)) && Get(p, "reason") == Some(JStr(reason))
    ensures Get(p, "expenseTitle") == Some(JStr(e.title)) && Get(p, "amount") == Some(Num(e.amount))
  {
    JObj(map["expenseId" := JStr(e.id), "reason" := JStr(reason), "expenseTitle" := JStr(e.title), "amount" := Num(e.amount)])
  }

  /** The deletion an administrator performs directly. */
  function DirectDeletion(e: Expense): Services.Call {
    Services.DeleteExpense(Some(JStr(e.id)))
  }

  /** Approving a cashier's void request deletes the same expense, with the
      same call, as the administrator's direct deletion. */
  lemma ApprovedVoidDeletesExpense(e: Expense, reason: string, requestId: string, createdAt: Instant)
    ensures Requests.Deletion(Requests.Request(requestId, Services.ExpenseVoid, VoidPayload(e, reason), Requests.Pending, createdAt))
      == DirectDeletion(e)
  {
  }

  datatype Toast = Saved | Deleted | RequestSent | Failed

  class ExpensesScreen {
    var expenses: seq<Expense>
    var showVoidModal: bool
    var selectedExpense: Option<Expense>
    var voidReason: string
    var isVoiding: bool
    var toast: Option<Toast>
    var title: string
    var amount: string
    var category: string
    var notes: string

    constructor ()
      ensures expenses == [] && !showVoidModal && selectedExpense == None && toast == None
      ensures title == "" && amount == "" && category == "OPERASIONAL" && notes == ""
    {
      expenses := [];
      showVoidModal := false;
      selectedExpense := None;
      voidReason := "";
      isVoiding := false;
      toast := None;
      title := "";
      amount := "";
      category := "OPERASIONAL";
      notes := "";
    }

    /** `resetForm`: the form back to its defaults. */
    method ResetForm()
      modifies this
      ensures title == "" && amount == "" && category == "OPERASIONAL" && notes == ""
      ensures expenses == old(expenses) && selectedExpense == old(selectedExpense) && showVoidModal == old(showVoidModal)
      ensures voidReason == old(voidReason) && toast == old(toast) && isVoiding == old(isVoiding)
    {
      title := "";
      amount := "";
      category := "OPERASIONAL";
      notes := "";
    }

    /** `confirmDelete`: an administrator who confirms deletes the expense
        and the list is reloaded; a cashier gets the void dialog for it
        with an empty reason; without a user nothing happens. */
    method ConfirmDelete(user: Option<Services.User>, e: Expense, confirmed: bool, deleteOk: bool, reloaded: seq<Expense>)
      returns (calls: seq<Services.Call>)
      modifies this
      ensures user.None? ==> calls == [] && expenses == old(expenses) && toast == old(toast) && showVoidModal == old(showVoidModal)
      ensures user.Some? && user.value.isAdmin && !confirmed ==> calls == [] && expenses == old(expenses) && toast == old(toast)
      ensures user.Some? && user.value.isAdmin && confirmed ==> calls == [DirectDeletion(e)]
      ensures user.Some? && user.value.isAdmin && confirmed && deleteOk ==> expenses == reloaded && toast == Some(Deleted)
      ensures user.Some? && user.value.isAdmin && confirmed && !deleteOk ==> expenses == old(expenses) && toast == Some(Failed)
      ensures user.Some? && user.value.isAdmin ==> showVoidModal == old(showVoidModal) && selectedExpense == old(selectedExpense)
      ensures user.Some? && !user.value.isAdmin ==>
        calls == [] && selectedExpense == Some(e) && voidReason == "" && showVoidModal &&
        expenses == old(expenses) && toast == old(toast)
      ensures user.None? || user.value.isAdmin ==> selectedExpense == old(selectedExpense) && voidReason == old(voidReason)
      ensures isVoiding == old(isVoiding)
      ensures title == old(title) && amount == old(amount) && category == old(category) && notes == old(notes)
    {
      calls := [];
      if user.None? {
        return;
      }
      if user.value.isAdmin {
        if confirmed {
          calls := [DirectDeletion(e)];
          if deleteOk {
            expenses := reloaded;
            toast := Some(Deleted);
          } else {
            toast := Some(Failed);
          }
        }
      } else {
        selectedExpense := Some(e);
        voidReason := "";
        showVoidModal := true;
      }
    }

    /** `handleRequestVoid`: with an expense selected and a user signed in,
        an EXPENSE_VOID request naming the expense is filed under the user's
        name; the dialog closes when it was sent. */
    method HandleRequestVoid(user: Option<Services.User>, addOk: bool) returns (calls: seq<Services.Call>)
      modifies this
      ensures old(selectedExpense).None? || user.None? ==>
        calls == [] && toast == old(toast) && showVoidModal == old(showVoidModal)
      ensures old(selectedExpense).Some? && user.Some? ==>
        calls == [Services.AddRequest(Services.ExpenseVoid, VoidPayload(old(selectedExpense).value, old(voidReason)), user.value.username)]
      ensures old(selectedExpense).Some? && user.Some? && addOk ==> toast == Some(RequestSent) && !showVoidModal
      ensures old(selectedExpense).Some? && user.Some? && !addOk ==> toast == Some(Failed) && showVoidModal == old(showVoidModal)
      ensures isVoiding == if old(selectedExpense).None? || user.None? then old(isVoiding) else false
      ensures expenses == old(expenses) && selectedExpense == old(selectedExpense) && voidReason == old(voidReason)
      ensures title == old(title) && amount == old(amount) && category == old(category) && notes == old(notes)
    {
      calls := [];
      if selectedExpense.None? || user.None? {
        return;
      }
      isVoiding := true;
      calls := [Services.AddRequest(Services.ExpenseVoid, VoidPayload(selectedExpense.value, voidReason), user.value.username)];
      if addOk {
        toast := Some(RequestSent);
        showVoidModal := false;
      } else {
        toast := Some(Failed);
      }
      isVoiding := false;
    }
  }
}
