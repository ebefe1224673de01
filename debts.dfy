/** The credit (kasbon) screen: the outstanding total, the remaining amount
    of each debt, the customer search and the recording of a payment. */
module Debts {
  import opened Common
  import Services

  datatype DebtStatus = Paid | Partial | Unpaid

  /** A debt as read with its customer's name; amounts in rupiah. */
  datatype Debt = Debt(
    id: string,
    customerName: Option<string>,
    notes: Option<string>,
    amount: int,
    amountPaid: int,
    status: DebtStatus)

  /** The remaining amount shown on a row. */
  function Remaining(d: Debt): (r: int)
    ensures r + d.amountPaid == d.amount
  {
    d.amount - d.amountPaid
  }

  /** What a debt adds to the outstanding total: its remaining amount,
      unless it is marked paid. */
  function Outstanding(d: Debt): int {
    if d.status == Paid then 0 else Remaining(d)
  }

  /** `totalUnpaid`. */
  function TotalUnpaid(ds: seq<Debt>): int {
    SumOf(ds, Outstanding)
  }

  /** The pay button: on every debt not marked paid. */
  predicate PayShown(d: Debt) {
    d.status != Paid
  }

  /** The total is additive over lists, and is never negative while no
      debt is paid beyond its amount. */
  lemma {:induction false} TotalUnpaidLaws(a: seq<Debt>, b: seq<Debt>)
    ensures TotalUnpaid(a + b) == TotalUnpaid(a) + TotalUnpaid(b)
    ensures (forall i :: 0 <= i < |a| ==> a[i].amountPaid <= a[i].amount) ==> TotalUnpaid(a) >= 0
    decreases |a|
  {
    SumOfAppend(a, b, Outstanding);
    if |a| > 0 {
      TotalUnpaidLaws(a[..|a| - 1], []);
    }
  }

  /** Marking one debt paid lowers the total by exactly what that debt
      still owed, and nothing else changes. */
  lemma MarkPaid(ds: seq<Debt>, i: int)
    requires 0 <= i < |ds|
    ensures TotalUnpaid(ds[i := ds[i].(status := Paid)]) == TotalUnpaid(ds) - Outstanding(ds[i])
  {
    var paid := ds[i].(status := Paid);
    assert ds == ds[..i] + [ds[i]] + ds[i + 1..];
    assert ds[i := paid] == ds[..i] + [paid] + ds[i + 1..];
    TotalUnpaidLaws(ds[..i] + [ds[i]], ds[i + 1..]);
    TotalUnpaidLaws(ds[..i], [ds[i]]);
    TotalUnpaidLaws(ds[..i] + [paid], ds[i + 1..]);
    TotalUnpaidLaws(ds[..i], [paid]);
    assert TotalUnpaid([paid]) == TotalUnpaid([]) + Outstanding(paid);
    assert TotalUnpaid([ds[i]]) == TotalUnpaid([]) + Outstanding(ds[i]);
  }

  /** The search: the customer's name or the notes contain the term,
      ignoring case. A present but empty note matches the empty term. */
  predicate Matches(d: Debt, term: string) {
    (d.customerName.Some? && Includes(Lower(d.customerName.value), Lower(term))) ||
    (d.notes.Some? && Includes(Lower(d.notes.value), Lower(term)))
  }

  function FilterDebts(ds: seq<Debt>, term: string): (r: seq<Debt>)
    ensures forall d :: d in r <==> d in ds && Matches(d, term)
    ensures |r| <= |ds|
  {
    if |ds| == 0 then []
    else if Matches(ds[0], term) then [ds[0]] + FilterDebts(ds[1..], term)
    else FilterDebts(ds[1..], term)
  }

  /** A debt with neither a customer nor notes is never listed, whatever
      the search; with an empty search every other debt is. */
  lemma SearchReach(ds: seq<Debt>, d: Debt, term: string)
    requires d in ds
    ensures d.customerName.None? && d.notes.None? ==> d !in FilterDebts(ds, term)
    ensures term == "" && (d.customerName.Some? || d.notes.Some?) ==> d in FilterDebts(ds, term)
  {
    if term == "" {
      if d.customerName.Some? {
        assert OccursAt(Lower(d.customerName.value), Lower(term), 0);
      } else if d.notes.Some? {
        assert OccursAt(Lower(d.notes.value), Lower(term), 0);
      }
    }
  }

  /** `Number(payAmount.replace(/\D/g, ''))`. */
  function PayValue(s: string): nat {
    DecimalValue(StripNonDigits(s))
  }

  datatype Toast = PaymentRecorded | PaymentFailed

  class DebtsScreen {
    var debts: seq<Debt>
    var searchTerm: string
    var showPayModal: bool
    var selectedDebt: Option<Debt>
    var payAmount: string
    var toast: Option<Toast>

    constructor ()
      ensures debts == [] && searchTerm == "" && !showPayModal && selectedDebt == None && payAmount == "" && toast == None
    {
      debts := [];
      searchTerm := "";
      showPayModal := false;
      selectedDebt := None;
      payAmount := "";
      toast := None;
    }

    /** The pay button of a row. */
    method SelectDebt(d: Debt)
      modifies this
      ensures selectedDebt == Some(d) && showPayModal
      ensures debts == old(debts) && payAmount == old(payAmount) && toast == old(toast) && searchTerm == old(searchTerm)
    {
      selectedDebt := Some(d);
      showPayModal := true;
    }

    /** `handlePay`: nothing happens without a selected debt, with an empty
        input, or when the digits typed amount to zero; otherwise the payment
        is recorded and, once it succeeded, the dialog closes, its state
        clears and the list is reloaded. */
    method HandlePay(payOk: bool, reloaded: seq<Debt>) returns (calls: seq<Services.Call>)
      modifies this
      ensures old(selectedDebt).None? || old(payAmount) == "" || PayValue(old(payAmount)) == 0 ==>
        calls == [] && debts == old(debts) && selectedDebt == old(selectedDebt) && toast == old(toast) &&
        showPayModal == old(showPayModal) && payAmount == old(payAmount)
      ensures old(selectedDebt).Some? && old(payAmount) != "" && PayValue(old(payAmount)) > 0 ==>
        calls == [Services.PayDebt(old(selectedDebt).value.id, PayValue(old(payAmount)))]
      ensures calls != [] && payOk ==>
        toast == Some(PaymentRecorded) && !showPayModal && payAmount == "" && selectedDebt == None && debts == reloaded
      ensures calls != [] && !payOk ==>
        toast == Some(PaymentFailed) && showPayModal == old(showPayModal) && payAmount == old(payAmount) &&
        selectedDebt == old(selectedDebt) && debts == old(debts)
      ensures searchTerm == old(searchTerm)
    {
      calls := [];
      if selectedDebt.None? || payAmount == "" {
        return;
      }
      var amount := PayValue(payAmount);
      if amount <= 0 {
        return;
      }
      calls := [Services.PayDebt(selectedDebt.value.id, amount)];
      if !payOk {
        toast := Some(PaymentFailed);
        return;
      }
      toast := Some(PaymentRecorded);
      showPayModal := false;
      payAmount := "";
      selectedDebt := None;
      debts := reloaded;
    }
  }
}
