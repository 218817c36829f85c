/** The debt ledger: a list of debts, each with an append-only list of
    payments, from which the page derives what has been paid, what remains,
    a progress percentage and a paid / overdue / nearing-due mark. */
module Debts {
  import opened Wrappers
  import opened Lists

  /** Debt ids are the text of `Date.now()`; the empty text is the form's "no id". */
  type Id = string

  /** A calendar day as a day number (local midnight of that day). */
  type Day = int

  datatype Payment = Payment(amount: real, date: Day)

  datatype Debt = Debt(
    id: Id,
    description: string,
    totalAmount: real,
    startDate: Day,
    dueDate: Option<Day>,
    notes: string,
    payments: seq<Payment>)

  /** What the debt form submits; an empty due-date field is None. */
  datatype DebtForm = DebtForm(
    description: string, totalAmount: real, startDate: Day, dueDate: Option<Day>, notes: string)

  function IdOf(d: Debt): Id { d.id }
  function AmountOf(p: Payment): real { p.amount }
  function StartOf(d: Debt): int { d.startDate }

  // ---------------------------------------------------------------------
  // Derived figures

  /** The payments summed (`payments.reduce((sum, p) => sum + p.amount, 0)`);
      never negative when no payment is. */
  function TotalPaid(d: Debt): (paid: real)
    ensures (forall j :: 0 <= j < |d.payments| ==> d.payments[j].amount >= 0.0) ==> paid >= 0.0
  {
    SumNonNegative(d.payments, AmountOf);
    Sum(d.payments, AmountOf)
  }

  /** `totalPaid >= totalAmount`. A debt with no payments is paid only when its
      total is not positive. */
  function IsPaid(d: Debt): (paid: bool)
    ensures d.payments == [] ==> (paid <==> d.totalAmount <= 0.0)
  {
    TotalPaid(d) >= d.totalAmount
  }

  /** What is left to pay: positive exactly when the debt is not paid. */
  function Remaining(d: Debt): (r: real)
    ensures r > 0.0 <==> !IsPaid(d)
    ensures r + TotalPaid(d) == d.totalAmount
  {
    d.totalAmount - TotalPaid(d)
  }

  /** Appending a payment raises the paid total by exactly its amount. */
  lemma TotalPaidAppend(ps: seq<Payment>, p: Payment)
    ensures Sum(ps + [p], AmountOf) == Sum(ps, AmountOf) + p.amount
  {
    SumConcat(ps, [p], AmountOf);
  }

  /** The remaining balance as displayed: never below zero. */
  function DisplayedRemaining(d: Debt): (r: real)
    ensures r >= 0.0 && r >= Remaining(d)
    ensures r == 0.0 || r == Remaining(d)
    ensures r == 0.0 <==> IsPaid(d)
  {
    if Remaining(d) > 0.0 then Remaining(d) else 0.0
  }

  /** The progress bar's width in percent; None where the division by a zero
      total gives no finite number (NaN or an infinity in the source). */
  function Progress(d: Debt): (r: Option<real>)
    ensures r.Some? <==> d.totalAmount != 0.0
    ensures r.Some? ==> r.value * d.totalAmount == TotalPaid(d) * 100.0
  {
    if d.totalAmount == 0.0 then None
    else
      var q := TotalPaid(d) / d.totalAmount;
      assert q * d.totalAmount == TotalPaid(d);
      Some(q * 100.0)
  }

  /** A debt of 500 with one payment of 200: 300 remains, 40% is done. */
  lemma FiveHundredScenario(d: Debt)
    requires d.totalAmount == 500.0 && |d.payments| == 1 && d.payments[0].amount == 200.0
    ensures TotalPaid(d) == 200.0
    ensures DisplayedRemaining(d) == 300.0
    ensures Progress(d) == Some(40.0)
  {
    assert d.payments[1..] == [];
    assert Sum(d.payments, AmountOf) == AmountOf(d.payments[0]) + Sum(d.payments[1..], AmountOf);
  }

  /** The class a list row carries. */
  datatype Mark = PaidMark | OverdueMark | NearingDueMark | NoMark

  function Classify(d: Debt, today: Day): (m: Mark)
    ensures m == PaidMark <==> IsPaid(d)
    ensures m == OverdueMark <==> !IsPaid(d) && d.dueDate.Some? && d.dueDate.value < today
    ensures m == NearingDueMark <==> !IsPaid(d) && d.dueDate.Some? && today <= d.dueDate.value <= today + 7
    ensures m == NoMark <==> !IsPaid(d) && (d.dueDate.None? || d.dueDate.value > today + 7)
  {
    if Remaining(d) > 0.0 then
      match d.dueDate
      case Some(due) =>
        if due < today then OverdueMark
        else if due - today <= 7 then NearingDueMark
        else NoMark
      case None => NoMark
    else PaidMark
  }

  // ---------------------------------------------------------------------
  // The filter buttons and the list order

  predicate ShownDebt(filter: string, d: Debt)
  {
    if filter == "paid" then IsPaid(d)
    else if filter == "open" then !IsPaid(d)
    else true
  }

  function ShownBy(filter: string): Debt -> bool
  {
    d => ShownDebt(filter, d)
  }

  /** The rows of the list: the admitted debts by ascending start date. */
  function Visible(debts: seq<Debt>, filter: string): (rows: seq<Debt>)
    ensures SortedBy(rows, StartOf)
    ensures multiset(rows) == multiset(Filter(debts, ShownBy(filter)))
  {
    SortBy(Filter(debts, ShownBy(filter)), StartOf)
  }

  /** The paid and open buttons split the debts between them. */
  lemma PaidOpenPartition(debts: seq<Debt>)
    ensures multiset(Filter(debts, ShownBy("paid"))) + multiset(Filter(debts, ShownBy("open"))) == multiset(debts)
    ensures |Filter(debts, ShownBy("paid"))| + |Filter(debts, ShownBy("open"))| == |debts|
  {
    FilterSplit(debts, ShownBy("paid"), ShownBy("open"));
  }

  /** "all", or any other value, shows every debt. */
  lemma OtherFiltersKeepAll(debts: seq<Debt>, filter: string)
    requires filter != "paid" && filter != "open"
    ensures Filter(debts, ShownBy(filter)) == debts
    ensures multiset(Visible(debts, filter)) == multiset(debts)
  {
    FilterKeepsAll(debts, ShownBy(filter));
  }

  // ---------------------------------------------------------------------
  // The payment dialog

  /** What the dialog's amount field starts with (None: empty) and its maximum. */
  datatype Prefill = Prefill(amount: Option<real>, max: real)

  /** `openPaymentModal`; None when no debt has the id (the dialog stays closed). */
  function PaymentPrefill(debts: seq<Debt>, id: Id): (r: Option<Prefill>)
    ensures r.None? <==> IndexOf(debts, IdOf, id) == -1
    ensures r.Some? ==>
      var d := debts[IndexOf(debts, IdOf, id)];
      && (r.value.amount.Some? <==> Remaining(d) > 0.0)
      && (r.value.amount.Some? ==> r.value.amount.value == Remaining(d))
      && r.value.max == DisplayedRemaining(d)
  {
    var k := IndexOf(debts, IdOf, id);
    if k < 0 then None
    else
      var remaining := Remaining(debts[k]);
      Some(Prefill(if remaining > 0.0 then Some(remaining) else None, if remaining > 0.0 then remaining else 0.0))
  }

  // ---------------------------------------------------------------------
  // Edits to the list

  function FromForm(id: Id, f: DebtForm, payments: seq<Payment>): Debt
  {
    Debt(id, f.description, f.totalAmount, f.startDate, f.dueDate, f.notes, payments)
  }

  /** Editing: every debt with the id becomes the form's debt, carrying the
      payments of the first debt with that id. */
  function Edited(debts: seq<Debt>, id: Id, f: DebtForm): (r: seq<Debt>)
    requires 0 <= IndexOf(debts, IdOf, id)
    ensures |r| == |debts|
    ensures forall j :: 0 <= j < |debts| && debts[j].id != id ==> r[j] == debts[j]
    ensures forall j :: 0 <= j < |debts| && debts[j].id == id ==>
      r[j] == FromForm(id, f, debts[IndexOf(debts, IdOf, id)].payments)
  {
    var edited := FromForm(id, f, debts[IndexOf(debts, IdOf, id)].payments);
    seq(|debts|, j requires 0 <= j < |debts| => if debts[j].id == id then edited else debts[j])
  }

  /** An edit keeps what has been paid on the first debt with that id. */
  lemma EditKeepsPaid(debts: seq<Debt>, id: Id, f: DebtForm)
    requires 0 <= IndexOf(debts, IdOf, id)
    ensures var k := IndexOf(debts, IdOf, id);
      Edited(debts, id, f)[k].payments == debts[k].payments
      && TotalPaid(Edited(debts, id, f)[k]) == TotalPaid(debts[k])
  {
  }

  /** Adding a payment: it is appended to the first debt with the id, whose
      paid total rises by exactly its amount; an unknown id changes nothing. */
  function WithPayment(debts: seq<Debt>, id: Id, p: Payment): (r: seq<Debt>)
    ensures |r| == |debts|
    ensures IndexOf(debts, IdOf, id) == -1 ==> r == debts
    ensures 0 <= IndexOf(debts, IdOf, id) ==>
      var k := IndexOf(debts, IdOf, id);
      && r[k].payments == debts[k].payments + [p]
      && r[k] == debts[k].(payments := r[k].payments)
      && TotalPaid(r[k]) == TotalPaid(debts[k]) + p.amount
      && (forall j :: 0 <= j < |debts| && j != k ==> r[j] == debts[j])
  {
    var k := IndexOf(debts, IdOf, id);
    if k < 0 then debts
    else
      TotalPaidAppend(debts[k].payments, p);
      debts[k := debts[k].(payments := debts[k].payments + [p])]
  }

  // ---------------------------------------------------------------------
  // The ledger's state

  /** The page's in-memory list (`debts`). */
  class Ledger {
    var debts: seq<Debt>

    /** The list read at start-up (empty when nothing is stored). */
    constructor (stored: seq<Debt>)
      ensures debts == stored
    {
      debts := stored;
    }

    /** The debt form's submit handler. `formId` is the hidden id field ("" for a
        new debt); `freshId` stands for `Date.now().toString()`. With an id no
        debt has, reading `.payments` of nothing throws and the list is kept. */
    method Submit(formId: Id, freshId: Id, f: DebtForm) returns (ok: bool)
      modifies this
      ensures ok <==> formId == "" || 0 <= IndexOf(old(debts), IdOf, formId)
      ensures !ok ==> debts == old(debts)
      ensures ok && formId == "" ==> debts == old(debts) + [FromForm(freshId, f, [])]
      ensures ok && formId != "" ==> debts == Edited(old(debts), formId, f)
    {
      if formId == "" {
        debts := debts + [FromForm(freshId, f, [])];
        return true;
      }
      var k := IndexOf(debts, IdOf, formId);
      if k < 0 {
        return false;
      }
      debts := Edited(debts, formId, f);
      ok := true;
    }

    /** The payment form's submit handler. */
    method AddPayment(id: Id, p: Payment) returns (added: bool)
      modifies this
      ensures added <==> 0 <= IndexOf(old(debts), IdOf, id)
      ensures debts == WithPayment(old(debts), id, p)
    {
      var k := IndexOf(debts, IdOf, id);
      if k < 0 {
        return false;
      }
      debts := debts[k := debts[k].(payments := debts[k].payments + [p])];
      added := true;
    }

    /** The confirmed delete button. */
    method Delete(id: Id)
      modifies this
      ensures debts == RemoveKey(old(debts), IdOf, id)
    {
      debts := RemoveKey(debts, IdOf, id);
    }
  }
}
