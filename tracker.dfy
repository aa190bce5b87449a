/**
 * The tracker's list state and its two updates: adding the record built from
 * the form, and deleting every record with a given id.
 *
 * The store is outside the model. Its answers become parameters: the record it
 * sends back for an add (or none, when the request fails), and whether a
 * delete succeeded.
 */
module Tracker {
  import opened Wrappers
  import opened Calendar
  import opened Ledger
  import opened Totals

  /**
   * The entry form. A blank amount field is `None`; the date field holds a
   * calendar date.
   */
  datatype FormData = FormData(
    description: string,
    amount: Option<int>,
    category: string,
    date: Date,
    isReimbursement: bool,
    reimbursementAmount: Option<int>)

  /** The record the form sends to the store, before the store gives it an id. */
  datatype Draft = Draft(
    description: string,
    amount: int,
    category: string,
    date: Date,
    isReimbursement: bool,
    reimbursementAmount: int)

  /** The form as it is reset after a successful add: all fields blank, the date today's. */
  function BlankForm(today: Date): FormData
  {
    FormData("", None, "", today, false, None)
  }

  /**
   * The record an add sends: nothing when the description, the amount or the
   * category is blank; otherwise the form's fields, a blank reimbursement
   * being sent as 0.
   */
  function NewExpense(f: FormData): Option<Draft>
  {
    if f.description == "" || f.amount == None || f.category == "" then None
    else Some(Draft(f.description, f.amount.value, f.category, f.date, f.isReimbursement, f.reimbursementAmount.GetOr(0)))
  }

  /** What the store keeps for a draft it accepts under `id`. */
  function Saved(d: Draft, id: string): Expense
  {
    Expense(id, d.description, d.amount, d.category, d.date, d.isReimbursement, Some(d.reimbursementAmount))
  }

  /** `expenses.filter(expense => expense.id !== id)`. */
  function Delete(xs: seq<Expense>, id: string): (r: seq<Expense>)
    ensures |r| <= |xs|
    ensures forall e :: e in r <==> e in xs && e.id != id
  {
    FilterMembers(xs, Not(HasId(id)));
    Filter(xs, Not(HasId(id)))
  }

  /** Deleting from a list with a record in front deletes from the rest and keeps that record exactly when its id differs. */
  lemma DeleteCons(e: Expense, xs: seq<Expense>, id: string)
    ensures Delete([e] + xs, id) == (if e.id != id then [e] else []) + Delete(xs, id)
  {
    FilterCons(e, xs, Not(HasId(id)));
  }

  /** Deleting from two lists one after the other gives the same records in the same order: the kept records do not move. */
  lemma DeleteConcat(a: seq<Expense>, b: seq<Expense>, id: string)
    ensures Delete(a + b, id) == Delete(a, id) + Delete(b, id)
  {
    FilterConcat(a, b, Not(HasId(id)));
  }

  /** Deleting an id no record carries leaves the list as it was. */
  lemma DeleteMissing(xs: seq<Expense>, id: string)
    requires forall e :: e in xs ==> e.id != id
    ensures Delete(xs, id) == xs
  {
    FilterAll(xs, Not(HasId(id)));
  }

  /** A delete removes exactly the records carrying the id, however many there are. */
  lemma DeleteCount(xs: seq<Expense>, id: string)
    ensures |Delete(xs, id)| + |Filter(xs, HasId(id))| == |xs|
    ensures forall e :: e in Filter(xs, HasId(id)) <==> e in xs && e.id == id
  {
    SumPartition(xs, HasId(id), Amount);
  }

  /** Adding a record under a fresh id and then deleting that id gives back the list from before the add. */
  lemma AddThenDelete(e: Expense, xs: seq<Expense>)
    requires forall x :: x in xs ==> x.id != e.id
    ensures Delete([e] + xs, e.id) == xs
  {
    DeleteCons(e, xs, e.id);
    DeleteMissing(xs, e.id);
    assert [] + xs == xs;
  }

  /**
   * A record built from a complete form and saved by the store raises the
   * overall net by its amount (negated for a fuel reimbursement) less its
   * reimbursement.
   */
  lemma NetAfterSavedAdd(f: FormData, id: string, xs: seq<Expense>)
    requires NewExpense(f) != None
    ensures NetExpenses([Saved(NewExpense(f).value, id)] + xs)
         == NetExpenses(xs)
          + (if f.category == FuelReimbursement then -f.amount.value else f.amount.value)
          - f.reimbursementAmount.GetOr(0)
  {
    NetAfterAdd(Saved(NewExpense(f).value, id), xs);
  }

  /** The tracker's state: the records shown, newest first as the store and the adds put them, and the entry form. */
  class ExpenseTracker {
    var expenses: seq<Expense>
    var form: FormData

    /** The tracker before the first load: no records and a blank form. */
    constructor(today: Date)
      ensures expenses == [] && form == BlankForm(today)
    {
      expenses := [];
      form := BlankForm(today);
    }

    /**
     * `addExpense`: with a complete form, the record is sent to the store, and
     * when the store sends back `reply` it goes in front of the list and the
     * form is reset. With a blank required field, or no reply, nothing changes.
     */
    method AddExpense(reply: Option<Expense>, today: Date) returns (sent: Option<Draft>)
      modifies this
      ensures sent == NewExpense(old(form))
      ensures sent == None <==> old(form).description == "" || old(form).amount == None || old(form).category == ""
      ensures sent != None ==>
                && sent.value.description == old(form).description
                && Some(sent.value.amount) == old(form).amount
                && sent.value.category == old(form).category
                && sent.value.date == old(form).date
                && sent.value.isReimbursement == old(form).isReimbursement
                && sent.value.reimbursementAmount == (if old(form).reimbursementAmount == None then 0 else old(form).reimbursementAmount.value)
      ensures if sent != None && reply != None
              then expenses == [reply.value] + old(expenses) && form == BlankForm(today)
              else expenses == old(expenses) && form == old(form)
    {
      sent := NewExpense(form);
      if sent == None {
        return;
      }
      if reply != None {
        expenses := [reply.value] + expenses;
        form := BlankForm(today);
      }
    }

    /** `deleteExpense`: when the store confirms, every record with that id leaves the list. */
    method DeleteExpense(id: string, confirmed: bool)
      modifies this
      ensures expenses == (if confirmed then Delete(old(expenses), id) else old(expenses))
      ensures form == old(form)
    {
      if confirmed {
        expenses := Delete(expenses, id);
      }
    }
  }
}
