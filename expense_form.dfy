/** The add-expense form (src/components/budget/ExpenseForm.tsx): its field state and
    `handleSubmit`, which inserts the expense and then overwrites the spend of the
    event's categories of the same name. */
module ExpenseForm {
  import opened Types
  import opened BudgetSummary
  import opened Store

  /** The form's fields: the expense insert without an id. */
  datatype ExpenseData = ExpenseData(eventId: string, category: CategoryName, amount: real,
                                     description: string, date: string, status: ExpenseStatus)

  /** The inserted row: the fields as entered, no vendor and no receipt. */
  function ToExpense(d: ExpenseData, id: string): Expense
  {
    Expense(id, d.eventId, d.category, d.amount, d.description, d.date, None, None, d.status)
  }

  class Form {
    var loading: bool
    var formData: ExpenseData

    /** The defaults: venue, 0, no description, pending, for the dialog's event; `today`
        is the date the form takes from the clock. */
    constructor (eventId: string, today: string)
      ensures !loading
      ensures formData == ExpenseData(eventId, Venue, 0.0, "", today, Pending)
    {
      loading := false;
      formData := ExpenseData(eventId, Venue, 0.0, "", today, Pending);
    }

    method SetCategory(c: CategoryName)
      modifies this
      ensures formData == old(formData).(category := c) && loading == old(loading)
    {
      formData := formData.(category := c);
    }

    method SetAmount(a: real)
      modifies this
      ensures formData == old(formData).(amount := a) && loading == old(loading)
    {
      formData := formData.(amount := a);
    }

    method SetDescription(s: string)
      modifies this
      ensures formData == old(formData).(description := s) && loading == old(loading)
    {
      formData := formData.(description := s);
    }

    method SetDate(s: string)
      modifies this
      ensures formData == old(formData).(date := s) && loading == old(loading)
    {
      formData := formData.(date := s);
    }

    /** `handleSubmit`. The insert comes first; only if it succeeds is the update sent.
        Success is reported only when both succeed, and a failed update leaves the
        inserted expense in place: the two writes are not atomic. */
    method HandleSubmit(db: Database, insertOk: bool, updateOk: bool) returns (succeeded: bool)
      requires db.Valid()
      modifies this, db
      ensures db.Valid()
      ensures db.nextId == if insertOk then old(db.nextId) + 1 else old(db.nextId)
      ensures !loading && formData == old(formData)
      ensures succeeded <==> insertOk && updateOk
      ensures db.expenses ==
        if insertOk then old(db.expenses) + [ToExpense(formData, IdText(old(db.nextId)))] else old(db.expenses)
      ensures db.categories ==
        if succeeded then SetSpent(old(db.categories), formData.eventId, formData.category, formData.amount)
        else old(db.categories)
      ensures db.events == old(db.events)
      ensures db.BudgetOf(formData.eventId).totalBudget == old(db.BudgetOf(formData.eventId)).totalBudget
      ensures succeeded ==> forall c :: c in db.BudgetOf(formData.eventId).categories && c.name == formData.category ==>
        c.spent == formData.amount
    {
      loading := true;
      succeeded := false;
      var e := formData.eventId;
      ghost var before := db.categories;
      if insertOk {
        var _ := db.InsertExpense(ToExpense(formData, ""));
        if updateOk {
          db.UpdateSpent(e, formData.category, formData.amount);
          succeeded := true;
          SetSpentKeepsAllocations(before, e, e, formData.category, formData.amount);
          BudgetPage.MakeBudgetMeaning(e, CategoriesOf(db.categories, e));
          forall c | c in db.BudgetOf(e).categories && c.name == formData.category
            ensures c.spent == formData.amount
          {
            var rows := CategoriesOf(db.categories, e);
            var i :| 0 <= i < |rows| && db.BudgetOf(e).categories[i] == c;
          }
        }
      }
      loading := false;
    }
  }
}
