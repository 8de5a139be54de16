/** The add-category form (src/components/budget/BudgetCategoryForm.tsx): its two fields
    and `handleSubmit`, which inserts one category row with nothing spent. */
module BudgetCategoryForm {
  import opened Types
  import opened Seqs
  import opened Store
  import EventsPage

  /** The row the form sends for an event: the chosen name and allocation, spent 0. */
  function NewCategory(eventId: string, name: CategoryName, allocation: real): CategoryInsert
  {
    CategoryInsert(eventId, name, allocation, 0.0)
  }

  /** Adding a category to an event grows that event's total by the allocation and
      leaves every other event's categories as they were. Nothing checks the name:
      adding a name the event already has gives it a second row of that name. */
  lemma AddCategoryEffect(rows: seq<CategoryRow>, id: string, eventId: string, name: CategoryName,
                          allocation: real, other: string)
    requires other != eventId
    ensures var added := rows + [CategoryRow(id, eventId, name, allocation, 0.0)];
      && Sum(CategoriesOf(added, eventId), EventsPage.RowAllocation)
         == Sum(CategoriesOf(rows, eventId), EventsPage.RowAllocation) + allocation
      && CategoriesOf(added, other) == CategoriesOf(rows, other)
      && |Filter(CategoriesOf(added, eventId), (r: CategoryRow) => r.name == name)|
         == |Filter(CategoriesOf(rows, eventId), (r: CategoryRow) => r.name == name)| + 1
  {
    var r := CategoryRow(id, eventId, name, allocation, 0.0);
    AppendJoins(rows, r, eventId);
    AppendJoins(rows, r, other);
    assert CategoriesOf(rows, other) + [] == CategoriesOf(rows, other);
    var mine := CategoriesOf(rows, eventId) + [r];
    assert mine[..|mine| - 1] == CategoriesOf(rows, eventId);
  }

  class Form {
    var loading: bool
    var eventId: string
    var name: CategoryName
    var allocation: real

    /** The defaults: venue with nothing allocated, for the dialog's event. */
    constructor (eventId: string)
      ensures !loading && this.eventId == eventId && name == Venue && allocation == 0.0
    {
      loading, this.eventId, name, allocation := false, eventId, Venue, 0.0;
    }

    method SetName(n: CategoryName)
      modifies this
      ensures name == n && allocation == old(allocation) && eventId == old(eventId) && loading == old(loading)
    {
      name := n;
    }

    method SetAllocation(a: real)
      modifies this
      ensures allocation == a && name == old(name) && eventId == old(eventId) && loading == old(loading)
    {
      allocation := a;
    }

    /** `handleSubmit`: on a successful insert the row is appended (spent 0, the form's
        event) and success is reported; on a failed one nothing is stored or reported. */
    method HandleSubmit(db: Database, insertOk: bool) returns (succeeded: bool)
      requires db.Valid()
      modifies this, db
      ensures db.Valid()
      ensures db.nextId == if insertOk then old(db.nextId) + 1 else old(db.nextId)
      ensures !loading && eventId == old(eventId) && name == old(name) && allocation == old(allocation)
      ensures succeeded == insertOk
      ensures db.categories == if insertOk
        then old(db.categories) + [CategoryRow(IdText(old(db.nextId)), eventId, name, allocation, 0.0)]
        else old(db.categories)
      ensures db.events == old(db.events) && db.expenses == old(db.expenses)
    {
      loading := true;
      succeeded := false;
      if insertOk {
        db.InsertCategories([NewCategory(eventId, name, allocation)]);
        succeeded := true;
      }
      loading := false;
    }
  }
}
