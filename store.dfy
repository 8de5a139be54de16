/** The hosted store as the three write paths see it: tables of event, category and
    expense rows. An insert appends rows and the store gives each a fresh id; an update
    filtered by `.eq(...)` rewrites exactly the matching rows. The network client
    itself is not modelled: whether a request succeeds is an input of the callers. */
module Store {
  import opened Types
  import opened Seqs
  import opened BudgetSummary
  import BudgetPage
  import EventsPage

  /** The id the store gives its n-th row: the decimal digits of n. */
  function IdText(n: nat): string
  {
    (if n < 10 then [] else IdText(n / 10)) + [((n % 10) + 48) as char]
  }

  /** A single digit comes out alone exactly for numbers below ten. */
  lemma {:induction false} IdTextLength(n: nat)
    ensures |IdText(n)| >= 1
    ensures |IdText(n)| == 1 <==> n < 10
  {
    if n >= 10 {
      IdTextLength(n / 10);
    }
  }

  /** Different numbers give different ids. */
  lemma {:induction false} IdTextInjective(a: nat, b: nat)
    ensures IdText(a) == IdText(b) ==> a == b
  {
    if IdText(a) == IdText(b) {
      var s := IdText(a);
      assert s[|s| - 1] == ((a % 10) + 48) as char;
      assert IdText(b)[|s| - 1] == ((b % 10) + 48) as char;
      IdTextLength(a);
      IdTextLength(b);
      if a >= 10 {
        assert s[..|s| - 1] == IdText(a / 10);
        assert IdText(b)[..|s| - 1] == IdText(b / 10);
        IdTextInjective(a / 10, b / 10);
      }
    }
  }

  /** The ids of a table's rows are the ids of `keys`, which are below `bound` and
      strictly increasing: the store has handed out every one of them, once. */
  ghost predicate Numbered<T>(rows: seq<T>, idOf: T -> string, keys: seq<nat>, bound: nat)
  {
    && |keys| == |rows|
    && (forall i :: 0 <= i < |rows| ==> idOf(rows[i]) == IdText(keys[i]) && keys[i] < bound)
    && (forall i, j :: 0 <= i < j < |keys| ==> keys[i] < keys[j])
  }

  /** In a numbered table no two rows share an id, and the next id is not yet taken. */
  lemma NumberedDistinct<T>(rows: seq<T>, idOf: T -> string, keys: seq<nat>, bound: nat)
    requires Numbered(rows, idOf, keys, bound)
    ensures forall i, j :: 0 <= i < j < |rows| ==> idOf(rows[i]) != idOf(rows[j])
    ensures forall i :: 0 <= i < |rows| ==> idOf(rows[i]) != IdText(bound)
  {
    forall i, j | 0 <= i < j < |rows| ensures idOf(rows[i]) != idOf(rows[j]) {
      IdTextInjective(keys[i], keys[j]);
    }
    forall i | 0 <= i < |rows| ensures idOf(rows[i]) != IdText(bound) {
      IdTextInjective(keys[i], bound);
    }
  }

  /** Appending one row under the next id keeps the table numbered. */
  lemma NumberedAppend<T>(rows: seq<T>, idOf: T -> string, keys: seq<nat>, bound: nat, r: T)
    requires Numbered(rows, idOf, keys, bound) && idOf(r) == IdText(bound)
    ensures Numbered(rows + [r], idOf, keys + [bound], bound + 1)
  {
  }

  function EventRowId(r: EventRow): string { r.id }

  function CategoryRowId(r: CategoryRow): string { r.id }

  function ExpenseId(e: Expense): string { e.id }

  /** A category row as the forms send it, before the store gives it an id. */
  datatype CategoryInsert = CategoryInsert(eventId: string, name: CategoryName, allocation: real, spent: real)

  /** The rows a batch insert appends: the batch in order, with consecutive ids. */
  function WithIds(batch: seq<CategoryInsert>, first: nat): seq<CategoryRow>
  {
    seq(|batch|, i requires 0 <= i < |batch| =>
      CategoryRow(IdText(first + i), batch[i].eventId, batch[i].name, batch[i].allocation, batch[i].spent))
  }

  /** The numbers `first`, `first + 1`, ... of a batch of `n` rows. */
  function Consecutive(first: nat, n: nat): seq<nat>
  {
    seq(n, i requires 0 <= i < n => first + i)
  }

  /** A batch appended under the next ids keeps the category table numbered. */
  lemma NumberedBatch(rows: seq<CategoryRow>, keys: seq<nat>, bound: nat, batch: seq<CategoryInsert>)
    requires Numbered(rows, CategoryRowId, keys, bound)
    ensures Numbered(rows + WithIds(batch, bound), CategoryRowId, keys + Consecutive(bound, |batch|), bound + |batch|)
  {
  }

  /** `.select("*").eq("event_id", eventId)` on the category table. */
  function CategoriesOf(rows: seq<CategoryRow>, eventId: string): seq<CategoryRow>
  {
    Filter(rows, (r: CategoryRow) => r.eventId == eventId)
  }

  /** An appended row joins its own event's categories, at the end, and no other
      event's; its allocation adds to that event's total. */
  lemma AppendJoins(rows: seq<CategoryRow>, r: CategoryRow, eventId: string)
    ensures CategoriesOf(rows + [r], eventId) ==
      CategoriesOf(rows, eventId) + (if r.eventId == eventId then [r] else [])
    ensures Sum(CategoriesOf(rows + [r], eventId), EventsPage.RowAllocation) ==
      Sum(CategoriesOf(rows, eventId), EventsPage.RowAllocation) + (if r.eventId == eventId then r.allocation else 0.0)
  {
    assert (rows + [r])[..|rows + [r]| - 1] == rows;
    if r.eventId == eventId {
      SumAppend(CategoriesOf(rows, eventId), [r], EventsPage.RowAllocation);
      SumSingleton(r, EventsPage.RowAllocation);
    } else {
      assert CategoriesOf(rows, eventId) + [] == CategoriesOf(rows, eventId);
    }
  }

  // ----- `.update({ spent }).eq("event_id", e).eq("name", n)` -----

  predicate Targets(r: CategoryRow, eventId: string, name: CategoryName)
  {
    r.eventId == eventId && r.name == name
  }

  /** Every row of the event with that name gets `spent := amount`; the rest are kept. */
  function SetSpent(rows: seq<CategoryRow>, eventId: string, name: CategoryName, amount: real): seq<CategoryRow>
  {
    seq(|rows|, i requires 0 <= i < |rows| =>
      if Targets(rows[i], eventId, name) then rows[i].(spent := amount) else rows[i])
  }

  /** The update keeps the table's length and order; a matching row changes in its
      spend only, which becomes the amount (not the old spend plus the amount), and
      every other row is unchanged. */
  lemma SetSpentMeaning(rows: seq<CategoryRow>, eventId: string, name: CategoryName, amount: real)
    ensures |SetSpent(rows, eventId, name, amount)| == |rows|
    ensures forall i :: 0 <= i < |rows| ==>
      var r := SetSpent(rows, eventId, name, amount)[i];
      && r.id == rows[i].id && r.eventId == rows[i].eventId && r.name == rows[i].name
      && r.allocation == rows[i].allocation
      && r.spent == (if Targets(rows[i], eventId, name) then amount else rows[i].spent)
    ensures forall i :: 0 <= i < |rows| && !Targets(rows[i], eventId, name) ==>
      SetSpent(rows, eventId, name, amount)[i] == rows[i]
  {
  }

  /** A second update of the same rows overwrites the first: after two expenses in one
      category the spend is the second amount. */
  lemma SetSpentOverwrites(rows: seq<CategoryRow>, eventId: string, name: CategoryName, a1: real, a2: real)
    ensures SetSpent(SetSpent(rows, eventId, name, a1), eventId, name, a2) == SetSpent(rows, eventId, name, a2)
  {
  }

  /** Updating and then appending is appending and then updating. */
  lemma SetSpentAppend(a: seq<CategoryRow>, b: seq<CategoryRow>, eventId: string, name: CategoryName, amount: real)
    ensures SetSpent(a + b, eventId, name, amount) == SetSpent(a, eventId, name, amount) + SetSpent(b, eventId, name, amount)
  {
  }

  /** Reading one event's categories after the update is updating the categories read
      before it. */
  lemma {:induction false} CategoriesOfSetSpent(rows: seq<CategoryRow>, e: string, eventId: string, name: CategoryName, amount: real)
    ensures CategoriesOf(SetSpent(rows, eventId, name, amount), e) == SetSpent(CategoriesOf(rows, e), eventId, name, amount)
  {
    if rows != [] {
      var init := rows[..|rows| - 1];
      var last := rows[|rows| - 1];
      var updated := SetSpent(rows, eventId, name, amount);
      assert updated[..|updated| - 1] == SetSpent(init, eventId, name, amount);
      CategoriesOfSetSpent(init, e, eventId, name, amount);
      assert rows == init + [last];
      SetSpentAppend(CategoriesOf(init, e), if last.eventId == e then [last] else [], eventId, name, amount);
    }
  }

  /** The update never changes what any event has allocated: every event's budget keeps
      its total, and in the updated event every row of that name now shows the amount. */
  lemma SetSpentKeepsAllocations(rows: seq<CategoryRow>, e: string, eventId: string, name: CategoryName, amount: real)
    ensures Sum(CategoriesOf(SetSpent(rows, eventId, name, amount), e), EventsPage.RowAllocation)
         == Sum(CategoriesOf(rows, e), EventsPage.RowAllocation)
    ensures forall r :: r in CategoriesOf(SetSpent(rows, eventId, name, amount), eventId) && r.name == name ==>
      r.spent == amount
  {
    CategoriesOfSetSpent(rows, e, eventId, name, amount);
    var before := CategoriesOf(rows, e);
    SumTransfer(SetSpent(before, eventId, name, amount), EventsPage.RowAllocation, before, EventsPage.RowAllocation);
    CategoriesOfSetSpent(rows, eventId, eventId, name, amount);
    var mine := CategoriesOf(rows, eventId);
    forall r | r in CategoriesOf(SetSpent(rows, eventId, name, amount), eventId) && r.name == name
      ensures r.spent == amount
    {
      var i :| 0 <= i < |mine| && SetSpent(mine, eventId, name, amount)[i] == r;
      FilterMembership(rows, (x: CategoryRow) => x.eventId == eventId, mine[i]);
    }
  }

  /** The tables of the store. Event rows are kept without their joined categories.
      Every row has an id the store handed out from `nextId`, and no two rows of a table
      share one. */
  class Database {
    var events: seq<EventRow>
    var categories: seq<CategoryRow>
    var expenses: seq<Expense>
    var nextId: nat
    ghost var eventKeys: seq<nat>
    ghost var categoryKeys: seq<nat>
    ghost var expenseKeys: seq<nat>

    ghost predicate Valid()
      reads this
    {
      && Numbered(events, EventRowId, eventKeys, nextId)
      && Numbered(categories, CategoryRowId, categoryKeys, nextId)
      && Numbered(expenses, ExpenseId, expenseKeys, nextId)
    }

    constructor ()
      ensures Valid()
      ensures events == [] && categories == [] && expenses == [] && nextId == 0
    {
      events, categories, expenses, nextId := [], [], [], 0;
      eventKeys, categoryKeys, expenseKeys := [], [], [];
    }

    /** The budget an event's page reads back from the category table. */
    function BudgetOf(eventId: string): Budget
      reads this
    {
      BudgetPage.MakeBudget(eventId, CategoriesOf(categories, eventId))
    }

    /** `insert(row).select().single()` on the event table: the row is appended under a
        fresh id, which is returned. */
    method InsertEvent(row: EventRow) returns (id: string)
      requires Valid()
      modifies this
      ensures Valid()
      ensures id == IdText(old(nextId)) && nextId == old(nextId) + 1
      ensures forall i :: 0 <= i < |old(events)| ==> old(events)[i].id != id
      ensures events == old(events) + [row.(id := id, budgetCategories := None)]
      ensures categories == old(categories) && expenses == old(expenses)
    {
      id := IdText(nextId);
      NumberedDistinct(events, EventRowId, eventKeys, nextId);
      NumberedAppend(events, EventRowId, eventKeys, nextId, row.(id := id, budgetCategories := None));
      events := events + [row.(id := id, budgetCategories := None)];
      eventKeys := eventKeys + [nextId];
      nextId := nextId + 1;
    }

    /** `insert(rows)` on the category table: the rows are appended in order, under
        consecutive ids that no earlier row has. */
    method InsertCategories(batch: seq<CategoryInsert>)
      requires Valid()
      modifies this
      ensures Valid()
      ensures categories == old(categories) + WithIds(batch, old(nextId))
      ensures nextId == old(nextId) + |batch|
      ensures forall i, j :: 0 <= i < |old(categories)| && 0 <= j < |batch| ==>
        old(categories)[i].id != WithIds(batch, old(nextId))[j].id
      ensures events == old(events) && expenses == old(expenses)
    {
      NumberedBatch(categories, categoryKeys, nextId, batch);
      var all := categories + WithIds(batch, nextId);
      NumberedDistinct(all, CategoryRowId, categoryKeys + Consecutive(nextId, |batch|), nextId + |batch|);
      forall i, j | 0 <= i < |categories| && 0 <= j < |batch|
        ensures categories[i].id != WithIds(batch, nextId)[j].id
      {
        assert all[i] == categories[i] && all[|categories| + j] == WithIds(batch, nextId)[j];
      }
      categories := categories + WithIds(batch, nextId);
      categoryKeys := categoryKeys + Consecutive(nextId, |batch|);
      nextId := nextId + |batch|;
    }

    /** `insert(expense)` on the expense table: the expense is appended under a fresh id. */
    method InsertExpense(e: Expense) returns (id: string)
      requires Valid()
      modifies this
      ensures Valid()
      ensures id == IdText(old(nextId)) && nextId == old(nextId) + 1
      ensures forall i :: 0 <= i < |old(expenses)| ==> old(expenses)[i].id != id
      ensures expenses == old(expenses) + [e.(id := id)]
      ensures events == old(events) && categories == old(categories)
    {
      id := IdText(nextId);
      NumberedDistinct(expenses, ExpenseId, expenseKeys, nextId);
      NumberedAppend(expenses, ExpenseId, expenseKeys, nextId, e.(id := id));
      expenses := expenses + [e.(id := id)];
      expenseKeys := expenseKeys + [nextId];
      nextId := nextId + 1;
    }

    /** The filtered update of the spend of an event's categories of one name. */
    method UpdateSpent(eventId: string, name: CategoryName, amount: real)
      requires Valid()
      modifies this
      ensures Valid()
      ensures categories == SetSpent(old(categories), eventId, name, amount)
      ensures events == old(events) && expenses == old(expenses) && nextId == old(nextId)
    {
      categories := SetSpent(categories, eventId, name, amount);
    }
  }
}
