/** The budget page (src/pages/BudgetPage.tsx): the budget it builds from the fetched
    category rows, the expense filter, and the state its two loaders update. */
module BudgetPage {
  import opened Types
  import opened Seqs
  import opened Text
  import opened BudgetSummary
  import EventsPage

  /** `loadBudgetData`'s budget: both ids are the selected event's, the total is the
      sum of the fetched allocations, and the categories are the fetched rows. */
  function MakeBudget(eventId: string, rows: seq<CategoryRow>): Budget
  {
    Budget(eventId, eventId, Sum(rows, EventsPage.RowAllocation),
           seq(|rows|, i requires 0 <= i < |rows| => EventsPage.ToCategory(rows[i])))
  }

  /** The built budget is consistent and keeps every fetched row in order with its id,
      name, allocation and spend. */
  lemma MakeBudgetMeaning(eventId: string, rows: seq<CategoryRow>)
    ensures Consistent(MakeBudget(eventId, rows))
    ensures MakeBudget(eventId, rows).id == eventId && MakeBudget(eventId, rows).eventId == eventId
    ensures |MakeBudget(eventId, rows).categories| == |rows|
    ensures forall i :: 0 <= i < |rows| ==>
      var c := MakeBudget(eventId, rows).categories[i];
      c.id == rows[i].id && c.name == rows[i].name && c.allocation == rows[i].allocation && c.spent == rows[i].spent
  {
    var b := MakeBudget(eventId, rows);
    SumTransfer(rows, EventsPage.RowAllocation, b.categories, AllocationOf);
  }

  /** It is the budget the event transform builds from the same rows, so the budget page
      and the event page show the same numbers for an event. */
  lemma MakeBudgetIsTransform(rows: seq<CategoryRow>, row: EventRow)
    requires row.budgetCategories == Some(rows)
    ensures EventsPage.TransformEvent(row).budget == MakeBudget(row.id, rows)
  {
  }

  // ----- The expense filter -----

  /** `categoryFilter === "all" || expense.category === categoryFilter`, and the
      description contains the query, both lower-cased. */
  predicate ExpenseMatches(e: Expense, query: string, categoryFilter: string)
  {
    && (categoryFilter == "all" || CategoryText(e.category) == categoryFilter)
    && Contains(Lower(e.description), Lower(query))
  }

  function FilteredExpenses(expenses: seq<Expense>, query: string, categoryFilter: string): seq<Expense>
  {
    Filter(expenses, e => ExpenseMatches(e, query, categoryFilter))
  }

  /** Exactly the matching expenses, as an order-preserving subsequence; filtering the
      result again changes nothing. */
  lemma FilteredExpensesMeaning(expenses: seq<Expense>, query: string, categoryFilter: string, e: Expense)
    ensures e in FilteredExpenses(expenses, query, categoryFilter) <==> e in expenses && ExpenseMatches(e, query, categoryFilter)
    ensures IsSubsequence(FilteredExpenses(expenses, query, categoryFilter), expenses)
    ensures FilteredExpenses(FilteredExpenses(expenses, query, categoryFilter), query, categoryFilter)
         == FilteredExpenses(expenses, query, categoryFilter)
  {
    var keep := e => ExpenseMatches(e, query, categoryFilter);
    FilterMembership(expenses, keep, e);
    FilterIsSubsequence(expenses, keep);
    FilterIdempotent(expenses, keep);
  }

  /** "all" with the empty query lists every expense, in order. */
  lemma EmptyQueryShowsAll(expenses: seq<Expense>)
    ensures FilteredExpenses(expenses, "", "all") == expenses
  {
    forall i | 0 <= i < |expenses| ensures ExpenseMatches(expenses[i], "", "all") {
      ContainsEmpty(Lower(expenses[i].description));
    }
    FilterKeepsAll(expenses, e => ExpenseMatches(e, "", "all"));
  }

  /** Queries that differ only in letter case list the same expenses. */
  lemma QueryCaseIrrelevant(expenses: seq<Expense>, q1: string, q2: string, categoryFilter: string)
    requires Lower(q1) == Lower(q2)
    ensures FilteredExpenses(expenses, q1, categoryFilter) == FilteredExpenses(expenses, q2, categoryFilter)
  {
    FilterCongruent(expenses, e => ExpenseMatches(e, q1, categoryFilter), e => ExpenseMatches(e, q2, categoryFilter));
  }

  /** A category filter that names none of the five categories (and is not "all") lists nothing. */
  lemma UnknownCategoryListsNothing(expenses: seq<Expense>, query: string, categoryFilter: string)
    requires categoryFilter != "all" && ParseCategoryName(categoryFilter).None?
    ensures FilteredExpenses(expenses, query, categoryFilter) == []
  {
    var r := FilteredExpenses(expenses, query, categoryFilter);
    if r != [] {
      CategoryTextRoundTrip(r[0].category);
    }
  }

  /** The page's state. `budget` stays `None` (the page shows "Loading...") until the
      first budget load succeeds. */
  class Page {
    var selectedEvent: string
    var events: seq<EventRow>
    var expenses: seq<Expense>
    var budget: Option<Budget>
    var categoryFilter: string
    var searchQuery: string

    /** A budget on the page is always consistent. */
    predicate Valid()
      reads this
    {
      budget.Some? ==> Consistent(budget.value)
    }

    constructor ()
      ensures Valid()
      ensures selectedEvent == "" && events == [] && expenses == [] && budget.None?
      ensures categoryFilter == "all" && searchQuery == ""
    {
      selectedEvent, events, expenses, budget := "", [], [], None;
      categoryFilter, searchQuery := "all", "";
    }

    /** `loadEvents`: on success the list is replaced and the first event becomes the
        selected one; an empty list or a failure leaves the selection alone. */
    method LoadEvents(reply: Reply<seq<EventRow>>)
      modifies this
      ensures events == if reply.Rows? then reply.data else old(events)
      ensures selectedEvent == if reply.Rows? && |reply.data| > 0 then reply.data[0].id else old(selectedEvent)
      ensures expenses == old(expenses) && budget == old(budget)
      ensures categoryFilter == old(categoryFilter) && searchQuery == old(searchQuery)
    {
      if reply.Rows? {
        events := reply.data;
        if |reply.data| > 0 {
          selectedEvent := reply.data[0].id;
        }
      }
    }

    /** `loadBudgetData`, run by the effect only while an event is selected. The two
        requests are awaited together: if either fails, nothing changes; otherwise the
        budget is rebuilt from the category rows and the expenses are replaced. */
    method LoadBudgetData(categoriesReply: Reply<seq<CategoryRow>>, expensesReply: Reply<seq<Expense>>)
      requires Valid()
      modifies this
      ensures var loaded := old(selectedEvent) != "" && categoriesReply.Rows? && expensesReply.Rows?;
        && budget == (if loaded then Some(MakeBudget(old(selectedEvent), categoriesReply.data)) else old(budget))
        && expenses == (if loaded then expensesReply.data else old(expenses))
      ensures Valid()
      ensures selectedEvent == old(selectedEvent) && events == old(events)
      ensures categoryFilter == old(categoryFilter) && searchQuery == old(searchQuery)
    {
      if selectedEvent != "" && categoriesReply.Rows? && expensesReply.Rows? {
        var b := MakeBudget(selectedEvent, categoriesReply.data);
        MakeBudgetMeaning(selectedEvent, categoriesReply.data);
        budget := Some(b);
        expenses := expensesReply.data;
      }
    }

    /** The expenses the page lists. */
    function Visible(): seq<Expense>
      reads this
    {
      FilteredExpenses(expenses, searchQuery, categoryFilter)
    }

    /** The category table, present once a budget is loaded. */
    function Table(): seq<CategoryStats>
      reads this
    {
      if budget.Some? then BreakdownTable(budget.value.categories) else []
    }
  }
}
