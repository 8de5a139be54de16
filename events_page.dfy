/** The events list (src/pages/EventsPage.tsx): the storage-row to `Event` transform,
    which the dashboard and the event page repeat field for field, and the list filter. */
module EventsPage {
  import opened Types
  import opened Seqs
  import opened Text
  import opened BudgetSummary

  function RowAllocation(r: CategoryRow): real { r.allocation }

  /** `{ id, name, allocated, spent }` taken from a joined category row. */
  function ToCategory(r: CategoryRow): BudgetCategory
  {
    BudgetCategory(r.id, r.name, r.allocation, r.spent)
  }

  /** The row transform. `description || ''` turns a missing description into the empty
      text; `cover_image_url || undefined` drops a missing or empty URL; the budget's
      `id` and `eventId` are both the event's id; `totalBudget` is the sum of the joined
      categories' allocations, and 0 with the categories missing. */
  function TransformEvent(row: EventRow): Event
  {
    var cats := if row.budgetCategories.Some? then row.budgetCategories.value else [];
    Event(
      row.id,
      row.title,
      if row.description.Some? then row.description.value else "",
      row.startDate,
      row.endDate,
      row.location,
      row.status,
      if Truthy(row.coverImageUrl) then row.coverImageUrl else None,
      row.createdBy,
      Budget(row.id, row.id,
             if row.budgetCategories.Some? then Sum(cats, RowAllocation) else 0.0,
             if row.budgetCategories.Some? then seq(|cats|, i requires 0 <= i < |cats| => ToCategory(cats[i])) else []))
  }

  function TransformEvents(rows: seq<EventRow>): seq<Event>
  {
    seq(|rows|, i requires 0 <= i < |rows| => TransformEvent(rows[i]))
  }

  /** What the transform keeps: the budget it builds is consistent (its total is the
      sum of its categories' allocations), categories are mapped in order with their
      id, name, allocation and spend unchanged, and the optional texts get their defaults. */
  lemma TransformMeaning(row: EventRow)
    ensures Consistent(TransformEvent(row).budget)
    ensures TransformEvent(row).budget.id == row.id && TransformEvent(row).budget.eventId == row.id
    ensures row.budgetCategories.None? ==>
      TransformEvent(row).budget.totalBudget == 0.0 && TransformEvent(row).budget.categories == []
    ensures row.budgetCategories.Some? ==>
      var cats := row.budgetCategories.value;
      var out := TransformEvent(row).budget.categories;
      && |out| == |cats|
      && (forall i :: 0 <= i < |cats| ==>
            out[i].id == cats[i].id && out[i].name == cats[i].name &&
            out[i].allocation == cats[i].allocation && out[i].spent == cats[i].spent)
      && TransformEvent(row).budget.totalBudget == Sum(cats, RowAllocation)
    ensures TransformEvent(row).description == (if row.description.Some? then row.description.value else "")
    ensures TransformEvent(row).coverImageUrl.None? <==> !Truthy(row.coverImageUrl)
  {
    var e := TransformEvent(row);
    if row.budgetCategories.Some? {
      var cats := row.budgetCategories.value;
      assert |e.budget.categories| == |cats|;
      forall i | 0 <= i < |cats| ensures e.budget.categories[i] == ToCategory(cats[i]) {
      }
      SumTransfer(cats, RowAllocation, e.budget.categories, AllocationOf);
    }
  }

  /** Every event of a fetched list carries a consistent budget. */
  lemma TransformEventsConsistent(rows: seq<EventRow>)
    ensures |TransformEvents(rows)| == |rows|
    ensures forall i :: 0 <= i < |rows| ==> Consistent(TransformEvents(rows)[i].budget)
  {
    forall i | 0 <= i < |rows| ensures Consistent(TransformEvents(rows)[i].budget) {
      TransformMeaning(rows[i]);
    }
  }

  // ----- The list filter -----

  /** `statusFilter === 'all' || event.status === statusFilter` */
  predicate StatusPasses(status: EventStatus, statusFilter: string)
  {
    statusFilter == "all" || EventStatusText(status) == statusFilter
  }

  /** The title or the description contains the query, both lower-cased. */
  predicate EventMatches(e: Event, query: string, statusFilter: string)
  {
    && (Contains(Lower(e.title), Lower(query)) || Contains(Lower(e.description), Lower(query)))
    && StatusPasses(e.status, statusFilter)
  }

  function FilteredEvents(events: seq<Event>, query: string, statusFilter: string): seq<Event>
  {
    Filter(events, e => EventMatches(e, query, statusFilter))
  }

  /** The list shows exactly the matching events, as an order-preserving subsequence
      of the fetched ones, and filtering the shown list again changes nothing. */
  lemma FilteredEventsMeaning(events: seq<Event>, query: string, statusFilter: string, e: Event)
    ensures e in FilteredEvents(events, query, statusFilter) <==> e in events && EventMatches(e, query, statusFilter)
    ensures IsSubsequence(FilteredEvents(events, query, statusFilter), events)
    ensures FilteredEvents(FilteredEvents(events, query, statusFilter), query, statusFilter)
         == FilteredEvents(events, query, statusFilter)
  {
    var keep := e => EventMatches(e, query, statusFilter);
    FilterMembership(events, keep, e);
    FilterIsSubsequence(events, keep);
    FilterIdempotent(events, keep);
  }

  /** A match in the description alone keeps an event whose status passes. */
  lemma DescriptionMatchSuffices(events: seq<Event>, query: string, statusFilter: string, e: Event)
    requires e in events && StatusPasses(e.status, statusFilter)
    requires Contains(Lower(e.description), Lower(query))
    ensures e in FilteredEvents(events, query, statusFilter)
  {
    FilterMembership(events, e => EventMatches(e, query, statusFilter), e);
  }

  /** The empty query with "all" shows every event, in the fetched order. */
  lemma EmptyQueryShowsAll(events: seq<Event>)
    ensures FilteredEvents(events, "", "all") == events
  {
    forall i | 0 <= i < |events| ensures EventMatches(events[i], "", "all") {
      ContainsEmpty(Lower(events[i].title));
    }
    FilterKeepsAll(events, e => EventMatches(e, "", "all"));
  }

  /** Queries that differ only in letter case show the same list. */
  lemma QueryCaseIrrelevant(events: seq<Event>, q1: string, q2: string, statusFilter: string)
    requires Lower(q1) == Lower(q2)
    ensures FilteredEvents(events, q1, statusFilter) == FilteredEvents(events, q2, statusFilter)
  {
    FilterCongruent(events, e => EventMatches(e, q1, statusFilter), e => EventMatches(e, q2, statusFilter));
  }

  /** The page's state: the fetched events, the loading flag and the two filter inputs. */
  class Page {
    var events: seq<Event>
    var loading: bool
    var searchQuery: string
    var statusFilter: string

    constructor ()
      ensures events == [] && loading && searchQuery == "" && statusFilter == "all"
    {
      events, loading, searchQuery, statusFilter := [], true, "", "all";
    }

    /** `fetchEvents`: on success the transformed rows replace the list; either way the
        page stops loading. */
    method FetchEvents(reply: Reply<seq<EventRow>>)
      modifies this
      ensures !loading
      ensures events == if reply.Rows? then TransformEvents(reply.data) else old(events)
      ensures searchQuery == old(searchQuery) && statusFilter == old(statusFilter)
    {
      if reply.Rows? {
        events := TransformEvents(reply.data);
      }
      loading := false;
    }

    /** The cards the page shows. */
    function Visible(): seq<Event>
      reads this
    {
      FilteredEvents(events, searchQuery, statusFilter)
    }
  }
}
