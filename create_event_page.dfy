/** The create-event page (src/pages/CreateEventPage.tsx): `handleSubmit` inserts the
    event, then its five empty budget categories, then navigates to the new event. */
module CreateEventPage {
  import opened Types
  import opened Seqs
  import opened BudgetSummary
  import opened Store
  import BudgetPage

  /** The fixed system user every new event is created by. */
  const SystemUser: string := "00000000-0000-0000-0000-000000000000"

  /** What the event form hands over. The dates are passed through as entered: the
      conversion to ISO text is not modelled. */
  datatype EventDraft = EventDraft(title: string, description: Option<string>, startDate: string,
                                   endDate: string, location: string, status: EventStatus,
                                   coverImageUrl: Option<string>)

  /** The answer to `insert(...).select().single()`: an error, no row, or the new row. */
  datatype EventInsert = InsertFailed | NoRowReturned | RowReturned

  /** The event row sent to the store (the store assigns the id). */
  function EventRowOf(d: EventDraft): EventRow
  {
    EventRow("", d.title, d.description, d.startDate, d.endDate, d.location, d.status, d.coverImageUrl,
             SystemUser, None)
  }

  /** The five default categories for a new event, in this order, nothing allocated or spent. */
  function DefaultCategories(eventId: string): seq<CategoryInsert>
  {
    [CategoryInsert(eventId, Venue, 0.0, 0.0), CategoryInsert(eventId, Catering, 0.0, 0.0),
     CategoryInsert(eventId, Marketing, 0.0, 0.0), CategoryInsert(eventId, Staff, 0.0, 0.0),
     CategoryInsert(eventId, Other, 0.0, 0.0)]
  }

  /** Exactly five rows, one per category name in the order venue, catering, marketing,
      staff, other, all carrying the new event's id with nothing allocated or spent;
      every category name appears once. */
  lemma DefaultCategoriesMeaning(eventId: string, n: CategoryName)
    ensures |DefaultCategories(eventId)| == 5
    ensures forall i :: 0 <= i < 5 ==>
      var c := DefaultCategories(eventId)[i];
      c.eventId == eventId && c.allocation == 0.0 && c.spent == 0.0
    ensures exists i :: 0 <= i < 5 && DefaultCategories(eventId)[i].name == n
    ensures forall i, j :: 0 <= i < j < 5 ==> DefaultCategories(eventId)[i].name != DefaultCategories(eventId)[j].name
  {
    match n
    case Venue => assert DefaultCategories(eventId)[0].name == n;
    case Catering => assert DefaultCategories(eventId)[1].name == n;
    case Marketing => assert DefaultCategories(eventId)[2].name == n;
    case Staff => assert DefaultCategories(eventId)[3].name == n;
    case Other => assert DefaultCategories(eventId)[4].name == n;
  }

  /** A new event's budget, read back from its five default rows, totals 0 and so has
      no percentage: the card divides by a zero total. */
  lemma FreshBudgetIsEmpty(eventId: string, first: nat)
    ensures Consistent(BudgetPage.MakeBudget(eventId, WithIds(DefaultCategories(eventId), first)))
    ensures BudgetPage.MakeBudget(eventId, WithIds(DefaultCategories(eventId), first)).totalBudget == 0.0
    ensures Summarize(BudgetPage.MakeBudget(eventId, WithIds(DefaultCategories(eventId), first))).spentPercentage.None?
  {
    var rows := WithIds(DefaultCategories(eventId), first);
    BudgetPage.MakeBudgetMeaning(eventId, rows);
    SumOfZeros(BudgetPage.MakeBudget(eventId, rows).categories, AllocationOf);
  }

  class Page {
    var isLoading: bool

    constructor ()
      ensures !isLoading
    {
      isLoading := false;
    }

    /** `handleSubmit`. The five categories are inserted only after the event insert
        returns a row, and they carry that row's id; navigation to "/events/<id>" happens
        only when both inserts succeed. A failed category insert leaves the event
        stored without categories. */
    method HandleSubmit(db: Database, draft: EventDraft, eventInsert: EventInsert, categoriesOk: bool)
      returns (navigateTo: Option<string>)
      requires db.Valid()
      modifies this, db
      ensures db.Valid()
      ensures db.nextId == old(db.nextId)
        + (if eventInsert == RowReturned then 1 else 0)
        + (if eventInsert == RowReturned && categoriesOk then 5 else 0)
      ensures !isLoading
      ensures var id := IdText(old(db.nextId));
        && db.events == (if eventInsert == RowReturned then old(db.events) + [EventRowOf(draft).(id := id)] else old(db.events))
        && db.categories == (if eventInsert == RowReturned && categoriesOk
             then old(db.categories) + WithIds(DefaultCategories(id), old(db.nextId) + 1)
             else old(db.categories))
        && navigateTo == (if eventInsert == RowReturned && categoriesOk then Some("/events/" + id) else None)
      ensures db.expenses == old(db.expenses)
    {
      isLoading := true;
      navigateTo := None;
      if eventInsert == RowReturned {
        var id := db.InsertEvent(EventRowOf(draft));
        if categoriesOk {
          db.InsertCategories(DefaultCategories(id));
          navigateTo := Some("/events/" + id);
        }
      }
      isLoading := false;
    }
  }
}
