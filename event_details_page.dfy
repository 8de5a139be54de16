/** The event page (src/pages/EventDetailsPage.tsx): its three-stage fetch, the guest
    badge and the publish action. The row transform is `EventsPage.TransformEvent`, the
    header badge `EventCard.StatusBadgeVariant` and the category table
    `BudgetSummary.BreakdownTable`: the page repeats each of them as written there. */
module EventDetailsPage {
  import opened Types
  import opened BudgetSummary
  import EventsPage

  /** `confirmed` success, `declined` error, `attended` secondary, anything else warning. */
  function GuestBadge(status: string): Variant
  {
    if status == "confirmed" then Success
    else if status == "declined" then Error
    else if status == "attended" then Secondary
    else Warning
  }

  /** The four guest statuses get four different variants, and the default one is the
      invited status's. */
  lemma GuestBadgeTable(a: GuestStatus, b: GuestStatus)
    ensures GuestBadge(GuestStatusText(Invited)) == Warning
    ensures GuestBadge(GuestStatusText(Confirmed)) == Success
    ensures GuestBadge(GuestStatusText(a)) == GuestBadge(GuestStatusText(b)) ==> a == b
  {
  }

  /** The "Publish Event" quick action is offered only for a draft. */
  predicate ShowsPublishAction(e: Event)
  {
    EventStatusText(e.status) == "draft"
  }

  lemma PublishOnlyForDrafts(e: Event)
    ensures ShowsPublishAction(e) <==> e.status == Draft
  {
  }

  /** The page's state: the event (`None` until found), its attendees and guests. */
  class Page {
    var event: Option<Event>
    var attendees: seq<AttendeeRow>
    var guests: seq<Guest>
    var loading: bool

    constructor ()
      ensures event.None? && attendees == [] && guests == [] && loading
    {
      event, attendees, guests, loading := None, [], [], true;
    }

    /** `fetchEventDetails`, run only for a non-empty route id. The event is fetched and
        shown first, then the attendees, then the guests; the first failure stops the
        rest and keeps what was already set, and the page stops loading either way. */
    method FetchEventDetails(id: string, eventReply: Reply<EventRow>,
                             attendeesReply: Reply<seq<AttendeeRow>>, guestsReply: Reply<seq<Guest>>)
      modifies this
      ensures id == "" ==> event == old(event) && attendees == old(attendees) && guests == old(guests) && loading == old(loading)
      ensures id != "" ==> !loading
      ensures event == if id != "" && eventReply.Rows? then Some(EventsPage.TransformEvent(eventReply.data)) else old(event)
      ensures attendees ==
        if id != "" && eventReply.Rows? && attendeesReply.Rows? then attendeesReply.data else old(attendees)
      ensures guests ==
        if id != "" && eventReply.Rows? && attendeesReply.Rows? && guestsReply.Rows? then guestsReply.data else old(guests)
      ensures event.Some? && event != old(event) ==> Consistent(event.value.budget)
    {
      if id == "" {
        return;
      }
      if eventReply.Rows? {
        EventsPage.TransformMeaning(eventReply.data);
        event := Some(EventsPage.TransformEvent(eventReply.data));
        if attendeesReply.Rows? {
          attendees := attendeesReply.data;
          if guestsReply.Rows? {
            guests := guestsReply.data;
          }
        }
      }
      loading := false;
    }

    /** What the page shows: the loading text, "Event not found", or the event. */
    function Shown(): Option<Event>
      reads this
    {
      if loading then None else event
    }
  }
}
