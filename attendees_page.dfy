/** The attendees list (src/pages/AttendeesPage.tsx): the null-safe filter, the status
    badge, and the two state fields the event selector drives. */
module AttendeesPage {
  import opened Types
  import opened Seqs
  import opened Text

  /** `field?.toLowerCase().includes(query.toLowerCase())`: a missing field is falsy. */
  predicate FieldMatches(field: Option<string>, query: string)
  {
    field.Some? && Contains(Lower(field.value), Lower(query))
  }

  predicate AttendeeMatches(a: AttendeeRow, query: string, eventFilter: string)
  {
    && (FieldMatches(a.name, query) || FieldMatches(a.email, query))
    && (eventFilter == "all" || a.eventId == eventFilter)
  }

  function FilteredAttendees(rows: seq<AttendeeRow>, query: string, eventFilter: string): seq<AttendeeRow>
  {
    Filter(rows, a => AttendeeMatches(a, query, eventFilter))
  }

  /** Exactly the matching attendees, as an order-preserving subsequence. */
  lemma FilteredAttendeesMeaning(rows: seq<AttendeeRow>, query: string, eventFilter: string, a: AttendeeRow)
    ensures a in FilteredAttendees(rows, query, eventFilter) <==> a in rows && AttendeeMatches(a, query, eventFilter)
    ensures IsSubsequence(FilteredAttendees(rows, query, eventFilter), rows)
    ensures FilteredAttendees(FilteredAttendees(rows, query, eventFilter), query, eventFilter)
         == FilteredAttendees(rows, query, eventFilter)
  {
    var keep := a => AttendeeMatches(a, query, eventFilter);
    FilterMembership(rows, keep, a);
    FilterIsSubsequence(rows, keep);
    FilterIdempotent(rows, keep);
  }

  /** An attendee with neither name nor email never shows, not even for the empty
      query; with one of them, the empty query and "all" show it. */
  lemma MissingFieldsExclude(rows: seq<AttendeeRow>, a: AttendeeRow, query: string, eventFilter: string)
    requires a in rows
    ensures a.name.None? && a.email.None? ==> a !in FilteredAttendees(rows, query, eventFilter)
    ensures a.name.Some? || a.email.Some? ==> a in FilteredAttendees(rows, "", "all")
  {
    FilterMembership(rows, a => AttendeeMatches(a, query, eventFilter), a);
    FilterMembership(rows, a => AttendeeMatches(a, "", "all"), a);
    if a.name.Some? {
      ContainsEmpty(Lower(a.name.value));
    }
    if a.email.Some? {
      ContainsEmpty(Lower(a.email.value));
    }
  }

  /** `attended` success, `no-show` error, `canceled` warning, anything else primary. */
  function AttendeeBadge(status: string): Variant
  {
    if status == "attended" then Success
    else if status == "no-show" then Error
    else if status == "canceled" then Warning
    else Primary
  }

  /** The four statuses get four different variants; the default is the registered one. */
  lemma AttendeeBadgeTable(a: AttendeeStatus, b: AttendeeStatus)
    ensures AttendeeBadge(AttendeeStatusText(Registered)) == Primary
    ensures AttendeeBadge(AttendeeStatusText(a)) == AttendeeBadge(AttendeeStatusText(b)) ==> a == b
  {
  }

  class Page {
    var searchQuery: string
    var eventFilter: string
    var selectedEventId: string
    var isAddingAttendee: bool
    var loading: bool
    var events: seq<EventRow>
    var attendees: seq<AttendeeRow>

    constructor ()
      ensures searchQuery == "" && eventFilter == "all" && selectedEventId == ""
      ensures !isAddingAttendee && loading && events == [] && attendees == []
    {
      searchQuery, eventFilter, selectedEventId := "", "all", "";
      isAddingAttendee, loading, events, attendees := false, true, [], [];
    }

    /** `fetchEvents` and the effect on `events`: on success the rows replace the list,
        and an unset selected event defaults to the first event. */
    method FetchEvents(reply: Reply<seq<EventRow>>)
      modifies this
      ensures events == if reply.Rows? then reply.data else old(events)
      ensures selectedEventId ==
        if reply.Rows? && |reply.data| > 0 && old(selectedEventId) == "" then reply.data[0].id
        else old(selectedEventId)
      ensures eventFilter == old(eventFilter) && searchQuery == old(searchQuery)
      ensures attendees == old(attendees) && isAddingAttendee == old(isAddingAttendee) && loading == old(loading)
    {
      if reply.Rows? {
        events := reply.data;
        if |events| > 0 && selectedEventId == "" {
          selectedEventId := events[0].id;
        }
      }
    }

    /** `fetchAttendees`: the rows replace the list on success; loading ends either way. */
    method FetchAttendees(reply: Reply<seq<AttendeeRow>>)
      modifies this
      ensures !loading
      ensures attendees == if reply.Rows? then reply.data else old(attendees)
      ensures events == old(events) && selectedEventId == old(selectedEventId) && eventFilter == old(eventFilter)
      ensures searchQuery == old(searchQuery) && isAddingAttendee == old(isAddingAttendee)
    {
      loading := true;
      if reply.Rows? {
        attendees := reply.data;
      }
      loading := false;
    }

    /** The event selector: a specific event also becomes the selected one for adding;
        "all" leaves the selected event as it was. */
    method OnEventFilterChange(value: string)
      modifies this
      ensures eventFilter == value
      ensures selectedEventId == if value != "all" then value else old(selectedEventId)
      ensures searchQuery == old(searchQuery) && events == old(events) && attendees == old(attendees)
      ensures isAddingAttendee == old(isAddingAttendee) && loading == old(loading)
    {
      eventFilter := value;
      if value != "all" {
        selectedEventId := value;
      }
    }

    /** `handleAddAttendee`: the dialog opens only with an event selected; otherwise the
        user is alerted and nothing changes. */
    method HandleAddAttendee() returns (alerted: bool)
      modifies this
      ensures alerted <==> old(selectedEventId) == ""
      ensures isAddingAttendee == (old(isAddingAttendee) || !alerted)
      ensures searchQuery == old(searchQuery) && eventFilter == old(eventFilter)
      ensures selectedEventId == old(selectedEventId) && events == old(events)
      ensures attendees == old(attendees) && loading == old(loading)
    {
      alerted := selectedEventId == "";
      if !alerted {
        isAddingAttendee := true;
      }
    }

    function Visible(): seq<AttendeeRow>
      reads this
    {
      FilteredAttendees(attendees, searchQuery, eventFilter)
    }
  }
}
