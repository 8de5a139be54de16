/** The event card (src/components/dashboard/EventCard.tsx): the status badge, the
    cover-image placeholder and the details link. The event page's header badge
    (src/pages/EventDetailsPage.tsx) is the same switch, case for case. */
module EventCard {
  import opened Types
  import EventsPage

  /** The `switch (event.status)`: the comparison is on the status text, so any text
      outside the four statuses reaches the default. */
  function StatusBadgeVariant(status: string): Variant
  {
    if status == "published" then Success
    else if status == "draft" then Warning
    else if status == "canceled" then Error
    else if status == "completed" then Secondary
    else Primary
  }

  /** The four statuses get four different variants, none of them the default,
      so the badge tells the statuses apart; only other texts give the default. */
  lemma StatusBadgeDistinguishes(a: EventStatus, b: EventStatus, other: string)
    ensures StatusBadgeVariant(EventStatusText(a)) != Primary
    ensures StatusBadgeVariant(EventStatusText(a)) == StatusBadgeVariant(EventStatusText(b)) ==> a == b
    ensures (forall s: EventStatus :: EventStatusText(s) != other) ==> StatusBadgeVariant(other) == Primary
  {
    if forall s: EventStatus :: EventStatusText(s) != other {
      assert EventStatusText(Published) != other && EventStatusText(Draft) != other;
      assert EventStatusText(Canceled) != other && EventStatusText(Completed) != other;
    }
  }

  /** The table itself: published, draft, canceled, completed. */
  lemma StatusBadgeTable()
    ensures StatusBadgeVariant("published") == Success
    ensures StatusBadgeVariant("draft") == Warning
    ensures StatusBadgeVariant("canceled") == Error
    ensures StatusBadgeVariant("completed") == Secondary
  {
  }

  /** The grey calendar placeholder stands in for the image when the URL is absent or empty. */
  predicate ShowsPlaceholder(e: Event)
  {
    !Truthy(e.coverImageUrl)
  }

  /** For a fetched event the placeholder shows exactly when the stored URL is null or
      empty, and otherwise the stored URL is the image shown. */
  lemma PlaceholderForRow(row: EventRow)
    ensures ShowsPlaceholder(EventsPage.TransformEvent(row)) <==> row.coverImageUrl.None? || row.coverImageUrl == Some("")
    ensures !ShowsPlaceholder(EventsPage.TransformEvent(row)) ==> EventsPage.TransformEvent(row).coverImageUrl == row.coverImageUrl
  {
  }

  function DetailsLink(e: Event): string
  {
    "/events/" + e.id
  }

  /** The link names the event: it starts with "/events/" and what follows is the id. */
  lemma DetailsLinkNamesEvent(e: Event, f: Event)
    ensures |DetailsLink(e)| == 8 + |e.id|
    ensures "/events/" <= DetailsLink(e) && DetailsLink(e)[8..] == e.id
    ensures DetailsLink(e) == DetailsLink(f) <==> e.id == f.id
  {
    if DetailsLink(e) == DetailsLink(f) {
      assert DetailsLink(e)[8..] == DetailsLink(f)[8..];
    }
  }
}
