/** The dashboard (src/pages/Dashboard.tsx): the four stat tiles, the recent-events
    grid and the budget overview. */
module Dashboard {
  import opened Types
  import opened Seqs
  import opened BudgetSummary
  import EventsPage

  datatype Stats = Stats(totalEvents: nat, totalAttendees: int, totalVendors: int, totalExpenses: real)

  /** `expensesData?.reduce((sum, e) => sum + e.amount, 0) || 0`: no rows read as 0. */
  function TotalExpenses(amounts: Option<seq<real>>): real
  {
    if amounts.Some? then Sum(amounts.value, Amount) else 0.0
  }

  /** Missing rows count as nothing, the total of two batches is the sum of their totals,
      and amounts that are never negative give a total that is not negative. */
  lemma TotalExpensesMeaning(a: seq<real>, b: seq<real>)
    ensures TotalExpenses(None) == 0.0 && TotalExpenses(Some([])) == 0.0
    ensures TotalExpenses(Some(a + b)) == TotalExpenses(Some(a)) + TotalExpenses(Some(b))
    ensures (forall i :: 0 <= i < |a| ==> 0.0 <= a[i]) ==> 0.0 <= TotalExpenses(Some(a))
  {
    SumAppend(a, b, Amount);
    if forall i :: 0 <= i < |a| ==> 0.0 <= a[i] {
      SumNonNegative(a, Amount);
    }
  }

  /** A count the store did not give (`count || 0`) reads as 0. */
  function CountOrZero(count: Option<int>): int
  {
    if count.Some? then count.value else 0
  }

  /** The tiles: the number of event rows, the two counts, and the expense total. */
  function MakeStats(eventRows: nat, attendeesCount: Option<int>, vendorsCount: Option<int>,
                     expenseAmounts: Option<seq<real>>): Stats
  {
    Stats(eventRows, CountOrZero(attendeesCount), CountOrZero(vendorsCount), TotalExpenses(expenseAmounts))
  }

  lemma MakeStatsMeaning(eventRows: nat, attendeesCount: Option<int>, vendorsCount: Option<int>,
                         expenseAmounts: Option<seq<real>>)
    ensures MakeStats(eventRows, attendeesCount, vendorsCount, expenseAmounts).totalEvents == eventRows
    ensures attendeesCount.None? ==> MakeStats(eventRows, attendeesCount, vendorsCount, expenseAmounts).totalAttendees == 0
    ensures vendorsCount.None? ==> MakeStats(eventRows, attendeesCount, vendorsCount, expenseAmounts).totalVendors == 0
    ensures attendeesCount.Some? ==>
      MakeStats(eventRows, attendeesCount, vendorsCount, expenseAmounts).totalAttendees == attendeesCount.value
    ensures vendorsCount.Some? ==>
      MakeStats(eventRows, attendeesCount, vendorsCount, expenseAmounts).totalVendors == vendorsCount.value
  {
  }

  /** `events.slice(0, 4)` */
  function RecentEvents(events: seq<Event>): seq<Event>
  {
    if |events| <= 4 then events else events[..4]
  }

  /** The grid shows the first min(4, n) events, in order. */
  lemma RecentEventsMeaning(events: seq<Event>)
    ensures |RecentEvents(events)| == if |events| < 4 then |events| else 4
    ensures RecentEvents(events) <= events
    ensures forall e :: e in RecentEvents(events) ==> e in events
  {
  }

  /** `events[0]?.budget`: the first event's budget, or nothing with no events. */
  function BudgetOverview(events: seq<Event>): Option<Budget>
  {
    if |events| > 0 then Some(events[0].budget) else None
  }

  /** The overview shows a budget exactly when there is an event; for a fetched list it
      is the first row's transformed budget, which is consistent. */
  lemma BudgetOverviewMeaning(rows: seq<EventRow>)
    ensures BudgetOverview(EventsPage.TransformEvents(rows)).Some? <==> |rows| > 0
    ensures |rows| > 0 ==>
      BudgetOverview(EventsPage.TransformEvents(rows)) == Some(EventsPage.TransformEvent(rows[0]).budget)
    ensures |rows| > 0 ==> Consistent(BudgetOverview(EventsPage.TransformEvents(rows)).value)
  {
    if |rows| > 0 {
      EventsPage.TransformMeaning(rows[0]);
    }
  }

  class Page {
    var events: seq<Event>
    var loading: bool
    var stats: Stats

    constructor ()
      ensures events == [] && loading && stats == Stats(0, 0, 0, 0.0)
    {
      events, loading, stats := [], true, Stats(0, 0, 0, 0.0);
    }

    /** `fetchDashboardData`: a failed event request leaves the events and the stats as
        they were; otherwise the transformed events are shown and the stats are taken
        from the rows and the three other answers. Loading ends either way. */
    method FetchDashboardData(eventsReply: Reply<seq<EventRow>>, attendeesCount: Option<int>,
                              vendorsCount: Option<int>, expenseAmounts: Option<seq<real>>)
      modifies this
      ensures !loading
      ensures events == if eventsReply.Rows? then EventsPage.TransformEvents(eventsReply.data) else old(events)
      ensures stats ==
        if eventsReply.Rows? then MakeStats(|eventsReply.data|, attendeesCount, vendorsCount, expenseAmounts)
        else old(stats)
      ensures eventsReply.Rows? ==> stats.totalEvents == |events|
    {
      if eventsReply.Rows? {
        events := EventsPage.TransformEvents(eventsReply.data);
        stats := MakeStats(|eventsReply.data|, attendeesCount, vendorsCount, expenseAmounts);
      }
      loading := false;
    }
  }
}
