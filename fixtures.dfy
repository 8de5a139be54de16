/** The sample data of src/utils/mockData.ts, run through the model: the first and third
    events' stored totals agree with their categories, the second's does not. */
module Fixtures {
  import opened Types
  import opened Seqs
  import opened BudgetSummary
  import BudgetPage
  import Store

  function MockCategories(): seq<BudgetCategory>
  {
    [BudgetCategory("bc1", Venue, 5000.0, 4500.0),
     BudgetCategory("bc2", Catering, 3000.0, 2800.0),
     BudgetCategory("bc3", Marketing, 2000.0, 1500.0),
     BudgetCategory("bc4", Staff, 1500.0, 1200.0),
     BudgetCategory("bc5", Other, 1000.0, 600.0)]
  }

  /** `{ ...cat, allocated: cat.allocated * a, spent: cat.spent * s }` over the sample categories. */
  function Scaled(a: real, s: real): seq<BudgetCategory>
  {
    var m := MockCategories();
    seq(|m|, i requires 0 <= i < |m| => m[i].(allocation := m[i].allocation * a, spent := m[i].spent * s))
  }

  /** A five-row sum spelled out. */
  lemma SumOfFive<T>(m: seq<T>, f: T -> real)
    requires |m| == 5
    ensures Sum(m, f) == f(m[0]) + f(m[1]) + f(m[2]) + f(m[3]) + f(m[4])
  {
    assert m[..1][..0] == [];
    assert Sum(m[..1], f) == f(m[0]);
    assert m[..2][..1] == m[..1];
    assert Sum(m[..2], f) == Sum(m[..1], f) + f(m[1]);
    assert m[..3][..2] == m[..2];
    assert Sum(m[..3], f) == Sum(m[..2], f) + f(m[2]);
    assert m[..4][..3] == m[..3];
    assert Sum(m[..4], f) == Sum(m[..3], f) + f(m[3]);
    assert m[..4] == m[..|m| - 1];
  }

  lemma MockTotals()
    ensures TotalAllocated(MockCategories()) == 12500.0
    ensures TotalSpent(MockCategories()) == 10600.0
  {
    SumOfFive(MockCategories(), AllocationOf);
    SumOfFive(MockCategories(), SpentOf);
  }

  /** The first event: its stored 12500 is the sum of its categories; 10600 is spent,
      1900 remains, and 84.8% rounds to 85, which is the warning band. */
  lemma FirstEventSummary()
    ensures Consistent(Budget("b1", "1", 12500.0, MockCategories()))
    ensures Summarize(Budget("b1", "1", 12500.0, MockCategories())) == Summary(12500.0, 10600.0, 1900.0, Some(85))
    ensures BandOf(85) == WarningBar
  {
    MockTotals();
    assert 10600.0 / 12500.0 * 100.0 == 84.8;
  }

  lemma ScaledTotal(a: real, s: real)
    ensures TotalAllocated(Scaled(a, s)) == 12500.0 * a
  {
    SumOfFive(Scaled(a, s), AllocationOf);
  }

  /** The second event stores 8000, but its categories (70% of the sample) add up to
      8750: the record type lets the two disagree, and the card shows 8750. The third
      event's 15000 is its categories' sum. */
  lemma StoredTotalsOfOtherEvents()
    ensures TotalAllocated(Scaled(0.7, 0.5)) == 8750.0
    ensures !Consistent(Budget("b2", "2", 8000.0, Scaled(0.7, 0.5)))
    ensures Summarize(Budget("b2", "2", 8000.0, Scaled(0.7, 0.5))).totalAllocated == 8750.0
    ensures Consistent(Budget("b3", "3", 15000.0, Scaled(1.2, 0.8)))
  {
    ScaledTotal(0.7, 0.5);
    ScaledTotal(1.2, 0.8);
  }

  /** A budget spending 7300 of 8000 leaves 700 and reads 91%, the error band. */
  lemma NinetyOnePercentIsRed()
    ensures var b := Budget("b", "e", 8000.0, [BudgetCategory("c", Venue, 8000.0, 7300.0)]);
      Summarize(b) == Summary(8000.0, 7300.0, 700.0, Some(91)) && BandOf(91) == ErrorBar
  {
    SumSingleton(BudgetCategory("c", Venue, 8000.0, 7300.0), AllocationOf);
    SumSingleton(BudgetCategory("c", Venue, 8000.0, 7300.0), SpentOf);
    assert 7300.0 / 8000.0 * 100.0 == 91.25;
  }

  function MockExpenses(): seq<Expense>
  {
    [Expense("e1", "1", Venue, 4500.0, "Venue rental fee", "2025-05-20", Some("v1"), Some("receipt1.pdf"), Approved),
     Expense("e2", "1", Catering, 2800.0, "Catering services for 200 people", "2025-05-25", Some("v2"), Some("receipt2.pdf"), Approved),
     Expense("e3", "1", Marketing, 1500.0, "Social media campaign", "2025-05-10", Some("v3"), Some("receipt3.pdf"), Approved)]
  }

  /** The venue filter with no query lists just the venue rental. */
  lemma VenueFilter()
    ensures BudgetPage.FilteredExpenses(MockExpenses(), "", "venue") == [MockExpenses()[0]]
  {
    var m := MockExpenses();
    BudgetPage.FilteredExpensesMeaning(m, "", "venue", m[0]);
    Text.ContainsEmpty(Text.Lower(m[0].description));
    assert m[..2][..1][..0] == [];
  }

  /** Two expenses of 100 and then 50 for the event's venue leave its venue row showing
      50 spent, not 150: each expense overwrites the spend. */
  lemma SpendTracksLastExpense()
    ensures var rows := [CategoryRow("bc1", "1", Venue, 5000.0, 0.0)];
      var after := Store.SetSpent(Store.SetSpent(rows, "1", Venue, 100.0), "1", Venue, 50.0);
      after[0].spent == 50.0 && after[0].spent != 100.0 + 50.0
  {
    var rows := [CategoryRow("bc1", "1", Venue, 5000.0, 0.0)];
    Store.SetSpentOverwrites(rows, "1", Venue, 100.0, 50.0);
  }
}
