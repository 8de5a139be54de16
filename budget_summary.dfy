/** The budget arithmetic of the summary card (src/components/dashboard/BudgetSummary.tsx),
    and the per-category row of the budget tables on the budget page and the event page,
    which repeat the same formula and the same colour thresholds. */
module BudgetSummary {
  import opened Types
  import opened Seqs
  import opened Text

  function AllocationOf(c: BudgetCategory): real { c.allocation }

  function SpentOf(c: BudgetCategory): real { c.spent }

  /** `categories.reduce((sum, cat) => sum + cat.allocated, 0)` */
  function TotalAllocated(cats: seq<BudgetCategory>): real
  {
    Sum(cats, AllocationOf)
  }

  /** `categories.reduce((sum, cat) => sum + cat.spent, 0)` */
  function TotalSpent(cats: seq<BudgetCategory>): real
  {
    Sum(cats, SpentOf)
  }

  /** The total stored in a budget is the sum of its categories' allocations.
      The record type does not enforce this; every place that builds a budget must. */
  predicate Consistent(b: Budget)
  {
    b.totalBudget == TotalAllocated(b.categories)
  }

  /** `Math.round(x)`: the nearest integer, halves going up. */
  function Round(x: real): (r: int)
    ensures r as real - 0.5 <= x < r as real + 0.5
  {
    (x + 0.5).Floor
  }

  lemma RoundMonotone(x: real, y: real)
    requires x <= y
    ensures Round(x) <= Round(y)
  {
  }

  lemma RoundOfInteger(n: int)
    ensures Round(n as real) == n
  {
  }

  /** `Math.round((part / whole) * 100)`. The card divides without a guard; a zero
      whole gives a value that is not a finite number, which is left out here. */
  function Percent(part: real, whole: real): int
    requires whole != 0.0
  {
    Round(part / whole * 100.0)
  }

  /** The colour of a progress bar: `p > 90 ? error : p > 75 ? warning : success`. */
  datatype BarColour = ErrorBar | WarningBar | SuccessBar

  function BandOf(percent: int): BarColour
  {
    if percent > 90 then ErrorBar else if percent > 75 then WarningBar else SuccessBar
  }

  function Severity(c: BarColour): nat
  {
    match c
    case SuccessBar => 0
    case WarningBar => 1
    case ErrorBar => 2
  }

  /** The boundaries: 91 is error, 90 and 76 are warning, 75 is success. */
  lemma BandBoundaries()
    ensures BandOf(91) == ErrorBar
    ensures BandOf(90) == WarningBar && BandOf(76) == WarningBar
    ensures BandOf(75) == SuccessBar
  {
  }

  /** A higher percentage never gives a milder colour. */
  lemma BandMonotone(p: int, q: int)
    requires p <= q
    ensures Severity(BandOf(p)) <= Severity(BandOf(q))
  {
  }

  /** The thresholds stated on the amounts themselves: after rounding, the bar is red
      exactly when at least 90.5% is spent, and green exactly when less than 75.5% is. */
  lemma BandOfAmounts(spent: real, allocation: real)
    requires allocation > 0.0
    ensures BandOf(Percent(spent, allocation)) == ErrorBar <==> 200.0 * spent >= 181.0 * allocation
    ensures BandOf(Percent(spent, allocation)) == SuccessBar <==> 200.0 * spent < 151.0 * allocation
  {
    var x := spent / allocation * 100.0;
    assert x * allocation == 100.0 * spent;
    assert x >= 90.5 <==> 200.0 * spent >= 181.0 * allocation by {
      if x >= 90.5 {
        assert x * allocation >= 90.5 * allocation;
      } else {
        assert x * allocation < 90.5 * allocation;
      }
    }
    assert x >= 75.5 <==> 200.0 * spent >= 151.0 * allocation by {
      if x >= 75.5 {
        assert x * allocation >= 75.5 * allocation;
      } else {
        assert x * allocation < 75.5 * allocation;
      }
    }
  }

  /** Within budget, the percentage lies between 0 and 100. */
  lemma PercentWithinBudget(spent: real, allocation: real)
    requires allocation > 0.0 && 0.0 <= spent <= allocation
    ensures 0 <= Percent(spent, allocation) <= 100
  {
    var x := spent / allocation * 100.0;
    assert x * allocation == 100.0 * spent;
    assert 0.0 <= x <= 100.0;
    RoundMonotone(0.0, x);
    RoundMonotone(x, 100.0);
    RoundOfInteger(0);
    RoundOfInteger(100);
  }

  /** The percentage is not capped: spending twice the allocation reads 200%, and the bar
      width uses that value as it is. */
  lemma PercentNotCapped(allocation: real)
    requires allocation > 0.0
    ensures Percent(2.0 * allocation, allocation) == 200
    ensures BandOf(Percent(2.0 * allocation, allocation)) == ErrorBar
  {
    assert 2.0 * allocation / allocation == 2.0;
    RoundOfInteger(200);
  }

  // ----- The summary card -----

  datatype Summary = Summary(totalAllocated: real, totalSpent: real, remaining: real, spentPercentage: Option<int>)

  /** The card's four values. `spentPercentage` is `None` where the card divides by a
      zero total and shows a value that is not a finite number. */
  function Summarize(b: Budget): Summary
  {
    var allocation := TotalAllocated(b.categories);
    var spent := TotalSpent(b.categories);
    Summary(allocation, spent, allocation - spent,
            if allocation == 0.0 then None else Some(Percent(spent, allocation)))
  }

  /** The card's numbers for any budget: totals over the categories, remaining without
      clamping, and a percentage exactly when the total allocation is not zero. A
      consistent budget's stored total is the total the card shows. */
  lemma SummaryMeaning(b: Budget)
    ensures Summarize(b).remaining == Summarize(b).totalAllocated - Summarize(b).totalSpent
    ensures Summarize(b).spentPercentage.Some? <==> TotalAllocated(b.categories) != 0.0
    ensures Consistent(b) ==> Summarize(b).totalAllocated == b.totalBudget
    ensures b.categories == [] ==> Summarize(b) == Summary(0.0, 0.0, 0.0, None)
  {
  }

  /** If no category is overspent, neither is the budget: remaining is not negative and
      the percentage, when there is one, is at most 100. */
  lemma SummaryWithinBudget(b: Budget)
    requires forall i :: 0 <= i < |b.categories| ==> 0.0 <= b.categories[i].spent <= b.categories[i].allocation
    ensures Summarize(b).remaining >= 0.0
    ensures Summarize(b).spentPercentage.Some? ==> 0 <= Summarize(b).spentPercentage.value <= 100
  {
    SumMonotone(b.categories, SpentOf, AllocationOf);
    SumNonNegative(b.categories, SpentOf);
    var s := Summarize(b);
    if s.spentPercentage.Some? {
      PercentWithinBudget(s.totalSpent, s.totalAllocated);
    }
  }

  /** Adding categories adds their allocations to the total. */
  lemma TotalAllocatedAppend(a: seq<BudgetCategory>, b: seq<BudgetCategory>)
    ensures TotalAllocated(a + b) == TotalAllocated(a) + TotalAllocated(b)
  {
    SumAppend(a, b, AllocationOf);
  }

  /** Doughnut labels: one per category, in order, the name with its first letter upper-cased. */
  function ChartLabels(cats: seq<BudgetCategory>): seq<string>
  {
    seq(|cats|, i requires 0 <= i < |cats| => Capitalize(CategoryText(cats[i].name)))
  }

  /** Doughnut data: each category's allocation, in order. */
  function ChartData(cats: seq<BudgetCategory>): seq<real>
  {
    seq(|cats|, i requires 0 <= i < |cats| => cats[i].allocation)
  }

  lemma CategoryTextNoUpper(n: CategoryName)
    ensures NoUpper(CategoryText(n))
  {
  }

  /** `shown` is `name` with its first letter upper-cased and the rest kept, and
      lower-casing it gives the name back. */
  predicate CapitalizedFrom(shown: string, name: string)
  {
    && 0 < |name| == |shown|
    && shown[0] == UpperChar(name[0])
    && shown[1..] == name[1..]
    && Lower(shown) == name
  }

  lemma LabelOfName(n: CategoryName)
    ensures CapitalizedFrom(Capitalize(CategoryText(n)), CategoryText(n))
  {
    CategoryTextNoUpper(n);
    CapitalizeInverse(CategoryText(n));
  }

  /** Labels and data line up with the categories: same count; each label is its
      category's name capitalised; each data value is its category's allocation; and the
      data slices add up to the total the card shows. */
  lemma ChartLinesUp(cats: seq<BudgetCategory>)
    ensures |ChartLabels(cats)| == |ChartData(cats)| == |cats|
    ensures forall i :: 0 <= i < |cats| ==> CapitalizedFrom(ChartLabels(cats)[i], CategoryText(cats[i].name))
    ensures forall i :: 0 <= i < |cats| ==> ChartData(cats)[i] == cats[i].allocation
    ensures Sum(ChartData(cats), Amount) == TotalAllocated(cats)
  {
    forall i | 0 <= i < |cats|
      ensures CapitalizedFrom(ChartLabels(cats)[i], CategoryText(cats[i].name))
    {
      LabelOfName(cats[i].name);
    }
    SumTransfer(ChartData(cats), Amount, cats, AllocationOf);
  }

  // ----- The category table of the budget page and the event page -----

  /** One row: `remaining` is computed for every category; the percentage and the bar
      colour only where the allocation is not zero (elsewhere the table divides by
      zero and shows a value that is not a finite number). */
  datatype CategoryStats = CategoryStats(remaining: real, percentUsed: Option<int>, band: Option<BarColour>)

  /** `remaining = allocated - spent`, `percentUsed = Math.round(spent / allocated * 100)`,
      and the bar colour from the same thresholds as the card. */
  function Breakdown(c: BudgetCategory): CategoryStats
  {
    if c.allocation == 0.0 then CategoryStats(c.allocation - c.spent, None, None)
    else
      var p := Percent(c.spent, c.allocation);
      CategoryStats(c.allocation - c.spent, Some(p), Some(BandOf(p)))
  }

  /** A category row and the summary card of a budget holding just that category agree. */
  lemma BreakdownAgreesWithSummary(c: BudgetCategory, id: string, eventId: string)
    ensures Summarize(Budget(id, eventId, c.allocation, [c])).remaining == Breakdown(c).remaining
    ensures Summarize(Budget(id, eventId, c.allocation, [c])).spentPercentage == Breakdown(c).percentUsed
  {
    SumSingleton(c, AllocationOf);
    SumSingleton(c, SpentOf);
  }

  /** A row's bar colour: none exactly where nothing is allocated; otherwise the card's
      bands applied to the row's own percentage, so with a positive allocation the bar
      is red exactly from 90.5% spent and green exactly below 75.5%. */
  lemma BreakdownBand(c: BudgetCategory)
    ensures Breakdown(c).band.None? <==> c.allocation == 0.0
    ensures c.allocation != 0.0 ==> Breakdown(c).band == Some(BandOf(Percent(c.spent, c.allocation)))
    ensures c.allocation > 0.0 ==>
      (Breakdown(c).band == Some(ErrorBar) <==> 200.0 * c.spent >= 181.0 * c.allocation)
    ensures c.allocation > 0.0 ==>
      (Breakdown(c).band == Some(SuccessBar) <==> 200.0 * c.spent < 151.0 * c.allocation)
  {
    if c.allocation > 0.0 {
      BandOfAmounts(c.spent, c.allocation);
    }
  }

  /** `budget.categories.map(...)`: one row per category, in order. */
  function BreakdownTable(cats: seq<BudgetCategory>): seq<CategoryStats>
  {
    seq(|cats|, i requires 0 <= i < |cats| => Breakdown(cats[i]))
  }

  function RemainingCell(s: CategoryStats): real { s.remaining }

  /** The table and the card agree: the table has a row per category, a row has a
      percentage exactly when its allocation is not zero, and the Remaining column adds
      up to the card's remaining amount. */
  lemma BreakdownTableMeaning(b: Budget)
    ensures |BreakdownTable(b.categories)| == |b.categories|
    ensures forall i :: 0 <= i < |b.categories| ==>
      (BreakdownTable(b.categories)[i].percentUsed.Some? <==> b.categories[i].allocation != 0.0)
    ensures Sum(BreakdownTable(b.categories), RemainingCell) == Summarize(b).remaining
  {
    var cats := b.categories;
    var table := BreakdownTable(cats);
    var remainingOf := (c: BudgetCategory) => c.allocation - c.spent;
    SumTransfer(table, RemainingCell, cats, remainingOf);
    SumDifference(cats, AllocationOf, SpentOf, remainingOf);
  }
}
