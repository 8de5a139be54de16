# eventto budget and list logic, in Dafny

This project models the logic of the eventto dashboard, a React app for running events.
Most of the app is forms and views bound to a hosted database. The model covers the part
that computes something:

- **Budget aggregation.** The summary card adds up allocations and spend. It rounds the
  percentage used and picks a bar colour from three bands. The budget page and the event
  page repeat the same per-category row.
- **The storage-row to `Event` transform.** It builds each event's budget from the joined
  category rows.
- **The four list filters.** Events, expenses, vendors and attendees are each filtered by
  an "all"-or-equal test plus a case-insensitive substring test.
- **Small display mappings.** Status badges, the vendor website link, chart labels, the
  details link and the cover placeholder.
- **The three write paths.** Creating an event, adding a budget category and adding an
  expense, each modelled by its effect on an in-memory store.

Modules follow the source files:

| module | source |
|---|---|
| `Types` | `src/types/index.ts`, and the row shapes used by the pages |
| `Text`, `Seqs` | `toLowerCase`, `includes`, `reduce` and `filter` |
| `BudgetSummary` | `BudgetSummary.tsx`, plus the category table of two pages |
| `EventsPage`, `EventCard`, `VendorCard`, `VendorsPage`, `AttendeesPage`, `BudgetPage`, `EventDetailsPage`, `Dashboard` | the page or component of the same name |
| `Store` | the database tables that the write paths change |
| `ExpenseForm`, `BudgetCategoryForm`, `CreateEventPage` | the write paths |
| `Fixtures` | the sample data of `src/utils/mockData.ts` |

How the model is written:

- Pure code is written as functions with lemmas.
- Page state and form state are classes whose methods state the whole new state.
- Amounts are exact Dafny `real`s.
- `Math.round(x)` is `Floor(x + 1/2)`.
- The result of each database request is an input to the method that makes it: a `Reply`,
  an `Option`, or a success flag.
- The page functions `Visible`, `Table` and `Shown` have no rows of their own. They
  only apply the filters and tables listed below to the page's state.

Two behaviours of the code that the model keeps as written:

- **Zero total allocation.** The summary card and the category table divide by the
  allocation with no guard. `BudgetSummary.Summarize` returns no percentage when the total
  allocation is zero, and `BudgetSummary.Breakdown` returns no percentage and no colour for
  a category with nothing allocated.
- **Adding an expense.** The expense form overwrites the category's `spent` with the new
  expense's amount; it does not add to it (`Store.SetSpent`). `Fixtures.SpendTracksLastExpense`
  shows the effect.

## Model

| member | source | states |
|---|---|---|
| Types.CategoryNameClosed | src/types/index.ts:34 | a category name is exactly one of venue, catering, marketing, staff, other, and its text reads back as itself |
| Types.CategoryTextRoundTrip | src/types/index.ts:42 | expense categories use the same five values, and each parses back to itself |
| Types.VendorCategoryRoundTrip | src/types/index.ts:57-63 | the six vendor categories each parse back to themselves |
| Types.VendorCategoriesDiffer | src/types/index.ts:57-63 | vendor categories add entertainment and technology and have no staff |
| Types.StatusTextsInjective | src/types/index.ts:18-88 | the event, category, attendee and guest enums are closed, and distinct values have distinct texts |
| Text.LowerChar | src/pages/EventsPage.tsx:67-68 | ASCII lower-casing of a character: the result is never an upper-case letter, and it is a letter exactly when the input was one |
| Text.UpperChar | src/components/dashboard/BudgetSummary.tsx:21 | ASCII upper-casing of a character, undone by lower-casing |
| Text.LowerAt | src/pages/EventsPage.tsx:67-68 | `toLowerCase` keeps the length and lower-cases each character in place |
| Text.LowerIdempotent | src/pages/VendorsPage.tsx:42-45 | lower-casing twice is lower-casing once |
| Text.LowerOfNoUpper | src/components/dashboard/BudgetSummary.tsx:21 | a text with no upper-case letter is its own lower-case |
| Text.CapitalizeInverse | src/components/dashboard/BudgetSummary.tsx:21 | `charAt(0).toUpperCase() + slice(1)` keeps the length, upper-cases the first letter and keeps the rest, and lower-casing it gives a lower-case name back |
| Text.ContainsIffOccurs | src/pages/BudgetPage.tsx:88-90 | `includes` holds exactly when the query occurs at some position |
| Text.ContainsEmpty | src/pages/BudgetPage.tsx:88-90 | every text includes the empty query |
| Text.ContainsShorter | src/pages/BudgetPage.tsx:88-90 | a text only includes queries no longer than itself |
| Seqs.SumSingleton | src/components/dashboard/BudgetSummary.tsx:15 | a one-row `reduce` sum is that row's amount |
| Seqs.SumAppend | src/components/dashboard/BudgetSummary.tsx:15 | the sum of two batches of rows is the sum of their sums |
| Seqs.SumTransfer | src/pages/EventsPage.tsx:45-51 | rows whose amounts agree position by position have equal sums |
| Seqs.SumMonotone | src/components/dashboard/BudgetSummary.tsx:15-16 | a row-by-row smaller amount gives a smaller sum |
| Seqs.SumNonNegative | src/pages/Dashboard.tsx:76-77 | amounts that are never negative give a sum that is not negative |
| Seqs.SumDifference | src/components/dashboard/BudgetSummary.tsx:15-17 | summing a row-by-row difference is the difference of the sums |
| Seqs.SumOfZeros | src/pages/CreateEventPage.tsx:40-46 | zero amounts sum to zero |
| Seqs.Filter | src/pages/EventsPage.tsx:66 | `Array.filter` returns no more rows than it was given, and every row it returns passes the test |
| Seqs.FilterByIndices | src/pages/EventsPage.tsx:66 | the result is the input at exactly the positions that pass the test, in increasing order |
| Seqs.FilterIsSubsequence | src/pages/EventsPage.tsx:66 | the result is an order-preserving subsequence of the input |
| Seqs.FilterMembership | src/pages/EventsPage.tsx:66 | a row is in the result exactly when it is in the input and passes the test |
| Seqs.FilterKeepsAll | src/pages/EventsPage.tsx:66 | when every row passes, the result is the input |
| Seqs.FilterIdempotent | src/pages/EventsPage.tsx:66 | filtering the result again changes nothing |
| Seqs.FilterCongruent | src/pages/EventsPage.tsx:66 | tests that agree on every row give the same result |
| BudgetSummary.Round | src/components/dashboard/BudgetSummary.tsx:18 | `Math.round` gives the integer within one half of the value, halves going up |
| BudgetSummary.RoundMonotone | src/components/dashboard/BudgetSummary.tsx:18 | rounding keeps order |
| BudgetSummary.RoundOfInteger | src/components/dashboard/BudgetSummary.tsx:18 | rounding an integer gives it back |
| BudgetSummary.BandBoundaries | src/components/dashboard/BudgetSummary.tsx:86-87 | 91 is error, 90 and 76 are warning, 75 is success |
| BudgetSummary.BandMonotone | src/components/dashboard/BudgetSummary.tsx:86-87 | a higher percentage never gives a milder colour |
| BudgetSummary.BandOfAmounts | src/components/dashboard/BudgetSummary.tsx:18-87 | with a positive allocation, the bar is error exactly when spent is at least 90.5% of it, and success exactly when spent is below 75.5% |
| BudgetSummary.PercentWithinBudget | src/components/dashboard/BudgetSummary.tsx:18 | when spending is within the allocation, the percentage is between 0 and 100 |
| BudgetSummary.PercentNotCapped | src/components/dashboard/BudgetSummary.tsx:86-89 | the percentage is not capped: twice the allocation reads 200 and is error |
| BudgetSummary.SummaryMeaning | src/components/dashboard/BudgetSummary.tsx:15-18 | the card shows the allocation and spend totals, and remaining is their unclamped difference. There is a percentage exactly when the total is not zero. A consistent budget's stored total is the total shown, and no categories show all zeros |
| BudgetSummary.SummaryWithinBudget | src/components/dashboard/BudgetSummary.tsx:15-18 | if no category is overspent, remaining is not negative and the percentage is at most 100 |
| BudgetSummary.TotalAllocatedAppend | src/components/dashboard/BudgetSummary.tsx:15 | the total of two batches of categories is the sum of their totals |
| BudgetSummary.CategoryTextNoUpper | src/types/index.ts:34 | category names are lower-case |
| BudgetSummary.ChartLinesUp | src/components/dashboard/BudgetSummary.tsx:20-24 | one label and one data value per category, in order. Each label is its category's name with the first letter upper-cased and the rest kept, and it lower-cases back to the name. Each data value is its category's allocation, and the data sums to the card's total |
| BudgetSummary.BreakdownAgreesWithSummary | src/pages/BudgetPage.tsx:176-179 | a category's table row gives the same remaining amount and percentage as the card would for that category alone |
| BudgetSummary.BreakdownBand | src/pages/BudgetPage.tsx:195-202 | a row has no bar colour exactly when nothing is allocated. Otherwise its colour comes from the card's bands on its own percentage: with a positive allocation it is red exactly from 90.5% spent and green exactly below 75.5% |
| BudgetSummary.BreakdownTableMeaning | src/pages/BudgetPage.tsx:175-202 | one table row per category. A row has a percentage exactly when its allocation is not zero. The Remaining column adds up to the card's remaining amount |
| EventsPage.TransformMeaning | src/pages/EventsPage.tsx:32-53 | the built budget is consistent, and both its ids are the event id. With no joined categories the total is 0 and the list is empty. Otherwise the categories are mapped in order with id, name, allocation and spend unchanged. A null description becomes "", and a null or empty cover URL becomes absent |
| EventsPage.TransformEventsConsistent | src/pages/EventsPage.tsx:45 | every fetched event's `totalBudget` is the sum of its categories' allocations |
| EventsPage.FilteredEventsMeaning | src/pages/EventsPage.tsx:66-73 | an event is listed exactly when the lower-cased title or description contains the lower-cased query and the status filter is "all" or equal. The list is an order-preserving subsequence, and filtering it again changes nothing |
| EventsPage.DescriptionMatchSuffices | src/pages/EventsPage.tsx:67-68 | a description match alone keeps an event whose status passes |
| EventsPage.EmptyQueryShowsAll | src/pages/EventsPage.tsx:66-73 | the empty query with "all" lists every event in order |
| EventsPage.QueryCaseIrrelevant | src/pages/EventsPage.tsx:67-68 | queries differing only in letter case give the same list |
| EventsPage.Page.constructor | src/pages/EventsPage.tsx:12-15 | the page starts loading with no events, an empty query and "all" |
| EventsPage.Page.FetchEvents | src/pages/EventsPage.tsx:17-64 | on success the transformed rows replace the list; either way loading ends and the filters are kept |
| EventCard.StatusBadgeDistinguishes | src/components/dashboard/EventCard.tsx:15-28 | the four statuses get four different badges, none the default, and any other text gets primary |
| EventCard.StatusBadgeTable | src/components/dashboard/EventCard.tsx:16-24 | published is success, draft is warning, canceled is error, completed is secondary |
| EventCard.PlaceholderForRow | src/components/dashboard/EventCard.tsx:33-43 | the placeholder shows exactly when the stored cover URL is null or empty; otherwise the stored URL is shown |
| EventCard.DetailsLinkNamesEvent | src/components/dashboard/EventCard.tsx:67 | the link is "/events/" followed by the id, and two links are equal exactly when the ids are |
| VendorCard.WebsiteHrefNormal | src/components/vendors/VendorCard.tsx:46 | the href always starts with "http" and ends with the website as typed. Normalising twice equals normalising once |
| VendorCard.WebsitePrefixIsLiteral | src/components/vendors/VendorCard.tsx:46 | the test is the literal prefix: a bare "httpbin.org" is kept as typed, and "www.…" gets "https://" |
| VendorCard.ContactLinksCarryFields | src/components/vendors/VendorCard.tsx:27-61 | the links are "mailto:" + email and "tel:" + phone. The website line exists exactly when the website is non-empty, and its link starts with "http". The address and notes sections each show exactly when that field is non-empty |
| VendorsPage.FilteredVendorsMeaning | src/pages/VendorsPage.tsx:41-51 | a vendor is listed exactly when its lower-cased name or email contains the lower-cased query and the category filter is "all" or equal. The list is an order-preserving subsequence, and filtering it again changes nothing |
| VendorsPage.EmptyQueryShowsAll | src/pages/VendorsPage.tsx:41-51 | the empty query with "all" lists every vendor in order |
| VendorsPage.QueryCaseIrrelevant | src/pages/VendorsPage.tsx:42-45 | the query is lower-cased once, so its letter case does not matter |
| VendorsPage.Page.constructor | src/pages/VendorsPage.tsx:16-20 | the page starts loading with no vendors, an empty query and "all" |
| VendorsPage.Page.FetchVendors | src/pages/VendorsPage.tsx:26-39 | on success the rows replace the list, and a null answer gives the empty list; loading ends either way |
| AttendeesPage.FilteredAttendeesMeaning | src/pages/AttendeesPage.tsx:78-87 | an attendee is listed exactly when a present name or email contains the query case-insensitively and the event filter is "all" or equal. The list is an order-preserving subsequence, and filtering it again changes nothing |
| AttendeesPage.MissingFieldsExclude | src/pages/AttendeesPage.tsx:80-81 | with neither name nor email an attendee is never listed; with either one, the empty query and "all" list it |
| AttendeesPage.AttendeeBadgeTable | src/pages/AttendeesPage.tsx:193-202 | the four attendee statuses get four different badges, and registered gets the default primary |
| AttendeesPage.Page.constructor | src/pages/AttendeesPage.tsx:27-35 | the page starts with an empty query, "all", no selected event, the dialog closed, and loading |
| AttendeesPage.Page.FetchEvents | src/pages/AttendeesPage.tsx:42-55 | on success the rows replace the list, and an unset selected event defaults to the first event |
| AttendeesPage.Page.FetchAttendees | src/pages/AttendeesPage.tsx:57-76 | on success the rows replace the list; loading ends either way |
| AttendeesPage.Page.OnEventFilterChange | src/pages/AttendeesPage.tsx:148-153 | a specific event becomes both the filter and the selected event; "all" leaves the selected event as it was |
| AttendeesPage.Page.HandleAddAttendee | src/pages/AttendeesPage.tsx:89-95 | the dialog opens exactly when an event is selected; otherwise the user is alerted and nothing changes |
| BudgetPage.MakeBudgetMeaning | src/pages/BudgetPage.tsx:68-77 | the built budget is consistent, both its ids are the selected event, and it keeps every fetched row in order |
| BudgetPage.MakeBudgetIsTransform | src/pages/BudgetPage.tsx:68-77 | it is the same budget the event transform builds from the same rows |
| BudgetPage.FilteredExpensesMeaning | src/pages/BudgetPage.tsx:85-93 | an expense is listed exactly when the category filter is "all" or equal and the lower-cased description contains the lower-cased query. The list is an order-preserving subsequence, and filtering it again changes nothing |
| BudgetPage.EmptyQueryShowsAll | src/pages/BudgetPage.tsx:85-93 | "all" with the empty query lists every expense in order |
| BudgetPage.QueryCaseIrrelevant | src/pages/BudgetPage.tsx:88-90 | queries differing only in letter case give the same list |
| BudgetPage.UnknownCategoryListsNothing | src/pages/BudgetPage.tsx:86-87 | a category filter naming none of the five categories lists nothing |
| BudgetPage.Page.constructor | src/pages/BudgetPage.tsx:30-35 | the page starts with no event, no budget, no expenses, "all" and an empty query |
| BudgetPage.Page.LoadEvents | src/pages/BudgetPage.tsx:49-59 | on success the list is replaced, and the first event is selected when there is one |
| BudgetPage.Page.LoadBudgetData | src/pages/BudgetPage.tsx:43-82 | runs only with an event selected. If either request fails nothing changes. Otherwise the budget is rebuilt from the fetched categories and the expenses are replaced. A shown budget stays consistent |
| EventDetailsPage.GuestBadgeTable | src/pages/EventDetailsPage.tsx:528-536 | confirmed is success and invited gets the default warning; the four guest statuses get four different badges |
| EventDetailsPage.PublishOnlyForDrafts | src/pages/EventDetailsPage.tsx:355 | the publish action is offered exactly for drafts |
| EventDetailsPage.Page.constructor | src/pages/EventDetailsPage.tsx:43-46 | the page starts loading with no event, attendees or guests |
| EventDetailsPage.Page.FetchEventDetails | src/pages/EventDetailsPage.tsx:48-135 | runs only for a non-empty id. The event, then the attendees, then the guests are set; the first failure stops the rest and keeps what was set. Loading ends, and a newly shown event has a consistent budget |
| Dashboard.TotalExpensesMeaning | src/pages/Dashboard.tsx:76-77 | no rows total 0. Totals of two batches add. Non-negative amounts give a non-negative total |
| Dashboard.MakeStatsMeaning | src/pages/Dashboard.tsx:79-84 | total events is the number of rows, and a missing attendee or vendor count reads as 0 |
| Dashboard.RecentEventsMeaning | src/pages/Dashboard.tsx:183 | the grid shows the first min(4, n) events, in order |
| Dashboard.BudgetOverviewMeaning | src/pages/Dashboard.tsx:104 | the overview shows a budget exactly when there is an event; it is the first event's budget, and it is consistent |
| Dashboard.Page.constructor | src/pages/Dashboard.tsx:10-17 | the page starts loading with no events and zero stats |
| Dashboard.Page.FetchDashboardData | src/pages/Dashboard.tsx:19-93 | a failed events request leaves events and stats unchanged. Otherwise the events are transformed and the stats are computed, with total events equal to the number shown. Loading ends either way |
| Store.AppendJoins | src/components/budget/BudgetCategoryForm.tsx:31-38 | an appended category row joins its own event's categories at the end and no other event's, and its allocation adds to that event's total |
| Store.SetSpentMeaning | src/components/budget/ExpenseForm.tsx:48-52 | the update keeps every row's place and identity. A row with that event and name has its spend set to the amount, not increased by it; every other row is unchanged |
| Store.SetSpentOverwrites | src/components/budget/ExpenseForm.tsx:50 | a second update overwrites the first |
| Store.SetSpentAppend | src/components/budget/ExpenseForm.tsx:48-52 | the update acts row by row, so it distributes over appending |
| Store.CategoriesOfSetSpent | src/components/budget/ExpenseForm.tsx:48-52 | reading an event's categories after the update equals updating the categories read before it |
| Store.SetSpentKeepsAllocations | src/components/budget/ExpenseForm.tsx:48-52 | no event's total allocation changes, and every row of the updated event and name shows the amount |
| Store.IdTextInjective | src/pages/CreateEventPage.tsx:16-29 | different counter values give different ids |
| Store.NumberedDistinct | src/pages/CreateEventPage.tsx:16-29 | in a table whose ids were all handed out by the store, no two rows share an id and the next id is not yet taken |
| Store.Database.InsertEvent | src/pages/CreateEventPage.tsx:16-29 | the event row is appended under the next id, which no stored event has, and that id is returned. The store's ids stay unique |
| Store.Database.InsertCategories | src/pages/CreateEventPage.tsx:48-57 | the rows are appended in order under consecutive ids that no earlier category row has. The store's ids stay unique |
| Store.Database.InsertExpense | src/components/budget/ExpenseForm.tsx:46 | the expense is appended under the next id, which no stored expense has. The store's ids stay unique |
| Store.Database.UpdateSpent | src/components/budget/ExpenseForm.tsx:48-52 | the category table becomes the filtered update of the old one |
| ExpenseForm.Form.constructor | src/components/budget/ExpenseForm.tsx:29-39 | the form starts with venue, 0, no description, pending, and the given event |
| ExpenseForm.Form.SetCategory | src/components/budget/ExpenseForm.tsx:83-88 | only the category changes |
| ExpenseForm.Form.SetAmount | src/components/budget/ExpenseForm.tsx:96-101 | only the amount changes |
| ExpenseForm.Form.SetDescription | src/components/budget/ExpenseForm.tsx:110-112 | only the description changes |
| ExpenseForm.Form.SetDate | src/components/budget/ExpenseForm.tsx:120-122 | only the date changes |
| ExpenseForm.Form.HandleSubmit | src/components/budget/ExpenseForm.tsx:41-64 | the expense is inserted first, and the update is sent only after that. Success is reported exactly when both succeed. A failed update leaves the expense inserted. One id is used exactly when the insert succeeds. The event's total allocation never changes, and on success its rows of that category show the amount |
| BudgetCategoryForm.AddCategoryEffect | src/components/budget/BudgetCategoryForm.tsx:31-38 | an added category grows its event's total by its allocation and leaves other events alone. With no name check, the event gains one more row of that name each time |
| BudgetCategoryForm.Form.constructor | src/components/budget/BudgetCategoryForm.tsx:20-24 | the form starts with venue and 0 for the given event |
| BudgetCategoryForm.Form.SetName | src/components/budget/BudgetCategoryForm.tsx:69 | only the name changes |
| BudgetCategoryForm.Form.SetAllocation | src/components/budget/BudgetCategoryForm.tsx:77 | only the allocation changes |
| BudgetCategoryForm.Form.HandleSubmit | src/components/budget/BudgetCategoryForm.tsx:26-50 | on a successful insert, exactly one row is appended, with spent 0 and the form's event and fields, one id is used, and success is reported. Otherwise nothing is stored or reported |
| CreateEventPage.DefaultCategoriesMeaning | src/pages/CreateEventPage.tsx:40-56 | exactly five rows, one per category name, each carrying the new event's id with nothing allocated or spent |
| CreateEventPage.FreshBudgetIsEmpty | src/pages/CreateEventPage.tsx:40-46 | a new event's budget totals 0 and has no percentage |
| CreateEventPage.Page.constructor | src/pages/CreateEventPage.tsx:10 | the page starts not loading |
| CreateEventPage.Page.HandleSubmit | src/pages/CreateEventPage.tsx:12-71 | the event is stored with the fixed system creator only when the insert returns a row. The five defaults follow, carrying its id. Navigation to "/events/" + id happens only after both inserts, and a failed category insert leaves the event stored without categories. One id is used for the event and five for the categories, each only when its insert succeeds |
| Fixtures.MockTotals | src/utils/mockData.ts:29-60 | the sample categories allocate 12500 and spend 10600 |
| Fixtures.FirstEventSummary | src/utils/mockData.ts:63-80 | the first event's 12500 is consistent, and the card shows 10600 spent, 1900 remaining, 85%, warning |
| Fixtures.ScaledTotal | src/utils/mockData.ts:95 | scaling the sample allocations scales their total |
| Fixtures.StoredTotalsOfOtherEvents | src/utils/mockData.ts:91-113 | the second event's stored 8000 disagrees with its categories' 8750; the third event's 15000 agrees |
| Fixtures.NinetyOnePercentIsRed | src/components/dashboard/BudgetSummary.tsx:15-18 | 7300 spent of 8000 leaves 700 and reads 91%, error |
| Fixtures.VenueFilter | src/utils/mockData.ts:118-152 | the venue filter with no query lists only the venue rental |
| Fixtures.SpendTracksLastExpense | src/components/budget/ExpenseForm.tsx:48-52 | expenses of 100 and then 50 leave the category showing 50 spent, not 150 |

## Left out

- Floating point. Amounts are exact reals, so float rounding, NaN and Infinity are not modelled.
- Division by a zero allocation. In the source this shows NaN or Infinity, and the bar falls through to success or to error. The model returns no percentage and no colour instead.
- `parseFloat` on the amount fields. The setters take the parsed number; NaN input is not modelled.
- Dates. Date formatting, `toISOString` on the new event's dates and the expense form's default date are not modelled: the date is a constructor parameter and the other dates pass through unchanged. The event duration in hours is also left out.
- `formatCurrency` and `toLocaleString`. These only format numbers for display.
- Unicode case mapping. `toLowerCase` and `toUpperCase` are modelled for ASCII only.
- The network client. Every database call is replaced by its outcome, given as a parameter. The store's id generation is a counter.
- Ordering of asynchronous requests. `Promise.all`, the effects and their interleavings are reduced to one method call per handler.
- Attendee and guest joins. The joined event title and inviter name are display-only.
- Delete and the remaining forms. The event form, attendee form, guest form and vendor form, and event deletion, are single calls with no derived logic.
- Authentication, login, routing, layout and UI primitives. None of these computes anything the model states.
- Duplicated logic. The row-to-event transform is modelled once (`EventsPage.TransformEvent`), used by the events page, the dashboard and the event page. The per-category table is modelled once (`BudgetSummary.BreakdownTable`), used by the budget page and the event page. The event status badge is modelled once (`EventCard.StatusBadgeVariant`), used by the card and the event page header.
- CreateEventPage.Page.HandleSubmit: a `NoRowReturned` answer is treated as nothing stored. The source only reports an error in that case, and what the store holds then is not known.
