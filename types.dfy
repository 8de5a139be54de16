/** Record types and closed string enumerations of the dashboard
    (src/types/index.ts, and the Row shapes of src/lib/database.types.ts). */
module Types {

  datatype Option<T> = None | Some(value: T)

  /** The answer of one request to the hosted store: an error, or the rows. */
  datatype Reply<T> = Failed | Rows(data: T)

  // ----- Budget category names (shared by budget categories and expenses) -----

  datatype CategoryName = Venue | Catering | Marketing | Staff | Other

  function CategoryText(n: CategoryName): string
  {
    match n
    case Venue => "venue"
    case Catering => "catering"
    case Marketing => "marketing"
    case Staff => "staff"
    case Other => "other"
  }

  function ParseCategoryName(s: string): Option<CategoryName>
  {
    if s == "venue" then Some(Venue)
    else if s == "catering" then Some(Catering)
    else if s == "marketing" then Some(Marketing)
    else if s == "staff" then Some(Staff)
    else if s == "other" then Some(Other)
    else None
  }

  /** A category name is exactly one of the five strings, and the text round-trips. */
  lemma CategoryNameClosed(s: string)
    ensures ParseCategoryName(s).Some? <==> s in ["venue", "catering", "marketing", "staff", "other"]
    ensures ParseCategoryName(s).Some? ==> CategoryText(ParseCategoryName(s).value) == s
  {
  }

  lemma CategoryTextRoundTrip(n: CategoryName)
    ensures ParseCategoryName(CategoryText(n)) == Some(n)
  {
  }

  // ----- Vendor categories: a different set -----

  datatype VendorCategory = VendorVenue | VendorCatering | VendorMarketing | Entertainment | Technology | VendorOther

  function VendorCategoryText(c: VendorCategory): string
  {
    match c
    case VendorVenue => "venue"
    case VendorCatering => "catering"
    case VendorMarketing => "marketing"
    case Entertainment => "entertainment"
    case Technology => "technology"
    case VendorOther => "other"
  }

  function ParseVendorCategory(s: string): Option<VendorCategory>
  {
    if s == "venue" then Some(VendorVenue)
    else if s == "catering" then Some(VendorCatering)
    else if s == "marketing" then Some(VendorMarketing)
    else if s == "entertainment" then Some(Entertainment)
    else if s == "technology" then Some(Technology)
    else if s == "other" then Some(VendorOther)
    else None
  }

  lemma VendorCategoryRoundTrip(c: VendorCategory)
    ensures ParseVendorCategory(VendorCategoryText(c)) == Some(c)
  {
  }

  /** Vendors add entertainment and technology and have no staff. */
  lemma VendorCategoriesDiffer()
    ensures ParseVendorCategory("staff") == None && ParseCategoryName("staff") == Some(Staff)
    ensures ParseCategoryName("entertainment") == None && ParseVendorCategory("entertainment").Some?
    ensures ParseCategoryName("technology") == None && ParseVendorCategory("technology").Some?
  {
  }

  // ----- Statuses -----

  datatype EventStatus = Draft | Published | Canceled | Completed

  function EventStatusText(s: EventStatus): string
  {
    match s
    case Draft => "draft"
    case Published => "published"
    case Canceled => "canceled"
    case Completed => "completed"
  }

  datatype ExpenseStatus = Pending | Approved | Rejected

  function ExpenseStatusText(s: ExpenseStatus): string
  {
    match s
    case Pending => "pending"
    case Approved => "approved"
    case Rejected => "rejected"
  }

  datatype AttendeeStatus = Registered | AttendeeAttended | AttendeeCanceled | NoShow

  function AttendeeStatusText(s: AttendeeStatus): string
  {
    match s
    case Registered => "registered"
    case AttendeeAttended => "attended"
    case AttendeeCanceled => "canceled"
    case NoShow => "no-show"
  }

  datatype GuestStatus = Invited | Confirmed | Declined | GuestAttended

  function GuestStatusText(s: GuestStatus): string
  {
    match s
    case Invited => "invited"
    case Confirmed => "confirmed"
    case Declined => "declined"
    case GuestAttended => "attended"
  }

  /** Distinct enum values have distinct texts, so comparing texts is comparing values. */
  lemma StatusTextsInjective(a: EventStatus, b: EventStatus, c: CategoryName, d: CategoryName,
                             e: AttendeeStatus, f: AttendeeStatus, g: GuestStatus, h: GuestStatus)
    ensures EventStatusText(a) == EventStatusText(b) ==> a == b
    ensures CategoryText(c) == CategoryText(d) ==> c == d
    ensures AttendeeStatusText(e) == AttendeeStatusText(f) ==> e == f
    ensures GuestStatusText(g) == GuestStatusText(h) ==> g == h
  {
  }

  /** Badge variants of the UI badge component. */
  datatype Variant = Primary | Secondary | Success | Warning | Error

  // ----- Records -----

  /** A budget category as the views see it (no owning event). */
  datatype BudgetCategory = BudgetCategory(id: string, name: CategoryName, allocation: real, spent: real)

  /** A budget: `totalBudget` is stored beside the categories, and nothing in the type ties the two. */
  datatype Budget = Budget(id: string, eventId: string, totalBudget: real, categories: seq<BudgetCategory>)

  datatype Event = Event(
    id: string,
    title: string,
    description: string,
    startDate: string,
    endDate: string,
    location: string,
    status: EventStatus,
    coverImageUrl: Option<string>,
    createdBy: string,
    budget: Budget)

  /** An expense row; the views read `category` and `description`, the dashboard `amount`. */
  datatype Expense = Expense(
    id: string,
    eventId: string,
    category: CategoryName,
    amount: real,
    description: string,
    date: string,
    vendorId: Option<string>,
    receipt: Option<string>,
    status: ExpenseStatus)

  datatype Vendor = Vendor(
    id: string,
    name: string,
    email: string,
    phone: string,
    category: VendorCategory,
    address: Option<string>,
    website: Option<string>,
    notes: Option<string>)

  /** An attendee row as the attendees page reads it: name and email may be missing
      (the row type declares them, but the insert shape has neither). */
  datatype AttendeeRow = AttendeeRow(
    id: string,
    name: Option<string>,
    email: Option<string>,
    eventId: string,
    registrationDate: string,
    status: AttendeeStatus)

  datatype Guest = Guest(
    id: string,
    eventId: string,
    name: string,
    email: string,
    phone: Option<string>,
    invitedBy: string,
    status: GuestStatus,
    plusOne: bool)

  // ----- Storage rows -----

  /** A row of the budget_categories table. */
  datatype CategoryRow = CategoryRow(id: string, eventId: string, name: CategoryName, allocation: real, spent: real)

  /** A row of the events table, with the joined `budget_categories (*)` when the select asks for it. */
  datatype EventRow = EventRow(
    id: string,
    title: string,
    description: Option<string>,
    startDate: string,
    endDate: string,
    location: string,
    status: EventStatus,
    coverImageUrl: Option<string>,
    createdBy: string,
    budgetCategories: Option<seq<CategoryRow>>)

  /** JavaScript truthiness of an optional string: present and non-empty. */
  predicate Truthy(s: Option<string>)
  {
    s.Some? && s.value != ""
  }
}
