/** The vendors list (src/pages/VendorsPage.tsx). */
module VendorsPage {
  import opened Types
  import opened Seqs
  import opened Text

  /** The query is lower-cased once; name or email must contain it, and the category
      filter is "all" or the vendor's category. */
  predicate VendorMatches(v: Vendor, query: string, categoryFilter: string)
  {
    var terms := Lower(query);
    && (Contains(Lower(v.name), terms) || Contains(Lower(v.email), terms))
    && (categoryFilter == "all" || VendorCategoryText(v.category) == categoryFilter)
  }

  function FilteredVendors(vendors: seq<Vendor>, query: string, categoryFilter: string): seq<Vendor>
  {
    Filter(vendors, v => VendorMatches(v, query, categoryFilter))
  }

  /** Exactly the matching vendors, as an order-preserving subsequence; filtering again
      changes nothing. */
  lemma FilteredVendorsMeaning(vendors: seq<Vendor>, query: string, categoryFilter: string, v: Vendor)
    ensures v in FilteredVendors(vendors, query, categoryFilter) <==> v in vendors && VendorMatches(v, query, categoryFilter)
    ensures IsSubsequence(FilteredVendors(vendors, query, categoryFilter), vendors)
    ensures FilteredVendors(FilteredVendors(vendors, query, categoryFilter), query, categoryFilter)
         == FilteredVendors(vendors, query, categoryFilter)
  {
    var keep := v => VendorMatches(v, query, categoryFilter);
    FilterMembership(vendors, keep, v);
    FilterIsSubsequence(vendors, keep);
    FilterIdempotent(vendors, keep);
  }

  /** The empty query with "all" shows every vendor, in order. */
  lemma EmptyQueryShowsAll(vendors: seq<Vendor>)
    ensures FilteredVendors(vendors, "", "all") == vendors
  {
    forall i | 0 <= i < |vendors| ensures VendorMatches(vendors[i], "", "all") {
      ContainsEmpty(Lower(vendors[i].name));
    }
    FilterKeepsAll(vendors, v => VendorMatches(v, "", "all"));
  }

  /** Queries that differ only in letter case show the same vendors. */
  lemma QueryCaseIrrelevant(vendors: seq<Vendor>, q1: string, q2: string, categoryFilter: string)
    requires Lower(q1) == Lower(q2)
    ensures FilteredVendors(vendors, q1, categoryFilter) == FilteredVendors(vendors, q2, categoryFilter)
  {
    FilterCongruent(vendors, v => VendorMatches(v, q1, categoryFilter), v => VendorMatches(v, q2, categoryFilter));
  }

  class Page {
    var vendors: seq<Vendor>
    var loading: bool
    var searchQuery: string
    var categoryFilter: string

    constructor ()
      ensures vendors == [] && loading && searchQuery == "" && categoryFilter == "all"
    {
      vendors, loading, searchQuery, categoryFilter := [], true, "", "all";
    }

    /** `fetchVendors`: loading is raised, the rows (or the empty list for a null
        answer) replace the list on success, and loading is lowered either way. */
    method FetchVendors(reply: Reply<Option<seq<Vendor>>>)
      modifies this
      ensures !loading
      ensures vendors == match reply
        case Failed => old(vendors)
        case Rows(None) => []
        case Rows(Some(rows)) => rows
      ensures searchQuery == old(searchQuery) && categoryFilter == old(categoryFilter)
    {
      loading := true;
      if reply.Rows? {
        vendors := if reply.data.Some? then reply.data.value else [];
      }
      loading := false;
    }

    function Visible(): seq<Vendor>
      reads this
    {
      FilteredVendors(vendors, searchQuery, categoryFilter)
    }
  }
}
