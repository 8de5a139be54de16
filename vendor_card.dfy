/** The vendor card (src/components/vendors/VendorCard.tsx): contact links and the
    optional sections. */
module VendorCard {
  import opened Types

  /** `website.startsWith('http') ? website : \`https://${website}\`` */
  function WebsiteHref(website: string): string
  {
    if "http" <= website then website else "https://" + website
  }

  /** The href always starts with "http", ends with the website as typed, and
      normalising it again changes nothing. */
  lemma WebsiteHrefNormal(website: string)
    ensures "http" <= WebsiteHref(website)
    ensures |website| <= |WebsiteHref(website)|
    ensures WebsiteHref(website)[|WebsiteHref(website)| - |website|..] == website
    ensures WebsiteHref(WebsiteHref(website)) == WebsiteHref(website)
  {
    if !("http" <= website) {
      var h := "https://" + website;
      assert h[..4] == "http";
      assert h[|h| - |website|..] == website;
    }
  }

  /** The test is the literal prefix "http": a bare host beginning with those letters is
      used as it is, and a host without it gets "https://". */
  lemma WebsitePrefixIsLiteral()
    ensures WebsiteHref("httpbin.org") == "httpbin.org"
    ensures WebsiteHref("www.grandconvention.com") == "https://www.grandconvention.com"
  {
    assert "www.grandconvention.com"[0] != "http"[0];
  }

  /** The globe line and its link, present only for a non-empty website. */
  function WebsiteLink(v: Vendor): Option<string>
  {
    if Truthy(v.website) then Some(WebsiteHref(v.website.value)) else None
  }

  predicate ShowsAddress(v: Vendor) { Truthy(v.address) }

  predicate ShowsNotes(v: Vendor) { Truthy(v.notes) }

  function MailtoHref(v: Vendor): string { "mailto:" + v.email }

  function TelHref(v: Vendor): string { "tel:" + v.phone }

  /** The contact links carry the address and the number unchanged after their scheme;
      the website link, the address and the notes each show exactly when that field is
      present and not empty. */
  lemma ContactLinksCarryFields(v: Vendor)
    ensures "mailto:" <= MailtoHref(v) && MailtoHref(v)[7..] == v.email
    ensures "tel:" <= TelHref(v) && TelHref(v)[4..] == v.phone
    ensures WebsiteLink(v).Some? <==> v.website.Some? && v.website.value != ""
    ensures WebsiteLink(v).Some? ==> "http" <= WebsiteLink(v).value
    ensures ShowsAddress(v) <==> v.address.Some? && v.address.value != ""
    ensures ShowsNotes(v) <==> v.notes.Some? && v.notes.value != ""
  {
    if v.website.Some? {
      WebsiteHrefNormal(v.website.value);
    }
  }
}
