/** Review extraction (services/scraper/reviews.py): a text cleaner, a dispatch on the
    page URL, and two store parsers that as yet find no reviews. HTML entity decoding
    is outside the model and comes in as a function. */
module Reviews {
  import opened Wrappers
  import opened Text
  import Crawler

  /** `_clean`: nothing for a missing or empty text, else the unescaped text, stripped. */
  function Clean(t: Option<String>, unescape: String -> String): (r: Option<String>)
    ensures r.None? <==> t.None? || t.value == []
    ensures r.Some? ==> r.value == Strip(unescape(t.value))
  {
    if t.None? || t.value == [] then None else Some(Strip(unescape(t.value)))
  }

  /** A cleaned text is stripped, yet it may be empty: a text of blanks gives `""`,
      not `None`. */
  lemma CleanShape(t: Option<String>, unescape: String -> String)
    ensures Clean(t, unescape).Some? ==> Strip(Clean(t, unescape).value) == Clean(t, unescape).value
    ensures Clean(Some(" "), s => s) == Some("")
  {
    if t.Some? && t.value != [] {
      StripIdempotent(unescape(t.value));
    }
    assert IsSpace(' ');
    assert LStrip(" ") == LStrip(" "[1..]);
  }

  /** A review record, as a mapping from field name to value. */
  type Review = map<String, String>

  /** The default of the `limit` parameters. */
  const DefaultLimit := 50

  /** `parse_reviews_myket`: no review markup is recognised yet, so no review is found. */
  function ParseReviewsMyket(pageUrl: String, html: String, limit: int): (r: seq<Review>)
    ensures limit >= 0 ==> |r| <= limit
    ensures r == []
  {
    []
  }

  /** `parse_reviews_bazaar`: likewise. */
  function ParseReviewsBazaar(pageUrl: String, html: String, limit: int): (r: seq<Review>)
    ensures limit >= 0 ==> |r| <= limit
    ensures r == []
  {
    []
  }

  datatype Route = ToMyket | ToBazaar | Unrouted

  /** The branch `parse_reviews` takes: `myket.ir` is tested before `cafebazaar.ir`. */
  function RouteOf(pageUrl: String): (r: Route)
    ensures r == ToMyket <==> Contains(pageUrl, "myket.ir")
    ensures r == ToBazaar <==> !Contains(pageUrl, "myket.ir") && Contains(pageUrl, "cafebazaar.ir")
  {
    if Contains(pageUrl, "myket.ir") then ToMyket
    else if Contains(pageUrl, "cafebazaar.ir") then ToBazaar
    else Unrouted
  }

  /** `parse_reviews`. */
  function ParseReviews(pageUrl: String, html: String, limit: int): (r: seq<Review>)
    ensures RouteOf(pageUrl) == ToMyket ==> r == ParseReviewsMyket(pageUrl, html, limit)
    ensures RouteOf(pageUrl) == ToBazaar ==> r == ParseReviewsBazaar(pageUrl, html, limit)
    ensures RouteOf(pageUrl) == Unrouted ==> r == []
  {
    match RouteOf(pageUrl)
    case ToMyket => ParseReviewsMyket(pageUrl, html, limit)
    case ToBazaar => ParseReviewsBazaar(pageUrl, html, limit)
    case Unrouted => []
  }

  /** Whatever the route, no more than `limit` reviews come back (none, at present). */
  lemma ParseReviewsBounded(pageUrl: String, html: String, limit: int)
    ensures |ParseReviews(pageUrl, html, limit)| == 0
    ensures limit >= 0 ==> |ParseReviews(pageUrl, html, limit)| <= limit
  {
  }

  /** A URL naming both stores goes to the Myket parser here, while the crawler's
      `domain_to_store` assigns the same text to Cafe Bazaar: the two orders differ. */
  lemma BothStoresRouting(a: String, b: String)
    ensures RouteOf(a + "cafebazaar.ir" + b + "myket.ir") == ToMyket
    ensures Crawler.DomainToStore(a + "cafebazaar.ir" + b + "myket.ir") == "bazaar"
  {
    var u := a + "cafebazaar.ir" + b + "myket.ir";
    assert u[|u| - 8..] == "myket.ir";
    assert OccursAt(u, "myket.ir", |u| - 8);
    Crawler.DomainToStoreHosts(a, b);
  }
}
