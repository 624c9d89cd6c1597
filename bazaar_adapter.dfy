/** The Cafe Bazaar store adapter (services/scraper/adapters/bazaar.py): the meta
    keys it reads and its genre rule; the rest of `parse` is shared with the Myket
    adapter. */
module BazaarAdapter {
  import opened Wrappers
  import opened Text
  import opened Patterns
  import opened AdapterCommon

  /** Rating from `ratingvalue` then `bazaar:rating`; count from `reviewcount` then
      `bazaar:ratingcount` (there is no plain `ratingcount` key here); installs from
      `bazaar:installs`, `app:installs`, `installs`. */
  const Keys: StoreKeys := StoreKeys(
    ["ratingvalue", "bazaar:rating"],
    ["reviewcount", "bazaar:ratingcount"],
    ["bazaar:installs", "app:installs", "installs"])

  /** The class `[a-z0-9\-_]`, applied to lowered text. */
  predicate IsSlugChar(c: char) {
    'a' <= c <= 'z' || '0' <= c <= '9' || c == '-' || c == '_'
  }

  /** The genre from the whole first `href="https://cafebazaar.ir/(category|pages/list)..."`
      match: the slug after its first `category/`, searched ignoring case, else
      `'unknown'`, stripped. */
  function Genre(link: Option<String>): (r: String)
    ensures link.None? ==> r == "unknown"
  {
    var g := match link case Some(l) => SearchIgnoreCase(l, "category/", IsSlugChar) case None => None;
    StripKeeps("unknown");
    Strip(match g case Some(slug) => slug case None => "unknown")
  }

  /** The genre is never empty: it is `'unknown'`, or the first `category/` slug of the
      link, whose lowered form is what a search of the lowered link finds. */
  lemma GenreSpec(link: Option<String>)
    ensures Genre(link) != []
    ensures Genre(link) == "unknown" ||
      (link.Some? && Search(Lower(link.value), "category/", IsSlugChar) == Some(Lower(Genre(link))))
  {
    StripKeeps("unknown");
    if link.Some? {
      var g := SearchIgnoreCase(link.value, "category/", IsSlugChar);
      if g.Some? {
        SlugStripped(g.value, Search(Lower(link.value), "category/", IsSlugChar).value);
      }
    }
  }

  /** A text whose lowered form is made of slug characters has no blanks to strip. */
  lemma SlugStripped(slug: String, low: String)
    requires slug != [] && low == Lower(slug)
    requires forall k | 0 <= k < |low| :: IsSlugChar(low[k])
    ensures Strip(slug) == slug
  {
    assert IsSlugChar(low[0]) && IsSlugChar(low[|low| - 1]);
    assert !IsSpace(slug[0]) && !IsSpace(slug[|slug| - 1]);
    StripKeeps(slug);
  }

  /** `parse`. */
  method Parse(scan: Scan, scaleFraction: (String, nat) -> Option<nat>) returns (r: Listing)
    ensures var meta := MetaOf(scan.metaPairs);
      && r.title == FirstNonEmpty(meta, ["og:title", "title"])
      && r.description == FirstNonEmpty(meta, ["description", "og:description"])
      && r.ratingText == FirstNonEmpty(meta, ["ratingvalue", "bazaar:rating"])
      && r.ratingsCount == ToInt(FirstNonEmpty(meta, ["reviewcount", "bazaar:ratingcount"]))
      && r.installs == (var fromKeys := InstallsFromKeys(meta, ["bazaar:installs", "app:installs", "installs"], scaleFraction);
                        if fromKeys.None? then ParseInstalls(scan.installText, scaleFraction) else fromKeys)
      && r.genre == Genre(scan.genreMatch)
      && r.updatedAt == StrippedGroup(scan.timeValue)
      && r.monetization == Monetization(Get(meta, "price").GetOr(""))
      && r.featureFlags == FeatureFlags(r.description)
  {
    r := ParseListing(scan, Keys, Genre(scan.genreMatch), scaleFraction);
  }
}
