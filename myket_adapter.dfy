/** The Myket store adapter (services/scraper/adapters/myket.py): the meta keys it
    reads and its genre rule; the rest of `parse` is shared with the Cafe Bazaar
    adapter. */
module MyketAdapter {
  import opened Wrappers
  import opened Text
  import opened AdapterCommon

  /** Rating from `ratingvalue` then `myket:rating`; count from `ratingcount` then
      `myket:ratingcount`; installs from `myket:installs`, `app:installs`, `installs`. */
  const Keys: StoreKeys := StoreKeys(
    ["ratingvalue", "myket:rating"],
    ["ratingcount", "myket:ratingcount"],
    ["myket:installs", "app:installs", "installs"])

  /** The class `[a-z0-9\-_/]` under `re.IGNORECASE`. */
  predicate IsGenreLinkChar(c: char) {
    var l := LowerChar(c);
    'a' <= l <= 'z' || '0' <= l <= '9' || l == '-' || l == '_' || l == '/'
  }

  /** The genre from group 1 of the first `href="https://myket.ir/games/..."` link:
      its first path segment, `'unknown'` when there is no link or the segment is
      empty, stripped. */
  function Genre(link: Option<String>): (r: String)
    ensures link.None? ==> r == "unknown"
  {
    var g := match link case Some(l) => BeforeFirst(l, '/') case None => [];
    StripKeeps("unknown");
    Strip(if g == [] then "unknown" else g)
  }

  /** For a link group the pattern can produce, the genre is never empty: it is
      `'unknown'` or the link's first path segment (all of the link up to its first
      `/`). */
  lemma GenreSpec(link: Option<String>)
    requires link.Some? ==> forall i | 0 <= i < |link.value| :: IsGenreLinkChar(link.value[i])
    ensures Genre(link) != []
    ensures Genre(link) == "unknown" || (link.Some? && Genre(link) <= link.value && '/' !in Genre(link)
                                         && (|Genre(link)| == |link.value| || link.value[|Genre(link)|] == '/'))
  {
    StripKeeps("unknown");
    if link.Some? {
      var g := BeforeFirst(link.value, '/');
      if g != [] {
        assert g[0] == link.value[0] && g[|g| - 1] == link.value[|g| - 1];
        assert !IsSpace(g[0]) && !IsSpace(g[|g| - 1]);
        StripKeeps(g);
      }
    }
  }

  /** `parse`. */
  method Parse(scan: Scan, scaleFraction: (String, nat) -> Option<nat>) returns (r: Listing)
    ensures var meta := MetaOf(scan.metaPairs);
      && r.title == FirstNonEmpty(meta, ["og:title", "title"])
      && r.description == FirstNonEmpty(meta, ["description", "og:description"])
      && r.ratingText == FirstNonEmpty(meta, ["ratingvalue", "myket:rating"])
      && r.ratingsCount == ToInt(FirstNonEmpty(meta, ["ratingcount", "myket:ratingcount"]))
      && r.installs == (var fromKeys := InstallsFromKeys(meta, ["myket:installs", "app:installs", "installs"], scaleFraction);
                        if fromKeys.None? then ParseInstalls(scan.installText, scaleFraction) else fromKeys)
      && r.genre == Genre(scan.genreMatch)
      && r.updatedAt == StrippedGroup(scan.timeValue)
      && r.monetization == Monetization(Get(meta, "price").GetOr(""))
      && r.featureFlags == FeatureFlags(r.description)
  {
    r := ParseListing(scan, Keys, Genre(scan.genreMatch), scaleFraction);
  }
}
