/** Store detection and record identity for a detail page
    (services/scraper/details.py). The two store parsers and SHA-1 are outside the
    model and come in as functions. */
module Details {
  import opened Wrappers
  import opened Text
  import opened Seqs

  /** `detect_store`: substring tests on the lowered URL and HTML, Cafe Bazaar first. */
  function DetectStore(pageUrl: Option<String>, html: Option<String>): (r: String)
    ensures r == "bazaar" || r == "myket"
    ensures r == "bazaar" <==>
      var u := Lower(pageUrl.GetOr(""));
      var h := Lower(html.GetOr(""));
      Contains(u, "cafebazaar") || Contains(h, "bazaar://") || Contains(u, "bazaar.ir")
  {
    var u := Lower(pageUrl.GetOr(""));
    var h := Lower(html.GetOr(""));
    if Contains(u, "cafebazaar") || Contains(h, "bazaar://") || Contains(u, "bazaar.ir") then "bazaar"
    else if Contains(u, "myket") || Contains(u, "myket.ir") then "myket"
    else "myket"
  }

  /** Detection ignores case: lowering either input first changes nothing. */
  lemma DetectStoreIgnoresCase(pageUrl: String, html: String)
    ensures DetectStore(Some(pageUrl), Some(html)) == DetectStore(Some(Lower(pageUrl)), Some(Lower(html)))
  {
    LowerIdempotent(pageUrl);
    LowerIdempotent(html);
  }

  /** A missing URL or HTML reads as empty text, and with neither the answer is Myket. */
  lemma DetectStoreDefaults(pageUrl: Option<String>, html: Option<String>)
    ensures DetectStore(None, html) == DetectStore(Some(""), html)
    ensures DetectStore(pageUrl, None) == DetectStore(pageUrl, Some(""))
    ensures DetectStore(None, None) == "myket"
  {
    assert Lower("") == "";
    assert !Contains("", "cafebazaar") && !Contains("", "bazaar://") && !Contains("", "bazaar.ir");
  }

  /** Any Cafe Bazaar page URL is detected as Cafe Bazaar, whatever the HTML says. */
  lemma DetectStoreBazaarUrl(a: String, b: String, html: Option<String>)
    ensures DetectStore(Some(a + "cafebazaar.ir" + b), html) == "bazaar"
  {
    var url := a + "cafebazaar.ir" + b;
    LowerConcat(a + "cafebazaar.ir", b);
    LowerConcat(a, "cafebazaar.ir");
    assert Lower("cafebazaar.ir") == "cafebazaar" + ".ir";
    assert Lower(url) == Lower(a) + "cafebazaar" + (".ir" + Lower(b));
    ContainsMiddle(Lower(a), "cafebazaar", ".ir" + Lower(b));
  }

  // ---------------------------------------------------------------------------
  // `parse_any`

  /** What a store parser returns: the package and URL it found (`None` when missing
      or null) and every other field, which passes through untouched. */
  datatype Parsed<T> = Parsed(package: Option<String>, url: Option<String>, other: T)

  /** The parsed record with `_id` and `url` set. */
  datatype Detail<T> = Detail(id: String, url: String, package: Option<String>, other: T)

  /** `f"{store}:{package}"`. */
  function StoreId(store: String, package: String): String {
    store + ":" + package
  }

  /** Ids of packaged pages never collide across stores or packages. */
  lemma StoreIdInjective(s1: String, p1: String, s2: String, p2: String)
    requires s1 == "bazaar" || s1 == "myket"
    requires s2 == "bazaar" || s2 == "myket"
    requires StoreId(s1, p1) == StoreId(s2, p2)
    ensures s1 == s2 && p1 == p2
  {
    var id := StoreId(s1, p1);
    assert id[0] == s1[0] && id[0] == s2[0];
    assert s1 == s2;
    assert p1 == id[|s1| + 1..] == p2;
  }

  /** `parse_any`. The parser is chosen by the detected store; `sha1Hex` stands for
      the hex SHA-1 digest of a text's UTF-8 bytes. */
  function ParseAny<T>(pageUrl: String, html: String,
                       parseBazaar: (String, String) -> Parsed<T>,
                       parseMyket: (String, String) -> Parsed<T>,
                       sha1Hex: String -> String): (r: Detail<T>)
    ensures var store := DetectStore(Some(pageUrl), Some(html));
      var data := if store == "bazaar" then parseBazaar(pageUrl, html) else parseMyket(pageUrl, html);
      && r.package == data.package && r.other == data.other
      && (data.package.Some? && data.package.value != [] ==> r.id == StoreId(store, data.package.value))
      && (data.package.None? || data.package.value == [] ==>
            r.id == sha1Hex(if pageUrl != [] then pageUrl else Take(html, 512)))
      && (data.url.Some? && data.url.value != [] ==> r.url == data.url.value)
      && (data.url.None? || data.url.value == [] ==> r.url == pageUrl)
  {
    var store := DetectStore(Some(pageUrl), Some(html));
    var data := if store == "bazaar" then parseBazaar(pageUrl, html) else parseMyket(pageUrl, html);
    var package := data.package.GetOr("");
    var id := if package != [] then StoreId(store, package)
              else sha1Hex(if pageUrl != [] then pageUrl else Take(html, 512));
    var url := if data.url.Some? && data.url.value != [] then data.url.value else pageUrl;
    Detail(id, url, data.package, data.other)
  }

  /** Two detail records with packages and equal ids came from the same store and
      name the same package. */
  lemma ParseAnyIdsDistinct<T>(u1: String, h1: String, u2: String, h2: String,
                               parseBazaar: (String, String) -> Parsed<T>,
                               parseMyket: (String, String) -> Parsed<T>,
                               sha1Hex: String -> String)
    requires var r1 := ParseAny(u1, h1, parseBazaar, parseMyket, sha1Hex);
      r1.package.Some? && r1.package.value != []
    requires var r2 := ParseAny(u2, h2, parseBazaar, parseMyket, sha1Hex);
      r2.package.Some? && r2.package.value != []
    requires ParseAny(u1, h1, parseBazaar, parseMyket, sha1Hex).id == ParseAny(u2, h2, parseBazaar, parseMyket, sha1Hex).id
    ensures DetectStore(Some(u1), Some(h1)) == DetectStore(Some(u2), Some(h2))
    ensures ParseAny(u1, h1, parseBazaar, parseMyket, sha1Hex).package == ParseAny(u2, h2, parseBazaar, parseMyket, sha1Hex).package
  {
    var r1 := ParseAny(u1, h1, parseBazaar, parseMyket, sha1Hex);
    var r2 := ParseAny(u2, h2, parseBazaar, parseMyket, sha1Hex);
    StoreIdInjective(DetectStore(Some(u1), Some(h1)), r1.package.value, DetectStore(Some(u2), Some(h2)), r2.package.value);
  }
}
