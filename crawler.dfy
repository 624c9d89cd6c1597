/** The pure helpers of the detail-page crawler (services/scraper/crawler.py): the URL
    list filter, store and app id from a URL, the JSON-LD merge, field validation and
    the game record it builds. Fetching, the HTML parser, `json.loads`, the clock and
    Elasticsearch are outside: their results come in as parameters. */
module Crawler {
  import opened Wrappers
  import opened Text
  import opened Seqs
  import opened Patterns

  // ---------------------------------------------------------------------------
  // `read_urls`

  /** `ln.lstrip("﻿").strip()`. */
  function CleanLine(ln: String): String {
    Strip(LStripChar(ln, '\U{FEFF}'))
  }

  /** The URL a line contributes: its cleaned text, unless that is empty or a comment. */
  function UrlOfLine(ln: String): (r: Option<String>)
    ensures r.Some? <==> CleanLine(ln) != [] && CleanLine(ln)[0] != '#'
    ensures r.Some? ==> r.value == CleanLine(ln)
  {
    var s := CleanLine(ln);
    if s != [] && s[0] != '#' then Some(s) else None
  }

  /** `read_urls` on the lines of the file, or on no file at all (`None`). */
  method ReadUrls(file: Option<seq<String>>) returns (urls: seq<String>)
    ensures urls == if file.None? then [] else FilterMap(file.value, UrlOfLine)
  {
    if file.None? {
      return [];
    }
    var lines := file.value;
    urls := [];
    for i := 0 to |lines|
      invariant urls == FilterMap(lines[..i], UrlOfLine)
    {
      assert lines[..i + 1][..i] == lines[..i];
      var u := UrlOfLine(lines[i]);
      assert FilterMap(lines[..i + 1], UrlOfLine) ==
        FilterMap(lines[..i], UrlOfLine) + (match u case Some(s) => [s] case None => []);
      if u.Some? {
        urls := urls + [u.value];
      }
    }
    assert lines[..|lines|] == lines;
  }

  /** Every URL kept is non-empty, is not a comment, is already stripped and is the
      cleaned form of some line; every line whose cleaned form is such a URL is kept. */
  lemma UrlLinesSpec(lines: seq<String>)
    ensures forall u | u in FilterMap(lines, UrlOfLine) ::
      && u != [] && u[0] != '#' && Strip(u) == u
      && exists ln | ln in lines :: CleanLine(ln) == u
    ensures forall ln | ln in lines && CleanLine(ln) != [] && CleanLine(ln)[0] != '#' ::
      CleanLine(ln) in FilterMap(lines, UrlOfLine)
  {
    FilterMapSpec(lines, UrlOfLine);
    forall u | u in FilterMap(lines, UrlOfLine)
      ensures Strip(u) == u
    {
      var ln :| ln in lines && UrlOfLine(ln) == Some(u);
      StripIdempotent(LStripChar(ln, '\U{FEFF}'));
    }
  }

  /** Lines are read in file order: the URLs of a file split in two are the URLs of
      its first part followed by those of its second. */
  lemma UrlLinesOrder(a: seq<String>, b: seq<String>)
    ensures FilterMap(a + b, UrlOfLine) == FilterMap(a, UrlOfLine) + FilterMap(b, UrlOfLine)
  {
    FilterMapConcat(a, b, UrlOfLine);
  }

  // ---------------------------------------------------------------------------
  // Store and app id from a URL

  /** `domain_to_store`. */
  function DomainToStore(netloc: String): (r: String)
    ensures r == "bazaar" || r == "myket" || r == "unknown"
    ensures r == "bazaar" <==> Contains(netloc, "cafebazaar.ir")
    ensures r == "myket" <==> !Contains(netloc, "cafebazaar.ir") && Contains(netloc, "myket.ir")
  {
    if Contains(netloc, "cafebazaar.ir") then "bazaar"
    else if Contains(netloc, "myket.ir") then "myket"
    else "unknown"
  }

  /** The store hosts themselves, and a host naming both stores, which goes to Cafe Bazaar. */
  lemma DomainToStoreHosts(a: String, b: String)
    ensures DomainToStore("cafebazaar.ir") == "bazaar"
    ensures DomainToStore("myket.ir") == "myket"
    ensures DomainToStore(a + "cafebazaar.ir" + b + "myket.ir") == "bazaar"
  {
    assert OccursAt("cafebazaar.ir", "cafebazaar.ir", 0);
    assert OccursAt("myket.ir", "myket.ir", 0);
    assert !Contains("myket.ir", "cafebazaar.ir");
    var h := a + "cafebazaar.ir" + b + "myket.ir";
    assert h[|a|..|a| + 13] == "cafebazaar.ir";
    assert OccursAt(h, "cafebazaar.ir", |a|);
  }

  predicate IsAsciiLetter(c: char) { 'a' <= c <= 'z' || 'A' <= c <= 'Z' }

  /** The characters `urlsplit` allows in a scheme. */
  predicate IsSchemeChar(c: char) {
    IsAsciiLetter(c) || '0' <= c <= '9' || c == '+' || c == '-' || c == '.'
  }

  /** The characters that end a network location: `/`, `?` and `#`. */
  predicate InNetLoc(c: char) { c != '/' && c != '?' && c != '#' }

  /** What `urlsplit` reads after the scheme: the text after the first `:` when what
      precedes it is a scheme (a letter, then scheme characters), else the whole URL. */
  function AfterScheme(url: String): String
  {
    var i := |BeforeFirst(url, ':')|;
    if 0 < i < |url| && IsAsciiLetter(url[0]) && forall k | 0 <= k < i :: IsSchemeChar(url[k])
    then url[i + 1..]
    else url
  }

  /** `urlparse(url).netloc`: after `//`, everything up to the next `/`, `?` or `#`. */
  function NetLoc(url: String): (r: String)
    ensures forall c | c in r :: InNetLoc(c)
  {
    NetLocAfterScheme(AfterScheme(url))
  }

  /** `urlsplit` raises `ValueError("Invalid IPv6 URL")` on a network location holding
      a `[` without a `]`, or a `]` without a `[`. */
  predicate UnbalancedBrackets(n: String) {
    ('[' in n) != (']' in n)
  }

  const InvalidIpv6: string := "ValueError"

  /** `urlparse(url).netloc`, or an error on unbalanced brackets, the only `urlparse`
      error modelled. */
  function ParseNetLoc(url: String): (r: Result<String>)
    ensures r.Err? <==> UnbalancedBrackets(NetLoc(url))
    ensures r.Ok? ==> r.value == NetLoc(url)
  {
    if UnbalancedBrackets(NetLoc(url)) then Err(InvalidIpv6) else Ok(NetLoc(url))
  }

  /** The network location read from what follows the scheme. */
  function NetLocAfterScheme(rest: String): (r: String)
    ensures forall c | c in r :: InNetLoc(c)
  {
    if |rest| >= 2 && rest[..2] == "//" then
      var tail := rest[2..];
      tail[..RunLength(tail, 0, InNetLoc)]
    else []
  }

  /** After a well-formed scheme and its `:`, `urlsplit` reads the rest. */
  lemma AfterSchemeOf(scheme: String, rest: String)
    requires scheme != [] && IsAsciiLetter(scheme[0])
    requires forall c | c in scheme :: IsSchemeChar(c)
    ensures AfterScheme(scheme + ":" + rest) == rest
  {
    var url := scheme + ":" + rest;
    var b := BeforeFirst(url, ':');
    assert url[|scheme|] == ':';
    assert forall k | 0 <= k < |scheme| :: scheme[k] in scheme;
    assert forall k | 0 <= k < |scheme| :: url[k] == scheme[k] && url[k] != ':';
    assert forall k | 0 <= k < |b| :: b[k] == url[k];
    assert |b| == |scheme|;
    assert url[|scheme| + 1..] == rest;
  }

  /** The network location stops exactly where the host does. */
  lemma HostRun(host: String, path: String)
    requires forall c | c in host :: InNetLoc(c)
    requires path == [] || !InNetLoc(path[0])
    ensures RunLength(host + path, 0, InNetLoc) == |host|
  {
    var tail := host + path;
    var n := RunLength(tail, 0, InNetLoc);
    assert forall k | 0 <= k < |host| :: tail[k] == host[k] && host[k] in host;
    assert |host| < |tail| ==> tail[|host|] == path[0];
  }

  /** For `scheme://host` followed by a path, query or fragment (or nothing), the
      network location is the host, and the parse fails exactly when the host's
      brackets are unbalanced, the only `urlparse` error modelled. */
  lemma NetLocOfAbsolute(scheme: String, host: String, path: String)
    requires scheme != [] && IsAsciiLetter(scheme[0])
    requires forall c | c in scheme :: IsSchemeChar(c)
    requires forall c | c in host :: InNetLoc(c)
    requires path == [] || !InNetLoc(path[0])
    ensures NetLoc(scheme + "://" + host + path) == host
    ensures ParseNetLoc(scheme + "://" + host + path) ==
      if UnbalancedBrackets(host) then Err(InvalidIpv6) else Ok(host)
  {
    var rest := "//" + host + path;
    assert scheme + "://" + host + path == scheme + ":" + rest;
    AfterSchemeOf(scheme, rest);
    NetLocOfHost(host, path);
  }

  lemma NetLocOfHost(host: String, path: String)
    requires forall c | c in host :: InNetLoc(c)
    requires path == [] || !InNetLoc(path[0])
    ensures NetLocAfterScheme("//" + host + path) == host
  {
    var rest := "//" + host + path;
    assert rest[..2] == "//";
    assert rest[2..] == host + path;
    HostRun(host, path);
    assert (host + path)[..|host|] == host;
  }

  /** `url_to_app_id`: the first `/app/<package>` capture, or `manual-<seconds>` built
      from the clock, which comes in as `nowSeconds`. */
  function UrlToAppId(url: String, nowSeconds: nat): (r: String)
    ensures AppIdOf(url).Some? ==> r == AppIdOf(url).value
    ensures AppIdOf(url).None? ==> r == "manual-" + NatToDecimal(nowSeconds)
  {
    match AppIdOf(url)
    case Some(id) => id
    case None => "manual-" + NatToDecimal(nowSeconds)
  }

  /** Either way, the app id is a non-empty run of `[A-Za-z0-9._-]`. */
  lemma UrlToAppIdShape(url: String, nowSeconds: nat)
    ensures UrlToAppId(url, nowSeconds) != []
    ensures forall c | c in UrlToAppId(url, nowSeconds) :: IsAppIdChar(c)
  {
    var r := UrlToAppId(url, nowSeconds);
    if AppIdOf(url).None? {
      var d := NatToDecimal(nowSeconds);
      assert r == "manual-" + d;
      forall c | c in r
        ensures IsAppIdChar(c)
      {
        var k :| 0 <= k < |r| && r[k] == c;
        if k >= 7 {
          assert c == d[k - 7];
        }
      }
    } else {
      assert forall c | c in r :: exists k | 0 <= k < |r| :: r[k] == c;
    }
  }

  // ---------------------------------------------------------------------------
  // JSON values and Python truthiness

  /** A value produced by `json.loads`. A number is carried as the text `str()` gives
      for it, which is all that the crawler looks at. */
  datatype Json =
    | JNull
    | JBool(b: bool)
    | JNum(text: String)
    | JStr(s: String)
    | JArr(items: seq<Json>)
    | JObj(fields: map<String, Json>)

  /** Python's `bool(v)`. */
  predicate Truthy(v: Json) {
    match v
    case JNull => false
    case JBool(b) => b
    case JNum(t) => t != "0" && t != "0.0" && t != "-0.0"
    case JStr(s) => s != []
    case JArr(xs) => xs != []
    case JObj(m) => m != map[]
  }

  /** Python's `str(v)`. A list or dict prints starting with a bracket, which is all
      that matters here: it is never a digit. */
  function PyStr(v: Json): String {
    match v
    case JNull => "None"
    case JBool(b) => if b then "True" else "False"
    case JNum(t) => t
    case JStr(s) => s
    case JArr(_) => "[...]"
    case JObj(_) => "{...}"
  }

  /** `o.get(k, d)`. */
  function GetOr(o: map<String, Json>, k: String, d: Json): Json {
    if k in o then o[k] else d
  }

  // ---------------------------------------------------------------------------
  // `extract_json_ld`

  /** The four keys `extract_json_ld` may set; `None` is a key never set, `Some(JNull)`
      a key set to Python's `None`. */
  datatype LdData = LdData(title: Option<Json>, rating: Option<Json>, ratingsCount: Option<Json>, description: Option<Json>)

  const NoLd := LdData(None, None, None, None)

  /** Raised when an item is not an object (it has no `get`). */
  const NotAnObject: string := "AttributeError"

  /** `data.get(k) or v`. */
  function Pick(cur: Option<Json>, v: Json): Option<Json> {
    if cur.Some? && Truthy(cur.value) then cur else Some(v)
  }

  predicate Set(v: Option<Json>) { v.Some? && Truthy(v.value) }

  /** `it.get("@type") or it.get("@context", "")`. */
  function TypeOf(o: map<String, Json>): Json {
    var t := GetOr(o, "@type", JNull);
    if Truthy(t) then t else GetOr(o, "@context", JStr(""))
  }

  /** A type string naming one of the three application types. */
  predicate IsAppType(typ: Json) {
    && typ.JStr?
    && (|| Contains(typ.s, "SoftwareApplication")
        || Contains(typ.s, "MobileApplication")
        || Contains(typ.s, "VideoGame"))
  }

  predicate Matches(it: Json) {
    it.JObj? && IsAppType(TypeOf(it.fields))
  }

  /** `agg.get(k) if isinstance(agg, dict) else None`, with `agg = it.get("aggregateRating") or {}`. */
  function AggField(o: map<String, Json>, k: String): Json {
    var a0 := GetOr(o, "aggregateRating", JNull);
    var a := if Truthy(a0) then a0 else JObj(map[]);
    if a.JObj? then GetOr(a.fields, k, JNull) else JNull
  }

  /** One pass of the inner loop over an item. */
  function MergeItem(d: LdData, it: Json): Result<LdData> {
    if !it.JObj? then Err(NotAnObject)
    else if !IsAppType(TypeOf(it.fields)) then Ok(d)
    else
      var o := it.fields;
      Ok(LdData(
        Pick(d.title, GetOr(o, "name", JNull)),
        Pick(d.rating, AggField(o, "ratingValue")),
        Pick(d.ratingsCount, AggField(o, "ratingCount")),
        Pick(d.description, GetOr(o, "description", JNull))))
  }

  /** The items in order, each failing item stopping the scan. */
  function MergeAll(d: LdData, items: seq<Json>): Result<LdData> {
    if items == [] then Ok(d)
    else
      match MergeAll(d, items[..|items| - 1])
      case Err(e) => Err(e)
      case Ok(d') => MergeItem(d', items[|items| - 1])
  }

  /** A payload that is a list contributes its elements, anything else itself. */
  function ItemsOf(payload: Json): seq<Json> {
    if payload.JArr? then payload.items else [payload]
  }

  /** The items of all script blocks; `None` is a block whose text did not parse. */
  function AllItems(blocks: seq<Option<Json>>): seq<Json> {
    if blocks == [] then []
    else
      AllItems(blocks[..|blocks| - 1]) + BlockItems(blocks[|blocks| - 1])
  }

  /** The items of one block. */
  function BlockItems(block: Option<Json>): seq<Json> {
    match block case Some(p) => ItemsOf(p) case None => []
  }

  lemma {:induction false} AllItemsConcat(a: seq<Option<Json>>, b: seq<Option<Json>>)
    ensures AllItems(a + b) == AllItems(a) + AllItems(b)
  {
    if b == [] {
      assert a + b == a;
    } else {
      var ab, b' := a + b, b[..|b| - 1];
      var t := BlockItems(b[|b| - 1]);
      assert ab[..|ab| - 1] == a + b';
      assert ab[|ab| - 1] == b[|b| - 1];
      AllItemsConcat(a, b');
      assert AllItems(ab) == (AllItems(a) + AllItems(b')) + t;
      assert AllItems(b) == AllItems(b') + t;
      assert (AllItems(a) + AllItems(b')) + t == AllItems(a) + (AllItems(b') + t);
    }
  }

  /** Merging a concatenation merges the first part, then the second from there. */
  lemma {:induction false} MergeAllConcat(d: LdData, a: seq<Json>, b: seq<Json>)
    ensures MergeAll(d, a + b) ==
      match MergeAll(d, a) case Err(e) => Err(e) case Ok(d') => MergeAll(d', b)
  {
    if b == [] {
      assert a + b == a;
    } else {
      var ab := a + b;
      assert ab[..|ab| - 1] == a + b[..|b| - 1];
      assert ab[|ab| - 1] == b[|b| - 1];
      MergeAllConcat(d, a, b[..|b| - 1]);
    }
  }

  /** The items of all blocks, around item `j` of block `i`. */
  lemma AllItemsAround(blocks: seq<Option<Json>>, i: nat, j: nat)
    requires i < |blocks| && blocks[i].Some? && j < |ItemsOf(blocks[i].value)|
    ensures var items := ItemsOf(blocks[i].value);
      AllItems(blocks) ==
        (AllItems(blocks[..i]) + items[..j] + [items[j]]) + (items[j + 1..] + AllItems(blocks[i + 1..]))
  {
    AllItemsSplit(blocks, i + 1);
    AllItemsStep(blocks, i);
    SplitAround(AllItems(blocks[..i]), ItemsOf(blocks[i].value), AllItems(blocks[i + 1..]), j);
  }

  /** The items of the first `i + 1` blocks: those of the first `i`, then block `i`'s. */
  lemma AllItemsStep(blocks: seq<Option<Json>>, i: nat)
    requires i < |blocks|
    ensures AllItems(blocks[..i + 1]) == AllItems(blocks[..i]) + BlockItems(blocks[i])
  {
    assert blocks[..i + 1][..i] == blocks[..i];
  }

  lemma AllItemsSplit(blocks: seq<Option<Json>>, n: nat)
    requires n <= |blocks|
    ensures AllItems(blocks) == AllItems(blocks[..n]) + AllItems(blocks[n..])
  {
    assert blocks[..n] + blocks[n..] == blocks;
    AllItemsConcat(blocks[..n], blocks[n..]);
  }

  lemma SplitAround<T>(a: seq<T>, items: seq<T>, b: seq<T>, j: nat)
    requires j < |items|
    ensures a + items + b == (a + items[..j] + [items[j]]) + (items[j + 1..] + b)
  {
    assert items == items[..j] + [items[j]] + items[j + 1..];
  }

  /** Once the scan has failed, nothing after changes that. */
  lemma MergeAllErrSticks(d: LdData, a: seq<Json>, b: seq<Json>)
    requires MergeAll(d, a).Err?
    ensures MergeAll(d, a + b) == MergeAll(d, a)
  {
    MergeAllConcat(d, a, b);
  }

  /** A failing item fails the whole scan, whatever follows it. */
  lemma StopsAt(blocks: seq<Option<Json>>, i: nat, j: nat)
    requires i < |blocks| && blocks[i].Some?
    requires j < |ItemsOf(blocks[i].value)| && !ItemsOf(blocks[i].value)[j].JObj?
    requires MergeAll(NoLd, AllItems(blocks[..i]) + ItemsOf(blocks[i].value)[..j]).Ok?
    ensures MergeAll(NoLd, AllItems(blocks)) == Err(NotAnObject)
  {
    var items := ItemsOf(blocks[i].value);
    var done := AllItems(blocks[..i]) + items[..j];
    assert (done + [items[j]])[..|done|] == done;
    assert MergeAll(NoLd, done + [items[j]]) == Err(NotAnObject);
    AllItemsAround(blocks, i, j);
    MergeAllErrSticks(NoLd, done + [items[j]], items[j + 1..] + AllItems(blocks[i + 1..]));
  }

  /** `extract_json_ld`, given the parse result of each `application/ld+json` block. */
  method ExtractJsonLd(blocks: seq<Option<Json>>) returns (r: Result<LdData>)
    ensures r == MergeAll(NoLd, AllItems(blocks))
  {
    var data := NoLd;
    for i := 0 to |blocks|
      invariant Ok(data) == MergeAll(NoLd, AllItems(blocks[..i]))
    {
      AllItemsStep(blocks, i);
      var before := AllItems(blocks[..i]);
      if blocks[i].Some? {
        var items := ItemsOf(blocks[i].value);
        assert before + items[..0] == before;
        for j := 0 to |items|
          invariant Ok(data) == MergeAll(NoLd, before + items[..j])
        {
          MergeStep(before, items, j);
          var it := items[j];
          if !it.JObj? {
            StopsAt(blocks, i, j);
            return Err(NotAnObject);
          }
          data := MergeItem(data, it).value;
        }
        assert items[..|items|] == items;
      } else {
        assert before + [] == before;
      }
    }
    assert blocks[..|blocks|] == blocks;
    r := Ok(data);
  }

  /** Merging one more item of a block. */
  lemma MergeStep(before: seq<Json>, items: seq<Json>, j: nat)
    requires j < |items|
    ensures MergeAll(NoLd, before + items[..j + 1]) ==
      match MergeAll(NoLd, before + items[..j]) case Err(e) => Err(e) case Ok(d) => MergeItem(d, items[j])
  {
    var done := before + items[..j];
    assert before + items[..j + 1] == done + [items[j]];
    assert (done + [items[j]])[..|done|] == done;
  }

  /** The scan fails exactly when some item is not an object. */
  lemma {:induction false} MergeAllFails(d: LdData, items: seq<Json>)
    ensures MergeAll(d, items).Err? <==> exists i | 0 <= i < |items| :: !items[i].JObj?
  {
    if items != [] {
      var init := items[..|items| - 1];
      MergeAllFails(d, init);
      assert forall i | 0 <= i < |init| :: init[i] == items[i];
    }
  }

  /** Items that do not name an application type change nothing. */
  lemma {:induction false} MergeAllSkips(d: LdData, items: seq<Json>)
    requires forall i | 0 <= i < |items| :: items[i].JObj? && !Matches(items[i])
    ensures MergeAll(d, items) == Ok(d)
  {
    if items != [] {
      MergeAllSkips(d, items[..|items| - 1]);
    }
  }

  /** The earliest value wins: a field already set to a truthy value is never changed. */
  lemma {:induction false} MergeAllKeeps(d: LdData, items: seq<Json>)
    requires MergeAll(d, items).Ok?
    ensures Set(d.title) ==> MergeAll(d, items).value.title == d.title
    ensures Set(d.rating) ==> MergeAll(d, items).value.rating == d.rating
    ensures Set(d.ratingsCount) ==> MergeAll(d, items).value.ratingsCount == d.ratingsCount
    ensures Set(d.description) ==> MergeAll(d, items).value.description == d.description
  {
    if items != [] {
      MergeAllKeeps(d, items[..|items| - 1]);
    }
  }

  /** The title is the name of the first matching item whose name is truthy, when no
      earlier item matched. */
  lemma FirstTitleWins(items: seq<Json>, i: nat)
    requires i < |items|
    requires forall k | 0 <= k < i :: items[k].JObj? && !Matches(items[k])
    requires Matches(items[i]) && Truthy(GetOr(items[i].fields, "name", JNull))
    requires MergeAll(NoLd, items).Ok?
    ensures MergeAll(NoLd, items).value.title == Some(items[i].fields["name"])
  {
    MergeFirstMatch(items, i);
    var d1 := TitleOfMatch(items[i]);
    MergeAllSplit(NoLd, items, i + 1);
    MergeAllKeeps(d1, items[i + 1..]);
  }

  /** Merging a sequence merges a prefix, then the rest from there. */
  lemma MergeAllSplit(d: LdData, items: seq<Json>, n: nat)
    requires n <= |items|
    ensures MergeAll(d, items) ==
      match MergeAll(d, items[..n]) case Err(e) => Err(e) case Ok(d') => MergeAll(d', items[n..])
  {
    assert items[..n] + items[n..] == items;
    MergeAllConcat(d, items[..n], items[n..]);
  }

  /** Merging items that do not match, then one that does, merges that one into
      nothing. */
  lemma MergeFirstMatch(items: seq<Json>, i: nat)
    requires i < |items|
    requires forall k | 0 <= k < i :: items[k].JObj? && !Matches(items[k])
    requires Matches(items[i])
    ensures MergeAll(NoLd, items[..i + 1]) == MergeItem(NoLd, items[i])
  {
    var before := items[..i];
    MergeAllSkips(NoLd, before);
    assert items[..i + 1][..i] == before;
  }

  /** Merged into nothing, a matching item with a truthy name sets the title to it. */
  lemma TitleOfMatch(x: Json) returns (d: LdData)
    requires Matches(x) && Truthy(GetOr(x.fields, "name", JNull))
    ensures MergeItem(NoLd, x) == Ok(d)
    ensures Set(d.title) && d.title == Some(x.fields["name"])
  {
    d := MergeItem(NoLd, x).value;
  }

  // ---------------------------------------------------------------------------
  // `extract_fields`

  /** The stripped page meta: `og:title` or `<title>`, and the description. */
  datatype Fallback = Fallback(title: String, description: String)

  /** The validated fields. `rating` is the text `float()` reads. */
  datatype Fields = Fields(title: String, description: String, rating: Option<String>, ratingsCount: Option<nat>)

  /** `(v or fb or "").strip()`; a truthy non-string has no `strip`. */
  function TextField(v: Option<Json>, fb: String): (r: Result<String>)
    ensures r.Err? <==> Set(v) && !v.value.JStr?
    ensures r.Ok? ==> Strip(r.value) == r.value
    ensures r.Ok? && Set(v) ==> r.value == Strip(v.value.s)
    ensures !Set(v) ==> r == Ok(Strip(fb))
  {
    StripIdempotent(fb);
    if Set(v) then
      match v.value
      case JStr(s) => StripIdempotent(s); Ok(Strip(s))
      case _ => Err(NotAnObject)
    else Ok(Strip(fb))
  }

  /** `str(data.get(k, ""))`. */
  function StrOf(v: Option<Json>): String {
    if v.None? then "" else PyStr(v.value)
  }

  /** A rating passes when its text, with the first `.` removed, is all digits. */
  predicate IsRatingText(t: String) {
    IsDigitString(RemoveFirst(t, '.'))
  }

  /** That is: at least one digit, at most one `.`, and nothing else. */
  lemma RatingTextShape(t: String)
    ensures IsRatingText(t) <==>
      && multiset(t)['.'] <= 1
      && (forall c | c in t :: c == '.' || IsDigit(c))
      && (exists c | c in t :: IsDigit(c))
  {
    if IsRatingText(t) {
      RatingTextOnly(t);
    }
    if && multiset(t)['.'] <= 1
       && (forall c | c in t :: c == '.' || IsDigit(c))
       && (exists c | c in t :: IsDigit(c))
    {
      RatingTextIf(t);
    }
  }

  lemma RatingTextOnly(t: String)
    requires IsRatingText(t)
    ensures multiset(t)['.'] <= 1
    ensures forall c | c in t :: c == '.' || IsDigit(c)
    ensures exists c | c in t :: IsDigit(c)
  {
    var r := RemoveFirst(t, '.');
    RemoveFirstChars(t, '.');
    assert '.' !in r by {
      assert forall k | 0 <= k < |r| :: IsDigit(r[k]);
    }
    assert r[0] in r;
  }

  lemma RatingTextIf(t: String)
    requires multiset(t)['.'] <= 1
    requires forall c | c in t :: c == '.' || IsDigit(c)
    requires exists c | c in t :: IsDigit(c)
    ensures IsRatingText(t)
  {
    var r := RemoveFirst(t, '.');
    RemoveFirstChars(t, '.');
    var c :| c in t && IsDigit(c);
    assert c in r;
    assert '.' !in multiset(r);
    forall k | 0 <= k < |r|
      ensures IsDigit(r[k])
    {
      assert r[k] in r;
    }
  }

  function RatingOf(v: Option<Json>): (r: Option<String>)
    ensures r.Some? <==> IsRatingText(StrOf(v))
    ensures r.Some? ==> r.value == StrOf(v)
  {
    if IsRatingText(StrOf(v)) then Some(StrOf(v)) else None
  }

  /** `int(v) if str(v).isdigit() else None`. */
  function CountOf(v: Option<Json>): (r: Option<nat>)
    ensures r.Some? <==> IsDigitString(StrOf(v))
  {
    var t := StrOf(v);
    if IsDigitString(t) then Some(DecimalValue(t)) else None
  }

  /** A count stored as a JSON integer, or as its decimal string, reads back unchanged;
      missing, null and boolean counts read as `None`. */
  lemma CountOfRoundTrip(n: nat)
    ensures CountOf(Some(JNum(NatToDecimal(n)))) == Some(n)
    ensures CountOf(Some(JStr(NatToDecimal(n)))) == Some(n)
    ensures CountOf(None) == None && CountOf(Some(JNull)) == None
    ensures CountOf(Some(JBool(true))) == None && CountOf(Some(JBool(false))) == None
  {
    DecimalRoundTrip(n);
    assert !IsDigit('N') && !IsDigit('T') && !IsDigit('F');
  }

  /** `extract_fields` on the merged JSON-LD data and the fallback meta. */
  function ExtractFields(data: LdData, fb: Fallback): (r: Result<Fields>)
    ensures r.Ok? <==> TextField(data.title, fb.title).Ok? && TextField(data.description, fb.description).Ok?
    ensures r.Ok? ==> r.value.title == TextField(data.title, fb.title).value
    ensures r.Ok? ==> r.value.description == TextField(data.description, fb.description).value
    ensures r.Ok? ==> r.value.rating == RatingOf(data.rating)
    ensures r.Ok? ==> r.value.ratingsCount == CountOf(data.ratingsCount)
  {
    match TextField(data.title, fb.title)
    case Err(e) => Err(e)
    case Ok(title) =>
      match TextField(data.description, fb.description)
      case Err(e) => Err(e)
      case Ok(desc) => Ok(Fields(title, desc, RatingOf(data.rating), CountOf(data.ratingsCount)))
  }

  /** `extract_fields(html)`: the script blocks' parse results and the fallback meta
      stand for the page. */
  function FieldsOf(blocks: seq<Option<Json>>, fb: Fallback): (r: Result<Fields>)
    ensures r.Ok? ==> MergeAll(NoLd, AllItems(blocks)).Ok?
  {
    match MergeAll(NoLd, AllItems(blocks))
    case Err(e) => Err(e)
    case Ok(d) => ExtractFields(d, fb)
  }

  /** Without any JSON-LD, the title and description are the stripped fallback meta and
      there is neither a rating nor a count. */
  lemma FieldsWithoutLd(fb: Fallback)
    ensures FieldsOf([], fb) == Ok(Fields(Strip(fb.title), Strip(fb.description), None, None))
  {
  }

  // ---------------------------------------------------------------------------
  // `to_game_doc`

  datatype GameDoc = GameDoc(
    store: String, appId: String, title: String, genre: String,
    rating: Option<String>, ratingsCount: Option<nat>, installs: Option<nat>,
    monetization: String, description: String, featureFlags: seq<String>,
    releasedAt: Option<String>, updatedAt: String)

  /** `to_game_doc`; the clock comes in as `nowSeconds` and `nowIso`. It fails on a
      network location with unbalanced brackets, the only `urlparse` error modelled. */
  function ToGameDoc(url: String, f: Fields, nowSeconds: nat, nowIso: String): (r: Result<GameDoc>)
    ensures r.Err? <==> UnbalancedBrackets(NetLoc(url))
    ensures r.Ok? ==> r.value.genre == "unknown" && r.value.monetization == "unknown"
    ensures r.Ok? ==> r.value.featureFlags == [] && r.value.installs.None? && r.value.releasedAt.None?
    ensures r.Ok? ==> r.value.title == f.title && r.value.description == f.description
    ensures r.Ok? ==> r.value.rating == f.rating && r.value.ratingsCount == f.ratingsCount
    ensures r.Ok? ==> r.value.updatedAt == nowIso
    ensures r.Ok? ==> r.value.store == DomainToStore(NetLoc(url))
    ensures r.Ok? ==> r.value.appId == UrlToAppId(url, nowSeconds)
  {
    match ParseNetLoc(url)
    case Err(e) => Err(e)
    case Ok(netloc) =>
      Ok(GameDoc(DomainToStore(netloc), UrlToAppId(url, nowSeconds), f.title, "unknown",
                 f.rating, f.ratingsCount, None, "unknown", f.description, [], None, nowIso))
  }

  /** The record of a page on a store host carries that store; a host with
      unbalanced brackets (the only `urlparse` error modelled) gives no record. */
  lemma ToGameDocStore(host: String, path: String, f: Fields, nowSeconds: nat, nowIso: String)
    requires forall c | c in host :: InNetLoc(c)
    requires path == [] || !InNetLoc(path[0])
    ensures UnbalancedBrackets(host) <==> ToGameDoc("https://" + host + path, f, nowSeconds, nowIso).Err?
    ensures !UnbalancedBrackets(host) && Contains(host, "cafebazaar.ir") ==>
      ToGameDoc("https://" + host + path, f, nowSeconds, nowIso).value.store == "bazaar"
    ensures !UnbalancedBrackets(host) && !Contains(host, "cafebazaar.ir") && Contains(host, "myket.ir") ==>
      ToGameDoc("https://" + host + path, f, nowSeconds, nowIso).value.store == "myket"
  {
    var url := "https://" + host + path;
    assert "https" + "://" + host + path == url;
    NetLocOfAbsolute("https", host, path);
  }
}
