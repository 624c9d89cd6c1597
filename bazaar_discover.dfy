/** Breadth-first discovery of Cafe Bazaar list pages (services/scraper/spiders/bazaar_discover.py).
    The HTTP client is the oracle `fetch`: `None` for a failed request, otherwise the
    page reached after redirects with its anchors already resolved. */
module BazaarDiscover {
  import opened Wrappers
  import opened Text
  import opened Seqs
  import opened Patterns
  import opened Frontier

  const Origin: String := "https://cafebazaar.ir/"

  /** How `_links_from` sorts one anchor target. */
  datatype Kind = AppLink | ListLink | Ignored

  predicate IsCategoryUrl(u: String) {
    Contains(u, "/cat/") || Contains(u, "/category/game")
  }

  /** The if-chain of `_links_from` for one resolved anchor on the page at `base`. */
  function Classify(url: String, base: String): Kind {
    if !(Origin <= url) || Contains(url, "/video/") then Ignored
    else if AppIdOf(url).Some? then AppLink
    else if IsCategoryUrl(url) then ListLink
    else if Contains(url, "?page=") && IsCategoryUrl(base) then ListLink
    else Ignored
  }

  /** The anchors of kind `k`, in page order, duplicates included. */
  function Select(anchors: seq<String>, base: String, k: Kind): (r: seq<String>)
    ensures forall u | u in r :: u in anchors && Classify(u, base) == k
    ensures forall u | u in anchors && Classify(u, base) == k :: u in r
  {
    if anchors == [] then []
    else
      var last := anchors[|anchors| - 1];
      Select(anchors[..|anchors| - 1], base, k) + (if Classify(last, base) == k then [last] else [])
  }

  /** `_links_from`: the app links and the list links of a page, each de-duplicated in
      page order. A link is kept only under the store's origin and outside `/video/`;
      an `/app/<id>` link is an app link even when it also looks like a list link;
      a `?page=` link counts as a list link only on a category page. */
  method LinksFrom(anchors: seq<String>, base: String) returns (apps: seq<String>, lists: seq<String>)
    ensures apps == Dedup(Select(anchors, base, AppLink))
    ensures lists == Dedup(Select(anchors, base, ListLink))
    ensures NoDups(apps) && NoDups(lists)
    ensures forall u | u in apps + lists :: Origin <= u && !Contains(u, "/video/")
    ensures forall u | u in apps :: u !in lists
    ensures forall u :: u in apps <==>
      u in anchors && Origin <= u && !Contains(u, "/video/") && AppIdOf(u).Some?
    ensures forall u :: u in lists <==>
      && u in anchors && Origin <= u && !Contains(u, "/video/") && AppIdOf(u).None?
      && (IsCategoryUrl(u) || (Contains(u, "?page=") && IsCategoryUrl(base)))
  {
    var appsAll, listsAll := [], [];
    for i := 0 to |anchors|
      invariant appsAll == Select(anchors[..i], base, AppLink)
      invariant listsAll == Select(anchors[..i], base, ListLink)
    {
      assert anchors[..i + 1][..i] == anchors[..i];
      var url := anchors[i];
      if !(Origin <= url) { continue; }
      if Contains(url, "/video/") { continue; }
      if AppIdOf(url).Some? {
        appsAll := appsAll + [url];
      } else if IsCategoryUrl(url) {
        listsAll := listsAll + [url];
      } else if Contains(url, "?page=") && IsCategoryUrl(base) {
        listsAll := listsAll + [url];
      }
    }
    assert anchors[..|anchors|] == anchors;
    apps := Uniq(appsAll);
    lists := Uniq(listsAll);
    LinksShape(anchors, base);
  }

  /** The two de-duplicated selections are disjoint, and hold exactly the links of
      their kind. */
  lemma LinksShape(anchors: seq<String>, base: String)
    ensures var apps, lists := Dedup(Select(anchors, base, AppLink)), Dedup(Select(anchors, base, ListLink));
      && (forall u | u in apps + lists :: Origin <= u && !Contains(u, "/video/"))
      && (forall u | u in apps :: u !in lists)
      && (forall u :: u in apps <==>
            u in anchors && Origin <= u && !Contains(u, "/video/") && AppIdOf(u).Some?)
      && (forall u :: u in lists <==>
            && u in anchors && Origin <= u && !Contains(u, "/video/") && AppIdOf(u).None?
            && (IsCategoryUrl(u) || (Contains(u, "?page=") && IsCategoryUrl(base))))
  {
  }

  /** The list links `_links_from` returns for a fetched page. */
  function PageLists(p: Page): seq<String> {
    Dedup(Select(p.anchors, p.finalUrl, ListLink))
  }

  /** `f"{base}?page={p}"` for `p` in `range(2, 51)`. */
  function PagedUrls(base: String): (r: seq<String>)
    ensures |r| == 49
    ensures forall p | 2 <= p <= 50 :: r[p - 2] == base + "?page=" + NatToDecimal(p)
  {
    seq(49, k requires 0 <= k < 49 => base + "?page=" + NatToDecimal(k + 2))
  }

  /** The speculative pages a list link expands into: only links under `/cat/`, with
      the query string cut off. */
  function Expansion(l: String): seq<String> {
    if Contains(l, "/cat/") then PagedUrls(BeforeFirst(l, '?')) else []
  }

  /** The queue after the first enqueuing loop: for each list link in turn, its
      expansion offered through the gated append. */
  function Expanded(q: seq<String>, seen: set<String>, nSeeds: nat, lists: seq<String>, limit: int): seq<String> {
    if lists == [] then q
    else
      Offered(Expanded(q, seen, nSeeds, lists[..|lists| - 1], limit), seen, nSeeds,
              Expansion(lists[|lists| - 1]), limit)
  }

  /** The queue after both enqueuing loops: the expansions first, then the list links. */
  function Enqueued(q: seq<String>, seen: set<String>, nSeeds: nat, lists: seq<String>, limit: int): seq<String> {
    Offered(Expanded(q, seen, nSeeds, lists, limit), seen, nSeeds, lists, limit)
  }

  /** One iteration of the `while` loop of `discover_from_bazaar_root`, from state `st`:
      pop the head of the queue; skip it if seen; otherwise mark it seen and fetch it; on
      success keep its final URL and enqueue what its list links give. */
  function Step(st: Crawl, maxLists: int, fetch: String -> Option<Page>): (r: Crawl)
    requires st.q != []
    ensures st.seeds <= r.seeds
    ensures |r.seeds| == |st.seeds| + 1 || (r.seeds == st.seeds && |r.q| < |st.q|)
  {
    var url := st.q[0];
    if url in st.seen then Crawl(st.q[1..], st.seen, st.seeds)
    else
      var seen := st.seen + {url};
      match fetch(url)
      case None => Crawl(st.q[1..], seen, st.seeds)
      case Some(p) =>
        var seeds := st.seeds + [p.finalUrl];
        Crawl(Enqueued(st.q[1..], seen, |seeds|, PageLists(p), 2 * maxLists), seen, seeds)
  }

  /** The loop run from state `st` until the queue is empty or `maxLists` pages are kept;
      pages are only ever appended to `seeds`. */
  function RunCrawl(st: Crawl, maxLists: int, fetch: String -> Option<Page>): (r: Crawl)
    ensures r.q == [] || |r.seeds| >= maxLists
    ensures st.seeds <= r.seeds
    decreases maxLists - |st.seeds|, |st.q|
  {
    if st.q == [] || |st.seeds| >= maxLists then st
    else RunCrawl(Step(st, maxLists, fetch), maxLists, fetch)
  }

  /** The state the loop of `discover_from_bazaar_root` ends in. */
  function Crawled(root: String, maxLists: int, fetch: String -> Option<Page>): Crawl {
    RunCrawl(Crawl([root], {}, []), maxLists, fetch)
  }

  /** The URLs a fetched page may add to the queue: its list links and the
      expansions of those under `/cat/`. */
  ghost function Offspring(p: Page): set<String> {
    (set u | u in PageLists(p)) + (set l, u | l in PageLists(p) && u in Expansion(l) :: u)
  }

  /** Everything the pages fetched successfully among `visited` may add to the queue. */
  ghost function Harvest(visited: seq<String>, fetch: String -> Option<Page>): set<String> {
    if visited == [] then {}
    else
      Harvest(visited[..|visited| - 1], fetch)
      + (match fetch(visited[|visited| - 1]) case Some(p) => Offspring(p) case None => {})
  }

  /** The URLs kept from a fetch: its final URL when it succeeded. */
  function Kept(r: Option<Page>): seq<String> {
    match r case Some(p) => [p.finalUrl] case None => []
  }

  /** The final URLs of the successful fetches among `visited`, in fetch order. */
  function FinalUrls(visited: seq<String>, fetch: String -> Option<Page>): (r: seq<String>)
    ensures |r| <= |visited|
    ensures r == [] <==> forall v | v in visited :: fetch(v).None?
  {
    if visited == [] then []
    else
      var init := visited[..|visited| - 1];
      var last := visited[|visited| - 1];
      assert forall v | v in visited :: v in init || v == last;
      FinalUrls(init, fetch) + Kept(fetch(last))
  }

  lemma HarvestGrows(visited: seq<String>, x: String, fetch: String -> Option<Page>)
    ensures Harvest(visited, fetch) <= Harvest(visited + [x], fetch)
  {
    assert (visited + [x])[..|visited|] == visited;
  }

  /** Every logged URL after the first was produced by the pages logged before it. */
  ghost predicate Reached(visited: seq<String>, fetch: String -> Option<Page>) {
    forall i | 0 < i < |visited| :: visited[i] in Harvest(visited[..i], fetch)
  }

  /** Appending a URL that the log's pages produced keeps every logged URL produced by
      the pages logged before it. */
  lemma LogExtends(visited: seq<String>, url: String, fetch: String -> Option<Page>)
    requires Reached(visited, fetch)
    requires visited != [] ==> url in Harvest(visited, fetch)
    ensures Reached(visited + [url], fetch)
  {
    var v := visited + [url];
    forall i | 0 < i < |v| ensures v[i] in Harvest(v[..i], fetch) {
      if i < |visited| {
        assert v[..i] == visited[..i];
      } else {
        assert v[..i] == visited;
      }
    }
  }

  /** What holds of the fetch log at the head of each iteration of
      `discover_from_bazaar_root`: `seen` is the set of URLs fetched so far (logged
      in `visited`, root first, each reached from an earlier page, none twice), and
      `seeds` are the final URLs of the successful fetches. */
  ghost predicate LogInv(root: String, fetch: String -> Option<Page>,
                         seen: set<String>, seeds: seq<String>, visited: seq<String>)
  {
    && seen == (set v | v in visited)
    && NoDups(visited)
    && (visited != [] ==> visited[0] == root)
    && Reached(visited, fetch)
    && seeds == FinalUrls(visited, fetch)
  }

  /** What holds of the queue at the head of each iteration: it is duplicate-free,
      holds nothing seen, holds only the root before the first fetch and afterwards
      only offspring of fetched pages, and the kept pages plus the queued ones never
      exceed `max(1, 2 * maxLists)`. */
  ghost predicate QueueInv(root: String, maxLists: int, fetch: String -> Option<Page>,
                           q: seq<String>, seen: set<String>, seeds: seq<String>, visited: seq<String>)
  {
    && NoDups(q)
    && (forall u | u in q :: u !in seen)
    && (visited == [] ==> q == [root])
    && (visited != [] ==> forall u | u in q :: u in Harvest(visited, fetch))
    && |seeds| + |q| <= Max(1, 2 * maxLists)
  }

  /** Fetching a new URL taken from the queue extends the log consistently. */
  lemma LogStep(root: String, fetch: String -> Option<Page>,
                seen: set<String>, seeds: seq<String>, visited: seq<String>, url: String)
    requires LogInv(root, fetch, seen, seeds, visited)
    requires url !in seen
    requires visited == [] ==> url == root
    requires visited != [] ==> url in Harvest(visited, fetch)
    ensures LogInv(root, fetch, seen + {url}, seeds + Kept(fetch(url)), visited + [url])
  {
    LogExtends(visited, url, fetch);
    SeenStep(seen, visited, url);
    FinalUrlsStep(visited, url, fetch);
  }

  /** Logging an unseen URL keeps the log duplicate-free and `seen` its set. */
  lemma SeenStep(seen: set<String>, visited: seq<String>, url: String)
    requires seen == (set v | v in visited) && NoDups(visited) && url !in seen
    ensures seen + {url} == (set x | x in visited + [url])
    ensures NoDups(visited + [url])
  {
    assert url !in visited;
  }

  lemma FinalUrlsStep(visited: seq<String>, url: String, fetch: String -> Option<Page>)
    ensures FinalUrls(visited + [url], fetch) == FinalUrls(visited, fetch) + Kept(fetch(url))
  {
    var v := visited + [url];
    assert v[..|v| - 1] == visited;
  }

  /** Popping a URL whose fetch fails keeps the queue invariant. */
  lemma QueueSkip(root: String, maxLists: int, fetch: String -> Option<Page>,
                  q: seq<String>, seen: set<String>, seeds: seq<String>, visited: seq<String>)
    requires q != [] && q[0] !in seen
    requires QueueInv(root, maxLists, fetch, q, seen, seeds, visited)
    ensures QueueInv(root, maxLists, fetch, q[1..], seen + {q[0]}, seeds, visited + [q[0]])
  {
    HarvestGrows(visited, q[0], fetch);
  }

  /** Popping a URL whose fetch succeeds, then offering the page's offspring, keeps the
      queue invariant. */
  lemma QueueHarvest(root: String, maxLists: int, fetch: String -> Option<Page>,
                     q: seq<String>, seen: set<String>, seeds: seq<String>, visited: seq<String>,
                     page: Page, q': seq<String>)
    requires q != [] && q[0] !in seen && fetch(q[0]) == Some(page)
    requires QueueInv(root, maxLists, fetch, q, seen, seeds, visited)
    requires NoDups(q') && forall u | u in q' :: u !in seen + {q[0]}
    requires |seeds| + 1 + |q'| <= Max(|seeds| + |q|, 2 * maxLists)
    requires forall u | u in q' :: u in q[1..] || u in Offspring(page)
    ensures QueueInv(root, maxLists, fetch, q', seen + {q[0]}, seeds + [page.finalUrl], visited + [q[0]])
  {
    var v := visited + [q[0]];
    HarvestGrows(visited, q[0], fetch);
    assert v[..|v| - 1] == visited;
    assert Harvest(v, fetch) == Harvest(visited, fetch) + Offspring(page);
  }

  /** One iteration of the loop: pop the head of the queue and fetch it, keep its
      final URL and harvest its list links. */
  method VisitNext(root: String, maxLists: int, fetch: String -> Option<Page>,
                   q: seq<String>, seen: set<String>, seeds: seq<String>, ghost visited: seq<String>)
    returns (q': seq<String>, seen': set<String>, seeds': seq<String>, ghost visited': seq<String>)
    requires q != [] && |seeds| < maxLists
    requires LogInv(root, fetch, seen, seeds, visited)
    requires QueueInv(root, maxLists, fetch, q, seen, seeds, visited)
    ensures LogInv(root, fetch, seen', seeds', visited')
    ensures QueueInv(root, maxLists, fetch, q', seen', seeds', visited')
    ensures Crawl(q', seen', seeds') == Step(Crawl(q, seen, seeds), maxLists, fetch)
  {
    var url := q[0];
    // The source's `if url in seen: continue` never fires: no seen URL is ever queued.
    PopReady(root, maxLists, fetch, q, seen, seeds, visited);
    seen' := seen + {url};
    visited' := visited + [url];
    match fetch(url)
    case None =>
      SkipStep(root, maxLists, fetch, q, seen, seeds, visited);
      q', seeds' := q[1..], seeds;
    case Some(page) =>
      seeds' := seeds + [page.finalUrl];
      q' := HarvestPage(q[1..], seen', |seeds'|, page, 2 * maxLists);
      HarvestStep(root, maxLists, fetch, q, seen, seeds, visited, page, q');
  }

  /** The head of the queue is unseen, and was the root or the offspring of a fetched
      page; the rest of the queue is duplicate-free and unseen once the head is seen. */
  lemma PopReady(root: String, maxLists: int, fetch: String -> Option<Page>,
                 q: seq<String>, seen: set<String>, seeds: seq<String>, visited: seq<String>)
    requires q != []
    requires QueueInv(root, maxLists, fetch, q, seen, seeds, visited)
    ensures q[0] !in seen
    ensures NoDups(q[1..]) && forall u | u in q[1..] :: u !in seen + {q[0]}
    ensures visited == [] ==> q[0] == root
    ensures visited != [] ==> q[0] in Harvest(visited, fetch)
  {
    assert q[0] in q;
    forall u | u in q[1..]
      ensures u != q[0]
    {
      var k :| 0 <= k < |q[1..]| && q[1..][k] == u;
      assert q[k + 1] == u;
    }
  }

  /** A failed fetch of the head: the log grows, the queue loses its head. */
  lemma SkipStep(root: String, maxLists: int, fetch: String -> Option<Page>,
                 q: seq<String>, seen: set<String>, seeds: seq<String>, visited: seq<String>)
    requires q != [] && fetch(q[0]).None?
    requires LogInv(root, fetch, seen, seeds, visited)
    requires QueueInv(root, maxLists, fetch, q, seen, seeds, visited)
    ensures LogInv(root, fetch, seen + {q[0]}, seeds, visited + [q[0]])
    ensures QueueInv(root, maxLists, fetch, q[1..], seen + {q[0]}, seeds, visited + [q[0]])
  {
    PopReady(root, maxLists, fetch, q, seen, seeds, visited);
    LogStep(root, fetch, seen, seeds, visited, q[0]);
    QueueSkip(root, maxLists, fetch, q, seen, seeds, visited);
    assert seeds + Kept(fetch(q[0])) == seeds;
  }

  /** A successful fetch of the head: the log grows, its final URL is kept, and the
      queue is the harvested one. */
  lemma HarvestStep(root: String, maxLists: int, fetch: String -> Option<Page>,
                    q: seq<String>, seen: set<String>, seeds: seq<String>, visited: seq<String>,
                    page: Page, q': seq<String>)
    requires q != [] && fetch(q[0]) == Some(page)
    requires LogInv(root, fetch, seen, seeds, visited)
    requires QueueInv(root, maxLists, fetch, q, seen, seeds, visited)
    requires NoDups(q') && forall u | u in q' :: u !in seen + {q[0]}
    requires |seeds| + 1 + |q'| <= Max(|seeds| + 1 + |q[1..]|, 2 * maxLists)
    requires forall u | u in q' :: u in q[1..] || u in Offspring(page)
    ensures LogInv(root, fetch, seen + {q[0]}, seeds + [page.finalUrl], visited + [q[0]])
    ensures QueueInv(root, maxLists, fetch, q', seen + {q[0]}, seeds + [page.finalUrl], visited + [q[0]])
  {
    PopReady(root, maxLists, fetch, q, seen, seeds, visited);
    LogStep(root, fetch, seen, seeds, visited, q[0]);
    QueueHarvest(root, maxLists, fetch, q, seen, seeds, visited, page, q');
  }

  /** `discover_from_bazaar_root`. `visited` lists, in order, the URLs handed to `fetch`.
      No URL is fetched twice; the root is fetched first; every other URL fetched was
      a list link, or a `?page=2..50` expansion of a `/cat/` list link, of a page
      fetched before it. The result keeps the final URL of every successful fetch,
      de-duplicated and cut to `maxLists`; when no fetch succeeds it is empty (there
      is no fallback to the root). */
  method DiscoverFromBazaarRoot(root: String, maxLists: int, fetch: String -> Option<Page>)
    returns (result: seq<String>, ghost visited: seq<String>)
    ensures result == Take(Dedup(Crawled(root, maxLists, fetch).seeds), maxLists)
    ensures NoDups(visited)
    ensures maxLists > 0 ==> visited != [] && visited[0] == root
    ensures forall i | 0 < i < |visited| :: visited[i] in Harvest(visited[..i], fetch)
    ensures result == Take(Dedup(FinalUrls(visited, fetch)), maxLists)
    ensures NoDups(result)
    ensures |result| <= Max(0, maxLists)
    ensures forall s | s in result :: exists v | v in visited :: fetch(v).Some? && fetch(v).value.finalUrl == s
    ensures (forall v | v in visited :: fetch(v).None?) ==> result == []
  {
    var seeds: seq<String> := [];
    var seen: set<String> := {};
    var q: seq<String> := [root];
    visited := [];
    while q != [] && |seeds| < maxLists
      invariant LogInv(root, fetch, seen, seeds, visited)
      invariant QueueInv(root, maxLists, fetch, q, seen, seeds, visited)
      invariant RunCrawl(Crawl(q, seen, seeds), maxLists, fetch) == Crawled(root, maxLists, fetch)
      decreases maxLists - |seeds|, |q|
    {
      q, seen, seeds, visited := VisitNext(root, maxLists, fetch, q, seen, seeds, visited);
    }
    result := Take(Dedup(seeds), maxLists);
    Finish(root, maxLists, fetch, seen, seeds, visited);
  }

  /** What the loop's log gives once the loop is over. */
  lemma Finish(root: String, maxLists: int, fetch: String -> Option<Page>,
               seen: set<String>, seeds: seq<String>, visited: seq<String>)
    requires LogInv(root, fetch, seen, seeds, visited)
    requires maxLists <= 0 ==> |seeds| <= 1
    ensures var result := Take(Dedup(seeds), maxLists);
      && result == Take(Dedup(FinalUrls(visited, fetch)), maxLists)
      && NoDups(result)
      && |result| <= Max(0, maxLists)
      && (forall s | s in result :: exists v | v in visited :: fetch(v).Some? && fetch(v).value.finalUrl == s)
      && ((forall v | v in visited :: fetch(v).None?) ==> result == [])
  {
    var result := Take(Dedup(seeds), maxLists);
    TakeDistinct(Dedup(seeds), maxLists);
    forall s | s in result ensures exists v | v in visited :: fetch(v).Some? && fetch(v).value.finalUrl == s {
      FinalUrlsFrom(visited, fetch, s);
    }
  }

  /** The part of one loop iteration after a successful fetch: the page's links are
      extracted and its list links, with their `/cat/` expansions, are offered to the
      queue. Only offspring of the page are added. */
  method HarvestPage(q: seq<String>, seen: set<String>, nSeeds: nat, page: Page, limit: int)
    returns (q': seq<String>)
    requires NoDups(q) && forall u | u in q :: u !in seen
    ensures NoDups(q') && forall u | u in q' :: u !in seen
    ensures nSeeds + |q'| <= Max(nSeeds + |q|, limit)
    ensures forall u | u in q' :: u in q || u in Offspring(page)
    ensures q' == Enqueued(q, seen, nSeeds, PageLists(page), limit)
  {
    var apps, lists := LinksFrom(page.anchors, page.finalUrl);
    q' := EnqueueFromLists(q, seen, nSeeds, lists, limit);
  }

  /** The two enqueuing loops run for every fetched page: first the `?page=2..50`
      expansion of each `/cat/` list link, then the list links themselves, each
      through the gated append. */
  method EnqueueFromLists(q: seq<String>, seen: set<String>, nSeeds: nat, lists: seq<String>, limit: int)
    returns (q': seq<String>)
    requires NoDups(q) && forall u | u in q :: u !in seen
    ensures NoDups(q') && forall u | u in q' :: u !in seen
    ensures q <= q'
    ensures nSeeds + |q'| <= Max(nSeeds + |q|, limit)
    ensures forall u | u in q' :: u in q || u in lists || exists l | l in lists :: u in Expansion(l)
    ensures q' == Enqueued(q, seen, nSeeds, lists, limit)
  {
    q' := q;
    for i := 0 to |lists|
      invariant q' == Expanded(q, seen, nSeeds, lists[..i], limit)
      invariant NoDups(q') && forall u | u in q' :: u !in seen
      invariant q <= q'
      invariant nSeeds + |q'| <= Max(nSeeds + |q|, limit)
      invariant forall u | u in q' :: u in q || exists l | l in lists :: u in Expansion(l)
    {
      ExpandedStep(q, seen, nSeeds, lists, i, limit);
      if Contains(lists[i], "/cat/") {
        var baseNoQuery := BeforeFirst(lists[i], '?');
        ghost var prev := q';
        q' := Offer(q', seen, nSeeds, PagedUrls(baseNoQuery), limit);
        assert forall u | u in q' && u !in prev :: u in Expansion(lists[i]);
      }
    }
    assert lists[..|lists|] == lists;
    q' := Offer(q', seen, nSeeds, lists, limit);
  }

  /** One more list link offers its expansion, which is empty off `/cat/`. */
  lemma ExpandedStep(q: seq<String>, seen: set<String>, nSeeds: nat, lists: seq<String>, i: nat, limit: int)
    requires i < |lists|
    ensures Expanded(q, seen, nSeeds, lists[..i + 1], limit) ==
      Offered(Expanded(q, seen, nSeeds, lists[..i], limit), seen, nSeeds, Expansion(lists[i]), limit)
    ensures !Contains(lists[i], "/cat/") ==>
      Expanded(q, seen, nSeeds, lists[..i + 1], limit) == Expanded(q, seen, nSeeds, lists[..i], limit)
  {
    assert lists[..i + 1][..i] == lists[..i];
  }

  lemma {:induction false} FinalUrlsFrom(visited: seq<String>, fetch: String -> Option<Page>, s: String)
    requires s in FinalUrls(visited, fetch)
    ensures exists v | v in visited :: fetch(v).Some? && fetch(v).value.finalUrl == s
  {
    var init := visited[..|visited| - 1];
    var last := visited[|visited| - 1];
    if s in FinalUrls(init, fetch) {
      FinalUrlsFrom(init, fetch, s);
      var v :| v in init && fetch(v).Some? && fetch(v).value.finalUrl == s;
      assert v in visited;
    } else {
      assert last in visited;
    }
  }
}
