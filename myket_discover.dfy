/** Breadth-first discovery of Myket game-list pages (services/scraper/spiders/myket_discover.py).
    The HTTP client is the oracle `fetch`: `None` for a failed request, otherwise the
    page reached after redirects with its anchors already resolved. */
module MyketDiscover {
  import opened Wrappers
  import opened Text
  import opened Seqs
  import opened Patterns
  import opened Frontier

  const Origin: String := "https://myket.ir/"

  /** How `_links_from` sorts one anchor target. */
  datatype Kind = AppLink | ListLink | Ignored

  /** The if-chain of `_links_from` for one resolved anchor. Unlike the Cafe Bazaar
      spider, the `/video/` exclusion applies to list links only. */
  function Classify(url: String): Kind {
    if !(Origin <= url) then Ignored
    else if AppIdOf(url).Some? then AppLink
    else if (Contains(url, "/games/") || Contains(url, "/list/")) && !Contains(url, "/video/") then ListLink
    else Ignored
  }

  /** The anchors of kind `k`, in page order, duplicates included. */
  function Select(anchors: seq<String>, k: Kind): (r: seq<String>)
    ensures forall u | u in r :: u in anchors && Classify(u) == k
    ensures forall u | u in anchors && Classify(u) == k :: u in r
  {
    if anchors == [] then []
    else
      var last := anchors[|anchors| - 1];
      Select(anchors[..|anchors| - 1], k) + (if Classify(last) == k then [last] else [])
  }

  /** `_links_from`: the app links and the list links of a page, each de-duplicated in
      page order. Only links under the store's origin are kept; an `/app/<id>` link is
      an app link even under `/games/`; a list link lies under `/games/` or `/list/`
      and outside `/video/`. */
  method LinksFrom(anchors: seq<String>) returns (apps: seq<String>, lists: seq<String>)
    ensures apps == Dedup(Select(anchors, AppLink))
    ensures lists == Dedup(Select(anchors, ListLink))
    ensures NoDups(apps) && NoDups(lists)
    ensures forall u | u in apps :: u !in lists
    ensures forall u :: u in apps <==> u in anchors && Origin <= u && AppIdOf(u).Some?
    ensures forall u :: u in lists <==>
      && u in anchors && Origin <= u && AppIdOf(u).None?
      && (Contains(u, "/games/") || Contains(u, "/list/")) && !Contains(u, "/video/")
  {
    var appsAll, listsAll := [], [];
    for i := 0 to |anchors|
      invariant appsAll == Select(anchors[..i], AppLink)
      invariant listsAll == Select(anchors[..i], ListLink)
    {
      assert anchors[..i + 1][..i] == anchors[..i];
      var url := anchors[i];
      if !(Origin <= url) { continue; }
      if AppIdOf(url).Some? {
        appsAll := appsAll + [url];
      } else if (Contains(url, "/games/") || Contains(url, "/list/")) && !Contains(url, "/video/") {
        listsAll := listsAll + [url];
      }
    }
    assert anchors[..|anchors|] == anchors;
    apps := Uniq(appsAll);
    lists := Uniq(listsAll);
    LinksShape(anchors);
  }

  /** The two de-duplicated selections are disjoint, and hold exactly the links of
      their kind. */
  lemma LinksShape(anchors: seq<String>)
    ensures var apps, lists := Dedup(Select(anchors, AppLink)), Dedup(Select(anchors, ListLink));
      && (forall u | u in apps :: u !in lists)
      && (forall u :: u in apps <==> u in anchors && Origin <= u && AppIdOf(u).Some?)
      && (forall u :: u in lists <==>
            && u in anchors && Origin <= u && AppIdOf(u).None?
            && (Contains(u, "/games/") || Contains(u, "/list/")) && !Contains(u, "/video/"))
  {
  }

  /** The list links `_links_from` returns for a fetched page. */
  function PageLists(p: Page): seq<String> {
    Dedup(Select(p.anchors, ListLink))
  }

  /** One iteration of the `while` loop of `discover_from_games_root`, from state `st`:
      pop the head of the queue; skip it if seen; otherwise mark it seen and fetch it; on
      success keep the requested URL and offer the page's list links. */
  function Step(st: Crawl, maxLists: int, fetch: String -> Option<Page>): (r: Crawl)
    requires st.q != []
    ensures st.seeds <= r.seeds
    ensures |r.seeds| == |st.seeds| + 1 || (r.seeds == st.seeds && |r.q| < |st.q|)
  {
    var url := st.q[0];
    if url in st.seen then Crawl(st.q[1..], st.seen, st.seeds)
    else
      var seen := st.seen + {url};
      match fetch(url)
      case None => Crawl(st.q[1..], seen, st.seeds)
      case Some(p) =>
        var seeds := st.seeds + [url];
        Crawl(Offered(st.q[1..], seen, |seeds|, PageLists(p), 2 * maxLists), seen, seeds)
  }

  /** The loop run from state `st` until the queue is empty or `maxLists` pages are kept;
      pages are only ever appended to `seeds`. */
  function RunCrawl(st: Crawl, maxLists: int, fetch: String -> Option<Page>): (r: Crawl)
    ensures r.q == [] || |r.seeds| >= maxLists
    ensures st.seeds <= r.seeds
    decreases maxLists - |st.seeds|, |st.q|
  {
    if st.q == [] || |st.seeds| >= maxLists then st
    else RunCrawl(Step(st, maxLists, fetch), maxLists, fetch)
  }

  /** The state the loop of `discover_from_games_root` ends in. */
  function Crawled(root: String, maxLists: int, fetch: String -> Option<Page>): Crawl {
    RunCrawl(Crawl([root], {}, []), maxLists, fetch)
  }

  /** Everything the pages fetched successfully among `visited` may add to the queue:
      their list links. */
  ghost function Harvest(visited: seq<String>, fetch: String -> Option<Page>): set<String> {
    if visited == [] then {}
    else
      Harvest(visited[..|visited| - 1], fetch)
      + (match fetch(visited[|visited| - 1]) case Some(p) => (set u | u in PageLists(p)) case None => {})
  }

  /** The URLs among `visited` whose fetch succeeded, in fetch order: the seeds, which
      are the requested URLs and not the URLs reached after redirects. */
  function Fetched(visited: seq<String>, fetch: String -> Option<Page>): (r: seq<String>)
    ensures |r| <= |visited|
  {
    if visited == [] then []
    else
      var init := visited[..|visited| - 1];
      var last := visited[|visited| - 1];
      Fetched(init, fetch) + (if fetch(last).Some? then [last] else [])
  }

  /** The kept URLs are exactly the logged URLs whose fetch succeeded. */
  lemma {:induction false} FetchedSpec(visited: seq<String>, fetch: String -> Option<Page>)
    ensures forall u | u in Fetched(visited, fetch) :: u in visited && fetch(u).Some?
    ensures forall u | u in visited && fetch(u).Some? :: u in Fetched(visited, fetch)
  {
    if visited != [] {
      var init := visited[..|visited| - 1];
      var last := visited[|visited| - 1];
      FetchedSpec(init, fetch);
      assert forall v | v in visited :: v in init || v == last;
    }
  }

  lemma {:induction false} FetchedDistinct(visited: seq<String>, fetch: String -> Option<Page>)
    requires NoDups(visited)
    ensures NoDups(Fetched(visited, fetch))
  {
    if visited != [] {
      var init := visited[..|visited| - 1];
      FetchedDistinct(init, fetch);
      FetchedSpec(init, fetch);
      assert visited[|visited| - 1] !in init;
    }
  }

  lemma HarvestGrows(visited: seq<String>, x: String, fetch: String -> Option<Page>)
    ensures Harvest(visited, fetch) <= Harvest(visited + [x], fetch)
  {
    assert (visited + [x])[..|visited|] == visited;
  }

  /** Every logged URL after the first was produced by the pages logged before it. */
  ghost predicate Reached(visited: seq<String>, fetch: String -> Option<Page>) {
    forall i | 0 < i < |visited| :: visited[i] in Harvest(visited[..i], fetch)
  }

  /** Appending a URL that the log's pages produced keeps every logged URL produced by
      the pages logged before it. */
  lemma LogExtends(visited: seq<String>, url: String, fetch: String -> Option<Page>)
    requires Reached(visited, fetch)
    requires visited != [] ==> url in Harvest(visited, fetch)
    ensures Reached(visited + [url], fetch)
  {
    var v := visited + [url];
    forall i | 0 < i < |v| ensures v[i] in Harvest(v[..i], fetch) {
      if i < |visited| {
        assert v[..i] == visited[..i];
      } else {
        assert v[..i] == visited;
      }
    }
  }

  /** What holds of the fetch log at the head of each iteration of
      `discover_from_games_root`: `seen` is the set of URLs fetched so far (logged in
      `visited`, root first, each a list link of an earlier page, none twice), `seeds`
      are those whose fetch succeeded, and there are fewer than `maxLists` of them
      unless the loop is over. */
  ghost predicate LogInv(root: String, maxLists: int, fetch: String -> Option<Page>,
                         seen: set<String>, seeds: seq<String>, visited: seq<String>)
  {
    && seen == (set v | v in visited)
    && NoDups(visited)
    && (visited != [] ==> visited[0] == root)
    && Reached(visited, fetch)
    && seeds == Fetched(visited, fetch)
    && |seeds| <= Max(0, maxLists)
  }

  /** What holds of the queue at the head of each iteration: it is duplicate-free,
      holds nothing seen, holds only the root before the first fetch and afterwards
      only list links of fetched pages, and the kept pages plus the queued ones never
      exceed `max(1, 2 * maxLists)`. */
  ghost predicate QueueInv(root: String, maxLists: int, fetch: String -> Option<Page>,
                           q: seq<String>, seen: set<String>, seeds: seq<String>, visited: seq<String>)
  {
    && NoDups(q)
    && (forall u | u in q :: u !in seen)
    && (visited == [] ==> q == [root])
    && (visited != [] ==> forall u | u in q :: u in Harvest(visited, fetch))
    && |seeds| + |q| <= Max(1, 2 * maxLists)
  }

  /** Fetching a new URL taken from the queue extends the log consistently; `kept` is
      the URL when its fetch succeeds, else nothing. */
  lemma LogStep(root: String, maxLists: int, fetch: String -> Option<Page>,
                seen: set<String>, seeds: seq<String>, visited: seq<String>, url: String,
                kept: seq<String>)
    requires LogInv(root, maxLists, fetch, seen, seeds, visited) && |seeds| < maxLists
    requires url !in seen
    requires visited == [] ==> url == root
    requires visited != [] ==> url in Harvest(visited, fetch)
    requires kept == if fetch(url).Some? then [url] else []
    ensures LogInv(root, maxLists, fetch, seen + {url}, seeds + kept, visited + [url])
  {
    LogExtends(visited, url, fetch);
    SeenStep(seen, visited, url);
    FetchedStep(visited, url, fetch);
  }

  /** Logging an unseen URL keeps the log duplicate-free and `seen` its set. */
  lemma SeenStep(seen: set<String>, visited: seq<String>, url: String)
    requires seen == (set v | v in visited) && NoDups(visited) && url !in seen
    ensures seen + {url} == (set x | x in visited + [url])
    ensures NoDups(visited + [url])
  {
    assert url !in visited;
  }

  lemma FetchedStep(visited: seq<String>, url: String, fetch: String -> Option<Page>)
    ensures Fetched(visited + [url], fetch) == Fetched(visited, fetch) + (if fetch(url).Some? then [url] else [])
  {
    var v := visited + [url];
    assert v[..|v| - 1] == visited;
  }

  /** Popping a URL whose fetch fails keeps the queue invariant. */
  lemma QueueSkip(root: String, maxLists: int, fetch: String -> Option<Page>,
                  q: seq<String>, seen: set<String>, seeds: seq<String>, visited: seq<String>)
    requires q != [] && q[0] !in seen
    requires QueueInv(root, maxLists, fetch, q, seen, seeds, visited)
    ensures QueueInv(root, maxLists, fetch, q[1..], seen + {q[0]}, seeds, visited + [q[0]])
  {
    HarvestGrows(visited, q[0], fetch);
  }

  /** Popping a URL whose fetch succeeds, then offering the page's list links, keeps the
      queue invariant. */
  lemma QueueHarvest(root: String, maxLists: int, fetch: String -> Option<Page>,
                     q: seq<String>, seen: set<String>, seeds: seq<String>, visited: seq<String>,
                     page: Page, q': seq<String>)
    requires q != [] && q[0] !in seen && fetch(q[0]) == Some(page)
    requires QueueInv(root, maxLists, fetch, q, seen, seeds, visited)
    requires NoDups(q') && forall u | u in q' :: u !in seen + {q[0]}
    requires |seeds| + 1 + |q'| <= Max(|seeds| + |q|, 2 * maxLists)
    requires forall u | u in q' :: u in q[1..] || u in PageLists(page)
    ensures QueueInv(root, maxLists, fetch, q', seen + {q[0]}, seeds + [q[0]], visited + [q[0]])
  {
    var v := visited + [q[0]];
    HarvestGrows(visited, q[0], fetch);
    assert v[..|v| - 1] == visited;
    assert Harvest(v, fetch) == Harvest(visited, fetch) + (set u | u in PageLists(page));
  }

  /** One iteration of the loop: pop the head of the queue and fetch it; on success
      keep the requested URL as a seed and offer the page's list links. */
  method VisitNext(root: String, maxLists: int, fetch: String -> Option<Page>,
                   q: seq<String>, seen: set<String>, seeds: seq<String>, ghost visited: seq<String>)
    returns (q': seq<String>, seen': set<String>, seeds': seq<String>, ghost visited': seq<String>)
    requires q != [] && |seeds| < maxLists
    requires LogInv(root, maxLists, fetch, seen, seeds, visited)
    requires QueueInv(root, maxLists, fetch, q, seen, seeds, visited)
    ensures LogInv(root, maxLists, fetch, seen', seeds', visited')
    ensures QueueInv(root, maxLists, fetch, q', seen', seeds', visited')
    ensures Crawl(q', seen', seeds') == Step(Crawl(q, seen, seeds), maxLists, fetch)
  {
    var url := q[0];
    // The source's `if url in seen: continue` never fires: no seen URL is ever queued.
    PopReady(root, maxLists, fetch, q, seen, seeds, visited);
    seen' := seen + {url};
    visited' := visited + [url];
    match fetch(url)
    case None =>
      SkipStep(root, maxLists, fetch, q, seen, seeds, visited);
      q', seeds' := q[1..], seeds;
    case Some(page) =>
      seeds' := seeds + [url];
      q' := HarvestPage(q[1..], seen', |seeds'|, page, 2 * maxLists);
      HarvestStep(root, maxLists, fetch, q, seen, seeds, visited, page, q');
  }

  /** The head of the queue is unseen, and was the root or a list link of a fetched
      page; the rest of the queue is duplicate-free and unseen once the head is seen. */
  lemma PopReady(root: String, maxLists: int, fetch: String -> Option<Page>,
                 q: seq<String>, seen: set<String>, seeds: seq<String>, visited: seq<String>)
    requires q != []
    requires QueueInv(root, maxLists, fetch, q, seen, seeds, visited)
    ensures q[0] !in seen
    ensures NoDups(q[1..]) && forall u | u in q[1..] :: u !in seen + {q[0]}
    ensures visited == [] ==> q[0] == root
    ensures visited != [] ==> q[0] in Harvest(visited, fetch)
  {
    assert q[0] in q;
    forall u | u in q[1..]
      ensures u != q[0]
    {
      var k :| 0 <= k < |q[1..]| && q[1..][k] == u;
      assert q[k + 1] == u;
    }
  }

  /** A failed fetch of the head: the log grows, the queue loses its head. */
  lemma SkipStep(root: String, maxLists: int, fetch: String -> Option<Page>,
                 q: seq<String>, seen: set<String>, seeds: seq<String>, visited: seq<String>)
    requires q != [] && fetch(q[0]).None? && |seeds| < maxLists
    requires LogInv(root, maxLists, fetch, seen, seeds, visited)
    requires QueueInv(root, maxLists, fetch, q, seen, seeds, visited)
    ensures LogInv(root, maxLists, fetch, seen + {q[0]}, seeds, visited + [q[0]])
    ensures QueueInv(root, maxLists, fetch, q[1..], seen + {q[0]}, seeds, visited + [q[0]])
  {
    PopReady(root, maxLists, fetch, q, seen, seeds, visited);
    LogStep(root, maxLists, fetch, seen, seeds, visited, q[0], []);
    QueueSkip(root, maxLists, fetch, q, seen, seeds, visited);
    assert seeds + [] == seeds;
  }

  /** A successful fetch of the head: the log grows, the URL is kept, and the queue is
      the harvested one. */
  lemma HarvestStep(root: String, maxLists: int, fetch: String -> Option<Page>,
                    q: seq<String>, seen: set<String>, seeds: seq<String>, visited: seq<String>,
                    page: Page, q': seq<String>)
    requires q != [] && fetch(q[0]) == Some(page) && |seeds| < maxLists
    requires LogInv(root, maxLists, fetch, seen, seeds, visited)
    requires QueueInv(root, maxLists, fetch, q, seen, seeds, visited)
    requires NoDups(q') && forall u | u in q' :: u !in seen + {q[0]}
    requires |seeds| + 1 + |q'| <= Max(|seeds| + 1 + |q[1..]|, 2 * maxLists)
    requires forall u | u in q' :: u in q[1..] || u in PageLists(page)
    ensures LogInv(root, maxLists, fetch, seen + {q[0]}, seeds + [q[0]], visited + [q[0]])
    ensures QueueInv(root, maxLists, fetch, q', seen + {q[0]}, seeds + [q[0]], visited + [q[0]])
  {
    PopReady(root, maxLists, fetch, q, seen, seeds, visited);
    LogStep(root, maxLists, fetch, seen, seeds, visited, q[0], [q[0]]);
    QueueHarvest(root, maxLists, fetch, q, seen, seeds, visited, page, q');
  }

  /** The part of one loop iteration after a successful fetch: the page's links are
      extracted and its list links offered to the queue. */
  method HarvestPage(q: seq<String>, seen: set<String>, nSeeds: nat, page: Page, limit: int)
    returns (q': seq<String>)
    requires NoDups(q) && forall u | u in q :: u !in seen
    ensures NoDups(q') && forall u | u in q' :: u !in seen
    ensures nSeeds + |q'| <= Max(nSeeds + |q|, limit)
    ensures forall u | u in q' :: u in q || u in PageLists(page)
    ensures q' == Offered(q, seen, nSeeds, PageLists(page), limit)
  {
    var _, lists := LinksFrom(page.anchors);
    q' := Offer(q, seen, nSeeds, lists, limit);
  }

  /** `discover_from_games_root`. `visited` lists, in order, the URLs handed to `fetch`.
      No URL is fetched twice; the root is fetched first; every other URL fetched was a
      list link of a page fetched before it. The result is never empty: the requested
      URLs of the successful fetches, at most `maxLists` of them and each once, or the
      root alone when no fetch succeeded. */
  method DiscoverFromGamesRoot(root: String, maxLists: int, fetch: String -> Option<Page>)
    returns (result: seq<String>, ghost visited: seq<String>)
    ensures result == if Crawled(root, maxLists, fetch).seeds == [] then [root] else Crawled(root, maxLists, fetch).seeds
    ensures NoDups(visited)
    ensures maxLists > 0 ==> visited != [] && visited[0] == root
    ensures forall i | 0 < i < |visited| :: visited[i] in Harvest(visited[..i], fetch)
    ensures result == if Fetched(visited, fetch) == [] then [root] else Fetched(visited, fetch)
    ensures result != [] && NoDups(result)
    ensures |result| <= Max(1, maxLists)
    ensures forall s | s in result :: s == root || (s in visited && fetch(s).Some?)
    ensures (forall v | v in visited :: fetch(v).None?) ==> result == [root]
  {
    var seeds: seq<String> := [];
    var seen: set<String> := {};
    var q: seq<String> := [root];
    visited := [];
    while q != [] && |seeds| < maxLists
      invariant LogInv(root, maxLists, fetch, seen, seeds, visited)
      invariant QueueInv(root, maxLists, fetch, q, seen, seeds, visited)
      invariant RunCrawl(Crawl(q, seen, seeds), maxLists, fetch) == Crawled(root, maxLists, fetch)
      decreases maxLists - |seeds|, |q|
    {
      q, seen, seeds, visited := VisitNext(root, maxLists, fetch, q, seen, seeds, visited);
    }
    result := if seeds == [] then [root] else seeds;
    Finish(root, maxLists, fetch, seen, seeds, visited);
  }

  /** What the loop's log gives once the loop is over. */
  lemma Finish(root: String, maxLists: int, fetch: String -> Option<Page>,
               seen: set<String>, seeds: seq<String>, visited: seq<String>)
    requires LogInv(root, maxLists, fetch, seen, seeds, visited)
    ensures NoDups(seeds) && |seeds| <= Max(0, maxLists)
    ensures seeds == Fetched(visited, fetch)
    ensures forall s | s in seeds :: s in visited && fetch(s).Some?
    ensures (forall v | v in visited :: fetch(v).None?) ==> seeds == []
  {
    FetchedDistinct(visited, fetch);
    FetchedSpec(visited, fetch);
    if seeds != [] {
      assert seeds[0] in visited && fetch(seeds[0]).Some?;
    }
  }
}
