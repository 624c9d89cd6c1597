# ir-game-insights scraper and miner, modelled in Dafny

ir-game-insights collects game listings from the two Iranian Android stores, Cafe
Bazaar and Myket. This project models its core:

- the two discovery spiders that walk each store's list pages breadth first;
- the two store adapters that turn a detail page into a listing record;
- the detail-page crawler, with its JSON-LD merge and field validation;
- store detection and record identity;
- the review-parser dispatch;
- the genre backfill script;
- the keyword miner that tags stored games with feature flags, marketing terms and
  topics.

Each core file is one module. Pure Python code (URL and text helpers, the JSON-LD
merge, genre inference, the miner's tests) becomes functions and lemmas. Loops
that build lists step by step become methods with loop invariants, each proved
equal to a specification function whose properties are proved separately:

- the meta-tag loop and the install-key loop;
- `read_urls`, `extract_json_ld`, `find_any`, `collect_flags` and `build_updates`;
- the spiders' `_links_from`, `uniq`, enqueuing and crawl loops. Each crawl loop is
  proved to end in the state a step function reaches when iterated from the root
  (pop the head, fetch it, enqueue) until the queue is empty or `max_lists` pages are
  kept.

The miner's word test is a parameter of every miner operation. `AsWritten` is the
program's `w and w.lower() in text`. `Corrected` normalises the word as the text is
normalised (see "## Findings"). Each operation is stated for both tests, so its
`AsWritten` instance is the program as it stands.

Shared modules:

- `Text` models Python string behaviour: `lower`, `strip`, `in`, `replace`,
  `isdigit`, `int`/`str` on naturals, and string order.
- `Seqs` models order-keeping de-duplication, slicing and `sorted(set(...))`.
- `Patterns` models the regular expressions of shape `literal(class+)`.
- `Frontier` models the gated queue append both spiders use.
- `AdapterCommon` holds the code the two adapters share line for line.

The outside world comes in as parameters:

- the HTTP client is an oracle `fetch` from a URL to an optional page (final URL
  and resolved anchors);
- the HTML parser's and regex engine's results are passed in (the meta pairs, the
  first match groups, the parsed JSON-LD blocks);
- the clock is passed in as seconds and as an ISO string;
- SHA-1 and `html.unescape` are function parameters, and so is `int(float(x) * m)`
  for a number containing `.` (a number without `.` is scaled exactly; see
  "## Left out");
- Elasticsearch is replaced by input hit sequences and output action sequences.

## Model

| member | source | states |
|---|---|---|
| AdapterCommon.MetaOf | services/scraper/adapters/myket.py:12-16 | every key of the meta map is lower-case and every value is already stripped |
| AdapterCommon.Meta | services/scraper/adapters/bazaar.py:11-15 | the one-pass loop builds exactly the map `MetaOf` specifies |
| AdapterCommon.MetaKeys | services/scraper/adapters/myket.py:12-16 | a key is in the map iff some tag's name, lowered, is that key |
| AdapterCommon.MetaLastWins | services/scraper/adapters/myket.py:14-15 | the last tag with a given lowered name decides that key's value (stripped) |
| AdapterCommon.FirstNonEmpty | services/scraper/adapters/myket.py:47-48 | `get(k1) or get(k2) or ''`: empty iff every key is missing or empty; otherwise the value of the first key with a non-empty value |
| AdapterCommon.ToInt | services/scraper/adapters/myket.py:28-32 | `None` exactly when the text has no digit (the empty text included); CPython's 4300-digit conversion limit is not modelled |
| AdapterCommon.ToIntRoundTrip | services/scraper/adapters/bazaar.py:23-27 | `_to_int(str(n)) == n` for every natural n (CPython's 4300-digit conversion limit is not modelled) |
| AdapterCommon.ToIntSkips | services/scraper/adapters/myket.py:31 | non-digit separators anywhere are ignored: `_to_int(a+sep+b) == _to_int(a+b)` |
| AdapterCommon.Multiplier | services/scraper/adapters/myket.py:37-39 | a million iff `m` or `میلیون` occurs; a thousand iff neither does but `k` or `هزار` does; else one |
| AdapterCommon.NumChars | services/scraper/adapters/myket.py:40 | the kept characters are all digits or `.` |
| AdapterCommon.NumCharsEmpty | services/scraper/adapters/bazaar.py:35-36 | no number characters, in which case `_parse_installs` gives `None`, iff the text has no digit and no `.` |
| AdapterCommon.ParseInstalls | services/scraper/adapters/myket.py:34-42 | `None` for a missing or empty text and for one with no number characters |
| AdapterCommon.ParseInstallsIgnoresCase | services/scraper/adapters/myket.py:36 | lowering the input first changes no install count |
| AdapterCommon.ParseInstallsScales | services/scraper/adapters/bazaar.py:29-37 | `str(n)` followed by `k`/`هزار` reads as n·1000, by `m`/`میلیون` as n·1000000, by nothing as n |
| AdapterCommon.NormalizeNumeral | services/scraper/adapters/myket.py:36 | normalization leaves a numeral with a lower-case unit suffix unchanged |
| AdapterCommon.InstallsFirstTruthy | services/scraper/adapters/myket.py:55-57 | the key loop yields the count of the first key whose count is truthy |
| AdapterCommon.InstallsNoneTruthy | services/scraper/adapters/bazaar.py:48-50 | with no truthy count the loop yields the LAST key's count (`None` or `0`), `None` for no keys |
| AdapterCommon.OrFoldFirstTruthy | services/scraper/adapters/myket.py:57 | the `acc or c` fold returns the first truthy element when there is one |
| AdapterCommon.OrFoldNoneTruthy | services/scraper/adapters/myket.py:57 | with no truthy element the fold is falsy and equals the last element |
| AdapterCommon.KeyCounts | services/scraper/adapters/myket.py:56-57 | one count per key, in key order, each `_parse_installs(meta.get(key))` |
| AdapterCommon.ChooseInstalls | services/scraper/adapters/myket.py:55-60 | the loop's result, replaced by the page-text match only when the loop left `None` (a `0` is kept) |
| AdapterCommon.FeatureFlags | services/scraper/adapters/bazaar.py:69-72 | `offline` is present iff آفلاین or `offline` (any case) occurs; likewise `leaderboard`; no duplicates; `offline` first |
| AdapterCommon.Flags | services/scraper/adapters/myket.py:73-76 | the two conditional appends build exactly `FeatureFlags` |
| AdapterCommon.Monetization | services/scraper/adapters/myket.py:79-82 | `unknown` iff there is no price, `free` iff the price is `0`, `paid` otherwise |
| AdapterCommon.StrippedGroup | services/scraper/adapters/myket.py:18-20 | `None` iff there is no match; otherwise the group, stripped |
| AdapterCommon.ParseListing | services/scraper/adapters/myket.py:44-94 | each field of the record is the fallback chain, parser or rule the source applies to it |
| BazaarAdapter.Parse | services/scraper/adapters/bazaar.py:39-90 | Cafe Bazaar's keys (`reviewcount` for the count, `bazaar:*` fallbacks) and its genre rule, over the shared field rules |
| BazaarAdapter.Genre | services/scraper/adapters/bazaar.py:56-62 | without a category link the genre is `unknown` |
| BazaarAdapter.GenreSpec | services/scraper/adapters/bazaar.py:57-62 | the genre is never empty; it is `unknown` or the slug after the link's first `category/`, found ignoring case |
| MyketAdapter.Parse | services/scraper/adapters/myket.py:44-94 | Myket's keys (`ratingcount`, `myket:*` fallbacks) and its genre rule, over the shared field rules |
| MyketAdapter.Genre | services/scraper/adapters/myket.py:63-67 | without a games link the genre is `unknown` |
| MyketAdapter.GenreSpec | services/scraper/adapters/myket.py:64-67 | the genre is never empty; it is `unknown` or the link's first path segment (a prefix of the link, free of `/`, ending at the first `/`) |
| Crawler.UrlOfLine | services/scraper/crawler.py:32-34 | a line gives a URL iff its BOM-stripped, stripped text is non-empty and does not start with `#`; the URL is that text |
| Crawler.ReadUrls | services/scraper/crawler.py:24-35 | no file gives `[]`; otherwise the URLs of the lines, in file order |
| Crawler.UrlLinesSpec | services/scraper/crawler.py:31-34 | every URL is stripped, non-empty, not a comment and comes from a line; every such line contributes |
| Crawler.UrlLinesOrder | services/scraper/crawler.py:31 | the URLs of a split file are the URLs of each part, in order |
| Crawler.DomainToStore | services/scraper/crawler.py:37-42 | `bazaar` iff the host contains `cafebazaar.ir`; `myket` iff it does not but contains `myket.ir`; else `unknown` |
| Crawler.DomainToStoreHosts | services/scraper/crawler.py:38-41 | the two store hosts map to their stores; a host naming both maps to Cafe Bazaar |
| Crawler.NetLocOfAbsolute | services/scraper/crawler.py:91-92 | for `scheme://host` followed by a path, query, fragment or nothing, the network location is the host, and the parse fails exactly when the host has a `[` without a `]` or the reverse, the only `urlparse` error modelled |
| Crawler.UrlToAppId | services/scraper/crawler.py:44-48 | the first `/app/` capture, else `manual-<seconds>` |
| Crawler.UrlToAppIdShape | services/scraper/crawler.py:47-48 | either way the id is a non-empty run of `[A-Za-z0-9._-]` |
| Crawler.ExtractJsonLd | services/scraper/crawler.py:50-69 | the two nested loops give exactly the merge of all items of all parsed blocks, in order, failing at the first non-object item |
| Crawler.StopsAt | services/scraper/crawler.py:59-60 | a non-object item after a successful prefix makes the whole extraction fail |
| Crawler.MergeAllFails | services/scraper/crawler.py:59-60 | the merge fails iff some item is not an object |
| Crawler.MergeAllSkips | services/scraper/crawler.py:60-62 | items not naming an application type change nothing |
| Crawler.MergeAllKeeps | services/scraper/crawler.py:63-67 | a field already holding a truthy value is never overwritten |
| Crawler.FirstTitleWins | services/scraper/crawler.py:62-63 | the title is the name of the first matching item when its name is truthy |
| Crawler.MergeAllConcat | services/scraper/crawler.py:52-59 | merging a concatenation merges the first part, then the second from the result |
| Crawler.TextField | services/scraper/crawler.py:84-85 | `(v or fb or "").strip()`: a stripped text, an error iff the value is truthy and not a string |
| Crawler.RatingTextShape | services/scraper/crawler.py:86 | the rating test passes iff the text has a digit, at most one `.`, and nothing else |
| Crawler.RatingOf | services/scraper/crawler.py:86 | a rating is kept iff its text passes that test, and it is that text |
| Crawler.CountOf | services/scraper/crawler.py:87 | a count is kept iff `str(v).isdigit()` (CPython's 4300-digit conversion limit is not modelled) |
| Crawler.CountOfRoundTrip | services/scraper/crawler.py:87 | a count given as a JSON integer or its decimal string reads back unchanged; missing, null and boolean counts read as `None` (below CPython's 4300-digit conversion limit) |
| Crawler.ExtractFields | services/scraper/crawler.py:79-88 | succeeds iff both text fields do; the title, description, rating and count follow the rules above (a count past CPython's 4300-digit limit, which raises, is not modelled) |
| Crawler.FieldsWithoutLd | services/scraper/crawler.py:81-85 | without JSON-LD the title and description are the stripped fallback and there is no rating or count |
| Crawler.ToGameDoc | services/scraper/crawler.py:90-107 | fails iff the URL's network location has unbalanced brackets, the only `urlparse` error modelled; otherwise genre and monetization `unknown`, no flags, no installs, no release date, the fields' title, description, rating and count, the run's time, and the store and app id derived from the URL |
| Crawler.ToGameDocStore | services/scraper/crawler.py:90-107 | the record of a page on a store host carries that store (Cafe Bazaar winning a host that names both); a host with unbalanced brackets (the only `urlparse` error modelled) gives no record |
| Details.DetectStore | services/scraper/details.py:7-14 | always `bazaar` or `myket`; `bazaar` iff the lowered URL contains `cafebazaar` or `bazaar.ir`, or the lowered HTML contains `bazaar://` |
| Details.DetectStoreIgnoresCase | services/scraper/details.py:8-9 | lowering the inputs first changes nothing |
| Details.DetectStoreDefaults | services/scraper/details.py:8-9 | a missing URL or HTML reads as empty text; with neither the store is Myket |
| Details.DetectStoreBazaarUrl | services/scraper/details.py:10 | any URL containing `cafebazaar.ir` is detected as Cafe Bazaar, whatever the HTML |
| Details.StoreIdInjective | services/scraper/details.py:20 | `store:package` ids determine the store and the package |
| Details.ParseAny | services/scraper/details.py:16-22 | the detected store's parser runs; the id is `store:package` with a package, else the SHA-1 of the URL or of the first 512 characters of the HTML; the URL falls back to the page URL |
| Details.ParseAnyIdsDistinct | services/scraper/details.py:18-20 | two packaged records with equal ids come from the same store and name the same package |
| Reviews.Clean | services/scraper/reviews.py:5-7 | `None` iff the text is missing or empty; otherwise the unescaped text, stripped |
| Reviews.CleanShape | services/scraper/reviews.py:7 | a cleaned text is stripped, yet a blank text cleans to `""`, not `None` |
| Reviews.ParseReviewsMyket | services/scraper/reviews.py:9-33 | no review is found; so never more than `limit` |
| Reviews.ParseReviewsBazaar | services/scraper/reviews.py:35-40 | no review is found |
| Reviews.RouteOf | services/scraper/reviews.py:42-47 | Myket iff the URL contains `myket.ir`; Cafe Bazaar iff it does not but contains `cafebazaar.ir` |
| Reviews.ParseReviews | services/scraper/reviews.py:42-47 | each route calls its parser; an unrouted URL gives `[]` |
| Reviews.ParseReviewsBounded | services/scraper/reviews.py:42-47 | the result is empty, hence within `limit` |
| Reviews.BothStoresRouting | services/scraper/reviews.py:43-46 | a URL naming both stores goes to the Myket review parser, while `domain_to_store` gives it to Cafe Bazaar |
| BackfillGenre.InferFromUrl | services/scraper/scripts/backfill_genre.py:9-32 | `None` for a missing or empty URL; a genre, when found, is non-empty |
| BackfillGenre.MyketGenresIdentity | services/scraper/scripts/backfill_genre.py:16-21 | the Myket table maps every slug to itself |
| BackfillGenre.BazaarGenresRenames | services/scraper/scripts/backfill_genre.py:26-31 | the Cafe Bazaar table renames `word-trivia`, `kids-games` and `sports-game` and passes every other slug through |
| BackfillGenre.InferShape | services/scraper/scripts/backfill_genre.py:11-31 | an inferred genre is lower-case and free of `/`, `?` and `#` |
| BackfillGenre.InferIgnoresCase | services/scraper/scripts/backfill_genre.py:11 | a URL and its lower-case form give the same genre |
| BackfillGenre.InferMyketFirst | services/scraper/scripts/backfill_genre.py:13-21 | wherever the Myket pattern matches, its slug is the genre, even if the Cafe Bazaar pattern matches too |
| BackfillGenre.InferBazaar | services/scraper/scripts/backfill_genre.py:23-31 | otherwise the Cafe Bazaar slug decides, through its table |
| BackfillGenre.InferNone | services/scraper/scripts/backfill_genre.py:9-32 | inference fails iff the URL is missing or empty or, lowered, matches neither pattern anywhere |
| BackfillGenre.UpdateFor | services/scraper/scripts/backfill_genre.py:43-54 | an update iff the genre is missing, empty or `unknown` and the URL gives a genre; it sets that genre on the hit's id |
| BackfillGenre.GenUpdatesConcat | services/scraper/scripts/backfill_genre.py:36-54 | the generator streams: a concatenated scan gives concatenated updates |
| BackfillGenre.GenUpdatesSpec | services/scraper/scripts/backfill_genre.py:43-54 | every update comes from a hit that needed a genre; every such hit with an inferable genre gets its update |
| Patterns.SearchSpec | services/scraper/scripts/backfill_genre.py:13 | `re.search` of `literal(class+)` succeeds iff the pattern matches somewhere; the group is the maximal class run after the leftmost match |
| Patterns.SearchIgnoreCase | services/scraper/adapters/bazaar.py:60-61 | the ignore-case search finds what the lower-case search finds, with the group cut from the original text |
| Patterns.AppIdOf | services/scraper/spiders/bazaar_discover.py:12 | `APP_PAT` matches iff `/app/` is followed by an id character; the group is a non-empty run of id characters |
| Frontier.Offered | services/scraper/spiders/bazaar_discover.py:81-83 | the gated appends only extend the queue, with unseen candidates; keep it duplicate-free; stop at the budget |
| Frontier.OfferedComplete | services/scraper/spiders/myket_discover.py:60-62 | every unseen candidate ends up queued unless the budget ran out |
| Frontier.Offer | services/scraper/spiders/bazaar_discover.py:81-83 | the append loop builds exactly `Offered` |
| BazaarDiscover.Select | services/scraper/spiders/bazaar_discover.py:17-33 | the anchors of one kind, in page order: exactly those the if-chain sorts there |
| BazaarDiscover.LinksFrom | services/scraper/spiders/bazaar_discover.py:14-42 | both lists de-duplicated in page order and disjoint; apps are exactly the origin, non-video `/app/` links; lists exactly the origin, non-video, non-app category links, plus `?page=` links on a category page |
| BazaarDiscover.PagedUrls | services/scraper/spiders/bazaar_discover.py:75-76 | 49 URLs, the p-th being `base?page=p` for p = 2..50 |
| BazaarDiscover.EnqueueFromLists | services/scraper/spiders/bazaar_discover.py:72-83 | the two loops give exactly `Enqueued` (expansions first, then list links); the queue only grows, stays duplicate-free and unseen, respects the budget and gains only list links and their `/cat/` expansions |
| BazaarDiscover.HarvestPage | services/scraper/spiders/bazaar_discover.py:69-83 | after a fetched page the queue is `Enqueued` over that page's list links, and gains only its offspring |
| BazaarDiscover.Step | services/scraper/spiders/bazaar_discover.py:55-83 | one iteration keeps every page already kept and either keeps one more or shortens the queue |
| BazaarDiscover.RunCrawl | services/scraper/spiders/bazaar_discover.py:54 | the loop ends with an empty queue or `max_lists` pages kept, and only appends to the kept pages |
| BazaarDiscover.VisitNext | services/scraper/spiders/bazaar_discover.py:55-83 | one iteration is exactly `Step` (FIFO pop, skip, fetch, keep the final URL, enqueue) and keeps the fetch-log and queue invariants |
| BazaarDiscover.DiscoverFromBazaarRoot | services/scraper/spiders/bazaar_discover.py:44-85 | the result is `dict.fromkeys` of the seeds `Crawled` ends with, cut to `max_lists`; no URL fetched twice; root first; each later fetch was offspring of an earlier page; the seeds are the final URLs of successful fetches; empty when nothing was fetched |
| BazaarDiscover.Finish | services/scraper/spiders/bazaar_discover.py:85 | the returned list is distinct, within `max(0, max_lists)` and made of final URLs of successful fetches |
| BazaarDiscover.FinalUrls | services/scraper/spiders/bazaar_discover.py:66 | empty iff no fetch succeeded |
| MyketDiscover.Select | services/scraper/spiders/myket_discover.py:19-32 | the anchors of one kind, in page order: exactly those the if-chain sorts there |
| MyketDiscover.LinksFrom | services/scraper/spiders/myket_discover.py:16-40 | both lists de-duplicated and disjoint; apps are all origin `/app/` links (videos included); lists are non-app origin links under `/games/` or `/list/` and outside `/video/` |
| MyketDiscover.FetchedSpec | services/scraper/spiders/myket_discover.py:52-59 | the seeds are exactly the requested URLs whose fetch succeeded |
| MyketDiscover.HarvestPage | services/scraper/spiders/myket_discover.py:58-62 | after a fetched page the queue is its list links offered in order, and gains only those |
| MyketDiscover.Step | services/scraper/spiders/myket_discover.py:48-62 | one iteration keeps every page already kept and either keeps one more or shortens the queue |
| MyketDiscover.RunCrawl | services/scraper/spiders/myket_discover.py:47 | the loop ends with an empty queue or `max_lists` pages kept, and only appends to the kept pages |
| MyketDiscover.VisitNext | services/scraper/spiders/myket_discover.py:48-62 | one iteration is exactly `Step` (FIFO pop, skip, fetch, keep the requested URL, offer the list links) and keeps the fetch-log and queue invariants |
| MyketDiscover.DiscoverFromGamesRoot | services/scraper/spiders/myket_discover.py:42-64 | the result is the seeds `Crawled` ends with, or `[root]` when there are none; no URL fetched twice; root first; each later fetch was a list link of an earlier page; the seeds are the successfully fetched URLs, distinct and at most `max(1, max_lists)` |
| MyketDiscover.Finish | services/scraper/spiders/myket_discover.py:47-64 | the seeds are distinct, at most `max_lists`, and all fetched successfully |
| Miner.NormTxt | services/miner/miner.py:64-66 | empty for a missing or empty text; never upper-case |
| Miner.NormTxtPointwise | services/miner/miner.py:66 | normalization is character by character: same length, ZWNJ becomes a space, letters are lowered |
| Miner.PageText | services/miner/miner.py:75 | the matched text holds no ZWNJ |
| Miner.ZwnjWordsNeverMatch | services/miner/miner.py:68-72 | as written, a dictionary word holding a ZWNJ never matches any page |
| Miner.WordInAgrees | services/miner/miner.py:70 | on words without ZWNJ the corrected test is the written one |
| Miner.WordInFindsTitleWords | services/miner/miner.py:64-72 | corrected, a word occurring in the title is found, ZWNJ or not |
| Miner.ZwnjWitness | services/miner/miner.py:35 | the title `یک‌دستی` is missed by the written test and found by the corrected one |
| Miner.DefaultDictHasZwnjWords | services/miner/miner.py:17-44 | the built-in dictionary holds ZWNJ words (`یک‌دستی` under `hyper_casual`, `هیجان‌انگیز` among the marketing terms) |
| Miner.FindAny | services/miner/miner.py:68-72 | true iff some word of the list passes the word test, and false for an empty list |
| Miner.AnyWordInAsWritten | services/miner/miner.py:70 | under the program's test, a word list matches iff some non-empty word, lowered, is a substring of the text |
| Miner.AnyWordInAgrees | services/miner/miner.py:68-72 | over words without ZWNJ, `find_any` answers alike under both tests |
| Miner.CollectFlags | services/miner/miner.py:74-80 | the loop and de-duplication give exactly `FlagsOf` for the given test |
| Miner.FlagsSpec | services/miner/miner.py:74-80 | under either test, the flags are distinct, are exactly the feature keys with a word passing that test, and follow dictionary order |
| Miner.FlagsAgree | services/miner/miner.py:74-80 | over a dictionary without ZWNJ words, the program's flags and the corrected flags are the same |
| Miner.ZwnjFlagsWitness | services/miner/miner.py:17-44 | on the built-in dictionary and the title `یک‌دستی`, the program flags `simple_controls` but not `hyper_casual`; the corrected test flags `hyper_casual` |
| Miner.CollectTerms | services/miner/miner.py:82-85 | distinct; exactly the listed words passing the test, which under `AsWritten` is `w and w.lower() in txt`; `[]` for an unknown list |
| Miner.CollectTermsOrder | services/miner/miner.py:84-85 | the terms keep the list's order |
| Miner.CountsFor | services/miner/miner.py:162 | the game's asset counts, or zero of each when it has none |
| Miner.MergeFlags | services/miner/miner.py:166-167 | strictly sorted, distinct, exactly the union of stored and detected flags |
| Miner.MergeFlagsCanonical | services/miner/miner.py:167 | the merged list depends only on the set of flags |
| Miner.ActionFor | services/miner/miner.py:154-157 | no action iff the app id or the store is missing or empty |
| Miner.ActionForSpec | services/miner/miner.py:159-187 | an action upserts the hit's own id in the index; sorted merged flags; the screenshot count under both names; terms and topics from their lists; zero counts for a game without assets; flags, terms and topics are found by the run's word test |
| Miner.MakeAction | services/miner/miner.py:159-187 | the loop body builds exactly that action |
| Miner.BuildUpdates | services/miner/miner.py:150-191 | the generator yields exactly `Updates`: the actions of hits not skipped, in scan order, cut at `MAX_DOCS` when it is non-zero; with the run's test `AsWritten` this is the program's output |
| Miner.UpdatesCap | services/miner/miner.py:189-191 | no limit for 0; at most `MAX_DOCS` when positive; at most one when negative; always a prefix of the unlimited actions |
| Miner.SkippedNotCounted | services/miner/miner.py:156-157 | skipped hits do not count toward the limit |
| Miner.UpdatesFromHits | services/miner/miner.py:181-187 | every action reuses the `_id` of a hit that was not skipped |
| Seqs.Dedup | services/miner/miner.py:80 | `list(dict.fromkeys(xs))`: distinct, the same elements |
| Seqs.DedupOrder | services/miner/miner.py:85 | de-duplication keeps first-occurrence order |
| Seqs.Uniq | services/scraper/spiders/bazaar_discover.py:35-40 | the seen-set loop builds exactly `Dedup` |
| Seqs.Take | services/scraper/spiders/bazaar_discover.py:85 | Python's `xs[:n]`: a prefix of length `min(n, len)`, or `len + n` for negative `n` |
| Seqs.SortedSet | services/miner/miner.py:167 | `sorted(set(xs))`: strictly increasing, the same elements |
| Seqs.StrictlySortedUnique | services/miner/miner.py:167 | two strictly sorted lists with the same elements are equal |
| Text.StripSpec | services/scraper/crawler.py:32 | `strip()` removes exactly a whitespace-only prefix and suffix; the result's ends are not whitespace |
| Text.StripIdempotent | services/scraper/adapters/myket.py:15 | stripping twice is stripping once |
| Text.LowerIdempotent | services/scraper/details.py:8 | lowering twice is lowering once |
| Text.RemoveFirstChars | services/scraper/crawler.py:86 | `replace(".", "", 1)` keeps every other character and removes at most one `.` |
| Text.DecimalRoundTrip | services/scraper/crawler.py:87 | `int(str(n)) == n` for every natural n (CPython's 4300-digit conversion limit is not modelled) |
| Text.DigitsEmpty | services/scraper/adapters/myket.py:31-32 | `re.sub(r'\D', '', s)` is empty iff `s` has no digit |

## Left out

- Fetching, `asyncio` workers, delays, Elasticsearch reads and writes, the YAML dictionary file (`load_dict`), `build_assets_counts_map`, `scan_games` and the `main` functions: I/O, modelled only through their inputs and outputs.
- `success_score` and `_to_float`: floating point. The score is a function parameter and the rating is kept as the text handed to `float`.
- AdapterCommon.ParseInstalls: a number containing `.` goes to the `scaleFraction` parameter, so no property is proved about fractional install counts (float rounding).
- ParseInstalls: a number without `.` is scaled exactly. The program computes `int(float(nums) * mult)`, which rounds once the value passes 2^53 (`"12345678901234567890"` reads as 12345678901234567168). For a numeral longer than about 308 digits, `float` is infinite, `int` raises `OverflowError` and the program returns `None`, where the model returns a count.
- ParseInstallsScales: the exact n·1000 and n·1000000 hold in the program only while the scaled value stays below 2^53, for the float rounding reason above.
- Regular-expression scans other than `literal(class+)` (meta tags, `<time>`, the install-count text, the adapters' genre links), the HTML parser, URL joining and `json.loads`: their results are inputs.
- Text.Lower: only ASCII letters are lowered. Persian script has no case, but non-ASCII letters such as accented Latin or Greek keep their case in the model.
- Text.IsDigit: ASCII, Arabic-Indic and Extended Arabic-Indic digits only. Other Unicode decimal digits and superscripts, which `isdigit` also accepts, are not modelled.
- Crawler.NetLoc: `urlsplit`'s removal of leading control characters and spaces and of embedded tabs and newlines is not modelled. Of the errors `urlparse` raises, only the unbalanced-bracket `ValueError` is modelled (Crawler.ParseNetLoc). The check newer Python versions make that a bracketed host is a valid IPv6 address is not modelled.
- NetLocOfAbsolute: of the `ValueError`s `urlparse` raises, only the unbalanced-bracket one is modelled. CPython's `_checknetloc` also raises when a non-ASCII network location gains one of `/ ? # @ :` under NFKC normalisation: `https://cafebazaar.ir℀/app/x` (℀ normalises to `a/c`) raises in the program, while the model's parse succeeds. Python 3.11.4 and later also raise on a bracketed host that is not an IPv6 address, such as `https://[cafebazaar.ir]/app/x`; the model accepts it.
- ToGameDoc: fails only on unbalanced brackets. For the NFKC and bracketed-host errors named under NetLocOfAbsolute, the program's `to_game_doc` raises and the model returns a record.
- ToGameDocStore: states the store for every host with balanced brackets, including the hosts for which `urlparse` raises the NFKC or bracketed-host errors named under NetLocOfAbsolute and the program gives no record.
- ToInt: CPython 3.11 and later (and the 3.7.14, 3.8.14, 3.9.14 and 3.10.7 security releases) refuse to convert a digit string longer than 4300 digits. `int()` then raises `ValueError`, and `_to_int` has no `try`, so the adapter's `parse` raises where the model returns the number.
- ToIntRoundTrip: holds in those CPython versions only for n below 10^4300; for larger n, `str(n)` itself raises.
- CountOf: for a count of more than 4300 digits, `int(data["ratings_count"])` (or `str` of a larger integer) raises in those CPython versions, where the model returns the count.
- CountOfRoundTrip: holds in those CPython versions only for n below 10^4300, for the reason given under CountOf.
- ExtractFields: a count past the 4300-digit limit makes the program's `extract_fields` raise, where the model succeeds.
- DecimalRoundTrip: `int(str(n)) == n` holds in those CPython versions only for n below 10^4300; for larger n, `str(n)` raises.
- Crawler.CleanLine: `utf-8-sig` decoding is the caller's. A BOM after leading whitespace is not removed, matching `lstrip("﻿")`.
- Crawler.Truthy: a JSON number is carried as the text `str()` gives it. Only `0`, `0.0` and `-0.0` are falsy.
- Details.ParseAny: the page URL and HTML are plain strings. The store parsers and SHA-1 are parameters, and `None` inputs to `parse_any` are not modelled.
- Miner.Source: stored `feature_flags` are a list of strings. Other JSON values there are not modelled.
- Miner.Run: one `features_indexed_at` time stamp per run stands for the per-document clock reads.
- BazaarDiscover.VisitNext and MyketDiscover.VisitNext: the source's `if url in seen: continue` is unreachable, because a seen URL is never queued. The methods prove this rather than run the branch. The step functions `Step` keep the branch.
- AdapterCommon.InstallsFromKeys: `installs or x` treats `0` as missing, so an early `0` is overwritten by a later key's `None`. This is modelled as written.

## Findings

| source | as written | input that shows it | evidently intended | confidence | as-written member | corrected member |
|---|---|---|---|---|---|---|
| services/miner/miner.py:64-72 | the page text has every ZWNJ replaced by a space, but dictionary words are only lowered, so the five built-in words holding a ZWNJ never match | a game titled `یک‌دستی` with the `hyper_casual` word `یک‌دستی` gets no `hyper_casual` flag | normalize the words as the text is normalized | not executed | Miner.ZwnjFlagsWitness | Miner.WordInFindsTitleWords |
