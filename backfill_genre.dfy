/** The genre backfill script (services/scraper/scripts/backfill_genre.py): a genre is
    inferred from the URL of the list page a game was found on, and an update is
    emitted for every stored game whose genre is missing or `"unknown"`. */
module BackfillGenre {
  import opened Wrappers
  import opened Text
  import opened Patterns
  import opened Seqs

  /** The literal part of `myket\.ir/games/([^/?#]+)`. */
  const MyketGamesLit: String := "myket.ir/games/"
  /** The literal part of `cafebazaar\.ir/cat/([^/?#]+)`. */
  const BazaarCatLit: String := "cafebazaar.ir/cat/"

  /** The class `[^/?#]`: a slug runs up to the next path, query or fragment separator. */
  predicate IsSlugChar(c: char) { c != '/' && c != '?' && c != '#' }

  const MyketGenres: map<String, String> := map[
    "action" := "action", "adventure" := "adventure", "casual" := "casual", "kids" := "kids",
    "puzzle" := "puzzle", "racing" := "racing", "simulation" := "simulation", "sports" := "sports",
    "strategy" := "strategy", "word" := "word", "board" := "board"]

  const BazaarGenres: map<String, String> := map[
    "strategy" := "strategy", "action" := "action", "arcade" := "arcade", "casual" := "casual",
    "racing" := "racing", "simulation" := "simulation", "word-trivia" := "word_trivia",
    "kids-games" := "kids", "puzzle" := "puzzle", "sports-game" := "sports", "board" := "board"]

  /** `map_.get(slug, slug)`: the mapped genre, or the slug itself when it is unmapped. */
  function Lookup(m: map<String, String>, slug: String): String {
    if slug in m then m[slug] else slug
  }

  /** `infer_from_url`. `None` stands for a missing or null `source_list_url`. */
  function InferFromUrl(u: Option<String>): (r: Option<String>)
    ensures (u.None? || u.value == []) ==> r.None?
    ensures r.Some? ==> r.value != []
  {
    if u.None? || u.value == [] then None
    else
      var low := Lower(u.value);
      match Search(low, MyketGamesLit, IsSlugChar)
      case Some(slug) =>
        MyketGenresIdentity(slug);
        Some(Lookup(MyketGenres, slug))
      case None =>
        match Search(low, BazaarCatLit, IsSlugChar)
        case Some(slug) =>
          BazaarGenresRenames(slug);
          Some(Lookup(BazaarGenres, slug))
        case None => None
  }

  /** Every known Myket slug maps to itself, so the Myket table never changes a slug. */
  lemma MyketGenresIdentity(slug: String)
    ensures Lookup(MyketGenres, slug) == slug
  {
    if slug in MyketGenres {
      assert MyketGenres.Keys == {"action", "adventure", "casual", "kids", "puzzle", "racing",
                                  "simulation", "sports", "strategy", "word", "board"};
    }
  }

  /** The Cafe Bazaar table renames exactly three slugs and passes every other one through. */
  lemma BazaarGenresRenames(slug: String)
    ensures slug == "word-trivia" ==> Lookup(BazaarGenres, slug) == "word_trivia"
    ensures slug == "kids-games" ==> Lookup(BazaarGenres, slug) == "kids"
    ensures slug == "sports-game" ==> Lookup(BazaarGenres, slug) == "sports"
    ensures slug !in {"word-trivia", "kids-games", "sports-game"} ==> Lookup(BazaarGenres, slug) == slug
  {
    if slug in BazaarGenres {
      assert BazaarGenres.Keys == {"strategy", "action", "arcade", "casual", "racing", "simulation",
                                   "word-trivia", "kids-games", "puzzle", "sports-game", "board"};
    }
  }

  /** A slug group taken from lowered text is a non-empty run of lower-case slug characters. */
  lemma SlugShape(s: String, lit: String)
    requires Search(Lower(s), lit, IsSlugChar).Some?
    ensures HasNoUpper(Search(Lower(s), lit, IsSlugChar).value)
    ensures forall c | c in Search(Lower(s), lit, IsSlugChar).value :: IsSlugChar(c)
  {
    var low := Lower(s);
    var (a, b) := SearchSpan(low, lit, IsSlugChar).value;
    LowerHasNoUpper(s);
    assert Search(low, lit, IsSlugChar).value == low[a..b];
  }

  /** The inferred genre is lower-case and holds no `/`, `?` or `#`. */
  lemma InferShape(u: Option<String>)
    requires InferFromUrl(u).Some?
    ensures HasNoUpper(InferFromUrl(u).value)
    ensures forall c | c in InferFromUrl(u).value :: IsSlugChar(c)
  {
    var low := Lower(u.value);
    match Search(low, MyketGamesLit, IsSlugChar)
    case Some(slug) =>
      SlugShape(u.value, MyketGamesLit);
      MyketGenresIdentity(slug);
    case None =>
      var slug := Search(low, BazaarCatLit, IsSlugChar).value;
      SlugShape(u.value, BazaarCatLit);
      BazaarLookupShape(slug);
  }

  /** The Cafe Bazaar table keeps a slug lower-case and separator-free. */
  lemma BazaarLookupShape(slug: String)
    requires HasNoUpper(slug) && forall c | c in slug :: IsSlugChar(c)
    ensures HasNoUpper(Lookup(BazaarGenres, slug))
    ensures forall c | c in Lookup(BazaarGenres, slug) :: IsSlugChar(c)
  {
    BazaarGenresRenames(slug);
    if slug == "word-trivia" {
      LowerCaseWord("word_trivia");
    } else if slug == "kids-games" {
      LowerCaseWord("kids");
    } else if slug == "sports-game" {
      LowerCaseWord("sports");
    }
  }

  lemma LowerCaseWord(w: String)
    requires forall i | 0 <= i < |w| :: 'a' <= w[i] <= 'z' || w[i] == '_'
    ensures HasNoUpper(w) && forall c | c in w :: IsSlugChar(c)
  {
  }

  /** Matching ignores case: a URL and its lower-case form give the same genre. */
  lemma InferIgnoresCase(u: String)
    ensures InferFromUrl(Some(u)) == InferFromUrl(Some(Lower(u)))
  {
    LowerIdempotent(u);
  }

  /** The Myket pattern is tried first: wherever it matches, its slug is the genre,
      unchanged, even when the Cafe Bazaar pattern also matches. */
  lemma InferMyketFirst(u: String)
    requires Search(Lower(u), MyketGamesLit, IsSlugChar).Some?
    ensures InferFromUrl(Some(u)) == Search(Lower(u), MyketGamesLit, IsSlugChar)
  {
    MyketGenresIdentity(Search(Lower(u), MyketGamesLit, IsSlugChar).value);
  }

  /** Without a Myket match, the Cafe Bazaar slug decides, through its table. */
  lemma InferBazaar(u: String)
    requires Search(Lower(u), MyketGamesLit, IsSlugChar).None?
    requires Search(Lower(u), BazaarCatLit, IsSlugChar).Some?
    ensures InferFromUrl(Some(u)) == Some(Lookup(BazaarGenres, Search(Lower(u), BazaarCatLit, IsSlugChar).value))
  {
  }

  /** Inference fails exactly for a missing or empty URL and for one that, lowered,
      matches neither pattern anywhere. */
  lemma InferNone(u: Option<String>)
    ensures InferFromUrl(u).None? <==>
      || u.None? || u.value == []
      || (&& (forall i :: !MatchesAt(Lower(u.value), MyketGamesLit, IsSlugChar, i))
          && (forall i :: !MatchesAt(Lower(u.value), BazaarCatLit, IsSlugChar, i)))
  {
    if u.Some? {
      SearchSpec(Lower(u.value), MyketGamesLit, IsSlugChar);
      SearchSpec(Lower(u.value), BazaarCatLit, IsSlugChar);
    }
  }

  // ---------------------------------------------------------------------------
  // `gen_updates`

  /** The fields of a scanned hit: its id and, from `_source`, the genre and the
      source list URL (`None` when missing or null). */
  datatype Hit = Hit(id: String, genre: Option<String>, sourceListUrl: Option<String>)

  /** A partial update of one document; it sets the genre and nothing else. */
  datatype Update = Update(id: String, genre: String)

  /** The negation of `src.get("genre") and src["genre"] != "unknown"`. */
  predicate NeedsGenre(h: Hit) {
    h.genre.None? || h.genre.value == [] || h.genre.value == "unknown"
  }

  /** The update emitted for a hit, if any. */
  function UpdateFor(h: Hit): (r: Option<Update>)
    ensures r.Some? <==> NeedsGenre(h) && InferFromUrl(h.sourceListUrl).Some?
    ensures r.Some? ==> r.value == Update(h.id, InferFromUrl(h.sourceListUrl).value)
  {
    if !NeedsGenre(h) then None
    else match InferFromUrl(h.sourceListUrl)
      case Some(g) => Some(Update(h.id, g))
      case None => None
  }

  /** `gen_updates` over the scanned hits, in scan order. */
  function GenUpdates(hits: seq<Hit>): (r: seq<Update>)
    ensures |r| <= |hits|
  {
    FilterMap(hits, UpdateFor)
  }

  /** The generator streams: the updates for a concatenation of scans are the updates
      of the first followed by those of the second. */
  lemma GenUpdatesConcat(a: seq<Hit>, b: seq<Hit>)
    ensures GenUpdates(a + b) == GenUpdates(a) + GenUpdates(b)
  {
    FilterMapConcat(a, b, UpdateFor);
  }

  /** Every update comes from a hit that needed a genre and whose URL gave one, and
      every such hit gives an update that sets its inferred genre. */
  lemma GenUpdatesSpec(hits: seq<Hit>)
    ensures forall x | x in GenUpdates(hits) ::
      exists h | h in hits :: NeedsGenre(h) && InferFromUrl(h.sourceListUrl) == Some(x.genre) && x.id == h.id
    ensures forall h | h in hits && NeedsGenre(h) && InferFromUrl(h.sourceListUrl).Some? ::
      Update(h.id, InferFromUrl(h.sourceListUrl).value) in GenUpdates(hits)
  {
    FilterMapSpec(hits, UpdateFor);
  }
}
