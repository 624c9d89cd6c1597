/** Keyword feature tagging (services/miner/miner.py): page text is normalised, matched
    against a keyword dictionary, and one partial update per stored game is produced
    with its merged feature flags, marketing terms, topics and asset counts.
    Elasticsearch, the YAML dictionary file, the clock and the floating-point success
    score are outside: the dictionary, the asset map, the score and the time come in. */
module Miner {
  import opened Wrappers
  import opened Text
  import opened Seqs

  // ---------------------------------------------------------------------------
  // `_norm_txt` and word matching

  /** ZERO WIDTH NON-JOINER, common inside Persian words. */
  const Zwnj: char := '\U{200C}'

  /** `_norm_txt`: empty for a missing or empty text, else ZWNJ becomes a space (both
      `replace` calls target it) and the text is lowered. */
  function NormTxt(s: Option<String>): (r: String)
    ensures HasNoUpper(r)
    ensures (s.None? || s.value == []) ==> r == []
  {
    if s.None? || s.value == [] then []
    else
      LowerHasNoUpper(ReplaceChar(ReplaceChar(s.value, Zwnj, " "), Zwnj, " "));
      Lower(ReplaceChar(ReplaceChar(s.value, Zwnj, " "), Zwnj, " "))
  }

  /** What normalisation does to one character. */
  function NormChar(c: char): char {
    LowerChar(if c == Zwnj then ' ' else c)
  }

  /** Normalisation works character by character, so it keeps the length and leaves
      no ZWNJ behind. */
  lemma NormTxtPointwise(s: String)
    ensures |NormTxt(Some(s))| == |s|
    ensures forall i | 0 <= i < |s| :: NormTxt(Some(s))[i] == NormChar(s[i])
    ensures Zwnj !in NormTxt(Some(s))
  {
    if s != [] {
      var once := ReplaceChar(s, Zwnj, " ");
      var twice := ReplaceChar(once, Zwnj, " ");
      ReplaceCharOne(s, Zwnj, ' ');
      ReplaceCharOne(once, Zwnj, ' ');
      assert forall i | 0 <= i < |s| :: twice[i] == if s[i] == Zwnj then ' ' else s[i];
      var r := Lower(twice);
      assert r == NormTxt(Some(s));
      assert forall i | 0 <= i < |s| :: r[i] == NormChar(s[i]);
      assert forall i | 0 <= i < |r| :: r[i] != Zwnj;
    }
  }

  /** The text matched against: normalised title and description, with a separator. */
  function PageText(title: Option<String>, desc: Option<String>): (r: String)
    ensures Zwnj !in r
  {
    NormTxtPointwise(title.GetOr([]));
    NormTxtPointwise(desc.GetOr([]));
    assert NormTxt(title) == NormTxt(Some(title.GetOr([])));
    assert NormTxt(desc) == NormTxt(Some(desc.GetOr([])));
    NormTxt(title) + " \n " + NormTxt(desc)
  }

  /** The test `w and w.lower() in text` as written: the word is lowered but its ZWNJ
      is kept. */
  predicate WordInAsWritten(text: String, w: String) {
    w != [] && Contains(text, Lower(w))
  }

  /** The test as evidently intended: the word is normalised like the text. */
  predicate WordIn(text: String, w: String) {
    w != [] && Contains(text, NormTxt(Some(w)))
  }

  /** On words without ZWNJ the two tests agree. */
  lemma WordInAgrees(text: String, w: String)
    requires Zwnj !in w
    ensures WordIn(text, w) == WordInAsWritten(text, w)
  {
    ReplaceCharAbsent(w, Zwnj, " ");
  }

  /** As written, a dictionary word holding a ZWNJ never matches any page. */
  lemma ZwnjWordsNeverMatch(title: Option<String>, desc: Option<String>, w: String)
    requires Zwnj in w
    ensures !WordInAsWritten(PageText(title, desc), w)
  {
    var text := PageText(title, desc);
    var k :| 0 <= k < |w| && w[k] == Zwnj;
    assert Lower(w)[k] == Zwnj;
    forall i | 0 <= i <= |text| - |w|
      ensures !OccursAt(text, Lower(w), i)
    {
      assert text[i + k] in text;
      assert text[i..i + |w|][k] == text[i + k];
    }
  }

  /** Normalisation maps an occurrence of a word to an occurrence of the normalised word. */
  lemma NormOccurs(s: String, w: String, i: nat)
    requires OccursAt(s, w, i)
    ensures OccursAt(NormTxt(Some(s)), NormTxt(Some(w)), i)
  {
    NormTxtPointwise(s);
    NormTxtPointwise(w);
    var ns, nw := NormTxt(Some(s)), NormTxt(Some(w));
    forall k | 0 <= k < |w| ensures ns[i + k] == nw[k] {
      assert s[i + k] == w[k];
    }
    assert ns[i..i + |w|] == nw;
  }

  /** Corrected, a word that occurs in the title is found, ZWNJ or not. */
  lemma WordInFindsTitleWords(title: String, desc: Option<String>, w: String)
    requires w != [] && Contains(title, w)
    ensures WordIn(PageText(Some(title), desc), w)
  {
    var i :| 0 <= i <= |title| - |w| && OccursAt(title, w, i);
    NormOccurs(title, w, i);
    var nt, nw := NormTxt(Some(title)), NormTxt(Some(w));
    ContainsInLeft(nt, " \n " + NormTxt(desc), nw);
    assert PageText(Some(title), desc) == nt + (" \n " + NormTxt(desc));
  }

  /** The smallest witness: a title that is exactly the word `یک‌دستی` of the default
      dictionary. */
  lemma ZwnjWitness()
    ensures var w := "یک\U{200C}دستی";
      && !WordInAsWritten(PageText(Some(w), None), w)
      && WordIn(PageText(Some(w), None), w)
  {
    var w := "یک\U{200C}دستی";
    assert w[2] == Zwnj;
    ZwnjWordsNeverMatch(Some(w), None, w);
    assert OccursAt(w, w, 0);
    WordInFindsTitleWords(w, None, w);
  }

  /** The word test an operation applies: the program's own (`AsWritten`), or the
      corrected one of the findings (`Corrected`). Every operation below takes it as a
      parameter, so each is stated both for the program and for the fix. */
  datatype WordTest = AsWritten | Corrected

  predicate Matches(test: WordTest, text: String, w: String) {
    match test
    case AsWritten => WordInAsWritten(text, w)
    case Corrected => WordIn(text, w)
  }

  /** `any` word of `words` found in `text`. */
  predicate AnyWordIn(test: WordTest, text: String, words: seq<String>) {
    exists i | 0 <= i < |words| :: Matches(test, text, words[i])
  }

  /** `find_any`: stops at the first word found. */
  method FindAny(test: WordTest, text: String, words: seq<String>) returns (found: bool)
    ensures found <==> AnyWordIn(test, text, words)
  {
    for i := 0 to |words|
      invariant forall k | 0 <= k < i :: !Matches(test, text, words[k])
    {
      if Matches(test, text, words[i]) {
        WordAt(test, text, words, i);
        return true;
      }
    }
    return false;
  }

  lemma WordAt(test: WordTest, text: String, words: seq<String>, i: nat)
    requires i < |words| && Matches(test, text, words[i])
    ensures AnyWordIn(test, text, words)
  {
  }

  /** Under the program's test, `find_any` asks whether some non-empty word, lowered,
      is a substring of the text. */
  lemma AnyWordInAsWritten(text: String, words: seq<String>)
    ensures AnyWordIn(AsWritten, text, words) <==> exists w | w in words :: w != [] && Contains(text, Lower(w))
  {
    if exists w | w in words :: w != [] && Contains(text, Lower(w)) {
      var w :| w in words && w != [] && Contains(text, Lower(w));
      var i :| 0 <= i < |words| && words[i] == w;
      assert Matches(AsWritten, text, words[i]);
    }
  }

  /** Over words without ZWNJ, `find_any` gives the same answer under either test. */
  lemma AnyWordInAgrees(text: String, words: seq<String>)
    requires forall w | w in words :: Zwnj !in w
    ensures AnyWordIn(AsWritten, text, words) == AnyWordIn(Corrected, text, words)
  {
    forall i | 0 <= i < |words|
      ensures Matches(AsWritten, text, words[i]) == Matches(Corrected, text, words[i])
    {
      WordInAgrees(text, words[i]);
    }
  }

  // ---------------------------------------------------------------------------
  // The keyword dictionary

  /** `DICT["features"]`: feature keys in dictionary order, and each key's words. */
  datatype FeatureTable = FeatureTable(order: seq<String>, words: map<String, seq<String>>)

  /** `DICT`: the feature table and the other word lists by key. */
  datatype KeywordDict = KeywordDict(features: FeatureTable, lists: map<String, seq<String>>)

  function WordsOf(t: FeatureTable, key: String): seq<String> {
    if key in t.words then t.words[key] else []
  }

  /** `DICT.get(key, [])`. */
  function ListOf(d: KeywordDict, key: String): seq<String> {
    if key in d.lists then d.lists[key] else []
  }

  // The built-in dictionary.

  const DefaultFeatureOrder: seq<String> := [
    "offline", "online", "pvp", "pve", "simple_controls",
    "progression", "rewarded_ads", "interstitial_ads", "iap", "cosmetics",
    "gacha", "social", "localization_ir", "sports", "racing",
    "puzzle", "hyper_casual"]

  const DefaultFeatureWords: map<String, seq<String>> := map[
    "offline" := ["آفلاین", "بدون اینترنت", "offline", "no internet", "single player", "singleplayer"],
    "online" := ["آنلاین", "مولتی", "چند نفره", "multiplayer", "pvp", "co-op", "clan", "guild", "clans", "leaderboard", "لیگ", "رنک"],
    "pvp" := ["pvp", "player vs player", "بازیکن مقابل بازیکن", "نبرد آنلاین"],
    "pve" := ["pve", "campaign", "مرحله\U{200C}ای", "داستانی", "stage", "level", "levels", "ماموریت"],
    "simple_controls" := ["کنترل ساده", "یک دستی", "one hand", "tap", "tapping", "tapper", "swipe", "اسکِل"],
    "progression" := ["level", "levels", "مرحله", "چالش روزانه", "daily challenge", "quest", "ماموریت", "پروgression", "season", "فصل", "event", "رویداد"],
    "rewarded_ads" := ["تماشای ویدئو", "دیدن ویدیو", "rewarded ad", "reward video", "ویدئوی جایزه"],
    "interstitial_ads" := ["تبلیغ تمام صفحه", "interstitial", "میان\U{200C}برنامه"],
    "iap" := ["خرید داخل برنامه", "in-app purchase", "iap", "gem", "coin", "shop", "store", "season pass", "battle pass", "بتل پس"],
    "cosmetics" := ["skin", "اسکین", "ظاهر", "کاستوم", "لباس", "avatar", "emote"],
    "gacha" := ["gacha", "چِست", "loot box", "صندوق", "کپسول"],
    "social" := ["دوستان", "friend", "invite", "دعوت", "share", "اشتراک گذاری", "chat", "چت"],
    "localization_ir" := ["ایرانی", "ایران", "تهران", "فارسی", "پرچم ایران", "نوروز", "چهارشنبه سوری", "محرم", "فوتبال ایران"],
    "sports" := ["football", "soccer", "basketball", "volleyball", "ورزشی", "فوتبال", "بسکتبال", "والیبال"],
    "racing" := ["racing", "رانندگی", "مسابقه", "drift", "race", "car", "ماشین"],
    "puzzle" := ["puzzle", "پازل", "معمایی", "match-3", "match3", "word", "کلمات", "کلمه"],
    "hyper_casual" := ["runner", "endless", "tap to play", "آسان برای یادگیری", "سریع", "مرحله\U{200C}های کوتاه", "یک\U{200C}دستی"]]

  const DefaultMarketingTerms: seq<String> := ["بهترین", "رایگان", "free", "خفن", "هیجان\U{200C}انگیز", "epic", "legendary", "no.1", "top", "برترین", "جدید", "آپدیت بزرگ", "رویداد ویژه"]
  const DefaultTopics: seq<String> := ["زامبی", "zombie", "استراتژی", "strategy", "tower defense", "td", "idle", "آیدل", "shooting", "شوتر", "farm", "کشاورزی", "بقا", "survival", "sandbox", "سندباکس"]

  /** The built-in dictionary, used when no dictionary file overrides it. */
  const DefaultDict := KeywordDict(
    FeatureTable(DefaultFeatureOrder, DefaultFeatureWords),
    map["marketing_terms" := DefaultMarketingTerms, "topics" := DefaultTopics])

  /** Five words of the built-in dictionary hold a ZWNJ; among them `یک‌دستی`, a
      `hyper_casual` word. */
  lemma DefaultDictHasZwnjWords()
    ensures "یک\U{200C}دستی" in WordsOf(DefaultDict.features, "hyper_casual")
    ensures "هیجان\U{200C}انگیز" in ListOf(DefaultDict, "marketing_terms")
  {
    var hc := WordsOf(DefaultDict.features, "hyper_casual");
    assert hc[6] == "یک\U{200C}دستی";
    var mt := ListOf(DefaultDict, "marketing_terms");
    assert mt[4] == "هیجان\U{200C}انگیز";
  }

  // ---------------------------------------------------------------------------
  // `collect_flags` and `collect_terms`

  /** The test "some word of this feature is in the text". */
  function HasFeature(test: WordTest, t: FeatureTable, text: String): String -> bool {
    key => AnyWordIn(test, text, WordsOf(t, key))
  }

  /** The specification of `collect_flags`: the matching keys, in dictionary order,
      each once. */
  function FlagsOf(test: WordTest, t: FeatureTable, title: Option<String>, desc: Option<String>): seq<String> {
    Dedup(Filter(t.order, HasFeature(test, t, PageText(title, desc))))
  }

  /** `collect_flags`. */
  method CollectFlags(test: WordTest, d: KeywordDict, title: Option<String>, desc: Option<String>)
    returns (flags: seq<String>)
    ensures flags == FlagsOf(test, d.features, title, desc)
  {
    var t := d.features;
    var text := PageText(title, desc);
    ghost var p := HasFeature(test, t, text);
    var hits := [];
    for i := 0 to |t.order|
      invariant hits == Filter(t.order[..i], p)
    {
      var key := t.order[i];
      var found := FindAny(test, text, WordsOf(t, key));
      FeatureStep(test, t, text, i, found);
      if found {
        hits := hits + [key];
      }
    }
    assert t.order[..|t.order|] == t.order;
    flags := Uniq(hits);
  }

  /** One more feature key, kept when one of its words is found. */
  lemma FeatureStep(test: WordTest, t: FeatureTable, text: String, i: nat, found: bool)
    requires i < |t.order| && found == AnyWordIn(test, text, WordsOf(t, t.order[i]))
    ensures Filter(t.order[..i + 1], HasFeature(test, t, text)) ==
      Filter(t.order[..i], HasFeature(test, t, text)) + (if found then [t.order[i]] else [])
  {
    FilterStep(t.order, i, HasFeature(test, t, text), found);
  }

  /** The flags are distinct, are exactly the keys with a word in the text, and come in
      dictionary order. */
  lemma FlagsSpec(test: WordTest, t: FeatureTable, title: Option<String>, desc: Option<String>)
    ensures NoDups(FlagsOf(test, t, title, desc))
    ensures forall k :: k in FlagsOf(test, t, title, desc) <==>
      k in t.order && AnyWordIn(test, PageText(title, desc), WordsOf(t, k))
    ensures forall i, j | 0 <= i < j < |FlagsOf(test, t, title, desc)| ::
      IndexOf(t.order, FlagsOf(test, t, title, desc)[i]) < IndexOf(t.order, FlagsOf(test, t, title, desc)[j])
  {
    var p := HasFeature(test, t, PageText(title, desc));
    var hits := Filter(t.order, p);
    var r := FlagsOf(test, t, title, desc);
    FilterComplete(t.order, p);
    DedupOrder(hits);
    forall i, j | 0 <= i < j < |r|
      ensures IndexOf(t.order, r[i]) < IndexOf(t.order, r[j])
    {
      FilterOrder(t.order, p, r[i], r[j]);
    }
  }

  /** A feature table none of whose words holds a ZWNJ. */
  predicate ZwnjFree(t: FeatureTable) {
    forall k, w | k in t.words && w in t.words[k] :: Zwnj !in w
  }

  /** Over such a table the program and the corrected test give the same flags. */
  lemma FlagsAgree(t: FeatureTable, title: Option<String>, desc: Option<String>)
    requires ZwnjFree(t)
    ensures FlagsOf(AsWritten, t, title, desc) == FlagsOf(Corrected, t, title, desc)
  {
    var text := PageText(title, desc);
    forall k | k in t.order
      ensures HasFeature(AsWritten, t, text)(k) == HasFeature(Corrected, t, text)(k)
    {
      AnyWordInAgrees(text, WordsOf(t, k));
    }
    FilterAgree(t.order, HasFeature(AsWritten, t, text), HasFeature(Corrected, t, text));
  }

  /** The finding at the level of `collect_flags`, on the built-in dictionary and the
      title `یک‌دستی`: the program finds `simple_controls` (through its plain-space word
      `یک دستی`) but misses `hyper_casual`, whose word is the title itself; the corrected
      test finds both. */
  lemma ZwnjFlagsWitness()
    ensures var t, w := DefaultDict.features, "یک\U{200C}دستی";
      && "simple_controls" in FlagsOf(AsWritten, t, Some(w), None)
      && "hyper_casual" !in FlagsOf(AsWritten, t, Some(w), None)
      && "hyper_casual" in FlagsOf(Corrected, t, Some(w), None)
  {
    var t, w := DefaultDict.features, "یک\U{200C}دستی";
    var text := PageText(Some(w), None);
    WitnessText(w);
    DefaultWords();
    SimpleControlsFound(text, WordsOf(t, "simple_controls"));
    HyperCasualMissed(text, WordsOf(t, "hyper_casual"));
    TitleWordFound(w, WordsOf(t, "hyper_casual"));
    FlagMember(AsWritten, t, Some(w), None, "simple_controls");
    FlagMember(AsWritten, t, Some(w), None, "hyper_casual");
    FlagMember(Corrected, t, Some(w), None, "hyper_casual");
  }

  /** A key of the table is a flag exactly when one of its words passes the test. */
  lemma FlagMember(test: WordTest, t: FeatureTable, title: Option<String>, desc: Option<String>, k: String)
    requires k in t.order
    ensures k in FlagsOf(test, t, title, desc) <==> AnyWordIn(test, PageText(title, desc), WordsOf(t, k))
  {
    FlagsSpec(test, t, title, desc);
  }

  /** Corrected, the title's own word is found. */
  lemma TitleWordFound(w: String, words: seq<String>)
    requires w != [] && |words| == 7 && words[6] == w
    ensures AnyWordIn(Corrected, PageText(Some(w), None), words)
  {
    assert OccursAt(w, w, 0);
    WordInFindsTitleWords(w, None, w);
    assert Matches(Corrected, PageText(Some(w), None), words[6]);
  }

  /** The page text of the title `یک‌دستی` without a description. */
  lemma WitnessText(w: String)
    requires w == "یک\U{200C}دستی"
    ensures PageText(Some(w), None) == "یک دستی \n "
  {
    NormTxtPointwise(w);
    assert NormTxt(Some(w)) == "یک دستی";
  }

  /** The parts of the built-in dictionary the witness reads. */
  lemma DefaultWords()
    ensures "simple_controls" in DefaultDict.features.order && "hyper_casual" in DefaultDict.features.order
    ensures |WordsOf(DefaultDict.features, "simple_controls")| > 1
    ensures WordsOf(DefaultDict.features, "simple_controls")[1] == "یک دستی"
    ensures WordsOf(DefaultDict.features, "hyper_casual") ==
      ["runner", "endless", "tap to play", "آسان برای یادگیری", "سریع", "مرحله\U{200C}های کوتاه", "یک\U{200C}دستی"]
  {
    assert DefaultFeatureOrder[4] == "simple_controls" && DefaultFeatureOrder[16] == "hyper_casual";
    DefaultWordsOf("simple_controls");
    DefaultWordsOf("hyper_casual");
  }

  /** A key of the built-in feature table has the words the table lists for it. */
  lemma DefaultWordsOf(k: String)
    requires k in DefaultFeatureWords
    ensures WordsOf(DefaultDict.features, k) == DefaultFeatureWords[k]
  {
  }

  lemma SimpleControlsFound(text: String, words: seq<String>)
    requires text == "یک دستی \n " && |words| > 1 && words[1] == "یک دستی"
    ensures AnyWordIn(AsWritten, text, words)
  {
    assert Lower(words[1]) == words[1];
    assert OccursAt(text, words[1], 0);
    assert Matches(AsWritten, text, words[1]);
  }

  /** No word of `hyper_casual` passes the program's test on this text: each lacks a
      character of it (the last two their ZWNJ). */
  lemma HyperCasualMissed(text: String, words: seq<String>)
    requires text == "یک دستی \n "
    requires words ==
      ["runner", "endless", "tap to play", "آسان برای یادگیری", "سریع", "مرحله\U{200C}های کوتاه", "یک\U{200C}دستی"]
    ensures !AnyWordIn(AsWritten, text, words)
  {
    forall i | 0 <= i < 7 ensures !Matches(AsWritten, text, words[i]) {
      var lw := Lower(words[i]);
      assert |lw| == |words[i]| && forall k | 0 <= k < |lw| :: lw[k] == LowerChar(words[i][k]);
      if i == 4 {
        assert lw[1] == 'ر';
        MissingChar(text, lw, 1);
      } else if i == 6 {
        assert lw[2] == Zwnj;
        MissingChar(text, lw, 2);
      } else {
        assert lw[0] !in text;
        MissingChar(text, lw, 0);
      }
    }
  }

  /** The test "this word is in the text". */
  function Matcher(test: WordTest, text: String): String -> bool {
    w => Matches(test, text, w)
  }

  /** `collect_terms`: the words of list `key` found in the text, each once. */
  function CollectTerms(test: WordTest, d: KeywordDict, title: Option<String>, desc: Option<String>, key: String)
    : (r: seq<String>)
    ensures NoDups(r)
    ensures forall w :: w in r <==> w in ListOf(d, key) && Matches(test, PageText(title, desc), w)
    ensures test == AsWritten ==> forall w :: w in r <==>
      w in ListOf(d, key) && w != [] && Contains(PageText(title, desc), Lower(w))
    ensures key !in d.lists ==> r == []
  {
    var words := ListOf(d, key);
    FilterComplete(words, Matcher(test, PageText(title, desc)));
    Dedup(Filter(words, Matcher(test, PageText(title, desc))))
  }

  /** The terms come in the order of their first occurrence in the list. */
  lemma CollectTermsOrder(test: WordTest, d: KeywordDict, title: Option<String>, desc: Option<String>, key: String)
    ensures var r := CollectTerms(test, d, title, desc, key);
      forall i, j | 0 <= i < j < |r| :: IndexOf(ListOf(d, key), r[i]) < IndexOf(ListOf(d, key), r[j])
  {
    var words, p := ListOf(d, key), Matcher(test, PageText(title, desc));
    var r := CollectTerms(test, d, title, desc, key);
    DedupOrder(Filter(words, p));
    forall i, j | 0 <= i < j < |r|
      ensures IndexOf(words, r[i]) < IndexOf(words, r[j])
    {
      FilterOrder(words, p, r[i], r[j]);
    }
  }

  // ---------------------------------------------------------------------------
  // `build_updates`

  /** The `_source` fields read; `None` is a missing or null field. */
  datatype Source = Source(
    appId: Option<String>, store: Option<String>, title: Option<String>,
    description: Option<String>, featureFlags: Option<seq<String>>)

  /** A scanned hit: its `_id` and its `_source` (all fields `None` when absent). */
  datatype Hit = Hit(id: String, source: Source)

  /** Asset counts of one `(store, app_id)`. */
  datatype AssetCounts = AssetCounts(icons: nat, shots: nat)

  /** The partial document written. */
  datatype MinedDoc = MinedDoc(
    featureFlags: seq<String>, marketingTerms: seq<String>, topics: seq<String>,
    assetsIconCount: nat, assetsScreenshotCount: nat, screenshotCount: nat,
    successScore: real, featuresIndexedAt: String)

  /** One bulk action. */
  datatype Action = Action(opType: String, index: String, id: String, doc: MinedDoc, docAsUpsert: bool)

  /** What a run reads besides the hits: the word test applied (`AsWritten` for the
      program), the dictionary, the asset map, the score of a source, the target index,
      the time stamp and `MAX_DOCS` (0 for no limit). */
  datatype Run = Run(
    test: WordTest, dict: KeywordDict, assets: map<(String, String), AssetCounts>, score: Source -> real,
    index: String, nowIso: String, maxDocs: int)

  /** `not app_id or not store`. */
  predicate Skipped(src: Source) {
    src.appId.None? || src.appId.value == [] || src.store.None? || src.store.value == []
  }

  /** `assets_map.get((store, app_id), {"icons": 0, "shots": 0})`. */
  function CountsFor(assets: map<(String, String), AssetCounts>, store: String, appId: String): (c: AssetCounts)
    ensures (store, appId) !in assets ==> c == AssetCounts(0, 0)
    ensures (store, appId) in assets ==> c == assets[(store, appId)]
  {
    if (store, appId) in assets then assets[(store, appId)] else AssetCounts(0, 0)
  }

  /** `sorted(list({*current_flags, *flags}))`, with `current_flags` defaulting to `[]`. */
  function MergeFlags(current: Option<seq<String>>, flags: seq<String>): (r: seq<String>)
    ensures StrictlySorted(r) && NoDups(r)
    ensures forall y :: y in r <==> (current.Some? && y in current.value) || y in flags
  {
    StrictlySortedDistinct(SortedSet(current.GetOr([]) + flags));
    SortedSet(current.GetOr([]) + flags)
  }

  /** The merged flags depend only on the two sets: same elements, same list. */
  lemma MergeFlagsCanonical(a: Option<seq<String>>, b: seq<String>, c: Option<seq<String>>, e: seq<String>)
    requires forall y :: ((a.Some? && y in a.value) || y in b) <==> ((c.Some? && y in c.value) || y in e)
    ensures MergeFlags(a, b) == MergeFlags(c, e)
  {
    StrictlySortedUnique(MergeFlags(a, b), MergeFlags(c, e));
  }

  /** The action emitted for a hit, if any. */
  function ActionFor(run: Run, h: Hit): (r: Option<Action>)
    ensures r.None? <==> Skipped(h.source)
  {
    var src := h.source;
    if Skipped(src) then None
    else
      var flags := FlagsOf(run.test, run.dict.features, src.title, src.description);
      var terms := CollectTerms(run.test, run.dict, src.title, src.description, "marketing_terms");
      var topics := CollectTerms(run.test, run.dict, src.title, src.description, "topics");
      var counts := CountsFor(run.assets, src.store.value, src.appId.value);
      var doc := MinedDoc(MergeFlags(src.featureFlags, flags), terms, topics,
                          counts.icons, counts.shots, counts.shots, run.score(src), run.nowIso);
      Some(Action("update", run.index, h.id, doc, true))
  }

  /** An action is an upsert of the hit's own document. Its flags are the sorted union
      of the stored and the detected flags; the screenshot count is written under both
      names; a game without assets counts zero of each. */
  lemma ActionForSpec(run: Run, h: Hit)
    requires ActionFor(run, h).Some?
    ensures var a := ActionFor(run, h).value;
      && a.opType == "update" && a.index == run.index && a.id == h.id && a.docAsUpsert
      && a.doc.screenshotCount == a.doc.assetsScreenshotCount
      && StrictlySorted(a.doc.featureFlags) && NoDups(a.doc.featureFlags)
      && (forall y :: y in a.doc.featureFlags <==>
            (h.source.featureFlags.Some? && y in h.source.featureFlags.value)
            || y in FlagsOf(run.test, run.dict.features, h.source.title, h.source.description))
      && a.doc.marketingTerms == CollectTerms(run.test, run.dict, h.source.title, h.source.description, "marketing_terms")
      && a.doc.topics == CollectTerms(run.test, run.dict, h.source.title, h.source.description, "topics")
      && ((h.source.store.value, h.source.appId.value) !in run.assets ==>
            a.doc.assetsIconCount == 0 && a.doc.assetsScreenshotCount == 0)
  {
  }

  function Emit(run: Run): Hit -> Option<Action> {
    h => ActionFor(run, h)
  }

  /** How many actions a non-zero `MAX_DOCS` lets through: the check `n >= MAX_DOCS`
      after each one stops a negative limit after the first. */
  function Limit(maxDocs: int): nat {
    if maxDocs > 0 then maxDocs else 1
  }

  /** The specification of `build_updates`: the actions of the hits not skipped, in scan
      order, cut at the limit when `MAX_DOCS` is non-zero. */
  function Updates(run: Run, hits: seq<Hit>): seq<Action> {
    var all := FilterMap(hits, Emit(run));
    if run.maxDocs == 0 then all else Take(all, Limit(run.maxDocs))
  }

  /** `build_updates`, collecting what the generator yields. */
  method BuildUpdates(run: Run, hits: seq<Hit>) returns (out: seq<Action>)
    ensures out == Updates(run, hits)
  {
    var n := 0;
    out := [];
    for i := 0 to |hits|
      invariant out == FilterMap(hits[..i], Emit(run)) && n == |out|
      invariant run.maxDocs != 0 ==> n < Limit(run.maxDocs)
    {
      var h := hits[i];
      if Skipped(h.source) {
        EmitStep(run, hits, i, None);
      } else {
        var action := MakeAction(run, h);
        EmitStep(run, hits, i, Some(action));
        out := out + [action];
        n := n + 1;
        if run.maxDocs != 0 && n >= run.maxDocs {
          CutHere(run, hits, i, out);
          return;
        }
      }
    }
    NoCut(run, hits, out);
  }

  /** Running through all hits without reaching the limit gives the whole specification. */
  lemma NoCut(run: Run, hits: seq<Hit>, out: seq<Action>)
    requires out == FilterMap(hits[..|hits|], Emit(run))
    requires run.maxDocs != 0 ==> |out| < Limit(run.maxDocs)
    ensures out == Updates(run, hits)
  {
    assert hits[..|hits|] == hits;
  }

  /** The body of the loop for a hit that is not skipped: the action it yields. */
  method MakeAction(run: Run, h: Hit) returns (action: Action)
    requires !Skipped(h.source)
    ensures ActionFor(run, h) == Some(action)
  {
    var src := h.source;
    var flags := CollectFlags(run.test, run.dict, src.title, src.description);
    var terms := CollectTerms(run.test, run.dict, src.title, src.description, "marketing_terms");
    var topics := CollectTerms(run.test, run.dict, src.title, src.description, "topics");
    var counts := CountsFor(run.assets, src.store.value, src.appId.value);
    var score := run.score(src);
    var merged := MergeFlags(src.featureFlags, flags);
    var doc := MinedDoc(merged, terms, topics, counts.icons, counts.shots, counts.shots, score, run.nowIso);
    action := Action("update", run.index, h.id, doc, true);
  }

  /** One more hit adds its action, if any. */
  lemma EmitStep(run: Run, hits: seq<Hit>, i: nat, x: Option<Action>)
    requires i < |hits| && x == ActionFor(run, hits[i])
    ensures FilterMap(hits[..i + 1], Emit(run)) ==
      FilterMap(hits[..i], Emit(run)) + (if x.Some? then [x.value] else [])
  {
    assert hits[..i + 1][..i] == hits[..i];
  }

  /** Stopping after hit `i` with the limit reached gives the whole specification. */
  lemma CutHere(run: Run, hits: seq<Hit>, i: nat, out: seq<Action>)
    requires i < |hits| && run.maxDocs != 0
    requires out == FilterMap(hits[..i + 1], Emit(run)) && |out| >= run.maxDocs && |out| >= 1
    requires |out| <= Limit(run.maxDocs)
    ensures out == Updates(run, hits)
  {
    FilterMapTakePrefix(hits, i + 1, Emit(run), Limit(run.maxDocs));
  }

  /** Without a limit every hit not skipped yields an action; with a positive limit at
      most that many are yielded, and with a negative one at most one; in every case
      the actions are a prefix of the unlimited ones. */
  lemma UpdatesCap(run: Run, hits: seq<Hit>)
    ensures run.maxDocs == 0 ==> Updates(run, hits) == FilterMap(hits, Emit(run))
    ensures run.maxDocs > 0 ==> |Updates(run, hits)| <= run.maxDocs
    ensures run.maxDocs < 0 ==> |Updates(run, hits)| <= 1
    ensures Updates(run, hits) <= FilterMap(hits, Emit(run))
  {
  }

  /** Skipped hits do not count toward the limit: removing one changes nothing. */
  lemma SkippedNotCounted(run: Run, a: seq<Hit>, h: Hit, b: seq<Hit>)
    requires Skipped(h.source)
    ensures Updates(run, a + [h] + b) == Updates(run, a + b)
  {
    FilterMapSkip(a, h, b, Emit(run));
  }

  /** Every action reuses the `_id` of a hit that was not skipped. */
  lemma UpdatesFromHits(run: Run, hits: seq<Hit>)
    ensures forall a | a in Updates(run, hits) ::
      exists h | h in hits :: !Skipped(h.source) && ActionFor(run, h) == Some(a) && a.id == h.id
  {
    var all := FilterMap(hits, Emit(run));
    FilterMapSpec(hits, Emit(run));
    forall a | a in Updates(run, hits)
      ensures exists h | h in hits :: !Skipped(h.source) && ActionFor(run, h) == Some(a) && a.id == h.id
    {
      assert a in all;
      var h :| h in hits && Emit(run)(h) == Some(a);
      assert ActionFor(run, h) == Some(a);
    }
  }
}
