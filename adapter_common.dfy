/** What the two store adapters (services/scraper/adapters/myket.py and
    services/scraper/adapters/bazaar.py) share line for line: the meta map, the
    integer and install-count parsers, the install-key loop, the fallback chains,
    the feature flags and the monetization rule. The regular-expression scans of the
    page are inputs: the `(key, value)` pairs of the meta tags in page order, and the
    first group of the other searches. */
module AdapterCommon {
  import opened Wrappers
  import opened Text
  import opened Seqs

  /** The regular-expression results the adapters work from. */
  datatype Scan = Scan(
    metaPairs: seq<(String, String)>,  // META_TAG_RE.findall(html)
    timeValue: Option<String>,         // group 1 of TIME_TAG_RE.search(html)
    installText: Option<String>,       // group 1 of the install-count search of the page text
    genreMatch: Option<String>)        // the genre-link search, as each adapter defines it

  /** The record `parse` returns. `ratingText` is the text handed to `_to_float`. */
  datatype Listing = Listing(
    title: String,
    description: String,
    ratingText: String,
    ratingsCount: Option<nat>,
    installs: Option<nat>,
    genre: String,
    updatedAt: Option<String>,
    monetization: String,
    featureFlags: seq<String>)

  // ---------------------------------------------------------------------------
  // `_meta`

  /** The meta map after the pairs so far: keys lowered, values stripped, a later
      pair overwriting an earlier one with the same lowered key. */
  function MetaOf(pairs: seq<(String, String)>): (m: map<String, String>)
    ensures forall k | k in m :: HasNoUpper(k)
    ensures forall k | k in m :: Strip(m[k]) == m[k]
  {
    if pairs == [] then map[]
    else
      var (k, v) := pairs[|pairs| - 1];
      LowerHasNoUpper(k);
      StripIdempotent(v);
      MetaOf(pairs[..|pairs| - 1])[Lower(k) := Strip(v)]
  }

  /** `_meta`: fills the dictionary in one pass over the pairs. */
  method Meta(pairs: seq<(String, String)>) returns (out: map<String, String>)
    ensures out == MetaOf(pairs)
  {
    out := map[];
    for i := 0 to |pairs|
      invariant out == MetaOf(pairs[..i])
    {
      assert pairs[..i + 1][..i] == pairs[..i];
      var (k, v) := pairs[i];
      out := out[Lower(k) := Strip(v)];
    }
    assert pairs[..|pairs|] == pairs;
  }

  /** A key is in the map exactly when some pair has it, lowered. */
  lemma {:induction false} MetaKeys(pairs: seq<(String, String)>, key: String)
    ensures key in MetaOf(pairs) <==> exists i | 0 <= i < |pairs| :: Lower(pairs[i].0) == key
  {
    if pairs != [] {
      var init := pairs[..|pairs| - 1];
      var last := pairs[|pairs| - 1];
      MetaKeys(init, key);
      assert MetaOf(pairs) == MetaOf(init)[Lower(last.0) := Strip(last.1)];
      if key in MetaOf(init) {
        var i :| 0 <= i < |init| && Lower(init[i].0) == key;
        assert pairs[i] == init[i];
      }
      if exists i | 0 <= i < |pairs| :: Lower(pairs[i].0) == key {
        var i :| 0 <= i < |pairs| && Lower(pairs[i].0) == key;
        if i < |init| {
          assert init[i] == pairs[i];
        }
      }
    }
  }

  /** The last pair with a given lowered key decides its value. */
  lemma {:induction false} MetaLastWins(pairs: seq<(String, String)>, i: nat)
    requires i < |pairs|
    requires forall j | i < j < |pairs| :: Lower(pairs[j].0) != Lower(pairs[i].0)
    ensures Lower(pairs[i].0) in MetaOf(pairs)
    ensures MetaOf(pairs)[Lower(pairs[i].0)] == Strip(pairs[i].1)
  {
    if i < |pairs| - 1 {
      var init := pairs[..|pairs| - 1];
      assert forall j | 0 <= j < |init| :: init[j] == pairs[j];
      MetaLastWins(init, i);
    }
  }

  /** `meta.get(key)`. */
  function Get(meta: map<String, String>, key: String): Option<String> {
    if key in meta then Some(meta[key]) else None
  }

  /** `meta.get(k1) or meta.get(k2) or ... or ''`: the first non-empty value among the
      keys, in order, or the empty string. */
  function FirstNonEmpty(meta: map<String, String>, keys: seq<String>): (r: String)
    ensures r == [] <==> forall k | k in keys :: k !in meta || meta[k] == []
    ensures r != [] ==> exists i | 0 <= i < |keys| ::
      && keys[i] in meta && meta[keys[i]] == r
      && forall j | 0 <= j < i :: keys[j] !in meta || meta[keys[j]] == []
  {
    if keys == [] then []
    else if keys[0] in meta && meta[keys[0]] != [] then meta[keys[0]]
    else
      var r := FirstNonEmpty(meta, keys[1..]);
      assert forall k | k in keys :: k == keys[0] || k in keys[1..];
      if r != [] then
        var i :| 0 <= i < |keys[1..]| && keys[1..][i] in meta && meta[keys[1..][i]] == r
                 && forall j | 0 <= j < i :: keys[1..][j] !in meta || meta[keys[1..][j]] == [];
        assert keys[i + 1] in meta && meta[keys[i + 1]] == r;
        r
      else r
  }

  // ---------------------------------------------------------------------------
  // `_to_int`

  /** `_to_int`: the integer formed by all the digits of the text, wherever they are;
      `None` for an empty text or one without digits. */
  function ToInt(s: String): (r: Option<nat>)
    ensures r.None? <==> forall i | 0 <= i < |s| :: !IsDigit(s[i])
  {
    if s == [] then None
    else
      var t := Digits(s);
      DigitsEmpty(s);
      if t == [] then None else Some(DecimalValue(t))
  }

  /** `_to_int(str(n)) == n`. */
  lemma ToIntRoundTrip(n: nat)
    ensures ToInt(NatToDecimal(n)) == Some(n)
  {
    DigitsOfDigits(NatToDecimal(n));
    DecimalRoundTrip(n);
  }

  /** Separators between digits are ignored: `_to_int("1,234") == 1234`. */
  lemma ToIntSkips(a: String, sep: String, b: String)
    requires forall i | 0 <= i < |sep| :: !IsDigit(sep[i])
    ensures ToInt(a + sep + b) == ToInt(a + b)
  {
    DigitsEmpty(sep);
    DigitsConcat(a + sep, b);
    DigitsConcat(a, sep);
    DigitsConcat(a, b);
    assert Digits(a) + Digits(sep) == Digits(a);
    assert Digits(a + sep + b) == Digits(a + b);
    if a + b == [] {
      assert a + sep + b == sep;
    }
  }

  // ---------------------------------------------------------------------------
  // `_parse_installs`

  /** `s.lower().replace('٬','').replace(',','').strip()`. */
  function NormalizeCount(s: String): String {
    Strip(ReplaceChar(ReplaceChar(Lower(s), '\U{066C}', ""), ',', ""))
  }

  /** The multiplier: a million if `m` or `میلیون` occurs, otherwise a thousand if
      `k` or `هزار` occurs, otherwise one. */
  function Multiplier(t: String): (mult: nat)
    ensures mult == 1_000_000 <==> Contains(t, "m") || Contains(t, "میلیون")
    ensures mult == 1_000 <==> !(Contains(t, "m") || Contains(t, "میلیون")) && (Contains(t, "k") || Contains(t, "هزار"))
    ensures mult == 1 || mult == 1_000 || mult == 1_000_000
  {
    if Contains(t, "m") || Contains(t, "میلیون") then 1_000_000
    else if Contains(t, "k") || Contains(t, "هزار") then 1_000
    else 1
  }

  predicate IsNumChar(c: char) { IsDigit(c) || c == '.' }

  /** `''.join(ch for ch in t if ch.isdigit() or ch == '.')`. */
  function NumChars(t: String): (r: String)
    ensures forall i | 0 <= i < |r| :: IsNumChar(r[i])
  {
    if t == [] then []
    else NumChars(t[..|t| - 1]) + (if IsNumChar(t[|t| - 1]) then [t[|t| - 1]] else [])
  }

  /** The number characters are empty exactly when there is none. */
  lemma {:induction false} NumCharsEmpty(t: String)
    ensures NumChars(t) == [] <==> forall i | 0 <= i < |t| :: !IsNumChar(t[i])
  {
    if t != [] {
      NumCharsEmpty(t[..|t| - 1]);
      assert forall i | 0 <= i < |t| - 1 :: t[..|t| - 1][i] == t[i];
    }
  }

  /** `_parse_installs`. `scaleFraction(nums, mult)` stands for
      `int(float(nums) * mult)` with its exception turned into `None`, used when the
      number has a `.` in it; a number without one is scaled exactly. */
  function ParseInstalls(s: Option<String>, scaleFraction: (String, nat) -> Option<nat>): (r: Option<nat>)
    ensures (s.None? || s.value == []) ==> r.None?
    ensures s.Some? && NumChars(NormalizeCount(s.value)) == [] ==> r.None?
  {
    if s.None? || s.value == [] then None
    else ParseNormalized(NormalizeCount(s.value), scaleFraction)
  }

  /** The count a normalized text gives: its number characters times its multiplier,
      with a fractional number handed to `scaleFraction`. */
  function ParseNormalized(t: String, scaleFraction: (String, nat) -> Option<nat>): (r: Option<nat>)
    ensures NumChars(t) == [] ==> r.None?
  {
    var mult := Multiplier(t);
    var nums := NumChars(t);
    if nums == [] then None
    else if '.' in nums then scaleFraction(nums, mult)
    else
      assert AllDigits(nums) by {
        forall i | 0 <= i < |nums| ensures IsDigit(nums[i]) {
          assert nums[i] != '.';
        }
      }
      var v := DecimalValue(nums);
      // `v * mult`, spelled out for the three possible multipliers
      Some(if mult == 1_000_000 then v * 1_000_000 else if mult == 1_000 then v * 1_000 else v)
  }

  /** Install counts ignore case, since the text is lowered first. */
  lemma ParseInstallsIgnoresCase(s: String, scaleFraction: (String, nat) -> Option<nat>)
    ensures ParseInstalls(Some(s), scaleFraction) == ParseInstalls(Some(Lower(s)), scaleFraction)
  {
    NormalizeCountIgnoresCase(s);
  }

  lemma NormalizeCountIgnoresCase(s: String)
    ensures NormalizeCount(Lower(s)) == NormalizeCount(s)
    ensures Lower(s) == [] <==> s == []
  {
    LowerIdempotent(s);
  }

  /** A plain integer with the suffix `k` or `هزار` counts thousands, with `m` or
      `میلیون` millions, with nothing ones (and, by the lemma above, `K` and `M` count
      like `k` and `m`). */
  lemma ParseInstallsScales(n: nat, suffix: String, scaleFraction: (String, nat) -> Option<nat>)
    requires suffix in {"", "k", "m", "هزار", "میلیون"}
    ensures ParseInstalls(Some(NatToDecimal(n) + suffix), scaleFraction)
      == Some(if suffix in {"m", "میلیون"} then n * 1_000_000
              else if suffix in {"k", "هزار"} then n * 1_000 else n)
  {
    var d := NatToDecimal(n);
    NormalizeNumeral(d, suffix);
    MultiplierOfNumeral(d, suffix);
    NumCharsOfNumber(d, suffix);
    DecimalRoundTrip(n);
    assert '.' !in d;
  }

  /** Normalizing a numeral followed by a lower-case unit suffix changes nothing. */
  lemma NormalizeNumeral(d: String, suffix: String)
    requires forall i | 0 <= i < |d| :: '0' <= d[i] <= '9'
    requires d != []
    requires suffix in {"", "k", "m", "هزار", "میلیون"}
    ensures NormalizeCount(d + suffix) == d + suffix
    ensures forall i | 0 <= i < |suffix| :: !IsNumChar(suffix[i])
  {
    SuffixChars(suffix);
    var t := d + suffix;
    forall i | 0 <= i < |t|
      ensures !IsUpper(t[i]) && t[i] != '\U{066C}' && t[i] != ','
    {
      if i >= |d| {
        assert t[i] == suffix[i - |d|];
      }
    }
    assert !IsSpace(t[0]) && !IsSpace(t[|t| - 1]);
    LowerIdentity(t);
    ReplaceCharAbsent(t, '\U{066C}', "");
    ReplaceCharAbsent(t, ',', "");
    StripKeeps(t);
  }

  /** The characters of a unit suffix are lower-case, not separators, not blanks and
      not number characters. */
  lemma SuffixChars(suffix: String)
    requires suffix in {"", "k", "m", "هزار", "میلیون"}
    ensures forall i | 0 <= i < |suffix| ::
      !IsUpper(suffix[i]) && suffix[i] != '\U{066C}' && suffix[i] != ','
      && !IsNumChar(suffix[i]) && !IsSpace(suffix[i])
  {
  }

  /** The multiplier of a numeral followed by a lower-case unit suffix. */
  lemma MultiplierOfNumeral(d: String, ls: String)
    requires forall i | 0 <= i < |d| :: '0' <= d[i] <= '9'
    requires ls in {"", "k", "m", "هزار", "میلیون"}
    ensures Multiplier(d + ls) == if ls in {"m", "میلیون"} then 1_000_000
                                  else if ls in {"k", "هزار"} then 1_000 else 1
  {
    var t := d + ls;
    if ls in {"m", "میلیون"} {
      assert OccursAt(t, ls, |d|);
    } else if ls in {"k", "هزار"} {
      assert OccursAt(t, ls, |d|);
      NoLetters(d, ls);
    } else {
      assert t == d + "";
      NoLetters(d, "");
    }
  }

  /** The number characters of a decimal numeral followed by a non-numeric suffix are
      the numeral. */
  lemma NumCharsOfNumber(d: String, suffix: String)
    requires forall i | 0 <= i < |d| :: '0' <= d[i] <= '9'
    requires forall i | 0 <= i < |suffix| :: !IsNumChar(suffix[i])
    ensures NumChars(d + suffix) == d
  {
    NumCharsConcat(d, suffix);
    NumCharsAll(d);
    NumCharsEmpty(suffix);
    assert d + [] == d;
  }

  lemma {:induction false} NumCharsConcat(a: String, b: String)
    ensures NumChars(a + b) == NumChars(a) + NumChars(b)
  {
    if b == [] {
      assert a + b == a;
    } else {
      var ab, b' := a + b, b[..|b| - 1];
      assert ab[..|ab| - 1] == a + b';
      NumCharsConcat(a, b');
    }
  }

  lemma {:induction false} NumCharsAll(d: String)
    requires forall i | 0 <= i < |d| :: IsNumChar(d[i])
    ensures NumChars(d) == d
  {
    if d != [] {
      NumCharsAll(d[..|d| - 1]);
    }
  }

  /** A numeral followed by a suffix without `m` contains neither `m` nor `میلیون`,
      and one followed by nothing contains neither `k` nor `هزار` either. */
  lemma NoLetters(d: String, suffix: String)
    requires forall i | 0 <= i < |d| :: '0' <= d[i] <= '9'
    requires suffix in {"", "k", "هزار"}
    ensures !Contains(d + suffix, "m") && !Contains(d + suffix, "میلیون")
    ensures suffix == "" ==> !Contains(d + suffix, "k") && !Contains(d + suffix, "هزار")
  {
    var t := d + suffix;
    assert forall i | 0 <= i < |t| :: t[i] != 'm' && t[i] != '\U{0645}';
    MissingChar(t, "m", 0);
    MissingChar(t, "میلیون", 0);
    if suffix == "" {
      assert forall i | 0 <= i < |t| :: t[i] != 'k' && t[i] != '\U{0647}';
      MissingChar(t, "k", 0);
      MissingChar(t, "هزار", 0);
    }
  }

  // ---------------------------------------------------------------------------
  // The install-key loop of `parse`

  /** Python's `acc or v` on optional counts: `None` and `0` are both falsy. */
  predicate Truthy(x: Option<nat>) { x.Some? && x.value != 0 }

  /** `installs` after the loop `installs = installs or _parse_installs(meta.get(key))`
      over `keys`. */
  function InstallsFromKeys(meta: map<String, String>, keys: seq<String>,
                            scaleFraction: (String, nat) -> Option<nat>): Option<nat>
  {
    OrFold(KeyCounts(meta, keys, scaleFraction))
  }

  /** `acc = acc or c` over `counts`, from `None`. */
  function OrFold(counts: seq<Option<nat>>): Option<nat> {
    if counts == [] then None
    else
      var acc := OrFold(counts[..|counts| - 1]);
      if Truthy(acc) then acc else counts[|counts| - 1]
  }

  /** The count of one key, as the loop body computes it. */
  function KeyCount(meta: map<String, String>, key: String,
                    scaleFraction: (String, nat) -> Option<nat>): Option<nat>
  {
    ParseInstalls(Get(meta, key), scaleFraction)
  }

  /** The count of every key, in key order. */
  function KeyCounts(meta: map<String, String>, keys: seq<String>,
                     scaleFraction: (String, nat) -> Option<nat>): (r: seq<Option<nat>>)
    ensures |r| == |keys|
    ensures forall i | 0 <= i < |keys| :: r[i] == KeyCount(meta, keys[i], scaleFraction)
  {
    seq(|keys|, i requires 0 <= i < |keys| => KeyCount(meta, keys[i], scaleFraction))
  }

  /** The loop keeps the first truthy count, in key order. */
  lemma InstallsFirstTruthy(meta: map<String, String>, keys: seq<String>, i: nat,
                            scaleFraction: (String, nat) -> Option<nat>)
    requires i < |keys| && Truthy(KeyCount(meta, keys[i], scaleFraction))
    requires forall j | 0 <= j < i :: !Truthy(KeyCount(meta, keys[j], scaleFraction))
    ensures InstallsFromKeys(meta, keys, scaleFraction) == KeyCount(meta, keys[i], scaleFraction)
  {
    OrFoldFirstTruthy(KeyCounts(meta, keys, scaleFraction), i);
  }

  /** When no key gives a truthy count, what the loop leaves is the count of the LAST
      key, so a `0` found early is dropped when a later key is missing. */
  lemma InstallsNoneTruthy(meta: map<String, String>, keys: seq<String>,
                           scaleFraction: (String, nat) -> Option<nat>)
    requires forall j | 0 <= j < |keys| :: !Truthy(KeyCount(meta, keys[j], scaleFraction))
    ensures !Truthy(InstallsFromKeys(meta, keys, scaleFraction))
    ensures keys != [] ==> InstallsFromKeys(meta, keys, scaleFraction) == KeyCount(meta, keys[|keys| - 1], scaleFraction)
    ensures keys == [] ==> InstallsFromKeys(meta, keys, scaleFraction) == None
  {
    OrFoldNoneTruthy(KeyCounts(meta, keys, scaleFraction));
  }

  lemma {:induction false} OrFoldFirstTruthy(counts: seq<Option<nat>>, i: nat)
    requires i < |counts| && Truthy(counts[i])
    requires forall j | 0 <= j < i :: !Truthy(counts[j])
    ensures OrFold(counts) == counts[i]
  {
    var init := counts[..|counts| - 1];
    if i < |init| {
      OrFoldFirstTruthy(init, i);
    } else {
      OrFoldNoneTruthy(init);
    }
  }

  lemma {:induction false} OrFoldNoneTruthy(counts: seq<Option<nat>>)
    requires forall j | 0 <= j < |counts| :: !Truthy(counts[j])
    ensures !Truthy(OrFold(counts))
    ensures counts != [] ==> OrFold(counts) == counts[|counts| - 1]
  {
    if counts != [] {
      OrFoldNoneTruthy(counts[..|counts| - 1]);
    }
  }

  /** The install count of `parse`: the key loop, then the page-text match only when
      the loop left `None`. */
  method ChooseInstalls(meta: map<String, String>, keys: seq<String>, installText: Option<String>,
                        scaleFraction: (String, nat) -> Option<nat>)
    returns (installs: Option<nat>)
    ensures var fromKeys := InstallsFromKeys(meta, keys, scaleFraction);
      installs == if fromKeys.None? then ParseInstalls(installText, scaleFraction) else fromKeys
  {
    ghost var counts := KeyCounts(meta, keys, scaleFraction);
    installs := None;
    for i := 0 to |keys|
      invariant installs == OrFold(counts[..i])
    {
      assert counts[..i + 1][..i] == counts[..i];
      if !Truthy(installs) {
        installs := KeyCount(meta, keys[i], scaleFraction);
      }
    }
    assert counts[..|keys|] == counts;
    if installs.None? {
      installs := ParseInstalls(installText, scaleFraction);
    }
  }

  // ---------------------------------------------------------------------------
  // Flags, monetization, `updated_at`

  /** The feature flags: `offline` when the description mentions آفلاین or, in any
      case, `offline`; then `leaderboard` when it mentions جدول برتر or, in any case,
      `leaderboard`. */
  function FeatureFlags(desc: String): (r: seq<String>)
    ensures "offline" in r <==> Contains(desc, "آفلاین") || Contains(Lower(desc), "offline")
    ensures "leaderboard" in r <==> Contains(desc, "جدول برتر") || Contains(Lower(desc), "leaderboard")
    ensures NoDups(r)
    ensures r == [] || r == ["offline"] || r == ["leaderboard"] || r == ["offline", "leaderboard"]
  {
    var offline := Contains(desc, "آفلاین") || Contains(Lower(desc), "offline");
    var leaderboard := Contains(desc, "جدول برتر") || Contains(Lower(desc), "leaderboard");
    (if offline then ["offline"] else []) + (if leaderboard then ["leaderboard"] else [])
  }

  /** The two appends to `flags` in `parse`. */
  method Flags(desc: String) returns (flags: seq<String>)
    ensures flags == FeatureFlags(desc)
  {
    flags := [];
    var dl := Lower(desc);
    if Contains(desc, "آفلاین") || Contains(dl, "offline") {
      flags := flags + ["offline"];
    }
    if Contains(desc, "جدول برتر") || Contains(dl, "leaderboard") {
      flags := flags + ["leaderboard"];
    }
  }

  /** `'unknown'` without a price, `'free'` for the price `'0'`, `'paid'` otherwise. */
  function Monetization(price: String): (r: String)
    ensures r == "unknown" <==> price == []
    ensures r == "free" <==> price == "0"
    ensures r == "paid" <==> price != [] && price != "0"
  {
    if price == [] then "unknown" else if price == "0" then "free" else "paid"
  }

  /** `m.group(1).strip() if m else None`. */
  function StrippedGroup(g: Option<String>): (r: Option<String>)
    ensures r.Some? <==> g.Some?
    ensures r.Some? ==> Strip(r.value) == r.value
  {
    match g
    case None => None
    case Some(s) =>
      StripIdempotent(s);
      Some(Strip(s))
  }

  // ---------------------------------------------------------------------------
  // The body of `parse`

  /** The meta keys that differ between the two stores, each list in fallback order. */
  datatype StoreKeys = StoreKeys(rating: seq<String>, ratingCount: seq<String>, installs: seq<String>)

  /** The field choices of `parse`, given the store's keys and its genre. */
  method ParseListing(scan: Scan, keys: StoreKeys, genre: String,
                      scaleFraction: (String, nat) -> Option<nat>)
    returns (r: Listing)
    ensures var meta := MetaOf(scan.metaPairs);
      && r.title == FirstNonEmpty(meta, ["og:title", "title"])
      && r.description == FirstNonEmpty(meta, ["description", "og:description"])
      && r.ratingText == FirstNonEmpty(meta, keys.rating)
      && r.ratingsCount == ToInt(FirstNonEmpty(meta, keys.ratingCount))
      && r.installs == (var fromKeys := InstallsFromKeys(meta, keys.installs, scaleFraction);
                        if fromKeys.None? then ParseInstalls(scan.installText, scaleFraction) else fromKeys)
      && r.genre == genre
      && r.updatedAt == StrippedGroup(scan.timeValue)
      && r.monetization == Monetization(Get(meta, "price").GetOr(""))
      && r.featureFlags == FeatureFlags(r.description)
  {
    var meta := Meta(scan.metaPairs);
    var title := FirstNonEmpty(meta, ["og:title", "title"]);
    var desc := FirstNonEmpty(meta, ["description", "og:description"]);
    var ratingText := FirstNonEmpty(meta, keys.rating);
    var ratingsCount := ToInt(FirstNonEmpty(meta, keys.ratingCount));
    var installs := ChooseInstalls(meta, keys.installs, scan.installText, scaleFraction);
    var updatedAt := StrippedGroup(scan.timeValue);
    var flags := Flags(desc);
    var monet := Monetization(Get(meta, "price").GetOr(""));
    r := Listing(title, desc, ratingText, ratingsCount, installs, genre, updatedAt, monet, flags);
  }
}
