/** The regular expressions of the scraper that have the shape `<literal>(<class>+)`,
    searched with `re.search`: the leftmost position where the literal occurs and is
    followed by at least one character of the class; group 1 is the greedy run of
    class characters after the literal. */
module Patterns {
  import opened Text
  import opened Wrappers

  /** Length of the longest run of `cls` characters that starts at `j`. */
  function RunLength(s: String, j: nat, cls: char -> bool): (n: nat)
    requires j <= |s|
    ensures j + n <= |s|
    ensures forall k | j <= k < j + n :: cls(s[k])
    ensures j + n == |s| || !cls(s[j + n])
    decreases |s| - j
  {
    if j < |s| && cls(s[j]) then 1 + RunLength(s, j + 1, cls) else 0
  }

  /** The pattern matches at `i`: `lit` occurs there and a class character follows. */
  predicate MatchesAt(s: String, lit: String, cls: char -> bool, i: int) {
    OccursAt(s, lit, i) && i + |lit| < |s| && cls(s[i + |lit|])
  }

  /** The first position at or after `i` where the pattern matches. */
  function FindFrom(s: String, lit: String, cls: char -> bool, i: nat): (r: Option<nat>)
    requires i <= |s|
    ensures r.Some? ==> i <= r.value && MatchesAt(s, lit, cls, r.value)
    ensures r.Some? ==> forall k | i <= k < r.value :: !MatchesAt(s, lit, cls, k)
    ensures r.None? ==> forall k | i <= k :: !MatchesAt(s, lit, cls, k)
    decreases |s| - i
  {
    if MatchesAt(s, lit, cls, i) then Some(i)
    else if i == |s| then None
    else FindFrom(s, lit, cls, i + 1)
  }

  /** Start and end of group 1 of the leftmost match. */
  function SearchSpan(s: String, lit: String, cls: char -> bool): (r: Option<(nat, nat)>)
    ensures r.Some? ==> r.value.0 < r.value.1 <= |s|
    ensures r.Some? ==> forall k | r.value.0 <= k < r.value.1 :: cls(s[k])
  {
    match FindFrom(s, lit, cls, 0)
    case None => None
    case Some(i) =>
      var a := i + |lit|;
      Some((a, a + RunLength(s, a, cls)))
  }

  /** `m.group(1) if (m := re.search(...)) else None`. */
  function Search(s: String, lit: String, cls: char -> bool): (r: Option<String>)
    ensures r.Some? ==> r.value != []
    ensures r.Some? ==> forall k | 0 <= k < |r.value| :: cls(r.value[k])
  {
    match SearchSpan(s, lit, cls)
    case None => None
    case Some((a, b)) => Some(s[a..b])
  }

  /** The search succeeds exactly when the pattern matches somewhere, and then its
      group is what follows the LEFTMOST match: a maximal, non-empty run of class
      characters right after an occurrence of the literal. */
  lemma SearchSpec(s: String, lit: String, cls: char -> bool)
    ensures Search(s, lit, cls).Some? <==> exists i :: MatchesAt(s, lit, cls, i)
    ensures Search(s, lit, cls).Some? ==>
      exists i :: && MatchesAt(s, lit, cls, i)
                  && (forall k | 0 <= k < i :: !MatchesAt(s, lit, cls, k))
                  && Search(s, lit, cls).value <= s[i + |lit|..]
                  && (i + |lit| + |Search(s, lit, cls).value| == |s|
                      || !cls(s[i + |lit| + |Search(s, lit, cls).value|]))
  {
    var f := FindFrom(s, lit, cls, 0);
    if f.Some? {
      var i := f.value;
      var a := i + |lit|;
      var n := RunLength(s, a, cls);
      assert Search(s, lit, cls).value == s[a..a + n];
      assert s[a..a + n] <= s[a..];
    }
  }

  /** The same search with `re.IGNORECASE` for a lower-case literal and a class
      closed under lowering: positions are found in the lowered text, the group is
      cut from the original text. */
  function SearchIgnoreCase(s: String, lit: String, cls: char -> bool): (r: Option<String>)
    ensures r.Some? ==> r.value != []
    ensures r.Some? ==> Search(Lower(s), lit, cls) == Some(Lower(r.value))
  {
    match SearchSpan(Lower(s), lit, cls)
    case None => None
    case Some((a, b)) =>
      assert Lower(s[a..b]) == Lower(s)[a..b];
      Some(s[a..b])
  }

  // ---------------------------------------------------------------------------
  // The application id pattern `/app/([A-Za-z0-9._-]+)`, shared by both spiders
  // and the crawler.

  predicate IsAppIdChar(c: char) {
    'A' <= c <= 'Z' || 'a' <= c <= 'z' || '0' <= c <= '9' || c == '.' || c == '_' || c == '-'
  }

  /** Group 1 of `APP_PAT.search(url)`. */
  function AppIdOf(url: String): (r: Option<String>)
    ensures r.Some? ==> r.value != []
    ensures r.Some? ==> forall k | 0 <= k < |r.value| :: IsAppIdChar(r.value[k])
    ensures r.Some? <==> exists i :: MatchesAt(url, "/app/", IsAppIdChar, i)
  {
    SearchSpec(url, "/app/", IsAppIdChar);
    var r := Search(url, "/app/", IsAppIdChar);
    r
  }
}
