/** Character and string operations of Python's `str` that the scraper relies on:
    `lower`, `strip`, `lstrip`, `in` (substring), `startswith`, `replace`,
    `split(c)[0]`, `isdigit` and decimal conversion with `int`. */
module Text {

  type String = seq<char>

  // ---------------------------------------------------------------------------
  // Case

  predicate IsUpper(c: char) { 'A' <= c <= 'Z' }

  /** `c.lower()` restricted to ASCII letters. */
  function LowerChar(c: char): char {
    if IsUpper(c) then (c as int + 32) as char else c
  }

  /** `s.lower()`: position-wise, so the length is kept. */
  function Lower(s: String): (r: String)
    ensures |r| == |s|
    ensures forall i | 0 <= i < |s| :: r[i] == LowerChar(s[i])
  {
    seq(|s|, i requires 0 <= i < |s| => LowerChar(s[i]))
  }

  predicate HasNoUpper(s: String) {
    forall i | 0 <= i < |s| :: !IsUpper(s[i])
  }

  lemma LowerHasNoUpper(s: String)
    ensures HasNoUpper(Lower(s))
  {
  }

  lemma LowerIdentity(s: String)
    requires HasNoUpper(s)
    ensures Lower(s) == s
  {
  }

  lemma LowerIdempotent(s: String)
    ensures Lower(Lower(s)) == Lower(s)
  {
    LowerHasNoUpper(s);
    LowerIdentity(Lower(s));
  }

  lemma LowerConcat(a: String, b: String)
    ensures Lower(a + b) == Lower(a) + Lower(b)
  {
  }

  // ---------------------------------------------------------------------------
  // Whitespace

  /** Python's `str.isspace` for one character. */
  predicate IsSpace(c: char) {
    || c == ' '
    || '\t' <= c <= '\r'
    || '\U{1C}' <= c <= '\U{1F}'
    || c == '\U{85}' || c == '\U{A0}' || c == '\U{1680}'
    || '\U{2000}' <= c <= '\U{200A}'
    || c == '\U{2028}' || c == '\U{2029}' || c == '\U{202F}' || c == '\U{205F}'
    || c == '\U{3000}'
  }

  predicate AllSpace(s: String) {
    forall i | 0 <= i < |s| :: IsSpace(s[i])
  }

  /** `s.lstrip(chars)` for a single character `c`: drops every leading `c`. */
  function LStripChar(s: String, c: char): (r: String)
    ensures |r| <= |s| && r == s[|s| - |r|..]
    ensures r == [] || r[0] != c
    ensures forall i | 0 <= i < |s| - |r| :: s[i] == c
  {
    if |s| > 0 && s[0] == c then
      var r := LStripChar(s[1..], c);
      assert forall i | 1 <= i < |s| - |r| :: s[i] == s[1..][i - 1];
      r
    else s
  }

  function LStrip(s: String): (r: String)
    ensures |r| <= |s| && r == s[|s| - |r|..]
    ensures AllSpace(s[..|s| - |r|])
    ensures r == [] || !IsSpace(r[0])
  {
    if |s| > 0 && IsSpace(s[0]) then
      var r := LStrip(s[1..]);
      var n := |s| - |r|;
      assert forall i | 1 <= i < n :: s[..n][i] == s[1..][..n - 1][i - 1];
      r
    else s
  }

  function RStrip(s: String): (r: String)
    ensures |r| <= |s| && r == s[..|r|]
    ensures AllSpace(s[|r|..])
    ensures r == [] || !IsSpace(r[|r| - 1])
  {
    if |s| > 0 && IsSpace(s[|s| - 1]) then
      var r := RStrip(s[..|s| - 1]);
      assert forall k | 0 <= k < |s| - 1 - |r| :: s[|r|..][k] == s[..|s| - 1][|r|..][k];
      r
    else s
  }

  /** `s.strip()`: what remains once leading and trailing whitespace is removed. */
  function Strip(s: String): (r: String)
  {
    RStrip(LStrip(s))
  }

  /** The stripped string is the factor of `s` between a whitespace-only prefix and a
      whitespace-only suffix, and it neither starts nor ends with whitespace. */
  lemma StripSpec(s: String)
    ensures exists i, j | 0 <= i <= j <= |s| ::
      && Strip(s) == s[i..j] && AllSpace(s[..i]) && AllSpace(s[j..])
    ensures Strip(s) == [] || (!IsSpace(Strip(s)[0]) && !IsSpace(Strip(s)[|Strip(s)| - 1]))
  {
    var i, j := StripBounds(s);
    StripEnds(s);
  }

  lemma StripBounds(s: String) returns (i: nat, j: nat)
    ensures i <= j <= |s| && Strip(s) == s[i..j]
    ensures AllSpace(s[..i]) && AllSpace(s[j..])
  {
    var l := LStrip(s);
    var r := RStrip(l);
    i := |s| - |l|;
    j := i + |r|;
    assert s[i..j] == l[..|r|];
    assert s[j..] == l[|r|..];
  }

  lemma StripEnds(s: String)
    ensures Strip(s) == [] || (!IsSpace(Strip(s)[0]) && !IsSpace(Strip(s)[|Strip(s)| - 1]))
  {
    var l := LStrip(s);
    var r := RStrip(l);
    assert r != [] ==> r[0] == l[0];
  }

  /** A string whose ends are not whitespace is its own strip. */
  lemma StripKeeps(s: String)
    requires s == [] || (!IsSpace(s[0]) && !IsSpace(s[|s| - 1]))
    ensures Strip(s) == s
  {
  }

  lemma StripIdempotent(s: String)
    ensures Strip(Strip(s)) == Strip(s)
  {
    StripSpec(s);
    StripKeeps(Strip(s));
  }

  // ---------------------------------------------------------------------------
  // Substrings

  predicate OccursAt(s: String, sub: String, i: int) {
    0 <= i && i + |sub| <= |s| && s[i..i + |sub|] == sub
  }

  /** Python's `sub in s`. */
  predicate Contains(s: String, sub: String) {
    exists i | 0 <= i <= |s| - |sub| :: OccursAt(s, sub, i)
  }

  lemma ContainsInLeft(a: String, b: String, sub: String)
    requires Contains(a, sub)
    ensures Contains(a + b, sub)
  {
    var i :| 0 <= i <= |a| - |sub| && OccursAt(a, sub, i);
    assert (a + b)[i..i + |sub|] == a[i..i + |sub|];
    assert OccursAt(a + b, sub, i);
  }

  lemma ContainsInRight(a: String, b: String, sub: String)
    requires Contains(b, sub)
    ensures Contains(a + b, sub)
  {
    var i :| 0 <= i <= |b| - |sub| && OccursAt(b, sub, i);
    assert (a + b)[|a| + i..|a| + i + |sub|] == b[i..i + |sub|];
    assert OccursAt(a + b, sub, |a| + i);
  }

  /** A text between two others occurs in their concatenation. */
  lemma ContainsMiddle(a: String, w: String, b: String)
    ensures Contains(a + w + b, w)
  {
    assert (a + w + b)[|a|..|a| + |w|] == w;
    assert OccursAt(a + w + b, w, |a|);
  }

  /** A text lacking one of the pattern's characters does not contain the pattern. */
  lemma MissingChar(s: String, sub: String, k: nat)
    requires k < |sub| && sub[k] !in s
    ensures !Contains(s, sub)
  {
    forall i | 0 <= i <= |s| - |sub| ensures !OccursAt(s, sub, i) {
      assert s[i..i + |sub|][k] == s[i + k];
    }
  }

  lemma ContainsEmpty(s: String)
    ensures Contains(s, [])
  {
    assert OccursAt(s, [], 0);
  }

  /** A substring occurrence in the lowered text is where the lowered pattern occurs. */
  lemma ContainsLowered(s: String, sub: String)
    requires Contains(s, sub)
    ensures Contains(Lower(s), Lower(sub))
  {
    var i :| 0 <= i <= |s| - |sub| && OccursAt(s, sub, i);
    assert Lower(s)[i..i + |sub|] == Lower(sub);
    assert OccursAt(Lower(s), Lower(sub), i);
  }

  // ---------------------------------------------------------------------------
  // Replacement and splitting

  /** `s.replace(c, repl)` for a one-character pattern. */
  function ReplaceChar(s: String, c: char, repl: String): (r: String)
    ensures c !in repl ==> c !in r
    ensures forall x | x in r :: x in s || x in repl
  {
    if s == [] then []
    else
      var head := ReplaceChar(s[..|s| - 1], c, repl);
      head + (if s[|s| - 1] == c then repl else [s[|s| - 1]])
  }

  /** Replacing a character that does not occur changes nothing. */
  lemma {:induction false} ReplaceCharAbsent(s: String, c: char, repl: String)
    requires c !in s
    ensures ReplaceChar(s, c, repl) == s
  {
    if s != [] {
      ReplaceCharAbsent(s[..|s| - 1], c, repl);
    }
  }

  /** Replacing by a single character works position by position. */
  lemma {:induction false} ReplaceCharOne(s: String, c: char, d: char)
    ensures |ReplaceChar(s, c, [d])| == |s|
    ensures forall i | 0 <= i < |s| :: ReplaceChar(s, c, [d])[i] == if s[i] == c then d else s[i]
  {
    if s != [] {
      ReplaceCharOne(s[..|s| - 1], c, d);
    }
  }

  /** `s.replace(c, "", 1)`: `s` without its first `c`. */
  function RemoveFirst(s: String, c: char): (r: String)
    ensures c !in s ==> r == s
    ensures multiset(r) == if c in s then multiset(s) - multiset{c} else multiset(s)
  {
    if s == [] then []
    else
      assert s == [s[0]] + s[1..];
      if s[0] == c then s[1..] else [s[0]] + RemoveFirst(s[1..], c)
  }

  /** Removing the first `c` keeps every other character and drops at most one `c`. */
  lemma RemoveFirstChars(s: String, c: char)
    ensures forall x | x in s && x != c :: x in RemoveFirst(s, c)
    ensures forall x | x in RemoveFirst(s, c) :: x in s
    ensures multiset(s)[c] <= multiset(RemoveFirst(s, c))[c] + 1
  {
    forall x | x in s && x != c
      ensures x in RemoveFirst(s, c)
    {
      RemoveFirstKeeps(s, c, x);
    }
    forall x | x in RemoveFirst(s, c)
      ensures x in s
    {
      RemoveFirstFrom(s, c, x);
    }
  }

  lemma RemoveFirstKeeps(s: String, c: char, x: char)
    requires x in s && x != c
    ensures x in RemoveFirst(s, c)
  {
    var m := multiset(s);
    assert x in m;
    assert multiset(RemoveFirst(s, c))[x] == m[x];
  }

  lemma RemoveFirstFrom(s: String, c: char, x: char)
    requires x in RemoveFirst(s, c)
    ensures x in s
  {
    assert x in multiset(RemoveFirst(s, c));
  }

  /** `s.split(c)[0]`: everything before the first `c`, or all of `s`. */
  function BeforeFirst(s: String, c: char): (r: String)
    ensures r <= s
    ensures c !in r
    ensures |r| < |s| ==> s[|r|] == c
  {
    if s == [] || s[0] == c then [] else [s[0]] + BeforeFirst(s[1..], c)
  }

  // ---------------------------------------------------------------------------
  // Digits and decimal numbers

  /** Decimal digits as Python's `str.isdigit` and `re`'s `\d` see them on the
      pages crawled: ASCII, Arabic-Indic and Extended Arabic-Indic (Persian). */
  predicate IsDigit(c: char) {
    || '0' <= c <= '9'
    || '\U{660}' <= c <= '\U{669}'
    || '\U{6F0}' <= c <= '\U{6F9}'
  }

  function DigitValue(c: char): (d: nat)
    requires IsDigit(c)
    ensures d < 10
  {
    if '0' <= c <= '9' then c as int - '0' as int
    else if '\U{660}' <= c <= '\U{669}' then c as int - 0x660
    else c as int - 0x6F0
  }

  predicate AllDigits(s: String) {
    forall i | 0 <= i < |s| :: IsDigit(s[i])
  }

  /** Python's `s.isdigit()`: non-empty and made of digits only. */
  predicate IsDigitString(s: String) {
    s != [] && AllDigits(s)
  }

  /** `re.sub(r'\D', '', s)`: the digits of `s`, in order. */
  function Digits(s: String): (r: String)
    ensures AllDigits(r)
    ensures |r| <= |s|
  {
    if s == [] then []
    else Digits(s[..|s| - 1]) + (if IsDigit(s[|s| - 1]) then [s[|s| - 1]] else [])
  }

  /** A string with no digit at all has an empty digit string, and conversely. */
  lemma {:induction false} DigitsEmpty(s: String)
    ensures Digits(s) == [] <==> forall i | 0 <= i < |s| :: !IsDigit(s[i])
  {
    if s != [] {
      DigitsEmpty(s[..|s| - 1]);
      assert forall i | 0 <= i < |s| - 1 :: s[..|s| - 1][i] == s[i];
    }
  }

  /** The digits of an all-digit string are the string itself. */
  lemma {:induction false} DigitsOfDigits(s: String)
    requires AllDigits(s)
    ensures Digits(s) == s
  {
    if s != [] {
      DigitsOfDigits(s[..|s| - 1]);
    }
  }

  lemma {:induction false} DigitsConcat(a: String, b: String)
    ensures Digits(a + b) == Digits(a) + Digits(b)
  {
    if b != [] {
      assert (a + b)[..|a + b| - 1] == a + b[..|b| - 1];
      DigitsConcat(a, b[..|b| - 1]);
    } else {
      assert a + b == a;
    }
  }

  /** `int(ds)` for a string of digits. */
  function DecimalValue(ds: String): nat
    requires AllDigits(ds)
  {
    if ds == [] then 0 else DecimalValue(ds[..|ds| - 1]) * 10 + DigitValue(ds[|ds| - 1])
  }

  function AsciiDigit(d: nat): (c: char)
    requires d < 10
    ensures IsDigit(c) && DigitValue(c) == d
  {
    ('0' as int + d) as char
  }

  /** `str(n)` for a non-negative integer: ASCII digits, no sign, no leading zero. */
  function NatToDecimal(n: nat): (r: String)
    ensures r != [] && AllDigits(r)
    ensures forall i | 0 <= i < |r| :: '0' <= r[i] <= '9'
    ensures |r| > 1 ==> r[0] != '0'
  {
    if n < 10 then [AsciiDigit(n)] else NatToDecimal(n / 10) + [AsciiDigit(n % 10)]
  }

  /** `int(str(n)) == n`. */
  lemma {:induction false} DecimalRoundTrip(n: nat)
    ensures DecimalValue(NatToDecimal(n)) == n
  {
    if n >= 10 {
      DecimalRoundTrip(n / 10);
      var r := NatToDecimal(n);
      assert r[..|r| - 1] == NatToDecimal(n / 10);
    }
  }

  /** Distinct numbers print differently. */
  lemma DecimalInjective(m: nat, n: nat)
    requires NatToDecimal(m) == NatToDecimal(n)
    ensures m == n
  {
    DecimalRoundTrip(m);
    DecimalRoundTrip(n);
  }

  // ---------------------------------------------------------------------------
  // Ordering

  /** Python's `a < b` on strings: lexicographic by code point. */
  predicate StrLess(a: String, b: String) {
    if a == [] then b != []
    else if b == [] then false
    else if a[0] != b[0] then a[0] < b[0]
    else StrLess(a[1..], b[1..])
  }

  lemma {:induction false} StrLessIrreflexive(a: String)
    ensures !StrLess(a, a)
  {
    if a != [] {
      StrLessIrreflexive(a[1..]);
    }
  }

  lemma {:induction false} StrLessAsymmetric(a: String, b: String)
    requires StrLess(a, b)
    ensures !StrLess(b, a)
  {
    if a != [] && b != [] && a[0] == b[0] {
      StrLessAsymmetric(a[1..], b[1..]);
    }
  }

  lemma {:induction false} StrLessTransitive(a: String, b: String, c: String)
    requires StrLess(a, b) && StrLess(b, c)
    ensures StrLess(a, c)
  {
    if a != [] && a[0] == b[0] && b[0] == c[0] {
      StrLessTransitive(a[1..], b[1..], c[1..]);
    }
  }

  lemma {:induction false} StrLessTotal(a: String, b: String)
    requires a != b
    ensures StrLess(a, b) || StrLess(b, a)
  {
    if a != [] && b != [] && a[0] == b[0] {
      assert a == [a[0]] + a[1..] && b == [b[0]] + b[1..];
      StrLessTotal(a[1..], b[1..]);
    }
  }
}
