/** Sequence operations shared by several modules: order-keeping de-duplication
    (the `uniq` helpers of both spiders and `list(dict.fromkeys(xs))`), Python's
    `xs[:n]`, and `sorted(set(xs))` for strings. */
module Seqs {
  import opened Text
  import opened Wrappers

  predicate NoDups<T(==)>(s: seq<T>) {
    forall i, j | 0 <= i < j < |s| :: s[i] != s[j]
  }

  /** Position of the first occurrence of `x` in `xs`. */
  function IndexOf<T(==)>(xs: seq<T>, x: T): (i: nat)
    requires x in xs
    ensures i < |xs| && xs[i] == x && x !in xs[..i]
  {
    if xs[0] == x then 0 else 1 + IndexOf(xs[1..], x)
  }

  lemma {:induction false} IndexOfPrefix<T>(xs: seq<T>, ys: seq<T>, x: T)
    requires x in xs
    ensures IndexOf(xs + ys, x) == IndexOf(xs, x)
  {
    if xs[0] != x {
      assert (xs + ys)[1..] == xs[1..] + ys;
      IndexOfPrefix(xs[1..], ys, x);
    }
  }

  /** Order-keeping de-duplication: each element once, at its first occurrence. */
  function Dedup<T(==)>(xs: seq<T>): (r: seq<T>)
    ensures NoDups(r)
    ensures forall x | x in r :: x in xs
    ensures forall x | x in xs :: x in r
    ensures |r| <= |xs|
  {
    if xs == [] then []
    else
      var d := Dedup(xs[..|xs| - 1]);
      if xs[|xs| - 1] in d then d else d + [xs[|xs| - 1]]
  }

  /** De-duplication keeps the elements in the order of their first occurrence. */
  lemma {:induction false} DedupOrder<T>(xs: seq<T>)
    ensures forall i, j | 0 <= i < j < |Dedup(xs)| ::
      IndexOf(xs, Dedup(xs)[i]) < IndexOf(xs, Dedup(xs)[j])
  {
    if xs != [] {
      var init, x := xs[..|xs| - 1], xs[|xs| - 1];
      assert xs == init + [x];
      var d := Dedup(init);
      DedupOrder(init);
      forall y | y in d
        ensures IndexOf(xs, y) == IndexOf(init, y) < |init|
      {
        IndexOfPrefix(init, [x], y);
      }
      if x !in d {
        assert x !in init;
        assert IndexOf(xs, x) == |init|;
      }
    }
  }

  /** A sequence without duplicates is its own de-duplication. */
  lemma {:induction false} DedupOfDistinct<T>(xs: seq<T>)
    requires NoDups(xs)
    ensures Dedup(xs) == xs
  {
    if xs != [] {
      var init := xs[..|xs| - 1];
      DedupOfDistinct(init);
      assert xs[|xs| - 1] !in init;
      assert xs == init + [xs[|xs| - 1]];
    }
  }

  lemma DedupIdempotent<T>(xs: seq<T>)
    ensures Dedup(Dedup(xs)) == Dedup(xs)
  {
    DedupOfDistinct(Dedup(xs));
  }

  /** The inner `uniq` of both spiders: a seen-set and an output list filled in one pass. */
  method Uniq<T(==)>(xs: seq<T>) returns (out: seq<T>)
    ensures out == Dedup(xs)
    ensures NoDups(out)
    ensures forall x | x in out :: x in xs
    ensures forall x | x in xs :: x in out
  {
    var seen: set<T> := {};
    out := [];
    for i := 0 to |xs|
      invariant out == Dedup(xs[..i])
      invariant seen == set x | x in out
    {
      assert xs[..i + 1][..i] == xs[..i];
      if xs[i] in seen {
        continue;
      }
      seen := seen + {xs[i]};
      out := out + [xs[i]];
    }
    assert xs[..|xs|] == xs;
  }

  /** Python's `s[:n]`, negative `n` counting from the end. */
  function Take<T(==)>(s: seq<T>, n: int): (r: seq<T>)
    ensures r <= s
    ensures n >= 0 ==> |r| == if n < |s| then n else |s|
    ensures n < 0 ==> |r| == if |s| + n > 0 then |s| + n else 0
  {
    if n >= 0 then (if n < |s| then s[..n] else s)
    else if |s| + n > 0 then s[..|s| + n] else []
  }

  lemma TakeDistinct<T>(s: seq<T>, n: int)
    requires NoDups(s)
    ensures NoDups(Take(s, n))
  {
    var r := Take(s, n);
    assert forall i | 0 <= i < |r| :: r[i] == s[i];
  }

  /** A filtering map: `[f(x).value for x in xs if f(x) is not None]`, in order. */
  function FilterMap<A, B>(xs: seq<A>, f: A -> Option<B>): (r: seq<B>)
    ensures |r| <= |xs|
  {
    if xs == [] then []
    else FilterMap(xs[..|xs| - 1], f) + (match f(xs[|xs| - 1]) case Some(y) => [y] case None => [])
  }

  /** Filtering a concatenation filters each part. */
  lemma {:induction false} FilterMapConcat<A, B>(a: seq<A>, b: seq<A>, f: A -> Option<B>)
    ensures FilterMap(a + b, f) == FilterMap(a, f) + FilterMap(b, f)
  {
    if b == [] {
      assert a + b == a;
    } else {
      var ab, b' := a + b, b[..|b| - 1];
      assert ab[..|ab| - 1] == a + b';
      assert ab[|ab| - 1] == b[|b| - 1];
      FilterMapConcat(a, b', f);
    }
  }

  /** The images of a prefix are a prefix of the images. */
  lemma FilterMapPrefix<A, B>(xs: seq<A>, n: nat, f: A -> Option<B>)
    requires n <= |xs|
    ensures FilterMap(xs[..n], f) <= FilterMap(xs, f)
  {
    SplitAt(xs, n);
    FilterMapConcat(xs[..n], xs[n..], f);
    PrefixOfConcat(FilterMap(xs[..n], f), FilterMap(xs[n..], f));
  }

  lemma SplitAt<T>(xs: seq<T>, n: nat)
    requires n <= |xs|
    ensures xs[..n] + xs[n..] == xs
  {
  }

  lemma PrefixOfConcat<T>(p: seq<T>, q: seq<T>)
    ensures p <= p + q
  {
    assert (p + q)[..|p|] == p;
  }

  /** Once the images of a prefix number `n`, the first `n` images are those. */
  lemma FilterMapTakePrefix<A, B>(xs: seq<A>, k: nat, f: A -> Option<B>, n: nat)
    requires k <= |xs| && |FilterMap(xs[..k], f)| == n
    ensures Take(FilterMap(xs, f), n) == FilterMap(xs[..k], f)
  {
    FilterMapPrefix(xs, k, f);
  }

  /** An input without an image contributes nothing. */
  lemma FilterMapSkip<A, B>(a: seq<A>, x: A, b: seq<A>, f: A -> Option<B>)
    requires f(x).None?
    ensures FilterMap(a + [x] + b, f) == FilterMap(a + b, f)
  {
    FilterMapConcat(a + [x], b, f);
    FilterMapConcat(a, [x], f);
    FilterMapConcat(a, b, f);
    assert [x][..0] == [];
  }

  /** Every output is the image of an input, and every input with an image contributes it. */
  lemma {:induction false} FilterMapSpec<A, B>(xs: seq<A>, f: A -> Option<B>)
    ensures forall y | y in FilterMap(xs, f) :: exists x | x in xs :: f(x) == Some(y)
    ensures forall x | x in xs && f(x).Some? :: f(x).value in FilterMap(xs, f)
  {
    if xs != [] {
      var init := xs[..|xs| - 1];
      FilterMapSpec(init, f);
      assert forall x | x in xs :: x in init || x == xs[|xs| - 1];
      assert forall x | x in init :: x in xs;
    }
  }

  /** `[x for x in xs if p(x)]`. */
  function Filter<T>(xs: seq<T>, p: T -> bool): (r: seq<T>)
    ensures |r| <= |xs|
    ensures forall x | x in r :: x in xs && p(x)
  {
    if xs == [] then []
    else Filter(xs[..|xs| - 1], p) + (if p(xs[|xs| - 1]) then [xs[|xs| - 1]] else [])
  }
  /** One more element of the input, kept or not. */
  lemma FilterStep<T>(xs: seq<T>, i: nat, p: T -> bool, keep: bool)
    requires i < |xs| && keep == p(xs[i])
    ensures Filter(xs[..i + 1], p) == Filter(xs[..i], p) + (if keep then [xs[i]] else [])
  {
    assert xs[..i + 1][..i] == xs[..i];
  }


  /** Every element that passes the test is kept. */
  lemma {:induction false} FilterComplete<T>(xs: seq<T>, p: T -> bool)
    ensures forall x | x in xs && p(x) :: x in Filter(xs, p)
  {
    if xs != [] {
      var init := xs[..|xs| - 1];
      FilterComplete(init, p);
      assert forall x | x in xs :: x in init || x == xs[|xs| - 1];
    }
  }

  /** Filtering keeps the relative order of first occurrences. */
  lemma {:induction false} FilterOrder<T>(xs: seq<T>, p: T -> bool, x: T, y: T)
    requires x in Filter(xs, p) && y in Filter(xs, p)
    requires IndexOf(Filter(xs, p), x) < IndexOf(Filter(xs, p), y)
    ensures IndexOf(xs, x) < IndexOf(xs, y)
  {
    var init, z := xs[..|xs| - 1], xs[|xs| - 1];
    assert xs == init + [z];
    var f, r := Filter(init, p), Filter(xs, p);
    FilterComplete(init, p);
    assert r == f + r[|f|..] && |r| <= |f| + 1;
    assert r[IndexOf(r, x)] == f[IndexOf(r, x)];
    assert x in f;
    IndexOfPrefix(f, r[|f|..], x);
    IndexOfPrefix(init, [z], x);
    if y in f {
      IndexOfPrefix(f, r[|f|..], y);
      FilterOrder(init, p, x, y);
      IndexOfPrefix(init, [z], y);
    } else {
      assert y == z && y !in init;
      assert forall k | 0 <= k < |init| :: xs[k] == init[k] && init[k] in init;
    }
  }

  /** Two tests that agree on every element filter alike. */
  lemma {:induction false} FilterAgree<T>(xs: seq<T>, p: T -> bool, q: T -> bool)
    requires forall x | x in xs :: p(x) == q(x)
    ensures Filter(xs, p) == Filter(xs, q)
  {
    if xs != [] {
      var init := xs[..|xs| - 1];
      assert forall x | x in init :: x in xs;
      FilterAgree(init, p, q);
      assert xs[|xs| - 1] in xs;
    }
  }

  lemma {:induction false} FilterDistinct<T>(xs: seq<T>, p: T -> bool)
    requires NoDups(xs)
    ensures NoDups(Filter(xs, p))
  {
    if xs != [] {
      var init := xs[..|xs| - 1];
      assert NoDups(init);
      FilterDistinct(init, p);
      assert xs[|xs| - 1] !in init;
    }
  }

  // ---------------------------------------------------------------------------
  // `sorted(set(xs))` for strings

  predicate StrictlySorted(s: seq<String>) {
    forall i, j | 0 <= i < j < |s| :: StrLess(s[i], s[j])
  }

  /** Inserts `x` into a strictly sorted sequence unless it is already there. */
  function InsertSorted(x: String, s: seq<String>): (r: seq<String>)
    requires StrictlySorted(s)
    ensures StrictlySorted(r)
    ensures forall y :: y in r <==> y == x || y in s
  {
    if s == [] then [x]
    else if x == s[0] then s
    else if StrLess(x, s[0]) then
      StrLessTransitiveFrom(x, s);
      [x] + s
    else
      StrLessTotal(x, s[0]);
      var t := InsertSorted(x, s[1..]);
      assert forall y | y in t :: StrLess(s[0], y) by {
        forall y | y in t ensures StrLess(s[0], y) {
          if y != x {
            var k :| 1 <= k < |s| && s[k] == y;
          }
        }
      }
      [s[0]] + t
  }

  lemma StrLessTransitiveFrom(x: String, s: seq<String>)
    requires StrictlySorted(s) && s != [] && StrLess(x, s[0])
    ensures forall i | 0 <= i < |s| :: StrLess(x, s[i])
  {
    forall i | 0 < i < |s| ensures StrLess(x, s[i]) {
      StrLessTransitive(x, s[0], s[i]);
    }
  }

  /** `sorted(set(xs))`: the distinct elements of `xs` in increasing order. */
  function SortedSet(xs: seq<String>): (r: seq<String>)
    ensures StrictlySorted(r)
    ensures forall y :: y in r <==> y in xs
  {
    if xs == [] then [] else InsertSorted(xs[|xs| - 1], SortedSet(xs[..|xs| - 1]))
  }

  lemma StrictlySortedDistinct(s: seq<String>)
    requires StrictlySorted(s)
    ensures NoDups(s)
  {
    forall i, j | 0 <= i < j < |s| ensures s[i] != s[j] {
      StrLessIrreflexive(s[i]);
    }
  }

  /** The head of a strictly sorted sequence is below every other element. */
  lemma SortedHeadLeast(s: seq<String>)
    requires StrictlySorted(s) && s != []
    ensures forall y | y in s :: y == s[0] || StrLess(s[0], y)
  {
  }

  /** Two strictly sorted sequences with the same elements are equal, so the sorted
      set is determined by the elements alone. */
  lemma {:induction false} StrictlySortedUnique(s: seq<String>, t: seq<String>)
    requires StrictlySorted(s) && StrictlySorted(t)
    requires forall y :: y in s <==> y in t
    ensures s == t
  {
    if s != [] {
      assert s[0] in s;
    }
    if t != [] {
      assert t[0] in t;
    }
    if s != [] && t != [] {
      SortedHeadLeast(s);
      SortedHeadLeast(t);
      assert s[0] in s && t[0] in t;
      if s[0] != t[0] {
        StrLessAsymmetric(s[0], t[0]);
      }
      forall y ensures y in s[1..] ==> y in t[1..] {
        if y in s[1..] {
          var j :| 0 <= j < |s| - 1 && s[1..][j] == y;
          assert StrLess(s[0], s[j + 1]);
          StrLessIrreflexive(s[0]);
          assert y in t && y != t[0];
        }
      }
      forall y ensures y in t[1..] ==> y in s[1..] {
        if y in t[1..] {
          var j :| 0 <= j < |t| - 1 && t[1..][j] == y;
          assert StrLess(t[0], t[j + 1]);
          StrLessIrreflexive(t[0]);
          assert y in s && y != s[0];
        }
      }
      StrictlySortedUnique(s[1..], t[1..]);
    }
  }
}
