/** The queue discipline both discovery loops share: a candidate URL is appended to
    the queue only when it was never fetched, is not already queued, and the number
    of pages kept plus the number queued is still below the budget. */
module Frontier {
  import opened Text
  import opened Seqs

  /** A fetched page: the URL reached after redirects, and the targets of its anchors
      already resolved against that URL (URL joining is not part of this model). */
  datatype Page = Page(finalUrl: String, anchors: seq<String>)

  function Max(a: int, b: int): int { if a < b then b else a }

  /** The variables of a discovery loop at the head of an iteration: the queue `q`,
      the set `seen` of URLs fetched, and the pages kept in `seeds`. */
  datatype Crawl = Crawl(q: seq<String>, seen: set<String>, seeds: seq<String>)

  /** The queue after offering `cands` in order, one gated append each. */
  function Offered(q: seq<String>, seen: set<String>, nSeeds: nat, cands: seq<String>, limit: int): (r: seq<String>)
    ensures q <= r
    ensures forall k | |q| <= k < |r| :: r[k] in cands && r[k] !in seen
    ensures NoDups(q) ==> NoDups(r)
    ensures nSeeds + |r| <= Max(nSeeds + |q|, limit)
  {
    if cands == [] then q
    else
      var g := Offered(q, seen, nSeeds, cands[..|cands| - 1], limit);
      var u := cands[|cands| - 1];
      if u !in seen && u !in g && nSeeds + |g| < limit then g + [u] else g
  }

  /** Every candidate that was never fetched ends up queued, unless the budget ran out. */
  lemma {:induction false} OfferedComplete(q: seq<String>, seen: set<String>, nSeeds: nat, cands: seq<String>, limit: int)
    ensures forall u | u in cands && u !in seen ::
      u in Offered(q, seen, nSeeds, cands, limit) || nSeeds + |Offered(q, seen, nSeeds, cands, limit)| >= limit
  {
    if cands != [] {
      var init := cands[..|cands| - 1];
      OfferedComplete(q, seen, nSeeds, init, limit);
      var g := Offered(q, seen, nSeeds, init, limit);
      var r := Offered(q, seen, nSeeds, cands, limit);
      assert g <= r;
      forall u | u in cands && u !in seen
        ensures u in r || nSeeds + |r| >= limit
      {
        if u in init {
          assert u in g || nSeeds + |g| >= limit;
        }
      }
    }
  }

  /** The loop `for u in cands: if u not in seen and u not in q and nSeeds + len(q) < limit: q.append(u)`. */
  method Offer(q: seq<String>, seen: set<String>, nSeeds: nat, cands: seq<String>, limit: int)
    returns (q': seq<String>)
    ensures q' == Offered(q, seen, nSeeds, cands, limit)
  {
    q' := q;
    for i := 0 to |cands|
      invariant q' == Offered(q, seen, nSeeds, cands[..i], limit)
    {
      assert cands[..i + 1][..i] == cands[..i];
      var u := cands[i];
      if u !in seen && u !in q' && nSeeds + |q'| < limit {
        q' := q' + [u];
      }
    }
    assert cands[..|cands|] == cands;
  }
}
