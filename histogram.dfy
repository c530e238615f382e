/** The word histogram that the finder accumulates from every fetched page
    (the `words` map of WordFinder in finder.go). */
module Histogram {
  import opened Sequences

  /** Maps each word to its number of occurrences. */
  type Counts = map<string, int>

  /** The count of `k` as Go reads it: a key that is absent reads as 0. */
  function Count(m: Counts, k: string): int {
    if k in m then m[k] else 0
  }

  /** Adds every count of `wds` into `m`, key by key (the body of the
      `for k, v := range wds` loop of addLinkData). */
  function MergeCounts(m: Counts, wds: Counts): (r: Counts)
    ensures r.Keys == m.Keys + wds.Keys
    ensures forall k :: k in wds ==> r[k] == Count(m, k) + wds[k]
    ensures forall k :: k in m && k !in wds ==> r[k] == m[k]
  {
    map k | k in m.Keys + wds.Keys :: Count(m, k) + Count(wds, k)
  }

  /** The histogram after merging the page histograms `hs` into `m`, first to last. */
  function MergeAll(m: Counts, hs: seq<Counts>): Counts {
    if hs == [] then m else MergeCounts(MergeAll(m, hs[..|hs| - 1]), hs[|hs| - 1])
  }

  /** MergeCounts is the only map with its keys and totals. */
  lemma MergeCountsUnique(m: Counts, wds: Counts, r: Counts)
    requires r.Keys == m.Keys + wds.Keys
    requires forall k :: k in wds ==> r[k] == Count(m, k) + wds[k]
    requires forall k :: k in m && k !in wds ==> r[k] == m[k]
    ensures r == MergeCounts(m, wds)
  {
    var merged := MergeCounts(m, wds);
    forall k | k in r ensures r[k] == merged[k] {
      if k in wds {
        assert r[k] == Count(m, k) + wds[k];
      }
    }
  }

  /** Two merges give the same totals in either order. */
  lemma MergeCountsCommute(m: Counts, a: Counts, b: Counts)
    ensures MergeCounts(MergeCounts(m, a), b) == MergeCounts(MergeCounts(m, b), a)
  {
    var ab, ba := MergeCounts(MergeCounts(m, a), b), MergeCounts(MergeCounts(m, b), a);
    forall k | k in ab.Keys ensures ab[k] == ba[k] {
      assert ab[k] == Count(m, k) + Count(a, k) + Count(b, k);
    }
  }

  /** Merging a concatenation is merging its two parts one after the other. */
  lemma {:induction false} MergeAllConcat(m: Counts, xs: seq<Counts>, ys: seq<Counts>)
    ensures MergeAll(m, xs + ys) == MergeAll(MergeAll(m, xs), ys)
    decreases |ys|
  {
    if ys == [] {
      assert xs + ys == xs;
    } else {
      var init := ys[..|ys| - 1];
      assert (xs + ys)[..|xs + ys| - 1] == xs + init;
      assert (xs + ys)[|xs + ys| - 1] == ys[|ys| - 1];
      MergeAllConcat(m, xs, init);
    }
  }

  /** A page histogram can be moved to the end of the merge order. */
  lemma {:induction false} MergeAllMoveLast(m: Counts, p: seq<Counts>, x: Counts, q: seq<Counts>)
    ensures MergeAll(m, p + [x] + q) == MergeAll(m, p + q + [x])
    decreases |q|
  {
    if q == [] {
      assert p + [x] + q == p + q + [x];
    } else {
      var init, y := q[..|q| - 1], q[|q| - 1];
      assert (p + [x] + q)[..|p + [x] + q| - 1] == p + [x] + init;
      assert (p + [x] + q)[|p + [x] + q| - 1] == y;
      MergeAllMoveLast(m, p, x, init);
      assert (p + init + [x])[..|p + init + [x]| - 1] == p + init;
      MergeCountsCommute(MergeAll(m, p + init), x, y);
      assert (p + q + [x])[..|p + q + [x]| - 1] == p + init + [y];
      assert (p + init + [y])[..|p + init + [y]| - 1] == p + init;
    }
  }

  /** The final histogram does not depend on the order in which pages are merged:
      any permutation of the page histograms gives the same totals. */
  lemma {:induction false} MergeAllPermutation(m: Counts, xs: seq<Counts>, ys: seq<Counts>)
    requires multiset(xs) == multiset(ys)
    ensures MergeAll(m, xs) == MergeAll(m, ys)
    decreases |xs|
  {
    if xs == [] {
      assert |ys| == |multiset(ys)| == 0;
    } else {
      var init, x := xs[..|xs| - 1], xs[|xs| - 1];
      assert xs == init + [x];
      assert x in multiset(ys);
      var k :| 0 <= k < |ys| && ys[k] == x;
      var p, q := ys[..k], ys[k + 1..];
      assert ys == p + [x] + q;
      MultisetRemoveOne(init, x, p, q);
      MergeAllPermutation(m, init, p + q);
      MergeAllMoveLast(m, p, x, q);
      assert (p + q + [x])[..|p + q + [x]| - 1] == p + q;
    }
  }
}
