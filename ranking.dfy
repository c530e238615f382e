/** Ranking of the histogram by count (kvPair, kvSorter and the sort that
    getResults applies, finder.go). */
module Ranking {
  import opened Sequences

  /** One histogram entry: a word and its count. */
  datatype KvPair = KvPair(key: string, value: int)

  /** kvSorter.Less: `x` sorts before `y` when its count is strictly larger.
      Only counts are compared, so words with equal counts may come in any order. */
  predicate Less(x: KvPair, y: KvPair) {
    y.value < x.value
  }

  /** The order sort.Sort leaves behind: no pair is Less than one before it,
      that is, counts never increase along the sequence. */
  predicate Sorted(s: seq<KvPair>) {
    forall i, j :: 0 <= i < j < |s| ==> !Less(s[j], s[i])
  }

  /** Every pair of `s` is an entry of `m`. */
  predicate PairsOf(s: seq<KvPair>, m: map<string, int>) {
    forall p :: 0 <= p < |s| ==> s[p].key in m && m[s[p].key] == s[p].value
  }

  /** No word occurs twice in `s`. */
  predicate DistinctKeys(s: seq<KvPair>) {
    forall p, q :: 0 <= p < q < |s| ==> s[p].key != s[q].key
  }

  /** Every word of `m` has a pair in `s`. */
  predicate Covers(s: seq<KvPair>, m: map<string, int>) {
    forall k :: k in m ==> exists p :: 0 <= p < |s| && s[p].key == k
  }

  /** kvSorter.Swap. */
  method Swap(a: array<KvPair>, i: nat, j: nat)
    requires i < a.Length && j < a.Length
    modifies a
    ensures a[..] == old(a[..])[i := old(a[j])][j := old(a[i])]
    ensures multiset(a[..]) == multiset(old(a[..]))
  {
    a[i], a[j] := a[j], a[i];
  }

  /** Sorts `a` in place by kvSorter.Less. The library's algorithm is not the
      point: the result is some permutation of `a` whose counts never increase. */
  method SortPairs(a: array<KvPair>)
    modifies a
    ensures Sorted(a[..])
    ensures multiset(a[..]) == multiset(old(a[..]))
  {
    var i := 0;
    while i < a.Length
      invariant 0 <= i <= a.Length
      invariant forall p, q :: 0 <= p < q < i ==> !Less(a[q], a[p])
      invariant multiset(a[..]) == multiset(old(a[..]))
    {
      var j := i;
      while 0 < j && Less(a[j], a[j - 1])
        invariant 0 <= j <= i
        invariant forall p, q :: 0 <= p < q <= i && p != j && q != j ==> !Less(a[q], a[p])
        invariant forall q :: j < q <= i ==> Less(a[j], a[q])
        invariant multiset(a[..]) == multiset(old(a[..]))
      {
        Swap(a, j - 1, j);
        j := j - 1;
      }
      i := i + 1;
    }
  }

  /** A permutation of the entries of `m`, one pair per word, is again one
      pair per word of `m`. */
  lemma PermutationKeepsEntries(a: seq<KvPair>, b: seq<KvPair>, m: map<string, int>)
    requires multiset(a) == multiset(b)
    requires PairsOf(b, m) && DistinctKeys(b) && Covers(b, m)
    ensures PairsOf(a, m) && DistinctKeys(a) && Covers(a, m)
  {
    forall p | 0 <= p < |a| ensures a[p].key in m && m[a[p].key] == a[p].value {
      assert a[p] in multiset(b);
      var q :| 0 <= q < |b| && b[q] == a[p];
    }
    assert Distinct(b) by {
      forall p, q | 0 <= p < q < |b| ensures b[p] != b[q] {
        assert b[p].key != b[q].key;
      }
    }
    PermutationKeepsDistinct(a, b);
    forall p, q | 0 <= p < q < |a| ensures a[p].key != a[q].key {
      assert a[p] != a[q];
    }
    forall k | k in m ensures exists p :: 0 <= p < |a| && a[p].key == k {
      var q :| 0 <= q < |b| && b[q].key == k;
      assert b[q] in multiset(a);
      var p :| 0 <= p < |a| && a[p] == b[q];
    }
  }

  /** The first pairs `top` of a sorted listing `s` of all of `m` are the
      largest: every word left out counts at most as much as any word kept. */
  lemma SortedPrefixIsTop(s: seq<KvPair>, m: map<string, int>, top: seq<KvPair>)
    requires Sorted(s) && PairsOf(s, m) && Covers(s, m)
    requires |top| <= |s| && top == s[..|top|]
    ensures forall k :: k in m && (forall p :: 0 <= p < |top| ==> top[p].key != k) ==>
              forall p :: 0 <= p < |top| ==> m[k] <= top[p].value
  {
    forall k, p | k in m && (forall p' :: 0 <= p' < |top| ==> top[p'].key != k) && 0 <= p < |top|
      ensures m[k] <= top[p].value
    {
      assert forall q :: 0 <= q < |top| ==> top[q] == s[q];
      var r :| 0 <= r < |s| && s[r].key == k;
      assert |top| <= r;
      assert !Less(s[r], s[p]);
    }
  }

  /** A prefix of a sorted listing of entries of `m` without repeated words is
      one too. */
  lemma PrefixKeepsOrder(s: seq<KvPair>, m: map<string, int>, n: nat)
    requires Sorted(s) && PairsOf(s, m) && DistinctKeys(s) && n <= |s|
    ensures Sorted(s[..n]) && PairsOf(s[..n], m) && DistinctKeys(s[..n])
  {
    var r := s[..n];
    assert forall p :: 0 <= p < n ==> r[p] == s[p];
  }
}
