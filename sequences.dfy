/** Facts about sequences without repeated elements, used by the crawl controller
    (no link is scheduled twice) and by the ranking (no word is reported twice). */
module Sequences {

  /** No element occurs twice in `s`. */
  predicate Distinct<T(==)>(s: seq<T>) {
    forall i, j :: 0 <= i < j < |s| ==> s[i] != s[j]
  }

  /** In a sequence without repeats, every element occurs at most once. */
  lemma {:induction false} DistinctCountAtMostOne<T>(s: seq<T>, x: T)
    requires Distinct(s)
    ensures multiset(s)[x] <= 1
  {
    if s != [] {
      var rest := s[1..];
      assert s == [s[0]] + rest;
      assert Distinct(rest) by {
        forall i, j | 0 <= i < j < |rest| ensures rest[i] != rest[j] {
          assert rest[i] == s[i + 1] && rest[j] == s[j + 1];
        }
      }
      DistinctCountAtMostOne(rest, x);
      if x == s[0] {
        assert x !in rest by {
          forall i | 0 <= i < |rest| ensures rest[i] != x {
            assert rest[i] == s[i + 1];
          }
        }
      }
    }
  }

  /** An element that occurs at most once cannot sit at two positions. */
  lemma SingleOccurrenceAt<T>(s: seq<T>, i: int, j: int)
    requires 0 <= i < j < |s|
    requires multiset(s)[s[i]] <= 1
    ensures s[i] != s[j]
  {
    var before, after := s[..j], s[j + 1..];
    assert s == before + [s[j]] + after;
    assert before[i] == s[i];
    assert s[i] in multiset(before);
  }

  /** A permutation of a sequence without repeats has no repeats. */
  lemma PermutationKeepsDistinct<T>(a: seq<T>, b: seq<T>)
    requires multiset(a) == multiset(b)
    requires Distinct(b)
    ensures Distinct(a)
  {
    forall i, j | 0 <= i < j < |a| ensures a[i] != a[j] {
      DistinctCountAtMostOne(b, a[i]);
      SingleOccurrenceAt(a, i, j);
    }
  }

  /** Taking the same element out of two permutations of each other leaves
      permutations of each other. */
  lemma MultisetRemoveOne<T>(a: seq<T>, x: T, p: seq<T>, q: seq<T>)
    requires multiset(a + [x]) == multiset(p + [x] + q)
    ensures multiset(a) == multiset(p + q)
  {
    var left, right := multiset(a), multiset(p + q);
    assert multiset(a + [x]) == left + multiset{x};
    assert p + [x] + q == p + ([x] + q);
    assert multiset(p + [x] + q) == right + multiset{x};
    forall y ensures left[y] == right[y] {
      assert (left + multiset{x})[y] == (right + multiset{x})[y];
    }
  }

  /** Joining two sequences without repeats and without common elements gives
      a sequence without repeats. */
  lemma DistinctConcat<T>(a: seq<T>, b: seq<T>)
    requires Distinct(a) && Distinct(b)
    requires forall x :: x in a ==> x !in b
    ensures Distinct(a + b)
  {
    forall i, j | 0 <= i < j < |a + b| ensures (a + b)[i] != (a + b)[j] {
      if j < |a| {
        assert (a + b)[i] == a[i] && (a + b)[j] == a[j];
      } else if i >= |a| {
        assert (a + b)[i] == b[i - |a|] && (a + b)[j] == b[j - |a|];
      } else {
        assert (a + b)[i] == a[i] && (a + b)[j] == b[j - |a|];
        assert a[i] in a;
      }
    }
  }

  lemma ConcatAssoc<T>(a: seq<T>, b: seq<T>, c: seq<T>)
    ensures (a + b) + c == a + (b + c)
  {
    forall i | 0 <= i < |a| + |b| + |c| ensures ((a + b) + c)[i] == (a + (b + c))[i] {
      if i >= |a| + |b| {
        assert ((a + b) + c)[i] == c[i - |a| - |b|];
      }
    }
  }
}
