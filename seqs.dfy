/**
 * The array operations the store is built from, on sequences: JavaScript's
 * `Array.prototype.filter`, `find` and `some`, with what each promises about
 * its result stated outright.
 */
module Seqs {
  import opened Types

  /** `r` can be obtained from `s` by deleting elements: the relative order is kept. */
  ghost predicate IsSubsequence<T>(r: seq<T>, s: seq<T>)
    decreases |s|
  {
    r == [] ||
    (s != [] && ((r[0] == s[0] && IsSubsequence(r[1..], s[1..])) || IsSubsequence(r, s[1..])))
  }

  /** No two elements of `s` have the same key. */
  ghost predicate UniqueBy<T, K>(s: seq<T>, key: T -> K) {
    forall i, j :: 0 <= i < j < |s| ==> key(s[i]) != key(s[j])
  }

  /**
   * `s.filter(p)`: exactly the elements satisfying `p`, each as often as in
   * `s`, in their original relative order.
   */
  function Filter<T(!new)>(s: seq<T>, p: T -> bool): (r: seq<T>)
    ensures |r| <= |s|
    ensures forall x :: x in r <==> x in s && p(x)
    ensures IsSubsequence(r, s)
  {
    if s == [] then []
    else if p(s[0]) then [s[0]] + Filter(s[1..], p)
    else Filter(s[1..], p)
  }

  /** Filtering keeps every passing element exactly as often as it occurs. */
  lemma {:induction false} FilterMultiplicity<T(!new)>(s: seq<T>, p: T -> bool)
    ensures forall x :: multiset(Filter(s, p))[x] == if p(x) then multiset(s)[x] else 0
  {
    if s != [] {
      FilterMultiplicity(s[1..], p);
      assert s == [s[0]] + s[1..];
    }
  }

  /** The index of the first element satisfying `p`, or `|s|` when there is none. */
  function FirstIndex<T>(s: seq<T>, p: T -> bool): (k: nat)
    ensures k <= |s|
    ensures k < |s| ==> p(s[k])
    ensures forall j :: 0 <= j < k ==> !p(s[j])
  {
    if s == [] then 0
    else if p(s[0]) then 0
    else 1 + FirstIndex(s[1..], p)
  }

  /** `s.find(p)`: the first element satisfying `p`, or `None` (`undefined`) when none does. */
  function Find<T(!new)>(s: seq<T>, p: T -> bool): (r: Option<T>)
    ensures r.None? <==> forall x :: x in s ==> !p(x)
    ensures r.Some? ==> r.value in s && p(r.value)
    ensures r.Some? ==> exists k :: 0 <= k < |s| && s[k] == r.value && forall j :: 0 <= j < k ==> !p(s[j])
  {
    var k := FirstIndex(s, p);
    if k < |s| then Some(s[k]) else None
  }

  /** `s.some(p)`. */
  function Any<T(!new)>(s: seq<T>, p: T -> bool): (b: bool)
    ensures b <==> exists x :: x in s && p(x)
  {
    Find(s, p).Some?
  }

  /** Filtering a sequence all of whose elements pass gives it back unchanged. */
  lemma {:induction false} FilterKeepsAll<T(!new)>(s: seq<T>, p: T -> bool)
    requires forall x :: x in s ==> p(x)
    ensures Filter(s, p) == s
  {
    if s != [] {
      assert s[0] in s;
      assert forall x :: x in s[1..] ==> x in s;
      FilterKeepsAll(s[1..], p);
      assert s == [s[0]] + s[1..];
    }
  }

  /** Filtering twice by the same predicate is the same as filtering once. */
  lemma FilterIdempotent<T(!new)>(s: seq<T>, p: T -> bool)
    ensures Filter(Filter(s, p), p) == Filter(s, p)
  {
    FilterKeepsAll(Filter(s, p), p);
  }

  /** A sequence none of whose elements pass filters to the empty sequence. */
  lemma FilterDropsAll<T(!new)>(s: seq<T>, p: T -> bool)
    requires forall x :: x in s ==> !p(x)
    ensures Filter(s, p) == []
  {
  }

  /** Unique keys stay unique in the tail, and the head's key is not among them. */
  lemma UniqueByUncons<T, K>(s: seq<T>, key: T -> K)
    requires s != [] && UniqueBy(s, key)
    ensures UniqueBy(s[1..], key)
    ensures forall y :: y in s[1..] ==> key(y) != key(s[0])
  {
    var rest := s[1..];
    forall i, j | 0 <= i < j < |rest| ensures key(rest[i]) != key(rest[j]) {
      assert rest[i] == s[i + 1] && rest[j] == s[j + 1];
    }
    forall y | y in rest ensures key(y) != key(s[0]) {
      var m :| 0 <= m < |rest| && rest[m] == y;
      assert s[m + 1] == y;
    }
  }

  /** Putting an element with a new key in front keeps keys unique. */
  lemma UniqueByCons<T, K>(x: T, t: seq<T>, key: T -> K)
    requires UniqueBy(t, key)
    requires forall y :: y in t ==> key(y) != key(x)
    ensures UniqueBy([x] + t, key)
  {
    var r := [x] + t;
    forall i, j | 0 <= i < j < |r| ensures key(r[i]) != key(r[j]) {
      if i == 0 {
        assert r[j] == t[j - 1] && t[j - 1] in t;
      } else {
        assert r[i] == t[i - 1] && r[j] == t[j - 1];
      }
    }
  }

  /** Filtering keeps keys unique. */
  lemma {:induction false} FilterPreservesUniqueBy<T(!new), K>(s: seq<T>, p: T -> bool, key: T -> K)
    requires UniqueBy(s, key)
    ensures UniqueBy(Filter(s, p), key)
  {
    if s != [] {
      UniqueByUncons(s, key);
      FilterPreservesUniqueBy(s[1..], p, key);
      if p(s[0]) {
        UniqueByCons(s[0], Filter(s[1..], p), key);
      }
    }
  }

  /** Appending an element whose key is new keeps keys unique. */
  lemma AppendFreshPreservesUniqueBy<T, K>(s: seq<T>, x: T, key: T -> K)
    requires UniqueBy(s, key)
    requires forall y :: y in s ==> key(y) != key(x)
    ensures UniqueBy(s + [x], key)
  {
    var r := s + [x];
    forall i, j | 0 <= i < j < |r| ensures key(r[i]) != key(r[j]) {
      if j == |s| {
        assert r[i] == s[i] && s[i] in s;
      } else {
        assert r[i] == s[i] && r[j] == s[j];
      }
    }
  }
}
