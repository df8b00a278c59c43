/**
 * Python's `sorted(xs, key=...)`: a stable sort by a key under a total
 * preorder, written as an insertion sort that inserts each element after
 * every element whose key is not greater.
 */
module Sorting {

  /** `leq` is total and transitive, as `<=` on integers and on strings is. */
  ghost predicate TotalPreorder<K(!new)>(leq: (K, K) -> bool) {
    && (forall a, b :: leq(a, b) || leq(b, a))
    && (forall a, b, c :: leq(a, b) && leq(b, c) ==> leq(a, c))
  }

  ghost predicate SortedBy<T, K>(s: seq<T>, key: T -> K, leq: (K, K) -> bool) {
    forall i, j :: 0 <= i < j < |s| ==> leq(key(s[i]), key(s[j]))
  }

  /** Inserts `x` before the first element whose key is strictly greater. */
  function InsertBy<T, K>(x: T, s: seq<T>, key: T -> K, leq: (K, K) -> bool): seq<T>
  {
    if s == [] then [x]
    else if !leq(key(s[0]), key(x)) then [x] + s
    else [s[0]] + InsertBy(x, s[1..], key, leq)
  }

  function SortBy<T, K>(s: seq<T>, key: T -> K, leq: (K, K) -> bool): seq<T>
  {
    if s == [] then [] else InsertBy(s[|s| - 1], SortBy(s[..|s| - 1], key, leq), key, leq)
  }

  lemma {:induction false} InsertByPermutes<T, K>(x: T, s: seq<T>, key: T -> K, leq: (K, K) -> bool)
    ensures multiset(InsertBy(x, s, key, leq)) == multiset(s) + multiset{x}
  {
    if s != [] && leq(key(s[0]), key(x)) {
      InsertByPermutes(x, s[1..], key, leq);
      assert s == [s[0]] + s[1..];
    }
  }

  lemma {:induction false} InsertBySorted<T, K(!new)>(x: T, s: seq<T>, key: T -> K, leq: (K, K) -> bool)
    requires TotalPreorder(leq)
    requires SortedBy(s, key, leq)
    ensures SortedBy(InsertBy(x, s, key, leq), key, leq)
  {
    if s != [] && leq(key(s[0]), key(x)) {
      var rest := InsertBy(x, s[1..], key, leq);
      InsertBySorted(x, s[1..], key, leq);
      InsertByPermutes(x, s[1..], key, leq);
      forall j | 0 <= j < |rest|
        ensures leq(key(s[0]), key(rest[j]))
      {
        assert rest[j] in multiset(rest);
        assert rest[j] == x || rest[j] in multiset(s[1..]);
        if rest[j] != x {
          var k :| 0 <= k < |s[1..]| && s[1..][k] == rest[j];
          assert s[k + 1] == rest[j];
        }
      }
    }
  }

  /** The result is sorted by the key. */
  lemma {:induction false} SortBySorted<T, K(!new)>(s: seq<T>, key: T -> K, leq: (K, K) -> bool)
    requires TotalPreorder(leq)
    ensures SortedBy(SortBy(s, key, leq), key, leq)
    decreases |s|
  {
    if s != [] {
      SortBySorted(s[..|s| - 1], key, leq);
      InsertBySorted(s[|s| - 1], SortBy(s[..|s| - 1], key, leq), key, leq);
    }
  }

  /** The result is a permutation of the input. */
  lemma {:induction false} SortByPermutes<T, K>(s: seq<T>, key: T -> K, leq: (K, K) -> bool)
    ensures multiset(SortBy(s, key, leq)) == multiset(s)
    decreases |s|
  {
    if s != [] {
      SortByPermutes(s[..|s| - 1], key, leq);
      InsertByPermutes(s[|s| - 1], SortBy(s[..|s| - 1], key, leq), key, leq);
      assert s == s[..|s| - 1] + [s[|s| - 1]];
    }
  }
}
