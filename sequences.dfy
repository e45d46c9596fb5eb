/** Order relations on sequences shared by the list operations of the site. */
module Sequences {

  /** `a` is obtained from `b` by deleting elements, keeping the order of the rest. */
  predicate IsSubsequence<T(==)>(a: seq<T>, b: seq<T>)
    decreases |b|
  {
    if b == [] then a == []
    else (a != [] && a[0] == b[0] && IsSubsequence(a[1..], b[1..])) || IsSubsequence(a, b[1..])
  }

  /** No element occurs twice. */
  predicate NoDuplicates<T(==)>(s: seq<T>) {
    forall i, j :: 0 <= i < j < |s| ==> s[i] != s[j]
  }

  /** A list without duplicates has a head that does not recur and a duplicate-free tail. */
  lemma DistinctTail<T>(x: T, s: seq<T>)
    requires NoDuplicates([x] + s)
    ensures x !in s && NoDuplicates(s)
  {
    var l := [x] + s;
    forall k | 0 <= k < |s| ensures s[k] != x {
      assert l[0] != l[k + 1];
    }
    forall i, j | 0 <= i < j < |s| ensures s[i] != s[j] {
      assert l[i + 1] != l[j + 1];
    }
  }

  /** Putting a new element in front of a duplicate-free list keeps it duplicate-free. */
  lemma DistinctCons<T>(x: T, s: seq<T>)
    requires x !in s && NoDuplicates(s)
    ensures NoDuplicates([x] + s)
  {
    var l := [x] + s;
    forall i, j | 0 <= i < j < |l| ensures l[i] != l[j] {
      assert l[j] == s[j - 1];
      if i > 0 {
        assert l[i] == s[i - 1];
      }
    }
  }
}
