/** Peer identities: opaque keys, compared for equality only (src/avails/remotepeer.py). */
module Peers {
  type PeerId = nat

  predicate Distinct<T(==)>(s: seq<T>) { forall i, j :: 0 <= i < j < |s| ==> s[i] != s[j] }

  function Members<T>(s: seq<T>): set<T> { set x | x in s }

  /** As many different members as entries. */
  lemma {:induction false} DistinctCard<T>(s: seq<T>)
    requires Distinct(s)
    ensures |Members(s)| == |s|
  {
    if s != [] {
      var n := |s| - 1;
      var rest := Members(s[..n]);
      DistinctCard(s[..n]);
      assert s[n] !in rest;
      assert s == s[..n] + [s[n]];
      assert Members(s) == rest + {s[n]};
    }
  }

  lemma SubsetCard<T>(a: set<T>, b: set<T>)
    requires a <= b
    ensures |a| <= |b|
  {
    assert b == a + (b - a);
  }
}
