/** What is left of an overlay when peers that did not answer are taken out
    (src/transfers/otm/palm_tree.py:673-681). */
module Prune {
  import opened Peers
  import opened Overlay

  function Without(s: seq<PeerId>, gone: set<PeerId>): seq<PeerId> {
    if s == [] then [] else (if s[0] in gone then [] else [s[0]]) + Without(s[1..], gone)
  }

  /** The subgraph induced by the peers that stay. */
  function Induced(adj: Adjacency, gone: set<PeerId>): Adjacency {
    map p | p in adj && p !in gone :: Without(adj[p], gone)
  }

  /** `list.remove`: the first occurrence goes. */
  function RemoveFirst(s: seq<PeerId>, x: PeerId): seq<PeerId>
    requires x in s
  {
    if s[0] == x then s[1..] else [s[0]] + RemoveFirst(s[1..], x)
  }

  lemma {:induction false} WithoutMembers(s: seq<PeerId>, gone: set<PeerId>)
    ensures forall p :: p in Without(s, gone) <==> p in s && p !in gone
    ensures |Without(s, gone)| <= |s|
  {
    if s != [] {
      WithoutMembers(s[1..], gone);
      assert s == [s[0]] + s[1..];
    }
  }

  lemma WithoutFirst(s: seq<PeerId>, x: PeerId, rest: seq<PeerId>, gone: set<PeerId>)
    requires s == [x] + rest
    ensures Without(s, gone) == (if x in gone then [] else [x]) + Without(rest, gone)
  {
    assert s[1..] == rest;
  }

  lemma Regroup(a: seq<PeerId>, b: seq<PeerId>, c: seq<PeerId>)
    ensures a + (b + c) == a + b + c
  {
  }

  /** The entries that stay keep their order: an earlier part is in front of a later one. */
  lemma {:induction false} WithoutKeepsOrder(s: seq<PeerId>, t: seq<PeerId>, gone: set<PeerId>)
    ensures Without(s + t, gone) == Without(s, gone) + Without(t, gone)
  {
    if s == [] {
      assert s + t == t;
    } else {
      WithoutKeepsOrder(s[1..], t, gone);
      WithoutFirst(s + t, s[0], s[1..] + t, gone);
      Regroup(if s[0] in gone then [] else [s[0]], Without(s[1..], gone), Without(t, gone));
    }
  }

  lemma {:induction false} WithoutDistinct(s: seq<PeerId>, gone: set<PeerId>)
    requires Distinct(s)
    ensures Distinct(Without(s, gone))
  {
    if s != [] {
      WithoutDistinct(s[1..], gone);
      WithoutMembers(s[1..], gone);
    }
  }

  lemma {:induction false} WithoutNothing(s: seq<PeerId>, gone: set<PeerId>)
    requires forall p :: p in s ==> p !in gone
    ensures Without(s, gone) == s
  {
    if s != [] { WithoutNothing(s[1..], gone); }
  }

  lemma {:induction false} WithoutTwice(s: seq<PeerId>, g: set<PeerId>, h: set<PeerId>)
    ensures Without(Without(s, g), h) == Without(s, g + h)
  {
    if s != [] {
      WithoutTwice(s[1..], g, h);
      if s[0] !in g {
        assert Without(s, g) == [s[0]] + Without(s[1..], g);
        assert Without(s, g)[1..] == Without(s[1..], g);
      } else {
        assert Without(s, g) == Without(s[1..], g);
      }
    }
  }

  /** Where entries are unique, removing the first occurrence removes all. */
  lemma {:induction false} RemoveFirstIsWithout(s: seq<PeerId>, x: PeerId)
    requires Distinct(s) && x in s
    ensures RemoveFirst(s, x) == Without(s, {x})
  {
    if s[0] == x {
      WithoutNothing(s[1..], {x});
    } else {
      RemoveFirstIsWithout(s[1..], x);
    }
  }

  /** The order in which peers turn out to be gone does not matter. */
  lemma InducedTwice(adj: Adjacency, g: set<PeerId>, h: set<PeerId>)
    ensures Induced(Induced(adj, g), h) == Induced(adj, g + h)
  {
    forall p | p in adj && p !in g && p !in h
      ensures Without(Without(adj[p], g), h) == Without(adj[p], g + h)
    {
      WithoutTwice(adj[p], g, h);
    }
  }

  lemma InducedNothing(adj: Adjacency)
    ensures Induced(adj, {}) == adj
  {
    forall p | p in adj ensures Without(adj[p], {}) == adj[p] { WithoutNothing(adj[p], {}); }
  }

  lemma InducedLinks(adj: Adjacency, gone: set<PeerId>)
    ensures forall a, b :: Linked(Induced(adj, gone), a, b) <==> Linked(adj, a, b) && a !in gone && b !in gone
  {
    forall a | a in adj && a !in gone
      ensures forall b :: b in Without(adj[a], gone) <==> b in adj[a] && b !in gone
    {
      WithoutMembers(adj[a], gone);
    }
  }

  /** Pruning leaves a good graph, no wider than before. */
  lemma InducedIsGood(adj: Adjacency, gone: set<PeerId>)
    requires GoodGraph(adj)
    ensures GoodGraph(Induced(adj, gone))
    ensures forall p :: p in Induced(adj, gone) ==> |Induced(adj, gone)[p]| <= |adj[p]|
  {
    InducedLinks(adj, gone);
    forall p | p in Induced(adj, gone)
      ensures Distinct(Induced(adj, gone)[p]) && |Induced(adj, gone)[p]| <= |adj[p]|
    {
      WithoutDistinct(adj[p], gone);
      WithoutMembers(adj[p], gone);
    }
    forall a, b | Linked(Induced(adj, gone), a, b) ensures a != b && Linked(Induced(adj, gone), b, a) {
      assert Linked(adj, a, b);
    }
  }

  /** The table once `gone` is out of the lists of its first `t` neighbours. */
  function Thinned(adj: Adjacency, gone: PeerId, t: nat): Adjacency
    requires gone in adj && t <= |adj[gone]|
  {
    map p | p in adj :: if p in adj[gone][..t] then Without(adj[p], {gone}) else adj[p]
  }

  /** The next `remove` finds its target. */
  lemma ThinnedStep(adj: Adjacency, gone: PeerId, t: nat)
    requires GoodGraph(adj) && gone in adj && t < |adj[gone]|
    ensures var p := adj[gone][t];
      && p in adj && gone in Thinned(adj, gone, t)[p]
      && Thinned(adj, gone, t + 1) == Thinned(adj, gone, t)[p := RemoveFirst(Thinned(adj, gone, t)[p], gone)]
  {
    var nbrs := adj[gone];
    var p := nbrs[t];
    assert Linked(adj, gone, p) && Linked(adj, p, gone);
    assert nbrs[..t + 1] == nbrs[..t] + [p];
    assert p !in nbrs[..t];
    RemoveFirstIsWithout(adj[p], gone);
  }

  lemma ThinnedNone(adj: Adjacency, gone: PeerId)
    requires gone in adj
    ensures Thinned(adj, gone, 0) == adj
  {
  }

  lemma ThinnedAll(adj: Adjacency, gone: PeerId)
    requires GoodGraph(adj) && gone in adj
    ensures Thinned(adj, gone, |adj[gone]|) - {gone} == Induced(adj, {gone})
  {
    assert adj[gone][..|adj[gone]|] == adj[gone];
    forall p | p in adj && p !in adj[gone] ensures Without(adj[p], {gone}) == adj[p] {
      assert !Linked(adj, gone, p);
      assert gone !in adj[p] by { assert Linked(adj, p, gone) ==> Linked(adj, gone, p); }
      WithoutNothing(adj[p], {gone});
    }
  }
}
