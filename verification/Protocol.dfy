/** `PalmTreeProtocol`: the adjacency table that the initiator builds and prunes in
    place (src/transfers/otm/palm_tree.py:598-681). */
module Protocol {
  import opened Peers
  import opened Overlay
  import opened Bits
  import opened Hypercube
  import opened Prune

  /** Reading a missing key of a `defaultdict(list)` gives the empty list. */
  function Lookup(adj: Adjacency, p: PeerId): seq<PeerId> { if p in adj then adj[p] else [] }

  /** The rows of the first `i` peers are there, and nothing else. */
  ghost predicate BuiltUpTo(adj: Adjacency, peers: seq<PeerId>, row: nat -> seq<PeerId>, i: nat)
    requires i <= |peers|
  {
    && (forall p :: p in adj ==> p in peers)
    && (forall k :: i <= k < |peers| ==> peers[k] !in adj)
    && forall k :: 0 <= k < i ==> Lookup(adj, peers[k]) == row(k)
  }

  ghost function CubeRows(peers: seq<PeerId>): nat -> seq<PeerId>
    requires peers != []
  {
    (i: nat) => NeighbourList(peers, i, Dimensions(peers))
  }

  ghost predicate SameElsewhere(adj: Adjacency, adj': Adjacency, p: PeerId) {
    forall q :: q != p ==> (q in adj' <==> q in adj) && Lookup(adj', q) == Lookup(adj, q)
  }

  lemma BuiltStep(adj: Adjacency, adj': Adjacency, peers: seq<PeerId>, row: nat -> seq<PeerId>, i: nat)
    requires Distinct(peers) && i < |peers| && BuiltUpTo(adj, peers, row, i)
    requires SameElsewhere(adj, adj', peers[i]) && Lookup(adj', peers[i]) == row(i)
    ensures BuiltUpTo(adj', peers, row, i + 1)
  {
  }

  class PalmTreeProtocol {
    const peers: seq<PeerId>       // the centre first, then the others
    var adjacency: Adjacency
    var confirmed: set<PeerId>

    constructor (centre: PeerId, peerList: seq<PeerId>)
      requires Distinct([centre] + peerList)
      ensures peers == [centre] + peerList && IsCube(adjacency, peers) && confirmed == {}
    {
      peers := [centre] + peerList;
      adjacency, confirmed := map[], {};
      new;
      CreateHypercube();
      // `self.adjacency_list[self.center_peer.id]` makes the entry of a lone centre
      adjacency := adjacency[centre := Lookup(adjacency, centre)];
      forall i | 0 <= i < |peers| ensures peers[i] in adjacency {
        if |peers| >= 2 { HasNeighbour(peers, i); }
      }
    }

    /** The inner loop of `create_hypercube`. */
    method AddNeighbours(i: nat, dimensions: nat)
      requires i < |peers| && peers[i] !in adjacency
      modifies this`adjacency
      ensures Lookup(adjacency, peers[i]) == NeighbourList(peers, i, dimensions)
      ensures SameElsewhere(old(adjacency), adjacency, peers[i])
    {
      for j := 0 to dimensions
        invariant Lookup(adjacency, peers[i]) == NeighbourList(peers, i, j)
        invariant SameElsewhere(old(adjacency), adjacency, peers[i])
      {
        var neighbour := Xor(i, Pow2(j));
        if neighbour < |peers| {
          adjacency := adjacency[peers[i] := Lookup(adjacency, peers[i]) + [peers[neighbour]]];
        }
      }
    }

    method CreateHypercube()
      requires peers != [] && Distinct(peers) && adjacency == map[]
      modifies this`adjacency
      ensures BuiltUpTo(adjacency, peers, CubeRows(peers), |peers|)
    {
      var dimensions := CeilLog2(|peers|);
      for i := 0 to |peers|
        invariant BuiltUpTo(adjacency, peers, CubeRows(peers), i)
      {
        ghost var before := adjacency;
        AddNeighbours(i, dimensions);
        BuiltStep(before, adjacency, peers, CubeRows(peers), i);
      }
    }

    /** `self.adjacency_list[peer_id].remove(discard_peer_id)` */
    method RemoveFrom(p: PeerId, gone: PeerId)
      requires p in adjacency && gone in adjacency[p]
      modifies this`adjacency
      ensures adjacency == old(adjacency)[p := RemoveFirst(old(adjacency[p]), gone)]
    {
      adjacency := adjacency[p := RemoveFirst(adjacency[p], gone)];
    }

    method RemoveFromNext(p: PeerId, gone: PeerId, ghost start: Adjacency, ghost t: nat)
      requires GoodGraph(start) && gone in start && t < |start[gone]| && p == start[gone][t]
      requires adjacency == Thinned(start, gone, t)
      modifies this`adjacency
      ensures adjacency == Thinned(start, gone, t + 1)
    {
      ThinnedStep(start, gone, t);
      RemoveFrom(p, gone);
    }

    /** The loop over the list of a peer that did not answer. */
    method RemoveFromNeighbours(gone: PeerId)
      requires GoodGraph(adjacency) && gone in adjacency
      modifies this`adjacency
      ensures adjacency == Thinned(old(adjacency), gone, |old(adjacency)[gone]|)
    {
      var nbrs := adjacency[gone];
      ThinnedNone(adjacency, gone);
      for t := 0 to |nbrs|
        invariant adjacency == Thinned(old(adjacency), gone, t)
      {
        RemoveFromNext(nbrs[t], gone, old(adjacency), t);
      }
    }

    /** It leaves every list it is in, then the table. */
    method Discard(gone: PeerId)
      requires GoodGraph(adjacency) && gone in adjacency
      modifies this`adjacency
      ensures adjacency == Induced(old(adjacency), {gone})
    {
      RemoveFromNeighbours(gone);
      ThinnedAll(old(adjacency), gone);
      adjacency := adjacency - {gone};
    }

    /** `inform_peers`: replies in completion order, with true for a confirmation. */
    method InformPeers(replies: seq<(PeerId, bool)>)
      requires GoodGraph(adjacency)
      requires forall t :: 0 <= t < |replies| ==> replies[t].0 in adjacency
      requires forall t, u :: 0 <= t < u < |replies| ==> replies[t].0 != replies[u].0
      modifies this
      ensures forall p :: p in adjacency <==> p in old(adjacency) && (p, false) !in replies
      ensures forall p: PeerId, q: PeerId :: Linked(adjacency, p, q)
                        <==> Linked(old(adjacency), p, q) && (p, false) !in replies && (q, false) !in replies
      ensures forall p: PeerId :: p in confirmed <==> p in old(confirmed) || (p, true) in replies
      ensures adjacency == Induced(old(adjacency), Silent(replies))
      ensures GoodGraph(adjacency)
    {
      InducedNothing(adjacency);
      assert Silent(replies[..0]) == {} && Confirming(replies[..0]) == {};
      for t := 0 to |replies|
        invariant adjacency == Induced(old(adjacency), Silent(replies[..t]))
        invariant confirmed == old(confirmed) + Confirming(replies[..t])
      {
        var (peer, what) := replies[t];
        RepliesStep(replies, t);
        if what {
          confirmed := confirmed + {peer};
        } else {
          InducedIsGood(old(adjacency), Silent(replies[..t]));
          InducedTwice(old(adjacency), Silent(replies[..t]), {peer});
          Discard(peer);
        }
      }
      assert replies[..|replies|] == replies;
      InducedIsGood(old(adjacency), Silent(replies));
      InducedLinks(old(adjacency), Silent(replies));
      WhoReplied(replies);
    }
  }

  function Silent(replies: seq<(PeerId, bool)>): set<PeerId> { set r | r in replies && !r.1 :: r.0 }

  function Confirming(replies: seq<(PeerId, bool)>): set<PeerId> { set r | r in replies && r.1 :: r.0 }

  lemma WhoReplied(replies: seq<(PeerId, bool)>)
    ensures forall p: PeerId :: p in Silent(replies) <==> (p, false) in replies
    ensures forall p: PeerId :: p in Confirming(replies) <==> (p, true) in replies
  {
    assert forall r: (PeerId, bool) :: r in replies && !r.1 ==> r == (r.0, false);
    assert forall r: (PeerId, bool) :: r in replies && r.1 ==> r == (r.0, true);
  }

  lemma RepliesStep(replies: seq<(PeerId, bool)>, t: nat)
    requires t < |replies|
    requires forall i, j :: 0 <= i < j < |replies| ==> replies[i].0 != replies[j].0
    ensures replies[t].0 !in Silent(replies[..t])
    ensures Silent(replies[..t + 1]) == if replies[t].1 then Silent(replies[..t]) else Silent(replies[..t]) + {replies[t].0}
    ensures Confirming(replies[..t + 1])
         == if replies[t].1 then Confirming(replies[..t]) + {replies[t].0} else Confirming(replies[..t])
  {
    assert replies[..t + 1] == replies[..t] + [replies[t]];
    assert replies[t] in replies[..t + 1];
    forall r | r in replies[..t + 1] ensures r in replies[..t] || r == replies[t] {}
    forall r | r in replies[..t] ensures r in replies[..t + 1] {}
  }

  /** After pruning, the address list of a survivor loses nothing to the filter on
      confirmed peers in `update_states`: every neighbour left has confirmed. */
  lemma NeighboursConfirmed(adj: Adjacency, peers: seq<PeerId>, replies: seq<(PeerId, bool)>, p: PeerId)
    requires IsCube(adj, peers) && p in Induced(adj, Silent(replies))
    requires forall q :: q in peers && q != peers[0] ==> exists r :: r in replies && r.0 == q
    ensures var confirmed := Confirming(replies) + {peers[0]};
            Without(Induced(adj, Silent(replies))[p], Members(peers) - confirmed) == Induced(adj, Silent(replies))[p]
  {
    var gone, left := Silent(replies), Induced(adj, Silent(replies))[p];
    WithoutMembers(adj[p], gone);
    forall q | q in left ensures q !in Members(peers) - (Confirming(replies) + {peers[0]}) {
      if q in peers && q != peers[0] {
        var r :| r in replies && r.0 == q;
        assert r.1;
      }
    }
    WithoutNothing(left, Members(peers) - (Confirming(replies) + {peers[0]}));
  }
}
