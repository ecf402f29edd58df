/** The incomplete hypercube over n peers that `create_hypercube` builds: it is a
    good graph, and its distances are the numbers of differing index bits
    (src/transfers/otm/palm_tree.py:641-656). */
module Hypercube {
  import opened Peers
  import opened Overlay
  import opened Bits

  /** Neighbours of peer `i` along the first `d` dimensions, in order. */
  function NeighbourList(peers: seq<PeerId>, i: nat, d: nat): seq<PeerId> {
    if d == 0 then []
    else NeighbourList(peers, i, d - 1)
         + (if Flip(i, d - 1) < |peers| then [peers[Flip(i, d - 1)]] else [])
  }

  function Dimensions(peers: seq<PeerId>): nat
    requires peers != []
  {
    CeilLog2(|peers|)
  }

  ghost predicate IsCube(adj: Adjacency, peers: seq<PeerId>) {
    && peers != [] && Distinct(peers) && adj.Keys == Members(peers)
    && forall i {:trigger adj[peers[i]]} :: 0 <= i < |peers| ==> adj[peers[i]] == NeighbourList(peers, i, Dimensions(peers))
  }

  lemma {:induction false} NeighbourListMembers(peers: seq<PeerId>, i: nat, d: nat, q: PeerId)
    ensures q in NeighbourList(peers, i, d) <==> exists j :: 0 <= j < d && Flip(i, j) < |peers| && q == peers[Flip(i, j)]
  {
    if d > 0 {
      NeighbourListMembers(peers, i, d - 1, q);
    }
  }

  lemma {:induction false} NeighbourListShape(peers: seq<PeerId>, i: nat, d: nat)
    requires Distinct(peers)
    ensures Distinct(NeighbourList(peers, i, d)) && |NeighbourList(peers, i, d)| <= d
  {
    if d > 0 && Flip(i, d - 1) < |peers| {
      NeighbourListShape(peers, i, d - 1);
      var q := peers[Flip(i, d - 1)];
      if q in NeighbourList(peers, i, d - 1) {
        NeighbourListMembers(peers, i, d - 1, q);
        var j :| 0 <= j < d - 1 && Flip(i, j) < |peers| && q == peers[Flip(i, j)];
        FlipInjective(i, j, d - 1);
      }
    } else if d > 0 {
      NeighbourListShape(peers, i, d - 1);
    }
  }

  /** Peers `i` and `k` are neighbours when one flip leads from one to the other. */
  ghost predicate OneFlip(peers: seq<PeerId>, i: nat, k: nat)
    requires peers != []
  {
    exists j :: 0 <= j < Dimensions(peers) && Flip(i, j) == k
  }

  lemma LinkedIsOneFlip(adj: Adjacency, peers: seq<PeerId>, i: nat, k: nat)
    requires IsCube(adj, peers) && i < |peers| && k < |peers|
    ensures Linked(adj, peers[i], peers[k]) <==> OneFlip(peers, i, k)
  {
    NeighbourListMembers(peers, i, Dimensions(peers), peers[k]);
    if OneFlip(peers, i, k) {
      var j :| 0 <= j < Dimensions(peers) && Flip(i, j) == k;
      assert Flip(i, j) < |peers| && peers[k] == peers[Flip(i, j)];
    }
  }

  lemma NeighbourIsPeer(adj: Adjacency, peers: seq<PeerId>, i: nat, q: PeerId) returns (k: nat)
    requires IsCube(adj, peers) && i < |peers| && Linked(adj, peers[i], q)
    ensures k < |peers| && q == peers[k] && OneFlip(peers, i, k)
  {
    NeighbourListMembers(peers, i, Dimensions(peers), q);
    var j :| 0 <= j < Dimensions(peers) && Flip(i, j) < |peers| && q == peers[Flip(i, j)];
    k := Flip(i, j);
  }

  lemma CubeIsGood(adj: Adjacency, peers: seq<PeerId>)
    requires IsCube(adj, peers)
    ensures GoodGraph(adj)
    ensures forall p :: p in adj ==> |adj[p]| <= Dimensions(peers)
  {
    forall p | p in adj ensures Distinct(adj[p]) && |adj[p]| <= Dimensions(peers) {
      var i :| 0 <= i < |peers| && peers[i] == p;
      NeighbourListShape(peers, i, Dimensions(peers));
    }
    forall a, b | Linked(adj, a, b) ensures a != b && Linked(adj, b, a) {
      var i :| 0 <= i < |peers| && peers[i] == a;
      var k := NeighbourIsPeer(adj, peers, i, b);
      var j :| 0 <= j < Dimensions(peers) && Flip(i, j) == k;
      FlipTwice(i, j);
      assert OneFlip(peers, k, i);
      LinkedIsOneFlip(adj, peers, k, i);
    }
  }

  /** The next peer on a shortest way, still inside the incomplete cube. */
  lemma NextHop(adj: Adjacency, peers: seq<PeerId>, i: nat, k: nat) returns (m: nat)
    requires IsCube(adj, peers) && i < |peers| && k < |peers| && i != k
    ensures m < |peers| && Linked(adj, peers[i], peers[m]) && Differing(m, k) == Differing(i, k) - 1
  {
    var j := NextBit(i, k);
    NextBitApproaches(i, k);
    Pow2Mono(j, Dimensions(peers));
    m := Flip(i, j);
    assert OneFlip(peers, i, m);
    LinkedIsOneFlip(adj, peers, i, m);
  }

  lemma {:induction false} Route(adj: Adjacency, peers: seq<PeerId>, i: nat, k: nat) returns (path: seq<PeerId>)
    requires IsCube(adj, peers) && i < |peers| && k < |peers|
    ensures WalkBetween(adj, path, peers[i], peers[k]) && |path| == Differing(i, k) + 1
    decreases Differing(i, k)
  {
    DifferingZero(i, k);
    path := [peers[i]];
    if i != k {
      var m := NextHop(adj, peers, i, k);
      var rest := Route(adj, peers, m, k);
      path := [peers[i]] + rest;
    }
  }

  /** No walk is shorter than the number of differing bits. */
  lemma {:induction false} NoShortcut(adj: Adjacency, peers: seq<PeerId>, i: nat, k: nat, path: seq<PeerId>)
    requires IsCube(adj, peers) && i < |peers| && k < |peers| && WalkBetween(adj, path, peers[i], peers[k])
    ensures Differing(i, k) + 1 <= |path|
    decreases |path|
  {
    if |path| == 1 {
      DifferingZero(i, k);
    } else {
      assert Linked(adj, path[0], path[1]);
      var m := NeighbourIsPeer(adj, peers, i, path[1]);
      var j :| 0 <= j < Dimensions(peers) && Flip(i, j) == m;
      FlipMovesByOne(i, j, k);
      var rest := path[1..];
      forall t | 0 <= t < |rest| - 1 ensures Linked(adj, rest[t], rest[t + 1]) {
        assert Linked(adj, path[t + 1], path[t + 2]);
      }
      NoShortcut(adj, peers, m, k, rest);
    }
  }

  /** The built graph is isometric: the distance of two peers is the number of bits
      in which their indices differ, hence at most the number of dimensions. */
  lemma CubeIsIsometric(adj: Adjacency, peers: seq<PeerId>, i: nat, k: nat)
    requires IsCube(adj, peers) && i < |peers| && k < |peers|
    ensures exists path :: WalkBetween(adj, path, peers[i], peers[k]) && |path| - 1 == Differing(i, k)
    ensures forall path :: WalkBetween(adj, path, peers[i], peers[k]) ==> |path| - 1 >= Differing(i, k)
    ensures Differing(i, k) <= CeilLog2(|peers|)
  {
    var path := Route(adj, peers, i, k);
    forall p | WalkBetween(adj, p, peers[i], peers[k]) ensures |p| - 1 >= Differing(i, k) {
      NoShortcut(adj, peers, i, k, p);
    }
    DifferingBound(i, k, CeilLog2(|peers|));
  }

  lemma CubeIsConnected(adj: Adjacency, peers: seq<PeerId>)
    requires IsCube(adj, peers)
    ensures forall p :: p in adj ==> Reaches(adj, peers[0], p)
  {
    forall p | p in adj ensures Reaches(adj, peers[0], p) {
      var i :| 0 <= i < |peers| && peers[i] == p;
      var path := Route(adj, peers, 0, i);
    }
  }

  /** Every peer of a cube of two or more has a neighbour. */
  lemma HasNeighbour(peers: seq<PeerId>, i: nat)
    requires i < |peers| && |peers| >= 2
    ensures NeighbourList(peers, i, Dimensions(peers)) != []
  {
    var k := if i == 0 then 1 else 0;
    var j := NextBit(i, k);
    NextBitApproaches(i, k);
    Pow2Mono(j, Dimensions(peers));
    NeighbourListMembers(peers, i, Dimensions(peers), peers[Flip(i, j)]);
  }

  /** Fewer dimensions give the front of the list. */
  lemma {:induction false} NeighbourListPrefix(peers: seq<PeerId>, i: nat, d: nat, dimensions: nat)
    requires d <= dimensions
    ensures NeighbourList(peers, i, d) <= NeighbourList(peers, i, dimensions)
    decreases dimensions
  {
    if d < dimensions { NeighbourListPrefix(peers, i, d, dimensions - 1); }
  }

  lemma {:induction false} NeighbourListFull(peers: seq<PeerId>, i: nat, d: nat)
    requires forall j :: 0 <= j < d ==> Flip(i, j) < |peers|
    ensures |NeighbourList(peers, i, d)| == d
    ensures forall j :: 0 <= j < d ==> NeighbourList(peers, i, d)[j] == peers[Flip(i, j)]
  {
    if d > 0 { NeighbourListFull(peers, i, d - 1); }
  }

  /** The neighbour along a low dimension stands at the front of the row. */
  lemma LowNeighbourInFront(peers: seq<PeerId>, i: nat, j: nat, dimensions: nat, m: nat)
    requires Distinct(peers) && j < dimensions && j < m && Flip(i, j) < |peers|
    ensures var row := NeighbourList(peers, i, dimensions);
      peers[Flip(i, j)] in row[..if |row| < m then |row| else m]
  {
    var front := NeighbourList(peers, i, j + 1);
    NeighbourListPrefix(peers, i, j + 1, dimensions);
    NeighbourListShape(peers, i, j + 1);
    assert front[|front| - 1] == peers[Flip(i, j)];
  }
}
