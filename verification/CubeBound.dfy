/** How far asking reaches on the incomplete cube: it reaches every peer exactly when there
    are at most 2 ** (fanout + 1) (src/transfers/otm/palm_tree.py:305-340, 641-656). */
module CubeBound {
  import opened Peers
  import opened Overlay
  import opened Bits
  import opened Hypercube
  import opened PalmTreeSpanning
  import opened PalmTreePolite

  /** The index that lacks the lowest bit of k asks along a low dimension, or is 0. */
  lemma HopIndex(n: nat, fanout: nat, k: nat) returns (i: nat, j: nat)
    requires 0 < k < n <= Pow2(fanout + 1)
    ensures i < k && Flip(i, j) == k && j < CeilLog2(n) && j < (if i == 0 then fanout + 1 else fanout)
  {
    j := LowBit(k);
    i := Flip(k, j);
    LowBitShape(k, CeilLog2(n) - 1);
    LowBitShape(k, fanout);
    FlipTwice(k, j);
  }

  lemma AskedHop(cube: Adjacency, peers: seq<PeerId>, fanout: nat, k: nat) returns (i: nat)
    requires IsCube(cube, peers) && |peers| <= Pow2(fanout + 1) && 0 < k < |peers|
    ensures i < k && Linked(Asked(cube, peers[0], fanout), peers[i], peers[k])
  {
    var i', j := HopIndex(|peers|, fanout, k);
    i := i';
    LowNeighbourInFront(peers, i, j, Dimensions(peers), if i == 0 then fanout + 1 else fanout);
    assert peers[i] in Members(peers) && cube[peers[i]] == NeighbourList(peers, i, Dimensions(peers));
    assert peers[i] == peers[0] <==> i == 0;
  }

  lemma {:induction false} AskedReaches(cube: Adjacency, peers: seq<PeerId>, fanout: nat, k: nat)
    requires IsCube(cube, peers) && |peers| <= Pow2(fanout + 1) && k < |peers|
    ensures Reaches(Asked(cube, peers[0], fanout), peers[0], peers[k])
  {
    var asked := Asked(cube, peers[0], fanout);
    if k == 0 {
      assert peers[0] in Members(peers);
      assert WalkBetween(asked, [peers[0]], peers[0], peers[0]);
    } else {
      var i := AskedHop(cube, peers, fanout, k);
      AskedReaches(cube, peers, fanout, i);
      var path :| WalkBetween(asked, path, peers[0], peers[i]);
      OneFurther(asked, path, peers[0], peers[i], peers[k]);
    }
  }

  lemma OneFurther(adj: Adjacency, path: seq<PeerId>, a: PeerId, b: PeerId, c: PeerId)
    requires WalkBetween(adj, path, a, b) && Linked(adj, b, c)
    ensures Reaches(adj, a, c)
  {
    var longer := path + [c];
    forall t | 0 <= t < |longer| - 1 ensures Linked(adj, longer[t], longer[t + 1]) {
      if t < |path| - 1 { assert Linked(adj, path[t], path[t + 1]); }
    }
    assert WalkBetween(adj, longer, a, c);
  }

  lemma AskedReachesAll(cube: Adjacency, peers: seq<PeerId>, fanout: nat)
    requires IsCube(cube, peers) && |peers| <= Pow2(fanout + 1)
    ensures forall p :: p in cube ==> Reaches(Asked(cube, peers[0], fanout), peers[0], p)
  {
    forall p | p in cube ensures Reaches(Asked(cube, peers[0], fanout), peers[0], p) {
      var k :| 0 <= k < |peers| && peers[k] == p;
      AskedReaches(cube, peers, fanout, k);
    }
  }

  /** The peers whose index has at most `fanout + 1` bits. */
  function Inner(peers: seq<PeerId>, fanout: nat): set<PeerId>
    requires |peers| >= Pow2(fanout + 1)
  {
    Members(peers[..Pow2(fanout + 1)])
  }

  lemma InnerRow(peers: seq<PeerId>, fanout: nat, i: nat)
    requires Pow2(fanout + 1) < |peers| && i < Pow2(fanout + 1)
    ensures var row := NeighbourList(peers, i, Dimensions(peers));
      forall v :: v in FirstNeighbours(row, fanout) ==> v in Inner(peers, fanout)
  {
    var d := Dimensions(peers);
    Pow2Mono(fanout + 1, d);
    forall j | 0 <= j < fanout + 1 ensures Flip(i, j) < Pow2(fanout + 1) { FlipBelow(i, j, fanout + 1); }
    NeighbourListFull(peers, i, fanout + 1);
    NeighbourListPrefix(peers, i, fanout + 1, d);
    var row, front := NeighbourList(peers, i, d), NeighbourList(peers, i, fanout + 1);
    assert FirstNeighbours(row, fanout) == front;
    forall v | v in front ensures v in Inner(peers, fanout) {
      var j :| 0 <= j < |front| && front[j] == v;
      assert peers[..Pow2(fanout + 1)][Flip(i, j)] == v;
    }
  }

  lemma InnerIsClosed(cube: Adjacency, peers: seq<PeerId>, fanout: nat)
    requires IsCube(cube, peers) && Pow2(fanout + 1) < |peers|
    ensures Closed(cube, fanout, Inner(peers, fanout)) && peers[0] in Inner(peers, fanout)
    ensures peers[Pow2(fanout + 1)] !in Inner(peers, fanout)
  {
    var m, inner := Pow2(fanout + 1), Inner(peers, fanout);
    assert peers[..m][0] in inner;
    forall u, v | u in inner && u in cube && v in FirstNeighbours(cube[u], fanout) ensures v in inner {
      var i :| 0 <= i < m && peers[..m][i] == u;
      InnerRow(peers, fanout, i);
      assert cube[peers[i]] == NeighbourList(peers, i, Dimensions(peers));
    }
  }

  /** With one peer more than 2 ** (fanout + 1), the last one stands behind the window of
      the centre and knows nobody else. */
  lemma LastBehindWindow(cube: Adjacency, peers: seq<PeerId>, fanout: nat, last: PeerId)
    requires IsCube(cube, peers) && |peers| == Pow2(fanout + 1) + 1 && last == peers[|peers| - 1]
    ensures peers[0] in cube && |cube[peers[0]]| == fanout + 2 && cube[peers[0]][fanout + 1] == last
    ensures last in cube && cube[last] == [peers[0]]
  {
    LastRows(peers, fanout);
    var n, d := |peers|, Dimensions(peers);
    RowAt(cube, peers, 0, d);
    RowAt(cube, peers, n - 1, d);
  }

  lemma RowAt(cube: Adjacency, peers: seq<PeerId>, i: nat, d: nat)
    requires IsCube(cube, peers) && i < |peers| && d == Dimensions(peers)
    ensures peers[i] in cube && cube[peers[i]] == NeighbourList(peers, i, d)
  {
    assert peers[i] in Members(peers);
  }

  lemma LastRows(peers: seq<PeerId>, fanout: nat)
    requires |peers| == Pow2(fanout + 1) + 1
    ensures Dimensions(peers) == fanout + 2
    ensures var row := NeighbourList(peers, 0, fanout + 2); |row| == fanout + 2 && row[fanout + 1] == peers[|peers| - 1]
    ensures NeighbourList(peers, |peers| - 1, fanout + 2) == [peers[0]]
  {
    OneMoreDimension(fanout + 1, |peers|);
    CentreRow(peers, fanout + 2);
    WholeLastRow(peers, fanout + 1);
  }

  lemma WholeLastRow(peers: seq<PeerId>, m: nat)
    requires |peers| == Pow2(m) + 1
    ensures NeighbourList(peers, Pow2(m), m + 1) == [peers[0]]
  {
    LastRow(peers, m, m);
    FlipOfZero(m);
  }

  lemma OneMoreDimension(d: nat, n: nat)
    requires n == Pow2(d) + 1
    ensures CeilLog2(n) == d + 1
  {
    CeilLog2Bound(n, d + 1);
    Pow2Mono(d, CeilLog2(n));
  }

  lemma CentreRow(peers: seq<PeerId>, d: nat)
    requires d >= 1 && Pow2(d - 1) < |peers|
    ensures |NeighbourList(peers, 0, d)| == d && NeighbourList(peers, 0, d)[d - 1] == peers[Pow2(d - 1)]
  {
    forall j | 0 <= j < d ensures Flip(0, j) < |peers| {
      FlipOfZero(j);
      Pow2Grows(j, d - 1);
    }
    NeighbourListFull(peers, 0, d);
    FlipOfZero(d - 1);
  }

  lemma {:induction false} Pow2Grows(a: nat, b: nat)
    requires a <= b
    ensures Pow2(a) <= Pow2(b)
  {
    if a < b { Pow2Grows(a, b - 1); }
  }

  lemma {:induction false} LastRow(peers: seq<PeerId>, m: nat, d: nat)
    requires d <= m && |peers| == Pow2(m) + 1
    ensures NeighbourList(peers, Pow2(m), d) == []
  {
    if d > 0 {
      LastRow(peers, m, d - 1);
      FlipAbove(m, d - 1);
    }
  }
}
