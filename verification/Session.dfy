/** Overlay, relays and data flow together: what a whole session comes to
    (src/transfers/otm/palm_tree.py:598-762, src/transfers/otm/sender.py:42-72). */
module Session {
  import opened Peers
  import opened RelayModel
  import opened Overlay
  import opened Bits
  import opened Hypercube
  import opened Prune
  import opened PalmTreeNetwork
  import opened PalmTreeForest
  import opened PalmTreeSpanning
  import opened PalmTreeDegree
  import opened PalmTreePolite
  import opened CubeBound
  import opened Octets
  import StreamFlow
  import OtmWriter

  /** Every relay has been told its neighbours, and nothing else has happened. */
  ghost function SessionStart(adj: Adjacency, fanout: nat): State {
    State(map u | u in adj :: OnUpdateState(FreshRelay(u, fanout), adj[u]), {}, {}, multiset{})
  }

  /** A regular run of the spanning formation, from its start to where it stops. */
  ghost predicate Formation(adj: Adjacency, centre: PeerId, fanout: nat, states: seq<State>, events: seq<Event>) {
    && RegularRun(centre, states, events) && states[0] == SessionStart(adj, fanout)
    && Quiescent(centre, states[|events|])
  }

  lemma StartIsReady(adj: Adjacency, centre: PeerId, fanout: nat)
    requires GoodGraph(adj) && centre in adj
    ensures Ready(SessionStart(adj, fanout), centre, adj, fanout)
  {
  }

  /** A session over the cube with the silent peers pruned can start. With at most
      2 ** fanout peers no survivor has more neighbours than the fanout. */
  lemma PrunedCubeIsReady(cube: Adjacency, peers: seq<PeerId>, gone: set<PeerId>, fanout: nat)
    requires IsCube(cube, peers) && peers[0] !in gone
    ensures Ready(SessionStart(Induced(cube, gone), fanout), peers[0], Induced(cube, gone), fanout)
    ensures |peers| <= Pow2(fanout) ==> forall p :: p in Induced(cube, gone) ==> |Induced(cube, gone)[p]| <= fanout
  {
    CubeIsGood(cube, peers);
    InducedIsGood(cube, gone);
    assert peers[0] in Members(peers);
    StartIsReady(Induced(cube, gone), peers[0], fanout);
    if |peers| <= Pow2(fanout) { CeilLog2Bound(|peers|, fanout); }
  }

  lemma CubeIsReady(cube: Adjacency, peers: seq<PeerId>, fanout: nat)
    requires IsCube(cube, peers)
    ensures Ready(SessionStart(cube, fanout), peers[0], cube, fanout)
  {
    InducedNothing(cube);
    PrunedCubeIsReady(cube, peers, {}, fanout);
  }

  ghost predicate SpansAll(s: State, peers: seq<PeerId>)
    requires peers != []
  {
    forall p :: p in peers ==> HangsUnder(s, peers[0], p)
  }

  /** All peers answered: with at most 2 ** (fanout + 1) of them every regular formation
      ends as one tree with all n peers in it and n - 1 parent edges. */
  lemma SessionSpansAllPeers(cube: Adjacency, peers: seq<PeerId>, fanout: nat, states: seq<State>, events: seq<Event>)
    requires IsCube(cube, peers) && |peers| <= Pow2(fanout + 1)
    requires Formation(cube, peers[0], fanout, states, events)
    ensures SpansAll(states[|events|], peers) && |WithParent(states[|events|])| == |peers| - 1
  {
    CubeIsReady(cube, peers, fanout);
    AskedReachesAll(cube, peers, fanout);
    FormationReaches(peers[0], cube, fanout, states, events);
    DistinctCard(peers);
    assert |cube| == |cube.Keys|;
    forall p | p in peers ensures HangsUnder(states[|events|], peers[0], p) { assert p in cube; }
  }

  /** With more peers some regular formation leaves out the peer of index 2 ** (fanout + 1). */
  lemma LargeSessionCanFail(cube: Adjacency, peers: seq<PeerId>, fanout: nat)
    returns (states: seq<State>, events: seq<Event>)
    requires IsCube(cube, peers) && |peers| > Pow2(fanout + 1)
    ensures Formation(cube, peers[0], fanout, states, events)
    ensures !Done(states[|events|], peers[Pow2(fanout + 1)]) && !SpansAll(states[|events|], peers)
  {
    CubeIsReady(cube, peers, fanout);
    InnerIsClosed(cube, peers, fanout);
    states, events := PoliteRunStaysInside(peers[0], cube, fanout, Inner(peers, fanout), SessionStart(cube, fanout));
    NotDoneBreaksSpan(states[|events|], peers, Pow2(fanout + 1));
  }

  lemma NotDoneBreaksSpan(s: State, peers: seq<PeerId>, i: nat)
    requires 0 < i < |peers| && Distinct(peers) && !Done(s, peers[i])
    ensures !SpansAll(s, peers)
  {
    var p := peers[i];
    assert p in peers && p != peers[0];
    forall path | LeadsUp(s, path) && path[0] == p ensures path[|path| - 1] == p {
      assert |path| > 1 ==> IsChild(s, path[0], path[1]);
    }
    assert !HangsUnder(s, peers[0], p);
  }

  /** Every regular formation over the cube spans all peers if and only if there are at
      most 2 ** (fanout + 1) of them. */
  lemma SessionSpansIff(cube: Adjacency, peers: seq<PeerId>, fanout: nat)
    requires IsCube(cube, peers)
    ensures (forall states, events :: Formation(cube, peers[0], fanout, states, events) ==> SpansAll(states[|events|], peers))
       <==> |peers| <= Pow2(fanout + 1)
  {
    if |peers| <= Pow2(fanout + 1) {
      forall states, events | Formation(cube, peers[0], fanout, states, events) ensures SpansAll(states[|events|], peers) {
        SessionSpansAllPeers(cube, peers, fanout, states, events);
      }
    } else {
      var states, events := LargeSessionCanFail(cube, peers, fanout);
    }
  }

  /** With just one peer more the last one is left out by every regular run, in every state
      of it: 65 peers with the fanout 5 of the program. */
  lemma LastPeerIsLeftOut(cube: Adjacency, peers: seq<PeerId>, fanout: nat, states: seq<State>, events: seq<Event>, k: nat)
    requires IsCube(cube, peers) && |peers| == Pow2(fanout + 1) + 1
    requires RegularRun(peers[0], states, events) && states[0] == SessionStart(cube, fanout) && k < |states|
    ensures !Done(states[k], peers[|peers| - 1])
  {
    CubeIsReady(cube, peers, fanout);
    LastBehindWindow(cube, peers, fanout, peers[|peers| - 1]);
    CrowdedCentreLeavesOut(peers[0], cube, fanout, states, events, k, fanout + 1);
  }

  /** Some peers stayed silent: the tree holds every survivor that can be reached by asking
      among survivors, for peer lists of any length. When no survivor has more surviving
      neighbours than it asks, these are all that survivors connect to the centre. */
  lemma SessionSpansSurvivors(cube: Adjacency, peers: seq<PeerId>, gone: set<PeerId>, fanout: nat,
                              states: seq<State>, events: seq<Event>)
    requires IsCube(cube, peers) && peers[0] !in gone
    requires Formation(Induced(cube, gone), peers[0], fanout, states, events)
    ensures var s, adj := states[|events|], Induced(cube, gone);
      && (forall p :: Reaches(Asked(adj, peers[0], fanout), peers[0], p) ==> HangsUnder(s, peers[0], p))
      && (Bounded(adj, peers[0], fanout) ==> forall p :: Reaches(adj, peers[0], p) ==> HangsUnder(s, peers[0], p))
  {
    PrunedCubeIsReady(cube, peers, gone, fanout);
    FormationReaches(peers[0], Induced(cube, gone), fanout, states, events);
    if Bounded(Induced(cube, gone), peers[0], fanout) { AllAsked(Induced(cube, gone), peers[0], fanout); }
  }

  // ---- the data phase ---------------------------------------------------------------

  /** The tree that the parent futures of a finished formation describe. */
  ghost function FormedTree(s: State, centre: PeerId): StreamFlow.Tree {
    StreamFlow.Tree(centre, map u | u in s.relays && s.relays[u].parent.Parent? :: s.relays[u].parent.peer)
  }

  /** A tree over `nodes` with a chain of parents from everyone to the centre, where
      `_get_forward_links` gives the children. */
  ghost predicate DataTree(s: State, centre: PeerId, nodes: set<PeerId>) {
    var t := FormedTree(s, centre);
    && t.Valid() && t.Nodes() == nodes && nodes <= s.relays.Keys
    && (forall p :: p in nodes ==> exists chain :: StreamFlow.ChainToRoot(t, chain) && chain[0] == p)
    && (forall p :: p in nodes ==> ForwardLinks(s.relays[p], s.relays[p].parent) == t.Children(p))
  }

  lemma SpannedIsTree(s: State, centre: PeerId, adj: Adjacency)
    requires SpanInv(s, centre, adj) && Quiescent(centre, s) && centre in adj
    requires WithParent(s) == adj.Keys - {centre} && forall u :: u in adj ==> HangsUnder(s, centre, u)
    ensures DataTree(s, centre, adj.Keys)
  {
    forall a, b | IsChild(s, a, b) ensures b in adj {
      ParentIsNeighbour(s, centre, adj, a, b);
      assert Linked(adj, b, a);
    }
    FormedTreeIsValid(s, centre, adj);
    forall p | p in adj ensures exists chain :: StreamFlow.ChainToRoot(FormedTree(s, centre), chain) && chain[0] == p {
      HangsOnAChain(s, centre, p);
    }
    forall p | p in adj
      ensures p in s.relays && ForwardLinks(s.relays[p], s.relays[p].parent) == FormedTree(s, centre).Children(p)
    {
      ForwardsInTree(s, centre, adj, p);
    }
  }

  /** A regular formation over the cube ends in a data tree over all peers. */
  lemma FormationIsATree(cube: Adjacency, peers: seq<PeerId>, fanout: nat, states: seq<State>, events: seq<Event>)
    requires IsCube(cube, peers) && |peers| <= Pow2(fanout + 1)
    requires Formation(cube, peers[0], fanout, states, events)
    ensures DataTree(states[|events|], peers[0], Members(peers))
  {
    SessionSpansAllPeers(cube, peers, fanout, states, events);
    CubeIsReady(cube, peers, fanout);
    AskedReachesAll(cube, peers, fanout);
    var rank := FormationInv(peers[0], cube, fanout, states, events);
    CountEdges(states[|events|], peers[0], cube, fanout);
    SpannedIsTree(states[|events|], peers[0], cube);
  }

  lemma FormedTreeIsValid(s: State, centre: PeerId, adj: Adjacency)
    requires WithParent(s) == adj.Keys - {centre} && centre in adj
    requires forall a, b :: IsChild(s, a, b) ==> b in adj
    ensures FormedTree(s, centre).Valid() && FormedTree(s, centre).Nodes() == adj.Keys
  {
    var t := FormedTree(s, centre);
    assert t.parent.Keys == WithParent(s);
    forall v | v in t.parent ensures t.parent[v] == centre || t.parent[v] in t.parent {
      assert IsChild(s, v, t.parent[v]);
    }
  }

  lemma ForwardsInTree(s: State, centre: PeerId, adj: Adjacency, p: PeerId)
    requires SpanInv(s, centre, adj) && Quiescent(centre, s) && p in adj
    ensures p in s.relays && ForwardLinks(s.relays[p], s.relays[p].parent) == FormedTree(s, centre).Children(p)
  {
    ForwardsToAllChildren(s, centre, adj, p);
    assert ChildrenOf(s, p) == FormedTree(s, centre).Children(p);
  }

  lemma HangsOnAChain(s: State, centre: PeerId, p: PeerId)
    requires HangsUnder(s, centre, p)
    ensures exists chain :: StreamFlow.ChainToRoot(FormedTree(s, centre), chain) && chain[0] == p
  {
    var path :| LeadsUp(s, path) && path[0] == p && path[|path| - 1] == centre;
    PathIsChain(s, centre, path);
  }

  lemma PathIsChain(s: State, centre: PeerId, path: seq<PeerId>)
    requires LeadsUp(s, path) && path[|path| - 1] == centre
    ensures StreamFlow.ChainToRoot(FormedTree(s, centre), path)
  {
    forall i | 0 <= i < |path| - 1
      ensures path[i] in FormedTree(s, centre).parent && FormedTree(s, centre).parent[path[i]] == path[i + 1]
    {
      assert IsChild(s, path[i], path[i + 1]);
    }
  }

  lemma ChainOf(s: State, centre: PeerId, nodes: set<PeerId>, p: PeerId) returns (chain: seq<PeerId>)
    requires DataTree(s, centre, nodes) && p in nodes
    ensures StreamFlow.ChainToRoot(FormedTree(s, centre), chain) && chain[0] == p
  {
    chain :| StreamFlow.ChainToRoot(FormedTree(s, centre), chain) && chain[0] == p;
  }

  /** From the peer list to the bytes: after any regular formation over at most
      2 ** (fanout + 1) peers, and in any run of the data phase on the tree it leaves, what
      any peer has received is a prefix of what the initiator was given to send. */
  lemma SessionDelivers(cube: Adjacency, peers: seq<PeerId>, fanout: nat, states: seq<State>, events: seq<Event>,
                        flows: seq<StreamFlow.Flow>, steps: seq<StreamFlow.Step>, k: nat, p: PeerId)
    requires IsCube(cube, peers) && |peers| <= Pow2(fanout + 1)
    requires Formation(cube, peers[0], fanout, states, events)
    requires StreamFlow.Run(FormedTree(states[|events|], peers[0]), flows, steps) && k < |flows| && p in peers
    ensures p in flows[k].nodes && flows[k].nodes[p].received <= StreamFlow.Submitted(steps[..k])
  {
    FormationIsATree(cube, peers, fanout, states, events);
    var chain := ChainOf(states[|events|], peers[0], Members(peers), p);
    StreamFlow.ReceivedIsPrefixOfSent(FormedTree(states[|events|], peers[0]), flows, steps, k, chain);
  }

  ghost predicate NoTimeOut(steps: seq<StreamFlow.Step>) {
    forall i :: 0 <= i < |steps| ==> !steps[i].TimeOut?
  }

  /** With no send timed out and nothing on its way any more, every peer has received all
      that the initiator was given to send. */
  lemma SessionDeliversAll(cube: Adjacency, peers: seq<PeerId>, fanout: nat, states: seq<State>, events: seq<Event>,
                           flows: seq<StreamFlow.Flow>, steps: seq<StreamFlow.Step>, k: nat, p: PeerId)
    requires IsCube(cube, peers) && |peers| <= Pow2(fanout + 1)
    requires Formation(cube, peers[0], fanout, states, events)
    requires StreamFlow.Run(FormedTree(states[|events|], peers[0]), flows, steps) && k < |flows| && p in peers
    requires StreamFlow.AtRest(FormedTree(states[|events|], peers[0]), flows[k]) && NoTimeOut(steps[..k])
    ensures p in flows[k].nodes && flows[k].nodes[p].received == StreamFlow.Submitted(steps[..k])
  {
    FormationIsATree(cube, peers, fanout, states, events);
    var chain := ChainOf(states[|events|], peers[0], Members(peers), p);
    StreamFlow.AllArrives(FormedTree(states[|events|], peers[0]), flows, steps, k, chain);
  }

  /** And there it can always get: a run of the data phase without time-outs can go on until
      every peer has all that the initiator was given so far. */
  lemma SessionCanDeliver(cube: Adjacency, peers: seq<PeerId>, fanout: nat, states: seq<State>, events: seq<Event>,
                          flows: seq<StreamFlow.Flow>, steps: seq<StreamFlow.Step>)
    returns (flows': seq<StreamFlow.Flow>, steps': seq<StreamFlow.Step>)
    requires IsCube(cube, peers) && |peers| <= Pow2(fanout + 1)
    requires Formation(cube, peers[0], fanout, states, events)
    requires StreamFlow.Run(FormedTree(states[|events|], peers[0]), flows, steps) && NoTimeOut(steps)
    ensures StreamFlow.Run(FormedTree(states[|events|], peers[0]), flows', steps') && steps <= steps' && NoTimeOut(steps')
    ensures forall p :: p in peers ==>
      p in flows'[|steps'|].nodes && flows'[|steps'|].nodes[p].received == StreamFlow.Submitted(steps)
  {
    TreeIsRooted(cube, peers, fanout, states, events);
    flows', steps' := StreamFlow.CanComeToRest(FormedTree(states[|events|], peers[0]), flows, steps);
    forall p | p in peers
      ensures p in flows'[|steps'|].nodes && flows'[|steps'|].nodes[p].received == StreamFlow.Submitted(steps)
    {
      HasAllAtRest(cube, peers, fanout, states, events, flows', steps', p);
    }
  }

  lemma TreeIsRooted(cube: Adjacency, peers: seq<PeerId>, fanout: nat, states: seq<State>, events: seq<Event>)
    requires IsCube(cube, peers) && |peers| <= Pow2(fanout + 1)
    requires Formation(cube, peers[0], fanout, states, events)
    ensures StreamFlow.Rooted(FormedTree(states[|events|], peers[0]))
  {
    FormationIsATree(cube, peers, fanout, states, events);
  }

  lemma HasAllAtRest(cube: Adjacency, peers: seq<PeerId>, fanout: nat, states: seq<State>, events: seq<Event>,
                     flows: seq<StreamFlow.Flow>, steps: seq<StreamFlow.Step>, p: PeerId)
    requires IsCube(cube, peers) && |peers| <= Pow2(fanout + 1)
    requires Formation(cube, peers[0], fanout, states, events)
    requires StreamFlow.Run(FormedTree(states[|events|], peers[0]), flows, steps) && p in peers
    requires StreamFlow.AtRest(FormedTree(states[|events|], peers[0]), flows[|steps|]) && NoTimeOut(steps)
    ensures p in flows[|steps|].nodes && flows[|steps|].nodes[p].received == StreamFlow.Submitted(steps)
  {
    assert steps[..|steps|] == steps;
    SessionDeliversAll(cube, peers, fanout, states, events, flows, steps, |steps|, p);
  }

  predicate IsRead(e: StreamFlow.Step, p: PeerId) { e.Read? && e.u == p }

  /** What a step lets peer `p` read. */
  ghost function Piece(f: StreamFlow.Flow, e: StreamFlow.Step, p: PeerId): Bytes {
    if IsRead(e, p) && p in f.nodes && p in f.wire && |f.nodes[p].received| + e.n <= |f.wire[p]|
    then f.wire[p][|f.nodes[p].received|..|f.nodes[p].received| + e.n] else []
  }

  /** What peer `p` has read in the first `k` steps, read by read. */
  ghost function Reads(flows: seq<StreamFlow.Flow>, steps: seq<StreamFlow.Step>, p: PeerId, k: nat): seq<Bytes>
    requires |flows| == |steps| + 1 && k <= |steps|
  {
    if k == 0 then []
    else Reads(flows, steps, p, k - 1) + (if IsRead(steps[k - 1], p) then [Piece(flows[k - 1], steps[k - 1], p)] else [])
  }

  lemma ReadExtends(t: StreamFlow.Tree, f: StreamFlow.Flow, u: PeerId, n: nat, p: PeerId)
    requires StreamFlow.Inv(t, f) && StreamFlow.Enabled(t, f, StreamFlow.Read(u, n)) && p in t.parent
    ensures var e := StreamFlow.Read(u, n); var f' := StreamFlow.Next(t, f, e);
      p in f'.nodes && f'.nodes[p].received == f.nodes[p].received + Piece(f, e, p)
  {
    assert f.nodes[p].received + [] == f.nodes[p].received;
  }

  lemma OthersReadNothing(t: StreamFlow.Tree, f: StreamFlow.Flow, e: StreamFlow.Step, p: PeerId)
    requires StreamFlow.Inv(t, f) && StreamFlow.Enabled(t, f, e) && p in t.parent && !e.Read?
    ensures var f' := StreamFlow.Next(t, f, e); p in f'.nodes && f'.nodes[p].received == f.nodes[p].received
  {
  }

  /** Step number `k` adds to what `p` has received just what `p` read in it. */
  ghost predicate AddsRead(flows: seq<StreamFlow.Flow>, steps: seq<StreamFlow.Step>, p: PeerId, k: nat)
    requires |flows| == |steps| + 1 && k < |steps|
  {
    && p in flows[k].nodes && p in flows[k + 1].nodes
    && flows[k + 1].nodes[p].received == flows[k].nodes[p].received + Piece(flows[k], steps[k], p)
  }

  lemma StepAddsRead(t: StreamFlow.Tree, flows: seq<StreamFlow.Flow>, steps: seq<StreamFlow.Step>, p: PeerId, k: nat)
    requires StreamFlow.Run(t, flows, steps) && k < |steps| && p in t.parent
    ensures AddsRead(flows, steps, p, k)
  {
    var e := steps[k];
    StreamFlow.RunKeepsInv(t, flows, steps, k);
    assert StreamFlow.Enabled(t, flows[k], e) && flows[k + 1] == StreamFlow.Next(t, flows[k], e);
    if e.Read? {
      ReadExtends(t, flows[k], e.u, e.n, p);
    } else {
      OthersReadNothing(t, flows[k], e, p);
      assert flows[k].nodes[p].received + [] == flows[k].nodes[p].received;
    }
  }

  lemma {:induction false} ReadsAddUp(flows: seq<StreamFlow.Flow>, steps: seq<StreamFlow.Step>, p: PeerId, k: nat)
    requires |flows| == |steps| + 1 && k <= |steps| && forall i :: 0 <= i < |steps| ==> AddsRead(flows, steps, p, i)
    requires p in flows[0].nodes && flows[0].nodes[p].received == []
    ensures p in flows[k].nodes && flows[k].nodes[p].received == OtmWriter.Joined(Reads(flows, steps, p, k))
  {
    if k > 0 {
      ReadsAddUp(flows, steps, p, k - 1);
      assert AddsRead(flows, steps, p, k - 1);
      OneMorePiece(Reads(flows, steps, p, k - 1), Piece(flows[k - 1], steps[k - 1], p));
    }
  }

  lemma OneMorePiece(pieces: seq<Bytes>, piece: Bytes)
    ensures OtmWriter.Joined(pieces + [piece]) == OtmWriter.Joined(pieces) + piece
    ensures pieces + [] == pieces && OtmWriter.Joined(pieces) + [] == OtmWriter.Joined(pieces)
  {
    assert (pieces + [piece])[..|pieces|] == pieces;
  }

  /** The reads of a peer, one after the other, are what it has received. */
  lemma ReadsAreReceived(t: StreamFlow.Tree, flows: seq<StreamFlow.Flow>, steps: seq<StreamFlow.Step>, p: PeerId, k: nat)
    requires StreamFlow.Run(t, flows, steps) && k <= |steps| && p in t.parent
    ensures p in flows[k].nodes && flows[k].nodes[p].received == OtmWriter.Joined(Reads(flows, steps, p, k))
  {
    forall i | 0 <= i < |steps| ensures AddsRead(flows, steps, p, i) { StepAddsRead(t, flows, steps, p, i); }
    ReadsAddUp(flows, steps, p, k);
  }

  /** From the peer list to the files: after any regular formation over at most
      2 ** (fanout + 1) peers, when no send has timed out, nothing is on its way any more and
      the peer has read in pieces of the session size, its files are the stream that the
      initiator was given, cut by file size. */
  method PeerFiles(ghost cube: Adjacency, ghost peers: seq<PeerId>, ghost fanout: nat,
                   ghost states: seq<State>, ghost events: seq<Event>,
                   ghost flows: seq<StreamFlow.Flow>, ghost steps: seq<StreamFlow.Step>, ghost p: PeerId,
                   receiver: OtmWriter.FilesReceiver, pieces: seq<Bytes>)
    requires IsCube(cube, peers) && |peers| <= Pow2(fanout + 1)
    requires Formation(cube, peers[0], fanout, states, events)
    requires var t := FormedTree(states[|events|], peers[0]);
      StreamFlow.Run(t, flows, steps) && StreamFlow.AtRest(t, flows[|steps|]) && NoTimeOut(steps)
    requires p in peers && p != peers[0] && pieces == Reads(flows, steps, p, |steps|)
    requires receiver.Valid() && receiver.sizes != [] && receiver.contents == OtmWriter.Split(receiver.sizes, [])
    requires forall k :: 0 <= k < |pieces| - 1 ==> |pieces[k]| == receiver.chunkSize
    requires |StreamFlow.Submitted(steps)| == OtmWriter.Total(receiver.sizes)
    modifies receiver
    ensures receiver.Valid() && receiver.sizes == old(receiver.sizes)
    ensures receiver.contents == OtmWriter.Split(receiver.sizes, StreamFlow.Submitted(steps))
  {
    PeerHasRead(cube, peers, fanout, states, events, flows, steps, p);
    receiver.ReceiveAll(pieces);
  }

  lemma PeerHasRead(cube: Adjacency, peers: seq<PeerId>, fanout: nat, states: seq<State>, events: seq<Event>,
                    flows: seq<StreamFlow.Flow>, steps: seq<StreamFlow.Step>, p: PeerId)
    requires IsCube(cube, peers) && |peers| <= Pow2(fanout + 1)
    requires Formation(cube, peers[0], fanout, states, events)
    requires var t := FormedTree(states[|events|], peers[0]);
      StreamFlow.Run(t, flows, steps) && StreamFlow.AtRest(t, flows[|steps|]) && NoTimeOut(steps)
    requires p in peers && p != peers[0]
    ensures OtmWriter.Joined(Reads(flows, steps, p, |steps|)) == StreamFlow.Submitted(steps)
  {
    HasAllAtRest(cube, peers, fanout, states, events, flows, steps, p);
    FormationIsATree(cube, peers, fanout, states, events);
    InFormedTree(states[|events|], peers[0], Members(peers), p);
    ReadsAreReceived(FormedTree(states[|events|], peers[0]), flows, steps, p, |steps|);
  }

  lemma InFormedTree(s: State, centre: PeerId, nodes: set<PeerId>, p: PeerId)
    requires DataTree(s, centre, nodes) && p in nodes && p != centre
    ensures p in FormedTree(s, centre).parent
  {
    assert p in FormedTree(s, centre).Nodes();
  }
}
