/** What happens beyond the degree bound of the spanning formation: the window of the
    centre reaches `fanout + 1` neighbours and is never moved on
    (src/transfers/otm/palm_tree.py:305-340, 359-371). */
module PalmTreeDegree {
  import opened Peers
  import opened RelayModel
  import opened Overlay
  import opened PalmTreeNetwork
  import opened PalmTreeSpanning

  ghost predicate CentreStuck(s: State, centre: PeerId, nbrs: seq<PeerId>, fanout: nat) {
    && centre in s.relays && fanout + 1 < |nbrs| && Distinct(nbrs) && centre !in nbrs
    && var r := s.relays[centre];
       && r.id == centre && r.fanout == fanout && r.order == nbrs
       && match r.parent
          case Pending => r.active == {} && r.window == 0 && s.sent == {} && s.tasks == multiset{}
          case Root => r.active == Members(nbrs[..fanout + 1]) && forall b :: Task(centre, b) !in s.tasks
          case _ => false
  }

  lemma CrowdedStarts(s: State, centre: PeerId, adj: Adjacency, fanout: nat)
    requires Ready(s, centre, adj, fanout) && fanout + 1 < |adj[centre]|
    ensures CentreStuck(s, centre, adj[centre], fanout)
  {
    ReadyIsConfigured(s, centre, adj, fanout);
    assert !Linked(adj, centre, centre);
  }

  lemma StartStops(s: State, centre: PeerId, nbrs: seq<PeerId>, fanout: nat)
    requires CentreStuck(s, centre, nbrs, fanout) && s.relays[centre].parent.Pending?
    ensures CentreStuck(Next(centre, s, Start), centre, nbrs, fanout)
  {
    var r := s.relays[centre].(parent := Root);
    assert OnlineOutgoing(r) == {};
    assert PySlice(nbrs, 0, WindowEnd(r) + 1) == nbrs[..fanout + 1];
    assert Sampled(r, centre) == Members(nbrs[..fanout + 1]);
    assert {} + Sampled(r, centre) == Sampled(r, centre);
  }

  lemma CentreIgnores(s: State, centre: PeerId, nbrs: seq<PeerId>, fanout: nat, m: Message)
    requires CentreStuck(s, centre, nbrs, fanout) && s.relays[centre].parent.Root? && m.dst == centre
    ensures var r, o := s.relays[centre], Handle(s.relays[centre], m);
      !o.spawned && o.relay == r.(links := o.relay.links)
  {
    assert Distinct(nbrs[..fanout + 1]);
    DistinctCard(nbrs[..fanout + 1]);
  }

  lemma StepStaysStuck(centre: PeerId, s: State, e: Event, nbrs: seq<PeerId>, fanout: nat)
    requires CentreStuck(s, centre, nbrs, fanout) && Regular(s, e) && Enabled(centre, s, e)
    ensures CentreStuck(Next(centre, s, e), centre, nbrs, fanout)
  {
    if s.relays[centre].parent.Pending? {
      StartStops(s, centre, nbrs, fanout);
    } else if e.Deliver? && e.m.dst == centre {
      CentreIgnores(s, centre, nbrs, fanout, e.m);
    }
  }

  lemma RunStaysStuck(centre: PeerId, nbrs: seq<PeerId>, fanout: nat, states: seq<State>, events: seq<Event>, k: nat)
    requires RegularRun(centre, states, events) && CentreStuck(states[0], centre, nbrs, fanout) && k < |states|
    ensures CentreStuck(states[k], centre, nbrs, fanout)
  {
    var inv := s => CentreStuck(s, centre, nbrs, fanout);
    var allowed := (s, e) => Regular(s, e);
    forall s, e, s' | inv(s) && allowed(s, e) && Steps(centre, s, e, s') ensures inv(s') {
      StepStaysStuck(centre, s, e, nbrs, fanout);
    }
    InductionOverRun(centre, states, events, allowed, inv, k);
  }

  /** With more than `fanout + 1` neighbours the centre never asks the ones behind, in any
      regular run, and one of these that knows only the centre never gets a parent. */
  lemma CrowdedCentreLeavesOut(centre: PeerId, adj: Adjacency, fanout: nat, states: seq<State>, events: seq<Event>,
                               k: nat, i: nat)
    requires RegularRun(centre, states, events) && Ready(states[0], centre, adj, fanout) && k < |states|
    requires fanout + 1 <= i < |adj[centre]|
    ensures var leaf := adj[centre][i];
      && Check(centre, leaf) !in states[k].sent
      && leaf in adj && (adj[leaf] == [centre] ==> !Done(states[k], leaf))
  {
    ReadyStarts(states[0], centre, adj, fanout);
    RunKeepsSpanInv(centre, adj, states, events, k);
    CrowdedStarts(states[0], centre, adj, fanout);
    RunStaysStuck(centre, adj[centre], fanout, states, events, k);
    BehindTheWindow(states[k], centre, adj, fanout, i);
  }

  lemma BehindTheWindow(s: State, centre: PeerId, adj: Adjacency, fanout: nat, i: nat)
    requires SpanInv(s, centre, adj) && CentreStuck(s, centre, adj[centre], fanout) && fanout + 1 <= i < |adj[centre]|
    ensures var leaf := adj[centre][i];
      && Check(centre, leaf) !in s.sent
      && leaf in adj && (adj[leaf] == [centre] ==> !Done(s, leaf))
  {
    var leaf := adj[centre][i];
    assert Linked(adj, centre, leaf) && Linked(adj, leaf, centre);
    AskedAreInWindow(s, centre, adj[centre], fanout);
    assert leaf !in adj[centre][..fanout + 1];
    UnaskedIsNotDone(s, centre, adj, leaf);
  }

  lemma AskedAreInWindow(s: State, centre: PeerId, nbrs: seq<PeerId>, fanout: nat)
    requires Inv(s) && CentreStuck(s, centre, nbrs, fanout)
    ensures forall x :: Check(centre, x) in s.sent ==> x in nbrs[..fanout + 1]
  {
    forall x | Check(centre, x) in s.sent ensures x in nbrs[..fanout + 1] { assert Justified(s, Check(centre, x)); }
  }

  lemma LeafUnasked(s: State, centre: PeerId, adj: Adjacency, u: PeerId, x: PeerId)
    requires SpanInv(s, centre, adj) && u in adj && u != centre && adj[u] == [x] && Check(x, u) !in s.sent
    ensures !Done(s, u)
  {
    UnaskedIsNotDone(s, centre, adj, u);
    assert forall y :: y in adj[u] ==> y == x;
  }

  /** Nobody gets a parent unasked. */
  lemma UnaskedIsNotDone(s: State, centre: PeerId, adj: Adjacency, u: PeerId)
    requires SpanInv(s, centre, adj) && u in adj && u != centre
    ensures Done(s, u) ==> exists x :: x in adj[u] && Check(x, u) in s.sent
  {
    assert Progress(s.relays[u], s.sent, s.tasks, centre, adj[u]);
    if s.relays[u].parent.Parent? {
      var x := s.relays[u].parent.peer;
      assert IsChild(s, u, x) && Expects(s, u, x);
      ParentIsNeighbour(s, centre, adj, u, x);
    }
  }
}
