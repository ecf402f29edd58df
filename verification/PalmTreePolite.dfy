/** Regular runs in which a relay that waits is asked only once and goes on at once: they
    exist on every overlay, and they never leave a set of relays that is closed under the
    first `fanout + 1` neighbours (src/transfers/otm/palm_tree.py:197-230, 305-371). */
module PalmTreePolite {
  import opened Arithmetic
  import opened Peers
  import opened RelayModel
  import opened Overlay
  import opened PalmTreeNetwork
  import opened PalmTreeForest
  import opened PalmTreeSpanning

  /** A regular step that brings no second check to a relay that waits. */
  ghost predicate Polite(s: State, e: Event) {
    Regular(s, e) && (e.Deliver? && e.m.Check? && e.m.dst in s.relays && s.relays[e.m.dst].parent.Pending?
                      ==> s.relays[e.m.dst].expected == {})
  }

  ghost predicate PoliteRun(centre: PeerId, states: seq<State>, events: seq<Event>) {
    Execution(centre, states, events) && Allowed((s, e) => Polite(s, e), states, events)
  }

  function FirstNeighbours(nbrs: seq<PeerId>, fanout: nat): seq<PeerId> { nbrs[..Min(|nbrs|, fanout + 1)] }

  ghost predicate TasksAre(tasks: multiset<Task>, u: PeerId, senders: set<PeerId>) {
    forall b :: tasks[Task(u, b)] == if b in senders then 1 else 0
  }

  /** Before its forward a relay has accepted at most one check and done nothing else;
      after it, it has asked exactly its first `fanout + 1` neighbours. */
  ghost predicate PoliteRelay(r: Relay, tasks: multiset<Task>, nbrs: seq<PeerId>, fanout: nat) {
    && r.order == nbrs && r.fanout == Min(|nbrs|, fanout)
    && ((Forwarded(r, nbrs, fanout) && TasksAre(tasks, r.id, {})) || (Waiting(r) && TasksAre(tasks, r.id, r.expected)))
  }

  ghost predicate Forwarded(r: Relay, nbrs: seq<PeerId>, fanout: nat) {
    r.parent.Done() && r.active == Members(FirstNeighbours(nbrs, fanout)) + r.expected
  }

  ghost predicate Waiting(r: Relay) {
    && r.window == 0 && r.active == r.expected && !r.parent.Root?
    && forall x, y :: x in r.expected && y in r.expected ==> x == y
  }

  ghost predicate PoliteInv(s: State, centre: PeerId, adj: Adjacency, fanout: nat) {
    SpanInv(s, centre, adj) && forall u :: u in adj ==> PoliteRelay(s.relays[u], s.tasks, adj[u], fanout)
  }

  ghost predicate SitePolite(s: State, e: Event, o: Outcome, nbrs: seq<PeerId>, fanout: nat) {
    PoliteRelay(o.relay, TasksAfter(s, e, o), nbrs, fanout)
  }

  lemma CheckPolite(s: State, a: PeerId, u: PeerId, nbrs: seq<PeerId>, fanout: nat)
    requires u in s.relays && s.relays[u].id == u && PoliteRelay(s.relays[u], s.tasks, nbrs, fanout)
    requires s.relays[u].parent.Pending? ==> s.relays[u].expected == {}
    ensures SitePolite(s, Deliver(Check(a, u)), OnCheck(s.relays[u], a), nbrs, fanout)
  {
  }

  lemma RejectPolite(s: State, a: PeerId, u: PeerId, nbrs: seq<PeerId>, fanout: nat)
    requires Inv(s) && u in s.relays && Check(u, a) in s.sent && PoliteRelay(s.relays[u], s.tasks, nbrs, fanout)
    ensures SitePolite(s, Deliver(Reject(a, u)), OnReject(s.relays[u], a), nbrs, fanout)
  {
    var r := s.relays[u];
    assert Justified(s, Check(u, a));
    var first := nbrs[..r.fanout];
    assert forall x :: x in first ==> x in FirstNeighbours(nbrs, fanout);
    assert Distinct(first);
    DistinctCard(first);
    SubsetCard(Members(first), r.active);
  }

  lemma LinkStepPolite(s: State, e: Event, o: Outcome, u: PeerId, nbrs: seq<PeerId>, fanout: nat)
    requires u in s.relays && PoliteRelay(s.relays[u], s.tasks, nbrs, fanout) && TasksAfter(s, e, o) == s.tasks
    requires o.relay == s.relays[u].(links := o.relay.links, parent := o.relay.parent)
    requires o.relay.parent == s.relays[u].parent || (s.relays[u].parent.Pending? && o.relay.parent.Parent?)
    ensures SitePolite(s, e, o, nbrs, fanout)
  {
  }

  lemma FirstForward(r: Relay, sender: PeerId, nbrs: seq<PeerId>, fanout: nat)
    requires r.window == 0 && r.order == nbrs && r.fanout == Min(|nbrs|, fanout) && OnlineOutgoing(r) == {}
    requires r.active == r.expected && (sender in r.active || sender !in nbrs)
    ensures Forward(r, sender).relay.active == Members(FirstNeighbours(nbrs, fanout)) + r.expected
  {
    assert PySlice(nbrs, 0, WindowEnd(r) + 1) == FirstNeighbours(nbrs, fanout);
  }

  lemma StartPolite(s: State, centre: PeerId, nbrs: seq<PeerId>, fanout: nat)
    requires Inv(s) && centre in s.relays && s.relays[centre].parent.Pending? && centre !in nbrs
    requires PoliteRelay(s.relays[centre], s.tasks, nbrs, fanout) && s.relays[centre].expected == {}
    ensures SitePolite(s, Start, OnStart(s.relays[centre]), nbrs, fanout)
  {
    var root := s.relays[centre].(parent := Root);
    assert forall b :: Check(centre, b) in s.sent ==> Justified(s, Check(centre, b));
    OnlyParentOnline(s, centre);
    assert OnlineOutgoing(root) == OnlineOutgoing(s.relays[centre]);
    FirstForward(root, centre, nbrs, fanout);
  }

  lemma ResumePolite(s: State, t: Task, nbrs: seq<PeerId>, fanout: nat)
    requires Inv(s) && t in s.tasks && t.relay in s.relays && s.relays[t.relay].parent.Done()
    requires PoliteRelay(s.relays[t.relay], s.tasks, nbrs, fanout)
    ensures SitePolite(s, Resume(t), OnResume(s.relays[t.relay], t.sender), nbrs, fanout)
  {
    var r := s.relays[t.relay];
    assert Expects(s, t.relay, t.sender);
    assert s.tasks[Task(t.relay, t.sender)] == 1 && r.expected == {t.sender};
    var turned := r.(links := r.links[t.sender := r.links[t.sender].(outgoing := false)]);
    assert OnlineOutgoing(turned) == {};
    FirstForward(turned, t.sender, nbrs, fanout);
    assert TasksAre(s.tasks - multiset{t}, t.relay, {});
  }

  lemma DeliverPolite(s: State, m: Message, centre: PeerId, adj: Adjacency, fanout: nat)
    requires PoliteInv(s, centre, adj, fanout) && Polite(s, Deliver(m)) && Enabled(centre, s, Deliver(m))
    ensures SitePolite(s, Deliver(m), Handle(s.relays[m.dst], m), adj[m.dst], fanout)
  {
    var u := m.dst;
    match m
    case Check(a, _) => CheckPolite(s, a, u, adj[u], fanout);
    case Reject(a, _) => RejectPolite(s, a, u, adj[u], fanout);
    case _ => LinkMessagePolite(s, m, adj[u], fanout);
  }

  lemma LinkMessagePolite(s: State, m: Message, nbrs: seq<PeerId>, fanout: nat)
    requires m.dst in s.relays && PoliteRelay(s.relays[m.dst], s.tasks, nbrs, fanout) && !m.Check? && !m.Reject?
    ensures SitePolite(s, Deliver(m), Handle(s.relays[m.dst], m), nbrs, fanout)
  {
    var u := m.dst;
    match m
    case Upgrade(a, _) => LinkStepPolite(s, Deliver(m), OnUpgrade(s.relays[u], a), u, nbrs, fanout);
    case Dial(a, _) => LinkStepPolite(s, Deliver(m), OnDial(s.relays[u], a), u, nbrs, fanout);
    case LinkOk(a, _) => LinkStepPolite(s, Deliver(m), OnLinkOk(s.relays[u], a), u, nbrs, fanout);
  }

  lemma SitePoliteKept(centre: PeerId, s: State, e: Event, adj: Adjacency, fanout: nat)
    requires PoliteInv(s, centre, adj, fanout) && Polite(s, e) && Enabled(centre, s, e)
    ensures var u := Site(centre, e); SitePolite(s, e, React(s.relays[u], e), adj[u], fanout)
  {
    var u := Site(centre, e);
    assert Progress(s.relays[u], s.sent, s.tasks, centre, adj[u]);
    match e
    case Deliver(m) => DeliverPolite(s, m, centre, adj, fanout);
    case Start =>
      assert !Linked(adj, centre, centre);
      StartPolite(s, centre, adj[u], fanout);
    case Resume(t) => ResumePolite(s, t, adj[u], fanout);
  }

  lemma OthersTasks(s: State, e: Event, o: Outcome, centre: PeerId, w: PeerId)
    requires Regular(s, e) && w != Site(centre, e)
    ensures forall b :: TasksAfter(s, e, o)[Task(w, b)] == s.tasks[Task(w, b)]
  {
  }

  lemma StepKeepsPolite(centre: PeerId, s: State, e: Event, s': State, adj: Adjacency, fanout: nat)
    requires PoliteInv(s, centre, adj, fanout) && Polite(s, e) && Steps(centre, s, e, s')
    ensures PoliteInv(s', centre, adj, fanout)
  {
    var u := Site(centre, e);
    StepKeepsSpanInv(centre, s, e, s', adj);
    forall w | w in adj ensures PoliteRelay(s'.relays[w], s'.tasks, adj[w], fanout) {
      if w == u {
        SitePoliteKept(centre, s, e, adj, fanout);
      } else {
        OthersTasks(s, e, React(s.relays[u], e), centre, w);
        SameTasks(s.relays[w], s.tasks, s'.tasks, adj[w], fanout);
      }
    }
  }

  lemma SameTasks(r: Relay, tasks: multiset<Task>, tasks': multiset<Task>, nbrs: seq<PeerId>, fanout: nat)
    requires PoliteRelay(r, tasks, nbrs, fanout) && forall b :: tasks'[Task(r.id, b)] == tasks[Task(r.id, b)]
    ensures PoliteRelay(r, tasks', nbrs, fanout)
  {
  }

  // ---- polite runs exist ------------------------------------------------------------

  lemma PoliteIsRegular(centre: PeerId, states: seq<State>, events: seq<Event>)
    requires PoliteRun(centre, states, events)
    ensures RegularRun(centre, states, events)
  {
    var polite := (s, e) => Polite(s, e);
    forall i {:trigger events[i]} | 0 <= i < |events| ensures Regular(states[i], events[i]) {
      assert polite(states[i], events[i]);
    }
  }

  lemma RunKeepsPolite(centre: PeerId, adj: Adjacency, fanout: nat, states: seq<State>, events: seq<Event>, k: nat)
    requires PoliteRun(centre, states, events) && PoliteInv(states[0], centre, adj, fanout) && k < |states|
    ensures PoliteInv(states[k], centre, adj, fanout)
  {
    var inv := s => PoliteInv(s, centre, adj, fanout);
    var allowed := (s, e) => Polite(s, e);
    forall s, e, s' | inv(s) && allowed(s, e) && Steps(centre, s, e, s') ensures inv(s') {
      StepKeepsPolite(centre, s, e, s', adj, fanout);
    }
    InductionOverRun(centre, states, events, allowed, inv, k);
  }

  lemma ReadyIsPolite(s: State, centre: PeerId, adj: Adjacency, fanout: nat)
    requires Ready(s, centre, adj, fanout)
    ensures PoliteInv(s, centre, adj, fanout)
  {
    ReadyStarts(s, centre, adj, fanout);
    ReadyIsConfigured(s, centre, adj, fanout);
    forall u | u in adj ensures PoliteRelay(s.relays[u], s.tasks, adj[u], fanout) {
      assert s.relays[u] == ConfiguredRelay(u, adj[u], fanout);
    }
  }

  /** A relay that waits with an accepted check has a message on its way that brings it
      nearer to a parent. */
  lemma WaitingHasMessage(s: State, centre: PeerId, adj: Adjacency, b: PeerId) returns (m: Message)
    requires SpanInv(s, centre, adj) && HasAccepted(s, b) && !Done(s, b)
    ensures m in s.sent && m !in s.handled && (m.Upgrade? || m.Dial?)
  {
    var x :| x in s.relays[b].expected;
    assert Progress(s.relays[b], s.sent, s.tasks, centre, adj[b]);
    m := Upgrade(b, x);
    if m in s.handled {
      assert Answered(s, m);
      m := Dial(x, b);
      assert m in s.handled ==> Answered(s, m);
    }
  }

  lemma SomePoliteStep(s: State, centre: PeerId, adj: Adjacency) returns (e: Event)
    requires SpanInv(s, centre, adj) && !Quiescent(centre, s)
    ensures Polite(s, e) && Enabled(centre, s, e)
  {
    e :| Regular(s, e) && Enabled(centre, s, e);
    if !Polite(s, e) {
      var m := WaitingHasMessage(s, centre, adj, e.m.dst);
      DestinationKnown(s, centre, adj, m);
      e := Deliver(m);
    }
  }

  lemma PoliteRunExtends(centre: PeerId, states: seq<State>, events: seq<Event>, e: Event, s': State)
    requires PoliteRun(centre, states, events)
    requires Polite(states[|events|], e) && Steps(centre, states[|events|], e, s')
    ensures PoliteRun(centre, states + [s'], events + [e])
  {
    var states', events' := states + [s'], events + [e];
    forall i {:trigger events'[i]} | 0 <= i < |events'|
      ensures Steps(centre, states'[i], events'[i], states'[i + 1]) && Polite(states'[i], events'[i])
    {
      if i < |events| {
        var polite := (s, e) => Polite(s, e);
        assert polite(states[i], events[i]);
        assert Steps(centre, states[i], events[i], states[i + 1]);
      }
    }
  }

  lemma PoliteRunGoesOn(centre: PeerId, adj: Adjacency, states: seq<State>, events: seq<Event>)
    returns (states': seq<State>, events': seq<Event>)
    requires PoliteRun(centre, states, events) && SpanInv(states[0], centre, adj)
    requires !Quiescent(centre, states[|events|])
    ensures PoliteRun(centre, states', events') && Left(centre, adj, states') < Left(centre, adj, states)
    ensures states'[0] == states[0]
  {
    var s := states[|events|];
    PoliteIsRegular(centre, states, events);
    RunKeepsSpanInv(centre, adj, states, events, |events|);
    var e := SomePoliteStep(s, centre, adj);
    var s' := Next(centre, s, e);
    RegularStep(centre, adj, s, e, s');
    PoliteRunExtends(centre, states, events, e, s');
    states', events' := states + [s'], events + [e];
  }

  lemma {:induction false} PoliteRunFinishes(centre: PeerId, adj: Adjacency, states: seq<State>, events: seq<Event>)
    returns (states': seq<State>, events': seq<Event>)
    requires PoliteRun(centre, states, events) && SpanInv(states[0], centre, adj)
    ensures PoliteRun(centre, states', events') && Quiescent(centre, states'[|events'|]) && states'[0] == states[0]
    decreases Left(centre, adj, states)
  {
    states', events' := states, events;
    if !Quiescent(centre, states[|events|]) {
      var states1, events1 := PoliteRunGoesOn(centre, adj, states, events);
      states', events' := PoliteRunFinishes(centre, adj, states1, events1);
    }
  }

  // ---- what they leave out ----------------------------------------------------------

  ghost predicate Closed(adj: Adjacency, fanout: nat, inner: set<PeerId>) {
    forall u, v :: u in inner && u in adj && v in FirstNeighbours(adj[u], fanout) ==> v in inner
  }

  /** In a polite run a child is among the first neighbours of its parent. */
  lemma ChildIsFirst(s: State, centre: PeerId, adj: Adjacency, fanout: nat, a: PeerId, b: PeerId)
    requires PoliteInv(s, centre, adj, fanout) && IsChild(s, a, b)
    ensures b in adj && a in FirstNeighbours(adj[b], fanout)
  {
    ChildWasChecked(s, b, a);
    assert Justified(s, Check(b, a));
    assert PoliteRelay(s.relays[b], s.tasks, adj[b], fanout);
  }

  lemma {:induction false} PathStaysInside(s: State, inner: set<PeerId>, path: seq<PeerId>)
    requires forall a, b :: IsChild(s, a, b) && b in inner ==> a in inner
    requires LeadsUp(s, path) && path[|path| - 1] in inner
    ensures path[0] in inner
    decreases |path|
  {
    if |path| > 1 {
      var up := path[1..];
      forall i | 0 <= i < |up| - 1 ensures IsChild(s, up[i], up[i + 1]) { assert IsChild(s, path[i + 1], path[i + 2]); }
      PathStaysInside(s, inner, up);
      assert IsChild(s, path[0], path[1]);
    }
  }

  /** On every overlay there is a regular run to the end that never leaves such a set. */
  lemma PoliteRunStaysInside(centre: PeerId, adj: Adjacency, fanout: nat, inner: set<PeerId>, s: State)
    returns (states: seq<State>, events: seq<Event>)
    requires Ready(s, centre, adj, fanout) && Closed(adj, fanout, inner) && centre in inner
    ensures RegularRun(centre, states, events) && states[0] == s && Quiescent(centre, states[|events|])
    ensures forall u :: Done(states[|events|], u) ==> u in inner
  {
    ReadyIsPolite(s, centre, adj, fanout);
    states, events := PoliteRunFinishes(centre, adj, [s], []);
    PoliteIsRegular(centre, states, events);
    RunKeepsPolite(centre, adj, fanout, states, events, |events|);
    var rank := FormationInv(centre, adj, fanout, states, events);
    DoneIsInside(states[|events|], centre, adj, fanout, inner, rank);
  }

  lemma DoneIsInside(s: State, centre: PeerId, adj: Adjacency, fanout: nat, inner: set<PeerId>, rank: map<PeerId, nat>)
    requires PoliteInv(s, centre, adj, fanout) && Ranked(s, rank) && Closed(adj, fanout, inner) && centre in inner
    ensures forall u :: Done(s, u) ==> u in inner
  {
    forall a, b | IsChild(s, a, b) && b in inner ensures a in inner { ChildIsFirst(s, centre, adj, fanout, a, b); }
    forall u | Done(s, u) ensures u in inner {
      DoneHangsUnder(s, centre, adj, rank, u);
      var path :| LeadsUp(s, path) && path[0] == u && path[|path| - 1] == centre;
      PathStaysInside(s, inner, path);
    }
  }
}
