/** When every message is handled and nothing times out, the spanning formation
    stops, and where it stops every relay that can be reached by asking from the
    centre hangs in one tree under it (src/transfers/otm/palm_tree.py:193-514). */
module PalmTreeSpanning {
  import opened Arithmetic
  import opened Peers
  import opened RelayModel
  import opened Overlay
  import opened PalmTreeNetwork
  import opened PalmTreeForest

  /** Every relay has just got its neighbours, however many. */
  ghost predicate Ready(s: State, centre: PeerId, adj: Adjacency, fanout: nat) {
    && centre in adj && GoodGraph(adj) && s.relays.Keys == adj.Keys
    && s.sent == {} && s.handled == {} && s.tasks == multiset{}
    && forall u :: u in adj ==> s.relays[u] == OnUpdateState(FreshRelay(u, fanout), adj[u])
  }

  /** Whom a relay asks in any case: its first `fanout` neighbours; the centre, whose
      links are all offline when it starts, one more. */
  function Asked(adj: Adjacency, centre: PeerId, fanout: nat): Adjacency {
    map u | u in adj :: adj[u][..Min(|adj[u]|, fanout + (if u == centre then 1 else 0))]
  }

  /** No relay has more neighbours than it asks. */
  predicate Bounded(adj: Adjacency, centre: PeerId, fanout: nat) {
    forall u :: u in adj ==> |adj[u]| <= fanout + (if u == centre then 1 else 0)
  }

  /** Steps of a run that loses nothing, repeats nothing and lets nothing time out. */
  ghost predicate Regular(s: State, e: Event) {
    match e
    case Deliver(m) => m !in s.handled
    case Start => true
    case Resume(_) => true
    case _ => false
  }

  ghost predicate RegularRun(centre: PeerId, states: seq<State>, events: seq<Event>) {
    Execution(centre, states, events) && Allowed((s, e) => Regular(s, e), states, events)
  }

  ghost predicate Quiescent(centre: PeerId, s: State) {
    forall e :: Regular(s, e) ==> !Enabled(centre, s, e)
  }

  // ---- what regular runs keep ----------------------------------------------

  function Reach(r: Relay, centre: PeerId): (n: nat)
    ensures n <= |r.order|
  {
    Min(|r.order|, r.fanout + (if r.id == centre then 1 else 0))
  }

  ghost predicate Covered(r: Relay, centre: PeerId) {
    forall k :: 0 <= k < Reach(r, centre) ==> r.order[k] in r.active
  }

  ghost predicate NoChecksFrom(sent: set<Message>, u: PeerId) { forall x :: Check(u, x) !in sent }

  ghost predicate HasTask(tasks: multiset<Task>, u: PeerId) { exists b :: Task(u, b) in tasks }

  /** A relay that still has to forward for the first time. */
  ghost predicate Unforwarded(r: Relay, sent: set<Message>, tasks: multiset<Task>) {
    r.window == 0 && NoChecksFrom(sent, r.id) && (r.parent.Done() ==> HasTask(tasks, r.id))
  }

  ghost predicate Progress(r: Relay, sent: set<Message>, tasks: multiset<Task>, centre: PeerId, nbrs: seq<PeerId>) {
    && r.order == nbrs && r.fanout <= |nbrs| && !r.phase.SessionInit?
    && !r.parent.GivenUp? && (r.parent.Root? ==> r.id == centre) && (r.id == centre ==> r.expected == {})
    && (forall b :: b in r.expected ==> Upgrade(r.id, b) in sent)
    && (forall b :: b in r.active ==> b in r.expected || Check(r.id, b) in sent)
    && (r.parent.Pending? ==> forall b :: b in r.expected ==> Task(r.id, b) in tasks)
    && (Covered(r, centre) || Unforwarded(r, sent, tasks))
    && (r.parent.Parent? ==> LinkOk(r.id, r.parent.peer) in sent)
  }

  /** The relay holds an online stream to `a` that it dialled itself. */
  ghost predicate HasStream(r: Relay, a: PeerId) {
    a in r.active && a in r.links && r.links[a] == Link(Online, true, Dialed)
  }

  ghost predicate Feeds(s: State, b: PeerId, a: PeerId) { b in s.relays && HasStream(s.relays[b], a) }

  ghost predicate HasAccepted(s: State, b: PeerId) { b in s.relays && s.relays[b].expected != {} }

  /** What follows once a message has been handled. */
  ghost predicate Answered(s: State, m: Message) {
    match m
    case Check(a, b) => Done(s, b) || HasAccepted(s, b)
    case Reject(a, b) => true
    case Upgrade(a, b) => Done(s, a) || Dial(b, a) in s.sent
    case Dial(a, b) => Done(s, b)
    case LinkOk(a, b) => Feeds(s, b, a)
  }

  ghost predicate RejectsAnswerChecks(s: State) {
    forall a, b :: Reject(a, b) in s.sent ==> Check(b, a) in s.sent
  }

  /** Nothing is sent before the centre starts. */
  ghost predicate CentreFirst(s: State, centre: PeerId)
    requires centre in s.relays
  {
    s.relays[centre].parent.Root? || s.sent == {}
  }

  ghost predicate AllProgress(s: State, centre: PeerId, adj: Adjacency)
    requires s.relays.Keys == adj.Keys
  {
    forall u :: u in adj ==> Progress(s.relays[u], s.sent, s.tasks, centre, adj[u])
  }

  ghost predicate AllAnswered(s: State) { forall m :: m in s.handled ==> Answered(s, m) }

  ghost predicate SpanInv(s: State, centre: PeerId, adj: Adjacency) {
    && Inv(s) && centre in adj && GoodGraph(adj) && s.relays.Keys == adj.Keys
    && s.handled <= s.sent
    && AllProgress(s, centre, adj) && AllAnswered(s) && RejectsAnswerChecks(s) && CentreFirst(s, centre)
  }

  ghost predicate Configured(s: State, centre: PeerId, adj: Adjacency, fanout: nat) {
    && centre in adj && GoodGraph(adj) && s.relays.Keys == adj.Keys
    && s.sent == {} && s.handled == {} && s.tasks == multiset{}
    && forall u :: u in adj ==> s.relays[u] == ConfiguredRelay(u, adj[u], fanout) && WellFormed(s.relays[u])
  }

  lemma ReadyIsConfigured(s: State, centre: PeerId, adj: Adjacency, fanout: nat)
    requires Ready(s, centre, adj, fanout)
    ensures Configured(s, centre, adj, fanout)
  {
    forall u | u in adj ensures s.relays[u] == ConfiguredRelay(u, adj[u], fanout) && WellFormed(s.relays[u]) {
      ConfigureFresh(u, fanout, adj[u]);
    }
  }

  lemma ConfiguredInv(s: State, centre: PeerId, adj: Adjacency, fanout: nat)
    requires Configured(s, centre, adj, fanout)
    ensures Inv(s) && OnlyCentreIsRoot(s, centre)
    ensures Ranked(s, map u | u in s.relays :: 0)
  {
  }

  lemma ReadyStarts(s: State, centre: PeerId, adj: Adjacency, fanout: nat)
    requires Ready(s, centre, adj, fanout)
    ensures SpanInv(s, centre, adj) && HasFanout(s, adj, fanout)
    ensures OnlyCentreIsRoot(s, centre) && Ranked(s, map u | u in s.relays :: 0)
  {
    ReadyIsConfigured(s, centre, adj, fanout);
    ConfiguredInv(s, centre, adj, fanout);
    forall u | u in adj ensures Progress(s.relays[u], s.sent, s.tasks, centre, adj[u]) {
      assert s.relays[u] == ConfiguredRelay(u, adj[u], fanout);
    }
  }

  ghost predicate HasFanout(s: State, adj: Adjacency, fanout: nat) {
    forall u :: u in adj ==> u in s.relays && s.relays[u].fanout == Min(|adj[u]|, fanout)
  }

  /** The first window of a relay covers its first `fanout` neighbours even with one
      link online already, because the slice ends one behind the window; with no link
      online it covers one more. */
  lemma ForwardCovers(r: Relay, sender: PeerId, centre: PeerId)
    requires r.window == 0 && r.fanout <= |r.order| && |OnlineOutgoing(r)| <= 1
    requires r.id == centre ==> OnlineOutgoing(r) == {}
    requires sender in r.active || sender !in r.order
    ensures Covered(Forward(r, sender).relay, centre)
  {
    var n := Reach(r, centre);
    assert WindowEnd(r) + 1 >= n;
    var slice := PySlice(r.order, 0, WindowEnd(r) + 1);
    assert forall k :: 0 <= k < n ==> r.order[k] == slice[k];
  }

  /** Before its first forward only the link of the parent can be online. */
  lemma OnlyParentOnline(s: State, u: PeerId)
    requires Inv(s) && u in s.relays && NoChecksFrom(s.sent, u)
    ensures |OnlineOutgoing(s.relays[u])| <= 1
    ensures s.relays[u].parent.Pending? ==> OnlineOutgoing(s.relays[u]) == {}
  {
    var r := s.relays[u];
    forall b | b in OnlineOutgoing(r) ensures r.parent == Parent(b) {
      assert SocketOk(s, u, b);
      if HasSocket(s, u, b, Dialed) { DialledIsChild(s, u, b); }
    }
    if OnlineOutgoing(r) != {} {
      var b :| b in OnlineOutgoing(r);
      assert OnlineOutgoing(r) == {b};
    }
  }

  // ---- one regular step at its site ----------------------------------------

  ghost predicate SiteOk(s: State, e: Event, o: Outcome, centre: PeerId, nbrs: seq<PeerId>) {
    Progress(o.relay, s.sent + o.sends, TasksAfter(s, e, o), centre, nbrs)
  }

  lemma SiteCheck(s: State, a: PeerId, u: PeerId, centre: PeerId, nbrs: seq<PeerId>)
    requires u in s.relays && s.relays[u].id == u && (u == centre ==> s.relays[u].parent.Root?)
    requires Progress(s.relays[u], s.sent, s.tasks, centre, nbrs)
    ensures SiteOk(s, Deliver(Check(a, u)), OnCheck(s.relays[u], a), centre, nbrs)
  {
  }

  /** A relay that has been refused has as many active links as its fanout allows. */
  lemma SiteReject(s: State, a: PeerId, u: PeerId, centre: PeerId, nbrs: seq<PeerId>)
    requires u in s.relays && s.relays[u].id == u && WellFormed(s.relays[u]) && Check(u, a) in s.sent
    requires Progress(s.relays[u], s.sent, s.tasks, centre, nbrs)
    ensures OnReject(s.relays[u], a) == Outcome(s.relays[u], {}, false)
    ensures SiteOk(s, Deliver(Reject(a, u)), OnReject(s.relays[u], a), centre, nbrs)
  {
    CoveredIsFull(s.relays[u], centre);
    assert s.sent + {} == s.sent;
  }

  lemma CoveredIsFull(r: Relay, centre: PeerId)
    requires Covered(r, centre) && Distinct(r.order) && r.fanout <= |r.order|
    ensures |r.active| >= r.fanout
  {
    var first := r.order[..r.fanout];
    DistinctCard(first);
    SubsetCard(Members(first), r.active);
  }

  lemma SiteUpgrade(s: State, a: PeerId, u: PeerId, centre: PeerId, nbrs: seq<PeerId>)
    requires u in s.relays && s.relays[u].id == u
    requires Progress(s.relays[u], s.sent, s.tasks, centre, nbrs)
    ensures SiteOk(s, Deliver(Upgrade(a, u)), OnUpgrade(s.relays[u], a), centre, nbrs)
  {
  }

  lemma SiteDial(s: State, a: PeerId, u: PeerId, centre: PeerId, nbrs: seq<PeerId>)
    requires u in s.relays && s.relays[u].id == u
    requires Progress(s.relays[u], s.sent, s.tasks, centre, nbrs)
    ensures SiteOk(s, Deliver(Dial(a, u)), OnDial(s.relays[u], a), centre, nbrs)
  {
  }

  lemma SiteLinkOk(s: State, a: PeerId, u: PeerId, centre: PeerId, nbrs: seq<PeerId>)
    requires u in s.relays && s.relays[u].id == u
    requires Progress(s.relays[u], s.sent, s.tasks, centre, nbrs)
    ensures SiteOk(s, Deliver(LinkOk(a, u)), OnLinkOk(s.relays[u], a), centre, nbrs)
  {
  }

  /** After a forward, whether or not it was the first, the relay has asked whom it
      asks in any case. */
  lemma ForwardProgress(r: Relay, sender: PeerId, sent: set<Message>, tasks: multiset<Task>, tasks': multiset<Task>,
                        centre: PeerId, nbrs: seq<PeerId>)
    requires Progress(r, sent, tasks, centre, nbrs) && r.parent.Done()
    requires sender in r.active || sender !in r.order
    requires Covered(r, centre) || (r.window == 0 && |OnlineOutgoing(r)| <= 1 && (r.id == centre ==> OnlineOutgoing(r) == {}))
    ensures var o := Forward(r, sender); Progress(o.relay, sent + o.sends, tasks', centre, nbrs)
  {
    if !Covered(r, centre) { ForwardCovers(r, sender, centre); }
  }

  lemma SiteStart(s: State, centre: PeerId, nbrs: seq<PeerId>)
    requires Inv(s) && centre in s.relays && s.relays[centre].parent.Pending? && centre !in nbrs && s.sent == {}
    requires Progress(s.relays[centre], s.sent, s.tasks, centre, nbrs)
    ensures SiteOk(s, Start, OnStart(s.relays[centre]), centre, nbrs)
  {
    var r := s.relays[centre];
    OnlyParentOnline(s, centre);
    var root := r.(parent := Root);
    assert OnlineOutgoing(root) == OnlineOutgoing(r);
    var all := s.tasks + multiset{Task(centre, centre)};
    assert Task(centre, centre) in all;
    assert Progress(root, s.sent, all, centre, nbrs);
    ForwardProgress(root, centre, s.sent, all, s.tasks, centre, nbrs);
  }

  lemma TurnedCard(r: Relay, p: PeerId)
    requires p in r.links
    ensures |OnlineOutgoing(r.(links := r.links[p := r.links[p].(outgoing := false)]))| <= |OnlineOutgoing(r)|
  {
    SubsetCard(OnlineOutgoing(r.(links := r.links[p := r.links[p].(outgoing := false)])), OnlineOutgoing(r));
  }

  lemma TurnedProgress(r: Relay, p: PeerId, sent: set<Message>, tasks: multiset<Task>, centre: PeerId, nbrs: seq<PeerId>)
    requires p in r.links && Progress(r, sent, tasks, centre, nbrs)
    ensures Progress(r.(links := r.links[p := r.links[p].(outgoing := false)]), sent, tasks, centre, nbrs)
  {
  }

  lemma SiteResume(s: State, t: Task, centre: PeerId, nbrs: seq<PeerId>)
    requires Inv(s) && t in s.tasks && t.relay in s.relays && s.relays[t.relay].parent.Done()
    requires Progress(s.relays[t.relay], s.sent, s.tasks, centre, nbrs)
    ensures SiteOk(s, Resume(t), OnResume(s.relays[t.relay], t.sender), centre, nbrs)
  {
    var r := s.relays[t.relay];
    assert Expects(s, t.relay, t.sender);
    if !Covered(r, centre) { OnlyParentOnline(s, t.relay); }
    var turned := r.(links := r.links[t.sender := r.links[t.sender].(outgoing := false)]);
    TurnedCard(r, t.sender);
    TurnedProgress(r, t.sender, s.sent, s.tasks, centre, nbrs);
    ForwardProgress(turned, t.sender, s.sent, s.tasks, s.tasks - multiset{t}, centre, nbrs);
  }

  lemma SiteDeliver(s: State, m: Message, centre: PeerId, nbrs: seq<PeerId>)
    requires m.dst in s.relays && s.relays[m.dst].id == m.dst && WellFormed(s.relays[m.dst])
    requires Progress(s.relays[m.dst], s.sent, s.tasks, centre, nbrs)
    requires m.Reject? ==> Check(m.dst, m.src) in s.sent
    requires m.dst == centre ==> s.relays[m.dst].parent.Root?
    ensures SiteOk(s, Deliver(m), Handle(s.relays[m.dst], m), centre, nbrs)
  {
    match m
    case Check(a, u) => SiteCheck(s, a, u, centre, nbrs);
    case Reject(a, u) => SiteReject(s, a, u, centre, nbrs);
    case Upgrade(a, u) => SiteUpgrade(s, a, u, centre, nbrs);
    case Dial(a, u) => SiteDial(s, a, u, centre, nbrs);
    case LinkOk(a, u) => SiteLinkOk(s, a, u, centre, nbrs);
  }

  lemma SiteProgress(centre: PeerId, s: State, e: Event, adj: Adjacency)
    requires SpanInv(s, centre, adj) && Regular(s, e) && Enabled(centre, s, e)
    ensures var u := Site(centre, e); SiteOk(s, e, React(s.relays[u], e), centre, adj[u])
  {
    var u := Site(centre, e);
    assert Progress(s.relays[u], s.sent, s.tasks, centre, adj[u]);
    match e
    case Deliver(m) => SiteDeliver(s, m, centre, adj[u]);
    case Start =>
      assert !Linked(adj, centre, centre);
      SiteStart(s, centre, adj[u]);
    case Resume(t) => SiteResume(s, t, centre, adj[u]);
  }

  /** A step at another relay leaves the progress of this one alone. */
  lemma OtherProgress(r: Relay, sent: set<Message>, sends: set<Message>, tasks: multiset<Task>, tasks': multiset<Task>,
                      centre: PeerId, nbrs: seq<PeerId>, u: PeerId)
    requires Progress(r, sent, tasks, centre, nbrs) && r.id != u
    requires forall m :: m in sends ==> m.src == u
    requires forall b :: Task(r.id, b) in tasks ==> Task(r.id, b) in tasks'
    ensures Progress(r, sent + sends, tasks', centre, nbrs)
  {
    if HasTask(tasks, r.id) {
      var b :| Task(r.id, b) in tasks;
      assert Task(r.id, b) in tasks';
    }
  }

  lemma OutcomeElsewhere(s: State, e: Event, o: Outcome, u: PeerId, r: Relay, centre: PeerId, nbrs: seq<PeerId>)
    requires Progress(r, s.sent, s.tasks, centre, nbrs) && r.id != u && Regular(s, e) && Site(centre, e) == u
    requires forall m :: m in o.sends ==> m.src == u
    ensures SiteOk(s, e, o.(relay := r), centre, nbrs)
  {
    forall b | Task(r.id, b) in s.tasks ensures Task(r.id, b) in TasksAfter(s, e, o) {}
    OtherProgress(r, s.sent, o.sends, s.tasks, TasksAfter(s, e, o), centre, nbrs, u);
  }

  lemma SendsFromSite(centre: PeerId, s: State, e: Event)
    requires Inv(s) && Enabled(centre, s, e)
    ensures var u := Site(centre, e); forall m :: m in React(s.relays[u], e).sends ==> m.src == u
  {
    ReactLegal(centre, s, e);
    var u := Site(centre, e);
    var o := React(s.relays[u], e);
    forall m | m in o.sends ensures m.src == u { assert MaySend(s, u, o.relay, m); }
  }

  lemma ProgressKeptElsewhere(centre: PeerId, s: State, e: Event, adj: Adjacency, w: PeerId)
    requires SpanInv(s, centre, adj) && Regular(s, e) && Enabled(centre, s, e) && w in adj && w != Site(centre, e)
    ensures var s' := Next(centre, s, e); Progress(s'.relays[w], s'.sent, s'.tasks, centre, adj[w])
  {
    var u := Site(centre, e);
    var o := React(s.relays[u], e);
    SendsFromSite(centre, s, e);
    OutcomeElsewhere(s, e, o, u, s.relays[w], centre, adj[w]);
  }

  ghost predicate ProgressAt(s: State, centre: PeerId, adj: Adjacency, w: PeerId) {
    w in s.relays && w in adj && Progress(s.relays[w], s.sent, s.tasks, centre, adj[w])
  }

  lemma ProgressKeptAt(centre: PeerId, s: State, e: Event, adj: Adjacency, w: PeerId)
    requires SpanInv(s, centre, adj) && Regular(s, e) && Enabled(centre, s, e) && w in adj
    ensures ProgressAt(Next(centre, s, e), centre, adj, w)
  {
    if w == Site(centre, e) {
      SiteProgress(centre, s, e, adj);
    } else {
      ProgressKeptElsewhere(centre, s, e, adj, w);
    }
  }

  lemma ProgressKept(centre: PeerId, s: State, e: Event, s': State, adj: Adjacency)
    requires SpanInv(s, centre, adj) && Regular(s, e) && Steps(centre, s, e, s') && s'.relays.Keys == adj.Keys
    ensures AllProgress(s', centre, adj)
  {
    forall w | w in adj ensures Progress(s'.relays[w], s'.sent, s'.tasks, centre, adj[w]) {
      ProgressKeptAt(centre, s, e, adj, w);
      assert ProgressAt(s', centre, adj, w);
    }
  }

  // ---- answers -------------------------------------------------------------

  /** Only an incoming stream or a resumed check of the same peer touches a link. */
  lemma StreamStays(s: State, r: Relay, e: Event, a: PeerId)
    requires HasStream(r, a) && Regular(s, e)
    requires e.Deliver? && e.m.Dial? ==> e.m.src != a
    requires e.Resume? ==> e.t.sender != a
    ensures HasStream(React(r, e).relay, a)
  {
  }

  /** A stream to a child stays: the child is no peer whose check was accepted. */
  lemma FeedsStays(centre: PeerId, s: State, e: Event, b: PeerId, a: PeerId)
    requires Inv(s) && Enabled(centre, s, e) && Regular(s, e) && Feeds(s, b, a)
    ensures Feeds(Next(centre, s, e), b, a)
  {
    assert HasSocket(s, b, a, Dialed);
    DialledIsChild(s, b, a);
    if b == Site(centre, e) {
      if e.Deliver? && e.m.Dial? { DialComesFromExpected(s, e.m); }
      if e.Resume? { assert Expects(s, e.t.relay, e.t.sender); }
      StreamStays(s, s.relays[b], e, a);
    }
  }

  lemma DialComesFromExpected(s: State, m: Message)
    requires Inv(s) && m in s.sent && m.Dial?
    ensures Expects(s, m.dst, m.src)
  {
    assert Justified(s, m) && Justified(s, Upgrade(m.dst, m.src));
  }

  lemma AnswerStays(centre: PeerId, s: State, e: Event, m: Message)
    requires Inv(s) && Enabled(centre, s, e) && Regular(s, e) && Answered(s, m)
    ensures Answered(Next(centre, s, e), m)
  {
    match m
    case Check(a, b) => StepGrows(centre, s, e, Next(centre, s, e), b);
    case Reject(_, _) =>
    case Upgrade(a, _) => if Done(s, a) { StepGrows(centre, s, e, Next(centre, s, e), a); }
    case Dial(_, b) => StepGrows(centre, s, e, Next(centre, s, e), b);
    case LinkOk(a, b) => FeedsStays(centre, s, e, b, a);
  }

  /** A relay without a parent that gets the tree check of a neighbour accepts it, or
      has accepted as many as it can before. */
  lemma PendingAnswers(s: State, centre: PeerId, adj: Adjacency, a: PeerId, u: PeerId)
    requires SpanInv(s, centre, adj) && Check(a, u) in s.sent && u in s.relays && s.relays[u].parent.Pending?
    ensures OnCheck(s.relays[u], a).relay.expected != {}
    ensures Rejects(s.relays[u], a) ==> |s.relays[u].expected| > s.relays[u].fanout
  {
    var r := s.relays[u];
    assert Justified(s, Check(a, u));
    assert a in adj && u in s.relays[a].links && u in adj[a];
    assert Linked(adj, a, u) && Linked(adj, u, a);
    assert forall b :: Check(u, b) in s.sent ==> Justified(s, Check(u, b));
    assert r.active == r.expected;
  }

  /** The relay that sent a check dials when asked to, unless the asker is served. */
  lemma UpgradeDials(s: State, centre: PeerId, adj: Adjacency, a: PeerId, u: PeerId)
    requires SpanInv(s, centre, adj) && Upgrade(a, u) in s.sent && u in s.relays && !Done(s, a)
    ensures OnUpgrade(s.relays[u], a).sends == {Dial(u, a)}
  {
    assert Justified(s, Upgrade(a, u));
    assert Check(u, a) in s.sent && Justified(s, Check(u, a));
    DialledAreDone(s);
    assert !HasSocket(s, u, a, Dialed) && !IsChild(s, u, a) && SocketOk(s, u, a);
  }

  lemma DialledAreDone(s: State)
    requires Inv(s)
    ensures forall u, b :: HasSocket(s, u, b, Dialed) ==> Done(s, b)
  {
    forall u, b | HasSocket(s, u, b, Dialed) ensures Done(s, b) { DialledIsChild(s, u, b); }
  }

  lemma DialCompletes(s: State, a: PeerId, u: PeerId)
    requires Inv(s) && Dial(a, u) in s.sent && u in s.relays
    ensures OnDial(s.relays[u], a).relay.parent.Done()
  {
    assert Justified(s, Dial(a, u)) && Justified(s, Upgrade(u, a));
    assert SocketOk(s, u, a);
    NeverDialsExpected(s);
    assert !HasSocket(s, u, a, Dialed);
  }

  lemma DeliveryAnswers(centre: PeerId, s: State, m: Message, adj: Adjacency)
    requires SpanInv(s, centre, adj) && Enabled(centre, s, Deliver(m)) && m !in s.handled
    ensures Answered(Next(centre, s, Deliver(m)), m)
  {
    match m
    case Check(a, u) => if s.relays[u].parent.Pending? { PendingAnswers(s, centre, adj, a, u); }
    case Reject(_, _) =>
    case Upgrade(a, u) => if !Done(s, a) { UpgradeDials(s, centre, adj, a, u); } else { AnswerStays(centre, s, Deliver(m), m); }
    case Dial(a, u) => DialCompletes(s, a, u);
    case LinkOk(a, u) => LinkOkFeeds(centre, s, a, u);
  }

  lemma LinkOkFeeds(centre: PeerId, s: State, a: PeerId, u: PeerId)
    requires Inv(s) && Enabled(centre, s, Deliver(LinkOk(a, u)))
    ensures Feeds(Next(centre, s, Deliver(LinkOk(a, u))), u, a)
  {
    assert Justified(s, LinkOk(a, u));
    ChildWasChecked(s, u, a);
    assert Justified(s, Check(u, a));
  }

  lemma RejectsKept(centre: PeerId, s: State, e: Event, s': State)
    requires Inv(s) && Steps(centre, s, e, s') && RejectsAnswerChecks(s)
    ensures RejectsAnswerChecks(s')
  {
    ReactLegal(centre, s, e);
    var u := Site(centre, e);
    var o := React(s.relays[u], e);
    forall a, b | Reject(a, b) in s'.sent ensures Check(b, a) in s'.sent {
      if Reject(a, b) !in s.sent { assert MaySend(s, u, o.relay, Reject(a, b)); }
    }
  }

  lemma AnswersKept(centre: PeerId, s: State, e: Event, s': State, adj: Adjacency)
    requires SpanInv(s, centre, adj) && Steps(centre, s, e, s') && Regular(s, e)
    ensures AllAnswered(s')
  {
    forall m | m in s'.handled ensures Answered(s', m) {
      if m in s.handled { AnswerStays(centre, s, e, m); } else { DeliveryAnswers(centre, s, m, adj); }
    }
  }

  lemma TasksComeFromChecks(s: State)
    requires Inv(s)
    ensures forall t :: t in s.tasks ==> Check(t.sender, t.relay) in s.sent
  {
    forall t | t in s.tasks ensures Check(t.sender, t.relay) in s.sent { assert Expects(s, t.relay, t.sender); }
  }

  lemma CentreFirstKept(centre: PeerId, s: State, e: Event, s': State)
    requires Inv(s) && centre in s.relays && Steps(centre, s, e, s') && Regular(s, e) && CentreFirst(s, centre)
    ensures centre in s'.relays && CentreFirst(s', centre)
  {
    if s.relays[centre].parent.Root? {
      ReactLegal(centre, s, e);
    } else {
      TasksComeFromChecks(s);
    }
  }

  lemma StepShape(centre: PeerId, s: State, e: Event, s': State)
    requires centre in s.relays && Steps(centre, s, e, s') && s.handled <= s.sent
    ensures s'.relays.Keys == s.relays.Keys && s'.handled <= s'.sent
  {
  }

  lemma StepKeepsSpanInv(centre: PeerId, s: State, e: Event, s': State, adj: Adjacency)
    requires SpanInv(s, centre, adj) && Regular(s, e) && Steps(centre, s, e, s')
    ensures SpanInv(s', centre, adj)
  {
    StepKeepsInv(centre, s, e);
    RejectsKept(centre, s, e, s');
    CentreFirstKept(centre, s, e, s');
    StepShape(centre, s, e, s');
    ProgressKept(centre, s, e, s', adj);
    AnswersKept(centre, s, e, s', adj);
  }

  lemma RunKeepsSpanInv(centre: PeerId, adj: Adjacency, states: seq<State>, events: seq<Event>, k: nat)
    requires RegularRun(centre, states, events) && SpanInv(states[0], centre, adj) && k < |states|
    ensures SpanInv(states[k], centre, adj)
  {
    var inv := s => SpanInv(s, centre, adj);
    var allowed := (s, e) => Regular(s, e);
    forall s, e, s' | inv(s) && allowed(s, e) && Steps(centre, s, e, s') ensures inv(s') {
      StepKeepsSpanInv(centre, s, e, s', adj);
    }
    InductionOverRun(centre, states, events, allowed, inv, k);
  }

  // ---- where regular runs stop ---------------------------------------------

  lemma DestinationKnown(s: State, centre: PeerId, adj: Adjacency, m: Message)
    requires SpanInv(s, centre, adj) && m in s.sent
    ensures m.dst in s.relays
  {
    assert Justified(s, m);
    match m
    case Check(a, b) => assert Linked(adj, a, b);
    case Reject(_, _) =>
    case Upgrade(a, b) => assert Justified(s, Check(b, a));
    case Dial(a, b) => assert Justified(s, Upgrade(b, a));
    case LinkOk(a, b) => assert Expects(s, a, b) && Justified(s, Check(b, a));
  }

  lemma QuiescentHandled(s: State, centre: PeerId, adj: Adjacency, m: Message)
    requires SpanInv(s, centre, adj) && Quiescent(centre, s) && m in s.sent
    ensures m in s.handled && Answered(s, m)
  {
    DestinationKnown(s, centre, adj, m);
    assert Regular(s, Deliver(m)) ==> !Enabled(centre, s, Deliver(m));
  }

  lemma QuiescentCovered(s: State, centre: PeerId, adj: Adjacency, u: PeerId)
    requires SpanInv(s, centre, adj) && Quiescent(centre, s) && Done(s, u)
    ensures Covered(s.relays[u], centre)
  {
    if HasTask(s.tasks, u) {
      var b :| Task(u, b) in s.tasks;
      assert Regular(s, Resume(Task(u, b))) && Enabled(centre, s, Resume(Task(u, b)));
    }
  }

  lemma AcceptedIsDone(s: State, centre: PeerId, adj: Adjacency, v: PeerId)
    requires SpanInv(s, centre, adj) && Quiescent(centre, s) && HasAccepted(s, v)
    ensures Done(s, v)
  {
    var x :| x in s.relays[v].expected;
    assert Progress(s.relays[v], s.sent, s.tasks, centre, adj[v]);
    QuiescentHandled(s, centre, adj, Upgrade(v, x));
    if !Done(s, v) { QuiescentHandled(s, centre, adj, Dial(x, v)); }
  }

  /** A check that was sent ends in a parent at its receiver. */
  lemma CheckedIsDone(s: State, centre: PeerId, adj: Adjacency, u: PeerId, v: PeerId)
    requires SpanInv(s, centre, adj) && Quiescent(centre, s) && Check(u, v) in s.sent
    ensures Done(s, v)
  {
    QuiescentHandled(s, centre, adj, Check(u, v));
    if !Done(s, v) { AcceptedIsDone(s, centre, adj, v); }
  }

  lemma ActiveIsDone(s: State, centre: PeerId, adj: Adjacency, u: PeerId, v: PeerId)
    requires SpanInv(s, centre, adj) && Quiescent(centre, s) && u in s.relays && v in s.relays[u].active
    ensures Done(s, v)
  {
    assert Progress(s.relays[u], s.sent, s.tasks, centre, adj[u]);
    if Expects(s, u, v) {
      assert Justified(s, Check(v, u));
    } else {
      CheckedIsDone(s, centre, adj, u, v);
    }
  }

  lemma AskedIsActive(r: Relay, centre: PeerId, adj: Adjacency, fanout: nat, v: PeerId)
    requires r.id in adj && r.order == adj[r.id] && r.fanout == Min(|adj[r.id]|, fanout) && Covered(r, centre)
    requires v in Asked(adj, centre, fanout)[r.id]
    ensures v in r.active
  {
    var k :| 0 <= k < |Asked(adj, centre, fanout)[r.id]| && Asked(adj, centre, fanout)[r.id][k] == v;
    assert k < Reach(r, centre) && r.order[k] == v;
  }

  lemma AskedIsDone(s: State, centre: PeerId, adj: Adjacency, fanout: nat, u: PeerId, v: PeerId)
    requires SpanInv(s, centre, adj) && HasFanout(s, adj, fanout) && Quiescent(centre, s)
    requires u in adj && Done(s, u) && v in Asked(adj, centre, fanout)[u]
    ensures Done(s, v)
  {
    QuiescentCovered(s, centre, adj, u);
    assert Progress(s.relays[u], s.sent, s.tasks, centre, adj[u]);
    AskedIsActive(s.relays[u], centre, adj, fanout, v);
    ActiveIsDone(s, centre, adj, u, v);
  }

  lemma {:induction false} WalkIsDone(s: State, asked: Adjacency, path: seq<PeerId>, i: nat)
    requires forall u, v :: Linked(asked, u, v) && Done(s, u) ==> Done(s, v)
    requires Walk(asked, path) && Done(s, path[0]) && i < |path|
    ensures Done(s, path[i])
  {
    if i > 0 {
      WalkIsDone(s, asked, path, i - 1);
      assert Linked(asked, path[i - 1], path[i]);
    }
  }

  lemma ReachedHasParent(s: State, centre: PeerId, adj: Adjacency, fanout: nat, u: PeerId)
    requires SpanInv(s, centre, adj) && HasFanout(s, adj, fanout) && Quiescent(centre, s)
    requires Reaches(Asked(adj, centre, fanout), centre, u)
    ensures Done(s, u) && (u != centre ==> s.relays[u].parent.Parent?)
  {
    var asked := Asked(adj, centre, fanout);
    assert Regular(s, Start) ==> !Enabled(centre, s, Start);
    forall a, b | Linked(asked, a, b) && Done(s, a) ensures Done(s, b) { AskedIsDone(s, centre, adj, fanout, a, b); }
    var path :| WalkBetween(asked, path, centre, u);
    WalkIsDone(s, asked, path, |path| - 1);
    assert Progress(s.relays[u], s.sent, s.tasks, centre, adj[u]);
  }

  /** Who is done hangs under the centre: nobody gives up in a regular run. */
  lemma DoneHangsUnder(s: State, centre: PeerId, adj: Adjacency, rank: map<PeerId, nat>, u: PeerId)
    requires SpanInv(s, centre, adj) && Ranked(s, rank) && Done(s, u)
    ensures HangsUnder(s, centre, u)
  {
    var path := Climb(s, rank, u);
    var top := path[|path| - 1];
    assert Progress(s.relays[top], s.sent, s.tasks, centre, adj[top]);
  }

  /** Tree edges are overlay edges. */
  lemma ParentIsNeighbour(s: State, centre: PeerId, adj: Adjacency, a: PeerId, b: PeerId)
    requires SpanInv(s, centre, adj) && IsChild(s, a, b)
    ensures Linked(adj, a, b)
  {
    assert Expects(s, a, b);
    assert Progress(s.relays[a], s.sent, s.tasks, centre, adj[a]);
  }

  ghost function WithParent(s: State): set<PeerId> { set u | u in s.relays && s.relays[u].parent.Parent? }

  ghost predicate HangsUnder(s: State, centre: PeerId, u: PeerId) {
    exists path :: LeadsUp(s, path) && path[0] == u && path[|path| - 1] == centre
  }

  lemma RunKeepsFanout(centre: PeerId, adj: Adjacency, fanout: nat, states: seq<State>, events: seq<Event>, k: nat)
    requires RegularRun(centre, states, events) && HasFanout(states[0], adj, fanout) && k < |states|
    requires forall u :: u in adj ==> !states[0].relays[u].phase.SessionInit?
    ensures HasFanout(states[k], adj, fanout)
  {
    var inv := s => HasFanout(s, adj, fanout);
    var allowed := (s, e) => Regular(s, e);
    forall s, e, s' | inv(s) && allowed(s, e) && Steps(centre, s, e, s') ensures inv(s') {
      StepKeepsFanout(centre, s, e, s');
    }
    InductionOverRun(centre, states, events, allowed, inv, k);
  }

  lemma StepKeepsFanout(centre: PeerId, s: State, e: Event, s': State)
    requires Regular(s, e) && Steps(centre, s, e, s')
    ensures forall u :: u in s.relays ==> u in s'.relays && s'.relays[u].fanout == s.relays[u].fanout
  {
  }

  /** What holds in the last state of a regular run that starts ready. */
  lemma FormationInv(centre: PeerId, adj: Adjacency, fanout: nat, states: seq<State>, events: seq<Event>)
    returns (rank: map<PeerId, nat>)
    requires RegularRun(centre, states, events) && Ready(states[0], centre, adj, fanout)
    ensures var s := states[|events|]; SpanInv(s, centre, adj) && HasFanout(s, adj, fanout) && Ranked(s, rank)
  {
    var n := |events|;
    ReadyStarts(states[0], centre, adj, fanout);
    RunKeepsSpanInv(centre, adj, states, events, n);
    RunKeepsFanout(centre, adj, fanout, states, events, n);
    rank := RunIsRankedFrom(centre, states, events, n, map u | u in states[0].relays :: 0);
  }

  /** Where a regular run stops, on any overlay: every relay that can be reached by
      asking is done and hangs under the centre, tree edges are overlay edges, forward
      links are children, and when asking reaches all there are exactly as many parent
      edges as relays but one. */
  lemma FormationReaches(centre: PeerId, adj: Adjacency, fanout: nat, states: seq<State>, events: seq<Event>)
    requires RegularRun(centre, states, events) && Ready(states[0], centre, adj, fanout)
    requires Quiescent(centre, states[|events|])
    ensures var s, asked := states[|events|], Asked(adj, centre, fanout);
      && (forall u :: Reaches(asked, centre, u) ==> Done(s, u) && HangsUnder(s, centre, u))
      && (forall u :: Reaches(asked, centre, u) && u != centre ==> s.relays[u].parent.Parent?)
      && (forall a, b :: IsChild(s, a, b) ==> Linked(adj, a, b))
      && (forall a :: a in s.relays ==> ForwardLinks(s.relays[a], s.relays[a].parent) == ChildrenOf(s, a))
      && ((forall u :: u in adj ==> Reaches(asked, centre, u)) ==> |WithParent(s)| == |adj| - 1)
  {
    var s, asked := states[|events|], Asked(adj, centre, fanout);
    var rank := FormationInv(centre, adj, fanout, states, events);
    forall u | Reaches(asked, centre, u)
      ensures Done(s, u) && HangsUnder(s, centre, u) && (u != centre ==> s.relays[u].parent.Parent?)
    {
      ReachedHasParent(s, centre, adj, fanout, u);
      DoneHangsUnder(s, centre, adj, rank, u);
    }
    forall a, b | IsChild(s, a, b) ensures Linked(adj, a, b) { ParentIsNeighbour(s, centre, adj, a, b); }
    forall a | a in s.relays ensures ForwardLinks(s.relays[a], s.relays[a].parent) == ChildrenOf(s, a) {
      ForwardsToAllChildren(s, centre, adj, a);
    }
    if forall u :: u in adj ==> Reaches(asked, centre, u) { CountEdges(s, centre, adj, fanout); }
  }

  /** When no relay has more neighbours than it asks, this is the whole part of the
      overlay that is connected to the centre. */
  lemma FormationSpans(centre: PeerId, adj: Adjacency, fanout: nat, states: seq<State>, events: seq<Event>)
    requires RegularRun(centre, states, events) && Ready(states[0], centre, adj, fanout)
    requires Bounded(adj, centre, fanout) && Quiescent(centre, states[|events|])
    ensures var s := states[|events|];
      && (forall u :: Reaches(adj, centre, u) ==> Done(s, u) && HangsUnder(s, centre, u))
      && (forall u :: Reaches(adj, centre, u) && u != centre ==> s.relays[u].parent.Parent?)
      && (forall a, b :: IsChild(s, a, b) ==> Linked(adj, a, b))
      && (forall a :: a in s.relays ==> ForwardLinks(s.relays[a], s.relays[a].parent) == ChildrenOf(s, a))
      && ((forall u :: u in adj ==> Reaches(adj, centre, u)) ==> |WithParent(s)| == |adj| - 1)
  {
    AllAsked(adj, centre, fanout);
    FormationReaches(centre, adj, fanout, states, events);
  }

  lemma AllAsked(adj: Adjacency, centre: PeerId, fanout: nat)
    requires Bounded(adj, centre, fanout)
    ensures Asked(adj, centre, fanout) == adj
  {
    forall u | u in adj ensures Asked(adj, centre, fanout)[u] == adj[u] {}
  }

  ghost function ChildrenOf(s: State, a: PeerId): set<PeerId> { set b | b in s.relays && IsChild(s, b, a) }

  /** Where a regular run stops, a relay forwards data to its children, all of them
      and nobody else. */
  lemma ForwardsToAllChildren(s: State, centre: PeerId, adj: Adjacency, a: PeerId)
    requires SpanInv(s, centre, adj) && Quiescent(centre, s) && a in s.relays
    ensures ForwardLinks(s.relays[a], s.relays[a].parent) == ChildrenOf(s, a)
  {
    var out := ForwardLinks(s.relays[a], s.relays[a].parent);
    forall b | b in out ensures b in ChildrenOf(s, a) {
      assert SocketOk(s, a, b);
      assert HasSocket(s, a, b, Dialed);
      DialledIsChild(s, a, b);
      ParentIsNeighbour(s, centre, adj, b, a);
    }
    forall b | b in ChildrenOf(s, a) ensures b in out {
      assert Progress(s.relays[b], s.sent, s.tasks, centre, adj[b]);
      QuiescentHandled(s, centre, adj, LinkOk(b, a));
      ChildWasChecked(s, a, b);
      assert !IsChild(s, a, b);
    }
  }

  lemma ChildrenCost(s: State)
    requires Inv(s)
    ensures forall a, b :: IsChild(s, a, b) ==> Check(b, a) in s.sent
  {
    forall a, b | IsChild(s, a, b) ensures Check(b, a) in s.sent { assert Expects(s, a, b); }
  }

  lemma CountEdges(s: State, centre: PeerId, adj: Adjacency, fanout: nat)
    requires SpanInv(s, centre, adj) && HasFanout(s, adj, fanout) && Quiescent(centre, s)
    requires forall u :: u in adj ==> Reaches(Asked(adj, centre, fanout), centre, u)
    ensures WithParent(s) == adj.Keys - {centre} && |WithParent(s)| == |adj| - 1
  {
    ChildrenCost(s);
    forall u | u in adj && u != centre ensures s.relays[u].parent.Parent? { ReachedHasParent(s, centre, adj, fanout, u); }
    assert Progress(s.relays[centre], s.sent, s.tasks, centre, adj[centre]);
    assert WithParent(s) == adj.Keys - {centre};
  }

  // ---- regular runs stop ---------------------------------------------------

  ghost function AllMessages(ids: set<PeerId>): set<Message> {
    (set a, b | a in ids && b in ids :: Check(a, b)) + (set a, b | a in ids && b in ids :: Reject(a, b))
    + (set a, b | a in ids && b in ids :: Upgrade(a, b)) + (set a, b | a in ids && b in ids :: Dial(a, b))
    + (set a, b | a in ids && b in ids :: LinkOk(a, b))
  }

  lemma MessageKnown(s: State, centre: PeerId, adj: Adjacency, m: Message)
    requires SpanInv(s, centre, adj) && m in s.sent
    ensures m in AllMessages(adj.Keys)
  {
    DestinationKnown(s, centre, adj, m);
    assert Justified(s, m);
    if m.Reject? { DestinationKnown(s, centre, adj, Check(m.dst, m.src)); }
    if m.Dial? { DestinationKnown(s, centre, adj, Upgrade(m.dst, m.src)); }
    assert m.src in adj && m.dst in adj;
  }

  /** How many more steps a regular run can take. */
  ghost function Budget(s: State, centre: PeerId, all: set<Message>): nat {
    2 * |all - s.handled| + |s.tasks| + (if centre in s.relays && s.relays[centre].parent.Pending? then 1 else 0)
  }

  lemma DoneStays(centre: PeerId, s: State, e: Event, s': State)
    requires Inv(s) && centre in s.relays && Steps(centre, s, e, s')
    ensures centre in s'.relays && (s'.relays[centre].parent.Pending? ==> s.relays[centre].parent.Pending?)
  {
    StepGrows(centre, s, e, s', centre);
  }

  lemma StepSpendsBudget(centre: PeerId, s: State, e: Event, s': State, all: set<Message>)
    requires Inv(s) && centre in s.relays && Regular(s, e) && Steps(centre, s, e, s')
    requires e.Deliver? ==> e.m in all
    ensures Budget(s', centre, all) < Budget(s, centre, all)
  {
    DoneStays(centre, s, e, s');
    if e.Deliver? {
      assert all - s.handled == (all - s'.handled) + {e.m};
    } else if e.Start? {
      assert s'.relays[centre].parent.Done();
    }
  }

  lemma RegularStep(centre: PeerId, adj: Adjacency, s: State, e: Event, s': State)
    requires SpanInv(s, centre, adj) && Regular(s, e) && Steps(centre, s, e, s')
    ensures SpanInv(s', centre, adj)
    ensures Budget(s', centre, AllMessages(adj.Keys)) < Budget(s, centre, AllMessages(adj.Keys))
  {
    StepKeepsSpanInv(centre, s, e, s', adj);
    if e.Deliver? { MessageKnown(s, centre, adj, e.m); }
    StepSpendsBudget(centre, s, e, s', AllMessages(adj.Keys));
  }

  lemma SpanInvSpends(centre: PeerId, adj: Adjacency, states: seq<State>, events: seq<Event>)
    requires RegularRun(centre, states, events) && SpanInv(states[0], centre, adj)
    ensures |events| <= Budget(states[0], centre, AllMessages(adj.Keys))
  {
    var inv := s => SpanInv(s, centre, adj);
    var allowed := (s, e) => Regular(s, e);
    var cost := s => Budget(s, centre, AllMessages(adj.Keys));
    forall s, e, s' | inv(s) && allowed(s, e) && Steps(centre, s, e, s') ensures inv(s') && cost(s') < cost(s) {
      RegularStep(centre, adj, s, e, s');
    }
    BudgetOverRun(centre, states, events, allowed, inv, cost, |events|);
  }

  lemma SilentBudget(s: State, centre: PeerId, all: set<Message>)
    requires s.handled == {} && s.tasks == multiset{}
    ensures Budget(s, centre, all) <= 2 * |all| + 1
  {
    assert all - s.handled == all;
  }

  /** Every regular run is over after a bounded number of steps. */
  lemma FormationTerminates(centre: PeerId, adj: Adjacency, fanout: nat, states: seq<State>, events: seq<Event>)
    requires RegularRun(centre, states, events) && Ready(states[0], centre, adj, fanout)
    ensures |events| <= 2 * |AllMessages(adj.Keys)| + 1
  {
    ReadyStarts(states[0], centre, adj, fanout);
    SpanInvSpends(centre, adj, states, events);
    SilentBudget(states[0], centre, AllMessages(adj.Keys));
  }

  /** One more step at the end of a run. */
  lemma RunExtends(centre: PeerId, states: seq<State>, events: seq<Event>, e: Event, s': State)
    requires RegularRun(centre, states, events)
    requires Regular(states[|events|], e) && Steps(centre, states[|events|], e, s')
    ensures RegularRun(centre, states + [s'], events + [e])
  {
    var states', events' := states + [s'], events + [e];
    forall i {:trigger events'[i]} | 0 <= i < |events'|
      ensures Steps(centre, states'[i], events'[i], states'[i + 1]) && Regular(states'[i], events'[i])
    {
      if i < |events| {
        var allowed := (s, e) => Regular(s, e);
        assert allowed(states[i], events[i]);
        assert Steps(centre, states[i], events[i], states[i + 1]);
      }
    }
  }

  ghost function Left(centre: PeerId, adj: Adjacency, states: seq<State>): nat
    requires states != []
  {
    Budget(states[|states| - 1], centre, AllMessages(adj.Keys))
  }

  lemma RunGoesOn(centre: PeerId, adj: Adjacency, states: seq<State>, events: seq<Event>)
    returns (states': seq<State>, events': seq<Event>)
    requires RegularRun(centre, states, events) && SpanInv(states[0], centre, adj)
    requires !Quiescent(centre, states[|events|])
    ensures RegularRun(centre, states', events') && Left(centre, adj, states') < Left(centre, adj, states)
    ensures states <= states' && events <= events' && states'[0] == states[0]
  {
    var s := states[|events|];
    RunKeepsSpanInv(centre, adj, states, events, |events|);
    var e :| Regular(s, e) && Enabled(centre, s, e);
    var s' := Next(centre, s, e);
    RegularStep(centre, adj, s, e, s');
    RunExtends(centre, states, events, e, s');
    states', events' := states + [s'], events + [e];
  }

  lemma {:induction false} RunCanFinish(centre: PeerId, adj: Adjacency, states: seq<State>, events: seq<Event>)
    returns (states': seq<State>, events': seq<Event>)
    requires RegularRun(centre, states, events) && SpanInv(states[0], centre, adj)
    ensures RegularRun(centre, states', events') && Quiescent(centre, states'[|events'|])
    ensures states <= states' && events <= events'
    decreases Left(centre, adj, states)
  {
    states', events' := states, events;
    if !Quiescent(centre, states[|events|]) {
      var states1, events1 := RunGoesOn(centre, adj, states, events);
      states', events' := RunCanFinish(centre, adj, states1, events1);
    }
  }

  /** No regular run is ever stuck short of the tree: each can be continued to a
      quiescent one, where `FormationReaches` applies. */
  lemma FormationCanFinish(centre: PeerId, adj: Adjacency, fanout: nat, states: seq<State>, events: seq<Event>)
    requires RegularRun(centre, states, events) && Ready(states[0], centre, adj, fanout)
    ensures exists states', events' ::
      && states <= states' && events <= events'
      && RegularRun(centre, states', events') && Quiescent(centre, states'[|events'|])
      && forall u :: Reaches(Asked(adj, centre, fanout), centre, u) ==> HangsUnder(states'[|events'|], centre, u)
  {
    ReadyStarts(states[0], centre, adj, fanout);
    var states', events' := RunCanFinish(centre, adj, states, events);
    assert states'[0] == states[0];
    FormationReaches(centre, adj, fanout, states', events');
  }
}
