/** Spanning formations in which waits time out and datagrams come late, twice or in any
    order: whoever is done has asked its first neighbours, every handled message has had its
    effect, and where nothing is left to do everyone who was to be asked has found a parent or
    given up (src/transfers/otm/palm_tree.py:193-514). */
module PalmTreeTimeouts {
  import opened Arithmetic
  import opened Peers
  import opened RelayModel
  import opened Overlay
  import opened PalmTreeNetwork
  import opened PalmTreeForest
  import opened PalmTreeSpanning

  // ---- one relay -----------------------------------------------------------

  /** The first `fanout` neighbours are active. */
  ghost predicate AskedFirst(r: Relay) {
    forall k :: 0 <= k < |r.order| && k < r.fanout ==> r.order[k] in r.active
  }

  /** It is done but has not forwarded: it will when its wait is over, unless it was closed
      while it had no parent. */
  ghost predicate StillToAsk(r: Relay, sent: set<Message>, tasks: multiset<Task>, closable: bool) {
    && r.window == 0 && NoChecksFrom(sent, r.id)
    && if r.parent.GivenUp? then closable else HasTask(tasks, r.id)
  }

  ghost predicate Shape(r: Relay, nbrs: seq<PeerId>, fanout: nat) {
    r.order == nbrs && r.fanout == Min(|nbrs|, fanout) && !r.phase.SessionInit? && |r.expected| <= r.fanout + 1
  }

  ghost predicate ActiveJustified(r: Relay, sent: set<Message>) {
    forall b :: b in r.active ==> b in r.expected || Check(r.id, b) in sent
  }

  ghost predicate PendingWaits(r: Relay, tasks: multiset<Task>) {
    r.parent.Pending? ==> r.window == 0 && forall b :: b in r.expected ==> Task(r.id, b) in tasks
  }

  ghost predicate Asks(r: Relay, sent: set<Message>, tasks: multiset<Task>, nbrs: seq<PeerId>, fanout: nat, closable: bool) {
    && Shape(r, nbrs, fanout) && ActiveJustified(r, sent) && PendingWaits(r, tasks)
    && (r.parent.Done() ==> AskedFirst(r) || StillToAsk(r, sent, tasks, closable))
  }

  ghost predicate AsksAt(s: State, e: Event, o: Outcome, nbrs: seq<PeerId>, fanout: nat, closable: bool) {
    Asks(o.relay, s.sent + o.sends, TasksAfter(s, e, o), nbrs, fanout, closable)
  }

  lemma PendingSentNoChecks(s: State, u: PeerId)
    requires Inv(s) && u in s.relays && s.relays[u].parent.Pending?
    ensures NoChecksFrom(s.sent, u)
  {
    assert forall x :: Check(u, x) in s.sent ==> Justified(s, Check(u, x));
  }

  /** The first window covers the first `fanout` neighbours. */
  lemma FirstForwardAsks(r: Relay, sender: PeerId)
    requires sender in r.active || sender !in r.order
    requires AskedFirst(r) || (r.window == 0 && r.fanout <= |r.order| && |OnlineOutgoing(r)| <= 1)
    ensures AskedFirst(Forward(r, sender).relay)
  {
    if !AskedFirst(r) { ForwardCovers(r, sender, r.id + 1); }
  }

  lemma ForwardKeepsBooks(r: Relay, sender: PeerId, sent: set<Message>)
    requires ActiveJustified(r, sent)
    ensures var o := Forward(r, sender);
      ActiveJustified(o.relay, sent + o.sends) && o.relay == r.(window := o.relay.window, active := o.relay.active)
  {
  }

  lemma ForwardAsks(r: Relay, sender: PeerId, sent: set<Message>, tasks: multiset<Task>, nbrs: seq<PeerId>,
                    fanout: nat, closable: bool, phase: Phase)
    requires Shape(r, nbrs, fanout) && ActiveJustified(r, sent) && r.parent.Done() && !phase.SessionInit?
    requires sender in r.active || sender !in r.order
    requires AskedFirst(r) || (r.window == 0 && |OnlineOutgoing(r)| <= 1)
    ensures var o := Forward(r, sender); Asks(o.relay.(phase := phase), sent + o.sends, tasks, nbrs, fanout, closable)
  {
    FirstForwardAsks(r, sender);
    ForwardKeepsBooks(r, sender, sent);
  }

  // ---- one step at its site --------------------------------------------------

  ghost predicate AsksIn(s: State, u: PeerId, nbrs: seq<PeerId>, fanout: nat, closable: bool) {
    u in s.relays && s.relays[u].id == u && Asks(s.relays[u], s.sent, s.tasks, nbrs, fanout, closable)
  }

  /** Links and messages other than checks do not matter. */
  lemma LinksDoNotAsk(r: Relay, links: map<PeerId, Link>, sent: set<Message>, sends: set<Message>, tasks: multiset<Task>,
                      nbrs: seq<PeerId>, fanout: nat, closable: bool)
    requires Asks(r, sent, tasks, nbrs, fanout, closable) && forall m :: m in sends ==> !m.Check?
    ensures Asks(r.(links := links), sent + sends, tasks, nbrs, fanout, closable)
  {
  }

  lemma AdmittedAsks(r: Relay, p: PeerId, sent: set<Message>, tasks: multiset<Task>, nbrs: seq<PeerId>, fanout: nat, closable: bool)
    requires Asks(r, sent, tasks, nbrs, fanout, closable) && r.parent.Pending? && |r.expected| <= r.fanout
    ensures Asks(r.(expected := r.expected + {p}, active := r.active + {p}), sent, tasks + multiset{Task(r.id, p)}, nbrs, fanout, closable)
  {
    SubsetCard(r.expected + {p} - r.expected, {p});
    assert r.expected + {p} == r.expected + (r.expected + {p} - r.expected);
  }

  lemma AsksOnCheck(s: State, a: PeerId, u: PeerId, nbrs: seq<PeerId>, fanout: nat, closable: bool)
    requires Inv(s) && AsksIn(s, u, nbrs, fanout, closable)
    ensures AsksAt(s, Deliver(Check(a, u)), OnCheck(s.relays[u], a), nbrs, fanout, closable)
  {
    var r := s.relays[u];
    if Rejects(r, a) {
      LinksDoNotAsk(r, r.links, s.sent, {Reject(u, a)}, s.tasks, nbrs, fanout, closable);
    } else {
      assert WellFormed(r);
      SubsetCard(r.expected, r.active);
      AdmittedAsks(r, a, s.sent, s.tasks, nbrs, fanout, closable);
      var r' := r.(expected := r.expected + {a}, active := r.active + {a});
      LinksDoNotAsk(r', r.links, s.sent, {Upgrade(u, a)}, s.tasks + multiset{Task(u, a)}, nbrs, fanout, closable);
    }
  }

  lemma FullIfAsked(r: Relay)
    requires AskedFirst(r) && Distinct(r.order) && r.fanout <= |r.order|
    ensures |r.active| >= r.fanout
  {
    CoveredIsFull(r, r.id + 1);
  }

  /** Whatever times out: a refused relay has already asked as many as it may. */
  lemma RefusedIsFull(s: State, a: PeerId, u: PeerId, nbrs: seq<PeerId>, fanout: nat, closable: bool)
    requires Inv(s) && AsksIn(s, u, nbrs, fanout, closable) && Check(u, a) in s.sent
    ensures OnReject(s.relays[u], a) == Outcome(s.relays[u], {}, false)
  {
    assert Justified(s, Check(u, a));
    FullIfAsked(s.relays[u]);
  }

  lemma AsksOnReject(s: State, a: PeerId, u: PeerId, nbrs: seq<PeerId>, fanout: nat, closable: bool)
    requires Inv(s) && AsksIn(s, u, nbrs, fanout, closable) && Check(u, a) in s.sent
    ensures AsksAt(s, Deliver(Reject(a, u)), OnReject(s.relays[u], a), nbrs, fanout, closable)
  {
    RefusedIsFull(s, a, u, nbrs, fanout, closable);
    assert s.sent + {} == s.sent;
  }

  lemma AsksOnUpgrade(s: State, a: PeerId, u: PeerId, nbrs: seq<PeerId>, fanout: nat, closable: bool)
    requires AsksIn(s, u, nbrs, fanout, closable)
    ensures AsksAt(s, Deliver(Upgrade(a, u)), OnUpgrade(s.relays[u], a), nbrs, fanout, closable)
  {
  }

  lemma AcceptedAsks(r: Relay, p: PeerId, sent: set<Message>, tasks: multiset<Task>, nbrs: seq<PeerId>, fanout: nat, closable: bool)
    requires Asks(r, sent, tasks, nbrs, fanout, closable) && r.parent.Pending? && p in r.expected && NoChecksFrom(sent, r.id)
    ensures Asks(r.(parent := Parent(p)), sent, tasks, nbrs, fanout, closable)
  {
    assert Task(r.id, p) in tasks;
  }

  lemma AsksOnDial(s: State, a: PeerId, u: PeerId, nbrs: seq<PeerId>, fanout: nat, closable: bool)
    requires Inv(s) && AsksIn(s, u, nbrs, fanout, closable)
    ensures AsksAt(s, Deliver(Dial(a, u)), OnDial(s.relays[u], a), nbrs, fanout, closable)
  {
    var r, o := s.relays[u], OnDial(s.relays[u], a);
    if o.relay.parent == r.parent {
      assert o.relay == r.(links := o.relay.links);
      LinksDoNotAsk(r, o.relay.links, s.sent, o.sends, s.tasks, nbrs, fanout, closable);
    } else {
      PendingSentNoChecks(s, u);
      AcceptedAsks(r, a, s.sent, s.tasks, nbrs, fanout, closable);
      LinksDoNotAsk(r.(parent := Parent(a)), o.relay.links, s.sent, o.sends, s.tasks, nbrs, fanout, closable);
    }
  }

  lemma AsksOnLinkOk(s: State, a: PeerId, u: PeerId, nbrs: seq<PeerId>, fanout: nat, closable: bool)
    requires AsksIn(s, u, nbrs, fanout, closable)
    ensures AsksAt(s, Deliver(LinkOk(a, u)), OnLinkOk(s.relays[u], a), nbrs, fanout, closable)
  {
  }

  lemma AsksOnStart(s: State, centre: PeerId, nbrs: seq<PeerId>, fanout: nat, closable: bool)
    requires Inv(s) && AsksIn(s, centre, nbrs, fanout, closable) && s.relays[centre].parent.Pending? && centre !in nbrs
    ensures AsksAt(s, Start, OnStart(s.relays[centre]), nbrs, fanout, closable)
  {
    var r := s.relays[centre];
    PendingSentNoChecks(s, centre);
    OnlyParentOnline(s, centre);
    assert OnlineOutgoing(r.(parent := Root)) == OnlineOutgoing(r);
    ForwardAsks(r.(parent := Root), centre, s.sent, s.tasks, nbrs, fanout, closable, r.phase);
  }

  /** A relay that has not asked yet has at most its parent online. */
  lemma FewOnline(s: State, u: PeerId, nbrs: seq<PeerId>, fanout: nat, closable: bool)
    requires Inv(s) && AsksIn(s, u, nbrs, fanout, closable)
    ensures AskedFirst(s.relays[u]) || (s.relays[u].window == 0 && |OnlineOutgoing(s.relays[u])| <= 1)
  {
    if s.relays[u].parent.Pending? { PendingSentNoChecks(s, u); }
    if NoChecksFrom(s.sent, u) { OnlyParentOnline(s, u); }
  }

  lemma AsksOnResume(s: State, t: Task, nbrs: seq<PeerId>, fanout: nat, closable: bool)
    requires Inv(s) && t in s.tasks && AsksIn(s, t.relay, nbrs, fanout, closable) && s.relays[t.relay].parent.Done()
    ensures AsksAt(s, Resume(t), OnResume(s.relays[t.relay], t.sender), nbrs, fanout, closable)
  {
    var r := s.relays[t.relay];
    assert Expects(s, t.relay, t.sender) && WellFormed(r);
    FewOnline(s, t.relay, nbrs, fanout, closable);
    TurnedCard(r, t.sender);
    var turned := r.(links := r.links[t.sender := r.links[t.sender].(outgoing := false)]);
    ForwardAsks(turned, t.sender, s.sent, s.tasks - multiset{t}, nbrs, fanout, closable, TreeCheckDone);
  }

  lemma AsksOnExpire(s: State, t: Task, nbrs: seq<PeerId>, fanout: nat, closable: bool)
    requires Inv(s) && t in s.tasks && AsksIn(s, t.relay, nbrs, fanout, closable)
    ensures AsksAt(s, Expire(t), OnExpire(s.relays[t.relay], t.sender), nbrs, fanout, closable)
    ensures AskedFirst(OnExpire(s.relays[t.relay], t.sender).relay)
  {
    var r := s.relays[t.relay];
    assert Expects(s, t.relay, t.sender) && WellFormed(r);
    FewOnline(s, t.relay, nbrs, fanout, closable);
    var gone := if r.parent.Pending? then r.(parent := GivenUp) else r;
    assert OnlineOutgoing(gone) == OnlineOutgoing(r);
    ForwardAsks(gone, t.sender, s.sent, s.tasks - multiset{t}, nbrs, fanout, closable, TreeCheckDone);
    FirstForwardAsks(gone, t.sender);
  }

  lemma AsksOnCancel(s: State, u: PeerId, nbrs: seq<PeerId>, fanout: nat)
    requires Inv(s) && AsksIn(s, u, nbrs, fanout, true) && s.relays[u].parent.Pending?
    ensures Asks(s.relays[u].(parent := GivenUp), s.sent, s.tasks, nbrs, fanout, true)
  {
    PendingSentNoChecks(s, u);
  }

  lemma AbandonedAsks(r: Relay, sent: set<Message>, tasks: multiset<Task>, tasks': multiset<Task>,
                      nbrs: seq<PeerId>, fanout: nat, closable: bool)
    requires Asks(r, sent, tasks, nbrs, fanout, closable) && r.parent.GivenUp?
    ensures Asks(r, sent, tasks', nbrs, fanout, closable)
  {
  }

  lemma AsksOnOther(s: State, e: Event, u: PeerId, centre: PeerId, nbrs: seq<PeerId>, fanout: nat, closable: bool)
    requires Inv(s) && AsksIn(s, u, nbrs, fanout, closable) && Enabled(centre, s, e) && u == Site(centre, e)
    requires e.Configure? || e.Abandon? || e.Lag? || (e.Cancel? && closable)
    ensures AsksAt(s, e, React(s.relays[u], e), nbrs, fanout, closable)
  {
    var r := s.relays[u];
    assert s.sent + {} == s.sent;
    if e.Cancel? {
      AsksOnCancel(s, u, nbrs, fanout);
    } else if e.Abandon? {
      AbandonedAsks(r, s.sent, s.tasks, s.tasks - multiset{e.t}, nbrs, fanout, closable);
    } else {
      LinksDoNotAsk(r, React(r, e).relay.links, s.sent, {}, s.tasks, nbrs, fanout, closable);
    }
  }

  lemma AsksOnMessage(s: State, m: Message, nbrs: seq<PeerId>, fanout: nat, closable: bool)
    requires Inv(s) && AsksIn(s, m.dst, nbrs, fanout, closable) && (m.Reject? ==> Check(m.dst, m.src) in s.sent)
    ensures AsksAt(s, Deliver(m), Handle(s.relays[m.dst], m), nbrs, fanout, closable)
  {
    match m
    case Check(a, u) => AsksOnCheck(s, a, u, nbrs, fanout, closable);
    case Reject(a, u) => AsksOnReject(s, a, u, nbrs, fanout, closable);
    case Upgrade(a, u) => AsksOnUpgrade(s, a, u, nbrs, fanout, closable);
    case Dial(a, u) => AsksOnDial(s, a, u, nbrs, fanout, closable);
    case LinkOk(a, u) => AsksOnLinkOk(s, a, u, nbrs, fanout, closable);
  }

  // ---- all relays ------------------------------------------------------------

  ghost predicate AllAsk(s: State, adj: Adjacency, fanout: nat, closable: set<PeerId>) {
    forall u :: u in adj ==> AsksIn(s, u, adj[u], fanout, u in closable)
  }

  /** What a handled message has brought about, whatever came between and whatever comes later. */
  ghost predicate Effect(s: State, m: Message) {
    match m
    case Check(a, b) => (Upgrade(b, a) in s.sent || Reject(b, a) in s.sent) && (Done(s, b) || HasAccepted(s, b))
    case Reject(_, _) => true
    case Upgrade(a, b) => Dial(b, a) in s.sent || HasSocket(s, b, a, Dialed) || HasSocket(s, b, a, Accepted)
    case Dial(a, b) => Done(s, b)
    case LinkOk(a, b) => HasSocket(s, b, a, Dialed)
  }

  ghost predicate AllEffects(s: State) {
    forall m :: m in s.handled ==> m in s.sent && m.dst in s.relays && Effect(s, m)
  }

  ghost predicate TimedInv(s: State, adj: Adjacency, fanout: nat, closable: set<PeerId>) {
    && Inv(s) && GoodGraph(adj) && s.relays.Keys == adj.Keys
    && AllAsk(s, adj, fanout, closable) && AllEffects(s) && RejectsAnswerChecks(s)
  }

  /** Everything may happen, but only the relays in `closable` are closed without a parent. */
  ghost predicate Timed(e: Event, closable: set<PeerId>) { e.Cancel? ==> e.u in closable }

  lemma AsksElsewhere(r: Relay, sent: set<Message>, sends: set<Message>, tasks: multiset<Task>, tasks': multiset<Task>,
                      nbrs: seq<PeerId>, fanout: nat, closable: bool)
    requires Asks(r, sent, tasks, nbrs, fanout, closable) && forall m :: m in sends ==> m.src != r.id
    requires forall b :: Task(r.id, b) in tasks ==> Task(r.id, b) in tasks'
    ensures Asks(r, sent + sends, tasks', nbrs, fanout, closable)
  {
    if HasTask(tasks, r.id) {
      var b :| Task(r.id, b) in tasks;
      assert Task(r.id, b) in tasks';
    }
  }

  lemma SiteAsks(centre: PeerId, s: State, e: Event, adj: Adjacency, fanout: nat, closable: set<PeerId>)
    requires TimedInv(s, adj, fanout, closable) && Timed(e, closable) && Enabled(centre, s, e)
    ensures var u := Site(centre, e); AsksAt(s, e, React(s.relays[u], e), adj[u], fanout, u in closable)
  {
    var u := Site(centre, e);
    assert AsksIn(s, u, adj[u], fanout, u in closable);
    match e
    case Deliver(m) => AsksOnMessage(s, m, adj[u], fanout, u in closable);
    case Start =>
      assert !Linked(adj, centre, centre);
      AsksOnStart(s, centre, adj[u], fanout, u in closable);
    case Resume(t) => AsksOnResume(s, t, adj[u], fanout, u in closable);
    case Expire(t) => AsksOnExpire(s, t, adj[u], fanout, u in closable);
    case _ => AsksOnOther(s, e, u, centre, adj[u], fanout, u in closable);
  }

  lemma TasksElsewhere(centre: PeerId, s: State, e: Event, o: Outcome, w: PeerId)
    requires w != Site(centre, e)
    ensures forall b :: Task(w, b) in s.tasks ==> Task(w, b) in TasksAfter(s, e, o)
  {
  }

  lemma OthersAsk(centre: PeerId, s: State, e: Event, w: PeerId, nbrs: seq<PeerId>, fanout: nat, closable: bool)
    requires Inv(s) && Enabled(centre, s, e) && w != Site(centre, e) && AsksIn(s, w, nbrs, fanout, closable)
    ensures AsksIn(Next(centre, s, e), w, nbrs, fanout, closable)
  {
    var o := React(s.relays[Site(centre, e)], e);
    SendsFromSite(centre, s, e);
    TasksElsewhere(centre, s, e, o, w);
    AsksElsewhere(s.relays[w], s.sent, o.sends, s.tasks, TasksAfter(s, e, o), nbrs, fanout, closable);
    LeftAlone(centre, s, e, o, w, nbrs, fanout, closable);
  }

  lemma LeftAlone(centre: PeerId, s: State, e: Event, o: Outcome, w: PeerId, nbrs: seq<PeerId>, fanout: nat, closable: bool)
    requires Enabled(centre, s, e) && o == React(s.relays[Site(centre, e)], e) && w != Site(centre, e)
    requires w in s.relays && s.relays[w].id == w
    requires Asks(s.relays[w], s.sent + o.sends, TasksAfter(s, e, o), nbrs, fanout, closable)
    ensures AsksIn(Next(centre, s, e), w, nbrs, fanout, closable)
  {
  }

  lemma StepAsks(centre: PeerId, s: State, e: Event, adj: Adjacency, fanout: nat, closable: set<PeerId>)
    requires TimedInv(s, adj, fanout, closable) && Timed(e, closable) && Enabled(centre, s, e)
    ensures AllAsk(Next(centre, s, e), adj, fanout, closable)
  {
    var u := Site(centre, e);
    forall w | w in adj ensures AsksIn(Next(centre, s, e), w, adj[w], fanout, w in closable) {
      assert AsksIn(s, w, adj[w], fanout, w in closable);
      if w == u {
        SiteAsks(centre, s, e, adj, fanout, closable);
        StepGrows(centre, s, e, Next(centre, s, e), u);
      } else {
        OthersAsk(centre, s, e, w, adj[w], fanout, w in closable);
      }
    }
  }

  // ---- effects -----------------------------------------------------------------

  lemma SocketStays(r: Relay, e: Event, p: PeerId)
    requires p in r.links && !r.links[p].socket.NoSocket? && !r.phase.SessionInit?
    ensures p in React(r, e).relay.links && !React(r, e).relay.links[p].socket.NoSocket?
    ensures r.links[p].socket.Dialed? && !(e.Deliver? && e.m.Dial? && e.m.src == p)
        ==> React(r, e).relay.links[p].socket.Dialed?
  {
  }

  lemma NotDialledBack(s: State, m: Message)
    requires Inv(s) && m in s.sent && m.Dial?
    ensures !HasSocket(s, m.dst, m.src, Dialed)
  {
    NeverDialsExpected(s);
    DialComesFromExpected(s, m);
  }

  lemma SocketStaysIf(centre: PeerId, s: State, e: Event, a: PeerId, b: PeerId)
    requires Enabled(centre, s, e) && b in s.relays && !s.relays[b].phase.SessionInit?
    requires HasSocket(s, b, a, Dialed) || HasSocket(s, b, a, Accepted)
    requires HasSocket(s, b, a, Dialed) ==> !(e.Deliver? && e.m.Dial? && e.m.src == a && e.m.dst == b)
    ensures var s' := Next(centre, s, e); HasSocket(s', b, a, Dialed) || HasSocket(s', b, a, Accepted)
    ensures HasSocket(s, b, a, Dialed) ==> HasSocket(Next(centre, s, e), b, a, Dialed)
  {
    if b == Site(centre, e) { SocketStays(s.relays[b], e, a); }
  }

  lemma SocketStaysAt(centre: PeerId, s: State, e: Event, a: PeerId, b: PeerId)
    requires Inv(s) && Enabled(centre, s, e) && b in s.relays && !s.relays[b].phase.SessionInit?
    requires HasSocket(s, b, a, Dialed) || HasSocket(s, b, a, Accepted)
    ensures var s' := Next(centre, s, e); HasSocket(s', b, a, Dialed) || HasSocket(s', b, a, Accepted)
    ensures HasSocket(s, b, a, Dialed) ==> HasSocket(Next(centre, s, e), b, a, Dialed)
  {
    if e.Deliver? && e.m.Dial? { NotDialledBack(s, e.m); }
    SocketStaysIf(centre, s, e, a, b);
  }

  lemma EffectStays(centre: PeerId, s: State, e: Event, m: Message)
    requires Inv(s) && Enabled(centre, s, e) && m.dst in s.relays && !s.relays[m.dst].phase.SessionInit? && Effect(s, m)
    ensures Effect(Next(centre, s, e), m)
  {
    StepGrows(centre, s, e, Next(centre, s, e), m.dst);
    if (m.Upgrade? && Dial(m.dst, m.src) !in s.sent) || m.LinkOk? { SocketStaysAt(centre, s, e, m.src, m.dst); }
  }

  /** A tree check is answered, and leaves its receiver with a parent or in wait for one. */
  lemma CheckEffect(s: State, a: PeerId, u: PeerId, adj: Adjacency, fanout: nat, closable: set<PeerId>)
    requires TimedInv(s, adj, fanout, closable) && Check(a, u) in s.sent && u in s.relays
    ensures var o := OnCheck(s.relays[u], a);
      && (o.sends == {Upgrade(u, a)} || o.sends == {Reject(u, a)})
      && (o.relay.parent.Done() || o.relay.expected != {})
  {
    var r := s.relays[u];
    assert AsksIn(s, u, adj[u], fanout, u in closable) && Justified(s, Check(a, u));
    assert AsksIn(s, a, adj[a], fanout, a in closable);
    assert Linked(adj, a, u) && Linked(adj, u, a);
    if r.parent.Pending? { PendingSentNoChecks(s, u); }
  }

  lemma UpgradeEffect(s: State, a: PeerId, u: PeerId)
    requires Inv(s) && Upgrade(a, u) in s.sent && u in s.relays
    ensures OnUpgrade(s.relays[u], a).sends == {Dial(u, a)} || HasSocket(s, u, a, Dialed) || HasSocket(s, u, a, Accepted)
  {
    assert Justified(s, Upgrade(a, u)) && Justified(s, Check(u, a));
  }

  lemma LinkOkEffect(s: State, a: PeerId, u: PeerId)
    requires Inv(s) && LinkOk(a, u) in s.sent && u in s.relays
    ensures var o := OnLinkOk(s.relays[u], a); a in o.relay.links && o.relay.links[a] == Link(Online, true, Dialed)
  {
    assert Justified(s, LinkOk(a, u));
    ChildWasChecked(s, u, a);
    assert Justified(s, Check(u, a));
  }

  lemma DeliveryEffect(centre: PeerId, s: State, m: Message, adj: Adjacency, fanout: nat, closable: set<PeerId>)
    requires TimedInv(s, adj, fanout, closable) && Enabled(centre, s, Deliver(m))
    ensures Effect(Next(centre, s, Deliver(m)), m)
  {
    match m
    case Check(a, u) => CheckEffect(s, a, u, adj, fanout, closable);
    case Reject(_, _) =>
    case Upgrade(a, u) => UpgradeEffect(s, a, u);
    case Dial(a, u) => DialCompletes(s, a, u);
    case LinkOk(a, u) => LinkOkEffect(s, a, u);
  }

  lemma StepEffects(centre: PeerId, s: State, e: Event, adj: Adjacency, fanout: nat, closable: set<PeerId>)
    requires TimedInv(s, adj, fanout, closable) && Enabled(centre, s, e)
    ensures AllEffects(Next(centre, s, e))
  {
    var s' := Next(centre, s, e);
    forall m | m in s'.handled ensures m in s'.sent && m.dst in s'.relays && Effect(s', m) {
      if m in s.handled {
        assert AsksIn(s, m.dst, adj[m.dst], fanout, m.dst in closable);
        EffectStays(centre, s, e, m);
      } else {
        DeliveryEffect(centre, s, m, adj, fanout, closable);
      }
    }
  }

  lemma StepKeepsTimedInv(centre: PeerId, s: State, e: Event, s': State, adj: Adjacency, fanout: nat, closable: set<PeerId>)
    requires TimedInv(s, adj, fanout, closable) && Timed(e, closable) && Steps(centre, s, e, s')
    ensures TimedInv(s', adj, fanout, closable)
  {
    StepKeepsInv(centre, s, e);
    StepAsks(centre, s, e, adj, fanout, closable);
    StepEffects(centre, s, e, adj, fanout, closable);
    RejectsKept(centre, s, e, s');
  }

  // ---- runs ----------------------------------------------------------------------

  /** A run in which every relay knows its neighbours. */
  ghost predicate TimedRun(centre: PeerId, adj: Adjacency, fanout: nat, closable: set<PeerId>,
                           states: seq<State>, events: seq<Event>) {
    && Execution(centre, states, events) && Ready(states[0], centre, adj, fanout)
    && forall i :: 0 <= i < |events| ==> Timed(events[i], closable)
  }

  lemma ReadyIsTimed(s: State, centre: PeerId, adj: Adjacency, fanout: nat, closable: set<PeerId>)
    requires Ready(s, centre, adj, fanout)
    ensures TimedInv(s, adj, fanout, closable)
  {
    ReadyIsConfigured(s, centre, adj, fanout);
    ConfiguredInv(s, centre, adj, fanout);
    forall u | u in adj ensures AsksIn(s, u, adj[u], fanout, u in closable) {
      assert s.relays[u] == ConfiguredRelay(u, adj[u], fanout);
    }
  }

  lemma RunKeepsTimedInv(centre: PeerId, adj: Adjacency, fanout: nat, closable: set<PeerId>,
                         states: seq<State>, events: seq<Event>, k: nat)
    requires TimedRun(centre, adj, fanout, closable, states, events) && k < |states|
    ensures TimedInv(states[k], adj, fanout, closable)
  {
    var inv := (s: State) => TimedInv(s, adj, fanout, closable);
    ReadyIsTimed(states[0], centre, adj, fanout, closable);
    forall s, e, s' | inv(s) && Timed(e, closable) && Steps(centre, s, e, s') ensures inv(s') {
      StepKeepsTimedInv(centre, s, e, s', adj, fanout, closable);
    }
    InductionOverRun(centre, states, events, (s, e) => Timed(e, closable), inv, k);
  }

  lemma AskedAt(s: State, adj: Adjacency, fanout: nat, closable: set<PeerId>, u: PeerId, i: nat)
    requires TimedInv(s, adj, fanout, closable) && u in adj && i < |adj[u]| && i < fanout && AskedFirst(s.relays[u])
    ensures adj[u][i] in s.relays[u].active && (Check(u, adj[u][i]) in s.sent <==> adj[u][i] !in s.relays[u].expected)
  {
    assert AsksIn(s, u, adj[u], fanout, u in closable);
    assert Check(u, adj[u][i]) in s.sent ==> Justified(s, Check(u, adj[u][i]));
  }

  /** In every state of every run, whatever times out: a relay that is done, waits for nobody
      and was not closed has each of its first `fanout` neighbours among its active links, and
      has sent a tree check to each of them but those whose own check it accepted. */
  lemma DoneHasAsked(centre: PeerId, adj: Adjacency, fanout: nat, closable: set<PeerId>,
                     states: seq<State>, events: seq<Event>, k: nat, u: PeerId)
    requires TimedRun(centre, adj, fanout, closable, states, events) && k < |states|
    requires Done(states[k], u) && u !in closable && !HasTask(states[k].tasks, u)
    ensures u in adj && forall i :: 0 <= i < |adj[u]| && i < fanout ==>
      && adj[u][i] in states[k].relays[u].active
      && (Check(u, adj[u][i]) in states[k].sent <==> adj[u][i] !in states[k].relays[u].expected)
  {
    var s := states[k];
    RunKeepsTimedInv(centre, adj, fanout, closable, states, events, k);
    assert AsksIn(s, u, adj[u], fanout, u in closable);
    forall i | 0 <= i < |adj[u]| && i < fanout
      ensures adj[u][i] in s.relays[u].active && (Check(u, adj[u][i]) in s.sent <==> adj[u][i] !in s.relays[u].expected)
    {
      AskedAt(s, adj, fanout, closable, u, i);
    }
  }

  /** From `r` to `r'`: a relay without a parent gives up on having one, and each of its first
      `fanout` neighbours is active, with a tree check if it was not before. */
  ghost predicate Expired(r: Relay, r': Relay, sent: set<Message>, nbrs: seq<PeerId>, fanout: nat) {
    && r'.phase.TreeCheckDone? && r'.parent == (if r.parent.Pending? then GivenUp else r.parent)
    && forall i :: 0 <= i < |nbrs| && i < fanout ==>
         nbrs[i] in r'.active && (nbrs[i] !in r.active ==> Check(r.id, nbrs[i]) in sent)
  }

  lemma ExpiryBooks(r: Relay, sender: PeerId)
    ensures var o := OnExpire(r, sender);
      && o.relay.order == r.order && o.relay.fanout == r.fanout && o.relay.phase.TreeCheckDone?
      && o.relay.parent == (if r.parent.Pending? then GivenUp else r.parent)
      && forall p :: p in o.relay.active && p !in r.active ==> Check(r.id, p) in o.sends
  {
  }

  lemma ExpiredAt(s: State, t: Task, nbrs: seq<PeerId>, fanout: nat, closable: bool)
    requires Inv(s) && t in s.tasks && AsksIn(s, t.relay, nbrs, fanout, closable)
    ensures var o := OnExpire(s.relays[t.relay], t.sender); Expired(s.relays[t.relay], o.relay, s.sent + o.sends, nbrs, fanout)
  {
    AsksOnExpire(s, t, nbrs, fanout, closable);
    ExpiryBooks(s.relays[t.relay], t.sender);
  }

  /** A wait that times out ends in asking. */
  lemma ExpiryAsks(centre: PeerId, adj: Adjacency, fanout: nat, closable: set<PeerId>,
                   states: seq<State>, events: seq<Event>, k: nat, t: Task)
    requires TimedRun(centre, adj, fanout, closable, states, events) && k < |states| && t in states[k].tasks
    ensures t.relay in adj && Enabled(centre, states[k], Expire(t))
    ensures var s' := Next(centre, states[k], Expire(t));
      Expired(states[k].relays[t.relay], s'.relays[t.relay], s'.sent, adj[t.relay], fanout)
  {
    var s, u := states[k], t.relay;
    RunKeepsTimedInv(centre, adj, fanout, closable, states, events, k);
    assert Expects(s, u, t.sender);
    assert AsksIn(s, u, adj[u], fanout, u in closable);
    ExpiredAt(s, t, adj[u], fanout, u in closable);
  }

  /** A wait ends once: with a parent, with its time-out, or with the future cancelled under it,
      which changes nothing else. A new one begins with each accepted check, and only there. */
  lemma WaitsEnd(centre: PeerId, s: State, e: Event)
    requires Enabled(centre, s, e)
    ensures var s' := Next(centre, s, e);
      && (e.Resume? || e.Expire? || e.Abandon? ==> s'.tasks == s.tasks - multiset{e.t} && |s'.tasks| == |s.tasks| - 1)
      && (e.Abandon? ==> s'.relays == s.relays && s'.sent == s.sent)
      && (e.Deliver? && Handle(s.relays[e.m.dst], e.m).spawned ==> s'.tasks == s.tasks + multiset{Task(e.m.dst, e.m.src)})
      && (e.Deliver? && !e.m.Check? ==> s'.tasks == s.tasks)
  {
    if e.Abandon? {
      var u := e.t.relay;
      assert s.relays[u := s.relays[u]] == s.relays && s.sent + {} == s.sent;
    }
  }

  lemma NoReaction(centre: PeerId, s: State, m: Message)
    requires Enabled(centre, s, Deliver(m)) && Handle(s.relays[m.dst], m) == Outcome(s.relays[m.dst], {}, false)
    ensures var s' := Next(centre, s, Deliver(m)); s'.relays == s.relays && s'.sent == s.sent && s'.tasks == s.tasks
  {
    assert s.relays[m.dst := s.relays[m.dst]] == s.relays && s.sent + {} == s.sent;
  }

  /** No refusal ever makes a relay ask further: where one arrives, as many links are active
      as the fanout allows. */
  lemma RefusalChangesNothing(centre: PeerId, adj: Adjacency, fanout: nat, closable: set<PeerId>,
                              states: seq<State>, events: seq<Event>, k: nat, a: PeerId, u: PeerId)
    requires TimedRun(centre, adj, fanout, closable, states, events) && k < |states|
    requires Enabled(centre, states[k], Deliver(Reject(a, u)))
    ensures var s' := Next(centre, states[k], Deliver(Reject(a, u)));
      s'.relays == states[k].relays && s'.sent == states[k].sent && s'.tasks == states[k].tasks
  {
    var s := states[k];
    RunKeepsTimedInv(centre, adj, fanout, closable, states, events, k);
    assert AsksIn(s, u, adj[u], fanout, u in closable);
    RefusedIsFull(s, a, u, adj[u], fanout, u in closable);
    NoReaction(centre, s, Reject(a, u));
  }

  /** Every message that was handled has had its effect and keeps it; and no relay accepts
      more than `fanout + 1` tree checks. */
  lemma HandledHasEffect(centre: PeerId, adj: Adjacency, fanout: nat, closable: set<PeerId>,
                         states: seq<State>, events: seq<Event>, k: nat)
    requires TimedRun(centre, adj, fanout, closable, states, events) && k < |states|
    ensures forall m :: m in states[k].handled ==> Effect(states[k], m)
    ensures forall u :: u in adj ==> u in states[k].relays && |states[k].relays[u].expected| <= fanout + 1
  {
    RunKeepsTimedInv(centre, adj, fanout, closable, states, events, k);
    forall u | u in adj ensures u in states[k].relays && |states[k].relays[u].expected| <= fanout + 1 {
      assert AsksIn(states[k], u, adj[u], fanout, u in closable);
    }
  }

  // ---- where nothing is left to do -----------------------------------------------------

  /** Every message was handled at least once, and nobody waits. */
  ghost predicate Settled(s: State) { s.sent <= s.handled && s.tasks == multiset{} }

  /** Whom the relays that are not closed ask: their first `fanout` neighbours. */
  function AskedBy(adj: Adjacency, fanout: nat, closable: set<PeerId>): Adjacency {
    map u | u in adj && u !in closable :: adj[u][..Min(|adj[u]|, fanout)]
  }

  lemma AcceptedIsSettled(s: State, adj: Adjacency, fanout: nat, closable: set<PeerId>, v: PeerId)
    requires TimedInv(s, adj, fanout, closable) && Settled(s) && (Done(s, v) || HasAccepted(s, v))
    ensures Done(s, v)
  {
    assert AsksIn(s, v, adj[v], fanout, v in closable);
    if HasAccepted(s, v) {
      var b :| b in s.relays[v].expected;
      assert s.relays[v].parent.Pending? ==> Task(v, b) in s.tasks;
    }
  }

  lemma AskedIsSettled(s: State, adj: Adjacency, fanout: nat, closable: set<PeerId>, u: PeerId, v: PeerId)
    requires TimedInv(s, adj, fanout, closable) && Settled(s) && Done(s, u) && Linked(AskedBy(adj, fanout, closable), u, v)
    ensures Done(s, v)
  {
    assert AsksIn(s, u, adj[u], fanout, u in closable);
    var i :| 0 <= i < Min(|adj[u]|, fanout) && adj[u][i] == v;
    AskedAt(s, adj, fanout, closable, u, i);
    if Check(u, v) in s.sent {
      assert Effect(s, Check(u, v));
      AcceptedIsSettled(s, adj, fanout, closable, v);
    } else {
      assert Expects(s, u, v) && Justified(s, Check(v, u));
    }
  }

  /** With time-outs, repetitions and any order, and with relays closed on the way: once every
      message was handled and nobody waits any more, everyone reached from the started centre by
      asking, through relays that are not closed, is done, and following parents from there
      ends at the centre or at a relay that gave up. */
  lemma SettledFormationReaches(centre: PeerId, adj: Adjacency, fanout: nat, closable: set<PeerId>,
                                states: seq<State>, events: seq<Event>, k: nat, p: PeerId)
    requires TimedRun(centre, adj, fanout, closable, states, events) && k < |states|
    requires Settled(states[k]) && Done(states[k], centre) && Reaches(AskedBy(adj, fanout, closable), centre, p)
    ensures Done(states[k], p)
    ensures exists path :: LeadsUp(states[k], path) && path[0] == p && EndsWell(states[k], centre, path)
  {
    var s := states[k];
    RunKeepsTimedInv(centre, adj, fanout, closable, states, events, k);
    var walk :| WalkBetween(AskedBy(adj, fanout, closable), walk, centre, p);
    forall u, v | Linked(AskedBy(adj, fanout, closable), u, v) && Done(s, u) ensures Done(s, v) {
      AskedIsSettled(s, adj, fanout, closable, u, v);
    }
    WalkIsDone(s, AskedBy(adj, fanout, closable), walk, |walk| - 1);
    ReadyIsConfigured(states[0], centre, adj, fanout);
    ConfiguredInv(states[0], centre, adj, fanout);
    var rank := RunIsRankedFrom(centre, states, events, k, map u | u in states[0].relays :: 0);
    var path := Climb(s, rank, p);
    assert EndsWell(s, centre, path);
  }
}
