/** All relays of one session and everything they ever sent. A message in the
    soup may be handled never, once or many times, and in any order, so the runs
    below cover loss, duplication and reordering (src/transfers/otm/palm_tree.py). */
module PalmTreeNetwork {
  import opened Peers
  import opened RelayModel

  /** A `gossip_tree_check` of `relay` suspended in its wait for `sender`. */
  datatype Task = Task(relay: PeerId, sender: PeerId)

  datatype State = State(
    relays: map<PeerId, Relay>,
    sent: set<Message>,
    handled: set<Message>,       // history: what was handled at least once
    tasks: multiset<Task>)

  datatype Event =
    | Deliver(m: Message)
    | Configure(u: PeerId, ids: seq<PeerId>)
    | Start
    | Resume(t: Task)
    | Expire(t: Task)
    | Abandon(t: Task)           // the future was cancelled under a waiting task
    | Cancel(u: PeerId)          // the reading task of the relay is closed
    | Lag(u: PeerId, peer: PeerId)

  ghost predicate Initial(s: State, centre: PeerId) {
    && centre in s.relays
    && s.sent == {} && s.handled == {} && s.tasks == multiset{}
    && forall u :: u in s.relays ==> s.relays[u] == FreshRelay(u, s.relays[u].fanout)
  }

  ghost predicate Enabled(centre: PeerId, s: State, e: Event) {
    match e
    case Deliver(m) => m in s.sent && m.dst in s.relays
    case Configure(u, _) => u in s.relays
    case Start => centre in s.relays && s.relays[centre].parent.Pending?
    case Resume(t) => t in s.tasks && t.relay in s.relays
                      && s.relays[t.relay].parent.Done() && !s.relays[t.relay].parent.GivenUp?
    case Expire(t) => t in s.tasks && t.relay in s.relays
    case Abandon(t) => t in s.tasks && t.relay in s.relays && s.relays[t.relay].parent.GivenUp?
    case Cancel(u) => u in s.relays && s.relays[u].parent.Pending?
    case Lag(u, _) => u in s.relays
  }

  ghost function Update(s: State, u: PeerId, r: Relay, sends: set<Message>): State {
    s.(relays := s.relays[u := r], sent := s.sent + sends)
  }

  /** The relay an event happens at. */
  ghost function Site(centre: PeerId, e: Event): PeerId {
    match e
    case Deliver(m) => m.dst
    case Configure(u, _) => u
    case Start => centre
    case Resume(t) => t.relay
    case Expire(t) => t.relay
    case Abandon(t) => t.relay
    case Cancel(u) => u
    case Lag(u, _) => u
  }

  /** What the event does at its site. */
  ghost function React(r: Relay, e: Event): Outcome {
    match e
    case Deliver(m) => Handle(r, m)
    case Configure(_, ids) => Outcome(OnUpdateState(r, ids), {}, false)
    case Start => OnStart(r)
    case Resume(t) => OnResume(r, t.sender)
    case Expire(t) => OnExpire(r, t.sender)
    case Abandon(_) => Outcome(r, {}, false)
    case Cancel(_) => Outcome(r.(parent := GivenUp), {}, false)
    case Lag(_, p) => Outcome(OnLag(r, p), {}, false)
  }

  ghost function TasksAfter(s: State, e: Event, o: Outcome): multiset<Task> {
    match e
    case Deliver(m) => if o.spawned then s.tasks + multiset{Task(m.dst, m.src)} else s.tasks
    case Resume(t) => s.tasks - multiset{t}
    case Expire(t) => s.tasks - multiset{t}
    case Abandon(t) => s.tasks - multiset{t}
    case _ => s.tasks
  }

  ghost function Next(centre: PeerId, s: State, e: Event): State
    requires Enabled(centre, s, e)
  {
    var u := Site(centre, e);
    var o := React(s.relays[u], e);
    Update(s, u, o.relay, o.sends).(
      tasks := TasksAfter(s, e, o),
      handled := if e.Deliver? then s.handled + {e.m} else s.handled)
  }

  ghost predicate Steps(centre: PeerId, s: State, e: Event, s': State) {
    Enabled(centre, s, e) && s' == Next(centre, s, e)
  }

  ghost predicate Execution(centre: PeerId, states: seq<State>, events: seq<Event>) {
    && |states| == |events| + 1
    && forall i {:trigger events[i]} :: 0 <= i < |events| ==> Steps(centre, states[i], events[i], states[i + 1])
  }

  ghost predicate Allowed(allowed: (State, Event) -> bool, states: seq<State>, events: seq<Event>)
    requires |states| == |events| + 1
  {
    forall i {:trigger events[i]} :: 0 <= i < |events| ==> allowed(states[i], events[i])
  }

  /** What holds at first and is kept by every allowed step holds all along. */
  lemma {:induction false} InductionOverRun(centre: PeerId, states: seq<State>, events: seq<Event>,
                                            allowed: (State, Event) -> bool, inv: State -> bool, k: nat)
    requires Execution(centre, states, events) && Allowed(allowed, states, events) && k < |states|
    requires inv(states[0])
    requires forall s, e, s' :: inv(s) && allowed(s, e) && Steps(centre, s, e, s') ==> inv(s')
    ensures inv(states[k])
  {
    if k > 0 {
      InductionOverRun(centre, states, events, allowed, inv, k - 1);
      var e := events[k - 1];
      assert Steps(centre, states[k - 1], e, states[k]);
    }
  }

  /** Steps that spend from a budget are at most as many as the budget. */
  lemma {:induction false} BudgetOverRun(centre: PeerId, states: seq<State>, events: seq<Event>,
                                         allowed: (State, Event) -> bool, inv: State -> bool, cost: State -> nat, k: nat)
    requires Execution(centre, states, events) && Allowed(allowed, states, events) && k < |states|
    requires inv(states[0])
    requires forall s, e, s' :: inv(s) && allowed(s, e) && Steps(centre, s, e, s') ==> inv(s') && cost(s') < cost(s)
    ensures inv(states[k]) && k + cost(states[k]) <= cost(states[0])
  {
    if k > 0 {
      BudgetOverRun(centre, states, events, allowed, inv, cost, k - 1);
      var e := events[k - 1];
      assert Steps(centre, states[k - 1], e, states[k]);
    }
  }

  // ---- the invariant -------------------------------------------------------

  ghost predicate Done(s: State, a: PeerId) { a in s.relays && s.relays[a].parent.Done() }
  ghost predicate Expects(s: State, a: PeerId, b: PeerId) { a in s.relays && b in s.relays[a].expected }
  ghost predicate IsChild(s: State, a: PeerId, b: PeerId) { a in s.relays && s.relays[a].parent == Parent(b) }

  ghost predicate RelaysOk(s: State) {
    forall u :: u in s.relays ==> s.relays[u].id == u && WellFormed(s.relays[u])
  }

  /** What a message in the soup says about the relay that sent it. */
  ghost predicate Justified(s: State, m: Message) {
    match m
    case Check(a, b) => Done(s, a) && b in s.relays[a].active && !Expects(s, a, b)
    case Reject(a, b) => Done(s, b)
    case Upgrade(a, b) => Expects(s, a, b)
    case Dial(a, b) => Upgrade(b, a) in s.sent
    case LinkOk(a, b) => IsChild(s, a, b)
  }

  ghost predicate MessagesOk(s: State) { forall m :: m in s.sent ==> Justified(s, m) }

  ghost predicate ExpectedOk(s: State) { forall a, b :: Expects(s, a, b) ==> Check(b, a) in s.sent }

  ghost predicate ParentsOk(s: State) { forall a, b :: IsChild(s, a, b) ==> Expects(s, a, b) }

  ghost predicate SocketOk(s: State, a: PeerId, b: PeerId) {
    a in s.relays && b in s.relays[a].links ==>
      && (s.relays[a].links[b].socket.Dialed? ==> LinkOk(b, a) in s.sent)
      && (s.relays[a].links[b].socket.Accepted? ==> IsChild(s, a, b))
  }

  ghost predicate TasksOk(s: State) { forall t :: t in s.tasks ==> Expects(s, t.relay, t.sender) }

  ghost predicate Inv(s: State) {
    RelaysOk(s) && MessagesOk(s) && ExpectedOk(s) && ParentsOk(s) && TasksOk(s)
    && forall a, b :: SocketOk(s, a, b)
  }

  // ---- one handler at one relay --------------------------------------------

  /** A message a handler may send from `u` when it leaves the relay at `r`. */
  ghost predicate MaySend(s: State, u: PeerId, r: Relay, m: Message) {
    m.src == u &&
    match m
    case Check(_, b) => r.parent.Done() && b in r.active && b !in r.expected
    case Reject(_, b) => Check(b, u) in s.sent
    case Upgrade(_, b) => b in r.expected
    case Dial(_, b) => Upgrade(b, u) in s.sent
    case LinkOk(_, b) => r.parent == Parent(b)
  }

  /** The future is written once; the books of a relay only grow. */
  ghost predicate Grows(r: Relay, r': Relay) {
    && r.id == r'.id
    && r.active <= r'.active
    && r.expected <= r'.expected
    && (r.parent.Done() ==> r'.parent == r.parent && r'.expected == r.expected)
  }

  ghost predicate Legal(s: State, u: PeerId, r': Relay, sends: set<Message>)
    requires u in s.relays
  {
    && Grows(s.relays[u], r') && WellFormed(r')
    && (forall m :: m in sends ==> MaySend(s, u, r', m))
    && (forall b :: b in r'.expected ==> b in s.relays[u].expected || Check(b, u) in s.sent)
    && (forall b :: r'.parent == Parent(b) ==> b in r'.expected)
    && (forall b :: b in r'.links ==>
          && (r'.links[b].socket.Dialed? ==> LinkOk(b, u) in s.sent)
          && (r'.links[b].socket.Accepted? ==> r'.parent == Parent(b)))
  }

  lemma JustifiedStays(s: State, u: PeerId, r': Relay, sends: set<Message>, m: Message)
    requires Inv(s) && u in s.relays && Legal(s, u, r', sends) && m in s.sent
    ensures Justified(Update(s, u, r', sends), m)
  {
    assert Justified(s, m);
  }

  lemma MessagesStayOk(s: State, u: PeerId, r': Relay, sends: set<Message>)
    requires Inv(s) && u in s.relays && Legal(s, u, r', sends)
    ensures MessagesOk(Update(s, u, r', sends))
  {
    var s' := Update(s, u, r', sends);
    forall m | m in s'.sent ensures Justified(s', m) {
      if m in s.sent {
        JustifiedStays(s, u, r', sends, m);
      } else {
        assert MaySend(s, u, r', m);
        if m.Reject? { assert Justified(s, Check(m.dst, u)); }
      }
    }
  }

  lemma BooksStayOk(s: State, u: PeerId, r': Relay, sends: set<Message>)
    requires Inv(s) && u in s.relays && Legal(s, u, r', sends)
    ensures var s' := Update(s, u, r', sends); RelaysOk(s') && ExpectedOk(s') && ParentsOk(s') && TasksOk(s')
  {
    var s' := Update(s, u, r', sends);
    forall a, b | IsChild(s', a, b) ensures Expects(s', a, b) {
      if a != u { assert IsChild(s, a, b); }
    }
    forall a, b | Expects(s', a, b) ensures Check(b, a) in s'.sent {
      if a != u || b in s.relays[u].expected { assert Expects(s, a, b); }
    }
    forall t | t in s'.tasks ensures Expects(s', t.relay, t.sender) { assert Expects(s, t.relay, t.sender); }
  }

  lemma LegalKeepsInv(s: State, u: PeerId, r': Relay, sends: set<Message>)
    requires Inv(s) && u in s.relays && Legal(s, u, r', sends)
    ensures Inv(Update(s, u, r', sends))
  {
    var s' := Update(s, u, r', sends);
    MessagesStayOk(s, u, r', sends);
    BooksStayOk(s, u, r', sends);
    forall a, b ensures SocketOk(s', a, b) { assert SocketOk(s, a, b); }
  }

  lemma SameLegal(s: State, u: PeerId)
    requires Inv(s) && u in s.relays
    ensures Legal(s, u, s.relays[u], {})
  {
    var r := s.relays[u];
    forall b | b in r.links ensures
      && (r.links[b].socket.Dialed? ==> LinkOk(b, u) in s.sent)
      && (r.links[b].socket.Accepted? ==> r.parent == Parent(b)) { assert SocketOk(s, u, b); }
    forall b | r.parent == Parent(b) ensures b in r.expected { assert IsChild(s, u, b); }
  }

  lemma ForwardLegal(s: State, u: PeerId, r: Relay, sender: PeerId)
    requires u in s.relays && Legal(s, u, r, {}) && s.relays[u].id == u && r.parent.Done()
    ensures Legal(s, u, Forward(r, sender).relay, Forward(r, sender).sends)
  {
    PySliceMembers(r.order, r.window, WindowEnd(r) + 1);
  }

  lemma CheckLegal(s: State, u: PeerId, sender: PeerId)
    requires Inv(s) && u in s.relays && Check(sender, u) in s.sent
    ensures var o := OnCheck(s.relays[u], sender); Legal(s, u, o.relay, o.sends)
  {
    SameLegal(s, u);
  }

  lemma ChildWasChecked(s: State, u: PeerId, b: PeerId)
    requires Inv(s) && IsChild(s, b, u)
    ensures Check(u, b) in s.sent && Done(s, u) && !Expects(s, u, b)
  {
    assert Expects(s, b, u);
    assert Justified(s, Check(u, b));
  }

  ghost predicate HasSocket(s: State, u: PeerId, b: PeerId, k: Socket) {
    u in s.relays && b in s.relays[u].links && s.relays[u].links[b].socket == k
  }

  /** A socket that `u` dialled leads to a child of `u`. */
  lemma DialledIsChild(s: State, u: PeerId, b: PeerId)
    requires Inv(s) && HasSocket(s, u, b, Dialed)
    ensures IsChild(s, b, u) && Check(u, b) in s.sent && !Expects(s, u, b)
  {
    assert SocketOk(s, u, b) && Justified(s, LinkOk(b, u));
    ChildWasChecked(s, u, b);
  }

  /** A relay never dials a peer whose tree check it accepted. */
  lemma NeverDialsExpected(s: State)
    requires Inv(s)
    ensures forall u, b :: HasSocket(s, u, b, Dialed) ==> !Expects(s, u, b)
  {
    forall u, b | HasSocket(s, u, b, Dialed) ensures !Expects(s, u, b) { DialledIsChild(s, u, b); }
  }

  lemma AcceptLegal(s: State, u: PeerId, peer: PeerId, parent: ParentFuture, sends: set<Message>)
    requires Inv(s) && Expects(s, u, peer) && parent == Parent(peer)
    requires s.relays[u].parent == parent || (s.relays[u].parent.Pending? && !HasSocket(s, u, peer, Dialed))
    requires sends <= {LinkOk(u, peer)}
    ensures var r := s.relays[u];
            Legal(s, u, r.(links := r.links[peer := r.links[peer].WithConnection(Accepted)], parent := parent), sends)
  {
    SameLegal(s, u);
  }

  lemma DialLegal(s: State, u: PeerId, peer: PeerId)
    requires Inv(s) && u in s.relays && Dial(peer, u) in s.sent
    ensures var o := OnDial(s.relays[u], peer); Legal(s, u, o.relay, o.sends)
  {
    SameLegal(s, u);
    assert Justified(s, Dial(peer, u)) && Justified(s, Upgrade(u, peer));
    NeverDialsExpected(s);
    assert !HasSocket(s, u, peer, Dialed);
    var r := s.relays[u];
    if r.links[peer].Connected() {
      assert SocketOk(s, u, peer);
      AcceptLegal(s, u, peer, r.parent, {});
    } else if r.parent.Pending? {
      AcceptLegal(s, u, peer, Parent(peer), {LinkOk(u, peer)});
    }
  }

  lemma RejectLegal(s: State, u: PeerId, from: PeerId)
    requires Inv(s) && Reject(from, u) in s.sent && u in s.relays
    ensures var o := OnReject(s.relays[u], from); Legal(s, u, o.relay, o.sends)
  {
    SameLegal(s, u);
    assert Justified(s, Reject(from, u));
    ForwardLegal(s, u, s.relays[u], from);
  }

  lemma UpgradeLegal(s: State, u: PeerId, peer: PeerId)
    requires Inv(s) && Upgrade(peer, u) in s.sent && u in s.relays
    ensures var o := OnUpgrade(s.relays[u], peer); Legal(s, u, o.relay, o.sends)
  {
    SameLegal(s, u);
  }

  lemma LinkOkLegal(s: State, u: PeerId, peer: PeerId)
    requires Inv(s) && LinkOk(peer, u) in s.sent && u in s.relays
    ensures var o := OnLinkOk(s.relays[u], peer); Legal(s, u, o.relay, o.sends)
  {
    SameLegal(s, u);
  }

  lemma HandleLegal(s: State, m: Message)
    requires Inv(s) && m in s.sent && m.dst in s.relays
    ensures var o := Handle(s.relays[m.dst], m); Legal(s, m.dst, o.relay, o.sends)
  {
    match m
    case Check(a, u) => CheckLegal(s, u, a);
    case Reject(a, u) => RejectLegal(s, u, a);
    case Upgrade(a, u) => UpgradeLegal(s, u, a);
    case Dial(a, u) => DialLegal(s, u, a);
    case LinkOk(a, u) => LinkOkLegal(s, u, a);
  }

  lemma ConfigureLegal(s: State, u: PeerId, ids: seq<PeerId>)
    requires Inv(s) && u in s.relays
    ensures Legal(s, u, OnUpdateState(s.relays[u], ids), {})
  {
    SameLegal(s, u);
    InsertKeysShape(s.relays[u].order, ids);
  }

  lemma TurnLegal(s: State, u: PeerId, p: PeerId)
    requires Inv(s) && Expects(s, u, p)
    ensures var r := s.relays[u]; Legal(s, u, r.(links := r.links[p := r.links[p].(outgoing := false)]), {})
  {
    SameLegal(s, u);
  }

  lemma ResumeLegal(s: State, t: Task)
    requires Inv(s) && t in s.tasks && t.relay in s.relays && s.relays[t.relay].parent.Done()
    ensures var o := OnResume(s.relays[t.relay], t.sender); Legal(s, t.relay, o.relay, o.sends)
  {
    var u, r := t.relay, s.relays[t.relay];
    assert Expects(s, u, t.sender);
    TurnLegal(s, u, t.sender);
    var turned := r.(links := r.links[t.sender := r.links[t.sender].(outgoing := false)]);
    ForwardLegal(s, u, turned, t.sender);
  }

  lemma ExpireLegal(s: State, t: Task)
    requires Inv(s) && t in s.tasks && t.relay in s.relays
    ensures var o := OnExpire(s.relays[t.relay], t.sender); Legal(s, t.relay, o.relay, o.sends)
  {
    var u, r := t.relay, s.relays[t.relay];
    if r.parent.Pending? {
      CancelLegal(s, u);
      ForwardLegal(s, u, r.(parent := GivenUp), t.sender);
    } else {
      SameLegal(s, u);
      ForwardLegal(s, u, r, t.sender);
    }
  }

  lemma LagLegal(s: State, u: PeerId, p: PeerId)
    requires Inv(s) && u in s.relays
    ensures Legal(s, u, OnLag(s.relays[u], p), {})
  {
    SameLegal(s, u);
  }

  lemma CancelLegal(s: State, u: PeerId)
    requires Inv(s) && u in s.relays && s.relays[u].parent.Pending?
    ensures Legal(s, u, s.relays[u].(parent := GivenUp), {})
  {
    SameLegal(s, u);
  }

  lemma StartLegal(s: State, u: PeerId)
    requires Inv(s) && u in s.relays && s.relays[u].parent.Pending?
    ensures var o := OnStart(s.relays[u]); Legal(s, u, o.relay, o.sends)
  {
    SameLegal(s, u);
    ForwardLegal(s, u, s.relays[u].(parent := Root), u);
  }

  lemma ReactLegal(centre: PeerId, s: State, e: Event)
    requires Inv(s) && Enabled(centre, s, e)
    ensures var u := Site(centre, e); var o := React(s.relays[u], e); Legal(s, u, o.relay, o.sends)
  {
    match e
    case Deliver(m) => HandleLegal(s, m);
    case Configure(u, ids) => ConfigureLegal(s, u, ids);
    case Start => StartLegal(s, centre);
    case Resume(t) => ResumeLegal(s, t);
    case Expire(t) => ExpireLegal(s, t);
    case Abandon(t) => SameLegal(s, t.relay);
    case Cancel(u) => CancelLegal(s, u);
    case Lag(u, p) => LagLegal(s, u, p);
  }

  lemma SpawnedIsExpected(r: Relay, m: Message)
    ensures Handle(r, m).spawned ==> m.src in Handle(r, m).relay.expected
  {
  }

  lemma OutcomeTasks(s: State, u: PeerId, e: Event, o: Outcome, t: Task)
    requires TasksOk(s) && u in s.relays && s.relays[u].expected <= o.relay.expected
    requires e.Deliver? && o.spawned ==> e.m.dst == u && e.m.src in o.relay.expected
    requires t in TasksAfter(s, e, o)
    ensures Expects(Update(s, u, o.relay, o.sends), t.relay, t.sender)
  {
    if t in s.tasks { assert Expects(s, t.relay, t.sender); }
  }

  lemma TasksKept(centre: PeerId, s: State, e: Event)
    requires Inv(s) && Enabled(centre, s, e)
    ensures TasksOk(Next(centre, s, e))
  {
    var u := Site(centre, e);
    var o := React(s.relays[u], e);
    ReactLegal(centre, s, e);
    if e.Deliver? { SpawnedIsExpected(s.relays[u], e.m); }
    forall t | t in TasksAfter(s, e, o) ensures Expects(Update(s, u, o.relay, o.sends), t.relay, t.sender) {
      OutcomeTasks(s, u, e, o, t);
    }
  }

  lemma StepKeepsInv(centre: PeerId, s: State, e: Event)
    requires Inv(s) && Enabled(centre, s, e)
    ensures Inv(Next(centre, s, e))
  {
    var u := Site(centre, e);
    var o := React(s.relays[u], e);
    ReactLegal(centre, s, e);
    LegalKeepsInv(s, u, o.relay, o.sends);
    var s1, s' := Update(s, u, o.relay, o.sends), Next(centre, s, e);
    TasksKept(centre, s, e);
    SameBooks(s1, s');
  }

  /** The invariant reads the history and the task list only where it says so. */
  lemma SameBooks(s1: State, s2: State)
    requires Inv(s1) && s1.relays == s2.relays && s1.sent == s2.sent && TasksOk(s2)
    ensures Inv(s2)
  {
    forall m | m in s2.sent ensures Justified(s2, m) { assert Justified(s1, m); }
    forall a, b ensures SocketOk(s2, a, b) { assert SocketOk(s1, a, b); }
    forall a, b | IsChild(s2, a, b) ensures Expects(s2, a, b) { assert IsChild(s1, a, b); }
    forall a, b | Expects(s2, a, b) ensures Check(b, a) in s2.sent { assert Expects(s1, a, b); }
  }

  lemma InitialInv(s: State, centre: PeerId)
    requires Initial(s, centre)
    ensures Inv(s)
  {
  }

  /** The invariant holds in every state of every run. */
  lemma {:induction false} RunKeepsInv(centre: PeerId, states: seq<State>, events: seq<Event>, k: nat)
    requires Execution(centre, states, events) && Initial(states[0], centre) && k < |states|
    ensures Inv(states[k]) && centre in states[k].relays && states[k].relays.Keys == states[0].relays.Keys
  {
    if k == 0 {
      InitialInv(states[0], centre);
    } else {
      RunKeepsInv(centre, states, events, k - 1);
      StepKeepsInv(centre, states[k - 1], events[k - 1]);
    }
  }
}
