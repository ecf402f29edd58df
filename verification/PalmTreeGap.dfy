/** A relay with `fanout + 1` neighbours can leave one of them out for good: fanout 4, and
    the relay 3 with the neighbours 4, 5, 1, 2, 6 in this order. It accepts the checks of 1
    and 2 and takes 1 as its parent. The check of 2 goes on first, while the link to 1 counts
    as an outgoing one; then 4 and 5 come online; then the check of 1 goes on, with a window
    that has shrunk over 6 (src/transfers/otm/palm_tree.py:263-340). */
module PalmTreeGap {
  import opened Peers
  import opened RelayModel
  import opened Overlay
  import opened PalmTreeNetwork
  import opened PalmTreeSpanning
  import opened PalmTreeDegree

  const ROW: seq<PeerId> := [4, 5, 1, 2, 6]

  const NODES: set<PeerId> := {0, 1, 2, 3, 4, 5, 6}

  function Row(u: PeerId): seq<PeerId> {
    if u == 0 then [1, 2] else if u == 1 || u == 2 then [0, 3] else if u == 3 then ROW else [3]
  }

  function Bottleneck(): Adjacency { map u | u in NODES :: Row(u) }

  // ---- the relay 3 by itself --------------------------------------------------------

  /** Two checks accepted, the stream of the first one taken. */
  lemma AcceptsCheck(r: Relay, p: PeerId)
    requires r.id == 3 && r.parent.Pending? && !r.phase.TreeCheckDone? && p in r.links && |r.active| <= r.fanout
    ensures OnCheck(r, p) == Outcome(r.(expected := r.expected + {p}, active := r.active + {p}), {Upgrade(3, p)}, true)
  {
  }

  lemma ThirdBegins() returns (once: Relay, twice: Relay, dialled: Relay)
    ensures OnCheck(ConfiguredRelay(3, ROW, 4), 1) == Outcome(once, {Upgrade(3, 1)}, true)
    ensures OnCheck(once, 2) == Outcome(twice, {Upgrade(3, 2)}, true)
    ensures OnDial(twice, 1) == Outcome(dialled, {LinkOk(3, 1)}, false)
    ensures dialled == ConfiguredRelay(3, ROW, 4).(active := {1, 2}, expected := {1, 2}, parent := Parent(1),
                         links := FreshLinks(map[], ROW)[1 := Link(Online, true, Accepted)])
  {
    assert ROW[0] == 4 && ROW[1] == 5 && ROW[2] == 1 && ROW[3] == 2 && ROW[4] == 6;
    var r := ConfiguredRelay(3, ROW, 4);
    once := r.(expected := {1}, active := {1});
    twice := r.(expected := {1, 2}, active := {1, 2});
    dialled := twice.(parent := Parent(1), links := r.links[1 := Link(Online, true, Accepted)]);
    AcceptsCheck(r, 1);
    AcceptsCheck(once, 2);
    assert {} + {1} == {1} && {1} + {2} == {1, 2};
  }

  lemma RowLinks()
    ensures FreshLinks(map[], ROW).Keys == {1, 2, 4, 5, 6}
  {
    assert ROW[0] == 4 && ROW[1] == 5 && ROW[2] == 1 && ROW[3] == 2 && ROW[4] == 6;
    assert forall p :: p in ROW <==> p in {1, 2, 4, 5, 6};
  }

  /** The first window ends before 6, because the link to 1 is online. */
  lemma FirstWindow(r: Relay)
    requires r.order == ROW && r.window == 0 && r.fanout == 4 && r.id == 3 && r.active == {1, 2}
    requires OnlineOutgoing(r) == {1}
    ensures Forward(r, 2) == Outcome(r.(window := 3, active := {1, 2, 4, 5}), {Check(3, 4), Check(3, 5)}, false)
  {
    assert WindowEnd(r) == 3 && PySlice(ROW, 0, 4) == [4, 5, 1, 2];
    assert Sampled(r, 2) == {4, 5};
    assert Checks(3, {4, 5}) == {Check(3, 4), Check(3, 5)};
    assert {1, 2} + {4, 5} == {1, 2, 4, 5};
  }

  /** The second window holds one peer, which is active. */
  lemma SecondWindow(r: Relay)
    requires r.order == ROW && r.window == 3 && r.fanout == 4 && r.id == 3 && r.active == {1, 2, 4, 5}
    requires OnlineOutgoing(r) == {4, 5}
    ensures Forward(r, 1) == Outcome(r, {}, false)
  {
    assert WindowEnd(r) == 3 && PySlice(ROW, 3, 4) == [2];
    assert Sampled(r, 1) == {};
    assert r.active + {} == r.active;
  }

  lemma ThirdAsks(r: Relay) returns (asked: Relay)
    requires r == ConfiguredRelay(3, ROW, 4).(active := {1, 2}, expected := {1, 2}, parent := Parent(1),
                    links := FreshLinks(map[], ROW)[1 := Link(Online, true, Accepted)])
    ensures OnResume(r, 2) == Outcome(asked, {Check(3, 4), Check(3, 5)}, false)
    ensures asked == r.(links := r.links[2 := Link(Offline, false, NoSocket)],
                        window := 3, active := {1, 2, 4, 5}, phase := TreeCheckDone)
  {
    RowLinks();
    var turned := r.(links := r.links[2 := Link(Offline, false, NoSocket)]);
    assert OnlineOutgoing(turned) == {1};
    FirstWindow(turned);
    asked := turned.(window := 3, active := {1, 2, 4, 5}, phase := TreeCheckDone);
  }

  lemma ThirdDials(r: Relay, c: PeerId) returns (after: Relay)
    requires r.id == 3 && c in r.active && c in r.links && r.links[c] == FRESH_LINK
    ensures OnUpgrade(r, c) == Outcome(r, {Dial(3, c)}, false) && OnLinkOk(r, c) == Outcome(after, {}, false)
    ensures after == r.(links := r.links[c := Link(Online, true, Dialed)])
  {
    after := r.(links := r.links[c := Link(Online, true, Dialed)]);
  }

  lemma ThirdEnds(r: Relay) returns (last: Relay)
    requires r.order == ROW && r.window == 3 && r.fanout == 4 && r.id == 3 && r.active == {1, 2, 4, 5}
    requires {1, 2, 4, 5} <= r.links.Keys && r.links[2].status.Offline? && r.parent == Parent(1)
    requires r.links[4] == Link(Online, true, Dialed) && r.links[5] == Link(Online, true, Dialed)
    ensures OnResume(r, 1) == Outcome(last, {}, false)
    ensures last.id == 3 && last.active == {1, 2, 4, 5} && last.fanout == 4 && last.parent == Parent(1)
  {
    var turned := r.(links := r.links[1 := r.links[1].(outgoing := false)]);
    assert OnlineOutgoing(turned) == {4, 5};
    SecondWindow(turned);
    last := turned.(phase := TreeCheckDone);
  }

  /** The values of the relay 3 from its first check to its last window. */
  datatype Third = Third(begin: Relay, once: Relay, twice: Relay, dialled: Relay, asked: Relay, with4: Relay, with5: Relay, last: Relay)

  ghost predicate PlaysFirst(t: Third) {
    && OnCheck(t.begin, 1) == Outcome(t.once, {Upgrade(3, 1)}, true)
    && OnCheck(t.once, 2) == Outcome(t.twice, {Upgrade(3, 2)}, true)
    && OnDial(t.twice, 1) == Outcome(t.dialled, {LinkOk(3, 1)}, false) && t.dialled.parent.Parent?
    && OnResume(t.dialled, 2) == Outcome(t.asked, {Check(3, 4), Check(3, 5)}, false)
  }

  ghost predicate PlaysSecond(t: Third) {
    && OnUpgrade(t.asked, 4) == Outcome(t.asked, {Dial(3, 4)}, false) && OnLinkOk(t.asked, 4) == Outcome(t.with4, {}, false)
    && OnUpgrade(t.with4, 5) == Outcome(t.with4, {Dial(3, 5)}, false) && OnLinkOk(t.with4, 5) == Outcome(t.with5, {}, false)
  }

  ghost predicate PlaysLast(t: Third) {
    && t.with5.parent.Parent? && OnResume(t.with5, 1) == Outcome(t.last, {}, false)
    && t.last.id == 3 && t.last.active == {1, 2, 4, 5} && t.last.fanout == 4 && t.last.parent == Parent(1)
  }

  lemma ThirdPlays() returns (t: Third)
    ensures t.begin == ConfiguredRelay(3, ROW, 4) && PlaysFirst(t) && PlaysSecond(t) && PlaysLast(t)
  {
    var once, twice, dialled := ThirdBegins();
    var asked := ThirdAsks(dialled);
    RowLinks();
    var with4 := ThirdDials(asked, 4);
    var with5 := ThirdDials(with4, 5);
    var last := ThirdEnds(with5);
    t := Third(ConfiguredRelay(3, ROW, 4), once, twice, dialled, asked, with4, with5, last);
  }

  // ---- the other relays -------------------------------------------------------------

  lemma CentreStarts() returns (c: Relay)
    ensures OnStart(ConfiguredRelay(0, [1, 2], 4)) == Outcome(c, {Check(0, 1), Check(0, 2)}, false)
    ensures CentreDials(c)
  {
    var row: seq<PeerId> := [1, 2];
    var r := ConfiguredRelay(0, row, 4).(parent := Root);
    assert row[0] == 1 && row[1] == 2;
    assert OnlineOutgoing(r) == {};
    assert PySlice(row, 0, 3) == row;
    assert forall p :: p in row <==> p in {1, 2};
    assert Sampled(r, 0) == {1, 2};
    assert Checks(0, {1, 2}) == {Check(0, 1), Check(0, 2)};
    c := Forward(r, 0).relay;
  }

  ghost predicate CentreDials(c: Relay) {
    forall u :: u in {1, 2} ==> OnUpgrade(c, u) == Outcome(c, {Dial(0, u)}, false)
  }

  /** A relay accepts the first check that it gets, and then the stream. */
  lemma Joins(u: PeerId, row: seq<PeerId>, p: PeerId) returns (mid: Relay, joined: Relay)
    requires p in row
    ensures OnCheck(ConfiguredRelay(u, row, 4), p) == Outcome(mid, {Upgrade(u, p)}, true)
    ensures OnDial(mid, p) == Outcome(joined, {LinkOk(u, p)}, false)
    ensures joined == ConfiguredRelay(u, row, 4).(
      active := {p}, expected := {p}, parent := Parent(p), links := FreshLinks(map[], row)[p := Link(Online, true, Accepted)])
  {
    var r := ConfiguredRelay(u, row, 4);
    assert r.active + {p} == {p} && r.expected + {p} == {p};
    mid := r.(active := {p}, expected := {p});
    joined := mid.(parent := Parent(p), links := r.links[p := Link(Online, true, Accepted)]);
  }

  lemma Asks(u: PeerId, r: Relay) returns (a: Relay)
    requires r == ConfiguredRelay(u, [0, 3], 4).(active := {0}, expected := {0}, parent := Parent(0),
                    links := FreshLinks(map[], [0, 3])[0 := Link(Online, true, Accepted)])
    ensures OnResume(r, 0) == Outcome(a, {Check(u, 3)}, false) && OnUpgrade(a, 3) == Outcome(a, {Dial(u, 3)}, false)
  {
    var row: seq<PeerId> := [0, 3];
    assert row[0] == 0 && row[1] == 3 && forall p :: p in row <==> p in {0, 3};
    var turned := r.(links := r.links[0 := Link(Online, false, Accepted)]);
    assert OnlineOutgoing(turned) == {};
    assert PySlice(row, 0, 3) == row;
    assert Sampled(turned, 0) == {3};
    assert Checks(u, {3}) == {Check(u, 3)};
    a := Forward(turned, 0).relay.(phase := TreeCheckDone);
  }

  // ---- the run ----------------------------------------------------------------------

  ghost predicate CanReach(s0: State, s: State) {
    exists states, events :: RegularRun(0, states, events) && states[0] == s0 && states[|events|] == s
  }

  lemma Go(s0: State, s: State, e: Event)
    requires CanReach(s0, s) && Regular(s, e) && Enabled(0, s, e)
    ensures CanReach(s0, Next(0, s, e))
  {
    var states, events :| RegularRun(0, states, events) && states[0] == s0 && states[|events|] == s;
    var s' := Next(0, s, e);
    RunExtends(0, states, events, e, s');
    assert (states + [s'])[0] == s0 && (states + [s'])[|events + [e]|] == s';
  }

  lemma Hand(s0: State, s: State, m: Message, o: Outcome) returns (s': State)
    requires CanReach(s0, s) && m in s.sent && m !in s.handled && m.dst in s.relays && o == Handle(s.relays[m.dst], m)
    ensures CanReach(s0, s')
    ensures s' == State(s.relays[m.dst := o.relay], s.sent + o.sends, s.handled + {m},
                        if o.spawned then s.tasks + multiset{Task(m.dst, m.src)} else s.tasks)
  {
    s' := Next(0, s, Deliver(m));
    Go(s0, s, Deliver(m));
  }

  lemma GoOn(s0: State, s: State, t: Task, o: Outcome) returns (s': State)
    requires CanReach(s0, s) && t in s.tasks && t.relay in s.relays && s.relays[t.relay].parent.Parent?
    requires o == OnResume(s.relays[t.relay], t.sender)
    ensures CanReach(s0, s')
    ensures s' == State(s.relays[t.relay := o.relay], s.sent + o.sends, s.handled, s.tasks - multiset{t})
  {
    s' := Next(0, s, Resume(t));
    Go(s0, s, Resume(t));
  }

  /** `u` takes `p`, which has asked it, as its parent. */
  lemma Join(s0: State, s: State, u: PeerId, p: PeerId, mid: Relay, joined: Relay) returns (s': State)
    requires CanReach(s0, s) && u in s.relays && p in s.relays && u != p
    requires OnCheck(s.relays[u], p) == Outcome(mid, {Upgrade(u, p)}, true)
    requires OnDial(mid, p) == Outcome(joined, {LinkOk(u, p)}, false)
    requires OnUpgrade(s.relays[p], u) == Outcome(s.relays[p], {Dial(p, u)}, false)
    requires Check(p, u) in s.sent && s.handled !! JoinMessages(u, p)
    ensures CanReach(s0, s')
    ensures s' == State(s.relays[u := joined], s.sent + {Upgrade(u, p)} + {Dial(p, u)} + {LinkOk(u, p)},
                        s.handled + JoinMessages(u, p), s.tasks + multiset{Task(u, p)})
  {
    var s1 := Hand(s0, s, Check(p, u), Outcome(mid, {Upgrade(u, p)}, true));
    var s2 := Hand(s0, s1, Upgrade(u, p), Outcome(s.relays[p], {Dial(p, u)}, false));
    assert s2.relays == s1.relays;
    s' := Hand(s0, s2, Dial(p, u), Outcome(joined, {LinkOk(u, p)}, false));
    assert s'.relays == s.relays[u := joined];
  }

  function JoinMessages(u: PeerId, p: PeerId): set<Message> { {Check(p, u), Upgrade(u, p), Dial(p, u)} }

  lemma StartStage(s0: State, c: Relay) returns (s: State)
    requires Silent(s0) && 0 in s0.relays && s0.relays[0].parent.Pending?
    requires OnStart(s0.relays[0]) == Outcome(c, {Check(0, 1), Check(0, 2)}, false)
    ensures CanReach(s0, s) && s == State(s0.relays[0 := c], {Check(0, 1), Check(0, 2)}, {}, multiset{})
  {
    var none: seq<Event> := [];
    assert RegularRun(0, [s0], none) && [s0][0] == s0 && [s0][|none|] == s0;
    Go(s0, s0, Start);
    s := Next(0, s0, Start);
  }

  /** `u` joins the centre and asks 3. */
  lemma AskerStage(s0: State, s: State, u: PeerId) returns (s': State, a: Relay)
    requires CanReach(s0, s) && u in {1, 2} && u in s.relays && s.relays[u] == ConfiguredRelay(u, [0, 3], 4)
    requires 0 in s.relays && CentreDials(s.relays[0])
    requires Check(0, u) in s.sent && s.handled !! JoinMessages(u, 0)
    ensures CanReach(s0, s') && s'.relays == s.relays[u := a] && s'.tasks == s.tasks
    ensures s.sent <= s'.sent && Check(u, 3) in s'.sent && s'.handled == s.handled + JoinMessages(u, 0)
    ensures OnUpgrade(a, 3) == Outcome(a, {Dial(u, 3)}, false)
  {
    var mid, joined := Joins(u, [0, 3], 0);
    a := Asks(u, joined);
    s' := JoinAndAsk(s0, s, u, mid, joined, a);
  }

  lemma JoinAndAsk(s0: State, s: State, u: PeerId, mid: Relay, joined: Relay, a: Relay) returns (s': State)
    requires CanReach(s0, s) && u in s.relays && 0 in s.relays && u != 0 && joined.parent.Parent?
    requires OnCheck(s.relays[u], 0) == Outcome(mid, {Upgrade(u, 0)}, true)
    requires OnDial(mid, 0) == Outcome(joined, {LinkOk(u, 0)}, false)
    requires OnUpgrade(s.relays[0], u) == Outcome(s.relays[0], {Dial(0, u)}, false)
    requires OnResume(joined, 0) == Outcome(a, {Check(u, 3)}, false)
    requires Check(0, u) in s.sent && s.handled !! JoinMessages(u, 0)
    ensures CanReach(s0, s') && s'.relays == s.relays[u := a] && s'.tasks == s.tasks
    ensures s.sent <= s'.sent && Check(u, 3) in s'.sent && s'.handled == s.handled + JoinMessages(u, 0)
  {
    var s1 := Join(s0, s, u, 0, mid, joined);
    s' := GoOn(s0, s1, Task(u, 0), Outcome(a, {Check(u, 3)}, false));
    assert s'.tasks == s.tasks;
  }

  /** 1 and 2 have joined the centre and asked 3, and nothing has been delivered to 3. */
  ghost predicate AtThree(s: State, a1: Relay, r3: Relay, r4: Relay, r5: Relay) {
    && NODES <= s.relays.Keys && s.relays[1] == a1 && s.relays[3] == r3 && s.relays[4] == r4 && s.relays[5] == r5
    && Check(1, 3) in s.sent && Check(2, 3) in s.sent && s.tasks == multiset{}
    && s.handled == JoinMessages(1, 0) + JoinMessages(2, 0)
  }

  lemma BothAsk(s0: State, s: State) returns (s': State, a1: Relay)
    requires CanReach(s0, s) && NODES <= s.relays.Keys && CentreDials(s.relays[0])
    requires s.relays[1] == ConfiguredRelay(1, [0, 3], 4) && s.relays[2] == ConfiguredRelay(2, [0, 3], 4)
    requires Check(0, 1) in s.sent && Check(0, 2) in s.sent && s.handled == {} && s.tasks == multiset{}
    ensures CanReach(s0, s') && AtThree(s', a1, s.relays[3], s.relays[4], s.relays[5])
    ensures OnUpgrade(a1, 3) == Outcome(a1, {Dial(1, 3)}, false)
  {
    var s1, b1 := AskerStage(s0, s, 1);
    JoinsApart(s1.handled);
    var s2, b2 := AskerStage(s0, s1, 2);
    s', a1 := s2, b1;
  }

  lemma JoinsApart(handled: set<Message>)
    requires handled == {} + JoinMessages(1, 0)
    ensures handled == JoinMessages(1, 0) && handled !! JoinMessages(2, 0)
  {
  }

  lemma TwoChecks(s0: State, s: State, once: Relay, twice: Relay) returns (s': State)
    requires CanReach(s0, s) && 3 in s.relays
    requires OnCheck(s.relays[3], 1) == Outcome(once, {Upgrade(3, 1)}, true)
    requires OnCheck(once, 2) == Outcome(twice, {Upgrade(3, 2)}, true)
    requires Check(1, 3) in s.sent && Check(2, 3) in s.sent && Check(1, 3) !in s.handled && Check(2, 3) !in s.handled
    ensures CanReach(s0, s')
    ensures s' == State(s.relays[3 := twice], s.sent + {Upgrade(3, 1)} + {Upgrade(3, 2)},
                        s.handled + {Check(1, 3)} + {Check(2, 3)}, s.tasks + multiset{Task(3, 1)} + multiset{Task(3, 2)})
  {
    var s1 := Hand(s0, s, Check(1, 3), Outcome(once, {Upgrade(3, 1)}, true));
    s' := Hand(s0, s1, Check(2, 3), Outcome(twice, {Upgrade(3, 2)}, true));
    assert s'.relays == s.relays[3 := twice];
  }

  lemma DialAndResume(s0: State, s: State, asker: Relay, before: Relay, dialled: Relay, after: Relay) returns (s': State)
    requires CanReach(s0, s) && 3 in s.relays && s.relays[3] == before && 1 in s.relays && s.relays[1] == asker
    requires OnUpgrade(asker, 3) == Outcome(asker, {Dial(1, 3)}, false)
    requires OnDial(before, 1) == Outcome(dialled, {LinkOk(3, 1)}, false) && dialled.parent.Parent?
    requires OnResume(dialled, 2) == Outcome(after, {Check(3, 4), Check(3, 5)}, false)
    requires Upgrade(3, 1) in s.sent && Upgrade(3, 1) !in s.handled && Dial(1, 3) !in s.handled && Task(3, 2) in s.tasks
    ensures CanReach(s0, s')
    ensures s' == State(s.relays[3 := after], s.sent + {Dial(1, 3)} + {LinkOk(3, 1)} + {Check(3, 4), Check(3, 5)},
                        s.handled + {Upgrade(3, 1)} + {Dial(1, 3)}, s.tasks - multiset{Task(3, 2)})
  {
    var s1 := Hand(s0, s, Upgrade(3, 1), Outcome(asker, {Dial(1, 3)}, false));
    assert s1.relays == s.relays;
    var s2 := Hand(s0, s1, Dial(1, 3), Outcome(dialled, {LinkOk(3, 1)}, false));
    s' := GoOn(s0, s2, Task(3, 2), Outcome(after, {Check(3, 4), Check(3, 5)}, false));
    assert s'.relays == s.relays[3 := after];
  }

  /** `c` joins 3 and gets its stream. */
  lemma ChildStage(s0: State, s: State, c: PeerId, after: Relay) returns (s': State)
    requires CanReach(s0, s) && c in s.relays && 3 in s.relays && c != 3 && s.relays[c] == ConfiguredRelay(c, [3], 4)
    requires OnUpgrade(s.relays[3], c) == Outcome(s.relays[3], {Dial(3, c)}, false)
    requires OnLinkOk(s.relays[3], c) == Outcome(after, {}, false)
    requires Check(3, c) in s.sent && s.handled !! JoinMessages(c, 3) && LinkOk(c, 3) !in s.handled
    ensures CanReach(s0, s') && s'.relays.Keys == s.relays.Keys && s'.relays[3] == after
    ensures forall u :: u in s.relays && u != c && u != 3 ==> s'.relays[u] == s.relays[u]
    ensures s.sent <= s'.sent && s'.handled == s.handled + JoinMessages(c, 3) + {LinkOk(c, 3)}
    ensures s'.tasks == s.tasks + multiset{Task(c, 3)}
  {
    var mid, joined := Joins(c, [3], 3);
    var s1 := Join(s0, s, c, 3, mid, joined);
    s' := Hand(s0, s1, LinkOk(c, 3), Outcome(after, {}, false));
  }

  /** 3 has taken 1 as its parent, gone on with the check of 2, and asked 4 and 5. */
  lemma UpToFirstWindow(s0: State, s: State, a1: Relay, r4: Relay, r5: Relay, t: Third) returns (s': State)
    requires CanReach(s0, s) && AtThree(s, a1, t.begin, r4, r5) && PlaysFirst(t)
    requires OnUpgrade(a1, 3) == Outcome(a1, {Dial(1, 3)}, false)
    ensures CanReach(s0, s') && s'.relays == s.relays[3 := t.asked]
    ensures Check(3, 4) in s'.sent && Check(3, 5) in s'.sent && s'.tasks == multiset{Task(3, 1)}
    ensures s'.handled == s.handled + {Check(1, 3)} + {Check(2, 3)} + {Upgrade(3, 1)} + {Dial(1, 3)}
  {
    var s1 := TwoChecksStage(s0, s, a1, r4, r5, t);
    s' := FirstWindowStage(s0, s1, a1, t);
    assert s'.relays == s.relays[3 := t.asked];
  }

  lemma TwoChecksStage(s0: State, s: State, a1: Relay, r4: Relay, r5: Relay, t: Third) returns (s': State)
    requires CanReach(s0, s) && AtThree(s, a1, t.begin, r4, r5) && PlaysFirst(t)
    ensures CanReach(s0, s') && s'.relays == s.relays[3 := t.twice] && Upgrade(3, 1) in s'.sent
    ensures s'.handled == s.handled + {Check(1, 3)} + {Check(2, 3)} && s'.handled !! {Upgrade(3, 1), Dial(1, 3)}
    ensures s'.tasks == multiset{} + multiset{Task(3, 1)} + multiset{Task(3, 2)}
  {
    FirstMessagesFree(s);
    s' := TwoChecks(s0, s, t.once, t.twice);
  }

  lemma FirstMessagesFree(s: State)
    requires s.handled == JoinMessages(1, 0) + JoinMessages(2, 0)
    ensures s.handled !! {Check(1, 3), Check(2, 3), Upgrade(3, 1), Dial(1, 3)}
  {
  }

  lemma FirstWindowStage(s0: State, s: State, a1: Relay, t: Third) returns (s': State)
    requires CanReach(s0, s) && 1 in s.relays && s.relays[1] == a1 && OnUpgrade(a1, 3) == Outcome(a1, {Dial(1, 3)}, false)
    requires 3 in s.relays && s.relays[3] == t.twice && PlaysFirst(t)
    requires Upgrade(3, 1) in s.sent && Upgrade(3, 1) !in s.handled && Dial(1, 3) !in s.handled
    requires s.tasks == multiset{} + multiset{Task(3, 1)} + multiset{Task(3, 2)}
    ensures CanReach(s0, s') && s'.relays == s.relays[3 := t.asked]
    ensures Check(3, 4) in s'.sent && Check(3, 5) in s'.sent && s'.tasks == multiset{Task(3, 1)}
    ensures s'.handled == s.handled + {Upgrade(3, 1)} + {Dial(1, 3)}
  {
    s' := DialAndResume(s0, s, a1, t.twice, t.dialled, t.asked);
    assert s'.tasks == multiset{Task(3, 1)};
  }

  ghost predicate Untouched(s: State, c: PeerId) {
    s.handled !! JoinMessages(c, 3) && LinkOk(c, 3) !in s.handled
  }

  lemma StillUntouched(s: State, s': State)
    requires s.handled == JoinMessages(1, 0) + JoinMessages(2, 0)
    requires s'.handled == s.handled + {Check(1, 3)} + {Check(2, 3)} + {Upgrade(3, 1)} + {Dial(1, 3)}
    ensures Untouched(s', 4) && Untouched(s', 5)
  {
  }

  /** 4 and 5 are online children of 3. */
  lemma UpToSecondWindow(s0: State, s: State, t: Third) returns (s': State)
    requires CanReach(s0, s) && NODES <= s.relays.Keys && s.relays[3] == t.asked && PlaysSecond(t)
    requires s.relays[4] == ConfiguredRelay(4, [3], 4) && s.relays[5] == ConfiguredRelay(5, [3], 4)
    requires Check(3, 4) in s.sent && Check(3, 5) in s.sent && s.tasks == multiset{Task(3, 1)}
    requires Untouched(s, 4) && Untouched(s, 5)
    ensures CanReach(s0, s') && 3 in s'.relays && s'.relays[3] == t.with5
    ensures s'.tasks == multiset{Task(3, 1)} + multiset{Task(4, 3)} + multiset{Task(5, 3)}
  {
    var s1 := ChildStage(s0, s, 4, t.with4);
    s' := ChildStage(s0, s1, 5, t.with5);
  }

  /** The check of 1 has gone on. */
  lemma LastStage(s0: State, s: State, t: Third) returns (s': State)
    requires CanReach(s0, s) && 3 in s.relays && s.relays[3] == t.with5 && PlaysLast(t)
    requires s.tasks == multiset{Task(3, 1)} + multiset{Task(4, 3)} + multiset{Task(5, 3)}
    ensures CanReach(s0, s') && Past(s')
  {
    s' := GoOn(s0, s, Task(3, 1), Outcome(t.last, {}, false));
  }

  // ---- and its end ------------------------------------------------------------------

  /** The relay 3 is through with its checks. */
  ghost predicate Past(s: State) {
    && 3 in s.relays && s.relays[3].id == 3 && s.relays[3].active == {1, 2, 4, 5} && s.relays[3].fanout == 4
    && s.relays[3].parent == Parent(1) && forall b :: Task(3, b) !in s.tasks
  }

  /** Whatever it gets, it asks nobody any more. */
  lemma PastIgnores(r: Relay, m: Message)
    requires r.active == {1, 2, 4, 5} && r.fanout == 4 && r.parent == Parent(1)
    ensures var o := Handle(r, m); !o.spawned && o.relay == r.(links := o.relay.links)
  {
    assert |{1, 2, 4, 5}| == 4;
  }

  lemma PastStays(s: State, e: Event)
    requires Past(s) && Regular(s, e) && Enabled(0, s, e)
    ensures Past(Next(0, s, e))
  {
    if e.Deliver? && e.m.dst == 3 { PastIgnores(s.relays[3], e.m); }
  }

  lemma {:induction false} PastFinishes(s0: State, s: State, adj: Adjacency) returns (last: State)
    requires CanReach(s0, s) && SpanInv(s, 0, adj) && Past(s)
    ensures CanReach(s0, last) && SpanInv(last, 0, adj) && Past(last) && Quiescent(0, last)
    decreases Budget(s, 0, AllMessages(adj.Keys))
  {
    last := s;
    if !Quiescent(0, s) {
      var e :| Regular(s, e) && Enabled(0, s, e);
      Go(s0, s, e);
      PastStays(s, e);
      RegularStep(0, adj, s, e, Next(0, s, e));
      last := PastFinishes(s0, Next(0, s, e), adj);
    }
  }

  lemma RowMembers(u: PeerId)
    requires u in NODES
    ensures Distinct(Row(u)) && |Row(u)| <= 5
    ensures Members(Row(u)) == if u == 0 then {1, 2} else if u == 1 || u == 2 then {0, 3}
                               else if u == 3 then {1, 2, 4, 5, 6} else {3}
  {
    if u == 3 { assert ROW[0] == 4 && ROW[1] == 5 && ROW[2] == 1 && ROW[3] == 2 && ROW[4] == 6; }
    if u == 0 { assert [1, 2][0] == 1 && [1, 2][1] == 2; }
    if u == 1 || u == 2 { assert [0, 3][0] == 0 && [0, 3][1] == 3; }
    if u > 3 { assert [3][0] == 3; }
  }

  lemma BottleneckIsGood()
    ensures GoodGraph(Bottleneck())
    ensures forall u :: u in Bottleneck() ==> |Bottleneck()[u]| <= 5
  {
    var adj := Bottleneck();
    forall u | u in adj ensures Distinct(adj[u]) && |adj[u]| <= 5 { RowMembers(u); }
    forall a, b | Linked(adj, a, b) ensures a != b && Linked(adj, b, a) {
      RowMembers(a);
      assert b in Members(Row(a));
      RowMembers(b);
      assert a in Members(Row(b));
    }
  }

  lemma SixIsConnected()
    ensures Reaches(Bottleneck(), 0, 6)
  {
    RowMembers(0);
    RowMembers(1);
    RowMembers(3);
    var path: seq<PeerId> := [0, 1, 3, 6];
    assert 1 in Members(Row(0)) && 3 in Members(Row(1)) && 6 in Members(Row(3));
    assert WalkBetween(Bottleneck(), path, 0, 6);
  }

  ghost function Fresh(): State {
    State(map u | u in Bottleneck() :: OnUpdateState(FreshRelay(u, 4), Bottleneck()[u]), {}, {}, multiset{})
  }

  ghost predicate Silent(s: State) { s.sent == {} && s.handled == {} && s.tasks == multiset{} }

  /** What the run needs of its first state. */
  ghost predicate Begins(s: State) {
    && s.relays.Keys == NODES && Silent(s)
    && s.relays[0] == ConfiguredRelay(0, [1, 2], 4) && s.relays[3] == ConfiguredRelay(3, ROW, 4)
    && s.relays[1] == ConfiguredRelay(1, [0, 3], 4) && s.relays[2] == ConfiguredRelay(2, [0, 3], 4)
    && s.relays[4] == ConfiguredRelay(4, [3], 4) && s.relays[5] == ConfiguredRelay(5, [3], 4)
  }

  lemma FreshRelays()
    ensures Fresh().relays.Keys == NODES == Bottleneck().Keys
    ensures forall u :: u in NODES ==> Bottleneck()[u] == Row(u) && Fresh().relays[u] == ConfiguredRelay(u, Row(u), 4)
  {
    forall u | u in NODES ensures OnUpdateState(FreshRelay(u, 4), Row(u)) == ConfiguredRelay(u, Row(u), 4) {
      RowMembers(u);
      ConfigureFresh(u, 4, Row(u));
    }
  }

  lemma FreshBegins()
    ensures Begins(Fresh())
  {
    FreshRelays();
    assert Fresh().relays[0] == ConfiguredRelay(0, Row(0), 4) && Fresh().relays[1] == ConfiguredRelay(1, Row(1), 4);
    assert Fresh().relays[2] == ConfiguredRelay(2, Row(2), 4) && Fresh().relays[3] == ConfiguredRelay(3, Row(3), 4);
    assert Fresh().relays[4] == ConfiguredRelay(4, Row(4), 4) && Fresh().relays[5] == ConfiguredRelay(5, Row(5), 4);
  }

  lemma FreshIsReady()
    ensures Ready(Fresh(), 0, Bottleneck(), 4)
  {
    BottleneckIsGood();
  }

  /** On this overlay, where no relay has more than `fanout + 1` neighbours and the centre
      has two, a regular run to the end leaves out a relay that is connected to the centre:
      `fanout` is the degree bound for a relay other than the centre. */
  lemma OneNeighbourTooMany()
    ensures Ready(Fresh(), 0, Bottleneck(), 4) && Reaches(Bottleneck(), 0, 6)
    ensures forall u :: u in Bottleneck() ==> |Bottleneck()[u]| <= 4 + 1
    ensures exists states, events ::
      && RegularRun(0, states, events) && states[0] == Fresh() && Quiescent(0, states[|events|])
      && !Done(states[|events|], 6)
  {
    BottleneckIsGood();
    SixIsConnected();
    FreshIsReady();
    FreshBegins();
    var last := SomeRunEnds(Fresh(), Bottleneck());
  }

  lemma SomeRunEnds(s0: State, adj: Adjacency) returns (last: State)
    requires Ready(s0, 0, adj, 4) && Begins(s0) && 6 in adj && adj[6] == [3]
    ensures CanReach(s0, last) && Quiescent(0, last) && !Done(last, 6)
  {
    var s := WholePrefix(s0);
    ReachableSpanInv(s0, s, adj);
    last := PastFinishes(s0, s, adj);
    SixIsLeftOut(last, adj);
  }

  /** Start; join and ask, twice; the two checks at 3 and the first window; 4 and 5; the
      second window. */
  lemma WholePrefix(s0: State) returns (s: State)
    requires Begins(s0)
    ensures CanReach(s0, s) && Past(s)
  {
    var c := CentreStarts();
    var t := ThirdPlays();
    var s1 := StartStage(s0, c);
    var s2, a1 := BothAsk(s0, s1);
    s := AfterThree(s0, s2, a1, s0.relays[4], s0.relays[5], t);
  }

  lemma AfterThree(s0: State, s: State, a1: Relay, r4: Relay, r5: Relay, t: Third) returns (s': State)
    requires CanReach(s0, s) && AtThree(s, a1, t.begin, r4, r5) && OnUpgrade(a1, 3) == Outcome(a1, {Dial(1, 3)}, false)
    requires r4 == ConfiguredRelay(4, [3], 4) && r5 == ConfiguredRelay(5, [3], 4)
    requires PlaysFirst(t) && PlaysSecond(t) && PlaysLast(t)
    ensures CanReach(s0, s') && Past(s')
  {
    var s1 := UpToFirstWindow(s0, s, a1, r4, r5, t);
    StillUntouched(s, s1);
    var s2 := UpToSecondWindow(s0, s1, t);
    s' := LastStage(s0, s2, t);
  }

  lemma ReachableSpanInv(s0: State, s: State, adj: Adjacency)
    requires Ready(s0, 0, adj, 4) && CanReach(s0, s)
    ensures SpanInv(s, 0, adj)
  {
    ReadyStarts(s0, 0, adj, 4);
    var states, events :| RegularRun(0, states, events) && states[0] == s0 && states[|events|] == s;
    RunKeepsSpanInv(0, adj, states, events, |events|);
  }

  lemma SixIsLeftOut(s: State, adj: Adjacency)
    requires SpanInv(s, 0, adj) && Past(s) && 6 in adj && adj[6] == [3]
    ensures !Done(s, 6)
  {
    SixIsUnasked(s);
    LeafUnasked(s, 0, adj, 6, 3);
  }

  lemma SixIsUnasked(s: State)
    requires Inv(s) && Past(s)
    ensures Check(3, 6) !in s.sent
  {
    assert Check(3, 6) in s.sent ==> Justified(s, Check(3, 6));
  }
}
