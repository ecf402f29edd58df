/** What every run of a Palm Tree session keeps, whatever is lost, duplicated,
    reordered or timed out: parent futures form a forest, data can only flow from
    a parent to its children, and no peer is asked twice. */
module PalmTreeForest {
  import opened Peers
  import opened RelayModel
  import opened PalmTreeNetwork

  /** Every child ranks above its parent. */
  ghost predicate Ranked(s: State, rank: map<PeerId, nat>) {
    && rank.Keys == s.relays.Keys
    && forall a, b :: IsChild(s, a, b) ==> b in rank && rank[b] < rank[a]
  }

  ghost predicate OnlyCentreIsRoot(s: State, centre: PeerId) {
    forall a :: a in s.relays && s.relays[a].parent.Root? ==> a == centre
  }

  /** Nobody has a parent that is itself still waiting. */
  lemma ParentIsDone(s: State, a: PeerId, b: PeerId)
    requires Inv(s) && IsChild(s, a, b)
    ensures Done(s, b)
  {
    ChildWasChecked(s, b, a);
  }

  lemma StepGrows(centre: PeerId, s: State, e: Event, s': State, a: PeerId)
    requires Inv(s) && Steps(centre, s, e, s') && a in s.relays
    ensures a in s'.relays && Grows(s.relays[a], s'.relays[a])
  {
    ReactLegal(centre, s, e);
  }

  lemma StepKeepsRoot(centre: PeerId, s: State, e: Event)
    requires Enabled(centre, s, e) && OnlyCentreIsRoot(s, centre)
    ensures OnlyCentreIsRoot(Next(centre, s, e), centre)
  {
  }

  /** A future that completes puts its relay one above its new parent. */
  ghost function RankAfter(s: State, s': State, u: PeerId, rank: map<PeerId, nat>): map<PeerId, nat>
    requires u in s.relays && u in s'.relays
  {
    if s.relays[u].parent.Pending? && s'.relays[u].parent.Parent? && s'.relays[u].parent.peer in rank
    then rank[u := rank[s'.relays[u].parent.peer] + 1] else rank
  }

  lemma UpdateKeepsRank(s: State, s': State, u: PeerId, rank: map<PeerId, nat>)
    requires Inv(s) && Inv(s') && Ranked(s, rank) && u in s.relays && u in s'.relays
    requires s'.relays == s.relays[u := s'.relays[u]] && Grows(s.relays[u], s'.relays[u])
    ensures Ranked(s', RankAfter(s, s', u, rank))
  {
    var rank' := RankAfter(s, s', u, rank);
    forall a, b | IsChild(s', a, b) ensures b in rank' && rank'[b] < rank'[a] {
      ParentIsDone(s', a, b);
      if a != u || !s.relays[u].parent.Pending? {
        assert IsChild(s, a, b);
        ParentIsDone(s, a, b);
      }
    }
  }

  lemma StepKeepsRank(centre: PeerId, s: State, e: Event, s': State, rank: map<PeerId, nat>)
    requires Inv(s) && Inv(s') && Steps(centre, s, e, s') && Ranked(s, rank)
    ensures Ranked(s', RankAfter(s, s', Site(centre, e), rank))
  {
    StepGrows(centre, s, e, s', Site(centre, e));
    UpdateKeepsRank(s, s', Site(centre, e), rank);
  }

  lemma StepKeepsForest(centre: PeerId, s: State, e: Event, s': State, rank: map<PeerId, nat>)
    requires Inv(s) && Steps(centre, s, e, s') && Ranked(s, rank) && OnlyCentreIsRoot(s, centre)
    ensures Inv(s') && OnlyCentreIsRoot(s', centre) && Ranked(s', RankAfter(s, s', Site(centre, e), rank))
  {
    StepKeepsInv(centre, s, e);
    StepKeepsRoot(centre, s, e);
    StepKeepsRank(centre, s, e, s', rank);
  }

  lemma {:induction false} RunIsRankedFrom(centre: PeerId, states: seq<State>, events: seq<Event>, k: nat,
                                           rank0: map<PeerId, nat>) returns (rank: map<PeerId, nat>)
    requires Execution(centre, states, events) && k < |states|
    requires Inv(states[0]) && Ranked(states[0], rank0) && OnlyCentreIsRoot(states[0], centre)
    ensures Inv(states[k]) && Ranked(states[k], rank) && OnlyCentreIsRoot(states[k], centre)
  {
    if k == 0 {
      rank := rank0;
    } else {
      var before := RunIsRankedFrom(centre, states, events, k - 1, rank0);
      var e := events[k - 1];
      StepKeepsForest(centre, states[k - 1], e, states[k], before);
      rank := RankAfter(states[k - 1], states[k], Site(centre, e), before);
    }
  }

  lemma RunIsRanked(centre: PeerId, states: seq<State>, events: seq<Event>, k: nat) returns (rank: map<PeerId, nat>)
    requires Execution(centre, states, events) && Initial(states[0], centre) && k < |states|
    ensures Inv(states[k]) && Ranked(states[k], rank) && OnlyCentreIsRoot(states[k], centre)
  {
    InitialInv(states[0], centre);
    rank := RunIsRankedFrom(centre, states, events, k, map u | u in states[0].relays :: 0);
  }

  /** Consecutive entries are a relay and its parent. */
  ghost predicate LeadsUp(s: State, path: seq<PeerId>) {
    path != [] && forall i :: 0 <= i < |path| - 1 ==> IsChild(s, path[i], path[i + 1])
  }

  lemma {:induction false} RanksFall(s: State, rank: map<PeerId, nat>, path: seq<PeerId>, i: nat)
    requires Ranked(s, rank) && LeadsUp(s, path) && 0 < i < |path|
    ensures path[0] in rank && path[i] in rank && rank[path[i]] < rank[path[0]]
  {
    assert IsChild(s, path[i - 1], path[i]);
    if i > 1 { RanksFall(s, rank, path, i - 1); }
  }

  /** Climbing from a relay, one gets to one whose future holds no parent. */
  lemma {:induction false} Climb(s: State, rank: map<PeerId, nat>, a: PeerId) returns (path: seq<PeerId>)
    requires Inv(s) && Ranked(s, rank) && a in s.relays
    ensures LeadsUp(s, path) && path[0] == a
    ensures path[|path| - 1] in s.relays && !s.relays[path[|path| - 1]].parent.Parent?
    ensures Done(s, a) ==> Done(s, path[|path| - 1])
    decreases rank[a]
  {
    path := [a];
    if s.relays[a].parent.Parent? {
      var b := s.relays[a].parent.peer;
      assert IsChild(s, a, b);
      ParentIsDone(s, a, b);
      var up := Climb(s, rank, b);
      path := [a] + up;
    }
  }

  /** In every state of every run, following parents never returns to a relay
      already met, and from a relay that is done it ends at the centre or at a
      relay that gave up waiting. */
  lemma ParentsFormAForest(centre: PeerId, states: seq<State>, events: seq<Event>, k: nat)
    requires Execution(centre, states, events) && Initial(states[0], centre) && k < |states|
    ensures forall path, i, j :: LeadsUp(states[k], path) && 0 <= i < j < |path| ==> path[i] != path[j]
    ensures forall a :: Done(states[k], a) ==>
              exists path :: LeadsUp(states[k], path) && path[0] == a && EndsWell(states[k], centre, path)
  {
    var s := states[k];
    var rank := RunIsRanked(centre, states, events, k);
    forall path, i, j | LeadsUp(s, path) && 0 <= i < j < |path| ensures path[i] != path[j] {
      var tail := path[i..];
      assert LeadsUp(s, tail) by {
        forall n | 0 <= n < |tail| - 1 ensures IsChild(s, tail[n], tail[n + 1]) {
          assert IsChild(s, path[i + n], path[i + n + 1]);
        }
      }
      RanksFall(s, rank, tail, j - i);
    }
    forall a | Done(s, a)
      ensures exists path :: LeadsUp(s, path) && path[0] == a && EndsWell(s, centre, path)
    {
      var path := Climb(s, rank, a);
      assert EndsWell(s, centre, path);
    }
  }

  ghost predicate EndsWell(s: State, centre: PeerId, path: seq<PeerId>)
    requires path != []
  {
    var top := path[|path| - 1];
    top in s.relays && (s.relays[top].parent.GivenUp? || (s.relays[top].parent.Root? && top == centre))
  }

  /** Whenever a dialled link is online, the relay at its other end has the dialler
      as its parent, and no other relay has dialled it successfully. */
  lemma OnlineDialledLinkLeadsToChild(centre: PeerId, states: seq<State>, events: seq<Event>, k: nat,
                                      a: PeerId, b: PeerId)
    requires Execution(centre, states, events) && Initial(states[0], centre) && k < |states|
    requires HasSocket(states[k], a, b, Dialed)
    ensures IsChild(states[k], b, a)
    ensures forall a' :: HasSocket(states[k], a', b, Dialed) ==> a' == a
  {
    RunKeepsInv(centre, states, events, k);
    DialledIsChild(states[k], a, b);
    forall a' | HasSocket(states[k], a', b, Dialed) ensures a' == a { DialledIsChild(states[k], a', b); }
  }

  /** Whatever its read link is, a relay forwards to its own children only, and to its
      parent as long as that is not the read link; once it reads from its parent, to its
      children only. */
  lemma ForwardsToChildrenOnly(centre: PeerId, states: seq<State>, events: seq<Event>, k: nat,
                               a: PeerId, b: PeerId, readLink: ParentFuture)
    requires Execution(centre, states, events) && Initial(states[0], centre) && k < |states|
    requires a in states[k].relays && b in ForwardLinks(states[k].relays[a], readLink)
    ensures IsChild(states[k], b, a) || (IsChild(states[k], a, b) && readLink != Parent(b))
    ensures readLink == states[k].relays[a].parent ==> IsChild(states[k], b, a)
    ensures b != a
  {
    var s := states[k];
    var rank := RunIsRanked(centre, states, events, k);
    assert SocketOk(s, a, b);
    if HasSocket(s, a, b, Dialed) { DialledIsChild(s, a, b); }
  }

  // ---- tree checks ---------------------------------------------------------

  ghost predicate SendsAt(centre: PeerId, states: seq<State>, events: seq<Event>, i: nat, m: Message)
    requires Execution(centre, states, events) && i < |events|
  {
    m in React(states[i].relays[Site(centre, events[i])], events[i]).sends
  }

  lemma ChecksAreFresh(r: Relay, e: Event, a: PeerId, b: PeerId)
    requires Check(a, b) in React(r, e).sends
    ensures a == r.id && b !in r.active && b in React(r, e).relay.active
  {
  }

  lemma RunGrows(centre: PeerId, states: seq<State>, events: seq<Event>, i: nat, a: PeerId)
    requires Execution(centre, states, events) && Initial(states[0], centre) && i < |events| && a in states[i].relays
    ensures a in states[i + 1].relays && Grows(states[i].relays[a], states[i + 1].relays[a])
  {
    RunKeepsInv(centre, states, events, i);
    StepGrows(centre, states[i], events[i], states[i + 1], a);
  }

  ghost predicate ActiveAt(s: State, a: PeerId, b: PeerId) { a in s.relays && b in s.relays[a].active }

  /** Without downgrades a peer never leaves `active_links`. */
  lemma {:induction false} ActiveStays(centre: PeerId, states: seq<State>, events: seq<Event>, i: nat, j: nat,
                                       a: PeerId, b: PeerId)
    requires Execution(centre, states, events) && Initial(states[0], centre) && i <= j < |states|
    requires ActiveAt(states[i], a, b)
    ensures ActiveAt(states[j], a, b)
  {
    if i < j {
      ActiveStays(centre, states, events, i, j - 1, a, b);
      RunGrows(centre, states, events, j - 1, a);
    }
  }

  lemma CheckMakesActive(centre: PeerId, states: seq<State>, events: seq<Event>, i: nat, a: PeerId, b: PeerId)
    requires Execution(centre, states, events) && Initial(states[0], centre) && i < |events|
    requires SendsAt(centre, states, events, i, Check(a, b))
    ensures !ActiveAt(states[i], a, b) && ActiveAt(states[i + 1], a, b)
  {
    RunKeepsInv(centre, states, events, i);
    assert Steps(centre, states[i], events[i], states[i + 1]);
    ChecksAreFresh(states[i].relays[Site(centre, events[i])], events[i], a, b);
  }

  lemma NoCheckWhenActive(centre: PeerId, states: seq<State>, events: seq<Event>, i: nat, j: nat, a: PeerId, b: PeerId)
    requires Execution(centre, states, events) && Initial(states[0], centre) && i <= j < |events|
    requires ActiveAt(states[i], a, b)
    ensures !SendsAt(centre, states, events, j, Check(a, b))
  {
    ActiveStays(centre, states, events, i, j, a, b);
    if SendsAt(centre, states, events, j, Check(a, b)) { CheckMakesActive(centre, states, events, j, a, b); }
  }

  /** No relay sends a tree check twice to the same peer. */
  lemma NoSecondTreeCheck(centre: PeerId, states: seq<State>, events: seq<Event>, i: nat, j: nat, a: PeerId, b: PeerId)
    requires Execution(centre, states, events) && Initial(states[0], centre) && i < j < |events|
    requires SendsAt(centre, states, events, i, Check(a, b))
    ensures !SendsAt(centre, states, events, j, Check(a, b))
  {
    CheckMakesActive(centre, states, events, i, a, b);
    NoCheckWhenActive(centre, states, events, i + 1, j, a, b);
  }

  /** No relay sends a tree check to a peer whose tree check it accepted. */
  lemma NoCheckToAcceptedPeer(centre: PeerId, states: seq<State>, events: seq<Event>, i: nat, j: nat,
                              a: PeerId, b: PeerId)
    requires Execution(centre, states, events) && Initial(states[0], centre) && i <= j < |events|
    requires Expects(states[i], a, b)
    ensures !SendsAt(centre, states, events, j, Check(a, b))
  {
    RunKeepsInv(centre, states, events, i);
    NoCheckWhenActive(centre, states, events, i, j, a, b);
  }
}
