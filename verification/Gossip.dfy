/** Rumor-mongering gossip: the books a node keeps about messages, the handler of an
    arriving message, and a whole network of nodes (src/transfers/rumor.py). */
module Gossip {
  import opened Arithmetic
  import opened Peers
  import opened Reservoir

  type MessageId = nat

  /** `_message_list` with the peers each message was sent to, and `dropped`. */
  datatype Book = Book(sent: map<MessageId, set<PeerId>>, dropped: set<MessageId>)

  const EMPTY_BOOK := Book(map[], {})

  function Push(b: Book, id: MessageId): Book { b.(sent := b.sent[id := {}]) }

  function Remove(b: Book, id: MessageId): Book { Book(b.sent - {id}, b.dropped + {id}) }

  function Marked(b: Book, id: MessageId, sample: set<PeerId>): Book
    requires id in b.sent
  {
    b.(sent := b.sent[id := b.sent[id] + sample])
  }

  /** `message_arrived` decides to gossip: fields, age and luck are one guard. */
  predicate ShouldRumor(b: Book, id: MessageId, lucky: bool) { id !in b.dropped && lucky }

  /** The book before sampling. */
  function Entered(b: Book, id: MessageId): Book { if id in b.sent then b else Push(b, id) }

  /** Two books say the same about a message. */
  ghost predicate SameAbout(a: Book, b: Book, id: MessageId) {
    && (id in a.sent <==> id in b.sent) && (id in a.dropped <==> id in b.dropped)
    && (id in a.sent && id in b.sent ==> a.sent[id] == b.sent[id])
  }

  class SimpleRumorMessageList {
    var messages: map<MessageId, set<PeerId>>
    var dropped: set<MessageId>

    function View(): Book
      reads this
    {
      Book(messages, dropped)
    }

    constructor ()
      ensures View() == EMPTY_BOOK
    {
      messages, dropped := map[], {};
    }

    method PushMessage(id: MessageId)
      modifies this
      ensures View() == Push(old(View()), id)
      ensures id in messages && messages[id] == {} && dropped == old(dropped)
      ensures forall other :: other != id ==> SameAbout(View(), old(View()), other)
    {
      messages := messages[id := {}];
    }

    /** A KeyError for an unknown message is the `requires`. */
    method RemoveMessage(id: MessageId)
      requires id in messages
      modifies this
      ensures View() == Remove(old(View()), id)
      ensures id !in messages && id in dropped
      ensures forall other :: other != id ==> SameAbout(View(), old(View()), other)
    {
      messages := messages - {id};
      dropped := dropped + {id};
    }

    /** `sample_peers`: `candidates` is `peers - peer_list` in the order a set is
        iterated in, `choices` are the results of `random.randint`. */
    method SamplePeers(id: MessageId, size: nat, peers: set<PeerId>, candidates: seq<PeerId>, choices: seq<nat>)
      returns (reservoir: seq<PeerId>)
      requires id in messages && Distinct(candidates) && Members(candidates) == peers - messages[id]
      requires |choices| == |candidates| && Draws(size, choices)
      modifies this
      ensures reservoir == Sample(candidates, size, choices)
      ensures Distinct(reservoir) && |reservoir| == Min(size, |candidates|)
      ensures Members(reservoir) <= peers - old(messages[id])
      ensures View() == Marked(old(View()), id, Members(reservoir))
      ensures id in messages && messages[id] == old(messages[id]) + Members(reservoir) && dropped == old(dropped)
      ensures forall other :: other != id ==> SameAbout(View(), old(View()), other)
    {
      reservoir := [];
      for i := 0 to |candidates|
        invariant reservoir == Sample(candidates, size, choices[..i])
      {
        assert choices[..i + 1][..i] == choices[..i];
        if i < size {
          reservoir := reservoir + [candidates[i]];
        } else {
          var j := choices[i];
          if j < size { reservoir := reservoir[j := candidates[i]]; }
        }
      }
      assert choices[..|candidates|] == choices;
      SampleIsASubset(candidates, size, choices);
      messages := messages[id := messages[id] + Members(reservoir)];
    }

    /** `message_arrived`, up to handing the sample to the transport. */
    method MessageArrived(id: MessageId, lucky: bool, alpha: nat, peers: set<PeerId>,
                          candidates: seq<PeerId>, choices: seq<nat>) returns (targets: seq<PeerId>)
      requires Distinct(candidates) && |choices| == |candidates| && Draws(alpha, choices)
      requires Members(candidates) == if id in messages then peers - messages[id] else peers
      modifies this
      ensures id in old(dropped) || !lucky ==> targets == [] && View() == old(View())
      ensures id !in old(dropped) && lucky ==>
        && targets == Sample(candidates, alpha, choices)
        && View() == Marked(Entered(old(View()), id), id, Members(targets))
        && id in messages && dropped == old(dropped)
        && messages[id] == (if id in old(messages) then old(messages[id]) else {}) + Members(targets)
        && Members(targets) <= peers && (id in old(messages) ==> Members(targets) !! old(messages[id]))
      ensures forall other :: other != id ==> SameAbout(View(), old(View()), other)
    {
      if id in dropped || !lucky { return []; }
      if id !in messages { PushMessage(id); }
      targets := SamplePeers(id, alpha, peers, candidates, choices);
    }
  }

  // ---- a network, seen from one message ----------------------------------------------

  /** A datagram from one node to another. */
  datatype Edge = Edge(src: PeerId, dst: PeerId)

  /** The books of all nodes, and the datagrams about the message: sent ever, and under way. */
  datatype Net = Net(books: map<PeerId, Book>, log: seq<Edge>, inFlight: multiset<Edge>)

  datatype Event =
    | Originate(u: PeerId, targets: seq<PeerId>, n: nat)
    | Arrive(e: Edge, lucky: bool, targets: seq<PeerId>, n: nat)  // only the first n get through
    | Duplicate(e: Edge)
    | Forget(u: PeerId)

  ghost predicate Knows(b: Book, id: MessageId) { id in b.sent || id in b.dropped }

  /** Any sample that avoids the peers already served. */
  ghost predicate Samples(b: Book, id: MessageId, nodes: set<PeerId>, targets: seq<PeerId>, n: nat) {
    && Distinct(targets) && n <= |targets| && Members(targets) <= nodes
    && (id in b.sent ==> Members(targets) !! b.sent[id])
  }

  ghost predicate Enabled(s: Net, id: MessageId, ev: Event) {
    match ev
    case Originate(u, targets, n) => u in s.books && !Knows(s.books[u], id)
                                     && Samples(s.books[u], id, s.books.Keys, targets, n)
    case Arrive(e, _, targets, n) => e in s.inFlight && e.dst in s.books
                                     && Samples(s.books[e.dst], id, s.books.Keys, targets, n)
    case Duplicate(e) => e in s.log
    case Forget(u) => u in s.books && id in s.books[u].sent
  }

  function Datagrams(u: PeerId, targets: seq<PeerId>): seq<Edge> {
    seq(|targets|, i requires 0 <= i < |targets| => Edge(u, targets[i]))
  }

  ghost function Gossips(s: Net, id: MessageId, u: PeerId, targets: seq<PeerId>, n: nat): Net
    requires u in s.books && n <= |targets|
  {
    var out := Datagrams(u, targets[..n]);
    Net(s.books[u := Marked(Entered(s.books[u], id), id, Members(targets))], s.log + out, s.inFlight + multiset(out))
  }

  ghost function Next(s: Net, id: MessageId, ev: Event): Net
    requires Enabled(s, id, ev)
  {
    match ev
    case Originate(u, targets, n) => Gossips(s, id, u, targets, n)
    case Arrive(e, lucky, targets, n) =>
      var s1 := s.(inFlight := s.inFlight - multiset{e});
      if ShouldRumor(s.books[e.dst], id, lucky) then Gossips(s1, id, e.dst, targets, n) else s1
    case Duplicate(e) => s.(inFlight := s.inFlight + multiset{e})
    case Forget(u) => s.(books := s.books[u := Remove(s.books[u], id)])
  }

  /** Whoever was sent the message is on the books of the sender, or the sender has
      dropped the message for good. */
  ghost predicate Booked(s: Net, id: MessageId, e: Edge) {
    e.src in s.books && e.dst in s.books
    && (id in s.books[e.src].dropped || (id in s.books[e.src].sent && e.dst in s.books[e.src].sent[id]))
  }

  ghost predicate Inv(s: Net, id: MessageId) {
    && Distinct(s.log)
    && (forall e :: e in s.log ==> Booked(s, id, e))
    && (forall u :: u in s.books && id in s.books[u].sent ==> id !in s.books[u].dropped)
  }

  lemma GossipsKeepsInv(s: Net, id: MessageId, u: PeerId, targets: seq<PeerId>, n: nat)
    requires Inv(s, id) && u in s.books && id !in s.books[u].dropped && Samples(s.books[u], id, s.books.Keys, targets, n)
    ensures Inv(Gossips(s, id, u, targets, n), id)
  {
    var s' := Gossips(s, id, u, targets, n);
    var out := Datagrams(u, targets[..n]);
    forall e | e in s'.log ensures Booked(s', id, e) {
      if e in s.log {
        assert Booked(s, id, e);
      } else {
        var i :| 0 <= i < |out| && out[i] == e;
        assert targets[i] in Members(targets);
      }
    }
    forall i, j | 0 <= i < j < |s'.log| ensures s'.log[i] != s'.log[j] {
      if i < |s.log| <= j {
        assert Booked(s, id, s.log[i]);
        assert targets[j - |s.log|] in Members(targets);
      }
    }
  }

  lemma StepKeepsInv(s: Net, id: MessageId, ev: Event)
    requires Inv(s, id) && Enabled(s, id, ev)
    ensures Inv(Next(s, id, ev), id)
  {
    match ev
    case Originate(u, targets, n) => GossipsKeepsInv(s, id, u, targets, n);
    case Arrive(e, lucky, targets, n) =>
      var s1 := s.(inFlight := s.inFlight - multiset{e});
      forall x | x in s1.log ensures Booked(s1, id, x) { assert Booked(s, id, x); }
      if ShouldRumor(s.books[e.dst], id, lucky) { GossipsKeepsInv(s1, id, e.dst, targets, n); }
    case Duplicate(e) =>
      var s' := Next(s, id, ev);
      forall x | x in s'.log ensures Booked(s', id, x) { assert Booked(s, id, x); }
    case Forget(u) =>
      var s' := Next(s, id, ev);
      forall x | x in s'.log ensures Booked(s', id, x) { assert Booked(s, id, x); }
  }

  lemma LogFitsPairs(s: Net, id: MessageId)
    requires Inv(s, id)
    ensures |s.log| <= |s.books| * |s.books|
  {
    DistinctCard(s.log);
    LogInPairs(s, id);
    SubsetCard(Members(s.log), Pairs(s.books.Keys));
    PairsCard(s.books.Keys, s.books.Keys);
    assert |s.books| == |s.books.Keys|;
  }

  ghost function PairsFrom(from: set<PeerId>, to: set<PeerId>): set<Edge> {
    set a, b | a in from && b in to :: Edge(a, b)
  }

  ghost function Pairs(nodes: set<PeerId>): set<Edge> { PairsFrom(nodes, nodes) }

  lemma {:induction false} RowCard(a: PeerId, to: set<PeerId>)
    ensures |PairsFrom({a}, to)| == |to|
    decreases |to|
  {
    if to == {} {
      assert PairsFrom({a}, to) == {};
    } else {
      var b :| b in to;
      RowCard(a, to - {b});
      assert PairsFrom({a}, to) == PairsFrom({a}, to - {b}) + {Edge(a, b)};
    }
  }

  lemma {:induction false} PairsCard(from: set<PeerId>, to: set<PeerId>)
    ensures |PairsFrom(from, to)| == |from| * |to|
    decreases |from|
  {
    if from == {} {
      assert PairsFrom(from, to) == {};
    } else {
      var a :| a in from;
      PairsCard(from - {a}, to);
      RowCard(a, to);
      assert PairsFrom(from, to) == PairsFrom(from - {a}, to) + PairsFrom({a}, to);
      assert |from| * |to| == (|from| - 1) * |to| + |to|;
    }
  }

  lemma LogInPairs(s: Net, id: MessageId)
    requires Inv(s, id)
    ensures Members(s.log) <= Pairs(s.books.Keys)
  {
    forall e | e in s.log ensures e in Pairs(s.books.Keys) {
      assert Booked(s, id, e);
      assert e == Edge(e.src, e.dst);
    }
  }

  // ---- gossip stops --------------------------------------------------------

  ghost function Unaware(s: Net, id: MessageId): set<PeerId> { set u | u in s.books && !Knows(s.books[u], id) }

  ghost function Keeping(s: Net, id: MessageId): set<PeerId> { set u | u in s.books && id !in s.books[u].dropped }

  ghost function Unused(s: Net): set<Edge> { Pairs(s.books.Keys) - Members(s.log) }

  ghost function Budget(s: Net, id: MessageId): nat {
    2 * |Unused(s)| + |s.inFlight| + |Unaware(s, id)| + |Keeping(s, id)|
  }

  lemma AppendUsesUp(all: set<Edge>, log: seq<Edge>, out: seq<Edge>)
    requires Distinct(log + out) && Members(log + out) <= all
    ensures |all - Members(log + out)| == |all - Members(log)| - |out|
  {
    assert Distinct(out) by { assert forall i :: 0 <= i < |out| ==> out[i] == (log + out)[|log| + i]; }
    DistinctCard(out);
    assert Members(out) !! Members(log) by {
      forall e | e in out ensures e !in log { AppendedIsNew(log, out, e); }
    }
    assert Members(log + out) == Members(log) + Members(out);
    assert all - Members(log) == (all - Members(log + out)) + Members(out);
  }

  lemma AppendedIsNew(log: seq<Edge>, out: seq<Edge>, e: Edge)
    requires Distinct(log + out) && e in out
    ensures e !in log
  {
    var j :| 0 <= j < |out| && out[j] == e;
    forall i | 0 <= i < |log| ensures log[i] != e {
      assert (log + out)[i] == log[i] && (log + out)[|log| + j] == e;
    }
  }

  /** Every datagram that goes out uses up a pair for good. */
  lemma GossipsUsesPairs(s: Net, id: MessageId, u: PeerId, targets: seq<PeerId>, n: nat)
    requires Inv(s, id) && u in s.books && id !in s.books[u].dropped && Samples(s.books[u], id, s.books.Keys, targets, n)
    ensures |Unused(Gossips(s, id, u, targets, n))| == |Unused(s)| - n
  {
    var s' := Gossips(s, id, u, targets, n);
    GossipsKeepsInv(s, id, u, targets, n);
    LogInPairs(s', id);
    assert s'.books.Keys == s.books.Keys;
    AppendUsesUp(Pairs(s.books.Keys), s.log, Datagrams(u, targets[..n]));
  }

  lemma GossipsAwareness(s: Net, id: MessageId, u: PeerId, targets: seq<PeerId>, n: nat)
    requires u in s.books && n <= |targets|
    ensures var s' := Gossips(s, id, u, targets, n);
            Keeping(s', id) == Keeping(s, id) && Unaware(s', id) == Unaware(s, id) - {u}
  {
  }

  lemma GossipsSpends(s: Net, id: MessageId, u: PeerId, targets: seq<PeerId>, n: nat)
    requires Inv(s, id) && u in s.books && id !in s.books[u].dropped && Samples(s.books[u], id, s.books.Keys, targets, n)
    ensures Budget(Gossips(s, id, u, targets, n), id) <= Budget(s, id) - (if Knows(s.books[u], id) then 0 else 1)
  {
    GossipsUsesPairs(s, id, u, targets, n);
    GossipsAwareness(s, id, u, targets, n);
    RemoveCard(Unaware(s, id), u);
  }

  lemma RemoveCard(a: set<PeerId>, u: PeerId)
    ensures |a - {u}| == |a| - (if u in a then 1 else 0)
  {
    if u in a { assert a == (a - {u}) + {u}; } else { assert a - {u} == a; }
  }

  lemma ArriveSpends(s: Net, id: MessageId, ev: Event)
    requires Inv(s, id) && Enabled(s, id, ev) && ev.Arrive?
    ensures Budget(Next(s, id, ev), id) < Budget(s, id)
  {
    var s1 := s.(inFlight := s.inFlight - multiset{ev.e});
    forall x | x in s1.log ensures Booked(s1, id, x) { assert Booked(s, id, x); }
    SameBudget(s, s1, id);
    if ShouldRumor(s.books[ev.e.dst], id, ev.lucky) { GossipsSpends(s1, id, ev.e.dst, ev.targets, ev.n); }
  }

  lemma SameBudget(s: Net, s1: Net, id: MessageId)
    requires s1.books == s.books && s1.log == s.log
    ensures Budget(s, id) - |s.inFlight| == Budget(s1, id) - |s1.inFlight|
  {
    assert Unaware(s1, id) == Unaware(s, id) && Keeping(s1, id) == Keeping(s, id);
  }

  lemma ForgetSpends(s: Net, id: MessageId, u: PeerId)
    requires Inv(s, id) && Enabled(s, id, Forget(u))
    ensures Budget(Next(s, id, Forget(u)), id) < Budget(s, id)
  {
    var s' := Next(s, id, Forget(u));
    assert Unaware(s', id) == Unaware(s, id) && s'.books.Keys == s.books.Keys;
    assert Keeping(s', id) == Keeping(s, id) - {u};
    RemoveCard(Keeping(s, id), u);
  }

  lemma StepSpends(s: Net, id: MessageId, ev: Event)
    requires Inv(s, id) && Enabled(s, id, ev) && !ev.Duplicate?
    ensures Budget(Next(s, id, ev), id) < Budget(s, id)
  {
    match ev
    case Originate(u, targets, n) => GossipsSpends(s, id, u, targets, n);
    case Arrive(_, _, _, _) => ArriveSpends(s, id, ev);
    case Forget(u) => ForgetSpends(s, id, u);
  }

  lemma StepCost(s: Net, id: MessageId, ev: Event)
    requires Inv(s, id) && Enabled(s, id, ev)
    ensures Budget(Next(s, id, ev), id) + 1 <= Budget(s, id) + (if ev.Duplicate? then 2 else 0)
  {
    if ev.Duplicate? { SameBudget(s, Next(s, id, ev), id); } else { StepSpends(s, id, ev); }
  }

  lemma SilentBudget(s: Net, id: MessageId)
    requires s.log == [] && s.inFlight == multiset{}
    ensures var n := |s.books|; Budget(s, id) <= 2 * (n * n) + 2 * n
  {
    assert Unused(s) == Pairs(s.books.Keys);
    assert |s.books| == |s.books.Keys|;
    PairsCard(s.books.Keys, s.books.Keys);
    SubsetCard(Unaware(s, id), s.books.Keys);
    SubsetCard(Keeping(s, id), s.books.Keys);
  }

  // ---- a network with any number of messages -------------------------------------------

  /** The books of all nodes, and what was sent and is under way about each message. */
  datatype Network = Network(books: map<PeerId, Book>, logs: map<MessageId, seq<Edge>>, flights: map<MessageId, multiset<Edge>>)

  ghost function LogOf(s: Network, id: MessageId): seq<Edge> { if id in s.logs then s.logs[id] else [] }

  /** The network seen from one message. */
  ghost function About(s: Network, id: MessageId): Net {
    Net(s.books, LogOf(s, id), if id in s.flights then s.flights[id] else multiset{})
  }

  /** An event about the message `id`. */
  ghost function NextAbout(s: Network, id: MessageId, ev: Event): Network
    requires Enabled(About(s, id), id, ev)
  {
    var n := Next(About(s, id), id, ev);
    Network(n.books, s.logs[id := n.log], s.flights[id := n.inFlight])
  }

  ghost predicate Run(nets: seq<Network>, ids: seq<MessageId>, events: seq<Event>) {
    && |nets| == |events| + 1 && |ids| == |events|
    && nets[0].logs == map[] && nets[0].flights == map[]
    && (forall u, id :: u in nets[0].books ==> !Knows(nets[0].books[u], id))
    && forall i {:trigger events[i]} :: 0 <= i < |events| ==>
         Enabled(About(nets[i], ids[i]), ids[i], events[i]) && nets[i + 1] == NextAbout(nets[i], ids[i], events[i])
  }

  /** A message is not touched by what happens to another one. */
  ghost predicate SameFor(s: Network, s': Network, id: MessageId) {
    && s'.books.Keys == s.books.Keys
    && LogOf(s', id) == LogOf(s, id) && About(s', id).inFlight == About(s, id).inFlight
    && forall u :: u in s.books ==> SameAbout(s'.books[u], s.books[u], id)
  }

  lemma BooksUntouched(b: Book, id: MessageId, sample: set<PeerId>, other: MessageId)
    requires other != id
    ensures SameAbout(Marked(Entered(b, id), id, sample), b, other) && SameAbout(Remove(b, id), b, other)
  {
  }

  lemma NextUntouched(n: Net, id: MessageId, ev: Event, other: MessageId)
    requires Enabled(n, id, ev) && other != id
    ensures var n' := Next(n, id, ev);
      n'.books.Keys == n.books.Keys && forall u :: u in n.books ==> SameAbout(n'.books[u], n.books[u], other)
  {
    match ev
    case Originate(u, targets, _) => BooksUntouched(n.books[u], id, Members(targets), other);
    case Arrive(e, _, targets, _) => BooksUntouched(n.books[e.dst], id, Members(targets), other);
    case Duplicate(_) =>
    case Forget(u) => BooksUntouched(n.books[u], id, {}, other);
  }

  lemma OtherMessagesUntouched(s: Network, id: MessageId, ev: Event, other: MessageId)
    requires Enabled(About(s, id), id, ev) && other != id
    ensures SameFor(s, NextAbout(s, id, ev), other)
  {
    NextUntouched(About(s, id), id, ev, other);
  }

  lemma UntouchedKeepsInv(s: Network, s': Network, id: MessageId)
    requires SameFor(s, s', id) && Inv(About(s, id), id)
    ensures Inv(About(s', id), id)
  {
    var n, n' := About(s, id), About(s', id);
    forall e | e in n'.log ensures Booked(n', id, e) { assert Booked(n, id, e); }
  }

  lemma UntouchedKeepsBudget(s: Network, s': Network, id: MessageId)
    requires SameFor(s, s', id)
    ensures Budget(About(s', id), id) == Budget(About(s, id), id)
  {
    assert Unaware(About(s', id), id) == Unaware(About(s, id), id);
    assert Keeping(About(s', id), id) == Keeping(About(s, id), id);
  }

  lemma StepAbout(s: Network, id: MessageId, ev: Event, k: MessageId)
    requires Enabled(About(s, id), id, ev) && Inv(About(s, k), k)
    ensures Inv(About(NextAbout(s, id, ev), k), k)
  {
    var s' := NextAbout(s, id, ev);
    if k == id {
      StepKeepsInv(About(s, id), id, ev);
      assert About(s', id) == Next(About(s, id), id, ev);
    } else {
      OtherMessagesUntouched(s, id, ev, k);
      UntouchedKeepsInv(s, s', k);
    }
  }

  lemma {:induction false} RunKeepsInv(nets: seq<Network>, ids: seq<MessageId>, events: seq<Event>, k: nat, id: MessageId)
    requires Run(nets, ids, events) && k < |nets|
    ensures Inv(About(nets[k], id), id) && nets[k].books.Keys == nets[0].books.Keys
  {
    if k > 0 {
      RunKeepsInv(nets, ids, events, k - 1, id);
      var ev := events[k - 1];
      StepAbout(nets[k - 1], ids[k - 1], ev, id);
      NextUntouched(About(nets[k - 1], ids[k - 1]), ids[k - 1], ev, ids[k - 1] + 1);
    } else {
      assert forall u :: u in nets[0].books ==> !Knows(nets[0].books[u], id);
    }
  }

  /** Whatever is sampled, lost, duplicated or forgotten, and however many messages there
      are, no node sends a message twice to the same node. */
  lemma AtMostOneDatagramPerPair(nets: seq<Network>, ids: seq<MessageId>, events: seq<Event>, k: nat, id: MessageId)
    requires Run(nets, ids, events) && k < |nets|
    ensures forall i, j :: 0 <= i < j < |LogOf(nets[k], id)| ==> LogOf(nets[k], id)[i] != LogOf(nets[k], id)[j]
    ensures |LogOf(nets[k], id)| <= |nets[0].books| * |nets[0].books|
  {
    RunKeepsInv(nets, ids, events, k, id);
    LogFitsPairs(About(nets[k], id), id);
    assert |nets[k].books| == |nets[k].books.Keys| == |nets[0].books|;
  }

  /** How many of the first `k` events are about `id`, and how many of these are
      duplications by the network. */
  function EventsAbout(ids: seq<MessageId>, k: nat, id: MessageId): nat
    requires k <= |ids|
  {
    if k == 0 then 0 else EventsAbout(ids, k - 1, id) + (if ids[k - 1] == id then 1 else 0)
  }

  function Duplications(ids: seq<MessageId>, events: seq<Event>, k: nat, id: MessageId): nat
    requires k <= |ids| == |events|
  {
    if k == 0 then 0
    else Duplications(ids, events, k - 1, id) + (if ids[k - 1] == id && events[k - 1].Duplicate? then 1 else 0)
  }

  /** A step about another message costs nothing, one about this message costs one, and a
      duplication pays for itself and the arrival it makes. */
  predicate Charged(before: nat, after: nat, mine: bool, duplicate: bool) {
    if mine then after + 1 <= before + (if duplicate then 2 else 0) else after == before
  }

  ghost function BudgetAt(nets: seq<Network>, k: nat, id: MessageId): nat
    requires k < |nets|
  {
    Budget(About(nets[k], id), id)
  }

  lemma RunStepCost(nets: seq<Network>, ids: seq<MessageId>, events: seq<Event>, k: nat, id: MessageId)
    requires Run(nets, ids, events) && k < |events|
    ensures Charged(BudgetAt(nets, k, id), BudgetAt(nets, k + 1, id), ids[k] == id, events[k].Duplicate?)
  {
    var ev := events[k];
    assert nets[k + 1] == NextAbout(nets[k], ids[k], ev);
    if ids[k] == id {
      RunKeepsInv(nets, ids, events, k, id);
      StepCost(About(nets[k], id), id, ev);
      assert About(nets[k + 1], id) == Next(About(nets[k], id), id, ev);
    } else {
      OtherMessagesUntouched(nets[k], ids[k], ev, id);
      UntouchedKeepsBudget(nets[k], nets[k + 1], id);
    }
  }

  lemma {:induction false} Spending(budgets: seq<nat>, ids: seq<MessageId>, events: seq<Event>, k: nat, id: MessageId)
    requires |budgets| == |events| + 1 && |ids| == |events| && k < |budgets|
    requires forall i {:trigger events[i]} :: 0 <= i < |events| ==>
      Charged(budgets[i], budgets[i + 1], ids[i] == id, events[i].Duplicate?)
    ensures EventsAbout(ids, k, id) + budgets[k] <= budgets[0] + 2 * Duplications(ids, events, k, id)
  {
    if k > 0 {
      Spending(budgets, ids, events, k - 1, id);
      var duplicate := events[k - 1].Duplicate?;
      assert Charged(budgets[k - 1], budgets[k], ids[k - 1] == id, duplicate);
    }
  }

  lemma Budgets(nets: seq<Network>, ids: seq<MessageId>, events: seq<Event>, id: MessageId) returns (budgets: seq<nat>)
    requires Run(nets, ids, events)
    ensures |budgets| == |nets| == |events| + 1 && budgets[0] == BudgetAt(nets, 0, id)
    ensures forall i {:trigger events[i]} :: 0 <= i < |events| ==>
      Charged(budgets[i], budgets[i + 1], ids[i] == id, events[i].Duplicate?)
  {
    budgets := seq(|nets|, i requires 0 <= i < |nets| => BudgetAt(nets, i, id));
    forall i {:trigger events[i]} | 0 <= i < |events|
      ensures Charged(budgets[i], budgets[i + 1], ids[i] == id, events[i].Duplicate?)
    {
      RunStepCost(nets, ids, events, i, id);
      assert budgets[i] == BudgetAt(nets, i, id) && budgets[i + 1] == BudgetAt(nets, i + 1, id);
    }
  }

  /** The gossip about each message is over after a number of steps bounded by a square of
      the number of nodes, and at most two more for each duplicate the network makes. */
  lemma GossipTerminates(nets: seq<Network>, ids: seq<MessageId>, events: seq<Event>, id: MessageId)
    requires Run(nets, ids, events)
    ensures var n := |nets[0].books|;
      EventsAbout(ids, |ids|, id) <= 2 * (n * n) + 2 * n + 2 * Duplications(ids, events, |ids|, id)
  {
    var budgets := Budgets(nets, ids, events, id);
    Spending(budgets, ids, events, |events|, id);
    SilentBudget(About(nets[0], id), id);
  }

  /** What a datagram does where it arrives: at a node that has not dropped the message and
      is in luck it is entered if new, the sample is booked, and the first `n` of the
      sample get a datagram each; anywhere else nothing but its own end. */
  lemma ArrivalEffect(s: Network, id: MessageId, ev: Event)
    requires ev.Arrive? && Enabled(About(s, id), id, ev)
    ensures var s', u := NextAbout(s, id, ev), ev.e.dst;
      var served := if id in s.books[u].sent then s.books[u].sent[id] else {};
      if id !in s.books[u].dropped && ev.lucky
      then id in s'.books[u].sent && s'.books[u].sent[id] == served + Members(ev.targets)
           && s'.books[u].dropped == s.books[u].dropped
           && |LogOf(s', id)| == |LogOf(s, id)| + ev.n && LogOf(s, id) <= LogOf(s', id)
           && forall i :: 0 <= i < ev.n ==> LogOf(s', id)[|LogOf(s, id)| + i] == Edge(u, ev.targets[i])
      else s'.books == s.books && LogOf(s', id) == LogOf(s, id)
    ensures forall v :: v in s.books && v != ev.e.dst ==> NextAbout(s, id, ev).books[v] == s.books[v]
  {
  }

  /** A node that originates a message enters it, books the sample and sends likewise. */
  lemma OriginationEffect(s: Network, id: MessageId, u: PeerId, targets: seq<PeerId>, n: nat)
    requires Enabled(About(s, id), id, Originate(u, targets, n))
    ensures var s' := NextAbout(s, id, Originate(u, targets, n));
      && s'.books[u].dropped == s.books[u].dropped && id in s'.books[u].sent && s'.books[u].sent[id] == Members(targets)
      && |LogOf(s', id)| == |LogOf(s, id)| + n && LogOf(s, id) <= LogOf(s', id)
      && (forall i :: 0 <= i < n ==> LogOf(s', id)[|LogOf(s, id)| + i] == Edge(u, targets[i]))
      && forall v :: v in s.books && v != u ==> s'.books[v] == s.books[v]
  {
  }

  /** A node that forgets a message drops it for good and sends nothing. */
  lemma ForgetEffect(s: Network, id: MessageId, u: PeerId)
    requires Enabled(About(s, id), id, Forget(u))
    ensures var s' := NextAbout(s, id, Forget(u));
      && id !in s'.books[u].sent && s'.books[u].dropped == s.books[u].dropped + {id} && LogOf(s', id) == LogOf(s, id)
      && forall v :: v in s.books && v != u ==> s'.books[v] == s.books[v]
  {
  }
}
