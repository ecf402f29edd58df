/** The value of one relay of a Palm Tree session and what each message handler
    makes of it (src/transfers/otm/palm_tree.py, src/transfers/otm/tree.py).
    A handler is a function from the old value to an `Outcome`; the class
    `RelayObject.PalmTreeRelay` does the same by updating its fields. */
module RelayModel {
  import opened Arithmetic
  import opened Peers

  /** `_parent_link_fut`: pending, set to None at the centre, set to the link of
      the parent, or cancelled by a timed-out `wait_for`. */
  datatype ParentFuture = Pending | Root | Parent(peer: PeerId) | GivenUp {
    predicate Done() { !Pending? }
  }

  datatype LinkStatus = Offline | Online | Lagging

  /** Who opened the stream socket that a link holds, if it holds one. */
  datatype Socket = NoSocket | Dialed | Accepted

  datatype Link = Link(status: LinkStatus, outgoing: bool, socket: Socket) {
    /** The `connection` setter. */
    function WithConnection(s: Socket): Link { this.(status := Online, socket := s) }
    predicate Connected() { status.Online? || status.Lagging? }
  }

  const FRESH_LINK := Link(Offline, true, NoSocket)

  datatype Phase = SessionInit | LinksInitialized | TreeCheckDone

  datatype Message =
    | Check(src: PeerId, dst: PeerId)
    | Reject(src: PeerId, dst: PeerId)
    | Upgrade(src: PeerId, dst: PeerId)
    | Dial(src: PeerId, dst: PeerId)
    | LinkOk(src: PeerId, dst: PeerId)

  datatype Relay = Relay(
    id: PeerId,
    order: seq<PeerId>,          // insertion order of the `all_links` dictionary
    links: map<PeerId, Link>,    // the active link of every entry of `all_links`
    active: set<PeerId>,         // keys of `active_links`
    window: int,                 // `_tree_check_window_index`
    fanout: nat,
    phase: Phase,
    parent: ParentFuture,
    expected: set<PeerId>)       // `__expected_parent_peers`
  {
    predicate OnlineAt(p: PeerId) { p in links && links[p].status.Online? }
  }

  /** `spawned` says that the handler is now suspended in `wait_for`. */
  datatype Outcome = Outcome(relay: Relay, sends: set<Message>, spawned: bool)

  function FreshRelay(id: PeerId, fanout: nat): Relay {
    Relay(id, [], map[], {}, 0, fanout, SessionInit, Pending, {})
  }

  /** Python's reading of a slice bound: negative counts from the end, then clamped. */
  function SliceBound(n: nat, i: int): (k: nat)
    ensures k <= n
  {
    if i < 0 then (if n + i < 0 then 0 else n + i) else Min(i, n)
  }

  /** `s[a:b]` as Python computes it, for bounds of any sign and order. */
  function PySlice<T>(s: seq<T>, a: int, b: int): seq<T> {
    var lo, hi := SliceBound(|s|, a), SliceBound(|s|, b);
    if lo <= hi then s[lo..hi] else []
  }

  /** A dictionary filled from a list keeps each key at its first position. */
  function InsertKey(order: seq<PeerId>, p: PeerId): seq<PeerId> {
    if p in order then order else order + [p]
  }

  function InsertKeys(order: seq<PeerId>, ids: seq<PeerId>): seq<PeerId>
    decreases |ids|
  {
    if ids == [] then order
    else InsertKey(InsertKeys(order, ids[..|ids| - 1]), ids[|ids| - 1])
  }

  function FreshLinks(links: map<PeerId, Link>, ids: seq<PeerId>): map<PeerId, Link> {
    map p | p in links.Keys + (set q | q in ids) :: if p in ids then FRESH_LINK else links[p]
  }

  /** `gossip_update_state` */
  function OnUpdateState(r: Relay, ids: seq<PeerId>): Relay {
    if r.phase != SessionInit then r
    else
      var order := InsertKeys(r.order, ids);
      r.(order := order, links := FreshLinks(r.links, ids),
         fanout := Min(|order|, r.fanout), phase := LinksInitialized)
  }

  function OnlineOutgoing(r: Relay): set<PeerId> {
    set p | p in r.active && r.OnlineAt(p) && r.links[p].outgoing
  }

  function WindowEnd(r: Relay): int {
    Min(|r.order|, r.window + r.fanout) - |OnlineOutgoing(r)|
  }

  function Sampled(r: Relay, sender: PeerId): set<PeerId> {
    set p | p in PySlice(r.order, r.window, WindowEnd(r) + 1) && p != sender && p !in r.active
  }

  function Checks(src: PeerId, targets: set<PeerId>): set<Message> {
    set p | p in targets :: Check(src, p)
  }

  /** `forward_tree_check_packet` */
  function Forward(r: Relay, sender: PeerId): Outcome {
    Outcome(r.(window := WindowEnd(r), active := r.active + Sampled(r, sender)),
            Checks(r.id, Sampled(r, sender)), false)
  }

  /** `_may_be_make_rejection` */
  predicate Rejects(r: Relay, sender: PeerId) {
    sender !in r.links || |r.active| > r.fanout || r.parent.Done() || r.phase.TreeCheckDone?
  }

  /** `gossip_tree_check` up to the `wait_for` inside `_send_upgrade_packet` */
  function OnCheck(r: Relay, sender: PeerId): Outcome {
    if Rejects(r, sender) then Outcome(r, {Reject(r.id, sender)}, false)
    else Outcome(r.(expected := r.expected + {sender}, active := r.active + {sender}),
                 {Upgrade(r.id, sender)}, true)
  }

  /** The suspended `gossip_tree_check` goes on because the future got its result. */
  function OnResume(r: Relay, sender: PeerId): Outcome {
    var turned := if sender in r.links
                  then r.(links := r.links[sender := r.links[sender].(outgoing := false)]) else r;
    var o := Forward(turned, sender);
    o.(relay := o.relay.(phase := TreeCheckDone))
  }

  /** The suspended `gossip_tree_check` goes on because its `wait_for` timed out: a
      pending future is cancelled, the next round of the loop sees it done, breaks. */
  function OnExpire(r: Relay, sender: PeerId): Outcome {
    var gone := if r.parent.Pending? then r.(parent := GivenUp) else r;
    var o := Forward(gone, sender);
    o.(relay := o.relay.(phase := TreeCheckDone))
  }

  /** `gossip_tree_reject` */
  function OnReject(r: Relay, from: PeerId): Outcome {
    if |r.order| <= r.window || |r.active| >= r.fanout then Outcome(r, {}, false)
    else Forward(r, from)
  }

  /** `gossip_upgrade_connection` and `_activate_link` up to waiting for the reply */
  function OnUpgrade(r: Relay, peer: PeerId): Outcome {
    if peer !in r.active || r.OnlineAt(peer) then Outcome(r, {}, false)
    else Outcome(r, {Dial(r.id, peer)}, false)
  }

  /** `_activate_link` after the OK came back */
  function OnLinkOk(r: Relay, peer: PeerId): Outcome {
    if peer !in r.links then Outcome(r, {}, false)
    else
      var link := r.links[peer].WithConnection(Dialed).(outgoing := true);
      Outcome(r.(links := r.links[peer := link]), {}, false)
  }

  /** `gossip_add_stream_link`, taken as one step */
  function OnDial(r: Relay, peer: PeerId): Outcome {
    if peer !in r.active || peer !in r.links then Outcome(r, {}, false)
    else
      var accepted := r.(links := r.links[peer := r.links[peer].WithConnection(Accepted)]);
      if r.links[peer].Connected() then Outcome(accepted, {}, false)
      else if r.parent.Done() || peer !in r.expected then Outcome(r, {}, false)
      else Outcome(accepted.(parent := Parent(peer)), {LinkOk(r.id, peer)}, false)
  }

  /** Dispatch on the header, as `datagram_received` and the stream acceptor do. */
  function Handle(r: Relay, m: Message): Outcome {
    match m
    case Check(s, _) => OnCheck(r, s)
    case Reject(s, _) => OnReject(r, s)
    case Upgrade(s, _) => OnUpgrade(r, s)
    case Dial(s, _) => OnDial(r, s)
    case LinkOk(s, _) => OnLinkOk(r, s)
  }

  /** The sender sets its own future to None and triggers the spanning formation. */
  function OnStart(r: Relay): Outcome { Forward(r.(parent := Root), r.id) }

  /** A send to a child timed out (src/transfers/otm/relay.py:72-73). */
  function OnLag(r: Relay, peer: PeerId): Relay {
    if peer in r.active && r.OnlineAt(peer) && r.links[peer].outgoing
    then r.(links := r.links[peer := r.links[peer].(status := Lagging)]) else r
  }

  /** `_get_forward_links`, given the peer of `_read_link` */
  function ForwardLinks(r: Relay, readLink: ParentFuture): set<PeerId> {
    OnlineOutgoing(r) - (if readLink.Parent? then {readLink.peer} else {})
  }

  /** What every handler keeps about one relay. */
  ghost predicate WellFormed(r: Relay) {
    && Distinct(r.order)
    && (forall p :: p in r.order <==> p in r.links)
    && r.active <= r.links.Keys
    && r.expected <= r.active
    && (r.phase.TreeCheckDone? ==> r.parent.Done())
    && (forall p :: p in r.links ==> (r.links[p].Connected() <==> !r.links[p].socket.NoSocket?))
  }

  /** Slicing in Python's terms: bounds inside the list are taken as they are, a negative
      bound counts from the end, and what lies outside is cut off. */
  lemma PySliceLaws<T>(s: seq<T>, a: int, b: int)
    ensures 0 <= a <= b <= |s| ==> PySlice(s, a, b) == s[a..b]
    ensures -|s| <= a < 0 ==> PySlice(s, a, b) == PySlice(s, |s| + a, b)
    ensures -|s| <= b < 0 ==> PySlice(s, a, b) == PySlice(s, a, |s| + b)
    ensures a < -|s| ==> PySlice(s, a, b) == PySlice(s, 0, b)
    ensures b < -|s| ==> PySlice(s, a, b) == []
    ensures b > |s| ==> PySlice(s, a, b) == PySlice(s, a, |s|)
    ensures 0 <= b < a ==> PySlice(s, a, b) == []
  {
  }

  lemma PySliceMembers<T>(s: seq<T>, a: int, b: int)
    ensures forall x :: x in PySlice(s, a, b) ==> x in s
  {
  }

  lemma {:induction false} InsertKeysShape(order: seq<PeerId>, ids: seq<PeerId>)
    requires Distinct(order)
    ensures Distinct(InsertKeys(order, ids))
    ensures forall p :: p in InsertKeys(order, ids) <==> p in order || p in ids
    decreases |ids|
  {
    if ids != [] {
      var n := |ids| - 1;
      InsertKeysShape(order, ids[..n]);
      assert ids == ids[..n] + [ids[n]];
    }
  }

  /** A list without repetition becomes the key order as it stands. */
  lemma {:induction false} InsertKeysDistinct(ids: seq<PeerId>)
    requires Distinct(ids)
    ensures InsertKeys([], ids) == ids
    decreases |ids|
  {
    if ids != [] {
      var n := |ids| - 1;
      InsertKeysDistinct(ids[..n]);
      assert ids == ids[..n] + [ids[n]];
      assert ids[n] !in ids[..n];
    }
  }

  /** A relay that has just got its neighbours. */
  function ConfiguredRelay(id: PeerId, ids: seq<PeerId>, fanout: nat): Relay {
    Relay(id, ids, FreshLinks(map[], ids), {}, 0, Min(|ids|, fanout), LinksInitialized, Pending, {})
  }

  lemma ConfigureFresh(id: PeerId, fanout: nat, ids: seq<PeerId>)
    requires Distinct(ids)
    ensures OnUpdateState(FreshRelay(id, fanout), ids) == ConfiguredRelay(id, ids, fanout)
    ensures WellFormed(ConfiguredRelay(id, ids, fanout))
  {
    InsertKeysDistinct(ids);
  }
}
