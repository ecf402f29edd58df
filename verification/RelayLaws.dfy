/** What each handler of a relay does, said about its fields and its messages alone
    (src/transfers/otm/palm_tree.py:145-529). */
module RelayLaws {
  import opened Arithmetic
  import opened Peers
  import opened RelayModel

  /** Index `k` of a list of `n` entries is inside the slice `[a:b]`. */
  predicate InSlice(n: nat, a: int, b: int, k: int) {
    && 0 <= k < n
    && (if a < 0 then Max(0, n + a) else a) <= k
    && k < if b < 0 then Max(0, n + b) else b
  }

  /** From `r` to `o` the relay asks one window on: of the keys from the old window index to the
      new one, that one included, those that are not active and not the sender are sent a check
      and become active. The window grows by the fanout, up to the end of the keys, less one for
      each link that is online and outgoing. Nothing else changes but the phase. */
  ghost predicate AsksWindow(r: Relay, o: Outcome, sender: PeerId) {
    var serving := set p | p in r.active && p in r.links && r.links[p].status == Online && r.links[p].outgoing;
    var end := Min(|r.order|, r.window + r.fanout) - |serving|;
    && o.relay.window == end
    && (forall p :: Check(r.id, p) in o.sends <==>
          p != sender && p !in r.active && exists k :: InSlice(|r.order|, r.window, end + 1, k) && r.order[k] == p)
    && (forall m :: m in o.sends ==> m.Check? && m.src == r.id)
    && (forall p :: p in o.relay.active <==> p in r.active || Check(r.id, p) in o.sends)
    && o.relay == r.(window := end, active := o.relay.active, phase := o.relay.phase)
  }

  lemma SliceMembers(s: seq<PeerId>, a: int, b: int, p: PeerId)
    ensures p in PySlice(s, a, b) <==> exists k :: InSlice(|s|, a, b, k) && s[k] == p
  {
    var lo, hi := SliceBound(|s|, a), SliceBound(|s|, b);
    if p in PySlice(s, a, b) {
      var i :| 0 <= i < |PySlice(s, a, b)| && PySlice(s, a, b)[i] == p;
      assert InSlice(|s|, a, b, lo + i) && s[lo + i] == p;
    }
    if k :| InSlice(|s|, a, b, k) && s[k] == p {
      assert lo <= k < hi && PySlice(s, a, b)[k - lo] == p;
    }
  }

  lemma WindowLaw(r: Relay, sender: PeerId)
    ensures AsksWindow(r, Forward(r, sender), sender)
  {
    var serving := set p | p in r.active && p in r.links && r.links[p].status == Online && r.links[p].outgoing;
    assert serving == OnlineOutgoing(r);
    forall p ensures p in Sampled(r, sender) <==>
      p != sender && p !in r.active && exists k :: InSlice(|r.order|, r.window, WindowEnd(r) + 1, k) && r.order[k] == p
    {
      SliceMembers(r.order, r.window, WindowEnd(r) + 1, p);
    }
  }

  /** The sender sets its future to None and asks its first window. */
  lemma StartLaw(r: Relay)
    ensures AsksWindow(r.(parent := Root), OnStart(r), r.id) && OnStart(r).relay.phase == r.phase
  {
    WindowLaw(r.(parent := Root), r.id);
  }

  /** With a parent, the link of the accepted sender turns incoming and the relay asks its window. */
  lemma ResumeLaw(r: Relay, sender: PeerId)
    requires sender in r.links
    ensures var o := OnResume(r, sender); var link := r.links[sender];
      && AsksWindow(r.(links := r.links[sender := Link(link.status, false, link.socket)]), o, sender)
      && o.relay.phase == TreeCheckDone && !o.spawned
  {
    WindowLaw(r.(links := r.links[sender := r.links[sender].(outgoing := false)]), sender);
  }

  /** When the wait times out, a relay without a parent gives up on one; it asks all the same. */
  ghost predicate AsksAfterWait(r: Relay, o: Outcome, sender: PeerId) {
    && AsksWindow(if r.parent == Pending then r.(parent := GivenUp) else r, o, sender)
    && o.relay.phase == TreeCheckDone && !o.spawned
  }

  lemma ExpireLaw(r: Relay, sender: PeerId)
    ensures AsksAfterWait(r, OnExpire(r, sender), sender)
  {
    WindowLaw(if r.parent == Pending then r.(parent := GivenUp) else r, sender);
  }

  /** A refusal makes a relay ask its next window unless the window is past the last key or the
      active links are as many as the fanout. */
  lemma RejectLaw(r: Relay, from: PeerId)
    ensures var o := Handle(r, Reject(from, r.id));
      if r.window < |r.order| && |r.active| < r.fanout
      then AsksWindow(r, o, from) && o.relay.phase == r.phase
      else o.relay == r && o.sends == {}
  {
    WindowLaw(r, from);
  }

  /** A tree check is accepted from a known peer, by a relay whose future is pending, which has
      not finished its own check and has at most `fanout` active links; otherwise it is refused. */
  lemma CheckLaw(r: Relay, sender: PeerId)
    ensures var o := Handle(r, Check(sender, r.id));
      if sender in r.links && r.parent == Pending && r.phase != TreeCheckDone && |r.active| <= r.fanout
      then o.sends == {Upgrade(r.id, sender)} && o.spawned
           && sender in o.relay.expected && sender in o.relay.active
           && o.relay.expected - {sender} == r.expected - {sender} && o.relay.active - {sender} == r.active - {sender}
           && o.relay == r.(expected := o.relay.expected, active := o.relay.active)
      else o.sends == {Reject(r.id, sender)} && !o.spawned && o.relay == r
  {
  }

  /** A request to connect is answered by dialling if and only if the link is active and not
      online. */
  lemma UpgradeLaw(r: Relay, peer: PeerId)
    ensures var o := Handle(r, Upgrade(peer, r.id)); var idle := peer !in r.links || r.links[peer].status != Online;
      o.relay == r && o.sends == if peer in r.active && idle then {Dial(r.id, peer)} else {}
  {
  }

  /** An incoming stream of an active peer replaces the one that the link holds; where it holds
      none, it makes the peer the parent if the future is pending and its check was accepted. */
  lemma DialLaw(r: Relay, peer: PeerId)
    requires r.active <= r.links.Keys
    ensures var o := Handle(r, Dial(peer, r.id));
      var held := peer in r.active && r.links[peer].status != Offline;
      var welcome := peer in r.active && !held && r.parent == Pending && peer in r.expected;
      && (held || welcome ==> o.relay.links == r.links[peer := Link(Online, r.links[peer].outgoing, Accepted)])
      && (!held && !welcome ==> o.relay.links == r.links)
      && o.relay.parent == (if welcome then Parent(peer) else r.parent)
      && o.sends == (if welcome then {LinkOk(r.id, peer)} else {})
      && o.relay == r.(links := o.relay.links, parent := o.relay.parent)
  {
  }

  /** The confirmed link is online, outgoing and holds the dialled stream. */
  lemma LinkOkLaw(r: Relay, peer: PeerId)
    requires peer in r.links
    ensures var o := Handle(r, LinkOk(peer, r.id));
      o.relay == r.(links := r.links[peer := Link(Online, true, Dialed)]) && o.sends == {}
  {
  }

  /** A timed-out send takes just that peer out of the forward links and changes no other link. */
  lemma LagLaw(r: Relay, peer: PeerId, readLink: ParentFuture)
    ensures ForwardLinks(OnLag(r, peer), readLink) == ForwardLinks(r, readLink) - {peer}
    ensures var r' := OnLag(r, peer);
      r' == r.(links := r'.links) && r'.links.Keys == r.links.Keys && forall p :: p in r.links ==>
        r'.links[p] == if p == peer && p in r.active && r.links[p].status == Online && r.links[p].outgoing
                       then r.links[p].(status := Lagging) else r.links[p]
  {
  }

  /** Whom a relay forwards to: active, online, outgoing, and not the link it reads from. */
  lemma ForwardLinksLaw(r: Relay, readLink: ParentFuture, p: PeerId)
    ensures p in ForwardLinks(r, readLink) <==>
      p in r.active && p in r.links && r.links[p].status == Online && r.links[p].outgoing && readLink != Parent(p)
  {
  }

  /** The first list of neighbours fixes the keys, a fresh link for each and the fanout; a later
      one changes nothing. */
  lemma UpdateStateLaw(r: Relay, ids: seq<PeerId>)
    requires Distinct(r.order)
    ensures var r' := OnUpdateState(r, ids);
      if r.phase != SessionInit then r' == r
      else && Distinct(r'.order) && (forall p :: p in r'.order <==> p in r.order || p in ids)
           && (r.order == [] && Distinct(ids) ==> r'.order == ids)
           && r'.links.Keys == r.links.Keys + Members(ids)
           && (forall p :: p in r'.links ==> r'.links[p] == if p in ids then Link(Offline, true, NoSocket) else r.links[p])
           && r'.fanout == Min(|r'.order|, r.fanout) && r'.phase == LinksInitialized
           && r' == r.(order := r'.order, links := r'.links, fanout := r'.fanout, phase := r'.phase)
  {
    InsertKeysShape(r.order, ids);
    if r.order == [] && Distinct(ids) { InsertKeysDistinct(ids); }
  }
}
