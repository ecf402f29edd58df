/** `PalmTreeRelay` as the object the program keeps: link tables that share
    `TreeLink` objects, a window index, a phase and a write-once parent future
    (src/transfers/otm/palm_tree.py:40-529, src/transfers/otm/tree.py:11-115). */
module RelayObject {
  import opened Arithmetic
  import opened Peers
  import opened RelayModel
  import opened RelayLaws

  class TreeLink {
    const peerId: PeerId
    var status: LinkStatus
    var outgoing: bool
    var socket: Socket

    constructor (peerId: PeerId)
      ensures this.peerId == peerId && Value() == FRESH_LINK
    {
      this.peerId := peerId;
      status, outgoing, socket := Offline, true, NoSocket;
    }

    function Value(): Link
      reads this
    {
      Link(status, outgoing, socket)
    }

    /** The `connection` setter. */
    method SetConnection(s: Socket)
      modifies this
      ensures Value() == old(Value()).WithConnection(s)
    {
      status := Online;
      socket := s;
    }
  }

  class PalmTreeRelay {
    const id: PeerId
    var linkOrder: seq<PeerId>
    var allLinks: map<PeerId, TreeLink>
    var activeLinks: map<PeerId, TreeLink>
    var windowIndex: int
    var fanout: nat
    var phase: Phase
    var parent: ParentFuture
    var expected: set<PeerId>

    /** The value this object represents. */
    ghost var model: Relay

    ghost predicate FieldsAgree()
      reads this
    {
      && model.id == id && model.order == linkOrder && model.active == activeLinks.Keys
      && model.window == windowIndex && model.fanout == fanout && model.phase == phase
      && model.parent == parent && model.expected == expected
    }

    /** `all_links` holds one link object per peer, with the values of the model. */
    ghost predicate TableAgrees()
      reads this, allLinks.Values
    {
      && model.links.Keys == allLinks.Keys
      && (forall p :: p in linkOrder ==> p in allLinks)
      && forall p :: p in allLinks ==> allLinks[p].peerId == p && allLinks[p].Value() == model.links[p]
    }

    /** `active_links` maps a peer to its own link object out of `all_links`. */
    ghost predicate Consistent()
      reads this, allLinks.Values
    {
      && FieldsAgree()
      && TableAgrees()
      && forall p :: p in activeLinks ==> p in allLinks && activeLinks[p] == allLinks[p]
    }

    /** Before the first update of its neighbours a relay knows nobody. */
    ghost predicate Valid()
      reads this, allLinks.Values
    {
      Consistent() && (phase == SessionInit ==> linkOrder == [] && allLinks == map[] && activeLinks == map[])
    }

    constructor (id: PeerId, fanout: nat)
      ensures Valid() && model == FreshRelay(id, fanout)
    {
      this.id := id;
      this.fanout := fanout;
      linkOrder, allLinks, activeLinks := [], map[], map[];
      windowIndex, phase, parent, expected := 0, SessionInit, Pending, {};
      model := FreshRelay(id, fanout);
    }

    /** Puts one more peer into the link tables. */
    method AddLink(p: PeerId)
      requires Consistent() && activeLinks == map[]
      modifies this`linkOrder, this`allLinks, this`model
      ensures Consistent()
      ensures model == old(model).(order := InsertKey(old(linkOrder), p), links := old(model.links)[p := FRESH_LINK])
    {
      var link := new TreeLink(p);
      linkOrder := InsertKey(linkOrder, p);
      allLinks := allLinks[p := link];
      model := model.(order := linkOrder, links := model.links[p := FRESH_LINK]);
    }

    method GossipUpdateState(addresses: seq<PeerId>)
      requires Valid()
      modifies this
      ensures Valid() && model == OnUpdateState(old(model), addresses)
    {
      if phase != SessionInit { return; }
      for i := 0 to |addresses|
        invariant Consistent() && activeLinks == map[] && phase == SessionInit
        invariant model == old(model).(order := InsertKeys(old(linkOrder), addresses[..i]),
                                       links := FreshLinks(old(model.links), addresses[..i]))
      {
        assert addresses[..i + 1][..i] == addresses[..i];
        AddLink(addresses[i]);
        FreshLinksStep(old(model.links), addresses[..i], addresses[i]);
        assert addresses[..i + 1] == addresses[..i] + [addresses[i]];
      }
      assert addresses[..|addresses|] == addresses;
      fanout := Min(|linkOrder|, fanout);
      phase := LinksInitialized;
      model := model.(fanout := fanout, phase := phase);
    }

    /** `self.active_links[peer] = self.all_links[peer][1]` */
    method Activate(p: PeerId)
      requires Valid() && p in allLinks
      modifies this`activeLinks, this`model
      ensures Valid() && model == old(model).(active := old(model.active) + {p})
    {
      activeLinks := activeLinks[p := allLinks[p]];
      model := model.(active := model.active + {p});
    }

    method SendChecks(sampled: set<PeerId>) returns (sends: set<Message>)
      requires Valid() && sampled <= allLinks.Keys
      modifies this`activeLinks, this`model
      ensures Valid() && model == old(model).(active := old(model.active) + sampled)
      ensures sends == Checks(id, sampled)
    {
      var rest := sampled;
      sends := {};
      while rest != {}
        invariant rest <= sampled && Valid()
        invariant model == old(model).(active := old(model.active) + (sampled - rest))
        invariant sends == Checks(id, sampled - rest)
        decreases rest
      {
        var p :| p in rest;
        Activate(p);
        sends := sends + {Check(id, p)};
        assert sampled - (rest - {p}) == (sampled - rest) + {p};
        rest := rest - {p};
      }
      assert sampled - rest == sampled;
    }

    method ForwardTreeCheckPacket(sender: PeerId) returns (sends: set<Message>)
      requires Valid()
      modifies this`activeLinks, this`windowIndex, this`model
      ensures Valid() && Outcome(model, sends, false) == Forward(old(model), sender)
    {
      var online := set p | p in activeLinks && activeLinks[p].status == Online && activeLinks[p].outgoing;
      assert online == OnlineOutgoing(model);
      var windowStart, windowEnd := windowIndex, Min(|linkOrder|, windowIndex + fanout) - |online|;
      var slice := PySlice(linkOrder, windowStart, windowEnd + 1);
      PySliceMembers(linkOrder, windowStart, windowEnd + 1);
      var sampled := set p | p in slice && p != sender && p !in activeLinks;
      assert sampled == Sampled(model, sender);
      windowIndex := windowEnd;
      model := model.(window := windowEnd);
      sends := SendChecks(sampled);
    }

    method GossipTreeCheck(sender: PeerId) returns (sends: set<Message>, waiting: bool)
      requires Valid()
      modifies this
      ensures Valid() && Outcome(model, sends, waiting) == OnCheck(old(model), sender)
    {
      if sender !in allLinks || |activeLinks.Keys| > fanout || parent != Pending || phase == TreeCheckDone {
        return {Reject(id, sender)}, false;
      }
      expected := expected + {sender};
      model := model.(expected := expected);
      Activate(sender);
      sends, waiting := {Upgrade(id, sender)}, true;
    }

    method SetOutgoing(p: PeerId, outgoing: bool)
      requires Valid() && p in allLinks
      modifies allLinks.Values, this`model
      ensures Valid() && model == old(model).(links := old(model.links)[p := old(model.links[p]).(outgoing := outgoing)])
    {
      allLinks[p].outgoing := outgoing;
      model := model.(links := model.links[p := model.links[p].(outgoing := outgoing)]);
    }

    /** A `wait_for` that times out cancels the future if it is pending. */
    method CancelFuture()
      requires Valid()
      modifies this`parent, this`model
      ensures Valid() && model == if old(parent) == Pending then old(model).(parent := GivenUp) else old(model)
    {
      if parent == Pending {
        parent := GivenUp;
        model := model.(parent := GivenUp);
      }
    }

    method ForwardAndFinish(sender: PeerId) returns (sends: set<Message>)
      requires Valid()
      modifies this
      ensures Valid() && allLinks == old(allLinks)
      ensures var o := Forward(old(model), sender);
        Outcome(model, sends, false) == o.(relay := o.relay.(phase := TreeCheckDone))
    {
      sends := ForwardTreeCheckPacket(sender);
      phase := TreeCheckDone;
      model := model.(phase := TreeCheckDone);
    }

    /** The part of `gossip_tree_check` after the `wait_for`. */
    method FinishTreeCheck(sender: PeerId, timedOut: bool) returns (sends: set<Message>)
      requires Valid() && sender in allLinks
      modifies this, allLinks.Values
      ensures Valid()
      ensures timedOut ==> Outcome(model, sends, false) == OnExpire(old(model), sender)
      ensures !timedOut ==> Outcome(model, sends, false) == OnResume(old(model), sender)
      ensures timedOut ==> AsksAfterWait(old(model), Outcome(model, sends, false), sender)
    {
      ghost var before := model;
      if !timedOut {
        SetOutgoing(sender, false);
      } else {
        CancelFuture();
      }
      sends := ForwardAndFinish(sender);
      ExpireLaw(before, sender);
    }

    method GossipTreeReject(from: PeerId) returns (sends: set<Message>)
      requires Valid()
      modifies this
      ensures Valid() && Outcome(model, sends, false) == OnReject(old(model), from)
    {
      if |linkOrder| <= windowIndex { return {}; }
      if |activeLinks.Keys| >= fanout { return {}; }
      sends := ForwardTreeCheckPacket(from);
    }

    method GossipUpgradeConnection(peer: PeerId) returns (sends: set<Message>)
      requires Valid()
      ensures Outcome(model, sends, false) == OnUpgrade(model, peer)
    {
      if peer in activeLinks && activeLinks[peer].status == Online { return {}; }
      if peer !in activeLinks { return {}; }
      sends := {Dial(id, peer)};
    }

    /** `link.connection = socket` on the active link of a peer */
    method Connect(p: PeerId, socket: Socket)
      requires Valid() && p in activeLinks
      modifies allLinks.Values, this`model
      ensures Valid() && model == old(model).(links := old(model.links)[p := old(model.links[p]).WithConnection(socket)])
    {
      activeLinks[p].SetConnection(socket);
      model := model.(links := model.links[p := model.links[p].WithConnection(socket)]);
    }

    /** The reply to `_activate_link` arrived. */
    method LinkConfirmed(peer: PeerId)
      requires Valid() && peer in activeLinks
      modifies this, allLinks.Values
      ensures Valid() && Outcome(model, {}, false) == OnLinkOk(old(model), peer)
    {
      activeLinks[peer].SetConnection(Dialed);
      activeLinks[peer].outgoing := true;
      model := model.(links := model.links[peer := model.links[peer].WithConnection(Dialed).(outgoing := true)]);
    }

    method GossipAddStreamLink(peer: PeerId) returns (sends: set<Message>)
      requires Valid()
      modifies this, allLinks.Values
      ensures Valid() && Outcome(model, sends, false) == OnDial(old(model), peer)
    {
      sends := {};
      if peer !in activeLinks { return; }
      if activeLinks[peer].status == Online || activeLinks[peer].status == Lagging {
        Connect(peer, Accepted);
        return;
      }
      if parent == Pending && peer in expected {
        Connect(peer, Accepted);
        sends := {LinkOk(id, peer)};
        parent := Parent(peer);
        model := model.(parent := parent);
      }
    }

    method ForwardTargets(readLink: ParentFuture) returns (targets: set<PeerId>)
      requires Valid()
      ensures targets == ForwardLinks(model, readLink)
    {
      targets := set p | p in activeLinks && activeLinks[p].status == Online && activeLinks[p].outgoing;
      if readLink.Parent? { targets := targets - {readLink.peer}; }
    }
  }

  lemma FreshLinksStep(links: map<PeerId, Link>, ids: seq<PeerId>, p: PeerId)
    ensures FreshLinks(links, ids + [p]) == FreshLinks(links, ids)[p := FRESH_LINK]
  {
  }
}
