/** Bytes going down a finished tree: every relay reads some bytes from its parent
    and forwards them to its online children one after the other; a send that times
    out may have put part of the chunk on the wire and makes the link lag for good
    (src/transfers/otm/relay.py:49-103, src/transfers/otm/palm_tree.py:521-529). */
module StreamFlow {
  import opened Peers
  import opened RelayModel
  import opened Octets

  /** One relay: all it has read (at the root: all it was given to send), and the
      chunk it is forwarding to the links in `pending`. */
  datatype Node = Node(received: Bytes, chunk: Bytes, pending: set<PeerId>, lagging: set<PeerId>)

  /** `wire[v]` is all that the parent of `v` has written to it. */
  datatype Flow = Flow(nodes: map<PeerId, Node>, wire: map<PeerId, Bytes>)

  /** `parent` is the finished tree: everyone but the root has one. */
  datatype Tree = Tree(root: PeerId, parent: map<PeerId, PeerId>) {
    ghost predicate Valid() {
      root !in parent && forall v :: v in parent ==> parent[v] == root || parent[v] in parent
    }
    function Nodes(): set<PeerId> { parent.Keys + {root} }
    function Children(u: PeerId): set<PeerId> { set v | v in parent && parent[v] == u }
  }

  datatype Step =
    | Submit(data: Bytes)                              // the root sends a chunk
    | Read(u: PeerId, n: nat)                          // any short read
    | Send(u: PeerId, v: PeerId)                       // the whole chunk went out
    | TimeOut(u: PeerId, v: PeerId, k: nat)            // k bytes of it did

  ghost predicate Initial(t: Tree, f: Flow) {
    && f.nodes == (map u | u in t.Nodes() :: Node([], [], {}, {}))
    && f.wire == (map v | v in t.parent :: [])
  }

  ghost predicate Enabled(t: Tree, f: Flow, e: Step) {
    match e
    case Submit(_) => t.root in f.nodes && f.nodes[t.root].pending == {}
    case Read(u, n) => u in f.nodes && u in t.parent && u in f.wire && f.nodes[u].pending == {}
                       && 1 <= n <= |f.wire[u]| - |f.nodes[u].received|
    case Send(u, v) => u in f.nodes && v in f.nodes[u].pending && v in f.wire
    case TimeOut(u, v, k) => u in f.nodes && v in f.nodes[u].pending && v in f.wire && k <= |f.nodes[u].chunk|
  }

  /** A chunk arrives: it is kept, and goes to the links that are online now. */
  ghost function Take(t: Tree, u: PeerId, node: Node, data: Bytes): Node {
    Node(node.received + data, data, t.Children(u) - node.lagging, node.lagging)
  }

  ghost function Next(t: Tree, f: Flow, e: Step): Flow
    requires Enabled(t, f, e)
  {
    match e
    case Submit(data) => f.(nodes := f.nodes[t.root := Take(t, t.root, f.nodes[t.root], data)])
    case Read(u, n) =>
      var at := |f.nodes[u].received|;
      f.(nodes := f.nodes[u := Take(t, u, f.nodes[u], f.wire[u][at..at + n])])
    case Send(u, v) =>
      f.(nodes := f.nodes[u := f.nodes[u].(pending := f.nodes[u].pending - {v})],
         wire := f.wire[v := f.wire[v] + f.nodes[u].chunk])
    case TimeOut(u, v, k) =>
      f.(nodes := f.nodes[u := f.nodes[u].(pending := f.nodes[u].pending - {v}, lagging := f.nodes[u].lagging + {v})],
         wire := f.wire[v := f.wire[v] + f.nodes[u].chunk[..k]])
  }

  /** What an edge holds: an idle online link has everything its upper end has, one
      whose turn is still to come lacks the current chunk, a lagging one is cut off. */
  ghost predicate EdgeOk(up: Node, got: Bytes, wire: Bytes, v: PeerId) {
    && got <= wire
    && (v in up.lagging ==> wire <= up.received && v !in up.pending)
    && (v !in up.lagging && v !in up.pending ==> wire == up.received)
    && (v !in up.lagging && v in up.pending ==> wire + up.chunk == up.received)
  }

  ghost predicate Inv(t: Tree, f: Flow) {
    && t.Valid() && f.nodes.Keys == t.Nodes() && f.wire.Keys == t.parent.Keys
    && (forall u :: u in f.nodes ==> f.nodes[u].pending <= t.Children(u))
    && forall v :: v in t.parent ==> EdgeOk(f.nodes[t.parent[v]], f.nodes[v].received, f.wire[v], v)
  }

  lemma TakeKeepsEdge(t: Tree, u: PeerId, node: Node, data: Bytes, got: Bytes, wire: Bytes, v: PeerId)
    requires EdgeOk(node, got, wire, v) && node.pending == {} && v in t.Children(u)
    ensures EdgeOk(Take(t, u, node, data), got, wire, v)
  {
  }

  lemma SubmitKeepsInv(t: Tree, f: Flow, data: Bytes)
    requires Inv(t, f) && Enabled(t, f, Submit(data))
    ensures Inv(t, Next(t, f, Submit(data)))
  {
    var f' := Next(t, f, Submit(data));
    forall v | v in t.parent ensures EdgeOk(f'.nodes[t.parent[v]], f'.nodes[v].received, f'.wire[v], v) {
      if t.parent[v] == t.root {
        TakeKeepsEdge(t, t.root, f.nodes[t.root], data, f.nodes[v].received, f.wire[v], v);
      }
    }
  }

  lemma ReadKeepsInv(t: Tree, f: Flow, u: PeerId, n: nat)
    requires Inv(t, f) && Enabled(t, f, Read(u, n))
    ensures Inv(t, Next(t, f, Read(u, n)))
  {
    var f' := Next(t, f, Read(u, n));
    var at := |f.nodes[u].received|;
    var data := f.wire[u][at..at + n];
    assert EdgeOk(f.nodes[t.parent[u]], f.nodes[u].received, f.wire[u], u);
    assert f.nodes[u].received + data <= f.wire[u];
    forall v | v in t.parent ensures EdgeOk(f'.nodes[t.parent[v]], f'.nodes[v].received, f'.wire[v], v) {
      assert EdgeOk(f.nodes[t.parent[v]], f.nodes[v].received, f.wire[v], v);
      if t.parent[v] == u { TakeKeepsEdge(t, u, f.nodes[u], data, f.nodes[v].received, f.wire[v], v); }
    }
  }

  /** A served link leaves `pending`; the other links of the relay see no change. */
  lemma WriteKeepsEdges(up: Node, got: Bytes, wire: Bytes, v: PeerId, k: nat)
    requires EdgeOk(up, got, wire, v) && v in up.pending && k <= |up.chunk|
    ensures EdgeOk(up.(pending := up.pending - {v}), got, wire + up.chunk, v)
    ensures EdgeOk(up.(pending := up.pending - {v}, lagging := up.lagging + {v}), got, wire + up.chunk[..k], v)
  {
  }

  lemma SendKeepsInv(t: Tree, f: Flow, u: PeerId, v: PeerId)
    requires Inv(t, f) && Enabled(t, f, Send(u, v))
    ensures Inv(t, Next(t, f, Send(u, v)))
  {
    assert v in t.Children(u);
    WriteKeepsEdges(f.nodes[u], f.nodes[v].received, f.wire[v], v, 0);
    var f' := Next(t, f, Send(u, v));
    forall w | w in t.parent ensures EdgeOk(f'.nodes[t.parent[w]], f'.nodes[w].received, f'.wire[w], w) {
      assert EdgeOk(f.nodes[t.parent[w]], f.nodes[w].received, f.wire[w], w);
    }
  }

  lemma TimeOutKeepsInv(t: Tree, f: Flow, u: PeerId, v: PeerId, k: nat)
    requires Inv(t, f) && Enabled(t, f, TimeOut(u, v, k))
    ensures Inv(t, Next(t, f, TimeOut(u, v, k)))
  {
    assert v in t.Children(u);
    WriteKeepsEdges(f.nodes[u], f.nodes[v].received, f.wire[v], v, k);
    var f' := Next(t, f, TimeOut(u, v, k));
    forall w | w in t.parent ensures EdgeOk(f'.nodes[t.parent[w]], f'.nodes[w].received, f'.wire[w], w) {
      assert EdgeOk(f.nodes[t.parent[w]], f.nodes[w].received, f.wire[w], w);
    }
  }

  lemma StepKeepsInv(t: Tree, f: Flow, e: Step)
    requires Inv(t, f) && Enabled(t, f, e)
    ensures Inv(t, Next(t, f, e))
  {
    match e
    case Submit(data) => SubmitKeepsInv(t, f, data);
    case Read(u, n) => ReadKeepsInv(t, f, u, n);
    case Send(u, v) => SendKeepsInv(t, f, u, v);
    case TimeOut(u, v, k) => TimeOutKeepsInv(t, f, u, v, k);
  }

  ghost predicate Run(t: Tree, flows: seq<Flow>, steps: seq<Step>) {
    t.Valid() && Chain(t, flows, steps) && Initial(t, flows[0])
  }

  lemma {:induction false} RunKeepsInv(t: Tree, flows: seq<Flow>, steps: seq<Step>, k: nat)
    requires Run(t, flows, steps) && k < |flows|
    ensures Inv(t, flows[k])
  {
    if k > 0 {
      RunKeepsInv(t, flows, steps, k - 1);
      StepKeepsInv(t, flows[k - 1], steps[k - 1]);
    }
  }

  /** All that the root is given to send, submission by submission. */
  function Submitted(steps: seq<Step>): Bytes {
    if steps == [] then [] else Submitted(steps[..|steps| - 1]) + Given(steps[|steps| - 1])
  }

  function Given(e: Step): Bytes { if e.Submit? then e.data else [] }

  lemma RootStep(t: Tree, f: Flow, e: Step)
    requires Inv(t, f) && Enabled(t, f, e)
    ensures t.root in f.nodes && Next(t, f, e).nodes.Keys == f.nodes.Keys
    ensures Next(t, f, e).nodes[t.root].received == f.nodes[t.root].received + Given(e)
  {
    assert f.nodes[t.root].received + [] == f.nodes[t.root].received;
  }

  lemma SubmittedStep(steps: seq<Step>, k: nat)
    requires k < |steps|
    ensures Submitted(steps[..k + 1]) == Submitted(steps[..k]) + Given(steps[k])
  {
    assert steps[..k + 1][..k] == steps[..k];
  }

  lemma RunStep(t: Tree, flows: seq<Flow>, steps: seq<Step>, k: nat)
    requires Run(t, flows, steps) && k < |steps|
    ensures Inv(t, flows[k]) && Enabled(t, flows[k], steps[k]) && flows[k + 1] == Next(t, flows[k], steps[k])
  {
    RunKeepsInv(t, flows, steps, k);
  }

  lemma RunRootStep(t: Tree, flows: seq<Flow>, steps: seq<Step>, k: nat)
    requires Run(t, flows, steps) && k < |steps|
    ensures t.root in flows[k].nodes && t.root in flows[k + 1].nodes
    ensures flows[k + 1].nodes[t.root].received == flows[k].nodes[t.root].received + Given(steps[k])
  {
    RunStep(t, flows, steps, k);
    RootStep(t, flows[k], steps[k]);
  }

  lemma RootAtFirst(t: Tree, f: Flow)
    requires Initial(t, f)
    ensures t.root in f.nodes && f.nodes[t.root].received == Submitted([])
  {
  }

  lemma {:induction false} RootHasSubmitted(t: Tree, flows: seq<Flow>, steps: seq<Step>, k: nat)
    requires Run(t, flows, steps) && k < |flows|
    ensures t.root in flows[k].nodes && flows[k].nodes[t.root].received == Submitted(steps[..k])
  {
    if k == 0 {
      RootAtFirst(t, flows[0]);
      assert steps[..0] == [];
    } else {
      RootHasSubmitted(t, flows, steps, k - 1);
      RunRootStep(t, flows, steps, k - 1);
      SubmittedStep(steps, k - 1);
    }
  }

  /** No send to `v` has timed out. */
  ghost predicate OnTime(steps: seq<Step>, v: PeerId) {
    forall i :: 0 <= i < |steps| && steps[i].TimeOut? ==> steps[i].v != v
  }

  /** The link from the parent of `v` to it lags. */
  ghost predicate Lags(t: Tree, f: Flow, v: PeerId) {
    v in t.parent && t.parent[v] in f.nodes && v in f.nodes[t.parent[v]].lagging
  }

  lemma StepLags(t: Tree, f: Flow, e: Step, v: PeerId)
    requires Inv(t, f) && Enabled(t, f, e) && v in t.parent
    ensures Lags(t, Next(t, f, e), v) <==> Lags(t, f, v) || (e.TimeOut? && e.v == v)
    ensures v in f.wire && v in Next(t, f, e).wire && (Lags(t, f, v) ==> Next(t, f, e).wire[v] == f.wire[v])
  {
    assert forall u, w :: u in f.nodes && w in f.nodes[u].pending ==> w in t.Children(u);
    assert EdgeOk(f.nodes[t.parent[v]], f.nodes[v].received, f.wire[v], v);
  }

  lemma OnTimeStep(steps: seq<Step>, k: nat, v: PeerId)
    requires k < |steps|
    ensures OnTime(steps[..k + 1], v) <==> OnTime(steps[..k], v) && (steps[k].TimeOut? ==> steps[k].v != v)
  {
    assert forall i :: 0 <= i < k ==> steps[..k + 1][i] == steps[..k][i];
    assert steps[..k + 1][k] == steps[k];
  }

  lemma RunStepLags(t: Tree, flows: seq<Flow>, steps: seq<Step>, k: nat, v: PeerId)
    requires Run(t, flows, steps) && k < |steps| && v in t.parent
    ensures Lags(t, flows[k + 1], v) <==> Lags(t, flows[k], v) || (steps[k].TimeOut? && steps[k].v == v)
    ensures v in flows[k].wire && v in flows[k + 1].wire
    ensures Lags(t, flows[k], v) ==> flows[k + 1].wire[v] == flows[k].wire[v]
  {
    RunStep(t, flows, steps, k);
    StepLags(t, flows[k], steps[k], v);
  }

  lemma NoLagAtFirst(t: Tree, f: Flow, v: PeerId)
    requires Initial(t, f)
    ensures !Lags(t, f, v)
  {
  }

  /** A link lags if and only if one send over it has timed out. */
  lemma {:induction false} LagsIffTimedOut(t: Tree, flows: seq<Flow>, steps: seq<Step>, k: nat, v: PeerId)
    requires Run(t, flows, steps) && k < |flows| && v in t.parent
    ensures Lags(t, flows[k], v) <==> !OnTime(steps[..k], v)
  {
    if k == 0 {
      NoLagAtFirst(t, flows[0], v);
    } else {
      LagsIffTimedOut(t, flows, steps, k - 1, v);
      RunStepLags(t, flows, steps, k - 1, v);
      OnTimeStep(steps, k - 1, v);
    }
  }

  lemma {:induction false} LaggingStays(t: Tree, flows: seq<Flow>, steps: seq<Step>, j: nat, k: nat, v: PeerId)
    requires Run(t, flows, steps) && j <= k < |flows| && Lags(t, flows[j], v) && v in flows[j].wire
    ensures Lags(t, flows[k], v) && v in flows[k].wire && flows[k].wire[v] == flows[j].wire[v]
  {
    if k > j {
      LaggingStays(t, flows, steps, j, k - 1, v);
      RunStepLags(t, flows, steps, k - 1, v);
    }
  }

  lemma TimeOutCuts(t: Tree, f: Flow, u: PeerId, v: PeerId, n: nat)
    requires Inv(t, f) && Enabled(t, f, TimeOut(u, v, n))
    ensures var up := f.nodes[u]; var f' := Next(t, f, TimeOut(u, v, n));
      && Lags(t, f', v) && v in f'.wire && n <= |up.chunk| <= |up.received|
      && f'.wire[v] == up.received[..|up.received| - |up.chunk| + n]
  {
    assert v in t.Children(u);
    assert EdgeOk(f.nodes[u], f.nodes[v].received, f.wire[v], v);
    assert f.nodes[u].received == f.wire[v] + f.nodes[u].chunk;
  }

  /** A send that times out after `n` bytes cuts the child off there for good: whatever
      happens later, the link holds what the parent had before the chunk, and these bytes. */
  lemma TimedOutLinkIsCut(t: Tree, flows: seq<Flow>, steps: seq<Step>, j: nat, k: nat)
    requires Run(t, flows, steps) && j < k < |flows| && steps[j].TimeOut?
    ensures var e := steps[j];
      && e.u in flows[j].nodes && e.v in flows[k].wire && e.v in flows[k].nodes
      && var up := flows[j].nodes[e.u];
      && e.k <= |up.chunk| <= |up.received|
      && flows[k].wire[e.v] == up.received[..|up.received| - |up.chunk| + e.k]
      && flows[k].nodes[e.v].received <= flows[k].wire[e.v]
  {
    var e := steps[j];
    RunStep(t, flows, steps, j);
    TimeOutCuts(t, flows[j], e.u, e.v, e.k);
    LaggingStays(t, flows, steps, j + 1, k, e.v);
    RunKeepsInv(t, flows, steps, k);
    assert EdgeOk(flows[k].nodes[t.parent[e.v]], flows[k].nodes[e.v].received, flows[k].wire[e.v], e.v);
  }

  /** From a relay up to the root, by parents. */
  ghost predicate ChainToRoot(t: Tree, chain: seq<PeerId>) {
    && chain != [] && chain[|chain| - 1] == t.root
    && forall i :: 0 <= i < |chain| - 1 ==> chain[i] in t.parent && t.parent[chain[i]] == chain[i + 1]
  }

  lemma {:induction false} PrefixUpTheChain(t: Tree, f: Flow, chain: seq<PeerId>)
    requires Inv(t, f) && ChainToRoot(t, chain)
    ensures chain[0] in f.nodes && f.nodes[chain[0]].received <= f.nodes[t.root].received
    decreases |chain|
  {
    if |chain| > 1 {
      assert chain[0] in t.parent && t.parent[chain[0]] == chain[1];
      var rest := chain[1..];
      forall i | 0 <= i < |rest| - 1 ensures rest[i] in t.parent && t.parent[rest[i]] == rest[i + 1] {
        assert chain[i + 1] in t.parent && t.parent[chain[i + 1]] == chain[i + 2];
      }
      PrefixUpTheChain(t, f, rest);
      assert EdgeOk(f.nodes[chain[1]], f.nodes[chain[0]].received, f.wire[chain[0]], chain[0]);
    }
  }

  /** In every state of every run, what a relay under the root has received is a
      prefix of what was given to the root: no gap, no repetition, no reordering. */
  lemma ReceivedIsPrefixOfSent(t: Tree, flows: seq<Flow>, steps: seq<Step>, k: nat, chain: seq<PeerId>)
    requires Run(t, flows, steps) && k < |flows| && ChainToRoot(t, chain)
    ensures chain[0] in flows[k].nodes && flows[k].nodes[chain[0]].received <= Submitted(steps[..k])
  {
    RunKeepsInv(t, flows, steps, k);
    RootHasSubmitted(t, flows, steps, k);
    PrefixUpTheChain(t, flows[k], chain);
  }

  ghost predicate AtRest(t: Tree, f: Flow) {
    (forall u :: u in f.nodes ==> f.nodes[u].pending == {})
    && forall v :: v in t.parent && v in f.nodes && v in f.wire ==> f.wire[v] == f.nodes[v].received
  }

  lemma {:induction false} AllArrivesUpTheChain(t: Tree, f: Flow, chain: seq<PeerId>)
    requires Inv(t, f) && ChainToRoot(t, chain) && AtRest(t, f)
    requires forall i :: 0 <= i < |chain| - 1 ==> !Lags(t, f, chain[i])
    ensures chain[0] in f.nodes && f.nodes[chain[0]].received == f.nodes[t.root].received
    decreases |chain|
  {
    if |chain| > 1 {
      assert chain[0] in t.parent && t.parent[chain[0]] == chain[1];
      var rest := chain[1..];
      forall i | 0 <= i < |rest| - 1
        ensures rest[i] in t.parent && t.parent[rest[i]] == rest[i + 1]
        ensures !Lags(t, f, rest[i])
      {
        assert chain[i + 1] in t.parent && t.parent[chain[i + 1]] == chain[i + 2];
        assert !Lags(t, f, chain[i + 1]);
      }
      AllArrivesUpTheChain(t, f, rest);
      assert EdgeOk(f.nodes[chain[1]], f.nodes[chain[0]].received, f.wire[chain[0]], chain[0]);
      assert !Lags(t, f, chain[0]);
    }
  }

  /** Nothing is lost either: at rest, a relay with no timed-out send above it has all that
      was given to the root. */
  lemma AllArrives(t: Tree, flows: seq<Flow>, steps: seq<Step>, k: nat, chain: seq<PeerId>)
    requires Run(t, flows, steps) && k < |flows| && ChainToRoot(t, chain) && AtRest(t, flows[k])
    requires forall i :: 0 <= i < |chain| - 1 ==> OnTime(steps[..k], chain[i])
    ensures chain[0] in flows[k].nodes && flows[k].nodes[chain[0]].received == Submitted(steps[..k])
  {
    RunKeepsInv(t, flows, steps, k);
    RootHasSubmitted(t, flows, steps, k);
    forall i | 0 <= i < |chain| - 1 ensures !Lags(t, flows[k], chain[i]) {
      LagsIffTimedOut(t, flows, steps, k, chain[i]);
    }
    AllArrivesUpTheChain(t, flows[k], chain);
  }

  /** Everyone in the tree is under the root. */
  ghost predicate Rooted(t: Tree) {
    forall p :: p in t.Nodes() ==> exists chain :: ChainToRoot(t, chain) && chain[0] == p
  }

  /** The bytes that the root has and the others still lack, and the links to be served. */
  ghost function Missing(t: Tree, f: Flow): set<(PeerId, nat)>
  {
    set v, i | v in t.parent && v in f.nodes && t.root in f.nodes
               && |f.nodes[v].received| <= i < |f.nodes[t.root].received| :: (v, i)
  }

  ghost function Waiting(f: Flow): set<(PeerId, PeerId)> {
    set u, v | u in f.nodes && v in f.nodes[u].pending :: (u, v)
  }

  /** A send or a read of something, where there is anything to do. */
  lemma SomeStep(t: Tree, f: Flow) returns (e: Step)
    requires Inv(t, f) && !AtRest(t, f)
    ensures (e.Send? || e.Read?) && Enabled(t, f, e)
  {
    if u, v :| u in f.nodes && v in f.nodes[u].pending {
      assert v in t.Children(u);
      e := Send(u, v);
    } else {
      var v :| v in t.parent && v in f.nodes && v in f.wire && f.wire[v] != f.nodes[v].received;
      assert EdgeOk(f.nodes[t.parent[v]], f.nodes[v].received, f.wire[v], v);
      e := Read(v, |f.wire[v]| - |f.nodes[v].received|);
    }
  }

  lemma SendProgress(t: Tree, f: Flow, u: PeerId, v: PeerId)
    requires Inv(t, f) && Enabled(t, f, Send(u, v))
    ensures Next(t, f, Send(u, v)).nodes.Keys == t.Nodes()
    ensures Missing(t, Next(t, f, Send(u, v))) == Missing(t, f) && Waiting(Next(t, f, Send(u, v))) < Waiting(f)
  {
    var f' := Next(t, f, Send(u, v));
    assert (u, v) in Waiting(f) && (u, v) !in Waiting(f');
  }

  lemma NoneIsAhead(t: Tree, f: Flow, p: PeerId)
    requires Inv(t, f) && Rooted(t) && p in t.Nodes()
    ensures p in f.nodes && t.root in f.nodes && |f.nodes[p].received| <= |f.nodes[t.root].received|
  {
    var chain :| ChainToRoot(t, chain) && chain[0] == p;
    PrefixUpTheChain(t, f, chain);
  }

  lemma ReadEffect(t: Tree, f: Flow, u: PeerId, n: nat)
    requires Inv(t, f) && Enabled(t, f, Read(u, n))
    ensures var f' := Next(t, f, Read(u, n));
      && f'.nodes.Keys == f.nodes.Keys == t.Nodes() && t.root != u && f'.nodes[t.root] == f.nodes[t.root]
      && |f'.nodes[u].received| == |f.nodes[u].received| + n && n > 0
      && forall v :: v in t.parent && v != u ==> f'.nodes[v] == f.nodes[v]
  {
  }

  lemma MissesLess(t: Tree, f: Flow, f': Flow, u: PeerId)
    requires u in t.parent && u in f.nodes && t.root in f.nodes && f'.nodes.Keys == f.nodes.Keys
    requires f'.nodes[t.root] == f.nodes[t.root] && forall v :: v in t.parent && v in f.nodes && v != u ==> f'.nodes[v] == f.nodes[v]
    requires |f.nodes[u].received| < |f'.nodes[u].received| <= |f.nodes[t.root].received|
    ensures Missing(t, f') < Missing(t, f)
  {
    var at := |f.nodes[u].received|;
    assert (u, at) in Missing(t, f) && (u, at) !in Missing(t, f');
  }

  /** A sent chunk leaves fewer links to be served, a read leaves less to be read. */
  lemma StepProgress(t: Tree, f: Flow, e: Step)
    requires Inv(t, f) && Rooted(t) && Enabled(t, f, e) && (e.Send? || e.Read?)
    ensures var f' := Next(t, f, e); Missing(t, f') < Missing(t, f) || (Missing(t, f') == Missing(t, f) && Waiting(f') < Waiting(f))
  {
    if e.Send? {
      SendProgress(t, f, e.u, e.v);
    } else {
      ReadEffect(t, f, e.u, e.n);
      ReadKeepsInv(t, f, e.u, e.n);
      NoneIsAhead(t, Next(t, f, e), e.u);
      MissesLess(t, f, Next(t, f, e), e.u);
    }
  }

  lemma ExtendRun(t: Tree, flows: seq<Flow>, steps: seq<Step>, e: Step)
    requires Run(t, flows, steps) && Enabled(t, flows[|steps|], e)
    ensures Run(t, flows + [Next(t, flows[|steps|], e)], steps + [e])
    ensures Submitted(steps + [e]) == Submitted(steps) + Given(e)
  {
    var flows', steps' := flows + [Next(t, flows[|steps|], e)], steps + [e];
    forall i {:trigger steps'[i]} | 0 <= i < |steps'|
      ensures Enabled(t, flows'[i], steps'[i]) && flows'[i + 1] == Next(t, flows'[i], steps'[i])
    {
      if i < |steps| { assert steps'[i] == steps[i]; }
    }
    assert steps'[..|steps|] == steps;
  }

  lemma OneMoreStep(t: Tree, flows: seq<Flow>, steps: seq<Step>) returns (f': Flow, e: Step)
    requires Run(t, flows, steps) && Rooted(t) && !AtRest(t, flows[|steps|])
    ensures (e.Send? || e.Read?) && Run(t, flows + [f'], steps + [e]) && Submitted(steps + [e]) == Submitted(steps)
    ensures var f := flows[|steps|];
      Missing(t, f') < Missing(t, f) || (Missing(t, f') == Missing(t, f) && Waiting(f') < Waiting(f))
  {
    var f := flows[|steps|];
    RunKeepsInv(t, flows, steps, |steps|);
    e := SomeStep(t, f);
    f' := Next(t, f, e);
    StepProgress(t, f, e);
    ExtendRun(t, flows, steps, e);
  }

  /** However a run of the data phase stands, sends and reads alone bring it to rest. */
  lemma {:induction false} CanComeToRest(t: Tree, flows: seq<Flow>, steps: seq<Step>) returns (flows': seq<Flow>, steps': seq<Step>)
    requires Run(t, flows, steps) && Rooted(t)
    ensures Run(t, flows', steps') && steps <= steps' && AtRest(t, flows'[|steps'|])
    ensures forall i :: |steps| <= i < |steps'| ==> steps'[i].Send? || steps'[i].Read?
    ensures Submitted(steps') == Submitted(steps)
    decreases Missing(t, flows[|steps|]), Waiting(flows[|steps|])
  {
    if AtRest(t, flows[|steps|]) {
      flows', steps' := flows, steps;
    } else {
      var f1, e := OneMoreStep(t, flows, steps);
      assert (flows + [f1])[|steps + [e]|] == f1;
      flows', steps' := CanComeToRest(t, flows + [f1], steps + [e]);
    }
  }

  // ---- `_forward_chunk` -------------------------------------------------------------

  /** What a link holds after a send that went out or timed out after `late[v]` bytes. */
  function AfterSend(written: Bytes, chunk: Bytes, late: map<PeerId, nat>, v: PeerId): Bytes
    requires v in late ==> late[v] <= |chunk|
  {
    if v in late then written + chunk[..late[v]] else written + chunk
  }

  /** `_get_forward_links` on a table of active links. */
  function Targets(links: map<PeerId, Link>, readLink: ParentFuture): set<PeerId> {
    set v | v in links && links[v].status.Online? && links[v].outgoing && readLink != Parent(v)
  }

  lemma TargetsAreForwardLinks(r: Relay, readLink: ParentFuture)
    ensures Targets(map p | p in r.active && p in r.links :: r.links[p], readLink) == ForwardLinks(r, readLink)
  {
  }

  /** What one call makes of the links and of the bytes written to them. */
  ghost predicate Forwarded(links: map<PeerId, Link>, written: map<PeerId, Bytes>, links': map<PeerId, Link>,
                            written': map<PeerId, Bytes>, chunk: Bytes, late: map<PeerId, nat>, served: set<PeerId>)
    requires forall v :: v in late ==> late[v] <= |chunk|
  {
    && links.Keys == written.Keys == links'.Keys == written'.Keys
    && forall v :: v in links ==>
         if v in served
         then written'[v] == AfterSend(written[v], chunk, late, v)
              && links'[v] == (if v in late then links[v].(status := Lagging) else links[v])
         else written'[v] == written[v] && links'[v] == links[v]
  }

  /** The sending side: `late` says after how many bytes a send timed out. */
  class ForwardingRelay {
    var links: map<PeerId, Link>
    var written: map<PeerId, Bytes>

    method ForwardChunk(chunk: Bytes, late: map<PeerId, nat>, readLink: ParentFuture)
      requires links.Keys == written.Keys
      requires forall v :: v in late ==> late[v] <= |chunk|
      modifies this
      ensures Forwarded(old(links), old(written), links, written, chunk, late, Targets(old(links), readLink))
    {
      var targets := Targets(links, readLink);
      var rest := targets;
      while rest != {}
        invariant rest <= targets
        invariant Forwarded(old(links), old(written), links, written, chunk, late, targets - rest)
        decreases rest
      {
        var v :| v in rest;
        written := written[v := AfterSend(written[v], chunk, late, v)];
        if v in late { links := links[v := links[v].(status := Lagging)]; }
        rest := rest - {v};
      }
      assert targets - rest == targets;
    }
  }

  /** Steps that follow one another. */
  ghost predicate Chain(t: Tree, flows: seq<Flow>, steps: seq<Step>) {
    && |flows| == |steps| + 1
    && forall i {:trigger steps[i]} :: 0 <= i < |steps| ==>
         Enabled(t, flows[i], steps[i]) && flows[i + 1] == Next(t, flows[i], steps[i])
  }

  lemma ChainFirst(t: Tree, f: Flow, e: Step, flows: seq<Flow>, steps: seq<Step>)
    requires Enabled(t, f, e) && Chain(t, flows, steps) && flows[0] == Next(t, f, e)
    ensures Chain(t, [f] + flows, [e] + steps)
  {
    var flows', steps' := [f] + flows, [e] + steps;
    forall i {:trigger steps'[i]} | 0 <= i < |steps'|
      ensures Enabled(t, flows'[i], steps'[i]) && flows'[i + 1] == Next(t, flows'[i], steps'[i])
    {
      if i > 0 { assert steps'[i] == steps[i - 1]; }
    }
  }

  /** From `f` to `last` the pending links of `u` were served, and nothing else changed. */
  ghost predicate Drained(f: Flow, last: Flow, u: PeerId, late: map<PeerId, nat>)
    requires u in f.nodes && forall v :: v in late ==> late[v] <= |f.nodes[u].chunk|
  {
    var node := f.nodes[u];
    && last.nodes == f.nodes[u := node.(pending := {}, lagging := node.lagging + (node.pending * late.Keys))]
    && last.wire.Keys == f.wire.Keys
    && forall v :: v in f.wire ==>
         last.wire[v] == if v in node.pending then AfterSend(f.wire[v], node.chunk, late, v) else f.wire[v]
  }

  function ServeStep(u: PeerId, v: PeerId, late: map<PeerId, nat>): Step {
    if v in late then TimeOut(u, v, late[v]) else Send(u, v)
  }

  lemma ServedThenDrained(t: Tree, f: Flow, u: PeerId, v: PeerId, late: map<PeerId, nat>, last: Flow)
    requires u in f.nodes && v in f.nodes[u].pending && v in f.wire
    requires forall w :: w in late ==> late[w] <= |f.nodes[u].chunk|
    requires Drained(Next(t, f, ServeStep(u, v, late)), last, u, late)
    ensures Drained(f, last, u, late)
  {
    var node, node' := f.nodes[u], Next(t, f, ServeStep(u, v, late)).nodes[u];
    assert node'.lagging + (node'.pending * late.Keys) == node.lagging + (node.pending * late.Keys);
  }

  /** The steps that serve all pending links of a relay, in some order. */
  lemma {:induction false} Drain(t: Tree, f: Flow, u: PeerId, late: map<PeerId, nat>) returns (flows: seq<Flow>, steps: seq<Step>)
    requires u in f.nodes && f.nodes[u].pending <= f.wire.Keys
    requires forall v :: v in late ==> late[v] <= |f.nodes[u].chunk|
    ensures Chain(t, flows, steps) && flows[0] == f && Drained(f, flows[|steps|], u, late)
    decreases f.nodes[u].pending
  {
    var node := f.nodes[u];
    if node.pending == {} {
      flows, steps := [f], [];
      assert node.lagging + (node.pending * late.Keys) == node.lagging;
      assert f.nodes[u := node] == f.nodes;
    } else {
      var v :| v in node.pending;
      var e := ServeStep(u, v, late);
      var flows', steps' := Drain(t, Next(t, f, e), u, late);
      flows, steps := [f] + flows', [e] + steps';
      ChainFirst(t, f, e, flows', steps');
      assert flows[|steps|] == flows'[|steps'|];
      ServedThenDrained(t, f, u, v, late, flows[|steps|]);
    }
  }

  /** The links of `u` and what was written to them agree with the flow. */
  ghost predicate Shows(t: Tree, f: Flow, u: PeerId, links: map<PeerId, Link>, written: map<PeerId, Bytes>) {
    && u in f.nodes && t.Children(u) <= links.Keys && links.Keys == written.Keys && t.Children(u) <= f.wire.Keys
    && forall v :: v in t.Children(u) ==> f.wire[v] == written[v] && (links[v].status.Lagging? <==> v in f.nodes[u].lagging)
  }

  /** One call of `_forward_chunk` is a sequence of `Send` and `TimeOut` steps: what it does
      to the relay is what they do to the flow. */
  lemma CallIsSteps(t: Tree, f: Flow, u: PeerId, links: map<PeerId, Link>, written: map<PeerId, Bytes>,
                    links': map<PeerId, Link>, written': map<PeerId, Bytes>, late: map<PeerId, nat>, readLink: ParentFuture)
    returns (flows: seq<Flow>, steps: seq<Step>)
    requires Shows(t, f, u, links, written) && f.nodes[u].pending == Targets(links, readLink) <= t.Children(u)
    requires forall v :: v in late ==> late[v] <= |f.nodes[u].chunk|
    requires Forwarded(links, written, links', written', f.nodes[u].chunk, late, Targets(links, readLink))
    ensures Chain(t, flows, steps) && flows[0] == f
    ensures Shows(t, flows[|steps|], u, links', written') && flows[|steps|].nodes[u].pending == {}
    ensures flows[|steps|].nodes[u].received == f.nodes[u].received
  {
    flows, steps := Drain(t, f, u, late);
  }
}
