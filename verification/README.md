# Transfer protocols, verified

A Dafny model of the parts of the program that move messages, files and streams between
peers, with proofs about them. Two forms are used. What the program does by updating fields
or buffers is a class or a loop here too, proved against a specification function. What
several parties do together over a network or a channel is a state machine with one step
per handler, where each step uses those same specification functions, and the statements
are about every run.

**Palm Tree session** (one sender, many receivers).
`Protocol` builds the incomplete hypercube and prunes the peers that stay silent; `Bits`,
`Hypercube`, `Overlay` and `Prune` hold the graph theory. `RelayModel` is one relay as a
value with one function per message handler, `RelayObject` the same relay as the object
with its shared link tables. `PalmTreeNetwork` puts relays and a soup of messages together:
a message that was sent may be handled never, once or often and in any order, waits may
time out, links may lag, and reading tasks may be closed. `RelayLaws` says what each handler
does in terms of fields and messages alone. `PalmTreeForest` proves what every such run keeps,
`PalmTreeTimeouts` whom relays have asked in every such run and what is reached where nothing
is left to do. `PalmTreeSpanning` proves what runs without loss, repetition and time-outs
reach: every relay asks at least its first `fanout` neighbours, the centre one more, and
whoever can be reached by asking ends up in the tree. `PalmTreePolite` shows that some runs
reach no more than the first `fanout + 1` neighbours of everyone, `PalmTreeDegree` and
`PalmTreeGap` what is left out beyond the degree bound, and `CubeBound` what both come to on
the cube. `StreamFlow` sends bytes down a finished tree, `OtmWriter` writes them into files,
and `Session` joins overlay, formation, data flow and files. A session spans all its peers
in every regular run exactly when there are at most 2 ** (fanout + 1) of them, which is 64
with the fanout 5 of the program (src/avails/constants.py:77).

**Gossip.** `Reservoir` counts the outcomes of the sampling loop, `Gossip` has the message
list, the handler and a whole network with any number of messages.

**Files and directories.** `Wire` and `Octets` are framing over a socket that stalls and
reads short. `FileTransfer` composes the sending and the receiving loops, `Resume` restarts
them over many connections, `Directory` is the lock-step of a directory transfer, `Naming`
the search for free names.

**Front end.** `FrontEnd` is the bounded message buffer.

The parent future of a relay is `Pending`, `Root`, `Parent(id)` or `GivenUp`. `wait_for` on
the bare future (src/transfers/otm/palm_tree.py:295) cancels it when the first time-out
fires, the loop around it then sees a future that is done and breaks; so a relay that waited
in vain has given up and goes on to forward, and the later rounds of that loop never send
anything. The model does the same.

The comment in `gossip_tree_reject` (src/transfers/otm/palm_tree.py:346-352) says that a
relay whose request was refused tries its further links until enough are active. In the
code every peer that was asked already counts as active, so the limit is reached by asking;
the model follows the code, and `PalmTreeDegree` and `PalmTreeGap` show what comes of it.

## Model

| member | source | states |
|---|---|---|
| PalmTreeForest.ParentsFormAForest | src/transfers/otm/palm_tree.py:197-303 | In every state of every run (any order, loss, duplication, time-outs) following parents never comes back to a relay already met, and from a relay whose future is done it ends at the centre or at a relay that gave up |
| PalmTreeForest.OnlineDialledLinkLeadsToChild | src/transfers/otm/palm_tree.py:374-401 | If a relay holds a stream it dialled itself, the relay at the other end has the dialler as its one parent, and no third relay holds a dialled stream to it |
| PalmTreeForest.ForwardsToChildrenOnly | src/transfers/otm/palm_tree.py:521-529 | In every state of every run and for any read link a relay forwards to its own children only, or to its parent as long as that is not yet the read link; when it reads from its parent, to its children only |
| PalmTreeForest.NoSecondTreeCheck | src/transfers/otm/palm_tree.py:305-340 | No run lets a relay send a tree check twice to the same peer, although the windows overlap and can shrink |
| PalmTreeForest.NoCheckToAcceptedPeer | src/transfers/otm/palm_tree.py:281-284 | No run lets a relay send a tree check to a peer whose tree check it has accepted |
| PalmTreeForest.ActiveStays | src/transfers/otm/palm_tree.py:305-340 | Without downgrades an entry of `active_links` stays for the rest of the run |
| PalmTreeForest.Climb | src/transfers/otm/palm_tree.py:263-303 | From any relay the parents lead up to one that holds no parent, and a relay that is done only has done relays above it |
| PalmTreeTimeouts.DoneHasAsked | src/transfers/otm/palm_tree.py:197-340 | In every state of every run, with time-outs, repetitions and any order: a relay that is done, waits for nobody and was not closed has each of its first `fanout` neighbours active, and has sent a check to each of them but those whose own check it accepted |
| PalmTreeTimeouts.ExpiryAsks | src/transfers/otm/palm_tree.py:288-340 | A wait that times out ends in asking: a relay without a parent gives up on one, and each of its first `fanout` neighbours that was not active becomes so and is sent a check |
| PalmTreeTimeouts.SettledFormationReaches | src/transfers/otm/palm_tree.py:197-514 | With time-outs, repetitions, any order and closed relays: once every message was handled and nobody waits, everyone reached from the started centre by asking through relays that are not closed is done, and its parents lead to the centre or to a relay that gave up |
| PalmTreeTimeouts.HandledHasEffect | src/transfers/otm/palm_tree.py:197-514 | In every such run each handled message has had its effect and keeps it: a check is answered and leaves its receiver done or in wait, an upgrade request is dialled for unless there is a stream, a dial leaves its receiver with a settled future, an OK a dialled stream; and no relay accepts more than `fanout` + 1 checks |
| PalmTreeTimeouts.RefusalChangesNothing | src/transfers/otm/palm_tree.py:342-371 | In no such run does a refusal make a relay ask further: where one arrives, as many links are active as the fanout allows |
| PalmTreeTimeouts.WaitsEnd | src/transfers/otm/palm_tree.py:288-303 | A wait begins with an accepted check and ends once, and one whose future was cancelled changes nothing else |
| PalmTreeTimeouts.StepKeepsTimedInv | src/transfers/otm/palm_tree.py:197-514 | Every event but the closing of a protected relay keeps what these statements need |
| PalmTreeNetwork.RunKeepsInv | src/transfers/otm/palm_tree.py:197-514 | The invariant of messages, books and links holds in every state of every run and no relay appears or disappears |
| PalmTreeNetwork.StepKeepsInv | src/transfers/otm/palm_tree.py:142-514 | Every handler, time-out, resumption and cancellation keeps the invariant |
| PalmTreeNetwork.ReactLegal | src/transfers/otm/palm_tree.py:161-514 | What a handler may do: the future is written once, books only grow, and each kind of message is only sent with its justification |
| PalmTreeNetwork.DialledIsChild | src/transfers/otm/palm_tree.py:384-401 | A socket that a relay dialled leads to a peer that it asked, did not accept itself, and that took it as its parent |
| PalmTreeNetwork.NeverDialsExpected | src/transfers/otm/palm_tree.py:446-467 | A relay never holds a dialled socket to a peer whose tree check it accepted |
| PalmTreeNetwork.ChildWasChecked | src/transfers/otm/palm_tree.py:197-230 | A parent has sent its child a tree check after its own future was done |
| PalmTreeSpanning.FormationReaches | src/transfers/otm/palm_tree.py:193-514 | On any symmetric overlay with nothing lost or timed out, every quiescent state has every relay that can be reached by asking (first `fanout` neighbours, at the centre one more) hanging under the centre by overlay edges, forward links equal to children, and, if asking reaches all, exactly n - 1 parent edges |
| PalmTreeSpanning.FormationSpans | src/transfers/otm/palm_tree.py:193-514 | With at most `fanout` neighbours for everyone (the centre may have one more), this is every relay that the overlay connects to the centre |
| PalmTreeSpanning.FormationTerminates | src/transfers/otm/palm_tree.py:197-514 | Every such run ends within a bound linear in the number of possible messages |
| PalmTreeSpanning.FormationCanFinish | src/transfers/otm/palm_tree.py:197-514 | Every such run, on any overlay and wherever it stands, can be continued to a quiescent state with all of that tree |
| PalmTreeSpanning.ForwardsToAllChildren | src/transfers/otm/palm_tree.py:521-529 | Where the formation stops, the forward links of a relay are its children, all of them and nobody else |
| PalmTreeSpanning.ReachedHasParent | src/transfers/otm/palm_tree.py:504-514 | At quiescence every relay that can be reached by asking is done and, unless it is the centre, has a parent |
| PalmTreeSpanning.ForwardCovers | src/transfers/otm/palm_tree.py:314-340 | The first window of a relay covers its first `fanout` neighbours even with one link online already, because the slice ends one behind the window; the centre covers one more |
| PalmTreeSpanning.PendingAnswers | src/transfers/otm/palm_tree.py:232-261 | A relay without a parent accepts the check of a neighbour, or has accepted more than `fanout` before |
| PalmTreeSpanning.SiteReject | src/transfers/otm/palm_tree.py:359-371 | In a regular run a refusal changes nothing: as many peers were asked before as the fanout allows |
| PalmTreeSpanning.UpgradeDials | src/transfers/otm/palm_tree.py:446-467 | The relay that sent a tree check dials when it is asked to |
| PalmTreeDegree.CrowdedCentreLeavesOut | src/transfers/otm/palm_tree.py:314-371 | With more than fanout + 1 neighbours the centre never asks the ones behind in any regular run, and one that knows only the centre is never done |
| PalmTreeDegree.LeafUnasked | src/transfers/otm/palm_tree.py:504-514 | A relay that knows only one peer and is not asked by it never gets a parent |
| PalmTreeDegree.CentreIgnores | src/transfers/otm/palm_tree.py:359-363 | Once the centre has asked fanout + 1 peers no message makes it ask more |
| PalmTreeGap.OneNeighbourTooMany | src/transfers/otm/palm_tree.py:263-340 | A concrete overlay where one relay has fanout + 1 neighbours, and a regular run to the end that leaves one of them out although it is connected: `fanout` is the bound for a relay other than the centre |
| PalmTreeGap.ThirdPlays | src/transfers/otm/palm_tree.py:314-329 | How that relay gets there: with the link of its parent online its first window ends one short, and with two children online the next one has shrunk over the last neighbour |
| PalmTreePolite.PoliteRunStaysInside | src/transfers/otm/palm_tree.py:305-371 | On every overlay there is a regular run to the end in which no relay is done outside a set that is closed under the first fanout + 1 neighbours |
| PalmTreePolite.StepKeepsPolite | src/transfers/otm/palm_tree.py:197-514 | When a waiting relay is asked only once and goes on at once, each relay has either done nothing but accept one check or asked exactly its first fanout + 1 neighbours |
| PalmTreePolite.SomePoliteStep | src/transfers/otm/palm_tree.py:197-514 | A regular run that is not over can always go on in this way |
| CubeBound.AskedReachesAll | src/transfers/otm/palm_tree.py:641-656 | With at most 2 ** (fanout + 1) peers every peer of the cube is reached by asking along low dimensions |
| CubeBound.InnerIsClosed | src/transfers/otm/palm_tree.py:650-656 | With more peers the first 2 ** (fanout + 1) of them are closed under the first fanout + 1 neighbours |
| CubeBound.LastBehindWindow | src/transfers/otm/palm_tree.py:650-656 | With just one peer more the last one is the last neighbour of the centre, behind its window, and knows nobody else |
| Session.SessionSpansIff | src/transfers/otm/palm_tree.py:641-656 | Every regular formation over the cube ends with all peers in the tree if and only if there are at most 2 ** (fanout + 1) of them |
| Session.LargeSessionCanFail | src/transfers/otm/sender.py:30-40 | With more peers some regular formation leaves out the peer of index 2 ** (fanout + 1) |
| Session.LastPeerIsLeftOut | src/transfers/otm/sender.py:30-40 | With 2 ** (fanout + 1) + 1 peers, 65 with the default fanout, every regular run leaves out the last one in every state |
| Session.SessionDelivers | src/transfers/otm/sender.py:42-72 | From the peer list to the bytes: after any regular formation over at most 2 ** (fanout + 1) peers, in every run of the data phase, what any peer has received is a prefix of all data submitted to the initiator so far |
| Session.SessionDeliversAll | src/transfers/otm/sender.py:42-72 | When no send has timed out and nothing is on its way any more, every peer has received exactly the data submitted |
| Session.SessionCanDeliver | src/transfers/otm/relay.py:63-103 | A run of the data phase without time-outs can always go on to a state where every peer has all the data submitted so far |
| Session.PeerFiles | src/transfers/otm/relay.py:75-103 | From the peer list to the files: such a peer that has read in pieces of the session size ends with the submitted data cut by file size |
| Session.ReadsAreReceived | src/transfers/otm/relay.py:84-98 | The pieces that a peer reads, one after the other, are what it has received |
| Session.SessionSpansAllPeers | src/transfers/otm/sender.py:50-58 | With all peers answering, the built cube over at most 2 ** (fanout + 1) peers ends in one tree of all n peers with n - 1 edges |
| Session.SessionSpansSurvivors | src/transfers/otm/palm_tree.py:673-681 | With silent peers pruned, for peer lists of any length, the tree holds every survivor that is reached by asking among survivors; if no survivor has more surviving neighbours than it asks, every one that survivors connect to the centre |
| Session.FormationIsATree | src/transfers/otm/palm_tree.py:521-529 | The parent futures of a finished formation are a tree over all peers, each with a chain of parents to the centre, whose child sets are the forward links |
| Session.PrunedCubeIsReady | src/transfers/otm/palm_tree.py:709-745 | Address lists out of the pruned cube make a session that can start, symmetric and without repetition, with at most fanout neighbours each when there are at most 2 ** fanout peers |
| RelayModel.ConfigureFresh | src/transfers/otm/palm_tree.py:173-195 | A relay configured from a list without repetition of any length has just these neighbours, in this order, and its fanout cut to their number |
| RelayModel.InsertKeysShape | src/transfers/otm/palm_tree.py:176-191 | The link table filled from a list has each peer once and no others |
| RelayModel.PySliceLaws | src/transfers/otm/palm_tree.py:323 | Slices are read as Python reads them: bounds inside the list as they are, negative ones from the end, the rest cut off, and nothing when the bounds cross |
| RelayLaws.WindowLaw | src/transfers/otm/palm_tree.py:305-340 | In terms of fields and messages alone: of the keys from the old window index to the new one, that one included, those neither active nor the sender get a check and become active; the index moves by the fanout, less one for each online outgoing link; nothing else changes |
| RelayLaws.StartLaw | src/transfers/otm/sender.py:55-58 | The sender sets its future to None and asks its first window |
| RelayLaws.ResumeLaw | src/transfers/otm/palm_tree.py:212-303 | With a parent, the link of the accepted sender turns incoming, the window is asked and the check is done |
| RelayLaws.ExpireLaw | src/transfers/otm/palm_tree.py:212-303 | With a time-out, a pending future is given up, the window is asked all the same and the check is done |
| RelayLaws.RejectLaw | src/transfers/otm/palm_tree.py:359-371 | A refusal makes a relay ask its next window if and only if the index is not past the last key and fewer links than the fanout are active |
| RelayLaws.CheckLaw | src/transfers/otm/palm_tree.py:232-284 | A check is accepted exactly by a relay that knows the sender, has a pending future, has not finished its own check and has at most `fanout` active links; otherwise it is refused and nothing changes |
| RelayLaws.UpgradeLaw | src/transfers/otm/palm_tree.py:446-467 | A request to connect is answered by dialling if and only if the link is active and not online |
| RelayLaws.DialLaw | src/transfers/otm/palm_tree.py:470-514 | An incoming stream replaces the one an active link holds; where there is none it makes an expected peer the parent of a pending relay and is confirmed; otherwise nothing happens |
| RelayLaws.LinkOkLaw | src/transfers/otm/palm_tree.py:393-401 | The confirmed link is online, outgoing and holds the dialled stream |
| RelayLaws.LagLaw | src/transfers/otm/relay.py:63-73 | A timed-out send takes just that peer out of the forward links |
| RelayLaws.ForwardLinksLaw | src/transfers/otm/palm_tree.py:521-529 | A relay forwards to a peer if and only if its link is active, online, outgoing and not the read link |
| RelayLaws.UpdateStateLaw | src/transfers/otm/palm_tree.py:161-195 | The first neighbour list fixes keys, fresh links and the fanout; later ones change nothing |
| RelayObject.PalmTreeRelay.constructor | src/transfers/otm/palm_tree.py:75-114 | A new relay object is valid and stands for the empty relay |
| RelayObject.PalmTreeRelay.GossipUpdateState | src/transfers/otm/palm_tree.py:161-195 | The object refines the neighbour update: new links for all addresses, fanout cut to their number, nothing active yet, and nothing after the first time |
| RelayObject.PalmTreeRelay.ForwardTreeCheckPacket | src/transfers/otm/palm_tree.py:305-340 | The object refines the sliding window, which `RelayLaws.WindowLaw` describes; its active table keeps sharing the link objects of its full table |
| RelayObject.PalmTreeRelay.SendChecks | src/transfers/otm/palm_tree.py:331-340 | Every sampled peer gets one tree check and its own link object in `active_links`, in whatever order the set is iterated |
| RelayObject.PalmTreeRelay.GossipTreeCheck | src/transfers/otm/palm_tree.py:197-300 | The object refines acceptance and refusal of a tree check up to the wait |
| RelayObject.PalmTreeRelay.FinishTreeCheck | src/transfers/otm/palm_tree.py:212-303 | The object refines both ways out of the wait: with a parent the link turns incoming, on a time-out a pending future is given up; either way it asks its window, said in terms of keys, active links and messages, and its tree check is done |
| RelayObject.PalmTreeRelay.GossipTreeReject | src/transfers/otm/palm_tree.py:342-371 | The object refines the reaction to a refusal |
| RelayObject.PalmTreeRelay.GossipUpgradeConnection | src/transfers/otm/palm_tree.py:446-467 | The object refines the reaction to an upgrade request: a stream is dialled for an active peer that is not online, and for no other |
| RelayObject.PalmTreeRelay.LinkConfirmed | src/transfers/otm/palm_tree.py:393-401 | The confirmed link is online, outgoing and dialled, in both tables |
| RelayObject.PalmTreeRelay.GossipAddStreamLink | src/transfers/otm/palm_tree.py:470-514 | The object refines all branches for an incoming stream, and sets the future only for an expected peer while it is pending |
| RelayObject.PalmTreeRelay.ForwardTargets | src/transfers/otm/palm_tree.py:521-529 | The forward links read off the object are those of its value |
| RelayObject.TreeLink.SetConnection | src/transfers/otm/tree.py:48-56 | Setting a connection makes the link online and keeps its direction |
| Protocol.PalmTreeProtocol.constructor | src/transfers/otm/palm_tree.py:602-656 | The new protocol object holds exactly the incomplete hypercube over the centre and the others |
| Protocol.PalmTreeProtocol.CreateHypercube | src/transfers/otm/palm_tree.py:641-656 | The nested loops give every peer the list of its neighbours in dimension order, and the default dictionary gets no other key |
| Protocol.PalmTreeProtocol.AddNeighbours | src/transfers/otm/palm_tree.py:650-656 | The inner loop fills one row and touches no other |
| Protocol.PalmTreeProtocol.InformPeers | src/transfers/otm/palm_tree.py:671-681 | Whatever the completion order: a peer stays in the table if and only if it did not fail to answer, two peers stay linked if and only if both stay, the confirmed are those who said yes, and the lists keep their order without repetition |
| Protocol.PalmTreeProtocol.Discard | src/transfers/otm/palm_tree.py:677-681 | One silent peer leaves all lists and the table; no `remove` misses its target |
| Protocol.PalmTreeProtocol.RemoveFromNeighbours | src/transfers/otm/palm_tree.py:679-680 | The loop takes the peer out of the lists of its neighbours one by one and always finds it |
| Protocol.NeighboursConfirmed | src/transfers/otm/palm_tree.py:717-724 | After pruning, the filter on confirmed peers removes no neighbour of a survivor |
| Hypercube.CubeIsIsometric | src/transfers/otm/palm_tree.py:641-656 | For every n and all i, k below n the distance in the built graph is the number of differing bits of i and k, and at most ceil(log2 n) |
| Hypercube.CubeIsGood | src/transfers/otm/palm_tree.py:641-656 | The built graph is symmetric, loop-free, without repetition, of degree at most ceil(log2 n) |
| Hypercube.CubeIsConnected | src/transfers/otm/palm_tree.py:641-656 | Every peer can be reached from the centre |
| Hypercube.Route | src/transfers/otm/palm_tree.py:650-656 | A walk of exactly the differing bits exists inside the incomplete cube |
| Hypercube.NoShortcut | src/transfers/otm/palm_tree.py:650-656 | No walk is shorter |
| Hypercube.HasNeighbour | src/transfers/otm/palm_tree.py:650-656 | In a session of two or more every peer gets a row |
| Bits.NextBitApproaches | src/transfers/otm/palm_tree.py:652 | Between two different indices below n there is a bit whose flip stays below n and comes one bit nearer |
| Bits.FlipMovesByOne | src/transfers/otm/palm_tree.py:652 | One flip changes the number of differing bits by one |
| Bits.FlipTwice | src/transfers/otm/palm_tree.py:652 | Flipping a bit twice gives the index back |
| Prune.InducedTwice | src/transfers/otm/palm_tree.py:673-681 | Pruning one set of peers after another is pruning both, so the order does not matter |
| Prune.InducedIsGood | src/transfers/otm/palm_tree.py:677-681 | Pruning keeps the graph good and no row grows |
| Prune.InducedLinks | src/transfers/otm/palm_tree.py:677-681 | Two peers are linked after pruning if and only if they were before and both stay |
| Prune.WithoutKeepsOrder | src/transfers/otm/palm_tree.py:679-680 | The entries that stay in a list keep their order |
| Prune.ThinnedStep | src/transfers/otm/palm_tree.py:679-680 | The next `remove` finds its target and leaves the table one row further |
| StreamFlow.ReceivedIsPrefixOfSent | src/transfers/otm/relay.py:63-103 | In every run on a tree, with any read sizes and any links turning lagging in the middle of a send, what a relay has received is a prefix of all data submitted to the root so far |
| StreamFlow.AllArrives | src/transfers/otm/relay.py:63-103 | At rest a relay with no timed-out send above it has received exactly the data submitted |
| StreamFlow.RootHasSubmitted | src/transfers/otm/relay.py:133-134 | What the root holds is the data of all submissions, one after the other, whatever else happens |
| StreamFlow.TimedOutLinkIsCut | src/transfers/otm/relay.py:63-73 | A send that times out after n bytes cuts the child off there for good: in all later states the link holds what the parent had before the chunk, and these n bytes |
| StreamFlow.LagsIffTimedOut | src/transfers/otm/relay.py:66-73 | A link lags if and only if a send over it has timed out |
| StreamFlow.CanComeToRest | src/transfers/otm/relay.py:63-103 | However a run stands, sends and reads alone bring it to rest |
| StreamFlow.StepKeepsInv | src/transfers/otm/relay.py:63-103 | Every read, send and time-out keeps each edge a prefix, complete when idle and online |
| StreamFlow.ForwardingRelay.ForwardChunk | src/transfers/otm/relay.py:63-73 | The chunk goes once to each active link that was online, outgoing and not the read link; a time-out makes that link lagging; all others stay as they were |
| StreamFlow.CallIsSteps | src/transfers/otm/relay.py:63-73 | One such call is a sequence of the network's send and time-out steps: links and bytes agree with the flow before and after |
| StreamFlow.TargetsAreForwardLinks | src/transfers/otm/palm_tree.py:521-529 | The links it serves are the forward links of the relay |
| OtmWriter.WriterIsRightIff | src/transfers/otm/receiver.py:55-68 | A spill started at the bisected index puts the chunk where the plain view puts it if and only if the chunk is empty or the start is not past the file where the stream stands |
| OtmWriter.SpillIsSplit | src/transfers/otm/receiver.py:55-68 | Started at or before that file, the recursive spill equals cutting the longer stream by file sizes, with empty files and exact boundaries |
| OtmWriter.SpillByRoom | src/transfers/otm/receiver.py:55-68 | For files in any state and any start: each file is extended by the piece of the chunk that falls to it when the chunk is cut by the room left in the files from the start on |
| OtmWriter.AlignedStart | src/transfers/otm/receiver.py:119-120 | If all earlier chunks had the session size, the bisected start is right |
| OtmWriter.ShortReadsMisplace | src/transfers/otm/receiver.py:119-120 | For every chunk size of at least 2: three one-byte reads are written where they belong, and the fourth byte goes into the wrong file |
| OtmWriter.CompleteStream | src/transfers/otm/receiver.py:88-92 | A complete stream leaves each file its slice of the stream, with its announced size |
| OtmWriter.FilesReceiver.LoadFilesMetadata | src/transfers/otm/receiver.py:40-53 | Prefix sums and total are right, an empty list is an IndexError, a total beyond 32 bits an OverflowError |
| OtmWriter.FilesReceiver.WriteChunk | src/transfers/otm/receiver.py:55-68 | The recursion does what the spill on the contents does and keeps `seeked` at the length of each file |
| OtmWriter.FilesReceiver.ReceiveChunk | src/transfers/otm/receiver.py:70-76 | A chunk is spilled from the bisected file on, and an aligned one extends the plain view of the stream; a counter past the total is an IndexError that writes nothing |
| OtmWriter.FilesReceiver.ReceiveAll | src/transfers/otm/receiver.py:70-76 | All chunks of a transfer together leave every file as its slice of the stream |
| Reservoir.SamplingIsUniform | src/transfers/rumor.py:64-78 | Over all outcomes of the draws each of n candidates is in the sample in exactly a k/n share |
| Reservoir.SampleIsASubset | src/transfers/rumor.py:64-78 | Whatever the draws, the sample has min(k, n) different candidates |
| Reservoir.DrawByDraw | src/transfers/rumor.py:69-76 | The first candidates fill the reservoir in order, each later one takes just the slot that its draw names |
| Gossip.AtMostOneDatagramPerPair | src/transfers/rumor.py:124-161 | With any number of messages, and whatever is sampled, lost, duplicated or forgotten, no node sends a message twice to the same node; so there are at most n² datagrams about each message |
| Gossip.GossipTerminates | src/transfers/rumor.py:124-161 | With any number of messages, the events about one of them are at most 2n² + 2n, and two more for each of its duplicates that the network makes |
| Gossip.StepKeepsInv | src/transfers/rumor.py:45-78 | Every arrival, origination and removal keeps all datagrams on the books of their senders, or the message dropped there for good |
| Gossip.OtherMessagesUntouched | src/transfers/rumor.py:45-78 | An event about one message changes nothing that any node holds about another, nor what was sent or is under way about it |
| Gossip.ArrivalEffect | src/transfers/rumor.py:124-161 | What a datagram does where it arrives: entered if new, the sample booked with those served before, one datagram each for the ones that get through, and no other book touched; nothing at all if dropped or unlucky |
| Gossip.OriginationEffect | src/transfers/rumor.py:148-161 | A node that originates a message books the sample as its sent set and sends to it |
| Gossip.ForgetEffect | src/transfers/rumor.py:57-59 | A node that forgets a message drops it for good and sends nothing |
| Gossip.SimpleRumorMessageList.SamplePeers | src/transfers/rumor.py:64-78 | The loop is the reservoir function of the draws, returns distinct peers not served before, adds exactly these to the sent set and leaves every other message alone |
| Gossip.SimpleRumorMessageList.MessageArrived | src/transfers/rumor.py:124-161 | A dropped or unlucky message changes nothing; any other is entered if new, its sent set grows by the sample, which is new to it, and every other message keeps its sent set and its place in `dropped` |
| Gossip.SimpleRumorMessageList.PushMessage | src/transfers/rumor.py:45-49 | Entering a message gives it an empty sent set and leaves every other message as it was |
| Gossip.SimpleRumorMessageList.RemoveMessage | src/transfers/rumor.py:57-59 | A removed message leaves the list and is dropped for good; every other message stays as it was |
| Wire.FrameRoundTrip | src/avails/wire.py:38-40 | A sent frame is read back whole and the reader stops right behind it |
| Wire.Receive | src/avails/wire.py:66-90 | Under any segmentation and any stalls the two loops read exactly one frame or report a broken connection |
| Wire.ReadExactly | src/avails/wire.py:69-77 | A loop of short reads gets exactly n bytes, or fails when the stream has fewer |
| Wire.ReceiveAll | src/avails/wire.py:66-90 | Successive calls return all messages in order and consume exactly their frames |
| Wire.DatagramRoundTrip | src/avails/wire.py:43-51 | Datagrams load back as sent, also with bytes behind; a truncated one loads as a prefix |
| Wire.DatagramFormat | src/avails/wire.py:43-51 | A datagram of at most 64512 bytes goes out behind its length in network byte order, a longer one is a ValueError |
| Wire.CutFrameFails | src/avails/wire.py:66-90 | A frame cut anywhere is a connection error, a datagram without a whole length a struct error |
| Octets.UnpackPack | src/avails/wire.py:34-39 | A length that fits is read back as written |
| Octets.PackUnpack | src/avails/wire.py:56 | Every length field of n bytes is the packing of the number read from it |
| Octets.PackAt | src/avails/wire.py:34 | Network byte order: which digit to base 256 stands at which place |
| Octets.LengthPrefix | src/avails/wire.py:34 | The four bytes of a length, one by one |
| FileTransfer.TransferRoundTrip | src/transfers/files/sender.py:37-61 | What the sender writes for any list of non-empty files is parsed back to the same items and contents in order, up to the end flag and no byte further |
| FileTransfer.Transfer | src/transfers/files/receiver.py:34-56 | Both ends over a socket with any short reads and stalls: same files, all of them, whole stream consumed |
| FileTransfer.Sender.SendFiles | src/transfers/files/sender.py:42-61 | The sending loop writes the encoding of the files from the current index on |
| FileTransfer.Sender.SendActualFile | src/transfers/files/sender.py:149-191 | The chunk loop writes the file from its start offset to its end and leaves `seeked` at its size |
| FileTransfer.Receiver.RecvFiles | src/transfers/files/receiver.py:48-76 | The receiving loop computes the parse of the stream for every schedule of reads |
| FileTransfer.Receiver.RecvFileOnce | src/transfers/files/receiver.py:78-130 | One item: cut header, short contents and whole file, each with what is stored and what is left on the stream |
| FileTransfer.RecvFileContents | src/transfers/files/receiver.py:219-228 | Short reads collect the announced bytes, or all there are when the peer is gone |
| FileTransfer.CutLooksComplete | src/transfers/files/receiver.py:63-76 | The end of the stream is read like the end flag, so a transfer that is cut off anywhere is reported complete if and only if the cut falls between two files, before the first or behind the last |
| FileTransfer.CutBetweenFilesDelivers | src/transfers/files/receiver.py:63-76 | Such a transfer delivers just the files before the cut, each with all its contents |
| FileTransfer.CutInsideFileDelivers | src/transfers/files/receiver.py:78-130 | A cut anywhere inside the record of a file delivers the files before it, and of this one the bytes before the cut once its header is complete; the transfer is incomplete |
| FileTransfer.AnnouncedItem | src/transfers/files/receiver.py:94-130 | Whatever item is announced, by whomever: of the contents all that is there is kept, up to the announced size less the offset, and what follows is left alone |
| FileTransfer.StreamFormat | src/transfers/files/sender.py:83-89 | Per file a byte 1, the length of the item in network byte order, the item and the contents from the offset on; a byte 0 at the end |
| FileTransfer.AnyOtherCode | src/transfers/files/receiver.py:58-76 | A zero byte ends the transfer, every other code byte announces a file |
| FileTransfer.CalculateChunkSize | src/transfers/files/_fileobject.py:190-208 | Over exact rationals: 64 KiB up to 1 KiB, 2 MiB from 10 GiB on, and between them the straight line cut down to a multiple of 1 KiB |
| Resume.ResumeSessions | src/transfers/files/sender.py:99-112 | Over any number of connections cut at any byte each either completes the file, or counts all that its cut let through, or is interrupted or refused; the file is the source prefix of length `seeked`; with local interruptions its length is the larger of `seeked` and the end of the furthest interrupted write; one completed loop gives exactly the source; a connection is refused if and only if the one before left nothing counted, for instance when the first was cut at byte 0, and then all later ones are |
| Resume.ResumeOnce | src/transfers/files/receiver.py:139-155 | One resumption: the loop completes if and only if enough arrives and nothing interrupts it; `seeked` grows by exactly what arrived, the file stays exactly that long unless interrupted, a completed loop gives the source, and the open fails exactly when the file exists with `seeked` at 0 |
| Resume.Download.RecvFileContents | src/transfers/files/receiver.py:195-251 | Uninterrupted, the file ends exactly as long as `seeked` says; interrupted anywhere, also inside a write or between a write and the update of `seeked`, it ends at the furthest such write; it is incomplete only if the stream was too short |
| Resume.Download.Store | src/transfers/files/receiver.py:224-227 | A write and its count, or the part of it that an interruption leaves on disk uncounted |
| Resume.Download.Open | src/transfers/files/receiver.py:231-250 | Opening fails exactly on an existing file with `seeked` at 0, and never truncates |
| Resume.WriteKeepsPrefix | src/transfers/files/receiver.py:247-250 | Writing the right bytes over a prefix of the source, at or before its end, leaves a prefix of the source |
| Directory.DirectoryTransfer | src/transfers/files/directory.py:79-100 | On channels of any capacity from one byte up and in any interleaving the transfer never gets stuck, ends within a known bound, has at most one acknowledgement under way, and decodes what was sent, in order, all of it at the end |
| Directory.AckFollowsFile | src/transfers/files/directory.py:91-97 | An acknowledgement is sent and read only after the file, empty or not, is complete at the receiver and before anything behind it is sent; the byte is the one the sender asserts |
| Directory.NoDeadlock | src/transfers/files/directory.py:159-180 | In every reachable state some end can move, unless both have finished |
| Directory.ItemByte | src/transfers/files/directory.py:182-202 | Byte by byte an item is decoded to itself and not before its last byte |
| Directory.ItemFormat | src/transfers/files/directory.py:102-125 | Code 1 for a file and 2 for a folder, four bytes of length and eight of file size in network byte order, then parts and contents |
| Directory.OtherCodes | src/transfers/files/directory.py:79-180 | A zero byte ends the list, an acknowledgement is a byte 1, and any other code byte is passed over |
| Directory.StepKeepsInv | src/transfers/files/directory.py:79-202 | Every step of either end keeps the bytes on their way, the place of the receiver and the lock-step |
| Directory.StepDoesWork | src/transfers/files/directory.py:79-202 | Every step of either end spends from a fixed amount of work |
| Naming.ValidateName | src/transfers/files/_fileobject.py:176-187 | The search ends within one probe per existing entry and one more, with the name itself or the first free one of the form "stem (n)suffix" |
| Naming.FirstFreeIs | src/transfers/files/_fileobject.py:180-184 | That name is the one candidate that is free with all candidates before it taken |
| Naming.RenameDirectoryWithIncrement | src/transfers/files/directory.py:38-51 | The same for directories, with names of the form "base(n)" |
| Naming.FailuresAreBounded | src/transfers/files/_fileobject.py:180-184 | A search fails at most once for each existing entry |
| Naming.CandidatesDiffer | src/transfers/files/_fileobject.py:183 | No name is tried twice |
| Naming.DecimalInjective | src/transfers/files/_fileobject.py:183 | Different counters are written differently |
| Naming.DecimalNotation | src/transfers/files/_fileobject.py:183 | Counters are written in decimal digits without leading zero and read back as the number |
| Naming.SuffixIs | src/transfers/files/_fileobject.py:176-178 | The extension is what follows the last dot, with the dot, if there is something on either side of it; otherwise the stem is the whole name |
| Naming.NumberedNameKeepsSuffix | src/transfers/files/_fileobject.py:176-183 | A numbered name keeps its extension if and only if the name does not end in a dot |
| Naming.Downloads.ReceiveFresh | src/transfers/files/receiver.py:78-107 | A fresh file goes to the first name that is free in the root and changes no existing file, also not one that appears between search and open; it is a FileExistsError exactly when that path is taken; an empty file is touched |
| Naming.Downloads.ReceiveAll | src/transfers/files/receiver.py:84-91 | Any sequence of fresh files leaves all that was there, and each file that is not empty gets a path of its own with its contents |
| FrontEnd.EachMessageIsInOnePlace | src/webpage_handlers/pagehandle.py:42-71 | Over every interleaving of submissions, failures and reconnections each submitted message is once in exactly one of delivered, in flight, buffered and discarded, and the buffer keeps its limit |
| FrontEnd.DiscardsOnlyWhenFull | src/webpage_handlers/pagehandle.py:69-71 | A step discards at most one message, and only when the buffer is full |
| FrontEnd.AppendConserves | src/webpage_handlers/pagehandle.py:44-46 | Appending to the bounded deque loses one message exactly when it is full |
| FrontEnd.PutBackConserves | src/webpage_handlers/pagehandle.py:63-67 | Making room and putting a message back loses one message exactly when the buffer is full |
| FrontEnd.AppendDropsOldest | src/webpage_handlers/pagehandle.py:44-46 | A full buffer loses its oldest message to a new one, which is always kept unless the limit is 0 |
| FrontEnd.AppendLeftDropsRight | src/webpage_handlers/pagehandle.py:66 | Appending on the left of a full buffer loses the newest |
| FrontEnd.PutBackDropsOldest | src/webpage_handlers/pagehandle.py:50-71 | Putting back a message that failed makes room at the old end first: on the right it loses the oldest of all, on the left the oldest that waits |
| FrontEnd.StepEffects | src/webpage_handlers/pagehandle.py:42-71 | What each step of an interleaving does to buffer, delivered and discarded messages, said over the sequences alone |
| FrontEnd.FrontEndWebSocketDispatcher.Submit | src/webpage_handlers/pagehandle.py:42-56 | One call: the whole new state for any number of sends that succeed; without one, of the waiting messages and the new one the newest up to the limit are buffered and the oldest discarded; a new message overtakes the waiting ones, and these keep their order |
| FrontEnd.FrontEndWebSocketDispatcher.SendBuffer | src/webpage_handlers/pagehandle.py:58-67 | The oldest messages go out in order; on a failure the rest stay as they were and nothing is discarded |
| FrontEnd.FrontEndWebSocketDispatcher.HandleFailure | src/webpage_handlers/pagehandle.py:50-54 | After a failed send the message is back in the buffer, on its side, and a full buffer loses its oldest message; with limit 0 it is gone with an IndexError |

## Left out

Palm Tree

- The incoming-stream handler is one step. In the code it awaits the OK message before it sets the parent future, and two streams that arrive in that gap could both be confirmed.
- `passive_links`, the status of passive links, `gossip_downgrade_connection`, `gossip_tree_gather` and `gather_tree`: nothing that is modelled reads or sends these.
- Which socket a link holds after it is activated a second time; only who dialled it is kept.
- The retry rounds of the upgrade loop: after the first time-out the future is cancelled and the loop ends, so there is nothing to model behind it.
- Peer identity has two spellings in the code (`peer.id` and `peer_id`); the model has one.
- `math.log2` is the exact ceiling of the logarithm, and a peer list has no repetition.
- The forward limiter, the read queue and broken read links (`fill_partial_chunks`, `_parent_link_broken`, `_handle_read_link_broken`).
- Session.SessionSpansSurvivors: gives what every run reaches on a pruned overlay, and the condition for that to be all of it; whether some run reaches less where the condition fails depends on the overlay.
- PalmTreeTimeouts.SettledFormationReaches: speaks about states where every message was handled; a run that loses messages for good need not come to one.
- Session.PeerFiles: the data phase starts when the file metadata has been read, and pieces shorter than the session size are excluded there; `OtmWriter.WriterIsRightIff` says what they do.
- The end of the reader's loop: it stops when `chunk_counter * len(chunk)` reaches the total (src/transfers/otm/relay.py:99), which no chunk of a transfer in session-size chunks does; the model stops with the stream.
- The tuple that the reader passes to the writer, the synchronous `with` on the writer's file context and the dedented send in the sender's file loop: the writer is modelled as its own comments describe it.

Gossip

- Clocks and probabilities: age, luck and the field check are one guard that may go either way; removal of old entries may happen at any time.
- Gossip.AtMostOneDatagramPerPair: counts sends, as a peer that is sampled but no longer known ends the sending loop early in the code, and stays on the books.

Files

- The msgpack coding is an abstract pair with load(dump(x)) == x; text formats and JSON are left out.
- FileTransfer.TransferRoundTrip: only non-empty files, as an empty file cannot be mapped into memory by the sender.
- FileTransfer.CalculateChunkSize: exact rationals instead of floating point.
- `Receiver.continue_transfer` as a whole: it does not await its check for more files, and the resumed file is renamed first; resumption is modelled at the level of the content loops.
- Names inside sub-directories are searched for in the download root, as in the code; parent directories are taken to exist, and existing directories on the receiving side (`mkdir` fails) are left out.
- Directory.DirectoryTransfer: both ends are steps on values, because each waits for the other within its loop; fields updated in place are not captured there.
- Items of a directory that are neither file nor directory are skipped by the sender and are not in the model's list; cancellation is left out.
- Pause and resume of a running transfer, status updates and progress values.

Elsewhere

- Event loop, thread pools, memory mapping and real sockets: handlers are steps, and reads return any number of bytes up to what was asked.
- Kademlia, discovery, boot-up, profiles, dialogs, the process manager and the web page.
