# Verified models of the Stargate node

Four parts of the node whose correctness only shows over whole runs, modelled in Dafny and proved.

**Peer connections.** The peer set manager (`PeerTable`, `PeersetModel`, `PeersetManager`) decides whom to connect to;
the network behaviour (`PeerBehaviour`, `CustomProto`) carries that out, with one state machine per peer; a handler per
connection (`HandlerModel`, `ConnectionHandler`) opens and closes substreams; a substream queues packets
(`SubstreamQueue`).  Two kinds of runs are kept apart.

- In `PeersetAgreement` and `CustomProto` the behaviour polls the manager until it has nothing left to say before the
  next callback comes.  Then behaviour and manager agree about every peer.
- In `Connections`, `ConnectionRuns` and `ConnectionSafety` nothing is drained: the manager's messages, the commands to
  the handlers and their reports back are first-in first-out queues, and any callback may come at any time.  Then no
  state is ever poisoned, Open and Closed alternate, commands match states, and bans are respected; except after one
  kind of reconnect, which `ConnectionLimits` treats, together with the exact condition.  `ConnectionTraffic` follows what
  passes through: packets both ways, dials, and how long a peer is banned.

Whom the manager lets in and puts out is in `PeersetPolicy`, and how slots and priority groups go together in `PeersetRuns`
and `PeersetLimits`.

**Ant routing.** Queries flood the channel graph with the path they took (`AntFlood`); where two meet, the bag of their
hops is rebuilt into a route (`AntRoute`).  The rebuilding never dead-ends because of a parity argument on the number of
hops at each node.  A flood without matches reaches every node along every way, so a search succeeds where it can.

**Channel storage.** Many channels share one ordered key space (`KeyRange`, `ChannelDb`, `ChannelIterator`); a channel's
ledger is a cache over batches written atomically (`ChannelLedger`, `ChannelStores`), and comes back from a restart as it
was (`ChannelRestart`, `LedgerRows`); what it holds is the history of what was applied (`LedgerHistory`).

**Relays and streams.** A payment is relayed under one hash lock and its preimage comes back (`MultiHop`); numbered
items are fetched in blocks and yielded one by one (`DataStream`).

How to read the project: classes with mutable fields stand for the code that updates in place, and each of their methods
is proved to do what a function or predicate on plain values says; the theorems over runs are about those values.  Time
is a natural number in milliseconds.  Iteration over hash maps is arbitrary choice.  What the network, the disk, the
clock, random numbers, the wallet and the virtual machine answer is a parameter.

Where the code does not do what its comments promise, the code is modelled as it is, an input that shows it is given,
and the exact condition is proved:

- A lost undecided connection closes its entry in the incoming list only if no older entry of the same peer is listed
  (`ConnectionLimits.LostEntryIsClosed`, `StaleEntryExample`).
- An Enable still queued for a lost connection is handed to the next connection of the same peer.  If that one is
  inbound and nobody asked for it, it can then speak before it is open, and its state can end up poisoned; if and only
  if there is such an Enable (`ConnectionLimits.LeftoverCondition`, `LeftoverArises`, `ClosedTooEarly`).
- Reserved-only mode keeps a connected peer that is taken out of its last priority group.  Every connected peer is in a
  group throughout a run if and only if no step of it does that (`PeersetRuns.ReservedOnlySafety`,
  `PeersetLimits.OverdraftHappens`).
- The range up to the next prefix covers the keys with a prefix only if the prefix is not all 255
  (`KeyRange.RangeCondition`); so seeking the last row of a channel fails for the last address of all, and when the next
  channel has a row with an empty key (`ChannelIterator.SeekLastCondition`, `MissedLastRows`).  A channel kept under the
  last address begins again from nothing after a restart (`ChannelRestart.RestartFromNothing`).
- A relay passes a payment on even if it refused it (`MultiHop.PaidWithoutAccepting`, `RefusedButPaid`).
- A pending transaction that is not persisted does not survive a restart, unless the same one is stored
  (`ChannelRestart.UnpersistedPending`).

One departure the comments do announce: more slots can be in use than there are, after connected peers were taken out of
their groups.  `PeersetLimits.OverdraftCondition` says exactly when, and `PeersetRuns.OverdraftOnlyByDemotion` by how many.

## Model

| member | source | states |
|---|---|---|
| `Reputation.TickMonotone` | network-libp2p/peerset/src/lib.rs:362-370 | a tick keeps the order of any two reputations, over all 32-bit values |
| `Reputation.TickBounds` | network-libp2p/peerset/src/lib.rs:362-370 | a tick never changes the sign and strictly shrinks a nonzero score, by exactly one below 50 and by a fiftieth above |
| `Reputation.SaturateIsNearest` | network-libp2p/peerset/src/lib.rs:362-370 | saturation gives the score nearest to the exact one |
| `Reputation.TicksMonotone` | network-libp2p/peerset/src/lib.rs:354-390 | any number of ticks keeps the order of two reputations |
| `Reputation.TicksAdd` | network-libp2p/peerset/src/lib.rs:343-390 | ticks applied in instalments equal the same number applied at once |
| `Reputation.BannedAtMostTenTicks` | network-libp2p/peerset/src/lib.rs:33-34 | after ten or more ticks without reports no peer is below the ban threshold |
| `Reputation.WorstCaseTenTicks` | network-libp2p/peerset/src/lib.rs:354-370 | the exact scores of the worst possible peer over its first ten ticks, so that ten is the best bound |
| `Reputation.EventuallyForgotten` | network-libp2p/peerset/src/lib.rs:354-370 | every reputation is back at zero after finitely many ticks, with a bound |
| `PeersetModel.TimeUpdatesCompose` | network-libp2p/peerset/src/lib.rs:343-390 | updating the time at t1 and then at t2 equals updating it at t2: no second is missed or counted twice |
| `PeersetModel.TickPerSecond` | network-libp2p/peerset/src/lib.rs:343-390 | every score is ticked as often as a new second of the manager's life has begun between two updates, in clock units; within one second nothing changes |
| `PeersetModel.TicksInSeconds` | network-libp2p/peerset/src/lib.rs:343-390 | n seconds make n ticks, whenever they begin |
| `PeersetModel.BanLifted` | network-libp2p/peerset/src/lib.rs:33-34 | ten seconds after an update no peer is below the ban threshold, without further reports |
| `PeersetModel.BanLasts` | network-libp2p/peerset/src/lib.rs:354-370 | the worst score is still below it after nine |
| `PeersetModel.ScoreForgotten` | network-libp2p/peerset/src/lib.rs:354-370 | every score is zero after as many seconds as it has points |
| `PeersetModel.DecayKeepsConnections` | network-libp2p/peerset/src/lib.rs:354-390 | decay leaves connections, groups and slots alone |
| `PeerTable.PeersState.constructor` | network-libp2p/peerset/src/peersstate.rs:105-115 | an empty table whose counters equal the count |
| `PeerTable.PeersState.Disconnect` | network-libp2p/peerset/src/peersstate.rs:237-255 | the peer is idle, nothing else changes, and the incremental counters still equal the number of slot occupants |
| `PeerTable.PeersState.TryOutgoing` | network-libp2p/peerset/src/peersstate.rs:257-283 | dials exactly when a slot is free or the peer has priority, subject to priority-only mode; counters equal the count |
| `PeerTable.PeersState.TryAcceptIncoming` | network-libp2p/peerset/src/peersstate.rs:287-308 | accepts exactly when a slot is free or the peer has priority, subject to priority-only mode; counters equal the count |
| `PeerTable.SlotsAfterConnection` | network-libp2p/peerset/src/peersstate.rs:257-308 | connecting an idle peer takes exactly one slot of that kind, and none if the peer has priority |
| `PeerTable.PeersState.SetPriorityGroup` | network-libp2p/peerset/src/peersstate.rs:311-345 | the group is replaced, unknown members become known, and after both counting loops the counters equal the count; no decrement underflows |
| `PeerTable.PeersState.CountFormerMembers` | network-libp2p/peerset/src/peersstate.rs:312-331 | the first loop leaves the counters as if the group did not exist |
| `PeerTable.PeersState.DiscountMembers` | network-libp2p/peerset/src/peersstate.rs:333-343 | the second loop inserts the new members and takes their slots off the counters |
| `PeerTable.PeersState.AddToPriorityGroup` | network-libp2p/peerset/src/peersstate.rs:348-356 | the group gains the peer; counters equal the count |
| `PeerTable.PeersState.RemoveFromPriorityGroup` | network-libp2p/peerset/src/peersstate.rs:359-367 | the group loses the peer; counters equal the count |
| `PeerTable.PeersState.SetPriorityOnly` | network-libp2p/peerset/src/peersstate.rs:374-381 | existing connections and counters are untouched |
| `PeerTable.PeersState.SetReputation` | network-libp2p/peerset/src/peersstate.rs:396-399 | only the score changes; counters equal the count |
| `PeerTable.PeersState.AddReputation` | network-libp2p/peerset/src/peersstate.rs:401-408 | the score is added to with saturation; counters equal the count |
| `PeerTable.PeersState.Discover` | network-libp2p/peerset/src/peersstate.rs:572-585 | an unknown peer becomes known and idle; counters equal the count |
| `PeerTable.PeersState.PriorityNotConnectedPeer` | network-libp2p/peerset/src/peersstate.rs:162-179 | finds an idle priority peer if and only if there is one |
| `PeerTable.PeersState.PriorityNotConnectedPeerFromGroup` | network-libp2p/peerset/src/peersstate.rs:182-200 | finds an idle member of the group if and only if there is one |
| `PeerTable.PeersState.HighestNotConnectedPeer` | network-libp2p/peerset/src/peersstate.rs:205-235 | finds an idle peer of highest reputation, whatever the iteration order, if there is an idle peer |
| `PeersetManager.Peerset.constructor` | network-libp2p/peerset/src/lib.rs:209-241 | a configured manager after its first slot allocation, with nobody connected before it |
| `PeersetManager.Peerset.UpdateTime` | network-libp2p/peerset/src/lib.rs:343-390 | every known peer is ticked once per whole second since creation that has newly elapsed |
| `PeersetManager.Peerset.AllocSlots` | network-libp2p/peerset/src/lib.rs:393-436 | terminates; every eligible priority peer ends up connected; otherwise the out slots are full or every idle peer is below the ban threshold; a peer dialled by the second loop is at least as reputable as every peer left out; each dialled peer is announced once |
| `PeersetManager.Peerset.AllocPriority` | network-libp2p/peerset/src/lib.rs:396-411 | the first loop dials eligible priority peers only, until none is idle |
| `PeersetManager.Peerset.AllocOrdinary` | network-libp2p/peerset/src/lib.rs:413-435 | the second loop dials the best idle peers until the slots are full or the rest is banned |
| `PeersetManager.Peerset.Incoming` | network-libp2p/peerset/src/lib.rs:448-468 | one Accept or Reject for the index, or nothing if the peer already counts as connected |
| `PeersetManager.Peerset.Dropped` | network-libp2p/peerset/src/lib.rs:474-492 | the peer is disconnected and loses reputation, then slots are allocated again |
| `PeersetManager.Peerset.Discovered` | network-libp2p/peerset/src/lib.rs:498-511 | unknown peers become known, and slots are allocated if there were any |
| `PeersetManager.Peerset.OnSetReservedOnly` | network-libp2p/peerset/src/lib.rs:272-300 | priority-only follows reserved-only; switching on expels exactly the connected peers outside the reserved group, switching off allocates slots |
| `PeersetManager.Peerset.Expel` | network-libp2p/peerset/src/lib.rs:277-297 | every connected peer outside the reserved group is disconnected and announced once |
| `PeersetManager.Peerset.OnRemoveReservedPeer` | network-libp2p/peerset/src/lib.rs:253-270 | the peer leaves the reserved group and is dropped if reserved-only mode is on |
| `PeersetManager.Peerset.OnReportPeer` | network-libp2p/peerset/src/lib.rs:317-339 | the score changes, and a connected peer that falls below the threshold is dropped |
| `PeersetManager.Peerset.Handle` | network-libp2p/peerset/src/lib.rs:570-584 | each handle action is one step of the model |
| `PeersetManager.Peerset.PollNext` | network-libp2p/peerset/src/lib.rs:558-586 | actions are taken from the handle in order, only while the queue is empty; the oldest message is returned, or none when nothing is left; terminates |
| `PeersetManager.Peerset.ReportPeer` | network-libp2p/peerset/src/lib.rs:514-521 | a report is queued behind the actions already sent |
| `PeersetMessages.AllocationExplained` | network-libp2p/peerset/src/lib.rs:393-436 | carrying out the messages queued by slot allocation turns the connected set before it into the connected set after it, with no message out of place |
| `PeersetMessages.ActionExplained` | network-libp2p/peerset/src/lib.rs:570-584 | every handle action announces exactly the connections it changes |
| `PeersetMessages.DroppedExplained` | network-libp2p/peerset/src/lib.rs:474-492 | a dropped connection is forgotten, and replaced only by announced ones |
| `PeersetMessages.IncomingExplained` | network-libp2p/peerset/src/lib.rs:448-468 | an incoming connection of an idle peer is answered exactly once, and Accept means connected |
| `PeersetRuns.OverdraftOnlyByDemotion` | network-libp2p/peerset/src/peersstate.rs:237-345 | in every run, messages being taken off the queue at any time: the groups hold known peers, and a slot counter exceeds its maximum by at most the number of connected priority peers demoted so far |
| `PeersetLimits.OverdraftHappens` | network-libp2p/peerset/src/peersstate.rs:311-345 | a run in which one demotion does overdraw a slot, and in reserved-only mode leaves a connected peer in no group |
| `PeersetLimits.RegroupOverdraft` | network-libp2p/peerset/src/peersstate.rs:311-367 | after any step that replaces a priority group, and its slot allocation, the in (out) slots are overdrawn if and only if the occupants before, less those promoted, plus those demoted, exceed the limit |
| `PeersetLimits.StepOverdraft` | network-libp2p/peerset/src/lib.rs:393-511 | from a state within its slots, a step of any kind overdraws one if and only if it replaces a group and demotes too many |
| `PeersetLimits.OverdraftCondition` | network-libp2p/peerset/src/peersstate.rs:257-308 | over every run, both kinds of slots stay within their limits if and only if no step of the run is such a demotion |
| `PeersetRuns.StepBounded` | network-libp2p/peerset/src/lib.rs:393-511 | in one step, whoever occupies a slot above the limit occupied one before or was demoted by this step |
| `PeersetRuns.ReservedStep` | network-libp2p/peerset/src/lib.rs:243-315 | a step of any kind from a safe state is safe if and only if it does not, in reserved-only mode, take a connected peer out of its last group; safe or not, every Connect it queues in that mode is for a reserved peer |
| `PeersetRuns.ReservedOnlySafety` | network-libp2p/peerset/src/lib.rs:243-315 | over every run: while reserved-only mode is on every Connect newly queued is for a reserved peer; every connected peer is in a priority group throughout if and only if no step of the run takes one out of its last group; and that is the case at a point if and only if no slot is in use there; priority-only equals reserved-only |
| `PeersetPolicy.BannedStayOut` | network-libp2p/peerset/src/lib.rs:393-468 | over every run, nobody connected by its own doing is below the ban threshold, and every Connect is for a peer that is not, or has priority |
| `PeersetPolicy.IncomingCondition` | network-libp2p/peerset/src/lib.rs:448-468 | an incoming peer is not answered exactly if it counts as connected, and accepted exactly if it is not banned and has priority or finds a free slot outside reserved-only mode |
| `PeersetPolicy.ReportOutcome` | network-libp2p/peerset/src/lib.rs:317-339 | a report changes that score only, with saturation, and drops the peer exactly if it is connected and now banned |
| `PeersetPolicy.DropOutcome` | network-libp2p/peerset/src/lib.rs:474-492 | a lost connection costs that peer ten points and nobody else anything |
| `PeersetPolicy.ScoresKept` | network-libp2p/peerset/src/peersstate.rs:311-345 | new peers start at zero, and regrouping, discovery and connecting leave every score alone |
| `PeersetPolicy.WhoIsPutOut` | network-libp2p/peerset/src/lib.rs:243-339 | exactly which connections a step takes away: the lost one, the one that fell below the threshold, and those reserved-only mode has no place for |
| `PeersetPolicy.StepFills` | network-libp2p/peerset/src/lib.rs:393-511 | after a loss, a discovery, a regrouping or the end of reserved-only mode nobody who is to be connected is left idle |
| `PeersetPolicy.FoundAreKnown` | network-libp2p/peerset/src/lib.rs:498-511 | exactly those found become known |
| `PeersetPolicy.GuardsKeepLimits` | network-libp2p/peerset/src/peersstate.rs:257-308 | the guards keep limits and priority-only mode, and let through everybody these allow |
| `PeersetAgreement.ConnectedAccounted` | network-libp2p/src/custom_proto/behaviour.rs:701-781 | what a connect does to the wanted peers matches the calls it makes on the manager, and nobody is poisoned |
| `PeersetAgreement.DisconnectedAccounted` | network-libp2p/src/custom_proto/behaviour.rs:783-886 | the same for a disconnect |
| `PeersetAgreement.DialFailureAccounted` | network-libp2p/src/custom_proto/behaviour.rs:897-934 | the same for a failed dial |
| `PeersetAgreement.DisconnectPeerAccounted` | network-libp2p/src/custom_proto/behaviour.rs:264-353 | the same for a requested disconnect, with or without a ban |
| `PeersetAgreement.HandlerReportAccounted` | network-libp2p/src/custom_proto/behaviour.rs:936-1095 | the same for every report of a handler |
| `PeersetAgreement.ReportedWhenSevere` | network-libp2p/src/custom_proto/behaviour.rs:1073-1095 | a peer is reported to the manager exactly for a severe error, and before its connection is given up |
| `PeersetAgreement.TimerAccounted` | network-libp2p/src/custom_proto/behaviour.rs:1134-1184 | the same for a timer |
| `PeersetAgreement.CallsExplained` | network-libp2p/src/custom_proto/behaviour.rs:701-934 | after the calls of a callback, the manager's queue explains exactly the difference between its connected peers and the wanted ones, or holds the one answer about an incoming connection |
| `PeersetAgreement.MessageStep` | network-libp2p/src/custom_proto/behaviour.rs:395-674 | carrying out the next message keeps that |
| `PeersetAgreement.StepKeepsInv` | network-libp2p/src/custom_proto/behaviour.rs:395-934 | every step of behaviour and manager keeps the invariant |
| `PeersetAgreement.QuiescentAgreement` | network-libp2p/src/custom_proto/behaviour.rs:1101-1132 | with the queue drained: connected for the manager if and only if pending, requested, pending enable or enabled; nobody incoming, and no entry listed |
| `PeersetAgreement.AgreementInEveryRun` | network-libp2p/src/custom_proto/behaviour.rs:1097-1191 | this agreement holds at every drained point of every run in which the queue is drained before the next callback, and the connected states are those of the swarm |
| `CustomProto.PollSettles` | network-libp2p/src/custom_proto/behaviour.rs:1097-1191 | one poll that drains the manager and fires the timers restores agreement |
| `CustomProto.CustomProto.DisconnectPeerInner` | network-libp2p/src/custom_proto/behaviour.rs:264-353 | does what the transition on values says, and makes its calls on the manager |
| `CustomProto.CustomProto.DisconnectIncoming` | network-libp2p/src/custom_proto/behaviour.rs:319-347 | an undecided connection is disabled and its alive entry closed, without a call on the manager |
| `CustomProto.CustomProto.PeersetReportConnect` | network-libp2p/src/custom_proto/behaviour.rs:395-508 | the same for Connect |
| `CustomProto.CustomProto.PeersetReportDisconnect` | network-libp2p/src/custom_proto/behaviour.rs:511-580 | the same for Drop |
| `CustomProto.CustomProto.PeersetReportAccept` | network-libp2p/src/custom_proto/behaviour.rs:583-628 | the same for Accept; it shortens the incoming list or changes nothing |
| `CustomProto.CustomProto.PeersetReportReject` | network-libp2p/src/custom_proto/behaviour.rs:631-674 | the same for Reject |
| `CustomProto.CustomProto.Connected` | network-libp2p/src/custom_proto/behaviour.rs:701-781 | the same for a new connection |
| `CustomProto.CustomProto.ConnectedInbound` | network-libp2p/src/custom_proto/behaviour.rs:724-751 | an inbound connection nobody asked for becomes incoming with a new index, unless the indices are exhausted |
| `CustomProto.CustomProto.Disconnected` | network-libp2p/src/custom_proto/behaviour.rs:783-886 | the same for a lost connection |
| `CustomProto.CustomProto.DialFailure` | network-libp2p/src/custom_proto/behaviour.rs:897-934 | the same for a failed dial |
| `CustomProto.CustomProto.NodeEvent` | network-libp2p/src/custom_proto/behaviour.rs:936-1095 | the same for every report of a handler |
| `CustomProto.CustomProto.SendMessage` | network-libp2p/src/custom_proto/behaviour.rs:376-388 | a packet is queued for the handler exactly when the peer is open |
| `CustomProto.CustomProto.DrainPeerset` | network-libp2p/src/custom_proto/behaviour.rs:1101-1132 | the loop terminates, and is a sequence of manager actions and carried-out messages that leaves nothing to say |
| `CustomProto.CustomProto.FireTimers` | network-libp2p/src/custom_proto/behaviour.rs:1134-1184 | exactly the peers whose deadline has passed, and has been noticed, move on, from waiting to be dialled to requested and from waiting to be enabled to enabled; each gets one dial or Enable; nothing else changes, whatever the order |
| `CustomProto.CustomProto.Poll` | network-libp2p/src/custom_proto/behaviour.rs:1097-1191 | the manager is drained, then exactly the due timers fire; afterwards behaviour and manager agree about every peer; the oldest queued event is handed out |
| `PeerBehaviour.FindEntry` | network-libp2p/src/custom_proto/behaviour.rs:323-333 | the first entry of a peer in the incoming list, or the first alive one |
| `PeerBehaviour.FindIndex` | network-libp2p/src/custom_proto/behaviour.rs:583-592 | the first entry with an index, if any |
| `Connections.DisconnectIsGood` | network-libp2p/src/custom_proto/behaviour.rs:264-353 | in every state without a poisoned peer: nobody is poisoned, open flags and connected states stay, the command sent is the one the new state stands for, and every undecided peer keeps an alive entry |
| `Connections.ConnectIsGood` | network-libp2p/src/custom_proto/behaviour.rs:395-508 | the same for Connect |
| `Connections.DropIsGood` | network-libp2p/src/custom_proto/behaviour.rs:511-580 | the same for Drop |
| `Connections.AcceptIsGood` | network-libp2p/src/custom_proto/behaviour.rs:583-628 | the same for Accept of any index, dead entries included |
| `Connections.RejectIsGood` | network-libp2p/src/custom_proto/behaviour.rs:631-674 | the same for Reject of any index |
| `Connections.TurnKeepsFine` | network-libp2p/src/custom_proto/behaviour.rs:264-674 | manager messages, API calls, failed dials and timers keep the invariant of behaviour and handlers |
| `ConnectionRuns.ConnectedKeepsFine` | network-libp2p/src/custom_proto/behaviour.rs:701-781 | a new connection keeps the invariant; only for an inbound one nobody asked for must no Enable for an earlier connection be queued |
| `ConnectionRuns.LostKeepsFine` | network-libp2p/src/custom_proto/behaviour.rs:783-886 | a lost connection keeps the invariant; an open peer is told to be closed |
| `ConnectionRuns.ObeyKeeps` | network-libp2p/src/custom_proto/handler.rs:252-336 | a handler that takes a command keeps its unheard reports in step with the behaviour, and one never enabled stays silent |
| `ConnectionRuns.NegotiateKeeps` | network-libp2p/src/custom_proto/handler.rs:485-541 | the same for a negotiated substream |
| `ConnectionRuns.PollKeeps` | network-libp2p/src/custom_proto/handler.rs:621-644 | the same for a poll |
| `ConnectionRuns.NewsKeepsFine` | network-libp2p/src/custom_proto/behaviour.rs:936-1043 | hearing Open, Closed, a message or congestion keeps the invariant |
| `ConnectionRuns.ErrorKeepsFine` | network-libp2p/src/custom_proto/behaviour.rs:1072-1093 | hearing a protocol error keeps the invariant |
| `ConnectionRuns.StepKeepsFine` | network-libp2p/src/custom_proto/behaviour.rs:264-1191 | every step of behaviour and handlers keeps the invariant, with no queue drained |
| `ConnectionSafety.EveryRunIsFine` | network-libp2p/src/custom_proto/behaviour.rs:264-1191 | so the invariant holds at every point of every run, except after the reconnects that `ConnectionLimits.LeftoverCondition` is about |
| `ConnectionSafety.ConnectedStates` | network-libp2p/src/custom_proto/behaviour.rs:264-353 | under every interleaving nothing is poisoned, the connected peers are exactly those incoming, disabled, pending enable or enabled, and every incoming peer has an alive entry with an index no other entry has |
| `ConnectionSafety.CommandsMatchStates` | network-libp2p/src/custom_proto/behaviour.rs:395-674 | in every run the last Enable or Disable sent on a connection is Enable if the peer is enabled, Disable if it is disabled or pending enable, and none was sent while it is incoming |
| `ConnectionSafety.ToldAlternates` | network-libp2p/src/custom_proto/behaviour.rs:936-1043 | the running account of what listeners were told, stated without it: first Open, then strictly alternating, traffic only in between |
| `ConnectionSafety.OpenAndClosedAlternate` | network-libp2p/src/custom_proto/behaviour.rs:936-1043 | in every run each peer's Open and Closed alternate starting with Open, and the peer is recorded as open exactly when the last was Open |
| `ConnectionSafety.ReportsFit` | network-libp2p/src/custom_proto/behaviour.rs:956-1071 | Closed, messages and congestion are heard only from an open peer, Open only from a closed one that is not incoming: the debug assertions hold |
| `ConnectionSafety.StepRespects` | network-libp2p/src/custom_proto/behaviour.rs:279-297 | one step other than a new connection or a failed dial keeps or extends an unexpired deadline, and neither dials nor enables the peer |
| `ConnectionSafety.BanSurvives` | network-libp2p/src/custom_proto/behaviour.rs:410-442 | the same over any stretch of a run before the deadline |
| `ConnectionTraffic.StepBans` | network-libp2p/src/custom_proto/behaviour.rs:264-353 | which steps ban a peer and up to when: five seconds for a severe error and for a failed dial, the drawn delay for a connection lost while enabled; no other step does |
| `ConnectionTraffic.BanHolds` | network-libp2p/src/custom_proto/behaviour.rs:264-353 | so in every run a peer that a step has banned is neither dialled nor enabled before that time, unless it connects or a dial fails |
| `ConnectionTraffic.ConnectAtOnce` | network-libp2p/src/custom_proto/behaviour.rs:395-508 | whom the manager chooses is dialled or enabled at once, or waits exactly as long as it is banned |
| `ConnectionTraffic.DialledWhenRequested` | network-libp2p/src/custom_proto/behaviour.rs:395-442 | in every run a peer is dialled exactly as often as it becomes requested |
| `ConnectionTraffic.ConnectedOutcome` | network-libp2p/src/custom_proto/behaviour.rs:701-781 | a new connection is enabled if it was wanted, disabled if we made it unasked, with its ban kept, and otherwise put to the manager under a new index |
| `ConnectionTraffic.AcceptHonoured` | network-libp2p/src/custom_proto/behaviour.rs:583-628 | an acceptance enables the peer, or is given back to the manager if the connection is gone; its entry is removed |
| `ConnectionTraffic.PacketsPassThrough` | network-libp2p/src/custom_proto/behaviour.rs:1045-1056 | as long as a connection lasts no packet from the remote is lost, altered, invented or overtaken on its way from the substream to the outside |
| `ConnectionTraffic.TextsPassThrough` | network-libp2p/src/custom_proto/behaviour.rs:376-388 | and its handler is given exactly the packets asked for while the peer was open, in order |
| `ConnectionTraffic.PointsAreEndpoints` | network-libp2p/src/custom_proto/behaviour.rs:701-781 | in every run the behaviour takes each connection to be made by the side that made it |
| `ConnectionLimits.LostEntryIsClosed` | network-libp2p/src/custom_proto/behaviour.rs:869-881 | losing an undecided connection closes its entry, the last alive one, if and only if no older entry of the same peer is listed; otherwise the peer keeps an alive entry |
| `ConnectionLimits.StaleEntryExample` | network-libp2p/src/custom_proto/behaviour.rs:169-179 | five callbacks after which an entry is alive without a connection, and accepting it tells the manager nothing |
| `ConnectionLimits.LeftoverCondition` | network-libp2p/src/custom_proto/behaviour.rs:1186-1188 | for a new inbound connection nobody asked for: no continuation tells listeners anything out of turn, and none poisons the state, each if and only if no Enable for an earlier connection is still queued |
| `ConnectionLimits.LeftoverMisleads` | network-libp2p/src/custom_proto/handler.rs:252-295 | from any state with such an Enable: a continuation in which a closed peer's message is passed on, and one that leaves the peer poisoned |
| `ConnectionLimits.ClosedTooEarly` | network-libp2p/src/custom_proto/behaviour.rs:956-1004 | Open and then Closed from a connection that is undecided: the first is ignored, the second poisons the state |
| `ConnectionLimits.LeftoverArises` | network-libp2p/src/custom_proto/behaviour.rs:783-830 | three callbacks after which such an Enable is queued |
| `ConnectionHandler.PollSubstreams` | network-libp2p/src/custom_proto/handler.rs:394-457 | the swap-remove pass polls the substreams from the last down, each once, all of them unless one has something to report; none is lost; what stays, ends and is reported; the last one gone closes the handler |
| `ConnectionHandler.ShutdownList` | network-libp2p/src/custom_proto/handler.rs:656-674 | exactly the substreams that are done leave the list |
| `ConnectionHandler.CustomProtoHandler.Enable` | network-libp2p/src/custom_proto/handler.rs:252-295 | the transition on values; valid before and after |
| `ConnectionHandler.CustomProtoHandler.Disable` | network-libp2p/src/custom_proto/handler.rs:298-336 | the same |
| `ConnectionHandler.CustomProtoHandler.InjectFullyNegotiated` | network-libp2p/src/custom_proto/handler.rs:485-541 | the same |
| `ConnectionHandler.CustomProtoHandler.SendMessage` | network-libp2p/src/custom_proto/handler.rs:544-553 | the first open substream takes the message; there always is one |
| `ConnectionHandler.CustomProtoHandler.InjectDialUpgradeError` | network-libp2p/src/custom_proto/handler.rs:596-608 | an error report is queued |
| `ConnectionHandler.CustomProtoHandler.PollState` | network-libp2p/src/custom_proto/handler.rs:340-482 | the transition of each state, never left poisoned |
| `ConnectionHandler.CustomProtoHandler.Poll` | network-libp2p/src/custom_proto/handler.rs:621-644 | queued reports first, then the death of the connection, then the state |
| `HandlerModel.LastStop` | network-libp2p/src/custom_proto/handler.rs:398-420 | the substream that interrupts a pass: the last with something to report |
| `HandlerRuns.RunKeepsOk` | network-libp2p/src/custom_proto/handler.rs:252-553 | in every run no method starts in the poisoned state, and an open handler has an open substream |
| `HandlerRuns.DisabledStaysQuiet` | network-libp2p/src/custom_proto/handler.rs:298-336 | after a Disable with no later Enable, no Open, message, congestion or outbound request is generated |
| `HandlerRuns.SendIsQueued` | network-libp2p/src/custom_proto/handler.rs:544-553 | an open handler queues a packet behind those of its first substream, unless that is closing; any other drops it |
| `HandlerRuns.AsksWhenOpening` | network-libp2p/src/custom_proto/handler.rs:252-296 | in every run a substream is asked for exactly as often as the handler begins to open as the dialer or after having closed |
| `HandlerRuns.AskedOnce` | network-libp2p/src/custom_proto/handler.rs:252-296 | a handler that is opening has asked exactly once since it began, and not at all if it waits for the remote to open for the first time |
| `HandlerRuns.StepFails` | network-libp2p/src/custom_proto/handler.rs:372-392 | an error is reported exactly for a failed upgrade and, as severe, when an idle poll finds that opening took too long |
| `HandlerRuns.KilledWhenDisabled` | network-libp2p/src/custom_proto/handler.rs:298-336 | in every run the connection is to be killed exactly if a Disable has hit an opening or open handler |
| `HandlerRuns.ClosedUnopenedIsShut` | network-libp2p/src/custom_proto/handler.rs:298-336 | a handler closed without ever having been open has shut all its substreams |
| `HandlerRuns.OpensAgain` | network-libp2p/src/custom_proto/handler.rs:252-336 | a closing handler opens again exactly if it closed by itself or was told to enable, and neither a Disable nor a new substream came after |
| `HandlerRuns.StepConserves` | network-libp2p/src/custom_proto/handler.rs:340-553 | one step neither loses nor duplicates a substream, unless the connection is killed |
| `HandlerRuns.SubstreamsConserved` | network-libp2p/src/custom_proto/handler.rs:340-553 | in every run each negotiated substream is held exactly once, has ended, or has failed, until the connection is killed |
| `SubstreamQueue.RegisteredProtocolSubstream.Shutdown` | network-libp2p/src/custom_proto/upgrade.rs:99-102 | closing, with the queue emptied |
| `SubstreamQueue.RegisteredProtocolSubstream.SendMessage` | network-libp2p/src/custom_proto/upgrade.rs:105-111 | queued at the end, unless closing |
| `SubstreamQueue.RegisteredProtocolSubstream.Flush` | network-libp2p/src/custom_proto/upgrade.rs:136-145 | the sink takes packets from the front until it refuses one, which goes back to the front; on an error those taken were in order |
| `SubstreamQueue.RegisteredProtocolSubstream.Poll` | network-libp2p/src/custom_proto/upgrade.rs:135-189 | flush, close, congestion warning, completion and reading, in this order |
| `SubstreamQueue.FirstInFirstOut` | network-libp2p/src/custom_proto/upgrade.rs:99-189 | in every run without a sink error, what the sink has taken followed by the queue is what was offered, in order; after a shutdown what it has taken is a prefix of it |
| `SubstreamQueue.PollSinks` | network-libp2p/src/custom_proto/upgrade.rs:136-145 | a poll hands over packets up to the first that is refused |
| `SubstreamQueue.WarnsWhenFull` | network-libp2p/src/custom_proto/upgrade.rs:152-165 | in every run a congestion warning is given exactly when a poll of an open substream finds 2048 packets or more and none was given since one last found room; it shows the queue |
| `SubstreamQueue.AsksForCompletion` | network-libp2p/src/custom_proto/upgrade.rs:136-178 | in every run completion is asked for exactly while the sink holds a packet taken since it last completed |
| `SubstreamQueue.ReadsThrough` | network-libp2p/src/custom_proto/upgrade.rs:179-189 | what an open substream reads is passed on unchanged |
| `SubstreamQueue.OpenAnswers` | network-libp2p/src/custom_proto/upgrade.rs:166-189 | an open substream fails exactly when completion or reading fails, and ends exactly when the remote ended it and nothing is left to send |
| `SubstreamQueue.ClosingAnswers` | network-libp2p/src/custom_proto/upgrade.rs:147-150 | a closing substream answers what closing the sink answers |
| `SubstreamQueue.FinishedIsFlushed` | network-libp2p/src/custom_proto/upgrade.rs:166-189 | the end of an open substream is reported only once everything offered has reached the sink and was completed |
| `SubstreamQueue.WarningsAreSeparated` | network-libp2p/src/custom_proto/upgrade.rs:152-165 | between two congestion warnings some poll has found fewer than 2048 packets queued |
| `AntRoute.FindResponse` | router/ant/src/lib.rs:535-557 | removes the last hop at the node and turns it to start there, or finds none |
| `AntRoute.FormatResponseList` | router/ant/src/lib.rs:508-533 | terminates with the greedy route of the reference definition |
| `AntRoute.MetWalksParity` | router/ant/src/lib.rs:508-557 | the hops of a walk from start to m and a walk from end to m have an odd number of ends exactly at start and end, if these differ, and nowhere otherwise |
| `AntRoute.ParityStep` | router/ant/src/lib.rs:535-557 | removing one hop at the current node moves the odd end along it |
| `AntRoute.RouteIsTrail` | router/ant/src/lib.rs:508-557 | on any list, the result is a chain that uses each hop at most once, possibly turned |
| `AntRoute.RouteReachesEnd` | router/ant/src/lib.rs:508-533 | if only start and end have an odd number of ends, the result reaches the end and stops there |
| `AntRoute.RouteRebuilt` | router/ant/src/lib.rs:508-557 | from two walks that meet, in either order, the result is a chain from start to end using each hop at most once, reaching the end only at its last hop |
| `AntRoute.FindPathByPressure` | router/ant/src/lib.rs:481-506 | the result is the route of a path of least pressure, the last of those; it fails exactly when there is no path |
| `AntRoute.PressureOfSum` | router/ant/src/lib.rs:491-496 | the pressure of a route is the sum of its parts |
| `AntRoute.PressureOfHop` | router/ant/src/lib.rs:491-496 | more funds on the near side of a hop lower the pressure by as much; more on the far side, or more pay, raise it by as much |
| `AntRoute.PressureBackwards` | router/ant/src/lib.rs:491-496 | there and back the balances cancel out, and the pressures add up to twice the pay |
| `AntRoute.WalkBackwards` | router/ant/src/lib.rs:549-553 | a route turned hop by hop is a route the other way |
| `AntRoute.CostFits` | router/ant/src/lib.rs:491-496 | no pressure exceeds the starting minimum, so a path is always found |
| `AntFlood.SendAntQueryMessage` | router/ant/src/lib.rs:598-638 | one query to each channel peer not on the path, in order, each with one more hop that carries the balances and the pay of that channel; it stops short only at a channel that is not quoted |
| `AntFlood.ForwardKeepsSimple` | router/ant/src/lib.rs:598-665 | what is sent on from a simple path is again a simple channel path from the launching node to the recipient, in the same searcher's name |
| `AntFlood.LaunchIsSimple` | router/ant/src/lib.rs:577-589 | so is what a new flood sends, whether launched by the searching node or by the one searched for, in the name of the searching node |
| `AntFlood.PathIsShort` | router/ant/src/lib.rs:598-638 | a simple path has fewer hops than the graph has nodes |
| `AntFlood.DeliveryLosesWeight` | router/ant/src/lib.rs:640-665 | delivering any query, whatever the seed table answers, keeps all queries simple and lowers the total weight |
| `AntFlood.FloodDiesOut` | router/ant/src/lib.rs:598-665 | so in every order of deliveries there are at most as many as the first queries weigh |
| `AntFlood.FloodReaches` | router/ant/src/lib.rs:598-665 | a flood without matches and failures, delivered in any order until nothing is left, delivers a query along every way without repeats from the launching node |
| `AntFlood.MeetingAntsGiveRoute` | router/ant/src/lib.rs:640-654 | two queries that meet carry the hops of a channel route between the nodes that launched them |
| `AntFlood.SearchSucceeds` | router/ant/src/lib.rs:577-665 | so two nodes connected over at least one other find a route: queries of both floods meet, and their hops rebuild one |
| `KeyRange.PrefixNext` | sgstorage/src/utils.rs:15-32 | the in-place carry loop computes the next prefix of the reference definition |
| `KeyRange.IncrementedAt` | sgstorage/src/utils.rs:16-26 | the last byte below 255 is raised, those after it are zero |
| `KeyRange.RangeIsPrefixed` | sgstorage/src/utils.rs:3-14 | for a prefix not all 255, a key is in the range if and only if it starts with the prefix or is the next prefix without some of its last zeros |
| `KeyRange.LongKeysInRange` | sgstorage/src/utils.rs:3-14 | so a key at least as long starts with the prefix if and only if it is in the range |
| `KeyRange.FullPrefixRange` | sgstorage/src/utils.rs:27-30 | for a prefix all 255 the range holds the prefix alone |
| `KeyRange.RangeCondition` | sgstorage/src/utils.rs:15-32 | the range is right for all keys long enough if and only if the prefix is not all 255 |
| `ChannelDb.ViewOfWrite` | sgstorage/src/channel_db.rs:71-82 | a write through one channel is that write on its view, and nothing on any other |
| `ChannelDb.ViewOfRangeDelete` | sgstorage/src/channel_db.rs:84-96 | a range deleted through one channel is that range of its view, and nothing of any other |
| `ChannelDb.ViewsOfBatch` | sgstorage/src/channel_db.rs:116-132 | a batch written through one channel is that batch on its views, and nothing on any other |
| `ChannelDb.BatchLookup` | sgstorage/src/channel_db.rs:116-132 | after a batch each key has what the last row for it put, nothing if that row deleted it, and what it had before if there is none |
| `ChannelDb.ChannelDB.Get` | sgstorage/src/channel_db.rs:45-69 | reads the channel's own map; fails exactly for an unknown column family |
| `ChannelDb.ChannelDB.Put` | sgstorage/src/channel_db.rs:71-82 | updates the channel's own map and no other channel's |
| `ChannelDb.ChannelDB.RangeDelete` | sgstorage/src/channel_db.rs:84-96 | the keys from begin up to but not including end are gone from the channel's own map, and no others; nothing of any other channel |
| `ChannelDb.ChannelDB.WriteSchemas` | sgstorage/src/channel_db.rs:116-132 | all rows of the batch or, for an unknown column family, none; each key of the channel has what the last row for it says, and is unchanged without one; other channels are untouched |
| `ChannelIterator.SeekLeaves` | sgstorage/src/channel_db.rs:207-278 | from a seek on, the rows up to the first of another channel are exactly the channel's keys at or after the key sought |
| `ChannelIterator.SeekPrevFinds` | sgstorage/src/channel_db.rs:280-297 | a backward seek succeeds exactly when the channel has a key at most that, and stands at the greatest |
| `ChannelIterator.SeekLastCondition` | sgstorage/src/channel_db.rs:254-258 | for a channel with rows, the last one is found if and only if nothing is stored right at the next address or, for the last address of all, no key lies beyond the single byte 0 |
| `ChannelIterator.MissedLastRows` | sgstorage/src/channel_db.rs:254-258 | two stores in which the last row is missed |
| `ChannelIterator.ChannelSchemaIterator.constructor` | sgstorage/src/channel_db.rs:98-114 | a new iterator has all rows of the channel before it, in order |
| `ChannelIterator.ChannelSchemaIterator.SeekToFirst` | sgstorage/src/channel_db.rs:249-252 | all rows of the channel lie ahead, in order, and no other |
| `ChannelIterator.ChannelSchemaIterator.Seek` | sgstorage/src/channel_db.rs:260-278 | the channel's rows from the key on lie ahead, in order; answers whether there are any |
| `ChannelIterator.ChannelSchemaIterator.SeekForPrev` | sgstorage/src/channel_db.rs:280-297 | answers whether the channel has a key at most that, and stands at the greatest |
| `ChannelIterator.ChannelSchemaIterator.SeekToLast` | sgstorage/src/channel_db.rs:254-258 | stands at the last row under exactly the condition above |
| `ChannelIterator.ChannelSchemaIterator.Next` | sgstorage/src/channel_db.rs:207-243 | yields the first row ahead with its value in the channel's map, or nothing |
| `ChannelLedger.RekeyedOne` | sgstorage/src/channel_store.rs:215-227 | putting only the keys that change, one row at a time, gives each participant its new key |
| `ChannelLedger.ItemsReadBack` | sgstorage/src/channel_write_set_store/mod.rs:34-80 | the write set put at a new version is the one read back |
| `ChannelStores.ChannelStore.constructor` | sgstorage/src/channel_store.rs:72-82 | nothing is cached yet |
| `ChannelStores.ChannelStore.Bootstrap` | sgstorage/src/channel_store.rs:86-103 | the caches are rebuilt from what is stored, and a new store gets a row for each participant; it does not come up exactly if the latest transaction is missing |
| `ChannelStores.ChannelStore.LoadWitness` | sgstorage/src/channel_store.rs:150-163 | the witness of the latest ledger info's transaction and write set; fails exactly if that transaction is missing |
| `ChannelStores.ChannelStore.GetWriteSet` | sgstorage/src/channel_write_set_store/mod.rs:64-80 | the loop collects every stored item of the version, in the order of their indices |
| `ChannelStores.ChannelStore.RegisterParticipants` | sgstorage/src/channel_store.rs:94-101 | every participant gets a row without a key, stored and cached |
| `ChannelStores.ChannelStore.UpdateKeys` | sgstorage/src/channel_store.rs:211-228 | stored and cached keys change in the same way, and only rows that change are written |
| `ChannelStores.ChannelStore.PutWriteSet` | sgstorage/src/channel_write_set_store/mod.rs:34-54 | the items are staged at 0, 1 and so on |
| `ChannelStores.ChannelStore.StageTx` | sgstorage/src/channel_store.rs:292-332 | write set, transaction, info and accumulator leaf are staged |
| `ChannelStores.ChannelStore.SaveTx` | sgstorage/src/channel_store.rs:189-265 | saves exactly if version and root match and the write succeeds; otherwise nothing stored or cached changes |
| `ChannelStores.ChannelStore.SavePendingTxn` | sgstorage/src/channel_store.rs:267-281 | cached, and stored if to be persisted; a failed write changes nothing |
| `ChannelStores.ChannelStore.ClearPendingTxn` | sgstorage/src/channel_store.rs:284-290 | cleared in both places, or nowhere |
| `ChannelStores.TxApplier.Start` | sgwallet/src/tx_applier.rs:31-66 | epoch and accumulator from the latest ledger info and the last stored version; none exactly when the stored rows do not reach that far, where the source panics |
| `ChannelStores.TxApplier.Apply` | sgwallet/src/tx_applier.rs:68-139 | the next ledger state, or no change at all |
| `ChannelRestart.NextIsSavable` | sgstorage/src/channel_store.rs:232-241 | the root in memory and the root of the stored accumulator agree, so the next transaction is never refused |
| `ChannelRestart.StepKeepsInv` | sgwallet/src/tx_applier.rs:68-139 | every operation keeps memory equal to what a restart would read |
| `ChannelRestart.RestartIsEquivalent` | sgstorage/src/channel_store.rs:86-164 | a restart gives the same witness, pending transaction, keys, leaves and epoch, if and only if the address is not the last of all or nothing was applied |
| `ChannelRestart.RestartFromNothing` | sgstorage/src/ledger_info_store/mod.rs:61-77 | for the last address of all a restart begins again from nothing, and refuses the transaction that would have been applied next |
| `ChannelRestart.CrashRestart` | sgwallet/src/tx_applier.rs:31-139 | so after every run; the number of leaves is one more than the latest version, the epoch is the last travelled sequence number or 0, the latest root is that of the leaves, and the witness carries the next sequence number |
| `ChannelRestart.AppliedWhenNext` | sgwallet/src/tx_applier.rs:77-81 | in every run a transaction is applied if and only if it carries the next sequence number and the write succeeds |
| `LedgerHistory.LedgerIsHistory` | sgstorage/src/channel_store.rs:166-262 | after every run transactions, write sets, infos and leaves are those of the transactions applied, in order; every participant has the key it last brought; the witness shows the write set and the signatures of the last transaction, and the latest ledger info its time |
| `LedgerHistory.PendingIsLast` | sgstorage/src/channel_store.rs:264-295 | after every run what is pending, stored and in memory, is what the last step that applied, saved or cleared left |
| `ChannelRestart.UnpersistedPending` | sgstorage/src/channel_store.rs:267-281 | a saved pending transaction survives a restart if and only if it was persisted or is the stored one, given that the last rows can be found |
| `LedgerRows.BytesInOrder` | sgstorage/src/schema/ledger_info_schema/mod.rs:22-31 | epochs as eight bytes, highest first, are ordered as the numbers are |
| `LedgerRows.ReadLatest` | sgstorage/src/ledger_info_store/mod.rs:61-77 | seeking the last row of the channel and reading on gives the info of the greatest epoch, and nothing exactly if there is none or the address is the last of all |
| `MultiHop.InvoiceManager.NewInvoice` | node/node_internal/src/invoice.rs:85-104 | the preimage is kept under its hash |
| `MultiHop.InvoiceManager.GetPreimage` | node/node_internal/src/invoice.rs:106-117 | a preimage that hashes to the lock, if one is known |
| `MultiHop.InvoiceManager.AddPreviousHop` | node/node_internal/src/invoice.rs:119-124 | remembers the sender under the lock |
| `MultiHop.InvoiceManager.GetPreviousHop` | node/node_internal/src/invoice.rs:126-142 | the sender remembered under the hash of the preimage |
| `MultiHop.RelayNode.GetMultiHopRequest` | node/node_internal/src/node.rs:1287-1320 | the first transfer goes to the second node of the route with all further hops at the same amount; fails exactly if the route is too short or starts elsewhere |
| `MultiHop.RelayNode.HandleChannelTransactionRequest` | node/node_internal/src/node.rs:958-1045 | a transfer whose preimage is known is claimed from its sender; a claim is passed on to the remembered sender |
| `MultiHop.RelayNode.HandleMultiHopReceiverChannel` | node/node_internal/src/node.rs:905-946 | also passes the transfer on to the next hop and remembers its sender |
| `MultiHop.HandledNext` | node/node_internal/src/node.rs:905-1043 | handling the expected message of a payment sends exactly the next expected one; refusing it makes no difference at a relay and stops the payment at the receiver or on the way back |
| `MultiHop.RelayFollowsRoute` | node/node_internal/src/node.rs:905-1043 | in every run, whatever is accepted or refused and interleaved with other payments, the payment's messages are handled in exactly the order of transfers along the route and claims back along it |
| `MultiHop.RelayComplete` | node/node_internal/src/node.rs:905-1043 | nothing of it is in flight exactly when the receiver or a later node refused, or it went all the way, every transfer with the same amount and lock, and the preimage all the way back to the sender, where it stops |
| `MultiHop.PaidWithoutAccepting` | node/node_internal/src/node.rs:905-944 | in every run the relays that passed the payment on without having accepted it are exactly those that refused it; there are none if and only if every relay reached accepted |
| `MultiHop.RefusedButPaid` | node/node_internal/src/node.rs:905-944 | a run, under any hash function, in which a relay refuses the payment and passes it on |
| `DataStream.DataStream.Next` | sgwallet/src/data_stream.rs:77-121 | one poll of the model, with the places declared unreachable as an outcome |
| `DataStream.BlockYields` | sgwallet/src/data_stream.rs:79-83 | a consecutive block yields its first item and leaves a consecutive block |
| `DataStream.PollYields` | sgwallet/src/data_stream.rs:77-121 | a poll yields the next item exactly if one is cached or fetched, fails exactly if the query came back empty-handed and no further delay is granted, and otherwise changes nothing but the delay |
| `DataStream.NoGapNoRepeat` | sgwallet/src/data_stream.rs:77-121 | over any mix of errors, empty answers and pending polls: the items are those from the start number on without gap or repeat, the cache is the consecutive block at the next number, and nothing declared unreachable is reached |
| `DataStream.PanicsWithout` | sgwallet/src/data_stream.rs:91-107 | a poll reaches such a place if and only if the query answers with data that lack the number asked for |

## Left out

- Transport, discovery, identification, encryption and codecs of the network: library code.
- Addresses of a peer, `is_enabled`, debug information, logging and metrics.
- Backoff durations, the random ban of five to ten seconds after a lost connection, and the timers' own clocks: parameters.
- Congestion reports carry no copy of the queued messages past the handler; errors carry no text.
- The seed table of ant routing: whether two seeds match is arbitrary.
- Choosing between ant routing and the routing service, and the timeouts of a search.
- AntRoute.FindPathByPressure: a path is at most 2^56 hops long, as no vector is longer, so that sums fit 128 bits.
- ChannelDb: keys and values are bytes; of their encodings only that of epochs is modelled, and I/O errors of single writes are not.
- ChannelLedger: Merkle proofs, events and lookups by account; the accumulator root is an arbitrary function of the leaves.
- LedgerRows.ReadLatest: requires every row of the column family to have an epoch for a key, as every write leaves it.
- Sequence numbers and stream numbers do not wrap around at 2^64.
- MultiHop: the wallet's checks are one answer, accepted or not, and its sending never fails; invoice text encoding is not modelled.
- The Move virtual machine, channel scripts, the command line, the gateway and the demo.
