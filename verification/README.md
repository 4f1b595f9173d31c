# Verified model of the consensus networking core

The sentry keeps connections to other consensus nodes: it scores, bans, evicts and prunes peers,
speaks the request/response protocol over libp2p substreams, limits request rates, schedules
discovery searches for subnets, caches gossip messages that could not be published, and names gossip
topics. This project models those parts in Dafny and proves what they keep over every run.

| file | component |
|---|---|
| `RpcSteps.dfy`, `RpcRuns.dfy` | the request/response handler of one connection: its steps and the invariants of every run |
| `RpcLogs.dfy`, `RpcReplies.dfy`, `RpcFailures.dfy` | what the application is told, over every run, about outbound substreams, inbound requests, and requests that get no substream |
| `RpcPolls.dfy`, `RpcHandlers.dfy` | what one call to `poll` does, and the object with its callbacks |
| `Pruning.dfy`, `Orders.dfy` | choosing which connected peers to drop |
| `Scores.dfy`, `PeerInfos.dfy` | scores, bans and what is known about a peer |
| `PeerTables.dfy`, `PeerReports.dfy`, `PeerDbs.dfy` | the peer database: transition table, counters, eviction, score-driven changes, and the object |
| `PeerSystems.dfy`, `PeerRuns.dfy`, `PeerWitnesses.dfy`, `PeerManagers.dfy` | the peer manager with its event queue, its counters and announcements over runs, runs on which they go wrong, and the object |
| `PeerMoves.dfy`, `PeerStandings.dfy`, `PeerBans.dfy` | what each call does to one peer; over runs, its connections, addresses and notices, and how its ban follows its score |
| `RateLimiter.dfy` | the Generic Cell Rate Algorithm with 64-bit arithmetic |
| `Discoveries.dfy` | the scheduler of subnet searches |
| `GossipCaches.dfy`, `DelayQueues.dfy` | the retry cache for gossip messages |
| `Topics.dfy` | gossip topic names |
| `Common.dfy`, `Sums.dfy` | shared types; sums over finite maps |

`dafny verify dfyconfig.toml` checks everything.

State that the program updates in place is a class whose methods are proved equal to a function or
relation on values (`View()`); the properties over runs are proved about those values. Randomness
(`shuffle`, ties in `sort` and `max_by_key`, hash map order), clocks, substream I/O and timer keys are
parameters or unconstrained choices.

## Main results

* **Requests are conserved** in every run of the handler: each request ever sent is in exactly one of
  the dial queue, the dials under way, the opened substreams, the failures (one event each, delivered
  or queued) or, if it expects no response, the ones sent out (`RequestsConserved`). Nothing expecting
  a response is lost without an event about it (`NoSilentLoss`).
* **Chunk discipline**: of each outbound substream the application gets at most `expected_responses`
  responses, before anything else, and nothing after the end of stream (`ChunkDiscipline`), because
  `poll` lets no event overtake a queued one of its substream; inbound substreams send, in order, a
  prefix of what was queued, no longer than asked for (`ResponsesInOrder`).
* **The application is told exactly what happened**: the events of each outbound substream, each inbound
  request and each request without a substream are computed from what happened to it, in order
  (`OutboundLogs`, `InboundLogs`, `FailuresTold`), and so are the life of a substream and its deadline
  (`StandingOverRuns`, `ServedOverRuns`). A request that meets no trouble is answered by its responses
  and, for blocks, the end of the stream (`UntroubledAnswers`).
* **`poll` refines the state machine and makes progress**: it takes only steps that the clock or a
  substream calls for, at most the last with an output, and stops only when everything has been driven
  as far as it goes (`Poll`).
* **Pruning is maximal and bounded**: quotas, outbound floor, penalised peers before others, worst scores first, fullest subnets and
  least subscribed peers first, committee floor, and whoever remains although the quota was missed is
  protected (`PruneExcessPeers`).
* **Counters agree with the map** over every run of the peer manager, up to one leaking transition: the
  excess of each ban counter is computed exactly from the calls, so that the counters are exact if and
  only if that drift is zero (`CountersOverRuns`).
* **Ban announcements cover the database** over every run, and a peer is announced without being banned
  if and only if it left silently and nothing has been said since (`AnnouncementsOverRuns`).
* **Connections are counted** over every run of the peer manager: the two counters of a connected peer
  are the connections announced since it last was not connected (`ConnectionsOverRuns`); its recorded
  times and addresses are those of the calls that led to them (`SinceOverRuns`, `SeenOverRuns`).
* **Bans follow scores**: crossing the ban threshold condemns a peer at the same call and nothing else
  does (`CallSettles`, `CondemnedByScore`); a condemned peer stays so until it connects again, is dialed
  or is announced as unbanned (`CondemnedStays`); trusted peers are never banned (`TrustedNeverBanned`).
* **The rate limiter refines a leaky bucket**, obeys the window bound on every trace, and gives each quota
  its rate: never more, and every token back in its time (`QuotaBoundsRate`, `QuotaRefills`).
* **Bans last twelve hours** through every interleaving, decay never penalises, and afterwards every tick
  recovers (`TicksRecover`).
* **Subnet searches end** after at most four per request; a queued query vanishes without being handed out
  if and only if its time is past (`VanishesIffPast`), a handed one is searched for if and only if its
  subnet still needs peers and the local ENR has a fork id (`SearchedAfterIff`), and merging never
  shortens the time a subnet is wanted (`RequestsKeepFurthest`).
* **The gossip cache is a bijection** with its timers; every stored message leaves once.
* **Topics round-trip**; exactly which strings are topics is stated (`DecodedIff`, `KindAcceptedIff`), and
  decoding is undone by printing exactly for canonical names.

## Where the code and its documentation disagree

The model follows the code.

* Peers needed for a validator duty are said to be always kept. Stage three of pruning does not look
  at duties (`DutyPeerCanBePruned`, `DutyIsLost`). They are all kept when stages one and two can fill
  the quota or no peer with a duty is on an attestation subnet, a condition on the database alone
  (`DutiesSafe`).
* A negative gossipsub score is said not to disconnect a peer by itself. It does from -320000/19
  downwards (`GossipAloneDisconnectsIff`).
* The burst limit of a quota is loose when the token refill time is rounded down by as much as it is
  long (`BurstLimitIsSharpIff`, `BurstLimitCanBeLoose`), and requests beyond the burst limit pass when
  the 64-bit product wraps (`OversizedGrantedIff`, `OversizedEverGrantedIff`).
* `banned_peers` drifts by one when a banned peer is told to disconnect (`LeakIsReal`,
  `LeakReachable`), and a banned peer that is dialed or connects stays banned at the swarm
  (`ExitsAreSilent`, `ExitReachable`).
* A dial that fails while its peer is still being disconnected marks it as disconnected without a notice,
  so the application goes on taking it for connected (`NoticesOverRuns`).
* `has_long_lived_subnet`, which spares peers in stage two of pruning, asks for a gossipsub subscription
  besides an advertised attestation subnet and knows sync committees from METADATA only, unlike the lists
  of stage three (`HasLongLivedSubnetIff`).
* `dial_negotiated` keeps counting a dial that is retried after an I/O error, so after any such retry
  the handler never closes gracefully, and eight of them stop all dialing (`GracefulCloseIsClean`,
  `RetriesPersist`, `LockoutReachable`).
* A request for peers without a fork id in the local ENR leaves `find_peer_active` set, which frees a
  third slot for subnet searches (`RunKeepsInv`, `ThirdSearchReachable`). The ENRs the program builds
  always carry a fork id (src/discovery/enr.rs:169, compared at src/discovery/enr.rs:194 when loaded,
  rewritten at src/discovery/mod.rs:526), so for them that branch is dead and two searches is the bound
  (`TwoSearchesWithForkId`).

## Model

| member | source | states |
|---|---|---|
| RpcRuns.RequestsConserved | src/rpc/handler.rs:234-274 | over every run, per request: sent == queued + being dialed + opened + failures reported to the application or queued for it + sent without expecting a response, and the last is zero for requests that expect one |
| RpcRuns.NoSilentLoss | src/rpc/handler.rs:389-508 | a request that failed before getting a substream, or whose substream is closing or gone, has an event caused by it, with its id, queued or delivered |
| RpcRuns.ChunkDiscipline | src/rpc/handler.rs:818-951 | of every substream ever opened, in what the application has got followed by what is queued for it: responses first and at most as many as expected, end of stream at most once and last |
| RpcRuns.ResponsesInOrder | src/rpc/handler.rs:640-763 | chunks put on the wire are a prefix of those accepted, at most as many as the request expects, never a termination, and nothing after an error |
| RpcRuns.DialsAccounted | src/rpc/handler.rs:965-980 | the dial count covers the dials under way, stays within its limit of eight, does not underflow, and is exact if and only if no dial was retried |
| RpcRuns.GracefulCloseIsClean | src/rpc/handler.rs:510-533 | while shutting down, the connection may go if and only if nothing is queued, dialing, open or unreported and no dial was ever retried |
| RpcRuns.RetriesPersist | src/rpc/handler.rs:467-480 | each I/O retry takes a dial slot for good; after eight no dial can start |
| RpcRuns.RetriesReachable | src/rpc/handler.rs:467-480 | every number of retries up to eight happens on some run |
| RpcRuns.LockoutReachable | src/rpc/handler.rs:965-966 | a run ends with a queued request, no dial under way and dialing stopped |
| RpcRuns.BooksAreComplete | src/rpc/handler.rs:573-632 | timers and outbound substreams are in bijection, an inbound one has a live timer if and only if it records a key, at most 32 inbound, none poisoned |
| RpcRuns.RunKeepsInv | src/rpc/handler.rs:535-996 | the conjunction of all invariants holds after every run |
| RpcRuns.StepKeepsInv | src/rpc/handler.rs:334-508 | every callback and every part of `poll` keeps the conjunction |
| RpcRuns.StepKeepsSane | src/rpc/handler.rs:334-508 | the same for a handler on its own: if it is what some run leaves, with the dials under way and the queued events, it still is after a step |
| RpcRuns.InSideKept | src/rpc/handler.rs:636-801 | steps keep inbound timers, ids, the limit of 32 and the order of chunks |
| RpcRuns.OutSideKept | src/rpc/handler.rs:803-962 | steps keep outbound timers, ids and the discipline of each substream |
| RpcRuns.ConservedKept | src/rpc/handler.rs:467-508 | steps keep the balance of requests |
| RpcRuns.DialsKept | src/rpc/handler.rs:460-480 | steps keep the dial count equal to dials under way plus retries |
| RpcRuns.CausesKept | src/rpc/handler.rs:240-260 | every reported event carries the id of the request, substream or inbound request that caused it |
| RpcRuns.DeliveredKept | src/rpc/handler.rs:553-558 | reported events are exactly those delivered and those still queued, and those of one substream in the order it reported them |
| RpcRuns.DirectIff | src/rpc/handler.rs:818-951 | exactly which steps return an event of which substream past the queue |
| RpcRuns.ChunkKeepsStream | src/rpc/handler.rs:830-880 | a chunk keeps responses received plus responses remaining equal to the number expected, or moves the substream to closing |
| RpcRuns.AfterSendOk | src/rpc/handler.rs:708-731 | a finished send keeps sent plus remaining equal to expected as long as the substream lives |
| RpcRuns.FlushedFails | src/rpc/handler.rs:243-249 | shutting down fails each queued request exactly once |
| RpcLogs.OutboundLogs | src/rpc/handler.rs:806-962 | over every run, of each substream: the events delivered and then queued are what has happened to it, in order: each response with its payload, error chunks with their code, the end by the remote as end of stream where several responses were expected and as incomplete stream otherwise, read errors, timeouts, deactivation, and the end of stream of a closed block request |
| RpcLogs.StandingOverRuns | src/rpc/handler.rs:606-962 | over every run: a substream is in the books exactly until the remote ends it, reading fails, it times out or its closing is done; it waits exactly while nothing but responses, and fewer than expected, have come; and its timer runs out ten seconds after the last of them or its opening |
| RpcLogs.UntroubledAnswers | src/rpc/handler.rs:818-951 | without error chunk, read error, timeout, deactivation or an early end of a single response, the application gets exactly the responses that came, in order, then for blocks the end of stream once the substream is gone, and no error |
| RpcReplies.InboundLogs | src/rpc/handler.rs:334-387 | over every run, of each inbound request, in order: the request or its rejection, every error it is answered with, its timeout, the error of a send or close, and what is left unfinished when it is dropped |
| RpcReplies.ServedOverRuns | src/rpc/handler.rs:572-795 | over every run: an inbound request is served exactly until it is dropped, a send fails, an error or the end is sent, or all its chunks are; its timer runs out ten seconds after the last chunk or its arrival, unless it already has |
| RpcReplies.TimeoutEndsStream | src/rpc/handler.rs:576-590 | after a timeout no queue ends in a chunk that leaves the stream open |
| RpcFailures.FailuresTold | src/rpc/handler.rs:234-274 | over every run, of each request without a substream, in order: the error of its final dial, or that the connection is going, and when |
| RpcFailures.DialsInOrder | src/rpc/handler.rs:965-980 | while active, requests are dialed in the order they were queued, retried ones behind |
| RpcFailures.ShutdownOverRuns | src/rpc/handler.rs:234-260 | over every run: active until told to shut down, a goodbye or a rejection; deactivated exactly fifteen seconds after; meanwhile nothing but a goodbye may be dialed for |
| RpcFailures.KeepAliveOverRuns | src/rpc/handler.rs:510-533 | over every run the connection may go exactly when the grace is over, or a shutdown has begun, nothing is left and no dial was retried |
| RpcHandlers.RpcHandler.Poll | src/rpc/handler.rs:535-996 | leads from a reachable handler to a reachable one, with exactly the emitted events queued; one call is a sequence of steps, each called for by the clock or a substream, of which at most the last has an output and overtakes no queued event of its substream; a queued event comes first, then an expired shutdown timer; otherwise timeouts, inbound and outbound substreams, dialing and closing are done as far as they go |
| RpcPolls.StreamOrderly | src/rpc/handler.rs:553-962 | since the queue is empty when substreams are driven and each is driven once, an event returned directly overtakes none of its substream |
| RpcPolls.PolledSane | src/rpc/handler.rs:535-996 | a call to `poll` whose output overtakes nothing keeps every invariant |
| RpcPolls.QuietlySane | src/rpc/handler.rs:572-962 | so do its steps without output, queueing exactly what they emit |
| RpcHandlers.RpcHandler.InjectEvent | src/rpc/handler.rs:448-458 | requests, responses and shutdowns are the corresponding steps and keep every invariant |
| RpcHandlers.RpcHandler.Drive | src/rpc/handler.rs:573-996 | timeouts, inbound, outbound and dialing in that order, each as far as it goes unless an earlier one returns something |
| RpcHandlers.RpcHandler.Report | src/rpc/handler.rs:553-571 | the oldest queued event is returned, otherwise an expired shutdown timer deactivates the handler, otherwise nothing happens |
| RpcHandlers.RpcHandler.ExpireInbound | src/rpc/handler.rs:572-604 | exactly the expired inbound timers are handled, each as one step |
| RpcHandlers.RpcHandler.ExpireOutbound | src/rpc/handler.rs:606-632 | a timeout is returned if and only if some outbound timer has expired; it finds its substream, which is dropped and reported |
| RpcHandlers.RpcHandler.DriveInbound | src/rpc/handler.rs:639-801 | every inbound substream is still sending, has nothing to send, or is still closing afterwards; the finished ones are removed; no output |
| RpcHandlers.RpcHandler.DriveInboundStream | src/rpc/handler.rs:639-795 | the inner loop terminates, drives its substream as far as its I/O lets it, and touches no other |
| RpcHandlers.RpcHandler.DriveInboundOnce | src/rpc/handler.rs:640-792 | one turn is the steps its I/O calls for, never meets a poisoned state, and either leaves less to do or stops because the substream cannot go on |
| RpcHandlers.RpcHandler.FinishOneSend | src/rpc/handler.rs:705-785 | a completed send removes a closed or broken substream with its timer, or counts the chunk and resets the timer |
| RpcHandlers.RpcHandler.CloseOneIdle | src/rpc/handler.rs:664-701 | closing an idle substream of a deactivated handler removes it with its timer and reports an unfinished response |
| RpcHandlers.SendMessageToInboundSubstream | src/rpc/handler.rs:1013-1041 | when the substream is closed after a message, and which error wins |
| RpcHandlers.RpcHandler.DriveOutbound | src/rpc/handler.rs:804-962 | substreams are driven, each once, until the first that has something to report; if none has, all have been driven |
| RpcHandlers.RpcHandler.DriveOutboundStream | src/rpc/handler.rs:806-961 | a substream takes exactly the step that its state and its I/O call for, never from a poisoned state, and no other changes |
| RpcHandlers.RpcHandler.ReceiveChunk | src/rpc/handler.rs:830-880 | the substream stays open only for a success with more to come |
| RpcHandlers.StreamTerminationOf | src/rpc/outbound.rs:118-129 | only requests for blocks expect more than one response, so the unreachable arms are |
| RpcHandlers.RpcHandler.DialOrClose | src/rpc/handler.rs:964-992 | dials exactly when something is queued and the limit allows it, otherwise closes exactly when shutting down and drained |
| RpcHandlers.RpcHandler.ShutdownHandler | src/rpc/handler.rs:234-260 | queued requests fail from the back, the goodbye is queued, the state changes only from active |
| RpcHandlers.RpcHandler.FlushDialQueue | src/rpc/handler.rs:243-249 | the loop reports the whole queue in reverse |
| RpcHandlers.RpcHandler.SendRequestTo | src/rpc/handler.rs:263-274 | requests are queued when active and fail otherwise |
| RpcHandlers.RpcHandler.SendResponseTo | src/rpc/handler.rs:279-314 | responses are queued on a live substream unless deactivated; errors are reported back |
| RpcHandlers.RpcHandler.InjectFullyNegotiatedInbound | src/rpc/handler.rs:334-387 | a new inbound request is stored under a fresh timer key, rejected beyond 32, or ignored when not active; a goodbye shuts down |
| RpcHandlers.RpcHandler.InjectFullyNegotiatedOutbound | src/rpc/handler.rs:389-446 | the answer to a dial under way: the count does not underflow and every invariant is kept; it becomes a substream with a fresh timer if it expects a response; a deactivated handler also reports it as failed |
| RpcHandlers.RpcHandler.InjectDialUpgradeError | src/rpc/handler.rs:460-508 | likewise for a failed dial: I/O errors are retried twice without giving the slot back, otherwise the dial fails |
| RpcHandlers.RpcHandler.ConnectionKeepAlive | src/rpc/handler.rs:510-533 | the connection may go exactly when deactivated, or drained while shutting down |
| Pruning.PruneExcessPeers | src/peer_manager/mod.rs:860-1062 | quota, outbound floor, penalised peers before any other, worst first in both stages, nobody with a duty that is not past in either, exact number taken by the two, the rounds of stage three on fullest subnets with the least subscribed victims, committee floor, when duties are kept, maximality |
| Pruning.PrunePass | src/peer_manager/mod.rs:875-903 | one macro expansion: candidates only, within quotas, worst first; whoever is left over is held back by the outbound target |
| Pruning.PruneEarly | src/peer_manager/mod.rs:909-916 | both stages in sequence, each worst first, no peer with a duty, together as many as the quotas allow; whoever is passed over is held back by the outbound target |
| Pruning.PenalisedWereFirst | src/peer_manager/mod.rs:909-916 | a penalised peer without a duty is spared while a peer without a penalty goes only if it is outbound-only and the other is not |
| Pruning.ConsiderPeer | src/peer_manager/mod.rs:892-904 | an outbound-only peer goes only while the outbound target allows it |
| Pruning.EarlyCount | src/peer_manager/mod.rs:906-916 | stages one and two take min(quota, available) peers |
| Pruning.DutyPeerCanBePruned | src/peer_manager/mod.rs:920-1056 | with a target of one, a database of two connected peers one of which is pruned in spite of its duty |
| Pruning.DutiesKept | src/peer_manager/mod.rs:829-836 | duties are kept if stages one and two fill the quota or no peer with a duty is on an attestation subnet |
| Pruning.DutyIsLost | src/peer_manager/mod.rs:962-1055 | where only peers with a duty are on attestation subnets, stages one and two fall short, and one of those peers is not protected at that point, one is dropped |
| Pruning.BuildSubnetMaps | src/peer_manager/mod.rs:932-959 | the subnet lists, committee counts and committee sets describe exactly the peers not yet selected |
| Pruning.RegisterPeer | src/peer_manager/mod.rs:943-958 | adding one peer keeps the three maps exact |
| Pruning.PruneSubnets | src/peer_manager/mod.rs:962-1055 | the loop terminates; its rounds start from the unselected peers by subnet and each is one of `PruneRound`; it takes peers on attestation subnets only; floors and quota hold; falling short means everybody left on a subnet is protected |
| Pruning.PruneRound | src/peer_manager/mod.rs:963-1051 | one turn on a fullest subnet drops an unprotected peer with the fewest subnets from all lists, or clears a list of protected ones; the lists shrink |
| Pruning.ChooseOnSubnet | src/peer_manager/mod.rs:969-1019 | the victim is unprotected with the fewest long-lived subnets; no victim means everybody listed is protected |
| Pruning.FindVictim | src/peer_manager/mod.rs:980-1019 | the first eligible peer of the list |
| Pruning.EligibleIffNotProtected | src/peer_manager/mod.rs:982-1011 | the tests on counters decide protection exactly |
| Pruning.ProtectedMonotone | src/peer_manager/mod.rs:982-1011 | a protected peer stays protected as more peers are selected |
| Pruning.SelectVictim | src/peer_manager/mod.rs:1025-1044 | selecting a peer keeps all maps and floors |
| Pruning.DropFromCommittees | src/peer_manager/mod.rs:1032-1043 | committee counts stay equal to the true counts |
| Pruning.ClearingKeepsInv | src/peer_manager/mod.rs:1045-1047 | clearing a list of protected peers keeps the invariant |
| Pruning.FloorAfterSelecting | src/peer_manager/mod.rs:997-1013 | an unprotected peer can go without any committee falling below min(2, its start) |
| Pruning.OutboundFloor | src/peer_manager/mod.rs:894-902 | remaining outbound-only peers are at least min(initial, target) |
| Pruning.StillHeldBack | src/peer_manager/mod.rs:881-904 | candidates held back by a pass are still held back at the end |
| Orders.ShuffleAndSort | src/peer_manager/peerdb.rs:278-288 | shuffling and sorting yields some sorted listing of the set |
| PeerInfos.LongLivedSubnets | src/peer_manager/peerdb/peer_info.rs:162-197 | every advertised long-lived subnet exactly once: those of the METADATA if it is known, otherwise of the ENR |
| PeerInfos.PushSetBits | src/peer_manager/peerdb/peer_info.rs:166-171 | one subnet per set bit |
| PeerInfos.SubnetCountIs | src/peer_manager/peerdb/peer_info.rs:150-159 | the count by which stage three orders peers is the number of attestation subnets they are listed on |
| PeerInfos.HasLongLivedSubnetIff | src/peer_manager/peerdb/peer_info.rs:205-229 | what spares a peer in stage two, in terms of the subnets stage three lists it on |
| Scores.RealScore.constructor | src/peer_manager/peerdb/score.rs:143-153 | a fresh score is zero |
| Scores.RealScore.RecomputeScore | src/peer_manager/peerdb/score.rs:157-166 | the total is the lighthouse score plus the counted gossipsub part |
| Scores.RealScore.UpdateState | src/peer_manager/peerdb/score.rs:200-208 | crossing the ban threshold freezes the score for twelve hours |
| Scores.RealScore.SetLighthouseScore | src/peer_manager/peerdb/score.rs:182-185 | the total follows the new lighthouse score |
| Scores.RealScore.Add | src/peer_manager/peerdb/score.rs:188-197 | additions are clamped to [-100, 100] |
| Scores.RealScore.ApplyPeerAction | src/peer_manager/peerdb/score.rs:173-180 | each action's penalty |
| Scores.RealScore.UpdateAt | src/peer_manager/peerdb/score.rs:237-254 | decay is skipped while the score is frozen |
| Scores.RealScore.UpdateGossipsubScore | src/peer_manager/peerdb/score.rs:256-264 | so are gossipsub updates |
| Scores.AfterStaysReachable | src/peer_manager/peerdb/score.rs:157-264 | reports, ticks and gossipsub updates keep the total in sync and the lighthouse score in [-100, 0] |
| Scores.RunStaysReachable | src/peer_manager/peerdb/score.rs:143-264 | so do whole runs from a fresh score |
| Scores.CrossingFreezes | src/peer_manager/peerdb/score.rs:200-208 | crossing the threshold sets the thaw time |
| Scores.FrozenStepStaysBanned | src/peer_manager/peerdb/score.rs:237-264 | no event before the thaw time lifts the ban |
| Scores.BanLastsTwelveHours | src/peer_manager/peerdb/score.rs:34-264 | after crossing, every interleaving before twelve hours after the last update leaves the state banned |
| Scores.DecayNeverPenalises | src/peer_manager/peerdb/score.rs:237-254 | with a non-positive lighthouse score, decay never worsens the state |
| Scores.TickNeverPenalisesOnAnyRun | src/peer_manager/peerdb/score.rs:231-254 | hence after any run |
| Scores.DecayCanPenalisePositiveScores | src/peer_manager/peerdb/score.rs:244-253 | the sign condition is needed |
| Scores.GossipAloneDisconnectsIff | src/peer_manager/peerdb/score.rs:36-40 | exactly when a gossipsub score alone disconnects |
| Scores.GossipUpdateDecides | src/peer_manager/peerdb/score.rs:256-264 | a gossipsub update that is due decides, by that threshold, on a peer with a clean record |
| Scores.LighthouseAloneBans | src/peer_manager/peerdb/score.rs:23-26 | from -60 down a lighthouse score bans whatever gossipsub says; above it a good gossipsub score can save the peer |
| Scores.ToleratedIff | src/peer_manager/peerdb/score.rs:46-65 | exactly how many reports of each kind disconnect and ban: one fatal, two and five, four and ten, twenty and fifty |
| Scores.TicksRecover | src/peer_manager/peerdb/score.rs:237-254 | ticks that are due multiply the lighthouse score by their factors, however spread, so without gossipsub a ban ends exactly when the product brings it above -50 |
| PeerTables.AddBannedPeer | src/peer_manager/peerdb.rs:1228-1233 | the loop adds one per seen socket address |
| PeerTables.RemoveBannedPeer | src/peer_manager/peerdb.rs:1219-1226 | and takes one off, saturating |
| PeerTables.DisconnectedAfterUpdate | src/peer_manager/peerdb.rs:680-979 | every transition keeps the disconnected count equal to the number of disconnected entries |
| PeerTables.ExcessAfterUpdate | src/peer_manager/peerdb.rs:680-979 | every transition keeps the ban count's excess, except banned to disconnecting, which adds one |
| PeerTables.ExcessOnAfterUpdate | src/peer_manager/peerdb.rs:680-979 | likewise per IP address, by the number of seen socket addresses |
| PeerTables.UpdateKeepsCounted | src/peer_manager/peerdb.rs:680-979 | all counters stay honest |
| PeerTables.EvictionBounded | src/peer_manager/peerdb.rs:984-1066 | at most 1000 banned and 500 disconnected peers remain, oldest dropped first, others untouched, the report is exactly the dropped banned peers, each with its seen addresses that are not banned after its removal |
| PeerTables.UnbannedIpsAre | src/peer_manager/peerdb.rs:1025-1028 | the addresses reported as free are the seen ones with at most five bans on them |
| PeerTables.DropBanned | src/peer_manager/peerdb.rs:1013-1041 | dropping a banned peer with its share keeps every excess |
| PeerTables.ResetBans | src/peer_manager/peerdb.rs:1031-1036 | the reset happens with no banned peer left and makes the counters exact |
| PeerTables.KindCount | src/peer_manager/peerdb.rs:253-266 | the sums behind the counters are numbers of peers |
| PeerDbs.PeerDb.constructor | src/peer_manager/peerdb.rs:47-58 | trusted peers only, zero counters |
| PeerDbs.PeerDb.UpdateConnectionState | src/peer_manager/peerdb.rs:680-979 | the new record, counters and ban operation of all six by six transitions |
| PeerDbs.PeerDb.ShrinkBans | src/peer_manager/peerdb.rs:1012-1042 | the loop ends at 1000, drops the longest banned first, names them once each with the addresses no longer banned, and keeps or clears the excess |
| PeerDbs.PeerDb.ShrinkDisconnected | src/peer_manager/peerdb.rs:1044-1063 | the loop ends at 500, longest disconnected first, and always finds one to drop |
| PeerDbs.PeerDb.ShrinkToFit | src/peer_manager/peerdb.rs:1005-1066 | both in sequence |
| PeerDbs.PeerDb.InjectDisconnect | src/peer_manager/peerdb.rs:984-993 | the transition and then the eviction |
| PeerDbs.PeerDb.NotifyDisconnecting | src/peer_manager/peerdb.rs:997-999 | the disconnecting transition |
| PeerDbs.ConnectIngoing | src/peer_manager/peerdb/peer_info.rs:426-442 | connection counts, direction of the first connection, seen address |
| PeerDbs.ConnectOutgoing | src/peer_manager/peerdb/peer_info.rs:446-462 | likewise outgoing |
| PeerDbs.PeerDb.ReportPeer | src/peer_manager/peerdb.rs:514-566 | the penalty and the transition it causes; unknown peers are ignored |
| PeerDbs.PeerDb.UpdateScores | src/peer_manager/peerdb.rs:367-414 | every untrusted score decays, exactly the peers whose ban ends are unbanned, and the banning branch is dead |
| PeerDbs.PeerDb.UpdateGossipsubScores | src/peer_manager/peerdb.rs:419-504 | connected peers best first, the first negatives forgiven, then the transitions acted on |
| PeerDbs.PeerDb.ScoreListed | src/peer_manager/peerdb.rs:441-462 | the counting loop forgives exactly the first negatives |
| PeerDbs.PeerDb.CleanupDialingPeers | src/peer_manager/peerdb.rs:330-349 | exactly the peers dialing for over fifteen seconds become disconnected |
| PeerReports.ReportNeverUnbans | src/peer_manager/peerdb.rs:553-558 | a report never improves the state, so its unbanning branch is dead |
| PeerReports.TickNeverBans | src/peer_manager/peerdb.rs:379-388 | a tick never worsens the state, so its banning branch is dead |
| PeerReports.ForgivesTheBest | src/peer_manager/peerdb.rs:438-456 | no unforgiven negative peer outranks a forgiven one |
| PeerReports.ForgivesAllowed | src/peer_manager/peerdb.rs:438-456 | as many negative scores are forgiven as allowed, or all |
| PeerRuns.CountersOverRuns | src/peer_manager/peerdb.rs:680-1066 | over every run of the peer manager: disconnected count exact; the excess of the ban counters, in total and per address, is exactly the drift of the leaking calls and evictions; all counters exact if and only if the drift is zero; up to a thousand leaks it is the number of leaks |
| PeerRuns.LeakIsReal | src/peer_manager/peerdb.rs:866-869 | every leaking call adds one to the excess and the peer's seen addresses to theirs |
| PeerWitnesses.LeakReachable | src/peer_manager/peerdb.rs:866-869 | a run, under one configuration and a clock that never goes back, on which a call leaks: a peer is banned, its score thaws at the tick thirteen hours later while it is still disconnecting, it is closed as banned, another peer takes the only slot, and the banned peer is turned away |
| PeerWitnesses.ExitReachable | src/peer_manager/peerdb.rs:789-800 | likewise a run on which a banned peer is dialed and stays announced as banned |
| PeerRuns.AnnouncementsOverRuns | src/peer_manager/mod.rs:197-263 | over every run the last announcement about a banned peer is its ban; a peer is announced without being banned if and only if it left silently at some call and nothing has been said about it since |
| PeerRuns.StaleStep | src/peer_manager/mod.rs:197-263 | per call: an announcement is stale afterwards if and only if nothing is said about the peer and it was stale before or leaves silently now |
| PeerRuns.SwarmAgreesWithoutExits | src/network/mod.rs:1331-1340 | without silent exits, after all events the swarm bans exactly the banned peers |
| PeerRuns.ExitsAreSilent | src/peer_manager/peerdb.rs:740-800 | every silent exit leaves the announcement standing |
| PeerMoves.CallMoves | src/peer_manager/network_behaviour.rs:103-263 | every call moves every peer by at most one transition, for a reason, with its announcement: a connection exactly if one is admitted, the end of the last one, an instruction to disconnect, an unban |
| PeerStandings.ConnectionsOverRuns | src/peer_manager/peerdb/peer_info.rs:426-462 | over every run: the counters of a connected peer are, modulo 256, the incoming and outgoing connections announced since it last was not connected, its direction that of the first; outbound-only exactly for outgoing and no incoming ones |
| PeerStandings.SinceOverRuns | src/peer_manager/peerdb.rs:680-979 | over every run the time of a dialing, disconnected or banned peer is that of the call that led into that state, for a lifted ban that of the ban |
| PeerStandings.SeenOverRuns | src/peer_manager/peerdb/peer_info.rs:426-462 | over every run the seen addresses are those of the connections admitted since the peer became known |
| PeerStandings.NoticesOverRuns | src/peer_manager/network_behaviour.rs:189-221 | over every run the last notice about a connected peer is its connection; without evictions and dials failing during a disconnection, a peer last noticed as connected is connected or being disconnected |
| PeerStandings.AdmittedIff | src/peer_manager/network_behaviour.rs:137-186 | a connection is admitted exactly if the peer is neither banned by score nor by address and there is room in its direction or a duty that is not past; without room it is told there are too many peers, and one disconnected for being unwelcome that its address is banned |
| PeerStandings.CleanupIff | src/peer_manager/peerdb.rs:330-349 | exactly the peers dialed for more than fifteen seconds are disconnected, the others untouched |
| PeerStandings.ClosedForgetsSubnets | src/peer_manager/peerdb.rs:828-859 | a peer whose connection is gone keeps its record except for its state and its subnet subscriptions |
| PeerStandings.DialRemembers | src/peer_manager/peerdb.rs:788-821 | dialing records a given ENR and the mark of trust, and no score but that of a trusted newcomer |
| PeerBans.CallSettles | src/peer_manager/peerdb.rs:1070-1108 | at every call: crossing the ban threshold condemns the peer and nothing else does, recovering lifts the ban, and falling from healthy to disconnected starts the disconnection |
| PeerBans.CondemnedIsToldToGo | src/peer_manager/mod.rs:235-263 | a peer condemned while connected or dialed is told to disconnect |
| PeerBans.CondemnedStep | src/peer_manager/peerdb.rs:680-979 | closing bans a condemned peer and disconnects any other |
| PeerBans.CondemnedStays | src/peer_manager/peerdb.rs:828-936 | over every run a condemned peer stays condemned until it connects again, is dialed or is announced as unbanned |
| PeerBans.CondemnedByScore | src/peer_manager/peerdb.rs:1070-1108 | over every run only peers whose score has crossed the threshold are condemned, and at that very call |
| PeerBans.TrustedNeverBanned | src/peer_manager/peerdb/peer_info.rs:77-83 | over every run a peer trusted from the start is never banned nor disconnected to be banned |
| PeerBans.TrustedScoreKept | src/peer_manager/peerdb/peer_info.rs:384-396 | only gossipsub updates change the score of a peer marked as trusted |
| PeerSystems.CallEffect | src/peer_manager/network_behaviour.rs:119-259 | every call keeps the counters and announces every ban change except the silent exits |
| PeerSystems.CallKeepsSound | src/peer_manager/network_behaviour.rs:119-259 | every call keeps what the next call needs: honest counters and reachable scores |
| PeerSystems.UpdateEffect | src/peer_manager/peerdb.rs:828-975 | every transition with its ban operation does |
| PeerSystems.ShrunkEffect | src/peer_manager/mod.rs:678-699 | eviction announces exactly the purged peers as unbanned |
| PeerSystems.ReportEffect | src/peer_manager/mod.rs:178-194 | reports neither leak nor exit silently |
| PeerSystems.TickEffect | src/peer_manager/mod.rs:1082-1086 | nor do heartbeat ticks |
| PeerSystems.GossipEffect | src/peer_manager/mod.rs:617-627 | nor do gossipsub updates, although the database is changed for all peers before any event is queued |
| PeerRuns.StepEffect | src/peer_manager/network_behaviour.rs:97-98 | delivering an event changes neither the database nor the log |
| PeerManagers.PeerManager.HandleBanOperation | src/peer_manager/mod.rs:235-263 | the event of each ban operation |
| PeerManagers.PeerManager.HandleScoreAction | src/peer_manager/mod.rs:197-232 | the event of each score result |
| PeerManagers.PeerManager.ReportPeer | src/peer_manager/mod.rs:178-194 | one call of the system |
| PeerManagers.PeerManager.UpdateScores | src/peer_manager/mod.rs:1082-1086 | one call of the system |
| PeerManagers.PeerManager.UpdateGossipsubScores | src/peer_manager/mod.rs:617-627 | one call of the system |
| PeerManagers.PeerManager.InjectDisconnect | src/peer_manager/mod.rs:678-699 | the ban event first, then the purged peers |
| PeerManagers.PeerManager.InjectConnectionEstablished | src/peer_manager/network_behaviour.rs:119-187 | banned scores and addresses are sent goodbye, the limits turn peers without a duty away, others are registered |
| PeerManagers.PeerManager.Admit | src/peer_manager/network_behaviour.rs:137-186 | the database and the events of admitting, turning away or banning one connection |
| PeerManagers.PeerManager.InjectConnectionClosed | src/peer_manager/network_behaviour.rs:189-221 | nothing while connections remain, otherwise the disconnection |
| PeerManagers.PeerManager.InjectDialFailure | src/peer_manager/network_behaviour.rs:252-263 | only for peers that are not connected |
| PeerManagers.PeerManager.DialPeer | src/peer_manager/network_behaviour.rs:103-111 | the dialing transition |
| PeerManagers.PeerManager.GracefullyDisconnect | src/peer_manager/mod.rs:745-752 | the event and the disconnecting transition |
| PeerManagers.PeerManager.PruneExcessPeers | src/peer_manager/mod.rs:860-1062 | exactly the selection of a pruning round, with all its clauses, is told to disconnect, once each; exactly the other connected peers stay, at least the target and the outbound target |
| PeerManagers.StillConnected | src/peer_manager/mod.rs:1058-1061 | disconnecting the selection leaves exactly the other connected peers, as they were |
| RateLimiter.Limiter.constructor | src/rpc/rate_limiter.rs:241-260 | no key has an arrival time |
| RateLimiter.Limiter.Allows | src/rpc/rate_limiter.rs:262-297 | arrival times and verdict, with 64-bit wrap-around |
| RateLimiter.Limiter.Prune | src/rpc/rate_limiter.rs:300-304 | exactly the keys with an arrival time before the limit are forgotten |
| RateLimiter.RefinesLeakyBucket | src/rpc/rate_limiter.rs:262-304 | every verdict on every trace is that of an independent leaky bucket per key, whatever other keys and prunes do |
| RateLimiter.AgreesOnTrace | src/rpc/rate_limiter.rs:262-304 | the simulation relation between arrival time and bucket level |
| RateLimiter.GrantsAccumulate | src/rpc/rate_limiter.rs:285-296 | each grant pushes the emptying time out by its cost |
| RateLimiter.WindowBound | src/rpc/rate_limiter.rs:241-297 | cost granted to a key between two grants is at most `tau` plus the elapsed time |
| RateLimiter.BucketUntouched | src/rpc/rate_limiter.rs:285-291 | rejections consume nothing |
| RateLimiter.WaitIsExact | src/rpc/rate_limiter.rs:286-291 | after `TooSoon(w)`, without another grant, the request is accepted if and only if `w` has passed |
| RateLimiter.QuotaAcceptedIff | src/rpc/rate_limiter.rs:241-260 | exactly which quotas are refused |
| RateLimiter.QuotaBoundsRate | src/rpc/rate_limiter.rs:241-297 | between two grants of a key, the tokens granted, at the quota's time for one each, fit into its replenishment time plus the elapsed time |
| RateLimiter.QuotaRefills | src/rpc/rate_limiter.rs:241-297 | a request for at most the quota's tokens is allowed once their time, hence once the replenishment time, has passed since every earlier grant of the key |
| RateLimiter.BurstNeverTooLarge | src/rpc/rate_limiter.rs:241-280 | a burst within the quota is never too large, whatever the table and the clock |
| RateLimiter.BurstLimitIsSharpIff | src/rpc/rate_limiter.rs:241-280 | bursts over `max_tokens` are ruled out if and only if the token time exceeds the remainder |
| RateLimiter.BurstLimitCanBeLoose | src/rpc/rate_limiter.rs:252-280 | three tokens every five nanoseconds let a burst of five through |
| RateLimiter.OversizedGrantedIff | src/rpc/rate_limiter.rs:268-296 | whatever the table: an oversized request is too large if and only if the wrapped product is, and granted if and only if that fits at the key's arrival time |
| RateLimiter.OversizedEverGrantedIff | src/rpc/rate_limiter.rs:268-296 | an oversized request passes for some table, time and key if and only if its product wraps to at most `tau` |
| RateLimiter.OversizedCanBeGranted | src/rpc/rate_limiter.rs:268-296 | an instance |
| RateLimiter.ClockWrapDoublesBurst | src/rpc/rate_limiter.rs:285-294 | in the last nanosecond of a 64-bit clock two full bursts pass at once |
| Discoveries.Discovery.constructor | src/discovery/mod.rs:179-300 | nothing queued, nothing active |
| Discoveries.Discovery.AddSubnetQuery | src/discovery/mod.rs:578-614 | the query of that subnet is updated in place or appended; too many retries end it |
| Discoveries.Discovery.DiscoverSubnetPeers | src/discovery/mod.rs:333-345 | each requested subnet is queued with no retries |
| Discoveries.Discovery.DiscoverPeers | src/discovery/mod.rs:320-330 | one search for peers at a time |
| Discoveries.Discovery.StartQuery | src/discovery/mod.rs:723-774 | nothing starts without subnets or fork id |
| Discoveries.Discovery.StartSubnetQuery | src/discovery/mod.rs:663-720 | subnets with enough peers are left out |
| Discoveries.Discovery.ProcessQueue | src/discovery/mod.rs:620-652 | popping one by one into groups equals cutting groups of three off the unexpired queue while there is capacity |
| Discoveries.Discovery.ProcessCompletedQuery | src/discovery/mod.rs:777-906 | queries of a successful search are queued again with one more retry, and its peers are reported with a furthest time |
| Discoveries.MapResults | src/discovery/mod.rs:830-895 | per peer a furthest `min_ttl` among its hits, up to a millisecond |
| Discoveries.HitsAre | src/discovery/mod.rs:840-856 | a hit is a found peer serving the subnet of a query |
| Discoveries.UpsertKeepsQueueOk | src/discovery/mod.rs:578-614 | one entry per subnet, and exactly the requested subnet is added |
| Discoveries.UpsertTotal | src/discovery/mod.rs:578-614 | merging adds at most what the new entry allows |
| Discoveries.UpsertKeepsFurthest | src/discovery/mod.rs:578-614 | merging keeps the further of the two times and the new number of retries, and changes no other entry |
| Discoveries.RequestsKeepFurthest | src/discovery/mod.rs:333-345 | after a request every requested subnet is queued at least as long as asked for and without retries, nothing is wanted less long than before, and no time is invented |
| Discoveries.RequeuedAre | src/discovery/mod.rs:803-850 | the queries of a successful search return with one more retry and at least their time, except those that have had their four searches |
| Discoveries.CompletionReturns | src/discovery/mod.rs:803-903 | a failed search returns none of its queries |
| Discoveries.DispatchLosesNothing | src/discovery/mod.rs:620-652 | the queue is the handed groups followed by what is left; groups of three, fewer only to empty the queue; stops only at capacity or empty |
| Discoveries.DispatchSearches | src/discovery/mod.rs:620-774 | what is searched for afterwards: what was before, followed by the handed queries that still need peers, or by nothing without a fork id |
| Discoveries.PoppedIsSearchedIff | src/discovery/mod.rs:620-774 | a query is searched for afterwards if and only if it was before, or was handed with a fork id and fewer good peers on its subnet than the target |
| Discoveries.ProcessingKeepsWanted | src/discovery/mod.rs:620-652 | what is handed out followed by what stays queued is, in order, exactly the queries without a time or with one that is not past |
| Discoveries.VanishesIffPast | src/discovery/mod.rs:85-93 | a queued query vanishes without being handed out if and only if its time is past |
| Discoveries.SearchedAfterIff | src/discovery/mod.rs:620-774 | what is searched for after processing: what was before, and what was handed out with a fork id and too few good peers |
| Discoveries.DispatchPotential | src/discovery/mod.rs:620-652 | dispatching creates no potential |
| Discoveries.CompletionLowersPotential | src/discovery/mod.rs:803-903 | completing a subnet search strictly lowers the potential, even when queries merge |
| Discoveries.StepKeepsInv | src/discovery/mod.rs:578-660 | every step keeps the scheduler's invariant; when it gets stuck |
| Discoveries.RunKeepsInv | src/discovery/mod.rs:578-660 | over every run at most two subnet searches, or three once a request for peers was lost |
| Discoveries.RoomForThirdIffStuck | src/discovery/mod.rs:655-660 | the capacity test lets a third search in exactly in the stuck state |
| Discoveries.CapacityIff | src/discovery/mod.rs:655-660 | there is capacity exactly for fewer than two subnet searches, three once stuck |
| Discoveries.ThirdSearchStarts | src/discovery/mod.rs:620-660 | and then it starts |
| Discoveries.ThirdSearchReachable | src/discovery/mod.rs:320-330 | a run, for a local ENR without a fork id, with three searches under way |
| Discoveries.TwoSearchesWithForkId | src/discovery/mod.rs:320-330 | over every run whose requests for peers find a fork id, no request is lost and at most two subnet searches are under way, where the capacity test stops the next |
| Discoveries.SearchesBounded | src/discovery/mod.rs:578-903 | over every run at most four searches per requested subnet |
| GossipCaches.GossipCache.constructor | src/network/gossip_cache.rs:116-141 | empty, with the timeouts built |
| GossipCaches.Builder.DefaultTimeout | src/network/gossip_cache.rs:62-67 | keeps every kind without a timeout of its own that long |
| GossipCaches.Builder.BeaconBlockTimeout | src/network/gossip_cache.rs:68-72 | sets how long blocks are kept and nothing else |
| GossipCaches.Builder.AggregatesTimeout | src/network/gossip_cache.rs:74-78 | sets how long aggregates are kept and nothing else |
| GossipCaches.Builder.AttestationTimeout | src/network/gossip_cache.rs:80-84 | sets how long attestations are kept and nothing else |
| GossipCaches.Builder.VoluntaryExitTimeout | src/network/gossip_cache.rs:86-90 | sets how long voluntary exits are kept and nothing else |
| GossipCaches.Builder.ProposerSlashingTimeout | src/network/gossip_cache.rs:92-96 | sets how long proposer slashings are kept and nothing else |
| GossipCaches.Builder.AttesterSlashingTimeout | src/network/gossip_cache.rs:98-102 | sets how long attester slashings are kept and nothing else |
| GossipCaches.Builder.SignedContributionAndProofTimeout | src/network/gossip_cache.rs:104-108 | sets how long signed contributions are kept and nothing else |
| GossipCaches.Builder.SyncCommitteeMessageTimeout | src/network/gossip_cache.rs:110-114 | sets how long sync committee messages are kept and nothing else |
| GossipCaches.GossipCache.Insert | src/network/gossip_cache.rs:151-178 | the message is cached until now plus its kind's timeout; re-insertion only moves the deadline; kinds without timeout are not cached |
| GossipCaches.GossipCache.Retrieve | src/network/gossip_cache.rs:181-190 | hands out and removes exactly the messages of the topic with their timers |
| GossipCaches.GossipCache.DropTimer | src/network/gossip_cache.rs:199-216 | a fired timer is registered under its own key, so the panic and the debug assertion are dead |
| GossipCaches.GossipCache.PollNext | src/network/gossip_cache.rs:196-221 | an expired message leaves, or none has expired |
| GossipCaches.Register | src/network/gossip_cache.rs:166-176 | a new entry keeps the bijection |
| GossipCaches.Unregister | src/network/gossip_cache.rs:181-190 | removing messages with their timers keeps it |
| GossipCaches.EachStoredMessageLeavesOnce | src/network/gossip_cache.rs:151-221 | over every run, stores equal departures plus presence |
| GossipCaches.DeadlineFollowsLastOffer | src/network/gossip_cache.rs:166-172 | a cached message expires its timeout after the last offer |
| Topics.JoinSplit | src/types/topics.rs:104-105 | splitting at slashes loses nothing |
| Topics.HexRoundTrip | src/types/topics.rs:106-117 | hex digits decode to the bytes they print |
| Topics.HexCanonicalIff | src/types/topics.rs:106-117 | decoded hex prints back unchanged exactly in lower case |
| Topics.HexAcceptsIff | src/types/topics.rs:106-107 | exactly strings of pairs of hex digits decode, to one byte each |
| Topics.DigitsRoundTrip | src/types/topics.rs:217-234 | decimal numbers parse to what they print |
| Topics.DigitsOfValue | src/types/topics.rs:217-234 | canonical decimals print back unchanged |
| Topics.KindRoundTrip | src/types/topics.rs:123-137 | every kind is recognised, the exact names before the prefixes |
| Topics.KindCanonicalIff | src/types/topics.rs:123-137 | which accepted kinds print back unchanged |
| Topics.KindAcceptedIff | src/types/topics.rs:123-137 | exactly which names are accepted as which kind: the six fixed ones, and the two prefixes, possibly repeated, before a number below 2^64 with or without a plus sign |
| Topics.SplitPrinted | src/types/topics.rs:171-198 | a printed topic has exactly five parts |
| Topics.TopicRoundTrip | src/types/topics.rs:103-198 | decoding a printed topic returns it, for every kind, u64 subnet and 4-byte digest |
| Topics.DecodedIff | src/types/topics.rs:103-148 | exactly which strings decode to which topic |
| Topics.PrintInjective | src/types/topics.rs:171-198 | different topics have different names |
| Topics.DecodeThenPrintIff | src/types/topics.rs:103-198 | exactly which accepted names print back unchanged |
| Topics.DecodeIgnoresLeadingPart | src/types/topics.rs:104-107 | anything before the first slash is ignored |

## Left out

- libp2p swarm, transport, identify, wakers, logging and metrics: plumbing without logic of its own.
- SSZ and snappy codecs: only that the response decoder yields successes and errors is used.
- Gossipsub scoring parameters, ENR building, key loading, metadata files, multiaddr parsing: a connection's socket address is a parameter.
- `maintain_peer_count`, `maintain_sync_committee_peers`, ping and status timers, `handle_rpc_error`, the sentry command loop: small and flat. The heartbeat is the sequence of the calls modelled here.
- Errors of the timer queues inside the handler's `poll`, which close the connection: tokio's queue reports none.
- Sync status, client, listening addresses and sequence numbers of a peer: no modelled decision reads them. Bookkeeping that only touches those is the `Touch` call.
- Records nested in maps (peers, scores inside peers, substreams) are values that the methods write back, so aliasing of a borrowed record is not modelled.
- Lists of IP addresses in ban events are sets: the order and repetition of addresses is not modelled.
- Scores are reals and the decay factor is any function of the elapsed seconds into (0, 1] that is 1 at zero; floating-point rounding is not modelled.
- Peer limits derived with `ceil` on floats are given natural numbers.
- The repeated reads of the database during pruning are one snapshot.
- A run of the peer manager delivers events in order but does not model what the swarm does with them beyond banning and unbanning.
- RateLimiter.RefinesLeakyBucket: holds for traces on which no 64-bit operation overflows; what happens to oversized requests beyond is stated by OversizedGrantedIff.
- RateLimiter.AgreesOnTrace: likewise.
- RateLimiter.GrantsAccumulate: likewise.
- RateLimiter.WindowBound: likewise; both halves of the condition are needed (OversizedCanBeGranted, ClockWrapDoublesBurst).
- RateLimiter.BucketUntouched: likewise.
- RateLimiter.WaitIsExact: likewise.
- Pruning.DutiesKept: the condition is sufficient; its converse is proved only where stage three has no other peers to choose from (DutyIsLost), because otherwise whether it meets a peer with a duty depends on its random choices.
