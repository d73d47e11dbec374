# Open Diameter: a verified model

Open Diameter implements the Diameter base protocol (RFC 3588) in C++. This project models the parts of
it that carry hard state and proves what they keep over every run. Where the code and the text of the RFC
or of its own comments differ, the model follows the code.

| file | what it models |
|---|---|
| `Election.dfy` | the octet comparison that settles a simultaneous open |
| `PeerFsm.dfy` | the peer state machine: table, actions, event queue, as functions on values |
| `PeerSafety.dfy` | timers, transports and their conservation over every run of one peer |
| `PeerMachine.dfy` | the same machine as an object whose methods change its fields and search the built table, refining `PeerFsm` |
| `PeerAnswers.dfy` | what every event and every arriving message must lead to, told from the protocol and not from the table; what is sent in every run; reconnecting |
| `TwoPeers.dfy` | two peers and the two connections between them: the network and its invariant |
| `Convergence.dfy`, `Deadlock.dfy` | agreement, termination and outcome of every run of the two peers, and exactly when |
| `StateTable.dfy`, `PeerTable.dfy` | state tables with specific and wildcard entries; the peer's table, built entry by entry |
| `QueueJob.dfy` | the two-level weighted priority queue |
| `Pending.dfy`, `DeliveryChain.dfy` | pending requests of a delivery node: storing, sweeping, answering; the chain of such nodes |
| `RouteNetwork.dfy` | routing decisions of a node, and how far a request travels in a network |
| `RouteServers.dfy` | the metric-ordered server list and the router's choice |
| `MsgIds.dfy` | hop-by-hop and end-to-end identifiers of the base protocol |
| `SessionCounter.dfy`, `SessionId.dfy` | session identifiers: counter, list, printer and parser |
| `Utf8.dfy` | the UTF-8 checker against RFC 2279 |

`dafny verify dfyconfig.toml` checks everything.

## How the model is built

- The event order is the code's: an event changes the state first and runs the action second; `Cleanup`
  with the FSM bit sends the state back to CLOSED in the middle of an action.
- Each mutex-guarded method is one atomic step. Timers are a map from timer type to period. Time, the
  identifier generators, the transport layer and the verdict of `ValidatePeer` come in as parameters or
  message fields. `Notify` posts only while the machine runs.
- A transport is a number. Assigning an event's transport to a member destroys what the member held;
  handing a member to the garbage collector empties it. `trash` collects both.
- In the network of two peers a released transport stays open for the collector's grace period and is
  then gone: its far end reads the end of the stream. Until the CER has been read the accepting side's
  pending responder owns the transport.
- C++ `char` may be signed: each side of an election carries its own choice as a parameter.
  `std::string::npos`, `unsigned long` and `size_t` may have 32 or 64 bits: session identifiers and the
  priority queue carry that.
- A call that blocks in the original ends in the model with the status that it waits, and changes nothing.

## Where the code does less than one might expect

- A connection NACK in WAIT_CONN_ACK_ELECT opens the peer as responder but replaces the accepted
  responder by the NACK's empty transport (`OpenResponder` says exactly when R_OPEN has a responder;
  `NackLosesResponder` is a run). The peer then sends without a transport, and no other run ever does
  (`SendsBareAfterNack`).
- A CER that is not acceptable in WAIT_I_CEA leads to CLOSED with the initiator still held
  (`ClosedInitiator` says exactly when; `RejectedCerKeepsInitiator` is a run). It may be held up to R_OPEN
  and CLOSING: `TransportsFollowPast` says in which runs.
- Hosts that differ only in trailing 0x08 octets tie: nobody wins the election and both sides wait in
  WAIT_RETURNS (`NobodyWinsDeadlocks`). The comment in the source speaks of padding with zeros, the code
  pads with 0x08.
- Between a compiler with signed `char` and one without, names that first differ across 0x80 make both
  sides win or neither (`MixedSignsFail`). If both win, both open, on different connections, and close
  again (`BothWinDisagree`, `CutCloses`). `AgreesUnlessBothWin` and `OpensUnlessTie` say exactly for which
  hosts two peers agree and open.
- A relaying node appends its own identity as Route-Record, where the comment it carries says the
  identity of the peer it received the request from; the node named by Origin-Host neither checks for
  loops nor appends. `OriginForwardsTwice` says exactly which node can forward which request twice.
- Base protocol identifiers are not matched as pairs, and an answer with a known hop-by-hop identifier
  uses that up even if it is rejected (`AcceptedMeansOpen`, `MixedAnswerIsAccepted`).
- Where npos has 64 bits, the Session-Id parser does not notice a missing semicolon: malformed texts
  are accepted and an empty optional value is read back as the whole text (`Cut`, `RoundTrip`).
- The UTF-8 checker does not ask for the shortest form: the texts it accepts that are encodings are
  exactly those without an overlong sequence (`EncodingsAreShortest`).
- A pending request whose identifier is already in flight is not stored (`FreshIdsAreHeld`), but when it is
  forwarded its message replaces that of the request that holds the identifier: an answer brings back the
  matched request's own message exactly if the identifier was not used again (`OwnMessageUnlessReused`,
  `ReusedIdSwapsMessages`).
- An entry of a weight beyond the queue's own is taken: the counting invariant survives it exactly if it
  does no harm in the sense of `Harmless` (`EnqueueInvUnlessHarmful`).
- A Session-Id made of an identity with a semicolon is read back with another identity
  (`SemicolonLosesIdentity`).
- The local store of the delivery chain is keyed by identifiers that peers chose, and comes first: an
  answer reaches the request that holds its identifier exactly if no earlier store holds it too
  (`AnswerReachesUnlessShadowed`); `LocalTakesForwardedAnswer` is a run where one does.
- The priority queue's error branch is reached by a non-blocking dequeue of an empty queue after a signal,
  and never else (`ErrorBranch`). With a `size_t` of 64 bits the 32-bit count wraps, and a queue that holds
  a multiple of 2^32 entries looks empty (`DequeueTakesOldest`).

## Model

| member | source | states |
|---|---|---|
| Election.Compare | libdiameter/src/aaa_peer_fsm.cxx:1110-1137 | the padded scan wins exactly when, at the first octet where the endlessly padded names differ, the local one is greater; it reports the same host exactly for equal names |
| Election.NeverBothWin | libdiameter/src/aaa_peer_fsm.cxx:1119-1134 | for any two hosts, two sides with the same sign of `char` never both win |
| Election.OneWinnerUnlessTie | libdiameter/src/aaa_peer_fsm.cxx:1112-1134 | with the same sign of `char` some side wins if and only if the padded names differ |
| Election.FirstOctetDecides | libdiameter/src/aaa_peer_fsm.cxx:1112-1134 | the greater of the first two octets wins, from 0x80 on by the sign of `char`, equal ones leave it to the rest, and a name that has ended goes on with 0x08 |
| Election.WinsIsTransitive | libdiameter/src/aaa_peer_fsm.cxx:1119-1134 | beating is transitive, so the election is a strict order |
| Election.TieMeansTrailingPads | libdiameter/src/aaa_peer_fsm.cxx:1112-1117 | a tie is exactly one name being the other followed by 0x08 octets |
| Election.DistinctHostsElectOne | libdiameter/src/aaa_peer_fsm.cxx:1110-1135 | of two distinct hosts free of 0x08 exactly one wins |
| Election.OneWinnerExactly | libdiameter/src/aaa_peer_fsm.cxx:1112-1134 | each side electing by its own `char`, exactly one wins if and only if the padded names differ and, where the signs differ, first differ on one side of 0x80 |
| Election.SevenBitsAgree | libdiameter/src/aaa_peer_fsm.cxx:1119-1128 | hosts of 7-bit octets always do |
| Election.MixedSignsFail | libdiameter/src/aaa_peer_fsm.cxx:1119-1128 | names that first differ across 0x80 make both sides win, or neither, when the signs differ |
| PeerSafety.EveryRunKeepsInv | libdiameter/include/aaa_peer_fsm.h:284-540 | in every run TIMEOUT is armed exactly in the four WAIT states and CLOSING, WATCHDOG exactly in the two open states, and every state but R_OPEN and CLOSING has the transports it needs |
| PeerSafety.TransportsFollowPast | libdiameter/src/aaa_peer_fsm.cxx:85-495 | in every run and every state, R_OPEN and CLOSING included, the events served tell exactly whether an initiator and a responder are held |
| PeerSafety.SendsBareAfterNack | libdiameter/src/aaa_peer_fsm.cxx:232-244 | in every run a message is sent without a transport if and only if a connection NACK was served in WAIT_CONN_ACK_ELECT |
| PeerSafety.InitFits | libdiameter/include/aaa_peer_fsm.h:679-688 | a fresh peer meets everything the statements about runs start from |
| PeerSafety.RunEffect | libdiameter/src/aaa_peer_fsm.cxx:85-495 | what each action does to state, mandatory timers and the two transports, actions that end in `Cleanup` included |
| PeerSafety.ServeKeepsInv | include/framework.h:1280-1312 | serving any queued event in any state keeps the timer and transport invariants |
| PeerSafety.TransientHasWayOut | libdiameter/include/aaa_peer_fsm.h:303-396 | in every transient state the timeout is armed, and serving it closes the peer with nothing held and nothing armed |
| PeerSafety.OpeningResponder | libdiameter/src/aaa_peer_fsm.cxx:232-244 | a step into R_OPEN brings a responder exactly when the event was not a connection NACK; steps within R_OPEN keep it |
| PeerSafety.OpenResponder | libdiameter/src/aaa_peer_fsm.cxx:234 | in every run, R_OPEN holds a responder if and only if the last entry into it was not by a NACK |
| PeerSafety.NackLosesResponder | libdiameter/src/aaa_peer_fsm.cxx:232-244 | a run into R_OPEN whose accepted responder has been destroyed |
| PeerSafety.ClosedInitiator | libdiameter/src/aaa_peer_fsm.cxx:205-219 | an event served into CLOSED leaves an initiator exactly after an unacceptable CER in WAIT_I_CEA, or when a retry found one left behind |
| PeerSafety.RejectedCerKeepsInitiator | libdiameter/src/aaa_peer_fsm.cxx:214-219 | a run into CLOSED that still holds its initiator |
| PeerSafety.CleanupCounts | libdiameter/src/aaa_peer_fsm.cxx:1140-1202 | `Cleanup` with any flags moves every transport to exactly one place |
| PeerSafety.RunCounts | libdiameter/src/aaa_peer_fsm.cxx:85-495 | no action loses a transport or gives one two owners |
| PeerSafety.TransportsAreConserved | libdiameter/src/aaa_peer_fsm.cxx:85-1202 | in every run each transport is, at the end, in as many places as it was posted times: none leaks, none is released twice |
| PeerMachine.DiameterPeer.Cleanup | libdiameter/src/aaa_peer_fsm.cxx:1140-1202 | stop, release by flags, release the event's transport, start: the new state is that of the specification |
| PeerMachine.DiameterPeer.HoldElection | libdiameter/src/aaa_peer_fsm.cxx:1093-1138 | equal hosts clean up, a winner posts WIN_ELECTION, a loser does nothing |
| PeerMachine.DiameterPeer.Act | libdiameter/src/aaa_peer_fsm.cxx:85-495 | every action, run on the object, gives the state the specification gives |
| PeerMachine.DiameterPeer.HandleEvent | include/framework.h:1280-1312 | the built table is searched, the state changes, then the action runs; events without an entry and a stopped machine change nothing; `PeerAnswers` says what comes of it |
| PeerMachine.DiameterPeer.ServeOne | libdiameter/include/aaa_peer_fsm.h:706-725 | the oldest event is handled and its transport destroyed if nobody took it; the invariants of `PeerSafety` hold on |
| PeerMachine.DiameterPeer.Message | libdiameter/src/aaa_peer_table.cxx:73-171 | the search of the command tables posts the event that state and command call for, or none; `PeerAnswers` says what comes of it |
| PeerMachine.ArrivedKeepsInv | libdiameter/src/aaa_peer_table.cxx:73-171 | no arriving message breaks the invariants |
| PeerAnswers.EveryEventIsAnswered | libdiameter/include/aaa_peer_fsm.h:262-540 | serving any event in any state gives the whole new state that the protocol asks for: state, transports, timers, attempts, what is sent and on which transport |
| PeerAnswers.ROpenAnswers | libdiameter/include/aaa_peer_fsm.h:398-452 | in R_OPEN a DWR gets a DWA, a CER a CEA, a watchdog event sends a DWR and a stop a DPR, all on the responder; a DPR gets a DPA and leaves nothing armed; only a lost connection is retried |
| PeerAnswers.IOpenAnswers | libdiameter/include/aaa_peer_fsm.h:454-508 | the same in I_OPEN on the initiator |
| PeerAnswers.ClosingAnswers | libdiameter/include/aaa_peer_fsm.h:510-537 | in CLOSING a DPA, the timeout and a lost connection close, and every other event changes nothing |
| PeerAnswers.SentIsCounted | libdiameter/src/aaa_peer_fsm.cxx:85-495 | in every run the messages of each kind sent on each transport are exactly as many as the events served that called for one on it: DPAs as DPRs, DWAs as DWRs, DWRs as watchdog events, CERs, CEAs and DPRs alike |
| PeerAnswers.OnlyLossesRetry | libdiameter/src/aaa_peer_fsm.cxx:128-489 | the retry timer is armed and an attempt counted only by a refused or lost connection or by a DPA after a reboot, and then exactly if the maximum is not reached and the interval is positive |
| PeerAnswers.AttemptsCountLosses | libdiameter/src/aaa_peer_fsm.cxx:1451-1465 | in every run the attempts are the losses modulo the maximum plus one: after the maximum in a row the next loss is given up and the count starts again |
| PeerAnswers.RequestsAreAnswered | libdiameter/src/aaa_peer_table.cxx:90-126 | a CER, DWR or DPR that arrives at an open peer and is served gets its CEA, DWA or DPA on the connection in use; only the DPR closes |
| PeerAnswers.AnswersAreTaken | libdiameter/src/aaa_peer_table.cxx:99-126 | a known CEA or DWA that reports success keeps an open peer open, one that reports a failure closes it, a DPA there changes nothing |
| PeerAnswers.DpaCloses | libdiameter/src/aaa_peer_table.cxx:127-138 | in CLOSING a known DPA closes, on either connection, and nothing else that arrives changes anything |
| PeerAnswers.OnlyCeaOpens | libdiameter/src/aaa_peer_table.cxx:80-86 | in WAIT_I_CEA a known CEA opens or closes by its result, an unknown one is dropped, and any other message closes |
| PeerAnswers.CeaEndsElection | libdiameter/src/aaa_peer_table.cxx:139-145 | in WAIT_RETURNS a known CEA opens the dialled connection and releases the other, and other messages are dropped |
| PeerAnswers.OtherMessagesPass | libdiameter/src/aaa_peer_table.cxx:156-171 | another application's message is accepted by the table of an open peer and changes nothing there; elsewhere it is dropped, as every message is before a connection |
| PeerAnswers.UnknownAnswersAreDropped | libdiameter/src/aaa_peer_table.cxx:115-120 | a base protocol answer with unknown identifiers is dropped in every state, but for WAIT_I_CEA, where only a CEA gets that far |
| PeerAnswers.CallDials | libdiameter/src/aaa_peer_table.cxx:36-42 | starting an idle peer dials once and waits under the timeout |
| PeerAnswers.GoodbyeRests | libdiameter/src/aaa_peer_table.cxx:44-49 | stopping an open peer sends the DPR on the connection in use; after the DPA it is closed and retries only if the cause was a reboot |
| TwoPeers.ServeKeeps | libdiameter/include/aaa_peer_fsm.h:284-396 | serving any event on either side keeps the invariant of the two-peer network |
| TwoPeers.DoKeeps | libdiameter/src/aaa_peer_table.cxx:36-171 | every step of either side, and of the network, keeps it |
| TwoPeers.Meets | libdiameter/include/aaa_peer_fsm.h:284-475 | which events can reach which state when two peers open simultaneously |
| TwoPeers.OneResponder | libdiameter/src/aaa_peer_fsm.cxx:1119-1134 | both sides are never open as responders |
| Convergence.AgreeOnConnection | libdiameter/src/aaa_peer_fsm.cxx:205-319 | in every interleaving of two peers that do not both win, whenever both are open they use one connection, alive at both ends, and if the CERs crossed it is the one the loser of the election dialled |
| Convergence.StepDescends | libdiameter/src/aaa_peer_fsm.cxx:85-319 | every step lowers the rank of the network |
| Convergence.RunsAreShort | libdiameter/src/aaa_peer_fsm.cxx:85-319 | no run of the two peers takes more than 40 steps |
| Convergence.SettledRunsAreOpen | libdiameter/src/aaa_peer_fsm.cxx:205-319 | where one side wins, a run that cannot go on has opened both sides |
| Convergence.CanSettle | libdiameter/src/aaa_peer_fsm.cxx:85-319 | every reachable network with a started peer can go on until nothing is left to do |
| Convergence.EveryRunCanOpen | libdiameter/src/aaa_peer_fsm.cxx:205-319 | where one side wins, every run in which a peer was started extends, within 40 steps in all, to one with both sides open |
| Deadlock.NobodyWinsDeadlocks | libdiameter/src/aaa_peer_fsm.cxx:1112-1137 | for distinct hosts neither of which wins there is a run that can go no further with neither side open |
| Deadlock.BothWinDisagree | libdiameter/src/aaa_peer_fsm.cxx:1119-1128 | for distinct hosts that both win there is a run to two open peers that use different connections |
| Deadlock.CutCloses | libdiameter/src/aaa_peer_fsm.cxx:455-461 | and from there the ends of the two connections close both |
| Deadlock.AgreesUnlessBothWin | libdiameter/src/aaa_peer_fsm.cxx:205-319 | two peers with distinct hosts always agree on one living connection if and only if they do not both win |
| Deadlock.OpensIfOneWins | libdiameter/src/aaa_peer_fsm.cxx:1093-1138 | every run that cannot go on has opened both sides if and only if exactly one of them wins |
| Deadlock.OpensUnlessTie | libdiameter/src/aaa_peer_fsm.cxx:1093-1138 | the same condition read off the hosts: the padded names differ and, where the signs of `char` differ, first differ on one side of 0x80 |
| StateTable.StateTable.FindStateTableEntry | include/framework.h:1125-1152 | the one-pass search returns the first entry for the event, else the last wildcard of the state |
| StateTable.StateTable.FindWildcardEntry | include/framework.h:1156-1171 | whether the state has a wildcard |
| StateTable.StateTable.AddStateTableEntry | include/framework.h:1174-1186 | an entry is appended unless the pair already resolves, which is reported |
| StateTable.StateTable.AddWildcardStateTableEntry | include/framework.h:1188-1199 | a wildcard is appended unless the state has one |
| StateTable.AddResolves | include/framework.h:1174-1199 | an addition answers only pairs that had no answer: once a pair resolves, no later addition changes its entry |
| StateTable.BuiltIsUnambiguous | include/framework.h:1174-1199 | a table built by additions never has two entries for one pair or two wildcards for one state |
| StateTable.SearchIsExact | include/framework.h:1125-1152 | in such a table a search gives the one specific entry, else the one wildcard, else nothing |
| PeerTable.DiameterPeerStateTable.constructor | libdiameter/include/aaa_peer_fsm.h:262-540 | the table built entry by entry answers every state and event as `Transition` says |
| PeerTable.DiameterPeerStateTable.Put | include/framework.h:1174-1186 | no entry is refused while the table is built, and each answers exactly its own pair |
| PeerTable.DiameterPeerStateTable.PutWildcard | include/framework.h:1188-1199 | a wildcard answers exactly the events of its state that have no entry |
| PeerTable.PutAgrees | libdiameter/include/aaa_peer_fsm.h:284-540 | adding the entry of a pair without one extends the agreement with `Transition` by that pair and is not refused |
| PeerTable.WildcardAgrees | libdiameter/include/aaa_peer_fsm.h:297-299 | adding a wildcard completes the agreement for its state |
| QueueJob.EnqueueInv | include/framework.h:343-394 | enqueueing into one of the queue's classes keeps the counting invariant between index queues, data queues and `total` |
| QueueJob.EnqueueInvUnlessHarmful | include/framework.h:384-390 | for any priority and weight that address lists of the queue it is kept if and only if the weight is the queue's, or the data queue is as long as the weight, or the weight is clamped to the queue's greatest and the data queue is shorter than that |
| QueueJob.ServeHeadInv | include/framework.h:432-463 | taking the head of any backlogged index queue keeps it, and its data queue is not empty |
| QueueJob.BacklogIsServable | include/framework.h:402-430 | a queue with an entry always has a priority to serve, and the head of its index queue names a data queue that is not empty |
| QueueJob.ErrorBranch | include/framework.h:455-463 | the error branch is reached exactly by a non-blocking dequeue of an empty queue that has been signaled |
| QueueJob.DequeueTakesOldest | include/framework.h:402-468 | a dequeue yields the oldest entry of a class in the highest backlogged priority; it yields nothing exactly when it does not go or the queue is empty, which for a queue not signaled is exactly when the count is 0 modulo 2^32 |
| QueueJob.StepInv | include/framework.h:343-511 | every operation, a flush and a signal included, keeps the counting invariant |
| QueueJob.PutEntersUnlessFull | include/framework.h:353-393 | an entry goes to the end of its class exactly if there is room, which only a 32-bit queue of 2^32 - 1 entries has not, or the queue was signaled and the call does not block; otherwise nothing changes |
| QueueJob.TakeYieldsUnlessEmpty | include/framework.h:402-468 | an entry leaves exactly if the count is not 0 modulo 2^32, or, once signaled, if there is one and the call does not block; otherwise nothing changes |
| QueueJob.CountIsReturned | include/framework.h:384-393 | the value returned is the new number of entries while an `int` holds it, and always the one `int` congruent to it modulo 2^32 |
| QueueJob.ClassesAreFifo | include/framework.h:384-503 | in every run, what was in a class and what entered is what left, by dequeues or a flush, followed by what remains: no loss, no duplicate, first in first out |
| QueueJob.IndexIsFifo | include/framework.h:432-463 | in every run without a flush an index queue is served in order |
| QueueJob.FairRound | include/framework.h:421-463 | the next L dequeues of a priority whose index queue has length L take min(n, w) entries of each data queue of weight w that held n, whatever is enqueued before a flush |
| QueueJob.RoundLength | include/framework.h:384-390 | L is the sum of those minima and at most maxWeight (maxWeight + 1) / 2 |
| QueueJob.ClassIndexFits | include/framework.h:522-533 | classes are numbered without gaps or overlaps, priorities beyond 3 counting as 3 |
| QueueJob.JobQueue.Create | include/framework.h:291-315 | too many priorities or too large a weight is refused, any other numbers give an empty and valid queue |
| QueueJob.JobQueue.Enqueue | include/framework.h:343-394 | the arrays refine the specified step, priorities and weights beyond the greatest being clamped; full queues, signals and blocking end the call as the original does; the invariant holds on exactly if the weight does no harm |
| QueueJob.JobQueue.Dequeue | include/framework.h:402-468 | the arrays refine the specified step; empty queues, signals and blocking end the call as the original does |
| QueueJob.JobQueue.Flush | include/framework.h:496-503 | both levels are empty, the count is 0 and the invariant holds |
| QueueJob.JobQueue.SignalAll | include/framework.h:506-510 | a signal changes nothing but the flag, and the invariant holds |
| Pending.DeliveryNode.Request | libdiameter/src/aaa_route_msg_router.cxx:536-564 | a forwarded request goes out under its local id and is stored with its original id and source, a local one gets the ids it lacks; an id in flight keeps its entry |
| Pending.DeliveryNode.Add | libdiameter/include/aaa_route_framework.h:230-246 | a new entry is inserted only when its id is not in flight |
| Pending.DeliveryNode.Consume | libdiameter/src/aaa_route_msg_router.cxx:446-460 | a request consumed here is kept under the id its sender gave it, unless that id is in flight |
| Pending.DeliveryNode.StoreRequestMessage | libdiameter/include/aaa_route_framework.h:260-268 | the message is kept with the entry of that id, if there is one |
| Pending.DeliveryNode.Answer | libdiameter/include/aaa_route_framework.h:269-297 | a matching answer gets the original id and source back and releases exactly that entry |
| Pending.DeliveryNode.ReTransmitCheck | libdiameter/include/aaa_route_framework.h:153-171 | a sweep visits every entry once, sends again in key order exactly the matching ones with attempts left and drops the exhausted ones |
| Pending.SweepKeepsBound | libdiameter/include/aaa_route_framework.h:153-167 | the retransmission count never exceeds its maximum |
| Pending.SweepCost | libdiameter/include/aaa_route_framework.h:153-167 | the sum of (max + 1 - count) drops by exactly the number of matching entries |
| Pending.SurvivesUntilMax | libdiameter/include/aaa_route_framework.h:153-167 | a request outlives a row of sweeps if and only if its count and the sweeps that match it stay within the maximum |
| Pending.GoneStaysGone | include/framework.h:1600-1613 | sweeps bring no request back |
| Pending.AgedAreSentAgain | libdiameter/include/aaa_route_framework.h:153-183 | a sweep by age sends again exactly the requests that expired before it and have attempts left, with a new expiry and the retransmission flag, drops exactly the expired ones that have none, and leaves the others alone |
| Pending.PeersAreSentAgain | libdiameter/include/aaa_route_framework.h:185-195 | a sweep for a peer does the same to exactly the requests that were sent to it |
| Pending.StoreFollowsLives | libdiameter/include/aaa_route_framework.h:153-297 | in every run each id is pending exactly while the operations on it alone say so, with its request's destination, the expiry and count of its last transmission, and its message with the flag |
| Pending.ForwardedAreSentAgain | libdiameter/include/aaa_route_framework.h:179-194 | after any run a request forwarded under a free id is sent again by the next sweep for a peer if and only if it went there, and by age if and only if it has expired |
| Pending.AnswersFindTheirRequests | libdiameter/include/aaa_route_framework.h:230-297 | in every run of forwarding, consuming, sweeping and answering, a match restores the id and source of its own request, and no request is matched twice |
| Pending.MatchesBringMessages | libdiameter/include/aaa_route_framework.h:260-293 | in every run the message that comes back with a match is, up to the retransmission flag, that of the last request stored with one under the id while the entry was held |
| Pending.OwnMessageUnlessReused | libdiameter/include/aaa_route_framework.h:260-268 | it is the matched request's own if and only if no later request was forwarded under the id meanwhile |
| Pending.ReusedIdSwapsMessages | libdiameter/include/aaa_route_framework.h:260-268 | a run in which an answer brings back another request's message |
| Pending.FreshIdsAreHeld | libdiameter/include/aaa_route_framework.h:230-246 | a request, forwarded or consumed, becomes the holder of its id if and only if the id was not in flight |
| DeliveryChain.Chain.AnswerMsg | libdiameter/include/aaa_route_framework.h:51-75 | an answer is taken by the first node of the chain whose store holds its id, and by no other; the rejecting node takes and drops the rest |
| DeliveryChain.ChainAnswersFit | libdiameter/include/aaa_route_msg_router.h:259-262 | in every run of the whole chain every match restores its own request, and none is matched twice |
| DeliveryChain.AnswerReachesUnlessShadowed | libdiameter/include/aaa_route_msg_router.h:259-262 | after any run an answer reaches the request that holds its id in a store if and only if no earlier store holds that id |
| DeliveryChain.LocalTakesForwardedAnswer | libdiameter/src/aaa_route_msg_router.cxx:446-460 | a request consumed under its sender's id takes the answer to a forwarded request of the same local id |
| RouteNetwork.LoopDetection | libdiameter/src/aaa_route_msg_router.cxx:462-481 | the search reports a loop exactly when the node is among the Route-Records |
| RouteNetwork.FoldIgnoresCase | libdiameter/src/aaa_route_msg_router.cxx:145-173 | two names are taken for the same exactly if they differ in the case of ASCII letters only |
| RouteNetwork.NamesComeFirst | libdiameter/src/aaa_route_msg_router.cxx:115-235 | a request naming this node, or its realm with a supported application, or neither host nor realm, is consumed; one that names a peer that can be reached goes there, unless a Route-Record shows it was here |
| RouteNetwork.ActionsDecide | libdiameter/src/aaa_route_msg_router.cxx:241-360 | for another realm a local route consumes, a redirecting one stops, and a relaying or proxying one forwards to the first server that can be reached, unless a node that is not the origin is among the Route-Records |
| RouteNetwork.NothingElseIsDecided | libdiameter/src/aaa_route_msg_router.cxx:627-694 | conversely a request is consumed only if it is this node's or its route is local, forwarded only where it names or a relaying or proxying route with a reachable server sends it, and stops only otherwise |
| RouteNetwork.FirstOpenIsNearest | libdiameter/src/aaa_route_msg_router.cxx:344-354 | the walk over the servers ends at the first in the list that the peer table has with an open connection |
| RouteNetwork.HostForwardIsLast | libdiameter/src/aaa_route_msg_router.cxx:225-232 | the node a request is forwarded to by Destination-Host consumes it |
| RouteNetwork.RealmForwardDescends | libdiameter/src/aaa_route_msg_router.cxx:676-694 | every forward by realm lowers the rank of the request |
| RouteNetwork.ForwardsOnce | libdiameter/src/aaa_route_msg_router.cxx:676-694 | a node that did not originate a request and has forwarded it by realm never forwards it again |
| RouteNetwork.OriginForwardsTwice | libdiameter/src/aaa_route_msg_router.cxx:676-694 | a node can forward a request twice if and only if it is its origin, the request names a realm but not the node, and some other node is named neither by the request nor by its Route-Records |
| RouteNetwork.RequestsStop | libdiameter/src/aaa_route_msg_router.cxx:481-694 | in a network of n nodes with distinct identities and arbitrary, changing tables a first-transmission request is forwarded at most 2n times |
| RouteServers.RouteServers.Add | libdiameter/src/aaa_route_table.cxx:46-60 | the entry of that name is replaced and the new one put before the first of no smaller metric |
| RouteServers.RouteServers.Remove | libdiameter/src/aaa_route_table.cxx:94-106 | the first entry of that name goes, and whether there was one is reported |
| RouteServers.RouteServers.Lookup | libdiameter/src/aaa_route_table.cxx:62-71 | the entry of that name, if any |
| RouteServers.RouteServers.Next | libdiameter/src/aaa_route_table.cxx:79-92 | the entry after the given object |
| RouteServers.SelectServer | libdiameter/src/aaa_route_msg_router.cxx:344-354 | the walk by First and Next chooses the first server whose peer is open |
| RouteServers.NextIsNext | libdiameter/src/aaa_route_table.cxx:73-92 | First and Next visit each server once, in order |
| RouteServers.ChosenHasLeastMetric | libdiameter/src/aaa_route_msg_router.cxx:344-354 | the chosen peer is in the peer table with an open connection and has the least metric among the servers that can be reached, and none is chosen exactly when none can be reached |
| RouteServers.InsertedPlace | libdiameter/src/aaa_route_table.cxx:49-58 | an insertion adds one entry, behind all of smaller metric and before all others |
| RouteServers.AddKeepsOrder | libdiameter/src/aaa_route_table.cxx:46-60 | an addition keeps the list sorted with one entry a name and changes only the entry of its name |
| RouteServers.ListIsAMap | libdiameter/src/aaa_route_table.cxx:46-106 | after any additions and removals the list is sorted with unique names and holds for each name what the last operation on it left |
| RouteServers.LookupIsLatest | libdiameter/src/aaa_route_table.cxx:46-106 | after any additions and removals a lookup gives what the last operation on the name left |
| MsgIds.DiameterMsgId.MsgIdTxMessage | libdiameter/src/aaa_peer_fsm.cxx:1404-1432 | a request gets and records the next ids; an answer takes the head of each queue, or 0 |
| MsgIds.DiameterMsgId.MsgIdRxMessage | libdiameter/src/aaa_peer_fsm.cxx:1434-1449 | a request's ids are queued; an answer is accepted when both ids are known, and a known hop id is used up either way |
| MsgIds.AnswersFollowRequests | libdiameter/src/aaa_peer_fsm.cxx:1416-1431 | in every run the pair on a sent answer is that of the oldest unanswered request, or (0, 0); no request's pair is used twice |
| MsgIds.AcceptedMeansOpen | libdiameter/src/aaa_peer_fsm.cxx:1441-1446 | after any run an answer is accepted if and only if its hop id was sent after the last answer carrying it and its end id after the last answer that carried it with an open hop id |
| MsgIds.AcceptedAtMostSent | libdiameter/src/aaa_peer_fsm.cxx:1404-1449 | in every run each id is accepted on no more answers than it was sent on requests |
| MsgIds.MixedAnswerIsAccepted | libdiameter/src/aaa_peer_fsm.cxx:1441-1446 | an answer mixing the ids of two requests is accepted, and then neither right answer is |
| SessionCounter.DiameterSessionCounter.Advance | libdiameter/include/aaa_session_attributes.h:105-115 | the two words step as `Succ` says, 32-bit wrap included |
| SessionCounter.SuccIsSuccessor | libdiameter/include/aaa_session_attributes.h:105-115 | no word ever holds 2^32-1 after a step, and from a start without it the step is successor modulo (2^32-1)^2 |
| SessionCounter.LessIsRankOrder | libdiameter/include/aaa_session_attributes.h:91-104 | the comparison is the order of the ranks, and equal ranks are equal counters |
| SessionCounter.DrawsIncrease | libdiameter/include/aaa_session_attributes.h:95-115 | draws increase until the wrap |
| SessionCounter.DrawsDiffer | libdiameter/include/aaa_session_attributes.h:105-115 | from any start, draws less than a cycle apart differ |
| SessionCounter.SessionEntryList.Add | libdiameter/src/aaa_session_db.cxx:46-67 | a session without an id gets the next one, another keeps its own; the entry goes to the front |
| SessionCounter.SessionEntryList.Lookup | libdiameter/src/aaa_session_db.cxx:69-80 | the newest session with that id |
| SessionCounter.SessionEntryList.Remove | libdiameter/src/aaa_session_db.cxx:82-94 | the newest session with that id goes, the others stay |
| SessionCounter.LookupIsTop | libdiameter/src/aaa_session_db.cxx:46-94 | over every sequence of operations a lookup gives the data last added under the id and not yet removed: after a removal the one before |
| SessionCounter.HandedAreDistinct | libdiameter/src/aaa_session_db.cxx:46-67 | over every sequence of operations, up to (2^32-1)^2 ids handed out are pairwise distinct |
| SessionCounter.CycleRepeats | libdiameter/include/aaa_session_attributes.h:105-115 | the bound is exact: one id more repeats the first |
| SessionId.DiameterSessionId.Set | libdiameter/src/aaa_session_attributes.cxx:111-125 | the text is identity, high and low word, and the optional value if it is not empty |
| SessionId.DiameterSessionId.Get | libdiameter/src/aaa_session_attributes.cxx:73-109 | the scan with wrapping 32-bit positions cuts the text at its semicolons; a missing one is noticed exactly where npos has 32 bits |
| SessionId.NumbersRoundTrip | libdiameter/src/aaa_session_attributes.cxx:91-104 | a printed word reads back by strtoul always, and by atoi exactly when it is an int |
| SessionId.ExampleIsPrinted | libdiameter/src/aaa_session_attributes.cxx:111-125 | the example of RFC 3588 section 8.8, character by character |
| SessionId.CutUndoesPrinted | libdiameter/src/aaa_session_attributes.cxx:73-125 | the printed form is cut into the fields it was made of, optional values holding semicolons included; an empty one is lost exactly where npos has 64 bits |
| SessionId.AcceptedTexts | libdiameter/src/aaa_session_attributes.cxx:73-97 | where npos has 64 bits every text is accepted, else exactly those with two semicolons |
| SessionId.SemicolonLosesIdentity | libdiameter/src/aaa_session_attributes.cxx:73-125 | an identity with a semicolon is printed, accepted and read back as another |
| SessionId.RoundTrip | libdiameter/src/aaa_session_attributes.cxx:73-125 | Get into a fresh id undoes Set if and only if the identity has no semicolon, and the optional value is not empty or npos has 32 bits |
| Utf8.CountOnes | include/aaa_parser_defs.h:700-708 | the shifting loop counts the leading one bits, up to seven |
| Utf8.Check | include/aaa_parser_defs.h:695-733 | 0 exactly when the octets are a concatenation of sequences, each a lead octet announcing 1 to 6 octets and its continuations |
| Utf8.TextStart | include/aaa_parser_defs.h:695-733 | the lead octet leaves no choice how a text divides into sequences |
| Utf8.SequenceIsEncoding | include/aaa_parser_defs.h:695-733 | the accepted sequences are exactly the encodings of the values that fit the announced number of octets |
| Utf8.Encode | include/aaa_parser_defs.h:695-733 | every value encodes to an accepted sequence that decodes to it |
| Utf8.EncodingsAreTexts | include/aaa_parser_defs.h:695-733 | every RFC 2279 encoding of UCS-4 characters is accepted |
| Utf8.ExampleIsEncoded | include/aaa_parser_defs.h:695-733 | the first example of RFC 2279 section 4, octet by octet |
| Utf8.OverlongMeansSmall | include/aaa_parser_defs.h:695-733 | the first two octets tell exactly whether a sequence is longer than its value needs |
| Utf8.EncodingUnlessOverlong | include/aaa_parser_defs.h:695-733 | an accepted sequence is the encoding of some character if and only if it is not overlong |
| Utf8.EncodingsAreShortest | include/aaa_parser_defs.h:695-733 | the texts that encode characters are exactly the accepted ones without an overlong sequence |
| Utf8.AcceptsOverlong | include/aaa_parser_defs.h:695-733 | a text that is accepted although it encodes nothing |

## Left out

- Two-peer network: timeouts, stops, transport failures, refused connections, rejected capabilities and a second start of a peer; each side sends at most one CER on its connection, so the message identifiers of `MsgIds` always accept and are not part of the network's state.
- PeerMachine.DiameterPeer.Hangup: that the connector stops dialling is not part of the state.
- Convergence.RunsAreShort: bounds the number of steps, not time; the collector's grace period is a step.
- Deadlock.CutCloses: the reconnection timers that the two disconnections may arm do not fire in the network model.
- Capability lists other than the peer's host, message assembly, disassembly and logging: no property reads them. `Cleanup` empties them.
- `Connected`, `Disconnected` and `Error` notifications to the application, and `Cleanup` called by the receiver thread on an unknown collector error, outside any event.
- Routing of session messages through an open peer (`Process`, `SendMessage`) is the router's part.
- QueueJob.JobQueue.Enqueue: a call that waits does not wake up again in the model; a priority or weight that addresses no list is undefined in the original and excluded here. Runs are over the queue's own classes.
- QueueJob.JobQueue.Dequeue: a call that waits does not wake up again in the model.
- `AAA_QueueJob::Remove` and `AdjustIndexQueue`: as written they do not keep the counting invariant.
- `AAA_GroupedJob`, whose reference counts are not conserved when scheduling returns early.
- Pending.DeliveryNode.ReTransmitCheck: the resend action is taken to change the stored message and expiry only; one expiry time serves a whole sweep.
- RouteNetwork.RequestsStop: retransmissions, which skip loop detection, are not journeys of this model; a realm taken from User-Name ends a journey because the routed delivery throws without a Destination-Realm; redirect answers and proxy policies end it as well.
- RouteServers.RouteServers.Add: adding an object that is already in the list, which the original has freed by then, is not modelled; `First` on an empty list is undefined in the original and excluded here.
- `DiameterRouteEntry::Add` and `Next`, whose swapped arguments and skipped element defeat a replacement or traversal claim.
- The red-black tree of the session database: its implementation is not part of this model.
- SessionId.DiameterSessionId.Get: the low word is unspecified when its text is not an int, as `atoi` is; texts are those that fit an AVP, whose length field has 24 bits.
- Session state machines, accounting, `UTF8Checker::operator()`, AVP parsing, dictionaries, PANA and the compatibility layers.
