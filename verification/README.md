# Verification of the pub/sub simulator and its benchmark tools

A Dafny model of the libp2p-pubsub simulator (`internal/sim`), of the benchmark reduction
(`internal/bench/bench.go`) and of the dashboard layout (`scripts`), with proofs of what the code
keeps over every run, for every random choice and every order of map iteration.

`dafny verify dfyconfig.toml` checks everything.

## What is modelled

**The shared world.** `World` is the simulator's state as a value: peers with their topic lists, join
times, friend lists, buffers and requests, the topics with their counters, and the message
counters. Every handler pair (Enter guard and State body) is one atomic action; random picks and
clock readings are arguments of the action, limits are symbolic. `Exec` runs any sequence of
actions from the empty simulator. `WorldRuns`, `PopulationRuns`, `Friendships` and `Delivery` prove
what holds in every run. `Changes` says of every kind of transition which friendships, topic entries
and join times it changes and which it leaves; `Requests` says what it asks of the peers' machines.

**The objects.** `Roster` holds the mutable peers and the loops that edit several of them at once,
`Topics` the mutable topic, `Simulator` the mutable simulator with its handlers; `Additions` says
what the loops of AddPeer and AddTopic add. Each handler is proved to change the state of all objects
together by exactly its action in `World`. `Histories` says which runs a sequence of turns allows: a
turn carries what the environment decides and what is drawn at random, and acts if and only if its
guard holds; `TopicLogs` says what the turns bring to each topic. `Transitions` proves that every
history of the object follows a run that fits its turns: the preconditions of all handlers hold
whenever their turn comes, and what is proved of runs, also by the actions they contain, is true of
the object.

**Joining and leaving.** `Membership` is the asynchronous protocol between the peers' subscriptions
and the topics' counters as a state machine over subscriptions, unfinished joins, removed peers,
undelivered deltas and a ledger of lost deltas; `Clients` has the objects that make its steps, and
proves that every history of calls is a run of the protocol. `Coupled` runs the protocol together with
the world, whose handlers start, remove and ask the peers and make and remove the topics.

**The rest.** `Scheduler` is the heartbeat, `Medians` and `Charts` the reduction of benchmark results
to chart points, `Traces` the fold of an execution trace, `Layout` the dashboard cursor. `Seqs` and
`Names` hold what the others share.

## What the proofs found

- With the shipped limits (50 initial peers, at most 30 peers) RemovePeer can never fire:
  `PopulationRuns.ShippedNeverRemoves`, `PopulationRuns.RemovalFiresIff`.
- The grouping loop of `renderChart` loses a point as soon as one cell yields fewer than two values,
  and mixes that cell's leftovers into the next point: `Charts.GroupsIff`, `Charts.ShortCellMixesIn`,
  `Charts.OneMissingValue`.
- `ActiveGoroutines` is too low by the number of goroutines that are older than the trace:
  `Traces.ActiveIsExactIff`, `Traces.OlderGoroutineIsNotCounted`. The allocation wraps from 2^64 bytes
  on, and a trace that begins at time zero is timed from its next event: `Traces.AllocationIsExactIff`,
  `Traces.TimeIsSpanIff`.
- A topic's counter can be negative while a leave overtakes a join: `Membership.CounterIsNegativeIff`,
  `Membership.CounterCanDipBelowZero`.
- It goes on counting peers that were removed while subscribed: `Membership.LiveCounterIsExactIff`,
  `Membership.RemovedSubscriberIsCounted`.
- A topic that takes over a name can get its predecessor's late deltas, and then rests at a wrong
  count: `Membership.CounterOfALife`, `Membership.ReusedNameGoesWrong`.
- Removing a topic parts friends who share no other one, and only that makes a garbage collection do
  anything to friendships: `Friendships.TopicRemovalKeepsSharingIff`,
  `Friendships.RemovalCanPartFriends`, `Friendships.FriendsShareInCleanRuns`.

## Model

| member | source | states |
|---|---|---|
| Names.PeerNameInjective | internal/sim/sim.go:290-291 | two counter values never render to the same peer name |
| Names.AtoiItoa | internal/sim/sim.go:290-291 | reading the decimal number of a peer gives its counter back |
| WorldRuns.RunsKeepInv | internal/sim/sim.go:265-674 | in every run: friend lists form a simple undirected graph of bounded degree over live peers, topic lists and join times agree and name live topics, populations and buffers stay within their limits, every peer has a used number |
| WorldRuns.FriendListsInRuns | internal/sim/sim.go:417-450 | in every run a listed friend is another live peer that lists back, without repeats, within the friend limit |
| WorldRuns.TopicListsInRuns | internal/sim/sim.go:342-415 | in every run a peer's topic list has no repeats, has exactly the topics with a join time, only live topics, and is no longer than the topics map, which stays within its limit |
| WorldRuns.RemovedIsForgotten | internal/sim/sim.go:313-332 | after a removal no survivor lists the removed peer |
| WorldRuns.JoinsAreAskedWhileLive | internal/sim/sim.go:383-385 | in every run each topic a peer was ever asked to join was live when it was asked |
| WorldRuns.RemoveKeepsFriendGraph | internal/sim/sim.go:316-328 | deleting a peer and dropping it from its friends' lists keeps the graph symmetric |
| WorldRuns.LinkKeepsFriendGraph | internal/sim/sim.go:433-441 | linking two peers on both sides keeps the graph simple and within the degree limit |
| WorldRuns.GCKeepsFriendGraph | internal/sim/sim.go:457-476 | a collection keeps the graph symmetric |
| PopulationRuns.PeersAreCounted | internal/sim/sim.go:290-305 | in every run peers present plus removals equals the peer counter |
| PopulationRuns.AddPeerNeverOverwrites | internal/sim/sim.go:290-299 | in every reachable state the next name is free |
| PopulationRuns.NamesAreNeverReused | internal/sim/sim.go:290-305 | a peer that was removed never appears again in any continuation |
| PopulationRuns.PopulationFloor | internal/sim/sim.go:309-311 | once the population has reached the initial size it never drops below it |
| PopulationRuns.RemovalFiresIff | internal/sim/sim.go:265-311 | some run removes a peer exactly if the initial size is below the peer limit |
| PopulationRuns.ShippedNeverRemoves | internal/sim/config.go:20-34 | with the shipped limits no run removes a peer |
| Friendships.Handshake | internal/sim/sim.go:690-710 | the lengths of all friend lists add up to twice the number of friendships |
| Friendships.HandshakeInRuns | internal/sim/sim.go:690-710 | the same in every run: the sum is even, its half is the number of friendships |
| Friendships.CollectedEdges | internal/sim/sim.go:456-476 | after a collection two peers are friends exactly if they were and share a topic |
| Friendships.CollectionMakesFriendsShare | internal/sim/sim.go:456-476 | after a collection, from any state, all friends share a topic |
| Friendships.CollectionIsIdleIff | internal/sim/sim.go:453-484 | a collection changes nothing exactly if all friends share a topic |
| Friendships.FriendsShareInCleanRuns | internal/sim/sim.go:394-484 | in any run without RemoveTopic since the start or the last collection all friends share a topic, and a collection changes nothing |
| Friendships.TopicRemovalKeepsSharingIff | internal/sim/sim.go:394-412 | a topic's removal leaves all friends a shared topic exactly if no two relied on it alone |
| Friendships.RemovalCanPartFriends | internal/sim/sim.go:394-412 | a reachable run in which a removal leaves friends without a shared topic |
| Delivery.BuffersInRuns | internal/sim/peer.go:383-390 | in every run a buffer is exactly the last maxMsgs of all messages stored for the peer, in order |
| Delivery.TrimmingIsIdleInRuns | internal/sim/sim.go:478-483 | in every run no buffer is too long, so the trimming loop of a collection changes nothing |
| Delivery.ReceivedAndMissed | internal/sim/sim.go:626-644 | each (audience peer, message) pair is received or missed, never both: the counts add up to the product |
| Delivery.CountersInRuns | internal/sim/sim.go:618-644 | over a run received plus missed is the sum, over all verifications, of messages times audience |
| Delivery.CountersGrow | internal/sim/sim.go:643-644 | neither counter ever goes down |
| Delivery.VerifiedCounts | internal/sim/sim.go:618-644 | one verification adds to MsgsRecv the (peer, message) pairs of the ready peers in the topic, other than the author, that had joined by the send time and hold the message, and to MsgsMiss those that lack it |
| Delivery.EachCounterInRuns | internal/sim/sim.go:618-644 | in every run each of the two counters by itself is the sum of its own pairs over the verifications |
| Delivery.BuffersHoldTheLatest | internal/sim/peer.go:383-390 | in every run the i-th message of a buffer is the one as far from the end of all that was stored for the peer, and nothing is missing while it fits |
| Requests.RemovalAsksToLeave | internal/sim/sim.go:403-412 | a topic's removal asks each peer that listed it once more, to leave it, and nobody else for anything |
| Requests.PeakingAsks | internal/sim/sim.go:662-673 | peaking asks each peer as often as it was drawn, always to join, and lists nothing |
| Requests.HandlersAskInStep | internal/sim/sim.go:342-553 | every other handler lists or drops at most one topic of a peer, and asks its machine for exactly that |
| Requests.ListingsInRuns | internal/sim/sim.go:342-553 | in every run what these handlers asked of a present peer about a topic is join, leave, join and so on, and the last is a join exactly if the topic is listed |
| Changes.FriendsAfter | internal/sim/sim.go:313-484 | for every transition, who lists whom afterwards: befriending adds one edge, a removal takes all of one peer's, a collection those without a shared topic, nothing else changes any |
| Changes.NewFriendsStandLast | internal/sim/sim.go:440-441 | new friends are appended on both sides |
| Changes.RemovalKeepsOrder | internal/sim/sim.go:316-328 | a removal does not reorder the friends that stay |
| Changes.CollectionKeepsOrder | internal/sim/sim.go:457-476 | neither does a collection |
| Changes.PickedJoin | internal/sim/sim.go:368-386 | exactly the peers picked for a new topic join it, at the time read for their first pick; picked again they do not change |
| Changes.EntriesAfter | internal/sim/sim.go:342-553 | for every transition and every peer, which topics it lists afterwards and with which join time: only those that the transition lists are new, with its clock reading, and only a removed topic goes |
| Changes.JoinTimesInRuns | internal/sim/sim.go:383-384 | in every run the join time of a listed topic is the clock reading of the transition that listed it, since when it has been listed |
| Changes.NewcomersAreBlank | internal/sim/sim.go:269-307 | a new peer appears under the next number only, not ready and with everything empty |
| Changes.OnlyFriendsOverfill | internal/sim/sim.go:442-538 | only befriending and friends' joins put a peer in a full topic, and only these and random joins take a peer over its own limit |
| Changes.NewTopicsArePopulated | internal/sim/sim.go:368-386 | a new topic gets all its rounds of picks, unless no ready peer has room any more |
| Changes.PeakingAsksEnough | internal/sim/sim.go:655-674 | a topic with room has the configured number of ready peers asked, a full one none |
| Changes.ReadyInRuns | internal/sim/peer.go:177 | a present peer is ready exactly if it connected since it was added |
| Roster.Peer.StoreMsg | internal/sim/peer.go:383-390 | the buffer becomes the last maxMsgs of the old buffer and the new message |
| Roster.DropFromEach | internal/sim/sim.go:320-328 | each listed friend is found and drops the peer; nobody else changes |
| Roster.OnlyFriendsListIt | internal/sim/sim.go:320-328 | in a well-formed graph every friend of a peer is present and nobody else lists it |
| Roster.Depart | internal/sim/sim.go:316-328 | the in-place removal equals forgetting the peer everywhere |
| Roster.VisitFriends | internal/sim/sim.go:457-475 | one visit of the collection, editing both ends of an edge while it walks the captured list, keeps the collection under way for every peer |
| Roster.DropStrangers | internal/sim/sim.go:456-476 | from any state and for every order of visits each list ends as its old self filtered to the peers sharing a topic |
| Roster.Collect | internal/sim/sim.go:453-484 | the whole in-place collection equals the filter on values |
| Roster.GetTopicPeers | internal/sim/sim.go:729-749 | exactly the ready peers that list the topic, each once |
| Roster.JoinRounds | internal/sim/sim.go:368-386 | the joining rounds of a new topic equal a sequence of picks, each with room when made, cut short only when nobody has room |
| Roster.LeaveOne | internal/sim/sim.go:404-411 | the topic is found, leaves the list and the join times, and the machine is asked once more, to leave it |
| Roster.LeaveTopic | internal/sim/sim.go:403-412 | although only ready topic peers are visited, no peer keeps the topic, and exactly those that listed it are asked to leave it |
| Roster.SumPeers | internal/sim/sim.go:690-704 | one loop yields twice the number of undirected friendships and the number of connected peers with topics |
| Roster.WithTopicsInRuns | internal/sim/sim.go:692-697 | in every run no peer with a topic is left out of that number for not being connected |
| Roster.VerifyDelivery | internal/sim/sim.go:626-642 | the loops count exactly the (audience peer, message) pairs present in, and absent from, the buffers |
| Simulator.Sim.AddPeerState | internal/sim/sim.go:269-307 | adds exactly as many fresh peers under new names as were asked for, fit the limit and could be created |
| Simulator.Sim.RemovePeerState | internal/sim/sim.go:313-332 | removes one peer, from all friend lists too |
| Simulator.Sim.AddTopicState | internal/sim/sim.go:342-388 | makes topics of exactly the drawn names that are new, within the limit and up to the first failure; each gets picks with room, fewer than asked only when nobody has room |
| Simulator.Sim.RemoveTopicState | internal/sim/sim.go:394-415 | the topic is gone from the map and from every peer, and exactly the peers that listed it are asked to leave it |
| Simulator.Sim.AddRandomFriendEnter | internal/sim/sim.go:417-430 | accepts the two drawn peers if and only if they are different, ready, no friends yet and have room, and the first has a topic |
| Simulator.Sim.AddRandomFriendState | internal/sim/sim.go:433-450 | links both peers and lets the second join the drawn topic of the first unless it is there |
| Simulator.Sim.GCState | internal/sim/sim.go:453-484 | the collection of the whole world, from any state |
| Simulator.Sim.JoinRandomTopicEnter | internal/sim/sim.go:486-499 | accepts the drawn peer and topic if and only if the peer does not list the topic and the topic has room |
| Simulator.Sim.JoinFriendsTopicEnter | internal/sim/sim.go:514-538 | the drawn friend is always found; accepts if and only if it has topics and the peer does not list the drawn one |
| Simulator.Sim.JoinTopicState | internal/sim/sim.go:502-512 | the list, the join times and the requests of that one peer gain the topic |
| Simulator.Sim.MsgRandomTopicEnter | internal/sim/sim.go:555-574 | accepts if and only if another ready peer is in the drawn topic of the drawn peer; its last test never fails |
| Simulator.Sim.PeakRandTopicState | internal/sim/sim.go:655-674 | asks the configured number of ready peers, or none if the topic is full, which every round checks; no topic list changes |
| Simulator.Sim.VerifyMsgsRecvState | internal/sim/sim.go:618-644 | MsgsRecv grows by exactly the pairs found and MsgsMiss by those not found |
| Simulator.Sim.RefreshMetricsState | internal/sim/sim.go:680-718 | peers, topics, exact friendships, peers with topics, and the average counter per topic, which stays as it was without topics |
| Simulator.GaugesInRuns | internal/sim/sim.go:680-718 | in every run: peers and removals add up to the peer counter, the friendships are half the sum of the list lengths, the peers with topics are those whose list is not empty, the average times the topics is the sum of the counters |
| Simulator.Sim.TopicPeerChange | internal/sim/sim.go:841-852 | the delta reaches the counter and the events of a live topic and of no other, and is dropped for a removed one |
| Simulator.Sim.TopicMsgs | internal/sim/sim.go:858-868 | the events of that topic, and of no other, gain the message; the world does not change |
| Histories.FriendsShareInHistory | internal/sim/sim.go:394-484 | in any history without a dropped topic since the start or the last collection all friends share a topic |
| Histories.RemovalsInHistory | internal/sim/sim.go:309-332 | the removals of a history are its drop turns that found more than the initial number of peers |
| Histories.StoredInHistory | internal/sim/peer.go:383-390 | what was stored for a peer is what the turns brought to it while it was there |
| Histories.DueInHistory | internal/sim/sim.go:618-644 | what the counters account for is the messages times audience of the verifying turns |
| Histories.PairsInHistory | internal/sim/sim.go:618-644 | what each of the two counters counts is what the verifying turns found, or found missing |
| Histories.HistoryFires | internal/sim/sim.go:243-674 | no action of a history is one that its guard would have rejected: all that the turns bring takes effect |
| TopicLogs.LogsAreMonotone | internal/sim/sim.go:841-868 | with a clock that never goes back every topic sees its events in time order |
| TopicLogs.LogsOfSurvivors | internal/sim/sim.go:841-868 | a topic that stays sees a delta or a message meant for it, with its clock reading, and nothing of the others |
| Additions.OneMoreName | internal/sim/sim.go:351-366 | one more drawn name is one more topic exactly if it is new, there is room, and no creation failed |
| Transitions.TopicsAreAccounted | internal/sim/sim.go:841-868 | each live topic of the object has exactly the events brought since it was created, its counter is their sum, and its log is their history seen through the window |
| Transitions.PeersAddedInRun | internal/sim/sim.go:285-306 | adding n peers in one transition is a run of n single steps |
| Transitions.TopicsAddedInRun | internal/sim/sim.go:351-387 | adding topics in one transition is a run of single steps under those names |
| Transitions.Transition | internal/sim/sim.go:243-718 | a turn acts if and only if its guard holds for its draws, by exactly the actions that belong to it; topics' events and gauges change as the turn says; no handler precondition can fail |
| Transitions.Simulate | internal/sim/sim.go:243-718 | for every sequence of turns from a new simulator on the object follows a run that fits them turn by turn and whose every action took effect, keeps all invariants, and its friendships, peers, buffers, counters, topics and gauges are accounted for by the turns |
| Membership.ConservationInRuns | internal/sim/peer.go:254-338 | for every name and every delivery order: counter plus undelivered joins minus undelivered leaves equals the peers holding a subscription, removed ones included, minus the ledger of what was lost |
| Membership.CounterInFirstLife | internal/sim/sim.go:841-850 | for a live topic whose name was not used before the ledger is empty; with nothing in flight the counter is exact and not negative |
| Membership.CounterOfALife | internal/sim/sim.go:841-850 | through a whole life of a name the counter is off by what the life began with; at rest it is exact exactly if the subscriptions at its creation were just the deltas still to come |
| Membership.ReusedNameGoesWrong | internal/sim/sim.go:841-850 | a late leave hits the topic that took over the name, whose counter rests at -1 without subscribers |
| Membership.RemovedIsFrozen | internal/sim/peer.go:117-123 | a removed peer keeps its subscriptions in every continuation: it can no longer leave |
| Membership.LiveCounterIsExactIff | internal/sim/sim.go:313-332 | at rest the counter exceeds the live subscribers by the removed ones; it is their number exactly if no peer was removed while it was subscribed |
| Membership.RemovedSubscriberIsCounted | internal/sim/peer.go:117-123 | a run at rest with nobody live and the counter at 1 |
| Membership.CounterIsNegativeIff | internal/sim/peer.go:296-338 | the counter is negative exactly while more joins are on their way than subscribers and leaves |
| Membership.CounterCanDipBelowZero | internal/sim/peer.go:296-338 | a run in which the counter is -1 |
| Membership.DeliveryIsCountChange | internal/sim/sim.go:841-850 | the protocol's delivery and the world's count change are the same change |
| Membership.ClosedTopicsReopen | internal/sim/peer.go:306-333 | after a leave the topic can be joined again exactly if the library closed it |
| Membership.OpenTopicsStayOpen | internal/sim/peer.go:254-299 | while a join is unfinished, and once it is finished or abandoned, the topic cannot be opened again, and an abandoned one is never subscribed |
| Coupled.SoundInRuns | internal/sim/peer.go:254-338 | when peers only join what the handlers asked them to, the world's live topics, counters and present peers are those of the protocol in every joint run, and nothing mentions a topic before it was made |
| Coupled.NeverRemovedIsFirstLife | internal/sim/sim.go:342-415 | a topic that was never removed is in the first life of its name |
| Coupled.WorldCounters | internal/sim/sim.go:841-850 | the world's counter of such a topic with the deltas on their way is the number of subscribers, at rest that of the present and the removed ones |
| Clients.Client.OpenTopic | internal/sim/peer.go:254-264 | the join step of the protocol; it fails exactly if the topic is still open |
| Clients.Client.FinishJoining | internal/sim/peer.go:266-299 | stores the subscription and sends its delta, or abandons the join |
| Clients.Client.LeavingTopicState | internal/sim/peer.go:306-338 | drops the subscription and sends its delta, or changes nothing without one; closing may fail |
| Clients.Exchange.TopicPeerChange | internal/sim/sim.go:841-852 | the delivery step of the protocol |
| Clients.Exchange.RemoveClient | internal/sim/peer.go:117-123 | the removal step of the protocol: the subscriptions stay |
| Clients.Exchange.Take | internal/sim/peer.go:248-338 | any call makes its step of the protocol; one that does not apply changes nothing |
| Clients.Serve | internal/sim/peer.go:248-338 | for every sequence of calls the objects are where the protocol's run leads, so their counters obey the conservation law |
| Topics.WindowRefinesHistory | internal/sim/topic.go:70-78 | for a monotone clock the pruned log equals the full history seen through the window at the last re-index |
| Topics.PruneTwice | internal/sim/topic.go:70-78 | pruning at two times equals pruning once at the later |
| Topics.PruneDropsPrefix | internal/sim/topic.go:70-78 | pruning a log in time order drops exactly a prefix |
| Topics.HistoryEntries | internal/sim/sim.go:858-868 | the history has an entry for each message event, with its time and amount, and no other |
| Topics.HistoryAmounts | internal/sim/sim.go:858-868 | the amounts of the history add up to all that was sent |
| Topics.IndexDetermines | internal/sim/states/topic/ss_topic.go:8-20 | from any states that an earlier re-index left, or from none if an index is not zero, the mutations of a re-index leave HasPeers, Peaking and Active as the indexes say, and Stale exactly without Active and Peaking |
| Topics.Topic.DisposeOldMsgs | internal/sim/topic.go:70-78 | the log becomes exactly its recent entries |
| Topics.Topic.IndexesToStates | internal/sim/topic.go:45-68 | prunes the log and leaves the states determined by the indexes |
| Topics.Topic.ChangePeers | internal/sim/sim.go:848-849 | the counter moves by the delta and the topic stays consistent with its events |
| Topics.Topic.LogMsgs | internal/sim/sim.go:865-866 | the log gains the entry and the topic stays consistent with its events |
| Scheduler.GetStateFreq | internal/sim/utils.go:41-84 | a driven state has its own fields where set and the defaults elsewhere, any other state an error |
| Scheduler.OwnFieldsWin | internal/sim/utils.go:67-84 | a frequency of its own wins, zero fields fall back, and each field depends on its own field alone |
| Scheduler.DrivenStatesHaveRates | internal/sim/utils.go:41-65 | the heartbeat drives exactly the ten states that have a frequency, each once |
| Scheduler.EveryFactorIsDrawn | internal/sim/utils.go:280-282 | every factor from above the drift up to the drift down is drawn, by exactly one random number |
| Scheduler.DelayIsShare | internal/sim/sim.go:764-765 | the delay is the drawn factor's share of D units, rounded down to nanoseconds |
| Scheduler.DelayBounds | internal/sim/utils.go:280-282 | every draw, although the larger bound is passed first, stays between the shortest and the longest delay |
| Scheduler.ShippedDelays | internal/sim/config.go:16-54 | with the shipped frequencies these are 0.75 D and 1.25 D seconds, and D and the unit are positive |
| Scheduler.ShippedShortestDelays | internal/sim/config.go:41-54 | the ten shipped shortest delays, from 1.5 seconds for befriending to 75 for a collection |
| Scheduler.Heart.ShippedRateIsBounded | internal/sim/config.go:16-54 | with the shipped frequencies a window of length T holds at most 1 + T / (0.75 D seconds) activations of a state |
| Scheduler.ShippedHeart | internal/sim/config.go:16-54 | the shipped configuration covers every driven state and its drifts are in order |
| Scheduler.WindowRate | internal/sim/sim.go:756-778 | activations spaced by a gap fit a window at most once more than whole gaps do |
| Scheduler.Heart.GetRandStatesToActive | internal/sim/sim.go:751-781 | chooses no state before its shortest delay has passed and every state whose longest has |
| Scheduler.Heart.HeartbeatState | internal/sim/sim.go:243-263 | activates only accepted states that have rested their shortest delay, once each, and every accepted one that has rested its longest |
| Scheduler.BeatKeepsLively | internal/sim/sim.go:751-781 | one more heartbeat keeps an always accepted state lively: activated from the first beat on, less than its longest delay and one beat apart |
| Scheduler.Beats | internal/sim/sim.go:243-263 | for every run of heartbeats no state is activated too soon or unaccepted, and one that is always accepted is activated again and again |
| Scheduler.Heart.RateIsBounded | internal/sim/sim.go:243-263 | over the whole run so far a window of length T holds at most 1 + T / gap activations of one state |
| Medians.Median | internal/bench/bench.go:578-586 | returns the median, the mean of the values at (n - 1) / 2 and n / 2 once sorted, and leaves the slice sorted |
| Medians.MedianIsMiddle | internal/bench/bench.go:578-586 | twice the median is the sum of the two middle values of an even number of values; of an odd number it is the middle one |
| Medians.MedianOfNegated | internal/bench/bench.go:578-586 | negating all values negates the median: it favours neither side |
| Medians.TruncatedIsNearer | internal/bench/bench.go:280 | the conversion to an integer goes towards zero by less than one |
| Medians.SortedForgetsOrder | internal/bench/bench.go:578-579 | reorderings of the values sort to the same slice, so the median does not depend on their order |
| Medians.SortingTwice | internal/bench/bench.go:490-491 | a second call finds the slice sorted and leaves it so |
| Medians.MedianSplits | internal/bench/bench.go:578-586 | at least half the values lie on each side of the median, itself included |
| Medians.MedianWithinRange | internal/bench/bench.go:578-586 | its integer truncation stays within the range of the values |
| Charts.GetAllTestCombos | internal/bench/bench.go:779-791 | exactly the combinations of the grid points and the iterations, hosts by hosts, messages by messages, iteration by iteration |
| Charts.CellMembers | internal/bench/bench.go:779-791 | the cells are exactly the points that whole steps of hosts and of messages reach from the two starts without passing the two ends |
| Charts.CellsAscend | internal/bench/bench.go:779-791 | they come in ascending order, hosts first |
| Charts.TypicalValue | internal/bench/bench.go:280 | a chart of times or sizes shows the middle value, or the whole part of the mean of the two middle ones |
| Charts.FailuresAreCounted | internal/bench/bench.go:210-226 | a failure chart shows the number of failed runs |
| Charts.ResultForgetsOrder | internal/bench/bench.go:490-491 | no reduction depends on the order, so reducing the same slice twice gives the same value |
| Charts.StreamIsByCells | internal/bench/bench.go:479-510 | whatever is parsed and however many iterations there are, the streaming pass does exactly one well-defined step per cell |
| Charts.GroupsIff | internal/bench/bench.go:474-518 | for any bounds and any choice of runs to parse there are as many points as shown cells exactly if every shown cell yields two values and ends on a later iteration than the next begins; then each has its own point, in order |
| Charts.GroupsIffEnough | internal/bench/bench.go:474-518 | for charts that parse every run of a version, two values in every cell are all it takes, for any bounds and number of iterations |
| Charts.ShortCellMixesIn | internal/bench/bench.go:486-495 | a cell with one value loses its point, and its value is plotted with that of the next cell's last run as the next cell's |
| Charts.OneMissingValue | internal/bench/bench.go:486-495 | three cells of two runs with one value missing: one point is wrong and one is lost |
| Charts.GettersThatNeverFail | internal/bench/bench.go:204-230 | a chart whose getter never fails groups correctly from two iterations on |
| Charts.LinesAreSeparate | internal/bench/bench.go:550-561 | plotting keeps every point of one number of hosts, in order, and no other |
| Charts.CompleteLines | internal/bench/bench.go:474-518 | with two values in every cell the line of each number of hosts has exactly the points of its grid cells, each the result of that cell's own values, by ascending messages |
| Charts.UpdateVerPoints | internal/bench/bench.go:550-561 | appends one point to its line |
| Charts.ReadVersion | internal/bench/bench.go:474-518 | the loop over one version equals the fold, and the maximum is raised by its points alone |
| Charts.RenderChart | internal/bench/bench.go:461-518 | each version has its own points plotted and the maximum is that of 0 and all points |
| Traces.TracesToResults | internal/bench/bench.go:825-907 | an error exactly for a broken trace; otherwise allocation is last heap plus all decreases modulo 2^64, active is births less deaths, the collected bytes are all that was reclaimed and all that was swept modulo 2^64, and so on |
| Traces.CollectedByName | internal/bench/bench.go:885-893 | what was collected is the sum of the attributes of these two names in all range ends, and of nothing else |
| Traces.CollectedForgetsOrder | internal/bench/bench.go:885-893 | neither the order of the events nor that of their attributes matters |
| Traces.HeapReports | internal/bench/bench.go:870-881 | a heap report is a metric event of that one name, and each such event is one |
| Traces.ShiftsCount | internal/bench/bench.go:856-868 | a goroutine is born when it comes to exist in a known state, and dies when it ceases to exist |
| Traces.Telescopes | internal/bench/bench.go:870-881 | growth is what is left plus what went away |
| Traces.HeapOrder | internal/bench/bench.go:870-881 | last heap <= maximum <= growth, and the maximum is one of the reports and bounds them all |
| Traces.AllocationIsExactIff | internal/bench/bench.go:870-881 | the reported allocation is the true one exactly if that fits 64 bits, and then is at least the maximum |
| Traces.AllocationCanWrap | internal/bench/bench.go:870-881 | heap reports for which the reported allocation is zero |
| Traces.LiveGoroutines | internal/bench/bench.go:856-868 | births less deaths are the live goroutines less those older than the trace |
| Traces.ActiveIsExactIff | internal/bench/bench.go:856-868 | the active count is the number of live goroutines exactly if none is older than the trace |
| Traces.OlderGoroutineIsNotCounted | internal/bench/bench.go:856-868 | a trace with one live goroutine and an active count of zero |
| Traces.TimeIsSpanIff | internal/bench/bench.go:851-854 | the time is the span of the trace exactly if its first event is not at time zero, or all are |
| Traces.StartAtZeroIsMissed | internal/bench/bench.go:851-854 | a trace from 0 to 7 that is reported as 2 |
| Layout.Cursor.NextGridPos | scripts/am_grafana.py:16-28 | the next cell of two columns, apart from everything handed out before |
| Layout.Cursor.NextRowPos | scripts/am_grafana.py:31-42 | a row of full width below everything handed out before |
| Layout.Cursor.Place | scripts/am_grafana.py:16-42 | for every sequence of calls no two rectangles overlap and none leaves the two columns |
| Layout.Cursor.MachPanels | scripts/am_grafana.py:45-157 | a machine's six rectangles and the height they take |
| Layout.Cursor.Dashboard | scripts/sim.dashboard.py:23-106 | the simulator's five rectangles and then one section per machine, all apart |
| Layout.SectionAt | scripts/sim.dashboard.py:101-106 | for any number of machines the i-th section starts i section heights down |
| Layout.ShippedRows | scripts/sim.dashboard.py:101-106 | machine i's row is at y = 17 + 26 i |

## Left out

Assumptions:

- Each Enter and State pair is one atomic transition, and a rejected guard cancels it.
- Readiness turns on at any time and stays on until the peer is removed, as the relations in `internal/sim/states/peer/ss_peer.go:18-49` intend; connecting, identities and discovery are not modelled.
- The library's Join fails while the topic's handle is open, and peers stay connected until they are removed. A removed peer's machine is disposed of before it can leave its topics (`internal/sim/peer.go:117-123`): it takes no further step and keeps its subscriptions; deltas that it sent may still arrive, or never.
- A peer's machine opens a topic only when it was asked to (`Coupled.CanStep`); it may leave a topic without being asked.
- A peer connects and becomes ready at once (`internal/sim/peer.go:177`).
- The topic machine resolves Add, Remove, Require and Auto as `Topics.Mutate` says; a mutation without effect may be skipped or run in full. asyncmachine-go is not part of this model.
- One clock reading serves the whole of a pruning pass and of a re-index; the scheduler's history is the list of activation times, and queued activations run at once.

Not modelled:

- `MsgRandomTopicState`, `SendingMsgs` and `readLoop`: goroutines and network; their effects are stored messages, logged messages and verifications at any time.
- `StartState` and the loop behind it: a run may begin with any number of AddPeer and AddTopic transitions.
- Bounds the code does not keep: topics per peer and peers per topic are checked by some handlers only, and PeakRandTopic joins without touching the peer's own list, so that list and the subscriptions need not agree.
- The source's one Peer class is two here, `Roster.Peer` for what the simulator edits and `Clients.Client` for subscriptions; likewise a topic's counter is in `Topics.Topic` and, for the protocol, in `Clients.Exchange`.
- Data races: every update is atomic.
- Floating point: delays and medians are over reals; integer overflow in the sum of two middle values.
- Printing, plotting, files, processes, panel titles and queries, and the discovery server.

Weaker than the source:

- Simulator.Sim.RefreshMetricsState: without connections and streams, which belong to the network, and without the export to Prometheus.
- Charts.GroupsIffEnough: for charts that parse all combinations of a version, where each shipped chart parses all or none; `Charts.GroupsIff` has no such condition.
