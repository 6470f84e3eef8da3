# Verified models of the chat server's state machines

This project models, in Dafny, the parts of the chat server whose correctness depends on many steps
together: leader election and failure detection in a cluster, the group topic as a sequential object,
ranges of deleted messages, video calls, the exchange of presence, the in-flight token of a session,
tenant separation, the long-poll index of the session store and the status word of a topic.

`dafny verify dfyconfig.toml` checks all of it.

| Files | What they model |
|---|---|
| `Quorum`, `NodeRules`, `Election`, `ElectionRuns` | majorities; what a node does with one vote or health message; the whole cluster with delayed, lost and reordered messages, election safety over all runs, and that every node can be elected |
| `FailureDetector`, `ClusterRunner` | the leader's failure counters; the code of one node as a class |
| `AccessMode`, `Group`, `GroupFrames` | permissions as sets of flags; the state of a group topic with its store, and every request as a function on it |
| `GroupOwner`, `GroupSoleOwner`, `GroupAccess`, `GroupOnline`, `GroupMarkers`, `GroupDelivery`, `GroupRuns` | what every run of a group topic keeps: an owner, permissions changed only by right, exact online counters, ordered markers, gapless delivery |
| `GroupEffects` | what each request to a group achieves, and exactly when, by guards |
| `GroupWitnesses` | runs of a new group which show why conditions are needed |
| `GroupRunner` | the handlers of the group topic as methods of a class, each of which keeps the topic valid and equals the function on states |
| `Ranges` | ranges of message ids: checking, collapsing in place, counting unread messages |
| `Calls`, `CallRunner` | video calls as a state machine with a trace, and its handlers as a class |
| `Presence`, `PresenceRunner` | the presence exchange over a network of topics, and the contact table as a class |
| `Inflight` | the token that travels from session to hub to topic |
| `Tenant`, `SessionRunner` | tenants of sessions, topics and messages; {hi} and the outgoing queue as a class |
| `SessionStore` | the cache of sessions and the list of long-polling ones |
| `TopicStatus` | concurrent load and compare-and-swap on the status word |

Each handler that works by changing fields is a method proved equal to a function on an abstract state;
the guarantees are then lemmas about all sequences of those functions. Outcomes of store calls, the
network, clocks, full queues and the order in which maps are iterated are parameters or arbitrary
choices, so the lemmas hold for all of them.

## What the proofs turned up

- A transfer of group ownership makes three store writes. If the last one fails the cached owner and the
  stored owner differ, and a later removal can leave the store with no owner
  (`GroupWitnesses.StrandedTransferCanLoseTheStoredOwner`). The store keeps naming the cached owner exactly
  when no transfer fails this way (`GroupOwner.StoreKeptIffNotStranded`); loading the topic again before
  the next request repairs it (`GroupRuns.LivesStaySound`).
- A group can have a second effective owner while the topic's owner stays the same. There are three ways:
  a user with a grant left from an older subscription subscribes asking for ownership, which is not
  checked; a user who was granted ownership and had banned itself comes back without asking for a mode;
  the owner grants ownership to a user who already wants it, having asked for it in its first
  subscription. These are all of them
  (`GroupSoleOwner.SoleOwnerKeptIff`, `GroupSoleOwner.SoleOwnerThroughoutIff`), and each occurs in a run of
  a new group (`GroupWitnesses`). This is why the claim elsewhere is at least one owner.
- `RangeSorter.Normalize` goes wrong on sorted input in three ways: ranges behind a consumed one are
  dropped, two ranges with one id between them are joined, a single id right at the end of a range is
  lost (`Ranges.NormalizeGoesWrong`). Its comment speaks of inclusive ends while the type says that the
  high end is exclusive; the model follows the code. The exact condition for keeping the ids is
  `Ranges.KeepsIds` (`Ranges.NormalizeKeepsIdsIff`), the one for also leaving nothing to collapse is
  `Ranges.CollapsesCleanly` (`Ranges.NormalizeRightIffClean`).
- `calculateUnreadInRanges` counts an unread id covered by two ranges twice
  (`Ranges.OverlapIsCountedTwice`); it is exact if and only if there is no such id
  (`Ranges.SumRightIffNotTwice`).
- Edge-triggered failure detection equals recomputation exactly when the configured limit is positive.
- A contact whose first message is a plain "on" is recorded as online but disabled. If a message without
  status enables it later, it is online and the sessions are never told (`Presence.OnlineWithoutNotice`).
- The in-flight token is kept for good by a request left in the queue of a topic that exits
  (`Inflight.LeaveOfExitingTopicIsDropped`, `Inflight.DroppedTokenIsKeptForGood`). The hub drops a request
  with an invalid tenant in the same way, but sessions without a tenant cannot ask to subscribe, so this
  takes a stored tenant with a negative id.

## Model

| member | source | states |
|---|---|---|
| `Quorum.QuorumsIntersect` | server/cluster_leader.go:208-210 | any two sets of at least the votes needed for election share a node |
| `Quorum.ServesIffQuorum` | server/cluster.go:852-863 | a node is not partitioned if and only if its active nodes could elect a leader |
| `Quorum.ServingNodesOverlap` | server/cluster.go:852-863 | two nodes which both keep serving have active sets that share a node |
| `Quorum.AtMostOneSideServes` | server/cluster.go:852-863 | of any split of the cluster at most one side serves |
| `Election.ActionKeeps` | server/cluster_leader.go:198-342 | every action of every node keeps: one vote per node and term, counted votes are votes cast, elected leaders have majorities, named leaders were elected in that term |
| `Election.RunKeeps` | server/cluster_leader.go:260-347 | the invariant holds in every state of every run of a cluster of any size |
| `Election.TermsNeverDecrease` | server/cluster_leader.go:285-342 | between any two moments of a run no node's term decreases and no election is forgotten |
| `Election.OneReignPerTerm` | server/cluster_leader.go:198-257 | two leaders elected in one term are the same node |
| `Election.ElectionSafety` | server/cluster_leader.go:198-257 | over a whole run with delayed and lost messages at most one node is ever elected for a term |
| `Election.LeadersAgree` | server/cluster_leader.go:285-307 | nodes that name a leader for the same term, at any two moments, name the same one |
| `Election.WrongLeaderUnreachable` | server/cluster_leader.go:299-304 | no health check a node can receive takes the branch that should never happen |
| `Election.LeaderIsNotDeposedInItsTerm` | server/cluster_leader.go:285-307 | while its term lasts a leader is not replaced by a health check |
| `Election.LeaderReachesEveryQuorum` | server/cluster_leader.go:198-257 | a leader's voters meet every majority of active nodes |
| `ElectionRuns.EveryNodeCanLead` | server/cluster_leader.go:198-342 | in every cluster each node has a run in which it gathers a majority, is elected and is then named leader by all nodes |
| `FailureDetector.EdgeIffAliveChanges` | server/cluster_leader.go:151-196 | a round asks for a rehash if and only if the recomputed active set changed |
| `FailureDetector.RoundsStayExact` | server/cluster_leader.go:151-196 | after any number of rounds the edge-triggered active set is self plus the peers below the limit |
| `FailureDetector.ActiveIffAnsweredLately` | server/cluster_leader.go:151-196 | after any number of rounds a peer is active if and only if it answered one of the last rounds, as many as the limit says, or there were fewer |
| `FailureDetector.DetectionExactIffLimitPositive` | server/cluster_leader.go:97-119 | from the initial state this is so exactly when the limit is at least one or there are no peers |
| `ClusterRunner.WinsIffMajority` | server/cluster_leader.go:226-250 | the wait loop is won if and only if a majority agrees before a timeout, a voter of a later term or the last completion |
| `ClusterRunner.Cluster.constructor` | server/cluster_leader.go:88-123 | a new node knows no leader and takes all nodes for active |
| `ClusterRunner.Cluster.ElectLeader` | server/cluster_leader.go:198-257 | the term grows by one and the node leads exactly if it collects a majority |
| `ClusterRunner.Cluster.Tick` | server/cluster_leader.go:270-284 | a leader checks its followers, others start an election after enough missed checks |
| `ClusterRunner.Cluster.HandleHealth` | server/cluster_leader.go:285-326 | the sender of a check that is not older becomes the leader of its term and missed checks start over; an older one changes nothing |
| `ClusterRunner.Cluster.HandleVote` | server/cluster_leader.go:328-342 | the answer is yes exactly for a newer term and carries the node's term from now on, the larger of the two; a yes clears the leader, a no changes nothing |
| `ClusterRunner.Cluster.SendHealthChecks` | server/cluster_leader.go:151-196 | counters follow the specification and the active list stays exact |
| `ClusterRunner.Cluster.IsPartitioned` | server/cluster.go:852-863 | the answer is the negation of the election quorum over live nodes |
| `GroupOwner.AlwaysOwned` | server/topic.go:1721-1753 | no sequence of requests leaves the group without an owner who has the owner flag wanted and given |
| `GroupOwner.StepKeepsOwner` | server/topic.go:1523-1900 | each single request keeps the owner a subscriber with both flags |
| `GroupOwner.OwnershipByConsent` | server/topic.go:1804-1849 | ownership passes only to a user who asks for it and was granted it; only the owner grants it |
| `GroupEffects.TransferIff` | server/topic.go:1804-1849 | the owner changes if and only if a subscriber with a grant asks for ownership and all three writes succeed; then cache and store have the flag in both modes of the new owner and in neither of the old one |
| `GroupEffects.StoreSelfEffect` | server/topic.go:1721-1849 | a request for oneself succeeds exactly if it is not refused and its writes succeed, and then yields the mode asked for and the grant an owner or admin may extend |
| `GroupEffects.AdmissionEffect` | server/topic.go:1612-1700 | a new subscriber is admitted exactly within the limit, with joining in its old or default grant, and with its write stored |
| `GroupOwner.StoreKeptIffNotStranded` | server/topic.go:1804-1834 | the store keeps naming the cached owner if and only if the request is not a transfer whose last write fails |
| `GroupOwner.EveryPrefixLeavesAStoredOwner` | server/topic.go:1804-1834 | after every prefix of the store writes some stored subscription is an effective owner |
| `GroupOwner.StoreAlwaysOwned` | server/topic.go:1804-1849 | over runs without such a failure the store always has an owner |
| `GroupWitnesses.StrandedTransferCanLoseTheStoredOwner` | server/topic.go:1815-1830 | a run of a new group in which a failed last write and a removal leave no stored owner |
| `GroupSoleOwner.SoleOwnerKeptIff` | server/topic.go:1612-1803 | a request leaves the owner the only effective owner if and only if it does not admit a user with an old grant who asks for ownership, bring a self-banned user with a grant back without a mode, or invite a user who already wants ownership |
| `GroupSoleOwner.StoreInviteSole` | server/topic.go:1901-2070 | the condition for invites, from the guards of the code |
| `GroupSoleOwner.SoleOwnerThroughoutIff` | server/topic.go:1804-1849 | the owner is the only effective owner in all states of a run if and only if no request of the run is one of those |
| `GroupWitnesses.GrantMeetsWish` | server/topic.go:1637-1641 | a run in which the first subscription asks for ownership and a later grant makes a second owner without a transfer |
| `GroupWitnesses.ReturnAfterBan` | server/topic.go:1765-1772 | a run in which a self-banned user with a grant becomes a second owner by coming back |
| `GroupWitnesses.GrantOutlivesSubscription` | server/topic.go:1618-1630 | a run in which a grant survives unsubscribing and makes a second owner |
| `GroupOwner.NewGroupIsOwned` | server/init_topic.go:504-587 | a created group has its creator as owner in cache and store |
| `GroupOwner.LoadingRecoversAnOwner` | server/init_topic.go:821-846 | what is loaded are exactly the stored subscriptions, with an owner whenever the store has one and none otherwise |
| `GroupOwner.LoadSubscribers` | server/init_topic.go:821-846 | the loop computes that, the last effective owner listed winning |
| `GroupAccess.PermissionsChangeByRight` | server/topic.go:1721-1803 | what a subscriber wants changes only at its own request, what it is given only by an admin's invite or within limits by itself as an admin, but for a former owner who loses ownership |
| `GroupAccess.RemovalByRight` | server/topic.go:3364-3412 | a subscriber is removed only at its own request or by an admin, never the owner, an effective owner only at its own request |
| `GroupAccess.NoEscalation` | server/topic.go:1721-1803 | over every run a subscriber who is no admin and is not invited gains no permission |
| `GroupEffects.GrantEffect` | server/topic.go:2040-2110 | exactly which invites change a subscriber's grant, in cache and store; one without joining detaches all its sessions |
| `GroupEffects.InviteEffect` | server/topic.go:1901-2037 | exactly which invites make a new subscriber, and with which modes |
| `GroupEffects.RemovalIff` | server/topic.go:3364-3425 | exactly when a subscriber is removed; then its sessions are gone and told, its stored subscription deleted, everybody else untouched |
| `GroupEffects.UnsubscribeIff` | server/topic.go:3455-3536 | exactly when a user unsubscribes, with the same effect |
| `GroupOnline.StepKeepsOnline` | server/topic.go:3907-3973 | each request keeps every online counter equal to the number of attached sessions |
| `GroupOnline.OnlineCountsSessions` | server/topic.go:769-800 | over every run the counters equal the session counts and are never negative |
| `GroupOnline.OffExactlyWhenLastSessionLeaves` | server/topic.go:843-854 | a leaving session announces "off" exactly when it was the user's last one |
| `GroupEffects.AttachIff` | server/topic.go:1393-1460 | a subscription attaches its session exactly if the topic is active, the session not linked and the user, as it ends up, may join; it then starts with an empty queue after the last message, is linked and counted |
| `GroupEffects.BanDetaches` | server/topic.go:1865-1900 | a request for oneself detaches all sessions of a user who bans itself and none otherwise |
| `GroupMarkers.StepKeepsMarkers` | server/topic.go:1155-1268 | each request keeps read, received and deletion markers in order and never moves a subscriber's markers back |
| `GroupMarkers.MarkersStaySane` | server/topic.go:3281-3308 | if loaded markers are in order they are so in every later state |
| `GroupEffects.NoteEffect` | server/topic.go:1155-1268 | exactly which notes move a marker, to the id of the note, and that reading implies having received |
| `GroupEffects.DeleteEffect` | server/topic.go:3197-3312 | exactly which deletions take the next id, and whom a hard and a soft one mark |
| `GroupDelivery.DeliveryFollowsHistory` | server/topic.go:1303-1390 | over every run stored ids are consecutive and each queue is exactly what the history says is due |
| `GroupDelivery.QueuedIffDue` | server/topic.go:1314-1372 | a message is on the queue of an attached session exactly if the history says it was due |
| `GroupDelivery.NoGapsButOwnPosts` | server/topic.go:1014-1104 | ids queued to an attached session increase strictly; if it was listening the only gaps are its own no-echo posts |
| `GroupDelivery.OverflowDetaches` | server/topic.go:1374-1390 | a session whose queue overflows is detached by that same broadcast |
| `GroupEffects.PublishEffect` | server/topic.go:1014-1151 | exactly when a message is accepted; each attached session that is to get it has it next on its queue or is detached |
| `GroupRuns.StepStaysSound` | server/topic.go:1014-1390 | every request keeps owner, counters, markers and delivery together |
| `GroupRuns.RunsStaySound` | server/topic.go:1014-1390 | all guarantees of a group topic together hold over every run |
| `GroupRuns.NewGroupRuns` | server/init_topic.go:504-587 | they hold over every run of a newly created group |
| `GroupRuns.LoadedIsSound` | server/init_topic.go:631-675 | a topic loaded from a store with an owner has all guarantees and agrees with the store, even after a stranded transfer |
| `GroupRuns.Reload` | server/init_topic.go:631-675 | loading computes such a topic |
| `GroupRuns.LivesStaySound` | server/init_topic.go:631-675 | over every life of requests and reloads, with a stranded transfer at most right before a reload, all guarantees hold and the store has an owner |
| `GroupRuns.NewGroupLives` | server/init_topic.go:504-587 | the same for a newly created group |
| `GroupRunner.Topic.constructor` | server/init_topic.go:631-675 | a topic that is owned, idle and has markers in order is valid |
| `GroupRunner.Topic.EvictUser` | server/topic.go:3543-3591 | all sessions of the user are detached and told to drop the topic; the record is reset or removed |
| `GroupRunner.Topic.UpdateSubscriber` | server/topic.go:1721-1803 | the modes asked for as specified, including refusal to the owner |
| `GroupRunner.Topic.WriteSubscriber` | server/topic.go:1804-1849 | up to three writes; the cache changes only if all succeed |
| `GroupRunner.Topic.ThisUser` | server/topic.go:1523-1900 | the whole subscription request keeps the topic valid and is as specified |
| `GroupRunner.Topic.RegisterSession` | server/topic.go:344-374 | a join request keeps the topic valid and is as specified, refused for inactive topics and linked sessions |
| `GroupRunner.Topic.AnotherUser` | server/topic.go:1901-2110 | an invite or a changed grant keeps the topic valid and is as specified |
| `GroupRunner.Topic.DelSub` | server/topic.go:3364-3425 | removal of a subscriber keeps the topic valid and is as specified, never of the owner |
| `GroupRunner.Topic.LeaveForGood` | server/topic.go:752-767 | {leave unsub} keeps the topic valid and unsubscribes as specified, refused while the topic is inactive and to the owner |
| `GroupRunner.Topic.DelTopic` | server/topic.go:3322-3330 | {del topic} of another user than the owner keeps the topic valid and unsubscribes, in an inactive topic too |
| `GroupRunner.Topic.LeaveUnsub` | server/topic.go:3455-3515 | what both come down to: the stored subscription is deleted and the user evicted, never the owner |
| `GroupRunner.Topic.HandleLeave` | server/topic.go:737-880 | leaving keeps the topic valid and announces the user exactly if no session of it is left |
| `GroupRunner.Topic.BroadcastData` | server/topic.go:1303-1390 | delivery to those due and dropping of those stuck, whatever the order of sessions |
| `GroupRunner.Topic.SaveAndBroadcast` | server/topic.go:1014-1104 | publishing keeps the topic valid, so ids, queues, counters and markers, and is as specified |
| `GroupRunner.Topic.HandleNote` | server/topic.go:1155-1268 | read and received notes keep the topic valid and are as specified |
| `GroupRunner.Topic.DelMsg` | server/topic.go:3197-3312 | soft and hard deletion keep the topic valid and are as specified |
| `Ranges.CheckRanges` | server/topic.go:3227-3251 | malformed requests are refused; otherwise the ranges cover exactly the requested ids up to the last one |
| `Ranges.CanonicalKeepsMeaning` | server/topic.go:3236-3242 | the canonical form of an entry denotes the same ids |
| `Ranges.Normalize` | server/store/types/types.go:1269-1294 | the in-place loop computes the specified collapse |
| `Ranges.MergeAllExact` | server/store/types/types.go:1279-1286 | merging a tail denotes the ids asked for if and only if all merges are exact |
| `Ranges.CollapseResurrects` | server/store/types/types.go:1274-1289 | if something is consumed and something later is not, the consumed range shows up again |
| `Ranges.NormalizeRightIffClean` | server/store/types/types.go:1269-1294 | on sorted ranges the result is collapsed and covers the same ids if and only if the list collapses cleanly |
| `Ranges.NormalizeKeepsIdsIff` | server/store/types/types.go:1269-1294 | on sorted ranges the ids stay the same if and only if every id taken in between two joined ranges was asked for and no dropped range reaches further than all kept ones |
| `Ranges.NothingLostIffReached` | server/store/types/types.go:1274-1289 | why the furthest end decides what is lost |
| `Ranges.NormalizeGoesWrong` | server/store/types/types.go:1269-1294 | concrete lists whose ids are lost or invented |
| `Ranges.UncleanMayKeepIds` | server/store/types/types.go:1269-1294 | a list that keeps its ids although it does not collapse cleanly |
| `Ranges.SumRightIffNotTwice` | server/topic.go:4034-4067 | the sum of overlaps is the number of covered unread ids if and only if no unread id lies in two ranges, and too large otherwise |
| `Ranges.CalculateUnreadInRanges` | server/topic.go:4034-4067 | the loop computes that sum, so it is right exactly then and at most the number of unread ids |
| `Ranges.OverlapIsCountedTwice` | server/topic.go:4034-4067 | two overlapping ranges for which four of three unread messages are counted |
| `Ranges.UnreadDeleted` | server/topic.go:3253-3296 | for lists that collapse cleanly, collapsing and counting yields the number of unread ids asked for |
| `Calls.StepGrows` | server/calls.go:241-455 | each request keeps parties and timer in order and adds at most one message, which the phase of the call admits |
| `Calls.CallsFollowTheGrammar` | server/calls.go:222-455 | over every run a call is an invite, at most one accepted, at most one ending; calls do not overlap; finished implies accepted, declined or missed implies never accepted |
| `Calls.CallsHaveAnOriginator` | server/calls.go:208-220 | over every run one or two parties, exactly one originator, two users if two, and the timer is armed exactly while waiting |
| `Calls.EveryOtherCallEnded` | server/calls.go:377-430 | every call but the current one has its ending, saved or failed to be saved |
| `Calls.OutcomeTellsWhoEndedIt` | server/calls.go:351-410 | each ending is finished, declined, missed or disconnected exactly as who ended the call and its phase demand |
| `Calls.StartsIff` | server/topic.go:1121-1150 | exactly when a call starts, with the inviting session as only party and the timer armed |
| `Calls.EstablishedIff` | server/calls.go:267-316 | a waiting call is established exactly by an acceptance of another user on another session that can be saved, with that session as second party |
| `Calls.EndsIff` | server/calls.go:351-455 | a call ends exactly by a hang-up of a party, or of anybody but the caller elsewhere while it waits, by the timer, or by a party that leaves |
| `Calls.EndIsSaved` | server/calls.go:377-430 | every end stops the timer and adds one message, saved under the next id unless it cannot be |
| `Calls.AnswerReachesTheCaller` | server/calls.go:267-316 | ringing and accepting are told to the calling session, and exactly when |
| `Calls.MetadataReachesThePeer` | server/calls.go:318-349 | call metadata is forwarded exactly from one party of an established call to the other |
| `CallRunner.Topic.GetCallOriginator` | server/calls.go:208-220 | the scan finds the one originator |
| `CallRunner.Topic.HandlePubBroadcast` | server/topic.go:1108-1151 | publishing as specified; an invite starts a call unless there is one |
| `CallRunner.Topic.HandleCallEvent` | server/calls.go:241-374 | a call event as specified, and to which session it is forwarded |
| `CallRunner.Topic.MaybeEndCallInProgress` | server/calls.go:377-430 | the ending that fits who ended the call and how far it got, then no call and no timer |
| `CallRunner.Topic.TerminateCallInProgress` | server/calls.go:433-455 | a server-side ending, never the branch for a call without originator |
| `CallRunner.Topic.OnTimer` | server/topic.go:613-614 | the timeout as specified |
| `CallRunner.Topic.UnregisterSession` | server/topic.go:311-329 | a party that leaves ends the call |
| `Presence.ReplyWeighsLess` | server/pres.go:206-226 | an answer weighs less than the message it answers |
| `Presence.DeliveryLowersWeight` | server/pres.go:206-226 | each delivery to any topic in any state lowers the total weight in flight |
| `Presence.ExchangeDrains` | server/pres.go:97-229 | over every run at most three deliveries for each message sent, besides those in flight at first |
| `Presence.NoThirdReply` | server/pres.go:206-226 | one message leads to at most two chained answers |
| `Presence.AnswersIff` | server/pres.go:206-226 | a topic answers exactly if it is active, no proxy, asked to and told "on" or "?unkn"; the answer says "on" to the sender |
| `Presence.ComingOnlineIsMutual` | server/pres.go:97-229 | after "on" and its answer two users who listen to each other both know that the other is online, and nothing more is in flight |
| `Presence.AskingForStatusIsMutual` | server/pres.go:97-229 | the same after "?unkn" and its two answers |
| `Presence.RecordEffect` | server/pres.go:143-204 | the record of the sender after any message, and that no other record changes |
| `Presence.ForwardedIff` | server/pres.go:143-204 | exactly which "off", "gone" and other messages are forwarded, and as what |
| `Presence.GoingInvisible` | server/pres.go:255-283 | going invisible takes all contacts but channels for offline and changes nothing else |
| `Presence.LoadingLists` | server/pres.go:46-79 | loading lists each subscription's contact as offline, enabled as the last one for it says |
| `Presence.OnIffBecomesLive` | server/pres.go:143-204 | "on" is forwarded exactly when an "on" takes the record to enabled and online; when this happens unheard |
| `Presence.OffIffStopsBeingLive` | server/pres.go:143-204 | a contact stops being enabled and online exactly with a forwarded "off" or "gone" or a silent removal; other contacts are untouched |
| `Presence.OnsAreSeparated` | server/pres.go:143-204 | over every run two forwarded "on"s of a contact have an "off", "gone", removal, local mute or the one load that lists the contact in between |
| `Presence.OnlineWasTold` | server/pres.go:143-204 | over every run a contact recorded as online was last reported so to the sessions, unless it was enabled unheard |
| `Presence.OnlineWithoutNotice` | server/pres.go:187-196 | the family of messages by which a contact is online without notice |
| `PresenceRunner.Table.ProcPresReq` | server/pres.go:97-229 | record, forwarded status and answer as specified |
| `PresenceRunner.Table.AddToPerSubs` | server/pres.go:46-64 | a contact is listed, a peer-to-peer topic by the other user, oneself never |
| `PresenceRunner.Table.LoadContacts` | server/pres.go:69-79 | all subscriptions are listed as offline |
| `PresenceRunner.Table.SendSubNotifications` | server/topic.go:972-984 | the contacts are loaded and told once, later calls do nothing |
| `PresenceRunner.Table.PresUsersOfInterest` | server/pres.go:255-283 | one message for each contact but channels; going invisible takes them for offline |
| `Inflight.StepKeepsInv` | server/hub.go:161-239 | each step keeps: requests with a token find it taken, one per session; requests without come from closed sessions |
| `Inflight.DoneIsNeverBeforeAdd` | server/sessionstore.go:35-59 | over every run and path the token is never given back without having been taken |
| `Inflight.AtMostOneInFlight` | server/session.go:678-719 | over every run a session has at most one subscribe or leave in flight, with its token taken and its group in place |
| `Inflight.TokenTakenIffInFlightOrDropped` | server/init_topic.go:21-127 | over every run the token is taken exactly while a request is in flight or after a step of the run dropped one |
| `Inflight.DroppedTokenIsKeptForGood` | server/session.go:435-451 | once a request was dropped the session never gets its token again and never finishes its cleanup |
| `Inflight.LeaveOfExitingTopicIsDropped` | server/session.go:706-716 | a run in which a request to leave is left in the queue of a topic that exits |
| `Inflight.FinishedRequestFreesToken` | server/topic.go:331-374 | whoever finishes a request at its place frees the token, so the session may ask again |
| `Inflight.SubscribeRoundTrip` | server/session.go:664-694 | a subscription to a topic that has to be loaded takes the token, and at the end of its way through hub, initialisation and topic the session is as before |
| `Inflight.CleanUpIff` | server/session.go:435-451 | a session drops its group exactly when it terminates with no token taken, and then leaves all its topics without one |
| `Tenant.StepKeeps` | server/hub.go:161-214 | each step keeps keys, attached sessions, join requests, messages and queues within their tenants |
| `Tenant.TenantIsBoundOnce` | server/session.go:785-829 | over every run a tenant once bound stays |
| `Tenant.TopicsKeepTenantsApart` | server/hub.go:103-109 | over every run hub keys match their topics and attached sessions are of their topic's tenant |
| `Tenant.MessagesStayWithTheTenant` | server/session.go:338-343 | over every run queued messages carry the session's tenant, or none before {hi}, and no cross-tenant check ever strikes |
| `Tenant.HiEffect` | server/session.go:781-829 | exactly which {hi} binds a session, and under which tenant it is answered |
| `Tenant.HubJoinEffect` | server/hub.go:182-230 | a request with a valid key goes to the one topic of the key, created if there is none |
| `Tenant.SameKeySameTopic` | server/hub.go:182-230 | two requests for one name of one tenant meet in one topic |
| `Tenant.OtherTenantOtherTopic` | server/hub.go:182-214 | over every run requests of different tenants never meet |
| `Tenant.HandleEffect` | server/topic.go:1303-1372 | a message is queued exactly to those sessions of the topic it is meant for which have room, under their tenant |
| `Tenant.AttachedHears` | server/topic.go:1014-1104 | a session whose request reached a topic is attached and hears what is published there |
| `SessionRunner.ClientSession.QueueOut` | server/session.go:328-379 | the message is stamped and queued, or refused for another tenant or a full queue |
| `SessionRunner.ClientSession.Hello` | server/session.go:781-829 | the tenant changes only from none, by a {hi} that is in order |
| `SessionStore.FreshEndMeansNoneStale` | server/sessionstore.go:133-144 | if the last listed session is fresh no cached long-polling session is stale |
| `SessionStore.TouchKeepsOrder` | server/sessionstore.go:163-176 | moving the session touched last to the front keeps the list sorted, complete and without duplicates |
| `SessionStore.Store.NewSession` | server/sessionstore.go:76-160 | the session is added and exactly the sessions a full scan finds stale are expired |
| `SessionStore.Store.Expire` | server/sessionstore.go:133-144 | the early-exit loop removes exactly the stale sessions |
| `SessionStore.Store.Get` | server/sessionstore.go:163-177 | the session; a long-polling one is touched and moved to the front |
| `SessionStore.Store.Delete` | server/sessionstore.go:180-190 | the session is removed from cache and list, also if it was removed before |
| `SessionStore.Store.EvictUser` | server/sessionstore.go:223-242 | exactly the user's sessions but the skipped one are removed |
| `TopicStatus.InterleavingIsSequential` | server/topic.go:3734-3750 | over every interleaving the status is what the returned calls make it one after another, each once |
| `TopicStatus.OrderIsRealTime` | server/topic.go:3734-3750 | in that order a call that returned before another was made comes first |
| `TopicStatus.NoUpdateIsLost` | server/topic.go:3734-3750 | a change shows in the status until one of the opposite kind takes effect |
| `TopicStatus.FlagsAreAsLastChanged` | server/topic.go:3721-3750 | over every interleaving each flag is what the last call on it that took effect made it |
| `TopicStatus.LoneCallReturns` | server/topic.go:3734-3750 | a call that is left alone returns with its change made |
| `TopicStatus.DeletedForever` | server/topic.go:3764-3776 | once a deletion mark took effect the topic is inactive in every later state |
| `TopicStatus.SeenDeletedStaysDeleted` | server/topic.go:3773-3788 | a topic seen deleted stays deleted and inactive |

## Left out

- GroupRuns.LivesStaySound: stored markers of subscriptions are not part of the state, so that they are in order when loaded is a condition.
- Node restarts: the node set is fixed and terms are not persisted, so a restarted node could vote twice.
- Rehashing of followers on a signature mismatch, the hash ring and the routing of topics.
- Group topics only, with local foreground sessions: channels, peer-to-peer subscriptions, multiplexed and background sessions do not appear in `Group`.
- Requests of a group topic are atomic, as they are on its goroutine; notifications, pushes, plugins, private data, the unread cache, the subscriber count and the unions of permissions are not part of its state.
- Ranges.Normalize: sorting before it is a precondition of the lemmas, because the library sort is not modelled.
- Ranges.CheckRanges: does not model the limit on the number of deleted messages, which refuses long lists.
- Calls: sending to a session succeeds. That a party is dropped for a full queue while a call message is broadcast, which re-enters the handler, is not modelled, nor are the contents and durations in call messages.
- Calls: a permitted and stored message is one outcome, since permissions and the store fail alike.
- Presence: status and command are parsed values, not strings; who sends which status when is arbitrary within the commands the code emits.
- Inflight: taking the token and the check that the session is not terminating are one step, and topics are not told apart, so every topic can fail, exit or drain at any time. That waiting for the group ends is not claimed.
- Tenant: login, accounts and stores are not modelled; a join request that reached a topic may attach its session at any later time, which covers proxy topics.
- SessionStore.Store.NewSession: store operations are atomic, times come from a clock that does not go back, and the cleanup of expired sessions is not modelled.
- SessionStore.Store.Delete: the session in the cache under that id, if any, is the one to delete, since ids are not reused.
- TopicStatus: readers are single loads and need no model of their own.
- HTTP, websocket, long-poll and gRPC handlers, encodings, authentication, database adapters, files, the command line tools: plumbing around the state machines.
