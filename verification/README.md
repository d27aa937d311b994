# PoP: protocols and tallies, modelled in Dafny

The PoP system runs decentralised proof-of-personhood organisations (LAOs) over a network of servers
and web clients. This project models the parts of it where several machines, several copies of one
fact, or several loops have to agree, and proves that they do, or exactly when they do.

| module | what it models |
|---|---|
| `Basics` | options, maxima, sequences without repetition |
| `RumorTables`, `RumorInvariant`, `RumorSteps` | the rumor and message tables of a server, each database transaction as a function on them, and what every transaction keeps |
| `RumorStore` | the database object itself: each transaction as a method with its loops, proved against those functions |
| `CausalBroadcast`, `Gossip`, `GossipPosts` | rumor gossip among any number of servers over a network that loses, repeats and reorders: the tables refine an abstract broadcast protocol, and the channels of the messages survive |
| `RumorBuffer` | the buffer of rumors that came too early, and what is lost in it |
| `AntiEntropy`, `AnswerSelection` | answering a vector clock with the missing rumors: progress and convergence |
| `SortedPaths`, `SortedAnswer`, `ReachableRuns` | when sorting an answer is enough, an answer for which it is not, and what can be reached |
| `Consensus`, `ConsensusProtocol` | one server's consensus instance, handler by handler, and the system of all servers |
| `ConsensusReports`, `ConsensusRuns`, `MixedAccepts` | what each message reports of earlier ones, who stays silent when, and a Learn on accepts of two tries |
| `CastVotes`, `ElectionTally`, `Election`, `ElectionResults` | recording, counting and registering votes, the election channel over whole runs, and what its results say of the messages accepted |
| `ElectionLog`, `RollCallLog` | phases and ids read back from the message log, against those kept in memory |
| `Sockets`, `Retry` | spreading a rumor around the ring of sockets; the bounded retry of fetched messages |
| `RpcConnection`, `RpcSent`, `JavaHash` | the web client's pending requests, what it sends for them, and its emulation of a Java hash |

A database transaction is one atomic step that commits or changes nothing. Message ids and signatures
are distinct for distinct messages. Maps are visited in an arbitrary order wherever the source ranges
over one. Stored times increase from one transaction to the next.

Where the source keeps state in fields or loops over it, the model is a class or a method with a loop;
each method is proved equal to a function on the state, and the theorems are about that function over
all runs.

## What turned out not to hold

Each of these is a lemma with the input, or the exact condition.

- An answer is accepted throughout exactly when it comes in causal order (`AntiEntropy.AcceptedExactly`).
  The comparison that sorts it is not a strict weak order in general, and sort.Slice may then leave any
  arrangement. Arrangements without inverted neighbours are all sorted by vector exactly when
  incomparability is transitive among the vectors (`AntiEntropy.SortSufficesExactly`), and are all
  accepted throughout exactly when no chain of distinct rumors without inverted neighbours leads from one
  to another that it counts (`SortedPaths.SortedIsEnoughExactly`). Some reachable answer holds such a
  chain (`SortedAnswer.SortedAnswerRejected`); what is refused goes to the buffer. That answer needs the
  rows of selectAllRumors in an order that SQL allows, as the query has no ORDER BY, but that a scan in
  the order of insertion would not give.
- A rumor taken out of the buffer of early rumors can be dropped, because a vector that counts just the
  first rumor of an unknown sender passes for valid (`RumorBuffer.DroppedExactly`,
  `RumorBuffer.SomeIsDropped`).
- A message left unhandled under one channel is later rebuilt under that channel also for a rumor that
  carried it on another (`GossipPosts.StoredPostsExactly`, `GossipPosts.SomeChannelIsLost`). While no
  message is handled on two channels the posts are always those first broadcast
  (`GossipPosts.RebuiltAsBroadcast`).
- Accepts counted for an earlier try are kept when a server prepares again, so that the majority of a Learn
  can be made of accepts for different tries, exactly when one had been counted before the last Prepare
  (`MixedAccepts.LearnMixesExactly`, `MixedAccepts.LearnCountsTwoTries`).
- The tally folded from rows in no particular order depends on that order exactly when two of a voter's
  latest messages on a question tie (`CastVotes.OrderFreeExactly`).
- After the end of an election the database may read either the end or the result, stored at the same
  time. `IsElectionEnded` is then undetermined (`ElectionLog.EndedIsCertainExactly`), and the guard
  against a second opening can fail (`ElectionLog.GuardFailsExactly`), as on the shortest run
  (`ElectionLog.EndedMayReadUnstarted`).
- While a roll call is open, the database and the channel in memory accept different openings, and after
  a close the database still accepts another close of the same opening
  (`RollCallLog.OpeningsAgreeExactly`, `RollCallLog.ClosesAgreeExactly`; the shortest logs are in
  `RollCallLog.OpeningsCanDiffer` and `RollCallLog.ClosedCloseAgain`).
- `Upsert` of an id already present breaks the ring of sockets (`Sockets.UpsertKeeps`,
  `Sockets.TwiceListed`), and SendRumor can then panic (`Sockets.SomePanic`). A new rumor, from any socket
  or none, can make it panic exactly when a place it may come to rest at has no socket
  (`Sockets.PanicsExactly`, `Sockets.PlainHole`), and a rumor with a cursor exactly when its cycle
  is not complete and the place of the cursor, past a banned one, has none
  (`Sockets.CursorPanicsExactly`). The keys of rumors of two senders
  collide exactly when one sender is the other with a number written behind it (`Sockets.CollideExactly`).
- A request of the web client sent over the id of another that still waits leaves the other to time out,
  and that timeout drops the newcomer's entry, so that a response no longer reaches it
  (`RpcConnection.OverwrittenTimesOut`). It happens exactly when a live request is a multiple of 10000
  requests old (`RpcConnection.NextIdTaken`, `RpcConnection.SendGoodExactly`), as it is after 10000
  requests that all still wait (`RpcConnection.SomeIsOverwritten`).
- The words of a user name can repeat where the hash plus the position passes zero
  (`JavaHash.WordsRepeatExactly`), and a connection that gave up and is revived by hand gives up again at
  its first failure unless it opened in between (`RpcSent.DiesExactly`).

Consensus agreement rests on a fact of the code, not on the majorities: instances start out holding
false, but a proposer only ever proposes true, so every value that travels with a try is true. Acceptors
can sign twice, a Propose reuses an old accepted try, and tries of different proposers can collide; the
provenance lemmas therefore speak of signatures, not of servers.

## Model

| member | source | states |
|---|---|---|
| `RumorInvariant.VectorExact` | be1-go/internal/database/sqlite/query.go:427-468 | a key is a finished stored rumor exactly when the vector has its sender at or above its number; the draft is never counted |
| `RumorInvariant.VectorFromFinished` | be1-go/internal/database/sqlite/query.go:427-468 | the set of finished rumors alone determines the vector |
| `RumorInvariant.CheckMeansStored` | be1-go/internal/database/sqlite/query.go:184-209 | the two flags of the check are "already stored" and "next of its sender with its whole causal past stored" |
| `RumorInvariant.RebuiltExactly` | be1-go/internal/database/sqlite/query.go:539-611 | what is rebuilt for a rumor holds each of its messages, handled or not, exactly once, and no other |
| `RumorSteps.AddMessageKeeps` | be1-go/internal/database/sqlite/query.go:307-336 | adding a message to the draft keeps the tables valid and changes no finished rumor |
| `RumorSteps.StoreMessageKeeps` | be1-go/internal/database/sqlite/sqlite.go:76-141 | handling a message moves it from unprocessed to processed in every rumor that has it; no rumor gains or loses a message |
| `RumorSteps.FreezeSucceeds` | be1-go/internal/database/sqlite/query.go:338-414 | in valid tables stamping the draft and opening the next never fails |
| `RumorSteps.FreezeKeeps` | be1-go/internal/database/sqlite/query.go:338-414 | sending adds exactly the draft to the finished rumors under the vector of that moment and changes no other rumor |
| `RumorSteps.StoreRumorSucceeds` | be1-go/internal/database/sqlite/query.go:211-273 | a rumor that is new, with distinct new messages, is stored without an error |
| `RumorSteps.StoreRumorKeeps` | be1-go/internal/database/sqlite/query.go:211-273 | storing the next rumor adds exactly that rumor with its stamp and all its messages and changes no other |
| `RumorSteps.RestartChangesNothing` | be1-go/internal/database/sqlite/sqlite_init.go:186-218 | the insert of the first rumor at a restart changes nothing |
| `RumorSteps.FirstStartIsValid` | be1-go/internal/database/sqlite/sqlite_init.go:186-218 | the first start leaves valid tables with the draft 0 and nothing finished |
| `CausalBroadcast.InitialInv` | be1-go/internal/database/sqlite/sqlite_init.go:186-218 | the protocol invariant holds when every site is empty |
| `CausalBroadcast.EventInv` | be1-go/internal/database/sqlite/query.go:184-209 | every kind of event, sending, taking from the network and storing, keeps the protocol invariant |
| `CausalBroadcast.HeldWithPast` | be1-go/internal/database/sqlite/query.go:184-209 | a site that holds a broadcast under its key holds that very broadcast and all it counts |
| `CausalBroadcast.SameKey` | be1-go/internal/database/sqlite/sqlite_const.go:83-89 | two broadcasts with one key are one |
| `Gossip.StampIsExact` | be1-go/internal/database/sqlite/query.go:386-406 | the stamp taken before the next draft is inserted counts exactly the rumors finished at that moment |
| `Gossip.CheckFindsPast` | be1-go/internal/database/sqlite/query.go:184-209 | a rumor that passes the check has its whole causal past stored |
| `Gossip.SendRefines` | be1-go/internal/database/sqlite/query.go:338-414 | sending from the tables is a send of the broadcast protocol |
| `Gossip.ReplayRefines` | be1-go/internal/database/sqlite/query.go:494-577 | a rumor read back from the tables is the rumor the protocol holds |
| `Gossip.CheckRefines` | be1-go/internal/database/sqlite/query.go:158-209 | a check that succeeds is a take of the broadcast protocol |
| `Gossip.StoreRefines` | be1-go/internal/database/sqlite/query.go:211-273 | a later store, accepted or rolled back, is a store or a drop of the broadcast protocol |
| `Gossip.HandleRefines` | be1-go/internal/database/sqlite/sqlite.go:102-141 | handling a message is invisible to the protocol |
| `Gossip.PublishRefines` | be1-go/internal/database/sqlite/query.go:307-336 | filling the draft is invisible to the protocol |
| `Gossip.RestartRefines` | be1-go/internal/database/sqlite/sqlite_init.go:186-218 | a restart loses only what was checked and not yet stored |
| `Gossip.StepRefines` | be1-go/internal/database/sqlite/query.go:158-414 | every step of a server on its tables is a step of the broadcast protocol or invisible to it |
| `Gossip.Reachable` | be1-go/internal/database/sqlite/query.go:158-414 | every state of every run has valid tables at every server and a protocol view that satisfies the invariant |
| `Gossip.CausalDelivery` | be1-go/internal/database/sqlite/query.go:184-209 | in every run, with loss, repetition, reordering and restarts, a server that stores a rumor stores every rumor its sender had finished when it sent it |
| `Gossip.PastBeforeStore` | be1-go/internal/database/sqlite/query.go:184-273 | already at the step that stores the rumor, before it is stored, that past is there |
| `Gossip.NetworkAgreement` | be1-go/internal/database/sqlite/query.go:338-414 | whatever travels under one key, first broadcast or replay by anyone at any time, has one vector and one set of message ids |
| `Gossip.StoredAgreement` | be1-go/internal/database/sqlite/query.go:211-273 | two servers that store one key, at any two moments, agree on its vector and message ids; a stored rumor never changes |
| `Gossip.ReplayedAsBroadcast` | be1-go/internal/database/sqlite/query.go:494-577 | any replay by any server at any later time has the vector and the message ids first broadcast, each once |
| `Gossip.ReachableVectorExact` | be1-go/internal/database/sqlite/query.go:427-468 | in every reachable state the vector says exactly what is stored |
| `GossipPosts.PacketAgreement` | be1-go/internal/database/sqlite/query.go:338-414 | while no message is handled on two channels, whatever travels under one key carries the same messages on the same channels |
| `GossipPosts.RebuiltAsBroadcast` | be1-go/internal/database/sqlite/query.go:579-611 | the round trip: what any server at any later time rebuilds for a rumor, however it has handled the messages since, is the messages first broadcast on their channels, each once |
| `GossipPosts.StoredPostsExactly` | be1-go/internal/database/sqlite/query.go:253-273 | storing a rumor keeps the channels its messages came on if and only if none of the unhandled ones was left before on another channel |
| `GossipPosts.SomeChannelIsLost` | be1-go/internal/database/sqlite/query.go:253-273 | two rumors with one message on two channels, after which the second is rebuilt on the first channel |
| `RumorStore.SQLite.constructor` | be1-go/internal/database/sqlite/sqlite_init.go:27-184 | the empty tables of a server, before its first draft is stored |
| `RumorStore.SQLite.StoreFirstRumor` | be1-go/internal/database/sqlite/sqlite_init.go:186-218 | is the table transaction StoreFirstRumor |
| `RumorStore.SQLite.SelectMax` | be1-go/internal/database/sqlite/sqlite_const.go:352-354 | the greatest rumor number of a sender, or none |
| `RumorStore.SQLite.GetRumorTimestampHelper` | be1-go/internal/database/sqlite/query.go:427-468 | the loop over the grouped rows builds the vector of the tables, the own draft not counted |
| `RumorStore.SQLite.CheckTimestampHelper` | be1-go/internal/database/sqlite/query.go:184-209 | the loop with its break computes the two flags whatever the order of the map |
| `RumorStore.SQLite.CheckRumor` | be1-go/internal/database/sqlite/query.go:158-182 | the two flags against the own vector |
| `RumorStore.SQLite.StoreRumor` | be1-go/internal/database/sqlite/query.go:211-251 | inserts row by row, commits the transaction StoreRumor or leaves the tables as they were |
| `RumorStore.SQLite.StoreUnprocessedHelper` | be1-go/internal/database/sqlite/query.go:253-273 | inserts each unprocessed message once and relates it to the rumor; stops at the first duplicate relation |
| `RumorStore.SQLite.AddMessageToMyRumor` | be1-go/internal/database/sqlite/query.go:307-336 | relates the message to the draft, or fails if it already is; the count returned is over all senders |
| `RumorStore.SQLite.GetAndIncrementMyRumor` | be1-go/internal/database/sqlite/query.go:338-414 | sends the draft with the vector and messages of the moment and freezes it; an empty draft stays as it is |
| `RumorStore.SQLite.GetRumorParamsHelper` | be1-go/internal/database/sqlite/query.go:539-577 | rebuilds one row with its messages on their channels, passes over the draft, fails on a stamp that cannot be read |
| `RumorStore.SQLite.GetAllRumorParams` | be1-go/internal/database/sqlite/query.go:494-537 | every finished rumor rebuilt, once each, the empty sender passed over; an error only if some stamp cannot be read |
| `RumorStore.SQLite.StoreMessageAndData` | be1-go/internal/database/sqlite/sqlite.go:102-141 | is the table transaction StoreMessage, or an error that changes nothing |
| `AntiEntropy.SelectionIsMissing` | be1-go/internal/handler/method/rumorstate/hrumorstate/rumorstate.go:57-63 | the rumors selected for an answer are exactly those the asking server lacks |
| `AnswerSelection.SelectRumors` | be1-go/internal/handler/method/rumorstate/hrumorstate/rumorstate.go:57-63 | the loop keeps the rumors that the vector does not reach, in order |
| `AnswerSelection.AnswersWhatIsMissing` | be1-go/internal/handler/method/rumorstate/hrumorstate/rumorstate.go:51-69 | in every reachable state the answer to the vector of a server holds, once each and as rebuilt, exactly the rumors that server lacks of those read back |
| `AntiEntropy.Progress` | be1-go/internal/database/sqlite/query.go:184-209 | if a server lacks a finished rumor of another, some rumor it lacks passes its check now |
| `AntiEntropy.DeliverInOrder` | be1-go/internal/database/sqlite/query.go:184-273 | new rumors delivered in any causal order are each accepted, and all are held at the end |
| `AntiEntropy.AcceptedInOrder` | be1-go/internal/database/sqlite/query.go:184-273 | deliveries that are all accepted were new, each once, and in causal order, and all are held at the end |
| `AntiEntropy.AcceptedExactly` | be1-go/internal/handler/method/rumor/hrumor/rumor.go:237-257 | a list of deliveries is accepted at every step if and only if each is new, none comes twice and they are in causal order |
| `AntiEntropy.PastIsBefore` | be1-go/internal/handler/method/rumor/mrumor/rumor.go:24-51 | a rumor sorts strictly before every rumor that counts it |
| `AntiEntropy.IsBefore` | be1-go/internal/handler/method/rumor/mrumor/rumor.go:24-51 | the two loops decide the strict pointwise order on vectors, for every pair of maps; an entry below 0 of a sender the first vector lacks makes the answer no |
| `AntiEntropy.SortedIsCausal` | be1-go/internal/handler/method/rumorstate/hrumorstate/rumorstate.go:65-67 | a list in which no rumor precedes one below it is in causal order for the receiver |
| `AntiEntropy.SortedIsAccepted` | be1-go/internal/handler/answer/hanswer/answer.go:230-240 | in every reachable state an answer in which no rumor precedes one strictly below it is accepted at every step |
| `AntiEntropy.SortSufficesExactly` | be1-go/internal/handler/method/rumorstate/hrumorstate/rumorstate.go:65-67 | every arrangement without inverted neighbours is sorted by vector if and only if incomparability is transitive among the vectors of the list |
| `SortedPaths.SortedIsEnoughExactly` | be1-go/internal/handler/answer/hanswer/answer.go:230-240 | in every reachable state every arrangement of the missing rumors without inverted neighbours is accepted at every step if and only if no such chain of distinct rumors leads from one of them to another that it counts |
| `AntiEntropy.InvertedIsRejected` | be1-go/internal/handler/answer/hanswer/answer.go:230-240 | three rumors where incomparability does not carry over: an order without inverted neighbours that is not accepted throughout |
| `SortedAnswer.SortedAnswerRejected` | be1-go/internal/handler/answer/hanswer/answer.go:230-240 | with any three servers some reachable state has an answer without inverted neighbours, which a sort may leave as it is, that is not accepted throughout |
| `ReachableRuns.CanSend` | be1-go/internal/database/sqlite/query.go:338-414 | in any reachable state a server can send its next rumor with the vector of what it has finished |
| `ReachableRuns.CanReceive` | be1-go/internal/database/sqlite/query.go:158-251 | in any reachable state a server can take any rumor of the network whose past it has |
| `RumorBuffer.CheckIsValid` | be1-go/internal/handler/method/rumor/mrumor/rumor.go:53-65 | the loop decides whether no entry lies above the own one, an unknown sender read as 0 |
| `RumorBuffer.Buffer.Insert` | be1-go/internal/handler/method/rumor/hrumor/buffer.go:27-49 | a rumor is queued once, wherever the sort puts it; the ids kept are those of the queue |
| `RumorBuffer.Buffer.DeleteEntry` | be1-go/internal/handler/method/rumor/hrumor/buffer.go:76-87 | takes the entry of that id and no other out of the queue and the ids |
| `RumorBuffer.Buffer.GetNextRumorParams` | be1-go/internal/handler/method/rumor/hrumor/buffer.go:62-74 | takes out the first entry that seems valid, or nothing if none does |
| `RumorBuffer.NextIsValid` | be1-go/internal/handler/method/rumor/hrumor/buffer.go:66-70 | every rumor that the check would accept seems valid to the buffer |
| `RumorBuffer.DroppedExactly` | be1-go/internal/handler/method/rumor/hrumor/rumor.go:225-235 | in every reachable state a rumor taken out of the buffer is dropped if and only if it was stored meanwhile or counts the first rumor, and no later one, of a sender of which the server has nothing |
| `RumorBuffer.SomeIsDropped` | be1-go/internal/handler/method/rumor/hrumor/rumor.go:225-235 | with any four servers some reachable state drops a rumor that the server does not have |
| `AntiEntropy.VectorOfUnion` | be1-go/internal/database/sqlite/query.go:427-468 | a server that holds its own rumors and those of another has the pointwise maximum of the two vectors |
| `AntiEntropy.Convergence` | be1-go/internal/handler/answer/hanswer/answer.go:230-240 | in every reachable state, for the missing rumors in whatever order: they are accepted at every step if and only if in causal order, and then the server ends with the pointwise maximum of the two vectors |
| `Consensus.ConsensusInstance.constructor` | be1-go/internal/old/oldchannel/consensus/consensus.go:904-932 | a fresh instance: nothing promised or accepted |
| `Consensus.ConsensusInstance.ProcessElect` | be1-go/internal/old/oldchannel/consensus/consensus.go:255-298 | records the elect message with its number of servers; proposer if it comes from the organizer |
| `Consensus.ConsensusInstance.Refuse` | be1-go/internal/old/oldchannel/consensus/consensus.go:316-333 | decided instances, unknown elect messages and failed ones are refused, in this order |
| `Consensus.ConsensusInstance.ProcessElectAccept` | be1-go/internal/old/oldchannel/consensus/consensus.go:301-374 | records the vote, then fails, prepares above every try proposed or promised, or waits |
| `Consensus.NextTry` | be1-go/internal/old/oldchannel/consensus/consensus.go:351-355 | the next try is above all proposed and promised so far |
| `Consensus.ConsensusInstance.ProcessPrepare` | be1-go/internal/old/oldchannel/consensus/consensus.go:376-435 | promises only a try above the last promise, and reports what was accepted |
| `Consensus.ConsensusInstance.ProcessPromise` | be1-go/internal/old/oldchannel/consensus/consensus.go:437-511 | at a majority proposes the value of the highest accepted try reported, with the signatures collected |
| `Consensus.ConsensusInstance.HighestAccepted` | be1-go/internal/old/oldchannel/consensus/consensus.go:488-495 | the loop over the promises finds the highest accepted try and a value reported with it |
| `Consensus.ConsensusInstance.SignaturesOf` | be1-go/internal/old/oldchannel/consensus/message_creation.go:80-82 | lists each signature once |
| `Consensus.ConsensusInstance.ProcessPropose` | be1-go/internal/old/oldchannel/consensus/consensus.go:514-579 | accepts a try at or above the promise and publishes the accept |
| `Consensus.ConsensusInstance.ProcessAccept` | be1-go/internal/old/oldchannel/consensus/consensus.go:582-655 | at a majority decides the proposed value and publishes it with the signatures collected |
| `Consensus.ConsensusInstance.ProcessLearn` | be1-go/internal/old/oldchannel/consensus/consensus.go:658-698 | takes over the decision unless one was made |
| `Consensus.ConsensusInstance.ProcessFailure` | be1-go/internal/old/oldchannel/consensus/consensus.go:701-741 | marks the elect message failed |
| `Consensus.ConsensusInstance.CreateFailureMessage` | be1-go/internal/old/oldchannel/consensus/message_creation.go:156-187 | a failure is published once for an elect message |
| `Consensus.ConsensusInstance.TimeoutFailure` | be1-go/internal/old/oldchannel/consensus/consensus.go:1044-1055 | the timer gives up on an elect message |
| `ConsensusProtocol.HighestIsTrue` | be1-go/internal/old/oldchannel/consensus/consensus.go:488-495 | among promises really sent, every highest accepted value is true, ties included |
| `ConsensusProtocol.StepInv` | be1-go/internal/old/oldchannel/consensus/consensus.go:255-741 | one invariant over tries, values, roles and everything on the network is kept by every step of every server |
| `ConsensusProtocol.ReachableInv` | be1-go/internal/old/oldchannel/consensus/consensus.go:255-741 | it holds in every state of every run, with colliding tries, loss, repetition and timeouts |
| `ConsensusProtocol.DecisionIsTrue` | be1-go/internal/old/oldchannel/consensus/consensus.go:617-695 | every decision in every run is true, although unset values are false |
| `ConsensusProtocol.Agreement` | be1-go/internal/old/oldchannel/consensus/consensus.go:617-695 | any two servers that have decided an instance, at any moments, agree |
| `ConsensusProtocol.DecisionIsFinal` | be1-go/internal/old/oldchannel/consensus/consensus.go:689-695 | a decision once made never changes |
| `ConsensusProtocol.DecisionIsLearned` | be1-go/internal/old/oldchannel/consensus/consensus.go:617-695 | no server decides without a Learn of that decision published in the instance |
| `ConsensusProtocol.LearnProvenance` | be1-go/internal/old/oldchannel/consensus/message_creation.go:125-153 | a Learn carries a majority of signatures, all distinct, each of an Accept really sent in the instance |
| `ConsensusProtocol.AcceptProvenance` | be1-go/internal/old/oldchannel/consensus/message_creation.go:99-122 | an Accept repeats the try and value of a Propose sent before it |
| `ConsensusProtocol.ProposeProvenance` | be1-go/internal/old/oldchannel/consensus/message_creation.go:62-96 | a Propose carries a majority of signatures, all distinct, each of a Promise really sent in the instance |
| `ConsensusProtocol.PublishedInOrderAlways` | be1-go/internal/old/oldchannel/consensus/consensus.go:351-358 | over all a server ever publishes in an instance: Prepare tries rise above all it prepared or promised, Promises rise, and no Accept is below an earlier Promise |
| `ConsensusProtocol.QuorumsExclude` | be1-go/internal/old/oldchannel/consensus/consensus.go:813-832 | with one vote per voter no run has one server prepare and another give up on the same elect message for want of votes |
| `ConsensusReports.PromiseReportsLastAccept` | be1-go/internal/old/oldchannel/consensus/message_creation.go:35-60 | in every run a Promise reports the try and value of the last Accept its sender published in the instance before, and -1 and false if there is none |
| `ConsensusReports.ProposeFollowsPromises` | be1-go/internal/old/oldchannel/consensus/message_creation.go:62-96 | in every run a Propose repeats a highest accept that the Promises it signs report, and if they report none it is for the try its sender prepared last, with the value true |
| `ConsensusReports.LearnCountsPrepared` | be1-go/internal/old/oldchannel/consensus/consensus.go:617-620 | in every run the Accepts that sign a Learn are for the value decided and each for a try its sender had prepared |
| `MixedAccepts.LearnMixesExactly` | be1-go/internal/old/oldchannel/consensus/consensus.go:617-642 | the Accepts that sign a Learn are all for the try prepared last if and only if no accept had been counted when that try was prepared |
| `MixedAccepts.MixedExactly` | be1-go/internal/old/oldchannel/consensus/consensus.go:617-620 | in every run the accepts a server has counted are for one try if and only if it had counted none when it last prepared |
| `MixedAccepts.LearnCountsTwoTries` | be1-go/internal/old/oldchannel/consensus/consensus.go:617-655 | a run of two servers in which a majority is made of accepts for two tries, and both decide |
| `ConsensusRuns.OnlyChosenPropose` | be1-go/internal/old/oldchannel/consensus/consensus.go:255-298 | only servers that the organizer asked to run an instance publish a Prepare, Propose or Learn in it |
| `ConsensusRuns.VoteDecides` | be1-go/internal/old/oldchannel/consensus/consensus.go:813-832 | with the new vote counted a proposer publishes a Failure on a majority against, else a Prepare on a majority in favour, else nothing |
| `ConsensusRuns.DemotedIsSilent` | be1-go/internal/old/oldchannel/consensus/consensus.go:1011-1027 | a proposer demoted while it waits publishes nothing as a proposer until the organizer asks it again |
| `ConsensusRuns.FailedIsSilent` | be1-go/internal/old/oldchannel/consensus/consensus.go:316-333 | a server that has given up on an elect message publishes nothing for it ever again |
| `ConsensusRuns.FailureIsTaken` | be1-go/internal/old/oldchannel/consensus/consensus.go:701-741 | an undecided server that receives a Failure for an elect message it knows gives up on it |
| `ConsensusRuns.FailureIsLast` | be1-go/internal/old/oldchannel/consensus/message_creation.go:156-187 | a Failure is the last message its sender ever publishes for the elect message |
| `CastVotes.OneMoreVote` | be1-go/internal/database/sqlite/election.go:332-353 | one turn of the loop over the votes: only the first vote of a message on a question counts |
| `CastVotes.GetQuestions` | be1-go/internal/database/sqlite/election.go:308-330 | an empty tally over the questions of the setup; fails exactly when two share an id |
| `CastVotes.Questions.UpdateVote` | be1-go/internal/database/sqlite/election.go:332-353 | applies the leading votes with known questions; succeeds, and applies the whole message, exactly when all questions are known |
| `CastVotes.Questions.Collect` | be1-go/internal/database/sqlite/election.go:274-293 | folds the rows; fails exactly when some row names an unknown question |
| `CastVotes.EntryIsLatest` | be1-go/internal/database/sqlite/election.go:332-353 | an entry exists exactly if the voter named the question, and is what the first of the voter's latest messages naming it says |
| `CastVotes.SettledIsOrderFree` | be1-go/internal/database/sqlite/sqlite_const.go:285-294 | where no latest messages tie, every order of the rows gives the same tally |
| `CastVotes.OrderFreeExactly` | be1-go/internal/database/sqlite/sqlite_const.go:285-294 | given distinct messages, the order of the rows is immaterial if and only if no voter's latest messages on a question tie |
| `CastVotes.DistinctTimesSuffice` | be1-go/internal/database/sqlite/election.go:267-293 | distinct creation times per sender make the tally independent of the order |
| `CastVotes.TieIsOrdered` | be1-go/internal/database/sqlite/election.go:332-353 | two messages of one voter on one question with one creation time: the two orders give different tallies |
| `CastVotes.OrderCanMatter` | be1-go/internal/database/sqlite/sqlite_const.go:285-294 | two concrete rows whose order decides |
| `ElectionTally.CountVotes` | be1-go/internal/old/oldchannel/election/election.go:675-683 | each count is the number of voters whose index is that option, in any order of the map; what the index means is in ElectionResults |
| `ElectionTally.CountsAddUp` | be1-go/internal/old/oldchannel/election/election.go:675-683 | the counts sum to the number of voters with an index in range, at most one per voter |
| `ElectionTally.GatherOptionCounts` | be1-go/internal/old/oldchannel/election/election.go:772-782 | pairs each option with its count, in order |
| `ElectionTally.GatherResults` | be1-go/internal/old/oldchannel/election/election.go:657-701 | one result for each plurality question and no other, with its exact counts |
| `ElectionTally.SortedIsUnique` | be1-go/internal/old/oldchannel/election/verification.go:242-243 | a sorted list is determined by its multiset |
| `ElectionTally.SortedVoteIDs` | be1-go/internal/old/oldchannel/election/verification.go:226-243 | the sorted list holds every vote id as often as it occurs among the valid votes |
| `ElectionTally.RegisterIsUnique` | be1-go/internal/old/oldchannel/election/verification.go:223-256 | two tallies have the same sorted list if and only if every vote id occurs equally often |
| `Election.VerifiedIsKnown` | be1-go/internal/old/oldchannel/election/verification.go:132-137 | a cast vote that passes verification names known questions only |
| `Election.Channel.constructor` | be1-go/internal/old/oldchannel/election/election.go:129-182 | neither started nor terminated, no votes |
| `Election.Channel.VerifyVote` | be1-go/internal/old/oldchannel/election/verification.go:258-292 | the question is known, the choice has the form of the ballot and the id is the hash |
| `Election.Channel.VerifyMessageCastVote` | be1-go/internal/old/oldchannel/election/verification.go:80-144 | all checks on a cast vote, over all its votes |
| `Election.Channel.VerifyRegisteredVotes` | be1-go/internal/old/oldchannel/election/verification.go:223-256 | accepts exactly the hash of the list determined by the valid votes |
| `Election.Channel.VerifyMessageElectionEnd` | be1-go/internal/old/oldchannel/election/verification.go:147-219 | all checks on an end; an empty list of registered votes is not compared |
| `Election.Channel.ProcessElectionOpen` | be1-go/internal/old/oldchannel/election/election.go:290-337 | starts a channel neither started nor terminated |
| `Election.Channel.ProcessCastVote` | be1-go/internal/old/oldchannel/election/election.go:340-390 | an accepted message is applied whole, any other not at all |
| `Election.Channel.ProcessElectionEnd` | be1-go/internal/old/oldchannel/election/election.go:393-451 | ends a started election and publishes results that count its votes |
| `Election.Channel.Publish` | be1-go/internal/old/oldchannel/election/election.go:215-276 | a message is accepted once, and has exactly its effect |
| `Election.TallyOfRun` | be1-go/internal/old/oldchannel/election/election.go:796-833 | after any run an entry is what the voter's latest accepted message on the question says |
| `Election.CastsAreDistinct` | be1-go/internal/old/oldchannel/election/election.go:490-494 | the accepted cast votes of a run are distinct messages |
| `Election.FlagsAreHistory` | be1-go/internal/old/oldchannel/election/election.go:329-437 | in any run the flags say exactly whether an open and an end were accepted |
| `Election.VotesOnlyWhileOpen` | be1-go/internal/old/oldchannel/election/verification.go:115-125 | votes are accepted only after the one open and before the one end |
| `Election.FrozenAfterEnd` | be1-go/internal/old/oldchannel/election/election.go:436-437 | after the end the votes never change and the election never starts again |
| `Election.NeverBoth` | be1-go/internal/old/oldchannel/election/election.go:436-437 | started and terminated never hold together |
| `Election.MemoryMatchesDatabase` | be1-go/internal/database/sqlite/election.go:267-293 | the rows read back in every order give the tally kept in memory if and only if no voter's latest messages tie |
| `Election.DatabaseReadsAll` | be1-go/internal/database/sqlite/election.go:289-292 | reading back the accepted cast votes never stops at an unknown question |
| `ElectionResults.AcceptedByRight` | be1-go/internal/old/oldchannel/election/election.go:290-451 | every accepted open and end was sent by the organizer and every accepted vote by an attendee or the organizer, all for this election and none older than it |
| `ElectionResults.EndNamesRegister` | be1-go/internal/old/oldchannel/election/verification.go:223-256 | an accepted end that registers votes names the hash of the sorted ids of the valid votes of that moment |
| `ElectionResults.VoteIsLastWord` | be1-go/internal/old/oldchannel/election/election.go:796-833 | after any run a valid vote belongs to an attendee or the organizer, is the first vote for the question in the first of the voter's latest messages naming it, and has the form and the id its ballot demands |
| `ElectionResults.CountsForChoice` | be1-go/internal/old/oldchannel/election/election.go:704-726 | a voter counts for an option if and only if that last word is the option, openly or when decrypted |
| `ElectionResults.ResultsCountChoices` | be1-go/internal/old/oldchannel/election/election.go:657-701 | the result published after any run says for each option of each question how many voters' last word is that option |
| `ElectionResults.CountsAreExact` | be1-go/internal/old/oldchannel/election/election.go:675-683 | the counts after any run are those numbers, and add up to at most the voters |
| `ElectionLog.AnswersExactly` | be1-go/internal/database/sqlite/sqlite_const.go:214-227 | the query may answer with each action of the last phase and with no other, whatever else is stored |
| `ElectionLog.StartedIsExact` | be1-go/internal/database/sqlite/election.go:104-114 | for every run and every row the query may return, IsElectionStarted is the flag started |
| `ElectionLog.EndedIsCertainExactly` | be1-go/internal/database/sqlite/election.go:116-126 | IsElectionEnded can be true if and only if the election is terminated, and can always be false: after the end the answer is not determined |
| `ElectionLog.GuardFailsExactly` | be1-go/internal/database/sqlite/election.go:92-102 | IsElectionStartedOrEnded, the guard of the opening, can be false if and only if the election is not started, hence also after its end |
| `ElectionLog.EndedMayReadUnstarted` | be1-go/internal/database/sqlite/election.go:92-126 | of any election, a run of an open and an end after which the rows allow all of: ended, not ended, and neither started nor ended |
| `RollCallLog.Channel.ProcessRollCallCreate` | be1-go/internal/old/oldchannel/lao/lao.go:344-374 | accepted creates set id and state |
| `RollCallLog.Channel.ProcessRollCallOpen` | be1-go/internal/old/oldchannel/lao/lao.go:377-418 | accepted in any state when it opens the present id |
| `RollCallLog.Channel.ProcessRollCallClose` | be1-go/internal/old/oldchannel/lao/lao.go:421-465 | accepted while open for the present id; replaces the attendees by those of the message |
| `RollCallLog.StateIsLastEntry` | be1-go/internal/database/sqlite/lao.go:16-28 | the last roll call row tells the state and the id kept in memory |
| `RollCallLog.CheckPrevIsLast` | be1-go/internal/database/sqlite/sqlite_const.go:183-192 | the query answers with the last matching message of the log |
| `RollCallLog.CheckPrevAgrees` | be1-go/internal/database/sqlite/lao.go:30-108 | checkPrevID is CheckPrevOpenOrReopenID while open and CheckPrevCreateOrCloseID otherwise, after any first message |
| `RollCallLog.EmptyLogDiffers` | be1-go/internal/old/oldchannel/lao/lao.go:779-781 | before the first message the database knows no id and memory accepts the empty one |
| `RollCallLog.OpeningsAgreeExactly` | be1-go/internal/handler/channel/lao/hlao/lao.go:161-167 | database and channel accept the same openings if and only if the roll call is not open or opened under the id of the entry before |
| `RollCallLog.OpeningsCanDiffer` | be1-go/internal/handler/channel/lao/hlao/lao.go:161-167 | a log of a create and an open on which database and channel accept different openings |
| `RollCallLog.ClosesAgreeExactly` | be1-go/internal/handler/channel/lao/hlao/lao.go:193-199 | they accept the same closes if and only if the roll call is open or never was |
| `RollCallLog.ClosedCloseAgain` | be1-go/internal/handler/channel/lao/hlao/lao.go:193-199 | a log of a create, an open and a close on which the database accepts the close again and the channel does not |
| `RollCallLog.EachRefersBack` | be1-go/internal/old/oldchannel/lao/lao.go:377-465 | each accepted opening refers to the message before it, whatever it was, and each accepted close to the opening just before it |
| `RollCallLog.AttendeesOfLastClose` | be1-go/internal/old/oldchannel/lao/lao.go:449-462 | the attendees are exactly those of the last accepted close, and nobody before the first |
| `Sockets.Sockets.SendRumor` | be1-go/internal/state/sockets.go:60-98 | one call: skips the banned socket, sends to at most one, moves the cursor; it panics exactly when the place it comes to has no socket, which a sound ring excludes |
| `Sockets.PanicsExactly` | be1-go/internal/state/sockets.go:60-98 | for a new rumor, from any socket or none, the call can panic if and only if one of the first places, as many as there are sockets, has no socket, and, should its id be the banned one, is followed by that id again |
| `Sockets.PlainHole` | be1-go/internal/state/sockets.go:80-92 | where the banned id has its socket or no place, that is simply a place without a socket |
| `Sockets.CursorPanicsExactly` | be1-go/internal/state/sockets.go:74-98 | for a rumor with a cursor the call panics if and only if the place it comes to, past a banned one, has no socket and the cycle is not complete, whatever socket is passed |
| `Sockets.SomePanic` | be1-go/internal/state/sockets.go:60-140 | five calls on an empty ring after which a rumor panics that starts at the second place, from nowhere or from either socket |
| `Sockets.SoundNeverPanics` | be1-go/internal/state/sockets.go:60-98 | in a ring where every place has its socket no call panics |
| `Sockets.RunValid` | be1-go/internal/state/sockets.go:60-140 | under any interleaving of fresh joins, leaves and sends every place in the ring has a socket |
| `Sockets.Sockets.Upsert` | be1-go/internal/state/sockets.go:101-107 | appends the id; the ring stays sound if and only if the id is fresh |
| `Sockets.Sockets.Delete` | be1-go/internal/state/sockets.go:112-140 | takes the last place of the id out of the ring and its socket out of the store; a sound ring stays sound |
| `Sockets.RemovedIsWithout` | be1-go/internal/state/sockets.go:112-140 | in a sound ring exactly that id goes, and the order of the others stays |
| `Sockets.RemovedIsLast` | be1-go/internal/state/sockets.go:123-139 | in any ring the last place of the id goes and no other |
| `Sockets.UpsertKeeps` | be1-go/internal/state/sockets.go:101-107 | a ring stays sound if and only if the added id is fresh |
| `Sockets.TwiceListed` | be1-go/internal/state/sockets.go:101-140 | an id added twice and deleted once stays listed without a socket |
| `Sockets.BannedIsSpared` | be1-go/internal/state/sockets.go:60-98 | under any interleaving of fresh joins, leaves and sends the banned socket never gets the rumor |
| `Sockets.RingReachesAll` | be1-go/internal/state/sockets.go:60-98 | with unchanged membership and other rumors in between, n calls have sent to exactly the first n sockets of the ring order without the banned one, and then to none |
| `Sockets.OrderIsEveryone` | be1-go/internal/state/sockets.go:36-48 | that order lists every socket but the banned one exactly once |
| `Sockets.EveryoneIsReached` | be1-go/internal/state/sockets.go:60-98 | no socket gets a rumor twice, and as many calls as there are sockets reach all but the banned one |
| `Sockets.KeyInjective` | be1-go/internal/state/sockets.go:68-68 | senders of one length share no key unless rumor and sender are the same |
| `Sockets.CollideExactly` | be1-go/internal/state/sockets.go:68-68 | two senders can share a key if and only if one is the other with a number written behind it |
| `Retry.Handler.GetSortedChannels` | be1-go/internal/handler/answer/hanswer/answer.go:160-169 | every channel once, by length |
| `Retry.Handler.TryMessage` | be1-go/internal/handler/answer/hanswer/answer.go:144-153 | an attempt keeps the account balanced, and handles a message whose needs are met |
| `Retry.Handler.TryChannel` | be1-go/internal/handler/answer/hanswer/answer.go:142-157 | one channel of a round |
| `Retry.Handler.TryToHandleMessages` | be1-go/internal/handler/answer/hanswer/answer.go:141-158 | round k handles everything due by round k, on every channel |
| `Retry.Handler.HandleMessagesByChannel` | be1-go/internal/handler/answer/hanswer/answer.go:127-139 | at most ten rounds: handled and remaining partition the input, each message succeeds at most once, and all that is due within ten rounds is handled, in any map order |
| `Retry.DueIsMet` | be1-go/internal/handler/answer/hanswer/answer.go:141-158 | a message due in this round has its needs handled when its turn comes |
| `Retry.DepthBounds` | be1-go/internal/handler/answer/hanswer/answer.go:127-139 | any numbering in which needs come strictly earlier bounds the round in which a message is handled |
| `JavaHash.HashCode` | fe1-web/src/core/functions/Mnemonic.ts:14-33 | the int32 value of Java's polynomial over the signed bytes; every number held is exact in a JavaScript double; null hashes to 0 |
| `JavaHash.HashSnoc` | fe1-web/src/core/functions/Mnemonic.ts:19-31 | one more byte, in wrapped arithmetic |
| `JavaHash.Corrections` | fe1-web/src/core/functions/Mnemonic.ts:24-30 | the sign-following remainder and the two corrections are the 32-bit wrap |
| `JavaHash.WeightedSnoc` | fe1-web/src/core/functions/Mnemonic.ts:23-23 | the polynomial in closed form satisfies the recurrence of the loop |
| `JavaHash.SignedIsByte` | fe1-web/src/core/functions/Mnemonic.ts:20-22 | the signed value of a byte lies between -128 and 127 and has the same eight bits |
| `JavaHash.GenerateMnemonic` | fe1-web/src/core/functions/Mnemonic.ts:67-82 | the words chosen are those at the absolute hash plus the position, modulo the list; every index is in range |
| `JavaHash.FirstWord` | fe1-web/src/core/functions/Mnemonic.ts:74-77 | the first word is at the hash without its sign, around the list |
| `JavaHash.WordsFollow` | fe1-web/src/core/functions/Mnemonic.ts:75-78 | the words follow each other around the list, backwards while the hash plus the position is below zero |
| `JavaHash.WordsRepeatExactly` | fe1-web/src/core/functions/Mnemonic.ts:75-78 | of at most as many words as the list has, two are the same if and only if they lie on both sides of zero and their places add up to a multiple of its length |
| `RpcConnection.NetworkConnection.constructor` | fe1-web/src/core/network/NetworkConnection.ts:102-140 | ids start at 1, nothing pending |
| `RpcConnection.NetworkConnection.Send` | fe1-web/src/core/network/NetworkConnection.ts:420-452 | registers the request under its id with its own timeout and sends it |
| `RpcConnection.NetworkConnection.ProcessResponse` | fe1-web/src/core/network/NetworkConnection.ts:370-399 | settles the pending request of that id and clears its timeout; an unmatched id changes nothing |
| `RpcConnection.NetworkConnection.ResendRequest` | fe1-web/src/core/network/NetworkConnection.ts:458-494 | re-sends with the same id and promise and a new timeout, or waits for the socket |
| `RpcConnection.NetworkConnection.OnOpen` | fe1-web/src/core/network/NetworkConnection.ts:221-250 | re-arms every pending request, in map order |
| `RpcConnection.NetworkConnection.OnClose` | fe1-web/src/core/network/NetworkConnection.ts:277-313 | gives up on intent or after five failed attempts |
| `RpcConnection.NetworkConnection.Disconnect` | fe1-web/src/core/network/NetworkConnection.ts:185-188 | marks the intent and closes the socket in use |
| `RpcConnection.NetworkConnection.ReconnectIfNecessary` | fe1-web/src/core/network/NetworkConnection.ts:194-216 | replaces the socket in use when it is closing or closed, and only then |
| `RpcConnection.OpensInUse` | fe1-web/src/core/network/NetworkConnection.ts:194-216 | of all sockets established only the one in use can open, and it is then ready |
| `RpcConnection.StepKeeps` | fe1-web/src/core/network/NetworkConnection.ts:370-506 | every event keeps ids, payloads, timers and outcomes tied to the request they were issued for |
| `RpcConnection.StepTidy` | fe1-web/src/core/network/NetworkConnection.ts:370-506 | every event keeps each request waiting on one timeout of its own or settled once, never both |
| `RpcConnection.KeysArePayloadIds` | fe1-web/src/core/network/NetworkConnection.ts:420-494 | in every run ids are in range, every key is its payload's id, and everything sent or re-sent is the payload with the id it was issued with |
| `RpcConnection.NextIdTaken` | fe1-web/src/core/network/NetworkConnection.ts:499-506 | the next id is in use if and only if a live request is a multiple of 10000 requests old |
| `RpcConnection.ShortIsFree` | fe1-web/src/core/network/NetworkConnection.ts:499-506 | if no live request is 10000 requests old the next id is free |
| `RpcConnection.StepGood` | fe1-web/src/core/network/NetworkConnection.ts:370-506 | unless a request is sent over a live one 10000 requests old, every event keeps each timeout with the entry of its id |
| `RpcConnection.SettledOnce` | fe1-web/src/core/network/NetworkConnection.ts:370-506 | in every run each request waits on one timeout of its own or is settled, never both, and is settled once, by a response with the id it was issued with or by its own timeout |
| `RpcConnection.NothingIsDelayed` | fe1-web/src/core/network/NetworkConnection.ts:458-465 | in no run is the branch taken that waits for the socket before a re-send, since a socket that opens is the one in use |
| `RpcConnection.PendingUntilSettled` | fe1-web/src/core/network/NetworkConnection.ts:370-506 | in a run that never sends while a live request is 10000 requests old, a request is pending if and only if it is not settled, no live entry is overwritten and a timeout drops its own entry |
| `RpcConnection.OverwrittenTimesOut` | fe1-web/src/core/network/NetworkConnection.ts:428-447 | a request sent over a live entry: the older can only time out, a response settles the newcomer; the older one's timeout removes the newcomer's entry, which can then only time out |
| `RpcConnection.SomeIsOverwritten` | fe1-web/src/core/network/NetworkConnection.ts:499-506 | a run of 10000 requests that all still wait, whose next request is sent over the first |
| `RpcConnection.OnlyItsOwn` | fe1-web/src/core/network/NetworkConnection.ts:370-506 | a live request stays live through every step but a response with its id or its own timeout, while no request is sent over one 10000 requests old |
| `RpcConnection.SendGoodExactly` | fe1-web/src/core/network/NetworkConnection.ts:420-452 | sending keeps every timeout with its entry if and only if the next id is free |
| `RpcSent.StepSends` | fe1-web/src/core/network/NetworkConnection.ts:420-494 | a new request is put on the socket at once under its id, an opening connection puts all pending payloads on it in map order, and nothing else does |
| `RpcSent.ResendsEach` | fe1-web/src/core/network/NetworkConnection.ts:241-249 | what is re-sent is the payload of each pending entry, once each |
| `RpcSent.EverythingIsSent` | fe1-web/src/core/network/NetworkConnection.ts:420-494 | in every run every request issued has gone over the socket with its id, and the number of messages is the number of requests plus the number of re-sends |
| `RpcSent.OutcomeIsMade` | fe1-web/src/core/network/NetworkConnection.ts:370-447 | in every run a promise is settled only by a response with its id while pending, with the verdict of the response, or by its timeout |
| `RpcSent.DiesExactly` | fe1-web/src/core/network/NetworkConnection.ts:277-313 | in every run a live connection dies exactly when closed on purpose, by a failure after five others in a row since it last opened, or by the first timeout |
| `RpcSent.IntentIsLast` | fe1-web/src/core/network/NetworkConnection.ts:185-216 | in every run the intent to close is that of the last Disconnect or Reconnect that replaced the socket |
| `RpcSent.ClosedIsSilent` | fe1-web/src/core/network/NetworkConnection.ts:120-188 | after a Disconnect or the first timeout nothing goes over a socket until another one opens |

## Left out

- Networking, JSON, base64 and schema checks, cryptography, clocks and timers: signatures, hashes and decryption are parameters or abstract, timeouts can happen at any moment, the random start of a ring is a parameter.
- RemoveChallenge: it deletes messages, which takes them out of the rumors that carried them; the conservation of messages is stated without it.
- The handler of rumors between CheckRumor and StoreRumor: its handling of messages appears as the free choice of which messages are handled. The buffer of early rumors is modelled by itself; in the runs, taking a rumor out of it is delivering the rumor again.
- RumorBuffer: the timer that deletes an entry after three seconds may fire at any time; it is DeleteEntry.
- GossipPosts: what is left unhandled of a rumor is stored as some copy of that rumor on the network had it, not necessarily the copy that was checked.
- Messages by channel: the map from channels to messages of a rumor is the list of its messages with their channels, in any order.
- The publish handler stores a message with a base-channel row before it adds it to the draft, and the rumor handler lists as processed only messages it has stored; the steps of the gossip assume this of them.
- Rows of the own sender are assumed to include the draft once the first rumor is stored; the tables have no state without it afterwards.
- RumorStore.SQLite.AddMessageToMyRumor: the count returned is not the size of the draft, because the query does not filter by sender.
- Consensus: termination is not claimed. The creation times and hashes of messages are not modelled. A missing elect message (a nil dereference in the source) and a send to a timer that has stopped are modelled as replies after which the server may go on, and a timeout may come at any time, so that the model has more runs than the program. The numbers of tries do not wrap.
- Consensus messages may be received any number of times, though the hub passes each on once.
- Election: the key and result messages the server adds to its own inbox, and failures of broadcasting. An election after its end in the new back-end, which stores late votes or rejects them depending on the row read, is modelled only in what is read.
- ElectionTally.SortedVoteIDs: strings are compared by their characters, as Go compares bytes; the sort itself is any that sorts.
- RollCallLog: the field checks and the sender's rights are one flag of a message, the same for the channel and the database.
- compareLaoUpdateAndState and the other handlers of the lao channel, which would only add easy members.
- Sockets: sending itself, and SendToAll and SendToRandom; a socket is its id.
- Retry: what the server held before a batch is part of how it judges the messages of the batch. That the order of channels with equal length is arbitrary is modelled by ordering them in one arbitrary way.
- RpcConnection: a request waiting for the socket before it has an id is one that is sent later; giving up on waiting is left out. A socket only moves forward through its four states, as the WebSocket standard has it, and its closing is reported at most once; the timer of the first opening may fire at any time.
- JavaHash: the list of mnemonic words and the digits of the user name.
- The graphical clients, the blacklist of the message exchange, and the registries of subscribers, peers and queries.
