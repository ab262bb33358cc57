# Verified model of the key-value store

A Dafny model of the three layers of the replicated key-value store, with proofs
about all of its runs.

* **Raft core.** `RaftLogs` has the log and the merge loop, `RaftHandlers` every
  critical section of a node as a function on its state, and `RaftNodes` the class
  that carries those functions out field by field. `Cluster` is the transition system:
  any number of nodes over a network that loses, delays, reorders and repeats messages.
  Each critical section is one event; an election timeout can happen at any moment;
  each vote request's reply is consumed at most once. `History` records what a run has
  done, `Invariant`, `Preservation` and `Steps` hold the inductive invariant and
  `Commitment` the one on commit indices. `Safety` has the theorems, `Repair` the
  convergence of follower logs, `Provenance` where log entries come from, `LeaderHints`
  the leader a node names to its clients, and `Necessity` (over `Scenarios`) what happens
  without the assumptions below.
* **Write-ahead log.** `WalCodec` is the record format and the replay parser, with the
  checksum as a parameter. `GroupCommit` is the transition system of callers, mutex,
  queue, committer and file; `CrashRecovery` and `Progress` are about its runs, and
  `WalFile` is the class whose loops are runs of it.
* **Store.** `Stores` has ordered application and recovery, `Replication` joins the
  store to the log below it and to the Raft core above it.

## Assumptions

They are predicates on runs; nothing in the code is repaired.

* **R0** (`Cluster.ValidPeers`): all nodes share one peer set that contains them, and
  ids are not negative, so that -1 means "no vote".
* **R1** (`Cluster.R1`): `Restart` is not called on a stopped node that has voted.
  `Restart` clears `votedFor` and keeps the term. Without R1 election safety holds over
  all runs exactly for clusters of at most two nodes
  (`Necessity.ElectionSafetyWithoutR1`).
* **R2** (`Cluster.R2`): when a leader advances its commit index by counting, the index
  names an entry of its own term, or every node was counted. The code does not check
  the term. Without R2 state machine safety holds over all runs exactly for clusters of
  at most two nodes (`Necessity.StateMachineSafetyWithoutR2`). The second alternative is
  weaker than the rule of section 5.4.2 of the Raft paper, and still suffices.
* **W1**: a session starts on a file that is the encodings of earlier records, without a
  torn tail, and numbering starts at one. `Open` does not trim a tail. What is appended
  behind one survives, whatever it is, exactly when the tail is empty
  (`WalCodec.AppendingIsSafeIffNoTail`), and a whole session's acknowledged records can
  be lost behind one (`CrashRecovery.TornTailHidesSession`).
* **W2** (`GroupCommit.NoFailedWrite`, `Replication.Acknowledged`): no write fails where
  the file's contents are described, and no sync either where the live store is compared
  with the recovered one. What failures do to the live store is
  `Replication.StoreStopsAtFirstFailure`.
* **W3** (`GroupCommit.ClosedWhenIdle`): the log is closed when no `Append` is in
  flight. When closing works exactly is `Progress.CloseFinishesIff`.

## Where the code and its documentation differ

The model follows the code.

* `docs/raft_overview.md` calls restarts safe. A restart forgets the vote of the current
  term, and three nodes can then elect two leaders in one term.
* `docs/raft_overview.md` calls an entry committed once a majority holds it. The code
  does count that way, and an entry of an older term can then be overwritten after it
  was applied.
* `docs/raft_overview.md` has the store listen to a commit channel. The code calls a
  function inside the critical section.
* The top-level README has replay tolerate a truncated tail. It does from the fifth byte
  of a record on; a tail of one to four bytes makes replay, and so `New`, fail.
* The queue holds 1024 requests; deadlock needs two more than that in flight, one in the
  committer's batch and one at the blocked send.

## Model

| member | source | states |
|---|---|---|
| RaftLogs.RaftLog.Append | kv-store/internal/raft/log.go:26-36 | the new entry carries the next index, and the log is the old one followed by it |
| RaftLogs.RaftLog.Truncate | kv-store/internal/raft/log.go:62-68 | everything from the index on goes; index zero and an index past the end change nothing |
| RaftLogs.RaftLog.MergeEntries | kv-store/internal/raft/append_entries.go:83-96 | the loop over the message's entries leaves the log `Merge` describes |
| RaftLogs.MergeRefinesSpec | kv-store/internal/raft/append_entries.go:83-96 | the entry-by-entry merge is: without a term conflict the old log, extended only past its end; otherwise the old log up to the first conflict and the message's entries from there |
| RaftLogs.MergeKeepsIndices | kv-store/internal/raft/append_entries.go:83-96 | entry indices stay contiguous from one |
| RaftLogs.RedeliveryIsIdempotent | kv-store/internal/raft/append_entries.go:83-96 | a second delivery of a message changes nothing |
| RaftLogs.OlderMessageNeverShortens | kv-store/internal/raft/append_entries.go:83-96 | merging a piece of a leader's log that a log already holds changes nothing, whatever that log has behind it |
| RaftLogs.MergeTowards | kv-store/internal/raft/append_entries.go:62-96 | merging a piece of a leader's log keeps every prefix shared with that log, and the result holds it through the message's last entry |
| RaftNodes.RaftNode.constructor | kv-store/internal/raft/node.go:63-79 | a new follower of term zero with an empty log, no vote and nothing applied |
| RaftNodes.RaftNode.IsCandidateLogUpToDate | kv-store/internal/raft/vote.go:55-73 | the last terms decide, and on equal terms the last indices |
| RaftNodes.RaftNode.RequestVote | kv-store/internal/raft/vote.go:15-52 | new state and reply are those of the vote handler the cluster steps with |
| RaftNodes.RaftNode.StartElection | kv-store/internal/raft/node.go:81-138 | a candidate of the next term that voted for itself, one vote counted, and the request its peers get |
| RaftNodes.RaftNode.ElectLeader | kv-store/internal/raft/node.go:88-105 | leader, with nextIndex past its log and matchIndex zero for every peer |
| RaftNodes.RaftNode.OnVoteReply | kv-store/internal/raft/node.go:145-180 | one reply consumed: ignored, stepped down, counted, or counted and elected |
| RaftNodes.RaftNode.CountHolders | kv-store/internal/raft/node.go:215-225 | one plus the number of other peers whose matchIndex reaches the index |
| RaftNodes.RaftNode.AdvanceCommitIndex | kv-store/internal/raft/node.go:213-232 | the loop that does not stop at a failing index ends at the highest majority-held index |
| RaftNodes.RaftNode.Apply | kv-store/internal/raft/node.go:235-249 | the callback gets the commands after lastApplied up to commitIndex, in order, also where the log ends early |
| RaftNodes.RaftNode.StartCommand | kv-store/internal/raft/node.go:260-273 | a leader appends one entry of its term and returns its index; anybody else refuses and changes nothing |
| RaftNodes.RaftNode.StopNode | kv-store/internal/raft/node.go:276-291 | only the stop mark changes |
| RaftNodes.RaftNode.RestartNode | kv-store/internal/raft/node.go:423-442 | a stopped node becomes a follower without a vote and keeps term and log; a running one is left alone |
| RaftNodes.RaftNode.PreviousEntryMatches | kv-store/internal/raft/append_entries.go:62-77 | the consistency check on the previous entry |
| RaftNodes.RaftNode.AppendEntries | kv-store/internal/raft/append_entries.go:31-112 | new state and reply of the whole handler: term check, consistency check, merge, commit cap, apply |
| RaftNodes.RaftNode.SendHeartbeats | kv-store/internal/raft/append_entries.go:142-184 | one message for every other peer, each the suffix from its nextIndex; none unless leader |
| RaftNodes.RaftNode.OnAppendReply | kv-store/internal/raft/append_entries.go:184-224 | stale replies are ignored, a newer term steps down, a failure moves nextIndex back, a success sets both indices, commits and applies |
| RaftNodes.HoldersOfOneMore | kv-store/internal/raft/node.go:217-225 | visiting one more peer adds one holder exactly when that peer is another node whose matchIndex reaches the index |
| RaftHandlers.HighestHeldIsOrderStatistic | kv-store/internal/raft/node.go:213-232 | the new commit index is the old one or the largest index of the log a majority holds, and every index passed over is held by a majority |
| Cluster.RunsAreWellFormed | kv-store/cmd/server/main.go:61-68 | the peer set and the set of nodes are the same at all times (R0) |
| Steps.StepKeeps | kv-store/internal/raft/node.go:115-182 | every event that satisfies R1 keeps the whole invariant (votes, tallies, messages, reigns, logs, acknowledgements) |
| Steps.RunsKeep | kv-store/internal/raft/append_entries.go:31-228 | the invariant holds after every run that satisfies R1 |
| Steps.HeartbeatIsSuffix | kv-store/internal/raft/append_entries.go:157-180 | every message a leader sends is a piece of its log that reaches the log's end |
| Steps.WinnersHaveMajority | kv-store/internal/raft/node.go:170-178 | when the counter reaches the quorum, a majority of distinct nodes granted the candidate that term's vote |
| Steps.AppendRequestKeeps | kv-store/internal/raft/append_entries.go:31-112 | delivering an AppendEntries message keeps the invariant |
| Steps.VoteRequestKeeps | kv-store/internal/raft/vote.go:15-52 | delivering a vote request keeps the invariant |
| Preservation.AckSurvivesMove | kv-store/internal/raft/append_entries.go:83-96 | what a node acknowledged to an earlier leader survives a later leader's message when that leader holds it too |
| Preservation.ElectKeeps | kv-store/internal/raft/node.go:88-105 | a candidate with a majority of votes becomes leader and the invariant holds of the new reign |
| Invariant.MajoritiesMeet | kv-store/internal/raft/node.go:176 | two quorums of the cluster share a node |
| Invariant.RootedMatches | kv-store/internal/raft/append_entries.go:62-96 | two logs made of leaders' logs that agree on index and term agree on everything before |
| Commitment.LaterLeadersHold | kv-store/internal/raft/node.go:213-232 | every leader of a later term has the entries up to a safely counted index |
| Commitment.SealedLogsAgree | kv-store/internal/raft/node.go:213-232 | of two committed prefixes, the shorter is a prefix of the longer |
| Commitment.StepCommits | kv-store/internal/raft/append_entries.go:98-108 | every event that satisfies R2 keeps the commit invariant: commit indices within the log, everything committed applied, messages' commit indices within their entries |
| Commitment.RunsCommit | kv-store/internal/raft/node.go:213-249 | both invariants hold after every run that satisfies R1 and R2 |
| Safety.ElectionSafety | kv-store/internal/raft/node.go:115-182 | at any two moments of a run under R1, two leaders of one term are the same node |
| Safety.VotesCountDistinctGranters | kv-store/internal/raft/node.go:138-178 | the integer `votes` is one plus the size of a set of distinct other peers, all of which granted in that term |
| Safety.LeaderAppendOnly | kv-store/internal/raft/node.go:260-273 | while a node leads a term its log only gets longer |
| Safety.LogMatching | kv-store/internal/raft/append_entries.go:62-96 | in any two logs, at any two moments, the same index and term mean the same entries up to there (under R1, with or without R2) |
| Safety.MessageMatching | kv-store/internal/raft/append_entries.go:157-185 | the same between any log and a message in flight, through the previous entry it names |
| Safety.MatchIndexSound | kv-store/internal/raft/append_entries.go:195-223 | a peer still in the leader's term has the leader's log up to its matchIndex, which may have moved backwards |
| Safety.OlderMessageKeepsLog | kv-store/internal/raft/append_entries.go:83-96 | in every run under R1, once a node answered a leader's message with success, no message of that leader that reaches no further changes its log |
| Safety.LeaderCompleteness | kv-store/internal/raft/node.go:213-232 | under R1 and R2, what a leader commits is in the log of every leader of a later term, at every moment |
| Safety.StateMachineSafety | kv-store/internal/raft/node.go:235-249 | under R1 and R2, of what any two nodes applied at any two moments one is a prefix of the other |
| Safety.AppliedIsCommittedLog | kv-store/internal/raft/node.go:235-249 | lastApplied equals commitIndex, lies within the log, and exactly those commands were applied |
| Safety.CommitNeverDecreases | kv-store/internal/raft/append_entries.go:98-106 | neither commitIndex nor the applied commands of a node ever go back |
| Safety.CapIsLastNewEntry | kv-store/internal/raft/append_entries.go:98-108 | in a state with both invariants, capping by the follower's LastIndex equals capping by the last new entry |
| Safety.CommitCapIsSafe | kv-store/internal/raft/append_entries.go:98-108 | in every run under R1 and R2, a message's LeaderCommit lies within its entries and the cap is the one of section 5.3 of the Raft paper |
| Necessity.RestartForgetsVote | kv-store/internal/raft/node.go:427-432 | a node can vote for a second candidate of its term right after Restart if and only if it was stopped with a vote given |
| Necessity.ElectionSafetyWithoutR1 | kv-store/internal/raft/node.go:427-432 | over all runs, restarts included, election safety holds if and only if the cluster has at most two nodes |
| Necessity.StateMachineSafetyWithoutR2 | kv-store/internal/raft/node.go:213-232 | over all runs under R1 alone, state machine safety holds if and only if the cluster has at most two nodes |
| Necessity.TwoNodesCountSafely | kv-store/internal/raft/node.go:227 | in a cluster of at most two nodes every run under R1 satisfies R2 |
| Necessity.TwoLeaders | kv-store/internal/raft/node.go:423-442 | for every cluster of three nodes or more, a run with two leaders of one term |
| Necessity.Overwritten | kv-store/internal/raft/node.go:213-232 | for every cluster of three nodes or more, a run without restarts in which two nodes apply different first commands (figure 8 of the Raft paper) |
| Scenarios.Poll | kv-store/internal/raft/node.go:140-180 | a candidate asked for by enough willing voters is elected; the voters have its term and everyone else is untouched |
| Scenarios.Replicate | kv-store/internal/raft/append_entries.go:142-228 | two rounds with each of a set of followers bring them the leader's entry; with a majority it is committed and applied |
| LeaderHints.NamedLeaderLed | kv-store/internal/raft/append_entries.go:50-53 | in every run, without R1 or R2, the leader a node names led a term no later than the node's at some earlier moment |
| LeaderHints.TermsNeverDecrease | kv-store/internal/raft/append_entries.go:39-48 | no event lowers a node's term |
| Provenance.EntriesComeFromStart | kv-store/internal/raft/node.go:260-273 | in every run, every entry of every log was appended by an earlier client call at a node that led the entry's term |
| Provenance.StartsOnce | kv-store/internal/raft/node.go:268-272 | under R1 no two client calls get the same index and term |
| Provenance.StartNamesCommand | kv-store/internal/raft/node.go:268-272 | under R1 the index and term a call returned name its command: an entry of that term at that index, in any log at any moment, is the call's |
| Provenance.AppliedComesFromStart | kv-store/internal/raft/node.go:235-249 | under R1 and R2 every applied command is a client call's, applied at the index that call returned |
| Provenance.MergeOnlyMoves | kv-store/internal/raft/append_entries.go:83-96 | merging invents no entry |
| Repair.RoundChangesTwoNodes | kv-store/internal/raft/append_entries.go:142-228 | one round of heartbeat, delivery and reply changes the leader and one follower as their handlers say, and no other node |
| Repair.RoundProgress | kv-store/internal/raft/append_entries.go:206-215 | a round ends with the follower holding the leader's log, or with nextIndex, which was above one, smaller by one |
| Repair.RepairConverges | kv-store/internal/raft/append_entries.go:157-223 | after as many rounds as nextIndex said at first, the follower's log agrees with the leader's up to the leader's last index |
| WalCodec.DecodeEncoded | kv-store/internal/wal/wal.go:125-206 | decoding the bytes behind the length field gives the record back if and only if both lengths fit 32 bits |
| WalCodec.EncodeDecoded | kv-store/internal/wal/wal.go:125-206 | data decodeRecord accepts is what encoding the result puts behind its length field |
| WalCodec.BigEndianRoundTrip | kv-store/internal/wal/wal.go:128-140 | a 32-bit number survives its four bytes |
| WalCodec.ReplayEncodedIffFits | kv-store/internal/wal/wal.go:150-153 | a record comes back from a file if and only if 13 + |key| + |value| < 2^32 |
| WalCodec.ParseSound | kv-store/internal/wal/wal.go:209-249 | on arbitrary bytes: what replay returns, encoded again, is a prefix of the file, and a torn tail follows |
| WalCodec.ParseComplete | kv-store/internal/wal/wal.go:209-249 | records followed by any torn tail replay to exactly those records |
| WalCodec.ParseExactly | kv-store/internal/wal/wal.go:209-249 | replay returns a list of records if and only if the file is their encodings and a torn tail |
| WalCodec.CutSplits | kv-store/internal/wal/wal.go:209-249 | the bytes before a cut are the encodings of `WholeBefore` many records and a proper piece of the next |
| WalCodec.ParseCut | kv-store/internal/wal/wal.go:219-234 | for every cut: an error exactly when it is 1 to 4 bytes into a record, else exactly the whole records before it |
| WalFile.WriteAheadLog.constructor | kv-store/internal/wal/wal.go:59-78 | an open log is the file, numbering from zero, and an idle committer |
| WalFile.WriteAheadLog.Enqueue | kv-store/internal/wal/wal.go:98-116 | a closed log refuses; otherwise the next number is taken and the request is queued, or waits with the mutex held while the queue is full |
| WalFile.WriteAheadLog.ResumeSend | kv-store/internal/wal/wal.go:114-116 | the blocked send goes through when there is room and releases the mutex |
| WalFile.WriteAheadLog.TakeBatch | kv-store/internal/wal/wal.go:259-270 | in any number of receives: an open queue is taken whole and in order once they suffice, a closed one never, and what happened is a run of the transition system |
| WalFile.WriteAheadLog.WriteAll | kv-store/internal/wal/wal.go:302-310 | all records are written in order, or those before the failing one and a part of it |
| WalFile.WriteAheadLog.WriteAndSync | kv-store/internal/wal/wal.go:302-330 | one sync covers the batch, and it is good only if every write and the sync were |
| WalFile.WriteAheadLog.CommitBatch | kv-store/internal/wal/wal.go:272-335 | nothing while a sender holds the mutex; otherwise statistics, writes, one sync and one reply for every caller, all with the same answer |
| WalFile.WriteAheadLog.ReplyToAll | kv-store/internal/wal/wal.go:312-334 | each caller of the batch gets its own number's reply, in order, and the batch is done |
| WalFile.WriteAheadLog.Close | kv-store/internal/wal/wal.go:80-91 | closing marks the log closed, once, and waits for the mutex |
| WalFile.WriteAheadLog.BatchStats | kv-store/internal/wal/wal.go:339-344 | the two counters, whose meaning is in `GroupCommit.StatsCountRecords` |
| WalFile.WriteAheadLog.Replay | kv-store/internal/wal/wal.go:209-249 | the loop returns what the recursive parser says of the file, for every file |
| WalFile.DrainIsSteps | kv-store/internal/wal/wal.go:259-270 | taking a batch is a run of the transition system |
| WalFile.CommitIsSteps | kv-store/internal/wal/wal.go:272-335 | committing a batch, with any fault, is a run of the transition system |
| GroupCommit.RunsKeepOrder | kv-store/internal/wal/wal.go:98-123 | under W3, requests are numbered in the order issued and leave in that order, none lost, none twice |
| GroupCommit.OneReplyEach | kv-store/internal/wal/wal.go:98-123 | the k-th reply is for number k, replies never outnumber calls, and a batch never exceeds the calls in flight |
| CrashRecovery.RunsKeepFile | kv-store/internal/wal/wal.go:302-334 | without failed writes the file is the old records and the issued ones in order, the synced length ends on a record, and a nil answer means synced |
| CrashRecovery.RecoveryAfterCrash | kv-store/internal/wal/wal.go:209-249 | cut anywhere between synced and written length: replay fails exactly 1 to 4 bytes into a record, else returns the old records and a prefix of the issued ones with every acknowledged one |
| CrashRecovery.ReplayWhenIdle | kv-store/internal/wal/wal.go:209-249 | with every call answered, replay returns every record issued |
| Progress.DeadlockIsMutualWait | kv-store/internal/wal/wal.go:104-118 | requests are stuck if and only if the queue is full, a caller holds the mutex, and the committer wants it |
| Progress.InternalStepsCountDown | kv-store/internal/wal/wal.go:259-335 | every step of callers and committer decreases a measure, so none repeats for ever |
| Progress.CallersAreServed | kv-store/internal/wal/wal.go:259-335 | with at most capacity + 1 calls in flight there is no deadlock, steps run out, and then everyone has a reply |
| Progress.DeadlockFreeIffBounded | kv-store/internal/wal/wal.go:72-118 | no reachable deadlock if and only if the bound on calls in flight is at most capacity + 1 |
| Progress.CloseFinishesIff | kv-store/internal/wal/wal.go:80-93 | after Close the committer can finish if and only if nothing is queued and nothing is being collected |
| WalCodec.TornTailHides | kv-store/internal/wal/wal.go:59-78 | bytes written behind a torn tail are not seen by replay while they do not fill the tail's record |
| WalCodec.AppendingIsSafeIffNoTail | kv-store/internal/wal/wal.go:59-78 | whatever records are appended next, replay returns the old and the new ones, if and only if the file had no tail |
| CrashRecovery.TornTailHidesSession | kv-store/internal/wal/wal.go:59-78 | a session opened on a file with a torn tail: replay returns the old records and none of the session's, acknowledged or not, while they do not fill the gap |
| GroupCommit.StatsCountRecords | kv-store/internal/wal/wal.go:272-277 | under W3 the record counter is the replies sent and the rest of the counted batch, never fewer than the batches, and every record issued once no call is in flight |
| WalFile.AppendsInTurn | kv-store/internal/wal/wal.go:98-123 | any list of records can be appended one call at a time, every call returning nil |
| Stores.FoldIsLastWrite | kv-store/internal/store/store.go:29-36 | what a key holds is decided by the last record for it |
| Stores.OrderedApplyIsConfluent | kv-store/internal/store/store.go:92-119 | numbers delivered in any order: the map is the fold of the longest gap-free prefix, and exactly the rest is pending |
| Stores.AllArrived | kv-store/internal/store/store.go:92-119 | with all numbers delivered the map is the fold in sequence order and nothing is pending |
| Stores.Store.constructor | kv-store/internal/store/store.go:18-44 | the map New builds is the fold of the records replayed |
| Stores.Store.Get | kv-store/internal/store/store.go:63-69 | the local value, or nothing |
| Stores.Store.ApplyInOrder | kv-store/internal/store/store.go:92-119 | the loop leaves the store the recursive drain describes |
| Stores.Store.Set | kv-store/internal/store/store.go:46-61 | a failed append changes nothing; a good one goes through ordered application |
| Stores.Store.Delete | kv-store/internal/store/store.go:71-89 | the same, and it says whether the key was there beforehand |
| Replication.LiveStoreIsDurable | kv-store/internal/store/store.go:92-119 | at any moment, with any interleaving of writers, the live map is the recovery of a synced prefix of the records |
| Replication.LiveStoreEqualsRecovered | kv-store/internal/store/store.go:18-44 | once everything issued is acknowledged and applied, the live map is the one New builds from the file's bytes |
| Replication.StoreStopsAtFirstFailure | kv-store/internal/store/store.go:53-58 | with failures allowed, the map stops before the first call that failed; it is caught up if and only if every call returned nil |
| Replication.CallbackFolds | kv-store/internal/raft/kv_node.go:10-19 | commands applied one at a time leave their fold and nothing pending; unknown types are skipped |
| Replication.StoreIsFoldOfLog | kv-store/internal/raft/node.go:235-249 | each node's map is the fold of its log up to lastApplied |
| Replication.RecoveredNodeIsFoldOfLog | kv-store/internal/raft/kv_node.go:10-19 | the three layers: when the records of the commands a node applied went to its write-ahead log, New on that file rebuilds the node's map, the fold of its Raft log up to lastApplied |
| Replication.CallbackAppends | kv-store/internal/raft/kv_node.go:11-19 | such a run of the write-ahead log exists for every node at every moment |
| Replication.ReplicatedStoresAgree | kv-store/internal/raft/kv_node.go:10-19 | nodes with equal lastApplied have equal stores, at whatever moments |
| Replication.KVNode.Apply | kv-store/internal/raft/kv_node.go:11-19 | the callback stores a set or a delete and ignores other types |
| Replication.KVNode.Set | kv-store/internal/raft/kv_node.go:27-39 | accepted exactly by a leader, with the new entry's index and the leader the node knows |
| Replication.KVNode.Delete | kv-store/internal/raft/kv_node.go:45-55 | the same for a delete |

## Left out

- WalFile.WriteAheadLog.TakeBatch: takes a number of receives after which it gives up, since on a closed queue the drain loop does not end; the contract holds for every such number.
- WalFile.WriteAheadLog.CommitBatch: returns false where the committer would wait for the mutex; waiting itself is modelled in `GroupCommit`, and so is `Append`'s wait for its reply.
- WalFile.WriteAheadLog.Close: does not model the wait for the committer and the closing of the file; whether that wait ends is `Progress.CloseFinishesIff`.
- Replication.KVNode.Set: reads the leader id in the same step, where the source takes the lock again; so does `Delete`. Which nodes can be named is `LeaderHints.NamedLeaderLed`.
- Stores.Store.Set: takes the outcome of the log's `Append` as a parameter, as `Delete` and the apply callback do; `ApplyPut` and `ApplyDelete` are the same code and share these methods.
- RaftNodes.RaftNode.OnAppendReply: requires a previous index that is not negative, which every message a leader sends has (`Steps.HeartbeatIsSuffix`).
- Replies to AppendEntries may be consumed more than once in the model, stopped nodes still answer, and a sitting leader can time out at any moment, which the code allows only between the leader check and `startElection` (append_entries.go:129-138). All three only add runs, and the runs in `Necessity` use none of them.
- Go map iteration order: elections and heartbeats reach peers in any order, but the messages of one heartbeat are built in one event, as under the lock.
- Slice aliasing: a message built by `EntriesFrom` is a snapshot of the entries, although the code shares the log's backing array with it after the lock is released.
- A node without an apply callback: the callback is taken to be set, as `NewKVNode` does.
- Errors of `ApplyPut` and `ApplyDelete`, which the callback ignores: its calls are taken to succeed.
- The encoding error branch of the committer: writing to a memory buffer does not fail.
- `Open` after a crash on a file with a torn tail, which it does not trim: the model's sessions start without one (W1).
- CRC-32: an arbitrary function from bytes to 32-bit numbers, so nothing is said about how many corruptions it detects.
- Overflow of terms, indices and sequence numbers: they are unbounded; only the 32-bit length fields wrap around.
- Raft state over a process restart: term, vote and log live in memory only.
- Liveness of elections, timers and real time: a timeout is an event that may happen at any moment.
- Linearizable or up-to-date reads: `Get` is local, and the code promises no more.
- `Store.Apply`, which nothing in the Raft path calls, and status getters: they would add easy members only.
- HTTP handlers and transport, server-sent events, the event bus, the front end and the server's wiring.
