# RedisGO in Dafny

RedisGO replicates the commands of a Redis-like server with the etcd Raft library: every node runs a Raft state machine
(`etcd/raft`), an application loop that stores and applies what Raft hands out (`raftexample/raft.go`), and a key-value store
behind a Redis protocol front end (`resp`, `memdb`). This project models the parts that decide whether the nodes agree, and the
data formats and structures around them, and proves what they promise. `dfyconfig.toml` lists all files.

## How the model is built

**The protocol.** `RaftCore` is Raft without messages: terms, logs, votes, acknowledgements, commits, and the history they leave.
Its invariant says that whatever a majority may still acknowledge is in every later leader's log. `RaftNode` is one node as the
handlers of `etcd/raft/raft.go` make it, a function from a node and an event to the new node and the messages it sends, with the
panics of appending, of moving the commit position and of the read queue as a result of their own. `NodeAnswers` says of every
event what becomes of the node and which messages go out, in terms of positions, terms and set sizes. `Cluster` puts nodes, all messages ever sent (so loss, delay, duplication and reordering
are covered) and the history together; `ClusterFrame`, `ClusterSteps`, `ClusterLogs`, `ClusterReads` and `ClusterDispatch` show that
each event keeps the invariant, and `ClusterSafety` states the theorems about whole runs. `ClusterCommits` adds that a leader has
committed exactly what a majority acknowledged, `ReadServing` what becomes of one read, and `Validity` where entries come from.

**Persistence.** In `Cluster` a node's state is durable as soon as it changes. `Buffered` drops that: a node works in memory, a Ready
is accepted, stored, sent and advanced, and a crash loses what was not stored. `BufferedSim` shows that each run of this system is a
run of the cluster in which a node's events happen when they are stored, `BufferedLog` follows the two-part log through it,
`BufferedRestore` shows that a snapshot never comes between a Ready and the entries its `Advance` drops, and `BufferedSafety`,
`BufferedCommits` and `BufferedReads` state the theorems; `BufferedProgress` says that nothing stands in the way of the next
step. `ApplyLoop` adds the application (cursor, publishing, snapshots, compaction) and
`ServiceSafety` and `ServiceValidity` say what the state machines of all nodes are given, `ServiceProgress` that the loop always
goes on; `HupSlice` looks at one read of the log that does not go with
compaction.

**The log.** `LogView` is a log as its users see it, `LogStore` the two parts it is kept in, and `Storage`, `LogUnstable` and `Log`
are the classes of the source that keep it, each method proved against the functions of `LogView` and `LogStore`. `Probe`,
`Proposals`, `ReadQueue`, `Majority` and `Publishing` are the remaining pieces of Raft bookkeeping.

**The rest.** `Varint`, `KvFormat`, `EventFormat` and `KvCodec` are the generated protobuf codec, and `WireFields` says what its
bytes mean; `StripedLocks` the multi-key locks; `Decimal` and `Resp` the Redis protocol, `RespLines` what the parser makes of every
line and `RespExact` what it cannot do; `LinkedList` the list behind Redis lists.

The protocol theorems follow sections 5.2 to 5.4 and 7 of "In Search of an Understandable Consensus Algorithm" and section 6.4 of
Ongaro's thesis. The environment is what the source asks of it: messages are not invented and a node's disk keeps what was stored.
Only the theorems about reads also need that the leader in question does not accept a context again once it was answered (`NoReuse`,
`NoSystemReuse`).

## What does not hold

* **Not every printed value is read back.** Printed values come back, in order and with nothing else, exactly when each of them is
  a bulk string, number, text or error, or a flat array of such, with no line feed in a text and with lengths that fit
  (`RespExact.StreamReadExactly`, an equivalence over all streams of values). Plain text loses its first byte; a null array, which
  `ToBytes` prints and the parser has a branch for, is refused by its header (`Resp.NullArrayIsRefused`); arrays in arrays are not
  rebuilt.
* **The parser crashes on some input.** A line feed alone makes the reader look at the byte before it
  (`RespExact.LineFeedCrashes`), and a bulk string announced with a length for which no buffer can be allocated panics
  (`RespExact.LongBulkCrashes`; for the length 2^63 - 1 the size itself wraps around, `RespExact.HugeBulkCrashes`).
  `RespExact.CrashExactly`: whatever the platform's limit, the parser crashes if and only if one of the lines of the input, found
  by scanning for line feeds and announced lengths alone, is of one of these two kinds.
* **`findConflictByTerm`** is documented to return the first index when no entry fits. It never does: `Probe.DocumentedExactly` says
  that the result is the documented one if and only if some entry fits, and what it is otherwise; `Probe.NotTheFirstIndex` is an
  instance.

* **The smallest index of a list.** The test with which `Index` and `Set` refuse a position negates it, and -2^63 is its own
  negation. It refuses just what does not exist if and only if the index is not -2^63 (`LinkedList.RefusedExactly`); at that index
  `Index` walks off the list and crashes (`LinkedList.SmallestCrashes`, `LinkedList.IndexExactly`), and `Set` writes to the sentinel
  and answers yes (contract of `LinkedList.List.Set`).
* **Campaigning after a long batch.** Before it campaigns, a node reads its unapplied entries and panics if they were compacted. In
  every run of the service they can be read if and only if storage begins at or below the cursor (`HupSlice.HupExactly`). It does
  not only between compaction and `Advance` after a batch longer than the catch-up distance (`HupSlice.CompactedAhead`), and
  `HupSlice.LongBatchIsAhead` is a run that comes to such a state.
* **Old rejections.** `MaybeDecrTo` is documented to ignore a rejection of something already acknowledged. It does so exactly unless
  the rejection is of the very position acknowledged last and the follower is probed right behind it (`Probe.StaleExactly`);
  `Probe.DelayedRejection` is a sequence of messages after which one is not ignored and Next falls below Match, and
  `Probe.NextAboveMatchExactly` says when that happens.

## Model

| member | source | states |
|---|---|---|
| `RaftCore.ElectFresh` | etcd/raft/raft.go:709-720 | a majority can be won only in a term that has no leader yet: election safety |
| `RaftCore.VoteCarries` | etcd/raft/raft.go:948-991 | the up-to-date check makes a candidate's log contain everything that may still be chosen and its voter acknowledged |
| `RaftCore.ElectCarries` | etcd/raft/raft.go:1413-1423 | a winner's log contains everything that may still be chosen |
| `RaftCore.LeaderCompleteness` | etcd/raft/raft.go:602-605 | what was committed in a term is a prefix of every later leader's log |
| `RaftCore.CommitsAgree` | etcd/raft/log.go:328-334 | of any two committed prefixes one extends the other |
| `RaftCore.BumpTermKeeps` | etcd/raft/raft.go:700-707 | adopting a term keeps the protocol invariant |
| `RaftCore.CampaignKeeps` | etcd/raft/raft.go:803-853 | campaigning keeps the protocol invariant |
| `RaftCore.CastVoteKeeps` | etcd/raft/raft.go:948-991 | a vote that was allowed keeps the protocol invariant |
| `RaftCore.ElectKeeps` | etcd/raft/raft.go:738-776 | winning a majority and appending an empty entry keeps the protocol invariant |
| `RaftCore.ExtendKeeps` | etcd/raft/raft.go:638-656 | appending entries of the leader's term to its own log keeps the protocol invariant; which entries these are is said by `NodeAnswers.ProposeAnswer` and `Proposals.StampedExactly` |
| `RaftCore.ReplicateKeeps` | etcd/raft/raft.go:1489-1496 | a node taking over and acknowledging a prefix of its leader's log keeps the protocol invariant |
| `RaftCore.DecideKeeps` | etcd/raft/raft.go:602-605 | committing an entry of the leader's own term that a majority acknowledged keeps the protocol invariant |
| `NodeAnswers.OldTermIsIgnored` | etcd/raft/raft.go:900-937 | a message of an earlier term changes nothing and is not answered |
| `NodeAnswers.HupAnswer` | etcd/raft/raft.go:778-853 | a campaign starts the next term with a vote for itself and a request with the end of its log to every other voter; a lone voter has won |
| `NodeAnswers.LeaderHup` | etcd/raft/raft.go:778-782 | a leader does not campaign |
| `NodeAnswers.VoteAnswer` | etcd/raft/raft.go:948-991 | a vote is granted exactly when, in the term of the request, the node voted for the candidate or has neither voted nor a leader, and the candidate's last term and index are lexicographically at least its own; there is one answer in any case, and who got the vote is recorded |
| `NodeAnswers.VoteCount` | etcd/raft/raft.go:1413-1430 | a candidate leads exactly with the yes of more than half, gives up exactly when that can no longer be reached, and counts each voter's first answer |
| `NodeAnswers.LateVote` | etcd/raft/raft.go:1435-1487 | an answer to a campaign that is over is ignored |
| `NodeAnswers.EarlyApp` | etcd/raft/raft.go:1489-1493 | an append that starts below the commit position is answered with that position |
| `NodeAnswers.RefusedApp` | etcd/raft/raft.go:1497-1524 | an append after an entry that is not there is refused, with the largest position at which the two logs may agree, and its term |
| `NodeAnswers.AcceptedApp` | etcd/raft/raft.go:1495-1496 | an append after an entry that is there is written from the first conflict on, or not at all if there is none; the commit position goes to the leader's, no further than what was sent; it is answered with the last position sent |
| `NodeAnswers.HeartbeatAnswer` | etcd/raft/raft.go:1527-1530 | a heartbeat moves the commit position forward to what it carries and is answered with its context |
| `NodeAnswers.SnapAnswer` | etcd/raft/raft.go:1532-1572 | a snapshot is ignored, commits what the log agrees with, or replaces the log, and is answered with the commit position |
| `NodeAnswers.LeaderStands` | etcd/raft/raft.go:1009-1116 | a leader does not follow a message of its own term |
| `NodeAnswers.AckAnswer` | etcd/raft/raft.go:1249-1277 | an acknowledgement raises what is known of its sender, and the commit position goes to the largest position more than half have reached, exactly if that is news and of the leader's own term |
| `NodeAnswers.SelfAckAnswer` | etcd/raft/raft.go:577-588 | the same of what the leader has stored itself |
| `NodeAnswers.RejectAnswer` | etcd/raft/raft.go:1115-1125 | a rejection shows that its sender is there and commits nothing |
| `NodeAnswers.NoLeaderNoAck` | etcd/raft/raft.go:1435-1487 | a node that does not lead takes no acknowledgement |
| `NodeAnswers.ProposeAnswer` | etcd/raft/raft.go:638-656 | a leader's log grows by what was proposed, entry by entry with its kind and data, the leader's term and the next position |
| `NodeAnswers.NoLeaderNoProposal` | etcd/raft/raft.go:1435-1447 | a node that does not lead appends nothing |
| `NodeAnswers.SendAppAnswer` | etcd/raft/raft.go:473-494 | an append carries the entries from Next on, the term before them and the commit position |
| `NodeAnswers.SendSnapAnswer` | etcd/raft/raft.go:448-472 | a snapshot is of committed entries and goes only to a node that has answered |
| `NodeAnswers.BeatAnswer` | etcd/raft/raft.go:498-535 | a heartbeat carries the smaller of commit position and Match, and the context queued last |
| `NodeAnswers.RestartAnswer` | etcd/raft/raft.go:318-370 | a restart keeps term, vote, log and commit position and forgets everything else |
| `NodeAnswers.ReadAnswer` | etcd/raft/raft.go:1849-1866 | a read is noted with the commit position, confirmed by the leader itself, and sent to every other voter |
| `NodeAnswers.OtherReads` | etcd/raft/raft.go:1087-1101 | a lone voter answers at once with its commit position; a leader that has committed nothing in its term answers nothing yet |
| `NodeAnswers.ConfirmAnswer` | etcd/raft/raft.go:1298-1323 | a confirmation is counted; with more than half of the voters, the read goes out together with every read queued before it, each with its own index |
| `NodeAnswers.UnaskedConfirm` | etcd/raft/raft.go:1298-1312 | any other confirmation only shows that its sender is there |
| `LogView.MaybeAppendMerges` | etcd/raft/log.go:88-107 | appending a stretch of a leader's log never panics and makes the log agree with the leader's up to its end, cutting only behind a conflict |
| `LogView.FindConflictExactly` | etcd/raft/log.go:130-141 | the first given entry the log does not hold with that term, and 0 exactly if it holds them all |
| `LogView.MaybeAppendExactly` | etcd/raft/log.go:88-107 | for any log and any entries: refused exactly if the term at the index differs, nothing written if the log holds them, written from the first conflict on otherwise, and when that panics |
| `LogView.SuffixAppend` | etcd/raft/log.go:88-107 | a compacted log gives the same answer and ends the same as one that kept everything |
| `ClusterSteps.HupGood` | etcd/raft/raft.go:778-853 | campaigning keeps the cluster invariant, alone or with others |
| `ClusterSteps.VoteReqGood` | etcd/raft/raft.go:948-991 | granting and refusing a vote keep the cluster invariant; when it is granted is said by `NodeAnswers.VoteAnswer` |
| `ClusterSteps.VoteRespGood` | etcd/raft/raft.go:1413-1423 | counting a vote, winning and losing keep the cluster invariant |
| `ClusterLogs.AppGood` | etcd/raft/raft.go:1489-1525 | any MsgApp, stale or short, keeps the cluster invariant and never hits the two panics |
| `ClusterLogs.HeartbeatGood` | etcd/raft/raft.go:1527-1530 | a delayed heartbeat never commits past the log |
| `ClusterLogs.SnapGood` | etcd/raft/raft.go:1532-1572 | restoring, fast-forwarding and ignoring a snapshot keep the cluster invariant |
| `ClusterLogs.AcknowledgeGood` | etcd/raft/raft.go:1249-1277 | an acknowledgement moves the commit position only to entries of the leader's term that a majority holds; that it moves it to all of them is said by `ClusterCommits.LeaderCommitsMajority` |
| `ClusterLogs.SelfAckGood` | etcd/raft/raft.go:577-588 | a leader's acknowledgement to itself keeps the cluster invariant |
| `ClusterReads.AnswersGood` | etcd/raft/read_only.go:81-112 | a context confirmed by a majority vouches for every request queued before it |
| `ClusterReads.ReadFloor` | etcd/raft/raft.go:1748-1750 | a leader that committed in its term is not behind anything committed up to its term |
| `ClusterSafety.NextKeeps` | etcd/raft/raft.go:865-1007 | in every state that satisfies the invariant, no event panics, the invariant is kept, and term and commit position do not fall |
| `ClusterSafety.RunInv` | etcd/raft/bootstrap.go:30-80 | the invariant holds in every state of every run from a bootstrapped cluster |
| `ClusterSafety.NoPanic` | etcd/raft/log.go:88-118 | "conflict with committed entry" and "tocommit is out of range" are unreachable |
| `ClusterSafety.ElectionSafety` | etcd/raft/raft.go:709-720 | at any two moments of a run a term has at most one leader |
| `ClusterSafety.LogMatching` | etcd/raft/log.go:88-141 | logs of any two nodes at any two moments that hold the same term at an index are equal up to it |
| `ClusterSafety.TermsAscend` | etcd/raft/raft.go:638-656 | terms do not decrease along a log |
| `ClusterSafety.StateMachineSafety` | etcd/raft/log.go:236-244 | what two nodes have committed at any two moments agrees entry for entry |
| `ClusterSafety.LeadersHoldCommitted` | etcd/raft/raft.go:738-776 | what a node had committed is in the log of every leader of its term or a later one from then on |
| `ClusterSafety.LeadersAreComplete` | etcd/raft/raft.go:602-605 | what a leader commits is in the log of every leader of a later term, even of one elected before the commit |
| `ClusterSafety.CommittedIsKept` | etcd/raft/log.go:236-244 | a node's committed entries stay committed there |
| `ClusterCommits.LeaderCommitsMajority` | etcd/raft/raft.go:602-605 | in every run, of its own term a leader has committed exactly the positions that more than half of the voters have reached according to its progress |
| `BufferedCommits.InMemoryCommitsMajority` | etcd/raft/raft.go:602-605 | the same of every leader in memory, with disks and crashes |
| `BufferedCommits.StoredIsCounted` | etcd/raft/raft.go:577-588 | once a Ready with entries is advanced, a leader counts itself for everything it has on disk, and nobody else for more |
| `Validity.NothingInvented` | etcd/raft/raft.go:638-656 | in every run, every entry of every log was there from the start, is the empty entry of a newly elected leader, or is an item proposed earlier to the leader of its term, with its kind and data |
| `ServiceValidity.NothingStoredInvented` | etcd/raft/raft.go:638-656 | the same of every log on disk and in memory, with crashes |
| `ServiceValidity.NothingAppliedInvented` | raftexample/raft.go:157-232 | a state machine is given nothing else |
| `ClusterSafety.ReadIndexLinearizable` | etcd/raft/raft.go:1087-1105 | a read is answered with an index at or above everything any node had committed when the leader accepted it, also when a later context released it; the index is no further than the leader's commit position, and with several voters equal to that position at the moment of acceptance |
| `ReadServing.AnswerFrom` | etcd/raft/raft.go:1318-1323 | with several voters only a leader answers, only what is pending, and with the index it was noted with |
| `ReadServing.StaysServing` | etcd/raft/read_only.go:56-112 | whatever happens, a pending read keeps its index for as long as the node leads that term |
| `ReadServing.StaysPast` | etcd/raft/raft.go:709-720 | a node that stopped leading a term does not lead it again |
| `ClusterSafety.QueuedIndex` | etcd/raft/raft.go:1849-1866 | a read that waited for a majority is answered with the commit position at which it was accepted |
| `LogStore.AppendOverwrites` | etcd/raft/log_unstable.go:121-141 | each way of writing to the unstable part overwrites the log the two parts stand for |
| `LogStore.StableToKeeps` | etcd/raft/log_unstable.go:75-88 | dropping unstable entries leaves the log unchanged exactly when storage holds them |
| `LogStore.StoreAppendHidden` | etcd/raft/storage.go:253-285 | appending to storage from the offset on does not fail and does not show |
| `LogStore.StoreAppendExactly` | etcd/raft/storage.go:253-285 | storage after an append, position by position, and that it panics exactly on a gap |
| `LogStore.StoreCompactExactly` | etcd/raft/storage.go:230-248 | compaction forgets what is at or below the index but its term, and keeps everything above |
| `LogStore.CompactMovesBase` | etcd/raft/storage.go:230-248 | compaction moves the beginning of the log and nothing else, even to an entry that is still unstable |
| `LogStore.StabilisedKeeps` | etcd/raft/raft.go:577-596 | marking a stored Ready's last entry and snapshot stable changes nothing that can be seen |
| `Limits.LimitSize` | etcd/raft/util.go:212-225 | the longest prefix within the size, but at least one entry |
| `Limits.LimitedOnce` | etcd/raft/util.go:212-225 | there is only one such prefix |
| `Limits.EntrySizeIsLength` | etcd/raft/raftpb/raft.pb.go:786-808 | the size by which batches are cut is the number of bytes an entry is written with |
| `Storage.MemoryStorage.Term` | etcd/raft/storage.go:138-150 | the term between dummy and last entry, and which error outside |
| `Storage.MemoryStorage.GetEntries` | etcd/raft/storage.go:117-135 | the longest run within the size; when it is compacted, unavailable or a panic |
| `Storage.MemoryStorage.ApplySnapshot` | etcd/raft/storage.go:186-200 | storage becomes the snapshot, unless that is not newer |
| `Storage.MemoryStorage.CreateSnapshot` | etcd/raft/storage.go:206-225 | position and term are remembered; out of date and out of range are told apart |
| `Storage.MemoryStorage.Compact` | etcd/raft/storage.go:230-248 | everything up to the index goes, its term stays; error cases change nothing |
| `Storage.MemoryStorage.Append` | etcd/raft/storage.go:253-285 | storage is overwritten from the first new entry; a gap is a panic and nothing else is |
| `LogUnstable.UnstableLog.MarkStable` | etcd/raft/log_unstable.go:75-88 | drops what is at or below the entry exactly if that is there with that term, and nothing else |
| `LogUnstable.UnstableLog.Write` | etcd/raft/log_unstable.go:121-141 | append, replace and truncate are one operation: the old entries before the first new one, then the new ones; past the end is a panic |
| `Log.RaftLog.FirstIndex` | etcd/raft/log.go:214-223 | the position after the pending snapshot, else after storage's dummy entry, is where the sequence begins |
| `Log.RaftLog.LastIndex` | etcd/raft/log.go:225-234 | the last unstable entry, the pending snapshot or storage's last entry is where the sequence ends |
| `Log.RaftLog.Term` | etcd/raft/log.go:268-288 | storage, unstable entries and pending snapshot answer as one sequence |
| `Log.RaftLog.FindConflict` | etcd/raft/log.go:130-141 | the loop finds the first entry the sequence does not hold |
| `Log.RaftLog.FindConflictByTerm` | etcd/raft/log.go:150-171 | the loop stops where the walk over the sequence does, never below zero |
| `Log.RaftLog.CommitTo` | etcd/raft/log.go:236-244 | the commit position never falls and never passes the end |
| `Log.RaftLog.AppliedTo` | etcd/raft/log.go:246-254 | applied stays between its old value and committed, else a panic |
| `Log.RaftLog.Append` | etcd/raft/log.go:109-118 | the sequence is overwritten, never at or below the commit position |
| `Log.RaftLog.MaybeAppend` | etcd/raft/log.go:88-107 | the two-part log does what the sequence does, including each panic |
| `Log.RaftLog.Slice` | etcd/raft/log.go:343-381 | the longest run of the sequence within the size, never empty for a non-empty range; compacted and out-of-bound cases |
| `Log.RaftLog.NextEnts` | etcd/raft/log.go:183-193 | the longest run of committed entries right after the applied one |
| `Log.RaftLog.MaybeCommit` | etcd/raft/log.go:328-334 | the commit position moves only to an entry of the given term |
| `Log.RaftLog.Restore` | etcd/raft/log.go:336-340 | the log is then the snapshot, all of it committed |
| `Log.RaftLog.Stabilise` | etcd/raft/raft.go:577-596 | what Advance leaves of the unstable part, and that the log as seen stays valid and the same once the Ready is stored |
| `BufferedSim.CatchUp` | raftexample/raft.go:488-507 | events a node has only in memory can all happen in the atomic cluster |
| `BufferedSim.AckWithin` | etcd/raft/raft.go:577-588 | a leader acknowledging a stored Ready to itself still has that Ready's entries in its log |
| `BufferedSim.ActBacked` | raftexample/raft.go:488-507 | accept, store, send, advance and crash are matched by the atomic cluster |
| `BufferedSafety.RunBacked` | etcd/raft/doc.go:75-86 | persist-before-send refines the atomic cluster: the disks at two moments are two moments of one of its runs |
| `BufferedSafety.DurableStateMachineSafety` | raftexample/raft.go:488-507 | what two disks hold as committed, at any two moments, agrees |
| `BufferedSafety.InMemoryNoPanic` | etcd/raft/log.go:88-118 | in memory, too, no event reaches the panics of appending, of moving the commit position or of the read queue |
| `BufferedSafety.InMemoryElectionSafety` | etcd/raft/raft.go:738-776 | two nodes that lead the same term in memory are one |
| `BufferedSafety.InMemoryLogMatching` | etcd/raft/log.go:88-141 | logs in memory match |
| `BufferedSafety.EveryEventFits` | etcd/raft/log.go:88-118 | every event is a log operation the two-part log can follow |
| `BufferedSafety.OverlayHolds` | etcd/raft/log_unstable.go:19-31 | storage and unstable part stand for the log in memory at every moment |
| `BufferedSafety.PersistNeverPanics` | etcd/raft/storage.go:253-285 | storing a Ready finds no gap, and storage then holds the log the Ready was taken from |
| `BufferedSafety.StableToDropsOnlyStored` | etcd/raft/log_unstable.go:75-88 | whatever was truncated and written again meanwhile, Advance drops only entries storage holds |
| `BufferedSafety.AdvanceAlwaysSafe` | etcd/raft/raft.go:577-596 | in every run, while Advance drops entries no other snapshot than the Ready's own is pending |
| `BufferedSafety.WriteNeverPanics` | etcd/raft/log_unstable.go:121-157 | the unstable part is never too short for what is written |
| `BufferedProgress.EveryEventHappens` | etcd/raft/raft.go:865-1007 | in every run of the cluster, any message sent to a node can reach it and any other event can happen, without a panic and as the handler says |
| `BufferedProgress.EveryEventIsTaken` | etcd/raft/raft.go:865-1007 | in memory, too, and the two-part log follows it |
| `BufferedProgress.StagesGoOn` | etcd/raft/node.go:307-406 | in every run a Ready can be taken, stored and advanced, each when it is due, without a panic |
| `BufferedProgress.EveryMessageIsSent` | raftexample/raft.go:488-507 | whatever a stored Ready has to send can be sent |
| `BufferedProgress.EveryCrashIsSurvived` | raftexample/raft.go:277-295 | at any moment a node can crash and come back with term, vote, log and commit position as stored |
| `BufferedReads.RunUnspoiled` | etcd/raft/read_only.go:56-66 | a run in which a term's contexts are not used again is backed by an atomic run in which they are not either |
| `BufferedReads.DurableReadIndex` | etcd/raft/raft.go:1087-1105 | with disks and crashes, a read is answered with an index at or above everything any node had stored as committed when the leader took it, at or below what the leader has committed when it answers, and with several voters equal to what it had committed when it took it |
| `BufferedReads.LeaderIsDurable` | etcd/raft/raft.go:803-853 | among several voters nobody leads a term, even in memory, before that term is on disk |
| `BufferedReads.DurableQueuedIndex` | etcd/raft/raft.go:1849-1866 | the index of an answer is what the leader had committed when it took the read, also across crashes |
| `BufferedRestore.SnapAddressee` | etcd/raft/raft.go:450-453 | a snapshot on its way was sent by its term's leader from its log, to a node that has stored that term |
| `BufferedRestore.FollowsKeeps` | etcd/raft/raft.go:1489-1572 | a node that stays in one term keeps what its log shares with that term's leader, through appends and snapshots |
| `BufferedRestore.RestoredApart` | etcd/raft/raft.go:1532-1572 | a snapshot restored while a Ready is in flight is no prefix of that Ready's log |
| `Publishing.OffsetIsRight` | raftexample/raft.go:141-153 | the wrapping subtraction gives the number of entries already applied |
| `Publishing.EntriesToApplyExactly` | raftexample/raft.go:141-153 | of any batch without gaps exactly the entries above what was applied, and fatal exactly if it starts beyond the next position |
| `Publishing.PublishExactly` | raftexample/raft.go:378-394 | when publishing a Ready is fatal, and what is seen otherwise |
| `Publishing.PublishesAll` | raftexample/raft.go:141-153 | a batch that follows what was applied is published whole |
| `Publishing.Applier.PublishEntries` | raftexample/raft.go:157-232 | the loop publishes what entriesToApply selects and moves appliedIndex behind it |
| `Publishing.Applier.PublishSnapshot` | raftexample/raft.go:378-394 | both positions move to a snapshot that is ahead; any other is fatal |
| `Publishing.Applier.MaybeTriggerSnapshot` | raftexample/raft.go:398-435 | taking a snapshot and compacting behind it never fails, and when it happens |
| `ApplyLoop.AppKept` | raftexample/raft.go:488-507 | every step of the loop keeps cursor, batch, appliedIndex and storage in step |
| `ServiceSafety.ExactlyOnce` | raftexample/raft.go:141-153 | a state machine is given the committed entries in order, each once, with no gap but jumps to a snapshot |
| `ServiceSafety.ReadyCarriesCommitted` | etcd/raft/log.go:183-193 | in every run, a Ready hands out what is committed right behind what was applied or behind its snapshot: all of it if it fits, else as much as fits, and something in any case |
| `ServiceSafety.PublishNeverFatal` | raftexample/raft.go:378-394 | entriesToApply and publishSnapshot are never fatal and drop or repeat nothing |
| `ServiceSafety.CursorNeverPanics` | etcd/raft/raft.go:553-555 | appliedTo is in range and follows the application |
| `ServiceSafety.SnapshotNeverFails` | raftexample/raft.go:398-435 | a due snapshot is newer and in the log, and its compaction point is above the dummy entry |
| `ServiceSafety.ReplicasAgree` | raftexample/raft.go:488-507 | two state machines given an entry for one position were given the same entry |
| `ServiceProgress.LoopGoesOn` | raftexample/raft.go:488-507 | the loop never gets stuck: at every moment of every run, whatever comes next for a node, from taking a Ready to Advance, can be done |
| `ServiceSafety.ReadsCoverApplied` | etcd/raft/raft.go:1087-1105 | whatever any state machine was given before a leader took a read is at or below the index the read is answered with, which is no further than what the leader has committed |
| `HupSlice.HupExactly` | etcd/raft/raft.go:778-800 | in every run, the unapplied entries a campaigning node reads are there if and only if storage begins at or below the cursor |
| `HupSlice.CompactedAhead` | raftexample/raft.go:423-430 | they are not only between compaction and Advance, after a batch longer than the catch-up distance |
| `HupSlice.LongBatchIsAhead` | raftexample/raft.go:398-435 | a run of the service that comes to such a state |
| `Probe.ConflictByTermSkips` | etcd/raft/log.go:150-171 | the walk down passes only larger terms, and past the end of the log there is none |
| `Probe.DocumentedExactly` | etcd/raft/log.go:143-171 | the documented result is returned if and only if some entry fits, and what is returned otherwise |
| `Probe.FirstDecides` | etcd/raft/log.go:143-171 | some entry fits exactly when the first one does |
| `Probe.NotTheFirstIndex` | etcd/raft/log.go:143-171 | a compacted log for which the result lies two below the first index |
| `Probe.SkippedCannotMatch` | etcd/raft/raft.go:1144-1238 | every index skipped by both sides is absent from the follower or holds another term there |
| `Probe.FindMatchIsLargest` | etcd/raft/raft.go:1144-1248 | for any two logs, compacted or not, that reach back to a common position, probing ends at the largest index they agree on |
| `Probe.OneProbePerTerm` | etcd/raft/raft.go:1180-1186 | of two rejected probes in a row the second is at a smaller leader term, compacted logs included |
| `Probe.MatchIsKept` | etcd/raft/raft.go:1144-1248 | a rejection moves the probe down, and never below a position at which the logs agree |
| `Probe.Progress.BecomeProbe` | etcd/raft/tracker/progress.go:111-125 | Next goes back behind Match, or behind the snapshot that was sent |
| `Probe.Progress.BecomeReplicate` | etcd/raft/tracker/progress.go:127-131 | Next goes back behind Match |
| `Probe.Progress.MaybeUpdate` | etcd/raft/tracker/progress.go:140-152 | Match and Next never fall with an acknowledgement |
| `Probe.Progress.MaybeDecrTo` | etcd/raft/tracker/progress.go:169-196 | which rejections are taken for stale and change nothing, and where Next goes otherwise |
| `Probe.StaleExactly` | etcd/raft/tracker/progress.go:156-196 | a rejection of something acknowledged is ignored exactly unless it is of the position acknowledged last and that is being probed |
| `Probe.NextAboveMatchExactly` | etcd/raft/raft.go:1239-1352 | whatever the leader hears of a follower, Next stays above Match exactly unless it is a rejection overtaken by an acknowledgement |
| `Probe.DelayedRejection` | etcd/raft/raft.go:1239-1352 | a sequence of messages after which an old rejection lowers Next below Match |
| `Probe.GenuineRejection` | etcd/raft/raft.go:1239-1247 | the rejection of a follower that holds what it acknowledged moves Next to where the leader looks next, above Match |
| `Proposals.ScreenedOnce` | etcd/raft/raft.go:1043-1079 | a batch lets at most one configuration change through, and only when none can be pending |
| `Proposals.ScreenedExactly` | etcd/raft/raft.go:1043-1079 | item by item: a change stays as it is exactly if none is pending, it leaves a joint configuration exactly when there is one, and no such change comes before it; otherwise it becomes an empty entry |
| `Proposals.PendingExactly` | etcd/raft/raft.go:1043-1079 | pendingConfIndex goes to the change that was let through, and stays if there is none |
| `Proposals.StampedExactly` | etcd/raft/raft.go:638-656 | the log behind a proposal, entry by entry: position, term, kind and data |
| `Proposals.Leader.Propose` | etcd/raft/raft.go:1043-1084 | every entry that goes into the log, with position, term, kind and data; when the whole proposal is dropped; and that unapplied changes stay at or below pendingConfIndex, at most one of them the leader's |
| `Proposals.Leader.IncreaseUncommittedSize` | etcd/raft/raft.go:1778-1796 | when payload is admitted and counted |
| `Proposals.Leader.ReduceUncommittedSize` | etcd/raft/raft.go:1800-1818 | the counter falls by the payload applied, not below zero |
| `Proposals.Leader.Advance` | etcd/raft/raft.go:546-575 | applied entries stop counting; a joint configuration is left exactly when due, by an entry that cannot be refused; a Ready that applied nothing changes nothing; both bounds are kept |
| `Proposals.Leader.constructor` | etcd/raft/raft.go:738-776 | a new leader waits for its whole log before letting a change in |
| `ReadQueue.ReadRequests.Add` | etcd/raft/read_only.go:56-63 | a pending context is not queued twice; another goes to the end of the queue with the given index and no confirmation |
| `ReadQueue.ReadRequests.Ack` | etcd/raft/read_only.go:68-76 | confirmations accumulate for pending contexts only, and change nothing else |
| `ReadQueue.ReadRequests.Advance` | etcd/raft/read_only.go:81-112 | every request up to the first place of the context is released, oldest first, each with the index it was queued with, and the rest of the queue stays; none if the context is not queued; a panic exactly if one of those looked at is not pending |
| `ReadQueue.ReleasesIs` | etcd/raft/read_only.go:81-112 | the function the handlers use releases just that |
| `Majority.InsertionSort` | etcd/raft/quorum/majority.go:115-122 | the slice is sorted and holds as many elements from every bound on as before |
| `Majority.Committed` | etcd/raft/quorum/majority.go:126-174 | the sorted middle is the largest index a majority has reached, with 0 for voters that have not reported and the maximum for no voters |
| `Varint.SovIsLength` | etcd/api/mvccpb/kv.pb.go:372-374 | the size formula is the number of bytes written |
| `KvFormat.VarintRoundTrip` | etcd/api/mvccpb/kv.pb.go:306-316 | a number is read back wherever it stands |
| `WireFields.VarintExactly` | etcd/api/mvccpb/kv.pb.go:384-397 | a number is what its bytes are worth, seven bits each, modulo 2^64; when it is an overflow and when an unexpected end |
| `KvFormat.KvRoundTrip` | etcd/api/mvccpb/kv.pb.go:205-248 | every record, negative numbers and unknown fields included, is read back as it was |
| `KvFormat.KvReencode` | etcd/api/mvccpb/kv.pb.go:378-572 | what was read from any accepted bytes survives being written and read again |
| `KvFormat.SkipLocal` | etcd/api/mvccpb/kv.pb.go:715-792 | skipping a field or group depends on its own bytes only |
| `WireFields.TwosComplement` | etcd/api/mvccpb/kv.pb.go:441-459 | a word and the signed number it is read as are the same in two's complement |
| `WireFields.NumberField` | etcd/api/mvccpb/kv.pb.go:441-550 | which number field each tag byte sets, and that it sets nothing else |
| `WireFields.BytesFieldExactly` | etcd/api/mvccpb/kv.pb.go:407-440 | which byte field each tag byte sets, to just the bytes announced; when the length is invalid and when the data ends too early |
| `WireFields.WrongType` | etcd/api/mvccpb/kv.pb.go:407-410 | a known field with another wire type is an error |
| `WireFields.NoField` | etcd/api/mvccpb/kv.pb.go:398-405 | field number 0 and the end of a group that did not begin are errors |
| `WireFields.KindField` | etcd/api/mvccpb/kv.pb.go:602-620 | the kind of an event is the low 32 bits of its number |
| `WireFields.RecordField` | etcd/api/mvccpb/kv.pb.go:621-692 | which record of an event each tag byte reads, from just the bytes announced and on top of what was there |
| `WireFields.DefaultsAreNotWritten` | etcd/api/mvccpb/kv.pb.go:205-304 | a record or event of defaults is written as its unknown fields alone |
| `WireFields.SkipsField` | etcd/api/mvccpb/kv.pb.go:715-792 | any field of any wire type, with groups nested to any depth, is skipped exactly |
| `WireFields.NewerRecord` | etcd/api/mvccpb/kv.pb.go:551-566 | a record with any further fields is read, and written again as it was |
| `EventFormat.EventRoundTrip` | etcd/api/mvccpb/kv.pb.go:265-304 | every event is read back as it was |
| `EventFormat.EventReencode` | etcd/api/mvccpb/kv.pb.go:573-714 | the same for accepted bytes of events |
| `KvCodec.EncodeVarintKv` | etcd/api/mvccpb/kv.pb.go:306-316 | the number stands right before the offset and nothing else changes |
| `KvCodec.SizeKv` | etcd/api/mvccpb/kv.pb.go:317-348 | the size computed beforehand is the length of the encoding |
| `KvCodec.MarshalKvBefore` | etcd/api/mvccpb/kv.pb.go:205-248 | written backwards, the fields stand in order before the end, and nothing else changes |
| `KvCodec.MarshalKv` | etcd/api/mvccpb/kv.pb.go:189-203 | the allocated bytes are filled exactly |
| `KvCodec.SizeEvent` | etcd/api/mvccpb/kv.pb.go:349-370 | the same for events |
| `KvCodec.MarshalEvent` | etcd/api/mvccpb/kv.pb.go:250-304 | the same for events |
| `KvCodec.DecodeVarint` | etcd/api/mvccpb/kv.pb.go:384-398 | shifting seven-bit groups into a 64-bit word reads the number, its overflow and end-of-data errors included |
| `KvCodec.SkipKv` | etcd/api/mvccpb/kv.pb.go:715-792 | the loop skips one field or one whole group |
| `KvCodec.UnmarshalKv` | etcd/api/mvccpb/kv.pb.go:378-572 | the loop reads a record, merging into the given one, with every error case |
| `KvCodec.UnmarshalEvent` | etcd/api/mvccpb/kv.pb.go:573-714 | the loop reads an event and its records |
| `StripedLocks.SortedLockPoses` | memdb/dblock.go:63-81 | the slots of the keys, each once, ascending |
| `StripedLocks.SlotsUnique` | memdb/dblock.go:94-102 | unlocking computes the very slots locking did |
| `StripedLocks.MoveKeeps` | memdb/dblock.go:83-122 | announcing, entering, queueing and releasing keep readers and writers apart and queued readers behind a writer |
| `StripedLocks.DeadlockFree` | memdb/dblock.go:83-122 | while a goroutine is unfinished some goroutine can go on |
| `StripedLocks.RunIsBounded` | memdb/dblock.go:83-122 | no run is longer than the work there was at its start |
| `StripedLocks.Finishes` | memdb/dblock.go:83-122 | a run can go on no further exactly when every goroutine has finished |
| `StripedLocks.AllKeysServed` | memdb/dblock.go:63-122 | goroutines that lock any keys, however their slots collide, all get their locks and release them |
| `StripedLocks.MutualExclusion` | memdb/dblock.go:83-122 | a slot held for writing is held by one goroutine |
| `StripedLocks.HeldSlots` | memdb/dblock.go:94-122 | a goroutine holds just what it locked and has not unlocked |
| `Decimal.IntRoundTrip` | resp/structure.go:102-104 | every 64-bit number is parsed back from its digits |
| `Resp.ArrayToBytes` | resp/structure.go:164-174 | the loop prints the header and every element in order |
| `Resp.ScalarRead` | resp/parser.go:156-166 | a printed bulk string, number, text or error is parsed as itself, whatever follows |
| `RespLines.ParseIntExactly` | resp/parser.go:250-257 | a text is accepted as a number exactly if it is at least one digit after a sign or none, and within 64 bits |
| `RespLines.NumberLines` | resp/parser.go:250-257 | a line with a colon is the number its text denotes, and refused, with the array it is in, if that is none |
| `RespLines.NumberRefusedExactly` | resp/parser.go:250-257 | such a line alone is an error and then the end exactly if its text is no number of 64 bits |
| `RespLines.TextLines` | resp/parser.go:243-261 | which kind every other first byte gives, with the rest of the line as its text, plain text included |
| `RespLines.ArrayHeaders` | resp/parser.go:281-291 | an array header is refused exactly if its text is no number of 64 bits or negative; else an array of so many elements begins or is there |
| `RespLines.BulkHeaders` | resp/parser.go:293-304 | a bulk header is refused exactly if its text is no number of 64 bits or below -1; -1 is nil, and any other number announces as many bytes |
| `RespLines.BulkBodies` | resp/parser.go:209-219 | announced bytes are taken whatever they are if a line end follows, refused with what follows if not, and refused if the stream ends among them |
| `RespLines.EmptyLine` | resp/parser.go:233-238 | an empty line is refused |
| `RespLines.BrokenLine` | resp/parser.go:221-229 | a line feed without a carriage return is refused |
| `RespLines.UnfinishedLine` | resp/parser.go:221-225 | without a line feed the stream has ended |
| `Resp.StreamRoundTrip` | resp/parser.go:56-199 | any stream of printed transmissible values is parsed into just them, in order, and then the end |
| `RespExact.ParsedIsClean` | resp/parser.go:56-199 | whatever the input, no text with a line feed, no null array and no array in an array is parsed |
| `RespExact.ParsedIsPaid` | resp/parser.go:56-199 | conservation: what is parsed was, when read, at least as long as it is printed, and longer by one byte for every plain text |
| `RespExact.StreamReadExactly` | resp/parser.go:56-199 | printed values are read back if and only if all of them are transmissible |
| `RespExact.CrashExactly` | resp/parser.go:206-231 | whatever the allocation limit, the parser crashes if and only if some line of the input is a line feed alone or a bulk string too long for a buffer |
| `RespExact.LineFeedCrashes` | resp/parser.go:221-229 | a line feed alone crashes the reader |
| `RespExact.LongBulkCrashes` | resp/parser.go:209-212 | a bulk string too long for a buffer crashes the reader as soon as it is announced |
| `RespExact.HugeBulkCrashes` | resp/parser.go:209-212 | on every platform one of length 2^63 - 1 does |
| `Resp.NullArrayIsRefused` | resp/parser.go:281-291 | a printed null array is a protocol error |
| `Resp.Parser.NextLine` | resp/parser.go:206-231 | a bulk body by length, a line by its line feed, the error cases and the two crashes |
| `Resp.Parser.ArrayHeader` | resp/parser.go:281-291 | the method does what the state machine does with an array header; when it is refused is said by `RespLines.ArrayHeaders` |
| `Resp.Parser.BulkHeader` | resp/parser.go:293-304 | the method does what the state machine does with a bulk header; when it is refused is said by `RespLines.BulkHeaders` |
| `Resp.Parser.Parse` | resp/parser.go:56-199 | the loop produces the outputs of the state machine, for every input; what each line makes of it is said, byte for byte, by the rows of `RespLines` |
| `LinkedList.List.constructor` | memdb/list_struct.go:27-39 | two linked sentinels |
| `LinkedList.List.LPush` | memdb/list_struct.go:121-135 | links, sentinels and Len follow one sequence that gains a first element |
| `LinkedList.List.RPush` | memdb/list_struct.go:137-151 | the same at the end |
| `LinkedList.List.LPop` | memdb/list_struct.go:153-164 | the first element leaves, unlinked |
| `LinkedList.List.RPop` | memdb/list_struct.go:166-177 | the last element leaves, unlinked |
| `LinkedList.RefusedExactly` | memdb/list_struct.go:88-98 | the test refuses just the positions that do not exist, if and only if the index is not -2^63 |
| `LinkedList.IndexExactly` | memdb/list_struct.go:88-108 | Index finds what exists and nothing otherwise, if and only if the index is not -2^63 |
| `LinkedList.SmallestCrashes` | memdb/list_struct.go:88-98 | at -2^63 the walk leaves the list and crashes |
| `LinkedList.List.Index` | memdb/list_struct.go:88-108 | for every 64-bit index the node at that position from either end, none, or a crash |
| `LinkedList.List.Set` | memdb/list_struct.go:179-202 | one element changes, if the position exists; at -2^63 the sentinel does, and the answer is yes |
| `LinkedList.List.Range` | memdb/list_struct.go:204-232 | the elements between two positions from either end |
| `LinkedList.List.Trim` | memdb/list_struct.go:318-370 | leaves exactly what Range would have returned |
| `LinkedList.List.Clear` | memdb/list_struct.go:372-386 | leaves nothing |
| `LinkedList.RangeMeans` | memdb/list_struct.go:204-232 | a position is in the range exactly when it lies between both ends counted from the front |

## Left out

- Membership changes: the set of voters is fixed; of configuration changes only the pending-position bookkeeping is modelled.
- PreVote, CheckQuorum, leases and leader transfer: RedisGO configures none of the first three, and a transfer is one more reason to campaign.
- Flow control: a leader may send any stretch of its log at any time, and a snapshot to any node that has answered it in its term; Next, inflight windows and pauses restrict this further, which a theorem about all runs does not need.
- Forwarding of proposals and reads by followers: the request then arrives at the leader.
- RaftNode.HandleHup: a node that is no leader may always campaign; that the code waits while a snapshot or a configuration change is pending restricts this further.
- RaftNode: rejection hints are computed on the whole log; after compaction the code's hint can differ, which no proof relies on.
- Buffered: a run starts when the bootstrap entries are stored.
- ServiceSafety.ExactlyOnce: positions are assumed below 2^64 - 1, and a node that crashed starts again at its last snapshot, so a position may be applied again in its next life.
- ClusterSafety.ReadIndexLinearizable: for runs in which that leader does not accept a context again after it was answered; the source asks for unique contexts.
- Liveness of Raft, timers, and delivery of messages.
- The write-ahead log, snapshot files, HTTP transport, JSON proposals: storing succeeds and keeps what was stored.
- Limits.LimitSize: sizes are unbounded integers, and absent data is the same as empty data.
- Publishing.Applier.PublishEntries: decoding of proposals and the shutdown of a removed node are not modelled.
- Proposals.Leader.IncreaseUncommittedSize: sizes are unbounded integers.
- Proposals.Leader.Propose: what a configuration change decodes to is a parameter, and a change that does not decode is not modelled.
- KvFormat.KvRoundTrip: messages and data shorter than 2^63 bytes.
- StripedLocks.SortedLockPoses: the hash of a key is a parameter.
- StripedLocks.DeadlockFree: each goroutine runs one lock and the matching unlock; single-key locks are the case of one key.
- Resp.Parser.Parse: a process that runs out of memory below the allocation limit, and cancellation of the context, are not modelled.
- LinkedList.IndexExactly: for lists of fewer than 2^63 - 2 elements; a longer one does not fit into the address space.
- LinkedList.List: subscriptions, and InsertBefore, InsertAfter and RemoveElement, which do not update Len.
- `memdb/btree.go`, `memdb/stream_struct.go`, `util.PattenMatch`, the command handlers, expiry, publish/subscribe, the concurrent map, configuration, logging and the server loops.
