# Verified model of the uptime monitor's core

A Dafny model, with proofs, of the three parts of the uptime monitor that carry its guarantees:

1. **The Raft engine** (`internal/raft`). One node is the value `RaftNode.Node`, and every
   mutex-guarded block of the engine is a step on it; `RaftObject.Raft` is the same node as a mutable
   object that keeps the original's loops, each method proved to take exactly that step. `Cluster`
   puts any number of nodes on a network that loses, duplicates, delays and reorders messages, and
   lets nodes crash and restart between the handlers and in the middle of them. `Consensus` and
   `ConsensusSteps` hold the account the proofs rest on: every vote, every reign with its log, every
   acknowledgement, and everything ever committed. `Safety` states the safety results over whole
   runs and `Redelivery` those about stale and repeated appends. What must happen is stated too:
   `Backtracking` and `CatchUp` show that replication brings any quiet peer up to date, snapshot
   included; `Obligations` says exactly when votes are granted, entries committed and logs compacted;
   and `Continuations` and `Availability` show that no reachable state is a dead end, because any
   majority can always go on to elect a leader and to commit and apply its whole log.
2. **The crash-safe log** (`internal/raftlog`). `Codec` has the byte formats with their round trips,
   `Layout` files made of pieces laid end to end, `RaftLog.Log` the log object over its two files, and
   `RaftLogCrash` what reopening gives after a crash at any byte of an append or between the renames of
   a compaction. `LogView.View` is the plain compacted log that the object implements and that the
   Raft model uses.
3. **The consensus and flap-suppression engine** (`internal/evaluate`) and its driver
   (`cmd/evaluator`). `Evaluate.Monitor` and `Evaluator.Evaluator` are the objects; `EvaluateRuns` and
   `EvaluatorRuns` state what holds over every history of observations, evaluations and restarts.

`dafny verify dfyconfig.toml` checks everything.

## How the Raft proof works

A history records full logs, so a snapshot is only a view on a log: a node's `View` shows its log from
the boundary on, and the snapshot is the image of the state machine after exactly that prefix. An
accepted append and an installed snapshot are the same abstract move, "merge with a prefix of the
leader's log". The central invariant says of every entry a leader appended in its own term: every
later leader holds it together with everything below it, or a majority has already left that term
without acknowledging it, so that it can never be committed. Casting a vote keeps this because of the
up-to-date rule (`ConsensusSteps.UpToDateHolds`), winning an election because of the majority
(`ConsensusSteps.LeadKeepsInv`), and committing is possible only for the leader's own entries on a
majority, which are therefore never in the second case.

What the model demands of its environment, as the code does: node ids are at least 1, peer lists are
distinct, symmetric and leave out the node itself, storage calls succeed, and loading a saved state
machine gives it back.

## Findings

- Installing a snapshot over a log that holds an entry of another term at the snapshot's index, with
  more entries after it, is not crash-atomic: between the two renames, recovery keeps the entries
  after the index, because the terms of skipped records are not compared. `RaftLogCrash.InstallIsAtomicIff`
  gives the exact condition and `RaftLogCrash.InterruptedInstallBreaksTermOrder` a log whose terms then
  decrease. The cluster model has no crash in that window in that one case; every other crash there
  is a crash before or after the installation.
- A cluster of one node never has a leader (`Availability.LoneNodeNeverLeads`), because an election is
  decided only when a peer replies; from two nodes on, any majority can always elect one
  (`Availability.NeverStuck`).
- A snapshot reply says nothing about success. It does no harm because a snapshot never reaches above
  its leader's commit index (`ClusterReplication.SnapReplyNode`).
- Incidents mirror the engines exactly as long as no result arrives for a monitor that the process does
  not know but that has an incident open (`EvaluatorRuns.MirrorsIffClean`). A monitor disabled during an
  outage and an evaluator restart lead there: the next result opens a second incident
  (`EvaluatorRuns.DisabledWhileDown`).
- An entry is read back exactly when header and data fit the record's 32-bit length field
  (`Codec.RecordRoundTrip`); the code does not check this when appending.

## Model

| member | source | states |
|---|---|---|
| `Safety.OneCommittedSequence` | internal/raft/raft.go:340-382 | In every run there is one sequence such that every node, in every state, has snapshot <= applied <= commit <= last index, holds that sequence up to its commit index (as entries or under its snapshot), and runs a state machine equal to the fold of its applied prefix, however it got there; nothing a node has committed is ever lost, and whatever a leader commits every later leader holds |
| `Safety.EqualProgressEqualMachines` | internal/raft/raft.go:784-819 | Any two nodes at any two moments with the same applied index have equal state machines, whether by applying or by restoring |
| `Safety.ElectionSafety` | internal/raft/raft.go:447-501 | No two nodes ever lead the same term in a run, restarts included |
| `Safety.LogMatchingOverRuns` | internal/raft/raft.go:728-767 | Logs of any two nodes at any two moments with the same term at an index are the same up to it |
| `Safety.TermsNeverDecrease` | internal/raft/raft.go:649-663 | Terms never decrease along any log of any state of a run, which the downward search relies on |
| `Safety.ApplyNeverSkips` | internal/raft/raft.go:344-360 | In every reachable state with something to apply, the next entry is in the log and one turn of the loop applies exactly it |
| `Safety.ProgressNeverFalls` | internal/raft/raft.go:769-776 | Between restarts, commit and applied index never fall in any step of a run; the applied index moves by one or jumps above everything committed |
| `Safety.AcknowledgementsSound` | internal/raft/raft.go:556-574 | In every reachable state, a peer in its leader's term holds the leader's entries up to any index above the leader's commit index and at most its match index for the peer |
| `Safety.EveryRunAccounted` | internal/raft/raft.go:174-201 | Every run, restarts included, has a history of votes, reigns and acknowledgements that satisfies the invariant in every state and only ever extends |
| `Availability.NeverStuck` | internal/raft/raft.go:447-819 | From any state of any run of at least two nodes, for any majority of them, the run can go on with steps of that majority alone to a state where one of it leads and all of it has committed and applied the leader's whole log, with equal state machines |
| `Availability.LoneNodeNeverLeads` | internal/raft/raft.go:472-499 | In no run of a one-node cluster does the node ever lead |
| `Availability.Elect` | internal/raft/raft.go:447-501 | A node whose log is at least as up to date as those of others that are, with it, more than half of the cluster can win their votes, from any state of any run |
| `Availability.BringAlong` | internal/raft/raft.go:709-717 | A leader with no newer term among its peers brings them all into its term by round trips |
| `Availability.Demote` | internal/raft/raft.go:561-565 | A peer in a newer term makes a leader step down by one round trip, its log unchanged |
| `Continuations.MajorityCommits` | internal/raft/raft.go:566-574 | From any state of any run, a leader and quiet peers in its term that are together more than half of the cluster come, by round trips alone, to hold the leader's whole log and to have committed all of it |
| `Continuations.MajorityCommitted` | internal/raft/raft.go:620-647 | In any run, a leader that knows a majority to hold its whole log has committed exactly up to its last index |
| `CatchUp.CommitSpreads` | internal/raft/raft.go:541-548 | One more round trip with a peer that has caught up makes its commit index at least the leader's and leaves its log alone |
| `Obligations.LeadersCommitAll` | internal/raft/raft.go:566-574 | In every state of every run, a leader has committed every index with an entry of its own term that it and the peers whose match index reaches it, as a set more than half of the cluster, hold |
| `Obligations.SuccessRaisesMatch` | internal/raft/raft.go:566-572 | In every run, a current success raises the match index to all the append carried, sets the next index right above it, and leaves nothing on a majority uncommitted |
| `Obligations.MatchNeverFalls` | internal/raft/raft.go:568-571 | In every run, no step lowers a match index of a leader that leads on |
| `Obligations.AppendsCommit` | internal/raft/raft.go:769-776 | In every run, an accepted append takes the follower's commit index to the leader's or to the last entry carried, whichever is less, unless it is there already; otherwise it stays |
| `Obligations.VoteGrantedIff` | internal/raft/raft.go:676-698 | A vote is granted if and only if the term is not behind, no other vote of the node is on record in it, and the candidate is at least as up to date as the node's whole log; the reply has the larger term |
| `Obligations.VotesOverRuns` | internal/raft/raft.go:682-697 | The same in every state of every run, for the account of all votes ever given |
| `Obligations.LeadsIffMajority` | internal/raft/raft.go:470-498 | After any replies, repeated and in any order, none of a newer term, a candidate leads if and only if it and the peers whose first reply grants are more than half of the cluster |
| `Obligations.FirstAppend` | internal/raft/raft.go:412-426 | A new leader's first append to every peer carries exactly its no-op on top of all it held before |
| `Obligations.NewerTermAdopted` | internal/raft/raft.go:399-410 | Whatever message of a newer term a node takes up, it is then a follower in that term without a vote, unless it just granted one |
| `Obligations.LeaderFollowed` | internal/raft/raft.go:712-719 | A node that a leader of its own or a newer term writes to follows that leader in that term |
| `Obligations.CompactionKeepsUp` | internal/raft/raft.go:365-382 | In every state of every run, a node with a threshold has applied fewer entries since its snapshot than the threshold |
| `Obligations.ApplyCompactsIffDue` | internal/raft/raft.go:368-382 | In every run, an apply step moves the boundary if and only if a threshold is set and the distance from the boundary to the newly applied entry reaches it, and then to that entry |
| `Obligations.StepKept` | internal/raft/raft.go:340-583 | Every step of the cluster keeps, for every node: compaction within the threshold, votes awaited only from peers, and nothing on a majority left uncommitted by a leader |
| `CatchUp.PeersCatchUp` | internal/raft/raft.go:518-618 | From any state of any run, a leader and a quiet peer in its term reach, within 2 * last index + 4 round trips, a state where the peer holds the leader's whole log and the leader knows it and probes at its end |
| `CatchUp.CatchesUp` | internal/raft/raft.go:521-583 | The same from any pair, bounded by the probed index plus the log's length |
| `CatchUp.HintStaysAbove` | internal/raft/raft.go:575-582 | Against a peer that has committed the leader's snapshot, no hint sends the leader back under its snapshot |
| `CatchUp.SnapshotLeadsTo` | internal/raft/raft.go:589-618 | After a snapshot round trip the peer covers the snapshot and the leader probes above it |
| `Backtracking.HintLowers` | internal/raft/raft.go:728-746 | A rejected probe at or above the peer's snapshot strictly lowers the next index |
| `Backtracking.HintBounces` | internal/raft/raft.go:722-726 | A rejected probe below the peer's snapshot bounces to just above it, and that probe is accepted |
| `Backtracking.ConflictTermBelow` | internal/raft/raft.go:735-746 | Log matching excludes the hint that would move forward |
| `Backtracking.AcceptedCatchesUp` | internal/raft/raft.go:566-574 | After an accepted append the peer holds the leader's log to its end, and the match index says so |
| `Redelivery.HandledTwiceIsOnce` | internal/raft/raft.go:748-767 | For every node and every request that numbers its entries, handling an append again changes neither state nor reply |
| `Redelivery.RedeliveryChangesNothing` | internal/raft/raft.go:703-778 | In every run, delivering an append twice in a row is delivering it once |
| `Redelivery.StaleAppendsHarmless` | internal/raft/raft.go:748-767 | In every run, an append reaching no further than one the peer has acknowledged in the same term leaves its log as it is |
| `ClusterRecovery.NextKeepsInv` | internal/raft/raft.go:447-819 | Every step of the cluster, of any kind, keeps the invariant and loses nothing settled |
| `ClusterRecovery.InitInv` | internal/raft/raft.go:184-200 | A freshly started cluster satisfies the invariant |
| `ClusterRecovery.RestartedNode` | internal/raft/raft.go:225-238 | A restart from disk keeps the node's invariant, with progress back at the snapshot |
| `ClusterRecovery.AppliedProgress` | internal/raft/raft.go:340-382 | Applying one entry, and compacting after it, keeps the state machine the fold of the applied prefix and the snapshot its image |
| `ClusterRecovery.CutIsDrop` | internal/raft/raft.go:751-760 | An append interrupted after its cut leaves the log unchanged or cut exactly where it first differs from the leader's |
| `ClusterRecovery.TornNode` | internal/raft/raft.go:761-766 | An append interrupted after any number of entries leaves the node in order |
| `ClusterReplication.AppendIsMerge` | internal/raft/raft.go:748-767 | The append loop gives the old log if it already extends the leader's prefix, otherwise the leader's prefix |
| `ClusterReplication.InstallIsMerge` | internal/raftlog/log.go:330-350 | Installing a snapshot is the same merge with the leader's prefix up to the snapshot |
| `ClusterReplication.CheckedPrefix` | internal/raft/raft.go:722-746 | Passing the consistency check means agreeing with the leader's log up to the probed index |
| `ClusterReplication.CommittedSurvives` | internal/raft/raft.go:748-767 | Accepting from a current leader never cuts at or below the commit index |
| `ClusterReplication.FollowerSettled` | internal/raft/raft.go:769-776 | The commit index a follower moves to is settled in its new log |
| `ClusterReplication.HintInRange` | internal/raft/raft.go:722-746 | The index in a rejection points into the leader's log or just past it |
| `ClusterReplication.MatchCountIsSet` | internal/raft/raft.go:633-638 | Counting match indices over distinct peers counts a set of members |
| `ClusterReplication.CommittableIsChosen` | internal/raft/raft.go:620-647 | What the commit scan accepts is an entry of the leader's own term acknowledged by a majority |
| `ClusterReplication.AppendReplyNode` | internal/raft/raft.go:556-583 | Handling any append reply, stale or not, keeps the leader in order |
| `ClusterReplication.SnapReplyNode` | internal/raft/raft.go:603-618 | Handling any snapshot reply keeps the leader in order, because the snapshot is at most its commit index |
| `ClusterReplication.SnapRequestNode` | internal/raft/raft.go:784-819 | Handling any snapshot request keeps the follower in order |
| `ClusterElection.VoteRequestNode` | internal/raft/raft.go:676-698 | Handling any vote request keeps the node in order, and a granted vote is on record for its term |
| `ClusterElection.WonMajority` | internal/raft/raft.go:488-498 | A counted majority is a majority of recorded votes |
| `ClusterElection.VoteReplyNode` | internal/raft/raft.go:478-498 | Handling any vote reply, duplicates included, keeps the candidate in order and lets it lead only on a majority |
| `Consensus.LeaderCompleteness` | internal/raft/raft.go:620-624 | What is chosen in a term is in the log of every later reign |
| `Consensus.ChosenComparable` | internal/raft/raft.go:620-647 | Any two chosen prefixes are prefixes of one another |
| `Consensus.LogMatching` | internal/raft/raft.go:728-746 | Same index and term means the same entries up to there |
| `ConsensusSteps.UpToDateHolds` | internal/raft/raft.go:688-691 | A candidate at least as up to date as a voter holds what the voter holds of any reign, or that can no longer be chosen |
| `ConsensusSteps.CastVoteKeepsInv` | internal/raft/raft.go:691-696 | Granting a vote keeps the invariant |
| `ConsensusSteps.LeadKeepsInv` | internal/raft/raft.go:412-428 | Taking over on a majority and appending the no-op keeps the invariant |
| `ConsensusSteps.AppendOwnKeepsInv` | internal/raft/raft.go:274-290 | A leader appending in its own term keeps the invariant |
| `ConsensusSteps.AcceptKeepsInv` | internal/raft/raft.go:748-767 | Merging with the leader's prefix and acknowledging it keeps the invariant |
| `ConsensusSteps.DropKeepsInv` | internal/raft/raft.go:757-759 | Cutting a log where it differs from the leader's keeps the invariant |
| `ConsensusSteps.CommitKeepsInv` | internal/raft/raft.go:639-642 | Committing a chosen entry keeps the invariant and settles it |
| `ConsensusSteps.StandKeepsInv` | internal/raft/raft.go:453-459 | Standing for election keeps the invariant |
| `ConsensusSteps.BumpKeepsInv` | internal/raft/raft.go:399-410 | Moving to a newer term keeps the invariant |
| `RaftNode.LargestIsLargest` | internal/raft/raft.go:625-647 | The scan's answer qualifies unless it is the old commit index, and nothing above it qualifies |
| `RaftNode.SetAllSets` | internal/raft/raft.go:417-421 | After the reset every peer has the new value and no other key changes |
| `LogView.FirstIndexWithTerm` | internal/raft/raft.go:665-672 | The lowest index with the term, or 1 |
| `CatchUp.FirstMatches` | internal/raft/raft.go:665-672 | If any index up to some point has the term, so has the answer, and it is no higher |
| `LogView.LastIndexWithTerm` | internal/raft/raft.go:649-657 | An answer other than 0 is an index of the term with no higher one |
| `LogView.LastIndexMissesNothing` | internal/raft/raft.go:658-662 | In a log whose terms are in order, stopping at a smaller term never misses an index of the term |
| `RaftObject.Raft.constructor` | internal/raft/raft.go:184-238 | A new object on disk contents is a restarted node |
| `RaftObject.Raft.StepDown` | internal/raft/raft.go:399-410 | Takes exactly the step of becoming a follower, saving a newer term without a vote |
| `RaftObject.Raft.TakeOver` | internal/raft/raft.go:412-428 | Takes exactly the step of becoming leader, progress of every peer reset, no-op appended |
| `RaftObject.Raft.StandForElection` | internal/raft/raft.go:447-464 | Takes exactly the election step and returns the request to send; a leader does nothing |
| `RaftObject.Raft.OnVote` | internal/raft/raft.go:478-498 | Takes exactly the vote-reply step |
| `RaftObject.Raft.OnRequestVote` | internal/raft/raft.go:676-698 | Takes exactly the vote-request step, whose answer `Obligations.VoteGrantedIff` characterises |
| `RaftObject.Raft.Submit` | internal/raft/raft.go:274-290 | A leader appends the command at the returned index and term; any other node changes nothing |
| `RaftObject.Raft.CountMatches` | internal/raft/raft.go:633-638 | The count of peers at or above an index, and the leader itself |
| `RaftObject.Raft.MaybeAdvanceCommit` | internal/raft/raft.go:625-647 | The commit index becomes the largest qualifying index above it, or stays if there is none |
| `RaftObject.Raft.Raise` | internal/raft/raft.go:566-574 | Takes exactly the acknowledgement step: the match index raised, the next index above it, and everything then on a majority committed, as `Obligations.SuccessRaisesMatch` states |
| `RaftObject.Raft.LastWithTerm` | internal/raft/raft.go:649-663 | The downward search finds what the specification finds |
| `RaftObject.Raft.FirstWithTerm` | internal/raft/raft.go:665-672 | The upward search finds what the specification finds |
| `RaftObject.Raft.OnAppended` | internal/raft/raft.go:556-583 | Takes exactly the append-reply step |
| `RaftObject.Raft.OnInstalled` | internal/raft/raft.go:603-618 | Takes exactly the snapshot-reply step |
| `RaftObject.Raft.AppendNew` | internal/raft/raft.go:748-767 | The nested loops compute the specified append |
| `RaftObject.Raft.OnAppendEntries` | internal/raft/raft.go:703-778 | Takes exactly the append step, state and reply with its hint; what it commits is stated by `Obligations.AppendsCommit` |
| `RaftObject.Raft.OnInstallSnapshot` | internal/raft/raft.go:784-819 | Takes exactly the snapshot step |
| `RaftObject.Raft.Compact` | internal/raft/raft.go:368-382 | Takes exactly the compaction step, 64-bit difference included; when it is due is stated by `Obligations.ApplyCompactsIffDue` |
| `RaftObject.Raft.ApplyOne` | internal/raft/raft.go:343-361 | Takes exactly one turn of the apply loop |
| `Codec.EntryRoundTrip` | internal/raftlog/entry.go:42-70 | An encoded entry decodes to itself exactly when its data length fits 32 bits |
| `Codec.DecodedIsEncoded` | internal/raftlog/entry.go:53-70 | Whatever decodes is the encoding of the result |
| `Codec.EncodedParts` | internal/raftlog/entry.go:41-48 | Where index, term, type, length and data lie in an encoded entry |
| `Codec.BeDigit` | internal/raftlog/entry.go:43-46 | Each byte of a number is its base-256 digit, most significant first |
| `Codec.EncodeInto` | internal/raftlog/entry.go:42-48 | Fills the caller's buffer with the encoding and touches nothing beyond it |
| `Codec.PutBe` | internal/raftlog/entry.go:43-46 | Writes a big-endian number in place and nothing else |
| `Codec.RecordParts` | internal/raftlog/log.go:207-212 | Where length, checksum and payload lie in a record |
| `Codec.RecordReadsBack` | internal/raftlog/log.go:88-124 | A record placed anywhere in a file is read back whole |
| `Codec.RecordRoundTrip` | internal/raftlog/log.go:206-224 | A record reads back its entry exactly when header and data fit 32 bits |
| `Codec.TornRecordUnread` | internal/raftlog/log.go:88-100 | No strict prefix of a record is read as a record, whatever the checksum |
| `Codec.ReadIsRecord` | internal/raftlog/log.go:92-111 | Whatever is read as a record is byte for byte the record of the entry read |
| `Codec.WriteSnapshot` | internal/raftlog/snapshot.go:24-34 | Fills the snapshot buffer, checksum over index, term and data |
| `Codec.SnapshotParts` | internal/raftlog/snapshot.go:16-34 | Where the fields of a snapshot file lie, and what its checksum covers |
| `Codec.ReadSnapshotIsWritten` | internal/raftlog/snapshot.go:67-85 | Whatever is read as a snapshot file is byte for byte the file of the result |
| `Codec.SnapshotRoundTrip` | internal/raftlog/snapshot.go:59-86 | A snapshot file reads back exactly when its data length fits 32 bits |
| `Codec.WriteHardState` | internal/raftlog/state.go:27-31 | Fills the hard-state buffer |
| `Codec.HardStateParts` | internal/raftlog/state.go:21-31 | Where the fields of a hard-state file lie, and what its checksum covers |
| `Codec.LoadedHardStateIsSaved` | internal/raftlog/state.go:67-76 | Whatever is loaded as hard state is byte for byte the file of the result |
| `Codec.HardStateRoundTrip` | internal/raftlog/state.go:59-77 | The term and vote saved are the ones loaded |
| `RaftLog.Scan` | internal/raftlog/log.go:84-124 | The recovery loop keeps exactly what the replay specification keeps, contiguous, with the file laid out as its records up to the offset reached |
| `RaftLog.Log.Open` | internal/raftlog/log.go:48-71 | On any two files, an error exactly for a damaged snapshot, otherwise a valid log that is the specified replay |
| `RaftLog.Log.Recover` | internal/raftlog/log.go:77-139 | Makes the object valid from whatever the file holds and cuts it where the replay ends |
| `RaftLog.Log.Rewrite` | internal/raftlog/log.go:355-403 | The file becomes exactly the records kept, offsets and end recomputed |
| `RaftLog.Log.LastIndex` | internal/raftlog/log.go:149-154 | Agrees with the plain log |
| `RaftLog.Log.At` | internal/raftlog/log.go:263-270 | Agrees with the plain log, missing indices included |
| `RaftLog.Log.TermAt` | internal/raftlog/log.go:275-285 | Agrees with the plain log, boundary and missing indices included |
| `RaftLog.Log.From` | internal/raftlog/log.go:288-305 | Agrees with the plain log and is contiguous |
| `RaftLog.Log.AppendRecord` | internal/raftlog/log.go:206-224 | Appends one record to file and index, keeping the representation invariant |
| `RaftLog.Log.Append` | internal/raftlog/log.go:185-193 | Appends the next entry to the plain log |
| `RaftLog.Log.AppendEntry` | internal/raftlog/log.go:197-204 | Appends a contiguous entry and refuses any other without a change |
| `RaftLog.Log.TruncateSuffix` | internal/raftlog/log.go:228-259 | Cuts the plain log, file and offsets at the same place |
| `RaftLog.Log.Snapshot` | internal/raftlog/log.go:312-328 | Compacts the plain log; refuses an index beyond it |
| `RaftLog.Log.InstallSnapshot` | internal/raftlog/log.go:333-350 | Reseeds the plain log, keeping a suffix only behind a matching entry |
| `RaftLogCrash.ReopenIsIdentity` | internal/raftlog/log.go:77-139 | Replaying any encoded contiguous log returns that log |
| `RaftLogCrash.TornAppendRecovers` | internal/raftlog/log.go:206-224 | For every log and every byte at which an append is cut, reopening gives the log before it, or with the entry if the record was complete, and the valid part ends exactly there |
| `RaftLogCrash.InterruptedRewrite` | internal/raftlog/log.go:112-137 | With a new snapshot over an old log file, reopening gives exactly the entries above the snapshot |
| `RaftLogCrash.SnapshotIsAtomic` | internal/raftlog/log.go:312-328 | Compaction interrupted anywhere reopens as the old or the compacted log |
| `RaftLogCrash.InstallIsAtomicIff` | internal/raftlog/log.go:333-350 | Interrupted installation reopens as the installed log if and only if the log does not hold another term at the index with entries after it |
| `RaftLogCrash.InterruptedInstallBreaksTermOrder` | internal/raftlog/log.go:342-349 | A concrete log that an interrupted installation reopens with decreasing terms |
| `RaftLogCrash.CutTailIsHarmless` | internal/raftlog/log.go:125-137 | Recovery interrupted after cutting the tail reopens as the same log, for any two files |
| `RaftLogCrash.OpenTwice` | internal/raftlog/log.go:48-139 | Opening any two files twice gives the same log and the same file as once |
| `Evaluate.Monitor.Consensus` | internal/evaluate/evaluate.go:93-108 | The counting loop answers exactly when some sample is at most the freshness window old, and says down exactly when more than half of the samples that young are down |
| `Evaluate.VerdictMeans` | internal/evaluate/evaluate.go:93-108 | The verdict used by all results over histories, stated over the samples' ages and states alone |
| `Evaluate.LoneVoter` | internal/evaluate/evaluate.go:96-98 | Among older samples one region decides alone exactly while its sample is at most the freshness window old, that age included |
| `Evaluate.Monitor.Evaluate` | internal/evaluate/evaluate.go:114-139 | Takes exactly the specified evaluation, state and event |
| `Evaluate.Monitor.Observe` | internal/evaluate/evaluate.go:82-84 | Replaces the region's sample and nothing else |
| `EvaluateRuns.EventIsTransition` | internal/evaluate/evaluate.go:38-47 | In every history the event of an operation is the version-1 transition between the committed states around it |
| `EvaluateRuns.FlapsSuppressed` | internal/evaluate/evaluate.go:114-139 | Every event has an earlier or same evaluation at least the stability window before it since which fresh regions disagreed with the committed state, no evaluation found agreement and no event happened |
| `EvaluateRuns.CommitsIffSustained` | internal/evaluate/evaluate.go:123-137 | With evaluation times that do not go back, an event is committed if and only if there is such a disagreement |
| `EvaluateRuns.SustainedCommitsOnce` | internal/evaluate/evaluate.go:110-139 | An unbroken disagreement lasting the window commits exactly one event |
| `EvaluateRuns.MinorityNeverPages` | internal/evaluate/evaluate.go:89-108 | A monitor that starts up with never more than half of its fresh regions down never has an event |
| `EvaluateRuns.StaleSamplesIrrelevant` | internal/evaluate/evaluate.go:57-59 | Deleting any samples older than the freshness window at any point changes no event at that time or later |
| `Evaluator.Evaluator.constructor` | cmd/evaluator/main.go:90-106 | A new process has an entry for every enabled monitor, seeded up exactly if it has no open incident |
| `Evaluator.Evaluator.Commit` | cmd/evaluator/main.go:244-268 | Down opens one incident with the latest cause, recovered closes all, one alert each; other monitors are untouched |
| `Evaluator.Evaluator.CheckSlow` | cmd/evaluator/main.go:198-214 | Takes exactly the specified slow check |
| `Evaluator.Evaluator.HandleResultFor` | cmd/evaluator/main.go:169-189 | Takes exactly the specified step on its own monitor and changes no other |
| `Evaluator.Evaluator.Tick` | cmd/evaluator/main.go:143-147 | Evaluates every monitor once, whatever the order |
| `Evaluator.Evaluator.HasOpenIncident` | internal/store/store.go:344-350 | True exactly if an incident is open |
| `Evaluator.Evaluator.OpenIncident` | internal/store/store.go:353-360 | Adds one open incident |
| `Evaluator.Evaluator.ResolveIncident` | internal/store/store.go:498-512 | Leaves the monitor no open incident |
| `EvaluatorRuns.MirrorsIffClean` | cmd/evaluator/main.go:152-189 | In every history, restarts included, there is one open incident while the engine is down and none while it is up, throughout, if and only if no result meets an unknown monitor with an incident open |
| `EvaluatorRuns.DisabledWhileDown` | cmd/evaluator/main.go:172-176 | A history in which that fails and two incidents are open |
| `EvaluatorRuns.AlertsAlternate` | cmd/evaluator/main.go:90-106 | In every such history down and recovered alerts strictly alternate, across restarts, and at most one incident is open |
| `EvaluatorRuns.SlowAlertsCountRuns` | cmd/evaluator/main.go:191-214 | The slow alerts of any history number exactly the maximal runs of three or more consecutive results that are up and over a threshold that is set |
| `EvaluatorRuns.SlowAlertsSay` | cmd/evaluator/main.go:198-213 | A result raises a slow alert exactly as the third of its run, with its own latency and threshold and the count three |
| `EvaluatorRuns.IncidentsHaveCauses` | cmd/evaluator/main.go:180-182 | In every history no incident is opened and no down alert raised without a cause |
| `EvaluatorRuns.IncidentsNameLatest` | cmd/evaluator/main.go:177-188 | In every history an opened incident and its alert have the cause of the latest down result its process has handled, its error or else its status, and name the region of the latest result |
| `EvaluatorRuns.RecoveriesNameLatest` | cmd/evaluator/main.go:255-267 | A recovered alert names the region of the latest result |
| `EvaluatorRuns.EntriesRemember` | cmd/evaluator/main.go:177-182 | In every history an entry shows the address, region and latency of the latest result and the cause of the latest down one |
| `EvaluatorRuns.PagesAreSustained` | cmd/evaluator/main.go:135-189 | In every history a down or recovered alert ends a disagreement sustained for the stability window within the same process |

## Left out

- Timing: election and heartbeat steps may happen at any time. That a majority can always elect a leader and make progress is proved; that timers and the network let it happen, and how soon, is not claimed.
- I/O failures: storage calls are taken to succeed; the handlers print storage errors and still report success.
- `Stop` and `closed`: a stopped node is one that takes no more steps.
- A crash between the two renames of `InstallSnapshot` over a diverging log with more entries: characterised for the log, not a step of the cluster.
- The checksum: any function to 32-bit numbers; detecting arbitrary damage is not claimed.
- 64-bit wrap-around of terms and indices in the Raft engine, except for the difference in the compaction threshold.
- Missing apply, save or load callbacks: the state machine is always there.
- Temporary files, `fsync` and directory syncs: a rename replaces a file at once or not at all.
- RaftLog.Log.Append: for entries whose header and data fit 32 bits, because a longer record is not readable, as `Codec.RecordRoundTrip` shows.
- RaftLog.Log.AppendRecord: the same bound.
- RaftLog.Log.AppendEntry: the same bound.
- RaftLog.Log.Snapshot: for data whose length fits 32 bits, because `Codec.SnapshotRoundTrip` shows a longer file is refused.
- RaftLog.Log.InstallSnapshot: the same bound.
- Saturation of time differences: times and durations are unbounded integers.
- EvaluatorRuns.SlowAlertsCountRuns: a restart ends a spell of slow results, as the process forgets its streak.
- Delivery of alerts: muting, recipients, the notifiers and certificate warnings; an alert here is one raised.
- The store beyond the open, resolve and has-open operations on incidents, and storing raw checks.
- The scheduler, checker, migration and web commands, configuration, metrics and formatting: plumbing that would add only easy members.
