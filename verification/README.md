# Raft follower role of the jsimpledb key/value store

This project models the follower side of the Raft consensus engine behind
jsimpledb's replicated key/value database (`FollowerRole`). A follower:

- accepts log entries from the leader (`caseAppendRequest`): it checks the
  leader's previous entry, clears away a conflicting suffix, appends one entry and
  adopts the leader's commit index;
- votes in elections (`caseRequestVote`), with one vote per term and the
  term-first, index-second comparison of logs; while the leader is still heard
  from, it does not let a vote request advance its term (leader stickiness);
- receives a chunked snapshot (`caseInstallSnapshot`);
- forwards local COMMIT_READY transactions to the leader as commit requests
  (`checkReadyLinearizableTransaction`); when it is unconfigured, it founds a new
  single-node cluster instead;
- matches the leader's answers to those requests (`caseCommitResponse`);
- holds read-only linearizable transactions until the leader's lease covers them
  (`mayCommit`);
- on an election timeout, probes the other nodes and becomes a candidate only once a
  majority answered (`handleElectionTimeout`, `casePingResponse`);
- keeps three tracking tables, and clears them when leaving the role
  (`cleanupForTransaction`, `shutdown`):
  - pending commit requests;
  - pending writes held in temporary files;
  - lease waits.

Layout:

- `types.dfy` (module `Types`): transactions, log entries, the snapshot-receive
  context and the messages.
- `raft_log.dfy` (`RaftLog`): the log, positioned after the snapshot watermark
  (`lastAppliedIndex`, `lastAppliedTerm`). It includes:
  - the configuration the log builds;
  - the consistency check and conflict resolution, as functions with lemmas.
- `follower_logic.dfy` (`FollowerLogic`): the pure decisions. These are the
  commit-index formula, the vote comparison, the lease gate and majority counting.
- `raft_node.dfy` (`RaftNode.Node`): the node state the follower reads and updates.
  That is the term, cluster id, log, commit index, configuration, open transactions
  and the flip-flopped staging area.
- `follower.dfy` (`Follower.FollowerRole`): the role itself, as a class. Each
  handler is a method, proved against the functions above. All handlers preserve
  `Valid()`, which includes:
  - `Tracked()`: the assertions of the source's `checkState` and `checkTransaction`
    about the tracking tables: a commit request is outstanding only for a COMMIT_READY
    transaction, and (by `Node.Valid`) such a transaction has commit term and commit
    index 0; a pending write belongs to a COMMIT_READY or COMMIT_WAITING transaction;
    a lease wait belongs to a COMMIT_WAITING one;
  - `Rebased()`: every transaction the role would rebase sits on the last log entry.
- `scenarios.dfy` (`Scenarios`): concrete runs whose outcomes follow from the handler contracts.

Every handler runs under the node's lock in the source, so each method is one atomic
step. Failures of the environment are boolean parameters:

- persisting the cluster id, the term, a vote or a log entry;
- closing or writing a temporary file;
- sending a message;
- applying a snapshot chunk.

Clock readings are integer parameters. Role changes are returned as values, not
performed. The random cluster id is any non-zero integer.

Two handlers apply their updates in a different order from the source; the final
state is the same:

- A commit response that reports failure: the transaction is failed, which also
  removes it from the pending requests.
- The last chunk of a snapshot install: the transactions to fail are failed before
  the state machine is flipped. Which transactions are selected does not depend on
  the log.

`RaftKVDatabase`, `Role`, `NonLeaderRole` and `SnapshotReceive` are not part of
this model. Their behaviour as the follower relies on it is modelled as follows:

- `shouldRebase` of the base role: the transaction is rebasable and is EXECUTING or
  COMMIT_READY (`Rebasable`).
- `rebaseTransactions`: moves the base of each transaction the role would rebase to
  the last log entry.
- `fail` and `succeed`: complete the transaction, with or without an error, and clean
  it up.
- `advanceReadyTransaction`: sets COMMIT_WAITING and the commit position.
- `SnapshotReceive.matches`: compares the snapshot term, the snapshot index and the
  next chunk number.
- `applyNextChunk`: moves on to the next chunk.
- `flipFlopStateMachine`: makes the snapshot the watermark, empties the log, and sets
  the commit index and the configuration.
- `isConfigured`: the node has a snapshot or a log entry.
- `getLogTermAtIndex`: the term of the entry at an index above the watermark, and
  `lastAppliedTerm` at the watermark itself (`RaftLog.TermAt`).
- `buildCurrentConfig`: applies the config changes of the log's entries, in log order,
  to `lastAppliedConfig` (`RaftLog.BuildConfig`); it is used when a conflict truncates
  the log.
- `appendLogEntry`: appends the entry at `lastLogIndex + 1` and applies its config
  change to the current configuration at once (`RaftNode.Node.AppendLogEntry`).

## Model

| member | source | states |
|---|---|---|
| RaftLog.Reconciled | jsimpledb-kv-raft/src/main/java/org/jsimpledb/kv/raft/FollowerRole.java:570-600 | after clearing a conflict, the log is a prefix of the old one; slot logIndex is either empty or holds term logTerm; after a conflict the log ends just before logIndex; without a conflict the log is unchanged |
| RaftLog.AcceptEntry | jsimpledb-kv-raft/src/main/java/org/jsimpledb/kv/raft/FollowerRole.java:566-680 | accepting an entry leaves an entry of its term at logIndex, and every earlier entry unchanged |
| RaftLog.ReconciledTruncates | jsimpledb-kv-raft/src/main/java/org/jsimpledb/kv/raft/FollowerRole.java:581-597 | a conflict deletes the conflicting entry and every later one (at least one entry), and keeps every earlier entry |
| RaftLog.ReconcileKeepsCommitted | jsimpledb-kv-raft/src/main/java/org/jsimpledb/kv/raft/FollowerRole.java:570-600 | when the leader's entry lies above the commit index, every entry up to the commit index survives reconciliation; a conflict at or below the commit index deletes an entry that lies within the log |
| RaftLog.DuplicateAppendIsNoop | jsimpledb-kv-raft/src/main/java/org/jsimpledb/kv/raft/FollowerRole.java:603-604 | an entry already present with the same term leaves the log as it was |
| RaftLog.AppendAtEnd | jsimpledb-kv-raft/src/main/java/org/jsimpledb/kv/raft/FollowerRole.java:603-605 | a new entry is appended exactly at lastLogIndex + 1 |
| RaftLog.AcceptEntryIdempotent | jsimpledb-kv-raft/src/main/java/org/jsimpledb/kv/raft/FollowerRole.java:566-680 | a second delivery of the same append request changes nothing |
| RaftLog.BuildConfigAppend | jsimpledb-kv-raft/src/main/java/org/jsimpledb/kv/raft/FollowerRole.java:640-642 | appending an entry applies its config change on top of the current configuration |
| RaftLog.LatestChangeWins | jsimpledb-kv-raft/src/main/java/org/jsimpledb/kv/raft/FollowerRole.java:596-597 | for each node, the rebuilt configuration reflects the latest entry that changes that node |
| RaftLog.UnchangedNodeKeepsBase | jsimpledb-kv-raft/src/main/java/org/jsimpledb/kv/raft/FollowerRole.java:596-597 | a node that no remaining entry changes keeps its membership and address from the snapshot |
| RaftLog.BuildConfig | jsimpledb-kv-raft/src/main/java/org/jsimpledb/kv/raft/FollowerRole.java:596-597 | the configuration rebuilt from the snapshot configuration and the log keeps the snapshot membership of every node that no entry changes |
| RaftLog.PrevEntryMismatch | jsimpledb-kv-raft/src/main/java/org/jsimpledb/kv/raft/FollowerRole.java:555-558 | a previous entry under the watermark never mismatches; when the check passes for a previous entry at or above the watermark, that entry is in the log (or is the watermark), so logIndex lies above the watermark and at most one past the last log index |
| RaftLog.Conflicts | jsimpledb-kv-raft/src/main/java/org/jsimpledb/kv/raft/FollowerRole.java:570-571 | an entry beyond the last log index never conflicts; a conflicting entry lies inside the log, so the log reaches logIndex |
| FollowerLogic.NewCommitIndex | jsimpledb-kv-raft/src/main/java/org/jsimpledb/kv/raft/FollowerRole.java:682-691 | the commit index never decreases; when it grows, it is at most both the last log index and the leader's commit index |
| FollowerLogic.NewCommitIndexIsMaxOfMin | jsimpledb-kv-raft/src/main/java/org/jsimpledb/kv/raft/FollowerRole.java:683-684 | the formula equals max(commitIndex, min(leaderCommit, lastLogIndex)) |
| FollowerLogic.CandidateLogOkIsLexicographic | jsimpledb-kv-raft/src/main/java/org/jsimpledb/kv/raft/FollowerRole.java:864-872 | granting a vote needs the candidate's (lastLogTerm, lastLogIndex) to be lexicographically at least this node's |
| FollowerLogic.CandidateLogOkTotalPreorder | jsimpledb-kv-raft/src/main/java/org/jsimpledb/kv/raft/FollowerRole.java:864-872 | that comparison is total and transitive |
| FollowerLogic.AdvanceLease | jsimpledb-kv-raft/src/main/java/org/jsimpledb/kv/raft/FollowerRole.java:530-537 | the leader lease timeout only moves forward, and ends at least at the offered value |
| FollowerLogic.LeaseStaysSatisfied | jsimpledb-kv-raft/src/main/java/org/jsimpledb/kv/raft/FollowerRole.java:218-232 | once a transaction's lease requirement is met, advancing the lease keeps it met |
| FollowerLogic.FreshProbes | jsimpledb-kv-raft/src/main/java/org/jsimpledb/kv/raft/FollowerRole.java:142-156 | the probes kept are exactly those younger than maxElectionTimeout, each with its time |
| FollowerLogic.FreshProbesIdempotent | jsimpledb-kv-raft/src/main/java/org/jsimpledb/kv/raft/FollowerRole.java:142-156 | discarding stale probes again at the same time discards nothing more |
| RaftNode.Node.JoinCluster | jsimpledb-kv-raft/src/main/java/org/jsimpledb/kv/raft/FollowerRole.java:501-503 | the cluster id is recorded only when persisting it succeeds |
| RaftNode.Node.AdvanceTerm | jsimpledb-kv-raft/src/main/java/org/jsimpledb/kv/raft/FollowerRole.java:354-357 | the term advances only when persisting it succeeds |
| RaftNode.Node.AppendLogEntry | jsimpledb-kv-raft/src/main/java/org/jsimpledb/kv/raft/FollowerRole.java:639-660 | the entry goes at lastLogIndex + 1, and the configuration stays the one the log builds |
| RaftNode.Node.TruncateFrom | jsimpledb-kv-raft/src/main/java/org/jsimpledb/kv/raft/FollowerRole.java:581-600 | deleting from an index on leaves the prefix before it, and the configuration is rebuilt from what remains |
| RaftNode.Node.FlipFlop | jsimpledb-kv-raft/src/main/java/org/jsimpledb/kv/raft/FollowerRole.java:831-838 | the snapshot becomes the watermark, the log empties, and the commit index and configuration are the snapshot's |
| RaftNode.Node.DiscardFlipFlopped | jsimpledb-kv-raft/src/main/java/org/jsimpledb/kv/raft/FollowerRole.java:539-546 | the staging area ends empty, and the result says whether it held anything |
| RaftNode.Node.RequestService | jsimpledb-kv-raft/src/main/java/org/jsimpledb/kv/raft/FollowerRole.java:682-691 | the requested set becomes the old one plus the service |
| Follower.FailAll | jsimpledb-kv-raft/src/main/java/org/jsimpledb/kv/raft/FollowerRole.java:189-196 | the selected transactions are COMPLETED with the reason; every other transaction is untouched |
| Follower.RebaseAll | jsimpledb-kv-raft/src/main/java/org/jsimpledb/kv/raft/FollowerRole.java:673-675 | the selected transactions move their base to the given entry; every other transaction is untouched |
| Follower.FollowerRole.ShouldRebase | jsimpledb-kv-raft/src/main/java/org/jsimpledb/kv/raft/FollowerRole.java:963-965 | a transaction with an outstanding commit request is never rebased |
| Follower.FollowerRole.constructor | jsimpledb-kv-raft/src/main/java/org/jsimpledb/kv/raft/FollowerRole.java:74-80 | a new follower holds no pending requests, pending writes or lease waits, and satisfies the role invariant |
| Follower.FollowerRole.CleanupForTransaction | jsimpledb-kv-raft/src/main/java/org/jsimpledb/kv/raft/FollowerRole.java:465-472 | the transaction is removed from all three tracking tables, and the invariant is kept |
| Follower.FollowerRole.FailTransactions | jsimpledb-kv-raft/src/main/java/org/jsimpledb/kv/raft/FollowerRole.java:573-578 | the failed transactions leave every table, the rebase set and the lagging set |
| Follower.FollowerRole.RebaseTransactions | jsimpledb-kv-raft/src/main/java/org/jsimpledb/kv/raft/FollowerRole.java:673-675 | every transaction the role would rebase ends up based on the last log entry |
| Follower.FollowerRole.NothingToRebase | jsimpledb-kv-raft/src/main/java/org/jsimpledb/kv/raft/FollowerRole.java:963-965 | with nothing to rebase, the rebase invariant holds whatever the log |
| Follower.FollowerRole.MayCommit | jsimpledb-kv-raft/src/main/java/org/jsimpledb/kv/raft/FollowerRole.java:218-232 | true without a lease requirement; false while the leader lease is unknown; otherwise true exactly when the lease has reached the requirement |
| Follower.FollowerRole.MayAdvanceCurrentTerm | jsimpledb-kv-raft/src/main/java/org/jsimpledb/kv/raft/FollowerRole.java:477-488 | false exactly for a vote request that arrives within minElectionTimeout of the last leader message |
| Follower.FollowerRole.CaseCommitResponse | jsimpledb-kv-raft/src/main/java/org/jsimpledb/kv/raft/FollowerRole.java:715-748 | only a response for an open COMMIT_READY transaction with a request outstanding has an effect, and it removes the request; on success the transaction becomes COMMIT_WAITING at the leader's position and any lease wait is recorded; on failure the transaction fails with the leader's message |
| Follower.FollowerRole.CaseRequestVote | jsimpledb-kv-raft/src/main/java/org/jsimpledb/kv/raft/FollowerRole.java:849-887 | a vote is granted exactly when no other peer has this term's vote, the candidate's log is at least as up to date, and a first vote was persisted; a first grant records the vote |
| Follower.FollowerRole.SnapshotChunkIgnored | jsimpledb-kv-raft/src/main/java/org/jsimpledb/kv/raft/FollowerRole.java:758-793 | a retrograde chunk is ignored; a first chunk that is not retrograde is never ignored; a chunk that is not ignored continues its install at the expected chunk number |
| Follower.FollowerRole.SnapshotContext | jsimpledb-kv-raft/src/main/java/org/jsimpledb/kv/raft/FollowerRole.java:765-812 | a chunk that matches the install in progress belongs to that install; any other chunk starts a new install at chunk 0 with the chunk's snapshot term, index and configuration |
| Follower.FollowerRole.CaseInstallSnapshot | jsimpledb-kv-raft/src/main/java/org/jsimpledb/kv/raft/FollowerRole.java:751-846 | a retrograde chunk, or a non-initial chunk that does not match, changes nothing; a failed apply ends the install; otherwise the next chunk number is expected; the last chunk installs the snapshot with the configuration the install started with, and fails every transaction the role would rebase |
| Follower.FollowerRole.BeginChunk | jsimpledb-kv-raft/src/main/java/org/jsimpledb/kv/raft/FollowerRole.java:796-812 | a first chunk discards staged content, so staging starts empty, and starts at chunk 0 with the message's configuration; a continuing chunk keeps its install and its staged content |
| Follower.FollowerRole.ApplyChunk | jsimpledb-kv-raft/src/main/java/org/jsimpledb/kv/raft/FollowerRole.java:815-845 | a failed apply ends the install and discards staging; a non-final chunk advances the chunk number; the final chunk installs the snapshot |
| Follower.FollowerRole.FinishSnapshotInstall | jsimpledb-kv-raft/src/main/java/org/jsimpledb/kv/raft/FollowerRole.java:828-845 | the snapshot becomes the node state, and the transactions the role would rebase fail with "rec'd snapshot install from leader" |
| Follower.FollowerRole.HearFromLeader | jsimpledb-kv-raft/src/main/java/org/jsimpledb/kv/raft/FollowerRole.java:494-546 | probing stops and the cluster id is learned when none is known and joining persists; a new leader is recorded with its address and no lease, a known one keeps its address; the lease advances; any snapshot install is abandoned with its staged content; exactly the matching re-check services are requested |
| Follower.FollowerRole.LearnClusterId | jsimpledb-kv-raft/src/main/java/org/jsimpledb/kv/raft/FollowerRole.java:501-503 | the message's cluster id is recorded exactly when this node has none and persisting it succeeds |
| Follower.FollowerRole.FollowLeader | jsimpledb-kv-raft/src/main/java/org/jsimpledb/kv/raft/FollowerRole.java:505-537 | the sender becomes the leader; a new leader gets the return address and starts without a lease, and ready transactions are re-checked; waiting transactions are re-checked exactly when the lease moves |
| Follower.FollowerRole.RecordLeader | jsimpledb-kv-raft/src/main/java/org/jsimpledb/kv/raft/FollowerRole.java:505-518 | only a different sender replaces the leader; it then resets the lease and requests a re-check of ready transactions |
| Follower.FollowerRole.AdvanceLeaderLease | jsimpledb-kv-raft/src/main/java/org/jsimpledb/kv/raft/FollowerRole.java:530-537 | the lease only moves forward, and waiting transactions are re-checked exactly when it moves |
| Follower.FollowerRole.CancelSnapshotInstall | jsimpledb-kv-raft/src/main/java/org/jsimpledb/kv/raft/FollowerRole.java:539-546 | an install in progress is dropped along with its staged content |
| Follower.FollowerRole.ReconcileLog | jsimpledb-kv-raft/src/main/java/org/jsimpledb/kv/raft/FollowerRole.java:570-601 | a conflicting suffix is deleted, leaving the log Reconciled builds; the transactions the role would rebase were based at or after logIndex and none waits for a commit; they fail with "transaction's base log entry overwritten" and leave the commit-request, pending-write and lease-wait tables; without a conflict nothing changes |
| Follower.FollowerRole.AppendFromLeader | jsimpledb-kv-raft/src/main/java/org/jsimpledb/kv/raft/FollowerRole.java:603-679 | the entry's data comes from the request, or from the one pending write whose transaction waits at (logTerm, logIndex), which is dropped; the entry is appended at the end exactly when that data exists, its file closed and persisting succeeds; rebasable transactions then move onto it; commit requests and lease waits are untouched |
| Follower.FollowerRole.EntryDataFor | jsimpledb-kv-raft/src/main/java/org/jsimpledb/kv/raft/FollowerRole.java:606-630 | the data is the request's own; without it, the pending write of the transaction committed at (logTerm, logIndex) is dropped and its data used if its file closed; with no such write there is no data and nothing changes |
| Follower.FollowerRole.AppendAndRebase | jsimpledb-kv-raft/src/main/java/org/jsimpledb/kv/raft/FollowerRole.java:639-675 | the entry is appended at the end of the log and the transactions the role would rebase move onto it |
| Follower.FollowerRole.AcceptFromLeader | jsimpledb-kv-raft/src/main/java/org/jsimpledb/kv/raft/FollowerRole.java:566-680 | an entry already present changes nothing and succeeds; otherwise a conflict fails the rebasable transactions and removes them from the tables, and the entry is appended with data from the request or the awaited pending write; on success the log is AcceptEntry of the old log and the survivors are rebased onto the entry; on failure the log is the reconciled log, ending before logIndex |
| Follower.AcceptByAppend | jsimpledb-kv-raft/src/main/java/org/jsimpledb/kv/raft/FollowerRole.java:566-680 | resolving a conflict and then appending the entry at the end accepts it, in the log, the transactions and the pending writes |
| Follower.AppendAcceptsLog | jsimpledb-kv-raft/src/main/java/org/jsimpledb/kv/raft/FollowerRole.java:566-605 | after reconciling, the appended entry sits at logIndex, and the log is AcceptEntry of the original log |
| Follower.AppendAcceptsTxs | jsimpledb-kv-raft/src/main/java/org/jsimpledb/kv/raft/FollowerRole.java:570-675 | a conflict leaves nothing to rebase, so the failed transactions stay failed; without one, a successful append rebases the rebasable transactions |
| Follower.AppendAcceptsData | jsimpledb-kv-raft/src/main/java/org/jsimpledb/kv/raft/FollowerRole.java:570-630 | the pending write the leader names is the same before and after the conflict is resolved |
| Follower.ReconcileKeepsAwaitedWrites | jsimpledb-kv-raft/src/main/java/org/jsimpledb/kv/raft/FollowerRole.java:570-578 | resolving a conflict only drops pending writes, and never one whose transaction waits for a commit |
| Follower.AcceptDuplicate | jsimpledb-kv-raft/src/main/java/org/jsimpledb/kv/raft/FollowerRole.java:603-604 | an entry already present with the same term is accepted and nothing changes |
| Follower.AppendFromData | jsimpledb-kv-raft/src/main/java/org/jsimpledb/kv/raft/FollowerRole.java:606-671 | taking the data and then appending it when there is some is exactly appending the leader's entry |
| Follower.RebaseNothing | jsimpledb-kv-raft/src/main/java/org/jsimpledb/kv/raft/FollowerRole.java:673-675 | rebasing no transaction leaves every transaction as it was |
| Follower.FollowerRole.CaseAppendRequest | jsimpledb-kv-raft/src/main/java/org/jsimpledb/kv/raft/FollowerRole.java:491-712 | everything HearFromLeader states about probing, the cluster id, the leader, its address, the lease, the snapshot install and the requested services; a missing or mismatched previous entry is refused with the watermark and the last index, and changes neither the log, the commit index nor any transaction or table; a probe or an entry under the watermark succeeds without touching them; any other entry is accepted as AcceptFromLeader states; the commit index follows the formula, and the commit services are requested exactly when it grows; the reply carries logIndex, or logIndex - 1 for a probe |
| Follower.FollowerRole.CheckAndAccept | jsimpledb-kv-raft/src/main/java/org/jsimpledb/kv/raft/FollowerRole.java:555-691 | the consistency check, the acceptance of the entry and the commit index update, with the same guarantees as CaseAppendRequest once the leader is heard from |
| Follower.FollowerRole.AdvanceCommitIndex | jsimpledb-kv-raft/src/main/java/org/jsimpledb/kv/raft/FollowerRole.java:682-691 | the commit index follows the formula, and the commit services are requested exactly when it grows |
| Follower.FollowerRole.SucceedTransaction | jsimpledb-kv-raft/src/main/java/org/jsimpledb/kv/raft/FollowerRole.java:328-332 | the transaction completes without error and leaves every table |
| Follower.FollowerRole.Bootstrap | jsimpledb-kv-raft/src/main/java/org/jsimpledb/kv/raft/FollowerRole.java:321-387 | a read-only transaction completes without error and leaves every table, with the cluster id and term untouched; a read-write one has BootstrapCluster's outcome, cluster id and term; a founded cluster has a non-zero id, the next term, the single entry at index 1 committed, membership of the new configuration, the transaction waiting at (term, 1) and the others rebased on it; every failure keeps the log |
| Follower.FoundingOutcome | jsimpledb-kv-raft/src/main/java/org/jsimpledb/kv/raft/FollowerRole.java:332-375 | a cluster is founded exactly when the change adds this node and the cluster id (if new), the term and the entry all persist; only the missing config change is a retryable failure |
| Follower.FollowerRole.BootstrapCluster | jsimpledb-kv-raft/src/main/java/org/jsimpledb/kv/raft/FollowerRole.java:332-387 | the outcome is FoundingOutcome: the retryable "unconfigured system" error for a change that does not add this node, then "error persisting new cluster ID", "error advancing term" or "error attempting to persist transaction" for the first step that did not persist, else a founded cluster; the cluster id and term follow ClusterClaimed; every failure keeps the log, the commit index and the transactions |
| Follower.FollowerRole.ClaimClusterAndTerm | jsimpledb-kv-raft/src/main/java/org/jsimpledb/kv/raft/FollowerRole.java:338-357 | a known cluster id is kept; a new non-zero id is recorded exactly when persisting it succeeds, and it survives a failed term step; the term advances by one exactly when both steps persist and is unchanged otherwise; a failure reports "error persisting new cluster ID" or "error advancing term" for the step that did not persist |
| Follower.FollowerRole.FoundCluster | jsimpledb-kv-raft/src/main/java/org/jsimpledb/kv/raft/FollowerRole.java:359-379 | the founding entry is the whole log, at index 1 and committed; the transaction waits on it and the others are rebased on it |
| Follower.FollowerRole.StartLog | jsimpledb-kv-raft/src/main/java/org/jsimpledb/kv/raft/FollowerRole.java:359-375 | the founding entry is the whole log at index 1, this node is a member, the transaction waits on it and the others are rebased on it |
| Follower.FollowerRole.AdvanceReadyTransaction | jsimpledb-kv-raft/src/main/java/org/jsimpledb/kv/raft/FollowerRole.java:740-741 | the transaction becomes COMMIT_WAITING at the given position and leaves the rebase set |
| Follower.FollowerRole.SendCommitRequest | jsimpledb-kv-raft/src/main/java/org/jsimpledb/kv/raft/FollowerRole.java:413-461 | a read-write transaction first keeps a pending write; the request is recorded as outstanding and names the leader, the transaction and its base |
| Follower.FollowerRole.CheckReadyLinearizableTransaction | jsimpledb-kv-raft/src/main/java/org/jsimpledb/kv/raft/FollowerRole.java:301-462 | a transaction is left alone, with nothing changed, when its request is outstanding, during a snapshot install, or when no writable leader is known; on an unconfigured node a read-only transaction completes and leaves every table, and a read-write one gets Bootstrap's outcome, cluster id, term, log and transactions; otherwise OfferToLeader's failures, pending write, outstanding request and sent request |
| Follower.FollowerRole.OfferToLeader | jsimpledb-kv-raft/src/main/java/org/jsimpledb/kv/raft/FollowerRole.java:388-462 | without a leader, or while its connection is busy, the transaction is left alone and nothing changes; otherwise a read-write transaction whose mutations cannot be saved fails without retry and records nothing; else the request is recorded as outstanding, a read-write transaction keeps a pending write of its data, and the request naming the leader, the transaction and its base is sent, or the transaction fails with the retryable "error sending commit request to leader" |
| Follower.FollowerRole.DeposedArePending | jsimpledb-kv-raft/src/main/java/org/jsimpledb/kv/raft/FollowerRole.java:189-195 | a rebasable transaction not based on the last entry is COMMIT_READY, with a commit request outstanding |
| Follower.FollowerRole.ClearRequests | jsimpledb-kv-raft/src/main/java/org/jsimpledb/kv/raft/FollowerRole.java:197-201 | pending requests and pending writes are forgotten, and the invariant still holds |
| Follower.FollowerRole.Shutdown | jsimpledb-kv-raft/src/main/java/org/jsimpledb/kv/raft/FollowerRole.java:172-205 | the snapshot install is abandoned; lease waiters and lagging transactions fail with their messages; every table ends empty; every rebasable transaction left is based on the last entry |
| Follower.FollowerRole.FailStranded | jsimpledb-kv-raft/src/main/java/org/jsimpledb/kv/raft/FollowerRole.java:183-201 | the transaction part of leaving the role, with the same guarantees as Shutdown |
| Follower.FollowerRole.OutputQueueEmpty | jsimpledb-kv-raft/src/main/java/org/jsimpledb/kv/raft/FollowerRole.java:210-214 | ready transactions are re-checked exactly when the drained connection is the leader's |
| Follower.FollowerRole.NodesProbed | jsimpledb-kv-raft/src/main/java/org/jsimpledb/kv/raft/FollowerRole.java:134-138 | -1 when not probing; otherwise the probed count after stale probes are discarded |
| Follower.FollowerRole.CalculateProbedNodes | jsimpledb-kv-raft/src/main/java/org/jsimpledb/kv/raft/FollowerRole.java:142-156 | stale probes are removed, and the count is this node's membership plus the fresh probes |
| Follower.FollowerRole.CheckProbeResult | jsimpledb-kv-raft/src/main/java/org/jsimpledb/kv/raft/FollowerRole.java:916-932 | the follower becomes a candidate exactly when the probed count reaches size / 2 + 1 |
| Follower.FollowerRole.CasePingResponse | jsimpledb-kv-raft/src/main/java/org/jsimpledb/kv/raft/FollowerRole.java:899-914 | a ping response counts only while probing; it records the peer's time, then the probes are counted again |
| Follower.FollowerRole.HandleElectionTimeout | jsimpledb-kv-raft/src/main/java/org/jsimpledb/kv/raft/FollowerRole.java:235-270 | the leader is forgotten; without probing the follower becomes a candidate; with probing every other configured node is pinged once, and the count decides |
| Follower.FollowerRole.ProbeRound | jsimpledb-kv-raft/src/main/java/org/jsimpledb/kv/raft/FollowerRole.java:250-269 | probing starts if needed, one ping goes to each other node, and the count decides |
| Follower.DiscardStaleProbes | jsimpledb-kv-raft/src/main/java/org/jsimpledb/kv/raft/FollowerRole.java:145-155 | the iterator loop keeps exactly the fresh probes and counts them |
| Follower.PingPeers | jsimpledb-kv-raft/src/main/java/org/jsimpledb/kv/raft/FollowerRole.java:258-263 | the loop sends exactly one ping to each configured node other than this one |
| Scenarios.FoundSingleNodeCluster | jsimpledb-kv-raft/src/main/java/org/jsimpledb/kv/raft/FollowerRole.java:321-387 | an unconfigured node given a write that adds itself founds a cluster at term 1, index 1 |
| Scenarios.RejectMismatchedPredecessor | jsimpledb-kv-raft/src/main/java/org/jsimpledb/kv/raft/FollowerRole.java:555-564 | an append whose previous entry (index 5, term 2) mismatches the local entry (term 3) is refused with watermark 0 and last index 5, and the log is kept |
| Scenarios.EarlyChunkIgnored | jsimpledb-kv-raft/src/main/java/org/jsimpledb/kv/raft/FollowerRole.java:786-793 | chunk 1 with no install in progress starts nothing |
| Scenarios.DeposedBeforeResponse | jsimpledb-kv-raft/src/main/java/org/jsimpledb/kv/raft/FollowerRole.java:189-196 | leaving the role while a lagging request is outstanding fails that transaction with the deposed message |
| Scenarios.CleanupTwice | jsimpledb-kv-raft/src/main/java/org/jsimpledb/kv/raft/FollowerRole.java:465-472 | cleaning up a transaction twice has the same effect as cleaning it up once |

## Left out

- File and log I/O is not modelled: temporary files, deleting overwritten log files, fsync of the log directory, and closing files. Each outcome that matters is a boolean parameter.
- Serialising the transaction's reads and writes is not modelled. Nor is the error "transaction read information exceeds maximum length".
- SendCommitRequest: a failure to read the mutations back from the temporary file is not told apart from a failure to write them. Both give one non-retryable error.
- Transport, election timer and clock are parameters: sending messages, `isTransmitting` (the `leaderBusy` parameter), `restartElectionTimer`, `updateElectionTimer`, and reading the current time (the `now` parameter).
- Timestamps are unbounded integers. The wrap-around of the source's 32-bit millisecond timestamps is not modelled.
- Logging, `toString` and `setup` are not modelled. Neither are the getters `getLeaderIdentity`, `getLeaderAddress`, `getVotedFor` and `isInstallingSnapshot`, which only read fields.
- `caseGrantVote` ignores the message, so it has nothing to model.
- Role changes (`changeRole`) are returned as values, not performed.
- The exceptions of `checkReadyLinearizableTransaction` are returned as `Failed` outcomes. How its caller handles them is not part of this model.
- The base role's `shutdown` is not part of this model.
- Rebasing does not check the rebased transactions' reads against the new entries. That check belongs to the base role, which is not part of this model.
- Mutations and key/value snapshot data are opaque integer sequences. The flip-flopped state machine is reduced to a flag that says whether it holds staged content.
- The error logged when a conflicting leader is detected is not modelled. The new sender simply becomes the leader.
- Two guarantees of the cluster as a whole are not stated for the follower, because they rest on the leader's behaviour: that an index holds the same term on every node, and that no committed entry is ever truncated. `ReconcileLog` truncates wherever the leader's conflicting entry falls, with no check against the commit index, as the source does; `RaftLog.ReconcileKeepsCommitted` states when committed entries survive.
