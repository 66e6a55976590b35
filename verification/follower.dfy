/**
 * The follower role of a Raft node. Every handler runs under the node's single
 * lock, so each method below is one atomic step on the follower's fields and on
 * the node state it shares (`raft`).
 */
module Follower {
  import opened Types
  import opened RaftLog
  import opened FollowerLogic
  import opened RaftNode

  /**
   * The role-independent rebase test: a transaction whose reads must stay based on
   * the last log entry, because it has not been assigned a commit position yet.
   */
  predicate Rebasable(tx: Tx) {
    tx.rebasable && (tx.state == Executing || tx.state == CommitReady)
  }

  /** Fail the transactions `ids` with a retryable error carrying `reason`. */
  function FailAll(txs: map<TxId, Tx>, ids: set<TxId>, reason: string): (r: map<TxId, Tx>)
    ensures r.Keys == txs.Keys
    ensures forall id :: id in r ==> r[id].id == txs[id].id
    ensures forall id :: id in txs && id in ids ==> r[id].state == Completed && r[id].error == Some(reason)
    ensures forall id :: id in txs && id !in ids ==> r[id] == txs[id]
  {
    map id | id in txs :: if id in ids then txs[id].(state := Completed, error := Some(reason)) else txs[id]
  }

  /** Move the base of every transaction that `rebase` selects to the log entry (term, index). */
  function RebaseAll(txs: map<TxId, Tx>, rebase: set<TxId>, term: int, index: int): (r: map<TxId, Tx>)
    ensures r.Keys == txs.Keys
    ensures forall id :: id in txs && id in rebase ==> r[id] == txs[id].(baseTerm := term, baseIndex := index)
    ensures forall id :: id in txs && id !in rebase ==> r[id] == txs[id]
  {
    map id | id in txs :: if id in rebase then txs[id].(baseTerm := term, baseIndex := index) else txs[id]
  }

  /** `id` names an open transaction in one of `states`. */
  predicate InState(txs: map<TxId, Tx>, id: TxId, states: set<TxState>) {
    id in txs && txs[id].state in states
  }

  /** The pending write filed under `id` belongs to that transaction. */
  predicate WriteOf(writes: map<TxId, PendingWrite>, id: TxId) {
    id in writes && writes[id].txId == id
  }

  /** A pending write (of `writes`) whose transaction (of `txs`) the leader committed at (term, index). */
  predicate WriteAwaits(writes: map<TxId, PendingWrite>, txs: map<TxId, Tx>, id: TxId, term: int, index: int)
  {
    && id in writes && id in txs
    && txs[id].state == CommitWaiting && txs[id].commitTerm == term && txs[id].commitIndex == index
  }

  /** The parts of a follower's state that accepting an entry from the leader may change. */
  datatype TxTables = TxTables(log: seq<LogEntry>, config: map<NodeId, string>, txs: map<TxId, Tx>,
                               requests: set<TxId>, writes: map<TxId, PendingWrite>, leaseWaits: map<TxId, Timestamp>)

  /**
   * An AppendRequest `msg`, checked against the log of `t0` (watermark `applied`, term
   * `appliedTerm`), took the tables from `t0` to `t` and the commit index from `commit0` to
   * `commit`, and was answered `success`. A missing or mismatched previous entry is refused and
   * changes nothing; otherwise the leader's commit index is adopted, a probe or an entry under
   * the watermark is acknowledged without touching the tables, and any other entry is accepted.
   */
  ghost predicate AppendHandled(applied: int, appliedTerm: int, msg: Message, t0: TxTables, rebase: set<TxId>, t: TxTables,
                                commit0: int, commit: int, newLogEntry: Option<EntryData>, closeOk: bool, appendOk: bool,
                                success: bool)
    requires msg.AppendRequest?
  {
    var mismatch := PrevEntryMismatch(applied, appliedTerm, t0.log, msg.prevLogIndex, msg.prevLogTerm);
    && (mismatch ==> !success && commit == commit0 && t == t0)
    && (!mismatch ==> commit == NewCommitIndex(msg.leaderCommit, commit0, LastIndex(applied, t.log)))
    && (!mismatch && (msg.prevLogIndex < applied || msg.probe) ==> success && t == t0)
    && (!mismatch && msg.prevLogIndex >= applied && !msg.probe ==>
          EntryAccepted(applied, t0, rebase, t, msg.prevLogIndex + 1, msg.logEntryTerm, newLogEntry, closeOk, appendOk, success))
  }

  /**
   * Accepting the leader's entry (`logIndex`, `logTerm`), whose predecessor the consistency
   * check found, took the tables from `t0` to `t`; `applied` is the snapshot watermark and
   * `rebase` the transactions `t0` would rebase. An entry already present (same index, same
   * term) changes nothing; otherwise the entry is appended after the conflict is resolved.
   */
  ghost predicate EntryAccepted(applied: int, t0: TxTables, rebase: set<TxId>, t: TxTables,
                                logIndex: int, logTerm: int, newLogEntry: Option<EntryData>,
                                closeOk: bool, appendOk: bool, success: bool)
    requires applied < logIndex <= LastIndex(applied, t0.log) + 1
  {
    var kept := Reconciled(applied, t0.log, logIndex, logTerm);
    && (LastIndex(applied, kept) >= logIndex ==> success && t == t0)
    && LogAccepted(applied, t0.log, t.log, logIndex, logTerm, newLogEntry, success)
    && TxsAccepted(applied, t0, rebase, t, logIndex, logTerm, success)
    && (LastIndex(applied, kept) < logIndex ==>
          DataAccepted(applied, t0, rebase, t, logIndex, logTerm, newLogEntry, closeOk, appendOk, success))
  }

  /**
   * The log after accepting: on success an entry of `logTerm` sits at `logIndex` (the
   * request's own when it carries data) and the log is the one AcceptEntry builds; a failed
   * append leaves the log truncated just before `logIndex`.
   */
  ghost predicate LogAccepted(applied: int, log0: seq<LogEntry>, log: seq<LogEntry>, logIndex: int, logTerm: int,
                              newLogEntry: Option<EntryData>, success: bool)
    requires applied < logIndex <= LastIndex(applied, log0) + 1
  {
    var kept := Reconciled(applied, log0, logIndex, logTerm);
    && (success ==>
          && logIndex <= LastIndex(applied, log)
          && log[logIndex - applied - 1].term == logTerm
          && log == AcceptEntry(applied, log0, logIndex, log[logIndex - applied - 1]))
    && (success && newLogEntry.Some? ==> log == AcceptEntry(applied, log0, logIndex, LogEntry(logTerm, newLogEntry.value)))
    && (!success ==> log == kept && LastIndex(applied, kept) == logIndex - 1)
  }

  /**
   * The transactions after accepting: a conflict fails every rebasable transaction (their
   * base entries were overwritten) and drops them from the commit-request and lease-wait
   * tables; otherwise a successful append rebases them onto the new entry.
   */
  ghost predicate TxsAccepted(applied: int, t0: TxTables, rebase: set<TxId>, t: TxTables,
                              logIndex: int, logTerm: int, success: bool)
    requires applied < logIndex
  {
    var conflict := Conflicts(applied, t0.log, logIndex, logTerm);
    var failed := if conflict then rebase else {};
    && t.requests == t0.requests - failed
    && t.leaseWaits == t0.leaseWaits - failed
    && (conflict ==> t.txs == FailAll(t0.txs, rebase, "transaction's base log entry overwritten"))
    && (!conflict && success && LastIndex(applied, t0.log) < logIndex ==> t.txs == RebaseAll(t0.txs, rebase, logTerm, logIndex))
    && (!conflict && !(success && LastIndex(applied, t0.log) < logIndex) ==> t.txs == t0.txs)
  }

  /**
   * Where an appended entry's data comes from: the request, or else the pending write of
   * the transaction the leader committed at (`logTerm`, `logIndex`), which is dropped; with
   * neither the append fails. Pending writes of failed transactions are dropped too.
   */
  ghost predicate DataAccepted(applied: int, t0: TxTables, rebase: set<TxId>, t: TxTables,
                               logIndex: int, logTerm: int, newLogEntry: Option<EntryData>,
                               closeOk: bool, appendOk: bool, success: bool)
    requires applied < logIndex
  {
    var kept := Reconciled(applied, t0.log, logIndex, logTerm);
    var failed := if Conflicts(applied, t0.log, logIndex, logTerm) then rebase else {};
    && (newLogEntry.Some? ==>
          && t.writes == t0.writes - failed && success == appendOk
          && (success ==> t.log == kept + [LogEntry(logTerm, newLogEntry.value)]))
    && (newLogEntry.None? && (forall id :: !WriteAwaits(t0.writes, t0.txs, id, logTerm, logIndex)) ==>
          !success && t.writes == t0.writes - failed)
    && (newLogEntry.None? && (exists id :: WriteAwaits(t0.writes, t0.txs, id, logTerm, logIndex)) ==>
          exists id :: && WriteAwaits(t0.writes, t0.txs, id, logTerm, logIndex)
                       && t.writes == t0.writes - failed - {id}
                       && success == (closeOk && appendOk)
                       && (success ==> t.log == kept + [LogEntry(logTerm, t0.writes[id].data)]))
  }

  /**
   * Resolving a conflict at `logIndex` took the tables from `t0` to `t1`: the log is
   * truncated before a conflicting entry, and the transactions `t0` would rebase, all based
   * on the overwritten entries and none waiting for a commit, fail and leave the tables.
   * Without a conflict nothing changes.
   */
  ghost predicate LogReconciled(applied: int, t0: TxTables, rebase: set<TxId>, t1: TxTables, logIndex: int, logTerm: int)
    requires applied < logIndex
  {
    var conflict := Conflicts(applied, t0.log, logIndex, logTerm);
    && t1.log == Reconciled(applied, t0.log, logIndex, logTerm)
    && (forall id :: id in rebase ==> id in t0.txs && t0.txs[id].state != CommitWaiting)
    && (!conflict ==> t1 == t0)
    && (conflict ==>
          && (forall id :: id in rebase ==> t0.txs[id].baseIndex >= logIndex)
          && t1.txs == FailAll(t0.txs, rebase, "transaction's base log entry overwritten")
          && t1.requests == t0.requests - rebase
          && t1.writes == t0.writes - rebase
          && t1.leaseWaits == t0.leaseWaits - rebase)
  }

  /**
   * Appending the leader's entry at the end of the log took the tables from `t1` to `t`;
   * `rebase` is what `t1` would rebase. The data comes with the request or from the pending
   * write of the transaction the leader committed at (`logTerm`, `logIndex`), which is then
   * dropped; a successful append rebases the transactions onto the new entry.
   */
  ghost predicate EntryAppended(t1: TxTables, rebase: set<TxId>, t: TxTables, logIndex: int, logTerm: int,
                                newLogEntry: Option<EntryData>, closeOk: bool, appendOk: bool, success: bool)
  {
    && t.requests == t1.requests && t.leaseWaits == t1.leaseWaits
    && (!success ==> t.log == t1.log && t.txs == t1.txs)
    && (success ==> t.txs == RebaseAll(t1.txs, rebase, logTerm, logIndex))
    && (newLogEntry.Some? ==>
          && t.writes == t1.writes && success == appendOk
          && (success ==> t.log == t1.log + [LogEntry(logTerm, newLogEntry.value)]))
    && (newLogEntry.None? && (forall id :: !WriteAwaits(t1.writes, t1.txs, id, logTerm, logIndex)) ==>
          !success && t.writes == t1.writes)
    && (newLogEntry.None? && (exists id :: WriteAwaits(t1.writes, t1.txs, id, logTerm, logIndex)) ==>
          exists id :: && WriteAwaits(t1.writes, t1.txs, id, logTerm, logIndex)
                       && t.writes == t1.writes - {id}
                       && success == (closeOk && appendOk)
                       && (success ==> t.log == t1.log + [LogEntry(logTerm, t1.writes[id].data)]))
  }

  /**
   * Where an entry's data came from, and what became of the pending writes `writes0`: the
   * request's own data, or else the pending write of the transaction committed at
   * (`logTerm`, `logIndex`), which is dropped and whose data is lost if its file could not
   * be closed; None when there is no such write.
   */
  ghost predicate DataTaken(writes0: map<TxId, PendingWrite>, txs: map<TxId, Tx>, writes: map<TxId, PendingWrite>,
                            logIndex: int, logTerm: int, newLogEntry: Option<EntryData>, closeOk: bool,
                            data: Option<EntryData>)
  {
    && (newLogEntry.Some? ==> data == newLogEntry && writes == writes0)
    && (newLogEntry.None? && (forall id :: !WriteAwaits(writes0, txs, id, logTerm, logIndex)) ==>
          data.None? && writes == writes0)
    && (newLogEntry.None? && (exists id :: WriteAwaits(writes0, txs, id, logTerm, logIndex)) ==>
          exists id :: && WriteAwaits(writes0, txs, id, logTerm, logIndex)
                       && writes == writes0 - {id}
                       && data == if closeOk then Some(writes0[id].data) else None)
  }

  /** Taking the data and appending it when there is some (and the append succeeds) appends the entry. */
  lemma AppendFromData(t1: TxTables, rebase: set<TxId>, t: TxTables, logIndex: int, logTerm: int,
                       newLogEntry: Option<EntryData>, closeOk: bool, appendOk: bool, data: Option<EntryData>, success: bool)
    requires DataTaken(t1.writes, t1.txs, t.writes, logIndex, logTerm, newLogEntry, closeOk, data)
    requires t.requests == t1.requests && t.leaseWaits == t1.leaseWaits
    requires success == (data.Some? && appendOk)
    requires success ==> t.log == t1.log + [LogEntry(logTerm, data.value)] && t.txs == RebaseAll(t1.txs, rebase, logTerm, logIndex)
    requires !success ==> t.log == t1.log && t.txs == t1.txs
    ensures EntryAppended(t1, rebase, t, logIndex, logTerm, newLogEntry, closeOk, appendOk, success)
  {
  }

  /** Resolving the conflict and then appending the entry accepts it. */
  lemma AcceptByAppend(
      applied: int, t0: TxTables, rebase: set<TxId>, t1: TxTables, rebase1: set<TxId>,
      t: TxTables, logIndex: int, logTerm: int, newLogEntry: Option<EntryData>,
      closeOk: bool, appendOk: bool, success: bool)
    requires applied < logIndex <= LastIndex(applied, t0.log) + 1
    requires LogReconciled(applied, t0, rebase, t1, logIndex, logTerm)
    requires rebase1 == if Conflicts(applied, t0.log, logIndex, logTerm) then {} else rebase
    requires LastIndex(applied, t1.log) < logIndex
    requires EntryAppended(t1, rebase1, t, logIndex, logTerm, newLogEntry, closeOk, appendOk, success)
    ensures EntryAccepted(applied, t0, rebase, t, logIndex, logTerm, newLogEntry, closeOk, appendOk, success)
  {
    AppendAcceptsLog(applied, t0, rebase, t1, rebase1, t, logIndex, logTerm, newLogEntry, closeOk, appendOk, success);
    AppendAcceptsTxs(applied, t0, rebase, t1, rebase1, t, logIndex, logTerm, newLogEntry, closeOk, appendOk, success);
    AppendAcceptsData(applied, t0, rebase, t1, rebase1, t, logIndex, logTerm, newLogEntry, closeOk, appendOk, success);
  }

  /** The log part of AcceptByAppend: the appended entry goes right after the kept log. */
  lemma AppendAcceptsLog(
      applied: int, t0: TxTables, rebase: set<TxId>, t1: TxTables, rebase1: set<TxId>,
      t: TxTables, logIndex: int, logTerm: int, newLogEntry: Option<EntryData>,
      closeOk: bool, appendOk: bool, success: bool)
    requires applied < logIndex <= LastIndex(applied, t0.log) + 1
    requires LogReconciled(applied, t0, rebase, t1, logIndex, logTerm)
    requires rebase1 == if Conflicts(applied, t0.log, logIndex, logTerm) then {} else rebase
    requires LastIndex(applied, t1.log) < logIndex
    requires EntryAppended(t1, rebase1, t, logIndex, logTerm, newLogEntry, closeOk, appendOk, success)
    ensures LogAccepted(applied, t0.log, t.log, logIndex, logTerm, newLogEntry, success)
  {
    if success {
      var e := t.log[|t1.log|];
      assert t.log == t1.log + [e];
      AppendAtEnd(applied, t0.log, logIndex, e);
    }
  }

  /** The transaction part of AcceptByAppend: after a conflict there is nothing left to rebase. */
  lemma AppendAcceptsTxs(
      applied: int, t0: TxTables, rebase: set<TxId>, t1: TxTables, rebase1: set<TxId>,
      t: TxTables, logIndex: int, logTerm: int, newLogEntry: Option<EntryData>,
      closeOk: bool, appendOk: bool, success: bool)
    requires applied < logIndex <= LastIndex(applied, t0.log) + 1
    requires LogReconciled(applied, t0, rebase, t1, logIndex, logTerm)
    requires rebase1 == if Conflicts(applied, t0.log, logIndex, logTerm) then {} else rebase
    requires LastIndex(applied, t1.log) < logIndex
    requires EntryAppended(t1, rebase1, t, logIndex, logTerm, newLogEntry, closeOk, appendOk, success)
    ensures TxsAccepted(applied, t0, rebase, t, logIndex, logTerm, success)
  {
    if Conflicts(applied, t0.log, logIndex, logTerm) && success {
      RebaseNothing(t1.txs, logTerm, logIndex);
    }
  }

  /** The data part of AcceptByAppend: resolving a conflict keeps every pending write the leader may name. */
  lemma AppendAcceptsData(
      applied: int, t0: TxTables, rebase: set<TxId>, t1: TxTables, rebase1: set<TxId>,
      t: TxTables, logIndex: int, logTerm: int, newLogEntry: Option<EntryData>,
      closeOk: bool, appendOk: bool, success: bool)
    requires applied < logIndex <= LastIndex(applied, t0.log) + 1
    requires LogReconciled(applied, t0, rebase, t1, logIndex, logTerm)
    requires rebase1 == if Conflicts(applied, t0.log, logIndex, logTerm) then {} else rebase
    requires LastIndex(applied, t1.log) < logIndex
    requires EntryAppended(t1, rebase1, t, logIndex, logTerm, newLogEntry, closeOk, appendOk, success)
    ensures DataAccepted(applied, t0, rebase, t, logIndex, logTerm, newLogEntry, closeOk, appendOk, success)
  {
    ReconcileKeepsAwaitedWrites(applied, t0, rebase, t1, logIndex, logTerm);
  }

  /**
   * Resolving a conflict keeps every pending write the leader may name: the transactions
   * that fail are rebasable, so none of them waits for a commit.
   */
  lemma ReconcileKeepsAwaitedWrites(applied: int, t0: TxTables, rebase: set<TxId>, t1: TxTables, logIndex: int, logTerm: int)
    requires applied < logIndex
    requires LogReconciled(applied, t0, rebase, t1, logIndex, logTerm)
    ensures forall id :: id in t1.writes ==> id in t0.writes && t1.writes[id] == t0.writes[id]
    ensures forall id :: WriteAwaits(t1.writes, t1.txs, id, logTerm, logIndex) <==> WriteAwaits(t0.writes, t0.txs, id, logTerm, logIndex)
  {
    var conflict := Conflicts(applied, t0.log, logIndex, logTerm);
    forall id
      ensures WriteAwaits(t1.writes, t1.txs, id, logTerm, logIndex) <==> WriteAwaits(t0.writes, t0.txs, id, logTerm, logIndex)
    {
      if conflict && id in rebase {
        assert t0.txs[id].state != CommitWaiting;
      }
    }
  }

  /** An entry already present is accepted without any change. */
  lemma AcceptDuplicate(applied: int, t0: TxTables, rebase: set<TxId>, t1: TxTables,
                         logIndex: int, logTerm: int, newLogEntry: Option<EntryData>,
                         closeOk: bool, appendOk: bool)
    requires applied < logIndex <= LastIndex(applied, t0.log) + 1
    requires LogReconciled(applied, t0, rebase, t1, logIndex, logTerm)
    requires LastIndex(applied, t1.log) >= logIndex
    ensures EntryAccepted(applied, t0, rebase, t1, logIndex, logTerm, newLogEntry, closeOk, appendOk, true)
  {
    var slot := logIndex - applied - 1;
    assert !Conflicts(applied, t0.log, logIndex, logTerm);
    DuplicateAppendIsNoop(applied, t0.log, logIndex, t0.log[slot]);
    if newLogEntry.Some? {
      DuplicateAppendIsNoop(applied, t0.log, logIndex, LogEntry(logTerm, newLogEntry.value));
    }
  }

  /** Rebasing no transaction changes nothing. */
  lemma RebaseNothing(txs: map<TxId, Tx>, term: int, index: int)
    ensures RebaseAll(txs, {}, term, index) == txs
  {
  }

  /** A snapshot chunk continues the install in progress: same snapshot, next chunk number. */
  predicate ChunkMatches(receive: SnapshotReceive, msg: Message)
    requires msg.InstallSnapshot?
  {
    receive.term == msg.snapshotTerm && receive.index == msg.snapshotIndex && receive.nextPairIndex == msg.pairIndex
  }

  /** Cluster id zero means "not yet part of any cluster". */
  predicate IsClusterId(id: int) {
    id != 0
  }

  /** A config change that adds `node` with an address: the only change that may found a new cluster. */
  predicate AddsNode(change: Option<ConfigChange>, node: NodeId) {
    change.Some? && change.value.node == node && change.value.address.Some?
  }

  /** Recipients of a batch of outbound messages. */
  function Recipients(msgs: seq<Message>): set<NodeId>
    decreases |msgs|
  {
    if msgs == [] then {} else Recipients(msgs[..|msgs| - 1]) + {msgs[|msgs| - 1].recipientId}
  }

  /** Outcome of offering a COMMIT_READY transaction to the follower. */
  datatype ReadyOutcome =
    | LeftAlone                            // already requested, installing a snapshot, or no writable leader
    | Succeeded                            // read-only transaction on an unconfigured node
    | Bootstrapped                         // new single-node cluster created; this node becomes leader
    | Sent(request: Message)               // CommitRequest handed to the transport
    | Failed(retryable: bool, reason: string)

  /**
   * The outcome of trying to found a new cluster with a transaction whose config change
   * does (`adds`) or does not add this node `identity`, on a node whose cluster id was
   * `clusterId0`; `joinOk`, `termOk` and `appendOk` are whether persisting the new cluster
   * id, the next term and the founding entry succeeded. Only the missing config change
   * is worth retrying.
   */
  function FoundingOutcome(adds: bool, identity: NodeId, clusterId0: int, joinOk: bool, termOk: bool, appendOk: bool): (r: ReadyOutcome)
    ensures r.Bootstrapped? || r.Failed?
    ensures r == Bootstrapped <==> adds && (clusterId0 != 0 || joinOk) && termOk && appendOk
    ensures r.Failed? ==> r.retryable == !adds
  {
    if !adds then
      Failed(true, "unconfigured system: an initial configuration change adding the local node (\""
                   + identity + "\") as the first member of a new cluster is required")
    else if clusterId0 == 0 && !joinOk then Failed(false, "error persisting new cluster ID")
    else if !termOk then Failed(false, "error advancing term")
    else if !appendOk then Failed(false, "error attempting to persist transaction")
    else Bootstrapped
  }

  /**
   * The cluster id and term after founding was attempted from (`clusterId0`, `term0`): a
   * known cluster id is kept, a new one is recorded exactly when persisting it succeeded
   * (and survives a failed term step), and the term advances by one exactly when both steps
   * persisted.
   */
  predicate ClusterClaimed(clusterId0: int, term0: int, joinOk: bool, termOk: bool, clusterId: int, term: int) {
    && (clusterId0 != 0 ==> clusterId == clusterId0)
    && (clusterId0 == 0 ==> (clusterId != 0 <==> joinOk))
    && term == if (clusterId0 != 0 || joinOk) && termOk then term0 + 1 else term0
  }

  class FollowerRole {
    const raft: Node

    var leader: Option<NodeId>
    var leaderAddress: Option<string>
    var votedFor: Option<NodeId>
    var snapshotReceive: Option<SnapshotReceive>
    /** Transactions waiting for a CommitResponse from the leader. */
    var pendingRequests: set<TxId>
    /** Transactions whose mutations wait in a temporary file for the leader's AppendRequest. */
    var pendingWrites: map<TxId, PendingWrite>
    /** Read-only transactions waiting for the leader lease to reach a given timeout. */
    var commitLeaderLeaseTimeoutMap: map<TxId, Timestamp>
    var lastLeaderMessageTime: Option<Timestamp>
    var leaderLeaseTimeout: Option<Timestamp>
    /** Latest ping response time per peer; present only while probing. */
    var probeTimestamps: Option<map<NodeId, Timestamp>>

    ghost predicate Valid()
      reads this`leader, this`leaderAddress, this`pendingRequests, this`pendingWrites,
            this`commitLeaderLeaseTimeoutMap, this`snapshotReceive
      reads raft`lastAppliedIndex, raft`lastAppliedTerm, raft`commitIndex, raft`currentConfig,
            raft`lastAppliedConfig, raft`log, raft`openTxs
    {
      && raft.Valid()
      && (leaderAddress.None? ==> leader.None?)
      && Receiving()
      && Tracked()
      && Rebased()
    }

    /** An install in progress has applied at least its first chunk. */
    ghost predicate Receiving()
      reads this`snapshotReceive
    {
      snapshotReceive.Some? ==> snapshotReceive.value.nextPairIndex >= 1
    }

    /**
     * The tracking tables only name open transactions in the states that use them:
     * a commit request is outstanding only in COMMIT_READY (so, by Node.Valid, before any
     * commit position is assigned), a temporary file is held
     * in COMMIT_READY or COMMIT_WAITING, a lease wait only in COMMIT_WAITING.
     */
    ghost predicate Tracked()
      reads this`pendingRequests, this`pendingWrites, this`commitLeaderLeaseTimeoutMap, raft`openTxs
    {
      && (forall id :: id in pendingRequests ==> InState(raft.openTxs, id, {CommitReady}))
      && (forall id :: id in pendingWrites ==> WriteOf(pendingWrites, id) && InState(raft.openTxs, id, {CommitReady, CommitWaiting}))
      && (forall id :: id in commitLeaderLeaseTimeoutMap ==> InState(raft.openTxs, id, {CommitWaiting}))
    }

    /** Every transaction this role would rebase is based on the last log entry. */
    ghost predicate Rebased()
      reads this`pendingRequests, raft`lastAppliedIndex, raft`lastAppliedTerm, raft`log, raft`openTxs
    {
      forall id :: id in raft.openTxs && ShouldRebase(raft.openTxs[id]) ==>
        raft.openTxs[id].baseIndex == raft.LastLogIndex() && raft.openTxs[id].baseTerm == raft.LastLogTerm()
    }

    /** A transaction with an outstanding commit request keeps its base until the leader answers. */
    predicate ShouldRebase(tx: Tx)
      reads this`pendingRequests
      ensures ShouldRebase(tx) ==> tx.rebasable && tx.state != CommitWaiting && tx.state != Completed
      ensures tx.id in pendingRequests ==> !ShouldRebase(tx)
    {
      Rebasable(tx) && tx.id !in pendingRequests
    }

    /** Ids of the open transactions this role would rebase. */
    function RebaseSet(): set<TxId>
      reads this`pendingRequests, raft`openTxs
    {
      set id | id in raft.openTxs && ShouldRebase(raft.openTxs[id])
    }

    /** The tables an AppendRequest may change. */
    ghost function Tables(): TxTables
      reads raft`log, raft`currentConfig, raft`openTxs,
            this`pendingRequests, this`pendingWrites, this`commitLeaderLeaseTimeoutMap
    {
      TxTables(raft.log, raft.currentConfig, raft.openTxs, pendingRequests, pendingWrites, commitLeaderLeaseTimeoutMap)
    }

    constructor (raft: Node, leader: Option<NodeId>, leaderAddress: Option<string>, votedFor: Option<NodeId>)
      requires leaderAddress.None? ==> leader.None?
      requires raft.Valid()
      requires forall id :: id in raft.openTxs && Rebasable(raft.openTxs[id]) ==>
                 raft.openTxs[id].baseIndex == raft.LastLogIndex() && raft.openTxs[id].baseTerm == raft.LastLogTerm()
      ensures Valid()
      ensures this.raft == raft && this.leader == leader && this.leaderAddress == leaderAddress && this.votedFor == votedFor
      ensures snapshotReceive.None? && pendingRequests == {} && pendingWrites == map[] && commitLeaderLeaseTimeoutMap == map[]
      ensures lastLeaderMessageTime.None? && leaderLeaseTimeout.None? && probeTimestamps.None?
    {
      this.raft := raft;
      this.leader := leader;
      this.leaderAddress := leaderAddress;
      this.votedFor := votedFor;
      snapshotReceive := None;
      pendingRequests := {};
      pendingWrites := map[];
      commitLeaderLeaseTimeoutMap := map[];
      lastLeaderMessageTime := None;
      leaderLeaseTimeout := None;
      probeTimestamps := None;
    }

    /** Record (or forget) the snapshot install in progress. */
    method SetSnapshotReceive(r: Option<SnapshotReceive>)
      requires Valid() && (r.Some? ==> r.value.nextPairIndex >= 1)
      modifies this`snapshotReceive
      ensures Valid() && snapshotReceive == r
    {
      snapshotReceive := r;
    }

    /** Record (or forget) the leader and the address it is reached at. */
    method SetLeader(l: Option<NodeId>, address: Option<string>)
      requires Valid() && (address.None? ==> l.None?)
      modifies this`leader, this`leaderAddress
      ensures Valid() && leader == l && leaderAddress == address
    {
      leader, leaderAddress := l, address;
    }

    // Transactions

    /** Forget a transaction in every tracking table; harmless when it is in none of them. */
    method CleanupForTransaction(txId: TxId)
      modifies this`pendingRequests, this`pendingWrites, this`commitLeaderLeaseTimeoutMap
      ensures pendingRequests == old(pendingRequests) - {txId}
      ensures pendingWrites == old(pendingWrites) - {txId}
      ensures commitLeaderLeaseTimeoutMap == old(commitLeaderLeaseTimeoutMap) - {txId}
      ensures old(Valid()) && (txId !in raft.openTxs || !Rebasable(raft.openTxs[txId])) ==> Valid()
    {
      pendingRequests := pendingRequests - {txId};
      pendingWrites := pendingWrites - {txId};
      commitLeaderLeaseTimeoutMap := commitLeaderLeaseTimeoutMap - {txId};
    }

    /** Fail open transactions with a retryable error and drop them from every tracking table. */
    method FailTransactions(ids: set<TxId>, reason: string)
      requires Valid()
      modifies raft`openTxs, this`pendingRequests, this`pendingWrites, this`commitLeaderLeaseTimeoutMap
      ensures Valid()
      ensures raft.openTxs == FailAll(old(raft.openTxs), ids, reason)
      ensures pendingRequests == old(pendingRequests) - ids
      ensures pendingWrites == old(pendingWrites) - ids
      ensures commitLeaderLeaseTimeoutMap == old(commitLeaderLeaseTimeoutMap) - ids
      ensures RebaseSet() == old(RebaseSet()) - ids
      ensures Deposed() == old(Deposed()) - ids
    {
      ghost var before := RebaseSet();
      ghost var deposed := Deposed();
      raft.openTxs := FailAll(raft.openTxs, ids, reason);
      pendingRequests := pendingRequests - ids;
      pendingWrites := pendingWrites - ids;
      commitLeaderLeaseTimeoutMap := commitLeaderLeaseTimeoutMap - ids;
      forall id
        ensures id in RebaseSet() <==> id in before - ids
        ensures id in Deposed() <==> id in deposed - ids
      {
        if id in raft.openTxs && id !in ids {
          assert raft.openTxs[id] == old(raft.openTxs)[id];
        }
      }
    }

    /** With nothing left to rebase, the rebase invariant holds whatever the log. */
    lemma NothingToRebase()
      requires RebaseSet() == {}
      ensures Rebased()
    {
      assert forall id :: id in raft.openTxs && ShouldRebase(raft.openTxs[id]) ==> id in RebaseSet();
    }

    /** Re-base every rebasable transaction on the (new) last log entry. */
    method RebaseTransactions()
      requires raft.Valid()
      modifies raft`openTxs
      ensures raft.openTxs == RebaseAll(old(raft.openTxs), old(RebaseSet()), raft.LastLogTerm(), raft.LastLogIndex())
      ensures raft.Valid() && Rebased()
      ensures old(Tracked()) ==> Tracked()
    {
      raft.openTxs := RebaseAll(raft.openTxs, RebaseSet(), raft.LastLogTerm(), raft.LastLogIndex());
    }

    /**
     * The lease gate for linearizable reads: no requirement means yes, an unknown
     * leader lease means no, otherwise the lease must have reached the requirement.
     */
    predicate MayCommit(txId: TxId)
      reads this`commitLeaderLeaseTimeoutMap, this`leaderLeaseTimeout
      ensures txId !in commitLeaderLeaseTimeoutMap ==> MayCommit(txId)
      ensures txId in commitLeaderLeaseTimeoutMap && leaderLeaseTimeout.None? ==> !MayCommit(txId)
      ensures txId in commitLeaderLeaseTimeoutMap && leaderLeaseTimeout.Some? ==>
                (MayCommit(txId) <==> leaderLeaseTimeout.value >= commitLeaderLeaseTimeoutMap[txId])
    {
      var required := if txId in commitLeaderLeaseTimeoutMap then Some(commitLeaderLeaseTimeoutMap[txId]) else None;
      LeaseAllows(required, leaderLeaseTimeout)
    }

    /**
     * Leader stickiness: a vote request may not advance this node's term while
     * the leader was heard from within the minimum election timeout.
     */
    predicate MayAdvanceCurrentTerm(msg: Message, now: Timestamp)
      reads this`lastLeaderMessageTime
      ensures !MayAdvanceCurrentTerm(msg, now) <==>
                msg.RequestVote? && lastLeaderMessageTime.Some? &&
                now - lastLeaderMessageTime.value < raft.minElectionTimeout
    {
      !(msg.RequestVote? && lastLeaderMessageTime.Some? &&
        lastLeaderMessageTime.value - now > -raft.minElectionTimeout)
    }

    // Ready transactions

    /** Complete a transaction successfully and forget it in every tracking table. */
    method SucceedTransaction(txId: TxId)
      requires Valid() && txId in raft.openTxs
      modifies raft`openTxs, this`pendingRequests, this`pendingWrites, this`commitLeaderLeaseTimeoutMap
      ensures Valid()
      ensures raft.openTxs == old(raft.openTxs)[txId := old(raft.openTxs)[txId].(state := Completed, error := None)]
      ensures pendingRequests == old(pendingRequests) - {txId}
      ensures pendingWrites == old(pendingWrites) - {txId}
      ensures commitLeaderLeaseTimeoutMap == old(commitLeaderLeaseTimeoutMap) - {txId}
    {
      raft.openTxs := raft.openTxs[txId := raft.openTxs[txId].(state := Completed, error := None)];
      pendingRequests := pendingRequests - {txId};
      pendingWrites := pendingWrites - {txId};
      commitLeaderLeaseTimeoutMap := commitLeaderLeaseTimeoutMap - {txId};
    }

    /**
     * A COMMIT_READY transaction on a node that has no snapshot and no log. A read-only one
     * succeeds at once; one whose config change adds this node founds a new cluster: a fresh
     * non-zero cluster id if there is none, the next term, and the transaction's entry at
     * index 1, committed at once. `joinOk`, `termOk` and `appendOk` are whether persisting
     * the cluster id, the term and the entry succeeded.
     */
    method Bootstrap(txId: TxId, readOnly: bool, joinOk: bool, termOk: bool, appendOk: bool) returns (outcome: ReadyOutcome)
      requires Valid() && !raft.IsConfigured()
      requires txId in raft.openTxs && raft.openTxs[txId].state == CommitReady && txId !in pendingRequests
      modifies raft`openTxs, this`pendingRequests, this`pendingWrites, this`commitLeaderLeaseTimeoutMap,
               raft`clusterId, raft`currentTerm, raft`log, raft`currentConfig, raft`commitIndex, raft`requested
      ensures Valid()
      ensures outcome.Succeeded? || outcome.Bootstrapped? || outcome.Failed?
      ensures readOnly ==>
                && outcome == Succeeded
                && raft.openTxs == old(raft.openTxs)[txId := old(raft.openTxs)[txId].(state := Completed, error := None)]
                && pendingRequests == old(pendingRequests)
                && pendingWrites == old(pendingWrites) - {txId}
                && commitLeaderLeaseTimeoutMap == old(commitLeaderLeaseTimeoutMap) - {txId}
                && raft.clusterId == old(raft.clusterId) && raft.currentTerm == old(raft.currentTerm)
      ensures !readOnly ==>
                outcome == FoundingOutcome(AddsNode(old(raft.openTxs)[txId].data.configChange, raft.identity), raft.identity,
                                           old(raft.clusterId), joinOk, termOk, appendOk)
      ensures !readOnly && AddsNode(old(raft.openTxs)[txId].data.configChange, raft.identity) ==>
                ClusterClaimed(old(raft.clusterId), old(raft.currentTerm), joinOk, termOk, raft.clusterId, raft.currentTerm)
      ensures !readOnly && !AddsNode(old(raft.openTxs)[txId].data.configChange, raft.identity) ==>
                raft.clusterId == old(raft.clusterId) && raft.currentTerm == old(raft.currentTerm)
      ensures !readOnly && !AddsNode(old(raft.openTxs)[txId].data.configChange, raft.identity) ==>
                outcome == Failed(true, "unconfigured system: an initial configuration change adding the local node (\""
                                        + raft.identity + "\") as the first member of a new cluster is required")
      ensures outcome == Bootstrapped <==>
                && !readOnly && AddsNode(old(raft.openTxs)[txId].data.configChange, raft.identity)
                && (old(raft.clusterId) != 0 || joinOk) && termOk && appendOk
      ensures outcome != Bootstrapped ==> raft.log == old(raft.log) && raft.commitIndex == old(raft.commitIndex)
      ensures outcome != Bootstrapped && !readOnly ==>
                unchanged(raft`openTxs, this`pendingRequests, this`pendingWrites, this`commitLeaderLeaseTimeoutMap)
      ensures outcome == Bootstrapped ==>
                var tx := old(raft.openTxs)[txId];
                && raft.clusterId != 0 && (old(raft.clusterId) != 0 ==> raft.clusterId == old(raft.clusterId))
                && raft.currentTerm == old(raft.currentTerm) + 1
                && raft.log == [LogEntry(raft.currentTerm, tx.data)]
                && raft.LastLogIndex() == 1 && raft.commitIndex == 1 && raft.IsClusterMember()
                && raft.openTxs == RebaseAll(old(raft.openTxs)[txId := tx.(state := CommitWaiting, commitTerm := raft.currentTerm, commitIndex := 1)],
                                             old(RebaseSet()) - {txId}, raft.currentTerm, 1)
                && raft.requested == old(raft.requested) + {TriggerKeyWatches}
    {
      if readOnly {
        SucceedTransaction(txId);
        return Succeeded;
      }
      outcome := BootstrapCluster(txId, joinOk, termOk, appendOk);
    }

    /** The read-write half of Bootstrap: only a change adding this node can found a cluster. */
    method BootstrapCluster(txId: TxId, joinOk: bool, termOk: bool, appendOk: bool) returns (outcome: ReadyOutcome)
      requires Valid() && !raft.IsConfigured()
      requires txId in raft.openTxs && raft.openTxs[txId].state == CommitReady && txId !in pendingRequests
      modifies raft`openTxs, raft`clusterId, raft`currentTerm, raft`log, raft`currentConfig, raft`commitIndex, raft`requested
      ensures Valid()
      ensures outcome.Bootstrapped? || outcome.Failed?
      ensures !AddsNode(old(raft.openTxs)[txId].data.configChange, raft.identity) ==>
                outcome == Failed(true, "unconfigured system: an initial configuration change adding the local node (\""
                                        + raft.identity + "\") as the first member of a new cluster is required")
      ensures outcome == Bootstrapped <==>
                && AddsNode(old(raft.openTxs)[txId].data.configChange, raft.identity)
                && (old(raft.clusterId) != 0 || joinOk) && termOk && appendOk
      ensures outcome == FoundingOutcome(AddsNode(old(raft.openTxs)[txId].data.configChange, raft.identity), raft.identity,
                                         old(raft.clusterId), joinOk, termOk, appendOk)
      ensures AddsNode(old(raft.openTxs)[txId].data.configChange, raft.identity) ==>
                ClusterClaimed(old(raft.clusterId), old(raft.currentTerm), joinOk, termOk, raft.clusterId, raft.currentTerm)
      ensures !AddsNode(old(raft.openTxs)[txId].data.configChange, raft.identity) ==>
                raft.clusterId == old(raft.clusterId) && raft.currentTerm == old(raft.currentTerm)
      ensures outcome != Bootstrapped ==>
                raft.log == old(raft.log) && raft.commitIndex == old(raft.commitIndex) && raft.openTxs == old(raft.openTxs)
      ensures outcome == Bootstrapped ==>
                var tx := old(raft.openTxs)[txId];
                && raft.clusterId != 0 && (old(raft.clusterId) != 0 ==> raft.clusterId == old(raft.clusterId))
                && raft.currentTerm == old(raft.currentTerm) + 1
                && raft.log == [LogEntry(raft.currentTerm, tx.data)]
                && raft.LastLogIndex() == 1 && raft.commitIndex == 1 && raft.IsClusterMember()
                && raft.openTxs == RebaseAll(old(raft.openTxs)[txId := tx.(state := CommitWaiting, commitTerm := raft.currentTerm, commitIndex := 1)],
                                             old(RebaseSet()) - {txId}, raft.currentTerm, 1)
                && raft.requested == old(raft.requested) + {TriggerKeyWatches}
    {
      var tx := raft.openTxs[txId];
      if !AddsNode(tx.data.configChange, raft.identity) {
        return Failed(true, "unconfigured system: an initial configuration change adding the local node (\""
                            + raft.identity + "\") as the first member of a new cluster is required");
      }
      var error := ClaimClusterAndTerm(joinOk, termOk);
      if error.Some? {
        return Failed(false, error.value);
      }
      if !appendOk {
        return Failed(false, "error attempting to persist transaction");
      }
      assert raft.openTxs == old(raft.openTxs) && RebaseSet() == old(RebaseSet()) && !raft.IsConfigured();
      FoundCluster(txId);
      outcome := Bootstrapped;
    }

    /** Pick a cluster ID when there is none yet, then start a new term; either step can fail to persist. */
    method ClaimClusterAndTerm(joinOk: bool, termOk: bool) returns (error: Option<string>)
      requires Valid()
      modifies raft`clusterId, raft`currentTerm
      ensures Valid()
      ensures error.None? <==> (old(raft.clusterId) != 0 || joinOk) && termOk
      ensures error.Some? ==>
                error.value == if old(raft.clusterId) == 0 && !joinOk then "error persisting new cluster ID" else "error advancing term"
      ensures old(raft.clusterId) != 0 ==> raft.clusterId == old(raft.clusterId)
      ensures old(raft.clusterId) == 0 ==> (raft.clusterId != 0 <==> joinOk)
      ensures raft.currentTerm == if error.None? then old(raft.currentTerm) + 1 else old(raft.currentTerm)
    {
      if raft.clusterId == 0 {
        assert IsClusterId(1);
        var newClusterId :| IsClusterId(newClusterId);
        var ok := raft.JoinCluster(newClusterId, joinOk);
        if !ok {
          return Some("error persisting new cluster ID");
        }
        assert IsClusterId(newClusterId);
      }
      var ok := raft.AdvanceTerm(raft.currentTerm + 1, termOk);
      if !ok {
        return Some("error advancing term");
      }
      return None;
    }

    /** Append the founding transaction's entry at index 1, commit it, and rebase the rest on it. */
    method FoundCluster(txId: TxId)
      requires Valid() && !raft.IsConfigured()
      requires txId in raft.openTxs && raft.openTxs[txId].state == CommitReady && txId !in pendingRequests
      requires AddsNode(raft.openTxs[txId].data.configChange, raft.identity)
      modifies raft`openTxs, raft`log, raft`currentConfig, raft`commitIndex, raft`requested
      ensures Valid()
      ensures var tx := old(raft.openTxs)[txId];
              && raft.log == [LogEntry(raft.currentTerm, tx.data)]
              && raft.LastLogIndex() == 1 && raft.commitIndex == 1 && raft.IsClusterMember()
              && raft.openTxs == RebaseAll(old(raft.openTxs)[txId := tx.(state := CommitWaiting, commitTerm := raft.currentTerm, commitIndex := 1)],
                                           old(RebaseSet()) - {txId}, raft.currentTerm, 1)
              && raft.requested == old(raft.requested) + {TriggerKeyWatches}
    {
      StartLog(txId);
      raft.commitIndex := raft.LastLogIndex();
      raft.RequestService(TriggerKeyWatches);
    }

    /** The first half of FoundCluster: the founding entry becomes the whole log, and every other transaction is rebased on it. */
    method StartLog(txId: TxId)
      requires Valid() && !raft.IsConfigured()
      requires txId in raft.openTxs && raft.openTxs[txId].state == CommitReady && txId !in pendingRequests
      requires AddsNode(raft.openTxs[txId].data.configChange, raft.identity)
      modifies raft`openTxs, raft`log, raft`currentConfig
      ensures Valid()
      ensures var tx := old(raft.openTxs)[txId];
              && raft.log == [LogEntry(raft.currentTerm, tx.data)]
              && raft.LastLogIndex() == 1 && raft.IsClusterMember()
              && raft.openTxs == RebaseAll(old(raft.openTxs)[txId := tx.(state := CommitWaiting, commitTerm := raft.currentTerm, commitIndex := 1)],
                                           old(RebaseSet()) - {txId}, raft.currentTerm, 1)
    {
      var tx := raft.openTxs[txId];
      raft.AppendLogEntry(raft.currentTerm, tx.data);
      assert raft.log == [LogEntry(raft.currentTerm, tx.data)];
      assert RebaseSet() == old(RebaseSet()) && Tracked() && raft.LastLogIndex() == 1 && raft.LastLogTerm() == raft.currentTerm;
      AdvanceReadyTransaction(txId, raft.currentTerm, raft.LastLogIndex());
      RebaseTransactions();
    }

    /** A COMMIT_READY transaction learns where its entry is: it now waits for that entry to commit. */
    method AdvanceReadyTransaction(txId: TxId, term: int, index: int)
      requires raft.Valid() && Tracked()
      requires txId in raft.openTxs && raft.openTxs[txId].state == CommitReady && txId !in pendingRequests
      modifies raft`openTxs
      ensures raft.Valid() && Tracked()
      ensures raft.openTxs == old(raft.openTxs)[txId := old(raft.openTxs)[txId].(state := CommitWaiting, commitTerm := term, commitIndex := index)]
      ensures RebaseSet() == old(RebaseSet()) - {txId}
    {
      ghost var rebase := RebaseSet();
      raft.openTxs := raft.openTxs[txId := raft.openTxs[txId].(state := CommitWaiting, commitTerm := term, commitIndex := index)];
      assert RebaseSet() == rebase - {txId};
    }

    /**
     * Send a COMMIT_READY transaction to the known, writable leader. A read-write one
     * first saves its mutations to a temporary file (`writeOk`), kept as a pending write
     * so the leader need not send them back. `sendOk` is whether the transport took the request.
     */
    method SendCommitRequest(txId: TxId, readOnly: bool, writeOk: bool, sendOk: bool) returns (outcome: ReadyOutcome)
      requires Valid() && leader.Some?
      requires txId in raft.openTxs && raft.openTxs[txId].state == CommitReady && txId !in pendingRequests
      modifies this`pendingRequests, this`pendingWrites
      ensures Valid()
      ensures !readOnly && !writeOk ==>
                && outcome == Failed(false, "error saving transaction mutations to temporary file")
                && pendingRequests == old(pendingRequests) && pendingWrites == old(pendingWrites)
      ensures readOnly || writeOk ==>
                var tx := raft.openTxs[txId];
                var request := CommitRequest(raft.clusterId, raft.identity, leader.value, raft.currentTerm,
                                             txId, tx.baseTerm, tx.baseIndex, if readOnly then None else Some(tx.data));
                && pendingRequests == old(pendingRequests) + {txId}
                && pendingWrites == (if readOnly then old(pendingWrites) else old(pendingWrites)[txId := PendingWrite(txId, tx.data)])
                && outcome == if sendOk then Sent(request) else Failed(true, "error sending commit request to leader")
    {
      var tx := raft.openTxs[txId];
      if !readOnly {
        if !writeOk {
          return Failed(false, "error saving transaction mutations to temporary file");
        }
        pendingWrites := pendingWrites[txId := PendingWrite(txId, tx.data)];
      }
      pendingRequests := pendingRequests + {txId};
      var request := CommitRequest(raft.clusterId, raft.identity, leader.value, raft.currentTerm,
                                   txId, tx.baseTerm, tx.baseIndex, if readOnly then None else Some(tx.data));
      outcome := if sendOk then Sent(request) else Failed(true, "error sending commit request to leader");
    }

    /**
     * Offer a COMMIT_READY transaction for commit: leave it alone while its request is
     * outstanding, while a snapshot is being installed, or while no leader can take it;
     * bootstrap a new cluster on an unconfigured node; otherwise send it to the leader.
     * `leaderBusy` is whether the connection to the leader is still transmitting.
     */
    method CheckReadyLinearizableTransaction(txId: TxId, readOnly: bool, leaderBusy: bool, joinOk: bool, termOk: bool,
                                             appendOk: bool, writeOk: bool, sendOk: bool)
      returns (outcome: ReadyOutcome)
      requires Valid() && txId in raft.openTxs && raft.openTxs[txId].state == CommitReady
      modifies raft`openTxs, this`pendingRequests, this`pendingWrites, this`commitLeaderLeaseTimeoutMap,
               raft`clusterId, raft`currentTerm, raft`log, raft`currentConfig, raft`commitIndex, raft`requested
      ensures Valid()
      ensures old(txId in pendingRequests || snapshotReceive.Some?) ==> outcome == LeftAlone
      ensures old(raft.IsConfigured()) && (old(leader).None? || leaderBusy) ==> outcome == LeftAlone
      ensures outcome == LeftAlone ==>
                unchanged(raft`openTxs, this`pendingRequests, this`pendingWrites, this`commitLeaderLeaseTimeoutMap,
                          raft`clusterId, raft`currentTerm, raft`log, raft`currentConfig, raft`commitIndex, raft`requested)
      ensures old(raft.IsConfigured()) ==>
                unchanged(raft`openTxs, raft`clusterId, raft`currentTerm, raft`log, raft`currentConfig, raft`commitIndex,
                          raft`requested, this`commitLeaderLeaseTimeoutMap)
      ensures outcome.Sent? ==>
                && leader.Some? && outcome.request.CommitRequest? && outcome.request.recipientId == leader.value
                && outcome.request.txId == txId && txId in pendingRequests
                && outcome.request.baseTerm == raft.openTxs[txId].baseTerm && outcome.request.baseIndex == raft.openTxs[txId].baseIndex
      ensures !old(txId in pendingRequests || snapshotReceive.Some?) && !old(raft.IsConfigured()) ==>
                && (readOnly ==> outcome == Succeeded)
                && (outcome == Bootstrapped <==>
                      && !readOnly && AddsNode(old(raft.openTxs)[txId].data.configChange, raft.identity)
                      && (old(raft.clusterId) != 0 || joinOk) && termOk && appendOk)
      ensures old(raft.IsConfigured()) && !old(txId in pendingRequests || snapshotReceive.Some?) && old(leader).Some? && !leaderBusy ==>
                (outcome.Sent? <==> (readOnly || writeOk) && sendOk)
      ensures outcome == Bootstrapped ==>
                && !old(raft.IsConfigured()) && raft.clusterId != 0 && raft.currentTerm == old(raft.currentTerm) + 1
                && raft.LastLogIndex() == 1 && raft.commitIndex == 1 && raft.IsClusterMember()
                && txId in raft.openTxs && raft.openTxs[txId].state == CommitWaiting
      ensures outcome == Bootstrapped ==>
                var tx := old(raft.openTxs)[txId];
                && raft.log == [LogEntry(raft.currentTerm, tx.data)]
                && raft.openTxs == RebaseAll(old(raft.openTxs)[txId := tx.(state := CommitWaiting, commitTerm := raft.currentTerm, commitIndex := 1)],
                                             old(RebaseSet()) - {txId}, raft.currentTerm, 1)
                && raft.requested == old(raft.requested) + {TriggerKeyWatches}
      // An unconfigured node: complete a read-only transaction, or try to found a cluster.
      ensures !old(txId in pendingRequests || snapshotReceive.Some?) && !old(raft.IsConfigured()) && readOnly ==>
                && raft.openTxs == old(raft.openTxs)[txId := old(raft.openTxs)[txId].(state := Completed, error := None)]
                && pendingRequests == old(pendingRequests)
                && pendingWrites == old(pendingWrites) - {txId}
                && commitLeaderLeaseTimeoutMap == old(commitLeaderLeaseTimeoutMap) - {txId}
                && raft.clusterId == old(raft.clusterId) && raft.currentTerm == old(raft.currentTerm)
      ensures !old(txId in pendingRequests || snapshotReceive.Some?) && !old(raft.IsConfigured()) && !readOnly ==>
                var adds := AddsNode(old(raft.openTxs)[txId].data.configChange, raft.identity);
                && outcome == FoundingOutcome(adds, raft.identity, old(raft.clusterId), joinOk, termOk, appendOk)
                && (adds ==> ClusterClaimed(old(raft.clusterId), old(raft.currentTerm), joinOk, termOk, raft.clusterId, raft.currentTerm))
                && (!adds ==> raft.clusterId == old(raft.clusterId) && raft.currentTerm == old(raft.currentTerm))
                && (outcome != Bootstrapped ==>
                      && raft.log == old(raft.log) && raft.commitIndex == old(raft.commitIndex)
                      && unchanged(raft`openTxs, this`pendingRequests, this`pendingWrites, this`commitLeaderLeaseTimeoutMap))
      // A configured node with a known, idle leader: keep the mutations, record and send the request.
      ensures !old(txId in pendingRequests || snapshotReceive.Some?) && old(raft.IsConfigured()) && leader.Some? && !leaderBusy ==>
                && (!readOnly && !writeOk ==>
                      && outcome == Failed(false, "error saving transaction mutations to temporary file")
                      && pendingRequests == old(pendingRequests) && pendingWrites == old(pendingWrites))
                && (readOnly || writeOk ==>
                      var tx := raft.openTxs[txId];
                      var request := CommitRequest(raft.clusterId, raft.identity, leader.value, raft.currentTerm,
                                                   txId, tx.baseTerm, tx.baseIndex, if readOnly then None else Some(tx.data));
                      && pendingRequests == old(pendingRequests) + {txId}
                      && pendingWrites == (if readOnly then old(pendingWrites) else old(pendingWrites)[txId := PendingWrite(txId, tx.data)])
                      && outcome == if sendOk then Sent(request) else Failed(true, "error sending commit request to leader"))
    {
      if txId in pendingRequests || snapshotReceive.Some? {
        return LeftAlone;
      }
      if !raft.IsConfigured() {
        outcome := Bootstrap(txId, readOnly, joinOk, termOk, appendOk);
        return;
      }
      outcome := OfferToLeader(txId, readOnly, leaderBusy, writeOk, sendOk);
    }

    /** The configured case of CheckReadyLinearizableTransaction: send the commit request to a known, idle leader. */
    method OfferToLeader(txId: TxId, readOnly: bool, leaderBusy: bool, writeOk: bool, sendOk: bool) returns (outcome: ReadyOutcome)
      requires Valid() && txId in raft.openTxs && raft.openTxs[txId].state == CommitReady && txId !in pendingRequests
      modifies this`pendingRequests, this`pendingWrites
      ensures Valid()
      ensures outcome.LeftAlone? || outcome.Sent? || outcome.Failed?
      ensures leader.None? || leaderBusy ==> outcome == LeftAlone
      ensures outcome == LeftAlone ==> unchanged(this`pendingRequests, this`pendingWrites)
      ensures leader.Some? && !leaderBusy ==> (outcome.Sent? <==> (readOnly || writeOk) && sendOk)
      ensures leader.Some? && !leaderBusy && !readOnly && !writeOk ==>
                && outcome == Failed(false, "error saving transaction mutations to temporary file")
                && pendingRequests == old(pendingRequests) && pendingWrites == old(pendingWrites)
      ensures leader.Some? && !leaderBusy && (readOnly || writeOk) ==>
                var tx := raft.openTxs[txId];
                var request := CommitRequest(raft.clusterId, raft.identity, leader.value, raft.currentTerm,
                                             txId, tx.baseTerm, tx.baseIndex, if readOnly then None else Some(tx.data));
                && pendingRequests == old(pendingRequests) + {txId}
                && pendingWrites == (if readOnly then old(pendingWrites) else old(pendingWrites)[txId := PendingWrite(txId, tx.data)])
                && outcome == if sendOk then Sent(request) else Failed(true, "error sending commit request to leader")
      ensures outcome.Sent? ==>
                && leader.Some? && outcome.request.CommitRequest? && outcome.request.recipientId == leader.value
                && outcome.request.txId == txId && txId in pendingRequests
                && outcome.request.baseTerm == raft.openTxs[txId].baseTerm && outcome.request.baseIndex == raft.openTxs[txId].baseIndex
    {
      if leader.None? || leaderBusy {
        return LeftAlone;
      }
      outcome := SendCommitRequest(txId, readOnly, writeOk, sendOk);
    }

    // Leaving the follower role

    /** Transactions waiting for the leader lease of the leader being left behind. */
    function LeaseWaiters(): set<TxId>
      reads raft`openTxs, this`commitLeaderLeaseTimeoutMap
    {
      set id | id in raft.openTxs && raft.openTxs[id].state == CommitWaiting && id in commitLeaderLeaseTimeoutMap
    }

    /** Rebasable transactions that are not based on the last log entry. */
    function Deposed(): set<TxId>
      reads raft`openTxs, raft`lastAppliedIndex, raft`lastAppliedTerm, raft`log
    {
      set id | id in raft.openTxs && Rebasable(raft.openTxs[id])
                 && (raft.openTxs[id].baseIndex != raft.LastLogIndex() || raft.openTxs[id].baseTerm != raft.LastLogTerm())
    }

    /**
     * A rebasable transaction can lag behind the log only while its commit request is
     * outstanding, so such transactions are exactly the COMMIT_READY ones awaiting a response.
     */
    lemma DeposedArePending()
      requires Valid()
      ensures Deposed() <= pendingRequests
      ensures forall id :: id in Deposed() ==> raft.openTxs[id].state == CommitReady
    {
      forall id | id in Deposed()
        ensures id in pendingRequests
      {
        assert !ShouldRebase(raft.openTxs[id]);
      }
    }

    /** Forget every outstanding commit request and pending write, once nothing lags behind the log. */
    method ClearRequests()
      requires Valid() && Deposed() == {}
      modifies this`pendingRequests, this`pendingWrites
      ensures Valid() && pendingRequests == {} && pendingWrites == map[]
    {
      pendingRequests := {};
      pendingWrites := map[];
      forall id | id in raft.openTxs && ShouldRebase(raft.openTxs[id])
        ensures raft.openTxs[id].baseIndex == raft.LastLogIndex() && raft.openTxs[id].baseTerm == raft.LastLogTerm()
      {
        assert id !in Deposed();
      }
    }

    /**
     * Leaving the follower role: abandon a snapshot install, fail the transactions that
     * waited for the old leader's lease or for its commit response, and forget every
     * outstanding request. Afterwards every rebasable transaction is based on the last entry.
     */
    method Shutdown()
      requires Valid()
      modifies this`snapshotReceive, raft`stagingDirty, raft`openTxs,
               this`pendingRequests, this`pendingWrites, this`commitLeaderLeaseTimeoutMap
      ensures Valid()
      ensures snapshotReceive.None? && raft.stagingDirty == (old(raft.stagingDirty) && old(snapshotReceive).None?)
      ensures raft.openTxs == FailAll(FailAll(old(raft.openTxs), old(LeaseWaiters()), "leader was deposed during leader lease timeout wait"),
                                      old(Deposed()), "leader was deposed before commit response received")
      ensures pendingRequests == {} && pendingWrites == map[] && commitLeaderLeaseTimeoutMap == map[]
      ensures forall id :: id in raft.openTxs && Rebasable(raft.openTxs[id]) ==>
                raft.openTxs[id].baseIndex == raft.LastLogIndex() && raft.openTxs[id].baseTerm == raft.LastLogTerm()
    {
      CancelSnapshotInstall();
      FailStranded();
    }

    /** The transaction part of leaving the role: see Shutdown. */
    method FailStranded()
      requires Valid()
      modifies raft`openTxs, this`pendingRequests, this`pendingWrites, this`commitLeaderLeaseTimeoutMap
      ensures Valid()
      ensures raft.openTxs == FailAll(FailAll(old(raft.openTxs), old(LeaseWaiters()), "leader was deposed during leader lease timeout wait"),
                                      old(Deposed()), "leader was deposed before commit response received")
      ensures pendingRequests == {} && pendingWrites == map[] && commitLeaderLeaseTimeoutMap == map[]
      ensures forall id :: id in raft.openTxs && Rebasable(raft.openTxs[id]) ==>
                raft.openTxs[id].baseIndex == raft.LastLogIndex() && raft.openTxs[id].baseTerm == raft.LastLogTerm()
    {
      var waiters := LeaseWaiters();
      ghost var deposed0 := Deposed();
      assert forall id :: id in commitLeaderLeaseTimeoutMap ==> id in waiters;
      assert deposed0 - waiters == deposed0 by {
        forall id | id in waiters
          ensures id !in deposed0
        {
          assert !Rebasable(raft.openTxs[id]);
        }
      }
      FailTransactions(waiters, "leader was deposed during leader lease timeout wait");
      assert commitLeaderLeaseTimeoutMap.Keys == {};
      var deposed := Deposed();
      FailTransactions(deposed, "leader was deposed before commit response received");
      ClearRequests();
      assert forall id :: id in raft.openTxs ==> ShouldRebase(raft.openTxs[id]) == Rebasable(raft.openTxs[id]);
    }

    /** The connection to the leader drained: COMMIT_READY transactions may now be sent. */
    method OutputQueueEmpty(address: string)
      modifies raft`requested
      ensures raft.requested == old(raft.requested) + (if leaderAddress == Some(address) then {CheckReadyTransactions} else {})
    {
      if leaderAddress == Some(address) {
        raft.RequestService(CheckReadyTransactions);
      }
    }

    // Probing

    /** Nodes probed so far (stale probes discarded), or -1 when not probing. */
    method NodesProbed(now: Timestamp) returns (n: int)
      modifies this`probeTimestamps
      ensures old(probeTimestamps).None? ==> n == -1 && probeTimestamps.None?
      ensures old(probeTimestamps).Some? ==>
                && n == ProbedCount(raft.IsClusterMember(), old(probeTimestamps.value), now, raft.maxElectionTimeout)
                && probeTimestamps == Some(FreshProbes(old(probeTimestamps.value), now, raft.maxElectionTimeout))
    {
      if probeTimestamps.None? {
        return -1;
      }
      n := CalculateProbedNodes(now);
    }

    /** Count this node (if a member) and every peer probed recently, discarding stale probes. */
    method CalculateProbedNodes(now: Timestamp) returns (numProbed: nat)
      requires probeTimestamps.Some?
      modifies this`probeTimestamps
      ensures probeTimestamps == Some(FreshProbes(old(probeTimestamps.value), now, raft.maxElectionTimeout))
      ensures numProbed == ProbedCount(raft.IsClusterMember(), old(probeTimestamps.value), now, raft.maxElectionTimeout)
    {
      var kept;
      kept, numProbed := DiscardStaleProbes(probeTimestamps.value, raft.IsClusterMember(), now, raft.maxElectionTimeout);
      probeTimestamps := Some(kept);
    }

    /** Become a candidate once a majority of the current configuration has been probed. */
    method CheckProbeResult(now: Timestamp) returns (change: RoleChange)
      requires probeTimestamps.Some?
      modifies this`probeTimestamps
      ensures probeTimestamps == Some(FreshProbes(old(probeTimestamps.value), now, raft.maxElectionTimeout))
      ensures change == if ProbedCount(raft.IsClusterMember(), old(probeTimestamps.value), now, raft.maxElectionTimeout)
                             >= MajorityOf(|raft.currentConfig|)
                        then BecomeCandidate else StayFollower
    {
      var numProbed := CalculateProbedNodes(now);
      var numRequired := |raft.currentConfig| / 2 + 1;
      change := if numProbed >= numRequired then BecomeCandidate else StayFollower;
    }

    /** Record a peer's ping response while probing, then re-count. */
    method CasePingResponse(msg: Message, now: Timestamp) returns (change: RoleChange)
      requires msg.PingResponse?
      modifies this`probeTimestamps
      ensures old(probeTimestamps).None? ==> probeTimestamps.None? && change == StayFollower
      ensures old(probeTimestamps).Some? ==>
                var probes := old(probeTimestamps.value)[msg.senderId := msg.timestamp];
                probeTimestamps == Some(FreshProbes(probes, now, raft.maxElectionTimeout)) &&
                change == if ProbedCount(raft.IsClusterMember(), probes, now, raft.maxElectionTimeout)
                               >= MajorityOf(|raft.currentConfig|)
                          then BecomeCandidate else StayFollower
    {
      if probeTimestamps.None? {
        return StayFollower;
      }
      probeTimestamps := Some(probeTimestamps.value[msg.senderId := msg.timestamp]);
      change := CheckProbeResult(now);
    }

    // Append requests

    /**
     * The part of an AppendRequest that does not depend on the log: stop probing, learn
     * the cluster id, record the leader (forgetting an old leader's lease), note when the
     * leader was heard from, advance its lease and abandon any snapshot install.
     */
    method HearFromLeader(msg: Message, now: Timestamp, returnAddress: string, joinOk: bool)
      requires Valid() && msg.AppendRequest?
      modifies this`probeTimestamps, raft`clusterId, this`leader, this`leaderAddress, this`leaderLeaseTimeout,
               raft`requested, this`lastLeaderMessageTime, this`snapshotReceive, raft`stagingDirty
      ensures Valid()
      ensures probeTimestamps.None? && snapshotReceive.None? && lastLeaderMessageTime == Some(now)
      ensures raft.clusterId == if old(raft.clusterId) == 0 && joinOk then msg.clusterId else old(raft.clusterId)
      ensures leader == Some(msg.senderId)
      ensures leaderAddress == if old(leader) == Some(msg.senderId) then old(leaderAddress) else Some(returnAddress)
      ensures var lease := if old(leader) == Some(msg.senderId) then old(leaderLeaseTimeout) else None;
              && leaderLeaseTimeout == AdvanceLease(lease, msg.leaderLeaseTimeout)
              && raft.requested == old(raft.requested)
                   + (if old(leader) != Some(msg.senderId) then {CheckReadyTransactions} else {})
                   + (if leaderLeaseTimeout != lease then {CheckWaitingTransactions} else {})
      ensures raft.stagingDirty == (old(raft.stagingDirty) && old(snapshotReceive).None?)
    {
      probeTimestamps := None;
      LearnClusterId(msg.clusterId, joinOk);
      FollowLeader(msg.senderId, returnAddress, msg.leaderLeaseTimeout);
      lastLeaderMessageTime := Some(now);
      CancelSnapshotInstall();
    }

    /** Record the sender as leader, then take the lease timeout it offers. */
    method FollowLeader(sender: NodeId, returnAddress: string, offered: Option<Timestamp>)
      requires Valid()
      modifies this`leader, this`leaderAddress, this`leaderLeaseTimeout, raft`requested
      ensures Valid()
      ensures leader == Some(sender)
      ensures leaderAddress == if old(leader) == Some(sender) then old(leaderAddress) else Some(returnAddress)
      ensures var lease := if old(leader) == Some(sender) then old(leaderLeaseTimeout) else None;
              && leaderLeaseTimeout == AdvanceLease(lease, offered)
              && raft.requested == old(raft.requested)
                   + (if old(leader) != Some(sender) then {CheckReadyTransactions} else {})
                   + (if leaderLeaseTimeout != lease then {CheckWaitingTransactions} else {})
    {
      RecordLeader(sender, returnAddress);
      AdvanceLeaderLease(offered);
    }

    /** Join the cluster a message comes from, unless this node already belongs to one. */
    method LearnClusterId(clusterId: int, joinOk: bool)
      requires Valid()
      modifies raft`clusterId
      ensures Valid()
      ensures raft.clusterId == if old(raft.clusterId) == 0 && joinOk then clusterId else old(raft.clusterId)
    {
      if raft.clusterId == 0 {
        var _ := raft.JoinCluster(clusterId, joinOk);
      }
    }

    /** A message from a new leader: remember it and where it is, and drop the old leader's lease. */
    method RecordLeader(sender: NodeId, returnAddress: string)
      requires Valid()
      modifies this`leader, this`leaderAddress, this`leaderLeaseTimeout, raft`requested
      ensures Valid()
      ensures old(leader) == Some(sender) ==>
                unchanged(this`leader, this`leaderAddress, this`leaderLeaseTimeout, raft`requested)
      ensures old(leader) != Some(sender) ==>
                && leader == Some(sender) && leaderAddress == Some(returnAddress) && leaderLeaseTimeout.None?
                && raft.requested == old(raft.requested) + {CheckReadyTransactions}
    {
      if leader != Some(sender) {
        SetLeader(Some(sender), Some(returnAddress));
        leaderLeaseTimeout := None;
        raft.RequestService(CheckReadyTransactions);
      }
    }

    /** Take a larger leader lease timeout offered by the leader, and have waiting transactions re-checked. */
    method AdvanceLeaderLease(offered: Option<Timestamp>)
      modifies this`leaderLeaseTimeout, raft`requested
      ensures leaderLeaseTimeout == AdvanceLease(old(leaderLeaseTimeout), offered)
      ensures raft.requested == old(raft.requested)
                + (if leaderLeaseTimeout != old(leaderLeaseTimeout) then {CheckWaitingTransactions} else {})
    {
      if offered.Some? && (leaderLeaseTimeout.None? || offered.value > leaderLeaseTimeout.value) {
        leaderLeaseTimeout := offered;
        raft.RequestService(CheckWaitingTransactions);
      }
    }

    /** Abandon the snapshot install in progress, if any, with whatever it staged. */
    method CancelSnapshotInstall()
      requires Valid()
      modifies this`snapshotReceive, raft`stagingDirty
      ensures Valid() && snapshotReceive.None?
      ensures raft.stagingDirty == (old(raft.stagingDirty) && old(snapshotReceive).None?)
    {
      if snapshotReceive.Some? {
        var _ := raft.DiscardFlipFlopped();
        SetSnapshotReceive(None);
      }
    }

    /**
     * Clear away a conflicting entry at `logIndex` and everything after it. The
     * transactions this role would rebase are based on the last entry, which is among
     * those deleted, so they fail first.
     */
    method ReconcileLog(logIndex: int, logTerm: int)
      requires Valid() && raft.lastAppliedIndex < logIndex
      modifies raft`log, raft`currentConfig, raft`openTxs,
               this`pendingRequests, this`pendingWrites, this`commitLeaderLeaseTimeoutMap
      ensures Valid()
      ensures LogReconciled(raft.lastAppliedIndex, old(Tables()), old(RebaseSet()), Tables(), logIndex, logTerm)
      ensures RebaseSet() == if Conflicts(raft.lastAppliedIndex, old(raft.log), logIndex, logTerm) then {} else old(RebaseSet())
    {
      if logIndex <= raft.LastLogIndex() && raft.log[logIndex - raft.lastAppliedIndex - 1].term != logTerm {
        var failed := RebaseSet();
        FailTransactions(failed, "transaction's base log entry overwritten");
        raft.TruncateFrom(logIndex);
        NothingToRebase();
      }
    }

    /** Forget a pending write whose mutations are about to be appended (or lost). */
    method DropPendingWrite(id: TxId)
      requires Valid()
      modifies this`pendingWrites
      ensures Valid() && pendingWrites == old(pendingWrites) - {id}
    {
      pendingWrites := pendingWrites - {id};
    }

    /**
     * The data of the leader's entry at (`logTerm`, `logIndex`): the request's own, or else
     * that of the pending write of the transaction the leader committed there, which is
     * dropped; None when there is none, or when closing its file failed (`closeOk`).
     */
    method EntryDataFor(logIndex: int, logTerm: int, newLogEntry: Option<EntryData>, closeOk: bool)
      returns (data: Option<EntryData>)
      requires Valid()
      modifies this`pendingWrites
      ensures Valid()
      ensures DataTaken(old(pendingWrites), raft.openTxs, pendingWrites, logIndex, logTerm, newLogEntry, closeOk, data)
    {
      if newLogEntry.Some? {
        return newLogEntry;
      }
      if !exists id :: id in pendingWrites && WriteAwaits(pendingWrites, raft.openTxs, id, logTerm, logIndex) {
        return None;
      }
      var id :| id in pendingWrites && WriteAwaits(pendingWrites, raft.openTxs, id, logTerm, logIndex);
      data := if closeOk then Some(pendingWrites[id].data) else None;
      DropPendingWrite(id);
    }

    /** Append an entry at the end of the log and rebase the rebasable transactions onto it. */
    method AppendAndRebase(term: int, data: EntryData)
      requires Valid()
      modifies raft`log, raft`currentConfig, raft`openTxs
      ensures Valid()
      ensures raft.log == old(raft.log) + [LogEntry(term, data)]
      ensures raft.openTxs == RebaseAll(old(raft.openTxs), old(RebaseSet()), term, old(raft.LastLogIndex()) + 1)
    {
      raft.AppendLogEntry(term, data);
      assert RebaseSet() == old(RebaseSet()) && Tracked();
      RebaseTransactions();
    }

    /**
     * Append the leader's entry at lastLogIndex + 1. Its data comes with the request, or
     * else from the pending write of the local transaction the leader committed there;
     * `closeOk` and `appendOk` are whether closing that file and appending succeeded.
     */
    method AppendFromLeader(logIndex: int, logTerm: int, newLogEntry: Option<EntryData>, closeOk: bool, appendOk: bool)
      returns (success: bool)
      requires Valid() && logIndex == raft.LastLogIndex() + 1
      modifies raft`log, raft`currentConfig, raft`openTxs, this`pendingWrites
      ensures Valid()
      ensures EntryAppended(old(Tables()), old(RebaseSet()), Tables(), logIndex, logTerm, newLogEntry, closeOk, appendOk, success)
    {
      ghost var t1 := Tables();
      var data := EntryDataFor(logIndex, logTerm, newLogEntry, closeOk);
      if data.None? || !appendOk {
        success := false;
      } else {
        AppendAndRebase(logTerm, data.value);
        success := true;
      }
      AppendFromData(t1, old(RebaseSet()), Tables(), logIndex, logTerm, newLogEntry, closeOk, appendOk, data, success);
    }

    /**
     * Accept the leader's entry at `logIndex`, whose predecessor the consistency check
     * found: resolve a conflict, then append the entry unless it is already present.
     * `success` is false only when an entry that had to be appended could not be.
     */
    method AcceptFromLeader(logIndex: int, logTerm: int, newLogEntry: Option<EntryData>, closeOk: bool, appendOk: bool)
      returns (success: bool)
      requires Valid() && raft.lastAppliedIndex < logIndex <= raft.LastLogIndex() + 1
      modifies raft`log, raft`currentConfig, raft`openTxs,
               this`pendingRequests, this`pendingWrites, this`commitLeaderLeaseTimeoutMap
      ensures Valid()
      ensures EntryAccepted(raft.lastAppliedIndex, old(Tables()), old(RebaseSet()), Tables(),
                            logIndex, logTerm, newLogEntry, closeOk, appendOk, success)
    {
      ReconcileLog(logIndex, logTerm);
      ghost var t1, rebase1 := Tables(), RebaseSet();
      if logIndex > raft.LastLogIndex() {
        success := AppendFromLeader(logIndex, logTerm, newLogEntry, closeOk, appendOk);
        AcceptByAppend(raft.lastAppliedIndex, old(Tables()), old(RebaseSet()), t1, rebase1, Tables(),
                       logIndex, logTerm, newLogEntry, closeOk, appendOk, success);
      } else {
        success := true;
        AcceptDuplicate(raft.lastAppliedIndex, old(Tables()), old(RebaseSet()), t1, logIndex, logTerm, newLogEntry, closeOk, appendOk);
      }
    }

    /**
     * An AppendRequest from the leader. The reply rejects it, reporting this node's
     * watermark, when the leader's previous entry is missing or has another term;
     * otherwise the entry (unless the request is a probe, or lies under the watermark)
     * is accepted and the commit index advanced.
     */
    method CaseAppendRequest(msg: Message, newLogEntry: Option<EntryData>, now: Timestamp, returnAddress: string,
                             joinOk: bool, closeOk: bool, appendOk: bool)
      returns (reply: Message)
      requires Valid() && msg.AppendRequest?
      modifies this`probeTimestamps, raft`clusterId, this`leader, this`leaderAddress, this`leaderLeaseTimeout,
               raft`requested, this`lastLeaderMessageTime, this`snapshotReceive, raft`stagingDirty,
               raft`log, raft`currentConfig, raft`openTxs, raft`commitIndex,
               this`pendingRequests, this`pendingWrites, this`commitLeaderLeaseTimeoutMap
      ensures Valid()
      ensures probeTimestamps.None? && snapshotReceive.None? && lastLeaderMessageTime == Some(now)
      ensures raft.clusterId == if old(raft.clusterId) == 0 && joinOk then msg.clusterId else old(raft.clusterId)
      ensures leader == Some(msg.senderId)
      ensures leaderAddress == if old(leader) == Some(msg.senderId) then old(leaderAddress) else Some(returnAddress)
      ensures var lease := if old(leader) == Some(msg.senderId) then old(leaderLeaseTimeout) else None;
              && leaderLeaseTimeout == AdvanceLease(lease, msg.leaderLeaseTimeout)
              && raft.requested == old(raft.requested)
                   + (if old(leader) != Some(msg.senderId) then {CheckReadyTransactions} else {})
                   + (if leaderLeaseTimeout != lease then {CheckWaitingTransactions} else {})
                   + (if raft.commitIndex > old(raft.commitIndex)
                      then {CheckWaitingTransactions, TriggerKeyWatches, ApplyCommittedLogEntries} else {})
      ensures raft.stagingDirty == (old(raft.stagingDirty) && old(snapshotReceive).None?)
      ensures reply.AppendResponse?
      ensures reply == AppendResponse(raft.clusterId, raft.identity, msg.senderId, raft.currentTerm, msg.leaderTimestamp,
                                      reply.success, reply.matchIndex, raft.LastLogIndex())
      ensures reply.matchIndex == if !reply.success then raft.lastAppliedIndex
                                  else if msg.probe then msg.prevLogIndex else msg.prevLogIndex + 1
      ensures AppendHandled(raft.lastAppliedIndex, raft.lastAppliedTerm, msg, old(Tables()), old(RebaseSet()), Tables(),
                            old(raft.commitIndex), raft.commitIndex, newLogEntry, closeOk, appendOk, reply.success)
    {
      assert this as object != raft as object;
      HearFromLeader(msg, now, returnAddress, joinOk);
      assert Tables() == old(Tables()) && RebaseSet() == old(RebaseSet()) && raft.commitIndex == old(raft.commitIndex);
      reply := CheckAndAccept(msg, newLogEntry, closeOk, appendOk);
    }

    /**
     * The part of an AppendRequest that follows hearing from the leader: check the previous
     * entry, accept the new one (unless this is a probe or it is already applied), adopt the
     * leader's commit index and build the reply.
     */
    method CheckAndAccept(msg: Message, newLogEntry: Option<EntryData>, closeOk: bool, appendOk: bool)
      returns (reply: Message)
      requires Valid() && msg.AppendRequest?
      modifies raft`log, raft`currentConfig, raft`openTxs, raft`commitIndex, raft`requested,
               this`pendingRequests, this`pendingWrites, this`commitLeaderLeaseTimeoutMap
      ensures Valid()
      ensures raft.requested == if raft.commitIndex > old(raft.commitIndex)
                                then old(raft.requested) + {CheckWaitingTransactions, TriggerKeyWatches, ApplyCommittedLogEntries}
                                else old(raft.requested)
      ensures reply.AppendResponse?
      ensures reply == AppendResponse(raft.clusterId, raft.identity, msg.senderId, raft.currentTerm, msg.leaderTimestamp,
                                      reply.success, reply.matchIndex, raft.LastLogIndex())
      ensures reply.matchIndex == if !reply.success then raft.lastAppliedIndex
                                  else if msg.probe then msg.prevLogIndex else msg.prevLogIndex + 1
      ensures AppendHandled(raft.lastAppliedIndex, raft.lastAppliedTerm, msg, old(Tables()), old(RebaseSet()), Tables(),
                            old(raft.commitIndex), raft.commitIndex, newLogEntry, closeOk, appendOk, reply.success)
    {
      var logIndex := msg.prevLogIndex + 1;
      if PrevEntryMismatch(raft.lastAppliedIndex, raft.lastAppliedTerm, raft.log, msg.prevLogIndex, msg.prevLogTerm) {
        reply := AppendResponse(raft.clusterId, raft.identity, msg.senderId, raft.currentTerm, msg.leaderTimestamp,
                                false, raft.lastAppliedIndex, raft.LastLogIndex());
        return;
      }
      var success := true;
      if msg.prevLogIndex >= raft.lastAppliedIndex && !msg.probe {
        success := AcceptFromLeader(logIndex, msg.logEntryTerm, newLogEntry, closeOk, appendOk);
      }
      AdvanceCommitIndex(msg.leaderCommit);
      if success {
        reply := AppendResponse(raft.clusterId, raft.identity, msg.senderId, raft.currentTerm, msg.leaderTimestamp,
                                true, if msg.probe then logIndex - 1 else logIndex, raft.LastLogIndex());
      } else {
        reply := AppendResponse(raft.clusterId, raft.identity, msg.senderId, raft.currentTerm, msg.leaderTimestamp,
                                false, raft.lastAppliedIndex, raft.LastLogIndex());
      }
    }

    /** Adopt the leader's commit index, capped at the last log entry and never moving back. */
    method AdvanceCommitIndex(leaderCommit: int)
      requires Valid()
      modifies raft`commitIndex, raft`requested
      ensures Valid()
      ensures raft.commitIndex == NewCommitIndex(leaderCommit, old(raft.commitIndex), raft.LastLogIndex())
      ensures Tables() == old(Tables())
      ensures raft.requested == if raft.commitIndex > old(raft.commitIndex)
                                then old(raft.requested) + {CheckWaitingTransactions, TriggerKeyWatches, ApplyCommittedLogEntries}
                                else old(raft.requested)
    {
      var newCommitIndex := Min(Max(leaderCommit, raft.commitIndex), raft.LastLogIndex());
      if newCommitIndex > raft.commitIndex {
        raft.commitIndex := newCommitIndex;
        raft.RequestService(CheckWaitingTransactions);
        raft.RequestService(TriggerKeyWatches);
        raft.RequestService(ApplyCommittedLogEntries);
      }
    }

    // Snapshot install

    /**
     * An InstallSnapshot chunk is dropped when it would move the commit index backwards,
     * or when it neither continues the install in progress nor is the first chunk of one.
     */
    predicate SnapshotChunkIgnored(msg: Message)
      requires msg.InstallSnapshot?
      reads raft`commitIndex, this`snapshotReceive
      ensures msg.snapshotIndex < raft.commitIndex ==> SnapshotChunkIgnored(msg)
      ensures msg.pairIndex == 0 && msg.snapshotIndex >= raft.commitIndex ==> !SnapshotChunkIgnored(msg)
      ensures !SnapshotChunkIgnored(msg) ==> SnapshotContext(msg).nextPairIndex == msg.pairIndex
    {
      || msg.snapshotIndex < raft.commitIndex
      || (msg.pairIndex != 0 && !(snapshotReceive.Some? && ChunkMatches(snapshotReceive.value, msg)))
    }

    /** The install a chunk belongs to: the one in progress if it matches, otherwise a new one. */
    function SnapshotContext(msg: Message): (r: SnapshotReceive)
      requires msg.InstallSnapshot?
      reads this`snapshotReceive
      ensures r.term == msg.snapshotTerm && r.index == msg.snapshotIndex
      ensures r.nextPairIndex == msg.pairIndex || r == SnapshotReceive(msg.snapshotTerm, msg.snapshotIndex, msg.snapshotConfig, 0)
      ensures snapshotReceive.Some? && ChunkMatches(snapshotReceive.value, msg) ==> r == snapshotReceive.value
      ensures !(snapshotReceive.Some? && ChunkMatches(snapshotReceive.value, msg)) ==>
                r == SnapshotReceive(msg.snapshotTerm, msg.snapshotIndex, msg.snapshotConfig, 0)
    {
      if snapshotReceive.Some? && ChunkMatches(snapshotReceive.value, msg) then snapshotReceive.value
      else SnapshotReceive(msg.snapshotTerm, msg.snapshotIndex, msg.snapshotConfig, 0)
    }

    /**
     * One chunk of a snapshot install. `chunkOk` is whether writing its key/value pairs
     * to the staging area succeeded. The last chunk makes the snapshot the live state,
     * with the configuration the install started with, and fails every transaction
     * that this role would rebase.
     */
    method CaseInstallSnapshot(msg: Message, chunkOk: bool)
      requires Valid() && msg.InstallSnapshot?
      modifies this`snapshotReceive, raft`stagingDirty, raft`lastAppliedTerm, raft`lastAppliedIndex,
               raft`lastAppliedConfig, raft`log, raft`commitIndex, raft`currentConfig,
               raft`openTxs, this`pendingRequests, this`pendingWrites, this`commitLeaderLeaseTimeoutMap
      ensures Valid()
      ensures old(SnapshotChunkIgnored(msg)) ==>
                unchanged(this`snapshotReceive, raft`stagingDirty, raft`lastAppliedTerm, raft`lastAppliedIndex,
                          raft`lastAppliedConfig, raft`log, raft`commitIndex, raft`currentConfig, raft`openTxs,
                          this`pendingRequests, this`pendingWrites, this`commitLeaderLeaseTimeoutMap)
      ensures !old(SnapshotChunkIgnored(msg)) && !(chunkOk && msg.lastChunk) ==>
                unchanged(raft`lastAppliedTerm, raft`lastAppliedIndex, raft`lastAppliedConfig, raft`log,
                          raft`commitIndex, raft`currentConfig, raft`openTxs,
                          this`pendingRequests, this`pendingWrites, this`commitLeaderLeaseTimeoutMap)
      ensures !old(SnapshotChunkIgnored(msg)) && !chunkOk ==> snapshotReceive.None? && !raft.stagingDirty
      ensures !old(SnapshotChunkIgnored(msg)) && chunkOk && !msg.lastChunk ==>
                var ctx := old(SnapshotContext(msg));
                snapshotReceive == Some(ctx.(nextPairIndex := ctx.nextPairIndex + 1)) && raft.stagingDirty
      ensures !old(SnapshotChunkIgnored(msg)) && chunkOk && msg.lastChunk ==>
                var ctx := old(SnapshotContext(msg));
                && snapshotReceive.None? && !raft.stagingDirty
                && raft.lastAppliedTerm == msg.snapshotTerm && raft.lastAppliedIndex == msg.snapshotIndex
                && raft.lastAppliedConfig == ctx.config && raft.currentConfig == ctx.config
                && raft.log == [] && raft.commitIndex == msg.snapshotIndex
                && raft.openTxs == FailAll(old(raft.openTxs), old(RebaseSet()), "rec'd snapshot install from leader")
                && pendingRequests == old(pendingRequests) - old(RebaseSet())
                && pendingWrites == old(pendingWrites) - old(RebaseSet())
                && commitLeaderLeaseTimeoutMap == old(commitLeaderLeaseTimeoutMap) - old(RebaseSet())
    {
      if SnapshotChunkIgnored(msg) {
        return;
      }
      var ctx := BeginChunk(msg);
      ApplyChunk(msg, ctx, chunkOk);
    }

    /** Find the install a non-ignored chunk belongs to; a first chunk starts over with an empty staging area. */
    method BeginChunk(msg: Message) returns (ctx: SnapshotReceive)
      requires Receiving() && msg.InstallSnapshot? && !SnapshotChunkIgnored(msg)
      modifies raft`stagingDirty
      ensures ctx == SnapshotContext(msg)
      ensures ctx.nextPairIndex == msg.pairIndex && ctx.index >= raft.commitIndex
      ensures msg.pairIndex == 0 ==> ctx.config == msg.snapshotConfig
      ensures msg.pairIndex == 0 ==> !raft.stagingDirty
      ensures msg.pairIndex != 0 ==> raft.stagingDirty == old(raft.stagingDirty)
    {
      if snapshotReceive.Some? && ChunkMatches(snapshotReceive.value, msg) {
        ctx := snapshotReceive.value;
      } else {
        // A first chunk abandons any other install and any left-over staged content.
        var _ := raft.DiscardFlipFlopped();
        ctx := SnapshotReceive(msg.snapshotTerm, msg.snapshotIndex, msg.snapshotConfig, 0);
      }
    }

    /** Apply the chunk to the staging area, then either wait for the next one or finish the install. */
    method ApplyChunk(msg: Message, ctx: SnapshotReceive, chunkOk: bool)
      requires Valid() && msg.InstallSnapshot?
      requires ctx.term == msg.snapshotTerm && ctx.index == msg.snapshotIndex && ctx.index >= raft.commitIndex
      modifies this`snapshotReceive, raft`stagingDirty, raft`lastAppliedTerm, raft`lastAppliedIndex,
               raft`lastAppliedConfig, raft`log, raft`commitIndex, raft`currentConfig,
               raft`openTxs, this`pendingRequests, this`pendingWrites, this`commitLeaderLeaseTimeoutMap
      ensures Valid()
      ensures !(chunkOk && msg.lastChunk) ==>
                unchanged(raft`lastAppliedTerm, raft`lastAppliedIndex, raft`lastAppliedConfig, raft`log,
                          raft`commitIndex, raft`currentConfig, raft`openTxs,
                          this`pendingRequests, this`pendingWrites, this`commitLeaderLeaseTimeoutMap)
      ensures !chunkOk ==> snapshotReceive.None? && !raft.stagingDirty
      ensures chunkOk && !msg.lastChunk ==>
                snapshotReceive == Some(ctx.(nextPairIndex := ctx.nextPairIndex + 1)) && raft.stagingDirty
      ensures chunkOk && msg.lastChunk ==>
                && snapshotReceive.None? && !raft.stagingDirty
                && raft.lastAppliedTerm == msg.snapshotTerm && raft.lastAppliedIndex == msg.snapshotIndex
                && raft.lastAppliedConfig == ctx.config && raft.currentConfig == ctx.config
                && raft.log == [] && raft.commitIndex == msg.snapshotIndex
                && raft.openTxs == FailAll(old(raft.openTxs), old(RebaseSet()), "rec'd snapshot install from leader")
                && pendingRequests == old(pendingRequests) - old(RebaseSet())
                && pendingWrites == old(pendingWrites) - old(RebaseSet())
                && commitLeaderLeaseTimeoutMap == old(commitLeaderLeaseTimeoutMap) - old(RebaseSet())
    {
      if !chunkOk {
        SetSnapshotReceive(None);
        var _ := raft.DiscardFlipFlopped();
        return;
      }
      raft.stagingDirty := true;
      if !msg.lastChunk {
        SetSnapshotReceive(Some(ctx.(nextPairIndex := ctx.nextPairIndex + 1)));
        return;
      }
      SetSnapshotReceive(None);
      FinishSnapshotInstall(ctx.term, ctx.index, ctx.config);
    }

    /**
     * Make the fully received snapshot the live state and fail the transactions this
     * role would rebase, since their base entry is gone.
     */
    method FinishSnapshotInstall(term: int, index: int, config: map<NodeId, string>)
      requires Valid() && index >= raft.commitIndex
      modifies raft`stagingDirty, raft`lastAppliedTerm, raft`lastAppliedIndex, raft`lastAppliedConfig,
               raft`log, raft`commitIndex, raft`currentConfig,
               raft`openTxs, this`pendingRequests, this`pendingWrites, this`commitLeaderLeaseTimeoutMap
      ensures Valid() && RebaseSet() == {}
      ensures !raft.stagingDirty
      ensures raft.lastAppliedTerm == term && raft.lastAppliedIndex == index && raft.lastAppliedConfig == config
      ensures raft.log == [] && raft.commitIndex == index && raft.currentConfig == config
      ensures raft.openTxs == FailAll(old(raft.openTxs), old(RebaseSet()), "rec'd snapshot install from leader")
      ensures pendingRequests == old(pendingRequests) - old(RebaseSet())
      ensures pendingWrites == old(pendingWrites) - old(RebaseSet())
      ensures commitLeaderLeaseTimeoutMap == old(commitLeaderLeaseTimeoutMap) - old(RebaseSet())
    {
      // The transactions to fail do not depend on the log, so failing them before
      // the flip-flop fails the same ones as failing them after it.
      FailTransactions(RebaseSet(), "rec'd snapshot install from leader");
      raft.FlipFlop(term, index, config);
      NothingToRebase();
    }

    /**
     * Election timeout: forget the leader, then either become a candidate at once
     * (probing disabled) or ping every other node of the configuration and re-count.
     */
    method HandleElectionTimeout(now: Timestamp) returns (change: RoleChange, pings: seq<Message>)
      requires Valid()
      modifies this`leader, this`leaderAddress, this`probeTimestamps
      ensures Valid()
      ensures leader.None? && leaderAddress.None?
      ensures !raft.followerProbingEnabled ==>
                change == BecomeCandidate && pings == [] && probeTimestamps == old(probeTimestamps)
      ensures raft.followerProbingEnabled ==>
                var probes := if old(probeTimestamps).Some? then old(probeTimestamps.value) else map[];
                && IsPingRound(pings, raft.currentConfig.Keys - {raft.identity}, raft.clusterId, raft.identity, raft.currentTerm, now)
                && probeTimestamps == Some(FreshProbes(probes, now, raft.maxElectionTimeout))
                && change == if ProbedCount(raft.IsClusterMember(), probes, now, raft.maxElectionTimeout)
                                  >= MajorityOf(|raft.currentConfig|)
                             then BecomeCandidate else StayFollower
    {
      SetLeader(None, None);
      if !raft.followerProbingEnabled {
        return BecomeCandidate, [];
      }
      change, pings := ProbeRound(now);
    }

    /** Start probing if not already, ping every other configured node, then re-count. */
    method ProbeRound(now: Timestamp) returns (change: RoleChange, pings: seq<Message>)
      modifies this`probeTimestamps
      ensures var probes := if old(probeTimestamps).Some? then old(probeTimestamps.value) else map[];
              && IsPingRound(pings, raft.currentConfig.Keys - {raft.identity}, raft.clusterId, raft.identity, raft.currentTerm, now)
              && probeTimestamps == Some(FreshProbes(probes, now, raft.maxElectionTimeout))
              && change == if ProbedCount(raft.IsClusterMember(), probes, now, raft.maxElectionTimeout)
                                >= MajorityOf(|raft.currentConfig|)
                           then BecomeCandidate else StayFollower
    {
      if probeTimestamps.None? {
        probeTimestamps := Some(map[]);
      }
      pings := PingPeers(raft.currentConfig.Keys, raft.identity, raft.clusterId, raft.currentTerm, now);
      change := CheckProbeResult(now);
    }

    // Commit responses and votes

    /** A CommitResponse is expected for an open COMMIT_READY transaction with a request outstanding. */
    predicate AwaitingResponse(txId: TxId)
      reads this`pendingRequests, raft`openTxs
    {
      txId in raft.openTxs && raft.openTxs[txId].state == CommitReady && txId in pendingRequests
    }

    /**
     * The leader's answer to a commit request: on success the transaction moves to
     * COMMIT_WAITING at the leader's commit position and may have to wait for a lease;
     * otherwise it fails with the leader's message. Unexpected responses are ignored.
     */
    method CaseCommitResponse(msg: Message)
      requires Valid() && msg.CommitResponse?
      modifies raft`openTxs, this`pendingRequests, this`pendingWrites, this`commitLeaderLeaseTimeoutMap
      ensures Valid()
      ensures !old(AwaitingResponse(msg.txId)) ==>
                && raft.openTxs == old(raft.openTxs) && pendingRequests == old(pendingRequests)
                && pendingWrites == old(pendingWrites) && commitLeaderLeaseTimeoutMap == old(commitLeaderLeaseTimeoutMap)
      ensures old(AwaitingResponse(msg.txId)) ==> pendingRequests == old(pendingRequests) - {msg.txId}
      ensures old(AwaitingResponse(msg.txId)) && msg.success ==>
                && raft.openTxs == old(raft.openTxs)[msg.txId := old(raft.openTxs)[msg.txId].(
                     state := CommitWaiting, commitTerm := msg.commitTerm, commitIndex := msg.commitIndex)]
                && pendingWrites == old(pendingWrites)
                && commitLeaderLeaseTimeoutMap ==
                     if msg.commitLeaderLeaseTimeout.Some?
                     then old(commitLeaderLeaseTimeoutMap)[msg.txId := msg.commitLeaderLeaseTimeout.value]
                     else old(commitLeaderLeaseTimeoutMap)
      ensures old(AwaitingResponse(msg.txId)) && !msg.success ==>
                && raft.openTxs == FailAll(old(raft.openTxs), {msg.txId}, msg.errorMessage)
                && pendingWrites == old(pendingWrites) - {msg.txId}
                && commitLeaderLeaseTimeoutMap == old(commitLeaderLeaseTimeoutMap) - {msg.txId}
    {
      if msg.txId !in raft.openTxs || raft.openTxs[msg.txId].state != CommitReady || msg.txId !in pendingRequests {
        return;
      }
      if !msg.success {
        // Failing the transaction also takes it out of pendingRequests.
        FailTransactions({msg.txId}, msg.errorMessage);
        return;
      }
      var tx := raft.openTxs[msg.txId];
      pendingRequests := pendingRequests - {msg.txId};
      raft.openTxs := raft.openTxs[msg.txId := tx.(state := CommitWaiting, commitTerm := msg.commitTerm, commitIndex := msg.commitIndex)];
      if msg.commitLeaderLeaseTimeout.Some? {
        commitLeaderLeaseTimeoutMap := commitLeaderLeaseTimeoutMap[msg.txId := msg.commitLeaderLeaseTimeout.value];
      }
    }

    /**
     * A candidate's vote request: granted when this node has not voted for another peer
     * in this term, the candidate's log is at least as up to date, and a first vote
     * could be persisted (`persistOk`). `joinOk` is whether recording the cluster id succeeded.
     */
    method CaseRequestVote(msg: Message, joinOk: bool, persistOk: bool) returns (reply: Option<Message>)
      requires msg.RequestVote?
      modifies raft`clusterId, this`votedFor
      ensures raft.clusterId == if old(raft.clusterId) == 0 && joinOk then msg.clusterId else old(raft.clusterId)
      ensures var granted := && MayVoteFor(old(votedFor), msg.senderId)
                             && CandidateLogOk(msg.lastLogTerm, msg.lastLogIndex, raft.LastLogTerm(), raft.LastLogIndex())
                             && (old(votedFor).Some? || persistOk);
              && reply == (if granted then Some(GrantVote(raft.clusterId, raft.identity, msg.senderId, raft.currentTerm)) else None)
              && votedFor == (if granted then Some(msg.senderId) else old(votedFor))
    {
      if raft.clusterId == 0 {
        var _ := raft.JoinCluster(msg.clusterId, joinOk);
      }
      var peer := msg.senderId;
      if votedFor.Some? && votedFor.value != peer {
        return None;
      }
      if msg.lastLogTerm < raft.LastLogTerm() || (msg.lastLogTerm == raft.LastLogTerm() && msg.lastLogIndex < raft.LastLogIndex()) {
        return None;
      }
      if votedFor.None? {
        if !persistOk {
          return None;
        }
        votedFor := Some(peer);
      }
      reply := Some(GrantVote(raft.clusterId, raft.identity, peer, raft.currentTerm));
    }
  }

  /** `pings` holds one PingRequest for each of `peers` and nothing else. */
  predicate IsPingRound(pings: seq<Message>, peers: set<NodeId>, clusterId: int, identity: NodeId, term: int, now: Timestamp) {
    && Recipients(pings) == peers
    && |pings| == |peers|
    && forall i :: 0 <= i < |pings| ==> pings[i] == PingRequest(clusterId, identity, pings[i].recipientId, term, now)
  }

  /** The loop of calculateProbedNodes: walk the probe table, removing stale entries and counting the rest. */
  method DiscardStaleProbes(probes: map<NodeId, Timestamp>, isMember: bool, now: Timestamp, timeout: int)
    returns (kept: map<NodeId, Timestamp>, numProbed: nat)
    ensures kept == FreshProbes(probes, now, timeout)
    ensures numProbed == ProbedCount(isMember, probes, now, timeout)
  {
    ghost var recent := FreshProbes(probes, now, timeout).Keys;
    kept := probes;
    var todo := probes.Keys;
    numProbed := if isMember then 1 else 0;
    while todo != {}
      invariant todo <= probes.Keys && kept.Keys <= probes.Keys
      invariant forall p :: p in kept ==> kept[p] == probes[p]
      invariant forall p :: p in probes ==> (p in kept <==> p in todo || now - probes[p] < timeout)
      invariant numProbed == (if isMember then 1 else 0) + |recent - todo|
      decreases todo
    {
      var p :| p in todo;
      CountStep(recent, todo, p);
      if now - probes[p] >= timeout {
        kept := kept - {p};
      } else {
        numProbed := numProbed + 1;
      }
      todo := todo - {p};
    }
    assert recent - todo == recent;
    assert kept == FreshProbes(probes, now, timeout) by {
      assert kept.Keys == FreshProbes(probes, now, timeout).Keys;
    }
  }

  /** Taking `p` out of the unvisited set adds it to the visited part of `recent` exactly when it is recent. */
  lemma CountStep<T>(recent: set<T>, todo: set<T>, p: T)
    requires p in todo
    ensures |recent - (todo - {p})| == |recent - todo| + (if p in recent then 1 else 0)
  {
    if p in recent {
      assert recent - (todo - {p}) == (recent - todo) + {p};
    } else {
      assert recent - (todo - {p}) == recent - todo;
    }
  }

  /** The loop of handleElectionTimeout: one ping to every configured node except this one. */
  method PingPeers(peers: set<NodeId>, identity: NodeId, clusterId: int, term: int, now: Timestamp)
    returns (pings: seq<Message>)
    ensures IsPingRound(pings, peers - {identity}, clusterId, identity, term, now)
  {
    var todo := peers;
    ghost var sent: set<NodeId> := {};
    pings := [];
    while todo != {}
      invariant todo <= peers
      invariant sent == (peers - todo) - {identity}
      invariant IsPingRound(pings, sent, clusterId, identity, term, now)
      decreases todo
    {
      var peer :| peer in todo;
      SentStep(peers, todo, identity, sent, peer);
      if peer != identity {
        PingRoundStep(pings, sent, clusterId, identity, term, now, peer);
        pings := pings + [PingRequest(clusterId, identity, peer, term, now)];
        sent := sent + {peer};
      }
      todo := todo - {peer};
    }
  }

  /** Visiting `peer` moves it from `todo` into the pinged set, unless it is this node. */
  lemma SentStep(peers: set<NodeId>, todo: set<NodeId>, identity: NodeId, sent: set<NodeId>, peer: NodeId)
    requires todo <= peers && peer in todo && sent == (peers - todo) - {identity}
    ensures peer !in sent
    ensures (peers - (todo - {peer})) - {identity} == if peer != identity then sent + {peer} else sent
  {
  }

  lemma RecipientsAppend(msgs: seq<Message>, m: Message)
    ensures Recipients(msgs + [m]) == Recipients(msgs) + {m.recipientId}
  {
    assert (msgs + [m])[..|msgs|] == msgs;
  }

  lemma PingRoundStep(pings: seq<Message>, sent: set<NodeId>, clusterId: int, identity: NodeId, term: int, now: Timestamp, peer: NodeId)
    requires IsPingRound(pings, sent, clusterId, identity, term, now) && peer !in sent
    ensures IsPingRound(pings + [PingRequest(clusterId, identity, peer, term, now)], sent + {peer}, clusterId, identity, term, now)
  {
    var ping := PingRequest(clusterId, identity, peer, term, now);
    RecipientsAppend(pings, ping);
    assert forall i :: 0 <= i < |pings| ==> (pings + [ping])[i] == pings[i];
  }
}
