/**
 * Values shared by the follower model: identities, transactions, log entries,
 * the snapshot-receive context and the messages a follower exchanges.
 */
module Types {

  datatype Option<+T> = None | Some(value: T)

  type TxId = int
  type NodeId = string

  /** A clock reading in milliseconds; `now - t` is how long ago `t` was. */
  type Timestamp = int

  /** Lifecycle of a client transaction as the follower sees it. */
  datatype TxState = Executing | CommitReady | CommitWaiting | Completed

  /** A configuration change: add (or re-address) `node`, or remove it when `address` is absent. */
  datatype ConfigChange = ConfigChange(node: NodeId, address: Option<string>)

  /** What a log entry carries besides its term: opaque mutations and an optional config change. */
  datatype EntryData = EntryData(writes: seq<int>, configChange: Option<ConfigChange>)

  datatype LogEntry = LogEntry(term: int, data: EntryData)

  /**
   * A client transaction. `rebasable` marks the consistency levels whose reads must
   * be re-based when the log changes; `data` is what its commit would append.
   */
  datatype Tx = Tx(
    id: TxId,
    state: TxState,
    baseTerm: int,
    baseIndex: int,
    commitTerm: int,
    commitIndex: int,
    rebasable: bool,
    data: EntryData,
    error: Option<string>)

  /** A transaction's mutations held in a temporary file until the leader appends them. */
  datatype PendingWrite = PendingWrite(txId: TxId, data: EntryData)

  /** Context of an in-progress chunked snapshot install. */
  datatype SnapshotReceive = SnapshotReceive(
    term: int,
    index: int,
    config: map<NodeId, string>,
    nextPairIndex: nat)

  /** Deferred work a handler asks the node to run after it returns. */
  datatype Service = CheckReadyTransactions | CheckWaitingTransactions | TriggerKeyWatches | ApplyCommittedLogEntries

  /** What the node does with its role once a handler returns. */
  datatype RoleChange = StayFollower | BecomeCandidate | BecomeLeader

  datatype Message =
    | AppendRequest(clusterId: int, senderId: NodeId, recipientId: NodeId, term: int,
                    leaderTimestamp: Timestamp, leaderLeaseTimeout: Option<Timestamp>,
                    leaderCommit: int, prevLogTerm: int, prevLogIndex: int,
                    logEntryTerm: int, probe: bool)
    | AppendResponse(clusterId: int, senderId: NodeId, recipientId: NodeId, term: int,
                     leaderTimestamp: Timestamp, success: bool, matchIndex: int, lastLogIndex: int)
    | RequestVote(clusterId: int, senderId: NodeId, recipientId: NodeId, term: int,
                  lastLogTerm: int, lastLogIndex: int)
    | GrantVote(clusterId: int, senderId: NodeId, recipientId: NodeId, term: int)
    | InstallSnapshot(clusterId: int, senderId: NodeId, recipientId: NodeId, term: int,
                      snapshotTerm: int, snapshotIndex: int, snapshotConfig: map<NodeId, string>,
                      pairIndex: nat, lastChunk: bool, chunk: seq<int>)
    | CommitRequest(clusterId: int, senderId: NodeId, recipientId: NodeId, term: int,
                    txId: TxId, baseTerm: int, baseIndex: int, mutationData: Option<EntryData>)
    | CommitResponse(clusterId: int, senderId: NodeId, recipientId: NodeId, term: int,
                     txId: TxId, success: bool, commitTerm: int, commitIndex: int,
                     commitLeaderLeaseTimeout: Option<Timestamp>, errorMessage: string)
    | PingRequest(clusterId: int, senderId: NodeId, recipientId: NodeId, term: int, timestamp: Timestamp)
    | PingResponse(clusterId: int, senderId: NodeId, recipientId: NodeId, term: int, timestamp: Timestamp)
}
