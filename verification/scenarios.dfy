/**
 * Concrete runs of the follower handlers on freshly built nodes. Each method's
 * contract is derived from the handlers' contracts alone.
 */
module Scenarios {
  import opened Types
  import opened RaftLog
  import opened RaftNode
  import opened Follower

  /**
   * An unconfigured node given a read-write transaction whose only change adds the
   * node itself founds a cluster: it is then at term 1 with one entry, at index 1.
   */
  method FoundSingleNodeCluster(identity: NodeId, address: string) returns (outcome: ReadyOutcome, term: int, index: int)
    ensures outcome == Bootstrapped && term == 1 && index == 1
  {
    var node := new Node(identity, 150, 300, true, 0, 0, 0, 0, map[], []);
    var role := new FollowerRole(node, None, None, None);
    var founding := EntryData([], Some(ConfigChange(identity, Some(address))));
    node.openTxs := map[1 := Tx(1, CommitReady, 0, 0, 0, 0, true, founding, None)];
    assert AddsNode(node.openTxs[1].data.configChange, node.identity);
    outcome := role.CheckReadyLinearizableTransaction(1, false, false, true, true, true, true, true);
    term, index := node.currentTerm, node.LastLogIndex();
  }

  /**
   * A follower whose entry at index 5 has term 3 is sent an entry whose predecessor
   * is (index 5, term 2): it refuses, reporting its watermark 0 and last index 5,
   * and keeps its log.
   */
  method RejectMismatchedPredecessor() returns (reply: Message, logKept: bool)
    ensures reply.AppendResponse? && !reply.success && reply.matchIndex == 0 && reply.lastLogIndex == 5
    ensures logKept
  {
    var e := LogEntry(3, EntryData([], None));
    var log := [e, e, e, e, e];
    var node := new Node("B", 150, 300, true, 7, 3, 0, 0, map[], log);
    var role := new FollowerRole(node, None, None, None);
    var msg := AppendRequest(7, "A", "B", 3, 1000, None, 5, 2, 5, 3, false);
    reply := role.CaseAppendRequest(msg, None, 1000, "a:1", true, true, true);
    logKept := node.log == log;
  }

  /** Chunk 1 of a snapshot arriving with no install in progress is dropped: no install starts. */
  method EarlyChunkIgnored() returns (installing: bool)
    ensures !installing
  {
    var node := new Node("B", 150, 300, true, 7, 3, 0, 0, map[], []);
    var role := new FollowerRole(node, Some("A"), Some("a:1"), None);
    var msg := InstallSnapshot(7, "A", "B", 3, 3, 10, map["A" := "a:1"], 1, false, [42]);
    role.CaseInstallSnapshot(msg, true);
    installing := role.snapshotReceive.Some?;
  }

  /**
   * A follower leaves its role while a commit request is outstanding for a transaction
   * whose base is no longer the last entry: the transaction fails.
   */
  method DeposedBeforeResponse() returns (state: TxState, error: Option<string>)
    ensures state == Completed && error == Some("leader was deposed before commit response received")
  {
    var node := new Node("B", 150, 300, true, 7, 1, 0, 0, map[], [LogEntry(1, EntryData([], None))]);
    var role := new FollowerRole(node, Some("A"), Some("a:1"), None);
    node.openTxs := map[1 := Tx(1, CommitReady, 0, 0, 0, 0, true, EntryData([5], None), None)];
    role.pendingRequests := {1};
    assert 1 in role.Deposed();
    role.Shutdown();
    state, error := node.openTxs[1].state, node.openTxs[1].error;
  }

  /** Forgetting a transaction a second time changes nothing more. */
  method CleanupTwice(role: FollowerRole, txId: TxId)
    modifies role`pendingRequests, role`pendingWrites, role`commitLeaderLeaseTimeoutMap
    ensures role.pendingRequests == old(role.pendingRequests) - {txId}
    ensures role.pendingWrites == old(role.pendingWrites) - {txId}
    ensures role.commitLeaderLeaseTimeoutMap == old(role.commitLeaderLeaseTimeoutMap) - {txId}
  {
    role.CleanupForTransaction(txId);
    role.CleanupForTransaction(txId);
  }
}
