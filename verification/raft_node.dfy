/**
 * The node-wide state that the follower role reads and updates: persistent
 * term and cluster id, the snapshot watermark, the log, the commit index, the
 * current configuration, the open transactions and the flip-flopped state
 * machine used to stage a snapshot install.
 */
module RaftNode {
  import opened Types
  import opened RaftLog

  class Node {
    const identity: NodeId
    const minElectionTimeout: int
    const maxElectionTimeout: int
    const followerProbingEnabled: bool

    var clusterId: int
    var currentTerm: int
    var lastAppliedTerm: int
    var lastAppliedIndex: int
    var lastAppliedConfig: map<NodeId, string>
    var log: seq<LogEntry>
    var commitIndex: int
    var currentConfig: map<NodeId, string>
    var openTxs: map<TxId, Tx>
    /** The staging key range holds left-over content from a snapshot install. */
    var stagingDirty: bool
    /** Services requested by handlers and not yet run. */
    var requested: set<Service>

    /**
     * The snapshot watermark never passes the commit index, the configuration is the
     * one the log builds, and a COMMIT_READY transaction has no commit position yet.
     */
    ghost predicate Valid()
      reads this`lastAppliedIndex, this`commitIndex, this`currentConfig, this`lastAppliedConfig, this`log, this`openTxs
    {
      && 0 <= lastAppliedIndex <= commitIndex
      && currentConfig == BuildConfig(lastAppliedConfig, log)
      && (forall id :: id in openTxs ==> openTxs[id].id == id)
      && (forall id :: id in openTxs && openTxs[id].state == CommitReady ==>
            openTxs[id].commitTerm == 0 && openTxs[id].commitIndex == 0)
    }

    function LastLogIndex(): int
      reads this`lastAppliedIndex, this`log
    {
      LastIndex(lastAppliedIndex, log)
    }

    function LastLogTerm(): int
      reads this`lastAppliedIndex, this`lastAppliedTerm, this`log
    {
      LastTerm(lastAppliedIndex, lastAppliedTerm, log)
    }

    predicate IsClusterMember()
      reads this`currentConfig
    {
      identity in currentConfig
    }

    /** A node is configured once it has a snapshot or any log entry. */
    predicate IsConfigured()
      reads this`lastAppliedIndex, this`log
    {
      lastAppliedIndex > 0 || |log| > 0
    }

    /** A node restarted from its persistent state, with no open transactions. */
    constructor (identity: NodeId, minElectionTimeout: int, maxElectionTimeout: int, followerProbingEnabled: bool,
                 clusterId: int, currentTerm: int, lastAppliedTerm: int, lastAppliedIndex: nat,
                 lastAppliedConfig: map<NodeId, string>, log: seq<LogEntry>)
      ensures Valid()
      ensures this.identity == identity && this.minElectionTimeout == minElectionTimeout
      ensures this.maxElectionTimeout == maxElectionTimeout && this.followerProbingEnabled == followerProbingEnabled
      ensures this.clusterId == clusterId && this.currentTerm == currentTerm
      ensures this.lastAppliedTerm == lastAppliedTerm && this.lastAppliedIndex == lastAppliedIndex
      ensures this.lastAppliedConfig == lastAppliedConfig && this.log == log
      ensures commitIndex == lastAppliedIndex && currentConfig == BuildConfig(lastAppliedConfig, log)
      ensures openTxs == map[] && !stagingDirty && requested == {}
    {
      this.identity := identity;
      this.minElectionTimeout := minElectionTimeout;
      this.maxElectionTimeout := maxElectionTimeout;
      this.followerProbingEnabled := followerProbingEnabled;
      this.clusterId := clusterId;
      this.currentTerm := currentTerm;
      this.lastAppliedTerm := lastAppliedTerm;
      this.lastAppliedIndex := lastAppliedIndex;
      this.lastAppliedConfig := lastAppliedConfig;
      this.log := log;
      commitIndex := lastAppliedIndex;
      currentConfig := BuildConfig(lastAppliedConfig, log);
      openTxs := map[];
      stagingDirty := false;
      requested := {};
    }

    method RequestService(s: Service)
      modifies this`requested
      ensures requested == old(requested) + {s}
    {
      requested := requested + {s};
    }

    /** Record the cluster id; `persistOk` is whether writing it to the store succeeded. */
    method JoinCluster(newClusterId: int, persistOk: bool) returns (ok: bool)
      modifies this`clusterId
      ensures ok == persistOk
      ensures clusterId == if persistOk then newClusterId else old(clusterId)
    {
      ok := persistOk;
      if ok {
        clusterId := newClusterId;
      }
    }

    method AdvanceTerm(newTerm: int, persistOk: bool) returns (ok: bool)
      modifies this`currentTerm
      ensures ok == persistOk
      ensures currentTerm == if persistOk then newTerm else old(currentTerm)
    {
      ok := persistOk;
      if ok {
        currentTerm := newTerm;
      }
    }

    /** Append an entry at lastLogIndex + 1; a config change takes effect at once. */
    method AppendLogEntry(term: int, data: EntryData)
      requires Valid()
      modifies this`log, this`currentConfig
      ensures Valid()
      ensures log == old(log) + [LogEntry(term, data)]
      ensures LastLogIndex() == old(LastLogIndex()) + 1 && LastLogTerm() == term
    {
      BuildConfigAppend(lastAppliedConfig, log, LogEntry(term, data));
      log := log + [LogEntry(term, data)];
      currentConfig := ApplyChange(currentConfig, data.configChange);
    }

    /** Delete the entry at `index` and every later one, then rebuild the configuration. */
    method TruncateFrom(index: int)
      requires Valid()
      requires lastAppliedIndex < index <= LastLogIndex()
      modifies this`log, this`currentConfig
      ensures Valid()
      ensures log == old(log)[..index - lastAppliedIndex - 1]
      ensures LastLogIndex() == index - 1
    {
      log := log[..index - lastAppliedIndex - 1];
      currentConfig := BuildConfig(lastAppliedConfig, log);
    }

    /** Throw away the staging area; reports whether it held anything. */
    method DiscardFlipFlopped() returns (hadContent: bool)
      modifies this`stagingDirty
      ensures hadContent == old(stagingDirty) && !stagingDirty
    {
      hadContent := stagingDirty;
      stagingDirty := false;
    }

    /**
     * Promote the staged snapshot to be the live state: the watermark becomes
     * (term, index), the log is emptied and the snapshot's config is current.
     */
    method FlipFlop(term: int, index: int, config: map<NodeId, string>)
      requires Valid()
      requires index >= commitIndex
      modifies this`lastAppliedTerm, this`lastAppliedIndex, this`lastAppliedConfig, this`log,
               this`commitIndex, this`currentConfig, this`stagingDirty
      ensures Valid()
      ensures lastAppliedTerm == term && lastAppliedIndex == index && lastAppliedConfig == config
      ensures log == [] && commitIndex == index && currentConfig == config && !stagingDirty
      ensures LastLogIndex() == index && LastLogTerm() == term
    {
      lastAppliedTerm, lastAppliedIndex, lastAppliedConfig := term, index, config;
      log := [];
      commitIndex := index;
      currentConfig := config;
      stagingDirty := false;
    }
  }
}
