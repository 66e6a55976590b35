/**
 * The Raft log as a follower holds it: entries positioned after the snapshot
 * watermark (lastAppliedIndex, lastAppliedTerm), the configuration they build,
 * and the consistency check and conflict resolution of AppendRequest handling.
 *
 * Position p of the sequence holds log index appliedIndex + 1 + p.
 */
module RaftLog {
  import opened Types

  /** Index of the last entry; the watermark itself when the log is empty. */
  function LastIndex(appliedIndex: int, log: seq<LogEntry>): int {
    appliedIndex + |log|
  }

  /** Term of the entry at `index`; the watermark's term at the watermark. */
  function TermAt(appliedIndex: int, appliedTerm: int, log: seq<LogEntry>, index: int): int
    requires appliedIndex <= index <= LastIndex(appliedIndex, log)
  {
    if index == appliedIndex then appliedTerm else log[index - appliedIndex - 1].term
  }

  function LastTerm(appliedIndex: int, appliedTerm: int, log: seq<LogEntry>): int {
    TermAt(appliedIndex, appliedTerm, log, LastIndex(appliedIndex, log))
  }

  // Configuration

  /** Apply one entry's config change, if it has one. */
  function ApplyChange(config: map<NodeId, string>, change: Option<ConfigChange>): map<NodeId, string> {
    match change
    case None => config
    case Some(c) => if c.address.Some? then config[c.node := c.address.value] else config - {c.node}
  }

  /** The current configuration: the snapshot's config with every change in the log applied in order. */
  function BuildConfig(base: map<NodeId, string>, log: seq<LogEntry>): (r: map<NodeId, string>)
    ensures forall node :: (forall j :: 0 <= j < |log| ==> !ChangesNode(log[j], node)) ==> (node in r <==> node in base)
    decreases |log|
  {
    if log == [] then base
    else ApplyChange(BuildConfig(base, log[..|log| - 1]), log[|log| - 1].data.configChange)
  }

  predicate ChangesNode(e: LogEntry, node: NodeId) {
    e.data.configChange.Some? && e.data.configChange.value.node == node
  }

  /** Appending an entry applies its change on top of the configuration built so far. */
  lemma BuildConfigAppend(base: map<NodeId, string>, log: seq<LogEntry>, e: LogEntry)
    ensures BuildConfig(base, log + [e]) == ApplyChange(BuildConfig(base, log), e.data.configChange)
  {
    assert (log + [e])[..|log|] == log;
  }

  /** The configuration reflects the latest entry that changes a node, committed or not. */
  lemma {:induction false} LatestChangeWins(base: map<NodeId, string>, log: seq<LogEntry>, k: int)
    requires 0 <= k < |log| && log[k].data.configChange.Some?
    requires forall j :: k < j < |log| ==> !ChangesNode(log[j], log[k].data.configChange.value.node)
    ensures var c := log[k].data.configChange.value;
            var config := BuildConfig(base, log);
            (c.address.Some? ==> c.node in config && config[c.node] == c.address.value) &&
            (c.address.None? ==> c.node !in config)
    decreases |log|
  {
    if k < |log| - 1 {
      var prefix := log[..|log| - 1];
      assert forall j :: k < j < |prefix| ==> prefix[j] == log[j];
      LatestChangeWins(base, prefix, k);
    }
  }

  /** A node that no entry changes keeps its membership and address from the snapshot config. */
  lemma {:induction false} UnchangedNodeKeepsBase(base: map<NodeId, string>, log: seq<LogEntry>, node: NodeId)
    requires forall j :: 0 <= j < |log| ==> !ChangesNode(log[j], node)
    ensures var config := BuildConfig(base, log);
            (node in config <==> node in base) && (node in base ==> config[node] == base[node])
    decreases |log|
  {
    if log != [] {
      var prefix := log[..|log| - 1];
      assert forall j :: 0 <= j < |prefix| ==> prefix[j] == log[j];
      UnchangedNodeKeepsBase(base, prefix, node);
    }
  }

  // Consistency check and conflict resolution

  /**
   * The leader's preceding entry (prevIndex, prevTerm) is missing here or has another
   * term. Entries at or below the watermark are not checked: Raft guarantees they match.
   */
  predicate PrevEntryMismatch(appliedIndex: int, appliedTerm: int, log: seq<LogEntry>, prevIndex: int, prevTerm: int)
    ensures prevIndex < appliedIndex ==> !PrevEntryMismatch(appliedIndex, appliedTerm, log, prevIndex, prevTerm)
    ensures !PrevEntryMismatch(appliedIndex, appliedTerm, log, prevIndex, prevTerm) && prevIndex >= appliedIndex ==>
              appliedIndex < prevIndex + 1 <= LastIndex(appliedIndex, log) + 1
  {
    prevIndex >= appliedIndex &&
    (prevIndex > LastIndex(appliedIndex, log) || prevTerm != TermAt(appliedIndex, appliedTerm, log, prevIndex))
  }

  /** The slot `logIndex` (above the watermark) holds an entry whose term is not `logTerm`. */
  predicate Conflicts(appliedIndex: int, log: seq<LogEntry>, logIndex: int, logTerm: int)
    requires appliedIndex < logIndex
    ensures logIndex > LastIndex(appliedIndex, log) ==> !Conflicts(appliedIndex, log, logIndex, logTerm)
    ensures Conflicts(appliedIndex, log, logIndex, logTerm) ==> |log| >= logIndex - appliedIndex
  {
    logIndex <= LastIndex(appliedIndex, log) && log[logIndex - appliedIndex - 1].term != logTerm
  }

  /**
   * The log after deleting a conflicting entry and everything after it. Afterwards
   * the slot `logIndex` is either empty or already holds an entry of term `logTerm`.
   */
  function Reconciled(appliedIndex: int, log: seq<LogEntry>, logIndex: int, logTerm: int): (r: seq<LogEntry>)
    requires appliedIndex < logIndex
    ensures r <= log
    ensures LastIndex(appliedIndex, r) < logIndex || r[logIndex - appliedIndex - 1].term == logTerm
    ensures Conflicts(appliedIndex, log, logIndex, logTerm) ==> LastIndex(appliedIndex, r) == logIndex - 1
    ensures !Conflicts(appliedIndex, log, logIndex, logTerm) ==> r == log
  {
    if Conflicts(appliedIndex, log, logIndex, logTerm) then log[..logIndex - appliedIndex - 1] else log
  }

  /**
   * The log after accepting `entry` at `logIndex`, whose predecessor the consistency
   * check found present: resolve a conflict, then append unless already there.
   */
  function AcceptEntry(appliedIndex: int, log: seq<LogEntry>, logIndex: int, entry: LogEntry): (r: seq<LogEntry>)
    requires appliedIndex < logIndex <= LastIndex(appliedIndex, log) + 1
    ensures logIndex <= LastIndex(appliedIndex, r)
    ensures r[logIndex - appliedIndex - 1].term == entry.term
    ensures r[..logIndex - appliedIndex - 1] == log[..logIndex - appliedIndex - 1]
  {
    var kept := Reconciled(appliedIndex, log, logIndex, entry.term);
    if logIndex > LastIndex(appliedIndex, kept) then kept + [entry] else kept
  }

  /** Truncation removes the conflicting entry and all later ones, and keeps every earlier entry. */
  lemma ReconciledTruncates(appliedIndex: int, log: seq<LogEntry>, logIndex: int, logTerm: int)
    requires appliedIndex < logIndex
    requires Conflicts(appliedIndex, log, logIndex, logTerm)
    ensures var r := Reconciled(appliedIndex, log, logIndex, logTerm);
            |r| == logIndex - appliedIndex - 1 &&
            (forall p :: 0 <= p < |r| ==> r[p] == log[p]) &&
            |log| - |r| >= 1
  {
  }

  /**
   * Which entries up to `commitIndex` survive resolving a conflict. The follower does not
   * compare `logIndex` with its commit index: when the leader's entry lies above it, every
   * committed entry is kept; a conflicting entry at or below it would delete a committed
   * entry, which only the leader's own behaviour rules out.
   */
  lemma ReconcileKeepsCommitted(appliedIndex: int, log: seq<LogEntry>, logIndex: int, logTerm: int, commitIndex: int)
    requires appliedIndex < logIndex
    ensures var r := Reconciled(appliedIndex, log, logIndex, logTerm);
            commitIndex < logIndex ==>
              forall k :: 0 <= k < |log| && appliedIndex + k + 1 <= commitIndex ==> k < |r| && r[k] == log[k]
    ensures var r := Reconciled(appliedIndex, log, logIndex, logTerm);
            Conflicts(appliedIndex, log, logIndex, logTerm) && logIndex <= commitIndex ==>
              LastIndex(appliedIndex, r) < logIndex <= LastIndex(appliedIndex, log)
  {
  }

  /** A duplicate of an entry the follower already holds leaves the log as it was. */
  lemma DuplicateAppendIsNoop(appliedIndex: int, log: seq<LogEntry>, logIndex: int, entry: LogEntry)
    requires appliedIndex < logIndex <= LastIndex(appliedIndex, log)
    requires log[logIndex - appliedIndex - 1].term == entry.term
    ensures AcceptEntry(appliedIndex, log, logIndex, entry) == log
  {
  }

  /** A new entry goes exactly at position lastLogIndex + 1. */
  lemma AppendAtEnd(appliedIndex: int, log: seq<LogEntry>, logIndex: int, entry: LogEntry)
    requires appliedIndex < logIndex <= LastIndex(appliedIndex, log) + 1
    requires logIndex > LastIndex(appliedIndex, Reconciled(appliedIndex, log, logIndex, entry.term))
    ensures var kept := Reconciled(appliedIndex, log, logIndex, entry.term);
            AcceptEntry(appliedIndex, log, logIndex, entry) == kept + [entry] &&
            logIndex == LastIndex(appliedIndex, kept) + 1
  {
  }

  /** Re-delivering the same append request changes nothing the second time. */
  lemma AcceptEntryIdempotent(appliedIndex: int, log: seq<LogEntry>, logIndex: int, entry: LogEntry)
    requires appliedIndex < logIndex <= LastIndex(appliedIndex, log) + 1
    ensures var once := AcceptEntry(appliedIndex, log, logIndex, entry);
            AcceptEntry(appliedIndex, once, logIndex, entry) == once
  {
    var once := AcceptEntry(appliedIndex, log, logIndex, entry);
    DuplicateAppendIsNoop(appliedIndex, once, logIndex, entry);
  }
}
