/**
 * The pure decisions a Raft follower makes: the commit-index formula, the
 * candidate-log comparison of a vote, the leader-lease gate and majority probing.
 */
module FollowerLogic {
  import opened Types

  function Min(a: int, b: int): int { if a <= b then a else b }
  function Max(a: int, b: int): int { if a >= b then a else b }

  // Commit index

  /**
   * Commit index after an AppendRequest: the leader's commit index, capped at the
   * follower's last log index, and assigned only when it moves forward.
   */
  function NewCommitIndex(leaderCommit: int, commitIndex: int, lastLogIndex: int): (r: int)
    ensures r >= commitIndex
    ensures r > commitIndex ==> r <= lastLogIndex && r <= leaderCommit
    ensures r == commitIndex || r == leaderCommit || r == lastLogIndex
  {
    var candidate := Min(Max(leaderCommit, commitIndex), lastLogIndex);
    if candidate > commitIndex then candidate else commitIndex
  }

  /** The formula equals "the larger of the old commit index and min(leaderCommit, lastLogIndex)". */
  lemma NewCommitIndexIsMaxOfMin(leaderCommit: int, commitIndex: int, lastLogIndex: int)
    ensures NewCommitIndex(leaderCommit, commitIndex, lastLogIndex) == Max(commitIndex, Min(leaderCommit, lastLogIndex))
  {
  }

  // Votes

  /**
   * The candidate's log is at least as up to date as ours: compare last terms first,
   * and last indexes only when the terms are equal.
   */
  predicate CandidateLogOk(candTerm: int, candIndex: int, myTerm: int, myIndex: int)
  {
    !(candTerm < myTerm || (candTerm == myTerm && candIndex < myIndex))
  }

  /** The comparison is the lexicographic order on (lastLogTerm, lastLogIndex). */
  lemma CandidateLogOkIsLexicographic(candTerm: int, candIndex: int, myTerm: int, myIndex: int)
    ensures CandidateLogOk(candTerm, candIndex, myTerm, myIndex) <==>
            candTerm > myTerm || (candTerm == myTerm && candIndex >= myIndex)
  {
  }

  /** It is total and transitive, so every pair of logs is ordered. */
  lemma CandidateLogOkTotalPreorder(t1: int, i1: int, t2: int, i2: int, t3: int, i3: int)
    ensures CandidateLogOk(t1, i1, t2, i2) || CandidateLogOk(t2, i2, t1, i1)
    ensures CandidateLogOk(t1, i1, t2, i2) && CandidateLogOk(t2, i2, t3, i3) ==> CandidateLogOk(t1, i1, t3, i3)
  {
  }

  /** One vote per term: free to vote, or the vote already went to this peer. */
  predicate MayVoteFor(votedFor: Option<NodeId>, peer: NodeId) {
    votedFor.None? || votedFor.value == peer
  }

  // Leader lease

  /** The leader lease timeout after a message offering `offered`: only ever moves forward. */
  function AdvanceLease(current: Option<Timestamp>, offered: Option<Timestamp>): (r: Option<Timestamp>)
    ensures r == current || r == offered
    ensures current.Some? ==> r.Some? && r.value >= current.value
    ensures offered.Some? ==> r.Some? && r.value >= offered.value
  {
    if offered.Some? && (current.None? || offered.value > current.value) then offered else current
  }

  /**
   * A transaction may complete when it has no lease requirement, or when the
   * leader's known lease timeout has reached the required one.
   */
  predicate LeaseAllows(required: Option<Timestamp>, lease: Option<Timestamp>) {
    required.None? || (lease.Some? && lease.value >= required.value)
  }

  /** Once a transaction's lease requirement is met, advancing the lease keeps it met. */
  lemma LeaseStaysSatisfied(required: Option<Timestamp>, lease: Option<Timestamp>, offered: Option<Timestamp>)
    requires LeaseAllows(required, lease)
    ensures LeaseAllows(required, AdvanceLease(lease, offered))
  {
  }

  // Probing

  /** Probe responses younger than `maxElectionTimeout`; older ones are discarded. */
  function FreshProbes(probes: map<NodeId, Timestamp>, now: Timestamp, maxElectionTimeout: int): (r: map<NodeId, Timestamp>)
    ensures r.Keys <= probes.Keys
    ensures forall p :: p in r ==> r[p] == probes[p] && now - probes[p] < maxElectionTimeout
    ensures forall p :: p in probes && now - probes[p] < maxElectionTimeout ==> p in r
  {
    map p | p in probes && now - probes[p] < maxElectionTimeout :: probes[p]
  }

  /** Nodes known reachable: this node if it is a member, plus every fresh probe. */
  function ProbedCount(isMember: bool, probes: map<NodeId, Timestamp>, now: Timestamp, maxElectionTimeout: int): nat {
    (if isMember then 1 else 0) + |FreshProbes(probes, now, maxElectionTimeout)|
  }

  /** Size of a majority of a configuration of `size` nodes. */
  function MajorityOf(size: nat): nat {
    size / 2 + 1
  }

  /** Discarding stale probes a second time with the same clock discards nothing more. */
  lemma FreshProbesIdempotent(probes: map<NodeId, Timestamp>, now: Timestamp, maxElectionTimeout: int)
    ensures FreshProbes(FreshProbes(probes, now, maxElectionTimeout), now, maxElectionTimeout)
            == FreshProbes(probes, now, maxElectionTimeout)
  {
  }
}
