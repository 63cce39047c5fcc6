/** Consequences of the invariant: majorities intersect, logs match, committed entries agree. */
module Agreement {
  import opened RaftTypes
  import opened LogStore
  import opened Cluster
  import opened Invariant

  lemma SubsetSize(a: set<NodeId>, b: set<NodeId>)
    requires a <= b
    ensures |a| <= |b|
  {
    assert b == a + (b - a);
  }

  /** Two sets of n/2 + 1 members each have a member in common, whatever n is. */
  lemma MajoritiesMeet(c: Cluster, q: set<NodeId>, r: set<NodeId>) returns (x: NodeId)
    requires Majority(c, q) && Majority(c, r)
    ensures x in q && x in r
  {
    SubsetSize(q + r, c.members.Keys);
    assert |q + r| + |q * r| == |q| + |r|;
    assert |c.members| == |c.members.Keys|;
    assert q * r != {};
    x :| x in q * r;
  }

  /** Log Matching: two logs that trace back to the leaders agree up to any index at which they
      hold entries of the same term. */
  lemma TracedMatch(h: History, a: Log, b: Log)
    requires Traced(h, a) && Traced(h, b)
    ensures Matching(a, b)
  {
  }

  lemma CommitNotBlocked(c: Cluster, e: Commit)
    requires CommitOk(c, e)
    ensures !Blocked(c, e.term, e.index)
  {
    if Blocked(c, e.term, e.index) {
      var q :| BlockedBy(c, e.term, e.index, q);
      var x := MajoritiesMeet(c, q, e.quorum);
      assert false;
    }
  }

  ghost predicate Settled(c: Cluster) {
    ElectionsOk(c) && LeadersKept(c) && CommitsOk(c)
  }

  /** Leader Completeness: a committed entry is in the log of every leader of its term or later. */
  lemma CommitInLeader(c: Cluster, e: Commit, t: nat)
    requires Settled(c) && e in c.h.commits && e.term <= t && t in c.h.leaderLogs
    ensures e.term in c.h.leaderLogs && Agree(c.h.leaderLogs[t], c.h.leaderLogs[e.term], e.index)
  {
    assert CommitOk(c, e);
    if e.term < t {
      CommitNotBlocked(c, e);
      assert LeaderKeeps(c, t, c.h.leaderLogs[t]);
    }
  }

  lemma CommittedInLeader(c: Cluster, log: Log, k: nat, t: nat, t2: nat)
    requires Settled(c) && CommittedIn(c.h, log, k, t) && t <= t2 && t2 in c.h.leaderLogs
    ensures Agree(log, c.h.leaderLogs[t2], k)
  {
    var e :| e in c.h.commits && e.term <= t && k <= e.index && CommitMatches(c.h, e, log, k);
    CommitInLeader(c, e, t2);
    AgreeWeaken(c.h.leaderLogs[t2], c.h.leaderLogs[e.term], e.index, k);
  }

  /** Any two committed prefixes agree as far as both reach. */
  lemma CommittedAgree(c: Cluster, a: Log, k: nat, t: nat, b: Log, k2: nat, t2: nat)
    requires Settled(c) && CommittedIn(c.h, a, k, t) && CommittedIn(c.h, b, k2, t2) && k <= k2
    ensures Agree(a, b, k)
  {
    var e :| e in c.h.commits && e.term <= t && k <= e.index && CommitMatches(c.h, e, a, k);
    var e2 :| e2 in c.h.commits && e2.term <= t2 && k2 <= e2.index && CommitMatches(c.h, e2, b, k2);
    var l, l2 := c.h.leaderLogs[e.term], c.h.leaderLogs[e2.term];
    assert Agree(a, l, k);
    assert Agree(b, l2, k) by { AgreeWeaken(b, l2, k2, k); }
    if e.term <= e2.term {
      CommitInLeader(c, e, e2.term);
      AgreeWeaken(l2, l, e.index, k);
    } else {
      CommitInLeader(c, e2, e.term);
      AgreeWeaken(l, l2, e2.index, k);
    }
  }
}
