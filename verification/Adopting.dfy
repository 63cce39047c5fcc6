/** Taking over the leader's log, by an append or a snapshot, keeps the invariant. */
module Adopting {
  import opened RaftTypes
  import opened LogStore
  import opened Cluster
  import opened Invariant
  import opened Evolution
  import opened Steps
  import opened Proposing

  /** `log2` comes from `log` by taking over the leader's log `lead` up to index k, without
      losing anything on which `log` and `lead` already agreed. */
  ghost predicate TakesOver(log: Log, lead: Log, k: nat, log2: Log) {
    && Agree(log2, lead, k)
    && (log2 == log || log2 == lead[..k + 1])
    && forall j: nat :: Agree(log, lead, j) ==> Agree(log2, lead, j)
  }

  /** Member `n` owes index `j` to the leader of term `t` or an earlier one, and with it to every
      later leader. */
  ghost predicate Owes(c: Cluster, n: NodeId, t: nat, j: nat) {
    HasAcked(c.h, n, t, j) ||
    exists u: nat :: u < t && OwnEntry(c.h, u, j) && HasAcked(c.h, n, u, j) && !Blocked(c, u, j)
  }

  /** `log2` agrees with the leader's log of term `t` as far as member `n` owes. */
  ghost predicate Pays(c: Cluster, n: NodeId, t: nat, log2: Log) {
    t in c.h.leaderLogs && forall j: nat :: Owes(c, n, t, j) ==> Agree(log2, c.h.leaderLogs[t], j)
  }

  /** What adopting the log of the leader of the member's term changes. The acknowledgement counts
      if it is heard. */
  ghost predicate Adopts(c: Cluster, n: NodeId, k: nat, c2: Cluster, heard: bool) {
    && n in c.members && n in c2.members
    && var m, m2 := c.members[n], c2.members[n];
    && var t := m.s.term;
    && m.s.role != Leader && t in c.h.leaders && t in c.h.leaderLogs && c.h.leaders[t].leader != n
    && c2.members == c.members[n := m2] && c2.net == c.net
    && m2 == m.(s := m.s.(log := m2.s.log, commit := m2.s.commit, applied := m2.s.applied), floor := m2.floor,
       cache := m2.cache)
    && Agree(m2.s.log, c.h.leaderLogs[t], k)
    && (m2.s.log == m.s.log || m2.s.log == c.h.leaderLogs[t][..k + 1])
    && Pays(c, n, t, m2.s.log)
    && CommittedIn(c.h, m2.s.log, m2.s.commit, t)
    && m2.s.applied <= m2.s.commit && m2.floor <= m2.s.commit
    && (m2.pending.Some? ==> m2.pending.value <= m2.s.commit)
    && var c1 := c.(members := c2.members);
       c2 == if heard then Acknowledge(c1, n, t, k) else c1
  }

  lemma AdoptsEvolves(c: Cluster, n: NodeId, k: nat, c2: Cluster, heard: bool)
    requires Adopts(c, n, k, c2, heard)
    ensures Evolves(c, c2)
  {
    hide CommittedIn, TakesOver;
  }

  lemma PrefixOk(h: History, log: Log, k: nat)
    requires LogOk(h, log) && k < |log|
    ensures LogOk(h, log[..k + 1]) && LastTerm(log[..k + 1]) <= LastTerm(log)
  {
  }

  lemma AdoptsKeepsLog(c: Cluster, n: NodeId, k: nat, c2: Cluster, heard: bool)
    requires LeaderLogsOk(c) && MembersOk(c) && Adopts(c, n, k, c2, heard)
    ensures LogOk(c.h, c2.members[n].s.log) && LastTerm(c2.members[n].s.log) <= c.members[n].s.term
  {
    hide LogOk, CommittedIn;
    assert MemberOk(c, n);
    var lead := c.h.leaderLogs[c.members[n].s.term];
    PrefixOk(c.h, lead, k);
  }

  lemma AdoptsRuns(c: Cluster, n: NodeId, k: nat, c2: Cluster, heard: bool)
    requires Adopts(c, n, k, c2, heard) && RunningOk(c, n, c.members[n])
    ensures RunningOk(c2, n, c2.members[n])
  {
  }

  lemma AdoptsCommitted(c: Cluster, n: NodeId, k: nat, c2: Cluster, heard: bool)
    requires Adopts(c, n, k, c2, heard)
    ensures CommittedIn(c2.h, c2.members[n].s.log, c2.members[n].s.commit, c2.members[n].s.term)
  {
  }

  lemma AdoptsKeepsMember(c: Cluster, n: NodeId, k: nat, c2: Cluster, heard: bool)
    requires LeaderLogsOk(c) && MembersOk(c) && Adopts(c, n, k, c2, heard)
    ensures MemberOk(c2, n)
  {
    hide LogOk, CommittedIn, TakesOver, RunningOk, LeaderLogsOk;
    assert MemberOk(c, n);
    AdoptsKeepsLog(c, n, k, c2, heard);
    LogStays(c, c2, c2.members[n].s.log);
    AdoptsCommitted(c, n, k, c2, heard);
    AdoptsRuns(c, n, k, c2, heard);
  }

  lemma AdoptsKeepsAcks(c: Cluster, n: NodeId, k: nat, c2: Cluster, heard: bool)
    requires AcksOk(c) && Adopts(c, n, k, c2, heard) && Evolves(c, c2)
    ensures AcksOk(c2)
  {
  }

  /** What the member still owes to earlier leaders is in its log or in the leader's, and where
      it is in both it is not lost. */
  lemma AdoptsKeepsOwn(c: Cluster, n: NodeId, k: nat, c2: Cluster, heard: bool)
    requires Adopts(c, n, k, c2, heard) && Evolves(c, c2) && AcksOk(c2)
    requires Keeps(c, n, c.members[n].s.term + 1, c.members[n].s.log)
    requires LeaderKeeps(c, c.members[n].s.term, c.h.leaderLogs[c.members[n].s.term])
    ensures Keeps(c2, n, c.members[n].s.term + 1, c2.members[n].s.log)
  {
    hide CommittedIn, Blocked;
    var t2 := c.members[n].s.term;
    var lead, log, log2 := c.h.leaderLogs[t2], c.members[n].s.log, c2.members[n].s.log;
    forall t: nat, j: nat | t < t2 + 1 && OwnEntry(c2.h, t, j) && HasAcked(c2.h, n, t, j)
      ensures KeptIn(c2, t, j, log2)
    {
      if t == t2 {
        assert AckOk(c2, n, t);
        AgreeWeaken(log2, lead, c2.h.acked[(n, t)], j);
      } else if Blocked(c, t, j) {
        BlockedGrows(c, c2, t, j);
      } else {
        assert KeptIn(c, t, j, log) && KeptIn(c, t, j, lead);
        assert Owes(c, n, t2, j);
      }
    }
  }

  lemma AdoptsKeepsAcked(c: Cluster, n: NodeId, k: nat, c2: Cluster, heard: bool)
    requires AckedKept(c) && LeadersKept(c) && Adopts(c, n, k, c2, heard) && Evolves(c, c2) && AcksOk(c2)
    ensures AckedKept(c2)
  {
    hide CommittedIn, TakesOver, Keeps, LeaderKeeps;
    forall x | x in c2.members
      ensures Keeps(c2, x, c2.members[x].s.term + 1, c2.members[x].s.log)
    {
      if x == n {
        AdoptsKeepsOwn(c, n, k, c2, heard);
      } else {
        KeepsStays(c, c2, x, c.members[x].s.term + 1, c.members[x].s.log, c.members[x].s.log);
      }
    }
  }

  lemma AdoptsKeepsVoted(c: Cluster, n: NodeId, k: nat, c2: Cluster, heard: bool)
    requires VotesOk(c) && VotedKept(c) && Adopts(c, n, k, c2, heard) && Evolves(c, c2)
    ensures VotedKept(c2)
  {
    hide CommittedIn, TakesOver, Keeps;
    forall v | v in c.h.votes
      ensures OwesNoMore(c, c2, v.voter, v.term)
    {
      assert VoteOk(c, v);
    }
    VotedKeptStays(c, c2);
  }

  lemma AdoptsKeeps(c: Cluster, n: NodeId, k: nat, c2: Cluster, heard: bool)
    requires Adopts(c, n, k, c2, heard)
    requires Inv(c)
    ensures Inv(c2) && Evolves(c, c2)
  {
    hide LeaderLogsOk, ElectionsOk, CampaignsOk, NetOk, CommitsOk, AppliedOk, VotesOk, AckedKept, VotedKept,
      LeadersKept, MembersOk, AcksOk, Evolves, CommittedIn, TakesOver;
    AdoptsEvolves(c, n, k, c2, heard);
    assert NewsOk(c, c2);
    StaticStays(c, c2);
    VotesSame(c, c2);
    AdoptsKeepsMember(c, n, k, c2, heard);
    MembersStay(c, c2, n);
    AdoptsKeepsAcks(c, n, k, c2, heard);
    AdoptsKeepsAcked(c, n, k, c2, heard);
    AdoptsKeepsVoted(c, n, k, c2, heard);
    LeadersKeptStays(c, c2);
  }
}
