/** Appending a command to the leader's log keeps the invariant. */
module Proposing {
  import opened RaftTypes
  import opened LogStore
  import opened Cluster
  import opened Invariant
  import opened Evolution
  import opened Steps

  /** What Propose changes. */
  ghost predicate Extended(c: Cluster, n: NodeId, e: LogEntry, c2: Cluster) {
    && n in c.members && n in c2.members
    && var m, m2 := c.members[n], c2.members[n];
    && m.s.role == Leader && m.s.log != []
    && c2.members == c.members[n := m2] && c2.net == c.net
    && m2 == m.(s := m.s.(log := m2.s.log, matchIndex := m2.s.matchIndex))
    && m2.s.log == m.s.log + [e] && e.term == m.s.term && e.index == |m.s.log|
    && (forall p :: p in m2.s.matchIndex && p != n ==> p in m.s.matchIndex && m2.s.matchIndex[p] == m.s.matchIndex[p])
    && c2.h == c.h.(leaderLogs := c.h.leaderLogs[m.s.term := m2.s.log],
                    acked := c.h.acked[(n, m.s.term) := |m.s.log|])
  }

  lemma ProposeShape(c: Cluster, n: NodeId, cmd: Command)
    requires n in c.members && Full(c.members[n].s.log) && c.members[n].s.role == Leader
    requires (n, c.members[n].s.term) in c.h.acked && c.h.acked[(n, c.members[n].s.term)] <= |c.members[n].s.log| - 1
    ensures Extended(c, n, LogEntry(c.members[n].s.term, |c.members[n].s.log|, cmd), DoPropose(c, n, cmd))
  {
  }

  /** What being leader means for a member. */
  ghost predicate Leading(c: Cluster, n: NodeId) {
    && n in c.members
    && var s := c.members[n].s;
    && s.role == Leader && LogOk(c.h, s.log) && LastTerm(s.log) <= s.term
    && s.term in c.h.leaders && c.h.leaders[s.term].leader == n && 0 < s.term
    && s.term in c.h.leaderLogs && c.h.leaderLogs[s.term] == s.log
    && (n, s.term) in c.h.acked && c.h.acked[(n, s.term)] == |s.log| - 1
  }

  lemma LeaderLeads(c: Cluster, n: NodeId)
    requires MembersOk(c) && ElectionsOk(c) && AcksOk(c) && n in c.members && c.members[n].s.role == Leader
    ensures Leading(c, n)
  {
    assert MemberOk(c, n);
    assert ElectionOk(c, c.members[n].s.term);
    assert AckOk(c, n, c.members[n].s.term);
  }

  ghost predicate Leads(c: Cluster, n: NodeId, e: LogEntry, c2: Cluster) {
    Leading(c, n) && Extended(c, n, e, c2) && Evolves(c, c2)
  }

  lemma ProposeEvolves(c: Cluster, n: NodeId, e: LogEntry, c2: Cluster)
    requires Leading(c, n) && Extended(c, n, e, c2)
    ensures Leads(c, n, e, c2)
  {
    hide LogOk;
    assert LogsGrow(c.h, c2.h);
  }

  lemma ExtendOk(h2: History, log: Log, e: LogEntry)
    requires LogOk(h2, log) && LastTerm(log) <= e.term && e.index == |log|
    requires e.term in h2.leaderLogs && h2.leaderLogs[e.term] == log + [e]
    ensures LogOk(h2, log + [e])
  {
  }

  lemma ProposeKeepsLogs(c: Cluster, n: NodeId, e: LogEntry, c2: Cluster)
    requires LeaderLogsOk(c) && Leads(c, n, e, c2)
    ensures LeaderLogsOk(c2) && LogOk(c2.h, c2.members[n].s.log)
  {
    hide Traced, TermsSorted, Contiguous;
    var log := c.members[n].s.log;
    TracedGrows(c, c2, log);
    ExtendOk(c2.h, log, e);
    LeaderLogsStay(c, c2);
  }

  lemma ProposeKeepsElections(c: Cluster, n: NodeId, e: LogEntry, c2: Cluster)
    requires ElectionsOk(c) && Leads(c, n, e, c2)
    ensures ElectionsOk(c2)
  {
    hide LogOk, ElectionOk;
    ElectionsStay(c, c2);
  }

  lemma VotesSame(c: Cluster, c2: Cluster)
    requires VotesOk(c) && c2.h.votes == c.h.votes && c2.h.leaders == c.h.leaders && c2.h.campaigns == c.h.campaigns
    requires forall n :: n in c.members ==>
               n in c2.members && c2.members[n].s.term == c.members[n].s.term &&
                   c2.members[n].s.votedFor == c.members[n].s.votedFor
    ensures VotesOk(c2)
  {
  }

  lemma ProposeKeepsMember(c: Cluster, n: NodeId, e: LogEntry, c2: Cluster)
    requires MembersOk(c) && Leads(c, n, e, c2) && LogOk(c2.h, c2.members[n].s.log)
    ensures MemberOk(c2, n)
  {
    hide LogOk, Evolves;
    var s, s2 := c.members[n].s, c2.members[n].s;
    assert MemberOk(c, n);
    assert Agree(s2.log, s.log, s.commit) by {
      assert s2.log[..s.commit + 1] == s.log[..s.commit + 1];
    }
    assert LogsGrow(c.h, c2.h);
    CommittedGrows(c, c2, s.log, s.commit, s.term, s2.log, s.term);
    assert LeaderOk(c2, n, s2);
  }

  lemma ProposeKeepsAcks(c: Cluster, n: NodeId, e: LogEntry, c2: Cluster)
    requires AcksOk(c) && Leads(c, n, e, c2)
    ensures AcksOk(c2)
  {
  }

  lemma NewEntryUnacked(c: Cluster, n: NodeId, e: LogEntry, c2: Cluster, x: NodeId, bound: nat)
    requires AcksOk(c) && Leads(c, n, e, c2) && (x == n ==> bound <= c.members[n].s.term)
    ensures OwesNoMore(c, c2, x, bound)
  {
  }

  lemma ProposeKeepsAcked(c: Cluster, n: NodeId, e: LogEntry, c2: Cluster)
    requires AcksOk(c) && AckedKept(c) && Leads(c, n, e, c2)
    ensures AckedKept(c2)
  {
    forall x | x in c2.members
      ensures Keeps(c2, x, c2.members[x].s.term + 1, c2.members[x].s.log)
    {
      var s := c.members[x].s;
      if x == n {
        assert Keeps(c, n, s.term, s.log);
        NewEntryUnacked(c, n, e, c2, n, s.term);
        KeepsStays(c, c2, n, s.term, s.log, c2.members[n].s.log);
      } else {
        NewEntryUnacked(c, n, e, c2, x, s.term + 1);
        KeepsStays(c, c2, x, s.term + 1, s.log, s.log);
      }
    }
  }

  lemma ProposeKeepsVoted(c: Cluster, n: NodeId, e: LogEntry, c2: Cluster)
    requires VotesOk(c) && AcksOk(c) && VotedKept(c) && Leads(c, n, e, c2)
    ensures VotedKept(c2)
  {
    forall v | v in c.h.votes
      ensures OwesNoMore(c, c2, v.voter, v.term)
    {
      assert VoteOk(c, v);
      NewEntryUnacked(c, n, e, c2, v.voter, v.term);
    }
    VotedKeptStays(c, c2);
  }

  /** The majority that elected a later leader has left the term. */
  lemma LaterLeaderBlocks(c: Cluster, t: nat, k: nat, t2: nat)
    requires ElectionsOk(c) && VotesOk(c) && t2 in c.h.leaders && t < t2
    requires forall x :: x in c.members && HasAcked(c.h, x, t, k) ==> c.members[x].s.term <= t
    ensures Blocked(c, t, k)
  {
    var q := c.h.leaders[t2].quorum;
    assert ElectionOk(c, t2);
    forall x | x in q
      ensures c.members[x].s.term > t
    {
      assert VoteOk(c, Vote(x, t2, c.h.leaders[t2].leader));
    }
    assert BlockedBy(c, t, k, q);
  }

  lemma ProposeKeepsLeaders(c: Cluster, n: NodeId, e: LogEntry, c2: Cluster)
    requires AcksOk(c2) && LeadersKept(c) && Leads(c, n, e, c2)
    requires ElectionsOk(c2) && VotesOk(c2) && AcksOk(c)
    ensures LeadersKept(c2)
  {
    var s := c.members[n].s;
    forall t2 | t2 in c2.h.leaderLogs
      ensures LeaderKeeps(c2, t2, c2.h.leaderLogs[t2])
    {
      forall t: nat, k: nat | t < t2 && OwnEntry(c2.h, t, k)
        ensures KeptIn(c2, t, k, c2.h.leaderLogs[t2])
      {
        if OwnEntry(c.h, t, k) {
          assert LeaderKeeps(c, t2, c.h.leaderLogs[t2]);
          KeptGrows(c, c2, t, k, c.h.leaderLogs[t2], c2.h.leaderLogs[t2]);
        } else {
          forall x | x in c2.members && HasAcked(c2.h, x, t, k)
            ensures x == n
          {
            assert (x, t) in c.h.acked ==> AckOk(c, x, t);
          }
          LaterLeaderBlocks(c2, t, k, t2);
        }
      }
    }
  }

  lemma LogIsFull(h: History, log: Log)
    requires LogOk(h, log)
    ensures Full(log)
  {
  }

  lemma ProposeKeeps(c: Cluster, n: NodeId, cmd: Command)
    requires n in c.members && c.members[n].s.log != [] && c.members[n].s.role == Leader
    requires Inv(c)
    ensures Inv(DoPropose(c, n, cmd)) && Evolves(c, DoPropose(c, n, cmd))
  {
    hide LeaderLogsOk, ElectionsOk, CampaignsOk, NetOk, CommitsOk, AppliedOk, VotesOk, AckedKept, VotedKept,
      LeadersKept, MembersOk, AcksOk, Evolves, DoPropose, LogOk;
    var c2 := DoPropose(c, n, cmd);
    var e := LogEntry(c.members[n].s.term, |c.members[n].s.log|, cmd);
    LeaderLeads(c, n);
    LogIsFull(c.h, c.members[n].s.log);
    ProposeShape(c, n, cmd);
    ProposeEvolves(c, n, e, c2);
    ProposeKeepsLogs(c, n, e, c2);
    ProposeKeepsElections(c, n, e, c2);
    CampaignsStay(c, c2);
    NetStays(c, c2);
    CommitsStay(c, c2);
    AppliedStay(c, c2);
    VotesSame(c, c2);
    ProposeKeepsMember(c, n, e, c2);
    MembersStay(c, c2, n);
    ProposeKeepsAcks(c, n, e, c2);
    ProposeKeepsAcked(c, n, e, c2);
    ProposeKeepsVoted(c, n, e, c2);
    ProposeKeepsLeaders(c, n, e, c2);
  }
}
