/** Winning an election in the campaign's own term keeps the invariant. */
module Electing {
  import opened RaftTypes
  import opened LogStore
  import opened Cluster
  import opened Invariant
  import opened Evolution
  import opened Agreement
  import opened Steps

  ghost predicate MayWin(c: Cluster, n: NodeId, q: set<NodeId>) {
    && n in c.members && c.members[n].s.log != [] && Majority(c, q)
    && WinInTerm(c.members[n])
    && forall x :: x in q ==> Vote(x, c.members[n].s.term, n) in c.h.votes
  }

  /** Two majorities of votes of one term are for one candidate. */
  lemma ElectedOnce(c: Cluster, n: NodeId, q: set<NodeId>, t: nat)
    requires VotesOk(c) && ElectionOk(c, t) && Majority(c, q)
    requires forall x :: x in q ==> Vote(x, t, n) in c.h.votes
    ensures c.h.leaders[t].leader == n
  {
    var x := MajoritiesMeet(c, q, c.h.leaders[t].quorum);
    assert SingleVote(c, Vote(x, t, n), Vote(x, t, c.h.leaders[t].leader));
  }

  /** Election Safety: nobody has won the term of a campaign that collects a majority. */
  lemma NoRival(c: Cluster, n: NodeId, q: set<NodeId>)
    requires ElectionsOk(c) && VotesOk(c) && MembersOk(c) && MayWin(c, n, q)
    ensures c.members[n].s.term !in c.h.leaders && c.members[n].s.term !in c.h.leaderLogs
    ensures c.members[n].s.log == c.h.campaigns[(n, c.members[n].s.term)]
  {
    var t := c.members[n].s.term;
    assert MemberOk(c, n);
    if t in c.h.leaders {
      assert ElectionOk(c, t);
      ElectedOnce(c, n, q, t);
      assert false;
    }
    var x := MajoritiesMeet(c, q, q);
    assert VoteOk(c, Vote(x, t, n));
  }

  lemma NoOwnEntry(h: History, t: nat, log: Log)
    requires t in h.leaderLogs && h.leaderLogs[t] == log && log != [] && TermsSorted(log) && LastTerm(log) < t
    ensures forall k: nat :: !OwnEntry(h, t, k)
  {
  }

  /** What winning changes. */
  ghost predicate Won(c: Cluster, n: NodeId, q: set<NodeId>, c2: Cluster) {
    && n in c.members && n in c2.members
    && var m, m2 := c.members[n], c2.members[n];
    && c2.members == c.members[n := m2] && c2.net == c.net
    && m2.s.log == m.s.log && m2.s.term == m.s.term && m2.s.commit == m.s.commit && m2.s.applied == m.s.applied
    && m2.s.votedFor == m.s.votedFor && m2.s.role == Leader && m2.floor == m.floor && m2.pending == m.pending
    && m2.campaign == None
    && (forall p :: p in m2.s.matchIndex && p != n ==> m2.s.matchIndex[p] == 0)
    && c2.h == c.h.(leaders := c.h.leaders[m.s.term := Election(n, q)],
                    leaderLogs := c.h.leaderLogs[m.s.term := m.s.log],
                    acked := c2.h.acked)
    && m.s.log != [] && c2.h.acked == c.h.acked[(n, m.s.term) := |m.s.log| - 1]
  }

  lemma WinShape(c: Cluster, n: NodeId, q: set<NodeId>)
    requires n in c.members && Full(c.members[n].s.log) && (n, c.members[n].s.term) !in c.h.acked
    ensures Won(c, n, q, DoWin(c, n, q))
  {
  }

  lemma NothingAcked(c: Cluster, n: NodeId)
    requires AcksOk(c) && n in c.members && c.members[n].s.term !in c.h.leaderLogs
    ensures (n, c.members[n].s.term) !in c.h.acked
  {
  }

  lemma WinEvolves(c: Cluster, n: NodeId, q: set<NodeId>, c2: Cluster)
    requires Won(c, n, q, c2) && (n, c.members[n].s.term) !in c.h.acked
    requires c.members[n].s.term !in c.h.leaders && c.members[n].s.term !in c.h.leaderLogs
    ensures Evolves(c, c2)
  {
  }

  ghost predicate Fresh(c: Cluster, n: NodeId, q: set<NodeId>, c2: Cluster) {
    && MayWin(c, n, q) && Won(c, n, q, c2) && Evolves(c, c2)
    && c.members[n].s.term !in c.h.leaders && c.members[n].s.term !in c.h.leaderLogs
    && (n, c.members[n].s.term) !in c.h.acked
    && LogOk(c.h, c.members[n].s.log) && LastTerm(c.members[n].s.log) < c.members[n].s.term
    && c.h.campaigns.Keys >= {(n, c.members[n].s.term)}
    && c.h.campaigns[(n, c.members[n].s.term)] == c.members[n].s.log
  }

  lemma WinIsFresh(c: Cluster, n: NodeId, q: set<NodeId>, c2: Cluster)
    requires ElectionsOk(c) && CampaignsOk(c) && VotesOk(c) && MembersOk(c) && AcksOk(c) && MayWin(c, n, q)
    requires c2 == DoWin(c, n, q)
    ensures Fresh(c, n, q, c2)
  {
    hide Evolves, Traced, TermsSorted, CommittedIn, Contiguous, VotesOk, ElectionsOk, AcksOk;
    assert MemberOk(c, n) && CampaignOk(c, n, c.members[n].s.term);
    hide CampaignsOk, MembersOk;
    NoRival(c, n, q);
    NothingAcked(c, n);
    WinShape(c, n, q);
    WinEvolves(c, n, q, c2);
  }

  lemma WinKeepsLogs(c: Cluster, n: NodeId, q: set<NodeId>, c2: Cluster)
    requires LeaderLogsOk(c) && Fresh(c, n, q, c2)
    ensures LeaderLogsOk(c2)
  {
    hide MayWin, Full, TermsSorted, Traced;
    TracedGrows(c, c2, c.members[n].s.log);
    LeaderLogsStay(c, c2);
  }

  lemma WinKeepsElections(c: Cluster, n: NodeId, q: set<NodeId>, c2: Cluster)
    requires ElectionsOk(c) && Fresh(c, n, q, c2)
    ensures ElectionsOk(c2)
  {
    hide LogOk;
    assert |c.members| == |c.members.Keys| && |c2.members| == |c2.members.Keys|;
    assert ElectionOk(c2, c.members[n].s.term);
    hide ElectionOk;
    ElectionsStay(c, c2);
  }

  lemma WinKeepsVotes(c: Cluster, n: NodeId, q: set<NodeId>, c2: Cluster)
    requires VotesOk(c) && Fresh(c, n, q, c2)
    ensures VotesOk(c2)
  {
    forall v | v in c2.h.votes
      ensures VoteOk(c2, v)
    {
      assert VoteOk(c, v);
    }
    forall v, w | v in c2.h.votes && w in c2.h.votes
      ensures SingleVote(c2, v, w)
    {
      assert SingleVote(c, v, w);
    }
  }

  lemma WinKeepsMember(c: Cluster, n: NodeId, q: set<NodeId>, c2: Cluster)
    requires MembersOk(c) && Fresh(c, n, q, c2)
    ensures MemberOk(c2, n)
  {
    hide Traced, TermsSorted, RunningOk, LeaderOk, CommittedIn, Evolves, MayWin, Contiguous, Agree;
    var s := c.members[n].s;
    assert MemberOk(c, n);
    GrowsHere(c, c2, n, s.term);
    WinnerLeads(c, n, q, c2);
  }

  lemma WinnerLeads(c: Cluster, n: NodeId, q: set<NodeId>, c2: Cluster)
    requires Won(c, n, q, c2)
    ensures LeaderOk(c2, n, c2.members[n].s) && RunningOk(c2, n, c2.members[n])
  {
  }

  /** What the voters had acknowledged is in the winner's log; what none of them had can no
      longer be acknowledged by a majority. */
  lemma WinnerKeeps(c: Cluster, n: NodeId, q: set<NodeId>, c2: Cluster)
    requires VotesOk(c) && VotedKept(c) && Fresh(c, n, q, c2)
    ensures LeaderKeeps(c, c.members[n].s.term, c.members[n].s.log)
  {
    var t2 := c.members[n].s.term;
    forall t: nat, k: nat | t < t2 && OwnEntry(c.h, t, k)
      ensures KeptIn(c, t, k, c.members[n].s.log)
    {
      if x :| x in q && HasAcked(c.h, x, t, k) {
        assert Keeps(c, x, t2, c.h.campaigns[(n, t2)]);
      } else {
        forall x | x in q
          ensures c.members[x].s.term > t
        {
          assert VoteOk(c, Vote(x, t2, n));
        }
        assert BlockedBy(c, t, k, q);
      }
    }
  }

  lemma WinKeepsLeaders(c: Cluster, n: NodeId, q: set<NodeId>, c2: Cluster)
    requires VotesOk(c) && VotedKept(c) && LeadersKept(c) && Fresh(c, n, q, c2)
    ensures LeadersKept(c2)
  {
    var log := c.members[n].s.log;
    WinnerKeeps(c, n, q, c2);
    NoOwnEntry(c2.h, c.members[n].s.term, log);
    forall t | t in c2.h.leaderLogs
      ensures LeaderKeeps(c2, t, c2.h.leaderLogs[t])
    {
      LeaderKeepsStays(c, c2, t, c2.h.leaderLogs[t], c2.h.leaderLogs[t]);
    }
  }

  lemma WinKeepsKept(c: Cluster, n: NodeId, q: set<NodeId>, c2: Cluster)
    requires AckedKept(c) && VotedKept(c) && Fresh(c, n, q, c2)
    ensures AckedKept(c2) && VotedKept(c2)
  {
    NoOwnEntry(c2.h, c.members[n].s.term, c.members[n].s.log);
    VotedKeptStays(c, c2);
    forall x | x in c2.members
      ensures Keeps(c2, x, c2.members[x].s.term + 1, c2.members[x].s.log)
    {
      KeepsStays(c, c2, x, c.members[x].s.term + 1, c.members[x].s.log, c.members[x].s.log);
    }
  }

  lemma WinKeepsAcks(c: Cluster, n: NodeId, q: set<NodeId>, c2: Cluster)
    requires AcksOk(c) && Fresh(c, n, q, c2)
    ensures AcksOk(c2)
  {
    forall x: NodeId, t: nat | (x, t) in c2.h.acked
      ensures AckOk(c2, x, t)
    {
      if (x, t) in c.h.acked {
        assert AckOk(c, x, t);
      }
    }
  }

  lemma WinKeeps(c: Cluster, n: NodeId, q: set<NodeId>)
    requires MayWin(c, n, q)
    requires Inv(c)
    ensures Inv(DoWin(c, n, q)) && Evolves(c, DoWin(c, n, q))
  {
    hide LeaderLogsOk, ElectionsOk, CampaignsOk, NetOk, CommitsOk, AppliedOk, VotesOk, AckedKept, VotedKept,
      LeadersKept, MembersOk, AcksOk, Evolves;
    var c2 := DoWin(c, n, q);
    WinIsFresh(c, n, q, c2);
    WinKeepsLogs(c, n, q, c2);
    WinKeepsElections(c, n, q, c2);
    CampaignsStay(c, c2);
    NetStays(c, c2);
    CommitsStay(c, c2);
    AppliedStay(c, c2);
    WinKeepsVotes(c, n, q, c2);
    WinKeepsMember(c, n, q, c2);
    MembersStay(c, c2, n);
    WinKeepsKept(c, n, q, c2);
    WinKeepsLeaders(c, n, q, c2);
    WinKeepsAcks(c, n, q, c2);
  }
}
