/** The elementary changes that the atomic steps are made of; each keeps the invariant. */
module Steps {
  import opened RaftTypes
  import opened Cluster
  import opened Invariant
  import opened Evolution

  /** No entry becomes owed: `x` acknowledges nothing new below the bound. */
  ghost predicate OwesNoMore(c: Cluster, c2: Cluster, x: NodeId, bound: nat) {
    forall t: nat, k: nat :: t < bound && OwnEntry(c2.h, t, k) && HasAcked(c2.h, x, t, k) ==>
      OwnEntry(c.h, t, k) && HasAcked(c.h, x, t, k)
  }

  lemma KeepsStays(c: Cluster, c2: Cluster, x: NodeId, bound: nat, log: Log, log2: Log)
    requires Keeps(c, x, bound, log) && Evolves(c, c2) && OwesNoMore(c, c2, x, bound) && log <= log2
    ensures Keeps(c2, x, bound, log2)
  {
    forall t: nat, k: nat | t < bound && OwnEntry(c2.h, t, k) && HasAcked(c2.h, x, t, k)
      ensures KeptIn(c2, t, k, log2)
    {
      KeptGrows(c, c2, t, k, log, log2);
    }
  }

  lemma LeaderKeepsStays(c: Cluster, c2: Cluster, bound: nat, log: Log, log2: Log)
    requires LeaderKeeps(c, bound, log) && Evolves(c, c2) && log <= log2
    requires forall t: nat, k: nat :: t < bound && OwnEntry(c2.h, t, k) ==> OwnEntry(c.h, t, k)
    ensures LeaderKeeps(c2, bound, log2)
  {
    forall t: nat, k: nat | t < bound && OwnEntry(c2.h, t, k)
      ensures KeptIn(c2, t, k, log2)
    {
      KeptGrows(c, c2, t, k, log, log2);
    }
  }

  lemma LeadersKeptStays(c: Cluster, c2: Cluster)
    requires LeadersKept(c) && Evolves(c, c2) && c2.h.leaderLogs == c.h.leaderLogs
    ensures LeadersKept(c2)
  {
    forall t | t in c2.h.leaderLogs
      ensures LeaderKeeps(c2, t, c2.h.leaderLogs[t])
    {
      LeaderKeepsStays(c, c2, t, c.h.leaderLogs[t], c.h.leaderLogs[t]);
    }
  }

  lemma VotedKeptStays(c: Cluster, c2: Cluster)
    requires VotedKept(c) && Evolves(c, c2) && c2.h.votes == c.h.votes
    requires forall v :: v in c.h.votes ==> OwesNoMore(c, c2, v.voter, v.term)
    ensures VotedKept(c2)
  {
    forall v | v in c2.h.votes
      ensures (v.candidate, v.term) in c2.h.campaigns
      ensures Keeps(c2, v.voter, v.term, c2.h.campaigns[(v.candidate, v.term)])
    {
      var log := c.h.campaigns[(v.candidate, v.term)];
      KeepsStays(c, c2, v.voter, v.term, log, log);
    }
  }

  lemma AckedKeptStays(c: Cluster, c2: Cluster)
    requires AckedKept(c) && AcksOk(c) && Evolves(c, c2) && c2.h.leaderLogs == c.h.leaderLogs && c2.h.acked == c.h.acked
    requires forall n :: n in c.members ==> c2.members[n].s.log == c.members[n].s.log
    ensures AckedKept(c2)
  {
    forall x | x in c2.members
      ensures Keeps(c2, x, c2.members[x].s.term + 1, c2.members[x].s.log)
    {
      var log := c.members[x].s.log;
      KeepsStays(c, c2, x, c.members[x].s.term + 1, log, log);
      WiderBound(c, c2, x);
    }
  }

  /** A member has acknowledged nothing in terms it has not reached. */
  lemma WiderBound(c: Cluster, c2: Cluster, x: NodeId)
    requires x in c.members && x in c2.members && AcksOk(c) && c2.h.acked == c.h.acked
    requires Keeps(c2, x, c.members[x].s.term + 1, c2.members[x].s.log)
    ensures Keeps(c2, x, c2.members[x].s.term + 1, c2.members[x].s.log)
  {
  }

  lemma LeaderLogsSame(c: Cluster, c2: Cluster)
    requires LeaderLogsOk(c) && ElectionsOk(c) && Evolves(c, c2)
    requires c2.h.leaderLogs == c.h.leaderLogs && c2.h.leaders == c.h.leaders
    ensures LeaderLogsOk(c2) && ElectionsOk(c2)
  {
    LeaderLogsStay(c, c2);
    ElectionsStay(c, c2);
  }

  /** Clauses that do not mention the members' states. */
  lemma StaticStays(c: Cluster, c2: Cluster)
    requires LeaderLogsOk(c) && ElectionsOk(c) && CampaignsOk(c) && NetOk(c) && CommitsOk(c) && AppliedOk(c)
    requires Evolves(c, c2) && c2.h.leaderLogs == c.h.leaderLogs && c2.h.leaders == c.h.leaders
    requires c2.h.campaigns == c.h.campaigns && NewsOk(c, c2)
    ensures LeaderLogsOk(c2) && ElectionsOk(c2) && CampaignsOk(c2) && NetOk(c2) && CommitsOk(c2) && AppliedOk(c2)
  {
    hide LeaderLogsOk, ElectionsOk, CampaignsOk, NetOk, CommitsOk, AppliedOk, Evolves;
    LeaderLogsSame(c, c2);
    CampaignsStay(c, c2);
    NetStays(c, c2);
    CommitsStay(c, c2);
    AppliedStay(c, c2);
  }

  /** Messages, commitments and applied entries that were not there before are in order. */
  ghost predicate NewsOk(c: Cluster, c2: Cluster) {
    && (forall msg :: msg in c2.net && msg !in c.net ==> MessageOk(c2, msg))
    && (forall e :: e in c2.h.commits && e !in c.h.commits ==> CommitOk(c2, e))
    && (forall a :: a in c2.h.applied && a !in c.h.applied ==> AppliedEntryOk(c2, a))
  }

  /** A change of one member that leaves its log alone, with whatever messages, commitments and
      applied entries it adds. */
  ghost predicate Light(c: Cluster, n: NodeId, c2: Cluster) {
    && n in c.members && n in c2.members
    && var m, m2 := c.members[n], c2.members[n];
    && c2.members == c.members[n := m2]
    && c2.h == c.h.(commits := c2.h.commits, applied := c2.h.applied)
    && c.h.commits <= c2.h.commits && c.h.applied <= c2.h.applied && NewsOk(c, c2)
    && m2.s.log == m.s.log && m.s.term <= m2.s.term && m.s.commit <= m2.s.commit
    && (m2.s.commit == m.s.commit || CommittedIn(c2.h, m.s.log, m2.s.commit, m2.s.term))
    && m2.s.applied <= m2.s.commit && m2.floor <= m2.s.commit
    && (m2.pending.Some? ==> m2.pending.value <= m2.s.commit)
    && (m2.campaign == m.campaign || m2.campaign == None)
    && (m2.s.role == Leader ==>
          && m.s.role == Leader && m2.s.term == m.s.term
          && forall p :: p in m2.s.matchIndex && p != n ==>
               m2.s.matchIndex[p] == 0 || HasAcked(c.h, p, m.s.term, m2.s.matchIndex[p]))
    && (if m2.s.term > m.s.term then m2.s.votedFor == None
        else m2.s.votedFor == m.s.votedFor || (m2.s.votedFor == None && MayForget(c, n, m.s)))
  }

  /** The vote was for oneself and somebody else has won the term. */
  ghost predicate MayForget(c: Cluster, n: NodeId, s: NodeState) {
    s.votedFor == Some(n) && s.term in c.h.leaders && c.h.leaders[s.term].leader != n
  }

  lemma LightKeepsVotes(c: Cluster, n: NodeId, c2: Cluster)
    requires VotesOk(c) && Light(c, n, c2)
    ensures VotesOk(c2)
  {
    hide NewsOk, CommittedIn;
    forall v | v in c2.h.votes
      ensures VoteOk(c2, v)
    {
      assert VoteOk(c, v);
    }
    forall v, w | v in c2.h.votes && w in c2.h.votes
      ensures SingleVote(c2, v, w)
    {
      assert SingleVote(c, v, w);
    }
  }

  lemma LightKeepsMember(c: Cluster, n: NodeId, c2: Cluster)
    requires CampaignsOk(c) && MembersOk(c) && Light(c, n, c2) && Evolves(c, c2)
    ensures MemberOk(c2, n)
  {
    hide NewsOk, LogOk, CommittedIn;
    var m, m2 := c.members[n], c2.members[n];
    assert MemberOk(c, n);
    assert LogOk(c2.h, m.s.log) by {
      LogStays(c, c2, m.s.log);
    }
    assert CommittedIn(c2.h, m.s.log, m2.s.commit, m2.s.term) by {
      if m2.s.commit == m.s.commit {
        WithinLog(c.h, m.s.log, m.s.commit, m.s.term);
        CommittedGrows(c, c2, m.s.log, m.s.commit, m.s.term, m.s.log, m2.s.term);
      }
    }
    assert RunningOk(c2, n, m2) by {
      if m2.campaign.Some? {
        assert CampaignOk(c, n, m.campaign.value);
      }
    }
    assert LeaderOk(c2, n, m2.s);
  }

  lemma LogStays(c: Cluster, c2: Cluster, log: Log)
    requires LogOk(c.h, log) && LogsGrow(c.h, c2.h)
    ensures LogOk(c2.h, log)
  {
  }

  lemma WithinLog(h: History, log: Log, k: nat, t: nat)
    requires CommittedIn(h, log, k, t)
    ensures k < |log|
  {
  }

  /** Members other than `n` do not notice a step of `n`. */
  lemma MembersStay(c: Cluster, c2: Cluster, n: NodeId)
    requires MembersOk(c) && Evolves(c, c2) && n in c.members && MemberOk(c2, n)
    requires forall x :: x in c.members && x != n ==> c2.members[x] == c.members[x]
    requires forall x: NodeId, t: nat :: (x, t) in c2.h.campaigns && x != n ==> (x, t) in c.h.campaigns
    requires forall t :: t in c2.h.leaders && t !in c.h.leaders ==> c2.h.leaders[t].leader == n
    requires forall t :: t in c.h.leaders && c.h.leaders[t].leader != n && t in c.h.leaderLogs ==>
               t in c2.h.leaderLogs && c2.h.leaderLogs[t] == c.h.leaderLogs[t]
    ensures MembersOk(c2)
  {
    forall x | x in c2.members && x != n
      ensures MemberOk(c2, x)
    {
      assert MemberOk(c, x);
      MemberStays(c, c2, x);
    }
  }

  lemma LightKeepsAcks(c: Cluster, n: NodeId, c2: Cluster)
    requires AcksOk(c) && Light(c, n, c2)
    ensures AcksOk(c2)
  {
  }

  lemma LightEvolves(c: Cluster, n: NodeId, c2: Cluster)
    requires Light(c, n, c2)
    ensures Evolves(c, c2)
  {
    hide NewsOk, CommittedIn;
  }

  lemma LightKeeps(c: Cluster, n: NodeId, c2: Cluster)
    requires Light(c, n, c2)
    requires Inv(c)
    ensures Inv(c2) && Evolves(c, c2)
  {
    hide LeaderLogsOk, ElectionsOk, CampaignsOk, NetOk, CommitsOk, AppliedOk, VotesOk, AckedKept, VotedKept,
      LeadersKept, MembersOk, AcksOk, Evolves, NewsOk, CommittedIn;
    LightEvolves(c, n, c2);
    StaticStays(c, c2);
    LightKeepsVotes(c, n, c2);
    AckedKeptStays(c, c2);
    VotedKeptStays(c, c2);
    LeadersKeptStays(c, c2);
    LightKeepsMember(c, n, c2);
    MembersStay(c, c2, n);
    LightKeepsAcks(c, n, c2);
  }
}
