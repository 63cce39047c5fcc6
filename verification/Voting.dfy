/** Casting votes and winning elections keep the invariant. */
module Voting {
  import opened RaftTypes
  import opened LogStore
  import opened Handlers
  import opened Cluster
  import opened Invariant
  import opened Evolution
  import opened Steps

  /** A log that is a prefix of the log of the leader its last entry comes from. */
  lemma LastTraced(h: History, log: Log)
    requires Traced(h, log) && log != []
    ensures LastTerm(log) in h.leaderLogs && log <= h.leaderLogs[LastTerm(log)]
  {
  }

  /** The up-to-date check: a log at least as up to date as one that holds an entry of a leader
      holds the entry too, unless the entry can no longer commit. */
  lemma UpToDateKeeps(c: Cluster, log: Log, better: Log, t: nat, k: nat)
    requires LeaderLogsOk(c) && LeadersKept(c)
    requires LogOk(c.h, log) && LogOk(c.h, better) && OwnEntry(c.h, t, k) && Agree(log, c.h.leaderLogs[t], k)
    requires LastTerm(better) > LastTerm(log) || (LastTerm(better) == LastTerm(log) && |better| >= |log|)
    ensures KeptIn(c, t, k, better)
  {
    hide LeaderLogsOk, LeadersKept, Traced, Blocked;
    var own := c.h.leaderLogs[t];
    AgreeWeaken(log, own, k, k);
    LastTraced(c.h, log);
    LastTraced(c.h, better);
    var lead := c.h.leaderLogs[LastTerm(better)];
    if LastTerm(better) == LastTerm(log) {
      assert log <= better;
      AgreeExtends(own, log, better, k);
    } else if !Blocked(c, t, k) {
      LeaderHolds(c, LastTerm(better), t, k);
      AgreeWeaken(lead, own, k, k);
      assert k < |better|;
      AgreeExtends(own, better, lead, k);
      assert better[..k + 1] == lead[..k + 1];
    }
  }

  lemma LeaderHolds(c: Cluster, u: nat, t: nat, k: nat)
    requires LeaderLogsOk(c) && LeadersKept(c) && u in c.h.leaderLogs && t < u
    requires OwnEntry(c.h, t, k) && !Blocked(c, t, k)
    ensures Agree(c.h.leaderLogs[u], c.h.leaderLogs[t], k) && TermsSorted(c.h.leaderLogs[u])
  {
    assert LeaderKeeps(c, u, c.h.leaderLogs[u]);
  }

  lemma GrantedVoteKept(c: Cluster, n: NodeId, v: VoteArgs, better: Log, bound: nat)
    requires LeaderLogsOk(c) && LeadersKept(c) && n in c.members
    requires LogOk(c.h, c.members[n].s.log) && Keeps(c, n, bound, c.members[n].s.log) && v.term <= bound
    requires LogOk(c.h, better) && v.lastLogIndex == |better| - 1 && v.lastLogTerm == LastTerm(better)
    requires UpToDate(v, c.members[n].s.log)
    ensures Keeps(c, n, v.term, better)
  {
    hide LeaderLogsOk, LeadersKept, Traced, TermsSorted, Blocked;
    var log := c.members[n].s.log;
    forall t: nat, k: nat | t < v.term && OwnEntry(c.h, t, k) && HasAcked(c.h, n, t, k)
      ensures KeptIn(c, t, k, better)
    {
      if Agree(log, c.h.leaderLogs[t], k) {
        UpToDateKeeps(c, log, better, t, k);
      }
    }
  }

  /** Adding a vote that repeats or makes the voter's only vote of its term. */
  function Grant(c: Cluster, n: NodeId, a: NodeId): Cluster
    requires n in c.members
  {
    var m := c.members[n];
    CastVote(With(c, n, m.(s := m.s.(votedFor := Some(a)))), Vote(n, m.s.term, a))
  }

  ghost predicate MayGrant(c: Cluster, n: NodeId, a: NodeId) {
    && n in c.members && a != n && 0 < c.members[n].s.term
    && (c.members[n].s.votedFor == None || c.members[n].s.votedFor == Some(a))
    && (a, c.members[n].s.term) in c.h.campaigns
  }

  /** Another vote in the same term can only be a forgotten one for oneself, and then the voter
      did not help to elect the term's leader. */
  lemma OtherVote(c: Cluster, n: NodeId, a: NodeId, w: Vote)
    requires VotesOk(c) && ElectionsOk(c) && MayGrant(c, n, a)
    requires w in c.h.votes && w.voter == n && w.term == c.members[n].s.term && w.candidate != a
    ensures w.term in c.h.leaders && n !in c.h.leaders[w.term].quorum
  {
  }

  lemma GrantKeepsVotes(c: Cluster, n: NodeId, a: NodeId)
    requires VotesOk(c) && ElectionsOk(c) && MayGrant(c, n, a)
    ensures VotesOk(Grant(c, n, a))
  {
    var c2 := Grant(c, n, a);
    var v := Vote(n, c.members[n].s.term, a);
    forall w | w in c2.h.votes
      ensures VoteOk(c2, w)
    {
      assert w != v ==> VoteOk(c, w);
    }
    forall w, x | w in c2.h.votes && x in c2.h.votes
      ensures SingleVote(c2, w, x)
    {
      if w in c.h.votes && x in c.h.votes {
        assert SingleVote(c, w, x);
      } else if w.voter == n == x.voter && w.term == x.term == v.term && w.candidate != x.candidate {
        OtherVote(c, n, a, if w == v then x else w);
      }
    }
  }

  lemma GrantKeepsKept(c: Cluster, n: NodeId, a: NodeId)
    requires AcksOk(c) && AckedKept(c) && VotedKept(c) && LeadersKept(c) && MayGrant(c, n, a)
    requires Keeps(c, n, c.members[n].s.term, c.h.campaigns[(a, c.members[n].s.term)])
    requires Evolves(c, Grant(c, n, a))
    ensures AckedKept(Grant(c, n, a)) && VotedKept(Grant(c, n, a)) && LeadersKept(Grant(c, n, a))
  {
    var c2 := Grant(c, n, a);
    AckedKeptStays(c, c2);
    LeadersKeptStays(c, c2);
    forall v | v in c2.h.votes
      ensures (v.candidate, v.term) in c2.h.campaigns
      ensures Keeps(c2, v.voter, v.term, c2.h.campaigns[(v.candidate, v.term)])
    {
      var log := c.h.campaigns[(v.candidate, v.term)];
      KeepsStays(c, c2, v.voter, v.term, log, log);
    }
  }

  lemma GrantEvolves(c: Cluster, n: NodeId, a: NodeId)
    requires MayGrant(c, n, a)
    ensures Evolves(c, Grant(c, n, a))
  {
  }

  lemma GrantKeepsMember(c: Cluster, n: NodeId, a: NodeId)
    requires MembersOk(c) && MayGrant(c, n, a)
    ensures MemberOk(Grant(c, n, a), n)
  {
  }

  lemma GrantKeepsAcks(c: Cluster, n: NodeId, a: NodeId)
    requires AcksOk(c) && MayGrant(c, n, a)
    ensures AcksOk(Grant(c, n, a))
  {
  }

  lemma GrantKeeps(c: Cluster, n: NodeId, a: NodeId)
    requires MayGrant(c, n, a)
    requires Keeps(c, n, c.members[n].s.term, c.h.campaigns[(a, c.members[n].s.term)])
    requires Inv(c)
    ensures Inv(Grant(c, n, a)) && Evolves(c, Grant(c, n, a))
  {
    hide LeaderLogsOk, ElectionsOk, CampaignsOk, NetOk, CommitsOk, AppliedOk, VotesOk, AckedKept, VotedKept,
      LeadersKept, MembersOk, AcksOk, Evolves;
    var c2 := Grant(c, n, a);
    GrantEvolves(c, n, a);
    assert NewsOk(c, c2);
    StaticStays(c, c2);
    GrantKeepsVotes(c, n, a);
    GrantKeepsKept(c, n, a);
    GrantKeepsMember(c, n, a);
    MembersStay(c, c2, n);
    GrantKeepsAcks(c, n, a);
  }

  // --- Starting an election ---

  ghost predicate MayStand(c: Cluster, n: NodeId) {
    && n in c.members && c.members[n].s.log != []
    && c.members[n].s.role != Leader && c.members[n].campaign == None
  }

  /** A node starts an election: a new term, a vote for itself, and its log put on record. */
  function Stand(c: Cluster, n: NodeId): Cluster
    requires n in c.members && c.members[n].s.log != []
  {
    var m := c.members[n];
    var s' := Handlers.StartElection(m.s, n);
    var c1 := With(c, n, m.(s := s', campaign := Some(s'.term)));
    c1.(h := c1.h.(votes := c1.h.votes + {Vote(n, s'.term, n)}, campaigns := c1.h.campaigns[(n, s'.term) := s'.log]))
  }

  lemma StandIsNew(c: Cluster, n: NodeId)
    requires CampaignsOk(c) && MayStand(c, n)
    ensures forall t: nat :: (n, t) in c.h.campaigns ==> t <= c.members[n].s.term
  {
  }

  lemma StandEvolves(c: Cluster, n: NodeId)
    requires CampaignsOk(c) && MayStand(c, n)
    ensures Evolves(c, Stand(c, n))
  {
    StandIsNew(c, n);
  }

  lemma StandKeepsVotes(c: Cluster, n: NodeId)
    requires VotesOk(c) && MayStand(c, n)
    ensures VotesOk(Stand(c, n))
  {
    var c2 := Stand(c, n);
    var v := Vote(n, c.members[n].s.term + 1, n);
    forall w | w in c2.h.votes
      ensures VoteOk(c2, w)
    {
      assert w != v ==> VoteOk(c, w);
    }
    forall w, x | w in c2.h.votes && x in c2.h.votes
      ensures SingleVote(c2, w, x)
    {
      assert w != v ==> VoteOk(c, w);
      assert x != v ==> VoteOk(c, x);
      if w != v && x != v {
        assert SingleVote(c, w, x);
      }
    }
  }

  lemma StandKeepsKept(c: Cluster, n: NodeId)
    requires CampaignsOk(c) && AcksOk(c) && AckedKept(c) && VotedKept(c) && LeadersKept(c) && MayStand(c, n)
    requires Evolves(c, Stand(c, n))
    ensures AckedKept(Stand(c, n)) && VotedKept(Stand(c, n)) && LeadersKept(Stand(c, n))
  {
    var c2 := Stand(c, n);
    var t2 := c.members[n].s.term + 1;
    AckedKeptStays(c, c2);
    LeadersKeptStays(c, c2);
    forall v | v in c2.h.votes
      ensures (v.candidate, v.term) in c2.h.campaigns
      ensures Keeps(c2, v.voter, v.term, c2.h.campaigns[(v.candidate, v.term)])
    {
      if v == Vote(n, t2, n) {
        KeepsStays(c, c2, n, t2, c.members[n].s.log, c.members[n].s.log);
      } else {
        var log := c.h.campaigns[(v.candidate, v.term)];
        KeepsStays(c, c2, v.voter, v.term, log, log);
      }
    }
  }

  lemma StandRuns(c: Cluster, n: NodeId)
    requires CampaignsOk(c) && ElectionsOk(c) && MayStand(c, n)
    ensures RunningOk(Stand(c, n), n, Stand(c, n).members[n])
  {
  }

  lemma StandKeepsMember(c: Cluster, n: NodeId)
    requires MembersOk(c) && MayStand(c, n) && Evolves(c, Stand(c, n))
    requires RunningOk(Stand(c, n), n, Stand(c, n).members[n])
    ensures MemberOk(Stand(c, n), n)
    ensures CampaignOk(Stand(c, n), n, c.members[n].s.term + 1)
  {
    hide RunningOk, Traced, TermsSorted, Contiguous, CommittedIn, Evolves, Agree;
    assert MemberOk(c, n);
    GrowsHere(c, Stand(c, n), n, c.members[n].s.term + 1);
  }

  lemma StandKeepsCampaigns(c: Cluster, n: NodeId)
    requires CampaignsOk(c) && MayStand(c, n) && Evolves(c, Stand(c, n))
    requires CampaignOk(Stand(c, n), n, c.members[n].s.term + 1)
    ensures CampaignsOk(Stand(c, n))
  {
  }

  lemma StandKeepsAcks(c: Cluster, n: NodeId)
    requires AcksOk(c) && MayStand(c, n)
    ensures AcksOk(Stand(c, n))
  {
  }

  lemma StandKeeps(c: Cluster, n: NodeId)
    requires MayStand(c, n)
    requires Inv(c)
    ensures Inv(Stand(c, n)) && Evolves(c, Stand(c, n))
  {
    hide LeaderLogsOk, ElectionsOk, CampaignsOk, NetOk, CommitsOk, AppliedOk, VotesOk, AckedKept, VotedKept,
      LeadersKept, MembersOk, AcksOk, Evolves;
    var c2 := Stand(c, n);
    StandEvolves(c, n);
    StandRuns(c, n);
    StandKeepsMember(c, n);
    LeaderLogsSame(c, c2);
    StandKeepsCampaigns(c, n);
    NetStays(c, c2);
    CommitsStay(c, c2);
    AppliedStay(c, c2);
    StandKeepsVotes(c, n);
    StandKeepsKept(c, n);
    MembersStay(c, c2, n);
    StandKeepsAcks(c, n);
  }
}
