/** Local steps, elections, votes and appends keep the invariant. */
module Preservation {
  import opened RaftTypes
  import opened LogStore
  import opened Handlers
  import opened Cluster
  import opened Invariant
  import opened Evolution
  import opened Agreement
  import opened Steps
  import opened Proposing
  import opened Voting
  import opened Electing
  import opened Adopting

  lemma InvWellFormed(c: Cluster)
    requires Inv(c)
    ensures WellFormed(c)
  {
    hide LeaderLogsOk, ElectionsOk, CampaignsOk, CommitsOk, AppliedOk, VotesOk, AckedKept, VotedKept, LeadersKept,
      AcksOk;
    forall n | n in c.members
      ensures Full(c.members[n].s.log) && c.members[n].floor < |c.members[n].s.log|
    {
      assert MemberOk(c, n);
    }
    forall m | m in c.net
      ensures m.AppendReq? ==> Follows(m.args.prevLogIndex, m.args.entries)
      ensures m.SnapReq? ==> Full(m.prefix)
    {
      assert MessageOk(c, m);
      if m.SnapReq? {
        LeaderLogFull(c, m.snap.term);
      }
    }
  }

  lemma LeaderLogFull(c: Cluster, t: nat)
    requires t in c.h.leaderLogs
    requires Inv(c)
    ensures LogOk(c.h, c.h.leaderLogs[t])
  {
    hide ElectionsOk, CampaignsOk, CommitsOk, AppliedOk, VotesOk, AckedKept, VotedKept, LeadersKept, AcksOk,
      MembersOk, NetOk, LogOk;
  }

  lemma MemberIsOk(c: Cluster, n: NodeId)
    requires n in c.members
    requires Inv(c)
    ensures MemberOk(c, n)
  {
    hide LeaderLogsOk, ElectionsOk, CampaignsOk, CommitsOk, AppliedOk, VotesOk, AckedKept, VotedKept, LeadersKept,
      AcksOk, NetOk, MemberOk;
  }

  lemma MessageIsOk(c: Cluster, msg: Message)
    requires msg in c.net
    requires Inv(c)
    ensures MessageOk(c, msg)
  {
    hide LeaderLogsOk, ElectionsOk, CampaignsOk, CommitsOk, AppliedOk, VotesOk, AckedKept, VotedKept, LeadersKept,
      AcksOk, MembersOk, MessageOk;
  }

  lemma EvolvesTrans(a: Cluster, b: Cluster, c: Cluster)
    requires Evolves(a, b) && Evolves(b, c)
    ensures Evolves(a, c)
  {
  }

  /** A change of one member that touches neither its log nor its commit index, drops no vote
      of its term, and gives no leader anything it had not. */
  ghost predicate Quiet(m: Member, m2: Member) {
    && m2.s.log == m.s.log && m2.s.commit == m.s.commit && m.s.term <= m2.s.term
    && m2.s.applied <= m2.s.commit && m2.floor <= m2.s.commit
    && (m2.pending.Some? ==> m2.pending.value <= m2.s.commit)
    && (m2.campaign == m.campaign || m2.campaign == None)
    && (m2.s.role == Leader ==> m.s.role == Leader && m2.s.term == m.s.term && m2.s.matchIndex == m.s.matchIndex)
    && m2.s.votedFor == if m2.s.term > m.s.term then None else m.s.votedFor
  }

  lemma QuietIsLight(c: Cluster, n: NodeId, c2: Cluster)
    requires n in c.members && n in c2.members && LeaderOk(c, n, c.members[n].s)
    requires Quiet(c.members[n], c2.members[n])
    requires c2.members == c.members[n := c2.members[n]] && c2.h == c.h && NewsOk(c, c2)
    ensures Light(c, n, c2)
  {
  }

  lemma QuietKeeps(c: Cluster, n: NodeId, m2: Member)
    requires n in c.members && Quiet(c.members[n], m2)
    requires Inv(c)
    ensures Inv(With(c, n, m2)) && Evolves(c, With(c, n, m2))
  {
    hide Inv, Light, Evolves, Quiet, LogOk, CommittedIn, RunningOk, LeaderOk;
    var c2 := With(c, n, m2);
    MemberIsOk(c, n);
    QuietIsLight(c, n, c2);
    LightKeeps(c, n, c2);
  }

  /** Sending a message that is in order. */
  lemma SendKeeps(c: Cluster, n: NodeId, msg: Message)
    requires n in c.members && MessageOk(Send(c, msg), msg)
    requires Inv(c)
    ensures Inv(Send(c, msg)) && Evolves(c, Send(c, msg))
  {
    hide Inv, Light, Evolves, LogOk, CommittedIn, RunningOk, LeaderOk, MessageOk;
    var c2 := Send(c, msg);
    MemberIsOk(c, n);
    assert c2.members == c.members[n := c.members[n]];
    QuietIsLight(c, n, c2);
    LightKeeps(c, n, c2);
  }

  /** The calls in progress play no part in the invariant. */
  lemma CallsKeep(c: Cluster, calls: map<(NodeId, NodeId), Call>)
    requires Inv(c)
    ensures var c2 := c.(calls := calls); Inv(c2) && Evolves(c, c2)
  {
    hide Inv, Light, Evolves, LogOk, CommittedIn, RunningOk, LeaderOk, MessageOk;
    var c2 := c.(calls := calls);
    var n :| n in c.members by {
      SomeMember(c);
    }
    MemberIsOk(c, n);
    assert c2.members == c.members[n := c.members[n]];
    QuietIsLight(c, n, c2);
    LightKeeps(c, n, c2);
  }

  lemma SomeMember(c: Cluster)
    requires Inv(c)
    ensures exists n :: n in c.members
  {
    hide LeaderLogsOk, ElectionsOk, CampaignsOk, CommitsOk, AppliedOk, VotesOk, AckedKept, VotedKept, LeadersKept,
      AcksOk, NetOk, MemberOk;
    assert c.members.Keys != {};
    var n :| n in c.members.Keys;
  }

  // --- Steps of the Run thread ---

  ghost predicate StepKept(c: Cluster, a: Action)
    requires WellFormed(c) && Enabled(c, a)
  {
    Inv(Do(c, a)) && Evolves(c, Do(c, a))
  }

  lemma LocalStepKeeps(c: Cluster, a: Action)
    requires WellFormed(c) && Enabled(c, a)
    requires a.ElectionTimeout? || a.SeeHigherTerm? || a.EndCampaign? || a.StepDown? || a.CaptureLabel? ||
             a.DropSnapshot? || a.ApplyEnd?
    requires Inv(c)
    ensures StepKept(c, a)
  {
    hide Inv, Evolves, LogOk, CommittedIn, RunningOk, LeaderOk;
    MemberIsOk(c, a.n);
    var m2 := Do(c, a).members[a.n];
    assert Do(c, a) == With(c, a.n, m2);
    assert Quiet(c.members[a.n], m2);
    QuietKeeps(c, a.n, m2);
  }

  lemma StandMessage(c: Cluster, n: NodeId)
    requires n in c.members && Full(c.members[n].s.log)
    ensures var c1 := Stand(c, n);
            var msg := VoteReq(VoteRequest(c1.members[n].s, n));
            MessageOk(Send(c1, msg), msg) && DoStartElection(c, n) == Send(c1, msg)
  {
  }

  lemma StartElectionKeeps(c: Cluster, a: Action)
    requires WellFormed(c) && Enabled(c, a) && a.StartElection?
    requires Inv(c)
    ensures StepKept(c, a)
  {
    var n := a.n;
    hide Inv, Evolves, MessageOk, DoStartElection;
    StandMessage(c, n);
    var c1 := Stand(c, n);
    var msg := VoteReq(VoteRequest(c1.members[n].s, n));
    StandKeeps(c, n);
    SendKeeps(c1, n, msg);
    EvolvesTrans(c, c1, Send(c1, msg));
  }

  lemma WinStepKeeps(c: Cluster, a: Action)
    requires WellFormed(c) && Enabled(c, a) && Guarded(c, a) && a.Win?
    requires Inv(c)
    ensures StepKept(c, a)
  {
    hide Inv, Evolves;
    WinKeeps(c, a.n, a.quorum);
  }

  lemma ProposeStepKeeps(c: Cluster, a: Action)
    requires WellFormed(c) && Enabled(c, a) && a.Propose?
    requires Inv(c)
    ensures StepKept(c, a)
  {
    hide Inv, Evolves;
    ProposeKeeps(c, a.n, a.cmd);
  }

  // --- Handlers ---

  lemma CampaignIsOk(c: Cluster, x: NodeId, t: nat)
    requires (x, t) in c.h.campaigns
    requires Inv(c)
    ensures CampaignOk(c, x, t)
  {
    hide LeaderLogsOk, ElectionsOk, NetOk, CommitsOk, AppliedOk, VotesOk, AckedKept, VotedKept, LeadersKept, AcksOk,
      MembersOk, CampaignOk;
  }

  /** A vote is granted only to a candidate whose log holds what the voter acknowledged. */
  lemma GrantIsKept(c: Cluster, n: NodeId, vote: VoteArgs)
    requires n in c.members && VoteReq(vote) in c.net && vote.term == c.members[n].s.term
    requires c.members[n].s.log != [] && UpToDate(vote, c.members[n].s.log)
    requires Inv(c)
    ensures (vote.candidate, vote.term) in c.h.campaigns && 0 < vote.term
    ensures Keeps(c, n, vote.term, c.h.campaigns[(vote.candidate, vote.term)])
  {
    MessageIsOk(c, VoteReq(vote));
    CampaignIsOk(c, vote.candidate, vote.term);
    MemberIsOk(c, n);
    assert Keeps(c, n, vote.term + 1, c.members[n].s.log) by {
      assert AckedKept(c);
    }
    hide Inv, LogOk, CommittedIn, RunningOk, LeaderOk, Keeps;
    assert LeaderLogsOk(c) && LeadersKept(c) by {
      InvLeaders(c);
    }
    GrantedVoteKept(c, n, vote, c.h.campaigns[(vote.candidate, vote.term)], vote.term + 1);
  }

  lemma InvLeaders(c: Cluster)
    requires Inv(c)
    ensures LeaderLogsOk(c) && LeadersKept(c) && Settled(c)
  {
    hide LeaderLogsOk, ElectionsOk, CampaignsOk, NetOk, CommitsOk, AppliedOk, VotesOk, AckedKept, VotedKept,
      LeadersKept, AcksOk, MembersOk;
  }

  /** The step as a move to the candidate's term and, perhaps, a vote. */
  lemma VoteEffect(c: Cluster, n: NodeId, vote: VoteArgs, c1: Cluster)
    requires n in c.members && c.members[n].s.log != []
    requires var s := c.members[n].s;
             c1 == With(c, n, c.members[n].(s := if vote.term > s.term then BecomeFollower(s, vote.term) else s))
    ensures DoVote(c, n, vote) ==
            if HandleRequestVote(c.members[n].s, vote).1.granted then Grant(c1, n, vote.candidate) else c1
  {
  }

  lemma VoteStepKeeps(c: Cluster, a: Action)
    requires WellFormed(c) && Enabled(c, a) && a.HandleVote?
    requires Inv(c)
    ensures StepKept(c, a)
  {
    hide Inv, Evolves, LogOk, CommittedIn, RunningOk, LeaderOk, Keeps;
    var n, vote, m := a.n, a.vote, c.members[a.n];
    MemberIsOk(c, n);
    assert Do(c, a) == DoVote(c, n, vote);
    hide Do, WellFormed, Enabled;
    var m1 := m.(s := if vote.term > m.s.term then BecomeFollower(m.s, vote.term) else m.s);
    var c1 := With(c, n, m1);
    QuietKeeps(c, n, m1);
    VoteEffect(c, n, vote, c1);
    hide DoVote, Grant;
    if HandleRequestVote(m.s, vote).1.granted {
      GrantIsKept(c1, n, vote);
      GrantKeeps(c1, n, vote.candidate);
      EvolvesTrans(c, c1, Grant(c1, n, vote.candidate));
    }
  }

  /** Following the leader of a term, without forgetting a vote that may have counted. */
  lemma RecogniseKeeps(c: Cluster, n: NodeId, t: nat, leader: NodeId)
    requires FromLeader(c, t, leader, n) && c.members[n].s.term <= t
    requires !ForgetsVote(c.members[n].s, n, t)
    requires Inv(c)
    ensures var c1 := With(c, n, c.members[n].(s := Recognise(c.members[n].s, t)));
            Inv(c1) && Evolves(c, c1)
  {
    MemberIsOk(c, n);
    hide Inv, Light, Evolves, LogOk, CommittedIn, RunningOk;
    var c1 := With(c, n, c.members[n].(s := Recognise(c.members[n].s, t)));
    RecogniseIsLight(c, n, t, leader);
    LightKeeps(c, n, c1);
  }

  lemma RecogniseIsLight(c: Cluster, n: NodeId, t: nat, leader: NodeId)
    requires FromLeader(c, t, leader, n) && MemberOk(c, n) && c.members[n].s.term <= t
    requires !ForgetsVote(c.members[n].s, n, t)
    ensures Light(c, n, With(c, n, c.members[n].(s := Recognise(c.members[n].s, t))))
  {
  }

  /** What is committed in the member's log survives taking over the leader's log. */
  lemma CommitTakenOver(c: Cluster, log: Log, commit: nat, t: nat, t2: nat, k: nat, log2: Log)
    requires Settled(c) && CommittedIn(c.h, log, commit, t) && t <= t2 && t2 in c.h.leaderLogs
    requires TakesOver(log, c.h.leaderLogs[t2], k, log2)
    ensures CommittedIn(c.h, log2, commit, t2) && commit < |log2|
  {
    CommittedInLeader(c, log, commit, t, t2);
    assert Agree(log2, c.h.leaderLogs[t2], commit);
    CommittedGrows(c, c, log, commit, t, log2, t2);
  }

  lemma LeaderCommitTakenOver(c: Cluster, log: Log, commit: nat, t: nat, j: nat, k: nat, log2: Log)
    requires t in c.h.leaderLogs && CommittedIn(c.h, c.h.leaderLogs[t], commit, t) && j <= commit && j <= k
    requires TakesOver(log, c.h.leaderLogs[t], k, log2)
    ensures CommittedIn(c.h, log2, j, t)
  {
    var lead := c.h.leaderLogs[t];
    CommittedShorter(c.h, lead, commit, t, j);
    AgreeWeaken(log2, lead, k, j);
    CommittedGrows(c, c, lead, j, t, log2, t);
  }

  /** Keeping a log that agrees far enough, or else cutting over to the leader's log, loses
      nothing on which the two agreed. */
  lemma MergedTakesOver(log: Log, lead: Log, k: nat, log2: Log)
    requires Merged(log, lead, k, log2)
    ensures TakesOver(log, lead, k, log2)
  {
  }

  lemma PreviousAgrees(log: Log, lead: Log, args: AppendArgs)
    requires Full(log) && Full(lead) && Matching(log, lead) && Consistent(log, args)
    requires args.prevLogIndex < |lead| && lead[args.prevLogIndex].term == args.prevLogTerm
    ensures Agree(log, lead, args.prevLogIndex)
  {
  }

  /** What an accepted append makes of a log. */
  lemma AppendMerges(h: History, log: Log, lead: Log, args: AppendArgs)
    requires LogOk(h, log) && LogOk(h, lead) && Consistent(log, args)
    requires SentFrom(lead, args.prevLogIndex, args.entries) && lead[args.prevLogIndex].term == args.prevLogTerm
    ensures var k := args.prevLogIndex + |args.entries|;
            TakesOver(log, lead, k, Merge(log, args.prevLogIndex, args.entries, |args.entries|))
  {
    hide TakesOver, TermsSorted;
    var k := args.prevLogIndex + |args.entries|;
    TracedMatch(h, log, lead);
    hide Traced, Matching;
    PreviousAgrees(log, lead, args);
    hide Merge, Merged, SentFrom, Follows, Contiguous, Agree;
    MergeClosedForm(log, lead, args.prevLogIndex, args.entries, |args.entries|);
    MergedTakesOver(log, lead, k, Merge(log, args.prevLogIndex, args.entries, |args.entries|));
  }

  /** The log and commit index an accepted append leaves, for a member whose committed prefix
      reaches `commit`. */
  lemma AppendTakesOver(c: Cluster, log: Log, commit: nat, t: nat, leaderCommit: nat, k: nat, log2: Log)
    requires Settled(c) && t in c.h.leaderLogs && CommittedIn(c.h, log, commit, t)
    requires CommittedIn(c.h, c.h.leaderLogs[t], leaderCommit, t)
    requires TakesOver(log, c.h.leaderLogs[t], k, log2)
    ensures CommittedIn(c.h, log2, Max(commit, Min(leaderCommit, k)), t)
    ensures commit < |log2|
  {
    hide Settled, CommittedIn, TakesOver;
    CommitTakenOver(c, log, commit, t, t, k, log2);
    LeaderCommitTakenOver(c, log, leaderCommit, t, Min(leaderCommit, k), k, log2);
  }

  ghost predicate Behind(c: Cluster, n: NodeId, args: AppendArgs) {
    && n in c.members && AppendOk(c, n, args) && args.term == c.members[n].s.term
    && MemberOk(c, n) && LogOk(c.h, c.h.leaderLogs[args.term])
    && c.members[n].s.role == Follower && Consistent(c.members[n].s.log, args)
  }

  lemma PaysByTakeover(c: Cluster, n: NodeId, t: nat, k: nat, log: Log, log2: Log)
    requires n in c.members && c.members[n].s.term == t && c.members[n].s.log == log && t in c.h.leaderLogs
    requires AcksOk(c) && Keeps(c, n, t + 1, log) && LeaderKeeps(c, t, c.h.leaderLogs[t])
    requires TakesOver(log, c.h.leaderLogs[t], k, log2)
    ensures Pays(c, n, t, log2)
  {
    var lead := c.h.leaderLogs[t];
    forall j: nat | Owes(c, n, t, j)
      ensures Agree(log, lead, j)
    {
      if HasAcked(c.h, n, t, j) {
        assert AckOk(c, n, t);
        AgreeWeaken(log, lead, c.h.acked[(n, t)], j);
      } else {
        var u: nat :| u < t && OwnEntry(c.h, u, j) && HasAcked(c.h, n, u, j) && !Blocked(c, u, j);
        assert KeptIn(c, u, j, log) && KeptIn(c, u, j, lead);
      }
    }
  }

  lemma InvAcks(c: Cluster, n: NodeId)
    requires n in c.members
    requires Inv(c)
    ensures AcksOk(c) && Keeps(c, n, c.members[n].s.term + 1, c.members[n].s.log)
  {
    hide LeaderLogsOk, ElectionsOk, CampaignsOk, NetOk, CommitsOk, AppliedOk, VotesOk, VotedKept, LeadersKept,
      MembersOk, AcksOk, Keeps;
    assert AckedKept(c);
  }

  lemma LeaderIsKept(c: Cluster, t: nat)
    requires t in c.h.leaderLogs && LeadersKept(c)
    ensures LeaderKeeps(c, t, c.h.leaderLogs[t])
  {
  }

  /** An accepted append is an adoption of the leader's log. */
  lemma AppendAdopts(c: Cluster, n: NodeId, args: AppendArgs, c2: Cluster, heard: bool)
    requires Settled(c) && Behind(c, n, args) && AcksOk(c)
    requires Keeps(c, n, args.term + 1, c.members[n].s.log)
    requires var c1 := With(c, n, c.members[n].(s := HandleAppendEntries(c.members[n].s, args).0));
             c2 == if heard then Acknowledge(c1, n, args.term, args.prevLogIndex + |args.entries|) else c1
    ensures Adopts(c, n, args.prevLogIndex + |args.entries|, c2, heard)
  {
    hide CommittedIn, TakesOver, RunningOk, LeaderOk, Traced, TermsSorted, Merge, Keeps, LeaderKeeps, Pays, AcksOk;
    var s, k := c.members[n].s, args.prevLogIndex + |args.entries|;
    var log2 := HandleAppendEntries(s, args).0.log;
    LeaderIsKept(c, args.term);
    hide Settled;
    AppendMerges(c.h, s.log, c.h.leaderLogs[args.term], args);
    AppendTakesOver(c, s.log, s.commit, args.term, args.leaderCommit, k, log2);
    PaysByTakeover(c, n, args.term, k, s.log, log2);
    TakenLog(s.log, c.h.leaderLogs[args.term], k, log2);
  }

  lemma TakenLog(log: Log, lead: Log, k: nat, log2: Log)
    requires TakesOver(log, lead, k, log2)
    ensures Agree(log2, lead, k) && (log2 == log || log2 == lead[..k + 1])
  {
  }

  /** The step as recognition of the leader, merge and answer. */
  lemma AppendEffect(c: Cluster, n: NodeId, args: AppendArgs, heard: bool, c1: Cluster, c2: Cluster)
    requires n in c.members && Contiguous(c.members[n].s.log) && Follows(args.prevLogIndex, args.entries)
    requires args.term >= c.members[n].s.term && (heard ==> (args.leader, n) in c.calls)
    requires c1 == With(c, n, c.members[n].(s := Recognise(c.members[n].s, args.term)))
    requires var s1 := c1.members[n].s;
             var cs := With(c1, n, c1.members[n].(s := HandleAppendEntries(s1, args).0));
             c2 == if Consistent(s1.log, args) && heard
                   then Acknowledge(cs, n, args.term, args.prevLogIndex + |args.entries|)
                   else cs
    ensures c2.calls == c.calls
    ensures HandleAppendEntries(c1.members[n].s, args).1 ==
            AppendReply(args.term, Consistent(c1.members[n].s.log, args))
    ensures !Consistent(c1.members[n].s.log, args) ==> c2 == c1
    ensures DoAppend(c, n, args, heard) ==
            if heard then Reply(c2, args.leader, n, Appended(HandleAppendEntries(c1.members[n].s, args).1)) else c2
  {
    hide Merge, Consistent, Contiguous, Follows;
    var s1 := c1.members[n].s;
    assert HandleAppendEntries(s1, args) == HandleAppendEntries(c.members[n].s, args);
    var cs := With(c1, n, c1.members[n].(s := HandleAppendEntries(s1, args).0));
    assert cs.members == c.members[n := c.members[n].(s := HandleAppendEntries(c.members[n].s, args).0)];
  }

  lemma AppendStale(c: Cluster, n: NodeId, args: AppendArgs, heard: bool)
    requires n in c.members && Contiguous(c.members[n].s.log) && Follows(args.prevLogIndex, args.entries)
    requires args.term < c.members[n].s.term && (heard ==> (args.leader, n) in c.calls)
    requires Inv(c)
    ensures Inv(DoAppend(c, n, args, heard)) && Evolves(c, DoAppend(c, n, args, heard))
  {
    hide Inv, Evolves;
    assert With(c, n, c.members[n]) == c;
    CallsKeep(c, DoAppend(c, n, args, heard).calls);
    assert DoAppend(c, n, args, heard) == c.(calls := DoAppend(c, n, args, heard).calls);
  }

  lemma AppendFresh(c: Cluster, n: NodeId, args: AppendArgs, heard: bool)
    requires n in c.members && Contiguous(c.members[n].s.log) && Follows(args.prevLogIndex, args.entries)
    requires AppendReq(n, args) in c.net && args.term >= c.members[n].s.term &&
             !ForgetsVote(c.members[n].s, n, args.term)
    requires heard ==> (args.leader, n) in c.calls
    requires Inv(c)
    ensures Inv(DoAppend(c, n, args, heard)) && Evolves(c, DoAppend(c, n, args, heard))
  {
    hide Inv, Evolves, MemberOk, CommittedIn, DoAppend, HandleAppendEntries, ForgetsVote, Acknowledge, Adopts, LogOk,
      Settled, SentFrom, Consistent, Keeps, AcksOk;
    var c1 := With(c, n, c.members[n].(s := Recognise(c.members[n].s, args.term)));
    MessageIsOk(c, AppendReq(n, args));
    RecogniseKeeps(c, n, args.term, args.leader);
    var k := args.prevLogIndex + |args.entries|;
    var cs := With(c1, n, c1.members[n].(s := HandleAppendEntries(c1.members[n].s, args).0));
    var c2 := if Consistent(c1.members[n].s.log, args) && heard then Acknowledge(cs, n, args.term, k) else cs;
    AppendEffect(c, n, args, heard, c1, c2);
    if Consistent(c1.members[n].s.log, args) {
      MessageIsOk(c1, AppendReq(n, args));
      MemberIsOk(c1, n);
      LeaderLogFull(c1, args.term);
      InvLeaders(c1);
      InvAcks(c1, n);
      AppendAdopts(c1, n, args, c2, heard);
      AdoptsKeeps(c1, n, k, c2, heard);
      EvolvesTrans(c, c1, c2);
    }
    CallsKeep(c2, DoAppend(c, n, args, heard).calls);
    EvolvesTrans(c, c2, c2.(calls := DoAppend(c, n, args, heard).calls));
  }

  lemma AppendStepKeeps(c: Cluster, a: Action)
    requires WellFormed(c) && Enabled(c, a) && Guarded(c, a) && a.HandleAppend?
    requires Inv(c)
    ensures StepKept(c, a)
  {
    hide Inv, Evolves, CommittedIn;
    assert Do(c, a) == DoAppend(c, a.n, a.args, a.heard);
    hide Do, DoAppend;
    if a.args.term < c.members[a.n].s.term {
      AppendStale(c, a.n, a.args, a.heard);
    } else {
      AppendFresh(c, a.n, a.args, a.heard);
    }
  }
}
