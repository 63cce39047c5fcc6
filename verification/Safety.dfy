/** What holds in every guarded run of the cluster, from the start and for any number of members. */
module Safety {
  import opened RaftTypes
  import opened LogStore
  import opened Handlers
  import opened Cluster
  import opened Invariant
  import opened Evolution
  import opened Agreement
  import opened Proposing
  import opened Preservation
  import opened Prefixes
  import opened AllSteps
  import opened Shipping
  import opened Calling
  import opened Shipped
  import opened Footprint
  import opened ApplyLoop

  /** Every step of the run is one the code can take, and none is unguarded. */
  predicate GuardedRun(c: Cluster, run: seq<Action>)
    decreases |run|
  {
    run == [] || (CanStep(c, run[0]) && Guarded(c, run[0]) && GuardedRun(Do(c, run[0]), run[1..]))
  }

  function After(c: Cluster, run: seq<Action>): Cluster
    requires GuardedRun(c, run)
    decreases |run|
  {
    if run == [] then c else After(Do(c, run[0]), run[1..])
  }

  lemma InitMembers(ids: set<NodeId>)
    requires ids != {}
    ensures MembersOk(Init(ids))
  {
  }

  lemma InitHistory(ids: set<NodeId>)
    requires ids != {}
    ensures LeaderLogsOk(Init(ids)) && ElectionsOk(Init(ids)) && CampaignsOk(Init(ids)) && VotesOk(Init(ids))
    ensures NetOk(Init(ids)) && AppliedOk(Init(ids)) && VotedKept(Init(ids)) && LeadersKept(Init(ids))
  {
  }

  lemma InitAcks(ids: set<NodeId>)
    requires ids != {}
    ensures AcksOk(Init(ids)) && AckedKept(Init(ids)) && CommitsOk(Init(ids))
  {
    var c := Init(ids);
    assert c.members.Keys == ids && |c.members| == |c.members.Keys|;
  }

  lemma InitOk(ids: set<NodeId>)
    requires ids != {}
    ensures Inv(Init(ids))
  {
    hide LeaderLogsOk, ElectionsOk, CampaignsOk, NetOk, CommitsOk, AppliedOk, VotesOk, AckedKept, VotedKept,
      LeadersKept, MembersOk, AcksOk, Init;
    InitMembers(ids);
    InitHistory(ids);
    InitAcks(ids);
  }

  lemma InitShips(ids: set<NodeId>)
    ensures Ship(Init(ids))
  {
  }

  lemma {:induction false} RunKeeps(c: Cluster, run: seq<Action>)
    requires GuardedRun(c, run) && Ship(c)
    requires Inv(c)
    ensures Inv(After(c, run)) && Evolves(c, After(c, run)) && Ship(After(c, run))
    decreases |run|
  {
    hide Inv, Evolves, Do, WellFormed, Enabled, Guarded, Ship;
    if run == [] {
      EvolvesRefl(c);
    } else {
      StepShips(c, run[0]);
      RunKeeps(Do(c, run[0]), run[1..]);
      EvolvesTrans(c, Do(c, run[0]), After(c, run));
    }
  }

  /** `c2` comes out of `c` by a guarded run. */
  ghost predicate Later(c: Cluster, c2: Cluster) {
    exists run :: GuardedRun(c, run) && After(c, run) == c2
  }

  /** `c` comes out of the initial state of a cluster with the members `ids`. */
  ghost predicate Reachable(ids: set<NodeId>, c: Cluster) {
    ids != {} && Later(Init(ids), c)
  }

  lemma ReachableOk(ids: set<NodeId>, c: Cluster)
    requires Reachable(ids, c)
    ensures Inv(c) && Ship(c) && c.members.Keys == ids
  {
    hide Inv, Ship;
    var run :| GuardedRun(Init(ids), run) && After(Init(ids), run) == c;
    InitOk(ids);
    InitShips(ids);
    RunKeeps(Init(ids), run);
    SameMembers(Init(ids), c);
    assert Init(ids).members.Keys == ids;
  }

  /** Every reachable state is well formed: full logs that reach their floor, and requests whose
      entries carry the indices that follow prevLogIndex. So well-formedness never bars a step. */
  lemma ReachableWellFormed(ids: set<NodeId>, c: Cluster)
    requires Reachable(ids, c)
    ensures WellFormed(c)
  {
    hide Inv, WellFormed, Ship;
    ReachableOk(ids, c);
    InvWellFormed(c);
  }

  /** The bounds that `Enabled` puts on a leader's requests always hold: the next index is at most
      one past the end of its log, and the cached snapshot is within it. A leader that has no
      snapshot has nothing below its floor to send. */
  lemma LeaderCanSend(ids: set<NodeId>, c: Cluster, n: NodeId, p: NodeId)
    requires Reachable(ids, c) && n in c.members && c.members[n].s.role == Leader && p in Peers(c, n)
    ensures var m := c.members[n];
            && 1 <= Get(m.s.nextIndex, p) <= |m.s.log|
            && (m.cache.Some? ==> m.cache.value.index <= m.s.commit < |m.s.log|)
            && (Get(m.s.nextIndex, p) <= m.floor ==> m.cache.Some? && m.cache.value.index == m.floor)
  {
    hide Inv, SnapsSafe, CallsOk, Reaches, SentBelow, PassedCovered, AcksUpTo, InTurn, Heard;
    ReachableOk(ids, c);
    LabelIsOk(c, n);
    LeaderPeer(c, n, p);
    CommitBelow(c, n);
  }

  /** The labels of the snapshot in progress and of the cached one are committed, and carry the term
      that the log has at their index. */
  lemma LabelsAreCommitted(ids: set<NodeId>, c: Cluster, n: NodeId)
    requires Reachable(ids, c) && n in c.members
    ensures forall l: Label :: c.members[n].capture == Some(l) || c.members[n].cache == Some(l) ==>
              && 0 < l.index <= c.members[n].s.commit < |c.members[n].s.log|
              && c.members[n].s.log[l.index].term == l.term
  {
    hide Inv, Ship;
    ReachableOk(ids, c);
    LabelIsOk(c, n);
  }

  lemma SameMembers(c: Cluster, c2: Cluster)
    requires Evolves(c, c2)
    ensures c2.members.Keys == c.members.Keys
  {
  }

  lemma LaterOk(ids: set<NodeId>, c: Cluster, c2: Cluster)
    requires Reachable(ids, c) && Later(c, c2)
    ensures Inv(c) && Inv(c2) && Evolves(c, c2) && c.members.Keys == ids == c2.members.Keys
  {
    hide Inv, Evolves, Reachable, Ship;
    ReachableOk(ids, c);
    var run :| GuardedRun(c, run) && After(c, run) == c2;
    RunKeeps(c, run);
    SameMembers(c, c2);
  }

  /** A state is later than itself. */
  lemma LaterRefl(c: Cluster)
    ensures Later(c, c)
  {
    assert GuardedRun(c, []) && After(c, []) == c;
  }

  ghost predicate IsLeader(c: Cluster, n: NodeId) {
    n in c.members && c.members[n].s.role == Leader
  }

  lemma SameTermSameLeader(c: Cluster, c2: Cluster, n: NodeId, n2: NodeId)
    requires Leading(c, n) && Leading(c2, n2) && Evolves(c, c2) && c.members[n].s.term == c2.members[n2].s.term
    ensures n == n2 && c.members[n].s.log <= c2.members[n2].s.log
  {
  }

  /** Election Safety: a term has at most one leader, now and at any later time. And Leader
      Append-Only: while a member leads a term its log only grows. */
  lemma ElectionSafety(ids: set<NodeId>, c: Cluster, c2: Cluster, n: NodeId, n2: NodeId)
    requires Reachable(ids, c) && Later(c, c2)
    requires IsLeader(c, n) && IsLeader(c2, n2) && c.members[n].s.term == c2.members[n2].s.term
    ensures n == n2 && c.members[n].s.log <= c2.members[n2].s.log
  {
    hide Inv, Ship, Evolves, Reachable, Later, Leading;
    LaterOk(ids, c, c2);
    LeaderIsLeading(c, n);
    LeaderIsLeading(c2, n2);
    SameTermSameLeader(c, c2, n, n2);
  }

  /** Log Matching: two logs that hold entries of the same index and term agree up to there. */
  lemma LogMatching(ids: set<NodeId>, c: Cluster, n: NodeId, n2: NodeId, k: nat)
    requires Reachable(ids, c) && n in c.members && n2 in c.members
    requires k < |c.members[n].s.log| && k < |c.members[n2].s.log|
    requires c.members[n].s.log[k].term == c.members[n2].s.log[k].term
    ensures Agree(c.members[n].s.log, c.members[n2].s.log, k)
  {
    hide Inv, Ship, Reachable, RunningOk, LeaderOk, CommittedIn;
    ReachableOk(ids, c);
    MemberIsOk(c, n);
    MemberIsOk(c, n2);
    TracedMatch(c.h, c.members[n].s.log, c.members[n2].s.log);
  }

  /** Leader Completeness: what any member knows to be committed at some time is in the log of
      every leader of the same or a later term from then on. */
  lemma LeaderCompleteness(ids: set<NodeId>, c: Cluster, c2: Cluster, n: NodeId, n2: NodeId)
    requires Reachable(ids, c) && Later(c, c2) && n in c.members
    requires IsLeader(c2, n2) && c.members[n].s.term <= c2.members[n2].s.term
    ensures Agree(c.members[n].s.log, c2.members[n2].s.log, c.members[n].s.commit)
  {
    hide Inv, Ship, Evolves, Reachable, Later, LogOk, Settled, MemberOk;
    LaterOk(ids, c, c2);
    MemberIsOk(c, n);
    CommittedLater(c, c2, n);
    LeaderIsLeading(c2, n2);
    InvLeaders(c2);
    var s := c.members[n].s;
    CommittedInLeader(c2, s.log, s.commit, s.term, c2.members[n2].s.term);
  }

  /** The committed prefixes of any two members agree, at the same or at different times, as far
      as both reach. */
  lemma CommittedForever(ids: set<NodeId>, c: Cluster, c2: Cluster, n: NodeId, n2: NodeId)
    requires Reachable(ids, c) && Later(c, c2) && n in c.members && n2 in c2.members
    ensures Agree(c.members[n].s.log, c2.members[n2].s.log, Min(c.members[n].s.commit, c2.members[n2].s.commit))
  {
    hide Inv, Ship, Evolves, Reachable, Later, Agree;
    LaterOk(ids, c, c2);
    PrefixesAgree(c, c2, n, n2);
  }

  /** The bounds every member keeps: indices run without a gap, terms do not decrease along the
      log and do not pass the member's term, what is applied or compacted is committed, what is
      committed is in the log, and the term never moves back. */
  lemma NodeInvariant(ids: set<NodeId>, c: Cluster, c2: Cluster, n: NodeId)
    requires Reachable(ids, c) && Later(c, c2) && n in c.members
    ensures n in c2.members
    ensures var m := c.members[n];
            && Full(m.s.log) && TermsSorted(m.s.log) && LastTerm(m.s.log) <= m.s.term
            && m.s.applied <= m.s.commit <= Last(m.s.log) && m.floor <= m.s.commit
    ensures c.members[n].s.term <= c2.members[n].s.term
  {
    hide Inv, Ship, Reachable, Later, RunningOk, LeaderOk, Traced;
    LaterOk(ids, c, c2);
    MemberIsOk(c, n);
    EvolvesRefl(c);
    CommittedLater(c, c, n);
  }

  /** A forward step keeps the commit index of the member that takes it. */
  lemma ForwardCommits(c: Cluster, a: Action)
    requires CanStep(c, a) && Forward(c, a)
    requires Inv(c)
    ensures a.n in c.members && a.n in Do(c, a).members
    ensures c.members[a.n].s.commit <= Do(c, a).members[a.n].s.commit
  {
    hide Inv, Do, Enabled, WellFormed, InstallsSnapshot;
    StepTaken(c, a);
    CommitBelow(c, a.n);
    CommitMoves(c, a);
  }

  /** No step of the run installs a snapshot below a commit index. */
  predicate ForwardRun(c: Cluster, run: seq<Action>)
    requires GuardedRun(c, run)
    decreases |run|
  {
    run == [] || (Forward(c, run[0]) && ForwardRun(Do(c, run[0]), run[1..]))
  }

  /** `c` comes out of the initial state by guarded steps that are all forward. */
  ghost predicate ReachableForward(ids: set<NodeId>, c: Cluster) {
    ids != {} &&
    exists run :: GuardedRun(Init(ids), run) && ForwardRun(Init(ids), run) && After(Init(ids), run) == c
  }

  lemma {:induction false} ForwardKeeps(c: Cluster, run: seq<Action>, n: NodeId)
    requires GuardedRun(c, run) && ForwardRun(c, run) && n in c.members && Ship(c)
    requires Inv(c)
    ensures n in After(c, run).members && c.members[n].s.commit <= After(c, run).members[n].s.commit
    decreases |run|
  {
    hide Inv, Do, WellFormed, Enabled, Guarded, Forward, Ship, Evolves;
    if run != [] {
      StepShips(c, run[0]);
      ForwardCommits(c, run[0]);
      OnlyOneMoves(c, run[0]);
      ForwardKeeps(Do(c, run[0]), run[1..], n);
    }
  }

  /** Where no snapshot below the commit index is installed, no commit index moves back. */
  lemma CommitNeverBack(ids: set<NodeId>, c: Cluster, run: seq<Action>, n: NodeId)
    requires Reachable(ids, c) && GuardedRun(c, run) && ForwardRun(c, run) && n in c.members
    ensures n in After(c, run).members && c.members[n].s.commit <= After(c, run).members[n].s.commit
  {
    hide Inv, Ship, Reachable, GuardedRun, ForwardRun, After;
    ReachableOk(ids, c);
    ForwardKeeps(c, run, n);
  }

  lemma AppliedAgree(c: Cluster, a: Applied, b: Applied)
    requires Settled(c) && AppliedEntryOk(c, a) && AppliedEntryOk(c, b) && a.index == b.index
    ensures a.entry == b.entry
  {
    hide Settled;
    var e :| e in c.h.commits && a.index <= e.index && e.term in c.h.leaderLogs
             && a.index < |c.h.leaderLogs[e.term]| && c.h.leaderLogs[e.term][a.index] == a.entry;
    var f :| f in c.h.commits && b.index <= f.index && f.term in c.h.leaderLogs
             && b.index < |c.h.leaderLogs[f.term]| && c.h.leaderLogs[f.term][b.index] == b.entry;
    if e.term <= f.term {
      CommitInLeader(c, e, f.term);
      AgreeWeaken(c.h.leaderLogs[f.term], c.h.leaderLogs[e.term], e.index, a.index);
    } else {
      CommitInLeader(c, f, e.term);
      AgreeWeaken(c.h.leaderLogs[e.term], c.h.leaderLogs[f.term], f.index, a.index);
    }
  }

  lemma AppliedIsOk(c: Cluster, a: Applied)
    requires a in c.h.applied
    requires Inv(c)
    ensures AppliedEntryOk(c, a)
  {
    hide LeaderLogsOk, ElectionsOk, CampaignsOk, NetOk, CommitsOk, VotesOk, AckedKept, VotedKept, LeadersKept, AcksOk,
      MembersOk, AppliedEntryOk;
  }

  /** State Machine Safety: no two Apply calls, on any members at any times of the run, are for
      different entries with the same index. */
  lemma StateMachineSafety(ids: set<NodeId>, c: Cluster, c2: Cluster, a: Applied, b: Applied)
    requires Reachable(ids, c) && Later(c, c2)
    requires a in c.h.applied && b in c2.h.applied && a.index == b.index
    ensures a.entry == b.entry && a in c2.h.applied
  {
    hide Inv, Ship, Reachable, Later, Settled, AppliedEntryOk;
    LaterOk(ids, c, c2);
    AppliedIsOk(c2, a);
    AppliedIsOk(c2, b);
    InvLeaders(c2);
    AppliedAgree(c2, a, b);
  }

  lemma AckIsOk(c: Cluster, x: NodeId, t: nat)
    requires (x, t) in c.h.acked
    requires Inv(c)
    ensures AckOk(c, x, t)
  {
    hide LeaderLogsOk, ElectionsOk, CampaignsOk, NetOk, CommitsOk, VotesOk, AckedKept, VotedKept, LeadersKept,
      AppliedOk, MembersOk, AckOk;
  }

  /** Match soundness: what a leader believes a peer to hold it does hold, as long as the peer
      stays in the leader's term. */
  lemma MatchSoundness(ids: set<NodeId>, c: Cluster, n: NodeId, p: NodeId)
    requires Reachable(ids, c) && IsLeader(c, n) && p in c.members && p != n && p in c.members[n].s.matchIndex
    requires c.members[p].s.term == c.members[n].s.term
    ensures Agree(c.members[p].s.log, c.members[n].s.log, c.members[n].s.matchIndex[p])
  {
    hide Inv, Ship, Reachable, CommittedIn, RunningOk, Traced, TermsSorted;
    ReachableOk(ids, c);
    var t, k := c.members[n].s.term, c.members[n].s.matchIndex[p];
    MemberIsOk(c, n);
    MemberIsOk(c, p);
    if k > 0 {
      AckIsOk(c, p, t);
      AgreeWeaken(c.members[p].s.log, c.h.leaderLogs[t], c.h.acked[(p, t)], k);
    } else {
      assert c.members[p].s.log[..1] == [DUMMY] == c.members[n].s.log[..1];
    }
  }

  // --- The log that all members apply ---

  lemma {:induction false} LatestCommit(commits: set<Commit>) returns (latest: Commit)
    requires commits != {}
    ensures latest in commits && forall e :: e in commits ==> e.term <= latest.term
  {
    var e :| e in commits;
    latest := e;
    if commits != {e} {
      var rest := LatestCommit(commits - {e});
      latest := if rest.term < e.term then e else rest;
      forall f | f in commits
        ensures f.term <= latest.term
      {
        assert f == e || f in commits - {e};
      }
    }
  }

  /** What every leader and every member has committed, and every entry ever applied, is in `log`. */
  ghost predicate AgreedLog(c: Cluster, log: Log) {
    && Full(log)
    && (forall e :: e in c.h.commits ==> e.term in c.h.leaderLogs && Agree(log, c.h.leaderLogs[e.term], e.index))
    && (forall n :: n in c.members ==> Agree(c.members[n].s.log, log, c.members[n].s.commit))
    && (forall a :: a in c.h.applied ==> a.index < |log| && log[a.index] == a.entry)
  }

  lemma PrefixInLatest(c: Cluster, n: NodeId, latest: Commit)
    requires n in c.members && MemberOk(c, n) && Settled(c)
    requires latest.term in c.h.leaderLogs && forall e :: e in c.h.commits ==> e.term <= latest.term
    ensures Agree(c.members[n].s.log, c.h.leaderLogs[latest.term], c.members[n].s.commit)
  {
    hide Settled, RunningOk, LeaderOk, LogOk;
    var s := c.members[n].s;
    var e :| e in c.h.commits && e.term <= s.term && s.commit <= e.index && CommitMatches(c.h, e, s.log, s.commit);
    CommittedInLeader(c, s.log, s.commit, e.term, latest.term);
  }

  lemma AppliedInLatest(c: Cluster, a: Applied, latest: Commit)
    requires Settled(c) && AppliedEntryOk(c, a)
    requires latest.term in c.h.leaderLogs && forall e :: e in c.h.commits ==> e.term <= latest.term
    ensures a.index < |c.h.leaderLogs[latest.term]| && c.h.leaderLogs[latest.term][a.index] == a.entry
  {
    hide Settled;
    var e :| e in c.h.commits && a.index <= e.index && e.term in c.h.leaderLogs
             && a.index < |c.h.leaderLogs[e.term]| && c.h.leaderLogs[e.term][a.index] == a.entry;
    CommitInLeader(c, e, latest.term);
    AgreeWeaken(c.h.leaderLogs[latest.term], c.h.leaderLogs[e.term], e.index, a.index);
  }

  /** There is one log that all members commit and apply: every member's committed prefix is a prefix
      of it, and every entry handed to any state machine is the one it has at that index. */
  lemma OneLog(ids: set<NodeId>, c: Cluster)
    requires Reachable(ids, c)
    ensures exists log :: AgreedLog(c, log)
  {
    hide Inv, Ship, Settled, MemberOk, AppliedEntryOk, LogOk;
    ReachableOk(ids, c);
    InvLeaders(c);
    var n :| n in c.members.Keys;
    MemberIsOk(c, n);
    MemberCommit(c, n);
    var latest := LatestCommit(c.h.commits);
    CommitHasLog(c, latest);
    LeaderLogFull(c, latest.term);
    var log := c.h.leaderLogs[latest.term];
    forall e | e in c.h.commits
      ensures e.term in c.h.leaderLogs && Agree(log, c.h.leaderLogs[e.term], e.index)
    {
      CommitHasLog(c, e);
      CommitInLeader(c, e, latest.term);
    }
    forall m | m in c.members
      ensures Agree(c.members[m].s.log, log, c.members[m].s.commit)
    {
      MemberIsOk(c, m);
      PrefixInLatest(c, m, latest);
    }
    forall a | a in c.h.applied
      ensures a.index < |log| && log[a.index] == a.entry
    {
      AppliedIsOk(c, a);
      AppliedInLatest(c, a, latest);
    }
    LogIsFull(c.h, log);
    assert AgreedLog(c, log);
  }

  lemma MemberCommit(c: Cluster, n: NodeId)
    requires n in c.members && MemberOk(c, n)
    ensures c.h.commits != {}
  {
  }

  lemma CommitHasLog(c: Cluster, e: Commit)
    requires Settled(c) && e in c.h.commits
    ensures e.term in c.h.leaderLogs
  {
  }
}
