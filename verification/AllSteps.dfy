/** Leaders' requests and replies, commitment, snapshots and the apply loop keep the invariant. */
module AllSteps {
  import opened RaftTypes
  import opened LogStore
  import opened Handlers
  import opened Cluster
  import opened Invariant
  import opened Evolution
  import opened Agreement
  import opened Steps
  import opened Proposing
  import opened Adopting
  import opened Preservation
  import opened Shipping

  // --- Requests ---

  lemma LeaderIsLeading(c: Cluster, n: NodeId)
    requires n in c.members && c.members[n].s.role == Leader
    requires Inv(c)
    ensures Leading(c, n) && CommittedIn(c.h, c.members[n].s.log, c.members[n].s.commit, c.members[n].s.term)
  {
    MemberIsOk(c, n);
    assert MembersOk(c) && ElectionsOk(c) && AcksOk(c);
    hide Inv, MembersOk, ElectionsOk, AcksOk, LogOk, CommittedIn, RunningOk, LeaderOk;
    LeaderLeads(c, n);
  }

  lemma AppendForOk(c: Cluster, n: NodeId, to: NodeId, next: nat)
    requires Leading(c, n) && to in Peers(c, n) && Full(c.members[n].s.log)
    requires CommittedIn(c.h, c.members[n].s.log, c.members[n].s.commit, c.members[n].s.term)
    requires 0 < next <= Last(c.members[n].s.log) + 1
    ensures AppendOk(c, to, AppendFor(c.members[n].s, n, next))
  {
  }

  lemma SendAppendKeeps(c: Cluster, a: Action)
    requires WellFormed(c) && Enabled(c, a) && a.SendAppend?
    requires Inv(c)
    ensures StepKept(c, a)
  {
    hide Inv, Evolves, LogOk, CommittedIn, AppendOk, Leading;
    LeaderIsLeading(c, a.n);
    var next := Get(c.members[a.n].s.nextIndex, a.to);
    var msg := AppendReq(a.to, AppendFor(c.members[a.n].s, a.n, next));
    AppendForOk(c, a.n, a.to, next);
    AppendOkSame(c, Send(c, msg), a.to, msg.args);
    SendKeeps(c, a.n, msg);
    CallsKeep(Send(c, msg), Do(c, a).calls);
    EvolvesTrans(c, Send(c, msg), Do(c, a));
  }

  lemma AppendOkSame(c: Cluster, c2: Cluster, to: NodeId, a: AppendArgs)
    requires AppendOk(c, to, a) && c2.members == c.members && c2.h == c.h
    ensures AppendOk(c2, to, a)
  {
  }

  lemma LabelIsOk(c: Cluster, n: NodeId)
    requires n in c.members && Ship(c)
    ensures LabelOk(c.members[n].s, c.members[n].capture) && LabelOk(c.members[n].s, c.members[n].cache)
    ensures c.members[n].floor > 0 ==> c.members[n].cache.Some?
  {
    hide SnapsSafe, CallsOk, PeersOk;
  }

  lemma SendSnapshotKeeps(c: Cluster, a: Action)
    requires WellFormed(c) && Enabled(c, a) && a.SendSnapshot? && Ship(c)
    requires Inv(c)
    ensures StepKept(c, a)
  {
    hide Inv, Evolves, LogOk, CommittedIn, Ship;
    LeaderIsLeading(c, a.n);
    LabelIsOk(c, a.n);
    var s := c.members[a.n].s;
    var msg := SnapshotFor(c.members[a.n], a.n, a.to);
    CommittedShorter(c.h, s.log, s.commit, s.term, c.members[a.n].cache.value.index);
    SendKeeps(c, a.n, msg);
    CallsKeep(Send(c, msg), Do(c, a).calls);
    EvolvesTrans(c, Send(c, msg), Do(c, a));
  }

  /** Finishing a snapshot compacts up to a committed index. */
  lemma FinishStepKeeps(c: Cluster, a: Action)
    requires WellFormed(c) && Enabled(c, a) && a.FinishSnapshot? && Ship(c)
    requires Inv(c)
    ensures StepKept(c, a)
  {
    hide Inv, Evolves, LogOk, CommittedIn, RunningOk, LeaderOk, Ship;
    MemberIsOk(c, a.n);
    LabelIsOk(c, a.n);
    var m2 := Do(c, a).members[a.n];
    assert Do(c, a) == With(c, a.n, m2);
    assert Quiet(c.members[a.n], m2);
    QuietKeeps(c, a.n, m2);
  }

  lemma GiveUpKeeps(c: Cluster, a: Action)
    requires WellFormed(c) && Enabled(c, a) && a.GiveUp?
    requires Inv(c)
    ensures StepKept(c, a)
  {
    hide Inv, Evolves;
    CallsKeep(c, Do(c, a).calls);
    assert Do(c, a) == c.(calls := Do(c, a).calls);
  }

  // --- Replies ---

  /** A leader raises the match of `from` to an index that `from` has acknowledged. */
  lemma MatchIsLight(c: Cluster, n: NodeId, from: NodeId, v: nat, s2: NodeState)
    requires n in c.members && MemberOk(c, n) && c.members[n].s.role == Leader
    requires from != n && HasAcked(c.h, from, c.members[n].s.term, v)
    requires s2 == c.members[n].s.(matchIndex := Raise(c.members[n].s.matchIndex, from, v), nextIndex := s2.nextIndex)
    ensures Light(c, n, With(c, n, c.members[n].(s := s2)))
  {
  }

  lemma ReplyKeeps(c: Cluster, n: NodeId, from: NodeId, v: nat, s2: NodeState)
    requires n in c.members
    requires var s := c.members[n].s;
      || Quiet(c.members[n], c.members[n].(s := s2))
      || (s.role == Leader && from != n && HasAcked(c.h, from, s.term, v)
          && s2 == s.(matchIndex := Raise(s.matchIndex, from, v), nextIndex := s2.nextIndex))
    requires Inv(c)
    ensures var c2 := With(c, n, c.members[n].(s := s2)); Inv(c2) && Evolves(c, c2)
  {
    hide Inv, Evolves, Quiet, Light, MemberOk;
    if Quiet(c.members[n], c.members[n].(s := s2)) {
      QuietKeeps(c, n, c.members[n].(s := s2));
    } else {
      MemberIsOk(c, n);
      MatchIsLight(c, n, from, v, s2);
      LightKeeps(c, n, With(c, n, c.members[n].(s := s2)));
    }
  }

  lemma CallIsOk(c: Cluster, n: NodeId, p: NodeId)
    requires Ship(c) && (n, p) in c.calls
    ensures CallOk(c, n, p)
  {
    hide SnapsSafe, PeersOk, LabelsOk, CallOk;
  }

  lemma ReplyStepKeeps(c: Cluster, a: Action)
    requires WellFormed(c) && Enabled(c, a) && (a.HandleAppendAns? || a.HandleSnapAns?) && Ship(c)
    requires Inv(c)
    ensures StepKept(c, a)
  {
    hide Inv, Evolves, LogOk, CommittedIn, RunningOk, LeaderOk, Ship, Refused, Contiguous, Follows, Compacted;
    MemberIsOk(c, a.n);
    CallIsOk(c, a.n, a.from);
    var c2 := Do(c, a);
    var s2, c1 := c2.members[a.n].s, With(c, a.n, c2.members[a.n]);
    ReplyKeeps(c, a.n, a.from, Claim(c.calls[(a.n, a.from)].request), s2);
    assert c2 == c1.(calls := c2.calls);
    hide Do;
    CallsKeep(c1, c2.calls);
    EvolvesTrans(c, c1, c2);
  }

  // --- Commitment ---

  /** The replicas the leader counts, itself included, are a majority that acknowledged. */
  lemma CountedQuorum(c: Cluster, n: NodeId, k: nat)
    requires Leading(c, n) && LeaderOk(c, n, c.members[n].s) && Full(c.members[n].s.log) && 0 < k
    requires Committable(c.members[n].s, Peers(c, n), k)
    ensures var q := (set p | p in Peers(c, n) && Get(c.members[n].s.matchIndex, p) >= k) + {n};
            CommitOk(c, Commit(c.members[n].s.term, k, q))
  {
  }

  lemma CommitIsLight(c: Cluster, n: NodeId, k: nat, c2: Cluster)
    requires n in c.members && Full(c.members[n].s.log) && MemberOk(c, n) && Leading(c, n) && c2 == DoCommit(c, n)
    requires k == CommitScan(c.members[n].s, Peers(c, n), Last(c.members[n].s.log)) && k != c.members[n].s.commit
    ensures Light(c, n, c2)
  {
    hide RunningOk;
    CountedQuorum(c, n, k);
    hide LogOk, CommitScan;
    var s := c.members[n].s;
    var e := Commit(s.term, k, (set p | p in Peers(c, n) && Get(s.matchIndex, p) >= k) + {n});
    assert |c.members| == |c.members.Keys| && |c2.members| == |c2.members.Keys|;
    assert e in c2.h.commits && CommitMatches(c2.h, e, s.log, k);
    assert NewsOk(c, c2);
  }

  lemma CommitStepKeeps(c: Cluster, a: Action)
    requires WellFormed(c) && Enabled(c, a) && a.AdvanceCommit?
    requires Inv(c)
    ensures StepKept(c, a)
  {
    hide Inv, Evolves, LogOk, CommittedIn, RunningOk, Light, Leading, LeaderOk, CommitScan;
    var n, m := a.n, c.members[a.n];
    MemberIsOk(c, n);
    var k := CommitScan(m.s, Peers(c, n), Last(m.s.log));
    if k == m.s.commit {
      assert Do(c, a) == With(c, n, m);
      QuietKeeps(c, n, m);
    } else {
      LeaderIsLeading(c, n);
      CommitIsLight(c, n, k, Do(c, a));
      LightKeeps(c, n, Do(c, a));
    }
  }

  // --- Snapshots ---

  /** A member that follows the snapshot's leader in the snapshot's term. */
  ghost predicate SnapReady(c: Cluster, n: NodeId, a: SnapshotArgs, prefix: Log) {
    && n in c.members && SnapOk(c, n, a, prefix) && a.term == c.members[n].s.term
    && MemberOk(c, n) && c.members[n].s.role == Follower
  }

  lemma OwesAfter(c: Cluster, c2: Cluster, x: NodeId, t: nat, k: nat)
    requires OwesUpTo(c, x, t, k) && c2.h == c.h && Evolves(c, c2)
    ensures OwesUpTo(c2, x, t, k)
  {
    forall u: nat, j: nat | u < t && OwnEntry(c2.h, u, j) && HasAcked(c2.h, x, u, j)
      ensures j <= k || Blocked(c2, u, j)
    {
      if Blocked(c, u, j) {
        BlockedGrows(c, c2, u, j);
      }
    }
  }

  /** A snapshot below the floor says nothing new. */
  lemma CoveredAdopts(c: Cluster, n: NodeId, a: SnapshotArgs, prefix: Log, c2: Cluster, heard: bool)
    requires Settled(c) && SnapReady(c, n, a, prefix) && a.lastIndex <= c.members[n].floor
    requires AcksOk(c) && Keeps(c, n, a.term + 1, c.members[n].s.log)
    requires c2 == if heard then Acknowledge(c, n, a.term, a.lastIndex) else c
    ensures Adopts(c, n, a.lastIndex, c2, heard)
  {
    hide CommittedIn, RunningOk, LeaderOk, LogOk, Keeps, LeaderKeeps, AcksOk, Pays;
    var s := c.members[n].s;
    LeaderIsKept(c, a.term);
    hide Settled;
    CommittedInLeader(c, s.log, s.commit, s.term, s.term);
    AgreeWeaken(s.log, c.h.leaderLogs[s.term], s.commit, a.lastIndex);
    PaysByTakeover(c, n, a.term, a.lastIndex, s.log, s.log);
    assert c.(members := c.members) == c && c.members == c.members[n := c.members[n]];
  }

  /** The snapshot reaches everything that the member owes, so installing it pays. */
  lemma PrefixPays(c: Cluster, n: NodeId, a: SnapshotArgs, prefix: Log)
    requires a.term in c.h.leaderLogs && a.lastIndex < |c.h.leaderLogs[a.term]|
    requires prefix == c.h.leaderLogs[a.term][..a.lastIndex + 1]
    requires OwesUpTo(c, n, a.term, a.lastIndex) && AcksUpTo(c.h, n, a.term, a.lastIndex)
    ensures Pays(c, n, a.term, prefix) && Agree(prefix, c.h.leaderLogs[a.term], a.lastIndex)
  {
    var lead := c.h.leaderLogs[a.term];
    forall j: nat | j <= a.lastIndex
      ensures Agree(prefix, lead, j)
    {
      assert prefix[..j + 1] == lead[..j + 1];
    }
  }

  /** Installing a snapshot that leaves nothing behind is an adoption of the leader's log. */
  lemma InstallAdopts(c: Cluster, n: NodeId, a: SnapshotArgs, prefix: Log, c2: Cluster, heard: bool)
    requires SnapReady(c, n, a, prefix) && !LeavesBehind(c.members[n], a)
    requires InstallsSnapshot(c.members[n], a) && prefix != [] && c.members[n].s.log != []
    requires OwesUpTo(c, n, a.term, a.lastIndex) && AcksUpTo(c.h, n, a.term, a.lastIndex)
    requires var c1 := With(c, n, InstallFull(c.members[n], a, prefix));
             c2 == if heard then Acknowledge(c1, n, a.term, a.lastIndex) else c1
    ensures Adopts(c, n, a.lastIndex, c2, heard)
  {
    hide CommittedIn, RunningOk, LeaderOk, LogOk, Pays, OwesUpTo, Agree;
    PrefixPays(c, n, a, prefix);
    CommittedGrows(c, c, c.h.leaderLogs[a.term], a.lastIndex, a.term, prefix, a.term);
  }

  /** A snapshot of the member's own term, already recognised. */
  lemma SnapshotTaken(c: Cluster, n: NodeId, snap: SnapshotArgs, prefix: Log, c2: Cluster, heard: bool)
    requires n in c.members && SnapReady(c, n, snap, prefix) && !LeavesBehind(c.members[n], snap)
    requires prefix != [] && c.members[n].s.log != []
    requires OwesUpTo(c, n, snap.term, snap.lastIndex)
    requires AcksUpTo(c.h, n, snap.term, snap.lastIndex) || snap.lastIndex <= c.members[n].floor
    requires var c1 := With(c, n, InstallFull(c.members[n], snap, prefix));
             c2 == if heard then Acknowledge(c1, n, snap.term, snap.lastIndex) else c1
    requires Inv(c)
    ensures Inv(c2) && Evolves(c, c2)
  {
    hide Inv, Evolves, Adopts, SnapReady, OwesUpTo, AcksUpTo, LeavesBehind, Settled;
    if InstallsSnapshot(c.members[n], snap) {
      ReachesAcked(c, n, snap, prefix);
      hide InstallsSnapshot, InstallFull;
      InstallAdopts(c, n, snap, prefix, c2, heard);
    } else {
      NotInstalled(c, n, snap, prefix);
      hide InstallsSnapshot, InstallFull, Keeps, AcksOk;
      InvLeaders(c);
      InvAcks(c, n);
      CoveredAdopts(c, n, snap, prefix, c2, heard);
    }
    AdoptsKeeps(c, n, snap.lastIndex, c2, heard);
  }

  lemma ReachesAcked(c: Cluster, n: NodeId, snap: SnapshotArgs, prefix: Log)
    requires SnapReady(c, n, snap, prefix) && InstallsSnapshot(c.members[n], snap)
    requires AcksUpTo(c.h, n, snap.term, snap.lastIndex) || snap.lastIndex <= c.members[n].floor
    ensures AcksUpTo(c.h, n, snap.term, snap.lastIndex)
  {
  }

  lemma NotInstalled(c: Cluster, n: NodeId, snap: SnapshotArgs, prefix: Log)
    requires SnapReady(c, n, snap, prefix) && !InstallsSnapshot(c.members[n], snap) && prefix != [] &&
             c.members[n].s.log != []
    ensures snap.lastIndex <= c.members[n].floor && c.members[n].s.term == snap.term
    ensures With(c, n, InstallFull(c.members[n], snap, prefix)) == c
  {
    assert InstallFull(c.members[n], snap, prefix) == c.members[n];
    assert With(c, n, c.members[n]) == c;
  }

  /** The step as recognition of the leader, installation and answer. */
  lemma SnapshotEffect(c: Cluster, n: NodeId, snap: SnapshotArgs, prefix: Log, restored: bool, heard: bool,
      c1: Cluster, c2: Cluster)
    requires n in c.members && c.members[n].s.log != [] && prefix != [] && snap.term >= c.members[n].s.term
    requires heard ==> (snap.leader, n) in c.calls
    requires c1 == With(c, n, c.members[n].(s := Recognise(c.members[n].s, snap.term)))
    requires var cs := With(c1, n, InstallFull(c1.members[n], snap, prefix));
             c2 == if heard && (InstallsSnapshot(c.members[n], snap) ==> restored)
                   then Acknowledge(cs, n, snap.term, snap.lastIndex) else cs
    ensures c2.calls == c.calls && InstallsSnapshot(c1.members[n], snap) == InstallsSnapshot(c.members[n], snap)
    ensures LeavesBehind(c1.members[n], snap) == LeavesBehind(c.members[n], snap)
    ensures DoSnapshot(c, n, snap, prefix, restored, heard) ==
            c2.(calls := DoSnapshot(c, n, snap, prefix, restored, heard).calls)
  {
    assert With(c1, n, InstallFull(c1.members[n], snap, prefix)).members ==
           With(c, n, InstallFull(c.members[n], snap, prefix)).members;
  }

  lemma SnapshotStale(c: Cluster, n: NodeId, snap: SnapshotArgs, prefix: Log, restored: bool, heard: bool)
    requires n in c.members && c.members[n].s.log != [] && prefix != [] && snap.term < c.members[n].s.term
    requires heard ==> (snap.leader, n) in c.calls
    requires Inv(c)
    ensures var c2 := DoSnapshot(c, n, snap, prefix, restored, heard); Inv(c2) && Evolves(c, c2)
  {
    hide Inv, Evolves;
    assert With(c, n, c.members[n]) == c;
    var c2 := DoSnapshot(c, n, snap, prefix, restored, heard);
    CallsKeep(c, c2.calls);
    assert c2 == c.(calls := c2.calls);
  }

  lemma SnapshotFresh(c: Cluster, n: NodeId, snap: SnapshotArgs, prefix: Log, restored: bool, heard: bool)
    requires n in c.members && c.members[n].s.log != [] && prefix != [] && snap.term >= c.members[n].s.term
    requires SnapReq(n, snap, prefix) in c.net && SnapSafe(c, n, snap)
    requires heard ==> (snap.leader, n) in c.calls
    requires !ForgetsVote(c.members[n].s, n, snap.term) && !LeavesBehind(c.members[n], snap)
    requires Inv(c)
    ensures var c2 := DoSnapshot(c, n, snap, prefix, restored, heard); Inv(c2) && Evolves(c, c2)
  {
    hide Inv, Evolves, MemberOk, CommittedIn, DoSnapshot, InstallFull, ForgetsVote, InstallsSnapshot, Acknowledge,
      HasAcked, LeavesBehind, Settled, Reaches, OwesUpTo, AcksUpTo;
    var c1 := With(c, n, c.members[n].(s := Recognise(c.members[n].s, snap.term)));
    var success := InstallsSnapshot(c.members[n], snap) ==> restored;
    var cs := With(c1, n, InstallFull(c1.members[n], snap, prefix));
    var c2 := if heard && success then Acknowledge(cs, n, snap.term, snap.lastIndex) else cs;
    MessageIsOk(c, SnapReq(n, snap, prefix));
    RecogniseKeeps(c, n, snap.term, snap.leader);
    MessageIsOk(c1, SnapReq(n, snap, prefix));
    MemberIsOk(c1, n);
    InvLeaders(c);
    ReachesOwed(c, n, snap.term, snap.lastIndex);
    OwesAfter(c, c1, n, snap.term, snap.lastIndex);
    SnapshotEffect(c, n, snap, prefix, restored, heard, c1, c2);
    SnapshotTaken(c1, n, snap, prefix, c2, heard && success);
    EvolvesTrans(c, c1, c2);
    var calls := DoSnapshot(c, n, snap, prefix, restored, heard).calls;
    CallsKeep(c2, calls);
    EvolvesTrans(c, c2, c2.(calls := calls));
  }

  lemma SnapIsSafe(c: Cluster, to: NodeId, a: SnapshotArgs, prefix: Log)
    requires Ship(c) && SnapReq(to, a, prefix) in c.net
    ensures SnapSafe(c, to, a)
  {
    hide CallsOk, PeersOk, LabelsOk, SnapSafe;
    var msg := SnapReq(to, a, prefix);
    assert SnapSafe(c, msg.to, msg.snap);
  }

  lemma SnapshotStepKeeps(c: Cluster, a: Action)
    requires WellFormed(c) && Enabled(c, a) && Guarded(c, a) && a.HandleSnapshot? && Ship(c)
    requires Inv(c)
    ensures StepKept(c, a)
  {
    hide Inv, Evolves, CommittedIn, Ship, SnapSafe;
    SnapIsSafe(c, a.n, a.snap, a.prefix);
    assert Do(c, a) == DoSnapshot(c, a.n, a.snap, a.prefix, a.restored, a.heard);
    hide Do, DoSnapshot;
    if a.snap.term < c.members[a.n].s.term {
      SnapshotStale(c, a.n, a.snap, a.prefix, a.restored, a.heard);
    } else {
      SnapshotFresh(c, a.n, a.snap, a.prefix, a.restored, a.heard);
    }
  }

  // --- The apply loop ---

  /** The entry the apply loop reads from the compacted log. */
  lemma ImageEntry(m: Member, k: nat)
    requires Full(m.s.log) && m.floor < |m.s.log| && 0 < k < |m.s.log|
    ensures Contiguous(Image(m).log)
    ensures EntryAt(Image(m).log, k) == if k < m.floor then None
                                        else if k == m.floor then Some(LogEntry(m.s.log[k].term, k, Nil))
                                        else Some(m.s.log[k])
  {
  }

  lemma NextIsCommitted(c: Cluster, c2: Cluster, n: NodeId, log: Log, commit: nat, t: nat, k: nat)
    requires CommittedIn(c.h, log, commit, t) && k <= commit && k < |log|
    requires c2.h.commits == c.h.commits && c2.h.leaderLogs == c.h.leaderLogs
    ensures AppliedEntryOk(c2, Applied(n, k, log[k]))
  {
  }

  lemma ApplyNews(c: Cluster, n: NodeId)
    requires n in c.members && MemberOk(c, n) && Full(c.members[n].s.log) && c.members[n].floor < |c.members[n].s.log|
    requires c.members[n].s.applied + 1 <= c.members[n].s.commit
    ensures NewsOk(c, DoApply(c, n))
  {
    var m := c.members[n];
    var next := m.s.applied + 1;
    WithinLog(c.h, m.s.log, m.s.commit, m.s.term);
    hide RunningOk, LeaderOk, LogOk, CommittedIn, AppliedEntryOk, Image, EntryAt, Full;
    ImageEntry(m, next);
    NextIsCommitted(c, DoApply(c, n), n, m.s.log, m.s.commit, m.s.term, next);
  }

  lemma ApplyIsLight(c: Cluster, n: NodeId)
    requires n in c.members && MemberOk(c, n) && Full(c.members[n].s.log) && c.members[n].floor < |c.members[n].s.log|
    requires c.members[n].s.applied + 1 <= c.members[n].s.commit
    ensures Light(c, n, DoApply(c, n))
  {
    hide RunningOk, LogOk, CommittedIn, NewsOk, Image, EntryAt, Full;
    ApplyNews(c, n);
    assert c.members == c.members[n := c.members[n]];
  }

  lemma ApplyStepKeeps(c: Cluster, a: Action)
    requires WellFormed(c) && Enabled(c, a) && a.ApplyBegin?
    requires Inv(c)
    ensures StepKept(c, a)
  {
    hide Inv, Evolves, Light, MemberOk;
    MemberIsOk(c, a.n);
    ApplyIsLight(c, a.n);
    LightKeeps(c, a.n, Do(c, a));
  }

  // --- All steps ---

  lemma StepKeeps(c: Cluster, a: Action)
    requires WellFormed(c) && Enabled(c, a) && Guarded(c, a) && Ship(c)
    requires Inv(c)
    ensures Inv(Do(c, a)) && Evolves(c, Do(c, a))
  {
    hide Inv, Evolves, Do, Ship, WellFormed, Enabled, Guarded;
    match a
    case StartElection(n) => StartElectionKeeps(c, a);
    case HandleVote(n, vote) => VoteStepKeeps(c, a);
    case Win(n, q) => WinStepKeeps(c, a);
    case Propose(n, cmd) => ProposeStepKeeps(c, a);
    case SendAppend(n, to) => SendAppendKeeps(c, a);
    case HandleAppend(n, args, heard) => AppendStepKeeps(c, a);
    case HandleAppendAns(n, from) => ReplyStepKeeps(c, a);
    case AdvanceCommit(n) => CommitStepKeeps(c, a);
    case FinishSnapshot(n) => FinishStepKeeps(c, a);
    case SendSnapshot(n, to) => SendSnapshotKeeps(c, a);
    case HandleSnapshot(n, snap, prefix, restored, heard) => SnapshotStepKeeps(c, a);
    case HandleSnapAns(n, from) => ReplyStepKeeps(c, a);
    case GiveUp(n, to) => GiveUpKeeps(c, a);
    case ApplyBegin(n) => ApplyStepKeeps(c, a);
    case _ => LocalStepKeeps(c, a);
  }
}
