/** In every guarded run the node's state in memory moves exactly as the handlers of
    raft/node.go move it, although the cluster model keeps full logs. */
module Refinement {
  import opened RaftTypes
  import opened LogStore
  import opened Handlers
  import opened Cluster
  import opened Invariant
  import opened Evolution
  import opened Agreement
  import opened Preservation
  import opened Prefixes
  import opened AllSteps
  import opened Shipping
  import opened Shipped
  import opened Safety
  import opened Compaction

  /** What the code does to the state `s` in the memory of the node that takes step `a`. */
  function CodeStep(c: Cluster, a: Action, s: NodeState): NodeState
    requires a.n in c.members && Contiguous(s.log)
    requires a.HandleAppend? ==> Follows(a.args.prevLogIndex, a.args.entries)
  {
    var m := c.members[a.n];
    match a
    case ElectionTimeout(n) => s.(role := Candidate)
    case StartElection(n) => Handlers.StartElection(s, n)
    case HandleVote(n, vote) => HandleRequestVote(s, vote).0
    case SeeHigherTerm(n, term) => BecomeFollower(s, term)
    case Win(n, q) => BecomeLeader(s, n, Peers(c, n))
    case EndCampaign(n) => s
    case StepDown(n) => s.(role := Follower)
    case Propose(n, cmd) => Handlers.Propose(s, n, cmd)
    case SendAppend(n, to) => PrepareAppend(s, n, to, m.cache.Some?).0
    case HandleAppend(n, args, heard) => HandleAppendEntries(s, args).0
    case HandleAppendAns(n, from) =>
      (match Pending(c, n, from)
       case Some(Call(AppendReq(_, args), Some(Appended(r)))) => HandleAppendReply(s, from, args, r)
       case _ => s)
    case AdvanceCommit(n) => Handlers.AdvanceCommit(s, Peers(c, n))
    case CaptureLabel(n) => s
    case FinishSnapshot(n) =>
      if m.capture.Some? then s.(log := Compact(s.log, m.capture.value.index, m.capture.value.term)) else s
    case DropSnapshot(n) => s
    case SendSnapshot(n, to) => PrepareAppend(s, n, to, m.cache.Some?).0
    case HandleSnapshot(n, snap, prefix, restored, heard) => HandleInstallSnapshot(s, snap, restored).0
    case HandleSnapAns(n, from) =>
      (match Pending(c, n, from)
       case Some(Call(SnapReq(_, snap, _), Some(Installed(r)))) => HandleSnapshotReply(s, from, snap, r)
       case _ => s)
    case GiveUp(n, to) => s
    case ApplyBegin(n) => PickEntry(s).0
    case ApplyEnd(n) => if m.pending.Some? then s.(applied := m.pending.value) else s
  }

  function Pending(c: Cluster, n: NodeId, from: NodeId): Option<Call> {
    if (n, from) in c.calls then Some(c.calls[(n, from)]) else None
  }

  /** The request the code sends in step `a`, if it sends one: to a peer, what sendAppend and
      sendInstallSnapshot prepare from the memory `s` and the label of the cached snapshot. */
  function CodeRequest(c: Cluster, a: Action, s: NodeState): Option<Message>
    requires a.n in c.members && Contiguous(s.log)
  {
    var m := c.members[a.n];
    match a
    case StartElection(n) => Some(VoteReq(VoteRequest(Handlers.StartElection(s, n), n)))
    case SendAppend(n, to) => PeerRequest(m, n, to, s)
    case SendSnapshot(n, to) => PeerRequest(m, n, to, s)
    case _ => None
  }

  function PeerRequest(m: Member, n: NodeId, to: NodeId, s: NodeState): Option<Message>
    requires Contiguous(s.log)
  {
    match PrepareAppend(s, n, to, m.cache.Some?).1
    case Idle => None
    case ShipEntries(args) => Some(AppendReq(to, args))
    case ShipSnapshot =>
      if m.cache.Some? && m.cache.value.index < |m.s.log|
      then Some(SnapReq(to, SnapshotArgs(s.term, n, m.cache.value.index, m.cache.value.term),
          m.s.log[..m.cache.value.index + 1]))
      else None
  }

  /** The reply of the code in step `a`. */
  function CodeReply(a: Action, s: NodeState): Option<Answer>
    requires Contiguous(s.log)
    requires a.HandleAppend? ==> Follows(a.args.prevLogIndex, a.args.entries)
  {
    match a
    case HandleAppend(n, args, heard) => Some(Appended(HandleAppendEntries(s, args).1))
    case HandleSnapshot(n, snap, prefix, restored, heard) => Some(Installed(HandleInstallSnapshot(s, snap, restored).1))
    case _ => None
  }

  /** The labels of the snapshot in progress and of the cached one after step `a`. */
  function CodeLabels(c: Cluster, a: Action, s: NodeState): (Option<Label>, Option<Label>)
    requires a.n in c.members && Contiguous(s.log)
  {
    var m := c.members[a.n];
    match a
    case CaptureLabel(n) => (Some(Label(s.applied, TermAt(s.log, s.applied))), m.cache)
    case FinishSnapshot(n) => (None, m.capture)
    case DropSnapshot(n) => (None, m.cache)
    case HandleSnapshot(n, snap, prefix, restored, heard) =>
      (m.capture, if Installs(s, snap) then Some(Label(snap.lastIndex, snap.lastTerm)) else m.cache)
    case _ => (m.capture, m.cache)
  }

  ghost predicate Sound(m: Member) {
    Full(m.s.log) && m.floor <= m.s.commit < |m.s.log|
  }

  lemma MemberIsSound(c: Cluster, n: NodeId)
    requires n in c.members
    requires Inv(c)
    ensures Sound(c.members[n])
  {
    hide Inv, RunningOk, LeaderOk;
    MemberIsOk(c, n);
    EvolvesRefl(c);
    CommittedLater(c, c, n);
  }

  /** A request for a member agrees with everything at or below the member's floor. */
  lemma RequestAgreesBelow(c: Cluster, n: NodeId, a: AppendArgs)
    requires AppendReq(n, a) in c.net && n in c.members && c.members[n].s.term <= a.term
    requires Inv(c)
    ensures var log, f := c.members[n].s.log, c.members[n].floor;
            && f < |log| && AgreesBelow(log, f, a.prevLogIndex, a.entries)
            && (a.prevLogIndex <= f ==> log[a.prevLogIndex].term == a.prevLogTerm)
  {
    hide Inv, RunningOk, LeaderOk, LogOk, Settled;
    MemberIsSound(c, n);
    MemberIsOk(c, n);
    MessageIsOk(c, AppendReq(n, a));
    InvLeaders(c);
    var s, f, lead := c.members[n].s, c.members[n].floor, c.h.leaderLogs[a.term];
    CommittedInLeader(c, s.log, s.commit, s.term, a.term);
    hide CommittedIn;
    forall k: nat | k <= f
      ensures s.log[k] == lead[k]
    {
      AgreeWeaken(s.log, lead, s.commit, k);
    }
  }

  ghost predicate Refines(c: Cluster, a: Action) {
    && CanStep(c, a)
    && var m, c2 := c.members[a.n], Do(c, a);
    && Contiguous(Image(m).log) && (a.HandleAppend? ==> Follows(a.args.prevLogIndex, a.args.entries))
    && a.n in c2.members && Sound(c2.members[a.n])
    && Image(c2.members[a.n]) == CodeStep(c, a, Image(m))
    && (c2.members[a.n].capture, c2.members[a.n].cache) == CodeLabels(c, a, Image(m))
    && c2.net == (match CodeRequest(c, a, Image(m)) { case Some(msg) => c.net + {msg} case None => c.net })
    && (match a
        case HandleAppend(n, args, heard) => heard ==> Told(c2, args.leader, n, CodeReply(a, Image(m)))
        case HandleSnapshot(n, snap, _, _, heard) => heard ==> Told(c2, snap.leader, n, CodeReply(a, Image(m)))
        case _ => true)
  }

  /** The caller has this answer. */
  predicate Told(c: Cluster, l: NodeId, n: NodeId, ans: Option<Answer>) {
    (l, n) in c.calls && c.calls[(l, n)].answer == ans
  }

  /** The step leads from a sound member to a sound member. */
  ghost predicate SoundStep(c: Cluster, a: Action) {
    CanStep(c, a) && Sound(c.members[a.n]) && a.n in Do(c, a).members && Sound(Do(c, a).members[a.n])
  }

  lemma VoteRefines(c: Cluster, a: Action)
    requires SoundStep(c, a)
    requires a.HandleVote?
    ensures Refines(c, a)
  {
    var m := c.members[a.n];
    CompactedShape(m.s.log, m.floor);
    VoteTransparent(m.s, m.floor, a.vote);
    hide Contiguous, Compacted, HandleRequestVote;
  }

  lemma StandRefines(c: Cluster, a: Action)
    requires SoundStep(c, a)
    requires a.StartElection?
    ensures Refines(c, a)
  {
    var m := c.members[a.n];
    hide Contiguous, Compacted;
    CompactedShape(m.s.log, m.floor);
  }

  lemma WinTransparent(s: NodeState, f: nat, n: NodeId, peers: set<NodeId>)
    requires Full(s.log) && f < |s.log|
    ensures Compacted(s.log, f) != []
    ensures BecomeLeader(s.(log := Compacted(s.log, f)), n, peers) ==
            BecomeLeader(s, n, peers).(log := Compacted(s.log, f))
    ensures BecomeLeader(s, n, peers).log == s.log && BecomeLeader(s, n, peers).commit == s.commit
  {
    CompactedShape(s.log, f);
    hide Compacted, Uniform;
  }

  lemma WinRefines(c: Cluster, a: Action)
    requires SoundStep(c, a)
    requires a.Win?
    ensures Refines(c, a)
  {
    hide Contiguous, Compacted, Majority, BecomeLeader;
    var m := c.members[a.n];
    CompactedShape(m.s.log, m.floor);
    WinTransparent(m.s, m.floor, a.n, Peers(c, a.n));
    assert Do(c, a) == DoWin(c, a.n, a.quorum);
    hide Do, Enabled, WellFormed;
  }

  lemma AnswerRefines(c: Cluster, a: Action)
    requires SoundStep(c, a)
    requires a.HandleAppendAns? || a.HandleSnapAns?
    ensures Refines(c, a)
  {
    var m := c.members[a.n];
    hide Contiguous, Compacted;
    CompactedShape(m.s.log, m.floor);
  }

  lemma LocalRefines(c: Cluster, a: Action)
    requires SoundStep(c, a)
    requires a.ElectionTimeout? || a.SeeHigherTerm? || a.StepDown? || a.ApplyEnd? || a.EndCampaign?
          || a.DropSnapshot? || a.GiveUp?
    ensures Refines(c, a)
  {
    var m := c.members[a.n];
    hide Contiguous, Compacted;
    CompactedShape(m.s.log, m.floor);
  }

  lemma ProposeRefines(c: Cluster, a: Action)
    requires SoundStep(c, a)
    requires a.Propose?
    ensures Refines(c, a)
  {
    var m := c.members[a.n];
    CompactedShape(m.s.log, m.floor);
    CompactedAppend(m.s.log, m.floor, LogEntry(m.s.term, Last(m.s.log) + 1, a.cmd));
    assert Do(c, a) == DoPropose(c, a.n, a.cmd) && m.s.role == Leader;
    hide Contiguous, Compacted, Do, Enabled, WellFormed;
  }

  lemma SendRefines(c: Cluster, a: Action)
    requires SoundStep(c, a) && a.SendAppend?
    ensures Refines(c, a)
  {
    var m, next := c.members[a.n], Get(c.members[a.n].s.nextIndex, a.to);
    hide Contiguous, Compacted, AppendFor;
    CompactedShape(m.s.log, m.floor);
    AppendForTransparent(m.s, m.floor, a.n, next);
  }

  lemma ShipRefines(c: Cluster, a: Action)
    requires SoundStep(c, a) && a.SendSnapshot?
    ensures Refines(c, a)
  {
    var m := c.members[a.n];
    hide Contiguous, Compacted, AppendFor;
    CompactedShape(m.s.log, m.floor);
  }

  lemma CaptureRefines(c: Cluster, a: Action)
    requires SoundStep(c, a) && a.CaptureLabel? && c.members[a.n].s.applied <= c.members[a.n].s.commit
    ensures Refines(c, a)
  {
    var m := c.members[a.n];
    CompactedAt(m.s.log, m.floor, m.s.applied);
    hide Contiguous, Compacted, TermAt;
    CompactedShape(m.s.log, m.floor);
  }

  lemma CommitRefines(c: Cluster, a: Action)
    requires SoundStep(c, a)
    requires a.AdvanceCommit?
    ensures Refines(c, a)
  {
    var m := c.members[a.n];
    hide Contiguous, Compacted, CommitScan;
    CompactedShape(m.s.log, m.floor);
    ScanCompacted(m.s, m.floor, Peers(c, a.n), Last(m.s.log));
    assert Do(c, a) == DoCommit(c, a.n);
    hide Do, Enabled, WellFormed;
  }

  lemma CompactRefines(c: Cluster, a: Action)
    requires SoundStep(c, a) && a.FinishSnapshot? && LabelOk(c.members[a.n].s, c.members[a.n].capture)
    ensures Refines(c, a)
  {
    var m := c.members[a.n];
    var l := m.capture.value;
    CompactedShape(m.s.log, m.floor);
    if l.index > m.floor {
      CompactAgain(m.s.log, m.floor, l.index);
      CompactedShape(m.s.log, l.index);
    } else {
      CompactedStays(m.s.log, m.floor, l.index, l.term);
    }
    hide Contiguous, Compacted, Compact;
  }

  lemma CompactedStays(log: Log, f: nat, k: nat, term: nat)
    requires Full(log) && f < |log| && k <= f
    ensures Contiguous(Compacted(log, f)) && Compact(Compacted(log, f), k, term) == Compacted(log, f)
  {
    CompactedShape(log, f);
  }

  lemma ApplyRefines(c: Cluster, a: Action)
    requires SoundStep(c, a)
    requires a.ApplyBegin?
    ensures Refines(c, a)
  {
    hide Contiguous, Compacted;
    var m := c.members[a.n];
    CompactedShape(m.s.log, m.floor);
    assert Do(c, a) == DoApply(c, a.n) && m.s.applied + 1 <= m.s.commit;
    hide Do, Enabled, WellFormed;
  }

  lemma AppendRefines(c: Cluster, a: Action)
    requires SoundStep(c, a) && a.HandleAppend?
    requires Inv(c)
    ensures Refines(c, a)
  {
    hide Inv, Contiguous, Compacted, HandleAppendEntries, AgreesBelow;
    var m := c.members[a.n];
    assert Full(m.s.log) && Follows(a.args.prevLogIndex, a.args.entries);
    hide Follows;
    StaleTransparent(m.s, m.floor, a.args);
    if a.args.term >= m.s.term {
      RequestAgreesBelow(c, a.n, a.args);
      AppendTransparent(m.s, m.floor, a.args);
    }
    CompactedShape(m.s.log, m.floor);
    assert Do(c, a) == DoAppend(c, a.n, a.args, a.heard);
    hide Do, Enabled, WellFormed;
  }

  lemma StaleTransparent(s: NodeState, f: nat, a: AppendArgs)
    requires Full(s.log) && f < |s.log| && Follows(a.prevLogIndex, a.entries)
    ensures Contiguous(Compacted(s.log, f))
    ensures a.term < s.term ==>
      && HandleAppendEntries(s, a) == (s, AppendReply(s.term, false))
      && HandleAppendEntries(s.(log := Compacted(s.log, f)), a) ==
         (s.(log := Compacted(s.log, f)), AppendReply(s.term, false))
  {
    CompactedShape(s.log, f);
  }

  lemma SnapshotRefines(c: Cluster, a: Action)
    requires SoundStep(c, a) && a.HandleSnapshot?
    requires a.snap.lastIndex + 1 == |a.prefix| && a.prefix[a.snap.lastIndex].term == a.snap.lastTerm &&
             0 < a.snap.lastIndex
    ensures Refines(c, a)
  {
    var m := c.members[a.n];
    InstallTransparent(m, a.snap, a.prefix, a.restored);
    assert Do(c, a) == DoSnapshot(c, a.n, a.snap, a.prefix, a.restored, a.heard);
    hide Contiguous, Compacted, Do, Enabled, WellFormed, HandleInstallSnapshot, InstallFull, InstallsSnapshot, Installs;
  }

  /** Handling a snapshot on the log in memory, and on the full log. */
  lemma InstallTransparent(m: Member, snap: SnapshotArgs, prefix: Log, restored: bool)
    requires Sound(m) && Full(prefix)
    requires snap.lastIndex + 1 == |prefix| && prefix[snap.lastIndex].term == snap.lastTerm && 0 < snap.lastIndex
    ensures Contiguous(Image(m).log) && Installs(Image(m), snap) == InstallsSnapshot(m, snap)
    ensures var m' := InstallFull(m, snap, prefix);
            var success := snap.term >= m.s.term && (InstallsSnapshot(m, snap) ==> restored);
            && Full(m'.s.log) && m'.floor < |m'.s.log| && m'.capture == m.capture
            && m'.cache == (if InstallsSnapshot(m, snap) then Some(Label(snap.lastIndex, snap.lastTerm)) else m.cache)
            && HandleInstallSnapshot(Image(m), snap, restored) == (Image(m'), SnapshotReply(m'.s.term, success))
  {
    CompactedShape(m.s.log, m.floor);
    assert Compacted(prefix, snap.lastIndex) == [LogEntry(snap.lastTerm, snap.lastIndex, Nil)];
    hide Contiguous, Compacted;
  }

  lemma SnapshotShape(c: Cluster, n: NodeId, a: SnapshotArgs, prefix: Log)
    requires SnapReq(n, a, prefix) in c.net
    requires Inv(c)
    ensures a.lastIndex + 1 == |prefix| && prefix[a.lastIndex].term == a.lastTerm && 0 < a.lastIndex
  {
    hide Inv, CommittedIn;
    MessageIsOk(c, SnapReq(n, a, prefix));
  }

  lemma GuardedStepRefines(c: Cluster, a: Action)
    requires CanStep(c, a) && Guarded(c, a) && Ship(c)
    requires Inv(c)
    ensures Refines(c, a)
  {
    hide Inv, Evolves, Do, Enabled, WellFormed, Refines, Sound, Guarded, Ship;
    StepShips(c, a);
    SameMembers(c, Do(c, a));
    StepTaker(c, a);
    MemberIsSound(c, a.n);
    MemberIsSound(Do(c, a), a.n);
    assert SoundStep(c, a);
    hide SoundStep;
    match a
    case HandleVote(n, vote) => VoteRefines(c, a);
    case StartElection(n) => StandRefines(c, a);
    case Win(n, q) => WinRefines(c, a);
    case Propose(n, cmd) => ProposeRefines(c, a);
    case SendAppend(n, to) => SendRefines(c, a);
    case HandleAppend(n, args, heard) => AppendRefines(c, a);
    case HandleAppendAns(n, from) => AnswerRefines(c, a);
    case AdvanceCommit(n) => CommitRefines(c, a);
    case CaptureLabel(n) =>
      CommitBelow(c, n);
      CaptureRefines(c, a);
    case FinishSnapshot(n) =>
      LabelIsOk(c, n);
      CompactRefines(c, a);
    case SendSnapshot(n, to) => ShipRefines(c, a);
    case HandleSnapshot(n, snap, prefix, restored, heard) =>
      SnapshotShape(c, n, snap, prefix);
      SnapshotRefines(c, a);
    case HandleSnapAns(n, from) => AnswerRefines(c, a);
    case ApplyBegin(n) => ApplyRefines(c, a);
    case _ => LocalRefines(c, a);
  }

  /** The refinement: each guarded step from a reachable state changes the compacted state and the
      labels, sends the request and gives the reply as the code does. */
  lemma StepRefines(ids: set<NodeId>, c: Cluster, a: Action)
    requires Reachable(ids, c) && CanStep(c, a) && Guarded(c, a)
    ensures Refines(c, a)
  {
    hide Inv, Ship, Reachable, CanStep, Guarded, Refines;
    ReachableOk(ids, c);
    GuardedStepRefines(c, a);
  }

  lemma StepTaker(c: Cluster, a: Action)
    requires CanStep(c, a)
    ensures a.n in c.members
    ensures a.HandleSnapshot? ==> SnapReq(a.n, a.snap, a.prefix) in c.net
  {
  }
}
