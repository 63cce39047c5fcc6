/** What a single step can touch. */
module Footprint {
  import opened RaftTypes
  import opened LogStore
  import opened Handlers
  import opened Cluster

  // --- Which step it is ---

  lemma VoteStep(c: Cluster, a: Action)
    requires CanStep(c, a) && a.HandleVote?
    ensures a.n in c.members && c.members[a.n].s.log != [] && Do(c, a) == DoVote(c, a.n, a.vote)
  {
    hide DoVote;
  }

  lemma AppendStep(c: Cluster, a: Action)
    requires CanStep(c, a) && a.HandleAppend?
    ensures a.n in c.members && Contiguous(c.members[a.n].s.log) && Follows(a.args.prevLogIndex, a.args.entries)
    ensures (a.heard ==> (a.args.leader, a.n) in c.calls) && Do(c, a) == DoAppend(c, a.n, a.args, a.heard)
  {
    hide DoAppend;
  }

  lemma SnapshotStep(c: Cluster, a: Action)
    requires CanStep(c, a) && a.HandleSnapshot?
    ensures a.n in c.members && c.members[a.n].s.log != [] && a.prefix != []
    ensures a.heard ==> (a.snap.leader, a.n) in c.calls
    ensures Do(c, a) == DoSnapshot(c, a.n, a.snap, a.prefix, a.restored, a.heard)
  {
    hide DoSnapshot;
  }

  lemma AppendAnsStep(c: Cluster, a: Action)
    requires CanStep(c, a) && a.HandleAppendAns?
    ensures a.n in c.members && (a.n, a.from) in c.calls
    ensures Full(c.members[a.n].s.log) && c.members[a.n].floor < |c.members[a.n].s.log|
    ensures c.calls[(a.n, a.from)].request.AppendReq? && c.calls[(a.n, a.from)].answer.Some?
    ensures c.calls[(a.n, a.from)].answer.value.Appended? && Do(c, a) == DoAppendAns(c, a.n, a.from)
  {
    hide DoAppendAns;
  }

  lemma SnapAnsStep(c: Cluster, a: Action)
    requires CanStep(c, a) && a.HandleSnapAns?
    ensures a.n in c.members && (a.n, a.from) in c.calls
    ensures c.calls[(a.n, a.from)].request.SnapReq? && c.calls[(a.n, a.from)].answer.Some?
    ensures c.calls[(a.n, a.from)].answer.value.Installed? && Do(c, a) == DoSnapAns(c, a.n, a.from)
  {
    hide DoSnapAns;
  }

  lemma ApplyStep(c: Cluster, a: Action)
    requires CanStep(c, a) && a.ApplyBegin?
    ensures a.n in c.members && Full(c.members[a.n].s.log) && c.members[a.n].floor < |c.members[a.n].s.log|
    ensures Do(c, a) == DoApply(c, a.n)
  {
    hide DoApply;
  }

  lemma CommitStep(c: Cluster, a: Action)
    requires CanStep(c, a) && a.AdvanceCommit?
    ensures a.n in c.members && Contiguous(c.members[a.n].s.log) && Do(c, a) == DoCommit(c, a.n)
  {
    hide DoCommit;
  }

  lemma WinStep(c: Cluster, a: Action)
    requires CanStep(c, a) && a.Win?
    ensures a.n in c.members && c.members[a.n].s.log != [] && Do(c, a) == DoWin(c, a.n, a.quorum)
  {
    hide DoWin;
  }

  lemma ProposeStep(c: Cluster, a: Action)
    requires CanStep(c, a) && a.Propose?
    ensures a.n in c.members && c.members[a.n].s.log != [] && Do(c, a) == DoPropose(c, a.n, a.cmd)
  {
    hide DoPropose;
  }

  lemma ElectionStep(c: Cluster, a: Action)
    requires CanStep(c, a) && a.StartElection?
    ensures a.n in c.members && c.members[a.n].s.log != [] && Do(c, a) == DoStartElection(c, a.n)
  {
    hide DoStartElection;
  }

  /** The steps that `Cluster` gives a function of their own. */
  predicate Compound(a: Action) {
    match a
    case HandleVote(_, _) => true
    case HandleAppend(_, _, _) => true
    case HandleSnapshot(_, _, _, _, _) => true
    case HandleAppendAns(_, _) => true
    case HandleSnapAns(_, _) => true
    case ApplyBegin(_) => true
    case AdvanceCommit(_) => true
    case StartElection(_) => true
    case Win(_, _) => true
    case Propose(_, _) => true
    case _ => false
  }

  lemma WhichStep(c: Cluster, a: Action)
    requires CanStep(c, a) && Compound(a)
    ensures a.n in c.members
    ensures a.HandleVote? ==> c.members[a.n].s.log != [] && Do(c, a) == DoVote(c, a.n, a.vote)
    ensures a.HandleAppend? ==>
              && Contiguous(c.members[a.n].s.log) && Follows(a.args.prevLogIndex, a.args.entries)
              && (a.heard ==> (a.args.leader, a.n) in c.calls) && Do(c, a) == DoAppend(c, a.n, a.args, a.heard)
    ensures a.HandleSnapshot? ==>
              && c.members[a.n].s.log != [] && a.prefix != [] && (a.heard ==> (a.snap.leader, a.n) in c.calls)
              && Do(c, a) == DoSnapshot(c, a.n, a.snap, a.prefix, a.restored, a.heard)
    ensures a.HandleAppendAns? ==>
              && (a.n, a.from) in c.calls
              && Full(c.members[a.n].s.log) && c.members[a.n].floor < |c.members[a.n].s.log|
              && c.calls[(a.n, a.from)].request.AppendReq? && c.calls[(a.n, a.from)].answer.Some?
              && c.calls[(a.n, a.from)].answer.value.Appended? && Do(c, a) == DoAppendAns(c, a.n, a.from)
    ensures a.HandleSnapAns? ==>
              && (a.n, a.from) in c.calls
              && c.calls[(a.n, a.from)].request.SnapReq? && c.calls[(a.n, a.from)].answer.Some?
              && c.calls[(a.n, a.from)].answer.value.Installed? && Do(c, a) == DoSnapAns(c, a.n, a.from)
    ensures a.ApplyBegin? ==>
              && Full(c.members[a.n].s.log) && c.members[a.n].floor < |c.members[a.n].s.log|
              && Do(c, a) == DoApply(c, a.n)
    ensures a.AdvanceCommit? ==> Contiguous(c.members[a.n].s.log) && Do(c, a) == DoCommit(c, a.n)
    ensures a.StartElection? ==> c.members[a.n].s.log != [] && Do(c, a) == DoStartElection(c, a.n)
    ensures a.Win? ==> c.members[a.n].s.log != [] && Do(c, a) == DoWin(c, a.n, a.quorum)
    ensures a.Propose? ==> c.members[a.n].s.log != [] && Do(c, a) == DoPropose(c, a.n, a.cmd)
  {
    hide Do, Enabled, WellFormed, Full;
    match a
    case HandleVote(_, _) => VoteStep(c, a);
    case HandleAppend(_, _, _) => AppendStep(c, a);
    case HandleSnapshot(_, _, _, _, _) => SnapshotStep(c, a);
    case HandleAppendAns(_, _) => AppendAnsStep(c, a);
    case HandleSnapAns(_, _) => SnapAnsStep(c, a);
    case ApplyBegin(_) => ApplyStep(c, a);
    case AdvanceCommit(_) => CommitStep(c, a);
    case StartElection(_) => ElectionStep(c, a);
    case Win(_, _) => WinStep(c, a);
    case Propose(_, _) => ProposeStep(c, a);
  }

  /** Only member n differs. */
  ghost predicate OnlyMoves(c: Cluster, n: NodeId, c2: Cluster) {
    c2.members.Keys == c.members.Keys && forall x :: x in c.members && x != n ==> c2.members[x] == c.members[x]
  }

  lemma CompoundMoves(c: Cluster, a: Action)
    requires CanStep(c, a) && Compound(a)
    ensures OnlyMoves(c, a.n, Do(c, a))
  {
    hide Do, Enabled, WellFormed, HandleAppendEntries, HandleRequestVote, InstallFull, Image, EntryAt, BecomeLeader,
      HandleAppendReply, HandleSnapshotReply, CommitScan;
    WhichStep(c, a);
  }

  lemma PlainMoves(c: Cluster, a: Action)
    requires CanStep(c, a) && !Compound(a)
    ensures OnlyMoves(c, a.n, Do(c, a))
  {
    hide DoVote, DoAppend, DoSnapshot, DoAppendAns, DoSnapAns, DoApply, DoCommit, DoStartElection, DoWin, DoPropose;
    hide Contiguous, Follows, AppendFor, SnapshotFor, TermAt;
  }

  lemma StepTaken(c: Cluster, a: Action)
    requires CanStep(c, a)
    ensures a.n in c.members
  {
  }

  /** A step changes only the member that takes it. */
  lemma OnlyOneMoves(c: Cluster, a: Action)
    requires CanStep(c, a)
    ensures a.n in c.members && Do(c, a).members.Keys == c.members.Keys
    ensures forall x :: x in c.members && x != a.n ==> Do(c, a).members[x] == c.members[x]
  {
    hide Do, Enabled, WellFormed, Compound;
    StepTaken(c, a);
    if Compound(a) {
      CompoundMoves(c, a);
    } else {
      PlainMoves(c, a);
    }
  }

  /** The only snapshots sent are those of a leader's cache. */
  ghost predicate SendsOnly(c: Cluster, a: Action, c2: Cluster)
    requires a.n in c.members
  {
    && c.net <= c2.net
    && forall msg :: msg in c2.net && msg !in c.net && msg.SnapReq? ==>
         && a.SendSnapshot? && c.members[a.n].cache.Some? && c.members[a.n].cache.value.index < |c.members[a.n].s.log|
         && msg == SnapshotFor(c.members[a.n], a.n, a.to)
  }

  lemma CompoundSends(c: Cluster, a: Action)
    requires CanStep(c, a) && Compound(a)
    ensures a.n in c.members && SendsOnly(c, a, Do(c, a))
  {
    hide Do, Enabled, WellFormed, HandleAppendEntries, HandleRequestVote, InstallFull, Image, EntryAt, Uniform,
      HandleAppendReply, HandleSnapshotReply, CommitScan;
    WhichStep(c, a);
  }

  lemma PlainSends(c: Cluster, a: Action)
    requires CanStep(c, a) && !Compound(a)
    ensures a.n in c.members && SendsOnly(c, a, Do(c, a))
  {
    hide DoVote, DoAppend, DoSnapshot, DoAppendAns, DoSnapAns, DoApply, DoCommit, DoStartElection, DoWin, DoPropose;
    hide Contiguous, Follows, AppendFor, TermAt;
  }

  lemma StepSends(c: Cluster, a: Action)
    requires CanStep(c, a)
    ensures a.n in c.members && SendsOnly(c, a, Do(c, a))
  {
    hide Do, Enabled, WellFormed, Compound;
    if Compound(a) {
      CompoundSends(c, a);
    } else {
      PlainSends(c, a);
    }
  }

  /** Member `n` answers the call from `l` with a request of term t. */
  predicate Answers(a: Action, l: NodeId, p: NodeId, t: nat) {
    a.n == p &&
    match a
    case HandleAppend(_, args, heard) => heard && args.leader == l && args.term == t
    case HandleSnapshot(_, snap, _, _, heard) => heard && snap.leader == l && snap.term == t
    case _ => false
  }

  function RequestIn(a: Action): Message
    requires a.HandleAppend? || a.HandleSnapshot?
  {
    match a
    case HandleAppend(n, args, _) => AppendReq(n, args)
    case HandleSnapshot(n, snap, prefix, _, _) => SnapReq(n, snap, prefix)
  }

  /** An acknowledgement is heard, or a leader counts itself. */
  ghost predicate AcksOnly(c: Cluster, a: Action, c2: Cluster)
    requires a.n in c.members
  {
    forall x: NodeId, t: nat ::
      (x, t) in c2.h.acked && !((x, t) in c.h.acked && c.h.acked[(x, t)] == c2.h.acked[(x, t)]) ==>
      x == a.n && (((a.Win? || a.Propose?) && t == c.members[a.n].s.term)
                   || (a.HandleAppend? && Answers(a, a.args.leader, x, t))
                   || (a.HandleSnapshot? && Answers(a, a.snap.leader, x, t)))
  }

  lemma CompoundAcks(c: Cluster, a: Action)
    requires CanStep(c, a) && Compound(a)
    ensures a.n in c.members && AcksOnly(c, a, Do(c, a))
  {
    hide Do, Enabled, WellFormed, HandleAppendEntries, HandleRequestVote, InstallFull, Image, EntryAt, Uniform,
      HandleAppendReply, HandleSnapshotReply, CommitScan;
    WhichStep(c, a);
  }

  lemma PlainAcks(c: Cluster, a: Action)
    requires CanStep(c, a) && !Compound(a)
    ensures a.n in c.members && AcksOnly(c, a, Do(c, a))
  {
    hide DoVote, DoAppend, DoSnapshot, DoAppendAns, DoSnapAns, DoApply, DoCommit, DoStartElection, DoWin, DoPropose;
    hide Contiguous, Follows, AppendFor, TermAt;
  }

  lemma StepAcks(c: Cluster, a: Action)
    requires CanStep(c, a)
    ensures a.n in c.members && AcksOnly(c, a, Do(c, a))
  {
    hide Do, Enabled, WellFormed, Compound;
    if Compound(a) {
      CompoundAcks(c, a);
    } else {
      PlainAcks(c, a);
    }
  }

  /** The calls of other members change only by being answered. */
  ghost predicate CallsOnly(c: Cluster, a: Action, c2: Cluster) {
    forall n: NodeId, p: NodeId :: (n, p) in c2.calls && !((n, p) in c.calls && c2.calls[(n, p)] == c.calls[(n, p)]) ==>
      (n == a.n && (a.SendAppend? || a.SendSnapshot?) && a.to == p) ||
      (p == a.n && (a.HandleAppend? || a.HandleSnapshot?) && Answers(a, n, p, TermOf(RequestIn(a)))
       && (n, p) in c.calls && c.calls[(n, p)] == Call(RequestIn(a), None) && c2.calls[(n, p)].request == RequestIn(a))
  }

  lemma StepCalls(c: Cluster, a: Action)
    requires CanStep(c, a)
    ensures CallsOnly(c, a, Do(c, a))
  {
    hide HandleAppendEntries, HandleRequestVote, InstallFull, BecomeLeader, HandleAppendReply, HandleSnapshotReply,
      CommitScan, Image, EntryAt, Contiguous, Follows, AppendFor;
  }

  /** Calls end only for their caller. */
  lemma StepEnds(c: Cluster, a: Action)
    requires CanStep(c, a)
    ensures forall n: NodeId, p: NodeId :: (n, p) in c.calls && n != a.n ==> (n, p) in Do(c, a).calls
  {
    hide HandleAppendEntries, HandleRequestVote, InstallFull, BecomeLeader, HandleAppendReply, HandleSnapshotReply,
      CommitScan, Image, EntryAt, Contiguous, Follows, AppendFor;
  }

  lemma CompoundFloor(c: Cluster, a: Action)
    requires CanStep(c, a) && Compound(a)
    ensures a.n in Do(c, a).members && c.members[a.n].floor <= Do(c, a).members[a.n].floor
  {
    hide Do, Enabled, WellFormed, HandleAppendEntries, HandleRequestVote, HandleAppendReply, HandleSnapshotReply,
      CommitScan, Image, EntryAt, Recognise, BecomeLeader;
    WhichStep(c, a);
  }

  lemma PlainFloor(c: Cluster, a: Action)
    requires CanStep(c, a) && !Compound(a)
    ensures a.n in Do(c, a).members && c.members[a.n].floor <= Do(c, a).members[a.n].floor
  {
    hide DoVote, DoAppend, DoSnapshot, DoAppendAns, DoSnapAns, DoApply, DoCommit, DoStartElection, DoWin, DoPropose;
    hide Contiguous, Follows, AppendFor, SnapshotFor, TermAt;
  }

  /** The floor never moves down. */
  lemma StepFloor(c: Cluster, a: Action)
    requires CanStep(c, a)
    ensures forall x :: x in c.members && x in Do(c, a).members ==> c.members[x].floor <= Do(c, a).members[x].floor
  {
    hide Do, Enabled, WellFormed, Compound;
    OnlyOneMoves(c, a);
    if Compound(a) {
      CompoundFloor(c, a);
    } else {
      PlainFloor(c, a);
    }
  }
}
