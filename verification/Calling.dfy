/** What a step does to calls and to snapshots on their way: both stay in order. */
module Calling {
  import opened RaftTypes
  import opened LogStore
  import opened Handlers
  import opened Cluster
  import opened Invariant
  import opened Evolution
  import opened Agreement
  import opened Electing
  import opened Preservation
  import opened Shipping
  import opened AllSteps
  import opened Footprint

  // --- The step and what is known of it ---

  ghost predicate Prints(c: Cluster, a: Action, c2: Cluster) {
    && a.n in c.members && OnlyMoves(c, a.n, c2) && SendsOnly(c, a, c2) && AcksOnly(c, a, c2) && CallsOnly(c, a, c2)
    && (forall n: NodeId, p: NodeId :: (n, p) in c.calls && n != a.n ==> (n, p) in c2.calls)
    && (forall x :: x in c.members ==> c.members[x].floor <= c2.members[x].floor)
  }

  lemma StepPrints(c: Cluster, a: Action)
    requires CanStep(c, a)
    ensures Prints(c, a, Do(c, a))
  {
    hide Do, CanStep, SendsOnly, AcksOnly, CallsOnly;
    OnlyOneMoves(c, a);
    StepSends(c, a);
    StepAcks(c, a);
    StepCalls(c, a);
    StepEnds(c, a);
    StepFloor(c, a);
  }

  lemma LeaderOfTerm(c: Cluster, n: NodeId)
    requires n in c.members && c.members[n].s.role == Leader
    requires Inv(c)
    ensures var s := c.members[n].s;
            && s.term in c.h.leaders && c.h.leaders[s.term].leader == n && s.term in c.h.leaderLogs
            && c.h.leaderLogs[s.term] == s.log && s.log != []
  {
    hide Inv, LogOk, RunningOk, CommittedIn;
    MemberIsOk(c, n);
  }

  lemma WinnerIsNew(c: Cluster, n: NodeId, q: set<NodeId>)
    requires CanStep(c, Win(n, q)) && Guarded(c, Win(n, q))
    requires Inv(c)
    ensures n in c.members && c.members[n].s.term !in c.h.leaders && c.members[n].s.term !in c.h.leaderLogs
    ensures forall x :: AcksUpTo(c.h, x, c.members[n].s.term, 0)
  {
    WinnerMay(c, n, q);
    hide Inv, Guarded, CanStep, MayWin;
    NoRivalHere(c, n, q);
    forall x | (x, c.members[n].s.term) in c.h.acked
      ensures false
    {
      AckedTerm(c, x, c.members[n].s.term);
      assert false;
    }
  }

  lemma WinnerMay(c: Cluster, n: NodeId, q: set<NodeId>)
    requires CanStep(c, Win(n, q)) && Guarded(c, Win(n, q))
    ensures MayWin(c, n, q)
  {
    hide Contiguous, Majority;
  }

  lemma NoRivalHere(c: Cluster, n: NodeId, q: set<NodeId>)
    requires MayWin(c, n, q)
    requires Inv(c)
    ensures n in c.members && c.members[n].s.term !in c.h.leaders && c.members[n].s.term !in c.h.leaderLogs
  {
    hide LeaderLogsOk, ElectionsOk, CampaignsOk, NetOk, CommitsOk, AppliedOk, VotesOk, AckedKept, VotedKept,
      LeadersKept, MembersOk, AcksOk;
    NoRival(c, n, q);
  }

  lemma AckedTerm(c: Cluster, x: NodeId, t: nat)
    requires (x, t) in c.h.acked
    requires Inv(c)
    ensures t in c.h.leaderLogs
  {
    hide LeaderLogsOk, ElectionsOk, CampaignsOk, NetOk, CommitsOk, AppliedOk, VotesOk, AckedKept, VotedKept,
      LeadersKept, MembersOk;
    assert AckOk(c, x, t);
  }

  lemma ReceiptLogs(c: Cluster, a: Action)
    requires CanStep(c, a) && (a.HandleVote? || a.HandleAppend? || a.HandleSnapshot?)
    ensures Do(c, a).h.leaderLogs == c.h.leaderLogs
  {
    hide Do, Enabled, WellFormed, HandleAppendEntries, HandleRequestVote, InstallFull;
    match a
    case HandleVote(_, _) => VoteStep(c, a);
    case HandleAppend(_, _, _) => AppendStep(c, a);
    case _ => SnapshotStep(c, a);
  }

  lemma AnswerLogs(c: Cluster, a: Action)
    requires CanStep(c, a) && (a.HandleAppendAns? || a.HandleSnapAns? || a.ApplyBegin? || a.AdvanceCommit?)
    ensures Do(c, a).h.leaderLogs == c.h.leaderLogs
  {
    hide Do, Enabled, WellFormed, HandleAppendReply, HandleSnapshotReply, CommitScan, Image, EntryAt;
    match a
    case HandleAppendAns(_, _) => AppendAnsStep(c, a);
    case HandleSnapAns(_, _) => SnapAnsStep(c, a);
    case ApplyBegin(_) => ApplyStep(c, a);
    case _ => CommitStep(c, a);
  }

  lemma OwnLogs(c: Cluster, a: Action)
    requires CanStep(c, a) && !a.Win? && !a.Propose? && !a.HandleVote? && !a.HandleAppend? && !a.HandleSnapshot?
    requires !a.HandleAppendAns? && !a.HandleSnapAns? && !a.ApplyBegin? && !a.AdvanceCommit?
    ensures Do(c, a).h.leaderLogs == c.h.leaderLogs
  {
    hide Contiguous, Follows, AppendFor, SnapshotFor, TermAt;
    if a.StartElection? {
      hide Do, Enabled, WellFormed;
      ElectionStep(c, a);
    } else {
      hide DoVote, DoAppend, DoSnapshot, DoAppendAns, DoSnapAns, DoApply, DoCommit, DoWin, DoPropose;
    }
  }

  lemma LogsUntouched(c: Cluster, a: Action)
    requires CanStep(c, a) && !a.Win? && !a.Propose?
    ensures Do(c, a).h.leaderLogs == c.h.leaderLogs
  {
    hide Do, Enabled, WellFormed;
    if a.HandleVote? || a.HandleAppend? || a.HandleSnapshot? {
      ReceiptLogs(c, a);
    } else if a.HandleAppendAns? || a.HandleSnapAns? || a.ApplyBegin? || a.AdvanceCommit? {
      AnswerLogs(c, a);
    } else {
      OwnLogs(c, a);
    }
  }

  lemma WinGrowth(c: Cluster, a: Action)
    requires CanStep(c, a) && Guarded(c, a) && a.Win?
    requires Inv(c)
    ensures OwnGrowth(c.h, Do(c, a).h)
  {
    hide Inv, BecomeLeader, OwnGrowth;
    WinnerIsNew(c, a.n, a.quorum);
    assert c.members[a.n].s.log != [] && Do(c, a) == DoWin(c, a.n, a.quorum);
    hide Do, Enabled, WellFormed, DoWin;
    WinLogs(c, a.n, a.quorum);
  }

  lemma ProposeGrowth(c: Cluster, a: Action)
    requires CanStep(c, a) && a.Propose?
    requires Inv(c)
    ensures OwnGrowth(c.h, Do(c, a).h)
  {
    hide Inv;
    assert c.members[a.n].s.log != [] && Do(c, a) == DoPropose(c, a.n, a.cmd) && c.members[a.n].s.role == Leader;
    hide Do, Enabled, WellFormed;
    LeaderOfTerm(c, a.n);
  }

  /** The logs of leaders grow only by proposals. */
  lemma StepGrowth(c: Cluster, a: Action)
    requires CanStep(c, a) && Guarded(c, a)
    requires Inv(c)
    ensures OwnGrowth(c.h, Do(c, a).h)
  {
    if a.Win? {
      WinGrowth(c, a);
    } else if a.Propose? {
      ProposeGrowth(c, a);
    } else {
      hide Do, WellFormed, Enabled, Inv, Guarded;
      LogsUntouched(c, a);
    }
  }

  lemma WinLogs(c: Cluster, n: NodeId, q: set<NodeId>)
    requires n in c.members && c.members[n].s.log != [] && c.members[n].s.term !in c.h.leaderLogs
    ensures OwnGrowth(c.h, DoWin(c, n, q).h)
  {
    hide Uniform;
  }

  /** A step between states in order. */
  ghost predicate Stepped(c: Cluster, a: Action, c2: Cluster) {
    && CanStep(c, a) && Guarded(c, a) && c2 == Do(c, a) && Prints(c, a, c2)
    && Inv(c) && Inv(c2) && Evolves(c, c2) && OwnGrowth(c.h, c2.h) && Ship(c)
  }

  lemma SteppedReaches(c: Cluster, a: Action, c2: Cluster, x: NodeId, t: nat, k: nat)
    requires Stepped(c, a, c2) && Reaches(c, x, t, k)
    ensures Reaches(c2, x, t, k)
  {
    hide CanStep, Guarded, Do, Prints, Ship, Evolves, Reaches, OwnGrowth;
    assert AcksOk(c);
    hide Inv;
    ReachesStays(c, c2, x, t, k);
  }

  lemma SteppedPrints(c: Cluster, a: Action, c2: Cluster)
    requires Stepped(c, a, c2)
    ensures Prints(c, a, c2) && CanStep(c, a) && Guarded(c, a) && c2 == Do(c, a)
    ensures Inv(c) && Inv(c2) && Evolves(c, c2) && OwnGrowth(c.h, c2.h) && Ship(c)
  {
    hide Prints, CanStep, Guarded, Do, Inv, Evolves, OwnGrowth, Ship;
  }

  lemma PrintedMoves(c: Cluster, a: Action, c2: Cluster)
    requires Prints(c, a, c2)
    ensures a.n in c.members && c2.members.Keys == c.members.Keys
    ensures AcksOnly(c, a, c2) && CallsOnly(c, a, c2) && SendsOnly(c, a, c2) && c.net <= c2.net
    ensures forall x :: x in c.members ==> c.members[x].floor <= c2.members[x].floor
    ensures forall x :: x in c.members && x != a.n ==> c2.members[x] == c.members[x]
    ensures forall n: NodeId, p: NodeId :: (n, p) in c.calls && n != a.n ==> (n, p) in c2.calls
  {
    hide AcksOnly, CallsOnly;
  }

  lemma LeaderPeer(c: Cluster, n: NodeId, p: NodeId)
    requires Ship(c) && n in c.members && c.members[n].s.role == Leader && p in c.members && p != n
    ensures PeerOk(c, n, p)
  {
    hide SnapsSafe, CallsOk, LabelsOk, PeerOk;
    assert p in Peers(c, n);
  }

  // --- Snapshots stay safe ---

  /** A request to a peer comes from the leader of its term. */
  lemma RequestFrom(c: Cluster, msg: Message)
    requires msg in c.net && !msg.VoteReq?
    requires Inv(c)
    ensures TermOf(msg) in c.h.leaders && c.h.leaders[TermOf(msg)].leader == CallerOf(msg)
    ensures msg.to in c.members && msg.to != CallerOf(msg)
  {
    hide Inv, CommittedIn;
    MessageIsOk(c, msg);
  }

  /** Whoever listens leads the term, so there is but one. */
  lemma ListenerLeads(c: Cluster, l: NodeId, p: NodeId, msg: Message)
    requires Listening(c, l, p, msg)
    requires Inv(c)
    ensures TermOf(msg) in c.h.leaders && c.h.leaders[TermOf(msg)].leader == l
  {
    hide Inv;
    LeaderOfTerm(c, l);
  }

  /** The peer that answers an append has a floor that covers every snapshot the leader sent it. */
  lemma AppendCovers(c: Cluster, l: NodeId, p: NodeId, args: AppendArgs, msg: Message)
    requires l in c.members && p in c.members && PeerOk(c, l, p)
    requires Listening(c, l, p, AppendReq(p, args))
    requires msg in c.net && msg.SnapReq? && msg.to == p && msg.snap.term == args.term
    ensures msg.snap.lastIndex <= c.members[p].floor
  {
    hide Reaches, AcksUpTo, Heard;
  }

  /** The snapshot in progress is the last one sent. */
  lemma SnapshotCovers(c: Cluster, l: NodeId, p: NodeId, req: Message, msg: Message)
    requires l in c.members && p in c.members && PeerOk(c, l, p)
    requires Listening(c, l, p, req) && req.SnapReq?
    requires msg in c.net && msg.SnapReq? && msg.to == p && msg.snap.term == req.snap.term
    ensures msg.snap.lastIndex <= req.snap.lastIndex
  {
    hide Reaches, AcksUpTo, Heard, PassedCovered;
  }

  lemma ListensTo(c: Cluster, a: Action)
    requires CanStep(c, a) && ((a.HandleAppend? && a.heard) || (a.HandleSnapshot? && a.heard))
    ensures Listening(c, if a.HandleAppend? then a.args.leader else a.snap.leader, a.n, RequestIn(a)) &&
            RequestIn(a) in c.net
  {
    hide WellFormed;
  }

  /** If the answer to a snapshot is success, the floor has reached it. */
  lemma SnapshotEffects(c: Cluster, a: Action)
    requires CanStep(c, a) && a.HandleSnapshot?
    ensures a.n in c.members && a.n in Do(c, a).members
    ensures Do(c, a).h.acked != c.h.acked ==>
      && a.heard && a.snap.lastIndex <= Do(c, a).members[a.n].floor
      && Do(c, a).h == Acknowledge(c, a.n, a.snap.term, a.snap.lastIndex).h
  {
    assert Do(c, a) == DoSnapshot(c, a.n, a.snap, a.prefix, a.restored, a.heard);
    hide Do, Contiguous, Recognise;
  }

  lemma AcksMoved(c: Cluster, a: Action, c2: Cluster, x: NodeId, t: nat, k: nat)
    requires a.n in c.members && AcksOnly(c, a, c2) && AcksUpTo(c.h, x, t, k) && !AcksUpTo(c2.h, x, t, k)
    ensures x == a.n
    ensures ((a.Win? || a.Propose?) && t == c.members[a.n].s.term)
         || (a.HandleAppend? && Answers(a, a.args.leader, x, t))
         || (a.HandleSnapshot? && Answers(a, a.snap.leader, x, t))
  {
  }

  lemma HeardFrom(c: Cluster, l: NodeId, p: NodeId, req: Message)
    requires Listening(c, l, p, req) && Ship(c)
    ensures l in c.members && p in c.members && PeerOk(c, l, p)
  {
    hide PeerOk, SnapsSafe, LabelsOk, PeersOk;
    assert CallOk(c, l, p);
    LeaderPeer(c, l, p);
  }

  /** A leader gets no request of its own term. */
  lemma NotItself(c: Cluster, a: Action, msg: Message)
    requires CanStep(c, a) && Guarded(c, a) && (a.Win? || a.Propose?) && msg in c.net && !msg.VoteReq?
    requires a.n in c.members && TermOf(msg) == c.members[a.n].s.term
    requires Inv(c)
    ensures msg.to != a.n
  {
    hide Inv, Guarded;
    RequestFrom(c, msg);
    if a.Win? {
      WinnerIsNew(c, a.n, a.quorum);
    } else {
      assert c.members[a.n].s.role == Leader;
      LeaderOfTerm(c, a.n);
    }
  }

  /** Where an acknowledgement has been heard, the floor has passed every snapshot sent before. */
  lemma HeardCovers(c: Cluster, a: Action, c2: Cluster, x: NodeId, snap: SnapshotArgs, prefix: Log)
    requires SnapReq(x, snap, prefix) in c.net
    requires AcksUpTo(c.h, x, snap.term, snap.lastIndex) && !AcksUpTo(c2.h, x, snap.term, snap.lastIndex)
    requires Stepped(c, a, c2)
    ensures x in c2.members && snap.lastIndex <= c2.members[x].floor
  {
    hide CanStep, Guarded, Do, Inv, Ship, Evolves, OwnGrowth, SendsOnly, AcksOnly, CallsOnly, AcksUpTo, Listening,
      PeerOk, Prints, Stepped;
    var msg := SnapReq(x, snap, prefix);
    SteppedPrints(c, a, c2);
    PrintedMoves(c, a, c2);
    AcksMoved(c, a, c2, x, snap.term, snap.lastIndex);
    if a.HandleAppend? {
      ListensTo(c, a);
      HeardFrom(c, a.args.leader, x, RequestIn(a));
      AppendCovers(c, a.args.leader, x, a.args, msg);
    } else if a.HandleSnapshot? {
      ListensTo(c, a);
      HeardFrom(c, a.snap.leader, x, RequestIn(a));
      SnapshotCovers(c, a.snap.leader, x, RequestIn(a), msg);
      SnapshotEffects(c, a);
      SameAcks(c, c2, x, snap.term, snap.lastIndex);
    } else {
      NotItself(c, a, msg);
    }
  }

  lemma SameAcks(c: Cluster, c2: Cluster, x: NodeId, t: nat, k: nat)
    requires AcksUpTo(c.h, x, t, k) && !AcksUpTo(c2.h, x, t, k)
    ensures c2.h.acked != c.h.acked
  {
  }

  /** A snapshot that was safe stays safe. */
  lemma SnapStaysSafe(c: Cluster, a: Action, c2: Cluster, x: NodeId, snap: SnapshotArgs, prefix: Log)
    requires SnapReq(x, snap, prefix) in c.net
    requires Stepped(c, a, c2)
    ensures SnapSafe(c2, x, snap)
  {
    hide CanStep, Guarded, Do, Reaches, Inv, Ship, Evolves, OwnGrowth, SendsOnly, AcksOnly, CallsOnly, AcksUpTo,
      Prints, Stepped;
    SteppedPrints(c, a, c2);
    PrintedMoves(c, a, c2);
    SnapIsSafe(c, x, snap, prefix);
    SteppedReaches(c, a, c2, x, snap.term, snap.lastIndex);
    if AcksUpTo(c.h, x, snap.term, snap.lastIndex) && !AcksUpTo(c2.h, x, snap.term, snap.lastIndex) {
      HeardCovers(c, a, c2, x, snap, prefix);
    }
  }

  /** The snapshot a leader ships to a peer below its floor reaches everything the peer owes. */
  lemma ShippedSafe(c: Cluster, n: NodeId, to: NodeId)
    requires n in c.members && to in c.members && PeerOk(c, n, to) && (n, to) !in c.calls
    requires Get(c.members[n].s.nextIndex, to) <= c.members[n].floor
    ensures c.members[n].cache.Some?
    ensures var t, k := c.members[n].s.term, c.members[n].cache.value.index;
            Reaches(c, to, t, k) && AcksUpTo(c.h, to, t, k)
  {
    hide Reaches, SentBelow, PassedCovered, InTurn;
    var m := c.members[n];
    ReachesFurther(c, to, m.s.term, Get(m.s.nextIndex, to) - 1, m.floor);
  }

  lemma SendsWhen(c: Cluster, a: Action)
    requires CanStep(c, a) && a.SendSnapshot?
    ensures a.n in c.members && c.members[a.n].s.role == Leader && a.to in c.members && a.to != a.n
    ensures (a.n, a.to) !in c.calls && Get(c.members[a.n].s.nextIndex, a.to) <= c.members[a.n].floor
    ensures Do(c, a).h == c.h
  {
    hide WellFormed, SnapshotFor;
  }

  lemma SnapSentSafe(c: Cluster, a: Action, c2: Cluster, x: NodeId, snap: SnapshotArgs, prefix: Log)
    requires SnapReq(x, snap, prefix) in c2.net && SnapReq(x, snap, prefix) !in c.net
    requires Stepped(c, a, c2)
    ensures SnapSafe(c2, x, snap)
  {
    hide CanStep, Guarded, Do, Reaches, Inv, Ship, Evolves, OwnGrowth, AcksOnly, CallsOnly, AcksUpTo, Prints, Stepped,
      PeerOk;
    SteppedPrints(c, a, c2);
    PrintedMoves(c, a, c2);
    var msg := SnapReq(x, snap, prefix);
    assert a.SendSnapshot? && msg == SnapshotFor(c.members[a.n], a.n, a.to);
    SendsWhen(c, a);
    LeaderPeer(c, a.n, a.to);
    ShippedSafe(c, a.n, a.to);
    SteppedReaches(c, a, c2, x, snap.term, snap.lastIndex);
    SameAcked(c.h, c2.h, x, snap.term, snap.lastIndex);
  }

  lemma SameAcked(h: History, h2: History, x: NodeId, t: nat, k: nat)
    requires AcksUpTo(h, x, t, k) && h2 == h
    ensures AcksUpTo(h2, x, t, k)
  {
  }

  lemma StepSnapsSafe(c: Cluster, a: Action, c2: Cluster)
    requires Stepped(c, a, c2)
    ensures SnapsSafe(c2)
  {
    hide Stepped, SnapSafe;
    forall msg | msg in c2.net && msg.SnapReq?
      ensures SnapSafe(c2, msg.to, msg.snap)
    {
      assert msg == SnapReq(msg.to, msg.snap, msg.prefix);
      if msg in c.net {
        SnapStaysSafe(c, a, c2, msg.to, msg.snap, msg.prefix);
      } else {
        SnapSentSafe(c, a, c2, msg.to, msg.snap, msg.prefix);
      }
    }
  }

  // --- Calls stay in order ---

  /** While an answer waits to be processed, the peer acknowledges nothing more in the term. */
  lemma NoMoreAcks(c: Cluster, a: Action, c2: Cluster, n: NodeId, p: NodeId, k: nat)
    requires (n, p) in c.calls && CallOk(c, n, p) && c.calls[(n, p)].answer.Some?
    requires AcksUpTo(c.h, p, TermOf(c.calls[(n, p)].request), k)
    requires Stepped(c, a, c2)
    ensures AcksUpTo(c2.h, p, TermOf(c.calls[(n, p)].request), k)
  {
    hide CanStep, Guarded, Do, Inv, Ship, Evolves, OwnGrowth, SendsOnly, AcksOnly, CallsOnly, AcksUpTo, Prints,
      Stepped, AnswerOk;
    var req := c.calls[(n, p)].request;
    SteppedPrints(c, a, c2);
    PrintedMoves(c, a, c2);
    RequestFrom(c, req);
    if !AcksUpTo(c2.h, p, TermOf(req), k) {
      AcksMoved(c, a, c2, p, TermOf(req), k);
      if a.HandleAppend? || a.HandleSnapshot? {
        ListensTo(c, a);
        ListenerLeads(c, CallerOf(RequestIn(a)), p, RequestIn(a));
        assert false;
      } else {
        NotItself(c, a, req);
        assert false;
      }
    }
  }

  lemma AnswerStays(c: Cluster, a: Action, c2: Cluster, n: NodeId, p: NodeId)
    requires (n, p) in c.calls && CallOk(c, n, p) && c.calls[(n, p)].answer.Some?
    requires Stepped(c, a, c2)
    ensures AnswerOk(c2, p, c.calls[(n, p)].request, c.calls[(n, p)].answer.value)
  {
    hide CanStep, Guarded, Do, Inv, Ship, Evolves, OwnGrowth, SendsOnly, AcksOnly, CallsOnly, AcksUpTo, Prints,
      Stepped, Reaches, HasAcked;
    var req, ans := c.calls[(n, p)].request, c.calls[(n, p)].answer.value;
    SteppedPrints(c, a, c2);
    PrintedMoves(c, a, c2);
    if Granted(ans) {
      AckStays(c, c2, p, TermOf(req), Claim(req));
    }
    if req.AppendReq? && !ans.reply.success && ans.reply.term <= req.args.term {
      NoMoreAcks(c, a, c2, n, p, req.args.prevLogIndex - 1);
      SteppedReaches(c, a, c2, p, req.args.term, req.args.prevLogIndex - 1);
    }
  }

  lemma AckStays(c: Cluster, c2: Cluster, x: NodeId, t: nat, k: nat)
    requires Evolves(c, c2) && HasAcked(c.h, x, t, k)
    ensures HasAcked(c2.h, x, t, k)
  {
  }

  /** A member whose log the request does not match owes nothing from `prevLogIndex` up. */
  lemma RefusedHere(c: Cluster, n: NodeId, args: AppendArgs)
    requires n in c.members && c.members[n].s.term == args.term && AppendReq(n, args) in c.net
    requires Contiguous(c.members[n].s.log) && !Consistent(c.members[n].s.log, args)
    requires Inv(c)
    ensures Refused(c, n, args)
  {
    hide Inv, CommittedIn, RunningOk, LeaderOk, Traced, TermsSorted, Settled, Keeps, LeaderKeeps, AcksOk, OwnEntry,
      Agree;
    MemberIsOk(c, n);
    MessageIsOk(c, AppendReq(n, args));
    LeaderLogFull(c, args.term);
    InvLeaders(c);
    InvAcks(c, n);
    LeaderIsKept(c, args.term);
    var log, lead := c.members[n].s.log, c.h.leaderLogs[args.term];
    Disagrees(log, lead, args);
    AcksDisagree(c, n, args);
    OwesDisagree(c, n, args);
  }

  lemma Disagrees(log: Log, lead: Log, args: AppendArgs)
    requires Full(log) && Full(lead) && !Consistent(log, args)
    requires args.prevLogIndex < |lead| && lead[args.prevLogIndex].term == args.prevLogTerm
    ensures 0 < args.prevLogIndex && forall j: nat :: args.prevLogIndex <= j ==> !Agree(log, lead, j)
  {
    forall j: nat | args.prevLogIndex <= j && Agree(log, lead, j)
      ensures false
    {
      AgreeWeaken(log, lead, j, args.prevLogIndex);
      assert false;
    }
  }

  lemma AcksDisagree(c: Cluster, n: NodeId, args: AppendArgs)
    requires n in c.members && c.members[n].s.term == args.term && AcksOk(c) && args.term in c.h.leaderLogs
    requires 0 < args.prevLogIndex
    requires forall j: nat :: args.prevLogIndex <= j ==> !Agree(c.members[n].s.log, c.h.leaderLogs[args.term], j)
    ensures AcksUpTo(c.h, n, args.term, args.prevLogIndex - 1)
  {
    hide Agree;
    if (n, args.term) in c.h.acked {
      assert AckOk(c, n, args.term);
    }
  }

  lemma OwesDisagree(c: Cluster, n: NodeId, args: AppendArgs)
    requires n in c.members && c.members[n].s.term == args.term && args.term in c.h.leaderLogs && 0 < args.prevLogIndex
    requires Keeps(c, n, args.term + 1, c.members[n].s.log) && LeaderKeeps(c, args.term, c.h.leaderLogs[args.term])
    requires forall j: nat :: args.prevLogIndex <= j ==> !Agree(c.members[n].s.log, c.h.leaderLogs[args.term], j)
    ensures Reaches(c, n, args.term, args.prevLogIndex - 1)
  {
    var log, lead := c.members[n].s.log, c.h.leaderLogs[args.term];
    hide CoversOld, Blocked;
    forall u: nat, j: nat | u < args.term && OwnEntry(c.h, u, j) && HasAcked(c.h, n, u, j) && args.prevLogIndex <= j
      ensures Blocked(c, u, j)
    {
      assert KeptIn(c, u, j, log) && KeptIn(c, u, j, lead);
      assert Blocked(c, u, j) || Agree(log, lead, j);
    }
  }

  /** What an append that is heard leaves. */
  lemma AppendEffects(c: Cluster, a: Action)
    requires CanStep(c, a) && a.HandleAppend? && a.heard
    ensures a.n in c.members && a.n in Do(c, a).members && (a.args.leader, a.n) in Do(c, a).calls
    ensures var c2, call := Do(c, a), Do(c, a).calls[(a.args.leader, a.n)];
            && call.answer.Some? && call.answer.value.Appended? && Contiguous(c2.members[a.n].s.log)
            && var r := call.answer.value.reply;
               && (r.success ==> HasAcked(c2.h, a.n, a.args.term, a.args.prevLogIndex + |a.args.entries|))
               && (r.success ==> c2.h == Acknowledge(c, a.n, a.args.term, a.args.prevLogIndex + |a.args.entries|).h)
               && (!r.success ==> c2.h == c.h)
               && (!r.success && r.term <= a.args.term ==>
                     c2.members[a.n].s.term == a.args.term && !Consistent(c2.members[a.n].s.log, a.args))
  {
    assert Do(c, a) == DoAppend(c, a.n, a.args, a.heard);
    hide Do, Consistent, Merge;
  }

  lemma SnapshotAnswers(c: Cluster, a: Action)
    requires CanStep(c, a) && a.HandleSnapshot? && a.heard
    ensures a.n in c.members && a.n in Do(c, a).members && (a.snap.leader, a.n) in Do(c, a).calls
    ensures var c2, call := Do(c, a), Do(c, a).calls[(a.snap.leader, a.n)];
            && call.answer.Some? && call.answer.value.Installed?
            && var r := call.answer.value.done;
               && (r.success ==>
                     && HasAcked(c2.h, a.n, a.snap.term, a.snap.lastIndex)
                     && a.snap.lastIndex <= c2.members[a.n].floor)
               && (r.success ==> c2.h == Acknowledge(c, a.n, a.snap.term, a.snap.lastIndex).h)
               && (!r.success ==> c2.h == c.h)
  {
    assert Do(c, a) == DoSnapshot(c, a.n, a.snap, a.prefix, a.restored, a.heard);
    hide Do, Contiguous, Recognise;
  }

  lemma AskEffects(c: Cluster, a: Action)
    requires CanStep(c, a) && (a.SendAppend? || a.SendSnapshot?)
    ensures a.n in c.members && c.members[a.n].s.role == Leader && a.to in c.members && a.to != a.n
    ensures var c2 := Do(c, a);
            && c2.members == c.members && c2.h == c.h && (a.n, a.to) in c2.calls
            && c2.calls[(a.n, a.to)].answer == None
            && var req := c2.calls[(a.n, a.to)].request;
               && req in c2.net && !req.VoteReq? && req.to == a.to && CallerOf(req) == a.n &&
                  TermOf(req) == c.members[a.n].s.term
               && (a.SendAppend? ==>
                     && req.AppendReq? && req.args.prevLogIndex + 1 == Get(c.members[a.n].s.nextIndex, a.to)
                     && c.members[a.n].floor < Get(c.members[a.n].s.nextIndex, a.to))
               && (a.SendSnapshot? ==>
                     && req.SnapReq? && c.members[a.n].cache.Some?
                     && req.snap.lastIndex == c.members[a.n].cache.value.index
                     && Get(c.members[a.n].s.nextIndex, a.to) <= c.members[a.n].floor)
  {
    hide WellFormed, Contiguous;
  }

  ghost predicate Answered(c: Cluster, a: Action, c2: Cluster, n: NodeId, p: NodeId) {
    && p == a.n && (a.HandleAppend? || a.HandleSnapshot?) && Answers(a, n, p, TermOf(RequestIn(a)))
    && (n, p) in c.calls && c.calls[(n, p)] == Call(RequestIn(a), None)
    && (n, p) in c2.calls && c2.calls[(n, p)].request == RequestIn(a)
  }

  lemma NewAnswerOk(c: Cluster, a: Action, c2: Cluster, n: NodeId, p: NodeId)
    requires Answered(c, a, c2, n, p)
    requires Stepped(c, a, c2)
    ensures c2.calls[(n, p)].answer.Some? && AnswerOk(c2, p, RequestIn(a), c2.calls[(n, p)].answer.value)
  {
    hide CanStep, Guarded, Do, Inv, Ship, Evolves, OwnGrowth, SendsOnly, AcksOnly, CallsOnly, Prints, Stepped,
      HasAcked, Refused, Consistent, Listening;
    SteppedPrints(c, a, c2);
    PrintedMoves(c, a, c2);
    ListensTo(c, a);
    if a.HandleAppend? {
      AppendEffects(c, a);
      var r := c2.calls[(n, p)].answer.value.reply;
      if !r.success && r.term <= a.args.term {
        RefusedHere(c2, p, a.args);
      }
    } else {
      SnapshotAnswers(c, a);
    }
  }

  lemma CallStaysOk(c: Cluster, a: Action, c2: Cluster, n: NodeId, p: NodeId)
    requires (n, p) in c2.calls
    requires Stepped(c, a, c2)
    ensures CallOk(c2, n, p)
  {
    hide CanStep, Guarded, Do, Inv, Ship, Evolves, OwnGrowth, SendsOnly, AcksOnly, CallsOnly, Prints, Stepped, AnswerOk;
    SteppedPrints(c, a, c2);
    PrintedMoves(c, a, c2);
    if (n, p) in c.calls {
      CallIsOk(c, n, p);
    }
    CallChange(c, a, c2, n, p);
    if (n, p) in c.calls && c2.calls[(n, p)] == c.calls[(n, p)] {
      if c.calls[(n, p)].answer.Some? {
        AnswerStays(c, a, c2, n, p);
      }
    } else if Answered(c, a, c2, n, p) {
      NewAnswerOk(c, a, c2, n, p);
    } else {
      AskEffects(c, a);
    }
  }

  lemma CallChange(c: Cluster, a: Action, c2: Cluster, n: NodeId, p: NodeId)
    requires CallsOnly(c, a, c2) && (n, p) in c2.calls
    ensures ((n, p) in c.calls && c2.calls[(n, p)] == c.calls[(n, p)]) || Answered(c, a, c2, n, p)
         || (n == a.n && (a.SendAppend? || a.SendSnapshot?) && a.to == p)
  {
  }

  lemma StepCallsOk(c: Cluster, a: Action, c2: Cluster)
    requires Stepped(c, a, c2)
    ensures CallsOk(c2)
  {
    hide Stepped, CallOk;
    forall n: NodeId, p: NodeId | (n, p) in c2.calls
      ensures CallOk(c2, n, p)
    {
      CallStaysOk(c, a, c2, n, p);
    }
  }
}
