/** What leaders know of their peers stays so, and they learn it from their own steps. */
module Knowing {
  import opened RaftTypes
  import opened LogStore
  import opened Handlers
  import opened Cluster
  import opened Invariant
  import opened Evolution
  import opened Preservation
  import opened Shipping
  import opened AllSteps
  import opened Footprint
  import opened Calling

  // --- What leaders know stays so ---

  /** For peer `p` the leader's view is the same, or has moved forward. */
  ghost predicate SameFor(m: Member, m2: Member, p: NodeId) {
    && m.s.role == Leader && m2.s.role == Leader && m2.s.term == m.s.term && |m.s.log| <= |m2.s.log|
    && Get(m2.s.nextIndex, p) == Get(m.s.nextIndex, p) && Get(m2.s.matchIndex, p) == Get(m.s.matchIndex, p)
    && m.floor <= m2.floor && ShipsFloor(m2, Get(m2.s.nextIndex, p))
  }

  /** The call to `p` goes on, perhaps with the answer now there. */
  ghost predicate SameCall(c: Cluster, a: Action, c2: Cluster, n: NodeId, p: NodeId) {
    && ((n, p) in c.calls <==> (n, p) in c2.calls)
    && ((n, p) in c2.calls ==> c2.calls[(n, p)] == c.calls[(n, p)] || Answered(c, a, c2, n, p))
  }

  ghost predicate SameSnaps(net: set<Message>, net2: set<Message>, p: NodeId, t: nat) {
    forall msg :: msg in net2 && msg.SnapReq? && msg.to == p && msg.snap.term == t ==> msg in net
  }

  lemma NoNewSnaps(c: Cluster, a: Action, c2: Cluster, n: NodeId, p: NodeId)
    requires n in c.members && c.members[n].s.role == Leader
    requires !(a.SendSnapshot? && a.n == n && a.to == p)
    requires Stepped(c, a, c2)
    ensures SameSnaps(c.net, c2.net, p, c.members[n].s.term)
  {
    hide CanStep, Guarded, Do, Inv, Ship, Evolves, OwnGrowth, AcksOnly, CallsOnly, Prints, Stepped;
    SteppedPrints(c, a, c2);
    PrintedMoves(c, a, c2);
    LeaderOfTerm(c, n);
    if a.SendSnapshot? {
      AskEffects(c, a);
      LeaderOfTerm(c, a.n);
    }
  }

  lemma SnapsFrame(net: set<Message>, net2: set<Message>, p: NodeId, t: nat, floor: nat, floor2: nat, next: nat,
      pf: nat, pf2: nat)
    requires SameSnaps(net, net2, p, t) && floor <= floor2 && pf <= pf2
    ensures SentBelow(net, p, t, floor) ==> SentBelow(net2, p, t, floor2)
    ensures PassedCovered(net, p, t, next, pf) ==> PassedCovered(net2, p, t, next, pf2)
  {
  }

  lemma TurnFrame(c: Cluster, a: Action, c2: Cluster, n: NodeId, p: NodeId, t: nat, next: nat)
    requires InTurn(c, n, p, t, next) && SameCall(c, a, c2, n, p) && SameSnaps(c.net, c2.net, p, t)
    ensures InTurn(c2, n, p, t, next)
  {
  }

  ghost predicate LeaderOf(c: Cluster, n: NodeId, t: nat) {
    n in c.members && c.members[n].s.role == Leader && c.members[n].s.term == t
  }

  /** An acknowledgement that the leader does not know of yet is about to be heard. */
  lemma AcksHeard(c: Cluster, a: Action, c2: Cluster, n: NodeId, p: NodeId, t: nat, k: nat)
    requires LeaderOf(c, n, t) && SameCall(c, a, c2, n, p) && n != p
    requires AcksUpTo(c.h, p, t, k) && !AcksUpTo(c2.h, p, t, k)
    requires Stepped(c, a, c2)
    ensures AcksUpTo(c2.h, p, t, Max(k, Heard(c2, n, p, t)))
  {
    hide CanStep, Guarded, Do, Inv, Ship, Evolves, OwnGrowth, SendsOnly, AcksOnly, CallsOnly, AcksUpTo, Prints,
      Stepped, HasAcked, SameCall, Heard;
    SteppedPrints(c, a, c2);
    PrintedMoves(c, a, c2);
    AcksMoved(c, a, c2, p, t, k);
    LeaderOfTerm(c, n);
    if a.HandleAppend? || a.HandleSnapshot? {
      ListensTo(c, a);
      hide Listening;
      ListenerLeads(c, CallerOf(RequestIn(a)), p, RequestIn(a));
      HeardNow(c, a, c2, n, p, k);
    } else {
      hide Listening;
      LeadsAlone(c, a, n);
      assert false;
    }
  }

  /** Acknowledgements of `p` in the leader's term are known to the leader, or about to be. */
  lemma AcksFrame(c: Cluster, a: Action, c2: Cluster, n: NodeId, p: NodeId, t: nat, matched: nat)
    requires LeaderOf(c, n, t) && SameCall(c, a, c2, n, p) && n != p
    requires AcksUpTo(c.h, p, t, Max(matched, Heard(c, n, p, t)))
    requires Stepped(c, a, c2)
    ensures AcksUpTo(c2.h, p, t, Max(matched, Heard(c2, n, p, t)))
  {
    hide Stepped, SameCall, Heard, AcksUpTo, LeaderOf;
    var k := Max(matched, Heard(c, n, p, t));
    HeardGrows(c, a, c2, n, p, t);
    if AcksUpTo(c2.h, p, t, k) {
      AcksFurther(c2.h, p, t, k, Max(matched, Heard(c2, n, p, t)));
    } else {
      AcksHeard(c, a, c2, n, p, t, k);
    }
  }

  lemma AcksFurther(h: History, x: NodeId, t: nat, k: nat, j: nat)
    requires AcksUpTo(h, x, t, k) && k <= j
    ensures AcksUpTo(h, x, t, j)
  {
  }

  lemma HeardGrows(c: Cluster, a: Action, c2: Cluster, n: NodeId, p: NodeId, t: nat)
    requires SameCall(c, a, c2, n, p)
    ensures Heard(c, n, p, t) <= Heard(c2, n, p, t)
  {
  }

  /** Nobody else wins or proposes in the term of a leader. */
  lemma LeadsAlone(c: Cluster, a: Action, n: NodeId)
    requires CanStep(c, a) && Guarded(c, a) && (a.Win? || a.Propose?) && n in c.members && c.members[n].s.role == Leader
    requires a.n in c.members && c.members[a.n].s.term == c.members[n].s.term
    requires Inv(c)
    ensures a.n == n
  {
    hide Inv, Guarded;
    LeaderOfTerm(c, n);
    if a.Win? {
      WinnerIsNew(c, a.n, a.quorum);
    } else {
      assert c.members[a.n].s.role == Leader;
      LeaderOfTerm(c, a.n);
    }
  }

  /** The acknowledgement that has just been made is the one about to be heard. */
  lemma HeardNow(c: Cluster, a: Action, c2: Cluster, n: NodeId, p: NodeId, k: nat)
    requires CanStep(c, a) && c2 == Do(c, a) && (a.HandleAppend? || a.HandleSnapshot?) && a.n == p
    requires CallerOf(RequestIn(a)) == n && Listening(c, n, p, RequestIn(a)) && Answers(a, n, p, TermOf(RequestIn(a)))
    requires SameCall(c, a, c2, n, p)
    requires AcksUpTo(c.h, p, TermOf(RequestIn(a)), k)
    ensures AcksUpTo(c2.h, p, TermOf(RequestIn(a)), Max(k, Heard(c2, n, p, TermOf(RequestIn(a)))))
  {
    hide CanStep, Do, HasAcked, Consistent;
    if a.HandleAppend? {
      AppendEffects(c, a);
    } else {
      SnapshotAnswers(c, a);
    }
  }

  lemma PeerFrame(c: Cluster, a: Action, c2: Cluster, n: NodeId, p: NodeId)
    requires n in c.members && n in c2.members && p in c.members && p in c2.members && n != p && PeerOk(c, n, p)
    requires SameFor(c.members[n], c2.members[n], p) && SameCall(c, a, c2, n, p)
    requires !(a.SendSnapshot? && a.n == n && a.to == p)
    requires Stepped(c, a, c2)
    ensures PeerOk(c2, n, p)
  {
    hide CanStep, Guarded, Do, Inv, Ship, Evolves, OwnGrowth, SendsOnly, AcksOnly, CallsOnly, AcksUpTo, Prints,
      Stepped, Reaches, SentBelow, PassedCovered, InTurn, SameCall, SameSnaps, Heard, ShipsFloor;
    var m, m2 := c.members[n], c2.members[n];
    var t, next, matched := m.s.term, Get(m.s.nextIndex, p), Get(m.s.matchIndex, p);
    SteppedPrints(c, a, c2);
    PrintedMoves(c, a, c2);
    NoNewSnaps(c, a, c2, n, p);
    SnapsFrame(c.net, c2.net, p, t, m.floor, m2.floor, next, c.members[p].floor, c2.members[p].floor);
    TurnFrame(c, a, c2, n, p, t, next);
    AcksFrame(c, a, c2, n, p, t, matched);
    SteppedReaches(c, a, c2, p, t, next - 1);
  }

  // --- The leader's own steps ---

  /** Steps that do not touch what the node knows of its peers. */
  predicate Unrelated(a: Action, p: NodeId) {
    && !a.Win? && (a.HandleAppendAns? || a.HandleSnapAns? ==> a.from != p)
  }

  /** Only what a leader does not use for its peers differs. */
  ghost predicate SameView(m: Member, m2: Member) {
    && m.s.role == Leader
    && m2 == m.(s := m.s.(votedFor := m2.s.votedFor, commit := m2.s.commit, applied := m2.s.applied),
                campaign := m2.campaign, pending := m2.pending)
  }

  /** A leader that stays one has handled a request without effect. */
  lemma ReceiptView(c: Cluster, a: Action)
    requires CanStep(c, a) && (a.HandleVote? || a.HandleAppend? || a.HandleSnapshot?)
    requires a.n in Do(c, a).members && Do(c, a).members[a.n].s.role == Leader
    ensures SameView(c.members[a.n], Do(c, a).members[a.n])
  {
    hide Do, Enabled, WellFormed, Follows, Merge, Consistent, UpToDate, Contiguous;
    match a
    case HandleVote(_, _) => VoteStep(c, a);
    case HandleAppend(_, _, _) => AppendStep(c, a);
    case _ => SnapshotStep(c, a);
  }

  lemma QuietView(c: Cluster, a: Action)
    requires CanStep(c, a)
    requires a.ElectionTimeout? || a.StartElection? || a.SeeHigherTerm? || a.EndCampaign? || a.StepDown? ||
             a.SendAppend? || a.SendSnapshot? || a.GiveUp? || a.AdvanceCommit? || a.ApplyBegin? || a.ApplyEnd?
    requires a.n in Do(c, a).members && Do(c, a).members[a.n].s.role == Leader
    ensures SameView(c.members[a.n], Do(c, a).members[a.n])
  {
    hide CommitScan, EntryAt, Contiguous, Follows, Compacted, AppendFor, SnapshotFor;
    if Compound(a) {
      hide Do, Enabled, WellFormed;
      WhichStep(c, a);
    } else {
      hide DoVote, DoAppend, DoSnapshot, DoAppendAns, DoSnapAns, DoWin, DoPropose;
    }
  }

  lemma OtherAnswerView(c: Cluster, a: Action, p: NodeId)
    requires CanStep(c, a) && (a.HandleAppendAns? || a.HandleSnapAns?) && a.from != p
    requires c.members[a.n].s.role == Leader ==> ShipsFloor(c.members[a.n], Get(c.members[a.n].s.nextIndex, p))
    requires a.n in Do(c, a).members && Do(c, a).members[a.n].s.role == Leader
    ensures SameFor(c.members[a.n], Do(c, a).members[a.n], p)
  {
    hide Do, Enabled, WellFormed, Contiguous, Follows, Compacted;
    if a.HandleAppendAns? {
      AppendAnsStep(c, a);
    } else {
      SnapAnsStep(c, a);
    }
  }

  lemma LabelView(c: Cluster, a: Action, p: NodeId)
    requires CanStep(c, a) && (a.CaptureLabel? || a.FinishSnapshot? || a.DropSnapshot? || a.Propose?) && a.n != p
    requires c.members[a.n].s.role == Leader ==> ShipsFloor(c.members[a.n], Get(c.members[a.n].s.nextIndex, p))
    requires a.n in Do(c, a).members && Do(c, a).members[a.n].s.role == Leader
    ensures SameFor(c.members[a.n], Do(c, a).members[a.n], p)
  {
    hide Contiguous, Follows, TermAt;
  }

  lemma SameViewFor(m: Member, m2: Member, p: NodeId)
    requires SameView(m, m2) && ShipsFloor(m, Get(m.s.nextIndex, p))
    ensures SameFor(m, m2, p)
  {
  }

  lemma OwnView(c: Cluster, a: Action, p: NodeId)
    requires CanStep(c, a) && Unrelated(a, p) && a.n != p && a.n in c.members
    requires c.members[a.n].s.role == Leader ==> ShipsFloor(c.members[a.n], Get(c.members[a.n].s.nextIndex, p))
    requires a.n in Do(c, a).members && Do(c, a).members[a.n].s.role == Leader
    ensures SameFor(c.members[a.n], Do(c, a).members[a.n], p)
  {
    hide Do, WellFormed, Enabled, SameFor, ShipsFloor;
    if a.HandleAppendAns? || a.HandleSnapAns? {
      OtherAnswerView(c, a, p);
    } else if a.CaptureLabel? || a.FinishSnapshot? || a.DropSnapshot? || a.Propose? {
      LabelView(c, a, p);
    } else {
      if a.HandleVote? || a.HandleAppend? || a.HandleSnapshot? {
        ReceiptView(c, a);
      } else {
        QuietView(c, a);
      }
      SameViewFor(c.members[a.n], Do(c, a).members[a.n], p);
    }
  }

  lemma ReceiptCalls(c: Cluster, a: Action, p: NodeId)
    requires CanStep(c, a) && a.n != p && (a.HandleVote? || a.HandleAppend? || a.HandleSnapshot?)
    ensures (a.n, p) in c.calls <==> (a.n, p) in Do(c, a).calls
    ensures (a.n, p) in c.calls ==> Do(c, a).calls[(a.n, p)] == c.calls[(a.n, p)]
  {
    hide Do, Enabled, WellFormed, HandleAppendEntries, HandleRequestVote, InstallFull;
    match a
    case HandleVote(_, _) => VoteStep(c, a);
    case HandleAppend(_, _, _) => AppendStep(c, a);
    case _ => SnapshotStep(c, a);
  }

  lemma OwnCalls(c: Cluster, a: Action, p: NodeId)
    requires CanStep(c, a) && a.n != p
    requires (a.SendAppend? || a.SendSnapshot? || a.GiveUp?) ==> a.to != p
    requires (a.HandleAppendAns? || a.HandleSnapAns?) ==> a.from != p
    ensures (a.n, p) in c.calls <==> (a.n, p) in Do(c, a).calls
    ensures (a.n, p) in c.calls ==> Do(c, a).calls[(a.n, p)] == c.calls[(a.n, p)]
  {
    if a.HandleVote? || a.HandleAppend? || a.HandleSnapshot? {
      hide Do;
      ReceiptCalls(c, a, p);
    } else {
      hide BecomeLeader, HandleAppendReply, HandleSnapshotReply, CommitScan, Image, EntryAt, Contiguous, Follows,
        AppendFor;
    }
  }

  /** The facts that make up a leader's knowledge of a peer. */
  ghost predicate Knows(c: Cluster, n: NodeId, p: NodeId, t: nat, next: nat, matched: nat, floor: nat, last: nat) {
    && p in c.members && matched < next <= last && Reaches(c, p, t, next - 1)
    && SentBelow(c.net, p, t, floor) && PassedCovered(c.net, p, t, next, c.members[p].floor)
    && AcksUpTo(c.h, p, t, Max(matched, Heard(c, n, p, t))) && InTurn(c, n, p, t, next)
  }

  lemma PeerKnows(c: Cluster, n: NodeId, p: NodeId)
    requires n in c.members && p in c.members
    ensures var m := c.members[n];
            var next := Get(m.s.nextIndex, p);
            PeerOk(c, n, p) <==>
              ShipsFloor(m, next) && Knows(c, n, p, m.s.term, next, Get(m.s.matchIndex, p), m.floor, |m.s.log|)
  {
    hide Reaches, SentBelow, PassedCovered, AcksUpTo, InTurn, Heard, ShipsFloor;
  }

  /** A call is started. */
  lemma AskKnown(c: Cluster, c2: Cluster, n: NodeId, p: NodeId, t: nat, next: nat, matched: nat, floor: nat, last: nat)
    requires Knows(c, n, p, t, next, matched, floor, last) && (n, p) !in c.calls
    requires c2.members == c.members && c2.h == c.h && Reaches(c2, p, t, next - 1)
    requires (n, p) in c2.calls && c2.calls[(n, p)].answer == None && c.net <= c2.net
    requires var req := c2.calls[(n, p)].request;
      && (forall msg :: msg in c2.net && msg.SnapReq? && msg !in c.net ==> msg == req)
      && TermOf(req) == t && ((req.AppendReq? && req.args.prevLogIndex + 1 == next && floor < next)
                              || (req.SnapReq? && req.snap.lastIndex == floor && next <= floor))
    ensures Knows(c2, n, p, t, next, matched, floor, last)
  {
    hide Reaches;
  }

  lemma PeerAsked(c: Cluster, a: Action, c2: Cluster)
    requires (a.SendAppend? || a.SendSnapshot?)
    requires Stepped(c, a, c2)
    ensures a.n in c2.members && a.to in c2.members && PeerOk(c2, a.n, a.to)
  {
    hide CanStep, Guarded, Do, Inv, Ship, Evolves, OwnGrowth, AcksOnly, CallsOnly, Prints, Stepped, PeerOk, Knows,
      Reaches, SnapshotFor;
    SteppedPrints(c, a, c2);
    PrintedMoves(c, a, c2);
    AskEffects(c, a);
    WasFree(c, a);
    LeaderPeer(c, a.n, a.to);
    PeerKnows(c, a.n, a.to);
    var m := c.members[a.n];
    var next := Get(m.s.nextIndex, a.to);
    KnowsReach(c, a.n, a.to, m.s.term, next, Get(m.s.matchIndex, a.to), m.floor, |m.s.log|);
    SteppedReaches(c, a, c2, a.to, m.s.term, next - 1);
    AskNet(c, a);
    AskKnown(c, c2, a.n, a.to, m.s.term, next, Get(m.s.matchIndex, a.to), m.floor, |m.s.log|);
    PeerKnows(c2, a.n, a.to);
  }

  lemma KnowsReach(c: Cluster, n: NodeId, p: NodeId, t: nat, next: nat, matched: nat, floor: nat, last: nat)
    requires Knows(c, n, p, t, next, matched, floor, last)
    ensures 0 < next && Reaches(c, p, t, next - 1)
  {
  }

  lemma WasFree(c: Cluster, a: Action)
    requires CanStep(c, a) && (a.SendAppend? || a.SendSnapshot?)
    ensures (a.n, a.to) !in c.calls
  {
    hide WellFormed, Contiguous;
  }

  lemma AskNet(c: Cluster, a: Action)
    requires CanStep(c, a) && (a.SendAppend? || a.SendSnapshot?)
    ensures (a.n, a.to) in Do(c, a).calls && Do(c, a).net == c.net + {Do(c, a).calls[(a.n, a.to)].request}
  {
    hide WellFormed, Contiguous;
  }

  /** A call ends without anything learned. */
  lemma EndKnown(c: Cluster, c2: Cluster, n: NodeId, p: NodeId, t: nat, next: nat, matched: nat, floor: nat, last: nat)
    requires Knows(c, n, p, t, next, matched, floor, last) && Heard(c, n, p, t) == 0
    requires c2.net == c.net && c2.h == c.h && (n, p) !in c2.calls && p in c2.members
    requires c2.members[p] == c.members[p] && Reaches(c2, p, t, next - 1)
    ensures Knows(c2, n, p, t, next, matched, floor, last)
  {
    hide Reaches;
  }

  lemma GiveUpEffects(c: Cluster, a: Action)
    requires CanStep(c, a) && a.GiveUp?
    ensures var c2 := Do(c, a);
            && a.n in c.members && c2.members == c.members && c2.net == c.net && c2.h == c.h && (a.n, a.to) !in c2.calls
            && (c.members[a.n].s.role == Leader ==> Heard(c, a.n, a.to, c.members[a.n].s.term) == 0)
  {
    hide WellFormed, Contiguous;
  }

  lemma PeerGivenUp(c: Cluster, a: Action, c2: Cluster)
    requires a.GiveUp? && a.n in c.members && c.members[a.n].s.role == Leader && a.to in c.members && a.to != a.n
    requires Stepped(c, a, c2)
    ensures a.n in c2.members && a.to in c2.members && PeerOk(c2, a.n, a.to)
  {
    hide CanStep, Guarded, Do, Inv, Ship, Evolves, OwnGrowth, AcksOnly, SendsOnly, CallsOnly, Prints, Stepped, PeerOk,
      Knows, Reaches, Heard;
    SteppedPrints(c, a, c2);
    PrintedMoves(c, a, c2);
    GiveUpEffects(c, a);
    LeaderPeer(c, a.n, a.to);
    PeerKnows(c, a.n, a.to);
    var m := c.members[a.n];
    var next := Get(m.s.nextIndex, a.to);
    KnowsReach(c, a.n, a.to, m.s.term, next, Get(m.s.matchIndex, a.to), m.floor, |m.s.log|);
    SteppedReaches(c, a, c2, a.to, m.s.term, next - 1);
    EndKnown(c, c2, a.n, a.to, m.s.term, next, Get(m.s.matchIndex, a.to), m.floor, |m.s.log|);
    PeerKnows(c2, a.n, a.to);
  }

  /** The answer to the leader's request of its present term, and what the leader then knows. */
  ghost predicate Learns(c: Cluster, n: NodeId, p: NodeId, t: nat, next: nat, matched: nat, floor: nat, last: nat,
                         next2: nat, matched2: nat) {
    && CallIn(c, n, p, t) && c.calls[(n, p)].answer.Some? && TermOf(c.calls[(n, p)].request) == t
    && var req, ans := c.calls[(n, p)].request, c.calls[(n, p)].answer.value;
       if Granted(ans) then matched2 == Max(matched, Claim(req)) && next2 == Max(next, Claim(req) + 1)
       else matched2 == matched && (next2 == next || (req.AppendReq? && next2 == next - 1))
  }

  lemma LearnKnown(c: Cluster, c2: Cluster, n: NodeId, p: NodeId, t: nat, next: nat, matched: nat, floor: nat,
      last: nat,
                   next2: nat, matched2: nat)
    requires Knows(c, n, p, t, next, matched, floor, last) && (n, p) in c.calls && CallOk(c, n, p)
    requires Learns(c, n, p, t, next, matched, floor, last, next2, matched2)
    requires Granted(c.calls[(n, p)].answer.value) ==> Claim(c.calls[(n, p)].request) < last
    requires !Granted(c.calls[(n, p)].answer.value) && c.calls[(n, p)].answer.value.Appended? ==>
      c.calls[(n, p)].answer.value.reply.term <= t
    requires matched == 0 || HasAcked(c.h, p, t, matched)
    requires c2.net == c.net && c2.h == c.h && (n, p) !in c2.calls && p in c2.members && c2.members[p] == c.members[p]
    requires forall k :: Reaches(c, p, t, k) ==> Reaches(c2, p, t, k)
    ensures Knows(c2, n, p, t, next2, matched2, floor, last)
  {
    hide Reaches;
    var req, ans := c.calls[(n, p)].request, c.calls[(n, p)].answer.value;
    if Granted(ans) {
      ReachesFurther(c, p, t, next - 1, next2 - 1);
      assert Reaches(c2, p, t, next2 - 1);
    } else if req.AppendReq? {
      assert Refused(c, p, req.args);
      assert Reaches(c2, p, t, next2 - 1);
    }
  }

  lemma AnswerEffects(c: Cluster, a: Action)
    requires CanStep(c, a) && (a.HandleAppendAns? || a.HandleSnapAns?)
    requires Do(c, a).members[a.n].s.role == Leader
    ensures a.n in c.members && a.n in Do(c, a).members && (a.n, a.from) in c.calls &&
            c.calls[(a.n, a.from)].answer.Some?
    ensures var c2, m, m2 := Do(c, a), c.members[a.n], Do(c, a).members[a.n];
            && m.s.role == Leader && c2.net == c.net && c2.h == c.h && (a.n, a.from) !in c2.calls
            && m2 == m.(s := m.s.(nextIndex := m2.s.nextIndex, matchIndex := m2.s.matchIndex))
  {
    hide Contiguous, Follows, Compacted;
  }

  lemma AnswerLearns(c: Cluster, a: Action)
    requires CanStep(c, a) && (a.HandleAppendAns? || a.HandleSnapAns?)
    requires Do(c, a).members[a.n].s.role == Leader
    ensures a.n in c.members && a.n in Do(c, a).members && (a.n, a.from) in c.calls &&
            c.calls[(a.n, a.from)].answer.Some?
    ensures var m, m2 := c.members[a.n], Do(c, a).members[a.n];
            var next, matched, call := Get(m.s.nextIndex, a.from), Get(m.s.matchIndex, a.from), c.calls[(a.n, a.from)];
            var next2, matched2 := Get(m2.s.nextIndex, a.from), Get(m2.s.matchIndex, a.from);
            && (call.answer.value.Appended? ==> call.answer.value.reply.term <= m.s.term)
            && if CallIn(c, a.n, a.from, m.s.term)
               then Learns(c, a.n, a.from, m.s.term, next, matched, m.floor, |m.s.log|, next2, matched2) &&
                   (next2 < next ==> m.floor < next2)
               else next2 == next && matched2 == matched
  {
    CompactedFirst(c.members[a.n]);
    hide Do, Enabled, WellFormed, Contiguous, Follows, Compacted;
    if a.HandleAppendAns? {
      AppendAnsStep(c, a);
    } else {
      SnapAnsStep(c, a);
    }
  }

  lemma CompactedFirst(m: Member)
    requires Full(m.s.log) && m.floor < |m.s.log|
    ensures Image(m).log != [] && First(Image(m).log) == m.floor
  {
  }

  lemma AckWithin(c: Cluster, n: NodeId, p: NodeId, k: nat)
    requires n in c.members && c.members[n].s.role == Leader && HasAcked(c.h, p, c.members[n].s.term, k)
    requires Inv(c)
    ensures k < |c.members[n].s.log|
  {
    hide LeaderLogsOk, ElectionsOk, CampaignsOk, NetOk, CommitsOk, AppliedOk, VotesOk, AckedKept, VotedKept,
      LeadersKept, MembersOk;
    assert AckOk(c, p, c.members[n].s.term);
    LeaderOfTerm(c, n);
  }

  lemma MatchAcked(c: Cluster, n: NodeId, p: NodeId)
    requires n in c.members && c.members[n].s.role == Leader && p != n
    requires Inv(c)
    ensures var k := Get(c.members[n].s.matchIndex, p); k == 0 || HasAcked(c.h, p, c.members[n].s.term, k)
  {
    hide Inv, LogOk, RunningOk, CommittedIn;
    MemberIsOk(c, n);
  }

  lemma PeerHeard(c: Cluster, a: Action, c2: Cluster)
    requires (a.HandleAppendAns? || a.HandleSnapAns?) && a.n in c.members && a.from in c.members && a.from != a.n
    requires a.n in c2.members && c2.members[a.n].s.role == Leader
    requires Stepped(c, a, c2)
    ensures a.from in c2.members && PeerOk(c2, a.n, a.from)
  {
    hide CanStep, Guarded, Do, Inv, Ship, Evolves, OwnGrowth, AcksOnly, SendsOnly, CallsOnly, Prints, Stepped, PeerOk,
      Knows, Reaches, Learns, AnswerOk;
    SteppedPrints(c, a, c2);
    PrintedMoves(c, a, c2);
    AnswerEffects(c, a);
    AnswerLearns(c, a);
    var n, p, m, m2 := a.n, a.from, c.members[a.n], c2.members[a.n];
    var t, next, matched := m.s.term, Get(m.s.nextIndex, p), Get(m.s.matchIndex, p);
    LeaderPeer(c, n, p);
    PeerKnows(c, n, p);
    CallIsOk(c, n, p);
    MatchAcked(c, n, p);
    KnowsReach(c, n, p, t, next, matched, m.floor, |m.s.log|);
    forall k | Reaches(c, p, t, k)
      ensures Reaches(c2, p, t, k)
    {
      SteppedReaches(c, a, c2, p, t, k);
    }
    if CallIn(c, n, p, t) {
      if Granted(c.calls[(n, p)].answer.value) {
        GrantedAcks(c, n, p);
        AckWithin(c, n, p, Claim(c.calls[(n, p)].request));
      }
      LearnKnown(c, c2, n, p, t, next, matched, m.floor, |m.s.log|, Get(m2.s.nextIndex, p), Get(m2.s.matchIndex, p));
    } else {
      EndKnown(c, c2, n, p, t, next, matched, m.floor, |m.s.log|);
    }
    PeerKnows(c2, n, p);
  }

  lemma GrantedAcks(c: Cluster, n: NodeId, p: NodeId)
    requires (n, p) in c.calls && CallOk(c, n, p) && c.calls[(n, p)].answer.Some? &&
             Granted(c.calls[(n, p)].answer.value)
    ensures HasAcked(c.h, p, TermOf(c.calls[(n, p)].request), Claim(c.calls[(n, p)].request))
  {
  }

  // --- A new leader ---

  lemma WinEffects(c: Cluster, a: Action)
    requires CanStep(c, a) && a.Win? && a.n in c.members
    ensures var c2, m := Do(c, a), c.members[a.n];
            && a.n in c2.members && Full(m.s.log) && m.floor < |m.s.log| && c2.net == c.net && c2.calls == c.calls
            && c2.members[a.n] == m.(s := BecomeLeader(m.s, a.n, Peers(c, a.n)), campaign := None)
            && m.s.term in c2.h.leaderLogs && c2.h.leaderLogs[m.s.term] == m.s.log
            && forall x: NodeId, t: nat :: (x, t) in c2.h.acked && x != a.n ==>
               (x, t) in c.h.acked && c2.h.acked[(x, t)] == c.h.acked[(x, t)]
  {
    hide Contiguous, Follows, Majority, Uniform;
  }

  /** Nothing has been sent or acknowledged in the term of a new leader. */
  lemma NewTerm(c: Cluster, a: Action, c2: Cluster, p: NodeId, t: nat)
    requires a.Win? && a.n in c.members && t == c.members[a.n].s.term
    requires Stepped(c, a, c2)
    ensures SentBelow(c.net, p, t, 0) && AcksUpTo(c.h, p, t, 0) && !CallIn(c, a.n, p, t)
  {
    hide CanStep, Guarded, Do, Inv, Ship, Evolves, OwnGrowth, AcksOnly, SendsOnly, CallsOnly, Prints, Stepped, AnswerOk;
    SteppedPrints(c, a, c2);
    WinnerIsNew(c, a.n, a.quorum);
    forall msg | msg in c.net && msg.SnapReq? && msg.to == p
      ensures msg.snap.term != t
    {
      RequestFrom(c, msg);
    }
    if (a.n, p) in c.calls {
      CallIsOk(c, a.n, p);
      RequestFrom(c, c.calls[(a.n, p)].request);
    }
  }

  lemma PeerWon(c: Cluster, a: Action, c2: Cluster, p: NodeId)
    requires a.Win? && a.n in c.members && p in c.members && p != a.n
    requires Stepped(c, a, c2)
    ensures a.n in c2.members && p in c2.members && PeerOk(c2, a.n, p)
  {
    hide CanStep, Guarded, Do, Inv, Ship, Evolves, OwnGrowth, AcksOnly, SendsOnly, CallsOnly, Prints, Stepped,
      Contiguous;
    SteppedPrints(c, a, c2);
    PrintedMoves(c, a, c2);
    WinEffects(c, a);
    NewTerm(c, a, c2, p, c.members[a.n].s.term);
    var m, m2 := c.members[a.n], c2.members[a.n];
    NewPointers(m.s, a.n, Peers(c, a.n), p);
    assert Reaches(c2, p, m.s.term, |m.s.log| - 1);
  }

  lemma NewPointers(s: NodeState, n: NodeId, peers: set<NodeId>, p: NodeId)
    requires Full(s.log) && p in peers && p != n
    ensures var s2 := BecomeLeader(s, n, peers);
            Get(s2.nextIndex, p) == |s.log| && Get(s2.matchIndex, p) == 0 && s2.log == s.log && s2.term == s.term &&
                s2.role == Leader
  {
  }
}
