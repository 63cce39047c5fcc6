/** The Run goroutines of the members drive the cluster: which steps of the cluster a goroutine takes
    part in, and what follows for a member whose goroutine is stuck. */
module Driving {
  import opened RaftTypes
  import opened LogStore
  import opened Handlers
  import opened Cluster
  import opened Invariant
  import opened Footprint
  import opened Shipping
  import opened Calling
  import opened Shipped
  import RunLoop

  type Runner = RunLoop.Runner
  type Event = RunLoop.Event

  /** The peers to which `n` has a call in progress. */
  function Asked(c: Cluster, n: NodeId): set<NodeId> {
    set p | p in c.members && (n, p) in c.calls
  }

  /** The goroutine of member `n`. */
  ghost predicate Drives(c: Cluster, n: NodeId, r: Runner) {
    && n in c.members && r.role == c.members[n].s.role && r.term == c.members[n].s.term
    && r.calls == |Asked(c, n)|
  }

  /** What step `a` is for the goroutine of its node. */
  function EventOf(c: Cluster, a: Action): Option<Event>
    requires CanStep(c, a)
  {
    var s := c.members[a.n].s;
    match a
    case ElectionTimeout(_) => Some(RunLoop.TimesOut)
    case StartElection(_) => Some(RunLoop.Enters)
    case HandleVote(_, vote) => if vote.term > s.term then Some(RunLoop.Deposes(vote.term)) else None
    case SeeHigherTerm(_, term) => Some(RunLoop.VoteAnswered(term))
    case Win(_, _) => Some(RunLoop.Wins)
    case EndCampaign(_) => Some(RunLoop.EndsCampaign)
    case StepDown(_) => Some(RunLoop.StepsDown)
    case SendAppend(_, _) => Some(RunLoop.Sends)
    case SendSnapshot(_, _) => Some(RunLoop.Sends)
    case HandleAppend(_, args, _) => if args.term >= s.term then Some(RunLoop.Deposes(args.term)) else None
    case HandleSnapshot(_, snap, _, _, _) => if snap.term >= s.term then Some(RunLoop.Deposes(snap.term)) else None
    case HandleAppendAns(n, from) => Some(RunLoop.Answered(c.calls[(n, from)].answer.value.reply.term))
    case HandleSnapAns(n, from) => Some(RunLoop.Answered(c.calls[(n, from)].answer.value.done.term))
    case GiveUp(_, _) => Some(RunLoop.Lost)
    case _ => None
  }

  /** The goroutine is where the code takes the step. */
  ghost predicate Lets(c: Cluster, a: Action, r: Runner)
    requires CanStep(c, a)
  {
    && (EventOf(c, a).Some? ==> RunLoop.Enabled(r, EventOf(c, a).value))
    && (a.StartElection? ==> r.role == Candidate)
  }

  function Moved(r: Runner, e: Option<Event>): Runner
    requires e.Some? ==> RunLoop.Enabled(r, e.value)
  {
    if e.Some? then RunLoop.Do(r, e.value) else r
  }

  // --- Calls ---

  lemma AsksMore(c: Cluster, n: NodeId, to: NodeId, msg: Message)
    requires to in c.members && (n, to) !in c.calls
    ensures |Asked(Ask(c, n, to, msg), n)| == |Asked(c, n)| + 1
  {
    assert Asked(Ask(c, n, to, msg), n) == Asked(c, n) + {to};
  }

  lemma AsksLess(c: Cluster, c2: Cluster, n: NodeId, to: NodeId)
    requires to in c.members && (n, to) in c.calls && c2.members.Keys == c.members.Keys
    requires c2.calls == c.calls - {(n, to)}
    ensures |Asked(c2, n)| + 1 == |Asked(c, n)|
  {
    assert Asked(c, n) == Asked(c2, n) + {to};
  }

  lemma AsksSame(c: Cluster, c2: Cluster, n: NodeId)
    requires c2.members.Keys == c.members.Keys && forall p :: (n, p) in c2.calls <==> (n, p) in c.calls
    ensures Asked(c2, n) == Asked(c, n)
  {
  }

  lemma OthersAsk(c: Cluster, a: Action, x: NodeId)
    requires CanStep(c, a) && x != a.n
    ensures Asked(Do(c, a), x) == Asked(c, x)
  {
    hide Do, Enabled, WellFormed, TermOf;
    OnlyOneMoves(c, a);
    StepCalls(c, a);
    StepEnds(c, a);
    AsksSame(c, Do(c, a), x);
  }

  /** The steps that begin or end a call. */
  predicate Calls(a: Action) {
    a.SendAppend? || a.SendSnapshot? || a.HandleAppendAns? || a.HandleSnapAns? || a.GiveUp?
  }

  lemma OwnAsks(c: Cluster, a: Action)
    requires CanStep(c, a) && !Calls(a) && !a.HandleVote? && !a.HandleAppend? && !a.HandleSnapshot?
    ensures Do(c, a).calls == c.calls
  {
    if Compound(a) {
      hide Do, Enabled, WellFormed, BecomeLeader, CommitScan, Image, EntryAt;
      WhichStep(c, a);
    } else {
      hide DoVote, DoAppend, DoSnapshot, DoAppendAns, DoSnapAns, DoApply, DoCommit, DoStartElection, DoWin, DoPropose;
      hide Contiguous, Follows, TermAt;
    }
  }

  lemma ReceiptAsks(c: Cluster, a: Action, p: NodeId)
    requires CanStep(c, a) && (a.HandleVote? || a.HandleAppend? || a.HandleSnapshot?)
    ensures (a.n, p) in Do(c, a).calls <==> (a.n, p) in c.calls
  {
    hide Do, Enabled, WellFormed, HandleAppendEntries, HandleRequestVote, InstallFull;
    match a
    case HandleVote(_, _) => VoteStep(c, a);
    case HandleAppend(_, _, _) => AppendStep(c, a);
    case _ => SnapshotStep(c, a);
  }

  // --- Each step ---

  lemma SameAsked(c: Cluster, a: Action)
    requires CanStep(c, a) && !Calls(a)
    ensures a.n in c.members && a.n in Do(c, a).members && Asked(Do(c, a), a.n) == Asked(c, a.n)
  {
    hide Do, Enabled, WellFormed;
    OnlyOneMoves(c, a);
    if a.HandleVote? || a.HandleAppend? || a.HandleSnapshot? {
      forall p: NodeId
        ensures (a.n, p) in Do(c, a).calls <==> (a.n, p) in c.calls
      {
        ReceiptAsks(c, a, p);
      }
    } else {
      OwnAsks(c, a);
    }
    AsksSame(c, Do(c, a), a.n);
  }

  /** The role and term after handling a request. */
  lemma ReceiptRole(c: Cluster, a: Action)
    requires CanStep(c, a) && (a.HandleVote? || a.HandleAppend? || a.HandleSnapshot?)
    ensures a.n in c.members && a.n in Do(c, a).members
    ensures var s, s2, e := c.members[a.n].s, Do(c, a).members[a.n].s, EventOf(c, a);
            if e.Some? then e.value.Deposes? && e.value.term >= s.term && s2.role == Follower && s2.term == e.value.term
            else s2.role == s.role && s2.term == s.term
  {
    hide Do, Enabled, WellFormed, Merge, Consistent, UpToDate;
    match a
    case HandleVote(_, _) => VoteStep(c, a);
    case HandleAppend(_, _, _) => AppendStep(c, a);
    case _ => SnapshotStep(c, a);
  }

  lemma ReceiptDrives(c: Cluster, a: Action, r: Runner)
    requires CanStep(c, a) && (a.HandleVote? || a.HandleAppend? || a.HandleSnapshot?)
    requires Drives(c, a.n, r) && Lets(c, a, r)
    ensures Drives(Do(c, a), a.n, Moved(r, EventOf(c, a)))
  {
    hide Do, Enabled, WellFormed, Asked, EventOf;
    SameAsked(c, a);
    ReceiptRole(c, a);
  }

  lemma AnswerDrives(c: Cluster, a: Action, r: Runner)
    requires CanStep(c, a) && (a.HandleAppendAns? || a.HandleSnapAns?) && a.from in c.members
    requires Drives(c, a.n, r) && Lets(c, a, r)
    ensures Drives(Do(c, a), a.n, Moved(r, EventOf(c, a)))
  {
    hide Do, Enabled, WellFormed, Compacted, Raise, Asked;
    if a.HandleAppendAns? {
      AppendAnsStep(c, a);
    } else {
      SnapAnsStep(c, a);
    }
    AsksLess(c, Do(c, a), a.n, a.from);
  }

  lemma AskDrives(c: Cluster, a: Action, r: Runner)
    requires CanStep(c, a) && (a.SendAppend? || a.SendSnapshot?)
    requires Drives(c, a.n, r) && Lets(c, a, r)
    ensures Drives(Do(c, a), a.n, Moved(r, EventOf(c, a)))
  {
    hide Asked, Contiguous, Follows, AppendFor, SnapshotFor, TermAt;
    hide DoVote, DoAppend, DoSnapshot, DoAppendAns, DoSnapAns, DoApply, DoCommit, DoStartElection, DoWin, DoPropose;
    AsksMore(c, a.n, a.to, Do(c, a).calls[(a.n, a.to)].request);
  }

  lemma GiveUpDrives(c: Cluster, a: Action, r: Runner)
    requires CanStep(c, a) && a.GiveUp? && a.to in c.members
    requires Drives(c, a.n, r) && Lets(c, a, r)
    ensures Drives(Do(c, a), a.n, Moved(r, EventOf(c, a)))
  {
    hide Asked, Contiguous, Follows;
    hide DoVote, DoAppend, DoSnapshot, DoAppendAns, DoSnapAns, DoApply, DoCommit, DoStartElection, DoWin, DoPropose;
    AsksLess(c, Do(c, a), a.n, a.to);
  }

  lemma CompoundDrives(c: Cluster, a: Action, r: Runner)
    requires CanStep(c, a) && !Calls(a) && !a.HandleVote? && !a.HandleAppend? && !a.HandleSnapshot? && Compound(a)
    requires a.n in Do(c, a).members && Asked(Do(c, a), a.n) == Asked(c, a.n)
    requires Drives(c, a.n, r) && Lets(c, a, r)
    ensures Drives(Do(c, a), a.n, Moved(r, EventOf(c, a)))
  {
    hide Asked, Do, Enabled, WellFormed, Uniform, CommitScan, Image, EntryAt;
    WhichStep(c, a);
  }

  lemma PlainDrives(c: Cluster, a: Action, r: Runner)
    requires CanStep(c, a) && !Calls(a) && !Compound(a)
    requires a.n in Do(c, a).members && Asked(Do(c, a), a.n) == Asked(c, a.n)
    requires Drives(c, a.n, r) && Lets(c, a, r)
    ensures Drives(Do(c, a), a.n, Moved(r, EventOf(c, a)))
  {
    hide Asked, DoVote, DoAppend, DoSnapshot, DoAppendAns, DoSnapAns, DoApply, DoCommit, DoStartElection, DoWin,
      DoPropose, Contiguous, Follows, TermAt;
  }

  lemma OwnDrives(c: Cluster, a: Action, r: Runner)
    requires CanStep(c, a) && !Calls(a) && !a.HandleVote? && !a.HandleAppend? && !a.HandleSnapshot?
    requires Drives(c, a.n, r) && Lets(c, a, r)
    ensures Drives(Do(c, a), a.n, Moved(r, EventOf(c, a)))
  {
    hide Asked, Do, Enabled, WellFormed, Drives, Lets, EventOf, Moved;
    SameAsked(c, a);
    if Compound(a) {
      CompoundDrives(c, a, r);
    } else {
      PlainDrives(c, a, r);
    }
  }

  lemma CallInside(c: Cluster, n: NodeId, p: NodeId)
    requires Ship(c) && (n, p) in c.calls
    ensures p in c.members
  {
    hide SnapsSafe, PeersOk, LabelsOk, AnswerOk;
    assert CallOk(c, n, p);
  }

  /** Every step of the cluster that a goroutine lets be taken moves that goroutine as the code moves it,
      and no other: role, term and the number of calls in progress stay those of the member. */
  lemma StepDrives(c: Cluster, a: Action, n: NodeId, r: Runner)
    requires CanStep(c, a) && Ship(c) && Drives(c, n, r) && (n == a.n ==> Lets(c, a, r))
    ensures Drives(Do(c, a), n, if n == a.n then Moved(r, EventOf(c, a)) else r)
  {
    StepTaken(c, a);
    if n != a.n {
      hide Do, Enabled, WellFormed, Asked, Ship;
      OnlyOneMoves(c, a);
      OthersAsk(c, a, n);
    } else {
      AskedTo(c, a);
      hide Do, Enabled, WellFormed, Drives, Lets, EventOf, Ship;
      if a.HandleVote? || a.HandleAppend? || a.HandleSnapshot? {
        ReceiptDrives(c, a, r);
      } else if a.HandleAppendAns? || a.HandleSnapAns? {
        CallInside(c, a.n, a.from);
        AnswerDrives(c, a, r);
      } else if a.SendAppend? || a.SendSnapshot? {
        AskDrives(c, a, r);
      } else if a.GiveUp? {
        CallInside(c, a.n, a.to);
        GiveUpDrives(c, a, r);
      } else {
        OwnDrives(c, a, r);
      }
    }
  }

  lemma AskedTo(c: Cluster, a: Action)
    requires CanStep(c, a)
    ensures a.HandleAppendAns? || a.HandleSnapAns? ==> (a.n, a.from) in c.calls
    ensures a.GiveUp? ==> (a.n, a.to) in c.calls
  {
    hide WellFormed;
  }

  // --- Runs that the goroutines drive ---

  /** The cluster with the goroutine of each member. */
  datatype Driven = Driven(c: Cluster, rs: map<NodeId, Runner>)

  /** A step of the cluster, or one that only moves a goroutine. */
  datatype Beat = Step(a: Action) | Inner(n: NodeId, e: Event)

  predicate IsInner(r: Runner, e: Event) {
    RunLoop.Enabled(r, e) && (e.VotesIn? || e.Closes? || (e.Enters? && r.role != Candidate))
  }

  ghost predicate CanBeat(d: Driven, b: Beat) {
    match b
    case Step(a) => CanStep(d.c, a) && Guarded(d.c, a) && a.n in d.rs && Lets(d.c, a, d.rs[a.n])
    case Inner(n, e) => n in d.rs && IsInner(d.rs[n], e)
  }

  ghost function DoBeat(d: Driven, b: Beat): Driven
    requires CanBeat(d, b)
  {
    match b
    case Step(a) => Driven(Do(d.c, a), d.rs[a.n := Moved(d.rs[a.n], EventOf(d.c, a))])
    case Inner(n, e) => d.(rs := d.rs[n := RunLoop.Do(d.rs[n], e)])
  }

  ghost predicate DrivenRun(d: Driven, run: seq<Beat>)
    decreases |run|
  {
    run == [] || (CanBeat(d, run[0]) && DrivenRun(DoBeat(d, run[0]), run[1..]))
  }

  ghost function DrivenAfter(d: Driven, run: seq<Beat>): Driven
    requires DrivenRun(d, run)
    decreases |run|
  {
    if run == [] then d else DrivenAfter(DoBeat(d, run[0]), run[1..])
  }

  ghost predicate AllDriven(d: Driven) {
    d.rs.Keys == d.c.members.Keys && forall n :: n in d.rs ==> Drives(d.c, n, d.rs[n])
  }

  ghost predicate InOrder(d: Driven) {
    Inv(d.c) && Ship(d.c) && AllDriven(d)
  }

  lemma InnerDrives(c: Cluster, n: NodeId, r: Runner, e: Event)
    requires Drives(c, n, r) && IsInner(r, e)
    ensures Drives(c, n, RunLoop.Do(r, e))
  {
    hide Asked;
  }

  lemma StepKeepsDriven(d: Driven, a: Action)
    requires CanBeat(d, Step(a)) && AllDriven(d) && Ship(d.c)
    ensures AllDriven(DoBeat(d, Step(a)))
  {
    hide Do, Enabled, WellFormed, Guarded, Drives, Lets, EventOf, Ship, Moved;
    OnlyOneMoves(d.c, a);
    var d2 := DoBeat(d, Step(a));
    forall n | n in d2.rs
      ensures Drives(d2.c, n, d2.rs[n])
    {
      StepDrives(d.c, a, n, d.rs[n]);
    }
  }

  lemma BeatKeeps(d: Driven, b: Beat)
    requires CanBeat(d, b) && InOrder(d)
    ensures InOrder(DoBeat(d, b))
  {
    hide Do, Enabled, WellFormed, Guarded, Drives, Lets, EventOf, Ship, Inv, Moved;
    match b
    case Step(a) =>
      StepShips(d.c, a);
      StepKeepsDriven(d, a);
    case Inner(n, e) => InnerDrives(d.c, n, d.rs[n], e);
  }

  /** The beat by which member `n` stands for election, wins, or calls a peer. */
  predicate Rouses(b: Beat, n: NodeId) {
    b.Step? && b.a.n == n && (b.a.StartElection? || b.a.Win? || b.a.SendAppend? || b.a.SendSnapshot?)
  }

  /** The goroutine is in runLeader, deposed without a signal and without a call. */
  ghost predicate Out(d: Driven, n: NodeId) {
    n in d.rs && RunLoop.Deaf(d.rs[n]) && d.rs[n].calls == 0
  }

  lemma OutBeat(d: Driven, b: Beat, n: NodeId)
    requires CanBeat(d, b) && Out(d, n)
    ensures !Rouses(b, n) && Out(DoBeat(d, b), n)
  {
    hide Do, Enabled, WellFormed, Guarded;
  }

  lemma {:induction false} OutRun(d: Driven, run: seq<Beat>, n: NodeId)
    requires DrivenRun(d, run) && Out(d, n)
    ensures Out(DrivenAfter(d, run), n) && forall i :: 0 <= i < |run| ==> !Rouses(run[i], n)
    decreases |run|
  {
    hide CanBeat, DoBeat, Out, Rouses;
    if run != [] {
      OutBeat(d, run[0], n);
      OutRun(DoBeat(d, run[0]), run[1..], n);
      assert forall i :: 0 < i < |run| ==> run[i] == run[1..][i - 1];
    }
  }

  lemma {:induction false} RunInOrder(d: Driven, run: seq<Beat>)
    requires InOrder(d) && DrivenRun(d, run)
    ensures InOrder(DrivenAfter(d, run))
    decreases |run|
  {
    hide CanBeat, DoBeat, InOrder;
    if run != [] {
      BeatKeeps(d, run[0]);
      RunInOrder(DoBeat(d, run[0]), run[1..]);
    }
  }

  lemma OutMember(d: Driven, n: NodeId)
    requires InOrder(d) && n in d.rs && RunLoop.Deaf(d.rs[n])
    ensures Out(d, n) <==> Asked(d.c, n) == {}
    ensures n in d.c.members && d.c.members[n].s.role != Leader
  {
    hide Inv, Ship;
  }

  /** In every run that the goroutines drive, a member that a handler has deposed while it was in
      runLeader, and that has no call in progress, never leads again, stands for election or calls a
      peer. */
  lemma DeposedStaysOut(d: Driven, run: seq<Beat>, n: NodeId)
    requires InOrder(d) && DrivenRun(d, run) && n in d.rs && RunLoop.Deaf(d.rs[n]) && Asked(d.c, n) == {}
    ensures n in DrivenAfter(d, run).c.members && DrivenAfter(d, run).c.members[n].s.role != Leader
    ensures forall i :: 0 <= i < |run| ==> !Rouses(run[i], n)
  {
    hide InOrder, DrivenRun, DrivenAfter, Asked, Rouses, RunLoop.Deaf;
    OutMember(d, n);
    OutRun(d, run, n);
    RunInOrder(d, run);
    OutParts(DrivenAfter(d, run), n);
    OutMember(DrivenAfter(d, run), n);
  }

  lemma OutParts(d: Driven, n: NodeId)
    requires Out(d, n)
    ensures n in d.rs && RunLoop.Deaf(d.rs[n])
  {
  }
}
