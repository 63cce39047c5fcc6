/** Two runs of the whole program, with every step of the cluster guarded, in which an acknowledged
    message is lost. */
module WholeWitness {
  import opened RaftTypes
  import opened LogStore
  import opened Handlers
  import opened Cluster
  import opened Safety
  import opened ApplyLoop
  import opened Proposals
  import opened Dispatch
  import opened Witnesses
  import opened WaiterWitness
  import opened Whole
  import opened WholeRuns
  import opened Fates
  import Replicas
  import opened PlaySteps

  // --- The message of a caller that is told of another entry ---

  lemma NowhereInLogs(o: Office)
    requires o.c.members.Keys == IDS
    requires o.c.members[0].s.log == [DUMMY, Z] == o.c.members[1].s.log && o.c.members[2].s.log == [DUMMY]
    ensures forall m, i :: m in o.c.members && 0 <= i < |o.c.members[m].s.log| ==>
              TaskOf(o.c.members[m].s.log[i].command) != Some("x")
  {
    forall m, i | m in o.c.members && 0 <= i < |o.c.members[m].s.log|
      ensures TaskOf(o.c.members[m].s.log[i].command) != Some("x")
    {
      assert m == 0 || m == 1 || m == 2;
    }
  }

  /** The run of `CallerIsMisled`, whatever becomes of the publishes: the message about task "x" is
      acknowledged, its entry is not in the log, and no member's log has an entry for the task. */
  lemma AckedAndLost(ok: Outcomes) returns (log: Log, p: Program)
    ensures Arises(IDS, log, p) && AgreedLog(p.o.c, log)
    ensures 0 in p.s.replicas && "x" in p.s.replicas[0].acks && 0 in p.o.desks && p.o.desks[0].asked == [X]
    ensures TaskOf(X.command) == Some("x") && X.index < |log| && log[X.index] != X
    ensures forall m, i :: m in p.o.c.members && 0 <= i < |p.o.c.members[m].s.log| ==>
              TaskOf(p.o.c.members[m].s.log[i].command) != Some("x")
  {
    hide Arises, AgreedLog, ReachableOffice, Decided;
    var o := CallerIsMisled();
    NowhereInLogs(o);
    log, p := EveryRunIsWhole(IDS, o, ok);
    AckExact(IDS, log, p, 0, 0, "x");
  }

  // --- A task that every member applies as a follower ---

  lemma Begins() returns (p: Program)
    ensures Playing(p) && p.o.c == Init(IDS) && p.s == Replicas.Init(IDS)
    ensures forall n :: n in IDS ==> n in p.o.desks && p.o.desks[n] == EMPTY
  {
    hide Arises, Live, OfficeOk;
    p := Whole.Start(IDS);
    StartArises(IDS, LOG);
    OpeningOk(IDS);
    var c := Witnesses.Start();
    IsPlaying(p);
  }

  /** The desks and replicas before anything is committed. */
  ghost predicate Early(p: Program, d: Desk) {
    && Playing(p) && p.s == Replicas.Init(IDS) && p.o.desks.Keys == IDS
    && p.o.desks[0] == d && p.o.desks[1] == EMPTY && p.o.desks[2] == EMPTY
  }

  lemma StaysEarly(p: Program, d: Desk, p2: Program)
    requires Early(p, d) && Playing(p2) && p2.s == p.s && p2.o.desks == p.o.desks
    ensures Early(p2, d)
  {
    hide Playing;
  }

  /** A step that leaves the commit index alone, and is neither a proposal nor the loop's. */
  ghost predicate Still(c: Cluster, a: Action, c2: Cluster) {
    && Leads(c, a, c2) && Elsewhere(a) && !a.Propose?
    && c2.members[a.n].s.commit == c.members[a.n].s.commit
  }

  lemma IsStill(c: Cluster, a: Action, c2: Cluster)
    requires Elsewhere(a) && !a.Propose? && a.n in IDS && Live(c) && Live(c2)
    requires c2.members[a.n].s.commit == c.members[a.n].s.commit <= 1
    requires By(c, a, c2) && Guarded(c, a)
    ensures Still(c, a, c2)
  {
    LiveFormed(c);
    LiveFormed(c2);
    hide Live, Guarded, Do, Enabled, WellFormed;
  }

  lemma StillParts(c: Cluster, a: Action, c2: Cluster)
    requires Still(c, a, c2)
    ensures a.n in c.members && a.n in c2.members && Leads(c, a, c2) && Elsewhere(a) && !a.Propose?
    ensures c2.members[a.n].s.commit == c.members[a.n].s.commit
  {
    hide Live, Guarded, Do, Enabled, WellFormed, By;
  }

  /** A quiet step before anything is committed. */
  lemma EarlyStep(p: Program, d: Desk, a: Action, c2: Cluster) returns (p2: Program)
    requires Early(p, d) && Still(p.o.c, a, c2)
    ensures Early(p2, d) && p2.o.c == c2
  {
    hide Early, Playing, Leads, Still;
    EarlyPlays(p, d);
    StillParts(p.o.c, a, c2);
    p2 := PlayQuietly(p, a, c2);
    StaysEarly(p, d, p2);
  }

  lemma EarlyPlays(p: Program, d: Desk)
    requires Early(p, d)
    ensures Playing(p)
  {
  }

  lemma EarlyLive(p: Program, d: Desk)
    requires Early(p, d)
    ensures Live(p.o.c)
  {
    hide Live, Arises, OfficeOk;
  }

  const VOTED := NodeState(1, Some(0), [DUMMY], Follower, 0, 0, map[], map[])
  const NEWBORN := NodeState(0, None, [DUMMY], Follower, 0, 0, map[], map[])

  /** Member 0 has the votes of 0 and 1. */
  lemma PlayElection() returns (p: Program)
    ensures Early(p, EMPTY) && Live(p.o.c) && p.o.c.calls == map[]
    ensures {Vote(0, 1, 0), Vote(1, 1, 0)} <= p.o.c.h.votes
    ensures p.o.c.members[0] == Plain(VOTED.(role := Candidate)).(campaign := Some(1))
    ensures p.o.c.members[1] == Plain(VOTED) && p.o.c.members[2] == Plain(NEWBORN)
  {
    hide Live, By, Early, Still, Playing;
    p := Begins();
    BeginsEarly(p);
    EarlyLive(p, EMPTY);
    var c := TimesOut(p.o.c, 0);
    IsStill(p.o.c, ElectionTimeout(0), c);
    p := EarlyStep(p, EMPTY, ElectionTimeout(0), c);
    c := Stands(c, 0);
    IsStill(p.o.c, StartElection(0), c);
    p := EarlyStep(p, EMPTY, StartElection(0), c);
    c := Backs(c, 1, VoteArgs(1, 0, 0, 0));
    IsStill(p.o.c, HandleVote(1, VoteArgs(1, 0, 0, 0)), c);
    p := EarlyStep(p, EMPTY, HandleVote(1, VoteArgs(1, 0, 0, 0)), c);
  }

  lemma BeginsEarly(p: Program)
    requires Playing(p) && p.s == Replicas.Init(IDS)
    requires forall n :: n in IDS ==> n in p.o.desks && p.o.desks[n] == EMPTY
    ensures Early(p, EMPTY)
  {
    hide Arises, Live, OfficeOk;
  }

  lemma EarlyPropose(p: Program, c2: Cluster) returns (p2: Program)
    requires Early(p, EMPTY) && CanPropose(p, c2)
    ensures Early(p2, WAITING) && p2.o.c == c2
  {
    hide Playing, CanPropose;
    p2 := PlayPropose(p, c2);
  }

  lemma CanProposeNow(p: Program, c2: Cluster)
    requires Early(p, EMPTY) && p.o.c.members.Keys == IDS && 0 in c2.members
    requires p.o.c.members[0].s.log == [DUMMY] && p.o.c.members[0].s.term == 1
    requires c2.members[0].s.commit == p.o.c.members[0].s.commit <= 1
    requires Live(c2) && By(p.o.c, Action.Propose(0, X.command), c2)
    ensures CanPropose(p, c2)
  {
    hide Live, Playing, Do, Enabled, WellFormed;
  }

  /** Member 0 leads term 1 and has proposed X. */
  lemma PlayLeader() returns (p: Program)
    ensures Early(p, WAITING) && Live(p.o.c) && p.o.c.calls == map[] && p.o.c.members[0] == Plain(FIRST)
    ensures p.o.c.members[1] == Plain(VOTED) && p.o.c.members[2] == Plain(NEWBORN)
  {
    hide Live, By, Early, Still, Playing, CanPropose;
    p := PlayElection();
    var c := Wins(p.o.c, 0, 1);
    IsStill(p.o.c, Win(0, {0, 1}), c);
    p := EarlyStep(p, EMPTY, Win(0, {0, 1}), c);
    FirstProposes();
    hide BecomeLeader;
    LiveFormed(c);
    c := Proposes(c, 0, X.command);
    CanProposeNow(p, c);
    p := EarlyPropose(p, c);
  }

  const ASK := AppendArgs(1, 0, 0, 0, [X], 0)

  lemma AskTaken()
    ensures HandleAppendEntries(VOTED, ASK) == (VOTED.(log := [DUMMY, X]), AppendReply(1, true))
    ensures HandleAppendEntries(NEWBORN, ASK.(leaderCommit := 1)).0 ==
            NEWBORN.(term := 1, log := [DUMMY, X], commit := 1)
  {
    assert Merge([DUMMY], 0, [X], 1) == [DUMMY, X];
    hide Merge;
  }

  const ASKED := map[(0, 1) := Call(AppendReq(1, ASK), Some(Appended(AppendReply(1, true))))]

  /** Member 1 has taken X. */
  lemma PlayTaken() returns (p: Program)
    ensures Early(p, WAITING) && Live(p.o.c) && p.o.c.calls == ASKED && p.o.c.members[0] == Plain(FIRST)
    ensures p.o.c.members[1] == Plain(VOTED.(log := [DUMMY, X])) && p.o.c.members[2] == Plain(NEWBORN)
  {
    hide Live, By, Early, Still, Playing;
    p := PlayLeader();
    var c := SendsAppend(p.o.c, 0, 1);
    IsStill(p.o.c, SendAppend(0, 1), c);
    p := EarlyStep(p, WAITING, SendAppend(0, 1), c);
    assert AppendFor(FIRST, 0, 1) == ASK && Get(FIRST.nextIndex, 1) == 1;
    LiveMember(c, 0);
    AskTaken();
    hide HandleAppendEntries, AppendFor;
    c := TakesAppend(c, 1, ASK, true);
    IsStill(p.o.c, HandleAppend(1, ASK, true), c);
    p := EarlyStep(p, WAITING, HandleAppend(1, ASK, true), c);
  }

  const HEARD := FIRST.(matchIndex := map[0 := 1, 1 := 1, 2 := 0], nextIndex := map[1 := 2, 2 := 1])

  lemma AskHeard()
    ensures HandleAppendReply(FIRST, 1, ASK, AppendReply(1, true)) == HEARD
    ensures Contiguous(HEARD.log) && Last(HEARD.log) == 1 && Committable(HEARD, IDS - {0}, 1)
  {
    assert (set p | p in IDS - {0} && Get(HEARD.matchIndex, p) >= 1) == {1};
    assert IDS - {0} == {1, 2};
  }

  /** The replicas of the members in `done` have the commit index 1. */
  ghost predicate Known(p: Program, done: set<NodeId>) {
    && Playing(p) && p.o.desks.Keys == IDS
    && p.o.desks[0] == WAITING && p.o.desks[1] == EMPTY && p.o.desks[2] == EMPTY
    && p.s == Replicas.System(map n | n in IDS :: Replicas.START.(commit := if n in done then 1 else 0), {}, {})
  }

  lemma EarlyKnown(p: Program)
    requires Early(p, WAITING)
    ensures Known(p, {})
  {
    hide Playing;
  }

  lemma KnownParts(p: Program, done: set<NodeId>)
    requires Known(p, done)
    ensures Playing(p) && p.s.replicas.Keys == IDS && p.o.desks.Keys == IDS
  {
    hide Playing;
  }

  lemma KnownStays(p: Program, done: set<NodeId>, p2: Program)
    requires Known(p, done) && Playing(p2) && p2.s == p.s && p2.o.desks == p.o.desks
    ensures Known(p2, done)
  {
    hide Playing;
  }

  lemma KnownStep(p: Program, done: set<NodeId>, a: Action, c2: Cluster) returns (p2: Program)
    requires Known(p, done) && Still(p.o.c, a, c2)
    ensures Known(p2, done) && p2.o.c == c2
  {
    hide Known, Playing, Leads, Still;
    KnownParts(p, done);
    StillParts(p.o.c, a, c2);
    p2 := PlayQuietly(p, a, c2);
    KnownStays(p, done, p2);
  }

  /** A step that raises the commit index from 0 to 1. */
  ghost predicate Rises(c: Cluster, a: Action, c2: Cluster) {
    && Leads(c, a, c2) && Elsewhere(a) && !a.Propose?
    && c.members[a.n].s.commit == 0 && c2.members[a.n].s.commit == 1
  }

  lemma IsRising(c: Cluster, a: Action, c2: Cluster)
    requires Elsewhere(a) && !a.Propose? && a.n in IDS && Live(c) && Live(c2)
    requires c.members[a.n].s.commit == 0 && c2.members[a.n].s.commit == 1
    requires By(c, a, c2) && Guarded(c, a)
    ensures Rises(c, a, c2)
  {
    LiveFormed(c);
    LiveFormed(c2);
    hide Live, Guarded, Do, Enabled, WellFormed;
  }

  lemma RisingParts(c: Cluster, a: Action, c2: Cluster)
    requires Rises(c, a, c2)
    ensures a.n in IDS && a.n in c.members && a.n in c2.members && Leads(c, a, c2) && Elsewhere(a) && !a.Propose?
    ensures c.members[a.n].s.commit == 0 && c2.members[a.n].s.commit == 1
  {
    hide Live, Guarded, Do, Enabled, WellFormed, By;
  }

  lemma KnownMore(p: Program, done: set<NodeId>, n: NodeId, p2: Program)
    requires Known(p, done) && Playing(p2) && n in IDS && p2.o.desks == p.o.desks
    requires n in p.s.replicas && p2.s == p.s.(replicas := p.s.replicas[n := p.s.replicas[n].(commit := 1)])
    ensures Known(p2, done + {n})
  {
    hide Playing;
    var all := map x | x in IDS :: Replicas.START.(commit := if x in done + {n} then 1 else 0);
    assert p2.s.replicas.Keys == all.Keys;
    forall x | x in all
      ensures p2.s.replicas[x] == all[x]
    {
    }
    assert p2.s.replicas == all;
  }

  lemma KnownRise(p: Program, done: set<NodeId>, a: Action, c2: Cluster) returns (p2: Program)
    requires Known(p, done) && Rises(p.o.c, a, c2)
    ensures Known(p2, done + {a.n}) && p2.o.c == c2
  {
    hide Known, Playing, Leads, Rises;
    KnownParts(p, done);
    RisingParts(p.o.c, a, c2);
    p2 := PlayCommit(p, a, c2);
    KnownMore(p, done, a.n, p2);
  }

  /** The leader has committed X. */
  lemma PlayCommitted() returns (p: Program)
    ensures Known(p, {0}) && Live(p.o.c) && p.o.c.calls == map[] && p.o.c.members[0] == Plain(HEARD.(commit := 1))
    ensures p.o.c.members[1] == Plain(VOTED.(log := [DUMMY, X])) && p.o.c.members[2] == Plain(NEWBORN)
  {
    hide Live, By, Early, Known, Still, Rises, Playing;
    p := PlayTaken();
    EarlyKnown(p);
    AskHeard();
    hide HandleAppendReply, Committable, Contiguous;
    var c := Hears(p.o.c, 0, 1, ASK, AppendReply(1, true));
    IsStill(p.o.c, HandleAppendAns(0, 1), c);
    p := KnownStep(p, {}, HandleAppendAns(0, 1), c);
    c := Commits(c, 0, 1);
    IsRising(p.o.c, AdvanceCommit(0), c);
    p := KnownRise(p, {}, AdvanceCommit(0), c);
    assert c.calls == map[];
    assert {} + {0} == {0};
  }

  const PULSE := AppendArgs(1, 0, 1, 1, [], 1)

  lemma PulseTaken()
    ensures HandleAppendEntries(VOTED.(log := [DUMMY, X]), PULSE).0 == VOTED.(log := [DUMMY, X], commit := 1)
  {
  }

  /** Member 1 has learned of it. */
  lemma PlayPulse() returns (p: Program)
    ensures Known(p, {0, 1}) && Live(p.o.c) && (0, 2) !in p.o.c.calls
    ensures p.o.c.members[0] == Plain(HEARD.(commit := 1)) && p.o.c.members[2] == Plain(NEWBORN)
    ensures p.o.c.members[1] == Plain(VOTED.(log := [DUMMY, X], commit := 1))
  {
    hide Live, By, Known, Still, Rises, Playing;
    p := PlayCommitted();
    var c := SendsAppend(p.o.c, 0, 1);
    IsStill(p.o.c, SendAppend(0, 1), c);
    p := KnownStep(p, {0}, SendAppend(0, 1), c);
    assert AppendFor(HEARD.(commit := 1), 0, 2) == PULSE && Get(HEARD.nextIndex, 1) == 2;
    PulseTaken();
    hide HandleAppendEntries, AppendFor;
    c := TakesAppend(c, 1, PULSE, false);
    IsRising(p.o.c, HandleAppend(1, PULSE, false), c);
    p := KnownRise(p, {0}, HandleAppend(1, PULSE, false), c);
    assert {0} + {1} == {0, 1};
  }

  /** All have. */
  lemma PlayKnown() returns (p: Program)
    ensures Known(p, IDS) && Live(p.o.c)
    ensures p.o.c.members[0] == Plain(HEARD.(commit := 1))
    ensures p.o.c.members[1] == Plain(VOTED.(log := [DUMMY, X], commit := 1))
    ensures p.o.c.members[2] == Plain(NEWBORN.(term := 1, log := [DUMMY, X], commit := 1))
  {
    hide Live, By, Known, Still, Rises, Playing;
    p := PlayPulse();
    var c := SendsAppend(p.o.c, 0, 2);
    IsStill(p.o.c, SendAppend(0, 2), c);
    p := KnownStep(p, {0, 1}, SendAppend(0, 2), c);
    var ask := ASK.(leaderCommit := 1);
    assert AppendFor(HEARD.(commit := 1), 0, 1) == ask && Get(HEARD.nextIndex, 2) == 1;
    AskTaken();
    hide HandleAppendEntries, AppendFor;
    c := TakesAppend(c, 2, ask, false);
    IsRising(p.o.c, HandleAppend(2, ask, false), c);
    p := KnownRise(p, {0, 1}, HandleAppend(2, ask, false), c);
    assert {0, 1} + {2} == IDS;
  }

  lemma DeposedByVote()
    ensures var (s, r) := HandleRequestVote(HEARD.(commit := 1), VoteArgs(2, 1, 1, 1));
            r.granted && s == HEARD.(commit := 1, term := 2, votedFor := Some(1), role := Follower)
  {
  }

  /** Member 1 stands against the leader. */
  lemma PlayRival() returns (p: Program)
    ensures Known(p, IDS) && Live(p.o.c) && VoteReq(VoteArgs(2, 1, 1, 1)) in p.o.c.net
    ensures p.o.c.members[0] == Plain(HEARD.(commit := 1)) && Due(p.o.c.members[1]) && Due(p.o.c.members[2])
  {
    hide Live, By, Known, Still, Playing;
    p := PlayKnown();
    var c := TimesOut(p.o.c, 1);
    IsStill(p.o.c, ElectionTimeout(1), c);
    p := KnownStep(p, IDS, ElectionTimeout(1), c);
    c := Stands(c, 1);
    IsStill(p.o.c, StartElection(1), c);
    p := KnownStep(p, IDS, StartElection(1), c);
  }

  /** The leader has been deposed before its apply loop comes to X. */
  lemma PlayDeposed() returns (p: Program)
    ensures Known(p, IDS) && p.o.c.members.Keys == IDS
    ensures Due(p.o.c.members[0]) && Due(p.o.c.members[1]) && Due(p.o.c.members[2])
  {
    hide Live, By, Known, Still, Playing;
    p := PlayRival();
    DeposedByVote();
    hide HandleRequestVote;
    var c := Backs(p.o.c, 0, VoteArgs(2, 1, 1, 1));
    IsStill(p.o.c, HandleVote(0, VoteArgs(2, 1, 1, 1)), c);
    p := KnownStep(p, IDS, HandleVote(0, VoteArgs(2, 1, 1, 1)), c);
    LiveFormed(c);
  }

  lemma CanBeginKnown(p: Program, n: NodeId)
    requires Known(p, IDS) && n in IDS && n in p.o.c.members && Due(p.o.c.members[n])
    ensures CanBegin(p, n)
  {
    hide Playing;
  }

  lemma BeginLater(p: Program, n: NodeId, m: Member, r: Replica, p2: Program, x: NodeId)
    requires Becomes(p, n, m, r, p2) && CanBegin(p, x) && x != n
    ensures CanBegin(p2, x) && p2.o.desks[x] == p.o.desks[x] && p2.s.replicas[x] == p.s.replicas[x]
  {
  }

  /** raft/dispatcher.go:133-136: the leader commits X and tells its peers, who apply it as followers;
      a candidate then deposes it before its own Apply. Every member has applied the task, nobody has
      published it, nothing has failed, and its message is acknowledged. */
  lemma NobodyPublishes() returns (p: Program)
    ensures Arises(IDS, LOG, p) && p.s.replicas.Keys == IDS && p.s.failed == {}
    ensures forall n :: n in IDS ==>
              && p.s.replicas[n].applied == 1 && p.s.replicas[n].pick.None? && p.s.replicas[n].published == []
              && "x" in p.s.replicas[n].dispatched
    ensures "x" in Tasks(LOG, 1) && "x" in p.s.replicas[0].acks
  {
    p := AllFollow();
    TaskInLog();
    hide Arises, Tasks;
  }

  /** The same with the whole state of the replicas. */
  lemma AllFollow() returns (p: Program)
    ensures Arises(IDS, LOG, p)
    ensures p.s == Replicas.System(map n | n in IDS :: Followed(if n == 0 then ["x"] else []), {}, {})
  {
    hide Live, By, Known, Still, Playing, Due, CanBegin, Becomes, Followed, Arises, OfficeOk;
    p := PlayDeposed();
    CanBeginKnown(p, 0);
    CanBeginKnown(p, 1);
    CanBeginKnown(p, 2);
    KnownDesks(p);
    KnownParts(p, IDS);
    var p1 := PlayApply(p, 1);
    BeginLater(p, 1, Done(p.o.c.members[1]), Followed([]), p1, 0);
    BeginLater(p, 1, Done(p.o.c.members[1]), Followed([]), p1, 2);
    var p2 := PlayApply(p1, 2);
    BeginLater(p1, 2, Done(p1.o.c.members[2]), Followed([]), p2, 0);
    var p3 := PlayApply(p2, 0);
    BecomesReplicas(p, 1, Done(p.o.c.members[1]), Followed([]), p1);
    BecomesReplicas(p1, 2, Done(p1.o.c.members[2]), Followed([]), p2);
    BecomesReplicas(p2, 0, Done(p2.o.c.members[0]), Followed(["x"]), p3);
    assert p3.s.replicas == map n | n in IDS :: Followed(if n == 0 then ["x"] else []);
    p := p3;
    PlayingParts(p);
  }

  lemma KnownDesks(p: Program)
    requires Known(p, IDS)
    ensures p.o.desks.Keys == IDS && p.o.desks[0] == WAITING && p.o.desks[1] == EMPTY == p.o.desks[2]
    ensures p.s.failed == {} && p.s.snaps == {} && p.s.replicas.Keys == IDS
  {
    hide Playing;
  }

  lemma BecomesReplicas(p: Program, n: NodeId, m: Member, r: Replica, p2: Program)
    requires Becomes(p, n, m, r, p2)
    ensures p2.s == p.s.(replicas := p.s.replicas[n := r])
  {
  }

  lemma TaskInLog()
    ensures "x" in Tasks(LOG, 1)
  {
    assert TaskOf(LOG[1].command) == Some("x");
  }
}
