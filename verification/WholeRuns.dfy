/** Nothing that the dispatcher does bars a step of the cluster: every guarded run of the cluster with
    its callers is the run of a whole program, for any outcomes of the publishes. */
module WholeRuns {
  import opened RaftTypes
  import opened LogStore
  import opened Handlers
  import opened Cluster
  import opened Invariant
  import opened Evolution
  import opened Footprint
  import opened Compaction
  import opened Shipping
  import opened Safety
  import opened ApplyLoop
  import opened Waiters
  import opened Proposals
  import opened Silencing
  import opened Dispatch
  import opened Whole
  import Replicas

  // --- Longer runs ---

  lemma {:induction false} RunOn(log: Log, p: Program, run: seq<Act>, p1: Program, x: Act, p2: Program)
    requires Runs(log, p, run, p1) && Goes(log, p1, x, p2)
    ensures Runs(log, p, run + [x], p2)
    decreases |run|
  {
    hide Goes;
    if run == [] {
      assert run + [x] == [x] && [x][1..] == [];
      assert Runs(log, p2, [], p2);
    } else {
      assert (run + [x])[1..] == run[1..] + [x];
      var q :| Goes(log, p, run[0], q) && Runs(log, q, run[1..], p1);
      RunOn(log, q, run[1..], p1, x, p2);
    }
  }

  lemma ArisesOn(ids: set<NodeId>, log: Log, p: Program, x: Act, p2: Program)
    requires Arises(ids, log, p) && Goes(log, p, x, p2)
    ensures Arises(ids, log, p2)
  {
    hide Runs, Goes, Start;
    var run :| Runs(log, Start(ids), run, p);
    RunOn(log, Start(ids), run, p, x, p2);
  }

  lemma ArisesInStep(ids: set<NodeId>, log: Log, p: Program)
    requires Arises(ids, log, p)
    ensures InStep(ids, log, p)
  {
    hide Runs, Start, InStep;
    var run :| Runs(log, Start(ids), run, p);
    StartInStep(ids, log);
    RunInStep(ids, log, Start(ids), run, p);
  }

  // --- One step ---

  /** A step of the cluster for which the dispatcher is ready can be taken, if the log reaches as far. */
  lemma NothingBarred(ids: set<NodeId>, log: Log, p: Program, a: Action, data: Option<Snap>) returns (p2: Program)
    requires Arises(ids, log, p) && CanMove(p.o, Step(a)) && Ready(p, Step(a), data)
    requires a.n in Do(p.o.c, a).members && Do(p.o.c, a).members[a.n].s.commit < |log|
    requires data.Some? ==> data.value in p.s.snaps
    ensures Goes(log, p, Take(Step(a), data), p2)
  {
    hide Arises, Going, CanMove, Make, Do, Enabled, WellFormed, Guarded, Image, Contiguous, Full, Linked, Joined,
      InStep, Replicas.Basics, OfficeOk, Loops, Inv, CanTurn, Turned, NextPick, Passed, LoopOk, LoopIn, LoopOf,
      EchoOf, Replicas.Basic, Installing, Picks, Replicas.Enabled, Replicas.Do;
    ArisesInStep(ids, log, p);
    InStepFacts(ids, log, p);
    OwnMake(p.o, a);
    GoingParts(p.o);
    LoopMoves(p.o.c, a);
    CommitRises(p.o.c, a);
    LinkAt(p, a.n);
    JoinedCached(p.o.c.members[a.n], p.s.snaps, p.s.replicas[a.n]);
    BasicAt(log, p.s, a.n);
    var m, d, k := p.o.c.members[a.n], p.o.desks[a.n], Do(p.o.c, a).members[a.n].s.commit;
    EchoFits(log, p.s, m, d, a, k, data);
    var e := Echo(p.o, Step(a), data);
    p2 := Program(Make(p.o, Step(a)), if e.None? then p.s else Replicas.Do(log, p.s, e.value),
                  p.shipped + Shipment(p, Step(a)));
  }

  lemma CommitRises(c: Cluster, a: Action)
    requires CanStep(c, a) && a.n in c.members
    ensures Elsewhere(a) ==> a.n in Do(c, a).members && c.members[a.n].s.commit <= Do(c, a).members[a.n].s.commit
  {
    hide Do, Enabled, WellFormed, Elsewhere;
    if Elsewhere(a) {
      ElsewhereLeaves(c, a);
    }
  }

  // --- Moves with what the dispatcher does for them ---

  /** Nothing of the dispatcher's is half done, but for an entry that waits to be applied. */
  ghost predicate Resting(r: Replica) {
    r.taken == None && r.restoring == {} && (r.pick.Some? ==> !r.pick.value.stage.Publishing?)
  }

  ghost predicate AllRest(s: System) {
    forall n :: n in s.replicas ==> Resting(s.replicas[n])
  }

  /** The outcome of each node's publish for the entry at an index. */
  type Outcomes = (NodeId, nat) -> bool

  lemma OwnGoes(ids: set<NodeId>, log: Log, p: Program, x: Act, e: Replicas.Action) returns (p2: Program)
    requires Arises(ids, log, p) && Replicas.Enabled(log, p.s, e)
    requires (x == Own(e) && IsOwn(e))
             || (x.Treat? && x.n in p.o.c.members && e == Replicas.MarkTask(x.n, p.o.c.members[x.n].s.role == Leader))
    ensures Arises(ids, log, p2) && p2 == p.(s := Replicas.Do(log, p.s, e))
  {
    p2 := p.(s := Replicas.Do(log, p.s, e));
    hide Arises, Replicas.Enabled, Replicas.Do, IsOwn;
    assert Goes(log, p, x, p2);
    ArisesOn(ids, log, p, x, p2);
  }

  /** The rest of Apply for the entry picked, with the role that the node has now. */
  lemma FinishApply(ids: set<NodeId>, log: Log, p: Program, n: NodeId, ok: Outcomes) returns (p2: Program)
    requires Arises(ids, log, p) && AllRest(p.s) && n in p.o.c.members && n in p.s.replicas
    requires p.s.replicas[n].pick.Some? && p.s.replicas[n].pick.value.index < |log|
    ensures Arises(ids, log, p2) && AllRest(p2.s) && p2 == p.(s := p2.s) && n in p2.s.replicas
    ensures p2.s.replicas[n].pick.Some? && p2.s.replicas[n].pick.value.stage == Replicas.Finished
  {
    hide Arises;
    p2 := p;
    if p.s.replicas[n].pick.value.stage == Replicas.Picked {
      p2 := OwnGoes(ids, log, p2, Treat(n), Replicas.MarkTask(n, p.o.c.members[n].s.role == Leader));
      if p2.s.replicas[n].pick.value.stage.Publishing? {
        var e := Replicas.Publish(n, ok(n, p.s.replicas[n].pick.value.index));
        p2 := OwnGoes(ids, log, p2, Own(e), e);
      }
    }
  }

  lemma WriteDown(ids: set<NodeId>, log: Log, p: Program, n: NodeId) returns (p2: Program)
    requires Arises(ids, log, p) && AllRest(p.s) && n in p.s.replicas && p.s.replicas[n].capture.Some?
    ensures Arises(ids, log, p2) && p2 == p.(s := p2.s) && n in p2.s.replicas && p2.s.replicas[n].taken.Some?
    ensures p2.s.replicas.Keys == p.s.replicas.Keys
    ensures Resting(p2.s.replicas[n].(taken := None))
    ensures forall x :: x in p.s.replicas && x != n ==> p2.s.replicas[x] == p.s.replicas[x]
  {
    hide Arises;
    p2 := OwnGoes(ids, log, p, Own(Replicas.Serialize(n)), Replicas.Serialize(n));
  }

  lemma FindData(p: Program, a: Action) returns (data: Option<Snap>)
    requires Linked(p) && CanStep(p.o.c, a) && a.n in p.o.c.members && a.HandleSnapshot?
    requires !a.HandleAppend? && SnapReq(a.n, a.snap, a.prefix) in p.o.c.net
    ensures data.Some? && (SnapReq(a.n, a.snap, a.prefix), data.value) in p.shipped && data.value in p.s.snaps
    ensures data.value.index == a.snap.lastIndex
  {
    hide Joined, AllAnswered, Enabled, WellFormed;
    var msg := SnapReq(a.n, a.snap, a.prefix);
    var snap :| (msg, snap) in p.shipped;
    data := Some(snap);
  }

  lemma OneRests(log: Log, s: System, e: Replicas.Action)
    requires Replicas.Enabled(log, s, e) && !e.MarkTask? && !IsOwn(e)
    requires if e.FinishSnapshot? then Resting(s.replicas[e.n].(taken := None)) else Resting(s.replicas[e.n])
    ensures var r2 := Replicas.Local(log, s, e);
            Resting(r2) || (e.Install? && r2.restoring == {e.snap} && Resting(r2.(restoring := {})))
  {
    hide Replicas.Installs;
  }

  /** The replica's part leaves it at rest, but for a snapshot that is to be restored. */
  lemma EchoRests(log: Log, s: System, m: Member, d: Desk, a: Action, k: nat, data: Option<Snap>, s2: System)
    requires a.n in s.replicas && Plays(log, s, EchoOf(m, d, a, k, data), s2)
    requires if a.FinishSnapshot? then Resting(s.replicas[a.n].(taken := None)) else Resting(s.replicas[a.n])
    ensures a.n in s2.replicas
    ensures var r2 := s2.replicas[a.n];
            || Resting(r2)
            || (a.HandleSnapshot? && data.Some? && r2.restoring == {data.value} && Resting(r2.(restoring := {})))
  {
    hide Installing, Told, Mark, NewTask, TaskOf, Replicas.Installs, LoopOf;
    var e := EchoOf(m, d, a, k, data);
    if e.Some? {
      OneRests(log, s, e.value);
      assert e.value.n == a.n && !e.value.MarkTask? && !IsOwn(e.value);
      hide Replicas.Local, Replicas.Enabled;
    }
  }

  ghost predicate Fits(c: Cluster, log: Log) {
    forall n :: n in c.members ==> c.members[n].s.commit < |log|
  }

  /** At rest, but for a snapshot of `n` that is written down. */
  ghost predicate RestBut(s: System, n: NodeId, written: bool) {
    && n in s.replicas && Resting(if written then s.replicas[n].(taken := None) else s.replicas[n])
    && forall x :: x in s.replicas && x != n ==> Resting(s.replicas[x])
  }

  /** What the dispatcher does before step `a`. */
  lemma Prepares(ids: set<NodeId>, log: Log, p: Program, a: Action, ok: Outcomes)
    returns (p1: Program, data: Option<Snap>)
    requires Arises(ids, log, p) && AllRest(p.s) && CanMove(p.o, Step(a))
    ensures Arises(ids, log, p1) && p1 == p.(s := p1.s) && Ready(p1, Step(a), data)
    ensures data.Some? ==> a.HandleSnapshot? && data.value in p1.s.snaps
    ensures RestBut(p1.s, a.n, a.FinishSnapshot?)
  {
    hide Arises, CanMove, Going, Linked, Replicas.Basics, InStep, Installing, Resting, OfficeOk, Loops, LoopOk, Inv,
      Guarded, Do, Enabled, WellFormed, Image, Contiguous, Full;
    ArisesInStep(ids, log, p);
    InStepFacts(ids, log, p);
    OwnMake(p.o, a);
    GoingParts(p.o);
    LoopMoves(p.o.c, a);
    LinkAt(p, a.n);
    JoinedCached(p.o.c.members[a.n], p.s.snaps, p.s.replicas[a.n]);
    p1, data := p, None;
    match a {
      case ApplyEnd(n) =>
        PickFitsLog(log, p.s, n);
        p1 := FinishApply(ids, log, p, n, ok);
      case FinishSnapshot(n) =>
        p1 := WriteDown(ids, log, p, n);
      case HandleSnapshot(n, snap, prefix, _, _) =>
        if Installing(p.o.c.members[n], a) {
          SnapshotEffect(p.o.c, a);
          data := FindData(p, a);
        }
      case _ =>
    }
  }

  lemma PickFitsLog(log: Log, s: System, n: NodeId)
    requires Replicas.Basics(log, s) && n in s.replicas && s.replicas[n].pick.Some?
    ensures s.replicas[n].pick.value.index < |log|
  {
    assert Replicas.Basic(log, s.replicas[n]);
  }

  /** And what it does after it: it restores the snapshot installed, or fails to. */
  lemma Settles(ids: set<NodeId>, log: Log, p: Program, n: NodeId, snap: Snap, restored: bool) returns (p2: Program)
    requires Arises(ids, log, p) && n in p.s.replicas && p.s.replicas[n].restoring == {snap}
    requires Resting(p.s.replicas[n].(restoring := {}))
    requires forall x :: x in p.s.replicas && x != n ==> Resting(p.s.replicas[x])
    ensures Arises(ids, log, p2) && AllRest(p2.s) && p2.o == p.o
  {
    hide Arises;
    var e := if restored then Replicas.Restore(n, snap) else Replicas.RestoreFails(n, snap);
    assert {snap} - {snap} == {};
    p2 := OwnGoes(ids, log, p, Own(e), e);
  }

  lemma RestStays(log: Log, p: Program, a: Action, data: Option<Snap>, p2: Program)
    requires Goes(log, p, Take(Step(a), data), p2) && RestBut(p.s, a.n, a.FinishSnapshot?)
    requires a.n in p.o.c.members && a.n in p.o.desks && Linked(p)
    ensures a.n in p2.s.replicas && forall x :: x in p2.s.replicas && x != a.n ==> Resting(p2.s.replicas[x])
    ensures var r2 := p2.s.replicas[a.n];
            || Resting(r2)
            || (a.HandleSnapshot? && data.Some? && r2.restoring == {data.value} && Resting(r2.(restoring := {})))
  {
    hide Goes, CanMove, Make, Ready, Do, Plays, Shipment, EchoOf, Resting, Linked, Guarded, Image, Contiguous;
    TakeParts(log, p, a, data, p2);
    var m, d, k := p.o.c.members[a.n], p.o.desks[a.n], Do(p.o.c, a).members[a.n].s.commit;
    LinkAt(p, a.n);
    JoinedCached(m, p.s.snaps, p.s.replicas[a.n]);
    EchoRests(log, p.s, m, d, a, k, data, p2.s);
    EchoRest(log, p.s, m, d, a, k, data, p2.s);
    RestParts(m, d, a, p.s, p2.s);
  }

  lemma StepCovered(ids: set<NodeId>, log: Log, p: Program, a: Action, ok: Outcomes) returns (p2: Program)
    requires Arises(ids, log, p) && AllRest(p.s) && CanMove(p.o, Step(a))
    requires Fits(Make(p.o, Step(a)).c, log)
    ensures Arises(ids, log, p2) && AllRest(p2.s) && p2.o == Make(p.o, Step(a))
  {
    hide Arises, CanMove, Make, Do, Guarded, Image, Contiguous, Full, Enabled, WellFormed, RestBut, Resting, Ready,
      Goes,
      Linked, InStep, Going, Replicas.Basics;
    OwnMake(p.o, a);
    OnlyOneMoves(p.o.c, a);
    var p1, data := Prepares(ids, log, p, a, ok);
    p2 := NothingBarred(ids, log, p1, a, data);
    ArisesInStep(ids, log, p1);
    InStepFacts(ids, log, p1);
    LinkKeys(p1);
    RestStays(log, p1, a, data, p2);
    ArisesOn(ids, log, p1, Take(Step(a), data), p2);
    TakeParts(log, p1, a, data, p2);
    if !Resting(p2.s.replicas[a.n]) {
      p2 := Settles(ids, log, p2, a.n, data.value, a.restored);
    }
  }

  lemma AbortCovered(ids: set<NodeId>, log: Log, p: Program, n: NodeId) returns (p2: Program)
    requires Arises(ids, log, p) && AllRest(p.s) && CanMove(p.o, AbortAll(n))
    ensures Arises(ids, log, p2) && AllRest(p2.s) && p2.o == Make(p.o, AbortAll(n))
  {
    p2 := p.(o := Make(p.o, AbortAll(n)));
    hide Arises, Abort;
    assert p2.shipped == p.shipped + Shipment(p, AbortAll(n));
    assert Goes(log, p, Take(AbortAll(n), None), p2);
    ArisesOn(ids, log, p, Take(AbortAll(n), None), p2);
  }

  // --- Whole runs ---

  ghost predicate CommitsGrow(c: Cluster, c2: Cluster) {
    c2.members.Keys == c.members.Keys && forall n :: n in c.members ==> c.members[n].s.commit <= c2.members[n].s.commit
  }

  lemma MoveCommits(o: Office, v: Move)
    requires CanMove(o, v)
    requires OfficeOk(o)
    ensures CommitsGrow(o.c, Make(o, v).c)
  {
    hide OfficeOk, Do, Enabled, WellFormed, Guarded, Forward, Inv, Image, Contiguous, DeskAfter;
    OfficeFacts(o);
    if v.Step? {
      OnlyOneMoves(o.c, v.a);
      ForwardCommits(o.c, v.a);
    }
  }

  lemma {:induction false} OfficeCommits(o: Office, moves: seq<Move>)
    requires OfficeRun(o, moves, false)
    requires OfficeOk(o)
    ensures CommitsGrow(o.c, OfficeAfter(o, moves, false).c)
    decreases |moves|
  {
    hide OfficeOk, CanMove, Make, SparedMove;
    if moves != [] {
      MoveCommits(o, moves[0]);
      MoveKeeps(o, moves[0]);
      OfficeCommits(Make(o, moves[0]), moves[1..]);
    }
  }

  lemma FitsBefore(c: Cluster, c2: Cluster, log: Log)
    requires CommitsGrow(c, c2) && Fits(c2, log)
    ensures Fits(c, log)
  {
  }

  lemma {:induction false} RunCovered(ids: set<NodeId>, log: Log, p: Program, moves: seq<Move>, ok: Outcomes)
    returns (p2: Program)
    requires OfficeRun(p.o, moves, false) && Fits(OfficeAfter(p.o, moves, false).c, log)
    requires Arises(ids, log, p) && AllRest(p.s)
    requires OfficeOk(p.o)
    ensures Arises(ids, log, p2) && p2.o == OfficeAfter(p.o, moves, false)
    decreases |moves|
  {
    hide Arises, AllRest, OfficeOk, CanMove, Make, Evolves, SparedMove, Fits;
    p2 := p;
    if moves != [] {
      MoveKeeps(p.o, moves[0]);
      OfficeCommits(Make(p.o, moves[0]), moves[1..]);
      FitsBefore(Make(p.o, moves[0]).c, OfficeAfter(p.o, moves, false).c, log);
      var p1: Program;
      match moves[0] {
        case AbortAll(n) => p1 := AbortCovered(ids, log, p, n);
        case Step(a) => p1 := StepCovered(ids, log, p, a, ok);
      }
      p2 := RunCovered(ids, log, p1, moves[1..], ok);
    }
  }

  lemma LaterOn(c: Cluster, c1: Cluster, a: Action)
    requires Later(c, c1) && CanStep(c1, a) && Guarded(c1, a)
    ensures Later(c, Do(c1, a))
  {
    hide CanStep, Guarded, Do;
    var run :| GuardedRun(c, run) && After(c, run) == c1;
    GuardedOn(c, run, a);
  }

  lemma {:induction false} GuardedOn(c: Cluster, run: seq<Action>, a: Action)
    requires GuardedRun(c, run) && CanStep(After(c, run), a) && Guarded(After(c, run), a)
    ensures GuardedRun(c, run + [a]) && After(c, run + [a]) == Do(After(c, run), a)
    decreases |run|
  {
    hide WellFormed, Enabled, Guarded, Do;
    if run == [] {
      assert run + [a] == [a] && [a][1..] == [];
    } else {
      assert (run + [a])[1..] == run[1..] + [a];
      GuardedOn(Do(c, run[0]), run[1..], a);
    }
  }

  lemma {:induction false} MovesAreSteps(c: Cluster, o: Office, moves: seq<Move>)
    requires OfficeRun(o, moves, false) && Later(c, o.c)
    ensures Later(c, OfficeAfter(o, moves, false).c)
    decreases |moves|
  {
    hide Later, Do, Enabled, WellFormed, Guarded, Image, DeskAfter, Contiguous;
    if moves != [] {
      if moves[0].Step? {
        LaterOn(c, o.c, moves[0].a);
      }
      MovesAreSteps(c, Make(o, moves[0]), moves[1..]);
    }
  }

  /** The cluster of an office is in a state that it reaches by guarded steps. */
  lemma OfficeCluster(ids: set<NodeId>, o: Office)
    requires ReachableOffice(ids, o, false)
    ensures Safety.Reachable(ids, o.c)
  {
    hide Later, OfficeRun, OfficeAfter, Init;
    LaterRefl(Init(ids));
    var moves :| OfficeRun(Opening(ids), moves, false) && OfficeAfter(Opening(ids), moves, false) == o;
    MovesAreSteps(Init(ids), Opening(ids), moves);
  }

  lemma AgreedFits(c: Cluster, log: Log)
    requires AgreedLog(c, log)
    ensures Fits(c, log) && Full(log)
  {
  }

  lemma StartArises(ids: set<NodeId>, log: Log)
    requires ids != {} && Full(log)
    ensures Arises(ids, log, Start(ids)) && AllRest(Start(ids).s)
  {
    assert Runs(log, Start(ids), [], Start(ids));
  }

  /** Every guarded run of the cluster with its callers is the run of a whole program over the log that
      its members agree on in the end, for any outcomes of the publishes. */
  lemma EveryRunIsWhole(ids: set<NodeId>, o: Office, ok: Outcomes) returns (log: Log, p: Program)
    requires ReachableOffice(ids, o, false)
    ensures AgreedLog(o.c, log) && Arises(ids, log, p) && p.o == o
  {
    hide OfficeRun, OfficeAfter, AgreedLog, Arises, AllRest, Opening, OfficeOk, Fits, Full;
    OfficeCluster(ids, o);
    OneLog(ids, o.c);
    log :| AgreedLog(o.c, log);
    AgreedFits(o.c, log);
    var moves :| OfficeRun(Opening(ids), moves, false) && OfficeAfter(Opening(ids), moves, false) == o;
    StartArises(ids, log);
    OpeningOk(ids);
    p := RunCovered(ids, log, Start(ids), moves, ok);
  }

  // --- And the callers bar none ---

  lemma StepCanMove(o: Office, a: Action)
    requires CanStep(o.c, a) && Guarded(o.c, a) && Forward(o.c, a)
    requires OfficeOk(o)
    ensures CanMove(o, Step(a))
  {
    hide Inv, Ship, Tidy, AskedOk, SentOk, Reported, WaitsOn, Compacted, Contiguous, Full, Guarded;
    StepTaken(o.c, a);
    assert DeskOk(o.c, a.n, o.desks[a.n]);
    FullOf(o.c, a.n);
    CompactedShape(o.c.members[a.n].s.log, o.c.members[a.n].floor);
    hide WellFormed, Enabled;
  }

  lemma {:induction false} StepsAreMoves(ids: set<NodeId>, o: Office, run: seq<Action>) returns (o2: Office)
    requires ReachableOffice(ids, o, false) && GuardedRun(o.c, run) && ForwardRun(o.c, run)
    ensures ReachableOffice(ids, o2, false) && o2.c == After(o.c, run)
    decreases |run|
  {
    hide ReachableOffice, OfficeOk, Do, WellFormed, Enabled, Guarded, Forward, Image, DeskAfter, Contiguous;
    o2 := o;
    if run != [] {
      ReachableOfficeOk(ids, o, false);
      StepCanMove(o, run[0]);
      ReachableNext(ids, o, Step(run[0]));
      o2 := StepsAreMoves(ids, Make(o, Step(run[0])), run[1..]);
    }
  }

  /** Every state of the cluster that guarded forward steps reach is that of an office, and so by
      `EveryRunIsWhole` that of a whole program. */
  lemma ClusterHasOffice(ids: set<NodeId>, c: Cluster) returns (o: Office)
    requires ReachableForward(ids, c)
    ensures ReachableOffice(ids, o, false) && o.c == c
  {
    hide GuardedRun, ForwardRun, Do;
    var run :| GuardedRun(Init(ids), run) && ForwardRun(Init(ids), run) && After(Init(ids), run) == c;
    assert OfficeRun(Opening(ids), [], false) && OfficeAfter(Opening(ids), [], false) == Opening(ids);
    o := StepsAreMoves(ids, Opening(ids), run);
  }
}
