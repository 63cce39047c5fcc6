/** What holds in every run of the apply loops, snapshots and dispatchers, and under which guards. */
module ReplicaRuns {
  import opened RaftTypes
  import opened LogStore
  import opened Dispatch
  import opened Replicas
  import opened Publishing

  /** What a run keeps to: nothing, that these nodes install no snapshot below their commit index, or
      all the guards on all nodes. */
  datatype Guard = Anything | KeepsIndex(nodes: set<NodeId>) | Everything

  predicate Allowed(g: Guard, s: System, a: Action)
    requires a.n in s.replicas
  {
    match g
    case Anything => true
    case KeepsIndex(nodes) => a.n in nodes ==> NotBack(s, a)
    case Everything => Guarded(s, a)
  }

  /** The run leads from `s` to `s2`. */
  predicate Leads(log: Log, g: Guard, s: System, run: seq<Action>, s2: System)
    decreases |run|
  {
    if run == [] then s2 == s
    else Enabled(log, s, run[0]) && Allowed(g, s, run[0]) && Leads(log, g, Do(log, s, run[0]), run[1..], s2)
  }

  ghost predicate Reachable(log: Log, ids: set<NodeId>, g: Guard, s: System) {
    log != [] && log[0] == DUMMY && exists run :: Leads(log, g, Init(ids), run, s)
  }

  lemma {:induction false} LeadsOn(log: Log, g: Guard, s: System, run: seq<Action>, s1: System, a: Action)
    requires Leads(log, g, s, run, s1) && Enabled(log, s1, a) && Allowed(g, s1, a)
    ensures Leads(log, g, s, run + [a], Do(log, s1, a))
    decreases |run|
  {
    hide Enabled, Do, Allowed;
    assert (run + [a])[1..] == if run == [] then [] else run[1..] + [a];
    if run != [] {
      LeadsOn(log, g, Do(log, s, run[0]), run[1..], s1, a);
    }
  }

  lemma ReachableOn(log: Log, ids: set<NodeId>, g: Guard, s: System, a: Action)
    requires Reachable(log, ids, g, s) && Enabled(log, s, a) && Allowed(g, s, a)
    ensures Reachable(log, ids, g, Do(log, s, a))
  {
    hide Leads, Do, Enabled, Allowed, Init;
    var run :| Leads(log, g, Init(ids), run, s);
    LeadsOn(log, g, Init(ids), run, s, a);
  }

  lemma {:induction false} RunIsAny(log: Log, g: Guard, s: System, run: seq<Action>, s2: System)
    requires Leads(log, g, s, run, s2)
    ensures Leads(log, Anything, s, run, s2)
    decreases |run|
  {
    if run != [] {
      RunIsAny(log, g, Do(log, s, run[0]), run[1..], s2);
    }
  }

  lemma AnyRun(log: Log, ids: set<NodeId>, g: Guard, s: System)
    requires Reachable(log, ids, g, s)
    ensures Reachable(log, ids, Anything, s)
  {
    hide Leads, Init;
    var run :| Leads(log, g, Init(ids), run, s);
    RunIsAny(log, g, Init(ids), run, s);
  }

  /** What no guard is needed for. */
  ghost predicate NodeHolds(log: Log, failed: set<string>, r: Replica) {
    Solo(log, failed, r) && Own(log, r) && Accounted(r) && Known(failed, r)
  }

  ghost predicate AllHold(log: Log, s: System) {
    && log != [] && log[0] == DUMMY && Basics(log, s)
    && forall n :: n in s.replicas ==> NodeHolds(log, s.failed, s.replicas[n])
  }

  ghost predicate Ordered(r: Replica) {
    OrderBounds(r) && InOrder(r)
  }

  /** What the runs that keep to `g` have besides. */
  ghost predicate GuardHolds(log: Log, g: Guard, s: System) {
    match g
    case Anything => true
    case KeepsIndex(nodes) => forall n :: n in nodes && n in s.replicas ==> Ordered(s.replicas[n])
    case Everything => Inv(log, s)
  }

  lemma NodeStep(log: Log, s: System, a: Action)
    requires Enabled(log, s, a) && AllHold(log, s)
    ensures NodeHolds(log, Do(log, s, a).failed, Local(log, s, a))
  {
    hide Solo, Own, Accounted, Known, Basics;
    assert NodeHolds(log, s.failed, s.replicas[a.n]);
    SoloKept(log, s, a);
    OwnKept(log, s, a);
    AccountedKept(log, s, a);
    KnownKept(log, s, a);
  }

  lemma OtherStep(log: Log, failed: set<string>, r: Replica, failed': set<string>)
    requires NodeHolds(log, failed, r) && failed <= failed'
    ensures NodeHolds(log, failed', r)
  {
    hide Solo, Own, Accounted;
    MoreFailedSolo(log, failed, r, failed');
  }

  lemma AllStep(log: Log, s: System, a: Action)
    requires Enabled(log, s, a) && AllHold(log, s)
    ensures AllHold(log, Do(log, s, a))
  {
    BasicKept(log, s, a);
    NodeStep(log, s, a);
    hide NodeHolds, Basics, Local;
    var s' := Do(log, s, a);
    forall n | n in s'.replicas
      ensures NodeHolds(log, s'.failed, s'.replicas[n])
    {
      if n != a.n {
        OtherStep(log, s.failed, s.replicas[n], s'.failed);
      }
    }
  }

  lemma GuardStep(log: Log, g: Guard, s: System, a: Action)
    requires Enabled(log, s, a) && Allowed(g, s, a) && Basics(log, s) && GuardHolds(log, g, s)
    ensures GuardHolds(log, g, Do(log, s, a))
  {
    hide Inv, Basics, OrderBounds, InOrder, Local;
    match g
    case Anything =>
    case KeepsIndex(nodes) =>
      if a.n in nodes {
        assert Ordered(s.replicas[a.n]);
        OrderBoundsKept(log, s, a);
        InOrderKept(log, s, a);
      }
    case Everything => StepKeeps(log, s, a);
  }

  lemma {:induction false} RunKeeps(log: Log, g: Guard, s: System, run: seq<Action>, s2: System)
    requires Leads(log, g, s, run, s2) && AllHold(log, s) && GuardHolds(log, g, s)
    ensures AllHold(log, s2) && GuardHolds(log, g, s2)
    decreases |run|
  {
    if run != [] {
      assert AllHold(log, s) ==> Basics(log, s);
      hide GuardHolds, AllHold, Enabled, Allowed, Do, Basics;
      AllStep(log, s, run[0]);
      GuardStep(log, g, s, run[0]);
      RunKeeps(log, g, Do(log, s, run[0]), run[1..], s2);
    }
  }

  lemma InitOk(log: Log, ids: set<NodeId>, g: Guard)
    requires log != [] && log[0] == DUMMY
    ensures AllHold(log, Init(ids)) && GuardHolds(log, g, Init(ids))
  {
  }

  lemma ReachableOk(log: Log, ids: set<NodeId>, g: Guard, s: System)
    requires Reachable(log, ids, g, s)
    ensures AllHold(log, s) && GuardHolds(log, g, s) && Basics(log, s)
  {
    var run :| Leads(log, g, Init(ids), run, s);
    InitOk(log, ids, g);
    hide GuardHolds, Leads, Init;
    RunKeeps(log, g, Init(ids), run, s);
  }

  // --- The apply loop ---

  /** In-order apply, if only this node installs no snapshot below its commit index: the indices
      handed to the state machine strictly increase, and an index up to lastApplied that was passed
      over is covered by an installed snapshot. */
  lemma InOrderApply(log: Log, ids: set<NodeId>, s: System, n: NodeId)
    requires Reachable(log, ids, KeepsIndex({n}), s) && n in s.replicas
    ensures var r := s.replicas[n];
            && (forall j, k :: 0 <= j < k < |r.picks| ==> r.picks[j] < r.picks[k])
            && (forall k :: 1 <= k <= r.applied ==> k in r.picks || k <= r.installed)
            && r.applied <= r.commit < |log| && r.first <= r.commit
  {
    ReachableOk(log, ids, KeepsIndex({n}), s);
    assert Ordered(s.replicas[n]);
    assert Basic(log, s.replicas[n]);
    hide AllHold, Leads;
  }

  /** raft/node.go:688-699 compares a snapshot only with the first index. From any such state the
      install keeps the apply order exactly if the snapshot is not below lastApplied. */
  lemma InstallOrderExact(log: Log, ids: set<NodeId>, s: System, n: NodeId, snap: Snap)
    requires Reachable(log, ids, KeepsIndex({n}), s) && n in s.replicas && Installs(s.replicas[n], snap)
    ensures InOrder(DoInstall(s.replicas[n], snap)) <==> s.replicas[n].applied <= snap.index
  {
    ReachableOk(log, ids, KeepsIndex({n}), s);
    assert Ordered(s.replicas[n]);
    hide AllHold, Leads, Basics;
    var r := s.replicas[n];
    if r.applied > snap.index {
      assert r.applied in r.picks;
    }
  }

  // --- The data ---

  // This and the next two are about runs in which no node picks an entry or installs a snapshot between
  // an install and its Restore, and no Restore fails.

  /** Snapshot plus tail refines full replay, on every node: but for tasks of which a publish failed,
      the dispatched set has every task of the log up to the node's position, and only tasks of the log
      up to `upTo`. Without failures, once the position has passed `upTo` it is what a replay of the
      whole log gives. */
  lemma ReplicasConverge(log: Log, ids: set<NodeId>, s: System, n: NodeId)
    requires Reachable(log, ids, Everything, s) && n in s.replicas && s.replicas[n].restoring == {}
    ensures var r := s.replicas[n];
            && Reach(r) <= r.upTo < |log| && Tasks(log, Reach(r)) - s.failed <= r.dispatched <= Tasks(log, r.upTo)
            && (s.failed == {} && Reach(r) == r.upTo ==> r.dispatched == Replay({}, log, 0, r.upTo))
  {
    hide HistoryOk, InOrder, AllHold, Basics, HeldOk;
    ReachableOk(log, ids, Everything, s);
    assert ReplicaOk(log, s.failed, s.replicas[n]);
    ReplayAdds({}, log, 0, s.replicas[n].upTo);
  }

  /** A snapshot that any node saves holds every task up to its label, but for failed ones. */
  lemma SnapshotsAreComplete(log: Log, ids: set<NodeId>, s: System, snap: Snap)
    requires Reachable(log, ids, Everything, s) && snap in s.snaps
    ensures 1 <= snap.index <= snap.upTo < |log|
    ensures Tasks(log, snap.index) - s.failed <= snap.data <= Tasks(log, snap.upTo)
  {
    ReachableOk(log, ids, Everything, s);
    hide AllHold, Basics;
    assert AllHonest(log, s);
  }

  /** No task is treated as new twice on a node, and none is published twice by it, unless one of
      its publishes failed somewhere. */
  lemma NewOnce(log: Log, ids: set<NodeId>, s: System, n: NodeId, j: nat, k: nat)
    requires Reachable(log, ids, Everything, s) && n in s.replicas && j < k
    ensures var r := s.replicas[n];
            && (k < |r.marks| && r.marks[j].task == r.marks[k].task ==> r.marks[j].task in s.failed)
            && (k < |r.published| && r.published[j] == r.published[k] ==> r.published[j] in s.failed)
  {
    hide DataOk, InOrder, AllHold, Basics, HeldOk;
    ReachableOk(log, ids, Everything, s);
    assert ReplicaOk(log, s.failed, s.replicas[n]);
  }

  lemma SoloOf(log: Log, ids: set<NodeId>, g: Guard, s: System, n: NodeId)
    requires Reachable(log, ids, g, s) && n in s.replicas
    ensures NodeHolds(log, s.failed, s.replicas[n])
  {
    ReachableOk(log, ids, g, s);
  }

  /** Two nodes that have applied the same entries and installed no snapshot differ only in tasks of
      which a publish failed, whatever happens on other nodes. */
  lemma SameUpToFailures(log: Log, ids: set<NodeId>, s: System, n: NodeId, p: NodeId)
    requires Reachable(log, ids, Anything, s) && n in s.replicas && p in s.replicas
    requires s.replicas[n].installed == 0 && s.replicas[p].installed == 0
    requires s.replicas[n].pick.None? && s.replicas[p].pick.None? && Reach(s.replicas[n]) == Reach(s.replicas[p])
    ensures s.replicas[n].dispatched - s.failed == s.replicas[p].dispatched - s.failed
  {
    hide HistoryOk, InOrder, Own, Accounted, Known;
    SoloOf(log, ids, Anything, s, n);
    SoloOf(log, ids, Anything, s, p);
  }

  // --- Restore ---

  /** raft/node.go:712-720 restores the data after the mutex is released. The apply loop may have
      gone on meanwhile; the node then holds all it has reached exactly if every task of an entry
      beyond the label is in the snapshot's data, which may go beyond its label, or has failed. */
  lemma RestoreExact(log: Log, ids: set<NodeId>, s: System, n: NodeId, snap: Snap)
    requires Reachable(log, ids, Anything, s) && AllHonest(log, s)
    requires Enabled(log, s, Restore(n, snap))
    ensures var k, s' := Reach(s.replicas[n]), Do(log, s, Restore(n, snap));
            && Reach(s'.replicas[n]) == k < |log|
            && (Holds(log, s'.replicas[n].dispatched, s'.failed, k) <==>
                forall i :: snap.index < i <= k ==> TaskSet(TaskOf(log[i].command)) <= snap.data + s.failed)
  {
    ReachableOk(log, ids, Anything, s);
    hide AllHold, Leads, Tasks;
    assert Basic(log, s.replicas[n]) && snap in s.snaps;
    assert Honest(log, s.failed, snap);
    var k := Reach(s.replicas[n]);
    if k <= snap.index {
      HoldsLess(log, snap.data, s.failed, snap.index, k);
    } else {
      HoldsBeyond(log, snap.data, s.failed, snap.index, k);
    }
  }

  /** A snapshot at or below the first index is answered with success and not restored. The answer
      is true exactly if every task of an entry after `held` up to the snapshot is there or has
      failed, and it is true whenever no Restore is pending. So it may be false only for a repeat
      before the Restore has ended; and if that Restore then fails, it stays as it was. */
  lemma RepeatTruthful(log: Log, ids: set<NodeId>, s: System, n: NodeId, snap: Snap)
    requires Reachable(log, ids, Everything, s) && n in s.replicas && snap in s.snaps
    requires !Installs(s.replicas[n], snap)
    ensures var r := s.replicas[n];
            && r.held < |log| && snap.index < |log| && DoInstall(r, snap) == r
            && (Holds(log, r.dispatched, s.failed, snap.index) <==>
                forall i :: r.held < i <= snap.index ==> TaskSet(TaskOf(log[i].command)) <= r.dispatched + s.failed)
            && (r.restoring == {} ==> Holds(log, r.dispatched, s.failed, snap.index))
    ensures forall pending :: pending in s.replicas[n].restoring ==>
              var r' := Local(log, s, RestoreFails(n, pending));
              r'.dispatched == s.replicas[n].dispatched && DoInstall(r', snap) == r'
  {
    hide HistoryOk, InOrder, DataOk, Tasks, OrderBounds, WindowOk, NodeHolds, Leads;
    ReachableOk(log, ids, Everything, s);
    var r, k := s.replicas[n], snap.index;
    assert ReplicaOk(log, s.failed, r) && Basic(log, r) && SnapBasic(log, snap);
    if k <= r.held {
      HoldsLess(log, r.dispatched, s.failed, r.held, k);
    } else {
      HoldsBeyond(log, r.dispatched, s.failed, r.held, k);
    }
  }

  /** The answer to a snapshot that is installed comes after its Restore, and is true. */
  lemma FirstAnswerTruthful(log: Log, ids: set<NodeId>, s: System, n: NodeId, snap: Snap)
    requires Reachable(log, ids, Everything, s) && Enabled(log, s, Restore(n, snap))
    ensures var s' := Do(log, s, Restore(n, snap));
            && Holds(log, s'.replicas[n].dispatched, s'.failed, snap.index)
            && Holds(log, s'.replicas[n].dispatched, s'.failed, Reach(s'.replicas[n]))
  {
    hide HistoryOk, InOrder, Tasks, NodeHolds, Leads, Basics;
    ReachableOk(log, ids, Everything, s);
    assert ReplicaOk(log, s.failed, s.replicas[n]);
  }

  // --- Publishing ---

  /** Dispatch bound: a node that never installed a snapshot publishes a task at most once, whatever
      the leadership flags, the outcomes of its publishes and the other nodes. */
  lemma PublishedOnce(log: Log, ids: set<NodeId>, s: System, n: NodeId, j: nat, k: nat)
    requires Reachable(log, ids, Anything, s) && n in s.replicas && s.replicas[n].installed == 0
    requires j < k < |s.replicas[n].published|
    ensures s.replicas[n].published[j] != s.replicas[n].published[k]
  {
    hide DataOk, InOrder, MarksOk, PublishesOk, Own, Accounted, Known;
    SoloOf(log, ids, Anything, s, n);
  }

  lemma {:induction false} LedHas(marks: seq<Fresh>, task: string)
    ensures task in Led(marks) <==> Fresh(task, true) in marks
  {
    if marks != [] {
      var k := |marks| - 1;
      LedHas(marks[..k], task);
      assert marks == marks[..k] + [marks[k]];
    }
  }

  lemma CountsOf(r: Replica, task: string)
    requires Accounted(r)
    ensures Led(Settled(r))[task] == multiset(r.published)[task] + multiset(r.failures)[task]
    ensures Fresh(task, true) in Settled(r) <==> Led(Settled(r))[task] > 0
    ensures task in r.published <==> multiset(r.published)[task] > 0
    ensures task in r.failures <==> multiset(r.failures)[task] > 0
  {
    hide Led;
    LedHas(Settled(r), task);
  }

  lemma Twice(marks: seq<Fresh>, task: string)
    ensures Fresh(task, true) in marks && Fresh(task, false) in marks ==>
              exists j, k :: 0 <= j < k < |marks| && marks[j].task == task && marks[k].task == task
  {
    if Fresh(task, true) in marks && Fresh(task, false) in marks {
      var j :| 0 <= j < |marks| && marks[j] == Fresh(task, true);
      var k :| 0 <= k < |marks| && marks[k] == Fresh(task, false);
      assert marks[if j < k then j else k].task == task && marks[if j < k then k else j].task == task;
    }
  }

  /** A node publishes a task only if it led when it treated the task as new; so unless a publish
      of the task failed, only if it led when it first applied it. */
  lemma PublisherLedFirst(log: Log, ids: set<NodeId>, g: Guard, s: System, n: NodeId, task: string)
    requires Reachable(log, ids, g, s) && n in s.replicas && task in s.replicas[n].published
    ensures Fresh(task, true) in s.replicas[n].marks
    ensures (g.Everything? || s.replicas[n].installed == 0) && task !in s.failed ==>
              Fresh(task, false) !in s.replicas[n].marks
  {
    var r := s.replicas[n];
    ReachableOk(log, ids, g, s);
    SoloOf(log, ids, g, s, n);
    hide Leads, AllHold, Basics, DataOk, InOrder, DispatchBound, Own, Led, HeldOk;
    CountsOf(r, task);
    assert Fresh(task, true) in r.marks;
    Twice(r.marks, task);
    assert g.Everything? ==> ReplicaOk(log, s.failed, r);
  }

  /** In every run a node has published a task exactly if it led more often when it treated the task
      as new than its publish of it failed. */
  lemma PublishedExactly(log: Log, ids: set<NodeId>, s: System, n: NodeId, task: string)
    requires Reachable(log, ids, Anything, s) && n in s.replicas
    ensures var r := s.replicas[n];
            task in r.published <==> Led(Settled(r))[task] > multiset(r.failures)[task]
  {
    hide Led;
    SoloOf(log, ids, Anything, s, n);
    CountsOf(s.replicas[n], task);
  }

  /** A node without snapshots treats each task it applies as new, and only once unless its publish
      failed. So what it has done about the task depends on its role at that one moment. */
  lemma TreatedExactlyOnce(log: Log, ids: set<NodeId>, s: System, n: NodeId, task: string)
    requires Reachable(log, ids, Anything, s) && n in s.replicas && s.replicas[n].installed == 0
    requires task in Treated(s.replicas[n].marks) && task !in s.replicas[n].failures && !IsPublishing(s.replicas[n])
    ensures task in s.replicas[n].published <==> Fresh(task, true) in s.replicas[n].marks
    ensures task in s.replicas[n].published <==> Fresh(task, false) !in s.replicas[n].marks
  {
    var r := s.replicas[n];
    SoloOf(log, ids, Anything, s, n);
    hide Leads, AllHold, Solo, Led, TreatedAll;
    CountsOf(r, task);
    var m :| m in r.marks && m.task == task;
    assert m == Fresh(task, m.leader);
    Twice(r.marks, task);
  }

  /** Treated or not, it has published the task exactly if it led on treating it as new. */
  lemma TreatedIff(log: Log, ids: set<NodeId>, s: System, n: NodeId, task: string)
    requires Reachable(log, ids, Anything, s) && n in s.replicas
    requires task !in s.replicas[n].failures && !IsPublishing(s.replicas[n])
    ensures task in s.replicas[n].published <==> Fresh(task, true) in s.replicas[n].marks
  {
    SoloOf(log, ids, Anything, s, n);
    hide Leads, AllHold, Solo, Led, Own;
    CountsOf(s.replicas[n], task);
  }

  lemma AppliedIsTreated(log: Log, ids: set<NodeId>, s: System, n: NodeId)
    requires Reachable(log, ids, Anything, s) && n in s.replicas && s.replicas[n].installed == 0
    ensures var r := s.replicas[n];
            Reach(r) < |log| && Tasks(log, Reach(r)) <= Treated(r.marks)
  {
    SoloOf(log, ids, Anything, s, n);
    hide Solo, TreatedOnce;
  }

  /** A task that every node has applied is published by no node exactly if every node followed when
      it first applied it (no snapshot, no failed publish). */
  lemma {:induction false} NobodyPublishesExact(log: Log, ids: set<NodeId>, s: System, task: string)
    requires Reachable(log, ids, Anything, s) && task !in s.failed
    requires forall n :: n in s.replicas ==>
               var r := s.replicas[n];
               r.installed == 0 && !IsPublishing(r) && Reach(r) < |log| && task in Tasks(log, Reach(r))
    ensures (forall n :: n in s.replicas ==> task !in s.replicas[n].published) <==>
            (forall n :: n in s.replicas ==> Fresh(task, false) in s.replicas[n].marks)
  {
    hide Tasks, Leads;
    forall n | n in s.replicas
      ensures task in s.replicas[n].published <==> Fresh(task, false) !in s.replicas[n].marks
    {
      AppliedIsTreated(log, ids, s, n);
      SoloOf(log, ids, Anything, s, n);
      TreatedExactlyOnce(log, ids, s, n, task);
    }
  }
}
