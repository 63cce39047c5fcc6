/** Runs of the apply loops, snapshots and dispatchers in which a promise of the program fails. */
module ReplicaWitness {
  import opened RaftTypes
  import opened LogStore
  import opened Dispatch
  import opened Replicas
  import opened ReplicaRuns

  /** A run that keeps to all the guards is a run of every kind. */
  lemma {:induction false} Weaken(log: Log, g: Guard, s: System, run: seq<Action>, s1: System)
    requires Leads(log, Everything, s, run, s1)
    ensures Leads(log, g, s, run, s1)
    decreases |run|
  {
    if run != [] {
      Weaken(log, g, Do(log, s, run[0]), run[1..], s1);
    }
  }

  const TWO_TASKS :=
    [DUMMY, LogEntry(1, 1, Command.Dispatch("a", 0, "k")), LogEntry(1, 2, Command.Dispatch("b", 0, "k"))]

  const LABEL_1 := Snap(1, {"a"}, 1)
  const LABEL_2 := Snap(2, {"a", "b"}, 2)

  lemma Extend(g: Guard, run: seq<Action>, s1: System, a: Action) returns (run': seq<Action>, s2: System)
    requires Leads(TWO_TASKS, g, Init({1, 2}), run, s1) && Enabled(TWO_TASKS, s1, a) && Allowed(g, s1, a)
    ensures Leads(TWO_TASKS, g, Init({1, 2}), run', s2) && s2 == Do(TWO_TASKS, s1, a)
  {
    LeadsOn(TWO_TASKS, g, Init({1, 2}), run, s1, a);
    run', s2 := run + [a], Do(TWO_TASKS, s1, a);
  }

  /** Node `n` picks the next entry. */
  lemma Picks(n: NodeId, k: nat, run0: seq<Action>, s0: System) returns (run: seq<Action>, s: System)
    requires Leads(TWO_TASKS, Everything, Init({1, 2}), run0, s0) && n in s0.replicas
    requires var r := s0.replicas[n];
             r.first == 0 && r.commit + 1 == k <= 2 && r.applied + 1 == k && r.pick.None? && r.restoring == {}
    ensures Leads(TWO_TASKS, Everything, Init({1, 2}), run, s)
    ensures var r := s0.replicas[n];
            var r' := r.(commit := k, pick := Some(Pick(k, Picked)), picks := r.picks + [k]);
            s == s0.(replicas := s0.replicas[n := r'])
  {
    hide Leads;
    run, s := Extend(Everything, run0, s0, Commit(n, k));
    run, s := Extend(Everything, run, s, PickNext(n));
  }

  /** Node `n` applies the next entry while it follows. */
  lemma Applies(n: NodeId, k: nat, task: string, run0: seq<Action>, s0: System) returns (run: seq<Action>, s: System)
    requires Leads(TWO_TASKS, Everything, Init({1, 2}), run0, s0) && n in s0.replicas
    requires 1 <= k <= 2 && TaskOf(TWO_TASKS[k].command) == Some(task)
    requires var r := s0.replicas[n];
             && r.first == 0 && r.commit + 1 == k && r.applied + 1 == k && r.held + 1 == k && r.upTo + 1 == k
             && r.pick.None? && r.restoring == {} && task !in r.dispatched
    ensures Leads(TWO_TASKS, Everything, Init({1, 2}), run, s)
    ensures var r := s0.replicas[n];
            var r' := r.(commit := k, applied := k, held := k, upTo := k, picks := r.picks + [k],
                         dispatched := r.dispatched + {task}, marks := r.marks + [Fresh(task, false)]);
            s == s0.(replicas := s0.replicas[n := r'])
  {
    hide Leads;
    run, s := Picks(n, k, run0, s0);
    run, s := Extend(Everything, run, s, MarkTask(n, false));
    run, s := Extend(Everything, run, s, Bump(n, None));
    assert s.replicas[n].pick == None;
  }

  lemma Start() returns (run: seq<Action>, s: System)
    ensures Leads(TWO_TASKS, Everything, Init({1, 2}), run, s) && s == Init({1, 2})
  {
    run, s := [], Init({1, 2});
  }

  /** Node `n` saves a snapshot of all it has applied. */
  lemma Saves(n: NodeId, run0: seq<Action>, s0: System) returns (run: seq<Action>, s: System)
    requires Leads(TWO_TASKS, Everything, Init({1, 2}), run0, s0) && n in s0.replicas
    requires s0.replicas[n].capture.None? && s0.replicas[n].taken.None? && s0.replicas[n].applied > s0.replicas[n].first
    ensures Leads(TWO_TASKS, Everything, Init({1, 2}), run, s)
    ensures var r := s0.replicas[n];
            var snap := Snap(r.applied, r.dispatched, r.upTo);
            s == s0.(replicas := s0.replicas[n := r.(first := r.applied, cached := Some(snap))],
                snaps := s0.snaps + {snap})
  {
    hide Leads;
    run, s := Extend(Everything, run0, s0, Capture(n));
    run, s := Extend(Everything, run, s, Serialize(n));
    run, s := Extend(Everything, run, s, FinishSnapshot(n));
    assert s.replicas[n].capture == None;
  }

  /** Node 1 saves a snapshot of entry 1, and node 2 has installed it but not restored it. */
  lemma InWindow() returns (run: seq<Action>, s: System)
    ensures Leads(TWO_TASKS, Everything, Init({1, 2}), run, s) && s.replicas.Keys == {1, 2} && s.failed == {}
    ensures LABEL_1 in s.snaps
    ensures var r := s.replicas[2];
            && r.first == 1 && r.commit == 1 && r.applied == 1 && r.restoring == {LABEL_1} && r.pick.None?
            && r.dispatched == {} && r.held == 0 && r.upTo == 0
  {
    hide Leads;
    run, s := Start();
    run, s := Applies(1, 1, "a", run, s);
    assert s.replicas[1].dispatched == {"a"};
    run, s := Saves(1, run, s);
    run, s := Extend(Everything, run, s, Install(2, LABEL_1));
  }

  /** Without the guard on the apply loop a task is lost: node 2 applies entry 2 before the restore,
      and the restore then forgets that entry's task, although nothing failed and lastApplied says
      it was applied. */
  lemma RestoreLosesTask() returns (run: seq<Action>, s: System)
    ensures Leads(TWO_TASKS, Anything, Init({1, 2}), run, s)
    ensures 2 in s.replicas && s.replicas[2].restoring == {} && s.replicas[2].applied == 2 && s.failed == {}
    ensures "b" in Tasks(TWO_TASKS, 2) && "b" !in s.replicas[2].dispatched
  {
    hide Leads;
    run, s := InWindow();
    Weaken(TWO_TASKS, Anything, Init({1, 2}), run, s);
    run, s := Extend(Anything, run, s, Commit(2, 2));
    run, s := Extend(Anything, run, s, PickNext(2));
    run, s := Extend(Anything, run, s, MarkTask(2, false));
    run, s := Extend(Anything, run, s, Bump(2, None));
    run, s := Extend(Anything, run, s, Restore(2, LABEL_1));
  }

  /** A success that is not true: the snapshot comes again before its Restore has ended, and is
      ignored, while the node does not hold what is in it. */
  lemma RepeatIsUntrue() returns (run: seq<Action>, s: System)
    ensures Leads(TWO_TASKS, Everything, Init({1, 2}), run, s) && s.replicas.Keys == {1, 2}
    ensures LABEL_1 in s.snaps && !Installs(s.replicas[2], LABEL_1) &&
            DoInstall(s.replicas[2], LABEL_1) == s.replicas[2]
    ensures !Holds(TWO_TASKS, s.replicas[2].dispatched, s.failed, LABEL_1.index)
  {
    run, s := InWindow();
    assert "a" in Tasks(TWO_TASKS, 1);
  }

  /** And if that Restore fails, each later repeat is a success that is not true. */
  lemma FailedRestoreStays() returns (run: seq<Action>, s: System)
    ensures Leads(TWO_TASKS, Anything, Init({1, 2}), run, s) && s.replicas.Keys == {1, 2} &&
            s.replicas[2].restoring == {}
    ensures LABEL_1 in s.snaps && !Installs(s.replicas[2], LABEL_1) &&
            DoInstall(s.replicas[2], LABEL_1) == s.replicas[2]
    ensures !Holds(TWO_TASKS, s.replicas[2].dispatched, s.failed, LABEL_1.index)
  {
    hide Leads;
    run, s := InWindow();
    Weaken(TWO_TASKS, Anything, Init({1, 2}), run, s);
    run, s := Extend(Anything, run, s, RestoreFails(2, LABEL_1));
    assert "a" in Tasks(TWO_TASKS, 1);
  }

  /** A message that is acknowledged although the publish of its task has failed, so that neither
      the queue nor the node has the task any more. */
  lemma AckedButLost() returns (run: seq<Action>, s: System)
    ensures Leads(TWO_TASKS, Everything, Init({1, 2}), run, s) && s.replicas.Keys == {1, 2}
    ensures "a" in s.replicas[1].acks && s.replicas[1].dispatched == {} && s.replicas[1].published == []
    ensures s.replicas[1].applied == 1
  {
    hide Leads;
    run, s := Start();
    run, s := Picks(1, 1, run, s);
    run, s := Extend(Everything, run, s, MarkTask(1, true));
    assert s.replicas[1].dispatched == {"a"};
    run, s := Extend(Everything, run, s, Publish(1, false));
    assert s.replicas[1].dispatched == {};
    run, s := Extend(Everything, run, s, Bump(1, Some("a")));
  }

  /** Node 2 saves a snapshot with index 2. */
  lemma SecondSnapshot() returns (run: seq<Action>, s: System)
    ensures Leads(TWO_TASKS, Everything, Init({1, 2}), run, s) && s.replicas.Keys == {1, 2}
    ensures LABEL_2 in s.snaps && s.replicas[1] == START
  {
    hide Leads;
    run, s := Start();
    run, s := Applies(2, 1, "a", run, s);
    run, s := Applies(2, 2, "b", run, s);
    assert s.replicas[2].dispatched == {"a", "b"};
    run, s := Saves(2, run, s);
  }

  /** Node 1 has serialized a snapshot with label 1. */
  lemma FirstSerialized() returns (run: seq<Action>, s: System)
    ensures Leads(TWO_TASKS, Everything, Init({1, 2}), run, s) && s.replicas.Keys == {1, 2} && LABEL_2 in s.snaps
    ensures var r := s.replicas[1];
            && r.first == 0 && r.commit == 1 && r.capture == Some(1) && r.taken == Some(LABEL_1) && r.restoring == {}
            && r.pick == None
  {
    hide Leads;
    run, s := SecondSnapshot();
    run, s := Applies(1, 1, "a", run, s);
    assert s.replicas[1].dispatched == {"a"};
    run, s := Extend(Everything, run, s, Capture(1));
    run, s := Extend(Everything, run, s, Serialize(1));
  }

  /** A snapshot cached below the first index: a TakeSnapshot with label 1 ends after a snapshot with
      index 2 was installed. */
  lemma CacheBelowFloor() returns (run: seq<Action>, s: System)
    ensures Leads(TWO_TASKS, Everything, Init({1, 2}), run, s) && s.replicas.Keys == {1, 2}
    ensures s.replicas[1].first == 2 && s.replicas[1].cached == Some(LABEL_1) && s.replicas[1].restoring == {}
  {
    hide Leads, Init;
    run, s := FirstSerialized();
    run, s := Extend(Everything, run, s, Install(1, LABEL_2));
    run, s := Extend(Everything, run, s, Restore(1, LABEL_2));
    run, s := Extend(Everything, run, s, FinishSnapshot(1));
  }
}
