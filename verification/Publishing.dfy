/** Which node publishes a task, in any run (raft/dispatcher.go:109-155). */
module Publishing {
  import opened RaftTypes
  import opened Dispatch
  import opened Replicas

  /** The tasks of the marks made while leading. */
  function Led(marks: seq<Fresh>): multiset<string> {
    if marks == [] then multiset{}
    else
      var k := |marks| - 1;
      Led(marks[..k]) + if marks[k].leader then multiset{marks[k].task} else multiset{}
  }

  /** Every mark made while leading ends in a publish or in a failure, once its publish is over. */
  ghost predicate Accounted(r: Replica) {
    && (IsPublishing(r) ==> r.marks != [] && r.marks[|r.marks| - 1] == Fresh(r.pick.value.stage.task, true))
    && Led(Settled(r)) == multiset(r.published) + multiset(r.failures)
  }

  ghost predicate Known(failed: set<string>, r: Replica) {
    forall task :: task in r.failures ==> task in failed
  }

  function Treated(marks: seq<Fresh>): set<string> {
    set m | m in marks :: m.task
  }

  /** A task is treated as new again only if its publish on this node has failed. */
  ghost predicate TreatedOnce(r: Replica) {
    && (forall m :: m in r.marks ==> m.task in r.dispatched || m.task in r.failures)
    && (forall j, k :: 0 <= j < k < |r.marks| && r.marks[j].task == r.marks[k].task ==> r.marks[j].task in r.failures)
  }

  /** Every task that the node has applied it has treated as new at some time. */
  ghost predicate TreatedAll(log: Log, r: Replica) {
    && r.dispatched <= Treated(r.marks)
    && Holds(log, Treated(r.marks), {}, Reach(r))
    && (r.pick.Some? && r.pick.value.stage != Picked ==> Holds(log, Treated(r.marks), {}, r.pick.value.index))
  }

  /** Both hold on a node on which no snapshot was installed. */
  ghost predicate Own(log: Log, r: Replica) {
    r.installed == 0 ==> TreatedOnce(r) && TreatedAll(log, r)
  }

  lemma LedPush(marks: seq<Fresh>, m: Fresh)
    ensures Led(marks + [m]) == Led(marks) + if m.leader then multiset{m.task} else multiset{}
    ensures (marks + [m])[..|marks|] == marks
  {
  }

  lemma MarkAccounted(log: Log, r: Replica, leader: bool)
    requires r.pick.Some? && r.pick.value.index < |log| && r.pick.value.stage == Picked && Accounted(r)
    ensures Accounted(DoMark(log, r, leader))
  {
    hide Led, Mark;
    var task := NewTask(r.dispatched, log[r.pick.value.index].command);
    if task.Some? {
      LedPush(r.marks, Fresh(task.value, leader));
    }
    assert Settled(DoMark(log, r, leader)) ==
           if task.Some? && !leader then r.marks + [Fresh(task.value, leader)] else r.marks;
  }

  lemma PublishAccounted(r: Replica, ok: bool)
    requires IsPublishing(r) && Accounted(r)
    ensures Accounted(DoPublish(r, ok))
  {
    hide Led;
    var k := |r.marks| - 1;
    LedPush(r.marks[..k], r.marks[k]);
    assert r.marks[..k] + [r.marks[k]] == r.marks;
  }

  /** Nothing else touches the marks or the outcomes of publishes. */
  lemma AccountedFrame(r: Replica, r': Replica)
    requires Accounted(r)
    requires r'.marks == r.marks && r'.published == r.published && r'.failures == r.failures
    requires if IsPublishing(r) then r'.pick == r.pick else !IsPublishing(r')
    ensures Accounted(r')
  {
    hide Led;
  }

  lemma AccountedKept(log: Log, s: System, a: Action)
    requires Enabled(log, s, a) && Accounted(s.replicas[a.n])
    ensures Accounted(Local(log, s, a))
  {
    hide Accounted, Led, DoMark, DoPublish;
    var r := s.replicas[a.n];
    match a
    case MarkTask(n, leader) => MarkAccounted(log, r, leader);
    case Publish(n, ok) => PublishAccounted(r, ok);
    case _ => AccountedFrame(r, Local(log, s, a));
  }

  lemma KnownKept(log: Log, s: System, a: Action)
    requires Enabled(log, s, a) && Known(s.failed, s.replicas[a.n])
    ensures Known(Do(log, s, a).failed, Local(log, s, a))
  {
  }

  lemma TreatedPush(marks: seq<Fresh>, m: Fresh)
    ensures Treated(marks + [m]) == Treated(marks) + {m.task}
  {
    var marks' := marks + [m];
    assert marks'[|marks|] == m;
    forall x | x in marks
      ensures x in marks'
    {
    }
  }

  lemma MarkOnce(log: Log, r: Replica, leader: bool)
    requires r.pick.Some? && r.pick.value.index < |log| && TreatedOnce(r)
    ensures TreatedOnce(DoMark(log, r, leader))
  {
    var task := NewTask(r.dispatched, log[r.pick.value.index].command);
    if task.Some? {
      forall j | 0 <= j < |r.marks| && r.marks[j].task == task.value
        ensures task.value in r.failures
      {
        assert r.marks[j] in r.marks;
      }
    }
  }

  lemma MarkAll(log: Log, r: Replica, leader: bool)
    requires r.pick.Some? && 1 <= r.pick.value.index < |log| && r.pick.value.stage == Picked
    requires OrderBounds(r) && TreatedAll(log, r)
    ensures TreatedAll(log, DoMark(log, r, leader))
  {
    var i, r' := r.pick.value.index, DoMark(log, r, leader);
    var task := NewTask(r.dispatched, log[i].command);
    if task.Some? {
      TreatedPush(r.marks, Fresh(task.value, leader));
    }
    var all := Treated(r'.marks);
    hide Treated, Tasks;
    assert Treated(r.marks) <= all && TaskSet(TaskOf(log[i].command)) <= all;
    HoldsMore(log, Treated(r.marks), {}, Reach(r), all, {});
    if i <= Reach(r) {
      HoldsLess(log, all, {}, Reach(r), i);
    } else {
      HoldsBeyond(log, all, {}, Reach(r), i);
    }
  }

  lemma PublishOwn(log: Log, r: Replica, ok: bool)
    requires IsPublishing(r) && TreatedOnce(r) && TreatedAll(log, r)
    ensures TreatedOnce(DoPublish(r, ok)) && TreatedAll(log, DoPublish(r, ok))
  {
    hide Treated, Holds;
  }

  lemma QuietOwn(log: Log, s: System, a: Action)
    requires Enabled(log, s, a) && !a.MarkTask? && !a.Publish? && !a.Restore? && !a.Install?
    requires Basics(log, s) && OrderBounds(s.replicas[a.n])
    requires TreatedOnce(s.replicas[a.n]) && TreatedAll(log, s.replicas[a.n])
    ensures TreatedOnce(Local(log, s, a)) && TreatedAll(log, Local(log, s, a))
  {
  }

  lemma OwnKept(log: Log, s: System, a: Action)
    requires Enabled(log, s, a) && Basics(log, s)
    requires Solo(log, s.failed, s.replicas[a.n]) && Own(log, s.replicas[a.n])
    ensures Own(log, Local(log, s, a))
  {
    hide TreatedOnce, TreatedAll, InOrder, DataOk, HistoryOk, OrderBounds;
    var r := s.replicas[a.n];
    if r.installed == 0 && !(a.Install? && Installs(r, a.snap)) {
      BoundsOrder(log, r);
      match a
      case MarkTask(n, leader) =>
        MarkOnce(log, r, leader);
        MarkAll(log, r, leader);
      case Publish(n, ok) => PublishOwn(log, r, ok);
      case Install(n, snap) =>
      case _ => QuietOwn(log, s, a);
    } else {
      assert a.Install? ==> SnapBasic(log, a.snap);
    }
  }
}
