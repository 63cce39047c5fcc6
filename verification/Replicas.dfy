/** The apply loop, snapshots and the dispatcher on every node, over the log that the cluster has
    agreed on (raft/node.go:666-729 and 824-872, raft/snapshot.go:103-150).

    A step is what happens between two points where a mutex is released, so that TakeSnapshot has
    three steps, applying an entry three or four, and installing a snapshot two. */
module Replicas {
  import opened RaftTypes
  import opened LogStore
  import opened Dispatch

  /** `upTo` bounds the entries whose tasks may be in the data; it may be beyond the label. */
  datatype Snap = Snap(index: nat, data: set<string>, upTo: nat)

  /** How far the apply loop is with the entry it has picked. */
  datatype Stage = Picked | Publishing(task: string) | Finished

  datatype Pick = Pick(index: nat, stage: Stage)

  /** A task treated as new, and whether the node led at that moment. */
  datatype Fresh = Fresh(task: string, leader: bool)

  /** `capture` and `taken` are the TakeSnapshot in progress, `cached` is lastSnapshot, and
      `restoring` has the snapshots that are installed but not yet restored. The fields from `upTo`
      on record what has happened: `held` is how far the state machine has really got, `failures`
      the tasks of which this node's publish failed, and `acks` those whose ingest message it has
      acknowledged. */
  datatype Replica = Replica(
    first: nat,
    commit: nat,
    applied: nat,
    pick: Option<Pick>,
    dispatched: set<string>,
    capture: Option<nat>,
    taken: Option<Snap>,
    cached: Option<Snap>,
    restoring: set<Snap>,
    upTo: nat,
    held: nat,
    picks: seq<nat>,
    installed: nat,
    marks: seq<Fresh>,
    published: seq<string>,
    failures: seq<string>,
    acks: seq<string>)

  /** `snaps` are the snapshots saved or on their way, `failed` the tasks of which a publish has
      failed. */
  datatype System = System(replicas: map<NodeId, Replica>, snaps: set<Snap>, failed: set<string>)

  datatype Action =
    | Commit(n: NodeId, k: nat)
    | PickNext(n: NodeId)
    | MarkTask(n: NodeId, leader: bool)
    | Publish(n: NodeId, ok: bool)
    | Bump(n: NodeId, told: Option<string>)
    | AckKnown(n: NodeId, task: string)
    | Capture(n: NodeId)
    | Serialize(n: NodeId)
    | FinishSnapshot(n: NodeId)
    | AbandonSnapshot(n: NodeId)
    | Install(n: NodeId, snap: Snap)
    | Restore(n: NodeId, snap: Snap)
    | RestoreFails(n: NodeId, snap: Snap)

  const START := Replica(0, 0, 0, None, {}, None, None, None, {}, 0, 0, [], 0, [], [], [], [])

  function Init(ids: set<NodeId>): System {
    System(map n | n in ids :: START, {}, {})
  }

  predicate Enabled(log: Log, s: System, a: Action) {
    && a.n in s.replicas
    && var r := s.replicas[a.n];
       match a
       case Commit(n, k) => r.commit < k < |log|
       case PickNext(n) => r.pick.None? && r.applied + 1 <= r.commit
       case MarkTask(n, leader) => r.pick.Some? && r.pick.value.stage == Picked && r.pick.value.index < |log|
       case Publish(n, ok) => r.pick.Some? && r.pick.value.stage.Publishing?
       case Bump(n, told) => r.pick.Some? && r.pick.value.index < |log| && r.pick.value.stage == Finished
       case AckKnown(n, task) => task in r.dispatched
       case Capture(n) => r.capture.None? && r.applied > r.first
       case Serialize(n) => r.capture.Some? && r.taken.None?
       case FinishSnapshot(n) => r.taken.Some?
       case AbandonSnapshot(n) => r.capture.Some?
       case Install(n, snap) => snap in s.snaps
       case Restore(n, snap) => snap in r.restoring
       case RestoreFails(n, snap) => snap in r.restoring
  }

  /** The index picked: the one after lastApplied if the log in memory has it. Its placeholder,
      which has no command, is passed by without a call of Apply. */
  function DoPick(r: Replica): Replica {
    var next := r.applied + 1;
    if next < r.first then r.(applied := r.first)
    else if next == r.first then r.(pick := Some(Pick(next, Finished)))
    else r.(pick := Some(Pick(next, Picked)), picks := r.picks + [next])
  }

  function DoMark(log: Log, r: Replica, leader: bool): Replica
    requires r.pick.Some? && r.pick.value.index < |log|
  {
    var i := r.pick.value.index;
    var task := NewTask(r.dispatched, log[i].command);
    var stage := if task.Some? && leader then Publishing(task.value) else Finished;
    r.(pick := Some(Pick(i, stage)),
       dispatched := Mark(r.dispatched, log[i].command),
       upTo := if r.upTo < i then i else r.upTo,
       marks := if task.Some? then r.marks + [Fresh(task.value, leader)] else r.marks)
  }

  function DoPublish(r: Replica, ok: bool): Replica
    requires r.pick.Some? && r.pick.value.stage.Publishing?
  {
    var task := r.pick.value.stage.task;
    var r' := r.(pick := Some(Pick(r.pick.value.index, Finished)));
    if ok then r'.(published := r.published + [task])
    else r'.(dispatched := r.dispatched - {task}, failures := r.failures + [task])
  }

  /** The rest of the turn. `told` is the task of the proposal that waits at this index, if any: its
      ingest message is acknowledged, whatever entry was applied and whatever became of a publish. */
  function DoBump(r: Replica, told: Option<string>): Replica
    requires r.pick.Some?
  {
    var i := r.pick.value.index;
    r.(applied := i, pick := None, held := if r.held + 1 == i then i else r.held,
       acks := if told.Some? then r.acks + [told.value] else r.acks)
  }

  predicate Installs(r: Replica, snap: Snap) {
    !(snap.index <= r.first && r.first > 0)
  }

  function DoInstall(r: Replica, snap: Snap): Replica {
    if !Installs(r, snap) then r
    else
      r.(first := snap.index, commit := snap.index, applied := snap.index, restoring := r.restoring + {snap},
         cached := Some(snap), installed := if r.installed < snap.index then snap.index else r.installed)
  }

  function Local(log: Log, s: System, a: Action): Replica
    requires Enabled(log, s, a)
  {
    var r := s.replicas[a.n];
    match a
    case Commit(n, k) => r.(commit := k)
    case PickNext(n) => DoPick(r)
    case MarkTask(n, leader) => DoMark(log, r, leader)
    case Publish(n, ok) => DoPublish(r, ok)
    case Bump(n, told) => DoBump(r, told)
    case AckKnown(n, task) => r.(acks := r.acks + [task])
    case Capture(n) => r.(capture := Some(r.applied))
    case Serialize(n) => r.(taken := Some(Snap(r.capture.value, r.dispatched, r.upTo)))
    case FinishSnapshot(n) =>
      r.(first := if r.first < r.taken.value.index then r.taken.value.index else r.first,
         capture := None, taken := None, cached := r.taken)
    case AbandonSnapshot(n) => r.(capture := None, taken := None)
    case Install(n, snap) => DoInstall(r, snap)
    case Restore(n, snap) => DoRestore(r, snap)
    case RestoreFails(n, snap) => r.(restoring := r.restoring - {snap})
  }

  function DoRestore(r: Replica, snap: Snap): Replica {
    r.(dispatched := snap.data, upTo := snap.upTo, held := snap.index, restoring := r.restoring - {snap})
  }

  function Do(log: Log, s: System, a: Action): System
    requires Enabled(log, s, a)
  {
    var r := s.replicas[a.n];
    System(
      s.replicas[a.n := Local(log, s, a)],
      if a.FinishSnapshot? then s.snaps + {r.taken.value} else s.snaps,
      if a.Publish? && !a.ok then s.failed + {r.pick.value.stage.task} else s.failed)
  }

  /** The step does not install a snapshot below the commit index. */
  predicate NotBack(s: System, a: Action)
    requires a.n in s.replicas
  {
    a.Install? && Installs(s.replicas[a.n], a.snap) ==> s.replicas[a.n].commit <= a.snap.index
  }

  /** And it keeps the apply loop and further installs out of the window before a Restore, which
      does not fail. */
  predicate Guarded(s: System, a: Action)
    requires a.n in s.replicas
  {
    var r := s.replicas[a.n];
    && NotBack(s, a) && !a.RestoreFails?
    && (a.PickNext? ==> r.restoring == {})
    && (a.Install? && Installs(r, a.snap) ==> r.restoring == {})
  }

  // --- Indices, in any run ---

  /** The index up to which the node has applied entries or has them from a snapshot. */
  function Reach(r: Replica): nat {
    if r.applied < r.first then r.first else r.applied
  }

  ghost predicate SnapBasic(log: Log, snap: Snap) {
    1 <= snap.index < |log| && snap.upTo < |log|
  }

  ghost predicate Basic(log: Log, r: Replica) {
    && r.applied < |log| && r.commit < |log| && r.first < |log| && r.upTo < |log| && r.held < |log|
    && (r.pick.Some? ==> 1 <= r.pick.value.index < |log|)
    && (r.capture.Some? ==> 1 <= r.capture.value < |log|)
    && (r.taken.Some? ==> r.capture == Some(r.taken.value.index) && SnapBasic(log, r.taken.value))
    && (forall snap :: snap in r.restoring ==> SnapBasic(log, snap))
  }

  ghost predicate Basics(log: Log, s: System) {
    && log != []
    && (forall snap :: snap in s.snaps ==> SnapBasic(log, snap))
    && (forall n :: n in s.replicas ==> Basic(log, s.replicas[n]) && s.replicas[n].restoring <= s.snaps)
  }

  // --- The apply loop, if no install moves the commit index back ---

  ghost predicate OrderBounds(r: Replica) {
    && r.applied <= r.commit && r.first <= r.commit && r.installed <= r.first
    && (r.pick.Some? ==>
          && 1 <= r.pick.value.index <= r.commit
          && (r.applied + 1 == r.pick.value.index || (r.applied <= r.first && r.pick.value.index <= r.first)))
    && (r.capture.Some? ==> 1 <= r.capture.value <= Reach(r))
    && (r.taken.Some? ==> r.capture == Some(r.taken.value.index))
  }

  /** In-order apply: the indices applied strictly increase, and every index passed over is covered
      by an installed snapshot. */
  ghost predicate InOrder(r: Replica) {
    && (forall j, k :: 0 <= j < k < |r.picks| ==> r.picks[j] < r.picks[k])
    && (forall p :: p in r.picks ==> p <= Reach(r) || (r.pick.Some? && r.pick.value.index == p))
    && (forall k :: 1 <= k <= Reach(r) ==> k in r.picks || k <= r.installed)
    && (r.pick.Some? ==> r.pick.value.index in r.picks || r.pick.value.index <= r.first)
  }

  /** `data` holds the tasks up to `k`, but for those of which a publish failed. */
  ghost predicate Holds(log: Log, data: set<string>, failed: set<string>, k: nat) {
    k < |log| && Tasks(log, k) <= data + failed
  }

  // --- Data, if the apply loop also waits for a Restore ---

  ghost predicate WindowOk(r: Replica) {
    && (r.restoring != {} ==> r.applied <= r.first && (r.pick.Some? ==> r.pick.value.index <= r.first))
    && (r.installed == 0 ==>
          r.restoring == {} && (r.upTo <= Reach(r) || (r.pick.Some? && r.upTo <= r.pick.value.index)))
    && (forall x, y :: x in r.restoring && y in r.restoring ==> x == y)
  }

  ghost predicate Bounds(log: Log, r: Replica) {
    Basic(log, r) && OrderBounds(r) && WindowOk(r)
  }

  ghost predicate Honest(log: Log, failed: set<string>, snap: Snap) {
    && 1 <= snap.index <= snap.upTo < |log|
    && Holds(log, snap.data, failed, snap.index) && snap.data <= Tasks(log, snap.upTo)
  }

  ghost predicate DataOk(log: Log, failed: set<string>, r: Replica) {
    && r.upTo < |log| && r.dispatched <= Tasks(log, r.upTo)
    && (r.capture.Some? ==> r.capture.value <= r.upTo && Holds(log, r.dispatched, failed, r.capture.value))
    && (r.taken.Some? ==> Honest(log, failed, r.taken.value))
    && (r.pick.Some? && r.pick.value.stage.Publishing? ==>
          r.pick.value.index < |log| && TaskOf(log[r.pick.value.index].command) == Some(r.pick.value.stage.task))
    && if r.restoring == {} then
         && Reach(r) <= r.upTo && Holds(log, r.dispatched, failed, Reach(r))
         && (r.pick.Some? && r.pick.value.stage != Picked ==>
               r.pick.value.index <= r.upTo && Holds(log, r.dispatched, failed, r.pick.value.index))
       else
         forall snap :: snap in r.restoring ==> Honest(log, failed, snap) && snap.index == r.first
  }

  /** The state machine holds what `held` says, which is all the node has reached unless a Restore
      is pending. */
  ghost predicate HeldOk(log: Log, failed: set<string>, r: Replica) {
    && Holds(log, r.dispatched, failed, r.held)
    && (r.restoring == {} ==> r.held == Reach(r)) && (r.restoring != {} ==> r.held <= r.first)
    && (r.pick.Some? && r.pick.value.stage != Picked && r.pick.value.index <= r.held + 1 ==>
          Holds(log, r.dispatched, failed, r.pick.value.index))
  }

  predicate IsPublishing(r: Replica) {
    r.pick.Some? && r.pick.value.stage.Publishing?
  }

  /** The marks whose publish, if there was one, is over. */
  function Settled(r: Replica): seq<Fresh> {
    if IsPublishing(r) && r.marks != [] then r.marks[..|r.marks| - 1] else r.marks
  }

  /** Every task treated as new is among the dispatched ones or has failed to be published, and
      only such a one is ever treated as new again. */
  ghost predicate MarksOk(log: Log, failed: set<string>, r: Replica) {
    && r.first < |log| && r.commit < |log|
    && (forall m :: m in r.marks ==> m.task in r.dispatched || m.task in failed)
    && (forall m :: m in r.marks ==> m.task in Tasks(log, if r.restoring == {} then r.commit else r.first))
    && (forall j, k :: 0 <= j < k < |r.marks| && r.marks[j].task == r.marks[k].task ==> r.marks[j].task in failed)
    && (IsPublishing(r) ==> r.marks != [] && r.marks[|r.marks| - 1] == Fresh(r.pick.value.stage.task, true))
  }

  /** A published task was treated as new by a leader, and only one of which a publish failed is
      published twice. */
  ghost predicate PublishesOk(failed: set<string>, r: Replica) {
    && (forall task :: task in r.published ==> Fresh(task, true) in Settled(r))
    && (forall j, k :: 0 <= j < k < |r.published| && r.published[j] == r.published[k] ==> r.published[j] in failed)
  }

  /** On a node on which no snapshot was installed, whatever fails, a published task stays
      dispatched and is not published again. */
  ghost predicate DispatchBound(r: Replica) {
    r.installed == 0 ==>
      && (forall task :: task in r.published ==> task in r.dispatched)
      && (forall j, k :: 0 <= j < k < |r.published| ==> r.published[j] != r.published[k])
      && (IsPublishing(r) ==> r.pick.value.stage.task in r.dispatched && r.pick.value.stage.task !in r.published)
  }

  ghost predicate HistoryOk(log: Log, failed: set<string>, r: Replica) {
    MarksOk(log, failed, r) && PublishesOk(failed, r) && DispatchBound(r)
  }

  ghost predicate AllHonest(log: Log, s: System) {
    forall snap :: snap in s.snaps ==> Honest(log, s.failed, snap)
  }

  ghost predicate ReplicaOk(log: Log, failed: set<string>, r: Replica) {
    && Bounds(log, r) && InOrder(r) && DataOk(log, failed, r) && HistoryOk(log, failed, r) && HeldOk(log, failed, r)
  }

  ghost predicate Inv(log: Log, s: System) {
    && log != [] && log[0] == DUMMY && AllHonest(log, s)
    && forall n :: n in s.replicas ==> ReplicaOk(log, s.failed, s.replicas[n])
  }

  lemma BasicHere(log: Log, s: System, a: Action)
    requires Enabled(log, s, a) && Basics(log, s)
    ensures Basic(log, Local(log, s, a)) && Local(log, s, a).restoring <= s.snaps
    ensures a.FinishSnapshot? ==> s.replicas[a.n].taken.Some? && SnapBasic(log, s.replicas[a.n].taken.value)
  {
    assert Basic(log, s.replicas[a.n]);
  }

  lemma BasicKept(log: Log, s: System, a: Action)
    requires Enabled(log, s, a) && Basics(log, s)
    ensures Basics(log, Do(log, s, a))
  {
    hide Local, Enabled, Basic, SnapBasic;
    BasicHere(log, s, a);
  }

  lemma OrderBoundsKept(log: Log, s: System, a: Action)
    requires Enabled(log, s, a) && NotBack(s, a) && OrderBounds(s.replicas[a.n])
    ensures OrderBounds(Local(log, s, a))
  {
  }

  lemma WindowKept(log: Log, s: System, a: Action)
    requires Enabled(log, s, a) && Guarded(s, a) && Basics(log, s)
    requires OrderBounds(s.replicas[a.n]) && WindowOk(s.replicas[a.n])
    ensures WindowOk(Local(log, s, a))
  {
    assert Basic(log, s.replicas[a.n]);
  }

  lemma BoundsKept(log: Log, s: System, a: Action)
    requires Enabled(log, s, a) && Guarded(s, a) && Basics(log, s) && Bounds(log, s.replicas[a.n])
    ensures Bounds(log, Local(log, s, a))
  {
    hide Local, Enabled, OrderBounds, WindowOk;
    BasicKept(log, s, a);
    OrderBoundsKept(log, s, a);
    WindowKept(log, s, a);
    assert Do(log, s, a).replicas[a.n] == Local(log, s, a);
  }

  lemma PickInOrder(r: Replica)
    requires InOrder(r) && OrderBounds(r) && r.pick.None?
    ensures InOrder(DoPick(r))
  {
    forall j | 0 <= j < |r.picks|
      ensures r.picks[j] <= Reach(r)
    {
      assert r.picks[j] in r.picks;
    }
  }

  lemma BumpInOrder(r: Replica, told: Option<string>)
    requires InOrder(r) && OrderBounds(r) && r.pick.Some?
    ensures InOrder(DoBump(r, told))
  {
  }

  lemma InstallInOrder(r: Replica, snap: Snap)
    requires InOrder(r) && OrderBounds(r) && r.commit <= snap.index
    ensures InOrder(DoInstall(r, snap))
  {
  }

  lemma InOrderKept(log: Log, s: System, a: Action)
    requires Enabled(log, s, a) && NotBack(s, a) && OrderBounds(s.replicas[a.n]) && InOrder(s.replicas[a.n])
    ensures InOrder(Local(log, s, a))
  {
    var r, r' := s.replicas[a.n], Local(log, s, a);
    match a
    case PickNext(n) => PickInOrder(r);
    case Bump(n, told) => BumpInOrder(r, told);
    case Install(n, snap) =>
      if Installs(r, snap) {
        InstallInOrder(r, snap);
      }
    case _ =>
      assert r'.picks == r.picks && Reach(r') == Reach(r) && r'.installed == r.installed && r'.first >= r.first;
      assert r'.pick.Some? <==> r.pick.Some?;
      assert r.pick.Some? ==> r'.pick.value.index == r.pick.value.index;
      hide Local, Enabled;
  }

  lemma HoldsLess(log: Log, data: set<string>, failed: set<string>, k: nat, j: nat)
    requires Holds(log, data, failed, k) && j <= k
    ensures Holds(log, data, failed, j)
  {
    TasksGrow(log, j, k);
  }

  lemma HoldsMore(log: Log, data: set<string>, failed: set<string>, k: nat, data': set<string>, failed': set<string>)
    requires Holds(log, data, failed, k) && data <= data' + failed' && failed <= failed'
    ensures Holds(log, data', failed', k)
  {
  }

  /** What holds up to `j` holds up to `k` exactly if no entry in between has a task that is missing. */
  lemma {:induction false} HoldsBeyond(log: Log, data: set<string>, failed: set<string>, j: nat, k: nat)
    requires Holds(log, data, failed, j) && j <= k < |log|
    ensures Holds(log, data, failed, k) <==>
            forall i :: j < i <= k ==> TaskSet(TaskOf(log[i].command)) <= data + failed
    decreases k
  {
    if j < k {
      HoldsBeyond(log, data, failed, j, k - 1);
    }
  }

  /** After the entry after `k` is marked, its task is in the data too. */
  lemma MarkHolds(log: Log, data: set<string>, failed: set<string>, i: nat)
    requires 1 <= i < |log| && Holds(log, data, failed, i - 1)
    ensures Holds(log, Mark(data, log[i].command), failed, i)
  {
  }

  lemma MarkBound(log: Log, data: set<string>, upTo: nat, i: nat)
    requires i < |log| && upTo < |log| && data <= Tasks(log, upTo)
    ensures Mark(data, log[i].command) <= Tasks(log, if upTo < i then i else upTo)
    ensures data <= Mark(data, log[i].command)
  {
    TasksGrow(log, if upTo < i then upTo else i, if upTo < i then i else upTo);
  }

  lemma MarkKeepsData(log: Log, failed: set<string>, r: Replica, leader: bool)
    requires Bounds(log, r) && DataOk(log, failed, r) && r.pick.Some? && r.pick.value.stage == Picked
    ensures DataOk(log, failed, DoMark(log, r, leader))
  {
    var i, data := r.pick.value.index, Mark(r.dispatched, log[r.pick.value.index].command);
    MarkBound(log, r.dispatched, r.upTo, i);
    if r.capture.Some? {
      HoldsMore(log, r.dispatched, failed, r.capture.value, data, failed);
    }
    if r.restoring == {} {
      HoldsMore(log, r.dispatched, failed, Reach(r), data, failed);
      if i <= r.first {
        HoldsLess(log, data, failed, Reach(r), i);
      } else {
        HoldsLess(log, r.dispatched, failed, Reach(r), i - 1);
        MarkHolds(log, r.dispatched, failed, i);
      }
    }
    hide Holds, Mark, Honest;
  }

  lemma PublishKeepsData(log: Log, failed: set<string>, r: Replica)
    requires DataOk(log, failed, r) && r.pick.Some? && r.pick.value.stage.Publishing?
    ensures DataOk(log, failed + {r.pick.value.stage.task}, DoPublish(r, false))
    ensures DataOk(log, failed, DoPublish(r, true))
  {
  }

  lemma MoreFailed(log: Log, failed: set<string>, r: Replica, failed': set<string>)
    requires DataOk(log, failed, r) && failed <= failed'
    ensures DataOk(log, failed', r)
  {
  }

  lemma RestoreKeepsData(log: Log, failed: set<string>, r: Replica, snap: Snap)
    requires Bounds(log, r) && DataOk(log, failed, r) && snap in r.restoring
    ensures DataOk(log, failed, DoRestore(r, snap))
  {
    if r.capture.Some? {
      HoldsLess(log, snap.data, failed, r.first, r.capture.value);
    }
    if r.pick.Some? {
      HoldsLess(log, snap.data, failed, r.first, r.pick.value.index);
    }
  }

  lemma DataKept(log: Log, s: System, a: Action)
    requires Enabled(log, s, a) && Guarded(s, a) && log != [] && log[0] == DUMMY
    requires a.Install? && Installs(s.replicas[a.n], a.snap) ==> AllHonest(log, s)
    requires Bounds(log, s.replicas[a.n]) && DataOk(log, s.failed, s.replicas[a.n])
    ensures DataOk(log, Do(log, s, a).failed, Local(log, s, a))
  {
    hide Holds, Tasks, DoMark, DoPublish, DoRestore;
    var r := s.replicas[a.n];
    match a
    case MarkTask(n, leader) => MarkKeepsData(log, s.failed, r, leader);
    case Publish(n, ok) => PublishKeepsData(log, s.failed, r);
    case Restore(n, snap) => RestoreKeepsData(log, s.failed, r, snap);
    case Serialize(n) =>
    case _ =>
      hide Honest;
  }

  lemma SnapsKept(log: Log, s: System, a: Action)
    requires Enabled(log, s, a) && AllHonest(log, s) && DataOk(log, s.failed, s.replicas[a.n])
    ensures AllHonest(log, Do(log, s, a))
  {
  }

  lemma TaskIsIn(log: Log, i: nat, k: nat)
    requires i <= k < |log|
    ensures TaskSet(TaskOf(log[i].command)) <= Tasks(log, k)
  {
  }

  lemma MarkKeepsMarks(log: Log, failed: set<string>, r: Replica, leader: bool)
    requires Bounds(log, r) && MarksOk(log, failed, r) && r.pick.Some? && r.pick.value.stage == Picked
    ensures MarksOk(log, failed, DoMark(log, r, leader))
  {
    var r', task := DoMark(log, r, leader), NewTask(r.dispatched, log[r.pick.value.index].command);
    TaskIsIn(log, r.pick.value.index, if r.restoring == {} then r.commit else r.first);
    hide Tasks, TaskOf;
    if task.Some? {
      var m := Fresh(task.value, leader);
      assert r'.marks == r.marks + [m];
      forall j | 0 <= j < |r.marks| && r.marks[j].task == m.task
        ensures m.task in failed
      {
        assert r.marks[j] in r.marks;
      }
    }
  }

  lemma MarkKeepsPublishes(log: Log, failed: set<string>, r: Replica, leader: bool)
    requires Bounds(log, r) && HistoryOk(log, failed, r) && r.pick.Some? && r.pick.value.stage == Picked
    ensures PublishesOk(failed, DoMark(log, r, leader)) && DispatchBound(DoMark(log, r, leader))
  {
  }

  lemma PublishKeepsHistory(log: Log, failed: set<string>, r: Replica, ok: bool)
    requires HistoryOk(log, failed, r) && IsPublishing(r)
    ensures HistoryOk(log, if ok then failed else failed + {r.pick.value.stage.task}, DoPublish(r, ok))
  {
    var task, last := r.pick.value.stage.task, |r.marks| - 1;
    if ok && task in r.published {
      var j :| 0 <= j < last && r.marks[j] == Fresh(task, true);
      assert r.marks[last].task == task;
    }
  }

  lemma RestoreKeepsHistory(log: Log, failed: set<string>, r: Replica, snap: Snap)
    requires Bounds(log, r) && HistoryOk(log, failed, r) && DataOk(log, failed, r) && snap in r.restoring
    ensures HistoryOk(log, failed, DoRestore(r, snap))
  {
    TasksGrow(log, r.first, r.commit);
  }

  /** The history does not depend on what else a step changes. */
  lemma HistoryFrame(log: Log, failed: set<string>, r: Replica, r': Replica)
    requires HistoryOk(log, failed, r)
    requires r'.marks == r.marks && r'.published == r.published && r'.dispatched == r.dispatched
    requires if IsPublishing(r) then r'.pick == r.pick else !IsPublishing(r')
    requires r'.installed == 0 ==> r.installed == 0
    requires r'.first < |log| && r'.commit < |log|
    requires var k := if r.restoring == {} then r.commit else r.first;
             var k' := if r'.restoring == {} then r'.commit else r'.first;
             k <= k'
    ensures HistoryOk(log, failed, r')
  {
    var k := if r.restoring == {} then r.commit else r.first;
    var k' := if r'.restoring == {} then r'.commit else r'.first;
    TasksGrow(log, k, k');
    hide Tasks;
  }

  lemma HistoryKept(log: Log, s: System, a: Action)
    requires Enabled(log, s, a) && Guarded(s, a) && Basics(log, s)
    requires Bounds(log, s.replicas[a.n]) && DataOk(log, s.failed, s.replicas[a.n])
    requires HistoryOk(log, s.failed, s.replicas[a.n])
    ensures HistoryOk(log, Do(log, s, a).failed, Local(log, s, a))
  {
    BoundsKept(log, s, a);
    var r := s.replicas[a.n];
    match a
    case MarkTask(n, leader) =>
      MarkKeepsMarks(log, s.failed, r, leader);
      MarkKeepsPublishes(log, s.failed, r, leader);
    case Publish(n, ok) => PublishKeepsHistory(log, s.failed, r, ok);
    case Restore(n, snap) => RestoreKeepsHistory(log, s.failed, r, snap);
    case _ => QuietStepKeepsHistory(log, s, a);
  }

  lemma QuietStepKeepsHistory(log: Log, s: System, a: Action)
    requires Enabled(log, s, a) && Guarded(s, a) && !a.MarkTask? && !a.Publish? && !a.Restore?
    requires Bounds(log, s.replicas[a.n]) && Bounds(log, Local(log, s, a))
    requires HistoryOk(log, s.failed, s.replicas[a.n])
    ensures HistoryOk(log, s.failed, Local(log, s, a))
  {
    hide HistoryOk;
    HistoryFrame(log, s.failed, s.replicas[a.n], Local(log, s, a));
  }

  lemma MoreFailedHistory(log: Log, failed: set<string>, r: Replica, failed': set<string>)
    requires HistoryOk(log, failed, r) && failed <= failed'
    ensures HistoryOk(log, failed', r)
  {
  }

  // --- How far the state machine has got ---

  lemma MarkKeepsHeld(log: Log, failed: set<string>, r: Replica, leader: bool)
    requires Bounds(log, r) && HeldOk(log, failed, r) && r.pick.Some? && r.pick.value.stage == Picked
    ensures HeldOk(log, failed, DoMark(log, r, leader))
  {
    var i, data := r.pick.value.index, Mark(r.dispatched, log[r.pick.value.index].command);
    HoldsMore(log, r.dispatched, failed, r.held, data, failed);
    if i <= r.held {
      HoldsLess(log, data, failed, r.held, i);
    } else if i == r.held + 1 {
      MarkHolds(log, r.dispatched, failed, i);
    }
    hide Holds, Mark;
  }

  lemma PublishKeepsHeld(log: Log, failed: set<string>, r: Replica, ok: bool)
    requires HeldOk(log, failed, r) && IsPublishing(r)
    ensures HeldOk(log, if ok then failed else failed + {r.pick.value.stage.task}, DoPublish(r, ok))
  {
  }

  lemma RestoreKeepsHeld(log: Log, failed: set<string>, r: Replica, snap: Snap)
    requires Bounds(log, r) && DataOk(log, failed, r) && HeldOk(log, failed, r) && snap in r.restoring
    ensures HeldOk(log, failed, DoRestore(r, snap))
  {
    if r.pick.Some? {
      HoldsLess(log, snap.data, failed, r.first, r.pick.value.index);
    }
  }

  lemma MoreFailedHeld(log: Log, failed: set<string>, r: Replica, failed': set<string>)
    requires HeldOk(log, failed, r) && failed <= failed'
    ensures HeldOk(log, failed', r)
  {
  }

  lemma HeldKept(log: Log, s: System, a: Action)
    requires Enabled(log, s, a) && Guarded(s, a)
    requires Bounds(log, s.replicas[a.n]) && DataOk(log, s.failed, s.replicas[a.n]) &&
             HeldOk(log, s.failed, s.replicas[a.n])
    ensures HeldOk(log, Do(log, s, a).failed, Local(log, s, a))
  {
    var r := s.replicas[a.n];
    match a
    case MarkTask(n, leader) => MarkKeepsHeld(log, s.failed, r, leader);
    case Publish(n, ok) => PublishKeepsHeld(log, s.failed, r, ok);
    case Restore(n, snap) => RestoreKeepsHeld(log, s.failed, r, snap);
    case PickNext(n) =>
      if r.applied + 1 == r.first {
        HoldsLess(log, r.dispatched, s.failed, r.held, r.first);
      }
      hide Holds, DataOk;
    case _ =>
      hide Holds, DataOk;
  }

  lemma BoundsOrder(log: Log, r: Replica)
    requires Bounds(log, r)
    ensures OrderBounds(r)
  {
  }

  /** Every guarded step keeps the invariant. */
  lemma StepKeeps(log: Log, s: System, a: Action)
    requires Enabled(log, s, a) && Guarded(s, a)
    requires Basics(log, s) && Inv(log, s)
    ensures Basics(log, Do(log, s, a)) && Inv(log, Do(log, s, a))
  {
    hide Local, Bounds, InOrder, AllHonest, DataOk, HistoryOk, HeldOk, Basics, OrderBounds, WindowOk;
    BasicKept(log, s, a);
    BoundsKept(log, s, a);
    var r := s.replicas[a.n];
    BoundsOrder(log, r);
    InOrderKept(log, s, a);
    DataKept(log, s, a);
    HistoryKept(log, s, a);
    HeldKept(log, s, a);
    SnapsKept(log, s, a);
    var s' := Do(log, s, a);
    forall n | n in s'.replicas
      ensures ReplicaOk(log, s'.failed, s'.replicas[n])
    {
      if n != a.n {
        assert s'.replicas[n] == s.replicas[n] && s.failed <= s'.failed;
        MoreFailed(log, s.failed, s.replicas[n], s'.failed);
        MoreFailedHistory(log, s.failed, s.replicas[n], s'.failed);
        MoreFailedHeld(log, s.failed, s.replicas[n], s'.failed);
      }
    }
  }

  // --- In runs without guards ---

  /** As long as a node has installed no snapshot, its order, data and history do not depend on what
      other nodes do. */
  ghost predicate Solo(log: Log, failed: set<string>, r: Replica) {
    r.installed == 0 ==> Bounds(log, r) && InOrder(r) && DataOk(log, failed, r) && HistoryOk(log, failed, r)
  }

  lemma SoloKept(log: Log, s: System, a: Action)
    requires Enabled(log, s, a) && Basics(log, s) && log[0] == DUMMY && Solo(log, s.failed, s.replicas[a.n])
    ensures Solo(log, Do(log, s, a).failed, Local(log, s, a))
  {
    var r := s.replicas[a.n];
    assert a.Install? ==> SnapBasic(log, a.snap);
    if r.installed == 0 && !(a.Install? && Installs(r, a.snap)) {
      assert Guarded(s, a);
      BoundsKept(log, s, a);
      InOrderKept(log, s, a);
      DataKept(log, s, a);
      HistoryKept(log, s, a);
      hide Local, Enabled, Bounds, InOrder, DataOk, HistoryOk;
    } else {
      hide Bounds, InOrder, DataOk, HistoryOk;
    }
  }

  lemma MoreFailedSolo(log: Log, failed: set<string>, r: Replica, failed': set<string>)
    requires Solo(log, failed, r) && failed <= failed'
    ensures Solo(log, failed', r)
  {
    if r.installed == 0 {
      MoreFailed(log, failed, r, failed');
      MoreFailedHistory(log, failed, r, failed');
    }
  }
}
