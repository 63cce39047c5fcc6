/** The history checker (experiments/lincheck/main.go): a task's polled statuses are checked against
    a register that only moves forward, one task at a time.

    Linearizability is that of Herlihy and Wing, "Linearizability", section 2: an order of all the
    operations that respects real time and that the sequential model accepts. */
module Lincheck {
  import opened RaftTypes

  // --- The sequential model ---

  const UNKNOWN: nat := 0
  const PENDING: nat := 1
  const ASSIGNED: nat := 2
  const TERMINAL: nat := 3

  function StatusCode(s: string): nat {
    if s == "PENDING" then PENDING
    else if s == "ASSIGNED" then PENDING + 1
    else if s == "COMPLETED" || s == "FAILED" then TERMINAL
    else UNKNOWN
  }

  /** The codes follow a task's life: pending, assigned, then completed or failed, which are equally
      final. Exactly these four statuses are known. */
  lemma CodesFollowLife(s: string)
    ensures StatusCode("PENDING") < StatusCode("ASSIGNED") < StatusCode("COMPLETED") == StatusCode("FAILED")
    ensures StatusCode(s) != UNKNOWN <==> s in {"PENDING", "ASSIGNED", "COMPLETED", "FAILED"}
    ensures UNKNOWN < StatusCode("PENDING") && StatusCode(s) <= StatusCode("FAILED")
  {
    assert "PENDING"[0] != "ASSIGNED"[0] && "COMPLETED"[0] != "FAILED"[0];
    assert "ASSIGNED"[0] != "COMPLETED"[0] && "ASSIGNED"[0] != "FAILED"[0];
    assert "PENDING"[0] != "COMPLETED"[0] && "PENDING"[0] != "FAILED"[0];
  }

  /** monotoneModel.Step: whether a poll that returned `code` is possible, and the next state. */
  function Step(cur: nat, code: nat): (bool, nat) {
    if code == UNKNOWN then (true, cur)
    else if code < cur then (false, cur)
    else (true, if cur > code then cur else code)
  }

  /** One poll of one task, between its call and its return. */
  datatype Op = Op(task: string, code: nat, call: int, ret: int)

  type History = seq<Op>

  predicate Timed(h: History) {
    forall op :: op in h ==> op.call <= op.ret
  }

  predicate Precedes(a: Op, b: Op) {
    a.ret < b.call
  }

  /** The model of one task accepts the polls in this order. */
  predicate Accepts(h: History, cur: nat) {
    h == [] || (Step(cur, h[0].code).0 && Accepts(h[1..], Step(cur, h[0].code).1))
  }

  function At(st: map<string, nat>, task: string): nat {
    if task in st then st[task] else 0
  }

  /** The product of the models of all tasks accepts the polls in this order. */
  predicate AcceptsAll(h: History, st: map<string, nat>) {
    h == [] ||
    var (ok, next) := Step(At(st, h[0].task), h[0].code);
    ok && AcceptsAll(h[1..], st[h[0].task := next])
  }

  // --- Linearizability ---

  /** `order` lists every position of a history of `n` operations once. */
  predicate Lists(order: seq<nat>, n: nat) {
    && |order| == n
    && (forall k :: 0 <= k < n ==> order[k] < n)
    && (forall i: nat :: i < n ==> i in order)
    && (forall j, k :: 0 <= j < k < n ==> order[j] != order[k])
  }

  function Arrange(h: History, order: seq<nat>): (r: History)
    requires forall k :: 0 <= k < |order| ==> order[k] < |h|
    ensures |r| == |order|
  {
    seq(|order|, k requires 0 <= k < |order| => h[order[k]])
  }

  predicate InRealTime(h: History) {
    forall j, k :: 0 <= j < k < |h| ==> !Precedes(h[k], h[j])
  }

  ghost predicate LinearizesTask(h: History, order: seq<nat>) {
    Lists(order, |h|) && InRealTime(Arrange(h, order)) && Accepts(Arrange(h, order), 0)
  }

  ghost predicate Linearizes(h: History, order: seq<nat>) {
    Lists(order, |h|) && InRealTime(Arrange(h, order)) && AcceptsAll(Arrange(h, order), map[])
  }

  ghost predicate LinearizableTask(h: History) {
    exists order :: LinearizesTask(h, order)
  }

  ghost predicate Linearizable(h: History) {
    exists order :: Linearizes(h, order)
  }

  // --- When the model accepts an order ---

  /** `b` may come after `a`. */
  predicate Forward(a: Op, b: Op) {
    a.task == b.task && b.code != UNKNOWN ==> a.code <= b.code
  }

  predicate AllForward(h: History) {
    forall j, k :: 0 <= j < k < |h| ==> Forward(h[j], h[k])
  }

  predicate AboveState(h: History, st: map<string, nat>) {
    forall k :: 0 <= k < |h| && h[k].code != UNKNOWN ==> At(st, h[k].task) <= h[k].code
  }

  /** The product model accepts an order exactly if no known code is lower than one returned
      before it for the same task. */
  lemma {:induction false} AcceptsAllIff(h: History, st: map<string, nat>)
    ensures AcceptsAll(h, st) <==> AllForward(h) && AboveState(h, st)
  {
    if h != [] {
      var (ok, next) := Step(At(st, h[0].task), h[0].code);
      var st' := st[h[0].task := next];
      AcceptsAllIff(h[1..], st');
      assert AllForward(h) <==> AllForward(h[1..]) && forall k :: 0 < k < |h| ==> Forward(h[0], h[k]) by {
        SplitForward(h);
      }
      assert AboveState(h, st) <==>
             (h[0].code != UNKNOWN ==> At(st, h[0].task) <= h[0].code) && AboveState(h[1..], st) by {
        assert forall k :: 0 < k < |h| ==> h[k] == h[1..][k - 1];
      }
      if ok {
        assert forall k :: 0 < k < |h| ==> h[k] == h[1..][k - 1];
        assert AboveState(h[1..], st') <==>
               AboveState(h[1..], st) && forall k :: 0 < k < |h| ==> Forward(h[0], h[k]) by {
          hide AcceptsAll, AllForward;
        }
      }
    }
  }

  lemma SplitForward(h: History)
    requires h != []
    ensures AllForward(h) <==> AllForward(h[1..]) && forall k :: 0 < k < |h| ==> Forward(h[0], h[k])
  {
  }

  predicate OneTask(h: History) {
    forall a, b :: a in h && b in h ==> a.task == b.task
  }

  /** On the polls of a single task the product model is the model of the task. */
  lemma {:induction false} OneTaskAccepts(h: History, st: map<string, nat>, cur: nat)
    requires OneTask(h) && (h != [] ==> At(st, h[0].task) == cur)
    ensures Accepts(h, cur) <==> AcceptsAll(h, st)
  {
    if h != [] {
      var (ok, next) := Step(cur, h[0].code);
      OneTaskAccepts(h[1..], st[h[0].task := next], next);
    }
  }

  // --- The characterisation ---

  /** A read that finished before another began did not return a higher code than it. */
  predicate NoBackwardRead(h: History) {
    forall a, b :: a in h && b in h && Precedes(a, b) ==> Forward(a, b)
  }

  lemma OrderForcesForward(h: History, order: seq<nat>)
    requires Linearizes(h, order)
    ensures NoBackwardRead(h)
  {
    var r := Arrange(h, order);
    AcceptsAllIff(r, map[]);
    forall a, b | a in h && b in h && Precedes(a, b)
      ensures Forward(a, b)
    {
      var i :| 0 <= i < |h| && h[i] == a;
      var j :| 0 <= j < |h| && h[j] == b;
      assert i in order && j in order;
      var k :| 0 <= k < |order| && order[k] == i;
      var l :| 0 <= l < |order| && order[l] == j;
      assert r[k] == a && r[l] == b;
    }
  }

  /** The greatest of `least` and `vals`. */
  function Greatest(vals: seq<int>, least: int): (r: int)
    ensures r >= least && forall k :: 0 <= k < |vals| ==> vals[k] <= r
    ensures r == least || r in vals
  {
    if vals == [] then least
    else
      var n := |vals| - 1;
      var r' := Greatest(vals[..n], least);
      if vals[n] > r' then vals[n] else r'
  }

  /** The code an operation stands for: an unknown one stands for the highest known code among the
      polls of its task that precede it. */
  function Level(h: History, i: nat): int
    requires i < |h|
  {
    if h[i].code != UNKNOWN then h[i].code
    else
      Greatest(seq(|h|, j requires 0 <= j < |h| =>
                 if h[j].task == h[i].task && Precedes(h[j], h[i]) then h[j].code else 0), 0)
  }

  lemma LevelsRespectTime(h: History, i: nat, j: nat)
    requires Timed(h) && NoBackwardRead(h) && i < |h| && j < |h|
    requires h[i].task == h[j].task && Precedes(h[i], h[j])
    ensures Level(h, i) <= Level(h, j)
  {
    var vi := seq(|h|, k requires 0 <= k < |h| =>
                  if h[k].task == h[i].task && Precedes(h[k], h[i]) then h[k].code else 0);
    var vj := seq(|h|, k requires 0 <= k < |h| =>
                  if h[k].task == h[j].task && Precedes(h[k], h[j]) then h[k].code else 0);
    assert h[i] in h && h[j] in h;
    assert h[j].code == UNKNOWN ==> vj[i] == h[i].code;
    if h[i].code == UNKNOWN && Level(h, i) != 0 {
      var k :| 0 <= k < |h| && vi[k] == Level(h, i);
      assert h[k] in h && Precedes(h[k], h[j]) && vj[k] == h[k].code;
    }
  }

  /** The linearization point of an operation: the latest of its own call and the calls of the
      polls of its task that are below its level. */
  function Point(h: History, i: nat): int
    requires i < |h|
  {
    Greatest(seq(|h|, j requires 0 <= j < |h| =>
               if h[j].task == h[i].task && Level(h, j) < Level(h, i) then h[j].call else h[i].call), h[i].call)
  }

  lemma PointWithin(h: History, i: nat)
    requires Timed(h) && NoBackwardRead(h) && i < |h|
    ensures h[i].call <= Point(h, i) <= h[i].ret
  {
    hide Level;
    assert h[i] in h;
    forall j | 0 <= j < |h| && h[j].task == h[i].task && Level(h, j) < Level(h, i)
      ensures h[j].call <= h[i].ret
    {
      if Precedes(h[i], h[j]) {
        LevelsRespectTime(h, i, j);
      }
    }
  }

  lemma PointsFollowLevels(h: History, i: nat, j: nat)
    requires i < |h| && j < |h| && h[i].task == h[j].task && Level(h, j) < Level(h, i)
    ensures Point(h, j) <= Point(h, i)
  {
    hide Level;
    var vi := seq(|h|, k requires 0 <= k < |h| =>
                  if h[k].task == h[i].task && Level(h, k) < Level(h, i) then h[k].call else h[i].call);
    var vj := seq(|h|, k requires 0 <= k < |h| =>
                  if h[k].task == h[j].task && Level(h, k) < Level(h, j) then h[k].call else h[j].call);
    assert vi[j] == h[j].call;
    if Point(h, j) != h[j].call {
      var k :| 0 <= k < |h| && vj[k] == Point(h, j);
      assert vi[k] == h[k].call;
    }
  }

  /** `i` comes no later than `j` by point, and at the same point by level. */
  predicate Sooner(h: History, i: nat, j: nat)
    requires i < |h| && j < |h|
  {
    Point(h, i) < Point(h, j) || (Point(h, i) == Point(h, j) && Level(h, i) <= Level(h, j))
  }

  predicate Sorted(h: History, order: seq<nat>)
    requires forall k :: 0 <= k < |order| ==> order[k] < |h|
  {
    forall j, k :: 0 <= j < k < |order| ==> Sooner(h, order[j], order[k])
  }

  lemma {:induction false} InsertSorted(h: History, order: seq<nat>, n: nat) returns (r: seq<nat>)
    requires n < |h| && Lists(order, n) && Sorted(h, order)
    ensures Lists(r, n + 1) && Sorted(h, r)
  {
    hide Point, Level;
    var k := 0;
    while k < |order| && Sooner(h, order[k], n)
      invariant 0 <= k <= |order|
      invariant forall j :: 0 <= j < k ==> Sooner(h, order[j], n)
    {
      k := k + 1;
    }
    r := order[..k] + [n] + order[k..];
    forall j | k <= j < |order|
      ensures Sooner(h, n, order[j])
    {
      assert j > k ==> Sooner(h, order[k], order[j]);
    }
    forall i: nat | i < n + 1
      ensures i in r
    {
      assert i < n ==> i in order;
    }
  }

  lemma {:induction false} SortPoints(h: History, n: nat) returns (order: seq<nat>)
    requires n <= |h|
    ensures Lists(order, n) && Sorted(h, order)
  {
    if n == 0 {
      order := [];
    } else {
      order := SortPoints(h, n - 1);
      order := InsertSorted(h, order, n - 1);
    }
  }

  lemma SoonerIsForward(h: History, i: nat, j: nat)
    requires Timed(h) && NoBackwardRead(h) && i < |h| && j < |h| && Sooner(h, i, j)
    ensures Forward(h[i], h[j]) && !Precedes(h[j], h[i])
  {
    PointWithin(h, i);
    PointWithin(h, j);
    if h[i].task == h[j].task && Level(h, j) < Level(h, i) {
      PointsFollowLevels(h, i, j);
    }
    hide Point;
  }

  /** A history of timed polls is linearizable for the product of the task models exactly if no
      read that finished before another read of the same task began returned a higher code. */
  lemma Characterisation(h: History)
    requires Timed(h)
    ensures Linearizable(h) <==> NoBackwardRead(h)
  {
    if Linearizable(h) {
      var order :| Linearizes(h, order);
      OrderForcesForward(h, order);
    }
    if NoBackwardRead(h) {
      var order := SortPoints(h, |h|);
      var r := Arrange(h, order);
      forall j, k | 0 <= j < k < |r|
        ensures Forward(r[j], r[k]) && !Precedes(r[k], r[j])
      {
        assert Sooner(h, order[j], order[k]);
        SoonerIsForward(h, order[j], order[k]);
      }
      AcceptsAllIff(r, map[]);
      assert Linearizes(h, order);
    }
  }

  /** The same for the history of one task and the model of one task, which is what the checker
      is run on. */
  lemma TaskCharacterisation(h: History)
    requires Timed(h) && OneTask(h)
    ensures LinearizableTask(h) <==> NoBackwardRead(h)
  {
    Characterisation(h);
    forall order: seq<nat> | Lists(order, |h|)
      ensures LinearizesTask(h, order) <==> Linearizes(h, order)
    {
      OneTaskAccepts(Arrange(h, order), map[], 0);
    }
  }

  // --- Locality ---

  /** The polls of one task, as loadHistory groups them. */
  function TaskOps(h: History, task: string): History {
    if h == [] then []
    else TaskOps(h[..|h| - 1], task) + if h[|h| - 1].task == task then [h[|h| - 1]] else []
  }

  lemma {:induction false} TaskOpsAre(h: History, task: string)
    ensures forall op :: op in TaskOps(h, task) <==> op in h && op.task == task
  {
    if h != [] {
      TaskOpsAre(h[..|h| - 1], task);
      assert h == h[..|h| - 1] + [h[|h| - 1]];
    }
  }

  /** Two reads that go backward are reads of one task. */
  lemma BackwardWithinTask(h: History)
    ensures NoBackwardRead(h) ==> forall task :: NoBackwardRead(TaskOps(h, task))
    ensures (forall task :: task in Tasks(h) ==> NoBackwardRead(TaskOps(h, task))) ==> NoBackwardRead(h)
  {
    forall task
      ensures forall op :: op in TaskOps(h, task) <==> op in h && op.task == task
    {
      TaskOpsAre(h, task);
    }
    hide TaskOps;
    if forall task :: task in Tasks(h) ==> NoBackwardRead(TaskOps(h, task)) {
      forall a, b | a in h && b in h && Precedes(a, b) && a.task == b.task
        ensures Forward(a, b)
      {
        assert a.task in Tasks(h);
        assert a in TaskOps(h, a.task) && b in TaskOps(h, a.task);
      }
    }
  }

  /** Checking each task on its own accepts exactly the histories that one check of the whole
      history against the product model accepts. */
  lemma Locality(h: History)
    requires Timed(h)
    ensures Linearizable(h) <==> forall task :: LinearizableTask(TaskOps(h, task))
  {
    Characterisation(h);
    BackwardWithinTask(h);
    hide LinearizableTask, Linearizable, NoBackwardRead;
    forall task
      ensures LinearizableTask(TaskOps(h, task)) <==> NoBackwardRead(TaskOps(h, task))
    {
      TaskOpsAre(h, task);
      TaskCharacterisation(TaskOps(h, task));
    }
    if task :| !LinearizableTask(TaskOps(h, task)) {
      assert !NoBackwardRead(TaskOps(h, task));
    } else {
      assert forall task :: NoBackwardRead(TaskOps(h, task)) by {
        forall task
          ensures NoBackwardRead(TaskOps(h, task))
        {
          assert LinearizableTask(TaskOps(h, task));
        }
      }
    }
  }

  /** Polls of one task that do not overlap are linearizable exactly if the known codes never
      decrease in call order. */
  lemma SequentialPolls(h: History)
    requires Timed(h) && OneTask(h) && forall j, k :: 0 <= j < k < |h| ==> Precedes(h[j], h[k])
    ensures LinearizableTask(h) <==>
            forall j, k :: 0 <= j < k < |h| && h[k].code != UNKNOWN ==> h[j].code <= h[k].code
  {
    TaskCharacterisation(h);
    if NoBackwardRead(h) {
      forall j, k | 0 <= j < k < |h| && h[k].code != UNKNOWN
        ensures h[j].code <= h[k].code
      {
        assert Precedes(h[j], h[k]) && Forward(h[j], h[k]);
      }
    }
  }

  /** The verdict does not depend on the order in which the polls are listed, so sorting them
      first changes nothing. */
  lemma SortingIsHarmless(h: History, h': History)
    requires Timed(h) && OneTask(h) && multiset(h) == multiset(h')
    ensures LinearizableTask(h') <==> LinearizableTask(h)
  {
    forall op
      ensures op in h' <==> op in h
    {
      assert (op in h' <==> op in multiset(h')) && (op in h <==> op in multiset(h));
    }
    TaskCharacterisation(h);
    TaskCharacterisation(h');
  }

  // --- The checker ---

  /** A line of the history file, decoded. */
  datatype RawEvent = RawEvent(op: string, task: string, call: int, ret: int, status: string)

  predicate Observes(line: Option<RawEvent>) {
    && line.Some? && line.value.op == "poll_observe" && line.value.task != ""
    && StatusCode(line.value.status) != UNKNOWN
  }

  function Poll(ev: RawEvent): Op {
    Op(ev.task, StatusCode(ev.status), ev.call, ev.ret)
  }

  /** The polls with a known status, in the order of the file. A line that cannot be decoded is
      `None`. */
  function Observed(lines: seq<Option<RawEvent>>): History {
    if lines == [] then []
    else
      var n := |lines| - 1;
      Observed(lines[..n]) + if Observes(lines[n]) then [Poll(lines[n].value)] else []
  }

  function Tasks(h: History): set<string> {
    set op | op in h :: op.task
  }

  /** `groups` holds the polls of `h`, task by task. */
  ghost predicate Groups(groups: map<string, History>, h: History) {
    groups.Keys == Tasks(h) && forall task :: task in groups ==> groups[task] == TaskOps(h, task)
  }

  method LoadHistory(lines: seq<Option<RawEvent>>) returns (groups: map<string, History>)
    ensures Groups(groups, Observed(lines))
  {
    groups := map[];
    hide Groups;
    NoGroups();
    assert lines[..0] == [];
    var n := 0;
    while n < |lines|
      invariant 0 <= n <= |lines|
      invariant Groups(groups, Observed(lines[..n]))
    {
      ObservedNext(lines, n);
      if Observes(lines[n]) {
        var op := Poll(lines[n].value);
        GroupsAdd(groups, Observed(lines[..n]), op);
        groups := groups[op.task := (if op.task in groups then groups[op.task] else []) + [op]];
      }
      n := n + 1;
    }
    assert lines[..n] == lines;
  }

  lemma NoGroups()
    ensures Groups(map[], Observed([]))
  {
  }

  lemma ObservedNext(lines: seq<Option<RawEvent>>, n: nat)
    requires n < |lines|
    ensures Observed(lines[..n + 1]) ==
            if Observes(lines[n]) then Observed(lines[..n]) + [Poll(lines[n].value)] else Observed(lines[..n])
  {
    assert lines[..n + 1][..n] == lines[..n];
  }

  lemma GroupsAdd(groups: map<string, History>, h: History, op: Op)
    requires Groups(groups, h)
    ensures Groups(groups[op.task := (if op.task in groups then groups[op.task] else []) + [op]], h + [op])
  {
    var groups' := groups[op.task := (if op.task in groups then groups[op.task] else []) + [op]];
    assert groups'.Keys == Tasks(h + [op]);
    TaskOpsAre(h, op.task);
    assert (h + [op])[..|h|] == h;
    assert TaskOps(h, op.task) != [] ==> TaskOps(h, op.task)[0] in h;
  }

  /** The number of polls of the tasks `ts`. */
  function CountIn(h: History, ts: set<string>): nat {
    if h == [] then 0
    else CountIn(h[..|h| - 1], ts) + if h[|h| - 1].task in ts then 1 else 0
  }

  lemma {:induction false} CountAdd(h: History, ts: set<string>, task: string)
    requires task !in ts
    ensures CountIn(h, ts + {task}) == CountIn(h, ts) + |TaskOps(h, task)|
  {
    if h != [] {
      CountAdd(h[..|h| - 1], ts, task);
    }
  }

  /** The tasks `ts` have `n` polls. */
  ghost predicate Counted(h: History, ts: set<string>, n: nat) {
    CountIn(h, ts) == n
  }

  lemma CountNext(h: History, ts: set<string>, n: nat, task: string, ops: History)
    requires Counted(h, ts, n) && task !in ts && ops == TaskOps(h, task)
    ensures Counted(h, ts + {task}, n + |ops|)
  {
    CountAdd(h, ts, task);
  }

  lemma {:induction false} CountAll(h: History, ts: set<string>)
    ensures ts == {} ==> Counted(h, ts, 0)
    ensures Tasks(h) <= ts ==> Counted(h, ts, |h|)
  {
    if h != [] {
      CountAll(h[..|h| - 1], ts);
      assert h[|h| - 1].task in Tasks(h) && Tasks(h[..|h| - 1]) <= Tasks(h);
    }
  }

  datatype CheckResult = CheckResult(
    totalTasks: nat,
    totalOperations: nat,
    violations: nat,
    sample: seq<string>,
    linearizable: bool)

  ghost function Violating(h: History): set<string> {
    set task | task in Tasks(h) && !NoBackwardRead(TaskOps(h, task))
  }

  /** `found` lists the members of `bad` among `done`. */
  ghost predicate Found<T(!new)>(found: seq<T>, bad: set<T>, done: set<T>) {
    (forall x :: x in found <==> x in bad && x in done) && |found| == |bad * done|
  }

  lemma MoveOver<T>(todo: set<T>, done: set<T>, x: T)
    requires todo !! done && x in todo
    ensures todo - {x} !! done + {x} && (todo - {x}) + (done + {x}) == todo + done && |todo - {x}| < |todo|
  {
  }

  lemma FoundNone<T(!new)>(bad: set<T>)
    ensures Found([], bad, {})
  {
  }

  lemma FoundNext<T(!new)>(found: seq<T>, bad: set<T>, done: set<T>, x: T)
    requires Found(found, bad, done) && x !in done
    ensures x in bad ==> Found(found + [x], bad, done + {x})
    ensures x !in bad ==> Found(found, bad, done + {x})
  {
    assert bad * (done + {x}) == if x in bad then bad * done + {x} else bad * done;
  }

  lemma FoundAll<T(!new)>(found: seq<T>, bad: set<T>, all: set<T>)
    requires Found(found, bad, all) && bad <= all
    ensures |found| == |bad| && (forall x :: x in found ==> x in bad) && (found == [] <==> bad == {})
  {
    assert bad * all == bad;
  }

  lemma TaskIs(groups: map<string, History>, h: History, task: string)
    requires Groups(groups, h) && task in Tasks(h)
    ensures task in groups && groups[task] == TaskOps(h, task)
    ensures task in Violating(h) <==> !NoBackwardRead(TaskOps(h, task))
  {
  }

  /** The loop of main: one check a task. */
  method CheckTasks(groups: map<string, History>, ghost h: History) returns (violating: seq<string>, totalOps: nat)
    requires Groups(groups, h)
    ensures Found(violating, Violating(h), Tasks(h)) && totalOps == |h|
  {
    violating, totalOps := [], 0;
    var todo := groups.Keys;
    ghost var done: set<string> := {};
    CountAll(h, {});
    FoundNone(Violating(h));
    assert todo == Tasks(h);
    hide NoBackwardRead, Found, Violating, Tasks, Groups, Counted, CountIn, TaskOps;
    while todo != {}
      invariant todo !! done && todo + done == Tasks(h)
      invariant Counted(h, done, totalOps) && Found(violating, Violating(h), done)
      decreases |todo|
    {
      var task :| task in todo;
      assert task in Tasks(h) && task !in done;
      TaskIs(groups, h, task);
      CountNext(h, done, totalOps, task, groups[task]);
      FoundNext(violating, Violating(h), done, task);
      totalOps := totalOps + |groups[task]|;
      if !NoBackwardRead(groups[task]) {
        violating := violating + [task];
      }
      MoveOver(todo, done, task);
      todo, done := todo - {task}, done + {task};
    }
    TotalIs(h, done, totalOps);
  }

  lemma TotalIs(h: History, ts: set<string>, n: nat)
    requires Counted(h, ts, n) && ts == Tasks(h)
    ensures n == |h|
  {
    CountAll(h, ts);
  }

  /** The verdict of the checker is about the whole history. */
  method CheckHistory(lines: seq<Option<RawEvent>>) returns (res: CheckResult)
    ensures var h := Observed(lines);
            && res.totalTasks == |Tasks(h)| && res.totalOperations == |h|
            && res.violations == |Violating(h)|
            && |res.sample| == (if res.violations > 20 then 20 else res.violations)
            && (forall task :: task in res.sample ==> task in Violating(h))
            && (Timed(h) ==> (res.linearizable <==> Linearizable(h)))
  {
    ghost var h := Observed(lines);
    var groups := LoadHistory(lines);
    var violating, totalOps := CheckTasks(groups, h);
    FoundAll(violating, Violating(h), Tasks(h));
    NoneViolating(h);
    hide Violating, Linearizable, Timed;
    var sample := if |violating| > 20 then violating[..20] else violating;
    assert |groups| == |groups.Keys|;
    res := CheckResult(|groups|, totalOps, |violating|, sample, |violating| == 0);
  }

  lemma NoneViolating(h: History)
    ensures Timed(h) ==> (Violating(h) == {} <==> Linearizable(h))
  {
    BackwardWithinTask(h);
    if Timed(h) {
      Characterisation(h);
    }
    hide Linearizable, NoBackwardRead;
    if Violating(h) == {} {
      forall task | task in Tasks(h)
        ensures NoBackwardRead(TaskOps(h, task))
      {
        assert task !in Violating(h);
      }
    } else {
      var task :| task in Violating(h);
    }
  }
}
