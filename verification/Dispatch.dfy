/** The dispatcher, the state machine that the log drives (raft/dispatcher.go). */
module Dispatch {
  import opened RaftTypes
  import opened LogStore

  /** The task a command dispatches, if it is a dispatch command for one. */
  function TaskOf(c: Command): Option<string> {
    if c.Dispatch? && c.task != "" then Some(c.task) else None
  }

  /** The task that Apply treats as new. */
  function NewTask(dispatched: set<string>, c: Command): Option<string> {
    if TaskOf(c).Some? && TaskOf(c).value !in dispatched then TaskOf(c) else None
  }

  function Mark(dispatched: set<string>, c: Command): set<string> {
    if NewTask(dispatched, c).Some? then dispatched + {NewTask(dispatched, c).value} else dispatched
  }

  function TaskSet(t: Option<string>): set<string> {
    if t.Some? then {t.value} else {}
  }

  /** The tasks of the entries up to index `k`. */
  function Tasks(log: Log, k: nat): set<string>
    requires k < |log|
  {
    if k == 0 then TaskSet(TaskOf(log[0].command)) else Tasks(log, k - 1) + TaskSet(TaskOf(log[k].command))
  }

  /** Applying the entries from `k + 1` to `n` in turn when every publish succeeds. */
  function Replay(dispatched: set<string>, log: Log, k: nat, n: nat): set<string>
    requires k <= n < |log|
  {
    if k == n then dispatched else Mark(Replay(dispatched, log, k, n - 1), log[n].command)
  }

  lemma {:induction false} TasksGrow(log: Log, k: nat, n: nat)
    requires k <= n < |log|
    ensures Tasks(log, k) <= Tasks(log, n)
  {
    if k < n {
      TasksGrow(log, k, n - 1);
    }
  }

  /** Snapshot plus tail is full replay: a state that was written down late, so that it holds the
      tasks up to its label `k` and some of those up to `m`, becomes the state after the whole log
      once the entries from the label to any `n` beyond `m` are replayed on it. */
  lemma {:induction false} SnapshotPlusTail(data: set<string>, log: Log, k: nat, m: nat, n: nat)
    requires k <= m <= n < |log| && log[0] == DUMMY
    requires Tasks(log, k) <= data <= Tasks(log, m)
    ensures Replay(data, log, k, n) == Replay({}, log, 0, n) == Tasks(log, n)
  {
    ReplayAdds(data, log, k, n);
    ReplayAdds({}, log, 0, n);
    TasksGrow(log, m, n);
  }

  lemma {:induction false} ReplayAdds(data: set<string>, log: Log, k: nat, n: nat)
    requires k <= n < |log|
    ensures Replay(data, log, k, n) + Tasks(log, k) == data + Tasks(log, n)
    ensures data <= Replay(data, log, k, n)
  {
    if k < n {
      ReplayAdds(data, log, k, n - 1);
    }
  }

  /** What becomes of an ingest message: `acked`, and the command proposed for it. */
  datatype Ingest = Ingest(acked: bool, proposed: Option<Command>)

  /** What waiting for a proposal ends with. */
  datatype Waited = Refused | Timeout | Result(committed: bool)

  class Dispatcher {
    var dispatched: set<string>

    constructor ()
      ensures dispatched == {}
    {
      dispatched := {};
    }

    /** `leader` is what IsLeader returns, `publishes` whether the queue takes the message. */
    method Apply(entry: LogEntry, leader: bool, publishes: bool) returns (published: Option<string>)
      modifies this
      ensures published == if leader && publishes then NewTask(old(dispatched), entry.command) else None
      ensures dispatched == if leader && !publishes then old(dispatched) else Mark(old(dispatched), entry.command)
    {
      published := None;
      if !entry.command.Dispatch? || entry.command.task == "" {
        return;
      }
      var task := entry.command.task;
      var already := task in dispatched;
      if !already {
        dispatched := dispatched + {task};
      }
      if already {
        return;
      }
      if !leader {
        return;
      }
      if !publishes {
        dispatched := dispatched - {task};
        return;
      }
      published := Some(task);
    }

    /** Every dispatched task once. */
    method Snapshot() returns (ids: seq<string>)
      ensures IdsOf(ids) == dispatched && |ids| == |dispatched|
    {
      ids := [];
      var todo := dispatched;
      while todo != {}
        invariant todo <= dispatched && IdsOf(ids) == dispatched - todo && |ids| + |todo| == |dispatched|
        decreases |todo|
      {
        var id :| id in todo;
        IdsNext(ids, dispatched, todo, id);
        ids := ids + [id];
        todo := todo - {id};
      }
    }

    method Restore(ids: seq<string>)
      modifies this
      ensures dispatched == IdsOf(ids)
    {
      dispatched := {};
      var k := 0;
      while k < |ids|
        invariant 0 <= k <= |ids| && dispatched == IdsOf(ids[..k])
      {
        IdsAdd(ids, k);
        dispatched := dispatched + {ids[k]};
        k := k + 1;
      }
      assert ids[..k] == ids;
    }

    /** handleIngest for a message about `task`, which is empty if the body is malformed. `s3Key`
        is the result of the lookup, `None` if it failed; `waited` is what the proposal ends with. */
    method HandleIngest(task: string, priority: int, s3Key: Option<string>, waited: Waited) returns (r: Ingest)
      ensures r.proposed ==
        if task != "" && task !in dispatched && s3Key.Some? && s3Key.value != ""
        then Some(Command.Dispatch(task, priority, s3Key.value))
        else None
      ensures r.acked <==>
        if r.proposed.Some? then waited == Result(true)
        else task == "" || task in dispatched || s3Key == Some("")
    {
      if task == "" {
        return Ingest(true, None);
      }
      if task in dispatched {
        return Ingest(true, None);
      }
      if s3Key.None? {
        return Ingest(false, None);
      }
      if s3Key.value == "" {
        return Ingest(true, None);
      }
      var cmd := Command.Dispatch(task, priority, s3Key.value);
      match waited
      case Refused => r := Ingest(false, Some(cmd));
      case Timeout => r := Ingest(false, Some(cmd));
      case Result(committed) => r := Ingest(committed, Some(cmd));
    }
  }

  function IdsOf<T>(ids: seq<T>): set<T> {
    set id | id in ids
  }

  lemma IdsAdd<T>(ids: seq<T>, k: nat)
    requires k < |ids|
    ensures IdsOf(ids[..k + 1]) == IdsOf(ids[..k]) + {ids[k]}
  {
  }

  lemma IdsNext<T>(ids: seq<T>, all: set<T>, todo: set<T>, id: T)
    requires todo <= all && IdsOf(ids) == all - todo && id in todo
    ensures todo - {id} <= all && IdsOf(ids + [id]) == all - (todo - {id})
    ensures |todo - {id}| == |todo| - 1
  {
    assert (ids + [id])[..|ids|] == ids && (ids + [id])[..|ids| + 1] == ids + [id];
    IdsAdd(ids + [id], |ids|);
  }
}
