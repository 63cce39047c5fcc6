/** What becomes of an ingest message once it is acknowledged (raft/dispatcher.go:251-274). */
module Fates {
  import opened RaftTypes
  import opened LogStore
  import opened Cluster
  import opened Invariant
  import opened Shipping
  import opened Safety
  import opened Waiters
  import opened Proposals
  import opened Dispatch
  import opened Publishing
  import opened Whole
  import Replicas
  import ReplicaRuns

  /** The caller on channel `k` was told that its entry is committed, so that it acknowledges. */
  predicate ToldCommitted(d: Desk, k: nat) {
    && k < |d.book.channels| && k < |d.asked|
    && d.book.channels[k].sent != [] && d.book.channels[k].sent[0].committed
  }

  lemma DecidedInLog(c: Cluster, log: Log, i: nat, e: LogEntry)
    requires AgreedLog(c, log) && Decided(c, i, e)
    ensures i < |log| && log[i] == e
  {
    var x :| x in c.h.commits && i <= x.index && x.term in c.h.leaderLogs
             && i < |c.h.leaderLogs[x.term]| && c.h.leaderLogs[x.term][i] == e;
    AgreeWeaken(log, c.h.leaderLogs[x.term], x.index, i);
  }

  /** The entry of a caller that was told it is committed is in the log at its index exactly if the term
      in the result is the term of the proposal. The dispatcher does not look at that term. */
  lemma AckedInLog(ids: set<NodeId>, o: Office, log: Log, n: NodeId, k: nat)
    requires ReachableOffice(ids, o, false) && AgreedLog(o.c, log) && n in o.desks && ToldCommitted(o.desks[n], k)
    ensures var d := o.desks[n];
            && d.asked[k].index < |log| && d.book.channels[k].index == d.asked[k].index
            && (log[d.asked[k].index] == d.asked[k] <==> d.book.channels[k].sent[0].term == d.asked[k].term)
  {
    hide ReachableOffice, AgreedLog, Decided;
    WaiterResults(ids, o, n, k);
    AskedIndex(ids, o, n, k);
    var e :| Outcome(o.c, n, o.desks[n], k, e);
    DecidedInLog(o.c, log, o.desks[n].asked[k].index, e);
  }

  lemma AskedIndex(ids: set<NodeId>, o: Office, n: NodeId, k: nat)
    requires ReachableOffice(ids, o, false) && n in o.desks && k < |o.desks[n].book.channels|
    ensures var d := o.desks[n];
            && |d.asked| == |d.book.channels| && d.asked[k].index == d.book.channels[k].index
            && (d.book.channels[k].closed <==> d.book.channels[k].sent != [])
  {
    hide Inv, Ship, TakenOk, SentOk;
    ReachableOfficeOk(ids, o, false);
    assert DeskOk(o.c, n, o.desks[n]) && OneResult(o.desks[n].book.channels[k]);
  }

  lemma TaskAtIndex(log: Log, i: nat, k: nat, task: string)
    requires i <= k < |log| && TaskOf(log[i].command) == Some(task)
    ensures task in Tasks(log, k)
  {
    Replicas.TaskIsIn(log, i, k);
  }

  /** What the acknowledgement of the message on channel `k`, about `task`, says. Its entry is in the log
      exactly if the terms match. The node has published the task exactly if it led more often on
      treating the task as new than its publish failed; without snapshots and failures, exactly if it
      led when it first applied the task; and it has applied it if the terms match. */
  lemma AckExact(ids: set<NodeId>, log: Log, p: Program, n: NodeId, k: nat, task: string)
    requires Arises(ids, log, p) && AgreedLog(p.o.c, log) && n in p.o.desks && ToldCommitted(p.o.desks[n], k)
    requires TaskOf(p.o.desks[n].asked[k].command) == Some(task)
    ensures n in p.s.replicas && task in p.s.replicas[n].acks
    ensures var d, r := p.o.desks[n], p.s.replicas[n];
            var same := d.book.channels[k].sent[0].term == d.asked[k].term;
            && d.asked[k].index < |log| && (log[d.asked[k].index] == d.asked[k] <==> same)
            && (task in r.published <==> Led(Replicas.Settled(r))[task] > multiset(r.failures)[task])
            && (task !in r.failures && !Replicas.IsPublishing(r) ==>
                  && (task in r.published <==> Replicas.Fresh(task, true) in r.marks)
                  && (same && r.installed == 0 ==> (task in r.published <==> Replicas.Fresh(task, false) !in r.marks)))
  {
    hide Arises, AgreedLog, ReachableOffice, ReplicaRuns.Reachable, Led, Tasks;
    ProgramOk(ids, log, p);
    ReplicaRuns.AnyRun(log, ids, ReplicaRuns.KeepsIndex(ids), p.s);
    AckedInLog(ids, p.o, log, n, k);
    var d, r := p.o.desks[n], p.s.replicas[n];
    ReplicaRuns.PublishedExactly(log, ids, p.s, n, task);
    if task !in r.failures && !Replicas.IsPublishing(r) {
      ReplicaRuns.TreatedIff(log, ids, p.s, n, task);
      if r.installed == 0 && d.book.channels[k].sent[0].term == d.asked[k].term {
        ReplicaRuns.AppliedIsTreated(log, ids, p.s, n);
        TaskAtIndex(log, d.asked[k].index, Replicas.Reach(r), task);
        ReplicaRuns.TreatedExactlyOnce(log, ids, p.s, n, task);
      }
    }
  }
}
