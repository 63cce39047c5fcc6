/** The whole program: the cluster with its Propose callers, and on every node the dispatcher, over the
    log that the members agree on.

    A step of the cluster that touches the apply loop or a snapshot is a step of the replica of its
    node too. Between picking an entry and recording it, the dispatcher's Apply marks the task and
    asks for the node's role in one step, and publishes in another (raft/dispatcher.go:122-155). */
module Whole {
  import opened RaftTypes
  import opened LogStore
  import opened Handlers
  import opened Cluster
  import opened Invariant
  import opened Footprint
  import opened Shipping
  import opened Shipped
  import opened ApplyLoop
  import opened Waiters
  import opened Proposals
  import opened Silencing
  import opened Dispatch
  import Replicas
  import ReplicaRuns

  type Replica = Replicas.Replica
  type System = Replicas.System
  type Snap = Replicas.Snap

  /** `shipped` has the data that goes with each snapshot request. */
  datatype Program = Program(o: Office, s: System, shipped: set<(Message, Snap)>)

  /** `data` is that of the request that is handled. */
  datatype Act =
    | Take(v: Move, data: Option<Snap>)
    | Treat(n: NodeId)
    | Own(a: Replicas.Action)

  /** The steps that the node's mutex has no part in. */
  predicate IsOwn(a: Replicas.Action) {
    a.Publish? || a.Serialize? || a.Restore? || a.RestoreFails? || a.AckKnown?
  }

  /** The task of the proposal whose waiter the apply loop has taken. */
  function Told(d: Desk): Option<string> {
    if d.taken.Some? && d.taken.value.1.Some? && d.taken.value.1.value < |d.asked|
    then TaskOf(d.asked[d.taken.value.1.value].command) else None
  }

  /** The replica's part in step `a` of a node, which leaves it with commit index `k`. */
  function EchoOf(m: Member, d: Desk, a: Action, k: nat, data: Option<Snap>): Option<Replicas.Action> {
    match a
    case ApplyBegin(n) => Some(Replicas.PickNext(n))
    case ApplyEnd(n) => Some(Replicas.Bump(n, Told(d)))
    case CaptureLabel(n) => Some(Replicas.Capture(n))
    case FinishSnapshot(n) => Some(Replicas.FinishSnapshot(n))
    case DropSnapshot(n) => Some(Replicas.AbandonSnapshot(n))
    case HandleSnapshot(n, _, _, _, _) =>
      if Installing(m, a) && data.Some? then Some(Replicas.Install(n, data.value)) else None
    case _ => if k == m.s.commit then None else Some(Replicas.Commit(a.n, k))
  }

  function Echo(o: Office, v: Move, data: Option<Snap>): Option<Replicas.Action>
    requires CanMove(o, v) && (v.Step? ==> v.a.n in Do(o.c, v.a).members)
  {
    match v
    case AbortAll(_) => None
    case Step(a) => EchoOf(o.c.members[a.n], o.desks[a.n], a, Do(o.c, a).members[a.n].s.commit, data)
  }

  /** Apply has returned, the state machine is written down, the request has come with its data. */
  predicate Ready(p: Program, v: Move, data: Option<Snap>) {
    v.Step? && v.a.n in p.s.replicas && v.a.n in p.o.c.members ==>
      var r := p.s.replicas[v.a.n];
      match v.a
      case ApplyEnd(n) => r.pick.Some? && r.pick.value.stage == Replicas.Finished
      case FinishSnapshot(n) => r.taken.Some?
      case HandleSnapshot(n, snap, prefix, _, _) =>
        Installing(p.o.c.members[n], v.a) ==> data.Some? && (SnapReq(n, snap, prefix), data.value) in p.shipped
      case _ => true
  }

  /** A snapshot goes with the data cached. */
  function Shipment(p: Program, v: Move): set<(Message, Snap)> {
    if v.Step? && v.a.SendSnapshot? && v.a.n in p.o.c.members && v.a.n in p.s.replicas then
      var m, r := p.o.c.members[v.a.n], p.s.replicas[v.a.n];
      if m.cache.Some? && m.cache.value.index < |m.s.log| && r.cached.Some?
      then {(SnapshotFor(m, v.a.n, v.a.to), r.cached.value)} else {}
    else {}
  }

  predicate Plays(log: Log, s: System, e: Option<Replicas.Action>, s2: System) {
    if e.None? then s2 == s else Replicas.Enabled(log, s, e.value) && s2 == Replicas.Do(log, s, e.value)
  }

  ghost predicate Goes(log: Log, p: Program, x: Act, p2: Program) {
    match x
    case Take(v, data) =>
      && CanMove(p.o, v) && Ready(p, v, data) && p2.o == Make(p.o, v)
      && (v.Step? ==> v.a.n in Do(p.o.c, v.a).members)
      && Plays(log, p.s, Echo(p.o, v, data), p2.s) && p2.shipped == p.shipped + Shipment(p, v)
    case Treat(n) =>
      && n in p.o.c.members && p2 == p.(s := p2.s)
      && Plays(log, p.s, Some(Replicas.MarkTask(n, p.o.c.members[n].s.role == Leader)), p2.s)
    case Own(a) => IsOwn(a) && p2 == p.(s := p2.s) && Plays(log, p.s, Some(a), p2.s)
  }

  ghost predicate Runs(log: Log, p: Program, run: seq<Act>, p2: Program)
    decreases |run|
  {
    if run == [] then p2 == p else exists p1 :: Goes(log, p, run[0], p1) && Runs(log, p1, run[1..], p2)
  }

  function Start(ids: set<NodeId>): Program {
    Program(Opening(ids), Replicas.Init(ids), {})
  }

  ghost predicate Arises(ids: set<NodeId>, log: Log, p: Program) {
    ids != {} && Full(log) && exists run :: Runs(log, Start(ids), run, p)
  }

  // --- How the two sides are linked ---

  function LoopIn(r: Replica): Loop {
    Loop(r.first, r.commit, r.applied, if r.pick.Some? then Some(r.pick.value.index) else None, r.capture,
         if r.cached.Some? then Some(r.cached.value.index) else None)
  }

  /** The same apply loop and labels, and the cached data has been saved. */
  ghost predicate Joined(m: Member, snaps: set<Snap>, r: Replica) {
    LoopOf(m) == LoopIn(r) && (r.cached.Some? ==> r.cached.value in snaps)
  }

  /** The task of every proposal that was told to be committed has been acknowledged, and the node has
      applied or covered its index. */
  ghost predicate AllAnswered(d: Desk, r: Replica) {
    && |d.asked| == |d.book.channels|
    && forall k :: 0 <= k < |d.asked| && d.book.channels[k].sent != [] && d.book.channels[k].sent[0].committed ==>
         && d.book.channels[k].index <= Reached(LoopIn(r))
         && forall t :: t in TaskSet(TaskOf(d.asked[k].command)) ==> t in r.acks
  }

  ghost predicate DataShipped(net: set<Message>, shipped: set<(Message, Snap)>, snaps: set<Snap>) {
    && (forall e :: e in shipped && e.0.SnapReq? ==> e.1.index == e.0.snap.lastIndex && e.1 in snaps)
    && (forall msg :: msg in net && msg.SnapReq? ==> exists snap :: (msg, snap) in shipped)
  }

  ghost predicate Linked(p: Program) {
    && p.s.replicas.Keys == p.o.c.members.Keys == p.o.desks.Keys
    && (forall n :: n in p.o.c.members ==> Joined(p.o.c.members[n], p.s.snaps, p.s.replicas[n]))
    && (forall n :: n in p.o.desks ==> AllAnswered(p.o.desks[n], p.s.replicas[n]))
    && DataShipped(p.o.c.net, p.shipped, p.s.snaps)
    && (forall a :: a in p.o.c.h.applied ==> a.node in p.s.replicas && a.index in p.s.replicas[a.node].picks)
  }

  // --- The dispatcher never bars a step of the cluster ---

  lemma EchoFits(log: Log, s: System, m: Member, d: Desk, a: Action, k: nat, data: Option<Snap>)
    requires a.n in s.replicas && LoopOf(m) == LoopIn(s.replicas[a.n]) && CanTurn(LoopOf(m), a)
    requires Replicas.Basic(log, s.replicas[a.n]) && k < |log| && (Elsewhere(a) ==> m.s.commit <= k)
    requires a.ApplyEnd? ==> s.replicas[a.n].pick.Some? && s.replicas[a.n].pick.value.stage == Replicas.Finished
    requires a.FinishSnapshot? ==> s.replicas[a.n].taken.Some?
    requires data.Some? ==> data.value in s.snaps
    ensures var e := EchoOf(m, d, a, k, data);
            e.Some? ==> Replicas.Enabled(log, s, e.value) && e.value.n == a.n
  {
    hide Installing, Told;
  }

  lemma EchoKeepsIndex(s: System, m: Member, d: Desk, a: Action, k: nat, data: Option<Snap>)
    requires a.n in s.replicas && LoopOf(m) == LoopIn(s.replicas[a.n])
    requires Installing(m, a) && data.Some? ==> m.s.commit <= data.value.index
    ensures var e := EchoOf(m, d, a, k, data);
            e.Some? ==> e.value.n == a.n && Replicas.NotBack(s, e.value)
  {
    hide Installing, Told, Replicas.Installs;
  }

  lemma PickTurns(log: Log, s: System, m: Member, n: NodeId, k: nat)
    requires Replicas.Enabled(log, s, Replicas.PickNext(n)) && LoopOf(m) == LoopIn(s.replicas[n])
    ensures LoopIn(Replicas.Local(log, s, Replicas.PickNext(n))) == Turned(LoopOf(m), ApplyBegin(n), false, k)
  {
  }

  lemma InstallTurns(m: Member, a: Action, r: Replica, snap: Snap, k: nat)
    requires LoopOf(m) == LoopIn(r) && a.HandleSnapshot? && snap.index == a.snap.lastIndex && Replicas.Installs(r, snap)
    ensures LoopIn(Replicas.DoInstall(r, snap)) == Turned(LoopOf(m), a, true, k)
  {
    hide Replicas.Installs;
  }

  lemma SnapshotTurns(log: Log, s: System, m: Member, d: Desk, a: Action, k: nat, data: Option<Snap>, s2: System)
    requires a.n in s.replicas && LoopOf(m) == LoopIn(s.replicas[a.n]) && a.HandleSnapshot?
    requires Plays(log, s, EchoOf(m, d, a, k, data), s2)
    requires Installing(m, a) ==> data.Some? && data.value.index == a.snap.lastIndex
    ensures a.n in s2.replicas && LoopIn(s2.replicas[a.n]) == Turned(LoopOf(m), a, Installing(m, a), k)
  {
    hide Turned, Replicas.DoInstall;
    LoopFields(m, s.replicas[a.n]);
    InstallsSame(m, s.replicas[a.n], a, data);
    hide Installing, LoopOf, LoopIn;
    if Installing(m, a) {
      InstallTurns(m, a, s.replicas[a.n], data.value, k);
    } else {
      NotTurned(LoopOf(m), a, k);
    }
  }

  lemma TakenLabel(log: Log, r: Replica)
    requires Replicas.Basic(log, r) && r.taken.Some?
    ensures r.capture == Some(r.taken.value.index)
  {
  }

  lemma OtherTurns(log: Log, s: System, m: Member, d: Desk, a: Action, k: nat, data: Option<Snap>, s2: System)
    requires a.n in s.replicas && LoopOf(m) == LoopIn(s.replicas[a.n]) && CanTurn(LoopOf(m), a)
    requires !a.HandleSnapshot? && !a.ApplyBegin?
    requires Replicas.Basic(log, s.replicas[a.n]) && Plays(log, s, EchoOf(m, d, a, k, data), s2)
    ensures a.n in s2.replicas && LoopIn(s2.replicas[a.n]) == Turned(LoopOf(m), a, false, k)
  {
    hide Told, Installing, Replicas.DoPick, Replicas.DoInstall, Replicas.DoMark, Replicas.DoPublish, Replicas.DoRestore,
      Replicas.Basic;
    if a.FinishSnapshot? {
      TakenLabel(log, s.replicas[a.n]);
    }
  }

  /** The replica's part does to its loop what the step does to the node's. */
  lemma EchoTurns(log: Log, s: System, m: Member, d: Desk, a: Action, k: nat, data: Option<Snap>, s2: System)
    requires a.n in s.replicas && LoopOf(m) == LoopIn(s.replicas[a.n]) && CanTurn(LoopOf(m), a)
    requires Replicas.Basic(log, s.replicas[a.n]) && Plays(log, s, EchoOf(m, d, a, k, data), s2)
    requires Installing(m, a) ==> a.HandleSnapshot? && data.Some? && data.value.index == a.snap.lastIndex
    ensures a.n in s2.replicas && LoopIn(s2.replicas[a.n]) == Turned(LoopOf(m), a, Installing(m, a), k)
  {
    hide Installing, Turned, LoopOf, LoopIn, CanTurn, Replicas.Basic;
    InstallingIs(m, a);
    if a.HandleSnapshot? {
      SnapshotTurns(log, s, m, d, a, k, data, s2);
    } else if a.ApplyBegin? {
      hide Replicas.Enabled, Replicas.Local;
      PickPlays(log, s, m, d, a.n, k, data, s2);
    } else {
      hide Plays, EchoOf;
      OtherTurns(log, s, m, d, a, k, data, s2);
    }
  }

  lemma PickPlays(log: Log, s: System, m: Member, d: Desk, n: NodeId, k: nat, data: Option<Snap>, s2: System)
    requires n in s.replicas && LoopOf(m) == LoopIn(s.replicas[n])
    requires Plays(log, s, EchoOf(m, d, ApplyBegin(n), k, data), s2)
    ensures n in s2.replicas && LoopIn(s2.replicas[n]) == Turned(LoopOf(m), ApplyBegin(n), false, k)
  {
    hide Replicas.DoPick, Turned, LoopOf, LoopIn, Installing;
    PickTurns(log, s, m, n, k);
  }

  lemma NotTurned(l: Loop, a: Action, k: nat)
    requires a.HandleSnapshot?
    ensures Turned(l, a, false, k) == l
  {
  }

  lemma InstallsSame(m: Member, r: Replica, a: Action, data: Option<Snap>)
    requires r.first == m.floor
    requires Installing(m, a) ==> a.HandleSnapshot? && data.Some? && data.value.index == a.snap.lastIndex
    ensures Installing(m, a) ==> Replicas.Installs(r, data.value)
  {
  }

  /** What every step of the replicas keeps. */
  lemma ReplicaStep(log: Log, s: System, e: Replicas.Action)
    requires Replicas.Enabled(log, s, e)
    requires s.replicas[e.n].cached.Some? ==> s.replicas[e.n].cached.value in s.snaps
    ensures var s2 := Replicas.Do(log, s, e);
            && s2.replicas.Keys == s.replicas.Keys && s.snaps <= s2.snaps
            && (forall x :: x in s.replicas && x != e.n ==> s2.replicas[x] == s.replicas[x])
            && (s2.replicas[e.n].cached.Some? ==> s2.replicas[e.n].cached.value in s2.snaps)
  {
    hide Mark, NewTask, TaskOf;
  }

  lemma ReplicaGrows(log: Log, s: System, e: Replicas.Action)
    requires Replicas.Enabled(log, s, e)
    ensures var r, r2 := s.replicas[e.n], Replicas.Local(log, s, e);
            && (forall i :: i in r.picks ==> i in r2.picks)
            && r2.acks == (match e
                           case Bump(_, told) => if told.Some? then r.acks + [told.value] else r.acks
                           case AckKnown(_, task) => r.acks + [task]
                           case _ => r.acks)
  {
    hide Mark, NewTask, TaskOf, Replicas.Installs;
  }

  lemma PicksNext(log: Log, s: System, n: NodeId)
    requires Replicas.Enabled(log, s, Replicas.PickNext(n)) && s.replicas[n].applied + 1 > s.replicas[n].first
    ensures s.replicas[n].applied + 1 in Replicas.Local(log, s, Replicas.PickNext(n)).picks
  {
  }

  /** What else the replica's part does: it keeps what was picked, saved and acknowledged. */
  ghost predicate Rest(m: Member, d: Desk, a: Action, s: System, s2: System)
    requires a.n in s.replicas
  {
    && s2.replicas.Keys == s.replicas.Keys && s.snaps <= s2.snaps
    && (forall x :: x in s.replicas && x != a.n ==> s2.replicas[x] == s.replicas[x])
    && var r, r2 := s.replicas[a.n], s2.replicas[a.n];
       && (r2.cached.Some? ==> r2.cached.value in s2.snaps)
       && (forall i :: i in r.picks ==> i in r2.picks)
       && (a.ApplyBegin? && m.s.applied + 1 > m.floor ==> m.s.applied + 1 in r2.picks)
       && r2.acks == (if a.ApplyEnd? && Told(d).Some? then r.acks + [Told(d).value] else r.acks)
  }

  lemma EchoRest(log: Log, s: System, m: Member, d: Desk, a: Action, k: nat, data: Option<Snap>, s2: System)
    requires a.n in s.replicas && LoopOf(m) == LoopIn(s.replicas[a.n])
    requires Plays(log, s, EchoOf(m, d, a, k, data), s2)
    requires s.replicas[a.n].cached.Some? ==> s.replicas[a.n].cached.value in s.snaps
    ensures Rest(m, d, a, s, s2)
  {
    hide Installing, Told, Replicas.Enabled, Replicas.Local, LoopIn;
    var e := EchoOf(m, d, a, k, data);
    if e.Some? {
      assert e.value.n == a.n;
      ReplicaStep(log, s, e.value);
      ReplicaGrows(log, s, e.value);
      if a.ApplyBegin? && m.s.applied + 1 > m.floor {
        LoopFields(m, s.replicas[a.n]);
        PicksNext(log, s, a.n);
      }
    }
  }

  lemma LoopFields(m: Member, r: Replica)
    requires LoopOf(m) == LoopIn(r)
    ensures r.first == m.floor && r.commit == m.s.commit && r.applied == m.s.applied
  {
  }

  // --- Every step keeps the link ---

  /** The parts of `Linked` that only name the other side's growth. */
  lemma ShippedOn(p: Program, v: Move, net2: set<Message>, snaps2: set<Snap>)
    requires DataShipped(p.o.c.net, p.shipped, p.s.snaps) && p.s.snaps <= snaps2
    requires forall msg :: msg in net2 && msg !in p.o.c.net && msg.SnapReq? ==>
               exists snap :: (msg, snap) in Shipment(p, v)
    requires v.Step? && v.a.n in p.o.c.members && v.a.n in p.s.replicas ==>
               Joined(p.o.c.members[v.a.n], p.s.snaps, p.s.replicas[v.a.n])
    ensures DataShipped(net2, p.shipped + Shipment(p, v), snaps2)
  {
  }

  lemma SentIsShipped(p: Program, a: Action)
    requires CanStep(p.o.c, a) && a.n in p.o.c.members && SendsOnly(p.o.c, a, Do(p.o.c, a)) && a.n in p.s.replicas
    requires Joined(p.o.c.members[a.n], p.s.snaps, p.s.replicas[a.n])
    ensures forall msg :: msg in Do(p.o.c, a).net && msg !in p.o.c.net && msg.SnapReq? ==>
              exists snap :: (msg, snap) in Shipment(p, Step(a))
  {
    hide Do, Enabled, WellFormed, SnapshotFor;
    forall msg | msg in Do(p.o.c, a).net && msg !in p.o.c.net && msg.SnapReq?
      ensures exists snap :: (msg, snap) in Shipment(p, Step(a))
    {
      assert (msg, p.s.replicas[a.n].cached.value) in Shipment(p, Step(a));
    }
  }

  lemma AckOne(acks: seq<string>, t: string)
    ensures forall x :: x in acks ==> x in acks + [t]
    ensures t in acks + [t]
  {
    assert (acks + [t])[|acks|] == t;
  }

  lemma DeliverAnswers(d: Desk, r: Replica, r2: Replica)
    requires AllAnswered(d, r) && d.taken.Some? && DeskReady(d)
    requires d.taken.value.1.Some? ==>
               d.book.channels[d.taken.value.1.value] == Channel(d.taken.value.0.index, [], false)
    requires r2.acks == if Told(d).Some? then r.acks + [Told(d).value] else r.acks
    requires Reached(LoopIn(r)) <= Reached(LoopIn(r2)) && d.taken.value.0.index <= Reached(LoopIn(r2))
    ensures var (e, waiter) := d.taken.value;
            AllAnswered(d.(book := Deliver(d.book, waiter, ProposeResult(true, e.index, e.term)), taken := None), r2)
  {
    hide LoopIn, Reached;
    if Told(d).Some? {
      AckOne(r.acks, Told(d).value);
    }
  }

  lemma OwnAnswers(m: Member, a: Action, d: Desk, r: Replica, r2: Replica)
    requires Full(m.s.log) && m.floor < |m.s.log| && Contiguous(Image(m).log) && DeskReady(d)
    requires AllAnswered(d, r) && Reached(LoopIn(r)) <= Reached(LoopIn(r2))
    requires d.taken.Some? && d.taken.value.1.Some? ==>
               d.book.channels[d.taken.value.1.value] == Channel(d.taken.value.0.index, [], false)
    requires a.ApplyEnd? && d.taken.Some? ==> d.taken.value.0.index <= Reached(LoopIn(r2))
    requires r2.acks == if a.ApplyEnd? && Told(d).Some? then r.acks + [Told(d).value] else r.acks
    ensures AllAnswered(DeskAfter(m, a, d), r2)
  {
    hide Image, PickEntry, Contiguous, Full, Told, LoopIn, Reached;
    match a
    case ApplyEnd(_) =>
      if d.taken.Some? {
        hide AllAnswered;
        DeliverAnswers(d, r, r2);
      } else {
        NothingTold(d);
      }
    case _ =>
  }

  lemma NothingTold(d: Desk)
    requires d.taken.None?
    ensures Told(d).None?
  {
  }

  lemma AbortAnswers(d: Desk, r: Replica, commit: nat)
    requires AllAnswered(d, r) && Tidy(d.book)
    ensures AllAnswered(d.(book := Abort(d.book, commit)), r)
  {
  }

  /** What a desk in order says about the waiter that is taken. */
  lemma TakenUnsent(o: Office, n: NodeId)
    requires n in o.desks
    requires OfficeOk(o)
    ensures var d := o.desks[n];
            && Tidy(d.book)
            && (d.taken.Some? ==> n in o.c.members && o.c.members[n].pending == Some(d.taken.value.0.index))
            && (d.taken.Some? && d.taken.value.1.Some? ==>
                  && d.taken.value.1.value < |d.book.channels|
                  && d.book.channels[d.taken.value.1.value] == Channel(d.taken.value.0.index, [], false))
  {
    hide Inv, Ship, Tidy, AskedOk, SentOk, Reported, WaitsOn;
    assert DeskOk(o.c, n, o.desks[n]);
  }

  lemma OwnLoop(log: Log, s: System, e: Replicas.Action)
    requires Replicas.Enabled(log, s, e) && (e.MarkTask? || IsOwn(e))
    ensures LoopIn(Replicas.Local(log, s, e)) == LoopIn(s.replicas[e.n])
    ensures Replicas.Local(log, s, e).cached == s.replicas[e.n].cached
    ensures Replicas.NotBack(s, e)
  {
    hide Mark, NewTask, TaskOf;
  }

  lemma MoreAnswered(d: Desk, r: Replica, r2: Replica)
    requires AllAnswered(d, r) && LoopIn(r2) == LoopIn(r) && forall t :: t in r.acks ==> t in r2.acks
    ensures AllAnswered(d, r2)
  {
  }

  lemma LinkAt(p: Program, n: NodeId)
    requires Linked(p) && n in p.o.c.members
    ensures n in p.s.replicas && n in p.o.desks && Joined(p.o.c.members[n], p.s.snaps, p.s.replicas[n])
    ensures AllAnswered(p.o.desks[n], p.s.replicas[n])
  {
    hide Joined, AllAnswered, DataShipped;
  }

  /** One node moves on both sides. */
  lemma LinkMoved(p: Program, p2: Program, n: NodeId)
    requires Linked(p) && n in p.o.c.members
    requires p2.o.c.members.Keys == p.o.c.members.Keys && p2.o.desks.Keys == p.o.desks.Keys
    requires p2.s.replicas.Keys == p.s.replicas.Keys && p.s.snaps <= p2.s.snaps
    requires forall x :: x in p.o.c.members && x != n ==>
               && p2.o.c.members[x] == p.o.c.members[x] && p2.o.desks[x] == p.o.desks[x]
               && p2.s.replicas[x] == p.s.replicas[x]
    requires Joined(p2.o.c.members[n], p2.s.snaps, p2.s.replicas[n])
    requires AllAnswered(p2.o.desks[n], p2.s.replicas[n]) && DataShipped(p2.o.c.net, p2.shipped, p2.s.snaps)
    requires forall i :: i in p.s.replicas[n].picks ==> i in p2.s.replicas[n].picks
    requires forall a :: a in p2.o.c.h.applied && a !in p.o.c.h.applied ==>
               a.node == n && a.index in p2.s.replicas[n].picks
    ensures Linked(p2)
  {
    hide AllAnswered, DataShipped, LoopOf, LoopIn;
  }

  lemma OwnKeepsLink(log: Log, p: Program, p2: Program, e: Replicas.Action)
    requires Linked(p) && (e.MarkTask? || IsOwn(e)) && Plays(log, p.s, Some(e), p2.s) && p2 == p.(s := p2.s)
    ensures Linked(p2) && Replicas.NotBack(p.s, e)
  {
    hide Joined, AllAnswered, DataShipped, Replicas.Enabled, Replicas.Local, IsOwn, LoopIn, LoopOf;
    EnabledAt(log, p.s, e);
    LinkAt(p, e.n);
    OwnLoop(log, p.s, e);
    var r, r2 := p.s.replicas[e.n], p2.s.replicas[e.n];
    JoinedCached(p.o.c.members[e.n], p.s.snaps, r);
    ReplicaStep(log, p.s, e);
    ReplicaGrows(log, p.s, e);
    AcksGrow(r.acks, r2.acks);
    MoreAnswered(p.o.desks[e.n], r, r2);
    JoinedStill(p.o.c.members[e.n], p.s.snaps, r, p2.s.snaps, r2);
    NetShipped(p, p2.s.snaps);
    LinkMoved(p, p2, e.n);
  }

  lemma EnabledAt(log: Log, s: System, e: Replicas.Action)
    requires Replicas.Enabled(log, s, e)
    ensures e.n in s.replicas
  {
  }

  lemma JoinedCached(m: Member, snaps: set<Snap>, r: Replica)
    requires Joined(m, snaps, r)
    ensures r.cached.Some? ==> r.cached.value in snaps
    ensures LoopOf(m) == LoopIn(r)
  {
  }

  lemma JoinedStill(m: Member, snaps: set<Snap>, r: Replica, snaps2: set<Snap>, r2: Replica)
    requires Joined(m, snaps, r) && snaps <= snaps2 && LoopIn(r2) == LoopIn(r) && r2.cached == r.cached
    ensures Joined(m, snaps2, r2)
  {
  }

  lemma AcksGrow(acks: seq<string>, acks2: seq<string>)
    requires acks2 == acks || (exists t :: acks2 == acks + [t])
    ensures forall t :: t in acks ==> t in acks2
  {
  }

  lemma NetShipped(p: Program, snaps2: set<Snap>)
    requires Linked(p) && p.s.snaps <= snaps2
    ensures DataShipped(p.o.c.net, p.shipped, snaps2)
  {
  }

  lemma ReadyData(p: Program, a: Action, data: Option<Snap>)
    requires Linked(p) && Ready(p, Step(a), data) && a.n in p.o.c.members && Installing(p.o.c.members[a.n], a)
    ensures a.HandleSnapshot? && data.Some? && data.value.index == a.snap.lastIndex && data.value in p.s.snaps
  {
    hide InstallsSnapshot, Joined, AllAnswered;
    InstallingIs(p.o.c.members[a.n], a);
  }

  /** Apply is called for the entry picked, if it is beyond the floor. */
  lemma NewApplied(c: Cluster, a: Action)
    requires CanStep(c, a) && a.n in c.members && c.members[a.n].s.commit < |c.members[a.n].s.log|
    ensures forall e :: e in Do(c, a).h.applied && e !in c.h.applied ==>
              a.ApplyBegin? && e.node == a.n && e.index == c.members[a.n].s.applied + 1 > c.members[a.n].floor
  {
    hide Do, Enabled, WellFormed, InstallsSnapshot;
    match a
    case CaptureLabel(_) => LabelEffect(c, a);
    case FinishSnapshot(_) => LabelEffect(c, a);
    case DropSnapshot(_) => LabelEffect(c, a);
    case HandleSnapshot(_, _, _, _, _) => SnapshotEffect(c, a);
    case ApplyBegin(_) => ApplyEffect(c, a);
    case ApplyEnd(_) => EndEffect(c, a);
    case _ => ElsewhereLeaves(c, a);
  }

  /** What both sides know of the node that takes the step. */
  lemma StepContext(log: Log, p: Program, a: Action, data: Option<Snap>)
    requires CanMove(p.o, Step(a)) && Ready(p, Step(a), data) && Linked(p) && Replicas.Basics(log, p.s)
    requires Going(p.o)
    ensures a.n in p.s.replicas && a.n in p.o.c.members && a.n in p.o.desks && CanStep(p.o.c, a) && Forward(p.o.c, a)
    ensures var m, r := p.o.c.members[a.n], p.s.replicas[a.n];
            && Replicas.Basic(log, r) && LoopOf(m) == LoopIn(r) && (r.cached.Some? ==> r.cached.value in p.s.snaps)
            && (Installing(m, a) ==> && a.HandleSnapshot? && data.Some? && data.value.index == a.snap.lastIndex
                                     && m.s.commit <= data.value.index)
  {
    hide Going, CanMove, Do, Enabled, WellFormed, Guarded, Forward, Image, Contiguous, Full, Linked, Joined, Ready,
      Installing, Loops, Inv, LoopIn, LoopOf, Replicas.Basics, Replicas.Basic, OfficeOk;
    OwnMake(p.o, a);
    LinkAt(p, a.n);
    JoinedCached(p.o.c.members[a.n], p.s.snaps, p.s.replicas[a.n]);
    BasicAt(log, p.s, a.n);
    if Installing(p.o.c.members[a.n], a) {
      ReadyData(p, a, data);
      InstallsForward(p.o.c, a);
    }
  }

  /** The replica of the node that takes the step has moved with it. */
  lemma StepJoins(log: Log, p: Program, a: Action, data: Option<Snap>, s2: System)
    requires CanMove(p.o, Step(a)) && Ready(p, Step(a), data) && a.n in Do(p.o.c, a).members
    requires Plays(log, p.s, Echo(p.o, Step(a), data), s2) && Linked(p) && Replicas.Basics(log, p.s)
    requires Going(p.o)
    ensures a.n in p.s.replicas && a.n in s2.replicas && a.n in p.o.c.members
    ensures LoopIn(p.s.replicas[a.n]) == LoopOf(p.o.c.members[a.n])
    ensures LoopIn(s2.replicas[a.n]) == LoopOf(Do(p.o.c, a).members[a.n])
    ensures Reached(LoopIn(p.s.replicas[a.n])) <= Reached(LoopIn(s2.replicas[a.n]))
    ensures a.ApplyEnd? ==>
              p.o.c.members[a.n].pending.Some? && p.o.c.members[a.n].pending.value <= Reached(LoopIn(s2.replicas[a.n]))
  {
    hide Going, CanMove, Make, Do, Enabled, WellFormed, Forward, Image, Contiguous, Full, Linked, Joined, Plays, Ready,
      EchoOf, Installing, CanTurn, Turned, NextPick, Passed, Loops, LoopOk, Inv, LoopIn, LoopOf, Replicas.Basic,
      Replicas.Basics, OfficeOk, Picks, Reached;
    StepContext(log, p, a, data);
    GoingParts(p.o);
    LoopMoves(p.o.c, a);
    var m, d := p.o.c.members[a.n], p.o.desks[a.n];
    EchoTurns(log, p.s, m, d, a, Do(p.o.c, a).members[a.n].s.commit, data, s2);
  }

  lemma StepRest(log: Log, p: Program, a: Action, data: Option<Snap>, e: Option<Replicas.Action>, s2: System)
    requires CanMove(p.o, Step(a)) && Ready(p, Step(a), data) && a.n in Do(p.o.c, a).members
    requires e == Echo(p.o, Step(a), data)
    requires Plays(log, p.s, e, s2) && Linked(p) && Replicas.Basics(log, p.s)
    requires Going(p.o)
    ensures a.n in p.s.replicas && a.n in p.o.c.members && a.n in p.o.desks
    ensures Rest(p.o.c.members[a.n], p.o.desks[a.n], a, p.s, s2)
    ensures e.Some? ==> e.value.n in p.s.replicas && Replicas.NotBack(p.s, e.value)
  {
    hide Going, CanMove, Make, Do, Enabled, WellFormed, Guarded, Image, Contiguous, Full, Linked, Joined, Plays, Ready,
      EchoOf, Rest, Installing, Loops, Inv, LoopIn, LoopOf, Replicas.NotBack, Replicas.Basic, Replicas.Basics, OfficeOk;
    StepContext(log, p, a, data);
    var m, d, k := p.o.c.members[a.n], p.o.desks[a.n], Do(p.o.c, a).members[a.n].s.commit;
    EchoRest(log, p.s, m, d, a, k, data, s2);
    EchoKeepsIndex(p.s, m, d, a, k, data);
  }

  lemma GoingParts(o: Office)
    requires Going(o)
    ensures OfficeOk(o) && Inv(o.c) && Loops(o.c) && o.desks.Keys == o.c.members.Keys
  {
    hide OfficeOk, Loops;
    OfficeFacts(o);
  }

  lemma BasicAt(log: Log, s: System, n: NodeId)
    requires Replicas.Basics(log, s) && n in s.replicas
    ensures Replicas.Basic(log, s.replicas[n])
  {
  }

  lemma RestParts(m: Member, d: Desk, a: Action, s: System, s2: System)
    requires a.n in s.replicas && Rest(m, d, a, s, s2)
    ensures s2.replicas.Keys == s.replicas.Keys && s.snaps <= s2.snaps
    ensures forall x :: x in s.replicas && x != a.n ==> s2.replicas[x] == s.replicas[x]
    ensures s2.replicas[a.n].cached.Some? ==> s2.replicas[a.n].cached.value in s2.snaps
    ensures forall i :: i in s.replicas[a.n].picks ==> i in s2.replicas[a.n].picks
    ensures a.ApplyBegin? && m.s.applied + 1 > m.floor ==> m.s.applied + 1 in s2.replicas[a.n].picks
    ensures s2.replicas[a.n].acks ==
            if a.ApplyEnd? && Told(d).Some? then s.replicas[a.n].acks + [Told(d).value] else s.replicas[a.n].acks
  {
  }

  lemma TakeParts(log: Log, p: Program, a: Action, data: Option<Snap>, p2: Program)
    requires Goes(log, p, Take(Step(a), data), p2)
    ensures CanMove(p.o, Step(a)) && Ready(p, Step(a), data) && p2.o == Make(p.o, Step(a))
    ensures CanStep(p.o.c, a) && a.n in Do(p.o.c, a).members
    ensures Plays(log, p.s, Echo(p.o, Step(a), data), p2.s) && p2.shipped == p.shipped + Shipment(p, Step(a))
  {
    hide Make, Ready, Do, Plays, Shipment, Echo, Enabled, WellFormed, Guarded, Image, Contiguous;
  }

  lemma OthersMake(o: Office, a: Action)
    requires CanMove(o, Step(a))
    ensures Make(o, Step(a)).desks.Keys == o.desks.Keys
    ensures forall x :: x in o.desks && x != a.n ==> Make(o, Step(a)).desks[x] == o.desks[x]
  {
    hide Do, Enabled, WellFormed, Guarded, Image, Contiguous, DeskAfter;
  }

  lemma StepKeepsLink(log: Log, p: Program, a: Action, data: Option<Snap>, p2: Program)
    requires Goes(log, p, Take(Step(a), data), p2) && Linked(p) && Replicas.Basics(log, p.s)
    requires Going(p.o)
    ensures Linked(p2)
  {
    hide Going, CanMove, Do, Enabled, WellFormed, Guarded, Image, Contiguous, Full, Linked, Joined, Plays, Ready,
      Echo, Rest, AllAnswered, DataShipped, Inv, OfficeOk, Loops, LoopIn, LoopOf, DeskAfter, Told, Shipment,
      Replicas.Basics, Goes, Make, Reached;
    TakeParts(log, p, a, data, p2);
    OwnMake(p.o, a);
    OthersMake(p.o, a);
    GoingParts(p.o);
    StepJoins(log, p, a, data, p2.s);
    StepRest(log, p, a, data, Echo(p.o, Step(a), data), p2.s);
    var m, d, r := p.o.c.members[a.n], p.o.desks[a.n], p.s.replicas[a.n];
    RestParts(m, d, a, p.s, p2.s);
    LinkAt(p, a.n);
    CommitBelow(p.o.c, a.n);
    NewApplied(p.o.c, a);
    OnlyOneMoves(p.o.c, a);
    StepSends(p.o.c, a);
    TakenUnsent(p.o, a.n);
    OwnAnswers(m, a, d, r, p2.s.replicas[a.n]);
    SentIsShipped(p, a);
    LinkShipped(p);
    ShippedOn(p, Step(a), p2.o.c.net, p2.s.snaps);
    JoinedBy(Do(p.o.c, a).members[a.n], p2.s.snaps, p2.s.replicas[a.n]);
    LinkKeys(p);
    LinkMoved(p, p2, a.n);
  }

  lemma JoinedBy(m: Member, snaps: set<Snap>, r: Replica)
    requires LoopIn(r) == LoopOf(m) && (r.cached.Some? ==> r.cached.value in snaps)
    ensures Joined(m, snaps, r)
  {
  }

  lemma LinkKeys(p: Program)
    requires Linked(p)
    ensures p.s.replicas.Keys == p.o.c.members.Keys == p.o.desks.Keys
  {
    hide DataShipped, Joined, AllAnswered;
  }

  lemma LinkShipped(p: Program)
    requires Linked(p)
    ensures DataShipped(p.o.c.net, p.shipped, p.s.snaps)
  {
    hide DataShipped, Joined, AllAnswered;
  }

  lemma AbortKeepsLink(log: Log, p: Program, n: NodeId, data: Option<Snap>, p2: Program)
    requires Goes(log, p, Take(AbortAll(n), data), p2) && Linked(p)
    requires Going(p.o)
    ensures Linked(p2)
  {
    hide Going, Linked, Joined, AllAnswered, DataShipped, Inv, OfficeOk, Loops, LoopIn, LoopOf, Abort, Tidy, Goes;
    AbortParts(log, p, n, data, p2);
    GoingParts(p.o);
    LinkAt(p, n);
    TakenUnsent(p.o, n);
    LinkShipped(p);
    AbortAnswers(p.o.desks[n], p.s.replicas[n], p.o.c.members[n].s.commit);
    LinkMoved(p, p2, n);
  }

  lemma AbortParts(log: Log, p: Program, n: NodeId, data: Option<Snap>, p2: Program)
    requires Goes(log, p, Take(AbortAll(n), data), p2)
    ensures n in p.o.c.members && n in p.o.desks && p2.o.c == p.o.c && p2.s == p.s && p2.shipped == p.shipped
    ensures p2.o.desks == p.o.desks[n := p.o.desks[n].(book := Abort(p.o.desks[n].book, p.o.c.members[n].s.commit))]
  {
    hide Abort;
  }

  // --- Runs ---

  /** Both sides of the program are in reachable states and linked. */
  ghost predicate InStep(ids: set<NodeId>, log: Log, p: Program) {
    && Full(log) && ReachableOffice(ids, p.o, false)
    && ReplicaRuns.Reachable(log, ids, ReplicaRuns.KeepsIndex(ids), p.s) && Linked(p)
  }

  lemma InStepFacts(ids: set<NodeId>, log: Log, p: Program)
    requires InStep(ids, log, p)
    ensures Going(p.o) && Replicas.Basics(log, p.s) && Linked(p)
  {
    hide Going, ReachableOffice, ReplicaRuns.Reachable, Linked, Replicas.Basics, Full;
    ReachableGoes(ids, p.o, false);
    ReplicaRuns.ReachableOk(log, ids, ReplicaRuns.KeepsIndex(ids), p.s);
  }

  lemma ReplicasOn(ids: set<NodeId>, log: Log, s: System, e: Option<Replicas.Action>, s2: System)
    requires ReplicaRuns.Reachable(log, ids, ReplicaRuns.KeepsIndex(ids), s) && Plays(log, s, e, s2)
    requires e.Some? && e.value.n in s.replicas ==> Replicas.NotBack(s, e.value)
    ensures ReplicaRuns.Reachable(log, ids, ReplicaRuns.KeepsIndex(ids), s2)
  {
    hide ReplicaRuns.Reachable, Replicas.Enabled, Replicas.Do, Replicas.NotBack;
    if e.Some? {
      EnabledAt(log, s, e.value);
      ReplicaRuns.ReachableOn(log, ids, ReplicaRuns.KeepsIndex(ids), s, e.value);
    }
  }

  lemma TakeKeeps(ids: set<NodeId>, log: Log, p: Program, v: Move, data: Option<Snap>, p2: Program)
    requires InStep(ids, log, p) && Goes(log, p, Take(v, data), p2)
    ensures InStep(ids, log, p2)
  {
    InStepFacts(ids, log, p);
    hide Going, ReachableOffice, ReplicaRuns.Reachable, Linked, Replicas.Basics, Full, Goes, CanMove, Make, Ready,
      Plays, Shipment, Echo, Replicas.NotBack, Do;
    match v
    case AbortAll(n) =>
      AbortTaken(log, p, n, data, p2);
      ReachableNext(ids, p.o, v);
      AbortKeepsLink(log, p, n, data, p2);
    case Step(a) =>
      TakeParts(log, p, a, data, p2);
      ReachableNext(ids, p.o, v);
      StepRest(log, p, a, data, Echo(p.o, Step(a), data), p2.s);
      ReplicasOn(ids, log, p.s, Echo(p.o, v, data), p2.s);
      StepKeepsLink(log, p, a, data, p2);
  }

  lemma AbortTaken(log: Log, p: Program, n: NodeId, data: Option<Snap>, p2: Program)
    requires Goes(log, p, Take(AbortAll(n), data), p2)
    ensures CanMove(p.o, AbortAll(n)) && p2.o == Make(p.o, AbortAll(n)) && p2.s == p.s
  {
    hide Abort;
  }

  lemma GoesKeeps(ids: set<NodeId>, log: Log, p: Program, x: Act, p2: Program)
    requires InStep(ids, log, p) && Goes(log, p, x, p2)
    ensures InStep(ids, log, p2)
  {
    match x {
      case Take(v, data) => TakeKeeps(ids, log, p, v, data, p2);
      case Treat(n) => OwnKeeps(ids, log, p, Replicas.MarkTask(n, p.o.c.members[n].s.role == Leader), p2);
      case Own(a) => OwnKeeps(ids, log, p, a, p2);
    }
  }

  lemma OwnKeeps(ids: set<NodeId>, log: Log, p: Program, e: Replicas.Action, p2: Program)
    requires InStep(ids, log, p) && (e.MarkTask? || IsOwn(e)) && Plays(log, p.s, Some(e), p2.s) && p2 == p.(s := p2.s)
    ensures InStep(ids, log, p2)
  {
    hide ReachableOffice, ReplicaRuns.Reachable, Linked, Full, Plays, IsOwn, Replicas.NotBack;
    OwnKeepsLink(log, p, p2, e);
    ReplicasOn(ids, log, p.s, Some(e), p2.s);
  }

  lemma {:induction false} RunInStep(ids: set<NodeId>, log: Log, p: Program, run: seq<Act>, p2: Program)
    requires InStep(ids, log, p) && Runs(log, p, run, p2)
    ensures InStep(ids, log, p2)
    decreases |run|
  {
    hide InStep, Goes;
    if run != [] {
      var p1 :| Goes(log, p, run[0], p1) && Runs(log, p1, run[1..], p2);
      GoesKeeps(ids, log, p, run[0], p1);
      RunInStep(ids, log, p1, run[1..], p2);
    }
  }

  lemma StartInStep(ids: set<NodeId>, log: Log)
    requires ids != {} && Full(log)
    ensures InStep(ids, log, Start(ids))
  {
    assert ReplicaRuns.Leads(log, ReplicaRuns.KeepsIndex(ids), Replicas.Init(ids), [], Replicas.Init(ids));
    assert OfficeRun(Opening(ids), [], false) && OfficeAfter(Opening(ids), [], false) == Opening(ids);
  }

  /** In every run of the whole program the cluster with its callers, and the replicas, are each in a
      state they reach by themselves; each node has the apply loop, the labels and the picks of its
      replica; and every proposal told to be committed has been acknowledged. */
  lemma ProgramOk(ids: set<NodeId>, log: Log, p: Program)
    requires Arises(ids, log, p)
    ensures ReachableOffice(ids, p.o, false)
    ensures ReplicaRuns.Reachable(log, ids, ReplicaRuns.KeepsIndex(ids), p.s)
    ensures p.s.replicas.Keys == p.o.c.members.Keys == p.o.desks.Keys
    ensures forall n :: n in p.o.c.members ==> LoopOf(p.o.c.members[n]) == LoopIn(p.s.replicas[n])
    ensures forall a :: a in p.o.c.h.applied ==> a.node in p.s.replicas && a.index in p.s.replicas[a.node].picks
    ensures forall n :: n in p.o.desks ==> AllAnswered(p.o.desks[n], p.s.replicas[n])
  {
    hide Runs, Start, ReachableOffice, ReplicaRuns.Reachable, AllAnswered, DataShipped, LoopOf, LoopIn;
    var run :| Runs(log, Start(ids), run, p);
    StartInStep(ids, log);
    RunInStep(ids, log, Start(ids), run, p);
  }
}
