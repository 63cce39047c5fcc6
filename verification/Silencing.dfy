/** Propose callers to whom nothing can be sent any more, and which steps make them so
    (raft/node.go:522-535, 687-699, 800-805 and 834-853). */
module Silencing {
  import opened RaftTypes
  import opened LogStore
  import opened Handlers
  import opened Cluster
  import opened Invariant
  import opened Preservation
  import opened Compaction
  import opened Footprint
  import opened Shipping
  import opened Shipped
  import opened ApplyLoop
  import opened Waiters
  import opened Proposals

  /** Nothing was sent on the channel and nobody keeps it to send on. */
  predicate Orphaned(d: Desk, k: nat) {
    && k < |d.book.channels| && d.book.channels[k].sent == [] && !WaitsOn(d.book, k)
    && !(d.taken.Some? && d.taken.value.1 == Some(k))
  }

  /** Somebody keeps the channel, but the apply loop, which picks index `p` next, has passed its
      index. */
  predicate Stranded(d: Desk, p: nat, k: nat) {
    WaitsOn(d.book, k) && d.book.channels[k].index < p
  }

  /** Nothing can be sent on the channel any more. */
  predicate SilentAt(d: Desk, p: nat, k: nat) {
    Orphaned(d, k) || Stranded(d, p, k)
  }

  predicate Silent(m: Member, d: Desk, k: nat) {
    SilentAt(d, NextPick(LoopOf(m)), k)
  }

  // --- What a step does to one desk ---

  lemma OpenSilences(d: Desk, index: nat, entry: LogEntry, p: nat, k: nat)
    requires Tidy(d.book) && k < |d.book.channels|
    requires d.taken.Some? && d.taken.value.1.Some? ==> !WaitsOn(d.book, d.taken.value.1.value)
    ensures SilentAt(d.(book := Open(d.book, index), asked := d.asked + [entry]), p, k) <==>
            SilentAt(d, p, k) || (index in d.book.waits && d.book.waits[index] == k)
  {
  }

  lemma TakeSilences(d: Desk, e: LogEntry, covered: set<nat>, k: nat)
    requires Tidy(d.book) && d.taken.None? && k < |d.book.channels|
    ensures var (book, waiter) := Take(d.book, e.index);
            SilentAt(d.(book := book, taken := Some((e, waiter)), covered := covered), e.index + 1, k) <==>
            SilentAt(d, e.index, k)
  {
  }

  lemma DeliverSilences(d: Desk, e: LogEntry, waiter: Option<nat>, p: nat, k: nat)
    requires Tidy(d.book) && DeskReady(d) && d.taken == Some((e, waiter)) && k < |d.book.channels|
    requires waiter.Some? ==> !WaitsOn(d.book, waiter.value)
    ensures var book := Deliver(d.book, waiter, ProposeResult(true, e.index, e.term));
            SilentAt(d.(book := book, taken := None), p, k) <==> SilentAt(d, p, k)
  {
  }

  lemma AbortSilences(d: Desk, commit: nat, p: nat, k: nat)
    requires Tidy(d.book) && k < |d.book.channels| && p <= commit + 1
    ensures k < |Abort(d.book, commit).channels|
    ensures SilentAt(d.(book := Abort(d.book, commit)), p, k) <==> SilentAt(d, p, k)
  {
  }

  /** What a step of its own node does to channel `k`, when the index picked next moves from `p` to
      `p2`. */
  lemma StepSilences(m: Member, a: Action, d: Desk, p: nat, p2: nat, k: nat)
    requires Full(m.s.log) && m.floor < |m.s.log| && Contiguous(Image(m).log) && DeskReady(d) && Tidy(d.book)
    requires k < |d.book.channels| && (a.ApplyBegin? ==> d.taken.None?)
    requires d.taken.Some? && d.taken.value.1.Some? ==> !WaitsOn(d.book, d.taken.value.1.value)
    requires p <= p2 && (!a.ApplyBegin? && !a.HandleSnapshot? ==> p2 == p)
    requires a.ApplyBegin? ==>
               match PickEntry(Image(m)).1
               case None => p2 == p
               case Some(e) => e.index == p && p2 == p + 1
    ensures var i := |m.s.log|;
            SilentAt(DeskAfter(m, a, d), p2, k) <==>
            || SilentAt(d, p, k) || (a.Propose? && i in d.book.waits && d.book.waits[i] == k)
            || (a.HandleSnapshot? && Stranded(d, p2, k))
  {
    LastOfFull(m.s.log);
    match a {
      case Propose(_, cmd) =>
        OpenSilences(d, |m.s.log|, LogEntry(m.s.term, |m.s.log|, cmd), p, k);
        hide SilentAt, Tidy, Image, Open, Contiguous, Full, Stranded;
      case ApplyBegin(_) =>
        hide SilentAt, Tidy, Image, Take, Contiguous, PickEntry, Full, Stranded;
        match PickEntry(Image(m)).1 {
          case None =>
          case Some(e) => TakeSilences(d, e, if e.index <= m.floor then d.covered + {e.index} else d.covered, k);
        }
      case ApplyEnd(_) =>
        hide SilentAt, Tidy, Image, Deliver, Contiguous, Full, Stranded;
        if d.taken.Some? {
          DeliverSilences(d, d.taken.value.0, d.taken.value.1, p, k);
        }
      case _ =>
        hide Tidy, Image, Contiguous, Full, WaitsOn;
    }
  }

  lemma NoChannelLost(m: Member, a: Action, d: Desk)
    requires Full(m.s.log) && m.floor < |m.s.log| && Contiguous(Image(m).log) && DeskReady(d)
    ensures |d.book.channels| <= |DeskAfter(m, a, d).book.channels|
  {
    hide Image, PickEntry, Contiguous;
  }

  lemma LastOfFull(log: Log)
    requires Full(log)
    ensures log != [] && Last(log) + 1 == |log|
  {
  }

  // --- Offices whose apply loops are in order ---

  ghost predicate Loops(c: Cluster) {
    forall n :: n in c.members ==> LoopOk(LoopOf(c.members[n]))
  }

  ghost predicate Going(o: Office) {
    OfficeOk(o) && Loops(o.c)
  }

  lemma LoopHere(c: Cluster, n: NodeId)
    requires Loops(c) && n in c.members
    ensures LoopOk(LoopOf(c.members[n]))
  {
  }

  lemma InstallsForward(c: Cluster, a: Action)
    requires CanStep(c, a) && Forward(c, a) && Installing(c.members[a.n], a)
    ensures c.members[a.n].s.commit <= a.snap.lastIndex
  {
    hide InstallsSnapshot;
  }

  /** The loop of the node that takes the step stays in order, and this is the index it picks next. */
  lemma LoopMoves(c: Cluster, a: Action)
    requires CanStep(c, a) && Forward(c, a) && Loops(c)
    requires Inv(c)
    ensures a.n in c.members && a.n in Do(c, a).members
    ensures var m, m2 := c.members[a.n], Do(c, a).members[a.n];
            && LoopOk(LoopOf(m)) && LoopOk(LoopOf(m2)) && m.s.commit < |m.s.log| && Turns(c, a, Do(c, a))
            && NextPick(LoopOf(m)) <= NextPick(LoopOf(m2)) && NextPick(LoopOf(m)) <= m.s.commit + 1
            && Reached(LoopOf(m)) <= Reached(LoopOf(m2))
            && (a.ApplyEnd? ==> m.pending.Some? && m.pending.value <= Reached(LoopOf(m2)))
            && NextPick(LoopOf(m2)) == NextAfter(LoopOf(m), a, Installing(m, a))
  {
    hide Inv, Do, Enabled, WellFormed, Forward, Loops, LoopOk, Installing, NextPick, Passed, Picks, Turned, CanTurn,
      Reached, NextAfter;
    StepTaken(c, a);
    CommitBelow(c, a.n);
    StepTurns(c, a);
    LoopHere(c, a.n);
    var m, m2 := c.members[a.n], Do(c, a).members[a.n];
    if Installing(m, a) {
      InstallsForward(c, a);
    }
    InstallingIs(m, a);
    TurnKeeps(LoopOf(m), a, Installing(m, a), m2.s.commit);
  }

  lemma InstallingIs(m: Member, a: Action)
    ensures Installing(m, a) ==> a.HandleSnapshot?
  {
  }

  lemma LoopsKept(c: Cluster, a: Action)
    requires CanStep(c, a) && Forward(c, a) && Loops(c)
    requires Inv(c)
    ensures Loops(Do(c, a))
  {
    hide Inv, Do, Enabled, WellFormed, Guarded, LoopOk, NextPick;
    LoopMoves(c, a);
    OnlyOneMoves(c, a);
  }

  lemma OfficeFacts(o: Office)
    requires OfficeOk(o)
    ensures Inv(o.c) && o.desks.Keys == o.c.members.Keys
  {
    hide Inv, Ship, DeskOk;
  }

  lemma AbortedCluster(o: Office, v: Move)
    requires CanMove(o, v) && v.AbortAll?
    ensures Make(o, v).c == o.c
  {
  }

  lemma GoesOn(o: Office, v: Move)
    requires CanMove(o, v)
    requires Going(o)
    ensures Going(Make(o, v))
  {
    hide OfficeOk, Loops, Do, DeskAfter, Image, CanMove, Make, Inv;
    OfficeFacts(o);
    MoveKeeps(o, v);
    if v.Step? {
      OwnMake(o, v.a);
      LoopsKept(o.c, v.a);
    } else {
      AbortedCluster(o, v);
    }
  }

  lemma OpeningGoes(ids: set<NodeId>)
    requires ids != {}
    ensures Going(Opening(ids))
  {
    hide OfficeOk;
    OpeningOk(ids);
    assert Loops(Opening(ids).c);
  }

  lemma {:induction false} RunGoes(o: Office, moves: seq<Move>, sparing: bool)
    requires OfficeRun(o, moves, sparing)
    requires Going(o)
    ensures Going(OfficeAfter(o, moves, sparing))
    decreases |moves|
  {
    hide Going, CanMove, Make, SparedMove;
    if moves != [] {
      GoesOn(o, moves[0]);
      RunGoes(Make(o, moves[0]), moves[1..], sparing);
    }
  }

  lemma ReachableGoes(ids: set<NodeId>, o: Office, sparing: bool)
    requires ReachableOffice(ids, o, sparing)
    ensures Going(o)
  {
    hide Going;
    OpeningGoes(ids);
    var moves :| OfficeRun(Opening(ids), moves, sparing) && OfficeAfter(Opening(ids), moves, sparing) == o;
    RunGoes(Opening(ids), moves, sparing);
  }

  // --- Which moves silence a caller ---

  /** The move is a proposal on the node, at an index on which channel `k` still waits. */
  predicate Supplants(o: Office, v: Move, n: NodeId, k: nat)
    requires n in o.desks && n in o.c.members
  {
    v.Step? && v.a.Propose? && v.a.n == n
    && var i := |o.c.members[n].s.log|;
       i in o.desks[n].book.waits && o.desks[n].book.waits[i] == k
  }

  /** The step installs a snapshot that takes the apply loop past the index of channel `k`: it is below
      the snapshot's, or that index itself and the entry before it is not in flight. */
  predicate Overtakes(m: Member, a: Action, d: Desk, k: nat) {
    Installing(m, a) && Stranded(d, Passed(LoopOf(m), a.snap.lastIndex), k)
  }

  predicate PassesBy(o: Office, v: Move, n: NodeId, k: nat)
    requires n in o.desks && n in o.c.members
  {
    v.Step? && v.a.n == n && Overtakes(o.c.members[n], v.a, o.desks[n], k)
  }

  lemma DeskFacts(o: Office, v: Move, n: NodeId)
    requires CanMove(o, v) && n in o.desks
    requires OfficeOk(o)
    ensures var d := o.desks[n];
            && n in o.c.members && Full(o.c.members[n].s.log) && o.c.members[n].floor < |o.c.members[n].s.log|
            && Tidy(d.book) && DeskReady(d)
            && (v.Step? && v.a.ApplyBegin? && v.a.n == n ==> d.taken.None?)
            && (d.taken.Some? && d.taken.value.1.Some? ==> !WaitsOn(d.book, d.taken.value.1.value))
  {
    hide Inv, Ship, Tidy, AskedOk, SentOk, Reported, WaitsOn, Guarded;
    assert DeskOk(o.c, n, o.desks[n]);
    FullOf(o.c, n);
  }

  lemma FullOf(c: Cluster, n: NodeId)
    requires n in c.members
    requires Inv(c)
    ensures Full(c.members[n].s.log) && c.members[n].floor < |c.members[n].s.log|
  {
    hide Inv;
    InvWellFormed(c);
  }

  /** The entry picked is the one that `NextPick` says. */
  lemma PickIndex(m: Member)
    requires Full(m.s.log) && m.floor < |m.s.log| && Contiguous(Image(m).log)
    requires m.pending == None && m.s.applied + 1 <= m.s.commit < |m.s.log|
    ensures match PickEntry(Image(m)).1
            case None => m.s.applied + 1 < m.floor
            case Some(e) => m.floor <= m.s.applied + 1 && e.index == m.s.applied + 1 == NextPick(LoopOf(m))
  {
    hide Compacted, Contiguous, Full;
    FullShape(m.s.log);
    CompactedShape(m.s.log, m.floor);
    if m.floor <= m.s.applied + 1 {
      CompactedIndex(m.s.log, m.floor, m.s.applied + 1 - m.floor);
      IndexOfFull(m.s.log, m.s.applied + 1);
    }
  }

  lemma IndexOfFull(log: Log, i: nat)
    requires Full(log) && i < |log|
    ensures log[i].index == i
  {
  }

  /** From `o` to `o2` channel `k` is not lost, and it is silenced only by move `v`. */
  ghost predicate SilencedBy(o: Office, v: Move, n: NodeId, k: nat, o2: Office)
    requires n in o.desks
  {
    && n in o.c.members && n in o2.desks && n in o2.c.members && k < |o2.desks[n].book.channels|
    && (Silent(o2.c.members[n], o2.desks[n], k) <==>
        Silent(o.c.members[n], o.desks[n], k) || Supplants(o, v, n, k) || PassesBy(o, v, n, k))
  }

  lemma OwnDeskSilences(c: Cluster, a: Action, d: Desk, k: nat)
    requires CanStep(c, a) && Forward(c, a) && Loops(c)
    requires a.n in c.members && Full(c.members[a.n].s.log) && c.members[a.n].floor < |c.members[a.n].s.log|
    requires Contiguous(Image(c.members[a.n]).log) && DeskReady(d) && Tidy(d.book)
    requires k < |d.book.channels| && (a.ApplyBegin? ==> d.taken.None?)
    requires d.taken.Some? && d.taken.value.1.Some? ==> !WaitsOn(d.book, d.taken.value.1.value)
    requires Inv(c)
    ensures a.n in Do(c, a).members && k < |DeskAfter(c.members[a.n], a, d).book.channels|
    ensures var m, i := c.members[a.n], |c.members[a.n].s.log|;
            Silent(Do(c, a).members[a.n], DeskAfter(m, a, d), k) <==>
            || Silent(m, d, k) || (a.Propose? && i in d.book.waits && d.book.waits[i] == k)
            || Overtakes(m, a, d, k)
  {
    hide Inv, Loops, SilentAt, Stranded, Image, DeskAfter, WellFormed, Enabled, Do, Guarded, Contiguous, Full,
      Tidy, LoopOk, Passed, NextPick, Turned, InstallsSnapshot;
    LoopMoves(c, a);
    var m, m2 := c.members[a.n], Do(c, a).members[a.n];
    var p, p2 := NextPick(LoopOf(m)), NextPick(LoopOf(m2));
    if a.ApplyBegin? {
      PickIndex(m);
    }
    StepSilences(m, a, d, p, p2, k);
    NoChannelLost(m, a, d);
    StrandedIsSilent(d, p, k);
  }

  lemma OwnMake(o: Office, a: Action)
    requires CanMove(o, Step(a))
    ensures a.n in o.desks && a.n in o.c.members && Full(o.c.members[a.n].s.log)
    ensures o.c.members[a.n].floor < |o.c.members[a.n].s.log|
    ensures Contiguous(Image(o.c.members[a.n]).log) && DeskReady(o.desks[a.n]) && CanStep(o.c, a) && Guarded(o.c, a)
    ensures Forward(o.c, a)
    ensures var o2 := Make(o, Step(a));
            o2.c == Do(o.c, a) && a.n in o2.desks && o2.desks[a.n] == DeskAfter(o.c.members[a.n], a, o.desks[a.n])
  {
    hide Image, DeskAfter, Do, Guarded, Contiguous;
  }

  lemma OwnStepSilences(o: Office, a: Action, k: nat)
    requires CanMove(o, Step(a)) && a.n in o.desks && k < |o.desks[a.n].book.channels|
    requires Going(o)
    ensures SilencedBy(o, Step(a), a.n, k, Make(o, Step(a)))
  {
    hide OfficeOk, Loops, Silent, Stranded, Image, DeskAfter, WellFormed, Enabled, Do, Guarded, Contiguous, Full,
      Tidy, Overtakes, WaitsOn, CanMove, Make;
    OfficeFacts(o);
    DeskFacts(o, Step(a), a.n);
    OwnMake(o, a);
    OwnDeskSilences(o.c, a, o.desks[a.n], k);
    var o2, m, i := Make(o, Step(a)), o.c.members[a.n], |o.c.members[a.n].s.log|;
    assert Supplants(o, Step(a), a.n, k) <==>
           (a.Propose? && i in o.desks[a.n].book.waits && o.desks[a.n].book.waits[i] == k);
    assert PassesBy(o, Step(a), a.n, k) <==> Overtakes(m, a, o.desks[a.n], k);
    hide Supplants, PassesBy;
  }

  lemma StrandedIsSilent(d: Desk, p: nat, k: nat)
    ensures Stranded(d, p, k) ==> SilentAt(d, p, k)
  {
  }

  lemma OtherMoveSilences(o: Office, v: Move, n: NodeId, k: nat)
    requires CanMove(o, v) && n in o.desks && n in o.c.members && k < |o.desks[n].book.channels|
    requires if v.Step? then v.a.n != n else v.n != n
    ensures SilencedBy(o, v, n, k, Make(o, v))
  {
    hide Silent, Image, DeskAfter, WellFormed, Enabled, Do, Guarded, Contiguous, Abort;
    if v.Step? {
      OnlyOneMoves(o.c, v.a);
    }
  }

  lemma AbortMoveSilences(o: Office, n: NodeId, k: nat)
    requires CanMove(o, AbortAll(n)) && n in o.desks && k < |o.desks[n].book.channels| && Tidy(o.desks[n].book)
    requires Loops(o.c)
    ensures SilencedBy(o, AbortAll(n), n, k, Make(o, AbortAll(n)))
  {
    hide SilentAt, Tidy, LoopOk, NextPick, Abort;
    LoopHere(o.c, n);
    PickBelow(LoopOf(o.c.members[n]));
    AbortSilences(o.desks[n], o.c.members[n].s.commit, NextPick(LoopOf(o.c.members[n])), k);
  }

  lemma MoveSilences(o: Office, v: Move, n: NodeId, k: nat)
    requires CanMove(o, v) && n in o.desks && k < |o.desks[n].book.channels|
    requires Going(o)
    ensures SilencedBy(o, v, n, k, Make(o, v))
  {
    DeskFacts(o, v, n);
    hide OfficeOk, Loops, CanMove, Make, SilencedBy, Tidy;
    if v == AbortAll(n) {
      AbortMoveSilences(o, n, k);
    } else if v.Step? && v.a.n == n {
      OwnStepSilences(o, v.a, k);
    } else {
      OtherMoveSilences(o, v, n, k);
    }
  }

  /** No channel is lost, and after a move nothing can be sent on a channel exactly if nothing could be
      before, or the move is a proposal at the index on which it waits, or installs a snapshot that
      passes it by. */
  lemma SilencedExactly(ids: set<NodeId>, o: Office, v: Move, n: NodeId, k: nat)
    requires ReachableOffice(ids, o, false)
    requires CanMove(o, v) && n in o.desks && k < |o.desks[n].book.channels|
    ensures n in o.c.members && n in Make(o, v).desks && n in Make(o, v).c.members
    ensures k < |Make(o, v).desks[n].book.channels|
    ensures Silent(Make(o, v).c.members[n], Make(o, v).desks[n], k) <==>
            Silent(o.c.members[n], o.desks[n], k) || Supplants(o, v, n, k) || PassesBy(o, v, n, k)
  {
    hide ReachableOffice, Going, CanMove, Make, Silent, Supplants, PassesBy;
    ReachableGoes(ids, o, false);
    MoveSilences(o, v, n, k);
  }

  lemma PickBelow(l: Loop)
    requires LoopOk(l)
    ensures NextPick(l) <= l.commit + 1
  {
  }

  lemma CommitFits(o: Office, n: NodeId)
    requires n in o.c.members
    requires OfficeOk(o)
    ensures Full(o.c.members[n].s.log) && o.c.members[n].s.commit < |o.c.members[n].s.log|
  {
    hide Inv, Ship, DeskOk;
    CommitBelow(o.c, n);
  }

  /** A waiter that the apply loop has not passed can be told. */
  lemma WaiterIsHeard(o: Office, n: NodeId, i: nat)
    requires n in o.desks && n in o.c.members && i in o.desks[n].book.waits
    requires Going(o)
    ensures var d := o.desks[n];
            && d.book.waits[i] < |d.book.channels| && d.book.channels[d.book.waits[i]].index == i
            && (Silent(o.c.members[n], d, d.book.waits[i]) <==> i < NextPick(LoopOf(o.c.members[n])))
  {
    hide Inv, Ship, AskedOk, SentOk, TakenOk, NextPick, Loops;
    assert DeskOk(o.c, n, o.desks[n]);
  }

  lemma PickFits(o: Office, n: NodeId)
    requires n in o.c.members
    requires Going(o)
    ensures NextPick(LoopOf(o.c.members[n])) <= o.c.members[n].s.commit + 1 <= |o.c.members[n].s.log|
  {
    hide OfficeOk, Loops, NextPick, LoopOk;
    LoopHere(o.c, n);
    PickBelow(LoopOf(o.c.members[n]));
    CommitFits(o, n);
  }

  /** The move leaves some caller on the node for ever without a result who could still get one. */
  ghost predicate Silences(o: Office, n: NodeId, o2: Office) {
    && n in o.desks && n in o.c.members && n in o2.desks && n in o2.c.members
    && exists k: nat :: k < |o.desks[n].book.channels|
                        && !Silent(o.c.members[n], o.desks[n], k) && Silent(o2.c.members[n], o2.desks[n], k)
  }

  lemma SilencesIf(o: Office, v: Move, n: NodeId, i: nat)
    requires CanMove(o, v) && n in o.desks && n in o.c.members && i in o.desks[n].book.waits
    requires NextPick(LoopOf(o.c.members[n])) <= i
    requires var k := o.desks[n].book.waits[i];
             Supplants(o, v, n, k) || PassesBy(o, v, n, k)
    requires Going(o)
    ensures Silences(o, n, Make(o, v))
  {
    hide Going, CanMove, Make, Silent, PassesBy, Supplants, NextPick, LoopOf;
    WaiterIsHeard(o, n, i);
    MoveSilences(o, v, n, o.desks[n].book.waits[i]);
  }

  lemma SilencesOnlyIf(o: Office, v: Move, n: NodeId) returns (k: nat)
    requires CanMove(o, v) && n in o.desks && n in o.c.members && Silences(o, n, Make(o, v))
    requires Going(o)
    ensures k < |o.desks[n].book.channels| && !Silent(o.c.members[n], o.desks[n], k)
    ensures Supplants(o, v, n, k) || PassesBy(o, v, n, k)
  {
    hide Going, CanMove, Make, Silent, PassesBy, Supplants;
    k :| k < |o.desks[n].book.channels| && !Silent(o.c.members[n], o.desks[n], k)
         && Silent(Make(o, v).c.members[n], Make(o, v).desks[n], k);
    MoveSilences(o, v, n, k);
  }

  /** Propose silences a caller exactly if somebody waits at the index after the last one of the log. */
  lemma ProposeForgetsExact(ids: set<NodeId>, o: Office, n: NodeId, cmd: Command)
    requires ReachableOffice(ids, o, false) && CanMove(o, Step(Action.Propose(n, cmd)))
    ensures n in o.desks && n in o.c.members && o.c.members[n].s.log != []
    ensures Silences(o, n, Make(o, Step(Action.Propose(n, cmd)))) <==>
            Last(o.c.members[n].s.log) + 1 in o.desks[n].book.waits
  {
    var v, i := Step(Action.Propose(n, cmd)), |o.c.members[n].s.log|;
    OwnMake(o, Action.Propose(n, cmd));
    LastOfFull(o.c.members[n].s.log);
    hide Going, ReachableOffice, CanMove, Make, Silent, PassesBy, Full, Image, Contiguous, Silences, NextPick, LoopOf;
    ReachableGoes(ids, o, false);
    PickFits(o, n);
    NotOvertaken(o, v, n);
    if i in o.desks[n].book.waits {
      SilencesIf(o, v, n, i);
    }
    if Silences(o, n, Make(o, v)) {
      var k := SilencesOnlyIf(o, v, n);
    }
  }

  lemma MadeHas(o: Office, v: Move, n: NodeId)
    requires CanMove(o, v) && n in o.desks && n in o.c.members
    ensures n in Make(o, v).desks && n in Make(o, v).c.members
  {
    hide Do, Enabled, WellFormed, Guarded, Image, DeskAfter, Contiguous;
    if v.Step? {
      OnlyOneMoves(o.c, v.a);
    }
  }

  lemma NotOvertaken(o: Office, v: Move, n: NodeId)
    requires n in o.desks && n in o.c.members && !(v.Step? && v.a.HandleSnapshot?)
    ensures forall k: nat :: !PassesBy(o, v, n, k)
  {
    hide InstallsSnapshot, Stranded;
  }

  /** The waiters that a snapshot with index `k` passes by: below it, or at it unless the entry before
      that is in flight. */
  predicate Behind(l: Loop, i: nat, k: nat) {
    NextPick(l) <= i && (i < k || (i == k && !(l.pending.Some? && l.pending.value + 1 == k)))
  }

  lemma BehindIsPassed(m: Member, a: Action, d: Desk, i: nat)
    requires Installing(m, a) && a.HandleSnapshot? && i in d.book.waits && Tidy(d.book)
    ensures d.book.waits[i] < |d.book.channels|
    ensures Behind(LoopOf(m), i, a.snap.lastIndex) <==>
            NextPick(LoopOf(m)) <= i && Overtakes(m, a, d, d.book.waits[i])
  {
    hide Installing, NextPick;
  }

  lemma OvertakenWaits(m: Member, a: Action, d: Desk, k: nat)
    requires Overtakes(m, a, d, k) && Tidy(d.book)
    ensures k < |d.book.channels| && d.book.channels[k].index in d.book.waits
    ensures d.book.waits[d.book.channels[k].index] == k
  {
    hide Installing, NextPick, Passed;
  }

  /** Installing a snapshot silences a caller exactly if somebody waits, at an index not yet passed,
      below the snapshot's last one, or at it unless the entry before that is in flight. */
  lemma InstallForgetsExact(ids: set<NodeId>, o: Office, a: Action)
    requires ReachableOffice(ids, o, false) && CanMove(o, Step(a)) && Installing(o.c.members[a.n], a)
    ensures a.HandleSnapshot? && a.n in o.desks && a.n in o.c.members
    ensures Silences(o, a.n, Make(o, Step(a))) <==>
            exists i :: i in o.desks[a.n].book.waits && Behind(LoopOf(o.c.members[a.n]), i, a.snap.lastIndex)
  {
    var n, v := a.n, Step(a);
    OwnMake(o, a);
    InstallingIs(o.c.members[n], a);
    DeskFactsGoing(ids, o, v, n);
    hide Going, ReachableOffice, CanMove, Make, Silent, Supplants, Full, Image, Contiguous, Installing, NextPick,
      LoopOf, Silences, Overtakes, Behind, Tidy;
    var m, d := o.c.members[n], o.desks[n];
    NotSupplanted(o, a);
    forall i | i in d.book.waits && Behind(LoopOf(m), i, a.snap.lastIndex)
      ensures Silences(o, n, Make(o, v))
    {
      BehindIsPassed(m, a, d, i);
      SilencesIf(o, v, n, i);
    }
    if Silences(o, n, Make(o, v)) {
      var k := SilencesOnlyIf(o, v, n);
      OvertakenWaits(m, a, d, k);
      var i := d.book.channels[k].index;
      WaiterIsHeard(o, n, i);
      BehindIsPassed(m, a, d, i);
    }
  }

  lemma DeskFactsGoing(ids: set<NodeId>, o: Office, v: Move, n: NodeId)
    requires ReachableOffice(ids, o, false) && CanMove(o, v) && n in o.desks
    ensures Going(o) && n in o.c.members && Tidy(o.desks[n].book)
  {
    hide ReachableOffice, CanMove, OfficeOk, Loops;
    ReachableGoes(ids, o, false);
    DeskFacts(o, v, n);
  }

  lemma NotSupplanted(o: Office, a: Action)
    requires a.n in o.desks && a.n in o.c.members && !a.Propose?
    ensures forall k: nat :: !Supplants(o, Step(a), a.n, k)
  {
  }
}
