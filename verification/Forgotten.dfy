/** A silenced Propose caller is told nothing in any run, and every other one can be told. */
module Forgotten {
  import opened RaftTypes
  import opened LogStore
  import opened Handlers
  import opened Cluster
  import opened Invariant
  import opened Preservation
  import opened Compaction
  import opened Shipping
  import opened ApplyLoop
  import opened Waiters
  import opened Proposals
  import opened Silencing

  // --- A silenced caller is told nothing, and any other can be told ---

  lemma SilentIsUnsent(o: Office, n: NodeId, k: nat)
    requires n in o.desks && n in o.c.members && Silent(o.c.members[n], o.desks[n], k)
    requires OfficeOk(o)
    ensures k < |o.desks[n].book.channels| && o.desks[n].book.channels[k].sent == []
  {
    hide Inv, Ship, AskedOk, SentOk, TakenOk, NextPick;
    assert DeskOk(o.c, n, o.desks[n]);
  }

  lemma {:induction false} SilenceStays(o: Office, moves: seq<Move>, n: NodeId, k: nat)
    requires OfficeRun(o, moves, false) && n in o.desks && n in o.c.members && Silent(o.c.members[n], o.desks[n], k)
    requires Going(o)
    ensures var o2 := OfficeAfter(o, moves, false);
            && n in o2.desks && n in o2.c.members && Silent(o2.c.members[n], o2.desks[n], k)
            && k < |o2.desks[n].book.channels| && o2.desks[n].book.channels[k].sent == []
    decreases |moves|
  {
    assert OfficeOk(o);
    hide Going, OfficeOk, CanMove, Make, SparedMove, Silent, Supplants, PassesBy;
    SilentIsUnsent(o, n, k);
    if moves != [] {
      MoveSilences(o, moves[0], n, k);
      GoesOn(o, moves[0]);
      SilenceStays(Make(o, moves[0]), moves[1..], n, k);
    }
  }

  lemma EndMove(o: Office, n: NodeId)
    requires n in o.c.members && o.c.members[n].pending.Some?
    requires OfficeOk(o)
    ensures CanMove(o, Step(ApplyEnd(n)))
  {
    hide Inv, Ship, Tidy, AskedOk, SentOk, Reported, WaitsOn, Compacted, Contiguous, Full;
    assert DeskOk(o.c, n, o.desks[n]);
    InvWellFormed(o.c);
    FullOf(o.c, n);
    CompactedShape(o.c.members[n].s.log, o.c.members[n].floor);
    hide WellFormed;
  }

  lemma BeginMove(o: Office, n: NodeId)
    requires n in o.c.members && o.c.members[n].pending.None? && o.c.members[n].s.applied + 1 <= o.c.members[n].s.commit
    requires OfficeOk(o)
    ensures CanMove(o, Step(ApplyBegin(n)))
  {
    hide Inv, Ship, Tidy, AskedOk, SentOk, Reported, WaitsOn, Compacted, Contiguous, Full;
    assert DeskOk(o.c, n, o.desks[n]);
    InvWellFormed(o.c);
    FullOf(o.c, n);
    CompactedShape(o.c.members[n].s.log, o.c.members[n].floor);
    hide WellFormed;
  }

  /** Delivering and aborting tell the waiter. */
  lemma EndTells(o: Office, n: NodeId, k: nat)
    requires CanMove(o, Step(ApplyEnd(n))) && n in o.desks && o.desks[n].taken.Some? &&
             o.desks[n].taken.value.1 == Some(k)
    ensures var d := Make(o, Step(ApplyEnd(n))).desks[n];
            k < |d.book.channels| && d.book.channels[k].sent != []
  {
    hide Do, Enabled, WellFormed, Image, Contiguous;
  }

  lemma AbortTells(o: Office, n: NodeId, k: nat)
    requires CanMove(o, AbortAll(n)) && n in o.desks && WaitsOn(o.desks[n].book, k)
    requires o.desks[n].book.channels[k].index > o.c.members[n].s.commit
    ensures var d := Make(o, AbortAll(n)).desks[n];
            k < |d.book.channels| && d.book.channels[k].sent != []
  {
  }

  lemma IndexStays(o: Office, v: Move, n: NodeId, k: nat)
    requires CanMove(o, v) && n in o.desks && k < |o.desks[n].book.channels|
    ensures n in Make(o, v).desks && k < |Make(o, v).desks[n].book.channels|
    ensures Make(o, v).desks[n].book.channels[k].index == o.desks[n].book.channels[k].index
  {
    hide Do, Enabled, WellFormed, Image, Contiguous, Guarded, PickEntry;
  }

  /** What is left to do before the apply loop reaches index `i`. */
  function Distance(l: Loop, i: nat): int {
    i - NextPick(l)
  }

  function Leg(l: Loop): nat {
    if l.pending.Some? then 2 else if l.applied + 1 < l.floor then 1 else 0
  }

  lemma LoopAdvances(c: Cluster, a: Action)
    requires CanStep(c, a) && Forward(c, a) && Loops(c) && (a.ApplyBegin? || a.ApplyEnd?)
    requires Inv(c)
    ensures a.n in c.members && a.n in Do(c, a).members
    ensures var l, l2 := LoopOf(c.members[a.n]), LoopOf(Do(c, a).members[a.n]);
            NextPick(l) < NextPick(l2) || (NextPick(l) == NextPick(l2) && Leg(l2) < Leg(l))
  {
    hide Inv, Do, Enabled, WellFormed, Loops, InstallsSnapshot, CanStep;
    LoopMoves(c, a);
  }

  lemma UnsilentWaits(m: Member, d: Desk, k: nat)
    requires k < |d.book.channels| && d.book.channels[k].sent == [] && !Silent(m, d, k)
    ensures (d.taken.Some? && d.taken.value.1 == Some(k))
            || (WaitsOn(d.book, k) && NextPick(LoopOf(m)) <= d.book.channels[k].index)
  {
  }

  lemma PickAhead(l: Loop)
    ensures l.pending.None? ==> l.applied + 1 <= NextPick(l)
  {
  }

  lemma TakenPends(o: Office, n: NodeId)
    requires n in o.desks && o.desks[n].taken.Some?
    requires OfficeOk(o)
    ensures n in o.c.members && o.c.members[n].pending.Some?
  {
    hide Inv, Ship, Tidy, AskedOk, TakenOk, SentOk;
    assert DeskOk(o.c, n, o.desks[n]);
  }

  /** A move of the apply loop, when the index `i` awaited is still ahead of it. */
  lemma LoopMove(o: Office, n: NodeId, i: nat) returns (v: Move)
    requires n in o.desks && n in o.c.members && NextPick(LoopOf(o.c.members[n])) <= i <= o.c.members[n].s.commit
    requires Going(o)
    ensures v.Step? && (v.a.ApplyBegin? || v.a.ApplyEnd?) && v.a.n == n && CanMove(o, v)
    ensures n in Make(o, v).c.members
    ensures var l, l2 := LoopOf(o.c.members[n]), LoopOf(Make(o, v).c.members[n]);
            NextPick(l) < NextPick(l2) || (NextPick(l) == NextPick(l2) && Leg(l2) < Leg(l))
  {
    assert OfficeOk(o) && Loops(o.c);
    OfficeFacts(o);
    PickAhead(LoopOf(o.c.members[n]));
    hide Going, OfficeOk, Inv, Loops, NextPick, Leg, CanMove, Make, Do, Enabled, WellFormed, Guarded, Image, Contiguous,
      Full;
    if o.c.members[n].pending.Some? {
      EndMove(o, n);
      v := Step(ApplyEnd(n));
    } else {
      BeginMove(o, n);
      v := Step(ApplyBegin(n));
    }
    OwnMake(o, v.a);
    LoopAdvances(o.c, v.a);
  }

  /** The next move towards telling caller `k`. */
  lemma Towards(o: Office, n: NodeId, k: nat) returns (v: Move)
    requires n in o.desks && n in o.c.members && k < |o.desks[n].book.channels|
    requires o.desks[n].book.channels[k].sent == [] && !Silent(o.c.members[n], o.desks[n], k)
    requires Going(o)
    ensures CanMove(o, v) && !(v.Step? && (v.a.Propose? || v.a.HandleSnapshot?))
    ensures n in Make(o, v).desks && n in Make(o, v).c.members && k < |Make(o, v).desks[n].book.channels|
    ensures var l, l2, i := LoopOf(o.c.members[n]), LoopOf(Make(o, v).c.members[n]), o.desks[n].book.channels[k].index;
            || Make(o, v).desks[n].book.channels[k].sent != []
            || (&& Make(o, v).desks[n].book.channels[k].index == i && NextPick(l) <= i
                && (NextPick(l) < NextPick(l2) || (NextPick(l) == NextPick(l2) && Leg(l2) < Leg(l))))
  {
    var m, d := o.c.members[n], o.desks[n];
    assert OfficeOk(o);
    UnsilentWaits(m, d, k);
    hide Going, OfficeOk, Silent, NextPick, Leg, LoopOf, CanMove, Make, WaitsOn;
    if d.taken.Some? && d.taken.value.1 == Some(k) {
      TakenPends(o, n);
      EndMove(o, n);
      v := Step(ApplyEnd(n));
      EndTells(o, n, k);
    } else if d.book.channels[k].index > m.s.commit {
      AbortMove(o, n);
      v := AbortAll(n);
      AbortTells(o, n, k);
    } else {
      v := LoopMove(o, n, d.book.channels[k].index);
      IndexStays(o, v, n, k);
    }
    MadeHas(o, v, n);
  }

  lemma StaysUnsilent(o: Office, v: Move, n: NodeId, k: nat)
    requires CanMove(o, v) && !(v.Step? && (v.a.Propose? || v.a.HandleSnapshot?))
    requires n in o.desks && n in o.c.members && k < |o.desks[n].book.channels|
    requires !Silent(o.c.members[n], o.desks[n], k)
    requires Going(o)
    ensures n in Make(o, v).desks && n in Make(o, v).c.members && k < |Make(o, v).desks[n].book.channels|
    ensures !Silent(Make(o, v).c.members[n], Make(o, v).desks[n], k)
  {
    hide Going, CanMove, Make, Silent, Supplants, PassesBy;
    MoveSilences(o, v, n, k);
    NotOvertaken(o, v, n);
    NotProposed(o, v, n);
  }

  lemma AbortMove(o: Office, n: NodeId)
    requires n in o.desks && n in o.c.members
    ensures CanMove(o, AbortAll(n))
  {
  }

  lemma NotProposed(o: Office, v: Move, n: NodeId)
    requires n in o.desks && n in o.c.members && !(v.Step? && v.a.Propose?)
    ensures forall k: nat :: !Supplants(o, v, n, k)
  {
  }

  lemma {:induction false} Tells(o: Office, n: NodeId, k: nat) returns (moves: seq<Move>)
    requires n in o.desks && n in o.c.members && k < |o.desks[n].book.channels|
    requires o.desks[n].book.channels[k].sent == [] && !Silent(o.c.members[n], o.desks[n], k)
    requires Going(o)
    ensures OfficeRun(o, moves, false)
    ensures var o2 := OfficeAfter(o, moves, false);
            n in o2.desks && k < |o2.desks[n].book.channels| && o2.desks[n].book.channels[k].sent != []
    decreases Distance(LoopOf(o.c.members[n]), o.desks[n].book.channels[k].index), Leg(LoopOf(o.c.members[n]))
  {
    hide Going, Silent, NextPick, Leg, CanMove, Make, SparedMove, LoopOf;
    var v := Towards(o, n, k);
    var o1 := Make(o, v);
    var rest: seq<Move> := [];
    if o1.desks[n].book.channels[k].sent == [] {
      GoesOn(o, v);
      StaysUnsilent(o, v, n, k);
      rest := Tells(o1, n, k);
    }
    moves := [v] + rest;
    assert moves[1..] == rest;
  }

  /** A caller without a result gets one in some later run exactly if it has not been silenced: so
      `SilencedExactly` says exactly which moves leave a caller without a result for ever. */
  lemma ToldExact(ids: set<NodeId>, o: Office, n: NodeId, k: nat)
    requires ReachableOffice(ids, o, false) && n in o.desks && k < |o.desks[n].book.channels|
    requires o.desks[n].book.channels[k].sent == []
    ensures n in o.c.members
    ensures (exists moves :: ToldAfter(o, moves, n, k)) <==> !Silent(o.c.members[n], o.desks[n], k)
  {
    ReachableGoes(ids, o, false);
    assert OfficeOk(o);
    OfficeFacts(o);
    hide Going, OfficeOk, ReachableOffice, Silent;
    if Silent(o.c.members[n], o.desks[n], k) {
      forall moves | OfficeRun(o, moves, false)
        ensures !ToldAfter(o, moves, n, k)
      {
        SilenceStays(o, moves, n, k);
      }
    } else {
      var moves := Tells(o, n, k);
      assert ToldAfter(o, moves, n, k);
    }
  }

  ghost predicate ToldAfter(o: Office, moves: seq<Move>, n: NodeId, k: nat) {
    && OfficeRun(o, moves, false)
    && var o2 := OfficeAfter(o, moves, false);
       n in o2.desks && k < |o2.desks[n].book.channels| && o2.desks[n].book.channels[k].sent != []
  }

  // --- Runs in which nobody is silenced ---

  lemma KeptIsBelow(o: Office, n: NodeId, k: nat)
    requires AllKept(o) && n in o.desks && n in o.c.members
    ensures |o.c.members[n].s.log| !in o.desks[n].book.waits
  {
  }

  /** In a run that spares awaited entries only a snapshot silences a caller. */
  lemma SparedSilence(ids: set<NodeId>, o: Office, v: Move, n: NodeId, k: nat)
    requires ReachableOffice(ids, o, true)
    requires CanMove(o, v) && n in o.desks && k < |o.desks[n].book.channels|
    ensures n in o.c.members && n in Make(o, v).desks && n in Make(o, v).c.members
    ensures Silent(Make(o, v).c.members[n], Make(o, v).desks[n], k) <==>
            Silent(o.c.members[n], o.desks[n], k) || PassesBy(o, v, n, k)
  {
    hide ReachableOffice, Going, CanMove, Make, Silent, PassesBy, AllKept, OfficeOk;
    ReachableGoes(ids, o, true);
    ReachableOfficeOk(ids, o, true);
    OfficeFacts(o);
    KeptIsBelow(o, n, k);
    MoveSilences(o, v, n, k);
  }

  /** The move neither proposes at an awaited index nor installs a snapshot that passes a waiter by. */
  ghost predicate Heeds(o: Office, v: Move) {
    forall n: NodeId, k: nat :: n in o.desks && n in o.c.members ==> !Supplants(o, v, n, k) && !PassesBy(o, v, n, k)
  }

  ghost predicate HeedingRun(o: Office, moves: seq<Move>)
    decreases |moves|
  {
    moves == [] || (CanMove(o, moves[0]) && Heeds(o, moves[0]) && HeedingRun(Make(o, moves[0]), moves[1..]))
  }

  ghost predicate NobodySilent(o: Office) {
    forall n: NodeId, k: nat :: n in o.desks && n in o.c.members && k < |o.desks[n].book.channels| ==>
      !Silent(o.c.members[n], o.desks[n], k)
  }

  lemma NewChannel(o: Office, v: Move, n: NodeId, k: nat)
    requires CanMove(o, v) && n in Make(o, v).desks && n in o.desks
    requires |o.desks[n].book.channels| <= k < |Make(o, v).desks[n].book.channels|
    ensures v.Step? && v.a.Propose? && v.a.n == n && n in o.c.members
    ensures var i := |o.c.members[n].s.log|;
            var b := Make(o, v).desks[n].book;
            b.channels[k].index == i && i in b.waits && b.waits[i] == k
  {
    hide Do, Enabled, WellFormed, Image, Contiguous, Guarded, PickEntry, Full;
    if v.Step? {
      OwnMake(o, v.a);
      LastOfFull(o.c.members[v.a.n].s.log);
    }
  }

  lemma NewIsHeard(o: Office, v: Move, n: NodeId, k: nat)
    requires CanMove(o, v) && n in Make(o, v).desks && n in o.desks && n in o.c.members && n in Make(o, v).c.members
    requires |o.desks[n].book.channels| <= k < |Make(o, v).desks[n].book.channels|
    requires Going(o)
    ensures !Silent(Make(o, v).c.members[n], Make(o, v).desks[n], k)
  {
    assert OfficeOk(o) && Loops(o.c);
    OfficeFacts(o);
    hide Going, OfficeOk, Loops, CanMove, Make, NextPick, LoopOf, Silent, Image, Contiguous, Full, Inv;
    NewChannel(o, v, n, k);
    OwnMake(o, v.a);
    PickFits(o, n);
    ProposeKeepsPick(o.c, v.a);
    GoesOn(o, v);
    WaiterIsHeard(Make(o, v), n, |o.c.members[n].s.log|);
  }

  lemma ProposeKeepsPick(c: Cluster, a: Action)
    requires CanStep(c, a) && Forward(c, a) && Loops(c) && a.Propose?
    requires Inv(c)
    ensures a.n in c.members && a.n in Do(c, a).members
    ensures NextPick(LoopOf(Do(c, a).members[a.n])) == NextPick(LoopOf(c.members[a.n]))
  {
    hide Inv, Do, Enabled, WellFormed, Loops, InstallsSnapshot, CanStep, NextPick, LoopOk;
    LoopMoves(c, a);
  }

  lemma ChannelHeeded(o: Office, v: Move, n: NodeId, k: nat)
    requires CanMove(o, v) && Heeds(o, v) && NobodySilent(o) && n in o.desks && n in o.c.members
    requires n in Make(o, v).desks && n in Make(o, v).c.members && k < |Make(o, v).desks[n].book.channels|
    requires Going(o)
    ensures !Silent(Make(o, v).c.members[n], Make(o, v).desks[n], k)
  {
    hide Going, CanMove, Make, Silent, Supplants, PassesBy;
    if k < |o.desks[n].book.channels| {
      MoveSilences(o, v, n, k);
    } else {
      NewIsHeard(o, v, n, k);
    }
  }

  lemma GoingKeys(o: Office)
    requires Going(o)
    ensures o.desks.Keys == o.c.members.Keys
  {
    hide OfficeOk, Loops;
    OfficeFacts(o);
  }

  lemma HeedsKeeps(o: Office, v: Move)
    requires CanMove(o, v) && Heeds(o, v) && NobodySilent(o)
    requires Going(o)
    ensures NobodySilent(Make(o, v))
  {
    hide Going, CanMove, Make, Silent, Heeds;
    GoingKeys(o);
    MadeKeys(o, v);
    var o2 := Make(o, v);
    forall n: NodeId, k: nat | n in o2.desks && n in o2.c.members && k < |o2.desks[n].book.channels|
      ensures !Silent(o2.c.members[n], o2.desks[n], k)
    {
      ChannelHeeded(o, v, n, k);
    }
  }

  lemma MadeKeys(o: Office, v: Move)
    requires CanMove(o, v)
    ensures Make(o, v).desks.Keys == o.desks.Keys
  {
    hide Do, Enabled, WellFormed, Image, Contiguous, Guarded, DeskAfter;
  }

  lemma {:induction false} HeedingKeeps(o: Office, moves: seq<Move>)
    requires HeedingRun(o, moves) && NobodySilent(o)
    requires Going(o)
    ensures OfficeRun(o, moves, false) && NobodySilent(OfficeAfter(o, moves, false))
    decreases |moves|
  {
    hide Going, CanMove, Make, Heeds, NobodySilent, SparedMove;
    if moves != [] {
      HeedsKeeps(o, moves[0]);
      GoesOn(o, moves[0]);
      HeedingKeeps(Make(o, moves[0]), moves[1..]);
    }
  }

  /** In a run of such moves every caller has its result or can still get it. */
  lemma NobodyForgotten(ids: set<NodeId>, moves: seq<Move>, n: NodeId, k: nat)
    requires ids != {} && HeedingRun(Opening(ids), moves)
    ensures OfficeRun(Opening(ids), moves, false)
    ensures var o := OfficeAfter(Opening(ids), moves, false);
            n in o.desks && k < |o.desks[n].book.channels| && o.desks[n].book.channels[k].sent == [] ==>
              exists later :: ToldAfter(o, later, n, k)
  {
    OpeningGoes(ids);
    OpeningHeard(ids);
    hide Going, HeedingRun, NobodySilent, OfficeRun, ToldAfter, OfficeAfter;
    HeedingKeeps(Opening(ids), moves);
    var o := OfficeAfter(Opening(ids), moves, false);
    IsReachable(ids, moves);
    if n in o.desks && k < |o.desks[n].book.channels| && o.desks[n].book.channels[k].sent == [] {
      ToldExact(ids, o, n, k);
      HeardHere(o, n, k);
    }
  }

  lemma OpeningHeard(ids: set<NodeId>)
    ensures NobodySilent(Opening(ids))
  {
  }

  lemma HeardHere(o: Office, n: NodeId, k: nat)
    requires NobodySilent(o) && n in o.desks && n in o.c.members && k < |o.desks[n].book.channels|
    ensures !Silent(o.c.members[n], o.desks[n], k)
  {
  }

  lemma IsReachable(ids: set<NodeId>, moves: seq<Move>)
    requires ids != {} && OfficeRun(Opening(ids), moves, false)
    ensures ReachableOffice(ids, OfficeAfter(Opening(ids), moves, false), false)
  {
  }
}
