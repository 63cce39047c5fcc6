/** Steps of the whole program in a run in which the members apply one entry as followers. */
module PlaySteps {
  import opened RaftTypes
  import opened LogStore
  import opened Handlers
  import opened Cluster
  import opened Invariant
  import opened ApplyLoop
  import opened Waiters
  import opened Proposals
  import opened Silencing
  import opened Dispatch
  import opened Witnesses
  import opened WaiterWitness
  import opened Whole
  import opened WholeRuns
  import Replicas

  const LOG := [DUMMY, X]

  ghost predicate Playing(p: Program) {
    && Arises(IDS, LOG, p) && OfficeOk(p.o) && Live(p.o.c)
    && p.o.desks.Keys == IDS == p.s.replicas.Keys && p.o.c.members.Keys == IDS
  }

  /** A guarded step of the cluster, which handles no snapshot. */
  ghost predicate Leads(c: Cluster, a: Action, c2: Cluster) {
    && By(c, a, c2) && Guarded(c, a) && Live(c2) && !a.HandleSnapshot? && a.n in IDS
    && a.n in c.members && a.n in c2.members && c2.members[a.n].s.commit <= 1
  }

  lemma LeadsParts(c: Cluster, a: Action, c2: Cluster)
    requires Leads(c, a, c2)
    ensures CanStep(c, a) && Guarded(c, a) && c2 == Do(c, a) && Live(c2) && a.n in IDS && !a.HandleSnapshot?
    ensures a.n in c.members && a.n in c2.members && c2.members[a.n].s.commit <= 1
  {
  }

  lemma PlayingParts(p: Program)
    requires Playing(p)
    ensures Arises(IDS, LOG, p) && OfficeOk(p.o) && Live(p.o.c)
    ensures p.o.desks.Keys == IDS == p.s.replicas.Keys && p.o.c.members.Keys == IDS
  {
    hide Arises, OfficeOk, Live;
  }

  /** A step of the cluster without data. */
  lemma PlayStep(p: Program, a: Action, c2: Cluster) returns (p2: Program)
    requires Playing(p) && Leads(p.o.c, a, c2) && Ready(p, Step(a), None)
    ensures Playing(p2) && CanMove(p.o, Step(a)) && p2.o == Make(p.o, Step(a)) && p2.o.c == c2
    ensures a.n in p.s.replicas && a.n in p.o.c.members && a.n in p.o.desks && a.n in c2.members
    ensures Plays(LOG, p.s, EchoOf(p.o.c.members[a.n], p.o.desks[a.n], a, c2.members[a.n].s.commit, None), p2.s)
  {
    hide Playing, Leads, Arises, OfficeOk, Live, Guarded, Do, Enabled, WellFormed, Ready, CanMove, Make, EchoOf, Plays,
      InStep, Goes, Going, Linked, Replicas.Basics, Inv;
    PlayingParts(p);
    LeadsParts(p.o.c, a, c2);
    StepCanMove(p.o, a);
    OwnMake(p.o, a);
    p2 := NothingBarred(IDS, LOG, p, a, None);
    ArisesOn(IDS, LOG, p, Take(Step(a), None), p2);
    TakeParts(LOG, p, a, None, p2);
    ArisesInStep(IDS, LOG, p2);
    InStepFacts(IDS, LOG, p2);
    GoingParts(p2.o);
    LinkKeys(p2);
    LiveFormed(c2);
    assert Playing(p2) by {
      IsPlaying(p2);
    }
  }

  lemma IsPlaying(p: Program)
    requires Arises(IDS, LOG, p) && OfficeOk(p.o) && Live(p.o.c)
    requires p.o.desks.Keys == IDS == p.s.replicas.Keys && p.o.c.members.Keys == IDS
    ensures Playing(p)
  {
    hide Arises, OfficeOk, Live;
  }

  /** The desks after a step that neither proposes nor applies. */
  lemma DesksStay(o: Office, a: Action)
    requires CanMove(o, Step(a)) && !a.Propose? && !a.ApplyBegin? && !a.ApplyEnd?
    ensures Make(o, Step(a)).desks == o.desks
  {
    hide Do, Enabled, WellFormed, Guarded, Image, Contiguous;
  }

  lemma AlwaysReady(p: Program, a: Action)
    requires !a.ApplyEnd? && !a.FinishSnapshot? && !a.HandleSnapshot?
    ensures Ready(p, Step(a), None)
  {
  }

  /** A step that the replicas have no part in. */
  lemma PlayQuietly(p: Program, a: Action, c2: Cluster) returns (p2: Program)
    requires Playing(p) && Elsewhere(a) && !a.Propose? && a.n in p.o.c.members && a.n in c2.members
    requires c2.members[a.n].s.commit == p.o.c.members[a.n].s.commit
    requires Leads(p.o.c, a, c2)
    ensures Playing(p2) && p2.o.c == c2 && p2.s == p.s && p2.o.desks == p.o.desks
  {
    hide Playing, Leads, CanMove, Make, Ready;
    AlwaysReady(p, a);
    p2 := PlayStep(p, a, c2);
    DesksStay(p.o, a);
  }

  /** One that raises the commit index of a member to 1. */
  lemma PlayCommit(p: Program, a: Action, c2: Cluster) returns (p2: Program)
    requires Playing(p) && Elsewhere(a) && !a.Propose? && a.n in p.o.c.members && a.n in c2.members
    requires p.o.c.members[a.n].s.commit == 0 && c2.members[a.n].s.commit == 1
    requires Leads(p.o.c, a, c2)
    ensures Playing(p2) && p2.o.c == c2 && p2.o.desks == p.o.desks && a.n in p.s.replicas
    ensures p2.s == p.s.(replicas := p.s.replicas[a.n := p.s.replicas[a.n].(commit := 1)])
  {
    hide Playing, Leads, CanMove, Make, Ready;
    AlwaysReady(p, a);
    p2 := PlayStep(p, a, c2);
    DesksStay(p.o, a);
  }

  const EMPTY := Desk(NOBODY, [], None, {})

  // What the replica of the node does in such a step.

  lemma QuietPlays(s: System, m: Member, d: Desk, a: Action, s2: System)
    requires Plays(LOG, s, EchoOf(m, d, a, m.s.commit, None), s2) && Elsewhere(a)
    ensures s2 == s
  {
  }

  lemma BeginPlays(s: System, m: Member, d: Desk, n: NodeId, k: nat, s2: System)
    requires Plays(LOG, s, EchoOf(m, d, ApplyBegin(n), k, None), s2) && n in s.replicas
    requires s.replicas[n] == Replicas.START.(commit := 1)
    ensures s2 == s.(replicas := s.replicas[n := FETCHED])
  {
    assert [] + [1] == [1];
  }

  lemma EndPlays(s: System, m: Member, d: Desk, n: NodeId, k: nat, s2: System)
    requires Plays(LOG, s, EchoOf(m, d, ApplyEnd(n), k, None), s2) && n in s.replicas && s.replicas[n] == Marked()
    ensures var told := Told(d);
            s2 == s.(replicas := s.replicas[n := Followed(Acks(told))])
  {
    hide Told;
    var r := s2.replicas[n];
    assert r.pick == None;
    if Told(d).Some? {
      assert [] + [Told(d).value] == [Told(d).value];
    }
  }

  lemma MarkPlays(s: System, n: NodeId)
    requires n in s.replicas && s.replicas[n] == FETCHED
    ensures Replicas.Enabled(LOG, s, Replicas.MarkTask(n, false))
    ensures Replicas.Do(LOG, s, Replicas.MarkTask(n, false)) == s.(replicas := s.replicas[n := Marked()])
  {
    assert TaskOf(LOG[1].command) == Some("x");
    assert {} + {"x"} == {"x"} && [] + [Replicas.Fresh("x", false)] == [Replicas.Fresh("x", false)];
  }

  lemma ProposedDesk(m: Member)
    requires Full(m.s.log) && m.floor < |m.s.log| && Contiguous(Image(m).log) && m.s.log == [DUMMY] && m.s.term == 1
    ensures DeskAfter(m, Action.Propose(0, X.command), EMPTY) == WAITING
  {
    hide Image, Contiguous;
  }

  ghost predicate CanPropose(p: Program, c2: Cluster) {
    && 0 in p.o.c.members && 0 in c2.members && 0 in p.o.desks && p.o.desks[0] == EMPTY
    && p.o.c.members[0].s.log == [DUMMY] && p.o.c.members[0].s.term == 1
    && c2.members[0].s.commit == p.o.c.members[0].s.commit && Leads(p.o.c, Action.Propose(0, X.command), c2)
  }

  /** Member 0 proposes X. */
  lemma PlayPropose(p: Program, c2: Cluster) returns (p2: Program)
    requires Playing(p) && CanPropose(p, c2)
    ensures Playing(p2) && p2.o.c == c2 && p2.s == p.s && p2.o.desks == p.o.desks[0 := WAITING]
  {
    hide Playing, Leads, CanMove, Make, Ready, Plays, EchoOf, Played;
    var a := Action.Propose(0, X.command);
    AlwaysReady(p, a);
    p2 := PlayStep(p, a, c2);
    assert Played(p, a, c2, p2) by {
      IsPlayed(p, a, c2, p2);
    }
    ProposeBecomes(p, c2, p2);
  }

  lemma IsPlayed(p: Program, a: Action, c2: Cluster, p2: Program)
    requires CanMove(p.o, Step(a)) && p2.o == Make(p.o, Step(a)) && p2.o.c == c2
    requires a.n in p.s.replicas && a.n in p.o.c.members && a.n in p.o.desks && a.n in c2.members
    requires Plays(LOG, p.s, EchoOf(p.o.c.members[a.n], p.o.desks[a.n], a, c2.members[a.n].s.commit, None), p2.s)
    ensures Played(p, a, c2, p2)
  {
    hide CanMove, Make, Plays, EchoOf;
  }

  lemma ProposeBecomes(p: Program, c2: Cluster, p2: Program)
    requires CanPropose(p, c2) && Played(p, Action.Propose(0, X.command), c2, p2)
    ensures p2.s == p.s && p2.o.desks == p.o.desks[0 := WAITING]
  {
    hide CanMove, Make, DeskAfter, Image, Contiguous, Full, Do, Plays, EchoOf, Leads;
    var a := Action.Propose(0, X.command);
    PlayedDesks(p, a, c2, p2);
    QuietPlays(p.s, p.o.c.members[0], p.o.desks[0], a, p2.s);
    ProposedDesk(p.o.c.members[0]);
  }

  /** A replica that has applied X as a follower. */
  function Followed(acks: seq<string>): Replica {
    Replicas.START.(commit := 1, applied := 1, dispatched := {"x"}, upTo := 1, held := 1, picks := [1],
                    marks := [Replicas.Fresh("x", false)], acks := acks)
  }

  const FETCHED := Replicas.START.(commit := 1, pick := Some(Replicas.Pick(1, Replicas.Picked)), picks := [1])

  /** A member that is about to apply X. */
  predicate Due(m: Member) {
    && m.s.log == [DUMMY, X] && m.floor == 0 && m.pending == None && m.s.applied == 0 && m.s.commit == 1
    && m.s.role != Leader
  }

  lemma PickedDesk(m: Member, n: NodeId, d: Desk)
    requires Full(m.s.log) && m.floor < |m.s.log| && Contiguous(Image(m).log) && DeskReady(d)
    requires Due(m) && (d == WAITING || d == EMPTY)
    ensures var d2 := DeskAfter(m, ApplyBegin(n), d);
            && Told(d2) == (if d == WAITING then Some("x") else None)
            && d2.taken == Some((X, if d == WAITING then Some(0) else None))
  {
    assert PickEntry(Image(m)).1 == Some(X);
    assert TaskOf(X.command) == Some("x");
    hide Image, PickEntry;
  }

  lemma LoopLeads(c: Cluster, a: Action, c2: Cluster)
    requires By(c, a, c2) && Live(c2) && (a.ApplyBegin? || a.ApplyEnd?) && a.n in IDS
    requires a.n in c.members && a.n in c2.members && c2.members[a.n].s.commit <= 1
    ensures Leads(c, a, c2)
  {
    hide Live, Do, Enabled, WellFormed;
  }

  ghost predicate CanBegin(p: Program, n: NodeId) {
    && n in IDS && n in p.o.c.members && n in p.o.desks && n in p.s.replicas
    && Due(p.o.c.members[n]) && p.s.replicas[n] == Replicas.START.(commit := 1)
    && (p.o.desks[n] == WAITING || p.o.desks[n] == EMPTY)
  }

  /** Member `n` becomes `m` and its replica `r`, and the others stay as they are. */
  ghost predicate Becomes(p: Program, n: NodeId, m: Member, r: Replica, p2: Program) {
    && n in p2.o.desks && p2.o.c.members == p.o.c.members[n := m] && p2.s == p.s.(replicas := p.s.replicas[n := r])
    && (forall x :: x in p.o.desks && x != n ==> x in p2.o.desks && p2.o.desks[x] == p.o.desks[x])
    && p2.o.c.net == p.o.c.net && p2.o.c.h.votes == p.o.c.h.votes && p2.o.c.calls == p.o.c.calls
  }

  /** What a step has done, apart from what it does to its node. */
  ghost predicate Played(p: Program, a: Action, c2: Cluster, p2: Program) {
    && CanMove(p.o, Step(a)) && p2.o == Make(p.o, Step(a)) && p2.o.c == c2
    && a.n in p.s.replicas && a.n in p.o.c.members && a.n in p.o.desks && a.n in c2.members
    && Plays(LOG, p.s, EchoOf(p.o.c.members[a.n], p.o.desks[a.n], a, c2.members[a.n].s.commit, None), p2.s)
  }

  ghost predicate DesksKept(p: Program, n: NodeId, p2: Program) {
    && n in p2.o.desks && p2.o.desks.Keys == p.o.desks.Keys
    && forall x :: x in p.o.desks && x != n ==> p2.o.desks[x] == p.o.desks[x]
  }

  lemma PlayedDesks(p: Program, a: Action, c2: Cluster, p2: Program)
    requires Played(p, a, c2, p2)
    ensures a.n in p.o.c.members && a.n in p.o.desks && a.n in p2.o.desks && DesksKept(p, a.n, p2)
    ensures Full(p.o.c.members[a.n].s.log) && p.o.c.members[a.n].floor < |p.o.c.members[a.n].s.log|
    ensures Contiguous(Image(p.o.c.members[a.n]).log) && DeskReady(p.o.desks[a.n])
    ensures p2.o.desks[a.n] == DeskAfter(p.o.c.members[a.n], a, p.o.desks[a.n])
  {
    hide CanMove, Make, DeskAfter, Image, Contiguous, Full, Do, Plays, EchoOf;
    OwnMake(p.o, a);
    OthersMake(p.o, a);
  }

  lemma PlayLoop(p: Program, a: Action, c2: Cluster) returns (p2: Program)
    requires (a.ApplyBegin? || a.ApplyEnd?) && a.n in p.o.c.members && a.n in c2.members && a.n in IDS
    requires c2.members[a.n].s.commit <= 1 && Ready(p, Step(a), None) && Live(c2)
    requires By(p.o.c, a, c2) && Playing(p)
    ensures Playing(p2) && Played(p, a, c2, p2)
  {
    hide Playing, Live, By, Leads, Ready, CanMove, Make, Plays, EchoOf;
    LoopLeads(p.o.c, a, c2);
    p2 := PlayStep(p, a, c2);
  }

  lemma PlayBegin(p: Program, n: NodeId) returns (p2: Program)
    requires CanBegin(p, n) && Playing(p)
    ensures Becomes(p, n, p.o.c.members[n].(pending := Some(1)), FETCHED, p2) && Playing(p2)
    ensures Told(p2.o.desks[n]) == if p.o.desks[n] == WAITING then Some("x") else None
  {
    hide Playing, Live, Told, By, Ready, Played, Becomes, Arises, OfficeOk;
    PlayingParts(p);
    var a := ApplyBegin(n);
    var c2 := AppliesBegin(p.o.c, n);
    AlwaysReady(p, a);
    p2 := PlayLoop(p, a, c2);
    BeginBecomes(p, n, c2, p2);
  }

  lemma BeginBecomes(p: Program, n: NodeId, c2: Cluster, p2: Program)
    requires CanBegin(p, n) && Played(p, ApplyBegin(n), c2, p2)
    requires c2.members == p.o.c.members[n := p.o.c.members[n].(pending := Some(1))]
    requires c2.net == p.o.c.net && c2.h.votes == p.o.c.h.votes && c2.calls == p.o.c.calls
    ensures Becomes(p, n, p.o.c.members[n].(pending := Some(1)), FETCHED, p2)
    ensures n in p2.o.desks && Told(p2.o.desks[n]) == if p.o.desks[n] == WAITING then Some("x") else None
  {
    hide CanMove, Make, DeskAfter, Image, Contiguous, Full, Do, Told, Plays, EchoOf;
    PlayedDesks(p, ApplyBegin(n), c2, p2);
    BeginPlays(p.s, p.o.c.members[n], p.o.desks[n], n, c2.members[n].s.commit, p2.s);
    PickedDesk(p.o.c.members[n], n, p.o.desks[n]);
  }

  lemma PlayMark(p: Program, n: NodeId) returns (p2: Program)
    requires Playing(p) && n in IDS && n in p.o.c.members && n in p.s.replicas
    requires p.o.c.members[n].s.role != Leader && p.s.replicas[n] == FETCHED
    ensures Playing(p2) && p2.o == p.o && p2.s == p.s.(replicas := p.s.replicas[n := Marked()])
  {
    hide Playing, Arises, OfficeOk, Live;
    hide Replicas.Enabled, Replicas.Do;
    PlayingParts(p);
    MarkPlays(p.s, n);
    p2 := OwnGoes(IDS, LOG, p, Treat(n), Replicas.MarkTask(n, false));
    IsPlaying(p2);
  }

  function Marked(): Replica {
    FETCHED.(pick := Some(Replicas.Pick(1, Replicas.Finished)), dispatched := {"x"}, upTo := 1,
             marks := [Replicas.Fresh("x", false)])
  }

  lemma EndReady(p: Program, n: NodeId)
    requires n in p.s.replicas && p.s.replicas[n] == Marked()
    ensures Ready(p, Step(ApplyEnd(n)), None)
  {
  }

  ghost predicate CanEnd(p: Program, n: NodeId) {
    && n in IDS && n in p.o.c.members && n in p.o.desks && n in p.s.replicas
    && p.o.c.members[n].pending == Some(1) && p.o.c.members[n].s.commit <= 1 && p.s.replicas[n] == Marked()
  }

  function Acks(told: Option<string>): seq<string> {
    if told.Some? then [told.value] else []
  }

  function Done(m: Member): Member {
    m.(s := m.s.(applied := 1), pending := None)
  }

  lemma PlayEnd(p: Program, n: NodeId) returns (p2: Program)
    requires CanEnd(p, n) && Playing(p)
    ensures Becomes(p, n, Done(p.o.c.members[n]), Followed(Acks(Told(p.o.desks[n]))), p2) && Playing(p2)
  {
    hide Playing, Live, Told, By, Ready, Played, Becomes, Followed, Marked, Arises, OfficeOk;
    PlayingParts(p);
    var a := ApplyEnd(n);
    var c2 := AppliesEnd(p.o.c, n);
    EndReady(p, n);
    p2 := PlayLoop(p, a, c2);
    EndBecomes(p, n, c2, p2);
  }

  lemma EndBecomes(p: Program, n: NodeId, c2: Cluster, p2: Program)
    requires CanEnd(p, n) && Played(p, ApplyEnd(n), c2, p2)
    requires c2.members == p.o.c.members[n := Done(p.o.c.members[n])]
    requires c2.net == p.o.c.net && c2.h.votes == p.o.c.h.votes && c2.calls == p.o.c.calls
    ensures Becomes(p, n, Done(p.o.c.members[n]), Followed(Acks(Told(p.o.desks[n]))), p2)
  {
    hide CanMove, Make, DeskAfter, Image, Contiguous, Full, Do, Told, Plays, EchoOf, Followed, Marked;
    PlayedDesks(p, ApplyEnd(n), c2, p2);
    EndPlays(p.s, p.o.c.members[n], p.o.desks[n], n, c2.members[n].s.commit, p2.s);
  }

  /** A member that does not lead applies X. */
  lemma PlayApply(p: Program, n: NodeId) returns (p2: Program)
    requires CanBegin(p, n) && Playing(p)
    ensures Becomes(p, n, Done(p.o.c.members[n]), Followed(if p.o.desks[n] == WAITING then ["x"] else []), p2)
    ensures Playing(p2)
  {
    hide Playing, Told, Followed, Marked;
    p2 := PlayBegin(p, n);
    p2 := PlayMark(p2, n);
    p2 := PlayEnd(p2, n);
  }
}
