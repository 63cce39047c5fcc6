/** A run, with every step guarded, in which a Propose caller is told that its entry is committed
    although another entry was. */
module WaiterWitness {
  import opened RaftTypes
  import opened LogStore
  import opened Handlers
  import opened Cluster
  import opened Waiters
  import opened Proposals
  import opened Witnesses
  import opened Invariant
  import opened Shipping
  import opened Compaction
  import Refinement

  ghost predicate Serving(o: Office) {
    ReachableOffice(IDS, o, false)
  }

  lemma Serve(o: Office, a: Action, c2: Cluster) returns (o2: Office)
    requires Serving(o) && 0 in o.desks
    requires By(o.c, a, c2) && Guarded(o.c, a) && Forward(o.c, a)
    ensures Serving(o2) && o2.c == c2 && 0 in o2.desks
    ensures a.n in o.c.members && CanMove(o, Step(a))
    ensures o2.desks[0] == if a.n == 0 then DeskAfter(o.c.members[0], a, o.desks[0]) else o.desks[0]
  {
    hide Inv, Ship, Guarded, Forward, Compacted, Contiguous, Tidy;
    ReachableOfficeOk(IDS, o, false);
    assert DeskOk(o.c, a.n, o.desks[a.n]);
    Refinement.MemberIsSound(o.c, a.n);
    CompactedShape(o.c.members[a.n].s.log, o.c.members[a.n].floor);
    hide OfficeOk, DeskOk, Do, WellFormed, Enabled, Full, DeskAfter;
    o2 := Make(o, Step(a));
    var moves :| OfficeRun(Opening(IDS), moves, false) && OfficeAfter(Opening(IDS), moves, false) == o;
    OfficeExtends(Opening(IDS), moves, Step(a));
  }

  lemma ServeQuietly(o: Office, a: Action, c2: Cluster) returns (o2: Office)
    requires Serving(o) && 0 in o.desks
    requires By(o.c, a, c2) && Guarded(o.c, a) && Forward(o.c, a)
    requires a.n != 0 || (!a.Propose? && !a.ApplyBegin? && !a.ApplyEnd?)
    ensures Serving(o2) && o2.c == c2 && 0 in o2.desks && o2.desks[0] == o.desks[0]
  {
    o2 := Serve(o, a, c2);
    hide Guarded, Do, WellFormed, Enabled, Serving;
  }

  const Z := LogEntry(2, 1, Foreign([3]))

  const FIRST := NodeState(1, Some(0), [DUMMY, X], Leader, 0, 0, map[1 := 1, 2 := 1], map[0 := 1, 1 := 0, 2 := 0])

  const WAITING := Desk(Book(map[1 := 0], [Channel(1, [], false)]), [X], None, {})

  lemma FirstProposes()
    ensures var s := BecomeLeader(NodeState(1, Some(0), [DUMMY], Candidate, 0, 0, map[], map[]), 0, IDS - {0});
            s.log != [] && Handlers.Propose(s, 0, X.command) == FIRST
  {
    assert IDS - {0} == {1, 2};
    var s := BecomeLeader(NodeState(1, Some(0), [DUMMY], Candidate, 0, 0, map[], map[]), 0, IDS - {0});
    assert s.matchIndex == map[0 := 0, 1 := 0, 2 := 0];
  }

  /** Member 0 has the votes of 0 and 1 in term 1. */
  lemma Elects() returns (o: Office)
    ensures Live(o.c) && Serving(o) && 0 in o.desks && o.desks[0] == Desk(NOBODY, [], None, {})
    ensures {Vote(0, 1, 0), Vote(1, 1, 0)} <= o.c.h.votes
    ensures o.c.members[0] == Plain(NodeState(1, Some(0), [DUMMY], Candidate, 0, 0, map[], map[])).(campaign := Some(1))
    ensures o.c.members[1] == Plain(NodeState(1, Some(0), [DUMMY], Follower, 0, 0, map[], map[]))
    ensures o.c.members[2] == Plain(NodeState(0, None, [DUMMY], Follower, 0, 0, map[], map[])) && o.c.calls == map[]
  {
    hide Live, Serving, By, WellFormed, Arrives, ReachableOffice;
    var c := Start();
    o := Opening(IDS);
    OpenServes();
    c := TimesOut(c, 0);
    o := ServeQuietly(o, ElectionTimeout(0), c);
    c := Stands(c, 0);
    o := ServeQuietly(o, StartElection(0), c);
    c := Backs(c, 1, VoteArgs(1, 0, 0, 0));
    o := ServeQuietly(o, HandleVote(1, VoteArgs(1, 0, 0, 0)), c);
  }

  /** Member 0 leads term 1 and waits for entry X at index 1. */
  lemma Waits() returns (o: Office)
    ensures Live(o.c) && Serving(o) && 0 in o.desks && o.desks[0] == WAITING
    ensures o.c.members[0] == Plain(FIRST)
    ensures o.c.members[1] == Plain(NodeState(1, Some(0), [DUMMY], Follower, 0, 0, map[], map[]))
    ensures o.c.members[2] == Plain(NodeState(0, None, [DUMMY], Follower, 0, 0, map[], map[])) && o.c.calls == map[]
  {
    hide Live, Serving, By, WellFormed, Arrives, ReachableOffice;
    o := Elects();
    var c := Wins(o.c, 0, 1);
    o := ServeQuietly(o, Win(0, {0, 1}), c);
    FirstProposes();
    hide BecomeLeader;
    c := Proposes(c, 0, X.command);
    o := Serve(o, Action.Propose(0, X.command), c);
  }

  lemma OpenServes()
    ensures Serving(Opening(IDS))
  {
    assert OfficeRun(Opening(IDS), [], false) && OfficeAfter(Opening(IDS), [], false) == Opening(IDS);
  }

  const SECOND := NodeState(2, Some(1), [DUMMY, Z], Leader, 0, 0, map[0 := 1, 2 := 1], map[0 := 0, 1 := 1, 2 := 0])

  lemma SecondProposes()
    ensures var s := BecomeLeader(NodeState(2, Some(1), [DUMMY], Candidate, 0, 0, map[], map[]), 1, IDS - {1});
            s.log != [] && Handlers.Propose(s, 1, Z.command) == SECOND
  {
  }

  const VOTER := Plain(NodeState(2, Some(1), [DUMMY], Follower, 0, 0, map[], map[]))

  /** Member 1 leads term 2 with another entry at index 1. */
  lemma RivalsFrom(o0: Office) returns (o: Office)
    requires Live(o0.c) && Serving(o0) && 0 in o0.desks && o0.c.calls == map[]
    requires o0.c.members[1] == Plain(NodeState(1, Some(0), [DUMMY], Follower, 0, 0, map[], map[]))
    requires o0.c.members[2] == Plain(NodeState(0, None, [DUMMY], Follower, 0, 0, map[], map[]))
    ensures Live(o.c) && Serving(o) && 0 in o.desks && o.desks[0] == o0.desks[0]
    ensures o.c.members[0] == o0.c.members[0]
    ensures o.c.members[1] == Plain(SECOND) && o.c.calls == map[]
    ensures o.c.members[2] == VOTER
  {
    hide Live, Serving, By, WellFormed, Arrives, ReachableOffice;
    var c := TimesOut(o0.c, 1);
    o := ServeQuietly(o0, ElectionTimeout(1), c);
    c := Stands(c, 1);
    o := ServeQuietly(o, StartElection(1), c);
    c := Backs(c, 2, VoteArgs(2, 1, 0, 0));
    o := ServeQuietly(o, HandleVote(2, VoteArgs(2, 1, 0, 0)), c);
    c := Wins(c, 1, 2);
    o := ServeQuietly(o, Win(1, {1, 2}), c);
    SecondProposes();
    hide BecomeLeader;
    c := Proposes(c, 1, Z.command);
    o := ServeQuietly(o, Action.Propose(1, Z.command), c);
  }

  /** While member 0 waits for its entry. */
  lemma Rivals() returns (o: Office)
    ensures Live(o.c) && Serving(o) && 0 in o.desks && o.desks[0] == WAITING
    ensures o.c.members[0] == Plain(FIRST)
    ensures o.c.members[1] == Plain(SECOND) && o.c.calls == map[] && o.c.members[2] == VOTER
  {
    o := Waits();
    o := RivalsFrom(o);
  }

  const REQUEST := AppendArgs(2, 1, 0, 0, [Z], 0)

  lemma MergeZ()
    ensures Merge([DUMMY, X], 0, [Z], 1) == [DUMMY, Z]
  {
  }

  lemma Overwritten()
    ensures HandleAppendEntries(FIRST, REQUEST) ==
            (FIRST.(term := 2, votedFor := None, role := Follower, log := [DUMMY, Z]), AppendReply(2, true))
  {
    MergeZ();
    hide Merge;
  }

  /** Member 0 is deposed by the append of member 1, which overwrites the awaited entry; its waiters
      are not aborted. */
  lemma Overwrites() returns (o: Office)
    ensures Live(o.c) && Serving(o) && 0 in o.desks && o.desks[0] == WAITING
    ensures o.c.members[0] == Plain(FIRST.(term := 2, votedFor := None, role := Follower, log := [DUMMY, Z]))
    ensures o.c.members[1] == Plain(SECOND) && o.c.members[2] == VOTER
    ensures o.c.calls == map[(1, 0) := Call(AppendReq(0, REQUEST), Some(Appended(AppendReply(2, true))))]
  {
    hide Live, Serving, By, WellFormed, Arrives, ReachableOffice;
    o := Rivals();
    var c := SendsAppend(o.c, 1, 0);
    o := ServeQuietly(o, SendAppend(1, 0), c);
    assert AppendFor(SECOND, 1, 1) == REQUEST && Get(SECOND.nextIndex, 0) == 1;
    LiveMember(c, 1);
    Overwritten();
    hide HandleAppendEntries, AppendFor;
    c := TakesAppend(c, 0, REQUEST, true);
    o := ServeQuietly(o, HandleAppend(0, REQUEST, true), c);
  }

  const BACKED := SECOND.(matchIndex := map[0 := 1, 1 := 1, 2 := 0], nextIndex := map[0 := 2, 2 := 1])

  lemma BackedUp()
    ensures HandleAppendReply(SECOND, 0, REQUEST, AppendReply(2, true)) == BACKED
    ensures Contiguous(BACKED.log) && Last(BACKED.log) == 1 && Committable(BACKED, IDS - {1}, 1)
  {
    assert (set p | p in IDS - {1} && Get(BACKED.matchIndex, p) >= 1) == {0};
    assert IDS - {1} == {0, 2};
  }

  /** Member 1 commits its entry. */
  lemma RivalCommits() returns (o: Office)
    ensures Live(o.c) && Serving(o) && 0 in o.desks && o.desks[0] == WAITING
    ensures o.c.members[0] == Plain(FIRST.(term := 2, votedFor := None, role := Follower, log := [DUMMY, Z]))
    ensures o.c.members[1].s == BACKED.(commit := 1)
    ensures o.c.members[1].floor == 0 && o.c.calls == map[] && o.c.members[2] == VOTER
  {
    hide Live, Serving, By, WellFormed, Arrives, ReachableOffice;
    o := Overwrites();
    BackedUp();
    hide HandleAppendReply, Committable, Contiguous;
    var c := Hears(o.c, 1, 0, REQUEST, AppendReply(2, true));
    o := ServeQuietly(o, HandleAppendAns(1, 0), c);
    c := Commits(c, 1, 1);
    o := ServeQuietly(o, AdvanceCommit(1), c);
    assert c.calls == map[];
  }

  const HEARTBEAT := AppendArgs(2, 1, 1, 2, [], 1)

  /** Member 0 learns of the commit. */
  lemma Learns() returns (o: Office)
    ensures Live(o.c) && Serving(o) && 0 in o.desks && o.desks[0] == WAITING
    ensures o.c.members[0] ==
            Plain(FIRST.(term := 2, votedFor := None, role := Follower, log := [DUMMY, Z], commit := 1))
    ensures o.c.members[1].s.log == [DUMMY, Z] && o.c.members[2] == VOTER
  {
    hide Live, Serving, By, WellFormed, Arrives, ReachableOffice;
    o := RivalCommits();
    var c := SendsAppend(o.c, 1, 0);
    o := ServeQuietly(o, SendAppend(1, 0), c);
    assert AppendFor(BACKED.(commit := 1), 1, 2) == HEARTBEAT && Get(BACKED.nextIndex, 0) == 2;
    c := TakesAppend(c, 0, HEARTBEAT, false);
    o := ServeQuietly(o, HandleAppend(0, HEARTBEAT, false), c);
  }

  /** raft/node.go:545-549 and 601-605 depose a leader without a signal to abort its waiters, and
      waiters are found by index alone (raft/node.go:850): the caller that proposed X in term 1 is
      told that it is committed, with the term of the entry that took its place. */
  lemma CallerIsMisled() returns (o: Office)
    ensures ReachableOffice(IDS, o, false) && 0 in o.desks
    ensures o.desks[0].asked == [X] && |o.desks[0].book.channels| == 1
    ensures o.desks[0].book.channels[0] == Channel(1, [ProposeResult(true, 1, 2)], true)
    ensures !Decided(o.c, 1, X)
    ensures o.c.members.Keys == IDS
    ensures o.c.members[0].s.log == [DUMMY, Z] == o.c.members[1].s.log && o.c.members[2].s.log == [DUMMY]
  {
    hide Live, Serving, By, WellFormed, Arrives, ReachableOffice;
    o := Learns();
    var c := AppliesBegin(o.c, 0);
    LiveFormed(c);
    BeginsWith(o.c);
    o := Serve(o, ApplyBegin(0), c);
    assert o.desks[0] == Desk(Book(map[], [Channel(1, [], false)]), [X], Some((Z, Some(0))), {});
    c := AppliesEnd(c, 0);
    o := Serve(o, ApplyEnd(0), c);
    assert o.desks[0].book.channels == [Finish(Channel(1, [], false), ProposeResult(true, 1, 2))];
    assert [] + [ProposeResult(true, 1, 2)] == [ProposeResult(true, 1, 2)];
    Served(o);
    NotDecided(o);
  }

  lemma Served(o: Office)
    requires Serving(o)
    ensures ReachableOffice(IDS, o, false)
  {
  }

  lemma BeginsWith(c: Cluster)
    requires Live(c) && c.members[0].floor == 0 && c.members[0].s.applied == 0
    requires c.members[0].s.commit == 1 && c.members[0].s.log == [DUMMY, Z]
    ensures Contiguous(Image(c.members[0]).log) && PickEntry(Image(c.members[0])).1 == Some(Z)
  {
  }

  lemma NotDecided(o: Office)
    requires ReachableOffice(IDS, o, false) && 0 in o.desks
    requires o.desks[0].asked == [X] && o.desks[0].book.channels == [Channel(1, [ProposeResult(true, 1, 2)], true)]
    ensures !Decided(o.c, 1, X)
  {
    hide Inv, Ship, Decided, ReachableOffice;
    ReachableOfficeOk(IDS, o, false);
    WaiterResults(IDS, o, 0, 0);
    var e :| Outcome(o.c, 0, o.desks[0], 0, e);
    if Decided(o.c, 1, X) {
      DecidedOnce(o.c, 1, X, e);
    }
  }
}
