/** Two runs, with every step guarded, in which a Propose caller is never told anything. */
module ForgottenWitness {
  import opened RaftTypes
  import opened LogStore
  import opened Handlers
  import opened Cluster
  import opened Waiters
  import opened Proposals
  import opened Witnesses
  import opened WaiterWitness
  import opened Silencing

  const W := LogEntry(3, 2, Foreign([4]))

  const TWO_WAITING :=
    Desk(Book(map[1 := 0, 2 := 1], [Channel(1, [], false), Channel(2, [], false)]), [X, Y], None, {})

  lemma SecondOfChief()
    ensures Handlers.Propose(FIRST, 0, Y.command) == CHIEF
  {
  }

  /** Member 0 leads term 1 and waits for its entries at the indices 1 and 2. */
  lemma TwoWait() returns (o: Office)
    ensures Live(o.c) && Serving(o) && 0 in o.desks && o.desks[0] == TWO_WAITING
    ensures o.c.members[0] == Plain(CHIEF)
    ensures o.c.members[1] == Plain(NodeState(1, Some(0), [DUMMY], Follower, 0, 0, map[], map[]))
    ensures o.c.members[2] == Plain(NodeState(0, None, [DUMMY], Follower, 0, 0, map[], map[])) && o.c.calls == map[]
  {
    hide Live, Serving, By, WellFormed, Arrives, ReachableOffice;
    o := Waits();
    SecondOfChief();
    var c := Proposes(o.c, 0, Y.command);
    o := Serve(o, Action.Propose(0, Y.command), c);
    assert o.desks[0].asked == [X, Y] && o.desks[0].book.channels == [Channel(1, [], false), Channel(2, [], false)];
  }

  lemma MergeOver()
    ensures Merge([DUMMY, X, Y], 0, [Z], 1) == [DUMMY, Z]
  {
  }

  lemma BothOverwritten()
    ensures HandleAppendEntries(CHIEF, REQUEST) ==
            (CHIEF.(term := 2, votedFor := None, role := Follower, log := [DUMMY, Z]), AppendReply(2, true))
  {
    MergeOver();
    hide Merge;
  }

  const DEPOSED := CHIEF.(term := 2, votedFor := None, role := Follower, log := [DUMMY, Z])

  /** One append of member 1 removes both entries; the waiters stay. */
  lemma BothRemoved() returns (o: Office)
    ensures Live(o.c) && Serving(o) && 0 in o.desks && o.desks[0] == TWO_WAITING
    ensures o.c.members[0] == Plain(DEPOSED)
    ensures o.c.members[2] == VOTER
  {
    hide Live, Serving, By, WellFormed, Arrives, ReachableOffice;
    o := TwoWait();
    o := RivalsFrom(o);
    var c := SendsAppend(o.c, 1, 0);
    o := ServeQuietly(o, SendAppend(1, 0), c);
    assert AppendFor(SECOND, 1, 1) == REQUEST && Get(SECOND.nextIndex, 0) == 1;
    LiveMember(c, 0);
    BothOverwritten();
    hide HandleAppendEntries, AppendFor;
    c := TakesAppend(c, 0, REQUEST, false);
    o := ServeQuietly(o, HandleAppend(0, REQUEST, false), c);
  }

  const BACK := DEPOSED.(term := 3, votedFor := Some(0), role := Leader, nextIndex := map[1 := 2, 2 := 2],
                         matchIndex := map[0 := 1, 1 := 0, 2 := 0])

  lemma BackAgain()
    ensures BecomeLeader(DEPOSED.(term := 3, votedFor := Some(0), role := Candidate), 0, IDS - {0}) == BACK
  {
    assert IDS - {0} == {1, 2};
  }

  /** Member 0 leads term 3. */
  lemma LeadsAgain() returns (o: Office)
    ensures Live(o.c) && Serving(o) && 0 in o.desks && o.desks[0] == TWO_WAITING
    ensures o.c.members[0] == Plain(BACK)
  {
    hide Live, Serving, By, WellFormed, Arrives, ReachableOffice;
    o := BothRemoved();
    var c := TimesOut(o.c, 0);
    o := ServeQuietly(o, ElectionTimeout(0), c);
    c := Stands(c, 0);
    o := ServeQuietly(o, StartElection(0), c);
    c := Backs(c, 2, VoteArgs(3, 0, 1, 2));
    o := ServeQuietly(o, HandleVote(2, VoteArgs(3, 0, 1, 2)), c);
    c := Wins(c, 0, 2);
    BackAgain();
    hide BecomeLeader;
    o := ServeQuietly(o, Win(0, {0, 2}), c);
  }

  lemma OrphanIsSilent(o: Office, n: NodeId, k: nat)
    requires n in o.c.members && n in o.desks && Orphaned(o.desks[n], k)
    ensures Silent(o.c.members[n], o.desks[n], k)
  {
  }

  /** raft/node.go:327 keeps a new leader waiting for its last vote requests. If another leader
      deposes it meanwhile, runLeader never starts and so never aborts the waiters. Leading again it
      proposes at an index on which a caller still waits, and that caller is silenced. */
  lemma CallerIsForgotten() returns (o: Office)
    ensures ReachableOffice(IDS, o, false) && 0 in o.desks && 0 in o.c.members
    ensures o.desks[0].asked == [X, Y, W] && Silent(o.c.members[0], o.desks[0], 1)
  {
    hide Live, Serving, By, WellFormed, Arrives, ReachableOffice, Silent;
    o := LeadsAgain();
    var c := Proposes(o.c, 0, W.command);
    o := Serve(o, Action.Propose(0, W.command), c);
    assert o.desks[0].asked == [X, Y, W];
    assert o.desks[0].book.waits == map[1 := 0, 2 := 2];
    Served(o);
    OrphanIsSilent(o, 0, 1);
  }

  // --- A snapshot passes a waiter by ---

  const V := LogEntry(2, 2, Foreign([5]))

  const PAIR := SECOND.(log := [DUMMY, Z, V], matchIndex := map[0 := 0, 1 := 2, 2 := 0])

  const PAIR_REQUEST := AppendArgs(2, 1, 0, 0, [Z, V], 0)

  lemma PairProposed()
    ensures Handlers.Propose(SECOND, 1, V.command) == PAIR
  {
  }

  lemma VoterTakes()
    ensures HandleAppendEntries(VOTER.s, PAIR_REQUEST).1 == AppendReply(2, true)
  {
  }

  /** Member 1 has two entries, and member 2 has taken them. */
  lemma PairTaken() returns (o: Office)
    ensures Live(o.c) && Serving(o) && 0 in o.desks && o.desks[0] == WAITING
    ensures o.c.members[0] == Plain(FIRST) && o.c.members[1] == Plain(PAIR)
    ensures o.c.calls == map[(1, 2) := Call(AppendReq(2, PAIR_REQUEST), Some(Appended(AppendReply(2, true))))]
  {
    hide Live, Serving, By, WellFormed, Arrives, ReachableOffice;
    o := Rivals();
    PairProposed();
    var c := Proposes(o.c, 1, V.command);
    o := ServeQuietly(o, Action.Propose(1, V.command), c);
    c := SendsAppend(c, 1, 2);
    o := ServeQuietly(o, SendAppend(1, 2), c);
    assert AppendFor(PAIR, 1, 1) == PAIR_REQUEST && Get(PAIR.nextIndex, 2) == 1;
    LiveMember(c, 1);
    VoterTakes();
    hide HandleAppendEntries, AppendFor;
    c := TakesAppend(c, 2, PAIR_REQUEST, true);
    o := ServeQuietly(o, HandleAppend(2, PAIR_REQUEST, true), c);
  }

  const PAIR_BACKED := PAIR.(matchIndex := map[0 := 0, 1 := 2, 2 := 2], nextIndex := map[0 := 1, 2 := 3])

  lemma PairBacked()
    ensures HandleAppendReply(PAIR, 2, PAIR_REQUEST, AppendReply(2, true)) == PAIR_BACKED
    ensures Contiguous(PAIR_BACKED.log) && Last(PAIR_BACKED.log) == 2 && Committable(PAIR_BACKED, IDS - {1}, 2)
  {
    assert (set p | p in IDS - {1} && Get(PAIR_BACKED.matchIndex, p) >= 2) == {2};
    assert IDS - {1} == {0, 2};
  }

  /** Member 1 commits both entries and applies them. */
  lemma PairApplied() returns (o: Office)
    ensures Live(o.c) && Serving(o) && 0 in o.desks && o.desks[0] == WAITING
    ensures o.c.members[0] == Plain(FIRST) && o.c.members[1] == Plain(PAIR_BACKED.(commit := 2, applied := 2))
    ensures o.c.calls == map[]
  {
    hide Live, Serving, By, WellFormed, Arrives, ReachableOffice;
    o := PairTaken();
    PairBacked();
    hide HandleAppendReply, Committable, Contiguous;
    var c := Hears(o.c, 1, 2, PAIR_REQUEST, AppendReply(2, true));
    o := ServeQuietly(o, HandleAppendAns(1, 2), c);
    c := Commits(c, 1, 2);
    o := ServeQuietly(o, AdvanceCommit(1), c);
    assert c.calls == map[];
    o := TurnsLoop(o);
    o := TurnsLoop(o);
  }

  /** Member 1 applies the next entry. */
  lemma TurnsLoop(o: Office) returns (o2: Office)
    requires Live(o.c) && Serving(o) && 0 in o.desks && 1 in o.c.members
    requires o.c.members[1].pending == None && o.c.members[1].floor == 0
    requires o.c.members[1].s.applied + 1 <= o.c.members[1].s.commit < |o.c.members[1].s.log|
    ensures Live(o2.c) && Serving(o2) && 0 in o2.desks && o2.desks[0] == o.desks[0] && o2.c.calls == o.c.calls
    ensures var m := o.c.members[1];
            o2.c.members == o.c.members[1 := m.(s := m.s.(applied := m.s.applied + 1))]
  {
    hide Live, Serving, By;
    var c := AppliesBegin(o.c, 1);
    o2 := ServeQuietly(o, ApplyBegin(1), c);
    c := AppliesEnd(c, 1);
    o2 := ServeQuietly(o2, ApplyEnd(1), c);
  }

  const PAIR_SNAP := SnapshotArgs(2, 1, 2, 2)

  /** Member 1 has compacted its log and ships the snapshot to member 0. */
  lemma PairShipped() returns (o: Office)
    ensures Live(o.c) && Serving(o) && 0 in o.desks && o.desks[0] == WAITING
    ensures o.c.members[0] == Plain(FIRST) && SnapReq(0, PAIR_SNAP, [DUMMY, Z, V]) in o.c.net
  {
    hide Live, Serving, By, WellFormed, Arrives, ReachableOffice;
    o := PairApplied();
    var c := Captures(o.c, 1);
    o := ServeQuietly(o, CaptureLabel(1), c);
    c := Finishes(c, 1);
    o := ServeQuietly(o, FinishSnapshot(1), c);
    c := SendsSnapshot(c, 1, 0);
    o := ServeQuietly(o, SendSnapshot(1, 0), c);
    assert [DUMMY, Z, V][..3] == [DUMMY, Z, V];
  }

  /** raft/node.go:697-699 takes lastApplied past an index on which a caller waits, 843-844 jumps over
      it, and 525-526 aborts only waiters above the commit index: the caller is silenced, although
      nothing is ever proposed at its index again. */
  lemma CallerIsStranded() returns (o: Office)
    ensures ReachableOffice(IDS, o, false) && 0 in o.desks && 0 in o.c.members
    ensures o.desks[0].asked == [X] && WaitsOn(o.desks[0].book, 0) && Silent(o.c.members[0], o.desks[0], 0)
  {
    hide Live, Serving, By, WellFormed, Arrives, ReachableOffice;
    o := PairShipped();
    var c := TakesSnapshot(o.c, 0, PAIR_SNAP, [DUMMY, Z, V]);
    o := ServeQuietly(o, HandleSnapshot(0, PAIR_SNAP, [DUMMY, Z, V], true, false), c);
    Served(o);
  }
}
