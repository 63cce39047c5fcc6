/** Concrete runs of three members that go wrong. */
module Witnesses {
  import opened RaftTypes
  import opened LogStore
  import opened Handlers
  import opened Cluster

  /** A run of the steps of the model, guarded or not. */
  predicate RawRun(c: Cluster, run: seq<Action>)
    decreases |run|
  {
    run == [] || (CanStep(c, run[0]) && RawRun(Do(c, run[0]), run[1..]))
  }

  function RawAfter(c: Cluster, run: seq<Action>): Cluster
    requires RawRun(c, run)
    decreases |run|
  {
    if run == [] then c else RawAfter(Do(c, run[0]), run[1..])
  }

  /** `c2` comes out of `c` by such a run. */
  ghost predicate Arrives(c: Cluster, c2: Cluster) {
    exists run :: RawRun(c, run) && RawAfter(c, run) == c2
  }

  lemma ArrivesFirst(c: Cluster)
    ensures Arrives(c, c)
  {
    assert RawRun(c, []) && RawAfter(c, []) == c;
  }

  lemma {:induction false} RunExtends(c: Cluster, run: seq<Action>, a: Action)
    requires RawRun(c, run) && CanStep(RawAfter(c, run), a)
    ensures RawRun(c, run + [a]) && RawAfter(c, run + [a]) == Do(RawAfter(c, run), a)
    decreases |run|
  {
    hide Do;
    if run == [] {
      assert run + [a] == [a];
      assert [a][1..] == [];
    } else {
      assert (run + [a])[1..] == run[1..] + [a];
      RunExtends(Do(c, run[0]), run[1..], a);
    }
  }

  lemma ArrivesNext(c: Cluster, c1: Cluster, a: Action)
    requires Arrives(c, c1) && CanStep(c1, a)
    ensures Arrives(c, Do(c1, a))
  {
    hide Do, CanStep;
    var run :| RawRun(c, run) && RawAfter(c, run) == c1;
    RunExtends(c, run, a);
  }

  const IDS: set<NodeId> := {0, 1, 2}

  ghost predicate Live(c: Cluster) {
    WellFormed(c) && Arrives(Init(IDS), c) && c.members.Keys == IDS
  }

  lemma LiveArrives(c: Cluster)
    requires Live(c)
    ensures Arrives(Init(IDS), c) && c.members.Keys == IDS
  {
  }

  ghost predicate By(c: Cluster, a: Action, c2: Cluster) {
    CanStep(c, a) && c2 == Do(c, a)
  }

  // --- What single steps do ---

  lemma Start() returns (c: Cluster)
    ensures Live(c) && c == Init(IDS)
  {
    c := Init(IDS);
    ArrivesFirst(c);
  }

  /** A member of a live cluster is well formed. */
  lemma LiveMember(c: Cluster, n: NodeId)
    requires Live(c) && n in IDS
    ensures n in c.members && Full(c.members[n].s.log) && c.members[n].floor < |c.members[n].s.log|
  {
  }

  lemma LiveFormed(c: Cluster)
    requires Live(c)
    ensures WellFormed(c) && c.members.Keys == IDS
  {
  }

  lemma LiveRequest(c: Cluster, msg: Message)
    requires Live(c) && msg in c.net
    ensures msg.AppendReq? ==> Follows(msg.args.prevLogIndex, msg.args.entries)
    ensures msg.SnapReq? ==> Full(msg.prefix)
  {
  }

  ghost predicate MessageFormed(msg: Message) {
    && (msg.AppendReq? ==> Follows(msg.args.prevLogIndex, msg.args.entries))
    && (msg.SnapReq? ==> Full(msg.prefix))
  }

  lemma StaysFormed(c: Cluster, n: NodeId, c2: Cluster, msgs: set<Message>)
    requires WellFormed(c) && n in c2.members && c2.members == c.members[n := c2.members[n]] && c2.net == c.net + msgs
    requires forall msg :: msg in msgs ==> MessageFormed(msg)
    requires Full(c2.members[n].s.log) && c2.members[n].floor < |c2.members[n].s.log|
    ensures WellFormed(c2)
  {
  }

  /** A step that replaces member n and sends at most one message keeps the cluster live. */
  lemma MoveKeepsLive(c: Cluster, a: Action, c2: Cluster, msgs: set<Message>)
    requires Live(c) && a.n in IDS && Enabled(c, a) && c2 == Do(c, a)
    requires a.n in c2.members && c2.members == c.members[a.n := c2.members[a.n]] && c2.net == c.net + msgs
    requires forall msg :: msg in msgs ==> MessageFormed(msg)
    requires Full(c2.members[a.n].s.log) && c2.members[a.n].floor < |c2.members[a.n].s.log|
    ensures Live(c2)
  {
    hide Do, WellFormed, Enabled, Full, MessageFormed, Arrives;
    StaysFormed(c, a.n, c2, msgs);
    ArrivesNext(Init(IDS), c, a);
  }

  lemma Stands(c: Cluster, n: NodeId) returns (c2: Cluster)
    requires Live(c) && n in IDS && c.members[n].s.role != Leader && c.members[n].campaign == None
    ensures By(c, StartElection(n), c2)
    ensures Live(c2)
    ensures var m, s' := c.members[n], Handlers.StartElection(c.members[n].s, n);
            && c2.members == c.members[n := m.(s := s', campaign := Some(s'.term))]
            && m.s.log != [] && c2.net == c.net + {VoteReq(VoteRequest(s', n))}
            && c2.h.votes == c.h.votes + {Vote(n, s'.term, n)} && c2.calls == c.calls
  {
    LiveMember(c, n);
    assert Enabled(c, StartElection(n));
    c2 := Do(c, StartElection(n));
    hide Live, Enabled, Do, Full;
    MoveKeepsLive(c, StartElection(n), c2, {VoteReq(VoteRequest(Handlers.StartElection(c.members[n].s, n), n))});
  }

  lemma Backs(c: Cluster, n: NodeId, vote: VoteArgs) returns (c2: Cluster)
    requires Live(c) && n in IDS && VoteReq(vote) in c.net && vote.candidate != n
    requires c.members[n].s.log != [] && HandleRequestVote(c.members[n].s, vote).1.granted
    ensures By(c, HandleVote(n, vote), c2)
    ensures Live(c2)
    ensures c2.members == c.members[n := c.members[n].(s := HandleRequestVote(c.members[n].s, vote).0)]
    ensures c2.net == c.net && c2.h.votes == c.h.votes + {Vote(n, vote.term, vote.candidate)} && c2.calls == c.calls
  {
    LiveMember(c, n);
    assert Enabled(c, HandleVote(n, vote));
    c2 := Do(c, HandleVote(n, vote));
    hide Live, Enabled, Do, Full;
    MoveKeepsLive(c, HandleVote(n, vote), c2, {});
  }

  lemma WinEnabled(c: Cluster, n: NodeId, x: NodeId)
    requires Live(c) && n in IDS && x in IDS && x != n && c.members[n].campaign.Some?
    requires Vote(n, c.members[n].campaign.value, n) in c.h.votes &&
             Vote(x, c.members[n].campaign.value, n) in c.h.votes
    ensures Enabled(c, Win(n, {n, x}))
  {
    hide WellFormed, Arrives;
    assert |c.members| == |c.members.Keys| == |IDS| == 3;
    assert |{n, x}| == 2;
  }

  lemma DoingWin(c: Cluster, n: NodeId, q: set<NodeId>)
    requires WellFormed(c) && Enabled(c, Win(n, q))
    ensures n in c.members && c.members[n].s.log != [] && Do(c, Win(n, q)) == DoWin(c, n, q)
  {
  }

  lemma WinEffect(c: Cluster, n: NodeId, q: set<NodeId>)
    requires n in c.members && c.members[n].s.log != []
    ensures var m, c2 := c.members[n], DoWin(c, n, q);
            && c2.members == c.members[n := m.(s := BecomeLeader(m.s, n, Peers(c, n)), campaign := None)]
            && c2.net == c.net && c2.h.votes == c.h.votes
  {
  }

  /** Two votes out of three win. */
  lemma Wins(c: Cluster, n: NodeId, x: NodeId) returns (c2: Cluster)
    requires Live(c) && n in IDS && x in IDS && x != n && c.members[n].campaign.Some?
    requires Vote(n, c.members[n].campaign.value, n) in c.h.votes &&
             Vote(x, c.members[n].campaign.value, n) in c.h.votes
    ensures By(c, Win(n, {n, x}), c2)
    ensures Live(c2) && c2.net == c.net && c2.h.votes == c.h.votes && c2.calls == c.calls && c.members[n].s.log != []
    ensures c2.members == c.members[n := c.members[n].(s := BecomeLeader(c.members[n].s, n, IDS - {n}),
            campaign := None)]
  {
    LiveMember(c, n);
    WinEnabled(c, n, x);
    assert Peers(c, n) == IDS - {n};
    hide Live, Enabled, Full, Do, BecomeLeader;
    DoingWin(c, n, {n, x});
    WinEffect(c, n, {n, x});
    c2 := DoWin(c, n, {n, x});
    hide DoWin;
    MoveKeepsLive(c, Win(n, {n, x}), c2, {});
  }

  lemma TimesOut(c: Cluster, n: NodeId) returns (c2: Cluster)
    requires Live(c) && n in IDS && c.members[n].s.role == Follower && c.members[n].campaign == None
    ensures By(c, ElectionTimeout(n), c2)
    ensures Live(c2)
    ensures c2 == c.(members := c.members[n := c.members[n].(s := c.members[n].s.(role := Candidate))])
  {
    LiveMember(c, n);
    c2 := Do(c, ElectionTimeout(n));
    MoveKeepsLive(c, ElectionTimeout(n), c2, {});
  }

  lemma GivesUp(c: Cluster, n: NodeId) returns (c2: Cluster)
    requires Live(c) && n in IDS && c.members[n].campaign.Some?
    ensures By(c, EndCampaign(n), c2)
    ensures Live(c2)
    ensures c2 == c.(members := c.members[n := c.members[n].(campaign := None)])
  {
    LiveMember(c, n);
    c2 := Do(c, EndCampaign(n));
    MoveKeepsLive(c, EndCampaign(n), c2, {});
  }

  lemma SendsAppend(c: Cluster, n: NodeId, to: NodeId) returns (c2: Cluster)
    requires Live(c) && n in IDS && to in IDS && n != to && c.members[n].s.role == Leader && (n, to) !in c.calls
    requires c.members[n].s.log != []
    requires c.members[n].floor == 0 < Get(c.members[n].s.nextIndex, to) <= Last(c.members[n].s.log) + 1
    ensures By(c, SendAppend(n, to), c2)
    ensures Live(c2) && c2.members == c.members && c2.h == c.h
    ensures Contiguous(c.members[n].s.log) && First(c.members[n].s.log) == 0
    ensures var req := AppendReq(to, AppendFor(c.members[n].s, n, Get(c.members[n].s.nextIndex, to)));
            c2.net == c.net + {req} && c2.calls == c.calls[(n, to) := Call(req, None)]
  {
    hide Live, WellFormed, Arrives;
    LiveMember(c, n);
    LiveFormed(c);
    var a := SendAppend(n, to);
    c2 := Do(c, a);
    MoveKeepsLive(c, a, c2, {AppendReq(to, AppendFor(c.members[n].s, n, Get(c.members[n].s.nextIndex, to)))});
  }

  lemma GivesUpCall(c: Cluster, n: NodeId, to: NodeId) returns (c2: Cluster)
    requires Live(c) && n in IDS && (n, to) in c.calls && c.calls[(n, to)].answer == None
    ensures By(c, GiveUp(n, to), c2)
    ensures Live(c2) && c2 == c.(calls := c.calls - {(n, to)})
  {
    hide Live, WellFormed, Arrives, Contiguous;
    LiveMember(c, n);
    LiveFormed(c);
    c2 := Do(c, GiveUp(n, to));
    MoveKeepsLive(c, GiveUp(n, to), c2, {});
  }

  lemma AppendStaysFull(s: NodeState, a: AppendArgs)
    requires Full(s.log) && Follows(a.prevLogIndex, a.entries)
    ensures Full(HandleAppendEntries(s, a).0.log)
  {
  }

  lemma TakesAppend(c: Cluster, n: NodeId, a: AppendArgs, heard: bool) returns (c2: Cluster)
    requires Live(c) && n in IDS && AppendReq(n, a) in c.net && c.members[n].floor == 0
    requires heard ==> Listening(c, a.leader, n, AppendReq(n, a))
    ensures By(c, HandleAppend(n, a, heard), c2)
    ensures Live(c2)
    ensures Contiguous(c.members[n].s.log) && Follows(a.prevLogIndex, a.entries)
    ensures var (s', r) := HandleAppendEntries(c.members[n].s, a);
            && c2.members == c.members[n := c.members[n].(s := s')] && c2.net == c.net && c2.h.votes == c.h.votes
            && c2.calls == if heard then c.calls[(a.leader, n) := Call(AppendReq(n, a), Some(Appended(r)))] else c.calls
  {
    hide Live, HandleAppendEntries, Arrives, WellFormed, Follows;
    LiveMember(c, n);
    LiveFormed(c);
    LiveRequest(c, AppendReq(n, a));
    AppendStaysFull(c.members[n].s, a);
    c2 := Do(c, HandleAppend(n, a, heard));
    assert c2 == DoAppend(c, n, a, heard);
    hide Do, Full, Contiguous;
    MoveKeepsLive(c, HandleAppend(n, a, heard), c2, {});
  }

  lemma Proposes(c: Cluster, n: NodeId, cmd: Command) returns (c2: Cluster)
    requires Live(c) && n in IDS && c.members[n].s.role == Leader
    ensures By(c, Action.Propose(n, cmd), c2)
    ensures Live(c2) && c2.net == c.net && c2.h.votes == c.h.votes && c2.calls == c.calls
    ensures c.members[n].s.log != []
    ensures c2.members == c.members[n := c.members[n].(s := Handlers.Propose(c.members[n].s, n, cmd))]
  {
    hide Live, WellFormed, Arrives;
    LiveMember(c, n);
    LiveFormed(c);
    assert Do(c, Propose(n, cmd)) == DoPropose(c, n, cmd);
    c2 := DoPropose(c, n, cmd);
    assert Full(c2.members[n].s.log);
    hide Do, Full;
    MoveKeepsLive(c, Propose(n, cmd), c2, {});
  }

  lemma Hears(c: Cluster, n: NodeId, from: NodeId, a: AppendArgs, r: AppendReply) returns (c2: Cluster)
    requires Live(c) && n in IDS && c.members[n].floor == 0
    requires (n, from) in c.calls && c.calls[(n, from)] == Call(AppendReq(from, a), Some(Appended(r)))
    ensures By(c, HandleAppendAns(n, from), c2)
    ensures Live(c2) && c2.net == c.net && c2.h.votes == c.h.votes && c2.calls == c.calls - {(n, from)}
    ensures c.members[n].s.log != []
    ensures c2.members == c.members[n := c.members[n].(s := HandleAppendReply(c.members[n].s, from, a, r))]
  {
    hide Live, WellFormed, Arrives, Contiguous;
    LiveMember(c, n);
    LiveFormed(c);
    c2 := Do(c, HandleAppendAns(n, from));
    hide Do, Full;
    MoveKeepsLive(c, HandleAppendAns(n, from), c2, {});
  }

  lemma CommitEffect(c: Cluster, n: NodeId, k: nat)
    requires n in c.members && Contiguous(c.members[n].s.log)
    requires k == Last(c.members[n].s.log) > c.members[n].s.commit && Committable(c.members[n].s, Peers(c, n), k)
    ensures var c2 := DoCommit(c, n);
            && c2.net == c.net && c2.h.votes == c.h.votes && c2.calls == c.calls
            && c2.members == c.members[n := c.members[n].(s := c.members[n].s.(commit := k))]
  {
  }

  lemma Commits(c: Cluster, n: NodeId, k: nat) returns (c2: Cluster)
    requires Live(c) && n in IDS && c.members[n].s.role == Leader && Contiguous(c.members[n].s.log)
    requires k == Last(c.members[n].s.log) > c.members[n].s.commit && Committable(c.members[n].s, IDS - {n}, k)
    ensures By(c, AdvanceCommit(n), c2)
    ensures Live(c2) && c2.net == c.net && c2.h.votes == c.h.votes && c2.calls == c.calls
    ensures c2.members == c.members[n := c.members[n].(s := c.members[n].s.(commit := k))]
  {
    hide Live, WellFormed, Committable, Arrives, Contiguous;
    LiveMember(c, n);
    LiveFormed(c);
    assert Peers(c, n) == IDS - {n};
    CommitEffect(c, n, k);
    assert Do(c, AdvanceCommit(n)) == DoCommit(c, n);
    hide Do, DoCommit, Full;
    c2 := Do(c, AdvanceCommit(n));
    MoveKeepsLive(c, AdvanceCommit(n), c2, {});
  }

  lemma PrefixIsFull(log: Log, k: nat)
    requires Full(log) && k < |log|
    ensures Full(log[..k + 1])
  {
  }

  lemma Captures(c: Cluster, n: NodeId) returns (c2: Cluster)
    requires Live(c) && n in IDS && c.members[n].capture == None && c.members[n].s.applied > c.members[n].floor
    ensures By(c, CaptureLabel(n), c2)
    ensures Live(c2) && c2.net == c.net && c2.calls == c.calls && c2.h == c.h
    ensures Contiguous(c.members[n].s.log)
    ensures var s := c.members[n].s;
            c2.members == c.members[n := c.members[n].(capture := Some(Label(s.applied, TermAt(s.log, s.applied))))]
  {
    hide Live, WellFormed, Arrives;
    LiveMember(c, n);
    LiveFormed(c);
    c2 := Do(c, CaptureLabel(n));
    hide Do;
    MoveKeepsLive(c, CaptureLabel(n), c2, {});
  }

  lemma Finishes(c: Cluster, n: NodeId) returns (c2: Cluster)
    requires Live(c) && n in IDS && c.members[n].capture.Some?
    requires c.members[n].floor < c.members[n].capture.value.index < |c.members[n].s.log|
    ensures By(c, FinishSnapshot(n), c2)
    ensures Live(c2) && c2.net == c.net && c2.calls == c.calls && c2.h == c.h
    ensures var m := c.members[n];
            c2.members == c.members[n := m.(floor := m.capture.value.index, cache := m.capture, capture := None)]
  {
    hide Live, WellFormed, Arrives, Contiguous;
    LiveMember(c, n);
    LiveFormed(c);
    c2 := Do(c, FinishSnapshot(n));
    hide Do;
    MoveKeepsLive(c, FinishSnapshot(n), c2, {});
  }

  /** A turn of the apply loop begins, on a log without a floor. */
  lemma AppliesBegin(c: Cluster, n: NodeId) returns (c2: Cluster)
    requires Live(c) && n in IDS && c.members[n].pending == None && c.members[n].floor == 0
    requires c.members[n].s.applied + 1 <= c.members[n].s.commit < |c.members[n].s.log|
    ensures By(c, ApplyBegin(n), c2)
    ensures Live(c2) && c2.net == c.net && c2.calls == c.calls && c2.h.votes == c.h.votes
    ensures c2.members == c.members[n := c.members[n].(pending := Some(c.members[n].s.applied + 1))]
  {
    hide Live, WellFormed, Arrives;
    LiveMember(c, n);
    LiveFormed(c);
    var m := c.members[n];
    assert EntryAt(Image(m).log, m.s.applied + 1) == Some(m.s.log[m.s.applied + 1]);
    c2 := Do(c, ApplyBegin(n));
    assert c2 == DoApply(c, n);
    assert c2.members == c.members[n := m.(pending := Some(m.s.applied + 1))];
    hide Do, EntryAt;
    MoveKeepsLive(c, ApplyBegin(n), c2, {});
  }

  /** And ends. */
  lemma AppliesEnd(c: Cluster, n: NodeId) returns (c2: Cluster)
    requires Live(c) && n in IDS && c.members[n].pending.Some?
    ensures By(c, ApplyEnd(n), c2)
    ensures Live(c2) && c2.net == c.net && c2.calls == c.calls && c2.h.votes == c.h.votes
    ensures var m := c.members[n];
            c2.members == c.members[n := m.(s := m.s.(applied := m.pending.value), pending := None)]
  {
    hide Live, WellFormed, Arrives, Contiguous;
    LiveMember(c, n);
    LiveFormed(c);
    c2 := Do(c, ApplyEnd(n));
    hide Do;
    MoveKeepsLive(c, ApplyEnd(n), c2, {});
  }

  lemma Applies(c: Cluster, n: NodeId) returns (c2: Cluster)
    requires Live(c) && n in IDS && c.members[n].pending == None && c.members[n].floor == 0
    requires c.members[n].s.applied + 1 <= c.members[n].s.commit < |c.members[n].s.log|
    ensures Live(c2) && c2.net == c.net && c2.calls == c.calls && c2.h.votes == c.h.votes
    ensures c2.members == c.members[n := c.members[n].(s := c.members[n].s.(applied := c.members[n].s.applied + 1))]
  {
    hide Live, By;
    c2 := AppliesBegin(c, n);
    c2 := AppliesEnd(c2, n);
  }

  lemma SendsSnapshot(c: Cluster, n: NodeId, to: NodeId) returns (c2: Cluster)
    requires Live(c) && n in IDS && to in IDS && n != to && c.members[n].s.role == Leader && (n, to) !in c.calls
    requires Get(c.members[n].s.nextIndex, to) <= c.members[n].floor
    requires c.members[n].cache.Some? && c.members[n].cache.value.index < |c.members[n].s.log|
    ensures By(c, SendSnapshot(n, to), c2)
    ensures Live(c2) && c2.members == c.members && c2.h == c.h && SnapshotFor(c.members[n], n, to) in c2.net
  {
    hide Live, WellFormed, Arrives, Contiguous;
    LiveMember(c, n);
    LiveFormed(c);
    var msg := SnapshotFor(c.members[n], n, to);
    PrefixIsFull(c.members[n].s.log, c.members[n].cache.value.index);
    c2 := Do(c, SendSnapshot(n, to));
    hide Do, Full;
    MoveKeepsLive(c, SendSnapshot(n, to), c2, {msg});
  }

  lemma TakesSnapshot(c: Cluster, n: NodeId, a: SnapshotArgs, prefix: Log) returns (c2: Cluster)
    requires Live(c) && n in IDS && SnapReq(n, a, prefix) in c.net && a.lastIndex + 1 == |prefix|
    ensures By(c, HandleSnapshot(n, a, prefix, true, false), c2)
    ensures Live(c2) && c2.h.votes == c.h.votes
    ensures c.members[n].s.log != []
    ensures c2.members == c.members[n := InstallFull(c.members[n], a, prefix)]
  {
    LiveMember(c, n);
    LiveRequest(c, SnapReq(n, a, prefix));
    var act := HandleSnapshot(n, a, prefix, true, false);
    assert Enabled(c, act);
    hide Live, Full;
    c2 := Do(c, act);
    hide Enabled, Do;
    MoveKeepsLive(c, act, c2, {});
  }

  // --- The runs ---

  /** The election that all the runs begin with: member 0 has the votes of 0 and 1 in term 1, and
      member 2 campaigns in the same term. */
  lemma FirstElection() returns (c: Cluster)
    ensures Live(c) && c.calls == map[]
    ensures {Vote(0, 1, 0), Vote(1, 1, 0), Vote(2, 1, 2)} <= c.h.votes && VoteReq(VoteArgs(1, 2, 0, 0)) in c.net
    ensures forall i :: i in IDS ==>
              && c.members[i].s == NodeState(1, Some(if i == 2 then 2 else 0), [DUMMY],
                                             if i == 1 then Follower else Candidate, 0, 0, map[], map[])
              && c.members[i].campaign == (if i == 1 then None else Some(1)) && c.members[i].floor == 0
              && c.members[i].pending == None && c.members[i].capture == None && c.members[i].cache == None
  {
    hide Live, By, WellFormed, Arrives;
    c := Start();
    c := TimesOut(c, 0);
    c := Stands(c, 0);
    c := Backs(c, 1, VoteArgs(1, 0, 0, 0));
    c := TimesOut(c, 2);
    c := Stands(c, 2);
  }

  /** raft/node.go:315-319 without the guard: member 0 wins term 1 after it has moved to term 2,
      whose leader is member 2. */
  lemma LateWinMakesTwoLeaders() returns (c: Cluster)
    ensures Arrives(Init(IDS), c)
    ensures c.members.Keys == IDS && c.members[0].s.role == Leader == c.members[2].s.role
    ensures c.members[0].s.term == c.members[2].s.term
  {
    hide Live, By, WellFormed, Arrives;
    c := FirstElection();
    c := GivesUp(c, 2);
    c := Stands(c, 2);
    c := Backs(c, 0, VoteArgs(2, 2, 0, 0));
    c := Wins(c, 2, 0);
    c := Wins(c, 0, 1);
    LiveArrives(c);
  }

  /** raft/node.go:601-605 without the guard: member 1, timed out but not yet in a new term, forgets
      its vote on a heartbeat, votes again, and term 1 gets a second leader. */
  lemma ForgottenVoteMakesTwoLeaders() returns (c: Cluster)
    ensures Arrives(Init(IDS), c)
    ensures c.members.Keys == IDS && c.members[0].s.role == Leader == c.members[2].s.role
    ensures c.members[0].s.term == c.members[2].s.term
  {
    hide Live, By, WellFormed, Arrives;
    c := FirstElection();
    c := Wins(c, 0, 1);
    c := SendsAppend(c, 0, 1);
    c := TimesOut(c, 1);
    c := TakesAppend(c, 1, AppendArgs(1, 0, 0, 0, [], 0), false);
    c := Backs(c, 1, VoteArgs(1, 2, 0, 0));
    c := Wins(c, 2, 1);
    LiveArrives(c);
  }

  const X := LogEntry(1, 1, Command.Dispatch("x", 0, "k"))
  const Y := LogEntry(1, 2, Foreign([2]))
  const BOTH := AppendArgs(1, 0, 0, 0, [X, Y], 0)

  lemma MergeBoth()
    ensures Merge([DUMMY], 0, [X, Y], 2) == [DUMMY, X, Y]
    ensures Merge([DUMMY, X, Y], 0, [X, Y], 2) == [DUMMY, X, Y]
  {
    assert Merge([DUMMY], 0, [X, Y], 1) == [DUMMY, X];
    assert Merge([DUMMY, X, Y], 0, [X, Y], 1) == [DUMMY, X, Y];
  }

  const CHIEF := NodeState(1, Some(0), [DUMMY, X, Y], Leader, 0, 0, map[1 := 1, 2 := 1], map[0 := 2, 1 := 0, 2 := 0])

  lemma ChiefProposes()
    ensures var s := BecomeLeader(NodeState(1, Some(0), [DUMMY], Candidate, 0, 0, map[], map[]), 0, IDS - {0});
            var s1 := Handlers.Propose(s, 0, X.command);
            s1.log != [] && Handlers.Propose(s1, 0, Y.command) == CHIEF
  {
    assert IDS - {0} == {1, 2};
    var s := BecomeLeader(NodeState(1, Some(0), [DUMMY], Candidate, 0, 0, map[], map[]), 0, IDS - {0});
    assert s.matchIndex == map[0 := 0, 1 := 0, 2 := 0];
  }

  function Plain(s: NodeState): Member {
    Member(s, 0, None, None, None, None)
  }

  /** Member 0 leads term 1 with two entries. */
  lemma Proposed() returns (c: Cluster)
    ensures Live(c) && c.calls == map[]
    ensures c.members[0] == Plain(CHIEF)
    ensures c.members[1] == Plain(NodeState(1, Some(0), [DUMMY], Follower, 0, 0, map[], map[]))
    ensures c.members[2] == Plain(RIVAL).(campaign := Some(1))
  {
    hide Live, By, WellFormed, Arrives;
    c := FirstElection();
    c := Wins(c, 0, 1);
    ChiefProposes();
    hide BecomeLeader;
    c := Proposes(c, 0, X.command);
    c := Proposes(c, 0, Y.command);
  }

  const FOLLOWING := NodeState(1, Some(0), [DUMMY, X, Y], Follower, 0, 0, map[], map[])

  /** Member 1 has taken the two entries, but its answer was lost. */
  lemma AnswerLost() returns (c: Cluster)
    ensures Live(c) && c.calls == map[] && c.members[0] == Plain(CHIEF) && c.members[1] == Plain(FOLLOWING)
    ensures c.members[2] == Plain(RIVAL).(campaign := Some(1))
  {
    hide Live, By, WellFormed, Arrives;
    c := Proposed();
    c := SendsAppend(c, 0, 1);
    assert AppendFor(CHIEF, 0, 1) == BOTH;
    MergeBoth();
    hide Merge;
    c := TakesAppend(c, 1, BOTH, false);
    c := GivesUpCall(c, 0, 1);
    assert c.calls == map[];
  }

  const AHEAD := CHIEF.(commit := 2, matchIndex := map[0 := 2, 1 := 0, 2 := 2], nextIndex := map[1 := 1, 2 := 3])

  lemma ChiefCommits()
    ensures HandleAppendReply(CHIEF, 2, BOTH, AppendReply(1, true)).(commit := 2) == AHEAD
    ensures var s := HandleAppendReply(CHIEF, 2, BOTH, AppendReply(1, true));
            s.role == Leader && Contiguous(s.log) && Last(s.log) == 2 && s.commit == 0 && Committable(s, IDS - {0}, 2)
  {
    var s := HandleAppendReply(CHIEF, 2, BOTH, AppendReply(1, true));
    assert (set p | p in IDS - {0} && Get(s.matchIndex, p) >= 2) == {2};
    assert IDS - {0} == {1, 2};
  }

  /** Member 2 has taken the two entries and its answer has arrived. */
  lemma Answered() returns (c: Cluster)
    ensures Live(c) && c.calls == map[(0, 2) := Call(AppendReq(2, BOTH), Some(Appended(AppendReply(1, true))))]
    ensures c.members[0] == Plain(CHIEF) && c.members[1] == Plain(FOLLOWING)
  {
    hide Live, By, WellFormed, Arrives;
    c := AnswerLost();
    c := SendsAppend(c, 0, 2);
    assert AppendFor(CHIEF, 0, 1) == BOTH && Get(CHIEF.nextIndex, 2) == 1;
    assert c.calls == map[(0, 2) := Call(AppendReq(2, BOTH), None)];
    LiveMember(c, 0);
    RivalAccepts();
    hide HandleAppendEntries, AppendFor;
    c := TakesAppend(c, 2, BOTH, true);
  }

  const RIVAL := NodeState(1, Some(2), [DUMMY], Candidate, 0, 0, map[], map[])

  lemma RivalAccepts()
    ensures HandleAppendEntries(RIVAL, BOTH).1 == AppendReply(1, true)
  {
  }

  /** Both entries are committed on the word of member 2. */
  lemma CommittedOnWord() returns (c: Cluster)
    ensures Live(c) && c.calls == map[] && c.members[0] == Plain(AHEAD) && c.members[1] == Plain(FOLLOWING)
  {
    hide Live, By, WellFormed, Arrives;
    c := Answered();
    ChiefCommits();
    hide HandleAppendReply, Committable, Contiguous;
    c := Hears(c, 0, 2, BOTH, AppendReply(1, true));
    c := Commits(c, 0, 2);
    assert c.calls == map[];
  }

  const NEWS := BOTH.(leaderCommit := 2)

  /** The leader is taking a snapshot of entry 1; member 1 has learned of both commits. */
  lemma LearnsBoth() returns (c: Cluster)
    ensures Live(c) && c.calls == map[]
    ensures c.members[0] == Plain(AHEAD.(applied := 1)).(capture := Some(Label(1, 1)))
    ensures c.members[1] == Plain(FOLLOWING.(commit := 2))
  {
    hide Live, By, WellFormed, Arrives;
    c := CommittedOnWord();
    c := Applies(c, 0);
    c := Captures(c, 0);
    c := SendsAppend(c, 0, 1);
    assert AppendFor(AHEAD.(applied := 1), 0, 1) == NEWS;
    MergeBoth();
    hide Merge;
    c := TakesAppend(c, 1, NEWS, false);
    c := GivesUpCall(c, 0, 1);
    assert c.calls == map[];
  }

  /** raft/node.go:688 compares with the first index only: the answers of member 1 having been lost,
      the leader takes it to be below its new floor and ships it a snapshot of entry 1, which moves its
      commit index and lastApplied back from 2 to 1. */
  lemma SnapshotMovesBack() returns (c: Cluster, a: Action, c2: Cluster)
    ensures Arrives(Init(IDS), c) && c.members.Keys == IDS && a.HandleSnapshot? && CanStep(c, a) && c2 == Do(c, a)
    ensures c.members[1].s.commit == 2 == c.members[1].s.applied && c.members[1].s.log == [DUMMY, X, Y]
    ensures c2.members.Keys == IDS
    ensures c2.members[1].s.commit == 1 == c2.members[1].s.applied && c2.members[1].s.log == [DUMMY, X]
  {
    hide Live, By, WellFormed, Arrives;
    c := LearnsBoth();
    c := Applies(c, 1);
    c := Applies(c, 1);
    c := Finishes(c, 0);
    c := SendsSnapshot(c, 0, 1);
    assert [DUMMY, X, Y][..2] == [DUMMY, X];
    var snap := SnapshotArgs(1, 0, 1, 1);
    a := HandleSnapshot(1, snap, [DUMMY, X], true, false);
    c2 := TakesSnapshot(c, 1, snap, [DUMMY, X]);
    LiveArrives(c);
    LiveArrives(c2);
    ByStep(c, a, c2);
  }

  /** And while member 1 applies entry 2: it then records that entry as applied, beyond its commit
      index. */
  lemma SnapshotLeavesBehind() returns (c: Cluster)
    ensures Arrives(Init(IDS), c) && c.members.Keys == IDS
    ensures c.members[1].s.commit == 1 < c.members[1].s.applied == 2
  {
    hide Live, By, WellFormed, Arrives;
    c := LearnsBoth();
    c := Applies(c, 1);
    c := AppliesBegin(c, 1);
    c := Finishes(c, 0);
    c := SendsSnapshot(c, 0, 1);
    assert [DUMMY, X, Y][..2] == [DUMMY, X];
    c := TakesSnapshot(c, 1, SnapshotArgs(1, 0, 1, 1), [DUMMY, X]);
    c := AppliesEnd(c, 1);
    LiveArrives(c);
  }

  lemma ByStep(c: Cluster, a: Action, c2: Cluster)
    requires By(c, a, c2)
    ensures CanStep(c, a) && c2 == Do(c, a)
  {
  }
}
