/** The three guards are exact: from every reachable state, the step keeps what it is meant to
    keep if and only if the guard holds. */
module Guards {
  import opened RaftTypes
  import opened LogStore
  import opened Handlers
  import opened Cluster
  import opened Invariant
  import opened Evolution
  import opened Agreement
  import opened Preservation
  import opened AllSteps
  import opened Shipping
  import opened Shipped
  import opened Footprint
  import opened Safety

  ghost predicate ElectedInTerm(c: Cluster, n: NodeId)
    requires n in c.members
  {
    exists q :: Majority(c, q) && forall x :: x in q ==> Vote(x, c.members[n].s.term, n) in c.h.votes
  }

  /** Nobody has voted for a member in a term after its latest campaign. */
  lemma NoVotesBeyond(c: Cluster, n: NodeId)
    requires n in c.members && c.members[n].campaign.Some? && !WinInTerm(c.members[n])
    requires Inv(c)
    ensures forall x :: Vote(x, c.members[n].s.term, n) !in c.h.votes
  {
    hide Inv, Held, LogOk, CommittedIn, LeaderOk;
    MemberIsOk(c, n);
    InvVotes(c);
    var m := c.members[n];
    assert CampaignOk(c, n, m.campaign.value);
    forall x
      ensures Vote(x, m.s.term, n) !in c.h.votes
    {
      assert Vote(x, m.s.term, n) in c.h.votes ==> VoteOk(c, Vote(x, m.s.term, n));
    }
  }

  lemma InvVotes(c: Cluster)
    requires Inv(c)
    ensures forall v :: v in c.h.votes ==> VoteOk(c, v)
    ensures forall x: NodeId, t: nat :: (x, t) in c.h.campaigns ==> CampaignOk(c, x, t)
  {
    hide LeaderLogsOk, ElectionsOk, NetOk, CommitsOk, AppliedOk, AckedKept, VotedKept, LeadersKept, MembersOk, AcksOk,
      VoteOk, CampaignOk;
  }

  /** raft/node.go:315-319: the win leaves a leader that its term elected exactly when the term is
      still that of the campaign. */
  lemma WinGuardExact(ids: set<NodeId>, c: Cluster, n: NodeId, q: set<NodeId>)
    requires Reachable(ids, c) && CanStep(c, Win(n, q))
    ensures ElectedInTerm(Do(c, Win(n, q)), n) <==> WinInTerm(c.members[n])
  {
    hide Inv, Ship;
    ReachableOk(ids, c);
    var c2 := Do(c, Win(n, q));
    assert c2.h.votes == c.h.votes && c2.members[n].s.term == c.members[n].s.term;
    assert c2.members.Keys == c.members.Keys;
    assert |c.members| == |c.members.Keys| && |c2.members| == |c2.members.Keys|;
    if WinInTerm(c.members[n]) {
      assert Majority(c2, q);
    } else {
      NoVotesBeyond(c, n);
      if r :| Majority(c2, r) && forall x :: x in r ==> Vote(x, c2.members[n].s.term, n) in c2.h.votes {
        var x := MajoritiesMeet(c2, r, r);
      }
    }
  }

  /** Every vote for somebody else is remembered for as long as the voter stays in the term. */
  ghost predicate VotesRemembered(c: Cluster) {
    forall v :: v in c.h.votes && v.voter != v.candidate ==> Held(c, v)
  }

  lemma VotesAreRemembered(c: Cluster)
    requires Inv(c)
    ensures VotesRemembered(c)
  {
    forall v | v in c.h.votes && v.voter != v.candidate
      ensures Held(c, v)
    {
      assert VoteOk(c, v);
    }
  }

  /** The step makes member n recognise term t and casts no vote. */
  ghost predicate Recognised(c: Cluster, n: NodeId, t: nat, c2: Cluster) {
    && n in c.members && c2.members.Keys == c.members.Keys && c2.h.votes == c.h.votes
    && (forall x :: x in c.members && x != n ==> c2.members[x] == c.members[x])
    && var s, s2 := Recognise(c.members[n].s, t), c2.members[n].s;
       s2.term == s.term && s2.votedFor == s.votedFor
  }

  lemma RecogniseRemembers(c: Cluster, n: NodeId, t: nat, c2: Cluster)
    requires n in c.members && t >= c.members[n].s.term && VotesRemembered(c)
    requires c.members[n].s.votedFor.Some? ==> Vote(n, c.members[n].s.term, c.members[n].s.votedFor.value) in c.h.votes
    requires Recognised(c, n, t, c2)
    ensures VotesRemembered(c2) <==> !ForgetsVote(c.members[n].s, n, t)
  {
  }

  lemma AppendRecognises(c: Cluster, n: NodeId, args: AppendArgs, heard: bool)
    requires CanStep(c, HandleAppend(n, args, heard)) && args.term >= c.members[n].s.term
    ensures Recognised(c, n, args.term, Do(c, HandleAppend(n, args, heard)))
  {
    hide Merge, Consistent;
    assert Do(c, HandleAppend(n, args, heard)) == DoAppend(c, n, args, heard);
  }

  lemma SnapshotRecognises(c: Cluster, n: NodeId, snap: SnapshotArgs, prefix: Log, restored: bool, heard: bool)
    requires CanStep(c, HandleSnapshot(n, snap, prefix, restored, heard)) && snap.term >= c.members[n].s.term
    ensures Recognised(c, n, snap.term, Do(c, HandleSnapshot(n, snap, prefix, restored, heard)))
  {
    assert Do(c, HandleSnapshot(n, snap, prefix, restored, heard)) == DoSnapshot(c, n, snap, prefix, restored, heard);
  }

  /** raft/node.go:601-605: an append from a leader of the member's term or later leaves every vote
      for another member remembered exactly when it does not clear one in the window between the
      election timeout and the new term. */
  lemma AppendGuardExact(ids: set<NodeId>, c: Cluster, n: NodeId, args: AppendArgs, heard: bool)
    requires Reachable(ids, c) && CanStep(c, HandleAppend(n, args, heard)) && args.term >= c.members[n].s.term
    ensures VotesRemembered(Do(c, HandleAppend(n, args, heard))) <==> !ForgetsVote(c.members[n].s, n, args.term)
  {
    hide Inv, Ship, CommittedIn, LogOk, RunningOk, LeaderOk, Reachable, Do, WellFormed, Recognised, VotesRemembered,
      ForgetsVote;
    ReachableOk(ids, c);
    MemberIsOk(c, n);
    VotesAreRemembered(c);
    AppendRecognises(c, n, args, heard);
    RecogniseRemembers(c, n, args.term, Do(c, HandleAppend(n, args, heard)));
  }

  /** raft/node.go:674-678, the same for snapshots. */
  lemma SnapshotVoteGuardExact(ids: set<NodeId>, c: Cluster, n: NodeId, snap: SnapshotArgs, prefix: Log,
      restored: bool, heard: bool)
    requires Reachable(ids, c) && CanStep(c, HandleSnapshot(n, snap, prefix, restored, heard)) &&
             snap.term >= c.members[n].s.term
    ensures VotesRemembered(Do(c, HandleSnapshot(n, snap, prefix, restored, heard))) <==>
            !ForgetsVote(c.members[n].s, n, snap.term)
  {
    hide Inv, Ship, CommittedIn, LogOk, RunningOk, LeaderOk, Reachable, Do, WellFormed, Recognised, VotesRemembered,
      ForgetsVote;
    ReachableOk(ids, c);
    MemberIsOk(c, n);
    VotesAreRemembered(c);
    SnapshotRecognises(c, n, snap, prefix, restored, heard);
    RecogniseRemembers(c, n, snap.term, Do(c, HandleSnapshot(n, snap, prefix, restored, heard)));
  }

  /** raft/node.go:687-699: from a reachable state a snapshot moves the commit index back exactly if it
      is one below it that the first index lets through; and it leaves the entry being applied or the
      label of a TakeSnapshot in progress beyond the new commit index exactly if it is below that. */
  lemma InstallGuardExact(ids: set<NodeId>, c: Cluster, n: NodeId, snap: SnapshotArgs, prefix: Log, restored: bool,
      heard: bool)
    requires Reachable(ids, c) && CanStep(c, HandleSnapshot(n, snap, prefix, restored, heard))
    ensures var c2, m := Do(c, HandleSnapshot(n, snap, prefix, restored, heard)), c.members[n];
            && n in c2.members
            && (m.s.commit <= c2.members[n].s.commit <==> !MovesBack(m, snap))
            && ((&& (m.pending.Some? ==> m.pending.value <= c2.members[n].s.commit)
                 && (m.capture.Some? ==> m.capture.value.index <= c2.members[n].s.commit)) <==> !LeavesBehind(m, snap))
  {
    hide Reachable, Inv, Ship, RunningOk, LeaderOk, CommittedIn, LogOk;
    ReachableOk(ids, c);
    MemberIsOk(c, n);
    LabelsAreCommitted(ids, c, n);
    assert Do(c, HandleSnapshot(n, snap, prefix, restored, heard)) == DoSnapshot(c, n, snap, prefix, restored, heard);
    hide Do, WellFormed, Enabled, Recognise;
  }

  /** What a snapshot takes from a peer's log nobody counts on: everything of which the leader of its
      term has heard an acknowledgement is within it, and so is every entry of an earlier term that
      the peer has acknowledged and that can still commit. */
  lemma InstallKeepsHeard(ids: set<NodeId>, c: Cluster, n: NodeId, snap: SnapshotArgs, prefix: Log)
    requires Reachable(ids, c) && SnapReq(n, snap, prefix) in c.net && n in c.members &&
             InstallsSnapshot(c.members[n], snap)
    ensures forall j: nat :: HasAcked(c.h, n, snap.term, j) ==> j <= snap.lastIndex
    ensures forall t: nat, j: nat :: t < snap.term && OwnEntry(c.h, t, j) && HasAcked(c.h, n, t, j) ==>
              j <= snap.lastIndex || Blocked(c, t, j)
  {
    hide Inv, Ship, Reachable, CommittedIn, LeadersKept, Reaches, Settled, OwnEntry, Blocked;
    ReachableOk(ids, c);
    SnapIsSafe(c, n, snap, prefix);
    MessageIsOk(c, SnapReq(n, snap, prefix));
    InvLeaders(c);
    ReachesOwed(c, n, snap.term, snap.lastIndex);
  }

  // --- Atomic timeouts ---

  /** A candidate has voted for itself: no node is caught between its election timeout and the
      new term. */
  ghost predicate NoWindow(c: Cluster) {
    forall n :: n in c.members && c.members[n].s.role == Candidate ==> c.members[n].s.votedFor == Some(n)
  }

  /** Each election timeout is directly followed by the start of the election. */
  predicate AtomicTimeouts(run: seq<Action>) {
    forall i :: 0 <= i < |run| && run[i].ElectionTimeout? ==>
      i + 1 < |run| && run[i + 1] == StartElection(run[i].n)
  }

  /** A run in which every guard but the one on forgotten votes is known to hold. */
  predicate GuardedButVotes(c: Cluster, run: seq<Action>)
    decreases |run|
  {
    run == [] ||
    (&& CanStep(c, run[0])
     && (run[0].Win? ==> WinInTerm(c.members[run[0].n]))
     && (run[0].HandleSnapshot? ==> !LeavesBehind(c.members[run[0].n], run[0].snap))
     && GuardedButVotes(Do(c, run[0]), run[1..]))
  }

  lemma NothingForgotten(c: Cluster, a: Action)
    requires CanStep(c, a) && NoWindow(c)
    requires Inv(c)
    ensures a.HandleAppend? ==> !ForgetsVote(c.members[a.n].s, a.n, a.args.term)
    ensures a.HandleSnapshot? ==> !ForgetsVote(c.members[a.n].s, a.n, a.snap.term)
  {
    hide Inv, CommittedIn, LogOk, RunningOk;
    MemberIsOk(c, a.n);
    if a.HandleAppend? {
      MessageIsOk(c, AppendReq(a.n, a.args));
    } else if a.HandleSnapshot? {
      MessageIsOk(c, SnapReq(a.n, a.snap, a.prefix));
    }
  }

  /** The member that takes the step, if a candidate, has voted for itself. */
  ghost predicate Shut(c: Cluster, n: NodeId) {
    n in c.members && (c.members[n].s.role == Candidate ==> c.members[n].s.votedFor == Some(n))
  }

  lemma ReceiptKeepsShut(c: Cluster, a: Action)
    requires CanStep(c, a) && (a.HandleVote? || a.HandleAppend? || a.HandleSnapshot?) && Shut(c, a.n)
    ensures Shut(Do(c, a), a.n)
  {
    hide Do, Enabled, WellFormed, Merge, Contiguous, Follows, Consistent, UpToDate;
    match a
    case HandleVote(_, _) => VoteStep(c, a);
    case HandleAppend(_, _, _) => AppendStep(c, a);
    case _ => SnapshotStep(c, a);
  }

  lemma OwnWindow(c: Cluster, a: Action)
    requires CanStep(c, a) && !a.ElectionTimeout? && Shut(c, a.n)
    ensures Shut(Do(c, a), a.n)
  {
    if a.HandleVote? || a.HandleAppend? || a.HandleSnapshot? {
      ReceiptKeepsShut(c, a);
    } else {
      hide CommitScan, Compacted, EntryAt, Contiguous, Majority, Uniform;
    }
  }

  lemma WindowStaysShut(c: Cluster, a: Action)
    requires CanStep(c, a) && NoWindow(c) && !a.ElectionTimeout?
    ensures NoWindow(Do(c, a))
  {
    hide Do, WellFormed;
    OnlyOneMoves(c, a);
    OwnWindow(c, a);
  }

  lemma {:induction false} AtomicRunsRemember(c: Cluster, run: seq<Action>)
    requires AtomicTimeouts(run) && GuardedButVotes(c, run) && NoWindow(c) && Ship(c)
    requires Inv(c)
    ensures GuardedRun(c, run)
    decreases |run|
  {
    hide Inv, Evolves, WellFormed, Enabled, Do, NoWindow, Ship;
    if run != [] {
      var c1 := Do(c, run[0]);
      NothingForgotten(c, run[0]);
      StepShips(c, run[0]);
      if run[0].ElectionTimeout? {
        var rest := run[2..];
        var c2 := Do(c1, run[1]);
        assert run[1..][1..] == rest && run[1..][0] == run[1];
        TimeoutThenStart(c, run[0].n);
        StepShips(c1, run[1]);
        AtomicRunsRemember(c2, rest);
        assert GuardedRun(c1, run[1..]);
      } else {
        WindowStaysShut(c, run[0]);
        AtomicRunsRemember(c1, run[1..]);
      }
    }
  }

  lemma TimeoutThenStart(c: Cluster, n: NodeId)
    requires CanStep(c, ElectionTimeout(n)) && CanStep(Do(c, ElectionTimeout(n)), StartElection(n)) && NoWindow(c)
    ensures NoWindow(Do(Do(c, ElectionTimeout(n)), StartElection(n)))
  {
  }

  /** If each timeout and the term bump that follows it are one step, no run forgets a vote: the
      guard on forgotten votes comes for free. */
  lemma AtomicRunsAreGuarded(ids: set<NodeId>, run: seq<Action>)
    requires ids != {} && AtomicTimeouts(run) && GuardedButVotes(Init(ids), run)
    ensures GuardedRun(Init(ids), run)
  {
    hide Inv, Ship;
    InitOk(ids);
    InitShips(ids);
    AtomicRunsRemember(Init(ids), run);
  }
}
