/** Every guarded step keeps what holds of calls and snapshots. */
module Shipped {
  import opened RaftTypes
  import opened LogStore
  import opened Handlers
  import opened Cluster
  import opened Invariant
  import opened Evolution
  import opened Preservation
  import opened Prefixes
  import opened Shipping
  import opened AllSteps
  import opened Footprint
  import opened ApplyLoop
  import opened Calling
  import opened Knowing

  // --- All of it ---

  lemma OtherCall(c: Cluster, a: Action, c2: Cluster, n: NodeId, p: NodeId)
    requires n != a.n && CallsOnly(c, a, c2) && ((n, p) in c.calls ==> (n, p) in c2.calls)
    ensures SameCall(c, a, c2, n, p)
  {
  }

  lemma OtherLeader(c: Cluster, a: Action, c2: Cluster, n: NodeId, p: NodeId)
    requires n != a.n && n in c2.members && c2.members[n].s.role == Leader && p in c2.members && p != n
    requires Stepped(c, a, c2)
    ensures PeerOk(c2, n, p)
  {
    hide CanStep, Guarded, Do, Inv, Ship, Evolves, OwnGrowth, AcksOnly, SendsOnly, CallsOnly, Prints, Stepped, PeerOk,
      SameCall, ShipsFloor;
    SteppedPrints(c, a, c2);
    PrintedMoves(c, a, c2);
    LeaderPeer(c, n, p);
    OtherCall(c, a, c2, n, p);
    PeerKnows(c, n, p);
    PeerFrame(c, a, c2, n, p);
  }

  lemma OwnCall(c: Cluster, a: Action, c2: Cluster, p: NodeId)
    requires CanStep(c, a) && c2 == Do(c, a) && a.n != p
    requires (a.SendAppend? || a.SendSnapshot? || a.GiveUp?) ==> a.to != p
    requires (a.HandleAppendAns? || a.HandleSnapAns?) ==> a.from != p
    ensures SameCall(c, a, c2, a.n, p)
  {
    hide CanStep, Do;
    OwnCalls(c, a, p);
  }

  lemma OwnLeader(c: Cluster, a: Action, c2: Cluster, p: NodeId)
    requires a.n in c2.members && c2.members[a.n].s.role == Leader && p in c2.members && p != a.n
    requires Stepped(c, a, c2)
    ensures PeerOk(c2, a.n, p)
  {
    hide CanStep, Guarded, Do, Inv, Ship, Evolves, OwnGrowth, AcksOnly, SendsOnly, CallsOnly, Prints, Stepped, PeerOk,
      SameCall, ShipsFloor, SameFor;
    SteppedPrints(c, a, c2);
    PrintedMoves(c, a, c2);
    if a.Win? {
      PeerWon(c, a, c2, p);
    } else if (a.SendAppend? || a.SendSnapshot?) && a.to == p {
      PeerAsked(c, a, c2);
    } else if (a.HandleAppendAns? || a.HandleSnapAns?) && a.from == p {
      PeerHeard(c, a, c2);
    } else {
      if c.members[a.n].s.role == Leader {
        LeaderPeer(c, a.n, p);
        PeerKnows(c, a.n, p);
      }
      OwnView(c, a, p);
      WasLeader(c, a, c2, p);
      if a.GiveUp? && a.to == p {
        PeerGivenUp(c, a, c2);
      } else {
        OwnCall(c, a, c2, p);
        PeerFrame(c, a, c2, a.n, p);
      }
    }
  }

  lemma WasLeader(c: Cluster, a: Action, c2: Cluster, p: NodeId)
    requires a.n in c.members && a.n in c2.members && SameFor(c.members[a.n], c2.members[a.n], p)
    ensures c.members[a.n].s.role == Leader
  {
  }

  lemma StepPeersOk(c: Cluster, a: Action, c2: Cluster)
    requires Stepped(c, a, c2)
    ensures PeersOk(c2)
  {
    hide Stepped, PeerOk;
    forall n, p | n in c2.members && c2.members[n].s.role == Leader && p in Peers(c2, n)
      ensures PeerOk(c2, n, p)
    {
      if n == a.n {
        OwnLeader(c, a, c2, p);
      } else {
        OtherLeader(c, a, c2, n, p);
      }
    }
  }

  // --- Labels stay in order ---

  lemma LabelStays(s: NodeState, s2: NodeState, l: Option<Label>)
    requires LabelOk(s, l) && Agree(s.log, s2.log, Min(s.commit, s2.commit)) && s2.commit < |s2.log|
    requires l.Some? ==> l.value.index <= s2.commit
    ensures LabelOk(s2, l)
  {
    if l.Some? {
      AgreeWeaken(s.log, s2.log, Min(s.commit, s2.commit), l.value.index);
    }
  }

  lemma LabelsUntouched(c: Cluster, a: Action)
    requires CanStep(c, a) && !a.CaptureLabel? && !a.FinishSnapshot? && !a.DropSnapshot? && !a.HandleSnapshot?
    ensures a.n in c.members && a.n in Do(c, a).members
    ensures var m, m2 := c.members[a.n], Do(c, a).members[a.n];
            m2.capture == m.capture && m2.cache == m.cache && m2.floor == m.floor
  {
    hide CommitScan, EntryAt, Contiguous, Follows, Compacted, AppendFor, SnapshotFor, Majority, HandleAppendEntries,
      HandleRequestVote, HandleAppendReply, HandleSnapshotReply, BecomeLeader;
  }

  lemma LabelsTouched(c: Cluster, a: Action)
    requires CanStep(c, a) && (a.CaptureLabel? || a.FinishSnapshot? || a.DropSnapshot? || a.HandleSnapshot?)
    ensures a.n in c.members && a.n in Do(c, a).members
    ensures var m, m2 := c.members[a.n], Do(c, a).members[a.n];
            && (m2.capture == m.capture || m2.capture == None
                || (m2.s == m.s && m.floor < m.s.applied
                    && m2.capture == Some(Label(m.s.applied, TermAt(m.s.log, m.s.applied)))))
            && (m2.cache == m.cache || m2.cache == m.capture
                || (a.HandleSnapshot? && m2.cache == Some(Label(a.snap.lastIndex, a.snap.lastTerm))
                    && m2.s.commit == a.snap.lastIndex && m2.s.log == a.prefix))
            && (m2.floor > 0 ==> m2.cache.Some? || (m2.cache == m.cache && m2.floor == m.floor))
  {
    hide Contiguous, Follows, TermAt, Recognise;
  }

  lemma CaptureOk(s: NodeState)
    requires Full(s.log) && 0 < s.applied <= s.commit < |s.log|
    ensures LabelOk(s, Some(Label(s.applied, TermAt(s.log, s.applied))))
  {
  }

  lemma CommitBelow(c: Cluster, n: NodeId)
    requires n in c.members
    requires Inv(c)
    ensures Full(c.members[n].s.log) && c.members[n].s.applied <= c.members[n].s.commit < |c.members[n].s.log|
  {
    hide Inv, RunningOk, LeaderOk;
    MemberIsOk(c, n);
    EvolvesRefl(c);
    CommittedLater(c, c, n);
  }

  lemma NothingLeftBehind(c: Cluster, a: Action)
    requires CanStep(c, a) && Guarded(c, a) && Installing(c.members[a.n], a)
    ensures a.HandleSnapshot?
    ensures var m, k := c.members[a.n], a.snap.lastIndex;
            (m.pending.Some? ==> m.pending.value <= k) && (m.capture.Some? ==> m.capture.value.index <= k)
    ensures a.n in Do(c, a).members
    ensures var m2 := Do(c, a).members[a.n];
            && m2.cache == Some(Label(a.snap.lastIndex, a.snap.lastTerm)) && m2.s.log == a.prefix
            && m2.s.commit == a.snap.lastIndex
  {
    hide Contiguous, Follows, Recognise;
  }

  lemma StepLabelsOk(c: Cluster, a: Action, c2: Cluster)
    requires Stepped(c, a, c2)
    ensures LabelsOk(c2)
  {
    hide CanStep, Guarded, Do, Inv, Ship, Evolves, OwnGrowth, AcksOnly, SendsOnly, CallsOnly, Prints, Stepped, Agree,
      Contiguous;
    SteppedPrints(c, a, c2);
    PrintedMoves(c, a, c2);
    var n := a.n;
    LabelIsOk(c, n);
    CommitBelow(c, n);
    CommitBelow(c2, n);
    if a.CaptureLabel? || a.FinishSnapshot? || a.DropSnapshot? || a.HandleSnapshot? {
      LabelsTouched(c, a);
    } else {
      LabelsUntouched(c, a);
    }
    if c.members[n].s.applied > 0 {
      CaptureOk(c.members[n].s);
    }
    PrefixesAgree(c, c2, n, n);
    CommitMoves(c, a);
    var s, s2 := c.members[n].s, c2.members[n].s;
    if Installing(c.members[n], a) {
      NothingLeftBehind(c, a);
      LabelStays(s, s2, c.members[n].capture);
    } else {
      LabelStays(s, s2, c.members[n].capture);
      LabelStays(s, s2, c.members[n].cache);
    }
    if a.HandleSnapshot? {
      SnapshotLabel(c, a);
    }
    forall x | x in c2.members
      ensures var m := c2.members[x];
              LabelOk(m.s, m.capture) && LabelOk(m.s, m.cache) && (m.floor > 0 ==> m.cache.Some?)
    {
      if x != n {
        LabelIsOk(c, x);
      }
    }
  }

  lemma SnapshotLabel(c: Cluster, a: Action)
    requires CanStep(c, a) && a.HandleSnapshot?
    requires Inv(c)
    ensures 0 < a.snap.lastIndex < |a.prefix| && a.prefix[a.snap.lastIndex].term == a.snap.lastTerm
  {
    hide Inv, CommittedIn, WellFormed;
    MessageIsOk(c, SnapReq(a.n, a.snap, a.prefix));
  }

  /** Every guarded step keeps what holds of calls and snapshots. */
  lemma StepShips(c: Cluster, a: Action)
    requires CanStep(c, a) && Guarded(c, a) && Ship(c)
    requires Inv(c)
    ensures Inv(Do(c, a)) && Evolves(c, Do(c, a)) && Ship(Do(c, a))
  {
    hide WellFormed, Enabled, Guarded, Do, Inv, Evolves, OwnGrowth, Prints, SnapsSafe, CallsOk, PeersOk, LabelsOk;
    var c2 := Do(c, a);
    StepKept2(c, a);
    StepPrints(c, a);
    StepGrowth(c, a);
    assert Stepped(c, a, c2);
    hide Stepped;
    StepSnapsSafe(c, a, c2);
    StepCallsOk(c, a, c2);
    StepPeersOk(c, a, c2);
    StepLabelsOk(c, a, c2);
  }

  lemma StepKept2(c: Cluster, a: Action)
    requires CanStep(c, a) && Guarded(c, a) && Ship(c)
    requires Inv(c)
    ensures Inv(Do(c, a)) && Evolves(c, Do(c, a))
  {
    hide Inv, Evolves, Do, Ship, Guarded, WellFormed, Enabled;
    StepKeeps(c, a);
  }
}
