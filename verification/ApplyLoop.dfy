/** What a step does to the apply loop and the snapshots of the node that takes it
    (raft/node.go:687-699 and 833-864, raft/snapshot.go:111-146). */
module ApplyLoop {
  import opened RaftTypes
  import opened LogStore
  import opened Handlers
  import opened Cluster
  import opened Compaction
  import opened Footprint

  /** The steps that only the rest of the node is about. */
  predicate Elsewhere(a: Action) {
    !a.CaptureLabel? && !a.FinishSnapshot? && !a.DropSnapshot? && !a.HandleSnapshot? && !a.ApplyBegin? && !a.ApplyEnd?
  }

  /** The step leaves the apply loop and the snapshots of a member alone, but for the commit index. */
  ghost predicate Leaves(c: Cluster, n: NodeId, c2: Cluster) {
    && n in c.members && n in c2.members
    && var m, m' := c.members[n], c2.members[n];
       && m'.floor == m.floor && m'.capture == m.capture && m'.cache == m.cache && m'.pending == m.pending
       && m'.s.applied == m.s.applied && m.s.commit <= m'.s.commit
       && c2.h.applied == c.h.applied
  }

  lemma AppendLeaves(c: Cluster, a: Action)
    requires CanStep(c, a) && a.HandleAppend?
    ensures Leaves(c, a.n, Do(c, a))
  {
    hide Do, Enabled, WellFormed, Consistent, Merge;
    AppendStep(c, a);
  }

  lemma VoteLeaves(c: Cluster, a: Action)
    requires CanStep(c, a) && a.HandleVote?
    ensures Leaves(c, a.n, Do(c, a))
  {
    hide Do, Enabled, WellFormed, UpToDate;
    VoteStep(c, a);
  }

  lemma AnswerLeaves(c: Cluster, a: Action)
    requires CanStep(c, a) && (a.HandleAppendAns? || a.HandleSnapAns?)
    ensures Leaves(c, a.n, Do(c, a))
  {
    hide Do, Enabled, WellFormed, Compacted, Raise;
    if a.HandleAppendAns? {
      AppendAnsStep(c, a);
    } else {
      SnapAnsStep(c, a);
    }
  }

  lemma OwnLeaves(c: Cluster, a: Action)
    requires CanStep(c, a) && Elsewhere(a) && !a.HandleAppend? && !a.HandleVote? && !a.HandleAppendAns? &&
             !a.HandleSnapAns?
    ensures Leaves(c, a.n, Do(c, a))
  {
    hide Uniform, Image, Contiguous, Follows, AppendFor, Committable;
  }

  lemma ElsewhereLeaves(c: Cluster, a: Action)
    requires CanStep(c, a) && Elsewhere(a)
    ensures Leaves(c, a.n, Do(c, a))
  {
    hide Do, Leaves, Enabled, WellFormed;
    if a.HandleAppend? {
      AppendLeaves(c, a);
    } else if a.HandleVote? {
      VoteLeaves(c, a);
    } else if a.HandleAppendAns? || a.HandleSnapAns? {
      AnswerLeaves(c, a);
    } else {
      OwnLeaves(c, a);
    }
  }

  /** The step moves one member and nothing else. */
  ghost predicate MovesTo(c: Cluster, n: NodeId, m2: Member, c2: Cluster) {
    n in c2.members && c2.members[n] == m2 && c2.net == c.net && c2.h.applied == c.h.applied
  }

  lemma LabelEffect(c: Cluster, a: Action)
    requires CanStep(c, a)
    ensures a.CaptureLabel? ==>
              var m := c.members[a.n];
              m.capture == None && m.s.applied > m.floor
              && MovesTo(c, a.n, m.(capture := Some(Label(m.s.applied, TermAt(m.s.log, m.s.applied)))), Do(c, a))
    ensures a.FinishSnapshot? ==>
              var m := c.members[a.n];
              m.capture.Some?
              && var floor := Max(m.floor, m.capture.value.index);
                 MovesTo(c, a.n, m.(floor := floor, cache := m.capture, capture := None), Do(c, a))
    ensures a.DropSnapshot? ==>
              var m := c.members[a.n];
              m.capture.Some? && MovesTo(c, a.n, m.(capture := None), Do(c, a))
  {
    hide Contiguous, Follows;
  }

  lemma SnapshotEffect(c: Cluster, a: Action)
    requires CanStep(c, a) && a.HandleSnapshot?
    ensures var m, k := c.members[a.n], a.snap.lastIndex;
            var m2 := Do(c, a).members[a.n];
            && SnapReq(a.n, a.snap, a.prefix) in c.net
            && MovesTo(c, a.n, m2, Do(c, a)) && m2.pending == m.pending && m2.capture == m.capture
            && if InstallsSnapshot(m, a.snap) then
                 m2.floor == k && m2.s.commit == k && m2.s.applied == k && m2.cache.Some? && m2.cache.value.index == k
               else
                 m2.floor == m.floor && m2.cache == m.cache && m2.s.applied == m.s.applied && m2.s.commit == m.s.commit
  {
    hide Contiguous, Follows, Listening;
  }

  lemma ApplyEffect(c: Cluster, a: Action)
    requires CanStep(c, a) && a.ApplyBegin? && c.members[a.n].s.commit < |c.members[a.n].s.log|
    ensures var m := c.members[a.n];
            var k, m2 := m.s.applied + 1, Do(c, a).members[a.n];
            && m.pending == None && k <= m.s.commit && Do(c, a).net == c.net
            && (k < m.floor ==> MovesTo(c, a.n, m.(s := m.s.(applied := m.floor)), Do(c, a)))
            && (k >= m.floor ==> m2 == m.(pending := Some(k)))
            && (k == m.floor ==> Do(c, a).h.applied == c.h.applied)
            && (forall e :: e in Do(c, a).h.applied && e !in c.h.applied ==> e.node == a.n && e.index == k)
  {
    hide Compacted, Contiguous, Full, Follows;
    var m := c.members[a.n];
    FullShape(m.s.log);
    CompactedShape(m.s.log, m.floor);
    CompactedIndex(m.s.log, m.floor, 0);
  }

  lemma EndEffect(c: Cluster, a: Action)
    requires CanStep(c, a) && a.ApplyEnd?
    ensures var m := c.members[a.n];
            m.pending.Some? && MovesTo(c, a.n, m.(s := m.s.(applied := m.pending.value), pending := None), Do(c, a))
  {
    hide Contiguous, Follows;
  }

  // --- The fields of the loop ---

  /** `pending` is the index picked, `captured` and `cached` those of the snapshots in progress and
      cached. */
  datatype Loop = Loop(
    floor: nat,
    commit: nat,
    applied: nat,
    pending: Option<nat>,
    captured: Option<nat>,
    cached: Option<nat>)

  function IndexOf(l: Option<Label>): Option<nat> {
    if l.Some? then Some(l.value.index) else None
  }

  function LoopOf(m: Member): Loop {
    Loop(m.floor, m.s.commit, m.s.applied, m.pending, IndexOf(m.capture), IndexOf(m.cache))
  }

  /** The step installs a snapshot. */
  predicate Installing(m: Member, a: Action) {
    a.HandleSnapshot? && InstallsSnapshot(m, a.snap)
  }

  /** The fields after step `a`, which may raise the commit index to `commit`. */
  function Turned(l: Loop, a: Action, installs: bool, commit: nat): Loop
    requires (a.FinishSnapshot? ==> l.captured.Some?) && (a.ApplyEnd? ==> l.pending.Some?)
  {
    match a
    case CaptureLabel(_) => l.(captured := Some(l.applied))
    case FinishSnapshot(_) => l.(floor := Max(l.floor, l.captured.value), captured := None, cached := l.captured)
    case DropSnapshot(_) => l.(captured := None)
    case HandleSnapshot(_, snap, _, _, _) =>
      var k := snap.lastIndex;
      if installs then l.(floor := k, commit := k, applied := k, cached := Some(k)) else l
    case ApplyBegin(_) =>
      if l.applied + 1 < l.floor then l.(applied := l.floor) else l.(pending := Some(l.applied + 1))
    case ApplyEnd(_) => l.(applied := l.pending.value, pending := None)
    case _ => l.(commit := commit)
  }

  /** What the step needs of the loop. */
  predicate CanTurn(l: Loop, a: Action) {
    match a
    case CaptureLabel(_) => l.captured == None && l.applied > l.floor
    case FinishSnapshot(_) => l.captured.Some?
    case DropSnapshot(_) => l.captured.Some?
    case ApplyBegin(_) => l.pending == None && l.applied + 1 <= l.commit
    case ApplyEnd(_) => l.pending.Some?
    case _ => true
  }

  /** The step does to the loop of its node what `Turned` says. */
  ghost predicate Turns(c: Cluster, a: Action, c2: Cluster) {
    && a.n in c.members && a.n in c2.members && CanTurn(LoopOf(c.members[a.n]), a)
    && var m, m2 := c.members[a.n], c2.members[a.n];
       && LoopOf(m2) == Turned(LoopOf(m), a, Installing(m, a), m2.s.commit)
       && (Elsewhere(a) ==> m.s.commit <= m2.s.commit)
  }

  lemma LabelTurns(c: Cluster, a: Action)
    requires CanStep(c, a) && (a.CaptureLabel? || a.FinishSnapshot? || a.DropSnapshot?)
    ensures Turns(c, a, Do(c, a))
  {
    hide Do, Enabled, WellFormed, InstallsSnapshot, TermAt;
    StepTaken(c, a);
    LabelEffect(c, a);
  }

  lemma LoopTurns(c: Cluster, a: Action)
    requires CanStep(c, a) && (a.HandleSnapshot? || a.ApplyBegin? || a.ApplyEnd?)
    requires a.n in c.members && c.members[a.n].s.commit < |c.members[a.n].s.log|
    requires a.n in Do(c, a).members
    ensures Turns(c, a, Do(c, a))
  {
    hide Do, Enabled, WellFormed, InstallsSnapshot;
    match a
    case HandleSnapshot(_, _, _, _, _) => SnapshotEffect(c, a);
    case ApplyBegin(_) => ApplyEffect(c, a);
    case ApplyEnd(_) => EndEffect(c, a);
  }

  lemma ElseTurns(c: Cluster, a: Action)
    requires CanStep(c, a) && Elsewhere(a)
    ensures Turns(c, a, Do(c, a))
  {
    hide Do, Enabled, WellFormed, InstallsSnapshot;
    ElsewhereLeaves(c, a);
  }

  lemma StepTurns(c: Cluster, a: Action)
    requires CanStep(c, a) && a.n in c.members && c.members[a.n].s.commit < |c.members[a.n].s.log|
    ensures Turns(c, a, Do(c, a))
  {
    hide Do, Enabled, WellFormed, Turns;
    OnlyOneMoves(c, a);
    if Elsewhere(a) {
      ElseTurns(c, a);
    } else if a.HandleSnapshot? || a.ApplyBegin? || a.ApplyEnd? {
      LoopTurns(c, a);
    } else {
      LabelTurns(c, a);
    }
  }

  /** Only installing a snapshot moves the commit index back. */
  lemma CommitMoves(c: Cluster, a: Action)
    requires CanStep(c, a) && a.n in c.members && c.members[a.n].s.commit < |c.members[a.n].s.log|
    ensures a.n in Do(c, a).members
    ensures var m, m2 := c.members[a.n], Do(c, a).members[a.n];
            if Installing(m, a) then a.HandleSnapshot? && m2.s.commit == a.snap.lastIndex else m.s.commit <= m2.s.commit
  {
    hide Do, Enabled, WellFormed, InstallsSnapshot;
    StepTurns(c, a);
  }

  /** In a guarded run an entry that is picked is the one after lastApplied, unless a snapshot has
      overtaken it, and a snapshot in progress is not beyond lastApplied. */
  predicate LoopOk(l: Loop) {
    && l.applied <= l.commit && l.floor <= l.commit
    && (l.pending.Some? ==>
          && 1 <= l.pending.value <= l.commit
          && (l.applied + 1 == l.pending.value || (l.applied <= l.floor && l.pending.value <= l.floor)))
    && (l.captured.Some? ==> 1 <= l.captured.value <= Max(l.applied, l.floor))
  }

  /** The index up to which entries are applied or covered by a snapshot. */
  function Reached(l: Loop): nat {
    Max(l.applied, l.floor)
  }

  /** The index that the apply loop picks next, whatever happens in between. */
  function NextPick(l: Loop): nat {
    var last := if l.pending.Some? then l.pending.value else l.applied;
    if last + 1 < l.floor then l.floor + 1 else last + 1
  }

  /** Installing a snapshot takes the loop past its last index, or to it if the entry before that is
      in flight: then the loop still passes the snapshot's placeholder. */
  function Passed(l: Loop, k: nat): nat {
    if l.pending.Some? && l.pending.value + 1 == k then k else k + 1
  }

  /** The step picks an entry. */
  predicate Picks(l: Loop, a: Action) {
    a.ApplyBegin? && l.applied + 1 >= l.floor
  }

  /** The index picked next after step `a`. */
  function NextAfter(l: Loop, a: Action, installs: bool): nat {
    if installs && a.HandleSnapshot? then Passed(l, a.snap.lastIndex)
    else if Picks(l, a) then NextPick(l) + 1 else NextPick(l)
  }

  lemma TurnKeeps(l: Loop, a: Action, installs: bool, commit: nat)
    requires LoopOk(l) && CanTurn(l, a) && (Elsewhere(a) ==> l.commit <= commit)
    requires installs ==> a.HandleSnapshot? && l.commit <= a.snap.lastIndex
    ensures var l2 := Turned(l, a, installs, commit);
            && LoopOk(l2) && l.commit <= l2.commit && Reached(l) <= Reached(l2)
            && (a.ApplyEnd? ==> l.pending.Some? && l.pending.value <= Reached(l2))
            && NextPick(l) <= NextPick(l2) && NextPick(l) <= l.commit + 1
            && NextPick(l2) == NextAfter(l, a, installs)
            && (Picks(l, a) ==> l2.pending == Some(NextPick(l)))
  {
  }
}
