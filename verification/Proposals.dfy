/** What Propose callers are told, in every guarded run of the cluster (raft/node.go:520-535,
    788-820 and 849-869). */
module Proposals {
  import opened RaftTypes
  import opened LogStore
  import opened Handlers
  import opened Cluster
  import opened Invariant
  import opened Evolution
  import opened Agreement
  import opened Preservation
  import opened Prefixes
  import opened Safety
  import opened Compaction
  import opened Refinement
  import opened Footprint
  import opened Shipping
  import opened Shipped
  import opened Waiters

  /** The waiters of one node. `asked[k]` is the entry proposed on channel k, `taken` the entry the
      apply loop is at with its waiter, and `covered` the indices it passed by because a snapshot
      covers them. */
  datatype Desk = Desk(
    book: Book,
    asked: seq<LogEntry>,
    taken: Option<(LogEntry, Option<nat>)>,
    covered: set<nat>)

  datatype Office = Office(c: Cluster, desks: map<NodeId, Desk>)

  /** A step of the cluster, or abortPendingProposals on a node. */
  datatype Move = Step(a: Action) | AbortAll(n: NodeId)

  predicate DeskReady(d: Desk) {
    d.taken.Some? && d.taken.value.1.Some? ==> d.taken.value.1.value < |d.book.channels|
  }

  /** What step `a` of the node in state `m` does to its waiters. */
  function DeskAfter(m: Member, a: Action, d: Desk): Desk
    requires Full(m.s.log) && m.floor < |m.s.log| && Contiguous(Image(m).log) && DeskReady(d)
  {
    match a
    case Propose(n, cmd) =>
      var entry := LogEntry(m.s.term, Last(m.s.log) + 1, cmd);
      d.(book := Open(d.book, entry.index), asked := d.asked + [entry])
    case ApplyBegin(n) =>
      (match PickEntry(Image(m)).1
       case None => d
       case Some(e) =>
         var (book, waiter) := Take(d.book, e.index);
         d.(book := book, taken := Some((e, waiter)),
            covered := if e.index <= m.floor then d.covered + {e.index} else d.covered))
    case ApplyEnd(n) =>
      (match d.taken
       case None => d
       case Some((e, waiter)) =>
         d.(book := Deliver(d.book, waiter, ProposeResult(true, e.index, e.term)), taken := None))
    case _ => d
  }

  predicate CanMove(o: Office, v: Move) {
    match v
    case Step(a) =>
      && CanStep(o.c, a) && Guarded(o.c, a) && Forward(o.c, a) && a.n in o.desks && DeskReady(o.desks[a.n])
      && Contiguous(Image(o.c.members[a.n]).log)
    case AbortAll(n) => n in o.c.members && n in o.desks
  }

  function Make(o: Office, v: Move): Office
    requires CanMove(o, v)
  {
    match v
    case Step(a) => Office(Do(o.c, a), o.desks[a.n := DeskAfter(o.c.members[a.n], a, o.desks[a.n])])
    case AbortAll(n) =>
      o.(desks := o.desks[n := o.desks[n].(book := Abort(o.desks[n].book, o.c.members[n].s.commit))])
  }

  // --- Which entries are decided ---

  /** Some leader has committed index `i`, and its log has `e` there. */
  ghost predicate Decided(c: Cluster, i: nat, e: LogEntry) {
    exists x :: x in c.h.commits && i <= x.index && x.term in c.h.leaderLogs
             && i < |c.h.leaderLogs[x.term]| && c.h.leaderLogs[x.term][i] == e
  }

  lemma DecidedOnce(c: Cluster, i: nat, e: LogEntry, f: LogEntry)
    requires Decided(c, i, e) && Decided(c, i, f)
    requires Inv(c)
    ensures e == f
  {
    hide Inv, Settled;
    InvLeaders(c);
    AppliedAgree(c, Applied(0, i, e), Applied(0, i, f));
  }

  lemma MemberDecided(c: Cluster, n: NodeId, i: nat)
    requires n in c.members && i <= c.members[n].s.commit
    requires Inv(c)
    ensures i < |c.members[n].s.log| && Decided(c, i, c.members[n].s.log[i])
  {
    hide Inv, LogOk, RunningOk, LeaderOk;
    MemberIsOk(c, n);
    var s := c.members[n].s;
    var x :| x in c.h.commits && x.term <= s.term && s.commit <= x.index && CommitMatches(c.h, x, s.log, s.commit);
    AgreeWeaken(s.log, c.h.leaderLogs[x.term], s.commit, i);
  }

  /** The entry was proposed by the leader of its term. */
  ghost predicate Proposed(h: History, e: LogEntry) {
    e.term in h.leaderLogs && e.index < |h.leaderLogs[e.term]| && h.leaderLogs[e.term][e.index] == e
  }

  /** The entry decided at the index of a proposed one is that entry exactly if the terms match. */
  lemma DecidedIsProposed(c: Cluster, asked: LogEntry, e: LogEntry)
    requires Proposed(c.h, asked) && Decided(c, asked.index, e)
    requires Inv(c)
    ensures e == asked <==> e.term == asked.term
  {
    hide Inv, TermsSorted;
    var x :| x in c.h.commits && asked.index <= x.index && x.term in c.h.leaderLogs
             && asked.index < |c.h.leaderLogs[x.term]| && c.h.leaderLogs[x.term][asked.index] == e;
    LeaderLogFull(c, x.term);
    if e.term == asked.term {
      AgreeWeaken(c.h.leaderLogs[x.term], c.h.leaderLogs[e.term], asked.index, asked.index);
    }
  }

  // --- What every guarded move keeps ---

  /** Index `i` is decided with an entry of this term, which the node has handed to its state
      machine unless the entry has no command or a snapshot covers it. */
  ghost predicate Reported(c: Cluster, n: NodeId, covered: set<nat>, i: nat, term: nat) {
    exists e :: Decided(c, i, e) && e.term == term
                && (Applied(n, i, e) in c.h.applied || e.command == Nil || i in covered)
  }

  ghost predicate TakenOk(c: Cluster, n: NodeId, d: Desk) {
    d.taken.Some? ==>
      && Reported(c, n, d.covered, d.taken.value.0.index, d.taken.value.0.term)
      && (d.taken.value.1.Some? ==>
            && d.taken.value.1.value < |d.book.channels|
            && d.book.channels[d.taken.value.1.value] == Channel(d.taken.value.0.index, [], false)
            && !WaitsOn(d.book, d.taken.value.1.value))
  }

  ghost predicate SentOk(c: Cluster, n: NodeId, d: Desk) {
    forall k :: 0 <= k < |d.book.channels| && d.book.channels[k].sent != [] && d.book.channels[k].sent[0].committed ==>
      Reported(c, n, d.covered, d.book.channels[k].index, d.book.channels[k].sent[0].term)
  }

  ghost predicate AskedOk(h: History, d: Desk) {
    && |d.asked| == |d.book.channels|
    && forall k :: 0 <= k < |d.asked| ==> d.asked[k].index == d.book.channels[k].index && Proposed(h, d.asked[k])
  }

  ghost predicate DeskOk(c: Cluster, n: NodeId, d: Desk) {
    && n in c.members && Tidy(d.book)
    && (d.taken.Some? ==> c.members[n].pending == Some(d.taken.value.0.index))
    && AskedOk(c.h, d) && TakenOk(c, n, d) && SentOk(c, n, d)
  }

  lemma ReportedGrows(c: Cluster, c2: Cluster, n: NodeId, covered: set<nat>, i: nat, term: nat)
    requires Reported(c, n, covered, i, term) && Evolves(c, c2)
    ensures Reported(c2, n, covered, i, term)
  {
  }

  lemma AskedGrows(c: Cluster, c2: Cluster, d: Desk)
    requires AskedOk(c.h, d) && Evolves(c, c2)
    ensures AskedOk(c2.h, d)
  {
  }

  /** A desk that does not change stays in order. */
  lemma DeskStays(c: Cluster, c2: Cluster, n: NodeId, d: Desk)
    requires DeskOk(c, n, d) && Evolves(c, c2) && n in c2.members
    requires d.taken.Some? ==> c2.members[n].pending == c.members[n].pending
    ensures DeskOk(c2, n, d)
  {
    AskedGrows(c, c2, d);
    hide Evolves, Tidy, Reported, AskedOk;
    if d.taken.Some? {
      ReportedGrows(c, c2, n, d.covered, d.taken.value.0.index, d.taken.value.0.term);
    }
    forall k | 0 <= k < |d.book.channels| && d.book.channels[k].sent != [] && d.book.channels[k].sent[0].committed
      ensures Reported(c2, n, d.covered, d.book.channels[k].index, d.book.channels[k].sent[0].term)
    {
      ReportedGrows(c, c2, n, d.covered, d.book.channels[k].index, d.book.channels[k].sent[0].term);
    }
  }

  lemma OpenDesk(c: Cluster, n: NodeId, d: Desk, entry: LogEntry)
    requires DeskOk(c, n, d) && Proposed(c.h, entry)
    ensures DeskOk(c, n, d.(book := Open(d.book, entry.index), asked := d.asked + [entry]))
  {
    OpenTidy(d.book, entry.index);
    hide Reported, Proposed, Tidy;
  }

  lemma TakeDesk(c: Cluster, n: NodeId, d: Desk, e: LogEntry, covered: set<nat>)
    requires DeskOk(c, n, d) && d.taken.None? && c.members[n].pending == Some(e.index)
    requires d.covered <= covered && Reported(c, n, covered, e.index, e.term)
    ensures var (book, waiter) := Take(d.book, e.index);
            DeskOk(c, n, d.(book := book, taken := Some((e, waiter)), covered := covered))
  {
    TakeTidy(d.book, e.index);
    forall i: nat, term: nat | Reported(c, n, d.covered, i, term)
      ensures Reported(c, n, covered, i, term)
    {
    }
    hide Reported, Proposed, Tidy;
  }

  lemma DeliverDesk(c: Cluster, n: NodeId, d: Desk)
    requires DeskOk(c, n, d) && d.taken.Some?
    ensures var (e, waiter) := d.taken.value;
            && (waiter.Some? ==> waiter.value < |d.book.channels|)
            && DeskOk(c, n, d.(book := Deliver(d.book, waiter, ProposeResult(true, e.index, e.term)), taken := None))
  {
    var (e, waiter) := d.taken.value;
    DeliverTidy(d.book, waiter, ProposeResult(true, e.index, e.term));
    hide Reported, Proposed, Tidy;
  }

  lemma AbortDesk(c: Cluster, n: NodeId, d: Desk, commit: nat)
    requires DeskOk(c, n, d)
    ensures DeskOk(c, n, d.(book := Abort(d.book, commit)))
  {
    AbortTidy(d.book, commit);
    assert forall k :: 0 <= k < |d.book.channels| ==>
             Abort(d.book, commit).channels[k].index == d.book.channels[k].index;
    hide Reported, Proposed, Tidy;
  }

  lemma PendingKept(c: Cluster, a: Action)
    requires CanStep(c, a) && !a.ApplyBegin? && !a.ApplyEnd?
    ensures a.n in Do(c, a).members && Do(c, a).members[a.n].pending == c.members[a.n].pending
  {
    hide HandleAppendEntries, HandleRequestVote, BecomeLeader, HandleAppendReply, HandleSnapshotReply, CommitScan,
      Image, EntryAt, Contiguous, Follows, AppendFor, SnapshotFor, TermAt, Listening;
    if Compound(a) {
      hide Do, Enabled, WellFormed;
      WhichStep(c, a);
    } else {
      hide DoVote, DoAppend, DoSnapshot, DoAppendAns, DoSnapAns, DoApply, DoCommit, DoStartElection, DoWin, DoPropose;
    }
  }

  lemma ProposeIsRecorded(c: Cluster, n: NodeId, cmd: Command)
    requires CanStep(c, Action.Propose(n, cmd))
    ensures var s := c.members[n].s;
            Contiguous(s.log) && Proposed(Do(c, Action.Propose(n, cmd)).h, LogEntry(s.term, Last(s.log) + 1, cmd))
  {
    var s, c2 := c.members[n].s, Do(c, Action.Propose(n, cmd));
    assert Full(s.log) && c2 == DoPropose(c, n, cmd) && s.role == Leader;
    hide WellFormed, Do;
    assert c2.h.leaderLogs[s.term] == s.log + [LogEntry(s.term, Last(s.log) + 1, cmd)];
  }

  /** The entry picked is decided, or stands in for a decided one that a snapshot covers. */
  lemma PickIsReported(c: Cluster, n: NodeId, e: LogEntry, covered: set<nat>)
    requires CanStep(c, ApplyBegin(n)) && Contiguous(Image(c.members[n]).log)
    requires PickEntry(Image(c.members[n])).1 == Some(e)
    requires e.index <= c.members[n].floor ==> e.index in covered
    requires Inv(c)
    ensures var c2 := Do(c, ApplyBegin(n));
            n in c2.members && c2.members[n].pending == Some(e.index) && c2.h.leaderLogs == c.h.leaderLogs &&
                c2.h.commits == c.h.commits
    ensures Reported(Do(c, ApplyBegin(n)), n, covered, e.index, e.term)
  {
    hide Inv;
    var m, c2 := c.members[n], Do(c, ApplyBegin(n));
    var next := m.s.applied + 1;
    CompactedShape(m.s.log, m.floor);
    MemberDecided(c, n, next);
    CompactedAt(m.s.log, m.floor, next);
    CompactedIndex(m.s.log, m.floor, next - m.floor);
    PickDoes(c, n, e);
    hide Compacted, WellFormed, Do, Enabled;
    assert Decided(c2, next, m.s.log[next]);
  }

  lemma PickDoes(c: Cluster, n: NodeId, e: LogEntry)
    requires CanStep(c, ApplyBegin(n)) && Contiguous(Image(c.members[n]).log)
    requires EntryAt(Image(c.members[n]).log, c.members[n].s.applied + 1) == Some(e)
    ensures var c2, k := Do(c, ApplyBegin(n)), c.members[n].s.applied + 1;
            && n in c2.members && c2.members[n].pending == Some(k) && c2.h.leaderLogs == c.h.leaderLogs
            && c2.h.commits == c.h.commits && (Applied(n, k, e) in c2.h.applied || e.command == Nil)
  {
    hide Image, EntryAt, Contiguous, Follows;
    ApplyStep(c, ApplyBegin(n));
  }

  ghost predicate OfficeOk(o: Office) {
    && Inv(o.c) && Ship(o.c) && o.desks.Keys == o.c.members.Keys
    && forall n :: n in o.desks ==> DeskOk(o.c, n, o.desks[n])
  }

  /** The step keeps the invariant and the desk `d` of its node was in order before it. */
  ghost predicate Manned(c: Cluster, a: Action, d: Desk) {
    && CanStep(c, a) && DeskReady(d) && Contiguous(Image(c.members[a.n]).log)
    && DeskOk(c, a.n, d) && Evolves(c, Do(c, a)) && a.n in Do(c, a).members
  }

  lemma ProposeDeskKept(c: Cluster, a: Action, d: Desk)
    requires Manned(c, a, d) && a.Propose?
    ensures DeskOk(Do(c, a), a.n, DeskAfter(c.members[a.n], a, d))
  {
    hide DeskOk, Proposed, Do, Contiguous, Evolves;
    PendingKept(c, a);
    ProposeIsRecorded(c, a.n, a.cmd);
    DeskStays(c, Do(c, a), a.n, d);
    OpenDesk(Do(c, a), a.n, d, LogEntry(c.members[a.n].s.term, Last(c.members[a.n].s.log) + 1, a.cmd));
  }

  lemma PendingMatches(c: Cluster, n: NodeId, d: Desk)
    requires DeskOk(c, n, d)
    ensures n in c.members && (d.taken.Some? ==> c.members[n].pending == Some(d.taken.value.0.index))
  {
  }

  lemma BeginDeskKept(c: Cluster, a: Action, d: Desk)
    requires Manned(c, a, d) && a.ApplyBegin?
    requires Inv(c)
    ensures DeskOk(Do(c, a), a.n, DeskAfter(c.members[a.n], a, d))
  {
    hide Inv, DeskOk, Do, Contiguous, Evolves, Image, PickEntry;
    PendingMatches(c, a.n, d);
    DeskStays(c, Do(c, a), a.n, d);
    match PickEntry(Image(c.members[a.n])).1 {
      case None =>
      case Some(e) =>
        var covered := if e.index <= c.members[a.n].floor then d.covered + {e.index} else d.covered;
        PickIsReported(c, a.n, e, covered);
        TakeDesk(Do(c, a), a.n, d, e, covered);
    }
  }

  lemma EndDeskKept(c: Cluster, a: Action, d: Desk)
    requires Manned(c, a, d) && a.ApplyEnd?
    ensures DeskOk(Do(c, a), a.n, DeskAfter(c.members[a.n], a, d))
  {
    hide DeskOk, Do, Contiguous, Evolves, Image;
    if d.taken.None? {
      DeskStays(c, Do(c, a), a.n, d);
    } else {
      DeliverDesk(c, a.n, d);
      var (e, waiter) := d.taken.value;
      var book := Deliver(d.book, waiter, ProposeResult(true, e.index, e.term));
      DeskStays(c, Do(c, a), a.n, d.(book := book, taken := None));
    }
  }

  lemma OwnDeskKept(c: Cluster, a: Action, d: Desk)
    requires Manned(c, a, d)
    requires Inv(c)
    ensures Contiguous(Image(c.members[a.n]).log)
    ensures DeskOk(Do(c, a), a.n, DeskAfter(c.members[a.n], a, d))
  {
    hide Inv, DeskOk, Do, Contiguous, Evolves, Image, WellFormed, Enabled, DeskAfter;
    match a
    case Propose(_, cmd) => ProposeDeskKept(c, a, d);
    case ApplyBegin(_) => BeginDeskKept(c, a, d);
    case ApplyEnd(_) => EndDeskKept(c, a, d);
    case _ => QuietDeskKept(c, a, d);
  }

  lemma QuietDeskKept(c: Cluster, a: Action, d: Desk)
    requires Manned(c, a, d) && !a.Propose? && !a.ApplyBegin? && !a.ApplyEnd?
    ensures DeskOk(Do(c, a), a.n, DeskAfter(c.members[a.n], a, d))
  {
    hide DeskOk, Do, Contiguous, Evolves, Image, WellFormed, Enabled;
    PendingKept(c, a);
    DeskStays(c, Do(c, a), a.n, d);
  }

  lemma OtherDesksKept(c: Cluster, c2: Cluster, desks: map<NodeId, Desk>, n: NodeId, d2: Desk)
    requires c2.members.Keys == c.members.Keys == desks.Keys && n in desks && Evolves(c, c2)
    requires forall x :: x in desks ==> DeskOk(c, x, desks[x])
    requires forall x :: x in c.members && x != n ==> c2.members[x] == c.members[x]
    requires DeskOk(c2, n, d2)
    ensures forall x :: x in desks ==> DeskOk(c2, x, desks[n := d2][x])
  {
    hide Evolves, DeskOk;
    forall x | x in desks && x != n
      ensures DeskOk(c2, x, desks[x])
    {
      DeskStays(c, c2, x, desks[x]);
    }
  }

  lemma StepKeepsDesks(o: Office, a: Action)
    requires CanMove(o, Step(a)) && OfficeOk(o)
    ensures OfficeOk(Make(o, Step(a))) && Evolves(o.c, Do(o.c, a))
  {
    hide Inv, Ship, DeskOk, Guarded, Evolves, Do, WellFormed, Enabled, DeskAfter, Full, Image;
    StepShips(o.c, a);
    SameMembers(o.c, Do(o.c, a));
    OnlyOneMoves(o.c, a);
    OwnDeskKept(o.c, a, o.desks[a.n]);
    OtherDesksKept(o.c, Do(o.c, a), o.desks, a.n, Make(o, Step(a)).desks[a.n]);
  }

  /** Every guarded move keeps the desks in order. */
  lemma MoveKeeps(o: Office, v: Move)
    requires CanMove(o, v) && OfficeOk(o)
    ensures OfficeOk(Make(o, v)) && Evolves(o.c, Make(o, v).c)
  {
    hide Inv, Ship, DeskOk, Guarded, CanStep;
    match v
    case AbortAll(n) =>
      AbortDesk(o.c, n, o.desks[n], o.c.members[n].s.commit);
      EvolvesRefl(o.c);
    case Step(a) => StepKeepsDesks(o, a);
  }

  // --- Nothing awaited is removed ---

  /** The log still holds every awaited entry, no caller was told that another entry than its own
      was committed, and every channel without a result is still waited on. */
  ghost predicate Kept(log: Log, d: Desk) {
    && |d.asked| == |d.book.channels|
    && (forall i :: i in d.book.waits ==>
          i < |log| && d.book.waits[i] < |d.asked| && log[i] == d.asked[d.book.waits[i]])
    && (d.taken.Some? && d.taken.value.1.Some? ==>
          d.taken.value.1.value < |d.asked| && d.taken.value.0.term == d.asked[d.taken.value.1.value].term)
    && (forall k :: 0 <= k < |d.asked| && d.book.channels[k].sent != [] && d.book.channels[k].sent[0].committed ==>
          d.book.channels[k].sent[0].term == d.asked[k].term)
    && (forall k :: 0 <= k < |d.asked| && d.book.channels[k].sent == [] ==>
          WaitsOn(d.book, k) || (d.taken.Some? && d.taken.value.1 == Some(k)))
  }

  /** The step leaves every awaited entry where it is. */
  predicate Spared(log: Log, log2: Log, waits: map<nat, nat>) {
    forall i :: i in waits && i < |log| ==> i < |log2| && log2[i] == log[i]
  }

  lemma OpenKept(log: Log, d: Desk, entry: LogEntry)
    requires Full(log) && Tidy(d.book) && Kept(log, d) && entry.index == |log|
    ensures Kept(log + [entry], d.(book := Open(d.book, entry.index), asked := d.asked + [entry]))
  {
    assert entry.index !in d.book.waits;
  }

  lemma TakeKept(log: Log, d: Desk, e: LogEntry, covered: set<nat>)
    requires Tidy(d.book) && Kept(log, d) && d.taken.None? && e.index < |log| && e.term == log[e.index].term
    ensures var (book, waiter) := Take(d.book, e.index);
            Kept(log, d.(book := book, taken := Some((e, waiter)), covered := covered))
  {
  }

  lemma DeliverKept(log: Log, d: Desk)
    requires Tidy(d.book) && Kept(log, d) && d.taken.Some? && DeskReady(d)
    requires d.taken.value.1.Some? ==>
               d.book.channels[d.taken.value.1.value].sent == [] && !WaitsOn(d.book, d.taken.value.1.value)
    ensures var (e, waiter) := d.taken.value;
            Kept(log, d.(book := Deliver(d.book, waiter, ProposeResult(true, e.index, e.term)), taken := None))
  {
  }

  lemma AbortKept(log: Log, d: Desk, commit: nat)
    requires Tidy(d.book) && Kept(log, d)
    ensures Kept(log, d.(book := Abort(d.book, commit)))
  {
  }

  lemma SparedKept(log: Log, log2: Log, d: Desk)
    requires Kept(log, d) && Spared(log, log2, d.book.waits)
    ensures Kept(log2, d)
  {
  }

  lemma LogAnswered(c: Cluster, a: Action)
    requires CanStep(c, a) && (a.HandleAppendAns? || a.HandleSnapAns? || a.ApplyBegin? || a.AdvanceCommit?)
    ensures a.n in Do(c, a).members && Do(c, a).members[a.n].s.log == c.members[a.n].s.log
  {
    hide Do, Enabled, WellFormed, CommitScan, EntryAt, Compacted;
    match a
    case HandleAppendAns(_, _) => AppendAnsStep(c, a);
    case HandleSnapAns(_, _) => SnapAnsStep(c, a);
    case ApplyBegin(_) => ApplyStep(c, a);
    case _ => CommitStep(c, a);
  }

  lemma LogUntouched(c: Cluster, a: Action)
    requires CanStep(c, a) && !a.HandleAppend? && !a.HandleSnapshot? && !a.Propose? && !a.HandleVote? && !a.Win?
    requires !a.HandleAppendAns? && !a.HandleSnapAns? && !a.ApplyBegin? && !a.AdvanceCommit?
    ensures a.n in Do(c, a).members && Do(c, a).members[a.n].s.log == c.members[a.n].s.log
  {
    hide Contiguous, Follows, AppendFor, SnapshotFor, TermAt;
    if a.StartElection? {
      hide Do, Enabled, WellFormed;
      ElectionStep(c, a);
    } else {
      hide DoVote, DoAppend, DoSnapshot, DoAppendAns, DoSnapAns, DoApply, DoCommit, DoWin, DoPropose;
    }
  }

  lemma LogVoted(c: Cluster, a: Action)
    requires CanStep(c, a) && (a.HandleVote? || a.Win?)
    ensures a.n in Do(c, a).members && Do(c, a).members[a.n].s.log == c.members[a.n].s.log
  {
    hide Do, Enabled, WellFormed, UpToDate, Majority, Uniform;
    if a.HandleVote? {
      VoteStep(c, a);
    } else {
      WinStep(c, a);
    }
  }

  /** Only appends and snapshots shorten or overwrite a log; a proposal adds an entry to it. */
  lemma LogAfter(c: Cluster, a: Action)
    requires CanStep(c, a) && !a.HandleAppend? && !a.HandleSnapshot?
    ensures a.n in Do(c, a).members
    ensures Do(c, a).members[a.n].s.log ==
            if a.Propose? then c.members[a.n].s.log + [LogEntry(c.members[a.n].s.term, |c.members[a.n].s.log|, a.cmd)]
            else c.members[a.n].s.log
  {
    if a.Propose? {
      assert Do(c, a) == DoPropose(c, a.n, a.cmd);
      hide Do;
    } else {
      hide Do;
      if a.HandleVote? || a.Win? {
        LogVoted(c, a);
      } else if a.HandleAppendAns? || a.HandleSnapAns? || a.ApplyBegin? || a.AdvanceCommit? {
        LogAnswered(c, a);
      } else {
        LogUntouched(c, a);
      }
    }
  }

  lemma PickedTerm(m: Member, e: LogEntry)
    requires Sound(m) && Contiguous(Image(m).log) && PickEntry(Image(m)).1 == Some(e)
    ensures e.index < |m.s.log| && e.term == m.s.log[e.index].term
  {
  }

  /** Step `a` spares the entries that the desk `d` of its node awaits. */
  ghost predicate Attended(c: Cluster, a: Action, d: Desk) {
    && CanStep(c, a) && a.n in c.members && DeskReady(d) && Contiguous(Image(c.members[a.n]).log) &&
       Sound(c.members[a.n])
    && DeskOk(c, a.n, d) && Kept(c.members[a.n].s.log, d) && a.n in Do(c, a).members
    && Spared(c.members[a.n].s.log, Do(c, a).members[a.n].s.log, d.book.waits)
  }

  lemma ProposeKept(c: Cluster, a: Action, d: Desk)
    requires Attended(c, a, d) && a.Propose?
    ensures Kept(Do(c, a).members[a.n].s.log, DeskAfter(c.members[a.n], a, d))
  {
    var s := c.members[a.n].s;
    LogAfter(c, a);
    hide Do, Kept, Enabled, WellFormed, Tidy, Spared, Open;
    OpenKept(s.log, d, LogEntry(s.term, |s.log|, a.cmd));
  }

  lemma BeginKept(c: Cluster, a: Action, d: Desk)
    requires Attended(c, a, d) && a.ApplyBegin?
    ensures Kept(Do(c, a).members[a.n].s.log, DeskAfter(c.members[a.n], a, d))
  {
    var m := c.members[a.n];
    LogAfter(c, a);
    assert d.taken.None?;
    hide Do, Kept, Enabled, WellFormed, Tidy, Spared, PickEntry, Image, Contiguous;
    match PickEntry(Image(m)).1 {
      case None =>
      case Some(e) =>
        PickedTerm(m, e);
        TakeKept(m.s.log, d, e, if e.index <= m.floor then d.covered + {e.index} else d.covered);
    }
  }

  lemma EndKept(c: Cluster, a: Action, d: Desk)
    requires Attended(c, a, d) && a.ApplyEnd?
    ensures Kept(Do(c, a).members[a.n].s.log, DeskAfter(c.members[a.n], a, d))
  {
    LogAfter(c, a);
    assert TakenOk(c, a.n, d);
    if d.taken.Some? {
      DeliverKept(c.members[a.n].s.log, d);
    }
    hide Do, Kept, Enabled, WellFormed, Tidy, Spared;
  }

  lemma OwnKept(c: Cluster, a: Action, d: Desk)
    requires Attended(c, a, d)
    ensures Contiguous(Image(c.members[a.n]).log)
    ensures Kept(Do(c, a).members[a.n].s.log, DeskAfter(c.members[a.n], a, d))
  {
    hide Do, Kept, Enabled, WellFormed, DeskOk, Tidy, Spared;
    match a
    case Propose(_, cmd) => ProposeKept(c, a, d);
    case ApplyBegin(_) => BeginKept(c, a, d);
    case ApplyEnd(_) => EndKept(c, a, d);
    case _ => SparedKept(c.members[a.n].s.log, Do(c, a).members[a.n].s.log, d);
  }

  ghost predicate AllKept(o: Office) {
    forall n :: n in o.desks && n in o.c.members ==> Kept(o.c.members[n].s.log, o.desks[n])
  }

  /** The move removes no entry of which a caller still waits for the result. */
  ghost predicate SparedMove(o: Office, v: Move)
    requires CanMove(o, v)
  {
    v.Step? ==>
      && v.a.n in Do(o.c, v.a).members
      && Spared(o.c.members[v.a.n].s.log, Do(o.c, v.a).members[v.a.n].s.log, o.desks[v.a.n].book.waits)
  }

  lemma SparedMoveKeeps(o: Office, v: Move)
    requires CanMove(o, v) && SparedMove(o, v) && AllKept(o) && OfficeOk(o)
    ensures AllKept(Make(o, v))
  {
    match v
    case AbortAll(n) =>
      hide Inv, Ship, Kept, Guarded;
      AbortKept(o.c.members[n].s.log, o.desks[n], o.c.members[n].s.commit);
    case Step(a) =>
      hide Inv, Ship, DeskOk, Kept, Guarded, Do, WellFormed, Enabled, DeskAfter, Full, Image, Spared;
      OnlyOneMoves(o.c, a);
      MemberIsSound(o.c, a.n);
      OwnKept(o.c, a, o.desks[a.n]);
  }

  /** Waiters are aborted before the node takes anything from another leader. */
  predicate AbortedFirst(o: Office, v: Move)
    requires CanMove(o, v)
  {
    v.Step? && (v.a.HandleAppend? || v.a.HandleSnapshot?) ==>
      forall i :: i in o.desks[v.a.n].book.waits ==> i <= o.c.members[v.a.n].s.commit
  }

  /** If a deposed leader aborts its waiters before it takes anything from the new one, no awaited
      entry is removed. */
  lemma AbortFirstSpares(o: Office, v: Move)
    requires CanMove(o, v) && AbortedFirst(o, v) && OfficeOk(o)
    ensures SparedMove(o, v)
  {
    hide Inv, Ship, DeskOk, Guarded, Do, Enabled, WellFormed, Evolves;
    if v.Step? {
      var c, a := o.c, v.a;
      var c2 := Do(c, a);
      StepShips(c, a);
      SameMembers(c, c2);
      if a.HandleAppend? || a.HandleSnapshot? {
        PrefixesAgree(c, c2, a.n, a.n);
        ForwardCommits(c, a);
        AgreeEverywhere(c.members[a.n].s.log, c2.members[a.n].s.log, c.members[a.n].s.commit);
      } else {
        LogAfter(c, a);
      }
    }
  }

  // --- Runs ---

  /** `sparing` runs are those in which no move removes an awaited entry. */
  ghost predicate OfficeRun(o: Office, moves: seq<Move>, sparing: bool)
    decreases |moves|
  {
    moves == [] ||
    (CanMove(o, moves[0]) && (sparing ==> SparedMove(o, moves[0])) && OfficeRun(Make(o, moves[0]), moves[1..], sparing))
  }

  ghost function OfficeAfter(o: Office, moves: seq<Move>, sparing: bool): Office
    requires OfficeRun(o, moves, sparing)
    decreases |moves|
  {
    if moves == [] then o else OfficeAfter(Make(o, moves[0]), moves[1..], sparing)
  }

  function Opening(ids: set<NodeId>): Office {
    Office(Init(ids), map n | n in ids :: Desk(NOBODY, [], None, {}))
  }

  ghost predicate ReachableOffice(ids: set<NodeId>, o: Office, sparing: bool) {
    ids != {} &&
    exists moves :: OfficeRun(Opening(ids), moves, sparing) && OfficeAfter(Opening(ids), moves, sparing) == o
  }

  lemma {:induction false} OfficeExtends(o: Office, moves: seq<Move>, v: Move)
    requires OfficeRun(o, moves, false) && CanMove(OfficeAfter(o, moves, false), v)
    ensures OfficeRun(o, moves + [v], false)
    ensures OfficeAfter(o, moves + [v], false) == Make(OfficeAfter(o, moves, false), v)
    decreases |moves|
  {
    hide Make, CanMove;
    if moves == [] {
      assert moves + [v] == [v] && [v][1..] == [];
    } else {
      assert (moves + [v])[1..] == moves[1..] + [v];
      OfficeExtends(Make(o, moves[0]), moves[1..], v);
    }
  }

  lemma ReachableNext(ids: set<NodeId>, o: Office, v: Move)
    requires ReachableOffice(ids, o, false) && CanMove(o, v)
    ensures ReachableOffice(ids, Make(o, v), false)
  {
    hide CanMove, Make, OfficeRun, OfficeAfter;
    var moves :| OfficeRun(Opening(ids), moves, false) && OfficeAfter(Opening(ids), moves, false) == o;
    OfficeExtends(Opening(ids), moves, v);
  }

  lemma {:induction false} OfficeRunKeeps(o: Office, moves: seq<Move>, sparing: bool)
    requires OfficeRun(o, moves, sparing) && OfficeOk(o) && (sparing ==> AllKept(o))
    ensures OfficeOk(OfficeAfter(o, moves, sparing)) && (sparing ==> AllKept(OfficeAfter(o, moves, sparing)))
    decreases |moves|
  {
    hide OfficeOk, AllKept, Make, CanMove, SparedMove;
    if moves != [] {
      MoveKeeps(o, moves[0]);
      if sparing {
        SparedMoveKeeps(o, moves[0]);
      }
      OfficeRunKeeps(Make(o, moves[0]), moves[1..], sparing);
    }
  }

  lemma OpeningOk(ids: set<NodeId>)
    requires ids != {}
    ensures OfficeOk(Opening(ids)) && AllKept(Opening(ids))
  {
    hide Inv, Ship;
    InitOk(ids);
    InitShips(ids);
  }

  lemma ReachableOfficeOk(ids: set<NodeId>, o: Office, sparing: bool)
    requires ReachableOffice(ids, o, sparing)
    ensures OfficeOk(o) && (sparing ==> AllKept(o))
  {
    hide OfficeOk, AllKept;
    OpeningOk(ids);
    var moves :| OfficeRun(Opening(ids), moves, sparing) && OfficeAfter(Opening(ids), moves, sparing) == o;
    OfficeRunKeeps(Opening(ids), moves, sparing);
  }

  /** A run in which waiters are always aborted first. */
  predicate AbortingRun(o: Office, moves: seq<Move>)
    decreases |moves|
  {
    moves == [] || (CanMove(o, moves[0]) && AbortedFirst(o, moves[0]) && AbortingRun(Make(o, moves[0]), moves[1..]))
  }

  lemma {:induction false} AbortingRunSpares(o: Office, moves: seq<Move>)
    requires AbortingRun(o, moves) && OfficeOk(o)
    ensures OfficeRun(o, moves, true)
    decreases |moves|
  {
    hide OfficeOk, Make, CanMove, SparedMove, AbortedFirst;
    if moves != [] {
      AbortFirstSpares(o, moves[0]);
      MoveKeeps(o, moves[0]);
      AbortingRunSpares(Make(o, moves[0]), moves[1..]);
    }
  }

  /** Deposing a leader and aborting its waiters as one step is enough: no such run ever removes an
      awaited entry, so `SparedResults` holds of it. */
  lemma AbortingRunsSpare(ids: set<NodeId>, moves: seq<Move>)
    requires ids != {} && AbortingRun(Opening(ids), moves)
    ensures OfficeRun(Opening(ids), moves, true)
  {
    OpeningOk(ids);
    hide OfficeOk;
    AbortingRunSpares(Opening(ids), moves);
  }

  /** What the entry with index `i` was that the result with this term reports. */
  ghost predicate Outcome(c: Cluster, n: NodeId, d: Desk, k: nat, e: LogEntry)
    requires k < |d.book.channels| && k < |d.asked| && d.book.channels[k].sent != []
  {
    && Decided(c, d.asked[k].index, e) && e.term == d.book.channels[k].sent[0].term
    && (Applied(n, d.asked[k].index, e) in c.h.applied || e.command == Nil || d.asked[k].index in d.covered)
    && (e == d.asked[k] <==> d.book.channels[k].sent[0].term == d.asked[k].term)
  }

  /** Propose waiters: a channel gets at most one result and is closed by it, so never both an abort
      and a commit. A result that says committed comes only after an entry with that index was
      decided and applied, or covered by a snapshot, and that entry is the one that was proposed
      exactly if the term in the result is the term it was proposed in. */
  lemma WaiterResults(ids: set<NodeId>, o: Office, n: NodeId, k: nat)
    requires ReachableOffice(ids, o, false) && n in o.desks && k < |o.desks[n].book.channels|
    ensures var d := o.desks[n];
            && |d.asked| == |d.book.channels|
            && |d.book.channels[k].sent| == (if d.book.channels[k].closed then 1 else 0)
            && (d.book.channels[k].closed ==> d.book.channels[k].sent[0].index == d.asked[k].index)
            && (d.book.channels[k].closed && d.book.channels[k].sent[0].committed ==>
               exists e :: Outcome(o.c, n, d, k, e))
  {
    hide Inv, Ship, CommittedIn, Evolves;
    ReachableOfficeOk(ids, o, false);
    var c, d := o.c, o.desks[n];
    assert DeskOk(c, n, d) && OneResult(d.book.channels[k]);
    hide OfficeOk, ReachableOffice, TakenOk, Decided, Proposed;
    if d.book.channels[k].closed && d.book.channels[k].sent[0].committed {
      var i, term := d.asked[k].index, d.book.channels[k].sent[0].term;
      assert Reported(c, n, d.covered, i, term);
      var e :| Decided(c, i, e) && e.term == term
               && (Applied(n, i, e) in c.h.applied || e.command == Nil || i in d.covered);
      DecidedIsProposed(c, d.asked[k], e);
      assert Outcome(c, n, d, k, e);
    }
  }

  /** In a run that spares awaited entries a committed result is about the very entry proposed, and
      a channel on which nothing was sent is still registered, though a snapshot may have passed its
      index. */
  lemma SparedResults(ids: set<NodeId>, o: Office, n: NodeId, k: nat)
    requires ReachableOffice(ids, o, true) && n in o.desks && k < |o.desks[n].book.channels|
    ensures var d := o.desks[n];
            && |d.asked| == |d.book.channels|
            && (d.book.channels[k].sent != [] && d.book.channels[k].sent[0].committed ==>
               Decided(o.c, d.asked[k].index, d.asked[k]))
            && (d.book.channels[k].sent == [] ==> WaitsOn(d.book, k) || (d.taken.Some? && d.taken.value.1 == Some(k)))
  {
    hide Inv, Ship, CommittedIn, Evolves;
    ReachableOfficeOk(ids, o, true);
    var c, d := o.c, o.desks[n];
    assert DeskOk(c, n, d) && OneResult(d.book.channels[k]) && Kept(c.members[n].s.log, d);
    hide OfficeOk, AllKept, ReachableOffice, TakenOk, Decided, Proposed;
    if d.book.channels[k].sent != [] && d.book.channels[k].sent[0].committed {
      var i, term := d.asked[k].index, d.book.channels[k].sent[0].term;
      assert Reported(c, n, d.covered, i, term);
      var e :| Decided(c, i, e) && e.term == term
               && (Applied(n, i, e) in c.h.applied || e.command == Nil || i in d.covered);
      DecidedIsProposed(c, d.asked[k], e);
    }
  }

  // --- When an append spares the awaited entries ---

  /** The request conflicts with the log nowhere up to index `i`. */
  predicate NoConflict(log: Log, a: AppendArgs, i: nat) {
    forall j :: 0 <= j < |a.entries| && a.prevLogIndex + 1 + j <= i && a.prevLogIndex + 1 + j < |log| ==>
      log[a.prevLogIndex + 1 + j].term == a.entries[j].term
  }

  lemma NoConflictAgrees(log: Log, lead: Log, a: AppendArgs, i: nat)
    requires Matching(log, lead) && Agree(log, lead, a.prevLogIndex) && SentFrom(lead, a.prevLogIndex, a.entries)
    requires i < |log| && NoConflict(log, a, i)
    ensures i <= a.prevLogIndex + |a.entries| ==> Agree(log, lead, i)
    ensures i > a.prevLogIndex + |a.entries| ==> Agree(log, lead, a.prevLogIndex + |a.entries|)
  {
    var k := a.prevLogIndex + |a.entries|;
    if i <= a.prevLogIndex {
      AgreeWeaken(log, lead, a.prevLogIndex, i);
    } else if i <= k {
      assert log[a.prevLogIndex + 1 + (i - a.prevLogIndex - 1)].term == a.entries[i - a.prevLogIndex - 1].term;
      assert log[i].term == lead[i].term;
    } else if |a.entries| > 0 {
      assert log[a.prevLogIndex + 1 + (|a.entries| - 1)].term == a.entries[|a.entries| - 1].term;
      assert log[k].term == lead[k].term;
    }
  }

  lemma AgreesNoConflict(log: Log, lead: Log, a: AppendArgs, i: nat, top: nat)
    requires SentFrom(lead, a.prevLogIndex, a.entries) && Agree(log, lead, top)
    requires i <= top || a.prevLogIndex + |a.entries| <= top
    ensures NoConflict(log, a, i)
  {
  }

  /** The entry at `i` survives the append exactly if nothing up to it conflicts. */
  lemma SurvivesIff(log: Log, lead: Log, a: AppendArgs, i: nat)
    requires Full(log) && Full(lead) && Matching(log, lead) && Agree(log, lead, a.prevLogIndex)
    requires SentFrom(lead, a.prevLogIndex, a.entries) && i < |log|
    ensures var log2 := Merge(log, a.prevLogIndex, a.entries, |a.entries|);
            (i < |log2| && log2[i] == log[i]) <==> NoConflict(log, a, i)
  {
    var k := a.prevLogIndex + |a.entries|;
    var log2 := Merge(log, a.prevLogIndex, a.entries, |a.entries|);
    MergeClosedForm(log, lead, a.prevLogIndex, a.entries, |a.entries|);
    if NoConflict(log, a, i) {
      NoConflictAgrees(log, lead, a, i);
      hide Merge, Matching, SentFrom, Contiguous, NoConflict;
      if i <= k {
        AgreeWeaken(log, lead, i, i);
      }
    } else if i < |log2| && log2[i] == log[i] {
      hide Merge, SentFrom, Contiguous, NoConflict;
      if Agree(log, lead, k) {
        AgreesNoConflict(log, lead, a, i, k);
      } else {
        assert i <= k && log[i].term == lead[i].term;
        AgreesNoConflict(log, lead, a, i, i);
      }
    }
  }

  /** What the invariant says of an accepted append. */
  lemma AppendFacts(c: Cluster, n: NodeId, args: AppendArgs, heard: bool)
    requires CanStep(c, HandleAppend(n, args, heard))
    requires args.term >= c.members[n].s.term && Consistent(c.members[n].s.log, args)
    requires Inv(c)
    ensures args.term in c.h.leaderLogs
    ensures var log, lead := c.members[n].s.log, c.h.leaderLogs[args.term];
            && Full(log) && Full(lead) && Matching(log, lead) && Agree(log, lead, args.prevLogIndex)
            && SentFrom(lead, args.prevLogIndex, args.entries)
  {
    hide Inv, CommittedIn, RunningOk, LeaderOk, TermsSorted;
    MemberIsOk(c, n);
    MessageIsOk(c, AppendReq(n, args));
    LeaderLogFull(c, args.term);
    TracedMatch(c.h, c.members[n].s.log, c.h.leaderLogs[args.term]);
    hide Traced;
  }

  lemma AppendEffect(c: Cluster, n: NodeId, args: AppendArgs, heard: bool)
    requires CanStep(c, HandleAppend(n, args, heard))
    requires args.term >= c.members[n].s.term && Consistent(c.members[n].s.log, args)
    ensures n in Do(c, HandleAppend(n, args, heard)).members
    ensures Do(c, HandleAppend(n, args, heard)).members[n].s.log ==
            Merge(c.members[n].s.log, args.prevLogIndex, args.entries, |args.entries|)
  {
    hide Merge;
  }

  /** raft/node.go:614-638: an accepted append spares the entries that callers wait for exactly if
      it conflicts with the log at none of their indices nor below. */
  lemma AppendSparesExact(ids: set<NodeId>, c: Cluster, n: NodeId, args: AppendArgs, heard: bool, waits: map<nat, nat>)
    requires Reachable(ids, c) && CanStep(c, HandleAppend(n, args, heard))
    requires args.term >= c.members[n].s.term && Consistent(c.members[n].s.log, args)
    ensures n in Do(c, HandleAppend(n, args, heard)).members
    ensures Spared(c.members[n].s.log, Do(c, HandleAppend(n, args, heard)).members[n].s.log, waits) <==>
            forall i :: i in waits && i < |c.members[n].s.log| ==> NoConflict(c.members[n].s.log, args, i)
  {
    hide Inv, Ship, Reachable, Do, Agree, Matching, SentFrom, NoConflict;
    ReachableOk(ids, c);
    AppendFacts(c, n, args, heard);
    AppendEffect(c, n, args, heard);
    var log := c.members[n].s.log;
    var log2 := Merge(log, args.prevLogIndex, args.entries, |args.entries|);
    forall i: nat | i < |log|
      ensures (i < |log2| && log2[i] == log[i]) <==> NoConflict(log, args, i)
    {
      SurvivesIff(log, c.h.leaderLogs[args.term], args, i);
    }
  }
}
