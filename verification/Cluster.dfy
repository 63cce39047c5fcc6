/** The whole cluster as a state machine over the atomic steps of its nodes.

    A step is one critical section of raft/node.go. Messages are never removed from `net`, so
    they may be lost, repeated and reordered. Each member carries its full log and the floor up
    to which it has compacted; `Image` is what the node really keeps in memory.

    A leader has at most one call to each peer in progress (raft/node.go:394-402). A request may
    reach the peer at any time, also after the call was given up; the answer counts only if it
    reaches the caller in time, which the step that handles the request decides: `heard`. */
module Cluster {
  import opened RaftTypes
  import opened LogStore
  import opened Handlers

  /** What a snapshot says it covers: an index and the term of the entry there. */
  datatype Label = Label(index: nat, term: nat)

  /** `campaign` is the term of the runCandidate call in progress; `pending` is the index the
      apply loop has picked but not yet recorded in lastApplied; `capture` is the label of the
      TakeSnapshot call in progress, of which the code runs one at a time, and `cache` that of
      lastSnapshot. */
  datatype Member = Member(
    s: NodeState,
    floor: nat,
    campaign: Option<nat>,
    pending: Option<nat>,
    capture: Option<Label>,
    cache: Option<Label>)

  /** `prefix` is the part of the log that a snapshot's data stands for. */
  datatype Message =
    | VoteReq(vote: VoteArgs)
    | AppendReq(to: NodeId, args: AppendArgs)
    | SnapReq(to: NodeId, snap: SnapshotArgs, prefix: Log)

  datatype Answer = Appended(reply: AppendReply) | Installed(done: SnapshotReply)

  /** A call in progress, with the answer once it has arrived. */
  datatype Call = Call(request: Message, answer: Option<Answer>)

  datatype Vote = Vote(voter: NodeId, term: nat, candidate: NodeId)

  datatype Election = Election(leader: NodeId, quorum: set<NodeId>)

  datatype Commit = Commit(term: nat, index: nat, quorum: set<NodeId>)

  datatype Applied = Applied(node: NodeId, index: nat, entry: LogEntry)

  /** What has happened so far. `leaderLogs[t]` is the log of the leader of term t, `acked`
      the highest index that the leader of a term has heard a member acknowledge. */
  datatype History = History(
    votes: set<Vote>,
    campaigns: map<(NodeId, nat), Log>,
    leaders: map<nat, Election>,
    leaderLogs: map<nat, Log>,
    acked: map<(NodeId, nat), nat>,
    commits: set<Commit>,
    applied: set<Applied>)

  /** `calls` has the call in progress from one member to another. */
  datatype Cluster = Cluster(
    members: map<NodeId, Member>,
    net: set<Message>,
    calls: map<(NodeId, NodeId), Call>,
    h: History)

  datatype Action =
    | ElectionTimeout(n: NodeId)
    | StartElection(n: NodeId)
    | HandleVote(n: NodeId, vote: VoteArgs)
    | SeeHigherTerm(n: NodeId, term: nat)
    | Win(n: NodeId, quorum: set<NodeId>)
    | EndCampaign(n: NodeId)
    | StepDown(n: NodeId)
    | Propose(n: NodeId, cmd: Command)
    | SendAppend(n: NodeId, to: NodeId)
    | HandleAppend(n: NodeId, args: AppendArgs, heard: bool)
    | HandleAppendAns(n: NodeId, from: NodeId)
    | AdvanceCommit(n: NodeId)
    | CaptureLabel(n: NodeId)
    | FinishSnapshot(n: NodeId)
    | DropSnapshot(n: NodeId)
    | SendSnapshot(n: NodeId, to: NodeId)
    | HandleSnapshot(n: NodeId, snap: SnapshotArgs, prefix: Log, restored: bool, heard: bool)
    | HandleSnapAns(n: NodeId, from: NodeId)
    | GiveUp(n: NodeId, to: NodeId)
    | ApplyBegin(n: NodeId)
    | ApplyEnd(n: NodeId)

  predicate Majority(c: Cluster, q: set<NodeId>) {
    q <= c.members.Keys && |q| >= |c.members| / 2 + 1
  }

  function Peers(c: Cluster, n: NodeId): set<NodeId> {
    c.members.Keys - {n}
  }

  /** The node's state as it is in memory, with the log compacted. */
  function Image(m: Member): NodeState
    requires Full(m.s.log) && m.floor < |m.s.log|
  {
    m.s.(log := Compacted(m.s.log, m.floor))
  }

  function With(c: Cluster, n: NodeId, m: Member): Cluster {
    c.(members := c.members[n := m])
  }

  function Send(c: Cluster, msg: Message): Cluster {
    c.(net := c.net + {msg})
  }

  function CastVote(c: Cluster, v: Vote): Cluster {
    c.(h := c.h.(votes := c.h.votes + {v}))
  }

  /** Record that `x` acknowledged index `k` to the leader of term `t`. */
  function Acknowledge(c: Cluster, x: NodeId, t: nat, k: nat): Cluster {
    c.(h := c.h.(acked := c.h.acked[(x, t) := if (x, t) in c.h.acked then Max(c.h.acked[(x, t)], k) else k]))
  }

  /** The leader `n` of the term starts a call. */
  function Ask(c: Cluster, n: NodeId, to: NodeId, msg: Message): Cluster {
    Send(c, msg).(calls := c.calls[(n, to) := Call(msg, None)])
  }

  /** The answer reaches the caller. */
  function Reply(c: Cluster, n: NodeId, from: NodeId, ans: Answer): Cluster
    requires (n, from) in c.calls
  {
    c.(calls := c.calls[(n, from) := c.calls[(n, from)].(answer := Some(ans))])
  }

  function EndCall(c: Cluster, n: NodeId, from: NodeId): Cluster {
    c.(calls := c.calls - {(n, from)})
  }

  function TermOf(msg: Message): nat {
    match msg
    case VoteReq(v) => v.term
    case AppendReq(_, a) => a.term
    case SnapReq(_, a, _) => a.term
  }

  /** The caller `l` still leads the term of the request and waits for the answer. */
  predicate Listening(c: Cluster, l: NodeId, n: NodeId, msg: Message) {
    && l in c.members && c.members[l].s.role == Leader && c.members[l].s.term == TermOf(msg)
    && (l, n) in c.calls && c.calls[(l, n)] == Call(msg, None)
  }

  /** Handling a snapshot, seen on the full log. */
  function InstallFull(m: Member, a: SnapshotArgs, prefix: Log): Member
    requires m.s.log != [] && prefix != []
  {
    if a.term < m.s.term then m
    else
      var s1 := Recognise(m.s, a.term);
      if a.lastIndex <= m.floor && m.floor > 0 then m.(s := s1)
      else
        m.(s := s1.(log := prefix, commit := a.lastIndex, applied := a.lastIndex),
           floor := a.lastIndex,
           cache := Some(Label(a.lastIndex, a.lastTerm)))
  }

  predicate InstallsSnapshot(m: Member, a: SnapshotArgs) {
    a.term >= m.s.term && !(a.lastIndex <= m.floor && m.floor > 0)
  }

  /** Members have full logs that reach their floor, and requests carry contiguous entries. */
  predicate WellFormed(c: Cluster) {
    && (forall n :: n in c.members ==> Full(c.members[n].s.log) && c.members[n].floor < |c.members[n].s.log|)
    && (forall m :: m in c.net && m.AppendReq? ==> Follows(m.args.prevLogIndex, m.args.entries))
    && (forall m :: m in c.net && m.SnapReq? ==> Full(m.prefix))
  }

  predicate Enabled(c: Cluster, a: Action)
    requires WellFormed(c)
  {
    && a.n in c.members
    && var m := c.members[a.n];
       match a
       case ElectionTimeout(n) => m.s.role == Follower && m.campaign == None
       case StartElection(n) => m.s.role != Leader && m.campaign == None
       case HandleVote(n, vote) => VoteReq(vote) in c.net && vote.candidate != n
       case SeeHigherTerm(n, term) => term > m.s.term
       case Win(n, q) =>
         && m.campaign.Some? && Majority(c, q)
         && forall x :: x in q ==> Vote(x, m.campaign.value, n) in c.h.votes
       case EndCampaign(n) => m.campaign.Some?
       case StepDown(n) => m.s.role == Leader
       case Propose(n, cmd) => m.s.role == Leader
       case SendAppend(n, to) =>
         && m.s.role == Leader && to in Peers(c, n) && (n, to) !in c.calls
         && m.floor < Get(m.s.nextIndex, to) <= Last(m.s.log) + 1
       case HandleAppend(n, args, heard) =>
         AppendReq(n, args) in c.net && (heard ==> Listening(c, args.leader, n, AppendReq(n, args)))
       case HandleAppendAns(n, from) =>
         && (n, from) in c.calls && c.calls[(n, from)].request.AppendReq?
         && c.calls[(n, from)].answer.Some? && c.calls[(n, from)].answer.value.Appended?
       case AdvanceCommit(n) => m.s.role == Leader
       case CaptureLabel(n) => m.capture == None && m.s.applied > m.floor
       case FinishSnapshot(n) => m.capture.Some?
       case DropSnapshot(n) => m.capture.Some?
       case SendSnapshot(n, to) =>
         && m.s.role == Leader && to in Peers(c, n) && (n, to) !in c.calls
         && Get(m.s.nextIndex, to) <= m.floor && m.cache.Some? && m.cache.value.index < |m.s.log|
       case HandleSnapshot(n, snap, prefix, restored, heard) =>
         SnapReq(n, snap, prefix) in c.net && (heard ==> Listening(c, snap.leader, n, SnapReq(n, snap, prefix)))
       case HandleSnapAns(n, from) =>
         && (n, from) in c.calls && c.calls[(n, from)].request.SnapReq?
         && c.calls[(n, from)].answer.Some? && c.calls[(n, from)].answer.value.Installed?
       case GiveUp(n, to) =>
         && (n, to) in c.calls
         && (c.calls[(n, to)].answer == None || m.s.role != Leader || m.s.term != TermOf(c.calls[(n, to)].request))
       case ApplyBegin(n) => m.pending == None && m.s.applied + 1 <= m.s.commit
       case ApplyEnd(n) => m.pending.Some?
  }

  function Do(c: Cluster, a: Action): Cluster
    requires WellFormed(c) && Enabled(c, a)
  {
    var m := c.members[a.n];
    match a
    case ElectionTimeout(n) => With(c, n, m.(s := m.s.(role := Candidate)))
    case StartElection(n) => DoStartElection(c, n)
    case HandleVote(n, vote) => DoVote(c, n, vote)
    case SeeHigherTerm(n, term) => With(c, n, m.(s := BecomeFollower(m.s, term)))
    case Win(n, q) => DoWin(c, n, q)
    case EndCampaign(n) => With(c, n, m.(campaign := None))
    case StepDown(n) => With(c, n, m.(s := m.s.(role := Follower)))
    case Propose(n, cmd) => DoPropose(c, n, cmd)
    case SendAppend(n, to) => Ask(c, n, to, AppendReq(to, AppendFor(m.s, n, Get(m.s.nextIndex, to))))
    case HandleAppend(n, args, heard) => DoAppend(c, n, args, heard)
    case HandleAppendAns(n, from) => DoAppendAns(c, n, from)
    case AdvanceCommit(n) => DoCommit(c, n)
    case CaptureLabel(n) => With(c, n, m.(capture := Some(Label(m.s.applied, TermAt(m.s.log, m.s.applied)))))
    case FinishSnapshot(n) =>
      With(c, n, m.(floor := Max(m.floor, m.capture.value.index), cache := m.capture, capture := None))
    case DropSnapshot(n) => With(c, n, m.(capture := None))
    case SendSnapshot(n, to) => Ask(c, n, to, SnapshotFor(m, n, to))
    case HandleSnapshot(n, snap, prefix, restored, heard) => DoSnapshot(c, n, snap, prefix, restored, heard)
    case HandleSnapAns(n, from) => DoSnapAns(c, n, from)
    case GiveUp(n, to) => EndCall(c, n, to)
    case ApplyBegin(n) => DoApply(c, n)
    case ApplyEnd(n) => With(c, n, m.(s := m.s.(applied := m.pending.value), pending := None))
  }

  predicate CanStep(c: Cluster, a: Action) {
    WellFormed(c) && Enabled(c, a)
  }

  function DoStartElection(c: Cluster, n: NodeId): Cluster
    requires n in c.members && c.members[n].s.log != []
  {
    var m := c.members[n];
    var s' := Handlers.StartElection(m.s, n);
    var c1 := With(c, n, m.(s := s', campaign := Some(s'.term)));
    var c2 := CastVote(c1, Vote(n, s'.term, n));
    var c3 := c2.(h := c2.h.(campaigns := c2.h.campaigns[(n, s'.term) := s'.log]));
    Send(c3, VoteReq(VoteRequest(s', n)))
  }

  function DoVote(c: Cluster, n: NodeId, vote: VoteArgs): Cluster
    requires n in c.members && c.members[n].s.log != []
  {
    var m := c.members[n];
    var (s', reply) := HandleRequestVote(m.s, vote);
    var c1 := With(c, n, m.(s := s'));
    if reply.granted then CastVote(c1, Vote(n, vote.term, vote.candidate)) else c1
  }

  /** The node becomes leader of whatever its current term is. */
  function DoWin(c: Cluster, n: NodeId, q: set<NodeId>): Cluster
    requires n in c.members && c.members[n].s.log != []
  {
    var m := c.members[n];
    var s' := BecomeLeader(m.s, n, Peers(c, n));
    var c1 := With(c, n, m.(s := s', campaign := None));
    var c2 := c1.(h := c1.h.(leaders := c1.h.leaders[s'.term := Election(n, q)],
                             leaderLogs := c1.h.leaderLogs[s'.term := s'.log]));
    Acknowledge(c2, n, s'.term, Last(s'.log))
  }

  function DoPropose(c: Cluster, n: NodeId, cmd: Command): Cluster
    requires n in c.members && c.members[n].s.log != []
  {
    var m := c.members[n];
    var s' := Handlers.Propose(m.s, n, cmd);
    var c1 := With(c, n, m.(s := s'));
    var c2 := c1.(h := c1.h.(leaderLogs := c1.h.leaderLogs[s'.term := s'.log]));
    Acknowledge(c2, n, s'.term, Last(s'.log))
  }

  function DoAppend(c: Cluster, n: NodeId, args: AppendArgs, heard: bool): Cluster
    requires n in c.members && Contiguous(c.members[n].s.log) && Follows(args.prevLogIndex, args.entries)
    requires heard ==> (args.leader, n) in c.calls
  {
    var m := c.members[n];
    var (s', reply) := HandleAppendEntries(m.s, args);
    var c1 := With(c, n, m.(s := s'));
    if !heard then c1
    else
      var c2 := if reply.success then Acknowledge(c1, n, args.term, args.prevLogIndex + |args.entries|) else c1;
      Reply(c2, args.leader, n, Appended(reply))
  }

  function DoAppendAns(c: Cluster, n: NodeId, from: NodeId): Cluster
    requires n in c.members && c.members[n].s.log != [] && (n, from) in c.calls
    requires Full(c.members[n].s.log) && c.members[n].floor < |c.members[n].s.log|
    requires c.calls[(n, from)].request.AppendReq? && c.calls[(n, from)].answer.Some?
    requires c.calls[(n, from)].answer.value.Appended?
  {
    var m, call := c.members[n], c.calls[(n, from)];
    var s' := HandleAppendReply(Image(m), from, call.request.args, call.answer.value.reply);
    EndCall(With(c, n, m.(s := s'.(log := m.s.log))), n, from)
  }

  /** The cached snapshot, under the present term. */
  function SnapshotFor(m: Member, n: NodeId, to: NodeId): Message
    requires m.cache.Some? && m.cache.value.index < |m.s.log|
  {
    var k := m.cache.value.index;
    SnapReq(to, SnapshotArgs(m.s.term, n, k, m.cache.value.term), m.s.log[..k + 1])
  }

  function DoSnapAns(c: Cluster, n: NodeId, from: NodeId): Cluster
    requires n in c.members && (n, from) in c.calls
    requires c.calls[(n, from)].request.SnapReq? && c.calls[(n, from)].answer.Some?
    requires c.calls[(n, from)].answer.value.Installed?
  {
    var m, call := c.members[n], c.calls[(n, from)];
    EndCall(With(c, n, m.(s := HandleSnapshotReply(m.s, from, call.request.snap, call.answer.value.done))), n, from)
  }

  function DoCommit(c: Cluster, n: NodeId): Cluster
    requires n in c.members && Contiguous(c.members[n].s.log)
  {
    var m := c.members[n];
    var s' := Handlers.AdvanceCommit(m.s, Peers(c, n));
    var c1 := With(c, n, m.(s := s'));
    if s'.commit == m.s.commit then c1
    else
      var q := (set p | p in Peers(c, n) && Get(m.s.matchIndex, p) >= s'.commit) + {n};
      c1.(h := c1.h.(commits := c1.h.commits + {Commit(s'.term, s'.commit, q)}))
  }

  function DoSnapshot(c: Cluster, n: NodeId, snap: SnapshotArgs, prefix: Log, restored: bool, heard: bool): Cluster
    requires n in c.members && c.members[n].s.log != [] && prefix != []
    requires heard ==> (snap.leader, n) in c.calls
  {
    var m := c.members[n];
    var m' := InstallFull(m, snap, prefix);
    var c1 := With(c, n, m');
    if !heard then c1
    else
      var success := snap.term >= m.s.term && (InstallsSnapshot(m, snap) ==> restored);
      var c2 := if success then Acknowledge(c1, n, snap.term, snap.lastIndex) else c1;
      Reply(c2, snap.leader, n, Installed(SnapshotReply(m'.s.term, success)))
  }

  /** One turn of the apply loop up to the state machine's Apply, raft/node.go:833-858, on the
      log as it is in memory. */
  function DoApply(c: Cluster, n: NodeId): Cluster
    requires n in c.members && Full(c.members[n].s.log) && c.members[n].floor < |c.members[n].s.log|
  {
    var m := c.members[n];
    var next := m.s.applied + 1;
    match EntryAt(Image(m).log, next)
    case None =>
      if next <= m.floor then With(c, n, m.(s := m.s.(applied := m.floor))) else c
    case Some(entry) =>
      var c1 := With(c, n, m.(pending := Some(next)));
      if entry.command == Nil then c1
      else c1.(h := c1.h.(applied := c1.h.applied + {Applied(n, next, entry)}))
  }

  function Init(ids: set<NodeId>): Cluster {
    var s := NodeState(0, None, [DUMMY], Follower, 0, 0, map[], map[]);
    Cluster(
      map n | n in ids :: Member(s, 0, None, None, None, None),
      {},
      map[],
      History({}, map[], map[], map[0 := [DUMMY]], map n: NodeId | n in ids :: (n, 0) := 0,
              {Commit(0, 0, ids)}, {}))
  }

  // --- The places where the code is weaker than its claim ---

  /** raft/node.go:315-319 does not recheck that the term is still the campaign's. */
  predicate WinInTerm(m: Member) {
    m.campaign == Some(m.s.term)
  }

  /** raft/node.go:601-605 and 674-678 forget the vote of a non-follower within its term. That
      is harmless for a vote cast for oneself. */
  predicate ForgetsVote(s: NodeState, self: NodeId, term: nat) {
    term == s.term && s.role != Follower && s.votedFor.Some? && s.votedFor.value != self
  }

  /** raft/node.go:688 compares a snapshot only with the first index, so that one below the commit
      index moves the commit index and lastApplied back. */
  predicate MovesBack(m: Member, a: SnapshotArgs) {
    InstallsSnapshot(m, a) && a.lastIndex < m.s.commit
  }

  /** Doing so it may leave behind an entry that is being applied, or the label of a TakeSnapshot in
      progress, which the node then records although they are beyond its commit index. */
  predicate LeavesBehind(m: Member, a: SnapshotArgs) {
    && InstallsSnapshot(m, a)
    && ((m.pending.Some? && a.lastIndex < m.pending.value)
        || (m.capture.Some? && a.lastIndex < m.capture.value.index))
  }

  predicate Guarded(c: Cluster, a: Action)
    requires WellFormed(c) && Enabled(c, a)
  {
    var m := c.members[a.n];
    match a
    case Win(n, q) => WinInTerm(m)
    case HandleAppend(n, args, heard) => !ForgetsVote(m.s, n, args.term)
    case HandleSnapshot(n, snap, prefix, restored, heard) =>
      !ForgetsVote(m.s, n, snap.term) && !LeavesBehind(m, snap)
    case _ => true
  }

  /** The step does not install a snapshot below the commit index. */
  predicate Forward(c: Cluster, a: Action) {
    a.HandleSnapshot? && a.n in c.members ==> !MovesBack(c.members[a.n], a.snap)
  }
}
