/** The effect of each critical section of raft/node.go on the fields its mutex protects.

    The functions work on logs with any floor. `RaftNode.Node` is proved against them, and the
    cluster model is built from them. */
module Handlers {
  import opened RaftTypes
  import opened LogStore

  function Get(m: map<NodeId, nat>, p: NodeId): nat {
    if p in m then m[p] else 0
  }

  /** Adopt `term` with no vote cast, as a follower. */
  function BecomeFollower(s: NodeState, term: nat): NodeState {
    s.(term := term, votedFor := None, role := Follower)
  }

  /** runCandidate, raft/node.go:237-242. The role is left as it is. */
  function StartElection(s: NodeState, self: NodeId): NodeState {
    s.(term := s.term + 1, votedFor := Some(self))
  }

  function VoteRequest(s: NodeState, self: NodeId): VoteArgs
    requires s.log != []
  {
    VoteArgs(s.term, self, Last(s.log), LastTerm(s.log))
  }

  predicate UpToDate(a: VoteArgs, log: Log)
    requires log != []
  {
    a.lastLogTerm > LastTerm(log) || (a.lastLogTerm == LastTerm(log) && a.lastLogIndex >= Last(log))
  }

  function HandleRequestVote(s: NodeState, a: VoteArgs): (NodeState, VoteReply)
    requires s.log != []
  {
    var s1 := if a.term > s.term then BecomeFollower(s, a.term) else s;
    if a.term < s1.term then (s1, VoteReply(s1.term, false))
    else if s1.votedFor.Some? && s1.votedFor.value != a.candidate then (s1, VoteReply(s1.term, false))
    else if !UpToDate(a, s1.log) then (s1, VoteReply(s1.term, false))
    else (s1.(votedFor := Some(a.candidate)), VoteReply(s1.term, true))
  }

  /** Every peer has the value `v`. */
  function Uniform(peers: set<NodeId>, v: nat): map<NodeId, nat> {
    map p | p in peers :: v
  }

  /** becoming leader, raft/node.go:317-318 and 964-977. */
  function BecomeLeader(s: NodeState, self: NodeId, peers: set<NodeId>): NodeState
    requires s.log != []
  {
    s.(role := Leader,
       nextIndex := Uniform(peers, Last(s.log) + 1),
       matchIndex := Uniform(peers, 0)[self := Last(s.log)])
  }

  function Propose(s: NodeState, self: NodeId, cmd: Command): NodeState
    requires s.log != []
  {
    if s.role != Leader then s
    else
      var entry := LogEntry(s.term, Last(s.log) + 1, cmd);
      s.(log := s.log + [entry], matchIndex := s.matchIndex[self := entry.index])
  }

  /** The request sendAppend builds for the given next index, raft/node.go:427-437. */
  function AppendFor(s: NodeState, self: NodeId, next: nat): AppendArgs
    requires Contiguous(s.log) && next > First(s.log)
  {
    AppendArgs(s.term, self, next - 1, TermAt(s.log, next - 1), EntriesFrom(s.log, next), s.commit)
  }

  /** What sendAppend does for a peer: nothing, ship the snapshot instead, or ship entries. */
  datatype Plan = Idle | ShipSnapshot | ShipEntries(args: AppendArgs)

  /** sendAppend before the RPC, raft/node.go:408-438. */
  function PrepareAppend(s: NodeState, self: NodeId, peer: NodeId, cached: bool): (NodeState, Plan)
    requires Contiguous(s.log)
  {
    var next := Get(s.nextIndex, peer);
    if s.role != Leader then (s, Idle)
    else if next > First(s.log) then (s, ShipEntries(AppendFor(s, self, next)))
    else if cached then (s, ShipSnapshot)
    else
      var s' := s.(nextIndex := s.nextIndex[peer := First(s.log) + 1]);
      (s', ShipEntries(AppendFor(s', self, First(s.log) + 1)))
  }

  function Min(a: nat, b: nat): nat {
    if a < b then a else b
  }

  function Max(a: nat, b: nat): nat {
    if a < b then b else a
  }

  /** A leader of the request's term or later is recognised, raft/node.go:601-605. */
  function Recognise(s: NodeState, term: nat): NodeState {
    if term > s.term || s.role != Follower then BecomeFollower(s, term) else s
  }

  /** Raise the pointer kept for `p` to `v`; it never moves down. */
  function Raise(m: map<NodeId, nat>, p: NodeId, v: nat): map<NodeId, nat> {
    if v > Get(m, p) then m[p := v] else m
  }

  predicate Consistent(log: Log, a: AppendArgs)
    requires Contiguous(log)
  {
    && a.prevLogIndex <= Last(log)
    && (a.prevLogIndex < First(log) || TermAt(log, a.prevLogIndex) == a.prevLogTerm)
  }

  function HandleAppendEntries(s: NodeState, a: AppendArgs): (NodeState, AppendReply)
    requires Contiguous(s.log) && Follows(a.prevLogIndex, a.entries)
  {
    if a.term < s.term then (s, AppendReply(s.term, false))
    else
      var s1 := Recognise(s, a.term);
      if !Consistent(s1.log, a) then (s1, AppendReply(s1.term, false))
      else
        var log' := Merge(s1.log, a.prevLogIndex, a.entries, |a.entries|);
        var commit' := Max(s1.commit, Min(a.leaderCommit, a.prevLogIndex + |a.entries|));
        (s1.(log := log', commit := commit'), AppendReply(s1.term, true))
  }

  /** sendAppend after the reply, raft/node.go:448-486, without the commit scan. */
  function HandleAppendReply(s: NodeState, peer: NodeId, a: AppendArgs, r: AppendReply): NodeState
    requires s.log != []
  {
    if r.term > s.term then BecomeFollower(s, r.term)
    else if s.role != Leader || s.term != a.term then s
    else if r.success then
      var newMatch := a.prevLogIndex + |a.entries|;
      s.(matchIndex := Raise(s.matchIndex, peer, newMatch), nextIndex := Raise(s.nextIndex, peer, newMatch + 1))
    else if Get(s.nextIndex, peer) > First(s.log) + 1 then
      s.(nextIndex := s.nextIndex[peer := Get(s.nextIndex, peer) - 1])
    else s
  }

  /** Replicas counted for index `n`: the leader and every peer whose match reaches `n`. */
  function Replicas(s: NodeState, peers: set<NodeId>, n: nat): nat {
    1 + |set p | p in peers && Get(s.matchIndex, p) >= n|
  }

  /** The condition under which the scan commits index `n`. */
  predicate Committable(s: NodeState, peers: set<NodeId>, n: nat)
    requires Contiguous(s.log)
  {
    && First(s.log) <= n <= Last(s.log)
    && TermAt(s.log, n) == s.term
    && Replicas(s, peers, n) >= (|peers| + 1) / 2 + 1
  }

  /** The commit index after maybeAdvanceCommitLocked: the greatest committable index above the
      current one, if there is any. */
  function CommitScan(s: NodeState, peers: set<NodeId>, n: nat): (r: nat)
    requires Contiguous(s.log)
    ensures r == s.commit || (s.commit < r <= n && Committable(s, peers, r))
    ensures forall k :: Max(r, s.commit) < k <= n ==> !Committable(s, peers, k)
  {
    if n <= s.commit then s.commit
    else if Committable(s, peers, n) then n
    else CommitScan(s, peers, n - 1)
  }

  function AdvanceCommit(s: NodeState, peers: set<NodeId>): NodeState
    requires Contiguous(s.log)
  {
    s.(commit := CommitScan(s, peers, Last(s.log)))
  }

  predicate Installs(s: NodeState, a: SnapshotArgs)
    requires s.log != []
  {
    a.term >= s.term && !(a.lastIndex <= First(s.log) && First(s.log) > 0)
  }

  /** HandleInstallSnapshot. `restored` is the outcome of the state machine's Restore. */
  function HandleInstallSnapshot(s: NodeState, a: SnapshotArgs, restored: bool): (NodeState, SnapshotReply)
    requires s.log != []
  {
    if a.term < s.term then (s, SnapshotReply(s.term, false))
    else
      var s1 := Recognise(s, a.term);
      if a.lastIndex <= First(s1.log) && First(s1.log) > 0 then (s1, SnapshotReply(s1.term, true))
      else
        (s1.(log := [LogEntry(a.lastTerm, a.lastIndex, Nil)], commit := a.lastIndex, applied := a.lastIndex),
         SnapshotReply(s1.term, restored))
  }

  /** sendInstallSnapshot after the reply, raft/node.go:760-779, without the commit scan. */
  function HandleSnapshotReply(s: NodeState, peer: NodeId, a: SnapshotArgs, r: SnapshotReply): NodeState {
    if r.term > s.term then BecomeFollower(s, r.term)
    else if !r.success || s.role != Leader || s.term != a.term then s
    else
      s.(matchIndex := Raise(s.matchIndex, peer, a.lastIndex), nextIndex := Raise(s.nextIndex, peer, a.lastIndex + 1))
  }

  /** The apply loop picks the entry to apply next, raft/node.go:834-848, or jumps to the floor if
      a snapshot has overtaken it. */
  function PickEntry(s: NodeState): (NodeState, Option<LogEntry>)
    requires Contiguous(s.log)
  {
    var next := s.applied + 1;
    if next > s.commit then (s, None)
    else
      match EntryAt(s.log, next)
      case Some(e) => (s, Some(e))
      case None => (if next <= First(s.log) then s.(applied := First(s.log)) else s, None)
  }
}
