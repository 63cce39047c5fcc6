/** One Raft node (raft/node.go, raft/snapshot.go): its fields, and a method for each critical
    section, proved against the functions of `Handlers` and `Waiters`. */
module RaftNode {
  import opened RaftTypes
  import opened LogStore
  import opened Waiters
  import Handlers

  /** How often a peer that is known to have reached index `n` is on the list. */
  function Tally(matched: map<NodeId, nat>, ps: seq<NodeId>, n: nat): nat {
    if ps == [] then 0
    else
      var k := |ps| - 1;
      Tally(matched, ps[..k], n) + if Handlers.Get(matched, ps[k]) >= n then 1 else 0
  }

  /** The condition of the commit scan, for a list of peers that may name one twice. */
  predicate Carried(s: NodeState, ps: seq<NodeId>, n: nat)
    requires Contiguous(s.log)
  {
    First(s.log) <= n <= Last(s.log) && TermAt(s.log, n) == s.term &&
        1 + Tally(s.matchIndex, ps, n) >= (|ps| + 1) / 2 + 1
  }

  /** The greatest index up to `n` and above the commit index that is carried, or the commit index. */
  function Scan(s: NodeState, ps: seq<NodeId>, n: nat): (r: nat)
    requires Contiguous(s.log)
    ensures r == s.commit || (s.commit < r <= n && Carried(s, ps, r))
    ensures forall k :: Handlers.Max(r, s.commit) < k <= n ==> !Carried(s, ps, k)
  {
    if n <= s.commit then s.commit
    else if Carried(s, ps, n) then n
    else Scan(s, ps, n - 1)
  }

  function Advanced(s: NodeState, ps: seq<NodeId>): NodeState
    requires Contiguous(s.log)
  {
    s.(commit := Scan(s, ps, Last(s.log)))
  }

  predicate Distinct(ps: seq<NodeId>) {
    forall i, j :: 0 <= i < j < |ps| ==> ps[i] != ps[j]
  }

  function Members(ps: seq<NodeId>): set<NodeId> {
    set p | p in ps
  }

  lemma {:induction false} MembersSize(ps: seq<NodeId>)
    requires Distinct(ps)
    ensures |Members(ps)| == |ps|
  {
    if ps != [] {
      var k := |ps| - 1;
      MembersSize(ps[..k]);
      assert Members(ps) == Members(ps[..k]) + {ps[k]};
    }
  }

  /** The map has the keys `ps` and the value `v` for each. */
  ghost predicate AllAre(m: map<NodeId, nat>, ps: seq<NodeId>, v: nat) {
    m.Keys == Members(ps) && forall p :: p in m ==> m[p] == v
  }

  lemma AllAreNext(m: map<NodeId, nat>, ps: seq<NodeId>, k: nat, v: nat)
    requires k < |ps| && AllAre(m, ps[..k], v)
    ensures AllAre(m[ps[k] := v], ps[..k + 1], v)
  {
  }

  lemma AllAreUniform(m: map<NodeId, nat>, ps: seq<NodeId>, v: nat)
    requires AllAre(m, ps, v)
    ensures m == Handlers.Uniform(Members(ps), v)
  {
  }

  /** The peers among `ps` that are known to have reached index `n`. */
  function Reached(matched: map<NodeId, nat>, ps: seq<NodeId>, n: nat): set<NodeId> {
    set p | p in ps && Handlers.Get(matched, p) >= n
  }

  lemma ReachedStep(matched: map<NodeId, nat>, ps: seq<NodeId>, n: nat, k: nat)
    requires Distinct(ps) && k < |ps|
    ensures |Reached(matched, ps[..k + 1], n)| ==
            |Reached(matched, ps[..k], n)| + if Handlers.Get(matched, ps[k]) >= n then 1 else 0
  {
    var before := Reached(matched, ps[..k], n);
    var all := Reached(matched, ps[..k + 1], n);
    assert ps[..k + 1] == ps[..k] + [ps[k]];
    assert ps[k] !in before;
    if Handlers.Get(matched, ps[k]) >= n {
      assert all == before + {ps[k]};
    } else {
      assert all == before;
    }
  }

  /** If no peer is listed twice, the tally counts members. */
  lemma {:induction false} TallyIsReplicas(matched: map<NodeId, nat>, ps: seq<NodeId>, n: nat)
    requires Distinct(ps)
    ensures Tally(matched, ps, n) == |Reached(matched, ps, n)|
  {
    if ps != [] {
      var k := |ps| - 1;
      TallyIsReplicas(matched, ps[..k], n);
      ReachedStep(matched, ps, n, k);
      assert ps[..k + 1] == ps;
    }
  }

  lemma ReplicasReached(s: NodeState, ps: seq<NodeId>, n: nat)
    ensures Handlers.Replicas(s, Members(ps), n) == 1 + |Reached(s.matchIndex, ps, n)|
  {
    assert Reached(s.matchIndex, ps, n) == set p | p in Members(ps) && Handlers.Get(s.matchIndex, p) >= n;
  }

  lemma {:induction false} ScanIsCommitScan(s: NodeState, ps: seq<NodeId>, n: nat)
    requires Contiguous(s.log) && Distinct(ps)
    ensures Scan(s, ps, n) == Handlers.CommitScan(s, Members(ps), n)
  {
    MembersSize(ps);
    if n > s.commit {
      TallyIsReplicas(s.matchIndex, ps, n);
      ReplicasReached(s, ps, n);
      hide Tally, Handlers.Replicas;
      ScanIsCommitScan(s, ps, n - 1);
    }
  }

  /** If no peer is listed twice, the node commits what a majority of the cluster stores. */
  lemma AdvancedIsMajority(s: NodeState, ps: seq<NodeId>)
    requires Contiguous(s.log) && Distinct(ps)
    ensures Advanced(s, ps) == Handlers.AdvanceCommit(s, Members(ps))
  {
    ScanIsCommitScan(s, ps, Last(s.log));
  }

  class Node {
    const id: NodeId
    const peers: seq<NodeId>
    var currentTerm: nat
    var votedFor: Option<NodeId>
    var logEntries: Log
    var state: Role
    var commitIndex: nat
    var lastApplied: nat
    var nextIndex: map<NodeId, nat>
    var matchIndex: map<NodeId, nat>
    var commitWaits: map<nat, nat>
    var channels: seq<Channel>
    var lastSnapshot: Option<RaftSnapshot>

    /** What the handlers see of the node. */
    function State(): NodeState
      reads this
    {
      NodeState(currentTerm, votedFor, logEntries, state, commitIndex, lastApplied, nextIndex, matchIndex)
    }

    function Desk(): Book
      reads this
    {
      Book(commitWaits, channels)
    }

    ghost predicate Valid()
      reads this
    {
      logEntries != [] && Contiguous(logEntries) && Tidy(Desk())
    }

    constructor (id: NodeId, peers: seq<NodeId>)
      ensures Valid() && this.id == id && this.peers == peers
      ensures State() == NodeState(0, None, [DUMMY], Follower, 0, 0, map[], map[])
      ensures Desk() == NOBODY && lastSnapshot == None
    {
      this.id := id;
      this.peers := peers;
      currentTerm, votedFor := 0, None;
      state := Follower;
      commitIndex, lastApplied := 0, 0;
      nextIndex, matchIndex := map[], map[];
      commitWaits, channels := map[], [];
      lastSnapshot := None;
      logEntries := [DUMMY];
    }

    // --- Log index helpers ---

    function FirstIndex(): nat
      requires logEntries != []
      reads this
    {
      logEntries[0].index
    }

    function LastIndex(): nat
      requires logEntries != []
      reads this
    {
      logEntries[|logEntries| - 1].index
    }

    method TruncateAt(idx: nat)
      requires Valid()
      modifies this`logEntries
      ensures Valid() && logEntries == LogStore.TruncateAt(old(logEntries), idx)
    {
      if idx <= FirstIndex() {
        return;
      }
      if idx > LastIndex() {
        return;
      }
      logEntries := logEntries[..idx - FirstIndex()];
    }

    method CompactLog(upToIdx: nat, upToTerm: nat)
      requires Valid()
      modifies this`logEntries
      ensures Valid() && logEntries == Compact(old(logEntries), upToIdx, upToTerm)
    {
      if upToIdx <= FirstIndex() {
        return;
      }
      var placeholder := LogEntry(upToTerm, upToIdx, Nil);
      if upToIdx >= LastIndex() {
        logEntries := [placeholder];
        return;
      }
      logEntries := [placeholder] + logEntries[upToIdx - FirstIndex() + 1..];
    }

    method BecomeFollower(term: nat)
      requires Valid()
      modifies this`currentTerm, this`votedFor, this`state
      ensures Valid() && State() == Handlers.BecomeFollower(old(State()), term)
    {
      currentTerm := term;
      votedFor := None;
      state := Follower;
    }

    // --- Elections ---

    /** runFollower when its timer fires, raft/node.go:226-228. */
    method ElectionTimeout()
      requires Valid()
      modifies this`state
      ensures Valid() && State() == old(State()).(role := Candidate)
    {
      state := Candidate;
    }

    /** `won` is the signal that a node without peers gives itself. */
    method StartElection() returns (args: VoteArgs, won: bool)
      requires Valid()
      modifies this`currentTerm, this`votedFor
      ensures Valid() && State() == Handlers.StartElection(old(State()), id)
      ensures args == Handlers.VoteRequest(State(), id)
      ensures won <==> peers == []
    {
      won := 1 >= (|peers| + 1) / 2 + 1;
      currentTerm := currentTerm + 1;
      votedFor := Some(id);
      args := VoteArgs(currentTerm, id, LastIndex(), logEntries[|logEntries| - 1].term);
    }

    /** A reply to a vote request, raft/node.go:278-304. `won` is the signal of a majority among all
        listed nodes. */
    method HandleVoteReply(reply: VoteReply, votes: nat) returns (steppedDown: bool, votes': nat, won: bool)
      requires Valid()
      modifies this`currentTerm, this`votedFor, this`state
      ensures Valid() && steppedDown == (reply.term > old(currentTerm))
      ensures State() == if steppedDown then Handlers.BecomeFollower(old(State()), reply.term) else old(State())
      ensures votes' == if !steppedDown && reply.granted then votes + 1 else votes
      ensures won <==> !steppedDown && reply.granted && 2 * votes' > |peers| + 1
    {
      steppedDown, votes', won := false, votes, false;
      if reply.term > currentTerm {
        BecomeFollower(reply.term);
        steppedDown := true;
        return;
      }
      if reply.granted {
        votes' := votes + 1;
        won := votes' >= (|peers| + 1) / 2 + 1;
      }
    }

    method InitLeaderState()
      requires Valid()
      modifies this`nextIndex, this`matchIndex
      ensures Valid()
      ensures nextIndex == Handlers.Uniform(Members(peers), LastIndex() + 1)
      ensures matchIndex == Handlers.Uniform(Members(peers), 0)[id := LastIndex()]
    {
      var lastIdx := LastIndex();
      var next: map<NodeId, nat>, matched: map<NodeId, nat> := map[], map[];
      var k := 0;
      while k < |peers|
        invariant 0 <= k <= |peers|
        invariant AllAre(next, peers[..k], lastIdx + 1) && AllAre(matched, peers[..k], 0)
      {
        AllAreNext(next, peers, k, lastIdx + 1);
        AllAreNext(matched, peers, k, 0);
        next := next[peers[k] := lastIdx + 1];
        matched := matched[peers[k] := 0];
        k := k + 1;
      }
      assert peers[..k] == peers;
      AllAreUniform(next, peers, lastIdx + 1);
      AllAreUniform(matched, peers, 0);
      nextIndex := next;
      matchIndex := matched[id := lastIdx];
    }

    method BecomeLeader()
      requires Valid()
      modifies this`state, this`nextIndex, this`matchIndex
      ensures Valid() && State() == Handlers.BecomeLeader(old(State()), id, Members(peers))
    {
      state := Leader;
      InitLeaderState();
    }

    method HandleRequestVote(args: VoteArgs) returns (reply: VoteReply)
      requires Valid()
      modifies this`currentTerm, this`votedFor, this`state
      ensures Valid() && (State(), reply) == Handlers.HandleRequestVote(old(State()), args)
    {
      if args.term > currentTerm {
        BecomeFollower(args.term);
      }
      reply := VoteReply(currentTerm, false);
      if args.term < currentTerm {
        return;
      }
      if votedFor.Some? && votedFor.value != args.candidate {
        return;
      }
      var lastIdx, lastTerm := LastIndex(), logEntries[|logEntries| - 1].term;
      var logOk := args.lastLogTerm > lastTerm || (args.lastLogTerm == lastTerm && args.lastLogIndex >= lastIdx);
      if !logOk {
        return;
      }
      votedFor := Some(args.candidate);
      reply := reply.(granted := true);
    }

    // --- Replication ---

    /** One iteration of the append/truncate loop. */
    method PutEntry(idx: nat, e: LogEntry)
      requires Valid() && idx <= LastIndex() + 1 && e.index == idx
      modifies this`logEntries
      ensures Valid() && logEntries == Put(old(logEntries), idx, e)
    {
      PutContiguous(logEntries, idx, e);
      if idx <= FirstIndex() {
        return;
      }
      var existing := EntryAt(logEntries, idx);
      if existing.None? {
        logEntries := logEntries + [e];
      } else if existing.value.term != e.term {
        logEntries := logEntries[..idx - FirstIndex()];
        logEntries := logEntries + [e];
      }
    }

    method AppendEntries(prev: nat, entries: seq<LogEntry>)
      requires Valid() && prev <= LastIndex() && Follows(prev, entries)
      modifies this`logEntries
      ensures Valid() && logEntries == Merge(old(logEntries), prev, entries, |entries|)
    {
      hide Put, Tidy;
      var i := 0;
      while i < |entries|
        invariant 0 <= i <= |entries| && Valid()
        invariant logEntries == Merge(old(logEntries), prev, entries, i)
      {
        PutEntry(prev + 1 + i, entries[i]);
        i := i + 1;
      }
    }

    /** The request indices follow prevLogIndex in every request that a leader sends. */
    method HandleAppendEntries(args: AppendArgs) returns (reply: AppendReply)
      requires Valid() && Follows(args.prevLogIndex, args.entries)
      modifies this`currentTerm, this`votedFor, this`state, this`logEntries, this`commitIndex
      ensures Valid() && (State(), reply) == Handlers.HandleAppendEntries(old(State()), args)
    {
      hide Merge, Tidy, Contiguous, Follows;
      reply := AppendReply(currentTerm, false);
      if args.term < currentTerm {
        return;
      }
      if args.term > currentTerm || state != Follower {
        BecomeFollower(args.term);
      }
      reply := reply.(term := currentTerm);
      if args.prevLogIndex > LastIndex() {
        return;
      }
      if args.prevLogIndex >= FirstIndex() && TermAt(logEntries, args.prevLogIndex) != args.prevLogTerm {
        return;
      }
      AppendEntries(args.prevLogIndex, args.entries);
      if args.leaderCommit > commitIndex {
        var lastNew := args.prevLogIndex + |args.entries|;
        var newCommit := args.leaderCommit;
        if lastNew < newCommit {
          newCommit := lastNew;
        }
        if newCommit > commitIndex {
          commitIndex := newCommit;
        }
      }
      reply := reply.(success := true);
    }

    /** sendAppend up to the RPC. */
    method PrepareAppend(peer: NodeId) returns (plan: Handlers.Plan)
      requires Valid()
      modifies this`nextIndex
      ensures Valid() && (State(), plan) == Handlers.PrepareAppend(old(State()), id, peer, lastSnapshot.Some?)
    {
      if state != Leader {
        return Handlers.Idle;
      }
      var next := Handlers.Get(nextIndex, peer);
      if next <= FirstIndex() && lastSnapshot.Some? {
        return Handlers.ShipSnapshot;
      }
      if next <= FirstIndex() {
        next := FirstIndex() + 1;
        nextIndex := nextIndex[peer := next];
      }
      var prevIdx := next - 1;
      plan := Handlers.ShipEntries(
        AppendArgs(currentTerm, id, prevIdx, TermAt(logEntries, prevIdx), EntriesFrom(logEntries, next), commitIndex));
    }

    /** The leader itself and every listed peer that has reached index `n`. */
    method CountReplicas(n: nat) returns (count: nat)
      requires Valid()
      ensures count == 1 + Tally(matchIndex, peers, n)
    {
      count := 1;
      var k := 0;
      while k < |peers|
        invariant 0 <= k <= |peers|
        invariant count == 1 + Tally(matchIndex, peers[..k], n)
      {
        assert peers[..k + 1][..k] == peers[..k];
        if Handlers.Get(matchIndex, peers[k]) >= n {
          count := count + 1;
        }
        k := k + 1;
      }
      assert peers[..k] == peers;
    }

    /** The downward scan leaves the commit index at the greatest index that is stored on a
        majority and carries the current term, or where it was. */
    method MaybeAdvanceCommit()
      requires Valid()
      modifies this`commitIndex
      ensures Valid() && State() == Advanced(old(State()), peers)
    {
      ghost var s := State();
      var majority := (|peers| + 1) / 2 + 1;
      var n: nat := LastIndex();
      while n > commitIndex
        invariant State() == s
        invariant Scan(s, peers, Last(s.log)) == Scan(s, peers, n)
      {
        if n < FirstIndex() {
          ScanBelowFirst(s, peers, n);
          return;
        }
        if TermAt(logEntries, n) == currentTerm {
          var count := CountReplicas(n);
          if count >= majority {
            commitIndex := n;
            return;
          }
        }
        n := n - 1;
      }
    }

    method HandleAppendReply(peer: NodeId, args: AppendArgs, reply: AppendReply)
      requires Valid()
      modifies this`currentTerm, this`votedFor, this`state, this`nextIndex, this`matchIndex, this`commitIndex
      ensures Valid()
      ensures State() == LeaderAfterReply(old(State()), peers, peer, args, reply)
    {
      if reply.term > currentTerm {
        BecomeFollower(reply.term);
        return;
      }
      if state != Leader || currentTerm != args.term {
        return;
      }
      if reply.success {
        var newMatch := args.prevLogIndex + |args.entries|;
        if newMatch > Handlers.Get(matchIndex, peer) {
          matchIndex := matchIndex[peer := newMatch];
        }
        if newMatch + 1 > Handlers.Get(nextIndex, peer) {
          nextIndex := nextIndex[peer := newMatch + 1];
        }
        MaybeAdvanceCommit();
      } else if Handlers.Get(nextIndex, peer) > FirstIndex() + 1 {
        nextIndex := nextIndex[peer := Handlers.Get(nextIndex, peer) - 1];
      }
    }

    // --- Snapshots ---

    /** The part under the mutex. If there is anything to restore the code does so afterwards, and
        whatever happens meanwhile it then gives the `InstallAnswer`. */
    method HandleInstallSnapshot(args: SnapshotArgs, data: seq<string>)
      returns (reply: SnapshotReply, toRestore: Option<seq<string>>)
      requires Valid()
      modifies this`currentTerm, this`votedFor, this`state, this`logEntries, this`commitIndex, this`lastApplied
      modifies this`lastSnapshot
      ensures Valid()
      ensures forall restored ::
        (State(), InstallAnswer(reply, toRestore, restored)) ==
            Handlers.HandleInstallSnapshot(old(State()), args, restored)
      ensures toRestore == if old(Handlers.Installs(State(), args)) then Some(data) else None
      ensures lastSnapshot ==
        if toRestore.Some?
        then Some(RaftSnapshot(args.lastIndex, args.lastTerm, currentTerm, votedFor, data))
        else old(lastSnapshot)
    {
      toRestore := None;
      reply := SnapshotReply(currentTerm, false);
      if args.term < currentTerm {
        return;
      }
      if args.term > currentTerm || state != Follower {
        BecomeFollower(args.term);
      }
      reply := reply.(term := currentTerm);
      if args.lastIndex <= FirstIndex() && FirstIndex() > 0 {
        reply := reply.(success := true);
        return;
      }
      logEntries := [LogEntry(args.lastTerm, args.lastIndex, Nil)];
      commitIndex := args.lastIndex;
      lastApplied := args.lastIndex;
      lastSnapshot := Some(RaftSnapshot(args.lastIndex, args.lastTerm, currentTerm, votedFor, data));
      toRestore := Some(data);
    }

    /** sendInstallSnapshot up to the RPC. */
    method PrepareSnapshot() returns (plan: Option<(SnapshotArgs, seq<string>)>)
      requires Valid()
      ensures plan ==
        if state == Leader && lastSnapshot.Some?
        then Some((SnapshotArgs(currentTerm, id, lastSnapshot.value.lastIndex, lastSnapshot.value.lastTerm),
            lastSnapshot.value.data))
        else None
    {
      if state != Leader || lastSnapshot.None? {
        return None;
      }
      var snap := lastSnapshot.value;
      plan := Some((SnapshotArgs(currentTerm, id, snap.lastIndex, snap.lastTerm), snap.data));
    }

    method HandleSnapshotReply(peer: NodeId, args: SnapshotArgs, reply: SnapshotReply)
      requires Valid()
      modifies this`currentTerm, this`votedFor, this`state, this`nextIndex, this`matchIndex, this`commitIndex
      ensures Valid()
      ensures State() == LeaderAfterSnapshot(old(State()), peers, peer, args, reply)
    {
      if reply.term > currentTerm {
        BecomeFollower(reply.term);
        return;
      }
      if !reply.success || state != Leader || currentTerm != args.term {
        return;
      }
      if args.lastIndex > Handlers.Get(matchIndex, peer) {
        matchIndex := matchIndex[peer := args.lastIndex];
      }
      if args.lastIndex + 1 > Handlers.Get(nextIndex, peer) {
        nextIndex := nextIndex[peer := args.lastIndex + 1];
      }
      MaybeAdvanceCommit();
    }

    /** TakeSnapshot, first critical section: the label of the snapshot to take, if any. */
    method CaptureLabel() returns (snap: Option<RaftSnapshot>)
      requires Valid()
      ensures snap.Some? <==> lastApplied > FirstIndex()
      ensures snap.Some? ==>
        snap.value == RaftSnapshot(lastApplied, TermAt(logEntries, lastApplied), currentTerm, votedFor, [])
    {
      if lastApplied <= FirstIndex() {
        return None;
      }
      snap := Some(RaftSnapshot(lastApplied, TermAt(logEntries, lastApplied), currentTerm, votedFor, []));
    }

    /** TakeSnapshot, second critical section, once `snap` has been saved. */
    method FinishSnapshot(snap: RaftSnapshot)
      requires Valid()
      modifies this`logEntries, this`lastSnapshot
      ensures Valid() && State() == old(State()).(log := Compact(old(logEntries), snap.lastIndex, snap.lastTerm))
      ensures lastSnapshot == Some(snap)
    {
      CompactLog(snap.lastIndex, snap.lastTerm);
      lastSnapshot := Some(snap);
    }

    /** RestoreSnapshot, given what the storage returned and the outcome of the state machine's
        Restore. The snapshot is cached only if that succeeds; the fields are set before. */
    method RestoreSnapshot(loaded: Option<RaftSnapshot>, restored: bool) returns (ok: bool)
      requires Valid()
      modifies this`currentTerm, this`votedFor, this`logEntries, this`commitIndex, this`lastApplied, this`lastSnapshot
      ensures Valid() && ok == (loaded.Some? ==> restored)
      ensures lastSnapshot == if loaded.Some? && restored then loaded else old(lastSnapshot)
      ensures loaded.None? ==> State() == old(State())
      ensures loaded.Some? ==>
        var snap := loaded.value;
        State() == old(State()).(
          term := snap.currentTerm, votedFor := snap.votedFor,
          log := [LogEntry(snap.lastTerm, snap.lastIndex, Nil)],
          commit := snap.lastIndex, applied := snap.lastIndex)
    {
      if loaded.None? {
        return true;
      }
      var snap := loaded.value;
      logEntries := [LogEntry(snap.lastTerm, snap.lastIndex, Nil)];
      commitIndex := snap.lastIndex;
      lastApplied := snap.lastIndex;
      currentTerm := snap.currentTerm;
      votedFor := snap.votedFor;
      if !restored {
        return false;
      }
      lastSnapshot := loaded;
      ok := true;
    }

    // --- Propose and apply ---

    /** The number of the channel to wait on, or nothing if the node does not lead. */
    method Propose(cmd: Command) returns (result: Option<nat>)
      requires Valid()
      modifies this`logEntries, this`matchIndex, this`commitIndex, this`commitWaits, this`channels
      ensures Valid()
      ensures result.Some? <==> state == Leader
      ensures result.None? ==> State() == old(State()) && Desk() == old(Desk())
      ensures result.Some? ==>
        && State() == Advanced(Handlers.Propose(old(State()), id, cmd), peers)
        && Desk() == Open(old(Desk()), LastIndex()) && result.value == |old(channels)|
    {
      hide Advanced, Tidy;
      if state != Leader {
        return None;
      }
      var entry := LogEntry(currentTerm, LastIndex() + 1, cmd);
      assert Contiguous(logEntries + [entry]);
      hide Contiguous;
      logEntries := logEntries + [entry];
      matchIndex := matchIndex[id := entry.index];
      OpenTidy(Desk(), entry.index);
      result := Some(|channels|);
      commitWaits := commitWaits[entry.index := |channels|];
      channels := channels + [Channel(entry.index, [], false)];
      MaybeAdvanceCommit();
    }

    /** One turn of the apply loop up to the state machine's Apply. */
    method ApplyBegin() returns (picked: Option<LogEntry>, waiter: Option<nat>)
      requires Valid()
      modifies this`lastApplied, this`commitWaits
      ensures Valid()
      ensures (State(), picked) == Handlers.PickEntry(old(State()))
      ensures (Desk(), waiter) == if picked.Some? then Take(old(Desk()), picked.value.index) else (old(Desk()), None)
      ensures waiter.Some? ==>
        waiter.value < |channels| && channels[waiter.value] == Channel(picked.value.index, [], false)
    {
      picked, waiter := None, None;
      var next := lastApplied + 1;
      if next > commitIndex {
        return;
      }
      picked := EntryAt(logEntries, next);
      if picked.None? {
        if next <= FirstIndex() {
          lastApplied := FirstIndex();
        }
        return;
      }
      TakeTidy(Desk(), next);
      if next in commitWaits {
        waiter := Some(commitWaits[next]);
        commitWaits := commitWaits - {next};
      }
    }

    /** The rest of the turn, after Apply has returned. */
    method ApplyEnd(entry: LogEntry, waiter: Option<nat>)
      requires Valid()
      requires waiter.Some? ==>
        && waiter.value < |channels| && channels[waiter.value] == Channel(entry.index, [], false)
        && !WaitsOn(Desk(), waiter.value)
      modifies this`lastApplied, this`channels
      ensures Valid()
      ensures State() == old(State()).(applied := entry.index)
      ensures Desk() == Deliver(old(Desk()), waiter, ProposeResult(true, entry.index, entry.term))
    {
      DeliverTidy(Desk(), waiter, ProposeResult(true, entry.index, entry.term));
      lastApplied := entry.index;
      if waiter.Some? {
        var ch := Finish(channels[waiter.value], ProposeResult(true, entry.index, entry.term));
        channels := channels[waiter.value := ch];
      }
    }

    method AbortPendingProposals()
      requires Valid()
      modifies this`commitWaits, this`channels
      ensures Valid() && Desk() == Abort(old(Desk()), commitIndex)
    {
      ghost var was := Desk();
      AbortNone(was, commitIndex);
      AbortTidy(was, commitIndex);
      hide AbortBut, Tidy, Contiguous;
      var todo := commitWaits.Keys;
      while todo != {}
        invariant todo <= was.waits.Keys && Desk() == AbortBut(was, commitIndex, todo)
        decreases |todo|
      {
        var idx :| idx in todo;
        AbortNext(was, commitIndex, todo, idx);
        if idx > commitIndex {
          var ch := channels[commitWaits[idx]];
          if ch.sent == [] {
            ch := ch.(sent := ch.sent + [ProposeResult(false, idx, 0)]);
          }
          channels := channels[commitWaits[idx] := ch.(closed := true)];
          commitWaits := commitWaits - {idx};
        }
        todo := todo - {idx};
      }
    }
  }

  /** The reply to a snapshot, once its data has been restored or not. */
  function InstallAnswer(reply: SnapshotReply, toRestore: Option<seq<string>>, restored: bool): SnapshotReply {
    if toRestore.Some? then reply.(success := restored) else reply
  }

  /** Nothing below the first index can be committed by the scan. */
  lemma {:induction false} ScanBelowFirst(s: NodeState, ps: seq<NodeId>, n: nat)
    requires Contiguous(s.log) && n < First(s.log)
    ensures Scan(s, ps, n) == s.commit
  {
  }

  /** A leader's state after the reply to an append, with the commit scan. */
  function LeaderAfterReply(s: NodeState, ps: seq<NodeId>, peer: NodeId, a: AppendArgs, r: AppendReply): NodeState
    requires Contiguous(s.log)
  {
    var s' := Handlers.HandleAppendReply(s, peer, a, r);
    if r.term <= s.term && s.role == Leader && s.term == a.term && r.success then Advanced(s', ps) else s'
  }

  function LeaderAfterSnapshot(s: NodeState, ps: seq<NodeId>, peer: NodeId, a: SnapshotArgs,
      r: SnapshotReply): NodeState
    requires Contiguous(s.log)
  {
    var s' := Handlers.HandleSnapshotReply(s, peer, a, r);
    if r.term <= s.term && s.role == Leader && s.term == a.term && r.success then Advanced(s', ps) else s'
  }
}
