/** How a leader brings a lagging peer up to date: one-step back-off, and snapshots for peers below
    its floor (raft/node.go:405-486 and 734-781).

    `lead` and `log` are the full logs of the leader and the peer, of which the floors `fl` and
    `fp` upwards are in memory. */
module CatchUp {
  import opened RaftTypes
  import opened LogStore
  import opened Handlers
  import opened Compaction

  /** The states of the leader and the peer, as they are in memory. */
  datatype Pair = Pair(leader: NodeState, peer: NodeState)

  ghost predicate Facing(x: Pair, p: NodeId, lead: Log, fl: nat, log: Log, fp: nat) {
    && x.leader.role == Leader && x.peer.term <= x.leader.term
    && Full(lead) && fl < |lead| && x.leader.log == Compacted(lead, fl)
    && Full(log) && fp < |log| && x.peer.log == Compacted(log, fp)
    && Matching(log, lead) && Agree(log, lead, fp)
    && fl < Get(x.leader.nextIndex, p) <= |lead|
  }

  predicate InMemory(x: Pair) {
    && Contiguous(x.leader.log) && Contiguous(x.peer.log)
  }

  /** The request sendAppend makes for the peer, when it is not below the floor. */
  function Request(x: Pair, self: NodeId, p: NodeId): AppendArgs
    requires InMemory(x) && Get(x.leader.nextIndex, p) > First(x.leader.log)
  {
    AppendFor(x.leader, self, Get(x.leader.nextIndex, p))
  }

  predicate CanAsk(x: Pair, self: NodeId, p: NodeId) {
    && InMemory(x) && Get(x.leader.nextIndex, p) > First(x.leader.log)
    && Follows(Request(x, self, p).prevLogIndex, Request(x, self, p).entries)
  }

  /** The peer's answer to sendAppend. */
  function Answer(x: Pair, self: NodeId, p: NodeId): AppendReply
    requires CanAsk(x, self, p)
  {
    HandleAppendEntries(x.peer, Request(x, self, p)).1
  }

  /** One sendAppend with its reply. */
  function Round(x: Pair, self: NodeId, p: NodeId): Pair
    requires CanAsk(x, self, p)
  {
    var a := Request(x, self, p);
    var (peer', reply) := HandleAppendEntries(x.peer, a);
    Pair(HandleAppendReply(x.leader, p, a, reply), peer')
  }

  lemma AsksFor(x: Pair, self: NodeId, p: NodeId, lead: Log, fl: nat, log: Log, fp: nat)
    requires Facing(x, p, lead, fl, log, fp)
    ensures CanAsk(x, self, p) && First(x.leader.log) == fl && First(x.peer.log) == fp
    ensures var next, a := Get(x.leader.nextIndex, p), Request(x, self, p);
            && a.prevLogIndex == next - 1 && a.prevLogTerm == lead[next - 1].term && a.term == x.leader.term
            && a.entries == lead[next..] && SentFrom(lead, next - 1, a.entries)
  {
    hide Compacted, AppendFor, SentFrom, Follows, Contiguous, Agree, Matching;
    var next, s := Get(x.leader.nextIndex, p), x.leader.(log := lead);
    assert s.(log := Compacted(lead, fl)) == x.leader;
    MemoryRequest(s, fl, self, next, x.leader);
    FullRequest(s, self, next);
    FollowsSent(lead, next - 1, AppendFor(s, self, next).entries);
    CompactedShape(log, fp);
  }

  lemma MemoryRequest(s: NodeState, fl: nat, self: NodeId, next: nat, img: NodeState)
    requires Full(s.log) && fl < next <= |s.log| && img == s.(log := Compacted(s.log, fl))
    ensures Contiguous(img.log) && First(img.log) == fl && AppendFor(img, self, next) == AppendFor(s, self, next)
  {
    hide Compacted, AppendFor;
    CompactedShape(s.log, fl);
    AppendForTransparent(s, fl, self, next);
  }

  lemma FullRequest(s: NodeState, self: NodeId, next: nat)
    requires Full(s.log) && 0 < next <= |s.log|
    ensures var a := AppendFor(s, self, next);
            && a.prevLogIndex == next - 1 && a.prevLogTerm == s.log[next - 1].term && a.term == s.term
            && a.entries == s.log[next..] && SentFrom(s.log, next - 1, a.entries)
  {
  }

  lemma FollowsSent(lead: Log, prev: nat, entries: seq<LogEntry>)
    requires SentFrom(lead, prev, entries)
    ensures Follows(prev, entries)
  {
  }

  /** The request carries the leader's log from `prevLogIndex` to its end. */
  predicate RestOf(lead: Log, a: AppendArgs) {
    && SentFrom(lead, a.prevLogIndex, a.entries)
    && a.prevLogIndex + |a.entries| + 1 == |lead| && lead[a.prevLogIndex].term == a.prevLogTerm
  }

  lemma ConsistentIffAgree(log: Log, lead: Log, a: AppendArgs)
    requires Full(log) && Full(lead) && Matching(log, lead) && RestOf(lead, a)
    ensures Consistent(log, a) <==> Agree(log, lead, a.prevLogIndex)
  {
  }

  /** The peer's log once it has handled a request: its own, or the leader's. */
  function Caught(log: Log, lead: Log, prev: nat): Log
    requires lead != []
  {
    if Agree(log, lead, prev) && !Agree(log, lead, |lead| - 1) then lead else log
  }

  lemma FullAnswer(s: NodeState, lead: Log, a: AppendArgs)
    requires Full(s.log) && Full(lead) && Matching(s.log, lead) && RestOf(lead, a) && a.term >= s.term
    ensures HandleAppendEntries(s, a).1 == AppendReply(a.term, Agree(s.log, lead, a.prevLogIndex))
    ensures HandleAppendEntries(s, a).0.log == Caught(s.log, lead, a.prevLogIndex)
    ensures HandleAppendEntries(s, a).0.term == a.term
  {
    hide Merge, Matching, Consistent, Agree, Contiguous, Follows, RestOf;
    ConsistentIffAgree(s.log, lead, a);
    if Agree(s.log, lead, a.prevLogIndex) {
      MergeRest(s.log, lead, a);
    }
  }

  lemma MergeRest(log: Log, lead: Log, a: AppendArgs)
    requires Full(log) && Full(lead) && Matching(log, lead) && RestOf(lead, a) && Agree(log, lead, a.prevLogIndex)
    ensures a.prevLogIndex <= Last(log)
    ensures Merge(log, a.prevLogIndex, a.entries, |a.entries|) == Caught(log, lead, a.prevLogIndex)
  {
    MergeClosedForm(log, lead, a.prevLogIndex, a.entries, |a.entries|);
    assert lead[..|lead|] == lead;
    hide Merge, Matching, Contiguous, Agree;
  }

  lemma AnswerIs(x: Pair, self: NodeId, p: NodeId, lead: Log, fl: nat, log: Log, fp: nat)
    requires Facing(x, p, lead, fl, log, fp) && CanAsk(x, self, p)
    ensures var prev := Get(x.leader.nextIndex, p) - 1;
            && Answer(x, self, p) == AppendReply(x.leader.term, Agree(log, lead, prev))
            && Full(Caught(log, lead, prev)) && fp < |Caught(log, lead, prev)|
            && Round(x, self, p).peer.log == Compacted(Caught(log, lead, prev), fp)
            && Round(x, self, p).peer.term == x.leader.term
  {
    AsksFor(x, self, p, lead, fl, log, fp);
    var a, s := Request(x, self, p), x.peer.(log := log);
    AgreesBelowFloor(lead, log, fp, a);
    AppendTransparent(s, fp, a);
    FullAnswer(s, lead, a);
    assert s.(log := Compacted(log, fp)) == x.peer;
    hide Facing, Compacted, HandleAppendEntries, Contiguous, Follows, SentFrom, AgreesBelow, AppendFor, Caught, Agree,
      InMemory;
  }

  lemma AgreesBelowFloor(lead: Log, log: Log, fp: nat, a: AppendArgs)
    requires Agree(log, lead, fp) && SentFrom(lead, a.prevLogIndex, a.entries) &&
             lead[a.prevLogIndex].term == a.prevLogTerm
    ensures AgreesBelow(log, fp, a.prevLogIndex, a.entries)
    ensures a.prevLogIndex <= fp ==> log[a.prevLogIndex].term == a.prevLogTerm
  {
  }

  lemma RoundRejected(x: Pair, self: NodeId, p: NodeId, lead: Log, fl: nat, log: Log, fp: nat)
    requires Facing(x, p, lead, fl, log, fp) && !Agree(log, lead, Get(x.leader.nextIndex, p) - 1)
    ensures CanAsk(x, self, p) && !Answer(x, self, p).success
    ensures var y, next := Round(x, self, p), Get(x.leader.nextIndex, p);
            && Facing(y, p, lead, fl, log, fp) && y.leader.log == x.leader.log
            && Get(y.leader.nextIndex, p) == (if next > fl + 1 then next - 1 else next)
  {
    AsksFor(x, self, p, lead, fl, log, fp);
    AnswerIs(x, self, p, lead, fl, log, fp);
    hide Compacted, HandleAppendEntries, Contiguous, Follows, SentFrom, AppendFor, Agree, Matching;
  }

  /** `y` is what the exchange leads to: the peer holds the leader's whole log, and the leader
      knows. */
  ghost predicate CaughtUp(y: Pair, p: NodeId, lead: Log, fp: nat) {
    && lead != [] && Get(y.leader.matchIndex, p) >= |lead| - 1 && Get(y.leader.nextIndex, p) >= |lead|
    && exists full: Log ::
         Full(full) && fp < |full| && y.peer.log == Compacted(full, fp) && Agree(full, lead, |lead| - 1)
  }

  lemma RoundAccepted(x: Pair, self: NodeId, p: NodeId, lead: Log, fl: nat, log: Log, fp: nat)
    requires Facing(x, p, lead, fl, log, fp) && Agree(log, lead, Get(x.leader.nextIndex, p) - 1)
    ensures CanAsk(x, self, p) && Answer(x, self, p).success && CaughtUp(Round(x, self, p), p, lead, fp)
  {
    AsksFor(x, self, p, lead, fl, log, fp);
    AnswerIs(x, self, p, lead, fl, log, fp);
    var full := Caught(log, lead, Get(x.leader.nextIndex, p) - 1);
    assert Agree(full, lead, |lead| - 1);
    hide Compacted, HandleAppendEntries, Contiguous, Follows, SentFrom, AppendFor, Agree, Matching, Caught;
  }

  /** `k` rounds, one after the other. */
  function Rounds(x: Pair, self: NodeId, p: NodeId, k: nat): Pair
    decreases k
  {
    if k == 0 then x
    else if CanAsk(x, self, p) then Rounds(Round(x, self, p), self, p, k - 1)
    else x
  }

  predicate Accepts(x: Pair, self: NodeId, p: NodeId) {
    CanAsk(x, self, p) && Answer(x, self, p).success
  }

  /** `m` is the last index up to which the two logs agree. */
  ghost predicate AgreeUpTo(log: Log, lead: Log, m: nat) {
    Agree(log, lead, m) && forall j :: m < j ==> !Agree(log, lead, j)
  }

  /** The rejections it takes from the peer's next index down to the last index of agreement. */
  function Distance(x: Pair, p: NodeId, m: nat): nat {
    if Get(x.leader.nextIndex, p) > m + 1 then Get(x.leader.nextIndex, p) - m - 1 else 0
  }

  /** Back-off: if the logs agree at the leader's floor, the append is rejected once for each index
      between the peer's next index and the last index of agreement, then accepted, and that one
      exchange leaves the peer with the leader's whole log. */
  lemma {:induction false} BackOff(x: Pair, self: NodeId, p: NodeId, lead: Log, fl: nat, log: Log, fp: nat, m: nat)
    requires Facing(x, p, lead, fl, log, fp) && AgreeUpTo(log, lead, m) && fl <= m
    ensures var d := Distance(x, p, m);
            && d <= Get(x.leader.nextIndex, p) - fl - 1
            && (forall k :: 0 <= k < d ==> !Accepts(Rounds(x, self, p, k), self, p))
            && Accepts(Rounds(x, self, p, d), self, p)
            && CaughtUp(Rounds(x, self, p, d + 1), p, lead, fp)
    decreases Distance(x, p, m)
  {
    hide Facing, CaughtUp, Answer, CanAsk, Round, Agree;
    var d, next := Distance(x, p, m), Get(x.leader.nextIndex, p);
    FacingNext(x, p, lead, fl, log, fp);
    if d == 0 {
      AgreeShorter(log, lead, m, next - 1);
      RoundAccepted(x, self, p, lead, fl, log, fp);
      assert Rounds(x, self, p, 1) == Rounds(Round(x, self, p), self, p, 0);
    } else {
      RoundRejected(x, self, p, lead, fl, log, fp);
      var y := Round(x, self, p);
      BackOff(y, self, p, lead, fl, log, fp, m);
      forall k | 0 <= k < d
        ensures !Accepts(Rounds(x, self, p, k), self, p)
      {
        if k > 0 {
          assert Rounds(x, self, p, k) == Rounds(y, self, p, k - 1);
        }
      }
    }
  }

  lemma FacingNext(x: Pair, p: NodeId, lead: Log, fl: nat, log: Log, fp: nat)
    requires Facing(x, p, lead, fl, log, fp)
    ensures fl < Get(x.leader.nextIndex, p) <= |lead| && fl < |lead|
  {
  }

  /** Otherwise the next index stops above the floor and every further append is rejected. */
  lemma {:induction false} Stuck(x: Pair, self: NodeId, p: NodeId, lead: Log, fl: nat, log: Log, fp: nat, k: nat)
    requires Facing(x, p, lead, fl, log, fp) && !Agree(log, lead, fl)
    ensures !Accepts(Rounds(x, self, p, k), self, p)
    decreases k
  {
    hide Facing, Answer, CanAsk, Round, Agree;
    FacingNext(x, p, lead, fl, log, fp);
    AgreeShorter(log, lead, Get(x.leader.nextIndex, p) - 1, fl);
    RoundRejected(x, self, p, lead, fl, log, fp);
    if k > 0 {
      Stuck(Round(x, self, p), self, p, lead, fl, log, fp, k - 1);
    }
  }

  lemma {:induction false} LastAgreement(log: Log, lead: Log, k: nat) returns (m: nat)
    requires Agree(log, lead, k)
    ensures k <= m && AgreeUpTo(log, lead, m)
    decreases |lead| - k
  {
    if Agree(log, lead, k + 1) {
      m := LastAgreement(log, lead, k + 1);
    } else {
      m := k;
      forall j | m < j
        ensures !Agree(log, lead, j)
      {
        AgreeShorter(log, lead, j, k + 1);
      }
    }
  }

  /** raft/node.go:476 never moves the next index below the floor, so back-off alone reaches
      exactly the peers that hold the leader's floor entry. */
  lemma BackOffExact(x: Pair, self: NodeId, p: NodeId, lead: Log, fl: nat, log: Log, fp: nat)
    requires Facing(x, p, lead, fl, log, fp)
    ensures (exists k: nat :: Accepts(Rounds(x, self, p, k), self, p)) <==> fl < |log| && log[fl].term == lead[fl].term
  {
    assert Agree(log, lead, fl) <==> fl < |log| && log[fl].term == lead[fl].term by {
      if Agree(log, lead, fl) {
        AgreeWeaken(log, lead, fl, fl);
      }
    }
    hide Facing, Accepts, Rounds, Agree;
    if Agree(log, lead, fl) {
      var m := LastAgreement(log, lead, fl);
      BackOff(x, self, p, lead, fl, log, fp, m);
    } else {
      forall k: nat
        ensures !Accepts(Rounds(x, self, p, k), self, p)
      {
        Stuck(x, self, p, lead, fl, log, fp, k);
      }
    }
  }

  // --- Snapshots for peers below the floor ---

  ghost predicate Below(x: Pair, p: NodeId, lead: Log, fl: nat, log: Log, fp: nat) {
    && x.leader.role == Leader && x.peer.term <= x.leader.term
    && Full(lead) && fl < |lead| && x.leader.log == Compacted(lead, fl)
    && Full(log) && fp < |log| && x.peer.log == Compacted(log, fp)
    && Matching(log, lead) && Agree(log, lead, fp)
    && Get(x.leader.nextIndex, p) <= fl
  }

  /** The snapshot of the leader's log up to `k`. */
  function SnapshotAt(x: Pair, self: NodeId, lead: Log, k: nat): SnapshotArgs
    requires k < |lead|
  {
    SnapshotArgs(x.leader.term, self, k, lead[k].term)
  }

  /** One sendInstallSnapshot with its reply. */
  function SnapshotRound(x: Pair, p: NodeId, snap: SnapshotArgs, restored: bool): Pair
    requires InMemory(x)
  {
    var (peer', reply) := HandleInstallSnapshot(x.peer, snap, restored);
    Pair(HandleSnapshotReply(x.leader, p, snap, reply), peer')
  }

  /** The peer's log after the snapshot. */
  function Snapped(log: Log, fp: nat, lead: Log, k: nat): (Log, nat)
    requires k < |lead|
  {
    if k <= fp && fp > 0 then (log, fp) else (lead[..k + 1], k)
  }

  lemma PrefixFaces(lead: Log, k: nat)
    requires Full(lead) && 0 < k < |lead|
    ensures Full(lead[..k + 1]) && Matching(lead[..k + 1], lead) && Agree(lead[..k + 1], lead, k)
    ensures Compacted(lead[..k + 1], k) == [LogEntry(lead[k].term, k, Nil)]
  {
  }

  lemma SnapshotFaces(x: Pair, self: NodeId, p: NodeId, lead: Log, fl: nat, log: Log, fp: nat)
    requires Below(x, p, lead, fl, log, fp) && 0 < fl
    ensures InMemory(x)
    ensures var (log', fp') := Snapped(log, fp, lead, fl);
            && Facing(SnapshotRound(x, p, SnapshotAt(x, self, lead, fl), true), p, lead, fl, log', fp')
            && Agree(log', lead, fl)
    ensures Get(SnapshotRound(x, p, SnapshotAt(x, self, lead, fl), true).leader.nextIndex, p) == fl + 1
  {
    CompactedShape(lead, fl);
    CompactedShape(log, fp);
    PrefixFaces(lead, fl);
    AgreeShorter(log, lead, fp, if fl <= fp then fl else fp);
    hide Compacted, Contiguous, Agree, Matching;
  }

  /** Snapshot catch-up: a peer below the floor is sent the cached snapshot; if that reaches the
      floor, the very next append is accepted and leaves the peer with the leader's whole log. */
  lemma SnapshotCatchUp(x: Pair, self: NodeId, p: NodeId, lead: Log, fl: nat, log: Log, fp: nat)
    requires Below(x, p, lead, fl, log, fp) && 0 < fl
    ensures InMemory(x) && PrepareAppend(x.leader, self, p, true).1 == ShipSnapshot
    ensures var y := SnapshotRound(x, p, SnapshotAt(x, self, lead, fl), true);
            && CanAsk(y, self, p)
            && PrepareAppend(y.leader, self, p, true).1 == ShipEntries(Request(y, self, p))
            && Accepts(y, self, p) && CaughtUp(Round(y, self, p), p, lead, Snapped(log, fp, lead, fl).1)
  {
    SnapshotFaces(x, self, p, lead, fl, log, fp);
    var y := SnapshotRound(x, p, SnapshotAt(x, self, lead, fl), true);
    var (log', fp') := Snapped(log, fp, lead, fl);
    RoundAccepted(y, self, p, lead, fl, log', fp');
    AsksFor(y, self, p, lead, fl, log', fp');
    assert y.leader.role == Leader;
    BelowShips(x, self, p, lead, fl, log, fp);
    hide Below, Facing, CaughtUp, Round, Answer, CanAsk, SnapshotRound, Snapped, HandleAppendEntries, AppendFor;
  }

  lemma BelowShips(x: Pair, self: NodeId, p: NodeId, lead: Log, fl: nat, log: Log, fp: nat)
    requires Below(x, p, lead, fl, log, fp)
    ensures InMemory(x) && PrepareAppend(x.leader, self, p, true).1 == ShipSnapshot
  {
  }

  // --- A cached snapshot that stops below the floor ---

  /** `n` shipments of the same snapshot with their replies. */
  function Shipments(x: Pair, p: NodeId, snap: SnapshotArgs, n: nat): Pair
    requires InMemory(x)
    decreases n
  {
    if n == 0 then x
    else
      var y := SnapshotRound(x, p, snap, true);
      if InMemory(y) then Shipments(y, p, snap, n - 1) else y
  }

  /** The leader's next request to the peer is a snapshot. */
  predicate Ships(x: Pair, self: NodeId, p: NodeId) {
    InMemory(x) && PrepareAppend(x.leader, self, p, true).1 == ShipSnapshot
  }

  /** The leader is in the term of the snapshot and the peer is below its floor. */
  predicate Lags(x: Pair, p: NodeId, snap: SnapshotArgs) {
    && InMemory(x) && x.leader.role == Leader && snap.term == x.leader.term && x.peer.term <= x.leader.term
    && Get(x.leader.nextIndex, p) <= First(x.leader.log)
  }

  lemma ShipmentLags(x: Pair, p: NodeId, snap: SnapshotArgs)
    requires Lags(x, p, snap)
    ensures var y := SnapshotRound(x, p, snap, true);
            && InMemory(y) && y.leader.log == x.leader.log
            && if snap.lastIndex < First(x.leader.log) then Lags(y, p, snap)
               else Get(y.leader.nextIndex, p) > First(x.leader.log)
  {
  }

  lemma {:induction false} StaleForever(x: Pair, self: NodeId, p: NodeId, snap: SnapshotArgs, n: nat)
    requires Lags(x, p, snap) && snap.lastIndex < First(x.leader.log)
    ensures Lags(Shipments(x, p, snap, n), p, snap)
    decreases n
  {
    if n > 0 {
      ShipmentLags(x, p, snap);
      hide SnapshotRound;
      StaleForever(SnapshotRound(x, p, snap, true), self, p, snap, n - 1);
    }
  }

  /** A snapshot that stops below the floor is accepted and shipped again for ever; exactly one that
      reaches the floor gets the peer back to appends. `CatchUpRuns.ShipsToFloor` shows that a
      leader never has to ship one that stops below. */
  lemma CacheMustReachFloor(x: Pair, self: NodeId, p: NodeId, snap: SnapshotArgs)
    requires Lags(x, p, snap)
    ensures (forall n: nat :: Ships(Shipments(x, p, snap, n), self, p)) <==> snap.lastIndex < First(x.leader.log)
  {
    if snap.lastIndex < First(x.leader.log) {
      forall n: nat
        ensures Ships(Shipments(x, p, snap, n), self, p)
      {
        StaleForever(x, self, p, snap, n);
      }
    } else {
      ShipmentLags(x, p, snap);
      hide SnapshotRound;
      assert Shipments(x, p, snap, 1) == SnapshotRound(x, p, snap, true);
      assert !Ships(Shipments(x, p, snap, 1), self, p);
    }
  }

  /** raft/node.go:688-691 answers a repeated snapshot with success although the first Restore of
      its data failed. */
  lemma FailedRestoreIsMasked(s: NodeState, a: SnapshotArgs)
    requires s.log != [] && Installs(s, a) && 0 < a.lastIndex
    ensures var (s1, r1) := HandleInstallSnapshot(s, a, false);
            var (s2, r2) := HandleInstallSnapshot(s1, a, false);
            !r1.success && r2.success && s2 == s1
  {
  }

  /** A snapshot is answered with success exactly if its term is not stale and its data was restored
      or is not needed; what that says of the state machine is in `ReplicaRuns.RepeatTruthful`. */
  lemma SuccessExact(s: NodeState, a: SnapshotArgs, restored: bool)
    requires s.log != []
    ensures HandleInstallSnapshot(s, a, restored).1.success <==> s.term <= a.term && (Installs(s, a) ==> restored)
  {
  }
}
