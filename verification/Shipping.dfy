/** What holds of the calls between a leader and its peers and of the snapshots it ships: no
    snapshot that can still be installed takes anything from a peer that the leader, or a later
    one, counts on. */
module Shipping {
  import opened RaftTypes
  import opened LogStore
  import opened Handlers
  import opened Cluster
  import opened Invariant
  import opened Evolution

  // --- How far back an index reaches ---

  /** Every entry of an earlier term in the log of the leader of term t is at `k` or below. */
  ghost predicate CoversOld(h: History, t: nat, k: nat) {
    t in h.leaderLogs && forall i: nat :: i < |h.leaderLogs[t]| && h.leaderLogs[t][i].term < t ==> i <= k
  }

  /** Every entry of an earlier term that `x` has acknowledged, and that can still commit, is at `k`
      or below. */
  ghost predicate OwesUpTo(c: Cluster, x: NodeId, t: nat, k: nat) {
    forall u: nat, j: nat :: u < t && OwnEntry(c.h, u, j) && HasAcked(c.h, x, u, j) ==> j <= k || Blocked(c, u, j)
  }

  /** `k` reaches all that member `x` owes to leaders before term t. */
  ghost predicate Reaches(c: Cluster, x: NodeId, t: nat, k: nat) {
    CoversOld(c.h, t, k) || (x in c.members && t <= c.members[x].s.term && OwesUpTo(c, x, t, k))
  }

  ghost predicate AcksUpTo(h: History, x: NodeId, t: nat, k: nat) {
    (x, t) in h.acked ==> h.acked[(x, t)] <= k
  }

  // --- Snapshots on their way ---

  /** If the snapshot can still be installed, it reaches everything `to` owes. */
  ghost predicate SnapSafe(c: Cluster, to: NodeId, a: SnapshotArgs) {
    && to in c.members && Reaches(c, to, a.term, a.lastIndex)
    && (AcksUpTo(c.h, to, a.term, a.lastIndex) || a.lastIndex <= c.members[to].floor)
  }

  ghost predicate SnapsSafe(c: Cluster) {
    forall msg :: msg in c.net && msg.SnapReq? ==> SnapSafe(c, msg.to, msg.snap)
  }

  /** All snapshots sent to `p` in term t satisfy the bound. */
  ghost predicate SentBelow(net: set<Message>, p: NodeId, t: nat, bound: nat) {
    forall msg :: msg in net && msg.SnapReq? && msg.to == p && msg.snap.term == t ==> msg.snap.lastIndex <= bound
  }

  /** A snapshot sent to `p` in term t that `next` has passed is covered by the floor of `p`. */
  ghost predicate PassedCovered(net: set<Message>, p: NodeId, t: nat, next: nat, floor: nat) {
    forall msg :: msg in net && msg.SnapReq? && msg.to == p && msg.snap.term == t && msg.snap.lastIndex < next ==>
      msg.snap.lastIndex <= floor
  }

  // --- Calls in progress ---

  /** The index that a successful answer acknowledges. */
  function Claim(msg: Message): nat {
    match msg
    case VoteReq(_) => 0
    case AppendReq(_, a) => a.prevLogIndex + |a.entries|
    case SnapReq(_, a, _) => a.lastIndex
  }

  function CallerOf(msg: Message): NodeId {
    match msg
    case VoteReq(v) => v.candidate
    case AppendReq(_, a) => a.leader
    case SnapReq(_, a, _) => a.leader
  }

  predicate Granted(ans: Answer) {
    match ans
    case Appended(r) => r.success
    case Installed(r) => r.success
  }

  ghost predicate RequestOf(c: Cluster, n: NodeId, p: NodeId, msg: Message) {
    && msg in c.net && n != p && p in c.members && n in c.members
    && !msg.VoteReq? && msg.to == p && CallerOf(msg) == n
  }

  /** What an answer says is so. A rejected append is above everything the peer owes. */
  ghost predicate AnswerOk(c: Cluster, p: NodeId, msg: Message, ans: Answer) {
    && (Granted(ans) ==> HasAcked(c.h, p, TermOf(msg), Claim(msg)))
    && match msg
       case VoteReq(_) => false
       case AppendReq(_, a) =>
         && ans.Appended?
         && (!ans.reply.success && ans.reply.term <= a.term ==> Refused(c, p, a))
       case SnapReq(_, a, _) =>
         && ans.Installed? && p in c.members
         && (ans.done.success ==> a.lastIndex <= c.members[p].floor)
  }

  ghost predicate Refused(c: Cluster, p: NodeId, a: AppendArgs) {
    && 0 < a.prevLogIndex && AcksUpTo(c.h, p, a.term, a.prevLogIndex - 1)
    && Reaches(c, p, a.term, a.prevLogIndex - 1)
  }

  ghost predicate CallOk(c: Cluster, n: NodeId, p: NodeId)
    requires (n, p) in c.calls
  {
    var call := c.calls[(n, p)];
    RequestOf(c, n, p, call.request) && (call.answer.Some? ==> AnswerOk(c, p, call.request, call.answer.value))
  }

  ghost predicate CallsOk(c: Cluster) {
    forall n: NodeId, p: NodeId :: (n, p) in c.calls ==> CallOk(c, n, p)
  }

  // --- What a leader knows of its peers ---

  /** The call of term t from `n` to `p`, if there is one. */
  predicate CallIn(c: Cluster, n: NodeId, p: NodeId, t: nat) {
    (n, p) in c.calls && TermOf(c.calls[(n, p)].request) == t
  }

  /** The index the leader is about to learn from the answer that has arrived. */
  function Heard(c: Cluster, n: NodeId, p: NodeId, t: nat): nat {
    if CallIn(c, n, p, t) && c.calls[(n, p)].answer.Some? && Granted(c.calls[(n, p)].answer.value)
    then Claim(c.calls[(n, p)].request) else 0
  }

  /** An append starts at the peer's next index, beyond all snapshots sent; a snapshot in progress
      is the last one sent. */
  ghost predicate InTurn(c: Cluster, n: NodeId, p: NodeId, t: nat, next: nat) {
    CallIn(c, n, p, t) ==>
      match c.calls[(n, p)].request
      case VoteReq(_) => false
      case AppendReq(_, a) => a.prevLogIndex + 1 == next && SentBelow(c.net, p, t, a.prevLogIndex)
      case SnapReq(_, a, _) => next <= a.lastIndex && SentBelow(c.net, p, t, a.lastIndex)
  }

  ghost predicate PeerOk(c: Cluster, n: NodeId, p: NodeId)
    requires n in c.members && p in c.members
  {
    var m := c.members[n];
    var t, next, matched := m.s.term, Get(m.s.nextIndex, p), Get(m.s.matchIndex, p);
    && matched < next <= |m.s.log| && Reaches(c, p, t, next - 1)
    && SentBelow(c.net, p, t, m.floor) && PassedCovered(c.net, p, t, next, c.members[p].floor)
    && AcksUpTo(c.h, p, t, Max(matched, Heard(c, n, p, t)))
    && InTurn(c, n, p, t, next)
    && ShipsFloor(m, next)
  }

  /** A peer below the floor can be shipped a snapshot that reaches the floor. That a TakeSnapshot
      in progress is older than the floor can only be while no peer is below it. */
  ghost predicate ShipsFloor(m: Member, next: nat) {
    && (next <= m.floor ==> m.cache.Some? && m.cache.value.index == m.floor)
    && (m.capture.Some? && m.capture.value.index < m.floor ==> m.floor < next)
  }

  ghost predicate PeersOk(c: Cluster) {
    forall n, p :: n in c.members && c.members[n].s.role == Leader && p in Peers(c, n) ==> PeerOk(c, n, p)
  }

  // --- Labels ---

  /** A label is committed, with the term that the log has there. */
  ghost predicate LabelOk(s: NodeState, l: Option<Label>) {
    l.Some? ==> 0 < l.value.index <= s.commit < |s.log| && s.log[l.value.index].term == l.value.term
  }

  ghost predicate LabelsOk(c: Cluster) {
    forall n :: n in c.members ==>
      var m := c.members[n];
      LabelOk(m.s, m.capture) && LabelOk(m.s, m.cache) && (m.floor > 0 ==> m.cache.Some?)
  }

  ghost predicate Ship(c: Cluster) {
    SnapsSafe(c) && CallsOk(c) && PeersOk(c) && LabelsOk(c)
  }

  // --- What survives every step ---

  /** Only entries of its own term are added to the log of a leader. */
  ghost predicate OwnGrowth(h: History, h2: History) {
    forall t, i: nat :: t in h.leaderLogs && t in h2.leaderLogs && |h.leaderLogs[t]| <= i < |h2.leaderLogs[t]| ==>
      h2.leaderLogs[t][i].term == t
  }

  lemma CoversStays(c: Cluster, c2: Cluster, t: nat, k: nat)
    requires CoversOld(c.h, t, k) && LogsGrow(c.h, c2.h) && OwnGrowth(c.h, c2.h)
    ensures CoversOld(c2.h, t, k)
  {
  }

  lemma OwesStays(c: Cluster, c2: Cluster, x: NodeId, t: nat, k: nat)
    requires x in c.members && t <= c.members[x].s.term && OwesUpTo(c, x, t, k)
    requires AcksOk(c) && Evolves(c, c2)
    ensures OwesUpTo(c2, x, t, k)
  {
    forall u: nat, j: nat | u < t && OwnEntry(c2.h, u, j) && HasAcked(c2.h, x, u, j)
      ensures j <= k || Blocked(c2, u, j)
    {
      assert HasAcked(c.h, x, u, j) && AckOk(c, x, u);
      if Blocked(c, u, j) {
        BlockedGrows(c, c2, u, j);
      }
    }
  }

  lemma ReachesStays(c: Cluster, c2: Cluster, x: NodeId, t: nat, k: nat)
    requires Reaches(c, x, t, k) && AcksOk(c) && Evolves(c, c2) && OwnGrowth(c.h, c2.h)
    ensures Reaches(c2, x, t, k)
  {
    if CoversOld(c.h, t, k) {
      CoversStays(c, c2, t, k);
    } else {
      OwesStays(c, c2, x, t, k);
    }
  }

  lemma ReachesFurther(c: Cluster, x: NodeId, t: nat, k: nat, j: nat)
    requires Reaches(c, x, t, k) && k <= j
    ensures Reaches(c, x, t, j)
  {
  }

  /** Whichever way `k` reaches, it reaches what `x` owes. */
  lemma ReachesOwed(c: Cluster, x: NodeId, t: nat, k: nat)
    requires Reaches(c, x, t, k) && LeadersKept(c)
    ensures OwesUpTo(c, x, t, k)
  {
    if CoversOld(c.h, t, k) {
      forall u: nat, j: nat | u < t && OwnEntry(c.h, u, j) && !Blocked(c, u, j)
        ensures j <= k
      {
        assert LeaderKeeps(c, t, c.h.leaderLogs[t]);
        AgreeWeaken(c.h.leaderLogs[t], c.h.leaderLogs[u], j, j);
      }
    }
  }
}
