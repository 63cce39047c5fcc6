/** The inductive invariant of the cluster and the facts that survive any step. */
module Invariant {
  import opened RaftTypes
  import opened LogStore
  import opened Cluster

  // --- Logs and the logs of leaders ---

  /** Every prefix of the log is a prefix of the log of the leader its last entry comes from. */
  ghost predicate Traced(h: History, log: Log) {
    forall i: nat :: i < |log| ==>
      log[i].term in h.leaderLogs && Agree(log, h.leaderLogs[log[i].term], i)
  }

  ghost predicate LogOk(h: History, log: Log) {
    Full(log) && TermsSorted(log) && Traced(h, log)
  }

  /** Entry `k` of `log` was committed by a leader of term at most `t`. */
  ghost predicate CommittedIn(h: History, log: Log, k: nat, t: nat) {
    exists e :: e in h.commits && e.term <= t && k <= e.index && CommitMatches(h, e, log, k)
  }

  ghost predicate CommitMatches(h: History, e: Commit, log: Log, k: nat) {
    e.term in h.leaderLogs && Agree(log, h.leaderLogs[e.term], k)
  }

  // --- Votes ---

  /** The voter still remembers the vote, or has moved to a later term. */
  ghost predicate Held(c: Cluster, v: Vote) {
    && v.voter in c.members
    && var s := c.members[v.voter].s;
       v.term < s.term || (v.term == s.term && s.votedFor == Some(v.candidate))
  }

  ghost predicate VoteOk(c: Cluster, v: Vote) {
    && v.voter in c.members && 0 < v.term <= c.members[v.voter].s.term
    && (v.candidate, v.term) in c.h.campaigns
    && (Held(c, v)
        || (v.voter == v.candidate && v.term in c.h.leaders && c.h.leaders[v.term].leader != v.voter))
  }

  /** A member of the quorum that elected a leader has cast no other vote in that term. */
  ghost predicate SingleVote(c: Cluster, v: Vote, w: Vote) {
    v.voter == w.voter && v.term == w.term && v.candidate != w.candidate ==>
      v.term in c.h.leaders && v.voter !in c.h.leaders[v.term].quorum
  }

  ghost predicate VotesOk(c: Cluster) {
    && (forall v :: v in c.h.votes ==> VoteOk(c, v))
    && (forall v, w :: v in c.h.votes && w in c.h.votes ==> SingleVote(c, v, w))
  }

  ghost predicate ElectionOk(c: Cluster, t: nat) {
    && t in c.h.leaders && 0 < t
    && Majority(c, c.h.leaders[t].quorum)
    && (c.h.leaders[t].leader, t) in c.h.campaigns
    && forall x :: x in c.h.leaders[t].quorum ==> Vote(x, t, c.h.leaders[t].leader) in c.h.votes
  }

  ghost predicate ElectionsOk(c: Cluster) {
    && 0 in c.h.leaderLogs && c.h.leaderLogs[0] == [DUMMY]
    && (forall t :: t in c.h.leaderLogs ==> t == 0 || t in c.h.leaders)
    && (forall t :: t in c.h.leaders ==> t in c.h.leaderLogs && ElectionOk(c, t))
  }

  ghost predicate LeaderLogsOk(c: Cluster) {
    forall t :: t in c.h.leaderLogs ==> LogOk(c.h, c.h.leaderLogs[t]) && LastTerm(c.h.leaderLogs[t]) <= t
  }

  // --- Campaigns and members ---

  ghost predicate CampaignOk(c: Cluster, x: NodeId, t: nat)
    requires (x, t) in c.h.campaigns
  {
    && x in c.members && t <= c.members[x].s.term
    && LogOk(c.h, c.h.campaigns[(x, t)]) && LastTerm(c.h.campaigns[(x, t)]) < t
  }

  ghost predicate CampaignsOk(c: Cluster) {
    forall x: NodeId, t: nat :: (x, t) in c.h.campaigns ==> CampaignOk(c, x, t)
  }

  /** The campaign a member is running is its latest, has not been won yet, and unless somebody
      else won the term it stands for the member's present log. */
  ghost predicate RunningOk(c: Cluster, n: NodeId, m: Member) {
    m.campaign.Some? ==>
      && (n, m.campaign.value) in c.h.campaigns
      && (forall t :: (n, t) in c.h.campaigns ==> t <= m.campaign.value)
      && (m.campaign.value in c.h.leaders ==> c.h.leaders[m.campaign.value].leader != n)
      && (m.campaign.value == m.s.term && m.s.term !in c.h.leaders ==>
            m.s.log == c.h.campaigns[(n, m.s.term)])
  }

  ghost predicate LeaderOk(c: Cluster, n: NodeId, s: NodeState) {
    s.role == Leader ==>
      && s.term in c.h.leaders && c.h.leaders[s.term].leader == n && s.term in c.h.leaderLogs
      && s.log == c.h.leaderLogs[s.term]
      && s.log != [] && HasAcked(c.h, n, s.term, |s.log| - 1)
      && forall p :: p in s.matchIndex && p != n ==> s.matchIndex[p] == 0 || HasAcked(c.h, p, s.term, s.matchIndex[p])
  }

  ghost predicate MemberOk(c: Cluster, n: NodeId)
    requires n in c.members
  {
    var m := c.members[n];
    && LogOk(c.h, m.s.log) && LastTerm(m.s.log) <= m.s.term
    && CommittedIn(c.h, m.s.log, m.s.commit, m.s.term)
    && m.s.applied <= m.s.commit && m.floor <= m.s.commit
    && (m.pending.Some? ==> m.pending.value <= m.s.commit)
    && (m.s.votedFor.Some? ==> Vote(n, m.s.term, m.s.votedFor.value) in c.h.votes)
    && RunningOk(c, n, m)
    && LeaderOk(c, n, m.s)
  }

  ghost predicate MembersOk(c: Cluster) {
    c.members.Keys != {} && forall n :: n in c.members ==> MemberOk(c, n)
  }

  // --- Messages ---

  ghost predicate FromLeader(c: Cluster, t: nat, leader: NodeId, to: NodeId) {
    && t in c.h.leaders && t in c.h.leaderLogs && c.h.leaders[t].leader == leader
    && to in c.members && to != leader
  }

  ghost predicate AppendOk(c: Cluster, to: NodeId, a: AppendArgs) {
    && FromLeader(c, a.term, a.leader, to)
    && var lead := c.h.leaderLogs[a.term];
       && SentFrom(lead, a.prevLogIndex, a.entries)
       && lead[a.prevLogIndex].term == a.prevLogTerm
       && CommittedIn(c.h, lead, a.leaderCommit, a.term)
  }

  ghost predicate SnapOk(c: Cluster, to: NodeId, a: SnapshotArgs, prefix: Log) {
    && FromLeader(c, a.term, a.leader, to)
    && var lead := c.h.leaderLogs[a.term];
       && 0 < a.lastIndex < |lead| && prefix == lead[..a.lastIndex + 1] && lead[a.lastIndex].term == a.lastTerm
       && CommittedIn(c.h, lead, a.lastIndex, a.term)
  }

  ghost predicate MessageOk(c: Cluster, msg: Message) {
    match msg
    case VoteReq(v) =>
      && (v.candidate, v.term) in c.h.campaigns
      && var log := c.h.campaigns[(v.candidate, v.term)];
         log != [] && v.lastLogIndex == |log| - 1 && v.lastLogTerm == LastTerm(log)
    case AppendReq(to, a) => AppendOk(c, to, a)
    case SnapReq(to, a, prefix) => SnapOk(c, to, a, prefix)
  }

  ghost predicate NetOk(c: Cluster) {
    forall msg :: msg in c.net ==> MessageOk(c, msg)
  }

  // --- Acknowledgements and commitment ---

  ghost predicate HasAcked(h: History, x: NodeId, t: nat, k: nat) {
    (x, t) in h.acked && k <= h.acked[(x, t)]
  }

  /** Match soundness: as long as `x` stays in term t its log agrees with that of the leader up
      to what it has acknowledged. */
  ghost predicate AckOk(c: Cluster, x: NodeId, t: nat)
    requires (x, t) in c.h.acked
  {
    && x in c.members && t in c.h.leaderLogs && t <= c.members[x].s.term
    && c.h.acked[(x, t)] < |c.h.leaderLogs[t]|
    && (c.members[x].s.term == t ==> Agree(c.members[x].s.log, c.h.leaderLogs[t], c.h.acked[(x, t)]))
  }

  ghost predicate AcksOk(c: Cluster) {
    forall x: NodeId, t: nat :: (x, t) in c.h.acked ==> AckOk(c, x, t)
  }

  /** Index k of the leader of term t holds an entry of its own term. */
  ghost predicate OwnEntry(h: History, t: nat, k: nat) {
    t in h.leaderLogs && k < |h.leaderLogs[t]| && h.leaderLogs[t][k].term == t
  }

  ghost predicate BlockedBy(c: Cluster, t: nat, k: nat, q: set<NodeId>) {
    Majority(c, q) && forall x :: x in q ==> c.members[x].s.term > t && !HasAcked(c.h, x, t, k)
  }

  /** A majority has left term t without acknowledging index k, so no majority ever will. */
  ghost predicate Blocked(c: Cluster, t: nat, k: nat) {
    exists q :: BlockedBy(c, t, k, q)
  }

  ghost predicate KeptIn(c: Cluster, t: nat, k: nat, log: Log)
    requires t in c.h.leaderLogs
  {
    Agree(log, c.h.leaderLogs[t], k) || Blocked(c, t, k)
  }

  /** `log` holds every entry of a term before `bound` that `x` has acknowledged to the leader
      of that term, unless the entry can no longer commit. */
  ghost predicate Keeps(c: Cluster, x: NodeId, bound: nat, log: Log) {
    forall t: nat, k: nat :: t < bound && OwnEntry(c.h, t, k) && HasAcked(c.h, x, t, k) ==> KeptIn(c, t, k, log)
  }

  /** A member keeps what it acknowledged. */
  ghost predicate AckedKept(c: Cluster) {
    forall x :: x in c.members ==> Keeps(c, x, c.members[x].s.term + 1, c.members[x].s.log)
  }

  /** A candidate holds what its voters had acknowledged. */
  ghost predicate VotedKept(c: Cluster) {
    forall v :: v in c.h.votes ==>
      (v.candidate, v.term) in c.h.campaigns && Keeps(c, v.voter, v.term, c.h.campaigns[(v.candidate, v.term)])
  }

  ghost predicate LeaderKeeps(c: Cluster, bound: nat, log: Log) {
    forall t: nat, k: nat :: t < bound && OwnEntry(c.h, t, k) ==> KeptIn(c, t, k, log)
  }

  /** The leader of a later term holds every entry that can still commit in an earlier one. */
  ghost predicate LeadersKept(c: Cluster) {
    forall t :: t in c.h.leaderLogs ==> LeaderKeeps(c, t, c.h.leaderLogs[t])
  }

  ghost predicate CommitOk(c: Cluster, e: Commit) {
    && OwnEntry(c.h, e.term, e.index) && Majority(c, e.quorum)
    && forall x :: x in e.quorum ==> HasAcked(c.h, x, e.term, e.index)
  }

  ghost predicate CommitsOk(c: Cluster) {
    forall e :: e in c.h.commits ==> CommitOk(c, e)
  }

  ghost predicate AppliedOk(c: Cluster) {
    forall a :: a in c.h.applied ==> AppliedEntryOk(c, a)
  }

  ghost predicate AppliedEntryOk(c: Cluster, a: Applied) {
    exists e :: e in c.h.commits && a.index <= e.index && e.term in c.h.leaderLogs
             && a.index < |c.h.leaderLogs[e.term]| && c.h.leaderLogs[e.term][a.index] == a.entry
  }

  ghost predicate Inv(c: Cluster) {
    && LeaderLogsOk(c) && ElectionsOk(c) && CampaignsOk(c) && MembersOk(c)
    && VotesOk(c) && NetOk(c)
    && AcksOk(c) && AckedKept(c) && VotedKept(c) && LeadersKept(c)
    && CommitsOk(c) && AppliedOk(c)
  }
}
