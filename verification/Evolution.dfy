/** Facts that no step undoes: history only grows, terms and commit indices never decrease. */
module Evolution {
  import opened RaftTypes
  import opened LogStore
  import opened Cluster
  import opened Invariant

  ghost predicate LogsGrow(h: History, h2: History) {
    forall t :: t in h.leaderLogs ==> t in h2.leaderLogs && h.leaderLogs[t] <= h2.leaderLogs[t]
  }

  ghost predicate AcksGrow(c: Cluster, c2: Cluster) {
    && (forall x: NodeId, t: nat, k: nat :: HasAcked(c.h, x, t, k) ==> HasAcked(c2.h, x, t, k))
    && (forall x: NodeId, t: nat, k: nat ::
          x in c.members && HasAcked(c2.h, x, t, k) && t < c.members[x].s.term ==> HasAcked(c.h, x, t, k))
  }

  ghost predicate TermsGrow(c: Cluster, c2: Cluster) {
    && c2.members.Keys == c.members.Keys
    && (forall n :: n in c.members ==> c.members[n].s.term <= c2.members[n].s.term)
  }

  ghost predicate Evolves(c: Cluster, c2: Cluster) {
    && TermsGrow(c, c2) && LogsGrow(c.h, c2.h) && AcksGrow(c, c2)
    && c.h.votes <= c2.h.votes && c.h.commits <= c2.h.commits && c.h.applied <= c2.h.applied
    && (forall k :: k in c.h.campaigns ==> k in c2.h.campaigns && c2.h.campaigns[k] == c.h.campaigns[k])
    && (forall t :: t in c.h.leaders ==> t in c2.h.leaders && c2.h.leaders[t] == c.h.leaders[t])
  }

  lemma AgreeExtends(a: Log, b: Log, b2: Log, k: nat)
    requires Agree(a, b, k) && b <= b2
    ensures Agree(a, b2, k)
  {
  }

  lemma TracedGrows(c: Cluster, c2: Cluster, log: Log)
    requires Traced(c.h, log) && LogsGrow(c.h, c2.h)
    ensures Traced(c2.h, log)
  {
  }

  /** A committed prefix stays committed when the log that holds it grows or the bound on the
      term is relaxed. */
  lemma CommittedGrows(c: Cluster, c2: Cluster, log: Log, k: nat, t: nat, log2: Log, t2: nat)
    requires CommittedIn(c.h, log, k, t) && LogsGrow(c.h, c2.h) && c.h.commits <= c2.h.commits
    requires t <= t2 && Agree(log2, log, k)
    ensures CommittedIn(c2.h, log2, k, t2)
  {
  }

  lemma CommittedShorter(h: History, log: Log, k: nat, t: nat, j: nat)
    requires CommittedIn(h, log, k, t) && j <= k
    ensures CommittedIn(h, log, j, t)
  {
  }

  lemma BlockedGrows(c: Cluster, c2: Cluster, t: nat, k: nat)
    requires Blocked(c, t, k) && TermsGrow(c, c2) && AcksGrow(c, c2)
    ensures Blocked(c2, t, k)
  {
    var q :| BlockedBy(c, t, k, q);
    assert |c.members| == |c.members.Keys| && |c2.members| == |c2.members.Keys|;
    assert BlockedBy(c2, t, k, q);
  }

  lemma KeptGrows(c: Cluster, c2: Cluster, t: nat, k: nat, log: Log, log2: Log)
    requires t in c.h.leaderLogs && KeptIn(c, t, k, log) && Evolves(c, c2)
    requires log <= log2
    ensures KeptIn(c2, t, k, log2)
  {
    if Blocked(c, t, k) {
      BlockedGrows(c, c2, t, k);
    } else {
      AgreeExtends(log, c.h.leaderLogs[t], c2.h.leaderLogs[t], k);
      assert log2[..k + 1] == log[..k + 1];
    }
  }

  lemma SentStays(lead: Log, lead2: Log, prev: nat, entries: seq<LogEntry>)
    requires SentFrom(lead, prev, entries) && lead <= lead2
    ensures SentFrom(lead2, prev, entries) && lead2[prev] == lead[prev]
  {
  }

  lemma PrefixStays(lead: Log, lead2: Log, k: nat)
    requires k < |lead| && lead <= lead2
    ensures lead2[..k + 1] == lead[..k + 1] && lead2[k] == lead[k] && Agree(lead2, lead, k)
  {
  }

  lemma CommittedStays(c: Cluster, c2: Cluster, t: nat, k: nat)
    requires t in c.h.leaderLogs && CommittedIn(c.h, c.h.leaderLogs[t], k, t)
    requires LogsGrow(c.h, c2.h) && c.h.commits <= c2.h.commits
    ensures CommittedIn(c2.h, c2.h.leaderLogs[t], k, t)
  {
  }

  lemma MessageStays(c: Cluster, c2: Cluster, msg: Message)
    requires MessageOk(c, msg) && Evolves(c, c2)
    ensures MessageOk(c2, msg)
  {
    hide CommittedIn, SentFrom, HasAcked;
    match msg
    case AppendReq(to, a) =>
      SentStays(c.h.leaderLogs[a.term], c2.h.leaderLogs[a.term], a.prevLogIndex, a.entries);
      CommittedStays(c, c2, a.term, a.leaderCommit);
    case SnapReq(to, a, prefix) =>
      PrefixStays(c.h.leaderLogs[a.term], c2.h.leaderLogs[a.term], a.lastIndex);
      CommittedStays(c, c2, a.term, a.lastIndex);
    case _ =>
  }

  lemma NetStays(c: Cluster, c2: Cluster)
    requires NetOk(c) && Evolves(c, c2)
    requires forall msg :: msg in c2.net && msg !in c.net ==> MessageOk(c2, msg)
    ensures NetOk(c2)
  {
    forall msg | msg in c2.net
      ensures MessageOk(c2, msg)
    {
      if msg in c.net {
        MessageStays(c, c2, msg);
      }
    }
  }

  lemma CampaignsStay(c: Cluster, c2: Cluster)
    requires CampaignsOk(c) && Evolves(c, c2)
    requires forall x: NodeId, t: nat :: (x, t) in c2.h.campaigns && (x, t) !in c.h.campaigns ==> CampaignOk(c2, x, t)
    ensures CampaignsOk(c2)
  {
  }

  lemma CommitsStay(c: Cluster, c2: Cluster)
    requires CommitsOk(c) && Evolves(c, c2)
    requires forall e :: e in c2.h.commits && e !in c.h.commits ==> CommitOk(c2, e)
    ensures CommitsOk(c2)
  {
  }

  lemma ElectionsStay(c: Cluster, c2: Cluster)
    requires ElectionsOk(c) && Evolves(c, c2)
    requires c2.h.leaderLogs[0] == [DUMMY]
    requires forall t :: t in c2.h.leaderLogs && t !in c.h.leaderLogs ==> t in c2.h.leaders
    requires forall t :: t in c2.h.leaders && t !in c.h.leaders ==> t in c2.h.leaderLogs && ElectionOk(c2, t)
    ensures ElectionsOk(c2)
  {
  }

  lemma AppliedStay(c: Cluster, c2: Cluster)
    requires AppliedOk(c) && Evolves(c, c2)
    requires forall a :: a in c2.h.applied && a !in c.h.applied ==> AppliedEntryOk(c2, a)
    ensures AppliedOk(c2)
  {
  }

  lemma LeaderLogsStay(c: Cluster, c2: Cluster)
    requires LeaderLogsOk(c) && Evolves(c, c2)
    requires forall t :: t in c2.h.leaderLogs && (t !in c.h.leaderLogs || c2.h.leaderLogs[t] != c.h.leaderLogs[t]) ==>
               LogOk(c2.h, c2.h.leaderLogs[t]) && LastTerm(c2.h.leaderLogs[t]) <= t
    ensures LeaderLogsOk(c2)
  {
    forall t | t in c2.h.leaderLogs
      ensures LogOk(c2.h, c2.h.leaderLogs[t]) && LastTerm(c2.h.leaderLogs[t]) <= t
    {
      if t in c.h.leaderLogs && c2.h.leaderLogs[t] == c.h.leaderLogs[t] {
        TracedGrows(c, c2, c.h.leaderLogs[t]);
      }
    }
  }

  /** What a member's log was before a step it is after it, also for a later term. */
  lemma GrowsHere(c: Cluster, c2: Cluster, n: NodeId, t: nat)
    requires n in c.members && MemberOk(c, n) && Evolves(c, c2) && c.members[n].s.term <= t
    ensures var s := c.members[n].s;
            && LogOk(c2.h, s.log) && CommittedIn(c2.h, s.log, s.commit, t)
            && (s.votedFor.Some? ==> Vote(n, s.term, s.votedFor.value) in c2.h.votes)
  {
    hide RunningOk, LeaderOk;
    var s := c.members[n].s;
    TracedGrows(c, c2, s.log);
    CommittedGrows(c, c2, s.log, s.commit, s.term, s.log, t);
  }

  /** A member whose state and log do not change stays in order. */
  lemma MemberStays(c: Cluster, c2: Cluster, n: NodeId)
    requires n in c.members && n in c2.members && c2.members[n] == c.members[n]
    requires MemberOk(c, n) && Evolves(c, c2)
    requires forall t :: (n, t) in c2.h.campaigns ==> (n, t) in c.h.campaigns
    requires forall t :: t in c2.h.leaders && t !in c.h.leaders ==> c2.h.leaders[t].leader != n
    requires c.members[n].s.role == Leader ==>
               c2.h.leaderLogs[c.members[n].s.term] == c.h.leaderLogs[c.members[n].s.term]
    ensures MemberOk(c2, n)
  {
    var m := c.members[n];
    TracedGrows(c, c2, m.s.log);
    CommittedGrows(c, c2, m.s.log, m.s.commit, m.s.term, m.s.log, m.s.term);
    assert RunningOk(c2, n, m);
    assert LeaderOk(c2, n, m.s);
  }
}
