/** Committed prefixes, from one state to a later one. */
module Prefixes {
  import opened RaftTypes
  import opened LogStore
  import opened Handlers
  import opened Cluster
  import opened Invariant
  import opened Evolution
  import opened Agreement
  import opened Preservation

  lemma EvolvesRefl(c: Cluster)
    ensures Evolves(c, c)
  {
  }

  lemma CommittedLater(c: Cluster, c2: Cluster, n: NodeId)
    requires n in c.members && MemberOk(c, n) && Evolves(c, c2)
    ensures CommittedIn(c2.h, c.members[n].s.log, c.members[n].s.commit, c.members[n].s.term)
    ensures c.members[n].s.commit < |c.members[n].s.log|
  {
  }

  lemma PrefixesAgree(c: Cluster, c2: Cluster, n: NodeId, n2: NodeId)
    requires n in c.members && n2 in c2.members && Evolves(c, c2)
    requires Inv(c) && Inv(c2)
    ensures Agree(c.members[n].s.log, c2.members[n2].s.log, Min(c.members[n].s.commit, c2.members[n2].s.commit))
  {
    hide Inv, Evolves, LogOk, Settled, MemberOk, CommittedIn, Agree;
    MemberIsOk(c, n);
    MemberIsOk(c2, n2);
    EvolvesRefl(c2);
    CommittedLater(c, c2, n);
    CommittedLater(c2, c2, n2);
    InvLeaders(c2);
    var s, s2 := c.members[n].s, c2.members[n2].s;
    if s.commit <= s2.commit {
      CommittedAgree(c2, s.log, s.commit, s.term, s2.log, s2.commit, s2.term);
    } else {
      CommittedAgree(c2, s2.log, s2.commit, s2.term, s.log, s.commit, s.term);
      AgreeFlips(s2.log, s.log, s2.commit);
    }
  }

  lemma AgreeFlips(a: Log, b: Log, k: nat)
    requires Agree(a, b, k)
    ensures Agree(b, a, k)
  {
  }

  lemma AgreeEverywhere(a: Log, b: Log, k: nat)
    requires Agree(a, b, k)
    ensures forall i: nat :: i <= k ==> i < |a| && i < |b| && a[i] == b[i]
  {
  }
}
