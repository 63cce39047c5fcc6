/** Back-off and catch-up between the members of a running cluster. */
module CatchUpRuns {
  import opened RaftTypes
  import opened LogStore
  import opened Handlers
  import opened Cluster
  import opened Safety
  import opened CatchUp
  import opened Invariant
  import opened Shipping
  import opened Refinement

  lemma MembersFace(ids: set<NodeId>, c: Cluster, n: NodeId, p: NodeId)
    requires Reachable(ids, c) && IsLeader(c, n) && p in c.members && c.members[p].s.term <= c.members[n].s.term
    ensures var l, m := c.members[n], c.members[p];
            && Sound(l) && Sound(m)
            && Matching(m.s.log, l.s.log) && Agree(m.s.log, l.s.log, m.floor)
  {
    hide Inv, Ship, Reachable;
    ReachableOk(ids, c);
    MemberIsSound(c, n);
    MemberIsSound(c, p);
    LaterRefl(c);
    LeaderCompleteness(ids, c, c, p, n);
    var l, m := c.members[n], c.members[p];
    AgreeShorter(m.s.log, l.s.log, m.s.commit, m.floor);
    forall i: nat | i < |m.s.log| && i < |l.s.log| && m.s.log[i].term == l.s.log[i].term
      ensures m.s.log[..i + 1] == l.s.log[..i + 1]
    {
      LogMatching(ids, c, p, n, i);
    }
  }

  /** In any reachable state, appends sent in turn to a peer that has not left the leader's term
      behind come to be accepted exactly if the peer holds the leader's floor entry. */
  lemma BackOffInCluster(ids: set<NodeId>, c: Cluster, n: NodeId, p: NodeId)
    requires Reachable(ids, c) && IsLeader(c, n) && p in Peers(c, n) && c.members[p].s.term <= c.members[n].s.term
    requires c.members[n].floor < Get(c.members[n].s.nextIndex, p)
    ensures var l, m := c.members[n], c.members[p];
            && Full(l.s.log) && l.floor < |l.s.log| && Full(m.s.log) && m.floor < |m.s.log|
            && ((exists k: nat :: Accepts(Rounds(Pair(Image(l), Image(m)), n, p, k), n, p)) <==>
                l.floor < |m.s.log| && m.s.log[l.floor].term == l.s.log[l.floor].term)
  {
    hide Reachable, Accepts, Rounds;
    LeaderCanSend(ids, c, n, p);
    MembersFace(ids, c, n, p);
    var l, m := c.members[n], c.members[p];
    BackOffExact(Pair(Image(l), Image(m)), n, p, l.s.log, l.floor, m.s.log, m.floor);
  }

  /** The snapshot is that of the leader's floor, and the append after it is accepted and leaves the
      peer with the leader's whole log. */
  ghost predicate CatchesUp(l: Member, m: Member, n: NodeId, p: NodeId, snap: SnapshotArgs) {
    && Full(l.s.log) && l.floor < |l.s.log| && Full(m.s.log) && m.floor < |m.s.log|
    && var x := Pair(Image(l), Image(m));
       && InMemory(x) && snap == SnapshotAt(x, n, l.s.log, l.floor)
       && var y := SnapshotRound(x, p, snap, true);
          Accepts(y, n, p) && CaughtUp(Round(y, n, p), p, l.s.log, Snapped(m.s.log, m.floor, l.s.log, l.floor).1)
  }

  /** A leader ships a peer below its floor a snapshot that reaches the floor, as long as it takes one
      snapshot at a time; so after that one snapshot the next append is accepted and leaves the
      peer with the leader's whole log. */
  lemma ShipsToFloor(ids: set<NodeId>, c: Cluster, n: NodeId, p: NodeId)
    requires Reachable(ids, c) && CanStep(c, SendSnapshot(n, p)) && c.members[p].s.term <= c.members[n].s.term
    ensures n in c.members && c.members[n].cache.Some? && c.members[n].cache.value.index < |c.members[n].s.log|
    ensures CatchesUp(c.members[n], c.members[p], n, p, SnapshotFor(c.members[n], n, p).snap)
  {
    var l, m := c.members[n], c.members[p];
    assert IsLeader(c, n) && p in Peers(c, n) && Get(l.s.nextIndex, p) <= l.floor;
    hide Reachable, Accepts, CaughtUp, Round, SnapshotRound, Snapped, CanStep;
    LeaderCanSend(ids, c, n, p);
    MembersFace(ids, c, n, p);
    LabelsAreCommitted(ids, c, n);
    SnapshotCatchUp(Pair(Image(l), Image(m)), n, p, l.s.log, l.floor, m.s.log, m.floor);
  }
}
