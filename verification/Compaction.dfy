/** Compaction is transparent: what a node does on the log it keeps in memory is what the cluster
    model does on the full log. */
module Compaction {
  import opened RaftTypes
  import opened LogStore
  import opened Handlers

  lemma FullShape(log: Log)
    requires Full(log)
    ensures log != [] && Contiguous(log) && First(log) == 0 && Last(log) == |log| - 1
  {
  }

  lemma CompactedShape(log: Log, f: nat)
    requires Full(log) && f < |log|
    ensures Contiguous(Compacted(log, f)) && First(Compacted(log, f)) == f
    ensures Last(Compacted(log, f)) == Last(log) && LastTerm(Compacted(log, f)) == LastTerm(log)
    ensures |Compacted(log, f)| == |log| - f
  {
  }

  lemma CompactedIndex(log: Log, f: nat, i: nat)
    requires Full(log) && f + i < |log|
    ensures i < |Compacted(log, f)|
    ensures Compacted(log, f)[i] == if i == 0 && f > 0 then LogEntry(log[f].term, f, Nil) else log[f + i]
  {
  }

  lemma CompactedAt(log: Log, f: nat, k: nat)
    requires Full(log) && f <= k < |log|
    ensures Contiguous(Compacted(log, f)) && TermAt(Compacted(log, f), k) == TermAt(log, k) == log[k].term
    ensures f < k ==> EntryAt(Compacted(log, f), k) == EntryAt(log, k)
  {
    hide Compacted, Contiguous, Full;
    FullShape(log);
    CompactedShape(log, f);
    CompactedIndex(log, f, k - f);
  }

  lemma CompactedTail(log: Log, f: nat, j: nat)
    requires Full(log) && f < |log| && 1 <= j <= |log| - f
    ensures j <= |Compacted(log, f)| && Compacted(log, f)[j..] == log[f + j..]
  {
  }

  lemma CompactedFrom(log: Log, f: nat, k: nat)
    requires Full(log) && f < |log| && f < k
    ensures Contiguous(Compacted(log, f)) && EntriesFrom(Compacted(log, f), k) == EntriesFrom(log, k)
  {
    hide Compacted, Contiguous, Full;
    FullShape(log);
    CompactedShape(log, f);
    if k < |log| {
      CompactedTail(log, f, k - f);
    }
  }

  lemma CompactedAppend(log: Log, f: nat, e: LogEntry)
    requires Full(log) && f < |log| && Full(log + [e])
    ensures Compacted(log, f) + [e] == Compacted(log + [e], f)
  {
  }

  /** Compacting further. */
  lemma CompactAgain(log: Log, f: nat, k: nat)
    requires Full(log) && f <= k < |log|
    ensures Contiguous(Compacted(log, f)) && Compact(Compacted(log, f), k, log[k].term) == Compacted(log, k)
  {
    hide Compacted, Contiguous, Full;
    FullShape(log);
    CompactedShape(log, f);
    if f < k {
      FurtherImage(log, k);
      if k + 1 < |log| {
        CompactedTail(log, f, k - f + 1);
      }
    }
  }

  lemma FurtherImage(log: Log, k: nat)
    requires Full(log) && 0 < k < |log|
    ensures Compacted(log, k) == [LogEntry(log[k].term, k, Nil)] + log[k + 1..]
    ensures k == |log| - 1 ==> Compacted(log, k) == [LogEntry(log[k].term, k, Nil)]
  {
  }

  /** `mem` is the compacted image of `full`, which is `log` up to the floor. */
  ghost predicate Pictures(log: Log, f: nat, full: Log, mem: Log) {
    && Full(full) && f < |full| && f < |log| && Contiguous(mem)
    && full[..f + 1] == log[..f + 1]
    && mem == Compacted(full, f)
  }

  lemma AppendPictures(log: Log, f: nat, full: Log, mem: Log, e: LogEntry)
    requires Pictures(log, f, full, mem) && e.index == |full|
    ensures Pictures(log, f, full + [e], mem + [e])
  {
  }

  lemma CutPictures(log: Log, f: nat, full: Log, mem: Log, k: nat)
    requires Pictures(log, f, full, mem) && f < k <= |full|
    ensures k - f <= |mem| && Pictures(log, f, full[..k], mem[..k - f])
  {
  }

  /** Both logs hold the same entry above the floor. */
  lemma PicturesAt(log: Log, f: nat, full: Log, mem: Log, k: nat)
    requires Pictures(log, f, full, mem) && k < |full|
    ensures First(mem) == f && Last(mem) == |full| - 1 && First(full) == 0 && Last(full) == |full| - 1
    ensures k <= f ==> full[k] == log[k]
    ensures f < k ==> k - f < |mem| && mem[k - f] == full[k]
  {
  }

  lemma PutPictures(log: Log, f: nat, full: Log, mem: Log, idx: nat, e: LogEntry)
    requires Pictures(log, f, full, mem) && 0 < idx <= |full| && e.index == idx
    requires idx <= f ==> log[idx].term == e.term
    ensures Pictures(log, f, Put(full, idx, e), Put(mem, idx, e))
  {
    hide Compacted, Contiguous;
    PicturesAt(log, f, full, mem, if idx < |full| then idx else f);
    hide Pictures;
    if idx == |full| {
      assert Put(full, idx, e) == full + [e] && Put(mem, idx, e) == mem + [e];
      AppendPictures(log, f, full, mem, e);
    } else if idx > f && full[idx].term != e.term {
      CutPictures(log, f, full, mem, idx);
      AppendPictures(log, f, full[..idx], mem[..idx - f], e);
    }
  }

  /** The entries at or below the floor are the ones already there. */
  predicate AgreesBelow(log: Log, f: nat, prev: nat, entries: seq<LogEntry>)
    requires f < |log|
  {
    forall i :: 0 <= i < |entries| && prev + 1 + i <= f ==> log[prev + 1 + i].term == entries[i].term
  }

  lemma NextPictures(log: Log, f: nat, full: Log, mem: Log, prev: nat, entries: seq<LogEntry>, n: nat)
    requires Pictures(log, f, full, mem) && n < |entries| && prev + n <= Last(full)
    requires Follows(prev, entries) && AgreesBelow(log, f, prev, entries)
    ensures Pictures(log, f, Put(full, prev + n + 1, entries[n]), Put(mem, prev + n + 1, entries[n]))
  {
    var idx, e := prev + n + 1, entries[n];
    assert e.index == idx && (idx <= f ==> log[idx].term == e.term) && |full| == Last(full) + 1;
    hide Pictures, Put, Follows, AgreesBelow;
    PutPictures(log, f, full, mem, idx, e);
  }

  /** The append/truncate loop on the compacted log, with the entries below the floor skipped, is
      the loop on the full log. */
  lemma {:induction false} MergePictures(log: Log, f: nat, mem: Log, prev: nat, entries: seq<LogEntry>, n: nat)
    requires Pictures(log, f, log, mem) && prev < |log| && prev <= Last(mem) && Follows(prev, entries) && n <= |entries|
    requires AgreesBelow(log, f, prev, entries)
    ensures Pictures(log, f, Merge(log, prev, entries, n), Merge(mem, prev, entries, n))
  {
    hide *;
    PicturesShape(log, f, log, mem);
    if n > 0 {
      MergePictures(log, f, mem, prev, entries, n - 1);
      MergeNext(log, prev, entries, n - 1);
      MergeNext(mem, prev, entries, n - 1);
      NextPictures(log, f, Merge(log, prev, entries, n - 1), Merge(mem, prev, entries, n - 1), prev, entries, n - 1);
    } else {
      MergeNone(log, prev, entries);
      MergeNone(mem, prev, entries);
    }
  }

  lemma PicturesShape(log: Log, f: nat, full: Log, mem: Log)
    requires Pictures(log, f, full, mem)
    ensures Full(full) && Contiguous(full) && Contiguous(mem) && Last(full) == |full| - 1
  {
  }

  lemma MergeNone(log: Log, prev: nat, entries: seq<LogEntry>)
    requires Contiguous(log) && prev <= Last(log) && Follows(prev, entries)
    ensures Merge(log, prev, entries, 0) == log
  {
  }

  lemma MergeNext(log: Log, prev: nat, entries: seq<LogEntry>, n: nat)
    requires Contiguous(log) && prev <= Last(log) && Follows(prev, entries) && n < |entries|
    ensures var m := Merge(log, prev, entries, n);
            && m != [] && Contiguous(m) && prev + n <= Last(m)
            && Merge(log, prev, entries, n + 1) == Put(m, prev + n + 1, entries[n])
  {
  }

  /** Handling an append on the compacted log and on the full log gives the same reply, the same
      commit index and corresponding logs, for any request that agrees with the log up to its
      floor. A request that starts below the floor is accepted blindly on the compacted log, and
      after a comparison that always succeeds on the full one. */
  lemma AppendTransparent(s: NodeState, f: nat, a: AppendArgs)
    requires Full(s.log) && f < |s.log| && Follows(a.prevLogIndex, a.entries)
    requires AgreesBelow(s.log, f, a.prevLogIndex, a.entries)
    requires a.prevLogIndex <= f ==> s.log[a.prevLogIndex].term == a.prevLogTerm
    ensures Contiguous(Compacted(s.log, f))
    ensures var (s1, r) := HandleAppendEntries(s, a);
            && Full(s1.log) && f < |s1.log|
            && HandleAppendEntries(s.(log := Compacted(s.log, f)), a) == (s1.(log := Compacted(s1.log, f)), r)
  {
    hide Compacted, Merge, Contiguous, Full, Follows, AgreesBelow, Consistent, Pictures;
    FullShape(s.log);
    CompactedShape(s.log, f);
    ConsistentCompacted(s.log, f, a);
    StartPictures(s.log, f);
    if Consistent(s.log, a) {
      PrevWithin(s.log, f, a);
      MergePictures(s.log, f, Compacted(s.log, f), a.prevLogIndex, a.entries, |a.entries|);
      EndPictures(s.log, f, Merge(s.log, a.prevLogIndex, a.entries, |a.entries|),
                  Merge(Compacted(s.log, f), a.prevLogIndex, a.entries, |a.entries|));
    }
  }

  lemma StartPictures(log: Log, f: nat)
    requires Full(log) && f < |log|
    ensures Pictures(log, f, log, Compacted(log, f))
  {
    CompactedShape(log, f);
  }

  lemma EndPictures(log: Log, f: nat, full: Log, mem: Log)
    requires Pictures(log, f, full, mem)
    ensures Full(full) && f < |full| && mem == Compacted(full, f)
  {
  }

  lemma PrevWithin(log: Log, f: nat, a: AppendArgs)
    requires Full(log) && f < |log| && Consistent(log, a)
    ensures a.prevLogIndex < |log| && Contiguous(Compacted(log, f)) && a.prevLogIndex <= Last(Compacted(log, f))
  {
    CompactedShape(log, f);
  }

  lemma ConsistentCompacted(log: Log, f: nat, a: AppendArgs)
    requires Full(log) && f < |log|
    requires a.prevLogIndex <= f ==> log[a.prevLogIndex].term == a.prevLogTerm
    ensures Contiguous(Compacted(log, f)) && (Consistent(Compacted(log, f), a) <==> Consistent(log, a))
  {
    hide Compacted, Contiguous, Full, TermAt;
    FullShape(log);
    CompactedShape(log, f);
    BelowFirst(log, f, a.prevLogIndex);
    if f <= a.prevLogIndex < |log| {
      CompactedAt(log, f, a.prevLogIndex);
    }
  }

  lemma BelowFirst(log: Log, f: nat, k: nat)
    requires Full(log) && f < |log|
    ensures Contiguous(log) && (k < |log| ==> TermAt(log, k) == log[k].term)
  {
  }

  lemma CommittableCompacted(s: NodeState, f: nat, peers: set<NodeId>, k: nat)
    requires Full(s.log) && f < |s.log| && f < k
    ensures Contiguous(Compacted(s.log, f))
    ensures Committable(s.(log := Compacted(s.log, f)), peers, k) <==> Committable(s, peers, k)
  {
    hide Compacted, Contiguous, Full, TermAt;
    FullShape(s.log);
    CompactedShape(s.log, f);
    if k < |s.log| {
      CompactedAt(s.log, f, k);
    }
  }

  lemma {:induction false} ScanCompacted(s: NodeState, f: nat, peers: set<NodeId>, k: nat)
    requires Full(s.log) && f < |s.log| && f <= s.commit
    ensures Contiguous(Compacted(s.log, f))
    ensures CommitScan(s.(log := Compacted(s.log, f)), peers, k) == CommitScan(s, peers, k)
  {
    hide Compacted, Contiguous, Full, Committable;
    FullShape(s.log);
    CompactedShape(s.log, f);
    if k > s.commit {
      CommittableCompacted(s, f, peers, k);
      ScanCompacted(s, f, peers, k - 1);
    }
  }

  /** The vote handler sees only the end of the log. */
  lemma VoteTransparent(s: NodeState, f: nat, a: VoteArgs)
    requires Full(s.log) && f < |s.log|
    ensures Compacted(s.log, f) != []
    ensures var (s1, r) := HandleRequestVote(s, a);
            HandleRequestVote(s.(log := Compacted(s.log, f)), a) == (s1.(log := Compacted(s.log, f)), r)
  {
    hide Compacted, Contiguous, Full;
    FullShape(s.log);
    CompactedShape(s.log, f);
  }

  /** The request a leader builds from its compacted log, for a next index above the floor. */
  lemma AppendForTransparent(s: NodeState, f: nat, self: NodeId, next: nat)
    requires Full(s.log) && f < |s.log| && f < next <= |s.log|
    ensures Contiguous(Compacted(s.log, f)) && First(Compacted(s.log, f)) == f
    ensures AppendFor(s.(log := Compacted(s.log, f)), self, next) == AppendFor(s, self, next)
  {
    hide Compacted, Contiguous, Full, TermAt, EntriesFrom;
    FullShape(s.log);
    CompactedShape(s.log, f);
    CompactedAt(s.log, f, next - 1);
    CompactedFrom(s.log, f, next);
  }
}
