/** The in-memory log and its index helpers (raft/node.go:881-962).

    A log is never empty: position 0 holds a placeholder whose index is the floor of the log.
    A full log has its placeholder at index 0; compaction moves the placeholder up. */
module LogStore {
  import opened RaftTypes

  const DUMMY := LogEntry(0, 0, Nil)

  function First(log: Log): nat
    requires log != []
  {
    log[0].index
  }

  function Last(log: Log): nat
    requires log != []
  {
    log[|log| - 1].index
  }

  function LastTerm(log: Log): nat
    requires log != []
  {
    log[|log| - 1].term
  }

  /** Indices run without a gap from the placeholder. */
  predicate Contiguous(log: Log) {
    && log != []
    && forall i :: 0 <= i < |log| ==> log[i].index == log[0].index + i
  }

  /** A log that still holds every entry: the placeholder is the initial dummy. */
  predicate Full(log: Log) {
    Contiguous(log) && log[0] == DUMMY
  }

  predicate TermsSorted(log: Log) {
    forall i, j :: 0 <= i <= j < |log| ==> log[i].term <= log[j].term
  }

  /** The two logs are equal up to and including position `k`. */
  predicate Agree(a: Log, b: Log, k: nat) {
    k < |a| && k < |b| && a[..k + 1] == b[..k + 1]
  }

  function TermAt(log: Log, idx: nat): nat
    requires Contiguous(log)
  {
    if idx < First(log) || idx > Last(log) then 0 else log[idx - First(log)].term
  }

  function EntryAt(log: Log, idx: nat): Option<LogEntry>
    requires Contiguous(log)
  {
    if idx < First(log) || idx > Last(log) then None else Some(log[idx - First(log)])
  }

  function EntriesFrom(log: Log, idx: nat): seq<LogEntry>
    requires Contiguous(log)
  {
    var from := if idx <= First(log) then First(log) + 1 else idx;
    if from > Last(log) then [] else log[from - First(log)..]
  }

  function TruncateAt(log: Log, idx: nat): Log
    requires Contiguous(log)
  {
    if idx <= First(log) || idx > Last(log) then log else log[..idx - First(log)]
  }

  /** compactLogLocked: drop everything up to `idx`, keep a placeholder at `idx`. */
  function Compact(log: Log, idx: nat, term: nat): Log
    requires Contiguous(log)
  {
    if idx <= First(log) then log
    else if idx >= Last(log) then [LogEntry(term, idx, Nil)]
    else [LogEntry(term, idx, Nil)] + log[idx - First(log) + 1..]
  }

  /** One iteration of the append/truncate loop for the entry `e` destined for index `idx`. */
  function Put(log: Log, idx: nat, e: LogEntry): Log
    requires Contiguous(log)
  {
    if idx <= First(log) then log
    else if idx > Last(log) then log + [e]
    else if log[idx - First(log)].term != e.term then TruncateAt(log, idx) + [e]
    else log
  }

  /** `entries` carry the indices that follow `prev`. */
  predicate Follows(prev: nat, entries: seq<LogEntry>) {
    forall i :: 0 <= i < |entries| ==> entries[i].index == prev + 1 + i
  }

  lemma PutContiguous(log: Log, idx: nat, e: LogEntry)
    requires Contiguous(log) && idx <= Last(log) + 1 && e.index == idx
    ensures Contiguous(Put(log, idx, e))
    ensures Put(log, idx, e)[0] == log[0]
    ensures idx <= Last(Put(log, idx, e))
  {
  }

  /** The log after the first `n` iterations of the loop, raft/node.go:625-638. */
  function Merge(log: Log, prev: nat, entries: seq<LogEntry>, n: nat): (r: Log)
    requires Contiguous(log) && prev <= Last(log) && Follows(prev, entries) && n <= |entries|
    ensures Contiguous(r) && r[0] == log[0]
    ensures prev + n <= Last(r)
  {
    if n == 0 then log
    else
      var log' := Merge(log, prev, entries, n - 1);
      PutContiguous(log', prev + n, entries[n - 1]);
      Put(log', prev + n, entries[n - 1])
  }

  /** Where two logs hold the same term at the same index they are equal up to it. */
  predicate Matching(a: Log, b: Log) {
    forall i: nat :: i < |a| && i < |b| && a[i].term == b[i].term ==> a[..i + 1] == b[..i + 1]
  }

  lemma AgreeWeaken(a: Log, b: Log, k: nat, j: nat)
    requires Agree(a, b, k) && j <= k
    ensures Agree(a, b, j) && a[j] == b[j]
  {
  }

  lemma AgreeShorter(a: Log, b: Log, k: nat, j: nat)
    requires j <= k
    ensures Agree(a, b, k) ==> Agree(a, b, j)
  {
  }

  lemma PutClosedForm(log: Log, lead: Log, prev: nat)
    requires Full(log) && Full(lead) && Matching(log, lead)
    requires Agree(log, lead, prev) && prev + 1 < |lead|
    ensures Put(log, prev + 1, lead[prev + 1])
         == if Agree(log, lead, prev + 1) then log else lead[..prev + 2]
  {
  }

  lemma PutExtends(lead: Log, k: nat)
    requires Full(lead) && 0 < k < |lead|
    ensures Put(lead[..k], k, lead[k]) == lead[..k + 1]
  {
  }

  /** `r` is what is left of `log` once the sender's entries up to index `k` are merged in. */
  ghost predicate Merged(log: Log, lead: Log, k: nat, r: Log) {
    k < |lead| && if Agree(log, lead, k) then r == log else r == lead[..k + 1]
  }

  lemma MergedStep(log: Log, lead: Log, k: nat, m: Log, r: Log)
    requires Full(log) && Full(lead) && Matching(log, lead) && 0 < k < |lead|
    requires Merged(log, lead, k - 1, m) && Contiguous(m) && r == Put(m, k, lead[k])
    ensures Merged(log, lead, k, r)
  {
    if Agree(log, lead, k - 1) {
      PutClosedForm(log, lead, k - 1);
    } else {
      AgreeShorter(log, lead, k, k - 1);
      PutExtends(lead, k);
    }
  }

  /** `entries` is the stretch of the sender's log that follows `prev`. */
  predicate SentFrom(lead: Log, prev: nat, entries: seq<LogEntry>) {
    && prev + |entries| < |lead|
    && Follows(prev, entries)
    && forall i :: 0 <= i < |entries| ==> entries[i] == lead[prev + 1 + i]
  }

  /** What the append/truncate loop does to a full log that matches the sender's log `lead` at
      `prev`: it keeps the log if that already holds all the entries sent, and otherwise leaves
      exactly the sender's log up to the last entry sent. */
  lemma {:induction false} MergeClosedForm(log: Log, lead: Log, prev: nat, entries: seq<LogEntry>, n: nat)
    requires Full(log) && Full(lead) && Matching(log, lead)
    requires Agree(log, lead, prev) && SentFrom(lead, prev, entries)
    requires n <= |entries|
    ensures Merged(log, lead, prev + n, Merge(log, prev, entries, n))
  {
    if n > 0 {
      hide Merged, Put;
      MergeClosedForm(log, lead, prev, entries, n - 1);
      var m, r := Merge(log, prev, entries, n - 1), Merge(log, prev, entries, n);
      assert entries[n - 1] == lead[prev + n];
      assert r == Put(m, prev + n, lead[prev + n]);
      MergedStep(log, lead, prev + n, m, r);
    }
  }

  /** The memory image of a full log after compaction up to `floor`. */
  function Compacted(log: Log, floor: nat): Log
    requires Full(log) && floor < |log|
  {
    if floor == 0 then log else [LogEntry(log[floor].term, floor, Nil)] + log[floor + 1..]
  }
}
