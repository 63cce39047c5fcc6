/** The channels on which Propose callers wait (raft/node.go:137 and 520-535).

    A channel is its number in `channels`, so a new one is never an old one. `sent` is everything
    ever sent on it. */
module Waiters {
  import opened RaftTypes

  datatype ProposeResult = ProposeResult(committed: bool, index: nat, term: nat)

  datatype Channel = Channel(index: nat, sent: seq<ProposeResult>, closed: bool)

  datatype Book = Book(waits: map<nat, nat>, channels: seq<Channel>)

  const NOBODY := Book(map[], [])

  /** Every waiter has a channel made for its index on which nothing has been sent. */
  predicate Tidy(b: Book) {
    && (forall i :: i in b.waits ==> b.waits[i] < |b.channels| && b.channels[b.waits[i]] == Channel(i, [], false))
    && (forall k :: 0 <= k < |b.channels| ==> OneResult(b.channels[k]))
  }

  /** A channel is closed by the one result sent on it. */
  predicate OneResult(ch: Channel) {
    if ch.closed then |ch.sent| == 1 && ch.sent[0].index == ch.index else ch.sent == []
  }

  function Finish(ch: Channel, r: ProposeResult): Channel {
    ch.(sent := ch.sent + [r], closed := true)
  }

  /** Propose registers a new waiter; one that waits at the same index is forgotten. */
  function Open(b: Book, index: nat): Book {
    Book(b.waits[index := |b.channels|], b.channels + [Channel(index, [], false)])
  }

  /** The apply loop takes the waiter of the index it is about to apply. */
  function Take(b: Book, index: nat): (Book, Option<nat>) {
    if index in b.waits then (b.(waits := b.waits - {index}), Some(b.waits[index])) else (b, None)
  }

  function Deliver(b: Book, waiter: Option<nat>, r: ProposeResult): Book
    requires waiter.Some? ==> waiter.value < |b.channels|
  {
    if waiter.None? then b
    else b.(channels := b.channels[waiter.value := Finish(b.channels[waiter.value], r)])
  }

  predicate WaitsOn(b: Book, k: nat) {
    k < |b.channels| && b.channels[k].index in b.waits && b.waits[b.channels[k].index] == k
  }

  /** The waiters above the commit index are told of their failure, except at the indices `spared`. */
  function AbortBut(b: Book, commit: nat, spared: set<nat>): Book {
    Book(map i | i in b.waits && (i in spared || i <= commit) :: b.waits[i],
         seq(|b.channels|, k requires 0 <= k < |b.channels| =>
           if WaitsOn(b, k) && b.channels[k].index > commit && b.channels[k].index !in spared
           then Finish(b.channels[k], ProposeResult(false, b.channels[k].index, 0))
           else b.channels[k]))
  }

  /** abortPendingProposals: every waiter above the commit index is told of its failure. */
  function Abort(b: Book, commit: nat): Book {
    AbortBut(b, commit, {})
  }

  lemma AbortNone(b: Book, commit: nat)
    ensures AbortBut(b, commit, b.waits.Keys) == b
  {
  }

  /** Aborting one more waiter, if it is above the commit index. */
  lemma AbortNext(b: Book, commit: nat, spared: set<nat>, i: nat)
    requires Tidy(b) && spared <= b.waits.Keys && i in spared
    ensures var b1, b2 := AbortBut(b, commit, spared), AbortBut(b, commit, spared - {i});
            && i in b1.waits && b1.waits[i] < |b1.channels| && b1.channels[b1.waits[i]] == Channel(i, [], false)
            && b2 == if i <= commit then b1
                     else
                       var ch := Finish(b1.channels[b1.waits[i]], ProposeResult(false, i, 0));
                       Book(b1.waits - {i}, b1.channels[b1.waits[i] := ch])
  {
    var b1, b2 := AbortBut(b, commit, spared), AbortBut(b, commit, spared - {i});
    if i <= commit {
      assert b2.waits == b1.waits && b2.channels == b1.channels;
    } else {
      assert b2.waits == b1.waits - {i};
      assert b2.channels == b1.channels[b1.waits[i] := Finish(b1.channels[b1.waits[i]], ProposeResult(false, i, 0))];
    }
  }

  lemma OpenTidy(b: Book, index: nat)
    requires Tidy(b)
    ensures Tidy(Open(b, index))
  {
  }

  lemma TakeTidy(b: Book, index: nat)
    requires Tidy(b)
    ensures var (b', w) := Take(b, index);
            && Tidy(b')
            && (w.Some? ==> w.value < |b.channels| && b.channels[w.value] == Channel(index, [], false))
            && (w.Some? ==> !WaitsOn(b', w.value))
  {
  }

  lemma DeliverTidy(b: Book, waiter: Option<nat>, r: ProposeResult)
    requires Tidy(b)
    requires waiter.Some? ==>
      waiter.value < |b.channels| && b.channels[waiter.value] == Channel(r.index, [], false) &&
          !WaitsOn(b, waiter.value)
    ensures Tidy(Deliver(b, waiter, r))
  {
  }

  lemma AbortTidy(b: Book, commit: nat)
    requires Tidy(b)
    ensures Tidy(Abort(b, commit))
  {
  }
}
