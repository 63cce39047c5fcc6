/** Where the goroutine of Run is while the handlers change the role under it
    (raft/node.go:174-373, 402-485 and 735-780).

    The cluster model lets a member stand for election whenever it does not lead; here is when the
    code really can. */
module RunLoop {
  import opened RaftTypes

  /** `Choosing` is the top of the loop in Run, `Waiting` the end of runCandidate, where it waits for
      its vote requests, and `Closing` that of runLeader, where it waits for its replicators. */
  datatype Place = Choosing | Following | Campaigning | Waiting | Leading | Closing

  /** `signal` is what is in stepDownCh, `calls` the number of calls of the replicators in progress. */
  datatype Runner = Runner(role: Role, term: nat, place: Place, signal: bool, calls: nat)

  /** `Deposes` is a request handler that makes the node a follower, `Answered` the answer to a
      replicator and `Lost` a call without one. */
  datatype Event =
    | Enters
    | TimesOut
    | Wins
    | EndsCampaign
    | VotesIn
    | VoteAnswered(term: nat)
    | Sends
    | Answered(term: nat)
    | Lost
    | Deposes(term: nat)
    | StepsDown
    | Closes

  predicate Enabled(r: Runner, e: Event) {
    match e
    case Enters => r.place == Choosing
    case TimesOut => r.place == Following
    case Wins => r.place == Campaigning
    case EndsCampaign => r.place == Campaigning
    case VotesIn => r.place == Waiting
    case VoteAnswered(term) => r.place == Campaigning || r.place == Waiting
    case Sends => r.place == Leading && r.role == Leader
    case Answered(term) => r.calls > 0
    case Lost => r.calls > 0
    case Deposes(term) => term >= r.term
    case StepsDown => r.place == Leading && r.signal
    case Closes => r.place == Closing && r.calls == 0
  }

  function Do(r: Runner, e: Event): Runner
    requires Enabled(r, e)
  {
    match e
    case Enters =>
      (match r.role
       case Follower => r.(place := Following)
       case Candidate => r.(place := Campaigning, term := r.term + 1)
       case Leader => r.(place := Leading, signal := false))
    case TimesOut => r.(role := Candidate, place := Choosing)
    case Wins => r.(role := Leader, place := Waiting)
    case EndsCampaign => r.(place := Waiting)
    case VotesIn => r.(place := Choosing)
    case VoteAnswered(term) => if term > r.term then r.(role := Follower, term := term) else r
    case Sends => r.(calls := r.calls + 1)
    case Answered(term) =>
      if term > r.term then r.(role := Follower, term := term, signal := true, calls := r.calls - 1)
      else r.(calls := r.calls - 1)
    case Lost => r.(calls := r.calls - 1)
    case Deposes(term) => r.(role := Follower, term := term)
    case StepsDown => r.(role := Follower, signal := false, place := Closing)
    case Closes => r.(place := Choosing)
  }

  /** The run leads from `r` to `r2`. */
  predicate Leads(r: Runner, run: seq<Event>, r2: Runner)
    decreases |run|
  {
    if run == [] then r2 == r else Enabled(r, run[0]) && Leads(Do(r, run[0]), run[1..], r2)
  }

  const START := Runner(Follower, 0, Choosing, false, 0)

  /** The node has been deposed by a handler, which sends no signal, while runLeader runs. */
  predicate Deaf(r: Runner) {
    r.place == Leading && r.role != Leader && !r.signal
  }

  lemma {:induction false} StaysDeaf(r: Runner, run: seq<Event>, r2: Runner)
    requires Deaf(r) && r.calls == 0 && Leads(r, run, r2)
    ensures Deaf(r2) && r2.calls == 0
    decreases |run|
  {
    if run != [] {
      StaysDeaf(Do(r, run[0]), run[1..], r2);
    }
  }

  /** If a call is still in progress its answer may bring a higher term, which is signalled. */
  lemma HearsAgain(r: Runner) returns (run: seq<Event>, r2: Runner)
    requires Deaf(r) && r.calls > 0
    ensures Leads(r, run, r2) && r2.place == Campaigning
  {
    var s := Do(Do(r, Answered(r.term + 1)), StepsDown);
    var run1;
    run1, r2 := Stands(s);
    run := [Answered(r.term + 1), StepsDown] + run1;
    assert run[1..][1..] == run1;
  }

  /** From the end of runLeader the node gets to stand, once its calls are over. */
  lemma {:induction false} Stands(r: Runner) returns (run: seq<Event>, r2: Runner)
    requires r.place == Closing && r.role != Leader
    ensures Leads(r, run, r2) && r2.place == Campaigning
    decreases r.calls
  {
    if r.calls > 0 {
      var run1;
      run1, r2 := Stands(Do(r, Lost));
      run := [Lost] + run1;
    } else {
      var r1 := Do(r, Closes);
      var rest := if r.role == Follower then [Enters, TimesOut, Enters] else [Enters];
      r2 := r.(role := Candidate, place := Campaigning, term := r.term + 1);
      assert Leads(r1, rest, r2) by {
        FromTop(r1);
      }
      run := [Closes] + rest;
    }
  }

  lemma FromTop(r: Runner)
    requires r.place == Choosing && r.role != Leader
    ensures Leads(r, if r.role == Follower then [Enters, TimesOut, Enters] else [Enters],
                  r.(role := Candidate, place := Campaigning, term := r.term + 1))
  {
    assert [Enters, TimesOut, Enters][1..] == [TimesOut, Enters];
    assert [TimesOut, Enters][1..] == [Enters];
  }

  /** Some run leads to an election. */
  ghost predicate CanStand(r: Runner) {
    exists run, r2: Runner :: Leads(r, run, r2) && r2.place == Campaigning
  }

  lemma CannotStand(r: Runner)
    requires Deaf(r) && r.calls == 0
    ensures !CanStand(r)
  {
    hide Leads;
    if CanStand(r) {
      var run, r2: Runner :| Leads(r, run, r2) && r2.place == Campaigning;
      StaysDeaf(r, run, r2);
    }
  }

  /** A leader that a handler has deposed stands for election again in some run exactly if one of
      its calls is still in progress then. */
  lemma DeafExact(r: Runner)
    requires Deaf(r)
    ensures CanStand(r) <==> r.calls > 0
  {
    hide Leads;
    if r.calls > 0 {
      var run, r2 := HearsAgain(r);
    } else {
      CannotStand(r);
    }
  }

  lemma Before(r: Runner, e: Event, run: seq<Event>, r2: Runner) returns (longer: seq<Event>)
    requires Enabled(r, e) && Leads(Do(r, e), run, r2)
    ensures Leads(r, longer, r2)
  {
    longer := [e] + run;
    assert longer[1..] == run;
  }

  /** And a node gets there: it leads term 1, its only call is answered, and a candidate of term 2
      deposes it. */
  lemma DeposedForGood() returns (run: seq<Event>, r: Runner)
    ensures Leads(START, run, r) && Deaf(r) && r.calls == 0
  {
    r := Runner(Follower, 2, Leading, false, 0);
    run := [];
    assert Leads(r, run, r);
    hide Leads;
    run := Before(Runner(Leader, 1, Leading, false, 0), Deposes(2), run, r);
    run := Before(Runner(Leader, 1, Leading, false, 1), Answered(1), run, r);
    run := Before(Runner(Leader, 1, Leading, false, 0), Sends, run, r);
    run := Before(Runner(Leader, 1, Choosing, false, 0), Enters, run, r);
    run := Before(Runner(Leader, 1, Waiting, false, 0), VotesIn, run, r);
    run := Before(Runner(Candidate, 1, Campaigning, false, 0), Wins, run, r);
    run := Before(Runner(Candidate, 0, Choosing, false, 0), Enters, run, r);
    run := Before(Runner(Follower, 0, Following, false, 0), TimesOut, run, r);
    run := Before(START, Enters, run, r);
  }

  // --- Leading without runLeader ---

  /** runLeader is not left in the run, so that it aborts no waiter. */
  predicate NeverAborts(run: seq<Event>) {
    forall i :: 0 <= i < |run| ==> !run[i].Closes?
  }

  /** A node leads term 1, is deposed while it still waits for its vote requests, and leads term 3,
      without runLeader having started in between. */
  lemma LeadsTwice() returns (run: seq<Event>, r: Runner)
    ensures Leads(START, run, r) && NeverAborts(run) && r.role == Leader && r.term == 3
  {
    r := Runner(Leader, 3, Waiting, false, 0);
    run := [];
    assert Leads(r, run, r);
    hide Leads;
    run := Quietly(Runner(Candidate, 3, Campaigning, false, 0), Wins, run, r);
    run := Quietly(Runner(Candidate, 2, Choosing, false, 0), Enters, run, r);
    run := Quietly(Runner(Follower, 2, Following, false, 0), TimesOut, run, r);
    run := Quietly(Runner(Follower, 2, Choosing, false, 0), Enters, run, r);
    run := Quietly(Runner(Follower, 2, Waiting, false, 0), VotesIn, run, r);
    run := Quietly(Runner(Leader, 1, Waiting, false, 0), Deposes(2), run, r);
    run := Quietly(Runner(Candidate, 1, Campaigning, false, 0), Wins, run, r);
    run := Quietly(Runner(Candidate, 0, Choosing, false, 0), Enters, run, r);
    run := Quietly(Runner(Follower, 0, Following, false, 0), TimesOut, run, r);
    run := Quietly(START, Enters, run, r);
  }

  lemma Quietly(r: Runner, e: Event, run: seq<Event>, r2: Runner) returns (longer: seq<Event>)
    requires Enabled(r, e) && Leads(Do(r, e), run, r2) && NeverAborts(run) && !e.Closes?
    ensures Leads(r, longer, r2) && NeverAborts(longer)
  {
    longer := [e] + run;
    assert longer[1..] == run;
  }
}
