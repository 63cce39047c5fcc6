# Verification model of the Raft core

This project models the Raft implementation in `raft/node.go` and `raft/snapshot.go`, the
dispatcher that its log drives (`raft/dispatcher.go`), and the history checker in
`experiments/lincheck/main.go`, and proves what they are meant to guarantee. Run
`dafny verify dfyconfig.toml` to check everything.

## How it is laid out

- **Handlers and logs** (`Types`, `LogStore`, `Handlers`, `Waiters`): the effect of every critical
  section, as functions on the fields that the mutex protects. They work on logs with any floor.
- **One node** (`Node`): the class with the fields of the code and a method for each critical
  section, loops included. Each method is proved equal to its function.
- **The cluster** (`Cluster` to `Safety`): any number of nodes, and messages that may be lost,
  repeated and reordered. `Cluster.Do` is one critical section of one node, built from the same
  functions. A leader has one call to a peer in progress at a time; its answer arrives or the call
  is given up, and the request may still be handled later. Members carry their full logs and a
  floor; `Refinement` shows that the log in memory, the requests, the replies and the snapshot
  labels are those of the code. `Invariant` (logs, votes, commitments) and `Shipping` (calls and
  snapshots) are inductive; `Safety` draws the conclusions for runs of any length.
- **Guards** (`Guards`, `Witnesses`): the places where the code is weaker than its claim. A guarded
  run is one that avoids the first two of the list below, and of the third only what leaves an
  entry or a label in flight behind. Each guard is shown exact, and a concrete run shows what goes
  wrong without it.
- **Catching up** (`CatchUp`, `CatchUpRuns`): back-off and snapshot shipping between a leader and
  one peer.
- **Callers** (`Proposals`, `WaiterWitness`, `Silencing`, `Forgotten`, `ForgottenWitness`): the
  cluster together with the channels on which Propose callers wait, in guarded runs that install no
  snapshot below a commit index.
- **State machine and snapshots** (`Dispatch`, `Replicas`, `Publishing`, `ReplicaRuns`,
  `ReplicaWitness`): the apply loop, publishing and acknowledging, the three parts of taking a
  snapshot and the two of installing one, interleaved at every point where a mutex is released, on
  every node, over one log.
- **The whole program** (`ApplyLoop`, `Whole`, `WholeRuns`, `Fates`, `PlaySteps`, `WholeWitness`):
  the cluster, its callers and the replicas as one machine over the log that `Safety.OneLog`
  provides. A step of the cluster that touches the apply loop or a snapshot is a step of the replica
  too; the dispatcher asks for the role that the member has at that moment.
- **The Run goroutine** (`RunLoop`, `Driving`): where it is while handlers change the role under it,
  and the cluster as the goroutines drive it.
- **The checker** (`Lincheck`): linearizability in the sense of Herlihy and Wing.

## Where the code falls short of its claims

Each of these is modelled as the code has it, with the exact condition under which it happens and,
for most, a run that shows it; the properties are proved for the runs that avoid it.

1. `raft/node.go:315-319`: a candidate becomes leader without rechecking that its term is still that
   of the election. Two leaders of one term can result (`Witnesses.LateWinMakesTwoLeaders`,
   `Guards.WinGuardExact`).
2. `raft/node.go:601-605` and `674-678`: a node that is not a follower forgets its vote within its
   term. Between the election timeout and the new term that allows a second vote
   (`Witnesses.ForgottenVoteMakesTwoLeaders`, `Guards.AppendGuardExact`); if the two are one step, it
   never happens (`Guards.AtomicRunsAreGuarded`).
3. `raft/node.go:688-699`: a snapshot is compared with the first index only, so that one below the
   commit index moves the commit index and lastApplied back (`Witnesses.SnapshotMovesBack`), and an
   entry that is being applied at that moment is recorded beyond the commit index
   (`Witnesses.SnapshotLeavesBehind`, `Guards.InstallGuardExact`). The first is harmless for what the
   cluster agrees on, and all theorems of `Safety` allow it; so is that entries which follow the
   snapshot's last one are dropped even if they match: none of them has been counted, or can still
   be (`Guards.InstallKeepsHeard`).
4. "Exactly one result" (`raft/node.go:102`) for a Propose caller is at most one, and it may be wrong.
   `raft/node.go:545-549` and `601-605` depose a leader without aborting its waiters, and waiters are
   found by index alone (`raft/node.go:850`): a caller can be told that its entry is committed when
   another one is (`WaiterWitness.CallerIsMisled`, `Proposals.DecidedIsProposed`). Of the moves of a
   guarded run two leave a caller for ever without a result, and no others
   (`Silencing.SilencedExactly`, `Forgotten.ToldExact`): a proposal at an index on which it waits
   (`Silencing.ProposeForgetsExact`), which happens when a leader is deposed while
   `raft/node.go:327` still waits for vote requests, so that runLeader and its abort never run
   (`ForgottenWitness.CallerIsForgotten`, `RunLoop.LeadsTwice`); and a snapshot that takes the apply
   loop past its index, which lines 525 to 526 do not abort either
   (`Silencing.InstallForgetsExact`, `ForgottenWitness.CallerIsStranded`).
5. `raft/node.go:476`: the back-off stops above the floor, so a peer that lacks the floor entry is
   reached only by a snapshot (`CatchUp.BackOffExact`).
6. `raft/snapshot.go:144-145` caches a snapshot even if an install has moved the floor beyond it
   since (`ReplicaWitness.CacheBelowFloor`). Shipped, such a snapshot would be shipped again for ever
   (`CatchUp.CacheMustReachFloor`); but a leader never has to ship it, as long as TakeSnapshot runs
   once at a time, as `raft/snapshot.go:154-184` runs it (`CatchUpRuns.ShipsToFloor`).
7. `raft/node.go:688-691` answers a repeated snapshot with success though the Restore of the first
   one has not ended or has failed (`ReplicaWitness.RepeatIsUntrue`,
   `ReplicaWitness.FailedRestoreStays`); `ReplicaRuns.RepeatTruthful` says exactly when it is true.
8. `raft/node.go:712-720` restores the state machine after releasing the mutex with lastApplied
   already advanced. An entry applied in between is lost from the state unless the snapshot's data
   happens to have its task (`ReplicaWitness.RestoreLosesTask`, `ReplicaRuns.RestoreExact`), against
   the comment at `raft/node.go:860-861`.
9. `raft/dispatcher.go:263-269` acknowledges an ingest message once a commit is reported at its
   index, whether or not the publish succeeded, against the comment at lines 11 to 12
   (`ReplicaWitness.AckedButLost`), and even if it is another entry that was committed
   (`WholeWitness.AckedAndLost`). `Fates.AckExact` says exactly what the acknowledgement means.
10. `raft/dispatcher.go:133-136`: only a node that leads when it first applies the entry publishes.
    If none does, the task is marked everywhere and published by nobody, against the comment at
    lines 17 to 22 (`WholeWitness.NobodyPublishes`, `ReplicaRuns.NobodyPublishesExact`).
11. `raft/node.go:361-372`: a leader deposed by a handler stays in runLeader without a signal. It
    stands for election again only if one of its calls was still in progress
    (`RunLoop.DeafExact`, `RunLoop.DeposedForGood`, `Driving.DeposedStaysOut`).

## Model

| member | source | states |
|---|---|---|
| Safety.StateMachineSafety | raft/node.go:824-872 | No two Apply calls, on any nodes at any times of a run, are for different entries with the same index |
| Safety.OneLog | raft/node.go:824-872 | In every reachable state one log contains every node's committed prefix and every entry ever applied, at its index |
| Safety.LeaderCompleteness | raft/node.go:558-573 | What any node knows to be committed is in the log of every leader of the same or a later term, then and later |
| Safety.LogMatching | raft/node.go:614-638 | Logs that hold entries with the same index and term agree on everything up to there, in every reachable state |
| Safety.ElectionSafety | raft/node.go:236-328 | A term has at most one leader, at one time or at different times, and while it leads its log only grows |
| Safety.CommittedForever | raft/node.go:640-654 | Committed prefixes of any two nodes at any two times agree as far as both reach |
| Safety.NodeInvariant | raft/node.go:590-712 | Indices are contiguous, terms sorted and at most the node's term, applied and floor at most commit, commit in the log; the term never decreases |
| Safety.CommitNeverBack | raft/node.go:640-654 | In runs that install no snapshot below a commit index no commit index ever decreases |
| Safety.MatchSoundness | raft/node.go:464-472 | A peer in the leader's term agrees with the leader up to the match index the leader holds for it |
| AllSteps.StepKeeps | raft/node.go:199-872 | Every guarded critical section keeps the inductive invariant and undoes no vote, commitment or acknowledgement |
| Proposing.ProposeKeeps | raft/node.go:788-801 | Appending to the leader's log keeps the invariant |
| Electing.WinKeeps | raft/node.go:315-319 | Becoming leader in the term of the election keeps the invariant: the new leader holds every entry that can still commit |
| Electing.NoRival | raft/node.go:247-264 | A candidate with a majority of the votes of its term has no rival, and its log is the one it campaigned with |
| Electing.WinnerKeeps | raft/node.go:558-573 | A winner's log holds every entry of an earlier term, unless a majority has left that term without it |
| Voting.GrantKeepsVotes | raft/node.go:555-573 | Granting a vote keeps the rule that nobody who helped to elect a leader votes otherwise in its term |
| Preservation.AppendStepKeeps | raft/node.go:590-658 | Handling any append, stale, rejected or accepted, keeps the invariant |
| AllSteps.SnapshotStepKeeps | raft/node.go:666-712 | Handling any snapshot, stale, ignored or installed, below the commit index or not, keeps the invariant unless it leaves an entry or label in flight behind |
| Shipped.StepShips | raft/node.go:402-486 | Every guarded critical section keeps what holds of calls and snapshots: no snapshot that can still be installed takes from a peer what a leader counts on |
| Agreement.MajoritiesMeet | raft/node.go:247 | Any two sets of n/2+1 nodes have a member in common, for every n |
| Agreement.CommitInLeader | raft/node.go:492-518 | An entry committed by a quorum in its own term is in the log of every later leader |
| Handlers.CommitScan | raft/node.go:492-518 | The scan yields the greatest index of the current term on a majority above the commit index, or leaves it; nothing above the result qualifies |
| Guards.WinGuardExact | raft/node.go:315-319 | The new leader was elected by a majority of votes of its term exactly if the term is still the campaign's |
| Guards.AppendGuardExact | raft/node.go:601-605 | After an append every vote for another is remembered exactly if the step does not clear such a vote within its term |
| Guards.SnapshotVoteGuardExact | raft/node.go:674-678 | The same for a snapshot |
| Guards.InstallGuardExact | raft/node.go:687-699 | From every reachable state a snapshot moves the commit index back exactly if it is installed below it, and leaves something in flight beyond the commit index exactly if it is installed below that |
| Guards.InstallKeepsHeard | raft/node.go:697 | In every reachable state an install drops nothing that the leader has heard acknowledged, nor an entry of an earlier term that can still commit |
| Guards.AtomicRunsAreGuarded | raft/node.go:224-242 | If timeout and term increment are one step, no vote is ever forgotten in any run from the start |
| Safety.ReachableWellFormed | raft/node.go:427-437 | In every reachable state logs are full up to their floor and requests carry the indices that follow prevLogIndex |
| Safety.LeaderCanSend | raft/node.go:418-425 | In every reachable state a leader's next index is in its log or one past it, and a peer below the floor finds a cached snapshot that reaches the floor: the clamp is never needed |
| Safety.LabelsAreCommitted | raft/snapshot.go:115-119 | In every reachable state the label of a snapshot in progress or cached is committed and has the term of the log there |
| Witnesses.LateWinMakesTwoLeaders | raft/node.go:315-319 | A run in which a late win gives a term two leaders |
| Witnesses.ForgottenVoteMakesTwoLeaders | raft/node.go:601-605 | A run in which a forgotten vote gives a term two leaders |
| Witnesses.SnapshotMovesBack | raft/node.go:688-699 | A run in which a snapshot moves a member's commit index and lastApplied back |
| Witnesses.SnapshotLeavesBehind | raft/node.go:688-699 | A run in which lastApplied ends beyond the commit index |
| Refinement.StepRefines | raft/node.go:590-658 | In every guarded step from a reachable state the compacted state and the labels of snapshots change, and the request sent and the reply given are, as the code's handler says |
| Refinement.InstallTransparent | raft/node.go:666-729 | Installing on the log in memory is installing on the full log |
| Refinement.RequestAgreesBelow | raft/node.go:615-623 | A request for a node agrees with everything at or below the node's floor, so accepting it blindly there is right |
| Compaction.AppendTransparent | raft/node.go:590-658 | An append on the compacted log gives the same reply, commit index and log as on the full one |
| Compaction.ScanCompacted | raft/node.go:492-518 | The commit scan does not depend on compaction |
| Compaction.VoteTransparent | raft/node.go:540-581 | The vote handler does not depend on compaction |
| Compaction.AppendForTransparent | raft/node.go:427-437 | The request built from the compacted log is the one built from the full log |
| Compaction.CompactAgain | raft/node.go:947-962 | Compacting further gives the image for the new floor |
| Compaction.MergePictures | raft/node.go:625-638 | The loop that skips covered entries on the compacted log mirrors the loop on the full log |
| LogStore.MergeClosedForm | raft/node.go:625-638 | The loop keeps a log that already agrees to the last entry sent, and otherwise leaves exactly the sender's log up to there |
| CatchUp.BackOff | raft/node.go:473-478 | The append is rejected once for each index between next index and last agreement, then accepted, and leaves the peer with the leader's whole log |
| CatchUp.BackOffExact | raft/node.go:476 | Back-off ever succeeds exactly if the peer holds the leader's floor entry |
| CatchUp.Stuck | raft/node.go:476 | Otherwise every further append is rejected |
| CatchUp.SnapshotCatchUp | raft/node.go:734-781 | After a cached snapshot that reaches the floor, the next append is accepted and leaves the peer with the leader's whole log |
| CatchUp.StaleForever | raft/node.go:418-422 | After any number of rounds with a snapshot below the floor the peer is below the floor still |
| CatchUp.CacheMustReachFloor | raft/node.go:418-422 | The same snapshot is shipped in every further round exactly if it stops below the floor |
| CatchUpRuns.BackOffInCluster | raft/node.go:405-486 | Back-off between members of any reachable cluster succeeds exactly if the peer holds the floor entry |
| CatchUpRuns.ShipsToFloor | raft/node.go:418-422 | In every reachable state the snapshot a leader ships reaches its floor, so the append after it is accepted and leaves the peer with the whole log |
| Waiters.OpenTidy | raft/node.go:803-804 | A new waiter keeps: one unused channel per waiter, a channel closed exactly by its one result |
| Waiters.TakeTidy | raft/node.go:850-853 | Taking a waiter keeps that, and nobody else waits on its channel |
| Waiters.DeliverTidy | raft/node.go:866-869 | So does delivering the result |
| Waiters.AbortTidy | raft/node.go:522-535 | So does aborting |
| Waiters.AbortNext | raft/node.go:525-534 | One turn of the abort loop |
| Proposals.WaiterResults | raft/node.go:849-869 | At most one result a caller; a committed one only for a decided and applied index, and about the proposed entry exactly if the terms match |
| Proposals.SparedResults | raft/node.go:522-535 | If no awaited entry is removed, a committed result is about the proposed entry, and a caller without a result is still registered; whether it can be told is `Forgotten.SparedSilence` |
| Proposals.AbortingRunsSpare | raft/node.go:371-372 | A run in which waiters are aborted before anything is taken from another leader removes no awaited entry |
| Proposals.AppendSparesExact | raft/node.go:624-638 | An append spares the awaited entries exactly if it conflicts at none of their indices nor below |
| Proposals.DecidedIsProposed | raft/node.go:849-869 | The entry decided at a proposed index is the proposed one exactly if the terms match |
| WaiterWitness.CallerIsMisled | raft/node.go:849-869 | A guarded run in which a caller is told that its entry is committed and it is not |
| Silencing.SilencedExactly | raft/node.go:687-699 | A move makes it impossible to tell a caller exactly if it is a proposal at the index awaited, or installs a snapshot that takes the apply loop past it |
| Silencing.ProposeForgetsExact | raft/node.go:788-805 | Propose silences a caller exactly if one waits at the index after the last one of the log |
| Silencing.InstallForgetsExact | raft/node.go:697-699 | An install silences a caller exactly if one waits, not passed yet, below the snapshot's index, or at it unless the entry before is in flight |
| Forgotten.ToldExact | raft/node.go:849-869 | A caller without a result gets one in some later run exactly if it has not been silenced |
| Forgotten.SparedSilence | raft/node.go:843-844 | In runs that remove no awaited entry only a snapshot silences a caller |
| Forgotten.NobodyForgotten | raft/node.go:522-535 | In runs without such proposals and installs every caller has its result or can still get it |
| ForgottenWitness.CallerIsForgotten | raft/node.go:315-327 | A guarded run in which a proposal silences a caller |
| ForgottenWitness.CallerIsStranded | raft/node.go:697-699 | A guarded run in which a snapshot silences a caller whose index is never proposed again |
| Dispatch.SnapshotPlusTail | raft/snapshot.go:103-150 | Data written down after its label, restored and followed by a replay from the label, ends as a replay of the whole log |
| Dispatch.ReplayAdds | raft/dispatcher.go:109-136 | A replay adds exactly the tasks of the replayed entries |
| Dispatch.Dispatcher.Apply | raft/dispatcher.go:109-160 | Publishes a new task if leading and the queue takes it, and remembers it unless that failed |
| Dispatch.Dispatcher.Snapshot | raft/dispatcher.go:298-306 | Lists every dispatched task once |
| Dispatch.Dispatcher.Restore | raft/dispatcher.go:309-321 | The dispatched set becomes the listed tasks |
| Dispatch.Dispatcher.HandleIngest | raft/dispatcher.go:212-274 | The command proposed, if any, with task, priority and key, and exactly when the message is acknowledged |
| Replicas.StepKeeps | raft/node.go:824-872 | Every step of apply loops and snapshots that keeps out of the window before a Restore, on any node, keeps the invariant |
| ReplicaRuns.InOrderApply | raft/node.go:824-872 | Applied indices strictly increase, and an index passed over is covered by an installed snapshot, for every interleaving in which this node installs no snapshot below its commit index |
| ReplicaRuns.ReplicasConverge | raft/snapshot.go:103-150 | Up to failed publishes the dispatched set is that of a full replay, in runs that keep picks and installs out of the window before a Restore, and in which none fails |
| ReplicaRuns.SnapshotsAreComplete | raft/snapshot.go:115-146 | A saved snapshot holds every task up to its label, but for failed ones, in the same runs |
| ReplicaRuns.NewOnce | raft/dispatcher.go:122-131 | No task is treated as new, or published, twice by a node unless a publish of it failed, in the same runs |
| ReplicaRuns.PublishedOnce | raft/dispatcher.go:14-22 | A node that never installed a snapshot publishes a task at most once, in every run whatever |
| ReplicaRuns.PublisherLedFirst | raft/dispatcher.go:133-136 | In every run a node publishes a task only if it led when it treated it as new, and first applied it so unless a publish failed |
| ReplicaRuns.PublishedExactly | raft/dispatcher.go:122-155 | In every run a node has published a task exactly if it led more often on treating it as new than its publish failed |
| ReplicaRuns.TreatedExactlyOnce | raft/dispatcher.go:122-136 | Without snapshots and failures a node has published an applied task exactly if it led, and not followed, when it first applied it |
| ReplicaRuns.NobodyPublishesExact | raft/dispatcher.go:133-136 | A task applied on every node is published by none exactly if every node followed when it first applied it |
| Fates.AckedInLog | raft/dispatcher.go:263-269 | The entry of a caller told to be committed is in the agreed log at its index exactly if the result's term is that of the proposal |
| Fates.AckExact | raft/dispatcher.go:251-269 | What an acknowledgement means in every run of the whole program: the entry is in the log exactly if the terms match, and the node has published the task exactly if it led when it first applied it and the publish did not fail |
| ReplicaRuns.SameUpToFailures | raft/dispatcher.go:105-131 | Nodes that applied the same entries differ only in tasks of which a publish failed, whatever happens on other nodes |
| ReplicaRuns.InstallOrderExact | raft/node.go:687-699 | An install keeps the apply order exactly if the snapshot is not below lastApplied |
| ReplicaRuns.RestoreExact | raft/node.go:712-720 | After the step that restores a snapshot the node holds all it has reached exactly if each task of an entry beyond the label is in the data or has failed |
| ReplicaRuns.RepeatTruthful | raft/node.go:688-691 | After such a run, an ignored snapshot's success is true exactly if the entries beyond what the state machine holds bring no missing task; always so if no restore is pending, and a restore that then fails changes nothing |
| ReplicaRuns.FirstAnswerTruthful | raft/node.go:712-728 | After such a run, the success after a restore is true |
| ReplicaWitness.RestoreLosesTask | raft/node.go:712-720 | A run in which a late restore loses a task |
| ReplicaWitness.RepeatIsUntrue | raft/node.go:688-691 | A guarded run in which a repeat is answered with success before the restore |
| ReplicaWitness.FailedRestoreStays | raft/node.go:713-716 | A run in which that restore then fails and repeats succeed all the same |
| WholeWitness.NobodyPublishes | raft/dispatcher.go:133-136 | A run of the whole program in which the leader commits, is deposed before its Apply, and nobody publishes the task, with the message acknowledged |
| WholeWitness.AckedAndLost | raft/dispatcher.go:263-269 | A run of the whole program, for any outcomes of the publishes, in which the message of a misled caller is acknowledged and no log has an entry for its task |
| ReplicaWitness.AckedButLost | raft/dispatcher.go:263-269 | A guarded run in which a message is acknowledged and its task neither published nor remembered |
| ReplicaWitness.CacheBelowFloor | raft/snapshot.go:141-146 | A guarded run that leaves a cached snapshot below the first index |
| Whole.ProgramOk | raft/node.go:824-872 | In every run of the whole program cluster, callers and replicas are in states they reach by themselves, with the same apply loop and labels; every Apply is a pick, every committed result an acknowledgement |
| WholeRuns.NothingBarred | raft/node.go:833-864 | The dispatcher never bars a step of the cluster for which it is ready |
| WholeRuns.EveryRunIsWhole | raft/dispatcher.go:109-160 | Every run of the cluster with its callers is one of the whole program over its agreed log, with the members' own roles and any outcomes of the publishes |
| WholeRuns.ClusterHasOffice | raft/node.go:788-820 | Every state of the cluster that guarded forward steps reach is one with callers |
| RunLoop.DeafExact | raft/node.go:361-372 | A leader deposed by a handler can stand for election again exactly if one of its calls is still in progress |
| RunLoop.DeposedForGood | raft/node.go:543-549 | A run in which it never can |
| RunLoop.LeadsTwice | raft/node.go:315-327 | A node leads, is deposed and leads again without runLeader having run, so that no waiter is aborted |
| Driving.StepDrives | raft/node.go:174-373 | Every step of the cluster moves its node's goroutine as the code moves it: role, term and calls in progress stay the member's |
| Driving.DeposedStaysOut | raft/node.go:361-372 | In every driven run of the cluster a member deposed by a handler in runLeader, without a call in progress, never stands, wins or calls again |
| Lincheck.Characterisation | experiments/lincheck/main.go:59-83 | A timed history is linearizable for the product model exactly if no read that finished before another of its task began returned a higher code |
| Lincheck.TaskCharacterisation | experiments/lincheck/main.go:193-197 | The same for one task and the model of one task |
| Lincheck.Locality | experiments/lincheck/main.go:188-198 | Checking the tasks one by one accepts exactly the histories that one global check accepts |
| Lincheck.SequentialPolls | experiments/lincheck/main.go:193-194 | For polls that do not overlap, linearizable means that known codes never decrease in call order |
| Lincheck.SortingIsHarmless | experiments/lincheck/main.go:194 | The verdict does not depend on the order of the list |
| Lincheck.CodesFollowLife | experiments/lincheck/main.go:40-51 | Codes rise along a task's life, completed and failed are equally final, and exactly these four statuses are known |
| Lincheck.AcceptsAllIff | experiments/lincheck/main.go:67-83 | The model accepts an order exactly if no known code is below an earlier one of its task |
| Lincheck.LoadHistory | experiments/lincheck/main.go:111-155 | Groups exactly the observed polls with a known status by task, in file order |
| Lincheck.CheckTasks | experiments/lincheck/main.go:188-198 | Finds exactly the violating tasks and counts every operation once |
| Lincheck.CheckHistory | experiments/lincheck/main.go:169-212 | The verdict is linearizability of the whole history; the counts are those of the history and of its violating tasks |
| RaftNode.Node.constructor | raft/node.go:150-164 | A new node is an idle follower with an empty log |
| RaftNode.Node.TruncateAt | raft/node.go:934-943 | Drops the entries from an index on, never the placeholder |
| RaftNode.Node.CompactLog | raft/node.go:947-962 | Drops the entries up to an index and keeps a placeholder there |
| RaftNode.Node.ElectionTimeout | raft/node.go:224-229 | The role becomes candidate |
| RaftNode.Node.StartElection | raft/node.go:236-268 | New term, own vote, the request for votes, and the win of a node without peers |
| RaftNode.Node.HandleVoteReply | raft/node.go:278-304 | A higher term deposes; a granted vote is counted; the win is signalled exactly at a majority |
| RaftNode.Node.InitLeaderState | raft/node.go:964-977 | Every peer gets next index one past the log and match index 0 |
| RaftNode.Node.BecomeLeader | raft/node.go:316-319 | The state of a new leader |
| RaftNode.Node.HandleRequestVote | raft/node.go:540-581 | State and reply are those of the vote handler |
| RaftNode.Node.AppendEntries | raft/node.go:625-638 | The loop computes the merge of the entries into the log |
| RaftNode.Node.HandleAppendEntries | raft/node.go:590-658 | State and reply are those of the append handler |
| RaftNode.Node.PrepareAppend | raft/node.go:408-438 | What is sent to a peer, and the next index it is clamped to |
| RaftNode.Node.CountReplicas | raft/node.go:503-508 | Counts the leader and every listed peer that reached an index |
| RaftNode.AdvancedIsMajority | raft/node.go:492-518 | If no peer is listed twice, the list scan commits what a majority of the cluster stores |
| RaftNode.Node.MaybeAdvanceCommit | raft/node.go:492-518 | The loop commits what the scan selects |
| RaftNode.Node.HandleAppendReply | raft/node.go:448-485 | The leader's state after a reply |
| RaftNode.Node.HandleInstallSnapshot | raft/node.go:666-729 | State, cached snapshot and data to restore after the locked part, and the answer for either outcome of the restore |
| RaftNode.Node.PrepareSnapshot | raft/node.go:737-752 | The cached snapshot, sent under the present term, if leading |
| RaftNode.Node.HandleSnapshotReply | raft/node.go:758-780 | The leader's state after a reply to a snapshot |
| RaftNode.Node.CaptureLabel | raft/snapshot.go:104-119 | The label of the snapshot to take, if there is anything new |
| RaftNode.Node.FinishSnapshot | raft/snapshot.go:141-146 | Compacts to the label and caches the snapshot |
| RaftNode.Node.RestoreSnapshot | raft/snapshot.go:64-98 | The node starts from the loaded snapshot, or unchanged; the snapshot is cached only if its data was restored |
| RaftNode.Node.Propose | raft/node.go:788-820 | The entry is appended, its waiter registered and the commit scan run, or nothing if not leading |
| RaftNode.Node.ApplyBegin | raft/node.go:833-854 | The entry to apply and its waiter, or a jump to the floor |
| RaftNode.Node.ApplyEnd | raft/node.go:860-869 | lastApplied is recorded and the waiter told |
| RaftNode.Node.AbortPendingProposals | raft/node.go:522-535 | Exactly the waiters above the commit index are told of failure and removed |

## Left out

- Crash and restart: term, vote and log tail are stored only inside snapshots, so safety is claimed for runs without restarts. `RestoreSnapshot` is modelled on one node only.
- Time: timers, heartbeats, timeouts and randomness are steps that may happen at any moment. Nothing is claimed about a leader being elected eventually.
- The cluster steps allow more than the code does: an election may start in any role but leader, any greater term may be adopted, a leader may send at any time; the commit scan that ends a proposal or a reply is a step of its own. What the Run goroutine adds is in `RunLoop` and `Driving`.
- Concurrent TakeSnapshot calls on one node: `raft/snapshot.go:154-184` makes one at a time, and the model has one.
- The clamp of the next index at `raft/node.go:423-426`: it is in `RaftNode.Node.PrepareAppend`; `Safety.LeaderCanSend` shows that no leader of a guarded run needs it.
- Replies to vote requests: a win takes a majority of votes cast in the campaign's term, in place of the count of replies, of which each peer sends at most one a campaign.
- Signals: the channels that reset timers, kick replicators and wake the apply loop are not modelled; each is replaced by the step it would trigger. The one that ends runLeader is in `RunLoop`.
- Transport, JSON and protobuf encoding: messages are values, and snapshot data is the list of dispatched task IDs.
- Requests whose entries do not carry the indices that follow prevLogIndex: `RaftNode.Node.HandleAppendEntries` requires that they do, and `Safety.ReachableWellFormed` shows that all requests in the cluster do.
- A blocked send to a waiter: channels have room for one result, and `Waiters` shows that there is never a second.
- The queue and the table that the dispatcher uses: their outcomes are parameters, and the conditional write that marks a task assigned is not modelled.
- Installs below the commit index in `Proposals`, `Silencing` and `Whole`: what callers are told and what is applied is stated for runs without them.
- The answer to a snapshot, which the code gives after its Restore: in `Cluster` the handler's step decides it; in `Whole` the Restore is a later step of its own.
- Porcupine's search: the checker is given by the definition of linearizability and the criterion proved equivalent to it. Client numbers play no part.
- Lincheck.CheckHistory: does not model that the sample of violating tasks is the first twenty in sorted order, only that it has that many and all of them violate.
- The workers, the state observer, the dashboard, metrics, load generation and deployment.
