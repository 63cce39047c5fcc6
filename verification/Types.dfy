/** Data carried by the Raft node (raft/node.go): log entries, roles and RPC payloads. */
module RaftTypes {

  type NodeId = nat

  datatype Option<+T> = None | Some(value: T)

  datatype Role = Follower | Candidate | Leader

  /** A decoded log command. `Nil` is the nil byte slice of a placeholder; `Foreign` stands
      for every payload the dispatcher does not recognise. */
  datatype Command =
    | Nil
    | Dispatch(task: string, priority: int, s3Key: string)
    | Foreign(bytes: seq<nat>)

  datatype LogEntry = LogEntry(term: nat, index: nat, command: Command)

  type Log = seq<LogEntry>

  datatype VoteArgs = VoteArgs(term: nat, candidate: NodeId, lastLogIndex: nat, lastLogTerm: nat)

  datatype VoteReply = VoteReply(term: nat, granted: bool)

  datatype AppendArgs = AppendArgs(
    term: nat,
    leader: NodeId,
    prevLogIndex: nat,
    prevLogTerm: nat,
    entries: seq<LogEntry>,
    leaderCommit: nat)

  datatype AppendReply = AppendReply(term: nat, success: bool)

  datatype SnapshotArgs = SnapshotArgs(term: nat, leader: NodeId, lastIndex: nat, lastTerm: nat)

  datatype SnapshotReply = SnapshotReply(term: nat, success: bool)

  /** `data` is the state machine's serialized state: the dispatched task IDs. */
  datatype RaftSnapshot = RaftSnapshot(
    lastIndex: nat,
    lastTerm: nat,
    currentTerm: nat,
    votedFor: Option<NodeId>,
    data: seq<string>)

  /** The fields of a node that its mutex protects. */
  datatype NodeState = NodeState(
    term: nat,
    votedFor: Option<NodeId>,
    log: Log,
    role: Role,
    commit: nat,
    applied: nat,
    nextIndex: map<NodeId, nat>,
    matchIndex: map<NodeId, nat>)
}
