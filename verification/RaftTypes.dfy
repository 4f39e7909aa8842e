/** The records of the Raft layer: log entries, messages and the fields of one replica.
    Terms and indexes are unbounded integers here (32-bit `int` in the program). */
module RaftTypes {

  datatype Option<+T> = None | Some(value: T)

  datatype LogEntry = LogEntry(cmd: string, term: int)

  datatype Role = Leader | Candidate | Follower

  datatype VoteRequest = VoteRequest(term: int, candidateId: nat, lastLogIndex: int, lastLogTerm: int)

  datatype VoteResponse = VoteResponse(term: int, isAccepted: bool)

  // `entries` is what the parser recovers from the wire text `m_sendLogs`.
  datatype AppendRequest = AppendRequest(
    term: int, leaderId: nat, prevLogIndex: int, prevLogTerm: int, leaderCommit: int, entries: seq<LogEntry>)

  datatype AppendResponse = AppendResponse(term: int, success: bool, conflictTerm: int, conflictIndex: int)

  datatype SnapRequest = SnapRequest(term: int, leaderId: nat, lastIncludeIndex: int, lastIncludeTerm: int)

  datatype SnapResponse = SnapResponse(term: int)

  datatype StartRet = StartRet(cmdIndex: int, curTerm: int, isLeader: bool)

  // What `ApplyLogLoop` hands up for one log entry.
  datatype ApplyMsg = ApplyMsg(cmd: string, cmdIndex: int, cmdTerm: int)

  // The fields of one replica; `votes` and `finished` are the counters recvVotes and finishedVote.
  datatype Node = Node(
    curTerm: int, voteFor: int, role: Role, logs: seq<LogEntry>,
    nextIndex: seq<int>, matchIndex: seq<int>, lastApplied: int, commitIndex: int,
    lastIncludedIndex: int, lastIncludeTerm: int, votes: int, finished: int)
  {
    function LastIndex(): int { lastIncludedIndex + |logs| }

    function LastTerm(): int { if logs == [] then lastIncludeTerm else logs[|logs| - 1].term }

    // Position in `logs` of the entry with index i.
    function Slot(i: int): int { i - lastIncludedIndex - 1 }

    predicate Holds(i: int) { lastIncludedIndex < i <= LastIndex() }

    function TermAt(i: int): int
      requires Holds(i)
    {
      logs[Slot(i)].term
    }
  }

  type Log = seq<LogEntry>

  function LastTermOf(log: Log): int {
    if log == [] then 0 else log[|log| - 1].term
  }

  ghost predicate Sorted(log: Log) {
    forall i, j :: 0 <= i <= j < |log| ==> log[i].term <= log[j].term
  }
}
