/** The replica object: its fields, and its handlers as they run, loops included. Each handler is one step
    under the lock, and is proved to compute the step function of the same handler in RaftSteps.dfy. */
module RaftServer {
  import opened RaftTypes
  import Steps = RaftSteps
  import Codec
  import Quorum

  // A request as it travels: the entries are text.
  datatype WireAppend = WireAppend(
    term: int, leaderId: nat, prevLogIndex: int, prevLogTerm: int, leaderCommit: int, sendLogs: string)

  function Parsed(w: WireAppend, es: seq<LogEntry>): AppendRequest {
    AppendRequest(w.term, w.leaderId, w.prevLogIndex, w.prevLogTerm, w.leaderCommit, es)
  }

  // The scan reads only the log.
  lemma {:induction false} SameScan(a: Node, b: Node, t: int, from: int, last: int)
    requires a.logs == b.logs && a.lastIncludedIndex == b.lastIncludedIndex
    requires a.lastIncludedIndex < from && last <= a.LastIndex()
    ensures Steps.FirstOfTerm(a, t, from, last) == Steps.FirstOfTerm(b, t, from, last)
    decreases last - from
  {
    if from <= last { SameScan(a, b, t, from + 1, last); }
  }

  class Raft {
    const peer_id: nat
    var m_curTerm: int
    var m_voteFor: int
    var m_state: Role
    var m_logs: seq<LogEntry>
    var m_nextIndex: seq<int>
    var m_matchIndex: seq<int>
    var m_lastApplied: int
    var m_commitIndex: int
    var m_lastIncludedIndex: int
    var m_lastIncludeTerm: int
    var recvVotes: int
    var finishedVote: int

    constructor (n: nat, id: nat)
      ensures peer_id == id && State() == Steps.InitNode(n)
    {
      peer_id := id;
      m_curTerm, m_voteFor, m_state, m_logs := 0, -1, Follower, [];
      m_nextIndex, m_matchIndex := seq(n, _ => 1), seq(n, _ => 0);
      m_lastApplied, m_commitIndex, m_lastIncludedIndex, m_lastIncludeTerm := 0, 0, 0, 0;
      recvVotes, finishedVote := 0, 0;
    }

    ghost function State(): Node
      reads this
    {
      Node(m_curTerm, m_voteFor, m_state, m_logs, m_nextIndex, m_matchIndex, m_lastApplied, m_commitIndex,
           m_lastIncludedIndex, m_lastIncludeTerm, recvVotes, finishedVote)
    }

    // ---------- readers ----------

    function CompressLogidx(index: int): int
      reads this
    {
      index - m_lastIncludedIndex - 1
    }

    function lastindex(): int
      reads this
    {
      m_lastIncludedIndex + |m_logs|
    }

    function lastterm(): int
      reads this
    {
      if |m_logs| != 0 then m_logs[|m_logs| - 1].term else m_lastIncludeTerm
    }

    method CheckLogUptodate(term: int, index: int) returns (ok: bool)
      ensures ok == Steps.UpToDate(State(), term, index)
    {
      var lastTerm := lastterm();
      if |m_logs| == 0 { return true; }
      if term > lastTerm { return true; }
      if term == lastTerm && index >= lastindex() { return true; }
      return false;
    }

    // ---------- commands ----------

    method Start(cmd: string) returns (ret: StartRet)
      modifies this`m_logs
      ensures (State(), ret) == Steps.Start(old(State()), cmd)
    {
      if m_state != Leader { return StartRet(-1, -1, false); }
      ret := StartRet(lastindex(), m_curTerm, true);
      m_logs := m_logs + [LogEntry(cmd, m_curTerm)];
    }

    // ---------- elections ----------

    // `ElectionLoop` after the timeout, up to the vote requests.
    method BeginElection()
      modifies this
      ensures State() == Steps.BeginElection(old(State()), peer_id)
    {
      if m_state == Follower { m_state := Candidate; }
      if m_state == Candidate {
        m_voteFor := peer_id;
        recvVotes := 1;
        finishedVote := 1;
      }
    }

    // `ElectionLoop` after the wait; the tables are filled entry by entry.
    method FinishElection()
      requires |m_matchIndex| == |m_nextIndex|
      modifies this
      ensures State() == Steps.FinishElection(old(State()))
    {
      if m_state != Candidate { return; }
      if recvVotes > |m_nextIndex| / 2 {
        m_state := Leader;
        m_curTerm := m_curTerm + 1;
        var i := 0;
        while i < |m_nextIndex|
          invariant 0 <= i <= |m_nextIndex| == |m_matchIndex| == old(|m_nextIndex|)
          invariant forall j :: 0 <= j < i ==> m_nextIndex[j] == lastindex() + 1 && m_matchIndex[j] == 0
          invariant State() == old(State()).(role := Leader, curTerm := old(m_curTerm) + 1,
                                             nextIndex := m_nextIndex, matchIndex := m_matchIndex)
        {
          m_nextIndex := m_nextIndex[i := lastindex() + 1];
          m_matchIndex := m_matchIndex[i := 0];
          i := i + 1;
        }
      }
    }

    method BuildVoteRequest() returns (req: VoteRequest)
      ensures req == Steps.BuildVoteRequest(State(), peer_id)
    {
      req := VoteRequest(m_curTerm + 1, peer_id, lastindex(), lastterm());
    }

    method TakeVoteResponse(resp: VoteResponse)
      modifies this
      ensures State() == Steps.OnVoteResponse(old(State()), resp)
    {
      finishedVote := finishedVote + 1;
      if resp.term > m_curTerm + 1 {
        m_state := Follower;
        m_curTerm := resp.term;
        m_voteFor := -1;
      }
      if resp.isAccepted { recvVotes := recvVotes + 1; }
    }

    method ReplyVote(req: VoteRequest) returns (resp: VoteResponse)
      modifies this
      ensures (State(), resp) == Steps.ReplyVote(old(State()), req)
    {
      resp := VoteResponse(m_curTerm, false);
      if m_curTerm > req.term { return; }
      if m_curTerm < req.term {
        m_state := Follower;
        m_curTerm := req.term;
        m_voteFor := -1;
      }
      if m_voteFor == -1 || m_voteFor == req.candidateId {
        var ok := CheckLogUptodate(req.lastLogTerm, req.lastLogIndex);
        if !ok { return; }
        resp := resp.(isAccepted := true);
        m_voteFor := req.candidateId;
      }
    }

    // ---------- replication: the leader's side ----------

    // `SendAppendEntries` under its first lock.
    method BuildAppend(peer: nat) returns (w: WireAppend, sendSize: nat)
      requires Steps.CanBuildAppend(State(), peer)
      ensures var req := Steps.BuildAppend(State(), peer_id, peer);
              w == WireAppend(req.term, req.leaderId, req.prevLogIndex, req.prevLogTerm, req.leaderCommit,
                              Codec.WireText(req.entries))
              && sendSize == |req.entries|
    {
      var prev := m_nextIndex[peer] - 1;
      var text;
      text, sendSize := Codec.AppendEntriesText(m_logs, CompressLogidx(prev) + 1, ';');
      var prevTerm := m_lastIncludeTerm;
      if prev != m_lastIncludedIndex { prevTerm := m_logs[CompressLogidx(prev)].term; }
      w := WireAppend(m_curTerm, peer_id, prev, prevTerm, m_commitIndex, text);
    }

    // The downward scan for the last entry whose term is not above the reported one.
    method ScanDown(t: int, from: int) returns (found: int)
      requires from <= lastindex()
      ensures found == Steps.LastAtMost(State(), t, from)
    {
      found := -1;
      var index := from;
      while index > m_lastIncludedIndex
        invariant index <= from && found == -1
        invariant Steps.LastAtMost(State(), t, from) == Steps.LastAtMost(State(), t, index)
        decreases index - m_lastIncludedIndex
      {
        if m_logs[CompressLogidx(index)].term <= t {
          found := index;
          break;
        }
        index := index - 1;
      }
    }

    // The commit test on the sorted match table.
    method AdvanceCommit()
      requires Steps.CanAdvanceCommit(State(), m_matchIndex)
      modifies this`m_commitIndex
      ensures m_commitIndex == Steps.CommitAfter(old(State()), m_matchIndex)
    {
      var tmp := Quorum.Sort(m_matchIndex);
      var majority := tmp[|tmp| / 2];
      if majority > m_commitIndex
         && (majority <= m_lastIncludedIndex || m_logs[CompressLogidx(majority)].term == m_curTerm)
      {
        m_commitIndex := majority;
      }
    }

    // `SendAppendEntries` under its second lock.
    method TakeAppendResponse(peer: nat, req: AppendRequest, sendSize: nat, resp: AppendResponse)
      requires Steps.CanTakeResponse(State(), peer_id, peer, req, resp) && sendSize == |req.entries|
      modifies this
      ensures State() == Steps.OnAppendResponse(old(State()), peer_id, peer, req, resp)
    {
      if m_curTerm != req.term { return; }
      if resp.term > m_curTerm {
        m_state := Follower;
        m_curTerm := resp.term;
        m_voteFor := -1;
        return;
      }
      if resp.success {
        var next := m_nextIndex[peer] + sendSize;
        m_nextIndex := m_nextIndex[peer := next];
        m_matchIndex := m_matchIndex[peer := next - 1][peer_id := lastindex()];
        AdvanceCommit();
      } else if resp.conflictTerm != -1 {
        var conflictIndex := ScanDown(resp.conflictTerm, req.prevLogIndex);
        if conflictIndex != -1 {
          m_nextIndex := m_nextIndex[peer := conflictIndex + 1];
        } else {
          m_nextIndex := m_nextIndex[peer := resp.conflictIndex];
        }
      } else {
        m_nextIndex := m_nextIndex[peer := resp.conflictIndex + 1];
      }
    }

    method TakeSnapResponse(peer: nat, req: SnapRequest, resp: SnapResponse)
      requires peer_id < |m_matchIndex| && peer < |m_matchIndex| == |m_nextIndex|
      requires m_curTerm == resp.term ==> Steps.CanAdvanceCommit(
        State(), m_matchIndex[peer := req.lastIncludeIndex][peer_id := lastindex()])
      modifies this
      ensures State() == Steps.OnSnapResponse(old(State()), peer_id, peer, req, resp)
    {
      if m_curTerm != resp.term { return; }
      m_nextIndex := m_nextIndex[peer := lastindex() + 1];
      m_matchIndex := m_matchIndex[peer := req.lastIncludeIndex][peer_id := lastindex()];
      AdvanceCommit();
    }

    // ---------- replication: the follower's side ----------

    // The upward scan for the first entry of the conflicting term.
    method ScanUp(t: int, last: int) returns (found: int)
      requires last <= lastindex()
      ensures found == Steps.FirstOfTerm(State(), t, m_lastIncludedIndex + 1, last)
    {
      found := -1;
      var index := m_lastIncludedIndex + 1;
      while index <= last
        invariant m_lastIncludedIndex < index && found == -1
        invariant Steps.FirstOfTerm(State(), t, m_lastIncludedIndex + 1, last)
                  == Steps.FirstOfTerm(State(), t, index, last)
        decreases last - index
      {
        if m_logs[CompressLogidx(index)].term == t {
          found := index;
          break;
        }
        index := index + 1;
      }
    }

    // Entries past prevLogIndex are popped one by one, then the received ones pushed one by one.
    method Overwrite(prev: int, recv: seq<LogEntry>)
      requires m_lastIncludedIndex <= prev <= lastindex()
      modifies this`m_logs
      ensures m_logs == old(m_logs)[..prev - m_lastIncludedIndex] + recv
    {
      var logsize := lastindex();
      var i := prev;
      while i < logsize
        invariant prev <= i <= logsize && |m_logs| == logsize - m_lastIncludedIndex - (i - prev)
        invariant m_logs == old(m_logs)[..|m_logs|]
      {
        m_logs := m_logs[..|m_logs| - 1];
        i := i + 1;
      }
      var k := 0;
      while k < |recv|
        invariant 0 <= k <= |recv| && m_logs == old(m_logs)[..prev - m_lastIncludedIndex] + recv[..k]
      {
        m_logs := m_logs + [recv[k]];
        k := k + 1;
      }
      assert recv[..k] == recv;
    }

    // The previous entry agrees: the log is overwritten and the commit index follows the leader's.
    method TakeEntries(w: WireAppend, recv: seq<LogEntry>)
      requires Steps.PrevMatches(State(), Parsed(w, recv))
      modifies this`m_logs, this`m_commitIndex
      ensures State() == Steps.Overwrite(old(State()), Parsed(w, recv))
    {
      Overwrite(w.prevLogIndex, recv);
      if m_commitIndex < w.leaderCommit {
        m_commitIndex := if w.leaderCommit <= lastindex() then w.leaderCommit else lastindex();
      }
    }

    method ReplyAppendParsed(w: WireAppend, recv: seq<LogEntry>) returns (resp: AppendResponse)
      modifies this
      ensures (State(), resp) == Steps.ReplyAppend(old(State()), Parsed(w, recv))
    {
      resp := AppendResponse(m_curTerm, false, -1, -1);
      if w.term < m_curTerm { return; }
      if w.term > m_curTerm { m_voteFor := -1; }
      m_curTerm := w.term;
      m_state := Follower;
      assert State() == Steps.Adopt(old(State()), Parsed(w, recv));
      if w.prevLogIndex < m_lastIncludedIndex {
        resp := resp.(conflictIndex := 1);
        return;
      } else if w.prevLogIndex == m_lastIncludedIndex {
        if w.prevLogTerm != m_lastIncludeTerm {
          resp := resp.(conflictIndex := 1);
          return;
        }
      } else {
        if lastindex() < w.prevLogIndex {
          resp := resp.(conflictIndex := lastindex() + 1);
          return;
        }
        var t := m_logs[CompressLogidx(w.prevLogIndex)].term;
        if t != w.prevLogTerm {
          var first := ScanUp(t, w.prevLogIndex);
          resp := resp.(conflictTerm := t, conflictIndex := first);
          SameScan(old(State()), State(), t, m_lastIncludedIndex + 1, w.prevLogIndex);
          return;
        }
      }
      TakeEntries(w, recv);
      resp := resp.(success := true);
    }

    // None: the text does not parse, and the handler never gets as far as its lock.
    method ReplyAppend(w: WireAppend) returns (r: Option<AppendResponse>)
      modifies this
      ensures match Codec.GetCmdAndTerm(w.sendLogs)
              case None => r == None && State() == old(State())
              case Some(es) => r.Some? && (State(), r.value) == Steps.ReplyAppend(old(State()), Parsed(w, es))
    {
      var parsed := Codec.ReadWire(w.sendLogs);
      if parsed.None? { return None; }
      var resp := ReplyAppendParsed(w, parsed.value);
      r := Some(resp);
    }

    // ---------- the key-value layer and snapshots ----------

    method ApplyLog() returns (msgs: seq<ApplyMsg>)
      requires Steps.CanApply(State())
      modifies this`m_lastApplied
      ensures State() == Steps.AfterApply(old(State())) && msgs == Steps.Handed(old(State()))
    {
      msgs := [];
      ghost var start := State();
      while m_lastApplied < m_commitIndex
        invariant start.lastApplied <= m_lastApplied && (m_lastApplied <= m_commitIndex || msgs == [])
        invariant State() == start.(lastApplied := m_lastApplied) && |msgs| == m_lastApplied - start.lastApplied
        invariant forall i | start.lastApplied < i <= m_lastApplied ::
          start.Holds(i) && msgs[i - start.lastApplied - 1] == Steps.Msg(start, i)
        decreases m_commitIndex - m_lastApplied
      {
        m_lastApplied := m_lastApplied + 1;
        var slot := CompressLogidx(m_lastApplied);
        msgs := msgs + [ApplyMsg(m_logs[slot].cmd, m_lastApplied, m_logs[slot].term)];
        assert msgs[|msgs| - 1] == Steps.Msg(start, m_lastApplied);
      }
      ghost var all := Steps.Handed(start);
      forall k | 0 <= k < |all| ensures msgs[k] == all[k] {
        assert all[k] == Steps.Msg(start, start.lastApplied + 1 + k);
      }
    }

    // `ok` is false where the program reads `m_logs` out of range: the guard lets the current label through,
    // and nothing checks the upper end.
    method RecvSnapShot(lastIncludedIndex: int) returns (ok: bool)
      modifies this
      ensures ok == Steps.CanCompact(old(State()), lastIncludedIndex)
      ensures State() == if ok then Steps.Compact(old(State()), lastIncludedIndex) else old(State())
    {
      if lastIncludedIndex < m_lastIncludedIndex { return true; }
      if !(0 <= CompressLogidx(lastIncludedIndex) < |m_logs|) { return false; }
      var compressLen := lastIncludedIndex - m_lastIncludedIndex;
      m_lastIncludeTerm := m_logs[CompressLogidx(lastIncludedIndex)].term;
      m_lastIncludedIndex := lastIncludedIndex;
      var tmpLogs: seq<LogEntry> := [];
      var i := compressLen;
      while i < |m_logs|
        invariant compressLen <= i <= |m_logs| && tmpLogs == m_logs[compressLen..i]
      {
        tmpLogs := tmpLogs + [m_logs[i]];
        i := i + 1;
      }
      m_logs := tmpLogs;
      ok := true;
    }

    // `up` tells whether the snapshot is handed to the key-value layer.
    method ReplyInstallSnap(req: SnapRequest) returns (resp: SnapResponse, up: bool)
      modifies this
      ensures (State(), resp, up) == Steps.InstallSnap(old(State()), req)
    {
      resp, up := SnapResponse(m_curTerm), false;
      if req.term < m_curTerm { return; }
      if req.term > m_curTerm { m_voteFor := -1; }
      m_curTerm := req.term;
      m_state := Follower;
      if req.lastIncludeIndex <= m_lastIncludedIndex { return; }
      if req.lastIncludeIndex < lastindex() {
        if m_logs[CompressLogidx(lastindex())].term != req.lastIncludeTerm {
          m_logs := [];
        } else {
          m_logs := m_logs[CompressLogidx(req.lastIncludeIndex) + 1..];
        }
      } else {
        m_logs := [];
      }
      m_lastIncludedIndex := req.lastIncludeIndex;
      m_lastIncludeTerm := req.lastIncludeTerm;
      m_lastApplied := m_lastIncludedIndex;
      up := true;
    }
  }

  // With commands free of ',' and ';' the follower handles exactly the leader's request.
  lemma {:induction false} WireCarriesRequest(nd: Node, self: nat, peer: nat)
    requires Steps.CanBuildAppend(nd, peer)
    ensures var req := Steps.BuildAppend(nd, self, peer);
            Codec.EntriesSafe(nd.logs, ';') ==> Codec.GetCmdAndTerm(Codec.WireText(req.entries)) == Some(req.entries)
  {
    var from := nd.nextIndex[peer] - 1 - nd.lastIncludedIndex;
    Codec.WireRoundTrip(nd.logs[from..]);
    if Codec.EntriesSafe(nd.logs, ';') {
      forall i | 0 <= i < |nd.logs[from..]|
        ensures Codec.Lacks(nd.logs[from..][i].cmd, ',') && Codec.Lacks(nd.logs[from..][i].cmd, ';')
      {
        assert nd.logs[from..][i] == nd.logs[from + i];
      }
    }
  }
}
