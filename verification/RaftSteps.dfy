/** What each handler of the replica does, as a function on the replica's fields. The class in
    RaftServer.dfy is proved to compute exactly these functions; the cluster takes them as its steps. */
module RaftSteps {
  import opened RaftTypes
  import Quorum

  function InitNode(n: nat): Node {
    Node(0, -1, Follower, [], seq(n, _ => 1), seq(n, _ => 0), 0, 0, 0, 0, 0, 0)
  }

  // The vote test of a replica with the given log tail: nothing to compare when `logs` is empty.
  predicate UpToDate(nd: Node, term: int, index: int) {
    nd.logs == [] || term > nd.LastTerm() || (term == nd.LastTerm() && index >= nd.LastIndex())
  }

  function Start(nd: Node, cmd: string): (Node, StartRet) {
    if nd.role != Leader then (nd, StartRet(-1, -1, false))
    else (nd.(logs := nd.logs + [LogEntry(cmd, nd.curTerm)]), StartRet(nd.LastIndex(), nd.curTerm, true))
  }

  // Election timeout of a replica that is not the leader: the term does not move.
  function BeginElection(nd: Node, self: nat): Node {
    if nd.role == Leader then nd
    else nd.(role := Candidate, voteFor := self, votes := 1, finished := 1)
  }

  function BuildVoteRequest(nd: Node, self: nat): VoteRequest {
    VoteRequest(nd.curTerm + 1, self, nd.LastIndex(), nd.LastTerm())
  }

  function OnVoteResponse(nd: Node, resp: VoteResponse): Node {
    var n1 := nd.(finished := nd.finished + 1, votes := nd.votes + if resp.isAccepted then 1 else 0);
    if resp.term > nd.curTerm + 1 then n1.(role := Follower, curTerm := resp.term, voteFor := -1) else n1
  }

  predicate WinsElection(nd: Node) {
    nd.role == Candidate && nd.votes > |nd.nextIndex| / 2
  }

  // End of a voting round: only here does the winner's term move.
  function FinishElection(nd: Node): Node {
    if !WinsElection(nd) then nd
    else nd.(role := Leader, curTerm := nd.curTerm + 1,
             nextIndex := seq(|nd.nextIndex|, _ => nd.LastIndex() + 1),
             matchIndex := seq(|nd.nextIndex|, _ => 0))
  }

  function ReplyVote(nd: Node, req: VoteRequest): (Node, VoteResponse) {
    if nd.curTerm > req.term then (nd, VoteResponse(nd.curTerm, false))
    else
      var n1 := if nd.curTerm < req.term then nd.(role := Follower, curTerm := req.term, voteFor := -1) else nd;
      if (n1.voteFor == -1 || n1.voteFor == req.candidateId) && UpToDate(n1, req.lastLogTerm, req.lastLogIndex)
      then (n1.(voteFor := req.candidateId), VoteResponse(nd.curTerm, true))
      else (n1, VoteResponse(nd.curTerm, false))
  }

  // When the request of `SendAppendEntries` can be built: `ProcessEntriesLoop` sends a snapshot
  // instead when the next index is not past the snapshot.
  predicate CanBuildAppend(nd: Node, peer: nat) {
    peer < |nd.nextIndex| && nd.lastIncludedIndex < nd.nextIndex[peer] <= nd.LastIndex() + 1
  }

  function BuildAppend(nd: Node, self: nat, peer: nat): AppendRequest
    requires CanBuildAppend(nd, peer)
  {
    var prev := nd.nextIndex[peer] - 1;
    AppendRequest(nd.curTerm, self, prev,
                  if prev == nd.lastIncludedIndex then nd.lastIncludeTerm else nd.TermAt(prev),
                  nd.commitIndex, nd.logs[prev - nd.lastIncludedIndex..])
  }

  // The first index from `from` on whose entry has term t; -1 if there is none up to `last`.
  function FirstOfTerm(nd: Node, t: int, from: int, last: int): int
    requires nd.lastIncludedIndex < from && last <= nd.LastIndex()
    decreases last - from
  {
    if from > last then -1
    else if nd.TermAt(from) == t then from
    else FirstOfTerm(nd, t, from + 1, last)
  }

  // The follower's log agrees with the request at prevLogIndex.
  predicate PrevMatches(nd: Node, req: AppendRequest) {
    if req.prevLogIndex == nd.lastIncludedIndex then req.prevLogTerm == nd.lastIncludeTerm
    else nd.Holds(req.prevLogIndex) && nd.TermAt(req.prevLogIndex) == req.prevLogTerm
  }

  function Adopt(nd: Node, req: AppendRequest): Node {
    nd.(voteFor := if req.term > nd.curTerm then -1 else nd.voteFor, curTerm := req.term, role := Follower)
  }

  function Overwrite(nd: Node, req: AppendRequest): Node
    requires PrevMatches(nd, req)
  {
    var n1 := nd.(logs := nd.logs[..req.prevLogIndex - nd.lastIncludedIndex] + req.entries);
    if n1.commitIndex < req.leaderCommit
    then n1.(commitIndex := if req.leaderCommit <= n1.LastIndex() then req.leaderCommit else n1.LastIndex())
    else n1
  }

  function ReplyAppend(nd: Node, req: AppendRequest): (Node, AppendResponse) {
    var reject := AppendResponse(nd.curTerm, false, -1, -1);
    if req.term < nd.curTerm then (nd, reject)
    else if PrevMatches(nd, req) then
      (Overwrite(Adopt(nd, req), req), AppendResponse(nd.curTerm, true, -1, -1))
    else if req.prevLogIndex <= nd.lastIncludedIndex then
      (Adopt(nd, req), reject.(conflictIndex := 1))
    else if req.prevLogIndex > nd.LastIndex() then
      (Adopt(nd, req), reject.(conflictIndex := nd.LastIndex() + 1))
    else
      var t := nd.TermAt(req.prevLogIndex);
      (Adopt(nd, req),
       reject.(conflictTerm := t,
               conflictIndex := FirstOfTerm(nd, t, nd.lastIncludedIndex + 1, req.prevLogIndex)))
  }

  // The last index down from `from`, past the snapshot, whose term is at most t; -1 if there is none.
  function LastAtMost(nd: Node, t: int, from: int): int
    requires from <= nd.LastIndex()
    decreases from - nd.lastIncludedIndex
  {
    if from <= nd.lastIncludedIndex then -1
    else if nd.TermAt(from) <= t then from
    else LastAtMost(nd, t, from - 1)
  }

  // The leader's next index for a peer that rejected the request built at prevLogIndex `prev`.
  function NextAfterReject(nd: Node, prev: int, resp: AppendResponse): int
    requires prev <= nd.LastIndex()
  {
    if resp.conflictTerm == -1 then resp.conflictIndex + 1
    else
      var found := LastAtMost(nd, resp.conflictTerm, prev);
      if found != -1 then found + 1 else resp.conflictIndex
  }

  function MatchAfterAppend(nd: Node, self: nat, peer: nat, sent: nat): seq<int>
    requires self < |nd.matchIndex| && peer < |nd.matchIndex| == |nd.nextIndex|
  {
    nd.matchIndex[peer := nd.nextIndex[peer] + sent - 1][self := nd.LastIndex()]
  }

  // The commit test applied to a match table; every index it looks up must be in the log.
  predicate CanAdvanceCommit(nd: Node, matches: seq<int>) {
    |matches| > 0 && Quorum.MajorityIndex(matches) <= nd.LastIndex()
  }

  function CommitAfter(nd: Node, matches: seq<int>): int
    requires CanAdvanceCommit(nd, matches)
  {
    var m := Quorum.MajorityIndex(matches);
    if m > nd.commitIndex && (m <= nd.lastIncludedIndex || nd.TermAt(m) == nd.curTerm) then m else nd.commitIndex
  }

  // Every array access of the second half of `SendAppendEntries` is in bounds.
  predicate CanTakeResponse(nd: Node, self: nat, peer: nat, req: AppendRequest, resp: AppendResponse) {
    && self < |nd.matchIndex| && peer < |nd.matchIndex| == |nd.nextIndex|
    && (nd.curTerm == req.term && resp.term <= nd.curTerm ==>
      if resp.success then CanAdvanceCommit(nd, MatchAfterAppend(nd, self, peer, |req.entries|))
      else req.prevLogIndex <= nd.LastIndex())
  }

  function OnAppendResponse(nd: Node, self: nat, peer: nat, req: AppendRequest, resp: AppendResponse): Node
    requires CanTakeResponse(nd, self, peer, req, resp)
  {
    if nd.curTerm != req.term then nd
    else if resp.term > nd.curTerm then nd.(role := Follower, curTerm := resp.term, voteFor := -1)
    else if resp.success then
      var matches := MatchAfterAppend(nd, self, peer, |req.entries|);
      nd.(nextIndex := nd.nextIndex[peer := nd.nextIndex[peer] + |req.entries|],
          matchIndex := matches, commitIndex := CommitAfter(nd, matches))
    else nd.(nextIndex := nd.nextIndex[peer := NextAfterReject(nd, req.prevLogIndex, resp)])
  }

  // One pass of the inner loop of `ApplyLogLoop`: everything committed and not yet applied.
  predicate CanApply(nd: Node) {
    nd.lastApplied < nd.commitIndex ==> nd.lastIncludedIndex <= nd.lastApplied && nd.commitIndex <= nd.LastIndex()
  }

  function Msg(nd: Node, i: int): ApplyMsg
    requires nd.Holds(i)
  {
    ApplyMsg(nd.logs[nd.Slot(i)].cmd, i, nd.TermAt(i))
  }

  function Handed(nd: Node): seq<ApplyMsg>
    requires CanApply(nd)
  {
    if nd.lastApplied >= nd.commitIndex then []
    else seq(nd.commitIndex - nd.lastApplied, (k: nat) requires k < nd.commitIndex - nd.lastApplied =>
               Msg(nd, nd.lastApplied + 1 + k))
  }

  function AfterApply(nd: Node): Node {
    if nd.lastApplied >= nd.commitIndex then nd else nd.(lastApplied := nd.commitIndex)
  }

  // `RecvSnapShot`: an older snapshot is ignored; otherwise the label must be an index the log holds.
  predicate CanCompact(nd: Node, index: int) {
    index < nd.lastIncludedIndex || nd.Holds(index)
  }

  function Compact(nd: Node, index: int): Node
    requires CanCompact(nd, index)
  {
    if index < nd.lastIncludedIndex then nd
    else nd.(lastIncludeTerm := nd.TermAt(index), lastIncludedIndex := index,
             logs := nd.logs[index - nd.lastIncludedIndex..])
  }

  // `ReplyInstallSnap`; the second component says whether the snapshot goes up to the key-value layer.
  function InstallSnap(nd: Node, req: SnapRequest): (Node, SnapResponse, bool) {
    var resp := SnapResponse(nd.curTerm);
    if req.term < nd.curTerm then (nd, resp, false)
    else
      var n1 := nd.(voteFor := if req.term > nd.curTerm then -1 else nd.voteFor, curTerm := req.term, role := Follower);
      if req.lastIncludeIndex <= nd.lastIncludedIndex then (n1, resp, false)
      else
        // only the term of the last entry is compared
        var tail :=
          if req.lastIncludeIndex < nd.LastIndex() && nd.TermAt(nd.LastIndex()) == req.lastIncludeTerm
          then nd.logs[req.lastIncludeIndex - nd.lastIncludedIndex..] else [];
        (n1.(logs := tail, lastIncludedIndex := req.lastIncludeIndex, lastIncludeTerm := req.lastIncludeTerm,
             lastApplied := req.lastIncludeIndex), resp, true)
  }

  // The match and commit arithmetic after a snapshot was sent in the leader's own term.
  function OnSnapResponse(nd: Node, self: nat, peer: nat, req: SnapRequest, resp: SnapResponse): Node
    requires self < |nd.matchIndex| && peer < |nd.matchIndex| == |nd.nextIndex|
    requires nd.curTerm == resp.term ==>
      CanAdvanceCommit(nd, nd.matchIndex[peer := req.lastIncludeIndex][self := nd.LastIndex()])
  {
    if nd.curTerm != resp.term then nd
    else
      var matches := nd.matchIndex[peer := req.lastIncludeIndex][self := nd.LastIndex()];
      nd.(nextIndex := nd.nextIndex[peer := nd.LastIndex() + 1], matchIndex := matches,
          commitIndex := CommitAfter(nd, matches))
  }

  // ---------- replicas that dropped entries ----------

  // A replica that has compacted nothing: its log is the whole history.
  predicate Full(f: Node) {
    f.lastIncludedIndex == 0 && f.lastIncludeTerm == 0
  }

  // The same replica after dropping its first k entries.
  function Compressed(f: Node, k: nat): Node
    requires k <= |f.logs|
  {
    f.(logs := f.logs[k..], lastIncludedIndex := k, lastIncludeTerm := LastTermOf(f.logs[..k]))
  }

  // The replica r with the first k entries of f put back.
  function Whole(f: Node, k: nat, r: Node): Node
    requires k <= |f.logs|
  {
    r.(logs := f.logs[..k] + r.logs, lastIncludedIndex := f.lastIncludedIndex, lastIncludeTerm := f.lastIncludeTerm)
  }

  // The handlers whose outcome depends on how much was dropped, run on the compressed replica.
  function ReplyAppendAt(f: Node, k: nat, req: AppendRequest): (Node, AppendResponse)
    requires k <= |f.logs|
  {
    var (r, resp) := ReplyAppend(Compressed(f, k), req);
    (Whole(f, k, r), resp)
  }

  function OnAppendResponseAt(
    f: Node, k: nat, self: nat, peer: nat, req: AppendRequest, resp: AppendResponse): Node
    requires k <= |f.logs| && CanTakeResponse(Compressed(f, k), self, peer, req, resp)
  {
    Whole(f, k, OnAppendResponse(Compressed(f, k), self, peer, req, resp))
  }

  // A vote changes only these three fields.
  function ReplyVoteAt(f: Node, k: nat, req: VoteRequest): (Node, VoteResponse)
    requires k <= |f.logs|
  {
    var (r, resp) := ReplyVote(Compressed(f, k), req);
    (f.(role := r.role, curTerm := r.curTerm, voteFor := r.voteFor), resp)
  }

  // The vote test of the compressed replica decides as that of the whole history.
  predicate VotesOnHistory(f: Node, k: nat, req: VoteRequest) {
    k < |f.logs| || f.logs == [] || UpToDate(f, req.lastLogTerm, req.lastLogIndex)
  }
}
