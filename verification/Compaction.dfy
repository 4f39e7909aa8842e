/** A replica that dropped the first k entries behaves as the replica that kept them, and where it does not. */
module Compaction {
  import opened RaftTypes
  import opened RaftSteps

  lemma CompressedReads(f: Node, k: nat)
    requires Full(f) && k <= |f.logs|
    ensures Compressed(f, k).LastIndex() == f.LastIndex()
    ensures Compressed(f, k).LastTerm() == f.LastTerm()
    ensures forall i :: k < i <= |f.logs| ==> Compressed(f, k).Holds(i) && Compressed(f, k).TermAt(i) == f.TermAt(i)
  {
    if k == |f.logs| { assert f.logs[..k] == f.logs; }
  }

  // `RecvSnapShot` drops exactly the entries up to the label; the last index, the last term and every
  // later entry stay, and compacting twice is compacting once.
  lemma {:induction false} CompactDropsPrefix(f: Node, k: nat, i: int)
    requires Full(f) && k <= |f.logs| && k < i <= |f.logs|
    ensures CanCompact(Compressed(f, k), i)
    ensures Compact(Compressed(f, k), i) == Compressed(f, i)
    ensures Compact(Compressed(f, k), i).LastIndex() == f.LastIndex()
    ensures Compact(Compressed(f, k), i).LastTerm() == f.LastTerm()
  {
    CompressedReads(f, k);
    CompressedReads(f, i);
    assert f.logs[k..][i - k..] == f.logs[i..];
  }

  // A label equal to the snapshot already taken, which the guard lets through, names no entry at all.
  lemma EqualLabelIsOutOfBounds(f: Node, k: nat)
    requires Full(f) && k <= |f.logs|
    ensures !CanCompact(Compressed(f, k), k) && Compressed(f, k).Slot(k) == -1
  {
  }

  lemma {:induction false} StartCommutes(f: Node, k: nat, cmd: string)
    requires Full(f) && k <= |f.logs|
    ensures k <= |Start(f, cmd).0.logs|
    ensures Start(Compressed(f, k), cmd) == (Compressed(Start(f, cmd).0, k), Start(f, cmd).1)
  {
    var e := LogEntry(cmd, f.curTerm);
    assert (f.logs + [e])[k..] == f.logs[k..] + [e];
    assert (f.logs + [e])[..k] == f.logs[..k];
    CompressedReads(f, k);
  }

  // Elections: the same requests go out, and a won election leaves the same table.
  lemma {:induction false} ElectionCommutes(f: Node, k: nat, self: nat)
    requires Full(f) && k <= |f.logs|
    ensures BuildVoteRequest(Compressed(f, k), self) == BuildVoteRequest(f, self)
    ensures FinishElection(Compressed(f, k)) == Compressed(FinishElection(f), k)
  {
    CompressedReads(f, k);
  }

  // The vote test reads an empty `logs` as an empty history. It agrees with the full replica unless
  // everything was compacted and the candidate is behind.
  lemma {:induction false} VoteTestAgreesIff(f: Node, k: nat, term: int, index: int)
    requires Full(f) && k <= |f.logs|
    ensures UpToDate(Compressed(f, k), term, index) == UpToDate(f, term, index)
            <==> k < |f.logs| || f.logs == [] || UpToDate(f, term, index)
  {
    CompressedReads(f, k);
  }

  // A replica whose whole log is in its snapshot votes for a candidate with an empty log.
  lemma CompactedVoterAcceptsAnyone(f: Node)
    requires Full(f) && f.logs == [LogEntry("set k v 1 1", 1)]
    ensures UpToDate(Compressed(f, 1), 0, 0) && !UpToDate(f, 0, 0)
  {
  }

  lemma SliceOfSlice(log: Log, k: nat, p: nat)
    requires k <= p <= |log|
    ensures log[k..][p - k..] == log[p..]
  {
  }

  // The term that a request gives for the entry before it.
  lemma PrevTermCompressed(f: Node, k: nat, prev: int)
    requires Full(f) && k <= |f.logs| && k <= prev <= |f.logs|
    ensures (if prev == k then Compressed(f, k).lastIncludeTerm else Compressed(f, k).TermAt(prev))
            == if prev == 0 then f.lastIncludeTerm else f.TermAt(prev)
  {
    CompressedReads(f, k);
    if 0 < k == prev { assert f.logs[..k][k - 1] == f.logs[k - 1]; }
  }

  // Past the snapshot a leader builds the same request.
  lemma {:induction false} BuildAppendCommutes(f: Node, k: nat, self: nat, peer: nat)
    requires Full(f) && k <= |f.logs| && CanBuildAppend(Compressed(f, k), peer)
    ensures CanBuildAppend(f, peer)
    ensures BuildAppend(Compressed(f, k), self, peer) == BuildAppend(f, self, peer)
  {
    var prev := f.nextIndex[peer] - 1;
    SliceOfSlice(f.logs, k, prev);
    PrevTermCompressed(f, k, prev);
  }

  // At or past the snapshot the previous entry is compared as on the full log.
  lemma PrevMatchesCompressed(f: Node, k: nat, req: AppendRequest)
    requires Full(f) && k <= |f.logs| && req.prevLogIndex >= k
    ensures PrevMatches(Compressed(f, k), req) == PrevMatches(f, req)
  {
    CompressedReads(f, k);
    if 0 < k == req.prevLogIndex { assert f.logs[..k][k - 1] == f.logs[k - 1]; }
  }

  // `ReplyAppend` on the compressed log: same term, same verdict, and the new replica is the compressed
  // form of the new full replica. Only the hint of a rejection is coarser.
  lemma {:induction false} ReplyAppendCommutes(f: Node, k: nat, req: AppendRequest)
    requires Full(f) && k <= |f.logs| && req.prevLogIndex >= k
    ensures k <= |ReplyAppend(f, req).0.logs|
    ensures ReplyAppend(Compressed(f, k), req).0 == Compressed(ReplyAppend(f, req).0, k)
    ensures ReplyAppend(Compressed(f, k), req).1.term == ReplyAppend(f, req).1.term
    ensures ReplyAppend(Compressed(f, k), req).1.success == ReplyAppend(f, req).1.success
    ensures req.prevLogIndex > k ==>
      ReplyAppend(Compressed(f, k), req).1.conflictTerm == ReplyAppend(f, req).1.conflictTerm
  {
    PrevMatchesCompressed(f, k, req);
    CompressedReads(f, k);
    if req.term >= f.curTerm && PrevMatches(f, req) {
      assert PrevMatches(Adopt(f, req), req) && PrevMatches(Compressed(Adopt(f, req), k), req);
      OverwriteCommutes(Adopt(f, req), k, req);
      assert Adopt(Compressed(f, k), req) == Compressed(Adopt(f, req), k);
    }
  }

  lemma OverwriteCommutes(f: Node, k: nat, req: AppendRequest)
    requires Full(f) && k <= |f.logs| && req.prevLogIndex >= k
    requires PrevMatches(f, req) && PrevMatches(Compressed(f, k), req)
    ensures k <= |Overwrite(f, req).logs|
    ensures Overwrite(Compressed(f, k), req) == Compressed(Overwrite(f, req), k)
  {
    var p := req.prevLogIndex;
    assert f.logs[k..][..p - k] + req.entries == (f.logs[..p] + req.entries)[k..];
    assert (f.logs[..p] + req.entries)[..k] == f.logs[..k];
  }

  // Putting the dropped entries back undoes dropping them.
  lemma CompressedWhole(f: Node, k: nat, r: Node)
    requires Full(f) && k <= |f.logs|
    requires r.lastIncludedIndex == k && r.lastIncludeTerm == LastTermOf(f.logs[..k])
    ensures Full(Whole(f, k, r)) && Compressed(Whole(f, k, r), k) == r
  {
    var all := f.logs[..k] + r.logs;
    assert all[k..] == r.logs && all[..k] == f.logs[..k];
  }

  lemma WholeCompressed(f: Node, g: Node, k: nat)
    requires Full(f) && Full(g) && k <= |f.logs| && k <= |g.logs| && g.logs[..k] == f.logs[..k]
    ensures Whole(f, k, Compressed(g, k)) == g
  {
    assert g.logs[..k] + g.logs[k..] == g.logs;
  }

  // The compressed replica's answer, for requests from below the snapshot too: those of the full replica,
  // except that it always rejects below the snapshot, asking for index 2.
  lemma ReplyAppendAtIs(f: Node, k: nat, req: AppendRequest)
    requires Full(f) && k <= |f.logs|
    ensures Compressed(ReplyAppendAt(f, k, req).0, k) == ReplyAppend(Compressed(f, k), req).0
    ensures ReplyAppendAt(f, k, req).1.term == f.curTerm
    ensures req.term < f.curTerm || req.prevLogIndex >= k ==>
      && ReplyAppendAt(f, k, req).0 == ReplyAppend(f, req).0
      && ReplyAppendAt(f, k, req).1.success == ReplyAppend(f, req).1.success
    ensures req.term >= f.curTerm && req.prevLogIndex < k ==>
      ReplyAppendAt(f, k, req) == (Adopt(f, req), AppendResponse(f.curTerm, false, -1, 1))
  {
    var r := ReplyAppend(Compressed(f, k), req).0;
    CompressedWhole(f, k, r);
    assert f.logs[..k] + f.logs[k..] == f.logs;
    if req.prevLogIndex >= k {
      ReplyAppendCommutes(f, k, req);
      KeepsDropped(f, k, req);
      WholeCompressed(f, ReplyAppend(f, req).0, k);
    }
  }

  lemma TakesCompressed(f: Node, k: nat, self: nat, peer: nat, req: AppendRequest, resp: AppendResponse)
    requires Full(f) && k <= |f.logs|
    ensures CanTakeResponse(Compressed(f, k), self, peer, req, resp) <==> CanTakeResponse(f, self, peer, req, resp)
  {
  }

  // A replica that dropped nothing runs as the whole one.
  lemma NothingDropped(f: Node)
    requires Full(f)
    ensures Compressed(f, 0) == f
    ensures forall r: Node :: r.lastIncludedIndex == 0 && r.lastIncludeTerm == 0 ==> Whole(f, 0, r) == r
  {
    assert f.logs[0..] == f.logs && f.logs[..0] == [];
    forall r: Node | r.lastIncludedIndex == 0 && r.lastIncludeTerm == 0 ensures Whole(f, 0, r) == r {
      assert [] + r.logs == r.logs;
    }
  }

  lemma KeepsDropped(f: Node, k: nat, req: AppendRequest)
    requires Full(f) && k <= |f.logs| && req.prevLogIndex >= k
    ensures k <= |ReplyAppend(f, req).0.logs| && ReplyAppend(f, req).0.logs[..k] == f.logs[..k]
    ensures Full(ReplyAppend(f, req).0)
  {
    if req.term >= f.curTerm && PrevMatches(f, req) {
      var p := req.prevLogIndex;
      assert (f.logs[..p] + req.entries)[..k] == f.logs[..k];
    }
  }

  lemma ReplyVoteAtIs(f: Node, k: nat, req: VoteRequest)
    requires Full(f) && k <= |f.logs|
    ensures Compressed(ReplyVoteAt(f, k, req).0, k) == ReplyVote(Compressed(f, k), req).0
    ensures ReplyVoteAt(f, k, req).1 == ReplyVote(Compressed(f, k), req).1
    ensures VotesOnHistory(f, k, req) ==> ReplyVoteAt(f, k, req) == ReplyVote(f, req)
  {
    if VotesOnHistory(f, k, req) { ReplyVoteCommutes(f, k, req); }
  }

  // Taking a reply: as the full replica, except where a rejection puts the peer's next index.
  lemma OnAppendResponseAtIs(f: Node, k: nat, self: nat, peer: nat, req: AppendRequest, resp: AppendResponse)
    requires Full(f) && k <= |f.logs| && CanTakeResponse(Compressed(f, k), self, peer, req, resp)
    ensures CanTakeResponse(f, self, peer, req, resp)
    ensures var g := OnAppendResponseAt(f, k, self, peer, req, resp);
            && Compressed(g, k) == OnAppendResponse(Compressed(f, k), self, peer, req, resp)
            && (f.curTerm == req.term && resp.term <= f.curTerm && !resp.success ==>
              g == f.(nextIndex := f.nextIndex[peer := NextAfterReject(Compressed(f, k), req.prevLogIndex, resp)]))
            && (f.curTerm != req.term || resp.term > f.curTerm ==> g == OnAppendResponse(f, self, peer, req, resp))
            && (resp.success && k <= f.commitIndex ==> g == OnAppendResponse(f, self, peer, req, resp))
            && (g == f || g.role == f.role || g.role == Follower)
  {
    var r := OnAppendResponse(Compressed(f, k), self, peer, req, resp);
    CompressedWhole(f, k, r);
    CompressedReads(f, k);
    assert f.logs[..k] + f.logs[k..] == f.logs;
    if resp.success && k <= f.commitIndex {
      TakeSuccessCommutes(f, k, self, peer, req, resp);
      WholeCompressed(f, OnAppendResponse(f, self, peer, req, resp), k);
    }
  }

  // The index hint of a rejection is the full replica's, cut off at the first entry still held.
  lemma {:induction false} ConflictIndexCompressed(f: Node, k: nat, t: int, from: int, last: int)
    requires Full(f) && 0 < from <= last <= |f.logs| && k < last && f.TermAt(last) == t && Sorted(f.logs)
    requires from <= k + 1
    ensures last <= Compressed(f, k).LastIndex()
    ensures FirstOfTerm(Compressed(f, k), t, k + 1, last) ==
      if FirstOfTerm(f, t, from, last) > k then FirstOfTerm(f, t, from, last) else k + 1
    decreases k - from
  {
    if from == k + 1 {
      FirstOfTermCompressed(f, k, t, k + 1, last);
      FirstOfTermInRange(f, t, k + 1, last);
    } else {
      assert f.logs[from - 1].term <= f.logs[k].term <= f.logs[last - 1].term;
      if f.TermAt(from) != t { ConflictIndexCompressed(f, k, t, from + 1, last); }
    }
  }

  lemma {:induction false} FirstOfTermInRange(f: Node, t: int, from: int, last: int)
    requires Full(f) && 0 < from <= last <= |f.logs| && f.TermAt(last) == t
    ensures from <= FirstOfTerm(f, t, from, last) <= last
    decreases last - from
  {
    if f.TermAt(from) != t { FirstOfTermInRange(f, t, from + 1, last); }
  }

  lemma {:induction false} FirstOfTermCompressed(f: Node, k: nat, t: int, from: int, last: int)
    requires Full(f) && k <= |f.logs| && k < from && last <= |f.logs|
    ensures last <= Compressed(f, k).LastIndex()
    ensures FirstOfTerm(Compressed(f, k), t, from, last) == FirstOfTerm(f, t, from, last)
    decreases last - from
  {
    if from <= last {
      CompressedReads(f, k);
      FirstOfTermCompressed(f, k, t, from + 1, last);
    }
  }

  lemma {:induction false} RejectHintIsCoarser(f: Node, k: nat, req: AppendRequest)
    requires Full(f) && k < req.prevLogIndex <= |f.logs| && Sorted(f.logs)
    requires !ReplyAppend(f, req).1.success && req.term >= f.curTerm
    ensures ReplyAppend(Compressed(f, k), req).1.conflictIndex ==
      if ReplyAppend(f, req).1.conflictIndex > k then ReplyAppend(f, req).1.conflictIndex else k + 1
  {
    PrevMatchesCompressed(f, k, req);
    CompressedReads(f, k);
    ConflictIndexCompressed(f, k, f.TermAt(req.prevLogIndex), 1, req.prevLogIndex);
  }

  // Below the snapshot the compressed replica always rejects, so the two verdicts differ exactly on a
  // current request from below the snapshot whose previous entry the full log holds.
  lemma {:induction false} VerdictAgreesIff(f: Node, k: nat, req: AppendRequest)
    requires Full(f) && k <= |f.logs|
    ensures ReplyAppend(Compressed(f, k), req).1.success == ReplyAppend(f, req).1.success
            <==> req.prevLogIndex >= k || req.term < f.curTerm || !PrevMatches(f, req)
  {
    if req.prevLogIndex >= k { PrevMatchesCompressed(f, k, req); }
  }

  // The commit rule: its clause for indexes inside the snapshot never decides, because only applied
  // entries are compacted.
  lemma {:induction false} CommitCommutes(f: Node, k: nat, matches: seq<int>)
    requires Full(f) && k <= |f.logs| && k <= f.commitIndex && CanAdvanceCommit(f, matches)
    ensures CanAdvanceCommit(Compressed(f, k), matches)
    ensures CommitAfter(Compressed(f, k), matches) == CommitAfter(f, matches)
  {
    CompressedReads(f, k);
  }

  // Taking a success: same tables, same commit index.
  lemma {:induction false} TakeSuccessCommutes(
    f: Node, k: nat, self: nat, peer: nat, req: AppendRequest, resp: AppendResponse)
    requires Full(f) && k <= |f.logs| && k <= f.commitIndex && resp.success
    requires CanTakeResponse(f, self, peer, req, resp)
    ensures CanTakeResponse(Compressed(f, k), self, peer, req, resp)
    ensures OnAppendResponse(Compressed(f, k), self, peer, req, resp)
            == Compressed(OnAppendResponse(f, self, peer, req, resp), k)
  {
    CompressedReads(f, k);
    if f.curTerm == req.term && resp.term <= f.curTerm {
      CommitCommutes(f, k, MatchAfterAppend(f, self, peer, |req.entries|));
    }
  }

  // Taking a rejection: the scan stops at the snapshot, and then the follower's hint is used.
  lemma {:induction false} ScanCompressed(f: Node, k: nat, t: int, from: int)
    requires Full(f) && k <= |f.logs| && k <= from <= |f.logs|
    ensures LastAtMost(Compressed(f, k), t, from) ==
      if LastAtMost(f, t, from) > k then LastAtMost(f, t, from) else -1
    decreases from
  {
    CompressedReads(f, k);
    if from > k && f.TermAt(from) > t {
      ScanCompressed(f, k, t, from - 1);
    } else if from == k {
      ScanStaysBelow(f, t, from);
    }
  }

  // The two replicas set the same next index exactly when the scan on the full log ends above the snapshot,
  // finds nothing, or ends where the follower's hint points anyway.
  lemma {:induction false} NextIndexAgreesIff(f: Node, k: nat, prev: int, resp: AppendResponse)
    requires Full(f) && k <= |f.logs| && prev <= |f.logs|
    ensures NextAfterReject(Compressed(f, k), prev, resp) == NextAfterReject(f, prev, resp)
            <==> HintAgrees(f, k, prev, resp)
  {
    if resp.conflictTerm != -1 {
      CompressedReads(f, k);
      if prev >= k {
        ScanCompressed(f, k, resp.conflictTerm, prev);
      } else if prev >= 0 {
        ScanStaysBelow(f, resp.conflictTerm, prev);
      }
    }
  }

  predicate HintAgrees(f: Node, k: nat, prev: int, resp: AppendResponse)
    requires prev <= f.LastIndex()
  {
    resp.conflictTerm == -1
    || (var found := LastAtMost(f, resp.conflictTerm, prev);
        found == -1 || found > k || found + 1 == resp.conflictIndex)
  }

  lemma {:induction false} ScanStaysBelow(f: Node, t: int, from: int)
    requires Full(f) && 0 <= from <= |f.logs|
    ensures LastAtMost(f, t, from) <= from
    decreases from
  {
    if from > 0 { ScanStaysBelow(f, t, from - 1); }
  }

  // The key-value layer is handed the same entries.
  lemma {:induction false} ApplyCommutes(f: Node, k: nat)
    requires Full(f) && k <= |f.logs| && k <= f.lastApplied && CanApply(f)
    ensures CanApply(Compressed(f, k)) && Handed(Compressed(f, k)) == Handed(f)
    ensures AfterApply(Compressed(f, k)) == Compressed(AfterApply(f), k)
  {
    CompressedReads(f, k);
    var a, b := Handed(Compressed(f, k)), Handed(f);
    forall j | 0 <= j < |b| ensures a[j] == b[j] {
      assert b[j] == Msg(f, f.lastApplied + 1 + j);
      assert a[j] == Msg(Compressed(f, k), f.lastApplied + 1 + j);
    }
  }

  // ---------- whole runs ----------

  // What happens to one replica, in the order it happens.
  datatype Input =
    | Command(cmd: string)
    | TimeOut(self: nat)
    | AskVote(vote: VoteRequest)
    | HearVote(answer: VoteResponse)
    | EndRound
    | AskAppend(req: AppendRequest)
    | HearAppend(self: nat, peer: nat, sent: AppendRequest, resp: AppendResponse)
    | MakeVoteRequest(self: nat)
    | MakeAppend(self: nat, peer: nat)
    | HandUpAll
    | TakeSnapshot(index: int)

  // What the replica answers: hints of rejections are left out.
  datatype Output =
    | Started(ret: StartRet)
    | Voted(answer: VoteResponse)
    | Appended(term: int, success: bool)
    | Applied(msgs: seq<ApplyMsg>)
    | Asked(forVote: VoteRequest)
    | Sent(append: AppendRequest)
    | Silent

  // Every array access of the step is in bounds.
  predicate Defined(nd: Node, x: Input) {
    match x
    case HearAppend(self, peer, sent, resp) => CanTakeResponse(nd, self, peer, sent, resp)
    case MakeAppend(self, peer) => CanBuildAppend(nd, peer)
    case HandUpAll => CanApply(nd)
    case _ => true
  }

  // One step; `compacting` says whether snapshots drop entries.
  function Step(nd: Node, x: Input, compacting: bool): (Node, Output)
    requires Defined(nd, x) && (x.TakeSnapshot? && compacting ==> CanCompact(nd, x.index))
  {
    match x
    case Command(cmd) => (Start(nd, cmd).0, Started(Start(nd, cmd).1))
    case TimeOut(self) => (BeginElection(nd, self), Silent)
    case AskVote(req) => (ReplyVote(nd, req).0, Voted(ReplyVote(nd, req).1))
    case HearVote(resp) => (OnVoteResponse(nd, resp), Silent)
    case EndRound => (FinishElection(nd), Silent)
    case AskAppend(req) =>
      (ReplyAppend(nd, req).0, Appended(ReplyAppend(nd, req).1.term, ReplyAppend(nd, req).1.success))
    case HearAppend(self, peer, sent, resp) => (OnAppendResponse(nd, self, peer, sent, resp), Silent)
    case MakeVoteRequest(self) => (nd, Asked(BuildVoteRequest(nd, self)))
    case MakeAppend(self, peer) => (nd, Sent(BuildAppend(nd, self, peer)))
    case HandUpAll => (AfterApply(nd), Applied(Handed(nd)))
    case TakeSnapshot(i) => (if compacting then Compact(nd, i) else nd, Silent)
  }

  // Indexes in their natural order; the cluster keeps them so.
  predicate Ordered(f: Node, k: nat) {
    Full(f) && (k == 0 || k < f.lastApplied) && 0 <= f.lastApplied <= f.commitIndex <= |f.logs|
  }

  // What the two replicas must be asked for to answer alike: no request below the snapshot that the full log
  // would accept and none sent from there, no scan that ends inside the snapshot away from the hint, and
  // labels that move forward and stay below the last applied entry.
  predicate Fair(f: Node, k: nat, x: Input)
    requires k <= |f.logs| && Full(f) && Defined(f, x)
  {
    match x
    case AskAppend(req) => req.prevLogIndex >= k || req.term < f.curTerm || !PrevMatches(f, req)
    case MakeAppend(_, peer) => f.nextIndex[peer] > k
    case HearAppend(_, _, sent, resp) =>
      f.curTerm == sent.term && resp.term <= f.curTerm && !resp.success ==>
        HintAgrees(f, k, sent.prevLogIndex, resp)
    case TakeSnapshot(i) => k < i < f.lastApplied
    case _ => true
  }

  function Label(k: nat, x: Input): int {
    if x.TakeSnapshot? then x.index else k
  }

  lemma {:induction false} StepCommutes(f: Node, k: nat, x: Input)
    requires Ordered(f, k) && Defined(f, x) && Fair(f, k, x)
    ensures Defined(Compressed(f, k), x) && (x.TakeSnapshot? ==> CanCompact(Compressed(f, k), x.index))
    ensures 0 <= Label(k, x) <= |Step(f, x, false).0.logs|
    ensures Step(Compressed(f, k), x, true) == (Compressed(Step(f, x, false).0, Label(k, x)), Step(f, x, false).1)
  {
    match x
    case Command(cmd) => StartCommutes(f, k, cmd);
    case AskVote(req) => ReplyVoteCommutes(f, k, req);
    case EndRound => ElectionCommutes(f, k, 0);
    case AskAppend(req) => if req.prevLogIndex >= k { ReplyAppendCommutes(f, k, req); }
    case HearAppend(self, peer, sent, resp) => TakeResponseCommutes(f, k, self, peer, sent, resp);
    case MakeVoteRequest(self) => ElectionCommutes(f, k, self);
    case MakeAppend(self, peer) => BuildAppendCommutes(f, k, self, peer);
    case HandUpAll => ApplyCommutes(f, k);
    case TakeSnapshot(i) => CompactDropsPrefix(f, k, i);
    case _ =>
  }

  lemma {:induction false} TakeResponseCommutes(
    f: Node, k: nat, self: nat, peer: nat, sent: AppendRequest, resp: AppendResponse)
    requires Full(f) && k <= |f.logs| && k <= f.commitIndex && CanTakeResponse(f, self, peer, sent, resp)
    requires Fair(f, k, HearAppend(self, peer, sent, resp))
    ensures CanTakeResponse(Compressed(f, k), self, peer, sent, resp)
    ensures OnAppendResponse(Compressed(f, k), self, peer, sent, resp)
            == Compressed(OnAppendResponse(f, self, peer, sent, resp), k)
  {
    if resp.success {
      TakeSuccessCommutes(f, k, self, peer, sent, resp);
    } else {
      CompressedReads(f, k);
      if f.curTerm == sent.term && resp.term <= f.curTerm { NextIndexAgreesIff(f, k, sent.prevLogIndex, resp); }
    }
  }

  lemma {:induction false} ReplyVoteCommutes(f: Node, k: nat, req: VoteRequest)
    requires Full(f) && k <= |f.logs|
    requires k < |f.logs| || f.logs == [] || UpToDate(f, req.lastLogTerm, req.lastLogIndex)
    ensures ReplyVote(Compressed(f, k), req) == (Compressed(ReplyVote(f, req).0, k), ReplyVote(f, req).1)
  {
    VoteTestAgreesIff(f, k, req.lastLogTerm, req.lastLogIndex);
    CompressedReads(f, k);
  }

  predicate FairRun(f: Node, k: nat, xs: seq<Input>)
    decreases |xs|
  {
    && Ordered(f, k)
    && (xs != [] ==>
      && Defined(f, xs[0]) && Fair(f, k, xs[0]) && Label(k, xs[0]) >= 0
      && FairRun(Step(f, xs[0], false).0, Label(k, xs[0]), xs[1..]))
  }

  // The run of a replica from nd, with all its answers; it stops where a step is not defined.
  function Run(nd: Node, xs: seq<Input>, compacting: bool): (Node, seq<Output>)
    decreases |xs|
  {
    if xs == [] || !Defined(nd, xs[0]) || (xs[0].TakeSnapshot? && compacting && !CanCompact(nd, xs[0].index))
    then (nd, [])
    else
      var (n1, out) := Step(nd, xs[0], compacting);
      var (n2, outs) := Run(n1, xs[1..], compacting);
      (n2, [out] + outs)
  }

  // Compaction refines the full log over whole runs: the compacting replica gives every answer that the
  // replica with the full log gives, and ends as its compressed form.
  lemma {:induction false} CompactedRunRefines(f: Node, k: nat, xs: seq<Input>) returns (last: nat)
    requires FairRun(f, k, xs)
    ensures last <= |Run(f, xs, false).0.logs|
    ensures Run(Compressed(f, k), xs, true).1 == Run(f, xs, false).1
    ensures Run(Compressed(f, k), xs, true).0 == Compressed(Run(f, xs, false).0, last)
    decreases |xs|
  {
    if xs == [] {
      last := k;
    } else {
      StepCommutes(f, k, xs[0]);
      last := CompactedRunRefines(Step(f, xs[0], false).0, Label(k, xs[0]), xs[1..]);
    }
  }
}
