/** Snapshots between replicas: what a follower keeps when it takes one, and the leader's commit arithmetic
    after it sent one. */
module SnapshotInstall {
  import opened RaftTypes
  import opened RaftSteps
  import opened Cluster
  import opened Compaction
  import Quorum

  // The commit arithmetic after a snapshot was sent: the commit index never falls; when it rises, n - n/2
  // servers are listed as having reached it, and it is inside the snapshot or an entry of this term; and
  // nothing higher that so many have reached is passed over, except when the highest is of an older term.
  lemma {:induction false} SnapCommitIsBacked(
    nd: Node, self: nat, peer: nat, req: SnapRequest, resp: SnapResponse, x: int)
    requires self < |nd.matchIndex| && peer < |nd.matchIndex| == |nd.nextIndex| && nd.curTerm == resp.term
    requires CanAdvanceCommit(nd, nd.matchIndex[peer := req.lastIncludeIndex][self := nd.LastIndex()])
    ensures var nd' := OnSnapResponse(nd, self, peer, req, resp);
            var top := Quorum.MajorityIndex(nd'.matchIndex);
            && nd.commitIndex <= nd'.commitIndex && top <= nd.LastIndex()
            && (nd'.commitIndex > nd.commitIndex ==>
              && |Quorum.AtLeast(nd'.matchIndex, nd'.commitIndex)| >= |nd.matchIndex| - |nd.matchIndex| / 2
              && (nd'.commitIndex <= nd.lastIncludedIndex || nd.TermAt(nd'.commitIndex) == nd.curTerm))
            && (|Quorum.AtLeast(nd'.matchIndex, x)| >= |nd.matchIndex| - |nd.matchIndex| / 2 ==>
              || x <= nd'.commitIndex
              || (top > nd.lastIncludedIndex && nd.TermAt(top) != nd.curTerm))
  {
    var matches := OnSnapResponse(nd, self, peer, req, resp).matchIndex;
    Quorum.MajorityIndexIsExact(matches, Quorum.MajorityIndex(matches));
    Quorum.MajorityIndexIsExact(matches, x);
  }

  // The replica's fields after it took the snapshot of the first |done| entries, with full log `log`.
  function Restored(f: Node, req: SnapRequest, log: Log): Node {
    f.(voteFor := if req.term > f.curTerm then -1 else f.voteFor, curTerm := req.term, role := Follower,
       logs := log, lastApplied := req.lastIncludeIndex)
  }

  // `done` is what the snapshot replaces: the sender's log up to lastIncludeIndex.
  ghost predicate SnapshotOf(req: SnapRequest, done: Log, termLog: map<int, Log>) {
    |done| == req.lastIncludeIndex > 0 && LastTermOf(done) == req.lastIncludeTerm && Matches(done, termLog)
  }

  predicate KeepsTail(f: Node, req: SnapRequest) {
    req.lastIncludeIndex < |f.logs| && LastTermOf(f.logs) == req.lastIncludeTerm
  }

  // A kept tail is sound: only the last entry's term was compared, yet the whole log up to the snapshot
  // is the snapshot's, so the replica becomes the compressed form of its own full log. Otherwise it
  // becomes the compressed form of the snapshot alone.
  lemma {:induction false} InstalledSnapshotIsSound(
    f: Node, k: nat, req: SnapRequest, done: Log, termLog: map<int, Log>)
    requires Full(f) && k <= |f.logs| && Matches(f.logs, termLog) && SnapshotOf(req, done, termLog)
    requires req.term >= f.curTerm && req.lastIncludeIndex > k
    ensures KeepsTail(f, req) ==> done <= f.logs
    ensures InstallSnap(Compressed(f, k), req).0
            == Compressed(Restored(f, req, if KeepsTail(f, req) then f.logs else done), req.lastIncludeIndex)
    ensures InstallSnap(Compressed(f, k), req).2
  {
    CompressedReads(f, k);
    assert done[..|done|] == done;
    if KeepsTail(f, req) { KeptTailIsSound(f, k, req, done, termLog); }
  }

  lemma KeptTailIsSound(f: Node, k: nat, req: SnapRequest, done: Log, termLog: map<int, Log>)
    requires k < req.lastIncludeIndex < |f.logs| && Matches(f.logs, termLog) && SnapshotOf(req, done, termLog)
    requires LastTermOf(f.logs) == req.lastIncludeTerm
    ensures done <= f.logs && f.logs[..req.lastIncludeIndex] == done
    ensures f.logs[k..][req.lastIncludeIndex - k..] == f.logs[req.lastIncludeIndex..]
  {
    var last := |f.logs| - 1;
    assert AgreesAt(f.logs, last, termLog) && AgreesAt(done, |done| - 1, termLog);
    assert f.logs[..last + 1] == f.logs && done[..|done|] == done;
  }

  // The other direction fails: a replica that holds everything in the snapshot keeps its later entries
  // exactly when the last of them is of the snapshot's term. Here it throws one away.
  lemma {:induction false} HeldSnapshotKeepsTailIff(
    f: Node, k: nat, req: SnapRequest, done: Log, termLog: map<int, Log>)
    requires Full(f) && k <= |f.logs| && Matches(f.logs, termLog) && SnapshotOf(req, done, termLog)
    requires req.term >= f.curTerm && req.lastIncludeIndex > k && done < f.logs
    ensures InstallSnap(Compressed(f, k), req).0.LastIndex() == f.LastIndex()
            <==> LastTermOf(f.logs) == req.lastIncludeTerm
  {
    InstalledSnapshotIsSound(f, k, req, done, termLog);
  }

  lemma TailThrownAway(f: Node, req: SnapRequest)
    requires Full(f) && f.logs == [LogEntry("a", 1), LogEntry("b", 2)] && f.curTerm == 2
    requires req == SnapRequest(2, 0, 1, 1)
    ensures InstallSnap(f, req).0.logs == [] && InstallSnap(f, req).0.LastIndex() == 1
  {
  }

  // Which snapshots are taken: exactly those not of an older term that reach past the replica's own. A refused one
  // changes nothing when its term is older and otherwise only makes the replica a follower of that term, with its
  // vote cleared when the term is new. The reply always carries the term from before.
  lemma {:induction false} SnapshotIsTakenIff(f: Node, k: nat, req: SnapRequest)
    requires Full(f) && k <= |f.logs|
    ensures var before := Compressed(f, k);
            var (after, resp, up) := InstallSnap(before, req);
            && resp.term == f.curTerm
            && (up <==> f.curTerm <= req.term && k < req.lastIncludeIndex)
            && (up <==> after.lastIncludedIndex != before.lastIncludedIndex)
            && (!up ==>
              after == if req.term < f.curTerm then before
                       else before.(role := Follower, curTerm := req.term,
                                    voteFor := if req.term == f.curTerm then f.voteFor else -1))
            && (up ==> after.lastApplied == after.lastIncludedIndex == req.lastIncludeIndex
                       && after.commitIndex == f.commitIndex)
  {
    CompressedReads(f, k);
  }

  // What a leader notes after it sent a snapshot: nothing when the reply is of another term; otherwise the peer is
  // listed with the snapshot's end and is to get what comes after the leader's log, the leader itself with its
  // whole log, and all others as before.
  lemma {:induction false} SnapshotIsNoted(f: Node, k: nat, self: nat, peer: nat, req: SnapRequest, resp: SnapResponse)
    requires Full(f) && k <= |f.logs| && self != peer
    requires self < |f.matchIndex| && peer < |f.matchIndex| == |f.nextIndex|
    requires CanAdvanceCommit(Compressed(f, k), f.matchIndex[peer := req.lastIncludeIndex][self := |f.logs|])
    ensures Compressed(f, k).LastIndex() == |f.logs|
    ensures var before := Compressed(f, k);
            var after := OnSnapResponse(before, self, peer, req, resp);
            && (resp.term != f.curTerm ==> after == before)
            && (resp.term == f.curTerm ==>
              && after == before.(nextIndex := after.nextIndex, matchIndex := after.matchIndex,
                                  commitIndex := after.commitIndex)
              && |after.nextIndex| == |after.matchIndex| == |f.nextIndex|
              && after.matchIndex[peer] == req.lastIncludeIndex && after.matchIndex[self] == |f.logs|
              && after.nextIndex[peer] == |f.logs| + 1
              && forall q :: 0 <= q < |f.nextIndex| && q != peer ==>
                   after.nextIndex[q] == f.nextIndex[q] && (q != self ==> after.matchIndex[q] == f.matchIndex[q]))
  {
    CompressedReads(f, k);
  }
}
