/** A run in which a deposed leader learns of its successor from the reply to its own request. */
module Deposed {
  import opened RaftTypes
  import opened RaftSteps
  import opened Cluster
  import opened ClusterProof
  import opened HigherTerm
  import Compaction
  import Overstate

  // Replica 2 leads term 1; replica 0 wins term 2 with the vote of 1, which 2 does not hear of. Its next request
  // to 1 comes back with term 2, and it follows from then on, without a vote.
  lemma {:induction false} DeposedLeaderLearns(a: string) returns (run: seq<State>, am: AppendMsg, resp: AppendResponse)
    ensures IsRun(run, 3) && |run| >= 2
    ensures var s, z := run[|run| - 2], run[|run| - 1];
            && |s.nodes| == |z.nodes| == 3 && am.from == 2 && am.to == 1 && (am, resp) in s.appendReps
            && resp.term == 2 && !resp.success
            && Is(s.nodes[2], 1, Leader, [LogEntry(a, 1)]) && Is(s.nodes[0], 2, Leader, [LogEntry(a, 1)])
            && Is(z.nodes[2], 2, Follower, [LogEntry(a, 1)]) && z.nodes[2].voteFor == -1
  {
    var s;
    run, s := TwoLeaders(a);
    run, s, am, resp := Refused(run);
    var nd := s.nodes[2];
    Compaction.NothingDropped(nd);
    Overstate.Longer(run, 3, TakeAppend(am, resp));
    run := run + [Apply(s, TakeAppend(am, resp))];
    assert run[|run| - 2] == s;
  }

  lemma TwoLeaders(a: string) returns (run: seq<State>, s: State)
    ensures IsRun(run, 3) && run[|run| - 1] == s && Trio(s)
    ensures var log := [LogEntry(a, 1)];
            && Is(s.nodes[0], 2, Leader, log) && Is(s.nodes[1], 2, Follower, log) && Is(s.nodes[2], 1, Leader, log)
            && 1 <= s.nodes[2].nextIndex[1] <= 2
  {
    run, s := TermOne(a);
    run, s := Elect(run, 0, 1);
  }

  // The request of the old leader is refused with the new term.
  lemma Refused(run: seq<State>) returns (run': seq<State>, z: State, am: AppendMsg, resp: AppendResponse)
    requires IsRun(run, 3) && Trio(run[|run| - 1])
    requires var s := run[|run| - 1];
             && s.nodes[2].role == Leader && s.nodes[2].curTerm == 1 && s.nodes[1].curTerm == 2
             && 1 <= s.nodes[2].nextIndex[1] <= |s.nodes[2].logs| + 1
    ensures IsRun(run', 3) && run'[|run'| - 1] == z && Trio(z) && z.nodes == run[|run| - 1].nodes
    ensures am.from == 2 && am.to == 1 && am.req.term == 1 && (am, resp) in z.appendReps
    ensures resp == AppendResponse(2, false, -1, -1)
  {
    var s := run[|run| - 1];
    am := AppendMsg(2, 1, BuildAppend(s.nodes[2], 2, 1), s.nodes[2].logs);
    resp := AppendResponse(2, false, -1, -1);
    run', z := More(run, SendAppend(2, 1));
    assert am in z.appends && z.nodes == s.nodes;
    Compaction.NothingDropped(s.nodes[1]);
    run', z := More(run', HandleAppend(am));
    assert z.nodes == s.nodes;
  }
}
