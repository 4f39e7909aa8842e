/** A run of three replicas that ends with a leader which can never repair a follower, because the follower has a
    higher term at an index where the leader's log ends. */
module HigherTerm {
  import opened RaftTypes
  import opened RaftSteps
  import opened Cluster
  import opened ClusterProof
  import BackOff
  import Compaction
  import Overstate

  ghost predicate Trio(s: State) {
    && |s.nodes| == |s.rounds| == |s.heard| == 3 && s.dropped == map[]
    && forall c: nat :: c < 3 ==> Full(s.nodes[c]) && |s.nodes[c].nextIndex| == |s.nodes[c].matchIndex| == 3
  }

  ghost predicate Is(nd: Node, term: int, role: Role, logs: Log) {
    nd.curTerm == term && nd.role == role && nd.logs == logs
  }

  // One more event.
  lemma More(run: seq<State>, e: Event) returns (run': seq<State>, z: State)
    requires IsRun(run, 3)
    requires var s := run[|run| - 1]; |s.nodes| == |s.rounds| == |s.heard| && Enabled(s, e)
    ensures IsRun(run', 3) && run'[|run'| - 1] == z == Apply(run[|run| - 1], e)
  {
    Overstate.Longer(run, 3, e);
    z := Apply(run[|run| - 1], e);
    run' := run + [z];
  }

  // ---------- rounds of three replicas ----------

  // Replica c wins the term after its own with the vote of v.
  lemma Elect(run: seq<State>, c: nat, v: nat) returns (run': seq<State>, z: State)
    requires IsRun(run, 3) && Trio(run[|run| - 1]) && c < 3 && v < 3 && c != v
    requires run[|run| - 1].nodes[c].role != Leader
    requires ReplyVote(run[|run| - 1].nodes[v], BuildVoteRequest(run[|run| - 1].nodes[c], c)).1.isAccepted
    ensures IsRun(run', 3) && run'[|run'| - 1] == z && Trio(z)
    ensures var s := run[|run| - 1];
            var req := BuildVoteRequest(s.nodes[c], c);
            && (exists m :: m in z.voteReqs && m.req == req)
            && Is(z.nodes[c], s.nodes[c].curTerm + 1, Leader, s.nodes[c].logs)
            && (forall p: nat :: p < 3 ==> z.nodes[c].nextIndex[p] == |s.nodes[c].logs| + 1)
            && z.nodes[v] == ReplyVote(s.nodes[v], req).0
            && forall u: nat :: u < 3 && u != c && u != v ==> z.nodes[u] == s.nodes[u]
  {
    var s := run[|run| - 1];
    var m := VoteMsg(s.rounds[c] + 1, BuildVoteRequest(s.nodes[c], c));
    run', z := More(run, Timeout(c));
    run', z := More(run', CallVote(c));
    assert m in z.voteReqs;
    run', z := Answers(run', v, m);
    var r := VoteReply(m, v, ReplyVote(s.nodes[v], m.req).1, s.nodes[v].logs);
    run', z := Counted(run', c, r);
    assert m in z.voteReqs && m.req == BuildVoteRequest(s.nodes[c], c);
  }

  // Replica u answers a vote request.
  lemma Answers(run: seq<State>, u: nat, m: VoteMsg) returns (run': seq<State>, z: State)
    requires IsRun(run, 3) && Trio(run[|run| - 1]) && u < 3
    requires m in run[|run| - 1].voteReqs && m.req.candidateId != u
    ensures IsRun(run', 3) && run'[|run'| - 1] == z && Trio(z)
    ensures var s := run[|run| - 1];
            var (nd, resp) := ReplyVote(s.nodes[u], m.req);
            && z.nodes == s.nodes[u := nd] && z.voteReps == s.voteReps + {VoteReply(m, u, resp, s.nodes[u].logs)}
            && z.voteReqs == s.voteReqs && z.rounds == s.rounds && z.heard == s.heard
  {
    Compaction.NothingDropped(run[|run| - 1].nodes[u]);
    run', z := More(run, HandleVote(u, m));
  }

  // The candidate counts the vote r, which with its own makes two of three.
  lemma Counted(run: seq<State>, c: nat, r: VoteReply) returns (run': seq<State>, z: State)
    requires IsRun(run, 3) && Trio(run[|run| - 1]) && c < 3 && r in run[|run| - 1].voteReps
    requires r.msg.req.candidateId == c && r.msg.round == run[|run| - 1].rounds[c] && run[|run| - 1].heard[c] == map[]
    requires var nd := run[|run| - 1].nodes[c];
             nd.role == Candidate && nd.votes == 1 && r.resp.isAccepted && r.resp.term <= nd.curTerm + 1
    ensures IsRun(run', 3) && run'[|run'| - 1] == z && Trio(z)
    ensures var s := run[|run| - 1];
            && z.nodes == s.nodes[c := z.nodes[c]] && z.voteReqs == s.voteReqs
            && Is(z.nodes[c], s.nodes[c].curTerm + 1, Leader, s.nodes[c].logs)
            && forall p: nat :: p < 3 ==> z.nodes[c].nextIndex[p] == |s.nodes[c].logs| + 1
  {
    run', z := More(run, TakeVote(r));
    assert WinsElection(z.nodes[c]) && Trio(z);
    run', z := More(run', Finish(c));
  }

  // The leader l accepts a command.
  lemma Orders(run: seq<State>, l: nat, cmd: string) returns (run': seq<State>, z: State)
    requires IsRun(run, 3) && Trio(run[|run| - 1]) && l < 3 && run[|run| - 1].nodes[l].role == Leader
    ensures IsRun(run', 3) && run'[|run'| - 1] == z && Trio(z)
    ensures var nd := run[|run| - 1].nodes[l];
            && z.nodes == run[|run| - 1].nodes[l := nd.(logs := nd.logs + [LogEntry(cmd, nd.curTerm)])]
            && z.voteReqs == run[|run| - 1].voteReqs
  {
    run', z := More(run, StartCmd(l, cmd));
  }

  // The leader l sends its one entry to p, which has none.
  lemma Copies(run: seq<State>, l: nat, p: nat) returns (run': seq<State>, z: State)
    requires IsRun(run, 3) && Trio(run[|run| - 1]) && l < 3 && p < 3 && l != p
    requires var s := run[|run| - 1];
             && s.nodes[l].role == Leader && |s.nodes[l].logs| == 1 && s.nodes[l].nextIndex[p] == 1
             && s.nodes[p].logs == [] && s.nodes[p].curTerm <= s.nodes[l].curTerm
    ensures IsRun(run', 3) && run'[|run'| - 1] == z && Trio(z)
    ensures var s := run[|run| - 1];
            && z.nodes == s.nodes[p := z.nodes[p]] && z.voteReqs == s.voteReqs
            && Is(z.nodes[p], s.nodes[l].curTerm, Follower, s.nodes[l].logs)
            && (z.nodes[p].voteFor == s.nodes[p].voteFor || z.nodes[p].voteFor == -1)
  {
    var s := run[|run| - 1];
    var am := AppendMsg(l, p, BuildAppend(s.nodes[l], l, p), s.nodes[l].logs);
    run', z := More(run, SendAppend(l, p));
    assert am in z.appends && z.nodes == s.nodes;
    Compaction.NothingDropped(s.nodes[p]);
    CopyOfOne(s.nodes[l], l, s.nodes[p], p);
    run', z := More(run', HandleAppend(am));
  }

  lemma CopyOfOne(leader: Node, l: nat, f: Node, p: nat)
    requires Full(leader) && Full(f) && |leader.logs| == 1 && p < |leader.nextIndex| && leader.nextIndex[p] == 1
    requires f.logs == [] && f.curTerm <= leader.curTerm
    ensures CanBuildAppend(leader, p)
    ensures var nd := ReplyAppend(f, BuildAppend(leader, l, p)).0;
            && Full(nd) && nd.nextIndex == f.nextIndex && nd.matchIndex == f.matchIndex
            && Is(nd, leader.curTerm, Follower, leader.logs) && (nd.voteFor == f.voteFor || nd.voteFor == -1)
  {
    assert [] + leader.logs[0..] == leader.logs;
  }

  // ---------- four terms ----------

  // Term 1: replica 2 leads and copies its entry to both others.
  lemma TermOne(a: string) returns (run: seq<State>, s: State)
    ensures IsRun(run, 3) && run[|run| - 1] == s && Trio(s)
    ensures var log := [LogEntry(a, 1)];
            && Is(s.nodes[0], 1, Follower, log) && Is(s.nodes[1], 1, Follower, log) && Is(s.nodes[2], 1, Leader, log)
            && s.nodes[2].nextIndex[1] == 1
  {
    s := Initial(3);
    run := [s];
    run, s := Elect(run, 2, 0);
    run, s := Orders(run, 2, a);
    assert [] + [LogEntry(a, 1)] == [LogEntry(a, 1)];
    run, s := Copies(run, 2, 0);
    run, s := Copies(run, 2, 1);
  }

  // Term 2: replica 0 leads with the vote of 2, and 1 votes for it too; its entry goes nowhere.
  lemma TermTwo(a: string, b: string) returns (run: seq<State>, s: State)
    ensures IsRun(run, 3) && run[|run| - 1] == s && Trio(s)
    ensures && Is(s.nodes[0], 2, Leader, [LogEntry(a, 1), LogEntry(b, 2)])
            && Is(s.nodes[1], 2, Follower, [LogEntry(a, 1)]) && Is(s.nodes[2], 2, Follower, [LogEntry(a, 1)])
  {
    run, s := TermOne(a);
    var req := BuildVoteRequest(s.nodes[0], 0);
    run, s := Elect(run, 0, 2);
    var m :| m in s.voteReqs && m.req == req;
    run, s := Answers(run, 1, m);
    run, s := Orders(run, 0, b);
    assert [LogEntry(a, 1)] + [LogEntry(b, 2)] == [LogEntry(a, 1), LogEntry(b, 2)];
  }

  // Term 3: replica 1 leads with the vote of 2; replica 0 refuses, but learns of the term.
  lemma TermThree(a: string, b: string, c: string) returns (run: seq<State>, s: State)
    ensures IsRun(run, 3) && run[|run| - 1] == s && Trio(s)
    ensures && Is(s.nodes[0], 3, Follower, [LogEntry(a, 1), LogEntry(b, 2)])
            && Is(s.nodes[1], 3, Leader, [LogEntry(a, 1), LogEntry(c, 3)])
            && Is(s.nodes[2], 3, Follower, [LogEntry(a, 1)])
  {
    run, s := TermTwo(a, b);
    var req := BuildVoteRequest(s.nodes[1], 1);
    run, s := Elect(run, 1, 2);
    var m :| m in s.voteReqs && m.req == req;
    run, s := Answers(run, 0, m);
    run, s := Orders(run, 1, c);
    assert [LogEntry(a, 1)] + [LogEntry(c, 3)] == [LogEntry(a, 1), LogEntry(c, 3)];
  }

  // Term 4: replica 0 leads again with the vote of 2. Replica 1 has term 3 where 0 has term 2, and no exchange
  // between them ever succeeds, whatever commands arrive.
  lemma {:induction false} HigherTermArises(a: string, b: string, c: string) returns (run: seq<State>)
    ensures IsRun(run, 3)
    ensures var z := run[|run| - 1];
            && |z.nodes| == 3 && Is(z.nodes[0], 4, Leader, [LogEntry(a, 1), LogEntry(b, 2)])
            && Is(z.nodes[1], 3, Leader, [LogEntry(a, 1), LogEntry(c, 3)])
            && BackOff.Pair(z.nodes[0], 1, z.nodes[1])
            && forall cmds :: BackOff.NeverAccepted(z.nodes[0], 0, 1, z.nodes[1], cmds)
  {
    var s;
    run, s := TermThree(a, b, c);
    run, s := Elect(run, 0, 2);
    BackOff.HigherTermFollowerIsNeverRepaired(s.nodes[0], 0, 1, s.nodes[1], a, b, c, []);
    forall cmds ensures BackOff.NeverAccepted(s.nodes[0], 0, 1, s.nodes[1], cmds) {
      BackOff.HigherTermFollowerIsNeverRepaired(s.nodes[0], 0, 1, s.nodes[1], a, b, c, cmds);
    }
  }
}
