/** What the late labels protect from. If a snapshot were labelled with the last applied entry itself, a replica
    could be left with an empty log, which accepts every candidate: a run of three replicas that commits a
    command, after which that label would let the handlers elect a leader that never had it. */
module EmptyVote {
  import opened RaftTypes
  import opened RaftSteps
  import opened Cluster
  import opened Exchanges
  import opened Safety
  import Compaction
  import Quorum
  import Witness

  function Voter(): Node { InitNode(3).(curTerm := 1, voteFor := 0) }

  // Replica 0, with its table's entries for itself and replica 1.
  function Zero(
    term: int, role: Role, logs: Log, next: int, mine: int, theirs: int, applied: int, commit: int, votes: int): Node
  {
    Node(term, 0, role, logs, [1, next, 1], [mine, theirs, 0], applied, commit, 0, 0, votes, votes)
  }

  // The three replicas, none of which has dropped or handed up anything.
  ghost predicate At(s: System, a: Node, b: Node, c: Node) {
    && WellSized(s) && s.c.nodes == [a, b, c] && s.c.dropped == map[] && s.handed == [[], [], []]
  }

  const CALL := VoteMsg(1, VoteRequest(1, 0, 0, 0))

  function Grant(v: nat): VoteReply { VoteReply(CALL, v, VoteResponse(0, true), []) }

  // One more step of the run.
  lemma More(run: seq<System>, a: Act) returns (run': seq<System>, s': System)
    requires IsSystemRun(run, 3) && WellSized(run[|run| - 1]) && CanAct(run[|run| - 1], a)
    ensures s' == Do(run[|run| - 1], a) && IsSystemRun(run', 3) && run'[|run'| - 1] == s'
  {
    Witness.Longer(run, 3, a);
    s' := Do(run[|run| - 1], a);
    run' := run + [s'];
  }

  lemma TimesOut()
    ensures var s := InitialSystem(3); WellSized(s) && CanAct(s, Vote(Timeout(0)))
    ensures var z := Do(InitialSystem(3), Vote(Timeout(0)));
            && At(z, Zero(0, Candidate, [], 1, 0, 0, 0, 0, 1), InitNode(3), InitNode(3))
            && z.c.rounds[0] == 1 && z.c.heard[0] == map[] && z.flights == map[]
  {
    assert seq(3, _ => InitNode(3)) == [InitNode(3), InitNode(3), InitNode(3)];
    assert InitNode(3).nextIndex == [1, 1, 1] && InitNode(3).matchIndex == [0, 0, 0];
    var empty: seq<ApplyMsg> := [];
    assert seq(3, _ => empty) == [empty, empty, empty];
  }

  lemma Calls(s: System)
    requires At(s, Zero(0, Candidate, [], 1, 0, 0, 0, 0, 1), InitNode(3), InitNode(3)) && s.c.rounds[0] == 1
    ensures CanAct(s, Vote(CallVote(0)))
    ensures Do(s, Vote(CallVote(0))) == s.(c := s.c.(voteReqs := s.c.voteReqs + {CALL}))
  {
  }

  lemma Votes(s: System, v: nat)
    requires WellSized(s) && 1 <= v < |s.c.nodes| && s.c.nodes[v] == InitNode(3) && CALL in s.c.voteReqs
    requires s.c.dropped == map[]
    ensures CanAct(s, Vote(HandleVote(v, CALL)))
    ensures Do(s, Vote(HandleVote(v, CALL))) == s.(c := s.c.(nodes := s.c.nodes[v := Voter()],
              voteReps := s.c.voteReps + {Grant(v)}, votes := s.c.votes[(v, 1) := 0]))
  {
  }

  lemma Counts(s: System)
    requires At(s, Zero(0, Candidate, [], 1, 0, 0, 0, 0, 1), Voter(), Voter())
    requires s.c.rounds[0] == 1 && s.c.heard[0] == map[] && Grant(1) in s.c.voteReps && s.flights == map[]
    ensures CanAct(s, Vote(TakeVote(Grant(1))))
    ensures var z := Do(s, Vote(TakeVote(Grant(1))));
            At(z, Zero(0, Candidate, [], 1, 0, 0, 0, 0, 2), Voter(), Voter()) && z.flights == map[]
  {
  }

  lemma Wins(s: System)
    requires At(s, Zero(0, Candidate, [], 1, 0, 0, 0, 0, 2), Voter(), Voter()) && s.flights == map[]
    ensures CanAct(s, Vote(Finish(0)))
    ensures var z := Do(s, Vote(Finish(0)));
            At(z, Zero(1, Leader, [], 1, 0, 0, 0, 0, 2), Voter(), Voter()) && z.flights == map[]
  {
    var nd := FinishElection(s.c.nodes[0]);
    assert nd.nextIndex == [1, 1, 1] && nd.matchIndex == [0, 0, 0];
  }

  lemma Submits(s: System, cmd: string)
    requires At(s, Zero(1, Leader, [], 1, 0, 0, 0, 0, 2), Voter(), Voter()) && s.flights == map[]
    ensures CanAct(s, Submit(0, cmd))
    ensures var z := Do(s, Submit(0, cmd));
            At(z, Zero(1, Leader, [LogEntry(cmd, 1)], 1, 0, 0, 0, 0, 2), Voter(), Voter()) && z.flights == map[]
  {
    assert [] + [LogEntry(cmd, 1)] == [LogEntry(cmd, 1)];
  }

  lemma Sends(s: System, log: Log)
    requires At(s, Zero(1, Leader, log, 1, 0, 0, 0, 0, 2), Voter(), Voter()) && s.flights == map[]
    ensures CanAct(s, Send(0, 1))
    ensures var z := Do(s, Send(0, 1));
            && At(z, Zero(1, Leader, log, 1, 0, 0, 0, 0, 2), Voter(), Voter()) && Witness.Request(log) in z.c.appends
            && (0, 1) in z.flights && z.flights[(0, 1)] == Flight(Witness.Request(log), None)
  {
    assert log[0..] == log;
  }

  lemma Delivers(s: System, log: Log)
    requires At(s, Zero(1, Leader, log, 1, 0, 0, 0, 0, 2), Voter(), Voter()) && Witness.Request(log) in s.c.appends
    requires (0, 1) in s.flights && s.flights[(0, 1)] == Flight(Witness.Request(log), None)
    ensures CanAct(s, Deliver(0, 1))
    ensures var z := Do(s, Deliver(0, 1));
            && At(z, Zero(1, Leader, log, 1, 0, 0, 0, 0, 2), Voter().(logs := log), Voter())
            && (Witness.Request(log), Witness.YES) in z.c.appendReps
            && (0, 1) in z.flights && z.flights[(0, 1)] == Flight(Witness.Request(log), Some(Witness.YES))
  {
    Compaction.NothingDropped(s.c.nodes[1]);
    assert [] + log == log;
    assert ReplyAppend(s.c.nodes[1], Witness.Request(log).req) == (Voter().(logs := log), Witness.YES);
  }

  lemma Commits(s: System, e: LogEntry)
    requires At(s, Zero(1, Leader, [e], 1, 0, 0, 0, 0, 2), Voter().(logs := [e]), Voter()) && e.term == 1
    requires (Witness.Request([e]), Witness.YES) in s.c.appendReps
    requires (0, 1) in s.flights && s.flights[(0, 1)] == Flight(Witness.Request([e]), Some(Witness.YES))
    ensures CanAct(s, Receive(0, 1))
    ensures var z := Do(s, Receive(0, 1));
            && At(z, Zero(1, Leader, [e], 2, 1, 1, 0, 1, 2), Voter().(logs := [e]), Voter()) && (1, 1) in z.commits
  {
    Compaction.NothingDropped(s.c.nodes[0]);
    TakesSuccess(e);
  }

  lemma TakesSuccess(e: LogEntry)
    requires e.term == 1
    ensures var nd, req := Zero(1, Leader, [e], 1, 0, 0, 0, 0, 2), Witness.Request([e]).req;
            && CanTakeResponse(nd, 0, 1, req, Witness.YES)
            && OnAppendResponse(nd, 0, 1, req, Witness.YES) == Zero(1, Leader, [e], 2, 1, 1, 0, 1, 2)
  {
    var nd := Zero(1, Leader, [e], 1, 0, 0, 0, 0, 2);
    assert MatchAfterAppend(nd, 0, 1, 1) == [1, 1, 0] && nd.nextIndex[1 := 2] == [1, 2, 1];
    Middle();
  }

  lemma Middle()
    ensures Quorum.MajorityIndex([1, 1, 0]) == 1
  {
    assert [1, 1, 0][1..] == [1, 0] && [1, 0][1..] == [0] && [0][1..] == [];
    assert Quorum.Sort([0]) == [0];
    assert Quorum.Insert(1, [0]) == [0, 1];
    assert [0, 1][1..] == [1] && Quorum.Insert(1, [1]) == [1, 1];
    assert Quorum.Insert(1, [0, 1]) == [0, 1, 1];
  }

  lemma Applies(s: System, e: LogEntry)
    requires At(s, Zero(1, Leader, [e], 2, 1, 1, 0, 1, 2), Voter().(logs := [e]), Voter())
    ensures CanAct(s, Hand(0))
    ensures var z := Do(s, Hand(0));
            && WellSized(z) && z.commits == s.commits && z.c.dropped == map[] && |z.handed| == 3 && |z.handed[0]| == 1
            && z.c.nodes == [Zero(1, Leader, [e], 2, 1, 1, 1, 1, 2), Voter().(logs := [e]), Voter()]
  {
  }

  // Index 1 is committed, stored by replicas 0 and 1, and applied by 0; replica 2 has nothing.
  lemma CommittedAndApplied(cmd: string) returns (run: seq<System>)
    ensures IsSystemRun(run, 3)
    ensures var z, e := run[|run| - 1], LogEntry(cmd, 1);
            && (1, 1) in z.commits && z.c.dropped == map[] && |z.handed| == 3 && |z.handed[0]| == 1
            && z.c.nodes == [Zero(1, Leader, [e], 2, 1, 1, 1, 1, 2), Voter().(logs := [e]), Voter()]
  {
    var s;
    run, s := Led();
    Submits(s, cmd);
    run, s := More(run, Submit(0, cmd));
    Sends(s, [LogEntry(cmd, 1)]);
    run, s := More(run, Send(0, 1));
    Delivers(s, [LogEntry(cmd, 1)]);
    run, s := More(run, Deliver(0, 1));
    Commits(s, LogEntry(cmd, 1));
    run, s := More(run, Receive(0, 1));
    Applies(s, LogEntry(cmd, 1));
    run, s := More(run, Hand(0));
  }

  lemma Led() returns (run: seq<System>, s: System)
    ensures IsSystemRun(run, 3) && run[|run| - 1] == s && s.flights == map[]
    ensures At(s, Zero(1, Leader, [], 1, 0, 0, 0, 0, 2), Voter(), Voter())
  {
    run := [InitialSystem(3)];
    TimesOut();
    run, s := More(run, Vote(Timeout(0)));
    Calls(s);
    run, s := More(run, Vote(CallVote(0)));
    Votes(s, 1);
    run, s := More(run, Vote(HandleVote(1, CALL)));
    Votes(s, 2);
    run, s := More(run, Vote(HandleVote(2, CALL)));
    Counts(s);
    run, s := More(run, Vote(TakeVote(Grant(1))));
    Wins(s);
    run, s := More(run, Vote(Finish(0)));
  }

  // From there replica 2 times out and asks replica 0 for its vote. Had replica 0 taken a snapshot labelled 1,
  // the entry it applied last, its empty log would accept, and replica 2 would lead term 2 with an empty log:
  // the committed command is lost. The key-value layer has only label 0 to give, and replica 0 refuses.
  lemma {:induction false} LateLabelIsNeeded(cmd: string) returns (run: seq<System>)
    ensures IsSystemRun(run, 3)
    ensures var z := run[|run| - 1];
            && (1, 1) in z.commits && 1 in z.c.termLog && z.c.termLog[1] == [LogEntry(cmd, 1)]
            && |z.c.nodes| == |z.handed| == 3 && z.c.dropped == map[]
            && z.c.nodes[0].lastApplied == |z.handed[0]| == 1 && CanCompact(z.c.nodes[0], 1)
            && (var candidate := BeginElection(z.c.nodes[2], 2);
                var request := BuildVoteRequest(candidate, 2);
                var answer := ReplyVote(Compact(z.c.nodes[0], 1), request).1;
                var leader := FinishElection(OnVoteResponse(candidate, answer));
                && answer.isAccepted && leader.role == Leader && leader.curTerm == 2 && leader.logs == []
                && !ReplyVote(z.c.nodes[0], request).1.isAccepted)
  {
    run := CommittedAndApplied(cmd);
    LogOfTermOne(run);
    EmptyLogIsElected(run[|run| - 1].c.nodes[0], Voter());
  }

  lemma LogOfTermOne(run: seq<System>)
    requires IsSystemRun(run, 3)
    requires var c := run[|run| - 1].c; |c.nodes| == 3 && c.nodes[0].role == Leader && c.nodes[0].curTerm == 1
    ensures var c := run[|run| - 1].c; 1 in c.termLog && c.termLog[1] == c.nodes[0].logs
  {
    SystemRunOk(run, 3, |run| - 1);
    LeaderLog(run[|run| - 1].c, 0);
  }

  lemma EmptyLogIsElected(f: Node, g: Node)
    requires Full(f) && |f.logs| == 1 && f.logs[0].term == 1 && f.curTerm == 1 && g == Voter()
    ensures CanCompact(f, 1)
    ensures var candidate := BeginElection(g, 2);
            var request := BuildVoteRequest(candidate, 2);
            var answer := ReplyVote(Compact(f, 1), request).1;
            var leader := FinishElection(OnVoteResponse(candidate, answer));
            && answer.isAccepted && leader.role == Leader && leader.curTerm == 2 && leader.logs == []
            && !ReplyVote(f, request).1.isAccepted
  {
  }
}
