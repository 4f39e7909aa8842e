/** The runs that the theorems speak of are not empty of events: a cluster of two elects a leader, commits
    two commands, both replicas hand them up, and the leader compacts the first away. */
module Witness {
  import opened RaftTypes
  import opened RaftSteps
  import opened Cluster
  import opened Exchanges
  import opened Safety
  import Compaction
  import Quorum

  // A run with one more step.
  lemma Longer(run: seq<System>, n: nat, a: Act)
    requires IsSystemRun(run, n) && WellSized(run[|run| - 1]) && CanAct(run[|run| - 1], a)
    ensures IsSystemRun(run + [Do(run[|run| - 1], a)], n)
  {
    var longer := run + [Do(run[|run| - 1], a)];
    forall i | 0 < i < |longer| ensures NextSystem(longer[i - 1], longer[i]) {
      if i < |run| {
        assert NextSystem(run[i - 1], run[i]);
      } else {
        assert longer[i - 1] == run[|run| - 1];
      }
    }
  }

  // Two replicas, which have dropped nothing.
  predicate Sized(s: System) { WellSized(s) && |s.c.nodes| == 2 && s.c.dropped == map[] }

  // Replica 0 is a candidate still at term 0, with its own vote only.
  ghost predicate Asking(s: System) {
    && Sized(s) && s.handed == [[], []] && s.flights == map[] && s.started == map[]
    && s.c.nodes[0] == Node(0, 0, Candidate, [], [1, 1], [0, 0], 0, 0, 0, 0, 1, 1)
    && s.c.heard[0] == map[]
  }

  const CALL := VoteRequest(1, 0, 0, 0)

  lemma TimesOut()
    ensures var s := InitialSystem(2); Sized(s) && CanAct(s, Vote(Timeout(0)))
    ensures var s := Do(InitialSystem(2), Vote(Timeout(0)));
            Asking(s) && s.c.rounds[0] == 1 && s.c.nodes[1] == InitNode(2)
  {
  }

  lemma Calls(s: System)
    requires Asking(s) && s.c.rounds[0] == 1 && s.c.nodes[1] == InitNode(2)
    ensures CanAct(s, Vote(CallVote(0)))
    ensures var z := Do(s, Vote(CallVote(0)));
            Asking(z) && z.c.rounds[0] == 1 && z.c.nodes[1] == InitNode(2) && VoteMsg(1, CALL) in z.c.voteReqs
  {
  }

  const GRANT := VoteReply(VoteMsg(1, CALL), 1, VoteResponse(0, true), [])

  lemma Votes(s: System)
    requires Asking(s) && s.c.rounds[0] == 1 && s.c.nodes[1] == InitNode(2)
    requires VoteMsg(1, CALL) in s.c.voteReqs
    ensures CanAct(s, Vote(HandleVote(1, VoteMsg(1, CALL))))
    ensures var z := Do(s, Vote(HandleVote(1, VoteMsg(1, CALL))));
            && Asking(z) && z.c.rounds[0] == 1 && GRANT in z.c.voteReps
            && z.c.nodes[1] == InitNode(2).(curTerm := 1, voteFor := 0)
  {
  }

  ghost predicate Following(s: System) {
    Sized(s) && s.c.nodes[1] == InitNode(2).(curTerm := 1, voteFor := 0)
  }

  lemma Counts(s: System)
    requires Asking(s) && s.c.rounds[0] == 1 && GRANT in s.c.voteReps && Following(s)
    ensures CanAct(s, Vote(TakeVote(GRANT)))
    ensures var z := Do(s, Vote(TakeVote(GRANT)));
            && Following(z) && z.handed == [[], []] && z.flights == map[] && z.started == map[]
            && z.c.nodes[0] == Node(0, 0, Candidate, [], [1, 1], [0, 0], 0, 0, 0, 0, 2, 2)
  {
  }

  // Replica 0 leads term 1.
  ghost predicate Leading(s: System, logs: Log) {
    && Following(s) && s.handed == [[], []] && s.flights == map[]
    && s.c.nodes[0] == Node(1, 0, Leader, logs, [1, 1], [0, 0], 0, 0, 0, 0, 2, 2)
  }

  lemma Wins(s: System)
    requires Following(s) && s.handed == [[], []] && s.flights == map[] && s.started == map[]
    requires s.c.nodes[0] == Node(0, 0, Candidate, [], [1, 1], [0, 0], 0, 0, 0, 0, 2, 2)
    ensures CanAct(s, Vote(Finish(0)))
    ensures Leading(Do(s, Vote(Finish(0))), []) && Do(s, Vote(Finish(0))).started == map[]
  {
  }

  lemma Submits(s: System, logs: Log, cmd: string)
    requires Leading(s, logs)
    ensures CanAct(s, Submit(0, cmd))
    ensures Leading(Do(s, Submit(0, cmd)), logs + [LogEntry(cmd, 1)])
    ensures Do(s, Submit(0, cmd)).started == s.started[(1, |logs|) := cmd]
  {
  }

  // One exchange of two entries between replicas 0 and 1 is under way.
  ghost predicate UnderWay(s: System, log: Log, reply: Option<AppendResponse>) {
    && Sized(s) && s.handed == [[], []]
    && s.c.nodes[0] == Node(1, 0, Leader, log, [1, 1], [0, 0], 0, 0, 0, 0, 2, 2)
    && (0, 1) in s.flights && s.flights[(0, 1)] == Flight(Request(log), reply) && Request(log) in s.c.appends
    && (reply.Some? ==> (Request(log), reply.value) in s.c.appendReps)
  }

  // The leader's first request, with its whole log.
  function Request(log: Log): AppendMsg {
    AppendMsg(0, 1, AppendRequest(1, 0, 0, 0, 0, log), log)
  }

  lemma Sends(s: System, log: Log)
    requires Leading(s, log)
    ensures CanAct(s, Send(0, 1)) && Do(s, Send(0, 1)).started == s.started
    ensures UnderWay(Do(s, Send(0, 1)), log, None) && Following(Do(s, Send(0, 1)))
  {
    assert log[0..] == log;
  }

  const YES := AppendResponse(1, true, -1, -1)

  lemma Delivers(s: System, log: Log)
    requires UnderWay(s, log, None) && Following(s)
    ensures CanAct(s, Deliver(0, 1)) && Do(s, Deliver(0, 1)).started == s.started
    ensures UnderWay(Do(s, Deliver(0, 1)), log, Some(YES))
    ensures Do(s, Deliver(0, 1)).c.nodes[1] == InitNode(2).(curTerm := 1, voteFor := 0, logs := log)
  {
    Compaction.NothingDropped(s.c.nodes[1]);
    assert ReplyAppend(s.c.nodes[1], Request(log).req).1 == YES;
    assert ReplyAppend(s.c.nodes[1], Request(log).req).0.logs == [] + log == log;
  }

  lemma Commits(s: System, log: Log)
    requires UnderWay(s, log, Some(YES)) && |log| == 2 && log[1].term == 1
    ensures CanAct(s, Receive(0, 1)) && Do(s, Receive(0, 1)).started == s.started
    ensures var z := Do(s, Receive(0, 1));
            && Sized(z) && (1, 2) in z.commits && z.handed == [[], []] && z.c.nodes[1] == s.c.nodes[1]
            && (0, 1) !in z.flights
            && z.c.nodes[0] == Node(1, 0, Leader, log, [1, 3], [2, 2], 0, 2, 0, 0, 2, 2)
  {
    var nd := s.c.nodes[0];
    Compaction.NothingDropped(nd);
    assert MatchAfterAppend(nd, 0, 1, 2) == [2, 2] && nd.nextIndex[1 := 3] == [1, 3];
    MajorityOfTwo(2, 2);
  }

  lemma MajorityOfTwo(x: int, y: int)
    requires x <= y
    ensures Quorum.MajorityIndex([x, y]) == y
  {
    assert [x, y][1..] == [y] && [y][1..] == [];
    assert Quorum.Sort([y]) == [y];
    assert Quorum.Sort([x, y]) == Quorum.Insert(x, [y]) == [x] + [y];
  }

  // A replica with two entries, both committed, hands them up.
  lemma HandsUp(s: System, p: nat, log: Log)
    requires Sized(s) && p < 2 && s.handed[p] == [] && |log| == 2 && s.c.nodes[p].logs == log && Full(s.c.nodes[p])
    requires s.c.nodes[p].commitIndex == 2 && s.c.nodes[p].lastApplied == 0
    ensures CanAct(s, Hand(p))
    ensures Do(s, Hand(p)) == s.(c := s.c.(nodes := s.c.nodes[p := s.c.nodes[p].(lastApplied := 2)]),
              handed := s.handed[p := [ApplyMsg(log[0].cmd, 1, log[0].term), ApplyMsg(log[1].cmd, 2, log[1].term)]])
  {
    var msgs := Handed(s.c.nodes[p]);
    assert |msgs| == 2 && msgs[0] == Msg(s.c.nodes[p], 1) && msgs[1] == Msg(s.c.nodes[p], 2);
    assert [] + msgs == [msgs[0], msgs[1]];
  }

  // The leader's next request, with nothing but its commit index.
  function Notice(log: Log): AppendMsg
    requires |log| == 2
  {
    AppendMsg(0, 1, AppendRequest(1, 0, 2, log[1].term, 2, []), log)
  }

  lemma Announces(s: System, log: Log)
    requires Sized(s) && |log| == 2 && (0, 1) !in s.flights
    requires s.c.nodes[0] == Node(1, 0, Leader, log, [1, 3], [2, 2], 2, 2, 0, 0, 2, 2)
    ensures CanAct(s, Send(0, 1))
    ensures Do(s, Send(0, 1)) == s.(c := s.c.(appends := s.c.appends + {Notice(log)}),
              flights := s.flights[(0, 1) := Flight(Notice(log), None)])
  {
    assert log[2..] == [];
    assert BuildAppend(s.c.nodes[0], 0, 1) == Notice(log).req;
  }

  lemma Hears(s: System, log: Log)
    requires Sized(s) && |log| == 2 && Notice(log) in s.c.appends
    requires (0, 1) in s.flights && s.flights[(0, 1)] == Flight(Notice(log), None)
    requires s.c.nodes[1] == InitNode(2).(curTerm := 1, voteFor := 0, logs := log)
    ensures CanAct(s, Deliver(0, 1))
    ensures var z := Do(s, Deliver(0, 1));
            && Sized(z) && z.c.nodes == s.c.nodes[1 := s.c.nodes[1].(commitIndex := 2)]
            && z.handed == s.handed && z.commits == s.commits && z.started == s.started
  {
    Compaction.NothingDropped(s.c.nodes[1]);
    assert log[..2] + [] == log;
    assert ReplyAppend(s.c.nodes[1], Notice(log).req) == (s.c.nodes[1].(commitIndex := 2), YES);
  }

  lemma Drops(s: System)
    requires Sized(s) && |s.handed[0]| == 2 && s.c.nodes[0].lastApplied == 2 && |s.c.nodes[0].logs| == 2
    ensures CanAct(s, Drop(0, 1))
    ensures Do(s, Drop(0, 1)) == s.(c := s.c.(dropped := map[0 := 1]))
  {
  }

  lemma More(run: seq<System>, a: Act) returns (run': seq<System>, s': System)
    requires IsSystemRun(run, 2) && WellSized(run[|run| - 1]) && CanAct(run[|run| - 1], a)
    ensures s' == Do(run[|run| - 1], a) && IsSystemRun(run', 2) && run'[|run'| - 1] == s'
  {
    Longer(run, 2, a);
    s' := Do(run[|run| - 1], a);
    run' := run + [s'];
  }

  // From the start: an election, two commands, an exchange that stores and commits them, and one that tells the
  // follower; both replicas hand them up. The leader's snapshot of both is labelled 1, and it drops the first.
  lemma {:induction false} CommandsGetThrough(a: string, b: string) returns (run: seq<System>)
    ensures IsSystemRun(run, 2)
    ensures var z, log := run[|run| - 1], [LogEntry(a, 1), LogEntry(b, 1)];
            var msgs := [ApplyMsg(a, 1, 1), ApplyMsg(b, 2, 1)];
            && (1, 2) in z.commits && z.started == map[(1, 0) := a, (1, 1) := b] && z.handed == [msgs, msgs]
            && |z.c.nodes| == 2 && z.c.nodes[1].logs == z.c.nodes[0].logs == log && Dropped(z.c, 0) == 1
  {
    var log := [LogEntry(a, 1), LogEntry(b, 1)];
    var s;
    run, s := LeaderHandedUp(a, b);
    Announces(s, log);
    run, s := More(run, Send(0, 1));
    Hears(s, log);
    run, s := More(run, Deliver(0, 1));
    HandsUp(s, 1, log);
    run, s := More(run, Hand(1));
    Drops(s);
    run, s := More(run, Drop(0, 1));
  }

  lemma LeaderHandedUp(a: string, b: string) returns (run: seq<System>, s: System)
    ensures IsSystemRun(run, 2) && run[|run| - 1] == s && Sized(s)
    ensures var log := [LogEntry(a, 1), LogEntry(b, 1)];
            && (1, 2) in s.commits && s.started == map[(1, 0) := a, (1, 1) := b]
            && s.handed == [[ApplyMsg(a, 1, 1), ApplyMsg(b, 2, 1)], []] && (0, 1) !in s.flights
            && s.c.nodes[0] == Node(1, 0, Leader, log, [1, 3], [2, 2], 2, 2, 0, 0, 2, 2)
            && s.c.nodes[1] == InitNode(2).(curTerm := 1, voteFor := 0, logs := log)
  {
    run, s := BothCommitted(a, b);
    HandsUp(s, 0, [LogEntry(a, 1), LogEntry(b, 1)]);
    run, s := More(run, Hand(0));
  }

  lemma BothCommitted(a: string, b: string) returns (run: seq<System>, s: System)
    ensures IsSystemRun(run, 2) && run[|run| - 1] == s && Sized(s)
    ensures var log := [LogEntry(a, 1), LogEntry(b, 1)];
            && (1, 2) in s.commits && s.started == map[(1, 0) := a, (1, 1) := b] && s.handed == [[], []]
            && s.c.nodes[0] == Node(1, 0, Leader, log, [1, 3], [2, 2], 0, 2, 0, 0, 2, 2) && (0, 1) !in s.flights
            && s.c.nodes[1] == InitNode(2).(curTerm := 1, voteFor := 0, logs := log)
  {
    var log := [LogEntry(a, 1), LogEntry(b, 1)];
    run, s := BothSubmitted(a, b);
    Sends(s, log);
    run, s := More(run, Send(0, 1));
    Delivers(s, log);
    run, s := More(run, Deliver(0, 1));
    Commits(s, log);
    run, s := More(run, Receive(0, 1));
  }

  lemma BothSubmitted(a: string, b: string) returns (run: seq<System>, s: System)
    ensures IsSystemRun(run, 2) && run[|run| - 1] == s && s.started == map[(1, 0) := a, (1, 1) := b]
    ensures Leading(s, [LogEntry(a, 1), LogEntry(b, 1)])
  {
    run := Elected();
    s := run[|run| - 1];
    Submits(s, [], a);
    assert [] + [LogEntry(a, 1)] == [LogEntry(a, 1)];
    run, s := More(run, Submit(0, a));
    Submits(s, [LogEntry(a, 1)], b);
    assert [LogEntry(a, 1)] + [LogEntry(b, 1)] == [LogEntry(a, 1), LogEntry(b, 1)];
    run, s := More(run, Submit(0, b));
  }

  lemma Elected() returns (run: seq<System>)
    ensures IsSystemRun(run, 2)
    ensures Leading(run[|run| - 1], []) && run[|run| - 1].started == map[]
  {
    var s := InitialSystem(2);
    run := [s];
    TimesOut();
    run, s := More(run, Vote(Timeout(0)));
    Calls(s);
    run, s := More(run, Vote(CallVote(0)));
    Votes(s);
    run, s := More(run, Vote(HandleVote(1, VoteMsg(1, CALL))));
    Counts(s);
    run, s := More(run, Vote(TakeVote(GRANT)));
    Wins(s);
    run, s := More(run, Vote(Finish(0)));
  }
}
