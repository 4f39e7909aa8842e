/** Why at most one exchange per pair is assumed: a run of the cluster with arbitrary delivery in which two
    requests of one leader are under way, and the leader ends up believing what is not so. */
module Overstate {
  import opened RaftTypes
  import opened RaftSteps
  import opened Cluster
  import opened ClusterProof
  import Compaction
  import Exchanges
  import Witness

  lemma Longer(run: seq<State>, n: nat, e: Event)
    requires IsRun(run, n) && var s := run[|run| - 1]; |s.nodes| == |s.rounds| == |s.heard| && Enabled(s, e)
    ensures IsRun(run + [Apply(run[|run| - 1], e)], n)
  {
    var longer := run + [Apply(run[|run| - 1], e)];
    forall i | 0 < i < |longer| ensures Next(longer[i - 1], longer[i]) {
      if i < |run| {
        assert Next(run[i - 1], run[i]);
      } else {
        assert longer[i - 1] == run[|run| - 1];
      }
    }
  }

  // Replica 0 leads term 1 and has heard nothing from replica 1, which voted for it.
  ghost predicate Led(s: State, logs: Log) {
    && |s.nodes| == |s.rounds| == |s.heard| == 2 && s.dropped == map[]
    && s.nodes[0] == Node(1, 0, Leader, logs, [1, 1], [0, 0], 0, 0, 0, 0, 2, 2)
    && s.nodes[1] == InitNode(2).(curTerm := 1, voteFor := 0)
  }

  // One step of the election, on the run and on the system that the witness follows.
  lemma Vote(run: seq<State>, s: Exchanges.System, e: Event) returns (run': seq<State>, s': Exchanges.System)
    requires IsRun(run, 2) && run[|run| - 1] == s.c && Exchanges.WellSized(s) && Exchanges.CanAct(s, Exchanges.Vote(e))
    ensures s' == Exchanges.Do(s, Exchanges.Vote(e)) && IsRun(run', 2) && run'[|run'| - 1] == s'.c
  {
    Longer(run, 2, e);
    run', s' := run + [Apply(s.c, e)], Exchanges.Do(s, Exchanges.Vote(e));
  }

  lemma Elected() returns (run: seq<State>)
    ensures IsRun(run, 2) && Led(run[|run| - 1], [])
  {
    var s := Exchanges.InitialSystem(2);
    run := [s.c];
    Witness.TimesOut();
    run, s := Vote(run, s, Timeout(0));
    Witness.Calls(s);
    run, s := Vote(run, s, CallVote(0));
    Witness.Votes(s);
    run, s := Vote(run, s, HandleVote(1, VoteMsg(1, Witness.CALL)));
    Witness.Counts(s);
    run, s := Vote(run, s, TakeVote(Witness.GRANT));
    Witness.Wins(s);
    run, s := Vote(run, s, Finish(0));
  }

  lemma Starts(s: State, logs: Log, cmd: string)
    requires Led(s, logs)
    ensures Led(Apply(s, StartCmd(0, cmd)), logs + [LogEntry(cmd, 1)])
    ensures Apply(s, StartCmd(0, cmd)).appends == s.appends
  {
  }

  lemma Sends(s: State, logs: Log)
    requires Led(s, logs)
    ensures Enabled(s, SendAppend(0, 1)) && Led(Apply(s, SendAppend(0, 1)), logs)
    ensures Apply(s, SendAppend(0, 1)).appends == s.appends + {Witness.Request(logs)}
  {
    assert logs[0..] == logs;
  }

  // Replica 1 stores `log` after a request for it, whatever it stored before.
  lemma Stores(s: State, log: Log)
    requires |s.nodes| == |s.rounds| == |s.heard| == 2 && s.dropped == map[] && Witness.Request(log) in s.appends
    requires s.nodes[1] == InitNode(2).(curTerm := 1, voteFor := 0, logs := s.nodes[1].logs)
    ensures Enabled(s, HandleAppend(Witness.Request(log)))
    ensures Apply(s, HandleAppend(Witness.Request(log))) == s.(
              nodes := s.nodes[1 := s.nodes[1].(logs := log)],
              appendReps := s.appendReps + {(Witness.Request(log), Witness.YES)})
  {
    Compaction.NothingDropped(s.nodes[1]);
    assert s.nodes[1].logs[..0] + log == log;
    assert ReplyAppend(s.nodes[1], Witness.Request(log).req) == (s.nodes[1].(logs := log), Witness.YES);
  }

  lemma TakesNewer(s: State, log: Log)
    requires |s.nodes| == |s.rounds| == |s.heard| == 2 && s.dropped == map[]
    requires (Witness.Request(log), Witness.YES) in s.appendReps
    requires |log| == 2 && log[1].term == 1
    requires s.nodes[0] == Node(1, 0, Leader, log, [1, 1], [0, 0], 0, 0, 0, 0, 2, 2)
    ensures Enabled(s, TakeAppend(Witness.Request(log), Witness.YES))
    ensures Apply(s, TakeAppend(Witness.Request(log), Witness.YES)) == s.(
              nodes := s.nodes[0 := Node(1, 0, Leader, log, [1, 3], [2, 2], 0, 2, 0, 0, 2, 2)])
  {
    var nd := s.nodes[0];
    Compaction.NothingDropped(nd);
    assert MatchAfterAppend(nd, 0, 1, 2) == [2, 2] && nd.nextIndex[1 := 3] == [1, 3];
    Witness.MajorityOfTwo(2, 2);
  }

  // The older request reaches the follower after the newer one and truncates its log. The leader takes the
  // newer reply: it counts index 2 as stored by both and commits it, while the follower holds one entry.
  // Taking the older reply too would put 3 in the match table and have the commit test read past the log.
  lemma {:induction false} TwoInFlightOverstate(a: string, b: string) returns (run: seq<State>)
    ensures IsRun(run, 2)
    ensures var z, older := run[|run| - 1], Witness.Request([LogEntry(a, 1)]);
            && |z.nodes| == 2 && z.nodes[0].role == Leader && z.nodes[0].curTerm == z.nodes[1].curTerm
            && z.nodes[0].matchIndex == [2, 2] && z.nodes[0].commitIndex == 2
            && z.nodes[0].logs == [LogEntry(a, 1), LogEntry(b, 1)] && z.nodes[1].logs == [LogEntry(a, 1)]
            && (older, Witness.YES) in z.appendReps && |z.nodes[0].nextIndex| == 2
            && MatchAfterAppend(z.nodes[0], 0, 1, |older.req.entries|) == [2, 3]
            && !CanTakeResponse(z.nodes[0], 0, 1, older.req, Witness.YES)
  {
    var one, two := [LogEntry(a, 1)], [LogEntry(a, 1), LogEntry(b, 1)];
    run := BothSent(a, b);
    var s;
    run, s := StoreMore(run, two);
    run, s := StoreMore(run, one);
    TakesNewer(s, two);
    Longer(run, 2, TakeAppend(Witness.Request(two), Witness.YES));
    s := Apply(s, TakeAppend(Witness.Request(two), Witness.YES));
    run := run + [s];
    assert MatchAfterAppend(s.nodes[0], 0, 1, 1) == [2, 3];
    Witness.MajorityOfTwo(2, 3);
  }

  lemma StoreMore(run: seq<State>, log: Log) returns (run': seq<State>, z: State)
    requires IsRun(run, 2)
    requires var s := run[|run| - 1];
             && |s.nodes| == |s.rounds| == |s.heard| == 2 && s.dropped == map[] && Witness.Request(log) in s.appends
             && s.nodes[1] == InitNode(2).(curTerm := 1, voteFor := 0, logs := s.nodes[1].logs)
    ensures IsRun(run', 2) && run'[|run'| - 1] == z
    ensures var s := run[|run| - 1];
            z == s.(nodes := s.nodes[1 := s.nodes[1].(logs := log)],
                    appendReps := s.appendReps + {(Witness.Request(log), Witness.YES)})
  {
    var s := run[|run| - 1];
    Stores(s, log);
    Longer(run, 2, HandleAppend(Witness.Request(log)));
    z := Apply(s, HandleAppend(Witness.Request(log)));
    run' := run + [z];
  }

  // The leader sent its log after the first command and again after the second.
  lemma BothSent(a: string, b: string) returns (run: seq<State>)
    ensures IsRun(run, 2) && Led(run[|run| - 1], [LogEntry(a, 1), LogEntry(b, 1)])
    ensures Witness.Request([LogEntry(a, 1)]) in run[|run| - 1].appends
    ensures Witness.Request([LogEntry(a, 1), LogEntry(b, 1)]) in run[|run| - 1].appends
  {
    var one, two := [LogEntry(a, 1)], [LogEntry(a, 1), LogEntry(b, 1)];
    run := Elected();
    var s := run[|run| - 1];
    run, s := StartAndSend(run, [], a);
    assert [] + [LogEntry(a, 1)] == one;
    var run2, s2 := StartAndSend(run, one, b);
    assert one + [LogEntry(b, 1)] == two;
    run := run2;
  }

  lemma StartAndSend(run: seq<State>, logs: Log, cmd: string) returns (run': seq<State>, z: State)
    requires IsRun(run, 2) && Led(run[|run| - 1], logs)
    ensures IsRun(run', 2) && run'[|run'| - 1] == z && Led(z, logs + [LogEntry(cmd, 1)])
    ensures z.appends == run[|run| - 1].appends + {Witness.Request(logs + [LogEntry(cmd, 1)])}
  {
    var s := run[|run| - 1];
    Starts(s, logs, cmd);
    Longer(run, 2, StartCmd(0, cmd));
    s := Apply(s, StartCmd(0, cmd));
    run' := run + [s];
    Sends(s, logs + [LogEntry(cmd, 1)]);
    Longer(run', 2, SendAppend(0, 1));
    z := Apply(s, SendAppend(0, 1));
    run' := run' + [z];
  }
}
