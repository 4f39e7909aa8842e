/** The invariant of the disciplined cluster holds in every run. */
module ExchangeProof {
  import opened RaftTypes
  import opened RaftSteps
  import opened Cluster
  import opened ClusterProof
  import opened Exchanges
  import opened CommitProof
  import Compaction
  import Quorum

  // ---------- what a growing history keeps ----------

  lemma KeptGrows(c: State, c': State, t: int, ack: nat, log: Log, log': Log, bound: int, bound': int)
    requires Extends(c, c') && t in c.termLog && ack <= |c.termLog[t]| && log <= log' && bound <= bound'
    requires Kept(c, t, ack, log, bound)
    ensures ack <= |c'.termLog[t]| && Kept(c', t, ack, log', bound')
  {
    forall m: nat | m <= ack ensures KeptAt(c', t, m, log', bound') {
      assert KeptAt(c, t, m, log, bound);
      assert Written(c', t, m) == Written(c, t, m);
    }
  }

  // Every replica's log, term and commit index only move forward.
  predicate NodeCalm(a: Node, b: Node) {
    && a.logs <= b.logs && a.curTerm <= b.curTerm
    && b.commitIndex == a.commitIndex
    && (b.curTerm == a.curTerm ==> b.nextIndex == a.nextIndex)
    && (b.role == Leader ==>
      || (a.role == Leader && b.curTerm == a.curTerm && b.nextIndex == a.nextIndex && b.matchIndex == a.matchIndex)
      || FreshTable(b))
  }

  predicate FreshTable(b: Node) {
    && (forall q: nat :: q < |b.nextIndex| ==> b.nextIndex[q] == |b.logs| + 1)
    && (forall q: nat :: q < |b.matchIndex| ==> b.matchIndex[q] == 0)
    && |b.nextIndex| == |b.matchIndex|
  }

  // A step that acknowledges and commits nothing, in which logs and terms only grow.
  ghost predicate Steady(s: System, s': System) {
    && WellSized(s) && WellSized(s') && Extends(s.c, s'.c)
    && s'.acks == s.acks && s'.commits == s.commits
    && (forall p: nat :: p < |s.c.nodes| ==>
          s.c.nodes[p].logs <= s'.c.nodes[p].logs && s.c.nodes[p].curTerm <= s'.c.nodes[p].curTerm)
  }

  // A steady step that also leaves commit indexes and leader tables alone.
  ghost predicate Calm(s: System, s': System) {
    Steady(s, s') && forall p: nat :: p < |s.c.nodes| ==> NodeCalm(s.c.nodes[p], s'.c.nodes[p])
  }

  lemma OneNodeCalm(s: System, s': System, q: nat)
    requires WellSized(s) && WellSized(s') && Extends(s.c, s'.c) && q < |s.c.nodes|
    requires s'.acks == s.acks && s'.commits == s.commits
    requires s'.c.nodes == s.c.nodes[q := s'.c.nodes[q]] && NodeCalm(s.c.nodes[q], s'.c.nodes[q])
    ensures Calm(s, s')
  {
  }

  lemma SteadyAcks(s: System, s': System)
    requires AcksOk(s) && Steady(s, s')
    ensures AcksOk(s')
  {
    forall v, t | (v, t) in s'.acks ensures AckOk(s', v, t) {
      assert AckOk(s, v, t);
      KeptGrows(s.c, s'.c, t, s.acks[(v, t)], s.c.nodes[v].logs, s'.c.nodes[v].logs,
                s.c.nodes[v].curTerm, s'.c.nodes[v].curTerm);
    }
  }

  lemma SteadyVoter(s: System, s': System, r: VoteReply, t: int)
    requires VotersKept(s) && Extends(s.c, s'.c) && s'.acks == s.acks && r in s.c.voteReps
    ensures VoterKept(s', r, t)
  {
    if r.resp.isAccepted && t < r.msg.req.term && (r.voter, t) in s.acks {
      assert VoterKept(s, r, t);
      KeptGrows(s.c, s'.c, t, s.acks[(r.voter, t)], r.voterLog, r.voterLog, r.msg.req.term, r.msg.req.term);
    }
  }

  lemma SteadyBallot(s: System, s': System, u: int, v: nat, t: int)
    requires BallotsKept(s) && Extends(s.c, s'.c) && s'.acks == s.acks
    requires u in s.c.elect && v in s.c.elect[u].ballots
    ensures BallotKept(s', u, v, t)
  {
    if t < u && (v, t) in s.acks {
      assert BallotKept(s, u, v, t);
      var log := s.c.elect[u].ballots[v];
      KeptGrows(s.c, s'.c, t, s.acks[(v, t)], log, log, u - 1, u - 1);
    }
  }

  lemma AckersGrow(s: System, s': System, t: int, m: int)
    requires |s.c.nodes| == |s'.c.nodes| && m >= 1
    requires forall v: nat :: v < |s.c.nodes| ==> Ack(s, v, t) <= Ack(s', v, t)
    ensures |Ackers(s, t, m)| <= |Ackers(s', t, m)|
  {
    SubsetIsSmaller(Ackers(s, t, m), Ackers(s', t, m));
  }

  lemma {:induction false} SubsetIsSmaller(a: set<nat>, b: set<nat>)
    requires a <= b
    ensures |a| <= |b|
  {
    if a != {} {
      var x :| x in a;
      SubsetIsSmaller(a - {x}, b - {x});
    }
  }

  // Acknowledgements and commits may only be added.
  ghost predicate Forward(s: System, s': System) {
    && Extends(s.c, s'.c) && s.commits <= s'.commits
    && (forall v: nat, t :: v < |s.c.nodes| ==> Ack(s, v, t) <= Ack(s', v, t))
  }

  lemma ForwardCommits(s: System, s': System)
    requires CommitsOk(s) && Forward(s, s')
    ensures forall t, m :: (t, m) in s.commits ==> CommitOk(s', t, m)
  {
    forall t, m | (t, m) in s.commits ensures CommitOk(s', t, m) {
      assert CommitOk(s, t, m);
      AckersGrow(s, s', t, m);
    }
  }

  lemma CoversGrows(s: System, s': System, k: nat, t: int, m: int, log: Log, log': Log)
    requires Forward(s, s') && Covers(s, k, t, m, log) && log <= log'
    ensures Covers(s', k, t, m, log')
  {
    assert Written(s'.c, t, k) == Written(s.c, t, k);
  }

  lemma CommittedGrows(s: System, s': System, k: int, bound: int, log: Log)
    requires Forward(s, s') && Committed(s, k, bound, log)
    ensures Committed(s', k, bound, log)
  {
    if k > 0 {
      var t, m :| t <= bound && Covers(s, k, t, m, log);
      CoversGrows(s, s', k, t, m, log, log);
    }
  }

  lemma EntriesOfPrefix(log: Log, log': Log, k: nat)
    requires k <= |log| && log <= log'
    ensures Entries(log', k) == Entries(log, k)
  {
  }

  lemma ForwardNodeCommit(s: System, s': System, p: nat)
    requires p < |s.c.nodes| && WellSized(s) && WellSized(s') && Forward(s, s') && NodeCommitOk(s, p)
    requires s.c.nodes[p].logs <= s'.c.nodes[p].logs && s.c.nodes[p].curTerm <= s'.c.nodes[p].curTerm
    requires s'.c.nodes[p].commitIndex == s.c.nodes[p].commitIndex
    requires s'.c.nodes[p].lastApplied == s.c.nodes[p].lastApplied && s'.handed[p] == s.handed[p]
    ensures NodeCommitOk(s', p)
  {
    var nd, nd' := s.c.nodes[p], s'.c.nodes[p];
    EntriesOfPrefix(nd.logs, nd'.logs, nd.lastApplied);
    if nd.commitIndex > 0 {
      var t, m :| t <= nd.curTerm && Covers(s, nd.commitIndex, t, m, nd.logs)
                  && (t == nd.curTerm ==> nd.commitIndex <= Ack(s, p, t));
      CoversGrows(s, s', nd.commitIndex, t, m, nd.logs, nd'.logs);
    }
  }

  lemma CalmTable(s: System, s': System, p: nat)
    requires p < |s.c.nodes| && Calm(s, s') && LeaderTableOk(s, p) && |s'.c.nodes[p].nextIndex| == |s.c.nodes|
    ensures LeaderTableOk(s', p)
  {
    assert NodeCalm(s.c.nodes[p], s'.c.nodes[p]);
  }

  lemma CalmNodes(s: System, s': System)
    requires WellSized(s) && NodesOk(s) && Calm(s, s') && Shape(s'.c) && s'.handed == s.handed
    requires forall p: nat :: p < |s.c.nodes| ==> s'.c.nodes[p].lastApplied == s.c.nodes[p].lastApplied
    ensures NodesOk(s')
  {
    forall p: nat | p < |s'.c.nodes| ensures NodeCommitOk(s', p) && LeaderTableOk(s', p) {
      assert NodeCommitOk(s, p) && LeaderTableOk(s, p) && NodeCalm(s.c.nodes[p], s'.c.nodes[p]);
      assert NodeOk(s'.c.nodes[p], |s'.c.nodes|, s'.c.termLog);
      ForwardNodeCommit(s, s', p);
      CalmTable(s, s', p);
    }
  }

  lemma CalmFlight(s: System, s': System, l: nat, p: nat)
    requires (l, p) in s.flights && FlightOk(s, l, p) && Calm(s, s')
    requires s.c.appends <= s'.c.appends && s.c.appendReps <= s'.c.appendReps
    requires (l, p) in s'.flights && s'.flights[(l, p)] == s.flights[(l, p)]
    requires AppendOk(s.c, s.flights[(l, p)].am)
    ensures FlightOk(s', l, p)
  {
    var r := s.flights[(l, p)].am.req;
    assert NodeCalm(s.c.nodes[l], s'.c.nodes[l]);
    CommittedGrows(s, s', r.leaderCommit, r.term, s.flights[(l, p)].am.full);
  }

  lemma CalmFlights(s: System, s': System)
    requires FlightsOk(s) && AppendsOk(s.c) && Calm(s, s')
    requires s.c.appends <= s'.c.appends && s.c.appendReps <= s'.c.appendReps
    ensures forall l, p :: (l, p) in s.flights && (l, p) in s'.flights && s'.flights[(l, p)] == s.flights[(l, p)]
              ==> FlightOk(s', l, p)
  {
    forall l, p | (l, p) in s.flights && (l, p) in s'.flights && s'.flights[(l, p)] == s.flights[(l, p)]
      ensures FlightOk(s', l, p)
    {
      assert FlightOk(s, l, p);
      CalmFlight(s, s', l, p);
    }
  }

  lemma StartedGrows(s: System, s': System)
    requires StartedOk(s) && Extends(s.c, s'.c) && s'.started == s.started
    ensures StartedOk(s')
  {
  }

  lemma SteadyKeeps(s: System, s': System)
    requires AcksOk(s) && VotersKept(s) && BallotsKept(s) && CommitsOk(s) && Steady(s, s')
    ensures AcksOk(s') && CommitsOk(s')
    ensures forall r, t :: r in s.c.voteReps && t < r.msg.req.term && (r.voter, t) in s'.acks ==> VoterKept(s', r, t)
    ensures forall u, v, t :: u in s.c.elect && v in s.c.elect[u].ballots && (v, t) in s'.acks ==>
              BallotKept(s', u, v, t)
  {
    SteadyAcks(s, s');
    ForwardCommits(s, s');
    forall r, t | r in s.c.voteReps && t < r.msg.req.term && (r.voter, t) in s'.acks ensures VoterKept(s', r, t) {
      SteadyVoter(s, s', r, t);
    }
    forall u, v, t | u in s.c.elect && v in s.c.elect[u].ballots && (v, t) in s'.acks
      ensures BallotKept(s', u, v, t)
    {
      SteadyBallot(s, s', u, v, t);
    }
  }

  // Everything of the invariant that a calm step keeps.
  lemma CalmKeeps(s: System, s': System)
    requires SysInv(s) && Calm(s, s') && Inv(s'.c)
    requires s.c.appends <= s'.c.appends && s.c.appendReps <= s'.c.appendReps
    ensures AcksOk(s') && CommitsOk(s')
    ensures forall r, t :: r in s.c.voteReps && t < r.msg.req.term && (r.voter, t) in s'.acks ==> VoterKept(s', r, t)
    ensures forall u, v, t :: u in s.c.elect && v in s.c.elect[u].ballots && (v, t) in s'.acks ==>
              BallotKept(s', u, v, t)
    ensures forall l, p :: (l, p) in s.flights && (l, p) in s'.flights && s'.flights[(l, p)] == s.flights[(l, p)]
              ==> FlightOk(s', l, p)
  {
    SteadyKeeps(s, s');
    CalmFlights(s, s');
  }

  // A calm step without new votes, elections or applied entries keeps the invariant.
  lemma CalmSysInv(s: System, s': System)
    requires SysInv(s) && Calm(s, s') && Inv(s'.c) && FlightsOk(s')
    requires s'.c.voteReps == s.c.voteReps && s'.c.elect == s.c.elect
    requires s'.handed == s.handed && s'.started == s.started
    requires forall p: nat :: p < |s.c.nodes| ==> s'.c.nodes[p].lastApplied == s.c.nodes[p].lastApplied
    ensures SysInv(s')
  {
    SteadyKeeps(s, s');
    CalmNodes(s, s');
    StartedGrows(s, s');
  }

  // ---------- elections ----------

  lemma VoteIsCalm(s: System, e: Event)
    requires SysInv(s) && CanAct(s, Vote(e))
    ensures Calm(s, Do(s, Vote(e)))
    ensures forall p: nat :: p < |s.c.nodes| ==> Do(s, Vote(e)).c.nodes[p].lastApplied == s.c.nodes[p].lastApplied
  {
    StepExtends(s.c, e);
    forall p: nat | p < |s.c.nodes| ensures NodeCalm(s.c.nodes[p], Apply(s.c, e).nodes[p]) {
      assert NodeOk(s.c.nodes[p], |s.c.nodes|, s.c.termLog);
      VoteNodeCalm(s.c, e, p);
    }
  }

  lemma VoteNodeCalm(c: State, e: Event, p: nat)
    requires |c.nodes| == |c.rounds| == |c.heard| && p < |c.nodes| && Enabled(c, e)
    requires c.nodes[p].lastIncludedIndex == 0 && |c.nodes[p].nextIndex| == |c.nodes[p].matchIndex|
    requires e.Timeout? || e.CallVote? || e.HandleVote? || e.TakeVote? || e.Finish?
    ensures NodeCalm(c.nodes[p], Apply(c, e).nodes[p])
    ensures Apply(c, e).nodes[p].lastApplied == c.nodes[p].lastApplied
  {
  }

  lemma KeepVote(s: System, e: Event)
    requires SysInv(s) && DroppedLate(s.c) && CanAct(s, Vote(e))
    ensures SysInv(Do(s, Vote(e)))
  {
    var s' := Do(s, Vote(e));
    KeepInv(s.c, e);
    VoteIsCalm(s, e);
    VoteTraffic(s, e);
    CalmKeeps(s, s');
    CalmNodes(s, s');
    StartedGrows(s, s');
    if e.HandleVote? {
      NewVoterKept(s, s', e.v, e.vm);
      NewVotePasses(s, s', e.v, e.vm);
    } else if e.Finish? {
      FinishWins(s, s', e.c);
      NewBallotsKept(s, s', e.c);
      WinnerPassed(s, s', e.c);
    }
  }

  // The log a replica keeps is never empty over a history that is not: it holds the last applied entry.
  lemma VoteIsOnHistory(s: System, v: nat, req: VoteRequest)
    requires v < |s.c.nodes| == |s.handed| && NodesOk(s) && DroppedLate(s.c)
    ensures VotesOnHistory(s.c.nodes[v], Dropped(s.c, v), req)
  {
    assert NodeCommitOk(s, v);
  }

  lemma NewVotePasses(s: System, s': System, v: nat, m: VoteMsg)
    requires WellSized(s) && v < |s.c.nodes| && Shape(s.c) && NodesOk(s) && DroppedLate(s.c)
    requires VotesPassed(s.c.elect, s.c.voteReps) && s'.c.elect == s.c.elect
    requires Dropped(s.c, v) <= |s.c.nodes[v].logs|
    requires var (_, resp) := ReplyVoteAt(s.c.nodes[v], Dropped(s.c, v), m.req);
             s'.c.voteReps == s.c.voteReps + {VoteReply(m, v, resp, s.c.nodes[v].logs)}
    ensures VotesPassed(s'.c.elect, s'.c.voteReps)
  {
    var f := s.c.nodes[v];
    assert NodeOk(f, |s.c.nodes|, s.c.termLog);
    VoteIsOnHistory(s, v, m.req);
    Compaction.ReplyVoteCommutes(f, Dropped(s.c, v), m.req);
    assert ReplyVoteAt(f, Dropped(s.c, v), m.req).1.isAccepted ==> Passes(m.req, f.logs);
  }

  lemma WinnerPassed(s: System, s': System, c: nat)
    requires Won(s, s', c) && TrafficInv(s.c) && Shape(s.c) && s'.c.voteReps == s.c.voteReps
    requires VotesPassed(s.c.elect, s.c.voteReps)
    ensures VotesPassed(s'.c.elect, s'.c.voteReps)
  {
    var u := s.c.nodes[c].curTerm + 1;
    forall t, v | t in s'.c.elect && v in s'.c.elect[t].ballots
      ensures NotBehind(s'.c.elect[t].init, s'.c.elect[t].ballots[v])
    {
      if t != u {
        assert s'.c.elect[t] == s.c.elect[t];
      } else if v != c {
        CountedVotePassed(s.c, c, v);
      }
    }
  }

  // A counted vote passed the test of the log the candidate still has.
  lemma CountedVotePassed(c: State, p: nat, v: nat)
    requires TrafficInv(c) && Shape(c) && VotesPassed(c.elect, c.voteReps)
    requires p < |c.nodes| && c.nodes[p].role == Candidate && v in Granted(c.heard[p])
    ensures NotBehind(c.nodes[p].logs, c.heard[p][v].voterLog)
  {
    var r := c.heard[p][v];
    assert HeardOk(c, p);
    assert VoteReplyOk(c, r) && VoteMsgOk(c, r.msg) && NodeOk(c.nodes[p], |c.nodes|, c.termLog);
  }

  lemma VoteTraffic(s: System, e: Event)
    requires SysInv(s) && CanAct(s, Vote(e))
    ensures s.c.appends == Apply(s.c, e).appends && s.c.appendReps == Apply(s.c, e).appendReps
    ensures !e.HandleVote? ==> Apply(s.c, e).voteReps == s.c.voteReps
    ensures !e.Finish? ==> Apply(s.c, e).elect == s.c.elect
  {
  }

  // The voter's log when it votes holds everything it acknowledged in earlier terms.
  lemma NewVoterKept(s: System, s': System, v: nat, m: VoteMsg)
    requires v < |s.c.nodes| && AcksOk(s) && Extends(s.c, s'.c) && s'.acks == s.acks
    requires Dropped(s.c, v) <= |s.c.nodes[v].logs|
    requires var (_, resp) := ReplyVoteAt(s.c.nodes[v], Dropped(s.c, v), m.req);
             s'.c.voteReps == s.c.voteReps + {VoteReply(m, v, resp, s.c.nodes[v].logs)}
    requires forall r, t :: r in s.c.voteReps && t < r.msg.req.term && (r.voter, t) in s'.acks ==> VoterKept(s', r, t)
    ensures VotersKept(s')
  {
    var resp := ReplyVoteAt(s.c.nodes[v], Dropped(s.c, v), m.req).1;
    forall r, t | r in s'.c.voteReps && t < r.msg.req.term && (r.voter, t) in s'.acks ensures VoterKept(s', r, t) {
      if r !in s.c.voteReps {
        assert r == VoteReply(m, v, resp, s.c.nodes[v].logs);
        if resp.isAccepted { VoterHolds(s, s', v, m, r, t); }
      }
    }
  }

  lemma VoterHolds(s: System, s': System, v: nat, m: VoteMsg, r: VoteReply, t: int)
    requires v < |s.c.nodes| && AcksOk(s) && Extends(s.c, s'.c) && s'.acks == s.acks && (v, t) in s.acks
    requires s.c.nodes[v].curTerm <= m.req.term
    requires r.msg == m && r.voter == v && r.voterLog == s.c.nodes[v].logs
    ensures VoterKept(s', r, t)
  {
    assert AckOk(s, v, t);
    KeptGrows(s.c, s'.c, t, s.acks[(v, t)], r.voterLog, r.voterLog, s.c.nodes[v].curTerm, m.req.term);
  }

  // What the event that ends a won election does to the history.
  ghost predicate Won(s: System, s': System, c: nat) {
    && WellSized(s) && c < |s.c.nodes| && s.c.nodes[c].role == Candidate
    && Extends(s.c, s'.c) && s'.acks == s.acks
    && (var u := s.c.nodes[c].curTerm + 1;
        && u !in s.c.elect && u in s'.c.elect
        && s'.c.elect == s.c.elect[u := s'.c.elect[u]]
        && s'.c.elect[u] == Election(c, s.c.nodes[c].logs, Ballots(s.c, c)))
  }

  lemma FinishWins(s: System, s': System, c: nat)
    requires WellSized(s) && WellSized(s') && Inv(s.c) && Enabled(s.c, Finish(c)) && Extends(s.c, s'.c)
    requires s'.c == Apply(s.c, Finish(c)) && s'.acks == s.acks
    ensures Won(s, s', c)
  {
    WinnerIsFirst(s.c, c);
    WinnerBallots(s.c, c);
  }

  lemma WinnerBallots(c: State, p: nat)
    requires |c.nodes| == |c.rounds| == |c.heard| && Enabled(c, Finish(p))
    ensures var u := c.nodes[p].curTerm + 1;
            && u in Apply(c, Finish(p)).elect
            && Apply(c, Finish(p)).elect[u] == Election(p, c.nodes[p].logs, Ballots(c, p))
            && Apply(c, Finish(p)).elect == c.elect[u := Apply(c, Finish(p)).elect[u]]
  {
  }

  lemma NewBallotsKept(s: System, s': System, c: nat)
    requires Won(s, s', c) && TrafficInv(s.c) && AcksOk(s) && VotersKept(s)
    requires forall u, v, t :: u in s.c.elect && v in s.c.elect[u].ballots && (v, t) in s'.acks ==>
               BallotKept(s', u, v, t)
    ensures BallotsKept(s')
  {
    var u := s.c.nodes[c].curTerm + 1;
    forall v, t | v in Ballots(s.c, c) && (v, t) in s.acks && t < u ensures BallotKept(s', u, v, t) {
      NewBallotKept(s, s'.c, c, v, t);
    }
    AllBallotsKept(s.c, s', u, Ballots(s.c, c));
  }

  lemma AllBallotsKept(c: State, s': System, u: int, ballots: map<nat, Log>)
    requires u in s'.c.elect && s'.c.elect[u].ballots == ballots && s'.c.elect == c.elect[u := s'.c.elect[u]]
    requires u !in c.elect
    requires forall w, v, t :: w in c.elect && v in c.elect[w].ballots && (v, t) in s'.acks ==> BallotKept(s', w, v, t)
    requires forall v, t :: v in ballots && (v, t) in s'.acks && t < u ==> BallotKept(s', u, v, t)
    ensures BallotsKept(s')
  {
    forall w, v, t | w in s'.c.elect && v in s'.c.elect[w].ballots && (v, t) in s'.acks
      ensures BallotKept(s', w, v, t)
    {
      if w != u {
        assert c.elect[w] == s'.c.elect[w];
      }
    }
  }

  lemma NewBallotKept(s: System, c': State, c: nat, v: nat, t: int)
    requires WellSized(s) && TrafficInv(s.c) && AcksOk(s) && VotersKept(s)
    requires c < |s.c.nodes| && s.c.nodes[c].role == Candidate && v in Ballots(s.c, c)
    requires (v, t) in s.acks && t <= s.c.nodes[c].curTerm && s.c.nodes[c].curTerm + 1 !in s.c.elect
    requires Extends(s.c, c')
    ensures t in c'.termLog && s.acks[(v, t)] <= |c'.termLog[t]|
    ensures Kept(c', t, s.acks[(v, t)], Ballots(s.c, c)[v], s.c.nodes[c].curTerm)
  {
    var log := Ballots(s.c, c)[v];
    if v == c {
      assert AckOk(s, c, t);
    } else {
      CountedVoterKept(s, c, v, t);
    }
    KeptGrows(s.c, c', t, s.acks[(v, t)], log, log, s.c.nodes[c].curTerm, s.c.nodes[c].curTerm);
  }

  // Nobody has led the candidate's next term, so a dropped entry was dropped before it.
  lemma CountedVoterKept(s: System, c: nat, v: nat, t: int)
    requires WellSized(s) && TrafficInv(s.c) && VotersKept(s)
    requires c < |s.c.nodes| && s.c.nodes[c].role == Candidate && v in Granted(s.c.heard[c])
    requires (v, t) in s.acks && t <= s.c.nodes[c].curTerm && s.c.nodes[c].curTerm + 1 !in s.c.elect
    ensures t in s.c.termLog && s.acks[(v, t)] <= |s.c.termLog[t]|
    ensures Kept(s.c, t, s.acks[(v, t)], s.c.heard[c][v].voterLog, s.c.nodes[c].curTerm)
  {
    var r := s.c.heard[c][v];
    assert HeardOk(s.c, c) && VoteReplyOk(s.c, r) && VoteMsgOk(s.c, r.msg) && VoterKept(s, r, t);
    NotMissedAt(s.c, t, s.acks[(v, t)], r.voterLog, s.c.nodes[c].curTerm, s.c.nodes[c].curTerm + 1);
  }

  lemma NotMissedAt(c: State, t: int, ack: nat, log: Log, b: int, u: int)
    requires t in c.termLog && ack <= |c.termLog[t]| && Kept(c, t, ack, log, u) && u == b + 1 && u !in c.elect
    ensures Kept(c, t, ack, log, b)
  {
    forall m: nat | m <= ack ensures KeptAt(c, t, m, log, b) { assert KeptAt(c, t, m, log, u); }
  }

  // ---------- commands, requests, losses and the hand-over to the key-value layer ----------

  lemma KeepSubmit(s: System, p: nat, cmd: string)
    requires SysInv(s) && CanAct(s, Submit(p, cmd))
    ensures SysInv(Do(s, Submit(p, cmd)))
  {
    var s' := Do(s, Submit(p, cmd));
    KeepInv(s.c, StartCmd(p, cmd));
    SubmitIsCalm(s, p, cmd);
    CalmKeeps(s, s');
    CalmNodes(s, s');
    SubmitStarted(s, p, cmd);
  }

  lemma SubmitIsCalm(s: System, p: nat, cmd: string)
    requires SysInv(s) && CanAct(s, Submit(p, cmd))
    ensures Calm(s, Do(s, Submit(p, cmd)))
    ensures Do(s, Submit(p, cmd)).c.elect == s.c.elect
    ensures forall q: nat :: q < |s.c.nodes| ==>
              Do(s, Submit(p, cmd)).c.nodes[q].lastApplied == s.c.nodes[q].lastApplied
  {
    StepExtends(s.c, StartCmd(p, cmd));
  }

  // `Start` returns one less than the index at which the entry lands.
  lemma SubmitStarted(s: System, p: nat, cmd: string)
    requires WellSized(s) && Shape(s.c) && RolesOk(s.c) && StartedOk(s) && CanAct(s, Submit(p, cmd))
    requires Extends(s.c, Do(s, Submit(p, cmd)).c)
    ensures StartedOk(Do(s, Submit(p, cmd)))
  {
    assert RoleOk(s.c, p) && NodeOk(s.c.nodes[p], |s.c.nodes|, s.c.termLog);
  }

  lemma KeepSend(s: System, l: nat, p: nat)
    requires SysInv(s) && CanAct(s, Send(l, p))
    ensures SysInv(Do(s, Send(l, p)))
  {
    SendParts(s, l, p);
    KeepSent(s, Do(s, Send(l, p)), l, p);
  }

  lemma SendParts(s: System, l: nat, p: nat)
    requires SysInv(s) && CanAct(s, Send(l, p))
    ensures Calm(s, Do(s, Send(l, p))) && Sent(s, Do(s, Send(l, p)), l, p)
    ensures Inv(Do(s, Send(l, p)).c) && FlightOk(Do(s, Send(l, p)), l, p)
  {
    KeepInv(s.c, SendAppend(l, p));
    SendIsCalm(s, l, p);
    NewFlightOk(s, l, p);
  }

  lemma SendIsCalm(s: System, l: nat, p: nat)
    requires SysInv(s) && CanAct(s, Send(l, p))
    ensures Calm(s, Do(s, Send(l, p))) && Sent(s, Do(s, Send(l, p)), l, p)
  {
    StepExtends(s.c, SendAppend(l, p));
  }

  // Sending adds a request and an exchange, and nothing else.
  ghost predicate Sent(s: System, s': System, l: nat, p: nat) {
    && s'.c == s.c.(appends := s'.c.appends) && s.c.appends <= s'.c.appends
    && (l, p) in s'.flights && s'.flights == s.flights[(l, p) := s'.flights[(l, p)]]
    && s'.handed == s.handed && s'.started == s.started
  }

  lemma KeepSent(s: System, s': System, l: nat, p: nat)
    requires SysInv(s) && Calm(s, s') && Sent(s, s', l, p) && Inv(s'.c) && FlightOk(s', l, p)
    ensures SysInv(s')
  {
    CalmFlights(s, s');
    forall l2, p2 | (l2, p2) in s'.flights ensures FlightOk(s', l2, p2) {
      if (l2, p2) != (l, p) { assert s'.flights[(l2, p2)] == s.flights[(l2, p2)]; }
    }
    CalmSysInv(s, s');
  }

  lemma NewFlightOk(s: System, l: nat, p: nat)
    requires SysInv(s) && CanAct(s, Send(l, p)) && Forward(s, Do(s, Send(l, p)))
    ensures FlightOk(Do(s, Send(l, p)), l, p)
  {
    var nd := s.c.nodes[l];
    assert NodeCommitOk(s, l) && RoleOk(s.c, l) && NodeOk(nd, |s.c.nodes|, s.c.termLog);
    AckWithinLog(s, p, nd.curTerm, nd.logs);
    OwnCommitted(s, l);
    RequestFlightOk(s, Do(s, Send(l, p)), l, p);
  }

  lemma AckWithinLog(s: System, p: nat, t: int, log: Log)
    requires AcksOk(s) && t in s.c.termLog && s.c.termLog[t] == log
    ensures Ack(s, p, t) <= |log|
  {
    if (p, t) in s.acks { assert AckOk(s, p, t); }
  }

  lemma RequestFlightOk(s: System, s': System, l: nat, p: nat)
    requires WellSized(s) && CanAct(s, Send(l, p)) && s' == Do(s, Send(l, p)) && Forward(s, s')
    requires s.c.nodes[l].lastIncludedIndex == 0 && Ack(s, p, s.c.nodes[l].curTerm) <= |s.c.nodes[l].logs|
    requires Committed(s, s.c.nodes[l].commitIndex, s.c.nodes[l].curTerm, s.c.nodes[l].logs)
    ensures FlightOk(s', l, p)
  {
    CommittedGrows(s, s', s.c.nodes[l].commitIndex, s.c.nodes[l].curTerm, s.c.nodes[l].logs);
  }

  lemma OwnCommitted(s: System, p: nat)
    requires WellSized(s) && p < |s.c.nodes| && NodeCommitOk(s, p)
    ensures Committed(s, s.c.nodes[p].commitIndex, s.c.nodes[p].curTerm, s.c.nodes[p].logs)
  {
  }

  lemma KeepLose(s: System, l: nat, p: nat)
    requires SysInv(s) && CanAct(s, Lose(l, p))
    ensures SysInv(Do(s, Lose(l, p)))
  {
    var s' := Do(s, Lose(l, p));
    CalmFlights(s, s');
    CalmSysInv(s, s');
  }

  lemma KeepDrop(s: System, p: nat, i: nat)
    requires SysInv(s) && CanAct(s, Drop(p, i))
    ensures SysInv(Do(s, Drop(p, i)))
  {
    var s' := Do(s, Drop(p, i));
    KeepInv(s.c, Snap(p, i));
    CalmFlights(s, s');
    CalmSysInv(s, s');
  }

  lemma KeepHand(s: System, p: nat)
    requires SysInv(s) && CanAct(s, Hand(p))
    ensures SysInv(Do(s, Hand(p)))
  {
    var s' := Do(s, Hand(p));
    KeepInv(s.c, HandUp(p));
    StepExtends(s.c, HandUp(p));
    OneNodeCalm(s, s', p);
    SteadyKeeps(s, s');
    CalmFlights(s, s');
    StartedGrows(s, s');
    HandedNodes(s, s', p);
  }

  lemma HandedNodes(s: System, s': System, p: nat)
    requires WellSized(s) && Shape(s.c) && NodesOk(s) && Calm(s, s') && p < |s.c.nodes| && CanApply(s.c.nodes[p])
    requires s'.c.nodes == s.c.nodes[p := AfterApply(s.c.nodes[p])]
    requires s'.handed == s.handed[p := s.handed[p] + Handed(s.c.nodes[p])]
    ensures NodesOk(s')
  {
    forall q: nat | q < |s'.c.nodes| ensures NodeCommitOk(s', q) && LeaderTableOk(s', q) {
      assert NodeCommitOk(s, q) && LeaderTableOk(s, q) && NodeOk(s.c.nodes[q], |s.c.nodes|, s.c.termLog);
      CalmTable(s, s', q);
      if q == p {
        HandedNodeOk(s, s', p);
      } else {
        ForwardNodeCommit(s, s', q);
      }
    }
  }

  lemma EntriesExtend(nd: Node)
    requires 0 <= nd.lastApplied <= nd.commitIndex <= |nd.logs| && nd.lastIncludedIndex == 0
    ensures Entries(nd.logs, nd.commitIndex) == Entries(nd.logs, nd.lastApplied) + Handed(nd)
  {
    var all, done, more := Entries(nd.logs, nd.commitIndex), Entries(nd.logs, nd.lastApplied), Handed(nd);
    assert |all| == |done| + |more|;
    forall k | |done| <= k < |all| ensures all[k] == more[k - |done|] {
      assert more[k - |done|] == Msg(nd, k + 1);
    }
  }

  lemma HandedNodeOk(s: System, s': System, p: nat)
    requires WellSized(s) && WellSized(s') && p < |s.c.nodes| && NodeCommitOk(s, p) && Forward(s, s')
    requires s.c.nodes[p].lastIncludedIndex == 0
    requires s'.c.nodes[p] == AfterApply(s.c.nodes[p])
    requires s'.handed[p] == s.handed[p] + Handed(s.c.nodes[p])
    ensures NodeCommitOk(s', p)
  {
    var nd := s.c.nodes[p];
    EntriesExtend(nd);
    if nd.commitIndex > 0 {
      var t, m :| t <= nd.curTerm && Covers(s, nd.commitIndex, t, m, nd.logs)
                  && (t == nd.curTerm ==> nd.commitIndex <= Ack(s, p, t));
      CoversGrows(s, s', nd.commitIndex, t, m, nd.logs, nd.logs);
    }
  }

  // ---------- a request reaches the follower ----------

  lemma KeepDeliver(s: System, l: nat, p: nat)
    requires SysInv(s) && DroppedOk(s.c) && CanAct(s, Deliver(l, p))
    ensures SysInv(Do(s, Deliver(l, p)))
  {
    var s' := Do(s, Deliver(l, p));
    var am := s.flights[(l, p)].am;
    assert FlightOk(s, l, p) && AppendOk(s.c, am);
    KeepInv(s.c, HandleAppend(am));
    StepExtends(s.c, HandleAppend(am));
    var resp := DeliverEffect(s, s', l, p);
    if resp.success {
      AcceptedLogIsFullCopy(s.c, am);
      KeepAccepted(s, s', l, p, am, resp);
    } else {
      CommitsReach(s, am.req.term);
      FollowerRejects(s, l, p, am);
      KeepRejected(s, s', l, p, am, resp);
    }
  }

  // The parts of the system that a delivery changes.
  ghost predicate Delivered(s: System, s': System, l: nat, p: nat, am: AppendMsg, resp: AppendResponse) {
    && WellSized(s) && WellSized(s') && l < |s.c.nodes| == |s'.c.nodes| && p < |s.c.nodes|
    && (l, p) in s.flights && am == s.flights[(l, p)].am && am.from == l && am.to == p
    && s'.c == s.c.(nodes := s.c.nodes[p := s'.c.nodes[p]], appendReps := s.c.appendReps + {(am, resp)})
    && s'.flights == s.flights[(l, p) := Flight(am, Some(resp))]
    && s'.acks == (if resp.success then s.acks[(p, am.req.term) := |am.full|] else s.acks)
    && s'.commits == s.commits && s'.started == s.started && s'.handed == s.handed
  }

  lemma DeliverEffect(s: System, s': System, l: nat, p: nat) returns (resp: AppendResponse)
    requires WellSized(s) && CanAct(s, Deliver(l, p)) && s' == Do(s, Deliver(l, p))
    requires l < |s.c.nodes| && s.flights[(l, p)].am.from == l && s.flights[(l, p)].am.to == p
    ensures Dropped(s.c, p) <= |s.c.nodes[p].logs|
    ensures (s'.c.nodes[p], resp) == ReplyAppendAt(s.c.nodes[p], Dropped(s.c, p), s.flights[(l, p)].am.req)
    ensures Delivered(s, s', l, p, s.flights[(l, p)].am, resp)
  {
    resp := ReplyAppendAt(s.c.nodes[p], Dropped(s.c, p), s.flights[(l, p)].am.req).1;
  }

  lemma KeepRejected(s: System, s': System, l: nat, p: nat, am: AppendMsg, resp: AppendResponse)
    requires SysInv(s) && Delivered(s, s', l, p, am, resp) && Inv(s'.c) && Extends(s.c, s'.c)
    requires !resp.success && NodeCalm(s.c.nodes[p], s'.c.nodes[p]) && RejectOk(am, resp)
    requires s'.c.nodes[p].lastApplied == s.c.nodes[p].lastApplied
    ensures SysInv(s')
  {
    OneNodeCalm(s, s', p);
    RejectedFlights(s, s', l, p, am, resp);
    CalmSysInv(s, s');
  }

  lemma RejectedFlights(s: System, s': System, l: nat, p: nat, am: AppendMsg, resp: AppendResponse)
    requires FlightsOk(s) && AppendsOk(s.c) && Calm(s, s') && Delivered(s, s', l, p, am, resp)
    requires !resp.success && RejectOk(am, resp)
    ensures FlightsOk(s')
  {
    CalmFlights(s, s');
    assert FlightOk(s, l, p) && AppendOk(s.c, am) && NodeCalm(s.c.nodes[l], s'.c.nodes[l]);
    CommittedGrows(s, s', am.req.leaderCommit, am.req.term, am.full);
    assert FlightOk(s', l, p);
    forall l2, p2 | (l2, p2) in s'.flights ensures FlightOk(s', l2, p2) {
      if (l2, p2) != (l, p) { assert s'.flights[(l2, p2)] == s.flights[(l2, p2)]; }
    }
  }

  lemma FollowerRejects(s: System, l: nat, p: nat, am: AppendMsg)
    requires WellSized(s) && Shape(s.c) && RolesOk(s.c) && DroppedOk(s.c) && AppendOk(s.c, am) && am.to == p
    requires NodesOk(s) && CommitsIn(s, am.req.term) && Ack(s, p, am.req.term) <= |am.full|
    requires Dropped(s.c, p) <= |s.c.nodes[p].logs|
    requires !ReplyAppendAt(s.c.nodes[p], Dropped(s.c, p), am.req).1.success
    ensures var (nd, resp) := ReplyAppendAt(s.c.nodes[p], Dropped(s.c, p), am.req);
            NodeCalm(s.c.nodes[p], nd) && nd.lastApplied == s.c.nodes[p].lastApplied && RejectOk(am, resp)
  {
    var f, k := s.c.nodes[p], Dropped(s.c, p);
    assert NodeOk(f, |s.c.nodes|, s.c.termLog) && NodeCommitOk(s, p);
    NotItsOwnLeader(s.c, am);
    Compaction.ReplyAppendAtIs(f, k, am.req);
    RejectedNode(f, am.req);
    if f.curTerm <= am.req.term {
      if am.req.prevLogIndex < k {
        OldCommitStays(s, l, p, am);
      } else {
        RejectIsOk(Compressed(f, k), am);
      }
    }
  }

  lemma RejectedNode(nd: Node, r: AppendRequest)
    requires nd.curTerm == r.term ==> nd.role != Leader
    ensures !ReplyAppend(nd, r).1.success ==>
              NodeCalm(nd, ReplyAppend(nd, r).0) && ReplyAppend(nd, r).0.lastApplied == nd.lastApplied
    ensures r.term >= nd.curTerm ==> NodeCalm(nd, Adopt(nd, r)) && Adopt(nd, r).lastApplied == nd.lastApplied
  {
  }

  // At or past what it dropped a replica's hint is an index of the leader's log, or one past it.
  lemma RejectIsOk(nd: Node, am: AppendMsg)
    requires 0 <= nd.lastIncludedIndex <= am.req.prevLogIndex <= |am.full|
    requires nd.lastIncludedIndex == 0 ==> nd.lastIncludeTerm == 0
    requires am.req.prevLogIndex == 0 ==> am.req.prevLogTerm == 0
    requires forall i :: 0 <= i < |nd.logs| ==> nd.logs[i].term >= 1
    ensures RejectOk(am, ReplyAppend(nd, am.req).1)
  {
    var r := am.req;
    if nd.curTerm <= r.term && !PrevMatches(nd, r) && nd.lastIncludedIndex < r.prevLogIndex <= nd.LastIndex() {
      FirstOfTermFound(nd, nd.TermAt(r.prevLogIndex), nd.lastIncludedIndex + 1, r.prevLogIndex);
    }
  }

  lemma {:induction false} FirstOfTermFound(nd: Node, t: int, from: int, last: int)
    requires nd.lastIncludedIndex < from <= last <= nd.LastIndex() && nd.TermAt(last) == t
    ensures from <= FirstOfTerm(nd, t, from, last) <= last
    ensures nd.TermAt(FirstOfTerm(nd, t, from, last)) == t
    ensures forall i :: from <= i < FirstOfTerm(nd, t, from, last) ==> nd.TermAt(i) != t
    decreases last - from
  {
    if nd.TermAt(from) != t { FirstOfTermFound(nd, t, from + 1, last); }
  }

  // Replica v, now in term u, holds `full` and acknowledges all of it as part of u's log.
  ghost predicate AckStep(s: System, s': System, v: nat, u: int, full: Log) {
    && WellSized(s) && WellSized(s') && Extends(s.c, s'.c) && v < |s.c.nodes|
    && s'.c.nodes == s.c.nodes[v := s'.c.nodes[v]] && s'.c.nodes[v].logs == full
    && s.c.nodes[v].curTerm <= u == s'.c.nodes[v].curTerm
    && u in s.c.elect && u in s.c.termLog && s.c.elect[u].init <= full <= s.c.termLog[u]
    && s'.c.elect == s.c.elect && s'.c.voteReps == s.c.voteReps && s'.c.votes == s.c.votes
    && s'.acks == s.acks[(v, u) := |full|] && Ack(s, v, u) <= |full|
  }

  // The state after a follower took a copy of the leader's log.
  ghost predicate Accepted(s: System, s': System, l: nat, p: nat, am: AppendMsg) {
    && AckStep(s, s', p, am.req.term, am.full) && l < |s.c.nodes|
    && AppendOk(s.c, am) && am.from == l && am.to == p
    && s'.c.nodes[p].role == Follower && s'.c.nodes[p].nextIndex == s.c.nodes[p].nextIndex
    && s'.c.appends == s.c.appends && s.c.appendReps <= s'.c.appendReps && s'.commits == s.commits
  }

  lemma AckForward(s: System, s': System, v: nat, u: int, full: Log)
    requires AckStep(s, s', v, u, full) && s.commits <= s'.commits
    ensures Forward(s, s')
  {
  }

  lemma AckKeepsAcks(s: System, s': System, p: nat, u: int, full: Log)
    requires AcksOk(s) && AckStep(s, s', p, u, full)
    ensures AcksOk(s')
  {
    forall v, t | (v, t) in s'.acks ensures AckOk(s', v, t) {
      if (v, t) == (p, u) {
        forall m: nat | m <= |full| ensures KeptAt(s'.c, u, m, full, u) {
          assert Written(s'.c, u, m) <= full;
        }
      } else {
        assert AckOk(s, v, t);
        if v == p {
          CopyKeeps(s.c, s'.c, t, s.acks[(p, t)], u, full);
        } else {
          KeptGrows(s.c, s'.c, t, s.acks[(v, t)], s.c.nodes[v].logs, s.c.nodes[v].logs,
                    s.c.nodes[v].curTerm, s.c.nodes[v].curTerm);
        }
      }
    }
  }

  // A copy of the log of a later leader keeps what that leader began with.
  lemma CopyKeeps(c: State, c': State, t: int, ack: nat, u: int, full: Log)
    requires Extends(c, c') && t in c.termLog && ack <= |c.termLog[t]| && t < u && u in c.elect
    requires c.elect[u].init <= full
    ensures ack <= |c'.termLog[t]| && Kept(c', t, ack, full, u)
  {
    forall m: nat | m <= ack ensures KeptAt(c', t, m, full, u) {
      assert c'.elect[u] == c.elect[u];
      if Written(c', t, m) <= c.elect[u].init {
        assert Written(c', t, m) <= full;
      }
    }
  }

  // A vote for a later term was given before, so this acknowledgement concerns no counted vote.
  lemma AckKeepsVoters(s: System, s': System, p: nat, u: int, full: Log)
    requires VotersKept(s) && VotesOk(s.c) && TrafficInv(s.c) && AckStep(s, s', p, u, full)
    ensures VotersKept(s')
  {
    forall r, t | r in s'.c.voteReps && t < r.msg.req.term && (r.voter, t) in s'.acks ensures VoterKept(s', r, t) {
      if r.resp.isAccepted {
        assert VoteReplyOk(s.c, r) && VoteOk(s.c, r.voter, r.msg.req.term);
        assert (r.voter, t) != (p, u);
        assert VoterKept(s, r, t);
        KeptGrows(s.c, s'.c, t, s.acks[(r.voter, t)], r.voterLog, r.voterLog, r.msg.req.term, r.msg.req.term);
      }
    }
  }

  lemma AckKeepsBallots(s: System, s': System, p: nat, u: int, full: Log)
    requires BallotsKept(s) && VotesOk(s.c) && ElectionsOk(s.c) && AckStep(s, s', p, u, full)
    ensures BallotsKept(s')
  {
    forall w, v, t | w in s'.c.elect && v in s'.c.elect[w].ballots && (v, t) in s'.acks
      ensures BallotKept(s', w, v, t)
    {
      if t < w {
        BallotTerm(s.c, w, v);
        AckKeepsBallot(s, s', p, u, w, v, t);
      }
    }
  }

  lemma AckKeepsBallot(s: System, s': System, p: nat, u: int, w: int, v: nat, t: int)
    requires BallotsKept(s) && Extends(s.c, s'.c) && s'.acks.Keys == s.acks.Keys + {(p, u)}
    requires forall k :: k in s.acks && k != (p, u) ==> s'.acks[k] == s.acks[k]
    requires w in s.c.elect && v in s.c.elect[w].ballots && (v, t) in s'.acks && t < w
    requires (v, t) != (p, u)
    ensures BallotKept(s', w, v, t)
  {
    assert BallotKept(s, w, v, t);
    var log := s.c.elect[w].ballots[v];
    KeptGrows(s.c, s'.c, t, s.acks[(v, t)], log, log, w - 1, w - 1);
  }

  lemma BallotTerm(c: State, w: int, v: nat)
    requires VotesOk(c) && ElectionsOk(c) && w in c.elect && v in c.elect[w].ballots
    ensures v < |c.nodes| && c.nodes[v].curTerm >= w
  {
    assert ElectionOk(c, w) && VoteOk(c, v, w);
  }

  lemma AckKeepsHistory(s: System, s': System, p: nat, u: int, full: Log)
    requires History(s) && VotersKept(s) && AckStep(s, s', p, u, full) && s.commits <= s'.commits && Inv(s'.c)
    ensures AcksOk(s') && BallotsKept(s') && VotersKept(s') && Forward(s, s')
    ensures forall t, m :: (t, m) in s.commits ==> CommitOk(s', t, m)
  {
    AckForward(s, s', p, u, full);
    AckKeepsAcks(s, s', p, u, full);
    AckKeepsVoters(s, s', p, u, full);
    AckKeepsBallots(s, s', p, u, full);
    ForwardCommits(s, s');
  }

  lemma AcceptedFlight(s: System, s': System, l: nat, p: nat, am: AppendMsg, l2: nat, p2: nat)
    requires FlightsOk(s) && AppendsOk(s.c) && Accepted(s, s', l, p, am)
    requires (l2, p2) in s.flights && (l2, p2) != (l, p)
    requires (l2, p2) in s'.flights && s'.flights[(l2, p2)] == s.flights[(l2, p2)]
    ensures FlightOk(s', l2, p2)
  {
    assert FlightOk(s, l2, p2);
    var m2 := s.flights[(l2, p2)].am;
    assert AppendOk(s.c, m2);
    AckForward(s, s', p, am.req.term, am.full);
    CommittedGrows(s, s', m2.req.leaderCommit, m2.req.term, m2.full);
    assert (p2, m2.req.term) != (p, am.req.term);
  }

  // The follower's commit index stays inside what was committed, in the log it now has.
  lemma AcceptedCommit(s: System, s': System, l: nat, p: nat, am: AppendMsg)
    requires Accepted(s, s', l, p, am) && CommitsIn(s, am.req.term)
    requires NodeCommitOk(s, p) && s'.handed[p] == s.handed[p]
    requires Committed(s, am.req.leaderCommit, am.req.term, am.full)
    requires s'.c.nodes[p].lastApplied == s.c.nodes[p].lastApplied
    requires s'.c.nodes[p].commitIndex ==
      if s.c.nodes[p].commitIndex < am.req.leaderCommit then am.req.leaderCommit else s.c.nodes[p].commitIndex
    ensures NodeCommitOk(s', p)
  {
    var nd, nd', u := s.c.nodes[p], s'.c.nodes[p], am.req.term;
    AckForward(s, s', p, am.req.term, am.full);
    OldCommitStays(s, l, p, am);
    if nd.commitIndex < am.req.leaderCommit {
      var t, m :| t <= u && Covers(s, am.req.leaderCommit, t, m, am.full);
      CoversGrows(s, s', am.req.leaderCommit, t, m, am.full, am.full);
    } else if nd.commitIndex > 0 {
      var t, m :| t <= u && Covers(s, nd.commitIndex, t, m, am.full)
                  && (t == u ==> nd.commitIndex <= |am.full|);
      CoversGrows(s, s', nd.commitIndex, t, m, am.full, am.full);
    }
    EntriesOfSame(nd.logs, am.full, nd.lastApplied, nd.commitIndex);
  }

  lemma EntriesOfSame(a: Log, b: Log, k: nat, m: nat)
    requires k <= m <= |a| && m <= |b| && a[..m] == b[..m]
    ensures Entries(a, k) == Entries(b, k)
  {
    forall i | 0 <= i < k ensures a[i] == b[i] { assert a[i] == a[..m][i] == b[..m][i]; }
  }

  // Everything committed before term u was in the log that u's leader began with.
  ghost predicate CommitsIn(s: System, u: int)
    requires u in s.c.elect
  {
    forall t, m :: (t, m) in s.commits && t < u ==>
      t in s.c.termLog && 1 <= m <= |s.c.termLog[t]| && Written(s.c, t, m) <= s.c.elect[u].init
  }

  lemma CommitsReach(s: System, u: int)
    requires History(s) && u in s.c.elect
    ensures CommitsIn(s, u)
  {
    forall t, m | (t, m) in s.commits && t < u
      ensures t in s.c.termLog && 1 <= m <= |s.c.termLog[t]| && Written(s.c, t, m) <= s.c.elect[u].init
    {
      CommitStays(s, t, m, u);
    }
  }

  // What the follower had committed is in the leader's copy too.
  lemma OldCommitStays(s: System, l: nat, p: nat, am: AppendMsg)
    requires WellSized(s) && p < |s.c.nodes| && NodeCommitOk(s, p)
    requires AppendOk(s.c, am) && CommitsIn(s, am.req.term)
    requires s.c.nodes[p].curTerm <= am.req.term && Ack(s, p, am.req.term) <= |am.full|
    ensures s.c.nodes[p].commitIndex <= |am.full|
    ensures s.c.nodes[p].logs[..s.c.nodes[p].commitIndex] == am.full[..s.c.nodes[p].commitIndex]
    ensures s.c.nodes[p].commitIndex > 0 ==>
      exists t, m :: t <= am.req.term && Covers(s, s.c.nodes[p].commitIndex, t, m, am.full)
  {
    var nd, u := s.c.nodes[p], am.req.term;
    if nd.commitIndex > 0 {
      var t, m :| t <= nd.curTerm && Covers(s, nd.commitIndex, t, m, nd.logs)
                  && (t == nd.curTerm ==> nd.commitIndex <= Ack(s, p, t));
      if t < u { assert Written(s.c, t, nd.commitIndex) <= Written(s.c, t, m); }
      assert Covers(s, nd.commitIndex, t, m, am.full);
      assert nd.logs[..nd.commitIndex] == Written(s.c, t, nd.commitIndex) == am.full[..nd.commitIndex];
    }
  }

  // `ReplyAppend` raises the commit index to the leader's, never lowers it, and applies nothing.
  lemma AcceptedNode(nd: Node, r: AppendRequest, full: Log)
    requires ReplyAppend(nd, r).1.success && ReplyAppend(nd, r).0.logs == full
    requires nd.lastIncludedIndex == 0 && r.leaderCommit <= |full|
    ensures ReplyAppend(nd, r).0.lastApplied == nd.lastApplied
    ensures ReplyAppend(nd, r).0.commitIndex
            == if nd.commitIndex < r.leaderCommit then r.leaderCommit else nd.commitIndex
  {
  }

  lemma AcceptedNodes(s: System, s': System, l: nat, p: nat, am: AppendMsg)
    requires Accepted(s, s', l, p, am) && s'.handed == s.handed
    requires Shape(s.c) && NodesOk(s) && CommitsIn(s, am.req.term)
    requires Committed(s, am.req.leaderCommit, am.req.term, am.full)
    requires s'.c.nodes[p] == ReplyAppend(s.c.nodes[p], am.req).0 && ReplyAppend(s.c.nodes[p], am.req).1.success
    ensures NodesOk(s')
  {
    AckForward(s, s', p, am.req.term, am.full);
    forall q: nat | q < |s'.c.nodes| ensures NodeCommitOk(s', q) && LeaderTableOk(s', q) {
      assert NodeCommitOk(s, q) && LeaderTableOk(s, q);
      if q == p {
        assert NodeOk(s.c.nodes[p], |s.c.nodes|, s.c.termLog);
        AcceptedNode(s.c.nodes[p], am.req, am.full);
        AcceptedCommit(s, s', l, p, am);
      } else {
        ForwardNodeCommit(s, s', q);
      }
    }
  }

  lemma AcceptedFlights(s: System, s': System, l: nat, p: nat, am: AppendMsg)
    requires FlightsOk(s) && AppendsOk(s.c) && Accepted(s, s', l, p, am)
    requires (l, p) in s.flights && s.flights[(l, p)].am == am
    requires exists resp: AppendResponse :: resp.success && s'.flights == s.flights[(l, p) := Flight(am, Some(resp))]
                            && (am, resp) in s'.c.appendReps
    ensures FlightsOk(s')
  {
    forall l2, p2 | (l2, p2) in s'.flights ensures FlightOk(s', l2, p2) {
      if (l2, p2) != (l, p) {
        AcceptedFlight(s, s', l, p, am, l2, p2);
      } else {
        assert FlightOk(s, l, p);
        AckForward(s, s', p, am.req.term, am.full);
        CommittedGrows(s, s', am.req.leaderCommit, am.req.term, am.full);
      }
    }
  }

  lemma KeepAccepted(s: System, s': System, l: nat, p: nat, am: AppendMsg, resp: AppendResponse)
    requires SysInv(s) && Delivered(s, s', l, p, am, resp) && Inv(s'.c) && Extends(s.c, s'.c)
    requires resp.success && s'.c.nodes[p].logs == am.full
    requires s'.c.nodes[p] == ReplyAppend(s.c.nodes[p], am.req).0 && ReplyAppend(s.c.nodes[p], am.req).1.success
    ensures SysInv(s')
  {
    DeliveredIsAccepted(s, s', l, p, am, resp);
    AckKeepsHistory(s, s', p, am.req.term, am.full);
    CommitsReach(s, am.req.term);
    AcceptedNodes(s, s', l, p, am);
    AcceptedFlights(s, s', l, p, am);
    StartedGrows(s, s');
  }

  lemma DeliveredIsAccepted(s: System, s': System, l: nat, p: nat, am: AppendMsg, resp: AppendResponse)
    requires FlightsOk(s) && AppendsOk(s.c) && Delivered(s, s', l, p, am, resp) && Extends(s.c, s'.c)
    requires resp.success && s'.c.nodes[p].logs == am.full
    requires s'.c.nodes[p] == ReplyAppend(s.c.nodes[p], am.req).0 && ReplyAppend(s.c.nodes[p], am.req).1.success
    ensures Accepted(s, s', l, p, am) && Committed(s, am.req.leaderCommit, am.req.term, am.full)
  {
    assert FlightOk(s, l, p) && AppendOk(s.c, am);
  }

  // ---------- the leader takes the reply ----------

  lemma KeepReceive(s: System, l: nat, p: nat)
    requires SysInv(s) && DroppedOk(s.c) && CanAct(s, Receive(l, p))
    ensures SysInv(Do(s, Receive(l, p)))
  {
    var s' := Do(s, Receive(l, p));
    var f := s.flights[(l, p)];
    assert FlightOk(s, l, p);
    KeepInv(s.c, TakeAppend(f.am, f.reply.value));
    StepExtends(s.c, TakeAppend(f.am, f.reply.value));
    ReceiveEffect(s, s', l, p);
    var nd := s.c.nodes[l];
    assert NodeOk(nd, |s.c.nodes|, s.c.termLog) && NodeCommitOk(s, l);
    Compaction.OnAppendResponseAtIs(nd, Dropped(s.c, l), l, p, f.am.req, f.reply.value);
    if nd.curTerm != f.am.req.term || f.reply.value.term > nd.curTerm {
      KeepIgnored(s, s', l, p, f.am, f.reply.value);
    } else {
      LeadsItsTerm(s, l, p);
      if f.reply.value.success {
        KeepTaken(s, s', l, p, f.am, f.reply.value);
      } else {
        KeepBackedOff(s, s', l, p, Dropped(s.c, l), f.am, f.reply.value);
      }
    }
  }

  // The parts of the system that taking a reply changes.
  ghost predicate Received(s: System, s': System, l: nat, p: nat) {
    && WellSized(s) && WellSized(s') && l < |s.c.nodes| == |s'.c.nodes| && p < |s.c.nodes|
    && (l, p) in s.flights && s.flights[(l, p)].reply.Some?
    && s'.c == s.c.(nodes := s.c.nodes[l := s'.c.nodes[l]])
    && s'.flights == s.flights - {(l, p)} && s'.started == s.started && s'.handed == s.handed
    && (var nd, nd', f := s.c.nodes[l], s'.c.nodes[l], s.flights[(l, p)];
        && s'.acks == (if TakenAsSuccess(nd, f.am, f.reply.value) then s.acks[(l, nd.curTerm) := |nd.logs|] else s.acks)
        && s'.commits == (if nd'.commitIndex > nd.commitIndex
                          then s.commits + {(nd'.curTerm, nd'.commitIndex)} else s.commits))
  }

  lemma ReceiveEffect(s: System, s': System, l: nat, p: nat)
    requires WellSized(s) && CanAct(s, Receive(l, p)) && s' == Do(s, Receive(l, p))
    requires FlightOk(s, l, p)
    ensures Received(s, s', l, p)
    ensures var nd, k, f := s.c.nodes[l], Dropped(s.c, l), s.flights[(l, p)];
            && k <= |nd.logs| && CanTakeResponse(Compressed(nd, k), l, p, f.am.req, f.reply.value)
            && s'.c.nodes[l] == OnAppendResponseAt(nd, k, l, p, f.am.req, f.reply.value)
  {
  }

  // A replica in the term of a request it sent still leads that term, which the code never checks.
  lemma LeadsItsTerm(s: System, l: nat, p: nat)
    requires Inv(s.c) && (l, p) in s.flights && FlightOk(s, l, p) && l < |s.c.nodes|
    requires s.c.nodes[l].curTerm == s.flights[(l, p)].am.req.term
    ensures s.c.nodes[l].role == Leader && s.c.nodes[l].curTerm in s.c.elect
    ensures s.c.nodes[l].curTerm in s.c.termLog && s.c.termLog[s.c.nodes[l].curTerm] == s.c.nodes[l].logs
    ensures s.c.elect[s.c.nodes[l].curTerm].init <= s.c.nodes[l].logs && l != p
    ensures s.flights[(l, p)].am.full <= s.c.nodes[l].logs
  {
    var am := s.flights[(l, p)].am;
    assert AppendOk(s.c, am) && ElectionOk(s.c, am.req.term) && RoleOk(s.c, l) && TermLogOk(s.c, am.req.term);
  }

  lemma KeepIgnored(s: System, s': System, l: nat, p: nat, am: AppendMsg, resp: AppendResponse)
    requires SysInv(s) && Received(s, s', l, p) && s.flights[(l, p)] == Flight(am, Some(resp))
    requires Inv(s'.c) && Extends(s.c, s'.c)
    requires s.c.nodes[l].curTerm != am.req.term || resp.term > s.c.nodes[l].curTerm
    requires CanTakeResponse(s.c.nodes[l], l, p, am.req, resp)
    requires s'.c.nodes[l] == OnAppendResponse(s.c.nodes[l], l, p, am.req, resp)
    ensures SysInv(s')
  {
    IgnoredNode(s.c.nodes[l], l, p, am.req, resp);
    OneNodeCalm(s, s', l);
    CalmFlights(s, s');
    CalmSysInv(s, s');
  }

  lemma IgnoredNode(nd: Node, l: nat, p: nat, r: AppendRequest, resp: AppendResponse)
    requires CanTakeResponse(nd, l, p, r, resp) && (nd.curTerm != r.term || resp.term > nd.curTerm)
    ensures NodeCalm(nd, OnAppendResponse(nd, l, p, r, resp))
    ensures OnAppendResponse(nd, l, p, r, resp).lastApplied == nd.lastApplied
    ensures OnAppendResponse(nd, l, p, r, resp).commitIndex == nd.commitIndex
  {
  }

  // ---------- a rejection taken in the leader's own term ----------

  lemma KeepBackedOff(s: System, s': System, l: nat, p: nat, k: nat, am: AppendMsg, resp: AppendResponse)
    requires SysInv(s) && Received(s, s', l, p) && s.flights[(l, p)] == Flight(am, Some(resp))
    requires Inv(s'.c) && Extends(s.c, s'.c) && FlightOk(s, l, p)
    requires s.c.nodes[l].curTerm == am.req.term && resp.term <= am.req.term && !resp.success
    requires k <= |s.c.nodes[l].logs| && am.req.prevLogIndex <= |am.full| <= |s.c.nodes[l].logs|
    requires p < |s.c.nodes[l].nextIndex|
    requires s'.c.nodes[l] == s.c.nodes[l].(nextIndex := s.c.nodes[l].nextIndex[p :=
                                NextAfterReject(Compressed(s.c.nodes[l], k), am.req.prevLogIndex, resp)])
    requires s.c.nodes[l].role == Leader
    ensures SysInv(s')
  {
    assert AppendOk(s.c, am) && NodeOk(s.c.nodes[l], |s.c.nodes|, s.c.termLog);
    BackOffInRange(Compressed(s.c.nodes[l], k), am.req.prevLogIndex, resp, |am.full|);
    BackedOffIsSteady(s, s', l, p);
    SteadyKeeps(s, s');
    StartedGrows(s, s');
    BackedOffNodes(s, s', l, p);
    OtherFlights(s, s', l, p);
  }

  lemma BackedOffIsSteady(s: System, s': System, l: nat, p: nat)
    requires Received(s, s', l, p) && Extends(s.c, s'.c)
    requires !s.flights[(l, p)].reply.value.success
    requires s'.c.nodes[l] == s.c.nodes[l].(nextIndex := s'.c.nodes[l].nextIndex)
    ensures Steady(s, s') && Forward(s, s')
  {
  }

  lemma {:induction false} LastAtMostFound(nd: Node, t: int, from: int)
    requires nd.lastIncludedIndex >= 0 && from <= nd.LastIndex()
    ensures LastAtMost(nd, t, from) == -1 || nd.lastIncludedIndex < LastAtMost(nd, t, from) <= from
    ensures LastAtMost(nd, t, from) != -1 ==> nd.TermAt(LastAtMost(nd, t, from)) <= t
    ensures forall i :: nd.lastIncludedIndex < i <= from && LastAtMost(nd, t, from) < i ==> nd.TermAt(i) > t
    decreases from - nd.lastIncludedIndex
  {
    if from > nd.lastIncludedIndex && nd.TermAt(from) > t { LastAtMostFound(nd, t, from - 1); }
  }

  lemma BackOffInRange(nd: Node, prev: int, resp: AppendResponse, top: int)
    requires nd.lastIncludedIndex >= 0 && prev <= nd.LastIndex() && prev <= top
    requires (if resp.conflictTerm == -1 then 0 else 1) <= resp.conflictIndex <= top
    ensures 1 <= NextAfterReject(nd, prev, resp) <= top + 1
  {
    if resp.conflictTerm != -1 { LastAtMostFound(nd, resp.conflictTerm, prev); }
  }

  lemma BackedOffNodes(s: System, s': System, l: nat, p: nat)
    requires WellSized(s) && Shape(s.c) && NodesOk(s) && Steady(s, s') && s'.handed == s.handed
    requires l < |s.c.nodes| && p < |s.c.nodes|
    requires s'.c.nodes == s.c.nodes[l := s'.c.nodes[l]]
    requires p < |s.c.nodes[l].nextIndex| && p < |s'.c.nodes[l].nextIndex|
    requires s'.c.nodes[l] == s.c.nodes[l].(nextIndex := s.c.nodes[l].nextIndex[p := s'.c.nodes[l].nextIndex[p]])
    requires 1 <= s'.c.nodes[l].nextIndex[p] <= |s.c.nodes[l].logs| + 1
    ensures NodesOk(s')
  {
    forall q: nat | q < |s'.c.nodes| ensures NodeCommitOk(s', q) && LeaderTableOk(s', q) {
      assert NodeCommitOk(s, q) && LeaderTableOk(s, q);
      ForwardNodeCommit(s, s', q);
    }
  }

  // Exchanges other than the finished one: their leader's entry for their own peer did not move.
  lemma OtherFlights(s: System, s': System, l: nat, p: nat)
    requires FlightsOk(s) && AppendsOk(s.c) && Received(s, s', l, p) && Forward(s, s')
    requires p < |s.c.nodes[l].nextIndex| && p < |s'.c.nodes[l].nextIndex|
    requires s'.c.nodes[l].nextIndex == s.c.nodes[l].nextIndex[p := s'.c.nodes[l].nextIndex[p]]
    requires s'.c.nodes[l].curTerm == s.c.nodes[l].curTerm && s.c.nodes[l].curTerm in s.c.elect
    requires s.c.elect[s.c.nodes[l].curTerm].leader == l
    ensures FlightsOk(s')
  {
    forall l2, p2 | (l2, p2) in s'.flights ensures FlightOk(s', l2, p2) {
      assert FlightOk(s, l2, p2);
      var m2 := s.flights[(l2, p2)].am;
      assert AppendOk(s.c, m2);
      CommittedGrows(s, s', m2.req.leaderCommit, m2.req.term, m2.full);
      assert (p2, m2.req.term) != (l, s.c.nodes[l].curTerm);
    }
  }

  // ---------- a success taken in the leader's own term ----------

  lemma KeepTaken(s: System, s': System, l: nat, p: nat, am: AppendMsg, resp: AppendResponse)
    requires SysInv(s) && Received(s, s', l, p) && s.flights[(l, p)] == Flight(am, Some(resp))
    requires Inv(s'.c) && Extends(s.c, s'.c) && FlightOk(s, l, p)
    requires s.c.nodes[l].curTerm == am.req.term && resp.term <= am.req.term && resp.success
    requires CanTakeResponse(s.c.nodes[l], l, p, am.req, resp)
    requires s'.c.nodes[l] == OnAppendResponse(s.c.nodes[l], l, p, am.req, resp)
    requires s.c.nodes[l].role == Leader && s.c.nodes[l].curTerm in s.c.elect && l != p
    requires s.c.nodes[l].curTerm in s.c.termLog && s.c.termLog[s.c.nodes[l].curTerm] == s.c.nodes[l].logs
    requires s.c.elect[s.c.nodes[l].curTerm].init <= s.c.nodes[l].logs && am.full <= s.c.nodes[l].logs
    ensures SysInv(s')
  {
    var nd := s.c.nodes[l];
    assert AppendOk(s.c, am) && NodeOk(nd, |s.c.nodes|, s.c.termLog) && RoleOk(s.c, l) && NodeCommitOk(s, l);
    AckWithinLog(s, l, nd.curTerm, nd.logs);
    TakenIsAck(s, s', l, p, am, resp);
    AckKeepsHistory(s, s', l, nd.curTerm, nd.logs);
    StartedGrows(s, s');
    TakenTable(s, s', l, p, am, resp);
    TakenCommits(s, s', l, p, am, resp);
    TakenFields(s, s', l, p, am, resp);
    OtherFlights(s, s', l, p);
    TakenNodes(s, s', l, p);
  }

  // The fields that a success may change, and how far.
  ghost predicate TookSuccess(s: System, s': System, l: nat, p: nat) {
    && l < |s.c.nodes| == |s'.c.nodes|
    && (var nd, nd' := s.c.nodes[l], s'.c.nodes[l];
        && nd' == nd.(nextIndex := nd'.nextIndex, matchIndex := nd'.matchIndex, commitIndex := nd'.commitIndex)
        && p < |nd.nextIndex| && p < |nd'.nextIndex|
        && nd'.nextIndex == nd.nextIndex[p := nd'.nextIndex[p]]
        && nd.commitIndex <= nd'.commitIndex <= |nd.logs|
        && (nd'.commitIndex > nd.commitIndex ==> (nd.curTerm, nd'.commitIndex) in s'.commits))
  }

  lemma TakenFields(s: System, s': System, l: nat, p: nat, am: AppendMsg, resp: AppendResponse)
    requires Received(s, s', l, p) && s.flights[(l, p)] == Flight(am, Some(resp))
    requires s.c.nodes[l].lastIncludedIndex == 0 && s.c.nodes[l].commitIndex <= |s.c.nodes[l].logs|
    requires s.c.nodes[l].curTerm == am.req.term && resp.term <= am.req.term && resp.success
    requires CanTakeResponse(s.c.nodes[l], l, p, am.req, resp)
    requires s'.c.nodes[l] == OnAppendResponse(s.c.nodes[l], l, p, am.req, resp)
    ensures TookSuccess(s, s', l, p)
  {
  }

  lemma TakenIsAck(s: System, s': System, l: nat, p: nat, am: AppendMsg, resp: AppendResponse)
    requires Received(s, s', l, p) && s.flights[(l, p)] == Flight(am, Some(resp)) && Extends(s.c, s'.c)
    requires s.c.nodes[l].curTerm == am.req.term && resp.term <= am.req.term && resp.success
    requires CanTakeResponse(s.c.nodes[l], l, p, am.req, resp)
    requires s'.c.nodes[l] == OnAppendResponse(s.c.nodes[l], l, p, am.req, resp)
    requires s.c.nodes[l].curTerm in s.c.elect && s.c.nodes[l].curTerm in s.c.termLog
    requires s.c.termLog[s.c.nodes[l].curTerm] == s.c.nodes[l].logs
    requires s.c.elect[s.c.nodes[l].curTerm].init <= s.c.nodes[l].logs
    requires Ack(s, l, s.c.nodes[l].curTerm) <= |s.c.nodes[l].logs|
    ensures AckStep(s, s', l, s.c.nodes[l].curTerm, s.c.nodes[l].logs) && s.commits <= s'.commits
  {
  }

  // The match table never overstates: every entry is an index its server acknowledged.
  lemma TakenTable(s: System, s': System, l: nat, p: nat, am: AppendMsg, resp: AppendResponse)
    requires Received(s, s', l, p) && s.flights[(l, p)] == Flight(am, Some(resp)) && l != p
    requires NodesOk(s) && FlightOk(s, l, p) && AppendOk(s.c, am) && Forward(s, s')
    requires s.c.nodes[l].role == Leader && am.full <= s.c.nodes[l].logs && s.c.nodes[l].lastIncludedIndex == 0
    requires s.c.nodes[l].curTerm == am.req.term && resp.term <= am.req.term && resp.success
    requires CanTakeResponse(s.c.nodes[l], l, p, am.req, resp)
    requires s'.c.nodes[l] == OnAppendResponse(s.c.nodes[l], l, p, am.req, resp)
    ensures LeaderTableOk(s', l)
    ensures s'.c.nodes[l].matchIndex == MatchAfterAppend(s.c.nodes[l], l, p, |am.req.entries|)
  {
    assert LeaderTableOk(s, l);
  }

  lemma TakenCommits(s: System, s': System, l: nat, p: nat, am: AppendMsg, resp: AppendResponse)
    requires Received(s, s', l, p) && s.flights[(l, p)] == Flight(am, Some(resp))
    requires s.c.nodes[l].lastIncludedIndex == 0 && s.c.nodes[l].curTerm in s.c.elect
    requires s.c.nodes[l].curTerm in s.c.termLog && s.c.termLog[s.c.nodes[l].curTerm] == s.c.nodes[l].logs
    requires Extends(s.c, s'.c) && NodeCommitOk(s, l) && LeaderTableOk(s', l) && s'.c.nodes[l].role == Leader
    requires s.c.nodes[l].curTerm == am.req.term && resp.term <= am.req.term && resp.success
    requires CanTakeResponse(s.c.nodes[l], l, p, am.req, resp)
    requires s'.c.nodes[l] == OnAppendResponse(s.c.nodes[l], l, p, am.req, resp)
    requires forall t, m :: (t, m) in s.commits ==> CommitOk(s', t, m)
    ensures CommitsOk(s')
  {
    var nd, nd' := s.c.nodes[l], s'.c.nodes[l];
    assert NodeCommitOk(s, l);
    if nd'.commitIndex > nd.commitIndex {
      MajorityAcked(s', l, nd'.commitIndex);
      assert CommitOk(s', nd'.curTerm, nd'.commitIndex);
    }
  }

  // n - n/2 servers acknowledged what element n/2 of the match table says.
  lemma MajorityAcked(s: System, l: nat, m: nat)
    requires l < |s.c.nodes| && s.c.nodes[l].role == Leader && LeaderTableOk(s, l)
    requires m <= Quorum.MajorityIndex(s.c.nodes[l].matchIndex)
    ensures |Ackers(s, s.c.nodes[l].curTerm, m)| >= |s.c.nodes| - |s.c.nodes| / 2
  {
    var nd := s.c.nodes[l];
    Quorum.MajorityIndexIsExact(nd.matchIndex, m);
    SubsetIsSmaller(Quorum.AtLeast(nd.matchIndex, m), Ackers(s, nd.curTerm, m));
  }

  lemma TakenNodes(s: System, s': System, l: nat, p: nat)
    requires WellSized(s) && WellSized(s') && l < |s.c.nodes| && NodesOk(s) && Forward(s, s') && s'.handed == s.handed
    requires s'.c.nodes == s.c.nodes[l := s'.c.nodes[l]] && LeaderTableOk(s', l)
    requires TookSuccess(s, s', l, p) && Ack(s', l, s.c.nodes[l].curTerm) == |s.c.nodes[l].logs|
    requires s.c.nodes[l].curTerm in s.c.termLog && s.c.termLog[s.c.nodes[l].curTerm] == s.c.nodes[l].logs
    ensures NodesOk(s')
  {
    forall q: nat | q < |s'.c.nodes| ensures NodeCommitOk(s', q) && LeaderTableOk(s', q) {
      assert NodeCommitOk(s, q) && LeaderTableOk(s, q);
      if q == l && s'.c.nodes[l].commitIndex > s.c.nodes[l].commitIndex {
        var nd' := s'.c.nodes[l];
        assert Covers(s', nd'.commitIndex, nd'.curTerm, nd'.commitIndex, nd'.logs);
      } else {
        ForwardNodeCommit(s, s', q);
      }
    }
  }
}
