/** What the handlers do in every run, branch by branch: who gets a vote, who steps down, which requests are
    accepted, what a reply changes, what `Start` answers. It is said of logs, terms and records, not of the step
    functions. */
module Handling {
  import opened RaftTypes
  import opened RaftSteps
  import opened Cluster
  import opened ClusterProof
  import opened Exchanges
  import opened ExchangeProof
  import opened Safety
  import CompactingCluster
  import Compaction
  import Quorum

  ghost predicate Can(s: State, e: Event) {
    |s.nodes| == |s.rounds| == |s.heard| && Enabled(s, e)
  }

  function Max(a: int, b: int): int {
    if a < b then b else a
  }

  // ---------- votes ----------

  // The answer to a vote request: the voter's term, and what becomes of the voter.
  lemma {:induction false} VoteIsAnswered(run: seq<State>, n: nat, i: nat, v: nat, m: VoteMsg)
    returns (resp: VoteResponse)
    requires IsRun(run, n) && i < |run| && Can(run[i], HandleVote(v, m))
    ensures var s, z := run[i], Apply(run[i], HandleVote(v, m));
            var nd := s.nodes[v];
            && z.voteReps == s.voteReps + {VoteReply(m, v, resp, nd.logs)} && resp.term == nd.curTerm
            && z.nodes == s.nodes[v := nd.(
                 curTerm := Max(nd.curTerm, m.req.term),
                 role := if m.req.term > nd.curTerm then Follower else nd.role,
                 voteFor := if resp.isAccepted then m.req.candidateId
                            else if m.req.term > nd.curTerm then -1 else nd.voteFor)]
            && (resp.isAccepted ==>
              m.req.term >= nd.curTerm
              && (m.req.term > nd.curTerm || nd.voteFor == -1 || nd.voteFor == m.req.candidateId))
  {
    resp := ReplyVoteAt(run[i].nodes[v], Dropped(run[i], v), m.req).1;
  }

  // Who gets a vote: exactly a candidate of a term that is not older, to whom the voter is free to give it, and
  // whose log is not behind the voter's whole history.
  lemma {:induction false} VoteIsGrantedIff(run: seq<System>, n: nat, i: nat, v: nat, req: VoteRequest)
    requires IsSystemRun(run, n) && i < |run| && v < |run[i].c.nodes|
    ensures DroppedOk(run[i].c)
    ensures var nd := run[i].c.nodes[v];
            ReplyVote(CompactingCluster.Real(run[i].c, v), req).1.isAccepted <==>
              && req.term >= nd.curTerm
              && (req.term > nd.curTerm || nd.voteFor == -1 || nd.voteFor == req.candidateId)
              && Passes(req, nd.logs)
  {
    CompactingCluster.VotesAreOnHistory(run, n, i, v, req);
    SystemRunOk(run, n, i);
    assert NodeOk(run[i].c.nodes[v], |run[i].c.nodes|, run[i].c.termLog);
  }

  // Of any two replicas of a reachable state, at least one would pass the other's test.
  lemma {:induction false} OneOfTwoPasses(run: seq<State>, n: nat, i: nat, a: nat, b: nat)
    requires IsRun(run, n) && i < |run| && a < |run[i].nodes| && b < |run[i].nodes|
    ensures Passes(BuildVoteRequest(run[i].nodes[a], a), run[i].nodes[b].logs)
            || Passes(BuildVoteRequest(run[i].nodes[b], b), run[i].nodes[a].logs)
    ensures Passes(BuildVoteRequest(run[i].nodes[a], a), run[i].nodes[b].logs)
            <==> NotBehind(run[i].nodes[a].logs, run[i].nodes[b].logs)
  {
    RunKeepsInv(run, n, i);
    var s := run[i];
    assert NodeOk(s.nodes[a], |s.nodes|, s.termLog) && NodeOk(s.nodes[b], |s.nodes|, s.termLog);
  }

  // ---------- voting rounds ----------

  // A counted reply is one more reply, and one more vote if it grants. A term above the one asked for makes the
  // replica a follower of that term without a vote; otherwise role, term and vote stand.
  lemma {:induction false} VoteReplyIsCounted(run: seq<State>, n: nat, i: nat, r: VoteReply)
    requires IsRun(run, n) && i < |run| && Can(run[i], TakeVote(r))
    ensures var s, c := run[i], r.msg.req.candidateId;
            var nd, down := s.nodes[c], r.resp.term > s.nodes[c].curTerm + 1;
            && (nd.role == Candidate ==> r.msg.req.term == nd.curTerm + 1)
            && Apply(s, TakeVote(r)).nodes == s.nodes[c := nd.(
                 votes := nd.votes + (if r.resp.isAccepted then 1 else 0), finished := nd.finished + 1,
                 role := if down then Follower else nd.role, curTerm := if down then r.resp.term else nd.curTerm,
                 voteFor := if down then -1 else nd.voteFor)]
  {
    RunKeepsInv(run, n, i);
    assert VoteReplyOk(run[i], r) && VoteMsgOk(run[i], r.msg);
  }

  // Rounds of replica c only go up, and without a new one it does not become a candidate.
  ghost predicate RoundsGrow(s: State, s': State, c: nat) {
    c < |s.nodes| == |s.rounds| ==>
      && c < |s'.nodes| == |s'.rounds| && s'.rounds[c] >= s.rounds[c]
      && (s'.rounds[c] == s.rounds[c] && s.nodes[c].role != Candidate ==> s'.nodes[c].role != Candidate)
  }

  // Only a timeout opens a round and makes a candidate.
  lemma EventKeepsRounds(s: State, e: Event, c: nat)
    requires Can(s, e)
    ensures RoundsGrow(s, Apply(s, e), c)
    ensures c < |s.nodes| ==> Apply(s, e).rounds[c] == s.rounds[c] + (if e == Timeout(c) then 1 else 0)
  {
  }

  lemma NextKeepsRounds(s: State, s': State, c: nat)
    requires Next(s, s')
    ensures RoundsGrow(s, s', c)
  {
    var e :| Enabled(s, e) && s' == Apply(s, e);
    EventKeepsRounds(s, e, c);
  }

  lemma {:induction false} ChainKeepsRounds(states: seq<State>, i: nat, j: nat, c: nat)
    requires i <= j < |states| && forall k :: i < k <= j ==> RoundsGrow(states[k - 1], states[k], c)
    ensures RoundsGrow(states[i], states[j], c)
    decreases j
  {
    if i < j { ChainKeepsRounds(states, i, j - 1, c); }
  }

  lemma RunKeepsRounds(run: seq<State>, n: nat, i: nat, j: nat, c: nat)
    requires IsRun(run, n) && i <= j < |run|
    ensures RoundsGrow(run[i], run[j], c)
  {
    forall k | i < k <= j ensures RoundsGrow(run[k - 1], run[k], c) { NextKeepsRounds(run[k - 1], run[k], c); }
    ChainKeepsRounds(run, i, j, c);
  }

  // A candidate that learned of a higher term cannot win before its next timeout, which would open a new round.
  lemma {:induction false} SteppedDownCannotWin(run: seq<State>, n: nat, i: nat, j: nat, r: VoteReply)
    requires IsRun(run, n) && i < j < |run| && Can(run[i], TakeVote(r)) && run[i + 1] == Apply(run[i], TakeVote(r))
    requires var c := r.msg.req.candidateId;
             && r.resp.term > run[i].nodes[c].curTerm + 1
             && c < |run[j].rounds| && run[j].rounds[c] == run[i].rounds[c]
    ensures !Can(run[j], Finish(r.msg.req.candidateId))
  {
    SteppedDown(run[i], run[i + 1], r);
    FollowerCannotWin(run, n, i + 1, j, r.msg.req.candidateId);
  }

  lemma FollowerCannotWin(run: seq<State>, n: nat, i: nat, j: nat, c: nat)
    requires IsRun(run, n) && i <= j < |run| && c < |run[i].nodes| == |run[i].rounds|
    requires run[i].nodes[c].role == Follower && c < |run[j].rounds| && run[j].rounds[c] == run[i].rounds[c]
    ensures !Can(run[j], Finish(c))
  {
    RunKeepsRounds(run, n, i, j, c);
    FollowerStays(run[i], run[j], c);
  }

  lemma SteppedDown(s: State, z: State, r: VoteReply)
    requires Can(s, TakeVote(r)) && z == Apply(s, TakeVote(r))
    requires r.resp.term > s.nodes[r.msg.req.candidateId].curTerm + 1
    ensures var c := r.msg.req.candidateId;
            c < |z.nodes| == |z.rounds| && z.rounds == s.rounds && z.nodes[c].role == Follower
  {
  }

  lemma FollowerStays(z: State, last: State, c: nat)
    requires RoundsGrow(z, last, c) && c < |z.nodes| == |z.rounds| && z.nodes[c].role == Follower
    requires c < |last.rounds| && last.rounds[c] == z.rounds[c]
    ensures !Can(last, Finish(c))
  {
  }

  // A candidate wins exactly with the votes of more than half of the servers, and starts its term with its log
  // as it is, next indexes past it and match indexes 0.
  lemma {:induction false} WonIff(run: seq<State>, n: nat, i: nat, c: nat)
    requires IsRun(run, n) && i < |run| && c < |run[i].nodes| == |run[i].rounds| == |run[i].heard|
    ensures Can(run[i], Finish(c)) <==>
              run[i].nodes[c].role == Candidate && |Ballots(run[i], c)| > |run[i].nodes| / 2
    ensures Can(run[i], Finish(c)) ==>
              var nd, k := run[i].nodes[c], |run[i].nodes|;
              Apply(run[i], Finish(c)).nodes == run[i].nodes[c := nd.(role := Leader, curTerm := nd.curTerm + 1,
                nextIndex := seq(k, _ => |nd.logs| + 1), matchIndex := seq(k, _ => 0))]
  {
    RunKeepsInv(run, n, i);
    assert NodeOk(run[i].nodes[c], |run[i].nodes|, run[i].termLog);
    WinnerIsCounted(run[i], c);
    WinnerStarts(run[i], c);
  }

  lemma WinnerIsCounted(s: State, c: nat)
    requires Inv(s) && c < |s.nodes| && |s.nodes[c].nextIndex| == |s.nodes|
    ensures Can(s, Finish(c)) <==> s.nodes[c].role == Candidate && |Ballots(s, c)| > |s.nodes| / 2
  {
    if s.nodes[c].role == Candidate { BallotsCounted(s, c); }
  }

  lemma WinnerStarts(s: State, c: nat)
    requires c < |s.nodes| && Full(s.nodes[c]) && |s.nodes[c].nextIndex| == |s.nodes|
    ensures Can(s, Finish(c)) ==>
              var nd, k := s.nodes[c], |s.nodes|;
              Apply(s, Finish(c)).nodes == s.nodes[c := nd.(role := Leader, curTerm := nd.curTerm + 1,
                nextIndex := seq(k, _ => |nd.logs| + 1), matchIndex := seq(k, _ => 0))]
  {
  }

  // The counter of finished votes is the number of peers that answered in this round, and one for itself.
  ghost predicate FinishedOk(s: State) {
    && |s.nodes| == |s.rounds| == |s.heard|
    && forall c: nat :: c < |s.nodes| ==>
         s.nodes[c].finished == |s.heard[c]| + (if s.rounds[c] == 0 then 0 else 1)
  }

  lemma EventKeepsFinished(s: State, e: Event, c: nat)
    requires Can(s, e) && c < |s.nodes|
    requires s.nodes[c].finished == |s.heard[c]| + (if s.rounds[c] == 0 then 0 else 1)
    ensures var z := Apply(s, e);
            && |z.nodes| == |z.rounds| == |z.heard| == |s.nodes|
            && z.nodes[c].finished == |z.heard[c]| + (if z.rounds[c] == 0 then 0 else 1)
  {
    if e.TakeVote? && e.vr.msg.req.candidateId == c { OneMoreReply(s.heard[c], e.vr); }
  }

  lemma OneMoreReply(h: map<nat, VoteReply>, r: VoteReply)
    requires r.voter !in h
    ensures |h[r.voter := r]| == |h| + 1
  {
    assert h[r.voter := r].Keys == h.Keys + {r.voter};
    assert |h[r.voter := r]| == |h[r.voter := r].Keys| && |h.Keys| == |h|;
  }

  lemma NextKeepsFinished(s: State, s': State)
    requires FinishedOk(s) && Next(s, s')
    ensures FinishedOk(s')
  {
    var e :| Enabled(s, e) && s' == Apply(s, e);
    forall c: nat | c < |s.nodes|
      ensures |s'.nodes| == |s'.rounds| == |s'.heard| == |s.nodes|
              && s'.nodes[c].finished == |s'.heard[c]| + (if s'.rounds[c] == 0 then 0 else 1)
    {
      EventKeepsFinished(s, e, c);
    }
    LengthsStay(s, e);
  }

  lemma LengthsStay(s: State, e: Event)
    requires Can(s, e)
    ensures var z := Apply(s, e); |z.nodes| == |z.rounds| == |z.heard| == |s.nodes|
  {
  }

  lemma {:induction false} FinishedCountsReplies(run: seq<State>, n: nat, i: nat)
    requires IsRun(run, n) && i < |run|
    ensures FinishedOk(run[i])
  {
    if i > 0 {
      FinishedCountsReplies(run, n, i - 1);
      assert Next(run[i - 1], run[i]);
      NextKeepsFinished(run[i - 1], run[i]);
    }
  }

  // ---------- requests ----------

  // The answer to an AppendEntries request. One of an older term changes nothing. A current one makes the replica
  // a follower of its term, and is accepted exactly when the replica's log begins with the leader's entries up
  // to prevLogIndex and has not dropped more than those; then the log becomes the leader's.
  lemma {:induction false} RequestIsAnswered(run: seq<State>, n: nat, i: nat, am: AppendMsg)
    returns (resp: AppendResponse)
    requires IsRun(run, n) && i < |run| && Can(run[i], HandleAppend(am))
    ensures 0 <= am.req.prevLogIndex <= |am.full|
    ensures var s, z := run[i], Apply(run[i], HandleAppend(am));
            var nd, lc := s.nodes[am.to], am.req.leaderCommit;
            && z.appendReps == s.appendReps + {(am, resp)} && resp.term == nd.curTerm
            && (am.req.term < nd.curTerm ==> z.nodes == s.nodes && resp == AppendResponse(nd.curTerm, false, -1, -1))
            && (am.req.term >= nd.curTerm ==>
              && (resp.success <==>
                   Dropped(s, am.to) <= am.req.prevLogIndex && am.full[..am.req.prevLogIndex] <= nd.logs)
              && z.nodes == s.nodes[am.to := nd.(
                   curTerm := am.req.term, role := Follower,
                   voteFor := if am.req.term > nd.curTerm then -1 else nd.voteFor,
                   logs := if resp.success then am.full else nd.logs,
                   commitIndex := if resp.success && nd.commitIndex < lc
                                  then (if lc <= |am.full| then lc else |am.full|) else nd.commitIndex)])
  {
    var s := run[i];
    RunKeepsInv(run, n, i);
    resp := ReplyAppendAt(s.nodes[am.to], Dropped(s, am.to), am.req).1;
    assert AppendOk(s, am) && NodeOk(s.nodes[am.to], |s.nodes|, s.termLog) && TermLogOk(s, am.req.term);
    MatchesPrefix(s.termLog[am.req.term], am.full, s.termLog);
    RequestChanges(s.nodes[am.to], Dropped(s, am.to), am.req, am.full, s.termLog);
  }

  lemma RequestChanges(nd: Node, k: nat, r: AppendRequest, full: Log, termLog: map<int, Log>)
    requires Full(nd) && k <= |nd.logs| && Matches(nd.logs, termLog) && Matches(full, termLog)
    requires 0 <= r.prevLogIndex <= |full| && r.entries == full[r.prevLogIndex..]
    requires r.prevLogTerm == LastTermOf(full[..r.prevLogIndex])
    ensures var (after, resp) := ReplyAppendAt(nd, k, r);
            var lc := r.leaderCommit;
            && resp.term == nd.curTerm
            && (r.term < nd.curTerm ==> after == nd && resp == AppendResponse(nd.curTerm, false, -1, -1))
            && (r.term >= nd.curTerm ==>
              && (resp.success <==> k <= r.prevLogIndex && full[..r.prevLogIndex] <= nd.logs)
              && after == nd.(
                   curTerm := r.term, role := Follower, voteFor := if r.term > nd.curTerm then -1 else nd.voteFor,
                   logs := if resp.success then full else nd.logs,
                   commitIndex := if resp.success && nd.commitIndex < lc
                                  then (if lc <= |full| then lc else |full|) else nd.commitIndex))
  {
    if r.term < nd.curTerm {
      StaleIsRefused(nd, k, r);
    } else {
      Compaction.ReplyAppendAtIs(nd, k, r);
      AcceptedIff(nd, r, full, termLog);
      if r.prevLogIndex >= k { CurrentChanges(nd, r, full); }
    }
  }

  lemma StaleIsRefused(nd: Node, k: nat, r: AppendRequest)
    requires k <= |nd.logs| && Full(nd) && r.term < nd.curTerm
    ensures ReplyAppendAt(nd, k, r) == (nd, AppendResponse(nd.curTerm, false, -1, -1))
  {
    assert nd.logs[..k] + nd.logs[k..] == nd.logs;
  }

  lemma CurrentChanges(nd: Node, r: AppendRequest, full: Log)
    requires Full(nd) && r.term >= nd.curTerm && (PrevMatches(nd, r) ==> Overwrite(nd, r).logs == full)
    ensures var (after, resp) := ReplyAppend(nd, r);
            var lc := r.leaderCommit;
            && (resp.success <==> PrevMatches(nd, r))
            && after == nd.(
                 curTerm := r.term, role := Follower, voteFor := if r.term > nd.curTerm then -1 else nd.voteFor,
                 logs := if resp.success then full else nd.logs,
                 commitIndex := if resp.success && nd.commitIndex < lc
                                then (if lc <= |full| then lc else |full|) else nd.commitIndex)
  {
  }

  // By log matching one term compared is as good as all the entries up to it.
  lemma AcceptedIff(nd: Node, r: AppendRequest, full: Log, termLog: map<int, Log>)
    requires Full(nd) && Matches(nd.logs, termLog) && Matches(full, termLog)
    requires 0 <= r.prevLogIndex <= |full| && r.entries == full[r.prevLogIndex..]
    requires r.prevLogTerm == LastTermOf(full[..r.prevLogIndex])
    ensures PrevMatches(nd, r) <==> full[..r.prevLogIndex] <= nd.logs
    ensures PrevMatches(nd, r) ==> Overwrite(nd, r).logs == full
  {
    var p := r.prevLogIndex;
    if p > 0 && p <= |nd.logs| {
      if nd.logs[p - 1].term == full[p - 1].term {
        SameTermSamePrefix(nd.logs, full, p - 1, termLog);
      } else {
        assert full[..p][p - 1] == full[p - 1];
      }
    }
    if PrevMatches(nd, r) { OverwriteCopies(nd, r, full, termLog); }
  }

  // ---------- replies ----------

  // A reply in another term changes nothing. In the term of its request, a higher term in the reply makes the
  // leader a follower of that term without a vote; any other reply moves only the two tables and the commit index.
  lemma {:induction false} ReplyIsTaken(run: seq<State>, n: nat, i: nat, am: AppendMsg, resp: AppendResponse)
    requires IsRun(run, n) && i < |run| && Can(run[i], TakeAppend(am, resp))
    ensures var s, z := run[i], Apply(run[i], TakeAppend(am, resp));
            var nd := s.nodes[am.from];
            var after := z.nodes[am.from];
            && (nd.curTerm != am.req.term ==> z.nodes == s.nodes)
            && (nd.curTerm == am.req.term < resp.term ==>
              z.nodes == s.nodes[am.from := nd.(role := Follower, curTerm := resp.term, voteFor := -1)])
            && (nd.curTerm == am.req.term >= resp.term ==>
              z.nodes == s.nodes[am.from := nd.(
                nextIndex := after.nextIndex, matchIndex := after.matchIndex, commitIndex := after.commitIndex)])
  {
    var s := run[i];
    RunKeepsInv(run, n, i);
    assert NodeOk(s.nodes[am.from], |s.nodes|, s.termLog);
    Compaction.OnAppendResponseAtIs(s.nodes[am.from], Dropped(s, am.from), am.from, am.to, am.req, resp);
    if s.nodes[am.from].curTerm == am.req.term >= resp.term {
      TakenKeepsRest(s.nodes[am.from], Dropped(s, am.from), am.from, am.to, am.req, resp);
    }
  }

  lemma TakenKeepsRest(f: Node, k: nat, l: nat, p: nat, r: AppendRequest, resp: AppendResponse)
    requires Full(f) && k <= |f.logs| && CanTakeResponse(Compressed(f, k), l, p, r, resp)
    requires f.curTerm == r.term >= resp.term
    ensures var g := OnAppendResponseAt(f, k, l, p, r, resp);
            g == f.(nextIndex := g.nextIndex, matchIndex := g.matchIndex, commitIndex := g.commitIndex)
  {
    assert f.logs[..k] + f.logs[k..] == f.logs;
  }

  // ---------- the disciplined cluster ----------

  // The request that an exchange carries was built by its leader at some earlier moment.
  lemma {:induction false} ExchangeWasBuilt(run: seq<System>, n: nat, j: nat, am: AppendMsg) returns (k: nat)
    requires IsSystemRun(run, n) && j < |run| && am in run[j].c.appends
    ensures k < j && am.from < |run[k].c.nodes| && Built(run[k].c.nodes[am.from], am)
  {
    var states := seq(|run|, i requires 0 <= i < |run| => run[i].c);
    forall i | 0 < i <= j
      ensures forall m :: m in states[i].appends && m !in states[i - 1].appends ==>
                m.from < |states[i - 1].nodes| && Built(states[i - 1].nodes[m.from], m)
    {
      SystemRunOk(run, n, i - 1);
      StepBuilds(run[i - 1], run[i]);
    }
    k := ChainBuilds(states, j, am);
  }

  lemma StepBuilds(s: System, s': System)
    requires NextSystem(s, s') && SysInv(s)
    ensures forall m :: m in s'.c.appends && m !in s.c.appends ==>
              m.from < |s.c.nodes| && Built(s.c.nodes[m.from], m)
  {
    var a :| CanAct(s, a) && s' == Do(s, a);
    DisciplineRefines(s, a);
    if s'.c != s.c { NextBuilds(s.c, s'.c); }
  }

  // Commit indexes travel: after an accepted request the follower's is the larger of its own and the one the
  // leader had when it built the request.
  lemma {:induction false} CommitTravels(run: seq<System>, n: nat, j: nat, l: nat, p: nat) returns (k: nat)
    requires IsSystemRun(run, n) && j < |run| && WellSized(run[j]) && CanAct(run[j], Deliver(l, p))
    requires var f := Do(run[j], Deliver(l, p)).flights[(l, p)]; f.reply.Some? && f.reply.value.success
    ensures k < j && l < |run[k].c.nodes| && run[k].c.nodes[l].role == Leader
    ensures p < |run[j].c.nodes| == |Do(run[j], Deliver(l, p)).c.nodes|
    ensures var own, before := run[j].c.nodes[p].commitIndex, run[k].c.nodes[l];
            var after := Do(run[j], Deliver(l, p)).c.nodes[p];
            && after.logs == before.logs && after.curTerm == before.curTerm
            && after.commitIndex == Max(own, before.commitIndex)
  {
    SystemRunOk(run, n, j);
    var am := run[j].flights[(l, p)].am;
    assert FlightOk(run[j], l, p);
    k := ExchangeWasBuilt(run, n, j, am);
    DeliveredCommit(run[j], Do(run[j], Deliver(l, p)), l, p);
  }

  lemma DeliveredCommit(s: System, z: System, l: nat, p: nat)
    requires WellSized(s) && Inv(s.c) && CanAct(s, Deliver(l, p)) && z == Do(s, Deliver(l, p)) && FlightOk(s, l, p)
    requires z.flights[(l, p)].reply.Some? && z.flights[(l, p)].reply.value.success
    ensures p < |s.c.nodes| == |z.c.nodes|
    ensures var am, nd, after := s.flights[(l, p)].am, s.c.nodes[p], z.c.nodes[p];
            after.logs == am.full && after.curTerm == am.req.term
            && after.commitIndex == Max(nd.commitIndex, am.req.leaderCommit)
  {
    var am := s.flights[(l, p)].am;
    var resp := DeliverEffect(s, z, l, p);
    assert AppendOk(s.c, am) && NodeOk(s.c.nodes[p], |s.c.nodes|, s.c.termLog) && TermLogOk(s.c, am.req.term);
    MatchesPrefix(s.c.termLog[am.req.term], am.full, s.c.termLog);
    RequestChanges(s.c.nodes[p], Dropped(s.c, p), am.req, am.full, s.c.termLog);
  }

  // A success taken in the leader's term: the peer's table entries are exactly what it was sent, the leader's own
  // is its whole log, and all others stand.
  lemma {:induction false} SuccessIsTaken(run: seq<System>, n: nat, j: nat, l: nat, p: nat)
    requires IsSystemRun(run, n) && j < |run| && WellSized(run[j]) && CanAct(run[j], Receive(l, p))
    requires var f := run[j].flights[(l, p)]; TakenAsSuccess(run[j].c.nodes[l], f.am, f.reply.value)
    ensures TakesExactly(run[j].c.nodes[l], Do(run[j], Receive(l, p)).c.nodes[l], l, p, run[j].flights[(l, p)].am.full)
  {
    SystemRunOk(run, n, j);
    SuccessTaken(run[j], Do(run[j], Receive(l, p)), l, p);
  }

  ghost predicate TakesExactly(nd: Node, after: Node, l: nat, p: nat, sent: Log) {
    && l < |nd.matchIndex| && p < |nd.matchIndex| == |nd.nextIndex|
    && after.matchIndex == nd.matchIndex[p := |sent|][l := |nd.logs|]
    && after.nextIndex == nd.nextIndex[p := |sent| + 1]
    && CommitsExactly(nd, after)
  }

  lemma SuccessTaken(s: System, z: System, l: nat, p: nat)
    requires SysInv(s) && CanAct(s, Receive(l, p)) && z == Do(s, Receive(l, p))
    requires TakenAsSuccess(s.c.nodes[l], s.flights[(l, p)].am, s.flights[(l, p)].reply.value)
    ensures l < |z.c.nodes| && TakesExactly(s.c.nodes[l], z.c.nodes[l], l, p, s.flights[(l, p)].am.full)
  {
    SenderFacts(s, l, p);
    ReceiveEffect(s, z, l, p);
    TakenExactly(s.c.nodes[l], Dropped(s.c, l), l, p, s.flights[(l, p)].am, s.flights[(l, p)].reply.value);
  }

  // What is known of a leader whose exchange is under way, and of its request.
  ghost predicate SenderOk(nd: Node, p: nat, am: AppendMsg) {
    && Full(nd) && Sorted(nd.logs) && TermsWithin(nd.logs, nd.curTerm) && nd.commitIndex <= |nd.logs|
    && p < |nd.nextIndex| && nd.nextIndex[p] == am.req.prevLogIndex + 1
    && 0 <= am.req.prevLogIndex <= |am.full| && am.req.entries == am.full[am.req.prevLogIndex..]
  }

  lemma SenderFacts(s: System, l: nat, p: nat)
    requires SysInv(s) && (l, p) in s.flights && l < |s.c.nodes|
    requires s.c.nodes[l].curTerm == s.flights[(l, p)].am.req.term
    ensures FlightOk(s, l, p) && l != p && SenderOk(s.c.nodes[l], p, s.flights[(l, p)].am)
  {
    assert FlightOk(s, l, p);
    assert NodeOk(s.c.nodes[l], |s.c.nodes|, s.c.termLog) && NodeCommitOk(s, l) && AppendOk(s.c, s.flights[(l, p)].am);
    LeadsItsTerm(s, l, p);
  }

  // Of the leader's own term, exactly what was committed or n - n/2 servers are listed for is now committed.
  ghost predicate CommitsExactly(nd: Node, after: Node) {
    && nd.commitIndex <= after.commitIndex <= |nd.logs|
    && forall x :: 1 <= x <= |nd.logs| && nd.logs[x - 1].term == nd.curTerm ==>
         (x <= after.commitIndex
          <==> x <= nd.commitIndex
               || |Quorum.AtLeast(after.matchIndex, x)| >= |after.matchIndex| - |after.matchIndex| / 2)
  }

  lemma TakenExactly(nd: Node, k: nat, l: nat, p: nat, am: AppendMsg, resp: AppendResponse)
    requires SenderOk(nd, p, am) && k <= |nd.logs| && l != p
    requires CanTakeResponse(Compressed(nd, k), l, p, am.req, resp)
    requires nd.curTerm == am.req.term >= resp.term && resp.success
    ensures TakesExactly(nd, OnAppendResponseAt(nd, k, l, p, am.req, resp), l, p, am.full)
  {
    Compaction.OnAppendResponseAtIs(nd, k, l, p, am.req, resp);
    CommitIsExact(nd, MatchAfterAppend(nd, l, p, |am.req.entries|));
  }

  lemma CommitIsExact(nd: Node, matches: seq<int>)
    requires Full(nd) && Sorted(nd.logs) && TermsWithin(nd.logs, nd.curTerm)
    requires nd.commitIndex <= |nd.logs| && CanAdvanceCommit(nd, matches)
    ensures CommitsExactly(nd, nd.(matchIndex := matches, commitIndex := CommitAfter(nd, matches)))
  {
    var top, after := Quorum.MajorityIndex(matches), CommitAfter(nd, matches);
    forall x | 1 <= x <= |nd.logs| && nd.logs[x - 1].term == nd.curTerm
      ensures x <= after <==>
                x <= nd.commitIndex || |Quorum.AtLeast(matches, x)| >= |matches| - |matches| / 2
    {
      Quorum.MajorityIndexIsExact(matches, x);
      if x <= top { assert nd.logs[x - 1].term <= nd.logs[top - 1].term; }
    }
  }

  // Handing up catches up: everything committed and nothing else has then been handed up, in order.
  lemma {:induction false} HandsUpAll(run: seq<System>, n: nat, j: nat, p: nat)
    requires IsSystemRun(run, n) && j < |run| && WellSized(run[j]) && CanAct(run[j], Hand(p))
    ensures var s, z := run[j], Do(run[j], Hand(p));
            && 0 <= s.c.nodes[p].commitIndex <= |s.c.nodes[p].logs|
            && z.c.nodes == s.c.nodes[p := s.c.nodes[p].(lastApplied := s.c.nodes[p].commitIndex)]
            && z.handed == s.handed[p := Exchanges.Entries(s.c.nodes[p].logs, s.c.nodes[p].commitIndex)]
  {
    SystemRunOk(run, n, j);
    HandsUpRest(run[j], Do(run[j], Hand(p)), p);
  }

  lemma HandsUpRest(s: System, z: System, p: nat)
    requires SysInv(s) && CanAct(s, Hand(p)) && z == Do(s, Hand(p))
    ensures 0 <= s.c.nodes[p].commitIndex <= |s.c.nodes[p].logs|
    ensures z.c.nodes == s.c.nodes[p := s.c.nodes[p].(lastApplied := s.c.nodes[p].commitIndex)]
    ensures z.handed == s.handed[p := Exchanges.Entries(s.c.nodes[p].logs, s.c.nodes[p].commitIndex)]
  {
    assert NodeCommitOk(s, p) && NodeOk(s.c.nodes[p], |s.c.nodes|, s.c.termLog);
    HandEffect(s, z, p);
    EntriesExtend(s.c.nodes[p]);
  }

  lemma HandEffect(s: System, z: System, p: nat)
    requires WellSized(s) && CanAct(s, Hand(p)) && z == Do(s, Hand(p))
    ensures p < |s.c.nodes| && CanApply(s.c.nodes[p])
    ensures z.c.nodes == s.c.nodes[p := AfterApply(s.c.nodes[p])]
    ensures z.handed == s.handed[p := s.handed[p] + Handed(s.c.nodes[p])]
  {
  }

  // What `Start` answers: yes exactly on the replica that leads, with its term and the index before the one at
  // which the command is now stored; otherwise no, and nothing changes.
  lemma {:induction false} StartAnswers(run: seq<System>, n: nat, j: nat, p: nat, cmd: string) returns (ret: StartRet)
    requires IsSystemRun(run, n) && j < |run| && WellSized(run[j]) && CanAct(run[j], Submit(p, cmd))
    ensures DroppedOk(run[j].c) && ret == Start(CompactingCluster.Real(run[j].c, p), cmd).1
    ensures var s, z := run[j], Do(run[j], Submit(p, cmd));
            && (ret.isLeader <==> s.c.nodes[p].role == Leader)
            && (!ret.isLeader ==> z == s && ret == StartRet(-1, -1, false))
            && (ret.isLeader ==>
              && ret.curTerm in s.c.elect && s.c.elect[ret.curTerm].leader == p
              && ret.curTerm == s.c.nodes[p].curTerm && ret.cmdIndex == |s.c.nodes[p].logs|
              && z.c.nodes == s.c.nodes[p := s.c.nodes[p].(logs := s.c.nodes[p].logs + [LogEntry(cmd, ret.curTerm)])]
              && z.started == s.started[(ret.curTerm, ret.cmdIndex) := cmd])
  {
    SystemRunOk(run, n, j);
    var c := run[j].c;
    assert RoleOk(c, p) && NodeOk(c.nodes[p], |c.nodes|, c.termLog);
    Compaction.StartCommutes(c.nodes[p], Dropped(c, p), cmd);
    ret := Start(CompactingCluster.Real(c, p), cmd).1;
    assert c.nodes == c.nodes[p := c.nodes[p]];
  }
}
