/** Every event keeps the invariant of the asynchronous cluster, and what follows for whole runs: one leader a
    term, one vote a replica and term, logs that match, followers that copy. */
module ClusterProof {
  import opened RaftTypes
  import opened RaftSteps
  import opened Cluster
  import Compaction
  import Quorum

  // The logs of replicas and leaders after a step.
  ghost predicate LogsInv(s: State) { Shape(s) && TermLogsOk(s) && AppendsOk(s) }

  ghost predicate VotesInv(s: State) { VotesOk(s) && RolesOk(s) && ElectionsOk(s) }

  ghost predicate TrafficInv(s: State)
  { |s.nodes| == |s.heard| == |s.rounds| && VoteTrafficOk(s) && AllHeardOk(s) }

  // Replica c became nd and nothing else that the log invariants speak of changed.
  ghost predicate OnlyNode(s: State, s': State, c: nat, nd: Node) {
    && c < |s.nodes| == |s'.nodes| && s'.nodes == s.nodes[c := nd]
    && s'.termLog == s.termLog && s'.elect == s.elect
  }

  predicate SameLog(a: Node, b: Node) {
    && b.logs == a.logs && b.lastIncludedIndex == a.lastIncludedIndex && b.lastIncludeTerm == a.lastIncludeTerm
    && |b.nextIndex| == |a.nextIndex| && |b.matchIndex| == |a.matchIndex| && b.curTerm >= a.curTerm
  }

  lemma SameLogKeepsLogs(s: State, s': State, c: nat, nd: Node)
    requires LogsInv(s) && OnlyNode(s, s', c, nd) && SameLog(s.nodes[c], nd)
    requires s'.appends == s.appends && |s'.rounds| == |s'.heard| == |s'.nodes|
    requires forall x :: x in s'.appendReps ==> x.0 in s.appends
    ensures LogsInv(s')
  {
    forall m | m in s'.appends ensures AppendOk(s', m) { assert AppendOk(s, m); }
    forall t | t in s'.elect ensures TermLogOk(s', t) { assert TermLogOk(s, t); }
  }

  predicate RoleStep(c: nat, a: Node, b: Node) {
    || (b.curTerm == a.curTerm && b.voteFor == a.voteFor && b.role == a.role)
    || (b.curTerm == a.curTerm && b.voteFor == a.voteFor && b.role == Follower && a.role != Leader)
    || (b.curTerm == a.curTerm && b.voteFor == c && b.role == Candidate && a.role != Leader)
    || (b.curTerm > a.curTerm && b.role == Follower)
  }

  lemma RoleStepKeepsVotes(s: State, s': State, c: nat, nd: Node)
    requires VotesInv(s) && OnlyNode(s, s', c, nd) && RoleStep(c, s.nodes[c], nd)
    requires nd.role == Leader ==> nd.logs == s.nodes[c].logs
    requires s'.votes == s.votes
    ensures VotesInv(s')
  {
    forall v, t | (v, t) in s'.votes ensures VoteOk(s', v, t) { assert VoteOk(s, v, t); }
    forall d: nat | d < |s'.nodes| ensures RoleOk(s', d) { assert RoleOk(s, d); }
    forall t | t in s'.elect ensures ElectionOk(s', t) { assert ElectionOk(s, t); }
    forall t, v | t in s'.elect && v in s'.elect[t].ballots ensures BallotOk(s', t, v) { assert BallotOk(s, t, v); }
  }

  // Candidates keep their term and log while they are in a round.
  predicate RoundStep(a: Node, b: Node) {
    b.role == Candidate ==>
      && a.role == Candidate && b.curTerm == a.curTerm && b.votes == a.votes && b.logs == a.logs
      && b.lastIncludedIndex == a.lastIncludedIndex && b.lastIncludeTerm == a.lastIncludeTerm
  }

  lemma RoundStepKeepsTraffic(s: State, s': State, c: nat, nd: Node)
    requires TrafficInv(s) && OnlyNode(s, s', c, nd) && RoundStep(s.nodes[c], nd)
    requires s'.votes == s.votes && s'.rounds == s.rounds && s'.heard == s.heard
    requires s'.voteReqs == s.voteReqs && s'.voteReps == s.voteReps
    ensures TrafficInv(s')
  {
    forall m | m in s'.voteReqs ensures VoteMsgOk(s', m) { assert VoteMsgOk(s, m); }
    forall r | r in s'.voteReps ensures VoteReplyOk(s', r) { assert VoteReplyOk(s, r); }
    forall d: nat | d < |s'.nodes| ensures HeardOk(s', d) { assert HeardOk(s, d); }
  }

  // ---------- each event ----------

  lemma KeepTimeout(s: State, c: nat)
    requires Inv(s) && Enabled(s, Timeout(c))
    ensures Inv(Apply(s, Timeout(c)))
  {
    var s' := Apply(s, Timeout(c));
    var nd := BeginElection(s.nodes[c], c);
    SameLogKeepsLogs(s, s', c, nd);
    RoleStepKeepsVotes(s, s', c, nd);
    forall m | m in s'.voteReqs ensures VoteMsgOk(s', m) { assert VoteMsgOk(s, m); }
    forall r | r in s'.voteReps ensures VoteReplyOk(s', r) { assert VoteReplyOk(s, r); }
    forall d: nat | d < |s'.nodes| ensures HeardOk(s', d) {
      assert HeardOk(s, d);
      if d == c { assert Granted(s'.heard[c]) == map[]; }
    }
  }

  lemma KeepCallVote(s: State, c: nat)
    requires Inv(s) && Enabled(s, CallVote(c))
    ensures Inv(Apply(s, CallVote(c)))
  {
    var s' := Apply(s, CallVote(c));
    SameLogKeepsLogs(s, s', c, s.nodes[c]);
    RoleStepKeepsVotes(s, s', c, s.nodes[c]);
    forall m | m in s'.voteReqs ensures VoteMsgOk(s', m) { if m in s.voteReqs { assert VoteMsgOk(s, m); } }
    forall r | r in s'.voteReps ensures VoteReplyOk(s', r) { assert VoteReplyOk(s, r); }
    forall d: nat | d < |s'.nodes| ensures HeardOk(s', d) { assert HeardOk(s, d); }
  }

  lemma KeepTakeVote(s: State, r: VoteReply)
    requires Inv(s) && Enabled(s, TakeVote(r))
    ensures Inv(Apply(s, TakeVote(r)))
  {
    var s' := Apply(s, TakeVote(r));
    var c := r.msg.req.candidateId;
    var nd := OnVoteResponse(s.nodes[c], r.resp);
    SameLogKeepsLogs(s, s', c, nd);
    RoleStepKeepsVotes(s, s', c, nd);
    TakeVoteKeepsTraffic(s, s', r);
  }

  lemma TakeVoteKeepsTraffic(s: State, s': State, r: VoteReply)
    requires TrafficInv(s) && r in s.voteReps && r.msg.req.candidateId < |s.nodes|
    requires r.msg.round == s.rounds[r.msg.req.candidateId] && r.voter !in s.heard[r.msg.req.candidateId]
    requires s' == Apply(s, TakeVote(r))
    ensures TrafficInv(s')
  {
    var c := r.msg.req.candidateId;
    forall m | m in s'.voteReqs ensures VoteMsgOk(s', m) { assert VoteMsgOk(s, m); }
    forall q | q in s'.voteReps ensures VoteReplyOk(s', q) { assert VoteReplyOk(s, q); }
    forall d: nat | d < |s'.nodes| ensures HeardOk(s', d) {
      assert HeardOk(s, d);
      if d == c { GrantedAfter(s.heard[c], r); }
    }
  }

  lemma GrantedAfter(h: map<nat, VoteReply>, r: VoteReply)
    requires r.voter !in h
    ensures |Granted(h[r.voter := r])| == |Granted(h)| + if r.resp.isAccepted then 1 else 0
  {
    if r.resp.isAccepted {
      assert Granted(h[r.voter := r]) == Granted(h)[r.voter := r.voterLog];
    } else {
      assert Granted(h[r.voter := r]) == Granted(h);
    }
  }

  lemma KeepTakeAppend(s: State, m: AppendMsg, resp: AppendResponse)
    requires Inv(s) && Enabled(s, TakeAppend(m, resp))
    ensures Inv(Apply(s, TakeAppend(m, resp)))
  {
    var s' := Apply(s, TakeAppend(m, resp));
    var nd := s'.nodes[m.from];
    assert NodeOk(s.nodes[m.from], |s.nodes|, s.termLog);
    TakenStep(m.from, s.nodes[m.from], Dropped(s, m.from), m.to, m.req, resp);
    SameLogKeepsLogs(s, s', m.from, nd);
    RoleStepKeepsVotes(s, s', m.from, nd);
    RoundStepKeepsTraffic(s, s', m.from, nd);
  }

  lemma TakenStep(l: nat, f: Node, k: nat, p: nat, r: AppendRequest, resp: AppendResponse)
    requires Full(f) && k <= |f.logs| && CanTakeResponse(Compressed(f, k), l, p, r, resp)
    ensures var nd := OnAppendResponseAt(f, k, l, p, r, resp);
            SameLog(f, nd) && RoleStep(l, f, nd) && RoundStep(f, nd) && nd.lastApplied == f.lastApplied
  {
    assert f.logs[..k] + f.logs[k..] == f.logs;
  }

  lemma KeepHandUp(s: State, c: nat)
    requires Inv(s) && Enabled(s, HandUp(c))
    ensures Inv(Apply(s, HandUp(c)))
  {
    var s' := Apply(s, HandUp(c));
    var nd := AfterApply(s.nodes[c]);
    SameLogKeepsLogs(s, s', c, nd);
    RoleStepKeepsVotes(s, s', c, nd);
    RoundStepKeepsTraffic(s, s', c, nd);
  }

  lemma KeepSnap(s: State, c: nat, i: nat)
    requires Inv(s) && Enabled(s, Snap(c, i))
    ensures Inv(Apply(s, Snap(c, i)))
  {
    var s' := Apply(s, Snap(c, i));
    SameLogKeepsLogs(s, s', c, s.nodes[c]);
    RoleStepKeepsVotes(s, s', c, s.nodes[c]);
    RoundStepKeepsTraffic(s, s', c, s.nodes[c]);
  }

  lemma KeepSendAppend(s: State, c: nat, p: nat)
    requires Inv(s) && Enabled(s, SendAppend(c, p))
    ensures Inv(Apply(s, SendAppend(c, p)))
  {
    var s' := Apply(s, SendAppend(c, p));
    RoleStepKeepsVotes(s, s', c, s.nodes[c]);
    RoundStepKeepsTraffic(s, s', c, s.nodes[c]);
    SentIsOk(s, c, p);
    forall m | m in s'.appends ensures AppendOk(s', m) {
      if m in s.appends { assert AppendOk(s, m); }
    }
    forall t | t in s'.elect ensures TermLogOk(s', t) { assert TermLogOk(s, t); }
  }

  // A request carries the leader's log from prevLogIndex on, and the term before it.
  lemma SentIsOk(s: State, c: nat, p: nat)
    requires Shape(s) && RolesOk(s) && ElectionsOk(s) && TermLogsOk(s)
    requires p < |s.nodes| && c < |s.nodes| && c != p && s.nodes[c].role == Leader && CanBuildAppend(s.nodes[c], p)
    ensures AppendOk(s, AppendMsg(c, p, BuildAppend(s.nodes[c], c, p), s.nodes[c].logs))
  {
    assert RoleOk(s, c) && ElectionOk(s, s.nodes[c].curTerm) && TermLogOk(s, s.nodes[c].curTerm);
  }

  // A vote: the reply is granted only to the candidate the replica may vote for.
  lemma KeepHandleVote(s: State, v: nat, m: VoteMsg)
    requires Inv(s) && Enabled(s, HandleVote(v, m))
    ensures Inv(Apply(s, HandleVote(v, m)))
  {
    var s' := Apply(s, HandleVote(v, m));
    var (nd, resp) := ReplyVoteAt(s.nodes[v], Dropped(s, v), m.req);
    SameLogKeepsLogs(s, s', v, nd);
    assert VoteMsgOk(s, m);
    if resp.isAccepted {
      GrantKeepsVotes(s, s', v, m, nd);
    } else {
      RoleStepKeepsVotes(s, s', v, nd);
    }
    HandleVoteKeepsTraffic(s, s', v, m);
  }

  lemma GrantKeepsVotes(s: State, s': State, v: nat, m: VoteMsg, nd: Node)
    requires VotesInv(s) && OnlyNode(s, s', v, nd) && m.req.candidateId != v && m.req.candidateId < |s.nodes|
    requires Dropped(s, v) <= |s.nodes[v].logs| && ReplyVoteAt(s.nodes[v], Dropped(s, v), m.req).1.isAccepted
    requires nd == ReplyVoteAt(s.nodes[v], Dropped(s, v), m.req).0
    requires s'.votes == s.votes[(v, m.req.term) := m.req.candidateId]
    ensures VotesInv(s')
    ensures (v, m.req.term) in s.votes ==> s.votes[(v, m.req.term)] == m.req.candidateId
  {
    if (v, m.req.term) in s.votes {
      assert VoteOk(s, v, m.req.term);
    }
    assert forall k :: k in s.votes ==> k in s'.votes && s'.votes[k] == s.votes[k];
    forall u, t | (u, t) in s'.votes ensures VoteOk(s', u, t) {
      if (u, t) in s.votes { assert VoteOk(s, u, t); }
    }
    forall d: nat | d < |s'.nodes| ensures RoleOk(s', d) { assert RoleOk(s, d); }
    forall t | t in s'.elect ensures ElectionOk(s', t) { assert ElectionOk(s, t); }
    forall t, u | t in s'.elect && u in s'.elect[t].ballots ensures BallotOk(s', t, u) { assert BallotOk(s, t, u); }
  }

  // What handling a vote request does to the voter and the record of votes.
  ghost predicate Voted(s: State, s': State, v: nat, m: VoteMsg) {
    && v < |s.nodes| == |s.heard| == |s.rounds| && m in s.voteReqs && m.req.candidateId != v
    && Dropped(s, v) <= |s.nodes[v].logs|
    && (var (nd, resp) := ReplyVoteAt(s.nodes[v], Dropped(s, v), m.req);
        && s'.nodes == s.nodes[v := nd]
        && s'.voteReps == s.voteReps + {VoteReply(m, v, resp, s.nodes[v].logs)}
        && s'.votes == (if resp.isAccepted then s.votes[(v, m.req.term) := m.req.candidateId] else s.votes))
    && s'.voteReqs == s.voteReqs && s'.rounds == s.rounds && s'.heard == s.heard && s'.termLog == s.termLog
  }

  lemma HandleVoteKeepsTraffic(s: State, s': State, v: nat, m: VoteMsg)
    requires Shape(s) && VotesOk(s) && TrafficInv(s) && Voted(s, s', v, m)
    ensures TrafficInv(s')
  {
    forall x | x in s'.voteReqs ensures VoteMsgOk(s', x) { assert VoteMsgOk(s, x); }
    forall r | r in s'.voteReps ensures VoteReplyOk(s', r) {
      if r in s.voteReps { OldReplyOk(s, s', v, m, r); } else { NewReplyOk(s, s', v, m, r); }
    }
    forall d: nat | d < |s'.nodes| ensures HeardOk(s', d) { assert HeardOk(s, d); }
  }

  lemma OldReplyOk(s: State, s': State, v: nat, m: VoteMsg, r: VoteReply)
    requires VotesOk(s) && Voted(s, s', v, m) && r in s.voteReps && VoteReplyOk(s, r)
    ensures VoteReplyOk(s', r)
  {
    if r.resp.isAccepted && r.voter == v && r.msg.req.term == m.req.term { assert VoteOk(s, v, m.req.term); }
  }

  lemma NewReplyOk(s: State, s': State, v: nat, m: VoteMsg, r: VoteReply)
    requires Shape(s) && TrafficInv(s) && Voted(s, s', v, m) && r in s'.voteReps && r !in s.voteReps
    ensures VoteReplyOk(s', r)
  {
    assert VoteMsgOk(s, m) && NodeOk(s.nodes[v], |s.nodes|, s.termLog);
  }

  // ---------- logs that grow ----------

  // Every leader's log is kept as a prefix, so what agreed with it still does.
  ghost predicate Grows(a: map<int, Log>, b: map<int, Log>) {
    forall t :: t in a ==> t in b && a[t] <= b[t]
  }

  lemma MatchesGrows(log: Log, a: map<int, Log>, b: map<int, Log>)
    requires Matches(log, a) && Grows(a, b)
    ensures Matches(log, b)
  {
    forall i: nat | i < |log| ensures AgreesAt(log, i, b) {
      assert AgreesAt(log, i, a);
      var t := log[i].term;
      assert b[t][..i + 1] == a[t][..i + 1];
    }
  }

  lemma MatchesPrefix(log: Log, pre: Log, termLog: map<int, Log>)
    requires Matches(log, termLog) && pre <= log
    ensures Matches(pre, termLog)
  {
    forall i: nat | i < |pre| ensures AgreesAt(pre, i, termLog) {
      assert AgreesAt(log, i, termLog);
      assert pre[..i + 1] == log[..i + 1];
    }
  }

  lemma LogOkPrefix(log: Log, pre: Log, t: int, termLog: map<int, Log>)
    requires LogOk(log, t, termLog) && pre <= log
    ensures LogOk(pre, t, termLog)
  {
    MatchesPrefix(log, pre, termLog);
    forall i | 0 <= i < |pre| ensures pre[i] == log[i] {}
  }

  // Log matching: the same term at the same index means the same log up to it.
  lemma {:induction false} SameTermSamePrefix(a: Log, b: Log, i: nat, termLog: map<int, Log>)
    requires Matches(a, termLog) && Matches(b, termLog)
    requires i < |a| && i < |b| && a[i].term == b[i].term
    ensures a[..i + 1] == b[..i + 1]
  {
    assert AgreesAt(a, i, termLog) && AgreesAt(b, i, termLog);
  }

  // A follower that accepts a request ends with the leader's whole log of the moment it was built.
  lemma AcceptedLogIsFullCopy(s: State, am: AppendMsg)
    requires Inv(s) && Enabled(s, HandleAppend(am))
    requires ReplyAppendAt(s.nodes[am.to], Dropped(s, am.to), am.req).1.success
    ensures ReplyAppendAt(s.nodes[am.to], Dropped(s, am.to), am.req).0 == ReplyAppend(s.nodes[am.to], am.req).0
    ensures ReplyAppend(s.nodes[am.to], am.req).1.success && ReplyAppend(s.nodes[am.to], am.req).0.logs == am.full
  {
    assert NodeOk(s.nodes[am.to], |s.nodes|, s.termLog);
    Compaction.ReplyAppendAtIs(s.nodes[am.to], Dropped(s, am.to), am.req);
    AcceptedByWhole(s, am);
  }

  lemma AcceptedByWhole(s: State, am: AppendMsg)
    requires LogsInv(s) && am in s.appends && am.to < |s.nodes|
    requires ReplyAppend(s.nodes[am.to], am.req).1.success
    ensures ReplyAppend(s.nodes[am.to], am.req).0.logs == am.full
  {
    assert AppendOk(s, am) && NodeOk(s.nodes[am.to], |s.nodes|, s.termLog) && TermLogOk(s, am.req.term);
    MatchesPrefix(s.termLog[am.req.term], am.full, s.termLog);
    OverwriteCopies(s.nodes[am.to], am.req, am.full, s.termLog);
  }

  lemma OverwriteCopies(nd: Node, r: AppendRequest, full: Log, termLog: map<int, Log>)
    requires nd.lastIncludedIndex == 0 && nd.lastIncludeTerm == 0
    requires Matches(nd.logs, termLog) && Matches(full, termLog)
    requires 0 <= r.prevLogIndex <= |full| && r.entries == full[r.prevLogIndex..]
    requires r.prevLogTerm == LastTermOf(full[..r.prevLogIndex])
    requires PrevMatches(nd, r)
    ensures Overwrite(nd, r).logs == full
  {
    var p := r.prevLogIndex;
    if p > 0 { SameTermSamePrefix(nd.logs, full, p - 1, termLog); }
    assert nd.logs[..p] == full[..p];
    assert full == full[..p] + full[p..];
  }

  lemma KeepHandleAppend(s: State, am: AppendMsg)
    requires Inv(s) && Enabled(s, HandleAppend(am))
    ensures Inv(Apply(s, HandleAppend(am)))
  {
    var s' := Apply(s, HandleAppend(am));
    var nd := s'.nodes[am.to];
    assert AppendOk(s, am) && NodeOk(s.nodes[am.to], |s.nodes|, s.termLog);
    NotItsOwnLeader(s, am);
    RepliedStep(am.to, s.nodes[am.to], Dropped(s, am.to), am.req);
    RoleStepKeepsVotes(s, s', am.to, nd);
    RoundStepKeepsTraffic(s, s', am.to, nd);
    HandleAppendKeepsLogs(s, am, s');
  }

  lemma RepliedStep(c: nat, f: Node, k: nat, r: AppendRequest)
    requires Full(f) && k <= |f.logs| && (f.curTerm == r.term ==> f.role != Leader)
    ensures var (nd, resp) := ReplyAppendAt(f, k, r);
            && RoleStep(c, f, nd) && RoundStep(f, nd) && (nd == f || nd.role == Follower)
            && (!resp.success ==> SameLog(f, nd))
            && (resp.success ==> f.curTerm <= r.term == nd.curTerm)
            && nd.lastApplied == f.lastApplied
  {
    Compaction.ReplyAppendAtIs(f, k, r);
  }

  lemma HandleAppendKeepsLogs(s: State, am: AppendMsg, s': State)
    requires Inv(s) && Enabled(s, HandleAppend(am)) && s' == Apply(s, HandleAppend(am))
    ensures LogsInv(s')
  {
    var (nd, resp) := ReplyAppendAt(s.nodes[am.to], Dropped(s, am.to), am.req);
    assert AppendOk(s, am) && NodeOk(s.nodes[am.to], |s.nodes|, s.termLog);
    NotItsOwnLeader(s, am);
    RepliedStep(am.to, s.nodes[am.to], Dropped(s, am.to), am.req);
    if resp.success {
      AcceptedLogIsFullCopy(s, am);
      CopyKeepsLogs(s, s', am, nd);
    } else {
      SameLogKeepsLogs(s, s', am.to, nd);
    }
  }

  // The receiver of a request of term t does not lead term t.
  lemma NotItsOwnLeader(s: State, am: AppendMsg)
    requires RolesOk(s) && AppendOk(s, am)
    ensures s.nodes[am.to].curTerm == am.req.term ==> s.nodes[am.to].role != Leader
  {
    assert RoleOk(s, am.to);
  }

  lemma CopyKeepsLogs(s: State, s': State, am: AppendMsg, nd: Node)
    requires LogsInv(s) && AppendOk(s, am) && OnlyNode(s, s', am.to, nd)
    requires nd == ReplyAppend(s.nodes[am.to], am.req).0 && nd.logs == am.full && nd.curTerm == am.req.term
    requires s.nodes[am.to].curTerm <= am.req.term
    requires s'.appends == s.appends && |s'.rounds| == |s'.heard| == |s'.nodes|
    requires forall x :: x in s'.appendReps ==> x.0 in s.appends
    ensures LogsInv(s')
  {
    assert TermLogOk(s, am.req.term);
    LogOkPrefix(s.termLog[am.req.term], am.full, am.req.term, s.termLog);
    forall m | m in s'.appends ensures AppendOk(s', m) { assert AppendOk(s, m); }
    forall t | t in s'.elect ensures TermLogOk(s', t) { assert TermLogOk(s, t); }
  }

  lemma LogOkGrows(log: Log, t: int, a: map<int, Log>, b: map<int, Log>)
    requires LogOk(log, t, a) && Grows(a, b)
    ensures LogOk(log, t, b)
  {
    MatchesGrows(log, a, b);
  }

  // Replica c became nd, and the leader logs grew.
  ghost predicate GrowStep(s: State, s': State, c: nat, nd: Node) {
    && c < |s.nodes| == |s'.nodes| && s'.nodes == s.nodes[c := nd]
    && Grows(s.termLog, s'.termLog) && s'.rounds == s.rounds && s'.heard == s.heard
    && s'.voteReqs == s.voteReqs && s'.voteReps == s.voteReps
    && s'.appends == s.appends && s'.appendReps == s.appendReps
    && (forall t :: t in s.elect ==> t in s'.elect && s'.elect[t] == s.elect[t])
    && (forall k :: k in s.votes ==> k in s'.votes && s'.votes[k] == s.votes[k])
  }

  lemma GrowKeepsShape(s: State, s': State, c: nat, nd: Node)
    requires Shape(s) && AppendsOk(s) && GrowStep(s, s', c, nd) && nd.curTerm >= s.nodes[c].curTerm
    requires NodeOk(nd, |s.nodes|, s'.termLog)
    ensures Shape(s') && AppendsOk(s')
  {
    forall d | 0 <= d < |s'.nodes| ensures NodeOk(s'.nodes[d], |s'.nodes|, s'.termLog) {
      if d != c {
        assert NodeOk(s.nodes[d], |s.nodes|, s.termLog);
        LogOkGrows(s.nodes[d].logs, s.nodes[d].curTerm, s.termLog, s'.termLog);
      }
    }
    forall m | m in s'.appends ensures AppendOk(s', m) { assert AppendOk(s, m); }
  }

  lemma GrowKeepsTraffic(s: State, s': State, c: nat, nd: Node)
    requires TrafficInv(s) && GrowStep(s, s', c, nd) && nd.role != Candidate
    ensures TrafficInv(s')
  {
    forall m | m in s'.voteReqs ensures VoteMsgOk(s', m) { assert VoteMsgOk(s, m); }
    forall r | r in s'.voteReps ensures VoteReplyOk(s', r) {
      assert VoteReplyOk(s, r);
      if r.resp.isAccepted { LogOkGrows(r.voterLog, r.msg.req.term, s.termLog, s'.termLog); }
    }
    forall d: nat | d < |s'.nodes| ensures HeardOk(s', d) { assert HeardOk(s, d); }
  }

  // A term log other than the grown one, and the ballots of every old term.
  lemma GrowKeepsTermLog(s: State, s': State, c: nat, nd: Node, t: int)
    requires TermLogsOk(s) && GrowStep(s, s', c, nd) && t in s.elect && s'.termLog[t] == s.termLog[t]
    ensures TermLogOk(s', t)
  {
    assert TermLogOk(s, t);
    LogOkGrows(s.termLog[t], t, s.termLog, s'.termLog);
  }

  lemma GrowKeepsBallots(s: State, s': State, c: nat, nd: Node, t: int)
    requires ElectionsOk(s) && GrowStep(s, s', c, nd) && t in s.elect
    ensures forall v :: v in s'.elect[t].ballots ==> BallotOk(s', t, v)
  {
    forall v | v in s'.elect[t].ballots ensures BallotOk(s', t, v) {
      assert BallotOk(s, t, v);
      LogOkGrows(s.elect[t].ballots[v], t - 1, s.termLog, s'.termLog);
    }
  }

  // A leader appends: its log and the log of its term stay the same sequence.
  lemma KeepStartCmd(s: State, c: nat, cmd: string)
    requires Inv(s) && Enabled(s, StartCmd(c, cmd))
    ensures Inv(Apply(s, StartCmd(c, cmd)))
  {
    var s' := Apply(s, StartCmd(c, cmd));
    if s.nodes[c].role == Leader {
      var nd := Start(s.nodes[c], cmd).0;
      StartGrows(s, s', c, cmd);
      GrowKeepsShape(s, s', c, nd);
      GrowKeepsTraffic(s, s', c, nd);
      StartKeepsVotes(s, s', c, nd);
      StartTermLogsOk(s, s', c, nd);
    } else {
      assert s'.nodes == s.nodes;
      assert s' == s;
    }
  }

  lemma StartGrows(s: State, s': State, c: nat, cmd: string)
    requires Shape(s) && RolesOk(s) && ElectionsOk(s) && TermLogsOk(s)
    requires c < |s.nodes| && s.nodes[c].role == Leader && s' == Apply(s, StartCmd(c, cmd))
    ensures GrowStep(s, s', c, Start(s.nodes[c], cmd).0)
    ensures NodeOk(Start(s.nodes[c], cmd).0, |s.nodes|, s'.termLog)
  {
    var t := s.nodes[c].curTerm;
    assert RoleOk(s, c) && TermLogOk(s, t) && ElectionOk(s, t) && NodeOk(s.nodes[c], |s.nodes|, s.termLog);
    AppendedLogOk(s.nodes[c].logs, LogEntry(cmd, t), t, s.termLog);
  }

  lemma StartTermLogsOk(s: State, s': State, c: nat, nd: Node)
    requires RolesOk(s) && TermLogsOk(s) && GrowStep(s, s', c, nd) && s'.elect == s.elect
    requires s.nodes[c].role == Leader && nd.curTerm == s.nodes[c].curTerm
    requires s.nodes[c].logs <= nd.logs && LogOk(nd.logs, nd.curTerm, s'.termLog)
    requires forall i :: |s.nodes[c].logs| <= i < |nd.logs| ==> nd.logs[i].term == nd.curTerm
    requires s'.termLog == s.termLog[nd.curTerm := nd.logs]
    ensures TermLogsOk(s')
  {
    assert RoleOk(s, c);
    forall u | u in s'.elect ensures TermLogOk(s', u) {
      assert TermLogOk(s, u);
      if u != nd.curTerm { GrowKeepsTermLog(s, s', c, nd, u); }
    }
  }

  lemma AppendedLogOk(log: Log, e: LogEntry, t: int, termLog: map<int, Log>)
    requires LogOk(log, t, termLog) && t in termLog && termLog[t] == log && e.term == t && t >= 1
    ensures Grows(termLog, termLog[t := log + [e]])
    ensures LogOk(log + [e], t, termLog[t := log + [e]])
  {
    var b := termLog[t := log + [e]];
    MatchesGrows(log, termLog, b);
    forall i: nat | i < |log + [e]| ensures AgreesAt(log + [e], i, b) {
      if i < |log| {
        assert AgreesAt(log, i, b);
        assert (log + [e])[..i + 1] == log[..i + 1];
      }
    }
  }

  lemma StartKeepsVotes(s: State, s': State, c: nat, nd: Node)
    requires VotesInv(s) && GrowStep(s, s', c, nd) && s'.elect == s.elect && s'.votes == s.votes
    requires s.nodes[c].role == Leader && nd == s.nodes[c].(logs := nd.logs)
    requires s'.termLog == s.termLog[nd.curTerm := nd.logs]
    ensures VotesInv(s')
  {
    assert RoleOk(s, c);
    forall v, t | (v, t) in s'.votes ensures VoteOk(s', v, t) { assert VoteOk(s, v, t); }
    forall d: nat | d < |s'.nodes| ensures RoleOk(s', d) { assert RoleOk(s, d); }
    forall t | t in s'.elect ensures ElectionOk(s', t) { assert ElectionOk(s, t); }
    forall t, v | t in s'.elect && v in s'.elect[t].ballots ensures BallotOk(s', t, v) {
      GrowKeepsBallots(s, s', c, nd, t);
    }
  }

  // ---------- winning an election ----------

  // The replicas that voted for c in its round: their replies and c itself.
  function Ballots(s: State, c: nat): map<nat, Log>
    requires c < |s.nodes| == |s.heard|
  {
    Granted(s.heard[c])[c := s.nodes[c].logs]
  }

  lemma BallotsCounted(s: State, c: nat)
    requires TrafficInv(s) && c < |s.nodes| && s.nodes[c].role == Candidate
    ensures |Ballots(s, c)| == s.nodes[c].votes
  {
    assert HeardOk(s, c);
    var g := Granted(s.heard[c]);
    forall v | v in g ensures v != c { assert VoteReplyOk(s, s.heard[c][v]); }
    OneMoreKey(g, c, s.nodes[c].logs);
  }

  lemma OneMoreKey(m: map<nat, Log>, c: nat, log: Log)
    requires c !in m
    ensures |m[c := log]| == |m| + 1
  {
    assert m[c := log].Keys == m.Keys + {c};
    assert |m[c := log]| == |m[c := log].Keys| && |m.Keys| == |m|;
  }

  // A counted ballot was given in this round, for the next term, to this log.
  lemma BallotIsForRound(s: State, c: nat, v: nat)
    requires Shape(s) && TrafficInv(s) && c < |s.nodes| && s.nodes[c].role == Candidate
    requires v in Granted(s.heard[c])
    ensures (v, s.nodes[c].curTerm + 1) in s.votes && s.votes[(v, s.nodes[c].curTerm + 1)] == c && v != c
    ensures LogOk(s.heard[c][v].voterLog, s.nodes[c].curTerm + 1, s.termLog)
  {
    assert HeardOk(s, c);
    var r := s.heard[c][v];
    assert VoteReplyOk(s, r) && VoteMsgOk(s, r.msg) && NodeOk(s.nodes[c], |s.nodes|, s.termLog);
  }

  // Election safety, the step: a candidate that wins is the first to lead its term.
  lemma {:induction false} WinnerIsFirst(s: State, c: nat)
    requires Inv(s) && c < |s.nodes| && WinsElection(s.nodes[c])
    ensures s.nodes[c].curTerm + 1 !in s.elect
  {
    var t := s.nodes[c].curTerm + 1;
    NoVoteYet(s, c);
    if t in s.elect {
      assert ElectionOk(s, t);
      BallotersInRange(s, c, t);
      var v := Quorum.QuorumsMeet(Ballots(s, c).Keys, s.elect[t].ballots.Keys, |s.nodes|);
      if v != c { BallotIsForRound(s, c, v); }
      assert false;
    }
  }

  // A candidate still at term T has no vote recorded for T+1.
  lemma NoVoteYet(s: State, c: nat)
    requires VotesOk(s) && c < |s.nodes|
    ensures (c, s.nodes[c].curTerm + 1) !in s.votes
  {
    assert (c, s.nodes[c].curTerm + 1) in s.votes ==> VoteOk(s, c, s.nodes[c].curTerm + 1);
  }

  lemma BallotersInRange(s: State, c: nat, t: int)
    requires Inv(s) && c < |s.nodes| && WinsElection(s.nodes[c]) && t in s.elect
    ensures forall v :: v in Ballots(s, c) ==> v < |s.nodes|
    ensures forall v :: v in s.elect[t].ballots ==> v < |s.nodes|
    ensures |Ballots(s, c)| > |s.nodes| / 2
  {
    BallotsCounted(s, c);
    assert HeardOk(s, c) && ElectionOk(s, t) && NodeOk(s.nodes[c], |s.nodes|, s.termLog);
    forall v | v in Ballots(s, c) ensures v < |s.nodes| {
      if v != c { assert VoteReplyOk(s, s.heard[c][v]); }
    }
    forall v | v in s.elect[t].ballots ensures v < |s.nodes| { assert VoteOk(s, v, t); }
  }

  // Entries of a term that nobody has won do not exist.
  lemma NoEntriesBeforeElection(log: Log, t: int, termLog: map<int, Log>)
    requires LogOk(log, t, termLog) && t !in termLog
    ensures LogOk(log, t - 1, termLog)
  {
    forall i | 0 <= i < |log| ensures log[i].term <= t - 1 { assert AgreesAt(log, i, termLog); }
  }

  lemma KeepFinish(s: State, c: nat)
    requires Inv(s) && Enabled(s, Finish(c))
    ensures Inv(Apply(s, Finish(c)))
  {
    WinnerIsFirst(s, c);
    WinTakesOver(s, c);
    KeepTakeOver(s, Apply(s, Finish(c)), c, FinishElection(s.nodes[c]));
  }

  // What winning does to the winner, the votes and the record of leaders.
  ghost predicate TookOver(s: State, s': State, c: nat, nd: Node) {
    && c < |s.nodes| == |s'.nodes| == |s.heard| && s'.nodes == s.nodes[c := nd] && WinsElection(s.nodes[c])
    && nd == FinishElection(s.nodes[c]) && nd.voteFor == c
    && nd.curTerm !in s.elect && s.termLog.Keys == s.elect.Keys
    && s'.votes == s.votes[(c, nd.curTerm) := c] && (c, nd.curTerm) !in s.votes
    && s'.elect == s.elect[nd.curTerm := Election(c, nd.logs, Ballots(s, c))]
    && s'.termLog == s.termLog[nd.curTerm := nd.logs]
    && s'.rounds == s.rounds && s'.heard == s.heard && s'.voteReqs == s.voteReqs && s'.voteReps == s.voteReps
    && s'.appends == s.appends && s'.appendReps == s.appendReps
  }

  lemma WinTakesOver(s: State, c: nat)
    requires |s.nodes| == |s.rounds| == |s.heard| && RolesOk(s) && VotesOk(s) && s.termLog.Keys == s.elect.Keys
    requires Enabled(s, Finish(c)) && s.nodes[c].curTerm + 1 !in s.elect
    ensures TookOver(s, Apply(s, Finish(c)), c, FinishElection(s.nodes[c]))
  {
    assert RoleOk(s, c);
    NoVoteYet(s, c);
  }

  lemma KeepTakeOver(s: State, s': State, c: nat, nd: Node)
    requires Inv(s) && TookOver(s, s', c, nd)
    ensures Inv(s')
  {
    WinGrows(s, s', c, nd);
    GrowKeepsShape(s, s', c, nd);
    GrowKeepsTraffic(s, s', c, nd);
    WinnerElectionOk(s, s', c, nd);
    WinKeepsVotes(s, s', c, nd);
    WinBallotsOk(s, s', c, nd);
    WinTermLogsOk(s, s', c, nd);
  }

  lemma WinGrows(s: State, s': State, c: nat, nd: Node)
    requires Shape(s) && TookOver(s, s', c, nd)
    ensures GrowStep(s, s', c, nd) && NodeOk(nd, |s.nodes|, s'.termLog)
    ensures LogOk(nd.logs, nd.curTerm - 1, s'.termLog)
  {
    assert NodeOk(s.nodes[c], |s.nodes|, s.termLog);
    LogOkGrows(nd.logs, nd.curTerm - 1, s.termLog, s'.termLog);
  }

  lemma WinTermLogsOk(s: State, s': State, c: nat, nd: Node)
    requires TermLogsOk(s) && TookOver(s, s', c, nd)
    requires GrowStep(s, s', c, nd) && LogOk(nd.logs, nd.curTerm - 1, s'.termLog)
    ensures TermLogsOk(s')
  {
    forall u | u in s'.elect ensures TermLogOk(s', u) {
      if u != nd.curTerm { GrowKeepsTermLog(s, s', c, nd, u); }
    }
  }

  lemma WinKeepsVotes(s: State, s': State, c: nat, nd: Node)
    requires VotesOk(s) && RolesOk(s) && (forall t :: t in s.elect ==> ElectionOk(s, t))
    requires TookOver(s, s', c, nd) && ElectionOk(s', nd.curTerm)
    ensures VotesOk(s') && RolesOk(s') && (forall t :: t in s'.elect ==> ElectionOk(s', t))
  {
    forall v, u | (v, u) in s'.votes ensures VoteOk(s', v, u) {
      if (v, u) in s.votes { assert VoteOk(s, v, u); }
    }
    forall d: nat | d < |s'.nodes| ensures RoleOk(s', d) { assert RoleOk(s, d); }
    forall u | u in s'.elect ensures ElectionOk(s', u) {
      if u != nd.curTerm { assert ElectionOk(s, u); }
    }
  }

  lemma WinnerElectionOk(s: State, s': State, c: nat, nd: Node)
    requires Shape(s) && TrafficInv(s) && TookOver(s, s', c, nd)
    ensures ElectionOk(s', nd.curTerm)
  {
    var t := nd.curTerm;
    BallotsCounted(s, c);
    assert NodeOk(s.nodes[c], |s.nodes|, s.termLog);
    forall v | v in s'.elect[t].ballots ensures (v, t) in s'.votes && s'.votes[(v, t)] == c {
      if v != c { BallotIsForRound(s, c, v); }
    }
  }

  lemma WinBallotsOk(s: State, s': State, c: nat, nd: Node)
    requires Shape(s) && ElectionsOk(s) && TrafficInv(s) && TookOver(s, s', c, nd) && GrowStep(s, s', c, nd)
    ensures forall t, v :: t in s'.elect && v in s'.elect[t].ballots ==> BallotOk(s', t, v)
  {
    forall t, v | t in s'.elect && v in s'.elect[t].ballots ensures BallotOk(s', t, v) {
      if t != nd.curTerm {
        GrowKeepsBallots(s, s', c, nd, t);
      } else {
        NewBallotOk(s, s', c, nd, v);
      }
    }
  }

  lemma NewBallotOk(s: State, s': State, c: nat, nd: Node, v: nat)
    requires Shape(s) && TrafficInv(s) && TookOver(s, s', c, nd) && GrowStep(s, s', c, nd) && v in Ballots(s, c)
    ensures BallotOk(s', nd.curTerm, v)
  {
    var t := nd.curTerm;
    if v != c {
      BallotIsForRound(s, c, v);
      NoEntriesBeforeElection(s.heard[c][v].voterLog, t, s.termLog);
      LogOkGrows(s.heard[c][v].voterLog, t - 1, s.termLog, s'.termLog);
    } else {
      assert NodeOk(s.nodes[c], |s.nodes|, s.termLog);
      LogOkGrows(nd.logs, t - 1, s.termLog, s'.termLog);
    }
  }

  // ---------- runs ----------

  lemma InitialOk(n: nat)
    requires n > 0
    ensures Inv(Initial(n))
  {
  }

  lemma KeepInv(s: State, e: Event)
    requires Inv(s) && Enabled(s, e)
    ensures Inv(Apply(s, e))
  {
    match e
    case Timeout(c) => KeepTimeout(s, c);
    case CallVote(c) => KeepCallVote(s, c);
    case HandleVote(v, m) => KeepHandleVote(s, v, m);
    case TakeVote(r) => KeepTakeVote(s, r);
    case Finish(c) => KeepFinish(s, c);
    case StartCmd(c, cmd) => KeepStartCmd(s, c, cmd);
    case SendAppend(c, p) => KeepSendAppend(s, c, p);
    case HandleAppend(m) => KeepHandleAppend(s, m);
    case TakeAppend(m, resp) => KeepTakeAppend(s, m, resp);
    case HandUp(c) => KeepHandUp(s, c);
    case Snap(c, i) => KeepSnap(s, c, i);
  }

  lemma KeepDropped(s: State, e: Event)
    requires |s.nodes| == |s.rounds| == |s.heard| && DroppedOk(s) && Enabled(s, e)
    ensures DroppedOk(Apply(s, e))
  {
    forall c: nat | c < |s.nodes|
      ensures Dropped(Apply(s, e), c) <= |Apply(s, e).nodes[c].logs|
      ensures Dropped(Apply(s, e), c) <= Apply(s, e).nodes[c].lastApplied
    {
      KeepDroppedOf(s, e, c);
    }
  }

  lemma KeepDroppedOf(s: State, e: Event, c: nat)
    requires |s.nodes| == |s.rounds| == |s.heard| && c < |s.nodes| && Enabled(s, e)
    requires Dropped(s, c) <= |s.nodes[c].logs| && Dropped(s, c) <= s.nodes[c].lastApplied
    ensures Dropped(Apply(s, e), c) <= |Apply(s, e).nodes[c].logs|
    ensures Dropped(Apply(s, e), c) <= Apply(s, e).nodes[c].lastApplied
  {
  }

  // Only a snapshot moves a label, and nothing that was applied is taken back.
  lemma LabelMoves(s: State, e: Event, p: nat)
    requires |s.nodes| == |s.rounds| == |s.heard| && p < |s.nodes| && Enabled(s, e)
    ensures Apply(s, e).nodes[p].lastApplied >= s.nodes[p].lastApplied
    ensures Dropped(Apply(s, e), p) == if e.Snap? && e.c == p then e.index else Dropped(s, p)
  {
  }

  // One step, whatever the event.
  ghost predicate Next(s: State, s': State) {
    |s.nodes| == |s.rounds| == |s.heard| && exists e :: Enabled(s, e) && s' == Apply(s, e)
  }

  ghost predicate IsRun(run: seq<State>, n: nat) {
    && n > 0 && |run| > 0 && run[0] == Initial(n)
    && (forall i :: 0 < i < |run| ==> Next(run[i - 1], run[i]))
  }

  // History is never rewritten: elections stay, leader logs only grow.
  ghost predicate Extends(s: State, s': State) {
    && |s'.nodes| == |s.nodes| && Grows(s.termLog, s'.termLog)
    && (forall t :: t in s.elect ==> t in s'.elect && s'.elect[t] == s.elect[t])
  }

  lemma StepExtends(s: State, e: Event)
    requires Inv(s) && Enabled(s, e)
    ensures Extends(s, Apply(s, e))
  {
    if e.Finish? { WinnerIsFirst(s, e.c); }
    FreshExtends(s, e);
  }

  lemma FreshExtends(s: State, e: Event)
    requires |s.nodes| == |s.rounds| == |s.heard| && RolesOk(s) && s.termLog.Keys == s.elect.Keys && Enabled(s, e)
    requires e.Finish? ==> s.nodes[e.c].curTerm + 1 !in s.elect
    ensures Extends(s, Apply(s, e))
  {
    if e.StartCmd? {
      StartExtends(s, e.c, e.cmd);
    } else if !e.Finish? {
      OthersExtend(s, e);
    }
  }

  lemma StartExtends(s: State, c: nat, cmd: string)
    requires RolesOk(s) && |s.nodes| == |s.rounds| == |s.heard| && Enabled(s, StartCmd(c, cmd))
    ensures Extends(s, Apply(s, StartCmd(c, cmd)))
  {
    assert RoleOk(s, c);
  }

  lemma OthersExtend(s: State, e: Event)
    requires |s.nodes| == |s.rounds| == |s.heard| && Enabled(s, e) && !e.Finish? && !e.StartCmd?
    ensures Extends(s, Apply(s, e))
  {
    var s' := Apply(s, e);
    assert s'.elect == s.elect && s'.termLog == s.termLog;
  }

  // A recorded vote is never withdrawn or given to someone else.
  ghost predicate VotesStand(s: State, s': State) {
    forall v, t :: (v, t) in s.votes ==> (v, t) in s'.votes && s'.votes[(v, t)] == s.votes[(v, t)]
  }

  lemma StepVotesStand(s: State, e: Event)
    requires Inv(s) && Enabled(s, e)
    ensures VotesStand(s, Apply(s, e))
  {
    if e.Finish? {
      NoVoteYet(s, e.c);
    } else if e.HandleVote? && (e.v, e.vm.req.term) in s.votes
              && ReplyVoteAt(s.nodes[e.v], Dropped(s, e.v), e.vm.req).1.isAccepted {
      SameVoteAgain(s, e.v, e.vm.req);
    }
  }

  lemma SameVoteAgain(s: State, v: nat, req: VoteRequest)
    requires VotesOk(s) && v < |s.nodes| && (v, req.term) in s.votes && v != req.candidateId
    requires Dropped(s, v) <= |s.nodes[v].logs| && ReplyVoteAt(s.nodes[v], Dropped(s, v), req).1.isAccepted
    ensures s.votes[(v, req.term)] == req.candidateId
  {
    assert VoteOk(s, v, req.term);
  }

  lemma NextKeepsInv(s: State, s': State)
    requires Inv(s) && Next(s, s')
    ensures Inv(s') && Extends(s, s') && VotesStand(s, s')
  {
    var e :| Enabled(s, e) && s' == Apply(s, e);
    KeepInv(s, e);
    StepExtends(s, e);
    StepVotesStand(s, e);
  }

  lemma {:induction false} RunKeepsInv(run: seq<State>, n: nat, i: nat)
    requires IsRun(run, n) && i < |run|
    ensures Inv(run[i])
  {
    if i == 0 {
      InitialOk(n);
    } else {
      RunKeepsInv(run, n, i - 1);
      NextKeepsInv(run[i - 1], run[i]);
    }
  }

  lemma RunNext(run: seq<State>, n: nat, j: nat)
    requires IsRun(run, n) && 0 < j < |run|
    ensures Extends(run[j - 1], run[j]) && VotesStand(run[j - 1], run[j])
  {
    RunKeepsInv(run, n, j - 1);
    NextKeepsInv(run[j - 1], run[j]);
  }

  // What each step keeps, the whole stretch keeps.
  lemma {:induction false} ChainExtends(states: seq<State>, i: nat, j: nat)
    requires i <= j < |states|
    requires forall k :: i < k <= j ==> Extends(states[k - 1], states[k]) && VotesStand(states[k - 1], states[k])
    ensures Extends(states[i], states[j]) && VotesStand(states[i], states[j])
    decreases j
  {
    if i < j { ChainExtends(states, i, j - 1); }
  }

  lemma {:induction false} RunKeepsDropped(run: seq<State>, n: nat, i: nat)
    requires IsRun(run, n) && i < |run|
    ensures DroppedOk(run[i])
  {
    if i > 0 {
      RunKeepsDropped(run, n, i - 1);
      NextKeepsDropped(run[i - 1], run[i]);
    }
  }

  lemma NextKeepsDropped(s: State, s': State)
    requires DroppedOk(s) && Next(s, s')
    ensures DroppedOk(s')
  {
    var e :| Enabled(s, e) && s' == Apply(s, e);
    KeepDropped(s, e);
  }

  lemma {:induction false} RunExtends(run: seq<State>, n: nat, i: nat, j: nat)
    requires IsRun(run, n) && i <= j < |run|
    ensures Extends(run[i], run[j])
  {
    forall k | i < k <= j ensures Extends(run[k - 1], run[k]) && VotesStand(run[k - 1], run[k]) { RunNext(run, n, k); }
    ChainExtends(run, i, j);
  }

  // Election safety: over a whole run at most one replica ever leads a term.
  lemma {:induction false} ElectionSafety(run: seq<State>, n: nat, i: nat, j: nat, p: nat, q: nat)
    requires IsRun(run, n) && i < |run| && j < |run| && p < |run[i].nodes| && q < |run[j].nodes|
    requires run[i].nodes[p].role == Leader && run[j].nodes[q].role == Leader
    requires run[i].nodes[p].curTerm == run[j].nodes[q].curTerm
    ensures p == q
  {
    RunKeepsInv(run, n, i);
    RunKeepsInv(run, n, j);
    if i <= j { RunExtends(run, n, i, j); } else { RunExtends(run, n, j, i); }
    assert RoleOk(run[i], p) && RoleOk(run[j], q);
  }

  // One vote per replica and term, over a whole run.
  lemma {:induction false} OneVotePerTerm(run: seq<State>, n: nat, i: nat, j: nat)
    requires IsRun(run, n) && i <= j < |run|
    ensures VotesStand(run[i], run[j])
  {
    forall k | i < k <= j ensures Extends(run[k - 1], run[k]) && VotesStand(run[k - 1], run[k]) { RunNext(run, n, k); }
    ChainExtends(run, i, j);
  }

  // A candidate that grants its own next term to another replica is a follower from then on, and that
  // term is lost to it for the rest of the run.
  lemma GrantEndsCandidacy(run: seq<State>, n: nat, i: nat, j: nat, v: nat, m: VoteMsg)
    requires IsRun(run, n) && i < j < |run| && v < |run[i].nodes| == |run[j].nodes| == |run[i].rounds| == |run[i].heard|
    requires Enabled(run[i], HandleVote(v, m)) && run[i + 1] == Apply(run[i], HandleVote(v, m))
    requires ReplyVoteAt(run[i].nodes[v], Dropped(run[i], v), m.req).1.isAccepted
    ensures run[i].nodes[v].role == Candidate ==> run[i + 1].nodes[v].role == Follower
    ensures !(run[j].nodes[v].role == Leader && run[j].nodes[v].curTerm == m.req.term)
  {
    RunKeepsInv(run, n, i);
    RunKeepsInv(run, n, j);
    OneVotePerTerm(run, n, i + 1, j);
    assert RoleOk(run[i], v) && RoleOk(run[j], v);
    assert m.req.term in run[j].elect ==> ElectionOk(run[j], m.req.term);
    assert run[i + 1].votes[(v, m.req.term)] == m.req.candidateId != v;
  }

  // Log matching, between any two replicas at any two moments of a run.
  lemma {:induction false} LogMatching(run: seq<State>, n: nat, i: nat, j: nat, p: nat, q: nat, k: nat)
    requires IsRun(run, n) && i < |run| && j < |run| && p < |run[i].nodes| && q < |run[j].nodes|
    requires k < |run[i].nodes[p].logs| && k < |run[j].nodes[q].logs|
    requires run[i].nodes[p].logs[k].term == run[j].nodes[q].logs[k].term
    ensures run[i].nodes[p].logs[..k + 1] == run[j].nodes[q].logs[..k + 1]
  {
    if i <= j { LogsMatchLater(run, n, i, j, p, q, k); } else { LogsMatchLater(run, n, j, i, q, p, k); }
  }

  lemma LogsMatchLater(run: seq<State>, n: nat, i: nat, j: nat, p: nat, q: nat, k: nat)
    requires IsRun(run, n) && i <= j < |run| && p < |run[i].nodes| && q < |run[j].nodes|
    requires k < |run[i].nodes[p].logs| && k < |run[j].nodes[q].logs|
    requires run[i].nodes[p].logs[k].term == run[j].nodes[q].logs[k].term
    ensures run[i].nodes[p].logs[..k + 1] == run[j].nodes[q].logs[..k + 1]
  {
    RunKeepsInv(run, n, i);
    RunKeepsInv(run, n, j);
    RunExtends(run, n, i, j);
    var a, b := run[i].nodes[p], run[j].nodes[q];
    assert NodeOk(a, |run[i].nodes|, run[i].termLog) && NodeOk(b, |run[j].nodes|, run[j].termLog);
    MatchesGrows(a.logs, run[i].termLog, run[j].termLog);
    SameTermSamePrefix(a.logs, b.logs, k, run[j].termLog);
  }

  // What a request says of the leader that built it: its term and commit index, its log from the peer's next
  // index on, and the term of the entry before that.
  ghost predicate Built(nd: Node, am: AppendMsg) {
    && nd.role == Leader && am.full == nd.logs && am.to < |nd.nextIndex|
    && (var prev := nd.nextIndex[am.to] - 1;
        && 0 <= prev <= |nd.logs|
        && am.req == AppendRequest(
             nd.curTerm, am.from, prev, LastTermOf(nd.logs[..prev]), nd.commitIndex, nd.logs[prev..]))
  }

  lemma OnlySendsAdd(s: State, e: Event, am: AppendMsg)
    requires |s.nodes| == |s.rounds| == |s.heard| && Enabled(s, e) && am !in s.appends
    requires forall c: nat :: c < |s.nodes| ==> Full(s.nodes[c])
    ensures am in Apply(s, e).appends ==> am.from < |s.nodes| && Built(s.nodes[am.from], am)
  {
  }

  lemma NextBuilds(s: State, s': State)
    requires Next(s, s') && Shape(s)
    ensures forall am :: am in s'.appends && am !in s.appends ==> am.from < |s.nodes| && Built(s.nodes[am.from], am)
  {
    forall c: nat | c < |s.nodes| ensures Full(s.nodes[c]) { assert NodeOk(s.nodes[c], |s.nodes|, s.termLog); }
    var e :| Enabled(s, e) && s' == Apply(s, e);
    forall am | am in s'.appends && am !in s.appends ensures am.from < |s.nodes| && Built(s.nodes[am.from], am) {
      OnlySendsAdd(s, e, am);
    }
  }

  // In a stretch of states where every new request is built from the state before, each was built.
  lemma {:induction false} ChainBuilds(states: seq<State>, j: nat, am: AppendMsg) returns (i: nat)
    requires j < |states| && am in states[j].appends && am !in states[0].appends
    requires forall k, m :: 0 < k <= j && m in states[k].appends && m !in states[k - 1].appends ==>
               m.from < |states[k - 1].nodes| && Built(states[k - 1].nodes[m.from], m)
    ensures i < j && am.from < |states[i].nodes| && Built(states[i].nodes[am.from], am)
    decreases j
  {
    if am in states[j - 1].appends {
      i := ChainBuilds(states, j - 1, am);
    } else {
      i := j - 1;
    }
  }

  // Every request under way was built by a leader at some earlier moment, with its whole log on record.
  lemma {:induction false} RequestWasBuilt(run: seq<State>, n: nat, j: nat, am: AppendMsg) returns (i: nat)
    requires IsRun(run, n) && j < |run| && am in run[j].appends
    ensures i < j && am.from < |run[i].nodes| && Built(run[i].nodes[am.from], am)
  {
    forall k | 0 < k <= j
      ensures forall m :: m in run[k].appends && m !in run[k - 1].appends ==>
                m.from < |run[k - 1].nodes| && Built(run[k - 1].nodes[m.from], m)
    {
      RunKeepsInv(run, n, k - 1);
      NextBuilds(run[k - 1], run[k]);
    }
    i := ChainBuilds(run, j, am);
  }

  // Full copy: whenever a request is handled and accepted, however late, out of order or again, the
  // follower's whole log becomes the whole log of the leader at the moment i when it built the request.
  lemma {:induction false} FullCopy(run: seq<State>, n: nat, j: nat, am: AppendMsg) returns (i: nat)
    requires IsRun(run, n) && j < |run| && am in run[j].appends && am.to < |run[j].nodes|
    requires Dropped(run[j], am.to) <= |run[j].nodes[am.to].logs|
    requires ReplyAppendAt(run[j].nodes[am.to], Dropped(run[j], am.to), am.req).1.success
    ensures i < j && am.from < |run[i].nodes| && Built(run[i].nodes[am.from], am)
    ensures ReplyAppendAt(run[j].nodes[am.to], Dropped(run[j], am.to), am.req).0.logs == run[i].nodes[am.from].logs
  {
    i := RequestWasBuilt(run, n, j, am);
    RunKeepsInv(run, n, j);
    AcceptedLogIsFullCopy(run[j], am);
  }
}
