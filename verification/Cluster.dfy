/** A cluster of n replicas. Every handler is one atomic event. Messages are never removed, so an event
    may deliver any message at any time, in any order, more than once, or never.

    Replicas compact their logs. `nodes` holds each replica with the entries it dropped still in place, and
    `dropped` how many those are; the replica that runs is `Compressed(nodes[p], Dropped(s, p))`, and that is
    what each event changes as its handler does (CompactingCluster.dfy).

    Besides the replicas the state keeps history: the round a candidate is in and the replies it counted,
    who voted for whom, and for every term the leader's log at election and that log as it grew. */
module Cluster {
  import opened RaftTypes
  import opened RaftSteps

  // `round` tells the voting rounds of one candidate apart.
  datatype VoteMsg = VoteMsg(round: nat, req: VoteRequest)

  datatype VoteReply = VoteReply(msg: VoteMsg, voter: nat, resp: VoteResponse, voterLog: Log)

  // `full` is the leader's whole log when the request was built.
  datatype AppendMsg = AppendMsg(from: nat, to: nat, req: AppendRequest, full: Log)

  datatype Election = Election(leader: nat, init: Log, ballots: map<nat, Log>)

  datatype State = State(
    nodes: seq<Node>,
    dropped: map<nat, nat>,
    rounds: seq<nat>,
    heard: seq<map<nat, VoteReply>>,
    voteReqs: set<VoteMsg>,
    voteReps: set<VoteReply>,
    appends: set<AppendMsg>,
    appendReps: set<(AppendMsg, AppendResponse)>,
    votes: map<(nat, int), nat>,
    elect: map<int, Election>,
    termLog: map<int, Log>)

  datatype Event =
    | Timeout(c: nat)
    | CallVote(c: nat)
    | HandleVote(v: nat, vm: VoteMsg)
    | TakeVote(vr: VoteReply)
    | Finish(c: nat)
    | StartCmd(c: nat, cmd: string)
    | SendAppend(c: nat, p: nat)
    | HandleAppend(am: AppendMsg)
    | TakeAppend(am: AppendMsg, resp: AppendResponse)
    | HandUp(c: nat)
    | Snap(c: nat, index: nat)

  function Initial(n: nat): State {
    State(seq(n, _ => InitNode(n)), map[], seq(n, _ => 0), seq(n, _ => map[]),
          {}, {}, {}, {}, map[], map[], map[])
  }

  // How many entries replica p has dropped.
  function Dropped(s: State, p: nat): nat {
    if p in s.dropped then s.dropped[p] else 0
  }

  predicate Enabled(s: State, e: Event)
    requires |s.nodes| == |s.rounds| == |s.heard|
  {
    match e
    case Timeout(c) => c < |s.nodes| && s.nodes[c].role != Leader
    case CallVote(c) => c < |s.nodes|
    case HandleVote(v, m) =>
      && v < |s.nodes| && m in s.voteReqs && m.req.candidateId != v
      && Dropped(s, v) <= |s.nodes[v].logs|
    case TakeVote(r) =>
      // a reply counts for the round that asked for it, once per peer
      && r in s.voteReps && r.msg.req.candidateId < |s.nodes|
      && r.msg.round == s.rounds[r.msg.req.candidateId]
      && r.voter !in s.heard[r.msg.req.candidateId]
    case Finish(c) => c < |s.nodes| && WinsElection(s.nodes[c])
    case StartCmd(c, _) => c < |s.nodes|
    case SendAppend(c, p) =>
      c < |s.nodes| && p < |s.nodes| && c != p && s.nodes[c].role == Leader
      && CanBuildAppend(s.nodes[c], p) && Dropped(s, c) < s.nodes[c].nextIndex[p]
    case HandleAppend(m) => m in s.appends && m.to < |s.nodes| && Dropped(s, m.to) <= |s.nodes[m.to].logs|
    case TakeAppend(m, resp) =>
      && (m, resp) in s.appendReps && m.from < |s.nodes| && Dropped(s, m.from) <= |s.nodes[m.from].logs|
      && CanTakeResponse(Compressed(s.nodes[m.from], Dropped(s, m.from)), m.from, m.to, m.req, resp)
    case HandUp(c) => c < |s.nodes| && CanApply(s.nodes[c])
    case Snap(c, i) =>
      // labels advance, and only applied entries are in a snapshot
      c < |s.nodes| && Dropped(s, c) < i <= s.nodes[c].lastApplied && i <= |s.nodes[c].logs|
  }

  function Granted(h: map<nat, VoteReply>): map<nat, Log> {
    map v | v in h && h[v].resp.isAccepted :: h[v].voterLog
  }

  function Apply(s: State, e: Event): State
    requires |s.nodes| == |s.rounds| == |s.heard|
    requires Enabled(s, e)
  {
    match e
    case Timeout(c) =>
      s.(nodes := s.nodes[c := BeginElection(s.nodes[c], c)],
         rounds := s.rounds[c := s.rounds[c] + 1], heard := s.heard[c := map[]])
    case CallVote(c) =>
      s.(voteReqs := s.voteReqs + {VoteMsg(s.rounds[c], BuildVoteRequest(s.nodes[c], c))})
    case HandleVote(v, m) =>
      var (nd, resp) := ReplyVoteAt(s.nodes[v], Dropped(s, v), m.req);
      s.(nodes := s.nodes[v := nd],
         voteReps := s.voteReps + {VoteReply(m, v, resp, s.nodes[v].logs)},
         votes := if resp.isAccepted then s.votes[(v, m.req.term) := m.req.candidateId] else s.votes)
    case TakeVote(r) =>
      var c := r.msg.req.candidateId;
      var h: map<nat, VoteReply> := s.heard[c][r.voter := r];
      s.(nodes := s.nodes[c := OnVoteResponse(s.nodes[c], r.resp)], heard := s.heard[c := h])
    case Finish(c) =>
      var nd := FinishElection(s.nodes[c]);
      s.(nodes := s.nodes[c := nd],
         votes := s.votes[(c, nd.curTerm) := c],
         elect := s.elect[nd.curTerm := Election(c, nd.logs, Granted(s.heard[c])[c := nd.logs])],
         termLog := s.termLog[nd.curTerm := nd.logs])
    case StartCmd(c, cmd) =>
      var nd := Start(s.nodes[c], cmd).0;
      s.(nodes := s.nodes[c := nd],
         termLog := if s.nodes[c].role == Leader then s.termLog[nd.curTerm := nd.logs] else s.termLog)
    case SendAppend(c, p) =>
      s.(appends := s.appends + {AppendMsg(c, p, BuildAppend(s.nodes[c], c, p), s.nodes[c].logs)})
    case HandleAppend(m) =>
      var (nd, resp) := ReplyAppendAt(s.nodes[m.to], Dropped(s, m.to), m.req);
      s.(nodes := s.nodes[m.to := nd], appendReps := s.appendReps + {(m, resp)})
    case TakeAppend(m, resp) =>
      var nd := OnAppendResponseAt(s.nodes[m.from], Dropped(s, m.from), m.from, m.to, m.req, resp);
      s.(nodes := s.nodes[m.from := nd])
    case HandUp(c) =>
      s.(nodes := s.nodes[c := AfterApply(s.nodes[c])])
    case Snap(c, i) =>
      s.(dropped := s.dropped[c := i])
  }

  // ---------- what every reachable state satisfies ----------

  ghost predicate TermsWithin(log: Log, t: int) {
    forall i :: 0 <= i < |log| ==> 1 <= log[i].term <= t
  }

  // Up to index i the log is what the leader of that entry's term wrote.
  ghost predicate AgreesAt(log: Log, i: nat, termLog: map<int, Log>)
    requires i < |log|
  {
    var t := log[i].term;
    t in termLog && i < |termLog[t]| && log[..i + 1] == termLog[t][..i + 1]
  }

  ghost predicate Matches(log: Log, termLog: map<int, Log>) {
    forall i: nat :: i < |log| ==> AgreesAt(log, i, termLog)
  }

  ghost predicate LogOk(log: Log, t: int, termLog: map<int, Log>) {
    Sorted(log) && TermsWithin(log, t) && Matches(log, termLog)
  }

  ghost predicate NodeOk(nd: Node, n: nat, termLog: map<int, Log>) {
    && nd.lastIncludedIndex == 0 && nd.lastIncludeTerm == 0 && nd.curTerm >= 0
    && |nd.nextIndex| == |nd.matchIndex| == n
    && LogOk(nd.logs, nd.curTerm, termLog)
  }

  ghost predicate Shape(s: State) {
    && |s.nodes| == |s.rounds| == |s.heard| > 0
    && (forall c :: 0 <= c < |s.nodes| ==> NodeOk(s.nodes[c], |s.nodes|, s.termLog))
  }

  ghost predicate VoteOk(s: State, v: nat, t: int)
    requires (v, t) in s.votes
  {
    && v < |s.nodes| && s.nodes[v].curTerm >= t
    && (s.nodes[v].curTerm == t ==> s.nodes[v].voteFor == s.votes[(v, t)] || s.nodes[v].voteFor == v)
  }

  ghost predicate VotesOk(s: State) {
    forall v, t :: (v, t) in s.votes ==> VoteOk(s, v, t)
  }

  ghost predicate RoleOk(s: State, c: nat)
    requires c < |s.nodes|
  {
    var nd := s.nodes[c];
    && (nd.role == Candidate ==> nd.voteFor == c)
    && (nd.role == Leader ==>
      && nd.curTerm in s.elect && s.elect[nd.curTerm].leader == c
      && nd.curTerm in s.termLog && s.termLog[nd.curTerm] == nd.logs)
  }

  ghost predicate RolesOk(s: State) {
    forall c :: 0 <= c < |s.nodes| ==> RoleOk(s, c)
  }

  ghost predicate ElectionOk(s: State, t: int)
    requires t in s.elect
  {
    var e := s.elect[t];
    && t >= 1 && e.leader < |s.nodes|
    && (e.leader, t) in s.votes && s.votes[(e.leader, t)] == e.leader
    && (s.nodes[e.leader].curTerm == t ==> s.nodes[e.leader].role == Leader)
    && |e.ballots| > |s.nodes| / 2
    && (forall v :: v in e.ballots ==> (v, t) in s.votes && s.votes[(v, t)] == e.leader)
  }

  ghost predicate BallotOk(s: State, t: int, v: nat)
    requires t in s.elect && v in s.elect[t].ballots
  {
    LogOk(s.elect[t].ballots[v], t - 1, s.termLog)
  }

  ghost predicate ElectionsOk(s: State) {
    && (forall t :: t in s.elect ==> ElectionOk(s, t))
    && (forall t, v :: t in s.elect && v in s.elect[t].ballots ==> BallotOk(s, t, v))
  }

  ghost predicate TermLogOk(s: State, t: int)
    requires t in s.elect && t in s.termLog
  {
    && s.elect[t].init <= s.termLog[t]
    && TermsWithin(s.elect[t].init, t - 1)
    && LogOk(s.termLog[t], t, s.termLog)
    && (forall i :: |s.elect[t].init| <= i < |s.termLog[t]| ==> s.termLog[t][i].term == t)
  }

  ghost predicate TermLogsOk(s: State) {
    s.termLog.Keys == s.elect.Keys && (forall t :: t in s.elect ==> TermLogOk(s, t))
  }

  ghost predicate AppendOk(s: State, m: AppendMsg) {
    var r := m.req;
    && m.from < |s.nodes| && m.to < |s.nodes| && m.from != m.to && s.nodes[m.from].curTerm >= r.term
    && r.term in s.elect && s.elect[r.term].leader == m.from && r.term in s.termLog
    && s.elect[r.term].init <= m.full <= s.termLog[r.term]
    && 0 <= r.prevLogIndex <= |m.full| && r.entries == m.full[r.prevLogIndex..]
    && r.prevLogTerm == LastTermOf(m.full[..r.prevLogIndex])
  }

  ghost predicate AppendsOk(s: State) {
    && (forall m :: m in s.appends ==> AppendOk(s, m))
    && (forall x :: x in s.appendReps ==> x.0 in s.appends)
  }

  ghost predicate VoteMsgOk(s: State, m: VoteMsg)
    requires |s.nodes| == |s.rounds|
  {
    var c := m.req.candidateId;
    && c < |s.nodes| && m.round <= s.rounds[c]
    && (s.nodes[c].role == Candidate && m.round == s.rounds[c] ==>
      m.req == BuildVoteRequest(s.nodes[c], c))
  }

  ghost predicate VoteReplyOk(s: State, r: VoteReply) {
    && r.msg in s.voteReqs && r.voter != r.msg.req.candidateId && r.voter < |s.nodes|
    && (r.resp.isAccepted ==>
      && (r.voter, r.msg.req.term) in s.votes && s.votes[(r.voter, r.msg.req.term)] == r.msg.req.candidateId
      && LogOk(r.voterLog, r.msg.req.term, s.termLog))
  }

  ghost predicate VoteTrafficOk(s: State)
    requires |s.nodes| == |s.rounds|
  {
    && (forall m :: m in s.voteReqs ==> VoteMsgOk(s, m))
    && (forall r :: r in s.voteReps ==> VoteReplyOk(s, r))
  }

  ghost predicate HeardOk(s: State, c: nat)
    requires c < |s.nodes| == |s.heard| == |s.rounds|
  {
    && (forall v :: v in s.heard[c] ==>
      && s.heard[c][v] in s.voteReps && s.heard[c][v].voter == v
      && s.heard[c][v].msg.req.candidateId == c && s.heard[c][v].msg.round == s.rounds[c])
    && (s.nodes[c].role == Candidate ==> s.nodes[c].votes == |Granted(s.heard[c])| + 1)
  }

  ghost predicate AllHeardOk(s: State)
    requires |s.nodes| == |s.heard| == |s.rounds|
  {
    forall c :: 0 <= c < |s.nodes| ==> HeardOk(s, c)
  }

  // Every replica still holds, and has applied, what it dropped.
  ghost predicate DroppedOk(s: State) {
    forall c: nat :: c < |s.nodes| ==>
      Dropped(s, c) <= |s.nodes[c].logs| && Dropped(s, c) <= s.nodes[c].lastApplied
  }

  ghost predicate Inv(s: State) {
    && Shape(s) && VotesOk(s) && RolesOk(s) && ElectionsOk(s) && TermLogsOk(s)
    && AppendsOk(s) && VoteTrafficOk(s) && AllHeardOk(s)
  }
}
