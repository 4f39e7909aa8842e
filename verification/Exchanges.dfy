/** The cluster under the exchange discipline: between a leader and one follower at most one
    AppendEntries exchange is under way. Its request may reach the follower several times (the sender
    retries), its reply is taken at most once, and either may be lost.

    More history: how far each replica acknowledged each leader's log, every commit a leader made, the
    commands that `Start` answered to have accepted, and everything handed up to the key-value layer. */
module Exchanges {
  import opened RaftTypes
  import opened RaftSteps
  import opened Cluster

  datatype Flight = Flight(am: AppendMsg, reply: Option<AppendResponse>)

  datatype System = System(
    c: State,
    flights: map<(nat, nat), Flight>,
    acks: map<(nat, int), nat>,
    commits: set<(int, int)>,
    started: map<(int, int), string>,
    handed: seq<seq<ApplyMsg>>)

  datatype Act =
    | Vote(e: Event)
    | Submit(p: nat, cmd: string)
    | Send(l: nat, p: nat)
    | Deliver(l: nat, p: nat)
    | Receive(l: nat, p: nat)
    | Lose(l: nat, p: nat)
    | Hand(p: nat)
    | Drop(p: nat, index: nat)

  function InitialSystem(n: nat): System {
    System(Initial(n), map[], map[], {}, map[], seq(n, _ => []))
  }

  predicate WellSized(s: System) {
    |s.c.nodes| == |s.c.rounds| == |s.c.heard| == |s.handed|
  }

  // The event of the cluster that an act is; losing an exchange changes nothing there.
  function EventOf(s: System, a: Act): Option<Event> {
    match a
    case Vote(e) => Some(e)
    case Submit(p, cmd) => Some(StartCmd(p, cmd))
    case Send(l, p) => Some(SendAppend(l, p))
    case Deliver(l, p) => if (l, p) in s.flights then Some(HandleAppend(s.flights[(l, p)].am)) else None
    case Receive(l, p) =>
      if (l, p) in s.flights && s.flights[(l, p)].reply.Some?
      then Some(TakeAppend(s.flights[(l, p)].am, s.flights[(l, p)].reply.value)) else None
    case Lose(l, p) => None
    case Hand(p) => Some(HandUp(p))
    case Drop(p, i) => Some(Snap(p, i))
  }

  predicate CanAct(s: System, a: Act)
    requires WellSized(s)
  {
    && (match a
        case Vote(e) => e.Timeout? || e.CallVote? || e.HandleVote? || e.TakeVote? || e.Finish?
        case Send(l, p) => (l, p) !in s.flights
        case Deliver(l, p) => (l, p) in s.flights
        case Receive(l, p) => l < |s.c.nodes| && (l, p) in s.flights && s.flights[(l, p)].reply.Some?
        case Lose(l, p) => (l, p) in s.flights
        // the key-value layer labels its snapshots one less than the entry it handled last
        case Drop(p, i) => p < |s.handed| && i < |s.handed[p]|
        case _ => true)
    && (EventOf(s, a).Some? ==> Enabled(s.c, EventOf(s, a).value))
  }

  // The leader takes this reply as a success in its own term.
  predicate TakenAsSuccess(nd: Node, am: AppendMsg, resp: AppendResponse) {
    nd.curTerm == am.req.term && resp.term <= nd.curTerm && resp.success
  }

  function Do(s: System, a: Act): System
    requires WellSized(s) && CanAct(s, a)
  {
    var c' := if EventOf(s, a).Some? then Apply(s.c, EventOf(s, a).value) else s.c;
    match a
    case Vote(e) => s.(c := c')
    case Submit(p, cmd) =>
      var ret := Start(s.c.nodes[p], cmd).1;
      s.(c := c', started := if ret.isLeader then s.started[(ret.curTerm, ret.cmdIndex) := cmd] else s.started)
    case Send(l, p) =>
      s.(c := c', flights := s.flights[(l, p) :=
           Flight(AppendMsg(l, p, BuildAppend(s.c.nodes[l], l, p), s.c.nodes[l].logs), None)])
    case Deliver(l, p) =>
      var am := s.flights[(l, p)].am;
      var resp := ReplyAppendAt(s.c.nodes[am.to], Dropped(s.c, am.to), am.req).1;
      s.(c := c', flights := s.flights[(l, p) := Flight(am, Some(resp))],
         acks := if resp.success then s.acks[(p, am.req.term) := |am.full|] else s.acks)
    case Receive(l, p) =>
      var f := s.flights[(l, p)];
      var nd, nd' := s.c.nodes[l], c'.nodes[l];
      s.(c := c', flights := s.flights - {(l, p)},
         acks := if TakenAsSuccess(nd, f.am, f.reply.value) then s.acks[(l, nd.curTerm) := |nd.logs|] else s.acks,
         commits := if nd'.commitIndex > nd.commitIndex
                    then s.commits + {(nd'.curTerm, nd'.commitIndex)} else s.commits)
    case Lose(l, p) => s.(flights := s.flights - {(l, p)})
    case Drop(p, i) => s.(c := c')
    case Hand(p) => s.(c := c', handed := s.handed[p := s.handed[p] + Handed(s.c.nodes[p])])
  }

  // ---------- what every reachable state satisfies ----------

  // The first m entries that the leader of term t wrote.
  ghost function Written(c: State, t: int, m: nat): Log
    requires t in c.termLog && m <= |c.termLog[t]|
  {
    c.termLog[t][..m]
  }

  // Some leader elected after t, up to term `bound`, began without the first m entries of term t's log.
  ghost predicate Missed(c: State, t: int, m: nat, bound: int)
    requires t in c.termLog && m <= |c.termLog[t]|
  {
    exists u :: u in c.elect && t < u <= bound && !(Written(c, t, m) <= c.elect[u].init)
  }

  ghost predicate KeptAt(c: State, t: int, m: nat, log: Log, bound: int)
    requires t in c.termLog && m <= |c.termLog[t]|
  {
    Written(c, t, m) <= log || Missed(c, t, m, bound)
  }

  // Everything acknowledged up to index `ack` is still in `log`, unless a later leader never had it.
  ghost predicate Kept(c: State, t: int, ack: nat, log: Log, bound: int)
    requires t in c.termLog && ack <= |c.termLog[t]|
  {
    forall m: nat :: m <= ack ==> KeptAt(c, t, m, log, bound)
  }

  ghost predicate AckOk(s: System, v: nat, t: int)
    requires (v, t) in s.acks
  {
    && v < |s.c.nodes| && t in s.c.elect && t in s.c.termLog && s.c.nodes[v].curTerm >= t
    && s.acks[(v, t)] <= |s.c.termLog[t]|
    && Kept(s.c, t, s.acks[(v, t)], s.c.nodes[v].logs, s.c.nodes[v].curTerm)
  }

  ghost predicate AcksOk(s: System) {
    forall v, t :: (v, t) in s.acks ==> AckOk(s, v, t)
  }

  ghost predicate VoterKept(s: System, r: VoteReply, t: int) {
    r.resp.isAccepted && t < r.msg.req.term && (r.voter, t) in s.acks ==>
      && t in s.c.termLog && s.acks[(r.voter, t)] <= |s.c.termLog[t]|
      && Kept(s.c, t, s.acks[(r.voter, t)], r.voterLog, r.msg.req.term)
  }

  ghost predicate VotersKept(s: System) {
    forall r, t :: r in s.c.voteReps && t < r.msg.req.term && (r.voter, t) in s.acks ==> VoterKept(s, r, t)
  }

  ghost predicate BallotKept(s: System, u: int, v: nat, t: int)
    requires u in s.c.elect && v in s.c.elect[u].ballots
  {
    t < u && (v, t) in s.acks ==>
      && t in s.c.termLog && s.acks[(v, t)] <= |s.c.termLog[t]|
      && Kept(s.c, t, s.acks[(v, t)], s.c.elect[u].ballots[v], u - 1)
  }

  ghost predicate BallotsKept(s: System) {
    forall u, v, t :: u in s.c.elect && v in s.c.elect[u].ballots && (v, t) in s.acks ==> BallotKept(s, u, v, t)
  }

  function Ack(s: System, v: nat, t: int): nat {
    if (v, t) in s.acks then s.acks[(v, t)] else 0
  }

  // The servers that acknowledged term t's log up to index m.
  ghost function Ackers(s: System, t: int, m: nat): set<nat> {
    set v: nat | v < |s.c.nodes| && Ack(s, v, t) >= m
  }

  ghost predicate CommitOk(s: System, t: int, m: int) {
    && t in s.c.elect && t in s.c.termLog && 1 <= m <= |s.c.termLog[t]| && s.c.termLog[t][m - 1].term == t
    && |Ackers(s, t, m)| >= |s.c.nodes| - |s.c.nodes| / 2
  }

  ghost predicate CommitsOk(s: System) {
    forall t, m :: (t, m) in s.commits ==> CommitOk(s, t, m)
  }

  // `log` holds index k of a log that was committed up to m in term t.
  ghost predicate Covers(s: System, k: nat, t: int, m: int, log: Log) {
    (t, m) in s.commits && k <= m && t in s.c.termLog && m <= |s.c.termLog[t]| && Written(s.c, t, k) <= log
  }

  ghost predicate Committed(s: System, k: int, bound: int, log: Log) {
    && 0 <= k <= |log|
    && (k > 0 ==> exists t, m :: t <= bound && Covers(s, k, t, m, log))
  }

  ghost predicate NodeCommitOk(s: System, p: nat)
    requires p < |s.c.nodes| == |s.handed|
  {
    var nd := s.c.nodes[p];
    && 0 <= nd.lastApplied <= nd.commitIndex <= |nd.logs|
    && (nd.commitIndex > 0 ==>
      exists t, m :: t <= nd.curTerm && Covers(s, nd.commitIndex, t, m, nd.logs)
                     && (t == nd.curTerm ==> nd.commitIndex <= Ack(s, p, t)))
    && s.handed[p] == Entries(nd.logs, nd.lastApplied)
  }

  // What `ApplyLogLoop` hands up for the first k entries of a log.
  function Entries(log: Log, k: nat): seq<ApplyMsg>
    requires k <= |log|
  {
    seq(k, i requires 0 <= i < k => ApplyMsg(log[i].cmd, i + 1, log[i].term))
  }

  ghost predicate LeaderTableOk(s: System, l: nat)
    requires l < |s.c.nodes|
  {
    var nd := s.c.nodes[l];
    nd.role == Leader ==>
      && |nd.nextIndex| == |nd.matchIndex| == |s.c.nodes|
      && forall q: nat :: q < |s.c.nodes| ==>
           && 1 <= nd.nextIndex[q] <= |nd.logs| + 1
           && nd.matchIndex[q] <= Ack(s, q, nd.curTerm)
  }

  ghost predicate NodesOk(s: System)
    requires |s.c.nodes| == |s.handed|
  {
    forall p: nat :: p < |s.c.nodes| ==> NodeCommitOk(s, p) && LeaderTableOk(s, p)
  }

  // A rejection that the leader will act on leaves its next index inside the log.
  predicate RejectOk(am: AppendMsg, resp: AppendResponse) {
    !resp.success && resp.term <= am.req.term ==>
      (if resp.conflictTerm == -1 then 0 else 1) <= resp.conflictIndex <= |am.full|
  }

  ghost predicate SentOk(s: System, l: nat, p: nat, am: AppendMsg) {
    var r := am.req;
    && am in s.c.appends && am.from == l && am.to == p && l < |s.c.nodes| && p < |s.c.nodes|
    && Ack(s, p, r.term) <= |am.full|
    && Committed(s, r.leaderCommit, r.term, am.full)
    && (s.c.nodes[l].curTerm == r.term ==>
      p < |s.c.nodes[l].nextIndex| && s.c.nodes[l].nextIndex[p] == r.prevLogIndex + 1)
  }

  ghost predicate ReplyOk(s: System, p: nat, am: AppendMsg, resp: AppendResponse) {
    && (am, resp) in s.c.appendReps
    && (resp.success ==> Ack(s, p, am.req.term) == |am.full|)
    && RejectOk(am, resp)
  }

  ghost predicate FlightOk(s: System, l: nat, p: nat)
    requires (l, p) in s.flights
  {
    var f := s.flights[(l, p)];
    SentOk(s, l, p, f.am) && (f.reply.Some? ==> ReplyOk(s, p, f.am, f.reply.value))
  }

  ghost predicate FlightsOk(s: System) {
    forall l, p :: (l, p) in s.flights ==> FlightOk(s, l, p)
  }

  ghost predicate StartedOk(s: System) {
    forall t, i :: (t, i) in s.started ==>
      t in s.c.elect && t in s.c.termLog && 0 <= i < |s.c.termLog[t]|
      && s.c.termLog[t][i] == LogEntry(s.started[(t, i)], t)
  }

  // `log` passes the vote test of a replica whose log is `mine`.
  ghost predicate NotBehind(log: Log, mine: Log) {
    mine == [] || LastTermOf(log) > LastTermOf(mine) || (LastTermOf(log) == LastTermOf(mine) && |log| >= |mine|)
  }

  // A vote request passes the test of a voter with the log `mine`.
  ghost predicate Passes(req: VoteRequest, mine: Log) {
    || mine == [] || req.lastLogTerm > LastTermOf(mine)
    || (req.lastLogTerm == LastTermOf(mine) && req.lastLogIndex >= |mine|)
  }

  // Every vote was given by the voter's whole history, and every leader passed the test of those it counts.
  ghost predicate VotesPassed(elect: map<int, Election>, reps: set<VoteReply>) {
    && (forall r :: r in reps && r.resp.isAccepted ==> Passes(r.msg.req, r.voterLog))
    && (forall t, v :: t in elect && v in elect[t].ballots ==> NotBehind(elect[t].init, elect[t].ballots[v]))
  }

  // What the commit argument needs of the history.
  ghost predicate History(s: System) {
    Inv(s.c) && AcksOk(s) && BallotsKept(s) && CommitsOk(s) && VotesPassed(s.c.elect, s.c.voteReps)
  }

  // What a replica dropped ends before the last entry it applied.
  ghost predicate DroppedLate(c: State) {
    forall p: nat :: p < |c.nodes| ==> Dropped(c, p) == 0 || Dropped(c, p) < c.nodes[p].lastApplied
  }

  ghost predicate SysInv(s: System) {
    WellSized(s) && History(s) && VotersKept(s) && NodesOk(s) && FlightsOk(s) && StartedOk(s)
  }
}
