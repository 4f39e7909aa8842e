/** The replicas that run: each has dropped some entries. Every event of the cluster is the handlers' own step
    on them, and the messages are the ones they send, so what is proved about the cluster is about them. */
module CompactingCluster {
  import opened RaftTypes
  import opened RaftSteps
  import opened Cluster
  import opened ClusterProof
  import opened Exchanges
  import opened ExchangeProof
  import opened Safety
  import Compaction

  // Replica p as it runs, without the entries it dropped.
  function Real(s: State, p: nat): Node
    requires p < |s.nodes| && Dropped(s, p) <= |s.nodes[p].logs|
  {
    Compressed(s.nodes[p], Dropped(s, p))
  }

  // Replica c alone changes, to nd.
  ghost predicate Only(s: State, s': State, c: nat, nd: Node) {
    && c < |s.nodes| == |s'.nodes| && DroppedOk(s) && DroppedOk(s') && Real(s', c) == nd
    && forall p: nat :: p < |s.nodes| && p != c ==> Real(s', p) == Real(s, p)
  }

  // Replica c alone changes, and sends nothing.
  ghost predicate Quiet(s: State, s': State, c: nat, nd: Node) {
    && Only(s, s', c, nd) && s'.voteReqs == s.voteReqs && s'.voteReps == s.voteReps
    && s'.appends == s.appends && s'.appendReps == s.appendReps
  }

  // What the handler that an event stands for does on the replica that runs.
  ghost predicate RealStep(s: State, e: Event, s': State)
    requires |s.nodes| == |s.rounds| == |s.heard| && DroppedOk(s) && Enabled(s, e)
  {
    match e
    case Timeout(c) => Quiet(s, s', c, BeginElection(Real(s, c), c))
    case CallVote(c) =>
      && Only(s, s', c, Real(s, c))
      && s'.voteReqs == s.voteReqs + {VoteMsg(s.rounds[c], BuildVoteRequest(Real(s, c), c))}
    case HandleVote(v, m) =>
      && Only(s, s', v, ReplyVote(Real(s, v), m.req).0)
      && s'.voteReps == s.voteReps + {VoteReply(m, v, ReplyVote(Real(s, v), m.req).1, s.nodes[v].logs)}
    case TakeVote(r) =>
      Quiet(s, s', r.msg.req.candidateId, OnVoteResponse(Real(s, r.msg.req.candidateId), r.resp))
    case Finish(c) => WinsElection(Real(s, c)) && Quiet(s, s', c, FinishElection(Real(s, c)))
    case StartCmd(c, cmd) => Quiet(s, s', c, Start(Real(s, c), cmd).0)
    case SendAppend(c, p) =>
      && Only(s, s', c, Real(s, c)) && CanBuildAppend(Real(s, c), p)
      && s'.appends == s.appends + {AppendMsg(c, p, BuildAppend(Real(s, c), c, p), s.nodes[c].logs)}
    case HandleAppend(m) =>
      && Only(s, s', m.to, ReplyAppend(Real(s, m.to), m.req).0)
      && s'.appendReps == s.appendReps + {(m, ReplyAppend(Real(s, m.to), m.req).1)}
    case TakeAppend(m, resp) =>
      && CanTakeResponse(Real(s, m.from), m.from, m.to, m.req, resp)
      && Quiet(s, s', m.from, OnAppendResponse(Real(s, m.from), m.from, m.to, m.req, resp))
    case HandUp(c) =>
      && CanApply(Real(s, c)) && Handed(Real(s, c)) == Handed(s.nodes[c])
      && Quiet(s, s', c, AfterApply(Real(s, c)))
    case Snap(c, i) =>
      CanCompact(Real(s, c), i) && Quiet(s, s', c, Compact(Real(s, c), i))
  }

  lemma OneChanges(s: State, s': State, c: nat, nd: Node)
    requires c < |s.nodes| == |s'.nodes| && DroppedOk(s) && DroppedOk(s')
    requires s'.nodes == s.nodes[c := s'.nodes[c]] && Real(s', c) == nd
    requires forall p: nat :: p != c ==> Dropped(s', p) == Dropped(s, p)
    ensures Only(s, s', c, nd)
  {
  }

  // What holds of the state before each event.
  ghost predicate Before(s: State, e: Event) {
    && |s.nodes| == |s.rounds| == |s.heard| && DroppedOk(s) && Enabled(s, e) && DroppedOk(Apply(s, e))
    && forall p: nat :: p < |s.nodes| ==> Full(s.nodes[p])
  }

  lemma RealTimeout(s: State, c: nat)
    requires Before(s, Timeout(c))
    ensures RealStep(s, Timeout(c), Apply(s, Timeout(c)))
  {
    OneChanges(s, Apply(s, Timeout(c)), c, BeginElection(Real(s, c), c));
  }

  lemma RealCallVote(s: State, c: nat)
    requires Before(s, CallVote(c))
    ensures RealStep(s, CallVote(c), Apply(s, CallVote(c)))
  {
    Compaction.ElectionCommutes(s.nodes[c], Dropped(s, c), c);
    OneChanges(s, Apply(s, CallVote(c)), c, Real(s, c));
  }

  lemma RealHandleVote(s: State, v: nat, m: VoteMsg)
    requires Before(s, HandleVote(v, m))
    ensures RealStep(s, HandleVote(v, m), Apply(s, HandleVote(v, m)))
  {
    Compaction.ReplyVoteAtIs(s.nodes[v], Dropped(s, v), m.req);
    OneChanges(s, Apply(s, HandleVote(v, m)), v, ReplyVote(Real(s, v), m.req).0);
  }

  lemma RealTakeVote(s: State, r: VoteReply)
    requires Before(s, TakeVote(r))
    ensures RealStep(s, TakeVote(r), Apply(s, TakeVote(r)))
  {
    var c := r.msg.req.candidateId;
    OneChanges(s, Apply(s, TakeVote(r)), c, OnVoteResponse(Real(s, c), r.resp));
  }

  lemma RealFinish(s: State, c: nat)
    requires Before(s, Finish(c))
    ensures RealStep(s, Finish(c), Apply(s, Finish(c)))
  {
    Compaction.ElectionCommutes(s.nodes[c], Dropped(s, c), c);
    OneChanges(s, Apply(s, Finish(c)), c, FinishElection(Real(s, c)));
  }

  lemma RealSendAppend(s: State, c: nat, p: nat)
    requires Before(s, SendAppend(c, p))
    ensures RealStep(s, SendAppend(c, p), Apply(s, SendAppend(c, p)))
  {
    Compaction.CompressedReads(s.nodes[c], Dropped(s, c));
    Compaction.BuildAppendCommutes(s.nodes[c], Dropped(s, c), c, p);
    OneChanges(s, Apply(s, SendAppend(c, p)), c, Real(s, c));
  }

  lemma RealHandleAppend(s: State, m: AppendMsg)
    requires Before(s, HandleAppend(m))
    ensures RealStep(s, HandleAppend(m), Apply(s, HandleAppend(m)))
  {
    Compaction.ReplyAppendAtIs(s.nodes[m.to], Dropped(s, m.to), m.req);
    OneChanges(s, Apply(s, HandleAppend(m)), m.to, ReplyAppend(Real(s, m.to), m.req).0);
  }

  lemma RealTakeAppend(s: State, m: AppendMsg, resp: AppendResponse)
    requires Before(s, TakeAppend(m, resp))
    ensures RealStep(s, TakeAppend(m, resp), Apply(s, TakeAppend(m, resp)))
  {
    Compaction.OnAppendResponseAtIs(s.nodes[m.from], Dropped(s, m.from), m.from, m.to, m.req, resp);
    OneChanges(s, Apply(s, TakeAppend(m, resp)), m.from,
               OnAppendResponse(Real(s, m.from), m.from, m.to, m.req, resp));
  }

  lemma RealStart(s: State, c: nat, cmd: string)
    requires Before(s, StartCmd(c, cmd))
    ensures RealStep(s, StartCmd(c, cmd), Apply(s, StartCmd(c, cmd)))
  {
    Compaction.StartCommutes(s.nodes[c], Dropped(s, c), cmd);
    OneChanges(s, Apply(s, StartCmd(c, cmd)), c, Start(Real(s, c), cmd).0);
  }

  lemma RealHandUp(s: State, c: nat)
    requires Before(s, HandUp(c))
    ensures RealStep(s, HandUp(c), Apply(s, HandUp(c)))
  {
    Compaction.ApplyCommutes(s.nodes[c], Dropped(s, c));
    OneChanges(s, Apply(s, HandUp(c)), c, AfterApply(Real(s, c)));
  }

  lemma RealSnap(s: State, c: nat, i: nat)
    requires Before(s, Snap(c, i))
    ensures RealStep(s, Snap(c, i), Apply(s, Snap(c, i)))
  {
    Compaction.CompactDropsPrefix(s.nodes[c], Dropped(s, c), i);
    OneChanges(s, Apply(s, Snap(c, i)), c, Compact(Real(s, c), i));
  }

  // Every event is the handler's step on the replica that runs, snapshots and requests from below them
  // included.
  lemma {:induction false} EventIsRealStep(s: State, e: Event)
    requires Inv(s) && DroppedOk(s) && Enabled(s, e)
    ensures RealStep(s, e, Apply(s, e))
  {
    KeepDropped(s, e);
    forall p: nat | p < |s.nodes| ensures Full(s.nodes[p]) { assert NodeOk(s.nodes[p], |s.nodes|, s.termLog); }
    match e
    case Timeout(c) => RealTimeout(s, c);
    case CallVote(c) => RealCallVote(s, c);
    case HandleVote(v, m) => RealHandleVote(s, v, m);
    case TakeVote(r) => RealTakeVote(s, r);
    case Finish(c) => RealFinish(s, c);
    case StartCmd(c, cmd) => RealStart(s, c, cmd);
    case SendAppend(c, p) => RealSendAppend(s, c, p);
    case HandleAppend(m) => RealHandleAppend(s, m);
    case TakeAppend(m, resp) => RealTakeAppend(s, m, resp);
    case HandUp(c) => RealHandUp(s, c);
    case Snap(c, i) => RealSnap(s, c, i);
  }

  // ---------- over runs ----------

  // Each step of a run is some handler's step on the replicas that run.
  lemma {:induction false} RunIsReal(run: seq<State>, n: nat, i: nat) returns (e: Event)
    requires IsRun(run, n) && 0 < i < |run|
    ensures |run[i - 1].nodes| == |run[i - 1].rounds| == |run[i - 1].heard| && DroppedOk(run[i - 1])
    ensures Enabled(run[i - 1], e) && RealStep(run[i - 1], e, run[i])
  {
    RunKeepsInv(run, n, i - 1);
    RunKeepsDropped(run, n, i - 1);
    assert Next(run[i - 1], run[i]);
    e :| Enabled(run[i - 1], e) && run[i] == Apply(run[i - 1], e);
    EventIsRealStep(run[i - 1], e);
  }

  // The index ranges of the handlers hold on the replicas that run. A leader whose next index for a peer is
  // among the entries it dropped sends a snapshot instead of building a request.
  lemma {:induction false} RealAccessesInBounds(run: seq<System>, n: nat, i: nat, p: nat)
    requires IsSystemRun(run, n) && i < |run| && p < |run[i].c.nodes|
    ensures DroppedOk(run[i].c) && CanApply(Real(run[i].c, p))
    ensures Real(run[i].c, p).role == Leader ==>
      forall q: nat :: q < |run[i].c.nodes| ==>
        q < |Real(run[i].c, p).nextIndex|
        && (Real(run[i].c, p).nextIndex[q] > Dropped(run[i].c, p) ==> CanBuildAppend(Real(run[i].c, p), q))
    ensures forall q: nat :: (p, q) in run[i].flights && run[i].flights[(p, q)].reply.Some? ==>
      var f := run[i].flights[(p, q)]; CanTakeResponse(Real(run[i].c, p), p, q, f.am.req, f.reply.value)
  {
    SystemRunOk(run, n, i);
    AccessesInBounds(run, n, i, p);
    var c := run[i].c;
    assert NodeOk(c.nodes[p], |c.nodes|, c.termLog);
    Compaction.CompressedReads(c.nodes[p], Dropped(c, p));
    if c.nodes[p].role == Leader {
      forall q: nat | q < |c.nodes|
        ensures q < |Real(c, p).nextIndex|
        ensures Real(c, p).nextIndex[q] > Dropped(c, p) ==> CanBuildAppend(Real(c, p), q)
      {
        assert CanBuildAppend(c.nodes[p], q);
      }
    }
    forall q: nat | (p, q) in run[i].flights && run[i].flights[(p, q)].reply.Some?
      ensures var f := run[i].flights[(p, q)]; CanTakeResponse(Real(c, p), p, q, f.am.req, f.reply.value)
    {
      var f := run[i].flights[(p, q)];
      Compaction.TakesCompressed(c.nodes[p], Dropped(c, p), p, q, f.am.req, f.reply.value);
    }
  }

  // Leader completeness on the replicas that run: a leader of a later term reaches as far as anything that
  // replica p counts as committed, and every committed entry that both still hold is the same.
  lemma {:induction false} RealLeaderCompleteness(run: seq<System>, n: nat, i: nat, j: nat, p: nat, q: nat)
    requires IsSystemRun(run, n) && i < |run| && j < |run|
    requires p < |run[i].c.nodes| && q < |run[j].c.nodes|
    requires run[j].c.nodes[q].role == Leader && run[j].c.nodes[q].curTerm > run[i].c.nodes[p].curTerm
    ensures DroppedOk(run[i].c) && DroppedOk(run[j].c)
    ensures var a, b := Real(run[i].c, p), Real(run[j].c, q);
            && a.commitIndex <= b.LastIndex()
            && forall k :: a.Holds(k) && b.Holds(k) && k <= a.commitIndex ==> a.logs[a.Slot(k)] == b.logs[b.Slot(k)]
  {
    SystemRunOk(run, n, i);
    SystemRunOk(run, n, j);
    LeaderCompleteness(run, n, i, j, p, q);
    var c, d := run[i].c, run[j].c;
    assert NodeOk(c.nodes[p], |c.nodes|, c.termLog) && NodeOk(d.nodes[q], |d.nodes|, d.termLog);
    HeldAlike(c.nodes[p], Dropped(c, p), d.nodes[q], Dropped(d, q));
  }

  lemma HeldAlike(f: Node, k: nat, g: Node, m: nat)
    requires Full(f) && Full(g) && k <= |f.logs| && m <= |g.logs|
    requires 0 <= f.commitIndex <= |f.logs| && f.logs[..f.commitIndex] <= g.logs
    ensures var a, b := Compressed(f, k), Compressed(g, m);
            && a.commitIndex <= b.LastIndex()
            && forall i :: a.Holds(i) && b.Holds(i) && i <= a.commitIndex ==> a.logs[a.Slot(i)] == b.logs[b.Slot(i)]
  {
    var a, b := Compressed(f, k), Compressed(g, m);
    forall i | a.Holds(i) && b.Holds(i) && i <= a.commitIndex ensures a.logs[a.Slot(i)] == b.logs[b.Slot(i)] {
      assert f.logs[i - 1] == f.logs[..f.commitIndex][i - 1] == g.logs[i - 1];
    }
  }

  // No vote is special: in every reachable state a replica votes without the entries it dropped exactly as it
  // would with them, for every request, because the key-value layer's late labels leave it an entry to look at.
  lemma {:induction false} VotesAreOnHistory(run: seq<System>, n: nat, i: nat, v: nat, req: VoteRequest)
    requires IsSystemRun(run, n) && i < |run| && v < |run[i].c.nodes|
    ensures DroppedOk(run[i].c)
    ensures Real(run[i].c, v).logs == [] ==> run[i].c.nodes[v].logs == []
    ensures VotesOnHistory(run[i].c.nodes[v], Dropped(run[i].c, v), req)
    ensures ReplyVote(Real(run[i].c, v), req)
            == (Compressed(ReplyVote(run[i].c.nodes[v], req).0, Dropped(run[i].c, v)),
                ReplyVote(run[i].c.nodes[v], req).1)
  {
    SystemRunOk(run, n, i);
    var c := run[i].c;
    assert NodeOk(c.nodes[v], |c.nodes|, c.termLog) && NodeCommitOk(run[i], v);
    VoteIsOnHistory(run[i], v, req);
    Compaction.ReplyVoteCommutes(c.nodes[v], Dropped(c, v), req);
  }
}
