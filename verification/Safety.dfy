/** What the disciplined cluster guarantees over whole runs. */
module Safety {
  import opened RaftTypes
  import opened RaftSteps
  import opened Cluster
  import opened ClusterProof
  import opened Exchanges
  import opened CommitProof
  import opened ExchangeProof
  import Quorum

  ghost predicate NextSystem(s: System, s': System) {
    WellSized(s) && exists a :: CanAct(s, a) && s' == Do(s, a)
  }

  ghost predicate IsSystemRun(run: seq<System>, n: nat) {
    && n > 0 && |run| > 0 && run[0] == InitialSystem(n)
    && (forall i :: 0 < i < |run| ==> NextSystem(run[i - 1], run[i]))
  }

  lemma InitialSystemOk(n: nat)
    requires n > 0
    ensures SysInv(InitialSystem(n))
  {
    InitialOk(n);
  }

  ghost predicate DropsOk(c: State) {
    DroppedOk(c) && DroppedLate(c)
  }

  lemma KeepDropsOk(s: System, a: Act)
    requires WellSized(s) && NodesOk(s) && DropsOk(s.c) && CanAct(s, a)
    ensures DropsOk(Do(s, a).c)
  {
    if EventOf(s, a).Some? {
      KeepDropped(s.c, EventOf(s, a).value);
      KeepLate(s, a, Apply(s.c, EventOf(s, a).value));
      assert Do(s, a).c == Apply(s.c, EventOf(s, a).value);
    }
  }

  // A label is below the index of an entry already handed up.
  lemma KeepLate(s: System, a: Act, z: State)
    requires WellSized(s) && NodesOk(s) && DroppedLate(s.c) && CanAct(s, a)
    requires EventOf(s, a).Some? && z == Apply(s.c, EventOf(s, a).value) && |z.nodes| == |s.c.nodes|
    ensures DroppedLate(z)
  {
    forall p: nat | p < |z.nodes| ensures Dropped(z, p) == 0 || Dropped(z, p) < z.nodes[p].lastApplied {
      LabelMoves(s.c, EventOf(s, a).value, p);
      assert NodeCommitOk(s, p);
    }
  }

  lemma KeepSysInv(s: System, a: Act)
    requires SysInv(s) && DropsOk(s.c) && CanAct(s, a)
    ensures SysInv(Do(s, a)) && DropsOk(Do(s, a).c)
  {
    KeepDropsOk(s, a);
    match a
    case Vote(e) => KeepVote(s, e);
    case Submit(p, cmd) => KeepSubmit(s, p, cmd);
    case Send(l, p) => KeepSend(s, l, p);
    case Deliver(l, p) => KeepDeliver(s, l, p);
    case Receive(l, p) => KeepReceive(s, l, p);
    case Lose(l, p) => KeepLose(s, l, p);
    case Hand(p) => KeepHand(s, p);
    case Drop(p, i) => KeepDrop(s, p, i);
  }

  // Commits stay on record; elections and leader logs are never rewritten.
  ghost predicate Later(s: System, s': System) {
    Extends(s.c, s'.c) && s.commits <= s'.commits
  }

  lemma StepIsLater(s: System, a: Act)
    requires SysInv(s) && CanAct(s, a)
    ensures Later(s, Do(s, a))
  {
    if EventOf(s, a).Some? {
      StepExtends(s.c, EventOf(s, a).value);
    }
  }

  lemma NextIsLater(s: System, s': System)
    requires SysInv(s) && NextSystem(s, s')
    ensures Later(s, s')
  {
    var a :| CanAct(s, a) && s' == Do(s, a);
    StepIsLater(s, a);
  }

  // Every step of the disciplined cluster is a step of the cluster with arbitrary delivery, or none.
  lemma DisciplineRefines(s: System, a: Act)
    requires SysInv(s) && CanAct(s, a)
    ensures Do(s, a).c == s.c || Next(s.c, Do(s, a).c)
  {
    if EventOf(s, a).Some? {
      assert Enabled(s.c, EventOf(s, a).value);
    }
  }

  lemma {:induction false} SystemRunOk(run: seq<System>, n: nat, i: nat)
    requires IsSystemRun(run, n) && i < |run|
    ensures SysInv(run[i]) && DropsOk(run[i].c)
  {
    if i == 0 {
      InitialSystemOk(n);
    } else {
      SystemRunOk(run, n, i - 1);
      assert NextSystem(run[i - 1], run[i]);
      var a :| CanAct(run[i - 1], a) && run[i] == Do(run[i - 1], a);
      KeepSysInv(run[i - 1], a);
    }
  }

  lemma {:induction false} SystemRunLater(run: seq<System>, n: nat, i: nat, j: nat)
    requires IsSystemRun(run, n) && i <= j < |run|
    ensures Later(run[i], run[j])
  {
    forall k | i < k <= j ensures Later(run[k - 1], run[k]) { RunStepIsLater(run, n, k); }
    ChainIsLater(run, i, j);
  }

  lemma RunStepIsLater(run: seq<System>, n: nat, j: nat)
    requires IsSystemRun(run, n) && 0 < j < |run|
    ensures Later(run[j - 1], run[j])
  {
    SystemRunOk(run, n, j - 1);
    NextIsLater(run[j - 1], run[j]);
  }

  lemma {:induction false} ChainIsLater(states: seq<System>, i: nat, j: nat)
    requires i <= j < |states| && forall k :: i < k <= j ==> Later(states[k - 1], states[k])
    ensures Later(states[i], states[j])
    decreases j
  {
    if i < j { ChainIsLater(states, i, j - 1); }
  }

  // ---------- committed logs form one chain ----------

  ghost predicate Comparable(a: Log, b: Log) { a <= b || b <= a }

  lemma CommitsAreComparable(s: System, t: int, m: int, u: int, k: int)
    requires CommitOk(s, t, m) && CommitOk(s, u, k) && (t, m) in s.commits && t <= u
    requires u in s.c.elect && CommitsIn(s, u) && TermLogsOk(s.c)
    ensures Comparable(Written(s.c, t, m), Written(s.c, u, k))
  {
    if t < u {
      assert TermLogOk(s.c, u);
      assert Written(s.c, t, m) <= s.c.termLog[u];
    }
  }

  // `log` is the beginning of something committed.
  ghost predicate OfCommits(z: System, log: Log) {
    log != [] ==> exists t, m :: (t, m) in z.commits && |log| <= m && t in z.c.termLog && m <= |z.c.termLog[t]|
                                 && log == Written(z.c, t, |log|)
  }

  // A log prefix that one state knows to be committed, seen from a later state.
  lemma CommittedLater(s: System, z: System, k: int, bound: int, log: Log)
    requires Later(s, z) && Committed(s, k, bound, log)
    ensures OfCommits(z, log[..k])
  {
    if k > 0 {
      var t, m :| t <= bound && Covers(s, k, t, m, log);
      assert Written(z.c, t, k) == Written(s.c, t, k);
    }
  }

  lemma OfCommitsComparable(z: System, a: Log, b: Log)
    requires History(z) && OfCommits(z, a) && OfCommits(z, b)
    ensures Comparable(a, b)
  {
    if a != [] && b != [] {
      var t, m :| (t, m) in z.commits && |a| <= m && t in z.c.termLog && m <= |z.c.termLog[t]|
                  && a == Written(z.c, t, |a|);
      var u, k :| (u, k) in z.commits && |b| <= k && u in z.c.termLog && k <= |z.c.termLog[u]|
                  && b == Written(z.c, u, |b|);
      assert CommitOk(z, t, m) && CommitOk(z, u, k);
      if t <= u { BeginningsComparable(z, a, t, m, b, u, k); } else { BeginningsComparable(z, b, u, k, a, t, m); }
    }
  }

  lemma BeginningsComparable(z: System, a: Log, t: int, m: int, b: Log, u: int, k: int)
    requires History(z) && (t, m) in z.commits && CommitOk(z, t, m) && CommitOk(z, u, k) && t <= u
    requires |a| <= m && a == Written(z.c, t, |a|) && |b| <= k && b == Written(z.c, u, |b|)
    ensures Comparable(a, b)
  {
    CommitsReach(z, u);
    CommitsAreComparable(z, t, m, u, k);
    PrefixesComparable(Written(z.c, t, m), Written(z.c, u, k), a, b);
  }

  lemma PrefixesComparable(x: Log, y: Log, a: Log, b: Log)
    requires Comparable(x, y) && a <= x && b <= y
    ensures Comparable(a, b)
  {
  }

  lemma NodeCommitted(s: System, p: nat)
    requires WellSized(s) && p < |s.c.nodes| && NodeCommitOk(s, p)
    ensures Committed(s, s.c.nodes[p].commitIndex, s.c.nodes[p].curTerm, s.c.nodes[p].logs)
  {
  }

  // ---------- theorems ----------

  // Leader completeness: what any replica counts as committed at one moment of a run is in the log of
  // every leader of a later term, at the same indexes, whichever of the two moments comes first.
  lemma {:induction false} LeaderCompleteness(run: seq<System>, n: nat, i: nat, j: nat, p: nat, q: nat)
    requires IsSystemRun(run, n) && i < |run| && j < |run|
    requires p < |run[i].c.nodes| && q < |run[j].c.nodes|
    requires run[j].c.nodes[q].role == Leader && run[j].c.nodes[q].curTerm > run[i].c.nodes[p].curTerm
    ensures 0 <= run[i].c.nodes[p].commitIndex <= |run[i].c.nodes[p].logs|
    ensures run[i].c.nodes[p].logs[..run[i].c.nodes[p].commitIndex] <= run[j].c.nodes[q].logs
  {
    var k := if i <= j then j else i;
    SystemRunOk(run, n, i);
    SystemRunOk(run, n, j);
    SystemRunLater(run, n, i, k);
    SystemRunLater(run, n, j, k);
    SystemRunOk(run, n, k);
    LeaderHasCommitted(run[i], run[j], run[k], p, q);
  }

  lemma LeaderHasCommitted(s: System, w: System, z: System, p: nat, q: nat)
    requires SysInv(s) && SysInv(w) && History(z) && Later(s, z) && Later(w, z)
    requires p < |s.c.nodes| && q < |w.c.nodes|
    requires w.c.nodes[q].role == Leader && w.c.nodes[q].curTerm > s.c.nodes[p].curTerm
    ensures 0 <= s.c.nodes[p].commitIndex <= |s.c.nodes[p].logs|
    ensures s.c.nodes[p].logs[..s.c.nodes[p].commitIndex] <= w.c.nodes[q].logs
  {
    assert NodeCommitOk(s, p);
    NodeCommitted(s, p);
    LeaderLog(w.c, q);
    CommitsReach(z, w.c.nodes[q].curTerm);
    var nd := s.c.nodes[p];
    CommittedIsCarried(s, z, nd.commitIndex, nd.curTerm, nd.logs, w.c.nodes[q].curTerm);
  }

  lemma CommittedIsCarried(s: System, z: System, k: int, bound: int, log: Log, u: int)
    requires Later(s, z) && Committed(s, k, bound, log) && u in z.c.elect && CommitsIn(z, u) && bound < u
    ensures log[..k] <= z.c.elect[u].init
  {
    if k > 0 {
      var t, m :| t <= bound && Covers(s, k, t, m, log);
      assert Written(z.c, t, k) == Written(s.c, t, k);
      assert Written(z.c, t, k) <= Written(z.c, t, m);
    }
  }

  lemma LeaderLog(c: State, q: nat)
    requires RolesOk(c) && TermLogsOk(c) && q < |c.nodes| && c.nodes[q].role == Leader
    ensures c.nodes[q].curTerm in c.elect && c.elect[c.nodes[q].curTerm].init <= c.nodes[q].logs
    ensures c.nodes[q].curTerm in c.termLog && c.termLog[c.nodes[q].curTerm] == c.nodes[q].logs
  {
    assert RoleOk(c, q) && TermLogOk(c, c.nodes[q].curTerm);
  }

  // State machine safety: what two replicas have handed up, at any two moments, is one sequence.
  lemma {:induction false} StateMachineSafety(run: seq<System>, n: nat, i: nat, j: nat, p: nat, q: nat)
    requires IsSystemRun(run, n) && i < |run| && j < |run|
    requires p < |run[i].c.nodes| == |run[i].handed| && q < |run[j].c.nodes| == |run[j].handed|
    ensures run[i].handed[p] <= run[j].handed[q] || run[j].handed[q] <= run[i].handed[p]
  {
    var k := if i <= j then j else i;
    SystemRunOk(run, n, i);
    SystemRunOk(run, n, j);
    SystemRunLater(run, n, i, k);
    SystemRunLater(run, n, j, k);
    SystemRunOk(run, n, k);
    HandedAreComparable(run[i], run[j], run[k], p, q);
  }

  lemma HandedAreComparable(s: System, w: System, z: System, p: nat, q: nat)
    requires SysInv(s) && SysInv(w) && History(z) && Later(s, z) && Later(w, z)
    requires p < |s.c.nodes| && q < |w.c.nodes|
    ensures s.handed[p] <= w.handed[q] || w.handed[q] <= s.handed[p]
  {
    var a, b := s.c.nodes[p], w.c.nodes[q];
    assert NodeCommitOk(s, p) && NodeCommitOk(w, q);
    NodeCommitted(s, p);
    NodeCommitted(w, q);
    CommittedLater(s, z, a.commitIndex, a.curTerm, a.logs);
    CommittedLater(w, z, b.commitIndex, b.curTerm, b.logs);
    OfCommitsComparable(z, a.logs[..a.commitIndex], b.logs[..b.commitIndex]);
    if a.lastApplied <= b.lastApplied {
      EntriesAgree(a.logs, a.lastApplied, a.commitIndex, b.logs, b.lastApplied, b.commitIndex);
    } else {
      EntriesAgree(b.logs, b.lastApplied, b.commitIndex, a.logs, a.lastApplied, a.commitIndex);
    }
  }

  lemma EntriesAgree(a: Log, i: nat, ia: nat, b: Log, j: nat, jb: nat)
    requires i <= ia <= |a| && j <= jb <= |b| && i <= j && Comparable(a[..ia], b[..jb])
    ensures Entries(a, i) <= Entries(b, j)
  {
    forall k | 0 <= k < i ensures a[k] == b[k] {
      assert a[k] == a[..ia][k] && b[k] == b[..jb][k];
    }
  }

  // The match table never overstates: a follower in the leader's term agrees with it that far.
  lemma MatchTableHolds(run: seq<System>, n: nat, i: nat, l: nat, p: nat)
    requires IsSystemRun(run, n) && i < |run| && l < |run[i].c.nodes| && p < |run[i].c.nodes|
    requires run[i].c.nodes[l].role == Leader && run[i].c.nodes[p].curTerm == run[i].c.nodes[l].curTerm
    ensures p < |run[i].c.nodes[l].matchIndex|
    ensures var m, a, b := run[i].c.nodes[l].matchIndex[p], run[i].c.nodes[p].logs, run[i].c.nodes[l].logs;
            m <= |a| && m <= |b| && forall k :: 0 <= k < m ==> a[k] == b[k]
  {
    SystemRunOk(run, n, i);
    var s := run[i];
    var t, m := s.c.nodes[l].curTerm, s.c.nodes[l].matchIndex[p];
    assert LeaderTableOk(s, l);
    LeaderLog(s.c, l);
    if m > 0 {
      assert AckOk(s, p, t);
      assert KeptAt(s.c, t, m, s.c.nodes[p].logs, t);
    }
  }

  // A server that acknowledged a committed index still holds it, whatever terms it has been through.
  lemma {:induction false} AckedCommitSurvives(run: seq<System>, n: nat, i: nat, t: int, m: int, v: nat)
    requires IsSystemRun(run, n) && i < |run|
    requires (t, m) in run[i].commits && (v, t) in run[i].acks && m <= run[i].acks[(v, t)]
    ensures v < |run[i].c.nodes| && t in run[i].c.termLog && 1 <= m <= |run[i].c.termLog[t]|
    ensures Written(run[i].c, t, m) <= run[i].c.nodes[v].logs
  {
    SystemRunOk(run, n, i);
    var s := run[i];
    assert CommitOk(s, t, m) && AckOk(s, v, t);
    assert KeptAt(s.c, t, m, s.c.nodes[v].logs, s.c.nodes[v].curTerm);
    if Missed(s.c, t, m, s.c.nodes[v].curTerm) {
      var u :| u in s.c.elect && t < u <= s.c.nodes[v].curTerm && !(Written(s.c, t, m) <= s.c.elect[u].init);
      CommitStays(s, t, m, u);
      assert false;
    }
  }

  // The guards on array accesses never stop a step: a leader can always build a request for a peer,
  // take any reply, and every replica can hand up what it has committed.
  lemma {:induction false} AccessesInBounds(run: seq<System>, n: nat, i: nat, p: nat)
    requires IsSystemRun(run, n) && i < |run| && p < |run[i].c.nodes|
    ensures CanApply(run[i].c.nodes[p])
    ensures run[i].c.nodes[p].role == Leader ==>
      forall q: nat :: q < |run[i].c.nodes| ==> CanBuildAppend(run[i].c.nodes[p], q)
    ensures forall q: nat :: (p, q) in run[i].flights && run[i].flights[(p, q)].reply.Some? ==>
      var f := run[i].flights[(p, q)]; CanTakeResponse(run[i].c.nodes[p], p, q, f.am.req, f.reply.value)
  {
    SystemRunOk(run, n, i);
    var s := run[i];
    assert NodeCommitOk(s, p) && LeaderTableOk(s, p) && NodeOk(s.c.nodes[p], |s.c.nodes|, s.c.termLog);
    forall q: nat | (p, q) in s.flights && s.flights[(p, q)].reply.Some?
      ensures CanTakeResponse(s.c.nodes[p], p, q, s.flights[(p, q)].am.req, s.flights[(p, q)].reply.value)
    {
      ReplyCanBeTaken(s, p, q);
    }
  }

  lemma ReplyCanBeTaken(s: System, l: nat, p: nat)
    requires SysInv(s) && (l, p) in s.flights && s.flights[(l, p)].reply.Some? && l < |s.c.nodes|
    ensures CanTakeResponse(s.c.nodes[l], l, p, s.flights[(l, p)].am.req, s.flights[(l, p)].reply.value)
  {
    var nd, f := s.c.nodes[l], s.flights[(l, p)];
    assert FlightOk(s, l, p) && AppendOk(s.c, f.am) && NodeOk(nd, |s.c.nodes|, s.c.termLog);
    if nd.curTerm == f.am.req.term && f.reply.value.term <= nd.curTerm {
      LeadsItsTerm(s, l, p);
      if f.reply.value.success { MatchesInLog(s, l, p); }
    }
  }

  lemma MatchesInLog(s: System, l: nat, p: nat)
    requires AcksOk(s) && (l, p) in s.flights && s.flights[(l, p)].reply.Some? && l < |s.c.nodes| && l != p
    requires FlightOk(s, l, p) && LeaderTableOk(s, l) && AppendOk(s.c, s.flights[(l, p)].am)
    requires s.c.nodes[l].role == Leader && s.c.nodes[l].curTerm in s.c.termLog && s.c.nodes[l].lastIncludedIndex == 0
    requires s.c.termLog[s.c.nodes[l].curTerm] == s.c.nodes[l].logs && |s.c.nodes| > 0
    requires s.c.nodes[l].curTerm == s.flights[(l, p)].am.req.term && s.flights[(l, p)].am.full <= s.c.nodes[l].logs
    ensures CanAdvanceCommit(s.c.nodes[l], MatchAfterAppend(s.c.nodes[l], l, p, |s.flights[(l, p)].am.req.entries|))
  {
    var nd := s.c.nodes[l];
    var matches := MatchAfterAppend(nd, l, p, |s.flights[(l, p)].am.req.entries|);
    forall q: nat | q < |matches| ensures matches[q] <= |nd.logs| {
      if (q, nd.curTerm) in s.acks { assert AckOk(s, q, nd.curTerm); }
    }
    MajorityInRange(matches, |nd.logs|);
  }

  lemma MajorityInRange(matches: seq<int>, top: nat)
    requires |matches| > 0 && forall q: nat :: q < |matches| ==> matches[q] <= top
    ensures Quorum.MajorityIndex(matches) <= top
  {
    var m := Quorum.MajorityIndex(matches);
    Quorum.MajorityIndexIsExact(matches, m);
    assert Quorum.AtLeast(matches, m) != {};
    var q :| q in Quorum.AtLeast(matches, m);
  }

  // Right waiter: the entry handed up at the index after the one `Start` returned, with the same term,
  // carries the command that was given to `Start`.
  lemma {:induction false} StartedCommandIsHandedUp(run: seq<System>, n: nat, i: nat, j: nat, p: nat, t: int, idx: int)
    requires IsSystemRun(run, n) && i <= j < |run| && p < |run[j].handed|
    requires (t, idx) in run[i].started
    requires 0 <= idx < |run[j].handed[p]| && run[j].handed[p][idx].cmdTerm == t
    ensures run[j].handed[p][idx].cmd == run[i].started[(t, idx)]
  {
    SystemRunOk(run, n, i);
    SystemRunOk(run, n, j);
    SystemRunLater(run, n, i, j);
    StartedIsHanded(run[i], run[j], p, t, idx);
  }

  lemma StartedIsHanded(s: System, z: System, p: nat, t: int, idx: int)
    requires StartedOk(s) && Later(s, z) && WellSized(z) && Shape(z.c) && NodesOk(z) && p < |z.handed|
    requires (t, idx) in s.started
    requires 0 <= idx < |z.handed[p]| && z.handed[p][idx].cmdTerm == t
    ensures z.handed[p][idx].cmd == s.started[(t, idx)]
  {
    var log := z.c.nodes[p].logs;
    assert NodeCommitOk(z, p) && NodeOk(z.c.nodes[p], |z.c.nodes|, z.c.termLog);
    assert AgreesAt(log, idx, z.c.termLog);
    assert log[idx] == log[..idx + 1][idx] == z.c.termLog[t][idx];
  }
}
