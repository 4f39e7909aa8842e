/** From a command given to `Start` to the answer of a waiting request, across the whole cluster. */
module EndToEnd {
  import opened RaftTypes
  import opened RaftSteps
  import opened Cluster
  import opened ClusterProof
  import opened Exchanges
  import opened ExchangeProof
  import opened Safety
  import Codec
  import KvMachine
  import KvServer
  import CompactingCluster
  import Handling

  // Every entry of every leader's log was accepted by `Start` at its index, in its term.
  ghost predicate EntryStarted(s: System, t: int, i: nat)
    requires t in s.c.termLog && i < |s.c.termLog[t]|
  {
    var e := s.c.termLog[t][i];
    (e.term, i) in s.started && s.started[(e.term, i)] == e.cmd
  }

  ghost predicate EntriesStarted(s: System) {
    forall t, i: nat :: t in s.c.termLog && i < |s.c.termLog[t]| ==> EntryStarted(s, t, i)
  }

  // Accepted commands stay on record.
  ghost predicate Remembers(s: System, s': System) {
    forall x :: x in s.started ==> x in s'.started && s'.started[x] == s.started[x]
  }

  lemma KeepEntriesStarted(s: System, a: Act)
    requires SysInv(s) && EntriesStarted(s) && CanAct(s, a)
    ensures EntriesStarted(Do(s, a)) && Remembers(s, Do(s, a))
  {
    if a.Vote? && a.e.Finish? {
      WonLogStarted(s, a.e.c);
    } else if a.Submit? {
      SubmitKeepsStarted(s, a.p, a.cmd);
    } else {
      OthersKeepTermLogs(s.c, EventOf(s, a));
      SameRecord(s, Do(s, a));
    }
  }

  // Only winning and accepting a command write leader logs.
  lemma OthersKeepTermLogs(c: State, e: Option<Event>)
    requires |c.nodes| == |c.rounds| == |c.heard| && (e.Some? ==> Enabled(c, e.value))
    ensures e.Some? && !e.value.StartCmd? && !e.value.Finish? ==> Apply(c, e.value).termLog == c.termLog
  {
  }

  lemma SameRecord(s: System, s': System)
    requires EntriesStarted(s) && s'.c.termLog == s.c.termLog && s'.started == s.started
    ensures EntriesStarted(s')
  {
    forall t, i: nat | t in s'.c.termLog && i < |s'.c.termLog[t]| ensures EntryStarted(s', t, i) {
      assert EntryStarted(s, t, i);
    }
  }

  // A new leader's log is made of entries that earlier leaders wrote.
  lemma WonLogStarted(s: System, c: nat)
    requires SysInv(s) && EntriesStarted(s) && CanAct(s, Vote(Finish(c)))
    ensures EntriesStarted(Do(s, Vote(Finish(c)))) && Do(s, Vote(Finish(c))).started == s.started
  {
    var s' := Do(s, Vote(Finish(c)));
    var log := s.c.nodes[c].logs;
    assert NodeOk(s.c.nodes[c], |s.c.nodes|, s.c.termLog);
    forall t, i: nat | t in s'.c.termLog && i < |s'.c.termLog[t]| ensures EntryStarted(s', t, i) {
      if t == s.c.nodes[c].curTerm + 1 {
        assert AgreesAt(log, i, s.c.termLog);
        assert log[i] == log[..i + 1][i] == s.c.termLog[log[i].term][i];
        assert EntryStarted(s, log[i].term, i);
      } else {
        assert EntryStarted(s, t, i);
      }
    }
  }

  lemma SubmitKeepsStarted(s: System, p: nat, cmd: string)
    requires SysInv(s) && EntriesStarted(s) && CanAct(s, Submit(p, cmd))
    ensures EntriesStarted(Do(s, Submit(p, cmd))) && Remembers(s, Do(s, Submit(p, cmd)))
  {
    var s' := Do(s, Submit(p, cmd));
    var nd := s.c.nodes[p];
    if nd.role == Leader {
      assert RoleOk(s.c, p) && NodeOk(nd, |s.c.nodes|, s.c.termLog);
      SubmittedRecord(s, s', nd.curTerm, nd.logs, cmd);
    } else {
      assert s'.c.termLog == s.c.termLog;
      forall t, i: nat | t in s'.c.termLog && i < |s'.c.termLog[t]| ensures EntryStarted(s', t, i) {
        assert EntryStarted(s, t, i);
      }
    }
  }

  // `Start` appends at an index nobody used in this term.
  lemma SubmittedRecord(s: System, s': System, t: int, log: Log, cmd: string)
    requires StartedOk(s) && EntriesStarted(s) && t in s.c.termLog && s.c.termLog[t] == log
    requires s'.c.termLog == s.c.termLog[t := log + [LogEntry(cmd, t)]]
    requires s'.started == s.started[(t, |log|) := cmd]
    ensures EntriesStarted(s') && Remembers(s, s')
  {
    assert (t, |log|) !in s.started;
    forall u, i: nat | u in s'.c.termLog && i < |s'.c.termLog[u]| ensures EntryStarted(s', u, i) {
      if u != t || i < |log| { assert EntryStarted(s, u, i); }
    }
  }

  lemma {:induction false} RunEntriesStarted(run: seq<System>, n: nat, i: nat)
    requires IsSystemRun(run, n) && i < |run|
    ensures EntriesStarted(run[i])
  {
    if i > 0 {
      RunEntriesStarted(run, n, i - 1);
      SystemRunOk(run, n, i - 1);
      NextKeepsEntries(run[i - 1], run[i]);
    }
  }

  lemma NextKeepsEntries(s: System, s': System)
    requires SysInv(s) && EntriesStarted(s) && NextSystem(s, s')
    ensures EntriesStarted(s')
  {
    var a :| CanAct(s, a) && s' == Do(s, a);
    KeepEntriesStarted(s, a);
  }

  // Validity: whatever is handed up was accepted by `Start` in that term, and lands one index after the
  // index `Start` returned.
  lemma {:induction false} HandedUpWasStarted(run: seq<System>, n: nat, j: nat, p: nat, k: nat)
    requires IsSystemRun(run, n) && j < |run| && p < |run[j].handed| && k < |run[j].handed[p]|
    ensures run[j].handed[p][k].cmdIndex == k + 1
    ensures (run[j].handed[p][k].cmdTerm, k) in run[j].started
    ensures run[j].started[(run[j].handed[p][k].cmdTerm, k)] == run[j].handed[p][k].cmd
  {
    SystemRunOk(run, n, j);
    RunEntriesStarted(run, n, j);
    var s := run[j];
    assert NodeCommitOk(s, p) && NodeOk(s.c.nodes[p], |s.c.nodes|, s.c.termLog);
    var log := s.c.nodes[p].logs;
    assert AgreesAt(log, k, s.c.termLog);
    assert log[k] == log[..k + 1][k] == s.c.termLog[log[k].term][k];
    assert EntryStarted(s, log[k].term, k);
  }

  // Every command accepted by `Start` parses.
  ghost predicate CommandsParse(s: System) {
    forall x :: x in s.started ==> Codec.GetOperation(s.started[x]).Some?
  }

  lemma HandedUpParses(run: seq<System>, n: nat, j: nat, p: nat)
    requires IsSystemRun(run, n) && j < |run| && p < |run[j].handed| && CommandsParse(run[j])
    ensures forall m :: m in run[j].handed[p] ==> Codec.GetOperation(m.cmd).Some?
  {
    forall k | 0 <= k < |run[j].handed[p]| ensures Codec.GetOperation(run[j].handed[p][k].cmd).Some? {
      HandedUpWasStarted(run, n, j, p, k);
    }
  }

  // The database and sequence map of a replica that has applied all it was handed.
  ghost function KvOf(msgs: seq<ApplyMsg>): KvMachine.Kv
    requires forall m :: m in msgs ==> Codec.GetOperation(m.cmd).Some?
  {
    KvMachine.Run(KvMachine.EMPTY, KvServer.Operations(msgs))
  }

  // Replicas agree: of any two, at any two moments, the one that has applied more went through the other's
  // state; with equally many entries applied the two machines are equal.
  lemma {:induction false} ReplicasAgree(run: seq<System>, n: nat, i: nat, j: nat, p: nat, q: nat)
    requires IsSystemRun(run, n) && i < |run| && j < |run|
    requires p < |run[i].handed| && q < |run[j].handed| && |run[i].handed[p]| <= |run[j].handed[q]|
    requires CommandsParse(run[i]) && CommandsParse(run[j])
    ensures forall m :: m in run[i].handed[p] + run[j].handed[q] ==> Codec.GetOperation(m.cmd).Some?
    ensures run[i].handed[p] <= run[j].handed[q]
    ensures KvOf(run[j].handed[q])
            == KvMachine.Run(KvOf(run[i].handed[p]), KvServer.Operations(run[j].handed[q])[|run[i].handed[p]|..])
    ensures |run[i].handed[p]| == |run[j].handed[q]| ==> KvOf(run[i].handed[p]) == KvOf(run[j].handed[q])
  {
    HandedUpParses(run, n, i, p);
    HandedUpParses(run, n, j, q);
    SystemRunOk(run, n, i);
    SystemRunOk(run, n, j);
    StateMachineSafety(run, n, i, j, p, q);
    var a, b := run[i].handed[p], run[j].handed[q];
    PrefixRuns(a, b);
  }

  lemma PrefixRuns(a: seq<ApplyMsg>, b: seq<ApplyMsg>)
    requires a <= b && forall m :: m in b ==> Codec.GetOperation(m.cmd).Some?
    ensures forall m :: m in a ==> Codec.GetOperation(m.cmd).Some?
    ensures KvOf(b) == KvMachine.Run(KvOf(a), KvServer.Operations(b)[|a|..])
  {
    forall m | m in a ensures m in b {
      var i :| 0 <= i < |a| && a[i] == m;
      assert b[i] == m;
    }
    var x, y := KvServer.Operations(a), KvServer.Operations(b);
    assert y == x + y[|a|..];
    KvMachine.RunConcat(KvMachine.EMPTY, x, y[|a|..]);
  }

  // The labels that `Drop` takes are those that the key-value layer gives: i is the label of its snapshot after
  // it handled the first i + 1 entries that were handed up, whatever it started from; there is no other.
  lemma {:induction false} LabelsAreLate(run: seq<System>, n: nat, j: nat, p: nat, i: nat, w: KvServer.World)
    requires IsSystemRun(run, n) && j < |run| && p < |run[j].handed| && i < |run[j].handed[p]|
    requires CommandsParse(run[j])
    ensures p < |run[j].c.nodes| && i < run[j].c.nodes[p].lastApplied == |run[j].handed[p]|
    ensures forall x :: x in KvServer.Entries(run[j].handed[p][..i + 1]) ==> KvServer.Parses(x)
    ensures KvServer.Snapshot(KvServer.HandleAll(w, KvServer.Entries(run[j].handed[p][..i + 1]))).1 == i
  {
    SystemRunOk(run, n, j);
    assert NodeCommitOk(run[j], p);
    HandedUpParses(run, n, j, p);
    HandedUpWasStarted(run, n, j, p, i);
    KvServer.SnapshotLabelIsLate(w, run[j].handed[p][..i + 1]);
  }

  // What the waiter under m's index is in `after`, once entry m was handled there, when it was registered for
  // operation o in term t and `before` is everything applied earlier.
  ghost predicate Answered(
    after: KvServer.World, m: ApplyMsg, o: Codec.Operation, t: int, before: seq<Codec.Operation>)
  {
    var idx := m.cmdIndex - 1;
    && idx in after.waiters && after.waiters[idx].ready
    && (after.waiters[idx].leaderWrong <==> m.cmdTerm != t)
    && (!after.waiters[idx].leaderWrong ==>
      && Codec.GetOperation(m.cmd) == Some(o)
      && (o.op == "set" && KvMachine.InStep(before, o) ==>
        (after.waiters[idx].isIgnored <==> KvMachine.Seen(before, o)))
      && (o.op != "get" ==> after.waiters[idx].answer == o.value && !after.waiters[idx].keyWrong)
      && (o.op == "get" && KvMachine.SetsInStep(before) ==>
        (match KvMachine.LastSet(KvMachine.FirstOccurrences(before), o.key)
         case Some(v) => after.waiters[idx].answer == v && !after.waiters[idx].keyWrong
         case None => after.waiters[idx].keyWrong)))
  }

  // The step from s to z in which replica l, given a command, answers ret.
  ghost predicate Answers(s: System, z: System, l: nat, cmd: string, ret: StartRet) {
    && WellSized(s) && CanAct(s, Submit(l, cmd)) && z == Do(s, Submit(l, cmd))
    && DroppedOk(s.c) && ret == Start(CompactingCluster.Real(s.c, l), cmd).1
  }

  // Right waiter, right answer. In some step of the run `Start` accepted operation o with the answer ret, and on
  // some replica, after its first a entries, a request is registered for it under that answer. Whatever other
  // requests come and go while entries a to ret.cmdIndex are handled there, it is woken, with the wrong-leader
  // mark exactly when the entry is of another term. Otherwise the entry is o itself; a set carries the repetition
  // mark exactly when the same request came before, and a get the value of the last set of its key that is not a
  // repetition.
  lemma {:induction false} WaiterGetsItsAnswer(
    run: seq<System>, n: nat, i: nat, j: nat, l: nat, p: nat, ret: StartRet, o: Codec.Operation,
    w: KvServer.World, a: nat, hs: seq<KvServer.Happening>)
    requires IsSystemRun(run, n) && i < j < |run| && p < |run[j].handed| && CommandsParse(run[j])
    requires Answers(run[i], run[i + 1], l, Codec.GetCmd(o), ret) && ret.isLeader && Codec.Carried(o)
    requires a <= ret.cmdIndex < |run[j].handed[p]|
    requires forall m :: m in run[j].handed[p] ==> Codec.GetOperation(m.cmd).Some?
    requires w.kv == KvOf(run[j].handed[p][..a])
    requires KvServer.AppliedIn(hs) == run[j].handed[p][a..ret.cmdIndex]
    requires forall h :: h in hs ==>
               KvServer.CanHappen(h) && (!h.Applies? ==> KvServer.LeavesAlone(h, ret.cmdIndex))
    ensures var registered := KvServer.Registered(w, ret, o);
            var m := run[j].handed[p][ret.cmdIndex];
            Answered(KvServer.Happen(KvServer.HappenAll(registered, hs), KvServer.Applies(m)), m, o, ret.curTerm,
                     KvServer.Operations(run[j].handed[p][..ret.cmdIndex]))
  {
    var t, idx: nat := ret.curTerm, ret.cmdIndex;
    var same := Handling.StartAnswers(run, n, i, l, Codec.GetCmd(o));
    forall k | 0 <= k < |run[j].handed[p]| ensures run[j].handed[p][k].cmdIndex == k + 1 {
      HandedUpWasStarted(run, n, j, p, k);
    }
    if run[j].handed[p][idx].cmdTerm == t { StartedCommandIsHandedUp(run, n, i + 1, j, p, t, idx); }
    WaiterIsAnswered(run[j].handed[p], t, idx, o, w, a, hs);
  }

  // The same for any sequence of entries numbered from 1.
  lemma WaiterIsAnswered(
    all: seq<ApplyMsg>, t: int, idx: nat, o: Codec.Operation, w: KvServer.World, a: nat, hs: seq<KvServer.Happening>)
    requires a <= idx < |all| && Codec.Carried(o)
    requires forall m :: m in all ==> Codec.GetOperation(m.cmd).Some?
    requires forall k :: 0 <= k < |all| ==> all[k].cmdIndex == k + 1
    requires all[idx].cmdTerm == t ==> all[idx].cmd == Codec.GetCmd(o)
    requires w.kv == KvOf(all[..a]) && KvServer.AppliedIn(hs) == all[a..idx]
    requires forall h :: h in hs ==> KvServer.CanHappen(h) && (!h.Applies? ==> KvServer.LeavesAlone(h, idx))
    ensures var registered := KvServer.Registered(w, StartRet(idx, t, true), o);
            Answered(KvServer.Happen(KvServer.HappenAll(registered, hs), KvServer.Applies(all[idx])), all[idx], o, t,
                     KvServer.Operations(all[..idx]))
  {
    var registered := KvServer.Registered(w, StartRet(idx, t, true), o);
    forall h | h in hs ensures KvServer.LeavesAlone(h, idx) {
      if h.Applies? {
        AppliedIsIn(hs, h);
        var k :| 0 <= k < idx - a && all[a..idx][k] == h.msg;
        assert h.msg == all[a + k];
      }
    }
    KvServer.WaiterStays(registered, hs, idx);
    AppliedSplit(all, a, idx);
    ReleasedWithAnswer(KvServer.HappenAll(registered, hs), all[idx], o, t, KvServer.Operations(all[..idx]));
  }

  lemma {:induction false} AppliedIsIn(hs: seq<KvServer.Happening>, h: KvServer.Happening)
    requires h in hs && h.Applies?
    ensures h.msg in KvServer.AppliedIn(hs)
  {
    if hs[0] != h { AppliedIsIn(hs[1..], h); }
  }

  lemma AppliedSplit(all: seq<ApplyMsg>, a: nat, idx: nat)
    requires a <= idx <= |all| && forall m :: m in all ==> Codec.GetOperation(m.cmd).Some?
    ensures KvMachine.Run(KvOf(all[..a]), KvServer.Operations(all[a..idx])) == KvOf(all[..idx])
  {
    var x, y := KvServer.Operations(all[..a]), KvServer.Operations(all[a..idx]);
    assert KvServer.Operations(all[..idx]) == x + y;
    KvMachine.RunConcat(KvMachine.EMPTY, x, y);
  }

  lemma ReleasedWithAnswer(w: KvServer.World, m: ApplyMsg, o: Codec.Operation, t: int, before: seq<Codec.Operation>)
    requires KvServer.Parses(KvServer.LogMsg(m)) && Codec.Carried(o)
    requires m.cmdTerm == t ==> m.cmd == Codec.GetCmd(o)
    requires w.kv == KvMachine.Run(KvMachine.EMPTY, before) && m.cmdIndex - 1 in w.waiters
    requires w.waiters[m.cmdIndex - 1] == KvServer.Waiter(t, o.value, false, false, false, false)
    ensures Answered(KvServer.Handle(w, KvServer.LogMsg(m)), m, o, t, before)
  {
    Codec.CommandRoundTrip(o);
    var parsed := Codec.GetOperation(m.cmd).value;
    assert m.cmdTerm == t ==> parsed == o;
    ReleasedValue(w.waiters[m.cmdIndex - 1], w.kv, parsed, m.cmdTerm, before);
  }

  lemma ReleasedValue(x: KvServer.Waiter, kv: KvMachine.Kv, o: Codec.Operation, term: int, before: seq<Codec.Operation>)
    requires kv == KvMachine.Run(KvMachine.EMPTY, before) && !x.leaderWrong && !x.keyWrong
    ensures KvServer.Release(x, kv, o, term).ready
    ensures KvServer.Release(x, kv, o, term).leaderWrong <==> term != x.opTerm
    ensures o.op == "set" && KvMachine.InStep(before, o) && !x.isIgnored ==>
      (KvServer.Release(x, kv, o, term).isIgnored <==> KvMachine.Seen(before, o))
    ensures o.op != "get" ==>
      KvServer.Release(x, kv, o, term).answer == x.answer && !KvServer.Release(x, kv, o, term).keyWrong
    ensures o.op == "get" && KvMachine.SetsInStep(before) ==>
      match KvMachine.LastSet(KvMachine.FirstOccurrences(before), o.key)
      case Some(v) => KvServer.Release(x, kv, o, term).answer == v && !KvServer.Release(x, kv, o, term).keyWrong
      case None => KvServer.Release(x, kv, o, term).keyWrong
  {
    KvMachine.FreshIsUnseenIff(before, o);
    if KvMachine.SetsInStep(before) { KvMachine.ReadIsLastFirstSet(before, o.key); }
  }
}
