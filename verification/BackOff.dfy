/** How a leader lowers its next index for a peer that rejects it: it never skips past what the two logs
    share, but as written it can stop moving. Nothing has been compacted here. */
module BackOff {
  import opened RaftTypes
  import opened RaftSteps
  import opened Cluster
  import opened ClusterProof
  import opened ExchangeProof

  // A leader, its peer and a request that the peer can only answer by comparing logs.
  ghost predicate Pair(leader: Node, peer: nat, follower: Node) {
    && leader.lastIncludedIndex == 0 && follower.lastIncludedIndex == 0
    && leader.lastIncludeTerm == 0 && follower.lastIncludeTerm == 0
    && CanBuildAppend(leader, peer) && follower.curTerm <= leader.curTerm
    && Sorted(follower.logs) && (forall i :: 0 <= i < |follower.logs| ==> follower.logs[i].term >= 1)
  }

  function Prev(leader: Node, peer: nat): int
    requires CanBuildAppend(leader, peer)
  {
    leader.nextIndex[peer] - 1
  }

  function Answer(leader: Node, self: nat, peer: nat, follower: Node): AppendResponse
    requires CanBuildAppend(leader, peer)
  {
    ReplyAppend(follower, BuildAppend(leader, self, peer)).1
  }

  // Where the next index goes after this answer.
  function NextIndexAfter(leader: Node, self: nat, peer: nat, follower: Node): int
    requires CanBuildAppend(leader, peer)
  {
    NextAfterReject(leader, Prev(leader, peer), Answer(leader, self, peer, follower))
  }

  ghost predicate AgreeUpTo(a: Log, b: Log, k: nat) {
    k <= |a| && k <= |b| && a[..k] == b[..k]
  }

  lemma SharedEntries(a: Log, b: Log, k: nat)
    requires AgreeUpTo(a, b, k)
    ensures forall i :: 0 <= i < k ==> a[i] == b[i]
  {
    forall i | 0 <= i < k ensures a[i] == b[i] { assert a[i] == a[..k][i] == b[..k][i]; }
  }

  // What a rejection says: the follower is too short, or it names the term it has at prevLogIndex and
  // the first index of that term.
  lemma RejectionSays(leader: Node, self: nat, peer: nat, follower: Node)
    requires Pair(leader, peer, follower) && !Answer(leader, self, peer, follower).success
    ensures Prev(leader, peer) > 0
    ensures var r, p := Answer(leader, self, peer, follower), Prev(leader, peer);
            if p > |follower.logs| then r.conflictTerm == -1 && r.conflictIndex == |follower.logs| + 1
            else
              && r.conflictTerm == follower.TermAt(p) >= 1 && r.conflictTerm != leader.TermAt(p)
              && 1 <= r.conflictIndex <= p && follower.TermAt(r.conflictIndex) == r.conflictTerm
              && (forall i :: 1 <= i < r.conflictIndex ==> follower.TermAt(i) < r.conflictTerm)
  {
    var p := Prev(leader, peer);
    if 0 < p <= |follower.logs| {
      var t := follower.TermAt(p);
      FirstOfTermFound(follower, t, 1, p);
      forall i | 1 <= i < FirstOfTerm(follower, t, 1, p) ensures follower.TermAt(i) < t {
        assert follower.logs[i - 1].term <= follower.logs[p - 1].term;
      }
    }
  }

  // Where the logs agree, the leader's scan stops at or after the last such index.
  lemma ScanKeepsAgreement(leader: Node, follower: Node, t: int, from: int, k: nat)
    requires leader.lastIncludedIndex == 0 && k <= from <= |leader.logs| && AgreeUpTo(leader.logs, follower.logs, k)
    requires k > 0 ==> follower.logs[k - 1].term <= t
    ensures LastAtMost(leader, t, from) >= k || (k == 0 && LastAtMost(leader, t, from) == -1)
    ensures LastAtMost(leader, t, from) != 0
  {
    LastAtMostFound(leader, t, from);
    SharedEntries(leader.logs, follower.logs, k);
  }

  // Back-off is safe: whatever the logs share below the next index stays below it.
  lemma {:induction false} BackOffIsSafe(leader: Node, self: nat, peer: nat, follower: Node, k: nat)
    requires Pair(leader, peer, follower) && !Answer(leader, self, peer, follower).success
    requires AgreeUpTo(leader.logs, follower.logs, k)
    ensures k < Prev(leader, peer)
    ensures k <= NextIndexAfter(leader, self, peer, follower) - 1
  {
    var p := Prev(leader, peer);
    RejectionSays(leader, self, peer, follower);
    SharedEntries(leader.logs, follower.logs, k);
    if p <= |follower.logs| {
      if k > 0 { assert follower.logs[k - 1].term <= follower.logs[p - 1].term; }
      ScanKeepsAgreement(leader, follower, follower.TermAt(p), p, k);
    }
  }

  // The next index never rises, and it falls exactly when the follower misses more than one entry, or
  // the leader's term at prevLogIndex is above the follower's.
  lemma {:induction false} BackOffMovesIff(leader: Node, self: nat, peer: nat, follower: Node)
    requires Pair(leader, peer, follower) && !Answer(leader, self, peer, follower).success
    ensures 1 <= NextIndexAfter(leader, self, peer, follower) <= leader.nextIndex[peer]
    ensures NextIndexAfter(leader, self, peer, follower) < leader.nextIndex[peer] <==>
      if Prev(leader, peer) > |follower.logs| then Prev(leader, peer) > |follower.logs| + 1
      else leader.TermAt(Prev(leader, peer)) > follower.TermAt(Prev(leader, peer))
  {
    var p := Prev(leader, peer);
    RejectionSays(leader, self, peer, follower);
    if p <= |follower.logs| { LastAtMostFound(leader, follower.TermAt(p), p); }
  }

  // ---------- when repeated exchanges succeed ----------

  // The leader takes new commands, then one exchange runs to its end.
  function StartAll(leader: Node, cmds: seq<string>): Node
    decreases |cmds|
  {
    if cmds == [] then leader else StartAll(Start(leader, cmds[0]).0, cmds[1..])
  }

  lemma {:induction false} StartAllKeeps(leader: Node, cmds: seq<string>)
    ensures StartAll(leader, cmds) == leader.(logs := StartAll(leader, cmds).logs)
    ensures leader.logs <= StartAll(leader, cmds).logs
    decreases |cmds|
  {
    if cmds != [] { StartAllKeeps(Start(leader, cmds[0]).0, cmds[1..]); }
  }

  // One exchange of a leader with a follower in the leader's term.
  ghost function Exchange(leader: Node, self: nat, peer: nat, follower: Node): (Node, Node)
    requires CanBuildAppend(leader, peer)
  {
    var req := BuildAppend(leader, self, peer);
    var (f, resp) := ReplyAppend(follower, req);
    if CanTakeResponse(leader, self, peer, req, resp)
    then (OnAppendResponse(leader, self, peer, req, resp), f) else (leader, f)
  }

  // cmds[i] are the commands that arrive before exchange i.
  ghost predicate NeverAccepted(leader: Node, self: nat, peer: nat, follower: Node, cmds: seq<seq<string>>)
    decreases |cmds|
  {
    cmds == [] ||
    (var l1 := StartAll(leader, cmds[0]);
     && CanBuildAppend(l1, peer)
     && !Answer(l1, self, peer, follower).success
     && Exchange(l1, self, peer, follower).1.logs == follower.logs
     && (var (l2, f2) := Exchange(l1, self, peer, follower);
         NeverAccepted(l2, self, peer, f2, cmds[1..])))
  }

  // The condition: the follower reaches up to prevLogIndex, and none of its terms there is above the leader's.
  ghost predicate InReach(leader: Node, peer: nat, follower: Node)
    requires Pair(leader, peer, follower)
  {
    && Prev(leader, peer) <= |follower.logs|
    && forall i :: 1 <= i <= Prev(leader, peer) ==> leader.TermAt(i) >= follower.TermAt(i)
  }

  // Log matching below the next index.
  ghost predicate LogsMatch(leader: Node, peer: nat, follower: Node)
    requires CanBuildAppend(leader, peer) && leader.lastIncludedIndex == 0
  {
    forall k, i :: 0 <= i <= k < Prev(leader, peer) && k < |follower.logs| ==>
      leader.logs[k].term == follower.logs[k].term ==> leader.logs[i] == follower.logs[i]
  }

  lemma MatchingLogsMatch(leader: Node, peer: nat, follower: Node, termLog: map<int, Log>)
    requires CanBuildAppend(leader, peer) && leader.lastIncludedIndex == 0
    requires Matches(leader.logs, termLog) && Matches(follower.logs, termLog)
    ensures LogsMatch(leader, peer, follower)
  {
    forall k, i | 0 <= i <= k < Prev(leader, peer) && k < |follower.logs|
                  && leader.logs[k].term == follower.logs[k].term
      ensures leader.logs[i] == follower.logs[i]
    {
      SameTermSamePrefix(leader.logs, follower.logs, k, termLog);
      assert leader.logs[i] == leader.logs[..k + 1][i] == follower.logs[..k + 1][i];
    }
  }

  // What stays the same while commands arrive and exchanges fail.
  ghost predicate Trying(leader: Node, self: nat, peer: nat, follower: Node) {
    && Pair(leader, peer, follower) && LogsMatch(leader, peer, follower)
    && self < |leader.matchIndex| == |leader.nextIndex|
  }

  lemma CommandsChangeNothing(leader: Node, self: nat, peer: nat, follower: Node, cmds: seq<string>)
    requires Trying(leader, self, peer, follower)
    ensures Trying(StartAll(leader, cmds), self, peer, follower)
    ensures StartAll(leader, cmds).nextIndex == leader.nextIndex
    ensures InReach(StartAll(leader, cmds), peer, follower) <==> InReach(leader, peer, follower)
  {
    StartAllKeeps(leader, cmds);
    var l1 := StartAll(leader, cmds);
    assert forall i :: 0 <= i < |leader.logs| ==> l1.logs[i] == leader.logs[i];
  }

  // The two logs hold the same term at prevLogIndex.
  predicate AgreeAtPrev(leader: Node, peer: nat, follower: Node)
    requires CanBuildAppend(leader, peer) && leader.lastIncludedIndex == 0
  {
    var p := Prev(leader, peer);
    p <= |follower.logs| && (p > 0 ==> leader.logs[p - 1].term == follower.logs[p - 1].term)
  }

  lemma AcceptedAgrees(leader: Node, self: nat, peer: nat, follower: Node)
    requires Pair(leader, peer, follower) && Answer(leader, self, peer, follower).success
    ensures AgreeAtPrev(leader, peer, follower)
    ensures Exchange(leader, self, peer, follower).1.logs
            == follower.logs[..Prev(leader, peer)] + leader.logs[Prev(leader, peer)..]
  {
  }

  // A request that will be accepted is in reach.
  lemma AgreeingIsInReach(leader: Node, peer: nat, follower: Node)
    requires Pair(leader, peer, follower) && LogsMatch(leader, peer, follower) && AgreeAtPrev(leader, peer, follower)
    ensures InReach(leader, peer, follower)
  {
    var p := Prev(leader, peer);
    forall i | 1 <= i <= p ensures leader.TermAt(i) >= follower.TermAt(i) {
      assert leader.logs[p - 1].term == follower.logs[p - 1].term;
      assert leader.logs[i - 1] == follower.logs[i - 1];
    }
  }

  // A failed exchange: the follower keeps its log, and the pair stays in or out of reach.
  lemma FailedExchange(leader: Node, self: nat, peer: nat, follower: Node)
    requires Trying(leader, self, peer, follower) && !Answer(leader, self, peer, follower).success
    ensures var (l2, f2) := Exchange(leader, self, peer, follower);
            && Trying(l2, self, peer, f2) && f2.logs == follower.logs
            && l2.nextIndex[peer] == NextIndexAfter(leader, self, peer, follower)
            && (InReach(l2, peer, f2) <==> InReach(leader, peer, follower))
            && (InReach(leader, peer, follower) ==> l2.nextIndex[peer] < leader.nextIndex[peer])
  {
    var p := Prev(leader, peer);
    RejectionSays(leader, self, peer, follower);
    BackOffMovesIff(leader, self, peer, follower);
    var (l2, f2) := Exchange(leader, self, peer, follower);
    assert l2 == leader.(nextIndex := leader.nextIndex[peer := NextIndexAfter(leader, self, peer, follower)]);
    if p <= |follower.logs| {
      MovedPast(leader, self, peer, follower);
      ReachMoves(leader, l2, peer, follower, f2);
    }
  }

  lemma ReachMoves(leader: Node, l2: Node, peer: nat, follower: Node, f2: Node)
    requires Pair(leader, peer, follower) && Pair(l2, peer, f2) && f2.logs == follower.logs && l2.logs == leader.logs
    requires Prev(l2, peer) <= Prev(leader, peer) <= |follower.logs|
    requires forall i :: 1 <= i <= Prev(leader, peer) && Prev(l2, peer) < i ==> leader.TermAt(i) > follower.TermAt(i)
    ensures InReach(l2, peer, f2) <==> InReach(leader, peer, follower)
  {
    assert forall i :: 1 <= i <= Prev(l2, peer) ==>
      l2.TermAt(i) == leader.TermAt(i) && f2.TermAt(i) == follower.TermAt(i);
  }

  // Between the new prevLogIndex and the old one the leader's terms are above the follower's, unless it
  // did not move because the follower's term is the higher one.
  lemma MovedPast(leader: Node, self: nat, peer: nat, follower: Node)
    requires Pair(leader, peer, follower) && !Answer(leader, self, peer, follower).success
    requires Prev(leader, peer) <= |follower.logs|
    ensures forall i :: 1 <= i <= Prev(leader, peer) && NextIndexAfter(leader, self, peer, follower) <= i ==>
              leader.TermAt(i) > follower.TermAt(i)
  {
    var p := Prev(leader, peer);
    RejectionSays(leader, self, peer, follower);
    var t := follower.TermAt(p);
    LastAtMostFound(leader, t, p);
    forall i | 1 <= i <= p && NextIndexAfter(leader, self, peer, follower) <= i
      ensures leader.TermAt(i) > follower.TermAt(i)
    {
      assert follower.logs[i - 1].term <= follower.logs[p - 1].term;
    }
  }

  // Out of reach: every exchange fails, whatever commands arrive.
  lemma {:induction false} OutOfReachIsNeverRepaired(
    leader: Node, self: nat, peer: nat, follower: Node, cmds: seq<seq<string>>)
    requires Trying(leader, self, peer, follower) && !InReach(leader, peer, follower)
    ensures NeverAccepted(leader, self, peer, follower, cmds)
    decreases |cmds|
  {
    if cmds != [] {
      CommandsChangeNothing(leader, self, peer, follower, cmds[0]);
      var l1 := StartAll(leader, cmds[0]);
      if Answer(l1, self, peer, follower).success {
        AcceptedAgrees(l1, self, peer, follower);
        AgreeingIsInReach(l1, peer, follower);
      }
      FailedExchange(l1, self, peer, follower);
      var (l2, f2) := Exchange(l1, self, peer, follower);
      OutOfReachIsNeverRepaired(l2, self, peer, f2, cmds[1..]);
    }
  }

  lemma SharedThenRest(mine: Log, theirs: Log, p: nat)
    requires p <= |mine| && p <= |theirs| && forall i :: 0 <= i < p ==> theirs[i] == mine[i]
    ensures theirs[..p] + mine[p..] == mine
  {
    assert theirs[..p] == mine[..p];
  }

  // An accepted exchange leaves the follower with the leader's log.
  lemma AgreeingLogsCopy(leader: Node, peer: nat, follower: Node)
    requires CanBuildAppend(leader, peer) && leader.lastIncludedIndex == 0
    requires LogsMatch(leader, peer, follower) && AgreeAtPrev(leader, peer, follower)
    ensures follower.logs[..Prev(leader, peer)] + leader.logs[Prev(leader, peer)..] == leader.logs
  {
    var p := Prev(leader, peer);
    forall i | 0 <= i < p ensures follower.logs[i] == leader.logs[i] {
      assert leader.logs[p - 1].term == follower.logs[p - 1].term;
    }
    SharedThenRest(leader.logs, follower.logs, p);
  }

  // One of the exchanges is accepted, and the follower's log is then the leader's.
  ghost predicate Repaired(leader: Node, self: nat, peer: nat, follower: Node, cmds: seq<seq<string>>)
    decreases |cmds|
  {
    cmds != [] &&
    (var l1 := StartAll(leader, cmds[0]);
     && CanBuildAppend(l1, peer)
     && (var (l2, f2) := Exchange(l1, self, peer, follower);
         if Answer(l1, self, peer, follower).success then f2.logs == l1.logs
         else Repaired(l2, self, peer, f2, cmds[1..])))
  }

  // In reach: one of the next m_nextIndex exchanges succeeds, whatever commands arrive.
  lemma {:induction false} InReachIsRepaired(
    leader: Node, self: nat, peer: nat, follower: Node, cmds: seq<seq<string>>)
    requires Trying(leader, self, peer, follower) && InReach(leader, peer, follower)
    requires |cmds| >= leader.nextIndex[peer]
    ensures Repaired(leader, self, peer, follower, cmds)
    decreases |cmds|
  {
    CommandsChangeNothing(leader, self, peer, follower, cmds[0]);
    var l1 := StartAll(leader, cmds[0]);
    if Answer(l1, self, peer, follower).success {
      AcceptedAgrees(l1, self, peer, follower);
      AgreeingLogsCopy(l1, peer, follower);
    } else {
      FailedExchange(l1, self, peer, follower);
      var (l2, f2) := Exchange(l1, self, peer, follower);
      InReachIsRepaired(l2, self, peer, f2, cmds[1..]);
    }
  }

  lemma {:induction false} NeverOrRepaired(leader: Node, self: nat, peer: nat, follower: Node, cmds: seq<seq<string>>)
    requires NeverAccepted(leader, self, peer, follower, cmds)
    ensures !Repaired(leader, self, peer, follower, cmds)
    decreases |cmds|
  {
    if cmds != [] {
      var l1 := StartAll(leader, cmds[0]);
      var (l2, f2) := Exchange(l1, self, peer, follower);
      NeverOrRepaired(l2, self, peer, f2, cmds[1..]);
    }
  }

  // As written, repeated exchanges bring a follower up to date exactly when it reaches up to prevLogIndex
  // and has no term above the leader's there. The two ways to fail are a follower that ends before
  // prevLogIndex and one with a higher term at or below it; neither ever ends.
  lemma {:induction false} RepairedIff(
    leader: Node, self: nat, peer: nat, follower: Node, termLog: map<int, Log>, cmds: seq<seq<string>>)
    requires Pair(leader, peer, follower) && self < |leader.matchIndex| == |leader.nextIndex|
    requires Matches(leader.logs, termLog) && Matches(follower.logs, termLog)
    ensures !InReach(leader, peer, follower) ==> NeverAccepted(leader, self, peer, follower, cmds)
    ensures |cmds| >= leader.nextIndex[peer] ==>
              (Repaired(leader, self, peer, follower, cmds) <==> InReach(leader, peer, follower))
  {
    MatchingLogsMatch(leader, peer, follower, termLog);
    if !InReach(leader, peer, follower) {
      OutOfReachIsNeverRepaired(leader, self, peer, follower, cmds);
      NeverOrRepaired(leader, self, peer, follower, cmds);
    } else if |cmds| >= leader.nextIndex[peer] {
      InReachIsRepaired(leader, self, peer, follower, cmds);
    }
  }

  // The first way: the short-log answer is one past the peer's end and the leader adds one more.
  lemma {:induction false} ShortFollowerIsNeverRepaired(
    leader: Node, self: nat, peer: nat, follower: Node, cmds: seq<seq<string>>)
    requires Pair(leader, peer, follower) && Prev(leader, peer) > |follower.logs|
    requires self < |leader.matchIndex| == |leader.nextIndex|
    ensures NeverAccepted(leader, self, peer, follower, cmds)
    decreases |cmds|
  {
    if cmds != [] {
      StartAllKeeps(leader, cmds[0]);
      var l1 := StartAll(leader, cmds[0]);
      assert CanBuildAppend(l1, peer);
      RejectionSays(l1, self, peer, follower);
      var (l2, f2) := Exchange(l1, self, peer, follower);
      ShortFollowerIsNeverRepaired(l2, self, peer, f2, cmds[1..]);
    }
  }

  // The second way, on the smallest logs: the scan stops at prevLogIndex itself, so the next index stays.
  // HigherTerm.dfy reaches such a pair.
  lemma HigherTermFollowerIsNeverRepaired(
    leader: Node, self: nat, peer: nat, follower: Node, a: string, b: string, c: string, cmds: seq<seq<string>>)
    requires leader.logs == [LogEntry(a, 1), LogEntry(b, 2)] && follower.logs == [LogEntry(a, 1), LogEntry(c, 3)]
    requires Full(leader) && Full(follower) && follower.curTerm <= leader.curTerm
    requires self < |leader.matchIndex| == |leader.nextIndex| && peer < |leader.nextIndex|
    requires leader.nextIndex[peer] == 3
    ensures Pair(leader, peer, follower) && NextIndexAfter(leader, self, peer, follower) == 3
    ensures NeverAccepted(leader, self, peer, follower, cmds)
  {
    assert follower.TermAt(2) == 3 && leader.TermAt(2) == 2;
    RejectionSays(leader, self, peer, follower);
    OutOfReachIsNeverRepaired(leader, self, peer, follower, cmds);
  }

  // ---------- the intended repair ----------

  // Two changes: the scan starts below prevLogIndex, and the short-log answer is the next index itself.
  function RepairedNext(leader: Node, prev: int, resp: AppendResponse): int
    requires prev <= leader.LastIndex()
  {
    if resp.conflictTerm == -1 then resp.conflictIndex
    else
      var found := LastAtMost(leader, resp.conflictTerm, prev - 1);
      if found != -1 then found + 1 else resp.conflictIndex
  }

  // With them every rejection lowers the next index, and still not below what the logs share.
  lemma {:induction false} RepairedMakesProgress(leader: Node, self: nat, peer: nat, follower: Node, k: nat)
    requires Pair(leader, peer, follower) && !Answer(leader, self, peer, follower).success
    requires AgreeUpTo(leader.logs, follower.logs, k)
    ensures 1 <= RepairedNext(leader, Prev(leader, peer), Answer(leader, self, peer, follower)) < leader.nextIndex[peer]
    ensures k < RepairedNext(leader, Prev(leader, peer), Answer(leader, self, peer, follower))
  {
    var p := Prev(leader, peer);
    RejectionSays(leader, self, peer, follower);
    BackOffIsSafe(leader, self, peer, follower, k);
    if p <= |follower.logs| {
      LastAtMostFound(leader, follower.TermAt(p), p - 1);
      if k > 0 { assert follower.logs[k - 1].term <= follower.logs[p - 1].term; }
      ScanKeepsAgreement(leader, follower, follower.TermAt(p), p - 1, k);
    }
  }

  // Exchanges repeated until one is accepted: the follower at the end and how many it took.
  ghost function RepairLoop(leader: Node, self: nat, peer: nat, follower: Node): (r: (Node, nat))
    requires Pair(leader, peer, follower)
    decreases leader.nextIndex[peer]
  {
    var req := BuildAppend(leader, self, peer);
    var (f, resp) := ReplyAppend(follower, req);
    if resp.success then (f, 1)
    else
      RepairedMakesProgress(leader, self, peer, follower, 0);
      var l2 := leader.(nextIndex := leader.nextIndex[peer := RepairedNext(leader, Prev(leader, peer), resp)]);
      var (g, count) := RepairLoop(l2, self, peer, f);
      (g, count + 1)
  }

  // The repaired leader brings every follower to its own log within nextIndex exchanges.
  lemma {:induction false} RepairLoopCopies(leader: Node, self: nat, peer: nat, follower: Node, termLog: map<int, Log>)
    requires Pair(leader, peer, follower)
    requires Matches(leader.logs, termLog) && Matches(follower.logs, termLog)
    ensures RepairLoop(leader, self, peer, follower).0.logs == leader.logs
    ensures RepairLoop(leader, self, peer, follower).1 <= leader.nextIndex[peer]
    decreases leader.nextIndex[peer]
  {
    var req := BuildAppend(leader, self, peer);
    var (f, resp) := ReplyAppend(follower, req);
    if resp.success {
      OverwriteCopies(Adopt(follower, req), req, leader.logs, termLog);
    } else {
      RepairedMakesProgress(leader, self, peer, follower, 0);
      var l2 := leader.(nextIndex := leader.nextIndex[peer := RepairedNext(leader, Prev(leader, peer), resp)]);
      RepairLoopCopies(l2, self, peer, f, termLog);
    }
  }
}
