/** Leader completeness: what a leader committed is in the log of every leader elected later. */
module CommitProof {
  import opened RaftTypes
  import opened RaftSteps
  import opened Cluster
  import opened ClusterProof
  import opened Exchanges
  import Quorum

  // Every leader elected between t and u began with the first m entries of term t's log.
  ghost predicate CarriedBetween(c: State, t: int, m: nat, u: int)
    requires t in c.termLog && m <= |c.termLog[t]|
  {
    forall w :: w in c.elect && t < w < u ==> Written(c, t, m) <= c.elect[w].init
  }

  // Some voter of u had acknowledged the committed entries, and still had them when it voted.
  lemma VoterHasCommit(s: System, t: int, m: int, u: int) returns (v: nat)
    requires History(s) && (t, m) in s.commits && u in s.c.elect && t < u
    requires t in s.c.termLog && 1 <= m <= |s.c.termLog[t]| && CarriedBetween(s.c, t, m, u)
    ensures v in s.c.elect[u].ballots && Written(s.c, t, m) <= s.c.elect[u].ballots[v]
  {
    assert CommitOk(s, t, m);
    v := CommitMeetsElection(s, t, m, u);
    assert AckOk(s, v, t) && BallotKept(s, u, v, t);
    assert KeptAt(s.c, t, m, s.c.elect[u].ballots[v], u - 1);
  }

  lemma CommitMeetsElection(s: System, t: int, m: int, u: int) returns (v: nat)
    requires ElectionsOk(s.c) && VotesOk(s.c) && CommitOk(s, t, m) && u in s.c.elect
    ensures v in s.c.elect[u].ballots && (v, t) in s.acks && s.acks[(v, t)] >= m
  {
    assert ElectionOk(s.c, u);
    forall w | w in s.c.elect[u].ballots ensures w < |s.c.nodes| { assert VoteOk(s.c, w, u); }
    v := Quorum.QuorumsMeet(Ackers(s, t, m), s.c.elect[u].ballots.Keys, |s.c.nodes|);
  }

  // A log that passes the vote test of a voter holding the entries holds them too.
  lemma NotBehindCarries(c: State, t: int, m: nat, u: int, ballot: Log)
    requires TermLogsOk(c) && u in c.elect && 1 <= t < u && t in c.termLog && 1 <= m <= |c.termLog[t]|
    requires c.termLog[t][m - 1].term == t
    requires CarriedBetween(c, t, m, u)
    requires LogOk(ballot, u - 1, c.termLog) && Written(c, t, m) <= ballot && NotBehind(c.elect[u].init, ballot)
    ensures Written(c, t, m) <= c.elect[u].init
  {
    var init := c.elect[u].init;
    assert TermLogOk(c, u);
    LogOkPrefix(c.termLog[u], init, u, c.termLog);
    assert ballot[m - 1].term == t;
    var k, b := |init| - 1, |ballot| - 1;
    assert t <= ballot[b].term <= init[k].term;
    var w := init[k].term;
    assert AgreesAt(init, k, c.termLog) && init == init[..k + 1];
    if w == ballot[b].term {
      assert AgreesAt(ballot, b, c.termLog) && ballot == ballot[..b + 1];
      assert ballot <= init;
    } else {
      assert w in c.elect && TermLogOk(c, w);
      assert |c.elect[w].init| <= k;
      assert c.elect[w].init <= init;
    }
  }

  // Leader completeness.
  lemma {:induction false} CommitStays(s: System, t: int, m: int, u: int)
    requires History(s) && (t, m) in s.commits && u in s.c.elect && t < u
    ensures t in s.c.termLog && 1 <= m <= |s.c.termLog[t]|
    ensures Written(s.c, t, m) <= s.c.elect[u].init
    decreases u - t
  {
    assert CommitOk(s, t, m) && ElectionOk(s.c, t);
    forall w | w in s.c.elect && t < w < u ensures Written(s.c, t, m) <= s.c.elect[w].init {
      CommitStays(s, t, m, w);
    }
    var v := VoterHasCommit(s, t, m, u);
    assert BallotOk(s.c, u, v) && NotBehind(s.c.elect[u].init, s.c.elect[u].ballots[v]);
    NotBehindCarries(s.c, t, m, u, s.c.elect[u].ballots[v]);
  }
}
