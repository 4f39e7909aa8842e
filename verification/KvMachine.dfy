/** The replicated key-value machine as a function of the log: duplicate suppression and snapshots. */
module KvMachine {
  import opened Codec
  import opened RaftTypes

  // The database and, per client, the request id of its last applied operation.
  datatype Kv = Kv(db: map<string, string>, seqs: map<int, int>)

  const EMPTY := Kv(map[], map[])

  predicate Fresh(kv: Kv, o: Operation) {
    o.clientId !in kv.seqs || kv.seqs[o.clientId] < o.requestId
  }

  // One entry: the id is recorded whether or not the operation takes effect.
  function ApplyOp(kv: Kv, o: Operation): Kv {
    Kv(if o.op == "set" && Fresh(kv, o) then kv.db[o.key := o.value] else kv.db,
       kv.seqs[o.clientId := o.requestId])
  }

  function Run(kv: Kv, ops: seq<Operation>): Kv
    decreases |ops|
  {
    if ops == [] then kv else Run(ApplyOp(kv, ops[0]), ops[1..])
  }

  lemma {:induction false} RunConcat(kv: Kv, a: seq<Operation>, b: seq<Operation>)
    ensures Run(kv, a + b) == Run(Run(kv, a), b)
    decreases |a|
  {
    if a == [] {
      assert a + b == b;
    } else {
      assert (a + b)[1..] == a[1..] + b;
      RunConcat(ApplyOp(kv, a[0]), a[1..], b);
    }
  }

  lemma RunLast(kv: Kv, ops: seq<Operation>)
    requires ops != []
    ensures Run(kv, ops) == ApplyOp(Run(kv, ops[..|ops| - 1]), ops[|ops| - 1])
  {
    var n := |ops| - 1;
    assert ops == ops[..n] + [ops[n]];
    RunConcat(kv, ops[..n], [ops[n]]);
    assert [ops[n]][1..] == [];
  }

  // ---------- snapshots ----------

  // Applying an entry again at once changes nothing.
  lemma ReapplyIsIdle(kv: Kv, o: Operation)
    ensures ApplyOp(ApplyOp(kv, o), o) == ApplyOp(kv, o)
  {
  }

  // A snapshot of the state after entry k is labelled k-1, so the replay starts with entry k once more;
  // the result is still the state of a full replay.
  lemma {:induction false} LateLabelRecovers(ops: seq<Operation>, k: nat, m: nat)
    requires 1 <= k <= m <= |ops|
    ensures Run(Run(EMPTY, ops[..k]), ops[k - 1..m]) == Run(EMPTY, ops[..m])
  {
    var snap := Run(EMPTY, ops[..k]);
    RunLast(EMPTY, ops[..k]);
    assert ops[..k][..k - 1] == ops[..k - 1];
    ReapplyIsIdle(Run(EMPTY, ops[..k - 1]), ops[k - 1]);
    assert ops[k - 1..m] == [ops[k - 1]] + ops[k..m];
    assert ops[k - 1..m][1..] == ops[k..m];
    RunConcat(EMPTY, ops[..k], ops[k..m]);
    assert ops[..k] + ops[k..m] == ops[..m];
  }

  // `RecoveryFromSnapShot` writes the snapshot's entries over what is there.
  function Recover(kv: Kv, snap: Kv): Kv {
    Kv(kv.db + snap.db, kv.seqs + snap.seqs)
  }

  // Overlaying replaces exactly when the node has no key or client that the snapshot lacks.
  lemma {:induction false} OverlayReplacesIff(kv: Kv, snap: Kv)
    ensures Recover(kv, snap) == snap <==> kv.db.Keys <= snap.db.Keys && kv.seqs.Keys <= snap.seqs.Keys
  {
    var r := Recover(kv, snap);
    assert r.db.Keys == kv.db.Keys + snap.db.Keys;
    assert r.seqs.Keys == kv.seqs.Keys + snap.seqs.Keys;
    if kv.db.Keys <= snap.db.Keys && kv.seqs.Keys <= snap.seqs.Keys {
      assert r.db == snap.db && r.seqs == snap.seqs;
    }
  }

  lemma {:induction false} KeysOnlyGrow(kv: Kv, ops: seq<Operation>)
    ensures kv.db.Keys <= Run(kv, ops).db.Keys && kv.seqs.Keys <= Run(kv, ops).seqs.Keys
    decreases |ops|
  {
    if ops != [] { KeysOnlyGrow(ApplyOp(kv, ops[0]), ops[1..]); }
  }

  // A snapshot taken after entry k, recovered on a node that is at any j <= k, gives the snapshot's state.
  lemma {:induction false} MergeEqualsReplace(ops: seq<Operation>, j: nat, k: nat)
    requires j <= k <= |ops|
    ensures Recover(Run(EMPTY, ops[..j]), Run(EMPTY, ops[..k])) == Run(EMPTY, ops[..k])
  {
    var a, b := Run(EMPTY, ops[..j]), Run(EMPTY, ops[..k]);
    assert ops[..k] == ops[..j] + ops[j..k];
    RunConcat(EMPTY, ops[..j], ops[j..k]);
    KeysOnlyGrow(a, ops[j..k]);
    OverlayReplacesIff(a, b);
  }

  // The whole path: a node at j takes the snapshot of k, labelled k-1, and replays up to m.
  lemma {:induction false} RecoveredNodeCatchesUp(ops: seq<Operation>, j: nat, k: nat, m: nat)
    requires j <= k <= m <= |ops| && 1 <= k
    ensures Run(Recover(Run(EMPTY, ops[..j]), Run(EMPTY, ops[..k])), ops[k - 1..m]) == Run(EMPTY, ops[..m])
  {
    MergeEqualsReplace(ops, j, k);
    LateLabelRecovers(ops, k, m);
  }

  // A node already past the snapshot keeps keys the snapshot never had.
  lemma RewindKeepsNewKeys(a: Operation, b: Operation)
    requires a.op == b.op == "set" && a.key != b.key && a.clientId != b.clientId
    ensures Recover(Run(EMPTY, [a, b]), Run(EMPTY, [a])) != Run(EMPTY, [a])
  {
    assert [a, b][1..] == [b] && [a][1..] == [] && [b][1..] == [];
    var full := Run(EMPTY, [a, b]);
    assert full == Run(ApplyOp(EMPTY, a), [b]) == ApplyOp(ApplyOp(EMPTY, a), b);
    assert Run(EMPTY, [a]) == ApplyOp(EMPTY, a);
    assert b.key in full.db && b.key !in Run(EMPTY, [a]).db;
    OverlayReplacesIff(full, Run(EMPTY, [a]));
  }

  // ---------- at most once ----------

  // Each client's request ids never decrease along the log.
  ghost predicate IdsInOrder(ops: seq<Operation>) {
    forall i, j :: 0 <= i < j < |ops| && ops[i].clientId == ops[j].clientId ==> ops[i].requestId <= ops[j].requestId
  }

  predicate SameRequest(a: Operation, b: Operation) {
    a.clientId == b.clientId && a.requestId == b.requestId
  }

  predicate Seen(ops: seq<Operation>, o: Operation) {
    exists i :: 0 <= i < |ops| && SameRequest(ops[i], o)
  }

  // The log without repetitions of a (client, request) pair.
  function FirstOccurrences(ops: seq<Operation>): seq<Operation> {
    if ops == [] then []
    else
      var n := |ops| - 1;
      FirstOccurrences(ops[..n]) + if Seen(ops[..n], ops[n]) then [] else [ops[n]]
  }

  // The database of a machine that suppresses nothing.
  function PlainDb(ops: seq<Operation>): map<string, string> {
    if ops == [] then map[]
    else
      var n := |ops| - 1;
      if ops[n].op == "set" then PlainDb(ops[..n])[ops[n].key := ops[n].value] else PlainDb(ops[..n])
  }

  // The sequence map holds, for each client, an id at least as large as all its ids.
  ghost predicate HoldsMaxima(seqs: map<int, int>, ops: seq<Operation>) {
    forall i :: 0 <= i < |ops| ==> ops[i].clientId in seqs && ops[i].requestId <= seqs[ops[i].clientId]
  }

  // What the map always holds: the id of the client's last operation.
  lemma {:induction false} SeqsHoldLast(ops: seq<Operation>)
    ensures forall c :: c in Run(EMPTY, ops).seqs ==>
      exists i :: 0 <= i < |ops| && ops[i].clientId == c && ops[i].requestId == Run(EMPTY, ops).seqs[c]
    ensures forall i :: 0 <= i < |ops| ==> ops[i].clientId in Run(EMPTY, ops).seqs
    decreases |ops|
  {
    if ops != [] {
      var n := |ops| - 1;
      RunLast(EMPTY, ops);
      SeqsHoldLast(ops[..n]);
      forall c | c in Run(EMPTY, ops).seqs
        ensures exists i :: 0 <= i < |ops| && ops[i].clientId == c && ops[i].requestId == Run(EMPTY, ops).seqs[c]
      {
        if c == ops[n].clientId {
          assert ops[n].requestId == Run(EMPTY, ops).seqs[c];
        } else {
          var i :| 0 <= i < n && ops[..n][i].clientId == c && ops[..n][i].requestId == Run(EMPTY, ops[..n]).seqs[c];
          assert ops[i] == ops[..n][i];
        }
      }
      forall i | 0 <= i < |ops| ensures ops[i].clientId in Run(EMPTY, ops).seqs {
        if i < n { assert ops[i] == ops[..n][i]; }
      }
    }
  }

  lemma {:induction false} InOrderHoldsMaxima(ops: seq<Operation>)
    requires IdsInOrder(ops)
    ensures HoldsMaxima(Run(EMPTY, ops).seqs, ops)
    decreases |ops|
  {
    if ops != [] {
      var n := |ops| - 1;
      RunLast(EMPTY, ops);
      InOrderHoldsMaxima(ops[..n]);
      forall i | 0 <= i < |ops|
        ensures ops[i].clientId in Run(EMPTY, ops).seqs && ops[i].requestId <= Run(EMPTY, ops).seqs[ops[i].clientId]
      {
        if i < n { assert ops[i] == ops[..n][i]; }
      }
    }
  }

  // The sequence map keeps every client's maximum at every point of the log exactly when ids never decrease.
  lemma {:induction false} SeqsAreMaximaIff(ops: seq<Operation>)
    ensures (forall k :: 0 <= k <= |ops| ==> HoldsMaxima(Run(EMPTY, ops[..k]).seqs, ops[..k])) <==> IdsInOrder(ops)
  {
    if IdsInOrder(ops) {
      forall k | 0 <= k <= |ops| ensures HoldsMaxima(Run(EMPTY, ops[..k]).seqs, ops[..k]) {
        InOrderHoldsMaxima(ops[..k]);
      }
    }
    if forall k :: 0 <= k <= |ops| ==> HoldsMaxima(Run(EMPTY, ops[..k]).seqs, ops[..k]) {
      forall i, j | 0 <= i < j < |ops| && ops[i].clientId == ops[j].clientId
        ensures ops[i].requestId <= ops[j].requestId
      {
        var p := ops[..j + 1];
        RunLast(EMPTY, p);
        assert HoldsMaxima(Run(EMPTY, p).seqs, p);
        assert p[i] == ops[i] && p[j] == ops[j];
      }
    }
  }

  // With ids in order, an operation is fresh exactly when its pair has not been seen.
  lemma {:induction false} FreshIffUnseen(ops: seq<Operation>, o: Operation)
    requires IdsInOrder(ops + [o])
    ensures Fresh(Run(EMPTY, ops), o) <==> !Seen(ops, o)
  {
    var all := ops + [o];
    assert IdsInOrder(ops) by {
      forall i, j | 0 <= i < j < |ops| && ops[i].clientId == ops[j].clientId
        ensures ops[i].requestId <= ops[j].requestId
      {
        assert all[i] == ops[i] && all[j] == ops[j];
      }
    }
    InOrderHoldsMaxima(ops);
    SeqsHoldLast(ops);
    var kv := Run(EMPTY, ops);
    if o.clientId in kv.seqs {
      var i :| 0 <= i < |ops| && ops[i].clientId == o.clientId && ops[i].requestId == kv.seqs[o.clientId];
      assert all[i] == ops[i] && all[|ops|] == o;
      if kv.seqs[o.clientId] == o.requestId { assert SameRequest(ops[i], o); }
    }
  }

  // The last operation of a client in a log, which set the client's entry of the sequence map; -1 if none.
  function LastBy(ops: seq<Operation>, client: int): (j: int)
    ensures -1 <= j < |ops| && (j >= 0 ==> ops[j].clientId == client)
    ensures forall i :: j < i < |ops| ==> ops[i].clientId != client
  {
    if ops == [] then -1
    else if ops[|ops| - 1].clientId == client then |ops| - 1
    else LastBy(ops[..|ops| - 1], client)
  }

  lemma {:induction false} SeqsHoldLastBy(ops: seq<Operation>, client: int)
    ensures client in Run(EMPTY, ops).seqs <==> LastBy(ops, client) >= 0
    ensures LastBy(ops, client) >= 0 ==> Run(EMPTY, ops).seqs[client] == ops[LastBy(ops, client)].requestId
    decreases |ops|
  {
    if ops != [] {
      RunLast(EMPTY, ops);
      SeqsHoldLastBy(ops[..|ops| - 1], client);
    }
  }

  // The client's previous operation has a lower id exactly when operation o is a first occurrence.
  predicate InStep(ops: seq<Operation>, o: Operation) {
    var j := LastBy(ops, o.clientId);
    j >= 0 ==> (ops[j].requestId < o.requestId <==> !Seen(ops, o))
  }

  // The test tells a first occurrence from a repetition exactly when the operation is in step.
  lemma {:induction false} FreshIsUnseenIff(ops: seq<Operation>, o: Operation)
    ensures (Fresh(Run(EMPTY, ops), o) <==> !Seen(ops, o)) <==> InStep(ops, o)
  {
    SeqsHoldLastBy(ops, o.clientId);
  }

  // Every set of the log is in step with its client.
  ghost predicate SetsInStep(ops: seq<Operation>) {
    forall k :: 0 <= k < |ops| && ops[k].op == "set" ==> InStep(ops[..k], ops[k])
  }

  // Over a whole log: suppression keeps the first occurrences among the sets, and only them, exactly when
  // every set is in step.
  lemma {:induction false} SuppressionIsExactIff(ops: seq<Operation>)
    ensures SetsInStep(ops) <==>
      forall k :: 0 <= k < |ops| && ops[k].op == "set" ==>
        (Fresh(Run(EMPTY, ops[..k]), ops[k]) <==> !Seen(ops[..k], ops[k]))
  {
    forall k | 0 <= k < |ops|
      ensures (Fresh(Run(EMPTY, ops[..k]), ops[k]) <==> !Seen(ops[..k], ops[k])) <==> InStep(ops[..k], ops[k])
    {
      FreshIsUnseenIff(ops[..k], ops[k]);
    }
  }

  lemma SetsInStepPrefix(ops: seq<Operation>, n: nat)
    requires SetsInStep(ops) && n <= |ops|
    ensures SetsInStep(ops[..n])
  {
    forall k | 0 <= k < n && ops[..n][k].op == "set" ensures InStep(ops[..n][..k], ops[..n][k]) {
      assert ops[..n][..k] == ops[..k] && ops[..n][k] == ops[k];
    }
  }

  // Ids in order are one way to be in step.
  lemma InOrderIsInStep(ops: seq<Operation>)
    requires IdsInOrder(ops)
    ensures SetsInStep(ops)
  {
    forall k | 0 <= k < |ops| && ops[k].op == "set" ensures InStep(ops[..k], ops[k]) {
      var all := ops[..k] + [ops[k]];
      assert all == ops[..k + 1];
      forall i, j | 0 <= i < j < |all| && all[i].clientId == all[j].clientId
        ensures all[i].requestId <= all[j].requestId
      {
        assert all[i] == ops[i] && all[j] == ops[j];
      }
      FreshIffUnseen(ops[..k], ops[k]);
      FreshIsUnseenIff(ops[..k], ops[k]);
    }
  }

  // Not the only one: after ids 3 and 5, a late copy of 3 is dropped.
  lemma InStepWithoutOrder(a: Operation, b: Operation)
    requires a.op == b.op == "set" && a.clientId == b.clientId && a.requestId == 3 && b.requestId == 5
    ensures !IdsInOrder([a, b, a]) && SetsInStep([a, b, a])
  {
    var ops := [a, b, a];
    assert ops[1].requestId > ops[2].requestId;
    assert ops[..0] == [] && ops[..1] == [a] && ops[..2] == [a, b];
    assert SameRequest([a, b][0], a);
    forall k | 0 <= k < |ops| && ops[k].op == "set" ensures InStep(ops[..k], ops[k]) {
      assert k == 0 || k == 1 || k == 2;
    }
  }

  // At-most-once effect: with every set in step, the database is the one of a machine without suppression
  // that gets each (client, request) pair only the first time.
  lemma {:induction false} AtMostOnce(ops: seq<Operation>)
    requires SetsInStep(ops)
    ensures Run(EMPTY, ops).db == PlainDb(FirstOccurrences(ops))
    decreases |ops|
  {
    if ops != [] {
      var n := |ops| - 1;
      RunLast(EMPTY, ops);
      FreshIsUnseenIff(ops[..n], ops[n]);
      SetsInStepPrefix(ops, n);
      AtMostOnce(ops[..n]);
      var first := FirstOccurrences(ops[..n]);
      if !Seen(ops[..n], ops[n]) {
        assert (first + [ops[n]])[..|first|] == first;
      } else {
        assert first + [] == first;
      }
    }
  }

  // The condition is exact: whatever the log's other entries are, a set that is out of step and whose value
  // is new at its key makes the database after it differ from that of first occurrences, if up to there the
  // two were equal.
  lemma {:induction false} OutOfStepShows(ops: seq<Operation>, o: Operation)
    requires o.op == "set" && Run(EMPTY, ops).db == PlainDb(FirstOccurrences(ops))
    requires Lookup(Run(EMPTY, ops).db, o.key) != Some(o.value)
    ensures Run(EMPTY, ops + [o]).db == PlainDb(FirstOccurrences(ops + [o])) <==> InStep(ops, o)
  {
    var all := ops + [o];
    assert all[..|ops|] == ops && all[|ops|] == o;
    RunLast(EMPTY, all);
    FreshIsUnseenIff(ops, o);
    var first := FirstOccurrences(ops);
    if Seen(ops, o) {
      assert FirstOccurrences(all) == first + [] == first;
    } else {
      assert FirstOccurrences(all) == first + [o];
      assert (first + [o])[..|first|] == first;
    }
    var db := Run(EMPTY, ops).db;
    assert o.key in db[o.key := o.value] && db[o.key := o.value][o.key] == o.value;
  }

  // A log out of step: a first occurrence is dropped because its id is the lower one.
  lemma LowerFirstIsDropped(a: Operation, b: Operation)
    requires a.op == b.op == "set" && a.clientId == b.clientId && b.requestId < a.requestId && a.key != b.key
    ensures Run(EMPTY, [a, b]).db != PlainDb(FirstOccurrences([a, b]))
  {
    SeqsHoldLastBy([a], a.clientId);
    assert [] + [a] == [a] && [a] + [b] == [a, b] && [a][..0] == [];
    OutOfStepShows([], a);
    OutOfStepShows([a], b);
  }

  // Every request arrives in order for the first time, yet a late copy of a lowers the recorded id, and then
  // a copy of c overwrites what another client wrote in between.
  lemma LateCopyLetsCopyRun(a: Operation, c: Operation, d: Operation)
    requires a.op == c.op == d.op == "set" && c.key == d.key && c.value != d.value
    requires a.clientId == c.clientId != d.clientId && a.requestId < c.requestId
    ensures FirstOccurrences([a, c, a, d, c]) == [a, c, d]
    ensures Lookup(Run(EMPTY, [a, c, a, d, c]).db, c.key) == Some(c.value)
    ensures Lookup(PlainDb([a, c, d]), c.key) == Some(d.value)
  {
    FirstsOfFive(a, c, d);
    var ops := [a, c, a, d, c];
    assert ops[..4] == [a, c] + [a] + [d] && ops[4] == c;
    RepetitionRunsIff([a, c], a, [d], c);
    RunLast(EMPTY, ops);
    assert [a, c, d][..2] == [a, c];
  }

  lemma FirstsOfFive(a: Operation, c: Operation, d: Operation)
    requires a.clientId == c.clientId != d.clientId && a.requestId < c.requestId
    ensures FirstOccurrences([a, c, a, d, c]) == [a, c, d]
  {
    FirstsOfThree(a, c);
    FirstsOfTwoMore([a, c, a], d, c, [a, c]);
    assert [a, c, a, d, c] == [a, c, a] + [d, c] && [a, c] + [d] == [a, c, d];
  }

  lemma FirstsOfThree(a: Operation, c: Operation)
    requires a.clientId == c.clientId && a.requestId < c.requestId
    ensures FirstOccurrences([a, c, a]) == [a, c]
  {
    assert [a][..0] == [] && [] + [a] == [a];
    assert FirstOccurrences([a]) == [a];
    FirstsOfTwoMore([a], c, a, [a]);
    assert [a, c, a] == [a] + [c, a] && [a] + [c] == [a, c];
  }

  // A new operation, then a repetition.
  lemma FirstsOfTwoMore(ops: seq<Operation>, x: Operation, y: Operation, firsts: seq<Operation>)
    requires FirstOccurrences(ops) == firsts && !Seen(ops, x) && y in ops
    ensures FirstOccurrences(ops + [x, y]) == firsts + [x]
  {
    FirstsOfOneMore(ops, x);
    FirstsOfOneMore(ops + [x], y);
    assert ops + [x] + [y] == ops + [x, y];
    var i :| 0 <= i < |ops| && ops[i] == y;
    assert SameRequest((ops + [x])[i], y);
  }

  lemma FirstsOfOneMore(ops: seq<Operation>, o: Operation)
    ensures FirstOccurrences(ops + [o]) == FirstOccurrences(ops) + if Seen(ops, o) then [] else [o]
  {
    assert (ops + [o])[..|ops|] == ops;
  }

  // A repetition of a, after an operation b of its client and then others' operations only, takes effect
  // exactly when b's id is lower.
  lemma {:induction false} RepetitionRunsIff(ops: seq<Operation>, b: Operation, others: seq<Operation>, a: Operation)
    requires a in ops && a.clientId == b.clientId
    requires forall i :: 0 <= i < |others| ==> others[i].clientId != a.clientId
    ensures Seen(ops + [b] + others, a)
    ensures Fresh(Run(EMPTY, ops + [b] + others), a) <==> b.requestId < a.requestId
  {
    var all := ops + [b] + others;
    assert all[|ops|] == b;
    assert forall i :: |ops| < i < |all| ==> all[i] == others[i - |ops| - 1];
    assert LastBy(all, a.clientId) == |ops|;
    SeqsHoldLastBy(all, a.clientId);
    var i :| 0 <= i < |ops| && ops[i] == a;
    assert SameRequest(all[i], a);
  }

  // ---------- what a read returns ----------

  // The value of the last set of a key in a log, if any.
  function LastSet(ops: seq<Operation>, key: string): Option<string> {
    if ops == [] then None
    else
      var n := |ops| - 1;
      if ops[n].op == "set" && ops[n].key == key then Some(ops[n].value) else LastSet(ops[..n], key)
  }

  function Lookup(db: map<string, string>, key: string): Option<string> {
    if key in db then Some(db[key]) else None
  }

  lemma {:induction false} PlainDbIsLastSet(ops: seq<Operation>, key: string)
    ensures Lookup(PlainDb(ops), key) == LastSet(ops, key)
    decreases |ops|
  {
    if ops != [] { PlainDbIsLastSet(ops[..|ops| - 1], key); }
  }

  // Reading a key after a log gives the last set of it that was not a repetition.
  lemma {:induction false} ReadIsLastFirstSet(ops: seq<Operation>, key: string)
    requires SetsInStep(ops)
    ensures Lookup(Run(EMPTY, ops).db, key) == LastSet(FirstOccurrences(ops), key)
  {
    AtMostOnce(ops);
    PlainDbIsLastSet(FirstOccurrences(ops), key);
  }
}
