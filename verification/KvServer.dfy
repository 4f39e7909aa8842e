/** The key-value server: the apply loop with its waiting requests, and snapshots of its two maps. */
module KvServer {
  import opened RaftTypes
  import opened Codec
  import opened KvMachine

  // What the apply loop takes from the Raft layer. An empty snapshot text stands for two empty maps.
  datatype Message =
    | SnapMsg(snap: Kv, lastIncludedIndex: int)
    | LogMsg(msg: ApplyMsg)

  // A waiting request as a value; `answer` is `op.value`, the flags are the bits of `state`.
  datatype Waiter = Waiter(
    opTerm: int, answer: string, isIgnored: bool, ready: bool, leaderWrong: bool, keyWrong: bool)

  // The answer to a get; a value that was never set is the empty text.
  datatype GetReply = GetReply(wrongLeader: bool, isExist: bool, value: string)

  function Shown(v: Option<string>): string {
    if v.Some? then v.value else ""
  }

  // Everything the apply loop changes.
  datatype World = World(kv: Kv, lastApplied: int, waiters: map<int, Waiter>)

  predicate Parses(m: Message) {
    m.LogMsg? ==> GetOperation(m.msg.cmd).Some?
  }

  function Settled(w: Waiter, o: Operation, term: int, isFresh: bool, db: map<string, string>): Waiter {
    var w1 := w.(leaderWrong := w.leaderWrong || w.opTerm != term, ready := true);
    if o.op == "set" then w1.(isIgnored := w.isIgnored || !isFresh)
    else if o.op == "get" then
      if o.key in db then w1.(answer := db[o.key]) else w1.(keyWrong := true)
    else w1
  }

  // The waiter of an entry, once the entry has been applied to kv.
  function Release(w: Waiter, kv: Kv, o: Operation, term: int): Waiter {
    Settled(w, o, term, Fresh(kv, o), kv.db)
  }

  // One message. An entry is looked up under the index before its own.
  function Handle(w: World, m: Message): World
    requires Parses(m)
  {
    match m
    case SnapMsg(snap, i) =>
      if snap == EMPTY then w.(kv := EMPTY)
      else w.(kv := Recover(w.kv, snap), lastApplied := i)
    case LogMsg(a) => HandleOp(w, GetOperation(a.cmd).value, a.cmdIndex - 1, a.cmdTerm)
  }

  function HandleOp(w: World, o: Operation, index: int, term: int): World {
    World(ApplyOp(w.kv, o), index,
          if index in w.waiters then w.waiters[index := Release(w.waiters[index], w.kv, o, term)] else w.waiters)
  }

  // A request for o waits under the index that `Start` returned.
  function Registered(w: World, ret: StartRet, o: Operation): World {
    w.(waiters := w.waiters[ret.cmdIndex := Waiter(ret.curTerm, o.value, false, false, false, false)])
  }

  function Snapshot(w: World): (Kv, int) {
    (w.kv, w.lastApplied)
  }

  function HandleAll(w: World, ms: seq<Message>): World
    requires forall m :: m in ms ==> Parses(m)
    decreases |ms|
  {
    if ms == [] then w else HandleAll(Handle(w, ms[0]), ms[1..])
  }

  lemma {:induction false} HandleAllLast(w: World, ms: seq<Message>)
    requires ms != [] && forall m :: m in ms ==> Parses(m)
    ensures HandleAll(w, ms) == Handle(HandleAll(w, ms[..|ms| - 1]), ms[|ms| - 1])
    decreases |ms|
  {
    var n := |ms| - 1;
    if n > 0 {
      HandleAllLast(Handle(w, ms[0]), ms[1..]);
      assert ms[1..][..n - 1] == ms[..n][1..];
    }
  }

  // ---------- the waiting thread's record ----------

  class OpContext {
    var op: Operation
    var opTerm: int
    var isIgnored: bool
    var ready: bool
    var leaderWrong: bool
    var keyWrong: bool

    // The state word starts clear, which the program's constructor leaves to chance.
    constructor (o: Operation, term: int)
      ensures op == o && View() == Waiter(term, o.value, false, false, false, false)
    {
      op, opTerm := o, term;
      isIgnored, ready, leaderWrong, keyWrong := false, false, false, false;
    }

    function View(): Waiter
      reads this
    {
      Waiter(opTerm, op.value, isIgnored, ready, leaderWrong, keyWrong)
    }

    // What the apply loop does to the record of the entry's waiter: the term test, the repetition mark of
    // a set, the answer of a get, and the wake-up.
    method Settle(o: Operation, term: int, isFresh: bool, db: map<string, string>)
      modifies this
      ensures View() == Settled(old(View()), o, term, isFresh, db)
    {
      if opTerm != term { leaderWrong := true; }
      if o.op == "set" {
        if !isFresh { isIgnored := true; }
      } else if o.op == "get" {
        if o.key in db {
          op := op.(value := db[o.key]);
        } else {
          keyWrong := true;
        }
      }
      ready := true;
    }
  }

  // Entries of `extra` written one by one over `base`.
  method WriteAll<K, V>(base: map<K, V>, extra: map<K, V>) returns (r: map<K, V>)
    ensures r == base + extra
  {
    r := base;
    var todo := extra.Keys;
    while todo != {}
      invariant todo <= extra.Keys && r.Keys == base.Keys + (extra.Keys - todo)
      invariant forall k :: k in r ==> r[k] == if k in extra && k !in todo then extra[k] else base[k]
      decreases todo
    {
      var k :| k in todo;
      r := r[k := extra[k]];
      todo := todo - {k};
    }
  }

  // ---------- the server ----------

  class KVServer {
    var m_database: map<string, string>
    var m_clientSeqMap: map<int, int>
    var m_lastAppliedIndex: int
    var m_requestMap: map<int, OpContext>

    constructor ()
      ensures Valid() && State() == World(EMPTY, 0, map[])
    {
      m_database, m_clientSeqMap, m_lastAppliedIndex, m_requestMap := map[], map[], 0, map[];
    }

    // Each waiting thread has a record of its own.
    ghost predicate Valid()
      reads this
    {
      forall i, j :: i in m_requestMap && j in m_requestMap && i != j ==> m_requestMap[i] != m_requestMap[j]
    }

    ghost function Waiters(): map<int, Waiter>
      reads this`m_requestMap, m_requestMap.Values
    {
      map i | i in m_requestMap :: m_requestMap[i].View()
    }

    ghost function State(): World
      reads this, m_requestMap.Values
    {
      World(Kv(m_database, m_clientSeqMap), m_lastAppliedIndex, Waiters())
    }

    // The first half of PutImpl and GetImpl: `Start` accepted the operation at ret.
    method Register(o: Operation, ret: StartRet) returns (ctx: OpContext)
      requires Valid() && ret.isLeader
      modifies this`m_requestMap
      ensures Valid() && fresh(ctx) && m_requestMap == old(m_requestMap)[ret.cmdIndex := ctx]
      ensures ctx.op == o
      ensures State() == Registered(old(State()), ret, o)
    {
      ctx := new OpContext(o, ret.curTerm);
      m_requestMap := m_requestMap[ret.cmdIndex := ctx];
      assert Waiters() == old(Waiters())[ret.cmdIndex := ctx.View()] by {
        assert forall i :: i in old(m_requestMap) ==> old(m_requestMap)[i].View() == old(m_requestMap[i].View());
      }
    }

    // The second half of PutImpl: a wrong leader leaves its registration behind.
    method FinishPut(index: int, ctx: OpContext) returns (ok: bool, wrongLeader: bool)
      requires Valid() && ctx.ready
      modifies this`m_requestMap
      ensures Valid() && wrongLeader == ctx.leaderWrong && ok == !ctx.leaderWrong
      ensures m_requestMap == if ctx.leaderWrong then old(m_requestMap) else old(m_requestMap) - {index}
    {
      if ctx.leaderWrong { return false, true; }
      m_requestMap := m_requestMap - {index};
      return true, false;
    }

    // What GetImpl reads before it calls `Start`.
    method ReadAhead(key: string) returns (before: Option<string>)
      ensures before == Lookup(m_database, key)
    {
      before := None;
      if key in m_database { before := Some(m_database[key]); }
    }

    // The second half of GetImpl. `isExist` is what was read ahead, except that a missing key clears it; a
    // successful answer never sets it.
    method FinishGet(index: int, ctx: OpContext, before: Option<string>) returns (reply: GetReply)
      requires Valid() && ctx.ready
      modifies this`m_requestMap
      ensures Valid() && m_requestMap == old(m_requestMap) - {index}
      ensures reply.wrongLeader == ctx.leaderWrong
      ensures reply.isExist <==> before.Some? && (ctx.leaderWrong || !ctx.keyWrong)
      ensures reply.value == if !ctx.leaderWrong && !ctx.keyWrong then ctx.op.value else Shown(before)
    {
      reply := GetReply(false, before.Some?, Shown(before));
      if ctx.leaderWrong {
        reply := reply.(wrongLeader := true);
      } else if ctx.keyWrong {
        reply := reply.(isExist := false);
      } else {
        reply := reply.(value := ctx.op.value);
      }
      m_requestMap := m_requestMap - {index};
    }

    // The waiter registered under this index, if any.
    method SettleWaiter(index: int, o: Operation, term: int, isFresh: bool)
      requires Valid()
      modifies m_requestMap.Values
      ensures Waiters() == if index in old(Waiters())
                           then old(Waiters())[index := Settled(old(Waiters())[index], o, term, isFresh, m_database)]
                           else old(Waiters())
    {
      if index in m_requestMap {
        m_requestMap[index].Settle(o, term, isFresh, m_database);
      }
      assert forall i :: i in m_requestMap && i != index ==> m_requestMap[i].View() == old(m_requestMap[i].View());
    }

    // Writing a snapshot's entries into the maps, in the order the loop meets them.
    method RecoveryFromSnapShot(snap: Kv)
      modifies this`m_database, this`m_clientSeqMap
      ensures Kv(m_database, m_clientSeqMap) == Recover(old(Kv(m_database, m_clientSeqMap)), snap)
    {
      m_database := WriteAll(m_database, snap.db);
      m_clientSeqMap := WriteAll(m_clientSeqMap, snap.seqs);
    }

    // One entry of the log, already parsed; index is one less than the entry's.
    method ApplyOperation(o: Operation, index: int, term: int)
      requires Valid()
      modifies this`m_database, this`m_clientSeqMap, this`m_lastAppliedIndex, m_requestMap.Values
      ensures Valid() && State() == HandleOp(old(State()), o, index, term)
    {
      m_lastAppliedIndex := index;
      var seqexist, prevId := false, 0;
      if o.clientId in m_clientSeqMap {
        seqexist, prevId := true, m_clientSeqMap[o.clientId];
      }
      var isFresh := !seqexist || prevId < o.requestId;
      SettleWaiter(index, o, term, isFresh);
      m_clientSeqMap := m_clientSeqMap[o.clientId := o.requestId];
      if o.op == "set" && isFresh {
        m_database := m_database[o.key := o.value];
      }
    }

    method HandleMessage(m: Message)
      requires Valid() && Parses(m)
      modifies this`m_database, this`m_clientSeqMap, this`m_lastAppliedIndex, m_requestMap.Values
      ensures Valid() && State() == Handle(old(State()), m)
    {
      match m
      case SnapMsg(snap, lastIncluded) =>
        if snap.db == map[] && snap.seqs == map[] {
          m_database, m_clientSeqMap := map[], map[];
        } else {
          RecoveryFromSnapShot(snap);
          m_lastAppliedIndex := lastIncluded;
        }
      case LogMsg(a) =>
        var parsed := ReadOperation(a.cmd);
        ApplyOperation(parsed.value, a.cmdIndex - 1, a.cmdTerm);
    }

    // The snapshot holds both maps, copied entry by entry.
    method GetSnapShot() returns (snap: Kv)
      ensures snap == Kv(m_database, m_clientSeqMap)
    {
      var db := WriteAll(map[], m_database);
      var seqs := WriteAll(map[], m_clientSeqMap);
      snap := Kv(db, seqs);
    }

    // `CheckSnapShotLoop`: the snapshot and the label it is handed to the Raft layer with.
    method CheckSnapShot() returns (snap: Kv, labelled: int)
      requires Valid()
      ensures (snap, labelled) == Snapshot(State())
    {
      snap := GetSnapShot();
      labelled := m_lastAppliedIndex;
    }

    method ApplyLoop(msgs: seq<Message>)
      requires Valid() && forall m :: m in msgs ==> Parses(m)
      modifies this`m_database, this`m_clientSeqMap, this`m_lastAppliedIndex, m_requestMap.Values
      ensures Valid() && State() == HandleAll(old(State()), msgs)
    {
      var i := 0;
      while i < |msgs|
        invariant 0 <= i <= |msgs| && Valid() && m_requestMap == old(m_requestMap)
        invariant State() == HandleAll(old(State()), msgs[..i])
        decreases |msgs| - i
      {
        HandleAllLast(old(State()), msgs[..i + 1]);
        assert msgs[..i + 1][..i] == msgs[..i];
        HandleMessage(msgs[i]);
        i := i + 1;
      }
      assert msgs[..i] == msgs;
    }
  }

  // ---------- what the loop means ----------

  // The operations of a run of entries.
  function Operations(ms: seq<ApplyMsg>): seq<Operation>
    requires forall m :: m in ms ==> GetOperation(m.cmd).Some?
  {
    seq(|ms|, i requires 0 <= i < |ms| => GetOperation(ms[i].cmd).value)
  }

  function Entries(ms: seq<ApplyMsg>): seq<Message> {
    seq(|ms|, i requires 0 <= i < |ms| => LogMsg(ms[i]))
  }

  // Handling entries runs their operations, whatever waits.
  lemma {:induction false} HandleAllRuns(w: World, ms: seq<ApplyMsg>)
    requires forall m :: m in ms ==> GetOperation(m.cmd).Some?
    ensures (forall x :: x in Entries(ms) ==> Parses(x))
    ensures HandleAll(w, Entries(ms)).kv == Run(w.kv, Operations(ms))
    ensures ms != [] ==> HandleAll(w, Entries(ms)).lastApplied == ms[|ms| - 1].cmdIndex - 1
    decreases |ms|
  {
    if ms != [] {
      assert ms[0] in ms;
      assert Entries(ms)[1..] == Entries(ms[1..]) && Operations(ms)[1..] == Operations(ms[1..]);
      HandleAllRuns(Handle(w, LogMsg(ms[0])), ms[1..]);
    }
  }

  // What `CheckSnapShotLoop` takes from a server that has handled entries: its state, labelled with the
  // index before the last entry's.
  lemma {:induction false} SnapshotLabelIsLate(w: World, ms: seq<ApplyMsg>)
    requires ms != [] && forall m :: m in ms ==> GetOperation(m.cmd).Some?
    ensures forall x :: x in Entries(ms) ==> Parses(x)
    ensures Snapshot(HandleAll(w, Entries(ms))) == (Run(w.kv, Operations(ms)), ms[|ms| - 1].cmdIndex - 1)
  {
    HandleAllRuns(w, ms);
  }

  // ---------- a waiting request among others ----------

  // Between two entries other requests may come and go.
  datatype Happening =
    | Applies(msg: ApplyMsg)
    | Registers(ret: StartRet, op: Operation)
    | Leaves(index: int)

  predicate CanHappen(h: Happening) {
    h.Applies? ==> GetOperation(h.msg.cmd).Some?
  }

  function Happen(w: World, h: Happening): World
    requires CanHappen(h)
  {
    match h
    case Applies(m) => Handle(w, LogMsg(m))
    case Registers(ret, o) => Registered(w, ret, o)
    case Leaves(i) => w.(waiters := w.waiters - {i})
  }

  function HappenAll(w: World, hs: seq<Happening>): World
    requires forall h :: h in hs ==> CanHappen(h)
    decreases |hs|
  {
    if hs == [] then w else HappenAll(Happen(w, hs[0]), hs[1..])
  }

  // The entries applied along the way.
  function AppliedIn(hs: seq<Happening>): seq<ApplyMsg> {
    if hs == [] then [] else (if hs[0].Applies? then [hs[0].msg] else []) + AppliedIn(hs[1..])
  }

  // Nothing here concerns the waiter under this index.
  predicate LeavesAlone(h: Happening, index: int) {
    match h
    case Applies(m) => m.cmdIndex - 1 != index
    case Registers(ret, _) => ret.cmdIndex != index
    case Leaves(i) => i != index
  }

  lemma HappenKeeps(w: World, h: Happening, index: int)
    requires CanHappen(h) && LeavesAlone(h, index) && index in w.waiters
    ensures index in Happen(w, h).waiters && Happen(w, h).waiters[index] == w.waiters[index]
    ensures Happen(w, h).kv == if h.Applies? then ApplyOp(w.kv, GetOperation(h.msg.cmd).value) else w.kv
  {
  }

  lemma OperationsOfOneMore(m: ApplyMsg, ms: seq<ApplyMsg>)
    requires forall x :: x in [m] + ms ==> GetOperation(x.cmd).Some?
    ensures Operations([m] + ms)[0] == GetOperation(m.cmd).value && Operations([m] + ms)[1..] == Operations(ms)
  {
    assert ([m] + ms)[1..] == ms;
  }

  // A waiter stays as it is until its own entry comes, while the machine runs the entries before it.
  lemma {:induction false} WaiterStays(w: World, hs: seq<Happening>, index: int)
    requires forall h :: h in hs ==> CanHappen(h) && LeavesAlone(h, index)
    requires index in w.waiters
    ensures forall m :: m in AppliedIn(hs) ==> GetOperation(m.cmd).Some?
    ensures HappenAll(w, hs).kv == Run(w.kv, Operations(AppliedIn(hs)))
    ensures index in HappenAll(w, hs).waiters && HappenAll(w, hs).waiters[index] == w.waiters[index]
    decreases |hs|
  {
    if hs != [] {
      var h, rest := hs[0], AppliedIn(hs[1..]);
      HappenKeeps(w, h, index);
      WaiterStays(Happen(w, h), hs[1..], index);
      if h.Applies? {
        assert AppliedIn(hs) == [h.msg] + rest;
        OperationsOfOneMore(h.msg, rest);
      } else {
        assert AppliedIn(hs) == [] + rest == rest;
      }
    }
  }

  // Marks stay: whatever is handled while a request is registered, its own entry handed up again included, no
  // mark is taken back, and it is still waiting for the same term.
  lemma {:induction false} MarksStay(w: World, hs: seq<Happening>, index: int)
    requires forall h :: h in hs ==> CanHappen(h) && (!h.Applies? ==> LeavesAlone(h, index))
    requires index in w.waiters
    ensures index in HappenAll(w, hs).waiters
    ensures Marked(w.waiters[index], HappenAll(w, hs).waiters[index])
    decreases |hs|
  {
    if hs != [] { MarksStay(Happen(w, hs[0]), hs[1..], index); }
  }

  ghost predicate Marked(x: Waiter, y: Waiter) {
    && y.opTerm == x.opTerm && (x.ready ==> y.ready)
    && (x.leaderWrong ==> y.leaderWrong) && (x.keyWrong ==> y.keyWrong) && (x.isIgnored ==> y.isIgnored)
  }

  // The label of a snapshot is one less than the index of the last entry in it, so the Raft layer hands
  // that entry up again after a recovery; the state is the same as if it had not.
  lemma {:induction false} RecoveryReplaysOneEntry(ms: seq<ApplyMsg>, k: nat, j: nat)
    requires j <= k <= |ms| && 1 <= k
    requires forall i :: 0 <= i < |ms| ==> ms[i].cmdIndex == i + 1 && GetOperation(ms[i].cmd).Some?
    ensures forall x :: x in Entries(ms) + Entries(ms[..k]) + Entries(ms[..j]) + Entries(ms[k - 1..]) ==> Parses(x)
    ensures var start := World(EMPTY, 0, map[]);
            var taken := HandleAll(start, Entries(ms[..k]));
            var node := HandleAll(start, Entries(ms[..j]));
            && taken.kv != EMPTY && taken.lastApplied == k - 1
            && HandleAll(Handle(node, SnapMsg(taken.kv, taken.lastApplied)), Entries(ms[k - 1..])).kv
               == HandleAll(start, Entries(ms)).kv
  {
    var start := World(EMPTY, 0, map[]);
    OperationsSlices(ms, j, k);
    HandleAllRuns(start, ms[..k]);
    HandleAllRuns(start, ms[..j]);
    HandleAllRuns(start, ms);
    var taken, node := HandleAll(start, Entries(ms[..k])), HandleAll(start, Entries(ms[..j]));
    HandleAllRuns(Handle(node, SnapMsg(taken.kv, taken.lastApplied)), ms[k - 1..]);
    RunKnowsClient(EMPTY, Operations(ms[..k]));
    RecoveredNodeCatchesUp(Operations(ms), j, k, |ms|);
  }

  // A snapshot keeps its label: a server that takes it, whatever it held before, labels its own next snapshot the
  // same until it handles an entry. A server that is sent an empty one keeps its label and has empty maps. Nobody
  // waiting is touched.
  lemma {:induction false} LabelAfterRecovery(origin: World, ms: seq<ApplyMsg>, node: World, i: int)
    requires ms != [] && forall m :: m in ms ==> GetOperation(m.cmd).Some?
    ensures forall x :: x in Entries(ms) ==> Parses(x)
    ensures var (snap, labelled) := Snapshot(HandleAll(origin, Entries(ms)));
            var taken := Handle(node, SnapMsg(snap, labelled));
            && Snapshot(taken).1 == labelled == ms[|ms| - 1].cmdIndex - 1
            && taken.waiters == node.waiters
            && (node.kv == EMPTY ==> Snapshot(taken) == (snap, labelled))
    ensures var cleared := Handle(node, SnapMsg(EMPTY, i));
            Snapshot(cleared) == (EMPTY, Snapshot(node).1) && cleared.waiters == node.waiters
  {
    SnapshotLabelIsLate(origin, ms);
    RunKnowsClient(origin.kv, Operations(ms));
    assert map[] + Run(origin.kv, Operations(ms)).db == Run(origin.kv, Operations(ms)).db;
    assert map[] + Run(origin.kv, Operations(ms)).seqs == Run(origin.kv, Operations(ms)).seqs;
  }

  // A machine that ran operations knows a client.
  lemma RunKnowsClient(kv: Kv, ops: seq<Operation>)
    requires ops != []
    ensures Run(kv, ops) != EMPTY
  {
    RunLast(kv, ops);
    assert ops[|ops| - 1].clientId in Run(kv, ops).seqs;
  }

  lemma OperationsSlices(ms: seq<ApplyMsg>, j: nat, k: nat)
    requires j <= k <= |ms| && 1 <= k && forall m :: m in ms ==> GetOperation(m.cmd).Some?
    ensures forall m :: m in ms[..k] + ms[..j] + ms[k - 1..] ==> m in ms
    ensures Operations(ms)[..k] == Operations(ms[..k]) && Operations(ms)[..j] == Operations(ms[..j])
    ensures Operations(ms)[k - 1..|ms|] == Operations(ms[k - 1..]) && Operations(ms)[..|ms|] == Operations(ms)
  {
  }
}
