/** What holds in every reachable state of the merkleizer, whatever the interleaving. */
module Merkleization {
  import opened Options
  import opened Trie
  import opened Sharding
  import opened Accounts
  import opened ShardWorker
  import opened Routing
  import opened Protocol
  import opened ProtocolSteps
  import opened CollectionSteps
  import opened Merkleizer

  ghost predicate Safe(g: Setting, c: System) {
    Formed(c) && !c.failed && Inv(g, Abs(c)) && SendersHeld(c)
  }

  /** A worker that has something left to send still holds its senders. */
  predicate SendersHeld(c: System) requires Formed(c) {
    forall i: Nibble :: !c.workers[i].open ==> c.outboxes[i] == []
  }

  /** Only a worker that still holds its senders sends. */
  lemma {:induction false} HandleOpen(w: Worker, me: Nibble, m: Msg)
    ensures Handle(w, me, m).sends != [] ==> Handle(w, me, m).worker.open
  {}

  lemma {:induction false} HeldStep(c: System, m: Move)
    requires Formed(c) && Enabled(c, m) && SendersHeld(c) && !m.Disconnect?
    ensures SendersHeld(Do(c, m))
  {
    if m.Receive? { HandleOpen(c.workers[m.i], m.i, c.queues[m.i][0]); }
    if m.CollectTrie? && !c.workers[m.i].open { assert Do(c, m).outboxes[m.i] == []; }
  }

  // ---------------------------------------------------------------- no send fails

  lemma {:induction false} ScriptSender(us: seq<Update>)
    ensures forall m | m in Script(us) :: Sender(m) == 16
  {
    if us != [] { ScriptSender(us[1..]); }
  }

  lemma {:induction false} CoordSender(us: seq<Update>, q: seq<Msg>, m: Msg)
    requires CoordOk(us, q) && m in q
    ensures Sender(m) == 16
  {
    if |q| >= 2 { ScriptSender(us[|us| + 2 - |q|..]); }
  }

  /** A pending account still waits for some shard. */
  lemma {:induction false} PendingShardMissing(g: Setting, o: Nibble, w: Worker, us: seq<Update>) returns (a: Key, j: Nibble)
    requires OwnerOk(g, o, w, us) && w.pending > 0
    ensures Bucket(a) == o && j in Mask(us, a) && j !in Got(w, a)
  {
    assert Unresolved(w.expected, w.received) != {};
    a :| a in Unresolved(w.expected, w.received);
    assert RecordOk(g, w, us, a) && ShardsOk(g, w, us, a);
    j := Missing(Mask(us, a), Got(w, a));
  }

  lemma {:induction false} Missing<T>(mask: set<T>, got: set<T>) returns (j: T)
    requires got <= mask && got != mask
    ensures j in mask && j !in got
    decreases |mask|
  {
    assert mask != {};
    j :| j in mask;
    assert (mask - {j}) + {j} == mask && (j in got ==> (got - {j}) + {j} == got);
    if j in got { j := Missing(mask - {j}, got - {j}); }
  }

  /** A shard that is awaited and not yet received keeps its account pending. */
  lemma {:induction false} AwaitedPending(g: Setting, o: Nibble, w: Worker, us: seq<Update>, a: Key, j: Nibble)
    requires OwnerOk(g, o, w, us) && Bucket(a) == o && j in Mask(us, a) && j !in Got(w, a)
    ensures w.pending > 0
  {
    assert RecordOk(g, w, us, a);
    assert a in Unresolved(w.expected, w.received);
  }

  /** A worker to which something is under way has not finished. */
  lemma {:induction false} ReceiverLive(g: Setting, v: View, s: Nibble, d: Nibble)
    requires Inv(g, v) && v.pipes[s][d] != []
    ensures v.workers[d].status.Running?
  {
    assert PhaseOk(v.workers[d], v.coord[d]);
    if v.workers[d].status.Finished? {
      AllHasEvery(s);
      assert LinkOk(s, d, v.pipes[s][d], Routed(v.coord[s]), v.workers[s].routingComplete, v.workers[d].routed);
      var m := v.pipes[s][d][0];
      assert m in v.pipes[s][d] && Rank(m) == 2 && MsgOk(m, s, d);
      assert TransitOk(g, s, m.account, v.workers[s], v.pipes[s][d], Got(v.workers[d], m.account), Handled(g, v, d));
      AwaitedPending(g, d, v.workers[d], Handled(g, v, d), m.account, s);
      assert false;
    }
  }

  lemma {:induction false} DispatchSafe(g: Setting, c: System)
    requires Safe(g, c) && Enabled(c, Dispatch)
    ensures Safe(g, Do(c, Dispatch))
  {
    var v, m := Abs(c), c.program[0];
    ToHead(c.program, m.to);
    assert m.msg in v.coord[m.to];
    assert CoordOk(Mine(g, m.to), v.coord[m.to]) && PhaseOk(v.workers[m.to], v.coord[m.to]);
    CoordSender(Mine(g, m.to), v.coord[m.to], m.msg);
    DispatchAbs(c);
    HeldStep(c, Dispatch);
  }

  lemma {:induction false} InFlight(g: Setting, v: View, s: Nibble, d: Nibble, m: Msg)
    requires Inv(g, v) && m in v.pipes[s][d]
    ensures Sender(m) == s && v.workers[d].status.Running?
  {
    assert LinkOk(s, d, v.pipes[s][d], Routed(v.coord[s]), v.workers[s].routingComplete, v.workers[d].routed);
    ReceiverLive(g, v, s, d);
  }

  lemma {:induction false} TransmitSafe(g: Setting, c: System, i: Nibble)
    requires Safe(g, c) && Enabled(c, Transmit(i))
    ensures Safe(g, Do(c, Transmit(i)))
  {
    var m := c.outboxes[i][0];
    ToHead(c.outboxes[i], m.to);
    InFlight(g, Abs(c), i, m.to, m.msg);
    TransmitAbs(c, i);
    HeldStep(c, Transmit(i));
  }

  // ---------------------------------------------------------------- handlers

  lemma {:induction false} StepCoord(g: Setting, v: View, i: Nibble)
    requires Inv(g, v) && v.coord[i] != [] && v.workers[i].status.Running?
    ensures Inv(g, RecvCoord(v, i))
  {
    if |v.coord[i]| > 2 { StepUpdate(g, v, i); }
    else if |v.coord[i]| == 2 { StepFinish(g, v, i); }
    else { StepCollectState(g, v, i); }
  }

  lemma {:induction false} StepPipe(g: Setting, v: View, s: Nibble, i: Nibble)
    requires Inv(g, v) && v.pipes[s][i] != [] && v.workers[i].status.Running?
    ensures Inv(g, RecvPipe(v, s, i))
  {
    assert LinkOk(s, i, v.pipes[s][i], Routed(v.coord[s]), v.workers[s].routingComplete, v.workers[i].routed);
    assert v.pipes[s][i][0] in v.pipes[s][i];
    if Rank(v.pipes[s][i][0]) == 0 { StepOp(g, v, s, i); }
    else if Rank(v.pipes[s][i][0]) == 1 { StepRoutingDone(g, v, s, i); }
    else { StepShard(g, v, s, i); }
  }

  lemma {:induction false} ReceiveInv(g: Setting, c: System, i: Nibble)
    requires Formed(c) && Inv(g, Abs(c)) && Enabled(c, Receive(i))
    ensures Inv(g, Abs(Do(c, Receive(i))))
  {
    if Sender(c.queues[i][0]) == 16 {
      ReceiveCoordAbs(c, i);
      StepCoord(g, Abs(c), i);
    } else {
      var s: Nibble := Sender(c.queues[i][0]);
      ReceivePipeAbs(c, i, s);
      StepPipe(g, Abs(c), s, i);
    }
  }

  lemma {:induction false} ReceiveSafe(g: Setting, c: System, i: Nibble)
    requires Safe(g, c) && Enabled(c, Receive(i))
    ensures Safe(g, Do(c, Receive(i)))
  {
    ReceiveInv(g, c, i);
    HeldStep(c, Receive(i));
  }

  lemma {:induction false} CollectSafe(g: Setting, c: System, i: Nibble, a: Key)
    requires Safe(g, c) && Enabled(c, CollectTrie(i, a))
    ensures Safe(g, Do(c, CollectTrie(i, a)))
  {
    CollectAbs(c, i, a);
    StepCollect(g, Abs(c), i, a);
    HeldStep(c, CollectTrie(i, a));
  }

  lemma {:induction false} CloseSafe(g: Setting, c: System, i: Nibble)
    requires Safe(g, c) && Enabled(c, CloseCollection(i))
    ensures Safe(g, Do(c, CloseCollection(i)))
  {
    CloseAbs(c, i);
    StepEnd(g, Abs(c), i);
    HeldStep(c, CloseCollection(i));
  }

  // ---------------------------------------------------------------- a worker never starves

  /** Nothing is under way to worker i from worker s. */
  lemma {:induction false} QuietPipe(c: System, s: Nibble, i: Nibble)
    requires Formed(c) && c.queues[i] == [] && c.outboxes[s] == []
    ensures Abs(c).pipes[s][i] == []
  {}

  /** While some worker waits for good, a shard it waits for is still under way. */
  lemma {:induction false} Starved(g: Setting, v: View, i: Nibble) returns (j: Nibble)
    requires Inv(g, v) && v.workers[i].status.Running? && v.coord[i] == []
    requires forall x: Nibble :: v.workers[x].routingComplete && !v.workers[x].collecting
    ensures v.pipes[j][i] != []
  {
    assert PhaseOk(v.workers[i], v.coord[i]);
    assert OwnerOk(g, i, v.workers[i], Handled(g, v, i));
    var a: Key;
    a, j := PendingShardMissing(g, i, v.workers[i], Handled(g, v, i));
    assert PhaseOk(v.workers[j], v.coord[j]);
    assert TransitOk(g, j, a, v.workers[j], v.pipes[j][i], Got(v.workers[i], a), Handled(g, v, i));
  }

  lemma {:induction false} Closed(g: Setting, v: View)
    requires Inv(g, v)
    ensures forall j: Nibble :: !v.workers[j].open || !v.workers[j].status.Running? ==>
              !v.workers[j].open && v.workers[j].routingComplete && !v.workers[j].collecting
  {
    forall j: Nibble
      ensures !v.workers[j].open || !v.workers[j].status.Running? ==>
                !v.workers[j].open && v.workers[j].routingComplete && !v.workers[j].collecting
    {
      assert PhaseOk(v.workers[j], v.coord[j]);
    }
  }

  /** A worker whose queue is empty and to which no one can send any more has finished. */
  lemma {:induction false} NeverDisconnected(g: Setting, c: System, i: Nibble)
    requires Safe(g, c)
    ensures !Enabled(c, Disconnect(i))
  {
    if Enabled(c, Disconnect(i)) {
      Closed(g, Abs(c));
      var j := Starved(g, Abs(c), i);
      QuietPipe(c, j, i);
      assert false;
    }
  }

  // ---------------------------------------------------------------- every run

  lemma {:induction false} SafeStep(g: Setting, c: System, m: Move)
    requires Safe(g, c) && Enabled(c, m)
    ensures Safe(g, Do(c, m)) && !m.Disconnect?
  {
    match m
    case Dispatch => DispatchSafe(g, c);
    case Transmit(i) => TransmitSafe(g, c, i);
    case Receive(i) => ReceiveSafe(g, c, i);
    case CollectTrie(i, a) => CollectSafe(g, c, i, a);
    case CloseCollection(i) => CloseSafe(g, c, i);
    case Disconnect(i) => NeverDisconnected(g, c, i);
  }

  lemma {:induction false} EveryRunSafe(g: Setting, c: System, ms: seq<Move>)
    requires Reachable(g, c, ms)
    ensures Safe(g, c)
    decreases |ms|
  {
    if ms == [] {
      StartAbs(g);
      InitialInv(g);
    } else {
      var b: System :| Reachable(g, b, ms[..|ms| - 1]) && Formed(b) && Enabled(b, ms[|ms| - 1]) && c == Do(b, ms[|ms| - 1]);
      EveryRunSafe(g, b, ms[..|ms| - 1]);
      SafeStep(g, b, ms[|ms| - 1]);
    }
  }

  /** No worker panics, loses its channel or sends to a worker that has finished. */
  lemma {:induction false} NoAbort(g: Setting, c: System, ms: seq<Move>)
    requires Reachable(g, c, ms)
    ensures Formed(c) && !c.failed && forall i: Nibble :: !c.workers[i].status.Aborted? && !Enabled(c, Disconnect(i))
  {
    EveryRunSafe(g, c, ms);
    forall i: Nibble ensures !c.workers[i].status.Aborted? && !Enabled(c, Disconnect(i)) {
      assert PhaseOk(Abs(c).workers[i], Abs(c).coord[i]);
      NeverDisconnected(g, c, i);
    }
  }

  // ---------------------------------------------------------------- the barrier

  /** Slot writes and wipes, the messages that change a storage trie. */
  predicate Routes(m: Msg) { m.MerklizeStorage? || m.DeleteStorage? }

  /** Once a worker collects, no write or wipe for it is queued or about to be sent. */
  lemma {:induction false} Barrier(g: Setting, c: System, ms: seq<Move>, i: Nibble)
    requires Reachable(g, c, ms) && c.workers[i].routingComplete
    ensures forall m | m in c.queues[i] :: !Routes(m)
    ensures forall s: Nibble, m | m in To(c.outboxes[s], i) :: !Routes(m)
    ensures forall s: Nibble :: s in c.workers[i].routed
  {
    EveryRunSafe(g, c, ms);
    forall s: Nibble
      ensures forall m | m in Abs(c).pipes[s][i] :: !Routes(m)
      ensures s in c.workers[i].routed
    {
      BarrierLink(g, Abs(c), s, i);
    }
    forall m | m in c.queues[i] ensures !Routes(m) {
      FromMember(c.queues[i], m);
      assert Sender(m) < 16 ==> m in Abs(c).pipes[Sender(m)][i];
    }
  }

  lemma {:induction false} BarrierLink(g: Setting, v: View, s: Nibble, i: Nibble)
    requires Inv(g, v) && v.workers[i].routingComplete
    ensures forall m | m in v.pipes[s][i] :: !Routes(m)
    ensures s in v.workers[i].routed
  {
    AllHasEvery(s);
    assert PhaseOk(v.workers[i], v.coord[i]);
    assert LinkOk(s, i, v.pipes[s][i], Routed(v.coord[s]), v.workers[s].routingComplete, v.workers[i].routed);
  }

  // ---------------------------------------------------------------- the accounting of shards

  lemma {:induction false} ViewMaskFinal(g: Setting, v: View, i: Nibble, a: Key)
    requires Inv(g, v) && v.workers[i].routingComplete
    ensures var o := Bucket(a);
            && Routed(v.coord[o])
            && (i in Awaited(v.workers[o], a) <==>
                  a in v.workers[i].toCollect || ShardIn(v.pipes[i][o], a) || i in Got(v.workers[o], a))
            && !(a in v.workers[i].toCollect && ShardIn(v.pipes[i][o], a))
            && !(a in v.workers[i].toCollect && i in Got(v.workers[o], a))
            && !(ShardIn(v.pipes[i][o], a) && i in Got(v.workers[o], a))
            && v.workers[o].pending == |Unresolved(v.workers[o].expected, v.workers[o].received)|
  {
    var o := Bucket(a);
    if !Routed(v.coord[o]) { StillRouting(g, v, o); }
    assert OwnerOk(g, o, v.workers[o], Handled(g, v, o)) && RecordOk(g, v.workers[o], Handled(g, v, o), a);
    assert TransitOk(g, i, a, v.workers[i], v.pipes[i][o], Got(v.workers[o], a), Handled(g, v, o));
  }

  /** Once a worker starts to collect, an owner's mask is final: no update for the owner is
      left, and the mask names the worker exactly when one shard of the worker is still to be
      collected, under way, or received. */
  lemma {:induction false} MaskFinal(g: Setting, c: System, ms: seq<Move>, i: Nibble, a: Key)
    requires Reachable(g, c, ms) && c.workers[i].routingComplete
    ensures var o := Bucket(a);
            && (forall m | m in c.queues[o] :: !m.ProcessAccount?)
            && (forall m | m in To(c.program, o) :: !m.ProcessAccount?)
            && (i in Awaited(c.workers[o], a) <==>
                  a in c.workers[i].toCollect || ShardIn(Abs(c).pipes[i][o], a) || i in Got(c.workers[o], a))
            && !(a in c.workers[i].toCollect && ShardIn(Abs(c).pipes[i][o], a))
            && !(a in c.workers[i].toCollect && i in Got(c.workers[o], a))
            && !(ShardIn(Abs(c).pipes[i][o], a) && i in Got(c.workers[o], a))
            && c.workers[o].pending == |Unresolved(c.workers[o].expected, c.workers[o].received)|
  {
    EveryRunSafe(g, c, ms);
    ViewMaskFinal(g, Abs(c), i, a);
    NoUpdatesLeft(g, c, Bucket(a));
  }

  lemma {:induction false} NoUpdatesLeft(g: Setting, c: System, o: Nibble)
    requires Formed(c) && InvCoord(g, Abs(c)) && Routed(Abs(c).coord[o])
    ensures forall m | m in c.queues[o] :: !m.ProcessAccount?
    ensures forall m | m in To(c.program, o) :: !m.ProcessAccount?
  {
    assert CoordOk(Mine(g, o), Abs(c).coord[o]);
    forall m | m in c.queues[o] ensures !m.ProcessAccount? {
      FromMember(c.queues[o], m);
      assert Sender(m) == 16 ==> m in Abs(c).coord[o];
    }
    forall m | m in To(c.program, o) ensures !m.ProcessAccount? { assert m in Abs(c).coord[o]; }
  }

  lemma {:induction false} PendingAfter(w: Worker, a: Key, i: Nibble, sub: StorageChoices)
    requires Completes(w, a, i) ==> a in w.accounts && w.pending > 0
    ensures w.pending == HandleShard(w, a, i, sub).worker.pending + if Completes(w, a, i) then 1 else 0
  {}

  /** What is known of a shard under way to its owner. */
  ghost predicate ShardFits(w: Worker, a: Key, i: Nibble) {
    && i in Awaited(w, a) && i !in Got(w, a) && a in Unresolved(w.expected, w.received)
    && (Completes(w, a, i) ==> a in w.accounts && w.pending > 0)
  }

  lemma {:induction false} ViewShardFits(g: Setting, v: View, s: Nibble, i: Nibble, m: Msg)
    requires Inv(g, v) && v.pipes[s][i] != [] && v.pipes[s][i][0] == m && m.StorageShard?
    ensures ShardFits(v.workers[i], m.account, s)
  {
    var us := Handled(g, v, i);
    assert LinkOk(s, i, v.pipes[s][i], Routed(v.coord[s]), v.workers[s].routingComplete, v.workers[i].routed);
    assert m in v.pipes[s][i];
    assert TransitOk(g, s, m.account, v.workers[s], v.pipes[s][i], Got(v.workers[i], m.account), us);
    assert OwnerOk(g, i, v.workers[i], us);
    OwnerFits(g, i, v.workers[i], us, m.account, s);
  }

  lemma {:induction false} OwnerFits(g: Setting, o: Nibble, w: Worker, us: seq<Update>, a: Key, i: Nibble)
    requires OwnerOk(g, o, w, us) && Bucket(a) == o && i in Mask(us, a) && i !in Got(w, a)
    ensures ShardFits(w, a, i)
  {
    assert RecordOk(g, w, us, a);
    MaskSeen(us, a);
    AwaitedPending(g, o, w, us, a, i);
  }

  /** A shard that arrives is awaited and new, so an account is resolved once, by its last shard. */
  lemma {:induction false} ShardOnce(g: Setting, c: System, ms: seq<Move>, i: Nibble)
    requires Reachable(g, c, ms) && Formed(c) && Enabled(c, Receive(i)) && c.queues[i][0].StorageShard?
    ensures var m, w, w' := c.queues[i][0], c.workers[i], Do(c, Receive(i)).workers[i];
            && m.index in Awaited(w, m.account) && m.index !in Got(w, m.account)
            && m.account in Unresolved(w.expected, w.received)
            && w.pending == w'.pending + (if Awaited(w, m.account) == Got(w, m.account) + {m.index} then 1 else 0)
  {
    var m := c.queues[i][0];
    ShardReceived(g, c, ms, i, m);
    PendingAfter(c.workers[i], m.account, m.index, m.subroot);
  }

  lemma {:induction false} ShardReceived(g: Setting, c: System, ms: seq<Move>, i: Nibble, m: Msg)
    requires Reachable(g, c, ms) && Formed(c) && c.queues[i] != [] && c.queues[i][0] == m && m.StorageShard?
    ensures ShardFits(c.workers[i], m.account, m.index)
  {
    EveryRunSafe(g, c, ms);
    ShardArrives(g, c, i, m);
  }

  lemma {:induction false} ShardArrives(g: Setting, c: System, i: Nibble, m: Msg)
    requires Formed(c) && Inv(g, Abs(c)) && c.queues[i] != [] && c.queues[i][0] == m && m.StorageShard?
    ensures ShardFits(c.workers[i], m.account, m.index)
  {
    HeadOfPipe(c, i, m.index);
    ViewShardFits(g, Abs(c), m.index, i, m);
  }

  // ---------------------------------------------------------------- no reachable state is stuck

  ghost predicate Stuck(c: System) requires Formed(c) {
    forall m: Move :: !Enabled(c, m)
  }

  ghost predicate AllFinished(c: System) requires Formed(c) {
    forall i: Nibble :: c.workers[i].status.Finished?
  }

  /** Nothing is left to send or to receive, and no live worker collects. */
  lemma {:induction false} StuckQuiet(c: System, i: Nibble)
    requires Formed(c) && !c.failed && Stuck(c)
    ensures c.program == [] && c.outboxes[i] == []
    ensures c.workers[i].status.Running? ==> c.queues[i] == [] && !c.workers[i].collecting
  {
    assert !Enabled(c, Dispatch) && !Enabled(c, Transmit(i)) && !Enabled(c, Receive(i)) && !Enabled(c, CloseCollection(i));
    if c.workers[i].status.Running? && c.workers[i].collecting {
      var a :| a in c.workers[i].toCollect;
      assert Enabled(c, CollectTrie(i, a));
      assert false;
    }
  }

  lemma {:induction false} StuckPipe(g: Setting, c: System, s: Nibble, d: Nibble)
    requires Safe(g, c) && Stuck(c)
    ensures Abs(c).pipes[s][d] == [] && (c.workers[d].status.Running? ==> Abs(c).coord[d] == [])
  {
    StuckQuiet(c, s);
    StuckQuiet(c, d);
    if Abs(c).pipes[s][d] != [] { ReceiverLive(g, Abs(c), s, d); }
  }

  lemma {:induction false} QuietComplete(g: Setting, v: View, d: Nibble)
    requires Inv(g, v) && forall s: Nibble :: v.pipes[s][d] == [] && v.coord[s] == []
    ensures v.workers[d].routingComplete
  {
    forall s: Nibble ensures s in v.workers[d].routed {
      assert LinkOk(s, d, v.pipes[s][d], Routed(v.coord[s]), v.workers[s].routingComplete, v.workers[d].routed);
    }
    assert v.workers[d].routed == ALL;
    assert PhaseOk(v.workers[d], v.coord[d]);
  }

  /** With nothing under way and no one collecting, every worker has finished. */
  lemma {:induction false} QuietFinished(g: Setting, v: View, i: Nibble)
    requires Inv(g, v)
    requires forall s: Nibble, d: Nibble :: v.pipes[s][d] == []
    requires forall d: Nibble :: v.coord[d] == [] && !v.workers[d].collecting
    ensures v.workers[i].status.Finished?
  {
    forall d: Nibble ensures v.workers[d].routingComplete { QuietComplete(g, v, d); }
    assert PhaseOk(v.workers[i], v.coord[i]);
    if v.workers[i].status.Running? {
      var j := Starved(g, v, i);
      assert false;
    }
  }

  lemma {:induction false} StuckCoord(g: Setting, c: System, d: Nibble)
    requires Safe(g, c) && Stuck(c)
    ensures Abs(c).coord[d] == [] && !c.workers[d].collecting
  {
    StuckPipe(g, c, d, d);
    StuckQuiet(c, d);
    assert PhaseOk(Abs(c).workers[d], Abs(c).coord[d]);
  }

  lemma {:induction false} EmptyQueue(c: System, i: Nibble)
    requires Formed(c) && Abs(c).coord[i] == [] && forall s: Nibble :: Abs(c).pipes[s][i] == []
    ensures c.queues[i] == []
  {
    forall s: nat | s <= 16 ensures From(c.queues[i], s) == [] {
      assert s < 16 ==> Abs(c).pipes[s][i] == [];
    }
    NoSenders(c.queues[i]);
  }

  lemma {:induction false} NoSenders(q: seq<Msg>)
    requires forall s: nat | s <= 16 :: From(q, s) == []
    ensures q == []
  {
    if q != [] { FromMember(q, q[0]); }
  }

  /** A state in which nobody can move is one in which every worker has delivered its part. */
  lemma {:induction false} NeverStuck(g: Setting, c: System, ms: seq<Move>)
    requires Reachable(g, c, ms) && Stuck(c)
    ensures AllFinished(c) && c.program == [] && forall i: Nibble :: c.queues[i] == [] && c.outboxes[i] == []
  {
    EveryRunSafe(g, c, ms);
    forall d: Nibble { StuckCoord(g, c, d); }
    forall s: Nibble, d: Nibble { StuckPipe(g, c, s, d); }
    forall i: Nibble ensures c.workers[i].status.Finished? && c.queues[i] == [] {
      QuietFinished(g, Abs(c), i);
      EmptyQueue(c, i);
    }
    forall i: Nibble { StuckQuiet(c, i); }
    StuckQuiet(c, 0);
  }

  // ---------------------------------------------------------------- the result

  /** What a worker that is done holds for each of its accounts is the serial account. */
  lemma {:induction false} OwnedSlice(g: Setting, o: Nibble, w: Worker, us: seq<Update>)
    requires OwnerOk(g, o, w, us) && w.pending == 0
    ensures SameSlice(w.state, SerialRun(g.parent, us), o)
  {
    assert Unresolved(w.expected, w.received) == {};
    forall a: Key | Bucket(a) == o
      ensures GetRoot(w.state, a) == GetRoot(SerialRun(g.parent, us), a)
    {
      assert RecordOk(g, w, us, a) && a !in Unresolved(w.expected, w.received);
      if Mask(us, a) != {} { Normalised(g.parent, us, a); }
    }
  }

  /** The choice of slice o in the branch of the serial result. */
  ghost predicate RightChoice(g: Setting, o: Nibble, cs: Choices<Account>) {
    |cs| == 16 && cs[o] == Branchify(SerialRun(g.parent, g.stream))[o]
  }

  lemma {:induction false} OwnChoice(g: Setting, o: Nibble, w: Worker)
    requires OwnerOk(g, o, w, Mine(g, o)) && w.pending == 0
    ensures RightChoice(g, o, Branchify(w.state))
  {
    OwnedSlice(g, o, w, Mine(g, o));
    SliceChoice(w.state, SerialRun(g.parent, Mine(g, o)), o);
    OwnerSlice(g.parent, g.stream, o);
    SliceChoice(SerialRun(g.parent, Mine(g, o)), SerialRun(g.parent, g.stream), o);
  }

  /** The choice a finished worker hands to the coordinator is the serial one. */
  lemma {:induction false} FinishedChoice(g: Setting, v: View, o: Nibble)
    requires Inv(g, v) && v.workers[o].status.Finished?
    ensures RightChoice(g, o, v.workers[o].status.subroot)
  {
    assert PhaseOk(v.workers[o], v.coord[o]);
    assert OwnerOk(g, o, v.workers[o], Handled(g, v, o));
    OwnChoice(g, o, v.workers[o]);
  }

  // ---------------------------------------------------------------- the coordinator gathers

  /** One worker's answer to the coordinator. */
  datatype Collected = Collected(index: Nibble, subroot: Choices<Account>)

  function Gathered(answers: seq<Collected>): (root: Choices<Account>)
    requires forall m | m in answers :: |m.subroot| == 16
    ensures |root| == 16
  {
    if answers == [] then EmptyChoices()
    else
      var m := answers[|answers| - 1];
      Gathered(answers[..|answers| - 1])[m.index := m.subroot[m.index]]
  }

  method GatherRoot(answers: seq<Collected>) returns (root: Choices<Account>)
    requires forall m | m in answers :: |m.subroot| == 16
    ensures root == Gathered(answers)
  {
    root := EmptyChoices();
    for n := 0 to |answers|
      invariant root == Gathered(answers[..n])
    {
      var m := answers[n];
      assert answers[..n + 1][..n] == answers[..n];
      root := root[m.index := m.subroot[m.index]];
    }
    assert answers[..|answers|] == answers;
  }

  ghost predicate Answered(answers: seq<Collected>, i: Nibble) { exists m | m in answers :: m.index == i }

  /** The order of the answers does not matter when each brings its own choice. */
  lemma {:induction false} GatheredOwn(answers: seq<Collected>, want: Choices<Account>, i: Nibble)
    requires |want| == 16 && forall m | m in answers :: |m.subroot| == 16 && m.subroot[m.index] == want[m.index]
    ensures Gathered(answers)[i] == if Answered(answers, i) then want[i] else None
  {
    if answers != [] {
      var front, last := answers[..|answers| - 1], answers[|answers| - 1];
      assert forall m :: m in answers <==> m in front || m == last;
      GatheredOwn(front, want, i);
    }
  }

  /** The answers of all sixteen workers, in any order, each possibly read more than once. */
  ghost predicate AnswersOf(c: System, answers: seq<Collected>) requires Formed(c) {
    && (forall m | m in answers :: c.workers[m.index].status == Finished(m.subroot))
    && (forall i: Nibble :: Answered(answers, i))
  }

  lemma {:induction false} GatheredSerial(g: Setting, answers: seq<Collected>)
    requires forall m | m in answers :: |m.subroot| == 16 && RightChoice(g, m.index, m.subroot)
    requires forall i: Nibble :: Answered(answers, i)
    ensures Collapse(Gathered(answers)) == SerialRun(g.parent, g.stream)
  {
    var want := Branchify(SerialRun(g.parent, g.stream));
    forall i: Nibble ensures Gathered(answers)[i] == want[i] { GatheredOwn(answers, want, i); }
    Stitch(Gathered(answers), SerialRun(g.parent, g.stream));
  }

  /** Whatever the interleaving, the gathered root collapses to the state trie that the
      updates give when they are applied one after the other. */
  lemma {:induction false} MerkleizationIsSerial(g: Setting, c: System, ms: seq<Move>, answers: seq<Collected>)
    requires Reachable(g, c, ms) && AnswersOf(c, answers)
    ensures forall m | m in answers :: |m.subroot| == 16
    ensures Collapse(Gathered(answers)) == SerialRun(g.parent, g.stream)
  {
    EveryRunSafe(g, c, ms);
    forall m | m in answers ensures RightChoice(g, m.index, m.subroot) { FinishedChoice(g, Abs(c), m.index); }
    GatheredSerial(g, answers);
  }
}
