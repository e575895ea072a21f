/** Every run of the merkleizer ends: each move uses up a part of a fixed budget. */
module Progress {
  import opened Numbers
  import opened Trie
  import opened Sharding
  import opened Accounts
  import opened ShardWorker
  import opened Protocol
  import opened Merkleizer

  // ---------------------------------------------------------------- the budget

  /** The moves a queued message can still cause. */
  function Cost(m: Msg): nat {
    match m
    case ProcessAccount(u) => 84 + 5 * |u.storage|
    case MerklizeStorage(_, _, _) => 4
    case DeleteStorage(_) => 4
    case FinishRouting => 33
    case RoutingDone(_) => 1
    case StorageShard(_, _, _) => 1
    case CollectState => 1
  }

  function QueueCost(q: seq<Msg>): nat {
    if q == [] then 0 else QueueCost(q[..|q| - 1]) + Cost(q[|q| - 1])
  }

  function OutCost(sends: seq<Send>): nat {
    if sends == [] then 0 else OutCost(sends[..|sends| - 1]) + Cost(sends[|sends| - 1].msg) + 1
  }

  /** The storage tries a shelf holds, opened or only buffered. */
  function ShelfKeys(sh: Shelf): set<Key> { sh.tries.Keys + sh.buffer.Keys }

  function WorkerCost(w: Worker): nat {
    3 * |ShelfKeys(w.shelf)| + 3 * |w.toCollect.Keys| + (if w.collecting then 1 else 0) +
    (if w.routingComplete then 0 else 1) +
    if w.status.Running? then 1 else 0
  }

  function Sum(s: seq<nat>): nat {
    if s == [] then 0 else Sum(s[..|s| - 1]) + s[|s| - 1]
  }

  function QueueCosts(c: System): (r: seq<nat>)
    requires Formed(c)
    ensures |r| == 16
  { seq(16, i requires 0 <= i < 16 => QueueCost(c.queues[i])) }

  function OutCosts(c: System): (r: seq<nat>)
    requires Formed(c)
    ensures |r| == 16
  { seq(16, i requires 0 <= i < 16 => OutCost(c.outboxes[i])) }

  function WorkerCosts(c: System): (r: seq<nat>)
    requires Formed(c)
    ensures |r| == 16
  { seq(16, i requires 0 <= i < 16 => WorkerCost(c.workers[i])) }

  function Budget(c: System): nat
    requires Formed(c)
  {
    OutCost(c.program) + Sum(QueueCosts(c)) + Sum(OutCosts(c)) + Sum(WorkerCosts(c))
  }

  lemma {:induction false} SumUpdate(s: seq<nat>, i: nat, x: nat)
    requires i < |s|
    ensures Sum(s[i := x]) + s[i] == Sum(s) + x
  {
    var n := |s| - 1;
    if i == n {
      assert s[i := x][..n] == s[..n];
    } else {
      SumUpdate(s[..n], i, x);
      assert s[i := x][..n] == s[..n][i := x];
    }
  }

  lemma {:induction false} QueueHead(q: seq<Msg>)
    requires q != []
    ensures QueueCost(q) == Cost(q[0]) + QueueCost(q[1..])
  {
    if |q| > 1 {
      QueueHead(q[..|q| - 1]);
      assert q[..|q| - 1][1..] == q[1..][..|q| - 2];
    } else {
      assert q[..0] == q[1..] == [];
    }
  }

  lemma {:induction false} OutHead(q: seq<Send>)
    requires q != []
    ensures OutCost(q) == Cost(q[0].msg) + 1 + OutCost(q[1..])
  {
    if |q| > 1 {
      OutHead(q[..|q| - 1]);
      assert q[..|q| - 1][1..] == q[1..][..|q| - 2];
    } else {
      assert q[..0] == q[1..] == [];
    }
  }

  lemma {:induction false} OutConcat(a: seq<Send>, b: seq<Send>)
    ensures OutCost(a + b) == OutCost(a) + OutCost(b)
  {
    if b == [] {
      assert a + b == a;
    } else {
      assert (a + b)[..|a + b| - 1] == a + b[..|b| - 1];
      OutConcat(a, b[..|b| - 1]);
    }
  }

  // ---------------------------------------------------------------- what a handler spends

  lemma {:induction false} ShelfGrows(sh: Shelf, a: Key, e: Entry)
    ensures |ShelfKeys(SetEntry(sh, a, e))| <= |ShelfKeys(sh)| + 1
  {
    var keys := ShelfKeys(SetEntry(sh, a, e));
    assert keys <= ShelfKeys(sh) + {a};
    Fewer(keys, ShelfKeys(sh) + {a});
  }

  lemma {:induction false} RouteCost(sh: Shelf, me: Nibble, a: Key, slots: seq<Slot>, root: StorageTrie)
    ensures var r := Route(sh, me, a, slots, root);
            OutCost(r.sends) + 3 * |ShelfKeys(r.shelf)| <= 3 * |ShelfKeys(sh)| + 5 * |slots|
  {
    if slots != [] {
      var s, r := slots[|slots| - 1], Route(sh, me, a, slots[..|slots| - 1], root);
      RouteCost(sh, me, a, slots[..|slots| - 1], root);
      if Bucket(s.key) == me {
        ShelfGrows(r.shelf, a, PushEntry(EntryOf(r.shelf, a), s, root));
      } else {
        var m := Send(Bucket(s.key), MerklizeStorage(a, s, root));
        assert (r.sends + [m])[..|r.sends|] == r.sends;
      }
    }
  }

  lemma {:induction false} BroadcastCost(i: nat, me: Nibble)
    requires i <= 16
    ensures OutCost(Broadcast(i, RoutingDone(me))) == 2 * (16 - i)
    decreases 16 - i
  {
    if i < 16 {
      BroadcastCost(i + 1, me);
      OneCost(Send(i, RoutingDone(me)));
      OutConcat([Send(i, RoutingDone(me))], Broadcast(i + 1, RoutingDone(me)));
    }
  }

  lemma {:induction false} OneCost(s: Send)
    ensures OutCost([s]) == Cost(s.msg) + 1
  {
    assert [s][..0] == [];
  }

  lemma {:induction false} WipeCost(i: nat, me: Nibble, a: Key)
    requires i <= 16
    ensures OutCost(BroadcastOthers(i, me, DeleteStorage(a))) <= 5 * (16 - i)
    decreases 16 - i
  {
    if i < 16 {
      WipeCost(i + 1, me, a);
      OneCost(Send(i, DeleteStorage(a)));
      OutConcat(if i == me then [] else [Send(i, DeleteStorage(a))], BroadcastOthers(i + 1, me, DeleteStorage(a)));
    }
  }

  lemma {:induction false} SameCost(w: Worker, w': Worker)
    requires w'.toCollect == w.toCollect && w'.collecting == w.collecting && w'.routingComplete == w.routingComplete
    requires w'.status == w.status || !w'.status.Running?
    ensures WorkerCost(w') + 3 * |ShelfKeys(w.shelf)| <= WorkerCost(w) + 3 * |ShelfKeys(w'.shelf)|
  {}

  lemma {:induction false} UpdateCost(w: Worker, me: Nibble, u: Update)
    ensures var e := HandleUpdate(w, me, u);
            WorkerCost(e.worker) + OutCost(e.sends) < WorkerCost(w) + Cost(ProcessAccount(u))
  {
    if w.open {
      var sh := AfterWipe(w.shelf, u);
      var r := Route(sh, me, u.account, NewSlots(u), NewRouted(Reloaded(w, u.account), u));
      RouteCost(sh, me, u.account, NewSlots(u), NewRouted(Reloaded(w, u.account), u));
      WipeSends(me, u, r.sends);
      ShelfGrows(w.shelf, u.account, WIPED);
      SameCost(w, Noted(w, u, r.shelf));
    }
  }

  lemma {:induction false} WipeSends(me: Nibble, u: Update, sends: seq<Send>)
    ensures OutCost((if Wipes(u) then BroadcastOthers(0, me, DeleteStorage(u.account)) else []) + sends) <= 80 + OutCost(sends)
  {
    WipeCost(0, me, u.account);
    OutConcat(if Wipes(u) then BroadcastOthers(0, me, DeleteStorage(u.account)) else [], sends);
  }

  lemma {:induction false} DrainCost(w: Worker, w': Worker)
    requires !w.collecting && !w.routingComplete && w'.collecting && w'.routingComplete && w'.status == w.status
    requires w'.toCollect.Keys == ShelfKeys(w.shelf) && ShelfKeys(w'.shelf) == {}
    ensures WorkerCost(w') <= WorkerCost(w)
  {}

  lemma {:induction false} DoneCost(w: Worker, from: Nibble)
    ensures WorkerCost(HandleRoutingDone(w, from)) <= WorkerCost(w)
  {
    var w' := HandleRoutingDone(w, from);
    if w.routed + {from} == ALL && !w.collecting && !w.routingComplete {
      assert w'.toCollect.Keys == ShelfKeys(w.shelf);
      DrainCost(w, w');
    } else {
      SameCost(w, w');
    }
  }

  lemma {:induction false} ResolveFields(w: Worker, a: Key)
    requires a in w.accounts && a in w.shards && w.pending > 0
    ensures var w' := FinishIfDeferred(Resolve(w, a));
            && w'.shelf == w.shelf && w'.toCollect == w.toCollect
            && w'.collecting == w.collecting && w'.routingComplete == w.routingComplete
            && (w'.status == w.status || !w'.status.Running?)
  {}

  lemma {:induction false} ShardFields(w: Worker, a: Key, i: Nibble, sub: StorageChoices)
    ensures var e := HandleShard(w, a, i, sub);
            && e.sends == [] && e.worker.shelf == w.shelf && e.worker.toCollect == w.toCollect
            && e.worker.collecting == w.collecting && e.worker.routingComplete == w.routingComplete
            && (e.worker.status == w.status || !e.worker.status.Running?)
  {
    var w1 := Record(w, a, i, sub);
    if Completes(w, a, i) && a in w.accounts && w.pending > 0 {
      ResolveFields(w1, a);
      assert HandleShard(w, a, i, sub).worker == FinishIfDeferred(Resolve(w1, a));
    }
  }

  lemma {:induction false} ShardCost(w: Worker, a: Key, i: Nibble, sub: StorageChoices)
    ensures var e := HandleShard(w, a, i, sub);
            WorkerCost(e.worker) + OutCost(e.sends) <= WorkerCost(w)
  {
    ShardFields(w, a, i, sub);
    SameCost(w, HandleShard(w, a, i, sub).worker);
  }

  lemma {:induction false} ShelfCost(w: Worker, a: Key, e: Entry)
    ensures WorkerCost(w.(shelf := SetEntry(w.shelf, a, e))) <= WorkerCost(w) + 3
  {
    ShelfGrows(w.shelf, a, e);
    SameCost(w, w.(shelf := SetEntry(w.shelf, a, e)));
  }

  lemma {:induction false} FinishCost(w: Worker, me: Nibble)
    ensures var e := Handle(w, me, FinishRouting);
            WorkerCost(e.worker) + OutCost(e.sends) <= WorkerCost(w) + 32
  {
    BroadcastCost(0, me);
    SameCost(w, Handle(w, me, FinishRouting).worker);
  }

  lemma {:induction false} StateCost(w: Worker, me: Nibble)
    ensures var e := Handle(w, me, CollectState);
            WorkerCost(e.worker) + OutCost(e.sends) <= WorkerCost(w)
  {
    if Ready(w) { SameCost(w, Finish(w)); } else { SameCost(w, w.(deferred := true)); }
  }

  /** A message costs at least one more than what its handler leaves behind. */
  lemma {:induction false} HandleCost(w: Worker, me: Nibble, m: Msg)
    ensures var e := Handle(w, me, m);
            WorkerCost(e.worker) + OutCost(e.sends) < WorkerCost(w) + Cost(m)
  {
    match m
    case ProcessAccount(u) => UpdateCost(w, me, u);
    case MerklizeStorage(a, slot, root) => ShelfCost(w, a, PushEntry(EntryOf(w.shelf, a), slot, root));
    case DeleteStorage(a) => ShelfCost(w, a, WIPED);
    case FinishRouting => FinishCost(w, me);
    case RoutingDone(from) => DoneCost(w, from);
    case StorageShard(a, index, subroot) => ShardCost(w, a, index, subroot);
    case CollectState => StateCost(w, me);
  }

  lemma {:induction false} CollectCost(w: Worker, me: Nibble, a: Key)
    requires a in w.toCollect && w.status.Running?
    ensures var e := Collect(w, me, a);
            WorkerCost(e.worker) + OutCost(e.sends) < WorkerCost(w)
  {
    var e := Collect(w, me, a);
    if w.open {
      assert w.toCollect.Keys == e.worker.toCollect.Keys + {a};
      assert e.sends[..0] == [] && OutCost(e.sends) == 2;
    }
  }

  // ---------------------------------------------------------------- every move spends

  lemma {:induction false} DepositCost(c: System, s: Send)
    requires Formed(c)
    ensures Budget(Deposit(c, s)) <= Budget(c) + Cost(s.msg)
  {
    var c' := Deposit(c, s);
    if c.workers[s.to].status.Running? {
      var q := c.queues[s.to] + [s.msg];
      assert q[..|q| - 1] == c.queues[s.to];
      assert QueueCosts(c') == QueueCosts(c)[s.to := QueueCost(q)];
      SumUpdate(QueueCosts(c), s.to, QueueCost(q));
      assert OutCosts(c') == OutCosts(c) && WorkerCosts(c') == WorkerCosts(c);
    } else {
      assert QueueCosts(c') == QueueCosts(c) && OutCosts(c') == OutCosts(c) && WorkerCosts(c') == WorkerCosts(c);
    }
  }

  lemma {:induction false} PerformCost(c: System, i: Nibble, e: Effect)
    requires Formed(c) && c.outboxes[i] == []
    ensures Budget(Perform(c, i, e)) + WorkerCost(c.workers[i]) == Budget(c) + WorkerCost(e.worker) + OutCost(e.sends)
  {
    var c' := Perform(c, i, e);
    assert QueueCosts(c') == QueueCosts(c);
    assert OutCosts(c') == OutCosts(c)[i := OutCost(e.sends)];
    assert WorkerCosts(c') == WorkerCosts(c)[i := WorkerCost(e.worker)];
    SumUpdate(OutCosts(c), i, OutCost(e.sends));
    SumUpdate(WorkerCosts(c), i, WorkerCost(e.worker));
  }

  lemma {:induction false} DispatchCost(c: System)
    requires Formed(c) && Enabled(c, Dispatch)
    ensures Budget(Do(c, Dispatch)) < Budget(c)
  {
    var b := c.(program := c.program[1..]);
    assert QueueCosts(b) == QueueCosts(c) && OutCosts(b) == OutCosts(c) && WorkerCosts(b) == WorkerCosts(c);
    OutHead(c.program);
    DepositCost(b, c.program[0]);
  }

  lemma {:induction false} TransmitCost(c: System, i: Nibble)
    requires Formed(c) && Enabled(c, Transmit(i))
    ensures Budget(Do(c, Transmit(i))) < Budget(c)
  {
    var rest := c.outboxes[i][1..];
    var b := c.(outboxes := c.outboxes[i := rest]);
    assert QueueCosts(b) == QueueCosts(c) && WorkerCosts(b) == WorkerCosts(c);
    assert OutCosts(b) == OutCosts(c)[i := OutCost(rest)];
    SumUpdate(OutCosts(c), i, OutCost(rest));
    OutHead(c.outboxes[i]);
    DepositCost(b, c.outboxes[i][0]);
  }

  lemma {:induction false} ReceiveCost(c: System, i: Nibble)
    requires Formed(c) && Enabled(c, Receive(i))
    ensures Budget(Do(c, Receive(i))) < Budget(c)
  {
    var rest := c.queues[i][1..];
    var b := c.(queues := c.queues[i := rest]);
    assert OutCosts(b) == OutCosts(c) && WorkerCosts(b) == WorkerCosts(c);
    assert QueueCosts(b) == QueueCosts(c)[i := QueueCost(rest)];
    SumUpdate(QueueCosts(c), i, QueueCost(rest));
    QueueHead(c.queues[i]);
    PerformCost(b, i, Handle(c.workers[i], i, c.queues[i][0]));
    HandleCost(c.workers[i], i, c.queues[i][0]);
  }

  lemma {:induction false} MoveCost(c: System, m: Move)
    requires Formed(c) && Enabled(c, m)
    ensures Budget(Do(c, m)) < Budget(c)
  {
    match m
    case Dispatch => DispatchCost(c);
    case Transmit(i) => TransmitCost(c, i);
    case Receive(i) => ReceiveCost(c, i);
    case CollectTrie(i, a) =>
      CollectCost(c.workers[i], i, a);
      PerformCost(c, i, Collect(c.workers[i], i, a));
    case CloseCollection(i) => PerformCost(c, i, Effect(EndCollect(c.workers[i]), []));
    case Disconnect(i) => PerformCost(c, i, Abort(c.workers[i]));
  }

  /** The block's updates bound the length of every run. */
  lemma {:induction false} EveryRunEnds(g: Setting, c: System, ms: seq<Move>)
    requires Reachable(g, c, ms)
    ensures Formed(c) && |ms| + Budget(c) <= Budget(Start(g))
    decreases |ms|
  {
    if ms != [] {
      var b: System :| Reachable(g, b, ms[..|ms| - 1]) && Formed(b) && Enabled(b, ms[|ms| - 1]) && c == Do(b, ms[|ms| - 1]);
      EveryRunEnds(g, b, ms[..|ms| - 1]);
      MoveCost(b, ms[|ms| - 1]);
    }
  }
}
