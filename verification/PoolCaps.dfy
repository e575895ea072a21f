/** How many transactions a pool holds over whole runs, against its two caps. */
module PoolCaps {
  import opened Numbers
  import opened TxPool
  import opened Admission
  import opened PoolSafety
  import opened PoolRuns
  import opened BundleRuns

  lemma {:induction false} NoneBare(p: Pool, free: Pool)
    requires Trims(p, free) && Bare(p) == {}
    ensures Bare(free) == {}
  {
    assert forall tx | tx in Bare(free) :: tx in Bare(p);
  }

  /** In every run an accepted regular insertion leaves at most the cap exactly when there was room
      or the bundles without their transaction are no more than the transactions without their
      bundle; so, with no transaction stripped, when there was room or no bundle is open. */
  lemma {:induction false} EveryRegularCap(maxSize: nat, maxBlobs: nat, ops: seq<Op>, ps: seq<Pool>, n: nat)
    requires Run(maxSize, maxBlobs, ops, ps)
    requires n < |ops| && Accepted(ps[n], ops[n]) && !ops[n].request.tx.kind.Blob?
    ensures var free := FreeSlot(ps[n], SlotOf(ops[n].request.tx));
            && (|NonBlobs(ps[n + 1].txs)| <= maxSize <==>
                  |NonBlobs(free.txs)| < maxSize || (|Window(ps[n])| <= |Bare(free)| && maxSize > 0))
            && ((forall tx :: !Stripped(ops, ps, n, tx)) ==>
                  (|NonBlobs(ps[n + 1].txs)| <= maxSize <==>
                     |NonBlobs(free.txs)| < maxSize || ((forall tx :: !Open(ops, ps, n, tx)) && maxSize > 0)))
  {
    EveryRunTied(maxSize, maxBlobs, ops, ps, n);
    EveryRunBlobs(maxSize, maxBlobs, ops, ps, n);
    CapsKept(maxSize, maxBlobs, ops, ps, n);
    assert StepAt(ops, ps, n);
    RegularCap(ps[n], ops[n].request, ops[n].evicted, ps[n + 1]);
    FreePruned(ps[n], SlotOf(ops[n].request.tx));
    if forall tx :: !Stripped(ops, ps, n, tx) {
      WindowsAre(maxSize, maxBlobs, ops, ps, n);
      NoneBare(ps[n], FreeSlot(ps[n], SlotOf(ops[n].request.tx)));
    }
  }

  lemma {:induction false} WindowsAre(maxSize: nat, maxBlobs: nat, ops: seq<Op>, ps: seq<Pool>, n: nat)
    requires Run(maxSize, maxBlobs, ops, ps) && n <= |ops|
    ensures Window(ps[n]) == {} <==> forall tx :: !Open(ops, ps, n, tx)
    ensures Bare(ps[n]) == {} <==> forall tx :: !Stripped(ops, ps, n, tx)
  {
    forall tx ensures (tx in Window(ps[n]) <==> Open(ops, ps, n, tx)) && (tx in Bare(ps[n]) <==> Stripped(ops, ps, n, tx)) {
      WindowExact(maxSize, maxBlobs, ops, ps, n, tx);
      BareExact(maxSize, maxBlobs, ops, ps, n, tx);
    }
  }

  lemma {:induction false} StepCaps(p: Pool, op: Op, r: Pool)
    requires Tied(p) && Step(p, op, r)
    ensures r.maxSize == p.maxSize && r.maxBlobs == p.maxBlobs
  {
    if Accepted(p, op) {
      var q := op.request;
      var room :| MakesRoom(Prune(FreeSlot(p, SlotOf(q.tx))), q, op.evicted, room) && r == Insert(room, q);
      ReadyToInsert(p, q, op.evicted, room);
    }
  }

  lemma {:induction false} CapsKept(maxSize: nat, maxBlobs: nat, ops: seq<Op>, ps: seq<Pool>, n: nat)
    requires Run(maxSize, maxBlobs, ops, ps) && n < |ps|
    ensures ps[n].maxSize == maxSize && ps[n].maxBlobs == maxBlobs
  {
    if n > 0 {
      CapsKept(maxSize, maxBlobs, ops, ps, n - 1);
      EveryRunTied(maxSize, maxBlobs, ops, ps, n - 1);
      assert StepAt(ops, ps, n - 1);
      StepCaps(ps[n - 1], ops[n - 1], ps[n]);
    }
  }

  lemma {:induction false} FewerOf(a: set<Tx>, b: set<Tx>)
    requires a <= b
    ensures |NonBlobs(a)| <= |NonBlobs(b)| && |PooledBlobs(a)| <= |PooledBlobs(b)|
  {
    Fewer(NonBlobs(a), NonBlobs(b));
    Fewer(PooledBlobs(a), PooledBlobs(b));
  }

  /** A regular insertion overshoots the cap by at most the bundles without their transaction. */
  lemma {:induction false} RegularCounts(p: Pool, q: Request, evicted: seq<Tx>, r: Pool)
    requires Tied(p) && BlobsOnly(p) && Proper(q) && Verdict(p, q).None? && Accepts(p, q, evicted, r) && !q.tx.kind.Blob?
    ensures |NonBlobs(r.txs)| <= Max(p.maxSize, 1) + |Window(p)|
  {
    RegularLeft(p, q, evicted, r);
    FreePruned(p, SlotOf(q.tx));
  }

  lemma {:induction false} OthersKept(p: Pool, q: Request, evicted: seq<Tx>, r: Pool)
    requires Tied(p) && Proper(q) && Verdict(p, q).None? && Accepts(p, q, evicted, r) && q.tx.kind.Blob?
    ensures |NonBlobs(r.txs)| <= |NonBlobs(p.txs)|
  {
    AddTied(p, q, evicted, r);
    assert NonBlobs(p.txs + {q.tx}) == NonBlobs(p.txs);
    FewerOf(r.txs, p.txs + {q.tx});
  }

  lemma {:induction false} StepRegular(p: Pool, op: Op, r: Pool)
    requires Tied(p) && BlobsOnly(p) && Step(p, op, r)
    ensures |NonBlobs(r.txs)| <= Max(|NonBlobs(p.txs)|, Max(p.maxSize, 1) + |Window(p)|)
  {
    if !Accepted(p, op) {
      FewerOf(r.txs, p.txs);
    } else if op.request.tx.kind.Blob? {
      OthersKept(p, op.request, op.evicted, r);
    } else {
      RegularCounts(p, op.request, op.evicted, r);
    }
  }

  lemma {:induction false} FewerBare(p: Pool, free: Pool)
    requires Trims(p, free)
    ensures |Bare(free)| <= |Bare(p)|
  {
    assert forall tx | tx in Bare(free) :: tx in Bare(p);
    Fewer(Bare(free), Bare(p));
  }

  lemma {:induction false} InsertBare(room: Pool, r: Pool, x: Tx)
    requires r.txs == room.txs + {x} && r.blobs == room.blobs && x.kind.Blob? && x !in room.txs && x !in Window(room)
    ensures |Bare(r)| == 1 + |Bare(room)|
  {
    assert Bare(r) == Bare(room) + {x};
  }

  lemma {:induction false} RoomBare(p: Pool, q: Request, evicted: seq<Tx>, room: Pool)
    requires Tied(p) && BlobsOnly(p) && q.tx.kind.Blob? && MakesRoom(Prune(FreeSlot(p, SlotOf(q.tx))), q, evicted, room)
    ensures Bare(room) == Bare(FreeSlot(p, SlotOf(q.tx)))
  {
    FreePruned(p, SlotOf(q.tx));
    BlobEvictionLoses(Prune(FreeSlot(p, SlotOf(q.tx))), evicted, room);
  }

  /** A blob insertion without a bundle of its own adds one transaction without its bundle. */
  lemma {:induction false} BareGrows(p: Pool, q: Request, evicted: seq<Tx>, r: Pool)
    requires Tied(p) && BlobsOnly(p) && Accepts(p, q, evicted, r) && q.tx.kind.Blob? && q.tx !in Window(p)
    ensures |Bare(r)| == 1 + |Bare(FreeSlot(p, SlotOf(q.tx)))|
  {
    var room :| MakesRoom(Prune(FreeSlot(p, SlotOf(q.tx))), q, evicted, room) && r == Insert(room, q);
    RoomTrims(p, q, evicted, room);
    RoomBare(p, q, evicted, room);
    InsertBare(room, r, q.tx);
  }

  lemma {:induction false} QuotaBound(e: nat, w: nat, max: nat)
    ensures Min(e, SatSub(max, w)) <= max && (w >= 1 ==> 1 + Min(e, SatSub(max, w)) <= Max(max, 1))
  {}

  lemma {:induction false} SuppliedCounts(p: Pool, tx: Tx)
    requires Tied(p) && BlobsOnly(p) && tx in Window(p)
    ensures |Window(p)| >= 1 && |Bare(FreeSlot(p, SlotOf(tx)))| <= |Bare(p)|
  {
    Fewer({tx}, Window(p));
    FreePruned(p, SlotOf(tx));
    FewerBare(p, FreeSlot(p, SlotOf(tx)));
  }

  lemma {:induction false} SuppliedBlob(p: Pool, q: Request, evicted: seq<Tx>, r: Pool)
    requires Tied(p) && BlobsOnly(p) && Proper(q) && Verdict(p, q).None? && Accepts(p, q, evicted, r)
    requires q.tx.kind.Blob? && q.tx in Window(p)
    ensures |PooledBlobs(r.txs)| <= Max(p.maxBlobs, 1) + |Bare(p)|
  {
    BlobCount(p, q, evicted, r);
    SuppliedCounts(p, q.tx);
    QuotaBound(|Evictable(FreeSlot(p, SlotOf(q.tx)))|, |Window(p)|, p.maxBlobs);
  }

  lemma {:induction false} UnsuppliedBlob(p: Pool, q: Request, evicted: seq<Tx>, r: Pool)
    requires Tied(p) && BlobsOnly(p) && Proper(q) && Verdict(p, q).None? && Accepts(p, q, evicted, r)
    requires q.tx.kind.Blob? && q.tx !in Window(p)
    ensures |PooledBlobs(r.txs)| <= p.maxBlobs + |Bare(r)|
  {
    BlobCount(p, q, evicted, r);
    BareGrows(p, q, evicted, r);
    QuotaBound(|Evictable(FreeSlot(p, SlotOf(q.tx)))|, |Window(p)|, p.maxBlobs);
  }

  /** A blob insertion overshoots the cap by at most the transactions without their bundle. */
  lemma {:induction false} BlobCounts(p: Pool, q: Request, evicted: seq<Tx>, r: Pool)
    requires Tied(p) && BlobsOnly(p) && Proper(q) && Verdict(p, q).None? && Accepts(p, q, evicted, r)
    requires q.tx.kind.Blob?
    ensures |PooledBlobs(r.txs)| <= Max(p.maxBlobs, 1) + Max(|Bare(p)|, |Bare(r)|)
  {
    if q.tx in Window(p) { SuppliedBlob(p, q, evicted, r); } else { UnsuppliedBlob(p, q, evicted, r); }
  }

  lemma {:induction false} BlobsKept(p: Pool, q: Request, evicted: seq<Tx>, r: Pool)
    requires Tied(p) && Proper(q) && Verdict(p, q).None? && Accepts(p, q, evicted, r) && !q.tx.kind.Blob?
    ensures |PooledBlobs(r.txs)| <= |PooledBlobs(p.txs)|
  {
    AddTied(p, q, evicted, r);
    assert PooledBlobs(p.txs + {q.tx}) == PooledBlobs(p.txs);
    FewerOf(r.txs, p.txs + {q.tx});
  }

  lemma {:induction false} StepBlobs(p: Pool, op: Op, r: Pool)
    requires Tied(p) && BlobsOnly(p) && Step(p, op, r)
    ensures |PooledBlobs(r.txs)| <= Max(|PooledBlobs(p.txs)|, Max(p.maxBlobs, 1) + Max(|Bare(p)|, |Bare(r)|))
  {
    if !Accepted(p, op) {
      FewerOf(r.txs, p.txs);
    } else if op.request.tx.kind.Blob? {
      BlobCounts(p, op.request, op.evicted, r);
    } else {
      BlobsKept(p, op.request, op.evicted, r);
    }
  }

  lemma {:induction false} EmptyCounts(maxSize: nat, maxBlobs: nat)
    ensures |NonBlobs(Empty(maxSize, maxBlobs).txs)| == |PooledBlobs(Empty(maxSize, maxBlobs).txs)| == 0
  {
    assert NonBlobs({}) == {} && PooledBlobs({}) == {};
  }

  lemma {:induction false} RunRegular(maxSize: nat, maxBlobs: nat, ops: seq<Op>, ps: seq<Pool>, n: nat)
    requires Run(maxSize, maxBlobs, ops, ps) && n < |ops|
    ensures |NonBlobs(ps[n + 1].txs)| <= Max(|NonBlobs(ps[n].txs)|, Max(maxSize, 1) + |Window(ps[n])|)
  {
    EveryRunTied(maxSize, maxBlobs, ops, ps, n);
    EveryRunBlobs(maxSize, maxBlobs, ops, ps, n);
    CapsKept(maxSize, maxBlobs, ops, ps, n);
    assert StepAt(ops, ps, n);
    StepRegular(ps[n], ops[n], ps[n + 1]);
  }

  /** In every run the regular transactions exceed their cap, or one, by no more than the bundles that were
      without their transaction at one time. */
  lemma {:induction false} EveryRunCapped(maxSize: nat, maxBlobs: nat, ops: seq<Op>, ps: seq<Pool>, n: nat, w: nat)
    requires Run(maxSize, maxBlobs, ops, ps) && n < |ps| && forall i | 0 <= i < n :: |Window(ps[i])| <= w
    ensures |NonBlobs(ps[n].txs)| <= Max(maxSize, 1) + w
  {
    if n == 0 {
      EmptyCounts(maxSize, maxBlobs);
    } else {
      EveryRunCapped(maxSize, maxBlobs, ops, ps, n - 1, w);
      RunRegular(maxSize, maxBlobs, ops, ps, n - 1);
    }
  }

  lemma {:induction false} RunBlobs(maxSize: nat, maxBlobs: nat, ops: seq<Op>, ps: seq<Pool>, n: nat)
    requires Run(maxSize, maxBlobs, ops, ps) && n < |ops|
    ensures |PooledBlobs(ps[n + 1].txs)| <= Max(|PooledBlobs(ps[n].txs)|, Max(maxBlobs, 1) + Max(|Bare(ps[n])|, |Bare(ps[n + 1])|))
  {
    EveryRunTied(maxSize, maxBlobs, ops, ps, n);
    EveryRunBlobs(maxSize, maxBlobs, ops, ps, n);
    CapsKept(maxSize, maxBlobs, ops, ps, n);
    assert StepAt(ops, ps, n);
    StepBlobs(ps[n], ops[n], ps[n + 1]);
  }

  ghost predicate BareWithin(ps: seq<Pool>, n: nat, b: nat) requires n < |ps| {
    forall i | 0 <= i <= n :: |Bare(ps[i])| <= b
  }

  lemma {:induction false} RunBlobsWithin(maxSize: nat, maxBlobs: nat, ops: seq<Op>, ps: seq<Pool>, i: nat, n: nat, b: nat)
    requires Run(maxSize, maxBlobs, ops, ps) && i < n < |ps| && BareWithin(ps, n, b)
    ensures |PooledBlobs(ps[i + 1].txs)| <= Max(|PooledBlobs(ps[i].txs)|, Max(maxBlobs, 1) + b)
  {
    RunBlobs(maxSize, maxBlobs, ops, ps, i);
  }

  predicate GrowsTo(xs: seq<nat>, i: nat, bound: nat) requires i + 1 < |xs| { xs[i + 1] <= Max(xs[i], bound) }

  lemma {:induction false} StaysWithin(xs: seq<nat>, n: nat, bound: nat)
    requires n < |xs| && xs[0] <= bound && forall i | 0 <= i < n :: GrowsTo(xs, i, bound)
    ensures xs[n] <= bound
  {
    if n > 0 {
      StaysWithin(xs, n - 1, bound);
      assert GrowsTo(xs, n - 1, bound);
    }
  }

  /** How many blob transactions are pooled, from pool to pool. */
  function BlobSizes(ps: seq<Pool>): (xs: seq<nat>)
    ensures |xs| == |ps| && forall i | 0 <= i < |ps| :: xs[i] == |PooledBlobs(ps[i].txs)|
  {
    seq(|ps|, i requires 0 <= i < |ps| => |PooledBlobs(ps[i].txs)|)
  }

  /** In every run the pooled blob transactions exceed their cap, or one, by no more than those that were
      without their bundle at one time. */
  lemma {:induction false} EveryRunBlobCapped(maxSize: nat, maxBlobs: nat, ops: seq<Op>, ps: seq<Pool>, n: nat, b: nat)
    requires Run(maxSize, maxBlobs, ops, ps) && n < |ps| && BareWithin(ps, n, b)
    ensures |PooledBlobs(ps[n].txs)| <= Max(maxBlobs, 1) + b
  {
    var xs, bound := BlobSizes(ps), Max(maxBlobs, 1) + b;
    EmptyCounts(maxSize, maxBlobs);
    forall i | 0 <= i < n ensures GrowsTo(xs, i, bound) { RunBlobsWithin(maxSize, maxBlobs, ops, ps, i, n, b); }
    StaysWithin(xs, n, bound);
  }

  /** So in every orderly run they never exceed it. */
  lemma {:induction false} OrderlyBlobCapped(maxSize: nat, maxBlobs: nat, ops: seq<Op>, ps: seq<Pool>, n: nat)
    requires Run(maxSize, maxBlobs, ops, ps) && AllOrderly(ops, ps) && n < |ps|
    ensures |PooledBlobs(ps[n].txs)| <= Max(maxBlobs, 1)
  {
    EmptyValid(maxSize, maxBlobs);
    assert BareWithin(ps, n, 0) by {
      forall i | 0 <= i <= n ensures |Bare(ps[i])| <= 0 {
        ValidUpTo(ops, ps, i);
        assert Bare(ps[i]) == {};
      }
    }
    EveryRunBlobCapped(maxSize, maxBlobs, ops, ps, n, 0);
  }

  /** In every run an accepted blob insertion leaves at most the cap of pooled blob transactions
      exactly when there was room or the transactions without their bundle are fewer than the
      bundles without their transaction and than the cap. */
  lemma {:induction false} EveryBlobCap(maxSize: nat, maxBlobs: nat, ops: seq<Op>, ps: seq<Pool>, n: nat)
    requires Run(maxSize, maxBlobs, ops, ps) && n < |ops| && Accepted(ps[n], ops[n]) && ops[n].request.tx.kind.Blob?
    ensures var free := FreeSlot(ps[n], SlotOf(ops[n].request.tx));
            |PooledBlobs(ps[n + 1].txs)| <= maxBlobs <==>
            |PooledBlobs(free.txs)| < maxBlobs || |Bare(free)| < Min(|Window(ps[n])|, maxBlobs)
  {
    EveryRunTied(maxSize, maxBlobs, ops, ps, n);
    EveryRunBlobs(maxSize, maxBlobs, ops, ps, n);
    CapsKept(maxSize, maxBlobs, ops, ps, n);
    assert StepAt(ops, ps, n);
    BlobCap(ps[n], ops[n].request, ops[n].evicted, ps[n + 1]);
  }
}
