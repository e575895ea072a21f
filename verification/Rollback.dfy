/** A rejected blob transaction, with other operations between its bundle and the rollback. */
module Rollback {
  import opened Numbers
  import opened BlobIndex
  import opened TxPool
  import opened Admission
  import opened PoolSafety
  import opened PoolRuns
  import opened BundleRuns

  /** The pool as it is without one bundle. */
  function Without(p: Pool, tx: Tx): Pool { p.(blobs := DropBundle(p.blobs, tx)) }

  /** The operation neither stores the bundle again nor closes it. */
  ghost predicate Elsewhere(p: Pool, op: Op, tx: Tx) {
    !Closes(p, op, tx) && !(op.NewBundle? && op.tx == tx)
  }

  /** What an insertion of x evicts does not depend on the bundle: there is room even so, or
      nothing that can be evicted stays either way. */
  ghost predicate SameRoom(p: Pool, x: Tx, tx: Tx) {
    var free := FreeSlot(p, SlotOf(x));
    if x.kind.Blob? then |free.blobs.bundles| <= p.maxBlobs || |Window(p)| > p.maxBlobs
    else RegularCount(Without(free, tx)) < p.maxSize || p.maxSize == 0
  }

  ghost predicate Indifferent(p: Pool, op: Op, tx: Tx) { Accepted(p, op) ==> SameRoom(p, op.request.tx, tx) }

  // ---------------------------------------------------------------- one step

  /** The bundle of a transaction that is not pooled can be taken out first or last. */
  lemma {:induction false} WithoutBlobs(r: Pool, tx: Tx, b: Blobs<Tx>)
    requires Inverted(r.blobs) && Inverted(b) && b.bundles == r.blobs.bundles - {tx}
    ensures Without(r, tx) == r.(blobs := b)
  {
    DropInverts(r.blobs, tx);
    assert DropBundle(r.blobs, tx).bundles == r.blobs.bundles - {tx};
    BundlesDetermine(DropBundle(r.blobs, tx), b);
  }

  lemma {:induction false} WithoutRemove(p: Pool, x: Tx, tx: Tx)
    requires Valid(p) && tx in Window(p)
    ensures Remove(Without(p, tx), x) == Without(Remove(p, x), tx)
  {
    if x in p.txs && x.kind.Blob? {
      DropInverts(p.blobs, tx);
      DropInverts(DropBundle(p.blobs, tx), x);
      DropInverts(p.blobs, x);
      WithoutBlobs(Remove(p, x), tx, Remove(Without(p, tx), x).blobs);
    }
  }

  lemma {:induction false} WithoutVerdict(p: Pool, q: Request, tx: Tx)
    ensures Verdict(Without(p, tx), q) == Verdict(p, q)
  {}

  lemma {:induction false} WithoutSets(p: Pool, tx: Tx)
    requires tx in Window(p)
    ensures Without(p, tx).blobs.bundles == p.blobs.bundles - {tx} && Evictable(Without(p, tx)) == Evictable(p)
    ensures Window(Without(p, tx)) == Window(p) - {tx} && |Window(Without(p, tx))| == |Window(p)| - 1
    ensures |Without(p, tx).blobs.bundles| == |p.blobs.bundles| - 1
  {
    var q := Without(p, tx);
    assert q.blobs.bundles == p.blobs.bundles - {tx};
    assert q.blobs.bundles.Keys == p.blobs.bundles.Keys - {tx};
    assert |q.blobs.bundles| == |q.blobs.bundles.Keys| && |p.blobs.bundles| == |p.blobs.bundles.Keys|;
  }

  lemma {:induction false} WithoutValid(p: Pool, tx: Tx)
    requires Valid(p) && tx in Window(p)
    ensures Valid(Without(p, tx))
  {
    DropInverts(p.blobs, tx);
    WithoutSets(p, tx);
  }

  /** With room on both sides nothing is evicted on either. */
  lemma {:induction false} NoEviction(p: Pool, q: Request, evicted: seq<Tx>, room: Pool, tx: Tx)
    requires tx in Window(p) && MakesRoom(p, q, evicted, room)
    requires if q.tx.kind.Blob? then |p.blobs.bundles| <= p.maxBlobs else RegularCount(Without(p, tx)) < p.maxSize
    ensures room == p && MakesRoom(Without(p, tx), q, evicted, Without(p, tx))
  {
    WithoutSets(p, tx);
  }

  lemma {:induction false} WithoutPopped(p: Pool, tx: Tx)
    requires Valid(p) && tx in Window(p) && p.order != []
    ensures Popped(Without(p, tx)) == Without(Popped(p), tx) && Valid(Popped(p)) && tx in Window(Popped(p))
  {
    PopTied(p);
    WithoutRemove(p, p.order[0], tx);
    RemoveExact(p, p.order[0]);
  }

  /** A pool without room for any regular transaction evicts them all either way. */
  lemma {:induction false} AllEvicted(p: Pool, tx: Tx)
    requires Valid(p) && tx in Window(p) && p.maxSize == 0
    ensures EvictRegular(Without(p, tx)) == Without(EvictRegular(p), tx)
    decreases |p.order|
  {
    if p.order != [] {
      WithoutPopped(p, tx);
      AllEvicted(Popped(p), tx);
    }
  }

  lemma {:induction false} SameWorst(p: Pool, q: Pool, x: Tx)
    requires Worst(p, x) && Evictable(q) == Evictable(p)
    ensures Worst(q, x)
  {}

  lemma {:induction false} RemoveStays(p: Pool, x: Tx, tx: Tx)
    requires Valid(p) && tx in Window(p) && x in Evictable(p)
    ensures var q := Remove(p, x);
            Valid(q) && tx in Window(q) && |Window(q)| == |Window(p)| && q.maxBlobs == p.maxBlobs && Remove(Without(p, tx), x) == Without(q, tx)
  {
    RemoveValid(p, x);
    RemoveExact(p, x);
    WithoutRemove(p, x, tx);
  }

  /** With too many bundles without their transaction every other bundle goes either way. */
  lemma {:induction false} AllBlobsEvicted(p: Pool, evicted: seq<Tx>, room: Pool, tx: Tx)
    requires Valid(p) && tx in Window(p) && |Window(p)| > p.maxBlobs && BlobEviction(p, evicted, room)
    ensures BlobEviction(Without(p, tx), evicted, Without(room, tx))
    decreases |evicted|
  {
    WithoutSets(p, tx);
    if evicted != [] {
      BlobCountIs(p);
      SameWorst(p, Without(p, tx), evicted[0]);
      RemoveStays(p, evicted[0], tx);
      AllBlobsEvicted(Remove(p, evicted[0]), evicted[1..], room, tx);
    } else {
      BlobCountIs(p);
    }
  }

  lemma {:induction false} SameEviction(p: Pool, q: Request, evicted: seq<Tx>, room: Pool, tx: Tx)
    requires Valid(p) && tx in Window(p) && MakesRoom(p, q, evicted, room)
    requires if q.tx.kind.Blob? then |p.blobs.bundles| <= p.maxBlobs || |Window(p)| > p.maxBlobs
             else RegularCount(Without(p, tx)) < p.maxSize || p.maxSize == 0
    ensures MakesRoom(Without(p, tx), q, evicted, Without(room, tx))
  {
    if q.tx.kind.Blob? && |p.blobs.bundles| > p.maxBlobs {
      AllBlobsEvicted(p, evicted, room, tx);
    } else if !q.tx.kind.Blob? && p.maxSize == 0 {
      AllEvicted(p, tx);
    } else {
      NoEviction(p, q, evicted, room, tx);
    }
  }

  lemma {:induction false} WithoutFree(p: Pool, k: Slot, tx: Tx)
    requires Valid(p) && tx in Window(p)
    ensures Prune(FreeSlot(Without(p, tx), k)) == Without(Prune(FreeSlot(p, k)), tx)
  {
    if k in p.index { WithoutRemove(p, p.index[k], tx); }
  }

  lemma {:induction false} WithoutInsert(p: Pool, q: Request, tx: Tx)
    ensures Without(Insert(p, q), tx) == Insert(Without(p, tx), q)
  {}

  lemma {:induction false} FreeStays(p: Pool, k: Slot, tx: Tx)
    requires Valid(p) && tx in Window(p)
    ensures var free := FreeSlot(p, k);
            && Valid(Prune(free)) && Window(Prune(free)) == Window(p) && Prune(free) == free.(order := Prune(free).order)
            && free.maxSize == p.maxSize && free.maxBlobs == p.maxBlobs
  {
    FreeSlotOk(p, k);
    PruneOk(FreeSlot(p, k));
  }

  lemma {:induction false} WithoutAdd(p: Pool, q: Request, evicted: seq<Tx>, r: Pool, tx: Tx)
    requires Valid(p) && tx in Window(p) && Verdict(p, q).None? && Accepts(p, q, evicted, r) && SameRoom(p, q.tx, tx)
    ensures Accepts(Without(p, tx), q, evicted, Without(r, tx))
  {
    var k := SlotOf(q.tx);
    var free := Prune(FreeSlot(p, k));
    var room :| MakesRoom(free, q, evicted, room) && r == Insert(room, q);
    FreeStays(p, k, tx);
    WithoutFree(p, k, tx);
    SameEviction(free, q, evicted, room, tx);
    WithoutInsert(room, q, tx);
  }

  // ---------------------------------------------------------------- when it makes a difference

  lemma {:induction false} FreeWithout(p: Pool, k: Slot, tx: Tx)
    requires Valid(p) && tx in Window(p)
    ensures var free, free' := FreeSlot(p, k), FreeSlot(Without(p, tx), k);
            && free' == Without(free, tx) && Valid(free) && Valid(free') && Window(free) == Window(p) && tx in Window(free)
            && Bare(free) == {} && Bare(free') == {}
  {
    if k in p.index { WithoutRemove(p, p.index[k], tx); }
    FreeSlotOk(p, k);
    WithoutValid(FreeSlot(p, k), tx);
  }

  /** How many transactions an insertion leaves past w bundles without their transaction. */
  ghost predicate Leaves(txs: set<Tx>, blob: bool, free: Pool, w: nat) {
    if blob then |PooledBlobs(txs)| == 1 + Min(|Evictable(free)|, SatSub(free.maxBlobs, w))
    else free.maxSize >= 1 ==> |NonBlobs(txs)| == 1 + Min(|NonBlobs(free.txs)|, free.maxSize - 1 + w)
  }

  lemma {:induction false} FreePlain(p: Pool, k: Slot)
    requires Valid(p)
    ensures var free := FreeSlot(p, k); |Bare(free)| == 0 && free.maxSize == p.maxSize && free.maxBlobs == p.maxBlobs
  {
    FreeSlotOk(p, k);
    FreeSlotTied(p, k);
    assert Bare(FreeSlot(p, k)) == {};
  }

  lemma {:induction false} RegularLeaves(p: Pool, q: Request, evicted: seq<Tx>, r: Pool)
    requires Valid(p) && Proper(q) && Verdict(p, q).None? && Accepts(p, q, evicted, r) && !q.tx.kind.Blob?
    ensures Leaves(r.txs, false, FreeSlot(p, SlotOf(q.tx)), |Window(p)|)
  {
    RegularLeft(p, q, evicted, r);
    FreePlain(p, SlotOf(q.tx));
    FreePruned(p, SlotOf(q.tx));
  }

  lemma {:induction false} BlobLeaves(p: Pool, q: Request, evicted: seq<Tx>, r: Pool)
    requires Valid(p) && Proper(q) && Verdict(p, q).None? && Accepts(p, q, evicted, r) && q.tx.kind.Blob?
    ensures Leaves(r.txs, true, FreeSlot(p, SlotOf(q.tx)), |Window(p)|)
  {
    FreePlain(p, SlotOf(q.tx));
    BlobCount(p, q, evicted, r);
  }

  lemma {:induction false} AddLeaves(p: Pool, q: Request, evicted: seq<Tx>, r: Pool, blob: bool)
    requires Valid(p) && Proper(q) && Verdict(p, q).None? && Accepts(p, q, evicted, r) && blob == q.tx.kind.Blob?
    ensures Leaves(r.txs, blob, FreeSlot(p, SlotOf(q.tx)), |Window(p)|)
  {
    if blob { BlobLeaves(p, q, evicted, r); } else { RegularLeaves(p, q, evicted, r); }
  }

  lemma {:induction false} SameLeaves(txs: set<Tx>, blob: bool, free: Pool, w: nat, tx: Tx)
    requires tx in Window(free) && Leaves(txs, blob, Without(free, tx), w)
    ensures Leaves(txs, blob, free, w)
  {
    WithoutSets(free, tx);
  }

  lemma {:induction false} WithoutLeaves(p: Pool, q: Request, evicted: seq<Tx>, r: Pool, tx: Tx)
    requires Valid(p) && tx in Window(p) && Proper(q) && Verdict(p, q).None? && Accepts(Without(p, tx), q, evicted, Without(r, tx))
    ensures |Window(p)| >= 1 && Leaves(r.txs, q.tx.kind.Blob?, FreeSlot(p, SlotOf(q.tx)), |Window(p)| - 1)
  {
    WithoutValid(p, tx);
    WithoutVerdict(p, q, tx);
    AddLeaves(Without(p, tx), q, evicted, Without(r, tx), q.tx.kind.Blob?);
    WithoutSets(p, tx);
    FreeWithout(p, SlotOf(q.tx), tx);
    SameLeaves(r.txs, q.tx.kind.Blob?, FreeSlot(p, SlotOf(q.tx)), |Window(p)| - 1, tx);
  }

  lemma {:induction false} FreeCounts(p: Pool, k: Slot, tx: Tx)
    requires Valid(p) && tx in Window(p)
    ensures var free := FreeSlot(p, k);
            && |Window(p)| >= 1 && RegularCount(Without(free, tx)) == SatSub(|NonBlobs(free.txs)|, |Window(p)| - 1)
            && |free.blobs.bundles| == |Evictable(free)| + |Window(p)|
  {
    FreeWithout(p, k, tx);
    WithoutSets(FreeSlot(p, k), tx);
    RegularCountIs(Without(FreeSlot(p, k), tx));
    BlobCountIs(FreeSlot(p, k));
  }

  lemma {:induction false} RegularArith(n: nat, w: nat, max: nat)
    requires w >= 1 && max >= 1 && Min(n, max - 1 + w) == Min(n, max - 1 + (w - 1))
    ensures SatSub(n, w - 1) < max
  {}

  lemma {:induction false} BlobArith(e: nat, w: nat, max: nat)
    requires w >= 1 && Min(e, SatSub(max, w)) == Min(e, SatSub(max, w - 1))
    ensures e + w <= max || w > max
  {}

  lemma {:induction false} LeavesBoth(txs: set<Tx>, blob: bool, free: Pool, w: nat)
    requires w >= 1 && Leaves(txs, blob, free, w) && Leaves(txs, blob, free, w - 1)
    ensures if blob then |Evictable(free)| + w <= free.maxBlobs || w > free.maxBlobs
            else SatSub(|NonBlobs(free.txs)|, w - 1) < free.maxSize || free.maxSize == 0
  {
    if blob {
      BlobArith(|Evictable(free)|, w, free.maxBlobs);
    } else if free.maxSize >= 1 {
      RegularArith(|NonBlobs(free.txs)|, w, free.maxSize);
    }
  }

  lemma {:induction false} RoomFrom(p: Pool, x: Tx, tx: Tx, free: Pool, w: nat)
    requires free == FreeSlot(p, SlotOf(x)) && free.maxSize == p.maxSize && free.maxBlobs == p.maxBlobs && w == |Window(p)| >= 1
    requires RegularCount(Without(free, tx)) == SatSub(|NonBlobs(free.txs)|, w - 1) && |free.blobs.bundles| == |Evictable(free)| + w
    requires if x.kind.Blob? then |Evictable(free)| + w <= free.maxBlobs || w > free.maxBlobs
             else SatSub(|NonBlobs(free.txs)|, w - 1) < free.maxSize || free.maxSize == 0
    ensures SameRoom(p, x, tx)
  {}

  lemma {:induction false} LeavesSame(p: Pool, x: Tx, txs: set<Tx>, tx: Tx, free: Pool, w: nat)
    requires Valid(p) && tx in Window(p) && free == FreeSlot(p, SlotOf(x)) && w == |Window(p)| >= 1
    requires Leaves(txs, x.kind.Blob?, free, w) && Leaves(txs, x.kind.Blob?, free, w - 1)
    ensures SameRoom(p, x, tx)
  {
    LeavesBoth(txs, x.kind.Blob?, free, w);
    FreePlain(p, SlotOf(x));
    FreeCounts(p, SlotOf(x), tx);
    RoomFrom(p, x, tx, free, w);
  }

  /** An eviction that depends on the bundle leaves another number of transactions without it. */
  lemma {:induction false} EvictionDiffers(p: Pool, q: Request, evicted: seq<Tx>, r: Pool, tx: Tx)
    requires Valid(p) && tx in Window(p) && Proper(q) && Verdict(p, q).None? && Accepts(p, q, evicted, r)
    requires Accepts(Without(p, tx), q, evicted, Without(r, tx))
    ensures SameRoom(p, q.tx, tx)
  {
    AddLeaves(p, q, evicted, r, q.tx.kind.Blob?);
    WithoutLeaves(p, q, evicted, r, tx);
    LeavesSame(p, q.tx, r.txs, tx, FreeSlot(p, SlotOf(q.tx)), |Window(p)|);
  }

  // ---------------------------------------------------------------- every operation

  lemma {:induction false} WithoutNew(p: Pool, x: Tx, r: Pool, tx: Tx)
    requires Valid(p) && tx in Window(p) && x != tx && Step(p, NewBundle(x), r)
    ensures Step(Without(p, tx), NewBundle(x), Without(r, tx))
  {
    StepValid(p, NewBundle(x), r);
    DropInverts(p.blobs, tx);
    AddInverts(DropBundle(p.blobs, tx), x, x.hashes);
    WithoutBlobs(r, tx, AddBundle(DropBundle(p.blobs, tx), x, x.hashes));
  }

  lemma {:induction false} WithoutOrphan(p: Pool, x: Tx, r: Pool, tx: Tx)
    requires Valid(p) && tx in Window(p) && Step(p, DropOrphan(x), r)
    ensures Step(Without(p, tx), DropOrphan(x), Without(r, tx))
  {
    DropInverts(p.blobs, x);
    DropInverts(p.blobs, tx);
    DropInverts(DropBundle(p.blobs, tx), x);
    WithoutBlobs(r, tx, DropBundle(DropBundle(p.blobs, tx), x));
  }

  lemma {:induction false} WithoutAccepted(p: Pool, op: Op, r: Pool, tx: Tx)
    requires Valid(p) && tx in Window(p) && Step(p, op, r) && Accepted(p, op)
    ensures Step(Without(p, tx), op, Without(r, tx)) <==> Indifferent(p, op, tx)
  {
    var q, evicted := op.request, op.evicted;
    WithoutVerdict(p, q, tx);
    if SameRoom(p, q.tx, tx) { WithoutAdd(p, q, evicted, r, tx); }
    if Step(Without(p, tx), op, Without(r, tx)) { EvictionDiffers(p, q, evicted, r, tx); }
  }

  /** The bundle can be left out of one operation exactly when its evictions do not depend on it. */
  lemma {:induction false} WithoutStep(p: Pool, op: Op, r: Pool, tx: Tx)
    requires Valid(p) && tx in Window(p) && Step(p, op, r) && Elsewhere(p, op, tx)
    ensures Step(Without(p, tx), op, Without(r, tx)) <==> Indifferent(p, op, tx)
  {
    match op
    case NewBundle(x) => WithoutNew(p, x, r, tx);
    case Add(q, evicted) =>
      WithoutVerdict(p, q, tx);
      if Verdict(p, q).None? { WithoutAccepted(p, op, r, tx); }
    case Drop(x) => WithoutRemove(p, x, tx);
    case DropOrphan(x) => WithoutOrphan(p, x, r, tx);
    case Broadcasted(_) =>
  }

  // ---------------------------------------------------------------- the whole stretch

  function AllWithout(ps: seq<Pool>, tx: Tx): (r: seq<Pool>)
    ensures |r| == |ps| && forall i | 0 <= i < |ps| :: r[i] == Without(ps[i], tx)
  {
    seq(|ps|, i requires 0 <= i < |ps| => Without(ps[i], tx))
  }

  /** Between the bundle and the rollback the bundle stays in the window. */
  lemma {:induction false} StaysOpen(ops: seq<Op>, ps: seq<Pool>, n: nat, tx: Tx)
    requires Steps(ops, ps) && Valid(ps[0]) && AllOrderly(ops, ps) && tx in Window(ps[0]) && n < |ps|
    requires forall i | 0 <= i < n :: Elsewhere(ps[i], ops[i], tx)
    ensures Valid(ps[n]) && tx in Window(ps[n])
  {
    ValidUpTo(ops, ps, n);
    if n > 0 {
      StaysOpen(ops, ps, n - 1, tx);
      assert StepAt(ops, ps, n - 1) && Elsewhere(ps[n - 1], ops[n - 1], tx);
      OneStepMoves(ps[n - 1], ops[n - 1], ps[n], tx);
    }
  }

  /** A bundle comes in, any operations follow, among them the rejected insertion, and the bundle
      is rolled back. The pools on the way, less the bundle, are those that the same operations
      make of the pool without it, down to the last one, exactly when no eviction in between
      depends on the bundle. */
  lemma {:induction false} RejectedBlob(p: Pool, tx: Tx, ops: seq<Op>, ps: seq<Pool>, r: Pool)
    requires Valid(p) && tx !in p.blobs.bundles && |ps| > 0 && Step(p, NewBundle(tx), ps[0])
    requires Steps(ops, ps) && AllOrderly(ops, ps) && Step(ps[|ops|], DropOrphan(tx), r)
    requires forall i | 0 <= i < |ops| :: Elsewhere(ps[i], ops[i], tx)
    ensures AllWithout(ps, tx)[0] == p && AllWithout(ps, tx)[|ops|] == r
    ensures Steps(ops, AllWithout(ps, tx)) <==> forall i | 0 <= i < |ops| :: Indifferent(ps[i], ops[i], tx)
  {
    StepValid(p, NewBundle(tx), ps[0]);
    RollBack(p.blobs, tx, tx.hashes);
    forall i | 0 <= i < |ops| ensures StepAt(ops, AllWithout(ps, tx), i) <==> Indifferent(ps[i], ops[i], tx) {
      assert StepAt(ops, ps, i);
      StaysOpen(ops, ps, i, tx);
      WithoutStep(ps[i], ops[i], ps[i + 1], tx);
    }
  }

  /** Whatever happens in between, the rollback leaves no trace of the bundle. */
  lemma {:induction false} RollbackClears(p: Pool, tx: Tx, ops: seq<Op>, ps: seq<Pool>, r: Pool)
    requires Valid(p) && tx !in p.blobs.bundles && |ps| > 0 && Step(p, NewBundle(tx), ps[0])
    requires Steps(ops, ps) && AllOrderly(ops, ps) && Step(ps[|ops|], DropOrphan(tx), r)
    requires forall i | 0 <= i < |ops| :: Elsewhere(ps[i], ops[i], tx)
    ensures Valid(r) && r.blobs.bundles == ps[|ops|].blobs.bundles - {tx}
    ensures forall c | c in r.blobs.holders :: tx !in r.blobs.holders[c]
  {
    StepValid(p, NewBundle(tx), ps[0]);
    assert tx in Window(ps[0]);
    StaysOpen(ops, ps, |ops|, tx);
    StepValid(ps[|ops|], DropOrphan(tx), r);
    forall c | c in r.blobs.holders ensures tx !in r.blobs.holders[c] {
      assert Place(r.blobs.holders, c, tx).None?;
    }
  }
}
