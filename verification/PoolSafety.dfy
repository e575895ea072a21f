/** What every insertion keeps, and what an accepted one guarantees. */
module PoolSafety {
  import opened Options
  import opened Numbers
  import opened Ledger
  import opened TxPool
  import opened Admission

  // ---------------------------------------------------------------- the steps of an insertion

  lemma {:induction false} FreeSlotTied(p: Pool, k: Slot)
    requires Tied(p)
    ensures Tied(FreeSlot(p, k)) && Smaller(p, FreeSlot(p, k))
    ensures forall j :: j in FreeSlot(p, k).index <==> j in p.index && j != k
  {
    if k in p.index {
      RemoveTied(p, p.index[k]);
      RemoveShrinks(p, p.index[k]);
    }
  }

  lemma {:induction false} FreeSlotOk(p: Pool, k: Slot)
    requires Valid(p)
    ensures Valid(FreeSlot(p, k)) && Window(FreeSlot(p, k)) == Window(p)
  {
    if k in p.index {
      RemoveValid(p, p.index[k]);
      RemoveExact(p, p.index[k]);
    }
  }

  lemma {:induction false} KeptMembers(order: seq<Tx>, txs: set<Tx>)
    ensures forall tx :: tx in Kept(order, txs) <==> tx in order && tx in txs
  {
    if order != [] {
      var front, last := order[..|order| - 1], order[|order| - 1];
      KeptMembers(front, txs);
      assert forall tx :: tx in order <==> tx in front || tx == last;
    }
  }

  /** Pruning the order queue loses no pooled transaction. */
  lemma {:induction false} PruneOk(p: Pool)
    requires Tied(p)
    ensures Tied(Prune(p)) && Prune(p) == p.(order := Prune(p).order)
  {
    KeptMembers(p.order, p.txs);
  }

  lemma {:induction false} RoomTied(p: Pool, q: Request, evicted: seq<Tx>, room: Pool)
    requires Tied(p) && MakesRoom(p, q, evicted, room)
    ensures Tied(room) && Smaller(p, room)
  {
    if q.tx.kind.Blob? { BlobEvictionTied(p, evicted, room); } else { EvictRegularTied(p); }
  }

  lemma {:induction false} RoomOk(p: Pool, q: Request, evicted: seq<Tx>, room: Pool)
    requires Valid(p) && MakesRoom(p, q, evicted, room)
    ensures Valid(room) && Window(room) == Window(p)
  {
    if q.tx.kind.Blob? {
      BlobEvictionValid(p, evicted, room);
      BlobEvictionTrims(p, evicted, room);
    } else {
      EvictRegularValid(p);
      EvictRegularBlobs(p);
    }
  }

  /** What the free slot needs before the transaction goes in. */
  ghost predicate CanInsert(p: Pool, q: Request) {
    && SlotOf(q.tx) !in p.index
    && (q.tx.kind.Frame? ==> q.tx.sender !in p.pendingFrame)
    && (q.tx.kind.Frame? && q.reservation.Some? ==>
          var r := q.reservation.value;
          && Owed(p.book.sponsors, r.paymaster) + r.cost <= U256_MAX
          && (!r.canonical ==> |Strays(p.book.sponsors, r.paymaster)| < MAX_PENDING_NONCANONICAL))
  }

  lemma {:induction false} InsertBook(p: Pool, q: Request)
    requires Sponsored(p.txs, p.book) && CanInsert(p, q) && q.tx !in p.txs
    ensures Sponsored(Insert(p, q).txs, Insert(p, q).book)
  {
    if q.tx.kind.Frame? && q.reservation.Some? { ChargeConserves(p.book, q.tx, q.reservation.value); }
  }

  lemma {:induction false} InsertTied(p: Pool, q: Request)
    requires Tied(p) && CanInsert(p, q)
    ensures Tied(Insert(p, q)) && q.tx !in p.txs
  {
    assert q.tx !in p.txs;
    InsertBook(p, q);
  }

  lemma {:induction false} InsertValid(p: Pool, q: Request)
    requires Valid(p) && CanInsert(p, q)
    ensures Valid(Insert(p, q)) <==> Supplied(p, q.tx)
  {
    InsertTied(p, q);
  }

  /** Evictions never spoil the conditions for the insertion. */
  lemma {:induction false} CanInsertShrinks(p: Pool, q: Request, r: Pool)
    requires CanInsert(p, q) && Smaller(p, r)
    ensures CanInsert(r, q)
  {
    if q.tx.kind.Frame? && q.reservation.Some? {
      var a := q.reservation.value.paymaster;
      SmallerOwes(p.book.sponsors, r.book.sponsors, a);
      Fewer(Strays(r.book.sponsors, a), Strays(p.book.sponsors, a));
    }
  }

  // ---------------------------------------------------------------- frame transactions

  lemma {:induction false} FrameSlotFree(p: Pool, tx: Tx)
    requires Tied(p) && tx.kind.Frame? && !FrameConflict(p, tx)
    ensures tx.sender !in FreeSlot(p, SlotOf(tx)).pendingFrame
  {
    if tx.sender in p.pendingFrame {
      var old' := p.pendingFrame[tx.sender].0;
      assert SlotOf(old') == SlotOf(tx) && p.index[SlotOf(tx)] == old';
    }
  }

  /** The reservation a same-nonce replacement releases is gone once the slot is free. */
  lemma {:induction false} ReleasedGone(p: Pool, tx: Tx, r: Reservation)
    requires Tied(p) && tx.kind.Frame? && Released(p, tx, r).Some?
    ensures var prior, q := Released(p, tx, r).value, FreeSlot(p, SlotOf(tx));
            && Owed(p.book.sponsors, r.paymaster) == Owed(q.book.sponsors, r.paymaster) + prior.cost
            && |Strays(p.book.sponsors, r.paymaster)| == |Strays(q.book.sponsors, r.paymaster)| + if prior.canonical then 0 else 1
  {
    var o := OldFrame(p, tx).value;
    assert SlotOf(o) == SlotOf(tx) && p.index[SlotOf(tx)] == o;
    OwedRemove(p.book.sponsors, o, r.paymaster);
    assert FreeSlot(p, SlotOf(tx)).book.sponsors == p.book.sponsors - {o};
  }

  /** What the paymaster still owes once the slot is free is at most what the gate counted. */
  lemma {:induction false} GateCounts(p: Pool, tx: Tx, r: Reservation)
    requires Tied(p) && tx.kind.Frame?
    ensures var prior, q := Released(p, tx, r), FreeSlot(p, SlotOf(tx));
            && Owed(q.book.sponsors, r.paymaster) <=
               (if prior.Some? then SatSub(Get0(p.book.reserved, r.paymaster), prior.value.cost) else Get0(p.book.reserved, r.paymaster))
            && |Strays(q.book.sponsors, r.paymaster)| <=
               (if prior.Some? && !prior.value.canonical then SatSub(Get0(p.book.noncanonical, r.paymaster), 1)
                else Get0(p.book.noncanonical, r.paymaster))
  {
    var a, q := r.paymaster, FreeSlot(p, SlotOf(tx));
    assert Balanced(p.book, a);
    if Released(p, tx, r).Some? {
      ReleasedGone(p, tx, r);
    } else {
      FreeSlotTied(p, SlotOf(tx));
      SmallerOwes(p.book.sponsors, q.book.sponsors, a);
      Fewer(Strays(q.book.sponsors, a), Strays(p.book.sponsors, a));
    }
  }

  lemma {:induction false} FrameCanInsert(p: Pool, q: Request)
    requires Tied(p) && Proper(q) && q.tx.kind.Frame? && FrameGate(p, q.tx, q.reservation).None?
    ensures CanInsert(FreeSlot(p, SlotOf(q.tx)), q)
  {
    var free := FreeSlot(p, SlotOf(q.tx));
    FreeSlotTied(p, SlotOf(q.tx));
    FrameSlotFree(p, q.tx);
    if q.reservation.Some? {
      var r := q.reservation.value;
      GateCounts(p, q.tx, r);
      assert Balanced(free.book, r.paymaster);
    }
  }

  // ---------------------------------------------------------------- every insertion

  lemma {:induction false} ReadyToInsert(p: Pool, q: Request, evicted: seq<Tx>, room: Pool)
    requires Tied(p) && Proper(q) && Verdict(p, q).None?
    requires MakesRoom(Prune(FreeSlot(p, SlotOf(q.tx))), q, evicted, room)
    ensures Tied(room) && CanInsert(room, q) && Smaller(FreeSlot(p, SlotOf(q.tx)), room)
  {
    var free := FreeSlot(p, SlotOf(q.tx));
    FreeSlotTied(p, SlotOf(q.tx));
    PruneOk(free);
    RoomTied(Prune(free), q, evicted, room);
    if q.tx.kind.Frame? { FrameCanInsert(p, q); }
    CanInsertShrinks(free, q, room);
  }

  lemma {:induction false} RoomValid(p: Pool, q: Request, evicted: seq<Tx>, room: Pool)
    requires Valid(p) && MakesRoom(Prune(FreeSlot(p, SlotOf(q.tx))), q, evicted, room)
    ensures Valid(room) && Window(room) == Window(p)
  {
    var free := FreeSlot(p, SlotOf(q.tx));
    FreeSlotOk(p, SlotOf(q.tx));
    PruneOk(free);
    RoomOk(Prune(free), q, evicted, room);
  }

  /** An accepted insertion keeps every tie but the bundles'. */
  lemma {:induction false} AddTied(p: Pool, q: Request, evicted: seq<Tx>, r: Pool)
    requires Tied(p) && Proper(q) && Verdict(p, q).None? && Accepts(p, q, evicted, r)
    ensures Tied(r) && q.tx in r.txs && r.txs <= p.txs + {q.tx}
  {
    var room :| MakesRoom(Prune(FreeSlot(p, SlotOf(q.tx))), q, evicted, room) && r == Insert(room, q);
    ReadyToInsert(p, q, evicted, room);
    InsertTied(room, q);
    FreeSlotTied(p, SlotOf(q.tx));
  }

  /** It keeps the bundles' as well if and only if a blob transaction finds its bundle there and
      is not pooled already: freeing the slot of a pooled one takes its bundle away. */
  lemma {:induction false} AddValid(p: Pool, q: Request, evicted: seq<Tx>, r: Pool)
    requires Valid(p) && Proper(q) && Verdict(p, q).None? && Accepts(p, q, evicted, r)
    ensures Valid(r) <==> Supplied(p, q.tx)
    ensures Supplied(p, q.tx) ==> Window(r) == Window(p) - {q.tx}
  {
    var room :| MakesRoom(Prune(FreeSlot(p, SlotOf(q.tx))), q, evicted, room) && r == Insert(room, q);
    ReadyToInsert(p, q, evicted, room);
    RoomValid(p, q, evicted, room);
    InsertValid(room, q);
    InsertCounts(room, q);
  }

  lemma {:induction false} FreePruned(p: Pool, k: Slot)
    requires Tied(p) && BlobsOnly(p)
    ensures var free := FreeSlot(p, k);
            && Tied(Prune(free)) && BlobsOnly(free) && Prune(free) == free.(order := Prune(free).order)
            && free.maxSize == p.maxSize && free.maxBlobs == p.maxBlobs && Trims(p, free)
  {
    FreeSlotTied(p, k);
    PruneOk(FreeSlot(p, k));
    if k in p.index { RemoveTrims(p, p.index[k]); }
  }

  lemma {:induction false} EvictionTrims(p: Pool, q: Request, evicted: seq<Tx>, room: Pool)
    requires Tied(p) && BlobsOnly(p) && MakesRoom(p, q, evicted, room)
    ensures Trims(p, room)
  {
    if q.tx.kind.Blob? { BlobEvictionTrims(p, evicted, room); } else { EvictRegularBlobs(p); }
  }

  lemma {:induction false} SlotFreed(p: Pool, tx: Tx)
    requires Tied(p)
    ensures tx !in FreeSlot(p, SlotOf(tx)).txs
  {}

  /** The slot's transaction goes first, so that a pooled transaction loses its bundle to its own
      second insertion. */
  lemma {:induction false} RoomTrims(p: Pool, q: Request, evicted: seq<Tx>, room: Pool)
    requires Tied(p) && BlobsOnly(p) && MakesRoom(Prune(FreeSlot(p, SlotOf(q.tx))), q, evicted, room)
    ensures Trims(p, room) && q.tx !in room.txs
  {
    var free := FreeSlot(p, SlotOf(q.tx));
    FreePruned(p, SlotOf(q.tx));
    SlotFreed(p, q.tx);
    EvictionTrims(Prune(free), q, evicted, room);
    TrimsTrans(p, Prune(free), room);
  }

  // ---------------------------------------------------------------- capacity

  lemma {:induction false} InsertSets(txs: set<Tx>, tx: Tx)
    requires tx !in txs
    ensures NonBlobs(txs + {tx}) == NonBlobs(txs) + if tx.kind.Blob? then {} else {tx}
    ensures PooledBlobs(txs + {tx}) == PooledBlobs(txs) + if tx.kind.Blob? then {tx} else {}
    ensures |NonBlobs(txs + {tx})| == |NonBlobs(txs)| + if tx.kind.Blob? then 0 else 1
  {}

  lemma {:induction false} InsertCounts(p: Pool, q: Request)
    requires Tied(p) && CanInsert(p, q)
    ensures q.tx !in p.txs && Insert(p, q).txs == p.txs + {q.tx} && Insert(p, q).blobs == p.blobs
    ensures Window(Insert(p, q)) == Window(p) - {q.tx}
  {}

  lemma {:induction false} RegularInsert(room: Pool, q: Request)
    requires Tied(room) && CanInsert(room, q) && !q.tx.kind.Blob?
    ensures |NonBlobs(Insert(room, q).txs)| == 1 + |NonBlobs(room.txs)| && PooledBlobs(Insert(room, q).txs) == PooledBlobs(room.txs)
  {
    InsertCounts(room, q);
    InsertSets(room.txs, q.tx);
  }

  lemma {:induction false} RegularRoom(p: Pool, q: Request, room: Pool)
    requires Tied(p) && BlobsOnly(p) && room == EvictRegular(p) && CanInsert(room, q) && !q.tx.kind.Blob?
    ensures |NonBlobs(Insert(room, q).txs)| == 1 + Min(|NonBlobs(p.txs)|, Quota(p))
    ensures PooledBlobs(Insert(room, q).txs) == PooledBlobs(p.txs)
  {
    EvictRegularTied(p);
    EvictRegularBlobs(p);
    EvictRegularExact(p);
    RegularInsert(room, q);
  }

  lemma {:induction false} FreeQuota(p: Pool, k: Slot)
    requires Tied(p) && BlobsOnly(p)
    ensures var free := FreeSlot(p, k); Prune(free).txs == free.txs && Quota(Prune(free)) == Quota(free)
  {
    FreePruned(p, k);
  }

  /** How many regular transactions a completed regular insertion leaves; it takes no blob
      transaction but the one it replaces. */
  lemma {:induction false} RegularLeft(p: Pool, q: Request, evicted: seq<Tx>, r: Pool)
    requires Tied(p) && BlobsOnly(p) && Proper(q) && Verdict(p, q).None? && Accepts(p, q, evicted, r) && !q.tx.kind.Blob?
    ensures var free := FreeSlot(p, SlotOf(q.tx));
            |NonBlobs(r.txs)| == 1 + Min(|NonBlobs(free.txs)|, Quota(free)) && PooledBlobs(r.txs) == PooledBlobs(free.txs)
  {
    var free := FreeSlot(p, SlotOf(q.tx));
    var room :| MakesRoom(Prune(free), q, evicted, room) && r == Insert(room, q);
    ReadyToInsert(p, q, evicted, room);
    FreePruned(p, SlotOf(q.tx));
    FreeQuota(p, SlotOf(q.tx));
    RegularRoom(Prune(free), q, room);
  }

  lemma {:induction false} CapIff(n: nat, w: nat, b: nat, max: nat)
    ensures 1 + Min(n, if max == 0 then 0 else SatSub(max - 1 + w, b)) <= max <==> n < max || (w <= b && max > 0)
  {}

  /** It leaves at most the cap exactly when there was room already or, with a cap above zero, there
      are no more bundles without their transaction than transactions without their bundle. */
  lemma {:induction false} RegularCap(p: Pool, q: Request, evicted: seq<Tx>, r: Pool)
    requires Tied(p) && BlobsOnly(p) && Proper(q) && Verdict(p, q).None? && Accepts(p, q, evicted, r) && !q.tx.kind.Blob?
    ensures var free := FreeSlot(p, SlotOf(q.tx));
            |NonBlobs(r.txs)| <= p.maxSize <==> |NonBlobs(free.txs)| < p.maxSize || (|Window(p)| <= |Bare(free)| && p.maxSize > 0)
  {
    var free := FreeSlot(p, SlotOf(q.tx));
    RegularLeft(p, q, evicted, r);
    FreePruned(p, SlotOf(q.tx));
    CapIff(|NonBlobs(free.txs)|, |Window(p)|, |Bare(free)|, p.maxSize);
  }

  /** How many blob transactions with their bundles a blob insertion leaves besides itself. */
  function BlobQuota(p: Pool, free: Pool): nat { Min(|Evictable(free)|, SatSub(p.maxBlobs, |Window(p)|)) }

  lemma {:induction false} BlobRoom(p: Pool, q: Request, evicted: seq<Tx>, room: Pool)
    requires Tied(p) && BlobsOnly(p) && q.tx.kind.Blob? && MakesRoom(Prune(FreeSlot(p, SlotOf(q.tx))), q, evicted, room)
    ensures var free := FreeSlot(p, SlotOf(q.tx));
            && |PooledBlobs(room.txs)| == |Bare(free)| + BlobQuota(p, free) && |room.blobs.bundles| == |Window(p)| + BlobQuota(p, free)
            && NonBlobs(room.txs) == NonBlobs(free.txs)
  {
    var free := FreeSlot(p, SlotOf(q.tx));
    FreePruned(p, SlotOf(q.tx));
    BlobEvictionExact(Prune(free), evicted, room);
    BlobCountIs(room);
  }

  lemma {:induction false} BlobInsert(room: Pool, q: Request)
    requires Tied(room) && CanInsert(room, q) && q.tx.kind.Blob?
    ensures Insert(room, q).blobs == room.blobs && NonBlobs(Insert(room, q).txs) == NonBlobs(room.txs)
    ensures |PooledBlobs(Insert(room, q).txs)| == 1 + |PooledBlobs(room.txs)|
  {
    InsertCounts(room, q);
    InsertSets(room.txs, q.tx);
  }

  /** How many blob transactions and bundles a completed blob insertion leaves; it removes no
      regular transaction but the one it replaces. */
  lemma {:induction false} BlobCount(p: Pool, q: Request, evicted: seq<Tx>, r: Pool)
    requires Tied(p) && BlobsOnly(p) && Proper(q) && Verdict(p, q).None? && Accepts(p, q, evicted, r) && q.tx.kind.Blob?
    ensures var free := FreeSlot(p, SlotOf(q.tx));
            && |PooledBlobs(r.txs)| == 1 + |Bare(free)| + BlobQuota(p, free) && |r.blobs.bundles| == |Window(p)| + BlobQuota(p, free)
            && NonBlobs(r.txs) == NonBlobs(free.txs)
  {
    var room :| MakesRoom(Prune(FreeSlot(p, SlotOf(q.tx))), q, evicted, room) && r == Insert(room, q);
    ReadyToInsert(p, q, evicted, room);
    BlobRoom(p, q, evicted, room);
    BlobInsert(room, q);
  }

  lemma {:induction false} BlobCapIff(e: nat, w: nat, b: nat, max: nat)
    ensures 1 + b + Min(e, SatSub(max, w)) <= max <==> b + e < max || b < Min(w, max)
    ensures w + Min(e, SatSub(max, w)) > max <==> w > max
  {}

  /** A completed blob insertion leaves at most the cap of pooled blob transactions exactly when
      there was room already or the transactions without their bundle are fewer than the bundles
      without their transaction and than the cap. The bundles exceed the cap exactly when those
      without their transaction do. */
  lemma {:induction false} BlobCap(p: Pool, q: Request, evicted: seq<Tx>, r: Pool)
    requires Tied(p) && BlobsOnly(p) && Proper(q) && Verdict(p, q).None? && Accepts(p, q, evicted, r) && q.tx.kind.Blob?
    ensures var free := FreeSlot(p, SlotOf(q.tx));
            && (|PooledBlobs(r.txs)| <= p.maxBlobs <==> |PooledBlobs(free.txs)| < p.maxBlobs || |Bare(free)| < Min(|Window(p)|, p.maxBlobs))
            && (|r.blobs.bundles| > p.maxBlobs <==> |Window(p)| > p.maxBlobs)
  {
    var free := FreeSlot(p, SlotOf(q.tx));
    BlobCount(p, q, evicted, r);
    FreePruned(p, SlotOf(q.tx));
    BlobCountIs(free);
    BlobCapIff(|Evictable(free)|, |Window(p)|, |Bare(free)|, p.maxBlobs);
  }

  // ---------------------------------------------------------------- the sender's budget

  /** A smaller pool holds fewer of a sender's transactions. */
  lemma {:induction false} SmallerMine(p: Pool, r: Pool, sender: Address, from: nat)
    requires Smaller(p, r)
    ensures Mine(r.index, sender, from) <= Mine(p.index, sender, from)
  {}

  lemma {:induction false} MineInsert(index: map<Slot, Tx>, tx: Tx, from: nat)
    requires SlotOf(tx) !in index && forall k | k in index :: SlotOf(index[k]) == k
    ensures Mine(index[SlotOf(tx) := tx], tx.sender, from) == Mine(index, tx.sender, from) + if tx.nonce >= from then {tx} else {}
    ensures tx !in Mine(index, tx.sender, from)
  {
    var more := index[SlotOf(tx) := tx];
    forall x | x in Mine(index, tx.sender, from)
      ensures x in Mine(more, tx.sender, from)
    {
      assert SlotOf(x) in more && more[SlotOf(x)] == x;
    }
    if tx.nonce >= from { assert SlotOf(tx) in more && more[SlotOf(tx)] == tx; }
  }

  /** The transactions the balance gate summed are those that stay besides the new one. */
  lemma {:induction false} GateSums(p: Pool, tx: Tx, from: nat)
    requires Tied(p)
    ensures Mine(FreeSlot(p, SlotOf(tx)).index, tx.sender, from) <= Mine(p.index, tx.sender, from) - Replaced(p.index, tx)
  {
    FreeSlotTied(p, SlotOf(tx));
  }

  /** What the balance gate checked. */
  ghost predicate Affordable(p: Pool, tx: Tx, a: SenderAdmission) {
    a.balanceCheck.Some? ==>
      var counted := Mine(p.index, tx.sender, a.accountNonce) - Replaced(p.index, tx);
      Priced(counted) && SumOf(Costs(counted)) + a.balanceCheck.value.txCost <= a.balanceCheck.value.senderBalance
  }

  lemma {:induction false} GatePassed(p: Pool, q: Request)
    requires Verdict(p, q).None? && q.admission.Some?
    ensures Affordable(p, q.tx, q.admission.value)
  {}

  /** What stays of the sender's transactions, and the new one, cost what the gate allowed. */
  lemma {:induction false} RoomBudget(p: Pool, tx: Tx, a: SenderAdmission, room: Pool)
    requires Tied(p) && Tied(room) && Smaller(FreeSlot(p, SlotOf(tx)), room) && SlotOf(tx) !in room.index
    requires Affordable(p, tx, a) && a.balanceCheck.Some? && tx.cost == Some(a.balanceCheck.value.txCost)
    ensures var mine := Mine(room.index[SlotOf(tx) := tx], tx.sender, a.accountNonce);
            Priced(mine) && SumOf(Costs(mine)) <= a.balanceCheck.value.senderBalance
  {
    SmallerMine(FreeSlot(p, SlotOf(tx)), room, tx.sender, a.accountNonce);
    GateSums(p, tx, a.accountNonce);
    MineInsert(room.index, tx, a.accountNonce);
    BudgetSum(Mine(p.index, tx.sender, a.accountNonce) - Replaced(p.index, tx), Mine(room.index, tx.sender, a.accountNonce),
              Mine(room.index[SlotOf(tx) := tx], tx.sender, a.accountNonce), tx);
  }

  /** After an accepted insertion with a balance check, the sender's pooled transactions from
      the account's nonce up cost at most the sender's balance. */
  lemma {:induction false} WithinBalance(p: Pool, q: Request, evicted: seq<Tx>, r: Pool)
    requires Tied(p) && Proper(q) && Verdict(p, q).None? && Accepts(p, q, evicted, r)
    requires q.admission.Some? && q.admission.value.balanceCheck.Some?
    requires q.tx.cost == Some(q.admission.value.balanceCheck.value.txCost)
    ensures var a := q.admission.value;
            var mine := Mine(r.index, q.tx.sender, a.accountNonce);
            Priced(mine) && SumOf(Costs(mine)) <= a.balanceCheck.value.senderBalance
  {
    var free := FreeSlot(p, SlotOf(q.tx));
    var room :| MakesRoom(Prune(free), q, evicted, room) && r == Insert(room, q);
    ReadyToInsert(p, q, evicted, room);
    GatePassed(p, q);
    RoomBudget(p, q.tx, q.admission.value, room);
  }

  lemma {:induction false} BudgetSum(counted: set<Tx>, stay: set<Tx>, final: set<Tx>, tx: Tx)
    requires Priced(counted) && stay <= counted && tx !in stay && tx.cost.Some? && stay <= final <= stay + {tx}
    ensures Priced(final) && SumOf(Costs(final)) <= SumOf(Costs(counted)) + tx.cost.value
  {
    CostsSubset(stay, counted);
    CostsInsert(stay, tx);
    CostsSubset(final, stay + {tx});
  }

  // ---------------------------------------------------------------- the sender's queue

  /** Before eviction, an accepted insertion keeps the queue of nonce-gapped transactions within
      its limit when it adds to it, and otherwise does not lengthen it. */
  lemma {:induction false} QueueKept(p: Pool, q: Request)
    requires Tied(p) && Verdict(p, q).None? && q.admission.Some?
    ensures var a, tx := q.admission.value, q.tx;
            var before := |Future(p.index, tx.sender, a.accountNonce)|;
            var now := |Future(Insert(FreeSlot(p, SlotOf(tx)), q).index, tx.sender, a.accountNonce)|;
            if SlotOf(tx) !in p.index && tx.nonce > NextExecutable(p.index, tx.sender, a.accountNonce)
            then now == before + 1 <= a.queuedMax else now <= before
  {
    var a, tx := q.admission.value, q.tx;
    if SlotOf(tx) in p.index {
      FreeSlotTied(p, SlotOf(tx));
      assert Insert(FreeSlot(p, SlotOf(tx)), q).index == p.index[SlotOf(tx) := tx];
      ReplaceKeepsFuture(p.index, tx, a.accountNonce);
    } else if tx.nonce > NextExecutable(p.index, tx.sender, a.accountNonce) {
      FutureInsert(p.index, tx, a.accountNonce);
    } else {
      ExecutableInsert(p.index, tx, a.accountNonce);
    }
  }

  // ---------------------------------------------------------------- what the gates let through

  /** Once the slot is free, a paymaster owes what the gate counted, for a transaction that is not
      already pooled. */
  lemma {:induction false} GateExact(p: Pool, tx: Tx, r: Reservation)
    requires Tied(p) && tx.kind.Frame? && tx !in p.txs && !FrameConflict(p, tx) && Released(p, tx, r).None?
    ensures var q := FreeSlot(p, SlotOf(tx));
            && Owed(q.book.sponsors, r.paymaster) == Owed(p.book.sponsors, r.paymaster)
            && Strays(q.book.sponsors, r.paymaster) == Strays(p.book.sponsors, r.paymaster)
  {
    if SlotOf(tx) in p.index {
      var o := p.index[SlotOf(tx)];
      if o in p.book.sponsors {
        assert p.pendingFrame[tx.sender] == (o, tx.nonce) && OldFrame(p, tx) == Some(o);
        OwedRemove(p.book.sponsors, o, r.paymaster);
      } else {
        assert p.book.sponsors - {o} == p.book.sponsors;
      }
    }
  }

  /** The reservations that a frame transaction competes with: those that stay once its slot is
      free, or, when it is pooled already, all of them, its own included. */
  function Competing(p: Pool, tx: Tx): map<Tx, Reservation> {
    if tx in p.txs then p.book.sponsors else FreeSlot(p, SlotOf(tx)).book.sponsors
  }

  /** The paymaster gate passes a frame transaction exactly when, besides those, a non-canonical
      paymaster sponsors nothing else and the paymaster can cover it. */
  lemma {:induction false} PaymasterGateExact(p: Pool, tx: Tx, r: Reservation)
    requires Tied(p) && tx.kind.Frame? && !FrameConflict(p, tx)
    ensures var sponsors := Competing(p, tx);
            PaymasterGate(p, tx, r) ==
            if !r.canonical && |Strays(sponsors, r.paymaster)| >= MAX_PENDING_NONCANONICAL then Some(FrameTxNonCanonicalPaymasterLimit)
            else if r.cost > 0 && Owed(sponsors, r.paymaster) + r.cost > r.balance then Some(FrameTxPaymasterUnderfunded)
            else None
  {
    assert Balanced(p.book, r.paymaster);
    if tx in p.txs {
      assert p.pendingFrame[tx.sender].0 == tx && Released(p, tx, r).None?;
    } else if Released(p, tx, r).Some? {
      ReleasedGone(p, tx, r);
    } else {
      GateExact(p, tx, r);
    }
  }
}
