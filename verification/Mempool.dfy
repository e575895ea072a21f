/** The pool as it is kept: one object whose maps are changed in place
    (crates/blockchain/mempool.rs, MempoolInner and add_transaction_inner). */
module Mempool {
  import opened Options
  import opened Numbers
  import opened Ledger
  import opened BlobIndex
  import opened TxPool
  import opened Admission
  import opened PoolSafety
  import opened AdmissionLaws

  const MAX_BLOB_MEMPOOL_SIZE: nat := 512

  datatype Sum = Total(value: nat) | Failed(error: Error)

  /** The costs of done are summed up, those of rest are still to be read. */
  ghost predicate Summing(mine: set<Tx>, exclude: set<Tx>, rest: set<Tx>, done: set<Tx>, total: nat) {
    && mine == done + (rest - exclude) && done !! rest
    && Priced(done) && total == SumOf(Costs(done)) <= U256_MAX
  }

  lemma {:induction false} SummingStep(mine: set<Tx>, exclude: set<Tx>, rest: set<Tx>, done: set<Tx>, total: nat, tx: Tx)
    requires Summing(mine, exclude, rest, done, total) && tx in rest
    ensures tx in exclude ==> Summing(mine, exclude, rest - {tx}, done, total)
    ensures tx !in exclude && tx.cost.None? ==> CostSum(mine).None?
    ensures tx !in exclude && tx.cost.Some? && total + tx.cost.value > U256_MAX ==> CostSum(mine).None?
    ensures tx !in exclude && tx.cost.Some? && total + tx.cost.value <= U256_MAX ==>
              Summing(mine, exclude, rest - {tx}, done + {tx}, total + tx.cost.value)
  {
    if tx !in exclude {
      assert tx in mine;
      if tx.cost.Some? { CostStep(done, tx, mine); }
    }
  }

  /** Adds up costs, giving up on the first cost or sum that overflows. */
  method AddCosts(listed: set<Tx>, exclude: set<Tx>, pool: set<Tx>) returns (sum: Sum)
    requires listed <= pool
    ensures sum == if CostSum(listed - exclude).Some? then Total(CostSum(listed - exclude).value) else Failed(InvalidTxGasValues)
  {
    ghost var mine := listed - exclude;
    ghost var done: set<Tx> := {};
    var rest: set<Tx>, total: nat := listed, 0;
    assert Costs({}) == map[];
    while rest != {}
      invariant rest <= listed && Summing(mine, exclude, rest, done, total)
      decreases |rest|
    {
      var tx :| tx in rest;
      SummingStep(mine, exclude, rest, done, total, tx);
      rest := rest - {tx};
      if tx !in exclude {
        if tx !in pool { return Failed(IndexInconsistent); }
        if tx.cost.None? { return Failed(InvalidTxGasValues); }
        total := total + tx.cost.value;
        if total > U256_MAX { return Failed(InvalidTxGasValues); }
        done := done + {tx};
      }
    }
    assert done == mine;
    return Total(total);
  }

  /** Each sender's lowest nonce, gathered in one scan. */
  method LowestNonces(blobs: set<Tx>) returns (base: map<Address, nat>)
    ensures Baselines(blobs, base)
  {
    base := map[];
    var rest := blobs;
    ghost var seen: set<Tx> := {};
    while rest != {}
      invariant seen + rest == blobs && Baselines(seen, base)
      decreases |rest|
    {
      var tx :| tx in rest;
      BaselinesStep(seen, base, tx);
      rest, seen := rest - {tx}, seen + {tx};
      base := base[tx.sender := if tx.sender in base then Min(base[tx.sender], tx.nonce) else tx.nonce];
    }
    assert seen == blobs;
  }

  lemma {:induction false} NotWorseTrans(base: map<Address, nat>, x: Tx, y: Tx, z: Tx)
    ensures NotWorse(base, x, y) || NotWorse(base, y, x)
    ensures NotWorse(base, x, y) && NotWorse(base, y, z) ==> NotWorse(base, x, z)
  {}

  /** The transaction that waits furthest behind its sender's lowest nonce, the cheaper one on a
      tie, found in one scan. */
  method Furthest(blobs: set<Tx>, base: map<Address, nat>) returns (worst: Option<Tx>)
    ensures worst.None? <==> blobs == {}
    ensures worst.Some? ==> worst.value in blobs && forall x | x in blobs :: NotWorse(base, x, worst.value)
  {
    worst := None;
    var rest := blobs;
    ghost var seen: set<Tx> := {};
    while rest != {}
      invariant seen + rest == blobs && (worst.None? <==> seen == {})
      invariant worst.Some? ==> worst.value in seen && forall x | x in seen :: NotWorse(base, x, worst.value)
      decreases |rest|
    {
      var tx :| tx in rest;
      forall x | x in seen && worst.Some? { NotWorseTrans(base, x, worst.value, tx); }
      NotWorseTrans(base, tx, tx, tx);
      if worst.Some? { NotWorseTrans(base, worst.value, tx, tx); }
      if worst.None? || NotWorse(base, worst.value, tx) { worst := Some(tx); }
      rest, seen := rest - {tx}, seen + {tx};
    }
    assert seen == blobs;
  }

  class MempoolInner {
    var transactionPool: set<Tx>
    var txsBySenderNonce: map<Slot, Tx>
    var txsOrder: seq<Tx>
    var blobsBundlePool: map<Tx, seq<Commitment>>
    var blobsBundleByVersionedHash: map<Commitment, map<Tx, nat>>
    var pendingFrameTxBySender: map<Address, (Tx, Nonce)>
    var reservedPendingCost: map<Address, nat>
    var noncanonicalPaymasterPending: map<Address, nat>
    var frameTxPaymaster: map<Tx, Reservation>
    var broadcastPool: set<Tx>
    var privatePool: set<Tx>
    var maxBlobMempoolSize: nat
    const maxMempoolSize: nat

    /** The pool this object holds, as a value. */
    function View(): Pool
      reads this
    {
      Pool(transactionPool, txsBySenderNonce, txsOrder, Blobs(blobsBundlePool, blobsBundleByVersionedHash),
           pendingFrameTxBySender, Book(reservedPendingCost, noncanonicalPaymasterPending, frameTxPaymaster),
           broadcastPool, privatePool, maxMempoolSize, maxBlobMempoolSize)
    }

    constructor (maxSize: nat)
      ensures View() == Empty(maxSize, MAX_BLOB_MEMPOOL_SIZE) && Valid(View())
    {
      transactionPool, txsBySenderNonce, txsOrder := {}, map[], [];
      blobsBundlePool, blobsBundleByVersionedHash := map[], map[];
      pendingFrameTxBySender, reservedPendingCost := map[], map[];
      noncanonicalPaymasterPending, frameTxPaymaster := map[], map[];
      broadcastPool, privatePool := {}, {};
      maxBlobMempoolSize, maxMempoolSize := MAX_BLOB_MEMPOOL_SIZE, maxSize;
      new;
      EmptyValid(maxSize, MAX_BLOB_MEMPOOL_SIZE);
    }

    // -------------------------------------------------------------- bundles

    /** Nothing here checks the commitments or whether there is a bundle already. */
    method AddBlobsBundle(tx: Tx, commitments: seq<Commitment>)
      modifies this`blobsBundlePool, this`blobsBundleByVersionedHash
      ensures View() == old(View()).(blobs := AddBundle(old(View()).blobs, tx, commitments))
      ensures old(Valid(View())) && tx.kind.Blob? && commitments == tx.hashes ==> Valid(View())
      ensures old(Inverted(View().blobs)) ==>
                (Inverted(View().blobs) <==> (tx in old(blobsBundlePool) ==> forall c | c in old(blobsBundlePool[tx]) :: c in commitments))
    {
      if Inverted(View().blobs) { AddInverts(View().blobs, tx, commitments); }
      blobsBundleByVersionedHash := ListBundle(blobsBundleByVersionedHash, tx, commitments);
      blobsBundlePool := blobsBundlePool[tx := commitments];
    }

    method RemoveBlobBundle(tx: Tx)
      modifies this`blobsBundlePool, this`blobsBundleByVersionedHash
      ensures View() == old(View()).(blobs := DropBundle(old(View()).blobs, tx))
    {
      if tx in blobsBundlePool {
        var commitments := blobsBundlePool[tx];
        blobsBundlePool := blobsBundlePool - {tx};
        blobsBundleByVersionedHash := UnlistBundle(blobsBundleByVersionedHash, tx, commitments);
      }
    }

    // -------------------------------------------------------------- removal

    /** Releases the reservation of a removed frame transaction. */
    method ReleaseReservation(tx: Tx)
      modifies this`reservedPendingCost, this`noncanonicalPaymasterPending, this`frameTxPaymaster
      ensures View() == old(View()).(book := Discharge(old(View()).book, tx))
    {
      if tx in frameTxPaymaster {
        var r := frameTxPaymaster[tx];
        frameTxPaymaster := frameTxPaymaster - {tx};
        if r.paymaster in reservedPendingCost {
          var remaining := SatSub(reservedPendingCost[r.paymaster], r.cost);
          if remaining == 0 {
            reservedPendingCost := reservedPendingCost - {r.paymaster};
          } else {
            reservedPendingCost := reservedPendingCost[r.paymaster := remaining];
          }
        }
        if !r.canonical && r.paymaster in noncanonicalPaymasterPending {
          var remaining := SatSub(noncanonicalPaymasterPending[r.paymaster], 1);
          if remaining == 0 {
            noncanonicalPaymasterPending := noncanonicalPaymasterPending - {r.paymaster};
          } else {
            noncanonicalPaymasterPending := noncanonicalPaymasterPending[r.paymaster := remaining];
          }
        }
      }
    }

    method RemoveTransaction(tx: Tx)
      modifies this
      ensures View() == Remove(old(View()), tx)
      ensures old(Tied(View())) ==> Tied(View())
      ensures old(Valid(View())) ==> Valid(View())
    {
      if Tied(View()) { RemoveTied(View(), tx); }
      if Valid(View()) { RemoveValid(View(), tx); }
      if tx !in transactionPool { return; }
      transactionPool := transactionPool - {tx};
      if tx.kind.Blob? { RemoveBlobBundle(tx); }
      txsBySenderNonce := txsBySenderNonce - {SlotOf(tx)};
      broadcastPool := broadcastPool - {tx};
      privatePool := privatePool - {tx};
      if tx.kind.Frame? {
        if tx.sender in pendingFrameTxBySender && pendingFrameTxBySender[tx.sender].0 == tx {
          pendingFrameTxBySender := pendingFrameTxBySender - {tx.sender};
        }
        ReleaseReservation(tx);
      }
    }

    // -------------------------------------------------------------- reading

    /** Walks the sender's nonces upward from the account's nonce. */
    method NextExecutableNonce(sender: Address, accountNonce: nat) returns (expected: nat)
      ensures expected == NextExecutable(txsBySenderNonce, sender, accountNonce)
    {
      expected := accountNonce;
      while Has(txsBySenderNonce, sender, expected)
        invariant expected >= accountNonce
        invariant NextExecutable(txsBySenderNonce, sender, expected) == NextExecutable(txsBySenderNonce, sender, accountNonce)
        decreases U64_MAX - expected
      {
        expected := expected + 1;
      }
    }

    method SumCostForSender(sender: Address, accountNonce: nat, exclude: set<Tx>) returns (sum: Sum)
      requires Indexed(transactionPool, txsBySenderNonce)
      ensures var mine := Mine(txsBySenderNonce, sender, accountNonce) - exclude;
              sum == if CostSum(mine).Some? then Total(CostSum(mine).value) else Failed(InvalidTxGasValues)
    {
      sum := AddCosts(Mine(txsBySenderNonce, sender, accountNonce), exclude, transactionPool);
    }

    method CheckGates(tx: Tx, a: SenderAdmission) returns (e: Option<Error>)
      requires Tied(View())
      ensures e == CheckAdmission(View(), tx, a)
      ensures e.None? <==> GatesAllow(View(), tx, a)
    {
      GatesPass(View(), tx, a);
      if SlotOf(tx) !in txsBySenderNonce {
        var next := NextExecutableNonce(tx.sender, a.accountNonce);
        if tx.nonce > next {
          var queued := |Future(txsBySenderNonce, tx.sender, a.accountNonce)|;
          if queued >= a.queuedMax { return Some(MaxQueuedTxsPerAccountExceeded(queued, a.queuedMax)); }
        }
        if tx.nonce > a.accountNonce && a.gapThreshold < 100 {
          var pct := OccupancyPct(View());
          if pct >= a.gapThreshold { return Some(GapAdmissionDeniedUnderPressure(pct, tx.nonce - a.accountNonce)); }
        }
      }
      if a.balanceCheck.Some? {
        var check := a.balanceCheck.value;
        var sum := SumCostForSender(tx.sender, a.accountNonce, Replaced(txsBySenderNonce, tx));
        if sum.Failed? { return Some(sum.error); }
        if sum.value + check.txCost > U256_MAX { return Some(InvalidTxGasValues); }
        if sum.value + check.txCost > check.senderBalance {
          return Some(InsufficientCumulativeBalance(sum.value + check.txCost, check.senderBalance));
        }
      }
      return None;
    }

    // -------------------------------------------------------------- eviction

    method RemoveOldestRegular()
      requires Tied(View())
      modifies this
      ensures View() == EvictRegular(old(View())) && Tied(View())
    {
      while SatSub(|transactionPool|, |blobsBundlePool|) >= maxMempoolSize
        invariant Tied(View()) && EvictRegular(View()) == EvictRegular(old(View()))
        decreases |txsOrder|
      {
        if txsOrder == [] { break; }
        PopTied(View());
        var oldest := txsOrder[0];
        txsOrder := txsOrder[1..];
        RemoveTransaction(oldest);
      }
    }

    method PruneOrder()
      requires Tied(View())
      modifies this`txsOrder
      ensures View() == Prune(old(View())) && Tied(View())
    {
      PruneOk(View());
      if |txsOrder| > maxMempoolSize + maxMempoolSize / 2 {
        var kept: seq<Tx> := [];
        for i := 0 to |txsOrder|
          invariant kept == Kept(txsOrder[..i], transactionPool)
        {
          assert txsOrder[..i + 1][..i] == txsOrder[..i];
          if txsOrder[i] in transactionPool { kept := kept + [txsOrder[i]]; }
        }
        assert txsOrder[..|txsOrder|] == txsOrder;
        txsOrder := kept;
      }
    }

    method WorstBlob() returns (worst: Option<Tx>)
      ensures worst.None? <==> Evictable(View()) == {}
      ensures worst.Some? ==> Worst(View(), worst.value)
    {
      var blobs := Evictable(View());
      var base := LowestNonces(blobs);
      worst := Furthest(blobs, base);
      if worst.Some? { WorstFound(View(), base, worst.value); }
    }

    method RemoveWorstBlobs() returns (ghost evicted: seq<Tx>)
      requires Tied(View())
      modifies this
      ensures Tied(View()) && BlobEviction(old(View()), evicted, View())
    {
      evicted := [];
      while |blobsBundlePool| > maxBlobMempoolSize
        invariant Tied(View()) && Evicting(old(View()), evicted, View())
        decreases |transactionPool|
      {
        var worst := WorstBlob();
        if worst.None? { break; }
        EvictingStep(old(View()), evicted, View(), worst.value);
        evicted := evicted + [worst.value];
        RemoveTransaction(worst.value);
      }
      EvictingEnds(old(View()), evicted, View());
    }

    // -------------------------------------------------------------- insertion

    /** Every gate a request has to pass, before anything is changed. */
    method CheckRequest(q: Request) returns (e: Option<Error>)
      requires Tied(View())
      ensures e == Verdict(View(), q) && (e.None? <==> Admits(View(), q))
    {
      VerdictExact(View(), q);
      e := None;
      if q.admission.Some? {
        e := CheckGates(q.tx, q.admission.value);
        if e.Some? { return; }
      }
      if q.tx.kind.Frame? { e := FrameGate(View(), q.tx, q.reservation); }
    }

    /** The locked part of an insertion: every gate first, then every change. A blob transaction
        that does not find its bundle, or is pooled already, ends up without one. */
    method AddTransaction(q: Request) returns (e: Option<Error>, ghost evicted: seq<Tx>)
      requires Tied(View()) && Proper(q)
      modifies this
      ensures e == Verdict(old(View()), q) && (e.None? <==> Admits(old(View()), q)) && Tied(View())
      ensures if e.Some? then View() == old(View()) else Accepts(old(View()), q, evicted, View())
      ensures old(Valid(View())) && e.None? ==> (Valid(View()) <==> Supplied(old(View()), q.tx))
    {
      evicted := [];
      var tx := q.tx;
      e := CheckRequest(q);
      if e.Some? { return; }
      if SlotOf(tx) in txsBySenderNonce { RemoveTransaction(txsBySenderNonce[SlotOf(tx)]); }
      assert View() == FreeSlot(old(View()), SlotOf(tx));
      PruneOrder();
      if tx.kind.Blob? {
        evicted := RemoveWorstBlobs();
      } else {
        RemoveOldestRegular();
      }
      assert MakesRoom(Prune(FreeSlot(old(View()), SlotOf(tx))), q, evicted, View());
      PutTransaction(q);
      AddTied(old(View()), q, evicted, View());
      if old(Valid(View())) { AddValid(old(View()), q, evicted, View()); }
    }

    method PutTransaction(q: Request)
      modifies this
      ensures View() == Insert(old(View()), q)
    {
      var tx := q.tx;
      if !tx.kind.Blob? { txsOrder := txsOrder + [tx]; }
      txsBySenderNonce := txsBySenderNonce[SlotOf(tx) := tx];
      transactionPool := transactionPool + {tx};
      if q.broadcast { broadcastPool := broadcastPool + {tx}; } else { privatePool := privatePool + {tx}; }
      if tx.kind.Frame? {
        pendingFrameTxBySender := pendingFrameTxBySender[tx.sender := (tx, tx.nonce)];
        if q.reservation.Some? { Reserve(tx, q.reservation.value); }
      }
    }

    method Reserve(tx: Tx, r: Reservation)
      modifies this`reservedPendingCost, this`noncanonicalPaymasterPending, this`frameTxPaymaster
      ensures View() == old(View()).(book := Charge(old(View()).book, tx, r))
    {
      reservedPendingCost := reservedPendingCost[r.paymaster := Get0(reservedPendingCost, r.paymaster) + r.cost];
      if !r.canonical {
        noncanonicalPaymasterPending :=
          noncanonicalPaymasterPending[r.paymaster := SatAddU8(Get0(noncanonicalPaymasterPending, r.paymaster), 1)];
      }
      frameTxPaymaster := frameTxPaymaster[tx := r];
    }
  }

  // ---------------------------------------------------------------- a blob eviction in progress

  /** The eviction loop so far: each transaction it took was the worst one at its turn. */
  ghost predicate Evicting(p: Pool, evicted: seq<Tx>, q: Pool)
    decreases |evicted|
  {
    if evicted == [] then q == p
    else |p.blobs.bundles| > p.maxBlobs && Worst(p, evicted[0]) && Evicting(Remove(p, evicted[0]), evicted[1..], q)
  }

  lemma {:induction false} EvictingStep(p: Pool, evicted: seq<Tx>, q: Pool, tx: Tx)
    requires Evicting(p, evicted, q) && |q.blobs.bundles| > q.maxBlobs && Worst(q, tx)
    ensures Evicting(p, evicted + [tx], Remove(q, tx))
    decreases |evicted|
  {
    if evicted == [] {
      assert [] + [tx] == [tx] && [tx][1..] == [];
    } else {
      EvictingStep(Remove(p, evicted[0]), evicted[1..], q, tx);
      assert (evicted + [tx])[1..] == evicted[1..] + [tx];
    }
  }

  lemma {:induction false} EvictingEnds(p: Pool, evicted: seq<Tx>, q: Pool)
    requires Evicting(p, evicted, q) && (|q.blobs.bundles| <= q.maxBlobs || Evictable(q) == {})
    ensures BlobEviction(p, evicted, q)
    decreases |evicted|
  {
    if evicted != [] { EvictingEnds(Remove(p, evicted[0]), evicted[1..], q); }
  }
}
