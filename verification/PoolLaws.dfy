/** What a removal, an eviction and an insertion do to a pool, said of each transaction. */
module PoolLaws {
  import opened Options
  import opened Ledger
  import opened TxPool
  import opened Admission
  import opened PoolSafety
  import opened PoolRuns

  // ---------------------------------------------------------------- what a transaction carries along

  /** Whatever is still pooled has kept its marks, its reservation and its place as the sender's
      pending frame transaction. */
  ghost predicate KeepsMarks(p: Pool, q: Pool) {
    && q.txs <= p.txs && q.maxSize == p.maxSize && q.maxBlobs == p.maxBlobs
    && forall x | x in q.txs :: MarksOf(q, x) == MarksOf(p, x)
  }

  datatype Marks = Marks(broadcast: bool, hidden: bool, reservation: Option<Reservation>, pending: bool)

  function MarksOf(p: Pool, x: Tx): Marks {
    Marks(x in p.broadcast, x in p.hidden, if x in p.book.sponsors then Some(p.book.sponsors[x]) else None,
          x.sender in p.pendingFrame && p.pendingFrame[x.sender] == (x, x.nonce))
  }

  lemma {:induction false} RemoveKeepsMarks(p: Pool, tx: Tx)
    requires Tied(p)
    ensures KeepsMarks(p, Remove(p, tx)) && Remove(p, tx).txs == p.txs - {tx}
  {
    var q := Remove(p, tx);
    forall x | x in q.txs ensures MarksOf(q, x) == MarksOf(p, x) {
      assert x != tx;
      if tx in p.txs && tx.kind.Frame? && x.sender == tx.sender {
        assert p.pendingFrame[tx.sender].0 == tx;
      }
    }
  }

  lemma {:induction false} KeepsMarksTrans(p: Pool, q: Pool, r: Pool)
    requires KeepsMarks(p, q) && KeepsMarks(q, r)
    ensures KeepsMarks(p, r)
  {}

  // ---------------------------------------------------------------- eviction in arrival order

  /** The regular transactions that are evicted are those of a first stretch of the order queue. */
  ghost predicate FromFront(p: Pool, q: Pool, n: nat) {
    n <= |p.order| && q.order == p.order[n..] && q.txs == p.txs - Members(p.order[..n])
  }

  ghost function Members(s: seq<Tx>): set<Tx> { set x | x in s }

  lemma {:induction false} PopFront(p: Pool, q: Pool, n: nat)
    requires Tied(p) && p.order != [] && FromFront(Popped(p), q, n)
    ensures FromFront(p, q, n + 1)
  {
    var next := Popped(p);
    assert next.order == p.order[1..] && next.txs == p.txs - {p.order[0]};
    assert p.order[..n + 1] == [p.order[0]] + p.order[1..][..n];
    assert Members(p.order[..n + 1]) == {p.order[0]} + Members(p.order[1..][..n]);
  }

  lemma {:induction false} PopKeepsMarks(p: Pool)
    requires Tied(p) && p.order != []
    ensures Tied(Popped(p)) && KeepsMarks(p, Popped(p))
  {
    PopTied(p);
    RemoveKeepsMarks(p, p.order[0]);
    assert forall x :: MarksOf(Popped(p), x) == MarksOf(Remove(p, p.order[0]), x);
  }

  lemma {:induction false} EvictKeepsMarks(p: Pool)
    requires Tied(p)
    ensures KeepsMarks(p, EvictRegular(p))
    decreases |p.order|
  {
    if RegularCount(p) >= p.maxSize && p.order != [] {
      PopKeepsMarks(p);
      EvictKeepsMarks(Popped(p));
      KeepsMarksTrans(p, Popped(p), EvictRegular(p));
    }
  }

  /** Eviction takes from the front of the queue, and nothing when there is room. */
  lemma {:induction false} EvictsFromFront(p: Pool) returns (n: nat)
    requires Tied(p)
    ensures FromFront(p, EvictRegular(p), n)
    ensures n == 0 <==> RegularCount(p) < p.maxSize || p.order == []
    decreases |p.order|
  {
    if RegularCount(p) >= p.maxSize && p.order != [] {
      PopTied(p);
      var rest := EvictsFromFront(Popped(p));
      PopFront(p, EvictRegular(p), rest);
      n := rest + 1;
    } else {
      n := 0;
      assert Members(p.order[..0]) == {};
    }
  }

  /** So a transaction that stands last in the queue, and nowhere else, is evicted last. */
  lemma {:induction false} NewestLast(p: Pool, x: Tx)
    requires Tied(p) && p.order != [] && p.order[|p.order| - 1] == x && x !in p.order[..|p.order| - 1] && x in p.txs
    requires x !in EvictRegular(p).txs
    ensures NonBlobs(EvictRegular(p).txs) == {}
  {
    var n := EvictsFromFront(p);
    EvictRegularTied(p);
    assert x in p.order[..n];
    assert n == |p.order|;
    NoOrder(EvictRegular(p));
  }

  /** Pruning keeps the order of what it keeps, entry by entry, and only an overlong queue is
      pruned. */
  lemma {:induction false} KeptSplits(a: seq<Tx>, x: Tx, b: seq<Tx>, txs: set<Tx>)
    ensures Kept(a + [x] + b, txs) == Kept(a, txs) + (if x in txs then [x] else []) + Kept(b, txs)
  {
    if b == [] {
      assert a + [x] + b == a + [x] && (a + [x])[..|a|] == a;
    } else {
      var s, front := a + [x] + b, b[..|b| - 1];
      assert s[..|s| - 1] == a + [x] + front && s[|s| - 1] == b[|b| - 1];
      KeptSplits(a, x, front, txs);
    }
  }

  lemma {:induction false} PrunedWhen(p: Pool)
    ensures |p.order| <= p.maxSize + p.maxSize / 2 ==> Prune(p) == p
    ensures |p.order| > p.maxSize + p.maxSize / 2 ==> forall x :: x in Prune(p).order <==> x in p.order && x in p.txs
  {
    KeptMembers(p.order, p.txs);
  }

  // ---------------------------------------------------------------- eviction of blob transactions

  lemma {:induction false} BlobEvictionTakes(p: Pool, evicted: seq<Tx>, q: Pool)
    requires Tied(p) && BlobEviction(p, evicted, q)
    ensures q.txs == p.txs - Members(evicted) && q.order == p.order
    decreases |evicted|
  {
    if evicted != [] {
      RemoveTied(p, evicted[0]);
      BlobEvictionTakes(Remove(p, evicted[0]), evicted[1..], q);
      assert Members(evicted) == {evicted[0]} + Members(evicted[1..]);
    }
  }

  lemma {:induction false} BlobEvictionMarks(p: Pool, evicted: seq<Tx>, q: Pool)
    requires Tied(p) && BlobEviction(p, evicted, q)
    ensures KeepsMarks(p, q)
    decreases |evicted|
  {
    if evicted != [] {
      RemoveTied(p, evicted[0]);
      RemoveKeepsMarks(p, evicted[0]);
      BlobEvictionMarks(Remove(p, evicted[0]), evicted[1..], q);
      KeepsMarksTrans(p, Remove(p, evicted[0]), q);
    }
  }

  ghost predicate LowestNonce(blobs: set<Tx>, sender: Address, n: nat) {
    (exists x | x in blobs :: x.sender == sender && x.nonce == n) && forall x | x in blobs && x.sender == sender :: n <= x.nonce
  }

  /** The first transaction the loop takes waits furthest behind the lowest nonce of its sender
      among the blob transactions held with their bundles, and pays the least among those. */
  lemma {:induction false} FurthestFirst(p: Pool, evicted: seq<Tx>, q: Pool, o: Tx, n: nat, m: nat)
    requires BlobEviction(p, evicted, q) && evicted != []
    requires o in p.txs && o in p.blobs.bundles
    requires LowestNonce(Evictable(p), evicted[0].sender, n) && LowestNonce(Evictable(p), o.sender, m)
    ensures evicted[0] in p.txs && evicted[0] in p.blobs.bundles && m <= o.nonce && n <= evicted[0].nonce
    ensures evicted[0].nonce - n >= o.nonce - m
    ensures evicted[0].nonce - n == o.nonce - m ==> evicted[0].blobFee <= o.blobFee
    ensures |p.blobs.bundles| > p.maxBlobs && BlobEviction(Remove(p, evicted[0]), evicted[1..], q)
  {
    var w := evicted[0];
    assert o in Evictable(p) && w in Evictable(p);
    assert IsBaseline(Evictable(p), w.sender, n) && IsBaseline(Evictable(p), w.sender, Baseline(Evictable(p), w.sender));
    assert IsBaseline(Evictable(p), o.sender, m) && IsBaseline(Evictable(p), o.sender, Baseline(Evictable(p), o.sender));
    assert Offset(Evictable(p), w) == w.nonce - n && Offset(Evictable(p), o) == o.nonce - m;
  }

  // ---------------------------------------------------------------- insertion

  /** What an accepted insertion says of the new transaction. */
  ghost predicate Entered(q: Request, r: Pool) {
    && q.tx in r.txs && SlotOf(q.tx) in r.index && r.index[SlotOf(q.tx)] == q.tx
    && (q.tx in r.broadcast <==> q.broadcast) && (q.tx in r.hidden <==> !q.broadcast)
    && (!q.tx.kind.Blob? ==> r.order != [] && r.order[|r.order| - 1] == q.tx)
    && (q.tx.kind.Frame? ==> q.tx.sender in r.pendingFrame && r.pendingFrame[q.tx.sender] == (q.tx, q.tx.nonce))
    && (if q.tx.kind.Frame? && q.reservation.Some? then q.tx in r.book.sponsors && r.book.sponsors[q.tx] == q.reservation.value
        else q.tx !in r.book.sponsors)
  }

  lemma {:induction false} InsertEnters(room: Pool, q: Request)
    requires Tied(room) && CanInsert(room, q)
    ensures Entered(q, Insert(room, q)) && Insert(room, q).txs == room.txs + {q.tx} && Insert(room, q).blobs == room.blobs
    ensures forall x | x in room.txs :: MarksOf(Insert(room, q), x) == MarksOf(room, x)
  {
    InsertTied(room, q);
    forall x | x in room.txs ensures MarksOf(Insert(room, q), x) == MarksOf(room, x) {
      assert x != q.tx;
      if q.tx.kind.Frame? && x.sender == q.tx.sender { assert x.sender !in room.pendingFrame; }
    }
  }

  lemma {:induction false} FreeKeepsMarks(p: Pool, k: Slot)
    requires Tied(p)
    ensures KeepsMarks(p, FreeSlot(p, k)) && FreeSlot(p, k).txs == set x | x in p.txs && SlotOf(x) != k
  {
    if k in p.index { RemoveKeepsMarks(p, p.index[k]); }
    forall x | x in p.txs ensures x in FreeSlot(p, k).txs <==> SlotOf(x) != k { assert p.index[SlotOf(x)] == x; }
  }

  lemma {:induction false} PruneKeepsMarks(p: Pool)
    requires Tied(p)
    ensures Tied(Prune(p)) && KeepsMarks(p, Prune(p)) && Prune(p).txs == p.txs && Prune(p).blobs == p.blobs
  {
    PruneOk(p);
  }

  lemma {:induction false} RoomKeepsMarks(p: Pool, q: Request, evicted: seq<Tx>, room: Pool)
    requires Tied(p) && MakesRoom(Prune(FreeSlot(p, SlotOf(q.tx))), q, evicted, room)
    ensures KeepsMarks(p, room)
  {
    var free := FreeSlot(p, SlotOf(q.tx));
    FreeKeepsMarks(p, SlotOf(q.tx));
    FreeSlotTied(p, SlotOf(q.tx));
    PruneKeepsMarks(free);
    if q.tx.kind.Blob? { BlobEvictionMarks(Prune(free), evicted, room); } else { EvictKeepsMarks(Prune(free)); }
    KeepsMarksTrans(p, free, Prune(free));
    KeepsMarksTrans(p, Prune(free), room);
  }

  /** An accepted insertion puts the transaction in as the request says, and everything else that
      is still pooled keeps its marks. */
  lemma {:induction false} AddEnters(p: Pool, q: Request, evicted: seq<Tx>, r: Pool)
    requires Tied(p) && Proper(q) && Verdict(p, q).None? && Accepts(p, q, evicted, r)
    ensures Entered(q, r)
    ensures forall x | x in r.txs && x != q.tx :: x in p.txs && MarksOf(r, x) == MarksOf(p, x)
  {
    var room :| MakesRoom(Prune(FreeSlot(p, SlotOf(q.tx))), q, evicted, room) && r == Insert(room, q);
    ReadyToInsert(p, q, evicted, room);
    RoomKeepsMarks(p, q, evicted, room);
    InsertEnters(room, q);
  }

  /** What the room for an insertion is made of: without the slot's transaction, and without the
      evicted blob transactions or a first stretch of the queue. */
  ghost predicate Makes(p: Pool, q: Request, evicted: seq<Tx>, txs: set<Tx>, n: nat) {
    var free := FreeSlot(p, SlotOf(q.tx));
    if q.tx.kind.Blob? then txs == free.txs - Members(evicted)
    else n <= |Prune(free).order| && txs == free.txs - Members(Prune(free).order[..n])
  }

  lemma {:induction false} RoomMakes(p: Pool, q: Request, evicted: seq<Tx>, room: Pool) returns (n: nat)
    requires Tied(p) && MakesRoom(Prune(FreeSlot(p, SlotOf(q.tx))), q, evicted, room)
    ensures Makes(p, q, evicted, room.txs, n)
  {
    var free := FreeSlot(p, SlotOf(q.tx));
    FreeSlotTied(p, SlotOf(q.tx));
    PruneKeepsMarks(free);
    n := 0;
    if q.tx.kind.Blob? { BlobEvictionTakes(Prune(free), evicted, room); } else { n := EvictsFromFront(Prune(free)); }
  }

  /** An accepted insertion takes out the transaction of its slot, then blob transactions worst
      first or others from the front of the queue, and nothing else. */
  lemma {:induction false} AddTakes(p: Pool, q: Request, evicted: seq<Tx>, r: Pool) returns (n: nat, txs: set<Tx>)
    requires Tied(p) && Accepts(p, q, evicted, r)
    ensures FreeSlot(p, SlotOf(q.tx)).txs == set x | x in p.txs && SlotOf(x) != SlotOf(q.tx)
    ensures Makes(p, q, evicted, txs, n) && r.txs == txs + {q.tx}
  {
    var room :| MakesRoom(Prune(FreeSlot(p, SlotOf(q.tx))), q, evicted, room) && r == Insert(room, q);
    FreeKeepsMarks(p, SlotOf(q.tx));
    n := RoomMakes(p, q, evicted, room);
    txs := room.txs;
  }

  /** What the other operations come to: a bundle comes in or goes and no transaction moves, a drop
      takes one transaction, and only the broadcast marks of what was sent go. */
  lemma {:induction false} OpsMean(p: Pool, op: Op, r: Pool)
    requires Valid(p) && Step(p, op, r) && !op.Add?
    ensures op.NewBundle? ==> r.txs == p.txs && r.blobs.bundles == p.blobs.bundles[op.tx := op.tx.hashes]
    ensures op.DropOrphan? ==> r.txs == p.txs && r.blobs.bundles == p.blobs.bundles - {op.tx}
    ensures op.Drop? ==> r.txs == p.txs - {op.tx} && r.blobs.bundles == p.blobs.bundles - if op.tx in p.txs then {op.tx} else {}
    ensures op.Broadcasted? ==> r.txs == p.txs && r.blobs == p.blobs && forall tx :: tx in r.broadcast <==> tx in p.broadcast && tx !in op.txs
    ensures !op.Broadcasted? ==> KeepsMarks(p, r)
  {
    if op.Drop? { RemoveKeepsMarks(p, op.tx); }
  }
}
