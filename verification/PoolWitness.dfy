/** Short runs in which a promise of the pool fails, one for each exact condition. */
module PoolWitness {
  import opened Options
  import opened BlobIndex
  import opened TxPool
  import opened Admission
  import opened PoolRuns

  const FIRST := Tx(0, 1, 0, Regular, Some(0), 0, 0, 0, [])
  const SECOND := Tx(1, 2, 0, Regular, Some(0), 0, 0, 0, [])
  const BLOB := Tx(2, 3, 0, Blob, Some(0), 0, 0, 0, [7])
  const OTHER := Tx(3, 4, 0, Blob, Some(0), 0, 0, 0, [8])

  function Submit(tx: Tx): Op { Add(Request(tx, None, Some(SenderAdmission(0, 10, 100, None)), true), []) }

  function With(p: Pool, tx: Tx): Pool { p.(blobs := AddBundle(p.blobs, tx, tx.hashes)) }

  /** A first transaction of its sender passes the gates. */
  lemma {:induction false} Passes(p: Pool, tx: Tx)
    requires tx.nonce == 0 && !tx.kind.Frame?
    ensures Accepted(p, Submit(tx)) && Proper(Submit(tx).request)
  {}

  lemma {:induction false} RegularFits(p: Pool, tx: Tx)
    requires tx.nonce == 0 && tx.kind.Regular? && SlotOf(tx) !in p.index && RegularCount(p) < p.maxSize && |p.order| <= p.maxSize
    ensures Step(p, Submit(tx), Insert(p, Submit(tx).request)) && Orderly(p, Submit(tx))
  {
    Passes(p, tx);
    assert Prune(FreeSlot(p, SlotOf(tx))) == p && MakesRoom(p, Submit(tx).request, [], p);
  }

  lemma {:induction false} BlobFits(p: Pool, tx: Tx)
    requires tx.nonce == 0 && tx.kind.Blob? && |FreeSlot(p, SlotOf(tx)).blobs.bundles| <= p.maxBlobs && |p.order| <= p.maxSize
    ensures Step(p, Submit(tx), Insert(FreeSlot(p, SlotOf(tx)), Submit(tx).request))
  {
    var free := FreeSlot(p, SlotOf(tx));
    Passes(p, tx);
    assert Prune(free) == free && MakesRoom(free, Submit(tx).request, [], free);
  }

  /** One more step at the end of a run. */
  lemma {:induction false} Extend(ops: seq<Op>, ps: seq<Pool>, op: Op, r: Pool)
    requires Steps(ops, ps) && Step(ps[|ops|], op, r)
    ensures Steps(ops + [op], ps + [r]) && (ps + [r])[0] == ps[0]
    ensures AllOrderly(ops, ps) && Orderly(ps[|ops|], op) ==> AllOrderly(ops + [op], ps + [r])
  {
    forall i | 0 <= i <= |ops|
      ensures StepAt(ops + [op], ps + [r], i)
      ensures AllOrderly(ops, ps) && Orderly(ps[|ops|], op) ==> OrderlyAt(ops + [op], ps + [r], i)
    {
      if i < |ops| { assert StepAt(ops, ps, i) && (AllOrderly(ops, ps) ==> OrderlyAt(ops, ps, i)); }
    }
  }

  lemma {:induction false} Three(p0: Pool, o1: Op, p1: Pool, o2: Op, p2: Pool, o3: Op, p3: Pool)
    requires Step(p0, o1, p1) && Step(p1, o2, p2) && Step(p2, o3, p3)
    ensures Steps([o1, o2, o3], [p0, p1, p2, p3])
    ensures Orderly(p0, o1) && Orderly(p1, o2) && Orderly(p2, o3) ==> AllOrderly([o1, o2, o3], [p0, p1, p2, p3])
  {
    Extend([], [p0], o1, p1);
    Extend([o1], [p0, p1], o2, p2);
    Extend([o1, o2], [p0, p1, p2], o3, p3);
    assert [] + [o1] == [o1] && [o1] + [o2] == [o1, o2] && [o1, o2] + [o3] == [o1, o2, o3];
    assert [p0] + [p1] == [p0, p1] && [p0, p1] + [p2] == [p0, p1, p2] && [p0, p1, p2] + [p3] == [p0, p1, p2, p3];
  }

  // ---------------------------------------------------------------- the cap on regular transactions

  /** Two regular transactions go into a pool of one, past a bundle without its transaction. */
  lemma {:induction false} TwoFit(p: Pool) returns (q: Pool, r: Pool)
    requires p.txs == {} && p.index == map[] && p.order == [] && p.maxSize == 1 && p.blobs.bundles.Keys == {BLOB}
    ensures Step(p, Submit(FIRST), q) && Orderly(p, Submit(FIRST)) && Step(q, Submit(SECOND), r) && Orderly(q, Submit(SECOND))
    ensures |NonBlobs(r.txs)| == 2
  {
    assert |p.blobs.bundles| == |p.blobs.bundles.Keys| == 1;
    q := Insert(p, Submit(FIRST).request);
    r := Insert(q, Submit(SECOND).request);
    RegularFits(p, FIRST);
    RegularFits(q, SECOND);
    assert NonBlobs(r.txs) == {FIRST, SECOND};
  }

  lemma {:induction false} SecondFits(n: nat) returns (p: Pool, q: Pool, r: Pool)
    ensures Step(Empty(1, n), Submit(FIRST), p) && Step(p, NewBundle(BLOB), q) && Step(q, Submit(SECOND), r)
    ensures Orderly(Empty(1, n), Submit(FIRST)) && Orderly(p, NewBundle(BLOB)) && Orderly(q, Submit(SECOND)) && |NonBlobs(r.txs)| == 2
    ensures BLOB !in r.txs
  {
    RegularFits(Empty(1, n), FIRST);
    p := Insert(Empty(1, n), Submit(FIRST).request);
    q := With(p, BLOB);
    r := Insert(q, Submit(SECOND).request);
    RegularFits(q, SECOND);
    assert NonBlobs(r.txs) == {FIRST, SECOND};
  }

  /** While a blob insertion is under way, a regular insertion exceeds the cap. */
  lemma {:induction false} CapExceeded(n: nat) returns (ops: seq<Op>, ps: seq<Pool>)
    ensures ops == [Submit(FIRST), NewBundle(BLOB), Submit(SECOND)]
    ensures Run(1, n, ops, ps) && AllOrderly(ops, ps) && |NonBlobs(ps[3].txs)| == 2 && BLOB !in ps[3].txs
  {
    var p, q, r := SecondFits(n);
    ops, ps := [Submit(FIRST), NewBundle(BLOB), Submit(SECOND)], [Empty(1, n), p, q, r];
    Three(Empty(1, n), Submit(FIRST), p, NewBundle(BLOB), q, Submit(SECOND), r);
  }

  // ---------------------------------------------------------------- a bundle that stays

  /** A blob transaction comes into the empty pool and leaves it again without a trace. */
  lemma {:induction false} InAndOut(n: nat) returns (p: Pool, q: Pool)
    requires n >= 1
    ensures p == With(Empty(1, n), BLOB) && Step(Empty(1, n), NewBundle(BLOB), p) && Step(p, Submit(BLOB), q)
    ensures Orderly(Empty(1, n), NewBundle(BLOB)) && Orderly(p, Submit(BLOB)) && Remove(q, BLOB) == Empty(1, n)
  {
    p := With(Empty(1, n), BLOB);
    q := Insert(p, Submit(BLOB).request);
    BlobFits(p, BLOB);
    EmptyValid(1, n);
    RollBack(Empty(1, n).blobs, BLOB, [7]);
  }

  lemma {:induction false} Returns(n: nat) returns (ops: seq<Op>, ps: seq<Pool>)
    requires n >= 1
    ensures ops == [NewBundle(BLOB), Submit(BLOB), Drop(BLOB), NewBundle(BLOB)]
    ensures Run(1, n, ops, ps) && AllOrderly(ops, ps) && ps[4] == With(Empty(1, n), BLOB)
  {
    var p, q := InAndOut(n);
    ops, ps := [NewBundle(BLOB), Submit(BLOB), Drop(BLOB)], [Empty(1, n), p, q, Empty(1, n)];
    Three(Empty(1, n), NewBundle(BLOB), p, Submit(BLOB), q, Drop(BLOB), Empty(1, n));
    Extend(ops, ps, NewBundle(BLOB), p);
    ops, ps := ops + [NewBundle(BLOB)], ps + [p];
  }

  /** A bundle that is stored again after its transaction has left the pool stays without one, and
      the cap is exceeded although no insertion is under way. */
  lemma {:induction false} BundleStays(n: nat) returns (ops: seq<Op>, ps: seq<Pool>)
    requires n >= 1
    ensures ops == [NewBundle(BLOB), Submit(BLOB), Drop(BLOB), NewBundle(BLOB), Submit(FIRST), Submit(SECOND)]
    ensures Run(1, n, ops, ps) && AllOrderly(ops, ps) && |NonBlobs(ps[6].txs)| == 2
  {
    ops, ps := Returns(n);
    var q, r := TwoFit(ps[4]);
    Extend(ops, ps, Submit(FIRST), q);
    ops, ps := ops + [Submit(FIRST)], ps + [q];
    Extend(ops, ps, Submit(SECOND), r);
    ops, ps := ops + [Submit(SECOND)], ps + [r];
  }

  // ---------------------------------------------------------------- a transaction without its bundle

  /** The pool that holds one blob transaction and no bundle. */
  ghost predicate HoldsBare(p: Pool, n: nat) {
    && p.txs == {BLOB} && p.index == map[SlotOf(BLOB) := BLOB] && p.order == [] && p.blobs.bundles == map[]
    && p.maxSize == 1 && p.maxBlobs == n
  }

  lemma {:induction false} SubmitTwice(p: Pool, n: nat) returns (q: Pool, r: Pool)
    requires p.blobs.bundles.Keys == {BLOB} && p.txs == {} && p.index == map[] && p.order == [] && p.maxSize == 1 && p.maxBlobs == n >= 1
    ensures Step(p, Submit(BLOB), q) && Step(q, Submit(BLOB), r) && HoldsBare(r, n)
  {
    assert |p.blobs.bundles| == |p.blobs.bundles.Keys|;
    q := Insert(p, Submit(BLOB).request);
    BlobFits(p, BLOB);
    r := Insert(FreeSlot(q, SlotOf(BLOB)), Submit(BLOB).request);
    assert FreeSlot(q, SlotOf(BLOB)).blobs.bundles == map[];
    BlobFits(q, BLOB);
  }

  /** A blob transaction whose two submissions overlap: the second insertion takes the bundle of
      the first away, and the transaction is pooled without one. It then counts as a regular
      transaction, and the eviction of regular ones runs dry at the cap. */
  lemma {:induction false} BundleLost(n: nat) returns (ops: seq<Op>, ps: seq<Pool>)
    requires n >= 1
    ensures ops == [NewBundle(BLOB), NewBundle(BLOB), Submit(BLOB), Submit(BLOB)]
    ensures Run(1, n, ops, ps) && HoldsBare(ps[4], n) && RegularCount(EvictRegular(ps[4])) >= ps[4].maxSize
  {
    var p := With(Empty(1, n), BLOB);
    var p' := With(p, BLOB);
    var q, r := SubmitTwice(p', n);
    ops, ps := [NewBundle(BLOB), NewBundle(BLOB), Submit(BLOB)], [Empty(1, n), p, p', q];
    Three(Empty(1, n), NewBundle(BLOB), p, NewBundle(BLOB), p', Submit(BLOB), q);
    Extend(ops, ps, Submit(BLOB), r);
    ops, ps := ops + [Submit(BLOB)], ps + [r];
  }

  lemma {:induction false} OneMoreBlob(p: Pool) returns (q: Pool, r: Pool)
    requires HoldsBare(p, 1)
    ensures Step(p, NewBundle(OTHER), q) && Step(q, Submit(OTHER), r) && |PooledBlobs(r.txs)| == 2
  {
    q := With(p, OTHER);
    assert q.blobs.bundles.Keys == {OTHER} && |q.blobs.bundles| == |q.blobs.bundles.Keys|;
    BlobFits(q, OTHER);
    r := Insert(q, Submit(OTHER).request);
    assert PooledBlobs(r.txs) == {BLOB, OTHER};
  }

  /** With a transaction pooled without its bundle, the next blob insertion exceeds the cap. */
  lemma {:induction false} BlobCapExceeded() returns (ops: seq<Op>, ps: seq<Pool>)
    ensures ops == [NewBundle(BLOB), NewBundle(BLOB), Submit(BLOB), Submit(BLOB), NewBundle(OTHER), Submit(OTHER)]
    ensures Run(1, 1, ops, ps) && |PooledBlobs(ps[6].txs)| == 2
  {
    ops, ps := BundleLost(1);
    var q, r := OneMoreBlob(ps[4]);
    Extend(ops, ps, NewBundle(OTHER), q);
    ops, ps := ops + [NewBundle(OTHER)], ps + [q];
    Extend(ops, ps, Submit(OTHER), r);
    ops, ps := ops + [Submit(OTHER)], ps + [r];
  }

  // ---------------------------------------------------------------- a rollback that matters

  lemma {:induction false} SecondReplaces(n: nat) returns (p: Pool, q: Pool)
    ensures Step(Empty(1, n), Submit(FIRST), p) && Step(p, Submit(SECOND), q) && q.txs == {SECOND}
  {
    RegularFits(Empty(1, n), FIRST);
    p := Insert(Empty(1, n), Submit(FIRST).request);
    var room := Popped(p);
    q := Insert(room, Submit(SECOND).request);
    Passes(p, SECOND);
    assert room.txs == {} && EvictRegular(room) == room && EvictRegular(p) == room;
    assert Prune(FreeSlot(p, SlotOf(SECOND))) == p && MakesRoom(p, Submit(SECOND).request, [], room);
  }

  /** A bundle that is rolled back keeps a regular transaction that is evicted without it. */
  lemma {:induction false} RollbackMatters(n: nat) returns (ops: seq<Op>, ps: seq<Pool>, ops': seq<Op>, ps': seq<Pool>)
    ensures ops == [Submit(FIRST), NewBundle(BLOB), Submit(SECOND), DropOrphan(BLOB)] && ops' == [Submit(FIRST), Submit(SECOND)]
    ensures Run(1, n, ops, ps) && AllOrderly(ops, ps) && Run(1, n, ops', ps')
    ensures |NonBlobs(ps[4].txs)| == 2 && ps'[2].txs == {SECOND}
  {
    ops, ps := CapExceeded(n);
    var r := ps[3].(blobs := DropBundle(ps[3].blobs, BLOB));
    Extend(ops, ps, DropOrphan(BLOB), r);
    ops, ps := ops + [DropOrphan(BLOB)], ps + [r];
    var p, q := SecondReplaces(n);
    ops', ps' := [], [Empty(1, n)];
    Extend(ops', ps', Submit(FIRST), p);
    ops', ps' := ops' + [Submit(FIRST)], ps' + [p];
    Extend(ops', ps', Submit(SECOND), q);
    ops', ps' := ops' + [Submit(SECOND)], ps' + [q];
  }
}
