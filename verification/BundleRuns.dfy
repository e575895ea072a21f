/** Over whole runs: which bundles are without their transaction, and which pooled blob
    transactions without their bundle. */
module BundleRuns {
  import opened TxPool
  import opened Admission
  import opened PoolSafety
  import opened PoolRuns

  // ---------------------------------------------------------------- one operation

  /** The operation stores a bundle whose transaction is not pooled. */
  predicate Opens(p: Pool, op: Op, tx: Tx) { op.NewBundle? && op.tx == tx && tx !in p.txs }

  /** The operation takes the transaction in, or rolls its bundle back. */
  ghost predicate Closes(p: Pool, op: Op, tx: Tx) {
    (Accepted(p, op) && op.request.tx == tx) || (op.DropOrphan? && op.tx == tx)
  }

  /** The operation takes the transaction in without a bundle of its own, or rolls its bundle
      back while it is pooled. */
  ghost predicate Strips(p: Pool, op: Op, tx: Tx) {
    tx.kind.Blob? && Closes(p, op, tx) && !Orderly(p, op)
  }

  ghost predicate WindowMoves(p: Pool, op: Op, r: Pool, tx: Tx) {
    tx in Window(r) <==> Opens(p, op, tx) || (tx in Window(p) && !Closes(p, op, tx))
  }

  ghost predicate BareMoves(p: Pool, op: Op, r: Pool, tx: Tx) {
    tx in Bare(r) <==> tx in r.txs && (Strips(p, op, tx) || (tx in Bare(p) && op != NewBundle(tx)))
  }

  /** One transaction x goes in after some others have left. */
  lemma {:induction false} InsertMoves(p: Pool, room: Pool, r: Pool, x: Tx, tx: Tx)
    requires BlobsOnly(p) && Trims(p, room) && x !in room.txs && r.txs == room.txs + {x} && r.blobs == room.blobs
    ensures tx in Window(r) <==> tx in Window(p) && tx != x
    ensures tx in Bare(r) <==> tx in r.txs && tx.kind.Blob? && if tx == x then tx !in Window(p) else tx in Bare(p)
  {
    assert x in room.blobs.bundles <==> x in Window(room);
  }

  lemma {:induction false} AddMoves(p: Pool, q: Request, evicted: seq<Tx>, r: Pool, tx: Tx)
    requires Tied(p) && BlobsOnly(p) && Verdict(p, q).None? && Accepts(p, q, evicted, r)
    ensures BlobsOnly(r) && WindowMoves(p, Add(q, evicted), r, tx) && BareMoves(p, Add(q, evicted), r, tx)
  {
    var room :| MakesRoom(Prune(FreeSlot(p, SlotOf(q.tx))), q, evicted, room) && r == Insert(room, q);
    RoomTrims(p, q, evicted, room);
    InsertMoves(p, room, r, q.tx, tx);
    AddIs(p, Add(q, evicted), tx);
  }

  lemma {:induction false} AddIs(p: Pool, op: Op, tx: Tx)
    requires Accepted(p, op)
    ensures !Opens(p, op, tx) && (Closes(p, op, tx) <==> tx == op.request.tx)
    ensures Strips(p, op, tx) <==> tx == op.request.tx && tx.kind.Blob? && tx !in Window(p)
  {}

  lemma {:induction false} OneStepMoves(p: Pool, op: Op, r: Pool, tx: Tx)
    requires Tied(p) && BlobsOnly(p) && Step(p, op, r)
    ensures BlobsOnly(r) && WindowMoves(p, op, r, tx) && BareMoves(p, op, r, tx)
  {
    match op
    case NewBundle(_) =>
    case Add(q, evicted) => if Verdict(p, q).None? { AddMoves(p, q, evicted, r, tx); }
    case Drop(x) => RemoveTrims(p, x);
    case DropOrphan(_) =>
    case Broadcasted(_) =>
  }

  lemma {:induction false} EveryRunBlobs(maxSize: nat, maxBlobs: nat, ops: seq<Op>, ps: seq<Pool>, n: nat)
    requires Run(maxSize, maxBlobs, ops, ps) && n < |ps|
    ensures BlobsOnly(ps[n])
  {
    if n > 0 {
      EveryRunBlobs(maxSize, maxBlobs, ops, ps, n - 1);
      EveryRunTied(maxSize, maxBlobs, ops, ps, n - 1);
      assert StepAt(ops, ps, n - 1);
      var tx: Tx :| true;
      OneStepMoves(ps[n - 1], ops[n - 1], ps[n], tx);
    }
  }

  lemma {:induction false} RunMoves(maxSize: nat, maxBlobs: nat, ops: seq<Op>, ps: seq<Pool>, n: nat, tx: Tx)
    requires Run(maxSize, maxBlobs, ops, ps) && n < |ops|
    ensures WindowMoves(ps[n], ops[n], ps[n + 1], tx) && BareMoves(ps[n], ops[n], ps[n + 1], tx)
  {
    EveryRunTied(maxSize, maxBlobs, ops, ps, n);
    EveryRunBlobs(maxSize, maxBlobs, ops, ps, n);
    assert StepAt(ops, ps, n);
    OneStepMoves(ps[n], ops[n], ps[n + 1], tx);
  }

  // ---------------------------------------------------------------- bundles without their transaction

  ghost predicate Unclosed(ops: seq<Op>, ps: seq<Pool>, from: nat, n: nat, tx: Tx) requires n <= |ops| < |ps| {
    forall j | from <= j < n :: !Closes(ps[j], ops[j], tx)
  }

  /** Among the first n operations, one stored the bundle and none has closed it since. */
  ghost predicate Open(ops: seq<Op>, ps: seq<Pool>, n: nat, tx: Tx) requires n <= |ops| < |ps| {
    exists i | 0 <= i < n :: Opens(ps[i], ops[i], tx) && Unclosed(ops, ps, i + 1, n, tx)
  }

  lemma {:induction false} OpenStep(ops: seq<Op>, ps: seq<Pool>, n: nat, tx: Tx)
    requires n < |ops| < |ps|
    ensures Open(ops, ps, n + 1, tx) <==> Opens(ps[n], ops[n], tx) || (Open(ops, ps, n, tx) && !Closes(ps[n], ops[n], tx))
  {
    if Open(ops, ps, n + 1, tx) {
      var i :| 0 <= i <= n && Opens(ps[i], ops[i], tx) && Unclosed(ops, ps, i + 1, n + 1, tx);
      assert i < n ==> Unclosed(ops, ps, i + 1, n, tx);
    }
    if Opens(ps[n], ops[n], tx) {
      assert Unclosed(ops, ps, n + 1, n + 1, tx);
    } else if Open(ops, ps, n, tx) && !Closes(ps[n], ops[n], tx) {
      var i :| 0 <= i < n && Opens(ps[i], ops[i], tx) && Unclosed(ops, ps, i + 1, n, tx);
      assert Unclosed(ops, ps, i + 1, n + 1, tx);
    }
  }

  /** At each point of every run, a bundle is without its transaction exactly when some earlier
      operation stored it so and none has closed it since. */
  lemma {:induction false} WindowExact(maxSize: nat, maxBlobs: nat, ops: seq<Op>, ps: seq<Pool>, n: nat, tx: Tx)
    requires Run(maxSize, maxBlobs, ops, ps) && n <= |ops|
    ensures tx in Window(ps[n]) <==> Open(ops, ps, n, tx)
  {
    if n > 0 {
      WindowExact(maxSize, maxBlobs, ops, ps, n - 1, tx);
      RunMoves(maxSize, maxBlobs, ops, ps, n - 1, tx);
      OpenStep(ops, ps, n - 1, tx);
    }
  }

  // ---------------------------------------------------------------- transactions without their bundle

  /** From position from on the transaction is pooled, and its bundle is not stored again. */
  ghost predicate Unmended(ops: seq<Op>, ps: seq<Pool>, from: nat, n: nat, tx: Tx) requires n <= |ops| < |ps| {
    (forall j | from <= j < n :: ops[j] != NewBundle(tx)) && (forall j | from <= j <= n :: tx in ps[j].txs)
  }

  /** Among the first n operations, one stripped the transaction and it has stayed so since. */
  ghost predicate Stripped(ops: seq<Op>, ps: seq<Pool>, n: nat, tx: Tx) requires n <= |ops| < |ps| {
    exists i | 0 <= i < n :: Strips(ps[i], ops[i], tx) && Unmended(ops, ps, i + 1, n, tx)
  }

  lemma {:induction false} StrippedStep(ops: seq<Op>, ps: seq<Pool>, n: nat, tx: Tx)
    requires n < |ops| < |ps|
    ensures Stripped(ops, ps, n + 1, tx) <==>
              tx in ps[n + 1].txs && (Strips(ps[n], ops[n], tx) || (Stripped(ops, ps, n, tx) && ops[n] != NewBundle(tx)))
  {
    if Stripped(ops, ps, n + 1, tx) {
      var i :| 0 <= i <= n && Strips(ps[i], ops[i], tx) && Unmended(ops, ps, i + 1, n + 1, tx);
      assert i < n ==> Unmended(ops, ps, i + 1, n, tx);
    }
    if tx in ps[n + 1].txs && Strips(ps[n], ops[n], tx) {
      assert Unmended(ops, ps, n + 1, n + 1, tx);
    } else if tx in ps[n + 1].txs && Stripped(ops, ps, n, tx) && ops[n] != NewBundle(tx) {
      var i :| 0 <= i < n && Strips(ps[i], ops[i], tx) && Unmended(ops, ps, i + 1, n, tx);
      assert Unmended(ops, ps, i + 1, n + 1, tx);
    }
  }

  /** At each point of every run, a pooled blob transaction is without its bundle exactly when
      some earlier operation stripped it and it has stayed pooled without a new one since. */
  lemma {:induction false} BareExact(maxSize: nat, maxBlobs: nat, ops: seq<Op>, ps: seq<Pool>, n: nat, tx: Tx)
    requires Run(maxSize, maxBlobs, ops, ps) && n <= |ops|
    ensures tx in Bare(ps[n]) <==> Stripped(ops, ps, n, tx)
  {
    if n > 0 {
      BareExact(maxSize, maxBlobs, ops, ps, n - 1, tx);
      RunMoves(maxSize, maxBlobs, ops, ps, n - 1, tx);
      StrippedStep(ops, ps, n - 1, tx);
    }
  }

  /** So the bundles are exactly those of the pooled blob transactions when no bundle is open and
      no transaction stripped. */
  lemma {:induction false} BundlesExact(maxSize: nat, maxBlobs: nat, ops: seq<Op>, ps: seq<Pool>, n: nat)
    requires Run(maxSize, maxBlobs, ops, ps) && n <= |ops|
    ensures ps[n].blobs.bundles.Keys == PooledBlobs(ps[n].txs) <==>
              forall tx :: !Open(ops, ps, n, tx) && !Stripped(ops, ps, n, tx)
  {
    forall tx ensures (tx in Window(ps[n]) <==> Open(ops, ps, n, tx)) && (tx in Bare(ps[n]) <==> Stripped(ops, ps, n, tx)) {
      WindowExact(maxSize, maxBlobs, ops, ps, n, tx);
      BareExact(maxSize, maxBlobs, ops, ps, n, tx);
    }
    EveryRunBlobs(maxSize, maxBlobs, ops, ps, n);
    NothingLoose(ps[n]);
  }

  lemma {:induction false} NothingLoose(p: Pool)
    requires BlobsOnly(p)
    ensures p.blobs.bundles.Keys == PooledBlobs(p.txs) <==> forall tx :: tx !in Window(p) && tx !in Bare(p)
  {
    if forall tx :: tx !in Window(p) && tx !in Bare(p) {
      forall tx ensures tx in p.blobs.bundles.Keys <==> tx in PooledBlobs(p.txs) {
        assert tx !in Window(p) && tx !in Bare(p);
      }
    }
  }
}
