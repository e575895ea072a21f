/** The pool over whole runs of the operations its callers perform, in any order. */
module PoolRuns {
  import opened Ledger
  import opened BlobIndex
  import opened TxPool
  import opened Admission
  import opened PoolSafety

  /** Everything that happens to the pool under its lock. A blob transaction comes in two
      operations: its bundle first, then the transaction, or the removal of the bundle when the
      transaction was rejected. The payload builder stores a bundle too, once it has rebuilt it. */
  datatype Op =
    | NewBundle(tx: Tx)
    | Add(request: Request, evicted: seq<Tx>)
    | Drop(tx: Tx)
    | DropOrphan(tx: Tx)
    | Broadcasted(txs: set<Tx>)

  /** A bundle is stored only if it is not empty and its commitments hash to what the transaction
      names. */
  ghost predicate Step(p: Pool, op: Op, r: Pool) {
    match op
    case NewBundle(tx) => tx.kind.Blob? && tx.hashes != [] && r == p.(blobs := AddBundle(p.blobs, tx, tx.hashes))
    case Add(q, evicted) => Proper(q) && if Verdict(p, q).Some? then r == p else Accepts(p, q, evicted, r)
    case Drop(tx) => r == Remove(p, tx)
    case DropOrphan(tx) => tx.kind.Blob? && r == p.(blobs := DropBundle(p.blobs, tx))
    case Broadcasted(txs) => r == p.(broadcast := p.broadcast - txs)
  }

  ghost predicate StepAt(ops: seq<Op>, ps: seq<Pool>, i: nat) requires i < |ops| < |ps| { Step(ps[i], ops[i], ps[i + 1]) }

  ghost predicate Steps(ops: seq<Op>, ps: seq<Pool>) {
    |ps| == |ops| + 1 && forall i | 0 <= i < |ops| :: StepAt(ops, ps, i)
  }

  ghost predicate Run(maxSize: nat, maxBlobs: nat, ops: seq<Op>, ps: seq<Pool>) {
    Steps(ops, ps) && ps[0] == Empty(maxSize, maxBlobs)
  }

  ghost predicate Accepted(p: Pool, op: Op) { op.Add? && Verdict(p, op.request).None? }

  /** No accepted blob transaction goes without its bundle, and none is rolled back once pooled. */
  ghost predicate Orderly(p: Pool, op: Op) {
    (Accepted(p, op) ==> Supplied(p, op.request.tx)) && (op.DropOrphan? ==> op.tx !in p.txs)
  }

  ghost predicate OrderlyAt(ops: seq<Op>, ps: seq<Pool>, i: nat) requires i < |ops| < |ps| { Orderly(ps[i], ops[i]) }

  ghost predicate AllOrderly(ops: seq<Op>, ps: seq<Pool>) requires |ps| == |ops| + 1 {
    forall i | 0 <= i < |ops| :: OrderlyAt(ops, ps, i)
  }

  // ---------------------------------------------------------------- what every run keeps

  lemma {:induction false} StepTied(p: Pool, op: Op, r: Pool)
    requires Tied(p) && Step(p, op, r)
    ensures Tied(r)
  {
    match op
    case NewBundle(tx) =>
    case Add(q, evicted) => if Verdict(p, q).None? { AddTied(p, q, evicted, r); }
    case Drop(tx) => RemoveTied(p, tx);
    case DropOrphan(tx) =>
    case Broadcasted(txs) =>
  }

  lemma {:induction false} StepValid(p: Pool, op: Op, r: Pool)
    requires Valid(p) && Step(p, op, r)
    ensures Valid(r) <==> Orderly(p, op)
  {
    StepTied(p, op, r);
    match op
    case NewBundle(tx) => AddInverts(p.blobs, tx, tx.hashes);
    case Add(q, evicted) => if Verdict(p, q).None? { AddValid(p, q, evicted, r); }
    case Drop(tx) => RemoveValid(p, tx);
    case DropOrphan(tx) => DropInverts(p.blobs, tx);
    case Broadcasted(txs) =>
  }

  /** In every reachable pool all maps but the bundles agree. */
  lemma {:induction false} EveryRunTied(maxSize: nat, maxBlobs: nat, ops: seq<Op>, ps: seq<Pool>, n: nat)
    requires Run(maxSize, maxBlobs, ops, ps) && n < |ps|
    ensures Tied(ps[n])
  {
    if n == 0 {
      EmptyValid(maxSize, maxBlobs);
    } else {
      EveryRunTied(maxSize, maxBlobs, ops, ps, n - 1);
      assert StepAt(ops, ps, n - 1);
      StepTied(ps[n - 1], ops[n - 1], ps[n]);
    }
  }

  lemma {:induction false} ValidUpTo(ops: seq<Op>, ps: seq<Pool>, n: nat)
    requires Steps(ops, ps) && Valid(ps[0]) && n < |ps| && forall i | 0 <= i < n :: OrderlyAt(ops, ps, i)
    ensures Valid(ps[n])
  {
    if n > 0 {
      ValidUpTo(ops, ps, n - 1);
      assert StepAt(ops, ps, n - 1) && OrderlyAt(ops, ps, n - 1);
      StepValid(ps[n - 1], ops[n - 1], ps[n]);
    }
  }

  /** The bundles agree with them throughout if and only if every step is orderly. */
  lemma {:induction false} EveryRunValid(maxSize: nat, maxBlobs: nat, ops: seq<Op>, ps: seq<Pool>)
    requires Run(maxSize, maxBlobs, ops, ps)
    ensures (forall n | 0 <= n < |ps| :: Valid(ps[n])) <==> AllOrderly(ops, ps)
  {
    EmptyValid(maxSize, maxBlobs);
    if AllOrderly(ops, ps) {
      forall n | 0 <= n < |ps| ensures Valid(ps[n]) { ValidUpTo(ops, ps, n); }
    } else {
      var i :| 0 <= i < |ops| && !OrderlyAt(ops, ps, i);
      assert StepAt(ops, ps, i);
      if Valid(ps[i]) { StepValid(ps[i], ops[i], ps[i + 1]); }
    }
  }

  /** No sender has two frame transactions, no two pooled transactions share a slot, and a pool
      without frame transactions has no trace of any. */
  lemma {:induction false} EveryRunExclusive(maxSize: nat, maxBlobs: nat, ops: seq<Op>, ps: seq<Pool>, n: nat)
    requires Run(maxSize, maxBlobs, ops, ps) && n < |ps|
    ensures var p := ps[n];
            && (forall x, y | x in p.txs && y in p.txs && SlotOf(x) == SlotOf(y) :: x == y)
            && (forall x, y | x in p.txs && y in p.txs && x.kind.Frame? && y.kind.Frame? && x.sender == y.sender :: x == y)
            && ((forall x | x in p.txs :: !x.kind.Frame?) ==>
                  p.pendingFrame == map[] && p.book.reserved == map[] && p.book.noncanonical == map[] && p.book.sponsors == map[])
  {
    var p := ps[n];
    EveryRunTied(maxSize, maxBlobs, ops, ps, n);
    if forall x | x in p.txs :: !x.kind.Frame? {
      assert p.book.sponsors == map[];
      NothingPending(p.book);
    }
  }
}
