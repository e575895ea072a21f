/** The transaction pool as a value: its redundant maps, what ties them together, and what each
    operation makes of them (crates/blockchain/mempool.rs, MempoolInner). */
module TxPool {
  import opened Options
  import opened Numbers
  import opened Ledger
  import opened BlobIndex

  /** The largest 64-bit value is never admitted as a nonce. */
  type Nonce = n: nat | n < 0xFFFF_FFFF_FFFF_FFFF

  datatype Kind = Regular | Blob | Frame

  /** A transaction; it also stands for its own hash. cost is None when it overflows; hashes are
      the versioned hashes of its blobs. */
  datatype Tx = Tx(
    id: nat,
    sender: Address,
    nonce: Nonce,
    kind: Kind,
    cost: Option<nat>,
    feeCap: nat,
    tipCap: nat,
    blobFee: nat,
    hashes: seq<Commitment>)

  datatype Slot = At(sender: Address, nonce: Nonce)

  datatype Pool = Pool(
    txs: set<Tx>,
    index: map<Slot, Tx>,
    order: seq<Tx>,
    blobs: Blobs<Tx>,
    pendingFrame: map<Address, (Tx, Nonce)>,
    book: Book<Tx>,
    broadcast: set<Tx>,
    hidden: set<Tx>,
    maxSize: nat,
    maxBlobs: nat)

  function SlotOf(tx: Tx): Slot { At(tx.sender, tx.nonce) }

  // ---------------------------------------------------------------- what ties the maps together

  /** The sender and nonce index and the pool are inverse to each other. */
  ghost predicate Indexed(txs: set<Tx>, index: map<Slot, Tx>) {
    && (forall tx | tx in txs :: SlotOf(tx) in index && index[SlotOf(tx)] == tx)
    && (forall k | k in index :: index[k] in txs && SlotOf(index[k]) == k)
  }

  /** The pending map names each sender's one frame transaction. */
  ghost predicate OneFrame(txs: set<Tx>, pendingFrame: map<Address, (Tx, Nonce)>) {
    && (forall tx | tx in txs && tx.kind.Frame? :: tx.sender in pendingFrame && pendingFrame[tx.sender].0 == tx)
    && (forall a | a in pendingFrame ::
          var (tx, n) := pendingFrame[a]; tx in txs && tx.kind.Frame? && tx.sender == a && tx.nonce == n)
  }

  /** Every pooled blob transaction has its bundle, each bundle carries the commitments that its
      transaction names, and the index is exact. */
  ghost predicate Bundled(txs: set<Tx>, blobs: Blobs<Tx>) {
    && (forall tx | tx in txs && tx.kind.Blob? :: tx in blobs.bundles)
    && (forall tx | tx in blobs.bundles :: tx.kind.Blob? && blobs.bundles[tx] == tx.hashes)
    && Inverted(blobs)
  }

  /** Every pooled transaction that is not a blob transaction waits in the order queue. */
  ghost predicate Queued(txs: set<Tx>, order: seq<Tx>) {
    && (forall tx | tx in txs && !tx.kind.Blob? :: tx in order)
    && (forall tx | tx in order :: !tx.kind.Blob?)
  }

  ghost predicate Sponsored(txs: set<Tx>, book: Book<Tx>) {
    Conserved(book) && forall tx | tx in book.sponsors :: tx in txs && tx.kind.Frame?
  }

  ghost predicate Spread(p: Pool) {
    p.broadcast <= p.txs && p.hidden <= p.txs && p.broadcast !! p.hidden
  }

  /** The ties that do not involve the bundles. */
  ghost predicate Tied(p: Pool) {
    && Indexed(p.txs, p.index) && OneFrame(p.txs, p.pendingFrame)
    && Queued(p.txs, p.order) && Sponsored(p.txs, p.book) && Spread(p)
  }

  ghost predicate Valid(p: Pool) { Tied(p) && Bundled(p.txs, p.blobs) }

  function Empty(maxSize: nat, maxBlobs: nat): Pool {
    Pool({}, map[], [], Blobs(map[], map[]), map[], Book(map[], map[], map[]), {}, {}, maxSize, maxBlobs)
  }

  lemma {:induction false} EmptyValid(maxSize: nat, maxBlobs: nat)
    ensures Valid(Empty(maxSize, maxBlobs))
  {
    var b := Empty(maxSize, maxBlobs).book;
    forall a: Address ensures Balanced(b, a) {
      assert CostsOf(b.sponsors, a) == map[] && Strays(b.sponsors, a) == {};
    }
  }

  // ---------------------------------------------------------------- removal

  function Remove(p: Pool, tx: Tx): Pool {
    if tx !in p.txs then p
    else
      p.(txs := p.txs - {tx},
         index := p.index - {SlotOf(tx)},
         blobs := if tx.kind.Blob? then DropBundle(p.blobs, tx) else p.blobs,
         pendingFrame := if tx.kind.Frame? && tx.sender in p.pendingFrame && p.pendingFrame[tx.sender].0 == tx
                         then p.pendingFrame - {tx.sender} else p.pendingFrame,
         book := if tx.kind.Frame? then Discharge(p.book, tx) else p.book,
         broadcast := p.broadcast - {tx},
         hidden := p.hidden - {tx})
  }

  lemma {:induction false} RemoveTied(p: Pool, tx: Tx)
    requires Tied(p)
    ensures Tied(Remove(p, tx))
  {
    if tx in p.txs {
      DischargeConserves(p.book, tx);
      assert tx.kind.Frame? ==> p.pendingFrame[tx.sender].0 == tx;
    }
  }

  lemma {:induction false} RemoveValid(p: Pool, tx: Tx)
    requires Valid(p)
    ensures Valid(Remove(p, tx))
  {
    RemoveTied(p, tx);
    if tx in p.txs { DropInverts(p.blobs, tx); }
  }

  /** Removal takes out one transaction and nothing else. */
  lemma {:induction false} RemoveExact(p: Pool, tx: Tx)
    requires Valid(p)
    ensures var q := Remove(p, tx);
            && q.txs == p.txs - {tx} && q.order == p.order
            && (forall k :: k in q.index <==> k in p.index && p.index[k] != tx)
            && (forall k | k in q.index :: q.index[k] == p.index[k])
            && Window(q) == Window(p)
            && q.blobs.bundles.Keys == p.blobs.bundles.Keys - (if tx in p.txs then {tx} else {})
            && q.book.sponsors == p.book.sponsors - {tx}
            && q.maxSize == p.maxSize && q.maxBlobs == p.maxBlobs
  {
    assert tx in p.txs && !tx.kind.Blob? ==> tx !in p.blobs.bundles;
    assert tx in p.txs && !tx.kind.Frame? ==> tx !in p.book.sponsors;
    assert tx !in p.book.sponsors ==> p.book.sponsors - {tx} == p.book.sponsors;
  }

  /** The bundles whose transaction is not in the pool. */
  function Window(p: Pool): set<Tx> { p.blobs.bundles.Keys - p.txs }

  function NonBlobs(txs: set<Tx>): set<Tx> { set tx | tx in txs && !tx.kind.Blob? }

  function PooledBlobs(txs: set<Tx>): set<Tx> { set tx | tx in txs && tx.kind.Blob? }

  ghost predicate BlobsOnly(p: Pool) { forall tx | tx in p.blobs.bundles :: tx.kind.Blob? }

  /** The pooled blob transactions without a bundle. */
  function Bare(p: Pool): set<Tx> { PooledBlobs(p.txs) - p.blobs.bundles.Keys }

  /** The count the code works with; it takes every bundle for a pooled transaction. */
  function RegularCount(p: Pool): nat { SatSub(|p.txs|, |p.blobs.bundles|) }

  /** The blob transactions that are held together with their bundle; only these can be evicted. */
  function Evictable(p: Pool): set<Tx> { set tx | tx in p.blobs.bundles && tx in p.txs }

  lemma {:induction false} BundleParts(p: Pool)
    ensures p.blobs.bundles.Keys == Evictable(p) + Window(p) && Evictable(p) !! Window(p)
  {}

  lemma {:induction false} BlobParts(p: Pool)
    requires BlobsOnly(p)
    ensures PooledBlobs(p.txs) == Evictable(p) + Bare(p) && Evictable(p) !! Bare(p)
  {}

  /** Bundles and pooled blob transactions, counted by who has whom. */
  lemma {:induction false} BlobCountIs(p: Pool)
    requires BlobsOnly(p)
    ensures |p.blobs.bundles| == |Evictable(p)| + |Window(p)|
    ensures |PooledBlobs(p.txs)| == |Evictable(p)| + |Bare(p)|
  {
    BundleParts(p);
    Parts(p.blobs.bundles.Keys, Evictable(p), Window(p));
    assert |p.blobs.bundles| == |p.blobs.bundles.Keys|;
    BlobParts(p);
    Parts(PooledBlobs(p.txs), Evictable(p), Bare(p));
  }

  lemma {:induction false} CountIs(p: Pool)
    requires BlobsOnly(p)
    ensures RegularCount(p) == SatSub(|NonBlobs(p.txs)| + |Bare(p)|, |Window(p)|)
    ensures |p.blobs.bundles| + |Bare(p)| == |PooledBlobs(p.txs)| + |Window(p)|
  {
    BlobCountIs(p);
    Parts(p.txs, NonBlobs(p.txs), PooledBlobs(p.txs));
  }

  lemma {:induction false} RegularCountIs(p: Pool)
    requires Valid(p)
    ensures RegularCount(p) == SatSub(|NonBlobs(p.txs)|, |Window(p)|)
    ensures |p.blobs.bundles| == |PooledBlobs(p.txs)| + |Window(p)|
  {
    CountIs(p);
    assert Bare(p) == {};
  }

  /** q has lost some transactions of p, each with its bundle, and nothing else of the bundles. */
  ghost predicate Trims(p: Pool, q: Pool) {
    && q.txs <= p.txs && Window(q) == Window(p) && BlobsOnly(q)
    && forall tx | tx in q.txs :: tx in q.blobs.bundles <==> tx in p.blobs.bundles
  }

  lemma {:induction false} RemoveTrims(p: Pool, tx: Tx)
    requires BlobsOnly(p)
    ensures Trims(p, Remove(p, tx))
  {}

  lemma {:induction false} TrimsTrans(p: Pool, q: Pool, r: Pool)
    requires Trims(p, q) && Trims(q, r)
    ensures Trims(p, r)
  {}

  // ---------------------------------------------------------------- eviction of regular transactions

  /** The front of the order queue goes, together with its transaction. */
  function Popped(p: Pool): Pool requires p.order != [] { Remove(p.(order := p.order[1..]), p.order[0]) }

  function EvictRegular(p: Pool): Pool
    decreases |p.order|
  {
    if RegularCount(p) < p.maxSize || p.order == [] then p
    else EvictRegular(Popped(p))
  }

  lemma {:induction false} PopTied(p: Pool)
    requires Tied(p) && p.order != []
    ensures Tied(Popped(p))
    ensures Valid(p) ==> Valid(Popped(p))
  {
    var q := Popped(p);
    RemoveTied(p, p.order[0]);
    forall tx | tx in q.txs && !tx.kind.Blob? ensures tx in q.order { assert tx in p.order; }
    if Valid(p) { RemoveValid(p, p.order[0]); }
  }

  lemma {:induction false} EvictRegularTied(p: Pool)
    requires Tied(p)
    ensures Tied(EvictRegular(p)) && Smaller(p, EvictRegular(p))
    decreases |p.order|
  {
    if RegularCount(p) >= p.maxSize && p.order != [] {
      var next := Popped(p);
      PopTied(p);
      RemoveShrinks(p.(order := p.order[1..]), p.order[0]);
      EvictRegularTied(next);
      SmallerTrans(p, next, EvictRegular(next));
    }
  }

  /** Blob transactions and bundles are left alone. */
  lemma {:induction false} EvictRegularBlobs(p: Pool)
    requires Tied(p)
    ensures EvictRegular(p).blobs == p.blobs && PooledBlobs(EvictRegular(p).txs) == PooledBlobs(p.txs)
    ensures BlobsOnly(p) ==> Trims(p, EvictRegular(p))
    decreases |p.order|
  {
    if RegularCount(p) >= p.maxSize && p.order != [] {
      var next := Popped(p);
      PopTied(p);
      assert !p.order[0].kind.Blob?;
      assert PooledBlobs(next.txs) == PooledBlobs(p.txs);
      EvictRegularBlobs(next);
      if BlobsOnly(p) {
        RemoveTrims(p.(order := p.order[1..]), p.order[0]);
        TrimsTrans(p, next, EvictRegular(next));
      }
    }
  }

  lemma {:induction false} EvictRegularValid(p: Pool)
    requires Valid(p)
    ensures Valid(EvictRegular(p))
    decreases |p.order|
  {
    if RegularCount(p) >= p.maxSize && p.order != [] {
      PopTied(p);
      EvictRegularValid(Popped(p));
    }
  }

  /** What the loop brings the regular transactions down to: one less than the cap, plus one for
      each bundle without its transaction, less one for each transaction without its bundle; with a
      cap of zero, nothing. */
  function Quota(p: Pool): nat {
    if p.maxSize == 0 then 0 else SatSub(p.maxSize - 1 + |Window(p)|, |Bare(p)|)
  }

  lemma {:induction false} OverQuota(p: Pool)
    requires BlobsOnly(p) && NonBlobs(p.txs) != {}
    ensures RegularCount(p) >= p.maxSize <==> |NonBlobs(p.txs)| > Quota(p)
  {
    CountIs(p);
  }

  lemma {:induction false} NoOrder(p: Pool)
    requires Tied(p) && p.order == []
    ensures NonBlobs(p.txs) == {}
  {
    assert forall tx | tx in p.txs :: tx.kind.Blob?;
  }

  lemma {:induction false} EvictRegularExact(p: Pool)
    requires Tied(p) && BlobsOnly(p)
    ensures |NonBlobs(EvictRegular(p).txs)| == Min(|NonBlobs(p.txs)|, Quota(p))
    decreases |p.order|
  {
    if NonBlobs(p.txs) != {} { OverQuota(p); }
    if p.order == [] {
      NoOrder(p);
    } else if RegularCount(p) >= p.maxSize {
      PopCounts(p);
      EvictRegularExact(Popped(p));
    }
  }

  /** Eviction takes no blob transaction and no bundle. It runs out of transactions without having
      got under the cap exactly when the transactions without their bundle exceed the bundles
      without their transaction by the cap. */
  lemma {:induction false} EvictRegularBounded(p: Pool)
    requires Tied(p) && BlobsOnly(p)
    ensures var q := EvictRegular(p);
            && q.blobs == p.blobs && PooledBlobs(q.txs) == PooledBlobs(p.txs)
            && (RegularCount(q) >= p.maxSize <==> SatSub(|Bare(p)|, |Window(p)|) >= p.maxSize)
  {
    EvictRegularBlobs(p);
    EvictRegularExact(p);
    CountIs(EvictRegular(p));
  }

  lemma {:induction false} RemoveSets(txs: set<Tx>, tx: Tx)
    requires !tx.kind.Blob?
    ensures PooledBlobs(txs - {tx}) == PooledBlobs(txs) && |NonBlobs(txs)| - 1 <= |NonBlobs(txs - {tx})| <= |NonBlobs(txs)|
  {
    assert NonBlobs(txs - {tx}) == NonBlobs(txs) - {tx};
  }

  /** A removal that takes no blob transaction. */
  lemma {:induction false} PopSets(p: Pool)
    requires p.order != [] && !p.order[0].kind.Blob?
    ensures var next := Popped(p);
            && next.txs == p.txs - {p.order[0]} && next.blobs == p.blobs && next.order == p.order[1..] && next.maxSize == p.maxSize
  {}

  lemma {:induction false} PopCounts(p: Pool)
    requires Tied(p) && BlobsOnly(p) && p.order != []
    ensures var next := Popped(p);
            && Tied(next) && BlobsOnly(next) && |next.order| < |p.order| && next.maxSize == p.maxSize
            && Quota(next) == Quota(p) && |NonBlobs(p.txs)| - 1 <= |NonBlobs(next.txs)| <= |NonBlobs(p.txs)|
  {
    PopTied(p);
    assert !p.order[0].kind.Blob?;
    PopSets(p);
    RemoveSets(p.txs, p.order[0]);
    SameQuota(p, Popped(p));
  }

  lemma {:induction false} SameQuota(p: Pool, q: Pool)
    requires q.blobs == p.blobs && q.maxSize == p.maxSize && PooledBlobs(q.txs) == PooledBlobs(p.txs) && BlobsOnly(p)
    ensures BlobsOnly(q) && Quota(q) == Quota(p)
  {
    WindowOf(p);
    WindowOf(q);
  }

  lemma {:induction false} WindowOf(p: Pool)
    requires BlobsOnly(p)
    ensures Window(p) == p.blobs.bundles.Keys - PooledBlobs(p.txs)
  {}

  /** q holds no more of anything than p. */
  ghost predicate Smaller(p: Pool, q: Pool) {
    && q.txs <= p.txs && q.maxSize == p.maxSize && q.maxBlobs == p.maxBlobs
    && (forall k | k in q.index :: k in p.index && q.index[k] == p.index[k])
    && (forall a | a in q.pendingFrame :: a in p.pendingFrame)
    && (forall tx | tx in q.book.sponsors :: tx in p.book.sponsors && q.book.sponsors[tx] == p.book.sponsors[tx])
  }

  lemma {:induction false} RemoveShrinks(p: Pool, tx: Tx)
    ensures Smaller(p, Remove(p, tx))
  {}

  lemma {:induction false} SmallerTrans(p: Pool, q: Pool, r: Pool)
    requires Smaller(p, q) && Smaller(q, r)
    ensures Smaller(p, r)
  {}

  /** A smaller pool owes no paymaster more. */
  lemma {:induction false} SmallerOwes(a: map<Tx, Reservation>, b: map<Tx, Reservation>, p: Address)
    requires forall tx | tx in b :: tx in a && b[tx] == a[tx]
    ensures Owed(b, p) <= Owed(a, p) && Strays(b, p) <= Strays(a, p)
    decreases |a|
  {
    if tx :| tx in a && tx !in b {
      OwedRemove(a, tx, p);
      SmallerOwes(a - {tx}, b, p);
    } else {
      assert a.Keys == b.Keys;
      assert a == b;
    }
  }

  // ---------------------------------------------------------------- eviction of blob transactions

  ghost predicate IsBaseline(blobs: set<Tx>, sender: Address, n: nat) {
    && (exists tx | tx in blobs :: tx.sender == sender && tx.nonce == n)
    && (forall tx | tx in blobs && tx.sender == sender :: n <= tx.nonce)
  }

  lemma {:induction false} BaselineExists(blobs: set<Tx>, tx: Tx) returns (n: nat)
    requires tx in blobs
    ensures IsBaseline(blobs, tx.sender, n)
    decreases tx.nonce
  {
    if other :| other in blobs && other.sender == tx.sender && other.nonce < tx.nonce {
      n := BaselineExists(blobs, other);
    } else {
      n := tx.nonce;
    }
  }

  /** The lowest nonce among one sender's blob transactions. */
  ghost function Baseline(blobs: set<Tx>, sender: Address): (n: nat)
    requires exists tx | tx in blobs :: tx.sender == sender
    ensures IsBaseline(blobs, sender, n)
  {
    assert exists n: nat :: IsBaseline(blobs, sender, n) by {
      var tx :| tx in blobs && tx.sender == sender;
      var n := BaselineExists(blobs, tx);
    }
    var n: nat :| IsBaseline(blobs, sender, n);
    n
  }

  /** How far behind its sender's next blob transaction a transaction waits. */
  ghost function Offset(blobs: set<Tx>, tx: Tx): nat
    requires tx in blobs
  {
    tx.nonce - Baseline(blobs, tx.sender)
  }

  /** No other evictable transaction waits further back, or as far at a lower blob fee. */
  ghost predicate Worst(p: Pool, tx: Tx) {
    && tx in Evictable(p)
    && forall other | other in Evictable(p) ::
         var mine, its := Offset(Evictable(p), tx), Offset(Evictable(p), other);
         its < mine || (its == mine && other.blobFee >= tx.blobFee)
  }

  /** The baselines the eviction loop gathers in its first pass. */
  ghost predicate Baselines(blobs: set<Tx>, base: map<Address, nat>) {
    && (forall tx | tx in blobs :: tx.sender in base)
    && (forall a | a in base :: IsBaseline(blobs, a, base[a]))
  }

  lemma {:induction false} BaselinesStep(blobs: set<Tx>, base: map<Address, nat>, tx: Tx)
    requires Baselines(blobs, base)
    ensures Baselines(blobs + {tx}, base[tx.sender := if tx.sender in base then Min(base[tx.sender], tx.nonce) else tx.nonce])
  {
    var more := blobs + {tx};
    var base' := base[tx.sender := if tx.sender in base then Min(base[tx.sender], tx.nonce) else tx.nonce];
    forall a | a in base' ensures IsBaseline(more, a, base'[a]) {
      if a in base && base'[a] == base[a] {
        var x :| x in blobs && x.sender == a && x.nonce == base[a];
        assert x in more;
      } else {
        assert tx in more && tx.sender == a && tx.nonce == base'[a];
      }
    }
  }

  predicate NotWorse(base: map<Address, nat>, x: Tx, y: Tx) {
    var its, mine := SatSub(x.nonce, Get0(base, x.sender)), SatSub(y.nonce, Get0(base, y.sender));
    its < mine || (its == mine && x.blobFee >= y.blobFee)
  }

  lemma {:induction false} BaselineOffset(blobs: set<Tx>, base: map<Address, nat>, tx: Tx)
    requires Baselines(blobs, base) && tx in blobs
    ensures Offset(blobs, tx) == SatSub(tx.nonce, Get0(base, tx.sender))
  {
    assert IsBaseline(blobs, tx.sender, base[tx.sender]) && IsBaseline(blobs, tx.sender, Baseline(blobs, tx.sender));
  }

  lemma {:induction false} WorstFound(p: Pool, base: map<Address, nat>, w: Tx)
    requires Baselines(Evictable(p), base) && w in Evictable(p) && forall x | x in Evictable(p) :: NotWorse(base, x, w)
    ensures Worst(p, w)
  {
    forall x | x in Evictable(p) ensures Offset(Evictable(p), x) == SatSub(x.nonce, Get0(base, x.sender)) {
      BaselineOffset(Evictable(p), base, x);
    }
  }

  /** One run of the eviction loop: which transactions went, in order. */
  ghost predicate BlobEviction(p: Pool, evicted: seq<Tx>, q: Pool)
    decreases |evicted|
  {
    if evicted == [] then q == p && (|p.blobs.bundles| <= p.maxBlobs || Evictable(p) == {})
    else |p.blobs.bundles| > p.maxBlobs && Worst(p, evicted[0]) && BlobEviction(Remove(p, evicted[0]), evicted[1..], q)
  }

  /** A sender's next blob transaction goes only when every evictable one is its sender's next. */
  lemma {:induction false} NextBlobLast(p: Pool, tx: Tx)
    requires Worst(p, tx) && IsBaseline(Evictable(p), tx.sender, tx.nonce)
    ensures forall other | other in Evictable(p) :: IsBaseline(Evictable(p), other.sender, other.nonce)
  {
    assert Offset(Evictable(p), tx) == 0;
    forall other | other in Evictable(p) ensures IsBaseline(Evictable(p), other.sender, other.nonce) {
      assert Offset(Evictable(p), other) == 0;
    }
  }

  lemma {:induction false} BlobEvictionTrims(p: Pool, evicted: seq<Tx>, q: Pool)
    requires BlobsOnly(p) && BlobEviction(p, evicted, q)
    ensures Trims(p, q)
    decreases |evicted|
  {
    if evicted != [] {
      RemoveTrims(p, evicted[0]);
      BlobEvictionTrims(Remove(p, evicted[0]), evicted[1..], q);
      TrimsTrans(p, Remove(p, evicted[0]), q);
    }
  }

  lemma {:induction false} BlobEvictionTied(p: Pool, evicted: seq<Tx>, q: Pool)
    requires Tied(p) && BlobEviction(p, evicted, q)
    ensures Tied(q) && Smaller(p, q)
    decreases |evicted|
  {
    if evicted != [] {
      RemoveTied(p, evicted[0]);
      RemoveShrinks(p, evicted[0]);
      BlobEvictionTied(Remove(p, evicted[0]), evicted[1..], q);
      SmallerTrans(p, Remove(p, evicted[0]), q);
    }
  }

  lemma {:induction false} BlobEvictionValid(p: Pool, evicted: seq<Tx>, q: Pool)
    requires Valid(p) && BlobEviction(p, evicted, q)
    ensures Valid(q)
    decreases |evicted|
  {
    if evicted != [] {
      RemoveValid(p, evicted[0]);
      BlobEvictionValid(Remove(p, evicted[0]), evicted[1..], q);
    }
  }

  /** q has lost blob transactions of p with their bundles, and nothing else. */
  ghost predicate LosesBlobs(p: Pool, q: Pool) {
    && q.txs <= p.txs && q.order == p.order && q.maxBlobs == p.maxBlobs && BlobsOnly(q)
    && Window(q) == Window(p) && Bare(q) == Bare(p) && NonBlobs(q.txs) == NonBlobs(p.txs)
  }

  lemma {:induction false} EvictOneBlob(p: Pool, tx: Tx)
    requires BlobsOnly(p) && tx in Evictable(p)
    ensures LosesBlobs(p, Remove(p, tx)) && |Evictable(Remove(p, tx))| == |Evictable(p)| - 1 && tx.kind.Blob? && tx in p.txs
  {
    RemoveTrims(p, tx);
    assert Evictable(Remove(p, tx)) == Evictable(p) - {tx};
  }

  lemma {:induction false} BlobEvictionLoses(p: Pool, evicted: seq<Tx>, q: Pool)
    requires BlobsOnly(p) && BlobEviction(p, evicted, q)
    ensures LosesBlobs(p, q) && forall tx | tx in evicted :: tx.kind.Blob? && tx in p.txs
    decreases |evicted|
  {
    if evicted != [] {
      EvictOneBlob(p, evicted[0]);
      BlobEvictionLoses(Remove(p, evicted[0]), evicted[1..], q);
    }
  }

  lemma {:induction false} BlobEvictionCounts(p: Pool, evicted: seq<Tx>, q: Pool)
    requires BlobsOnly(p) && BlobEviction(p, evicted, q)
    ensures |Evictable(q)| == |Evictable(p)| - |evicted|
    decreases |evicted|
  {
    if evicted != [] {
      EvictOneBlob(p, evicted[0]);
      BlobEvictionCounts(Remove(p, evicted[0]), evicted[1..], q);
    }
  }

  /** The loop stops at the cap or with nothing left to evict, and not before. */
  lemma {:induction false} BlobEvictionEnds(p: Pool, evicted: seq<Tx>, q: Pool)
    requires BlobsOnly(p) && BlobEviction(p, evicted, q)
    ensures |Evictable(q)| + |Window(p)| <= p.maxBlobs || |Evictable(q)| == 0
    ensures evicted != [] ==> |Evictable(q)| + |Window(p)| >= p.maxBlobs
    decreases |evicted|
  {
    BlobCountIs(p);
    if evicted != [] {
      EvictOneBlob(p, evicted[0]);
      BlobEvictionEnds(Remove(p, evicted[0]), evicted[1..], q);
    }
  }

  lemma {:induction false} StopsAt(e: nat, gone: nat, left: nat, w: nat, max: nat)
    requires left == e - gone && (left + w <= max || left == 0) && (gone > 0 ==> left + w >= max)
    ensures left == Min(e, SatSub(max, w))
  {}

  /** The loop takes only blob transactions with their bundles. It leaves all of them if there was
      room, and otherwise what the bundles without their transaction leave of the cap. */
  lemma {:induction false} BlobEvictionExact(p: Pool, evicted: seq<Tx>, q: Pool)
    requires BlobsOnly(p) && BlobEviction(p, evicted, q)
    ensures |Evictable(q)| == Min(|Evictable(p)|, SatSub(p.maxBlobs, |Window(p)|))
    ensures LosesBlobs(p, q) && forall tx | tx in evicted :: tx.kind.Blob? && tx in p.txs
  {
    BlobEvictionCounts(p, evicted, q);
    BlobEvictionEnds(p, evicted, q);
    StopsAt(|Evictable(p)|, |evicted|, |Evictable(q)|, |Window(p)|, p.maxBlobs);
    BlobEvictionLoses(p, evicted, q);
  }

  /** The loop runs into its impossible case exactly when the bundles without their transaction
      alone exceed the cap. */
  lemma {:induction false} BlobEvictionStuck(p: Pool, evicted: seq<Tx>, q: Pool)
    requires BlobsOnly(p) && BlobEviction(p, evicted, q)
    ensures |q.blobs.bundles| > q.maxBlobs <==> |Window(p)| > p.maxBlobs
  {
    BlobEvictionExact(p, evicted, q);
    BlobCountIs(q);
  }
}
