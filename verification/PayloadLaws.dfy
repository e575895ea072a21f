/** The order transactions are tried in and what becomes of each, in fields and in sums over the
    block so far (crates/blockchain/payload.rs). */
module PayloadLaws {
  import opened Numbers
  import opened PayloadQueue
  import opened PayloadBuild

  // ---------------------------------------------------------------- the order

  /** A privileged transaction yields to privileged ones with no higher nonce only; another one
      yields to those, to higher tips, and to equal tips no younger than it. */
  predicate Yields(o: Head, h: Head) {
    if o.tx.privileged then h.tx.privileged && h.tx.nonce <= o.tx.nonce
    else h.tx.privileged || h.tip > o.tip || (h.tip == o.tip && h.tx.time <= o.tx.time)
  }

  /** Nothing tells two transactions apart. */
  predicate Level(o: Head, h: Head) {
    if o.tx.privileged then h.tx.privileged && h.tx.nonce == o.tx.nonce
    else !h.tx.privileged && h.tip == o.tip && h.tx.time == o.tx.time
  }

  lemma {:induction false} CmpIs(h: Head, o: Head)
    ensures Leq(h, o) <==> Yields(o, h)
    ensures Cmp(h, o) == Less <==> Yields(o, h) && !Level(o, h)
  {}

  /** The next transaction to try: every sender's next one yields to it, and a blob transaction is
      level with no plain one. */
  ghost predicate Next(s: Fill, h: Head) {
    && IsHead(if h.tx.isBlob then s.blobs else s.plain, h)
    && (forall o: Head | IsHead(s.plain, o) || IsHead(s.blobs, o) :: Yields(o, h))
    && (h.tx.isBlob ==> forall o: Head | IsHead(s.plain, o) :: !Level(o, h))
  }

  lemma {:induction false} BestIsNext(s: Fill, h: Head)
    ensures BestHead(s, h) <==> Next(s, h)
  {
    forall o: Head ensures (Leq(h, o) <==> Yields(o, h)) && (Cmp(h, o) == Less <==> Yields(o, h) && !Level(o, h)) { CmpIs(h, o); }
  }

  /** A next transaction is privileged, with the least nonce among those, if any sender's next one
      is; otherwise it has the highest tip, and the least time among those with that tip. */
  lemma {:induction false} NextIs(s: Fill, h: Head, o: Head)
    requires Next(s, h) && (IsHead(s.plain, o) || IsHead(s.blobs, o))
    ensures o.tx.privileged ==> h.tx.privileged && h.tx.nonce <= o.tx.nonce
    ensures !h.tx.privileged ==> h.tip >= o.tip && (h.tip == o.tip ==> h.tx.time <= o.tx.time)
    ensures h.tx.isBlob && IsHead(s.plain, o) ==>
              (!h.tx.privileged && !o.tx.privileged && h.tip == o.tip ==> h.tx.time < o.tx.time)
  {
    assert Yields(o, h);
    if IsHead(s.plain, o) && h.tx.isBlob { assert !Level(o, h); }
  }

  lemma {:induction false} LastRound(env: Env, vm: (seq<Entry>, Tx) -> Execution, s: Fill, front: seq<Head>, h: Head, s': Fill) returns (b: Fill)
    requires Rounds(env, vm, s, front + [h], s')
    ensures Rounds(env, vm, s, front, b) && Round(env, vm, b, h, s')
  {
    assert (front + [h])[..|front|] == front;
    b :| Rounds(env, vm, s, front, b) && Round(env, vm, b, h, s');
  }

  /** Round i of a filling, from what the rounds before it left. */
  lemma {:induction false} RoundAt(env: Env, vm: (seq<Entry>, Tx) -> Execution, s: Fill, heads: seq<Head>, s': Fill, i: nat)
    returns (b: Fill, c: Fill)
    requires Rounds(env, vm, s, heads, s') && i < |heads|
    ensures Rounds(env, vm, s, heads[..i], b) && Round(env, vm, b, heads[i], c)
    decreases |heads|
  {
    var front, h := heads[..|heads| - 1], heads[|heads| - 1];
    assert heads == front + [h];
    var d := LastRound(env, vm, s, front, h, s');
    if i == |front| {
      b, c := d, s';
    } else {
      assert front[..i] == heads[..i] && front[i] == heads[i];
      b, c := RoundAt(env, vm, s, front, d, i);
    }
  }

  /** Each round tries a next transaction of what the rounds before it left. */
  lemma {:induction false} EveryRoundTriesNext(env: Env, vm: (seq<Entry>, Tx) -> Execution, s: Fill, heads: seq<Head>, s': Fill, i: nat)
    returns (b: Fill)
    requires Rounds(env, vm, s, heads, s') && i < |heads|
    ensures Rounds(env, vm, s, heads[..i], b) && Next(Trimmed(env, b), heads[i])
  {
    var c: Fill;
    b, c := RoundAt(env, vm, s, heads, s', i);
    BestIsNext(Trimmed(env, b), heads[i]);
  }

  // ---------------------------------------------------------------- what becomes of a transaction

  /** Under both gas dimensions since Amsterdam, where only so much of a limit counts as regular. */
  ghost predicate GasLeft(env: Env, entries: seq<Entry>, tx: Tx) {
    if env.amsterdam then
      var most := if tx.gasLimit <= 16_777_216 then tx.gasLimit else 16_777_216;
      Total(entries, RegularBy) + most <= env.gasLimit && Total(entries, StateBy) + most <= env.gasLimit
    else Total(entries, UsedBy) + tx.gasLimit <= env.gasLimit
  }

  ghost predicate StateGasLeft(env: Env, entries: seq<Entry>, tx: Tx) {
    env.amsterdam ==> Total(entries, StateBy) + tx.gasLimit <= env.gasLimit
  }

  predicate TooBig(env: Env, size: nat, tx: Tx) { env.osaka && size + tx.size > 8_388_608 }

  /** The fork rules out the signature or the kind, or the transaction has expired. */
  predicate Outlawed(env: Env, tx: Tx) {
    || (tx.isProtected && !env.eip155)
    || (tx.isFrame && (!env.hegota || (tx.expiry.Some? && tx.expiry.value < env.timestamp)))
  }

  predicate Stale(env: Env, tx: Tx) { env.osaka && tx in env.staleSidecars }

  ghost predicate BlobsLeft(env: Env, entries: seq<Entry>, tx: Tx) {
    tx.isBlob ==> tx in env.sidecars && !Stale(env, tx) && Total(entries, BlobsBy) + tx.blobs <= env.maxBlobs
  }

  /** The block stays within its regular gas with this execution. */
  ghost predicate StaysWithin(env: Env, entries: seq<Entry>, r: Report) requires r.stateGas <= r.gasUsed {
    env.amsterdam ==> Total(entries, RegularBy) + (r.gasUsed - r.stateGas) <= env.gasLimit
  }

  /** Each decision about a head, in sums over the block so far: what is skipped, what ends the
      block, what is barred, what goes in, and which of the others leave the pool. */
  lemma {:induction false} FateExact(env: Env, entries: seq<Entry>, size: nat, tx: Tx, x: Execution, d: Decision)
    requires env.gasLimit < U64_MAX && WithinLimits(env, entries) && Decided(env, TotalsOf(env, entries), size, tx, x, d)
    requires x.Executed? ==> x.report.gasUsed <= tx.gasLimit && x.report.stateGas <= x.report.gasUsed
    ensures d.Skipped? <==> !GasLeft(env, entries, tx)
    ensures d.TooLarge? <==> GasLeft(env, entries, tx) && TooBig(env, size, tx)
    ensures d.Barred? <==> GasLeft(env, entries, tx) && !TooBig(env, size, tx) && Outlawed(env, tx)
    ensures d.Taken? <==>
              && GasLeft(env, entries, tx) && !TooBig(env, size, tx) && !Outlawed(env, tx)
              && StateGasLeft(env, entries, tx) && BlobsLeft(env, entries, tx)
              && x.Executed? && StaysWithin(env, entries, x.report)
    ensures d.Refused? && tx.isFrame ==>
              (!d.evicted <==> StateGasLeft(env, entries, tx) && BlobsLeft(env, entries, tx) && x.Rejected? && x.nonceMismatch)
    ensures d.Refused? && !tx.isFrame ==>
              (d.evicted <==>
               StateGasLeft(env, entries, tx) &&
               ((BlobsLeft(env, entries, tx) && x.Rejected? && x.deterministic) || (tx.isBlob && tx in env.sidecars && Stale(env, tx))))
  {
    BlobCount(env, entries);
    ReachesIs(env, entries, tx);
    if x.Executed? { KeptIs(env, entries, tx, x); }
  }

  lemma {:induction false} BlobCount(env: Env, entries: seq<Entry>)
    ensures TotalsOf(env, entries).blobGas == 131_072 * Total(entries, BlobsBy)
    ensures TotalsOf(env, entries).blobGas / GAS_PER_BLOB == Total(entries, BlobsBy)
  {}

  lemma {:induction false} ReachesIs(env: Env, entries: seq<Entry>, tx: Tx)
    requires WithinLimits(env, entries)
    ensures TotalsOf(env, entries).remaining >= Reservation(env, tx) <==> GasLeft(env, entries, tx)
    ensures GasLeft(env, entries, tx) ==>
              && (!env.amsterdam || Allowed(env, TotalsOf(env, entries), tx) <==> StateGasLeft(env, entries, tx))
              && (Reaches(env, TotalsOf(env, entries), tx) <==> StateGasLeft(env, entries, tx) && BlobsLeft(env, entries, tx))
  {
    BlobCount(env, entries);
  }

  lemma {:induction false} KeptIs(env: Env, entries: seq<Entry>, tx: Tx, x: Execution)
    requires env.gasLimit < U64_MAX && WithinLimits(env, entries)
    requires x.Executed? && x.report.gasUsed <= tx.gasLimit && x.report.stateGas <= x.report.gasUsed
    ensures StateGasLeft(env, entries, tx) ==> (Kept(env, TotalsOf(env, entries), x).Some? <==> StaysWithin(env, entries, x.report))
  {}

  /** A filled block has no gas for the cheapest transaction, or nothing waits for it, or the next
      transaction has its gas but makes the block too large. */
  lemma {:induction false} FullExact(env: Env, s: Fill)
    requires WithinLimits(env, s.entries)
    ensures Full(env, s) <==>
              || BlockGas(env, s.entries) + 21_000 > env.gasLimit
              || (s.plain == map[] && (s.blobs == map[] || Total(s.entries, BlobsBy) >= env.maxBlobs))
              || exists h: Head :: Next(Trimmed(env, s), h) && GasLeft(env, s.entries, h.tx) && TooBig(env, s.size, h.tx)
  {
    forall h: Head
      ensures BestHead(Trimmed(env, s), h) <==> Next(Trimmed(env, s), h)
      ensures Oversized(env, s.entries, s.size, h.tx) <==> GasLeft(env, s.entries, h.tx) && TooBig(env, s.size, h.tx)
    {
      BestIsNext(Trimmed(env, s), h);
      ReachesIs(env, s.entries, h.tx);
    }
  }
}
