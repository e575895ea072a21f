/** What a replacement has to bid (crates/blockchain/mempool.rs, find_tx_to_replace). */
module Replacement {
  import opened Ledger
  import opened TxPool

  datatype PriceError = ReplacementTypeMismatch | UnderpricedReplacement

  datatype Replacement = Fresh | Replaces(tx: Tx) | Refused(error: PriceError)

  /** At least the bumped price, rounded down; a product that overflows refuses. */
  predicate IsBumped(existing: nat, offered: nat, bump: nat) {
    existing * (100 + bump) <= U256_MAX && offered >= existing * (100 + bump) / 100
  }

  function BumpFor(tx: Tx, bump: nat, blobBump: nat): nat { if tx.kind.Blob? then blobBump else bump }

  function FindTxToReplace(p: Pool, tx: Tx, bump: nat, blobBump: nat): Replacement {
    if SlotOf(tx) !in p.index || p.index[SlotOf(tx)] == tx || p.index[SlotOf(tx)] !in p.txs then Fresh
    else
      var x := p.index[SlotOf(tx)];
      if x.kind.Blob? != tx.kind.Blob? then Refused(ReplacementTypeMismatch)
      else if tx.feeCap <= x.feeCap || tx.tipCap <= x.tipCap then Refused(UnderpricedReplacement)
      else
        var b := BumpFor(tx, bump, blobBump);
        if IsBumped(x.feeCap, tx.feeCap, b) && IsBumped(x.tipCap, tx.tipCap, b) && (tx.kind.Blob? ==> IsBumped(x.blobFee, tx.blobFee, b))
        then Replaces(x) else Refused(UnderpricedReplacement)
  }

  /** A bid at least the bumped price less one unit, where the product of the bump fits. */
  predicate Bids(existing: nat, offered: nat, bump: nat) {
    existing * (100 + bump) <= U256_MAX && 100 * offered + 99 >= existing * (100 + bump)
  }

  lemma {:induction false} BumpedBids(existing: nat, offered: nat, bump: nat)
    ensures IsBumped(existing, offered, bump) <==> Bids(existing, offered, bump)
  {
    var asked := existing * (100 + bump);
    assert asked == 100 * (asked / 100) + asked % 100;
  }

  /** Strictly higher caps, and every price bumped, the blob price too. */
  predicate Outbids(x: Tx, y: Tx, bump: nat) {
    && y.feeCap > x.feeCap && y.tipCap > x.tipCap
    && Bids(x.feeCap, y.feeCap, bump) && Bids(x.tipCap, y.tipCap, bump) && (y.kind.Blob? ==> Bids(x.blobFee, y.blobFee, bump))
  }

  /** Another transaction of the sender is pooled at the nonce. */
  predicate Occupies(p: Pool, tx: Tx, x: Tx) { x in p.txs && x != tx && x.sender == tx.sender && x.nonce == tx.nonce }

  /** Nothing is replaced exactly when no other transaction of the sender is pooled at the nonce. Such
      a transaction is replaced exactly when it is of the same category and outbid, and the error
      names what is missing. */
  lemma {:induction false} ReplacementOutbids(p: Pool, tx: Tx, bump: nat, blobBump: nat, x: Tx)
    requires Tied(p)
    ensures FindTxToReplace(p, tx, bump, blobBump).Fresh? <==> forall y: Tx :: !Occupies(p, tx, y)
    ensures Occupies(p, tx, x) ==>
              FindTxToReplace(p, tx, bump, blobBump) ==
              if x.kind.Blob? != tx.kind.Blob? then Refused(ReplacementTypeMismatch)
              else if Outbids(x, tx, if tx.kind.Blob? then blobBump else bump) then Replaces(x)
              else Refused(UnderpricedReplacement)
    ensures FindTxToReplace(p, tx, bump, blobBump) == Replaces(x) ==> Occupies(p, tx, x)
  {
    var b := BumpFor(tx, bump, blobBump);
    if SlotOf(tx) in p.index {
      var y := p.index[SlotOf(tx)];
      BumpedBids(y.feeCap, tx.feeCap, b);
      BumpedBids(y.tipCap, tx.tipCap, b);
      BumpedBids(y.blobFee, tx.blobFee, b);
      assert y in p.txs && y != tx ==> Occupies(p, tx, y);
    }
  }

  /** Each transaction of the chain replaced the one before it, in whatever pool it found it. */
  ghost predicate Chain(chain: seq<Tx>, ps: seq<Pool>, bump: nat, blobBump: nat) {
    && |ps| == |chain| && (forall n | 0 < n < |chain| :: Replaced(chain, ps, bump, blobBump, n))
  }

  ghost predicate Replaced(chain: seq<Tx>, ps: seq<Pool>, bump: nat, blobBump: nat, n: nat) requires 0 < n < |chain| == |ps| {
    Tied(ps[n]) && FindTxToReplace(ps[n], chain[n], bump, blobBump) == Replaces(chain[n - 1])
  }

  /** A chain of replacements stays in its slot and category and never returns to an earlier bid. */
  lemma {:induction false} ChainRises(chain: seq<Tx>, ps: seq<Pool>, bump: nat, blobBump: nat, i: nat, j: nat)
    requires Chain(chain, ps, bump, blobBump) && i < j < |chain|
    ensures SlotOf(chain[i]) == SlotOf(chain[j]) && chain[i].kind.Blob? == chain[j].kind.Blob?
    ensures chain[i].feeCap < chain[j].feeCap && chain[i].tipCap < chain[j].tipCap
    decreases j
  {
    assert Replaced(chain, ps, bump, blobBump, j);
    ReplacementOutbids(ps[j], chain[j], bump, blobBump, chain[j - 1]);
    if i < j - 1 { ChainRises(chain, ps, bump, blobBump, i, j - 1); }
  }
}
