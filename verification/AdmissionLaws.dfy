/** Which requests the pool admits, said of the pooled transactions themselves
    (crates/blockchain/mempool.rs, check_admission and the frame gates of add_transaction_inner). */
module AdmissionLaws {
  import opened Options
  import opened Numbers
  import opened Ledger
  import opened TxPool
  import opened Admission
  import opened PoolSafety

  // ---------------------------------------------------------------- the sender's nonces

  ghost predicate Pooled(txs: set<Tx>, sender: Address, n: nat) { exists x | x in txs :: x.sender == sender && x.nonce == n }

  /** The first nonce from the given one up at which the sender has nothing pooled. */
  ghost predicate FirstMissing(txs: set<Tx>, sender: Address, from: nat, f: nat) {
    from <= f && !Pooled(txs, sender, f) && forall m: nat | from <= m < f :: Pooled(txs, sender, m)
  }

  /** The sender's pooled nonces above one. */
  ghost function NoncesAbove(txs: set<Tx>, sender: Address, f: nat): set<nat> {
    set x | x in txs && x.sender == sender && x.nonce > f :: x.nonce
  }

  lemma {:induction false} HasIsPooled(p: Pool, sender: Address, n: nat)
    requires Indexed(p.txs, p.index)
    ensures Has(p.index, sender, n) <==> Pooled(p.txs, sender, n)
  {
    if Has(p.index, sender, n) {
      var x := p.index[At(sender, n)];
      assert x in p.txs && x.sender == sender && x.nonce == n;
    }
    if Pooled(p.txs, sender, n) {
      var x :| x in p.txs && x.sender == sender && x.nonce == n;
      assert SlotOf(x) == At(sender, n);
    }
  }

  lemma {:induction false} NextIsFirstMissing(p: Pool, sender: Address, from: nat)
    requires Indexed(p.txs, p.index)
    ensures FirstMissing(p.txs, sender, from, NextExecutable(p.index, sender, from))
  {
    var f := NextExecutable(p.index, sender, from);
    HasIsPooled(p, sender, f);
    forall m: nat | from <= m < f ensures Pooled(p.txs, sender, m) {
      assert Has(p.index, sender, m);
      HasIsPooled(p, sender, m);
    }
  }

  lemma {:induction false} FirstMissingUnique(txs: set<Tx>, sender: Address, from: nat, f: nat, g: nat)
    requires FirstMissing(txs, sender, from, f) && FirstMissing(txs, sender, from, g)
    ensures f == g
  {}

  function NoncesOf(slots: set<Slot>): set<nat> { set k | k in slots :: k.nonce }

  lemma {:induction false} SlotsAndNonces(slots: set<Slot>, sender: Address)
    requires forall k | k in slots :: k.sender == sender
    ensures |NoncesOf(slots)| == |slots|
    decreases |slots|
  {
    if k :| k in slots {
      SlotsAndNonces(slots - {k}, sender);
      assert forall j | j in slots - {k} :: j.nonce != k.nonce;
      assert NoncesOf(slots) == NoncesOf(slots - {k}) + {k.nonce};
    }
  }

  lemma {:induction false} FutureNonces(p: Pool, sender: Address, from: nat, f: nat)
    requires Indexed(p.txs, p.index) && FirstMissing(p.txs, sender, from, f)
    ensures |Future(p.index, sender, from)| == |NoncesAbove(p.txs, sender, f)|
  {
    var slots := Future(p.index, sender, from);
    NextIsFirstMissing(p, sender, from);
    FirstMissingUnique(p.txs, sender, from, f, NextExecutable(p.index, sender, from));
    SlotsAndNonces(slots, sender);
    forall n ensures n in NoncesOf(slots) <==> n in NoncesAbove(p.txs, sender, f) {
      if n in NoncesOf(slots) {
        var k :| k in slots && k.nonce == n;
        var x := p.index[k];
        assert x in p.txs && SlotOf(x) == k;
        assert Pooled(p.txs, sender, n);
      }
      if n in NoncesAbove(p.txs, sender, f) {
        var x :| x in p.txs && x.sender == sender && x.nonce > f && x.nonce == n;
        assert SlotOf(x) in slots && SlotOf(x).nonce == n;
      }
    }
    assert NoncesOf(slots) == NoncesAbove(p.txs, sender, f);
  }

  // ---------------------------------------------------------------- the conditions

  ghost predicate Taken(p: Pool, tx: Tx) { Pooled(p.txs, tx.sender, tx.nonce) }

  /** A replacement; or every nonce from the account's up to this one is pooled; or the sender
      has fewer nonces beyond its first gap than it may. */
  ghost predicate QueueAllows(p: Pool, tx: Tx, a: SenderAdmission) {
    || Taken(p, tx)
    || (forall m: nat | a.accountNonce <= m < tx.nonce :: Pooled(p.txs, tx.sender, m))
    || exists f: nat :: FirstMissing(p.txs, tx.sender, a.accountNonce, f) && |NoncesAbove(p.txs, tx.sender, f)| < a.queuedMax
  }

  /** A replacement; or no jump; or the gate is off; or the pool is filled to less than the given
      percentage. */
  ghost predicate GapAllows(p: Pool, tx: Tx, a: SenderAdmission) {
    || Taken(p, tx) || tx.nonce <= a.accountNonce || a.gapThreshold >= 100
    || if p.maxSize == 0 then a.gapThreshold > 0 else |p.txs| * 100 < a.gapThreshold * p.maxSize
  }

  /** What the sender has pooled from the account's nonce up, at other nonces. */
  ghost function Others(p: Pool, tx: Tx, a: SenderAdmission): set<Tx> {
    set x | x in p.txs && x.sender == tx.sender && x.nonce >= a.accountNonce && x.nonce != tx.nonce
  }

  ghost function OthersCost(p: Pool, tx: Tx, a: SenderAdmission): nat { SumOf(Costs(Others(p, tx, a))) }

  /** No check is asked for, or the balance pays for everything, without an overflow. */
  ghost predicate BalanceAllows(p: Pool, tx: Tx, a: SenderAdmission) {
    a.balanceCheck.Some? ==>
      var check := a.balanceCheck.value;
      Priced(Others(p, tx, a)) && OthersCost(p, tx, a) + check.txCost <= Min(check.senderBalance, U256_MAX)
  }

  // ---------------------------------------------------------------- the gates, exactly

  lemma {:induction false} TakenIs(p: Pool, tx: Tx)
    requires Indexed(p.txs, p.index)
    ensures Taken(p, tx) <==> SlotOf(tx) in p.index
  {
    HasIsPooled(p, tx.sender, tx.nonce);
  }

  lemma {:induction false} QueueExact(p: Pool, tx: Tx, a: SenderAdmission, f: nat)
    requires Indexed(p.txs, p.index) && !Taken(p, tx) && FirstMissing(p.txs, tx.sender, a.accountNonce, f)
    ensures QueueAllows(p, tx, a) <==> QueueGate(p, tx, a).None?
    ensures QueueGate(p, tx, a).Some? ==>
              QueueGate(p, tx, a).value == MaxQueuedTxsPerAccountExceeded(|NoncesAbove(p.txs, tx.sender, f)|, a.queuedMax)
  {
    var next := NextExecutable(p.index, tx.sender, a.accountNonce);
    NextIsFirstMissing(p, tx.sender, a.accountNonce);
    FirstMissingUnique(p.txs, tx.sender, a.accountNonce, f, next);
    FutureNonces(p, tx.sender, a.accountNonce, f);
    if tx.nonce > f {
      assert !Pooled(p.txs, tx.sender, f) && a.accountNonce <= f < tx.nonce;
      forall g: nat | FirstMissing(p.txs, tx.sender, a.accountNonce, g) ensures g == f {
        FirstMissingUnique(p.txs, tx.sender, a.accountNonce, f, g);
      }
    }
  }

  lemma {:induction false} DivBelow(x: nat, m: nat, t: nat)
    requires m > 0
    ensures x / m < t <==> x < t * m
    ensures (x / m) * m <= x < (x / m + 1) * m
  {
    var q, r := x / m, x % m;
    assert x == q * m + r && 0 <= r < m;
    assert (q + 1) * m == q * m + m;
    if q < t { assert (q + 1) * m <= t * m; } else { assert t * m <= q * m; }
  }

  /** The share of the pool that is filled, in whole percent. */
  ghost predicate Percent(p: Pool, pct: nat) {
    if p.maxSize == 0 then pct == 0
    else if |p.txs| >= p.maxSize then pct == 100
    else pct * p.maxSize <= |p.txs| * 100 < (pct + 1) * p.maxSize
  }

  lemma {:induction false} OccupancyIs(p: Pool, t: nat)
    ensures Percent(p, OccupancyPct(p))
    ensures t < 100 ==> (OccupancyPct(p) < t <==> if p.maxSize == 0 then t > 0 else |p.txs| * 100 < t * p.maxSize)
  {
    if p.maxSize > 0 {
      DivBelow(|p.txs| * 100, p.maxSize, t);
      DivBelow(|p.txs| * 100, p.maxSize, 100);
    }
  }

  lemma {:induction false} GapExact(p: Pool, tx: Tx, a: SenderAdmission)
    requires !Taken(p, tx)
    ensures GapAllows(p, tx, a) <==> GapGate(p, tx, a).None?
    ensures GapGate(p, tx, a).Some? ==>
              && tx.nonce > a.accountNonce && GapGate(p, tx, a).value.GapAdmissionDeniedUnderPressure?
              && Percent(p, GapGate(p, tx, a).value.occupancyPct) && GapGate(p, tx, a).value.nonceGap == tx.nonce - a.accountNonce
  {
    OccupancyIs(p, a.gapThreshold);
  }

  lemma {:induction false} OthersAre(p: Pool, tx: Tx, a: SenderAdmission)
    requires Indexed(p.txs, p.index)
    ensures Mine(p.index, tx.sender, a.accountNonce) - Replaced(p.index, tx) == Others(p, tx, a)
  {
    forall x | x in Others(p, tx, a) ensures x in Mine(p.index, tx.sender, a.accountNonce) && x !in Replaced(p.index, tx) {
      assert SlotOf(x) in p.index && p.index[SlotOf(x)] == x;
    }
    forall x | x in Mine(p.index, tx.sender, a.accountNonce) - Replaced(p.index, tx) ensures x in Others(p, tx, a) {
      var k :| k in p.index && k.sender == tx.sender && k.nonce >= a.accountNonce && p.index[k] == x;
      assert SlotOf(x) == k;
    }
  }

  lemma {:induction false} BalanceExact(p: Pool, tx: Tx, a: SenderAdmission)
    requires Indexed(p.txs, p.index)
    ensures BalanceAllows(p, tx, a) <==> BalanceGate(p, tx, a).None?
    ensures BalanceGate(p, tx, a).Some? ==>
              && a.balanceCheck.Some?
              && BalanceGate(p, tx, a).value ==
                 if Priced(Others(p, tx, a)) && OthersCost(p, tx, a) + a.balanceCheck.value.txCost <= U256_MAX
                 then InsufficientCumulativeBalance(OthersCost(p, tx, a) + a.balanceCheck.value.txCost, a.balanceCheck.value.senderBalance)
                 else InvalidTxGasValues
  {
    OthersAre(p, tx, a);
  }

  /** The sender gates pass a request exactly when the queue, the gap and the balance allow it; the
      first that does not gives the error. */
  lemma {:induction false} GatesExact(p: Pool, tx: Tx, a: SenderAdmission, f: nat)
    requires Indexed(p.txs, p.index) && FirstMissing(p.txs, tx.sender, a.accountNonce, f)
    ensures CheckAdmission(p, tx, a).None? <==> QueueAllows(p, tx, a) && GapAllows(p, tx, a) && BalanceAllows(p, tx, a)
    ensures !QueueAllows(p, tx, a) ==>
              CheckAdmission(p, tx, a) == Some(MaxQueuedTxsPerAccountExceeded(|NoncesAbove(p.txs, tx.sender, f)|, a.queuedMax))
    ensures QueueAllows(p, tx, a) && !GapAllows(p, tx, a) ==>
              && CheckAdmission(p, tx, a).Some? && CheckAdmission(p, tx, a).value.GapAdmissionDeniedUnderPressure?
              && Percent(p, CheckAdmission(p, tx, a).value.occupancyPct)
              && CheckAdmission(p, tx, a).value.nonceGap == tx.nonce - a.accountNonce
    ensures QueueAllows(p, tx, a) && GapAllows(p, tx, a) && !BalanceAllows(p, tx, a) ==>
              a.balanceCheck.Some? &&
              CheckAdmission(p, tx, a) ==
              Some(if Priced(Others(p, tx, a)) && OthersCost(p, tx, a) + a.balanceCheck.value.txCost <= U256_MAX
                   then InsufficientCumulativeBalance(OthersCost(p, tx, a) + a.balanceCheck.value.txCost, a.balanceCheck.value.senderBalance)
                   else InvalidTxGasValues)
  {
    TakenIs(p, tx);
    if !Taken(p, tx) {
      QueueExact(p, tx, a, f);
      GapExact(p, tx, a);
    }
    BalanceExact(p, tx, a);
  }

  /** The sender gates allow the request. */
  ghost predicate GatesAllow(p: Pool, tx: Tx, a: SenderAdmission) {
    QueueAllows(p, tx, a) && GapAllows(p, tx, a) && BalanceAllows(p, tx, a)
  }

  lemma {:induction false} GatesPass(p: Pool, tx: Tx, a: SenderAdmission)
    requires Indexed(p.txs, p.index)
    ensures CheckAdmission(p, tx, a).None? <==> GatesAllow(p, tx, a)
  {
    NextIsFirstMissing(p, tx.sender, a.accountNonce);
    GatesExact(p, tx, a, NextExecutable(p.index, tx.sender, a.accountNonce));
  }

  /** After an accepted insertion with a balance check, everything the sender has pooled from the
      account's nonce up costs no more than its balance. */
  lemma {:induction false} BalanceCovers(p: Pool, q: Request, evicted: seq<Tx>, r: Pool)
    requires Tied(p) && Proper(q) && Verdict(p, q).None? && Accepts(p, q, evicted, r)
    requires q.admission.Some? && q.admission.value.balanceCheck.Some?
    requires q.tx.cost == Some(q.admission.value.balanceCheck.value.txCost)
    ensures var a := q.admission.value;
            var mine := set x | x in r.txs && x.sender == q.tx.sender && x.nonce >= a.accountNonce;
            Priced(mine) && SumOf(Costs(mine)) <= a.balanceCheck.value.senderBalance
  {
    var a := q.admission.value;
    var mine := set x | x in r.txs && x.sender == q.tx.sender && x.nonce >= a.accountNonce;
    WithinBalance(p, q, evicted, r);
    AddTied(p, q, evicted, r);
    forall x | x in mine ensures x in Mine(r.index, q.tx.sender, a.accountNonce) { assert SlotOf(x) in r.index && r.index[SlotOf(x)] == x; }
    assert mine == Mine(r.index, q.tx.sender, a.accountNonce);
  }

  // ---------------------------------------------------------------- the frame gates

  /** The sender has no frame transaction pooled at another nonce. */
  ghost predicate SenderFree(p: Pool, tx: Tx) {
    forall x | x in p.txs && x.kind.Frame? && x.sender == tx.sender :: x.nonce == tx.nonce
  }

  /** The reservations a frame transaction competes with: all but that of the transaction in its
      slot, unless it is the one pooled there. */
  ghost function Rivals(p: Pool, tx: Tx): map<Tx, Reservation> {
    map x | x in p.book.sponsors && (tx in p.txs || x.sender != tx.sender || x.nonce != tx.nonce) :: p.book.sponsors[x]
  }

  ghost function RivalCosts(p: Pool, tx: Tx, payer: Address): map<Tx, nat> {
    map x | x in Rivals(p, tx) && Rivals(p, tx)[x].paymaster == payer :: Rivals(p, tx)[x].cost
  }

  /** The paymaster covers the cost besides its other reservations, and sponsors nothing else
      unless it is canonical. */
  ghost predicate Covers(p: Pool, tx: Tx, r: Reservation) { r.cost == 0 || SumOf(RivalCosts(p, tx, r.paymaster)) + r.cost <= r.balance }

  ghost predicate Unsponsoring(p: Pool, tx: Tx, r: Reservation) {
    r.canonical || forall x | x in Rivals(p, tx) && Rivals(p, tx)[x].paymaster == r.paymaster :: Rivals(p, tx)[x].canonical
  }

  lemma {:induction false} RivalsAre(p: Pool, tx: Tx, r: Reservation)
    requires Tied(p)
    ensures Rivals(p, tx) == Competing(p, tx)
    ensures SumOf(RivalCosts(p, tx, r.paymaster)) == Owed(Competing(p, tx), r.paymaster)
    ensures Unsponsoring(p, tx, r) <==> r.canonical || |Strays(Competing(p, tx), r.paymaster)| < MAX_PENDING_NONCANONICAL
  {
    assert Rivals(p, tx) == Competing(p, tx);
    assert RivalCosts(p, tx, r.paymaster) == CostsOf(Competing(p, tx), r.paymaster);
    var strays := Strays(Competing(p, tx), r.paymaster);
    assert strays == {} <==> forall x | x in Rivals(p, tx) && Rivals(p, tx)[x].paymaster == r.paymaster :: Rivals(p, tx)[x].canonical by {
      if x :| x in Rivals(p, tx) && Rivals(p, tx)[x].paymaster == r.paymaster && !Rivals(p, tx)[x].canonical { assert x in strays; }
    }
    if strays != {} {
      var x :| x in strays;
      Fewer({x}, strays);
    }
  }

  lemma {:induction false} ConflictIs(p: Pool, tx: Tx)
    requires Tied(p) && tx.kind.Frame?
    ensures FrameConflict(p, tx) <==> !SenderFree(p, tx)
  {}

  /** The frame gates pass a transaction exactly when its sender is free and its paymaster, if it
      has one, covers it and may sponsor it; the first that does not hold gives the error. */
  lemma {:induction false} FrameExact(p: Pool, tx: Tx, reservation: Option<Reservation>)
    requires Tied(p) && tx.kind.Frame?
    ensures FrameGate(p, tx, reservation) ==
            if !SenderFree(p, tx) then Some(FrameTxSenderAlreadyPending)
            else if reservation.Some? && !Unsponsoring(p, tx, reservation.value) then Some(FrameTxNonCanonicalPaymasterLimit)
            else if reservation.Some? && !Covers(p, tx, reservation.value) then Some(FrameTxPaymasterUnderfunded)
            else None
  {
    ConflictIs(p, tx);
    if !FrameConflict(p, tx) && reservation.Some? {
      RivalsAre(p, tx, reservation.value);
      PaymasterGateExact(p, tx, reservation.value);
    }
  }

  /** A request is admitted exactly when the sender gates and, for a frame transaction, the frame
      gates allow it. */
  ghost predicate Admits(p: Pool, q: Request) {
    && (q.admission.Some? ==> GatesAllow(p, q.tx, q.admission.value))
    && (q.tx.kind.Frame? ==>
          SenderFree(p, q.tx) && (q.reservation.Some? ==> Unsponsoring(p, q.tx, q.reservation.value) && Covers(p, q.tx, q.reservation.value)))
  }

  lemma {:induction false} VerdictExact(p: Pool, q: Request)
    requires Tied(p)
    ensures Verdict(p, q).None? <==> Admits(p, q)
  {
    if q.admission.Some? { GatesPass(p, q.tx, q.admission.value); }
    if q.tx.kind.Frame? { FrameExact(p, q.tx, q.reservation); }
  }
}
