/** Admission to the pool: the per-sender gates, replacement, and the insertion itself
    (crates/blockchain/mempool.rs, check_admission and add_transaction_inner). */
module Admission {
  import opened Options
  import opened Numbers
  import opened Ledger
  import opened TxPool

  datatype BalanceCheck = BalanceCheck(txCost: nat, senderBalance: nat)

  datatype SenderAdmission = SenderAdmission(
    accountNonce: nat,
    queuedMax: nat,
    gapThreshold: nat,
    balanceCheck: Option<BalanceCheck>)

  datatype Error =
    | MaxQueuedTxsPerAccountExceeded(count: nat, limit: nat)
    | GapAdmissionDeniedUnderPressure(occupancyPct: nat, nonceGap: nat)
    | InvalidTxGasValues
    | InsufficientCumulativeBalance(required: nat, available: nat)
    | FrameTxSenderAlreadyPending
    | FrameTxNonCanonicalPaymasterLimit
    | FrameTxPaymasterUnderfunded
    | IndexInconsistent

  // ---------------------------------------------------------------- the executable run

  predicate Has(index: map<Slot, Tx>, sender: Address, n: nat) {
    n < U64_MAX && At(sender, n) in index
  }

  /** The end of the contiguous run of nonces that starts at the account's nonce. */
  function NextExecutable(index: map<Slot, Tx>, sender: Address, n: nat): (r: nat)
    ensures n <= r && !Has(index, sender, r)
    ensures forall m: nat | n <= m < r :: Has(index, sender, m)
    decreases U64_MAX - n
  {
    if Has(index, sender, n) then NextExecutable(index, sender, n + 1) else n
  }

  /** The pooled transactions beyond the run: they cannot execute yet. */
  function Future(index: map<Slot, Tx>, sender: Address, accountNonce: nat): set<Slot> {
    set k | k in index && k.sender == sender && k.nonce >= NextExecutable(index, sender, accountNonce)
  }

  /** There is one least missing nonce. */
  lemma {:induction false} LeastMissing(index: map<Slot, Tx>, sender: Address, n: nat, r: nat)
    requires n <= r && !Has(index, sender, r) && forall m: nat | n <= m < r :: Has(index, sender, m)
    ensures r == NextExecutable(index, sender, n)
  {
    assert !Has(index, sender, NextExecutable(index, sender, n));
  }

  lemma {:induction false} HasMore(index: map<Slot, Tx>, tx: Tx, m: nat)
    ensures Has(index[SlotOf(tx) := tx], tx.sender, m) <==> Has(index, tx.sender, m) || m == tx.nonce
  {
    if m < U64_MAX { assert At(tx.sender, m) == SlotOf(tx) <==> m == tx.nonce; }
  }

  /** A fresh transaction beyond the run adds one to the queue. */
  lemma {:induction false} FutureInsert(index: map<Slot, Tx>, tx: Tx, accountNonce: nat)
    requires SlotOf(tx) !in index && tx.nonce > NextExecutable(index, tx.sender, accountNonce)
    ensures |Future(index[SlotOf(tx) := tx], tx.sender, accountNonce)| == |Future(index, tx.sender, accountNonce)| + 1
  {
    var more, r := index[SlotOf(tx) := tx], NextExecutable(index, tx.sender, accountNonce);
    forall m: nat | accountNonce <= m < r ensures Has(more, tx.sender, m) { HasMore(index, tx, m); }
    HasMore(index, tx, r);
    LeastMissing(more, tx.sender, accountNonce, r);
    assert Future(more, tx.sender, accountNonce) == Future(index, tx.sender, accountNonce) + {SlotOf(tx)};
  }

  /** A fresh transaction that extends the run, or sits below the account's nonce, never
      lengthens the queue. */
  lemma {:induction false} ExecutableInsert(index: map<Slot, Tx>, tx: Tx, accountNonce: nat)
    requires SlotOf(tx) !in index && tx.nonce <= NextExecutable(index, tx.sender, accountNonce)
    ensures |Future(index[SlotOf(tx) := tx], tx.sender, accountNonce)| <= |Future(index, tx.sender, accountNonce)|
  {
    var more, r := index[SlotOf(tx) := tx], NextExecutable(index, tx.sender, accountNonce);
    var r' := NextExecutable(more, tx.sender, accountNonce);
    HasMore(index, tx, r');
    HasMore(index, tx, r);
    assert r <= r';
    if tx.nonce == r {
      assert Has(more, tx.sender, r);
    } else {
      assert tx.nonce >= accountNonce ==> Has(index, tx.sender, tx.nonce);
    }
    assert Future(more, tx.sender, accountNonce) <= Future(index, tx.sender, accountNonce);
    Fewer(Future(more, tx.sender, accountNonce), Future(index, tx.sender, accountNonce));
  }

  /** A replacement leaves the queue as it is. */
  lemma {:induction false} ReplaceKeepsFuture(index: map<Slot, Tx>, tx: Tx, accountNonce: nat)
    requires SlotOf(tx) in index
    ensures Future(index[SlotOf(tx) := tx], tx.sender, accountNonce) == Future(index, tx.sender, accountNonce)
  {
    var more, r := index[SlotOf(tx) := tx], NextExecutable(index, tx.sender, accountNonce);
    forall m: nat | accountNonce <= m < r ensures Has(more, tx.sender, m) { HasMore(index, tx, m); }
    HasMore(index, tx, r);
    LeastMissing(more, tx.sender, accountNonce, r);
  }

  // ---------------------------------------------------------------- the sender's cost

  /** A sender's pooled transactions from a nonce up. */
  function Mine(index: map<Slot, Tx>, sender: Address, from: nat): set<Tx> {
    set k | k in index && k.sender == sender && k.nonce >= from :: index[k]
  }

  ghost function Costs(txs: set<Tx>): map<Tx, nat> {
    map tx | tx in txs && tx.cost.Some? :: tx.cost.value
  }

  ghost predicate Priced(txs: set<Tx>) { forall tx | tx in txs :: tx.cost.Some? }

  /** The summed cost, unless one cost or the sum itself overflows. */
  ghost function CostSum(txs: set<Tx>): Option<nat> {
    if Priced(txs) && SumOf(Costs(txs)) <= U256_MAX then Some(SumOf(Costs(txs))) else None
  }

  function Replaced(index: map<Slot, Tx>, tx: Tx): set<Tx> {
    if SlotOf(tx) in index then {index[SlotOf(tx)]} else {}
  }

  lemma {:induction false} CostsInsert(txs: set<Tx>, tx: Tx)
    requires tx !in txs && tx.cost.Some?
    ensures SumOf(Costs(txs + {tx})) == SumOf(Costs(txs)) + tx.cost.value
  {
    assert Costs(txs + {tx}) == Costs(txs)[tx := tx.cost.value];
    SumInsert(Costs(txs), tx, tx.cost.value);
  }

  lemma {:induction false} CostsSubset(a: set<Tx>, b: set<Tx>)
    requires a <= b && Priced(b)
    ensures SumOf(Costs(a)) <= SumOf(Costs(b))
    decreases |b|
  {
    if tx :| tx in b && tx !in a {
      CostsSubset(a, b - {tx});
      CostsInsert(b - {tx}, tx);
      assert b - {tx} + {tx} == b;
    } else {
      assert a == b;
    }
  }

  /** Adding one more cost: a sum that overflows part of the way overflows as a whole. */
  lemma {:induction false} CostStep(done: set<Tx>, tx: Tx, mine: set<Tx>)
    requires Priced(done) && tx !in done && tx.cost.Some? && done + {tx} <= mine
    ensures Priced(done + {tx}) && SumOf(Costs(done + {tx})) == SumOf(Costs(done)) + tx.cost.value
    ensures SumOf(Costs(done)) + tx.cost.value > U256_MAX ==> CostSum(mine).None?
  {
    CostsInsert(done, tx);
    if Priced(mine) { CostsSubset(done + {tx}, mine); }
  }

  // ---------------------------------------------------------------- the gates

  function OccupancyPct(p: Pool): nat {
    if p.maxSize == 0 then 0
    else if |p.txs| * 100 / p.maxSize < 100 then |p.txs| * 100 / p.maxSize else 100
  }

  ghost function QueueGate(p: Pool, tx: Tx, a: SenderAdmission): Option<Error> {
    var queued := |Future(p.index, tx.sender, a.accountNonce)|;
    if tx.nonce > NextExecutable(p.index, tx.sender, a.accountNonce) && queued >= a.queuedMax then
      Some(MaxQueuedTxsPerAccountExceeded(queued, a.queuedMax))
    else None
  }

  function GapGate(p: Pool, tx: Tx, a: SenderAdmission): Option<Error> {
    if tx.nonce > a.accountNonce && a.gapThreshold < 100 && OccupancyPct(p) >= a.gapThreshold then
      Some(GapAdmissionDeniedUnderPressure(OccupancyPct(p), tx.nonce - a.accountNonce))
    else None
  }

  ghost function BalanceGate(p: Pool, tx: Tx, a: SenderAdmission): Option<Error> {
    match a.balanceCheck
    case None => None
    case Some(check) =>
      match CostSum(Mine(p.index, tx.sender, a.accountNonce) - Replaced(p.index, tx))
      case None => Some(InvalidTxGasValues)
      case Some(existing) =>
        if existing + check.txCost > U256_MAX then Some(InvalidTxGasValues)
        else if existing + check.txCost > check.senderBalance then
          Some(InsufficientCumulativeBalance(existing + check.txCost, check.senderBalance))
        else None
  }

  /** A replacement is exempt from the queue and gap gates, not from the balance gate. */
  ghost function CheckAdmission(p: Pool, tx: Tx, a: SenderAdmission): Option<Error> {
    if SlotOf(tx) !in p.index && QueueGate(p, tx, a).Some? then QueueGate(p, tx, a)
    else if SlotOf(tx) !in p.index && GapGate(p, tx, a).Some? then GapGate(p, tx, a)
    else BalanceGate(p, tx, a)
  }

  // ---------------------------------------------------------------- the frame gates

  /** The pending frame transaction of the same nonce that a new one would replace. */
  function OldFrame(p: Pool, tx: Tx): Option<Tx> {
    if tx.sender in p.pendingFrame && p.pendingFrame[tx.sender].0 != tx && p.pendingFrame[tx.sender].1 == tx.nonce
    then Some(p.pendingFrame[tx.sender].0) else None
  }

  predicate FrameConflict(p: Pool, tx: Tx) {
    tx.sender in p.pendingFrame && p.pendingFrame[tx.sender].0 != tx && p.pendingFrame[tx.sender].1 != tx.nonce
  }

  /** The reservation the replacement releases, when it has the same paymaster. */
  function Released(p: Pool, tx: Tx, r: Reservation): Option<Reservation> {
    match OldFrame(p, tx)
    case None => None
    case Some(o) =>
      if o in p.book.sponsors && p.book.sponsors[o].paymaster == r.paymaster then Some(p.book.sponsors[o]) else None
  }

  function PaymasterGate(p: Pool, tx: Tx, r: Reservation): Option<Error> {
    var prior := Released(p, tx, r);
    var count := Get0(p.book.noncanonical, r.paymaster);
    var pending := if prior.Some? && !prior.value.canonical then SatSub(count, 1) else count;
    var total := Get0(p.book.reserved, r.paymaster);
    var reserved := if prior.Some? then SatSub(total, prior.value.cost) else total;
    if !r.canonical && pending >= MAX_PENDING_NONCANONICAL then Some(FrameTxNonCanonicalPaymasterLimit)
    else if SatSub(r.balance, reserved) < r.cost then Some(FrameTxPaymasterUnderfunded)
    else None
  }

  function FrameGate(p: Pool, tx: Tx, reservation: Option<Reservation>): Option<Error> {
    if FrameConflict(p, tx) then Some(FrameTxSenderAlreadyPending)
    else if reservation.Some? then PaymasterGate(p, tx, reservation.value)
    else None
  }

  // ---------------------------------------------------------------- insertion

  /** An insertion request, and what the callers of the pool guarantee about it. */
  datatype Request = Request(tx: Tx, reservation: Option<Reservation>, admission: Option<SenderAdmission>, broadcast: bool)

  predicate Proper(q: Request) {
    (q.admission.Some? || q.tx.kind.Frame?) && (q.reservation.Some? ==> q.reservation.value.balance <= U256_MAX)
  }

  /** A blob transaction finds its bundle, and is not pooled already. */
  predicate Supplied(p: Pool, tx: Tx) { tx.kind.Blob? ==> tx in Window(p) }

  /** The verdict on a request; it looks at the pool and changes nothing. */
  ghost function Verdict(p: Pool, q: Request): Option<Error> {
    if q.admission.Some? && CheckAdmission(p, q.tx, q.admission.value).Some? then CheckAdmission(p, q.tx, q.admission.value)
    else if q.tx.kind.Frame? then FrameGate(p, q.tx, q.reservation)
    else None
  }

  function FreeSlot(p: Pool, k: Slot): Pool { if k in p.index then Remove(p, p.index[k]) else p }

  function Kept(order: seq<Tx>, txs: set<Tx>): seq<Tx> {
    if order == [] then []
    else Kept(order[..|order| - 1], txs) + if order[|order| - 1] in txs then [order[|order| - 1]] else []
  }

  function Prune(p: Pool): Pool {
    if |p.order| > p.maxSize + p.maxSize / 2 then p.(order := Kept(p.order, p.txs)) else p
  }

  function Insert(p: Pool, q: Request): Pool {
    var tx := q.tx;
    p.(txs := p.txs + {tx},
       index := p.index[SlotOf(tx) := tx],
       order := if tx.kind.Blob? then p.order else p.order + [tx],
       broadcast := if q.broadcast then p.broadcast + {tx} else p.broadcast,
       hidden := if q.broadcast then p.hidden else p.hidden + {tx},
       pendingFrame := if tx.kind.Frame? then p.pendingFrame[tx.sender := (tx, tx.nonce)] else p.pendingFrame,
       book := if tx.kind.Frame? && q.reservation.Some? then Charge(p.book, tx, q.reservation.value) else p.book)
  }

  /** Making room: regular transactions go in arrival order, blob transactions worst first. */
  ghost predicate MakesRoom(p: Pool, q: Request, evicted: seq<Tx>, r: Pool) {
    if q.tx.kind.Blob? then BlobEviction(p, evicted, r) else r == EvictRegular(p)
  }

  /** An accepted request: free the slot, prune the order queue, make room, insert. */
  ghost predicate Accepts(p: Pool, q: Request, evicted: seq<Tx>, r: Pool) {
    exists room: Pool :: MakesRoom(Prune(FreeSlot(p, SlotOf(q.tx))), q, evicted, room) && r == Insert(room, q)
  }
}
