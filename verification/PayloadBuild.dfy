/** Filling a block: which transactions go in, and what the block's counters say about them
    (crates/blockchain/payload.rs, fill_transactions and the apply functions). */
module PayloadBuild {
  import opened Options
  import opened Numbers
  import opened PayloadQueue

  const TX_GAS_COST: nat := 21_000
  const TX_MAX_GAS_LIMIT_AMSTERDAM: nat := 0x100_0000
  const GAS_PER_BLOB: nat := 0x2_0000
  const MAX_RLP_BLOCK_SIZE: nat := 8_388_608

  /** What is fixed while one block is built. */
  datatype Env = Env(
    gasLimit: nat,
    amsterdam: bool,
    osaka: bool,
    eip155: bool,
    hegota: bool,
    timestamp: nat,
    maxBlobs: nat,
    sidecars: set<Tx>,
    staleSidecars: set<Tx>)

  datatype Report = Report(gasUsed: nat, stateGas: nat, gasSpent: nat)

  datatype Execution = Executed(report: Report) | Rejected(nonceMismatch: bool, deterministic: bool)

  /** An included transaction with its price and what its execution reported. */
  datatype Entry = Entry(tx: Tx, tip: nat, report: Report)

  /** The counters of a block under construction. */
  datatype Totals = Totals(
    remaining: nat,
    cumulative: nat,
    regular: nat,
    state: nat,
    value: nat,
    blobGas: nat,
    bundle: nat)

  function SatAdd(a: nat, b: nat): nat { if a + b <= U64_MAX then a + b else U64_MAX }

  // ---------------------------------------------------------------- what the counters stand for

  function Total(entries: seq<Entry>, f: Entry -> nat): nat {
    if entries == [] then 0 else Total(entries[..|entries| - 1], f) + f(entries[|entries| - 1])
  }

  function UsedBy(e: Entry): nat { e.report.gasUsed }
  function StateBy(e: Entry): nat { e.report.stateGas }
  function RegularBy(e: Entry): nat { SatSub(e.report.gasUsed, e.report.stateGas) }
  function SpentBy(e: Entry): nat { e.report.gasSpent }
  function PaidBy(e: Entry): nat { e.report.gasSpent * e.tip }
  function BlobsBy(e: Entry): nat { if e.tx.isBlob then e.tx.blobs else 0 }

  /** The gas a block counts: the larger dimension since Amsterdam, the sum before. */
  function BlockGas(env: Env, entries: seq<Entry>): nat {
    if env.amsterdam then Max(Total(entries, RegularBy), Total(entries, StateBy)) else Total(entries, UsedBy)
  }

  /** The counters that belong to a list of included transactions. */
  function TotalsOf(env: Env, entries: seq<Entry>): Totals {
    Totals(SatSub(env.gasLimit, BlockGas(env, entries)), Total(entries, SpentBy), Total(entries, RegularBy),
           Total(entries, StateBy), Total(entries, PaidBy), GAS_PER_BLOB * Total(entries, BlobsBy), Total(entries, BlobsBy))
  }

  /** The limits every block under construction respects; state gas is a part of the gas used. */
  ghost predicate WithinLimits(env: Env, entries: seq<Entry>) {
    && BlockGas(env, entries) <= env.gasLimit && Total(entries, BlobsBy) <= env.maxBlobs
    && forall e | e in entries :: e.report.stateGas <= e.report.gasUsed
  }

  lemma {:induction false} TotalSnoc(entries: seq<Entry>, e: Entry, f: Entry -> nat)
    ensures Total(entries + [e], f) == Total(entries, f) + f(e)
  {
    assert (entries + [e])[..|entries|] == entries;
  }

  lemma {:induction false} TotalsSnoc(env: Env, entries: seq<Entry>, e: Entry)
    ensures Total(entries + [e], UsedBy) == Total(entries, UsedBy) + UsedBy(e)
    ensures Total(entries + [e], StateBy) == Total(entries, StateBy) + StateBy(e)
    ensures Total(entries + [e], RegularBy) == Total(entries, RegularBy) + RegularBy(e)
    ensures Total(entries + [e], SpentBy) == Total(entries, SpentBy) + SpentBy(e)
    ensures Total(entries + [e], PaidBy) == Total(entries, PaidBy) + PaidBy(e)
    ensures Total(entries + [e], BlobsBy) == Total(entries, BlobsBy) + BlobsBy(e)
  {
    TotalSnoc(entries, e, UsedBy);
    TotalSnoc(entries, e, StateBy);
    TotalSnoc(entries, e, RegularBy);
    TotalSnoc(entries, e, SpentBy);
    TotalSnoc(entries, e, PaidBy);
    TotalSnoc(entries, e, BlobsBy);
  }

  // ---------------------------------------------------------------- one transaction

  /** The inclusion check in both gas dimensions against the worst case. */
  predicate Allowed(env: Env, t: Totals, tx: Tx) {
    Min(tx.gasLimit, TX_MAX_GAS_LIMIT_AMSTERDAM) <= SatSub(env.gasLimit, t.regular) && tx.gasLimit <= SatSub(env.gasLimit, t.state)
  }

  /** The report of an execution that does not overflow the block, if it is one. */
  function Kept(env: Env, t: Totals, x: Execution): Option<Report> {
    if x.Rejected? then None
    else
      var regular := SatAdd(t.regular, SatSub(x.report.gasUsed, x.report.stateGas));
      var state := SatAdd(t.state, x.report.stateGas);
      if env.amsterdam && Max(regular, state) > env.gasLimit then None else Some(x.report)
  }

  predicate BlobFits(env: Env, t: Totals, tx: Tx) {
    tx in env.sidecars && !(env.osaka && tx in env.staleSidecars) && t.blobGas / GAS_PER_BLOB + tx.blobs <= env.maxBlobs
  }

  /** Whether a transaction goes in, and with what report. */
  function Outcome(env: Env, t: Totals, tx: Tx, x: Execution): Option<Report> {
    if env.amsterdam && !Allowed(env, t, tx) then None
    else if tx.isBlob && !BlobFits(env, t, tx) then None
    else Kept(env, t, x)
  }

  /** What the virtual machine guarantees. */
  ghost predicate Sound(vm: (seq<Entry>, Tx) -> Execution) {
    forall s: seq<Entry>, tx: Tx :: vm(s, tx).Executed? ==> vm(s, tx).report.gasUsed <= tx.gasLimit && vm(s, tx).report.stateGas <= vm(s, tx).report.gasUsed
  }

  /** The counters after an included transaction, as the code computes them. */
  function Counted(env: Env, t: Totals, head: Head, r: Report): Totals {
    var regular := SatAdd(t.regular, SatSub(r.gasUsed, r.stateGas));
    var state := SatAdd(t.state, r.stateGas);
    Totals(if env.amsterdam then SatSub(env.gasLimit, Max(regular, state)) else SatSub(t.remaining, r.gasUsed),
           t.cumulative + r.gasSpent, regular, state, t.value + r.gasSpent * head.tip,
           if head.tx.isBlob then t.blobGas + head.tx.blobs * GAS_PER_BLOB else t.blobGas,
           if head.tx.isBlob then t.bundle + head.tx.blobs else t.bundle)
  }

  /** Counting an accepted transaction gives the counters of the longer list, within the limits,
      and no addition saturates. */
  lemma {:induction false} CountedTotals(env: Env, entries: seq<Entry>, head: Head, x: Execution)
    requires env.gasLimit < U64_MAX && WithinLimits(env, entries)
    requires x.Executed? ==> x.report.gasUsed <= head.tx.gasLimit && x.report.stateGas <= x.report.gasUsed
    requires env.amsterdam || head.tx.gasLimit <= TotalsOf(env, entries).remaining
    requires Outcome(env, TotalsOf(env, entries), head.tx, x).Some?
    ensures var more := entries + [Entry(head.tx, head.tip, x.report)];
            Counted(env, TotalsOf(env, entries), head, x.report) == TotalsOf(env, more) && WithinLimits(env, more)
  {
    var e := Entry(head.tx, head.tip, x.report);
    TotalsSnoc(env, entries, e);
    RegularAndState(entries);
    assert GAS_PER_BLOB * Total(entries, BlobsBy) / GAS_PER_BLOB == Total(entries, BlobsBy);
  }

  lemma {:induction false} RegularAndState(entries: seq<Entry>)
    requires forall e | e in entries :: e.report.stateGas <= e.report.gasUsed
    ensures Total(entries, UsedBy) == Total(entries, RegularBy) + Total(entries, StateBy)
  {
    if entries != [] {
      assert entries[|entries| - 1] in entries && forall e | e in entries[..|entries| - 1] :: e in entries;
      RegularAndState(entries[..|entries| - 1]);
    }
  }

  // ---------------------------------------------------------------- the build context

  class PayloadBuildContext {
    const env: Env
    var remainingGas: nat
    var cumulativeGasSpent: nat
    var blockRegularGasUsed: nat
    var blockStateGasUsed: nat
    var blockValue: nat
    var blobGasUsed: nat
    var bundleBlobs: nat
    var payloadSize: nat
    var entries: seq<Entry>

    function View(): Totals
      reads this
    {
      Totals(remainingGas, cumulativeGasSpent, blockRegularGasUsed, blockStateGasUsed, blockValue, blobGasUsed, bundleBlobs)
    }

    /** Every counter is the total over the included transactions, and within its limit. */
    ghost predicate Valid()
      reads this
    {
      env.gasLimit < U64_MAX && View() == TotalsOf(env, entries) && WithinLimits(env, entries)
    }

    constructor (e: Env, size: nat)
      requires e.gasLimit < U64_MAX
      ensures Valid() && env == e && entries == [] && payloadSize == size
    {
      env, remainingGas, payloadSize, entries := e, e.gasLimit, size, [];
      cumulativeGasSpent, blockRegularGasUsed, blockStateGasUsed, blockValue, blobGasUsed, bundleBlobs := 0, 0, 0, 0, 0, 0;
    }

    function GasUsed(): nat
      reads this
      requires Valid()
      ensures GasUsed() == BlockGas(env, entries) <= env.gasLimit
    {
      if env.amsterdam then Max(blockRegularGasUsed, blockStateGasUsed) else env.gasLimit - remainingGas
    }

    /** Executes a transaction and counts it; an execution that overflows the block is undone. */
    method ApplyPlain(head: Head, x: Execution) returns (r: Option<Report>)
      modifies this
      ensures payloadSize == old(payloadSize) && entries == old(entries)
      ensures r == Kept(env, old(View()), x)
      ensures View() == if r.None? then old(View())
                        else Counted(env, old(View()), head, r.value).(blobGas := old(blobGasUsed), bundle := old(bundleBlobs))
    {
      if x.Rejected? { return None; }
      cumulativeGasSpent := cumulativeGasSpent + x.report.gasSpent;
      var newRegular := SatAdd(blockRegularGasUsed, SatSub(x.report.gasUsed, x.report.stateGas));
      var newState := SatAdd(blockStateGasUsed, x.report.stateGas);
      if env.amsterdam && Max(newRegular, newState) > env.gasLimit {
        cumulativeGasSpent := SatSub(cumulativeGasSpent, x.report.gasSpent);
        return None;
      }
      blockRegularGasUsed, blockStateGasUsed := newRegular, newState;
      if env.amsterdam {
        remainingGas := SatSub(env.gasLimit, Max(newRegular, newState));
      } else {
        remainingGas := SatSub(remainingGas, x.report.gasUsed);
      }
      blockValue := blockValue + x.report.gasSpent * head.tip;
      return Some(x.report);
    }

    method ApplyBlob(head: Head, x: Execution) returns (r: Option<Report>)
      requires head.tx.isBlob
      modifies this
      ensures payloadSize == old(payloadSize) && entries == old(entries)
      ensures r == if BlobFits(env, old(View()), head.tx) then Kept(env, old(View()), x) else None
      ensures View() == if r.None? then old(View()) else Counted(env, old(View()), head, r.value)
    {
      if head.tx !in env.sidecars || (env.osaka && head.tx in env.staleSidecars) { return None; }
      if blobGasUsed / GAS_PER_BLOB + head.tx.blobs > env.maxBlobs { return None; }
      r := ApplyPlain(head, x);
      if r.Some? {
        blobGasUsed := blobGasUsed + head.tx.blobs * GAS_PER_BLOB;
        bundleBlobs := bundleBlobs + head.tx.blobs;
      }
    }

    method Grow(size: nat)
      requires Valid()
      modifies this`payloadSize
      ensures Valid() && payloadSize == old(payloadSize) + size
    {
      payloadSize := payloadSize + size;
    }

    /** Runs a transaction if both gas dimensions and the blob limit allow it. */
    method Execute(head: Head, x: Execution) returns (r: Option<Report>)
      modifies this
      ensures payloadSize == old(payloadSize) && entries == old(entries)
      ensures r == Outcome(env, old(View()), head.tx, x)
      ensures View() == if r.None? then old(View()) else Counted(env, old(View()), head, r.value)
    {
      if env.amsterdam && !Allowed(env, View(), head.tx) { return None; }
      if head.tx.isBlob { r := ApplyBlob(head, x); } else { r := ApplyPlain(head, x); }
    }

    /** Tries one transaction: it goes in with its report, or leaves no trace. */
    method ApplyTx(head: Head, x: Execution) returns (ok: bool)
      requires Valid() && (env.amsterdam || head.tx.gasLimit <= remainingGas)
      requires x.Executed? ==> x.report.gasUsed <= head.tx.gasLimit && x.report.stateGas <= x.report.gasUsed
      modifies this
      ensures Valid() && payloadSize == old(payloadSize)
      ensures ok <==> Outcome(env, old(View()), head.tx, x).Some?
      ensures if ok then x.Executed? && entries == old(entries) + [Entry(head.tx, head.tip, x.report)]
              else entries == old(entries) && View() == old(View())
    {
      ghost var t := View();
      if Outcome(env, t, head.tx, x).Some? { CountedTotals(env, entries, head, x); }
      var r := Execute(head, x);
      if r.None? { return false; }
      assert r == Some(x.report);
      entries := entries + [Entry(head.tx, head.tip, r.value)];
      return true;
    }
  }

  // ---------------------------------------------------------------- the fill loop

  /** A sender's included transactions of one of the two queues, in order. */
  function Included(entries: seq<Entry>, blob: bool, a: Address): seq<Tx> {
    if entries == [] then []
    else
      var e := entries[|entries| - 1];
      Included(entries[..|entries| - 1], blob, a) + if e.tx.isBlob == blob && e.tx.sender == a then [e.tx] else []
  }

  /** What a sender had waiting is what went in, followed by what still waits; once its queue is
      given up, what went in is a first part of it. */
  ghost predicate Account(start: map<Address, seq<Tx>>, now: map<Address, seq<Tx>>, got: seq<Tx>, a: Address) {
    if a in now then a in start && start[a] == got + now[a]
    else if a in start then got <= start[a]
    else got == []
  }

  ghost predicate Accounts(start: map<Address, seq<Tx>>, now: map<Address, seq<Tx>>, entries: seq<Entry>, blob: bool) {
    forall a: Address :: Account(start, now, Included(entries, blob, a), a)
  }

  ghost predicate OfKind(contents: map<Address, seq<Tx>>, blob: bool) {
    forall a | a in contents :: forall tx | tx in contents[a] :: tx.isBlob == blob
  }

  /** Transactions a payload drops for good before trying them. */
  predicate Gated(env: Env, tx: Tx) {
    || (tx.isProtected && !env.eip155)
    || (tx.isFrame && !env.hegota)
    || (tx.isFrame && tx.expiry.Some? && tx.expiry.value < env.timestamp)
  }

  predicate Reaches(env: Env, t: Totals, tx: Tx) {
    (!env.amsterdam || Allowed(env, t, tx)) && (!tx.isBlob || BlobFits(env, t, tx))
  }

  /** Which failed transactions also leave the pool: a frame transaction unless only its nonce is
      early, another one if it can never become valid or its sidecar has gone stale. */
  predicate Evicts(env: Env, t: Totals, tx: Tx, x: Execution) {
    if tx.isFrame then !(Reaches(env, t, tx) && x.Rejected? && x.nonceMismatch)
    else
      || (Reaches(env, t, tx) && x.Rejected? && x.deterministic)
      || (tx.isBlob && (!env.amsterdam || Allowed(env, t, tx)) && tx in env.sidecars && env.osaka && tx in env.staleSidecars)
  }

  lemma {:induction false} Dropped(start: map<Address, seq<Tx>>, now: map<Address, seq<Tx>>, entries: seq<Entry>, blob: bool, gone: set<Address>)
    requires Accounts(start, now, entries, blob)
    ensures Accounts(start, now - gone, entries, blob)
  {
    forall a: Address ensures Account(start, now - gone, Included(entries, blob, a), a) {
      assert Account(start, now, Included(entries, blob, a), a);
    }
  }

  lemma {:induction false} Advanced(start: map<Address, seq<Tx>>, now: map<Address, seq<Tx>>, entries: seq<Entry>, blob: bool, e: Entry)
    requires Accounts(start, now, entries, blob) && e.tx.isBlob == blob
    requires e.tx.sender in now && now[e.tx.sender] != [] && now[e.tx.sender][0] == e.tx
    ensures Accounts(start, Shifted(now, e.tx.sender), entries + [e], blob)
  {
    forall a: Address ensures Account(start, Shifted(now, e.tx.sender), Included(entries + [e], blob, a), a) {
      assert Account(start, now, Included(entries, blob, a), a);
      assert (entries + [e])[..|entries|] == entries;
      if a == e.tx.sender {
        assert now[a] == [e.tx] + now[a][1..];
        assert start[a] == Included(entries, blob, a) + [e.tx] + now[a][1..];
      }
    }
  }

  lemma {:induction false} Untouched(start: map<Address, seq<Tx>>, now: map<Address, seq<Tx>>, entries: seq<Entry>, blob: bool, e: Entry)
    requires Accounts(start, now, entries, blob) && e.tx.isBlob != blob
    ensures Accounts(start, now, entries + [e], blob)
  {
    forall a: Address ensures Account(start, now, Included(entries + [e], blob, a), a) {
      assert Account(start, now, Included(entries, blob, a), a);
      assert (entries + [e])[..|entries|] == entries;
      assert Included(entries, blob, a) + [] == Included(entries, blob, a);
    }
  }

  /** The better of the two queues' heads; a tie goes to the plain one. */
  function Choose(plain: Option<Head>, blob: Option<Head>): (r: Option<Head>)
    ensures r.None? <==> plain.None? && blob.None?
    ensures r.Some? ==> (r == plain || r == blob) && (plain.Some? ==> Leq(r.value, plain.value)) && (blob.Some? ==> Leq(r.value, blob.value))
    ensures r.Some? && plain.Some? && r != plain ==> Cmp(r.value, plain.value) == Less
  {
    if plain.None? then blob
    else if blob.None? then (CmpOrders(plain.value, plain.value, plain.value); plain)
    else
      CmpOrders(plain.value, blob.value, plain.value);
      if Cmp(blob.value, plain.value) == Less then blob else plain
  }

  // ---------------------------------------------------------------- the rounds, as values

  /** A block under construction and what both queues still hold. */
  datatype Fill = Fill(
    entries: seq<Entry>,
    size: nat,
    plain: map<Address, seq<Tx>>,
    blobs: map<Address, seq<Tx>>,
    removed: seq<Tx>)

  ghost predicate IsHead(contents: map<Address, seq<Tx>>, h: Head) {
    h.tx.sender in contents && contents[h.tx.sender] != [] && contents[h.tx.sender][0] == h.tx && h.tx.tip == Some(h.tip)
  }

  /** No sender's next transaction, of either kind, comes before this one; a blob transaction also
      comes before every plain one. */
  ghost predicate BestHead(s: Fill, h: Head) {
    && IsHead(if h.tx.isBlob then s.blobs else s.plain, h)
    && (forall o: Head | IsHead(s.plain, o) :: Leq(h, o) && (h.tx.isBlob ==> Cmp(h, o) == Less))
    && (forall o: Head | IsHead(s.blobs, o) :: Leq(h, o))
  }

  /** The blob queue is given up once the block holds all the blobs it may. */
  function Trimmed(env: Env, s: Fill): Fill {
    if Total(s.entries, BlobsBy) >= env.maxBlobs then s.(blobs := map[]) else s
  }

  function Reservation(env: Env, tx: Tx): nat {
    if env.amsterdam then Min(tx.gasLimit, TX_MAX_GAS_LIMIT_AMSTERDAM) else tx.gasLimit
  }

  function Room(env: Env, s: Fill): nat { TotalsOf(env, s.entries).remaining }

  predicate Oversized(env: Env, entries: seq<Entry>, size: nat, tx: Tx) {
    TotalsOf(env, entries).remaining >= Reservation(env, tx) && env.osaka && size + tx.size > MAX_RLP_BLOCK_SIZE
  }

  /** A block under construction and the queue it takes a transaction from. */
  datatype Side = Side(entries: seq<Entry>, size: nat, contents: map<Address, seq<Tx>>, removed: seq<Tx>)

  function Moved(contents: map<Address, seq<Tx>>, a: Address): map<Address, seq<Tx>> {
    if a in contents && contents[a] != [] then Shifted(contents, a) else contents
  }

  /** An execution includes the transaction, or gives its sender up. */
  function Ran(env: Env, vm: (seq<Entry>, Tx) -> Execution, s: Side, h: Head): Side {
    var t, x := TotalsOf(env, s.entries), vm(s.entries, h.tx);
    var r := Outcome(env, t, h.tx, x);
    Side(if r.Some? then s.entries + [Entry(h.tx, h.tip, r.value)] else s.entries,
         s.size,
         if r.Some? then Moved(s.contents, h.tx.sender) else s.contents - {h.tx.sender},
         if r.None? && Evicts(env, t, h.tx, x) then s.removed + [h.tx] else s.removed)
  }

  /** A gate drops the transaction for good, and anything else is executed. */
  function Passed(env: Env, vm: (seq<Entry>, Tx) -> Execution, s: Side, h: Head): Side {
    if Gated(env, h.tx) then Side(s.entries, s.size, s.contents - {h.tx.sender}, s.removed + [h.tx])
    else Ran(env, vm, s, h)
  }

  /** One try: too little gas gives the sender up. */
  function TriedOn(env: Env, vm: (seq<Entry>, Tx) -> Execution, s: Side, h: Head): Side {
    if TotalsOf(env, s.entries).remaining < Reservation(env, h.tx) then s.(contents := s.contents - {h.tx.sender})
    else Passed(env, vm, s.(size := s.size + h.tx.size), h)
  }

  function Tried(env: Env, vm: (seq<Entry>, Tx) -> Execution, s: Fill, h: Head): Fill {
    var side := TriedOn(env, vm, Side(s.entries, s.size, if h.tx.isBlob then s.blobs else s.plain, s.removed), h);
    Fill(side.entries, side.size, if h.tx.isBlob then s.plain else side.contents,
         if h.tx.isBlob then side.contents else s.blobs, side.removed)
  }

  /** The rounds so far: each tried the best head there was. */
  ghost predicate Rounds(env: Env, vm: (seq<Entry>, Tx) -> Execution, s: Fill, heads: seq<Head>, s': Fill)
    decreases |heads|
  {
    if heads == [] then s' == s
    else
      var front, h := heads[..|heads| - 1], heads[|heads| - 1];
      exists b: Fill :: Rounds(env, vm, s, front, b) && Round(env, vm, b, h, s')
  }

  ghost predicate Round(env: Env, vm: (seq<Entry>, Tx) -> Execution, b: Fill, h: Head, s': Fill) {
    && Room(env, b) >= TX_GAS_COST && BestHead(Trimmed(env, b), h) && !Oversized(env, b.entries, b.size, h.tx)
    && s' == Tried(env, vm, Trimmed(env, b), h)
  }

  /** Filling stops for want of gas, for want of transactions, or at a transaction that would make
      the block too large. */
  ghost predicate Full(env: Env, s: Fill) {
    || Room(env, s) < TX_GAS_COST
    || (Trimmed(env, s).plain == map[] && Trimmed(env, s).blobs == map[])
    || exists h: Head :: BestHead(Trimmed(env, s), h) && Oversized(env, s.entries, s.size, h.tx)
  }

  lemma {:induction false} PeekIsBest(heads: seq<Head>, txs: map<Address, seq<Tx>>, contents: map<Address, seq<Tx>>, h: Head, strict: bool)
    requires Heads(heads, txs, contents) && forall i | 0 <= i < |heads| :: Leq(h, heads[i]) && (strict ==> Cmp(h, heads[i]) == Less)
    ensures forall o: Head | IsHead(contents, o) :: Leq(h, o) && (strict ==> Cmp(h, o) == Less)
  {
    forall o: Head | IsHead(contents, o) ensures Leq(h, o) && (strict ==> Cmp(h, o) == Less) {
      assert Leads(heads, o.tx.sender);
      var i :| 0 <= i < |heads| && heads[i].tx.sender == o.tx.sender;
      assert HeadAt(heads[i], txs, contents);
      assert heads[i] == o;
    }
  }

  /** What becomes of a head that is tried. */
  datatype Decision = Skipped | TooLarge | Barred | Refused(evicted: bool) | Taken

  ghost predicate Decided(env: Env, t: Totals, size: nat, tx: Tx, x: Execution, d: Decision) {
    var short := t.remaining < Reservation(env, tx);
    var large := !short && env.osaka && size + tx.size > MAX_RLP_BLOCK_SIZE;
    && (d.Skipped? <==> short)
    && (d.TooLarge? <==> large)
    && (d.Barred? <==> !short && !large && Gated(env, tx))
    && (d.Taken? <==> !short && !large && !Gated(env, tx) && Outcome(env, t, tx, x).Some?)
    && (d.Refused? ==> d.evicted == Evicts(env, t, tx, x))
  }

  /** What a decision does to the block and to the queue the head comes from. */
  function Applied(s: Side, h: Head, x: Execution, d: Decision): Side {
    Side(if d.Taken? && x.Executed? then s.entries + [Entry(h.tx, h.tip, x.report)] else s.entries,
         if d.Skipped? || d.TooLarge? then s.size else s.size + h.tx.size,
         if d.TooLarge? then s.contents else if d.Taken? then Moved(s.contents, h.tx.sender) else s.contents - {h.tx.sender},
         if d.Barred? || (d.Refused? && d.evicted) then s.removed + [h.tx] else s.removed)
  }

  lemma {:induction false} AppliedIs(env: Env, vm: (seq<Entry>, Tx) -> Execution, s: Side, h: Head, d: Decision)
    requires Decided(env, TotalsOf(env, s.entries), s.size, h.tx, vm(s.entries, h.tx), d)
    ensures d.TooLarge? <==> Oversized(env, s.entries, s.size, h.tx)
    ensures Applied(s, h, vm(s.entries, h.tx), d) == if d.TooLarge? then s else TriedOn(env, vm, s, h)
  {}

  /** Tries the head of a queue: the sender advances when it goes in, and is given up for this
      block otherwise. */
  method TryHead(ctx: PayloadBuildContext, q: TransactionQueue, vm: (seq<Entry>, Tx) -> Execution) returns (d: Decision)
    requires ctx.Valid() && q.Valid() && q.heads != [] && Sound(vm)
    modifies ctx, q
    ensures ctx.Valid() && q.Valid()
    ensures var h, x := old(q.heads)[0], vm(old(ctx.entries), old(q.heads)[0].tx);
            && Decided(ctx.env, old(ctx.View()), old(ctx.payloadSize), h.tx, x, d)
            && h.tx.sender in old(q.contents) && old(q.contents)[h.tx.sender] != [] && (d.Taken? ==> x.Executed?)
            && ctx.entries == (if d.Taken? then old(ctx.entries) + [Entry(h.tx, h.tip, x.report)] else old(ctx.entries))
            && ctx.payloadSize == (if d.Skipped? || d.TooLarge? then old(ctx.payloadSize) else old(ctx.payloadSize) + h.tx.size)
            && q.contents == (if d.TooLarge? then old(q.contents) else if d.Taken? then Shifted(old(q.contents), h.tx.sender)
                              else old(q.contents) - {h.tx.sender})
    ensures !d.TooLarge? ==> Waiting(q.contents) < old(Waiting(q.contents))
  {
    var head := q.heads[0];
    var tx := head.tx;
    assert HeadAt(head, q.txs, q.contents);
    if ctx.remainingGas < Reservation(ctx.env, tx) {
      q.Pop();
      return Skipped;
    }
    if ctx.env.osaka && ctx.payloadSize + tx.size > MAX_RLP_BLOCK_SIZE { return TooLarge; }
    ctx.Grow(tx.size);
    if Gated(ctx.env, tx) {
      q.Pop();
      return Barred;
    }
    var x := vm(ctx.entries, tx);
    var evicts := Evicts(ctx.env, ctx.View(), tx, x);
    var ok := ctx.ApplyTx(head, x);
    if ok {
      var shifted := q.Shift();
      return Taken;
    }
    q.Pop();
    return Refused(evicts);
  }

  /** Both queues hold lines of their own kind. */
  ghost predicate Ready(ctx: PayloadBuildContext, plain: TransactionQueue, blobs: TransactionQueue)
    reads ctx, plain, blobs
  {
    ctx.Valid() && plain.Valid() && blobs.Valid() && OfKind(plain.contents, false) && OfKind(blobs.contents, true)
  }

  ghost function State(ctx: PayloadBuildContext, plain: TransactionQueue, blobs: TransactionQueue, removed: seq<Tx>): Fill
    reads ctx, plain, blobs
  {
    Fill(ctx.entries, ctx.payloadSize, plain.contents, blobs.contents, removed)
  }

  lemma {:induction false} OfKindShrinks(contents: map<Address, seq<Tx>>, a: Address, blob: bool)
    requires OfKind(contents, blob)
    ensures OfKind(contents - {a}, blob)
    ensures a in contents && contents[a] != [] ==> OfKind(Shifted(contents, a), blob)
  {}

  lemma {:induction false} TriedKinds(env: Env, vm: (seq<Entry>, Tx) -> Execution, s: Fill, h: Head)
    requires OfKind(s.plain, false) && OfKind(s.blobs, true)
    ensures OfKind(Tried(env, vm, s, h).plain, false) && OfKind(Tried(env, vm, s, h).blobs, true)
  {
    OfKindShrinks(s.plain, h.tx.sender, false);
    OfKindShrinks(s.blobs, h.tx.sender, true);
  }

  /** One round of the loop, or its end. */
  method FillOne(ctx: PayloadBuildContext, plain: TransactionQueue, blobs: TransactionQueue, removed: seq<Tx>,
                 vm: (seq<Entry>, Tx) -> Execution) returns (stop: bool, gone: seq<Tx>, ghost head: Option<Head>)
    requires plain != blobs && Sound(vm) && Ready(ctx, plain, blobs) && ctx.remainingGas >= TX_GAS_COST
    requires Total(ctx.entries, BlobsBy) < ctx.env.maxBlobs || blobs.contents == map[]
    modifies ctx, plain, blobs
    ensures Ready(ctx, plain, blobs)
    ensures stop ==> State(ctx, plain, blobs, gone) == old(State(ctx, plain, blobs, removed)) && Full(ctx.env, State(ctx, plain, blobs, gone))
    ensures !stop ==> head.Some? && Round(ctx.env, vm, old(State(ctx, plain, blobs, removed)), head.value, State(ctx, plain, blobs, gone))
    ensures !stop ==> Waiting(plain.contents) + Waiting(blobs.contents) < old(Waiting(plain.contents) + Waiting(blobs.contents))
  {
    ghost var s := State(ctx, plain, blobs, removed);
    assert Trimmed(ctx.env, s) == s;
    var choice := Choose(plain.Peek(), blobs.Peek());
    if choice.None? { return true, removed, None; }
    head := choice;
    ChoiceIsBest(plain, blobs, choice.value, s);
    TriedKinds(ctx.env, vm, s, choice.value);
    stop, gone := TryChoice(ctx, plain, blobs, removed, choice.value, vm);
  }

  /** Tries a chosen head on the queue it heads. */
  method TryChoice(ctx: PayloadBuildContext, plain: TransactionQueue, blobs: TransactionQueue, removed: seq<Tx>, h: Head,
                   vm: (seq<Entry>, Tx) -> Execution) returns (stop: bool, gone: seq<Tx>)
    requires plain != blobs && Sound(vm) && ctx.Valid() && plain.Valid() && blobs.Valid()
    requires if h.tx.isBlob then blobs.heads != [] && blobs.heads[0] == h else plain.heads != [] && plain.heads[0] == h
    modifies ctx, plain, blobs
    ensures ctx.Valid() && plain.Valid() && blobs.Valid()
    ensures stop == Oversized(ctx.env, old(ctx.entries), old(ctx.payloadSize), h.tx)
    ensures State(ctx, plain, blobs, gone) ==
            if stop then old(State(ctx, plain, blobs, removed)) else Tried(ctx.env, vm, old(State(ctx, plain, blobs, removed)), h)
    ensures !stop ==> Waiting(plain.contents) + Waiting(blobs.contents) < old(Waiting(plain.contents) + Waiting(blobs.contents))
  {
    ghost var s := State(ctx, plain, blobs, removed);
    if h.tx.isBlob {
      stop, gone := TryOn(ctx, blobs, removed, vm);
      TriedBlob(ctx.env, vm, s, h);
    } else {
      stop, gone := TryOn(ctx, plain, removed, vm);
      TriedPlain(ctx.env, vm, s, h);
    }
  }

  lemma {:induction false} TriedBlob(env: Env, vm: (seq<Entry>, Tx) -> Execution, s: Fill, h: Head)
    requires h.tx.isBlob
    ensures var side := TriedOn(env, vm, Side(s.entries, s.size, s.blobs, s.removed), h);
            Tried(env, vm, s, h) == Fill(side.entries, side.size, s.plain, side.contents, side.removed)
  {}

  lemma {:induction false} TriedPlain(env: Env, vm: (seq<Entry>, Tx) -> Execution, s: Fill, h: Head)
    requires !h.tx.isBlob
    ensures var side := TriedOn(env, vm, Side(s.entries, s.size, s.plain, s.removed), h);
            Tried(env, vm, s, h) == Fill(side.entries, side.size, side.contents, s.blobs, side.removed)
  {}

  /** Tries the head of one queue and notes which transactions leave the pool for good. */
  method TryOn(ctx: PayloadBuildContext, q: TransactionQueue, removed: seq<Tx>, vm: (seq<Entry>, Tx) -> Execution)
    returns (stop: bool, gone: seq<Tx>)
    requires ctx.Valid() && q.Valid() && q.heads != [] && Sound(vm)
    modifies ctx, q
    ensures ctx.Valid() && q.Valid()
    ensures stop == Oversized(ctx.env, old(ctx.entries), old(ctx.payloadSize), old(q.heads)[0].tx)
    ensures var s := Side(old(ctx.entries), old(ctx.payloadSize), old(q.contents), removed);
            Side(ctx.entries, ctx.payloadSize, q.contents, gone) == if stop then s else TriedOn(ctx.env, vm, s, old(q.heads)[0])
    ensures !stop ==> Waiting(q.contents) < old(Waiting(q.contents))
  {
    ghost var s, h := Side(ctx.entries, ctx.payloadSize, q.contents, removed), q.heads[0];
    var tx := q.heads[0].tx;
    var d := TryHead(ctx, q, vm);
    stop := d.TooLarge?;
    gone := if d.Barred? || (d.Refused? && d.evicted) then removed + [tx] else removed;
    AppliedIs(ctx.env, vm, s, h, d);
    assert Side(ctx.entries, ctx.payloadSize, q.contents, gone) == Applied(s, h, vm(s.entries, h.tx), d);
  }

  lemma {:induction false} ChoiceIsBest(plain: TransactionQueue, blobs: TransactionQueue, h: Head, s: Fill)
    requires plain.Valid() && blobs.Valid() && OfKind(plain.contents, false) && OfKind(blobs.contents, true)
    requires s.plain == plain.contents && s.blobs == blobs.contents && Choose(plain.Peek(), blobs.Peek()) == Some(h)
    ensures BestHead(s, h)
    ensures Some(h) == plain.Peek() <==> !h.tx.isBlob
  {
    assert plain.Peek().Some? ==> plain.Peek().value.tx in plain.contents[plain.Peek().value.tx.sender];
    assert blobs.Peek().Some? ==> blobs.Peek().value.tx in blobs.contents[blobs.Peek().value.tx.sender];
    forall i | 0 <= i < |plain.heads| ensures Leq(h, plain.heads[i]) && (h.tx.isBlob ==> Cmp(h, plain.heads[i]) == Less) {
      LessTrans(h, plain.heads[0], plain.heads[i]);
    }
    forall i | 0 <= i < |blobs.heads| ensures Leq(h, blobs.heads[i]) { CmpOrders(h, blobs.heads[0], blobs.heads[i]); }
    PeekIsBest(plain.heads, plain.txs, plain.contents, h, h.tx.isBlob);
    PeekIsBest(blobs.heads, blobs.txs, blobs.contents, h, false);
  }

  /** The loop: the best head of either queue, one after the other, until the block is full. */
  method FillRounds(ctx: PayloadBuildContext, plain: TransactionQueue, blobs: TransactionQueue,
                    vm: (seq<Entry>, Tx) -> Execution) returns (removed: seq<Tx>, ghost heads: seq<Head>, ghost last: Fill)
    requires plain != blobs && Sound(vm) && Ready(ctx, plain, blobs)
    modifies ctx, plain, blobs
    ensures Ready(ctx, plain, blobs)
    ensures Rounds(ctx.env, vm, old(State(ctx, plain, blobs, [])), heads, last)
    ensures State(ctx, plain, blobs, removed) == last || State(ctx, plain, blobs, removed) == Trimmed(ctx.env, last)
    ensures Full(ctx.env, State(ctx, plain, blobs, removed))
  {
    removed, heads := [], [];
    ghost var start := State(ctx, plain, blobs, []);
    last := start;
    while ctx.remainingGas >= TX_GAS_COST
      invariant Ready(ctx, plain, blobs) && last == State(ctx, plain, blobs, removed)
      invariant Rounds(ctx.env, vm, start, heads, last)
      decreases Waiting(plain.contents) + Waiting(blobs.contents)
    {
      TrimQueue(ctx, blobs);
      assert State(ctx, plain, blobs, removed) == Trimmed(ctx.env, last);
      ghost var head: Option<Head>;
      var stop: bool;
      stop, removed, head := FillOne(ctx, plain, blobs, removed, vm);
      if stop { return; }
      RoundsSnoc(ctx.env, vm, start, heads, last, head.value, State(ctx, plain, blobs, removed));
      heads, last := heads + [head.value], State(ctx, plain, blobs, removed);
    }
  }

  lemma {:induction false} RoundsSnoc(env: Env, vm: (seq<Entry>, Tx) -> Execution, s: Fill, heads: seq<Head>, b: Fill, h: Head, s': Fill)
    requires Rounds(env, vm, s, heads, b) && Round(env, vm, Trimmed(env, b), h, s')
    ensures Rounds(env, vm, s, heads + [h], s')
  {
    TrimOnce(env, vm, b, h, s');
    assert (heads + [h])[..|heads|] == heads;
  }

  lemma {:induction false} TrimOnce(env: Env, vm: (seq<Entry>, Tx) -> Execution, b: Fill, h: Head, s': Fill)
    requires Round(env, vm, Trimmed(env, b), h, s')
    ensures Round(env, vm, b, h, s')
  {
    assert Trimmed(env, Trimmed(env, b)) == Trimmed(env, b);
  }

  /** Gives up the blob queue once the block holds all the blobs it may. */
  method TrimQueue(ctx: PayloadBuildContext, blobs: TransactionQueue)
    requires ctx.Valid() && blobs.Valid()
    modifies blobs
    ensures blobs.Valid() && blobs.contents == if Total(ctx.entries, BlobsBy) >= ctx.env.maxBlobs then map[] else old(blobs.contents)
    ensures Waiting(blobs.contents) <= old(Waiting(blobs.contents))
  {
    assert Lengths(map[]) == map[];
    if blobs.heads != [] {
      if ctx.bundleBlobs >= ctx.env.maxBlobs { blobs.Clear(); }
    } else {
      assert blobs.Peek().None?;
    }
  }

  // ---------------------------------------------------------------- what a filled block contains

  /** One queue's account after a try of a head of its own kind. */
  lemma {:induction false} OwnAccounts(start: map<Address, seq<Tx>>, now: map<Address, seq<Tx>>, entries: seq<Entry>, h: Head, x: Execution)
    requires Accounts(start, now, entries, h.tx.isBlob) && IsHead(now, h)
    ensures Accounts(start, now - {h.tx.sender}, entries, h.tx.isBlob)
    ensures x.Executed? ==>
              Accounts(start, Shifted(now, h.tx.sender), entries + [Entry(h.tx, h.tip, x.report)], h.tx.isBlob)
  {
    Dropped(start, now, entries, h.tx.isBlob, {h.tx.sender});
    if x.Executed? { Advanced(start, now, entries, h.tx.isBlob, Entry(h.tx, h.tip, x.report)); }
  }

  lemma {:induction false} RoundAccounts(env: Env, vm: (seq<Entry>, Tx) -> Execution, s: Fill, b: Fill, h: Head)
    requires Accounts(s.plain, b.plain, b.entries, false) && Accounts(s.blobs, b.blobs, b.entries, true)
    requires IsHead(if h.tx.isBlob then b.blobs else b.plain, h)
    ensures var s' := Tried(env, vm, b, h);
            Accounts(s.plain, s'.plain, s'.entries, false) && Accounts(s.blobs, s'.blobs, s'.entries, true)
  {
    var x := vm(b.entries, h.tx);
    if h.tx.isBlob {
      OwnAccounts(s.blobs, b.blobs, b.entries, h, x);
      if x.Executed? { Untouched(s.plain, b.plain, b.entries, false, Entry(h.tx, h.tip, x.report)); }
    } else {
      OwnAccounts(s.plain, b.plain, b.entries, h, x);
      if x.Executed? { Untouched(s.blobs, b.blobs, b.entries, true, Entry(h.tx, h.tip, x.report)); }
    }
  }

  lemma {:induction false} StartAccounts(start: map<Address, seq<Tx>>, blob: bool)
    ensures Accounts(start, start, [], blob)
  {
    forall a: Address ensures Account(start, start, [], a) { assert a in start ==> [] + start[a] == start[a]; }
  }

  lemma {:induction false} TrimAccounts(env: Env, s: Fill, b: Fill)
    requires Accounts(s.blobs, b.blobs, b.entries, true)
    ensures Accounts(s.blobs, Trimmed(env, b).blobs, b.entries, true)
  {
    Dropped(s.blobs, b.blobs, b.entries, true, b.blobs.Keys);
    assert b.blobs - b.blobs.Keys == map[];
  }

  /** Through every filling, what each sender had waiting is what went in, then what still waits,
      or what went in is a first part of it. */
  lemma {:induction false} RoundsAccount(env: Env, vm: (seq<Entry>, Tx) -> Execution, s: Fill, heads: seq<Head>, s': Fill)
    requires s.entries == [] && Rounds(env, vm, s, heads, s')
    ensures Accounts(s.plain, s'.plain, s'.entries, false) && Accounts(s.blobs, s'.blobs, s'.entries, true)
    decreases |heads|
  {
    if heads == [] {
      StartAccounts(s.plain, false);
      StartAccounts(s.blobs, true);
    } else {
      var front, h := heads[..|heads| - 1], heads[|heads| - 1];
      var b: Fill :| Rounds(env, vm, s, front, b) && Round(env, vm, b, h, s');
      RoundsAccount(env, vm, s, front, b);
      TrimAccounts(env, s, b);
      RoundAccounts(env, vm, s, Trimmed(env, b), h);
    }
  }

  /** What went in is a first part of what was waiting, at rising nonces. */
  ghost predicate InOrder(got: seq<Tx>, waiting: seq<Tx>) {
    got <= waiting && forall i, j | 0 <= i < j < |got| :: got[i].nonce < got[j].nonce
  }

  /** Each sender's included transactions of one queue have rising nonces and skip none that was
      waiting. */
  ghost predicate AllInOrder(start: map<Address, seq<Tx>>, entries: seq<Entry>, blob: bool) {
    forall a: Address :: InOrder(Included(entries, blob, a), if a in start then start[a] else [])
  }

  lemma {:induction false} IncludedInOrder(start: map<Address, seq<Tx>>, now: map<Address, seq<Tx>>, entries: seq<Entry>, blob: bool)
    requires Accounts(start, now, entries, blob) && forall b | b in start :: Line(b, start[b])
    ensures AllInOrder(start, entries, blob)
  {
    forall a: Address ensures InOrder(Included(entries, blob, a), if a in start then start[a] else []) {
      assert Account(start, now, Included(entries, blob, a), a);
      assert a in start ==> Line(a, start[a]);
    }
  }

  lemma {:induction false} RoundsInOrder(env: Env, vm: (seq<Entry>, Tx) -> Execution, s: Fill, heads: seq<Head>, s': Fill)
    requires s.entries == [] && Rounds(env, vm, s, heads, s')
    requires (forall b | b in s.plain :: Line(b, s.plain[b])) && forall b | b in s.blobs :: Line(b, s.blobs[b])
    ensures AllInOrder(s.plain, s'.entries, false) && AllInOrder(s.blobs, s'.entries, true)
  {
    RoundsAccount(env, vm, s, heads, s');
    IncludedInOrder(s.plain, s'.plain, s'.entries, false);
    IncludedInOrder(s.blobs, s'.blobs, s'.entries, true);
  }

  /** Fills an empty block until it is full. Of what each sender had waiting in each queue, a first
      part goes in, at rising nonces. */
  method FillTransactions(ctx: PayloadBuildContext, plain: TransactionQueue, blobs: TransactionQueue,
                          vm: (seq<Entry>, Tx) -> Execution) returns (removed: seq<Tx>, ghost heads: seq<Head>, ghost last: Fill)
    requires plain != blobs && Sound(vm) && Ready(ctx, plain, blobs)
    modifies ctx, plain, blobs
    ensures Ready(ctx, plain, blobs)
    ensures Rounds(ctx.env, vm, old(State(ctx, plain, blobs, [])), heads, last)
    ensures State(ctx, plain, blobs, removed) == last || State(ctx, plain, blobs, removed) == Trimmed(ctx.env, last)
    ensures Full(ctx.env, State(ctx, plain, blobs, removed))
    ensures old(ctx.entries) == [] ==>
              AllInOrder(old(plain.contents), ctx.entries, false) && AllInOrder(old(blobs.contents), ctx.entries, true)
  {
    ghost var start := State(ctx, plain, blobs, []);
    removed, heads, last := FillRounds(ctx, plain, blobs, vm);
    if start.entries == [] { RoundsInOrder(ctx.env, vm, start, heads, last); }
  }
}
