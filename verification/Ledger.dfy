/** The paymaster reservations of pending frame transactions (EIP-8141), as
    crates/blockchain/mempool.rs keeps them in three redundant maps. */
module Ledger {
  import opened Numbers

  type Address = nat

  const U256_MAX: nat := 0x1_0000_0000_0000_0000_0000_0000_0000_0000_0000_0000_0000_0000_0000_0000_0000_0000 - 1

  /** Pending frame transactions one non-canonical paymaster may sponsor. */
  const MAX_PENDING_NONCANONICAL: nat := 1

  /** What one pending frame transaction holds back from its paymaster. */
  datatype Reservation = Reservation(paymaster: Address, cost: nat, canonical: bool, balance: nat)

  /** reserved: cost per paymaster; noncanonical: pending count per non-canonical paymaster;
      sponsors: the reservation of each pending transaction. */
  datatype Book<!H> = Book(
    reserved: map<Address, nat>,
    noncanonical: map<Address, nat>,
    sponsors: map<H, Reservation>)

  function Get0<K>(m: map<K, nat>, k: K): nat { if k in m then m[k] else 0 }

  function SatAddU8(a: nat, b: nat): nat { if a + b <= 255 then a + b else 255 }

  // ---------------------------------------------------------------- sums over a map

  ghost function SumOf<H>(m: map<H, nat>): nat
    decreases |m|
  {
    if m == map[] then 0 else var k :| k in m; m[k] + SumOf(m - {k})
  }

  lemma {:induction false} SumRemove<H>(m: map<H, nat>, k: H)
    requires k in m
    ensures SumOf(m) == m[k] + SumOf(m - {k})
    decreases |m|
  {
    var x :| x in m && SumOf(m) == m[x] + SumOf(m - {x});
    if x != k {
      SumRemove(m - {x}, k);
      SumRemove(m - {k}, x);
      assert m - {x} - {k} == m - {k} - {x};
    }
  }

  lemma {:induction false} SumInsert<H>(m: map<H, nat>, k: H, v: nat)
    requires k !in m
    ensures SumOf(m[k := v]) == SumOf(m) + v
  {
    SumRemove(m[k := v], k);
    assert m[k := v] - {k} == m;
  }

  // ---------------------------------------------------------------- what the maps stand for

  /** The reserved costs of one paymaster's pending transactions. */
  ghost function CostsOf<H>(sponsors: map<H, Reservation>, p: Address): map<H, nat> {
    map h | h in sponsors && sponsors[h].paymaster == p :: sponsors[h].cost
  }

  ghost function Owed<H>(sponsors: map<H, Reservation>, p: Address): nat { SumOf(CostsOf(sponsors, p)) }

  /** The transactions a paymaster sponsors as a non-canonical one. */
  ghost function Strays<H>(sponsors: map<H, Reservation>, p: Address): set<H> {
    set h | h in sponsors && sponsors[h].paymaster == p && !sponsors[h].canonical
  }

  ghost predicate Sponsors<H>(sponsors: map<H, Reservation>, p: Address) {
    exists h | h in sponsors :: sponsors[h].paymaster == p
  }

  /** Conservation for one paymaster: an absent entry means zero. */
  ghost predicate Balanced<H>(b: Book<H>, p: Address) {
    && Get0(b.reserved, p) == Owed(b.sponsors, p) <= U256_MAX
    && Get0(b.noncanonical, p) == |Strays(b.sponsors, p)| <= MAX_PENDING_NONCANONICAL
    && (p in b.reserved ==> Sponsors(b.sponsors, p))
    && (p in b.noncanonical ==> b.noncanonical[p] > 0)
  }

  ghost predicate Conserved<H>(b: Book<H>) { forall p: Address :: Balanced(b, p) }

  // ---------------------------------------------------------------- operations

  /** Inserting a frame transaction adds its reservation. */
  function Charge<H>(b: Book<H>, h: H, r: Reservation): Book<H> {
    Book(b.reserved[r.paymaster := Get0(b.reserved, r.paymaster) + r.cost],
         if r.canonical then b.noncanonical
         else b.noncanonical[r.paymaster := SatAddU8(Get0(b.noncanonical, r.paymaster), 1)],
         b.sponsors[h := r])
  }

  function Lower<K>(m: map<K, nat>, k: K, amount: nat): map<K, nat> {
    if k !in m then m
    else if SatSub(m[k], amount) == 0 then m - {k}
    else m[k := SatSub(m[k], amount)]
  }

  /** Removing a frame transaction releases its reservation, if it has one. */
  function Discharge<H>(b: Book<H>, h: H): Book<H> {
    if h !in b.sponsors then b
    else
      var r := b.sponsors[h];
      Book(Lower(b.reserved, r.paymaster, r.cost),
           if r.canonical then b.noncanonical else Lower(b.noncanonical, r.paymaster, 1),
           b.sponsors - {h})
  }

  // ---------------------------------------------------------------- conservation

  lemma {:induction false} OwedInsert<H>(sponsors: map<H, Reservation>, h: H, r: Reservation, p: Address)
    requires h !in sponsors
    ensures Owed(sponsors[h := r], p) == Owed(sponsors, p) + if r.paymaster == p then r.cost else 0
    ensures Strays(sponsors[h := r], p) == Strays(sponsors, p) + if r.paymaster == p && !r.canonical then {h} else {}
  {
    if r.paymaster == p {
      assert CostsOf(sponsors[h := r], p) == CostsOf(sponsors, p)[h := r.cost];
      SumInsert(CostsOf(sponsors, p), h, r.cost);
    } else {
      assert CostsOf(sponsors[h := r], p) == CostsOf(sponsors, p);
    }
  }

  lemma {:induction false} OwedRemove<H>(sponsors: map<H, Reservation>, h: H, p: Address)
    requires h in sponsors
    ensures var r := sponsors[h];
            && Owed(sponsors, p) == Owed(sponsors - {h}, p) + (if r.paymaster == p then r.cost else 0)
            && Strays(sponsors, p) == Strays(sponsors - {h}, p) + (if r.paymaster == p && !r.canonical then {h} else {})
  {
    OwedInsert(sponsors - {h}, h, sponsors[h], p);
    assert (sponsors - {h})[h := sponsors[h]] == sponsors;
  }

  lemma {:induction false} SponsorsInsert<H>(sponsors: map<H, Reservation>, h: H, r: Reservation, p: Address)
    requires h !in sponsors && (r.paymaster == p || Sponsors(sponsors, p))
    ensures Sponsors(sponsors[h := r], p)
  {
    var more := sponsors[h := r];
    if r.paymaster == p {
      assert h in more && more[h].paymaster == p;
    } else {
      var x :| x in sponsors && sponsors[x].paymaster == p;
      assert x in more && more[x].paymaster == p;
    }
  }

  /** A positive debt has a creditor. */
  lemma {:induction false} OwedSponsors<H>(sponsors: map<H, Reservation>, p: Address)
    requires Owed(sponsors, p) > 0
    ensures Sponsors(sponsors, p)
  {
    var costs := CostsOf(sponsors, p);
    assert costs != map[];
    var h :| h in costs;
    assert h in sponsors && sponsors[h].paymaster == p;
  }

  lemma {:induction false} ChargeConserves<H>(b: Book<H>, h: H, r: Reservation)
    requires Conserved(b) && h !in b.sponsors
    requires Owed(b.sponsors, r.paymaster) + r.cost <= U256_MAX
    requires !r.canonical ==> |Strays(b.sponsors, r.paymaster)| < MAX_PENDING_NONCANONICAL
    ensures Conserved(Charge(b, h, r))
  {
    forall p: Address ensures Balanced(Charge(b, h, r), p) {
      assert Balanced(b, p);
      OwedInsert(b.sponsors, h, r, p);
      if p == r.paymaster || p in b.reserved { SponsorsInsert(b.sponsors, h, r, p); }
    }
  }

  /** Releasing conserves, and no subtraction ever saturates. */
  lemma {:induction false} DischargeConserves<H>(b: Book<H>, h: H)
    requires Conserved(b)
    ensures Conserved(Discharge(b, h))
    ensures h in b.sponsors ==>
              var r := b.sponsors[h];
              && Get0(b.reserved, r.paymaster) >= r.cost
              && (!r.canonical ==> Get0(b.noncanonical, r.paymaster) >= 1)
  {
    if h in b.sponsors {
      forall p: Address
        ensures Balanced(Discharge(b, h), p)
        ensures p == b.sponsors[h].paymaster ==>
                  Get0(b.reserved, p) >= b.sponsors[h].cost && (!b.sponsors[h].canonical ==> Get0(b.noncanonical, p) >= 1)
      {
        assert Balanced(b, p);
        OwedRemove(b.sponsors, h, p);
        if Owed(b.sponsors - {h}, p) > 0 { OwedSponsors(b.sponsors - {h}, p); }
        if p != b.sponsors[h].paymaster { StillSponsors(b.sponsors, h, p); }
      }
    }
  }

  lemma {:induction false} StillSponsors<H>(sponsors: map<H, Reservation>, h: H, p: Address)
    requires h in sponsors && sponsors[h].paymaster != p
    ensures Sponsors(sponsors, p) ==> Sponsors(sponsors - {h}, p)
  {
    if Sponsors(sponsors, p) {
      var x :| x in sponsors && sponsors[x].paymaster == p;
      assert x in sponsors - {h} && (sponsors - {h})[x].paymaster == p;
    }
  }

  /** With no reservation left, both totals are empty maps. */
  lemma {:induction false} NothingPending<H>(b: Book<H>)
    requires Conserved(b) && b.sponsors == map[]
    ensures b.reserved == map[] && b.noncanonical == map[]
  {
    forall p: Address ensures p !in b.reserved && p !in b.noncanonical {
      assert Balanced(b, p);
      assert Strays(b.sponsors, p) == {};
    }
  }

  /** Charging and releasing the same transaction gives the old book back, unless the charge
      created a zero entry for its paymaster. */
  lemma {:induction false} ChargeThenDischarge<H>(b: Book<H>, h: H, r: Reservation)
    requires Conserved(b) && h !in b.sponsors
    requires Owed(b.sponsors, r.paymaster) + r.cost <= U256_MAX
    requires !r.canonical ==> |Strays(b.sponsors, r.paymaster)| < MAX_PENDING_NONCANONICAL
    ensures var after := Discharge(Charge(b, h, r), h);
            && after.sponsors == b.sponsors && after.noncanonical == b.noncanonical
            && (forall p: Address :: Get0(after.reserved, p) == Get0(b.reserved, p))
            && (after == b <==> !(r.paymaster in b.reserved && b.reserved[r.paymaster] == 0))
  {
    assert Balanced(b, r.paymaster);
    assert b.sponsors[h := r] - {h} == b.sponsors;
    var after := Discharge(Charge(b, h, r), h);
    if r.paymaster in b.reserved && b.reserved[r.paymaster] > 0 {
      assert after.reserved == b.reserved;
    } else if r.paymaster !in b.reserved {
      assert after.reserved == b.reserved;
    }
  }
}
