/** The gas limit of the next block (crates/blockchain/payload.rs, calc_gas_limit). */
module GasLimit {
  import opened Numbers

  const GAS_LIMIT_BOUND_DIVISOR: nat := 1024
  const MIN_GAS_LIMIT: nat := 5000

  /** The limit the builder steers towards. */
  function Target(ceil: nat): nat { if ceil <= MIN_GAS_LIMIT then MIN_GAS_LIMIT else ceil }

  function Delta(parent: nat): nat requires parent >= GAS_LIMIT_BOUND_DIVISOR { parent / GAS_LIMIT_BOUND_DIVISOR - 1 }

  /** The parents for which no 64-bit operation leaves its range. */
  predicate InRange(parent: nat, ceil: nat) {
    parent >= GAS_LIMIT_BOUND_DIVISOR && (parent < Target(ceil) ==> parent + Delta(parent) <= U64_MAX)
  }

  function CalcGasLimit(parent: nat, ceil: nat): (limit: nat)
    requires InRange(parent, ceil)
    ensures parent <= limit < parent + parent / GAS_LIMIT_BOUND_DIVISOR || parent - parent / GAS_LIMIT_BOUND_DIVISOR < limit <= parent
    ensures parent <= Target(ceil) ==> parent <= limit <= Target(ceil)
    ensures parent >= Target(ceil) ==> Target(ceil) <= limit <= parent
    ensures parent >= MIN_GAS_LIMIT ==> limit >= MIN_GAS_LIMIT
    ensures limit == parent <==> parent == Target(ceil) || Delta(parent) == 0
    ensures parent != Target(ceil) && limit != Target(ceil) ==>
              limit == (if parent < Target(ceil) then parent + Delta(parent) else parent - Delta(parent))
  {
    var delta := Delta(parent);
    var desired := Target(ceil);
    if parent < desired then
      if parent + delta > desired then desired else parent + delta
    else if parent > desired then
      if parent - delta < desired then desired else parent - delta
    else parent
  }

  function Apart(a: nat, b: nat): nat { if a <= b then b - a else a - b }

  /** No other limit that differs from the parent by less than a 1024th of it is closer to the
      target, which is the ceiling or 5000. */
  lemma {:induction false} CalcIsClosest(parent: nat, ceil: nat, other: nat)
    requires InRange(parent, ceil) && Apart(other, parent) < parent / 1024
    ensures var limit, target := CalcGasLimit(parent, ceil), if ceil > 5000 then ceil else 5000;
            Apart(limit, parent) < parent / 1024 && Apart(limit, target) <= Apart(other, target)
  {
    assert Delta(parent) == parent / 1024 - 1;
  }

  /** The targets that can be approached from anywhere below without leaving 64 bits. */
  predicate Reachable64(ceil: nat) { Target(ceil) + Target(ceil) / GAS_LIMIT_BOUND_DIVISOR <= U64_MAX }

  lemma {:induction false} AlwaysInRange(parent: nat, ceil: nat)
    requires parent >= GAS_LIMIT_BOUND_DIVISOR && Reachable64(ceil)
    ensures InRange(parent, ceil)
  {
    if parent < Target(ceil) { assert parent / GAS_LIMIT_BOUND_DIVISOR <= Target(ceil) / GAS_LIMIT_BOUND_DIVISOR; }
  }

  /** The limit after a number of blocks. */
  function After(parent: nat, ceil: nat, blocks: nat): (limit: nat)
    requires parent >= GAS_LIMIT_BOUND_DIVISOR && Reachable64(ceil)
    ensures limit >= GAS_LIMIT_BOUND_DIVISOR
    decreases blocks
  {
    if blocks == 0 then parent
    else
      AlwaysInRange(parent, ceil);
      After(CalcGasLimit(parent, ceil), ceil, blocks - 1)
  }

  function Distance(parent: nat, ceil: nat): nat {
    if parent <= Target(ceil) then Target(ceil) - parent else parent - Target(ceil)
  }

  /** Once there, the limit stays; until then, it comes closer with every block as long as a block
      can move it at all. */
  lemma {:induction false} Approaches(parent: nat, ceil: nat, blocks: nat)
    requires parent >= 2 * GAS_LIMIT_BOUND_DIVISOR && Reachable64(ceil)
    ensures Distance(After(parent, ceil, blocks), ceil) <= if Distance(parent, ceil) <= blocks then 0 else Distance(parent, ceil) - blocks
    decreases blocks
  {
    if blocks > 0 {
      AlwaysInRange(parent, ceil);
      var next := CalcGasLimit(parent, ceil);
      assert Delta(parent) >= 1;
      Approaches(next, ceil, blocks - 1);
    }
  }

  /** A parent below twice the divisor cannot be moved up. */
  lemma {:induction false} Stuck(parent: nat, ceil: nat, blocks: nat)
    requires GAS_LIMIT_BOUND_DIVISOR <= parent < 2 * GAS_LIMIT_BOUND_DIVISOR && Reachable64(ceil)
    ensures After(parent, ceil, blocks) == parent
    decreases blocks
  {
    if blocks > 0 {
      AlwaysInRange(parent, ceil);
      assert Delta(parent) == 0;
      Stuck(parent, ceil, blocks - 1);
    }
  }

  /** The target is reached after finitely many blocks, and kept from then on, exactly from the
      parents that a block can move. */
  lemma {:induction false} ReachesTarget(parent: nat, ceil: nat)
    requires parent >= GAS_LIMIT_BOUND_DIVISOR && Reachable64(ceil)
    ensures parent >= 2 * GAS_LIMIT_BOUND_DIVISOR <==>
              exists n: nat :: After(parent, ceil, n) == Target(ceil)
    ensures parent >= 2 * GAS_LIMIT_BOUND_DIVISOR ==>
              forall n: nat | n >= Distance(parent, ceil) :: After(parent, ceil, n) == Target(ceil)
  {
    if parent >= 2 * GAS_LIMIT_BOUND_DIVISOR {
      forall n: nat | n >= Distance(parent, ceil) ensures After(parent, ceil, n) == Target(ceil) { Approaches(parent, ceil, n); }
      assert After(parent, ceil, Distance(parent, ceil)) == Target(ceil);
    } else {
      forall n: nat ensures After(parent, ceil, n) != Target(ceil) { Stuck(parent, ceil, n); }
    }
  }
}
