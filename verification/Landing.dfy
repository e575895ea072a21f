/** Fork choice updates that are decided on one store and land on a later one: only the write
    itself is serialised (crates/blockchain/fork_choice.rs, and forkchoice_update in
    crates/storage/store.rs). */
module Landing {
  import opened Options
  import opened Chain
  import opened ForkChoice

  /** The later store s still holds every header of b. */
  ghost predicate Later(b: Store, s: Store) {
    s.earliest == b.earliest && forall h | h in b.headers :: h in s.headers && s.headers[h] == b.headers[h]
  }

  predicate Found(b: Store, q: Request) {
    Lookup(b, q.head).Some? && FindLink(b, q.head, b.headers[q.head].number).Some?
  }

  function BranchOf(b: Store, q: Request): seq<Block> requires Found(b, q) {
    FindLink(b, q.head, b.headers[q.head].number).value
  }

  function HeadOf(b: Store, q: Request): Block requires Found(b, q) { Block(b.headers[q.head].number, q.head) }

  /** The lowest block that the update writes. */
  function Lowest(b: Store, q: Request): Block requires Found(b, q) {
    LinkBlock(q.head, b.headers[q.head].number, BranchOf(b, q))
  }

  /** Store s once the branch that was looked up on b is written to it. */
  function Landed(s: Store, b: Store, marks: Store, q: Request): Store requires Found(b, q) {
    Update(s, BranchOf(b, q), HeadOf(b, q), NumberOf(Lookup(marks, q.safe)), NumberOf(Lookup(marks, q.finalized)))
  }

  /** The parent of the lowest written block is still canonical. */
  predicate Attached(s: Store, b: Store, q: Request) requires Found(b, q) {
    var low := Lowest(b, q);
    low.number == s.earliest || (low.number > 0 && low.hash in s.headers && IsCanonical(s, low.number - 1, s.headers[low.hash].parent))
  }

  // ---------------------------------------------------------------- the path that is written

  ghost predicate PathStep(headers: map<Hash, Header>, head: Block, branch: seq<Block>, i: nat)
    requires i <= |branch|
  {
    var b := PathAt(head.hash, head.number, branch, i);
    && b.number == head.number - i && b.hash in headers && headers[b.hash].number == head.number - i
    && (i < |branch| ==> headers[b.hash].parent == branch[i].hash)
  }

  /** The branch and the head are a run of parents at their heights. */
  ghost predicate PathIn(headers: map<Hash, Header>, head: Block, branch: seq<Block>) {
    Descends(branch, head.number) && forall i | 0 <= i <= |branch| :: PathStep(headers, head, branch, i)
  }

  lemma {:induction false} FoundPath(b: Store, q: Request)
    requires Linked(b) && Numbered(b.headers) && Found(b, q)
    ensures PathIn(b.headers, HeadOf(b, q), BranchOf(b, q)) && Lowest(b, q).number >= b.earliest
  {
    var head, branch := HeadOf(b, q), BranchOf(b, q);
    if !IsCanonical(b, head.number, head.hash) {
      BranchJoins(b, head.hash, head.number);
      JoinsDescends(b, head.hash, head.number, branch);
      forall i | 0 <= i <= |branch| ensures PathStep(b.headers, head, branch, i) {
        NewParent(b, head.hash, head.number, branch, i);
      }
    } else {
      assert PathStep(b.headers, head, branch, 0);
    }
  }

  /** The canonical map after the write, height by height. */
  lemma {:induction false} LandedAt(s: Store, b: Store, marks: Store, q: Request, m: nat)
    requires Linked(s) && Found(b, q) && PathIn(b.headers, HeadOf(b, q), BranchOf(b, q))
    ensures var c, head, low := Landed(s, b, marks, q).canonical, HeadOf(b, q), Lowest(b, q);
            if m < low.number then SameAt(s, Landed(s, b, marks, q), m)
            else (m in c <==> m <= head.number) && (m in c ==> c[m] == PathAt(head.hash, head.number, BranchOf(b, q), head.number - m).hash)
  {
    var head, branch := HeadOf(b, q), BranchOf(b, q);
    assert PathStep(b.headers, head, branch, |branch|);
    UpdatePath(s, branch, head, NumberOf(Lookup(marks, q.safe)), NumberOf(Lookup(marks, q.finalized)), m);
  }

  /** Each marker goes to the block that was stored when it was looked up, and stays otherwise;
      nothing else about the store changes but the canonical chain. */
  lemma {:induction false} LandedMarkers(s: Store, b: Store, marks: Store, q: Request)
    requires Found(b, q)
    ensures var s' := Landed(s, b, marks, q);
            && s'.safe == (if q.safe != ZERO && q.safe in marks.headers then Some(marks.headers[q.safe].number) else s.safe)
            && s'.finalized == (if q.finalized != ZERO && q.finalized in marks.headers then Some(marks.headers[q.finalized].number) else s.finalized)
            && s'.latest == b.headers[q.head].number && s'.headers == s.headers && s'.earliest == s.earliest
  {}

  lemma {:induction false} LandedLinkedAt(s: Store, b: Store, marks: Store, q: Request, m: nat)
    requires Linked(s) && Later(b, s) && Found(b, q) && Lowest(b, q).number >= b.earliest
    requires PathIn(b.headers, HeadOf(b, q), BranchOf(b, q)) && Attached(s, b, q) && s.earliest <= m <= HeadOf(b, q).number
    ensures LinkedAt(Landed(s, b, marks, q), m)
  {
    var head, branch, low := HeadOf(b, q), BranchOf(b, q), Lowest(b, q);
    assert PathStep(b.headers, head, branch, |branch|);
    LandedAt(s, b, marks, q, m);
    if m > s.earliest { LandedAt(s, b, marks, q, m - 1); }
    if m < low.number {
      assert low.number - 1 in s.canonical;
      assert LinkedAt(s, m);
    } else {
      assert PathStep(b.headers, head, branch, head.number - m);
    }
  }

  /** The chain stays linked exactly when the parent of the lowest written block is still
      canonical at the time of the write. */
  lemma {:induction false} LandedLinked(s: Store, b: Store, marks: Store, q: Request)
    requires Linked(s) && Linked(b) && Numbered(b.headers) && Later(b, s) && Found(b, q)
    ensures Linked(Landed(s, b, marks, q)) <==> Attached(s, b, q)
  {
    var s', head, branch, low := Landed(s, b, marks, q), HeadOf(b, q), BranchOf(b, q), Lowest(b, q);
    FoundPath(b, q);
    assert PathStep(b.headers, head, branch, |branch|);
    if Attached(s, b, q) {
      forall m | s.earliest <= m <= head.number ensures LinkedAt(s', m) { LandedLinkedAt(s, b, marks, q, m); }
      forall m | m in s'.canonical ensures s.earliest <= m <= head.number { LandedAt(s, b, marks, q, m); }
    } else {
      LandedAt(s, b, marks, q, low.number);
      LandedAt(s, b, marks, q, low.number - 1);
      assert !LinkedAt(s', low.number);
    }
  }

  // ---------------------------------------------------------------- depth

  /** The path's block at a height. */
  function OnPath(b: Store, q: Request, m: nat): Hash
    requires Found(b, q) && HeadOf(b, q).number - |BranchOf(b, q)| <= m <= HeadOf(b, q).number
  {
    PathAt(q.head, HeadOf(b, q).number, BranchOf(b, q), HeadOf(b, q).number - m).hash
  }

  /** From height m up, the lowest one whose path block is not canonical yet, or the one above the
      head. */
  function FirstChange(s: Store, b: Store, q: Request, m: nat): (r: nat)
    requires Found(b, q) && HeadOf(b, q).number - |BranchOf(b, q)| <= m <= HeadOf(b, q).number + 1
    ensures m <= r <= HeadOf(b, q).number + 1
    ensures forall k | m <= k < r :: IsCanonical(s, k, OnPath(b, q, k))
    ensures r <= HeadOf(b, q).number ==> !IsCanonical(s, r, OnPath(b, q, r))
    decreases HeadOf(b, q).number + 1 - m
  {
    if m > HeadOf(b, q).number || !IsCanonical(s, m, OnPath(b, q, m)) then m else FirstChange(s, b, q, m + 1)
  }

  lemma {:induction false} LowestHeight(b: Store, q: Request)
    requires Found(b, q) && PathIn(b.headers, HeadOf(b, q), BranchOf(b, q))
    ensures Lowest(b, q).number == HeadOf(b, q).number - |BranchOf(b, q)|
  {
    assert PathStep(b.headers, HeadOf(b, q), BranchOf(b, q), |BranchOf(b, q)|);
  }

  /** The write changes what is canonical at the first such height, if there is anything there, and
      nothing below. */
  lemma {:induction false} LandedFirst(s: Store, b: Store, marks: Store, q: Request, m: nat)
    requires Linked(s) && Found(b, q) && PathIn(b.headers, HeadOf(b, q), BranchOf(b, q))
    requires Lowest(b, q).number == HeadOf(b, q).number - |BranchOf(b, q)|
    ensures var s', first := Landed(s, b, marks, q), FirstChange(s, b, q, Lowest(b, q).number);
            && (m < first ==> SameAt(s, s', m))
            && (m == first <= s.latest && s.earliest <= m ==> !SameAt(s, s', m))
  {
    var head, low, first := HeadOf(b, q), Lowest(b, q), FirstChange(s, b, q, Lowest(b, q).number);
    LandedAt(s, b, marks, q, m);
    if low.number <= m <= head.number {
      assert Landed(s, b, marks, q).canonical[m] == OnPath(b, q, m);
      assert m < first ==> IsCanonical(s, m, OnPath(b, q, m));
    }
    if s.earliest <= m <= s.latest { assert LinkedAt(s, m); }
  }

  /** Everything at or below the latest height less c stays as it is exactly when the first height
      that changes is above. */
  lemma {:induction false} LandedDepth(s: Store, b: Store, marks: Store, q: Request, c: nat)
    requires Linked(s) && Linked(b) && Numbered(b.headers) && Later(b, s) && Found(b, q)
    ensures Lowest(b, q).number == HeadOf(b, q).number - |BranchOf(b, q)|
    ensures (forall m: nat | m + c <= s.latest :: SameAt(s, Landed(s, b, marks, q), m)) <==>
              FirstChange(s, b, q, Lowest(b, q).number) + c > s.latest
  {
    FoundPath(b, q);
    LowestHeight(b, q);
    var first := FirstChange(s, b, q, Lowest(b, q).number);
    forall m: nat | m + c <= s.latest && first + c > s.latest ensures SameAt(s, Landed(s, b, marks, q), m) {
      LandedFirst(s, b, marks, q, m);
    }
    if first + c <= s.latest { LandedFirst(s, b, marks, q, first); }
  }
}
