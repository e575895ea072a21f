/** Stored headers and the canonical chain through them (crates/storage/store.rs and
    find_link_with_canonical_chain in crates/blockchain/fork_choice.rs). */
module Chain {
  import opened Options

  /** Block hashes are names; zero is the null hash. */
  type Hash = nat

  datatype Header = Header(number: nat, parent: Hash, root: nat)

  datatype Store = Store(
    headers: map<Hash, Header>,
    canonical: map<nat, Hash>,
    latest: nat,
    earliest: nat,
    safe: Option<nat>,
    finalized: Option<nat>)

  datatype Block = Block(number: nat, hash: Hash)

  predicate IsCanonical(s: Store, n: nat, h: Hash) { n in s.canonical && s.canonical[n] == h }

  /** A header that is stored together with its parent has the next number. */
  ghost predicate Numbered(headers: map<Hash, Header>) {
    forall h | h in headers && headers[h].parent in headers :: headers[h].number == headers[headers[h].parent].number + 1
  }

  /** Heights from the earliest to the latest block, and no others, are canonical, and each
      canonical block is stored and has the one below it as its parent. */
  ghost predicate Linked(s: Store) {
    && s.earliest <= s.latest
    && (forall n | n in s.canonical :: s.earliest <= n <= s.latest)
    && (forall n | s.earliest <= n <= s.latest :: LinkedAt(s, n))
  }

  ghost predicate LinkedAt(s: Store, n: nat) {
    && n in s.canonical && s.canonical[n] in s.headers && s.headers[s.canonical[n]].number == n
    && (n > s.earliest ==> n - 1 in s.canonical && s.headers[s.canonical[n]].parent == s.canonical[n - 1])
  }

  /** Two stores agree on what is canonical at a height. */
  predicate SameAt(s: Store, s': Store, m: nat) {
    (m in s'.canonical <==> m in s.canonical) && (m in s.canonical ==> s'.canonical[m] == s.canonical[m])
  }

  // ---------------------------------------------------------------- ancestors

  /** The block k generations above h, as far as headers are stored. */
  function Ancestor(headers: map<Hash, Header>, h: Hash, k: nat): Option<Hash>
    decreases k
  {
    if h !in headers then None
    else if k == 0 then Some(h)
    else Ancestor(headers, headers[h].parent, k - 1)
  }

  ghost predicate IsAncestor(headers: map<Hash, Header>, a: Hash, h: Hash) {
    exists k: nat :: Ancestor(headers, h, k) == Some(a)
  }

  lemma {:induction false} AncestorNumber(headers: map<Hash, Header>, h: Hash, k: nat)
    requires Numbered(headers) && Ancestor(headers, h, k).Some?
    ensures h in headers && Ancestor(headers, h, k).value in headers
    ensures headers[h].number == headers[Ancestor(headers, h, k).value].number + k
    decreases k
  {
    if k > 0 { AncestorNumber(headers, headers[h].parent, k - 1); }
  }

  /** The canonical chain is the ancestry of each of its blocks. */
  lemma {:induction false} CanonicalAncestry(s: Store, n: nat, m: nat)
    requires Linked(s) && s.earliest <= m <= n <= s.latest
    ensures n in s.canonical && m in s.canonical && Ancestor(s.headers, s.canonical[n], n - m) == Some(s.canonical[m])
    decreases n
  {
    assert LinkedAt(s, n) && LinkedAt(s, m);
    if m < n {
      CanonicalAncestry(s, n - 1, m);
    }
  }

  // ---------------------------------------------------------------- the link to the canonical chain

  /** The non-canonical proper ancestors of block h at height n, highest first, down to a
      canonical parent; None when headers run out or the earliest height is reached first. */
  function Branch(s: Store, h: Hash, n: nat): Option<seq<Block>>
    decreases n
  {
    if n <= s.earliest || h !in s.headers || s.headers[h].parent !in s.headers then None
    else
      var p := s.headers[h].parent;
      if IsCanonical(s, n - 1, p) then Some([])
      else
        match Branch(s, p, n - 1)
        case None => None
        case Some(rest) => Some([Block(n - 1, p)] + rest)
  }

  function FindLink(s: Store, h: Hash, n: nat): Option<seq<Block>> {
    if IsCanonical(s, n, h) then Some([]) else Branch(s, h, n)
  }

  /** The block at position i of the path from h upward: h itself, then the branch. */
  function PathAt(h: Hash, n: nat, branch: seq<Block>, i: nat): Block
    requires i <= |branch|
  {
    if i == 0 then Block(n, h) else branch[i - 1]
  }

  /** A branch is a run of parents with consecutive numbers, none of them canonical, that ends
      right above a canonical block. */
  ghost predicate Joins(s: Store, h: Hash, n: nat, branch: seq<Block>) {
    && s.earliest + |branch| < n
    && (forall i | 0 <= i <= |branch| ::
          var b := PathAt(h, n, branch, i);
          b.number == n - i && b.hash in s.headers && (i > 0 ==> !IsCanonical(s, b.number, b.hash)))
    && (forall i | 0 <= i < |branch| :: s.headers[PathAt(h, n, branch, i).hash].parent == branch[i].hash)
    && (var top := PathAt(h, n, branch, |branch|);
        s.headers[top.hash].parent in s.headers && IsCanonical(s, top.number - 1, s.headers[top.hash].parent))
  }

  lemma {:induction false} BranchAt(s: Store, h: Hash, n: nat, i: nat)
    requires Branch(s, h, n).Some? && i <= |Branch(s, h, n).value|
    ensures var branch := Branch(s, h, n).value;
            var b := PathAt(h, n, branch, i);
            && s.earliest + |branch| < n && b.number == n - i && b.hash in s.headers
            && (i > 0 ==> !IsCanonical(s, b.number, b.hash))
            && (i < |branch| ==> s.headers[b.hash].parent == branch[i].hash)
            && (i == |branch| ==> s.headers[b.hash].parent in s.headers && IsCanonical(s, b.number - 1, s.headers[b.hash].parent))
    decreases n
  {
    var p, branch := s.headers[h].parent, Branch(s, h, n).value;
    if branch != [] {
      var rest := Branch(s, p, n - 1).value;
      BranchAt(s, p, n - 1, if i > 0 then i - 1 else 0);
      if i > 0 { assert PathAt(h, n, branch, i) == PathAt(p, n - 1, rest, i - 1); }
    }
  }

  lemma {:induction false} BranchJoins(s: Store, h: Hash, n: nat)
    requires Branch(s, h, n).Some?
    ensures Joins(s, h, n, Branch(s, h, n).value)
  {
    forall i | 0 <= i <= |Branch(s, h, n).value| { BranchAt(s, h, n, i); }
    BranchAt(s, h, n, |Branch(s, h, n).value|);
  }

  /** No link means that the ancestry leaves the stored headers, or reaches the earliest height,
      before it meets a canonical block. */
  lemma {:induction false} NoBranch(s: Store, h: Hash, n: nat, k: nat)
    requires Branch(s, h, n).None? && 0 < k <= n && s.earliest <= n - k
    requires Ancestor(s.headers, h, k).Some?
    ensures !IsCanonical(s, n - k, Ancestor(s.headers, h, k).value)
    decreases n
  {
    var p := s.headers[h].parent;
    assert p in s.headers;
    if k > 1 { NoBranch(s, p, n - 1, k - 1); }
  }

  // ---------------------------------------------------------------- the update

  function PutAll(canonical: map<nat, Hash>, blocks: seq<Block>): map<nat, Hash> {
    if blocks == [] then canonical
    else PutAll(canonical, blocks[..|blocks| - 1])[blocks[|blocks| - 1].number := blocks[|blocks| - 1].hash]
  }

  function DropAbove(canonical: map<nat, Hash>, head: nat, latest: nat): map<nat, Hash> {
    map n | n in canonical && !(head < n <= latest) :: canonical[n]
  }

  /** Sets the listed blocks and the head canonical, drops what was canonical above the head, and
      moves the markers. */
  function Update(s: Store, blocks: seq<Block>, head: Block, safe: Option<nat>, finalized: Option<nat>): Store {
    s.(canonical := DropAbove(PutAll(s.canonical, blocks), head.number, s.latest)[head.number := head.hash],
       latest := head.number,
       safe := if safe.Some? then safe else s.safe,
       finalized := if finalized.Some? then finalized else s.finalized)
  }

  /** The listed blocks sit at consecutive heights, from below the given one downwards. */
  ghost predicate Descends(blocks: seq<Block>, above: nat) {
    |blocks| <= above && forall i | 0 <= i < |blocks| :: blocks[i].number == above - 1 - i
  }

  lemma {:induction false} PutDescending(canonical: map<nat, Hash>, blocks: seq<Block>, above: nat, m: nat)
    requires Descends(blocks, above)
    ensures var put := PutAll(canonical, blocks);
            if above - |blocks| <= m < above then m in put && put[m] == blocks[above - 1 - m].hash
            else (m in put <==> m in canonical) && (m in put ==> put[m] == canonical[m])
  {
    if blocks != [] { PutDescending(canonical, blocks[..|blocks| - 1], above, m); }
  }

  /** The map after an update along a path: the path at its heights, the old chain below it,
      nothing above. */
  lemma {:induction false} UpdatePath(s: Store, branch: seq<Block>, head: Block, safe: Option<nat>, fin: Option<nat>, m: nat)
    requires Descends(branch, head.number) && forall k | k in s.canonical :: k <= s.latest
    ensures var c := Update(s, branch, head, safe, fin).canonical;
            if m < head.number - |branch| then (m in c <==> m in s.canonical) && (m in c ==> c[m] == s.canonical[m])
            else (m in c <==> m <= head.number) && (m in c ==> c[m] == PathAt(head.hash, head.number, branch, head.number - m).hash)
  {
    PutDescending(s.canonical, branch, head.number, m);
  }

  lemma {:induction false} JoinsDescends(s: Store, h: Hash, n: nat, branch: seq<Block>)
    requires Joins(s, h, n, branch)
    ensures Descends(branch, n)
  {
    forall i | 0 <= i < |branch| ensures branch[i].number == n - 1 - i {
      assert PathAt(h, n, branch, i + 1).number == n - 1 - i;
    }
  }

  /** The canonical map after an update along a branch: the branch and the head at their heights,
      the old chain up to the link, nothing above the head. */
  lemma {:induction false} UpdatedAt(s: Store, h: Hash, n: nat, branch: seq<Block>, safe: Option<nat>, fin: Option<nat>, m: nat)
    requires Linked(s) && Joins(s, h, n, branch)
    ensures var c := Update(s, branch, Block(n, h), safe, fin).canonical;
            && (m in c <==> s.earliest <= m <= n)
            && (m <= n - 1 - |branch| ==> (m in c <==> m in s.canonical) && (m in c ==> c[m] == s.canonical[m]))
            && (n - 1 - |branch| < m <= n ==> m in c && c[m] == PathAt(h, n, branch, n - m).hash)
  {
    JoinsDescends(s, h, n, branch);
    UpdatePath(s, branch, Block(n, h), safe, fin, m);
    var link := n - 1 - |branch|;
    assert link in s.canonical;
    if s.earliest <= m <= link { assert LinkedAt(s, m); }
  }

  lemma {:induction false} BranchUpdateLinked(s: Store, h: Hash, n: nat, branch: seq<Block>, safe: Option<nat>, fin: Option<nat>)
    requires Linked(s) && Numbered(s.headers) && Joins(s, h, n, branch)
    ensures Linked(Update(s, branch, Block(n, h), safe, fin))
  {
    var s' := Update(s, branch, Block(n, h), safe, fin);
    forall m | s.earliest <= m <= n ensures LinkedAt(s', m) { BranchLinkedAt(s, h, n, branch, safe, fin, m); }
    forall m | m in s'.canonical ensures s.earliest <= m <= n { UpdatedAt(s, h, n, branch, safe, fin, m); }
  }

  lemma {:induction false} BranchLinkedAt(s: Store, h: Hash, n: nat, branch: seq<Block>, safe: Option<nat>, fin: Option<nat>, m: nat)
    requires Linked(s) && Numbered(s.headers) && Joins(s, h, n, branch) && s.earliest <= m <= n
    ensures LinkedAt(Update(s, branch, Block(n, h), safe, fin), m)
  {
    UpdatedAt(s, h, n, branch, safe, fin, m);
    if m > 0 { UpdatedAt(s, h, n, branch, safe, fin, m - 1); }
    if m <= n - 1 - |branch| {
      assert n - 1 - |branch| in s.canonical && LinkedAt(s, m);
    } else {
      NewParent(s, h, n, branch, n - m);
    }
  }

  /** Block i of the path is stored at its height on top of the next one, the last on the link. */
  ghost predicate Parented(s: Store, h: Hash, n: nat, branch: seq<Block>, i: nat)
    requires i <= |branch|
  {
    var b := PathAt(h, n, branch, i);
    && b.number == n - i && b.hash in s.headers && s.headers[b.hash].number == n - i
    && (i < |branch| ==> s.headers[b.hash].parent == PathAt(h, n, branch, i + 1).hash)
    && (i == |branch| < n ==> IsCanonical(s, n - i - 1, s.headers[b.hash].parent))
  }

  lemma {:induction false} NewParent(s: Store, h: Hash, n: nat, branch: seq<Block>, i: nat)
    requires Linked(s) && Numbered(s.headers) && Joins(s, h, n, branch) && i <= |branch|
    ensures Parented(s, h, n, branch, i)
  {
    PathNumber(s, h, n, branch, i);
    assert PathAt(h, n, branch, i).hash in s.headers;
    if i < |branch| { assert s.headers[PathAt(h, n, branch, i).hash].parent == branch[i].hash; }
  }

  /** The stored numbers along a path are the heights it is walked at. */
  lemma {:induction false} PathNumber(s: Store, h: Hash, n: nat, branch: seq<Block>, i: nat)
    requires Linked(s) && Numbered(s.headers) && Joins(s, h, n, branch) && i <= |branch|
    ensures s.headers[PathAt(h, n, branch, i).hash].number == n - i
    decreases |branch| - i
  {
    var b := PathAt(h, n, branch, i);
    assert b.hash in s.headers;
    if i < |branch| {
      PathNumber(s, h, n, branch, i + 1);
      assert s.headers[b.hash].parent == branch[i].hash == PathAt(h, n, branch, i + 1).hash;
    } else {
      assert n - i - 1 in s.canonical && LinkedAt(s, n - i - 1);
    }
  }

  /** Making a canonical block the head truncates the chain above it. */
  lemma {:induction false} TruncateLinked(s: Store, h: Hash, n: nat, safe: Option<nat>, fin: Option<nat>)
    requires Linked(s) && IsCanonical(s, n, h)
    ensures var s' := Update(s, [], Block(n, h), safe, fin);
            Linked(s') && forall m: nat | m <= n :: SameAt(s, s', m)
  {
    var s' := Update(s, [], Block(n, h), safe, fin);
    forall m | s.earliest <= m <= n ensures LinkedAt(s', m) {
      assert LinkedAt(s, m);
      if m > s.earliest { assert LinkedAt(s, m - 1); }
    }
  }
}
