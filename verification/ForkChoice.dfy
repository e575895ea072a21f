/** Fork choice: which updates are accepted, and what they leave behind
    (crates/blockchain/fork_choice.rs, apply_fork_choice and reorg_apply_deep). */
module ForkChoice {
  import opened Options
  import opened Numbers
  import opened Chain

  const ZERO: Hash := 0

  datatype Element = Head | Safe | Finalized

  datatype Refusal =
    | InvalidHeadHash
    | Syncing
    | ElementNotFound(element: Element)
    | Unordered
    | NewHeadAlreadyCanonical
    | UnlinkedHead
    | TooDeepReorg(depth: nat, limit: nat)
    | Disconnected(element: Element)
    | StateNotReachable
    | InvalidAncestor(latestValid: Hash)

  /** What the node can reach: the state roots on disk, how many layers it keeps in memory, the
      lowest and highest journal entries, and the operator's cap. */
  datatype Reach = Reach(roots: set<nat>, retention: nat, lowest: Option<nat>, highest: Option<nat>, maxDepth: Option<nat>)

  datatype Request = Request(head: Hash, safe: Hash, finalized: Hash)

  /** The deepest reorg the node accepts. */
  function Ceiling(r: Reach, latest: nat): (c: nat)
    ensures c <= latest
    ensures r.maxDepth.Some? ==> c <= r.maxDepth.value
    ensures c <= r.retention || (r.lowest.Some? && latest - c >= SatSub(r.lowest.value, 1))
    ensures r.maxDepth.None? && c < latest ==>
              c >= r.retention && (r.lowest.Some? ==> latest - c <= SatSub(r.lowest.value, 1))
  {
    var journal := if r.lowest.Some? then SatSub(latest, SatSub(r.lowest.value, 1)) else 0;
    var physical := Min(latest, Max(r.retention, journal));
    if r.maxDepth.Some? then Min(physical, r.maxDepth.value) else physical
  }

  /** A null hash names no block. */
  function Lookup(s: Store, h: Hash): Option<Header> {
    if h != ZERO && h in s.headers then Some(s.headers[h]) else None
  }

  function CheckOrder(first: Option<Header>, second: Option<Header>, missing: Element): Option<Refusal> {
    if second.None? then Some(Syncing)
    else if first.None? then Some(ElementNotFound(missing))
    else if first.value.number > second.value.number then Some(Unordered)
    else None
  }

  function OrderRefusal(s: Store, q: Request): Option<Refusal> {
    var safe, fin, head := Lookup(s, q.safe), Lookup(s, q.finalized), Lookup(s, q.head);
    if q.safe != ZERO && CheckOrder(safe, head, Safe).Some? then CheckOrder(safe, head, Safe)
    else if q.finalized != ZERO && q.safe != ZERO then CheckOrder(fin, safe, Finalized)
    else None
  }

  /** The lowest block the new chain brings in, or the head itself. */
  function LinkBlock(h: Hash, n: nat, branch: seq<Block>): Block { PathAt(h, n, branch, |branch|) }

  /** The height at which the head's ancestry meets the old canonical chain. */
  function LinkHeight(s: Store, h: Hash, n: nat, branch: seq<Block>): nat {
    if IsCanonical(s, n, h) then n else SatSub(LinkBlock(h, n, branch).number, 1)
  }

  /** The test that a safe or finalized block belongs to the new chain. */
  predicate Connected(s: Store, q: Hash, header: Header, h: Hash, n: nat, branch: seq<Block>) {
    || (IsCanonical(s, header.number, q) && header.number <= LinkBlock(h, n, branch).number)
    || (header.number == n && q == h)
    || Block(header.number, q) in branch
  }

  predicate SkipsReorg(s: Store, r: Reach, h: Hash, head: Header) {
    && s.finalized.Some? && head.number < s.latest && head.number <= s.finalized.value
    && IsCanonical(s, head.number, h) && head.root in r.roots
  }

  /** The checks up to the depth gate and the connectivity tests, for a known head. */
  function LinkRefusal(s: Store, r: Reach, q: Request, n: nat, branch: seq<Block>): Option<Refusal> {
    var depth := SatSub(s.latest, LinkHeight(s, q.head, n, branch));
    if depth > Ceiling(r, s.latest) then Some(TooDeepReorg(depth, Ceiling(r, s.latest)))
    else if Lookup(s, q.finalized).Some? && !Connected(s, q.finalized, Lookup(s, q.finalized).value, q.head, n, branch) then
      Some(Disconnected(Finalized))
    else if Lookup(s, q.safe).Some? && !Connected(s, q.safe, Lookup(s, q.safe).value, q.head, n, branch) then
      Some(Disconnected(Safe))
    else if LinkBlock(q.head, n, branch).hash !in s.headers then Some(UnlinkedHead)
    else if s.headers[LinkBlock(q.head, n, branch).hash].root !in r.roots then Some(StateNotReachable)
    else None
  }

  /** Why a request is refused, if it is. */
  function Refuses(s: Store, r: Reach, q: Request): Option<Refusal> {
    if q.head == ZERO then Some(InvalidHeadHash)
    else if OrderRefusal(s, q).Some? then OrderRefusal(s, q)
    else if Lookup(s, q.head).None? then Some(Syncing)
    else
      var head := Lookup(s, q.head).value;
      if SkipsReorg(s, r, q.head, head) then Some(NewHeadAlreadyCanonical)
      else
        match FindLink(s, q.head, head.number)
        case None => Some(UnlinkedHead)
        case Some(branch) => LinkRefusal(s, r, q, head.number, branch)
  }

  function NumberOf(header: Option<Header>): Option<nat> { if header.Some? then Some(header.value.number) else None }

  /** The store after an accepted request. */
  function Accepted(s: Store, q: Request): Store
    requires Lookup(s, q.head).Some? && FindLink(s, q.head, Lookup(s, q.head).value.number).Some?
  {
    var n := Lookup(s, q.head).value.number;
    Update(s, FindLink(s, q.head, n).value, Block(n, q.head), NumberOf(Lookup(s, q.safe)), NumberOf(Lookup(s, q.finalized)))
  }

  // ---------------------------------------------------------------- what a link is

  /** The link height is a height of the old chain, and the head descends from its block. */
  lemma {:induction false} LinkIsCommon(s: Store, h: Hash, n: nat)
    requires Linked(s) && h in s.headers && s.headers[h].number == n && FindLink(s, h, n).Some?
    ensures var link := LinkHeight(s, h, n, FindLink(s, h, n).value);
            && s.earliest <= link <= n && link in s.canonical
            && Ancestor(s.headers, h, n - link) == Some(s.canonical[link])
  {
    if IsCanonical(s, n, h) {
      assert LinkedAt(s, n);
    } else {
      BranchJoins(s, h, n);
      var branch := Branch(s, h, n).value;
      PathAncestor(s, h, n, branch, |branch|);
      AncestorStep(s.headers, h, |branch|);
    }
  }

  /** Above the link height, no ancestor of the head is canonical. */
  lemma {:induction false} AboveLink(s: Store, h: Hash, n: nat, k: nat)
    requires h in s.headers && FindLink(s, h, n).Some? && LinkHeight(s, h, n, FindLink(s, h, n).value) + k < n
    ensures k <= n && Ancestor(s.headers, h, k).Some? && !IsCanonical(s, n - k, Ancestor(s.headers, h, k).value)
  {
    BranchJoins(s, h, n);
    PathAncestor(s, h, n, Branch(s, h, n).value, k);
  }

  lemma {:induction false} PathAncestor(s: Store, h: Hash, n: nat, branch: seq<Block>, i: nat)
    requires Joins(s, h, n, branch) && i <= |branch|
    ensures Ancestor(s.headers, h, i) == Some(PathAt(h, n, branch, i).hash)
    decreases i
  {
    assert PathAt(h, n, branch, 0).hash in s.headers;
    if i > 0 {
      PathAncestor(s, h, n, branch, i - 1);
      assert s.headers[PathAt(h, n, branch, i - 1).hash].parent == branch[i - 1].hash;
      assert PathAt(h, n, branch, i).hash in s.headers;
      AncestorStep(s.headers, h, i - 1);
    }
  }

  /** One more generation: the parent of the k-th ancestor. */
  lemma {:induction false} AncestorStep(headers: map<Hash, Header>, h: Hash, k: nat)
    requires Ancestor(headers, h, k).Some?
    ensures var a := Ancestor(headers, h, k).value;
            a in headers &&
            Ancestor(headers, h, k + 1) == if headers[a].parent in headers then Some(headers[a].parent) else None
    decreases k
  {
    if k > 0 { AncestorStep(headers, headers[h].parent, k - 1); }
  }

  // ---------------------------------------------------------------- accepted updates

  /** An accepted update keeps the canonical chain linked and leaves it unchanged up to the link. */
  lemma {:induction false} AcceptedLinked(s: Store, q: Request)
    requires Linked(s) && Numbered(s.headers) && Lookup(s, q.head).Some?
    requires FindLink(s, q.head, Lookup(s, q.head).value.number).Some?
    ensures var s', n := Accepted(s, q), Lookup(s, q.head).value.number;
            && Linked(s') && s'.latest == n && s'.headers == s.headers && IsCanonical(s', n, q.head)
            && forall m: nat | m <= LinkHeight(s, q.head, n, FindLink(s, q.head, n).value) :: SameAt(s, s', m)
  {
    var n := Lookup(s, q.head).value.number;
    var safe, fin := NumberOf(Lookup(s, q.safe)), NumberOf(Lookup(s, q.finalized));
    if IsCanonical(s, n, q.head) {
      TruncateLinked(s, q.head, n, safe, fin);
    } else {
      var branch := Branch(s, q.head, n).value;
      BranchJoins(s, q.head, n);
      BranchUpdateLinked(s, q.head, n, branch, safe, fin);
      forall m: nat | m <= n - 1 - |branch| ensures SameAt(s, Update(s, branch, Block(n, q.head), safe, fin), m) {
        UpdatedAt(s, q.head, n, branch, safe, fin, m);
      }
    }
  }

  /** Nothing at or below the latest height less the ceiling ever changes. */
  lemma {:induction false} DepthBounded(s: Store, r: Reach, q: Request, m: nat)
    requires Linked(s) && Numbered(s.headers) && Refuses(s, r, q).None? && m + Ceiling(r, s.latest) <= s.latest
    ensures SameAt(s, Accepted(s, q), m)
  {
    AcceptedLinked(s, q);
  }

  // ---------------------------------------------------------------- safe and finalized

  /** A block of the old chain at the height of the lowest new block: it passes the test although
      the new chain replaces it. */
  predicate Replaced(s: Store, q: Hash, header: Header, h: Hash, n: nat, branch: seq<Block>) {
    !IsCanonical(s, n, h) && IsCanonical(s, header.number, q) && header.number == LinkBlock(h, n, branch).number
  }

  /** A block that passes the test is the head or an ancestor of it, unless it is the one old
      block that the test lets through. */
  lemma {:induction false} ConnectedIsAncestor(s: Store, q: Hash, h: Hash, n: nat)
    requires Linked(s) && Numbered(s.headers) && h in s.headers && s.headers[h].number == n && FindLink(s, h, n).Some?
    requires q in s.headers && Connected(s, q, s.headers[q], h, n, FindLink(s, h, n).value)
    ensures IsAncestor(s.headers, q, h) <==> !Replaced(s, q, s.headers[q], h, n, FindLink(s, h, n).value)
  {
    var m, branch := s.headers[q].number, FindLink(s, h, n).value;
    if Replaced(s, q, s.headers[q], h, n, branch) {
      ReplacedIsNot(s, q, h, n);
    } else if IsCanonical(s, m, q) && m <= LinkBlock(h, n, branch).number {
      CanonicalIsAncestor(s, q, h, n);
    } else if q == h {
      assert Ancestor(s.headers, h, 0) == Some(h);
    } else {
      BranchJoins(s, h, n);
      var i :| 0 <= i < |branch| && branch[i] == Block(m, q);
      PathAncestor(s, h, n, branch, i + 1);
    }
  }

  lemma {:induction false} CanonicalIsAncestor(s: Store, q: Hash, h: Hash, n: nat)
    requires Linked(s) && h in s.headers && s.headers[h].number == n && FindLink(s, h, n).Some?
    requires q in s.headers && IsCanonical(s, s.headers[q].number, q)
    requires s.headers[q].number <= LinkHeight(s, h, n, FindLink(s, h, n).value)
    ensures IsAncestor(s.headers, q, h)
  {
    var m, link := s.headers[q].number, LinkHeight(s, h, n, FindLink(s, h, n).value);
    LinkIsCommon(s, h, n);
    CanonicalAncestry(s, link, m);
    AncestorTrans(s.headers, h, n - link, link - m);
  }

  lemma {:induction false} AncestorTrans(headers: map<Hash, Header>, h: Hash, j: nat, k: nat)
    requires Ancestor(headers, h, j).Some?
    ensures Ancestor(headers, h, j + k) == Ancestor(headers, Ancestor(headers, h, j).value, k)
    decreases j
  {
    if j > 0 { AncestorTrans(headers, headers[h].parent, j - 1, k); }
  }

  lemma {:induction false} ReplacedIsNot(s: Store, q: Hash, h: Hash, n: nat)
    requires Linked(s) && Numbered(s.headers) && h in s.headers && s.headers[h].number == n && FindLink(s, h, n).Some?
    requires q in s.headers && Replaced(s, q, s.headers[q], h, n, FindLink(s, h, n).value)
    ensures !IsAncestor(s.headers, q, h)
  {
    BranchJoins(s, h, n);
    AboveLink(s, h, n, n - s.headers[q].number);
    forall k: nat ensures Ancestor(s.headers, h, k) != Some(q) {
      if Ancestor(s.headers, h, k) == Some(q) { AncestorNumber(s.headers, h, k); }
    }
  }

  /** A fork of two blocks on genesis, the old chain's one block being finalized: accepted, and
      yet the new chain does not contain the finalized block. */
  lemma {:induction false} FinalizedReplaced() returns (s: Store, r: Reach, q: Request)
    ensures Linked(s) && Numbered(s.headers) && Refuses(s, r, q).None?
    ensures q.finalized in s.headers && !IsAncestor(s.headers, q.finalized, q.head)
  {
    var headers := map[1 := Header(0, 9, 10), 2 := Header(1, 1, 11), 3 := Header(1, 1, 12), 4 := Header(2, 3, 13)];
    s := Store(headers, map[0 := 1, 1 := 2], 1, 0, None, None);
    r := Reach({12}, 128, None, None, None);
    q := Request(4, 2, 2);
    assert LinkedAt(s, 0) && LinkedAt(s, 1);
    assert Branch(s, 3, 1) == Some([]);
    assert !IsCanonical(s, 1, 3) && [Block(1, 3)] + [] == [Block(1, 3)];
    assert Branch(s, 4, 2) == Some([Block(1, 3)]);
    ReplacedIsNot(s, 2, 4, 2);
  }

  // ---------------------------------------------------------------- the deep path

  /** What executing one block of the replay comes to. */
  datatype BlockRun = Missing | Fine | Invalid | Faulty

  /** Whether the flat store is complete, whether the overlay installs, and how each block runs. */
  datatype Exec = Exec(flatReady: bool, overlayInstalls: bool, run: Hash -> BlockRun)

  /** The block whose state the overlay serves. */
  function Pivot(s: Store, h: Hash, n: nat, branch: seq<Block>): nat {
    if branch != [] then SatSub(branch[|branch| - 1].number, 1)
    else if IsCanonical(s, n, h) then n
    else SatSub(n, 1)
  }

  /** The blocks to execute on top of the pivot, oldest first. */
  function Replay(s: Store, h: Hash, n: nat, branch: seq<Block>): seq<Block> {
    if IsCanonical(s, n, h) then [] else seq(|branch| + 1, i requires 0 <= i <= |branch| => PathAt(h, n, branch, |branch| - i))
  }

  function RunReplay(s: Store, blocks: seq<Block>, run: Hash -> BlockRun): Option<Refusal> {
    if blocks == [] then None
    else
      match run(blocks[0].hash)
      case Missing => Some(UnlinkedHead)
      case Invalid => Some(InvalidAncestor(if blocks[0].hash in s.headers then s.headers[blocks[0].hash].parent else ZERO))
      case Faulty => Some(StateNotReachable)
      case Fine => RunReplay(s, blocks[1..], run)
  }

  function DeepRefuses(s: Store, r: Reach, q: Request, e: Exec): Option<Refusal> {
    if !e.flatReady || q.head !in s.headers then Some(Syncing)
    else
      var n := s.headers[q.head].number;
      match FindLink(s, q.head, n)
      case None => Some(UnlinkedHead)
      case Some(branch) =>
        if r.highest.None? || r.highest.value < Pivot(s, q.head, n, branch) + 1 || !e.overlayInstalls then Some(StateNotReachable)
        else RunReplay(s, Replay(s, q.head, n, branch), e.run)
  }

  /** The whole update: the deep path takes over when only the state is out of reach. */
  function Decides(s: Store, r: Reach, q: Request, e: Exec): Option<Refusal> {
    if Refuses(s, r, q) == Some(StateNotReachable) then DeepRefuses(s, r, q, e) else Refuses(s, r, q)
  }

  /** A stored block belongs to the new chain, up to the one exception of the connectivity test. */
  ghost predicate Belongs(s: Store, q: Request, x: Hash)
    requires q.head in s.headers && FindLink(s, q.head, s.headers[q.head].number).Some?
  {
    var n := s.headers[q.head].number;
    Lookup(s, x).Some? ==>
      (IsAncestor(s.headers, x, q.head) <==> !Replaced(s, x, s.headers[x], q.head, n, FindLink(s, q.head, n).value))
  }

  /** An update that passed the shallow tests, or was left to the deep path, names safe and
      finalized blocks that are the head or its ancestors, up to the one exception. */
  lemma {:induction false} TestedElements(s: Store, r: Reach, q: Request)
    requires Linked(s) && Numbered(s.headers) && (Refuses(s, r, q).None? || Refuses(s, r, q) == Some(StateNotReachable))
    ensures q.head in s.headers && FindLink(s, q.head, s.headers[q.head].number).Some?
    ensures Belongs(s, q, q.finalized) && Belongs(s, q, q.safe)
  {
    var n := s.headers[q.head].number;
    if Lookup(s, q.finalized).Some? { ConnectedIsAncestor(s, q.finalized, q.head, n); }
    if Lookup(s, q.safe).Some? { ConnectedIsAncestor(s, q.safe, q.head, n); }
  }

  /** So the safe and finalized blocks of an update accepted by either path belong to its chain. */
  lemma {:induction false} AcceptedElements(s: Store, r: Reach, q: Request, e: Exec)
    requires Linked(s) && Numbered(s.headers) && Decides(s, r, q, e).None?
    ensures q.head in s.headers && FindLink(s, q.head, s.headers[q.head].number).Some?
    ensures Belongs(s, q, q.finalized) && Belongs(s, q, q.safe)
  {
    TestedElements(s, r, q);
  }

  /** The pivot is the height the depth gate measured from: the highest common block. */
  lemma {:induction false} PivotIsLink(s: Store, h: Hash, n: nat)
    requires Linked(s) && h in s.headers && s.headers[h].number == n && FindLink(s, h, n).Some?
    ensures var p := Pivot(s, h, n, FindLink(s, h, n).value);
            && p == LinkHeight(s, h, n, FindLink(s, h, n).value) <= n && p in s.canonical
            && Ancestor(s.headers, h, n - p) == Some(s.canonical[p])
            && forall k: nat | p + k < n :: Ancestor(s.headers, h, k).Some? && !IsCanonical(s, n - k, Ancestor(s.headers, h, k).value)
  {
    LinkIsCommon(s, h, n);
    forall k: nat | Pivot(s, h, n, FindLink(s, h, n).value) + k < n
      ensures Ancestor(s.headers, h, k).Some? && !IsCanonical(s, n - k, Ancestor(s.headers, h, k).value)
    {
      AboveLink(s, h, n, k);
    }
  }

  /** The replay is exactly the run from above the pivot to the head: consecutive heights, each
      block the parent of the next, the first one on the pivot; empty only for a canonical head. */
  lemma {:induction false} ReplayIsRun(s: Store, h: Hash, n: nat)
    requires Linked(s) && Numbered(s.headers) && h in s.headers && s.headers[h].number == n && FindLink(s, h, n).Some?
    ensures var branch := FindLink(s, h, n).value;
            var p, replay := Pivot(s, h, n, branch), Replay(s, h, n, branch);
            && p <= n && |replay| == n - p && (replay == [] <==> IsCanonical(s, n, h))
            && (forall i | 0 <= i < |replay| :: RunsAfter(s, p, replay, i))
            && (replay != [] ==> replay[|replay| - 1] == Block(n, h))
  {
    var branch := FindLink(s, h, n).value;
    if !IsCanonical(s, n, h) {
      BranchJoins(s, h, n);
      var p, replay := Pivot(s, h, n, branch), Replay(s, h, n, branch);
      forall k | 0 <= k <= |branch| ensures Parented(s, h, n, branch, k) { NewParent(s, h, n, branch, k); }
      assert p == n - 1 - |branch| by { assert Parented(s, h, n, branch, |branch|); }
      PathRuns(s, h, n, branch, p, replay);
    }
  }

  lemma {:induction false} PathRuns(s: Store, h: Hash, n: nat, branch: seq<Block>, p: nat, replay: seq<Block>)
    requires |replay| == |branch| + 1 <= n && p == n - 1 - |branch| && forall k | 0 <= k <= |branch| :: Parented(s, h, n, branch, k)
    requires forall j | 0 <= j < |replay| :: replay[j] == PathAt(h, n, branch, |branch| - j)
    ensures forall i | 0 <= i < |replay| :: RunsAfter(s, p, replay, i)
  {
    forall i | 0 <= i < |replay| ensures RunsAfter(s, p, replay, i) {
      assert Parented(s, h, n, branch, |branch| - i);
      RunsAfterParent(s, h, n, branch, replay, i);
    }
  }

  lemma {:induction false} RunsAfterParent(s: Store, h: Hash, n: nat, branch: seq<Block>, replay: seq<Block>, i: nat)
    requires i < |replay| == |branch| + 1 <= n && Parented(s, h, n, branch, |branch| - i)
    requires replay[i] == PathAt(h, n, branch, |branch| - i)
    requires i > 0 ==> replay[i - 1] == PathAt(h, n, branch, |branch| - i + 1)
    ensures RunsAfter(s, n - 1 - |branch|, replay, i)
  {}

  /** Block i of the replay sits at its height and on top of the one before it. */
  ghost predicate RunsAfter(s: Store, p: nat, replay: seq<Block>, i: nat) requires i < |replay| {
    && replay[i].number == p + 1 + i && replay[i].hash in s.headers && s.headers[replay[i].hash].number == p + 1 + i
    && (if i == 0 then p in s.canonical && s.headers[replay[i].hash].parent == s.canonical[p]
        else s.headers[replay[i].hash].parent == replay[i - 1].hash)
  }

  /** A replay is refused for its first block that does not run: an invalid one is reported by its
      parent. One that is accepted ran every block. */
  lemma {:induction false} ReplayVerdict(s: Store, blocks: seq<Block>, run: Hash -> BlockRun) returns (i: nat)
    requires forall b | b in blocks :: b.hash in s.headers
    ensures i <= |blocks| && (forall j | 0 <= j < i :: run(blocks[j].hash) == Fine)
    ensures RunReplay(s, blocks, run).None? <==> i == |blocks|
    ensures i < |blocks| ==> run(blocks[i].hash) != Fine
    ensures i < |blocks| && run(blocks[i].hash) == Invalid ==>
              RunReplay(s, blocks, run) == Some(InvalidAncestor(s.headers[blocks[i].hash].parent))
    ensures i < |blocks| && run(blocks[i].hash) == Missing ==> RunReplay(s, blocks, run) == Some(UnlinkedHead)
    ensures i < |blocks| && run(blocks[i].hash) == Faulty ==> RunReplay(s, blocks, run) == Some(StateNotReachable)
  {
    if blocks == [] || run(blocks[0].hash) != Fine {
      i := 0;
    } else {
      var rest := ReplayVerdict(s, blocks[1..], run);
      i := rest + 1;
      forall j | 0 <= j < i ensures run(blocks[j].hash) == Fine {
        if j > 0 { assert blocks[1..][j - 1] == blocks[j]; }
      }
    }
  }

  /** On either path, an accepted update keeps the chain linked and bounded, and ran its replay
      to the end. */
  lemma {:induction false} DecidedSafely(s: Store, r: Reach, q: Request, e: Exec)
    requires Linked(s) && Numbered(s.headers) && Decides(s, r, q, e).None?
    ensures Lookup(s, q.head).Some? && FindLink(s, q.head, s.headers[q.head].number).Some?
    ensures var s' := Accepted(s, q);
            && Linked(s') && s'.headers == s.headers && IsCanonical(s', s'.latest, q.head)
            && forall m: nat | m + Ceiling(r, s.latest) <= s.latest :: SameAt(s, s', m)
  {
    AcceptedLinked(s, q);
  }
}
