/** Which updates each path accepts, said of ancestors, canonical blocks and states
    (crates/blockchain/fork_choice.rs). */
module ForkChoiceLaws {
  import opened Options
  import opened Numbers
  import opened Chain
  import opened ForkChoice

  // ---------------------------------------------------------------- where the new chain begins

  /** Block b, k generations above the head, is where the new chain begins: the head itself when
      it is canonical, and otherwise the ancestor right above the highest canonical one. */
  ghost predicate FirstNew(s: Store, h: Hash, k: nat, b: Hash) {
    && h in s.headers && Ancestor(s.headers, h, k) == Some(b) && b in s.headers
    && var n := s.headers[h].number;
       if IsCanonical(s, n, h) then k == 0
       else k < n && IsCanonical(s, n - k - 1, s.headers[b].parent) && forall j: nat | j <= k :: NotCanonicalAt(s, h, j)
  }

  ghost predicate NotCanonicalAt(s: Store, h: Hash, j: nat) requires h in s.headers {
    j <= s.headers[h].number && Ancestor(s.headers, h, j).Some? && !IsCanonical(s, s.headers[h].number - j, Ancestor(s.headers, h, j).value)
  }

  /** The height of the highest canonical ancestor. */
  function MeetsAt(s: Store, h: Hash, k: nat): nat requires h in s.headers {
    if IsCanonical(s, s.headers[h].number, h) then s.headers[h].number else SatSub(s.headers[h].number, k + 1)
  }

  lemma {:induction false} LinkIsFirstNew(s: Store, h: Hash, n: nat)
    requires Linked(s) && Numbered(s.headers) && h in s.headers && s.headers[h].number == n && FindLink(s, h, n).Some?
    ensures var branch := FindLink(s, h, n).value;
            && FirstNew(s, h, |branch|, LinkBlock(h, n, branch).hash) && LinkBlock(h, n, branch).number == n - |branch|
            && MeetsAt(s, h, |branch|) == LinkHeight(s, h, n, branch)
  {
    var branch := FindLink(s, h, n).value;
    if !IsCanonical(s, n, h) {
      forall j: nat | j <= |branch| ensures NotCanonicalAt(s, h, j) { NewAt(s, h, n, j); }
      NewAt(s, h, n, |branch|);
    }
  }

  /** Block j of the path to a link. */
  lemma {:induction false} NewAt(s: Store, h: Hash, n: nat, j: nat)
    requires Linked(s) && Numbered(s.headers) && h in s.headers && s.headers[h].number == n && !IsCanonical(s, n, h)
    requires Branch(s, h, n).Some? && j <= |Branch(s, h, n).value|
    ensures var branch := Branch(s, h, n).value;
            var b := PathAt(h, n, branch, j);
            && |branch| < n && NotCanonicalAt(s, h, j) && Ancestor(s.headers, h, j) == Some(b.hash) && b == Block(n - j, b.hash)
            && b.hash in s.headers && (j == |branch| ==> IsCanonical(s, n - j - 1, s.headers[b.hash].parent))
  {
    BranchAt(s, h, n, j);
    BranchAncestor(s, h, n, j);
  }

  lemma {:induction false} BranchAncestor(s: Store, h: Hash, n: nat, j: nat)
    requires Branch(s, h, n).Some? && j <= |Branch(s, h, n).value|
    ensures Ancestor(s.headers, h, j) == Some(PathAt(h, n, Branch(s, h, n).value, j).hash)
  {
    BranchJoins(s, h, n);
    PathAncestor(s, h, n, Branch(s, h, n).value, j);
  }

  lemma {:induction false} FirstNewUnique(s: Store, h: Hash, j: nat, a: Hash, k: nat, b: Hash)
    requires Linked(s) && FirstNew(s, h, j, a) && FirstNew(s, h, k, b)
    ensures j == k && a == b
  {
    if j < k { FirstNewLeast(s, h, j, a, k, b); }
    if k < j { FirstNewLeast(s, h, k, b, j, a); }
  }

  lemma {:induction false} FirstNewLeast(s: Store, h: Hash, j: nat, a: Hash, k: nat, b: Hash)
    requires Linked(s) && FirstNew(s, h, j, a) && FirstNew(s, h, k, b)
    ensures j >= k
  {
    if !IsCanonical(s, s.headers[h].number, h) && j < k {
      assert NotCanonicalAt(s, h, j + 1);
      AncestorStep(s.headers, h, j);
    }
  }

  lemma {:induction false} FirstNewIsLink(s: Store, h: Hash, n: nat, k: nat, b: Hash)
    requires Linked(s) && Numbered(s.headers) && FirstNew(s, h, k, b) && s.headers[h].number == n
    ensures FindLink(s, h, n).Some? && |FindLink(s, h, n).value| == k && LinkBlock(h, n, FindLink(s, h, n).value).hash == b
  {
    if FindLink(s, h, n).None? {
      AncestorStep(s.headers, h, k);
      assert LinkedAt(s, n - k - 1);
      NoBranch(s, h, n, k + 1);
    } else {
      LinkIsFirstNew(s, h, n);
      FirstNewUnique(s, h, k, b, |FindLink(s, h, n).value|, LinkBlock(h, n, FindLink(s, h, n).value).hash);
    }
  }

  // ---------------------------------------------------------------- the conditions

  /** A named safe block is stored and no higher than the head, and a finalized one named with it
      is stored and no higher than the safe one. */
  predicate InOrder(s: Store, q: Request) {
    && (q.safe != ZERO ==> q.safe in s.headers && q.head in s.headers && s.headers[q.safe].number <= s.headers[q.head].number)
    && (q.safe != ZERO && q.finalized != ZERO ==>
          q.safe in s.headers && q.finalized in s.headers && s.headers[q.finalized].number <= s.headers[q.safe].number)
  }

  /** The head is a canonical block below the latest, not above the recorded finalized height, and
      its state is there. */
  predicate OldNews(s: Store, r: Reach, h: Hash) requires h in s.headers {
    && s.finalized.Some? && s.headers[h].number <= s.finalized.value && s.headers[h].number < s.latest
    && IsCanonical(s, s.headers[h].number, h) && s.headers[h].root in r.roots
  }

  ghost predicate Within(headers: map<Hash, Header>, h: Hash, k: nat, x: Hash) {
    exists j: nat | j <= k :: Ancestor(headers, h, j) == Some(x)
  }

  /** The block is on the new part of the chain, or canonical up to the height where it begins. */
  ghost predicate Attested(s: Store, h: Hash, k: nat, x: Hash) requires h in s.headers && x in s.headers {
    || Within(s.headers, h, k, x)
    || (IsCanonical(s, s.headers[x].number, x) && s.headers[x].number + k <= s.headers[h].number)
  }

  ghost predicate Vouched(s: Store, h: Hash, k: nat, x: Hash) requires h in s.headers {
    x != ZERO && x in s.headers ==> Attested(s, h, k, x)
  }

  ghost predicate Eligible(s: Store, r: Reach, q: Request) {
    q.head != ZERO && q.head in s.headers && InOrder(s, q) && !OldNews(s, r, q.head)
  }

  /** Everything but the state of block b holds. */
  ghost predicate Passes(s: Store, r: Reach, q: Request, k: nat, b: Hash) {
    && Eligible(s, r, q) && FirstNew(s, q.head, k, b)
    && s.latest <= MeetsAt(s, q.head, k) + Ceiling(r, s.latest)
    && Vouched(s, q.head, k, q.finalized) && Vouched(s, q.head, k, q.safe)
  }

  /** The update is taken: the state of the block where the new chain begins is there. */
  ghost predicate Takes(s: Store, r: Reach, q: Request) {
    exists k: nat, b: Hash :: Passes(s, r, q, k, b) && s.headers[b].root in r.roots
  }

  /** Only that state is missing. */
  ghost predicate Misses(s: Store, r: Reach, q: Request) {
    exists k: nat, b: Hash :: Passes(s, r, q, k, b) && s.headers[b].root !in r.roots
  }

  // ---------------------------------------------------------------- the shallow path

  lemma {:induction false} ConnectedIs(s: Store, h: Hash, n: nat, x: Hash)
    requires Linked(s) && Numbered(s.headers) && h in s.headers && s.headers[h].number == n && FindLink(s, h, n).Some? && x in s.headers
    ensures var branch := FindLink(s, h, n).value;
            Connected(s, x, s.headers[x], h, n, branch) <==> Attested(s, h, |branch|, x)
  {
    var branch := FindLink(s, h, n).value;
    LinkIsFirstNew(s, h, n);
    WithinIs(s, h, n, x);
  }

  /** The head and its branch are the ancestors down to where the new chain begins. */
  lemma {:induction false} WithinIs(s: Store, h: Hash, n: nat, x: Hash)
    requires Linked(s) && Numbered(s.headers) && h in s.headers && s.headers[h].number == n && FindLink(s, h, n).Some? && x in s.headers
    ensures var branch := FindLink(s, h, n).value;
            Within(s.headers, h, |branch|, x)
            <==> (s.headers[x].number == n && x == h) || Block(s.headers[x].number, x) in branch
  {
    var branch := FindLink(s, h, n).value;
    if x == h { assert Ancestor(s.headers, h, 0) == Some(x); }
    if Block(s.headers[x].number, x) in branch {
      var i :| 0 <= i < |branch| && branch[i] == Block(s.headers[x].number, x);
      NewAt(s, h, n, i + 1);
    }
    if j: nat :| j <= |branch| && Ancestor(s.headers, h, j) == Some(x) {
      AncestorNumber(s.headers, h, j);
      if j > 0 {
        NewAt(s, h, n, j);
        assert branch[j - 1] == Block(s.headers[x].number, x);
      }
    }
  }

  /** Past the head, order and finality checks, what the link checks come to. */
  lemma {:induction false} LinkExact(s: Store, r: Reach, q: Request, n: nat, k: nat, b: Hash)
    requires Linked(s) && Numbered(s.headers) && Eligible(s, r, q) && s.headers[q.head].number == n && FirstNew(s, q.head, k, b)
    ensures FindLink(s, q.head, n).Some?
    ensures var d := SatSub(s.latest, MeetsAt(s, q.head, k));
            LinkRefusal(s, r, q, n, FindLink(s, q.head, n).value) ==
            if d > Ceiling(r, s.latest) then Some(TooDeepReorg(d, Ceiling(r, s.latest)))
            else if !Vouched(s, q.head, k, q.finalized) then Some(Disconnected(Finalized))
            else if !Vouched(s, q.head, k, q.safe) then Some(Disconnected(Safe))
            else if s.headers[b].root !in r.roots then Some(StateNotReachable)
            else None
  {
    FirstNewIsLink(s, q.head, n, k, b);
    LinkIsFirstNew(s, q.head, n);
    if q.finalized in s.headers { ConnectedIs(s, q.head, n, q.finalized); }
    if q.safe in s.headers { ConnectedIs(s, q.head, n, q.safe); }
  }

  lemma {:induction false} SoundIs(s: Store, r: Reach, q: Request)
    ensures Eligible(s, r, q) ==>
              Refuses(s, r, q) == match FindLink(s, q.head, s.headers[q.head].number)
                                  case None => Some(UnlinkedHead)
                                  case Some(branch) => LinkRefusal(s, r, q, s.headers[q.head].number, branch)
    ensures !Eligible(s, r, q) ==>
              Refuses(s, r, q).Some? && !Refuses(s, r, q).value.StateNotReachable? && !Refuses(s, r, q).value.TooDeepReorg? &&
              !Refuses(s, r, q).value.Disconnected? && !Refuses(s, r, q).value.UnlinkedHead?
  {}

  lemma {:induction false} ShallowPasses(s: Store, r: Reach, q: Request, k: nat, b: Hash)
    requires Linked(s) && Numbered(s.headers) && Passes(s, r, q, k, b)
    ensures Refuses(s, r, q) == if s.headers[b].root in r.roots then None else Some(StateNotReachable)
  {
    SoundIs(s, r, q);
    LinkExact(s, r, q, s.headers[q.head].number, k, b);
  }

  lemma {:induction false} PassedShallow(s: Store, r: Reach, q: Request) returns (k: nat, b: Hash)
    requires Linked(s) && Numbered(s.headers) && (Refuses(s, r, q).None? || Refuses(s, r, q) == Some(StateNotReachable))
    ensures Passes(s, r, q, k, b)
  {
    SoundIs(s, r, q);
    var n := s.headers[q.head].number;
    var branch := FindLink(s, q.head, n).value;
    k, b := |branch|, LinkBlock(q.head, n, branch).hash;
    LinkIsFirstNew(s, q.head, n);
    LinkExact(s, r, q, n, k, b);
  }

  /** The shallow path accepts an update exactly when it passes every check and the state of the
      block where the new chain begins is there, and leaves it to the deep path exactly when it
      passes them and that state is missing. */
  lemma {:induction false} RefusesExact(s: Store, r: Reach, q: Request)
    requires Linked(s) && Numbered(s.headers)
    ensures Refuses(s, r, q).None? <==> Takes(s, r, q)
    ensures Refuses(s, r, q) == Some(StateNotReachable) <==> Misses(s, r, q)
  {
    if Refuses(s, r, q).None? || Refuses(s, r, q) == Some(StateNotReachable) {
      var k, b := PassedShallow(s, r, q);
      ShallowPasses(s, r, q, k, b);
    }
    if k: nat, b: Hash :| Passes(s, r, q, k, b) && s.headers[b].root in r.roots { ShallowPasses(s, r, q, k, b); }
    if k: nat, b: Hash :| Passes(s, r, q, k, b) && s.headers[b].root !in r.roots { ShallowPasses(s, r, q, k, b); }
  }

  /** What each other refusal means. */
  ghost predicate Reason(s: Store, r: Reach, q: Request, e: Refusal) {
    match e
    case InvalidHeadHash => q.head == ZERO
    case Syncing => q.head != ZERO && q.head !in s.headers
    case ElementNotFound(x) =>
      q.head in s.headers && q.safe != ZERO && x != Head && (x == Safe <==> q.safe !in s.headers) && (x == Finalized ==> q.finalized != ZERO && q.finalized !in s.headers)
    case Unordered =>
      && q.head in s.headers && q.safe != ZERO && q.safe in s.headers
      && (s.headers[q.safe].number > s.headers[q.head].number ||
          (q.finalized != ZERO && q.finalized in s.headers && s.headers[q.finalized].number > s.headers[q.safe].number))
    case NewHeadAlreadyCanonical => q.head != ZERO && InOrder(s, q) && q.head in s.headers && OldNews(s, r, q.head)
    case UnlinkedHead => Eligible(s, r, q) && forall k: nat, b: Hash :: !FirstNew(s, q.head, k, b)
    case TooDeepReorg(d, l) =>
      Eligible(s, r, q) && l == Ceiling(r, s.latest) && exists k: nat, b: Hash :: FirstNew(s, q.head, k, b) && d == SatSub(s.latest, MeetsAt(s, q.head, k)) > l
    case Disconnected(x) =>
      Eligible(s, r, q) && x != Head && exists k: nat, b: Hash :: FirstNew(s, q.head, k, b) && !Vouched(s, q.head, k, if x == Safe then q.safe else q.finalized)
    case StateNotReachable => Misses(s, r, q)
    case InvalidAncestor(_) => false
  }

  lemma {:induction false} LinkReasons(s: Store, r: Reach, q: Request)
    requires Linked(s) && Numbered(s.headers) && Eligible(s, r, q) && Refuses(s, r, q).Some?
    ensures Reason(s, r, q, Refuses(s, r, q).value)
  {
    var n := s.headers[q.head].number;
    SoundIs(s, r, q);
    if FindLink(s, q.head, n).None? {
      forall k: nat, b: Hash ensures !FirstNew(s, q.head, k, b) {
        if FirstNew(s, q.head, k, b) { FirstNewIsLink(s, q.head, n, k, b); }
      }
    } else {
      var branch := FindLink(s, q.head, n).value;
      LinkIsFirstNew(s, q.head, n);
      LinkExact(s, r, q, n, |branch|, LinkBlock(q.head, n, branch).hash);
      RefusesExact(s, r, q);
    }
  }

  lemma {:induction false} RefusalReasons(s: Store, r: Reach, q: Request)
    requires Linked(s) && Numbered(s.headers) && Refuses(s, r, q).Some?
    ensures Reason(s, r, q, Refuses(s, r, q).value)
  {
    if Eligible(s, r, q) { LinkReasons(s, r, q); }
  }

  // ---------------------------------------------------------------- the deep path

  /** The deep path can serve the state where the chains meet and execute everything above it. */
  ghost predicate Replays(s: Store, r: Reach, q: Request, e: Exec, k: nat, b: Hash) {
    && FirstNew(s, q.head, k, b) && e.flatReady && e.overlayInstalls
    && r.highest.Some? && r.highest.value > MeetsAt(s, q.head, k)
    && (IsCanonical(s, s.headers[q.head].number, q.head) || forall j: nat | j <= k :: RunsAt(s, q.head, e, j))
  }

  ghost predicate RunsAt(s: Store, h: Hash, e: Exec, j: nat) {
    Ancestor(s.headers, h, j).Some? && e.run(Ancestor(s.headers, h, j).value) == Fine
  }

  ghost predicate DeepTakes(s: Store, r: Reach, q: Request, e: Exec) { exists k: nat, b: Hash :: Replays(s, r, q, e, k, b) }

  lemma {:induction false} AllFine(s: Store, blocks: seq<Block>, run: Hash -> BlockRun)
    ensures RunReplay(s, blocks, run).None? <==> forall i | 0 <= i < |blocks| :: run(blocks[i].hash) == Fine
  {
    if blocks != [] {
      AllFine(s, blocks[1..], run);
      assert forall i | 0 <= i < |blocks[1..]| :: blocks[1..][i] == blocks[i + 1];
      assert forall i | 0 < i < |blocks| :: blocks[i] == blocks[1..][i - 1];
    }
  }

  lemma {:induction false} ReplayRuns(s: Store, h: Hash, n: nat, e: Exec)
    requires Linked(s) && Numbered(s.headers) && h in s.headers && s.headers[h].number == n && FindLink(s, h, n).Some? && !IsCanonical(s, n, h)
    ensures var branch := FindLink(s, h, n).value;
            RunReplay(s, Replay(s, h, n, branch), e.run).None? <==> forall j: nat | j <= |branch| :: RunsAt(s, h, e, j)
  {
    var branch := FindLink(s, h, n).value;
    var replay := Replay(s, h, n, branch);
    BranchJoins(s, h, n);
    AllFine(s, replay, e.run);
    forall j: nat | j <= |branch| ensures RunsAt(s, h, e, j) <==> e.run(replay[|branch| - j].hash) == Fine {
      PathAncestor(s, h, n, branch, j);
    }
    forall i | 0 <= i < |replay| ensures e.run(replay[i].hash) == Fine <==> RunsAt(s, h, e, |branch| - i) {
      assert replay[|branch| - (|branch| - i)] == replay[i];
    }
  }

  /** The deep path accepts an update exactly when the journal reaches above the meeting point, the
      overlay installs, and every new block, the head included, executes. */
  lemma {:induction false} DeepExact(s: Store, r: Reach, q: Request, e: Exec)
    requires Linked(s) && Numbered(s.headers)
    ensures DeepRefuses(s, r, q, e).None? <==> DeepTakes(s, r, q, e)
  {
    if q.head in s.headers {
      var n := s.headers[q.head].number;
      if FindLink(s, q.head, n).Some? {
        var branch := FindLink(s, q.head, n).value;
        var b := LinkBlock(q.head, n, branch).hash;
        LinkIsFirstNew(s, q.head, n);
        PivotIsLink(s, q.head, n);
        if !IsCanonical(s, n, q.head) { ReplayRuns(s, q.head, n, e); }
        assert DeepRefuses(s, r, q, e).None? <==> Replays(s, r, q, e, |branch|, b);
        forall k: nat, a: Hash | Replays(s, r, q, e, k, a) ensures k == |branch| && a == b { FirstNewUnique(s, q.head, k, a, |branch|, b); }
      } else {
        forall k: nat, b: Hash ensures !Replays(s, r, q, e, k, b) {
          if FirstNew(s, q.head, k, b) { FirstNewIsLink(s, q.head, n, k, b); }
        }
      }
    }
  }

  /** Why the deep path refuses: the node or the head is not there, the head does not link, the state
      where the chains meet cannot be served, or the lowest block that does not run is to blame. */
  lemma {:induction false} DeepReasons(s: Store, r: Reach, q: Request, e: Exec, k: nat, b: Hash)
    requires Linked(s) && Numbered(s.headers)
    ensures DeepRefuses(s, r, q, e) == Some(Syncing) <==> !e.flatReady || q.head !in s.headers
    ensures e.flatReady && q.head in s.headers && (forall j: nat, a: Hash :: !FirstNew(s, q.head, j, a)) ==>
              DeepRefuses(s, r, q, e) == Some(UnlinkedHead)
    ensures e.flatReady && FirstNew(s, q.head, k, b) &&
            (!e.overlayInstalls || r.highest.None? || r.highest.value <= MeetsAt(s, q.head, k)) ==>
              DeepRefuses(s, r, q, e) == Some(StateNotReachable)
    ensures e.flatReady && FirstNew(s, q.head, k, b) && e.overlayInstalls && r.highest.Some? && r.highest.value > MeetsAt(s, q.head, k) &&
            !IsCanonical(s, s.headers[q.head].number, q.head) && e.run(b) != Fine ==>
              DeepRefuses(s, r, q, e) ==
              match e.run(b) { case Missing => Some(UnlinkedHead) case Faulty => Some(StateNotReachable) case _ => Some(InvalidAncestor(s.headers[b].parent)) }
  {
    if q.head in s.headers {
      var n := s.headers[q.head].number;
      if FindLink(s, q.head, n).Some? { LinkIsFirstNew(s, q.head, n); }
      if FirstNew(s, q.head, k, b) {
        FirstNewIsLink(s, q.head, n, k, b);
        PivotIsLink(s, q.head, n);
      }
    }
    NeverSyncing(s, r, q, e);
  }

  lemma {:induction false} NeverSyncing(s: Store, r: Reach, q: Request, e: Exec)
    requires Linked(s)
    ensures DeepRefuses(s, r, q, e) == Some(Syncing) ==> !e.flatReady || q.head !in s.headers
  {
    if e.flatReady && q.head in s.headers {
      var n := s.headers[q.head].number;
      if FindLink(s, q.head, n).Some? { ReplayNotSyncing(s, Replay(s, q.head, n, FindLink(s, q.head, n).value), e.run); }
    }
  }

  lemma {:induction false} ReplayNotSyncing(s: Store, blocks: seq<Block>, run: Hash -> BlockRun)
    ensures RunReplay(s, blocks, run) != Some(Syncing)
  {
    if blocks != [] { ReplayNotSyncing(s, blocks[1..], run); }
  }

  /** After an accepted update each marker is at the named block, if it is stored, and where it was
      otherwise; what is stored and where the chain starts stay as they were. */
  lemma {:induction false} AcceptedMarkers(s: Store, q: Request)
    requires q.head != ZERO && q.head in s.headers && FindLink(s, q.head, s.headers[q.head].number).Some?
    ensures var s' := Accepted(s, q);
            && s'.safe == (if q.safe != ZERO && q.safe in s.headers then Some(s.headers[q.safe].number) else s.safe)
            && s'.finalized == (if q.finalized != ZERO && q.finalized in s.headers then Some(s.headers[q.finalized].number) else s.finalized)
            && s'.latest == s.headers[q.head].number && s'.headers == s.headers && s'.earliest == s.earliest
  {}

  /** An update is accepted exactly when the shallow path takes it, or only a state is missing and
      the deep path takes it; and a named finalized block is then no higher than a named safe one,
      and this no higher than the head. */
  lemma {:induction false} DecidesExact(s: Store, r: Reach, q: Request, e: Exec)
    requires Linked(s) && Numbered(s.headers)
    ensures Decides(s, r, q, e).None? <==> Takes(s, r, q) || (Misses(s, r, q) && DeepTakes(s, r, q, e))
    ensures Decides(s, r, q, e).None? ==> q.head in s.headers && InOrder(s, q)
  {
    RefusesExact(s, r, q);
    DeepExact(s, r, q, e);
  }
}
