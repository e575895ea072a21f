/** The store as an object: fork choice updates it in place, and a restart recovers it
    (crates/blockchain/fork_choice.rs, crates/storage/store.rs, cmd/ethrex/initializers.rs). */
module BlockStore {
  import opened Options
  import opened Chain
  import opened ForkChoice
  import opened ForkChoiceLaws
  import opened Landing

  // ---------------------------------------------------------------- recovery of an interrupted batch

  /** The blocks from a committed block down to the one on top of the head, highest first. */
  function Climb(s: Store, hash: Hash, number: nat, head: nat): Option<seq<Block>>
    decreases number
  {
    if number <= head || head !in s.canonical || hash !in s.headers || s.headers[hash].number != number then None
    else if number == head + 1 then
      if s.headers[hash].parent == s.canonical[head] then Some([Block(number, hash)]) else None
    else
      match Climb(s, s.headers[hash].parent, number - 1, head)
      case None => None
      case Some(rest) => Some([Block(number, hash)] + rest)
  }

  /** Each block of a climb is stored at its height on top of the next, the last on the head. */
  ghost predicate Climbs(s: Store, number: nat, head: nat, range: seq<Block>) {
    && number > head && |range| == number - head && head in s.canonical
    && forall i | 0 <= i < |range| :: ClimbsAt(s, number, head, range, i)
  }

  ghost predicate ClimbsAt(s: Store, number: nat, head: nat, range: seq<Block>, i: nat)
    requires i < |range| && head in s.canonical
  {
    && range[i].number == number - i && range[i].hash in s.headers && s.headers[range[i].hash].number == number - i
    && s.headers[range[i].hash].parent == if i + 1 < |range| then range[i + 1].hash else s.canonical[head]
  }

  lemma {:induction false} ClimbClimbs(s: Store, hash: Hash, number: nat, head: nat)
    requires Climb(s, hash, number, head).Some?
    ensures Climbs(s, number, head, Climb(s, hash, number, head).value)
    ensures Climb(s, hash, number, head).value[0] == Block(number, hash)
    decreases number
  {
    if number > head + 1 {
      var p := s.headers[hash].parent;
      ClimbClimbs(s, p, number - 1, head);
      var rest, range := Climb(s, p, number - 1, head).value, Climb(s, hash, number, head).value;
      forall i | 0 <= i < |range| ensures ClimbsAt(s, number, head, range, i) {
        if i > 0 { assert ClimbsAt(s, number - 1, head, rest, i - 1) && range[i] == rest[i - 1]; }
      }
    }
  }

  /** There is only one climb from a block, and the walk finds it. */
  lemma {:induction false} ClimbsIsClimb(s: Store, hash: Hash, number: nat, head: nat, range: seq<Block>)
    requires Climbs(s, number, head, range) && range[0].hash == hash
    ensures Climb(s, hash, number, head) == Some(range)
    decreases number
  {
    assert ClimbsAt(s, number, head, range, 0);
    if number > head + 1 {
      var below, rest := number - 1, range[1..];
      assert ClimbsAt(s, number, head, range, 1);
      forall i | 0 <= i < |rest| ensures ClimbsAt(s, below, head, rest, i) { assert ClimbsAt(s, number, head, range, i + 1); }
      ClimbsIsClimb(s, rest[0].hash, below, head, rest);
      assert range == [Block(number, hash)] + rest;
    } else {
      assert range == [Block(number, hash)];
    }
  }

  /** Adopting a climb extends the canonical chain from the head to the committed block and
      changes nothing below. */
  lemma {:induction false} AdoptLinked(s: Store, number: nat, range: seq<Block>)
    requires Linked(s) && Climbs(s, number, s.latest, range)
    ensures var s' := Update(s, range, range[0], None, None);
            && Linked(s') && s'.latest == number
            && forall m: nat | m <= s.latest :: SameAt(s, s', m)
  {
    var s' := Update(s, range, range[0], None, None);
    assert ClimbsAt(s, number, s.latest, range, 0);
    assert Descends(range, number + 1) by {
      forall i | 0 <= i < |range| ensures range[i].number == number - i { assert ClimbsAt(s, number, s.latest, range, i); }
    }
    forall m: nat
      ensures m in s'.canonical <==> s.earliest <= m <= number
      ensures m <= s.latest ==> SameAt(s, s', m)
      ensures s.latest < m <= number ==> s'.canonical[m] == range[number - m].hash
    {
      PutDescending(s.canonical, range, number + 1, m);
      if s.earliest <= m <= s.latest { assert LinkedAt(s, m); }
    }
    forall m | s.earliest <= m <= number ensures LinkedAt(s', m) {
      if m <= s.latest { assert LinkedAt(s, m); } else { assert ClimbsAt(s, number, s.latest, range, number - m); }
    }
  }

  // ---------------------------------------------------------------- the object

  class ChainStore {
    var headers: map<Hash, Header>
    var canonical: map<nat, Hash>
    var latest: nat
    var safe: Option<nat>
    var finalized: Option<nat>
    const earliest: nat

    function View(): Store
      reads this
    {
      Store(headers, canonical, latest, earliest, safe, finalized)
    }

    constructor (genesis: Hash, header: Header)
      requires header.number == 0
      ensures Linked(View()) && headers == map[genesis := header] && earliest == latest == 0
    {
      headers, canonical, latest, earliest := map[genesis := header], map[0 := genesis], 0, 0;
      safe, finalized := None, None;
      new;
      assert LinkedAt(View(), 0);
    }

    /** Walks up from a block until a parent is canonical. */
    method FindLinkWithCanonicalChain(h: Hash) returns (r: Option<seq<Block>>)
      requires h in headers
      ensures r == FindLink(View(), h, headers[h].number)
    {
      var number: nat := headers[h].number;
      var branch: seq<Block> := [];
      if IsCanonical(View(), number, h) { return Some(branch); }
      var hash := h;
      assert Branch(View(), h, number).Some? ==> [] + Branch(View(), h, number).value == Branch(View(), h, number).value;
      while number > earliest
        invariant hash in headers
        invariant match Branch(View(), hash, number)
                  case None => Branch(View(), h, headers[h].number).None?
                  case Some(rest) => Branch(View(), h, headers[h].number) == Some(branch + rest)
        decreases number
      {
        number := number - 1;
        var parent := headers[hash].parent;
        if parent !in headers { return None; }
        if IsCanonical(View(), number, parent) {
          assert branch + [] == branch;
          return Some(branch);
        }
        ghost var rest := Branch(View(), parent, number);
        assert rest.Some? ==> branch + ([Block(number, parent)] + rest.value) == branch + [Block(number, parent)] + rest.value;
        branch := branch + [Block(number, parent)];
        hash := parent;
      }
      return None;
    }

    /** Writes the new canonical entries, deletes those above the head, then the markers. */
    method ForkchoiceUpdate(blocks: seq<Block>, head: Block, newSafe: Option<nat>, newFinalized: Option<nat>)
      modifies this`canonical, this`latest, this`safe, this`finalized
      ensures View() == Update(old(View()), blocks, head, newSafe, newFinalized)
    {
      for i := 0 to |blocks|
        invariant canonical == PutAll(old(canonical), blocks[..i])
        invariant latest == old(latest) && safe == old(safe) && finalized == old(finalized)
      {
        assert blocks[..i + 1][..i] == blocks[..i];
        canonical := canonical[blocks[i].number := blocks[i].hash];
      }
      assert blocks[..|blocks|] == blocks;
      ghost var put := canonical;
      var n := head.number + 1;
      while n <= latest
        invariant n > head.number && canonical == map m | m in put && !(head.number < m < n && m <= latest) :: put[m]
        invariant latest == old(latest) && safe == old(safe) && finalized == old(finalized)
        decreases latest + 1 - n
      {
        canonical := canonical - {n};
        n := n + 1;
      }
      assert canonical == DropAbove(put, head.number, latest);
      canonical := canonical[head.number := head.hash];
      latest := head.number;
      if newSafe.Some? { safe := newSafe; }
      if newFinalized.Some? { finalized := newFinalized; }
    }

    /** A fork choice update by the shallow path. */
    method ApplyForkChoice(r: Reach, q: Request) returns (e: Option<Refusal>)
      requires Linked(View()) && Numbered(headers)
      modifies this`canonical, this`latest, this`safe, this`finalized
      ensures e == Refuses(old(View()), r, q) && Linked(View())
      ensures if e.Some? then View() == old(View()) else Found(old(View()), q) && View() == Accepted(old(View()), q)
      ensures e.None? <==> Takes(old(View()), r, q)
      ensures e == Some(StateNotReachable) <==> Misses(old(View()), r, q)
    {
      RefusesExact(View(), r, q);
      if q.head == ZERO { return Some(InvalidHeadHash); }
      e := OrderRefusal(View(), q);
      if e.Some? { return; }
      if q.head !in headers { return Some(Syncing); }
      var head := headers[q.head];
      if SkipsReorg(View(), r, q.head, head) { return Some(NewHeadAlreadyCanonical); }
      var found := FindLinkWithCanonicalChain(q.head);
      if found.None? { return Some(UnlinkedHead); }
      e := LinkRefusal(View(), r, q, head.number, found.value);
      if e.Some? { return; }
      AcceptedLinked(View(), q);
      ForkchoiceUpdate(found.value, Block(head.number, q.head), NumberOf(Lookup(View(), q.safe)), NumberOf(Lookup(View(), q.finalized)));
    }

    /** Executes blocks oldest first, up to the first that does not run. */
    method ReplayBlocks(blocks: seq<Block>, run: Hash -> BlockRun) returns (e: Option<Refusal>)
      ensures e == RunReplay(View(), blocks, run)
    {
      var i := 0;
      while i < |blocks|
        invariant i <= |blocks| && RunReplay(View(), blocks, run) == RunReplay(View(), blocks[i..], run)
      {
        var h := blocks[i].hash;
        match run(h) {
          case Missing => return Some(UnlinkedHead);
          case Invalid => return Some(InvalidAncestor(if h in headers then headers[h].parent else ZERO));
          case Faulty => return Some(StateNotReachable);
          case Fine =>
        }
        assert blocks[i..][1..] == blocks[i + 1..];
        i := i + 1;
      }
      return None;
    }

    /** A fork choice update by either path. An accepted one names safe and finalized blocks of
        the new chain, up to the one exception. */
    method ApplyWithDeepReorg(r: Reach, q: Request, x: Exec) returns (e: Option<Refusal>)
      requires Linked(View()) && Numbered(headers)
      modifies this`canonical, this`latest, this`safe, this`finalized
      ensures e == Decides(old(View()), r, q, x) && Linked(View())
      ensures if e.Some? then View() == old(View()) else Found(old(View()), q) && View() == Accepted(old(View()), q)
      ensures e.None? ==> Belongs(old(View()), q, q.finalized) && Belongs(old(View()), q, q.safe) && InOrder(old(View()), q)
      ensures e.None? <==> Takes(old(View()), r, q) || (Misses(old(View()), r, q) && DeepTakes(old(View()), r, q, x))
    {
      DecidesExact(View(), r, q, x);
      if Decides(View(), r, q, x).None? { AcceptedElements(View(), r, q, x); }
      e := ApplyForkChoice(r, q);
      if e == Some(StateNotReachable) { e := ReorgApplyDeep(r, q, x); }
    }

    method ReorgApplyDeep(r: Reach, q: Request, x: Exec) returns (e: Option<Refusal>)
      requires Linked(View()) && Numbered(headers) && q.head != ZERO
      modifies this`canonical, this`latest, this`safe, this`finalized
      ensures e == DeepRefuses(old(View()), r, q, x) && Linked(View())
      ensures if e.Some? then View() == old(View()) else Found(old(View()), q) && View() == Accepted(old(View()), q)
    {
      if !x.flatReady || q.head !in headers { return Some(Syncing); }
      var head := headers[q.head];
      var found := FindLinkWithCanonicalChain(q.head);
      if found.None? { return Some(UnlinkedHead); }
      var pivot := Pivot(View(), q.head, head.number, found.value);
      if r.highest.None? || r.highest.value < pivot + 1 || !x.overlayInstalls { return Some(StateNotReachable); }
      e := ReplayBlocks(Replay(View(), q.head, head.number, found.value), x.run);
      if e.Some? { return; }
      AcceptedLinked(View(), q);
      ForkchoiceUpdate(found.value, Block(head.number, q.head), NumberOf(Lookup(View(), q.safe)), NumberOf(Lookup(View(), q.finalized)));
    }

    /** Moves the head up to the newest journaled block, if its state is on disk and every header
        down to the head is too; otherwise the store stays as it is. */
    method AdoptCommittedHead(committed: Option<nat>, journal: map<nat, Hash>, roots: set<nat>) returns (adopted: bool)
      requires Linked(View())
      modifies this`canonical, this`latest, this`safe, this`finalized
      ensures Linked(View())
      ensures !adopted ==> View() == old(View())
      ensures adopted <==> CanAdopt(old(View()), committed, journal, roots)
      ensures adopted ==>
                && latest == committed.value > old(latest) && IsCanonical(View(), latest, journal[committed.value])
                && headers[journal[committed.value]].root in roots
                && forall m: nat | m <= old(latest) :: SameAt(old(View()), View(), m)
    {
      CanAdoptExact(View(), committed, journal, roots);
      if committed.None? || committed.value <= latest || committed.value !in journal { return false; }
      var number, hash := committed.value, journal[committed.value];
      if hash !in headers || headers[hash].root !in roots || latest !in canonical { return false; }
      ghost var whole := Climb(View(), hash, number, latest);
      assert whole.Some? ==> [] + whole.value == whole.value;
      var range: seq<Block> := [];
      var done := false;
      while !done
        invariant number > latest && hash in headers
        invariant !done ==> match Climb(View(), hash, number, latest)
                            case None => whole.None?
                            case Some(rest) => whole == Some(range + rest)
        invariant done ==> whole == Some(range)
        decreases number, !done
      {
        if headers[hash].number != number { return false; }
        var parent := headers[hash].parent;
        ghost var before := range;
        range := range + [Block(number, hash)];
        if number == latest + 1 {
          if parent != canonical[latest] { return false; }
          done := true;
        } else {
          if parent !in headers { return false; }
          ghost var rest := Climb(View(), parent, number - 1, latest);
          assert rest.Some? ==> before + ([Block(number, hash)] + rest.value) == range + rest.value;
          number, hash := number - 1, parent;
        }
      }
      ClimbClimbs(View(), journal[committed.value], committed.value, latest);
      AdoptLinked(View(), committed.value, range);
      ForkchoiceUpdate(range, range[0], None, None);
      return true;
    }

    /** Finds the highest canonical block whose state is on disk and executes every block above it,
        each on top of a state that is there, up to the first that is missing or does not run. */
    method RegenerateHeadState(onDisk: set<nat>, runs: Hash -> bool) returns (ok: bool, roots: set<nat>, ghost from: nat, ghost upto: nat)
      requires Linked(View())
      ensures if exists n: nat :: HasState(View(), onDisk, n)
              then HasState(View(), onDisk, from) && forall n: nat | n > from :: !HasState(View(), onDisk, n)
              else !ok && roots == onDisk
      ensures HasState(View(), onDisk, from) ==>
                && from <= upto <= latest && (ok <==> upto == latest)
                && (forall n: nat | from < n <= upto :: Ran(View(), runs, n)) && (upto < latest ==> !Ran(View(), runs, upto + 1))
                && (forall n: nat | from <= n <= upto :: HasState(View(), roots, n))
    {
      var n := latest;
      roots, from, upto := onDisk, latest + 1, latest + 1;
      assert LinkedAt(View(), n);
      while headers[canonical[n]].root !in onDisk
        invariant earliest <= n <= latest && n in canonical && canonical[n] in headers
        invariant forall m: nat | m > n :: !HasState(View(), onDisk, m)
        decreases n
      {
        assert LinkedAt(View(), n) && !HasState(View(), onDisk, n);
        if n == 0 || n - 1 !in canonical {
          assert n == earliest;
          return false, roots, from, upto;
        }
        n := n - 1;
        assert LinkedAt(View(), n);
      }
      assert HasState(View(), onDisk, n);
      from, upto := n, n;
      var i := n + 1;
      while i <= latest
        invariant n < i <= latest + 1 && upto == i - 1
        invariant forall m: nat | n < m < i :: Ran(View(), runs, m)
        invariant forall m: nat | n <= m < i :: HasState(View(), roots, m)
      {
        assert LinkedAt(View(), i) && HasState(View(), roots, i - 1);
        assert headers[headers[canonical[i]].parent].root in roots;
        if !runs(canonical[i]) { return false, roots, from, upto; }
        ghost var before := roots;
        roots := roots + {headers[canonical[i]].root};
        forall m: nat | n <= m <= i ensures HasState(View(), roots, m) { assert m < i ==> HasState(View(), before, m); }
        i, upto := i + 1, i;
      }
      return true, roots, from, upto;
    }
  }

  /** The canonical block at a height is stored in full and executes. */
  predicate Ran(s: Store, runs: Hash -> bool, n: nat) { n in s.canonical && runs(s.canonical[n]) }

  /** The canonical block at a height has its state among the given roots. */
  ghost predicate HasState(s: Store, roots: set<nat>, n: nat) {
    s.earliest <= n <= s.latest && n in s.canonical && s.canonical[n] in s.headers && s.headers[s.canonical[n]].root in roots
  }

  lemma {:induction false} CanAdoptExact(s: Store, committed: Option<nat>, journal: map<nat, Hash>, roots: set<nat>)
    ensures CanAdopt(s, committed, journal, roots) <==>
              && committed.Some? && committed.value > s.latest && committed.value in journal
              && journal[committed.value] in s.headers && s.headers[journal[committed.value]].root in roots
              && Climb(s, journal[committed.value], committed.value, s.latest).Some?
  {
    if committed.Some? && committed.value in journal {
      var number, hash := committed.value, journal[committed.value];
      if Climb(s, hash, number, s.latest).Some? { ClimbClimbs(s, hash, number, s.latest); }
      forall range: seq<Block> | Climbs(s, number, s.latest, range) && range[0].hash == hash ensures Climb(s, hash, number, s.latest).Some? {
        ClimbsIsClimb(s, hash, number, s.latest, range);
      }
    }
  }

  /** What recovery asks for: the committed block is journaled above the head, its state is on disk,
      and stored headers lead from it down to the head. */
  ghost predicate CanAdopt(s: Store, committed: Option<nat>, journal: map<nat, Hash>, roots: set<nat>) {
    && committed.Some? && committed.value > s.latest && committed.value in journal
    && journal[committed.value] in s.headers && s.headers[journal[committed.value]].root in roots
    && exists range: seq<Block> :: Climbs(s, committed.value, s.latest, range) && range[0].hash == journal[committed.value]
  }
}
