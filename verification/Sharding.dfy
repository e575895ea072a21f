/** Storage updates split by first nibble over sixteen copies of a trie and stitched back
    (crates/blockchain/blockchain.rs: flush_storage_buffer, serial_storage_root,
    compute_sharded_storage_root). */
module Sharding {
  import opened Options
  import opened Trie

  const KEY_LEN := 64

  /** Smallest batch that is sorted before it is applied. */
  const PREFETCH_THRESHOLD := 4

  /** A hashed address or storage key, as nibbles. */
  type Key = p: Path | |p| == KEY_LEN witness seq(KEY_LEN, _ => 0)

  type StorageTrie = t: Root<nat> | CanonicalRoot(t, KEY_LEN) witness None

  datatype Slot = Slot(key: Key, value: nat)

  function Bucket(k: Key): Nibble { k[0] }

  // ---------------------------------------------------------------- writes

  function Stored(v: nat): Option<nat> { if v == 0 then None else Some(v) }

  /** One slot write; zero erases. */
  function Write(t: StorageTrie, s: Slot): (r: StorageTrie)
    ensures forall p: Key :: GetRoot(r, p) == if p == s.key then Stored(s.value) else GetRoot(t, p)
  {
    RootUpdates(t, s.key, s.value);
    if s.value == 0 then RemoveRoot(t, s.key) else InsertRoot(t, s.key, s.value)
  }

  function WriteAll(t: StorageTrie, slots: seq<Slot>): StorageTrie {
    if slots == [] then t
    else Write(WriteAll(t, slots[..|slots| - 1]), slots[|slots| - 1])
  }

  /** The writes to one key, in order. */
  function OfKey(slots: seq<Slot>, k: Key): seq<Slot> {
    if slots == [] then []
    else
      var rest := OfKey(slots[..|slots| - 1], k);
      if slots[|slots| - 1].key == k then rest + [slots[|slots| - 1]] else rest
  }

  /** What a key reads after its own writes, in order, over an old value. */
  function LastWrite(mine: seq<Slot>, was: Option<nat>): Option<nat> {
    if mine == [] then was else Stored(mine[|mine| - 1].value)
  }

  lemma {:induction false} LastWriteStep(slots: seq<Slot>, k: Key, was: Option<nat>)
    requires slots != []
    ensures var last := slots[|slots| - 1];
            LastWrite(OfKey(slots, k), was) ==
            if k == last.key then Stored(last.value) else LastWrite(OfKey(slots[..|slots| - 1], k), was)
  {}

  /** A key reads back its last write. */
  lemma {:induction false} ReadBack(t: StorageTrie, slots: seq<Slot>, k: Key)
    ensures GetRoot(WriteAll(t, slots), k) == LastWrite(OfKey(slots, k), GetRoot(t, k))
  {
    if slots != [] {
      var front, last := slots[..|slots| - 1], slots[|slots| - 1];
      ReadBack(t, front, k);
      WriteReads(WriteAll(t, front), last, k);
      LastWriteStep(slots, k, GetRoot(t, k));
    }
  }

  lemma {:induction false} WriteReads(t: StorageTrie, s: Slot, k: Key)
    ensures GetRoot(Write(t, s), k) == if k == s.key then Stored(s.value) else GetRoot(t, k)
  {}

  lemma {:induction false} SameReads(a: StorageTrie, b: StorageTrie)
    requires forall k: Key :: GetRoot(a, k) == GetRoot(b, k)
    ensures a == b
  {
    forall p: Path | |p| == KEY_LEN
      ensures GetRoot(a, p) == GetRoot(b, p)
    {
      var k: Key := p;
      assert GetRoot(a, k) == GetRoot(b, k);
    }
    RootUnique(a, b, KEY_LEN);
  }

  /** Reordering writes is harmless as long as each key keeps its own order. */
  lemma {:induction false} PerKeyOrder(t: StorageTrie, a: seq<Slot>, b: seq<Slot>)
    requires forall k: Key :: OfKey(a, k) == OfKey(b, k)
    ensures WriteAll(t, a) == WriteAll(t, b)
  {
    forall k: Key
      ensures GetRoot(WriteAll(t, a), k) == GetRoot(WriteAll(t, b), k)
    {
      ReadBack(t, a, k);
      ReadBack(t, b, k);
    }
    SameReads(WriteAll(t, a), WriteAll(t, b));
  }

  // ---------------------------------------------------------------- stable sort

  function LexLeq(p: Path, q: Path): bool {
    p == [] || (q != [] && (p[0] < q[0] || (p[0] == q[0] && LexLeq(p[1..], q[1..]))))
  }

  lemma {:induction false} LexTotal(p: Path, q: Path)
    ensures LexLeq(p, q) || LexLeq(q, p)
    ensures |p| == |q| && LexLeq(p, q) && LexLeq(q, p) ==> p == q
  {
    if p != [] && q != [] && p[0] == q[0] {
      LexTotal(p[1..], q[1..]);
      assert p == [p[0]] + p[1..] && q == [q[0]] + q[1..];
    }
  }

  ghost predicate Ascending(s: seq<Slot>) {
    forall i | 0 < i < |s| :: LexLeq(s[i - 1].key, s[i].key)
  }

  /** Inserts after every entry whose key is not greater, which is what stability needs. */
  function InsertSorted(sorted: seq<Slot>, s: Slot): (r: seq<Slot>)
    requires Ascending(sorted)
    ensures |r| == |sorted| + 1 && Ascending(r)
    ensures r[|r| - 1] == s || (sorted != [] && r[|r| - 1] == sorted[|sorted| - 1])
  {
    if sorted == [] then [s]
    else
      var last := sorted[|sorted| - 1];
      LexTotal(last.key, s.key);
      if LexLeq(last.key, s.key) then sorted + [s]
      else InsertSorted(sorted[..|sorted| - 1], s) + [last]
  }

  function StableSort(s: seq<Slot>): (r: seq<Slot>)
    ensures |r| == |s| && Ascending(r)
  {
    if s == [] then [] else InsertSorted(StableSort(s[..|s| - 1]), s[|s| - 1])
  }

  lemma {:induction false} OfKeySnoc(s: seq<Slot>, x: Slot, k: Key)
    ensures OfKey(s + [x], k) == if x.key == k then OfKey(s, k) + [x] else OfKey(s, k)
  {
    assert (s + [x])[..|s|] == s;
  }

  lemma {:induction false} InsertSortedStable(sorted: seq<Slot>, s: Slot, k: Key)
    requires Ascending(sorted)
    ensures OfKey(InsertSorted(sorted, s), k) == if s.key == k then OfKey(sorted, k) + [s] else OfKey(sorted, k)
  {
    OfKeySnoc(sorted, s, k);
    if sorted != [] {
      var front, last := sorted[..|sorted| - 1], sorted[|sorted| - 1];
      LexTotal(last.key, s.key);
      if !LexLeq(last.key, s.key) {
        InsertSortedStable(front, s, k);
        OfKeySnoc(InsertSorted(front, s), last, k);
      }
    } else {
      assert InsertSorted(sorted, s) == sorted + [s];
    }
  }

  /** The sort is stable: every key keeps the order of its writes. */
  lemma {:induction false} StableSortStable(s: seq<Slot>, k: Key)
    ensures OfKey(StableSort(s), k) == OfKey(s, k)
  {
    if s != [] {
      var front, last := s[..|s| - 1], s[|s| - 1];
      StableSortStable(front, k);
      InsertSortedStable(StableSort(front), last, k);
    }
  }

  /** Applies one batch of buffered slots. */
  function Flush(t: StorageTrie, slots: seq<Slot>): (r: StorageTrie) {
    WriteAll(t, if |slots| >= PREFETCH_THRESHOLD then StableSort(slots) else slots)
  }

  /** Sorting a batch before applying it does not change the resulting trie. */
  lemma {:induction false} FlushInOrder(t: StorageTrie, slots: seq<Slot>)
    ensures Flush(t, slots) == WriteAll(t, slots)
  {
    SortedInOrder(t, slots);
  }

  lemma {:induction false} SortedInOrder(t: StorageTrie, slots: seq<Slot>)
    ensures WriteAll(t, StableSort(slots)) == WriteAll(t, slots)
  {
    forall k: Key
      ensures OfKey(StableSort(slots), k) == OfKey(slots, k)
    {
      StableSortStable(slots, k);
    }
    PerKeyOrder(t, StableSort(slots), slots);
  }

  // ---------------------------------------------------------------- slices

  /** Two tries that agree on the keys starting with nibble i. */
  ghost predicate SameSlice<V>(a: Root<V>, b: Root<V>, i: Nibble) {
    forall k: Key | Bucket(k) == i :: GetRoot(a, k) == GetRoot(b, k)
  }

  /** Choice i of a branchified trie depends on slice i alone. */
  lemma {:induction false} SliceChoice<V>(a: Root<V>, b: Root<V>, i: Nibble)
    requires CanonicalRoot(a, KEY_LEN) && CanonicalRoot(b, KEY_LEN) && SameSlice(a, b, i)
    ensures Branchify(a)[i] == Branchify(b)[i]
  {
    BranchifyCorrect(a, KEY_LEN);
    BranchifyCorrect(b, KEY_LEN);
    forall t: Path | |t| == KEY_LEN - 1
      ensures GetChoice(Branchify(a), [i] + t) == GetChoice(Branchify(b), [i] + t)
    {
      var k: Key := [i] + t;
      assert Bucket(k) == i;
      assert GetRoot(a, k) == GetRoot(b, k);
    }
    ChoiceUnique(Branchify(a), Branchify(b), i, KEY_LEN);
  }

  /** Sixteen slices of one trie, stitched and collapsed, are that trie. */
  lemma {:induction false} Stitch<V>(cs: Choices<V>, t: Root<V>)
    requires CanonicalRoot(t, KEY_LEN) && |cs| == 16
    requires forall i: Nibble :: cs[i] == Branchify(t)[i]
    ensures Collapse(cs) == t
  {
    BranchifyCorrect(t, KEY_LEN);
    forall i | 0 <= i < 16
      ensures cs[i] == Branchify(t)[i]
    {
      var n: Nibble := i;
      assert cs[n] == Branchify(t)[n];
    }
    assert cs == Branchify(t);
    CollapseBranchify(t, KEY_LEN);
  }

  // ---------------------------------------------------------------- sharded computation

  /** The writes that belong to one shard, in order. */
  function OfNibble(slots: seq<Slot>, i: Nibble): seq<Slot> {
    if slots == [] then []
    else
      var rest := OfNibble(slots[..|slots| - 1], i);
      if Bucket(slots[|slots| - 1].key) == i then rest + [slots[|slots| - 1]] else rest
  }

  lemma {:induction false} ShardSlice(t: StorageTrie, slots: seq<Slot>, i: Nibble)
    ensures SameSlice(WriteAll(t, OfNibble(slots, i)), WriteAll(t, slots), i)
  {
    if slots != [] {
      var front, last := slots[..|slots| - 1], slots[|slots| - 1];
      ShardSlice(t, front, i);
      if Bucket(last.key) == i {
        assert (OfNibble(front, i) + [last])[..|OfNibble(front, i)|] == OfNibble(front, i);
      }
    }
  }

  /** Serial reference: every update on one trie, in order. */
  method SerialStorageRoot(parent: StorageTrie, slots: seq<Slot>) returns (root: StorageTrie)
    ensures root == WriteAll(parent, slots)
  {
    root := parent;
    for i := 0 to |slots|
      invariant root == WriteAll(parent, slots[..i])
    {
      assert slots[..i + 1][..i] == slots[..i];
      root := Write(root, slots[i]);
    }
    assert slots[..|slots|] == slots;
  }

  /** The writes of each first nibble, in order. */
  method SplitByNibble(slots: seq<Slot>) returns (buckets: seq<seq<Slot>>)
    ensures |buckets| == 16 && forall n: Nibble :: buckets[n] == OfNibble(slots, n)
  {
    buckets := seq(16, _ => []);
    for i := 0 to |slots|
      invariant |buckets| == 16
      invariant forall n: Nibble :: buckets[n] == OfNibble(slots[..i], n)
    {
      assert slots[..i + 1][..i] == slots[..i];
      var b := Bucket(slots[i].key);
      buckets := buckets[b := buckets[b] + [slots[i]]];
    }
    assert slots[..|slots|] == slots;
  }

  /** Updates one copy of the trie per nibble and keeps the copy's own choice. */
  method UpdateCopies(parent: StorageTrie, ghost slots: seq<Slot>, buckets: seq<seq<Slot>>) returns (choices: Choices<nat>)
    requires |buckets| == 16 && forall n: Nibble :: buckets[n] == OfNibble(slots, n)
    ensures |choices| == 16 && forall n: Nibble :: choices[n] == Branchify(WriteAll(parent, slots))[n]
  {
    choices := EmptyChoices();
    for i := 0 to 16
      invariant |choices| == 16
      invariant forall n: Nibble | n < i :: choices[n] == Branchify(WriteAll(parent, slots))[n]
    {
      var n: Nibble := i;
      var copy := SerialStorageRoot(parent, buckets[n]);
      ShardSlice(parent, slots, n);
      SliceChoice(copy, WriteAll(parent, slots), n);
      choices := choices[n := Branchify(copy)[n]];
    }
  }

  /** Splits by first nibble, updates sixteen copies, keeps choice i of copy i and collapses.
      The result is the trie of the serial computation, on every path through the method. */
  method ComputeShardedStorageRoot(parent: StorageTrie, updates: seq<Slot>) returns (root: StorageTrie)
    ensures root == WriteAll(parent, updates)
  {
    var slots := StableSort(updates);
    SortedInOrder(parent, updates);
    var buckets := SplitByNibble(slots);
    var occupied := 0;
    for i := 0 to 16 {
      if buckets[i] != [] { occupied := occupied + 1; }
    }
    if occupied <= 1 {
      root := SerialStorageRoot(parent, slots);
      return;
    }
    var choices := UpdateCopies(parent, slots, buckets);
    Stitch(choices, WriteAll(parent, slots));
    if Collapse(choices).None? {
      root := SerialStorageRoot(parent, slots);
      return;
    }
    root := Collapse(choices);
  }
}
