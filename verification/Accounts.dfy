/** Account updates and the serial state transition that the sharded merkleizer must match. */
module Accounts {
  import opened Options
  import opened Trie
  import opened Sharding

  datatype Info = Info(nonce: nat, balance: nat, codeHash: nat)

  /** Stands for the hash of the empty code. */
  const EMPTY_CODE: nat := 0

  const DEFAULT_INFO := Info(0, 0, EMPTY_CODE)

  /** An account state; its storage root is the storage trie. */
  datatype Account = Account(info: Info, root: StorageTrie)

  const DEFAULT_ACCOUNT := Account(DEFAULT_INFO, None)

  type StateTrie = t: Root<Account> | CanonicalRoot(t, KEY_LEN) witness None

  datatype Update = Update(
    account: Key,
    info: Option<Info>,
    storage: seq<Slot>,
    removed: bool,
    removedStorage: bool)

  function Load(t: StateTrie, a: Key): Account {
    match GetRoot(t, a)
    case Some(account) => account
    case None => DEFAULT_ACCOUNT
  }

  /** What the state trie keeps for an account: nothing when it is the default one. */
  function Kept(account: Account): Option<Account> {
    if account == DEFAULT_ACCOUNT then None else Some(account)
  }

  function Put(t: StateTrie, a: Key, account: Account): (r: StateTrie)
    ensures forall p: Key :: GetRoot(r, p) == if p == a then Kept(account) else GetRoot(t, p)
    ensures Load(r, a) == account
  {
    RootUpdates(t, a, account);
    if account == DEFAULT_ACCOUNT then RemoveRoot(t, a) else InsertRoot(t, a, account)
  }

  // ---------------------------------------------------------------- serial reference

  predicate Wipes(u: Update) { u.removed || u.removedStorage }

  predicate Effective(u: Update) {
    Wipes(u) || u.info.Some? || u.storage != []
  }

  function Next(account: Account, u: Update): Account {
    if u.removed then DEFAULT_ACCOUNT
    else Account(
           if u.info.Some? then u.info.value else account.info,
           WriteAll(if u.removedStorage then None else account.root, u.storage))
  }

  /** One update: the removal, the wipe and the writes of a single account. */
  function SerialStep(t: StateTrie, u: Update): StateTrie {
    if Effective(u) then Put(t, u.account, Next(Load(t, u.account), u)) else t
  }

  function SerialRun(t: StateTrie, us: seq<Update>): StateTrie {
    if us == [] then t else SerialStep(SerialRun(t, us[..|us| - 1]), us[|us| - 1])
  }

  // ---------------------------------------------------------------- what a stream does to one account

  const ALL: set<Nibble> := set n: nat | n < 16 :: n

  lemma AllHasEvery(n: Nibble)
    ensures n in ALL
  {}

  /** The shards a list of writes touches. */
  function Buckets(slots: seq<Slot>): (r: set<Nibble>)
    ensures (r == {}) == (slots == [])
    ensures forall s | s in slots :: Bucket(s.key) in r
  {
    var r := set s | s in slots :: Bucket(s.key);
    assert slots != [] ==> Bucket(slots[0].key) in r;
    r
  }

  /** The shards one update touches. */
  function MaskOf(u: Update): set<Nibble> {
    if Wipes(u) then ALL else Buckets(u.storage)
  }

  /** The shards a stream touches for one account. */
  function Mask(us: seq<Update>, a: Key): set<Nibble> {
    if us == [] then {}
    else Mask(us[..|us| - 1], a) + if us[|us| - 1].account == a then MaskOf(us[|us| - 1]) else {}
  }

  predicate Seen(us: seq<Update>, a: Key) {
    us != [] && (us[|us| - 1].account == a || Seen(us[..|us| - 1], a))
  }

  predicate Wiped(us: seq<Update>, a: Key) {
    us != [] && ((us[|us| - 1].account == a && Wipes(us[|us| - 1])) || Wiped(us[..|us| - 1], a))
  }

  /** The storage root an owner hands out with its routed writes. */
  function RoutedRoot(parent: StateTrie, us: seq<Update>, a: Key): StorageTrie {
    if Wiped(us, a) then None else Load(parent, a).root
  }

  lemma {:induction false} WipedMask(us: seq<Update>, a: Key)
    requires Wiped(us, a)
    ensures Mask(us, a) == ALL
  {
    if Wiped(us[..|us| - 1], a) { WipedMask(us[..|us| - 1], a); }
    forall n: Nibble { AllHasEvery(n); }
  }

  /** A stream that never touches an account's storage leaves its root alone. */
  lemma {:induction false} NoMask(parent: StateTrie, us: seq<Update>, a: Key)
    requires Mask(us, a) == {}
    ensures !Wiped(us, a)
    ensures Load(SerialRun(parent, us), a).root == Load(parent, a).root
    ensures !Seen(us, a) ==> GetRoot(SerialRun(parent, us), a) == GetRoot(parent, a)
  {
    if us != [] {
      var u := us[|us| - 1];
      NoMask(parent, us[..|us| - 1], a);
      if u.account == a {
        assert 0 in ALL;
      }
    }
  }

  /** An account whose storage was touched is never stored as an explicit default. */
  lemma {:induction false} Normalised(parent: StateTrie, us: seq<Update>, a: Key)
    requires Mask(us, a) != {}
    ensures GetRoot(SerialRun(parent, us), a) == Kept(Load(SerialRun(parent, us), a))
  {
    var u := us[|us| - 1];
    if u.account == a {
      if !Effective(u) {
        assert MaskOf(u) == {};
        Normalised(parent, us[..|us| - 1], a);
      }
    } else {
      Normalised(parent, us[..|us| - 1], a);
    }
  }

  /** The updates whose account belongs to one owner. */
  function OfOwner(us: seq<Update>, o: Nibble): seq<Update> {
    if us == [] then []
    else
      var rest := OfOwner(us[..|us| - 1], o);
      if Bucket(us[|us| - 1].account) == o then rest + [us[|us| - 1]] else rest
  }

  lemma {:induction false} OwnerSlice(parent: StateTrie, us: seq<Update>, o: Nibble)
    ensures SameSlice(SerialRun(parent, OfOwner(us, o)), SerialRun(parent, us), o)
  {
    if us != [] {
      var front, u := us[..|us| - 1], us[|us| - 1];
      OwnerSlice(parent, front, o);
      if Bucket(u.account) == o {
        assert (OfOwner(front, o) + [u])[..|OfOwner(front, o)|] == OfOwner(front, o);
      }
    }
  }

  // ---------------------------------------------------------------- slices of one account

  /** Shard d applies its own writes only; it still agrees with the full run on slice d, and
      on every slice that no write touches. */
  lemma {:induction false} ShardAgrees(mine: StorageTrie, full: StorageTrie, slots: seq<Slot>, d: Nibble, j: Nibble)
    requires SameSlice(mine, full, j)
    requires j == d || forall s | s in slots :: Bucket(s.key) != j
    ensures SameSlice(WriteAll(mine, OfNibble(slots, d)), WriteAll(full, slots), j)
  {
    if slots != [] {
      var front, last := slots[..|slots| - 1], slots[|slots| - 1];
      assert last in slots && forall s | s in front :: s in slots;
      ShardAgrees(mine, full, front, d, j);
      if Bucket(last.key) == d {
        assert (OfNibble(front, d) + [last])[..|OfNibble(front, d)|] == OfNibble(front, d);
      }
    }
  }
}
