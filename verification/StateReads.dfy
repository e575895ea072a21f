/** What the state trie of a block reads: for every account and every slot, by the positions of the
    updates in the block's stream. */
module StateReads {
  import opened Options
  import opened Trie
  import opened Sharding
  import opened Accounts
  import opened Protocol
  import opened Merkleizer
  import opened Merkleization

  // ---------------------------------------------------------------- one account

  /** A stored account is removed exactly when it has no nonce, no balance, no code and no
      storage; it reads back otherwise. */
  lemma {:induction false} PutStores(t: StateTrie, a: Key, x: Account)
    ensures GetRoot(Put(t, a, x), a) ==
            if x.info.nonce == 0 && x.info.balance == 0 && x.info.codeHash == EMPTY_CODE && x.root == None then None else Some(x)
    ensures forall b: Key | b != a :: GetRoot(Put(t, a, x), b) == GetRoot(t, b)
  {}

  /** One update changes what one account loads, and nothing about any other. */
  lemma {:induction false} StepLoads(t: StateTrie, u: Update, a: Key)
    ensures Load(SerialStep(t, u), a) == if u.account == a then Next(Load(t, a), u) else Load(t, a)
    ensures GetRoot(SerialStep(t, u), a) ==
            if u.account == a && Effective(u) then Kept(Next(Load(t, a), u)) else GetRoot(t, a)
  {
    if u.account == a && !Effective(u) { assert u.storage == [] && Next(Load(t, a), u) == Load(t, a); }
  }

  // ---------------------------------------------------------------- nonce, balance and code

  /** The update settles the account's nonce, balance and code. */
  predicate SetsInfo(u: Update, a: Key) { u.account == a && (u.removed || u.info.Some?) }

  function Given(u: Update): Info requires u.removed || u.info.Some? {
    if u.removed then Info(0, 0, EMPTY_CODE) else u.info.value
  }

  ghost predicate LastInfo(us: seq<Update>, a: Key, i: nat) {
    i < |us| && SetsInfo(us[i], a) && forall j | i < j < |us| :: !SetsInfo(us[j], a)
  }

  /** A trie reads the info of the last update that settles it, that of an absent account when
      this one removes it, and the parent's if there is none. */
  ghost predicate InfoLaw(parent: StateTrie, us: seq<Update>, t: StateTrie, a: Key) {
    && (forall i: nat | LastInfo(us, a, i) :: Load(t, a).info == Given(us[i]))
    && ((forall i | 0 <= i < |us| :: !SetsInfo(us[i], a)) ==> Load(t, a).info == Load(parent, a).info)
  }

  lemma {:induction false} StepInfo(t: StateTrie, u: Update, a: Key)
    ensures Load(SerialStep(t, u), a).info == if SetsInfo(u, a) then Given(u) else Load(t, a).info
  {
    StepLoads(t, u, a);
  }

  lemma {:induction false} InfoAt(parent: StateTrie, us: seq<Update>, a: Key, i: nat)
    requires LastInfo(us, a, i)
    ensures Load(SerialRun(parent, us), a).info == Given(us[i])
  {
    var front, u := us[..|us| - 1], us[|us| - 1];
    StepInfo(SerialRun(parent, front), u, a);
    if i < |us| - 1 {
      assert LastInfo(front, a, i) && front[i] == us[i];
      InfoAt(parent, front, a, i);
    }
  }

  lemma {:induction false} InfoKept(parent: StateTrie, us: seq<Update>, a: Key)
    requires forall i | 0 <= i < |us| :: !SetsInfo(us[i], a)
    ensures Load(SerialRun(parent, us), a).info == Load(parent, a).info
  {
    if us != [] {
      StepInfo(SerialRun(parent, us[..|us| - 1]), us[|us| - 1], a);
      InfoKept(parent, us[..|us| - 1], a);
    }
  }

  lemma {:induction false} InfoReads(parent: StateTrie, us: seq<Update>, a: Key)
    ensures InfoLaw(parent, us, SerialRun(parent, us), a)
  {
    forall i: nat | LastInfo(us, a, i) ensures Load(SerialRun(parent, us), a).info == Given(us[i]) { InfoAt(parent, us, a, i); }
    if forall i | 0 <= i < |us| :: !SetsInfo(us[i], a) { InfoKept(parent, us, a); }
  }

  // ---------------------------------------------------------------- storage

  function SlotAt(t: StateTrie, a: Key, k: Key): Option<nat> { GetRoot(Load(t, a).root, k) }

  /** Position j holds the last write of a list to a key. */
  ghost predicate LastOf(slots: seq<Slot>, k: Key, j: nat) {
    j < |slots| && slots[j].key == k && forall n | j < n < |slots| :: slots[n].key != k
  }

  ghost predicate Names(slots: seq<Slot>, k: Key) { exists j | 0 <= j < |slots| :: slots[j].key == k }

  /** The update wipes the account's storage or writes to the slot. */
  ghost predicate Touches(u: Update, a: Key, k: Key) {
    u.account == a && (u.removed || u.removedStorage || Names(u.storage, k))
  }

  ghost predicate LastTouch(us: seq<Update>, a: Key, k: Key, i: nat) {
    i < |us| && Touches(us[i], a, k) && forall j | i < j < |us| :: !Touches(us[j], a, k)
  }

  /** What the update leaves in a slot it touches: its last write, zero being none, or nothing when
      it removes the account or only wipes. */
  ghost predicate Leaves(u: Update, k: Key, v: Option<nat>) {
    && (!u.removed ==> forall j: nat | LastOf(u.storage, k, j) :: v == if u.storage[j].value == 0 then None else Some(u.storage[j].value))
    && (u.removed || !Names(u.storage, k) ==> v == None)
  }

  /** A slot reads what the last update that touches it leaves there, and the parent's value if
      there is none. */
  ghost predicate SlotLaw(parent: StateTrie, us: seq<Update>, t: StateTrie, a: Key, k: Key) {
    && (forall i: nat | LastTouch(us, a, k, i) :: Leaves(us[i], k, SlotAt(t, a, k)))
    && ((forall i | 0 <= i < |us| :: !Touches(us[i], a, k)) ==> SlotAt(t, a, k) == SlotAt(parent, a, k))
  }

  lemma {:induction false} LastOfReads(slots: seq<Slot>, k: Key, j: nat, was: Option<nat>)
    requires LastOf(slots, k, j)
    ensures LastWrite(OfKey(slots, k), was) == Stored(slots[j].value)
  {
    LastWriteStep(slots, k, was);
    if j < |slots| - 1 {
      assert LastOf(slots[..|slots| - 1], k, j);
      LastOfReads(slots[..|slots| - 1], k, j, was);
    }
  }

  lemma {:induction false} NoneNamed(slots: seq<Slot>, k: Key, was: Option<nat>)
    requires !Names(slots, k)
    ensures LastWrite(OfKey(slots, k), was) == was
  {
    if slots != [] {
      assert slots[|slots| - 1].key != k;
      LastWriteStep(slots, k, was);
      var front := slots[..|slots| - 1];
      assert forall j | 0 <= j < |front| :: slots[j].key != k;
      NoneNamed(front, k, was);
    }
  }

  lemma {:induction false} StepSlot(t: StateTrie, u: Update, a: Key, k: Key)
    ensures Touches(u, a, k) ==> Leaves(u, k, SlotAt(SerialStep(t, u), a, k))
    ensures !Touches(u, a, k) ==> SlotAt(SerialStep(t, u), a, k) == SlotAt(t, a, k)
  {
    StepLoads(t, u, a);
    if u.account == a && !u.removed {
      var base: StorageTrie := if u.removedStorage then None else Load(t, a).root;
      ReadBack(base, u.storage, k);
      forall j: nat | LastOf(u.storage, k, j) ensures SlotAt(SerialStep(t, u), a, k) == Stored(u.storage[j].value) {
        LastOfReads(u.storage, k, j, GetRoot(base, k));
      }
      if !Names(u.storage, k) { NoneNamed(u.storage, k, GetRoot(base, k)); }
    }
  }

  lemma {:induction false} SlotTouched(parent: StateTrie, us: seq<Update>, a: Key, k: Key, i: nat)
    requires LastTouch(us, a, k, i)
    ensures Leaves(us[i], k, SlotAt(SerialRun(parent, us), a, k))
  {
    var front, u := us[..|us| - 1], us[|us| - 1];
    StepSlot(SerialRun(parent, front), u, a, k);
    if i < |us| - 1 {
      assert LastTouch(front, a, k, i) && front[i] == us[i];
      SlotTouched(parent, front, a, k, i);
    }
  }

  lemma {:induction false} SlotKept(parent: StateTrie, us: seq<Update>, a: Key, k: Key)
    requires forall i | 0 <= i < |us| :: !Touches(us[i], a, k)
    ensures SlotAt(SerialRun(parent, us), a, k) == SlotAt(parent, a, k)
  {
    if us != [] {
      StepSlot(SerialRun(parent, us[..|us| - 1]), us[|us| - 1], a, k);
      SlotKept(parent, us[..|us| - 1], a, k);
    }
  }

  lemma {:induction false} SlotReads(parent: StateTrie, us: seq<Update>, a: Key, k: Key)
    ensures SlotLaw(parent, us, SerialRun(parent, us), a, k)
  {
    forall i: nat | LastTouch(us, a, k, i) ensures Leaves(us[i], k, SlotAt(SerialRun(parent, us), a, k)) { SlotTouched(parent, us, a, k, i); }
    if forall i | 0 <= i < |us| :: !Touches(us[i], a, k) { SlotKept(parent, us, a, k); }
  }

  // ---------------------------------------------------------------- which accounts are stored

  predicate Mentions(u: Update, a: Key) {
    u.account == a && (u.removed || u.removedStorage || u.info.Some? || u.storage != [])
  }

  /** An account that some update mentions is stored exactly when it has a nonce, a balance, code
      or storage; any other is as the parent has it. */
  ghost predicate StoredLaw(parent: StateTrie, us: seq<Update>, t: StateTrie, a: Key) {
    if exists i | 0 <= i < |us| :: Mentions(us[i], a)
    then
      var x := Load(t, a);
      GetRoot(t, a).None? <==> x.info.nonce == 0 && x.info.balance == 0 && x.info.codeHash == EMPTY_CODE && x.root == None
    else GetRoot(t, a) == GetRoot(parent, a)
  }

  lemma {:induction false} MentionedKept(parent: StateTrie, us: seq<Update>, a: Key)
    ensures if exists i | 0 <= i < |us| :: Mentions(us[i], a) then GetRoot(SerialRun(parent, us), a) == Kept(Load(SerialRun(parent, us), a))
            else GetRoot(SerialRun(parent, us), a) == GetRoot(parent, a)
  {
    if us != [] {
      var front, u := us[..|us| - 1], us[|us| - 1];
      MentionedKept(parent, front, a);
      StepLoads(SerialRun(parent, front), u, a);
      assert (exists i | 0 <= i < |us| :: Mentions(us[i], a)) <==> Mentions(u, a) || exists i | 0 <= i < |front| :: Mentions(front[i], a) by {
        if i :| 0 <= i < |front| && Mentions(front[i], a) { assert Mentions(us[i], a); }
        if i :| 0 <= i < |us| && Mentions(us[i], a) { assert i < |front| ==> Mentions(front[i], a); }
      }
    }
  }

  lemma {:induction false} StoredReads(parent: StateTrie, us: seq<Update>, a: Key)
    ensures StoredLaw(parent, us, SerialRun(parent, us), a)
  {
    MentionedKept(parent, us, a);
  }

  // ---------------------------------------------------------------- the gathered root

  /** Whatever the interleaving, the gathered root reads, for every account and slot, what the
      block's updates say by their positions. */
  lemma {:induction false} GatheredReads(g: Setting, c: System, ms: seq<Move>, answers: seq<Collected>, a: Key, k: Key)
    requires Reachable(g, c, ms) && AnswersOf(c, answers)
    ensures (forall m | m in answers :: |m.subroot| == 16) && CanonicalRoot(Collapse(Gathered(answers)), KEY_LEN)
    ensures var t: StateTrie := Collapse(Gathered(answers));
            InfoLaw(g.parent, g.stream, t, a) && SlotLaw(g.parent, g.stream, t, a, k) && StoredLaw(g.parent, g.stream, t, a)
  {
    MerkleizationIsSerial(g, c, ms, answers);
    InfoReads(g.parent, g.stream, a);
    SlotReads(g.parent, g.stream, a, k);
    StoredReads(g.parent, g.stream, a);
  }
}
