/** The worker as an object whose maps are changed in place, message by message, in the order of
    crates/blockchain/blockchain.rs, handle_subtrie. Each method is tied to the step that the
    protocol proof works with. */
module SubtrieWorker {
  import opened Options
  import opened Trie
  import opened Sharding
  import opened Accounts
  import opened ShardWorker
  import opened Routing

  // ---------------------------------------------------------------- one shard's storage

  /** Applies a batch of slots one by one, sorted first when it is large. */
  method ApplyBatch(start: StorageTrie, slots: seq<Slot>) returns (trie: StorageTrie)
    ensures trie == Flush(start, slots)
  {
    var sorted := if |slots| >= PREFETCH_THRESHOLD then StableSort(slots) else slots;
    trie := start;
    for i := 0 to |sorted|
      invariant trie == WriteAll(start, sorted[..i])
    {
      assert sorted[..i + 1][..i] == sorted[..i];
      trie := Write(trie, sorted[i]);
    }
    assert sorted[..|sorted|] == sorted;
  }

  /** Buffers one slot and flushes the buffer when it is full. */
  method BufferSlot(sh: Shelf, a: Key, slot: Slot, root: StorageTrie) returns (r: Shelf)
    ensures r == Push(sh, a, slot, root)
  {
    var buf := if a in sh.buffer then Buffer(sh.buffer[a].root, sh.buffer[a].slots + [slot]) else Buffer(root, [slot]);
    if |buf.slots| >= FLUSH_BATCH {
      var trie := ApplyBatch(if a in sh.tries then sh.tries[a] else buf.root, buf.slots);
      r := Shelf(sh.tries[a := trie], sh.buffer - {a});
    } else {
      r := Shelf(sh.tries, sh.buffer[a := buf]);
      SameTries(sh.tries, a);
    }
  }

  lemma {:induction false} SameTries<K, V>(m: map<K, V>, k: K)
    ensures k in m ==> m[k := m[k]] == m
    ensures k !in m ==> m - {k} == m
  {}

  /** Buffers this shard's slots and lists the others to send, with the shards they all go to. */
  method RouteSlots(sh: Shelf, me: Nibble, a: Key, slots: seq<Slot>, root: StorageTrie)
    returns (r: Shelf, sends: seq<Send>, mask: set<Nibble>)
    ensures r == Route(sh, me, a, slots, root).shelf && sends == Route(sh, me, a, slots, root).sends && mask == Buckets(slots)
  {
    r, sends, mask := sh, [], {};
    for i := 0 to |slots|
      invariant r == Route(sh, me, a, slots[..i], root).shelf && sends == Route(sh, me, a, slots[..i], root).sends
      invariant mask == Buckets(slots[..i])
    {
      RouteSnoc(sh, me, a, slots, root, i);
      BucketsSnoc(slots, i);
      var bucket := Bucket(slots[i].key);
      mask := mask + {bucket};
      if bucket == me {
        r := BufferSlot(r, a, slots[i], root);
      } else {
        sends := sends + [Send(bucket, MerklizeStorage(a, slots[i], root))];
      }
    }
    assert slots[..|slots|] == slots;
  }

  lemma {:induction false} RouteSnoc(sh: Shelf, me: Nibble, a: Key, slots: seq<Slot>, root: StorageTrie, i: nat)
    requires i < |slots|
    ensures var r, next := Route(sh, me, a, slots[..i], root), Route(sh, me, a, slots[..i + 1], root);
            next == if Bucket(slots[i].key) == me then Routing(Push(r.shelf, a, slots[i], root), r.sends)
                    else Routing(r.shelf, r.sends + [Send(Bucket(slots[i].key), MerklizeStorage(a, slots[i], root))])
  {
    assert slots[..i + 1][..i] == slots[..i];
  }

  lemma {:induction false} BucketsSnoc(slots: seq<Slot>, i: nat)
    requires i < |slots|
    ensures Buckets(slots[..i + 1]) == Buckets(slots[..i]) + {Bucket(slots[i].key)}
  {
    assert slots[..i + 1] == slots[..i] + [slots[i]];
    assert forall x :: x in slots[..i + 1] <==> x in slots[..i] || x == slots[i];
    forall n | n in Buckets(slots[..i]) ensures n in Buckets(slots[..i + 1]) {
      var x :| x in slots[..i] && Bucket(x.key) == n;
      assert x in slots[..i + 1];
    }
    assert slots[i] in slots[..i + 1];
  }

  /** A wipe message to every other shard. */
  method WipeOthers(me: Nibble, a: Key) returns (sends: seq<Send>)
    ensures sends == BroadcastOthers(0, me, DeleteStorage(a))
  {
    sends := [];
    var i := 16;
    while i > 0
      invariant 0 <= i <= 16 && sends == BroadcastOthers(i, me, DeleteStorage(a))
    {
      i := i - 1;
      sends := (if i == me then [] else [Send(i, DeleteStorage(a))]) + sends;
    }
  }

  // ---------------------------------------------------------------- an update in two parts

  /** Loads the account, applies the update's info and stores it at once. */
  function WithInfo(w: Worker, u: Update): Worker {
    var a, account := u.account, Reloaded(w, u.account);
    w.(accounts := w.accounts[a := Account(NewInfo(account, u), account.root)],
       state := if u.removed || u.info.Some? then Put(w.state, a, Account(NewInfo(account, u), account.root)) else w.state)
  }

  /** Empties an account's storage here and tells every other shard to. */
  function WithWipe(w: Worker, me: Nibble, a: Key): Effect
    requires a in w.accounts
  {
    Effect(w.(shelf := Wipe(w.shelf, a),
              accounts := w.accounts[a := Account(w.accounts[a].info, None)],
              expected := w.expected[a := ALL],
              pending := w.pending + if a in w.expected then 0 else 1),
           BroadcastOthers(0, me, DeleteStorage(a)))
  }

  /** Routes slots and marks the shards they go to. */
  function Marked(w: Worker, me: Nibble, a: Key, slots: seq<Slot>, root: StorageTrie): Effect {
    var r := Route(w.shelf, me, a, slots, root);
    Effect(w.(shelf := r.shelf,
              expected := if slots == [] then w.expected else w.expected[a := Awaited(w, a) + Buckets(slots)],
              pending := w.pending + if slots == [] || a in w.expected then 0 else 1),
           r.sends)
  }

  /** Info, wipe and routing make up the step of the protocol proof. */
  lemma {:induction false} UpdateParts(w: Worker, me: Nibble, u: Update)
    requires w.open
    ensures var info := WithInfo(w, u);
            var wiped := if Wipes(u) then WithWipe(info, me, u.account) else Effect(info, []);
            var marked := Marked(wiped.worker, me, u.account, NewSlots(u), NewRouted(Reloaded(w, u.account), u));
            HandleUpdate(w, me, u) == Effect(marked.worker, wiped.sends + marked.sends)
  {
    MarkedMask(w.expected, u);
    var account := Reloaded(w, u.account);
    Twice(w.accounts, u.account, Account(NewInfo(account, u), account.root), Account(NewInfo(account, u), None));
  }

  // ---------------------------------------------------------------- the worker

  class Subtrie {
    const index: Nibble
    var stateTrie: StateTrie
    var accounts: map<Key, Account>
    var expectedShards: map<Key, set<Nibble>>
    var receivedShards: map<Key, set<Nibble>>
    var storageState: map<Key, StorageChoices>
    var pendingStorageAccounts: nat
    var collectDeferred: bool
    var shelf: Shelf
    var sendersHeld: bool
    var collectingStorages: bool
    var routingComplete: bool
    var routingDone: set<Nibble>
    var storageToCollect: map<Key, StorageTrie>
    var status: Status

    function View(): Worker
      reads this
    {
      Worker(stateTrie, accounts, expectedShards, receivedShards, storageState, pendingStorageAccounts, collectDeferred,
             shelf, sendersHeld, collectingStorages, routingComplete, routingDone, storageToCollect, status)
    }

    constructor (i: Nibble, parent: StateTrie)
      ensures View() == Initial(parent) && index == i
    {
      index, stateTrie := i, parent;
      accounts, expectedShards, receivedShards, storageState := map[], map[], map[], map[];
      pendingStorageAccounts, collectDeferred, shelf := 0, false, Shelf(map[], map[]);
      sendersHeld, collectingStorages, routingComplete, routingDone := true, false, false, {};
      storageToCollect, status := map[], Running;
    }

    method ApplyInfo(u: Update)
      modifies this`accounts, this`stateTrie
      ensures View() == WithInfo(old(View()), u)
    {
      var a := u.account;
      if a !in accounts { accounts := accounts[a := Load(stateTrie, a)]; }
      SameTries(accounts, a);
      if u.removed || u.info.Some? {
        accounts := accounts[a := Account(NewInfo(accounts[a], u), accounts[a].root)];
        stateTrie := Put(stateTrie, a, accounts[a]);
      }
    }

    method WipeEverywhere(a: Key) returns (sends: seq<Send>)
      requires a in accounts
      modifies this`shelf, this`accounts, this`expectedShards, this`pendingStorageAccounts
      ensures Effect(View(), sends) == WithWipe(old(View()), index, a)
    {
      ghost var w := WithWipe(View(), index, a).worker;
      shelf := Shelf(shelf.tries[a := None], shelf.buffer - {a});
      assert shelf == w.shelf;
      sends := WipeOthers(index, a);
      accounts := accounts[a := Account(accounts[a].info, None)];
      assert accounts == w.accounts;
      ExpectAll(a);
    }

    method ExpectAll(a: Key)
      modifies this`expectedShards, this`pendingStorageAccounts
      ensures expectedShards == old(expectedShards)[a := ALL]
      ensures pendingStorageAccounts == old(pendingStorageAccounts) + if a in old(expectedShards) then 0 else 1
    {
      if a !in expectedShards { pendingStorageAccounts := pendingStorageAccounts + 1; }
      expectedShards := expectedShards[a := ALL];
    }

    /** Routes an update's slots and marks the shards they go to. */
    method RouteUpdate(a: Key, slots: seq<Slot>) returns (sends: seq<Send>)
      requires a in accounts
      modifies this`shelf, this`expectedShards, this`pendingStorageAccounts
      ensures Effect(View(), sends) == Marked(old(View()), index, a, slots, accounts[a].root)
    {
      sends := [];
      if slots != [] {
        var isNew := a !in expectedShards;
        var mask: set<Nibble>;
        shelf, sends, mask := RouteSlots(shelf, index, a, slots, accounts[a].root);
        expectedShards := expectedShards[a := (if isNew then {} else expectedShards[a]) + mask];
        if isNew { pendingStorageAccounts := pendingStorageAccounts + 1; }
      }
    }

    /** One account update; once the senders are gone it is a fault. */
    method ProcessAccount(u: Update) returns (sends: seq<Send>)
      modifies this
      ensures Effect(View(), sends) == HandleUpdate(old(View()), index, u)
    {
      if sendersHeld {
        sends := ApplyUpdate(u);
      } else {
        status, sends := Aborted, [];
      }
    }

    /** Load, store the info, wipe every shard if asked to, route the slots. */
    method ApplyUpdate(u: Update) returns (sends: seq<Send>)
      requires sendersHeld
      modifies this`stateTrie, this`accounts, this`expectedShards, this`pendingStorageAccounts, this`shelf
      ensures Effect(View(), sends) == HandleUpdate(old(View()), index, u)
    {
      UpdateParts(View(), index, u);
      sends := [];
      ApplyInfo(u);
      if Wipes(u) { sends := WipeEverywhere(u.account); }
      var routed := RouteUpdate(u.account, NewSlots(u));
      sends := sends + routed;
    }

    // -------------------------------------------------------------- the other messages

    method FinishRoutingHere() returns (sends: seq<Send>)
      modifies this`status
      ensures Effect(View(), sends) == Handle(old(View()), index, FinishRouting)
    {
      sends := [];
      if !sendersHeld {
        status := Aborted;
        return;
      }
      var i := 16;
      while i > 0
        invariant 0 <= i <= 16 && sends == Broadcast(i, RoutingDone(index)) && View() == old(View())
      {
        i := i - 1;
        sends := [Send(i, RoutingDone(index))] + sends;
      }
    }

    /** Notes that one worker has routed everything; after the last one, flushes every buffer and
        turns to collecting. */
    method NoteRoutingDone(from: Nibble)
      modifies this`routingDone, this`collectingStorages, this`routingComplete, this`shelf, this`storageToCollect
      ensures View() == HandleRoutingDone(old(View()), from)
    {
      routingDone := routingDone + {from};
      if routingDone == ALL && !collectingStorages && !routingComplete {
        storageToCollect := DrainAll(shelf);
        collectingStorages, routingComplete, shelf := true, true, Shelf(map[], map[]);
      }
    }

    /** Takes in one shard; the last one an account waits for resolves its storage root. */
    method TakeShard(a: Key, i: Nibble, sub: StorageChoices)
      modifies this
      ensures Effect(View(), []) == HandleShard(old(View()), a, i, sub)
    {
      var received := (if a in receivedShards then receivedShards[a] else {}) + {i};
      if received != if a in expectedShards then expectedShards[a] else {} {
        MergeShard(a, i, sub);
      } else if a !in accounts || pendingStorageAccounts == 0 {
        status := Aborted;
      } else {
        MergeShard(a, i, sub);
        ResolveAccount(a);
        FinishIfReady();
      }
    }

    method MergeShard(a: Key, i: Nibble, sub: StorageChoices)
      modifies this`receivedShards, this`storageState
      ensures View() == Record(old(View()), a, i, sub)
    {
      storageState := storageState[a := if a in storageState then storageState[a][i := sub[i]] else sub];
      receivedShards := receivedShards[a := (if a in receivedShards then receivedShards[a] else {}) + {i}];
    }

    method ResolveAccount(a: Key)
      requires a in accounts && a in storageState && pendingStorageAccounts > 0
      modifies this`storageState, this`accounts, this`stateTrie, this`pendingStorageAccounts
      ensures View() == Resolve(old(View()), a)
    {
      CollapseCorrect(storageState[a], KEY_LEN - 1);
      var account := accounts[a].(root := Collapse(storageState[a]));
      storageState := storageState - {a};
      StoreAccount(a, account);
      pendingStorageAccounts := pendingStorageAccounts - 1;
    }

    method StoreAccount(a: Key, account: Account)
      modifies this`accounts, this`stateTrie
      ensures View() == old(View()).(accounts := old(accounts)[a := account], state := Put(old(stateTrie), a, account))
    {
      accounts := accounts[a := account];
      stateTrie := Put(stateTrie, a, account);
    }

    method FinishIfReady()
      modifies this`status
      ensures View() == FinishIfDeferred(old(View()))
    {
      if pendingStorageAccounts == 0 && !collectingStorages && routingComplete && collectDeferred {
        status := Finished(Branchify(stateTrie));
      }
    }

    /** Finalizes one storage trie and sends its root on, or ends the collection. */
    method CollectNext(a: Key) returns (sends: seq<Send>)
      requires collectingStorages
      modifies this`status, this`storageToCollect, this`sendersHeld, this`collectingStorages
      ensures a in old(storageToCollect) ==> Effect(View(), sends) == Collect(old(View()), index, a)
      ensures old(storageToCollect) == map[] ==> Effect(View(), sends) == Effect(EndCollect(old(View())), [])
    {
      sends := [];
      if a in storageToCollect {
        if !sendersHeld {
          status := Aborted;
          return;
        }
        BranchifyCorrect(storageToCollect[a], KEY_LEN);
        sends := [Send(Bucket(a), StorageShard(a, index, Branchify(storageToCollect[a])))];
        storageToCollect := storageToCollect - {a};
      } else if storageToCollect == map[] {
        sendersHeld, collectingStorages := false, false;
        FinishIfReady();
      }
    }

    /** One iteration of the loop: whatever the message is, the step of the protocol proof. */
    method Receive(m: Msg) returns (sends: seq<Send>)
      modifies this
      ensures Effect(View(), sends) == Handle(old(View()), index, m)
    {
      sends := [];
      match m {
        case ProcessAccount(u) => sends := ProcessAccount(u);
        case MerklizeStorage(a, slot, root) => shelf := BufferSlot(shelf, a, slot, root);
        case DeleteStorage(a) => shelf := Shelf(shelf.tries[a := None], shelf.buffer - {a});
        case FinishRouting => sends := FinishRoutingHere();
        case RoutingDone(from) => NoteRoutingDone(from);
        case StorageShard(a, i, sub) => TakeShard(a, i, sub);
        case CollectState =>
          if Ready(View()) { status := Finished(Branchify(stateTrie)); } else { collectDeferred := true; }
      }
    }
  }

  /** The tries while some buffers are still to be flushed. */
  ghost predicate Draining(sh: Shelf, rest: set<Key>, tries: map<Key, StorageTrie>) {
    && rest <= sh.buffer.Keys && tries.Keys == sh.tries.Keys + (sh.buffer.Keys - rest)
    && forall a | a in tries :: DrainedSoFar(sh, rest, tries, a)
  }

  ghost predicate DrainedSoFar(sh: Shelf, rest: set<Key>, tries: map<Key, StorageTrie>, a: Key)
    requires a in tries
  {
    if a in rest then a in sh.tries && tries[a] == sh.tries[a] else tries[a] == Drained(EntryOf(sh, a))
  }

  lemma {:induction false} DrainStep(sh: Shelf, rest: set<Key>, tries: map<Key, StorageTrie>, a: Key)
    requires Draining(sh, rest, tries) && a in rest
    ensures a in tries <==> a in sh.tries
    ensures a in tries ==> tries[a] == sh.tries[a]
    ensures a in sh.buffer && Drained(EntryOf(sh, a)) == Flush(if a in tries then tries[a] else sh.buffer[a].root, sh.buffer[a].slots)
    ensures Draining(sh, rest - {a}, tries[a := Drained(EntryOf(sh, a))])
  {
    if a in tries { assert DrainedSoFar(sh, rest, tries, a); }
    var more := tries[a := Drained(EntryOf(sh, a))];
    forall b | b in more ensures DrainedSoFar(sh, rest - {a}, more, b) {
      if b != a { assert DrainedSoFar(sh, rest, tries, b); }
    }
  }

  /** Flushes every remaining buffer into its trie. */
  method DrainAll(sh: Shelf) returns (tries: map<Key, StorageTrie>)
    ensures tries == map a | a in sh.tries.Keys + sh.buffer.Keys :: Drained(EntryOf(sh, a))
  {
    tries := sh.tries;
    var rest := sh.buffer.Keys;
    DrainStarts(sh);
    while rest != {}
      invariant Draining(sh, rest, tries)
      decreases |rest|
    {
      var a :| a in rest;
      DrainStep(sh, rest, tries, a);
      var trie := ApplyBatch(if a in tries then tries[a] else sh.buffer[a].root, sh.buffer[a].slots);
      tries := tries[a := trie];
      rest := rest - {a};
    }
    DrainEnds(sh, tries);
  }

  lemma {:induction false} DrainEnds(sh: Shelf, tries: map<Key, StorageTrie>)
    requires Draining(sh, {}, tries)
    ensures tries == map a | a in sh.tries.Keys + sh.buffer.Keys :: Drained(EntryOf(sh, a))
  {
    forall a | a in tries ensures tries[a] == Drained(EntryOf(sh, a)) { assert DrainedSoFar(sh, {}, tries, a); }
  }

  lemma {:induction false} DrainStarts(sh: Shelf)
    ensures Draining(sh, sh.buffer.Keys, sh.tries)
  {}

  lemma {:induction false} Twice<K, V>(m: map<K, V>, k: K, x: V, y: V)
    ensures m[k := x][k := y] == m[k := y]
  {}

  /** The masks after a wipe and after the routed slots, taken together. */
  lemma {:induction false} MarkedMask(expected: map<Key, set<Nibble>>, u: Update)
    ensures var a, slots := u.account, NewSlots(u);
            var wiped := if Wipes(u) then expected[a := ALL] else expected;
            var marked := if slots == [] then wiped else wiped[a := (if a in wiped then wiped[a] else {}) + Buckets(slots)];
            && marked == (if MaskOf(u) == {} then expected else expected[a := (if a in expected then expected[a] else {}) + MaskOf(u)])
            && (MaskOf(u) == {} <==> !Wipes(u) && slots == [])
  {
    var a := u.account;
    AllIsAll(if a in expected then expected[a] else {});
    AllIsAll(Buckets(NewSlots(u)));
    assert 0 in ALL;
  }
}
