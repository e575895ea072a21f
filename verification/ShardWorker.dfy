/** One merkleization worker: its state and what it does with one message
    (crates/blockchain/blockchain.rs, handle_subtrie). */
module ShardWorker {
  import opened Options
  import opened Trie
  import opened Sharding
  import opened Accounts

  /** A buffer of this size is flushed at once. */
  const FLUSH_BATCH := 1024

  type StorageChoices = cs: Choices<nat> | CanonicalChoices(cs, KEY_LEN - 1) witness EmptyChoices<nat>()

  datatype Buffer = Buffer(root: StorageTrie, slots: seq<Slot>)

  datatype Msg =
    | ProcessAccount(update: Update)
    | MerklizeStorage(account: Key, slot: Slot, root: StorageTrie)
    | DeleteStorage(account: Key)
    | FinishRouting
    | RoutingDone(from: Nibble)
    | StorageShard(account: Key, index: Nibble, subroot: StorageChoices)
    | CollectState

  datatype Send = Send(to: Nibble, msg: Msg)

  /** Aborted covers a panic, a failed send and an exit on a disconnected channel. */
  datatype Status = Running | Finished(subroot: Choices<Account>) | Aborted

  /** Opened storage tries and the slots buffered for them. */
  datatype Shelf = Shelf(tries: map<Key, StorageTrie>, buffer: map<Key, Buffer>)

  datatype Worker = Worker(
    state: StateTrie,
    accounts: map<Key, Account>,
    expected: map<Key, set<Nibble>>,
    received: map<Key, set<Nibble>>,
    shards: map<Key, StorageChoices>,
    pending: nat,
    deferred: bool,
    shelf: Shelf,
    open: bool,
    collecting: bool,
    routingComplete: bool,
    routed: set<Nibble>,
    toCollect: map<Key, StorageTrie>,
    status: Status)

  datatype Effect = Effect(worker: Worker, sends: seq<Send>)

  function Initial(parent: StateTrie): Worker {
    Worker(parent, map[], map[], map[], map[], 0, false, Shelf(map[], map[]), true, false, false, {}, map[], Running)
  }

  function Abort(w: Worker): Effect { Effect(w.(status := Aborted), []) }

  // ---------------------------------------------------------------- storage of one account in one shard

  /** The trie and the buffered slots a worker holds for one account. */
  datatype Entry = Entry(trie: Option<StorageTrie>, buf: Option<Buffer>)

  function EntryOf(sh: Shelf, a: Key): Entry {
    Entry(if a in sh.tries then Some(sh.tries[a]) else None, if a in sh.buffer then Some(sh.buffer[a]) else None)
  }

  predicate Touched(e: Entry) { e.trie.Some? || e.buf.Some? }

  /** What the account's storage is once the buffer is applied; parentRoot is what an
      unopened trie would be opened at. */
  function Content(e: Entry, parentRoot: StorageTrie): StorageTrie {
    WriteAll(if e.trie.Some? then e.trie.value else parentRoot, if e.buf.Some? then e.buf.value.slots else [])
  }

  function Flushed(trie: Option<StorageTrie>, buf: Buffer): StorageTrie {
    Flush(if trie.Some? then trie.value else buf.root, buf.slots)
  }

  function PushEntry(e: Entry, slot: Slot, root: StorageTrie): Entry {
    var buf := if e.buf.Some? then Buffer(e.buf.value.root, e.buf.value.slots + [slot]) else Buffer(root, [slot]);
    if |buf.slots| >= FLUSH_BATCH then Entry(Some(Flushed(e.trie, buf)), None) else Entry(e.trie, Some(buf))
  }

  function SetEntry(sh: Shelf, a: Key, e: Entry): (r: Shelf)
    ensures forall b: Key :: EntryOf(r, b) == if b == a then e else EntryOf(sh, b)
  {
    Shelf(if e.trie.Some? then sh.tries[a := e.trie.value] else sh.tries - {a},
          if e.buf.Some? then sh.buffer[a := e.buf.value] else sh.buffer - {a})
  }

  function Push(sh: Shelf, a: Key, slot: Slot, root: StorageTrie): Shelf {
    SetEntry(sh, a, PushEntry(EntryOf(sh, a), slot, root))
  }

  const WIPED := Entry(Some(None), None)

  function Wipe(sh: Shelf, a: Key): Shelf { SetEntry(sh, a, WIPED) }

  // ---------------------------------------------------------------- handlers

  function Handle(w: Worker, me: Nibble, m: Msg): Effect {
    match m
    case ProcessAccount(u) => HandleUpdate(w, me, u)
    case MerklizeStorage(a, slot, root) => Effect(w.(shelf := Push(w.shelf, a, slot, root)), [])
    case DeleteStorage(a) => Effect(w.(shelf := Wipe(w.shelf, a)), [])
    case FinishRouting => if w.open then Effect(w, Broadcast(0, RoutingDone(me))) else Abort(w)
    case RoutingDone(from) => Effect(HandleRoutingDone(w, from), [])
    case StorageShard(a, index, subroot) => HandleShard(w, a, index, subroot)
    case CollectState => Effect(if Ready(w) then Finish(w) else w.(deferred := true), [])
  }

  function Broadcast(i: nat, m: Msg): seq<Send>
    requires i <= 16
    decreases 16 - i
  {
    if i == 16 then [] else [Send(i, m)] + Broadcast(i + 1, m)
  }

  function BroadcastOthers(i: nat, me: Nibble, m: Msg): seq<Send>
    requires i <= 16
    decreases 16 - i
  {
    if i == 16 then []
    else (if i == me then [] else [Send(i, m)]) + BroadcastOthers(i + 1, me, m)
  }

  /** The account record this worker works on, loaded from the state trie at first use. */
  function Reloaded(w: Worker, a: Key): Account {
    if a in w.accounts then w.accounts[a] else Load(w.state, a)
  }

  /** A removed account is dispatched with the default info and without slots. */
  function NewInfo(account: Account, u: Update): Info {
    if u.removed then DEFAULT_INFO else if u.info.Some? then u.info.value else account.info
  }

  function NewSlots(u: Update): seq<Slot> { if u.removed then [] else u.storage }

  /** The storage root that goes out with the routed slots. */
  function NewRouted(account: Account, u: Update): StorageTrie {
    if Wipes(u) then None else account.root
  }

  /** The bookkeeping of one update: the account, the shards to wait for, and the info that
      is stored at once under the account's current storage root. */
  function Noted(w: Worker, u: Update, sh: Shelf): Worker {
    var a, account := u.account, Reloaded(w, u.account);
    w.(shelf := sh,
       accounts := w.accounts[a := Account(NewInfo(account, u), NewRouted(account, u))],
       state := if u.removed || u.info.Some? then Put(w.state, a, Account(NewInfo(account, u), account.root)) else w.state,
       expected := if MaskOf(u) == {} then w.expected else w.expected[a := Awaited(w, a) + MaskOf(u)],
       pending := w.pending + if MaskOf(u) != {} && a !in w.expected then 1 else 0)
  }

  function AfterWipe(sh: Shelf, u: Update): Shelf { if Wipes(u) then Wipe(sh, u.account) else sh }

  /** Loads the account, wipes every shard if asked to, then routes the slots in order. */
  function HandleUpdate(w: Worker, me: Nibble, u: Update): Effect {
    if !w.open then Abort(w)
    else
      var r := Route(AfterWipe(w.shelf, u), me, u.account, NewSlots(u), NewRouted(Reloaded(w, u.account), u));
      Effect(Noted(w, u, r.shelf),
             (if Wipes(u) then BroadcastOthers(0, me, DeleteStorage(u.account)) else []) + r.sends)
  }

  datatype Routing = Routing(shelf: Shelf, sends: seq<Send>)

  /** Buffers the slots of this shard and sends the others to their owners, in order. */
  function Route(sh: Shelf, me: Nibble, a: Key, slots: seq<Slot>, root: StorageTrie): Routing {
    if slots == [] then Routing(sh, [])
    else
      var r := Route(sh, me, a, slots[..|slots| - 1], root);
      var s := slots[|slots| - 1];
      if Bucket(s.key) == me then Routing(Push(r.shelf, a, s, root), r.sends)
      else Routing(r.shelf, r.sends + [Send(Bucket(s.key), MerklizeStorage(a, s, root))])
  }

  function HandleRoutingDone(w: Worker, from: Nibble): Worker {
    var w1 := w.(routed := w.routed + {from});
    if w1.routed == ALL && !w1.collecting && !w1.routingComplete then
      w1.(collecting := true, routingComplete := true, shelf := Shelf(map[], map[]),
          toCollect := map a | a in w1.shelf.tries.Keys + w1.shelf.buffer.Keys :: Drained(EntryOf(w1.shelf, a)))
    else w1
  }

  /** A remaining buffer is flushed into its trie before collection starts. */
  function Drained(e: Entry): StorageTrie {
    if e.buf.Some? then Flushed(e.trie, e.buf.value) else if e.trie.Some? then e.trie.value else None
  }

  predicate Ready(w: Worker) {
    w.pending == 0 && !w.collecting && w.routingComplete
  }

  function Finish(w: Worker): Worker { w.(status := Finished(Branchify(w.state))) }

  function Got(w: Worker, a: Key): set<Nibble> {
    if a in w.received then w.received[a] else {}
  }

  function Awaited(w: Worker, a: Key): set<Nibble> {
    if a in w.expected then w.expected[a] else {}
  }

  /** The first shard's subroot is the base; a later shard overwrites its own choice only. */
  function Merged(w: Worker, a: Key, i: Nibble, sub: StorageChoices): StorageChoices {
    if a in w.shards then w.shards[a][i := sub[i]] else sub
  }

  function Record(w: Worker, a: Key, i: Nibble, sub: StorageChoices): Worker {
    w.(shards := w.shards[a := Merged(w, a, i, sub)], received := w.received[a := Got(w, a) + {i}])
  }

  /** The shard is the last one its account waits for. */
  predicate Completes(w: Worker, a: Key, i: Nibble) { Got(w, a) + {i} == Awaited(w, a) }

  /** Collapses the stitched choices into the account's storage root and stores the account. */
  function Resolve(w: Worker, a: Key): Worker
    requires a in w.accounts && a in w.shards && w.pending > 0
  {
    CollapseCorrect(w.shards[a], KEY_LEN - 1);
    var account := w.accounts[a].(root := Collapse(w.shards[a]));
    w.(shards := w.shards - {a}, accounts := w.accounts[a := account],
       state := Put(w.state, a, account), pending := w.pending - 1)
  }

  function HandleShard(w: Worker, a: Key, i: Nibble, sub: StorageChoices): Effect {
    if !Completes(w, a, i) then Effect(Record(w, a, i, sub), [])
    else if a !in w.accounts || w.pending == 0 then Abort(w)
    else Effect(FinishIfDeferred(Resolve(Record(w, a, i, sub), a)), [])
  }

  function FinishIfDeferred(w: Worker): Worker {
    if Ready(w) && w.deferred then Finish(w) else w
  }

  /** Finalizes one storage trie and sends its branchified root to the account's owner. */
  function Collect(w: Worker, me: Nibble, a: Key): Effect
    requires a in w.toCollect
  {
    if !w.open then Abort(w)
    else
      BranchifyCorrect(w.toCollect[a], KEY_LEN);
      Effect(w.(toCollect := w.toCollect - {a}), [Send(Bucket(a), StorageShard(a, me, Branchify(w.toCollect[a])))])
  }

  /** No storage trie is left: the senders are dropped and a deferred collection may resolve. */
  function EndCollect(w: Worker): Worker {
    FinishIfDeferred(w.(open := false, collecting := false))
  }
}
