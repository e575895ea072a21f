/** The invariant that ties every worker, every channel and the serial reference together. */
module Protocol {
  import opened Options
  import opened Trie
  import opened Sharding
  import opened Accounts
  import opened ShardWorker
  import opened Routing

  /** The parent state and the stream of account updates of one block. */
  datatype Setting = Setting(parent: StateTrie, stream: seq<Update>)

  /** What is in flight between each pair of workers, and what the coordinator still has
      to deliver to each of them. */
  datatype View = View(workers: seq<Worker>, pipes: seq<seq<seq<Msg>>>, coord: seq<seq<Msg>>)

  // ---------------------------------------------------------------- the coordinator's script

  function Script(us: seq<Update>): (r: seq<Msg>)
    ensures |r| == |us| + 2
  {
    if us == [] then [FinishRouting, CollectState] else [ProcessAccount(us[0])] + Script(us[1..])
  }

  ghost predicate CoordOk(us: seq<Update>, q: seq<Msg>) {
    && |q| <= |us| + 2
    && (|q| >= 2 ==> q == Script(us[|us| + 2 - |q|..]))
    && (|q| == 1 ==> q == [CollectState])
  }

  /** The updates an owner has already handled. */
  function Done(us: seq<Update>, q: seq<Msg>): seq<Update> {
    if |q| <= 2 || |q| > |us| + 2 then us else us[..|us| + 2 - |q|]
  }

  /** The owner has handled FinishRouting. */
  predicate Routed(q: seq<Msg>) { |q| <= 1 }

  // ---------------------------------------------------------------- storage before collection

  ghost function ParentRoot(g: Setting, a: Key): StorageTrie { Load(g.parent, a).root }

  ghost function Current(g: Setting, us: seq<Update>, a: Key): Account { Load(SerialRun(g.parent, us), a) }

  /** Shard i agrees with the serial storage on its own slice and on every slice that no
      update of the account has touched. */
  ghost predicate GoodTrie(g: Setting, i: Nibble, a: Key, t: StorageTrie, us: seq<Update>) {
    forall j: Nibble | j == i || j !in Mask(us, a) :: SameSlice(t, Current(g, us, a).root, j)
  }

  ghost predicate StorageOk(g: Setting, i: Nibble, a: Key, e: Entry, us: seq<Update>) {
    && Opened(e, ParentRoot(g, a))
    && (Touched(e) <==> i in Mask(us, a))
    && GoodTrie(g, i, a, Content(e, ParentRoot(g, a)), us)
  }

  lemma Snoc(us: seq<Update>, u: Update)
    ensures (us + [u])[..|us + [u]| - 1] == us && (us + [u])[|us + [u]| - 1] == u
  {}

  lemma {:induction false} StorageStep(g: Setting, i: Nibble, a: Key, e: Entry, us: seq<Update>, u: Update, root: StorageTrie)
    requires StorageOk(g, i, a, e, us) && u.account == a
    requires Wipes(u) || root == RoutedRoot(g.parent, us, a)
    ensures StorageOk(g, i, a, Deliver(e, Traffic(u, i, root), a), us + [u])
  {
    Snoc(us, u);
    if Wiped(us, a) { WipedMask(us, a); AllHasEvery(i); }
    TrafficContent(e, u, i, root, ParentRoot(g, a));
    var mine := if Wipes(u) then None else Content(e, ParentRoot(g, a));
    var full := if Wipes(u) then None else Current(g, us, a).root;
    NextRoot(g, us, u);
    forall j: Nibble | j == i || j !in Mask(us + [u], a)
      ensures SameSlice(WriteAll(mine, OfNibble(NewSlots(u), i)), WriteAll(full, NewSlots(u)), j)
    {
      assert j == i || j !in Mask(us, a);
      assert SameSlice(mine, full, j);
      AllHasEvery(j);
      ShardAgrees(mine, full, NewSlots(u), i, j);
    }
  }

  lemma NextRoot(g: Setting, us: seq<Update>, u: Update)
    ensures Current(g, us + [u], u.account).root ==
            WriteAll(if Wipes(u) then None else Current(g, us, u.account).root, NewSlots(u))
  {
    Snoc(us, u);
  }

  /** An update of another account changes nothing this account depends on. */
  lemma OtherAccount(g: Setting, us: seq<Update>, u: Update, a: Key)
    requires u.account != a
    ensures Mask(us + [u], a) == Mask(us, a) && Seen(us + [u], a) == Seen(us, a)
    ensures RoutedRoot(g.parent, us + [u], a) == RoutedRoot(g.parent, us, a)
    ensures GetRoot(SerialRun(g.parent, us + [u]), a) == GetRoot(SerialRun(g.parent, us), a)
    ensures Current(g, us + [u], a) == Current(g, us, a)
  {
    Snoc(us, u);
  }

  // ---------------------------------------------------------------- the owner's records

  ghost predicate Resolved(w: Worker, us: seq<Update>, a: Key) {
    Mask(us, a) != {} && Got(w, a) == Mask(us, a)
  }

  /** The accounts whose awaited shards have not all arrived. */
  function Unresolved<K, N>(expected: map<K, set<N>>, received: map<K, set<N>>): set<K> {
    set a | a in expected && (if a in received then received[a] else {}) != expected[a]
  }

  ghost predicate ShardsOk(g: Setting, w: Worker, us: seq<Update>, a: Key) {
    && Got(w, a) <= Mask(us, a)
    && (a in w.shards <==> Got(w, a) != {} && Got(w, a) != Mask(us, a))
    && (a in w.shards ==> forall j: Nibble | j in Got(w, a) || j !in Mask(us, a) ::
          w.shards[a][j] == Branchify(Current(g, us, a).root)[j])
  }

  ghost function OwnedRoot(g: Setting, w: Worker, us: seq<Update>, a: Key): StorageTrie {
    if Resolved(w, us, a) then Current(g, us, a).root else RoutedRoot(g.parent, us, a)
  }

  ghost predicate RecordOk(g: Setting, w: Worker, us: seq<Update>, a: Key) {
    && (a in w.accounts <==> Seen(us, a))
    && (a in w.expected <==> Mask(us, a) != {})
    && Awaited(w, a) == Mask(us, a)
    && (Seen(us, a) ==> w.accounts[a] == Account(Current(g, us, a).info, OwnedRoot(g, w, us, a)))
    && (Resolved(w, us, a) ==> GetRoot(w.state, a) == Kept(Current(g, us, a)))
    && (Mask(us, a) == {} ==> GetRoot(w.state, a) == GetRoot(SerialRun(g.parent, us), a))
  }

  ghost predicate OwnerOk(g: Setting, o: Nibble, w: Worker, us: seq<Update>) {
    && (forall a | a in w.expected :: Bucket(a) == o)
    && (forall a: Key | Bucket(a) == o :: RecordOk(g, w, us, a) && ShardsOk(g, w, us, a))
    && w.pending == |Unresolved(w.expected, w.received)|
  }

  lemma {:induction false} MaskSeen(us: seq<Update>, a: Key)
    requires Mask(us, a) != {}
    ensures Seen(us, a)
  {
    if us[|us| - 1].account != a { MaskSeen(us[..|us| - 1], a); }
  }

  /** Before an update, the owner's record is the serial account under its routed root. */
  lemma {:induction false} Reload(g: Setting, w: Worker, us: seq<Update>, a: Key)
    requires RecordOk(g, w, us, a) && Got(w, a) == {}
    ensures Reloaded(w, a) == Account(Current(g, us, a).info, RoutedRoot(g.parent, us, a))
    ensures Mask(us, a) == {} ==> Reloaded(w, a) == Current(g, us, a)
  {
    if Mask(us, a) == {} { NoMask(g.parent, us, a); } else { MaskSeen(us, a); }
  }

  lemma NextAccount(g: Setting, us: seq<Update>, u: Update)
    ensures var cur, next := Current(g, us, u.account), Current(g, us + [u], u.account);
            && next.info == NewInfo(cur, u)
            && RoutedRoot(g.parent, us + [u], u.account) == (if Wipes(u) then None else RoutedRoot(g.parent, us, u.account))
            && Mask(us + [u], u.account) == Mask(us, u.account) + MaskOf(u)
            && Seen(us + [u], u.account)
            && (Mask(us + [u], u.account) == {} ==>
                  GetRoot(SerialRun(g.parent, us + [u]), u.account) ==
                  if u.info.Some? then Kept(Account(u.info.value, cur.root)) else GetRoot(SerialRun(g.parent, us), u.account))
  {
    Snoc(us, u);
    assert 0 in ALL;
  }

  lemma {:induction false} RecordStep(g: Setting, w: Worker, us: seq<Update>, u: Update, sh: Shelf)
    requires RecordOk(g, w, us, u.account) && Got(w, u.account) == {}
    ensures RecordOk(g, Noted(w, u, sh), us + [u], u.account)
    ensures NewRouted(Reloaded(w, u.account), u) == RoutedRoot(g.parent, us + [u], u.account)
  {
    NextAccount(g, us, u);
    Reload(g, w, us, u.account);
    assert 0 in ALL;
    assert Got(Noted(w, u, sh), u.account) == {};
  }

  lemma {:induction false} RecordOther(g: Setting, w: Worker, us: seq<Update>, u: Update, sh: Shelf, a: Key)
    requires RecordOk(g, w, us, a) && ShardsOk(g, w, us, a) && a != u.account
    ensures RecordOk(g, Noted(w, u, sh), us + [u], a) && ShardsOk(g, Noted(w, u, sh), us + [u], a)
  {
    OtherAccount(g, us, u, a);
  }

  /** While nothing has been received, every awaited account is unresolved. */
  lemma {:induction false} AllUnresolved<K, N>(expected: map<K, set<N>>, received: map<K, set<N>>)
    requires forall b | b in expected :: expected[b] != {} && (b in received ==> received[b] == {})
    ensures |Unresolved(expected, received)| == |expected|
  {
    assert Unresolved(expected, received) == expected.Keys;
  }

  lemma {:induction false} PendingStep<K, N>(expected: map<K, set<N>>, received: map<K, set<N>>, a: K, mask: set<N>)
    requires forall b | b in expected :: expected[b] != {} && (b in received ==> received[b] == {})
    requires mask != {} && (a in received ==> received[a] == {})
    ensures |Unresolved(expected[a := mask], received)| == |Unresolved(expected, received)| + if a in expected then 0 else 1
  {
    AllUnresolved(expected, received);
    AllUnresolved(expected[a := mask], received);
  }

  lemma {:induction false} OwnerStep(g: Setting, o: Nibble, w: Worker, us: seq<Update>, u: Update, sh: Shelf)
    requires OwnerOk(g, o, w, us) && Bucket(u.account) == o
    requires forall a: Key | Bucket(a) == o :: Got(w, a) == {}
    ensures OwnerOk(g, o, Noted(w, u, sh), us + [u])
  {
    var w' := Noted(w, u, sh);
    forall a: Key | Bucket(a) == o
      ensures RecordOk(g, w', us + [u], a) && ShardsOk(g, w', us + [u], a)
    {
      assert RecordOk(g, w, us, a) && ShardsOk(g, w, us, a);
      if a == u.account {
        RecordStep(g, w, us, u, sh);
        assert Got(w', a) == {} && a !in w'.shards;
      } else {
        RecordOther(g, w, us, u, sh, a);
      }
    }
    forall a | a in w.expected
      ensures w.expected[a] != {} && (a in w.received ==> w.received[a] == {})
    {
      assert RecordOk(g, w, us, a) && Got(w, a) == {};
    }
    if MaskOf(u) != {} { PendingStep(w.expected, w.received, u.account, Awaited(w, u.account) + MaskOf(u)); }
  }

  // ---------------------------------------------------------------- shards at the owner

  ghost predicate GoodShard(g: Setting, i: Nibble, a: Key, sub: StorageChoices, us: seq<Update>) {
    forall j: Nibble | j == i || j !in Mask(us, a) :: sub[j] == Branchify(Current(g, us, a).root)[j]
  }

  lemma {:induction false} GoodTrieShard(g: Setting, i: Nibble, a: Key, t: StorageTrie, us: seq<Update>)
    requires GoodTrie(g, i, a, t, us)
    ensures CanonicalChoices(Branchify(t), KEY_LEN - 1) && GoodShard(g, i, a, Branchify(t), us)
  {
    BranchifyCorrect(t, KEY_LEN);
    forall j: Nibble | j == i || j !in Mask(us, a)
      ensures Branchify(t)[j] == Branchify(Current(g, us, a).root)[j]
    {
      SliceChoice(t, Current(g, us, a).root, j);
    }
  }

  /** The base choices of the first shard and the own choice of every later one are right. */
  lemma {:induction false} MergedOk(g: Setting, w: Worker, us: seq<Update>, a: Key, i: Nibble, sub: StorageChoices)
    requires ShardsOk(g, w, us, a) && GoodShard(g, i, a, sub, us) && i !in Got(w, a) && i in Mask(us, a)
    ensures forall j: Nibble | j in Got(w, a) + {i} || j !in Mask(us, a) ::
              Merged(w, a, i, sub)[j] == Branchify(Current(g, us, a).root)[j]
  {
    assert Got(w, a) != Mask(us, a);
  }

  lemma {:induction false} PendingShard<K, N>(expected: map<K, set<N>>, received: map<K, set<N>>, a: K, got: set<N>)
    requires a in Unresolved(expected, received)
    ensures got != expected[a] ==> Unresolved(expected, received[a := got]) == Unresolved(expected, received)
    ensures got == expected[a] ==> Unresolved(expected, received[a := got]) == Unresolved(expected, received) - {a}
  {}

  lemma {:induction false} RecordShard(g: Setting, w: Worker, us: seq<Update>, a: Key, i: Nibble, sub: StorageChoices)
    requires RecordOk(g, w, us, a) && ShardsOk(g, w, us, a) && GoodShard(g, i, a, sub, us)
    requires i !in Got(w, a) && i in Mask(us, a) && !Completes(w, a, i)
    ensures var w' := Record(w, a, i, sub); RecordOk(g, w', us, a) && ShardsOk(g, w', us, a)
  {
    MergedOk(g, w, us, a, i, sub);
    var w' := Record(w, a, i, sub);
    assert Got(w', a) == Got(w, a) + {i};
    assert i in Got(w', a);
  }

  /** At the last shard the stitched root is the serial storage root. */
  lemma {:induction false} ResolveShard(g: Setting, w: Worker, us: seq<Update>, a: Key, i: Nibble, sub: StorageChoices)
    requires RecordOk(g, w, us, a) && ShardsOk(g, w, us, a) && GoodShard(g, i, a, sub, us)
    requires i !in Got(w, a) && i in Mask(us, a) && Completes(w, a, i) && w.pending > 0
    ensures a in w.accounts
    ensures var w' := Resolve(Record(w, a, i, sub), a); RecordOk(g, w', us, a) && ShardsOk(g, w', us, a)
  {
    MaskSeen(us, a);
    MergedOk(g, w, us, a, i, sub);
    Stitch(Merged(w, a, i, sub), Current(g, us, a).root);
    var w' := Resolve(Record(w, a, i, sub), a);
    assert Got(w', a) == Got(w, a) + {i} == Mask(us, a);
  }

  /** Two workers with the same records for one account. */
  ghost predicate Agree(w: Worker, w': Worker, b: Key) {
    && (b in w'.accounts <==> b in w.accounts) && (b in w.accounts ==> w'.accounts[b] == w.accounts[b])
    && (b in w'.expected <==> b in w.expected) && (b in w.expected ==> w'.expected[b] == w.expected[b])
    && (b in w'.shards <==> b in w.shards) && (b in w.shards ==> w'.shards[b] == w.shards[b])
    && Got(w', b) == Got(w, b)
    && GetRoot(w'.state, b) == GetRoot(w.state, b)
  }

  lemma AgreeKeeps(g: Setting, w: Worker, w': Worker, us: seq<Update>, b: Key)
    requires RecordOk(g, w, us, b) && ShardsOk(g, w, us, b) && Agree(w, w', b)
    ensures RecordOk(g, w', us, b) && ShardsOk(g, w', us, b)
  {}

  lemma RecordAgrees(w: Worker, a: Key, i: Nibble, sub: StorageChoices, b: Key)
    requires a != b
    ensures Agree(w, Record(w, a, i, sub), b)
  {}

  lemma ResolveAgrees(w: Worker, a: Key, b: Key)
    requires a != b && a in w.accounts && a in w.shards && w.pending > 0
    ensures Agree(w, Resolve(w, a), b)
  {}

  lemma {:induction false} OwnerRecord(g: Setting, o: Nibble, w: Worker, us: seq<Update>, a: Key, i: Nibble, sub: StorageChoices)
    requires OwnerOk(g, o, w, us) && Bucket(a) == o && GoodShard(g, i, a, sub, us)
    requires i !in Got(w, a) && i in Mask(us, a) && !Completes(w, a, i)
    ensures OwnerOk(g, o, Record(w, a, i, sub), us)
  {
    var w' := Record(w, a, i, sub);
    assert RecordOk(g, w, us, a) && ShardsOk(g, w, us, a);
    PendingShard(w.expected, w.received, a, Got(w, a) + {i});
    forall b: Key | Bucket(b) == o
      ensures RecordOk(g, w', us, b) && ShardsOk(g, w', us, b)
    {
      assert RecordOk(g, w, us, b) && ShardsOk(g, w, us, b);
      if b == a { RecordShard(g, w, us, a, i, sub); }
      else { RecordAgrees(w, a, i, sub, b); AgreeKeeps(g, w, w', us, b); }
    }
  }

  /** What a resolution keeps for each account of the owner. */
  lemma {:induction false} ResolvedAt(g: Setting, w: Worker, us: seq<Update>, a: Key, i: Nibble, sub: StorageChoices, b: Key)
    requires RecordOk(g, w, us, a) && ShardsOk(g, w, us, a) && GoodShard(g, i, a, sub, us)
    requires RecordOk(g, w, us, b) && ShardsOk(g, w, us, b) && a in w.accounts
    requires i !in Got(w, a) && i in Mask(us, a) && Completes(w, a, i) && w.pending > 0
    ensures var w' := Resolve(Record(w, a, i, sub), a); RecordOk(g, w', us, b) && ShardsOk(g, w', us, b)
  {
    if b == a {
      ResolveShard(g, w, us, a, i, sub);
    } else {
      RecordAgrees(w, a, i, sub, b);
      ResolveAgrees(Record(w, a, i, sub), a, b);
      AgreeKeeps(g, w, Resolve(Record(w, a, i, sub), a), us, b);
    }
  }

  /** The account was pending, and the count goes down by one. */
  lemma {:induction false} ResolvedPending(g: Setting, o: Nibble, w: Worker, us: seq<Update>, a: Key, i: Nibble)
    requires OwnerOk(g, o, w, us) && Bucket(a) == o && i !in Got(w, a) && i in Mask(us, a) && Completes(w, a, i)
    ensures w.pending > 0 && a in w.accounts
    ensures |Unresolved(w.expected, w.received[a := Got(w, a) + {i}])| == w.pending - 1
  {
    assert RecordOk(g, w, us, a);
    MaskSeen(us, a);
    assert a in Unresolved(w.expected, w.received);
    PendingShard(w.expected, w.received, a, Got(w, a) + {i});
  }

  lemma {:induction false} OwnerResolve(g: Setting, o: Nibble, w: Worker, us: seq<Update>, a: Key, i: Nibble, sub: StorageChoices)
    requires OwnerOk(g, o, w, us) && Bucket(a) == o && GoodShard(g, i, a, sub, us)
    requires i !in Got(w, a) && i in Mask(us, a) && Completes(w, a, i)
    ensures w.pending > 0 && a in w.accounts
    ensures OwnerOk(g, o, Resolve(Record(w, a, i, sub), a), us)
  {
    ResolvedPending(g, o, w, us, a, i);
    var w' := Resolve(Record(w, a, i, sub), a);
    forall b: Key | Bucket(b) == o
      ensures RecordOk(g, w', us, b) && ShardsOk(g, w', us, b)
    {
      assert RecordOk(g, w, us, a) && ShardsOk(g, w, us, a);
      assert RecordOk(g, w, us, b) && ShardsOk(g, w, us, b);
      ResolvedAt(g, w, us, a, i, sub, b);
    }
  }

  // ---------------------------------------------------------------- channels

  function Rank(m: Msg): nat {
    match m
    case MerklizeStorage(_, _, _) => 0
    case DeleteStorage(_) => 0
    case RoutingDone(_) => 1
    case StorageShard(_, _, _) => 2
    case _ => 3
  }

  /** What worker s may have in flight to worker d. */
  ghost predicate MsgOk(m: Msg, s: Nibble, d: Nibble) {
    match m
    case MerklizeStorage(a, slot, _) => Bucket(a) == s && Bucket(slot.key) == d && s != d
    case DeleteStorage(a) => Bucket(a) == s && s != d
    case RoutingDone(from) => from == s
    case StorageShard(a, index, _) => index == s && Bucket(a) == d
    case _ => false
  }

  /** Slot traffic first, then one RoutingDone, then shards of distinct accounts. */
  ghost predicate Ordered(pipe: seq<Msg>) {
    forall x, y | 0 <= x < y < |pipe| ::
      && Rank(pipe[x]) <= Rank(pipe[y])
      && !(pipe[x].RoutingDone? && pipe[y].RoutingDone?)
      && (pipe[x].StorageShard? && pipe[y].StorageShard? ==> pipe[x].account != pipe[y].account)
  }

  ghost predicate LinkOk(s: Nibble, d: Nibble, pipe: seq<Msg>, routedS: bool, completeS: bool, seenD: set<Nibble>) {
    && Ordered(pipe)
    && (forall m | m in pipe :: MsgOk(m, s, d))
    && (!routedS ==> s !in seenD && forall m | m in pipe :: Rank(m) == 0)
    && (routedS ==> (s in seenD <==> RoutingDone(s) !in pipe))
    && (s in seenD ==> forall m | m in pipe :: Rank(m) == 2)
    && (forall m | m in pipe && Rank(m) == 2 :: completeS)
  }

  ghost predicate ShardIn(pipe: seq<Msg>, a: Key) {
    exists m | m in pipe :: m.StorageShard? && m.account == a
  }

  // ---------------------------------------------------------------- a worker's phases

  ghost predicate PhaseOk(w: Worker, q: seq<Msg>) {
    && (w.routingComplete <==> w.routed == ALL)
    && (!w.routingComplete ==> !w.collecting)
    && (!w.collecting ==> w.toCollect == map[])
    && (w.open <==> w.collecting || !w.routingComplete)
    && (w.routingComplete ==> w.shelf == Shelf(map[], map[]))
    && (match w.status
        case Aborted => false
        case Finished(sub) => Ready(w) && q == [] && sub == Branchify(w.state)
        case Running => (w.deferred <==> q == []) && (w.deferred ==> !Ready(w)))
  }

  // ---------------------------------------------------------------- storage after collection started

  /** Each awaited shard of an account is in exactly one place: still to collect, in flight to
      the owner, or received. No other shard of the account exists. */
  ghost predicate TransitOk(g: Setting, i: Nibble, a: Key, w: Worker, pipe: seq<Msg>, got: set<Nibble>, us: seq<Update>) {
    if !w.routingComplete then a !in w.toCollect && !ShardIn(pipe, a) && i !in got
    else
      && (i in Mask(us, a) <==> a in w.toCollect || ShardIn(pipe, a) || i in got)
      && !(a in w.toCollect && ShardIn(pipe, a)) && !(a in w.toCollect && i in got) && !(ShardIn(pipe, a) && i in got)
      && (a in w.toCollect ==> GoodTrie(g, i, a, w.toCollect[a], us))
      && (forall m | m in pipe && m.StorageShard? && m.account == a :: GoodShard(g, i, a, m.subroot, us))
  }

  // ---------------------------------------------------------------- the invariant

  function Mine(g: Setting, d: Nibble): seq<Update> { OfOwner(g.stream, d) }

  predicate Shaped(v: View) {
    && |v.workers| == |v.pipes| == |v.coord| == 16
    && forall s | 0 <= s < 16 :: |v.pipes[s]| == 16
  }

  function Handled(g: Setting, v: View, o: Nibble): seq<Update>
    requires Shaped(v)
  {
    Done(Mine(g, o), v.coord[o])
  }

  ghost predicate InvCoord(g: Setting, v: View) requires Shaped(v) {
    forall d: Nibble :: CoordOk(Mine(g, d), v.coord[d])
  }

  ghost predicate InvPhase(v: View) requires Shaped(v) {
    forall d: Nibble :: PhaseOk(v.workers[d], v.coord[d])
  }

  ghost predicate InvOwner(g: Setting, v: View) requires Shaped(v) {
    forall o: Nibble :: OwnerOk(g, o, v.workers[o], Handled(g, v, o))
  }

  ghost predicate InvLink(v: View) requires Shaped(v) {
    forall s: Nibble, d: Nibble ::
      LinkOk(s, d, v.pipes[s][d], Routed(v.coord[s]), v.workers[s].routingComplete, v.workers[d].routed)
  }

  ghost predicate InvStorage(g: Setting, v: View) requires Shaped(v) {
    forall i: Nibble, a: Key | !v.workers[i].routingComplete ::
      StorageOk(g, i, a, Deliver(EntryOf(v.workers[i].shelf, a), v.pipes[Bucket(a)][i], a), Handled(g, v, Bucket(a)))
  }

  ghost predicate InvTransit(g: Setting, v: View) requires Shaped(v) {
    forall i: Nibble, a: Key ::
      TransitOk(g, i, a, v.workers[i], v.pipes[i][Bucket(a)], Got(v.workers[Bucket(a)], a), Handled(g, v, Bucket(a)))
  }

  ghost predicate Inv(g: Setting, v: View) {
    Shaped(v) && InvCoord(g, v) && InvPhase(v) && InvOwner(g, v) && InvLink(v) && InvStorage(g, v) && InvTransit(g, v)
  }

  function InitialView(g: Setting): View {
    View(seq(16, _ => Initial(g.parent)), seq(16, _ => seq(16, _ => [])),
         seq(16, d requires 0 <= d < 16 => Script(Mine(g, d))))
  }

  lemma {:induction false} InitialCoord(g: Setting, d: Nibble)
    ensures var v := InitialView(g);
            CoordOk(Mine(g, d), v.coord[d]) && Handled(g, v, d) == [] && v.workers[d] == Initial(g.parent)
  {
    assert Mine(g, d)[0..] == Mine(g, d);
  }

  lemma {:induction false} InitialOwner(g: Setting, o: Nibble)
    ensures OwnerOk(g, o, Initial(g.parent), [])
  {
    var w := Initial(g.parent);
    assert Unresolved(w.expected, w.received) == {};
    forall a: Key | Bucket(a) == o ensures RecordOk(g, w, [], a) && ShardsOk(g, w, [], a) {}
  }

  lemma {:induction false} InitialStorage(g: Setting, i: Nibble, a: Key)
    ensures StorageOk(g, i, a, Deliver(EntryOf(Initial(g.parent).shelf, a), [], a), [])
  {}

  lemma {:induction false} InitialInv(g: Setting)
    ensures Inv(g, InitialView(g))
  {
    var v := InitialView(g);
    AllHasEvery(0);
    forall d: Nibble
      ensures CoordOk(Mine(g, d), v.coord[d]) && PhaseOk(v.workers[d], v.coord[d]) && OwnerOk(g, d, v.workers[d], Handled(g, v, d))
    {
      InitialCoord(g, d);
      InitialOwner(g, d);
    }
    forall s: Nibble, d: Nibble
      ensures LinkOk(s, d, v.pipes[s][d], Routed(v.coord[s]), v.workers[s].routingComplete, v.workers[d].routed)
    {
      InitialCoord(g, s);
      InitialCoord(g, d);
    }
    InitialTransit(g);
  }

  lemma {:induction false} InitialTransit(g: Setting)
    ensures InvStorage(g, InitialView(g)) && InvTransit(g, InitialView(g))
  {
    var v := InitialView(g);
    forall i: Nibble, a: Key
      ensures StorageOk(g, i, a, Deliver(EntryOf(v.workers[i].shelf, a), v.pipes[Bucket(a)][i], a), Handled(g, v, Bucket(a)))
      ensures TransitOk(g, i, a, v.workers[i], v.pipes[i][Bucket(a)], Got(v.workers[Bucket(a)], a), Handled(g, v, Bucket(a)))
    {
      InitialCoord(g, Bucket(a));
      InitialStorage(g, i, a);
    }
  }
}
