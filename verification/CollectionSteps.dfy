/** Messages between workers and the collection of storage tries keep the invariant. */
module CollectionSteps {
  import opened Trie
  import opened Sharding
  import opened Accounts
  import opened ShardWorker
  import opened Routing
  import opened Protocol
  import opened ProtocolSteps

  // ---------------------------------------------------------------- taking a message off a channel

  lemma {:induction false} LinkTail(s: Nibble, d: Nibble, pipe: seq<Msg>, routedS: bool, completeS: bool, seenD: set<Nibble>)
    requires LinkOk(s, d, pipe, routedS, completeS, seenD) && pipe != []
    ensures !pipe[0].RoutingDone? ==> LinkOk(s, d, pipe[1..], routedS, completeS, seenD)
    ensures pipe[0].RoutingDone? ==> routedS && s !in seenD && LinkOk(s, d, pipe[1..], routedS, completeS, seenD + {s})
  {
    assert pipe[0] in pipe && forall m | m in pipe[1..] :: m in pipe;
    assert forall m | m in pipe :: m == pipe[0] || m in pipe[1..];
    if pipe[0].RoutingDone? {
      forall m | m in pipe[1..] ensures Rank(m) == 2 {
        var x :| 0 <= x < |pipe[1..]| && pipe[1..][x] == m;
        assert pipe[x + 1] == m && Rank(pipe[0]) <= Rank(pipe[x + 1]) && MsgOk(m, s, d);
      }
    }
  }

  lemma LinkGrows(s: Nibble, d: Nibble, pipe: seq<Msg>, routedS: bool, completeS: bool, seenD: set<Nibble>, completeS': bool, seenD': set<Nibble>)
    requires LinkOk(s, d, pipe, routedS, completeS, seenD) && (completeS ==> completeS') && (s in seenD' <==> s in seenD)
    ensures LinkOk(s, d, pipe, routedS, completeS', seenD')
  {}

  /** What the other links depend on when the head of link s to d is taken. */
  ghost predicate OtherLink(v: View, v': View, s: Nibble, d: Nibble, x: Nibble, y: Nibble) requires Shaped(v) && Shaped(v') {
    if x == s && y == d then
      v.pipes[s][d] != [] && v'.pipes[s][d] == v.pipes[s][d][1..] &&
      v'.workers[d].routed == if v.pipes[s][d][0].RoutingDone? then v.workers[d].routed + {s} else v.workers[d].routed
    else
      v'.pipes[x][y] == v.pipes[x][y] && (x in v'.workers[y].routed <==> x in v.workers[y].routed)
  }

  lemma {:induction false} LinkTaken(v: View, v': View, s: Nibble, d: Nibble)
    requires Shaped(v) && Shaped(v') && InvLink(v) && v'.coord == v.coord
    requires forall x: Nibble, y: Nibble :: OtherLink(v, v', s, d, x, y)
    requires forall x: Nibble :: v.workers[x].routingComplete ==> v'.workers[x].routingComplete
    ensures InvLink(v')
  {
    forall x: Nibble, y: Nibble
      ensures LinkOk(x, y, v'.pipes[x][y], Routed(v'.coord[x]), v'.workers[x].routingComplete, v'.workers[y].routed)
    {
      assert OtherLink(v, v', s, d, x, y);
      assert LinkOk(x, y, v.pipes[x][y], Routed(v.coord[x]), v.workers[x].routingComplete, v.workers[y].routed);
      if x == s && y == d {
        LinkTail(s, d, v.pipes[s][d], Routed(v.coord[s]), v.workers[s].routingComplete, v.workers[d].routed);
        LinkGrows(s, d, v.pipes[s][d][1..], Routed(v.coord[s]), v.workers[s].routingComplete, v'.workers[d].routed,
                  v'.workers[s].routingComplete, v'.workers[d].routed);
      } else {
        LinkGrows(x, y, v.pipes[x][y], Routed(v.coord[x]), v.workers[x].routingComplete, v.workers[y].routed,
                  v'.workers[x].routingComplete, v'.workers[y].routed);
      }
    }
  }

  /** A link whose sender has not announced the end of its routing to the receiver keeps the
      receiver from collecting. */
  lemma NotComplete(w: Worker, q: seq<Msg>, s: Nibble)
    requires PhaseOk(w, q) && s !in w.routed
    ensures !w.routingComplete && !w.collecting && w.open
  {
    AllHasEvery(s);
  }

  lemma {:induction false} ShardTail(pipe: seq<Msg>, a: Key)
    requires pipe != []
    ensures ShardIn(pipe, a) <==> ShardIn(pipe[1..], a) || (pipe[0].StorageShard? && pipe[0].account == a)
  {
    assert forall m :: m in pipe <==> m == pipe[0] || m in pipe[1..];
  }

  // ---------------------------------------------------------------- slot writes and wipes

  lemma {:induction false} HandleOp(w: Worker, me: Nibble, m: Msg)
    requires Rank(m) == 0
    ensures var e := Handle(w, me, m); e.sends == [] && e.worker == w.(shelf := e.worker.shelf)
  {}

  lemma {:induction false} OpMoves(v: View, s: Nibble, d: Nibble)
    requires Shaped(v) && v.pipes[s][d] != [] && Rank(v.pipes[s][d][0]) == 0
    ensures var v', w := RecvPipe(v, s, d), v.workers[d];
            && v'.coord == v.coord
            && v'.workers[d] == w.(shelf := v'.workers[d].shelf)
            && (forall x: Nibble | x != d :: v'.workers[x] == v.workers[x])
            && (forall x: Nibble, y: Nibble :: v'.pipes[x][y] == if x == s && y == d then v.pipes[x][y][1..] else v.pipes[x][y])
  {
    HandleOp(v.workers[d], d, v.pipes[s][d][0]);
  }

  lemma HandleEntry(w: Worker, me: Nibble, m: Msg, a: Key)
    requires Rank(m) == 0
    ensures EntryOf(Handle(w, me, m).worker.shelf, a) == Apply(EntryOf(w.shelf, a), m, a)
  {}

  lemma {:induction false} OpEntry(v: View, s: Nibble, d: Nibble, a: Key)
    requires Shaped(v) && v.pipes[s][d] != [] && Rank(v.pipes[s][d][0]) == 0
    ensures EntryOf(RecvPipe(v, s, d).workers[d].shelf, a) == Apply(EntryOf(v.workers[d].shelf, a), v.pipes[s][d][0], a)
  {
    HandleEntry(v.workers[d], d, v.pipes[s][d][0], a);
    assert RecvPipe(v, s, d).workers[d] == Handle(v.workers[d], d, v.pipes[s][d][0]).worker;
  }

  lemma {:induction false} OpStorage(g: Setting, v: View, s: Nibble, d: Nibble)
    requires Shaped(v) && InvStorage(g, v) && v.pipes[s][d] != []
    requires Rank(v.pipes[s][d][0]) == 0 && MsgOk(v.pipes[s][d][0], s, d)
    ensures InvStorage(g, RecvPipe(v, s, d))
  {
    OpMoves(v, s, d);
    var v' := RecvPipe(v, s, d);
    forall i: Nibble, a: Key ensures SameDelivered(g, v, v', i, a) {
      if i == d {
        OpEntry(v, s, d, a);
        if Bucket(a) == s { DeliverHead(EntryOf(v.workers[d].shelf, a), v.pipes[s][d], a); }
      }
    }
    StorageFrame(g, v, v');
  }

  /** Taking a message that is no shard off one link, with no change to what shards depend on. */
  lemma {:induction false} TransitTail(g: Setting, v: View, v': View, s: Nibble, d: Nibble)
    requires Shaped(v) && Shaped(v') && InvTransit(g, v) && v'.coord == v.coord
    requires v.pipes[s][d] != [] && !v.pipes[s][d][0].StorageShard?
    requires forall x: Nibble, y: Nibble :: v'.pipes[x][y] == if x == s && y == d then v.pipes[x][y][1..] else v.pipes[x][y]
    requires forall x: Nibble :: SameShards(v.workers[x], v'.workers[x])
    ensures InvTransit(g, v')
  {
    forall i: Nibble, a: Key
      ensures TransitOk(g, i, a, v'.workers[i], v'.pipes[i][Bucket(a)], Got(v'.workers[Bucket(a)], a), Handled(g, v', Bucket(a)))
    {
      assert TransitOk(g, i, a, v.workers[i], v.pipes[i][Bucket(a)], Got(v.workers[Bucket(a)], a), Handled(g, v, Bucket(a)));
      assert SameShards(v.workers[i], v'.workers[i]) && SameShards(v.workers[Bucket(a)], v'.workers[Bucket(a)]);
      if i == s && Bucket(a) == d { ShardTail(v.pipes[s][d], a); }
    }
  }

  ghost predicate SameShards(w: Worker, w': Worker) {
    w'.routingComplete == w.routingComplete && w'.toCollect == w.toCollect && w'.received == w.received
  }

  lemma {:induction false} OpOtherLinks(v: View, s: Nibble, d: Nibble)
    requires Shaped(v) && v.pipes[s][d] != [] && Rank(v.pipes[s][d][0]) == 0
    ensures var v' := RecvPipe(v, s, d);
            && v'.coord == v.coord
            && (forall x: Nibble, y: Nibble :: OtherLink(v, v', s, d, x, y))
            && (forall x: Nibble :: v.workers[x].routingComplete ==> v'.workers[x].routingComplete)
  {
    OpMoves(v, s, d);
    forall x: Nibble, y: Nibble ensures OtherLink(v, RecvPipe(v, s, d), s, d, x, y) {}
  }

  lemma {:induction false} OpLink(v: View, s: Nibble, d: Nibble)
    requires Shaped(v) && InvLink(v) && v.pipes[s][d] != [] && Rank(v.pipes[s][d][0]) == 0
    ensures InvLink(RecvPipe(v, s, d))
  {
    OpOtherLinks(v, s, d);
    LinkTaken(v, RecvPipe(v, s, d), s, d);
  }

  lemma {:induction false} OpOwner(g: Setting, v: View, s: Nibble, d: Nibble)
    requires Shaped(v) && InvOwner(g, v) && InvPhase(v) && v.pipes[s][d] != [] && Rank(v.pipes[s][d][0]) == 0
    requires s !in v.workers[d].routed
    ensures var v' := RecvPipe(v, s, d); InvOwner(g, v') && InvPhase(v')
  {
    OpMoves(v, s, d);
    var v' := RecvPipe(v, s, d);
    forall o: Nibble
      ensures PhaseOk(v'.workers[o], v'.coord[o]) && OwnerOk(g, o, v'.workers[o], Handled(g, v', o))
    {
      assert PhaseOk(v.workers[o], v.coord[o]) && OwnerOk(g, o, v.workers[o], Handled(g, v, o));
      if o == d {
        NotComplete(v.workers[d], v.coord[d], s);
        OwnerFrame(g, d, v.workers[d], v'.workers[d], Handled(g, v, d));
      }
    }
  }

  lemma {:induction false} OpTransit(g: Setting, v: View, s: Nibble, d: Nibble)
    requires Shaped(v) && InvTransit(g, v) && v.pipes[s][d] != [] && Rank(v.pipes[s][d][0]) == 0
    ensures InvTransit(g, RecvPipe(v, s, d))
  {
    OpMoves(v, s, d);
    TransitTail(g, v, RecvPipe(v, s, d), s, d);
  }

  lemma {:induction false} StepOp(g: Setting, v: View, s: Nibble, d: Nibble)
    requires Inv(g, v) && v.pipes[s][d] != [] && Rank(v.pipes[s][d][0]) == 0
    ensures Inv(g, RecvPipe(v, s, d))
  {
    assert LinkOk(s, d, v.pipes[s][d], Routed(v.coord[s]), v.workers[s].routingComplete, v.workers[d].routed);
    assert v.pipes[s][d][0] in v.pipes[s][d];
    OpMoves(v, s, d);
    OpLink(v, s, d);
    OpStorage(g, v, s, d);
    OpOwner(g, v, s, d);
    OpTransit(g, v, s, d);
  }

  // ---------------------------------------------------------------- RoutingDone

  lemma {:induction false} DoneMoves(v: View, s: Nibble, d: Nibble)
    requires Shaped(v) && v.pipes[s][d] != [] && v.pipes[s][d][0].RoutingDone?
    ensures var v' := RecvPipe(v, s, d);
            && v'.coord == v.coord
            && v'.workers[d] == HandleRoutingDone(v.workers[d], v.pipes[s][d][0].from)
            && (forall x: Nibble | x != d :: v'.workers[x] == v.workers[x])
            && (forall x: Nibble, y: Nibble :: v'.pipes[x][y] == if x == s && y == d then v.pipes[x][y][1..] else v.pipes[x][y])
  {}

  lemma {:induction false} DoneOtherLinks(v: View, s: Nibble, d: Nibble)
    requires Shaped(v) && v.pipes[s][d] != [] && v.pipes[s][d][0] == RoutingDone(s)
    ensures var v' := RecvPipe(v, s, d);
            && v'.coord == v.coord
            && (forall x: Nibble, y: Nibble :: OtherLink(v, v', s, d, x, y))
            && (forall x: Nibble :: v.workers[x].routingComplete ==> v'.workers[x].routingComplete)
  {
    DoneMoves(v, s, d);
    forall x: Nibble, y: Nibble ensures OtherLink(v, RecvPipe(v, s, d), s, d, x, y) {}
  }

  lemma {:induction false} DoneLink(v: View, s: Nibble, d: Nibble)
    requires Shaped(v) && InvLink(v) && v.pipes[s][d] != [] && v.pipes[s][d][0] == RoutingDone(s)
    ensures InvLink(RecvPipe(v, s, d))
  {
    DoneOtherLinks(v, s, d);
    LinkTaken(v, RecvPipe(v, s, d), s, d);
  }

  lemma {:induction false} DoneOwner(g: Setting, v: View, s: Nibble, d: Nibble)
    requires Shaped(v) && InvOwner(g, v) && InvPhase(v) && v.pipes[s][d] != [] && v.pipes[s][d][0] == RoutingDone(s)
    requires s !in v.workers[d].routed && v.workers[d].status.Running?
    ensures var v' := RecvPipe(v, s, d); InvOwner(g, v') && InvPhase(v')
  {
    DoneMoves(v, s, d);
    var v' := RecvPipe(v, s, d);
    forall o: Nibble
      ensures PhaseOk(v'.workers[o], v'.coord[o]) && OwnerOk(g, o, v'.workers[o], Handled(g, v', o))
    {
      assert PhaseOk(v.workers[o], v.coord[o]) && OwnerOk(g, o, v.workers[o], Handled(g, v, o));
      if o == d {
        NotComplete(v.workers[d], v.coord[d], s);
        OwnerFrame(g, d, v.workers[d], v'.workers[d], Handled(g, v, d));
      }
    }
  }

  lemma {:induction false} DrainedContent(e: Entry, parentRoot: StorageTrie)
    requires Opened(e, parentRoot) && Touched(e)
    ensures Drained(e) == Content(e, parentRoot)
  {
    var base := if e.trie.Some? then e.trie.value else parentRoot;
    if e.buf.Some? { FlushInOrder(base, e.buf.value.slots); }
  }

  /** When the last RoutingDone is at the head of its channel, nothing else is on its way to
      the shard: its shelf already holds its share of every routed update. */
  lemma {:induction false} BarrierDelivers(v: View, s: Nibble, d: Nibble, a: Key)
    requires Shaped(v) && InvLink(v) && v.pipes[s][d] != [] && v.pipes[s][d][0] == RoutingDone(s)
    requires v.workers[d].routed + {s} == ALL
    ensures Deliver(EntryOf(v.workers[d].shelf, a), v.pipes[Bucket(a)][d], a) == EntryOf(v.workers[d].shelf, a)
  {
    var x := Bucket(a);
    assert LinkOk(x, d, v.pipes[x][d], Routed(v.coord[x]), v.workers[x].routingComplete, v.workers[d].routed);
    AllHasEvery(x);
    forall m | m in v.pipes[x][d] ensures !About(m, a) {
      if x == s {
        var n :| 0 <= n < |v.pipes[s][d]| && v.pipes[s][d][n] == m;
        assert n == 0 || Rank(v.pipes[s][d][0]) <= Rank(v.pipes[s][d][n]);
      }
    }
    DeliverOther(EntryOf(v.workers[d].shelf, a), v.pipes[x][d], a);
  }

  lemma {:induction false} DoneTransit(g: Setting, v: View, s: Nibble, d: Nibble)
    requires Shaped(v) && InvLink(v) && InvStorage(g, v) && InvTransit(g, v)
    requires v.pipes[s][d] != [] && v.pipes[s][d][0] == RoutingDone(s)
    requires !v.workers[d].routingComplete && !v.workers[d].collecting
    ensures InvTransit(g, RecvPipe(v, s, d))
  {
    DoneMoves(v, s, d);
    var v' := RecvPipe(v, s, d);
    if v.workers[d].routed + {s} == ALL {
      forall i: Nibble, a: Key
        ensures TransitOk(g, i, a, v'.workers[i], v'.pipes[i][Bucket(a)], Got(v'.workers[Bucket(a)], a), Handled(g, v', Bucket(a)))
      {
        DoneGot(v, s, d, a);
        DoneTransitAt(g, v, s, d, i, a);
      }
    } else {
      TransitTail(g, v, v', s, d);
    }
  }

  lemma {:induction false} DoneGot(v: View, s: Nibble, d: Nibble, a: Key)
    requires Shaped(v) && v.pipes[s][d] != [] && v.pipes[s][d][0] == RoutingDone(s)
    ensures Got(RecvPipe(v, s, d).workers[Bucket(a)], a) == Got(v.workers[Bucket(a)], a)
  {
    DoneMoves(v, s, d);
  }

  lemma {:induction false} DoneTransitAt(g: Setting, v: View, s: Nibble, d: Nibble, i: Nibble, a: Key)
    requires Shaped(v) && InvLink(v) && InvStorage(g, v)
    requires v.pipes[s][d] != [] && v.pipes[s][d][0] == RoutingDone(s)
    requires v.workers[d].routed + {s} == ALL && !v.workers[d].routingComplete && !v.workers[d].collecting
    requires TransitOk(g, i, a, v.workers[i], v.pipes[i][Bucket(a)], Got(v.workers[Bucket(a)], a), Handled(g, v, Bucket(a)))
    ensures TransitOk(g, i, a, if i == d then HandleRoutingDone(v.workers[d], s) else v.workers[i],
                      if i == s && Bucket(a) == d then v.pipes[s][d][1..] else v.pipes[i][Bucket(a)],
                      Got(v.workers[Bucket(a)], a), Handled(g, v, Bucket(a)))
  {
    if i == s && Bucket(a) == d { ShardTail(v.pipes[s][d], a); }
    if i == d { DoneDrains(g, v, s, d, a); }
  }

  /** At the barrier the shard is about to collect exactly the accounts that await it. */
  lemma {:induction false} DoneDrains(g: Setting, v: View, s: Nibble, d: Nibble, a: Key)
    requires Shaped(v) && InvLink(v) && InvStorage(g, v)
    requires v.pipes[s][d] != [] && v.pipes[s][d][0] == RoutingDone(s)
    requires v.workers[d].routed + {s} == ALL && !v.workers[d].routingComplete && !v.workers[d].collecting
    ensures var w', us := HandleRoutingDone(v.workers[d], s), Handled(g, v, Bucket(a));
            && (a in w'.toCollect <==> d in Mask(us, a))
            && (a in w'.toCollect ==> GoodTrie(g, d, a, w'.toCollect[a], us))
  {
    BarrierDelivers(v, s, d, a);
    var e := EntryOf(v.workers[d].shelf, a);
    assert StorageOk(g, d, a, Deliver(e, v.pipes[Bucket(a)][d], a), Handled(g, v, Bucket(a)));
    if Touched(e) { DrainedContent(e, ParentRoot(g, a)); }
  }

  lemma {:induction false} DoneStorage(g: Setting, v: View, s: Nibble, d: Nibble)
    requires Shaped(v) && InvStorage(g, v)
    requires v.pipes[s][d] != [] && v.pipes[s][d][0] == RoutingDone(s) && !v.workers[d].routingComplete
    ensures InvStorage(g, RecvPipe(v, s, d))
  {
    DoneMoves(v, s, d);
    var v' := RecvPipe(v, s, d);
    forall i: Nibble, a: Key | !v'.workers[i].routingComplete
      ensures StorageOk(g, i, a, Deliver(EntryOf(v'.workers[i].shelf, a), v'.pipes[Bucket(a)][i], a), Handled(g, v', Bucket(a)))
    {
      assert StorageOk(g, i, a, Deliver(EntryOf(v.workers[i].shelf, a), v.pipes[Bucket(a)][i], a), Handled(g, v, Bucket(a)));
      if i == d && Bucket(a) == s { DeliverHead(EntryOf(v.workers[d].shelf, a), v.pipes[s][d], a); }
    }
  }

  lemma {:induction false} StepRoutingDone(g: Setting, v: View, s: Nibble, d: Nibble)
    requires Inv(g, v) && v.pipes[s][d] != [] && v.pipes[s][d][0].RoutingDone? && v.workers[d].status.Running?
    ensures Inv(g, RecvPipe(v, s, d))
  {
    assert LinkOk(s, d, v.pipes[s][d], Routed(v.coord[s]), v.workers[s].routingComplete, v.workers[d].routed);
    assert v.pipes[s][d][0] in v.pipes[s][d];
    LinkTail(s, d, v.pipes[s][d], Routed(v.coord[s]), v.workers[s].routingComplete, v.workers[d].routed);
    assert PhaseOk(v.workers[d], v.coord[d]);
    NotComplete(v.workers[d], v.coord[d], s);
    DoneMoves(v, s, d);
    DoneLink(v, s, d);
    DoneStorage(g, v, s, d);
    DoneOwner(g, v, s, d);
    DoneTransit(g, v, s, d);
  }

  // ---------------------------------------------------------------- StorageShard

  lemma {:induction false} ShardMoves(v: View, s: Nibble, d: Nibble)
    requires Shaped(v) && v.pipes[s][d] != [] && v.pipes[s][d][0].StorageShard?
    ensures var v', m := RecvPipe(v, s, d), v.pipes[s][d][0];
            && v'.coord == v.coord
            && v'.workers[d] == HandleShard(v.workers[d], m.account, m.index, m.subroot).worker
            && (forall x: Nibble | x != d :: v'.workers[x] == v.workers[x])
            && (forall x: Nibble, y: Nibble :: v'.pipes[x][y] == if x == s && y == d then v.pipes[x][y][1..] else v.pipes[x][y])
  {}

  /** What a shard does to its owner, when the owner does not abort. */
  ghost predicate ShardKeeps(w: Worker, w': Worker, a: Key, i: Nibble) {
    && w'.routingComplete == w.routingComplete && w'.toCollect == w.toCollect && w'.routed == w.routed
    && w'.shelf == w.shelf && w'.received == w.received[a := Got(w, a) + {i}]
  }

  lemma {:induction false} ResolvePhase(w: Worker, q: seq<Msg>, a: Key, i: Nibble, sub: StorageChoices)
    requires PhaseOk(w, q) && w.status.Running? && Completes(w, a, i) && a in w.accounts && w.pending > 0
    ensures var w' := HandleShard(w, a, i, sub).worker; PhaseOk(w', q) && ShardKeeps(w, w', a, i)
  {}

  lemma {:induction false} OwnerLastShard(g: Setting, o: Nibble, w: Worker, us: seq<Update>, a: Key, i: Nibble, sub: StorageChoices)
    requires OwnerOk(g, o, w, us) && Bucket(a) == o && GoodShard(g, i, a, sub, us)
    requires i !in Got(w, a) && i in Mask(us, a) && Completes(w, a, i)
    ensures w.pending > 0 && a in w.accounts && OwnerOk(g, o, HandleShard(w, a, i, sub).worker, us)
  {
    OwnerResolve(g, o, w, us, a, i, sub);
    var w1 := Resolve(Record(w, a, i, sub), a);
    OwnerFrame(g, o, w1, FinishIfDeferred(w1), us);
  }

  lemma {:induction false} OwnerShard(g: Setting, o: Nibble, w: Worker, q: seq<Msg>, us: seq<Update>, a: Key, i: Nibble, sub: StorageChoices)
    requires OwnerOk(g, o, w, us) && Bucket(a) == o && GoodShard(g, i, a, sub, us) && PhaseOk(w, q) && w.status.Running?
    requires i !in Got(w, a) && i in Mask(us, a)
    ensures var w' := HandleShard(w, a, i, sub).worker;
            OwnerOk(g, o, w', us) && PhaseOk(w', q) && ShardKeeps(w, w', a, i)
  {
    if Completes(w, a, i) {
      OwnerLastShard(g, o, w, us, a, i, sub);
      ResolvePhase(w, q, a, i, sub);
    } else {
      OwnerRecord(g, o, w, us, a, i, sub);
    }
  }

  lemma {:induction false} ShardTransitAt(g: Setting, s: Nibble, a: Key, w: Worker, pipe: seq<Msg>, got: set<Nibble>, us: seq<Update>, b: Key, d: Nibble)
    requires TransitOk(g, s, b, w, pipe, got, us) && pipe != [] && pipe[0].StorageShard? && pipe[0].account == a && Ordered(pipe)
    ensures TransitOk(g, s, b, w, pipe[1..], got + if b == a then {s} else {}, us)
  {
    ShardTail(pipe, b);
    assert pipe[0] in pipe;
    assert a == b ==> !ShardIn(pipe[1..], b);
  }

  lemma {:induction false} ShardGot(v: View, s: Nibble, d: Nibble, b: Key)
    requires Shaped(v) && v.pipes[s][d] != [] && v.pipes[s][d][0].StorageShard?
    requires var m := v.pipes[s][d][0];
             m.index == s && Bucket(m.account) == d &&
             ShardKeeps(v.workers[d], HandleShard(v.workers[d], m.account, s, m.subroot).worker, m.account, s)
    ensures Got(RecvPipe(v, s, d).workers[Bucket(b)], b) ==
            Got(v.workers[Bucket(b)], b) + if b == v.pipes[s][d][0].account then {s} else {}
  {
    ShardMoves(v, s, d);
  }

  lemma {:induction false} ShardTransit(g: Setting, v: View, s: Nibble, d: Nibble)
    requires Shaped(v) && InvTransit(g, v) && v.pipes[s][d] != [] && v.pipes[s][d][0].StorageShard?
    requires var m := v.pipes[s][d][0];
             m.index == s && Bucket(m.account) == d && Ordered(v.pipes[s][d]) &&
             ShardKeeps(v.workers[d], HandleShard(v.workers[d], m.account, s, m.subroot).worker, m.account, s)
    ensures InvTransit(g, RecvPipe(v, s, d))
  {
    ShardMoves(v, s, d);
    var v', a := RecvPipe(v, s, d), v.pipes[s][d][0].account;
    forall i: Nibble, b: Key
      ensures TransitOk(g, i, b, v'.workers[i], v'.pipes[i][Bucket(b)], Got(v'.workers[Bucket(b)], b), Handled(g, v', Bucket(b)))
    {
      assert TransitOk(g, i, b, v.workers[i], v.pipes[i][Bucket(b)], Got(v.workers[Bucket(b)], b), Handled(g, v, Bucket(b)));
      ShardGot(v, s, d, b);
      if i == s && Bucket(b) == d {
        ShardTransitAt(g, s, a, v.workers[s], v.pipes[s][d], Got(v.workers[d], b), Handled(g, v, d), b, d);
      }
      TransitWorker(g, i, b, v.workers[i], v'.workers[i], v'.pipes[i][Bucket(b)], Got(v'.workers[Bucket(b)], b), Handled(g, v, Bucket(b)));
    }
  }

  lemma TransitWorker(g: Setting, i: Nibble, b: Key, w: Worker, w': Worker, pipe: seq<Msg>, got: set<Nibble>, us: seq<Update>)
    requires TransitOk(g, i, b, w, pipe, got, us) && w'.routingComplete == w.routingComplete && w'.toCollect == w.toCollect
    ensures TransitOk(g, i, b, w', pipe, got, us)
  {}

  lemma {:induction false} ShardLink(v: View, s: Nibble, d: Nibble)
    requires Shaped(v) && InvLink(v) && v.pipes[s][d] != [] && v.pipes[s][d][0].StorageShard?
    requires var m := v.pipes[s][d][0];
             ShardKeeps(v.workers[d], HandleShard(v.workers[d], m.account, m.index, m.subroot).worker, m.account, m.index)
    ensures InvLink(RecvPipe(v, s, d))
  {
    ShardMoves(v, s, d);
    forall x: Nibble, y: Nibble ensures OtherLink(v, RecvPipe(v, s, d), s, d, x, y) {}
    LinkTaken(v, RecvPipe(v, s, d), s, d);
  }

  lemma {:induction false} ShardStorage(g: Setting, v: View, s: Nibble, d: Nibble)
    requires Shaped(v) && InvStorage(g, v) && v.pipes[s][d] != [] && v.pipes[s][d][0].StorageShard?
    requires var m := v.pipes[s][d][0];
             ShardKeeps(v.workers[d], HandleShard(v.workers[d], m.account, m.index, m.subroot).worker, m.account, m.index)
    ensures InvStorage(g, RecvPipe(v, s, d))
  {
    ShardMoves(v, s, d);
    var v' := RecvPipe(v, s, d);
    forall i: Nibble, a: Key ensures SameDelivered(g, v, v', i, a) {
      if i == d && Bucket(a) == s { DeliverHead(EntryOf(v.workers[d].shelf, a), v.pipes[s][d], a); }
    }
    StorageFrame(g, v, v');
  }

  lemma {:induction false} ShardOwner(g: Setting, v: View, s: Nibble, d: Nibble)
    requires Shaped(v) && InvOwner(g, v) && InvPhase(v) && v.pipes[s][d] != [] && v.pipes[s][d][0].StorageShard?
    requires var m := v.pipes[s][d][0];
             && OwnerOk(g, d, HandleShard(v.workers[d], m.account, m.index, m.subroot).worker, Handled(g, v, d))
             && PhaseOk(HandleShard(v.workers[d], m.account, m.index, m.subroot).worker, v.coord[d])
    ensures var v' := RecvPipe(v, s, d); InvOwner(g, v') && InvPhase(v')
  {
    ShardMoves(v, s, d);
    var v' := RecvPipe(v, s, d);
    forall o: Nibble
      ensures PhaseOk(v'.workers[o], v'.coord[o]) && OwnerOk(g, o, v'.workers[o], Handled(g, v', o))
    {
      assert PhaseOk(v.workers[o], v.coord[o]) && OwnerOk(g, o, v.workers[o], Handled(g, v, o));
    }
  }

  /** What is known of the shard at the head of a channel. */
  lemma {:induction false} ShardHead(g: Setting, v: View, s: Nibble, d: Nibble)
    requires Inv(g, v) && v.pipes[s][d] != [] && v.pipes[s][d][0].StorageShard?
    ensures var m, us := v.pipes[s][d][0], Handled(g, v, d);
            && m.index == s && Bucket(m.account) == d && Ordered(v.pipes[s][d])
            && s !in Got(v.workers[d], m.account) && s in Mask(us, m.account) && GoodShard(g, s, m.account, m.subroot, us)
            && OwnerOk(g, d, v.workers[d], us) && PhaseOk(v.workers[d], v.coord[d])
  {
    var m := v.pipes[s][d][0];
    assert LinkOk(s, d, v.pipes[s][d], Routed(v.coord[s]), v.workers[s].routingComplete, v.workers[d].routed);
    assert m in v.pipes[s][d];
    assert TransitOk(g, s, m.account, v.workers[s], v.pipes[s][d], Got(v.workers[d], m.account), Handled(g, v, d));
  }

  lemma {:induction false} ShardPrep(g: Setting, v: View, s: Nibble, d: Nibble)
    requires Inv(g, v) && v.pipes[s][d] != [] && v.pipes[s][d][0].StorageShard? && v.workers[d].status.Running?
    ensures var m := v.pipes[s][d][0];
            var w' := HandleShard(v.workers[d], m.account, m.index, m.subroot).worker;
            && m.index == s && Bucket(m.account) == d && Ordered(v.pipes[s][d])
            && OwnerOk(g, d, w', Handled(g, v, d)) && PhaseOk(w', v.coord[d]) && ShardKeeps(v.workers[d], w', m.account, s)
  {
    var m := v.pipes[s][d][0];
    ShardHead(g, v, s, d);
    OwnerShard(g, d, v.workers[d], v.coord[d], Handled(g, v, d), m.account, s, m.subroot);
  }

  lemma {:induction false} StepShard(g: Setting, v: View, s: Nibble, d: Nibble)
    requires Inv(g, v) && v.pipes[s][d] != [] && v.pipes[s][d][0].StorageShard? && v.workers[d].status.Running?
    ensures Inv(g, RecvPipe(v, s, d))
  {
    ShardPrep(g, v, s, d);
    ShardMoves(v, s, d);
    ShardOwner(g, v, s, d);
    ShardLink(v, s, d);
    ShardStorage(g, v, s, d);
    ShardTransit(g, v, s, d);
  }

  // ---------------------------------------------------------------- collecting one storage trie

  lemma {:induction false} CollectMoves(v: View, i: Nibble, a: Key)
    requires Shaped(v) && a in v.workers[i].toCollect && v.workers[i].open
    ensures CanonicalRoot(v.workers[i].toCollect[a], KEY_LEN) && CanonicalChoices(Branchify(v.workers[i].toCollect[a]), KEY_LEN - 1)
    ensures var v', w := CollectOne(v, i, a), v.workers[i];
            var m := StorageShard(a, i, Branchify(w.toCollect[a]));
            && v'.coord == v.coord
            && v'.workers[i] == w.(toCollect := w.toCollect - {a})
            && (forall x: Nibble | x != i :: v'.workers[x] == v.workers[x])
            && (forall x: Nibble, y: Nibble :: v'.pipes[x][y] == if x == i && y == Bucket(a) then v.pipes[x][y] + [m] else v.pipes[x][y])
  {
    BranchifyCorrect(v.workers[i].toCollect[a], KEY_LEN);
    var m := StorageShard(a, i, Branchify(v.workers[i].toCollect[a]));
    forall d: Nibble ensures To([Send(Bucket(a), m)], d) == if d == Bucket(a) then [m] else [] {
      assert [Send(Bucket(a), m)][..0] == [];
    }
    forall x: Nibble, y: Nibble ensures v.pipes[x][y] + [] == v.pipes[x][y] {}
  }

  lemma {:induction false} LinkShard(s: Nibble, d: Nibble, pipe: seq<Msg>, seenD: set<Nibble>, m: Msg)
    requires LinkOk(s, d, pipe, true, true, seenD) && m.StorageShard? && MsgOk(m, s, d) && !ShardIn(pipe, m.account)
    ensures LinkOk(s, d, pipe + [m], true, true, seenD)
  {
    forall x | 0 <= x < |pipe| ensures Rank(pipe[x]) <= 2 && !(pipe[x].StorageShard? && pipe[x].account == m.account) {
      assert pipe[x] in pipe;
    }
  }

  lemma {:induction false} CollectLink(v: View, i: Nibble, a: Key)
    requires Shaped(v) && InvLink(v) && InvPhase(v) && a in v.workers[i].toCollect && v.workers[i].open
    requires v.workers[i].routingComplete && !ShardIn(v.pipes[i][Bucket(a)], a)
    ensures InvLink(CollectOne(v, i, a))
  {
    CollectMoves(v, i, a);
    var v' := CollectOne(v, i, a);
    CompleteRouted(v, i);
    forall x: Nibble, y: Nibble
      ensures LinkOk(x, y, v'.pipes[x][y], Routed(v'.coord[x]), v'.workers[x].routingComplete, v'.workers[y].routed)
    {
      assert LinkOk(x, y, v.pipes[x][y], Routed(v.coord[x]), v.workers[x].routingComplete, v.workers[y].routed);
      if x == i && y == Bucket(a) {
        LinkShard(i, y, v.pipes[i][y], v.workers[y].routed, StorageShard(a, i, Branchify(v.workers[i].toCollect[a])));
      }
    }
  }

  /** A worker that has heard from everyone has heard from itself. */
  lemma {:induction false} CompleteRouted(v: View, i: Nibble)
    requires Shaped(v) && InvLink(v) && InvPhase(v) && v.workers[i].routingComplete
    ensures Routed(v.coord[i])
  {
    AllHasEvery(i);
    assert PhaseOk(v.workers[i], v.coord[i]);
    assert LinkOk(i, i, v.pipes[i][i], Routed(v.coord[i]), v.workers[i].routingComplete, v.workers[i].routed);
  }

  lemma {:induction false} CollectTransitAt(g: Setting, i: Nibble, a: Key, w: Worker, pipe: seq<Msg>, got: set<Nibble>, us: seq<Update>, b: Key)
    requires TransitOk(g, i, b, w, pipe, got, us) && a in w.toCollect && w.routingComplete
    requires CanonicalChoices(Branchify(w.toCollect[a]), KEY_LEN - 1)
    requires a == b ==> GoodShard(g, i, a, Branchify(w.toCollect[a]), us)
    ensures TransitOk(g, i, b, w.(toCollect := w.toCollect - {a}), pipe + [StorageShard(a, i, Branchify(w.toCollect[a]))], got, us)
    ensures a != b ==> TransitOk(g, i, b, w.(toCollect := w.toCollect - {a}), pipe, got, us)
  {
    var m := StorageShard(a, i, Branchify(w.toCollect[a]));
    assert forall x :: x in pipe + [m] <==> x in pipe || x == m;
    assert ShardIn(pipe + [m], b) <==> ShardIn(pipe, b) || a == b by {
      if a == b { assert m in pipe + [m]; }
      if ShardIn(pipe, b) { var x :| x in pipe && x.StorageShard? && x.account == b; assert x in pipe + [m]; }
    }
  }

  lemma {:induction false} CollectTransit(g: Setting, v: View, i: Nibble, a: Key)
    requires Shaped(v) && InvTransit(g, v) && a in v.workers[i].toCollect && v.workers[i].open && v.workers[i].routingComplete
    requires GoodTrie(g, i, a, v.workers[i].toCollect[a], Handled(g, v, Bucket(a)))
    ensures InvTransit(g, CollectOne(v, i, a))
  {
    CollectMoves(v, i, a);
    GoodTrieShard(g, i, a, v.workers[i].toCollect[a], Handled(g, v, Bucket(a)));
    var v' := CollectOne(v, i, a);
    forall x: Nibble, b: Key
      ensures TransitOk(g, x, b, v'.workers[x], v'.pipes[x][Bucket(b)], Got(v'.workers[Bucket(b)], b), Handled(g, v', Bucket(b)))
    {
      assert TransitOk(g, x, b, v.workers[x], v.pipes[x][Bucket(b)], Got(v.workers[Bucket(b)], b), Handled(g, v, Bucket(b)));
      assert Got(v'.workers[Bucket(b)], b) == Got(v.workers[Bucket(b)], b);
      if x == i { CollectTransitAt(g, i, a, v.workers[i], v.pipes[i][Bucket(b)], Got(v.workers[Bucket(b)], b), Handled(g, v, Bucket(b)), b); }
    }
  }

  lemma {:induction false} CollectDelivered(g: Setting, v: View, i: Nibble, a: Key, x: Nibble, b: Key)
    requires Shaped(v) && a in v.workers[i].toCollect && v.workers[i].open
    ensures SameDelivered(g, v, CollectOne(v, i, a), x, b)
  {
    CollectMoves(v, i, a);
    var m := StorageShard(a, i, Branchify(v.workers[i].toCollect[a]));
    if Bucket(b) == i && x == Bucket(a) { DeliverQuiet(EntryOf(v.workers[x].shelf, b), v.pipes[i][x], m, b); }
  }

  lemma {:induction false} CollectStorage(g: Setting, v: View, i: Nibble, a: Key)
    requires Shaped(v) && InvStorage(g, v) && a in v.workers[i].toCollect && v.workers[i].open
    ensures InvStorage(g, CollectOne(v, i, a))
  {
    forall x: Nibble, b: Key { CollectDelivered(g, v, i, a, x, b); }
    StorageFrame(g, v, CollectOne(v, i, a));
  }

  lemma {:induction false} CollectOwner(g: Setting, v: View, i: Nibble, a: Key)
    requires Shaped(v) && InvOwner(g, v) && InvPhase(v) && a in v.workers[i].toCollect && v.workers[i].open
    ensures var v' := CollectOne(v, i, a); InvOwner(g, v') && InvPhase(v')
  {
    CollectMoves(v, i, a);
    var v' := CollectOne(v, i, a);
    forall o: Nibble
      ensures PhaseOk(v'.workers[o], v'.coord[o]) && OwnerOk(g, o, v'.workers[o], Handled(g, v', o))
    {
      assert PhaseOk(v.workers[o], v.coord[o]) && OwnerOk(g, o, v.workers[o], Handled(g, v, o));
      if o == i { OwnerFrame(g, i, v.workers[i], v'.workers[i], Handled(g, v, i)); }
    }
  }

  lemma {:induction false} StepCollect(g: Setting, v: View, i: Nibble, a: Key)
    requires Inv(g, v) && a in v.workers[i].toCollect
    ensures Inv(g, CollectOne(v, i, a))
  {
    assert PhaseOk(v.workers[i], v.coord[i]);
    assert TransitOk(g, i, a, v.workers[i], v.pipes[i][Bucket(a)], Got(v.workers[Bucket(a)], a), Handled(g, v, Bucket(a)));
    CollectMoves(v, i, a);
    CollectLink(v, i, a);
    CollectOwner(g, v, i, a);
    CollectStorage(g, v, i, a);
    CollectTransit(g, v, i, a);
  }
}
