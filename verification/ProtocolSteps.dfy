/** Every move of every worker keeps the invariant. */
module ProtocolSteps {
  import opened Options
  import opened Trie
  import opened Sharding
  import opened Accounts
  import opened ShardWorker
  import opened Routing
  import opened Protocol

  // ---------------------------------------------------------------- moves

  /** Worker s changes to w and its messages enter its outgoing channels. */
  function Emit(v: View, s: Nibble, w: Worker, sends: seq<Send>): (v': View)
    requires Shaped(v)
    ensures Shaped(v') && v'.coord == v.coord
    ensures forall x: Nibble :: v'.workers[x] == if x == s then w else v.workers[x]
    ensures forall x: Nibble, d: Nibble :: v'.pipes[x][d] == if x == s then v.pipes[x][d] + To(sends, d) else v.pipes[x][d]
    ensures sends == [] ==> v'.pipes == v.pipes
  {
    var out := seq(16, d requires 0 <= d < 16 => v.pipes[s][d] + To(sends, d));
    assert sends == [] ==> forall d | 0 <= d < 16 :: out[d] == v.pipes[s][d];
    assert sends == [] ==> out == v.pipes[s];
    v.(workers := v.workers[s := w],
       pipes := v.pipes[s := out])
  }

  function TakeCoord(v: View, d: Nibble): (v': View)
    requires Shaped(v) && v.coord[d] != []
    ensures Shaped(v') && v'.workers == v.workers && v'.pipes == v.pipes
    ensures forall x: Nibble :: v'.coord[x] == if x == d then v.coord[x][1..] else v.coord[x]
  {
    v.(coord := v.coord[d := v.coord[d][1..]])
  }

  function TakePipe(v: View, s: Nibble, d: Nibble): (v': View)
    requires Shaped(v) && v.pipes[s][d] != []
    ensures Shaped(v') && v'.workers == v.workers && v'.coord == v.coord
    ensures forall x: Nibble, y: Nibble :: v'.pipes[x][y] == if x == s && y == d then v.pipes[x][y][1..] else v.pipes[x][y]
  {
    v.(pipes := v.pipes[s := v.pipes[s][d := v.pipes[s][d][1..]]])
  }

  function RecvCoord(v: View, d: Nibble): View
    requires Shaped(v) && v.coord[d] != []
  {
    var e := Handle(v.workers[d], d, v.coord[d][0]);
    Emit(TakeCoord(v, d), d, e.worker, e.sends)
  }

  function RecvPipe(v: View, s: Nibble, d: Nibble): View
    requires Shaped(v) && v.pipes[s][d] != []
  {
    var e := Handle(v.workers[d], d, v.pipes[s][d][0]);
    Emit(TakePipe(v, s, d), d, e.worker, e.sends)
  }

  function CollectOne(v: View, i: Nibble, a: Key): View
    requires Shaped(v) && a in v.workers[i].toCollect
  {
    var e := Collect(v.workers[i], i, a);
    Emit(v, i, e.worker, e.sends)
  }

  function EndOne(v: View, i: Nibble): View
    requires Shaped(v)
  {
    Emit(v, i, EndCollect(v.workers[i]), [])
  }

  // ---------------------------------------------------------------- ProcessAccount

  /** As long as one owner is still routing, no worker has started to collect. */
  lemma {:induction false} StillRouting(g: Setting, v: View, o: Nibble)
    requires Inv(g, v) && !Routed(v.coord[o])
    ensures forall i: Nibble :: !v.workers[i].routingComplete
    ensures forall i: Nibble, a: Key :: i !in Got(v.workers[Bucket(a)], a)
  {
    forall i: Nibble
      ensures !v.workers[i].routingComplete
    {
      AllHasEvery(o);
      assert LinkOk(o, i, v.pipes[o][i], Routed(v.coord[o]), v.workers[o].routingComplete, v.workers[i].routed);
      assert PhaseOk(v.workers[i], v.coord[i]);
    }
    forall i: Nibble, a: Key
      ensures i !in Got(v.workers[Bucket(a)], a)
    {
      assert TransitOk(g, i, a, v.workers[i], v.pipes[i][Bucket(a)], Got(v.workers[Bucket(a)], a), Handled(g, v, Bucket(a)));
    }
  }

  lemma {:induction false} NextUpdate(us: seq<Update>, q: seq<Msg>)
    requires CoordOk(us, q) && |q| > 2
    ensures q[0].ProcessAccount? && CoordOk(us, q[1..]) && Done(us, q[1..]) == Done(us, q) + [q[0].update]
    ensures q[0].update in us
  {
    var n := |us| + 2 - |q|;
    assert us[n..][1..] == us[n + 1..];
    assert us[..n + 1] == us[..n] + [us[n]];
  }

  lemma {:induction false} OwnerOfMine(us: seq<Update>, o: Nibble)
    ensures forall u | u in OfOwner(us, o) :: Bucket(u.account) == o
  {
    if us != [] { OwnerOfMine(us[..|us| - 1], o); }
  }

  lemma {:induction false} UpdatePrep(g: Setting, v: View, o: Nibble)
    requires Inv(g, v) && |v.coord[o]| > 2
    ensures v.coord[o][0].ProcessAccount? && v.workers[o].open
    ensures Bucket(v.coord[o][0].update.account) == o
    ensures forall a: Key | Bucket(a) == o :: Got(v.workers[o], a) == {}
    ensures Done(Mine(g, o), v.coord[o][1..]) == Handled(g, v, o) + [v.coord[o][0].update]
    ensures CoordOk(Mine(g, o), v.coord[o][1..])
  {
    assert CoordOk(Mine(g, o), v.coord[o]);
    NextUpdate(Mine(g, o), v.coord[o]);
    OwnerOfMine(g.stream, o);
    StillRouting(g, v, o);
    assert PhaseOk(v.workers[o], v.coord[o]);
    forall a: Key | Bucket(a) == o
      ensures Got(v.workers[o], a) == {}
    {
      forall i: Nibble ensures i !in Got(v.workers[o], a) {}
    }
  }

  lemma {:induction false} NoSelfTraffic(o: Nibble, pipe: seq<Msg>, e: Entry, a: Key)
    requires forall m | m in pipe :: MsgOk(m, o, o)
    ensures Deliver(e, pipe, a) == e
  {
    DeliverOther(e, pipe, a);
  }

  /** The entry of any account in any shard once an update's traffic is on its way. */
  lemma {:induction false} UpdateDelivers(g: Setting, v: View, o: Nibble, i: Nibble, a: Key)
    requires Inv(g, v) && |v.coord[o]| > 2
    requires v.coord[o][0].ProcessAccount? && v.workers[o].open && Bucket(v.coord[o][0].update.account) == o
    ensures var u, w, v' := v.coord[o][0].update, v.workers[o], RecvCoord(v, o);
            var e := Deliver(EntryOf(v.workers[i].shelf, a), v.pipes[Bucket(a)][i], a);
            Deliver(EntryOf(v'.workers[i].shelf, a), v'.pipes[Bucket(a)][i], a) ==
            if a == u.account then Deliver(e, Traffic(u, i, NewRouted(Reloaded(w, a), u)), a) else e
  {
    assert LinkOk(o, i, v.pipes[o][i], Routed(v.coord[o]), v.workers[o].routingComplete, v.workers[i].routed);
    UpdateSends(v.workers[o], o, v.coord[o][0].update, i);
    if i == o { DeliversLocally(v, o, a); } else { DeliversRemotely(v, o, i, a); }
  }

  lemma {:induction false} DeliversLocally(v: View, o: Nibble, a: Key)
    requires Shaped(v) && v.coord[o] != [] && v.coord[o][0].ProcessAccount? && v.workers[o].open
    requires Bucket(v.coord[o][0].update.account) == o && forall m | m in v.pipes[o][o] :: MsgOk(m, o, o)
    requires To(HandleUpdate(v.workers[o], o, v.coord[o][0].update).sends, o) == []
    ensures var u, w, v' := v.coord[o][0].update, v.workers[o], RecvCoord(v, o);
            var e := Deliver(EntryOf(w.shelf, a), v.pipes[Bucket(a)][o], a);
            Deliver(EntryOf(v'.workers[o].shelf, a), v'.pipes[Bucket(a)][o], a) ==
            if a == u.account then Deliver(e, Traffic(u, o, NewRouted(Reloaded(w, a), u)), a) else e
  {
    var u, w := v.coord[o][0].update, v.workers[o];
    UpdateEntry(w, o, u, a);
    if Bucket(a) == o {
      NoSelfTraffic(o, v.pipes[o][o], EntryOf(w.shelf, a), a);
      NoSelfTraffic(o, v.pipes[o][o], EntryOf(HandleUpdate(w, o, u).worker.shelf, a), a);
      assert v.pipes[o][o] + [] == v.pipes[o][o];
    }
  }

  lemma {:induction false} DeliversRemotely(v: View, o: Nibble, i: Nibble, a: Key)
    requires Shaped(v) && v.coord[o] != [] && v.coord[o][0].ProcessAccount? && i != o
    requires Bucket(v.coord[o][0].update.account) == o
    requires var u, w := v.coord[o][0].update, v.workers[o];
             To(HandleUpdate(w, o, u).sends, i) == Traffic(u, i, NewRouted(Reloaded(w, u.account), u))
    ensures var u, w, v' := v.coord[o][0].update, v.workers[o], RecvCoord(v, o);
            var e := Deliver(EntryOf(v.workers[i].shelf, a), v.pipes[Bucket(a)][i], a);
            Deliver(EntryOf(v'.workers[i].shelf, a), v'.pipes[Bucket(a)][i], a) ==
            if a == u.account then Deliver(e, Traffic(u, i, NewRouted(Reloaded(w, a), u)), a) else e
  {
    var u, w := v.coord[o][0].update, v.workers[o];
    if Bucket(a) == o {
      var t := Traffic(u, i, NewRouted(Reloaded(w, u.account), u));
      DeliverConcat(EntryOf(v.workers[i].shelf, a), v.pipes[o][i], t, a);
      if a != u.account {
        TrafficTouches(u, i, NewRouted(Reloaded(w, u.account), u));
        DeliverOther(Deliver(EntryOf(v.workers[i].shelf, a), v.pipes[o][i], a), t, a);
      }
    }
  }

  lemma {:induction false} UpdateStorage(g: Setting, v: View, o: Nibble)
    requires Inv(g, v) && |v.coord[o]| > 2
    ensures InvStorage(g, RecvCoord(v, o))
  {
    UpdatePrep(g, v, o);
    var u, w, v' := v.coord[o][0].update, v.workers[o], RecvCoord(v, o);
    StillRouting(g, v, o);
    forall i: Nibble, a: Key | !v'.workers[i].routingComplete
      ensures StorageOk(g, i, a, Deliver(EntryOf(v'.workers[i].shelf, a), v'.pipes[Bucket(a)][i], a), Handled(g, v', Bucket(a)))
    {
      var us := Handled(g, v, Bucket(a));
      var e := Deliver(EntryOf(v.workers[i].shelf, a), v.pipes[Bucket(a)][i], a);
      assert StorageOk(g, i, a, e, us);
      UpdateDelivers(g, v, o, i, a);
      if a == u.account {
        assert OwnerOk(g, o, w, us) && RecordOk(g, w, us, a);
        Reload(g, w, us, a);
        StorageStep(g, i, a, e, us, u, NewRouted(Reloaded(w, a), u));
      } else if Bucket(a) == o {
        OtherAccount(g, us, u, a);
      }
    }
  }

  lemma {:induction false} LinkTraffic(s: Nibble, d: Nibble, pipe: seq<Msg>, more: seq<Msg>, completeS: bool, seenD: set<Nibble>)
    requires LinkOk(s, d, pipe, false, completeS, seenD)
    requires forall m | m in more :: Rank(m) == 0 && MsgOk(m, s, d)
    ensures LinkOk(s, d, pipe + more, false, completeS, seenD)
  {
    forall x | 0 <= x < |pipe + more| ensures Rank((pipe + more)[x]) == 0 { assert (pipe + more)[x] in pipe + more; }
  }

  lemma {:induction false} UpdateLink(g: Setting, v: View, o: Nibble)
    requires Inv(g, v) && |v.coord[o]| > 2
    ensures InvLink(RecvCoord(v, o))
  {
    UpdatePrep(g, v, o);
    var u, w, v' := v.coord[o][0].update, v.workers[o], RecvCoord(v, o);
    var root := NewRouted(Reloaded(w, u.account), u);
    forall s: Nibble, d: Nibble
      ensures LinkOk(s, d, v'.pipes[s][d], Routed(v'.coord[s]), v'.workers[s].routingComplete, v'.workers[d].routed)
    {
      assert LinkOk(s, d, v.pipes[s][d], Routed(v.coord[s]), v.workers[s].routingComplete, v.workers[d].routed);
      if s == o {
        UpdateSends(w, o, u, d);
        if d == o {
          assert v.pipes[o][d] + [] == v.pipes[o][d];
        } else {
          TrafficOk(u, d, root);
          LinkTraffic(o, d, v.pipes[o][d], Traffic(u, d, root), w.routingComplete, v.workers[d].routed);
        }
      }
    }
  }

  lemma {:induction false} TrafficOk(u: Update, d: Nibble, root: StorageTrie)
    requires d != Bucket(u.account)
    ensures forall m | m in Traffic(u, d, root) :: Rank(m) == 0 && MsgOk(m, Bucket(u.account), d)
  {
    var mine := OfNibble(NewSlots(u), d);
    DirectWrites(None, u.account, mine, root);
    OfNibbleBuckets(NewSlots(u), d);
  }

  lemma {:induction false} OfNibbleBuckets(slots: seq<Slot>, d: Nibble)
    ensures forall s | s in OfNibble(slots, d) :: Bucket(s.key) == d
  {
    if slots != [] { OfNibbleBuckets(slots[..|slots| - 1], d); }
  }

  lemma {:induction false} UpdateRest(g: Setting, v: View, o: Nibble)
    requires Inv(g, v) && |v.coord[o]| > 2
    ensures var v' := RecvCoord(v, o); InvCoord(g, v') && InvPhase(v') && InvOwner(g, v')
  {
    UpdatePrep(g, v, o);
    var v' := RecvCoord(v, o);
    StillRouting(g, v, o);
    forall d: Nibble
      ensures CoordOk(Mine(g, d), v'.coord[d]) && PhaseOk(v'.workers[d], v'.coord[d])
      ensures OwnerOk(g, d, v'.workers[d], Handled(g, v', d))
    {
      assert CoordOk(Mine(g, d), v.coord[d]) && PhaseOk(v.workers[d], v.coord[d]);
      assert OwnerOk(g, d, v.workers[d], Handled(g, v, d));
      if d == o {
        OwnerStep(g, o, v.workers[o], Handled(g, v, o), v.coord[o][0].update, v'.workers[o].shelf);
      }
    }
  }

  /** Before collection starts, shards do not exist, whatever has been handled. */
  lemma TransitEarly(g: Setting, i: Nibble, a: Key, w: Worker, w': Worker, pipe: seq<Msg>, pipe': seq<Msg>,
                     got: set<Nibble>, us: seq<Update>, us': seq<Update>)
    requires TransitOk(g, i, a, w, pipe, got, us) && !w.routingComplete
    requires !w'.routingComplete && w'.toCollect == w.toCollect
    requires forall m | m in pipe' :: Rank(m) != 2
    ensures TransitOk(g, i, a, w', pipe', got, us')
  {}

  lemma UpdateKeeps(w: Worker, o: Nibble, u: Update)
    ensures var w' := HandleUpdate(w, o, u).worker;
            w'.routingComplete == w.routingComplete && w'.toCollect == w.toCollect && w'.received == w.received && w'.routed == w.routed
  {}

  /** Nothing the shards depend on changes while all workers are still routing. */
  ghost predicate SameTransit(w: Worker, w': Worker) {
    !w.routingComplete && !w'.routingComplete && w'.toCollect == w.toCollect && w'.received == w.received
  }

  lemma {:induction false} TransitFrame(g: Setting, v: View, v': View)
    requires Shaped(v) && Shaped(v') && InvTransit(g, v) && InvLink(v')
    requires forall i: Nibble :: SameTransit(v.workers[i], v'.workers[i])
    ensures InvTransit(g, v')
  {
    forall i: Nibble, a: Key
      ensures TransitOk(g, i, a, v'.workers[i], v'.pipes[i][Bucket(a)], Got(v'.workers[Bucket(a)], a), Handled(g, v', Bucket(a)))
    {
      var d := Bucket(a);
      assert SameTransit(v.workers[i], v'.workers[i]) && SameTransit(v.workers[d], v'.workers[d]);
      assert TransitOk(g, i, a, v.workers[i], v.pipes[i][d], Got(v.workers[d], a), Handled(g, v, d));
      assert LinkOk(i, d, v'.pipes[i][d], Routed(v'.coord[i]), v'.workers[i].routingComplete, v'.workers[d].routed);
      TransitEarly(g, i, a, v.workers[i], v'.workers[i], v.pipes[i][d], v'.pipes[i][d], Got(v.workers[d], a),
                   Handled(g, v, d), Handled(g, v', d));
    }
  }

  lemma {:induction false} UpdateQuiet(g: Setting, v: View, o: Nibble)
    requires Inv(g, v) && |v.coord[o]| > 2
    ensures forall i: Nibble :: SameTransit(v.workers[i], RecvCoord(v, o).workers[i])
  {
    UpdatePrep(g, v, o);
    StillRouting(g, v, o);
    UpdateKeeps(v.workers[o], o, v.coord[o][0].update);
    forall i: Nibble
      ensures SameTransit(v.workers[i], RecvCoord(v, o).workers[i])
    {
      assert RecvCoord(v, o).workers[i] == if i == o then HandleUpdate(v.workers[o], o, v.coord[o][0].update).worker else v.workers[i];
    }
  }

  lemma {:induction false} StepUpdate(g: Setting, v: View, o: Nibble)
    requires Inv(g, v) && |v.coord[o]| > 2
    ensures Inv(g, RecvCoord(v, o))
  {
    UpdateRest(g, v, o);
    UpdateLink(g, v, o);
    UpdateStorage(g, v, o);
    UpdateQuiet(g, v, o);
    TransitFrame(g, v, RecvCoord(v, o));
  }

  // ---------------------------------------------------------------- FinishRouting

  lemma {:induction false} LinkFinish(s: Nibble, d: Nibble, pipe: seq<Msg>, completeS: bool, seenD: set<Nibble>)
    requires LinkOk(s, d, pipe, false, completeS, seenD)
    ensures LinkOk(s, d, pipe + [RoutingDone(s)], true, completeS, seenD)
  {
    var pipe' := pipe + [RoutingDone(s)];
    assert RoutingDone(s) in pipe';
    forall x | 0 <= x < |pipe| ensures Rank(pipe[x]) == 0 { assert pipe[x] in pipe; }
  }

  lemma {:induction false} FinishMoves(v: View, o: Nibble)
    requires Shaped(v) && v.coord[o] == [FinishRouting, CollectState] && v.workers[o].open
    ensures var v' := RecvCoord(v, o);
            && v'.workers == v.workers && v'.coord[o] == [CollectState]
            && (forall d: Nibble :: v'.pipes[o][d] == v.pipes[o][d] + [RoutingDone(o)])
  {
    forall d: Nibble { ToBroadcast(0, RoutingDone(o), d); }
  }

  lemma {:induction false} FinishView(g: Setting, v: View, o: Nibble)
    requires Inv(g, v) && |v.coord[o]| == 2
    ensures v.coord[o] == [FinishRouting, CollectState] && v.workers[o].open
    ensures !Routed(v.coord[o])
  {
    assert CoordOk(Mine(g, o), v.coord[o]);
    assert PhaseOk(v.workers[o], v.coord[o]);
    StillRouting(g, v, o);
  }

  lemma {:induction false} FinishLink(g: Setting, v: View, o: Nibble)
    requires Inv(g, v) && |v.coord[o]| == 2
    ensures InvLink(RecvCoord(v, o))
  {
    FinishView(g, v, o);
    FinishMoves(v, o);
    var v' := RecvCoord(v, o);
    forall s: Nibble, d: Nibble
      ensures LinkOk(s, d, v'.pipes[s][d], Routed(v'.coord[s]), v'.workers[s].routingComplete, v'.workers[d].routed)
    {
      assert LinkOk(s, d, v.pipes[s][d], Routed(v.coord[s]), v.workers[s].routingComplete, v.workers[d].routed);
      if s == o { LinkFinish(o, d, v.pipes[o][d], v.workers[o].routingComplete, v.workers[d].routed); }
    }
  }

  /** What shard i holds or is about to hold for account a is the same in both views. */
  ghost predicate SameDelivered(g: Setting, v: View, v': View, i: Nibble, a: Key) requires Shaped(v) && Shaped(v') {
    && v'.workers[i].routingComplete == v.workers[i].routingComplete
    && Handled(g, v', Bucket(a)) == Handled(g, v, Bucket(a))
    && Deliver(EntryOf(v'.workers[i].shelf, a), v'.pipes[Bucket(a)][i], a) ==
       Deliver(EntryOf(v.workers[i].shelf, a), v.pipes[Bucket(a)][i], a)
  }

  lemma {:induction false} StorageFrame(g: Setting, v: View, v': View)
    requires Shaped(v) && Shaped(v') && InvStorage(g, v)
    requires forall i: Nibble, a: Key :: SameDelivered(g, v, v', i, a)
    ensures InvStorage(g, v')
  {
    forall i: Nibble, a: Key | !v'.workers[i].routingComplete
      ensures StorageOk(g, i, a, Deliver(EntryOf(v'.workers[i].shelf, a), v'.pipes[Bucket(a)][i], a), Handled(g, v', Bucket(a)))
    {
      assert SameDelivered(g, v, v', i, a);
    }
  }

  lemma {:induction false} FinishStorage(g: Setting, v: View, o: Nibble)
    requires Shaped(v) && InvStorage(g, v) && v.coord[o] == [FinishRouting, CollectState] && v.workers[o].open
    ensures InvStorage(g, RecvCoord(v, o))
  {
    FinishMoves(v, o);
    var v' := RecvCoord(v, o);
    forall i: Nibble, a: Key ensures SameDelivered(g, v, v', i, a) {
      if Bucket(a) == o { DeliverQuiet(EntryOf(v.workers[i].shelf, a), v.pipes[o][i], RoutingDone(o), a); }
    }
    StorageFrame(g, v, v');
  }

  lemma DeliverQuiet(e: Entry, pipe: seq<Msg>, m: Msg, a: Key)
    requires !About(m, a)
    ensures Deliver(e, pipe + [m], a) == Deliver(e, pipe, a)
  {
    assert (pipe + [m])[..|pipe|] == pipe;
  }

  lemma {:induction false} FinishOwner(g: Setting, v: View, o: Nibble)
    requires Shaped(v) && v.coord[o] == [FinishRouting, CollectState] && v.workers[o].open
    requires InvCoord(g, v) && InvPhase(v) && InvOwner(g, v)
    ensures var v' := RecvCoord(v, o); InvCoord(g, v') && InvPhase(v') && InvOwner(g, v')
  {
    FinishMoves(v, o);
    var v' := RecvCoord(v, o);
    forall d: Nibble
      ensures CoordOk(Mine(g, d), v'.coord[d]) && PhaseOk(v'.workers[d], v'.coord[d])
      ensures OwnerOk(g, d, v'.workers[d], Handled(g, v', d))
    {
      assert CoordOk(Mine(g, d), v.coord[d]) && PhaseOk(v.workers[d], v.coord[d]);
      assert OwnerOk(g, d, v.workers[d], Handled(g, v, d));
    }
  }

  lemma {:induction false} StepFinish(g: Setting, v: View, o: Nibble)
    requires Inv(g, v) && |v.coord[o]| == 2
    ensures Inv(g, RecvCoord(v, o))
  {
    FinishView(g, v, o);
    FinishMoves(v, o);
    FinishLink(g, v, o);
    FinishStorage(g, v, o);
    FinishOwner(g, v, o);
    StillRouting(g, v, o);
    TransitFrame(g, v, RecvCoord(v, o));
  }

  // ---------------------------------------------------------------- CollectState and the end of collection

  /** The same worker up to its progress flags. */
  ghost predicate SameWork(w: Worker, w': Worker) {
    w' == w.(deferred := w'.deferred, open := w'.open, collecting := w'.collecting, status := w'.status)
  }

  lemma {:induction false} OwnerFrame(g: Setting, o: Nibble, w: Worker, w': Worker, us: seq<Update>)
    requires OwnerOk(g, o, w, us)
    requires w'.expected == w.expected && w'.received == w.received && w'.shards == w.shards
    requires w'.accounts == w.accounts && w'.state == w.state && w'.pending == w.pending
    ensures OwnerOk(g, o, w', us)
  {
    forall a: Key | Bucket(a) == o
      ensures RecordOk(g, w', us, a) && ShardsOk(g, w', us, a)
    {
      assert RecordOk(g, w, us, a) && ShardsOk(g, w, us, a);
      AgreeKeeps(g, w, w', us, a);
    }
  }

  /** A step that changes progress flags and consumes at most the last coordinator message. */
  ghost predicate FlagStep(g: Setting, v: View, v': View, o: Nibble) {
    && Shaped(v) && Shaped(v') && v'.pipes == v.pipes
    && (forall x: Nibble :: if x == o then SameWork(v.workers[o], v'.workers[o]) else v'.workers[x] == v.workers[x])
    && (forall x: Nibble | x != o :: v'.coord[x] == v.coord[x])
    && CoordOk(Mine(g, o), v'.coord[o])
    && Handled(g, v', o) == Handled(g, v, o) && Routed(v'.coord[o]) == Routed(v.coord[o])
    && PhaseOk(v'.workers[o], v'.coord[o])
  }

  lemma {:induction false} FlagOwner(g: Setting, v: View, v': View, o: Nibble)
    requires FlagStep(g, v, v', o) && InvOwner(g, v) && InvPhase(v) && InvCoord(g, v)
    ensures InvOwner(g, v') && InvPhase(v') && InvCoord(g, v')
  {
    forall d: Nibble
      ensures CoordOk(Mine(g, d), v'.coord[d]) && PhaseOk(v'.workers[d], v'.coord[d])
      ensures OwnerOk(g, d, v'.workers[d], Handled(g, v', d))
    {
      assert CoordOk(Mine(g, d), v.coord[d]) && PhaseOk(v.workers[d], v.coord[d]);
      assert OwnerOk(g, d, v.workers[d], Handled(g, v, d));
      if d == o { OwnerFrame(g, d, v.workers[d], v'.workers[d], Handled(g, v, d)); }
    }
  }

  lemma {:induction false} FlagChannels(g: Setting, v: View, v': View, o: Nibble)
    requires FlagStep(g, v, v', o) && InvLink(v) && InvStorage(g, v)
    ensures InvLink(v') && InvStorage(g, v')
  {
    forall s: Nibble, d: Nibble
      ensures LinkOk(s, d, v'.pipes[s][d], Routed(v'.coord[s]), v'.workers[s].routingComplete, v'.workers[d].routed)
    {
      assert LinkOk(s, d, v.pipes[s][d], Routed(v.coord[s]), v.workers[s].routingComplete, v.workers[d].routed);
    }
    forall i: Nibble, a: Key ensures SameDelivered(g, v, v', i, a) {}
    StorageFrame(g, v, v');
  }

  lemma {:induction false} FlagTransit(g: Setting, v: View, v': View, o: Nibble)
    requires FlagStep(g, v, v', o) && InvTransit(g, v)
    ensures InvTransit(g, v')
  {
    forall i: Nibble, a: Key
      ensures TransitOk(g, i, a, v'.workers[i], v'.pipes[i][Bucket(a)], Got(v'.workers[Bucket(a)], a), Handled(g, v', Bucket(a)))
    {
      assert TransitOk(g, i, a, v.workers[i], v.pipes[i][Bucket(a)], Got(v.workers[Bucket(a)], a), Handled(g, v, Bucket(a)));
      assert Got(v'.workers[Bucket(a)], a) == Got(v.workers[Bucket(a)], a);
    }
  }

  lemma {:induction false} CollectStateFlags(g: Setting, v: View, o: Nibble)
    requires Shaped(v) && v.coord[o] == [CollectState] && v.workers[o].status.Running? && PhaseOk(v.workers[o], v.coord[o])
    ensures FlagStep(g, v, RecvCoord(v, o), o)
  {}

  lemma {:induction false} StepCollectState(g: Setting, v: View, o: Nibble)
    requires Inv(g, v) && |v.coord[o]| == 1 && v.workers[o].status.Running?
    ensures Inv(g, RecvCoord(v, o))
  {
    assert CoordOk(Mine(g, o), v.coord[o]);
    assert PhaseOk(v.workers[o], v.coord[o]);
    CollectStateFlags(g, v, o);
    FlagOwner(g, v, RecvCoord(v, o), o);
    FlagChannels(g, v, RecvCoord(v, o), o);
    FlagTransit(g, v, RecvCoord(v, o), o);
  }

  lemma {:induction false} StepEnd(g: Setting, v: View, i: Nibble)
    requires Inv(g, v) && v.workers[i].collecting && v.workers[i].toCollect == map[] && v.workers[i].status.Running?
    ensures Inv(g, EndOne(v, i))
  {
    assert CoordOk(Mine(g, i), v.coord[i]);
    assert PhaseOk(v.workers[i], v.coord[i]);
    FlagOwner(g, v, EndOne(v, i), i);
    FlagChannels(g, v, EndOne(v, i), i);
    FlagTransit(g, v, EndOne(v, i), i);
  }
}
