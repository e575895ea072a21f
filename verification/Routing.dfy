/** What one update sends to each shard, and what a shard makes of it. */
module Routing {
  import opened Options
  import opened Trie
  import opened Sharding
  import opened Accounts
  import opened ShardWorker

  /** The messages addressed to one worker, in order. */
  function To(sends: seq<Send>, d: Nibble): seq<Msg> {
    if sends == [] then []
    else To(sends[..|sends| - 1], d) + if sends[|sends| - 1].to == d then [sends[|sends| - 1].msg] else []
  }

  lemma {:induction false} ToConcat(a: seq<Send>, b: seq<Send>, d: Nibble)
    ensures To(a + b, d) == To(a, d) + To(b, d)
  {
    if b == [] {
      assert a + b == a;
    } else {
      assert (a + b)[..|a + b| - 1] == a + b[..|b| - 1];
      ToConcat(a, b[..|b| - 1], d);
    }
  }

  lemma {:induction false} ToBroadcast(i: nat, m: Msg, d: Nibble)
    requires i <= 16
    ensures To(Broadcast(i, m), d) == if i <= d then [m] else []
    decreases 16 - i
  {
    if i < 16 {
      ToConcat([Send(i, m)], Broadcast(i + 1, m), d);
      ToBroadcast(i + 1, m, d);
      assert To([Send(i, m)], d) == if i == d then [m] else [];
    }
  }

  lemma {:induction false} ToBroadcastOthers(i: nat, me: Nibble, m: Msg, d: Nibble)
    requires i <= 16
    ensures To(BroadcastOthers(i, me, m), d) == if i <= d && d != me then [m] else []
    decreases 16 - i
  {
    if i < 16 {
      var first := if i == me then [] else [Send(i, m)];
      ToConcat(first, BroadcastOthers(i + 1, me, m), d);
      ToBroadcastOthers(i + 1, me, m, d);
      assert To(first, d) == if i == d && d != me then [m] else [];
    }
  }

  // ---------------------------------------------------------------- one account's entry under messages

  function Apply(e: Entry, m: Msg, a: Key): Entry {
    if m.MerklizeStorage? && m.account == a then PushEntry(e, m.slot, m.root)
    else if m.DeleteStorage? && m.account == a then WIPED
    else e
  }

  /** The entry once every message of the sequence has been handled. */
  function Deliver(e: Entry, msgs: seq<Msg>, a: Key): Entry {
    if msgs == [] then e else Apply(Deliver(e, msgs[..|msgs| - 1], a), msgs[|msgs| - 1], a)
  }

  lemma {:induction false} DeliverConcat(e: Entry, x: seq<Msg>, y: seq<Msg>, a: Key)
    ensures Deliver(e, x + y, a) == Deliver(Deliver(e, x, a), y, a)
  {
    if y == [] {
      assert x + y == x;
    } else {
      assert (x + y)[..|x + y| - 1] == x + y[..|y| - 1];
      DeliverConcat(e, x, y[..|y| - 1], a);
    }
  }

  lemma DeliverHead(e: Entry, msgs: seq<Msg>, a: Key)
    requires msgs != []
    ensures Deliver(e, msgs, a) == Deliver(Apply(e, msgs[0], a), msgs[1..], a)
  {
    DeliverConcat(e, [msgs[0]], msgs[1..], a);
    assert msgs == [msgs[0]] + msgs[1..] && [msgs[0]][..0] == [];
    assert Deliver(e, [msgs[0]], a) == Apply(Deliver(e, [], a), msgs[0], a);
  }

  predicate About(m: Msg, a: Key) {
    (m.MerklizeStorage? || m.DeleteStorage?) && m.account == a
  }

  lemma {:induction false} DeliverOther(e: Entry, msgs: seq<Msg>, a: Key)
    requires forall m | m in msgs :: !About(m, a)
    ensures Deliver(e, msgs, a) == e
  {
    if msgs != [] {
      assert msgs[|msgs| - 1] in msgs && forall m | m in msgs[..|msgs| - 1] :: m in msgs;
      DeliverOther(e, msgs[..|msgs| - 1], a);
    }
  }

  // ---------------------------------------------------------------- the traffic of one update

  function Writes(a: Key, slots: seq<Slot>, root: StorageTrie): seq<Msg> {
    if slots == [] then []
    else Writes(a, slots[..|slots| - 1], root) + [MerklizeStorage(a, slots[|slots| - 1], root)]
  }

  /** What shard d is told about an update: the wipe, then its own writes. */
  function Traffic(u: Update, d: Nibble, root: StorageTrie): seq<Msg> {
    WipeMsgs(u) +
    Writes(u.account, OfNibble(NewSlots(u), d), root)
  }

  lemma {:induction false} RouteTraffic(sh: Shelf, me: Nibble, a: Key, slots: seq<Slot>, root: StorageTrie, d: Nibble, b: Key)
    ensures var r := Route(sh, me, a, slots, root);
            && To(r.sends, d) == (if d == me then [] else Writes(a, OfNibble(slots, d), root))
            && EntryOf(r.shelf, b) == if b == a then Deliver(EntryOf(sh, a), Writes(a, OfNibble(slots, me), root), a) else EntryOf(sh, b)
  {
    if slots != [] {
      var front, s := slots[..|slots| - 1], slots[|slots| - 1];
      var r := Route(sh, me, a, front, root);
      RouteTraffic(sh, me, a, front, root, d, b);
      RouteTraffic(sh, me, a, front, root, d, a);
      var m := MerklizeStorage(a, s, root);
      var mine := OfNibble(front, Bucket(s.key));
      assert (mine + [s])[..|mine|] == mine;
      DeliverConcat(EntryOf(sh, a), Writes(a, OfNibble(front, me), root), [m], a);
      assert Deliver(EntryOf(r.shelf, a), [m], a) == Apply(Deliver(EntryOf(r.shelf, a), [m][..0], a), m, a);
      assert (r.sends + [Send(Bucket(s.key), m)])[..|r.sends|] == r.sends;
    }
  }

  lemma AllIsAll(s: set<Nibble>)
    ensures s + ALL == ALL && ALL + s == ALL
  {
    forall n: Nibble { AllHasEvery(n); }
  }

  function WipeMsgs(u: Update): seq<Msg> { if Wipes(u) then [DeleteStorage(u.account)] else [] }

  /** Each other shard is told its part of the update. */
  lemma {:induction false} UpdateSends(w: Worker, me: Nibble, u: Update, d: Nibble)
    requires w.open
    ensures To(HandleUpdate(w, me, u).sends, d) ==
            if d == me then [] else Traffic(u, d, NewRouted(Reloaded(w, u.account), u))
  {
    var a, root := u.account, NewRouted(Reloaded(w, u.account), u);
    var slots := NewSlots(u);
    var r := Route(AfterWipe(w.shelf, u), me, a, slots, root);
    RouteTraffic(AfterWipe(w.shelf, u), me, a, slots, root, d, a);
    ToBroadcastOthers(0, me, DeleteStorage(a), d);
    ToConcat(if Wipes(u) then BroadcastOthers(0, me, DeleteStorage(a)) else [], r.sends, d);
  }

  /** The owner applies its own part of the update to its own entry. */
  lemma {:induction false} UpdateEntry(w: Worker, me: Nibble, u: Update, b: Key)
    requires w.open
    ensures EntryOf(HandleUpdate(w, me, u).worker.shelf, b) ==
            if b == u.account then Deliver(EntryOf(w.shelf, b), Traffic(u, me, NewRouted(Reloaded(w, b), u)), b)
            else EntryOf(w.shelf, b)
  {
    var a, root := u.account, NewRouted(Reloaded(w, u.account), u);
    var slots := NewSlots(u);
    RouteTraffic(AfterWipe(w.shelf, u), me, a, slots, root, me, b);
    DeliverConcat(EntryOf(w.shelf, a), WipeMsgs(u), Writes(a, OfNibble(slots, me), root), a);
    assert Wipes(u) ==> [DeleteStorage(a)][..0] == [];
    assert Deliver(EntryOf(w.shelf, a), WipeMsgs(u), a) == EntryOf(AfterWipe(w.shelf, u), a);
  }

  // ---------------------------------------------------------------- buffering is transparent

  /** A buffer without a trie was opened at the parent root. */
  ghost predicate Opened(e: Entry, parentRoot: StorageTrie) {
    e.trie.None? && e.buf.Some? ==> e.buf.value.root == parentRoot
  }

  lemma {:induction false} WriteSnoc(t: StorageTrie, slots: seq<Slot>, slot: Slot)
    ensures WriteAll(t, slots + [slot]) == Write(WriteAll(t, slots), slot)
  {
    assert (slots + [slot])[..|slots|] == slots;
  }

  /** Pushing a slot flushes a full buffer or keeps it; either way the content grows by one write. */
  lemma {:induction false} PushBuffered(trie: Option<StorageTrie>, buf: Buffer, parentRoot: StorageTrie)
    requires trie.None? ==> buf.root == parentRoot
    ensures var flushed, kept := Entry(Some(Flushed(trie, buf)), None), Entry(trie, Some(buf));
            Content(flushed, parentRoot) == Content(kept, parentRoot)
  {
    FlushInOrder(if trie.Some? then trie.value else parentRoot, buf.slots);
  }

  lemma {:induction false} PushContent(e: Entry, slot: Slot, root: StorageTrie, parentRoot: StorageTrie)
    requires Opened(e, parentRoot) && (Touched(e) || root == parentRoot)
    ensures var r := PushEntry(e, slot, root);
            && Opened(r, parentRoot) && Touched(r)
            && Content(r, parentRoot) == Write(Content(e, parentRoot), slot)
  {
    var slots := if e.buf.Some? then e.buf.value.slots else [];
    var buf := Buffer(if e.buf.Some? then e.buf.value.root else root, slots + [slot]);
    assert [] + [slot] == [slot];
    WriteSnoc(if e.trie.Some? then e.trie.value else parentRoot, slots, slot);
    PushBuffered(e.trie, buf, parentRoot);
  }

  /** The per-slot worker: each write hits the trie at once, and a wipe empties it. */
  function Direct(t: StorageTrie, msgs: seq<Msg>, a: Key): StorageTrie {
    if msgs == [] then t
    else
      DirectStep(Direct(t, msgs[..|msgs| - 1], a), msgs[|msgs| - 1], a)
  }

  function DirectStep(t: StorageTrie, m: Msg, a: Key): StorageTrie {
    if m.MerklizeStorage? && m.account == a then Write(t, m.slot)
    else if m.DeleteStorage? && m.account == a then None
    else t
  }

  /** A write that finds nothing on the shelf carries the parent's storage root. */
  ghost predicate WellRooted(e: Entry, msgs: seq<Msg>, a: Key, parentRoot: StorageTrie) {
    forall n | 0 <= n < |msgs| && msgs[n].MerklizeStorage? && msgs[n].account == a ::
      Touched(Deliver(e, msgs[..n], a)) || msgs[n].root == parentRoot
  }

  /** The buffered worker refines the per-slot worker: after every message, the trie with its
      pending buffer is what in-order application gives. */
  lemma {:induction false} BufferingRefines(e: Entry, msgs: seq<Msg>, a: Key, parentRoot: StorageTrie)
    requires Opened(e, parentRoot) && WellRooted(e, msgs, a, parentRoot)
    ensures Opened(Deliver(e, msgs, a), parentRoot)
    ensures Content(Deliver(e, msgs, a), parentRoot) == Direct(Content(e, parentRoot), msgs, a)
  {
    if msgs != [] {
      var front, m := msgs[..|msgs| - 1], msgs[|msgs| - 1];
      assert forall n | 0 <= n < |front| :: front[n] == msgs[n] && front[..n] == msgs[..n];
      BufferingRefines(e, front, a, parentRoot);
      if m.MerklizeStorage? && m.account == a {
        assert msgs[|front|] == m && msgs[..|front|] == front;
        PushContent(Deliver(e, front, a), m.slot, m.root, parentRoot);
      }
    }
  }

  lemma {:induction false} DirectConcat(t: StorageTrie, x: seq<Msg>, y: seq<Msg>, a: Key)
    ensures Direct(t, x + y, a) == Direct(Direct(t, x, a), y, a)
  {
    if y == [] {
      assert x + y == x;
    } else {
      assert (x + y)[..|x + y| - 1] == x + y[..|y| - 1];
      DirectConcat(t, x, y[..|y| - 1], a);
    }
  }

  lemma {:induction false} DirectWrites(t: StorageTrie, a: Key, slots: seq<Slot>, root: StorageTrie)
    ensures Direct(t, Writes(a, slots, root), a) == WriteAll(t, slots)
    ensures slots != [] ==> About(Writes(a, slots, root)[|Writes(a, slots, root)| - 1], a)
    ensures forall m | m in Writes(a, slots, root) :: m.MerklizeStorage? && m.account == a && m.root == root
    ensures forall m | m in Writes(a, slots, root) :: m.slot in slots
  {
    if slots != [] {
      var front := slots[..|slots| - 1];
      DirectWrites(t, a, front, root);
      assert Writes(a, slots, root)[..|Writes(a, slots, root)| - 1] == Writes(a, front, root);
    }
  }

  lemma {:induction false} OfNibbleEmpty(slots: seq<Slot>, d: Nibble)
    ensures OfNibble(slots, d) == [] <==> d !in Buckets(slots)
  {
    if slots != [] {
      var front, last := slots[..|slots| - 1], slots[|slots| - 1];
      OfNibbleEmpty(front, d);
      assert forall s :: s in slots <==> s in front || s == last;
    }
  }

  /** What one update's traffic does to the entry of its account in shard d. */
  lemma {:induction false} TrafficContent(e: Entry, u: Update, d: Nibble, root: StorageTrie, parentRoot: StorageTrie)
    requires Opened(e, parentRoot) && (Touched(e) || Wipes(u) || root == parentRoot)
    ensures var r := Deliver(e, Traffic(u, d, root), u.account);
            && Opened(r, parentRoot)
            && (Touched(r) <==> Touched(e) || d in MaskOf(u))
            && Content(r, parentRoot) == WriteAll(if Wipes(u) then None else Content(e, parentRoot), OfNibble(NewSlots(u), d))
  {
    var a, msgs, mine := u.account, Traffic(u, d, root), OfNibble(NewSlots(u), d);
    DirectWrites(if Wipes(u) then None else Content(e, parentRoot), a, mine, root);
    forall n | 0 <= n < |msgs| && msgs[n].MerklizeStorage? && msgs[n].account == a
      ensures Touched(Deliver(e, msgs[..n], a)) || msgs[n].root == parentRoot
    {
      if Wipes(u) {
        assert msgs[..n][0] == DeleteStorage(a) && About(msgs[..n][0], a);
      } else {
        assert msgs == Writes(a, mine, root);
      }
      TouchedBy(e, msgs[..n], a);
    }
    BufferingRefines(e, msgs, a, parentRoot);
    TouchedBy(e, msgs, a);
    DirectConcat(Content(e, parentRoot), WipeMsgs(u), Writes(a, mine, root), a);
    assert Wipes(u) ==> [DeleteStorage(a)][..0] == [];
    TrafficTouches(u, d, root);
  }

  lemma {:induction false} TrafficTouches(u: Update, d: Nibble, root: StorageTrie)
    ensures Mentions(Traffic(u, d, root), u.account) <==> d in MaskOf(u)
    ensures forall m | m in Traffic(u, d, root) :: About(m, u.account)
  {
    var mine := OfNibble(NewSlots(u), d);
    var writes := Writes(u.account, mine, root);
    DirectWrites(None, u.account, mine, root);
    AllHasEvery(d);
    OfNibbleEmpty(NewSlots(u), d);
    if d in MaskOf(u) {
      var m := if Wipes(u) then DeleteStorage(u.account) else writes[|writes| - 1];
      assert m in WipeMsgs(u) + writes && About(m, u.account);
    }
  }

  ghost predicate Mentions(msgs: seq<Msg>, a: Key) { exists m | m in msgs :: About(m, a) }

  lemma {:induction false} TouchedBy(e: Entry, msgs: seq<Msg>, a: Key)
    ensures Touched(Deliver(e, msgs, a)) <==> Touched(e) || Mentions(msgs, a)
  {
    if msgs != [] {
      var front, m := msgs[..|msgs| - 1], msgs[|msgs| - 1];
      TouchedBy(e, front, a);
      assert m in msgs && forall x | x in front :: x in msgs;
      assert Mentions(msgs, a) <==> Mentions(front, a) || About(m, a) by {
        if Mentions(front, a) {
          var x :| x in front && About(x, a);
          assert x in msgs;
        }
        if Mentions(msgs, a) {
          var x :| x in msgs && About(x, a);
          assert x in front || x == m;
        }
      }
    }
  }
}
