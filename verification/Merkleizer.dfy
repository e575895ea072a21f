/** The whole machine: the coordinator, sixteen workers, one queue per worker, any interleaving
    (crates/blockchain/blockchain.rs, handle_merkleization and handle_subtrie). */
module Merkleizer {
  import opened Trie
  import opened Sharding
  import opened Accounts
  import opened ShardWorker
  import opened Routing
  import opened Protocol
  import opened ProtocolSteps

  /** program: what the coordinator has still to send. outboxes: what a handler has still to
      send before its worker takes the next message. failed: some send found a closed queue. */
  datatype System = System(
    program: seq<Send>,
    queues: seq<seq<Msg>>,
    workers: seq<Worker>,
    outboxes: seq<seq<Send>>,
    failed: bool)

  predicate Formed(c: System) { |c.queues| == |c.workers| == |c.outboxes| == 16 }

  // ---------------------------------------------------------------- the coordinator's program

  /** A removed account goes out with the default info and no slots. */
  function Updates(us: seq<Update>): seq<Send> {
    if us == [] then []
    else Updates(us[..|us| - 1]) + [Send(Bucket(us[|us| - 1].account), ProcessAccount(us[|us| - 1]))]
  }

  function Program(us: seq<Update>): seq<Send> {
    Updates(us) + Broadcast(0, FinishRouting) + Broadcast(0, CollectState)
  }

  function Start(g: Setting): (c: System)
    ensures Formed(c)
  {
    System(Program(g.stream), seq(16, _ => []), seq(16, _ => Initial(g.parent)), seq(16, _ => []), false)
  }

  // ---------------------------------------------------------------- moves

  datatype Move =
    | Dispatch
    | Transmit(i: Nibble)
    | Receive(i: Nibble)
    | CollectTrie(i: Nibble, a: Key)
    | CloseCollection(i: Nibble)
    | Disconnect(i: Nibble)

  /** The worker is between two iterations of its loop. */
  predicate Idle(c: System, i: Nibble) requires Formed(c) {
    c.workers[i].status.Running? && c.outboxes[i] == []
  }

  predicate Enabled(c: System, m: Move) requires Formed(c) {
    !c.failed &&
    match m
    case Dispatch => c.program != []
    case Transmit(i) => c.outboxes[i] != []
    case Receive(i) => Idle(c, i) && c.queues[i] != []
    case CollectTrie(i, a) => Idle(c, i) && c.workers[i].collecting && a in c.workers[i].toCollect
    case CloseCollection(i) => Idle(c, i) && c.workers[i].collecting && c.workers[i].toCollect == map[]
    case Disconnect(i) =>
      && Idle(c, i) && c.queues[i] == [] && c.program == []
      && forall j: Nibble :: !c.workers[j].open || !c.workers[j].status.Running?
  }

  /** A send reaches the queue of a live worker; a finished worker's queue is closed. */
  function Deposit(c: System, s: Send): (r: System)
    requires Formed(c)
    ensures Formed(r)
  {
    if c.workers[s.to].status.Running? then c.(queues := c.queues[s.to := c.queues[s.to] + [s.msg]]) else c.(failed := true)
  }

  function Perform(c: System, i: Nibble, e: Effect): (r: System)
    requires Formed(c)
    ensures Formed(r)
  {
    c.(workers := c.workers[i := e.worker], outboxes := c.outboxes[i := e.sends])
  }

  function Do(c: System, m: Move): (r: System)
    requires Formed(c) && Enabled(c, m)
    ensures Formed(r)
  {
    match m
    case Dispatch => Deposit(c.(program := c.program[1..]), c.program[0])
    case Transmit(i) => Deposit(c.(outboxes := c.outboxes[i := c.outboxes[i][1..]]), c.outboxes[i][0])
    case Receive(i) => Perform(c.(queues := c.queues[i := c.queues[i][1..]]), i, Handle(c.workers[i], i, c.queues[i][0]))
    case CollectTrie(i, a) => Perform(c, i, Collect(c.workers[i], i, a))
    case CloseCollection(i) => Perform(c, i, Effect(EndCollect(c.workers[i]), []))
    case Disconnect(i) => Perform(c, i, Abort(c.workers[i]))
  }

  ghost predicate Reachable(g: Setting, c: System, ms: seq<Move>)
    decreases |ms|
  {
    if ms == [] then c == Start(g)
    else exists b: System :: Reachable(g, b, ms[..|ms| - 1]) && Formed(b) && Enabled(b, ms[|ms| - 1]) && c == Do(b, ms[|ms| - 1])
  }

  // ---------------------------------------------------------------- channels inside one queue

  /** Which worker sent a message; the coordinator counts as sixteen. */
  function Sender(m: Msg): (s: nat)
    ensures s <= 16
  {
    match m
    case MerklizeStorage(a, _, _) => Bucket(a)
    case DeleteStorage(a) => Bucket(a)
    case RoutingDone(from) => from
    case StorageShard(_, index, _) => index
    case _ => 16
  }

  function From(q: seq<Msg>, s: nat): seq<Msg> {
    if q == [] then []
    else (if Sender(q[0]) == s then [q[0]] else []) + From(q[1..], s)
  }

  lemma {:induction false} FromSnoc(q: seq<Msg>, m: Msg, s: nat)
    ensures From(q + [m], s) == From(q, s) + if Sender(m) == s then [m] else []
  {
    if q == [] {
      assert [] + [m] == [m] && [m][1..] == [];
    } else {
      assert (q + [m])[1..] == q[1..] + [m] && (q + [m])[0] == q[0];
      FromSnoc(q[1..], m, s);
      var first, last := if Sender(q[0]) == s then [q[0]] else [], if Sender(m) == s then [m] else [];
      assert first + (From(q[1..], s) + last) == first + From(q[1..], s) + last;
    }
  }

  lemma {:induction false} FromMember(q: seq<Msg>, m: Msg)
    requires m in q
    ensures m in From(q, Sender(m))
  {
    if q[0] != m { assert m in q[1..]; FromMember(q[1..], m); }
  }

  lemma {:induction false} ToHead(sends: seq<Send>, d: Nibble)
    requires sends != []
    ensures To(sends, d) == (if sends[0].to == d then [sends[0].msg] else []) + To(sends[1..], d)
  {
    ToConcat([sends[0]], sends[1..], d);
    assert sends == [sends[0]] + sends[1..] && [sends[0]][..0] == [];
    assert To([sends[0]], d) == To([sends[0]][..0], d) + if sends[0].to == d then [sends[0].msg] else [];
  }

  /** The machine as pairwise channels: what a queue holds from one sender, then what that
      sender has still to send. */
  function Abs(c: System): (v: View)
    requires Formed(c)
    ensures Shaped(v) && v.workers == c.workers
    ensures forall s: Nibble, d: Nibble :: v.pipes[s][d] == From(c.queues[d], s) + To(c.outboxes[s], d)
    ensures forall d: Nibble :: v.coord[d] == From(c.queues[d], 16) + To(c.program, d)
  {
    View(c.workers,
         seq(16, s requires 0 <= s < 16 => seq(16, d requires 0 <= d < 16 => From(c.queues[d], s) + To(c.outboxes[s], d))),
         seq(16, d requires 0 <= d < 16 => From(c.queues[d], 16) + To(c.program, d)))
  }

  ghost predicate SameView(a: View, b: View) requires Shaped(a) && Shaped(b) {
    && a.workers == b.workers
    && (forall s: Nibble, d: Nibble :: a.pipes[s][d] == b.pipes[s][d])
    && (forall d: Nibble :: a.coord[d] == b.coord[d])
  }

  lemma {:induction false} SameViewEqual(a: View, b: View)
    requires Shaped(a) && Shaped(b) && SameView(a, b)
    ensures a == b
  {
    forall s | 0 <= s < 16 ensures a.pipes[s] == b.pipes[s] {
      forall d | 0 <= d < 16 ensures a.pipes[s][d] == b.pipes[s][d] {
        var s': Nibble, d': Nibble := s, d;
        assert a.pipes[s'][d'] == b.pipes[s'][d'];
      }
    }
    forall d | 0 <= d < 16 ensures a.coord[d] == b.coord[d] {
      var d': Nibble := d;
      assert a.coord[d'] == b.coord[d'];
    }
  }

  // ---------------------------------------------------------------- the start

  lemma {:induction false} ToUpdates(us: seq<Update>, d: Nibble)
    ensures To(Updates(us), d) == Script(OfOwner(us, d))[..|OfOwner(us, d)|]
  {
    if us != [] {
      var front, u := us[..|us| - 1], us[|us| - 1];
      ToUpdates(front, d);
      ToSnoc(Updates(front), Send(Bucket(u.account), ProcessAccount(u)), d);
      ScriptSnoc(OfOwner(front, d), u);
    }
  }

  lemma {:induction false} ToSnoc(sends: seq<Send>, s: Send, d: Nibble)
    ensures To(sends + [s], d) == To(sends, d) + if s.to == d then [s.msg] else []
  {
    assert (sends + [s])[..|sends|] == sends;
  }

  lemma {:induction false} ScriptEnd(us: seq<Update>)
    ensures Script(us) == Script(us)[..|us|] + [FinishRouting, CollectState]
  {
    if us != [] {
      ScriptEnd(us[1..]);
      assert Script(us)[..|us|] == [ProcessAccount(us[0])] + Script(us[1..])[..|us| - 1];
    }
  }

  lemma {:induction false} ScriptSnoc(us: seq<Update>, u: Update)
    ensures Script(us + [u])[..|us| + 1] == Script(us)[..|us|] + [ProcessAccount(u)]
  {
    if us == [] {
      assert ([] + [u])[1..] == [];
    } else {
      ScriptSnoc(us[1..], u);
      assert (us + [u])[1..] == us[1..] + [u];
      assert Script(us)[..|us|] == [ProcessAccount(us[0])] + Script(us[1..])[..|us| - 1];
      assert Script(us + [u])[..|us| + 1] == [ProcessAccount(us[0])] + Script(us[1..] + [u])[..|us|];
    }
  }

  lemma {:induction false} ToThree(a: seq<Send>, b: seq<Send>, c: seq<Send>, d: Nibble, x: seq<Msg>, y: Msg, z: Msg)
    requires To(a, d) == x && To(b, d) == [y] && To(c, d) == [z]
    ensures To(a + b + c, d) == x + [y, z]
  {
    ToConcat(a + b, c, d);
    ToConcat(a, b, d);
  }

  lemma {:induction false} ToProgram(us: seq<Update>, d: Nibble)
    ensures To(Program(us), d) == Script(OfOwner(us, d))
  {
    ToUpdates(us, d);
    ScriptEnd(OfOwner(us, d));
    ToBroadcast(0, FinishRouting, d);
    ToBroadcast(0, CollectState, d);
    ToThree(Updates(us), Broadcast(0, FinishRouting), Broadcast(0, CollectState), d, To(Updates(us), d), FinishRouting, CollectState);
  }

  lemma {:induction false} StartAbs(g: Setting)
    ensures Abs(Start(g)) == InitialView(g)
  {
    forall d: Nibble { ToProgram(g.stream, d); }
    SameViewEqual(Abs(Start(g)), InitialView(g));
  }

  // ---------------------------------------------------------------- each move, seen as channels

  lemma {:induction false} DispatchCoord(c: System, d: Nibble)
    requires Formed(c) && Enabled(c, Dispatch)
    requires c.workers[c.program[0].to].status.Running? && Sender(c.program[0].msg) == 16
    ensures Abs(Do(c, Dispatch)).coord[d] == Abs(c).coord[d]
  {
    FromSnoc(c.queues[d], c.program[0].msg, 16);
    ToHead(c.program, d);
    var c' := Do(c, Dispatch);
    assert From(c'.queues[d], 16) + To(c'.program, d) == From(c.queues[d], 16) + To(c.program, d);
  }

  /** Moving a message from the program into a queue is invisible in the channels. */
  lemma {:induction false} DispatchAbs(c: System)
    requires Formed(c) && Enabled(c, Dispatch)
    requires c.workers[c.program[0].to].status.Running? && Sender(c.program[0].msg) == 16
    ensures Abs(Do(c, Dispatch)) == Abs(c)
  {
    var b, c', m := Abs(c), Do(c, Dispatch), c.program[0];
    forall s: Nibble, d: Nibble ensures Abs(c').pipes[s][d] == b.pipes[s][d] { FromSnoc(c.queues[d], m.msg, s); }
    forall d: Nibble { DispatchCoord(c, d); }
    SameViewEqual(Abs(c'), b);
  }

  lemma {:induction false} TransmitPipe(c: System, i: Nibble, s: Nibble, d: Nibble)
    requires Formed(c) && Enabled(c, Transmit(i))
    requires c.workers[c.outboxes[i][0].to].status.Running? && Sender(c.outboxes[i][0].msg) == i
    ensures Abs(Do(c, Transmit(i))).pipes[s][d] == Abs(c).pipes[s][d]
  {
    FromSnoc(c.queues[d], c.outboxes[i][0].msg, s);
    ToHead(c.outboxes[i], d);
    var c' := Do(c, Transmit(i));
    assert From(c'.queues[d], s) + To(c'.outboxes[s], d) == From(c.queues[d], s) + To(c.outboxes[s], d);
  }

  lemma {:induction false} TransmitAbs(c: System, i: Nibble)
    requires Formed(c) && Enabled(c, Transmit(i))
    requires c.workers[c.outboxes[i][0].to].status.Running? && Sender(c.outboxes[i][0].msg) == i
    ensures Abs(Do(c, Transmit(i))) == Abs(c)
  {
    var b, c', m := Abs(c), Do(c, Transmit(i)), c.outboxes[i][0];
    forall s: Nibble, d: Nibble { TransmitPipe(c, i, s, d); }
    forall d: Nibble ensures Abs(c').coord[d] == b.coord[d] { FromSnoc(c.queues[d], m.msg, 16); }
    SameViewEqual(Abs(c'), b);
  }

  /** Taking the head of a queue takes the head of its sender's channel and of no other. */
  lemma {:induction false} FromHead(q: seq<Msg>, s: nat, rest: seq<Msg>)
    requires q != []
    ensures Sender(q[0]) != s ==> From(q[1..], s) + rest == From(q, s) + rest
    ensures Sender(q[0]) == s ==> From(q, s) != [] && (From(q, s) + rest)[0] == q[0] && From(q[1..], s) + rest == (From(q, s) + rest)[1..]
  {}

  lemma {:induction false} ReceiveCoordPipe(c: System, i: Nibble, s: Nibble, d: Nibble)
    requires Formed(c) && Enabled(c, Receive(i)) && Sender(c.queues[i][0]) == 16 && Abs(c).coord[i] != []
    requires Abs(c).coord[i][0] == c.queues[i][0]
    ensures Abs(Do(c, Receive(i))).pipes[s][d] == RecvCoord(Abs(c), i).pipes[s][d]
  {
    var c' := Do(c, Receive(i));
    FromHead(c.queues[i], s, []);
    assert From(c'.queues[d], s) == From(c'.queues[d], s) + [] == From(c.queues[d], s) + [] == From(c.queues[d], s);
  }

  lemma {:induction false} ReceiveCoordAbs(c: System, i: Nibble)
    requires Formed(c) && Enabled(c, Receive(i)) && Sender(c.queues[i][0]) == 16
    ensures Abs(c).coord[i] != [] && Abs(c).coord[i][0] == c.queues[i][0]
    ensures Abs(Do(c, Receive(i))) == RecvCoord(Abs(c), i)
  {
    FromHead(c.queues[i], 16, To(c.program, i));
    forall s: Nibble, d: Nibble { ReceiveCoordPipe(c, i, s, d); }
    SameViewEqual(Abs(Do(c, Receive(i))), RecvCoord(Abs(c), i));
  }

  lemma {:induction false} HeadOfPipe(c: System, i: Nibble, s: Nibble)
    requires Formed(c) && c.queues[i] != [] && Sender(c.queues[i][0]) == s
    ensures Abs(c).pipes[s][i] != [] && Abs(c).pipes[s][i][0] == c.queues[i][0]
  {
    FromHead(c.queues[i], s, To(c.outboxes[s], i));
  }

  /** The channel from x to d after worker i took the head of its queue, which came from s. */
  lemma {:induction false} FromTail(c: System, i: Nibble, s: Nibble, x: Nibble, d: Nibble)
    requires Formed(c) && Enabled(c, Receive(i)) && Sender(c.queues[i][0]) == s
    ensures var rest := if d == i then c.queues[i][1..] else c.queues[d];
            From(rest, x) + To(c.outboxes[x], d) ==
            if x == s && d == i then (From(c.queues[d], x) + To(c.outboxes[x], d))[1..] else From(c.queues[d], x) + To(c.outboxes[x], d)
  {
    FromHead(c.queues[i], x, To(c.outboxes[x], i));
  }

  lemma {:induction false} ReceivePipePipe(c: System, i: Nibble, s: Nibble, x: Nibble, d: Nibble)
    requires Formed(c) && Enabled(c, Receive(i)) && Sender(c.queues[i][0]) == s && Abs(c).pipes[s][i] != []
    requires Abs(c).pipes[s][i][0] == c.queues[i][0]
    ensures Abs(Do(c, Receive(i))).pipes[x][d] == RecvPipe(Abs(c), s, i).pipes[x][d]
  {
    FromTail(c, i, s, x, d);
    ReceiveMoves(c, i, x, d);
  }

  lemma {:induction false} ReceiveMoves(c: System, i: Nibble, x: Nibble, d: Nibble)
    requires Formed(c) && Enabled(c, Receive(i))
    ensures var rest := if d == i then c.queues[i][1..] else c.queues[d];
            var sends := if x == i then To(Handle(c.workers[i], i, c.queues[i][0]).sends, d) else [];
            Abs(Do(c, Receive(i))).pipes[x][d] == From(rest, x) + To(c.outboxes[x], d) + sends
  {
    var rest := if d == i then c.queues[i][1..] else c.queues[d];
    assert From(rest, x) + [] == From(rest, x);
    assert From(rest, x) + To(c.outboxes[x], d) + [] == From(rest, x) + To(c.outboxes[x], d);
  }

  lemma {:induction false} ReceivePipeAbs(c: System, i: Nibble, s: Nibble)
    requires Formed(c) && Enabled(c, Receive(i)) && Sender(c.queues[i][0]) == s
    ensures Abs(c).pipes[s][i] != [] && Abs(c).pipes[s][i][0] == c.queues[i][0]
    ensures Abs(Do(c, Receive(i))) == RecvPipe(Abs(c), s, i)
  {
    HeadOfPipe(c, i, s);
    FromHead(c.queues[i], 16, To(c.program, i));
    forall x: Nibble, d: Nibble { ReceivePipePipe(c, i, s, x, d); }
    SameViewEqual(Abs(Do(c, Receive(i))), RecvPipe(Abs(c), s, i));
  }

  lemma {:induction false} CollectAbs(c: System, i: Nibble, a: Key)
    requires Formed(c) && Enabled(c, CollectTrie(i, a))
    ensures Abs(Do(c, CollectTrie(i, a))) == CollectOne(Abs(c), i, a)
  {
    var c', v := Do(c, CollectTrie(i, a)), CollectOne(Abs(c), i, a);
    forall s: Nibble, d: Nibble ensures Abs(c').pipes[s][d] == v.pipes[s][d] {
      assert From(c.queues[d], s) + [] == From(c.queues[d], s);
    }
    SameViewEqual(Abs(c'), v);
  }

  lemma {:induction false} CloseAbs(c: System, i: Nibble)
    requires Formed(c) && Enabled(c, CloseCollection(i))
    ensures Abs(Do(c, CloseCollection(i))) == EndOne(Abs(c), i)
  {
    var c', v := Do(c, CloseCollection(i)), EndOne(Abs(c), i);
    forall s: Nibble, d: Nibble ensures Abs(c').pipes[s][d] == v.pipes[s][d] {
      assert From(c.queues[d], s) + [] == From(c.queues[d], s);
    }
    SameViewEqual(Abs(c'), v);
  }
}
