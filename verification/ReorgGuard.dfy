/** The guards around a deep reorg: any number of threads, any interleaving
    (crates/blockchain/blockchain.rs, enter_reorg and ReorgGuard; crates/blockchain/fork_choice.rs,
    AbortReorgGuard). */
module ReorgGuard {
  type Thread = nat

  /** Where a thread is in its pass. The guards are dropped in reverse order of their creation:
      the abort guard first, then the reorg guard, which unpauses before it clears the flag. */
  datatype Phase =
    | Outside
    | Claimed
    | Holding
    | Armed
    | Aborting
    | Disarmed
    | Unpausing
    | Releasing

  /** flag: a pass is in flight. paused: the journal must not be pruned. partial: an overlay of a
      pass that has not succeeded is installed. */
  datatype State = State(flag: bool, paused: bool, partial: bool, threads: map<Thread, Phase>)

  datatype Action = Enter | Pause | Install | GiveUp | Succeed | Fail | Abort | Leave | Unpause | Release

  function At(s: State, t: Thread): Phase { if t in s.threads then s.threads[t] else Outside }

  function Move(s: State, t: Thread, p: Phase): State { s.(threads := s.threads[t := p]) }

  /** One step of one thread. An exit by error and one by panic drop the same guards. */
  ghost predicate Steps(s: State, t: Thread, a: Action, s': State) {
    match a
    case Enter => At(s, t) == Outside && s' == if s.flag then s else Move(s, t, Claimed).(flag := true)
    case Pause => At(s, t) == Claimed && s' == Move(s, t, Holding).(paused := true)
    case Install => At(s, t) == Holding && s' == Move(s, t, Armed).(partial := true)
    case GiveUp => At(s, t) == Holding && s' == Move(s, t, Unpausing)
    case Succeed => At(s, t) == Armed && s' == Move(s, t, Disarmed).(partial := false)
    case Fail => At(s, t) == Armed && s' == Move(s, t, Aborting)
    case Abort => At(s, t) == Aborting && s' == Move(s, t, Unpausing).(partial := false)
    case Leave => At(s, t) == Disarmed && s' == Move(s, t, Unpausing)
    case Unpause => At(s, t) == Unpausing && s' == Move(s, t, Releasing).(paused := false)
    case Release => At(s, t) == Releasing && s' == Move(s, t, Outside).(flag := false)
  }

  predicate Inside(p: Phase) { !p.Outside? }

  predicate Pausing(p: Phase) { p.Holding? || p.Armed? || p.Aborting? || p.Disarmed? || p.Unpausing? }

  predicate Unfinished(p: Phase) { p.Armed? || p.Aborting? }

  ghost predicate Inv(s: State) {
    && (forall t: Thread, u: Thread :: Inside(At(s, t)) && Inside(At(s, u)) ==> t == u)
    && (s.flag <==> exists t: Thread :: Inside(At(s, t)))
    && (s.paused <==> exists t: Thread :: Pausing(At(s, t)))
    && (s.partial <==> exists t: Thread :: Unfinished(At(s, t)))
  }

  const START := State(false, false, false, map[])

  lemma {:induction false} StepInv(s: State, t: Thread, a: Action, s': State)
    requires Inv(s) && Steps(s, t, a, s')
    ensures Inv(s')
  {
    forall u: Thread ensures At(s', u) == if u == t then At(s', t) else At(s, u) {}
    assert Inside(At(s', t)) || !Inside(At(s', t));
    assert Pausing(At(s', t)) || !Pausing(At(s', t));
    assert Unfinished(At(s', t)) || !Unfinished(At(s', t));
  }

  datatype Event = Event(thread: Thread, action: Action)

  ghost predicate Run(events: seq<Event>, s: State)
    decreases |events|
  {
    if events == [] then s == START
    else
      var front, last := events[..|events| - 1], events[|events| - 1];
      exists b: State :: Run(front, b) && Steps(b, last.thread, last.action, s)
  }

  lemma {:induction false} EveryRunInv(events: seq<Event>, s: State)
    requires Run(events, s)
    ensures Inv(s)
    decreases |events|
  {
    if events != [] {
      var front, last := events[..|events| - 1], events[|events| - 1];
      var b: State :| Run(front, b) && Steps(b, last.thread, last.action, s);
      EveryRunInv(front, b);
      StepInv(b, last.thread, last.action, s);
    }
  }

  /** At most one pass is in flight, the journal is paused throughout it and only then, and a
      free flag means that no half-applied overlay is left. */
  lemma {:induction false} AtMostOneReorg(events: seq<Event>, s: State, t: Thread)
    requires Run(events, s)
    ensures Inside(At(s, t)) ==> s.flag && forall u: Thread | u != t :: At(s, u) == Outside
    ensures Pausing(At(s, t)) ==> s.paused
    ensures (forall u: Thread :: At(s, u) == Outside) ==> !s.flag && !s.paused && !s.partial
    ensures !s.flag ==> !s.partial && !s.paused
    ensures s.partial ==> s.flag && s.paused
  {
    EveryRunInv(events, s);
  }

  /** An overlay that is installed and not confirmed is aborted before the flag is cleared: the
      step that clears the flag never finds one. */
  lemma {:induction false} AbortBeforeRelease(events: seq<Event>, s: State, t: Thread, s': State)
    requires Run(events, s) && Steps(s, t, Release, s')
    ensures !s.partial && !s.paused && s.flag && !s'.flag
  {
    EveryRunInv(events, s);
    assert Inside(At(s, t)) && !Pausing(At(s, t)) && !Unfinished(At(s, t));
  }

  /** While a pass is in flight, no other thread gets in. */
  lemma {:induction false} LoserStaysOut(events: seq<Event>, s: State, t: Thread, u: Thread, s': State)
    requires Run(events, s) && Inside(At(s, t)) && Steps(s, u, Enter, s')
    ensures u != t && s' == s
  {
    EveryRunInv(events, s);
  }

  // ---------------------------------------------------------------- passes do run

  /** The flag is down exactly when every thread is outside, and a thread that then enters comes
      in and raises it; nobody else moves. */
  lemma {:induction false} FreeFlagAdmits(events: seq<Event>, s: State, t: Thread)
    requires Run(events, s)
    ensures !s.flag <==> forall u: Thread :: At(s, u) == Outside
    ensures !s.flag ==> exists s' :: Steps(s, t, Enter, s')
    ensures forall s' | Steps(s, t, Enter, s') && !s.flag ::
              s'.flag && Inside(At(s', t)) && forall u: Thread | u != t :: At(s', u) == At(s, u)
  {
    EveryRunInv(events, s);
    if s.flag {
      var u: Thread :| Inside(At(s, u));
      assert At(s, u) != Outside;
    } else {
      forall u: Thread ensures At(s, u) == Outside { assert !Inside(At(s, u)); }
      assert Steps(s, t, Enter, Move(s, t, Claimed).(flag := true));
    }
  }

  lemma {:induction false} RunSnoc(events: seq<Event>, b: State, e: Event, s: State)
    requires Run(events, b) && Steps(b, e.thread, e.action, s)
    ensures Run(events + [e], s)
  {
    assert (events + [e])[..|events|] == events;
  }

  /** What the thread inside does next on its way out. */
  function WayOut(p: Phase): Action requires p != Outside {
    match p
    case Claimed => Pause
    case Holding => GiveUp
    case Armed => Fail
    case Aborting => Abort
    case Disarmed => Leave
    case Unpausing => Unpause
    case Releasing => Release
  }

  function StepsOut(p: Phase): nat {
    match p
    case Outside => 0
    case Releasing => 1
    case Unpausing => 2
    case Aborting => 3
    case Disarmed => 3
    case Holding => 3
    case Armed => 4
    case Claimed => 4
  }

  lemma {:induction false} OneStepOut(s: State, t: Thread) returns (s': State)
    requires At(s, t) != Outside
    ensures Steps(s, t, WayOut(At(s, t)), s') && StepsOut(At(s', t)) < StepsOut(At(s, t))
  {
    match At(s, t) {
      case Claimed => s' := Move(s, t, Holding).(paused := true);
      case Holding => s' := Move(s, t, Unpausing);
      case Armed => s' := Move(s, t, Aborting);
      case Aborting => s' := Move(s, t, Unpausing).(partial := false);
      case Disarmed => s' := Move(s, t, Unpausing);
      case Unpausing => s' := Move(s, t, Releasing).(paused := false);
      case Releasing => s' := Move(s, t, Outside).(flag := false);
    }
  }

  /** No guard leaks: from every reachable state the one thread inside gets out by steps of its
      own, and leaves everything down. */
  lemma {:induction false} GetsOut(events: seq<Event>, s: State, t: Thread) returns (more: seq<Event>, s': State)
    requires Run(events, s) && Inside(At(s, t))
    ensures Run(events + more, s') && forall e | e in more :: e.thread == t
    ensures (forall u: Thread :: At(s', u) == Outside) && !s'.flag && !s'.paused && !s'.partial
    decreases StepsOut(At(s, t))
  {
    var e := Event(t, WayOut(At(s, t)));
    var next := OneStepOut(s, t);
    RunSnoc(events, s, e, next);
    if Inside(At(next, t)) {
      var rest;
      rest, s' := GetsOut(events + [e], next, t);
      more := [e] + rest;
      assert events + [e] + rest == events + more;
    } else {
      more, s' := [e], next;
      EveryRunInv(events, s);
      forall u: Thread ensures At(s', u) == Outside { assert u != t ==> At(s', u) == At(s, u); }
      AtMostOneReorg(events + more, s', t);
    }
  }

  lemma {:induction false} InstalledRun(t: Thread) returns (s: State)
    ensures Run([Event(t, Enter), Event(t, Pause), Event(t, Install)], s) && At(s, t) == Armed && s.partial && s.flag && s.paused
  {
    var s1 := Move(START, t, Claimed).(flag := true);
    var s2 := Move(s1, t, Holding).(paused := true);
    s := Move(s2, t, Armed).(partial := true);
    assert Run([], START);
    RunSnoc([], START, Event(t, Enter), s1);
    assert [] + [Event(t, Enter)] == [Event(t, Enter)];
    RunSnoc([Event(t, Enter)], s1, Event(t, Pause), s2);
    assert [Event(t, Enter)] + [Event(t, Pause)] == [Event(t, Enter), Event(t, Pause)];
    RunSnoc([Event(t, Enter), Event(t, Pause)], s2, Event(t, Install), s);
    assert [Event(t, Enter), Event(t, Pause)] + [Event(t, Install)] == [Event(t, Enter), Event(t, Pause), Event(t, Install)];
  }

  /** A pass that installs its overlay and succeeds, and one that fails and aborts it; both end
      with everybody outside. */
  lemma {:induction false} BothOutcomes(t: Thread, succeeds: bool) returns (events: seq<Event>, s: State)
    ensures Run(events, s) && |events| >= 4 && (forall u: Thread :: At(s, u) == Outside) && !s.flag && !s.paused && !s.partial
    ensures events[..4] == [Event(t, Enter), Event(t, Pause), Event(t, Install), Event(t, if succeeds then Succeed else Fail)]
    ensures !succeeds ==> Event(t, Abort) in events
  {
    var start := [Event(t, Enter), Event(t, Pause), Event(t, Install)];
    var armed := InstalledRun(t);
    var last := Event(t, if succeeds then Succeed else Fail);
    var next := if succeeds then Move(armed, t, Disarmed).(partial := false) else Move(armed, t, Aborting);
    RunSnoc(start, armed, last, next);
    if succeeds {
      var more;
      more, s := GetsOut(start + [last], next, t);
      events := start + [last] + more;
    } else {
      var aborted := Move(next, t, Unpausing).(partial := false);
      RunSnoc(start + [last], next, Event(t, Abort), aborted);
      var more;
      more, s := GetsOut(start + [last] + [Event(t, Abort)], aborted, t);
      events := start + [last] + [Event(t, Abort)] + more;
    }
    assert events[..4] == start + [last];
  }
}
