/** Whole histories of a store: headers come in, fork choice updates are decided and land, and
    restarts recover, with updates overlapping each other. */
module Histories {
  import opened Options
  import opened Chain
  import opened ForkChoice
  import opened ForkChoiceLaws
  import opened Landing
  import opened BlockStore

  /** A fork choice update is tested on one store and, when it goes the deep way, looked up again
      on a second one; its write lands on a third. The stores are given by their positions. */
  datatype Event =
    | NewHeader(hash: Hash, header: Header)
    | Decide(tested: nat, found: nat, reach: Reach, later: Reach, request: Request, exec: Exec)
    | Recover(committed: Option<nat>, journal: map<nat, Hash>, roots: set<nat>)

  predicate Placed(ss: seq<Store>, e: Event) { e.Decide? && e.tested < |ss| && e.found < |ss| }

  predicate GoesDeep(ss: seq<Store>, e: Event) requires Placed(ss, e) {
    Refuses(ss[e.tested], e.reach, e.request) == Some(StateNotReachable)
  }

  function Outcome(ss: seq<Store>, e: Event): Option<Refusal> requires Placed(ss, e) {
    if GoesDeep(ss, e) then DeepRefuses(ss[e.found], e.later, e.request, e.exec) else Refuses(ss[e.tested], e.reach, e.request)
  }

  /** The store on which the branch was looked up. */
  function LookedUp(ss: seq<Store>, e: Event): Store requires Placed(ss, e) {
    if GoesDeep(ss, e) then ss[e.found] else ss[e.tested]
  }

  /** What is decided: the shallow tests on the first store, and, when only a state is missing there,
      the deep ones on the second, where the branch is then looked up. */
  lemma {:induction false} OutcomeIs(ss: seq<Store>, e: Event)
    requires Placed(ss, e) && Linked(ss[e.tested]) && Numbered(ss[e.tested].headers)
    requires Linked(ss[e.found]) && Numbered(ss[e.found].headers)
    ensures var s, q := ss[e.tested], e.request;
            && (Outcome(ss, e).None? <==> Takes(s, e.reach, q) || (Misses(s, e.reach, q) && DeepTakes(ss[e.found], e.later, q, e.exec)))
            && LookedUp(ss, e) == if Misses(s, e.reach, q) then ss[e.found] else s
  {
    RefusesExact(ss[e.tested], e.reach, e.request);
    DeepExact(ss[e.found], e.later, e.request, e.exec);
  }

  /** The climb from a committed block becomes canonical. */
  ghost predicate Adopts(s: Store, s': Store, number: nat, hash: Hash) {
    exists range: seq<Block> ::
      Climbs(s, number, s.latest, range) && range[0].hash == hash && s' == Update(s, range, range[0], None, None)
  }

  /** Event e happens between store i and the next one. */
  ghost predicate Happens(ss: seq<Store>, i: nat, e: Event) requires i + 1 < |ss| {
    var s, s' := ss[i], ss[i + 1];
    match e
    case NewHeader(h, header) => h !in s.headers && Numbered(s.headers[h := header]) && s' == s.(headers := s.headers[h := header])
    case Decide(tested, found, _, _, q, _) =>
      tested <= found <= i &&
      if Outcome(ss, e).Some? then s' == s
      else Found(LookedUp(ss, e), q) && s' == Landed(s, LookedUp(ss, e), if GoesDeep(ss, e) then s else ss[tested], q)
    case Recover(committed, journal, roots) =>
      if CanAdopt(s, committed, journal, roots) then Adopts(s, s', committed.value, journal[committed.value]) else s' == s
  }

  ghost predicate History(ss: seq<Store>, events: seq<Event>) {
    |ss| == |events| + 1 && forall i | 0 <= i < |events| :: Happens(ss, i, events[i])
  }

  /** When an accepted update lands, the parent of its lowest block is still canonical. */
  predicate Sound(ss: seq<Store>, i: nat, e: Event) requires i < |ss| {
    Placed(ss, e) && Outcome(ss, e).None? && Found(LookedUp(ss, e), e.request) ==> Attached(ss[i], LookedUp(ss, e), e.request)
  }

  // ---------------------------------------------------------------- one event

  lemma {:induction false} HeadersStep(ss: seq<Store>, i: nat, e: Event)
    requires i + 1 < |ss| && Happens(ss, i, e)
    ensures Later(ss[i], ss[i + 1])
    ensures Numbered(ss[i].headers) ==> Numbered(ss[i + 1].headers)
  {}

  /** Headers are never lost, and their numbers stay consistent. */
  lemma {:induction false} HeadersGrow(ss: seq<Store>, events: seq<Event>, j: nat, i: nat)
    requires History(ss, events) && Numbered(ss[0].headers) && j <= i < |ss|
    ensures Later(ss[j], ss[i]) && Numbered(ss[i].headers)
    decreases i
  {
    if i > 0 {
      HeadersStep(ss, i - 1, events[i - 1]);
      HeadersGrow(ss, events, if j < i then j else i - 1, i - 1);
    }
  }

  lemma {:induction false} EventLinked(ss: seq<Store>, i: nat, e: Event)
    requires i + 1 < |ss| && Happens(ss, i, e) && Linked(ss[i])
    requires e.Decide? ==> Linked(LookedUp(ss, e)) && Numbered(LookedUp(ss, e).headers) && Later(LookedUp(ss, e), ss[i])
    ensures Linked(ss[i + 1]) <==> Sound(ss, i, e)
  {
    var s, s' := ss[i], ss[i + 1];
    match e
    case NewHeader(h, header) =>
      forall n | s.earliest <= n <= s.latest ensures LinkedAt(s', n) { assert LinkedAt(s, n); }
    case Decide(tested, found, _, _, q, _) =>
      if Outcome(ss, e).None? {
        LandedLinked(s, LookedUp(ss, e), if GoesDeep(ss, e) then s else ss[tested], q);
      }
    case Recover(committed, journal, roots) =>
      if CanAdopt(s, committed, journal, roots) {
        var range: seq<Block> :| Climbs(s, committed.value, s.latest, range) && s' == Update(s, range, range[0], None, None);
        AdoptLinked(s, committed.value, range);
      }
  }

  lemma {:induction false} StepLinked(ss: seq<Store>, events: seq<Event>, i: nat)
    requires History(ss, events) && Numbered(ss[0].headers) && i < |events| && forall j | 0 <= j <= i :: Linked(ss[j])
    ensures Linked(ss[i + 1]) <==> Sound(ss, i, events[i])
  {
    var e := events[i];
    assert Happens(ss, i, e);
    if e.Decide? {
      HeadersGrow(ss, events, e.tested, i);
      HeadersGrow(ss, events, e.found, i);
      HeadersGrow(ss, events, e.tested, e.tested);
      HeadersGrow(ss, events, e.found, e.found);
    }
    EventLinked(ss, i, e);
  }

  // ---------------------------------------------------------------- every history

  lemma {:induction false} LinkedUpTo(ss: seq<Store>, events: seq<Event>, n: nat)
    requires History(ss, events) && Numbered(ss[0].headers) && Linked(ss[0]) && n < |ss|
    requires forall i | 0 <= i < n :: Sound(ss, i, events[i])
    ensures forall j | 0 <= j <= n :: Linked(ss[j])
  {
    if n > 0 {
      LinkedUpTo(ss, events, n - 1);
      StepLinked(ss, events, n - 1);
    }
  }

  /** However updates overlap, the canonical chain stays linked throughout exactly when each
      accepted update still finds its chain attached at the time its write lands. */
  lemma {:induction false} EveryHistoryLinked(ss: seq<Store>, events: seq<Event>)
    requires History(ss, events) && Numbered(ss[0].headers) && Linked(ss[0])
    ensures (forall j | 0 <= j < |ss| :: Linked(ss[j])) <==> (forall i | 0 <= i < |events| :: Sound(ss, i, events[i]))
  {
    if forall i | 0 <= i < |events| :: Sound(ss, i, events[i]) {
      LinkedUpTo(ss, events, |events|);
    } else {
      var i :| 0 <= i < |events| && !Sound(ss, i, events[i]);
      if forall j | 0 <= j < |ss| :: Linked(ss[j]) { StepLinked(ss, events, i); }
    }
  }

  /** An update whose test, lookup and write see one store. */
  predicate Alone(i: nat, e: Event) { e.Decide? ==> e.tested == i }

  lemma {:induction false} AcceptedAttached(s: Store, q: Request)
    requires Linked(s) && Numbered(s.headers) && Found(s, q)
    ensures Attached(s, s, q)
  {
    AcceptedLinked(s, q);
    assert Landed(s, s, s, q) == Accepted(s, q);
    LandedLinked(s, s, s, q);
  }

  lemma {:induction false} AloneSound(ss: seq<Store>, i: nat, e: Event)
    requires i + 1 < |ss| && Happens(ss, i, e) && Alone(i, e) && Linked(ss[i]) && Numbered(ss[i].headers)
    ensures Sound(ss, i, e)
  {
    if e.Decide? && Outcome(ss, e).None? { AcceptedAttached(ss[i], e.request); }
  }

  lemma {:induction false} AloneAllSound(ss: seq<Store>, events: seq<Event>, n: nat)
    requires History(ss, events) && Numbered(ss[0].headers) && Linked(ss[0]) && n < |ss|
    requires forall i | 0 <= i < n :: Alone(i, events[i])
    ensures forall i | 0 <= i < n :: Sound(ss, i, events[i])
  {
    if n > 0 {
      AloneAllSound(ss, events, n - 1);
      LinkedUpTo(ss, events, n - 1);
      HeadersGrow(ss, events, n - 1, n - 1);
      AloneSound(ss, n - 1, events[n - 1]);
    }
  }

  /** Updates that do not overlap keep the chain linked in every history, so that it is the
      ancestry of its head throughout. */
  lemma {:induction false} EveryAloneLinked(ss: seq<Store>, events: seq<Event>, n: nat, m: nat)
    requires History(ss, events) && Numbered(ss[0].headers) && Linked(ss[0]) && n < |ss|
    requires forall i | 0 <= i < n :: Alone(i, events[i])
    ensures var s := ss[n];
            && Linked(s)
            && (s.earliest <= m <= s.latest ==>
                  m in s.canonical && s.latest in s.canonical && Ancestor(s.headers, s.canonical[s.latest], s.latest - m) == Some(s.canonical[m]))
  {
    AloneAllSound(ss, events, n);
    LinkedUpTo(ss, events, n);
    if ss[n].earliest <= m <= ss[n].latest { CanonicalAncestry(ss[n], ss[n].latest, m); }
  }

  // ---------------------------------------------------------------- overlapping updates

  const FORK := map[1 := Header(0, 9, 10), 2 := Header(1, 1, 11), 3 := Header(1, 1, 12), 4 := Header(2, 2, 13)]
  const BEFORE := Store(FORK, map[0 := 1, 1 := 2], 1, 0, None, None)
  const BETWEEN := Store(FORK, map[0 := 1, 1 := 3], 1, 0, None, None)
  const AFTER := Store(FORK, map[0 := 1, 1 := 3, 2 := 4], 2, 0, None, None)
  const ALL_STATES := Reach({10, 11, 12, 13}, 128, None, None, None)

  function ToHead(h: Hash): Event {
    Decide(0, 0, ALL_STATES, ALL_STATES, Request(h, 0, 0), Exec(true, true, _ => Fine))
  }

  lemma {:induction false} BeforeLinked()
    ensures Linked(BEFORE) && Linked(BETWEEN) && Numbered(FORK)
    ensures FindLink(BEFORE, 3, 1) == Some([]) && FindLink(BEFORE, 4, 2) == Some([])
  {
    assert LinkedAt(BEFORE, 0) && LinkedAt(BEFORE, 1) && LinkedAt(BETWEEN, 0) && LinkedAt(BETWEEN, 1);
  }

  lemma {:induction false} FirstLands(ss: seq<Store>)
    requires ss == [BEFORE, BETWEEN, AFTER]
    ensures Happens(ss, 0, ToHead(3))
  {
    BeforeLinked();
    assert Refuses(BEFORE, ALL_STATES, Request(3, 0, 0)).None?;
    assert Landed(BEFORE, BEFORE, BEFORE, Request(3, 0, 0)).canonical == BETWEEN.canonical;
  }

  lemma {:induction false} SecondLands(ss: seq<Store>)
    requires ss == [BEFORE, BETWEEN, AFTER]
    ensures Happens(ss, 1, ToHead(4)) && !Sound(ss, 1, ToHead(4))
  {
    BeforeLinked();
    assert Refuses(BEFORE, ALL_STATES, Request(4, 0, 0)).None?;
    assert Landed(BETWEEN, BEFORE, BEFORE, Request(4, 0, 0)).canonical == AFTER.canonical;
  }

  /** Two updates accepted on one store, of which the first to land replaces the parent of the
      second: both are written, and the chain is no longer linked. */
  lemma {:induction false} LinkLost() returns (ss: seq<Store>, events: seq<Event>)
    ensures History(ss, events) && Numbered(ss[0].headers) && Linked(ss[0])
    ensures |events| == 2 && (forall e | e in events :: Placed(ss, e) && Outcome(ss, e).None?) && !Linked(ss[2])
  {
    ss, events := [BEFORE, BETWEEN, AFTER], [ToHead(3), ToHead(4)];
    BeforeLinked();
    FirstLands(ss);
    SecondLands(ss);
    assert !LinkedAt(AFTER, 2);
  }
}
