/** The browser SDK: its event queue under overlapping flushes and its rage-click counter
    (sdk/cognitive_sdk.js:80-116, 229-267). */
module BrowserSdk {
  import opened Wrappers

  // ----- the queue ----------------------------------------------------------------------

  /** `flights` are the batches whose request has not settled, oldest first.  `sent` lists the
      events of settled requests in the order they settled, and `received` what the server took;
      `lost` were answered with an error status, which the code takes for success, and `doubled`
      reached the server although the request was rejected. */
  datatype State<E> = State(calls: seq<E>, queue: seq<E>, flights: seq<seq<E>>, sent: seq<E>,
                            received: seq<E>, lost: seq<E>, doubled: seq<E>)

  datatype Event<E> =
    | Queue(e: E)
    | Flush                               // up to the request; nothing on an empty queue
    | Resolve(i: nat, accepted: bool)     // flight i settles without an exception
    | Reject(i: nat, landed: bool)        // flight i settles with one

  predicate Enabled<E>(s: State<E>, e: Event<E>) {
    (e.Resolve? || e.Reject?) ==> e.i < |s.flights|
  }

  function Without<T>(xs: seq<T>, i: nat): seq<T>
    requires i < |xs|
  {
    xs[..i] + xs[i + 1..]
  }

  function Apply<E>(s: State<E>, e: Event<E>): State<E>
    requires Enabled(s, e)
  {
    match e
    case Queue(x) => s.(calls := s.calls + [x], queue := s.queue + [x])
    case Flush => if s.queue == [] then s else s.(flights := s.flights + [s.queue], queue := [])
    case Resolve(i, accepted) =>
      var s' := s.(flights := Without(s.flights, i), sent := s.sent + s.flights[i]);
      if accepted then s'.(received := s.received + s.flights[i]) else s'.(lost := s.lost + s.flights[i])
    case Reject(i, landed) =>
      var s' := s.(flights := Without(s.flights, i), queue := s.flights[i] + s.queue);
      if landed then s'.(received := s.received + s.flights[i], doubled := s.doubled + s.flights[i]) else s'
  }

  function Empty<E>(): State<E> {
    State([], [], [], [], [], [], [])
  }

  predicate Legal<E>(s: State<E>, es: seq<Event<E>>)
    decreases |es|
  {
    es == [] || (Enabled(s, es[0]) && Legal(Apply(s, es[0]), es[1..]))
  }

  function After<E>(s: State<E>, es: seq<Event<E>>): State<E>
    requires Legal(s, es)
    decreases |es|
  {
    if es == [] then s else After(Apply(s, es[0]), es[1..])
  }

  function Flat<E>(fs: seq<seq<E>>): seq<E> {
    if fs == [] then [] else fs[0] + Flat(fs[1..])
  }

  lemma {:induction false} FlatConcat<E>(a: seq<seq<E>>, b: seq<seq<E>>)
    ensures Flat(a + b) == Flat(a) + Flat(b)
  {
    if a == [] {
      assert a + b == b;
    } else {
      assert (a + b)[1..] == a[1..] + b;
      FlatConcat(a[1..], b);
    }
  }

  lemma FlatOne<E>(f: seq<E>)
    ensures Flat([f]) == f
  {
    assert [f][1..] == [];
  }

  lemma FlatAt<E>(fs: seq<seq<E>>, i: nat)
    requires i < |fs|
    ensures Flat(fs) == Flat(fs[..i]) + fs[i] + Flat(fs[i + 1..])
    ensures Flat(Without(fs, i)) == Flat(fs[..i]) + Flat(fs[i + 1..])
  {
    assert fs == fs[..i] + fs[i..];
    FlatConcat(fs[..i], fs[i..]);
    assert fs[i..][1..] == fs[i + 1..];
    FlatConcat(fs[..i], fs[i + 1..]);
  }

  // ----- conservation -------------------------------------------------------------------

  /** Nothing is dropped or invented on the client, and the server's view differs from the
      client's exactly by the error statuses and the rejections after delivery. */
  ghost predicate Conserved<E>(s: State<E>) {
    && multiset(s.calls) == multiset(s.sent) + multiset(Flat(s.flights)) + multiset(s.queue)
    && multiset(s.received) + multiset(s.lost) == multiset(s.sent) + multiset(s.doubled)
  }

  lemma ApplyConserves<E>(s: State<E>, e: Event<E>)
    requires Conserved(s) && Enabled(s, e)
    ensures Conserved(Apply(s, e))
  {
    match e
    case Queue(x) =>
    case Flush =>
      FlatConcat(s.flights, [s.queue]);
      FlatOne(s.queue);
    case Resolve(i, accepted) => ResolveConserves(s, i, accepted);
    case Reject(i, landed) => RejectConserves(s, i, landed);
  }

  lemma ResolveConserves<E>(s: State<E>, i: nat, accepted: bool)
    requires Conserved(s) && i < |s.flights|
    ensures Conserved(Apply(s, Resolve(i, accepted)))
  {
    FlatAt(s.flights, i);
    var s', batch := Apply(s, Resolve(i, accepted)), s.flights[i];
    assert multiset(s.sent + batch) == multiset(s.sent) + multiset(batch);
    AddBoth(multiset(s.received), multiset(s.lost), multiset(s.sent), multiset(s.doubled), multiset(batch));
    if accepted {
      assert s'.received == s.received + batch;
    } else {
      assert s'.lost == s.lost + batch;
    }
  }

  lemma RejectConserves<E>(s: State<E>, i: nat, landed: bool)
    requires Conserved(s) && i < |s.flights|
    ensures Conserved(Apply(s, Reject(i, landed)))
  {
    FlatAt(s.flights, i);
    var batch := s.flights[i];
    AddBoth(multiset(s.received), multiset(s.lost), multiset(s.sent), multiset(s.doubled), multiset(batch));
    assert multiset(s.received + batch) == multiset(s.received) + multiset(batch);
    assert multiset(s.doubled + batch) == multiset(s.doubled) + multiset(batch);
  }

  lemma AddBoth<E>(a: multiset<E>, b: multiset<E>, c: multiset<E>, d: multiset<E>, x: multiset<E>)
    requires a + b == c + d
    ensures (a + x) + b == (c + x) + d && a + (b + x) == (c + x) + d && (a + x) + b == c + (d + x)
  {
    assert (a + x) + b == (a + b) + x;
    assert (c + x) + d == (c + d) + x;
  }

  lemma {:induction false} RunConserves<E>(s: State<E>, es: seq<Event<E>>)
    requires Conserved(s) && Legal(s, es)
    ensures Conserved(After(s, es))
    decreases |es|
  {
    if es != [] {
      ApplyConserves(s, es[0]);
      RunConserves(Apply(s, es[0]), es[1..]);
    }
  }

  /** Over every interleaving of queueing, flushes, successes and failures: the events handed to
      the SDK are those sent, in flight and waiting. */
  lemma QueueConserved<E>(es: seq<Event<E>>)
    requires Legal(Empty<E>(), es)
    ensures Conserved(After(Empty<E>(), es))
  {
    RunConserves(Empty<E>(), es);
  }

  // ----- order --------------------------------------------------------------------------

  /** Sent, in flight and waiting events together are the calls in call order. */
  predicate InOrder<E(==)>(s: State<E>) {
    s.sent + Flat(s.flights) + s.queue == s.calls
  }

  lemma QueueAndFlushKeepOrder<E>(s: State<E>, e: Event<E>)
    requires InOrder(s) && (e.Queue? || e.Flush?)
    ensures InOrder(Apply(s, e))
  {
    if e.Flush? {
      FlatConcat(s.flights, [s.queue]);
      FlatOne(s.queue);
    }
  }

  /** A success keeps the order exactly when its batch commutes with the older ones in flight. */
  lemma ResolveKeepsOrderIff<E>(s: State<E>, i: nat, accepted: bool)
    requires InOrder(s) && i < |s.flights|
    ensures InOrder(Apply(s, Resolve(i, accepted)))
      <==> Flat(s.flights[..i]) + s.flights[i] == s.flights[i] + Flat(s.flights[..i])
  {
    var older, batch, newer := Flat(s.flights[..i]), s.flights[i], Flat(s.flights[i + 1..]);
    FlatAt(s.flights, i);
    assert s.calls == s.sent + (older + batch) + (newer + s.queue);
    assert (s.sent + batch) + (older + newer) + s.queue == s.sent + (batch + older) + (newer + s.queue);
    Middle(s.sent, older + batch, batch + older, newer + s.queue);
  }

  /** A failure keeps the order exactly when its batch commutes with the newer ones in flight. */
  lemma RejectKeepsOrderIff<E>(s: State<E>, i: nat, landed: bool)
    requires InOrder(s) && i < |s.flights|
    ensures InOrder(Apply(s, Reject(i, landed)))
      <==> s.flights[i] + Flat(s.flights[i + 1..]) == Flat(s.flights[i + 1..]) + s.flights[i]
  {
    var older, batch, newer := Flat(s.flights[..i]), s.flights[i], Flat(s.flights[i + 1..]);
    FlatAt(s.flights, i);
    assert s.calls == (s.sent + older) + (batch + newer) + s.queue;
    assert s.sent + (older + newer) + (batch + s.queue) == (s.sent + older) + (newer + batch) + s.queue;
    Middle(s.sent + older, batch + newer, newer + batch, s.queue);
  }

  lemma Middle<E>(a: seq<E>, x: seq<E>, y: seq<E>, b: seq<E>)
    requires |x| == |y|
    ensures a + x + b == a + y + b <==> x == y
  {
    if a + x + b == a + y + b {
      assert (a + x + b)[|a|..|a| + |x|] == x;
      assert (a + y + b)[|a|..|a| + |y|] == y;
    }
  }

  /** At most one flush is in flight after every step. */
  predicate OneAtATime<E>(s: State<E>, es: seq<Event<E>>)
    requires Legal(s, es)
    decreases |es|
  {
    |s.flights| <= 1 && (es == [] || OneAtATime(Apply(s, es[0]), es[1..]))
  }

  lemma {:induction false} OneFlightKeepsOrder<E>(s: State<E>, es: seq<Event<E>>)
    requires InOrder(s) && Legal(s, es) && OneAtATime(s, es)
    ensures InOrder(After(s, es))
    decreases |es|
  {
    if es != [] {
      var e := es[0];
      match e {
        case Queue(_) => QueueAndFlushKeepOrder(s, e);
        case Flush => QueueAndFlushKeepOrder(s, e);
        case Resolve(i, accepted) =>
          assert s.flights[..i] == [];
          ResolveKeepsOrderIff(s, i, accepted);
        case Reject(i, landed) =>
          assert s.flights[i + 1..] == [];
          RejectKeepsOrderIff(s, i, landed);
      }
      OneFlightKeepsOrder(Apply(s, e), es[1..]);
    }
  }

  /** With at most one flush in flight, failures included, the events are sent in call order: what
      was sent is a prefix of the calls. */
  lemma SentInCallOrder<E>(es: seq<Event<E>>)
    requires Legal(Empty<E>(), es) && OneAtATime(Empty<E>(), es)
    ensures InOrder(After(Empty<E>(), es)) && After(Empty<E>(), es).sent <= After(Empty<E>(), es).calls
  {
    OneFlightKeepsOrder(Empty<E>(), es);
    var s := After(Empty<E>(), es);
    assert s.sent + Flat(s.flights) + s.queue == s.sent + (Flat(s.flights) + s.queue);
  }

  // ----- order, for distinct events -----------------------------------------------------------

  predicate NoEmptyFlight<E(==)>(s: State<E>) {
    forall k :: 0 <= k < |s.flights| ==> s.flights[k] != []
  }

  lemma FlatNonEmpty<E>(fs: seq<seq<E>>)
    requires fs != [] && fs[0] != []
    ensures Flat(fs) != [] && Flat(fs)[0] == fs[0][0]
  {
  }

  lemma Uncommon<E>(before: seq<E>, x: seq<E>, y: seq<E>, after: seq<E>)
    requires NoDup(before + x + y + after) && x != [] && y != []
    ensures x + y != y + x
  {
    var all := before + x + y + after;
    assert all[|before|] == x[0] && all[|before| + |x|] == y[0];
    assert (x + y)[0] == x[0] && (y + x)[0] == y[0];
  }

  /** If no event was queued twice, a success keeps the order exactly when it is of the oldest
      batch in flight. */
  lemma OldestSuccessKeepsOrder<E>(s: State<E>, i: nat, accepted: bool)
    requires InOrder(s) && NoEmptyFlight(s) && NoDup(s.calls) && i < |s.flights|
    ensures InOrder(Apply(s, Resolve(i, accepted))) <==> i == 0
  {
    var older, batch, newer := Flat(s.flights[..i]), s.flights[i], Flat(s.flights[i + 1..]);
    ResolveKeepsOrderIff(s, i, accepted);
    if i == 0 {
      assert s.flights[..0] == [] && [] + batch == batch + [];
    } else {
      FlatNonEmpty(s.flights[..i]);
      FlatAt(s.flights, i);
      assert s.calls == s.sent + older + batch + (newer + s.queue);
      Uncommon(s.sent, older, batch, newer + s.queue);
    }
  }

  /** And a failure exactly when it is of the newest. */
  lemma NewestFailureKeepsOrder<E>(s: State<E>, i: nat, landed: bool)
    requires InOrder(s) && NoEmptyFlight(s) && NoDup(s.calls) && i < |s.flights|
    ensures InOrder(Apply(s, Reject(i, landed))) <==> i == |s.flights| - 1
  {
    var older, batch, newer := Flat(s.flights[..i]), s.flights[i], Flat(s.flights[i + 1..]);
    RejectKeepsOrderIff(s, i, landed);
    if i == |s.flights| - 1 {
      assert s.flights[i + 1..] == [] && [] + batch == batch + [];
    } else {
      FlatNonEmpty(s.flights[i + 1..]);
      FlatAt(s.flights, i);
      assert s.calls == (s.sent + older) + batch + newer + s.queue;
      Uncommon(s.sent + older, batch, newer, s.queue);
    }
  }

  predicate AlwaysInOrder<E(==)>(s: State<E>, es: seq<Event<E>>)
    requires Legal(s, es)
    decreases |es|
  {
    InOrder(s) && (es == [] || AlwaysInOrder(Apply(s, es[0]), es[1..]))
  }

  /** Successes are of the oldest batch in flight, failures of the newest. */
  predicate SettlesInTurn<E>(s: State<E>, e: Event<E>) {
    (e.Resolve? ==> e.i == 0) && (e.Reject? ==> e.i + 1 == |s.flights|)
  }

  predicate AllInTurn<E>(s: State<E>, es: seq<Event<E>>)
    requires Legal(s, es)
    decreases |es|
  {
    es == [] || (SettlesInTurn(s, es[0]) && AllInTurn(Apply(s, es[0]), es[1..]))
  }

  lemma {:induction false} CallsOnlyGrow<E>(s: State<E>, es: seq<Event<E>>)
    requires Legal(s, es) && NoDup(After(s, es).calls)
    ensures NoDup(s.calls)
    decreases |es|
  {
    if es != [] {
      CallsOnlyGrow(Apply(s, es[0]), es[1..]);
      assert s.calls <= Apply(s, es[0]).calls;
      forall i, j | 0 <= i < j < |s.calls| ensures s.calls[i] != s.calls[j] {
        assert Apply(s, es[0]).calls[i] != Apply(s, es[0]).calls[j];
      }
    }
  }

  lemma StepInOrderIff<E>(s: State<E>, e: Event<E>)
    requires InOrder(s) && NoEmptyFlight(s) && NoDup(s.calls) && Enabled(s, e)
    ensures InOrder(Apply(s, e)) <==> SettlesInTurn(s, e)
    ensures NoEmptyFlight(Apply(s, e))
  {
    match e
    case Resolve(i, accepted) => OldestSuccessKeepsOrder(s, i, accepted);
    case Reject(i, landed) => NewestFailureKeepsOrder(s, i, landed);
    case _ => QueueAndFlushKeepOrder(s, e);
  }

  lemma {:induction false} OrderKeptFrom<E>(s: State<E>, es: seq<Event<E>>)
    requires Legal(s, es) && InOrder(s) && NoEmptyFlight(s) && NoDup(After(s, es).calls)
    ensures AlwaysInOrder(s, es) <==> AllInTurn(s, es)
    decreases |es|
  {
    if es != [] {
      CallsOnlyGrow(s, es);
      StepInOrderIff(s, es[0]);
      if SettlesInTurn(s, es[0]) {
        OrderKeptFrom(Apply(s, es[0]), es[1..]);
      } else {
        NotInOrder(Apply(s, es[0]), es[1..]);
      }
    }
  }

  lemma NotInOrder<E>(s: State<E>, es: seq<Event<E>>)
    requires Legal(s, es) && !InOrder(s)
    ensures !AlwaysInOrder(s, es)
  {
  }

  /** Over every run in which no event is queued twice: sent, in flight and waiting events are in call
      order at every moment if and only if each success was of the oldest batch in flight and each
      failure of the newest.  Two flushes in flight are what it takes to break this. */
  lemma OrderKeptIff<E>(es: seq<Event<E>>)
    requires Legal(Empty<E>(), es) && NoDup(After(Empty<E>(), es).calls)
    ensures AlwaysInOrder(Empty<E>(), es) <==> AllInTurn(Empty<E>(), es)
  {
    OrderKeptFrom(Empty<E>(), es);
  }

  // ----- rage clicks --------------------------------------------------------------------

  const RAPID_MS := 800

  datatype Click<T> = Click(target: T, at: int)

  datatype Counter<T> = Counter(last: Option<T>, lastAt: int, rapid: nat)

  function Fresh<T>(): Counter<T> {
    Counter(None, 0, 0)
  }

  predicate IsRapid<T(==)>(k: Counter<T>, c: Click<T>) {
    k.last == Some(c.target) && c.at - k.lastAt < RAPID_MS
  }

  /** The counter after a click, and whether the click reports a rage click. */
  function Count<T(==)>(k: Counter<T>, c: Click<T>): (Counter<T>, bool) {
    var rapid := if IsRapid(k, c) then k.rapid + 1 else 1;
    var rage := IsRapid(k, c) && rapid >= 3;
    (Counter(Some(c.target), c.at, if rage then 0 else rapid), rage)
  }

  function CountAll<T(==)>(cs: seq<Click<T>>): Counter<T> {
    if cs == [] then Fresh() else Count(CountAll(cs[..|cs| - 1]), cs[|cs| - 1]).0
  }

  function Rages<T(==)>(cs: seq<Click<T>>): nat {
    if cs == [] then 0
    else Rages(cs[..|cs| - 1]) + (if Count(CountAll(cs[..|cs| - 1]), cs[|cs| - 1]).1 then 1 else 0)
  }

  predicate Follows<T(==)>(a: Click<T>, b: Click<T>) {
    a.target == b.target && b.at - a.at < 800
  }

  /** Length of the run of rapid clicks on one target that ends with the last click. */
  function RunLength<T(==)>(cs: seq<Click<T>>): nat {
    if cs == [] then 0
    else if |cs| > 1 && Follows(cs[|cs| - 2], cs[|cs| - 1]) then RunLength(cs[..|cs| - 1]) + 1
    else 1
  }

  lemma {:induction false} CounterIsRunModThree<T>(cs: seq<Click<T>>)
    requires cs != []
    ensures CountAll(cs).rapid == RunLength(cs) % 3 && CountAll(cs).last == Some(cs[|cs| - 1].target)
      && CountAll(cs).lastAt == cs[|cs| - 1].at
    ensures Count(CountAll(cs[..|cs| - 1]), cs[|cs| - 1]).1 <==> RunLength(cs) % 3 == 0
  {
    var front, c := cs[..|cs| - 1], cs[|cs| - 1];
    if front != [] {
      CounterIsRunModThree(front);
      assert front[|front| - 1] == cs[|cs| - 2];
    }
  }

  /** Clicks from `from` on form one run, which does not continue an earlier one. */
  ghost predicate MaximalRun<T>(cs: seq<Click<T>>, from: nat) {
    && from < |cs| && (from > 0 ==> !Follows(cs[from - 1], cs[from]))
    && forall i :: from < i < |cs| ==> Follows(cs[i - 1], cs[i])
  }

  lemma {:induction false} RunLengthOf<T>(cs: seq<Click<T>>, from: nat)
    requires MaximalRun(cs, from)
    ensures RunLength(cs) == |cs| - from
  {
    if from < |cs| - 1 {
      var front := cs[..|cs| - 1];
      assert Follows(cs[|cs| - 2], cs[|cs| - 1]);
      assert MaximalRun(front, from) by {
        forall i | from < i < |front| ensures Follows(front[i - 1], front[i]) { assert Follows(cs[i - 1], cs[i]); }
      }
      RunLengthOf(front, from);
    }
  }

  /** Whatever was clicked before, a run of m rapid clicks on one target reports m / 3 rage
      clicks, rounded down. */
  lemma {:induction false} RunReportsThirds<T>(cs: seq<Click<T>>, from: nat)
    requires MaximalRun(cs, from)
    ensures Rages(cs) == Rages(cs[..from]) + (|cs| - from) / 3
  {
    var front := cs[..|cs| - 1];
    CounterIsRunModThree(cs);
    RunLengthOf(cs, from);
    if from < |cs| - 1 {
      assert MaximalRun(front, from) by {
        forall i | from < i < |front| ensures Follows(front[i - 1], front[i]) { assert Follows(cs[i - 1], cs[i]); }
      }
      RunReportsThirds(front, from);
      assert front[..from] == cs[..from];
    }
  }

  /** The comment promises 3 clicks within 2 seconds.  Clicks 900 ms apart are that, and are
      not reported. */
  lemma SlowTriplesAreMissed<T>(t: T)
    ensures Rages([Click(t, 0), Click(t, 900), Click(t, 1800)]) == 0
  {
    var a, b, c := Click(t, 0), Click(t, 900), Click(t, 1800);
    assert [a, b, c][..2] == [a, b] && [a, b][..1] == [a] && [a][..0] == [];
    assert CountAll([a]) == Counter(Some(t), 0, 1) && CountAll([a, b]) == Counter(Some(t), 900, 1);
    assert Rages([a]) == 0 && Rages([a, b]) == 0;
  }

  // ----- the script's variables -----------------------------------------------------------

  datatype UserEvent<T> = RageClick(target: T) | PlainClick(target: T) | Other(name: string)

  /** What the click listener queues. */
  function ClickEvents<T>(target: T, rage: bool, interactive: bool): seq<UserEvent<T>> {
    (if rage then [RageClick(target)] else []) + (if interactive then [PlainClick(target)] else [])
  }

  function Queueing<E>(s: State<E>, xs: seq<E>): State<E> {
    s.(calls := s.calls + xs, queue := s.queue + xs)
  }

  class Sdk<T(==)> {
    var eventQueue: seq<UserEvent<T>>
    var lastTarget: Option<T>
    var lastClickTime: int
    var rapidClickCount: nat
    ghost var ledger: State<UserEvent<T>>          // the queue with the requests in flight

    ghost predicate Valid()
      reads this
    {
      ledger.queue == eventQueue && Conserved(ledger)
    }

    constructor ()
      ensures Valid() && ledger == Empty() && View() == Fresh<T>()
    {
      eventQueue, lastTarget, lastClickTime, rapidClickCount, ledger := [], None, 0, 0, Empty();
    }

    function View(): Counter<T>
      reads this
    {
      Counter(lastTarget, lastClickTime, rapidClickCount)
    }

    /** `flushBatch` up to the request; the batch stays with the request until it settles. */
    method BeginFlush() returns (batch: Option<seq<UserEvent<T>>>)
      requires Valid()
      modifies this`eventQueue, this`ledger
      ensures Valid() && ledger == Apply(old(ledger), Flush)
      ensures batch == if old(eventQueue) == [] then None else Some(ledger.flights[|ledger.flights| - 1])
    {
      ApplyConserves(ledger, Flush);
      ledger := Apply(ledger, Flush);
      if eventQueue == [] { return None; }
      batch := Some(eventQueue);
      eventQueue := [];
    }

    /** The rest of `flushBatch` for the request at place i among those in flight; `failed` says
        whether it was rejected. */
    method EndFlush(batch: seq<UserEvent<T>>, failed: bool, ghost i: nat, ghost atServer: bool)
      requires Valid() && i < |ledger.flights| && ledger.flights[i] == batch
      modifies this`eventQueue, this`ledger
      ensures Valid() && ledger == Apply(old(ledger), if failed then Reject(i, atServer) else Resolve(i, atServer))
    {
      if failed {
        ApplyConserves(ledger, Reject(i, atServer));
        ledger := Apply(ledger, Reject(i, atServer));
        eventQueue := batch + eventQueue;
      } else {
        ApplyConserves(ledger, Resolve(i, atServer));
        ledger := Apply(ledger, Resolve(i, atServer));
      }
    }

    method QueueUserEvent(e: UserEvent<T>)
      requires Valid()
      modifies this`eventQueue, this`ledger
      ensures Valid() && ledger == Apply(old(ledger), Queue(e))
    {
      ApplyConserves(ledger, Queue(e));
      ledger := Apply(ledger, Queue(e));
      eventQueue := eventQueue + [e];
    }

    /** The counting part of the click listener. */
    method CountClick(t: T, now: int) returns (rage: bool)
      modifies this`rapidClickCount, this`lastClickTime, this`lastTarget
      ensures (View(), rage) == Count(old(View()), Click(t, now))
    {
      rage := false;
      if lastTarget == Some(t) && now - lastClickTime < RAPID_MS {
        rapidClickCount := rapidClickCount + 1;
        if rapidClickCount >= 3 {
          rage := true;
          rapidClickCount := 0;
        }
      } else {
        rapidClickCount := 1;
      }
      lastClickTime, lastTarget := now, Some(t);
    }

    /** The click listener; an event without target is ignored. */
    method OnClick(target: Option<T>, now: int, interactive: bool)
      requires Valid()
      modifies this
      ensures Valid()
      ensures target.None? ==> View() == old(View()) && ledger == old(ledger)
      ensures target.Some? ==>
        var (k, rage) := Count(old(View()), Click(target.value, now));
        && View() == k && ledger == Queueing(old(ledger), ClickEvents(target.value, rage, interactive))
        && eventQueue == old(eventQueue) + (if rage then [RageClick(target.value)] else [])
                         + (if interactive then [PlainClick(target.value)] else [])
    {
      if target.None? { return; }
      var t := target.value;
      var rage := CountClick(t, now);
      QueueingTwice(ledger, if rage then [RageClick(t)] else [], if interactive then [PlainClick(t)] else []);
      if rage { QueueUserEvent(RageClick(t)); }
      if interactive { QueueUserEvent(PlainClick(t)); }
    }
  }

  lemma QueueingTwice<E>(s: State<E>, xs: seq<E>, ys: seq<E>)
    ensures Queueing(Queueing(s, xs), ys) == Queueing(s, xs + ys)
    ensures Queueing(s, []) == s && Queueing(Queueing(s, xs), []) == Queueing(s, xs)
  {
    assert s.calls + xs + ys == s.calls + (xs + ys) && s.queue + xs + ys == s.queue + (xs + ys);
    assert s.calls + [] == s.calls && s.queue + [] == s.queue;
    assert s.calls + xs + [] == s.calls + xs && s.queue + xs + [] == s.queue + xs;
  }
}
