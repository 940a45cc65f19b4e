/** Entity health as the registry keeps it, and the exact law it follows
    (world_model/entity_registry.py). */
module EntityRegistry {
  import opened Wrappers
  import opened Events

  datatype Health = Healthy | Degraded | CriticalHealth | UnknownHealth

  datatype Temporal = Temporal(value: Option<real>, rate: Option<real>, trend: string, deviation: Option<real>)

  datatype EntityState = EntityState(
    entityId: string, health: Health, lastSeen: int, lastEventType: string, lastSeverity: Severity,
    score: nat, confidence: real, temporal: Temporal, meta: string)

  datatype Event = Event(
    severity: Severity, eventType: string, ts: int, entityRefs: seq<string>, confidence: real, payload: string)

  function SeverityToHealth(severity: Severity, eventType: string): Health {
    if IsResolution(eventType) then Healthy
    else match severity
      case Critical => CriticalHealth
      case High => Degraded
      case Medium => Degraded
      case Low => Healthy
      case Info => Healthy
      case Unknown(_) => UnknownHealth
  }

  type Store = map<string, EntityState>

  function Lookup(store: Store, id: string): Option<EntityState> {
    if id in store then Some(store[id]) else None
  }

  /** The new state of one referenced entity. */
  function Updated(existing: Option<EntityState>, e: Event, id: string): EntityState {
    var mapped := SeverityToHealth(e.severity, e.eventType);
    var health :=
      if existing.Some? && existing.value.score > e.severity.Score() && !IsResolution(e.eventType)
      then existing.value.health else mapped;
    var temporal := if existing.Some? then existing.value.temporal else Temporal(None, None, "stable", None);
    EntityState(id, health, e.ts, e.eventType, e.severity, e.severity.Score(), e.confidence, temporal, e.payload)
  }

  function UpsertAll(store: Store, e: Event, refs: seq<string>): Store
    decreases |refs|
  {
    if refs == [] then store
    else UpsertAll(store[refs[0] := Updated(Lookup(store, refs[0]), e, refs[0])], e, refs[1..])
  }

  function WithTemporal(store: Store, id: string, t: Temporal): Store {
    if id in store then store[id := store[id].(temporal := t)] else store
  }

  class Registry {
    var store: Store
    var saved: Store

    constructor ()
      ensures store == map[] && saved == map[]
    {
      store, saved := map[], map[];
    }

    /** Every write goes to both copies. */
    method UpsertFromEvent(e: Event)
      requires store == saved
      modifies this
      ensures store == UpsertAll(old(store), e, e.entityRefs) && store == saved
    {
      var i := 0;
      while i < |e.entityRefs|
        invariant 0 <= i <= |e.entityRefs| && store == saved
        invariant UpsertAll(old(store), e, e.entityRefs) == UpsertAll(store, e, e.entityRefs[i..])
      {
        assert e.entityRefs[i..][1..] == e.entityRefs[i + 1..];
        var id := e.entityRefs[i];
        var health := SeverityToHealth(e.severity, e.eventType);
        var temporal := Temporal(None, None, "stable", None);
        if id in store {
          temporal := store[id].temporal;
          if store[id].score > e.severity.Score() && !IsResolution(e.eventType) {
            health := store[id].health;
          }
        }
        var state := EntityState(id, health, e.ts, e.eventType, e.severity, e.severity.Score(), e.confidence, temporal,
          e.payload);
        store := store[id := state];
        saved := saved[id := state];
        i := i + 1;
      }
    }

    method UpdateTemporal(id: string, t: Temporal)
      requires store == saved
      modifies this
      ensures store == WithTemporal(old(store), id, t) && store == saved
    {
      if id !in store { return; }
      store := store[id := store[id].(temporal := t)];
      saved := saved[id := store[id]];
    }
  }

  // ----- the law --------------------------------------------------------------------

  datatype Op = Upsert(e: Event) | Measure(id: string, t: Temporal)

  function Perform(store: Store, op: Op): Store {
    match op
    case Upsert(e) => UpsertAll(store, e, e.entityRefs)
    case Measure(id, t) => WithTemporal(store, id, t)
  }

  function PerformAll(store: Store, ops: seq<Op>): Store
    decreases |ops|
  {
    if ops == [] then store else PerformAll(Perform(store, ops[0]), ops[1..])
  }

  function HitsIn(id: string, e: Event, refs: seq<string>): seq<Event>
    decreases |refs|
  {
    if refs == [] then []
    else (if refs[0] == id then [e] else []) + HitsIn(id, e, refs[1..])
  }

  /** The events of one entity, once per reference, in order. */
  function Hits(id: string, ops: seq<Op>): seq<Event>
    decreases |ops|
  {
    if ops == [] then [] else HitsOf(id, ops[0]) + Hits(id, ops[1..])
  }

  function HitsOf(id: string, op: Op): seq<Event> {
    match op
    case Upsert(e) => HitsIn(id, e, e.entityRefs)
    case Measure(_, _) => []
  }

  /** Hit i is unresolved and strictly lower than the hit before it. */
  predicate Falls(hits: seq<Event>, i: nat)
    requires 0 < i < |hits|
  {
    !IsResolution(hits[i].eventType) && hits[i].severity.Score() < hits[i - 1].severity.Score()
  }

  /** `a` starts the maximal suffix in which every later hit falls. */
  ghost predicate Anchor(hits: seq<Event>, a: nat) {
    && a < |hits|
    && (forall i :: a < i < |hits| ==> Falls(hits, i))
    && (a > 0 ==> !Falls(hits, a))
  }

  function AnchorOf(hits: seq<Event>): nat
    requires hits != []
    ensures AnchorOf(hits) < |hits|
  {
    var n := |hits|;
    if n > 1 && Falls(hits, n - 1) then AnchorOf(hits[..n - 1]) else n - 1
  }

  lemma {:induction false} AnchorOfSpec(hits: seq<Event>)
    requires hits != []
    ensures Anchor(hits, AnchorOf(hits)) && forall b: nat :: Anchor(hits, b) ==> b == AnchorOf(hits)
  {
    var n, a := |hits|, AnchorOf(hits);
    if n > 1 && Falls(hits, n - 1) {
      var front := hits[..n - 1];
      AnchorOfSpec(front);
      forall i | 0 < i < n - 1 ensures Falls(hits, i) == Falls(front, i) { }
    }
    forall b: nat | Anchor(hits, b) ensures b == a { AnchorUnique(hits, a, b); }
  }

  lemma AnchorUnique(hits: seq<Event>, a: nat, b: nat)
    requires Anchor(hits, a) && Anchor(hits, b)
    ensures a == b
  {
  }

  ghost predicate Lawful(store: Store, id: string, hits: seq<Event>, t: Temporal) {
    (id in store <==> hits != []) && (hits != [] ==> store[id] == StateAfter(id, hits, t))
      && (hits == [] ==> t == NoTrend())
  }

  function NoTrend(): Temporal {
    Temporal(None, None, "stable", None)
  }

  /** The verdict of the anchor; everything else from the last event, but for the temporal fields. */
  function StateAfter(id: string, hits: seq<Event>, t: Temporal): EntityState
    requires hits != []
  {
    var anchor, last := hits[AnchorOf(hits)], hits[|hits| - 1];
    EntityState(id, SeverityToHealth(anchor.severity, anchor.eventType), last.ts, last.eventType, last.severity,
                last.severity.Score(), last.confidence, t, last.payload)
  }

  /** The temporal fields: those last written while the entity was known. */
  function TrendOf(id: string, op: Op, known: bool, t: Temporal): Temporal {
    if op.Measure? && op.id == id && known then op.t else t
  }

  function Trend(id: string, ops: seq<Op>, known: bool, t: Temporal): Temporal
    decreases |ops|
  {
    if ops == [] then t
    else Trend(id, ops[1..], known || HitsOf(id, ops[0]) != [], TrendOf(id, ops[0], known, t))
  }

  lemma HitKeepsLaw(store: Store, e: Event, id: string, hits: seq<Event>, t: Temporal)
    requires Lawful(store, id, hits, t)
    ensures Lawful(store[id := Updated(Lookup(store, id), e, id)], id, hits + [e], t)
  {
    var all := hits + [e];
    assert all[..|hits|] == hits;
  }

  lemma {:induction false} UpsertKeepsLaw(store: Store, e: Event, refs: seq<string>, id: string, hits: seq<Event>,
      t: Temporal)
    requires Lawful(store, id, hits, t)
    ensures Lawful(UpsertAll(store, e, refs), id, hits + HitsIn(id, e, refs), t)
    decreases |refs|
  {
    if refs == [] {
      assert hits + [] == hits;
    } else {
      var store' := store[refs[0] := Updated(Lookup(store, refs[0]), e, refs[0])];
      if refs[0] == id {
        HitKeepsLaw(store, e, id, hits, t);
        UpsertKeepsLaw(store', e, refs[1..], id, hits + [e], t);
        assert hits + HitsIn(id, e, refs) == hits + [e] + HitsIn(id, e, refs[1..]);
      } else {
        UpsertKeepsLaw(store', e, refs[1..], id, hits, t);
        assert HitsIn(id, e, refs) == HitsIn(id, e, refs[1..]);
      }
    }
  }

  lemma PerformKeepsLaw(store: Store, op: Op, id: string, hits: seq<Event>, t: Temporal)
    requires Lawful(store, id, hits, t)
    ensures Lawful(Perform(store, op), id, hits + HitsOf(id, op), TrendOf(id, op, hits != [], t))
  {
    match op
    case Upsert(e) => UpsertKeepsLaw(store, e, e.entityRefs, id, hits, t);
    case Measure(_, _) => assert hits + [] == hits;
  }

  lemma {:induction false} RunKeepsLaw(store: Store, ops: seq<Op>, id: string, hits: seq<Event>, t: Temporal)
    requires Lawful(store, id, hits, t)
    ensures Lawful(PerformAll(store, ops), id, hits + Hits(id, ops), Trend(id, ops, hits != [], t))
    decreases |ops|
  {
    if ops == [] {
      assert hits + [] == hits;
    } else {
      PerformKeepsLaw(store, ops[0], id, hits, t);
      RunKeepsLaw(Perform(store, ops[0]), ops[1..], id, hits + HitsOf(id, ops[0]), TrendOf(id, ops[0], hits != [], t));
      Regroup(hits, HitsOf(id, ops[0]), Hits(id, ops[1..]));
    }
  }

  lemma Regroup(a: seq<Event>, b: seq<Event>, c: seq<Event>)
    ensures a + b + c == a + (b + c)
  {
  }

  lemma {:induction false} FallingScores(hits: seq<Event>, a: nat, i: nat)
    requires Anchor(hits, a) && a <= i < |hits|
    ensures hits[i].severity.Score() + (i - a) <= hits[a].severity.Score()
    decreases i
  {
    if i > a {
      FallingScores(hits, a, i - 1);
      assert Falls(hits, i);
    }
  }

  lemma AnchorIsThat(hits: seq<Event>, a: nat)
    requires Anchor(hits, a)
    ensures a == AnchorOf(hits)
  {
    AnchorOfSpec(hits);
  }

  lemma AnchorIsNear(hits: seq<Event>, a: nat)
    requires Anchor(hits, a)
    ensures |hits| - 1 - a <= 4
  {
    var n := |hits| - 1;
    ScoreRange(hits[a].severity);
    ScoreRange(hits[n].severity);
    assert hits[n].severity.Score() + (n - a) <= hits[a].severity.Score() by { FallingScores(hits, a, n); }
  }

  lemma ScoreRange(s: Severity)
    ensures 1 <= s.Score() <= 5
  {
  }

  lemma RunFromEmpty(ops: seq<Op>, id: string)
    ensures Lawful(PerformAll(map[], ops), id, Hits(id, ops), Trend(id, ops, false, NoTrend()))
  {
    RunKeepsLaw(map[], ops, id, [], NoTrend());
    assert [] + Hits(id, ops) == Hits(id, ops);
  }

  /** After any sequence of events and temporal updates, an entity's health is the verdict of the
      first event of the maximal suffix in which every later event is unresolved and strictly lower
      in score than its predecessor; so a verdict outlives its event by at most four others.  The
      temporal fields are those last measured while the entity was known, and all other fields
      are the last event's. */
  lemma HealthLaw(ops: seq<Op>, id: string, a: nat)
    requires Anchor(Hits(id, ops), a)
    ensures var hits, store := Hits(id, ops), PerformAll(map[], ops);
      && id in store && store[id].health == SeverityToHealth(hits[a].severity, hits[a].eventType)
      && |hits| - 1 - a <= 4
      && store[id] == StateAfter(id, hits, Trend(id, ops, false, NoTrend()))
  {
    RunFromEmpty(ops, id);
    AnchorIsThat(Hits(id, ops), a);
    AnchorIsNear(Hits(id, ops), a);
  }

  /** After any history whose last event for an entity is resolved or restored, it is healthy. */
  lemma ResolvedIsHealthy(ops: seq<Op>, id: string, base: string)
    requires Hits(id, ops) != []
    requires var last := Hits(id, ops)[|Hits(id, ops)| - 1].eventType;
      last == base + "_resolved" || last == base + "_restored"
    ensures var store := PerformAll(map[], ops); id in store && store[id].health == Healthy
  {
    var hits := Hits(id, ops);
    ResolutionIff(hits[|hits| - 1].eventType);
    AnchorOfSpec(hits);
    HealthLaw(ops, id, AnchorOf(hits));
  }

  /** Otherwise its health tells the severity of the event it dates from, exactly. */
  lemma HealthTellsSeverity(ops: seq<Op>, id: string, a: nat)
    requires Anchor(Hits(id, ops), a) && !IsResolution(Hits(id, ops)[a].eventType)
    ensures var severity, store := Hits(id, ops)[a].severity, PerformAll(map[], ops);
      && id in store
      && (store[id].health == CriticalHealth <==> severity == Critical)
      && (store[id].health == Degraded <==> severity == High || severity == Medium)
      && (store[id].health == Healthy <==> severity == Low || severity == Info)
      && (store[id].health == UnknownHealth <==> severity.Unknown?)
  {
    HealthLaw(ops, id, a);
  }

  /** Health a is strictly better than health b; an unknown one compares with none. */
  predicate Better(a: Health, b: Health) {
    (a.Healthy? && (b.Degraded? || b.CriticalHealth?)) || (a.Degraded? && b.CriticalHealth?)
  }

  lemma {:induction false} HitsAreThat(id: string, e: Event, refs: seq<string>)
    ensures forall i :: 0 <= i < |HitsIn(id, e, refs)| ==> HitsIn(id, e, refs)[i] == e
  {
    if refs != [] { HitsAreThat(id, e, refs[1..]); }
  }

  lemma AnchorOfPushed(hits: seq<Event>, e: Event, more: seq<Event>)
    requires hits != [] && more != [] && forall i :: 0 <= i < |more| ==> more[i] == e
    ensures var all := hits + more;
      all[AnchorOf(all)] ==
      if |more| == 1 && !IsResolution(e.eventType) && e.severity.Score() < hits[|hits| - 1].severity.Score()
      then hits[AnchorOf(hits)] else e
  {
    var all, n := hits + more, |hits + more| - 1;
    assert all[n] == e;
    if |more| == 1 { assert all[..n] == hits; } else { assert all[n - 1] == e; }
  }

  /** After any history, an event that is no resolution silently improves the health of a known entity
      if and only if its own verdict is better than the one held, and it does not fall below the
      last event of the entity or names the entity twice. */
  lemma SilentUpgradeIff(ops: seq<Op>, e: Event, id: string)
    requires Hits(id, ops) != [] && HitsOf(id, Upsert(e)) != [] && !IsResolution(e.eventType)
    ensures var hits, before := Hits(id, ops), PerformAll(map[], ops);
      var after := Perform(before, Upsert(e));
      && id in before && id in after
      && (Better(after[id].health, before[id].health) <==>
            && Better(SeverityToHealth(e.severity, e.eventType), before[id].health)
            && (e.severity.Score() >= hits[|hits| - 1].severity.Score() || |HitsOf(id, Upsert(e))| > 1))
  {
    RunFromEmpty(ops, id);
    PerformKeepsLaw(PerformAll(map[], ops), Upsert(e), id, Hits(id, ops), Trend(id, ops, false, NoTrend()));
    HitsAreThat(id, e, e.entityRefs);
    AnchorOfPushed(Hits(id, ops), e, HitsOf(id, Upsert(e)));
  }

  /** The registry's comment promises that health is never upgraded without a resolution; the
      third of these events does it, since the second lowered the score the ratchet compares. */
  lemma SilentUpgrade(ts: int)
    ensures var e := (s: Severity) => Event(s, "cpu_spike", ts, ["svc:api"], 1.0, "");
      var two, three := PerformAll(map[], [Upsert(e(Critical)), Upsert(e(High))]),
                        PerformAll(map[], [Upsert(e(Critical)), Upsert(e(High)), Upsert(e(High))]);
      && "svc:api" in two && two["svc:api"].health == CriticalHealth
      && "svc:api" in three && three["svc:api"].health == Degraded
  {
    var e := (s: Severity) => Event(s, "cpu_spike", ts, ["svc:api"], 1.0, "");
    var id := "svc:api";
    var first := Upsert(e(Critical));
    var next := Upsert(e(High));
    OneRef(map[], e(Critical), id);
    var s1 := Perform(map[], first);
    OneRef(s1, e(High), id);
    var s2 := Perform(s1, next);
    OneRef(s2, e(High), id);
    assert [first, next][1..] == [next] && [next][1..] == [];
    assert [first, next, next][1..] == [next, next] && [next, next][1..] == [next];
    assert PerformAll(map[], [first, next]) == PerformAll(s1, [next]) == PerformAll(s2, []) == s2;
    assert PerformAll(map[], [first, next, next]) == PerformAll(s1, [next, next]) == PerformAll(s2, [next]);
    assert PerformAll(s2, [next]) == PerformAll(Perform(s2, next), []);
  }

  lemma OneRef(store: Store, e: Event, id: string)
    requires e.entityRefs == [id]
    ensures Perform(store, Upsert(e)) == store[id := Updated(Lookup(store, id), e, id)]
  {
    var store' := store[id := Updated(Lookup(store, id), e, id)];
    assert e.entityRefs[1..] == [];
    assert UpsertAll(store', e, []) == store';
  }
}
