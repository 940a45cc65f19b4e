/** The life of anomalies: opened, refreshed, escalated, resolved, expired, and mirrored in a
    stored hash from which a restart rebuilds them (world_model/anomaly_registry.py). */
module AnomalyRegistry {
  import opened Wrappers
  import opened Events
  import opened Sorting

  const STALE_THRESHOLD_S := 600

  datatype Status = Open | Resolved

  datatype Anomaly = Anomaly(
    anomalyId: string, entityId: string, eventType: string, severity: Severity, confidence: real,
    openedAt: int, lastSeenAt: int, resolvedAt: Option<int>, status: Status, details: string)

  datatype Entry = Entry(key: string, value: Anomaly)

  /** `ids` supplies the fresh anomaly ids, one per entity reference. */
  datatype Event = Event(
    severity: Severity, eventType: string, ts: int, entityRefs: seq<string>, confidence: real,
    payload: string, ids: string -> string)

  /** The in-memory map, in insertion order, and its stored copy. */
  datatype Registry = Registry(open: seq<Entry>, stored: map<string, Anomaly>)

  function KeyOf(entityId: string, eventType: string): string {
    entityId + ":" + eventType
  }

  function Find(open: seq<Entry>, key: string): nat
    ensures Find(open, key) <= |open|
    ensures Find(open, key) < |open| ==> open[Find(open, key)].key == key
  {
    if open == [] || open[0].key == key then 0 else 1 + Find(open[1..], key)
  }

  predicate HasKey(open: seq<Entry>, key: string) {
    Find(open, key) < |open|
  }

  // ----- opening and refreshing ---------------------------------------------------

  function NewAnomaly(e: Event, entityId: string): Anomaly {
    Anomaly(e.ids(entityId), entityId, e.eventType, e.severity, e.confidence, e.ts, e.ts, None, Open, e.payload)
  }

  function Refreshed(a: Anomaly, e: Event): Anomaly {
    a.(lastSeenAt := e.ts, confidence := e.confidence,
       severity := if e.severity.Rank() < a.severity.Rank() then e.severity else a.severity)
  }

  /** Comparing severities raises, after last_seen_at has been written and before the save. */
  predicate Raises(r: Registry, e: Event, entityId: string) {
    var i := Find(r.open, KeyOf(entityId, e.eventType));
    i < |r.open| && (e.severity.Unknown? || r.open[i].value.severity.Unknown?)
  }

  function Touch(r: Registry, e: Event, entityId: string): Registry {
    var key := KeyOf(entityId, e.eventType);
    var i := Find(r.open, key);
    if i == |r.open| then
      var a := NewAnomaly(e, entityId);
      Registry(r.open + [Entry(key, a)], r.stored[key := a])
    else if Raises(r, e, entityId) then
      r.(open := r.open[i := Entry(key, r.open[i].value.(lastSeenAt := e.ts))])
    else
      var a := Refreshed(r.open[i].value, e);
      Registry(r.open[i := Entry(key, a)], r.stored[key := a])
  }

  function TouchAll(r: Registry, e: Event, refs: seq<string>): (Registry, bool)
    decreases |refs|
  {
    if refs == [] then (r, true)
    else if Raises(r, e, refs[0]) then (Touch(r, e, refs[0]), false)
    else TouchAll(Touch(r, e, refs[0]), e, refs[1..])
  }

  // ----- closing --------------------------------------------------------------------

  datatype Reason = ByEntity(entityId: string) | Stale(now: int)

  /** Keys are matched by raw prefix. */
  predicate Closes(why: Reason, en: Entry) {
    match why
    case ByEntity(entityId) => entityId <= en.key
    case Stale(now) => now - en.value.lastSeenAt > STALE_THRESHOLD_S
  }

  function ClosedCopy(a: Anomaly, ts: int): Anomaly {
    a.(status := Resolved, resolvedAt := Some(ts))
  }

  function Kept(open: seq<Entry>, why: Reason): seq<Entry> {
    if open == [] then []
    else Kept(open[..|open| - 1], why) + (if Closes(why, open[|open| - 1]) then [] else [open[|open| - 1]])
  }

  function Written(stored: map<string, Anomaly>, open: seq<Entry>, why: Reason, ts: int): map<string, Anomaly> {
    if open == [] then stored
    else
      var front := Written(stored, open[..|open| - 1], why, ts);
      var last := open[|open| - 1];
      if Closes(why, last) then front[last.key := ClosedCopy(last.value, ts)] else front
  }

  function Close(r: Registry, why: Reason, ts: int): Registry {
    Registry(Kept(r.open, why), Written(r.stored, r.open, why, ts))
  }

  function CloseEntities(r: Registry, refs: seq<string>, ts: int): Registry
    decreases |refs|
  {
    if refs == [] then r else CloseEntities(Close(r, ByEntity(refs[0]), ts), refs[1..], ts)
  }

  function Process(r: Registry, e: Event): (Registry, bool) {
    if IsResolution(e.eventType) then (CloseEntities(r, e.entityRefs, e.ts), true)
    else if e.severity.Info? then (r, true)
    else TouchAll(r, e, e.entityRefs)
  }

  // ----- the object ------------------------------------------------------------------

  class Tracker {
    var open: seq<Entry>
    var stored: map<string, Anomaly>

    function View(): Registry
      reads this
    {
      Registry(open, stored)
    }

    constructor (hash: map<string, Anomaly>)
      ensures open == [] && stored == hash
    {
      open, stored := [], hash;
    }

    /** Returns false where the call raises. */
    method ProcessEvent(e: Event) returns (ok: bool)
      modifies this
      ensures (View(), ok) == Process(old(View()), e)
    {
      var i := 0;
      if IsResolution(e.eventType) {
        while i < |e.entityRefs|
          invariant 0 <= i <= |e.entityRefs|
          invariant CloseEntities(old(View()), e.entityRefs, e.ts) == CloseEntities(View(), e.entityRefs[i..], e.ts)
        {
          assert e.entityRefs[i..][1..] == e.entityRefs[i + 1..];
          CloseAll(ByEntity(e.entityRefs[i]), e.ts);
          i := i + 1;
        }
        return true;
      }
      if e.severity.Info? { return true; }
      while i < |e.entityRefs|
        invariant 0 <= i <= |e.entityRefs|
        invariant TouchAll(old(View()), e, e.entityRefs) == TouchAll(View(), e, e.entityRefs[i..])
      {
        assert e.entityRefs[i..][1..] == e.entityRefs[i + 1..];
        var entityId := e.entityRefs[i];
        var key := KeyOf(entityId, e.eventType);
        var at := Find(open, key);
        if at < |open| {
          var a := open[at].value.(lastSeenAt := e.ts);
          if e.severity.Unknown? || a.severity.Unknown? {
            open := open[at := Entry(key, a)];
            return false;
          }
          if e.severity.Rank() < a.severity.Rank() { a := a.(severity := e.severity); }
          a := a.(confidence := e.confidence);
          open := open[at := Entry(key, a)];
          stored := stored[key := a];
        } else {
          var a := NewAnomaly(e, entityId);
          open := open + [Entry(key, a)];
          stored := stored[key := a];
        }
        i := i + 1;
      }
      return true;
    }

    /** Pops the selected entries, marks them resolved and saves them. */
    method CloseAll(why: Reason, ts: int)
      modifies this
      ensures View() == Close(old(View()), why, ts)
    {
      var kept: seq<Entry> := [];
      var i := 0;
      while i < |open|
        invariant 0 <= i <= |open| && open == old(open)
        invariant kept == Kept(open[..i], why) && stored == Written(old(stored), open[..i], why, ts)
      {
        assert open[..i + 1][..i] == open[..i];
        if Closes(why, open[i]) {
          stored := stored[open[i].key := ClosedCopy(open[i].value, ts)];
        } else {
          kept := kept + [open[i]];
        }
        i := i + 1;
      }
      assert open[..i] == open;
      open := kept;
    }

    method ExpireStale(now: int)
      modifies this
      ensures View() == Close(old(View()), Stale(now), now)
    {
      CloseAll(Stale(now), now);
    }

    /** `count_by_severity`. */
    method CountBySeverity() returns (counts: map<Severity, nat>)
      ensures forall s :: (s in counts <==> Count(open, s) > 0) && (s in counts ==> counts[s] == Count(open, s))
    {
      counts := map[];
      var i := 0;
      while i < |open|
        invariant 0 <= i <= |open|
        invariant forall s ::
          && (s in counts <==> Count(open[..i], s) > 0)
          && (s in counts ==> counts[s] == Count(open[..i], s))
      {
        assert open[..i + 1][..i] == open[..i];
        var s := open[i].value.severity;
        counts := counts[s := (if s in counts then counts[s] else 0) + 1];
        i := i + 1;
      }
      assert open[..i] == open;
    }
  }

  function Count(open: seq<Entry>, s: Severity): nat {
    if open == [] then 0
    else Count(open[..|open| - 1], s) + (if open[|open| - 1].value.severity == s then 1 else 0)
  }

  ghost predicate AllKnown(open: seq<Entry>) {
    forall i :: 0 <= i < |open| ==> !open[i].value.severity.Unknown? && !open[i].value.severity.Info?
  }

  /** The severity counts add up to the number of open anomalies. */
  lemma {:induction false} CountsSum(open: seq<Entry>)
    requires AllKnown(open)
    ensures Count(open, Critical) + Count(open, High) + Count(open, Medium) + Count(open, Low) == |open|
  {
    if open != [] { CountsSum(open[..|open| - 1]); }
  }

  // ----- get_open -----------------------------------------------------------------------

  function BySeverity(open: seq<Entry>): seq<(real, Anomaly)> {
    seq(|open|, i requires 0 <= i < |open| => (open[i].value.severity.Rank() as real, open[i].value))
  }

  /** None where it raises: the key of an unknown severity cannot be looked up. */
  function GetOpen(r: Registry): Option<seq<Anomaly>> {
    if exists i :: 0 <= i < |r.open| && r.open[i].value.severity.Unknown? then None
    else Some(Items(Sort(BySeverity(r.open))))
  }

  function Values(open: seq<Entry>): seq<Anomaly> {
    seq(|open|, i requires 0 <= i < |open| => open[i].value)
  }

  function OfSeverity(xs: seq<Anomaly>, rank: nat): seq<Anomaly> {
    if xs == [] then []
    else OfSeverity(xs[..|xs| - 1], rank) + (if xs[|xs| - 1].severity.Rank() == rank then [xs[|xs| - 1]] else [])
  }

  ghost predicate KeyedBySeverity(xs: seq<(real, Anomaly)>) {
    forall i :: 0 <= i < |xs| ==> xs[i].0 == xs[i].1.severity.Rank() as real
  }

  lemma {:induction false} WithKeyIsOfSeverity(xs: seq<(real, Anomaly)>, rank: nat)
    requires KeyedBySeverity(xs)
    ensures OfSeverity(Items(xs), rank) == Items(WithKey(xs, rank as real))
  {
    if xs != [] {
      WithKeyIsOfSeverity(xs[..|xs| - 1], rank);
      assert Items(xs)[..|xs| - 1] == Items(xs[..|xs| - 1]);
    }
  }

  /** Severity b is critical only if a is, high only if a is high or critical, and so on. */
  predicate NotWorse(b: Severity, a: Severity) {
    && (b.Critical? ==> a.Critical?)
    && (b.High? ==> a.Critical? || a.High?)
    && (b.Medium? ==> a.Critical? || a.High? || a.Medium?)
    && (b.Low? ==> a.Critical? || a.High? || a.Medium? || a.Low?)
  }

  /** `get_open` raises exactly if an open severity is unknown.  Otherwise it lists the open
      anomalies, worst first, equal severities in order of opening. */
  lemma GetOpenSpec(r: Registry, rank: nat)
    ensures GetOpen(r).None? <==> exists a :: a in Values(r.open) && a.severity.Unknown?
    ensures GetOpen(r).Some? ==>
      var xs := GetOpen(r).value;
      && |xs| == |r.open|
      && (forall i, j :: 0 <= i < j < |xs| ==> NotWorse(xs[j].severity, xs[i].severity))
      && OfSeverity(xs, rank) == OfSeverity(Values(r.open), rank)
      && (forall a :: a in xs <==> a in Values(r.open))
  {
    var d, s := BySeverity(r.open), Sort(BySeverity(r.open));
    SortSpec(d, rank as real);
    SortedIsKeyed(r.open);
    WithKeyIsOfSeverity(s, rank);
    WithKeyIsOfSeverity(d, rank);
    assert Items(d) == Values(r.open);
    forall i, j | 0 <= i < j < |s| ensures NotWorse(s[j].1.severity, s[i].1.severity) {
      assert s[i].0 <= s[j].0;
    }
    forall a ensures a in Items(s) <==> a in Values(r.open) { SortedMembers(r.open, a); }
    if i :| 0 <= i < |r.open| && r.open[i].value.severity.Unknown? { assert Values(r.open)[i] in Values(r.open); }
  }

  lemma SortedIsKeyed(open: seq<Entry>)
    ensures KeyedBySeverity(Sort(BySeverity(open)))
  {
    var d := BySeverity(open);
    forall i | 0 <= i < |Sort(d)| ensures Sort(d)[i].0 == Sort(d)[i].1.severity.Rank() as real {
      SortMembers(d, Sort(d)[i]);
    }
  }

  lemma SortedMembers(open: seq<Entry>, a: Anomaly)
    ensures a in Items(Sort(BySeverity(open))) <==> a in Values(open)
  {
    var d, item := BySeverity(open), (a.severity.Rank() as real, a);
    var s := Sort(d);
    SortMembers(d, item);
    SortedIsKeyed(open);
    if i :| 0 <= i < |s| && Items(s)[i] == a { assert s[i] == item; }
    if i :| 0 <= i < |s| && s[i] == item { assert Items(s)[i] == a; }
    if k :| 0 <= k < |d| && d[k] == item { assert Values(open)[k] == a; }
    if k :| 0 <= k < |open| && Values(open)[k] == a { assert d[k] == item; }
  }
}
