/** Over any sequence of operations with known severities the stored copy and the open map stay
    in step, and each key lives exactly the life its own events prescribe. */
module AnomalyLaws {
  import opened Wrappers
  import opened Events
  import opened AnomalyRegistry

  ghost predicate UniqueKeys(open: seq<Entry>) {
    forall i, j :: 0 <= i < j < |open| ==> open[i].key != open[j].key
  }

  /** `open` is what `_load_from_redis` may build, in the order the hash is returned. */
  ghost predicate IsReload(stored: map<string, Anomaly>, open: seq<Entry>) {
    && UniqueKeys(open)
    && (forall en :: en in open ==> en.key in stored && stored[en.key] == en.value && en.value.status.Open?)
    && (forall k :: k in stored && stored[k].status.Open? ==> HasKey(open, k))
  }

  ghost predicate InStep(r: Registry) {
    IsReload(r.stored, r.open)
  }

  /** The key of an entry is built from its entity and event type. */
  ghost predicate KeysOk(open: seq<Entry>) {
    forall i :: 0 <= i < |open| ==> open[i].key == KeyOf(open[i].value.entityId, open[i].value.eventType)
  }

  ghost predicate EntryOk(en: Entry) {
    && en.key == KeyOf(en.value.entityId, en.value.eventType)
    && !en.value.severity.Unknown? && !en.value.severity.Info?
  }

  ghost predicate Good(r: Registry) {
    InStep(r) && AllKnown(r.open) && KeysOk(r.open)
  }

  lemma {:induction false} FindSpec(open: seq<Entry>, k: string)
    ensures HasKey(open, k) <==> exists i :: 0 <= i < |open| && open[i].key == k
    ensures forall i :: 0 <= i < Find(open, k) ==> open[i].key != k
  {
    if open != [] && open[0].key != k {
      FindSpec(open[1..], k);
      if i :| 0 <= i < |open| && open[i].key == k { assert open[1..][i - 1].key == k; }
      forall i | 0 <= i < Find(open, k) ensures open[i].key != k {
        if i > 0 { assert open[i] == open[1..][i - 1]; }
      }
    }
  }

  /** A restart rebuilds the same registry: any reload has exactly the open entries. */
  lemma ReloadIsSame(r: Registry, open: seq<Entry>, en: Entry)
    requires InStep(r) && IsReload(r.stored, open)
    ensures en in open <==> en in r.open
  {
    FindSpec(open, en.key);
    FindSpec(r.open, en.key);
    if en in open { assert HasKey(r.open, en.key); assert r.open[Find(r.open, en.key)] in r.open; }
    if en in r.open { assert HasKey(open, en.key); assert open[Find(open, en.key)] in open; }
  }

  // ----- closing -----------------------------------------------------------------------

  lemma {:induction false} KeptMembers(open: seq<Entry>, why: Reason)
    ensures forall en :: en in Kept(open, why) <==> en in open && !Closes(why, en)
    ensures UniqueKeys(open) ==> UniqueKeys(Kept(open, why))
  {
    if open != [] {
      var front, last := open[..|open| - 1], open[|open| - 1];
      assert open == front + [last];
      KeptMembers(front, why);
      if UniqueKeys(open) {
        forall i | 0 <= i < |Kept(front, why)| ensures Kept(front, why)[i].key != last.key {
          assert Kept(front, why)[i] in front;
        }
      }
    }
  }

  lemma {:induction false} WrittenAt(stored: map<string, Anomaly>, open: seq<Entry>, why: Reason, ts: int, k: string)
    requires UniqueKeys(open)
    ensures var after := Written(stored, open, why, ts);
      if HasKey(open, k) && Closes(why, open[Find(open, k)])
      then k in after && after[k] == ClosedCopy(open[Find(open, k)].value, ts)
      else (k in after <==> k in stored) && (k in after ==> after[k] == stored[k])
  {
    if open != [] {
      var front, last := open[..|open| - 1], open[|open| - 1];
      WrittenAt(stored, front, why, ts, k);
      FindSpec(open, k);
      FindSpec(front, k);
      if HasKey(open, k) {
        assert last.key == k ==> Find(open, k) == |open| - 1;
        assert last.key != k ==> front[Find(open, k)].key == k && Find(front, k) == Find(open, k);
      }
    }
  }

  lemma KeptFind(open: seq<Entry>, why: Reason, k: string)
    requires UniqueKeys(open)
    ensures HasKey(Kept(open, why), k) <==> HasKey(open, k) && !Closes(why, open[Find(open, k)])
    ensures HasKey(Kept(open, why), k) ==> Kept(open, why)[Find(Kept(open, why), k)] == open[Find(open, k)]
  {
    KeptMembers(open, why);
    FindSpec(open, k);
    FindSpec(Kept(open, why), k);
    if HasKey(open, k) && !Closes(why, open[Find(open, k)]) {
      assert open[Find(open, k)] in Kept(open, why);
    }
    if HasKey(Kept(open, why), k) {
      var en := Kept(open, why)[Find(Kept(open, why), k)];
      assert en in Kept(open, why) && en in open;
      var i :| 0 <= i < |open| && open[i] == en;
      assert i == Find(open, k);
    }
  }

  lemma CloseKeepsStep(r: Registry, why: Reason, ts: int)
    requires Good(r)
    ensures Good(Close(r, why, ts))
  {
    var r' := Close(r, why, ts);
    KeptMembers(r.open, why);
    forall en | en in r'.open ensures en.key in r'.stored && r'.stored[en.key] == en.value && en.value.status.Open? {
      KeptIsStored(r, why, ts, en);
    }
    forall k | k in r'.stored && r'.stored[k].status.Open? ensures HasKey(r'.open, k) {
      WrittenAt(r.stored, r.open, why, ts, k);
      KeptFind(r.open, why, k);
    }
    forall i | 0 <= i < |r'.open| ensures EntryOk(r'.open[i]) {
      KeptIsOk(r, why, r'.open[i]);
    }
  }

  lemma KeptIsStored(r: Registry, why: Reason, ts: int, en: Entry)
    requires Good(r) && en in Kept(r.open, why)
    ensures var r' := Close(r, why, ts);
      en.key in r'.stored && r'.stored[en.key] == en.value && en.value.status.Open?
  {
    KeptMembers(r.open, why);
    FoundByKey(r.open, en);
    WrittenAt(r.stored, r.open, why, ts, en.key);
  }

  lemma FoundByKey(open: seq<Entry>, en: Entry)
    requires UniqueKeys(open) && en in open
    ensures HasKey(open, en.key) && open[Find(open, en.key)] == en
  {
    var i :| 0 <= i < |open| && open[i] == en;
    FindSpec(open, en.key);
  }

  lemma KeptIsOk(r: Registry, why: Reason, en: Entry)
    requires Good(r) && en in Kept(r.open, why)
    ensures EntryOk(en)
  {
    KeptMembers(r.open, why);
    var j :| 0 <= j < |r.open| && r.open[j] == en;
    assert AllKnown(r.open) && KeysOk(r.open);
  }

  // ----- the life of one key --------------------------------------------------------------

  /** What a single key goes through, told by its own events alone: the event and the entity it was
      opened for, the severities since, and the latest event. */
  datatype Life = Closed | Live(severities: seq<Severity>, opener: Event, entityId: string, latest: Event)

  datatype Op = Handle(e: Event) | Expire(now: int) | Restart(order: seq<Entry>)

  function Worst(ss: seq<Severity>): Severity
    requires ss != []
  {
    if |ss| == 1 then ss[0]
    else
      var w := Worst(ss[..|ss| - 1]);
      if ss[|ss| - 1].Rank() < w.Rank() then ss[|ss| - 1] else w
  }

  /** In that order: critical if there was one, else high, else medium, else low. */
  predicate WorstOf(w: Severity, ss: seq<Severity>) {
    && (Critical in ss ==> w == Critical)
    && (Critical !in ss && High in ss ==> w == High)
    && (Critical !in ss && High !in ss && Medium in ss ==> w == Medium)
    && (Critical !in ss && High !in ss && Medium !in ss && Low in ss ==> w == Low)
  }

  lemma {:induction false} WorstSpec(ss: seq<Severity>)
    requires ss != []
    ensures Worst(ss) in ss && forall s :: s in ss ==> Worst(ss).Rank() <= s.Rank()
    ensures WorstOf(Worst(ss), ss)
  {
    if |ss| > 1 {
      WorstSpec(ss[..|ss| - 1]);
      assert ss == ss[..|ss| - 1] + [ss[|ss| - 1]];
    }
  }

  function Touched(l: Life, e: Event, entityId: string): Life {
    match l
    case Closed => Live([e.severity], e, entityId, e)
    case Live(severities, opener, entity, _) => Live(severities + [e.severity], opener, entity, e)
  }

  function TouchedBy(l: Life, k: string, e: Event, refs: seq<string>): Life
    decreases |refs|
  {
    if refs == [] then l
    else TouchedBy(if KeyOf(refs[0], e.eventType) == k then Touched(l, e, refs[0]) else l, k, e, refs[1..])
  }

  /** Some reference is a prefix of the key. */
  predicate NamesKey(refs: seq<string>, k: string)
    decreases |refs|
  {
    refs != [] && (refs[0] <= k || NamesKey(refs[1..], k))
  }

  function LifeStep(l: Life, k: string, op: Op): Life {
    match op
    case Handle(e) =>
      if IsResolution(e.eventType) then (if NamesKey(e.entityRefs, k) then Closed else l)
      else if e.severity.Info? then l
      else TouchedBy(l, k, e, e.entityRefs)
    case Expire(now) => if l.Live? && now - l.latest.ts > 600 then Closed else l
    case Restart(_) => l
  }

  function LifeOf(l: Life, k: string, ops: seq<Op>): Life
    decreases |ops|
  {
    if ops == [] then l else LifeOf(LifeStep(l, k, ops[0]), k, ops[1..])
  }

  function Perform(r: Registry, op: Op): Registry {
    match op
    case Handle(e) => Process(r, e).0
    case Expire(now) => Close(r, Stale(now), now)
    case Restart(order) => r.(open := order)
  }

  function PerformAll(r: Registry, ops: seq<Op>): Registry
    decreases |ops|
  {
    if ops == [] then r else PerformAll(Perform(r, ops[0]), ops[1..])
  }

  /** Severities are known, and a restart loads what is stored. */
  ghost predicate Sound(r: Registry, op: Op) {
    match op
    case Handle(e) => !e.severity.Unknown?
    case Expire(_) => true
    case Restart(order) => IsReload(r.stored, order)
  }

  ghost predicate AllSound(r: Registry, ops: seq<Op>)
    decreases |ops|
  {
    ops == [] || (Sound(r, ops[0]) && AllSound(Perform(r, ops[0]), ops[1..]))
  }

  ghost predicate Follows(r: Registry, k: string, l: Life) {
    match l
    case Closed => !HasKey(r.open, k)
    case Live(severities, _, _, _) =>
      && HasKey(r.open, k) && severities != []
      && r.open[Find(r.open, k)].value == Grown(l)
  }

  /** The anomaly as it was opened, with the worst severity since and the time and confidence of
      the latest event. */
  function Grown(l: Life): Anomaly
    requires l.Live? && l.severities != []
  {
    Anomaly(l.opener.ids(l.entityId), l.entityId, l.opener.eventType, Worst(l.severities), l.latest.confidence,
      l.opener.ts, l.latest.ts, None, Open, l.opener.payload)
  }

  lemma TouchFollows(r: Registry, e: Event, entityId: string, k: string, l: Life)
    requires Good(r) && Follows(r, k, l) && !e.severity.Unknown? && !e.severity.Info?
    ensures !Raises(r, e, entityId) && Good(Touch(r, e, entityId))
    ensures Follows(Touch(r, e, entityId), k, if KeyOf(entityId, e.eventType) == k then Touched(l, e, entityId) else l)
  {
    var key, r' := KeyOf(entityId, e.eventType), Touch(r, e, entityId);
    FindSpec(r.open, key);
    FindSpec(r.open, k);
    FindSpec(r'.open, key);
    FindSpec(r'.open, k);
    TouchFind(r, e, entityId, k);
    if key == k && l.Live? {
      assert (l.severities + [e.severity])[..|l.severities|] == l.severities;
    }
    TouchStaysGood(r, e, entityId);
  }

  lemma TouchFind(r: Registry, e: Event, entityId: string, k: string)
    requires InStep(r) && !Raises(r, e, entityId)
    ensures var key, r' := KeyOf(entityId, e.eventType), Touch(r, e, entityId);
      && HasKey(r'.open, key)
      && (k != key ==> HasKey(r'.open, k) == HasKey(r.open, k))
      && (k != key && HasKey(r.open, k) ==> r'.open[Find(r'.open, k)] == r.open[Find(r.open, k)])
      && r'.open[Find(r'.open, key)].value ==
           (if HasKey(r.open, key) then Refreshed(r.open[Find(r.open, key)].value, e) else NewAnomaly(e, entityId))
  {
    var key, r' := KeyOf(entityId, e.eventType), Touch(r, e, entityId);
    FindSpec(r.open, key);
    FindSpec(r.open, k);
    FindIs(r'.open, key, Find(r.open, key));
    if k != key {
      if HasKey(r.open, k) {
        FindIs(r'.open, k, Find(r.open, k));
      } else {
        FindSpec(r'.open, k);
      }
    }
  }

  lemma {:induction false} FindIs(open: seq<Entry>, k: string, i: nat)
    requires i < |open| && open[i].key == k && forall j :: 0 <= j < i ==> open[j].key != k
    ensures Find(open, k) == i
  {
    if i > 0 { FindIs(open[1..], k, i - 1); }
  }

  lemma TouchIsStored(r: Registry, e: Event, entityId: string, i: nat)
    requires InStep(r) && !Raises(r, e, entityId) && i < |Touch(r, e, entityId).open|
    ensures var r' := Touch(r, e, entityId);
      r'.open[i].key in r'.stored && r'.stored[r'.open[i].key] == r'.open[i].value && r'.open[i].value.status.Open?
  {
    var r', at := Touch(r, e, entityId), Find(r.open, KeyOf(entityId, e.eventType));
    FindSpec(r.open, KeyOf(entityId, e.eventType));
    if i != at { assert r'.open[i] == r.open[i] && r.open[i] in r.open; }
    if at < |r.open| { assert r.open[at] in r.open; }
  }

  /** A reference that does not raise leaves the copies in step. */
  lemma TouchInStep(r: Registry, e: Event, entityId: string)
    requires InStep(r) && !Raises(r, e, entityId)
    ensures InStep(Touch(r, e, entityId))
  {
    var key, r' := KeyOf(entityId, e.eventType), Touch(r, e, entityId);
    FindSpec(r.open, key);
    forall i | 0 <= i < |r'.open|
      ensures r'.open[i].key in r'.stored && r'.stored[r'.open[i].key] == r'.open[i].value
        && r'.open[i].value.status.Open?
    {
      TouchIsStored(r, e, entityId, i);
    }
    forall k | k in r'.stored && r'.stored[k].status.Open? ensures HasKey(r'.open, k) {
      assert k == key || k in r.stored;
      TouchFind(r, e, entityId, k);
    }
  }

  lemma TouchStaysGood(r: Registry, e: Event, entityId: string)
    requires Good(r) && !e.severity.Unknown? && !e.severity.Info?
    ensures !Raises(r, e, entityId) && Good(Touch(r, e, entityId))
  {
    FindSpec(r.open, KeyOf(entityId, e.eventType));
    TouchInStep(r, e, entityId);
  }

  lemma {:induction false} TouchAllFollows(r: Registry, e: Event, refs: seq<string>, k: string, l: Life)
    requires Good(r) && Follows(r, k, l) && !e.severity.Unknown? && !e.severity.Info?
    ensures TouchAll(r, e, refs).1 && Good(TouchAll(r, e, refs).0)
    ensures Follows(TouchAll(r, e, refs).0, k, TouchedBy(l, k, e, refs))
    decreases |refs|
  {
    if refs != [] {
      TouchFollows(r, e, refs[0], k, l);
      TouchAllFollows(Touch(r, e, refs[0]), e, refs[1..], k,
        if KeyOf(refs[0], e.eventType) == k then Touched(l, e, refs[0]) else l);
    }
  }

  lemma CloseFollows(r: Registry, why: Reason, ts: int, k: string, l: Life)
    requires Good(r) && Follows(r, k, l)
    ensures Good(Close(r, why, ts))
    ensures Follows(Close(r, why, ts), k,
              if HasKey(r.open, k) && Closes(why, r.open[Find(r.open, k)]) then Closed else l)
  {
    CloseKeepsStep(r, why, ts);
    KeptFind(r.open, why, k);
  }

  lemma {:induction false} CloseEntitiesFollows(r: Registry, refs: seq<string>, ts: int, k: string, l: Life)
    requires Good(r) && Follows(r, k, l)
    ensures Good(CloseEntities(r, refs, ts))
    ensures Follows(CloseEntities(r, refs, ts), k, if NamesKey(refs, k) then Closed else l)
    decreases |refs|
  {
    if refs != [] {
      var why := ByEntity(refs[0]);
      CloseFollows(r, why, ts, k, l);
      FindSpec(r.open, k);
      var l1 := if refs[0] <= k then Closed else l;
      assert Follows(Close(r, why, ts), k, l1);
      CloseEntitiesFollows(Close(r, why, ts), refs[1..], ts, k, l1);
    }
  }

  lemma ReloadFollows(r: Registry, order: seq<Entry>, k: string, l: Life)
    requires Good(r) && Follows(r, k, l) && IsReload(r.stored, order)
    ensures Good(r.(open := order)) && Follows(r.(open := order), k, l)
  {
    FindSpec(r.open, k);
    FindSpec(order, k);
    if HasKey(r.open, k) {
      var en := r.open[Find(r.open, k)];
      assert en in r.open;
      assert HasKey(order, k);
      assert order[Find(order, k)] in order;
    }
    if HasKey(order, k) { assert order[Find(order, k)] in order; }
    forall i | 0 <= i < |order| ensures EntryOk(order[i]) {
      assert order[i] in order;
      ReloadIsSame(r, order, order[i]);
      var j :| 0 <= j < |r.open| && r.open[j] == order[i];
      assert EntryOk(r.open[j]);
    }
  }

  lemma PerformFollows(r: Registry, op: Op, k: string, l: Life)
    requires Good(r) && Follows(r, k, l) && Sound(r, op)
    ensures Good(Perform(r, op)) && Follows(Perform(r, op), k, LifeStep(l, k, op))
    ensures op.Handle? ==> Process(r, op.e).1
  {
    match op
    case Handle(e) =>
      if IsResolution(e.eventType) {
        CloseEntitiesFollows(r, e.entityRefs, e.ts, k, l);
      } else if !e.severity.Info? {
        TouchAllFollows(r, e, e.entityRefs, k, l);
      }
    case Expire(now) =>
      CloseFollows(r, Stale(now), now, k, l);
    case Restart(order) =>
      ReloadFollows(r, order, k, l);
  }

  /** After any operations with known severities, starting from an empty registry: the open map is
      what is stored as open, and a key is open exactly while its own events keep it so, holding
      the anomaly they prescribe. */
  lemma {:induction false} RegistryFollowsEvents(r: Registry, ops: seq<Op>, k: string, l: Life)
    requires Good(r) && Follows(r, k, l) && AllSound(r, ops)
    ensures Good(PerformAll(r, ops)) && Follows(PerformAll(r, ops), k, LifeOf(l, k, ops))
    decreases |ops|
  {
    if ops != [] {
      PerformFollows(r, ops[0], k, l);
      RegistryFollowsEvents(Perform(r, ops[0]), ops[1..], k, LifeStep(l, k, ops[0]));
    }
  }

  lemma EmptyIsGood(k: string)
    ensures Good(Registry([], map[])) && Follows(Registry([], map[]), k, Closed)
  {
  }

  /** One open anomaly per key; it keeps the id, opening time and details it was opened with, its
      time and confidence are the latest, and its severity is the worst since it opened. */
  lemma OpenSeverityIsWorst(ops: seq<Op>, k: string)
    requires AllSound(Registry([], map[]), ops)
    ensures var r, l := PerformAll(Registry([], map[]), ops), LifeOf(Closed, k, ops);
      && InStep(r) && UniqueKeys(r.open) && KeysOk(r.open)
      && (HasKey(r.open, k) <==> l.Live?)
      && (l.Live? ==> l.severities != [] && r.open[Find(r.open, k)].value == Grown(l))
      && (l.Live? ==> r.open[Find(r.open, k)].value.severity in l.severities)
      && (l.Live? ==> WorstOf(r.open[Find(r.open, k)].value.severity, l.severities))
  {
    EmptyIsGood(k);
    RegistryFollowsEvents(Registry([], map[]), ops, k, Closed);
    var l := LifeOf(Closed, k, ops);
    if l.Live? { WorstSpec(l.severities); }
  }

  /** A reference raises exactly if its entity has an open anomaly of that type, and the event's severity
      or the anomaly's is unknown; so an unknown severity opens an anomaly, but cannot refresh it. */
  lemma RaisesIff(r: Registry, e: Event, entityId: string)
    requires UniqueKeys(r.open)
    ensures Raises(r, e, entityId) <==>
      exists i :: 0 <= i < |r.open| && r.open[i].key == entityId + ":" + e.eventType
                  && (e.severity.Unknown? || r.open[i].value.severity.Unknown?)
  {
    FindSpec(r.open, KeyOf(entityId, e.eventType));
  }

  /** Reference n of the event raises, and none before it does. */
  predicate RaisesAt(r: Registry, e: Event, refs: seq<string>, n: nat) {
    n < |refs| && TouchAll(r, e, refs[..n]).1 && Raises(TouchAll(r, e, refs[..n]).0, e, refs[n])
  }

  lemma {:induction false} WhereItRaises(r: Registry, e: Event, refs: seq<string>) returns (n: nat)
    requires InStep(r) && !TouchAll(r, e, refs).1
    ensures RaisesAt(r, e, refs, n) && InStep(TouchAll(r, e, refs[..n]).0)
    ensures TouchAll(r, e, refs).0 == Touch(TouchAll(r, e, refs[..n]).0, e, refs[n])
    decreases |refs|
  {
    if Raises(r, e, refs[0]) {
      n := 0;
    } else {
      TouchInStep(r, e, refs[0]);
      var k := WhereItRaises(Touch(r, e, refs[0]), e, refs[1..]);
      n := k + 1;
      assert refs[..n][1..] == refs[1..][..k] && refs[..n][0] == refs[0];
    }
  }

  /** A call that raises does so half-way through a refresh, of severity unknown: the time has been
      set, the store has not been written, and later references are not looked at.  The two copies
      then differ exactly when that time had changed. */
  lemma UnknownSeverityBreaksStep(r: Registry, e: Event) returns (n: nat)
    requires InStep(r) && !Process(r, e).1
    ensures RaisesAt(r, e, e.entityRefs, n)
    ensures var before, after, key := TouchAll(r, e, e.entityRefs[..n]).0, Process(r, e).0,
        e.entityRefs[n] + ":" + e.eventType;
      && InStep(before) && HasKey(before.open, key)
      && var at := Find(before.open, key);
         && after.stored == before.stored
         && after.open == before.open[at := Entry(key, before.open[at].value.(lastSeenAt := e.ts))]
         && (InStep(after) <==> before.open[at].value.lastSeenAt == e.ts)
  {
    n := WhereItRaises(r, e, e.entityRefs);
    RaiseBreaksStep(TouchAll(r, e, e.entityRefs[..n]).0, e, e.entityRefs[n]);
  }

  lemma RaiseBreaksStep(r: Registry, e: Event, entityId: string)
    requires InStep(r) && Raises(r, e, entityId)
    ensures InStep(Touch(r, e, entityId))
      <==> r.open[Find(r.open, KeyOf(entityId, e.eventType))].value.lastSeenAt == e.ts
  {
    var key := KeyOf(entityId, e.eventType);
    var at, r' := Find(r.open, key), Touch(r, e, entityId);
    assert r.open[at] in r.open;
    assert r'.open[at] in r'.open;
    if r.open[at].value.lastSeenAt == e.ts {
      assert r'.open == r.open;
    }
  }

  // ----- what the store keeps of a closed anomaly, and the order of the open ones ----------------

  /** An anomaly that is closed stays in the store as it was, marked as resolved at the time of the
      resolution or of the sweep; all others stay as they are. */
  lemma ClosedIsStored(r: Registry, why: Reason, ts: int, k: string)
    requires UniqueKeys(r.open)
    ensures var after := Close(r, why, ts).stored;
      if HasKey(r.open, k) && Closes(why, r.open[Find(r.open, k)])
      then
        var a := r.open[Find(r.open, k)].value;
        k in after && after[k] == Anomaly(a.anomalyId, a.entityId, a.eventType, a.severity, a.confidence, a.openedAt,
                                          a.lastSeenAt, Some(ts), Resolved, a.details)
      else (k in after <==> k in r.stored) && (k in after ==> after[k] == r.stored[k])
  {
    WrittenAt(r.stored, r.open, why, ts, k);
  }

  /** A sweep closes what was last seen more than 600 seconds ago, and nothing else. */
  lemma SweepClosesIff(r: Registry, now: int, en: Entry)
    ensures en in Close(r, Stale(now), now).open <==> en in r.open && now - en.value.lastSeenAt <= 600
  {
    KeptMembers(r.open, Stale(now));
  }

  function Keys(open: seq<Entry>): seq<string> {
    seq(|open|, i requires 0 <= i < |open| => open[i].key)
  }

  /** Events that open or refresh leave the open anomalies in their order, and put new ones at the end;
      info events do nothing. */
  lemma {:induction false} OpensAtTheEnd(r: Registry, e: Event, refs: seq<string>)
    ensures Keys(r.open) <= Keys(TouchAll(r, e, refs).0.open)
    ensures e.severity == Info && !IsResolution(e.eventType) ==> Process(r, e) == (r, true)
    decreases |refs|
  {
    if refs != [] {
      var next := Touch(r, e, refs[0]);
      assert Keys(r.open) <= Keys(next.open);
      if !Raises(r, e, refs[0]) { OpensAtTheEnd(next, e, refs[1..]); }
    }
  }

  // ----- resolving by prefix ------------------------------------------------------------------

  /** The anomalies of other entities. */
  function Others(open: seq<Entry>, entityId: string): seq<Entry> {
    if open == [] then []
    else
      var last := open[|open| - 1];
      Others(open[..|open| - 1], entityId) + (if last.value.entityId == entityId then [] else [last])
  }

  lemma {:induction false} OthersLength(open: seq<Entry>, entityId: string)
    requires KeysOk(open)
    ensures |Kept(open, ByEntity(entityId))| <= |Others(open, entityId)|
    ensures Kept(open, ByEntity(entityId)) == Others(open, entityId) <==>
              forall i :: 0 <= i < |open| && open[i].value.entityId != entityId ==> !(entityId <= open[i].key)
    ensures Kept(open, ByEntity(entityId)) == Others(open, entityId) <==>
              |Kept(open, ByEntity(entityId))| == |Others(open, entityId)|
  {
    if open != [] {
      var front, last := open[..|open| - 1], open[|open| - 1];
      OthersLength(front, entityId);
      assert last.value.entityId == entityId ==> entityId <= last.key;
    }
  }

  /** A resolution for an entity closes exactly the anomalies of that entity if and only if no
      open key of another entity begins with its name. */
  lemma ResolvesExactlyIff(open: seq<Entry>, entityId: string)
    requires KeysOk(open)
    ensures Kept(open, ByEntity(entityId)) == Others(open, entityId) <==>
              forall i :: 0 <= i < |open| && open[i].value.entityId != entityId ==> !(entityId <= open[i].key)
  {
    OthersLength(open, entityId);
  }

  /** It does not in general: resolving svc:api also closes an anomaly of svc:api-gateway. */
  lemma PrefixClosesTooMuch(a: Anomaly)
    requires a.entityId == "svc:api-gateway" && a.eventType == "api_latency_spike"
    ensures var open := [Entry(KeyOf(a.entityId, a.eventType), a)];
      Kept(open, ByEntity("svc:api")) == [] && Others(open, "svc:api") == open
  {
    var key := KeyOf(a.entityId, a.eventType);
    assert key[..7] == "svc:api";
    var open := [Entry(key, a)];
    assert open[..0] == [];
    assert Kept([], ByEntity("svc:api")) == [] && Others([], "svc:api") == [];
  }
}
