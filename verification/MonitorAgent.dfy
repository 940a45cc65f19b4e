/** The monitor agent's signals to the planner and their deduplication
    (agents/monitor_agent.py:38-69). */
module MonitorAgent {
  import opened Wrappers
  import opened Events

  /** One anomaly as a poll shows it; missing ids are empty strings. */
  datatype Seen = Seen(entity: string, id: string, severity: Severity)

  type Sent = seq<Seen>

  datatype Memory = Memory(last: map<string, string>, sent: Sent)

  predicate Relevant(o: Seen, min: nat) {
    o.severity.Score() >= min
  }

  /** Which anomalies a monitor with the given trigger severity handles: those at least as severe. */
  lemma TriggerAdmits(o: Seen)
    ensures Relevant(o, Critical.Score()) <==> o.severity == Critical
    ensures Relevant(o, High.Score()) <==> o.severity == Critical || o.severity == High
    ensures Relevant(o, Medium.Score()) <==> o.severity == Critical || o.severity == High || o.severity == Medium
    ensures Relevant(o, Low.Score()) <==> !o.severity.Info? && !o.severity.Unknown?
    ensures Relevant(o, Info.Score())
  {
  }

  predicate Repeats(m: Memory, o: Seen) {
    o.entity in m.last && m.last[o.entity] == o.id
  }

  function Observe(m: Memory, o: Seen, min: nat): Memory {
    if !Relevant(o, min) || Repeats(m, o) then m
    else Memory(m.last[o.entity := o.id], m.sent + [o])
  }

  /** All anomalies handled over the agent's life, poll after poll. */
  function ObserveAll(m: Memory, os: seq<Seen>, min: nat): Memory {
    if os == [] then m else Observe(ObserveAll(m, os[..|os| - 1], min), os[|os| - 1], min)
  }

  function Fresh(): Memory {
    Memory(map[], [])
  }

  /** Ids observed for one entity, and ids signalled for it, in order. */
  function Ids(os: seq<Seen>, entity: string, min: nat): seq<string> {
    if os == [] then []
    else
      var o := os[|os| - 1];
      Ids(os[..|os| - 1], entity, min) + (if o.entity == entity && Relevant(o, min) then [o.id] else [])
  }

  /** Consecutive repeats removed. */
  function Squeeze(ids: seq<string>): seq<string> {
    if ids == [] then []
    else if |ids| > 1 && ids[|ids| - 2] == ids[|ids| - 1] then Squeeze(ids[..|ids| - 1])
    else Squeeze(ids[..|ids| - 1]) + [ids[|ids| - 1]]
  }

  /** Over any sequence of polls, the signals for an entity are the ids observed for it with
      consecutive repeats removed, whatever happens to other entities in between. */
  lemma {:induction false} SignalsAreSqueezed(os: seq<Seen>, entity: string, min: nat)
    ensures Squeezed(ObserveAll(Fresh(), os, min), Ids(os, entity, min), entity, min)
  {
    if os != [] {
      var front, o := os[..|os| - 1], os[|os| - 1];
      SignalsAreSqueezed(front, entity, min);
      assert os == front + [o];
      IdsPush(front, o, entity, min);
      ObserveKeepsSqueezed(ObserveAll(Fresh(), front, min), Ids(front, entity, min), o, entity, min);
    }
  }

  ghost predicate Squeezed(m: Memory, ids: seq<string>, entity: string, min: nat) {
    && Ids(m.sent, entity, min) == Squeeze(ids)
    && (entity in m.last <==> ids != [])
    && (ids != [] ==> m.last[entity] == ids[|ids| - 1])
  }

  lemma ObserveKeepsSqueezed(m: Memory, ids: seq<string>, o: Seen, entity: string, min: nat)
    requires Squeezed(m, ids, entity, min)
    ensures Squeezed(Observe(m, o, min), if o.entity == entity && Relevant(o, min) then ids + [o.id] else ids,
              entity, min)
  {
    IdsPush(m.sent, o, entity, min);
    SqueezePush(ids, o.id);
  }

  lemma IdsPush(os: seq<Seen>, o: Seen, entity: string, min: nat)
    ensures Ids(os + [o], entity, min)
      == if o.entity == entity && Relevant(o, min) then Ids(os, entity, min) + [o.id] else Ids(os, entity, min)
  {
    assert (os + [o])[..|os|] == os;
  }

  lemma SqueezePush(ids: seq<string>, id: string)
    ensures Squeeze(ids + [id]) == if ids != [] && ids[|ids| - 1] == id then Squeeze(ids) else Squeeze(ids) + [id]
  {
    assert (ids + [id])[..|ids|] == ids;
  }

  /** No id is signalled twice in a row, and every observed id is signalled. */
  lemma {:induction false} SqueezeSpec(ids: seq<string>, id: string)
    ensures forall i :: 0 < i < |Squeeze(ids)| ==> Squeeze(ids)[i - 1] != Squeeze(ids)[i]
    ensures id in Squeeze(ids) <==> id in ids
    ensures ids != [] ==> Squeeze(ids) != [] && Squeeze(ids)[|Squeeze(ids)| - 1] == ids[|ids| - 1]
  {
    if ids != [] {
      var front, last := ids[..|ids| - 1], ids[|ids| - 1];
      assert ids == front + [last];
      SqueezeSpec(front, id);
      if |ids| > 1 && ids[|ids| - 2] == last { assert front[|front| - 1] in front; }
    }
  }

  /** Between two observations of an id there is no other id. */
  predicate Contiguous(ids: seq<string>) {
    forall i, j, k :: 0 <= i < j < k < |ids| && ids[i] == ids[k] ==> ids[j] == ids[i]
  }

  lemma {:induction false} SqueezeNoDupIff(ids: seq<string>)
    ensures NoDup(Squeeze(ids)) <==> Contiguous(ids)
  {
    if ids != [] {
      var n, front, last := |ids| - 1, ids[..|ids| - 1], ids[|ids| - 1];
      SqueezeNoDupIff(front);
      assert Contiguous(ids) ==> Contiguous(front);
      if n > 0 && ids[n - 1] != last {
        SqueezeSpec(front, last);
        NoDupPush(Squeeze(front), last);
        if last in front {
          var i :| 0 <= i < n && front[i] == last;
          assert ids[i] == ids[n] && ids[n - 1] != ids[i];
        }
      }
    }
  }

  lemma NoDupPush(ids: seq<string>, id: string)
    ensures NoDup(ids + [id]) <==> NoDup(ids) && id !in ids
  {
    var all := ids + [id];
    assert forall i :: 0 <= i < |ids| ==> all[i] == ids[i];
    if id in ids {
      var i :| 0 <= i < |ids| && ids[i] == id;
      assert all[i] == all[|ids|];
    }
  }

  /** Over any sequence of polls, no anomaly of an entity is signalled twice if and only if, among
      the relevant ones observed for the entity, each was observed in one unbroken stretch. */
  lemma SignalledOnceIff(os: seq<Seen>, entity: string, min: nat)
    ensures NoDup(Ids(ObserveAll(Fresh(), os, min).sent, entity, min)) <==> Contiguous(Ids(os, entity, min))
  {
    SignalsAreSqueezed(os, entity, min);
    SqueezeNoDupIff(Ids(os, entity, min));
  }

  function Polls(a: Seen, b: Seen, n: nat): seq<Seen> {
    if n == 0 then [] else Polls(a, b, n - 1) + [a, b]
  }

  /** The deduplication remembers one id per entity: when two anomalies of one entity stay open,
      every poll signals both again. */
  lemma {:induction false} TwoAnomaliesSignalEveryPoll(a: Seen, b: Seen, n: nat, min: nat)
    requires a.entity == b.entity && a.id != b.id && Relevant(a, min) && Relevant(b, min)
    ensures var m := ObserveAll(Fresh(), Polls(a, b, n), min);
      |m.sent| == 2 * n && if n == 0 then m.last == map[] else b.entity in m.last && m.last[b.entity] == b.id
  {
    if n > 0 {
      TwoAnomaliesSignalEveryPoll(a, b, n - 1, min);
      var before, all := Polls(a, b, n - 1), Polls(a, b, n);
      assert all[..|all| - 1] == before + [a] && (before + [a])[..|before|] == before;
    }
  }

  class Monitor {
    const minSev: nat
    var lastSig: map<string, string>

    constructor (trigger: Severity)
      ensures lastSig == map[] && minSev == if trigger.Unknown? then 3 else trigger.Score()
    {
      minSev := if trigger.Unknown? then 3 else trigger.Score();
      lastSig := map[];
    }

    /** One poll.  `raises` says which emissions raise; the first one that does ends the poll, after
        its id has been remembered.  `tried` lists the emissions begun. */
    method EvaluateAndSignal(anomalies: seq<Seen>, raises: Seen -> bool) returns (tried: Sent, handled: nat)
      modifies this`lastSig
      ensures handled <= |anomalies|
      ensures Memory(lastSig, tried) == ObserveAll(Memory(old(lastSig), []), anomalies[..handled], minSev)
      ensures handled == |anomalies| || (tried != [] && raises(tried[|tried| - 1]))
      ensures forall i :: 0 <= i < |tried| && raises(tried[i]) ==> i == |tried| - 1
    {
      tried, handled := [], 0;
      while handled < |anomalies|
        invariant 0 <= handled <= |anomalies|
        invariant Memory(lastSig, tried) == ObserveAll(Memory(old(lastSig), []), anomalies[..handled], minSev)
        invariant forall o :: o in tried ==> !raises(o)
      {
        var o := anomalies[handled];
        assert anomalies[..handled + 1][..handled] == anomalies[..handled];
        handled := handled + 1;
        if o.severity.Score() < minSev { continue; }
        if o.entity in lastSig && lastSig[o.entity] == o.id { continue; }
        lastSig := lastSig[o.entity := o.id];
        tried := tried + [o];
        if raises(o) { return; }
      }
    }
  }
}
