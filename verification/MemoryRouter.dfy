/** The memory router as a consumer of the event log: deduplication, fan-out to the memory
    layers, manual commits, failing writes, crashes and redelivery (memory/router.py:87-174). */
module MemoryRouter {
  import opened Wrappers
  import opened Events

  const DEDUP_TTL_S := 86400
  const STALE_LAG_S := 120

  datatype Layer = Episodic | Procedural | Working | Semantic | Vector

  /** An empty id stands for a missing one; `ts` is None where it is absent or unreadable. */
  datatype Msg = Msg(eid: string, severity: Severity, ts: Option<int>, hasRefs: bool)

  /** The writes dispatched for a message, in the order the task list is built. */
  function TaskList(m: Msg, now: int, vectorOn: bool): seq<Layer> {
    [Episodic, Procedural]
    + (if (m.severity.High? || m.severity.Critical?) && (m.ts.Some? ==> now - m.ts.value < STALE_LAG_S)
       then [Working] else [])
    + (if m.hasRefs then [Semantic] else [])
    + (if vectorOn && !m.severity.Info? && !m.severity.Low? then [Vector] else [])
  }

  // ----- states ---------------------------------------------------------------------

  /** What became of the one dispatch a claim of the dedup key allows. */
  datatype Fate =
    | Held                       // claimed, gather not reached yet
    | Abandoned                  // died, or lost the reply of the claim, before gather
    | Running(pending: set<Layer>, failed: bool)
    | Interrupted                // died during gather
    | Finished(failed: bool)

  /** `offset` is that of the message the claim was made for; `begun` is when its gather began. */
  datatype Claim = Claim(eid: string, offset: nat, at: nat, begun: nat, wanted: set<Layer>, landed: set<Layer>,
    fate: Fate)

  datatype Process =
    | Down
    | Ready(pos: nat)            // about to fetch offset pos
    | Routing(pos: nat)          // in _route, before the dedup key is set
    | Claimed(pos: nat)          // key set by this call, gather not reached
    | Gathering(pos: nat)
    | Committing(pos: nat)       // _route has returned

  datatype State = State(
    log: seq<Msg>, vectorOn: bool, clock: nat, process: Process, committed: nat,
    dedup: map<string, nat>,              // key -> last moment it is set
    layers: set<(Layer, string)>,         // which event ids each layer holds
    claims: seq<Claim>,                   // all claims of dedup keys, oldest first
    handed: set<nat>,                     // offsets ever handed to _route
    refused: set<nat>)                    // offsets whose dedup call raised without setting the key

  datatype Event =
    | Produce(m: Msg) | Tick
    | Start | Crash
    | Fetch
    | DedupRaises(landed: bool)           // the SET raises, with or without effect
    | DedupAnswers                        // the SET is answered
    | StartGather
    | Write(l: Layer, lands: bool, ok: bool)
    | GatherEnds
    | CommitLands
    | CommitRaises(landed: bool)          // the commit raises, with or without effect

  predicate KeyFree(s: State, eid: string) {
    eid !in s.dedup || s.dedup[eid] < s.clock
  }

  function WithFate(claims: seq<Claim>, fate: Fate): seq<Claim>
    requires claims != []
  {
    claims[|claims| - 1 := claims[|claims| - 1].(fate := fate)]
  }

  function Push(s: State, offset: nat, fate: Fate): State
    requires offset < |s.log|
  {
    var eid := s.log[offset].eid;
    s.(dedup := s.dedup[eid := s.clock + DEDUP_TTL_S],
       claims := s.claims + [Claim(eid, offset, s.clock, 0, {}, {}, fate)])
  }

  function ListSet(ls: seq<Layer>): set<Layer> {
    set l | l in ls
  }

  predicate Enabled(s: State, e: Event) {
    match e
    case Produce(_) => true
    case Tick => true
    case Start => s.process.Down?
    case Crash => !s.process.Down?
    case Fetch => s.process.Ready? && s.process.pos < |s.log|
    case DedupRaises(landed) =>
      s.process.Routing? && s.process.pos < |s.log| && s.log[s.process.pos].eid != ""
      && (landed ==> KeyFree(s, s.log[s.process.pos].eid))
    case DedupAnswers => s.process.Routing? && s.process.pos < |s.log|
    case StartGather => s.process.Claimed? && s.process.pos < |s.log| && s.claims != []
    case Write(l, lands, ok) =>
      s.process.Gathering? && s.claims != []
      && var c := s.claims[|s.claims| - 1]; c.fate.Running? && l in c.fate.pending && (ok ==> lands)
    case GatherEnds =>
      s.process.Gathering? && s.claims != [] && s.claims[|s.claims| - 1].fate.Running?
        && s.claims[|s.claims| - 1].fate.pending == {}
    case CommitLands => s.process.Committing?
    case CommitRaises(_) => s.process.Committing?
  }

  function Apply(s: State, e: Event): State
    requires Enabled(s, e)
  {
    match e
    case Produce(m) => s.(log := s.log + [m])
    case Tick => s.(clock := s.clock + 1)
    case Start => s.(process := Ready(s.committed))
    case Crash =>
      var s' := s.(process := Down);
      if s.process.Claimed? && s.claims != [] then s'.(claims := WithFate(s.claims, Abandoned))
      else if s.process.Gathering? && s.claims != [] then s'.(claims := WithFate(s.claims, Interrupted))
      else s'
    case Fetch => s.(process := Routing(s.process.pos), handed := s.handed + {s.process.pos})
    case DedupRaises(landed) =>
      var s' := s.(process := Ready(s.process.pos + 1));
      if landed then Push(s', s.process.pos, Abandoned) else s'.(refused := s.refused + {s.process.pos})
    case DedupAnswers =>
      var eid := s.log[s.process.pos].eid;
      if eid == "" || !KeyFree(s, eid) then s.(process := Committing(s.process.pos))
      else Push(s.(process := Claimed(s.process.pos)), s.process.pos, Held)
    case StartGather =>
      var tasks := ListSet(TaskList(s.log[s.process.pos], s.clock, s.vectorOn));
      s.(process := Gathering(s.process.pos),
         claims := s.claims[|s.claims| - 1 :=
                     s.claims[|s.claims| - 1].(begun := s.clock, wanted := tasks, fate := Running(tasks, false))])
    case Write(l, lands, ok) =>
      var c := s.claims[|s.claims| - 1];
      s.(claims := s.claims[|s.claims| - 1 := c.(landed := if lands then c.landed + {l} else c.landed,
                     fate := Running(c.fate.pending - {l}, c.fate.failed || !ok))],
         layers := if lands then s.layers + {(l, c.eid)} else s.layers)
    case GatherEnds =>
      var failed := s.claims[|s.claims| - 1].fate.failed;
      s.(claims := WithFate(s.claims, Finished(failed)),
         process := if failed then Ready(s.process.pos + 1) else Committing(s.process.pos))
    case CommitLands => s.(committed := s.process.pos + 1, process := Ready(s.process.pos + 1))
    case CommitRaises(landed) =>
      s.(committed := if landed then s.process.pos + 1 else s.committed, process := Ready(s.process.pos + 1))
  }

  function Initial(log: seq<Msg>, vectorOn: bool): State {
    State(log, vectorOn, 0, Down, 0, map[], {}, [], {}, {})
  }

  predicate Legal(s: State, es: seq<Event>)
    decreases |es|
  {
    es == [] || (Enabled(s, es[0]) && Legal(Apply(s, es[0]), es[1..]))
  }

  function After(s: State, es: seq<Event>): State
    requires Legal(s, es)
    decreases |es|
  {
    if es == [] then s else After(Apply(s, es[0]), es[1..])
  }

  // ----- what every run keeps ---------------------------------------------------------

  /** Offsets below this have been taken care of by this process or an earlier one. */
  function Front(s: State): nat {
    match s.process
    case Down => s.committed
    case Ready(pos) => pos
    case Routing(pos) => pos
    case Claimed(pos) => pos + 1
    case Gathering(pos) => pos + 1
    case Committing(pos) => pos + 1
  }

  ghost predicate HasClaim(claims: seq<Claim>, eid: string) {
    exists i :: 0 <= i < |claims| && claims[i].eid == eid
  }

  /** A message is settled once it has no id, a claim for its id, or a refused dedup call. */
  ghost predicate Settled(s: State, o: nat)
    requires o < |s.log|
  {
    o in s.handed && (s.log[o].eid == "" || HasClaim(s.claims, s.log[o].eid) || o in s.refused)
  }

  ghost predicate Position(s: State) {
    && s.committed <= Front(s) <= |s.log|
    && (s.process.Routing? ==> s.process.pos < |s.log|)
    && (forall o :: 0 <= o < Front(s) ==> Settled(s, o))
    && (forall eid :: eid in s.dedup ==> HasClaim(s.claims, eid))
  }

  predicate AtWork(s: State) {
    s.process.Claimed? || s.process.Gathering?
  }

  /** Only the last claim can be unfinished, and only while the process works on it. */
  ghost predicate Current(s: State) {
    && (AtWork(s) ==> s.claims != [])
    && (s.process.Claimed? ==> s.claims[|s.claims| - 1].fate.Held?)
    && (s.process.Gathering? ==> s.claims[|s.claims| - 1].fate.Running?)
    && (forall i :: 0 <= i < |s.claims| && (s.claims[i].fate.Held? || s.claims[i].fate.Running?) ==>
          i == |s.claims| - 1 && AtWork(s))
  }

  /** Claims of one id are more than a lifetime apart, and the key remembers the latest. */
  ghost predicate Spaced(s: State) {
    && (forall i :: 0 <= i < |s.claims| ==>
          s.claims[i].eid in s.dedup && s.claims[i].at + DEDUP_TTL_S <= s.dedup[s.claims[i].eid])
    && (forall i, j :: 0 <= i < j < |s.claims| && s.claims[i].eid == s.claims[j].eid ==>
          s.claims[i].at + DEDUP_TTL_S < s.claims[j].at)
  }

  /** The gather of this claim's dispatch has begun. */
  predicate Dispatched(c: Claim) {
    c.fate.Running? || c.fate.Interrupted? || c.fate.Finished?
  }

  ghost predicate ClaimOk(c: Claim) {
    && c.landed <= c.wanted
    && (c.fate.Held? || c.fate.Abandoned? ==> c.wanted == {})
    && (Dispatched(c) ==> {Episodic, Procedural} <= c.wanted)
    && (c.fate.Running? ==> c.fate.pending <= c.wanted)
    && (c.fate.Running? && !c.fate.failed ==> c.wanted - c.fate.pending <= c.landed)
    && (c.fate == Finished(false) ==> c.landed == c.wanted)
  }

  ghost predicate LandedBy(claims: seq<Claim>, l: Layer, eid: string) {
    exists i :: 0 <= i < |claims| && claims[i].eid == eid && l in claims[i].landed
  }

  /** A layer holds an event exactly when some dispatch of it landed there. */
  ghost predicate Contents(s: State) {
    && (forall i :: 0 <= i < |s.claims| ==> ClaimOk(s.claims[i]))
    && (forall l, eid :: (l, eid) in s.layers <==> LandedBy(s.claims, l, eid))
  }

  ghost predicate Inv(s: State) {
    Position(s) && Current(s) && Spaced(s) && Contents(s)
  }

  /** The last claim replaced by one for the same id, and the process moved. */
  function Swap(s: State, c: Claim, process: Process, layers: set<(Layer, string)>): State
    requires s.claims != []
  {
    s.(claims := s.claims[|s.claims| - 1 := c], process := process, layers := layers)
  }

  lemma SwapPosition(s: State, c: Claim, process: Process, layers: set<(Layer, string)>)
    requires Position(s) && s.claims != [] && c.eid == s.claims[|s.claims| - 1].eid && !process.Routing?
    requires s.committed <= Front(s.(process := process)) <= Front(s)
    ensures Position(Swap(s, c, process, layers))
  {
    var s' := Swap(s, c, process, layers);
    forall eid ensures HasClaim(s.claims, eid) ==> HasClaim(s'.claims, eid) {
      if i :| 0 <= i < |s.claims| && s.claims[i].eid == eid { assert s'.claims[i].eid == eid; }
    }
    forall o | 0 <= o < Front(s') ensures Settled(s', o) { assert Settled(s, o); }
  }

  lemma SwapContents(s: State, c: Claim, process: Process, layers: set<(Layer, string)>)
    requires Contents(s) && s.claims != [] && c.eid == s.claims[|s.claims| - 1].eid && ClaimOk(c)
    requires s.claims[|s.claims| - 1].landed <= c.landed && layers == s.layers + (set l | l in c.landed :: (l, c.eid))
    ensures Contents(Swap(s, c, process, layers))
  {
    LandedUpdate(s.claims, c, s.layers);
  }

  /** A change to the last claim that keeps its id and time and only adds landed layers. */
  lemma SwapKeepsInv(s: State, c: Claim, process: Process, layers: set<(Layer, string)>)
    requires Inv(s) && s.claims != []
    requires var last := s.claims[|s.claims| - 1]; c.eid == last.eid && c.at == last.at && last.landed <= c.landed
    requires ClaimOk(c) && layers == s.layers + (set l | l in c.landed :: (l, c.eid))
    requires s.committed <= Front(s.(process := process)) <= Front(s) && !process.Routing?
    requires if process.Claimed? then c.fate.Held?
             else if process.Gathering? then c.fate.Running? else !c.fate.Held? && !c.fate.Running?
    ensures Inv(Swap(s, c, process, layers))
  {
    SwapPosition(s, c, process, layers);
    SwapContents(s, c, process, layers);
  }

  lemma LandedUpdate(claims: seq<Claim>, c: Claim, layers: set<(Layer, string)>)
    requires claims != [] && c.eid == claims[|claims| - 1].eid && claims[|claims| - 1].landed <= c.landed
    requires forall l, eid :: (l, eid) in layers <==> LandedBy(claims, l, eid)
    ensures var after := layers + (set l | l in c.landed :: (l, c.eid));
      forall l, eid :: (l, eid) in after <==> LandedBy(claims[|claims| - 1 := c], l, eid)
  {
    var n, after := |claims| - 1, claims[|claims| - 1 := c];
    forall l, eid ensures (l, eid) in layers + (set l' | l' in c.landed :: (l', c.eid)) <==> LandedBy(after, l, eid) {
      if LandedBy(claims, l, eid) {
        var i :| 0 <= i < |claims| && claims[i].eid == eid && l in claims[i].landed;
        assert after[i].eid == eid && l in after[i].landed;
      }
      if eid == c.eid && l in c.landed { assert after[n].eid == eid && l in after[n].landed; }
      if LandedBy(after, l, eid) {
        var i :| 0 <= i < |after| && after[i].eid == eid && l in after[i].landed;
        if i != n { assert claims[i].eid == eid && l in claims[i].landed; }
      }
    }
  }

  predicate Claiming(s: State, fate: Fate, process: Process) {
    && s.process.Routing? && s.process.pos < |s.log| && KeyFree(s, s.log[s.process.pos].eid)
    && s.process.pos in s.handed
    && ((fate.Held? && process == Claimed(s.process.pos)) || (fate.Abandoned? && process == Ready(s.process.pos + 1)))
  }

  lemma PushPosition(s: State, fate: Fate, process: Process)
    requires Position(s) && Claiming(s, fate, process)
    ensures Position(Push(s.(process := process), s.process.pos, fate))
  {
    var eid := s.log[s.process.pos].eid;
    var s' := Push(s.(process := process), s.process.pos, fate);
    assert s'.claims[|s.claims|].eid == eid;
    forall id ensures HasClaim(s'.claims, id) <==> id == eid || HasClaim(s.claims, id) {
      if i :| 0 <= i < |s.claims| && s.claims[i].eid == id { assert s'.claims[i].eid == id; }
    }
    forall o | 0 <= o < Front(s') ensures Settled(s', o) {
      if o < Front(s) { assert Settled(s, o); }
    }
  }

  lemma PushContents(s: State, fate: Fate, process: Process)
    requires Contents(s) && Claiming(s, fate, process)
    ensures Contents(Push(s.(process := process), s.process.pos, fate))
  {
    var s' := Push(s.(process := process), s.process.pos, fate);
    forall l, id ensures LandedBy(s'.claims, l, id) <==> LandedBy(s.claims, l, id) {
      if i :| 0 <= i < |s.claims| && s.claims[i].eid == id && l in s.claims[i].landed { assert s'.claims[i].eid == id; }
    }
  }

  /** A new claim for a free key. */
  lemma PushKeepsInv(s: State, fate: Fate, process: Process)
    requires Inv(s) && Claiming(s, fate, process)
    ensures Inv(Push(s.(process := process), s.process.pos, fate))
  {
    PushPosition(s, fate, process);
    PushContents(s, fate, process);
  }

  /** Events that leave claims and layers alone. */
  lemma MoveKeepsInv(s: State, s': State)
    requires Inv(s) && s'.claims == s.claims && s'.layers == s.layers && s'.dedup == s.dedup
    requires |s.log| <= |s'.log| && s'.log[..|s.log|] == s.log && s.handed <= s'.handed && s.refused <= s'.refused
    requires s'.committed <= Front(s') <= |s'.log| && (s'.process.Routing? ==> s'.process.pos < |s'.log|)
    requires AtWork(s) == AtWork(s') && (AtWork(s) ==> s'.process == s.process)
    requires forall o :: Front(s) <= o < Front(s') ==> Settled(s', o)
    ensures Inv(s')
  {
    forall o | 0 <= o < Front(s') ensures Settled(s', o) {
      if o < Front(s) { assert Settled(s, o) && s'.log[o] == s.log[o]; }
    }
    if AtWork(s) { assert s'.log[Front(s) - 1] == s.log[Front(s) - 1]; }
  }

  ghost predicate Handing(s: State) {
    !s.process.Down? && !s.process.Ready? ==> s.process.pos in s.handed
  }

  lemma ApplyKeepsInv(s: State, e: Event)
    requires Inv(s) && Handing(s) && Enabled(s, e)
    ensures Inv(Apply(s, e)) && Handing(Apply(s, e))
  {
    var s' := Apply(s, e);
    match e
    case Crash =>
      if AtWork(s) { CrashKeepsInv(s); } else { MoveKeepsInv(s, s'); }
    case DedupRaises(landed) =>
      if landed { PushKeepsInv(s, Abandoned, Ready(s.process.pos + 1)); } else { RefusedKeepsInv(s); }
    case DedupAnswers =>
      var eid := s.log[s.process.pos].eid;
      if eid == "" || !KeyFree(s, eid) { SkipKeepsInv(s); } else { PushKeepsInv(s, Held, Claimed(s.process.pos)); }
    case StartGather => StartGatherKeepsInv(s);
    case Write(l, lands, ok) => WriteKeepsInv(s, l, lands, ok);
    case GatherEnds => GatherEndsKeepsInv(s);
    case _ => MoveKeepsInv(s, s');
  }

  lemma SkipKeepsInv(s: State)
    requires Inv(s) && Handing(s) && Enabled(s, DedupAnswers)
    requires s.log[s.process.pos].eid == "" || !KeyFree(s, s.log[s.process.pos].eid)
    ensures Inv(Apply(s, DedupAnswers))
  {
    var s' := Apply(s, DedupAnswers);
    assert Settled(s', s.process.pos);
    MoveKeepsInv(s, s');
  }

  lemma RefusedKeepsInv(s: State)
    requires Inv(s) && Handing(s) && Enabled(s, DedupRaises(false))
    ensures Inv(Apply(s, DedupRaises(false)))
  {
    var s' := Apply(s, DedupRaises(false));
    assert Settled(s', s.process.pos);
    MoveKeepsInv(s, s');
  }

  lemma SameLayers(s: State)
    requires Inv(s) && s.claims != []
    ensures var c := s.claims[|s.claims| - 1]; s.layers == s.layers + (set l | l in c.landed :: (l, c.eid))
  {
    var c := s.claims[|s.claims| - 1];
    forall l | l in c.landed ensures (l, c.eid) in s.layers { assert LandedBy(s.claims, l, c.eid); }
  }

  lemma StartGatherKeepsInv(s: State)
    requires Inv(s) && Enabled(s, StartGather)
    ensures Inv(Apply(s, StartGather))
  {
    var c := s.claims[|s.claims| - 1];
    assert ClaimOk(c);
    var tasks := ListSet(TaskList(s.log[s.process.pos], s.clock, s.vectorOn));
    SameLayers(s);
    SwapKeepsInv(s, c.(begun := s.clock, wanted := tasks, fate := Running(tasks, false)), Gathering(s.process.pos),
      s.layers);
  }

  lemma GatherEndsKeepsInv(s: State)
    requires Inv(s) && Enabled(s, GatherEnds)
    ensures Inv(Apply(s, GatherEnds))
  {
    var c := s.claims[|s.claims| - 1];
    assert ClaimOk(c);
    SameLayers(s);
    var c', process := c.(fate := Finished(c.fate.failed)), Apply(s, GatherEnds).process;
    assert Apply(s, GatherEnds) == Swap(s, c', process, s.layers) by {
      assert WithFate(s.claims, c'.fate) == s.claims[|s.claims| - 1 := c'];
    }
    assert ClaimOk(c');
    SwapKeepsInv(s, c', process, s.layers);
  }

  lemma CrashKeepsInv(s: State)
    requires Inv(s) && AtWork(s)
    ensures Inv(Apply(s, Crash))
  {
    var c := s.claims[|s.claims| - 1];
    assert ClaimOk(c);
    SameLayers(s);
    var c' := c.(fate := if s.process.Claimed? then Abandoned else Interrupted);
    assert ClaimOk(c');
    assert Apply(s, Crash) == Swap(s, c', Down, s.layers) by {
      assert WithFate(s.claims, c'.fate) == s.claims[|s.claims| - 1 := c'];
    }
    SwapKeepsInv(s, c', Down, s.layers);
  }

  lemma WriteKeepsInv(s: State, l: Layer, lands: bool, ok: bool)
    requires Inv(s) && Enabled(s, Write(l, lands, ok))
    ensures Inv(Apply(s, Write(l, lands, ok)))
  {
    var c := s.claims[|s.claims| - 1];
    assert ClaimOk(c);
    var c' := c.(landed := if lands then c.landed + {l} else c.landed,
                 fate := Running(c.fate.pending - {l}, c.fate.failed || !ok));
    var layers := if lands then s.layers + {(l, c.eid)} else s.layers;
    SameLayers(s);
    assert layers == s.layers + (set k | k in c'.landed :: (k, c'.eid));
    SwapKeepsInv(s, c', s.process, layers);
  }

  lemma {:induction false} RunKeepsInv(s: State, es: seq<Event>)
    requires Inv(s) && Handing(s) && Legal(s, es)
    ensures Inv(After(s, es))
    decreases |es|
  {
    if es != [] {
      ApplyKeepsInv(s, es[0]);
      RunKeepsInv(Apply(s, es[0]), es[1..]);
    }
  }

  lemma InitialInv(log: seq<Msg>, vectorOn: bool)
    ensures Inv(Initial(log, vectorOn))
  {
  }

  // ----- the guarantees ---------------------------------------------------------------

  /** In every run with crashes, redelivery and failing writes, an id is fanned out at most once
      per lifetime of its dedup key: dispatches belong to claims, one each, and two claims of the
      same id are more than a lifetime apart. */
  lemma FanOutOncePerLifetime(log: seq<Msg>, vectorOn: bool, es: seq<Event>, i: nat, j: nat)
    requires Legal(Initial(log, vectorOn), es)
    requires i < j < |After(Initial(log, vectorOn), es).claims|
    ensures var cs := After(Initial(log, vectorOn), es).claims;
      Dispatched(cs[i]) && Dispatched(cs[j]) && cs[i].eid == cs[j].eid ==> cs[i].at + 86400 < cs[j].at
  {
    InitialInv(log, vectorOn);
    RunKeepsInv(Initial(log, vectorOn), es);
  }

  /** Why an event may be missing from a layer its dispatch wanted. */
  predicate Excuse(c: Claim) {
    c.fate.Abandoned? || c.fate.Interrupted? || c.fate == Finished(true) || c.fate.Held? || c.fate.Running?
  }

  /** The committed offset never passes a message that was not handed to `_route`.  A committed
      message with an id has a claim, unless its dedup call raised without effect; and each claim of
      that id is in every layer it wanted, the episodic and procedural ones at least, unless its own
      dispatch failed, was cut off or never began. */
  lemma CommittedMessages(log: seq<Msg>, vectorOn: bool, es: seq<Event>, o: nat)
    requires Legal(Initial(log, vectorOn), es) && o < After(Initial(log, vectorOn), es).committed
    ensures var s := After(Initial(log, vectorOn), es);
      && o < |s.log| && o in s.handed
      && (s.log[o].eid != "" && o !in s.refused ==> HasClaim(s.claims, s.log[o].eid))
      && (forall i :: 0 <= i < |s.claims| && s.claims[i].eid == s.log[o].eid ==>
           Excuse(s.claims[i]) || Complete(s, s.claims[i]))
  {
    InitialInv(log, vectorOn);
    RunKeepsInv(Initial(log, vectorOn), es);
    var s := After(Initial(log, vectorOn), es);
    assert Settled(s, o);
    forall i | 0 <= i < |s.claims| && !Excuse(s.claims[i]) ensures Complete(s, s.claims[i]) {
      assert ClaimOk(s.claims[i]);
      forall l | l in s.claims[i].wanted ensures (l, s.claims[i].eid) in s.layers {
        assert LandedBy(s.claims, l, s.claims[i].eid);
      }
    }
  }

  /** The layers a claim wanted hold its event, and it wanted at least two. */
  ghost predicate Complete(s: State, c: Claim) {
    {Episodic, Procedural} <= c.wanted && forall l :: l in c.wanted ==> (l, c.eid) in s.layers
  }

  // ----- which events a layer can hold ----------------------------------------------------

  /** The layer is meant for messages like this. */
  predicate Qualifies(m: Msg, l: Layer, vectorOn: bool) {
    match l
    case Episodic => true
    case Procedural => true
    case Working => m.severity.High? || m.severity.Critical?
    case Semantic => m.hasRefs
    case Vector => vectorOn && !m.severity.Info? && !m.severity.Low?
  }

  /** It is to be written there now: working memory takes no event that is two minutes old, unless its
      time cannot be read. */
  predicate Due(m: Msg, now: int, l: Layer, vectorOn: bool) {
    Qualifies(m, l, vectorOn) && (l.Working? ==> m.ts.None? || now - m.ts.value < 120)
  }

  ghost predicate SourceOk(s: State, c: Claim) {
    && c.offset < |s.log| && c.offset in s.handed && s.log[c.offset].eid == c.eid && c.eid != ""
    && (if Dispatched(c)
        then c.at <= c.begun <= s.clock && forall l :: l in c.wanted <==> Due(s.log[c.offset], c.begun, l, s.vectorOn)
        else c.wanted == {} && c.at <= s.clock)
  }

  ghost predicate Sourced(s: State) {
    && (forall i :: 0 <= i < |s.claims| ==> SourceOk(s, s.claims[i]))
    && (s.process.Claimed? && s.claims != [] ==> s.claims[|s.claims| - 1].offset == s.process.pos)
  }

  /** The task list has exactly the layers to which the message is due. */
  lemma TasksAreDue(m: Msg, now: int, vectorOn: bool, l: Layer)
    ensures l in TaskList(m, now, vectorOn) <==> Due(m, now, l, vectorOn)
  {
    match l
    case Episodic => assert TaskList(m, now, vectorOn)[0] == Episodic;
    case Procedural => assert TaskList(m, now, vectorOn)[1] == Procedural;
    case _ =>
  }

  lemma ApplyKeepsSourced(s: State, e: Event)
    requires Sourced(s) && Inv(s) && Handing(s) && Enabled(s, e)
    ensures Sourced(Apply(s, e))
  {
    var t := Apply(s, e);
    if e.StartGather? {
      StartGatherSourced(s);
    } else {
      forall i | 0 <= i < |t.claims| ensures SourceOk(t, t.claims[i]) {
        if i < |s.claims| { SourceStays(s, e, i); } else { NewIsSourced(s, e, i); }
      }
      PositionKept(s, e);
    }
  }

  lemma SourceStays(s: State, e: Event, i: nat)
    requires Sourced(s) && Inv(s) && Enabled(s, e) && !e.StartGather? && i < |s.claims|
    ensures i < |Apply(s, e).claims| && SourceOk(Apply(s, e), Apply(s, e).claims[i])
  {
    assert SourceOk(s, s.claims[i]);
    KeepsWanted(s, e, i);
  }

  lemma NewIsSourced(s: State, e: Event, i: nat)
    requires Handing(s) && Enabled(s, e) && |s.claims| <= i < |Apply(s, e).claims|
    ensures SourceOk(Apply(s, e), Apply(s, e).claims[i])
  {
  }

  lemma PositionKept(s: State, e: Event)
    requires Sourced(s) && Enabled(s, e) && !e.StartGather?
    ensures var t := Apply(s, e);
      t.process.Claimed? && t.claims != [] ==> t.claims[|t.claims| - 1].offset == t.process.pos
  {
  }

  lemma StartGatherSourced(s: State)
    requires Sourced(s) && Inv(s) && Handing(s) && Enabled(s, StartGather)
    ensures Sourced(Apply(s, StartGather))
  {
    var m, n := s.log[s.process.pos], |s.claims| - 1;
    assert SourceOk(s, s.claims[n]) && s.claims[n].offset == s.process.pos;
    forall l ensures l in ListSet(TaskList(m, s.clock, s.vectorOn)) <==> Due(m, s.clock, l, s.vectorOn) {
      TasksAreDue(m, s.clock, s.vectorOn, l);
    }
    var t := Apply(s, StartGather);
    forall i | 0 <= i < |t.claims| ensures SourceOk(t, t.claims[i]) {
      if i < n { assert t.claims[i] == s.claims[i] && SourceOk(s, s.claims[i]); }
    }
  }

  lemma KeepsWanted(s: State, e: Event, i: nat)
    requires Inv(s) && Enabled(s, e) && !e.StartGather? && i < |s.claims|
    ensures var t := Apply(s, e);
      && i < |t.claims| && SameOrigin(s.claims[i], t.claims[i])
      && (Dispatched(t.claims[i]) <==> Dispatched(s.claims[i]))
      && s.clock <= t.clock
      && |s.log| <= |t.log| && t.log[..|s.log|] == s.log && s.handed <= t.handed && t.vectorOn == s.vectorOn
  {
    LogGrows(s, e);
    if i == |s.claims| - 1 && (e.Crash? || e.Write? || e.GatherEnds?) { LastClaimKept(s, e); }
  }

  predicate SameOrigin(c: Claim, d: Claim) {
    d.offset == c.offset && d.eid == c.eid && d.at == c.at && d.begun == c.begun && d.wanted == c.wanted
  }

  lemma LogGrows(s: State, e: Event)
    requires Enabled(s, e)
    ensures var t := Apply(s, e);
      && s.clock <= t.clock && |s.log| <= |t.log| && t.log[..|s.log|] == s.log && s.handed <= t.handed
      && t.vectorOn == s.vectorOn
  {
  }

  lemma LastClaimKept(s: State, e: Event)
    requires Current(s) && Enabled(s, e) && (e.Crash? || e.Write? || e.GatherEnds?) && s.claims != []
    ensures var n, t := |s.claims| - 1, Apply(s, e);
      && |t.claims| == n + 1 && SameOrigin(s.claims[n], t.claims[n])
      && (Dispatched(t.claims[n]) <==> Dispatched(s.claims[n]))
  {
  }

  lemma {:induction false} RunKeepsSourced(s: State, es: seq<Event>)
    requires Inv(s) && Handing(s) && Sourced(s) && Legal(s, es)
    ensures Sourced(After(s, es))
    decreases |es|
  {
    if es != [] {
      ApplyKeepsInv(s, es[0]);
      ApplyKeepsSourced(s, es[0]);
      RunKeepsSourced(Apply(s, es[0]), es[1..]);
    }
  }

  /** Over any run, an event is in a layer only if a message with its id that was handed over
      qualifies for that layer; so working memory never gets an event below high. */
  lemma LayersHoldTheirOwn(log: seq<Msg>, vectorOn: bool, es: seq<Event>, l: Layer, eid: string)
    requires Legal(Initial(log, vectorOn), es)
    ensures var s := After(Initial(log, vectorOn), es);
      (l, eid) in s.layers ==>
        exists o :: o in s.handed && o < |s.log| && s.log[o].eid == eid && Qualifies(s.log[o], l, s.vectorOn)
  {
    InitialInv(log, vectorOn);
    RunKeepsSourced(Initial(log, vectorOn), es);
    LayerHoldsIff(log, vectorOn, es, l, eid);
    var s := After(Initial(log, vectorOn), es);
    if (l, eid) in s.layers {
      var i :| 0 <= i < |s.claims| && s.claims[i].eid == eid && l in s.claims[i].landed && l in s.claims[i].wanted;
      assert SourceOk(s, s.claims[i]);
    }
  }

  /** Over any run: a claim whose gather ended without a failure has put its event into every layer to
      which its message was due when the gather began; working, semantic and vector memory included. */
  lemma FinishedReachesAll(log: seq<Msg>, vectorOn: bool, es: seq<Event>, i: nat)
    requires Legal(Initial(log, vectorOn), es) && i < |After(Initial(log, vectorOn), es).claims|
    requires After(Initial(log, vectorOn), es).claims[i].fate == Finished(false)
    ensures var s := After(Initial(log, vectorOn), es);
      var c := s.claims[i];
      && c.offset < |s.log| && s.log[c.offset].eid == c.eid && c.at <= c.begun <= s.clock
      && forall l :: Due(s.log[c.offset], c.begun, l, s.vectorOn) ==> (l, c.eid) in s.layers
  {
    InitialInv(log, vectorOn);
    RunKeepsInv(Initial(log, vectorOn), es);
    RunKeepsSourced(Initial(log, vectorOn), es);
    var s := After(Initial(log, vectorOn), es);
    var c := s.claims[i];
    assert SourceOk(s, c) && ClaimOk(c);
    forall l | Due(s.log[c.offset], c.begun, l, s.vectorOn) ensures (l, c.eid) in s.layers {
      assert l in c.wanted && LandedBy(s.claims, l, c.eid);
    }
  }

  // ----- which messages are duplicates -------------------------------------------------------

  ghost predicate ClaimedUntil(s: State, eid: string, until: nat) {
    exists i :: 0 <= i < |s.claims| && s.claims[i].eid == eid && s.claims[i].at + 86400 == until
  }

  /** Every key was set by some claim, for a day. */
  ghost predicate Remembered(s: State) {
    forall eid :: eid in s.dedup ==> ClaimedUntil(s, eid, s.dedup[eid])
  }

  /** No event takes a claim back or moves it. */
  lemma ClaimsStay(s: State, e: Event)
    requires Enabled(s, e)
    ensures var t := Apply(s, e);
      |s.claims| <= |t.claims|
      && forall i :: 0 <= i < |s.claims| ==> t.claims[i].eid == s.claims[i].eid && t.claims[i].at == s.claims[i].at
  {
  }

  /** A key is only ever set together with a claim. */
  lemma KeysChange(s: State, e: Event)
    requires Enabled(s, e)
    ensures var t := Apply(s, e);
      t.dedup == s.dedup ||
      (|t.claims| == |s.claims| + 1
       && var c := t.claims[|s.claims|]; c.at == s.clock && t.dedup == s.dedup[c.eid := s.clock + 86400])
  {
  }

  lemma ApplyKeepsRemembered(s: State, e: Event)
    requires Remembered(s) && Enabled(s, e)
    ensures Remembered(Apply(s, e))
  {
    var t := Apply(s, e);
    ClaimsStay(s, e);
    KeysChange(s, e);
    forall eid | eid in t.dedup ensures ClaimedUntil(t, eid, t.dedup[eid]) {
      if eid in s.dedup && s.dedup[eid] == t.dedup[eid] {
        assert ClaimedUntil(s, eid, s.dedup[eid]);
        var i :| 0 <= i < |s.claims| && s.claims[i].eid == eid && s.claims[i].at + 86400 == s.dedup[eid];
        assert t.claims[i].eid == eid && t.claims[i].at == s.claims[i].at;
      } else {
        assert t.claims[|s.claims|].eid == eid && t.claims[|s.claims|].at + 86400 == t.dedup[eid];
      }
    }
  }

  lemma {:induction false} RunKeepsRemembered(s: State, es: seq<Event>)
    requires Remembered(s) && Inv(s) && Handing(s) && Legal(s, es)
    ensures Remembered(After(s, es))
    decreases |es|
  {
    if es != [] {
      ApplyKeepsInv(s, es[0]);
      ApplyKeepsRemembered(s, es[0]);
      RunKeepsRemembered(Apply(s, es[0]), es[1..]);
    }
  }

  /** Over any run: a message with an id is taken for a duplicate exactly if its id was claimed at most
      86400 seconds ago; otherwise an answered dedup call claims it. */
  lemma DuplicateIff(log: seq<Msg>, vectorOn: bool, es: seq<Event>)
    requires Legal(Initial(log, vectorOn), es) && Enabled(After(Initial(log, vectorOn), es), DedupAnswers)
    ensures var s := After(Initial(log, vectorOn), es);
      var eid := s.log[s.process.pos].eid;
      eid != "" ==>
        (Apply(s, DedupAnswers).process.Committing? <==>
           exists i :: 0 <= i < |s.claims| && s.claims[i].eid == eid && s.clock - s.claims[i].at <= 86400)
        && (!Apply(s, DedupAnswers).process.Committing? ==>
              Apply(s, DedupAnswers).process.Claimed? && |Apply(s, DedupAnswers).claims| == |s.claims| + 1)
  {
    InitialInv(log, vectorOn);
    RunKeepsInv(Initial(log, vectorOn), es);
    RunKeepsRemembered(Initial(log, vectorOn), es);
    var s := After(Initial(log, vectorOn), es);
    var eid := s.log[s.process.pos].eid;
    if eid in s.dedup { assert ClaimedUntil(s, eid, s.dedup[eid]); }
  }

  /** The claims account for the layers: what a layer holds, some dispatch wanted there and put. */
  lemma LayerHoldsIff(log: seq<Msg>, vectorOn: bool, es: seq<Event>, l: Layer, eid: string)
    requires Legal(Initial(log, vectorOn), es)
    ensures var s := After(Initial(log, vectorOn), es);
      (l, eid) in s.layers <==>
        exists i :: 0 <= i < |s.claims| && s.claims[i].eid == eid && l in s.claims[i].landed && l in s.claims[i].wanted
  {
    InitialInv(log, vectorOn);
    RunKeepsInv(Initial(log, vectorOn), es);
    var s := After(Initial(log, vectorOn), es);
    if (l, eid) in s.layers {
      assert LandedBy(s.claims, l, eid);
      var i :| 0 <= i < |s.claims| && s.claims[i].eid == eid && l in s.claims[i].landed;
      assert ClaimOk(s.claims[i]);
    }
  }

  lemma {:induction false} Extend(s: State, es: seq<Event>, e: Event)
    requires Legal(s, es) && Enabled(After(s, es), e)
    ensures Legal(s, es + [e]) && After(s, es + [e]) == Apply(After(s, es), e)
    decreases |es|
  {
    if es == [] {
      assert [e][1..] == [];
      assert After(Apply(s, e), []) == Apply(s, e);
    } else {
      Extend(Apply(s, es[0]), es[1..], e);
      assert (es + [e])[1..] == es[1..] + [e];
    }
  }

  lemma Cons(s: State, e: Event, es: seq<Event>)
    requires Enabled(s, e) && Legal(Apply(s, e), es)
    ensures Legal(s, [e] + es) && After(s, [e] + es) == After(Apply(s, e), es)
  {
    assert ([e] + es)[1..] == es;
  }

  /** The same layers hold the given id. */
  ghost predicate SameLayersFor(s: State, t: State, eid: string) {
    forall l :: (l, eid) in t.layers <==> (l, eid) in s.layers
  }

  /** Nothing about the given id has changed, and neither have the log, the keys and the commit. */
  ghost predicate SameFor(s: State, s': State, eid: string) {
    && s'.log == s.log && s'.dedup == s.dedup && s'.clock == s.clock && s'.committed == s.committed
    && SameLayersFor(s, s', eid)
  }

  /** A gather without failures so far can succeed. */
  lemma {:induction false} GatherSucceeds(s: State, eid: string) returns (es: seq<Event>)
    requires s.process.Gathering? && s.claims != []
    requires var c := s.claims[|s.claims| - 1]; c.fate.Running? && !c.fate.failed && c.eid != eid
    ensures Legal(s, es) && After(s, es).process == Committing(s.process.pos) && SameFor(s, After(s, es), eid)
    decreases |s.claims[|s.claims| - 1].fate.pending|
  {
    var c := s.claims[|s.claims| - 1];
    if c.fate.pending == {} {
      assert Apply(s, GatherEnds).process == Committing(s.process.pos);
      assert After(Apply(s, GatherEnds), []) == Apply(s, GatherEnds);
      Cons(s, GatherEnds, []);
      es := [GatherEnds] + [];
    } else {
      var l :| l in c.fate.pending;
      var e := Write(l, true, true);
      var next := Apply(s, e);
      assert next.claims[|s.claims| - 1].fate == Running(c.fate.pending - {l}, false);
      assert SameFor(s, next, eid);
      var more := GatherSucceeds(next, eid);
      Cons(s, e, more);
      es := [e] + more;
    }
  }

  /** A claim for another id can be served and its message committed. */
  lemma ClaimCommits(s: State, eid: string) returns (es: seq<Event>)
    requires Enabled(s, StartGather) && s.claims[|s.claims| - 1].eid != eid
    ensures Legal(s, es) && After(s, es).committed == s.process.pos + 1
    ensures After(s, es).process == Ready(s.process.pos + 1)
    ensures After(s, es).log == s.log && After(s, es).clock == s.clock && After(s, es).dedup == s.dedup
    ensures SameLayersFor(s, After(s, es), eid)
  {
    var s1 := Apply(s, StartGather);
    var more := GatherSucceeds(s1, eid);
    Extend(s1, more, CommitLands);
    Cons(s, StartGather, more + [CommitLands]);
    es := [StartGather] + (more + [CommitLands]);
  }

  /** A message about another id can be handled and committed. */
  lemma NextCommits(s: State, eid: string) returns (es: seq<Event>)
    requires s.process.Ready? && s.process.pos < |s.log| && (s.log[s.process.pos].eid != eid || !KeyFree(s, eid))
    ensures Legal(s, es) && After(s, es).committed == s.process.pos + 1 && After(s, es).clock == s.clock
    ensures After(s, es).process == Ready(s.process.pos + 1) && After(s, es).log == s.log
    ensures SameLayersFor(s, After(s, es), eid)
    ensures eid in s.dedup ==> eid in After(s, es).dedup && After(s, es).dedup[eid] == s.dedup[eid]
  {
    var s1 := Apply(s, Fetch);
    var s2 := Apply(s1, DedupAnswers);
    if s2.process.Committing? {
      CommitFrom(s2);
      es := [CommitLands];
    } else {
      es := ClaimCommits(s2, eid);
    }
    Cons(s1, DedupAnswers, es);
    Cons(s, Fetch, [DedupAnswers] + es);
    es := [Fetch] + ([DedupAnswers] + es);
  }

  lemma CommitFrom(s: State)
    requires s.process.Committing?
    ensures Legal(s, [CommitLands]) && After(s, [CommitLands]) == Apply(s, CommitLands)
  {
    assert [CommitLands][1..] == [];
    assert After(Apply(s, CommitLands), []) == Apply(s, CommitLands);
  }

  // ----- events that get lost ---------------------------------------------------------------

  /** The process holds a claim of this id whose writes have not all ended. */
  predicate Serving(s: State, eid: string) {
    AtWork(s) && s.claims != [] && s.claims[|s.claims| - 1].eid == eid
  }

  lemma {:induction false} ClockGrows(s: State, es: seq<Event>)
    requires Legal(s, es)
    ensures s.clock <= After(s, es).clock
    decreases |es|
  {
    if es != [] { ClockGrows(Apply(s, es[0]), es[1..]); }
  }

  /** While its key is set and nobody serves it, nothing that can happen adds an event to a layer:
      no redelivery, no restart and no later message. */
  lemma {:induction false} SetKeyFreezesLayers(s: State, es: seq<Event>, eid: string)
    requires eid in s.dedup && !Serving(s, eid) && Legal(s, es) && After(s, es).clock <= s.dedup[eid]
    ensures SameLayersFor(s, After(s, es), eid)
    ensures eid in After(s, es).dedup && After(s, es).dedup[eid] == s.dedup[eid] && !Serving(After(s, es), eid)
    decreases |es|
  {
    if es != [] {
      var t := Apply(s, es[0]);
      ClockGrows(s, [es[0]]) by { assert [es[0]][1..] == []; }
      ClockGrows(t, es[1..]);
      SetKeyStays(s, es[0], eid);
      SetKeyFreezesLayers(t, es[1..], eid);
    }
  }

  lemma SetKeyStays(s: State, e: Event, eid: string)
    requires eid in s.dedup && !Serving(s, eid) && Enabled(s, e) && s.clock <= s.dedup[eid]
    ensures var t := Apply(s, e);
      SameLayersFor(s, t, eid) && eid in t.dedup && t.dedup[eid] == s.dedup[eid] && !Serving(t, eid)
  {
  }

  /** An event is lost here: its key is set, and until that expires no continuation at all changes
      which layers hold it, although the commit has passed offset o. */
  ghost predicate Passed(s: State, t: State, o: nat, eid: string) {
    && o < t.committed && SameLayersFor(s, t, eid) && !KeyFree(t, eid)
    && forall es :: Legal(t, es) && After(t, es).clock <= t.dedup[eid] ==> SameLayersFor(s, After(t, es), eid)
  }

  /** From a process that is about to fetch, everything up to offset o can be committed. */
  lemma {:induction false} CommitUpTo(s: State, o: nat, eid: string) returns (es: seq<Event>)
    requires s.process.Ready? && s.process.pos <= o < |s.log| && !KeyFree(s, eid)
    ensures Legal(s, es) && Passed(s, After(s, es), o, eid) && After(s, es).dedup[eid] == s.dedup[eid]
    decreases o - s.process.pos
  {
    es := NextCommits(s, eid);
    var t := After(s, es);
    if s.process.pos < o {
      var more := CommitUpTo(t, o, eid);
      Compose(s, es, more);
      es := es + more;
    } else {
      StaysPassed(s, t, o, eid);
    }
  }

  lemma StaysPassed(s: State, t: State, o: nat, eid: string)
    requires o < t.committed && SameLayersFor(s, t, eid) && !KeyFree(t, eid) && !Serving(t, eid)
    ensures Passed(s, t, o, eid)
  {
    forall es | Legal(t, es) && After(t, es).clock <= t.dedup[eid] ensures SameLayersFor(s, After(t, es), eid) {
      SetKeyFreezesLayers(t, es, eid);
    }
  }

  lemma {:induction false} Compose(s: State, es: seq<Event>, more: seq<Event>)
    requires Legal(s, es) && Legal(After(s, es), more)
    ensures Legal(s, es + more) && After(s, es + more) == After(After(s, es), more)
    decreases |es|
  {
    if es == [] {
      assert es + more == more;
    } else {
      Compose(Apply(s, es[0]), es[1..], more);
      assert (es + more)[1..] == es[1..] + more;
    }
  }

  /** A successor takes up what is not committed. */
  lemma Restart(s: State, o: nat, eid: string) returns (es: seq<Event>)
    requires s.process.Down? && o < |s.log| && !KeyFree(s, eid)
    ensures Legal(s, es) && Passed(s, After(s, es), o, eid)
  {
    var t := Apply(s, Start);
    var more := [];
    if s.committed <= o { more := CommitUpTo(t, o, eid); } else { StaysPassed(s, t, o, eid); }
    Cons(s, Start, more);
    es := [Start] + more;
  }

  /** A process that dies at any point between setting the key and the end of gather: its successor
      skips the redelivered message as a duplicate and commits it.  If this was the first claim
      of the id and gather had not begun, no layer holds the event. */
  lemma CrashLosesEvent(s: State) returns (es: seq<Event>)
    requires Inv(s) && AtWork(s) && s.process.pos < |s.log| && !KeyFree(s, s.claims[|s.claims| - 1].eid)
    ensures var eid := s.claims[|s.claims| - 1].eid;
      && Legal(s, es) && Passed(s, After(s, es), s.process.pos, eid)
      && (s.process.Claimed? && !HasClaim(s.claims[..|s.claims| - 1], eid) ==>
           forall l :: (l, eid) !in After(s, es).layers)
  {
    var eid := s.claims[|s.claims| - 1].eid;
    var s1 := Apply(s, Crash);
    var more := Restart(s1, s.process.pos, eid);
    Cons(s, Crash, more);
    es := [Crash] + more;
    if s.process.Claimed? && !HasClaim(s.claims[..|s.claims| - 1], eid) {
      forall l ensures (l, eid) !in s.layers { FirstClaimIsAbsent(s, l); }
    }
  }

  lemma FirstClaimIsAbsent(s: State, l: Layer)
    requires Inv(s) && s.process.Claimed? && !HasClaim(s.claims[..|s.claims| - 1], s.claims[|s.claims| - 1].eid)
    ensures (l, s.claims[|s.claims| - 1].eid) !in s.layers
  {
    var n := |s.claims| - 1;
    assert ClaimOk(s.claims[n]);
    assert forall i :: 0 <= i < n ==> s.claims[..n][i] == s.claims[i];
    assert !LandedBy(s.claims, l, s.claims[n].eid);
  }

  /** A process that sets the key but loses the reply: the next message commits past it. */
  lemma LostReplyLosesEvent(s: State) returns (es: seq<Event>)
    requires Enabled(s, DedupRaises(true)) && s.process.pos + 1 < |s.log|
    ensures var eid := s.log[s.process.pos].eid;
      Legal(s, es) && Passed(s, After(s, es), s.process.pos, eid)
  {
    var eid := s.log[s.process.pos].eid;
    var s1 := Apply(s, DedupRaises(true));
    var more := CommitUpTo(s1, s.process.pos + 1, eid);
    Cons(s, DedupRaises(true), more);
    es := [DedupRaises(true)] + more;
  }

  /** A dispatch that has failed: the next message, whatever it is, commits past it. */
  lemma LaterCommitPassesFailure(s: State) returns (es: seq<Event>)
    requires Inv(s) && Enabled(s, GatherEnds) && s.claims[|s.claims| - 1].fate.failed
    requires s.process.pos + 1 < |s.log| && !KeyFree(s, s.claims[|s.claims| - 1].eid)
    ensures Legal(s, es) && Passed(s, After(s, es), s.process.pos, s.claims[|s.claims| - 1].eid)
  {
    var eid := s.claims[|s.claims| - 1].eid;
    var s1 := Apply(s, GatherEnds);
    var more := CommitUpTo(s1, s.process.pos + 1, eid);
    Cons(s, GatherEnds, more);
    es := [GatherEnds] + more;
  }

  // ----- the object -------------------------------------------------------------------

  ghost predicate Ran(s0: State, es: seq<Event>, s: State) {
    Legal(s0, es) && After(s0, es) == s
  }

  /** The last claim's gather still waits for these writes. */
  ghost predicate Awaits(claims: seq<Claim>, pending: set<Layer>, failed: bool) {
    claims != [] && claims[|claims| - 1].fate == Running(pending, failed)
  }

  /** How a call to a layer or to Redis can end. */
  datatype Outcome = Fine | Failed | LandedThenFailed
  {
    predicate Lands() {
      !Failed?
    }
  }

  predicate SomeFail(done: set<Layer>, writes: Layer -> Outcome) {
    exists l :: l in done && !writes(l).Fine?
  }

  /** Some layer the message is due to reports a failure. */
  ghost predicate WriteFails(m: Msg, now: int, vectorOn: bool, writes: Layer -> Outcome) {
    exists l :: Due(m, now, l, vectorOn) && !writes(l).Fine?
  }

  lemma FailsIfDue(m: Msg, now: int, vectorOn: bool, writes: Layer -> Outcome)
    ensures SomeFail(ListSet(TaskList(m, now, vectorOn)), writes) <==> WriteFails(m, now, vectorOn, writes)
  {
    forall l ensures l in ListSet(TaskList(m, now, vectorOn)) <==> Due(m, now, l, vectorOn) {
      TasksAreDue(m, now, vectorOn, l);
    }
  }

  /** When `_route` fails: the message has an id, and the dedup call raises, or the id is new and a write
      it is due to fails. */
  ghost predicate Fails(s: State, set_: Outcome, writes: Layer -> Outcome)
    requires s.process.Ready? && s.process.pos < |s.log|
  {
    var m := s.log[s.process.pos];
    m.eid != "" && (!set_.Fine? || (KeyFree(s, m.eid) && WriteFails(m, s.clock, s.vectorOn, writes)))
  }

  /** The dedup call with its outcome, as an event. */
  function ClaimEvent(s: State, set_: Outcome): Event
    requires s.process.Routing? && s.process.pos < |s.log|
  {
    var eid := s.log[s.process.pos].eid;
    if eid == "" || set_.Fine? then DedupAnswers else DedupRaises(set_.Lands() && KeyFree(s, eid))
  }

  class Router {
    const vectorOn: bool
    var log: seq<Msg>
    var clock: nat
    var process: Process
    var committed: nat
    var dedup: map<string, nat>
    var layers: set<(Layer, string)>
    var claims: seq<Claim>
    var handed: set<nat>
    var refused: set<nat>
    var routed: nat
    var errors: nat

    function View(): State
      reads this
    {
      State(log, vectorOn, clock, process, committed, dedup, layers, claims, handed, refused)
    }

    constructor (messages: seq<Msg>, vector: bool)
      ensures View() == Initial(messages, vector) && routed == 0 && errors == 0
    {
      log, vectorOn, clock, process, committed := messages, vector, 0, Down, 0;
      dedup, layers, claims, handed, refused := map[], {}, [], {}, {};
      routed, errors := 0, 0;
    }

    /** The task list of `_route`, appended to as its conditions allow. */
    method BuildTasks(m: Msg) returns (tasks: seq<Layer>)
      ensures tasks == TaskList(m, clock, vectorOn)
      ensures forall l :: l in tasks <==> Due(m, clock, l, vectorOn)
    {
      forall l ensures l in TaskList(m, clock, vectorOn) <==> Due(m, clock, l, vectorOn) {
        TasksAreDue(m, clock, vectorOn, l);
      }
      tasks := [Episodic];
      tasks := tasks + [Procedural];
      if m.severity.High? || m.severity.Critical? {
        var lag := if m.ts.Some? then clock - m.ts.value else 0;
        if lag < STALE_LAG_S { tasks := tasks + [Working]; }
      }
      if m.hasRefs { tasks := tasks + [Semantic]; }
      if vectorOn && !m.severity.Info? && !m.severity.Low? { tasks := tasks + [Vector]; }
    }

    /** One write of the gather settles. */
    method Record(l: Layer, outcome: Outcome)
      requires Enabled(View(), Write(l, outcome.Lands(), outcome.Fine?))
      modifies this`claims, this`layers
      ensures View() == Apply(old(View()), Write(l, outcome.Lands(), outcome.Fine?))
      ensures var fate := old(claims)[|old(claims)| - 1].fate;
        Awaits(claims, fate.pending - {l}, fate.failed || !outcome.Fine?)
    {
      var c := claims[|claims| - 1];
      claims := claims[|claims| - 1 := c.(landed := if outcome.Lands() then c.landed + {l} else c.landed,
                                          fate := Running(c.fate.pending - {l}, c.fate.failed || !outcome.Fine?))];
      if outcome.Lands() { layers := layers + {(l, c.eid)}; }
    }

    /** One write settles, told from the beginning of the turn. */
    method SettleNext(ghost s0: State, ghost before: seq<Event>, pending: set<Layer>, ghost done: set<Layer>,
        writes: Layer -> Outcome)
      returns (l: Layer, ghost es: seq<Event>)
      requires pending != {} && process.Gathering? && Ran(s0, before, View())
        && Awaits(claims, pending, SomeFail(done, writes))
      modifies this`claims, this`layers
      ensures l in pending && Ran(s0, es, View()) && Awaits(claims, pending - {l}, SomeFail(done + {l}, writes))
    {
      l :| l in pending;
      Extend(s0, before, Write(l, writes(l).Lands(), writes(l).Fine?));
      es := before + [Write(l, writes(l).Lands(), writes(l).Fine?)];
      Record(l, writes(l));
      OneMoreDone(done, l, writes);
    }

    /** All writes of the gather, which settle in any order, each with its outcome. */
    method Gather(ghost s0: State, ghost before: seq<Event>, tasks: seq<Layer>, writes: Layer -> Outcome)
      returns (ghost es: seq<Event>)
      requires Ran(s0, before, View()) && process.Gathering? && Awaits(claims, ListSet(tasks), false)
      modifies this`claims, this`layers
      ensures Ran(s0, es, View()) && Awaits(claims, {}, SomeFail(ListSet(tasks), writes))
    {
      es := before;
      var pending := ListSet(tasks);
      ghost var done: set<Layer> := {};
      while pending != {}
        invariant Ran(s0, es, View()) && done + pending == ListSet(tasks)
        invariant Awaits(claims, pending, SomeFail(done, writes))
        decreases |pending|
      {
        var l;
        l, es := SettleNext(s0, es, pending, done, writes);
        pending, done := pending - {l}, done + {l};
      }
      assert done == ListSet(tasks);
    }

    method FetchNext()
      requires Enabled(View(), Fetch)
      modifies this`process, this`handed
      ensures View() == Apply(old(View()), Fetch)
    {
      handed := handed + {process.pos};
      process := Routing(process.pos);
    }

    /** `_route` up to the dedup reply; an id that is missing or still claimed ends it here, and so
        does an exception, which may come after the key was set. */
    method ClaimKey(set_: Outcome) returns (raised: bool)
      requires Enabled(View(), DedupAnswers)
      modifies this`process, this`dedup, this`claims, this`refused
      ensures Enabled(old(View()), ClaimEvent(old(View()), set_))
        && View() == Apply(old(View()), ClaimEvent(old(View()), set_))
      ensures raised <==> ClaimEvent(old(View()), set_).DedupRaises?
    {
      var pos, m := process.pos, log[process.pos];
      if m.eid == "" {
        process := Committing(pos);
        return false;
      }
      var free := !(m.eid in dedup && dedup[m.eid] >= clock);
      raised := !set_.Fine?;
      if free && set_.Lands() {
        dedup := dedup[m.eid := clock + DEDUP_TTL_S];
        claims := claims + [Claim(m.eid, pos, clock, 0, {}, {}, if raised then Abandoned else Held)];
      } else if raised {
        refused := refused + {pos};
      }
      process := if raised then Ready(pos + 1) else if free then Claimed(pos) else Committing(pos);
    }

    method Dispatch() returns (tasks: seq<Layer>)
      requires Enabled(View(), StartGather)
      modifies this`process, this`claims
      ensures View() == Apply(old(View()), StartGather)
      ensures tasks == TaskList(log[old(process.pos)], clock, vectorOn)
    {
      tasks := BuildTasks(log[process.pos]);
      var wanted := ListSet(tasks);
      claims := claims[|claims| - 1 :=
                  claims[|claims| - 1].(begun := clock, wanted := wanted, fate := Running(wanted, false))];
      process := Gathering(process.pos);
    }

    /** The loop over the gathered results: the first exception is raised again. */
    method Collect() returns (failed: bool)
      requires Enabled(View(), GatherEnds)
      modifies this`process, this`claims
      ensures View() == Apply(old(View()), GatherEnds)
      ensures failed <==> old(claims)[|old(claims)| - 1].fate.failed
      ensures process == if failed then Ready(old(process.pos) + 1) else Committing(old(process.pos))
    {
      failed := claims[|claims| - 1].fate.failed;
      claims := WithFate(claims, Finished(failed));
      process := if failed then Ready(process.pos + 1) else Committing(process.pos);
    }

    /** `consumer.commit()`; an exception may come after it took effect. */
    method Commit(commit: Outcome)
      requires Enabled(View(), CommitLands)
      modifies this`process, this`committed
      ensures View() == Apply(old(View()), if commit.Fine? then CommitLands else CommitRaises(commit.Lands()))
    {
      if commit.Lands() { committed := process.pos + 1; }
      process := Ready(process.pos + 1);
    }

    /** The part of `_route` after the dedup key is set. */
    method Fan(ghost s0: State, ghost before: seq<Event>, writes: Layer -> Outcome)
      returns (ghost es: seq<Event>, failed: bool)
      requires Legal(s0, before) && After(s0, before) == View() && Enabled(View(), StartGather)
      modifies this`claims, this`layers, this`process
      ensures Legal(s0, es) && After(s0, es) == View()
      ensures process == if failed then Ready(old(process.pos) + 1) else Committing(old(process.pos))
      ensures failed <==> WriteFails(log[old(process.pos)], clock, vectorOn, writes)
    {
      Extend(s0, before, StartGather);
      ghost var m := log[process.pos];
      var tasks := Dispatch();
      es := Gather(s0, before + [StartGather], tasks, writes);
      Extend(s0, es, GatherEnds);
      es := es + [GatherEnds];
      failed := Collect();
      FailsIfDue(m, clock, vectorOn, writes);
    }

    /** `_route` as a whole; `failed` when it raises. */
    method Route(set_: Outcome, writes: Layer -> Outcome) returns (ghost es: seq<Event>, failed: bool)
      requires Enabled(View(), Fetch)
      modifies this`process, this`handed, this`refused, this`dedup, this`claims, this`layers
      ensures Legal(old(View()), es) && View() == After(old(View()), es)
      ensures process == if failed then Ready(old(process.pos) + 1) else Committing(old(process.pos))
      ensures failed <==> Fails(old(View()), set_, writes)
    {
      ghost var s0 := View();
      Extend(s0, [], Fetch);
      FetchNext();
      es := [] + [Fetch];
      ghost var e := ClaimEvent(View(), set_);
      assert View() == After(s0, es);
      failed := ClaimKey(set_);
      Extend(s0, es, e);
      es := es + [e];
      if process.Claimed? { es, failed := Fan(s0, es, writes); }
    }

    /** One turn of the consume loop, without a crash: `_route`, then the commit and the count, or an
        exception of the dedup call, a write or the commit, which is counted as an error.  It is a
        run of the transition system. */
    method Handle(set_: Outcome, writes: Layer -> Outcome, commit: Outcome) returns (ghost es: seq<Event>)
      requires process.Ready? && process.pos < |log|
      modifies this
      ensures Legal(old(View()), es) && View() == After(old(View()), es)
      ensures process == Ready(old(process.pos) + 1) && routed + errors == old(routed) + old(errors) + 1
      ensures routed > old(routed) <==> !Fails(old(View()), set_, writes) && commit.Fine?
      ensures routed > old(routed) ==> committed == old(process.pos) + 1
      ensures committed == old(committed)
        || (committed == old(process.pos) + 1 && (errors > old(errors) ==> commit.LandedThenFailed?))
    {
      ghost var s0 := View();
      var failed;
      es, failed := Route(set_, writes);
      if !failed {
        ghost var e := if commit.Fine? then CommitLands else CommitRaises(commit.Lands());
        Extend(s0, es, e);
        Commit(commit);
        es := es + [e];
      }
      if failed || !commit.Fine? { errors := errors + 1; } else { routed := routed + 1; }
    }
  }

  lemma OneMoreDone(done: set<Layer>, l: Layer, writes: Layer -> Outcome)
    ensures SomeFail(done + {l}, writes) <==> SomeFail(done, writes) || !writes(l).Fine?
  {
    if k :| k in done && !writes(k).Fine? { assert k in done + {l}; }
    if !writes(l).Fine? { assert l in done + {l}; }
  }
}
