/** Undisturbed runs exist, gates included: a plan whose human-handled steps are gates that can
    still be polled has a run in which one approval at most is given and every step succeeds. */
module GatedRuns {
  import opened Wrappers
  import opened PlanSchema
  import opened Protocol
  import opened DependencySafety
  import opened Layers
  import opened Approval

  /** The step has a handler, and a human one only where it can be answered. */
  predicate Operable(step: PlanStep) {
    !HandlerFor(step.action).NoHandler? && (HandlerFor(step.action).Human? ==> step.isApprovalGate && step.timeoutS > 0)
  }

  predicate Runnable(p: Plan) {
    forall i :: 0 <= i < |p.steps| ==> Operable(p.steps[i])
  }

  /** All steps of a depth below d are operable. */
  predicate Able(p: Plan, depth: seq<nat>, d: nat)
    requires |depth| == |p.steps|
  {
    forall i :: 0 <= i < |p.steps| && depth[i] < d ==> Operable(p.steps[i])
  }

  lemma StaysAble(p: Plan, q: Plan, depth: seq<nat>, d: nat)
    requires p.SameShape(q) && |depth| == |p.steps| && Able(p, depth, d)
    ensures Able(q, depth, d)
  {
    assert forall i :: 0 <= i < |p.steps| ==> p.steps[i].SameStep(q.steps[i]);
  }

  /** Undisturbed events of step i and of the operator. */
  predicate ByStep(es: seq<Event>, i: nat) {
    forall k :: 0 <= k < |es| ==> Smooth(es[k]) && (es[k].Task? ==> es[k].i == i)
  }

  predicate Resting(ph: Phase) {
    ph.Idle? || ph.NotStarted? || ph.Done?
  }

  /** Nothing but step i has moved. */
  ghost predicate Only(s: State, t: State, i: nat, st: StepStatus, ph: Phase)
    requires i < |s.plan.steps| && i < |s.phases|
  {
    && t.plan == s.plan.WithStep(i, st).(status := t.plan.status)
    && t.phases == s.phases[i := ph] && t.rounds == s.rounds && t.control == s.control && t.requests == s.requests
  }

  /** One more segment of step i. */
  lemma Segment(s: State, es: seq<Event>, i: nat, act: Act, st: StepStatus, ph: Phase) returns (longer: seq<Event>)
    requires i < |s.plan.steps| && i < |s.phases| && Legal(s, es) && Only(s, After(s, es), i, st, ph)
    requires TaskEnabled(After(s, es), i, act)
    ensures longer == es + [Task(i, act)] && Legal(s, longer)
    ensures var now, t, ef := After(s, es), After(s, longer), TaskEffect(After(s, es), i, act);
      && Only(s, t, i, ef.status, ef.phase) && t.plan.status == ef.planStatus && t.approvals == now.approvals
      && t.stored == if act.GateLand? then Some(now.phases[i].blob) else now.stored
  {
    longer := es + [Task(i, act)];
    Extend(s, es, Task(i, act));
    var now, t, ef := After(s, es), After(s, longer), TaskEffect(After(s, es), i, act);
    assert t.plan.steps == s.plan.WithStep(i, ef.status).steps;
    assert t.phases == s.phases[i := ef.phase];
  }

  lemma Start(s: State, i: nat)
    requires i < |s.plan.steps| && i < |s.phases|
    ensures Legal(s, []) && After(s, []) == s && Only(s, s, i, s.plan.steps[i].status, s.phases[i])
  {
    assert s.plan.WithStep(i, s.plan.steps[i].status) == s.plan;
    assert s.phases[i := s.phases[i]] == s.phases;
  }

  /** A gate is stored as waiting and its handler has been called. */
  lemma AskGate(s: State, i: nat) returns (es: seq<Event>)
    requires s.control.InBatch? && i < |s.plan.steps| && i < |s.phases| && s.phases[i].NotStarted?
    requires s.plan.steps[i].isApprovalGate && !HandlerFor(s.plan.steps[i].action).NoHandler?
    ensures Legal(s, es) && ByStep(es, i)
    ensures var t := After(s, es);
      && Only(s, t, i, WaitingApproval, if HandlerFor(s.plan.steps[i].action).Human? then Polling(0) else Handling)
      && t.plan.status == AwaitingApproval && t.approvals == s.approvals
      && t.stored == Some(s.plan.WithStep(i, WaitingApproval))
  {
    Start(s, i);
    es := Segment(s, [], i, Begin, s.plan.steps[i].status, s.phases[i]);
    var blob := s.plan.WithStep(i, WaitingApproval);
    es := Segment(s, es, i, GateLand, WaitingApproval, GateSaving(blob, false));
    es := Segment(s, es, i, GateResume, WaitingApproval, GateSaving(blob, true));
    assert es == [Task(i, Begin), Task(i, GateLand), Task(i, GateResume)];
  }

  predicate NoGateFailed(p: Plan) {
    forall i :: 0 <= i < |p.steps| && p.steps[i].isApprovalGate ==> !p.steps[i].status.Failed?
  }

  lemma {:induction false} VerdictIff(steps: seq<PlanStep>)
    requires forall i :: 0 <= i < |steps| && steps[i].isApprovalGate ==> !steps[i].status.Failed?
    ensures GateVerdict(steps).Approved?
      <==> exists i :: 0 <= i < |steps| && steps[i].isApprovalGate && steps[i].status.Succeeded?
  {
    if steps != [] {
      VerdictIff(steps[1..]);
      if i :| 0 <= i < |steps| && steps[i].isApprovalGate && steps[i].status.Succeeded? {
        if i > 0 { assert steps[1..][i - 1] == steps[i]; }
      }
      if i :| 0 <= i < |steps[1..]| && steps[1..][i].isApprovalGate && steps[1..][i].status.Succeeded? {
        assert steps[i + 1] == steps[1..][i];
      }
    }
  }

  /** The poll that finds an approval; an approve call is made first if none was stored. */
  lemma GrantGate(s: State, i: nat) returns (es: seq<Event>)
    requires s.control.InBatch? && i < |s.plan.steps| && i < |s.phases| && s.phases[i] == Polling(0)
    requires s.plan.steps[i].timeoutS > 0 && s.requests == []
    requires s.stored.Some? && NoGateFailed(s.stored.value) && i in WaitingGates(s.stored.value)
    ensures Legal(s, es) && ByStep(es, i)
    ensures var t := After(s, es);
      && Only(s, t, i, s.plan.steps[i].status, Answered(true)) && t.plan.status == s.plan.status
      && t.approvals == if SomeGateSucceeded(s.stored.value) then s.approvals
           else s.approvals + WaitingGates(s.stored.value)
  {
    var c := s.stored.value;
    VerdictIff(c.steps);
    Start(s, i);
    if SomeGateSucceeded(c) {
      es := Segment(s, [], i, Poll(true), s.plan.steps[i].status, Polling(0));
      assert es == [Task(i, Poll(true))];
    } else {
      var a := ApproveCopy(c);
      assert a.steps[i].isApprovalGate && a.steps[i].status.Succeeded?;
      VerdictIff(a.steps);
      var s1, s2 := Apply(s, OpApprove), s.(stored := Some(a), approvals := s.approvals + WaitingGates(c));
      assert s1.requests == [a];
      assert Apply(s1, OpWrite(0)) == s2 by { assert s1.requests[..0] + s1.requests[1..] == []; }
      Extend(s, [], OpApprove);
      Extend(s, [OpApprove], OpWrite(0));
      es := Segment(s, [OpApprove] + [OpWrite(0)], i, Poll(true), s.plan.steps[i].status, Polling(0));
      assert es == [OpApprove, OpWrite(0), Task(i, Poll(true))];
    }
  }

  /** The handler has answered well; the step is completed and no criterion fires. */
  lemma Finish(s: State, i: nat) returns (es: seq<Event>)
    requires TaskEnabled(s, i, HandlerReturn)
    ensures Legal(s, es) && ByStep(es, i) && es == [Task(i, HandlerReturn), Task(i, Report), Task(i, Criteria(false))]
    ensures var t := After(s, es);
      && Only(s, t, i, StepStatus.Succeeded, Done) && t.approvals == s.approvals && t.stored == s.stored
      && t.plan.status == if s.plan.steps[i].isApprovalGate then PlanStatus.Running else s.plan.status
  {
    Start(s, i);
    es := Segment(s, [], i, HandlerReturn, s.plan.steps[i].status, s.phases[i]);
    es := Segment(s, es, i, Report, StepStatus.Succeeded, Reporting);
    es := Segment(s, es, i, Criteria(false), StepStatus.Succeeded, Checking);
    assert es == [Task(i, HandlerReturn), Task(i, Report), Task(i, Criteria(false))];
  }

  // ----- one step after the other -----------------------------------------------------------

  /** Between two steps of an undisturbed run. */
  ghost predicate Calm(s: State, depth: seq<nat>) {
    && Layered(s, depth) && s.requests == []
    && forall i :: 0 <= i < |s.phases| ==> Resting(s.phases[i])
  }

  predicate ServiceGate(step: PlanStep) {
    step.isApprovalGate && HandlerFor(step.action).Service?
  }

  /** The one approval given so far, if any, was for a first gate of the plan. */
  ghost predicate Sparing(s: State, depth: seq<nat>) {
    && |depth| == |s.plan.steps|
    && (s.approvals != {} ==> SomeGateSucceeded(s.plan))
    && (forall a, b :: a in s.approvals && b in s.approvals ==> a == b)
    && (forall a :: a in s.approvals ==> FirstGate(s.plan, depth, a))
  }

  /** No gate comes before the human-handled gate a, and no service-handled one at its depth. */
  ghost predicate FirstGate(p: Plan, depth: seq<nat>, a: nat)
    requires |depth| == |p.steps|
  {
    && a < |p.steps| && p.steps[a].isApprovalGate && HandlerFor(p.steps[a].action).Human?
    && (forall g :: 0 <= g < |p.steps| && p.steps[g].isApprovalGate ==> depth[a] <= depth[g])
    && (forall g :: 0 <= g < |p.steps| && ServiceGate(p.steps[g]) ==> depth[a] < depth[g])
  }

  lemma OnlyGateWaiting(s: State, depth: seq<nat>, i: nat)
    requires Calm(s, depth) && s.control.InBatch? && i < |s.phases| && s.phases[i].NotStarted?
      && s.plan.steps[i].isApprovalGate
    ensures var blob := s.plan.WithStep(i, WaitingApproval);
      && NoGateFailed(blob) && WaitingGates(blob) == {i} && (SomeGateSucceeded(blob) <==> SomeGateSucceeded(s.plan))
  {
    var blob := s.plan.WithStep(i, WaitingApproval);
    forall k | 0 <= k < |s.phases|
      ensures PhaseOk(s.plan.steps[k], s.phases[k]) && !s.plan.steps[k].status.WaitingApproval?
    {
    }
    assert !s.plan.steps[i].status.Succeeded?;
    if SomeGateSucceeded(blob) {
      var g :| 0 <= g < |blob.steps| && blob.steps[g].isApprovalGate && blob.steps[g].status.Succeeded?;
      assert s.plan.steps[g] == blob.steps[g];
    }
    if SomeGateSucceeded(s.plan) {
      var g :| 0 <= g < |s.plan.steps| && s.plan.steps[g].isApprovalGate && s.plan.steps[g].status.Succeeded?;
      assert s.plan.steps[g] == blob.steps[g];
    }
  }

  /** Until a gate has succeeded, a human-handled gate about to start is a first gate, if no
      service-handled one is waiting beside it. */
  lemma StartsAsFirstGate(s: State, depth: seq<nat>, i: nat)
    requires Calm(s, depth) && s.control.InBatch? && i < |s.phases| && s.phases[i].NotStarted?
    requires s.plan.steps[i].isApprovalGate && HandlerFor(s.plan.steps[i].action).Human? && !SomeGateSucceeded(s.plan)
    requires forall k :: k in Waiting(s) ==> !ServiceGate(s.plan.steps[k])
    ensures FirstGate(s.plan, depth, i)
  {
    assert depth[i] == |s.rounds| - 1;
    forall g | 0 <= g < |s.plan.steps| && s.plan.steps[g].isApprovalGate
      ensures depth[i] <= depth[g] && (ServiceGate(s.plan.steps[g]) ==> depth[i] < depth[g])
    {
      assert PhaseOk(s.plan.steps[g], s.phases[g]);
      assert !s.plan.steps[g].status.Succeeded?;
      assert ServiceGate(s.plan.steps[g]) ==> g !in Waiting(s);
    }
  }

  /** Step i is a gate that finds no other one passed, and asks a human. */
  ghost predicate AsksFirst(s: State, i: nat)
    requires i < |s.plan.steps|
  {
    s.plan.steps[i].isApprovalGate && HandlerFor(s.plan.steps[i].action).Human? && !SomeGateSucceeded(s.plan)
  }

  function AskedPhase(step: PlanStep): Phase {
    if HandlerFor(step.action).Human? then Answered(true) else Handling
  }

  /** Step i is brought to where its handler can answer well. */
  lemma Ask(s: State, depth: seq<nat>, i: nat) returns (es: seq<Event>)
    requires Calm(s, depth) && s.control.InBatch? && i < |s.phases| && s.phases[i].NotStarted?
    requires Operable(s.plan.steps[i])
    ensures Legal(s, es) && ByStep(es, i)
    ensures var t := After(s, es);
      && Only(s, t, i, InFlight(s.plan.steps[i]), AskedPhase(s.plan.steps[i])) && TaskEnabled(t, i, HandlerReturn)
      && t.plan.status == (if s.plan.steps[i].isApprovalGate then AwaitingApproval else s.plan.status)
      && t.approvals == if AsksFirst(s, i) then s.approvals + {i} else s.approvals
  {
    if !s.plan.steps[i].isApprovalGate {
      Start(s, i);
      es := Segment(s, [], i, Begin, s.plan.steps[i].status, s.phases[i]);
    } else {
      es := AskGate(s, i);
      if HandlerFor(s.plan.steps[i].action).Human? {
        var t := After(s, es);
        OnlyGateWaiting(s, depth, i);
        var more := GrantGate(t, i);
        Compose(s, es, more);
        OnlyTwice(s, t, After(t, more), i, WaitingApproval, Polling(0), WaitingApproval, Answered(true));
        es := es + more;
      }
    }
  }

  lemma OnlyTwice(s: State, t: State, u: State, i: nat, st: StepStatus, ph: Phase, st': StepStatus, ph': Phase)
    requires i < |s.plan.steps| && i < |s.phases| && Only(s, t, i, st, ph) && Only(t, u, i, st', ph')
    ensures Only(s, u, i, st', ph')
  {
    assert u.plan.steps == s.plan.WithStep(i, st').steps;
    assert u.phases == s.phases[i := ph'];
  }

  /** Step i passes, from its start to its end. */
  lemma PassStep(s: State, depth: seq<nat>, i: nat) returns (es: seq<Event>)
    requires Calm(s, depth) && s.control.InBatch? && i < |s.phases| && s.phases[i].NotStarted?
    requires Operable(s.plan.steps[i])
    ensures Legal(s, es) && AllSmooth(es) && Calm(After(s, es), depth)
    ensures Only(s, After(s, es), i, StepStatus.Succeeded, Done)
    ensures After(s, es).plan.status == if s.plan.steps[i].isApprovalGate then PlanStatus.Running else s.plan.status
    ensures After(s, es).approvals == if AsksFirst(s, i) then s.approvals + {i} else s.approvals
  {
    var ask := Ask(s, depth, i);
    var t := After(s, ask);
    var ph := AskedPhase(s.plan.steps[i]);
    var finish := Finish(t, i);
    var u := After(t, finish);
    Compose(s, ask, finish);
    es := ask + finish;
    OnlyTwice(s, t, u, i, InFlight(s.plan.steps[i]), ph, StepStatus.Succeeded, Done);
    RunKeepsLayered(s, depth, es);
  }

  lemma StaysSparing(s: State, u: State, depth: seq<nat>, i: nat)
    requires Calm(s, depth) && Sparing(s, depth) && s.control.InBatch? && i < |s.phases| && s.phases[i].NotStarted?
    requires Only(s, u, i, StepStatus.Succeeded, Done)
    requires ServiceGate(s.plan.steps[i]) || forall k :: k in Waiting(s) ==> !ServiceGate(s.plan.steps[k])
    requires u.approvals == if AsksFirst(s, i) then s.approvals + {i} else s.approvals
    ensures Sparing(u, depth)
  {
    if SomeGateSucceeded(s.plan) {
      var g :| 0 <= g < |s.plan.steps| && s.plan.steps[g].isApprovalGate && s.plan.steps[g].status.Succeeded?;
      assert u.plan.steps[g].isApprovalGate && u.plan.steps[g].status.Succeeded?;
    } else if AsksFirst(s, i) {
      StartsAsFirstGate(s, depth, i);
      assert u.plan.steps[i].isApprovalGate && u.plan.steps[i].status.Succeeded?;
    }
    forall a | a in u.approvals ensures FirstGate(u.plan, depth, a) {
      assert FirstGate(s.plan, depth, a);
      SameFirstGate(s.plan, u.plan, depth, a);
    }
  }

  lemma SameFirstGate(p: Plan, q: Plan, depth: seq<nat>, a: nat)
    requires |p.steps| == |q.steps| == |depth| && forall k :: 0 <= k < |p.steps| ==> p.steps[k].SameStep(q.steps[k])
    ensures FirstGate(p, depth, a) == FirstGate(q, depth, a)
  {
    assert forall k :: 0 <= k < |p.steps| ==> p.steps[k].SameStep(q.steps[k]);
  }

  // ----- whole batches ------------------------------------------------------------------------

  function Waiting(s: State): set<nat> {
    set i | 0 <= i < |s.phases| && s.phases[i].NotStarted?
  }

  /** The next step to pass: a service-handled gate, if one is waiting. */
  lemma Next(s: State, aside: set<nat>) returns (i: nat)
    requires |s.phases| == |s.plan.steps| && !(Waiting(s) <= aside)
    ensures i in Waiting(s) && i !in aside
    ensures ServiceGate(s.plan.steps[i]) || forall k :: k in Waiting(s) && k !in aside ==> !ServiceGate(s.plan.steps[k])
  {
    if k :| k in Waiting(s) && k !in aside && ServiceGate(s.plan.steps[k]) {
      i := k;
    } else {
      i :| i in Waiting(s) && i !in aside;
    }
  }

  lemma OneLessWaiting(s: State, t: State, i: nat)
    requires i < |s.plan.steps| && i < |s.phases| && Only(s, t, i, StepStatus.Succeeded, Done)
    ensures Waiting(t) == Waiting(s) - {i} && t.control == s.control && t.rounds == s.rounds
  {
  }

  /** All steps of the batch but those set aside pass. */
  lemma {:induction false} PassAll(s: State, depth: seq<nat>, aside: set<nat>) returns (es: seq<Event>)
    requires Calm(s, depth) && s.control.InBatch? && aside <= Waiting(s)
    requires forall i :: i in Waiting(s) && i !in aside ==> Operable(s.plan.steps[i])
    ensures Legal(s, es) && AllSmooth(es) && Calm(After(s, es), depth)
    ensures After(s, es).control.InBatch? && After(s, es).rounds == s.rounds && Waiting(After(s, es)) == aside
    ensures aside == {} && Sparing(s, depth) ==> Sparing(After(s, es), depth)
    decreases Waiting(s)
  {
    if Waiting(s) <= aside {
      es := [];
    } else {
      var i := Next(s, aside);
      var first := PassStep(s, depth, i);
      var t := After(s, first);
      OneLessWaiting(s, t, i);
      if aside == {} && Sparing(s, depth) { StaysSparing(s, t, depth, i); }
      var rest := PassAll(t, depth, aside);
      Compose(s, first, rest);
      es := first + rest;
    }
  }

  /** The batch that is over is saved, and the loop goes on. */
  lemma CloseBatch(s: State, depth: seq<nat>) returns (es: seq<Event>)
    requires Calm(s, depth) && Sparing(s, depth) && s.control.InBatch? && Waiting(s) == {}
    ensures Legal(s, es) && AllSmooth(es) && Calm(After(s, es), depth) && Sparing(After(s, es), depth)
    ensures After(s, es).rounds == s.rounds && After(s, es).control.Saving?
  {
    forall i | 0 <= i < |s.phases| ensures s.phases[i].Idle? || s.phases[i].Done? { assert i !in Waiting(s); }
    es := [BatchEnd];
    Start0(s, BatchEnd);
    RunKeepsLayered(s, depth, es);
  }

  lemma Start0(s: State, e: Event)
    requires Enabled(s, e)
    ensures Legal(s, [e]) && After(s, [e]) == Apply(s, e)
  {
    Extend(s, [], e);
    assert [] + [e] == [e];
  }

  lemma SaveStaysCalm(s: State, depth: seq<nat>)
    requires Calm(s, depth) && Sparing(s, depth) && (s.control.Saving? || s.control.FinalSaving?)
    ensures Legal(s, [MainSave]) && After(s, [MainSave]) == Apply(s, MainSave) && AllSmooth([MainSave])
    ensures var t := Apply(s, MainSave); Calm(t, depth) && Sparing(t, depth) && t.plan.steps == s.plan.steps
    ensures s.control.Saving? ==> var t := Apply(s, MainSave);
      if Layer(depth, |s.rounds|) != [] then t.control.InBatch? && t.rounds == s.rounds + [Layer(depth, |s.rounds|)]
      else t.control.FinalSaving?
  {
    Start0(s, MainSave);
    RunKeepsLayered(s, depth, [MainSave]);
    if s.control.Saving? { SaveSees(s, depth); }
    var t := Apply(s, MainSave);
    assert SomeGateSucceeded(s.plan) == SomeGateSucceeded(t.plan);
    forall a | a in t.approvals ensures FirstGate(t.plan, depth, a) { SameFirstGate(s.plan, t.plan, depth, a); }
  }

  lemma SaveSees(s: State, depth: seq<nat>)
    requires Calm(s, depth) && s.control.Saving?
    ensures var t, next := Apply(s, MainSave), Layer(depth, |s.rounds|);
      && (if next != [] then t.control.InBatch? && t.rounds == s.rounds + [next] else t.control.FinalSaving?)
      && t.plan.steps == s.plan.steps && t.requests == [] && t.approvals == s.approvals
      && |t.phases| == |s.phases| && forall i :: 0 <= i < |t.phases| ==> Resting(t.phases[i])
  {
    var s' := s.(stored := Some(s.plan));
    assert Layered(s', depth) by { assert GateWaits(s) == GateWaits(s'); }
    LoopTopSees(s', depth);
  }

  /** All of a batch passes, and gather returns. */
  lemma PassBatch(s: State, depth: seq<nat>) returns (es: seq<Event>)
    requires Calm(s, depth) && Sparing(s, depth) && s.control.InBatch? && Able(s.plan, depth, |s.rounds|)
    ensures Legal(s, es) && AllSmooth(es) && Calm(After(s, es), depth) && Sparing(After(s, es), depth)
    ensures After(s, es).rounds == s.rounds && After(s, es).control.Saving?
  {
    var pass := PassAll(s, depth, {});
    var close := CloseBatch(After(s, pass), depth);
    Compose(s, pass, close);
    AllSmoothConcat(pass, close);
    es := pass + close;
  }

  /** Round d has just begun. */
  ghost predicate AtRound(s: State, depth: seq<nat>, d: nat) {
    && Calm(s, depth) && Sparing(s, depth) && s.control.InBatch? && |s.rounds| == d + 1
    && s.rounds[d] == Layer(depth, d)
    && forall i :: i in Layer(depth, d) ==> i in Waiting(s)
  }

  lemma NextRound(s: State, depth: seq<nat>, d: nat) returns (es: seq<Event>)
    requires AtRound(s, depth, d) && Layer(depth, d + 1) != [] && Able(s.plan, depth, d + 1)
    ensures Legal(s, es) && AllSmooth(es) && AtRound(After(s, es), depth, d + 1)
  {
    var batch := PassBatch(s, depth);
    var u := After(s, batch);
    SaveStaysCalm(u, depth);
    StartOfRound(u, depth);
    Compose(s, batch, [MainSave]);
    AllSmoothConcat(batch, [MainSave]);
    es := batch + [MainSave];
  }

  lemma AllSmoothConcat(a: seq<Event>, b: seq<Event>)
    requires AllSmooth(a) && AllSmooth(b)
    ensures AllSmooth(a + b)
  {
  }

  /** The runner can be brought to the start of round d with nothing gone wrong. */
  lemma {:induction false} ReachRound(p: Plan, stored: Option<Plan>, depth: seq<nat>, d: nat) returns (es: seq<Event>)
    requires p.AllPending() && UniqueIds(p) && IsDepth(p, depth) && Able(p, depth, d) && Layer(depth, d) != []
    ensures Legal(Init(p, stored), es) && AllSmooth(es) && AtRound(After(Init(p, stored), es), depth, d)
  {
    var s0 := Init(p, stored);
    if d == 0 {
      StartIsCalm(p, stored, depth);
      SaveStaysCalm(s0, depth);
      StartOfRound(s0, depth);
      es := [MainSave];
    } else {
      LayerBelow(p, depth, d);
      var before := ReachRound(p, stored, depth, d - 1);
      InitInv(p, stored);
      RunKeepsInv(s0, before);
      StaysAble(p, After(s0, before).plan, depth, d);
      var next := NextRound(After(s0, before), depth, d - 1);
      Compose(s0, before, next);
      AllSmoothConcat(before, next);
      es := before + next;
    }
  }

  lemma StartIsCalm(p: Plan, stored: Option<Plan>, depth: seq<nat>)
    requires p.AllPending() && UniqueIds(p) && IsDepth(p, depth)
    ensures Calm(Init(p, stored), depth) && Sparing(Init(p, stored), depth)
  {
    InitInv(p, stored);
    ShapeKeepsDepth(p, Init(p, stored).plan, depth);
  }

  lemma LayerBelow(p: Plan, depth: seq<nat>, d: nat)
    requires IsDepth(p, depth) && Layer(depth, d) != [] && d > 0
    ensures Layer(depth, d - 1) != []
  {
    LayerSpec(depth, d);
    var i := Layer(depth, d)[0];
    assert i in Layer(depth, d);
    LayersContiguous(p, depth, i, d - 1);
  }

  /** When a batch starts, its steps are waiting to start. */
  lemma StartOfRound(s: State, depth: seq<nat>)
    requires Calm(s, depth) && s.control.Saving? && Layer(depth, |s.rounds|) != []
      && Apply(s, MainSave).control.InBatch?
    requires Apply(s, MainSave).rounds == s.rounds + [Layer(depth, |s.rounds|)]
    ensures forall i :: i in Layer(depth, |s.rounds|) ==> i in Waiting(Apply(s, MainSave))
  {
    var t := Apply(s, MainSave);
    assert t.rounds[|s.rounds|] == Layer(depth, |s.rounds|);
    assert s.(stored := Some(s.plan)).plan.ReadySteps() == Layer(depth, |s.rounds|);
    LayerSpec(depth, |s.rounds|);
  }

  /** From the start of the last round to the return of `execute`. */
  lemma FinishRun(s: State, depth: seq<nat>) returns (es: seq<Event>)
    requires Calm(s, depth) && Sparing(s, depth) && (s.control.InBatch? || s.control.Saving?)
    requires Layer(depth, |s.rounds|) == [] && Able(s.plan, depth, |s.rounds|)
    ensures Legal(s, es) && AllSmooth(es) && After(s, es).control.Returned? && Sparing(After(s, es), depth)
  {
    if s.control.InBatch? {
      var batch := PassBatch(s, depth);
      var end := FinishSaves(After(s, batch), depth);
      Compose(s, batch, end);
      AllSmoothConcat(batch, end);
      es := batch + end;
    } else {
      es := FinishSaves(s, depth);
    }
  }

  lemma FinishSaves(s: State, depth: seq<nat>) returns (es: seq<Event>)
    requires Calm(s, depth) && Sparing(s, depth) && s.control.Saving? && Layer(depth, |s.rounds|) == []
    ensures Legal(s, es) && AllSmooth(es) && After(s, es).control.Returned? && Sparing(After(s, es), depth)
  {
    SaveStaysCalm(s, depth);
    var t := Apply(s, MainSave);
    SaveStaysCalm(t, depth);
    Compose(s, [MainSave], [MainSave]);
    es := [MainSave] + [MainSave];
  }

  /** Such a plan has an undisturbed run that ends SUCCEEDED with every step SUCCEEDED, however many
      gates it has, on one approval at most, and that one for a human-handled gate of the lowest gate
      depth at which no gate is handled by a service. */
  lemma GatedRunExists(p: Plan, stored: Option<Plan>, depth: seq<nat>) returns (es: seq<Event>)
    requires p.AllPending() && UniqueIds(p) && IsDepth(p, depth) && Runnable(p)
    ensures Legal(Init(p, stored), es) && AllSmooth(es)
    ensures var s := After(Init(p, stored), es);
      && s.control.Returned? && s.plan.status.Succeeded? && AllSucceeded(s.plan) && p.SameShape(s.plan)
      && (forall a, b :: a in s.approvals && b in s.approvals ==> a == b)
      && (forall a :: a in s.approvals ==> FirstGate(p, depth, a))
  {
    var s0 := Init(p, stored);
    if p.steps == [] {
      StartIsCalm(p, stored, depth);
      LayerEmptyIff(depth, 0);
      es := FinishRun(s0, depth);
    } else {
      var d := DeepestLayer(depth);
      var before := ReachRound(p, stored, depth, d);
      var s := After(s0, before);
      InitInv(p, stored);
      RunKeepsInv(s0, before);
      StaysAble(p, s.plan, depth, d + 1);
      var rest := FinishRun(s, depth);
      Compose(s0, before, rest);
      es := before + rest;
    }
    RoundsAreLayers(p, stored, depth, es);
    var s := After(s0, es);
    forall a | a in s.approvals ensures FirstGate(p, depth, a) {
      assert FirstGate(s.plan, depth, a);
      SameFirstGate(p, s.plan, depth, a);
    }
  }

  lemma {:induction false} DeepestOf(depth: seq<nat>) returns (i: nat)
    requires depth != []
    ensures i < |depth| && forall k :: 0 <= k < |depth| ==> depth[k] <= depth[i]
  {
    if |depth| == 1 {
      i := 0;
    } else {
      i := DeepestOf(depth[..|depth| - 1]);
      if depth[|depth| - 1] > depth[i] { i := |depth| - 1; }
    }
  }

  lemma DeepestLayer(depth: seq<nat>) returns (d: nat)
    requires depth != []
    ensures Layer(depth, d) != [] && Layer(depth, d + 1) == []
  {
    var i := DeepestOf(depth);
    d := depth[i];
    LayerEmptyIff(depth, d);
    LayerEmptyIff(depth, d + 1);
  }
}
