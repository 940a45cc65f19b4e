/** When a plan outlives a fatal failure.  The success of an approval gate writes RUNNING over a
    rollback or an abort (execution/runner.py:102-104), so what decides is the last write of the
    plan status in a batch, and, for the plan as a whole, whether a gate shares a batch with a step
    whose failure should stop the plan. */
module Survival {
  import opened Wrappers
  import opened PlanSchema
  import opened Protocol
  import opened DependencySafety
  import opened Rounds
  import opened Layers
  import opened FatalBatch
  import opened GatedRuns

  // ----- one batch: the last write decides ----------------------------------------------------

  /** Events between the start of a batch and the return of gather. */
  predicate Within(e: Event) {
    e.Task? || e.OpApprove? || e.OpDelete? || e.OpWrite?
  }

  predicate AllWithin(es: seq<Event>) {
    forall k :: 0 <= k < |es| ==> Within(es[k])
  }

  /** The event assigns `plan.status`. */
  predicate WritesStatus(s: State, e: Event)
    requires Enabled(s, e)
  {
    match e
    case Task(i, act) =>
      var step := s.plan.steps[i];
      (match act
       case GateResume => true
       case HandlerReturn => step.isApprovalGate
       case Report => step.status.Failed? && step.Fatal()
       case Criteria(fires) => fires
       case _ => false)
    case MainSave => s.control.Saving? && s.plan.status.Running? && s.plan.IsComplete()
    case _ => false
  }

  /** The last event of a run that assigns `plan.status`. */
  function LastWriter(s: State, es: seq<Event>): Option<Event>
    requires Legal(s, es)
    decreases |es|
  {
    if es == [] then None
    else
      var later := LastWriter(Apply(s, es[0]), es[1..]);
      if later.Some? then later else if WritesStatus(s, es[0]) then Some(es[0]) else None
  }

  predicate GateSuccess(e: Event) {
    e.Task? && e.act.HandlerReturn?
  }

  /** Which status a last write by w leaves in plan p. */
  ghost predicate LeavesStatus(p: Plan, w: Event) {
    match w
    case Task(i, act) =>
      (match act
       case GateResume => p.status == AwaitingApproval
       case HandlerReturn => p.status == PlanStatus.Running
       case Criteria(fires) => fires && p.status == PlanStatus.Succeeded
       case Report => i < |p.steps| && (p.steps[i].onFailure == Rollback ==> p.status == RolledBack)
                      && (p.steps[i].onFailure == Abort ==> p.status == Aborted) && p.steps[i].onFailure != Continue
       case _ => false)
    case MainSave => p.status == PlanStatus.Succeeded
    case _ => false
  }

  /** Over every run, whole or in part: the status of the plan is what its last write left, SUCCEEDED
      where a criterion fired or the plan was complete, ROLLED_BACK or ABORTED where a failure was
      recorded, AWAITING_APPROVAL where a gate was saved, RUNNING where one succeeded. */
  lemma {:induction false} StatusByLastWriter(s: State, es: seq<Event>)
    requires Inv(s) && Legal(s, es)
    ensures var w := LastWriter(s, es);
      if w.None? then After(s, es).plan.status == s.plan.status else LeavesStatus(After(s, es).plan, w.value)
    decreases |es|
  {
    if es != [] {
      var e, t := es[0], Apply(s, es[0]);
      ApplyKeepsInv(s, e);
      RunKeepsInv(t, es[1..]);
      StatusByLastWriter(t, es[1..]);
      OneWrite(s, e);
      if LastWriter(t, es[1..]).None? && WritesStatus(s, e) { SameLeft(t.plan, After(s, es).plan, e); }
    }
  }

  lemma OneWrite(s: State, e: Event)
    requires Enabled(s, e)
    ensures if WritesStatus(s, e) then LeavesStatus(Apply(s, e).plan, e) else Apply(s, e).plan.status == s.plan.status
  {
  }

  lemma SameLeft(p: Plan, q: Plan, w: Event)
    requires p.SameShape(q) && p.status == q.status && LeavesStatus(p, w)
    ensures LeavesStatus(q, w)
  {
    if w.Task? && w.act.Report? { assert p.steps[w.i].SameStep(q.steps[w.i]); }
  }

  /** `execute` returns at the end of a save, with exactly that plan in the store. */
  lemma ReturnIsStored(s: State, e: Event)
    requires Enabled(s, e) && !s.control.Returned? && Apply(s, e).control.Returned?
    ensures e == MainSave && Apply(s, e).stored == Some(Apply(s, e).plan)
  {
  }

  /** So a run that returns after a criterion was the last to write returns a SUCCEEDED plan, stored
      so; after a fatal failure, a ROLLED_BACK or ABORTED one; and after neither it has run all steps
      or stopped for want of a ready one. */
  lemma ReturnedStatus(p: Plan, stored: Option<Plan>, es: seq<Event>, e: Event)
    requires p.AllPending() && Legal(Init(p, stored), es) && Enabled(After(Init(p, stored), es), e)
    requires !After(Init(p, stored), es).control.Returned? && Apply(After(Init(p, stored), es), e).control.Returned?
    ensures Legal(Init(p, stored), es + [e])
    ensures var s, w := After(Init(p, stored), es + [e]), LastWriter(Init(p, stored), es + [e]);
      && s.stored == Some(s.plan)
      && (w.None? ==> s.plan.status == PlanStatus.Running)
      && (w.Some? ==> LeavesStatus(s.plan, w.value))
      && (w.Some? && w.value.Task? && w.value.act.Criteria? ==> s.plan.status == PlanStatus.Succeeded)
  {
    InitInv(p, stored);
    Extend(Init(p, stored), es, e);
    ReturnIsStored(After(Init(p, stored), es), e);
    StatusByLastWriter(Init(p, stored), es + [e]);
  }

  lemma {:induction false} RunningByLastWriter(s: State, es: seq<Event>)
    requires s.control.InBatch? && Legal(s, es) && AllWithin(es)
    ensures After(s, es).control.InBatch? && After(s, es).rounds == s.rounds
    ensures var w := LastWriter(s, es);
      After(s, es).plan.status.Running? <==> if w.Some? then GateSuccess(w.value) else s.plan.status.Running?
    decreases |es|
  {
    if es != [] {
      var e := es[0];
      assert Within(e);
      WriteEffect(s, e);
      assert AllWithin(es[1..]);
      RunningByLastWriter(Apply(s, e), es[1..]);
    }
  }

  lemma WriteEffect(s: State, e: Event)
    requires Enabled(s, e) && s.control.InBatch? && Within(e)
    ensures Apply(s, e).control.InBatch? && Apply(s, e).rounds == s.rounds
    ensures Apply(s, e).plan.status.Running? <==> if WritesStatus(s, e) then GateSuccess(e) else s.plan.status.Running?
  {
  }

  /** The failure has been recorded by the monitor. */
  predicate Reported(s: State, f: nat) {
    f < |s.phases| && f < |s.plan.steps| && s.plan.steps[f].status.Failed?
      && (s.phases[f].Closing? || s.phases[f].Done?)
  }

  lemma {:induction false} FatalReportWrites(s: State, es: seq<Event>, f: nat)
    requires s.control.InBatch? && Legal(s, es) && AllWithin(es) && Inv(s)
    requires f < |s.plan.steps| && s.plan.steps[f].Fatal() && !Reported(s, f) && Reported(After(s, es), f)
    ensures LastWriter(s, es).Some?
    decreases |es|
  {
    if es != [] {
      var e := es[0];
      assert Within(e);
      WriteEffect(s, e);
      ApplyKeepsInv(s, e);
      assert s.plan.steps[f].SameStep(Apply(s, e).plan.steps[f]);
      if Reported(Apply(s, e), f) {
        ReportedBy(s, e, f);
      } else {
        assert AllWithin(es[1..]);
        FatalReportWrites(Apply(s, e), es[1..], f);
      }
    }
  }

  lemma ReportedBy(s: State, e: Event, f: nat)
    requires Enabled(s, e) && Inv(s) && Within(e) && f < |s.plan.steps| && s.plan.steps[f].Fatal()
    requires !Reported(s, f) && Reported(Apply(s, e), f)
    ensures WritesStatus(s, e)
  {
    assert PhaseOk(s.plan.steps[f], s.phases[f]);
  }

  /** What follows a batch that is over: gather returns, and the plan is saved. */
  function Onward(): seq<Event> {
    [BatchEnd, MainSave]
  }

  lemma OnwardRuns(t: State)
    requires Inv(t) && t.control.InBatch? && BatchDone(t.phases)
    ensures Legal(t, Onward()) && Inv(After(t, Onward()))
    ensures var ready := t.plan.ReadySteps();
      if !t.plan.IsComplete() && t.plan.status.Running? && ready != []
      then After(t, Onward()).control.InBatch? && After(t, Onward()).rounds == t.rounds + [ready]
      else !After(t, Onward()).control.InBatch? && After(t, Onward()).rounds == t.rounds
  {
    var u := Apply(t, BatchEnd);
    ApplyKeepsInv(t, BatchEnd);
    ApplyKeepsInv(u, MainSave);
    assert Onward()[1..] == [MainSave] && [MainSave][1..] == [];
    assert After(Apply(u, MainSave), []) == Apply(u, MainSave);
    assert After(u, [MainSave]) == Apply(u, MainSave);
    assert u.(stored := Some(u.plan)).plan == t.plan;
  }

  /** Over every interleaving of a batch in which step f fails with on_failure rollback or abort:
      a further batch starts if and only if the last write of the plan status in this one was a
      gate's success and some step is ready. */
  lemma SurvivesIff(s: State, es: seq<Event>, f: nat)
    requires Inv(s) && s.control.InBatch? && f < |s.plan.steps| && s.plan.steps[f].Fatal() && s.phases[f].NotStarted?
    requires Legal(s, es) && AllWithin(es) && BatchDone(After(s, es).phases) && Reported(After(s, es), f)
    ensures var t, w := After(s, es), LastWriter(s, es);
      && Legal(t, Onward())
      && (After(t, Onward()).control.InBatch? <==> w.Some? && GateSuccess(w.value) && t.plan.ReadySteps() != [])
  {
    var t := After(s, es);
    RunKeepsInv(s, es);
    RunningByLastWriter(s, es);
    FatalReportWrites(s, es, f);
    OnwardRuns(t);
    assert !t.plan.IsComplete();
  }

  /** In particular, where a gate's handler answers well after the failure was recorded and all
      else is done, a further batch starts if and only if something is ready once the gate has
      succeeded. */
  lemma GateRevivesIff(s: State, g: nat, f: nat)
    requires Inv(s) && TaskEnabled(s, g, HandlerReturn) && s.plan.steps[g].isApprovalGate && Reported(s, f)
    requires forall i :: 0 <= i < |s.phases| && i != g ==> s.phases[i].Idle? || s.phases[i].Done?
    ensures var es, ready := Finishing(g), s.plan.WithStep(g, StepStatus.Succeeded).ReadySteps();
      && Legal(s, es) && Legal(After(s, es), Onward())
      && (After(After(s, es), Onward()).control.InBatch? <==> ready != [])
  {
    var es := Finish(s, g);
    var t := After(s, es);
    RunKeepsInv(s, es);
    OnwardRuns(t);
    assert t.plan.steps[f] == s.plan.steps[f];
    assert !t.plan.IsComplete();
    SameReady(t.plan, s.plan.WithStep(g, StepStatus.Succeeded));
  }

  function Finishing(g: nat): seq<Event> {
    [Task(g, HandlerReturn), Task(g, Report), Task(g, Criteria(false))]
  }

  lemma SameReady(p: Plan, q: Plan)
    requires p.steps == q.steps
    ensures p.ReadySteps() == q.ReadySteps()
  {
    forall i | 0 <= i < |p.steps| ensures p.Ready(i) == q.Ready(i) {
      assert forall d :: p.SucceededId(d) == q.SucceededId(d);
    }
    assert seq(|p.steps|, i requires 0 <= i < |p.steps| => p.Ready(i))
      == seq(|q.steps|, i requires 0 <= i < |q.steps| => q.Ready(i));
  }

  /** And in the opposite order none starts: the failure is recorded when all else is done. */
  lemma FailureLastStops(s: State, f: nat)
    requires Inv(s) && TaskEnabled(s, f, Report) && s.plan.steps[f].status.Failed? && s.plan.steps[f].Fatal()
    requires forall i :: 0 <= i < |s.phases| && i != f ==> s.phases[i].Idle? || s.phases[i].Done?
    ensures var es := [Task(f, Report), Task(f, Close)];
      && Legal(s, es) && Legal(After(s, es), Onward()) && !After(After(s, es), Onward()).control.InBatch?
  {
    Start(s, f);
    var es := Segment(s, [], f, Report, s.plan.steps[f].status, s.phases[f]);
    es := Segment(s, es, f, Close, s.plan.steps[f].status, Closing);
    assert es == [Task(f, Report), Task(f, Close)];
    RunKeepsInv(s, es);
    OnwardRuns(After(s, es));
  }

  // ----- every step runs in the round of its depth ---------------------------------------------

  /** The coroutine of step j has ended without success, or has never begun. */
  predicate Lost(s: State, j: nat) {
    j < |s.phases| && j < |s.plan.steps|
      && (s.phases[j].Idle? || (s.phases[j].Done? && !s.plan.steps[j].status.Succeeded?))
  }

  ghost predicate Stuck(s: State, i: nat) {
    i < |s.plan.steps| && exists j :: 0 <= j < |s.plan.steps| && Lost(s, j) && DependsOn(s.plan, i, j)
  }

  ghost predicate InPlace(s: State, depth: seq<nat>, k: nat)
    requires k < |s.rounds|
  {
    forall i :: i in s.rounds[k] ==> i < |depth| && depth[i] == k && i < |s.phases| && !s.phases[i].Idle?
  }

  ghost predicate Placed(s: State, depth: seq<nat>) {
    && Inv(s) && IsDepth(s.plan, depth) && UniqueIds(s.plan)
    && (forall k :: 0 <= k < |s.rounds| ==> InPlace(s, depth, k))
    && (forall i :: 0 <= i < |s.phases| && !s.phases[i].Idle? ==> depth[i] < |s.rounds|)
    && (forall i :: 0 <= i < |s.phases| && s.phases[i].Idle? && depth[i] < |s.rounds| ==> Stuck(s, i))
  }

  lemma StaysStuck(s: State, t: State, i: nat)
    requires Stuck(s, i) && s.plan.SameShape(t.plan) && |s.phases| == |t.phases|
    requires forall j: nat :: Lost(s, j) ==> Lost(t, j)
    ensures Stuck(t, i)
  {
    var j: nat :| j < |s.plan.steps| && Lost(s, j) && DependsOn(s.plan, i, j);
    assert s.plan.steps[i].SameStep(t.plan.steps[i]) && s.plan.steps[j].SameStep(t.plan.steps[j]);
    assert Lost(t, j) && DependsOn(t.plan, i, j);
  }

  lemma TaskKeepsPlaced(s: State, depth: seq<nat>, i: nat, act: Act)
    requires Placed(s, depth) && TaskEnabled(s, i, act)
    ensures Placed(Apply(s, Task(i, act)), depth)
  {
    var t := Apply(s, Task(i, act));
    TaskKeepsInv(s, i, act);
    EffectOk(s, i, act);
    ShapeKeepsDepth(s.plan, t.plan, depth);
    forall j: nat | Lost(s, j) ensures Lost(t, j) { assert j != i; }
    forall k | 0 <= k < |t.rounds| ensures InPlace(t, depth, k) { assert InPlace(s, depth, k); }
    forall m | 0 <= m < |t.phases| && t.phases[m].Idle? && depth[m] < |t.rounds| ensures Stuck(t, m) {
      StaysStuck(s, t, m);
    }
  }

  lemma StuckIsNotReady(s: State, depth: seq<nat>, i: nat)
    requires Placed(s, depth) && Stuck(s, i)
    ensures !s.plan.Ready(i)
  {
    var j: nat :| j < |s.plan.steps| && Lost(s, j) && DependsOn(s.plan, i, j);
    assert PhaseOk(s.plan.steps[j], s.phases[j]);
    assert !s.plan.SucceededId(s.plan.steps[j].stepId);
  }

  lemma DeeperIsNotReady(s: State, depth: seq<nat>, i: nat)
    requires Placed(s, depth) && i < |s.plan.steps| && depth[i] > |s.rounds|
    ensures !s.plan.Ready(i)
  {
    assert DepthAt(s.plan, depth, i);
    var j :| 0 <= j < |s.plan.steps| && DependsOn(s.plan, i, j) && depth[j] == depth[i] - 1;
    assert s.phases[j].Idle? && PhaseOk(s.plan.steps[j], s.phases[j]);
    assert !s.plan.SucceededId(s.plan.steps[j].stepId);
  }

  lemma ReadyAtItsDepth(s: State, depth: seq<nat>, i: nat)
    requires Placed(s, depth) && BatchDone(s.phases) && i in s.plan.ReadySteps()
    ensures i < |s.phases| && s.phases[i].Idle? && depth[i] == |s.rounds|
  {
    ReadyStepsSpec(s.plan);
    assert s.plan.Ready(i) && PhaseOk(s.plan.steps[i], s.phases[i]);
    if depth[i] < |s.rounds| { StuckIsNotReady(s, depth, i); }
    if depth[i] > |s.rounds| { DeeperIsNotReady(s, depth, i); }
  }

  /** A step of the depth just reached that is not ready has a lost dependency. */
  lemma PassedOverIsStuck(s: State, depth: seq<nat>, i: nat)
    requires Placed(s, depth) && BatchDone(s.phases)
    requires i < |s.phases| && s.phases[i].Idle? && depth[i] <= |s.rounds| && i !in s.plan.ReadySteps()
    ensures Stuck(s, i)
  {
    ReadyStepsSpec(s.plan);
    assert DepthAt(s.plan, depth, i) && PhaseOk(s.plan.steps[i], s.phases[i]);
    if depth[i] == |s.rounds| {
      var d :| d in s.plan.steps[i].dependsOn && !s.plan.SucceededId(d);
      assert Named(s.plan, d);
      var j :| 0 <= j < |s.plan.steps| && s.plan.steps[j].stepId == d;
      assert Lost(s, j) && DependsOn(s.plan, i, j);
    }
  }

  lemma StaysStuckAtLoopTop(s: State, depth: seq<nat>, i: nat)
    requires Placed(s, depth) && BatchDone(s.phases) && Stuck(s, i) && depth[i] <= |s.rounds|
    ensures Stuck(LoopTop(s), i)
  {
    var t := LoopTop(s);
    var j: nat :| j < |s.plan.steps| && Lost(s, j) && DependsOn(s.plan, i, j);
    assert DepthAt(s.plan, depth, i) && depth[j] < |s.rounds|;
    if j in s.plan.ReadySteps() { ReadyAtItsDepth(s, depth, j); }
    assert Lost(t, j) && DependsOn(t.plan, i, j);
  }

  lemma NewRoundIsPlaced(s: State, depth: seq<nat>)
    requires Placed(s, depth) && BatchDone(s.phases) && LoopTop(s).control.InBatch?
    ensures Placed(LoopTop(s), depth)
  {
    var t := LoopTop(s);
    LoopTopKeepsInv(s);
    ShapeKeepsDepth(s.plan, t.plan, depth);
    forall k | 0 <= k < |t.rounds| ensures InPlace(t, depth, k) {
      if k == |s.rounds| {
        forall i | i in t.rounds[k] ensures i < |depth| && depth[i] == k { ReadyAtItsDepth(s, depth, i); }
      } else {
        assert InPlace(s, depth, k);
      }
    }
    forall i | 0 <= i < |t.phases| && !t.phases[i].Idle? ensures depth[i] < |t.rounds| {
      if i in s.plan.ReadySteps() { ReadyAtItsDepth(s, depth, i); }
    }
    forall i | 0 <= i < |t.phases| && t.phases[i].Idle? && depth[i] < |t.rounds| ensures Stuck(t, i) {
      PassedOverIsStuck(s, depth, i);
      StaysStuckAtLoopTop(s, depth, i);
    }
  }

  /** Changes that leave steps, phases and rounds alone. */
  lemma SameStepsPlaced(s: State, t: State, depth: seq<nat>)
    requires Placed(s, depth) && Inv(t) && s.plan.SameShape(t.plan)
    requires t.plan.steps == s.plan.steps && t.phases == s.phases && t.rounds == s.rounds
    ensures Placed(t, depth)
  {
    ShapeKeepsDepth(s.plan, t.plan, depth);
    forall k | 0 <= k < |t.rounds| ensures InPlace(t, depth, k) { assert InPlace(s, depth, k); }
    forall i | 0 <= i < |t.phases| && t.phases[i].Idle? && depth[i] < |t.rounds| ensures Stuck(t, i) {
      StaysStuck(s, t, i);
    }
  }

  lemma ApplyKeepsPlaced(s: State, depth: seq<nat>, e: Event)
    requires Placed(s, depth) && Enabled(s, e)
    ensures Placed(Apply(s, e), depth)
  {
    ApplyKeepsInv(s, e);
    if e.Task? {
      TaskKeepsPlaced(s, depth, e.i, e.act);
    } else if Apply(s, e).control.InBatch? && !s.control.InBatch? {
      var s' := s.(stored := Some(s.plan));
      SameStepsPlaced(s, s', depth);
      NewRoundIsPlaced(s', depth);
    } else {
      SameStepsPlaced(s, Apply(s, e), depth);
    }
  }

  lemma {:induction false} RunKeepsPlaced(s: State, depth: seq<nat>, es: seq<Event>)
    requires Placed(s, depth) && Legal(s, es)
    ensures Placed(After(s, es), depth)
    decreases |es|
  {
    if es != [] {
      ApplyKeepsPlaced(s, depth, es[0]);
      RunKeepsPlaced(Apply(s, es[0]), depth, es[1..]);
    }
  }

  /** In every run, whatever fails and whatever the operator does, a step only ever runs in the
      round of its dependency depth. */
  lemma RoundsWithinLayers(p: Plan, stored: Option<Plan>, depth: seq<nat>, es: seq<Event>)
    requires p.AllPending() && UniqueIds(p) && IsDepth(p, depth) && Legal(Init(p, stored), es)
    ensures Placed(After(Init(p, stored), es), depth)
  {
    InitInv(p, stored);
    ShapeKeepsDepth(p, Init(p, stored).plan, depth);
    RunKeepsPlaced(Init(p, stored), depth, es);
  }

  // ----- the plan as a whole ----------------------------------------------------------------------

  /** In this run a batch follows round k although step f of round k failed for good. */
  ghost predicate Outlived(p: Plan, stored: Option<Plan>, es: seq<Event>, k: nat, f: nat) {
    && Legal(Init(p, stored), es)
    && var s := After(Init(p, stored), es);
       k + 1 < |s.rounds| && f in s.rounds[k] && f < |s.plan.steps| && s.plan.steps[f].Fatal()
         && s.plan.steps[f].status.Failed?
  }

  /** Step f, whose failure should stop the plan, and gate g are at one depth, and step j, one
      deeper, does not need f. */
  ghost predicate Shared(p: Plan, depth: seq<nat>, f: nat, g: nat, j: nat)
    requires |depth| == |p.steps|
  {
    && f < |p.steps| && g < |p.steps| && j < |p.steps| && f != g
    && p.steps[f].Fatal() && p.steps[g].isApprovalGate && depth[f] == depth[g]
    && depth[j] == depth[f] + 1 && !DependsOn(p, j, f)
  }

  /** A plan that has been outlived has such steps. */
  lemma OutlivedIsShared(p: Plan, stored: Option<Plan>, depth: seq<nat>, es: seq<Event>, k: nat, f: nat)
    returns (g: nat, j: nat)
    requires p.AllPending() && UniqueIds(p) && IsDepth(p, depth) && Outlived(p, stored, es, k, f)
    ensures Shared(p, depth, f, g, j)
  {
    var s := After(Init(p, stored), es);
    RoundsWithinLayers(p, stored, depth, es);
    assert s.rounds[k + 1] != [] by { RoundsAndCallsBounded(p, stored, es); }
    assert p.SameShape(s.plan) && GatePassed(s, s.rounds[k]) by {
      NoBatchAfterFatalFailure(p, stored, es, k, f);
      InitInv(p, stored);
      RunKeepsInv(Init(p, stored), es);
      assert p.steps[f].SameStep(s.plan.steps[f]);
    }
    g, j := SharedInState(s, depth, k, f);
    assert p.steps[f].SameStep(s.plan.steps[f]) && p.steps[g].SameStep(s.plan.steps[g])
      && p.steps[j].SameStep(s.plan.steps[j]);
  }

  lemma SharedInState(s: State, depth: seq<nat>, k: nat, f: nat) returns (g: nat, j: nat)
    requires Placed(s, depth) && k + 1 < |s.rounds| && s.rounds[k + 1] != [] && GatePassed(s, s.rounds[k])
    requires f in s.rounds[k] && f < |s.plan.steps| && s.plan.steps[f].Fatal() && s.plan.steps[f].status.Failed?
    ensures Shared(s.plan, depth, f, g, j)
  {
    g :| g in s.rounds[k] && g < |s.plan.steps| && s.plan.steps[g].isApprovalGate && s.plan.steps[g].status.Succeeded?;
    j := s.rounds[k + 1][0];
    assert j in s.rounds[k + 1] && InPlace(s, depth, k + 1) && InPlace(s, depth, k);
    NeedsSuccess(s, j, f);
  }

  lemma NeedsSuccess(s: State, j: nat, f: nat)
    requires Inv(s) && UniqueIds(s.plan) && j < |s.phases| && !s.phases[j].Idle? && f < |s.plan.steps|
    ensures DependsOn(s.plan, j, f) ==> s.plan.steps[f].status.Succeeded?
  {
    if DependsOn(s.plan, j, f) { assert s.plan.SucceededId(s.plan.steps[f].stepId); }
  }

  /** Step f starts, and its failure is recorded. */
  lemma FailStep(s: State, f: nat) returns (es: seq<Event>)
    requires s.control.InBatch? && f < |s.plan.steps| && f < |s.phases| && s.phases[f].NotStarted?
    requires s.plan.steps[f].Fatal()
    ensures Legal(s, es) && Only(s, After(s, es), f, StepStatus.Failed, Done)
  {
    es := FailHandler(s, f);
    es := Segment(s, es, f, Report, StepStatus.Failed, Reporting);
    es := Segment(s, es, f, Close, StepStatus.Failed, Closing);
  }

  /** Its handler is missing, or fails. */
  lemma FailHandler(s: State, f: nat) returns (es: seq<Event>)
    requires s.control.InBatch? && f < |s.plan.steps| && f < |s.phases| && s.phases[f].NotStarted?
    ensures Legal(s, es) && Only(s, After(s, es), f, StepStatus.Failed, Reporting)
  {
    var step := s.plan.steps[f];
    if HandlerFor(step.action).NoHandler? {
      Start(s, f);
      es := Segment(s, [], f, Begin, step.status, s.phases[f]);
      if step.isApprovalGate {
        var blob := s.plan.WithStep(f, WaitingApproval);
        es := Segment(s, es, f, GateLand, WaitingApproval, GateSaving(blob, false));
        es := Segment(s, es, f, GateResume, WaitingApproval, GateSaving(blob, true));
      }
    } else {
      if step.isApprovalGate {
        es := AskGate(s, f);
      } else {
        Start(s, f);
        es := Segment(s, [], f, Begin, step.status, s.phases[f]);
      }
      es := Segment(s, es, f, HandlerFail, InFlight(step), if HandlerFor(step.action).Human? then Polling(0)
        else Handling);
    }
  }

  /** Gate g is brought to its answer, and then f fails. */
  lemma AskThenFail(t: State, depth: seq<nat>, f: nat, g: nat) returns (es: seq<Event>)
    requires Calm(t, depth) && t.control.InBatch? && f != g && f in Waiting(t) && g in Waiting(t)
    requires t.plan.steps[f].Fatal() && t.plan.steps[g].isApprovalGate && Operable(t.plan.steps[g])
    ensures Legal(t, es)
    ensures var v := After(t, es);
      && v.control.InBatch? && v.rounds == t.rounds && TaskEnabled(v, g, HandlerReturn)
      && v.plan.steps[g].isApprovalGate
      && v.phases == t.phases[g := AskedPhase(t.plan.steps[g])][f := Done]
      && v.plan.steps == t.plan.WithStep(g, InFlight(t.plan.steps[g])).WithStep(f, StepStatus.Failed).steps
  {
    var ask := Ask(t, depth, g);
    var u := After(t, ask);
    var fail := FailStep(u, f);
    Compose(t, ask, fail);
    es := ask + fail;
  }

  /** In the last batch but f and g everything has passed; then g is answered, f fails, and g's
      success is recorded. */
  lemma FailBetween(t: State, depth: seq<nat>, f: nat, g: nat) returns (es: seq<Event>)
    requires Calm(t, depth) && t.control.InBatch? && f != g && f in Waiting(t) && g in Waiting(t)
    requires t.plan.steps[f].Fatal() && t.plan.steps[g].isApprovalGate && Operable(t.plan.steps[g])
    ensures Legal(t, es)
    ensures var w := After(t, es);
      && w.control.InBatch? && w.rounds == t.rounds && w.plan.status.Running?
      && w.phases == t.phases[f := Done][g := Done]
      && w.plan.steps == t.plan.WithStep(f, StepStatus.Failed).WithStep(g, StepStatus.Succeeded).steps
  {
    var first := AskThenFail(t, depth, f, g);
    var v := After(t, first);
    var finish := Finish(v, g);
    Compose(t, first, finish);
    es := first + finish;
    FailedThenPassed(t, v, After(v, finish), f, g);
  }

  lemma FailedThenPassed(t: State, v: State, w: State, f: nat, g: nat)
    requires f != g && f < |t.plan.steps| == |t.phases| && g < |t.plan.steps|
    requires v.phases == t.phases[g := AskedPhase(t.plan.steps[g])][f := Done]
    requires v.plan.steps == t.plan.WithStep(g, InFlight(t.plan.steps[g])).WithStep(f, StepStatus.Failed).steps
    requires Only(v, w, g, StepStatus.Succeeded, Done)
    ensures w.phases == t.phases[f := Done][g := Done]
    ensures w.plan.steps == t.plan.WithStep(f, StepStatus.Failed).WithStep(g, StepStatus.Succeeded).steps
  {
  }

  lemma DeeperIsReady(p: Plan, t: State, depth: seq<nat>, f: nat, g: nat, j: nat)
    requires Calm(t, depth) && t.control.InBatch? && Waiting(t) == {f, g} && Shared(t.plan, depth, f, g, j)
    requires p.steps == t.plan.WithStep(f, StepStatus.Failed).WithStep(g, StepStatus.Succeeded).steps
    ensures p.Ready(j)
  {
    assert f in Waiting(t) && depth[f] == |t.rounds| - 1;
    assert t.phases[j].Idle? && PhaseOk(t.plan.steps[j], t.phases[j]);
    assert DepthAt(t.plan, depth, j);
    forall d | d in p.steps[j].dependsOn ensures p.SucceededId(d) {
      assert Named(t.plan, d);
      var m :| 0 <= m < |t.plan.steps| && t.plan.steps[m].stepId == d;
      assert DependsOn(t.plan, j, m) && m != f;
      assert PhaseOk(t.plan.steps[m], t.phases[m]);
      assert m != g ==> m !in Waiting(t);
      assert p.steps[m].status.Succeeded? && p.steps[m].stepId == d;
    }
  }

  /** Every step up to the depth of f, other than f, is operable. */
  predicate AbleUpTo(p: Plan, depth: seq<nat>, f: nat)
    requires |depth| == |p.steps| && f < |p.steps|
  {
    forall i :: 0 <= i < |p.steps| && i != f && depth[i] <= depth[f] ==> Operable(p.steps[i])
  }

  /** The runner can be brought to where only f and g of their round have not started. */
  lemma ReachPair(p: Plan, stored: Option<Plan>, depth: seq<nat>, f: nat, g: nat) returns (es: seq<Event>)
    requires p.AllPending() && UniqueIds(p) && IsDepth(p, depth)
    requires f < |p.steps| && AbleUpTo(p, depth, f)
    requires f < |p.steps| && g < |p.steps| && depth[f] == depth[g]
    ensures Legal(Init(p, stored), es)
    ensures var t := After(Init(p, stored), es);
      && Calm(t, depth) && t.control.InBatch? && Waiting(t) == {f, g} && |t.rounds| == depth[f] + 1
      && f in t.rounds[depth[f]]
  {
    var d, s0 := depth[f], Init(p, stored);
    LayerEmptyIff(depth, d);
    LayerSpec(depth, d);
    var before := ReachRound(p, stored, depth, d);
    var s := After(s0, before);
    assert f in Layer(depth, d) && g in Layer(depth, d);
    InitInv(p, stored);
    RunKeepsInv(s0, before);
    forall i | i in Waiting(s) && i !in {f, g} ensures Operable(s.plan.steps[i]) {
      assert p.steps[i].SameStep(s.plan.steps[i]) && depth[i] == d;
    }
    var pass := PassAll(s, depth, {f, g});
    Compose(s0, before, pass);
    es := before + pass;
  }

  /** A plan with such steps can be outlived. */
  lemma SharedIsOutlived(p: Plan, stored: Option<Plan>, depth: seq<nat>, f: nat, g: nat, j: nat)
    returns (es: seq<Event>)
    requires p.AllPending() && UniqueIds(p) && IsDepth(p, depth) && Shared(p, depth, f, g, j) && AbleUpTo(p, depth, f)
    ensures Outlived(p, stored, es, depth[f], f)
  {
    var s0 := Init(p, stored);
    var reach := ReachPair(p, stored, depth, f, g);
    var t := After(s0, reach);
    SharedStays(p, stored, depth, reach, f, g, j);
    assert f in Waiting(t) && g in Waiting(t) && Operable(p.steps[g]);
    var fail := FailBetween(t, depth, f, g);
    Compose(s0, reach, fail);
    es := reach + fail;
    GoesOn(p, stored, es, t, depth, f, g, j);
    Compose(s0, es, Onward());
    es := es + Onward();
  }

  lemma SharedStays(p: Plan, stored: Option<Plan>, depth: seq<nat>, es: seq<Event>, f: nat, g: nat, j: nat)
    requires p.AllPending() && |depth| == |p.steps| && Shared(p, depth, f, g, j) && Legal(Init(p, stored), es)
    ensures var q := After(Init(p, stored), es).plan;
      |q.steps| == |p.steps| && Shared(q, depth, f, g, j) && p.steps[g].SameStep(q.steps[g])
  {
    InitInv(p, stored);
    RunKeepsInv(Init(p, stored), es);
    var q := After(Init(p, stored), es).plan;
    assert p.steps[f].SameStep(q.steps[f]) && p.steps[g].SameStep(q.steps[g]) && p.steps[j].SameStep(q.steps[j]);
  }

  lemma GoesOn(p: Plan, stored: Option<Plan>, es: seq<Event>, t: State, depth: seq<nat>, f: nat, g: nat, j: nat)
    requires p.AllPending() && Legal(Init(p, stored), es)
    requires Calm(t, depth) && t.control.InBatch? && Waiting(t) == {f, g} && Shared(t.plan, depth, f, g, j)
    requires var w := After(Init(p, stored), es);
      && w.control.InBatch? && w.rounds == t.rounds && w.plan.status.Running?
      && w.phases == t.phases[f := Done][g := Done]
      && w.plan.steps == t.plan.WithStep(f, StepStatus.Failed).WithStep(g, StepStatus.Succeeded).steps
    ensures var w := After(Init(p, stored), es);
      && Legal(w, Onward()) && |After(w, Onward()).rounds| == |t.rounds| + 1
      && After(w, Onward()).rounds[..|t.rounds|] == t.rounds && After(w, Onward()).plan.steps == w.plan.steps
  {
    var w := After(Init(p, stored), es);
    InitInv(p, stored);
    RunKeepsInv(Init(p, stored), es);
    forall i | 0 <= i < |w.phases| ensures w.phases[i].Idle? || w.phases[i].Done? {
      assert i !in Waiting(t) || i == f || i == g;
    }
    DeeperIsReady(w.plan, t, depth, f, g, j);
    ReadyStepsSpec(w.plan);
    assert j in w.plan.ReadySteps() && !w.plan.IsComplete();
    OnwardRuns(w);
    OnwardKeepsSteps(w);
  }

  lemma OnwardKeepsSteps(w: State)
    requires Legal(w, Onward())
    ensures After(w, Onward()).plan.steps == w.plan.steps
  {
    assert Onward()[1..] == [MainSave] && [MainSave][1..] == [];
    var u := Apply(w, BatchEnd);
    assert After(Apply(u, MainSave), []) == Apply(u, MainSave) && After(u, [MainSave]) == Apply(u, MainSave);
  }

  /** Some run of the plan goes on after the failure of step f, if and only if a gate shares the
      depth of f, some step one deeper does not depend on f, and f's failure should stop the plan.
      Nothing is asked of f, which may have no handler at all. */
  lemma OutlivedIff(p: Plan, stored: Option<Plan>, depth: seq<nat>, f: nat)
    requires p.AllPending() && UniqueIds(p) && IsDepth(p, depth) && f < |p.steps| && AbleUpTo(p, depth, f)
    ensures (exists es, k: nat :: Outlived(p, stored, es, k, f)) <==> exists g: nat, j: nat :: Shared(p, depth, f, g, j)
  {
    if es, k: nat :| Outlived(p, stored, es, k, f) {
      var g, j := OutlivedIsShared(p, stored, depth, es, k, f);
    }
    if g: nat, j: nat :| Shared(p, depth, f, g, j) {
      var es := SharedIsOutlived(p, stored, depth, f, g, j);
    }
  }
}
