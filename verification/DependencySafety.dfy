/** What every interleaving keeps: a step starts only when all it depends on has succeeded,
    success is never revoked, and a set of steps that wait for one another never starts. */
module DependencySafety {
  import opened Wrappers
  import opened PlanSchema
  import opened Protocol

  /** A step's status agrees with where its coroutine is. */
  ghost predicate PhaseOk(step: PlanStep, ph: Phase) {
    match ph
    case Idle => step.status.Pending?
    case NotStarted => step.status.Pending?
    case GateSaving(_, _) => step.isApprovalGate && step.status.WaitingApproval?
    case Handling => step.status == InFlight(step)
    case Polling(_) => step.status == InFlight(step)
    case Answered(_) => step.status == InFlight(step)
    case Reporting => step.status.Succeeded? || step.status.Failed?
    case Checking => step.status.Succeeded?
    case Closing => step.status.Succeeded? || step.status.Failed?
    case Done => step.status.Succeeded? || step.status.Failed?
    case Raised => step.status.WaitingApproval? || step.status.Succeeded? || step.status.Failed?
  }

  function InFlight(step: PlanStep): StepStatus {
    if step.isApprovalGate then WaitingApproval else StepStatus.Running
  }

  ghost predicate Inv(s: State) {
    && |s.phases| == |s.plan.steps|
    && (forall i :: 0 <= i < |s.phases| ==> PhaseOk(s.plan.steps[i], s.phases[i]))
    && (!s.control.InBatch? ==> BatchDone(s.phases))
    && (forall i :: 0 <= i < |s.phases| && !s.phases[i].Idle? ==> s.plan.DepsSucceeded(i))
  }

  /** How a plan may change: statuses only, never back to pending, never away from success. */
  ghost predicate Evolves(p: Plan, q: Plan) {
    && p.SameShape(q)
    && forall i :: 0 <= i < |p.steps| ==>
         && (p.steps[i].status.Succeeded? ==> q.steps[i].status.Succeeded?)
         && (!p.steps[i].status.Pending? ==> !q.steps[i].status.Pending?)
  }

  lemma EvolvesSucceededId(p: Plan, q: Plan, id: string)
    requires Evolves(p, q) && p.SucceededId(id)
    ensures q.SucceededId(id)
  {
    var j :| 0 <= j < |p.steps| && p.steps[j].status.Succeeded? && p.steps[j].stepId == id;
    assert p.steps[j].SameStep(q.steps[j]);
  }

  lemma EvolvesDeps(p: Plan, q: Plan, i: nat)
    requires Evolves(p, q) && i < |p.steps| && p.DepsSucceeded(i)
    ensures q.DepsSucceeded(i)
  {
    assert p.steps[i].SameStep(q.steps[i]);
    forall d | d in q.steps[i].dependsOn ensures q.SucceededId(d) { EvolvesSucceededId(p, q, d); }
  }

  /** One segment keeps status and phase in step with each other. */
  lemma EffectOk(s: State, i: nat, act: Act)
    requires Inv(s) && TaskEnabled(s, i, act)
    ensures var ef := TaskEffect(s, i, act); var step := s.plan.steps[i];
      && PhaseOk(step.(status := ef.status), ef.phase)
      && !ef.phase.Idle? && !ef.phase.NotStarted?
      && (step.status.Succeeded? ==> ef.status.Succeeded?)
      && !ef.status.Pending?
  {
    assert PhaseOk(s.plan.steps[i], s.phases[i]);
  }

  lemma TaskKeepsInv(s: State, i: nat, act: Act)
    requires Inv(s) && TaskEnabled(s, i, act)
    ensures Inv(Apply(s, Task(i, act))) && Evolves(s.plan, Apply(s, Task(i, act)).plan)
  {
    EffectOk(s, i, act);
    var s' := Apply(s, Task(i, act));
    forall k | 0 <= k < |s'.phases| && !s'.phases[k].Idle?
      ensures s'.plan.DepsSucceeded(k)
    {
      assert !s.phases[k].Idle?;
      EvolvesDeps(s.plan, s'.plan, k);
    }
  }

  lemma LoopTopKeepsInv(s: State)
    requires Inv(s) && BatchDone(s.phases)
    ensures Inv(LoopTop(s)) && Evolves(s.plan, LoopTop(s).plan)
  {
    var s' := LoopTop(s);
    ReadyStepsSpec(s.plan);
    forall k | 0 <= k < |s'.phases| && !s'.phases[k].Idle?
      ensures s'.plan.DepsSucceeded(k)
    {
      if s.phases[k].Idle? { assert s.plan.Ready(k); }
      EvolvesDeps(s.plan, s'.plan, k);
    }
  }

  lemma ApplyKeepsInv(s: State, e: Event)
    requires Inv(s) && Enabled(s, e)
    ensures Inv(Apply(s, e)) && Evolves(s.plan, Apply(s, e).plan)
  {
    match e
    case Task(i, act) => TaskKeepsInv(s, i, act);
    case MainSave =>
      var s' := s.(stored := Some(s.plan));
      assert Inv(s');
      if s.control.Saving? { LoopTopKeepsInv(s'); }
    case _ =>
  }

  lemma {:induction false} RunKeepsInv(s: State, es: seq<Event>)
    requires Inv(s) && Legal(s, es)
    ensures Inv(After(s, es)) && Evolves(s.plan, After(s, es).plan)
    decreases |es|
  {
    if es != [] {
      ApplyKeepsInv(s, es[0]);
      RunKeepsInv(Apply(s, es[0]), es[1..]);
      EvolvesTransitive(s.plan, Apply(s, es[0]).plan, After(s, es).plan);
    }
  }

  lemma EvolvesTransitive(p: Plan, q: Plan, r: Plan)
    requires Evolves(p, q) && Evolves(q, r)
    ensures Evolves(p, r)
  {
    forall i | 0 <= i < |p.steps| ensures p.steps[i].SameStep(r.steps[i]) {
      assert p.steps[i].SameStep(q.steps[i]) && q.steps[i].SameStep(r.steps[i]);
    }
  }

  lemma InitInv(p: Plan, stored: Option<Plan>)
    requires p.AllPending()
    ensures Inv(Init(p, stored))
  {
  }

  /** In every run from an all-pending plan: a step that has left PENDING has all its
      dependencies on succeeded steps. */
  lemma StartedHasDependencies(p: Plan, stored: Option<Plan>, es: seq<Event>, i: nat)
    requires p.AllPending() && Legal(Init(p, stored), es) && i < |p.steps|
    ensures var q := After(Init(p, stored), es).plan;
      && p.SameShape(q)
      && (!q.steps[i].status.Pending? ==>
            forall d :: d in p.steps[i].dependsOn ==> q.SucceededId(d))
  {
    InitInv(p, stored);
    RunKeepsInv(Init(p, stored), es);
    var s := After(Init(p, stored), es);
    assert p.steps[i].SameStep(s.plan.steps[i]);
    if !s.plan.steps[i].status.Pending? {
      assert PhaseOk(s.plan.steps[i], s.phases[i]);
      assert s.plan.DepsSucceeded(i);
    }
  }

  /** In every continuation of every run, success stays and pending never comes back. */
  lemma SuccessIsFinal(p: Plan, stored: Option<Plan>, es: seq<Event>, more: seq<Event>)
    requires p.AllPending() && Legal(Init(p, stored), es) && Legal(After(Init(p, stored), es), more)
    ensures Evolves(After(Init(p, stored), es).plan, After(After(Init(p, stored), es), more).plan)
  {
    InitInv(p, stored);
    RunKeepsInv(Init(p, stored), es);
    RunKeepsInv(After(Init(p, stored), es), more);
  }

  /** Every step of `b` is pending and has a dependency that only steps of `b` and failed
      steps could supply: cycles, steps downstream of a failure, a cycle or a missing id. */
  ghost predicate Blocked(p: Plan, b: set<nat>) {
    forall i :: i in b ==>
      && i < |p.steps| && p.steps[i].status.Pending?
      && exists d :: d in p.steps[i].dependsOn && OnlyFrom(p, b, d)
  }

  ghost predicate OnlyFrom(p: Plan, b: set<nat>, d: string) {
    forall j :: 0 <= j < |p.steps| && p.steps[j].stepId == d ==> j in b || p.steps[j].status.Failed?
  }

  /** A failed step whose coroutine has recorded the failure keeps it. */
  lemma FailureIsFinal(s: State, e: Event, i: nat)
    requires Inv(s) && Enabled(s, e) && i < |s.plan.steps| && s.plan.steps[i].status.Failed?
    ensures Inv(Apply(s, e)) && i < |Apply(s, e).plan.steps| && Apply(s, e).plan.steps[i].status.Failed?
  {
    ApplyKeepsInv(s, e);
    assert PhaseOk(s.plan.steps[i], s.phases[i]);
  }

  lemma StepKeepsBlocked(s: State, e: Event, b: set<nat>)
    requires Inv(s) && Enabled(s, e) && Blocked(s.plan, b)
    ensures Blocked(Apply(s, e).plan, b)
  {
    var s' := Apply(s, e);
    ApplyKeepsInv(s, e);
    forall i | i in b
      ensures i < |s'.plan.steps| && s'.plan.steps[i].status.Pending?
      ensures exists d :: d in s'.plan.steps[i].dependsOn && OnlyFrom(s'.plan, b, d)
    {
      assert s.plan.steps[i].SameStep(s'.plan.steps[i]);
      var d :| d in s.plan.steps[i].dependsOn && OnlyFrom(s.plan, b, d);
      SourceStays(s, e, b, d);
      BlockedStaysPending(s, e, b, i);
    }
  }

  lemma SourceStays(s: State, e: Event, b: set<nat>, d: string)
    requires Inv(s) && Enabled(s, e) && OnlyFrom(s.plan, b, d)
    ensures OnlyFrom(Apply(s, e).plan, b, d)
  {
    var s' := Apply(s, e);
    ApplyKeepsInv(s, e);
    forall j | 0 <= j < |s'.plan.steps| && s'.plan.steps[j].stepId == d
      ensures j in b || s'.plan.steps[j].status.Failed?
    {
      assert s.plan.steps[j].SameStep(s'.plan.steps[j]);
      if j !in b { FailureIsFinal(s, e, j); }
    }
  }

  lemma BlockedStaysPending(s: State, e: Event, b: set<nat>, i: nat)
    requires Inv(s) && Enabled(s, e) && Blocked(s.plan, b) && i in b
    ensures i < |Apply(s, e).plan.steps| && Apply(s, e).plan.steps[i].status.Pending?
  {
    var d :| d in s.plan.steps[i].dependsOn && OnlyFrom(s.plan, b, d);
    assert !s.plan.SucceededId(d);
    IdleStaysPending(s, e, i);
  }

  lemma IdleStaysPending(s: State, e: Event, i: nat)
    requires Inv(s) && Enabled(s, e) && i < |s.phases| && s.phases[i].Idle?
    ensures i < |Apply(s, e).plan.steps| && Apply(s, e).plan.steps[i].status.Pending?
  {
    assert PhaseOk(s.plan.steps[i], s.phases[i]);
  }

  /** Once blocked, such a set never starts, in any continuation. */
  lemma {:induction false} BlockedNeverStarts(s: State, es: seq<Event>, b: set<nat>)
    requires Inv(s) && Legal(s, es) && Blocked(s.plan, b)
    ensures Blocked(After(s, es).plan, b)
    decreases |es|
  {
    if es != [] {
      ApplyKeepsInv(s, es[0]);
      StepKeepsBlocked(s, es[0], b);
      BlockedNeverStarts(Apply(s, es[0]), es[1..], b);
    }
  }
}
