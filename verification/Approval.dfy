/** The approval gate: runner, polling handler and operator meet only through the stored
    copy of the plan.  Covers every interleaving, including stale writes by any of them. */
module Approval {
  import opened Wrappers
  import opened PlanSchema
  import opened Protocol
  import opened DependencySafety
  import opened Termination
  import Generator

  ghost predicate SomeGateSucceeded(p: Plan) {
    exists i :: 0 <= i < |p.steps| && p.steps[i].isApprovalGate && p.steps[i].status.Succeeded?
  }

  /** Gates are handed to the human handler (or to none). */
  predicate HumanGates(p: Plan) {
    forall i :: 0 <= i < |p.steps| && p.steps[i].isApprovalGate ==> !HandlerFor(p.steps[i].action).Service?
  }

  /** A copy of plan p in which a gate counts as passed only after an approval. */
  ghost predicate CopyOk(p: Plan, copy: Plan, approvals: set<nat>) {
    p.SameShape(copy) && (SomeGateSucceeded(copy) ==> approvals != {})
  }

  ghost predicate Gated(p: Plan, s: State) {
    && Inv(s) && HumanGates(p)
    && CopyOk(p, s.plan, s.approvals)
    && (s.stored.Some? ==> CopyOk(p, s.stored.value, s.approvals))
    && (forall j :: 0 <= j < |s.requests| ==> CopyOk(p, s.requests[j], s.approvals))
    && (forall i :: 0 <= i < |s.phases| && s.phases[i].GateSaving? ==> CopyOk(p, s.phases[i].blob, s.approvals))
    && (forall i :: 0 <= i < |s.phases| && s.phases[i] == Answered(true) ==> s.approvals != {})
    && (forall i :: 0 <= i < |s.phases| && s.phases[i].Handling? ==> HandlerFor(s.plan.steps[i].action).Service?)
    && (forall i :: 0 <= i < |s.phases| && s.plan.steps[i].status.Succeeded? && HandlerFor(p.steps[i].action).Human? ==>
          s.approvals != {})
    && (forall i :: i in s.approvals ==> i < |p.steps| && p.steps[i].isApprovalGate)
  }

  lemma {:induction false} VerdictNeedsGate(steps: seq<PlanStep>)
    requires GateVerdict(steps).Approved?
    ensures exists i :: 0 <= i < |steps| && steps[i].isApprovalGate && steps[i].status.Succeeded?
  {
    if !(steps[0].isApprovalGate && steps[0].status.Succeeded?) {
      VerdictNeedsGate(steps[1..]);
      var i :| 0 <= i < |steps[1..]| && steps[1..][i].isApprovalGate && steps[1..][i].status.Succeeded?;
      assert steps[i + 1].isApprovalGate && steps[i + 1].status.Succeeded?;
    }
  }

  lemma ShapeTransitive(p: Plan, q: Plan, r: Plan)
    requires p.SameShape(q) && q.SameShape(r)
    ensures p.SameShape(r)
  {
    forall i | 0 <= i < |p.steps| ensures p.steps[i].SameStep(r.steps[i]) {
      assert p.steps[i].SameStep(q.steps[i]) && q.steps[i].SameStep(r.steps[i]);
    }
  }

  lemma GateKnown(p: Plan, copy: Plan, i: nat)
    requires p.SameShape(copy) && i < |p.steps|
    ensures p.steps[i].SameStep(copy.steps[i])
  {
  }

  /** One segment of a coroutine, seen locally: a step handed to a human succeeds only with an
      approval, and so does the answer the handler is about to give. */
  lemma TaskLocal(p: Plan, s: State, i: nat, act: Act)
    requires Gated(p, s) && TaskEnabled(s, i, act)
    ensures var ef := TaskEffect(s, i, act);
      && (ef.status.Succeeded? && HandlerFor(p.steps[i].action).Human? ==> s.approvals != {})
      && (ef.status.Succeeded? && p.steps[i].isApprovalGate ==> s.approvals != {})
      && (ef.phase == Answered(true) ==> s.approvals != {})
      && (ef.phase.Handling? ==> HandlerFor(p.steps[i].action).Service?)
  {
    GateKnown(p, s.plan, i);
    EffectOk(s, i, act);
    assert PhaseOk(s.plan.steps[i], s.phases[i]);
    assert s.plan.steps[i].status.Succeeded? && p.steps[i].isApprovalGate ==> SomeGateSucceeded(s.plan);
    if act.Poll? && s.stored.Some? && GateVerdict(s.stored.value.steps).Approved? {
      VerdictNeedsGate(s.stored.value.steps);
      assert SomeGateSucceeded(s.stored.value);
    }
  }

  /** Changing one step keeps a copy good if that step's success is covered. */
  lemma WithStepKeepsCopy(p: Plan, copy: Plan, approvals: set<nat>, i: nat, st: StepStatus, ps: PlanStatus)
    requires CopyOk(p, copy, approvals) && i < |copy.steps|
    requires st.Succeeded? && p.steps[i].isApprovalGate ==> approvals != {}
    ensures CopyOk(p, copy.WithStep(i, st).(status := ps), approvals)
  {
    var after := copy.WithStep(i, st).(status := ps);
    forall k | 0 <= k < |p.steps| ensures p.steps[k].SameStep(after.steps[k]) { GateKnown(p, copy, k); }
    if SomeGateSucceeded(after) {
      var k :| 0 <= k < |after.steps| && after.steps[k].isApprovalGate && after.steps[k].status.Succeeded?;
      GateKnown(p, copy, k);
      assert k != i ==> SomeGateSucceeded(copy);
    }
  }

  lemma TaskKeepsBlobs(p: Plan, s: State, i: nat, act: Act)
    requires Gated(p, s) && TaskEnabled(s, i, act)
    ensures TaskEffect(s, i, act).phase.GateSaving? ==> CopyOk(p, TaskEffect(s, i, act).phase.blob, s.approvals)
  {
    WithStepKeepsCopy(p, s.plan, s.approvals, i, WaitingApproval, s.plan.status);
    assert s.plan.WithStep(i, WaitingApproval).(status := s.plan.status) == s.plan.WithStep(i, WaitingApproval);
  }

  lemma TaskKeepsGated(p: Plan, s: State, i: nat, act: Act)
    requires Gated(p, s) && TaskEnabled(s, i, act)
    ensures Gated(p, Apply(s, Task(i, act)))
  {
    TaskKeepsInv(s, i, act);
    TaskLocal(p, s, i, act);
    TaskKeepsBlobs(p, s, i, act);
    var ef := TaskEffect(s, i, act);
    WithStepKeepsCopy(p, s.plan, s.approvals, i, ef.status, ef.planStatus);
    GateKnown(p, s.plan, i);
    CommitKeepsGated(p, s, i, ef, if act.GateLand? then Some(s.phases[i].blob) else s.stored);
  }

  lemma CommitKeepsGated(p: Plan, s: State, i: nat, ef: Effect, stored: Option<Plan>)
    requires Gated(p, s) && i < |s.phases| && Inv(Commit(s, i, ef).(stored := stored))
    requires CopyOk(p, Commit(s, i, ef).plan, s.approvals) && (stored.Some? ==> CopyOk(p, stored.value, s.approvals))
    requires ef.status.Succeeded? && HandlerFor(p.steps[i].action).Human? ==> s.approvals != {}
    requires ef.phase == Answered(true) ==> s.approvals != {}
    requires ef.phase.Handling? ==> HandlerFor(p.steps[i].action).Service?
    requires ef.phase.GateSaving? ==> CopyOk(p, ef.phase.blob, s.approvals)
    ensures Gated(p, Commit(s, i, ef).(stored := stored))
  {
    GateKnown(p, s.plan, i);
  }

  lemma ApproveKeepsCopy(p: Plan, copy: Plan, approvals: set<nat>)
    requires CopyOk(p, copy, approvals)
    ensures CopyOk(p, ApproveCopy(copy), approvals + WaitingGates(copy))
    ensures forall i :: i in WaitingGates(copy) ==> i < |p.steps| && p.steps[i].isApprovalGate
  {
    var after := ApproveCopy(copy);
    forall i | 0 <= i < |copy.steps| ensures p.steps[i].SameStep(after.steps[i]) {
      GateKnown(p, copy, i);
    }
    forall i | i in WaitingGates(copy) ensures i < |p.steps| && p.steps[i].isApprovalGate {
      GateKnown(p, copy, i);
    }
    if SomeGateSucceeded(after) {
      var i :| 0 <= i < |after.steps| && after.steps[i].isApprovalGate && after.steps[i].status.Succeeded?;
      if copy.steps[i].status.Succeeded? {
        assert SomeGateSucceeded(copy);
      } else {
        assert i in WaitingGates(copy);
      }
    }
  }

  lemma LoopTopKeepsGated(p: Plan, s: State)
    requires Gated(p, s) && BatchDone(s.phases)
    ensures Gated(p, LoopTop(s))
  {
    LoopTopKeepsInv(s);
    ShapeTransitive(p, s.plan, LoopTop(s).plan);
    assert s.plan.steps == LoopTop(s).plan.steps;
    assert SomeGateSucceeded(s.plan) == SomeGateSucceeded(LoopTop(s).plan);
  }

  lemma ApplyKeepsGated(p: Plan, s: State, e: Event)
    requires Gated(p, s) && Enabled(s, e)
    ensures Gated(p, Apply(s, e)) && s.approvals <= Apply(s, e).approvals
  {
    ApplyKeepsInv(s, e);
    match e
    case Task(i, act) => TaskKeepsGated(p, s, i, act);
    case MainSave => MainSaveKeepsGated(p, s);
    case OpApprove => ApproveKeepsGated(p, s);
    case OpDelete =>
      assert SomeGateSucceeded(DeleteCopy(s.stored.value)) == SomeGateSucceeded(s.stored.value);
    case _ =>
  }

  lemma MainSaveKeepsGated(p: Plan, s: State)
    requires Gated(p, s) && Enabled(s, MainSave)
    ensures Gated(p, Apply(s, MainSave)) && s.approvals <= Apply(s, MainSave).approvals
  {
    ApplyKeepsInv(s, MainSave);
    var s' := s.(stored := Some(s.plan));
    assert Gated(p, s');
    if s.control.Saving? { LoopTopKeepsGated(p, s'); }
  }

  lemma ApproveKeepsGated(p: Plan, s: State)
    requires Gated(p, s) && Enabled(s, OpApprove)
    ensures Gated(p, Apply(s, OpApprove)) && s.approvals <= Apply(s, OpApprove).approvals
  {
    ApplyKeepsInv(s, OpApprove);
    ApproveKeepsCopy(p, s.stored.value, s.approvals);
  }

  lemma {:induction false} RunKeepsGated(p: Plan, s: State, es: seq<Event>)
    requires Gated(p, s) && Legal(s, es)
    ensures Gated(p, After(s, es)) && s.approvals <= After(s, es).approvals
    decreases |es|
  {
    if es != [] {
      ApplyKeepsGated(p, s, es[0]);
      RunKeepsGated(p, Apply(s, es[0]), es[1..]);
    }
  }

  lemma InitGated(p: Plan, stored: Option<Plan>)
    requires p.AllPending() && HumanGates(p) && (stored == None || stored == Some(p))
    ensures Gated(p, Init(p, stored))
  {
    InitInv(p, stored);
    assert !SomeGateSucceeded(p) && !SomeGateSucceeded(Init(p, stored).plan);
  }

  /** In a plan none of whose gates is handled by a service, a step handled by the human handler
      succeeds only after an approve call found some gate of the plan stored as waiting; in
      particular never in a plan without gates. */
  lemma HumanStepNeedsApproval(p: Plan, stored: Option<Plan>, es: seq<Event>, i: nat)
    requires p.AllPending() && HumanGates(p) && (stored == None || stored == Some(p))
    requires Legal(Init(p, stored), es) && i < |p.steps| && HandlerFor(p.steps[i].action).Human?
    ensures var s := After(Init(p, stored), es);
      && |s.plan.steps| == |p.steps|
      && (s.plan.steps[i].status.Succeeded? ==>
            exists g :: g in s.approvals && g < |p.steps| && p.steps[g].isApprovalGate)
  {
    InitGated(p, stored);
    RunKeepsGated(p, Init(p, stored), es);
    var s := After(Init(p, stored), es);
    if s.plan.steps[i].status.Succeeded? {
      var g :| g in s.approvals;
    }
  }

  /** The template of plan_templates.yaml for handing over to a human: its one step is named
      in approval_gates but is not marked as a gate. */
  function EscalationPlan(planId: string): Plan {
    Plan(planId, [PlanStep("s1", "human_handoff", [], 1800, Continue, false, StepStatus.Pending)],
      [Criterion(EventReceived, ["action_approved", "OR", "action_rejected"])], PlanStatus.Created)
  }

  /** So no sequence of operator calls can let that plan succeed. */
  lemma EscalationNeverSucceeds(planId: string, es: seq<Event>)
    requires Legal(Init(EscalationPlan(planId), Some(EscalationPlan(planId))), es)
    ensures var s := After(Init(EscalationPlan(planId), Some(EscalationPlan(planId))), es);
      && |s.plan.steps| == 1 && !s.plan.steps[0].status.Succeeded?
  {
    var p := EscalationPlan(planId);
    HumanStepNeedsApproval(p, Some(p), es, 0);
  }

  // ----- rule-based plans --------------------------------------------------

  function RulePlan(planId: string, action: string): Plan {
    Generator.SingleStepPlan(planId, action, true)
  }

  /** s1 of a rule-based plan starts only if an approve call read the stored plan while s0
      was stored as waiting. */
  lemma MainStepNeedsApproval(planId: string, action: string, stored: Option<Plan>, es: seq<Event>)
    requires stored == None || stored == Some(RulePlan(planId, action))
    requires Legal(Init(RulePlan(planId, action), stored), es)
    ensures var s := After(Init(RulePlan(planId, action), stored), es);
      && |s.plan.steps| == 3 && (!s.plan.steps[1].status.Pending? ==> 0 in s.approvals)
  {
    var p := RulePlan(planId, action);
    InitGated(p, stored);
    RunKeepsGated(p, Init(p, stored), es);
    StartedHasDependencies(p, stored, es, 1);
    var s := After(Init(p, stored), es);
    if !s.plan.steps[1].status.Pending? {
      assert "s0" in p.steps[1].dependsOn;
      GateSucceededNeedsApproval(planId, action, s);
    }
  }

  lemma GateSucceededNeedsApproval(planId: string, action: string, s: State)
    requires Gated(RulePlan(planId, action), s) && s.plan.SucceededId("s0")
    ensures 0 in s.approvals
  {
    var p := RulePlan(planId, action);
    var j :| 0 <= j < |s.plan.steps| && s.plan.steps[j].status.Succeeded? && s.plan.steps[j].stepId == "s0";
    GateKnown(p, s.plan, j);
    assert j == 0 && s.plan.steps[0].isApprovalGate;
    assert SomeGateSucceeded(s.plan);
    var g :| g in s.approvals;
    assert g == 0;
  }

  /** What an unapproved rule-based plan goes through. */
  ghost predicate Unapproved(p: Plan, s: State) {
    && |s.phases| == 3 && s.phases[1].Idle? && s.phases[2].Idle?
    && (s.phases[0].Idle? ==> (s.control.Saving? || s.control.Crashed?) && s.plan.status.Running?)
    && (s.phases[0].Closing? || s.phases[0].Done? ==> s.plan.status.Aborted?)
    && !s.control.FinalSaving?
  }

  lemma LoopTopKeepsUnapproved(p: Plan, s: State)
    requires Gated(p, s) && s.approvals == {} && Unapproved(p, s) && s.control.Saving?
    requires exists planId, action :: p == RulePlan(planId, action)
    ensures Unapproved(p, LoopTop(s))
  {
    ReadyStepsSpec(s.plan);
    GateKnown(p, s.plan, 0);
    GateKnown(p, s.plan, 1);
    GateKnown(p, s.plan, 2);
    if s.phases[0].Idle? {
      assert PhaseOk(s.plan.steps[0], s.phases[0]) && s.plan.Ready(0);
      assert 0 in s.plan.ReadySteps();
      assert !s.plan.steps[0].status.Succeeded? && !s.plan.steps[1].status.Succeeded? by {
        assert PhaseOk(s.plan.steps[1], s.phases[1]) && PhaseOk(s.plan.steps[0], s.phases[0]);
      }
      assert "s0" in s.plan.steps[1].dependsOn && !s.plan.SucceededId("s0");
      assert "s1" in s.plan.steps[2].dependsOn && !s.plan.SucceededId("s1");
      assert !s.plan.Ready(1) && !s.plan.Ready(2);
    }
  }

  lemma TaskKeepsUnapproved(p: Plan, s: State, i: nat, act: Act)
    requires Gated(p, s) && TaskEnabled(s, i, act) && s.approvals == {} && Unapproved(p, s)
    requires exists planId, action :: p == RulePlan(planId, action)
    ensures Unapproved(p, Apply(s, Task(i, act)))
  {
    assert !s.phases[i].Idle?;
    GateKnown(p, s.plan, 0);
    assert s.plan.steps[0].onFailure == Abort && s.plan.steps[0].isApprovalGate;
    TaskLocal(p, s, 0, act);
    EffectOk(s, 0, act);
    assert !TaskEffect(s, 0, act).status.Succeeded?;
  }

  lemma ApplyKeepsUnapproved(p: Plan, s: State, e: Event)
    requires Gated(p, s) && Enabled(s, e) && Apply(s, e).approvals == {} && Unapproved(p, s)
    requires exists planId, action :: p == RulePlan(planId, action)
    ensures Unapproved(p, Apply(s, e))
  {
    match e
    case Task(i, act) => TaskKeepsUnapproved(p, s, i, act);
    case MainSave =>
      if s.control.Saving? { LoopTopKeepsUnapproved(p, s.(stored := Some(s.plan))); }
    case _ =>
  }

  lemma {:induction false} RunKeepsUnapproved(p: Plan, s: State, es: seq<Event>)
    requires Gated(p, s) && Legal(s, es) && After(s, es).approvals == {} && Unapproved(p, s)
    requires exists planId, action :: p == RulePlan(planId, action)
    ensures Unapproved(p, After(s, es))
    decreases |es|
  {
    if es != [] {
      ApplyKeepsGated(p, s, es[0]);
      RunKeepsGated(p, Apply(s, es[0]), es[1..]);
      ApplyKeepsUnapproved(p, s, es[0]);
      RunKeepsUnapproved(p, Apply(s, es[0]), es[1..]);
    }
  }

  lemma RuleMeasure(planId: string, action: string, stored: Option<Plan>)
    ensures Measure(Init(RulePlan(planId, action), stored)) == 257
  {
    assert Weights(Init(RulePlan(planId, action), stored)) == [200, 32, 22];
    assert Sum([200, 32, 22]) == 200 + Sum([32, 22]);
    assert Sum([32, 22]) == 32 + Sum([22]);
    assert Sum([22]) == 22 + Sum([]);
  }

  /** Without an approval the runner takes at most 257 steps, and if `execute` returns the plan
      is ABORTED with s1 and s2 still pending; so it has then polled itself out. */
  lemma UnapprovedPlanAborts(planId: string, action: string, stored: Option<Plan>, es: seq<Event>)
    requires stored == None || stored == Some(RulePlan(planId, action))
    requires Legal(Init(RulePlan(planId, action), stored), es)
    requires After(Init(RulePlan(planId, action), stored), es).approvals == {}
    ensures var s := After(Init(RulePlan(planId, action), stored), es);
      && RunnerEvents(es) <= 257
      && |s.plan.steps| == 3 && s.plan.steps[1].status.Pending? && s.plan.steps[2].status.Pending?
      && (s.control.Returned? ==> s.plan.status.Aborted? && s.plan.steps[0].status.Failed?)
  {
    var p := RulePlan(planId, action);
    var s0 := Init(p, stored);
    InitGated(p, stored);
    RunKeepsGated(p, s0, es);
    RunKeepsUnapproved(p, s0, es);
    RunnerEventsBounded(s0, es);
    RuleMeasure(planId, action, stored);
    var s := After(s0, es);
    assert PhaseOk(s.plan.steps[0], s.phases[0]) && PhaseOk(s.plan.steps[1], s.phases[1])
      && PhaseOk(s.plan.steps[2], s.phases[2]);
    GateKnown(p, s.plan, 0);
    assert s.plan.steps[0].status.Succeeded? ==> SomeGateSucceeded(s.plan);
  }
}
