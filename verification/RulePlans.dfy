/** How plans made without a template end (planning/generator.py:100-141): an optional gate, the
    action, and a notification, one after the other. */
module RulePlans {
  import opened Wrappers
  import opened PlanSchema
  import opened Protocol
  import opened DependencySafety
  import Generator

  /** Position of the action's step; the gate, if any, is before it and the notification after it. */
  function Main(approval: bool): nat {
    if approval then 1 else 0
  }

  predicate Over(ph: Phase) {
    ph.Closing? || ph.Done?
  }

  predicate FailedAt(s: State, k: nat)
    requires k < |s.phases| == |s.plan.steps|
  {
    Over(s.phases[k]) && s.plan.steps[k].status.Failed?
  }

  /** The gate is stored as waiting and has not been decided. */
  predicate GateOpen(s: State, approval: bool)
    requires |s.phases| == |s.plan.steps| == Main(approval) + 2
  {
    && approval
    && var ph := s.phases[0];
       ph.Handling? || ph.Polling? || ph.Answered? || (ph.Reporting? && s.plan.steps[0].status.Failed?)
  }

  /** The status of the plan before it is complete. */
  function Expected(s: State, approval: bool): PlanStatus
    requires |s.phases| == |s.plan.steps| == Main(approval) + 2
  {
    if approval && FailedAt(s, 0) then Aborted
    else if GateOpen(s, approval) then AwaitingApproval
    else if FailedAt(s, Main(approval)) then RolledBack
    else PlanStatus.Running
  }

  /** What matters here about such a plan, whatever its statuses. */
  ghost predicate RuleShaped(p: Plan, approval: bool) {
    var m := Main(approval);
    && |p.steps| == m + 2 && !p.Fires()
    && p.steps[m].stepId == "s1" && p.steps[m + 1].stepId == "s2"
    && p.steps[m].onFailure == Rollback && p.steps[m + 1].onFailure == Continue
    && !p.steps[m].isApprovalGate && !p.steps[m + 1].isApprovalGate
    && p.steps[m].dependsOn == (if approval then ["s0"] else []) && p.steps[m + 1].dependsOn == ["s1"]
    && (approval ==> p.steps[0].stepId == "s0" && p.steps[0].dependsOn == [] && p.steps[0].onFailure == Abort
                     && p.steps[0].isApprovalGate)
  }

  lemma StaysShaped(p: Plan, q: Plan, approval: bool)
    requires RuleShaped(p, approval) && p.SameShape(q)
    ensures RuleShaped(q, approval)
  {
    forall k | 0 <= k < |p.steps| ensures p.steps[k].SameStep(q.steps[k]) {}
  }

  ghost predicate Orderly(s: State, approval: bool) {
    && Inv(s) && RuleShaped(s.plan, approval)
    && (forall k :: 0 < k < |s.phases| && !s.phases[k].Idle? ==>
          s.phases[k - 1].Done? && s.plan.steps[k - 1].status.Succeeded?)
    && (forall k :: 0 <= k < |s.phases| && s.phases[k].Closing? ==> s.plan.steps[k].status.Failed?)
  }

  ghost predicate Complete(p: Plan) {
    p.status == PlanStatus.Succeeded && forall i :: 0 <= i < |p.steps| ==> p.steps[i].status.Succeeded?
  }

  ghost predicate SomeRaised(s: State) {
    exists k :: 0 <= k < |s.phases| && s.phases[k].Raised?
  }

  ghost predicate StuckOn(p: Plan) {
    p.status.Running? ==> p.ReadySteps() == [] && !p.IsComplete()
  }

  ghost predicate Tidy(s: State, approval: bool) {
    && Orderly(s, approval)
    && (s.control.FinalSaving? ==> Complete(s.plan))
    && (s.control.Returned? ==> Complete(s.plan) || (s.plan.status == Expected(s, approval) && StuckOn(s.plan)))
    && (s.control.Saving? || s.control.InBatch? ==> SomeRaised(s) || s.plan.status == Expected(s, approval))
  }

  // ----- one segment --------------------------------------------------------------------------

  lemma TaskKeepsOrder(s: State, approval: bool, i: nat, act: Act)
    requires Orderly(s, approval) && TaskEnabled(s, i, act)
    ensures Orderly(Apply(s, Task(i, act)), approval)
  {
    var t := Apply(s, Task(i, act));
    TaskKeepsInv(s, i, act);
    StaysShaped(s.plan, t.plan, approval);
    ClosesFailed(s, approval, i, act);
    forall k | 0 < k < |t.phases| && !t.phases[k].Idle?
      ensures t.phases[k - 1].Done? && t.plan.steps[k - 1].status.Succeeded?
    {
      StaysBehind(s, approval, i, act, k);
    }
  }

  /** Only a recorded failure leads to a closing phase, since no criterion can fire. */
  lemma ClosesFailed(s: State, approval: bool, i: nat, act: Act)
    requires Orderly(s, approval) && TaskEnabled(s, i, act)
    ensures var t := Apply(s, Task(i, act));
      |t.phases| == |t.plan.steps| &&
      forall k :: 0 <= k < |t.phases| && t.phases[k].Closing? ==> t.plan.steps[k].status.Failed?
  {
  }

  lemma StaysBehind(s: State, approval: bool, i: nat, act: Act, k: nat)
    requires Orderly(s, approval) && TaskEnabled(s, i, act) && 0 < k < |s.phases|
    requires !Apply(s, Task(i, act)).phases[k].Idle?
    ensures var t := Apply(s, Task(i, act)); t.phases[k - 1].Done? && t.plan.steps[k - 1].status.Succeeded?
  {
    assert !s.phases[k].Idle?;
    assert k - 1 != i;
  }

  /** A step of the plan after one more segment. */
  ghost predicate Moved(s: State, i: nat, ef: Effect, t: State)
    requires i < |s.phases| == |s.plan.steps|
  {
    && |t.phases| == |s.phases| && |t.plan.steps| == |s.phases|
    && t.phases[i] == ef.phase && t.plan.steps[i].status == ef.status && t.plan.status == ef.planStatus
    && forall k :: 0 <= k < |s.phases| && k != i ==> t.phases[k] == s.phases[k] && t.plan.steps[k] == s.plan.steps[k]
  }

  lemma GateMoves(s: State, t: State, act: Act)
    requires Orderly(s, true) && TaskEnabled(s, 0, act) && !act.Throw? && Moved(s, 0, TaskEffect(s, 0, act), t)
    requires s.plan.status == Expected(s, true)
    ensures t.plan.status == Expected(t, true)
  {
    assert PhaseOk(s.plan.steps[0], s.phases[0]) && s.phases[1].Idle? && PhaseOk(s.plan.steps[1], s.phases[1]);
  }

  lemma MainMoves(s: State, t: State, approval: bool, act: Act)
    requires Orderly(s, approval) && TaskEnabled(s, Main(approval), act) && !act.Throw?
    requires Moved(s, Main(approval), TaskEffect(s, Main(approval), act), t) && s.plan.status == Expected(s, approval)
    ensures t.plan.status == Expected(t, approval)
  {
    assert PhaseOk(s.plan.steps[Main(approval)], s.phases[Main(approval)]);
  }

  lemma NotifyMoves(s: State, t: State, approval: bool, act: Act)
    requires Orderly(s, approval) && TaskEnabled(s, Main(approval) + 1, act) && !act.Throw?
    requires Moved(s, Main(approval) + 1, TaskEffect(s, Main(approval) + 1, act), t)
    requires s.plan.status == Expected(s, approval)
    ensures t.plan.status == Expected(t, approval)
  {
    assert PhaseOk(s.plan.steps[Main(approval) + 1], s.phases[Main(approval) + 1]);
  }

  lemma TaskKeepsTidy(s: State, approval: bool, i: nat, act: Act)
    requires Tidy(s, approval) && TaskEnabled(s, i, act)
    ensures Tidy(Apply(s, Task(i, act)), approval)
  {
    var t := Apply(s, Task(i, act));
    TaskKeepsOrder(s, approval, i, act);
    assert Moved(s, i, TaskEffect(s, i, act), t);
    if act.Throw? {
      assert t.phases[i].Raised?;
    } else if i == Main(approval) {
      MainMoves(s, t, approval, act);
    } else if i == Main(approval) + 1 {
      NotifyMoves(s, t, approval, act);
    } else {
      GateMoves(s, t, act);
    }
  }

  // ----- between batches ----------------------------------------------------------------------

  lemma StartsAfter(s: State, approval: bool, k: nat)
    requires Orderly(s, approval) && BatchDone(s.phases) && 0 < k < |s.phases| && k in s.plan.ReadySteps()
    ensures s.phases[k - 1].Done? && s.plan.steps[k - 1].status.Succeeded?
  {
    ReadyStepsSpec(s.plan);
    assert s.plan.Ready(k);
    var d := s.plan.steps[k - 1].stepId;
    assert d in s.plan.steps[k].dependsOn;
    assert s.plan.SucceededId(d);
    assert PhaseOk(s.plan.steps[k - 1], s.phases[k - 1]);
  }

  lemma SaveKeepsOrder(s: State, approval: bool)
    requires Orderly(s, approval) && Enabled(s, MainSave)
    ensures Orderly(Apply(s, MainSave), approval)
  {
    var t := Apply(s, MainSave);
    ApplyKeepsInv(s, MainSave);
    StaysShaped(s.plan, t.plan, approval);
    ReadyStepsSpec(s.plan);
    assert s.(stored := Some(s.plan)).plan == s.plan;
    forall k | 0 < k < |t.phases| && !t.phases[k].Idle?
      ensures t.phases[k - 1].Done? && t.plan.steps[k - 1].status.Succeeded?
    {
      if s.phases[k].Idle? { StartsAfter(s, approval, k); }
      assert k - 1 in s.plan.ReadySteps() <==> s.plan.Ready(k - 1);
    }
  }

  lemma SaveKeepsTidy(s: State, approval: bool)
    requires Tidy(s, approval) && Enabled(s, MainSave)
    ensures Tidy(Apply(s, MainSave), approval)
  {
    var t := Apply(s, MainSave);
    SaveKeepsOrder(s, approval);
    assert s.(stored := Some(s.plan)).plan == s.plan;
    if s.control.Saving? {
      SameExpected(s, approval);
      forall i | 0 <= i < |s.plan.steps| ensures !s.plan.steps[i].status.Skipped? {
        assert PhaseOk(s.plan.steps[i], s.phases[i]);
      }
    }
  }

  /** The loop condition decides nothing about what has happened so far. */
  lemma SameExpected(s: State, approval: bool)
    requires Orderly(s, approval) && s.control.Saving? && Orderly(Apply(s, MainSave), approval)
    ensures Expected(Apply(s, MainSave), approval) == Expected(s, approval) && !SomeRaised(s)
    ensures Apply(s, MainSave).plan.steps == s.plan.steps
  {
    ReadyStepsSpec(s.plan);
    assert s.(stored := Some(s.plan)).plan == s.plan;
    forall k | 0 <= k < |s.phases| && k in s.plan.ReadySteps() ensures s.phases[k].Idle? {
      assert s.plan.Ready(k) && PhaseOk(s.plan.steps[k], s.phases[k]);
    }
  }

  lemma ApplyKeepsTidy(s: State, approval: bool, e: Event)
    requires Tidy(s, approval) && Enabled(s, e)
    ensures Tidy(Apply(s, e), approval)
  {
    ApplyKeepsInv(s, e);
    match e
    case Task(i, act) => TaskKeepsTidy(s, approval, i, act);
    case MainSave => SaveKeepsTidy(s, approval);
    case _ =>
  }

  lemma {:induction false} RunKeepsTidy(s: State, approval: bool, es: seq<Event>)
    requires Tidy(s, approval) && Legal(s, es)
    ensures Tidy(After(s, es), approval)
    decreases |es|
  {
    if es != [] {
      ApplyKeepsTidy(s, approval, es[0]);
      RunKeepsTidy(Apply(s, es[0]), approval, es[1..]);
    }
  }

  // ----- at the end ---------------------------------------------------------------------------

  lemma EndsThus(s: State, approval: bool)
    requires Tidy(s, approval) && s.control.Returned?
    ensures var q, m := s.plan, Main(approval);
      && (Complete(q) || q.status == PlanStatus.Running || q.status == RolledBack || (approval && q.status == Aborted))
      && (q.status == PlanStatus.Running ==> q.steps[m].status.Succeeded? && q.steps[m + 1].status.Failed?)
      && (q.status == RolledBack ==> q.steps[m].status.Failed? && q.steps[m + 1].status.Pending?)
      && (q.status == Aborted ==>
           q.steps[0].status.Failed? && q.steps[m].status.Pending? && q.steps[m + 1].status.Pending?)
  {
    var q, m := s.plan, Main(approval);
    forall k | 0 <= k < |q.steps| ensures PhaseOk(q.steps[k], s.phases[k]) {}
    if q.status.Running? { StuckOnNotification(s, approval); }
  }

  lemma StuckOnNotification(s: State, approval: bool)
    requires Orderly(s, approval) && BatchDone(s.phases) && Expected(s, approval).Running?
    requires s.plan.ReadySteps() == [] && !s.plan.IsComplete()
    ensures var q, m := s.plan, Main(approval); q.steps[m].status.Succeeded? && q.steps[m + 1].status.Failed?
  {
    var q, m := s.plan, Main(approval);
    ReadyStepsSpec(q);
    forall k | 0 <= k < |q.steps| ensures PhaseOk(q.steps[k], s.phases[k]) && !q.Ready(k) {}
    if approval { assert q.DepsSucceeded(0); }
    if approval && q.steps[0].status.Succeeded? { assert q.SucceededId("s0"); }
    if q.steps[m].status.Succeeded? { assert q.SucceededId("s1"); }
  }

  /** What a rule-based plan looks like when `execute` returns, in every run: it succeeded as a whole;
      or the notification failed, and it is still RUNNING; or the action failed, it is ROLLED_BACK
      and no notification was sent; or the gate failed, it is ABORTED and nothing else ran. */
  lemma RulePlanEnds(planId: string, action: string, approval: bool, stored: Option<Plan>, es: seq<Event>)
    requires Legal(Init(Generator.SingleStepPlan(planId, action, approval), stored), es)
    requires After(Init(Generator.SingleStepPlan(planId, action, approval), stored), es).control.Returned?
    ensures var q := After(Init(Generator.SingleStepPlan(planId, action, approval), stored), es).plan;
      var m := if approval then 1 else 0;
      && |q.steps| == m + 2 && q.steps[m].action == action && q.steps[m + 1].action == "send_alert"
      && ((q.status == PlanStatus.Succeeded && forall i :: 0 <= i < |q.steps| ==> q.steps[i].status.Succeeded?)
          || (q.status == PlanStatus.Running && q.steps[m].status.Succeeded? && q.steps[m + 1].status.Failed?)
          || (q.status == RolledBack && q.steps[m].status.Failed? && q.steps[m + 1].status.Pending?)
          || (q.status == Aborted && approval && q.steps[0].status.Failed?
              && q.steps[m].status.Pending? && q.steps[m + 1].status.Pending?))
  {
    var p := Generator.SingleStepPlan(planId, action, approval);
    var s0 := Init(p, stored);
    InitInv(p, stored);
    assert RuleShaped(s0.plan, approval);
    assert Tidy(s0, approval);
    RunKeepsTidy(s0, approval, es);
    RunKeepsInv(s0, es);
    var s := After(s0, es);
    assert p.steps[Main(approval)].SameStep(s.plan.steps[Main(approval)]);
    assert p.steps[Main(approval) + 1].SameStep(s.plan.steps[Main(approval) + 1]);
    EndsThus(s, approval);
  }
}
