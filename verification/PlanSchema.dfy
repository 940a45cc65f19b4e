/** The plan object of planning/schema.py: steps with dependencies, and the two
    comprehensions the runner reads, `ready_steps` and `is_complete`. */
module PlanSchema {
  import opened Wrappers

  datatype StepStatus = Pending | Running | Succeeded | Failed | Skipped | WaitingApproval

  datatype PlanStatus = Created | Running | Succeeded | Failed | RolledBack | AwaitingApproval | Aborted

  datatype OnFailure = Rollback | Continue | Abort

  datatype CriterionKind = WorldModelQuery | EventReceived | MetricThreshold

  /** `words` is the criterion's check string split on white space. */
  datatype Criterion = Criterion(kind: CriterionKind, words: seq<string>) {
    /** Only these criteria can ever be reported as met (planning/monitor.py:53-71). */
    predicate CanFire() {
      kind.WorldModelQuery? && "resolved" in words
    }
  }

  datatype PlanStep = PlanStep(
    stepId: string,
    action: string,
    dependsOn: seq<string>,
    timeoutS: int,
    onFailure: OnFailure,
    isApprovalGate: bool,
    status: StepStatus)
  {
    /** A failure of this step stops the plan. */
    predicate Fatal() {
      onFailure != Continue
    }

    /** Equal up to the status, the only field the runner changes. */
    predicate SameStep(other: PlanStep) {
      this == other.(status := status)
    }
  }

  datatype Plan = Plan(
    planId: string,
    steps: seq<PlanStep>,
    criteria: seq<Criterion>,
    status: PlanStatus)
  {
    predicate SucceededId(id: string) {
      exists j :: 0 <= j < |steps| && steps[j].status.Succeeded? && steps[j].stepId == id
    }

    predicate DepsSucceeded(i: nat)
      requires i < |steps|
    {
      forall d :: d in steps[i].dependsOn ==> SucceededId(d)
    }

    predicate Ready(i: nat)
      requires i < |steps|
    {
      steps[i].status.Pending? && DepsSucceeded(i)
    }

    /** `ready_steps`: positions of the ready steps, in plan order. */
    function ReadySteps(): seq<nat> {
      Select(seq(|steps|, i requires 0 <= i < |steps| => Ready(i)))
    }

    predicate IsComplete() {
      forall i :: 0 <= i < |steps| ==> steps[i].status.Succeeded? || steps[i].status.Skipped?
    }

    function WithStep(i: nat, st: StepStatus): Plan
      requires i < |steps|
    {
      this.(steps := steps[i := steps[i].(status := st)])
    }

    predicate SameShape(other: Plan) {
      && planId == other.planId && criteria == other.criteria && |steps| == |other.steps|
      && forall i :: 0 <= i < |steps| ==> steps[i].SameStep(other.steps[i])
    }

    predicate AllPending() {
      forall i :: 0 <= i < |steps| ==> steps[i].status.Pending?
    }

    predicate Fires() {
      exists c :: c in criteria && c.CanFire()
    }
  }

  /** Positions holding `true`, in increasing order. */
  function Select(bs: seq<bool>): seq<nat> {
    if bs == [] then []
    else
      var front := Select(bs[..|bs| - 1]);
      if bs[|bs| - 1] then front + [|bs| - 1] else front
  }

  lemma {:induction false} SelectSpec(bs: seq<bool>)
    ensures forall i :: i in Select(bs) <==> 0 <= i < |bs| && bs[i]
    ensures forall x, y :: 0 <= x < y < |Select(bs)| ==> Select(bs)[x] < Select(bs)[y]
  {
    if bs != [] {
      SelectSpec(bs[..|bs| - 1]);
      var front := Select(bs[..|bs| - 1]);
      forall i
        ensures i in Select(bs) <==> 0 <= i < |bs| && bs[i]
      {
        assert i in front <==> 0 <= i < |bs| - 1 && bs[i];
      }
      forall x, y | 0 <= x < y < |Select(bs)|
        ensures Select(bs)[x] < Select(bs)[y]
      {
        if y == |front| { assert front[x] in front; }
      }
    }
  }

  /** `ready_steps` is exactly the set of ready positions, without repetition. */
  lemma ReadyStepsSpec(p: Plan)
    ensures forall i :: i in p.ReadySteps() <==> 0 <= i < |p.steps| && p.Ready(i)
    ensures NoDup(p.ReadySteps())
  {
    var bs := seq(|p.steps|, i requires 0 <= i < |p.steps| => p.Ready(i));
    SelectSpec(bs);
  }

  /** In plan order, and in so many words: a step is listed exactly if it is pending and each id it
      depends on is that of some succeeded step. */
  lemma ReadyIff(p: Plan, i: nat)
    ensures i in p.ReadySteps() <==>
      && i < |p.steps| && p.steps[i].status == Pending
      && forall d :: d in p.steps[i].dependsOn ==>
           exists j :: 0 <= j < |p.steps| && p.steps[j].stepId == d && p.steps[j].status == StepStatus.Succeeded
    ensures forall x, y :: 0 <= x < y < |p.ReadySteps()| ==> p.ReadySteps()[x] < p.ReadySteps()[y]
  {
    SelectSpec(seq(|p.steps|, k requires 0 <= k < |p.steps| => p.Ready(k)));
    if i < |p.steps| {
      forall d ensures p.SucceededId(d) <==>
        exists j :: 0 <= j < |p.steps| && p.steps[j].stepId == d && p.steps[j].status == StepStatus.Succeeded
      {
      }
    }
  }
}
