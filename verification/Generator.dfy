/** Plans produced without a template (planning/generator.py:100-141). */
module Generator {
  import opened PlanSchema

  function Gate(): PlanStep {
    PlanStep("s0", "human_handoff", [], 1800, Abort, true, StepStatus.Pending)
  }

  function MainStep(action: string, approval: bool): PlanStep {
    PlanStep("s1", action, if approval then ["s0"] else [], 120, Rollback, false, StepStatus.Pending)
  }

  function Notify(): PlanStep {
    PlanStep("s2", "send_alert", ["s1"], 15, Continue, false, StepStatus.Pending)
  }

  /** `_single_step_plan`: an optional approval gate, the action, a notification. */
  function SingleStepPlan(planId: string, action: string, approval: bool): Plan {
    Plan(planId,
      (if approval then [Gate()] else []) + [MainStep(action, approval), Notify()],
      [Criterion(EventReceived, ["action_completed"])],
      PlanStatus.Created)
  }
}
