/** The plan execution protocol as a transition system.

    One event is one piece of code that runs without interruption: a segment of
    `PlanRunner.execute` or of one `_run_step` coroutine between two `await`s, or one
    half (read, write) of an operator request.  A run is any sequence of enabled
    events, so a statement about all runs covers every interleaving. */
module Protocol {
  import opened Wrappers
  import opened PlanSchema

  // ----- handlers ---------------------------------------------------------

  datatype HandlerKind = NoHandler | Human | Service

  /** The action table (execution/action_registry.py:21-34). */
  function HandlerFor(action: string): HandlerKind {
    if action in {"human_handoff", "escalate_to_human"} then Human
    else if action in {"scale_consumer_group", "restart_connection_pool", "kill_slow_query",
                       "scale_read_replicas", "scale_service_horizontal", "enable_circuit_breaker",
                       "restart_service", "send_alert", "increase_log_verbosity", "monitor_and_wait"} then Service
    else NoHandler
  }

  const POLL_INTERVAL_S := 10

  datatype Verdict = Approved | Rejected | Undecided

  /** What one poll concludes from the stored plan: the first gate, in step order, that
      has succeeded or failed decides. */
  function GateVerdict(steps: seq<PlanStep>): Verdict {
    if steps == [] then Undecided
    else if steps[0].isApprovalGate && steps[0].status.Succeeded? then Approved
    else if steps[0].isApprovalGate && steps[0].status.Failed? then Rejected
    else GateVerdict(steps[1..])
  }

  // ----- states -----------------------------------------------------------

  /** Where the coroutine of one step is suspended. */
  datatype Phase =
    | Idle                                      // no coroutine yet
    | NotStarted                                // created by gather, not run yet
    | GateSaving(blob: Plan, landed: bool)      // awaiting the store write of a gate
    | Handling                                  // awaiting a service handler
    | Polling(elapsed: nat)                     // human handler, between two polls
    | Answered(approved: bool)                  // human handler has its answer
    | Reporting                                 // awaiting the step event
    | Checking                                  // awaiting the success criteria
    | Closing                                   // awaiting the plan event or rollback events
    | Done
    | Raised                                    // an unguarded await raised

  /** Where `execute` is suspended. */
  datatype Control = Saving | InBatch | FinalSaving | Returned | Crashed

  datatype State = State(
    plan: Plan,                    // the runner's plan object
    control: Control,
    phases: seq<Phase>,            // one per step
    stored: Option<Plan>,          // the copy in the plan store
    requests: seq<Plan>,           // operator requests that have read and not yet written
    approvals: set<nat>,           // gates an approve call found stored as waiting
    calls: seq<nat>,               // handler invocations so far, in order
    rounds: seq<seq<nat>>)         // batches started so far

  // ----- events -----------------------------------------------------------

  datatype Act =
    | Begin                        // the coroutine starts
    | GateLand                     // the gate's save reaches the store
    | GateResume                   // the coroutine continues after that save
    | HandlerReturn                // the handler reports success
    | HandlerFail                  // the handler fails, raises or times out
    | Poll(reachable: bool)        // one poll of the stored plan
    | Report                       // the step event has been sent
    | Criteria(fires: bool)        // the success criteria have been read
    | Close                        // the plan or rollback events have been sent
    | Throw                        // a store or event write raises

  datatype Event =
    | Task(i: nat, act: Act)
    | MainSave                     // the save of `execute` lands and the loop goes on
    | MainThrow                    // that save raises
    | BatchEnd                     // gather returns
    | OpApprove | OpDelete         // an operator request reads the stored plan
    | OpWrite(j: nat)              // an operator request writes it back

  /** What one segment of a coroutine writes: its step's status, the shared plan status,
      its next suspension point, and whether it invoked a handler. */
  datatype Effect = Effect(status: StepStatus, planStatus: PlanStatus, phase: Phase, called: bool)

  /** `registry.get` and the call of the handler (execution/runner.py:66-89). */
  function Dispatch(step: PlanStep, st: StepStatus, ps: PlanStatus): Effect {
    match HandlerFor(step.action)
    case NoHandler => Effect(StepStatus.Failed, ps, Reporting, false)
    case Human => Effect(st, ps, Polling(0), true)
    case Service => Effect(st, ps, Handling, true)
  }

  predicate TaskEnabled(s: State, i: nat, act: Act) {
    && s.control.InBatch? && i < |s.plan.steps| && i < |s.phases|
    && var ph := s.phases[i];
       match act
       case Begin => ph.NotStarted?
       case GateLand => ph.GateSaving? && !ph.landed
       case GateResume => ph.GateSaving? && ph.landed
       case HandlerReturn => ph.Handling? || ph == Answered(true)
       case HandlerFail => ph.Handling? || ph.Polling? || ph.Answered?
       case Poll(_) => ph.Polling? && ph.elapsed < s.plan.steps[i].timeoutS
       case Report => ph.Reporting?
       case Criteria(fires) => ph.Checking? && (fires ==> s.plan.Fires())
       case Close => ph.Closing?
       case Throw => ph.GateSaving? || ph.Reporting? || ph.Closing?
  }

  /** The segments of `_run_step`, `on_step_completed` and the human handler. */
  function TaskEffect(s: State, i: nat, act: Act): Effect
    requires TaskEnabled(s, i, act)
  {
    var step := s.plan.steps[i];
    var ph := s.phases[i];
    var st := step.status;
    var ps := s.plan.status;
    match act
    case Begin =>
      if step.isApprovalGate then
        Effect(WaitingApproval, ps, GateSaving(s.plan.WithStep(i, WaitingApproval), false), false)
      else
        Dispatch(step, StepStatus.Running, ps)
    case GateLand => Effect(st, ps, ph.(landed := true), false)
    case GateResume => Dispatch(step, st, AwaitingApproval)
    case HandlerReturn =>
      Effect(StepStatus.Succeeded, if step.isApprovalGate then PlanStatus.Running else ps, Reporting, false)
    case HandlerFail => Effect(StepStatus.Failed, ps, Reporting, false)
    case Poll(reachable) =>
      if reachable && s.stored.Some? && !GateVerdict(s.stored.value.steps).Undecided? then
        Effect(st, ps, Answered(GateVerdict(s.stored.value.steps).Approved?), false)
      else
        Effect(st, ps, Polling(ph.elapsed + POLL_INTERVAL_S), false)
    case Report =>
      if st.Failed? then
        match step.onFailure {
          case Rollback => Effect(st, RolledBack, Closing, false)
          case Abort => Effect(st, Aborted, Closing, false)
          case Continue => Effect(st, ps, Done, false)
        }
      else Effect(st, ps, Checking, false)
    case Criteria(fires) =>
      if fires then Effect(st, PlanStatus.Succeeded, Closing, false) else Effect(st, ps, Done, false)
    case Close => Effect(st, ps, Done, false)
    case Throw => Effect(st, ps, Raised, false)
  }

  function Commit(s: State, i: nat, ef: Effect): State
    requires i < |s.plan.steps| && i < |s.phases|
  {
    s.(plan := s.plan.WithStep(i, ef.status).(status := ef.planStatus),
       phases := s.phases[i := ef.phase],
       calls := if ef.called then s.calls + [i] else s.calls)
  }

  predicate BatchDone(phases: seq<Phase>) {
    forall i :: 0 <= i < |phases| ==> phases[i].Idle? || phases[i].Done?
  }

  /** One evaluation of the loop condition of `execute` and what follows it. */
  function LoopTop(s: State): State {
    var ready := s.plan.ReadySteps();
    if !s.plan.IsComplete() && s.plan.status.Running? && ready != [] then
      s.(control := InBatch,
         phases := seq(|s.phases|, i requires 0 <= i < |s.phases| => if i in ready then NotStarted else s.phases[i]),
         rounds := s.rounds + [ready])
    else if s.plan.status.Running? && s.plan.IsComplete() then
      s.(control := FinalSaving, plan := s.plan.(status := PlanStatus.Succeeded))
    else
      s.(control := Returned)
  }

  /** `approve_plan` and `delete_plan` on the copy they have read (planning/api.py:78-108). */
  function ApproveCopy(p: Plan): Plan {
    p.(steps := seq(|p.steps|, i requires 0 <= i < |p.steps| =>
         if p.steps[i].isApprovalGate && p.steps[i].status.WaitingApproval?
         then p.steps[i].(status := StepStatus.Succeeded) else p.steps[i]),
       status := if p.status.AwaitingApproval? then PlanStatus.Running else p.status)
  }

  function DeleteCopy(p: Plan): Plan {
    p.(status := Aborted)
  }

  function WaitingGates(p: Plan): set<nat> {
    set i | 0 <= i < |p.steps| && p.steps[i].isApprovalGate && p.steps[i].status.WaitingApproval?
  }

  predicate Enabled(s: State, e: Event) {
    match e
    case Task(i, act) => TaskEnabled(s, i, act)
    case MainSave => s.control.Saving? || s.control.FinalSaving?
    case MainThrow => s.control.Saving? || s.control.FinalSaving?
    case BatchEnd => s.control.InBatch? && BatchDone(s.phases)
    case OpApprove => s.stored.Some?
    case OpDelete => s.stored.Some?
    case OpWrite(j) => j < |s.requests|
  }

  function Apply(s: State, e: Event): State
    requires Enabled(s, e)
  {
    match e
    case Task(i, act) =>
      var s' := Commit(s, i, TaskEffect(s, i, act));
      if act.GateLand? then s'.(stored := Some(s.phases[i].blob)) else s'
    case MainSave =>
      var s' := s.(stored := Some(s.plan));
      if s.control.Saving? then LoopTop(s') else s'.(control := Returned)
    case MainThrow => s.(control := Crashed)
    case BatchEnd => s.(control := Saving)
    case OpApprove =>
      s.(requests := s.requests + [ApproveCopy(s.stored.value)],
         approvals := s.approvals + WaitingGates(s.stored.value))
    case OpDelete => s.(requests := s.requests + [DeleteCopy(s.stored.value)])
    case OpWrite(j) =>
      s.(stored := Some(s.requests[j]), requests := s.requests[..j] + s.requests[j + 1..])
  }

  // ----- runs -------------------------------------------------------------

  /** `execute` has set the plan to RUNNING and awaits its first save. */
  function Init(p: Plan, stored: Option<Plan>): State {
    State(p.(status := PlanStatus.Running), Saving, seq(|p.steps|, _ => Idle), stored, [], {}, [], [])
  }

  predicate Legal(s: State, es: seq<Event>)
    decreases |es|
  {
    es == [] || (Enabled(s, es[0]) && Legal(Apply(s, es[0]), es[1..]))
  }

  function After(s: State, es: seq<Event>): State
    requires Legal(s, es)
    decreases |es|
  {
    if es == [] then s else After(Apply(s, es[0]), es[1..])
  }

  /** A run may be extended at its end. */
  lemma {:induction false} Extend(s: State, es: seq<Event>, e: Event)
    requires Legal(s, es) && Enabled(After(s, es), e)
    ensures Legal(s, es + [e]) && After(s, es + [e]) == Apply(After(s, es), e)
    decreases |es|
  {
    if es == [] {
      assert [e][1..] == [];
      assert After(Apply(s, e), []) == Apply(s, e);
    } else {
      Extend(Apply(s, es[0]), es[1..], e);
      assert (es + [e])[1..] == es[1..] + [e];
    }
  }

  /** Runs compose. */
  lemma {:induction false} Compose(s: State, es: seq<Event>, more: seq<Event>)
    requires Legal(s, es) && Legal(After(s, es), more)
    ensures Legal(s, es + more) && After(s, es + more) == After(After(s, es), more)
    decreases |es|
  {
    if es == [] {
      assert es + more == more;
    } else {
      Compose(Apply(s, es[0]), es[1..], more);
      assert (es + more)[1..] == es[1..] + more;
    }
  }
}
