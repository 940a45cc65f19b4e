/** The runner as the program has it: an object whose fields the loop of `execute` and the
    segments of `_run_step` update in place.  Each segment is proved equal to its event of the
    transition system, and `Execute` to a run of it. */
module PlanRunner {
  import opened Wrappers
  import opened PlanSchema
  import opened Protocol

  /** The first decided gate of a plan: no gate before it has succeeded or failed. */
  ghost predicate FirstDecided(steps: seq<PlanStep>, g: nat) {
    && g < |steps| && steps[g].isApprovalGate && (steps[g].status.Succeeded? || steps[g].status.Failed?)
    && forall i :: 0 <= i < g && steps[i].isApprovalGate ==> !steps[i].status.Succeeded? && !steps[i].status.Failed?
  }

  /** The handler's scan of a polled plan (execution/handlers/human.py:35-40). */
  method ReadVerdict(steps: seq<PlanStep>) returns (v: Verdict)
    ensures v == GateVerdict(steps)
    ensures v.Undecided? <==>
      forall i :: 0 <= i < |steps| && steps[i].isApprovalGate ==>
        !steps[i].status.Succeeded? && !steps[i].status.Failed?
    ensures v.Approved? ==> exists g: nat :: FirstDecided(steps, g) && steps[g].status.Succeeded?
    ensures v.Rejected? ==> exists g: nat :: FirstDecided(steps, g) && steps[g].status.Failed?
  {
    var i := 0;
    while i < |steps|
      invariant 0 <= i <= |steps|
      invariant GateVerdict(steps) == GateVerdict(steps[i..])
      invariant forall k :: 0 <= k < i && steps[k].isApprovalGate ==>
        !steps[k].status.Succeeded? && !steps[k].status.Failed?
    {
      assert steps[i..][1..] == steps[i + 1..];
      if steps[i].isApprovalGate {
        if steps[i].status.Succeeded? || steps[i].status.Failed? { assert FirstDecided(steps, i); }
        if steps[i].status.Succeeded? { return Approved; }
        if steps[i].status.Failed? { return Rejected; }
      }
      i := i + 1;
    }
    return Undecided;
  }

  class Runner {
    const planId: string
    const criteria: seq<Criterion>
    var steps: seq<PlanStep>
    var status: PlanStatus
    var control: Control
    var phases: seq<Phase>
    var stored: Option<Plan>
    var requests: seq<Plan>
    var approvals: set<nat>
    var calls: seq<nat>
    var rounds: seq<seq<nat>>

    function PlanNow(): Plan
      reads this
    {
      Plan(planId, steps, criteria, status)
    }

    function View(): State
      reads this
    {
      State(PlanNow(), control, phases, stored, requests, approvals, calls, rounds)
    }

    constructor (p: Plan, inStore: Option<Plan>)
      ensures PlanNow() == p && phases == seq(|p.steps|, _ => Idle) && stored == inStore
      ensures requests == [] && approvals == {} && calls == [] && rounds == []
    {
      planId, criteria, steps, status := p.planId, p.criteria, p.steps, p.status;
      control := Returned;
      phases := seq(|p.steps|, _ => Idle);
      stored, requests, approvals, calls, rounds := inStore, [], {}, [], [];
    }

    // ----- segments of _run_step ------------------------------------------

    method SetStep(i: nat, st: StepStatus)
      requires i < |steps|
      modifies this`steps
      ensures PlanNow() == old(PlanNow()).WithStep(i, st)
    {
      steps := steps[i := steps[i].(status := st)];
    }

    /** Looks the handler up and calls it; without one the step fails. */
    method CallHandler(i: nat)
      requires i < |steps| && i < |phases|
      modifies this`steps, this`phases, this`calls
      ensures View() == Commit(old(View()), i, Dispatch(old(steps[i]), old(steps[i].status), old(status)))
    {
      match HandlerFor(steps[i].action)
      case NoHandler =>
        SetStep(i, StepStatus.Failed);
        phases := phases[i := Reporting];
      case Human =>
        calls := calls + [i];
        phases := phases[i := Polling(0)];
      case Service =>
        calls := calls + [i];
        phases := phases[i := Handling];
    }

    method Begin(i: nat)
      requires TaskEnabled(View(), i, Act.Begin)
      modifies this
      ensures View() == Apply(old(View()), Task(i, Act.Begin))
    {
      if steps[i].isApprovalGate {
        SetStep(i, WaitingApproval);
        phases := phases[i := GateSaving(PlanNow(), false)];
      } else {
        SetStep(i, StepStatus.Running);
        CallHandler(i);
      }
    }

    method GateLand(i: nat)
      requires TaskEnabled(View(), i, Act.GateLand)
      modifies this
      ensures View() == Apply(old(View()), Task(i, Act.GateLand))
    {
      stored := Some(phases[i].blob);
      phases := phases[i := phases[i].(landed := true)];
    }

    method GateResume(i: nat)
      requires TaskEnabled(View(), i, Act.GateResume)
      modifies this
      ensures View() == Apply(old(View()), Task(i, Act.GateResume))
    {
      status := AwaitingApproval;
      CallHandler(i);
    }

    method HandlerReturn(i: nat)
      requires TaskEnabled(View(), i, Act.HandlerReturn)
      modifies this
      ensures View() == Apply(old(View()), Task(i, Act.HandlerReturn))
    {
      SetStep(i, StepStatus.Succeeded);
      if steps[i].isApprovalGate { status := PlanStatus.Running; }
      phases := phases[i := Reporting];
    }

    method HandlerFail(i: nat)
      requires TaskEnabled(View(), i, Act.HandlerFail)
      modifies this
      ensures View() == Apply(old(View()), Task(i, Act.HandlerFail))
    {
      SetStep(i, StepStatus.Failed);
      phases := phases[i := Reporting];
    }

    /** One turn of the polling loop. */
    method Poll(i: nat, reachable: bool)
      requires TaskEnabled(View(), i, Act.Poll(reachable))
      modifies this
      ensures View() == Apply(old(View()), Task(i, Act.Poll(reachable)))
    {
      var v := Undecided;
      if reachable && stored.Some? { v := ReadVerdict(stored.value.steps); }
      match v
      case Approved => phases := phases[i := Answered(true)];
      case Rejected => phases := phases[i := Answered(false)];
      case Undecided => phases := phases[i := Polling(phases[i].elapsed + POLL_INTERVAL_S)];
    }

    /** `on_step_completed` once the step event is out. */
    method Report(i: nat)
      requires TaskEnabled(View(), i, Act.Report)
      modifies this
      ensures View() == Apply(old(View()), Task(i, Act.Report))
    {
      if steps[i].status.Failed? {
        match steps[i].onFailure
        case Rollback =>
          status := RolledBack;
          phases := phases[i := Closing];
        case Abort =>
          status := Aborted;
          phases := phases[i := Closing];
        case Continue =>
          phases := phases[i := Done];
      } else {
        phases := phases[i := Checking];
      }
    }

    method Criteria(i: nat, fires: bool)
      requires TaskEnabled(View(), i, Act.Criteria(fires))
      modifies this
      ensures View() == Apply(old(View()), Task(i, Act.Criteria(fires)))
    {
      if fires { status := PlanStatus.Succeeded; }
      phases := phases[i := if fires then Closing else Done];
    }

    method Finish(i: nat, act: Act)
      requires (act.Close? || act.Throw?) && TaskEnabled(View(), i, act)
      modifies this
      ensures View() == Apply(old(View()), Task(i, act))
    {
      phases := phases[i := if act.Close? then Done else Raised];
    }

    method RunSegment(i: nat, act: Act)
      requires TaskEnabled(View(), i, act)
      modifies this
      ensures View() == Apply(old(View()), Task(i, act))
    {
      match act
      case Begin => Begin(i);
      case GateLand => GateLand(i);
      case GateResume => GateResume(i);
      case HandlerReturn => HandlerReturn(i);
      case HandlerFail => HandlerFail(i);
      case Poll(reachable) => Poll(i, reachable);
      case Report => Report(i);
      case Criteria(fires) => Criteria(i, fires);
      case Close => Finish(i, act);
      case Throw => Finish(i, act);
    }

    // ----- the operator's requests ------------------------------------------

    method Operator(e: Event)
      requires (e.OpApprove? || e.OpDelete? || e.OpWrite?) && Enabled(View(), e)
      modifies this
      ensures View() == Apply(old(View()), e)
    {
      match e
      case OpApprove =>
        requests := requests + [ApproveCopy(stored.value)];
        approvals := approvals + WaitingGates(stored.value);
      case OpDelete =>
        requests := requests + [DeleteCopy(stored.value)];
      case OpWrite(j) =>
        stored := Some(requests[j]);
        requests := requests[..j] + requests[j + 1..];
    }

    // ----- execute ------------------------------------------------------------

    /** Lets others run until the awaited save lands (true), or raises or the schedule ends. */
    method AwaitSave(ghost s0: State, events: seq<Event>, from: nat) returns (k: nat, landed: bool)
      requires from <= |events| && Legal(s0, events[..from]) && View() == After(s0, events[..from])
      requires control.Saving? || control.FinalSaving?
      modifies this
      ensures from <= k <= |events| && Legal(s0, events[..k])
      ensures PlanNow() == old(PlanNow()) && phases == old(phases) && rounds == old(rounds)
      ensures if landed then
                && k > 0 && events[k - 1] == MainSave && Legal(s0, events[..k - 1]) && control == old(control)
                && View() == After(s0, events[..k - 1]).(stored := Some(PlanNow()))
                && After(s0, events[..k]) == Apply(After(s0, events[..k - 1]), MainSave)
              else
                && View() == After(s0, events[..k])
                && (control.Crashed? || k == |events| || !Enabled(View(), events[k]))
    {
      k, landed := from, false;
      while k < |events| && Enabled(View(), events[k]) && !events[k].MainSave? && !events[k].MainThrow?
        invariant from <= k <= |events| && Legal(s0, events[..k]) && View() == After(s0, events[..k])
        invariant PlanNow() == old(PlanNow()) && phases == old(phases) && rounds == old(rounds)
          && control == old(control)
      {
        Extend(s0, events[..k], events[k]);
        assert events[..k + 1] == events[..k] + [events[k]];
        Operator(events[k]);
        k := k + 1;
      }
      if k < |events| && Enabled(View(), events[k]) {
        Extend(s0, events[..k], events[k]);
        assert events[..k + 1] == events[..k] + [events[k]];
        k := k + 1;
        if events[k - 1].MainSave? {
          stored := Some(PlanNow());
          landed := true;
        } else {
          control := Crashed;
        }
      }
    }

    /** Lets the coroutines of a batch and the operator run until gather returns. */
    method AwaitBatch(ghost s0: State, events: seq<Event>, from: nat) returns (k: nat, ended: bool)
      requires from <= |events| && Legal(s0, events[..from]) && View() == After(s0, events[..from])
      requires control.InBatch?
      modifies this
      ensures from <= k <= |events| && Legal(s0, events[..k]) && View() == After(s0, events[..k])
      ensures if ended then control.Saving? else control.InBatch? && (k == |events| || !Enabled(View(), events[k]))
    {
      k, ended := from, false;
      while k < |events| && Enabled(View(), events[k]) && !events[k].BatchEnd?
        invariant from <= k <= |events| && Legal(s0, events[..k]) && View() == After(s0, events[..k])
        invariant control.InBatch?
      {
        Extend(s0, events[..k], events[k]);
        assert events[..k + 1] == events[..k] + [events[k]];
        if events[k].Task? { RunSegment(events[k].i, events[k].act); } else { Operator(events[k]); }
        k := k + 1;
      }
      if k < |events| && Enabled(View(), events[k]) {
        Extend(s0, events[..k], events[k]);
        assert events[..k + 1] == events[..k] + [events[k]];
        control := Saving;
        k, ended := k + 1, true;
      }
    }

    /** The save has landed; `execute` is about to test its loop condition. */
    ghost predicate AtLoopTop(s0: State, events: seq<Event>, k: nat)
      reads this
    {
      && 0 < k <= |events| && Legal(s0, events[..k]) && Legal(s0, events[..k - 1]) && control.Saving?
      && View() == After(s0, events[..k - 1]).(stored := Some(PlanNow()))
      && events[k - 1] == MainSave && After(s0, events[..k]) == Apply(After(s0, events[..k - 1]), MainSave)
    }

    ghost predicate Suspended(s0: State, events: seq<Event>, k: nat)
      reads this
    {
      && k <= |events| && Legal(s0, events[..k]) && View() == After(s0, events[..k])
      && (control.Returned? || control.Crashed? || k == |events| || !Enabled(View(), events[k]))
    }

    method StartBatch(ghost s0: State, events: seq<Event>, k: nat)
      requires AtLoopTop(s0, events, k)
      requires !PlanNow().IsComplete() && status.Running? && PlanNow().ReadySteps() != []
      modifies this
      ensures k <= |events| && Legal(s0, events[..k]) && View() == After(s0, events[..k]) && control.InBatch?
    {
      var ready := PlanNow().ReadySteps();
      var before := phases;
      control := InBatch;
      phases := seq(|before|, i requires 0 <= i < |before| => if i in ready then NotStarted else before[i]);
      rounds := rounds + [ready];
    }

    /** What follows the loop. */
    method Conclude(ghost s0: State, events: seq<Event>, from: nat) returns (k: nat)
      requires AtLoopTop(s0, events, from)
      requires PlanNow().IsComplete() || !status.Running? || PlanNow().ReadySteps() == []
      modifies this
      ensures Suspended(s0, events, k)
    {
      k := from;
      if status.Running? && PlanNow().IsComplete() {
        status := PlanStatus.Succeeded;
        control := FinalSaving;
        var landed;
        k, landed := AwaitSave(s0, events, k);
        if !landed { return; }
      }
      control := Returned;
    }

    /** The body of the loop: start the ready steps, await them, and await the save. */
    method Round(ghost s0: State, events: seq<Event>, from: nat) returns (k: nat, landed: bool)
      requires AtLoopTop(s0, events, from)
      requires !PlanNow().IsComplete() && status.Running? && PlanNow().ReadySteps() != []
      modifies this
      ensures if landed then k > from && AtLoopTop(s0, events, k) else Suspended(s0, events, k)
    {
      StartBatch(s0, events, from);
      var ended;
      k, ended := AwaitBatch(s0, events, from);
      landed := false;
      if ended { k, landed := AwaitSave(s0, events, k); }
    }

    /** The loop of `execute`, under an arbitrary schedule of what happens at its awaits.  The
        events it used form a run of the transition system that ends in this object's state. */
    method Execute(events: seq<Event>) returns (k: nat)
      requires phases == seq(|steps|, _ => Idle) && requests == [] && approvals == {} && calls == [] && rounds == []
      modifies this
      ensures Suspended(Init(old(PlanNow()), old(stored)), events, k)
    {
      ghost var s0 := Init(PlanNow(), stored);
      status := PlanStatus.Running;
      control := Saving;
      assert events[..0] == [] && View() == s0;
      var landed;
      k, landed := AwaitSave(s0, events, 0);
      if !landed { return; }
      while !PlanNow().IsComplete() && status.Running?
        invariant AtLoopTop(s0, events, k)
        decreases |events| - k
      {
        if PlanNow().ReadySteps() == [] { break; }
        k, landed := Round(s0, events, k);
        if !landed { return; }
      }
      k := Conclude(s0, events, k);
    }
  }
}
