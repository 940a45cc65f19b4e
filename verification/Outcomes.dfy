/** What comes out of a run: which handlers were called, how often a human was asked, what a
    rejection means, and when a plan is reported as SUCCEEDED (execution/runner.py:26-106,
    execution/handlers/human.py:19-46, planning/monitor.py:34-71). */
module Outcomes {
  import opened Wrappers
  import opened PlanSchema
  import opened Protocol
  import opened DependencySafety
  import opened Rounds
  import opened Layers
  import opened GatedRuns
  import opened Survival
  import opened PlanRunner

  // ----- handlers -----------------------------------------------------------------------------

  /** Called exactly once the handler has been reached, unless a save raised before that. */
  ghost predicate CalledOk(s: State, i: nat)
    requires i < |s.phases| && i < |s.plan.steps|
  {
    && (i in s.calls ==> PastCall(s.phases[i]) && !HandlerFor(s.plan.steps[i].action).NoHandler?)
    && (PastCall(s.phases[i]) && !s.phases[i].Raised? && !HandlerFor(s.plan.steps[i].action).NoHandler? ==>
         i in s.calls)
    && (s.plan.steps[i].status.Succeeded? ==> i in s.calls)
  }

  ghost predicate CallsOk(s: State) {
    && Inv(s)
    && forall i :: 0 <= i < |s.phases| ==>
         && CalledOk(s, i)
         && (HandlerFor(s.plan.steps[i].action).NoHandler? ==>
               !s.plan.steps[i].status.Succeeded? && !AwaitingHandler(s.phases[i]))
  }

  lemma ApplyKeepsCallsOk(s: State, e: Event)
    requires CallsOk(s) && Enabled(s, e)
    ensures CallsOk(Apply(s, e))
  {
    ApplyKeepsInv(s, e);
    var t := Apply(s, e);
    forall i | 0 <= i < |t.phases|
      ensures CalledOk(t, i)
      ensures HandlerFor(t.plan.steps[i].action).NoHandler? ==>
                !t.plan.steps[i].status.Succeeded? && !AwaitingHandler(t.phases[i])
    {
      assert s.plan.steps[i].SameStep(t.plan.steps[i]) && PhaseOk(s.plan.steps[i], s.phases[i]);
      if e.Task? { TaskCalls(s, e.i, e.act, i); }
    }
  }

  lemma TaskCalls(s: State, i: nat, act: Act, k: nat)
    requires CallsOk(s) && TaskEnabled(s, i, act) && k < |s.phases|
    ensures var t := Apply(s, Task(i, act));
      && k < |t.phases| && k < |t.plan.steps|
      && CalledOk(t, k)
      && (HandlerFor(t.plan.steps[k].action).NoHandler? ==>
            !t.plan.steps[k].status.Succeeded? && !AwaitingHandler(t.phases[k]))
  {
    assert PhaseOk(s.plan.steps[i], s.phases[i]);
  }

  lemma {:induction false} RunKeepsCallsOk(s: State, es: seq<Event>)
    requires CallsOk(s) && Legal(s, es)
    ensures CallsOk(After(s, es))
    decreases |es|
  {
    if es != [] {
      ApplyKeepsCallsOk(s, es[0]);
      RunKeepsCallsOk(Apply(s, es[0]), es[1..]);
    }
  }

  /** In every run: a step that has succeeded has had its handler called, and a step whose action has
      no handler is never called and never succeeds. */
  lemma SuccessNeedsCall(p: Plan, stored: Option<Plan>, es: seq<Event>, i: nat)
    requires p.AllPending() && Legal(Init(p, stored), es) && i < |p.steps|
    ensures var s := After(Init(p, stored), es);
      && |s.plan.steps| == |p.steps|
      && (s.plan.steps[i].status.Succeeded? ==> i in s.calls)
      && (HandlerFor(p.steps[i].action).NoHandler? ==> i !in s.calls && !s.plan.steps[i].status.Succeeded?)
  {
    InitInv(p, stored);
    RunKeepsInv(Init(p, stored), es);
    RunKeepsCallsOk(Init(p, stored), es);
    var s := After(Init(p, stored), es);
    assert p.steps[i].SameStep(s.plan.steps[i]) && PhaseOk(s.plan.steps[i], s.phases[i]);
  }

  // ----- asking a human -----------------------------------------------------------------------

  /** The polls of step i in a run. */
  function Polls(es: seq<Event>, i: nat): nat {
    if es == [] then 0
    else Polls(es[1..], i) + (if es[0].Task? && es[0].i == i && es[0].act.Poll? then 1 else 0)
  }

  ghost predicate Waited(s: State, i: nat, polls: nat) {
    i < |s.phases| && (s.phases[i].Polling? ==> s.phases[i].elapsed == 10 * polls)
    && (!PastCall(s.phases[i]) ==> polls == 0)
  }

  lemma ApplyKeepsWaited(s: State, e: Event, i: nat, polls: nat)
    requires Inv(s) && Enabled(s, e) && Waited(s, i, polls)
    ensures Waited(Apply(s, e), i, polls + Polls([e], i))
  {
    assert [e][1..] == [];
    assert Polls([e], i) == if e.Task? && e.i == i && e.act.Poll? then 1 else 0;
    ApplyKeepsInv(s, e);
    assert PhaseOk(s.plan.steps[i], s.phases[i]);
    if e.MainSave? && s.control.Saving? {
      ReadyStepsSpec(s.plan);
      assert s.(stored := Some(s.plan)).plan == s.plan;
      if i in s.plan.ReadySteps() { assert s.plan.Ready(i); }
    }
  }

  lemma {:induction false} RunKeepsWaited(s: State, es: seq<Event>, i: nat, polls: nat)
    requires Inv(s) && Legal(s, es) && Waited(s, i, polls)
    ensures Waited(After(s, es), i, polls + Polls(es, i))
    decreases |es|
  {
    if es != [] {
      assert [es[0]][1..] == [];
      assert Polls(es, i) == Polls([es[0]], i) + Polls(es[1..], i);
      ApplyKeepsWaited(s, es[0], i, polls);
      ApplyKeepsInv(s, es[0]);
      RunKeepsWaited(Apply(s, es[0]), es[1..], i, polls + Polls([es[0]], i));
    }
  }

  /** In every run a step waiting for a human has been polled every ten seconds, and it can be polled
      once more exactly as long as the polls so far have not used up its timeout. */
  lemma PollsUntilTimeout(p: Plan, stored: Option<Plan>, es: seq<Event>, i: nat, reachable: bool)
    requires p.AllPending() && Legal(Init(p, stored), es) && i < |p.steps|
    ensures var s := After(Init(p, stored), es);
      && i < |s.phases|
      && (s.phases[i].Polling? && s.control.InBatch? ==>
            (Enabled(s, Task(i, Poll(reachable))) <==> 10 * Polls(es, i) < p.steps[i].timeoutS))
  {
    InitInv(p, stored);
    RunKeepsInv(Init(p, stored), es);
    RunKeepsWaited(Init(p, stored), es, i, 0);
    var s := After(Init(p, stored), es);
    assert p.steps[i].SameStep(s.plan.steps[i]);
  }

  lemma {:induction false} VerdictIsFirst(steps: seq<PlanStep>, g: nat)
    requires FirstDecided(steps, g)
    ensures GateVerdict(steps) == if steps[g].status.Succeeded? then Approved else Rejected
  {
    if g > 0 {
      assert FirstDecided(steps[1..], g - 1) by {
        forall i | 0 <= i < g - 1 && steps[1..][i].isApprovalGate
          ensures !steps[1..][i].status.Succeeded? && !steps[1..][i].status.Failed?
        {
          assert steps[1..][i] == steps[i + 1];
        }
      }
      VerdictIsFirst(steps[1..], g - 1);
    }
  }

  /** The gate has succeeded or failed. */
  predicate Decided(step: PlanStep) {
    step.isApprovalGate && (step.status.Succeeded? || step.status.Failed?)
  }

  lemma {:induction false} UndecidedIff(steps: seq<PlanStep>)
    ensures GateVerdict(steps).Undecided? <==> forall g :: 0 <= g < |steps| ==> !Decided(steps[g])
  {
    if steps != [] {
      assert steps == [steps[0]] + steps[1..];
      UndecidedIff(steps[1..]);
    }
  }

  /** A poll ends the waiting exactly if the store answers and its copy has a decided gate.  Otherwise,
      and in particular when the store cannot be reached, it only uses up ten more seconds. */
  lemma PollEndsIff(s: State, i: nat, reachable: bool)
    requires TaskEnabled(s, i, Poll(reachable))
    ensures var t := Apply(s, Task(i, Poll(reachable)));
      && (t.phases[i].Answered? <==>
           && reachable && s.stored.Some?
           && exists g :: 0 <= g < |s.stored.value.steps| && Decided(s.stored.value.steps[g]))
      && (!t.phases[i].Answered? ==> t == s.(phases := s.phases[i := Polling(s.phases[i].elapsed + 10)]))
  {
    if s.stored.Some? { UndecidedIff(s.stored.value.steps); }
    var t := Apply(s, Task(i, Poll(reachable)));
    assert t.plan.steps == s.plan.steps && t.plan == s.plan;
  }

  /** The answer is no, or the step has failed. */
  predicate Refused(s: State, i: nat) {
    i < |s.phases| && i < |s.plan.steps| && (s.phases[i] == Answered(false) || s.plan.steps[i].status.Failed?)
  }

  lemma {:induction false} RefusalStays(s: State, es: seq<Event>, i: nat)
    requires Inv(s) && Refused(s, i) && Legal(s, es)
    ensures Refused(After(s, es), i) && !After(s, es).plan.steps[i].status.Succeeded?
    decreases |es|
  {
    assert PhaseOk(s.plan.steps[i], s.phases[i]);
    if es != [] {
      ApplyKeepsInv(s, es[0]);
      RefusalStep(s, es[0], i);
      RefusalStays(Apply(s, es[0]), es[1..], i);
    }
  }

  lemma RefusalStep(s: State, e: Event, i: nat)
    requires Inv(s) && Refused(s, i) && Enabled(s, e)
    ensures Refused(Apply(s, e), i)
  {
    assert PhaseOk(s.plan.steps[i], s.phases[i]);
    if s.plan.steps[i].status.Failed? { FailureIsFinal(s, e, i); ApplyKeepsInv(s, e); }
  }

  /** A poll is decided by the first gate of the stored copy that has succeeded or failed.  If that one
      failed, the step never succeeds, whatever is approved later; if it succeeded, the step can
      succeed at once. */
  lemma FirstGateDecidesPoll(s: State, i: nat, g: nat)
    requires Inv(s) && TaskEnabled(s, i, Poll(true)) && s.stored.Some? && FirstDecided(s.stored.value.steps, g)
    ensures var t := Apply(s, Task(i, Poll(true)));
      if s.stored.value.steps[g].status.Failed?
      then forall es :: Legal(t, es) && i < |After(t, es).plan.steps| ==> !After(t, es).plan.steps[i].status.Succeeded?
      else TaskEnabled(t, i, HandlerReturn)
  {
    VerdictIsFirst(s.stored.value.steps, g);
    var t := Apply(s, Task(i, Poll(true)));
    ApplyKeepsInv(s, Task(i, Poll(true)));
    if s.stored.value.steps[g].status.Failed? {
      assert Refused(t, i);
      forall es | Legal(t, es) && i < |After(t, es).plan.steps| ensures !After(t, es).plan.steps[i].status.Succeeded? {
        RefusalStays(t, es, i);
      }
    }
  }

  // ----- success ------------------------------------------------------------------------------

  /** The program can only ever find such a criterion met. */
  ghost predicate Checkable(p: Plan) {
    exists c :: c in p.criteria && c.kind == WorldModelQuery && "resolved" in c.words
  }

  lemma {:induction false} CriteriaOnlyIfCheckable(s: State, es: seq<Event>)
    requires Inv(s) && Legal(s, es)
    ensures var w := LastWriter(s, es); w.Some? && w.value.Task? && w.value.act.Criteria? ==> Checkable(s.plan)
    decreases |es|
  {
    if es != [] {
      ApplyKeepsInv(s, es[0]);
      CriteriaOnlyIfCheckable(Apply(s, es[0]), es[1..]);
      if es[0].Task? && es[0].act == Criteria(true) {
        var c :| c in s.plan.criteria && c.CanFire();
      }
    }
  }

  lemma {:induction false} CompleteAtEnd(s: State, es: seq<Event>)
    requires Inv(s) && Legal(s, es) && LastWriter(s, es) == Some(MainSave)
    ensures AllSucceeded(After(s, es).plan)
    decreases |es|
  {
    if es != [] {
      var t := Apply(s, es[0]);
      ApplyKeepsInv(s, es[0]);
      if LastWriter(t, es[1..]).Some? {
        CompleteAtEnd(t, es[1..]);
      } else {
        RunKeepsInv(t, es[1..]);
        forall i | 0 <= i < |s.plan.steps| ensures t.plan.steps[i].status.Succeeded? {
          assert PhaseOk(s.plan.steps[i], s.phases[i]);
        }
      }
    }
  }

  /** Execute has returned with the plan SUCCEEDED, although some step has not run. */
  ghost predicate EndsEarly(p: Plan, stored: Option<Plan>, es: seq<Event>) {
    && Legal(Init(p, stored), es)
    && var s := After(Init(p, stored), es);
       && s.control.Returned? && s.plan.status == PlanStatus.Succeeded && s.stored == Some(s.plan)
       && exists i :: 0 <= i < |s.plan.steps| && s.plan.steps[i].status.Pending?
  }

  lemma EarlyIsCheckable(p: Plan, stored: Option<Plan>, es: seq<Event>)
    requires p.AllPending() && EndsEarly(p, stored, es)
    ensures Checkable(p)
  {
    var s0 := Init(p, stored);
    InitInv(p, stored);
    StatusByLastWriter(s0, es);
    CriteriaOnlyIfCheckable(s0, es);
    var w := LastWriter(s0, es);
    assert w.Some? && LeavesStatus(After(s0, es).plan, w.value);
    if w == Some(MainSave) { CompleteAtEnd(s0, es); }
  }

  /** The last step of a batch passes, and a criterion is found to be met. */
  lemma FireLast(t: State, depth: seq<nat>, i: nat) returns (es: seq<Event>)
    requires Calm(t, depth) && t.control.InBatch? && Waiting(t) == {i} && i < |t.phases| && t.phases[i].NotStarted?
    requires Operable(t.plan.steps[i]) && t.plan.Fires()
    ensures Legal(t, es) && Inv(After(t, es))
    ensures var u := After(t, es);
      && u.control.InBatch? && BatchDone(u.phases) && u.plan.status == PlanStatus.Succeeded
      && u.plan.steps == t.plan.WithStep(i, StepStatus.Succeeded).steps
  {
    var ask := Ask(t, depth, i);
    var s := After(t, ask);
    Start(s, i);
    var fire := Segment(s, [], i, HandlerReturn, s.plan.steps[i].status, s.phases[i]);
    fire := Segment(s, fire, i, Report, StepStatus.Succeeded, Reporting);
    assert After(s, fire).plan.criteria == t.plan.criteria;
    fire := Segment(s, fire, i, Criteria(true), StepStatus.Succeeded, Checking);
    fire := Segment(s, fire, i, Close, StepStatus.Succeeded, Closing);
    Compose(t, ask, fire);
    es := ask + fire;
    RunKeepsInv(t, es);
    FiredLast(t, s, After(s, fire), i);
  }

  lemma FiredLast(t: State, s: State, u: State, i: nat)
    requires |t.phases| == |t.plan.steps| && i < |t.phases| && Waiting(t) == {i}
    requires forall k :: 0 <= k < |t.phases| ==> Resting(t.phases[k])
    requires Only(t, s, i, InFlight(t.plan.steps[i]), AskedPhase(t.plan.steps[i]))
    requires Only(s, u, i, StepStatus.Succeeded, Done)
    ensures BatchDone(u.phases) && u.plan.steps == t.plan.WithStep(i, StepStatus.Succeeded).steps
  {
    forall k | 0 <= k < |u.phases| ensures u.phases[k].Idle? || u.phases[k].Done? {
      assert k != i ==> k !in Waiting(t) && u.phases[k] == t.phases[k];
    }
  }

  lemma OnwardReturns(u: State)
    requires Inv(u) && u.control.InBatch? && BatchDone(u.phases) && u.plan.status == PlanStatus.Succeeded
    ensures Legal(u, Onward())
    ensures var v := After(u, Onward()); v.control.Returned? && v.plan == u.plan && v.stored == Some(u.plan)
  {
    assert Onward()[1..] == [MainSave] && [MainSave][1..] == [];
    var b := Apply(u, BatchEnd);
    assert After(Apply(b, MainSave), []) == Apply(b, MainSave) && After(b, [MainSave]) == Apply(b, MainSave);
  }

  /** A plan of at least two layers whose steps can be run has a run that ends SUCCEEDED with steps
      still PENDING if and only if it has a world-model criterion with the word "resolved"; all
      other criteria are never found met. */
  lemma EarlySuccessIff(p: Plan, stored: Option<Plan>, depth: seq<nat>)
    requires p.AllPending() && UniqueIds(p) && IsDepth(p, depth) && Runnable(p) && Layer(depth, 1) != []
    ensures (exists es :: EndsEarly(p, stored, es)) <==> Checkable(p)
  {
    if es :| EndsEarly(p, stored, es) { EarlyIsCheckable(p, stored, es); }
    if Checkable(p) {
      var es := EarlyRun(p, stored, depth);
    }
  }

  lemma EarlyRun(p: Plan, stored: Option<Plan>, depth: seq<nat>) returns (es: seq<Event>)
    requires p.AllPending() && UniqueIds(p) && IsDepth(p, depth) && Runnable(p) && Layer(depth, 1) != []
    requires Checkable(p)
    ensures EndsEarly(p, stored, es)
  {
    var s0 := Init(p, stored);
    LayerBelow(p, depth, 1);
    LayerSpec(depth, 0);
    LayerSpec(depth, 1);
    var i, j := Layer(depth, 0)[0], Layer(depth, 1)[0];
    assert i in Layer(depth, 0) && j in Layer(depth, 1);
    es := ReachPair(p, stored, depth, i, i);
    var t := After(s0, es);
    InitInv(p, stored);
    RunKeepsInv(s0, es);
    assert p.steps[i].SameStep(t.plan.steps[i]);
    assert i in Waiting(t) && t.plan.Fires() by { CheckableFires(p, t.plan); }
    var fire := FireLast(t, depth, i);
    var u := After(t, fire);
    OnwardReturns(u);
    Compose(s0, es, fire);
    Compose(s0, es + fire, Onward());
    es := es + fire + Onward();
    assert t.phases[j].Idle? && PhaseOk(t.plan.steps[j], t.phases[j]);
    assert u.plan.steps[j].status.Pending?;
  }

  lemma CheckableFires(p: Plan, q: Plan)
    requires Checkable(p) && p.SameShape(q)
    ensures q.Fires()
  {
    var c :| c in p.criteria && c.kind == WorldModelQuery && "resolved" in c.words;
    assert c in q.criteria && c.CanFire();
  }

  /** `execute` returns SUCCEEDED after its two saves, without starting a batch, exactly if each step
      had already succeeded or been skipped. */
  lemma NothingToDoIff(p: Plan, stored: Option<Plan>)
    ensures Legal(Init(p, stored), [MainSave])
    ensures After(Init(p, stored), [MainSave]).control.FinalSaving?
       <==> forall i :: 0 <= i < |p.steps| ==> p.steps[i].status == StepStatus.Succeeded || p.steps[i].status == Skipped
    ensures After(Init(p, stored), [MainSave]).control.FinalSaving? ==>
      var s := Apply(After(Init(p, stored), [MainSave]), MainSave);
      s.control.Returned? && s.rounds == [] && s.plan.steps == p.steps && s.plan.status == PlanStatus.Succeeded
  {
    var s := Init(p, stored);
    Start0(s, MainSave);
    assert s.(stored := Some(s.plan)).plan == p.(status := PlanStatus.Running);
    ReadyStepsSpec(s.plan);
    assert s.plan.IsComplete() <==>
      forall i :: 0 <= i < |p.steps| ==> p.steps[i].status == StepStatus.Succeeded || p.steps[i].status == Skipped;
  }

  // ----- the operator and a running plan --------------------------------------------------------

  predicate OfOperator(e: Event) {
    e.OpApprove? || e.OpDelete? || e.OpWrite?
  }

  /** No operator request changes what the runner does next, by itself: neither its plan, nor its
      coroutines, nor its control.  In particular deleting a plan does not stop it. */
  lemma {:induction false} OperatorLeavesRunnerAlone(s: State, es: seq<Event>)
    requires Legal(s, es) && forall k :: 0 <= k < |es| ==> OfOperator(es[k])
    ensures var t := After(s, es);
      t.plan == s.plan && t.phases == s.phases && t.control == s.control && t.rounds == s.rounds && t.calls == s.calls
    decreases |es|
  {
    if es != [] {
      assert OfOperator(es[0]);
      OperatorLeavesRunnerAlone(Apply(s, es[0]), es[1..]);
    }
  }
}
