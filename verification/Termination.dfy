/** Every run is finite on the runner's side: each of its events lowers a measure, operator
    requests leave it alone, and a runner that has not ended always has something to do. */
module Termination {
  import opened Wrappers
  import opened PlanSchema
  import opened Protocol
  import opened DependencySafety

  /** Polls the human handler can still make before its timeout. */
  function Remaining(timeoutS: int, elapsed: nat): nat {
    if elapsed < timeoutS then (timeoutS - elapsed + POLL_INTERVAL_S - 1) / POLL_INTERVAL_S else 0
  }

  /** Upper bound on what the coroutine of a step can still do. */
  function Weight(timeoutS: int, ph: Phase): nat {
    match ph
    case Idle => 20 + Remaining(timeoutS, 0)
    case NotStarted => 12 + Remaining(timeoutS, 0)
    case GateSaving(_, landed) => (if landed then 10 else 11) + Remaining(timeoutS, 0)
    case Polling(elapsed) => 6 + Remaining(timeoutS, elapsed)
    case Handling => 6
    case Answered(_) => 5
    case Reporting => 4
    case Checking => 3
    case Closing => 2
    case Done => 0
    case Raised => 0
  }

  function Sum(ws: seq<nat>): nat {
    if ws == [] then 0 else ws[0] + Sum(ws[1..])
  }

  function Weights(s: State): seq<nat>
    requires |s.phases| == |s.plan.steps|
  {
    seq(|s.phases|, i requires 0 <= i < |s.phases| => Weight(s.plan.steps[i].timeoutS, s.phases[i]))
  }

  function ControlWeight(c: Control): nat {
    match c
    case InBatch => 4
    case Saving => 3
    case FinalSaving => 1
    case Returned => 0
    case Crashed => 0
  }

  function Measure(s: State): nat
    requires |s.phases| == |s.plan.steps|
  {
    ControlWeight(s.control) + Sum(Weights(s))
  }

  predicate RunnerEvent(e: Event) {
    e.Task? || e.MainSave? || e.MainThrow? || e.BatchEnd?
  }

  lemma {:induction false} SumLower(a: seq<nat>, b: seq<nat>, i: nat, drop: nat)
    requires |a| == |b| && i < |a| && b[i] + drop <= a[i]
    requires forall k :: 0 <= k < |a| ==> b[k] <= a[k]
    ensures Sum(b) + drop <= Sum(a)
    decreases |a|
  {
    if i == 0 {
      SumMonotone(a[1..], b[1..]);
    } else {
      SumLower(a[1..], b[1..], i - 1, drop);
    }
  }

  lemma {:induction false} SumMonotone(a: seq<nat>, b: seq<nat>)
    requires |a| == |b| && forall k :: 0 <= k < |a| ==> b[k] <= a[k]
    ensures Sum(b) <= Sum(a)
    decreases |a|
  {
    if a != [] { SumMonotone(a[1..], b[1..]); }
  }

  lemma TaskLowers(s: State, i: nat, act: Act)
    requires Inv(s) && TaskEnabled(s, i, act)
    ensures Inv(Apply(s, Task(i, act))) && Measure(Apply(s, Task(i, act))) < Measure(s)
  {
    TaskKeepsInv(s, i, act);
    var s' := Apply(s, Task(i, act));
    assert Weights(s')[i] + 1 <= Weights(s)[i];
    SumLower(Weights(s), Weights(s'), i, 1);
  }

  lemma LoopTopLowers(s: State)
    requires Inv(s) && s.control.Saving? && BatchDone(s.phases)
    ensures Inv(LoopTop(s)) && Measure(LoopTop(s)) < Measure(s)
  {
    LoopTopKeepsInv(s);
    ReadyStepsSpec(s.plan);
    var s' := LoopTop(s);
    if s'.control.InBatch? {
      var i := s.plan.ReadySteps()[0];
      assert i in s.plan.ReadySteps() && s.plan.Ready(i);
      assert PhaseOk(s.plan.steps[i], s.phases[i]);
      forall k | 0 <= k < |s.phases| ensures Weights(s')[k] <= Weights(s)[k] {
        assert PhaseOk(s.plan.steps[k], s.phases[k]);
        assert k in s.plan.ReadySteps() ==> s.plan.Ready(k);
      }
      SumLower(Weights(s), Weights(s'), i, 8);
    } else {
      assert Weights(s') == Weights(s);
    }
  }

  lemma RunnerEventLowers(s: State, e: Event)
    requires Inv(s) && Enabled(s, e)
    ensures Inv(Apply(s, e))
    ensures if RunnerEvent(e) then Measure(Apply(s, e)) < Measure(s) else Measure(Apply(s, e)) == Measure(s)
  {
    ApplyKeepsInv(s, e);
    match e
    case Task(i, act) => TaskLowers(s, i, act);
    case MainSave =>
      var s' := s.(stored := Some(s.plan));
      assert Weights(s') == Weights(s);
      if s.control.Saving? { LoopTopLowers(s'); } else { assert Weights(Apply(s, e)) == Weights(s); }
    case _ => assert Weights(Apply(s, e)) == Weights(s);
  }

  function RunnerEvents(es: seq<Event>): nat {
    if es == [] then 0 else (if RunnerEvent(es[0]) then 1 else 0) + RunnerEvents(es[1..])
  }

  /** In any interleaving the runner takes at most Measure(s) steps, however many requests the
      operator makes; a gate with an 1800 s timeout contributes at most 180 polls to it. */
  lemma {:induction false} RunnerEventsBounded(s: State, es: seq<Event>)
    requires Inv(s) && Legal(s, es)
    ensures Inv(After(s, es)) && RunnerEvents(es) + Measure(After(s, es)) <= Measure(s)
    decreases |es|
  {
    if es != [] {
      RunnerEventLowers(s, es[0]);
      RunnerEventsBounded(Apply(s, es[0]), es[1..]);
    }
  }

  ghost predicate Ended(s: State) {
    s.control.Returned? || s.control.Crashed? || exists i :: 0 <= i < |s.phases| && s.phases[i].Raised?
  }

  /** The event a suspended coroutine can always take. */
  function NextAct(ph: Phase): Act
    requires !ph.Idle? && !ph.Done? && !ph.Raised?
  {
    match ph
    case NotStarted => Begin
    case GateSaving(_, landed) => if landed then GateResume else GateLand
    case Handling => HandlerFail
    case Polling(_) => HandlerFail
    case Answered(_) => HandlerFail
    case Reporting => Report
    case Checking => Criteria(false)
    case Closing => Close
  }

  /** The runner is never stuck: until `execute` has returned or raised, it has an event. */
  lemma Progress(s: State) returns (e: Event)
    requires Inv(s) && !Ended(s)
    ensures RunnerEvent(e) && Enabled(s, e)
  {
    if !s.control.InBatch? {
      e := MainSave;
    } else if BatchDone(s.phases) {
      e := BatchEnd;
    } else {
      var i :| 0 <= i < |s.phases| && !s.phases[i].Idle? && !s.phases[i].Done?;
      e := Task(i, NextAct(s.phases[i]));
    }
  }

  /** So from every reachable state some continuation ends the run. */
  lemma {:induction false} RunCanEnd(s: State) returns (es: seq<Event>)
    requires Inv(s)
    ensures Legal(s, es) && Ended(After(s, es))
    decreases Measure(s)
  {
    if Ended(s) {
      es := [];
    } else {
      var e := Progress(s);
      RunnerEventLowers(s, e);
      var rest := RunCanEnd(Apply(s, e));
      es := [e] + rest;
      assert es[1..] == rest;
    }
  }
}
