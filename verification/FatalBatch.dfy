/** Failures that must stop a plan: no batch follows one in which a step with on_failure
    rollback or abort failed, unless an approval gate of that same batch succeeded. */
module FatalBatch {
  import opened Wrappers
  import opened PlanSchema
  import opened Protocol
  import opened DependencySafety

  ghost predicate FatalIn(s: State, batch: seq<nat>) {
    exists i :: i in batch && i < |s.plan.steps| && i < |s.phases|
      && s.plan.steps[i].Fatal() && s.plan.steps[i].status.Failed? && (s.phases[i].Closing? || s.phases[i].Done?)
  }

  ghost predicate GatePassed(s: State, batch: seq<nat>) {
    exists i :: i in batch && i < |s.plan.steps| && s.plan.steps[i].isApprovalGate && s.plan.steps[i].status.Succeeded?
  }

  ghost predicate Excused(s: State, batch: seq<nat>) {
    FatalIn(s, batch) ==> GatePassed(s, batch)
  }

  ghost predicate GateFree(p: Plan, batch: seq<nat>) {
    forall i :: i in batch ==> i < |p.steps| && !p.steps[i].isApprovalGate
  }

  ghost predicate Started(s: State, batch: seq<nat>) {
    forall i :: i in batch ==> i < |s.phases| && !s.phases[i].Idle?
  }

  ghost predicate Finished(s: State, batch: seq<nat>) {
    forall i :: i in batch ==> i < |s.phases| && s.phases[i].Done?
  }

  ghost predicate History(s: State) {
    && Inv(s)
    && (forall k :: 0 <= k < |s.rounds| ==> Started(s, s.rounds[k]))
    && (forall k :: 0 <= k < |s.rounds| - 1 ==> Finished(s, s.rounds[k]))
    && (s.control.InBatch? ==> s.rounds != [])
    && (forall i :: 0 <= i < |s.phases| && !s.phases[i].Idle? && !s.phases[i].Done? ==>
          s.rounds != [] && i in s.rounds[|s.rounds| - 1])
    && (forall k :: 0 <= k < |s.rounds| - 1 ==> Excused(s, s.rounds[k]))
    && (s.rounds != [] && s.plan.status.Running? ==>
          Excused(s, s.rounds[|s.rounds| - 1]))
  }

  lemma TaskKeepsHistory(s: State, i: nat, act: Act)
    requires History(s) && TaskEnabled(s, i, act)
    ensures History(Apply(s, Task(i, act)))
  {
    var s' := Apply(s, Task(i, act));
    TaskKeepsInv(s, i, act);
    EffectOk(s, i, act);
    var n := |s.rounds| - 1;
    forall k | 0 <= k < |s.rounds| ensures Started(s', s'.rounds[k]) {
      assert Started(s, s.rounds[k]);
    }
    forall k | 0 <= k < n ensures Excused(s', s'.rounds[k]) && Finished(s', s'.rounds[k]) {
      assert Finished(s, s.rounds[k]) && Excused(s, s.rounds[k]);
      assert i !in s.rounds[k];
      PastBatch(s, s', s.rounds[k], i);
    }
    if s'.plan.status.Running? {
      assert i in s'.rounds[n];
      if act.HandlerReturn? && s.plan.steps[i].isApprovalGate {
        assert GatePassed(s', s'.rounds[n]);
      } else {
        LastBatch(s, s', s.rounds[n], i, act);
      }
    }
  }

  /** A batch the acting step is not in looks the same before and after. */
  lemma PastBatch(s: State, s': State, batch: seq<nat>, i: nat)
    requires |s.phases| == |s.plan.steps| == |s'.plan.steps| == |s'.phases| && i !in batch
    requires forall j :: 0 <= j < |s.phases| && j != i ==>
      s'.phases[j] == s.phases[j] && s'.plan.steps[j] == s.plan.steps[j]
    requires Excused(s, batch)
    ensures Excused(s', batch)
  {
    if FatalIn(s', batch) {
      assert FatalIn(s, batch);
      var g :| g in batch && g < |s.plan.steps| && s.plan.steps[g].isApprovalGate && s.plan.steps[g].status.Succeeded?;
      assert s'.plan.steps[g] == s.plan.steps[g];
    }
  }

  /** A segment that leaves the plan RUNNING records no fatal failure. */
  lemma FatalBefore(s: State, s': State, batch: seq<nat>, i: nat, act: Act)
    requires Inv(s) && TaskEnabled(s, i, act) && s' == Apply(s, Task(i, act)) && i in batch
    requires s'.plan.status.Running? && FatalIn(s', batch)
    ensures FatalIn(s, batch)
  {
    var j :| j in batch && j < |s'.plan.steps| && j < |s'.phases|
      && s'.plan.steps[j].Fatal() && s'.plan.steps[j].status.Failed? && (s'.phases[j].Closing? || s'.phases[j].Done?);
    if j == i { assert s.phases[i].Closing? && s.plan.steps[i].status.Failed?; }
  }

  lemma LastBatch(s: State, s': State, batch: seq<nat>, i: nat, act: Act)
    requires Inv(s) && TaskEnabled(s, i, act) && s' == Apply(s, Task(i, act)) && i in batch
    requires s'.plan.status.Running? && !(act.HandlerReturn? && s.plan.steps[i].isApprovalGate)
    requires s.plan.status.Running? ==> Excused(s, batch)
    ensures Excused(s', batch)
  {
    assert s.plan.status.Running?;
    if FatalIn(s', batch) {
      FatalBefore(s, s', batch, i, act);
      EffectOk(s, i, act);
      var g :| g in batch && g < |s.plan.steps| && s.plan.steps[g].isApprovalGate && s.plan.steps[g].status.Succeeded?;
      assert s'.plan.steps[g].isApprovalGate && s'.plan.steps[g].status.Succeeded?;
    }
  }

  /** Between batches, all steps of all rounds so far are done. */
  lemma RoundsFinished(s: State, k: nat)
    requires History(s) && BatchDone(s.phases) && k < |s.rounds|
    ensures Finished(s, s.rounds[k]) && forall i :: i in s.rounds[k] ==> i !in s.plan.ReadySteps()
  {
    ReadyStepsSpec(s.plan);
    assert Started(s, s.rounds[k]);
    forall i | i in s.rounds[k] ensures s.phases[i].Done? && i !in s.plan.ReadySteps() {
      assert PhaseOk(s.plan.steps[i], s.phases[i]);
    }
  }

  lemma LoopTopKeepsHistory(s: State)
    requires History(s) && s.control.Saving? && BatchDone(s.phases)
    ensures History(LoopTop(s))
  {
    LoopTopKeepsInv(s);
    ReadyStepsSpec(s.plan);
    var s' := LoopTop(s);
    if s'.control.InBatch? {
      var ready := s.plan.ReadySteps();
      forall k | 0 <= k < |s.rounds| ensures Finished(s', s'.rounds[k]) { RoundsFinished(s, k); }
      forall k | 0 <= k < |s'.rounds| ensures Started(s', s'.rounds[k]) {
        if k < |s.rounds| { assert Finished(s', s'.rounds[k]); }
      }
      forall k | 0 <= k < |s'.rounds| - 1 ensures Excused(s', s'.rounds[k]) {
        assert s'.rounds[k] == s.rounds[k] && Excused(s, s.rounds[k]);
        assert FatalIn(s', s.rounds[k]) ==> FatalIn(s, s.rounds[k]);
      }
      assert Excused(s', ready) by {
        forall i | i in ready ensures !s'.plan.steps[i].status.Failed? { assert s.plan.Ready(i); }
      }
    } else {
      forall k | 0 <= k < |s'.rounds| ensures Excused(s, s.rounds[k]) ==> Excused(s', s.rounds[k]) {
        assert FatalIn(s', s.rounds[k]) ==> FatalIn(s, s.rounds[k]);
      }
    }
  }

  lemma ApplyKeepsHistory(s: State, e: Event)
    requires History(s) && Enabled(s, e)
    ensures History(Apply(s, e))
  {
    ApplyKeepsInv(s, e);
    match e
    case Task(i, act) => TaskKeepsHistory(s, i, act);
    case MainSave =>
      var s' := s.(stored := Some(s.plan));
      SameRun(s, s');
      if s.control.Saving? { LoopTopKeepsHistory(s'); } else { SameRun(s, Apply(s, e)); }
    case _ => SameRun(s, Apply(s, e));
  }

  lemma SameRun(s: State, s': State)
    requires History(s) && Inv(s') && (s'.control.InBatch? ==> s.control.InBatch?)
    requires s.plan == s'.plan && s.phases == s'.phases && s.rounds == s'.rounds
    ensures History(s')
  {
    forall k | 0 <= k < |s.rounds| ensures Excused(s, s.rounds[k]) == Excused(s', s'.rounds[k]) {
      assert FatalIn(s, s.rounds[k]) == FatalIn(s', s'.rounds[k]);
    }
  }

  lemma {:induction false} RunKeepsHistory(s: State, es: seq<Event>)
    requires History(s) && Legal(s, es)
    ensures History(After(s, es))
    decreases |es|
  {
    if es != [] {
      ApplyKeepsHistory(s, es[0]);
      RunKeepsHistory(Apply(s, es[0]), es[1..]);
    }
  }

  /** Whatever the order in which siblings finish or criteria fire: if batch k was followed by
      another one and some step of it failed with on_failure rollback or abort, then an approval
      gate of batch k succeeded; so a gate-free batch with such a failure is the last one. */
  lemma NoBatchAfterFatalFailure(p: Plan, stored: Option<Plan>, es: seq<Event>, k: nat, i: nat)
    requires p.AllPending() && Legal(Init(p, stored), es)
    requires k < |After(Init(p, stored), es).rounds| - 1 && i in After(Init(p, stored), es).rounds[k]
    ensures var s := After(Init(p, stored), es);
      && p.SameShape(s.plan) && i < |p.steps|
      && (p.steps[i].Fatal() && s.plan.steps[i].status.Failed? ==>
            GatePassed(s, s.rounds[k]) && !GateFree(p, s.rounds[k]))
  {
    InitInv(p, stored);
    RunKeepsInv(Init(p, stored), es);
    RunKeepsHistory(Init(p, stored), es);
    var s := After(Init(p, stored), es);
    assert Started(s, s.rounds[k]);
    assert p.steps[i].SameStep(s.plan.steps[i]);
    if p.steps[i].Fatal() && s.plan.steps[i].status.Failed? {
      assert Excused(s, s.rounds[k]) && FatalIn(s, s.rounds[k]);
      var g :| g in s.rounds[k] && g < |s.plan.steps| && s.plan.steps[g].isApprovalGate
        && s.plan.steps[g].status.Succeeded?;
      assert p.steps[g].SameStep(s.plan.steps[g]);
    }
  }
}
