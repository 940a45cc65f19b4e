/** How many approvals a plan needs.  The handler accepts any succeeded gate of the stored plan
    (execution/handlers/human.py:35-38), so one approval can serve many gates, and a gate that a
    service handles can serve in place of an approval. */
module OneApproval {
  import opened Wrappers
  import opened PlanSchema
  import opened Protocol
  import opened DependencySafety
  import opened Layers
  import opened FatalBatch
  import opened Survival
  import opened Approval
  import opened GatedRuns

  ghost predicate OnlyGate(p: Plan, g: nat) {
    && g < |p.steps| && p.steps[g].isApprovalGate
    && forall i :: 0 <= i < |p.steps| && p.steps[i].isApprovalGate ==> i == g
  }

  /** In every interleaving, the only gate of a plan passes only after an approve call that found
      that very gate stored as waiting. */
  lemma OnlyGateNeedsItsApproval(p: Plan, stored: Option<Plan>, es: seq<Event>, g: nat)
    requires p.AllPending() && HumanGates(p) && (stored == None || stored == Some(p)) && OnlyGate(p, g)
    requires Legal(Init(p, stored), es)
    ensures var s := After(Init(p, stored), es);
      |s.plan.steps| == |p.steps| && (s.plan.steps[g].status.Succeeded? ==> g in s.approvals)
  {
    InitGated(p, stored);
    RunKeepsGated(p, Init(p, stored), es);
    var s := After(Init(p, stored), es);
    GateKnown(p, s.plan, g);
    if s.plan.steps[g].status.Succeeded? {
      assert SomeGateSucceeded(s.plan);
      var a :| a in s.approvals;
      assert a == g;
    }
  }

  /** Conversely, whenever the stored plan shows a decided gate and it is approved, a step that is
      being polled can pass on it: no approval is added, and none of its own is needed. */
  lemma ApprovedCopyOpens(s: State, i: nat)
    requires s.control.InBatch? && i < |s.plan.steps| && i < |s.phases|
    requires s.phases[i].Polling? && s.phases[i].elapsed < s.plan.steps[i].timeoutS
    requires s.stored.Some? && GateVerdict(s.stored.value.steps).Approved?
    ensures var es := [Task(i, Poll(true)), Task(i, HandlerReturn)];
      && Legal(s, es) && After(s, es).approvals == s.approvals
      && |After(s, es).plan.steps| == |s.plan.steps| && After(s, es).plan.steps[i].status.Succeeded?
  {
    Start(s, i);
    var es := Segment(s, [], i, Poll(true), s.plan.steps[i].status, s.phases[i]);
    es := Segment(s, es, i, HandlerReturn, s.plan.steps[i].status, Answered(true));
    assert es == [Task(i, Poll(true)), Task(i, HandlerReturn)];
  }

  /** In this run, gate g has not passed without its own approval. */
  ghost predicate Owned(p: Plan, stored: Option<Plan>, es: seq<Event>, g: nat) {
    Legal(Init(p, stored), es) && g < |p.steps| && p.steps[g].isApprovalGate ==>
      var s := After(Init(p, stored), es);
      g < |s.plan.steps| && (s.plan.steps[g].status.Succeeded? ==> g in s.approvals)
  }

  ghost predicate TwoGates(p: Plan, a: nat, b: nat) {
    a < b < |p.steps| && p.steps[a].isApprovalGate && p.steps[b].isApprovalGate
  }

  /** Every gate needs its own approval, in all runs, exactly when no gate is handled by a service
      and the plan has no two gates. */
  lemma OwnApprovalIff(p: Plan, stored: Option<Plan>, depth: seq<nat>)
    requires p.AllPending() && UniqueIds(p) && IsDepth(p, depth) && Runnable(p)
    requires stored == None || stored == Some(p)
    ensures (forall es, g: nat :: Owned(p, stored, es, g))
       <==> HumanGates(p) && forall a: nat, b: nat :: !TwoGates(p, a, b)
  {
    if !HumanGates(p) {
      var g: nat :| g < |p.steps| && p.steps[g].isApprovalGate && HandlerFor(p.steps[g].action).Service?;
      var es := GatedRunExists(p, stored, depth);
      var s := After(Init(p, stored), es);
      assert s.plan.steps[g].status.Succeeded? && !FirstGate(p, depth, g);
      assert g !in s.approvals;
      assert !Owned(p, stored, es, g);
    } else if a: nat, b: nat :| TwoGates(p, a, b) {
      var es := GatedRunExists(p, stored, depth);
      var s := After(Init(p, stored), es);
      assert s.plan.steps[a].status.Succeeded? && s.plan.steps[b].status.Succeeded?;
      assert !Owned(p, stored, es, a) || !Owned(p, stored, es, b);
    } else {
      forall es, g: nat | Legal(Init(p, stored), es) && g < |p.steps| && p.steps[g].isApprovalGate
        ensures Owned(p, stored, es, g)
      {
        assert forall i: nat :: i < |p.steps| && p.steps[i].isApprovalGate && i != g ==>
          TwoGates(p, i, g) || TwoGates(p, g, i);
        OnlyGateNeedsItsApproval(p, stored, es, g);
      }
    }
  }

  // ----- what happens without any approval --------------------------------------------------

  /** A service-handled gate no deeper than step h has succeeded. */
  ghost predicate Opened(q: Plan, depth: seq<nat>, h: nat)
    requires h < |q.steps| == |depth|
  {
    exists g :: 0 <= g < |q.steps| && ServiceGate(q.steps[g]) && q.steps[g].status.Succeeded? && depth[g] <= depth[h]
  }

  /** Whatever gate has passed in the copy has passed in the runner's plan. */
  ghost predicate Lags(q: Plan, copy: Plan) {
    && |copy.steps| == |q.steps|
    && forall i :: 0 <= i < |q.steps| && copy.steps[i].isApprovalGate && copy.steps[i].status.Succeeded? ==>
         q.steps[i].isApprovalGate && q.steps[i].status.Succeeded?
  }

  /** No step that a service does not handle has passed, or is about to, unless a service's gate
      opened the way; and no copy is ahead of the runner's plan. */
  ghost predicate Unaided(s: State, depth: seq<nat>) {
    && Placed(s, depth) && History(s)
    && (s.stored.Some? ==> Lags(s.plan, s.stored.value))
    && (forall j :: 0 <= j < |s.requests| ==> Lags(s.plan, s.requests[j]))
    && (forall i :: 0 <= i < |s.phases| && s.phases[i].GateSaving? ==> Lags(s.plan, s.phases[i].blob))
    && (forall i :: 0 <= i < |s.phases| && s.phases[i].Handling? ==> HandlerFor(s.plan.steps[i].action).Service?)
    && (forall i :: 0 <= i < |s.phases| && PassesBySight(s, i) ==> Opened(s.plan, depth, i))
  }

  /** Step i has passed without a service, or has been told that it may. */
  predicate PassesBySight(s: State, i: nat)
    requires i < |s.phases| == |s.plan.steps|
  {
    s.phases[i] == Answered(true) || (s.plan.steps[i].status.Succeeded? && !HandlerFor(s.plan.steps[i].action).Service?)
  }

  lemma LagsLater(q: Plan, r: Plan, copy: Plan)
    requires Lags(q, copy) && Evolves(q, r)
    ensures Lags(r, copy)
  {
    assert forall i :: 0 <= i < |q.steps| ==> q.steps[i].SameStep(r.steps[i]);
  }

  lemma OpenedLater(q: Plan, r: Plan, depth: seq<nat>, h: nat)
    requires h < |q.steps| == |depth| && Opened(q, depth, h) && Evolves(q, r)
    ensures Opened(r, depth, h)
  {
    var g :| 0 <= g < |q.steps| && ServiceGate(q.steps[g]) && q.steps[g].status.Succeeded? && depth[g] <= depth[h];
    assert q.steps[g].SameStep(r.steps[g]);
  }

  /** A gate that has passed is no deeper than a step still at work. */
  lemma NoDeeper(s: State, depth: seq<nat>, a: nat, i: nat)
    requires Placed(s, depth) && History(s) && a < |s.phases| && i < |s.phases|
    requires !s.phases[a].Idle? && !s.phases[i].Idle? && !s.phases[i].Done?
    ensures depth[a] <= depth[i]
  {
    assert InPlace(s, depth, |s.rounds| - 1);
  }

  /** A poll that concludes approval has seen a gate, and so the way has been opened. */
  lemma PollSeesOpened(s: State, depth: seq<nat>, i: nat)
    requires Unaided(s, depth) && i < |s.phases| && s.phases[i].Polling?
    requires s.stored.Some? && GateVerdict(s.stored.value.steps).Approved?
    ensures Opened(s.plan, depth, i)
  {
    var copy := s.stored.value;
    VerdictNeedsGate(copy.steps);
    var a :| 0 <= a < |copy.steps| && copy.steps[a].isApprovalGate && copy.steps[a].status.Succeeded?;
    assert s.plan.steps[a].isApprovalGate && s.plan.steps[a].status.Succeeded?;
    assert PhaseOk(s.plan.steps[a], s.phases[a]);
    NoDeeper(s, depth, a, i);
    if !ServiceGate(s.plan.steps[a]) {
      assert PassesBySight(s, a);
      var g :| 0 <= g < |s.plan.steps| && ServiceGate(s.plan.steps[g]) && s.plan.steps[g].status.Succeeded?
        && depth[g] <= depth[a];
    }
  }

  lemma TaskLocalUnaided(s: State, depth: seq<nat>, i: nat, act: Act)
    requires Unaided(s, depth) && TaskEnabled(s, i, act)
    ensures var ef := TaskEffect(s, i, act);
      && (ef.phase.Handling? ==> HandlerFor(s.plan.steps[i].action).Service?)
      && (ef.phase.GateSaving? ==> Lags(s.plan, ef.phase.blob))
      && (ef.phase == Answered(true) || (ef.status.Succeeded? && !HandlerFor(s.plan.steps[i].action).Service?) ==>
            Opened(s.plan, depth, i))
  {
    assert PhaseOk(s.plan.steps[i], s.phases[i]);
    if act.Poll? && s.stored.Some? && GateVerdict(s.stored.value.steps).Approved? { PollSeesOpened(s, depth, i); }
    assert s.phases[i] == Answered(true) || s.plan.steps[i].status.Succeeded? ==>
      HandlerFor(s.plan.steps[i].action).Service? || PassesBySight(s, i);
  }

  lemma TaskKeepsUnaided(s: State, depth: seq<nat>, i: nat, act: Act)
    requires Unaided(s, depth) && TaskEnabled(s, i, act)
    ensures Unaided(Apply(s, Task(i, act)), depth)
  {
    var e := Task(i, act);
    var t, ef := Apply(s, e), TaskEffect(s, i, act);
    ApplyKeepsPlaced(s, depth, e);
    ApplyKeepsHistory(s, e);
    ApplyKeepsInv(s, e);
    TaskLocalUnaided(s, depth, i, act);
    assert t.phases == s.phases[i := ef.phase] && t.plan.steps[i].status == ef.status;
    if t.stored.Some? { LagsLater(s.plan, t.plan, t.stored.value); }
    forall j | 0 <= j < |t.requests| ensures Lags(t.plan, t.requests[j]) { LagsLater(s.plan, t.plan, s.requests[j]); }
    forall k | 0 <= k < |t.phases| && t.phases[k].GateSaving? ensures Lags(t.plan, t.phases[k].blob) {
      LagsLater(s.plan, t.plan, t.phases[k].blob);
    }
    forall k | 0 <= k < |t.phases| && PassesBySight(t, k) ensures Opened(t.plan, depth, k) {
      assert s.plan.steps[k].SameStep(t.plan.steps[k]);
      assert k != i ==> PassesBySight(s, k);
      OpenedLater(s.plan, t.plan, depth, k);
    }
  }

  lemma NothingToApprove(copy: Plan)
    requires WaitingGates(copy) == {}
    ensures ApproveCopy(copy).steps == copy.steps
  {
    forall i | 0 <= i < |copy.steps| ensures ApproveCopy(copy).steps[i] == copy.steps[i] {
      assert i !in WaitingGates(copy);
    }
  }

  /** Events between batches and operator events leave the steps as they are. */
  lemma OthersKeepSteps(s: State, e: Event)
    requires Enabled(s, e) && !e.Task?
    ensures Apply(s, e).plan.steps == s.plan.steps && |Apply(s, e).phases| == |s.phases|
    ensures forall i :: 0 <= i < |s.phases| && !Apply(s, e).phases[i].NotStarted? ==>
              Apply(s, e).phases[i] == s.phases[i]
  {
  }

  lemma OthersKeepUnaided(s: State, depth: seq<nat>, e: Event)
    requires Unaided(s, depth) && Enabled(s, e) && !e.Task? && Apply(s, e).approvals == {}
    ensures Unaided(Apply(s, e), depth)
  {
    var t := Apply(s, e);
    ApplyKeepsPlaced(s, depth, e);
    ApplyKeepsHistory(s, e);
    OthersKeepSteps(s, e);
    if e.OpApprove? {
      assert WaitingGates(s.stored.value) <= t.approvals;
      NothingToApprove(s.stored.value);
    }
    forall k | 0 <= k < |t.phases| && PassesBySight(t, k) ensures Opened(t.plan, depth, k) {
      assert PassesBySight(s, k);
    }
  }

  lemma {:induction false} ApprovalsGrow(s: State, es: seq<Event>)
    requires Legal(s, es)
    ensures s.approvals <= After(s, es).approvals
    decreases |es|
  {
    if es != [] { ApprovalsGrow(Apply(s, es[0]), es[1..]); }
  }

  lemma {:induction false} RunKeepsUnaided(s: State, depth: seq<nat>, es: seq<Event>)
    requires Unaided(s, depth) && Legal(s, es) && After(s, es).approvals == {}
    ensures Unaided(After(s, es), depth)
    decreases |es|
  {
    if es != [] {
      var e := es[0];
      ApprovalsGrow(Apply(s, e), es[1..]);
      if e.Task? { TaskKeepsUnaided(s, depth, e.i, e.act); } else { OthersKeepUnaided(s, depth, e); }
      RunKeepsUnaided(Apply(s, e), depth, es[1..]);
    }
  }

  lemma InitUnaided(p: Plan, stored: Option<Plan>, depth: seq<nat>)
    requires p.AllPending() && UniqueIds(p) && IsDepth(p, depth) && (stored == None || stored == Some(p))
    ensures Unaided(Init(p, stored), depth)
  {
    InitInv(p, stored);
    RoundsWithinLayers(p, stored, depth, []);
  }

  /** In every run without an approve call that found a waiting gate, whatever fails: a step that a
      human handles has succeeded only if a gate handled by a service, no deeper than it, has. */
  lemma UnapprovedNeedsServiceGate(p: Plan, stored: Option<Plan>, depth: seq<nat>, es: seq<Event>, h: nat)
    requires p.AllPending() && UniqueIds(p) && IsDepth(p, depth) && (stored == None || stored == Some(p))
    requires Legal(Init(p, stored), es) && After(Init(p, stored), es).approvals == {}
    requires h < |p.steps| && HandlerFor(p.steps[h].action).Human?
    ensures var q := After(Init(p, stored), es).plan;
      p.SameShape(q) && (q.steps[h].status.Succeeded? ==> Opened(q, depth, h))
  {
    var s0 := Init(p, stored);
    InitInv(p, stored);
    InitUnaided(p, stored, depth);
    RunKeepsUnaided(s0, depth, es);
    RunKeepsInv(s0, es);
    var s := After(s0, es);
    assert p.steps[h].SameStep(s.plan.steps[h]);
    if s.plan.steps[h].status.Succeeded? { assert PassesBySight(s, h); }
  }

  ghost predicate ServedBy(p: Plan, depth: seq<nat>, h: nat)
    requires h < |p.steps| == |depth|
  {
    exists g :: 0 <= g < |p.steps| && ServiceGate(p.steps[g]) && depth[g] <= depth[h]
  }

  /** Each step that a human handles has a service-handled gate at its own depth or above. */
  ghost predicate AllServed(p: Plan, depth: seq<nat>)
    requires |p.steps| == |depth|
  {
    forall h :: 0 <= h < |p.steps| && HandlerFor(p.steps[h].action).Human? ==> ServedBy(p, depth, h)
  }

  ghost predicate CompletesUnapproved(p: Plan, stored: Option<Plan>, es: seq<Event>) {
    && Legal(Init(p, stored), es)
    && var s := After(Init(p, stored), es);
       s.control.Returned? && s.plan.status.Succeeded? && AllSucceeded(s.plan) && s.approvals == {}
  }

  /** Then the gates of services pass by themselves and open all the others. */
  lemma ServiceGatesReplaceApprovals(p: Plan, stored: Option<Plan>, depth: seq<nat>) returns (es: seq<Event>)
    requires p.AllPending() && UniqueIds(p) && IsDepth(p, depth) && Runnable(p) && AllServed(p, depth)
    ensures CompletesUnapproved(p, stored, es)
  {
    es := GatedRunExists(p, stored, depth);
    forall a: nat ensures !FirstGate(p, depth, a) {
      if a < |p.steps| && HandlerFor(p.steps[a].action).Human? { assert ServedBy(p, depth, a); }
    }
    assert After(Init(p, stored), es).approvals == {};
  }

  /** Some run completes a plan without any approval, if and only if each step that a human handles
      has a gate handled by a service at its own dependency depth or above. */
  lemma UnapprovedRunIff(p: Plan, stored: Option<Plan>, depth: seq<nat>)
    requires p.AllPending() && UniqueIds(p) && IsDepth(p, depth) && Runnable(p)
    requires stored == None || stored == Some(p)
    ensures (exists es :: CompletesUnapproved(p, stored, es)) <==> AllServed(p, depth)
  {
    if es :| CompletesUnapproved(p, stored, es) {
      var q := After(Init(p, stored), es).plan;
      forall h | 0 <= h < |p.steps| && HandlerFor(p.steps[h].action).Human? ensures ServedBy(p, depth, h) {
        UnapprovedNeedsServiceGate(p, stored, depth, es, h);
        assert p.steps[h].SameStep(q.steps[h]);
        var g :| 0 <= g < |q.steps| && ServiceGate(q.steps[g]) && depth[g] <= depth[h];
        assert p.steps[g].SameStep(q.steps[g]);
      }
    }
    if AllServed(p, depth) {
      var es := ServiceGatesReplaceApprovals(p, stored, depth);
    }
  }

  /** Two gates without dependencies, the second one for a human. */
  function AlertAndHandoff(): Plan {
    Plan("plan", [PlanStep("s0", "send_alert", [], 60, Rollback, true, StepStatus.Pending),
                  PlanStep("s1", "human_handoff", [], 1800, Abort, true, StepStatus.Pending)], [], PlanStatus.Created)
  }

  /** So an alert that is marked as a gate lets the hand-over beside it pass by itself. */
  lemma AlertOpensHandoff() returns (es: seq<Event>)
    ensures CompletesUnapproved(AlertAndHandoff(), None, es)
  {
    var p, depth: seq<nat> := AlertAndHandoff(), [0, 0];
    assert DepthAt(p, depth, 0) && DepthAt(p, depth, 1);
    assert ServiceGate(p.steps[0]) && depth[0] <= depth[1];
    es := ServiceGatesReplaceApprovals(p, None, depth);
  }
}
