/** The undisturbed run: with acyclic, fully named dependencies and handlers that all succeed,
    round k runs exactly the steps of dependency depth k, whatever the interleaving. */
module Layers {
  import opened Wrappers
  import opened PlanSchema
  import opened Protocol
  import opened DependencySafety
  import opened Rounds

  ghost predicate UniqueIds(p: Plan) {
    forall i, j :: 0 <= i < j < |p.steps| ==> p.steps[i].stepId != p.steps[j].stepId
  }

  /** `i` depends on `j`. */
  ghost predicate DependsOn(p: Plan, i: nat, j: nat)
    requires i < |p.steps| && j < |p.steps|
  {
    p.steps[j].stepId in p.steps[i].dependsOn
  }

  /** `depth` is the dependency depth: 0 without dependencies, else one more than the deepest. */
  ghost predicate IsDepth(p: Plan, depth: seq<nat>) {
    && |depth| == |p.steps|
    && (forall i :: 0 <= i < |p.steps| ==> DepthAt(p, depth, i))
  }

  ghost predicate DepthAt(p: Plan, depth: seq<nat>, i: nat)
    requires i < |p.steps| == |depth|
  {
    && (forall d :: d in p.steps[i].dependsOn ==> Named(p, d))
    && (forall j :: 0 <= j < |p.steps| && DependsOn(p, i, j) ==> depth[j] < depth[i])
    && (depth[i] > 0 ==> exists j :: 0 <= j < |p.steps| && DependsOn(p, i, j) && depth[j] == depth[i] - 1)
  }

  function Layer(depth: seq<nat>, k: nat): seq<nat> {
    Select(seq(|depth|, i requires 0 <= i < |depth| => depth[i] == k))
  }

  lemma LayerSpec(depth: seq<nat>, k: nat)
    ensures forall i :: i in Layer(depth, k) <==> 0 <= i < |depth| && depth[i] == k
  {
    SelectSpec(seq(|depth|, i requires 0 <= i < |depth| => depth[i] == k));
  }

  lemma LayerEmptyIff(depth: seq<nat>, k: nat)
    ensures Layer(depth, k) == [] <==> forall i :: 0 <= i < |depth| ==> depth[i] != k
  {
    LayerSpec(depth, k);
    if Layer(depth, k) != [] { assert Layer(depth, k)[0] in Layer(depth, k); }
  }

  /** Nothing goes wrong and no criterion ends the plan early. */
  predicate Smooth(e: Event) {
    match e
    case Task(_, HandlerFail) => false
    case Task(_, Throw) => false
    case Task(_, Criteria(fires)) => !fires
    case MainThrow => false
    case _ => true
  }

  predicate AllSmooth(es: seq<Event>) {
    forall k :: 0 <= k < |es| ==> Smooth(es[k])
  }

  predicate HandlersExist(p: Plan) {
    forall i :: 0 <= i < |p.steps| ==> !HandlerFor(p.steps[i].action).NoHandler?
  }

  /** The step that acts, if any, has a handler. */
  predicate Handled(p: Plan, e: Event) {
    e.Task? && e.i < |p.steps| ==> !HandlerFor(p.steps[e.i].action).NoHandler?
  }

  predicate AllHandled(p: Plan, es: seq<Event>) {
    forall k :: 0 <= k < |es| ==> Handled(p, es[k])
  }

  lemma StaysHandled(p: Plan, q: Plan, es: seq<Event>)
    requires p.SameShape(q) && AllHandled(p, es)
    ensures AllHandled(q, es)
  {
    forall k | 0 <= k < |es| ensures Handled(q, es[k]) {
      assert Handled(p, es[k]);
      if es[k].Task? && es[k].i < |p.steps| { assert p.steps[es[k].i].SameStep(q.steps[es[k].i]); }
    }
  }

  predicate AwaitingHandler(ph: Phase) {
    ph.Handling? || ph.Polling? || ph.Answered?
  }

  ghost predicate GateWaits(s: State) {
    exists i :: 0 <= i < |s.phases| && i < |s.plan.steps| && s.plan.steps[i].isApprovalGate
      && AwaitingHandler(s.phases[i])
  }

  predicate SmoothPhase(ph: Phase) {
    !ph.Raised? && !ph.Closing?
  }

  /** Rounds 0..n-1 were layers 0..n-1; deeper steps have not been touched. */
  ghost predicate Layered(s: State, depth: seq<nat>) {
    && Inv(s) && IsDepth(s.plan, depth) && UniqueIds(s.plan) && !s.control.Crashed?
    && (forall i :: 0 <= i < |s.phases| ==> SmoothPhase(s.phases[i]) && !s.plan.steps[i].status.Failed?)
    && (forall k :: 0 <= k < |s.rounds| ==> s.rounds[k] == Layer(depth, k))
    && (forall i :: 0 <= i < |s.phases| ==> (s.phases[i].Idle? <==> depth[i] >= |s.rounds|))
    && (s.control.Saving? || s.control.InBatch? ==> s.plan.status.Running? || s.plan.status.AwaitingApproval?)
    && (s.control.Saving? || s.control.InBatch? ==> (s.plan.status.AwaitingApproval? ==> GateWaits(s)))
    && (s.control.InBatch? ==> forall i :: 0 <= i < |s.phases| && depth[i] < |s.rounds| - 1 ==> s.phases[i].Done?)
    && (s.control.InBatch? ==> s.rounds != [])
    && (s.control.FinalSaving? || s.control.Returned? ==> s.plan.status.Succeeded? && AllSucceeded(s.plan))
    && (forall k :: 0 <= k < |s.rounds| ==> s.rounds[k] != [])
  }

  ghost predicate AllSucceeded(p: Plan) {
    forall i :: 0 <= i < |p.steps| ==> p.steps[i].status.Succeeded?
  }

  lemma ShapeKeepsDepth(p: Plan, q: Plan, depth: seq<nat>)
    requires p.SameShape(q) && IsDepth(p, depth)
    ensures IsDepth(q, depth)
    ensures UniqueIds(p) ==> UniqueIds(q)
  {
    assert forall i :: 0 <= i < |p.steps| ==> p.steps[i].SameStep(q.steps[i]);
    forall i | 0 <= i < |q.steps| ensures DepthAt(q, depth, i) {
      assert DepthAt(p, depth, i);
      forall j | 0 <= j < |q.steps| ensures DependsOn(q, i, j) == DependsOn(p, i, j) {
        assert p.steps[i].SameStep(q.steps[i]) && p.steps[j].SameStep(q.steps[j]);
      }
      forall d | d in q.steps[i].dependsOn ensures Named(q, d) {
        var j :| 0 <= j < |p.steps| && p.steps[j].stepId == d;
        assert q.steps[j].stepId == d;
      }
    }
  }

  lemma SmoothEffect(s: State, depth: seq<nat>, i: nat, act: Act)
    requires Layered(s, depth) && TaskEnabled(s, i, act) && Smooth(Task(i, act)) && Handled(s.plan, Task(i, act))
    ensures var ef := TaskEffect(s, i, act);
      && SmoothPhase(ef.phase) && !ef.phase.Idle? && !ef.status.Failed? && !s.phases[i].Idle? && !s.phases[i].Done?
      && (ef.planStatus.Running? || ef.planStatus.AwaitingApproval?)
  {
  }

  lemma TaskKeepsLayered(s: State, depth: seq<nat>, i: nat, act: Act)
    requires Layered(s, depth) && TaskEnabled(s, i, act) && Smooth(Task(i, act)) && Handled(s.plan, Task(i, act))
    ensures Layered(Apply(s, Task(i, act)), depth)
  {
    var s' := Apply(s, Task(i, act));
    TaskKeepsInv(s, i, act);
    ShapeKeepsDepth(s.plan, s'.plan, depth);
    SmoothEffect(s, depth, i, act);
    var ef := TaskEffect(s, i, act);
    assert s'.phases == s.phases[i := ef.phase] && s'.plan.steps[i].status == ef.status
      && s'.plan.status == ef.planStatus;
    if s'.plan.status.AwaitingApproval? { TaskKeepsGateWaits(s, depth, i, act); }
  }

  lemma TaskKeepsGateWaits(s: State, depth: seq<nat>, i: nat, act: Act)
    requires Layered(s, depth) && TaskEnabled(s, i, act) && Smooth(Task(i, act)) && Handled(s.plan, Task(i, act))
    requires Apply(s, Task(i, act)).plan.status.AwaitingApproval?
    ensures GateWaits(Apply(s, Task(i, act)))
  {
    var s' := Apply(s, Task(i, act));
    assert !HandlerFor(s.plan.steps[i].action).NoHandler? && PhaseOk(s.plan.steps[i], s.phases[i]);
    if act.GateResume? {
      assert AwaitingHandler(s'.phases[i]) && s'.plan.steps[i].isApprovalGate;
    } else {
      var g :| 0 <= g < |s.phases| && s.plan.steps[g].isApprovalGate && AwaitingHandler(s.phases[g]);
      assert AwaitingHandler(s'.phases[g]) && s'.plan.steps[g].isApprovalGate;
    }
  }

  /** With layers below k done and the rest untouched, the ready steps are layer k. */
  lemma ReadyIsLayer(p: Plan, depth: seq<nat>, k: nat)
    requires IsDepth(p, depth) && UniqueIds(p)
    requires forall i :: 0 <= i < |p.steps| ==>
      if depth[i] < k then p.steps[i].status.Succeeded? else p.steps[i].status.Pending?
    ensures p.ReadySteps() == Layer(depth, k)
  {
    forall i | 0 <= i < |p.steps| ensures p.Ready(i) <==> depth[i] == k {
      assert DepthAt(p, depth, i);
      if depth[i] == k {
        forall d | d in p.steps[i].dependsOn ensures p.SucceededId(d) {
          var j :| 0 <= j < |p.steps| && p.steps[j].stepId == d;
          assert DependsOn(p, i, j);
        }
      } else if depth[i] > k {
        var j :| 0 <= j < |p.steps| && DependsOn(p, i, j) && depth[j] == depth[i] - 1;
        assert !p.SucceededId(p.steps[j].stepId);
      }
    }
    assert seq(|p.steps|, i requires 0 <= i < |p.steps| => p.Ready(i))
        == seq(|depth|, i requires 0 <= i < |depth| => depth[i] == k);
  }

  lemma {:induction false} LayersContiguous(p: Plan, depth: seq<nat>, i: nat, k: nat)
    requires IsDepth(p, depth) && i < |depth| && k <= depth[i]
    ensures Layer(depth, k) != []
    decreases depth[i]
  {
    LayerSpec(depth, k);
    if depth[i] == k {
      assert i in Layer(depth, k);
    } else {
      assert DepthAt(p, depth, i);
      var j :| 0 <= j < |p.steps| && DependsOn(p, i, j) && depth[j] == depth[i] - 1;
      LayersContiguous(p, depth, j, k);
    }
  }

  lemma LoopTopKeepsLayered(s: State, depth: seq<nat>)
    requires Layered(s, depth) && s.control.Saving? && BatchDone(s.phases)
    ensures Layered(LoopTop(s), depth)
  {
    LoopTopKeepsInv(s);
    var s' := LoopTop(s);
    ShapeKeepsDepth(s.plan, s'.plan, depth);
    LoopTopSees(s, depth);
    LayerSpec(depth, |s.rounds|);
  }

  /** Between rounds the plan is RUNNING, the next layer is ready, and only a plan without one is
      complete. */
  lemma LoopTopSees(s: State, depth: seq<nat>)
    requires Layered(s, depth) && s.control.Saving? && BatchDone(s.phases)
    ensures s.plan.status.Running? && s.plan.ReadySteps() == Layer(depth, |s.rounds|)
    ensures s.plan.IsComplete() <==> Layer(depth, |s.rounds|) == []
    ensures s.plan.IsComplete() ==> AllSucceeded(s.plan)
  {
    var k := |s.rounds|;
    forall i | 0 <= i < |s.phases|
      ensures if depth[i] < k then s.plan.steps[i].status.Succeeded? else s.plan.steps[i].status.Pending?
    {
      assert PhaseOk(s.plan.steps[i], s.phases[i]);
    }
    ReadyIsLayer(s.plan, depth, k);
    LayerEmptyIff(depth, k);
    if i :| 0 <= i < |depth| && depth[i] >= k {
      LayersContiguous(s.plan, depth, i, k);
      assert !s.plan.steps[i].status.Succeeded? && !s.plan.steps[i].status.Skipped?;
    }
  }

  lemma ApplyKeepsLayered(s: State, depth: seq<nat>, e: Event)
    requires Layered(s, depth) && Enabled(s, e) && Smooth(e) && Handled(s.plan, e)
    ensures Layered(Apply(s, e), depth)
  {
    ApplyKeepsInv(s, e);
    match e
    case Task(i, act) => TaskKeepsLayered(s, depth, i, act);
    case MainSave =>
      var s' := s.(stored := Some(s.plan));
      assert GateWaits(s) == GateWaits(s');
      assert Layered(s', depth);
      if s.control.Saving? { LoopTopKeepsLayered(s', depth); }
    case BatchEnd => SameGates(s, Apply(s, e));
    case OpApprove => SameGates(s, Apply(s, e));
    case OpDelete => SameGates(s, Apply(s, e));
    case OpWrite(_) => SameGates(s, Apply(s, e));
    case MainThrow => assert false;
  }

  lemma SameGates(s: State, s': State)
    requires s.plan == s'.plan && s.phases == s'.phases
    ensures GateWaits(s) == GateWaits(s')
  {
  }

  lemma {:induction false} RunKeepsLayered(s: State, depth: seq<nat>, es: seq<Event>)
    requires Layered(s, depth) && Legal(s, es) && AllSmooth(es) && AllHandled(s.plan, es)
    ensures Layered(After(s, es), depth)
    decreases |es|
  {
    if es != [] {
      assert Smooth(es[0]) && Handled(s.plan, es[0]);
      ApplyKeepsLayered(s, depth, es[0]);
      ApplyKeepsInv(s, es[0]);
      StaysHandled(s.plan, Apply(s, es[0]).plan, es[1..]);
      RunKeepsLayered(Apply(s, es[0]), depth, es[1..]);
    }
  }

  /** A chain: each step depends on the one before it. */
  ghost predicate Chain(p: Plan, c: seq<nat>) {
    && (forall k :: 0 <= k < |c| ==> c[k] < |p.steps|)
    && (forall k :: 0 < k < |c| ==> DependsOn(p, c[k], c[k - 1]))
  }

  lemma {:induction false} ChainBelowDepth(p: Plan, depth: seq<nat>, c: seq<nat>)
    requires IsDepth(p, depth) && Chain(p, c) && c != []
    ensures |c| <= depth[c[|c| - 1]] + 1
  {
    if |c| > 1 {
      var front := c[..|c| - 1];
      ChainBelowDepth(p, depth, front);
      assert DepthAt(p, depth, c[|c| - 1]);
      assert DependsOn(p, c[|c| - 1], c[|c| - 2]);
    }
  }

  lemma {:induction false} ChainOfDepth(p: Plan, depth: seq<nat>, i: nat) returns (c: seq<nat>)
    requires IsDepth(p, depth) && i < |depth|
    ensures Chain(p, c) && |c| == depth[i] + 1 && c[|c| - 1] == i
    decreases depth[i]
  {
    if depth[i] == 0 {
      c := [i];
    } else {
      assert DepthAt(p, depth, i);
      var j :| 0 <= j < |p.steps| && DependsOn(p, i, j) && depth[j] == depth[i] - 1;
      var front := ChainOfDepth(p, depth, j);
      c := front + [i];
    }
  }

  /** In every undisturbed run round k is layer k; and when `execute` returns, every step,
      gates included, has succeeded, the plan is SUCCEEDED, and the number of rounds is the
      length of the longest dependency chain. */
  lemma RoundsAreLayers(p: Plan, stored: Option<Plan>, depth: seq<nat>, es: seq<Event>)
    requires p.AllPending() && UniqueIds(p) && IsDepth(p, depth) && HandlersExist(p)
    requires Legal(Init(p, stored), es) && AllSmooth(es)
    ensures var s := After(Init(p, stored), es);
      && p.SameShape(s.plan)
      && (forall k :: 0 <= k < |s.rounds| ==> s.rounds[k] == Layer(depth, k))
      && (s.control.Returned? ==>
            && s.plan.status.Succeeded? && AllSucceeded(s.plan)
            && (forall c :: Chain(p, c) ==> |c| <= |s.rounds|)
            && (exists c :: Chain(p, c) && |c| == |s.rounds|))
  {
    InitInv(p, stored);
    var s0 := Init(p, stored);
    ShapeKeepsDepth(p, s0.plan, depth);
    assert Layered(s0, depth);
    RunKeepsInv(s0, es);
    RunKeepsLayered(s0, depth, es);
    var s := After(s0, es);
    if s.control.Returned? {
      forall c | Chain(p, c) ensures |c| <= |s.rounds| {
        if c != [] {
          ChainBelowDepth(p, depth, c);
          assert PhaseOk(s.plan.steps[c[|c| - 1]], s.phases[c[|c| - 1]]);
        }
      }
      if s.rounds == [] {
        assert Chain(p, []);
      } else {
        var k := |s.rounds| - 1;
        LayerSpec(depth, k);
        var i := s.rounds[k][0];
        assert i in Layer(depth, k);
        var c := ChainOfDepth(p, depth, i);
      }
    }
  }

  // ----- every acyclic, fully named plan has a depth -------------------------

  /** Depth of step i, by recursion along the rank. */
  function DepthOf(p: Plan, rank: map<string, nat>, i: nat): nat
    requires Acyclic(p, rank) && i < |p.steps|
    decreases if p.steps[i].stepId in rank then rank[p.steps[i].stepId] else 0, 1, 0
  {
    DeepestBelow(p, rank, i, |p.steps|)
  }

  /** One more than the deepest dependency of i among steps 0..n-1. */
  function DeepestBelow(p: Plan, rank: map<string, nat>, i: nat, n: nat): nat
    requires Acyclic(p, rank) && i < |p.steps| && n <= |p.steps|
    decreases if p.steps[i].stepId in rank then rank[p.steps[i].stepId] else 0, 0, n
  {
    if n == 0 then 0
    else
      var rest := DeepestBelow(p, rank, i, n - 1);
      if p.steps[n - 1].stepId in p.steps[i].dependsOn then
        var d := DepthOf(p, rank, n - 1) + 1;
        if d > rest then d else rest
      else rest
  }

  lemma {:induction false} DeepestBelowSpec(p: Plan, rank: map<string, nat>, i: nat, n: nat)
    requires Acyclic(p, rank) && i < |p.steps| && n <= |p.steps|
    ensures forall j :: 0 <= j < n && DependsOn(p, i, j) ==> DepthOf(p, rank, j) < DeepestBelow(p, rank, i, n)
    ensures DeepestBelow(p, rank, i, n) > 0 ==>
              exists j :: 0 <= j < n && DependsOn(p, i, j) && DepthOf(p, rank, j) == DeepestBelow(p, rank, i, n) - 1
  {
    if n > 0 {
      DeepestBelowSpec(p, rank, i, n - 1);
      var rest := DeepestBelow(p, rank, i, n - 1);
      if DependsOn(p, i, n - 1) && DepthOf(p, rank, n - 1) + 1 > rest {
        assert DeepestBelow(p, rank, i, n) == DepthOf(p, rank, n - 1) + 1;
      } else {
        assert DeepestBelow(p, rank, i, n) == rest;
      }
    }
  }

  lemma AcyclicHasDepth(p: Plan, rank: map<string, nat>)
    requires Acyclic(p, rank)
    ensures IsDepth(p, seq(|p.steps|, i requires 0 <= i < |p.steps| => DepthOf(p, rank, i)))
  {
    var depth := seq(|p.steps|, i requires 0 <= i < |p.steps| => DepthOf(p, rank, i));
    forall i | 0 <= i < |p.steps| ensures DepthAt(p, depth, i) {
      DeepestBelowSpec(p, rank, i, |p.steps|);
    }
  }
}
