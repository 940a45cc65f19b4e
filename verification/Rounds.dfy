/** Counting rounds and handler calls over whole runs, and what a plan that returns
    while still RUNNING must look like. */
module Rounds {
  import opened Wrappers
  import opened PlanSchema
  import opened Protocol
  import opened DependencySafety

  function Flat(rounds: seq<seq<nat>>): seq<nat> {
    if rounds == [] then [] else Flat(rounds[..|rounds| - 1]) + rounds[|rounds| - 1]
  }

  lemma FlatPush(rounds: seq<seq<nat>>, r: seq<nat>)
    ensures Flat(rounds + [r]) == Flat(rounds) + r
  {
    assert (rounds + [r])[..|rounds|] == rounds;
  }

  /** A handler has been, or will no longer be, invoked for a step in this phase. */
  predicate PastCall(ph: Phase) {
    !ph.Idle? && !ph.NotStarted? && !ph.GateSaving?
  }

  /** Every step was put in at most one batch, and called at most once. */
  ghost predicate Ledger(s: State) {
    && Inv(s)
    && NoDup(Flat(s.rounds))
    && (forall i :: i in Flat(s.rounds) <==> 0 <= i < |s.phases| && !s.phases[i].Idle?)
    && (forall k :: 0 <= k < |s.rounds| ==> s.rounds[k] != [])
    && NoDup(s.calls)
    && (forall i :: i in s.calls ==> 0 <= i < |s.phases| && PastCall(s.phases[i]))
  }

  lemma NoDupConcat<T>(a: seq<T>, b: seq<T>)
    requires NoDup(a) && NoDup(b) && forall x :: x in a ==> x !in b
    ensures NoDup(a + b)
  {
    forall i, j | 0 <= i < j < |a + b| ensures (a + b)[i] != (a + b)[j] {
      if i < |a| <= j {
        assert (a + b)[i] == a[i] && a[i] in a;
        assert (a + b)[j] == b[j - |a|] && b[j - |a|] in b;
      }
    }
  }

  lemma TaskKeepsLedger(s: State, i: nat, act: Act)
    requires Ledger(s) && TaskEnabled(s, i, act)
    ensures Ledger(Apply(s, Task(i, act)))
  {
    TaskKeepsInv(s, i, act);
    EffectOk(s, i, act);
    if TaskEffect(s, i, act).called {
      assert i !in s.calls;
      NoDupConcat(s.calls, [i]);
    }
    var s' := Apply(s, Task(i, act));
    assert s'.rounds == s.rounds;
    forall j ensures j in Flat(s'.rounds) <==> 0 <= j < |s'.phases| && !s'.phases[j].Idle? {
      assert 0 <= j < |s.phases| ==> s'.phases[j].Idle? == s.phases[j].Idle?;
    }
  }

  /** The steps of a new batch are in no earlier one. */
  lemma NewBatchIsNew(s: State)
    requires Ledger(s) && BatchDone(s.phases)
    ensures var ready := s.plan.ReadySteps();
      && NoDup(Flat(s.rounds) + ready)
      && forall i :: i in Flat(s.rounds) + ready <==> i in Flat(s.rounds) || i in ready
    ensures forall i :: i in s.plan.ReadySteps() ==> 0 <= i < |s.phases| && s.phases[i].Idle?
  {
    var ready := s.plan.ReadySteps();
    ReadyStepsSpec(s.plan);
    forall i | i in ready ensures 0 <= i < |s.phases| && s.phases[i].Idle? && i !in Flat(s.rounds) {
      assert s.plan.Ready(i) && PhaseOk(s.plan.steps[i], s.phases[i]);
    }
    NoDupConcat(Flat(s.rounds), ready);
  }

  lemma LoopTopKeepsLedger(s: State)
    requires Ledger(s) && BatchDone(s.phases)
    ensures Ledger(LoopTop(s))
  {
    LoopTopKeepsInv(s);
    NewBatchIsNew(s);
    FlatPush(s.rounds, s.plan.ReadySteps());
  }

  lemma ApplyKeepsLedger(s: State, e: Event)
    requires Ledger(s) && Enabled(s, e)
    ensures Ledger(Apply(s, e))
  {
    ApplyKeepsInv(s, e);
    match e
    case Task(i, act) => TaskKeepsLedger(s, i, act);
    case MainSave =>
      var s' := s.(stored := Some(s.plan));
      assert Ledger(s');
      if s.control.Saving? { LoopTopKeepsLedger(s'); }
    case _ =>
  }

  lemma {:induction false} RunKeepsLedger(s: State, es: seq<Event>)
    requires Ledger(s) && Legal(s, es)
    ensures Ledger(After(s, es))
    decreases |es|
  {
    if es != [] {
      ApplyKeepsLedger(s, es[0]);
      RunKeepsLedger(Apply(s, es[0]), es[1..]);
    }
  }

  ghost function Elements(s: seq<nat>): set<nat> {
    set x | x in s
  }

  lemma DistinctBelow(s: seq<nat>, n: nat)
    requires NoDup(s) && forall x :: x in s ==> x < n
    ensures |s| <= n
  {
    var below: seq<nat> := seq(n, i => i);
    SetOfNoDup(s);
    SetOfNoDup(below);
    assert forall x :: x in s ==> below[x] == x;
    SubsetCard(Elements(s), Elements(below));
  }

  lemma {:induction false} SetOfNoDup(s: seq<nat>)
    requires NoDup(s)
    ensures |Elements(s)| == |s|
  {
    if s != [] {
      var front := s[..|s| - 1];
      SetOfNoDup(front);
      assert s == front + [s[|s| - 1]];
      assert Elements(s) == Elements(front) + {s[|s| - 1]};
    }
  }

  lemma SubsetCard<T>(a: set<T>, b: set<T>)
    requires a <= b
    ensures |a| <= |b|
  {
    assert b == a + (b - a);
  }

  lemma {:induction false} RoundsAtMostFlat(rounds: seq<seq<nat>>)
    requires forall k :: 0 <= k < |rounds| ==> rounds[k] != []
    ensures |rounds| <= |Flat(rounds)|
  {
    if rounds != [] { RoundsAtMostFlat(rounds[..|rounds| - 1]); }
  }

  /** In every run from an all-pending plan of n steps there are at most n rounds, no
      position is in two rounds, and no handler is invoked twice. */
  lemma RoundsAndCallsBounded(p: Plan, stored: Option<Plan>, es: seq<Event>)
    requires p.AllPending() && Legal(Init(p, stored), es)
    ensures var s := After(Init(p, stored), es);
      && |s.rounds| <= |p.steps|
      && NoDup(Flat(s.rounds)) && (forall k :: 0 <= k < |s.rounds| ==> s.rounds[k] != [])
      && NoDup(s.calls) && |s.calls| <= |p.steps|
  {
    InitInv(p, stored);
    RunKeepsLedger(Init(p, stored), es);
    RunKeepsInv(Init(p, stored), es);
    var s := After(Init(p, stored), es);
    RoundsAtMostFlat(s.rounds);
    DistinctBelow(Flat(s.rounds), |p.steps|);
    DistinctBelow(s.calls, |p.steps|);
  }

  /** Between rounds the pending steps are exactly those of no round so far, so each round,
      being non-empty and new, strictly shrinks the pending set. */
  lemma PendingBetweenRounds(p: Plan, stored: Option<Plan>, es: seq<Event>, i: nat)
    requires p.AllPending() && Legal(Init(p, stored), es) && i < |p.steps|
    requires !After(Init(p, stored), es).control.InBatch?
    ensures var s := After(Init(p, stored), es);
      && |s.plan.steps| == |p.steps|
      && (s.plan.steps[i].status.Pending? <==> i !in Flat(s.rounds))
  {
    InitInv(p, stored);
    RunKeepsLedger(Init(p, stored), es);
    RunKeepsInv(Init(p, stored), es);
    var s := After(Init(p, stored), es);
    assert PhaseOk(s.plan.steps[i], s.phases[i]);
  }

  // ----- what a returned plan looks like -----------------------------------

  /** `rank` decreases along every dependency, and every dependency names a step. */
  ghost predicate Acyclic(p: Plan, rank: map<string, nat>) {
    forall i, d {:trigger d in p.steps[i].dependsOn} :: 0 <= i < |p.steps| && d in p.steps[i].dependsOn ==>
      && Named(p, d)
      && p.steps[i].stepId in rank && d in rank && rank[d] < rank[p.steps[i].stepId]
  }

  ghost predicate Named(p: Plan, d: string) {
    exists j :: 0 <= j < |p.steps| && p.steps[j].stepId == d
  }

  /** `execute` came back; the last clause is the stuck case. */
  ghost predicate ReturnOk(s: State) {
    s.control.Returned? && s.plan.status.Running? ==> !s.plan.IsComplete() && s.plan.ReadySteps() == []
  }

  lemma {:induction false} RunKeepsReturnOk(s: State, es: seq<Event>)
    requires ReturnOk(s) && (s.control.FinalSaving? ==> s.plan.status.Succeeded?) && Legal(s, es)
    ensures ReturnOk(After(s, es))
    decreases |es|
  {
    if es != [] {
      RunKeepsReturnOk(Apply(s, es[0]), es[1..]);
    }
  }

  lemma {:induction false} PendingHasReadyAncestor(p: Plan, rank: map<string, nat>, i: nat)
    requires Acyclic(p, rank) && i < |p.steps| && p.steps[i].status.Pending?
    requires forall j :: 0 <= j < |p.steps| ==> p.steps[j].status.Pending? || p.steps[j].status.Succeeded?
    ensures p.ReadySteps() != []
    decreases if p.steps[i].stepId in rank then rank[p.steps[i].stepId] else 0
  {
    ReadyStepsSpec(p);
    if p.Ready(i) {
      assert i in p.ReadySteps();
    } else {
      var d :| d in p.steps[i].dependsOn && !p.SucceededId(d);
      var j :| 0 <= j < |p.steps| && p.steps[j].stepId == d;
      PendingHasReadyAncestor(p, rank, j);
    }
  }

  /** `execute` returns RUNNING only for an incomplete plan with no ready step, and if the
      dependencies are acyclic and all named then some step has failed. */
  lemma StuckReturn(p: Plan, stored: Option<Plan>, es: seq<Event>, rank: map<string, nat>)
    requires p.AllPending() && Legal(Init(p, stored), es)
    requires After(Init(p, stored), es).control.Returned?
    requires After(Init(p, stored), es).plan.status.Running?
    ensures var q := After(Init(p, stored), es).plan;
      && !q.IsComplete() && q.ReadySteps() == []
      && (Acyclic(p, rank) ==> exists i :: 0 <= i < |q.steps| && q.steps[i].status.Failed?)
  {
    InitInv(p, stored);
    RunKeepsInv(Init(p, stored), es);
    RunKeepsReturnOk(Init(p, stored), es);
    var s := After(Init(p, stored), es);
    var q := s.plan;
    if Acyclic(p, rank) && forall i :: 0 <= i < |q.steps| ==> !q.steps[i].status.Failed? {
      forall i | 0 <= i < |q.steps| ensures q.steps[i].status.Pending? || q.steps[i].status.Succeeded? {
        assert PhaseOk(q.steps[i], s.phases[i]);
      }
      AcyclicShape(p, q, rank);
      var i :| 0 <= i < |q.steps| && !q.steps[i].status.Succeeded?;
      PendingHasReadyAncestor(q, rank, i);
      assert false;
    }
  }

  lemma AcyclicShape(p: Plan, q: Plan, rank: map<string, nat>)
    requires Acyclic(p, rank) && p.SameShape(q)
    ensures Acyclic(q, rank)
  {
    forall i, d {:trigger d in q.steps[i].dependsOn} | 0 <= i < |q.steps| && d in q.steps[i].dependsOn
      ensures Named(q, d)
      ensures q.steps[i].stepId in rank && d in rank && rank[d] < rank[q.steps[i].stepId]
    {
      assert p.steps[i].SameStep(q.steps[i]);
      assert d in p.steps[i].dependsOn;
      var j :| 0 <= j < |p.steps| && p.steps[j].stepId == d;
      assert p.steps[j].SameStep(q.steps[j]);
    }
  }
}
