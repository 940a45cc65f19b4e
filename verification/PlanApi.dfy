/** The plan endpoints that change the stored copy: approve, delete and append
    (planning/api.py:78-139). */
module PlanApi {
  import opened Wrappers
  import opened PlanSchema
  import opened Protocol
  import opened Rounds
  import Generator

  // ----- step names -----------------------------------------------------------

  function Decimal(n: nat): string {
    if n < 10 then [Digit(n)] else Decimal(n / 10) + [Digit(n % 10)]
  }

  function Digit(d: nat): char
    requires d < 10
  {
    "0123456789"[d]
  }

  function DigitValue(c: char): nat {
    if c == '1' then 1 else if c == '2' then 2 else if c == '3' then 3 else if c == '4' then 4
    else if c == '5' then 5 else if c == '6' then 6 else if c == '7' then 7 else if c == '8' then 8
    else if c == '9' then 9 else 0
  }

  function DecimalValue(s: string): nat {
    if s == "" then 0 else 10 * DecimalValue(s[..|s| - 1]) + DigitValue(s[|s| - 1])
  }

  lemma {:induction false} DecimalRoundTrip(n: nat)
    ensures DecimalValue(Decimal(n)) == n
  {
    if n < 10 {
      assert [Digit(n)][..0] == "";
    } else {
      DecimalRoundTrip(n / 10);
      assert Decimal(n)[..|Decimal(n)| - 1] == Decimal(n / 10);
    }
  }

  /** The id `append` gives to step number n. */
  function StepName(n: nat): string {
    "s" + Decimal(n)
  }

  lemma StepNameInjective(a: nat, b: nat)
    requires StepName(a) == StepName(b)
    ensures a == b
  {
    assert StepName(a)[1..] == Decimal(a) && StepName(b)[1..] == Decimal(b);
    DecimalRoundTrip(a);
    DecimalRoundTrip(b);
  }

  // ----- append ---------------------------------------------------------------

  function Ids(p: Plan): seq<string> {
    seq(|p.steps|, i requires 0 <= i < |p.steps| => p.steps[i].stepId)
  }

  /** The step as it is appended: renamed and made to depend on the last step. */
  function Push(p: Plan, step: PlanStep): Plan {
    p.(steps := p.steps + [step.(
      stepId := StepName(|p.steps|),
      dependsOn := if p.steps == [] then [] else [p.steps[|p.steps| - 1].stepId])])
  }

  function FirstWith(steps: seq<PlanStep>, action: string): Option<PlanStep> {
    if steps == [] then None
    else if steps[0].action == action then Some(steps[0])
    else FirstWith(steps[1..], action)
  }

  function DefaultStep(action: string): PlanStep {
    PlanStep("", action, [], 60, Rollback, false, StepStatus.Pending)
  }

  /** A source plan that lacks the action appends nothing; a missing one, a default step. */
  function Appended(p: Plan, from: Option<Plan>, action: string): Plan {
    match from
    case None => Push(p, DefaultStep(action))
    case Some(q) =>
      match FirstWith(q.steps, action)
      case None => p
      case Some(step) => Push(p, step)
  }

  type Store = map<string, Plan>

  function Get(store: Store, id: string): Option<Plan> {
    if id in store then Some(store[id]) else None
  }

  function AppendIn(store: Store, id: string, action: string, fromId: string): Store {
    if id in store then store[id := Appended(store[id], Get(store, fromId), action)] else store
  }

  function DeleteIn(store: Store, id: string): Store {
    if id in store then store[id := DeleteCopy(store[id])] else store
  }

  function ApproveIn(store: Store, id: string): Store {
    if id in store then store[id := ApproveCopy(store[id])] else store
  }

  class Api {
    var store: Store

    constructor (initial: Store)
      ensures store == initial
    {
      store := initial;
    }

    /** Returns false where the endpoint answers 404. */
    method Append(id: string, action: string, fromId: string) returns (found: bool)
      modifies this
      ensures found <==> id in old(store)
      ensures store == AppendIn(old(store), id, action, fromId)
      ensures !found ==> store == old(store)
      ensures found ==>
        var from := if fromId in old(store) then Some(old(store)[fromId]) else None;
        store == old(store)[id := Appended(old(store)[id], from, action)]
    {
      if id !in store { return false; }
      var plan := store[id];
      if fromId in store {
        var steps := store[fromId].steps;
        var i := 0;
        while i < |steps| && steps[i].action != action
          invariant 0 <= i <= |steps|
          invariant FirstWith(steps, action) == FirstWith(steps[i..], action)
        {
          assert steps[i..][1..] == steps[i + 1..];
          i := i + 1;
        }
        if i < |steps| { plan := Push(plan, steps[i]); }
      } else {
        plan := Push(plan, DefaultStep(action));
      }
      store := store[id := plan];
      return true;
    }

    method Delete(id: string) returns (found: bool)
      modifies this
      ensures found <==> id in old(store)
      ensures store == DeleteIn(old(store), id)
      ensures store == if found then old(store)[id := old(store)[id].(status := Aborted)] else old(store)
    {
      if id !in store { return false; }
      store := store[id := store[id].(status := Aborted)];
      return true;
    }

    /** The loop over the steps marks every waiting gate as succeeded. */
    method Approve(id: string) returns (found: bool)
      modifies this
      ensures found <==> id in old(store)
      ensures store == ApproveIn(old(store), id)
      ensures store == if found then old(store)[id := ApproveCopy(old(store)[id])] else old(store)
    {
      if id !in store { return false; }
      var plan := store[id];
      var i := 0;
      while i < |plan.steps|
        invariant 0 <= i <= |plan.steps| == |store[id].steps|
        invariant plan == store[id].(steps := plan.steps)
        invariant forall k :: 0 <= k < |plan.steps| ==>
          plan.steps[k] == if k < i then ApproveCopy(store[id]).steps[k] else store[id].steps[k]
      {
        if plan.steps[i].isApprovalGate && plan.steps[i].status.WaitingApproval? {
          plan := plan.WithStep(i, StepStatus.Succeeded);
        }
        i := i + 1;
      }
      assert plan.steps == ApproveCopy(store[id]).steps;
      if plan.status.AwaitingApproval? { plan := plan.(status := PlanStatus.Running); }
      store := store[id := plan];
      return true;
    }
  }

  // ----- ids --------------------------------------------------------------------

  /** Appending keeps the ids unique exactly when the new name is not taken. */
  lemma PushUniqueIff(p: Plan, step: PlanStep)
    ensures NoDup(Ids(Push(p, step))) <==> NoDup(Ids(p)) && StepName(|p.steps|) !in Ids(p)
  {
    var q := Push(p, step);
    assert Ids(q) == Ids(p) + [StepName(|p.steps|)];
    if NoDup(Ids(q)) {
      forall i, j | 0 <= i < j < |Ids(p)| ensures Ids(p)[i] != Ids(p)[j] {
        assert Ids(q)[i] != Ids(q)[j];
      }
      forall i | 0 <= i < |Ids(p)| ensures Ids(p)[i] != StepName(|p.steps|) {
        assert Ids(q)[i] != Ids(q)[|p.steps|];
      }
    }
    if NoDup(Ids(p)) && StepName(|p.steps|) !in Ids(p) {
      NoDupConcat(Ids(p), [StepName(|p.steps|)]);
    }
  }

  /** The ids are those of s0 .. s(n-1), each at most once. */
  ghost predicate Numbered(p: Plan) {
    && NoDup(Ids(p))
    && forall i :: 0 <= i < |p.steps| ==> exists k :: 0 <= k < |p.steps| && p.steps[i].stepId == StepName(k)
  }

  lemma NextNameIsFree(p: Plan)
    requires Numbered(p)
    ensures StepName(|p.steps|) !in Ids(p)
  {
    var n := |p.steps|;
    if StepName(n) in Ids(p) {
      var i :| 0 <= i < |Ids(p)| && Ids(p)[i] == StepName(n);
      var k :| 0 <= k < n && p.steps[i].stepId == StepName(k);
      StepNameInjective(k, n);
    }
  }

  lemma PushNumbered(p: Plan, step: PlanStep)
    requires Numbered(p)
    ensures Numbered(Push(p, step))
  {
    var n, q := |p.steps|, Push(p, step);
    NextNameIsFree(p);
    PushUniqueIff(p, step);
    forall i | 0 <= i < |q.steps| ensures exists k :: 0 <= k < |q.steps| && q.steps[i].stepId == StepName(k) {
      if i < n {
        var k :| 0 <= k < n && p.steps[i].stepId == StepName(k);
        assert q.steps[i].stepId == StepName(k);
      } else {
        assert q.steps[i].stepId == StepName(n);
      }
    }
  }

  function ExtendRank(p: Plan, rank: map<string, nat>): map<string, nat> {
    if p.steps == [] then rank
    else
      var last := p.steps[|p.steps| - 1].stepId;
      var r := if last in rank then rank[last] else 0;
      rank[last := r][StepName(|p.steps|) := r + 1]
  }

  lemma PushKeepsRank(p: Plan, step: PlanStep, rank: map<string, nat>, i: nat, d: string)
    requires Numbered(p) && Acyclic(p, rank) && i < |p.steps| && d in p.steps[i].dependsOn
    ensures Named(Push(p, step), d)
    ensures var id, rank' := p.steps[i].stepId, ExtendRank(p, rank); id in rank' && d in rank' && rank'[d] < rank'[id]
  {
    var n, q := |p.steps|, Push(p, step);
    NextNameIsFree(p);
    var j :| 0 <= j < n && p.steps[j].stepId == d;
    assert q.steps[j].stepId == d && Ids(p)[j] == d;
    assert Ids(p)[i] == p.steps[i].stepId && Ids(p)[i] in Ids(p);
  }

  lemma PushedHasRank(p: Plan, step: PlanStep, rank: map<string, nat>)
    requires Numbered(p) && p.steps != []
    ensures var q, rank', n := Push(p, step), ExtendRank(p, rank), |p.steps|;
      var last, id := p.steps[n - 1].stepId, q.steps[n].stepId;
      q.steps[n].dependsOn == [last] && Named(q, last) && id in rank' && last in rank' && rank'[last] < rank'[id]
  {
    var n, q := |p.steps|, Push(p, step);
    NextNameIsFree(p);
    assert q.steps[n - 1] == p.steps[n - 1];
    assert Ids(p)[n - 1] == p.steps[n - 1].stepId && Ids(p)[n - 1] in Ids(p);
  }

  lemma PushAcyclic(p: Plan, step: PlanStep, rank: map<string, nat>)
    requires Numbered(p) && Acyclic(p, rank)
    ensures Acyclic(Push(p, step), ExtendRank(p, rank))
  {
    var n, q, rank' := |p.steps|, Push(p, step), ExtendRank(p, rank);
    forall i, d {:trigger d in q.steps[i].dependsOn} | 0 <= i < |q.steps| && d in q.steps[i].dependsOn
      ensures Named(q, d)
      ensures q.steps[i].stepId in rank' && d in rank' && rank'[d] < rank'[q.steps[i].stepId]
    {
      if i < n {
        PushKeepsRank(p, step, rank, i, d);
      } else {
        PushedHasRank(p, step, rank);
      }
    }
  }

  // ----- any sequence of appends ---------------------------------------------------

  function AppendAll(p: Plan, sources: seq<(Option<Plan>, string)>): Plan
    decreases |sources|
  {
    if sources == [] then p else AppendAll(Appended(p, sources[0].0, sources[0].1), sources[1..])
  }

  /** Step i is the first with the action. */
  ghost predicate FirstAt(steps: seq<PlanStep>, action: string, i: nat) {
    i < |steps| && steps[i].action == action && forall k :: 0 <= k < i ==> steps[k].action != action
  }

  lemma {:induction false} FirstWithSpec(steps: seq<PlanStep>, action: string)
    ensures FirstWith(steps, action).Some? ==>
              exists i: nat :: FirstAt(steps, action, i) && FirstWith(steps, action).value == steps[i]
    ensures FirstWith(steps, action).None? <==> forall i :: 0 <= i < |steps| ==> steps[i].action != action
  {
    if steps != [] {
      var rest := steps[1..];
      FirstWithSpec(rest, action);
      if steps[0].action == action {
        assert FirstAt(steps, action, 0);
      } else if FirstWith(rest, action).Some? {
        var i: nat :| FirstAt(rest, action, i) && FirstWith(rest, action).value == rest[i];
        assert steps[i + 1] == rest[i];
        assert FirstAt(steps, action, i + 1) by {
          forall k | 0 <= k < i + 1 ensures steps[k].action != action { if k > 0 { assert steps[k] == rest[k - 1]; } }
        }
      } else {
        forall i | 0 <= i < |steps| ensures steps[i].action != action {
          if i > 0 { assert steps[i] == rest[i - 1]; }
        }
      }
    }
  }

  /** What an append leaves: nothing changed if the source plan lacks the action; else one more step,
      named after its position and waiting for the step before it, which is the first step of the
      source with the action or, without a source, a plain one: 60 seconds, rolled back on failure,
      no gate, pending. */
  lemma AppendSpec(p: Plan, from: Option<Plan>, action: string)
    ensures var q, n := Appended(p, from, action), |p.steps|;
      && q.planId == p.planId && q.criteria == p.criteria && q.status == p.status
      && if from.Some? && forall i :: 0 <= i < |from.value.steps| ==> from.value.steps[i].action != action then q == p
         else
           && |q.steps| == n + 1 && q.steps[..n] == p.steps && q.steps[n].stepId == StepName(n)
           && q.steps[n].dependsOn == (if n == 0 then [] else [p.steps[n - 1].stepId])
           && (from.None? ==> AsAppended(q.steps[n], PlanStep("", action, [], 60, Rollback, false, Pending)))
           && (from.Some? ==>
                 exists i: nat :: FirstAt(from.value.steps, action, i) && AsAppended(q.steps[n], from.value.steps[i]))
  {
    if from.Some? { FirstWithSpec(from.value.steps, action); }
  }

  /** Equal but for the name and the dependencies. */
  predicate AsAppended(step: PlanStep, source: PlanStep) {
    && step.action == source.action && step.timeoutS == source.timeoutS && step.onFailure == source.onFailure
    && step.isApprovalGate == source.isApprovalGate && step.status == source.status
  }

  /** What an approval leaves: no gate waits any more, those that did have succeeded, and a plan that
      awaited approval is RUNNING; nothing else has changed, so approving again changes nothing. */
  lemma ApproveSpec(p: Plan)
    ensures var q := ApproveCopy(p);
      && q.planId == p.planId && q.criteria == p.criteria && |q.steps| == |p.steps|
      && (forall i :: 0 <= i < |p.steps| ==>
            && p.steps[i].SameStep(q.steps[i])
            && (i in WaitingGates(p) ==> q.steps[i].status == StepStatus.Succeeded)
            && (i !in WaitingGates(p) ==> q.steps[i].status == p.steps[i].status))
      && (p.status == AwaitingApproval ==> q.status == PlanStatus.Running)
      && (p.status != AwaitingApproval ==> q.status == p.status)
      && WaitingGates(q) == {} && ApproveCopy(q) == q
  {
    var q := ApproveCopy(p);
    assert ApproveCopy(q).steps == q.steps;
  }

  /** Copies taken from these plans have not been started. */
  ghost predicate Unstarted(sources: seq<(Option<Plan>, string)>) {
    forall k :: 0 <= k < |sources| && sources[k].0.Some? ==> sources[k].0.value.AllPending()
  }

  /** From a plan with ids s0..s(n-1) and acyclic, fully named dependencies, any sequence of
      appends keeps ids unique and dependencies acyclic, and pending if the copies are. */
  lemma {:induction false} AppendsKeepPlan(p: Plan, sources: seq<(Option<Plan>, string)>, rank: map<string, nat>)
    returns (rank': map<string, nat>)
    requires Numbered(p) && Acyclic(p, rank)
    ensures Numbered(AppendAll(p, sources)) && Acyclic(AppendAll(p, sources), rank')
    ensures p.AllPending() && Unstarted(sources) ==> AppendAll(p, sources).AllPending()
    decreases |sources|
  {
    if sources == [] {
      rank' := rank;
    } else {
      var q := Appended(p, sources[0].0, sources[0].1);
      var next := rank;
      if q != p {
        var step := if sources[0].0.None? then DefaultStep(sources[0].1)
          else FirstWith(sources[0].0.value.steps, sources[0].1).value;
        assert q == Push(p, step);
        PushNumbered(p, step);
        PushAcyclic(p, step, rank);
        next := ExtendRank(p, rank);
        if sources[0].0.Some? { FirstWithSpec(sources[0].0.value.steps, sources[0].1); }
      }
      assert Unstarted(sources) ==> Unstarted(sources[1..]);
      rank' := AppendsKeepPlan(q, sources[1..], next);
    }
  }

  /** A rule-based plan without approval has ids s1 and s2, so the first append repeats s2. */
  lemma AppendCollides(planId: string, action: string, step: PlanStep)
    ensures var p := Generator.SingleStepPlan(planId, action, false);
      NoDup(Ids(p)) && !NoDup(Ids(Push(p, step)))
  {
    var p := Generator.SingleStepPlan(planId, action, false);
    assert Ids(p)[1] == "s2" == StepName(2);
    PushUniqueIff(p, step);
  }

  // ----- dependencies that name no step -----------------------------------------------

  /** `rank` decreases along every dependency that names a step. */
  ghost predicate Ordered(p: Plan, rank: map<string, nat>) {
    forall i, d {:trigger d in p.steps[i].dependsOn} ::
      0 <= i < |p.steps| && d in p.steps[i].dependsOn && Named(p, d) ==>
      p.steps[i].stepId in rank && d in rank && rank[d] < rank[p.steps[i].stepId]
  }

  ghost predicate Edge(p: Plan, a: string, b: string) {
    exists i :: 0 <= i < |p.steps| && p.steps[i].stepId == a && b in p.steps[i].dependsOn
  }

  /** A way from the step named c[0] along dependencies. */
  ghost predicate Way(p: Plan, c: seq<string>) {
    c != [] && forall k :: 0 <= k < |c| - 1 ==> Edge(p, c[k], c[k + 1])
  }

  /** The step named a depends on b, directly or through other steps. */
  ghost predicate Needs(p: Plan, a: string, b: string) {
    exists c :: Way(p, c) && c[0] == a && c[|c| - 1] == b && |c| > 1
  }

  lemma NeedsDirectly(p: Plan, a: string, b: string)
    requires Edge(p, a, b)
    ensures Needs(p, a, b)
  {
    assert Way(p, [a, b]) && [a, b][0] == a;
  }

  lemma NeedsThrough(p: Plan, a: string, b: string, d: string)
    requires Edge(p, a, d) && Needs(p, d, b)
    ensures Needs(p, a, b)
  {
    var c :| Way(p, c) && c[0] == d && c[|c| - 1] == b && |c| > 1;
    var longer := [a] + c;
    forall k | 0 <= k < |longer| - 1 ensures Edge(p, longer[k], longer[k + 1]) {
      if k > 0 { assert Edge(p, c[k - 1], c[k]); }
    }
    assert Way(p, longer) && longer[0] == a;
  }

  /** Along a way whose end names a step, ranks fall. */
  lemma {:induction false} RanksFall(p: Plan, rank: map<string, nat>, c: seq<string>)
    requires Ordered(p, rank) && Way(p, c) && |c| > 1 && Named(p, c[|c| - 1])
    ensures c[0] in rank && c[|c| - 1] in rank && rank[c[|c| - 1]] < rank[c[0]]
  {
    assert Edge(p, c[0], c[1]);
    var i :| 0 <= i < |p.steps| && p.steps[i].stepId == c[0] && c[1] in p.steps[i].dependsOn;
    if |c| > 2 {
      assert Edge(p, c[1], c[2]);
      var rest := c[1..];
      forall k | 0 <= k < |rest| - 1 ensures Edge(p, rest[k], rest[k + 1]) { assert Edge(p, c[k + 1], c[k + 2]); }
      RanksFall(p, rank, rest);
    }
    assert Named(p, c[1]);
  }

  lemma WayInPushed(p: Plan, step: PlanStep, c: seq<string>)
    requires Way(p, c)
    ensures Way(Push(p, step), c)
  {
    var q := Push(p, step);
    forall k | 0 <= k < |c| - 1 ensures Edge(q, c[k], c[k + 1]) {
      assert Edge(p, c[k], c[k + 1]);
      var i :| 0 <= i < |p.steps| && p.steps[i].stepId == c[k] && c[k + 1] in p.steps[i].dependsOn;
      assert q.steps[i] == p.steps[i];
    }
  }

  /** The step appended to a plan depends on its last step. */
  function LastId(p: Plan): string
    requires p.steps != []
  {
    p.steps[|p.steps| - 1].stepId
  }

  lemma PushedOrderRestricts(p: Plan, step: PlanStep, rank: map<string, nat>)
    requires Ordered(Push(p, step), rank)
    ensures Ordered(p, rank)
    ensures p.steps != [] ==> !Needs(p, LastId(p), StepName(|p.steps|))
  {
    var n, q := |p.steps|, Push(p, step);
    forall i, d {:trigger d in p.steps[i].dependsOn} | 0 <= i < n && d in p.steps[i].dependsOn && Named(p, d)
      ensures p.steps[i].stepId in rank && d in rank && rank[d] < rank[p.steps[i].stepId]
    {
      var j :| 0 <= j < n && p.steps[j].stepId == d;
      assert q.steps[j] == p.steps[j] && q.steps[i] == p.steps[i] && Named(q, d);
    }
    if p.steps != [] {
      assert q.steps[n - 1].stepId == LastId(p) && q.steps[n].stepId == StepName(n);
      assert LastId(p) in q.steps[n].dependsOn && Named(q, LastId(p)) && Named(q, StepName(n));
      forall c | Way(p, c) && c[0] == LastId(p) && |c| > 1 ensures c[|c| - 1] != StepName(n) {
        WayInPushed(p, step, c);
        if c[|c| - 1] == StepName(n) { RanksFall(q, rank, c); }
      }
    }
  }

  function Base(rank: map<string, nat>, id: string): nat {
    if id in rank then rank[id] else 0
  }

  function Bound(rank: map<string, nat>, ids: seq<string>): nat {
    if ids == [] then 0
    else
      var b := Bound(rank, ids[..|ids| - 1]);
      if Base(rank, ids[|ids| - 1]) >= b then Base(rank, ids[|ids| - 1]) + 1 else b
  }

  lemma {:induction false} BoundSpec(rank: map<string, nat>, ids: seq<string>, id: string)
    requires id in ids
    ensures Base(rank, id) < Bound(rank, ids)
  {
    if id != ids[|ids| - 1] {
      assert ids == ids[..|ids| - 1] + [ids[|ids| - 1]];
      BoundSpec(rank, ids[..|ids| - 1], id);
    }
  }

  /** Steps that need the new one go above it, all others stay below. */
  ghost function Lifted(p: Plan, rank: map<string, nat>): map<string, nat> {
    var name, b := StepName(|p.steps|), Bound(rank, Ids(p));
    (map id | id in Ids(p) :: Base(rank, id) + if Needs(p, id, name) then b + 1 else 0)[name := b]
  }

  lemma LiftedOrders(p: Plan, step: PlanStep, rank: map<string, nat>)
    requires Ordered(p, rank) && StepName(|p.steps|) !in Ids(p)
    requires p.steps != [] ==> !Needs(p, LastId(p), StepName(|p.steps|))
    ensures Ordered(Push(p, step), Lifted(p, rank))
  {
    var n, q, lifted := |p.steps|, Push(p, step), Lifted(p, rank);
    forall i, d {:trigger d in q.steps[i].dependsOn} | 0 <= i < |q.steps| && d in q.steps[i].dependsOn && Named(q, d)
      ensures q.steps[i].stepId in lifted && d in lifted && lifted[d] < lifted[q.steps[i].stepId]
    {
      if i == n { LiftedLast(p, step, rank, d); } else { LiftedEdge(p, step, rank, i, d); }
    }
  }

  lemma LiftedLast(p: Plan, step: PlanStep, rank: map<string, nat>, d: string)
    requires StepName(|p.steps|) !in Ids(p) && d in Push(p, step).steps[|p.steps|].dependsOn
    requires p.steps != [] ==> !Needs(p, LastId(p), StepName(|p.steps|))
    ensures var lifted, name := Lifted(p, rank), StepName(|p.steps|);
      d in lifted && name in lifted && lifted[d] < lifted[name]
  {
    assert Ids(p)[|p.steps| - 1] == LastId(p) && d == LastId(p);
    BoundSpec(rank, Ids(p), d);
  }

  lemma LiftedEdge(p: Plan, step: PlanStep, rank: map<string, nat>, i: nat, d: string)
    requires Ordered(p, rank) && StepName(|p.steps|) !in Ids(p)
    requires i < |p.steps| && d in p.steps[i].dependsOn && Named(Push(p, step), d)
    ensures var lifted, id := Lifted(p, rank), p.steps[i].stepId; id in lifted && d in lifted && lifted[d] < lifted[id]
  {
    var n, q, id, name := |p.steps|, Push(p, step), p.steps[i].stepId, StepName(|p.steps|);
    assert Ids(p)[i] == id && Edge(p, id, d);
    if d == name {
      NeedsDirectly(p, id, name);
    } else {
      var j :| 0 <= j < |q.steps| && q.steps[j].stepId == d;
      assert j < n && Ids(p)[j] == d && p.steps[j].stepId == d;
      assert Named(p, d);
      BoundSpec(rank, Ids(p), d);
      if Needs(p, d, name) { NeedsThrough(p, id, name, d); }
    }
  }

  ghost predicate CycleFree(p: Plan) {
    exists rank :: Ordered(p, rank)
  }

  /** The ids that the step named id needs. */
  ghost function Needed(p: Plan, id: string): set<string> {
    set x | x in Ids(p) && Needs(p, id, x)
  }

  lemma NeededShrinks(p: Plan, i: nat, d: string)
    requires i < |p.steps| && d in p.steps[i].dependsOn && d in Ids(p) && !Needs(p, d, d)
    ensures |Needed(p, d)| < |Needed(p, p.steps[i].stepId)|
  {
    var id := p.steps[i].stepId;
    assert Edge(p, id, d);
    NeedsDirectly(p, id, d);
    forall x | x in Needed(p, d) ensures x in Needed(p, id) { NeedsThrough(p, id, x, d); }
    assert d in Needed(p, id) && d !in Needed(p, d);
    Rounds.SubsetCard(Needed(p, d) + {d}, Needed(p, id));
  }

  /** A plan is free of cycles exactly when no step needs a step of its own name. */
  lemma CycleFreeIff(p: Plan)
    ensures CycleFree(p) <==> forall id :: Named(p, id) ==> !Needs(p, id, id)
  {
    if rank :| Ordered(p, rank) {
      forall id | Named(p, id) ensures !Needs(p, id, id) {
        if Needs(p, id, id) {
          var c :| Way(p, c) && c[0] == id && c[|c| - 1] == id && |c| > 1;
          RanksFall(p, rank, c);
          assert false;
        }
      }
    }
    if forall id :: Named(p, id) ==> !Needs(p, id, id) {
      var rank := map id | id in Ids(p) :: |Needed(p, id)|;
      forall i, d {:trigger d in p.steps[i].dependsOn} | 0 <= i < |p.steps| && d in p.steps[i].dependsOn && Named(p, d)
        ensures p.steps[i].stepId in rank && d in rank && rank[d] < rank[p.steps[i].stepId]
      {
        var j :| 0 <= j < |p.steps| && p.steps[j].stepId == d;
        assert Ids(p)[j] == d && Ids(p)[i] == p.steps[i].stepId;
        NeededShrinks(p, i, d);
      }
      assert Ordered(p, rank);
    }
  }

  /** For every plan whose next name is free, appending leaves the dependencies free of cycles if
      and only if they were so and the last step does not need a step of that name. */
  lemma PushCycleFreeIff(p: Plan, step: PlanStep)
    requires StepName(|p.steps|) !in Ids(p)
    ensures CycleFree(Push(p, step)) <==> CycleFree(p) && (p.steps != [] ==> !Needs(p, LastId(p), StepName(|p.steps|)))
  {
    if rank :| Ordered(Push(p, step), rank) { PushedOrderRestricts(p, step, rank); }
    if CycleFree(p) && (p.steps != [] ==> !Needs(p, LastId(p), StepName(|p.steps|))) {
      var rank :| Ordered(p, rank);
      LiftedOrders(p, step, rank);
    }
  }

  /** The case at hand: a step that waits for a missing s1 is joined by the step that gets that
      name, and each now waits for the other. */
  lemma DanglingBecomesCycle(step: PlanStep)
    ensures var p := Plan("p", [PlanStep("s0", "send_alert", ["s1"], 60, Rollback, false, StepStatus.Pending)], [],
      PlanStatus.Created);
      CycleFree(p) && NoDup(Ids(Push(p, step))) && !CycleFree(Push(p, step))
  {
    var p := Plan("p", [PlanStep("s0", "send_alert", ["s1"], 60, Rollback, false, StepStatus.Pending)], [],
      PlanStatus.Created);
    assert StepName(1) == "s1" && Ids(p) == ["s0"];
    assert !Named(p, "s1");
    assert Ordered(p, map[]);
    PushUniqueIff(p, step);
    assert "s1" in p.steps[0].dependsOn && Edge(p, "s0", "s1");
    NeedsDirectly(p, "s0", "s1");
    PushCycleFreeIff(p, step);
  }
}
