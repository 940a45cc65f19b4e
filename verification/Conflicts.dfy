/** Detection and resolution of tasks that compete for one entity
    (coordinator/conflict_resolver.py, world_model/causal_engine.py:166-184). */
module Conflicts {
  import opened Wrappers
  import opened PlanSchema
  import opened TaskMirror
  import opened Sorting
  import PlanApi

  datatype TaskRef = TaskRef(
    taskId: string, agentId: string, action: string, planId: string, risk: string, confidence: real)

  datatype Conflict = Conflict(entityId: string, tasks: seq<TaskRef>)

  /** Everything a resolution can touch. */
  datatype World = World(mirror: Mirror, plans: PlanApi.Store)

  // ----- detection ---------------------------------------------------------------

  /** A pending task as the detection query reports it, defaults filled in. */
  function RefOf(id: string, n: Node): TaskRef {
    TaskRef(id, n.agentId, n.action,
      if n.planId.Some? then n.planId.value else "plan_unknown",
      if n.risk.Some? then n.risk.value else "medium",
      if n.confidence.Some? then n.confidence.value else 1.0)
  }

  ghost predicate PendingOn(m: Mirror, id: string, entity: string) {
    id in m.nodes && m.nodes[id].status == "pending" && m.nodes[id].entity == entity
  }

  /** The tasks of a conflict are the pending tasks of its entity, in some order. */
  ghost predicate Reported(m: Mirror, c: Conflict) {
    && |c.tasks| > 1
    && (forall i, j :: 0 <= i < j < |c.tasks| ==> c.tasks[i].taskId != c.tasks[j].taskId)
    && (forall i :: 0 <= i < |c.tasks| ==>
          PendingOn(m, c.tasks[i].taskId, c.entityId)
            && c.tasks[i] == RefOf(c.tasks[i].taskId, m.nodes[c.tasks[i].taskId]))
    && (forall id :: PendingOn(m, id, c.entityId) ==> exists i :: 0 <= i < |c.tasks| && c.tasks[i].taskId == id)
  }

  /** One possible answer of the detection query. */
  ghost predicate Detection(m: Mirror, cs: seq<Conflict>) {
    && (forall i, j :: 0 <= i < j < |cs| ==> cs[i].entityId != cs[j].entityId)
    && (forall i :: 0 <= i < |cs| ==> Reported(m, cs[i]))
    && (forall a, b, entity :: a != b && PendingOn(m, a, entity) && PendingOn(m, b, entity) ==>
          exists i :: 0 <= i < |cs| && cs[i].entityId == entity)
  }

  // ----- resolution ---------------------------------------------------------------

  function RiskScore(risk: string): real {
    if risk == "low" then 1.0 else if risk == "medium" then 2.0 else 3.0
  }

  function Score(t: TaskRef): real {
    t.confidence / RiskScore(t.risk)
  }

  function Decorated(tasks: seq<TaskRef>): seq<(real, TaskRef)> {
    seq(|tasks|, i requires 0 <= i < |tasks| => (-Score(tasks[i]), tasks[i]))
  }

  function Ranked(tasks: seq<TaskRef>): seq<TaskRef> {
    Items(Sort(Decorated(tasks)))
  }

  lemma {:induction false} ItemsMultiset<T>(xs: seq<(real, T)>, ys: seq<(real, T)>, x: T)
    requires multiset(xs) == multiset(ys)
    ensures x in Items(xs) ==> x in Items(ys)
  {
    if x in Items(xs) {
      var i :| 0 <= i < |xs| && xs[i].1 == x;
      assert xs[i] in multiset(ys);
      var j :| 0 <= j < |ys| && ys[j] == xs[i];
      assert Items(ys)[j] == x;
    }
  }

  /** The ranking has the same tasks, best score first. */
  lemma RankedSpec(tasks: seq<TaskRef>)
    ensures |Ranked(tasks)| == |tasks|
    ensures forall t :: t in Ranked(tasks) <==> t in tasks
    ensures forall i, j :: 0 <= i < j < |tasks| ==> Score(Ranked(tasks)[i]) >= Score(Ranked(tasks)[j])
  {
    var d := Decorated(tasks);
    SortSpec(d, 0.0);
    assert Items(d) == tasks;
    forall t ensures t in Ranked(tasks) <==> t in tasks {
      ItemsMultiset(Sort(d), d, t);
      ItemsMultiset(d, Sort(d), t);
    }
    forall i | 0 <= i < |Sort(d)| ensures Sort(d)[i].0 == -Score(Sort(d)[i].1) {
      SortMembers(d, Sort(d)[i]);
      assert Sort(d)[i] in Sort(d);
      var k :| 0 <= k < |d| && d[k] == Sort(d)[i];
    }
  }

  /** What a task scores: its confidence, halved at medium risk, and a third of it at high risk, which
      is also how an unknown risk counts. */
  lemma ScoreSpec(t: TaskRef)
    ensures t.risk == "low" ==> Score(t) == t.confidence
    ensures t.risk == "medium" ==> Score(t) * 2.0 == t.confidence
    ensures t.risk != "low" && t.risk != "medium" ==> Score(t) * 3.0 == t.confidence
  {
  }

  function OfScore(tasks: seq<TaskRef>, score: real): seq<TaskRef> {
    if tasks == [] then []
    else
      var last := tasks[|tasks| - 1];
      OfScore(tasks[..|tasks| - 1], score) + (if Score(last) == score then [last] else [])
  }

  ghost predicate KeyedByScore(xs: seq<(real, TaskRef)>) {
    forall i :: 0 <= i < |xs| ==> xs[i].0 == -Score(xs[i].1)
  }

  lemma {:induction false} WithKeyIsOfScore(xs: seq<(real, TaskRef)>, score: real)
    requires KeyedByScore(xs)
    ensures OfScore(Items(xs), score) == Items(WithKey(xs, -score))
  {
    if xs != [] {
      WithKeyIsOfScore(xs[..|xs| - 1], score);
      assert Items(xs)[..|xs| - 1] == Items(xs[..|xs| - 1]);
    }
  }

  lemma SortedIsKeyed(tasks: seq<TaskRef>)
    ensures KeyedByScore(Decorated(tasks)) && KeyedByScore(Sort(Decorated(tasks)))
  {
    var d := Decorated(tasks);
    forall i | 0 <= i < |Sort(d)| ensures Sort(d)[i].0 == -Score(Sort(d)[i].1) {
      SortMembers(d, Sort(d)[i]);
    }
  }

  /** Tasks of equal score are ranked in the order in which they were reported. */
  lemma RankedIsStable(tasks: seq<TaskRef>, score: real)
    ensures OfScore(Ranked(tasks), score) == OfScore(tasks, score)
  {
    var d := Decorated(tasks);
    SortSpec(d, -score);
    SortedIsKeyed(tasks);
    WithKeyIsOfScore(d, score);
    WithKeyIsOfScore(Sort(d), score);
    assert Items(d) == tasks;
  }

  /** Task i is the first reported one of maximal score. */
  ghost predicate FirstBest(tasks: seq<TaskRef>, i: nat) {
    && i < |tasks|
    && forall j :: 0 <= j < |tasks| ==>
         if j < i then Score(tasks[j]) < Score(tasks[i]) else Score(tasks[j]) <= Score(tasks[i])
  }

  function Winner(c: Conflict): TaskRef
    requires |c.tasks| > 0
  {
    RankedSpec(c.tasks);
    Ranked(c.tasks)[0]
  }

  function Losers(c: Conflict): seq<TaskRef>
    requires |c.tasks| > 0
  {
    RankedSpec(c.tasks);
    Ranked(c.tasks)[1..]
  }

  lemma WinnerIsFirst(c: Conflict) returns (i: nat)
    requires |c.tasks| > 0
    ensures FirstBest(c.tasks, i) && Winner(c) == c.tasks[i]
  {
    var d := Decorated(c.tasks);
    i := SortedHead(d);
    assert d[i] == (-Score(c.tasks[i]), c.tasks[i]);
    forall j | 0 <= j < |c.tasks|
      ensures if j < i then Score(c.tasks[j]) < Score(c.tasks[i]) else Score(c.tasks[j]) <= Score(c.tasks[i])
    {
      assert d[j] == (-Score(c.tasks[j]), c.tasks[j]);
    }
  }

  /** The losers are all tasks but the one that won. */
  lemma LosersAreOthers(c: Conflict, i: nat)
    requires i < |c.tasks| && Winner(c) == c.tasks[i]
    ensures multiset(Losers(c)) == multiset(c.tasks[..i] + c.tasks[i + 1..])
  {
    SortItems(Decorated(c.tasks));
    assert Items(Decorated(c.tasks)) == c.tasks;
    TakenOut(Ranked(c.tasks), 0);
    TakenOut(c.tasks, i);
    assert Ranked(c.tasks)[..0] + Losers(c) == Losers(c);
  }

  lemma TakenOut<T>(xs: seq<T>, i: nat)
    requires i < |xs|
    ensures multiset(xs[..i] + xs[i + 1..]) == multiset(xs) - multiset{xs[i]}
  {
    assert xs == xs[..i] + [xs[i]] + xs[i + 1..];
  }

  predicate CanMerge(c: Conflict)
    requires |c.tasks| > 0
  {
    && (Winner(c).risk == "low" || Winner(c).risk == "medium")
    && forall l :: l in Losers(c) ==> l.risk == "low"
  }

  /** A conflict is merged if and only if the first reported task of maximal score has low or medium
      risk and all others have low risk. */
  lemma MergeIff(c: Conflict)
    requires |c.tasks| > 0
    ensures CanMerge(c) <==>
      exists i: nat ::
        && FirstBest(c.tasks, i) && (c.tasks[i].risk == "low" || c.tasks[i].risk == "medium")
        && forall j :: 0 <= j < |c.tasks| && j != i ==> c.tasks[j].risk == "low"
  {
    var i := WinnerIsFirst(c);
    LosersAreOthers(c, i);
    var others := c.tasks[..i] + c.tasks[i + 1..];
    forall l ensures l in Losers(c) <==> l in others {
      assert l in multiset(Losers(c)) <==> l in multiset(others);
    }
    assert forall j :: 0 <= j < i ==> others[j] == c.tasks[j];
    assert forall j :: i < j < |c.tasks| ==> others[j - 1] == c.tasks[j];
  }

  function CancelAll(w: World, losers: seq<TaskRef>): World
    decreases |losers|
  {
    if losers == [] then w
    else CancelAll(World(SetStatus(w.mirror, losers[0].taskId, "cancelled"),
      PlanApi.DeleteIn(w.plans, losers[0].planId)), losers[1..])
  }

  function MergeAll(plans: PlanApi.Store, winner: TaskRef, losers: seq<TaskRef>): PlanApi.Store
    decreases |losers|
  {
    if losers == [] then plans
    else MergeAll(
      PlanApi.DeleteIn(PlanApi.AppendIn(plans, winner.planId, losers[0].action, losers[0].planId), losers[0].planId),
                  winner, losers[1..])
  }

  function Resolve(w: World, c: Conflict): World {
    if |c.tasks| < 2 then w
    else if CanMerge(c) then World(w.mirror, MergeAll(w.plans, Winner(c), Losers(c)))
    else CancelAll(w, Losers(c))
  }

  class Resolver {
    var mirror: Mirror
    var plans: PlanApi.Store

    constructor (w: World)
      ensures mirror == w.mirror && plans == w.plans
    {
      mirror, plans := w.mirror, w.plans;
    }

    method ResolveConflict(c: Conflict)
      modifies this
      ensures World(mirror, plans) == Resolve(old(World(mirror, plans)), c)
    {
      if |c.tasks| < 2 { return; }
      var winner, losers := Winner(c), Losers(c);
      var i := 0;
      if CanMerge(c) {
        while i < |losers|
          invariant 0 <= i <= |losers| && mirror == old(mirror)
          invariant MergeAll(old(plans), winner, losers) == MergeAll(plans, winner, losers[i..])
        {
          assert losers[i..][1..] == losers[i + 1..];
          plans := PlanApi.AppendIn(plans, winner.planId, losers[i].action, losers[i].planId);
          plans := PlanApi.DeleteIn(plans, losers[i].planId);
          i := i + 1;
        }
      } else {
        while i < |losers|
          invariant 0 <= i <= |losers|
          invariant CancelAll(old(World(mirror, plans)), losers) == CancelAll(World(mirror, plans), losers[i..])
        {
          assert losers[i..][1..] == losers[i + 1..];
          plans := PlanApi.DeleteIn(plans, losers[i].planId);
          mirror := SetStatus(mirror, losers[i].taskId, "cancelled");
          i := i + 1;
        }
      }
    }
  }

  // ----- what one resolution does to the tasks ---------------------------------------

  ghost predicate HasId(ts: seq<TaskRef>, id: string) {
    exists i :: 0 <= i < |ts| && ts[i].taskId == id
  }

  lemma {:induction false} CancelAllEffect(w: World, losers: seq<TaskRef>, id: string)
    requires Agree(w.mirror)
    ensures var m := CancelAll(w, losers).mirror;
      && Agree(m) && m.nodes.Keys == w.mirror.nodes.Keys
      && (id in m.nodes ==>
           m.nodes[id] == if HasId(losers, id) then w.mirror.nodes[id].(status := "cancelled") else w.mirror.nodes[id])
    decreases |losers|
  {
    if losers != [] {
      var w1 := World(SetStatus(w.mirror, losers[0].taskId, "cancelled"), PlanApi.DeleteIn(w.plans, losers[0].planId));
      SetStatusAgrees(w.mirror, losers[0].taskId, "cancelled");
      CancelAllEffect(w1, losers[1..], id);
      HasIdTail(losers, id);
    }
  }

  lemma HasIdTail(ts: seq<TaskRef>, id: string)
    requires ts != []
    ensures HasId(ts, id) <==> ts[0].taskId == id || HasId(ts[1..], id)
  {
    if HasId(ts, id) && ts[0].taskId != id {
      var i :| 0 <= i < |ts| && ts[i].taskId == id;
      assert ts[1..][i - 1].taskId == id;
    }
    if HasId(ts[1..], id) {
      var i :| 0 <= i < |ts[1..]| && ts[1..][i].taskId == id;
      assert ts[i + 1].taskId == id;
    }
  }

  lemma LosersAreTheRest(m: Mirror, c: Conflict, id: string)
    requires Reported(m, c) && PendingOn(m, id, c.entityId)
    ensures HasId(Losers(c), id) <==> id != Winner(c).taskId
  {
    RankedSpec(c.tasks);
    var r := Ranked(c.tasks);
    RankedDistinct(c.tasks);
    var i :| 0 <= i < |c.tasks| && c.tasks[i].taskId == id;
    assert c.tasks[i] in r;
    var k :| 0 <= k < |r| && r[k] == c.tasks[i];
    if k > 0 {
      assert Losers(c)[k - 1].taskId == id;
      assert r[0].taskId != r[k].taskId;
    } else {
      forall j | 0 <= j < |Losers(c)| ensures Losers(c)[j].taskId != id {
        assert Losers(c)[j] == r[j + 1] && r[0].taskId != r[j + 1].taskId;
      }
    }
  }

  /** Sorting keeps distinct tasks distinct. */
  lemma RankedDistinct(tasks: seq<TaskRef>)
    requires forall i, j :: 0 <= i < j < |tasks| ==> tasks[i].taskId != tasks[j].taskId
    ensures |Ranked(tasks)| == |tasks|
    ensures forall i, j :: 0 <= i < j < |tasks| ==> Ranked(tasks)[i].taskId != Ranked(tasks)[j].taskId
  {
    var d := Decorated(tasks);
    SortSpec(d, 0.0);
    var s := Sort(d);
    forall i, j | 0 <= i < j < |s| ensures s[i].1.taskId != s[j].1.taskId {
      SortMembers(d, s[i]);
      SortMembers(d, s[j]);
      assert s[i] in s && s[j] in s;
      var x :| 0 <= x < |d| && d[x] == s[i];
      var y :| 0 <= y < |d| && d[y] == s[j];
      if x == y {
        TwiceInMultiset(s, i, j);
        OnceInMultiset(d, x);
        assert false;
      }
    }
  }

  lemma TwiceInMultiset<T>(s: seq<T>, i: nat, j: nat)
    requires i < j < |s| && s[i] == s[j]
    ensures multiset(s)[s[i]] >= 2
  {
    assert s == s[..j] + [s[j]] + s[j + 1..];
    assert s[i] in s[..j];
  }

  lemma OnceInMultiset<T>(s: seq<T>, i: nat)
    requires i < |s| && forall k :: 0 <= k < |s| && k != i ==> s[k] != s[i]
    ensures multiset(s)[s[i]] == 1
  {
    assert s == s[..i] + [s[i]] + s[i + 1..];
    assert s[i] !in s[..i] && s[i] !in s[i + 1..];
  }

  /** PRIORITY leaves exactly the best task pending on the entity; MERGE leaves all of them. */
  lemma ResolveEffect(w: World, c: Conflict, id: string, entity: string)
    requires Agree(w.mirror) && Reported(w.mirror, c)
    ensures var m := Resolve(w, c).mirror;
      && Agree(m)
      && (PendingOn(m, id, entity) <==>
            PendingOn(w.mirror, id, entity) && (entity == c.entityId && !CanMerge(c) ==> id == Winner(c).taskId))
      && (PendingOn(m, id, entity) ==> m.nodes[id] == w.mirror.nodes[id])
  {
    if !CanMerge(c) {
      CancelAllEffect(w, Losers(c), id);
      if PendingOn(w.mirror, id, c.entityId) { LosersAreTheRest(w.mirror, c, id); }
      if HasId(Losers(c), id) {
        RankedSpec(c.tasks);
        var k :| 0 <= k < |Losers(c)| && Losers(c)[k].taskId == id;
        assert Ranked(c.tasks)[k + 1] in c.tasks;
        assert PendingOn(w.mirror, id, c.entityId);
      }
    }
  }

  // ----- resolving a whole report ------------------------------------------------------

  function ResolveAll(w: World, cs: seq<Conflict>): World
    decreases |cs|
  {
    if cs == [] then w else ResolveAll(Resolve(w, cs[0]), cs[1..])
  }

  lemma StillReported(w: World, c: Conflict, other: Conflict)
    requires Agree(w.mirror) && Reported(w.mirror, c) && Reported(w.mirror, other) && c.entityId != other.entityId
    ensures Agree(Resolve(w, c).mirror) && Reported(Resolve(w, c).mirror, other)
  {
    var m := Resolve(w, c).mirror;
    ResolveEffect(w, c, "", "");
    forall i | 0 <= i < |other.tasks|
      ensures PendingOn(m, other.tasks[i].taskId, other.entityId)
        && other.tasks[i] == RefOf(other.tasks[i].taskId, m.nodes[other.tasks[i].taskId])
    {
      ResolveEffect(w, c, other.tasks[i].taskId, other.entityId);
    }
    forall id | PendingOn(m, id, other.entityId)
      ensures exists i :: 0 <= i < |other.tasks| && other.tasks[i].taskId == id
    {
      ResolveEffect(w, c, id, other.entityId);
    }
  }

  /** Which tasks are pending after the whole report has been resolved. */
  ghost predicate Remains(m: Mirror, cs: seq<Conflict>, id: string, entity: string) {
    && PendingOn(m, id, entity)
    && forall i :: 0 <= i < |cs| && |cs[i].tasks| > 0 && cs[i].entityId == entity && !CanMerge(cs[i]) ==>
         id == Winner(cs[i]).taskId
  }

  lemma {:induction false} ResolveAllEffect(w: World, cs: seq<Conflict>, id: string, entity: string)
    requires Agree(w.mirror)
    requires forall i, j :: 0 <= i < j < |cs| ==> cs[i].entityId != cs[j].entityId
    requires forall i :: 0 <= i < |cs| ==> Reported(w.mirror, cs[i])
    ensures Agree(ResolveAll(w, cs).mirror)
    ensures PendingOn(ResolveAll(w, cs).mirror, id, entity) <==> Remains(w.mirror, cs, id, entity)
    decreases |cs|
  {
    if cs != [] {
      var w1, rest := Resolve(w, cs[0]), cs[1..];
      ResolveEffect(w, cs[0], id, entity);
      forall i | 0 <= i < |rest| ensures Reported(w1.mirror, rest[i]) {
        assert rest[i] == cs[i + 1];
        StillReported(w, cs[0], cs[i + 1]);
      }
      ResolveAllEffect(w1, rest, id, entity);
      if Remains(w1.mirror, rest, id, entity) {
        forall i | 0 <= i < |cs| && |cs[i].tasks| > 0 && cs[i].entityId == entity && !CanMerge(cs[i])
          ensures id == Winner(cs[i]).taskId
        {
          if i > 0 { assert rest[i - 1] == cs[i]; }
        }
      }
    }
  }

  ghost predicate ConflictFree(m: Mirror) {
    forall a, b, entity :: PendingOn(m, a, entity) && PendingOn(m, b, entity) ==> a == b
  }

  /** An empty answer of the detection query means that there is no conflict. */
  lemma EmptyDetection(m: Mirror)
    ensures Detection(m, []) <==> ConflictFree(m)
  {
    if !ConflictFree(m) {
      var a, b, entity :| PendingOn(m, a, entity) && PendingOn(m, b, entity) && a != b;
    }
  }

  lemma WinnerStays(w: World, cs: seq<Conflict>, i: nat)
    requires Agree(w.mirror) && Detection(w.mirror, cs) && i < |cs| && !CanMerge(cs[i])
    ensures forall id :: PendingOn(ResolveAll(w, cs).mirror, id, cs[i].entityId) <==> id == Winner(cs[i]).taskId
    ensures forall t :: t in cs[i].tasks ==> Score(t) <= Score(Winner(cs[i]))
  {
    var c := cs[i];
    RankedSpec(c.tasks);
    assert Winner(c) in c.tasks by { assert Ranked(c.tasks)[0] in Ranked(c.tasks); }
    forall id ensures PendingOn(ResolveAll(w, cs).mirror, id, c.entityId) <==> id == Winner(c).taskId {
      ResolveAllEffect(w, cs, id, c.entityId);
      if id == Winner(c).taskId {
        assert PendingOn(w.mirror, id, c.entityId);
        forall k | 0 <= k < |cs| && |cs[k].tasks| > 0 && cs[k].entityId == c.entityId && !CanMerge(cs[k])
          ensures id == Winner(cs[k]).taskId
        {
          assert k == i;
        }
      }
    }
    forall t | t in c.tasks ensures Score(t) <= Score(Winner(c)) {
      assert t in Ranked(c.tasks);
    }
  }

  lemma MergedStays(w: World, cs: seq<Conflict>, i: nat)
    requires Agree(w.mirror) && Detection(w.mirror, cs) && i < |cs| && CanMerge(cs[i])
    ensures !ConflictFree(ResolveAll(w, cs).mirror)
  {
    var c := cs[i];
    var a, b := c.tasks[0].taskId, c.tasks[1].taskId;
    assert PendingOn(w.mirror, a, c.entityId) && PendingOn(w.mirror, b, c.entityId) && a != b;
    forall k | 0 <= k < |cs| && cs[k].entityId == c.entityId ensures k == i { }
    assert Remains(w.mirror, cs, a, c.entityId) && Remains(w.mirror, cs, b, c.entityId);
    ResolveAllEffect(w, cs, a, c.entityId);
    ResolveAllEffect(w, cs, b, c.entityId);
  }

  /** After every reported conflict has been resolved, the next detection is empty if and only if
      none of them could be merged. */
  lemma ConvergesIff(w: World, cs: seq<Conflict>)
    requires Agree(w.mirror) && Detection(w.mirror, cs)
    ensures Detection(ResolveAll(w, cs).mirror, []) <==> forall i :: 0 <= i < |cs| ==> !CanMerge(cs[i])
  {
    var m := ResolveAll(w, cs).mirror;
    EmptyDetection(m);
    if i :| 0 <= i < |cs| && CanMerge(cs[i]) {
      MergedStays(w, cs, i);
    } else {
      forall a, b, entity | PendingOn(m, a, entity) && PendingOn(m, b, entity) ensures a == b {
        ResolveAllEffect(w, cs, a, entity);
        ResolveAllEffect(w, cs, b, entity);
        if i :| 0 <= i < |cs| && cs[i].entityId == entity {
          WinnerStays(w, cs, i);
        }
      }
    }
  }

  /** For tasks made by `create_task`, which all score alike: one resolution of the report leaves
      exactly one pending task on every conflicted entity, the one reported first, the copies agree,
      and the next detection is empty. */
  lemma CreatedTasksConverge(w: World, cs: seq<Conflict>)
    requires Agree(w.mirror) && Plain(w.mirror) && Detection(w.mirror, cs)
    ensures var m := ResolveAll(w, cs).mirror;
      && Agree(m) && Detection(m, [])
      && forall i :: 0 <= i < |cs| ==>
           && (forall id :: PendingOn(m, id, cs[i].entityId) <==> id == cs[i].tasks[0].taskId)
           && (forall t :: t in cs[i].tasks ==> t.risk == "medium" && t.confidence == 1.0 && t.planId == "plan_unknown")
  {
    forall i | 0 <= i < |cs| ensures !CanMerge(cs[i]) {
      RankedSpec(cs[i].tasks);
      var l := Losers(cs[i])[0];
      assert l == Ranked(cs[i].tasks)[1] && l in Ranked(cs[i].tasks);
      var k :| 0 <= k < |cs[i].tasks| && cs[i].tasks[k] == l;
      assert l.risk == "medium" && l in Losers(cs[i]);
    }
    ResolveAllEffect(w, cs, "", "");
    ConvergesIff(w, cs);
    forall i | 0 <= i < |cs|
      ensures forall id :: PendingOn(ResolveAll(w, cs).mirror, id, cs[i].entityId) <==> id == cs[i].tasks[0].taskId
      ensures forall t :: t in cs[i].tasks ==> t.risk == "medium" && t.confidence == 1.0 && t.planId == "plan_unknown"
    {
      WinnerStays(w, cs, i);
      FirstIsKept(w.mirror, cs[i]);
    }
  }

  lemma FirstIsKept(m: Mirror, c: Conflict)
    requires Plain(m) && Reported(m, c)
    ensures Winner(c) == c.tasks[0]
    ensures forall t :: t in c.tasks ==> t.risk == "medium" && t.confidence == 1.0 && t.planId == "plan_unknown"
  {
    forall t | t in c.tasks ensures t.risk == "medium" && t.confidence == 1.0 && t.planId == "plan_unknown" {
      var k :| 0 <= k < |c.tasks| && c.tasks[k] == t;
      assert t == RefOf(t.taskId, m.nodes[t.taskId]);
    }
    assert forall j, k :: 0 <= j < |c.tasks| && 0 <= k < |c.tasks| ==> Score(c.tasks[j]) == Score(c.tasks[k]);
    var i := WinnerIsFirst(c);
  }

  // ----- which plans a resolution touches -----------------------------------------------

  /** The plan is stored as before, or still not stored. */
  predicate SamePlan(a: PlanApi.Store, b: PlanApi.Store, id: string) {
    (id in a <==> id in b) && (id in a ==> a[id] == b[id])
  }

  lemma {:induction false} CancelAllPlans(w: World, losers: seq<TaskRef>, id: string)
    requires forall l :: l in losers ==> l.planId != id
    ensures SamePlan(w.plans, CancelAll(w, losers).plans, id)
    decreases |losers|
  {
    if losers != [] {
      assert losers[0] in losers;
      CancelAllPlans(World(SetStatus(w.mirror, losers[0].taskId, "cancelled"),
        PlanApi.DeleteIn(w.plans, losers[0].planId)), losers[1..], id);
    }
  }

  ghost predicate NamedBy(losers: seq<TaskRef>, id: string) {
    exists j :: 0 <= j < |losers| && losers[j].planId == id
  }

  lemma NamedByTail(losers: seq<TaskRef>, id: string)
    requires losers != []
    ensures NamedBy(losers, id) <==> losers[0].planId == id || NamedBy(losers[1..], id)
  {
    if j :| 0 <= j < |losers| && losers[j].planId == id {
      if j > 0 { assert losers[1..][j - 1].planId == id; }
    }
    if j :| 0 <= j < |losers[1..]| && losers[1..][j].planId == id { assert losers[j + 1].planId == id; }
  }

  lemma {:induction false} CancelledPlans(w: World, losers: seq<TaskRef>, id: string)
    requires id in w.plans
    ensures var after := CancelAll(w, losers).plans;
      id in after && after[id] == if NamedBy(losers, id) then w.plans[id].(status := Aborted) else w.plans[id]
    decreases |losers|
  {
    if losers != [] {
      CancelledPlans(World(SetStatus(w.mirror, losers[0].taskId, "cancelled"),
        PlanApi.DeleteIn(w.plans, losers[0].planId)), losers[1..], id);
      NamedByTail(losers, id);
    }
  }

  /** PRIORITY aborts exactly the plans that a losing task names, and changes nothing else about any. */
  lemma PriorityAborts(w: World, c: Conflict, id: string)
    requires |c.tasks| > 1 && !CanMerge(c) && id in w.plans
    ensures var after := Resolve(w, c).plans;
      && id in after && after[id].steps == w.plans[id].steps && after[id].criteria == w.plans[id].criteria
      && after[id].status == if NamedBy(Losers(c), id) then Aborted else w.plans[id].status
  {
    CancelledPlans(w, Losers(c), id);
  }

  lemma {:induction false} MergeAllPlans(plans: PlanApi.Store, winner: TaskRef, losers: seq<TaskRef>, id: string)
    requires winner.planId != id && forall l :: l in losers ==> l.planId != id
    ensures SamePlan(plans, MergeAll(plans, winner, losers), id)
    decreases |losers|
  {
    if losers != [] {
      assert losers[0] in losers;
      MergeAllPlans(MergeOne(plans, winner, losers[0]), winner, losers[1..], id);
    }
  }

  /** A resolution changes only the plans its tasks name. */
  lemma ResolvePlans(w: World, c: Conflict, id: string)
    requires forall t :: t in c.tasks ==> t.planId != id
    ensures SamePlan(w.plans, Resolve(w, c).plans, id)
  {
    if |c.tasks| >= 2 {
      RankedSpec(c.tasks);
      assert Winner(c) in Ranked(c.tasks);
      forall l | l in Losers(c) ensures l.planId != id {
        var k :| 0 <= k < |Losers(c)| && Losers(c)[k] == l;
        assert Ranked(c.tasks)[k + 1] == l && l in Ranked(c.tasks);
      }
      if CanMerge(c) { MergeAllPlans(w.plans, Winner(c), Losers(c), id); } else { CancelAllPlans(w, Losers(c), id); }
    }
  }

  lemma {:induction false} ResolveAllPlans(w: World, cs: seq<Conflict>, id: string)
    requires forall i, t :: 0 <= i < |cs| && t in cs[i].tasks ==> t.planId != id
    ensures SamePlan(w.plans, ResolveAll(w, cs).plans, id)
    decreases |cs|
  {
    if cs != [] {
      ResolvePlans(w, cs[0], id);
      ResolveAllPlans(Resolve(w, cs[0]), cs[1..], id);
    }
  }

  /** `create_task` gives the node no plan id, so every reported task names "plan_unknown": resolving
      such conflicts touches no other plan, and the plans of cancelled tasks go on. */
  lemma CancelledTasksKeepTheirPlans(w: World, cs: seq<Conflict>, id: string)
    requires Plain(w.mirror) && Detection(w.mirror, cs) && id != "plan_unknown"
    ensures SamePlan(w.plans, ResolveAll(w, cs).plans, id)
  {
    forall i, t | 0 <= i < |cs| && t in cs[i].tasks ensures t.planId != id {
      assert Reported(w.mirror, cs[i]);
      var k :| 0 <= k < |cs[i].tasks| && cs[i].tasks[k] == t;
      assert t == RefOf(t.taskId, w.mirror.nodes[t.taskId]);
    }
    ResolveAllPlans(w, cs, id);
  }

  // ----- what MERGE does to the plans ---------------------------------------------------

  /** The step a loser contributes. */
  function Contribution(plans: PlanApi.Store, l: TaskRef): Option<PlanStep> {
    if l.planId in plans then PlanApi.FirstWith(plans[l.planId].steps, l.action) else None
  }

  /** `steps[n..]` are one renamed copy per loser, each depending on the step before it. */
  ghost predicate ExtendedBy(before: Plan, after: Plan, plans: PlanApi.Store, losers: seq<TaskRef>) {
    && |after.steps| == |before.steps| + |losers|
    && after.steps[..|before.steps|] == before.steps
    && forall j :: 0 <= j < |losers| ==> Copied(before, after, plans, losers, j)
  }

  ghost predicate Copied(before: Plan, after: Plan, plans: PlanApi.Store, losers: seq<TaskRef>, j: nat)
    requires j < |losers| && |after.steps| == |before.steps| + |losers|
  {
    var n := |before.steps| + j;
    && Contribution(plans, losers[j]).Some?
    && after.steps[n] == Contribution(plans, losers[j]).value.(
         stepId := PlanApi.StepName(n),
         dependsOn := if n == 0 then [] else [after.steps[n - 1].stepId])
  }

  ghost predicate Holds(plans: PlanApi.Store, winner: TaskRef, losers: seq<TaskRef>) {
    && winner.planId in plans
    && forall j :: 0 <= j < |losers| ==> Contribution(plans, losers[j]).Some?
  }

  /** One turn of the merge loop. */
  function MergeOne(plans: PlanApi.Store, winner: TaskRef, l: TaskRef): PlanApi.Store {
    PlanApi.DeleteIn(PlanApi.AppendIn(plans, winner.planId, l.action, l.planId), l.planId)
  }

  lemma MergeOneEffect(plans: PlanApi.Store, winner: TaskRef, losers: seq<TaskRef>)
    requires losers != [] && Holds(plans, winner, losers)
    ensures var next, pushed := MergeOne(plans, winner, losers[0]),
      PlanApi.Push(plans[winner.planId], Contribution(plans, losers[0]).value);
      && winner.planId in next && next[winner.planId].steps == pushed.steps
      && next[winner.planId].status ==
           if losers[0].planId == winner.planId then Aborted else plans[winner.planId].status
  {
  }

  lemma {:induction false} FirstWithPushed(steps: seq<PlanStep>, more: PlanStep, action: string)
    requires PlanApi.FirstWith(steps, action).Some?
    ensures PlanApi.FirstWith(steps + [more], action) == PlanApi.FirstWith(steps, action)
  {
    assert (steps + [more])[1..] == steps[1..] + [more];
    if steps[0].action != action { FirstWithPushed(steps[1..], more, action); }
  }

  /** A merge takes nothing from what later losers contribute. */
  lemma MergeOneKeeps(plans: PlanApi.Store, winner: TaskRef, losers: seq<TaskRef>, l: TaskRef)
    requires losers != [] && Holds(plans, winner, losers) && Contribution(plans, l).Some?
    ensures Contribution(MergeOne(plans, winner, losers[0]), l) == Contribution(plans, l)
  {
    MergeOneEffect(plans, winner, losers);
    var step := Contribution(plans, losers[0]).value;
    if l.planId == winner.planId {
      var q := PlanApi.Push(plans[winner.planId], step);
      assert q.steps == plans[winner.planId].steps + [q.steps[|q.steps| - 1]];
      FirstWithPushed(plans[winner.planId].steps, q.steps[|q.steps| - 1], l.action);
    }
  }

  lemma MergeOneHolds(plans: PlanApi.Store, winner: TaskRef, losers: seq<TaskRef>)
    requires losers != [] && Holds(plans, winner, losers)
    ensures var next := MergeOne(plans, winner, losers[0]);
      && Holds(next, winner, losers[1..])
      && forall j :: 0 <= j < |losers| - 1 ==> Contribution(next, losers[1..][j]) == Contribution(plans, losers[j + 1])
  {
    MergeOneEffect(plans, winner, losers);
    forall j | 0 <= j < |losers| - 1
      ensures Contribution(MergeOne(plans, winner, losers[0]), losers[1..][j]) == Contribution(plans, losers[j + 1])
    {
      assert losers[1..][j] == losers[j + 1];
      MergeOneKeeps(plans, winner, losers, losers[j + 1]);
    }
  }

  lemma {:induction false} MergeAborts(plans: PlanApi.Store, winner: TaskRef, losers: seq<TaskRef>, id: string)
    requires Holds(plans, winner, losers) && id in plans
    ensures id in MergeAll(plans, winner, losers)
    ensures plans[id].status == Aborted || NamedBy(losers, id) ==> MergeAll(plans, winner, losers)[id].status == Aborted
    ensures !NamedBy(losers, id) ==> MergeAll(plans, winner, losers)[id].status == plans[id].status
    decreases |losers|
  {
    if losers != [] {
      MergeOneHolds(plans, winner, losers);
      NamedByTail(losers, id);
      MergeAborts(MergeOne(plans, winner, losers[0]), winner, losers[1..], id);
    }
  }

  lemma {:induction false} MergeExtendsWinner(plans: PlanApi.Store, winner: TaskRef, losers: seq<TaskRef>)
    requires Holds(plans, winner, losers)
    ensures var after := MergeAll(plans, winner, losers);
      winner.planId in after && ExtendedBy(plans[winner.planId], after[winner.planId], plans, losers)
    decreases |losers|
  {
    if losers != [] {
      MergeOneEffect(plans, winner, losers);
      MergeOneHolds(plans, winner, losers);
      var next := MergeOne(plans, winner, losers[0]);
      MergeExtendsWinner(next, winner, losers[1..]);
      ExtendOnce(plans[winner.planId], next[winner.planId], MergeAll(plans, winner, losers)[winner.planId], plans, next,
        losers);
    }
  }

  lemma ExtendOnce(before: Plan, pushed: Plan, after: Plan, plans: PlanApi.Store, next: PlanApi.Store,
      losers: seq<TaskRef>)
    requires losers != [] && Contribution(plans, losers[0]).Some?
    requires forall j :: 0 <= j < |losers| - 1 ==>
      Contribution(next, losers[1..][j]) == Contribution(plans, losers[j + 1])
    requires pushed.steps == PlanApi.Push(before, Contribution(plans, losers[0]).value).steps
    requires ExtendedBy(pushed, after, next, losers[1..])
    ensures ExtendedBy(before, after, plans, losers)
  {
    var n := |before.steps|;
    assert after.steps[..n + 1] == pushed.steps;
    assert after.steps[..n] == pushed.steps[..n] == before.steps;
    assert after.steps[n] == pushed.steps[n];
    forall j | 0 <= j < |losers| ensures Copied(before, after, plans, losers, j) {
      if j == 0 {
        if n > 0 { assert after.steps[n - 1] == before.steps[n - 1]; }
      } else {
        assert Copied(pushed, after, next, losers[1..], j - 1);
      }
    }
  }

  /** A MERGE whose losers' plans hold their action extends the winner by one copy per loser, in
      score order, each chained to the previous step, and aborts the losers' plans.  The winner's
      own plan is aborted with them exactly if it was, or if some loser belongs to the same plan. */
  lemma MergeExtends(plans: PlanApi.Store, winner: TaskRef, losers: seq<TaskRef>)
    requires Holds(plans, winner, losers)
    ensures var after := MergeAll(plans, winner, losers);
      && winner.planId in after && ExtendedBy(plans[winner.planId], after[winner.planId], plans, losers)
      && (forall j :: 0 <= j < |losers| ==> losers[j].planId in after && after[losers[j].planId].status == Aborted)
      && (after[winner.planId].status == Aborted <==>
            plans[winner.planId].status == Aborted || NamedBy(losers, winner.planId))
  {
    MergeExtendsWinner(plans, winner, losers);
    MergeAborts(plans, winner, losers, winner.planId);
    forall j | 0 <= j < |losers|
      ensures losers[j].planId in MergeAll(plans, winner, losers)
        && MergeAll(plans, winner, losers)[losers[j].planId].status == Aborted
    {
      assert Contribution(plans, losers[j]).Some?;
      assert NamedBy(losers, losers[j].planId);
      MergeAborts(plans, winner, losers, losers[j].planId);
    }
  }
}
