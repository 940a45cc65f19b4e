/** Scenario states and the list of active scenarios, with calls that overlap at their awaits and
    injectors that raise (chaos_lab/chaos_engine/controller.py:165-226). */
module ChaosController {
  import opened Wrappers

  datatype Phase = Idle | Active | Recovering | Failed

  /** `calls` are activations and deactivations waiting for their injector. */
  datatype Call = Activating(name: string) | Deactivating(name: string)

  datatype State = State(phases: map<string, Phase>, active: seq<string>, calls: multiset<Call>)

  datatype Event =
    | BeginActivate(name: string)
    | EndActivate(name: string, ok: bool)
    | BeginDeactivate(name: string)
    | EndDeactivate(name: string, ok: bool)
    | MarkDetected(name: string)
    | MarkRemediated(name: string)

  predicate Enabled(s: State, e: Event) {
    match e
    case EndActivate(n, _) => Activating(n) in s.calls && n in s.phases
    case EndDeactivate(n, _) => Deactivating(n) in s.calls && n in s.phases
    case _ => true
  }

  /** `list.remove` */
  function Remove(xs: seq<string>, x: string): seq<string> {
    if xs == [] then [] else if xs[0] == x then xs[1..] else [xs[0]] + Remove(xs[1..], x)
  }

  /** An unknown name changes nothing, and neither does activating an active scenario. */
  function Apply(s: State, e: Event): State
    requires Enabled(s, e)
  {
    var n := e.name;
    match e
    case BeginActivate(_) =>
      if n !in s.phases || s.phases[n].Active? then s else s.(calls := s.calls + multiset{Activating(n)})
    case EndActivate(_, ok) =>
      var s' := s.(calls := s.calls - multiset{Activating(n)});
      if !ok then s'
      else s'.(phases := s.phases[n := Active], active := if n in s.active then s.active else s.active + [n])
    case BeginDeactivate(_) =>
      if n !in s.phases then s
      else s.(phases := s.phases[n := Recovering], calls := s.calls + multiset{Deactivating(n)})
    case EndDeactivate(_, ok) =>
      var s' := s.(calls := s.calls - multiset{Deactivating(n)});
      if !ok then s' else s'.(phases := s.phases[n := Idle], active := Remove(s.active, n))
    case MarkDetected(_) => s
    case MarkRemediated(_) => if n !in s.phases then s else s.(phases := s.phases[n := Recovering])
  }

  function Run(s: State, es: seq<Event>): Option<State> {
    if es == [] then Some(s)
    else
      var before := Run(s, es[..|es| - 1]);
      if before.Some? && Enabled(before.value, es[|es| - 1]) then Some(Apply(before.value, es[|es| - 1])) else None
  }

  /** All scenarios known at the start are idle. */
  function Start(names: set<string>): State {
    State(map n | n in names :: Idle, [], multiset{})
  }

  // ----- the active list ------------------------------------------------------------------

  lemma {:induction false} RemoveSpec(xs: seq<string>, x: string, y: string)
    requires NoDup(xs)
    ensures NoDup(Remove(xs, x)) && (y in Remove(xs, x) <==> y in xs && y != x)
    ensures forall z :: z in Remove(xs, x) ==> z in xs
  {
    if xs != [] {
      var rest := xs[1..];
      assert xs == [xs[0]] + rest;
      RemoveSpec(rest, x, y);
      assert xs[0] !in rest;
    }
  }

  lemma {:induction false} RemoveAt(xs: seq<string>, x: string, i: nat)
    requires i <= |xs| && x !in xs[..i] && (i < |xs| ==> xs[i] == x)
    ensures Remove(xs, x) == if i < |xs| then xs[..i] + xs[i + 1..] else xs
  {
    if i > 0 {
      assert xs[0] == xs[..i][0];
      assert xs[1..][..i - 1] == xs[..i][1..];
      RemoveAt(xs[1..], x, i - 1);
      assert xs == [xs[0]] + xs[1..];
    }
  }

  /** What the events so far say about a scenario: the last successful end of a call decides
      whether it is listed, and any begin of a deactivation or remediation mark after that
      whether it still counts as active. */
  function Listed(es: seq<Event>, n: string): bool {
    if es == [] then false
    else
      match es[|es| - 1]
      case EndActivate(m, ok) => if ok && m == n then true else Listed(es[..|es| - 1], n)
      case EndDeactivate(m, ok) => if ok && m == n then false else Listed(es[..|es| - 1], n)
      case _ => Listed(es[..|es| - 1], n)
  }

  function Live(es: seq<Event>, n: string): bool {
    es != [] && LiveNext(Live(es[..|es| - 1], n), es[|es| - 1], n)
  }

  predicate LiveNext(before: bool, e: Event, n: string) {
    match e
    case EndActivate(m, ok) => (ok && m == n) || before
    case EndDeactivate(m, ok) => !(ok && m == n) && before
    case BeginDeactivate(m) => m != n && before
    case MarkRemediated(m) => m != n && before
    case _ => before
  }

  ghost predicate Inv(s: State, names: set<string>) {
    && s.phases.Keys == names && NoDup(s.active)
    && forall n :: n in s.active ==> n in names
  }

  lemma ApplyKeepsInv(s: State, e: Event, names: set<string>)
    requires Inv(s, names) && Enabled(s, e)
    ensures Inv(Apply(s, e), names)
  {
    RemoveSpec(s.active, e.name, e.name);
  }

  /** The phase of a known scenario, told by the last event that concerns it: ACTIVE when an activation
      has come to its end, IDLE when a deactivation has, RECOVERING when one has begun or a
      remediation was noted. */
  function PhaseOf(es: seq<Event>, n: string): Phase {
    if es == [] then Idle else PhaseNext(PhaseOf(es[..|es| - 1], n), es[|es| - 1], n)
  }

  function PhaseNext(before: Phase, e: Event, n: string): Phase {
    if e.name != n then before
    else match e
      case EndActivate(_, ok) => if ok then Active else before
      case EndDeactivate(_, ok) => if ok then Idle else before
      case BeginDeactivate(_) => Recovering
      case MarkRemediated(_) => Recovering
      case _ => before
  }

  lemma PhaseChange(s: State, e: Event, n: string)
    requires Enabled(s, e) && n in s.phases
    ensures n in Apply(s, e).phases && Apply(s, e).phases[n] == PhaseNext(s.phases[n], e, n)
  {
  }

  lemma {:induction false} PhaseFollowsEvents(names: set<string>, es: seq<Event>, n: string)
    requires Run(Start(names), es).Some? && n in names
    ensures var s := Run(Start(names), es).value; n in s.phases && s.phases[n] == PhaseOf(es, n)
  {
    if es != [] {
      PhaseFollowsEvents(names, es[..|es| - 1], n);
      PhaseChange(Run(Start(names), es[..|es| - 1]).value, es[|es| - 1], n);
    }
  }

  /** In every interleaving of calls and marks, with injectors that raise or not: the list has no
      duplicates, it holds exactly the scenarios whose last completed call was an activation, and
      a scenario is ACTIVE exactly when nothing has begun to undo that since. */
  lemma {:induction false} ActiveListFollowsCalls(names: set<string>, es: seq<Event>, n: string)
    requires Run(Start(names), es).Some?
    ensures var s := Run(Start(names), es).value;
      && Inv(s, names)
      && (n in s.active <==> n in names && Listed(es, n))
      && (n in names ==> (s.phases[n].Active? <==> Live(es, n)))
  {
    if es != [] {
      var front, e := es[..|es| - 1], es[|es| - 1];
      ActiveListFollowsCalls(names, front, n);
      var s := Run(Start(names), front).value;
      ApplyKeepsInv(s, e, names);
      ListStep(s, names, es, n);
      PhaseStep(s, names, e, n, Live(front, n));
    }
  }

  lemma ListStep(s: State, names: set<string>, es: seq<Event>, n: string)
    requires es != [] && Inv(s, names) && Enabled(s, es[|es| - 1])
    requires n in s.active <==> n in names && Listed(es[..|es| - 1], n)
    ensures n in Apply(s, es[|es| - 1]).active <==> n in names && Listed(es, n)
  {
    RemoveSpec(s.active, es[|es| - 1].name, n);
  }

  lemma PhaseStep(s: State, names: set<string>, e: Event, n: string, live: bool)
    requires Inv(s, names) && Enabled(s, e) && (n in names ==> (s.phases[n].Active? <==> live))
    ensures var t := Apply(s, e); n in names ==> n in t.phases && (t.phases[n].Active? <==> LiveNext(live, e, n))
  {
    if n in names { PhaseChange(s, e, n); }
  }

  lemma {:induction false} LiveIsListed(es: seq<Event>, n: string)
    requires Live(es, n)
    ensures Listed(es, n)
  {
    if es != [] {
      match es[|es| - 1]
      case EndActivate(m, ok) => if !(ok && m == n) { LiveIsListed(es[..|es| - 1], n); }
      case _ => LiveIsListed(es[..|es| - 1], n);
    }
  }

  /** Hence every ACTIVE scenario is in the list. */
  lemma ActiveIsListed(names: set<string>, es: seq<Event>, n: string)
    requires Run(Start(names), es).Some? && n in Run(Start(names), es).value.phases
    ensures var s := Run(Start(names), es).value;
      NoDup(s.active) && (s.phases[n].Active? ==> n in s.active)
  {
    ActiveListFollowsCalls(names, es, n);
    if Live(es, n) { LiveIsListed(es, n); }
  }

  /** How many calls of a kind wait for their injector: activations that began while the scenario was not
      ACTIVE, or deactivations, less those that have come to an end. */
  function Waiting(es: seq<Event>, c: Call): int {
    if es == [] then 0
    else
      var front := es[..|es| - 1];
      var before := Waiting(front, c);
      match es[|es| - 1]
      case BeginActivate(m) => if c == Activating(m) && PhaseOf(front, m) != Active then before + 1 else before
      case BeginDeactivate(m) => if c == Deactivating(m) then before + 1 else before
      case EndActivate(m, _) => if c == Activating(m) then before - 1 else before
      case EndDeactivate(m, _) => if c == Deactivating(m) then before - 1 else before
      case _ => before
  }

  lemma CallsChange(s: State, e: Event, c: Call)
    requires Enabled(s, e)
    ensures Apply(s, e).calls[c] == s.calls[c]
      + (if e.BeginActivate? && c == Activating(e.name) && e.name in s.phases && s.phases[e.name] != Active
         then 1 else 0)
      + (if e.BeginDeactivate? && c == Deactivating(e.name) && e.name in s.phases then 1 else 0)
      - (if (e.EndActivate? && c == Activating(e.name)) || (e.EndDeactivate? && c == Deactivating(e.name))
         then 1 else 0)
  {
  }

  /** In every interleaving: a call waits for its injector exactly if the scenario is known and, for an
      activation, was not ACTIVE when it began; so activating an active scenario does nothing. */
  lemma {:induction false} CallsInFlight(names: set<string>, es: seq<Event>, c: Call)
    requires Run(Start(names), es).Some?
    ensures Run(Start(names), es).value.calls[c] == if c.name in names then Waiting(es, c) else 0
  {
    if es != [] {
      var front, e := es[..|es| - 1], es[|es| - 1];
      CallsInFlight(names, front, c);
      CallsChange(Run(Start(names), front).value, e, c);
      ActiveListFollowsCalls(names, front, e.name);
      if e.name in names { PhaseFollowsEvents(names, front, e.name); }
    }
  }

  // ----- the emergency reset ----------------------------------------------------------------

  /** `deactivate_all` without interference: the loop over a copy of the list, ended by the first
      injector that raises. */
  function ResetAll(s: State, names: seq<string>, raises: string -> bool): State
    decreases |names|
  {
    if names == [] then s
    else
      var s1 := Apply(s, BeginDeactivate(names[0]));
      if !Enabled(s1, EndDeactivate(names[0], !raises(names[0]))) then s
      else
        var s2 := Apply(s1, EndDeactivate(names[0], !raises(names[0])));
        if raises(names[0]) then s2 else ResetAll(s2, names[1..], raises)
  }

  function FirstRaise(names: seq<string>, raises: string -> bool): nat
    ensures FirstRaise(names, raises) <= |names|
  {
    if names == [] || raises(names[0]) then 0 else 1 + FirstRaise(names[1..], raises)
  }

  lemma {:induction false} ResetLeaves(s: State, names: set<string>, raises: string -> bool)
    requires Inv(s, names)
    ensures ResetAll(s, s.active, raises).active == s.active[FirstRaise(s.active, raises)..]
    decreases |s.active|
  {
    if s.active != [] {
      var n := s.active[0];
      var s1 := Apply(s, BeginDeactivate(n));
      ApplyKeepsInv(s, BeginDeactivate(n), names);
      assert Enabled(s1, EndDeactivate(n, !raises(n)));
      var s2 := Apply(s1, EndDeactivate(n, !raises(n)));
      if !raises(n) {
        ApplyKeepsInv(s1, EndDeactivate(n, true), names);
        assert s2.active == s.active[1..];
        ResetLeaves(s2, names, raises);
      }
    }
  }

  /** The reset empties the list exactly when no listed scenario's injector raises; otherwise the
      scenario that raised and all after it stay listed. */
  lemma ResetClearsIff(s: State, names: set<string>, raises: string -> bool)
    requires Inv(s, names)
    ensures ResetAll(s, s.active, raises).active == [] <==> forall n :: n in s.active ==> !raises(n)
  {
    ResetLeaves(s, names, raises);
    FirstRaiseSpec(s.active, raises);
  }

  lemma {:induction false} FirstRaiseSpec(names: seq<string>, raises: string -> bool)
    ensures FirstRaise(names, raises) == |names| <==> forall n :: n in names ==> !raises(n)
  {
    if names != [] {
      assert names == [names[0]] + names[1..];
      FirstRaiseSpec(names[1..], raises);
    }
  }

  predicate AllActivations(es: seq<Event>) {
    forall k :: 0 <= k < |es| ==> es[k].EndActivate?
  }

  lemma JoinStep(s: State, names: set<string>, e: Event, n: string)
    requires Inv(s, names) && Enabled(s, e) && e.EndActivate?
    ensures Inv(Apply(s, e), names)
    ensures n in Apply(s, e).active <==> n in s.active || e == EndActivate(n, true)
  {
    ApplyKeepsInv(s, e, names);
  }

  /** Some activation of the scenario ends well. */
  predicate Joins(es: seq<Event>, n: string) {
    exists k :: 0 <= k < |es| && es[k] == EndActivate(n, true)
  }

  lemma JoinsFront(es: seq<Event>, n: string)
    requires es != []
    ensures Joins(es, n) <==> Joins(es[..|es| - 1], n) || es[|es| - 1] == EndActivate(n, true)
  {
    if k :| 0 <= k < |es| - 1 && es[k] == EndActivate(n, true) { assert es[..|es| - 1][k] == es[k]; }
  }

  lemma RunFront(s: State, es: seq<Event>)
    requires es != [] && Run(s, es).Some?
    ensures var front, e := es[..|es| - 1], es[|es| - 1];
      && Run(s, front).Some? && Enabled(Run(s, front).value, e)
      && Run(s, es).value == Apply(Run(s, front).value, e)
  {
  }

  lemma {:induction false} PendingActivationsJoin(s: State, names: set<string>, es: seq<Event>, n: string)
    requires Inv(s, names) && Run(s, es).Some? && AllActivations(es)
    ensures Inv(Run(s, es).value, names)
    ensures n in Run(s, es).value.active <==> n in s.active || Joins(es, n)
  {
    if es != [] {
      RunFront(s, es);
      PendingActivationsJoin(s, names, es[..|es| - 1], n);
      JoinsFront(es, n);
      JoinStep(Run(s, es[..|es| - 1]).value, names, es[|es| - 1], n);
    }
  }

  lemma {:induction false} EmptyIff(xs: seq<string>)
    ensures xs == [] <==> forall n :: n !in xs
  {
    if xs != [] { assert xs[0] in xs; }
  }

  /** The reset does not reach activations that still wait for their injector.  For every state:
      once they have come to their ends, nothing is active if and only if no listed scenario's
      injector raised and none of them succeeded. */
  lemma ResetAndPendingIff(s: State, names: set<string>, raises: string -> bool, es: seq<Event>)
    requires Inv(s, names) && Run(ResetAll(s, s.active, raises), es).Some? && AllActivations(es)
    ensures Run(ResetAll(s, s.active, raises), es).value.active == []
       <==> (forall n :: n in s.active ==> !raises(n)) && (forall n :: !Joins(es, n))
  {
    var t := ResetAll(s, s.active, raises);
    ResetKeepsInv(s, names, s.active, raises);
    ResetClearsIff(s, names, raises);
    forall n ensures n in Run(t, es).value.active <==> n in t.active || Joins(es, n) {
      PendingActivationsJoin(t, names, es, n);
    }
    EmptyIff(t.active);
    EmptyIff(Run(t, es).value.active);
  }

  lemma {:induction false} ResetKeepsInv(s: State, names: set<string>, ns: seq<string>, raises: string -> bool)
    requires Inv(s, names)
    ensures Inv(ResetAll(s, ns, raises), names)
    decreases |ns|
  {
    if ns != [] {
      var s1 := Apply(s, BeginDeactivate(ns[0]));
      ApplyKeepsInv(s, BeginDeactivate(ns[0]), names);
      if Enabled(s1, EndDeactivate(ns[0], !raises(ns[0]))) {
        ApplyKeepsInv(s1, EndDeactivate(ns[0], !raises(ns[0])), names);
        ResetKeepsInv(Apply(s1, EndDeactivate(ns[0], !raises(ns[0]))), names, ns[1..], raises);
      }
    }
  }

  // ----- a reset that other calls overlap -----------------------------------------------------

  /** The last completed call for a scenario: an activation (true), a deactivation, or none. */
  function LastDone(es: seq<Event>, n: string): Option<bool> {
    if es == [] then None
    else
      match es[|es| - 1]
      case EndActivate(m, ok) => if ok && m == n then Some(true) else LastDone(es[..|es| - 1], n)
      case EndDeactivate(m, ok) => if ok && m == n then Some(false) else LastDone(es[..|es| - 1], n)
      case _ => LastDone(es[..|es| - 1], n)
  }

  lemma {:induction false} ListedByLastDone(es: seq<Event>, n: string)
    ensures Listed(es, n) <==> LastDone(es, n) == Some(true)
  {
    if es != [] { ListedByLastDone(es[..|es| - 1], n); }
  }

  lemma {:induction false} LastDoneOf(a: seq<Event>, b: seq<Event>, n: string)
    ensures LastDone(a + b, n) == if LastDone(b, n).Some? then LastDone(b, n) else LastDone(a, n)
  {
    if b == [] {
      assert a + b == a;
    } else {
      assert (a + b)[..|a + b| - 1] == a + b[..|b| - 1];
      LastDoneOf(a, b[..|b| - 1], n);
    }
  }

  ghost predicate EndedAt(names: seq<string>, es: seq<Event>, ends: seq<nat>, raises: string -> bool, i: nat)
    requires i < |ends| <= |names|
  {
    ends[i] < |es| && es[ends[i]] == EndDeactivate(names[i], !raises(names[i]))
  }

  /** The deactivations of the reset for the first names, in order, none but the last raising. */
  ghost predicate EndsSoFar(names: seq<string>, es: seq<Event>, ends: seq<nat>, raises: string -> bool) {
    && |ends| <= |names|
    && (forall i :: 0 <= i < |ends| ==> EndedAt(names, es, ends, raises, i))
    && (forall i :: 0 <= i < |ends| - 1 ==> ends[i] < ends[i + 1] && !raises(names[i]))
  }

  /** Where the deactivations of the reset ended in the history since it began: those of all names,
      or of the first names up to one that raised. */
  ghost predicate OwnEnds(names: seq<string>, es: seq<Event>, ends: seq<nat>, raises: string -> bool) {
    EndsSoFar(names, es, ends, raises) && (|ends| < |names| ==> ends != [] && raises(names[|ends| - 1]))
  }

  /** What has happened since the reset deactivated scenario n, if it did. */
  function Since(names: seq<string>, es: seq<Event>, ends: seq<nat>, raises: string -> bool, n: string)
    : Option<seq<Event>>
  {
    if ends == [] then None
    else
      var last := |ends| - 1;
      if last < |names| && names[last] == n && !raises(n) && ends[last] < |es| then Some(es[ends[last] + 1..])
      else Since(names, es, ends[..last], raises, n)
  }

  lemma {:induction false} SinceSpec(names: seq<string>, es: seq<Event>, ends: seq<nat>, raises: string -> bool,
      n: string)
    requires |ends| <= |names| && forall i :: 0 <= i < |ends| ==> EndedAt(names, es, ends, raises, i)
    ensures Since(names, es, ends, raises, n).Some? ==>
              exists e :: 0 <= e < |es| && es[e] == EndDeactivate(n, true)
                && Since(names, es, ends, raises, n).value == es[e + 1..]
  {
    if ends != [] {
      var last := |ends| - 1;
      if names[last] == n && !raises(n) && ends[last] < |es| {
        assert EndedAt(names, es, ends, raises, last);
      } else {
        forall i | 0 <= i < last ensures EndedAt(names, es, ends[..last], raises, i) {
          assert EndedAt(names, es, ends, raises, i);
        }
        SinceSpec(names, es, ends[..last], raises, n);
      }
    }
  }

  /** Scenario n is listed after the reset: the last call completed since the reset deactivated it
      was an activation; or the reset did not deactivate it, and the last call completed in the
      meantime was an activation or, for a scenario listed before, there was none. */
  predicate Remains(names: seq<string>, es: seq<Event>, ends: seq<nat>, raises: string -> bool, n: string) {
    match Since(names, es, ends, raises, n)
    case Some(later) => LastDone(later, n) == Some(true)
    case None => LastDone(es, n) == Some(true) || (LastDone(es, n) == None && n in names)
  }

  lemma LastDoneAfterEnd(es: seq<Event>, e: nat, n: string)
    requires e < |es| && es[e] == EndDeactivate(n, true)
    ensures LastDone(es, n) == if LastDone(es[e + 1..], n).Some? then LastDone(es[e + 1..], n) else Some(false)
  {
    var upTo := es[..e + 1];
    assert es == upTo + es[e + 1..];
    assert upTo[|upTo| - 1] == es[e];
    LastDoneOf(upTo, es[e + 1..], n);
  }

  lemma RemainsIffLast(names: seq<string>, before: seq<Event>, es: seq<Event>, ends: seq<nat>, raises: string -> bool,
      n: string)
    requires OwnEnds(names, es, ends, raises) && (n in names <==> LastDone(before, n) == Some(true))
    ensures Remains(names, es, ends, raises, n) <==> LastDone(before + es, n) == Some(true)
  {
    LastDoneOf(before, es, n);
    SinceSpec(names, es, ends, raises, n);
    if Since(names, es, ends, raises, n).Some? {
      var e: nat :| e < |es| && es[e] == EndDeactivate(n, true)
        && Since(names, es, ends, raises, n).value == es[e + 1..];
      LastDoneAfterEnd(es, e, n);
    }
  }

  lemma {:induction false} RunInTurns(s: State, a: seq<Event>, b: seq<Event>)
    ensures Run(s, a + b) == if Run(s, a).Some? then Run(Run(s, a).value, b) else None
  {
    if b == [] {
      assert a + b == a;
    } else {
      assert (a + b)[..|a + b| - 1] == a + b[..|b| - 1];
      RunInTurns(s, a, b[..|b| - 1]);
    }
  }

  /** Whatever other calls do while the reset waits for its injectors, and whether or not those
      raise: which scenarios are listed when it is over. */
  lemma OverlappedReset(scenarios: set<string>, before: seq<Event>, es: seq<Event>, ends: seq<nat>,
      raises: string -> bool, n: string)
    requires Run(Start(scenarios), before).Some? && Run(Run(Start(scenarios), before).value, es).Some?
    requires OwnEnds(Run(Start(scenarios), before).value.active, es, ends, raises)
    ensures n in Run(Run(Start(scenarios), before).value, es).value.active
       <==> n in scenarios && Remains(Run(Start(scenarios), before).value.active, es, ends, raises, n)
  {
    var names := Run(Start(scenarios), before).value.active;
    RunInTurns(Start(scenarios), before, es);
    ActiveListFollowsCalls(scenarios, before, n);
    ActiveListFollowsCalls(scenarios, before + es, n);
    ListedByLastDone(before, n);
    ListedByLastDone(before + es, n);
    if n in scenarios { RemainsIffLast(names, before, es, ends, raises, n); }
  }

  /** So such a reset leaves nothing active exactly if every scenario it did not deactivate was
      unlisted meanwhile by others, and none came back since. */
  lemma OverlappedResetClearsIff(scenarios: set<string>, before: seq<Event>, es: seq<Event>, ends: seq<nat>,
      raises: string -> bool)
    requires Run(Start(scenarios), before).Some? && Run(Run(Start(scenarios), before).value, es).Some?
    requires OwnEnds(Run(Start(scenarios), before).value.active, es, ends, raises)
    ensures Run(Run(Start(scenarios), before).value, es).value.active == []
       <==> forall n :: n in scenarios ==> !Remains(Run(Start(scenarios), before).value.active, es, ends, raises, n)
  {
    forall n ensures n in Run(Run(Start(scenarios), before).value, es).value.active
                <==> n in scenarios && Remains(Run(Start(scenarios), before).value.active, es, ends, raises, n) {
      OverlappedReset(scenarios, before, es, ends, raises, n);
    }
    EmptyIff(Run(Run(Start(scenarios), before).value, es).value.active);
  }

  class Controller {
    var phases: map<string, Phase>
    var activeScenarios: seq<string>
    var calls: multiset<Call>

    function View(): State
      reads this
    {
      State(phases, activeScenarios, calls)
    }

    constructor (scenarios: set<string>)
      ensures View() == Start(scenarios)
    {
      phases, activeScenarios, calls := map n | n in scenarios :: Idle, [], multiset{};
    }

    /** `activate` up to the injector; `waits` says whether the call got that far. */
    method ActivateBegin(name: string) returns (waits: bool)
      modifies this
      ensures View() == Apply(old(View()), BeginActivate(name))
      ensures waits <==> name in old(phases) && old(phases)[name] != Active
      ensures waits ==> Enabled(View(), EndActivate(name, true))
    {
      if name !in phases { return false; }
      if phases[name] == Active { return false; }
      calls := calls + multiset{Activating(name)};
      return true;
    }

    method ActivateEnd(name: string, ok: bool)
      requires Enabled(View(), EndActivate(name, ok))
      modifies this
      ensures View() == Apply(old(View()), EndActivate(name, ok))
    {
      calls := calls - multiset{Activating(name)};
      if !ok { return; }
      phases := phases[name := Active];
      if name !in activeScenarios { activeScenarios := activeScenarios + [name]; }
    }

    method DeactivateBegin(name: string) returns (waits: bool)
      modifies this
      ensures View() == Apply(old(View()), BeginDeactivate(name))
      ensures waits <==> name in old(phases)
      ensures waits ==> Enabled(View(), EndDeactivate(name, true))
    {
      if name !in phases { return false; }
      phases := phases[name := Recovering];
      calls := calls + multiset{Deactivating(name)};
      return true;
    }

    method DeactivateEnd(name: string, ok: bool)
      requires Enabled(View(), EndDeactivate(name, ok))
      modifies this
      ensures View() == Apply(old(View()), EndDeactivate(name, ok))
    {
      calls := calls - multiset{Deactivating(name)};
      if !ok { return; }
      phases := phases[name := Idle];
      RemoveFirst(name);
    }

    /** `if name in list: list.remove(name)` */
    method RemoveFirst(name: string)
      modifies this`activeScenarios
      ensures activeScenarios == Remove(old(activeScenarios), name)
    {
      var i := 0;
      while i < |activeScenarios| && activeScenarios[i] != name
        invariant 0 <= i <= |activeScenarios|
        invariant name !in activeScenarios[..i]
      {
        i := i + 1;
      }
      RemoveAt(activeScenarios, name, i);
      if i < |activeScenarios| { activeScenarios := activeScenarios[..i] + activeScenarios[i + 1..]; }
    }

    /** One stretch of some other call. */
    method Perform(e: Event)
      requires Enabled(View(), e)
      modifies this
      ensures View() == Apply(old(View()), e)
    {
      match e
      case BeginActivate(n) => var _ := ActivateBegin(n);
      case EndActivate(n, ok) => ActivateEnd(n, ok);
      case BeginDeactivate(n) => var _ := DeactivateBegin(n);
      case EndDeactivate(n, ok) => DeactivateEnd(n, ok);
      case MarkDetected(_) =>
      case MarkRemediated(n) => if n in phases { phases := phases[n := Recovering]; }
    }

    /** What other calls do while the deactivation of `name` waits for its injector; the end of that
        deactivation itself is not theirs. */
    method Meanwhile(name: string, others: seq<Event>) returns (ghost es: seq<Event>)
      requires Deactivating(name) in calls && name in phases
      modifies this
      ensures Run(old(View()), es) == Some(View()) && phases.Keys == old(phases.Keys)
      ensures Deactivating(name) in calls && name in phases && (others == [] ==> es == [])
    {
      es := [];
      var i := 0;
      while i < |others|
        invariant 0 <= i <= |others| && (others == [] ==> es == [])
        invariant Run(old(View()), es) == Some(View()) && Deactivating(name) in calls && phases.Keys == old(phases.Keys)
      {
        var e := others[i];
        if Enabled(View(), e) && !(e.EndDeactivate? && e.name == name && calls[Deactivating(name)] == 1) {
          RunPush(old(View()), es, e);
          StillWaits(View(), e, name);
          Perform(e);
          es := es + [e];
        }
        i := i + 1;
      }
    }

    /** A deactivation up to the end of its injector's work. */
    method BeginTurn(name: string, others: seq<Event>) returns (ghost during: seq<Event>)
      requires name in phases
      modifies this
      ensures Run(Apply(old(View()), BeginDeactivate(name)), during) == Some(View())
      ensures phases.Keys == old(phases.Keys) && Deactivating(name) in calls && (others == [] ==> during == [])
    {
      var _ := DeactivateBegin(name);
      during := Meanwhile(name, others);
    }

    /** One turn of the reset: its own deactivation of a scenario, with what others do meanwhile. */
    method Turn(name: string, raises: bool, others: seq<Event>) returns (ghost turn: seq<Event>)
      requires name in phases
      modifies this
      ensures Run(old(View()), turn) == Some(View()) && phases.Keys == old(phases.Keys)
      ensures turn != [] && turn[|turn| - 1] == EndDeactivate(name, !raises)
      ensures others == [] ==> View() == Apply(Apply(old(View()), BeginDeactivate(name)), EndDeactivate(name, !raises))
    {
      ghost var s := View();
      ghost var during := BeginTurn(name, others);
      TurnRuns(s, View(), name, during, raises);
      DeactivateEnd(name, !raises);
      turn := TurnOf(name, during, raises);
    }

    /** The i-th turn, told from the beginning of the reset. */
    method NextTurn(ghost s0: State, names: seq<string>, i: nat, raises: string -> bool, others: seq<Event>,
                    ghost es: seq<Event>, ghost ends: seq<nat>) returns (ghost longer: seq<Event>, ghost more: seq<nat>)
      requires i < |names| && names[i] in phases && Progress(s0, names, i, View(), es, ends, raises)
      modifies this
      ensures phases.Keys == old(phases.Keys) && Run(s0, longer) == Some(View())
      ensures if raises(names[i]) then OwnEnds(names, longer, more, raises)
              else Progress(s0, names, i + 1, View(), longer, more, raises)
      ensures others == [] && Undisturbed(s0, names, i, old(View()), raises) ==>
                if raises(names[i]) then View() == ResetAll(s0, names, raises)
                else Undisturbed(s0, names, i + 1, View(), raises)
    {
      ghost var s := View();
      ghost var turn := Turn(names[i], raises(names[i]), others);
      ProgressTurn(s0, names, i, s, es, ends, raises, View(), turn);
      if others == [] && Undisturbed(s0, names, i, s, raises) { ResetTurn(s0, names, i, s, raises); }
      longer, more := es + turn, ends + [|es| + |turn| - 1];
    }

    /** The emergency reset; `others(i)` is what other calls do at its i-th await. */
    method DeactivateAll(raises: string -> bool, others: nat -> seq<Event>)
      returns (ghost es: seq<Event>, ghost ends: seq<nat>)
      requires forall n :: n in activeScenarios ==> n in phases
      modifies this
      ensures Run(old(View()), es) == Some(View()) && OwnEnds(old(activeScenarios), es, ends, raises)
      ensures Quiet(others) ==> View() == ResetAll(old(View()), old(activeScenarios), raises)
    {
      var names := activeScenarios;
      ghost var s0 := View();
      es, ends := [], [];
      ResetBegins(s0, names, raises);
      var i := 0;
      while i < |names|
        invariant 0 <= i <= |names| && KnownAll(names, phases.Keys)
        invariant Progress(s0, names, i, View(), es, ends, raises)
        invariant Quiet(others) ==> Undisturbed(s0, names, i, View(), raises)
      {
        assert names[i] in names;
        es, ends := NextTurn(s0, names, i, raises, others(i), es, ends);
        if raises(names[i]) { return; }
        i := i + 1;
      }
      ResetEnds(s0, names, View(), es, ends, raises);
    }
  }

  function TurnOf(name: string, during: seq<Event>, raises: bool): (turn: seq<Event>)
    ensures turn != [] && turn[|turn| - 1] == EndDeactivate(name, !raises)
  {
    [BeginDeactivate(name)] + during + [EndDeactivate(name, !raises)]
  }

  lemma TurnRuns(s: State, waited: State, name: string, during: seq<Event>, raises: bool)
    requires Run(Apply(s, BeginDeactivate(name)), during) == Some(waited)
    requires Deactivating(name) in waited.calls && name in waited.phases
    ensures Enabled(waited, EndDeactivate(name, !raises))
    ensures Run(s, TurnOf(name, during, raises)) == Some(Apply(waited, EndDeactivate(name, !raises)))
    ensures during == [] ==> waited == Apply(s, BeginDeactivate(name))
    ensures Apply(waited, EndDeactivate(name, !raises)).phases.Keys == waited.phases.Keys
  {
    var first, last := [BeginDeactivate(name)], EndDeactivate(name, !raises);
    assert first[..0] == [] && Run(s, first) == Some(Apply(s, BeginDeactivate(name)));
    RunInTurns(s, first, during);
    assert (first + during + [last])[..|first + during|] == first + during;
  }

  /** No other call does anything at the awaits. */
  ghost predicate Quiet(others: nat -> seq<Event>) {
    forall i :: others(i) == []
  }

  ghost predicate KnownAll(names: seq<string>, known: set<string>) {
    forall n :: n in names ==> n in known
  }

  lemma ResetBegins(s0: State, names: seq<string>, raises: string -> bool)
    ensures Progress(s0, names, 0, s0, [], [], raises) && Undisturbed(s0, names, 0, s0, raises)
  {
    assert names[0..] == names;
  }

  lemma ResetEnds(s0: State, names: seq<string>, s: State, es: seq<Event>, ends: seq<nat>, raises: string -> bool)
    requires Progress(s0, names, |names|, s, es, ends, raises)
    ensures OwnEnds(names, es, ends, raises)
    ensures Undisturbed(s0, names, |names|, s, raises) ==> s == ResetAll(s0, names, raises)
  {
    assert names[|names|..] == [];
  }

  /** Nothing but its own end takes the waiting deactivation away. */
  lemma StillWaits(s: State, e: Event, name: string)
    requires Enabled(s, e) && Deactivating(name) in s.calls
    requires !(e.EndDeactivate? && e.name == name && s.calls[Deactivating(name)] == 1)
    ensures Deactivating(name) in Apply(s, e).calls
  {
    CallsChange(s, e, Deactivating(name));
  }

  lemma RunPush(s: State, es: seq<Event>, e: Event)
    requires Run(s, es).Some? && Enabled(Run(s, es).value, e)
    ensures Run(s, es + [e]) == Some(Apply(Run(s, es).value, e))
    ensures Apply(Run(s, es).value, e).phases.Keys == Run(s, es).value.phases.Keys
  {
    assert (es + [e])[..|es|] == es;
  }

  ghost predicate Undisturbed(s0: State, names: seq<string>, i: nat, s: State, raises: string -> bool) {
    i <= |names| && ResetAll(s, names[i..], raises) == ResetAll(s0, names, raises)
  }

  lemma ResetTurn(s0: State, names: seq<string>, i: nat, s: State, raises: string -> bool)
    requires i < |names| && names[i] in s.phases && Undisturbed(s0, names, i, s, raises)
    ensures var t := Apply(Apply(s, BeginDeactivate(names[i])), EndDeactivate(names[i], !raises(names[i])));
      if raises(names[i]) then t == ResetAll(s0, names, raises) else Undisturbed(s0, names, i + 1, t, raises)
  {
    assert names[i..][0] == names[i] && names[i..][1..] == names[i + 1..];
    assert Enabled(Apply(s, BeginDeactivate(names[i])), EndDeactivate(names[i], !raises(names[i])));
  }

  /** The reset has deactivated the first i names. */
  ghost predicate Progress(s0: State, names: seq<string>, i: nat, s: State, es: seq<Event>, ends: seq<nat>,
      raises: string -> bool)
  {
    && i <= |names| && Run(s0, es) == Some(s) && |ends| == i
    && EndsSoFar(names, es, ends, raises) && (i > 0 ==> !raises(names[i - 1]))
  }

  lemma ProgressTurn(s0: State, names: seq<string>, i: nat, s: State, es: seq<Event>, ends: seq<nat>,
      raises: string -> bool, t: State, turn: seq<Event>)
    requires Progress(s0, names, i, s, es, ends, raises) && i < |names| && Run(s, turn) == Some(t)
    requires turn != [] && turn[|turn| - 1] == EndDeactivate(names[i], !raises(names[i]))
    ensures var longer, more := es + turn, ends + [|es| + |turn| - 1];
      && Run(s0, longer) == Some(t)
      && if raises(names[i]) then OwnEnds(names, longer, more, raises)
           else Progress(s0, names, i + 1, t, longer, more, raises)
  {
    var longer, more := es + turn, ends + [|es| + |turn| - 1];
    RunInTurns(s0, es, turn);
    MoreEnds(names, es, ends, raises, turn);
  }

  lemma MoreEnds(names: seq<string>, es: seq<Event>, ends: seq<nat>, raises: string -> bool, turn: seq<Event>)
    requires EndsSoFar(names, es, ends, raises) && |ends| < |names| && (ends != [] ==> !raises(names[|ends| - 1]))
    requires turn != [] && turn[|turn| - 1] == EndDeactivate(names[|ends|], !raises(names[|ends|]))
    ensures EndsSoFar(names, es + turn, ends + [|es| + |turn| - 1], raises)
  {
    var longer, more := es + turn, ends + [|es| + |turn| - 1];
    forall i | 0 <= i < |more| ensures EndedAt(names, longer, more, raises, i) {
      if i < |ends| {
        assert EndedAt(names, es, ends, raises, i) && more[i] == ends[i] && longer[ends[i]] == es[ends[i]];
      } else {
        assert longer[|es| + |turn| - 1] == turn[|turn| - 1];
      }
    }
    if ends != [] { assert EndedAt(names, es, ends, raises, |ends| - 1); }
  }
}
