/** The rule engine and the reasoner's choice between it and the language model
    (reasoning/fast_path.py:13-197, reasoning/engine.py:110-166). */
module FastPath {
  import opened Wrappers
  import opened Playbooks
  import opened Sorting

  const APPROVAL_BELOW: real := 0.65
  const ESCALATE := "escalate_to_human"

  datatype Verdict = Holds | Fails | Raises

  /** `parameters` is None where the lambda raises. */
  datatype Rule<!S, !P> = Rule(name: string, priority: int, action: string, confidence: real,
                               condition: S -> Verdict, parameters: S -> Option<P>)

  datatype Decision<P> = Decision(rule: string, action: string, parameters: P, confidence: real, approval: bool)

  // ----- the engine -------------------------------------------------------------------

  function Decorate<S, P>(rules: seq<Rule<S, P>>): seq<(real, Rule<S, P>)> {
    seq(|rules|, i requires 0 <= i < |rules| => (-(rules[i].priority as real), rules[i]))
  }

  /** `sorted(RULES, key=priority, reverse=True)`. */
  function Ordered<S, P>(rules: seq<Rule<S, P>>): seq<Rule<S, P>> {
    Items(Sort(Decorate(rules)))
  }

  function RateOf(rates: map<string, real>, action: string): real {
    if action in rates then rates[action] else 1.0
  }

  function Confidence<S, P>(r: Rule<S, P>, rates: map<string, real>): real {
    var rate := RateOf(rates, r.action);
    if rate < 1.0 then (if rate < r.confidence then rate else r.confidence) else r.confidence
  }

  /** A decision object refuses a confidence outside [0, 1]; a low confidence or an escalation
      asks for approval. */
  function Decide<S, P>(r: Rule<S, P>, rates: map<string, real>, s: S): Option<Decision<P>> {
    var c := Confidence(r, rates);
    if r.parameters(s).None? || !(0.0 <= c <= 1.0) then None
    else Some(Decision(r.name, r.action, r.parameters(s).value, c, c < APPROVAL_BELOW || r.action == ESCALATE))
  }

  /** One turn of the loop in `evaluate`; None means `continue`. */
  function TryRule<S, P>(r: Rule<S, P>, rates: map<string, real>, s: S): Option<Decision<P>> {
    if !r.condition(s).Holds? || RateOf(rates, r.action) < GATE then None else Decide(r, rates, s)
  }

  function FirstMatch<S, P>(rules: seq<Rule<S, P>>, rates: map<string, real>, s: S): Option<Decision<P>> {
    if rules == [] then None
    else if TryRule(rules[0], rates, s).Some? then TryRule(rules[0], rates, s)
    else FirstMatch(rules[1..], rates, s)
  }

  function Evaluate<S, P>(rules: seq<Rule<S, P>>, rates: map<string, real>, s: S): Option<Decision<P>> {
    FirstMatch(Ordered(rules), rates, s)
  }

  // ----- what evaluate returns ----------------------------------------------------------

  /** The rule matches without error, passes the gate and yields a decision. */
  predicate Fires<S, P>(r: Rule<S, P>, rates: map<string, real>, s: S) {
    && r.condition(s) == Holds && r.parameters(s).Some?
    && GATE <= RateOf(rates, r.action)
    && 0.0 <= r.confidence && (r.confidence <= 1.0 || RateOf(rates, r.action) < 1.0)
  }

  lemma FiresIffTried<S, P>(r: Rule<S, P>, rates: map<string, real>, s: S)
    ensures Fires(r, rates, s) <==> TryRule(r, rates, s).Some?
  {
  }

  lemma {:induction false} FirstMatchSpec<S, P>(rules: seq<Rule<S, P>>, rates: map<string, real>, s: S)
    ensures FirstMatch(rules, rates, s).None? <==> forall i :: 0 <= i < |rules| ==> !Fires(rules[i], rates, s)
    ensures FirstMatch(rules, rates, s).Some? ==>
      exists i :: FirstFiring(rules, rates, s, i) && FirstMatch(rules, rates, s) == TryRule(rules[i], rates, s)
  {
    if rules != [] {
      FiresIffTried(rules[0], rates, s);
      if TryRule(rules[0], rates, s).Some? {
        assert FirstFiring(rules, rates, s, 0);
      } else {
        var rest := rules[1..];
        FirstMatchSpec(rest, rates, s);
        if FirstMatch(rest, rates, s).Some? {
          var i :| FirstFiring(rest, rates, s, i) && FirstMatch(rest, rates, s) == TryRule(rest[i], rates, s);
          forall j | 0 <= j < i + 1 ensures !Fires(rules[j], rates, s) {
            if j > 0 { assert rules[j] == rest[j - 1]; }
          }
          assert FirstFiring(rules, rates, s, i + 1);
        } else {
          forall j | 0 <= j < |rules| ensures !Fires(rules[j], rates, s) {
            if j > 0 { assert rules[j] == rest[j - 1]; }
          }
        }
      }
    }
  }

  ghost predicate FirstFiring<S, P>(rules: seq<Rule<S, P>>, rates: map<string, real>, s: S, i: int) {
    0 <= i < |rules| && Fires(rules[i], rates, s) && forall j :: 0 <= j < i ==> !Fires(rules[j], rates, s)
  }

  lemma SortedKeys<S, P>(rules: seq<Rule<S, P>>)
    ensures var sorted := Sort(Decorate(rules));
      && |sorted| == |rules| && Ascending(sorted)
      && forall i :: 0 <= i < |sorted| ==> sorted[i].0 == -(sorted[i].1.priority as real)
  {
    var d := Decorate(rules);
    SortSpec(d, 0.0);
    forall i | 0 <= i < |Sort(d)| ensures Sort(d)[i].0 == -(Sort(d)[i].1.priority as real) {
      SortMembers(d, Sort(d)[i]);
    }
  }

  lemma OrderedDescends<S, P>(rules: seq<Rule<S, P>>, i: nat, j: nat)
    requires i < j < |Ordered(rules)|
    ensures Ordered(rules)[i].priority >= Ordered(rules)[j].priority
  {
    SortedKeys(rules);
    var sorted := Sort(Decorate(rules));
    assert sorted[i].0 <= sorted[j].0;
  }

  lemma OrderedMembers<S, P>(rules: seq<Rule<S, P>>, r: Rule<S, P>)
    ensures r in Ordered(rules) <==> r in rules
  {
    SortedKeys(rules);
    var d := Decorate(rules);
    var sorted, item := Sort(d), (-(r.priority as real), r);
    SortMembers(d, item);
    if k :| 0 <= k < |rules| && rules[k] == r {
      assert d[k] == item;
      var i :| 0 <= i < |sorted| && sorted[i] == item;
      assert Ordered(rules)[i] == r;
    }
    if i :| 0 <= i < |Ordered(rules)| && Ordered(rules)[i] == r {
      assert sorted[i] == item;
      var k :| 0 <= k < |d| && d[k] == item;
      assert rules[k] == r;
    }
  }

  /** `evaluate` answers exactly when some rule fires, with the decision of a firing rule of the
      highest priority; its confidence exceeds neither the rule's nor the rate seen. */
  lemma EvaluateSpec<S, P>(rules: seq<Rule<S, P>>, rates: map<string, real>, s: S)
    ensures Evaluate(rules, rates, s).None? <==> forall r :: r in rules ==> !Fires(r, rates, s)
    ensures Evaluate(rules, rates, s).Some? ==> exists r :: r in rules && Chosen(rules, rates, s, r)
  {
    var ordered := Ordered(rules);
    FirstMatchSpec(ordered, rates, s);
    forall r ensures r in ordered <==> r in rules { OrderedMembers(rules, r); }
    if FirstMatch(ordered, rates, s).Some? {
      var i :| FirstFiring(ordered, rates, s, i) && FirstMatch(ordered, rates, s) == TryRule(ordered[i], rates, s);
      var r := ordered[i];
      forall q | q in rules && Fires(q, rates, s) ensures q.priority <= r.priority {
        assert q in ordered;
        var j :| 0 <= j < |ordered| && ordered[j] == q;
        assert j >= i;
        if j > i { OrderedDescends(rules, i, j); }
      }
      assert Chosen(rules, rates, s, r);
    }
  }

  ghost predicate Chosen<S, P>(rules: seq<Rule<S, P>>, rates: map<string, real>, s: S, r: Rule<S, P>)
    requires Evaluate(rules, rates, s).Some?
  {
    var d := Evaluate(rules, rates, s).value;
    && Fires(r, rates, s) && (forall q :: q in rules && Fires(q, rates, s) ==> q.priority <= r.priority)
    && d.rule == r.name && d.action == r.action && Some(d.parameters) == r.parameters(s)
    && d.confidence <= r.confidence && d.confidence <= RateOf(rates, r.action)
    && (d.confidence == r.confidence || d.confidence == RateOf(rates, r.action))
    && (d.approval <==> d.confidence < APPROVAL_BELOW || d.action == ESCALATE)
  }

  /** Among rules of equal priority the one listed first in the table wins: the decision is that
      of the first firing rule in table order that has the highest firing priority. */
  lemma TiesGoToTheEarlierRule<S, P>(rules: seq<Rule<S, P>>, rates: map<string, real>, s: S, first: nat)
    requires first < |rules| && Fires(rules[first], rates, s)
    requires forall i :: 0 <= i < |rules| && Fires(rules[i], rates, s) ==> rules[i].priority <= rules[first].priority
    requires forall i :: 0 <= i < first && Fires(rules[i], rates, s) ==> rules[i].priority < rules[first].priority
    ensures Evaluate(rules, rates, s) == TryRule(rules[first], rates, s)
  {
    var d, sorted, key := Decorate(rules), Sort(Decorate(rules)), -(rules[first].priority as real);
    var i := FirstFiringPosition(rules, rates, s, first);
    assert WithKey(sorted, key) == WithKey(d, key) by { SortSpec(d, key); }
    assert FirstOf(WithKey(sorted, key), rates, s) == Some(sorted[i].1) by { FirstInGroup(sorted, key, i, rates, s); }
    FirstInTable(rules, rates, s, first);
  }

  lemma FirstInTable<S, P>(rules: seq<Rule<S, P>>, rates: map<string, real>, s: S, first: nat)
    requires first < |rules| && Fires(rules[first], rates, s)
    requires forall i :: 0 <= i < first && Fires(rules[i], rates, s) ==> rules[i].priority < rules[first].priority
    ensures FirstOf(WithKey(Decorate(rules), -(rules[first].priority as real)), rates, s) == Some(rules[first])
  {
    var d, key := Decorate(rules), -(rules[first].priority as real);
    assert d[first] == (key, rules[first]);
    forall j | 0 <= j < first && d[j].0 == key ensures !Fires(d[j].1, rates, s) {
      assert d[j] == (-(rules[j].priority as real), rules[j]);
    }
    FirstInGroup(d, key, first, rates, s);
  }

  lemma FirstFiringPosition<S, P>(rules: seq<Rule<S, P>>, rates: map<string, real>, s: S, first: nat) returns (i: nat)
    requires first < |rules| && Fires(rules[first], rates, s)
    requires forall i :: 0 <= i < |rules| && Fires(rules[i], rates, s) ==> rules[i].priority <= rules[first].priority
    ensures var sorted := Sort(Decorate(rules));
      && i < |sorted| && Fires(sorted[i].1, rates, s) && Evaluate(rules, rates, s) == TryRule(sorted[i].1, rates, s)
      && sorted[i].0 == -(rules[first].priority as real)
      && forall j :: 0 <= j < i ==> !Fires(sorted[j].1, rates, s)
  {
    var ordered := Ordered(rules);
    FirstMatchSpec(ordered, rates, s);
    OrderedMembers(rules, rules[first]);
    var j :| 0 <= j < |ordered| && ordered[j] == rules[first];
    i :| FirstFiring(ordered, rates, s, i) && FirstMatch(ordered, rates, s) == TryRule(ordered[i], rates, s);
    assert i <= j;
    if i < j { OrderedDescends(rules, i, j); }
    OrderedMembers(rules, ordered[i]);
    var k :| 0 <= k < |rules| && rules[k] == ordered[i];
    SortedKeys(rules);
    forall m | 0 <= m < i ensures !Fires(Sort(Decorate(rules))[m].1, rates, s) {
      assert !Fires(ordered[m], rates, s);
    }
  }

  /** The first firing rule among those with one key. */
  function FirstOf<S, P>(xs: seq<(real, Rule<S, P>)>, rates: map<string, real>, s: S): Option<Rule<S, P>> {
    if xs == [] then None
    else if FirstOf(xs[..|xs| - 1], rates, s).Some? then FirstOf(xs[..|xs| - 1], rates, s)
    else if Fires(xs[|xs| - 1].1, rates, s) then Some(xs[|xs| - 1].1)
    else None
  }

  lemma {:induction false} FirstInGroup<S, P>(
      xs: seq<(real, Rule<S, P>)>, key: real, i: nat, rates: map<string, real>, s: S)
    requires i < |xs| && xs[i].0 == key && Fires(xs[i].1, rates, s)
    requires forall j :: 0 <= j < i && xs[j].0 == key ==> !Fires(xs[j].1, rates, s)
    ensures FirstOf(WithKey(xs, key), rates, s) == Some(xs[i].1)
  {
    var front, last := xs[..|xs| - 1], xs[|xs| - 1];
    var group := WithKey(front, key);
    if i < |front| {
      FirstInGroup(front, key, i, rates, s);
      FirstOfPush(group, last, rates, s);
    } else {
      NoneInGroup(front, key, rates, s);
      FirstOfPush(group, last, rates, s);
    }
  }

  lemma {:induction false} NoneInGroup<S, P>(xs: seq<(real, Rule<S, P>)>, key: real, rates: map<string, real>, s: S)
    requires forall j :: 0 <= j < |xs| && xs[j].0 == key ==> !Fires(xs[j].1, rates, s)
    ensures FirstOf(WithKey(xs, key), rates, s) == None
  {
    if xs != [] {
      var front, last := xs[..|xs| - 1], xs[|xs| - 1];
      NoneInGroup(front, key, rates, s);
      FirstOfPush(WithKey(front, key), last, rates, s);
    }
  }

  lemma FirstOfPush<S, P>(xs: seq<(real, Rule<S, P>)>, x: (real, Rule<S, P>), rates: map<string, real>, s: S)
    ensures FirstOf(xs + [x], rates, s)
         == if FirstOf(xs, rates, s).Some? then FirstOf(xs, rates, s)
            else if Fires(x.1, rates, s) then Some(x.1) else None
    ensures xs + [] == xs
  {
    assert (xs + [x])[..|xs|] == xs;
  }

  // ----- the closed loop ------------------------------------------------------------------

  /** One feedback update: the action reported on, its outcome, and the rows it updated. */
  datatype Feedback = Feedback(action: string, success: bool, rows: seq<string>, answers: string -> Answer)

  ghost predicate FeedbackRun(ts: seq<Table>, fs: seq<Feedback>, ties: Ties) {
    |ts| == |fs| + 1 && forall k :: 0 <= k < |fs| ==> FeedbackStep(ts[k], fs[k], ts[k + 1], ties)
  }

  ghost predicate FeedbackStep(t: Table, f: Feedback, t': Table, ties: Ties) {
    Listing(t, f.action, f.rows) && t' == UpdateAll(t, f.rows, f.success, f.answers, ties)
  }

  /** The feedback tells nothing good about the action; a success reported for an empty action
      would reach every playbook. */
  predicate NoSuccessFor(f: Feedback, action: string) {
    f.success ==> f.action != action && f.action != ""
  }

  predicate Silenced(p: Playbook, action: string, ties: Ties) {
    p.action == Some(action) && Gated(p) && Consistent(p, ties)
  }

  lemma {:induction false} StaysSilenced(ts: seq<Table>, fs: seq<Feedback>, ties: Ties, id: string, action: string,
      k: nat)
    requires FeedbackRun(ts, fs, ties) && k <= |fs| && action != ""
    requires id in ts[0] && Silenced(ts[0][id], action, ties)
    requires forall i :: 0 <= i < |fs| ==> NoSuccessFor(fs[i], action)
    ensures id in ts[k] && Silenced(ts[k][id], action, ties)
  {
    if k > 0 {
      StaysSilenced(ts, fs, ties, id, action, k - 1);
      var t, f, p := ts[k - 1], fs[k - 1], ts[k - 1][id];
      assert FeedbackStep(t, f, ts[k], ties);
      UpdateEffect(t, f.rows, f.success, f.answers, ties, id);
      if id in f.rows {
        assert Listed(p, f.action) && !f.success;
        ConsistentStaysGated(p, 1, ties);
        assert AfterFailures(p, 1, ties) == Learn(AfterFailures(p, 0, ties), false, ties);
      }
    }
  }

  /** The closed loop: once a playbook of an action is gated, no run of feedback without a success
      for that action lets any rule recommend it again, whatever else is learned meanwhile, in
      whatever order the listing breaks ties, and however half-way quotients are rounded. */
  lemma GatedActionStaysSilent<S, P>(ts: seq<Table>, fs: seq<Feedback>, ties: Ties, id: string, action: string,
                                     rows: seq<string>, rules: seq<Rule<S, P>>, s: S)
    requires FeedbackRun(ts, fs, ties) && action != ""
    requires id in ts[0] && Silenced(ts[0][id], action, ties)
    requires forall i :: 0 <= i < |fs| ==> NoSuccessFor(fs[i], action)
    requires Listing(ts[|fs|], "", rows)
    ensures Evaluate(rules, Rates(ts[|fs|], rows), s).Some? ==>
      Evaluate(rules, Rates(ts[|fs|], rows), s).value.action != action
  {
    var t := ts[|fs|];
    StaysSilenced(ts, fs, ties, id, action, |fs|);
    RateSeenIsWorst(t, rows, action);
    assert Listed(t[id], action);
    var rates := Rates(t, rows);
    assert rates[action] < GATE;
    EvaluateSpec(rules, rates, s);
  }

  /** A success was reported for the action, and every update it led to was applied. */
  ghost predicate Praises(f: Feedback, action: string) {
    f.success && f.action == action && forall id :: f.answers(id).Applied?
  }

  /** Under such feedback a listed playbook of the action counts one success each time, and an unlisted
      one stays as it is. */
  lemma {:induction false} PraiseCounts(ts: seq<Table>, fs: seq<Feedback>, ties: Ties, id: string, action: string,
      k: nat)
    requires FeedbackRun(ts, fs, ties) && k <= |fs| && id in ts[0]
    requires forall i :: 0 <= i < |fs| ==> Praises(fs[i], action)
    ensures ts[k].Keys == ts[0].Keys
    ensures ts[k][id] == if Listed(ts[0][id], action) then AfterSuccesses(ts[0][id], k, ties) else ts[0][id]
    ensures Listed(ts[k][id], action) <==> Listed(ts[0][id], action)
  {
    if k > 0 {
      PraiseCounts(ts, fs, ties, id, action, k - 1);
      var t, f, p := ts[k - 1], fs[k - 1], ts[k - 1][id];
      assert FeedbackStep(t, f, ts[k], ties) && Praises(f, action);
      UpdateEffect(t, f.rows, f.success, f.answers, ties, id);
      assert id in f.rows <==> Listed(p, action);
      if Listed(p, action) { RateBelowGate(p.successes + 1, p.failures, ties); }
    }
  }

  /** The way back: after at least as many successes for an action as any of its listed playbooks counts
      failures, the rate seen for it passes the gate, and a matching rule is recommended again. */
  lemma PraiseReopens<S, P>(ts: seq<Table>, fs: seq<Feedback>, ties: Ties, action: string, rows: seq<string>,
                            rules: seq<Rule<S, P>>, s: S)
    requires FeedbackRun(ts, fs, ties) && fs != [] && action != "" && Listing(ts[|fs|], "", rows)
    requires forall i :: 0 <= i < |fs| ==> Praises(fs[i], action)
    requires forall id :: id in ts[0] && Listed(ts[0][id], action) ==> ts[0][id].failures <= |fs|
    ensures RateOf(Rates(ts[|fs|], rows), action) >= 0.40
    ensures (exists r :: r in rules && r.action == action && r.condition(s) == Holds && r.parameters(s).Some?
                         && 0.0 <= r.confidence <= 1.0) ==> Evaluate(rules, Rates(ts[|fs|], rows), s).Some?
  {
    var t, rates := ts[|fs|], Rates(ts[|fs|], rows);
    RateSeenIsWorst(t, rows, action);
    PraiseKeepsKeys(ts, fs, ties, |fs|);
    if action in rates {
      var id :| id in t && Listed(t[id], action) && t[id].rate.value == rates[action];
      PraiseCounts(ts, fs, ties, id, action, |fs|);
      SuccessesLift(ts[0][id], |fs|, ties);
    }
    EvaluateSpec(rules, rates, s);
    if r :| r in rules && r.action == action && r.condition(s) == Holds && r.parameters(s).Some?
            && 0.0 <= r.confidence <= 1.0 {
      assert Fires(r, rates, s);
    }
  }

  lemma {:induction false} PraiseKeepsKeys(ts: seq<Table>, fs: seq<Feedback>, ties: Ties, k: nat)
    requires FeedbackRun(ts, fs, ties) && k <= |fs|
    ensures ts[k].Keys == ts[0].Keys
  {
    if k > 0 {
      PraiseKeepsKeys(ts, fs, ties, k - 1);
      var t, f := ts[k - 1], fs[k - 1];
      assert FeedbackStep(t, f, ts[k], ties);
      UpdateKeepsKeys(t, f.rows, f.success, f.answers, ties);
    }
  }

  /** The gate depends on the listing being readable: without it every rate counts as 1.0 and
      only the rules' own confidences remain. */
  lemma UnreadableRatesOpenTheGate<S, P>(rules: seq<Rule<S, P>>, s: S, r: Rule<S, P>)
    requires r in rules && r.condition(s) == Holds && r.parameters(s).Some? && 0.0 <= r.confidence <= 1.0
    ensures Evaluate(rules, map[], s).Some?
  {
    EvaluateSpec(rules, map[], s);
    assert Fires(r, map[], s);
  }

  // ----- the reasoner ---------------------------------------------------------------------

  /** What `reason` knows of an action from the registry. */
  datatype Meta = Meta(requiresApproval: bool)

  datatype Reasoned<P> = Skipped | Fast(d: Decision<P>) | Slow(d: Decision<P>)

  /** `counts` are the anomalies per severity; `llm` is the model's answer. */
  function Reason<S, P>(counts: map<string, nat>, rules: seq<Rule<S, P>>, rates: map<string, real>, s: S,
                        llm: Decision<P>, registry: map<string, Meta>, escalation: P): Reasoned<P> {
    if forall sev :: sev in ["critical", "high", "medium"] ==> sev !in counts || counts[sev] == 0 then Skipped
    else if Evaluate(rules, rates, s).Some? then Fast(Evaluate(rules, rates, s).value)
    else Slow(Approved(Validated(llm, registry, escalation), registry))
  }

  function Validated<P>(d: Decision<P>, registry: map<string, Meta>, escalation: P): Decision<P> {
    if d.action in registry then d else d.(action := ESCALATE, parameters := escalation, approval := true)
  }

  function Approved<P>(d: Decision<P>, registry: map<string, Meta>): Decision<P> {
    if d.action in registry && registry[d.action].requiresApproval then d.(approval := true) else d
  }

  /** No anomaly of the severity is counted. */
  predicate NoneCounted(counts: map<string, nat>, severity: string) {
    severity !in counts || counts[severity] == 0
  }

  /** Nothing is decided exactly if no critical, high or medium anomaly is counted.  A decision on the
      slow path is the model's, but for an unregistered action, which becomes an escalation, and asks
      for approval exactly if the model did, the registry demands it or it was replaced.  On the fast
      path the registry is not consulted: there an action asks for approval exactly when its
      confidence is low or it is an escalation. */
  lemma ApprovalByPath<S, P>(counts: map<string, nat>, rules: seq<Rule<S, P>>, rates: map<string, real>, s: S,
                             llm: Decision<P>, registry: map<string, Meta>, escalation: P)
    ensures var out := Reason(counts, rules, rates, s, llm, registry, escalation);
      && (out.Skipped? <==>
            NoneCounted(counts, "critical") && NoneCounted(counts, "high") && NoneCounted(counts, "medium"))
      && (!out.Skipped? ==> (out.Fast? <==> exists r :: r in rules && Fires(r, rates, s)))
      && (out.Fast? ==> (out.d.approval <==> out.d.confidence < 0.65 || out.d.action == "escalate_to_human"))
      && (out.Fast? ==> 0.40 <= RateOf(rates, out.d.action))
      && (out.Slow? && llm.action in registry ==>
            && out.d.action == llm.action && out.d.parameters == llm.parameters && out.d.confidence == llm.confidence
            && (out.d.approval <==> llm.approval || registry[llm.action].requiresApproval))
      && (out.Slow? && llm.action !in registry ==>
            && out.d.action == "escalate_to_human" && out.d.parameters == escalation
            && out.d.confidence == llm.confidence && out.d.approval)
  {
    EvaluateSpec(rules, rates, s);
    assert ["critical", "high", "medium"][0] == "critical" && ["critical", "high", "medium"][1] == "high"
      && ["critical", "high", "medium"][2] == "medium";
  }
}
