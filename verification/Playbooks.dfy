/** Playbook statistics: the feedback loop's updates (feedback/playbook_updater.py:16-71), the listing
    of the memory service (memory/api.py:172-201) and the rates the reasoner reads from it
    (reasoning/engine.py:56-70). */
module Playbooks {
  import opened Wrappers

  datatype Playbook = Playbook(action: Option<string>, successes: nat, failures: nat, rate: Option<real>)

  type Table = map<string, Playbook>

  /** Which way a quotient exactly half way between two 4-decimal numbers is rounded; the float
      the code rounds may lie on either side of it. */
  type Ties = (nat, nat) -> bool

  /** s / t rounded to four decimals, in units of 0.0001. */
  function Units(s: nat, t: nat, ties: Ties): nat
    requires t > 0
  {
    Nearest(10000 * s / t, 10000 * s % t, t, ties(s, t))
  }

  function Nearest(q: nat, r: nat, t: nat, up: bool): nat {
    if 2 * r < t then q else if 2 * r > t || up then q + 1 else q
  }

  function Rate(s: nat, f: nat, ties: Ties): real {
    if s + f > 0 then Units(s, s + f, ties) as real / 10000.0 else 0.5
  }

  /** The new record after one outcome. */
  function Learn(p: Playbook, success: bool, ties: Ties): Playbook {
    var s, f := if success then p.successes + 1 else p.successes, if success then p.failures else p.failures + 1;
    p.(successes := s, failures := f, rate := Some(Rate(s, f, ties)))
  }

  const GATE: real := 0.40

  predicate Gated(p: Playbook) {
    p.rate.Some? && p.rate.value < GATE
  }

  // ----- rounding and the gate --------------------------------------------------------

  /** Rounding moves the gate: a quotient is seen below 0.40 exactly when it is below 0.39995,
      or equal to it and rounded down. */
  predicate RoundsBelowGate(s: nat, t: nat, ties: Ties) {
    20000 * s < 7999 * t || (20000 * s == 7999 * t && !ties(s, t))
  }

  lemma GateUnderRounding(s: nat, t: nat, ties: Ties)
    requires t > 0
    ensures Units(s, t, ties) < 4000 <==> RoundsBelowGate(s, t, ties)
  {
    var q, r := 10000 * s / t, 10000 * s % t;
    Division(10000 * s, t);
    if q <= 3998 { Scale(q, 3998, t); } else if q >= 4000 { Scale(4000, q, t); }
    NearestBelow(q, r, t, ties(s, t), q * t);
  }

  lemma Division(m: nat, t: nat)
    requires t > 0
    ensures m == m / t * t + m % t && m % t < t
  {
  }

  lemma NearestBelow(q: nat, r: nat, t: nat, up: bool, qt: nat)
    requires r < t
    requires if q <= 3998 then qt <= 3998 * t else if q == 3999 then qt == 3999 * t else qt >= 4000 * t
    ensures Nearest(q, r, t, up) < 4000 <==> 2 * (qt + r) < 7999 * t || (2 * (qt + r) == 7999 * t && !up)
  {
  }

  lemma Scale(a: nat, b: nat, t: nat)
    requires a <= b
    ensures a * t <= b * t
  {
    assert (b - a) * t >= 0;
  }

  lemma RateBelowGate(s: nat, f: nat, ties: Ties)
    requires s + f > 0
    ensures Rate(s, f, ties) < GATE <==> RoundsBelowGate(s, s + f, ties)
    ensures 0.0 <= Rate(s, f, ties)
  {
    GateUnderRounding(s, s + f, ties);
  }

  function AfterFailures(p: Playbook, n: nat, ties: Ties): Playbook {
    if n == 0 then p else Learn(AfterFailures(p, n - 1, ties), false, ties)
  }

  lemma {:induction false} FailuresOnlyCount(p: Playbook, n: nat, ties: Ties)
    ensures AfterFailures(p, n, ties).successes == p.successes && AfterFailures(p, n, ties).failures == p.failures + n
    ensures AfterFailures(p, n, ties).action == p.action
    ensures n > 0 ==> AfterFailures(p, n, ties).rate == Some(Rate(p.successes, p.failures + n, ties))
  {
    if n > 0 { FailuresOnlyCount(p, n - 1, ties); }
  }

  /** A gated playbook stays gated through every further run of failures exactly when its counts,
      with one more failure, round below the gate. */
  lemma StaysGatedIff(p: Playbook, ties: Ties)
    requires Gated(p)
    ensures (forall n: nat :: Gated(AfterFailures(p, n, ties)))
       <==> RoundsBelowGate(p.successes, p.successes + p.failures + 1, ties)
  {
    FailuresOnlyCount(p, 1, ties);
    RateBelowGate(p.successes, p.failures + 1, ties);
    if RoundsBelowGate(p.successes, p.successes + p.failures + 1, ties) {
      forall n: nat ensures Gated(AfterFailures(p, n, ties)) {
        FailuresOnlyCount(p, n, ties);
        if n > 0 { RateBelowGate(p.successes, p.failures + n, ties); }
      }
    } else {
      assert !Gated(AfterFailures(p, 1, ties));
    }
  }

  /** The stored rate is the rounded quotient of the stored counts, or nothing was counted yet. */
  predicate Consistent(p: Playbook, ties: Ties) {
    p.rate.Some? && 0.0 <= p.rate.value
    && (p.successes + p.failures == 0 || p.rate.value == Rate(p.successes, p.failures, ties))
  }

  /** So a record kept by the feedback loop stays gated under further failures. */
  lemma ConsistentStaysGated(p: Playbook, n: nat, ties: Ties)
    requires Gated(p) && Consistent(p, ties)
    ensures Gated(AfterFailures(p, n, ties)) && Consistent(AfterFailures(p, n, ties), ties)
  {
    if p.successes + p.failures > 0 { RateBelowGate(p.successes, p.failures, ties); }
    StaysGatedIff(p, ties);
    FailuresOnlyCount(p, n, ties);
    if n > 0 { RateBelowGate(p.successes, p.failures + n, ties); }
  }

  /** A record whose rate was set by hand need not: a failure lifts this one out of the gate. */
  lemma SeededRateEscapes(ties: Ties)
    ensures var p := Playbook(Some("restart_service"), 9, 1, Some(0.3));
      Gated(p) && !Gated(AfterFailures(p, 1, ties))
  {
    var p := Playbook(Some("restart_service"), 9, 1, Some(0.3));
    StaysGatedIff(p, ties);
    FailuresOnlyCount(p, 1, ties);
    RateBelowGate(9, 2, ties);
  }

  // ----- what an outcome does to a record -------------------------------------------------

  /** Units(s, t) ten-thousandths are nearest to s / t. */
  lemma NearestUnits(s: nat, t: nat, ties: Ties)
    requires t > 0
    ensures 20000 * s - t <= 2 * Units(s, t, ties) * t <= 20000 * s + t
  {
    var q, r := 10000 * s / t, 10000 * s % t;
    Division(10000 * s, t);
    var u := Units(s, t, ties);
    assert u == q || u == q + 1;
    if u == q { assert u * t == q * t; } else { assert u * t == q * t + t; }
  }

  /** The rate is the quotient of the counts, to within half a unit of the fourth decimal. */
  predicate CloseTo(rate: real, s: nat, f: nat) {
    var total := (s + f) as real;
    s as real - 0.00005 * total <= rate * total <= s as real + 0.00005 * total
  }

  /** The outcome is counted once, on its own side, and the rate follows the counts. */
  predicate OutcomeAdded(p: Playbook, q: Playbook, success: bool) {
    && q.successes == (if success then p.successes + 1 else p.successes)
    && q.failures == (if success then p.failures else p.failures + 1)
    && q.rate.Some? && CloseTo(q.rate.value, q.successes, q.failures)
  }

  lemma OutcomeIsCounted(p: Playbook, success: bool, ties: Ties)
    ensures OutcomeAdded(p, Learn(p, success, ties), success) && Learn(p, success, ties).action == p.action
  {
    var q := Learn(p, success, ties);
    RateIsClose(q.successes, q.failures, ties);
  }

  lemma RateIsClose(s: nat, f: nat, ties: Ties)
    requires s + f > 0
    ensures CloseTo(Rate(s, f, ties), s, f)
  {
    var t, u := s + f, Units(s, s + f, ties);
    NearestUnits(s, t, ties);
    var ut := u * t;
    Twice(u, t, ut);
    RateTimes(u, t, ut);
    InReals(s, t, ut, Rate(s, f, ties) * t as real);
  }

  lemma InReals(s: nat, t: nat, ut: nat, x: real)
    requires 20000 * s - t <= 2 * ut <= 20000 * s + t && x == ut as real / 10000.0
    ensures s as real - 0.00005 * t as real <= x <= s as real + 0.00005 * t as real
  {
  }

  lemma Twice(u: nat, t: nat, ut: nat)
    requires ut == u * t
    ensures 2 * u * t == 2 * ut
  {
  }

  lemma RateTimes(u: nat, t: nat, ut: nat)
    requires ut == u * t
    ensures u as real / 10000.0 * t as real == ut as real / 10000.0
  {
    assert ut as real == u as real * t as real;
  }

  function AfterSuccesses(p: Playbook, n: nat, ties: Ties): Playbook {
    if n == 0 then p else Learn(AfterSuccesses(p, n - 1, ties), true, ties)
  }

  lemma {:induction false} SuccessesOnlyCount(p: Playbook, n: nat, ties: Ties)
    ensures var q := AfterSuccesses(p, n, ties);
      && q.successes == p.successes + n && q.failures == p.failures && q.action == p.action
      && (n > 0 ==> q.rate == Some(Rate(p.successes + n, p.failures, ties)))
  {
    if n > 0 { SuccessesOnlyCount(p, n - 1, ties); }
  }

  /** With as many successes as failures the quotient is past the gate. */
  lemma EvenIsPastTheGate(s: nat, f: nat, ties: Ties)
    requires s >= f && s > 0
    ensures Rate(s, f, ties) >= GATE && Rate(s, f, ties) >= 0.4
  {
    RateBelowGate(s, f, ties);
  }

  /** From any record, as many successes in a row as it counts failures, at least one, lift the
      playbook out of the gate, and further successes never put it back. */
  lemma SuccessesLift(p: Playbook, n: nat, ties: Ties)
    requires n > 0 && n >= p.failures
    ensures var q := AfterSuccesses(p, n, ties); q.rate.Some? && q.rate.value >= 0.4 && !Gated(q)
  {
    SuccessesOnlyCount(p, n, ties);
    EvenIsPastTheGate(p.successes + n, p.failures, ties);
  }

  /** A record kept by the loop that is not gated is not put there by successes. */
  lemma SuccessesNeverGate(p: Playbook, n: nat, ties: Ties)
    requires Consistent(p, ties) && !Gated(p)
    ensures !Gated(AfterSuccesses(p, n, ties))
  {
    SuccessesOnlyCount(p, n, ties);
    if n > 0 {
      if p.successes + p.failures > 0 { RateBelowGate(p.successes, p.failures, ties); }
      RateBelowGate(p.successes + n, p.failures, ties);
    }
  }

  // ----- listing and reading the rates --------------------------------------------------

  /** Rows the listing returns: a missing rate fails `success_rate >= 0`, and an empty action
      in the request means no filter. */
  predicate Listed(p: Playbook, action: string) {
    p.rate.Some? && 0.0 <= p.rate.value && (action == "" || p.action == Some(action))
  }

  /** A reply to the listing request: those rows once each, best rate first. */
  ghost predicate Listing(t: Table, action: string, ids: seq<string>) {
    && (forall i :: 0 <= i < |ids| ==> ids[i] in t)
    && (forall id :: id in ids <==> id in t && Listed(t[id], action))
    && (forall i, j :: 0 <= i < j < |ids| ==> ids[i] != ids[j])
    && (forall i, j :: 0 <= i < j < |ids| && t[ids[i]].rate.Some? && t[ids[j]].rate.Some? ==>
          t[ids[i]].rate.value >= t[ids[j]].rate.value)
  }

  predicate Counted(p: Playbook, action: string) {
    action != "" && p.action == Some(action) && p.rate.Some?
  }

  /** The dict comprehension: a later row overwrites an earlier one of the same action. */
  function Rates(t: Table, ids: seq<string>): map<string, real>
    requires forall id :: id in ids ==> id in t
  {
    if ids == [] then map[]
    else
      var m := Rates(t, ids[..|ids| - 1]);
      var p := t[ids[|ids| - 1]];
      if p.action.Some? && Counted(p, p.action.value) then m[p.action.value := p.rate.value] else m
  }

  ghost predicate LastCounted(t: Table, ids: seq<string>, action: string, i: nat)
    requires forall id :: id in ids ==> id in t
  {
    i < |ids| && Counted(t[ids[i]], action) && forall j :: i < j < |ids| ==> !Counted(t[ids[j]], action)
  }

  /** The rate seen for an action is the last one in the listing order. */
  lemma {:induction false} RatesLast(t: Table, ids: seq<string>, action: string)
    requires forall id :: id in ids ==> id in t
    ensures action in Rates(t, ids) <==> exists i :: 0 <= i < |ids| && Counted(t[ids[i]], action)
    ensures action in Rates(t, ids) ==>
      exists i: nat :: LastCounted(t, ids, action, i) && Rates(t, ids)[action] == t[ids[i]].rate.value
  {
    if ids != [] {
      var front, n := ids[..|ids| - 1], |ids| - 1;
      RatesLast(t, front, action);
      if Counted(t[ids[n]], action) {
        assert LastCounted(t, ids, action, n);
      } else if action in Rates(t, front) {
        var i: nat :| LastCounted(t, front, action, i) && Rates(t, front)[action] == t[front[i]].rate.value;
        assert Counted(t[ids[i]], action);
        forall j | i < j < |ids| ensures !Counted(t[ids[j]], action) {
          if j < n { assert ids[j] == front[j]; }
        }
        assert LastCounted(t, ids, action, i);
      } else {
        forall j | 0 <= j < |ids| ensures !Counted(t[ids[j]], action) {
          if j < n { assert ids[j] == front[j]; }
        }
      }
    }
  }

  /** Since the listing is sorted best first, what the reasoner sees is the worst rate among the
      action's listed playbooks, whatever the order of equal rates. */
  lemma RateSeenIsWorst(t: Table, ids: seq<string>, action: string)
    requires Listing(t, "", ids) && action != ""
    ensures action in Rates(t, ids) <==> exists id :: id in t && Listed(t[id], action)
    ensures action in Rates(t, ids) ==>
      && (exists id :: id in t && Listed(t[id], action) && t[id].rate.value == Rates(t, ids)[action])
      && (forall id :: id in t && Listed(t[id], action) ==> Rates(t, ids)[action] <= t[id].rate.value)
  {
    RatesLast(t, ids, action);
    if id :| id in t && Listed(t[id], action) {
      var k := Position(t, ids, action, id);
      assert Counted(t[ids[k]], action);
    }
    if action in Rates(t, ids) {
      var i: nat :| LastCounted(t, ids, action, i) && Rates(t, ids)[action] == t[ids[i]].rate.value;
      assert ids[i] in ids && Listed(t[ids[i]], action);
      forall id | id in t && Listed(t[id], action) ensures t[ids[i]].rate.value <= t[id].rate.value {
        LastIsWorst(t, ids, action, i, id);
      }
    }
  }

  lemma LastIsWorst(t: Table, ids: seq<string>, action: string, i: nat, id: string)
    requires Listing(t, "", ids) && action != "" && LastCounted(t, ids, action, i)
    requires id in t && Listed(t[id], action)
    ensures t[ids[i]].rate.value <= t[id].rate.value
  {
    var k := Position(t, ids, action, id);
    assert k <= i;
  }

  lemma Position(t: Table, ids: seq<string>, action: string, id: string) returns (k: nat)
    requires Listing(t, "", ids) && action != "" && id in t && Listed(t[id], action)
    ensures k < |ids| && ids[k] == id && Counted(t[ids[k]], action)
  {
    assert Listed(t[id], "");
    assert id in ids;
    k :| 0 <= k < |ids| && ids[k] == id;
  }

  // ----- the feedback update ------------------------------------------------------------

  /** What became of one PATCH request. */
  datatype Answer = Applied | Refused | AppliedThenRaised | Raised

  /** The loop over the listed playbooks; an exception ends it. */
  function UpdateAll(t: Table, ids: seq<string>, success: bool, answers: string -> Answer, ties: Ties): Table
    requires forall id :: id in ids ==> id in t
  {
    if ids == [] then t
    else
      var id := ids[0];
      match answers(id)
      case Applied => UpdateAll(t[id := Learn(t[id], success, ties)], ids[1..], success, answers, ties)
      case Refused => UpdateAll(t, ids[1..], success, answers, ties)
      case AppliedThenRaised => t[id := Learn(t[id], success, ties)]
      case Raised => t
  }

  /** Each listed playbook is updated at most once, no other is touched, and when every request
      is applied each listed one is. */
  lemma {:induction false} UpdateEffect(t: Table, ids: seq<string>, success: bool, answers: string -> Answer,
      ties: Ties, id: string)
    requires forall k :: k in ids ==> k in t
    requires forall i, j :: 0 <= i < j < |ids| ==> ids[i] != ids[j]
    requires id in t
    ensures var t' := UpdateAll(t, ids, success, answers, ties);
      && t'.Keys == t.Keys
      && (t'[id] == t[id] || (id in ids && t'[id] == Learn(t[id], success, ties)))
      && ((forall k :: k in ids ==> answers(k).Applied?) && id in ids ==> t'[id] == Learn(t[id], success, ties))
  {
    if ids != [] {
      var head, rest := ids[0], ids[1..];
      forall k | k in rest ensures k != head { var j :| 0 <= j < |rest| && rest[j] == k; assert ids[j + 1] == k; }
      var t1 := t[head := Learn(t[head], success, ties)];
      match answers(head)
      case Applied =>
        assert t1.Keys == t.Keys;
        UpdateEffect(t1, rest, success, answers, ties, id);
      case Refused =>
        UpdateEffect(t, rest, success, answers, ties, id);
      case _ =>
        assert t1.Keys == t.Keys;
    }
  }

  lemma {:induction false} UpdateKeepsKeys(t: Table, ids: seq<string>, success: bool, answers: string -> Answer,
      ties: Ties)
    requires forall k :: k in ids ==> k in t
    ensures UpdateAll(t, ids, success, answers, ties).Keys == t.Keys
  {
    if ids != [] {
      var next := t[ids[0] := Learn(t[ids[0]], success, ties)];
      assert next.Keys == t.Keys;
      UpdateKeepsKeys(next, ids[1..], success, answers, ties);
      UpdateKeepsKeys(t, ids[1..], success, answers, ties);
    }
  }

  /** The statistics of a listed row, with the outcome counted, written over whatever the table
      holds for that id; a row deleted in the meantime stays away. */
  function Overwrite(t: Table, id: string, row: Playbook, success: bool, ties: Ties): Table {
    if id in t then t[id := Learn(row, success, ties).(action := t[id].action)] else t
  }

  /** The loop over the reply, whose rows may be out of date. */
  function PatchAll(t: Table, rows: seq<(string, Playbook)>, success: bool, answers: string -> Answer,
      ties: Ties): Table
    decreases |rows|
  {
    if rows == [] then t
    else
      var (id, row) := rows[0];
      match answers(id)
      case Applied => PatchAll(Overwrite(t, id, row, success, ties), rows[1..], success, answers, ties)
      case Refused => PatchAll(t, rows[1..], success, answers, ties)
      case AppliedThenRaised => Overwrite(t, id, row, success, ties)
      case Raised => t
  }

  function Ids(rows: seq<(string, Playbook)>): seq<string> {
    seq(|rows|, i requires 0 <= i < |rows| => rows[i].0)
  }

  ghost predicate Current(t: Table, rows: seq<(string, Playbook)>) {
    forall i :: 0 <= i < |rows| ==> rows[i].0 in t && t[rows[i].0] == rows[i].1
  }

  ghost predicate DistinctIds(rows: seq<(string, Playbook)>) {
    forall i, j :: 0 <= i < j < |rows| ==> rows[i].0 != rows[j].0
  }

  /** Where the reply is up to date, the loop learns from the outcome for each playbook. */
  lemma {:induction false} CurrentRowsLearn(t: Table, rows: seq<(string, Playbook)>, success: bool,
      answers: string -> Answer, ties: Ties)
    requires Current(t, rows) && DistinctIds(rows)
    ensures forall id :: id in Ids(rows) ==> id in t
    ensures PatchAll(t, rows, success, answers, ties) == UpdateAll(t, Ids(rows), success, answers, ties)
    decreases |rows|
  {
    forall id | id in Ids(rows) ensures id in t { var i :| 0 <= i < |rows| && rows[i].0 == id; }
    if rows != [] {
      var (id, row) := rows[0];
      assert Ids(rows)[1..] == Ids(rows[1..]) && Ids(rows)[0] == id;
      var learned := t[id := Learn(t[id], success, ties)];
      assert Overwrite(t, id, row, success, ties) == learned;
      assert Current(learned, rows[1..]) && Current(t, rows[1..]) && DistinctIds(rows[1..]);
      CurrentRowsLearn(learned, rows[1..], success, answers, ties);
      CurrentRowsLearn(t, rows[1..], success, answers, ties);
    }
  }

  predicate Raises(a: Answer) {
    a.Raised? || a.AppliedThenRaised?
  }

  predicate Applies(a: Answer) {
    a.Applied? || a.AppliedThenRaised?
  }

  /** The request for row i is sent and takes effect: none before it raised. */
  ghost predicate Lands(rows: seq<(string, Playbook)>, answers: string -> Answer, i: nat) {
    i < |rows| && Applies(answers(rows[i].0)) && forall k :: 0 <= k < i ==> !Raises(answers(rows[k].0))
  }

  /** Only rows whose request lands change the table. */
  lemma {:induction false} OthersStay(t: Table, rows: seq<(string, Playbook)>, success: bool, answers: string -> Answer,
      ties: Ties, id: string)
    requires id in t && forall i: nat :: Lands(rows, answers, i) ==> rows[i].0 != id
    ensures var after := PatchAll(t, rows, success, answers, ties); id in after && after[id] == t[id]
    decreases |rows|
  {
    if rows != [] {
      var (head, row) := rows[0];
      assert Applies(answers(head)) ==> Lands(rows, answers, 0);
      if !Raises(answers(head)) {
        var rest := rows[1..];
        forall i: nat | Lands(rest, answers, i) ensures rest[i].0 != id { assert Lands(rows, answers, i + 1); }
        var written := if Applies(answers(head)) then Overwrite(t, head, row, success, ties) else t;
        OthersStay(written, rest, success, answers, ties, id);
      }
    }
  }

  lemma {:induction false} LandedRow(t: Table, rows: seq<(string, Playbook)>, success: bool, answers: string -> Answer,
      ties: Ties, i: nat)
    requires DistinctIds(rows) && Lands(rows, answers, i) && rows[i].0 in t
    ensures var id, after := rows[i].0, PatchAll(t, rows, success, answers, ties);
      id in after && after[id] == Learn(rows[i].1, success, ties).(action := t[id].action)
    decreases |rows|
  {
    var (head, row) := rows[0];
    var id, rest := rows[i].0, rows[1..];
    var written := if Applies(answers(head)) then Overwrite(t, head, row, success, ties) else t;
    assert PatchAll(t, rows, success, answers, ties)
        == if Raises(answers(head)) then written else PatchAll(written, rest, success, answers, ties);
    if i == 0 {
      if !Raises(answers(head)) { OthersStay(written, rest, success, answers, ties, id); }
    } else {
      assert written[id] == t[id] && rest[i - 1] == rows[i];
      assert Lands(rest, answers, i - 1);
      LandedRow(written, rest, success, answers, ties, i - 1);
    }
  }

  lemma LearnedIff(p: Playbook, row: Playbook, success: bool, ties: Ties)
    ensures var q := Learn(row, success, ties).(action := p.action);
      && OutcomeAdded(row, q, success)
      && (q == Learn(p, success, ties) <==> row.successes == p.successes && row.failures == p.failures)
  {
    OutcomeIsCounted(row, success, ties);
  }

  /** For every reply: a playbook whose request lands becomes the listed row with the outcome counted
      once, whatever the table held; so it has learned the outcome if and only if its counts were still
      those listed, and any update made since is lost.  All other playbooks stay as they are. */
  lemma StaleRowLosesUpdate(t: Table, rows: seq<(string, Playbook)>, success: bool, answers: string -> Answer,
      ties: Ties, id: string)
    requires DistinctIds(rows) && id in t
    ensures var after := PatchAll(t, rows, success, answers, ties);
      && id in after
      && (forall i: nat :: Lands(rows, answers, i) && rows[i].0 == id ==>
            && OutcomeAdded(rows[i].1, after[id], success) && after[id].action == t[id].action
            && (after[id] == Learn(t[id], success, ties) <==>
                  rows[i].1.successes == t[id].successes && rows[i].1.failures == t[id].failures))
      && ((forall i: nat :: Lands(rows, answers, i) ==> rows[i].0 != id) ==> after[id] == t[id])
  {
    if i: nat :| Lands(rows, answers, i) && rows[i].0 == id {
      LandedRow(t, rows, success, answers, ties, i);
      LearnedIff(t[id], rows[i].1, success, ties);
      forall k: nat | Lands(rows, answers, k) && rows[k].0 == id ensures k == i {}
    } else {
      OthersStay(t, rows, success, answers, ties, id);
    }
  }

  class Updater {
    var table: Table
    const ties: Ties

    constructor (table: Table, ties: Ties)
      ensures this.table == table && this.ties == ties
    {
      this.table, this.ties := table, ties;
    }

    /** `update`, given the rows of the listing it received (None when the request failed) and
        the fate of each PATCH. */
    method Update(outcome: string, reply: Option<seq<(string, Playbook)>>, answers: string -> Answer)
      modifies this`table
      ensures table == if reply.None? then old(table)
        else PatchAll(old(table), reply.value, outcome == "success", answers, ties)
      ensures reply.Some? && Current(old(table), reply.value) && DistinctIds(reply.value) ==>
        (forall id :: id in Ids(reply.value) ==> id in old(table))
        && table == UpdateAll(old(table), Ids(reply.value), outcome == "success", answers, ties)
    {
      if reply.None? { return; }
      var rows := reply.value;
      if Current(table, rows) && DistinctIds(rows) {
        CurrentRowsLearn(table, rows, outcome == "success", answers, ties);
      }
      var i := 0;
      while i < |rows|
        invariant 0 <= i <= |rows|
        invariant PatchAll(table, rows[i..], outcome == "success", answers, ties)
               == PatchAll(old(table), rows, outcome == "success", answers, ties)
      {
        assert rows[i..][0] == rows[i] && rows[i..][1..] == rows[i + 1..];
        Patch(rows[i].0, rows[i].1, outcome == "success", answers(rows[i].0));
        if Raises(answers(rows[i].0)) { return; }
        i := i + 1;
      }
    }

    method Patch(id: string, row: Playbook, success: bool, answer: Answer)
      modifies this`table
      ensures table == if Applies(answer) then Overwrite(old(table), id, row, success, ties) else old(table)
    {
      var s, f := row.successes, row.failures;
      if success { s := s + 1; } else { f := f + 1; }
      var total := s + f;
      var rate := if total > 0 then Units(s, total, ties) as real / 10000.0 else 0.5;
      if id in table && Applies(answer) {
        table := table[id := table[id].(successes := s, failures := f, rate := Some(rate))];
      }
    }
  }
}
