/** RESOLVES edges between actions and anomaly types, strengthened by a success and weakened by
    any other outcome (feedback/graph_updater.py:38-93).  Confidences are reals. */
module GraphUpdater {
  import opened Wrappers

  datatype Config = Config(inc: real, dec: real, min: real, max: real)

  /** The defaults of graph_updater.py:24-27 satisfy this. */
  predicate Sane(c: Config) {
    0.0 <= c.inc && 0.0 <= c.dec && c.min <= FIRST <= c.max
  }

  const FIRST: real := 0.60
  const DEFAULTS := Config(0.04, 0.05, 0.10, 0.99)

  datatype Edge = Edge(confidence: real, successes: nat, failures: nat)

  /** An edge is named by its action and its anomaly type. */
  type Key = (string, string)

  datatype Payload = Payload(anomalyType: Option<string>, eventType: Option<string>)

  /** An empty string counts as missing. */
  function AnomalyType(p: Payload): string {
    if p.anomalyType.Some? && p.anomalyType.value != "" then p.anomalyType.value
    else if p.eventType.Some? && p.eventType.value != "" then p.eventType.value
    else "unknown_anomaly"
  }

  /** The anomaly type of a report is its own field if given, else the event type, else unknown. */
  lemma AnomalyTypeIs(p: Payload)
    ensures var given := p.anomalyType.Some? && p.anomalyType.value != "";
      var event := p.eventType.Some? && p.eventType.value != "";
      && (given ==> Some(AnomalyType(p)) == p.anomalyType)
      && (!given && event ==> Some(AnomalyType(p)) == p.eventType)
      && (!given && !event ==> AnomalyType(p) == "unknown_anomaly")
  {
  }

  function Raised(c: Config, x: real): real {
    if x + c.inc > c.max then c.max else x + c.inc
  }

  function Lowered(c: Config, x: real): real {
    if x - c.dec < c.min then c.min else x - c.dec
  }

  /** One outcome on an edge that exists. */
  function Learn(c: Config, e: Edge, success: bool): Edge {
    if success then Edge(Raised(c, e.confidence), e.successes + 1, e.failures)
    else Edge(Lowered(c, e.confidence), e.successes, e.failures + 1)
  }

  /** One outcome on an edge that may not exist: only a success creates it. */
  function Step(c: Config, e: Option<Edge>, success: bool): Option<Edge> {
    if e.Some? then Some(Learn(c, e.value, success))
    else if success then Some(Edge(FIRST, 1, 0))
    else None
  }

  function LearnAll(c: Config, e: Edge, outcomes: seq<bool>): Edge {
    if outcomes == [] then e else Learn(c, LearnAll(c, e, outcomes[..|outcomes| - 1]), outcomes[|outcomes| - 1])
  }

  /** The edge left by a whole history, starting from no edge. */
  function History(c: Config, outcomes: seq<bool>): Option<Edge> {
    if outcomes == [] then None else Step(c, History(c, outcomes[..|outcomes| - 1]), outcomes[|outcomes| - 1])
  }

  function Count(outcomes: seq<bool>, success: bool): nat {
    if outcomes == [] then 0
    else Count(outcomes[..|outcomes| - 1], success) + (if outcomes[|outcomes| - 1] == success then 1 else 0)
  }

  // ----- one edge -------------------------------------------------------------------

  /** `first` is the position of the first success. */
  ghost predicate FirstSuccess(outcomes: seq<bool>, first: nat) {
    first < |outcomes| && outcomes[first] && forall i :: 0 <= i < first ==> !outcomes[i]
  }

  /** The edge is created by the first success; failures before it leave no trace. */
  lemma {:induction false} HistoryFromCreation(c: Config, outcomes: seq<bool>, first: nat)
    requires FirstSuccess(outcomes, first)
    ensures History(c, outcomes[..first]) == None
    ensures History(c, outcomes) == Some(LearnAll(c, Edge(FIRST, 1, 0), outcomes[first + 1..]))
  {
    NoEdgeWithoutSuccess(c, outcomes[..first]);
    var front, last := outcomes[..|outcomes| - 1], outcomes[|outcomes| - 1];
    if first == |outcomes| - 1 {
      assert outcomes[..first] == front && outcomes[first + 1..] == [];
    } else {
      assert front[..first] == outcomes[..first];
      HistoryFromCreation(c, front, first);
      var rest := outcomes[first + 1..];
      assert rest[..|rest| - 1] == front[first + 1..] && rest[|rest| - 1] == last;
    }
  }

  lemma {:induction false} NoEdgeWithoutSuccess(c: Config, outcomes: seq<bool>)
    requires forall i :: 0 <= i < |outcomes| ==> !outcomes[i]
    ensures History(c, outcomes) == None
  {
    if outcomes != [] { NoEdgeWithoutSuccess(c, outcomes[..|outcomes| - 1]); }
  }

  /** From creation on, the confidence stays within its limits and the counters are the counts. */
  lemma {:induction false} EdgeTellsItsHistory(c: Config, outcomes: seq<bool>)
    requires Sane(c)
    ensures var e := LearnAll(c, Edge(FIRST, 1, 0), outcomes);
      && c.min <= e.confidence <= c.max
      && e.successes == 1 + Count(outcomes, true) && e.failures == Count(outcomes, false)
  {
    if outcomes != [] { EdgeTellsItsHistory(c, outcomes[..|outcomes| - 1]); }
  }

  ghost predicate Better(a: seq<bool>, b: seq<bool>) {
    |a| == |b| && forall i :: 0 <= i < |a| && a[i] ==> b[i]
  }

  /** On edges that exist, a pointwise better history never ends with less confidence. */
  lemma {:induction false} BetterNeverLower(c: Config, e: Edge, f: Edge, a: seq<bool>, b: seq<bool>)
    requires Sane(c) && Better(a, b)
    requires c.min <= e.confidence <= f.confidence <= c.max
    ensures c.min <= LearnAll(c, e, a).confidence <= LearnAll(c, f, b).confidence <= c.max
  {
    if a != [] { BetterNeverLower(c, e, f, a[..|a| - 1], b[..|b| - 1]); }
  }

  /** From no edge the same claim needs a condition, because an extra early success starts the
      edge earlier and exposes it to failures the other history never records.  The better
      history stays ahead at all later points exactly when it is ahead at the moment the other
      edge is created. */
  lemma BetterFromScratchIff(c: Config, a: seq<bool>, b: seq<bool>, first: nat)
    requires Sane(c) && Better(a, b) && FirstSuccess(a, first)
    ensures History(c, b[..first + 1]).Some?
    ensures (forall n: nat :: first < n <= |a| ==> Ahead(c, a, b, n))
      <==> FIRST <= History(c, b[..first + 1]).value.confidence
  {
    var x, y := a[..first + 1], b[..first + 1];
    HistoryFromCreation(c, x, first);
    var e := Edge(FIRST, 1, 0);
    assert x[first + 1..] == [] && LearnAll(c, e, []) == e;
    SuccessMakesEdge(c, y);
    var f := History(c, y).value;
    EdgeWithinLimits(c, y);
    if FIRST <= f.confidence {
      forall n: nat | first < n <= |a| ensures Ahead(c, a, b, n) { AheadStays(c, a, b, first + 1, n); }
    } else {
      assert !Ahead(c, a, b, first + 1);
    }
  }

  lemma AheadStays(c: Config, a: seq<bool>, b: seq<bool>, m: nat, n: nat)
    requires Sane(c) && Better(a, b) && m <= n <= |a| && Ahead(c, a, b, m)
    ensures Ahead(c, a, b, n)
  {
    var u, v := a[m..n], b[m..n];
    Resume(c, a[..m], u);
    Resume(c, b[..m], v);
    assert a[..m] + u == a[..n] && b[..m] + v == b[..n];
    EdgeWithinLimits(c, a[..m]);
    EdgeWithinLimits(c, b[..m]);
    BetterNeverLower(c, History(c, a[..m]).value, History(c, b[..m]).value, u, v);
  }

  predicate Ahead(c: Config, a: seq<bool>, b: seq<bool>, n: nat)
    requires n <= |a| && n <= |b|
  {
    && History(c, a[..n]).Some? && History(c, b[..n]).Some?
    && History(c, a[..n]).value.confidence <= History(c, b[..n]).value.confidence
  }

  lemma {:induction false} Resume(c: Config, before: seq<bool>, after: seq<bool>)
    requires History(c, before).Some?
    ensures History(c, before + after) == Some(LearnAll(c, History(c, before).value, after))
  {
    if after == [] {
      assert before + after == before;
    } else {
      Resume(c, before, after[..|after| - 1]);
      assert (before + after)[..|before + after| - 1] == before + after[..|after| - 1];
    }
  }

  lemma SuccessMakesEdge(c: Config, outcomes: seq<bool>)
    requires outcomes != [] && outcomes[|outcomes| - 1]
    ensures History(c, outcomes).Some?
  {
  }

  lemma {:induction false} EdgeWithinLimits(c: Config, outcomes: seq<bool>)
    requires Sane(c)
    ensures History(c, outcomes).Some? ==> c.min <= History(c, outcomes).value.confidence <= c.max
  {
    if outcomes != [] { EdgeWithinLimits(c, outcomes[..|outcomes| - 1]); }
  }

  /** The condition matters: with the defaults, adding one early success to two failures and a
      success lowers the result from 0.60 to 0.59. */
  lemma EarlySuccessCanCost()
    ensures History(DEFAULTS, [false, false, true]).value.confidence == 0.60
    ensures History(DEFAULTS, [true, false, true]).Some?
      && History(DEFAULTS, [true, false, true]).value.confidence == 0.59
  {
    HistoryFromCreation(DEFAULTS, [false, false, true], 2);
    HistoryFromCreation(DEFAULTS, [true, false, true], 0);
    var e := Edge(FIRST, 1, 0);
    assert [false, false, true][3..] == [] && [true, false, true][1..] == [false, true];
    assert [false, true][..1] == [false] && [false][..0] == [];
    assert LearnAll(DEFAULTS, e, []) == e && LearnAll(DEFAULTS, e, [false]) == Edge(0.55, 1, 1);
  }

  function Repeat(n: nat, success: bool): seq<bool> {
    seq(n, i => success)
  }

  /** n successes in a row add n increments, cut at the maximum. */
  lemma {:induction false} SuccessesInARow(c: Config, e: Edge, n: nat)
    requires Sane(c) && e.confidence <= c.max
    ensures LearnAll(c, e, Repeat(n, true)).confidence
         == if e.confidence + n as real * c.inc > c.max then c.max else e.confidence + n as real * c.inc
  {
    if n > 0 {
      assert Repeat(n, true)[..n - 1] == Repeat(n - 1, true);
      SuccessesInARow(c, e, n - 1);
      assert n as real * c.inc == (n - 1) as real * c.inc + c.inc;
    }
  }

  /** Whatever happened before, enough successes in a row reach the maximum. */
  lemma EnoughSuccessesReachMax(c: Config, before: seq<bool>, n: nat)
    requires Sane(c) && n > 0 && (n - 1) as real * c.inc >= c.max - c.min
    ensures History(c, before + Repeat(n, true)).Some? && History(c, before + Repeat(n, true)).value.confidence == c.max
  {
    var start, m := before + [true], n - 1;
    SuccessMakesEdge(c, start);
    EdgeWithinLimits(c, start);
    SuccessesReachMax(c, History(c, start).value, m);
    Resume(c, start, Repeat(m, true));
    assert before + Repeat(n, true) == start + Repeat(m, true);
  }

  /** n failures in a row take away n decrements, cut at the minimum. */
  lemma {:induction false} FailuresInARow(c: Config, e: Edge, n: nat)
    requires Sane(c) && c.min <= e.confidence
    ensures LearnAll(c, e, Repeat(n, false)).confidence
         == if e.confidence - n as real * c.dec < c.min then c.min else e.confidence - n as real * c.dec
  {
    if n > 0 {
      assert Repeat(n, false)[..n - 1] == Repeat(n - 1, false);
      FailuresInARow(c, e, n - 1);
      assert n as real * c.dec == (n - 1) as real * c.dec + c.dec;
    }
  }

  /** With the defaults, whatever happened before: 24 successes in a row bring an edge to 0.99, and 18
      failures in a row bring one that exists to 0.10. */
  lemma DefaultsReachLimits(before: seq<bool>)
    ensures History(DEFAULTS, before + Repeat(24, true)).Some?
         && History(DEFAULTS, before + Repeat(24, true)).value.confidence == 0.99
    ensures History(DEFAULTS, before).Some? ==>
      && History(DEFAULTS, before + Repeat(18, false)).Some?
      && History(DEFAULTS, before + Repeat(18, false)).value.confidence == 0.10
  {
    EnoughSuccessesReachMax(DEFAULTS, before, 24);
    if History(DEFAULTS, before).Some? {
      EdgeWithinLimits(DEFAULTS, before);
      Resume(DEFAULTS, before, Repeat(18, false));
      FailuresInARow(DEFAULTS, History(DEFAULTS, before).value, 18);
    }
  }

  lemma SuccessesReachMax(c: Config, e: Edge, n: nat)
    requires Sane(c) && c.min <= e.confidence <= c.max && n as real * c.inc >= c.max - c.min
    ensures LearnAll(c, e, Repeat(n, true)).confidence == c.max
  {
    SuccessesInARow(c, e, n);
  }

  // ----- all edges ------------------------------------------------------------------

  datatype Update = Update(key: Key, success: bool)

  function Put(edges: map<Key, Edge>, k: Key, e: Option<Edge>): map<Key, Edge> {
    if e.Some? then edges[k := e.value] else edges
  }

  function Get(edges: map<Key, Edge>, k: Key): Option<Edge> {
    if k in edges then Some(edges[k]) else None
  }

  function Graph(c: Config, log: seq<Update>): map<Key, Edge> {
    if log == [] then map[]
    else
      var before := Graph(c, log[..|log| - 1]);
      var u := log[|log| - 1];
      Put(before, u.key, Step(c, Get(before, u.key), u.success))
  }

  function Outcomes(log: seq<Update>, k: Key): seq<bool> {
    if log == [] then []
    else Outcomes(log[..|log| - 1], k) + (if log[|log| - 1].key == k then [log[|log| - 1].success] else [])
  }

  /** Edges do not interfere: each is the history of the outcomes reported for it alone. */
  lemma {:induction false} EdgesAreIndependent(c: Config, log: seq<Update>, k: Key)
    ensures Get(Graph(c, log), k) == History(c, Outcomes(log, k))
  {
    if log != [] {
      var front, u := log[..|log| - 1], log[|log| - 1];
      EdgesAreIndependent(c, front, k);
      if u.key == k {
        HistoryPush(c, Outcomes(front, k), u.success);
      } else {
        assert Outcomes(log, k) == Outcomes(front, k);
      }
    }
  }

  lemma HistoryPush(c: Config, outcomes: seq<bool>, success: bool)
    ensures History(c, outcomes + [success]) == Step(c, History(c, outcomes), success)
  {
    assert (outcomes + [success])[..|outcomes|] == outcomes;
  }

  lemma GraphPush(c: Config, log: seq<Update>, u: Update)
    ensures Graph(c, log + [u]) == Put(Graph(c, log), u.key, Step(c, Get(Graph(c, log), u.key), u.success))
  {
    assert (log + [u])[..|log|] == log;
  }

  class Updater {
    const config: Config
    var edges: map<Key, Edge>
    ghost var log: seq<Update>            // all outcomes reported so far

    constructor (config: Config)
      ensures this.config == config && log == [] && edges == Graph(config, log)
    {
      this.config, edges, log := config, map[], [];
    }

    /** The query run for one plan outcome.  The edges stay the ones that the log of all reported
        outcomes describes. */
    method Record(action: string, payload: Payload, outcome: string)
      requires edges == Graph(config, log)
      modifies this
      ensures log == old(log) + [Update((action, AnomalyType(payload)), outcome == "success")]
      ensures edges == Graph(config, log)
    {
      var key := (action, AnomalyType(payload));
      GraphPush(config, log, Update(key, outcome == "success"));
      RunQuery(key, outcome == "success");
      log := log + [Update(key, outcome == "success")];
    }

    method RunQuery(key: Key, success: bool)
      modifies this`edges
      ensures edges == Put(old(edges), key, Step(config, Get(old(edges), key), success))
    {
      if success {
        if key in edges {
          var e := edges[key];
          var raised := if e.confidence + config.inc > config.max then config.max else e.confidence + config.inc;
          edges := edges[key := e.(confidence := raised, successes := e.successes + 1)];
        } else {
          edges := edges[key := Edge(0.60, 1, 0)];
        }
      } else if key in edges {
        var e := edges[key];
        var lowered := if e.confidence - config.dec < config.min then config.min else e.confidence - config.dec;
        edges := edges[key := e.(confidence := lowered, failures := e.failures + 1)];
      }
    }
  }
}
