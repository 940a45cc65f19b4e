/** The ten rules of the fast path and what they let through (reasoning/fast_path.py:24-150). */
module RuleTable {
  import opened Wrappers
  import opened Playbooks
  import opened FastPath
  import Protocol

  /** `Null` stands for a payload on which `.get` raises. */
  datatype Payload = Absent | Null | Fields(pid: Option<int>)

  /** An anomaly as the situation reports it.  Missing texts are empty, a missing severity is
      "info" and a missing blast radius count is 1. */
  datatype Anomaly = Anomaly(eventType: string, severity: string, entity: string, blast: int, payload: Payload)

  datatype Situation = Situation(ranked: seq<Anomaly>)

  datatype Value = Text(text: string) | Number(number: int) | Missing

  type Parameters = map<string, Value>
  type Row = Rule<Situation, Parameters>

  function Top(s: Situation): Anomaly {
    if s.ranked == [] then Anomaly("", "info", "", 1, Absent) else s.ranked[0]
  }

  function TypeOf(s: Situation): string { Top(s).eventType }

  function SeverityOf(s: Situation): string { Top(s).severity }

  function EntityOr(s: Situation, default: string): string {
    if Top(s).entity != "" then Top(s).entity else default
  }

  function Test(b: bool): Verdict {
    if b then Holds else Fails
  }

  predicate IsLag(a: Anomaly) {
    a.eventType == "consumer_lag_critical" || a.eventType == "consumer_lag_high"
  }

  predicate LagPresent(s: Situation) {
    exists i :: 0 <= i < |s.ranked| && IsLag(s.ranked[i])
  }

  function LagEntity(ranked: seq<Anomaly>): string {
    if ranked == [] then "queue:order-events" else if IsLag(ranked[0]) then ranked[0].entity else LagEntity(ranked[1..])
  }

  // ----- the rules, in the order of the table ------------------------------------------------

  function NoAnomalies(): Row {
    Rule("no_anomalies", 100, "monitor_and_wait", 0.99,
      (s: Situation) => Test(s.ranked == []), (s: Situation) => Some(map["duration_m" := Number(5)]))
  }

  function ConsumerLag(): Row {
    Rule("consumer_lag_critical", 90, "scale_consumer_group", 0.95,
      (s: Situation) => Test(LagPresent(s)),
      (s: Situation) => Some(map["queue_id" := Text(LagEntity(s.ranked)),
                                 "consumer_group" := Text("notification-group"),
                                 "instance_delta" := Number(3)]))
  }

  function Restart(name: string, priority: int, confidence: real, condition: Situation -> bool,
      service: Situation -> string): Row
  {
    Rule(name, priority, "restart_service", confidence,
      (s: Situation) => Test(condition(s)),
      (s: Situation) => Some(map["service_id" := Text(service(s)), "strategy" := Text("rolling")]))
  }

  predicate IsUnreachable(a: Anomaly) {
    a.eventType == "service_unreachable" && a.severity == "critical"
  }

  function Unreachable(): Row {
    Restart("service_unreachable", 89, 0.88, (s: Situation) => IsUnreachable(Top(s)), (s: Situation) => Top(s).entity)
  }

  predicate IsLatency(a: Anomaly) {
    a.eventType == "api_latency_spike" && (a.severity == "high" || a.severity == "critical")
  }

  function Latency(): Row {
    Restart("api_latency_spike", 85, 0.82, (s: Situation) => IsLatency(Top(s)),
      (s: Situation) => EntityOr(s, "svc:api-gateway"))
  }

  function SlowQuery(): Row {
    Rule("slow_query_detected", 84, "kill_slow_query", 0.86,
      (s: Situation) => Test(TypeOf(s) == "slow_query_detected" && SeverityOf(s) in ["high", "critical", "medium"]),
      (s: Situation) =>
        if Top(s).payload.Null? then None
        else Some(map["db_id" := Text(EntityOr(s, "db:shopcore-postgres")),
                      "pid" := if Top(s).payload.Fields? && Top(s).payload.pid.Some?
                               then Number(Top(s).payload.pid.value) else Missing]))
  }

  predicate IsRedisMemory(a: Anomaly) {
    && (a.eventType == "redis_memory_critical" || a.eventType == "cache_eviction_spike")
    && (a.severity == "critical" || a.severity == "high")
  }

  function RedisMemory(): Row {
    Restart("redis_memory_critical", 87, 0.80, (s: Situation) => IsRedisMemory(Top(s)),
      (s: Situation) => "svc:user-service")
  }

  predicate IsDegraded(a: Anomaly) {
    a.eventType == "service_health_degraded" && a.severity == "high"
  }

  function HealthDegraded(): Row {
    Restart("service_health_degraded", 83, 0.78, (s: Situation) => IsDegraded(Top(s)),
      (s: Situation) => EntityOr(s, "svc:api-gateway"))
  }

  function PoolExhausted(): Row {
    Rule("connection_pool_exhausted", 88, "restart_connection_pool", 0.92,
      (s: Situation) => Test(TypeOf(s) in ["connection_pool_exhausted", "max_connections_reached"]
        && SeverityOf(s) == "critical"),
      (s: Situation) => Some(map["service_id" := Text(Top(s).entity)]))
  }

  function DiskFull(): Row {
    Rule("disk_full", 95, "escalate_to_human", 0.99,
      (s: Situation) => Test(TypeOf(s) in ["disk_full", "disk_space_for_db_low"]),
      (s: Situation) => Some(map["reason" := Text("Disk full on " + Top(s).entity + ". Requires manual intervention."),
                                 "urgency" := Text("immediate")]))
  }

  function HighCpu(): Row {
    Rule("high_cpu_isolated", 50, "increase_log_verbosity", 0.80,
      (s: Situation) => Test(TypeOf(s) in ["cpu_spike", "cpu_sustained_high"] && Top(s).blast == 0),
      (s: Situation) => Some(map["service_id" := Text(Top(s).entity), "duration_m" := Number(15)]))
  }

  function Table(): seq<Row> {
    [NoAnomalies(), ConsumerLag(), Unreachable(), Latency(), SlowQuery(), RedisMemory(), HealthDegraded(),
     PoolExhausted(), DiskFull(), HighCpu()]
  }

  // ----- who answers ---------------------------------------------------------------------------

  /** The rule that would restart a service for this situation. */
  function RestartRule(s: Situation): Option<Row> {
    var a := Top(s);
    if IsUnreachable(a) then Some(Unreachable())
    else if IsRedisMemory(a) then Some(RedisMemory())
    else if IsLatency(a) then Some(Latency())
    else if IsDegraded(a) then Some(HealthDegraded())
    else None
  }

  lemma Rows(r: Row)
    requires r in Table()
    ensures r == NoAnomalies() || r == ConsumerLag() || r == Unreachable() || r == Latency() || r == SlowQuery()
         || r == RedisMemory() || r == HealthDegraded() || r == PoolExhausted() || r == DiskFull() || r == HighCpu()
  {
  }

  /** A rule with the restart action fires exactly if it is the one for the situation and the rate
      passes the gate. */
  lemma RestartFiresIff(s: Situation, rates: map<string, real>, r: Row)
    requires r in Table() && r.action == "restart_service"
    ensures Fires(r, rates, s) <==> RestartRule(s) == Some(r) && GATE <= RateOf(rates, "restart_service")
  {
    Rows(r);
    Distinct();
    var a := Top(s);
    if r == Unreachable() {
      assert r.condition(s) == Test(IsUnreachable(a)) && r.parameters(s).Some?;
    } else if r == RedisMemory() {
      assert r.condition(s) == Test(IsRedisMemory(a)) && r.parameters(s).Some?;
    } else if r == Latency() {
      assert r.condition(s) == Test(IsLatency(a)) && r.parameters(s).Some?;
    } else {
      assert r == HealthDegraded() && r.condition(s) == Test(IsDegraded(a)) && r.parameters(s).Some?;
    }
  }

  lemma Distinct()
    ensures Unreachable().priority == 89 && RedisMemory().priority == 87 && Latency().priority == 85
      && HealthDegraded().priority == 83
    ensures Unreachable() != RedisMemory() && Unreachable() != Latency() && Unreachable() != HealthDegraded()
    ensures RedisMemory() != Latency() && RedisMemory() != HealthDegraded() && Latency() != HealthDegraded()
  {
  }

  /** Where a service would be restarted, the only other rule that can fire is that for lag. */
  lemma OthersSilent(s: Situation, rates: map<string, real>, r: Row)
    requires r in Table() && RestartRule(s).Some? && Fires(r, rates, s)
    ensures Some(r) == RestartRule(s)
      || (r == ConsumerLag() && LagPresent(s) && GATE <= RateOf(rates, "scale_consumer_group"))
  {
    Rows(r);
    if r.action == "restart_service" {
      RestartFiresIff(s, rates, r);
    } else {
      assert s.ranked != []
        && TypeOf(s) in ["service_unreachable", "redis_memory_critical", "cache_eviction_spike", "api_latency_spike",
             "service_health_degraded"];
    }
  }

  /** The lag rule has precedence over every restart, as long as its own rate passes the gate. */
  predicate LagFirst(s: Situation, rates: map<string, real>) {
    LagPresent(s) && GATE <= RateOf(rates, "scale_consumer_group")
  }

  lemma LagFiresIff(s: Situation, rates: map<string, real>)
    ensures Fires(ConsumerLag(), rates, s) <==> LagFirst(s, rates)
  {
  }

  predicate Recommends(s: Situation, rates: map<string, real>, action: string) {
    Evaluate(Table(), rates, s).Some? && Evaluate(Table(), rates, s).value.action == action
  }

  /** A restart is recommended exactly if the top anomaly asks for one, its rate passes the gate,
      and no lag comes first; the decision is then that of the one rule for it. */
  lemma RestartRecommendedIff(s: Situation, rates: map<string, real>)
    ensures Recommends(s, rates, "restart_service")
       <==> RestartRule(s).Some? && GATE <= RateOf(rates, "restart_service") && !LagFirst(s, rates)
    ensures Recommends(s, rates, "restart_service") ==>
              Chosen(Table(), rates, s, RestartRule(s).value)
  {
    EvaluateSpec(Table(), rates, s);
    LagFiresIff(s, rates);
    assert ConsumerLag() in Table();
    if Recommends(s, rates, "restart_service") {
      var r :| r in Table() && Chosen(Table(), rates, s, r);
      RestartFiresIff(s, rates, r);
      RestartPriority(r);
    } else if RestartRule(s).Some? && GATE <= RateOf(rates, "restart_service") && !LagFirst(s, rates) {
      RestartRuleInTable(s);
      RestartFiresIff(s, rates, RestartRule(s).value);
      var r :| r in Table() && Chosen(Table(), rates, s, r);
      OthersSilent(s, rates, r);
    }
  }

  lemma RestartPriority(r: Row)
    requires r in Table() && r.action == "restart_service"
    ensures r.priority < ConsumerLag().priority && 0.78 <= r.confidence <= 0.88
  {
    Rows(r);
  }

  lemma RestartRuleInTable(s: Situation)
    requires RestartRule(s).Some?
    ensures RestartRule(s).value in Table() && RestartRule(s).value.action == "restart_service"
  {
    assert Table()[2] == Unreachable() && Table()[3] == Latency() && Table()[5] == RedisMemory()
      && Table()[6] == HealthDegraded();
  }

  /** For all situations and rates: the fast path recommends a restart without asking for approval
      exactly if the top anomaly asks for one, no lag comes first, and the rate seen for restarts
      is at least 0.65; the confidences of the rules themselves never make it ask. */
  lemma RestartUnattendedIff(s: Situation, rates: map<string, real>)
    ensures Recommends(s, rates, "restart_service") && !Evaluate(Table(), rates, s).value.approval
       <==> RestartRule(s).Some? && APPROVAL_BELOW <= RateOf(rates, "restart_service") && !LagFirst(s, rates)
  {
    RestartRecommendedIff(s, rates);
    if RestartRule(s).Some? {
      RestartRuleInTable(s);
      RestartPriority(RestartRule(s).value);
    }
  }

  // ----- the table as a decision tree --------------------------------------------------------------

  predicate Passes(rates: map<string, real>, action: string) {
    action in rates ==> rates[action] >= 0.40
  }

  /** The confidence is the rule's or the rate seen, whichever is less; it asks for approval below 0.65
      and for an escalation. */
  function Answer(rule: string, action: string, confidence: real, parameters: Parameters, rates: map<string, real>)
    : Decision<Parameters>
  {
    var c := if action in rates && rates[action] < confidence then rates[action] else confidence;
    Decision(rule, action, parameters, c, c < 0.65 || action == "escalate_to_human")
  }

  function RestartOf(rule: string, confidence: real, service: string, rates: map<string, real>): Decision<Parameters> {
    Answer(rule, "restart_service", confidence,
      map["service_id" := Text(service), "strategy" := Text("rolling")], rates)
  }

  function NameOr(entity: string, default: string): string {
    if entity == "" then default else entity
  }

  /** What is recommended, told without rules and priorities: a full disk is escalated, a lagging queue
      is scaled, and otherwise the top anomaly alone decides. */
  function Tree(s: Situation, rates: map<string, real>): Option<Decision<Parameters>> {
    if s.ranked == [] then
      if Passes(rates, "monitor_and_wait")
      then Some(Answer("no_anomalies", "monitor_and_wait", 0.99, map["duration_m" := Number(5)], rates)) else None
    else
      var a := s.ranked[0];
      if (a.eventType == "disk_full" || a.eventType == "disk_space_for_db_low") && Passes(rates, "escalate_to_human")
      then
        Some(Answer("disk_full", "escalate_to_human", 0.99,
          map["reason" := Text("Disk full on " + a.entity + ". Requires manual intervention."),
              "urgency" := Text("immediate")], rates))
      else if LagPresent(s) && Passes(rates, "scale_consumer_group") then
        Some(Answer("consumer_lag_critical", "scale_consumer_group", 0.95,
          map["queue_id" := Text(LagEntity(s.ranked)), "consumer_group" := Text("notification-group"),
              "instance_delta" := Number(3)], rates))
      else ByTop(a, rates)
  }

  /** At most one rule looks for the type of the top anomaly. */
  function ByTop(a: Anomaly, rates: map<string, real>): Option<Decision<Parameters>> {
    var severe := a.severity == "critical" || a.severity == "high";
    if a.eventType == "service_unreachable" then
      if a.severity == "critical" && Passes(rates, "restart_service")
      then Some(RestartOf("service_unreachable", 0.88, a.entity, rates)) else None
    else if a.eventType == "connection_pool_exhausted" || a.eventType == "max_connections_reached" then
      if a.severity == "critical" && Passes(rates, "restart_connection_pool")
      then Some(Answer("connection_pool_exhausted", "restart_connection_pool", 0.92,
             map["service_id" := Text(a.entity)], rates)) else None
    else if a.eventType == "redis_memory_critical" || a.eventType == "cache_eviction_spike" then
      if severe && Passes(rates, "restart_service")
      then Some(RestartOf("redis_memory_critical", 0.80, "svc:user-service", rates)) else None
    else if a.eventType == "api_latency_spike" then
      if severe && Passes(rates, "restart_service")
      then Some(RestartOf("api_latency_spike", 0.82, NameOr(a.entity, "svc:api-gateway"), rates)) else None
    else if a.eventType == "slow_query_detected" then
      if (severe || a.severity == "medium") && !a.payload.Null? && Passes(rates, "kill_slow_query")
      then Some(Answer("slow_query_detected", "kill_slow_query", 0.86,
             map["db_id" := Text(NameOr(a.entity, "db:shopcore-postgres")),
                 "pid" := if a.payload == Absent || a.payload.pid == None
                          then Missing else Number(a.payload.pid.value)],
             rates)) else None
    else if a.eventType == "service_health_degraded" then
      if a.severity == "high" && Passes(rates, "restart_service")
      then Some(RestartOf("service_health_degraded", 0.78, NameOr(a.entity, "svc:api-gateway"), rates)) else None
    else if a.eventType == "cpu_spike" || a.eventType == "cpu_sustained_high" then
      if a.blast == 0 && Passes(rates, "increase_log_verbosity")
      then Some(Answer("high_cpu_isolated", "increase_log_verbosity", 0.80,
             map["service_id" := Text(a.entity), "duration_m" := Number(15)], rates)) else None
    else None
  }

  /** When each rule fires. */
  lemma FiresIff(s: Situation, rates: map<string, real>)
    ensures Fires(NoAnomalies(), rates, s) <==> s.ranked == [] && Passes(rates, "monitor_and_wait")
    ensures Fires(ConsumerLag(), rates, s) <==> LagPresent(s) && Passes(rates, "scale_consumer_group")
    ensures Fires(Unreachable(), rates, s) <==> IsUnreachable(Top(s)) && Passes(rates, "restart_service")
    ensures Fires(Latency(), rates, s) <==> IsLatency(Top(s)) && Passes(rates, "restart_service")
    ensures Fires(RedisMemory(), rates, s) <==> IsRedisMemory(Top(s)) && Passes(rates, "restart_service")
    ensures Fires(HealthDegraded(), rates, s) <==> IsDegraded(Top(s)) && Passes(rates, "restart_service")
  {
    var a := Top(s);
    assert Unreachable().condition(s) == Test(IsUnreachable(a)) && Unreachable().parameters(s).Some?;
    assert RedisMemory().condition(s) == Test(IsRedisMemory(a)) && RedisMemory().parameters(s).Some?;
    assert Latency().condition(s) == Test(IsLatency(a)) && Latency().parameters(s).Some?;
    assert HealthDegraded().condition(s) == Test(IsDegraded(a)) && HealthDegraded().parameters(s).Some?;
  }

  lemma OtherFiresIff(s: Situation, rates: map<string, real>)
    ensures Fires(SlowQuery(), rates, s) <==>
              && Top(s).eventType == "slow_query_detected" && !Top(s).payload.Null? && Passes(rates, "kill_slow_query")
              && (Top(s).severity == "high" || Top(s).severity == "critical" || Top(s).severity == "medium")
    ensures Fires(PoolExhausted(), rates, s) <==>
              && (Top(s).eventType == "connection_pool_exhausted" || Top(s).eventType == "max_connections_reached")
              && Top(s).severity == "critical" && Passes(rates, "restart_connection_pool")
    ensures Fires(DiskFull(), rates, s) <==>
              && (Top(s).eventType == "disk_full" || Top(s).eventType == "disk_space_for_db_low")
              && Passes(rates, "escalate_to_human")
    ensures Fires(HighCpu(), rates, s) <==>
              && (Top(s).eventType == "cpu_spike" || Top(s).eventType == "cpu_sustained_high") && Top(s).blast == 0
              && Passes(rates, "increase_log_verbosity")
  {
  }

  /** A firing rule that every other firing rule ranks below decides. */
  lemma DecidedBy(rules: seq<Row>, s: Situation, rates: map<string, real>, k: nat)
    requires k < |rules| && Fires(rules[k], rates, s)
    requires forall i :: 0 <= i < |rules| && i != k && Fires(rules[i], rates, s) ==>
      rules[i].priority < rules[k].priority
    ensures Evaluate(rules, rates, s) == TryRule(rules[k], rates, s)
  {
    TiesGoToTheEarlierRule(rules, rates, s, k);
  }

  /** The position of the one rule that looks for the type of the top anomaly, if any. */
  function RowFor(a: Anomaly): nat
    ensures 2 <= RowFor(a) <= 10 && RowFor(a) != 8
  {
    if a.eventType == "service_unreachable" then 2
    else if a.eventType == "api_latency_spike" then 3
    else if a.eventType == "slow_query_detected" then 4
    else if a.eventType == "redis_memory_critical" || a.eventType == "cache_eviction_spike" then 5
    else if a.eventType == "service_health_degraded" then 6
    else if a.eventType == "connection_pool_exhausted" || a.eventType == "max_connections_reached" then 7
    else if a.eventType == "cpu_spike" || a.eventType == "cpu_sustained_high" then 9
    else 10
  }

  /** Which rules can fire at all. */
  lemma WhichFire(s: Situation, rates: map<string, real>, k: nat)
    requires k < |Table()| && Fires(Table()[k], rates, s)
    ensures if s.ranked == [] then k == 0 else k == 8 || k == 1 || k == RowFor(s.ranked[0])
  {
    FiresIff(s, rates);
    OtherFiresIff(s, rates);
    Rows(Table()[k]);
  }

  lemma Priorities()
    ensures |Table()| == 10 && Table()[0].priority == 100 && Table()[8].priority == 95 && Table()[1].priority == 90
    ensures forall k :: 2 <= k < 10 && k != 8 ==> Table()[k].priority < 90
  {
  }

  /** The rule that decides comes first among: the full disk, the lag, and the rule for the top anomaly. */
  lemma FirstOfThree(rules: seq<Row>, s: Situation, rates: map<string, real>, row: nat)
    requires |rules| == 10 && 2 <= row <= 10 && row != 8 && rules[1].priority < rules[8].priority
    requires forall k :: 2 <= k < 10 && k != 8 ==> rules[k].priority < rules[1].priority
    requires forall k :: 0 <= k < 10 && Fires(rules[k], rates, s) ==> k == 8 || k == 1 || k == row
    ensures Evaluate(rules, rates, s) ==
      if Fires(rules[8], rates, s) then TryRule(rules[8], rates, s)
      else if Fires(rules[1], rates, s) then TryRule(rules[1], rates, s)
      else if row < 10 && Fires(rules[row], rates, s) then TryRule(rules[row], rates, s)
      else None
  {
    if Fires(rules[8], rates, s) {
      DecidedBy(rules, s, rates, 8);
    } else if Fires(rules[1], rates, s) {
      DecidedBy(rules, s, rates, 1);
    } else if row < 10 && Fires(rules[row], rates, s) {
      DecidedBy(rules, s, rates, row);
    } else {
      EvaluateSpec(rules, rates, s);
    }
  }

  lemma TableDecides(s: Situation, rates: map<string, real>)
    requires s.ranked != []
    ensures var row := RowFor(s.ranked[0]);
      Evaluate(Table(), rates, s) ==
        if Fires(Table()[8], rates, s) then TryRule(Table()[8], rates, s)
        else if Fires(Table()[1], rates, s) then TryRule(Table()[1], rates, s)
        else if row < 10 && Fires(Table()[row], rates, s) then TryRule(Table()[row], rates, s)
        else None
  {
    Priorities();
    forall k | 0 <= k < |Table()| && Fires(Table()[k], rates, s) ensures k == 8 || k == 1 || k == RowFor(s.ranked[0]) {
      WhichFire(s, rates, k);
    }
    FirstOfThree(Table(), s, rates, RowFor(s.ranked[0]));
  }

  /** What a firing rule answers. */
  lemma TriedIs(r: Row, rates: map<string, real>, s: Situation)
    requires Fires(r, rates, s) && 0.0 <= r.confidence <= 1.0
    ensures TryRule(r, rates, s) == Some(Answer(r.name, r.action, r.confidence, r.parameters(s).value, rates))
  {
  }

  lemma ByTopIsRow(s: Situation, rates: map<string, real>)
    requires s.ranked != []
    ensures var row := RowFor(s.ranked[0]);
      ByTop(s.ranked[0], rates) ==
        if row < 10 && Fires(Table()[row], rates, s) then TryRule(Table()[row], rates, s) else None
  {
    var row := RowFor(s.ranked[0]);
    if row < 10 && Fires(Table()[row], rates, s) {
      TriedIs(Table()[row], rates, s);
      RowIsByTop(s, rates, row);
    } else {
      SilentByTop(s, rates, row);
    }
  }

  lemma SilentByTop(s: Situation, rates: map<string, real>, row: nat)
    requires s.ranked != [] && row == RowFor(s.ranked[0]) && (row == 10 || !Fires(Table()[row], rates, s))
    ensures ByTop(s.ranked[0], rates) == None
  {
    FiresIff(s, rates);
    OtherFiresIff(s, rates);
  }

  lemma RowIsByTop(s: Situation, rates: map<string, real>, row: nat)
    requires s.ranked != [] && row == RowFor(s.ranked[0]) < 10 && Fires(Table()[row], rates, s)
    ensures var r := Table()[row];
      ByTop(s.ranked[0], rates) == Some(Answer(r.name, r.action, r.confidence, r.parameters(s).value, rates))
  {
    FiresIff(s, rates);
    OtherFiresIff(s, rates);
    RowAnswers(s, row);
  }

  /** The parameters of the rules that the top anomaly decides on. */
  lemma RowAnswers(s: Situation, row: nat)
    requires s.ranked != [] && row == RowFor(s.ranked[0]) < 10 && (row == 4 ==> !s.ranked[0].payload.Null?)
    ensures var a, p := s.ranked[0], Table()[row].parameters(s);
      && (row == 2 ==> p == Some(map["service_id" := Text(a.entity), "strategy" := Text("rolling")]))
      && (row == 3 || row == 6 ==>
            p == Some(map["service_id" := Text(NameOr(a.entity, "svc:api-gateway")), "strategy" := Text("rolling")]))
      && (row == 5 ==> p == Some(map["service_id" := Text("svc:user-service"), "strategy" := Text("rolling")]))
      && (row == 7 ==> p == Some(map["service_id" := Text(a.entity)]))
      && (row == 9 ==> p == Some(map["service_id" := Text(a.entity), "duration_m" := Number(15)]))
      && (row == 4 ==> p == Some(map["db_id" := Text(NameOr(a.entity, "db:shopcore-postgres")),
            "pid" := if a.payload == Absent || a.payload.pid == None then Missing else Number(a.payload.pid.value)]))
  {
  }

  /** For all situations and rates, trying the ten rules in priority order gives exactly the answer of
      the decision tree, with its action, parameters, confidence and demand for approval. */
  lemma TableIsTree(s: Situation, rates: map<string, real>)
    ensures Evaluate(Table(), rates, s) == Tree(s, rates)
  {
    FiresIff(s, rates);
    OtherFiresIff(s, rates);
    if s.ranked == [] {
      EmptyIsTree(s, rates);
    } else {
      TableDecides(s, rates);
      ByTopIsRow(s, rates);
      if Fires(Table()[8], rates, s) { TriedIs(Table()[8], rates, s); }
      else if Fires(Table()[1], rates, s) { TriedIs(Table()[1], rates, s); }
    }
  }

  lemma EmptyIsTree(s: Situation, rates: map<string, real>)
    requires s.ranked == []
    ensures Evaluate(Table(), rates, s) == Tree(s, rates)
  {
    FiresIff(s, rates);
    Priorities();
    forall k | 0 <= k < |Table()| && Fires(Table()[k], rates, s) ensures k == 0 { WhichFire(s, rates, k); }
    OnlyFirst(Table(), s, rates);
    if Fires(Table()[0], rates, s) { TriedIs(Table()[0], rates, s); }
  }

  lemma OnlyFirst(rules: seq<Row>, s: Situation, rates: map<string, real>)
    requires rules != [] && forall k :: 0 <= k < |rules| && Fires(rules[k], rates, s) ==> k == 0
    ensures Evaluate(rules, rates, s) == if Fires(rules[0], rates, s) then TryRule(rules[0], rates, s) else None
  {
    if Fires(rules[0], rates, s) { DecidedBy(rules, s, rates, 0); } else { EvaluateSpec(rules, rates, s); }
  }

  lemma {:induction false} FirstLag(ranked: seq<Anomaly>, i: nat)
    requires i < |ranked| && IsLag(ranked[i]) && forall j :: 0 <= j < i ==> !IsLag(ranked[j])
    ensures LagEntity(ranked) == ranked[i].entity
  {
    if i > 0 {
      assert !IsLag(ranked[0]);
      forall j | 0 <= j < i - 1 ensures !IsLag(ranked[1..][j]) { assert ranked[1..][j] == ranked[j + 1]; }
      FirstLag(ranked[1..], i - 1);
    }
  }

  /** A lag need not be the top anomaly: unless that is a full disk, the best ranked lag is scaled by three
      consumers as soon as the rate seen for scaling is at least 0.40, without asking from 0.65 on. */
  lemma LagScales(s: Situation, rates: map<string, real>, i: nat)
    requires i < |s.ranked| && s.ranked[i].eventType in {"consumer_lag_critical", "consumer_lag_high"}
    requires forall j :: 0 <= j < i ==> s.ranked[j].eventType !in {"consumer_lag_critical", "consumer_lag_high"}
    requires s.ranked[0].eventType != "disk_full" && s.ranked[0].eventType != "disk_space_for_db_low"
    requires "scale_consumer_group" in rates ==> rates["scale_consumer_group"] >= 0.40
    ensures Evaluate(Table(), rates, s).Some?
    ensures var d := Evaluate(Table(), rates, s).value;
      && d.action == "scale_consumer_group"
      && d.parameters == map["queue_id" := Text(s.ranked[i].entity), "consumer_group" := Text("notification-group"),
                             "instance_delta" := Number(3)]
      && (d.approval <==> "scale_consumer_group" in rates && rates["scale_consumer_group"] < 0.65)
  {
    TableIsTree(s, rates);
    FirstLag(s.ranked, i);
    assert IsLag(s.ranked[i]);
  }

  /** Whatever the fast path recommends, the execution layer has a handler for it, and only an escalation
      goes to a human (execution/action_registry.py:21-34). */
  lemma RecommendedHasHandler(s: Situation, rates: map<string, real>)
    requires Evaluate(Table(), rates, s).Some?
    ensures var action := Evaluate(Table(), rates, s).value.action;
      && !Protocol.HandlerFor(action).NoHandler?
      && (Protocol.HandlerFor(action).Human? <==> action == "escalate_to_human")
  {
    TableIsTree(s, rates);
  }

  /** The action registry demands approval for restarts (actions.yaml:37-41).  The reasoner's answer
      breaks that exactly then, whatever the registry says: it is not asked. */
  lemma UnapprovedRestartIff(counts: map<string, nat>, s: Situation, rates: map<string, real>,
      llm: Decision<Parameters>, registry: map<string, Meta>, escalation: Parameters)
    requires "restart_service" in registry && registry["restart_service"].requiresApproval
    ensures var out := Reason(counts, Table(), rates, s, llm, registry, escalation);
      !out.Skipped? && out.d.action == "restart_service" && !out.d.approval
      <==>
      !out.Skipped? && RestartRule(s).Some? && APPROVAL_BELOW <= RateOf(rates, "restart_service") && !LagFirst(s, rates)
  {
    RestartUnattendedIff(s, rates);
    ApprovalByPath(counts, Table(), rates, s, llm, registry, escalation);
  }
}
