/** Delegation tasks and their two copies: a relational row that executors poll and a graph
    node that conflict detection reads (world_model/core.py, world_model/causal_engine.py). */
module TaskMirror {
  import opened Wrappers

  /** A request to create a task; `parameters` holds the value of entity_id, if any. */
  datatype TaskSpec = TaskSpec(
    agentId: string, planId: Option<string>, action: string,
    parameters: Option<Option<string>>, entityRefs: Option<seq<string>>)

  datatype Row = Row(agentId: string, planId: Option<string>, action: string, status: string)

  datatype Node = Node(
    action: string, agentId: string, status: string, entity: string,
    planId: Option<string>, risk: Option<string>, confidence: Option<real>)

  datatype Mirror = Mirror(rows: map<string, Row>, nodes: map<string, Node>)

  /** The entity a task is linked to; None where the lookup raises. */
  function TargetEntity(spec: TaskSpec): Option<string> {
    match spec.parameters
    case None => None
    case Some(entity) =>
      if entity.Some? && entity.value != "" then entity
      else match spec.entityRefs
        case None => Some("general")
        case Some(refs) => if refs == [] then None else Some(refs[0])
  }

  /** `create_task`: the row is written first, then the node, unless the lookup raises. */
  function CreateTask(m: Mirror, id: string, spec: TaskSpec): Mirror {
    var rows := m.rows[id := Row(spec.agentId, spec.planId, spec.action, "pending")];
    match TargetEntity(spec)
    case None => Mirror(rows, m.nodes)
    case Some(entity) =>
      Mirror(rows, m.nodes[id := Node(spec.action, spec.agentId, "pending", entity, None, None, None)])
  }

  /** `complete_task`: both updates are no-ops for an unknown id. */
  function SetStatus(m: Mirror, id: string, status: string): Mirror {
    Mirror(
      if id in m.rows then m.rows[id := m.rows[id].(status := status)] else m.rows,
      if id in m.nodes then m.nodes[id := m.nodes[id].(status := status)] else m.nodes)
  }

  ghost predicate Agree(m: Mirror) {
    m.rows.Keys == m.nodes.Keys && forall id :: id in m.rows ==> m.rows[id].status == m.nodes[id].status
  }

  /** Nodes made by `create_task` never carry a plan id, a risk or a confidence. */
  ghost predicate Plain(m: Mirror) {
    forall id :: id in m.nodes ==>
      m.nodes[id].planId == None && m.nodes[id].risk == None && m.nodes[id].confidence == None
  }

  /** Creating a task keeps the copies in agreement exactly when its entity can be found. */
  lemma CreateAgreesIff(m: Mirror, id: string, spec: TaskSpec)
    requires Agree(m) && id !in m.rows
    ensures Agree(CreateTask(m, id, spec)) <==> TargetEntity(spec).Some?
  {
    var m' := CreateTask(m, id, spec);
    assert id in m'.rows.Keys;
    if TargetEntity(spec).Some? {
      assert m'.rows.Keys == m.rows.Keys + {id} && m'.nodes.Keys == m.nodes.Keys + {id};
    } else {
      assert id !in m'.nodes.Keys;
    }
  }

  lemma SetStatusAgrees(m: Mirror, id: string, status: string)
    requires Agree(m)
    ensures Agree(SetStatus(m, id, status)) && SetStatus(m, id, status).nodes.Keys == m.nodes.Keys
    ensures Plain(m) ==> Plain(SetStatus(m, id, status))
  {
    var m' := SetStatus(m, id, status);
    if id in m.rows { assert m'.rows.Keys == m.rows.Keys && m'.nodes.Keys == m.nodes.Keys; }
  }

  datatype Operation = Create(id: string, spec: TaskSpec) | Update(id: string, status: string)

  function RunOps(m: Mirror, ops: seq<Operation>): Mirror
    decreases |ops|
  {
    if ops == [] then m
    else
      var next := match ops[0]
        case Create(id, spec) => CreateTask(m, id, spec)
        case Update(id, st) => SetStatus(m, id, st);
      RunOps(next, ops[1..])
  }

  /** Every created task is new and its entity can be found. */
  ghost predicate Proper(m: Mirror, ops: seq<Operation>)
    decreases |ops|
  {
    ops == [] ||
    match ops[0]
    case Create(id, spec) => id !in m.rows && TargetEntity(spec).Some? && Proper(CreateTask(m, id, spec), ops[1..])
    case Update(id, st) => Proper(SetStatus(m, id, st), ops[1..])
  }

  /** A task cannot be linked to an entity exactly if its parameters are null, or name no entity while
      its list of references is empty.  Otherwise it is linked to the entity named by the parameters,
      else to the first reference, else to "general". */
  lemma TargetEntityIs(spec: TaskSpec)
    ensures var named := spec.parameters.Some? && spec.parameters.value.Some? && spec.parameters.value.value != "";
      && (TargetEntity(spec).None? <==> spec.parameters.None? || (!named && spec.entityRefs == Some([])))
      && (named ==> TargetEntity(spec) == spec.parameters.value)
      && (spec.parameters.Some? && !named && spec.entityRefs.None? ==> TargetEntity(spec) == Some("general"))
      && (spec.parameters.Some? && !named && spec.entityRefs.Some? && spec.entityRefs.value != [] ==>
            TargetEntity(spec) == Some(spec.entityRefs.value[0]))
  {
  }

  /** What a creation leaves: a pending row with the agent, plan and action asked for and, if the entity can
      be found, a pending node linked to it, without plan, risk or confidence; other tasks stay. */
  lemma CreatedIs(m: Mirror, id: string, spec: TaskSpec, other: string)
    ensures var after := CreateTask(m, id, spec);
      && id in after.rows && after.rows[id] == Row(spec.agentId, spec.planId, spec.action, "pending")
      && (TargetEntity(spec).Some? ==>
            && id in after.nodes
            && after.nodes[id] ==
                 Node(spec.action, spec.agentId, "pending", TargetEntity(spec).value, None, None, None))
      && (TargetEntity(spec).None? ==> after.nodes == m.nodes)
      && (other != id ==>
            && (other in after.rows <==> other in m.rows) && (other in m.rows ==> after.rows[other] == m.rows[other])
            && (other in after.nodes <==> other in m.nodes)
            && (other in m.nodes ==> after.nodes[other] == m.nodes[other]))
  {
  }

  /** The last word on a task: its creation, or a status set since. */
  function LastWord(ops: seq<Operation>, id: string): Option<string> {
    if ops == [] then None
    else
      var before := LastWord(ops[..|ops| - 1], id);
      match ops[|ops| - 1]
      case Create(k, _) => if k == id then Some("pending") else before
      case Update(k, status) => if k == id && before.Some? then Some(status) else before
  }

  lemma {:induction false} RunOpsPush(m: Mirror, ops: seq<Operation>, op: Operation)
    ensures RunOps(m, ops + [op]) == RunOps(RunOps(m, ops), [op])
    decreases |ops|
  {
    if ops == [] {
      assert [] + [op] == [op];
    } else {
      assert (ops + [op])[1..] == ops[1..] + [op] && (ops + [op])[0] == ops[0];
      var next := match ops[0]
        case Create(id, spec) => CreateTask(m, id, spec)
        case Update(id, st) => SetStatus(m, id, st);
      RunOpsPush(next, ops[1..], op);
    }
  }

  /** From empty copies, over any history: a task has a row exactly if it was created, and the row's
      status is the last word on it, pending until some status is set. */
  lemma {:induction false} StatusIsLastWord(ops: seq<Operation>, id: string)
    ensures var m, word := RunOps(Mirror(map[], map[]), ops), LastWord(ops, id);
      (id in m.rows <==> word.Some?) && (word.Some? ==> m.rows[id].status == word.value)
  {
    if ops != [] {
      var front, op := ops[..|ops| - 1], ops[|ops| - 1];
      assert ops == front + [op];
      StatusIsLastWord(front, id);
      RunOpsPush(Mirror(map[], map[]), front, op);
      assert [op][1..] == [];
    }
  }

  /** Over any history the two copies of every status agree. */
  lemma {:induction false} CopiesAgree(m: Mirror, ops: seq<Operation>)
    requires Agree(m) && Plain(m) && Proper(m, ops)
    ensures Agree(RunOps(m, ops)) && Plain(RunOps(m, ops))
    decreases |ops|
  {
    if ops != [] {
      match ops[0]
      case Create(id, spec) =>
        CreateAgreesIff(m, id, spec);
        CopiesAgree(CreateTask(m, id, spec), ops[1..]);
      case Update(id, st) =>
        SetStatusAgrees(m, id, st);
        CopiesAgree(SetStatus(m, id, st), ops[1..]);
    }
  }
}
