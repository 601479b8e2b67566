/** The operations that change a workflow's graph, and the consistency they keep over any run. */
module Mutations {
  import opened Wrappers
  import opened Tables
  import CloneSpec
  import CloneProofs

  /** What a client sends about one moved node. */
  datatype Placement = Placement(id: Id, workflow: Id, x: real, y: real, agent: Option<Id>, tool: Option<Id>)

  /** The ids of a new node and of what is created with it. */
  datatype NewNode = NewNode(id: Id, config: Id, position: Id)

  function WithAgent(
    db: Db, ids: NewNode, t: Id, name: string, w: Id, isInitial: Option<bool>, kind: NodeKind, config: Dict): Db
  {
    db.(agents := db.agents[ids.id := AgentRow(Some(t), name, w, isInitial, Some(ids.position), Some(ids.config))],
        configs := db.configs[ids.config := ConfigRow(Some(t), kind, w, Some(ids.id), None, config)],
        positions := db.positions[ids.position := PositionRow(Some(t), w, Some(ids.id), None, 0.0, 0.0)])
  }

  function WithTool(
    db: Db, ids: NewNode, t: Id, name: string, w: Id, agent: Id, httpMethod: string, kind: NodeKind, config: Dict): Db
  {
    db.(tools := db.tools[ids.id := ToolRow(Some(t), name, w, agent, httpMethod, Some(ids.position), Some(ids.config))],
        configs := db.configs[ids.config := ConfigRow(Some(t), kind, w, None, Some(ids.id), config)],
        positions := db.positions[ids.position := PositionRow(Some(t), w, None, Some(ids.id), 0.0, 0.0)])
  }

  /** The edges left when those at a position go. */
  function EdgesAwayFrom(edges: map<Id, EdgeRow>, position: Option<Id>): map<Id, EdgeRow> {
    map e | e in edges && Some(edges[e].source) != position && Some(edges[e].target) != position :: edges[e]
  }

  function WithoutAgent(db: Db, a: Id): Db
    requires a in db.agents
  {
    db.(edges := EdgesAwayFrom(db.edges, db.agents[a].position),
        configs := map c | c in db.configs && db.configs[c].agent != Some(a) :: db.configs[c],
        positions := map p | p in db.positions && db.positions[p].agent != Some(a) :: db.positions[p],
        agents := db.agents - {a})
  }

  function WithoutTool(db: Db, k: Id): Db
    requires k in db.tools
  {
    db.(edges := EdgesAwayFrom(db.edges, db.tools[k].position),
        configs := map c | c in db.configs && db.configs[c].tool != Some(k) :: db.configs[c],
        positions := map p | p in db.positions && db.positions[p].tool != Some(k) :: db.positions[p],
        tools := db.tools - {k})
  }

  /** A placement counts if the position exists and belongs to the caller's tenant. */
  predicate Accepted(positions: map<Id, PositionRow>, move: Placement, t: Id) {
    move.id in positions && positions[move.id].tenant == Some(t)
  }

  /** The whole row is overwritten from the payload. */
  function Placed(positions: map<Id, PositionRow>, move: Placement, t: Id): map<Id, PositionRow> {
    if Accepted(positions, move, t)
    then positions[move.id := PositionRow(Some(t), move.workflow, move.agent, move.tool, move.x, move.y)]
    else positions
  }

  function AllPlaced(positions: map<Id, PositionRow>, moves: seq<Placement>, t: Id): map<Id, PositionRow> {
    if moves == [] then positions
    else Placed(AllPlaced(positions, moves[..|moves| - 1], t), moves[|moves| - 1], t)
  }

  /** An update without a flag leaves the flag as it was. */
  function WithAgentUpdated(db: Db, a: Id, name: string, isInitial: Option<bool>): Db
    requires a in db.agents
  {
    var row := db.agents[a];
    db.(agents := db.agents[a := row.(name := name, isInitial := if isInitial.Some? then isInitial else row.isInitial)])
  }

  function WithToolUpdated(db: Db, k: Id, name: string, httpMethod: string): Db
    requires k in db.tools
  {
    db.(tools := db.tools[k := db.tools[k].(name := name, httpMethod := httpMethod)])
  }

  function WithConfigUpdated(db: Db, c: Id, config: Dict): Db
    requires c in db.configs
  {
    db.(configs := db.configs[c := db.configs[c].(config := config)])
  }

  datatype Action =
    | CreateWorkflow(n: Id, t: Id, name: string)
    | CreateAgent(ids: NewNode, t: Id, name: string, w: Id, isInitial: Option<bool>, kind: NodeKind, config: Dict)
    | CreateTool(ids: NewNode, t: Id, name: string, w: Id, agent: Id, httpMethod: string, kind: NodeKind, config: Dict)
    | CreateEdge(e: Id, row: EdgeRow)
    | DeleteEdge(e: Id)
    | DeleteAgent(a: Id)
    | DeleteTool(k: Id)
    | MovePositions(moves: seq<Placement>, t: Id)
    | CloneWorkflow(w: Id, t: Id, m: CloneSpec.Ids)
    | UpdateAgent(a: Id, t: Id, name: string, isInitial: Option<bool>)
    | UpdateTool(k: Id, t: Id, name: string, httpMethod: string)
    | UpdateConfig(c: Id, t: Id, config: Dict)

  ghost predicate Unused(db: Db, ids: NewNode) {
    ids.config !in db.configs && ids.position !in db.positions
  }

  ghost predicate NameFree(db: Db, name: string, w: Id) {
    forall a :: a in db.agents && db.agents[a].workflow == w ==> db.agents[a].name != name
  }

  /** No other agent of the same tenant and workflow has the name. */
  ghost predicate NameFreeFor(agents: map<Id, AgentRow>, a: Id, name: string)
    requires a in agents
  {
    forall b ::
      b in agents && b != a && agents[b].tenant == agents[a].tenant && agents[b].workflow == agents[a].workflow ==>
      agents[b].name != name
  }

  predicate KeepsOwner(positions: map<Id, PositionRow>, move: Placement) {
    move.id in positions ==>
      && move.workflow == positions[move.id].workflow
      && move.agent == positions[move.id].agent
      && move.tool == positions[move.id].tool
  }

  /** When an action goes through. */
  ghost predicate Enabled(db: Db, act: Action) {
    match act
    case CreateWorkflow(n, t, name) => n !in db.workflows && CloneSpec.RoomFor(db, name, t)
    case CreateAgent(ids, _, name, w, _, _, _) =>
      ids.id !in db.agents && Unused(db, ids) && w in db.workflows && NameFree(db, name, w)
    case CreateTool(ids, _, _, w, agent, _, _, _) =>
      ids.id !in db.tools && Unused(db, ids) && w in db.workflows && agent in db.agents
    case CreateEdge(e, row) =>
      e !in db.edges && row.workflow in db.workflows && row.source in db.positions && row.target in db.positions
    case DeleteEdge(e) => e in db.edges
    case DeleteAgent(a) => a in db.agents && forall k :: k in db.tools ==> db.tools[k].agent != a
    case DeleteTool(k) => k in db.tools
    case MovePositions(moves, _) => forall i :: 0 <= i < |moves| ==> KeepsOwner(db.positions, moves[i])
    case CloneWorkflow(w, t, m) => CloneProofs.Clones(db, w, t, m)
    case UpdateAgent(a, t, name, _) =>
      a in db.agents && db.agents[a].tenant == Some(t) && NameFreeFor(db.agents, a, name)
    case UpdateTool(k, t, _, _) => k in db.tools && db.tools[k].tenant == Some(t)
    case UpdateConfig(c, t, _) => c in db.configs && db.configs[c].tenant == Some(t)
  }

  ghost function Applied(db: Db, act: Action): Db
    requires Enabled(db, act)
  {
    match act
    case CreateWorkflow(n, t, name) => db.(workflows := db.workflows[n := WorkflowRow(t, name, CloneSpec.Lower(name))])
    case CreateAgent(ids, t, name, w, isInitial, kind, config) =>
      WithAgent(db, ids, t, name, w, isInitial, kind, config)
    case CreateTool(ids, t, name, w, agent, httpMethod, kind, config) =>
      WithTool(db, ids, t, name, w, agent, httpMethod, kind, config)
    case CreateEdge(e, row) => db.(edges := db.edges[e := row])
    case DeleteEdge(e) => db.(edges := db.edges - {e})
    case DeleteAgent(a) => WithoutAgent(db, a)
    case DeleteTool(k) => WithoutTool(db, k)
    case MovePositions(moves, t) => db.(positions := AllPlaced(db.positions, moves, t))
    case CloneWorkflow(w, t, m) => CloneSpec.Cloned(db, w, t, m)
    case UpdateAgent(a, _, name, isInitial) => WithAgentUpdated(db, a, name, isInitial)
    case UpdateTool(k, _, name, httpMethod) => WithToolUpdated(db, k, name, httpMethod)
    case UpdateConfig(c, _, config) => WithConfigUpdated(db, c, config)
  }

  lemma CreateWorkflowKeeps(db: Db, n: Id, t: Id, name: string)
    requires WellFormed(db) && n !in db.workflows && CloneSpec.RoomFor(db, name, t)
    ensures WellFormed(db.(workflows := db.workflows[n := WorkflowRow(t, name, CloneSpec.Lower(name))]))
  {
    var db' := db.(workflows := db.workflows[n := WorkflowRow(t, name, CloneSpec.Lower(name))]);
    CloneProofs.OldRowsOk(db, db');
  }

  lemma CreateAgentKeeps(
    db: Db, ids: NewNode, t: Id, name: string, w: Id, isInitial: Option<bool>, kind: NodeKind, config: Dict)
    requires WellFormed(db) && ids.id !in db.agents && Unused(db, ids) && w in db.workflows && NameFree(db, name, w)
    ensures WellFormed(WithAgent(db, ids, t, name, w, isInitial, kind, config))
  {
    var db' := WithAgent(db, ids, t, name, w, isInitial, kind, config);
    CloneProofs.OldRowsOk(db, db');
    assert AgentOk(db', ids.id) && ConfigOk(db', ids.config) && PositionOk(db', ids.position);
  }

  lemma CreateToolKeeps(
    db: Db, ids: NewNode, t: Id, name: string, w: Id, agent: Id, httpMethod: string, kind: NodeKind, config: Dict)
    requires WellFormed(db) && ids.id !in db.tools && Unused(db, ids) && w in db.workflows && agent in db.agents
    ensures WellFormed(WithTool(db, ids, t, name, w, agent, httpMethod, kind, config))
  {
    var db' := WithTool(db, ids, t, name, w, agent, httpMethod, kind, config);
    CloneProofs.OldRowsOk(db, db');
    assert ToolOk(db', ids.id) && ConfigOk(db', ids.config) && PositionOk(db', ids.position);
  }

  lemma EdgesKept(db: Db, edges: map<Id, EdgeRow>)
    requires WellFormed(db)
    requires forall e :: e in edges ==> EdgeOk(db.(edges := edges), e)
    ensures WellFormed(db.(edges := edges))
  {
    var db' := db.(edges := edges);
    forall a | a in db.agents ensures AgentOk(db', a) { assert AgentOk(db, a); }
    forall k | k in db.tools ensures ToolOk(db', k) { assert ToolOk(db, k); }
    forall p | p in db.positions ensures PositionOk(db', p) { assert PositionOk(db, p); }
    forall c | c in db.configs ensures ConfigOk(db', c) { assert ConfigOk(db, c); }
  }

  /** Deleting an agent leaves no edge, position or config that refers to it. */
  lemma DeleteAgentKeeps(db: Db, a: Id)
    requires WellFormed(db) && a in db.agents && forall k :: k in db.tools ==> db.tools[k].agent != a
    ensures WellFormed(WithoutAgent(db, a))
  {
    var db' := WithoutAgent(db, a);
    forall b | b in db'.agents ensures AgentOk(db', b) { assert AgentOk(db, b); }
    forall k | k in db'.tools ensures ToolOk(db', k) {
      assert ToolOk(db, k);
      if db.tools[k].position.Some? { assert PositionOk(db, db.tools[k].position.value); }
      if db.tools[k].config.Some? { assert ConfigOk(db, db.tools[k].config.value); }
    }
    forall p | p in db'.positions ensures PositionOk(db', p) { assert PositionOk(db, p); }
    forall c | c in db'.configs ensures ConfigOk(db', c) { assert ConfigOk(db, c); }
    forall e | e in db'.edges ensures EdgeOk(db', e) {
      assert EdgeOk(db, e);
      assert PositionOk(db, db.edges[e].source) && PositionOk(db, db.edges[e].target);
    }
  }

  lemma DeleteToolKeeps(db: Db, k: Id)
    requires WellFormed(db) && k in db.tools
    ensures WellFormed(WithoutTool(db, k))
  {
    var db' := WithoutTool(db, k);
    forall a | a in db'.agents ensures AgentOk(db', a) {
      assert AgentOk(db, a);
      if db.agents[a].position.Some? { assert PositionOk(db, db.agents[a].position.value); }
      if db.agents[a].config.Some? { assert ConfigOk(db, db.agents[a].config.value); }
    }
    forall j | j in db'.tools ensures ToolOk(db', j) { assert ToolOk(db, j); }
    forall p | p in db'.positions ensures PositionOk(db', p) { assert PositionOk(db, p); }
    forall c | c in db'.configs ensures ConfigOk(db', c) { assert ConfigOk(db, c); }
    forall e | e in db'.edges ensures EdgeOk(db', e) {
      assert EdgeOk(db, e);
      assert PositionOk(db, db.edges[e].source) && PositionOk(db, db.edges[e].target);
    }
  }

  /** Moves change coordinates and nothing else. */
  ghost predicate SameButPlace(before: map<Id, PositionRow>, after: map<Id, PositionRow>) {
    && before.Keys == after.Keys
    && forall p :: p in before ==> after[p] == before[p].(x := after[p].x, y := after[p].y)
  }

  lemma {:induction false} MovesKeepRest(positions: map<Id, PositionRow>, moves: seq<Placement>, t: Id)
    requires forall i :: 0 <= i < |moves| ==> KeepsOwner(positions, moves[i])
    ensures SameButPlace(positions, AllPlaced(positions, moves, t))
  {
    if moves != [] {
      MovesKeepRest(positions, moves[..|moves| - 1], t);
    }
  }

  lemma MovePositionsKeeps(db: Db, positions: map<Id, PositionRow>)
    requires WellFormed(db) && SameButPlace(db.positions, positions)
    ensures WellFormed(db.(positions := positions))
  {
    var db' := db.(positions := positions);
    forall a | a in db.agents ensures AgentOk(db', a) { assert AgentOk(db, a); }
    forall k | k in db.tools ensures ToolOk(db', k) { assert ToolOk(db, k); }
    forall p | p in db'.positions ensures PositionOk(db', p) { assert PositionOk(db, p); }
    forall c | c in db.configs ensures ConfigOk(db', c) { assert ConfigOk(db, c); }
    forall e | e in db.edges ensures EdgeOk(db', e) { assert EdgeOk(db, e); }
  }

  /** The same rows with the same references; other fields may differ. */
  ghost predicate SameReferences(db: Db, db': Db) {
    && db'.tenants == db.tenants && db'.workflows == db.workflows
    && db'.positions == db.positions && db'.edges == db.edges
    && db'.agents.Keys == db.agents.Keys && db'.tools.Keys == db.tools.Keys && db'.configs.Keys == db.configs.Keys
    && (forall a :: a in db.agents ==>
          db'.agents[a] == db.agents[a].(name := db'.agents[a].name, isInitial := db'.agents[a].isInitial))
    && (forall k :: k in db.tools ==>
          db'.tools[k] == db.tools[k].(name := db'.tools[k].name, httpMethod := db'.tools[k].httpMethod))
    && (forall c :: c in db.configs ==> db'.configs[c] == db.configs[c].(config := db'.configs[c].config))
  }

  lemma FieldsKeepRows(db: Db, db': Db)
    requires RowsOk(db) && SameReferences(db, db')
    ensures RowsOk(db')
  {
    forall a | a in db'.agents ensures AgentOk(db', a) { assert AgentOk(db, a); }
    forall k | k in db'.tools ensures ToolOk(db', k) { assert ToolOk(db, k); }
    forall p | p in db'.positions ensures PositionOk(db', p) { assert PositionOk(db, p); }
    forall c | c in db'.configs ensures ConfigOk(db', c) { assert ConfigOk(db, c); }
    forall e | e in db'.edges ensures EdgeOk(db', e) { assert EdgeOk(db, e); }
  }

  lemma UpdateAgentKeeps(db: Db, a: Id, name: string, isInitial: Option<bool>)
    requires WellFormed(db) && a in db.agents && NameFreeFor(db.agents, a, name)
    ensures WellFormed(WithAgentUpdated(db, a, name, isInitial))
  {
    FieldsKeepRows(db, WithAgentUpdated(db, a, name, isInitial));
  }

  /** Every operation keeps the database consistent. */
  lemma ActionKeepsWellFormed(db: Db, act: Action)
    requires WellFormed(db) && Enabled(db, act)
    ensures WellFormed(Applied(db, act))
  {
    match act
    case CreateWorkflow(n, t, name) => CreateWorkflowKeeps(db, n, t, name);
    case CreateAgent(ids, t, name, w, isInitial, kind, config) =>
      CreateAgentKeeps(db, ids, t, name, w, isInitial, kind, config);
    case CreateTool(ids, t, name, w, agent, httpMethod, kind, config) =>
      CreateToolKeeps(db, ids, t, name, w, agent, httpMethod, kind, config);
    case CreateEdge(e, row) =>
      var edges := db.edges[e := row];
      forall x | x in edges ensures EdgeOk(db.(edges := edges), x) {
        assert x in db.edges && x != e ==> EdgeOk(db, x);
      }
      EdgesKept(db, edges);
    case DeleteEdge(e) =>
      var edges := db.edges - {e};
      forall x | x in edges ensures EdgeOk(db.(edges := edges), x) {
        assert EdgeOk(db, x);
      }
      EdgesKept(db, edges);
    case DeleteAgent(a) => DeleteAgentKeeps(db, a);
    case DeleteTool(k) => DeleteToolKeeps(db, k);
    case MovePositions(moves, t) =>
      MovesKeepRest(db.positions, moves, t);
      MovePositionsKeeps(db, AllPlaced(db.positions, moves, t));
    case CloneWorkflow(w, t, m) => CloneProofs.CloneKeepsWellFormed(db, w, t, m);
    case UpdateAgent(a, t, name, isInitial) => UpdateAgentKeeps(db, a, name, isInitial);
    case UpdateTool(_, _, _, _) => FieldsKeepRows(db, Applied(db, act));
    case UpdateConfig(_, _, _) => FieldsKeepRows(db, Applied(db, act));
  }

  /** `trace` is a run of `acts`: each state comes from the one before by the action between them. */
  ghost predicate IsRun(trace: seq<Db>, acts: seq<Action>) {
    && |trace| == |acts| + 1
    && forall i :: 0 <= i < |acts| ==> Enabled(trace[i], acts[i]) && trace[i + 1] == Applied(trace[i], acts[i])
  }

  /** Consistency holds throughout every run that starts consistent. */
  lemma {:induction false} RunKeepsWellFormed(trace: seq<Db>, acts: seq<Action>, i: nat)
    requires IsRun(trace, acts) && WellFormed(trace[0]) && i < |trace|
    ensures WellFormed(trace[i])
  {
    if i > 0 {
      RunKeepsWellFormed(trace, acts, i - 1);
      ActionKeepsWellFormed(trace[i - 1], acts[i - 1]);
    }
  }

  /** Deleting an agent just created undoes the creation. */
  lemma CreateThenDeleteAgent(
    db: Db, ids: NewNode, t: Id, name: string, w: Id, isInitial: Option<bool>, kind: NodeKind, config: Dict)
    requires WellFormed(db) && ids.id !in db.agents && Unused(db, ids)
    ensures WithoutAgent(WithAgent(db, ids, t, name, w, isInitial, kind, config), ids.id) == db
  {
    var db' := WithAgent(db, ids, t, name, w, isInitial, kind, config);
    forall e | e in db.edges ensures e in EdgesAwayFrom(db'.edges, Some(ids.position)) { assert EdgeOk(db, e); }
    forall c | c in db.configs ensures db.configs[c].agent != Some(ids.id) { assert ConfigOk(db, c); }
    forall p | p in db.positions ensures db.positions[p].agent != Some(ids.id) { assert PositionOk(db, p); }
    var gone := WithoutAgent(db', ids.id);
    assert gone.edges == db.edges;
    assert gone.configs == db.configs;
    assert gone.positions == db.positions;
    assert gone.agents == db.agents;
  }

  /** Deleting a tool just created undoes the creation. */
  lemma CreateThenDeleteTool(
    db: Db, ids: NewNode, t: Id, name: string, w: Id, agent: Id, httpMethod: string, kind: NodeKind, config: Dict)
    requires WellFormed(db) && ids.id !in db.tools && Unused(db, ids)
    ensures WithoutTool(WithTool(db, ids, t, name, w, agent, httpMethod, kind, config), ids.id) == db
  {
    var db' := WithTool(db, ids, t, name, w, agent, httpMethod, kind, config);
    forall e | e in db.edges ensures e in EdgesAwayFrom(db'.edges, Some(ids.position)) { assert EdgeOk(db, e); }
    forall c | c in db.configs ensures db.configs[c].tool != Some(ids.id) { assert ConfigOk(db, c); }
    forall p | p in db.positions ensures db.positions[p].tool != Some(ids.id) { assert PositionOk(db, p); }
    var gone := WithoutTool(db', ids.id);
    assert gone.edges == db.edges;
    assert gone.configs == db.configs;
    assert gone.positions == db.positions;
    assert gone.tools == db.tools;
  }
}
