/** The workflow tables of the database, and what it means for them to be consistent. */
module Tables {
  import opened Wrappers

  /** A uuid. Only equality of ids matters, so a number stands for one. */
  type Id = nat

  datatype Json =
    | Null
    | Bool(b: bool)
    | Number(n: real)
    | Text(s: string)
    | List(items: seq<Json>)
    | Object(fields: map<string, Json>)

  type Dict = map<string, Json>

  datatype NodeKind = AgentNode | ToolNode

  datatype WorkflowRow = WorkflowRow(tenant: Id, name: string, nameLower: string)

  datatype AgentRow = AgentRow(
    tenant: Option<Id>, name: string, workflow: Id, isInitial: Option<bool>,
    position: Option<Id>, config: Option<Id>)

  datatype ToolRow = ToolRow(
    tenant: Option<Id>, name: string, workflow: Id, agent: Id, httpMethod: string,
    position: Option<Id>, config: Option<Id>)

  datatype PositionRow = PositionRow(
    tenant: Option<Id>, workflow: Id, agent: Option<Id>, tool: Option<Id>, x: real, y: real)

  datatype ConfigRow = ConfigRow(
    tenant: Option<Id>, kind: NodeKind, workflow: Id, agent: Option<Id>, tool: Option<Id>, config: Dict)

  datatype EdgeRow = EdgeRow(
    tenant: Option<Id>, workflow: Id, source: Id, target: Id, data: Option<Dict>)

  /** One state of the database. */
  datatype Db = Db(
    tenants: set<Id>,
    workflows: map<Id, WorkflowRow>,
    agents: map<Id, AgentRow>,
    tools: map<Id, ToolRow>,
    positions: map<Id, PositionRow>,
    configs: map<Id, ConfigRow>,
    edges: map<Id, EdgeRow>)

  /** The check constraint on positions and configs: one owner, an agent or a tool. */
  predicate OneOwner(agent: Option<Id>, tool: Option<Id>) {
    agent.Some? != tool.Some?
  }

  // Per-row consistency. Each predicate only asserts that certain rows exist with certain
  // contents, so adding rows under new ids never breaks one.

  ghost predicate AgentOk(db: Db, a: Id)
    requires a in db.agents
  {
    var row := db.agents[a];
    && row.workflow in db.workflows
    && (row.position.Some? ==>
          row.position.value in db.positions && db.positions[row.position.value].agent == Some(a))
    && (row.config.Some? ==>
          row.config.value in db.configs && db.configs[row.config.value].agent == Some(a))
  }

  ghost predicate ToolOk(db: Db, k: Id)
    requires k in db.tools
  {
    var row := db.tools[k];
    && row.workflow in db.workflows
    && row.agent in db.agents
    && (row.position.Some? ==>
          row.position.value in db.positions && db.positions[row.position.value].tool == Some(k))
    && (row.config.Some? ==>
          row.config.value in db.configs && db.configs[row.config.value].tool == Some(k))
  }

  /** A position has one owner, in its own workflow, and is the position its owner links to. */
  ghost predicate PositionOk(db: Db, p: Id)
    requires p in db.positions
  {
    var row := db.positions[p];
    && OneOwner(row.agent, row.tool)
    && (row.agent.Some? ==>
          && row.agent.value in db.agents
          && db.agents[row.agent.value].position == Some(p)
          && db.agents[row.agent.value].workflow == row.workflow)
    && (row.tool.Some? ==>
          && row.tool.value in db.tools
          && db.tools[row.tool.value].position == Some(p)
          && db.tools[row.tool.value].workflow == row.workflow)
  }

  /** A config has one owner, in its own workflow, and is the config its owner links to. */
  ghost predicate ConfigOk(db: Db, c: Id)
    requires c in db.configs
  {
    var row := db.configs[c];
    && OneOwner(row.agent, row.tool)
    && (row.agent.Some? ==>
          && row.agent.value in db.agents
          && db.agents[row.agent.value].config == Some(c)
          && db.agents[row.agent.value].workflow == row.workflow)
    && (row.tool.Some? ==>
          && row.tool.value in db.tools
          && db.tools[row.tool.value].config == Some(c)
          && db.tools[row.tool.value].workflow == row.workflow)
  }

  ghost predicate EdgeOk(db: Db, e: Id)
    requires e in db.edges
  {
    var row := db.edges[e];
    row.workflow in db.workflows && row.source in db.positions && row.target in db.positions
  }

  /** The unique key (tenant, workflow, name) on agents; a null tenant equals nothing. */
  ghost predicate AgentNamesUnique(agents: map<Id, AgentRow>) {
    forall a, b | a in agents && b in agents && a != b ::
      agents[a].tenant.Some? && agents[a].tenant == agents[b].tenant && agents[a].workflow == agents[b].workflow
      ==> agents[a].name != agents[b].name
  }

  /** The unique key (tenant, lower-case name) on workflows. */
  ghost predicate WorkflowNamesUnique(workflows: map<Id, WorkflowRow>) {
    forall v, w | v in workflows && w in workflows && v != w ::
      workflows[v].tenant == workflows[w].tenant ==> workflows[v].nameLower != workflows[w].nameLower
  }

  ghost predicate RowsOk(db: Db) {
    && (forall w :: w in db.workflows ==> db.workflows[w].tenant in db.tenants)
    && (forall a {:trigger AgentOk(db, a)} :: a in db.agents ==> AgentOk(db, a))
    && (forall k {:trigger ToolOk(db, k)} :: k in db.tools ==> ToolOk(db, k))
    && (forall p {:trigger PositionOk(db, p)} :: p in db.positions ==> PositionOk(db, p))
    && (forall c {:trigger ConfigOk(db, c)} :: c in db.configs ==> ConfigOk(db, c))
    && (forall e {:trigger EdgeOk(db, e)} :: e in db.edges ==> EdgeOk(db, e))
  }

  ghost predicate WellFormed(db: Db) {
    RowsOk(db) && AgentNamesUnique(db.agents) && WorkflowNamesUnique(db.workflows)
  }

  /** `small` is `big` restricted to some of its keys. */
  ghost predicate Within<R(!new)>(small: map<Id, R>, big: map<Id, R>) {
    forall x :: x in small ==> x in big && big[x] == small[x]
  }

  /** Every row of `db` is unchanged in `db'`. */
  ghost predicate Extends(db: Db, db': Db) {
    && db.tenants <= db'.tenants
    && Within(db.workflows, db'.workflows)
    && Within(db.agents, db'.agents)
    && Within(db.tools, db'.tools)
    && Within(db.positions, db'.positions)
    && Within(db.configs, db'.configs)
    && Within(db.edges, db'.edges)
  }

  // The rows of one workflow.

  function AgentsOf(db: Db, w: Id): set<Id> {
    set a | a in db.agents && db.agents[a].workflow == w
  }

  function ToolsOf(db: Db, w: Id): set<Id> {
    set k | k in db.tools && db.tools[k].workflow == w
  }

  function PositionsOf(db: Db, w: Id): set<Id> {
    set p | p in db.positions && db.positions[p].workflow == w
  }

  function ConfigsOf(db: Db, w: Id): set<Id> {
    set c | c in db.configs && db.configs[c].workflow == w
  }

  function EdgesOf(db: Db, w: Id): set<Id> {
    set e | e in db.edges && db.edges[e].workflow == w
  }

  /** Every tool of the workflow hangs on one of its agents. */
  ghost predicate ToolsAttached(db: Db, w: Id) {
    forall k :: k in ToolsOf(db, w) ==> db.tools[k].agent in AgentsOf(db, w)
  }

  /** Every edge of the workflow joins two of its positions. */
  ghost predicate EdgesHit(db: Db, w: Id) {
    forall e :: e in EdgesOf(db, w) ==>
      db.edges[e].source in PositionsOf(db, w) && db.edges[e].target in PositionsOf(db, w)
  }

  /** Nothing in workflow `w` hangs on a node of another workflow. */
  ghost predicate Closed(db: Db, w: Id) {
    ToolsAttached(db, w) && EdgesHit(db, w)
  }

  /** Every agent, tool and edge of workflow `w` carries tenant `t`. */
  ghost predicate Carries(db: Db, w: Id, t: Id) {
    && (forall a :: a in AgentsOf(db, w) ==> db.agents[a].tenant == Some(t))
    && (forall k :: k in ToolsOf(db, w) ==> db.tools[k].tenant == Some(t))
    && (forall e :: e in EdgesOf(db, w) ==> db.edges[e].tenant == Some(t))
  }
}
