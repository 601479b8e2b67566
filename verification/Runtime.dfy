/** The workflow graph as the voice worker sees it, and how one database state determines it. */
module Runtime {
  import opened Wrappers
  import opened Tables

  // Stand-ins for two longer texts; only that they are not empty matters.

  const DEFAULT_INSTRUCTIONS: Json := Text("default instructions")

  const DEFAULT_WELCOME: Json := Text("default welcome")

  datatype Settings = Settings(
    instructions: Json, welcomeMessage: Json, model: Json, temperature: real, maxTokens: int, language: Json)

  datatype RuntimeTool = RuntimeTool(id: Id, name: string, httpMethod: string, agent: Id, config: Dict)

  datatype RuntimeEdge = RuntimeEdge(
    id: Id, source: Id, target: Id, handoffType: Json, condition: Json, timeoutSeconds: int, notes: Json)

  datatype RuntimeAgent = RuntimeAgent(
    id: Id, name: string, isInitial: bool, settings: Settings, position: Option<Id>, tools: seq<RuntimeTool>)

  datatype RuntimeWorkflow = RuntimeWorkflow(id: Id, name: string, agents: seq<RuntimeAgent>, edges: seq<RuntimeEdge>)

  /** Python's truth value. */
  predicate Truthy(v: Json) {
    match v
    case Null => false
    case Bool(b) => b
    case Number(n) => n != 0.0
    case Text(s) => s != ""
    case List(items) => items != []
    case Object(fields) => fields != map[]
  }

  /** Six values are falsy, and no other. */
  lemma FalsyMeans(v: Json)
    ensures !Truthy(v) <==>
      v == Null || v == Bool(false) || v == Number(0.0) || v == Text("") || v == List([]) || v == Object(map[])
  {
  }

  /** The value under a key, or the default if there is none or it is falsy. */
  function Setting(config: Dict, key: string, default: Json): Json {
    if key in config && Truthy(config[key]) then config[key] else default
  }

  /** How text is read as a number. */
  datatype Parsers = Parsers(toReal: string -> Option<real>, toInt: string -> Option<int>)

  /** A number without its fraction. */
  function Truncated(x: real): int {
    if x >= 0.0 then x.Floor else -(-x).Floor
  }

  /** Towards zero: never further from it than the number, and less than one away from the number. */
  lemma TruncatedMeans(x: real)
    ensures x >= 0.0 ==> 0.0 <= Truncated(x) as real <= x < Truncated(x) as real + 1.0
    ensures x <= 0.0 ==> Truncated(x) as real - 1.0 < x <= Truncated(x) as real <= 0.0
  {
  }

  /** Python's conversion to a float; None where it raises. */
  function CastReal(v: Json, parsers: Parsers): Option<real> {
    match v
    case Number(n) => Some(n)
    case Bool(b) => Some(if b then 1.0 else 0.0)
    case Text(s) => parsers.toReal(s)
    case _ => None
  }

  /** Python's conversion to an int; None where it raises. */
  function CastInt(v: Json, parsers: Parsers): Option<int> {
    match v
    case Number(n) => Some(Truncated(n))
    case Bool(b) => Some(if b then 1 else 0)
    case Text(s) => parsers.toInt(s)
    case _ => None
  }

  /** An agent's settings; None if one of them cannot be cast. */
  function SettingsFrom(config: Dict, parsers: Parsers): Option<Settings> {
    var temperature := CastReal(Setting(config, "temperature", Number(0.7)), parsers);
    var maxTokens := CastInt(Setting(config, "maxTokens", Number(1024.0)), parsers);
    if temperature.None? || maxTokens.None? then None
    else Some(Settings(
      Setting(config, "systemPrompt", DEFAULT_INSTRUCTIONS),
      Setting(config, "welcomeMessage", DEFAULT_WELCOME),
      Setting(config, "model", Text("gpt-realtime")),
      temperature.value,
      maxTokens.value,
      Setting(config, "language", Text("en"))))
  }

  /** An edge as the worker uses it; None if its timeout cannot be cast. */
  function EdgeFrom(e: Id, edge: EdgeView, parsers: Parsers): Option<RuntimeEdge> {
    match CastInt(Setting(edge.data, "timeoutSeconds", Number(0.0)), parsers)
    case None => None
    case Some(timeout) =>
      Some(RuntimeEdge(e, edge.source, edge.target,
                       Setting(edge.data, "handoffType", Text("always")), Setting(edge.data, "condition", Text("")),
                       timeout, Setting(edge.data, "notes", Text(""))))
  }

  // What hangs on a node is found through its owner column, not through the node's own link.

  ghost function AgentConfig(db: Db, a: Id): Dict {
    if exists c :: c in db.configs && db.configs[c].agent == Some(a) then
      var c :| c in db.configs && db.configs[c].agent == Some(a);
      db.configs[c].config
    else map[]
  }

  ghost function ToolConfig(db: Db, k: Id): Dict {
    if exists c :: c in db.configs && db.configs[c].tool == Some(k) then
      var c :| c in db.configs && db.configs[c].tool == Some(k);
      db.configs[c].config
    else map[]
  }

  ghost function AgentPosition(db: Db, a: Id): Option<Id> {
    if exists p :: p in db.positions && db.positions[p].agent == Some(a) then
      var p :| p in db.positions && db.positions[p].agent == Some(a);
      Some(p)
    else None
  }

  // In a consistent database both routes agree.

  lemma AgentConfigIsLinked(db: Db, a: Id)
    requires RowsOk(db) && a in db.agents
    ensures AgentConfig(db, a) ==
      match db.agents[a].config
      case None => map[]
      case Some(c) => if c in db.configs then db.configs[c].config else map[]
  {
    assert AgentOk(db, a);
    forall c | c in db.configs && db.configs[c].agent == Some(a) ensures db.agents[a].config == Some(c) {
      assert ConfigOk(db, c);
    }
  }

  lemma ToolConfigIsLinked(db: Db, k: Id)
    requires RowsOk(db) && k in db.tools
    ensures ToolConfig(db, k) ==
      match db.tools[k].config
      case None => map[]
      case Some(c) => if c in db.configs then db.configs[c].config else map[]
  {
    assert ToolOk(db, k);
    forall c | c in db.configs && db.configs[c].tool == Some(k) ensures db.tools[k].config == Some(c) {
      assert ConfigOk(db, c);
    }
  }

  lemma AgentPositionIsLinked(db: Db, a: Id)
    requires RowsOk(db) && a in db.agents
    ensures AgentPosition(db, a) == db.agents[a].position
  {
    assert AgentOk(db, a);
    forall p | p in db.positions && db.positions[p].agent == Some(a) ensures db.agents[a].position == Some(p) {
      assert PositionOk(db, p);
    }
  }

  // The graph that loading workflow `w` as tenant `t` yields, up to the order of rows.

  datatype AgentView = AgentView(
    name: string, isInitial: bool, config: Dict, position: Option<Id>, tools: map<Id, RuntimeTool>)

  datatype EdgeView = EdgeView(source: Id, target: Id, data: Dict)

  datatype WorkflowView = WorkflowView(id: Id, name: string, agents: map<Id, AgentView>, edges: map<Id, EdgeView>)

  ghost function ToolSeen(db: Db, k: Id): RuntimeTool
    requires k in db.tools
  {
    RuntimeTool(k, db.tools[k].name, db.tools[k].httpMethod, db.tools[k].agent, ToolConfig(db, k))
  }

  /** The rows of workflow `w` that carry tenant `t`. */
  function AgentsVisible(db: Db, w: Id, t: Id): set<Id> {
    set a | a in db.agents && db.agents[a].workflow == w && db.agents[a].tenant == Some(t)
  }

  function ToolsVisible(db: Db, w: Id, t: Id): set<Id> {
    set k | k in db.tools && db.tools[k].workflow == w && db.tools[k].tenant == Some(t)
  }

  function EdgesVisible(db: Db, w: Id, t: Id): set<Id> {
    set e | e in db.edges && db.edges[e].workflow == w && db.edges[e].tenant == Some(t)
  }

  ghost function ToolsSeen(db: Db, w: Id, t: Id, a: Id): map<Id, RuntimeTool> {
    map k | k in ToolsVisible(db, w, t) && db.tools[k].agent == a :: ToolSeen(db, k)
  }

  ghost function AgentSeen(db: Db, w: Id, t: Id, a: Id): AgentView
    requires a in db.agents
  {
    AgentView(db.agents[a].name, db.agents[a].isInitial == Some(true), AgentConfig(db, a),
              AgentPosition(db, a), ToolsSeen(db, w, t, a))
  }

  ghost function AgentsSeen(db: Db, w: Id, t: Id): map<Id, AgentView> {
    map a | a in AgentsVisible(db, w, t) :: AgentSeen(db, w, t, a)
  }

  /** Null edge data reads as empty. */
  function EdgeSeen(row: EdgeRow): EdgeView {
    EdgeView(row.source, row.target, row.data.GetOr(map[]))
  }

  ghost function EdgesSeen(db: Db, w: Id, t: Id): map<Id, EdgeView> {
    map e | e in EdgesVisible(db, w, t) :: EdgeSeen(db.edges[e])
  }

  ghost function Seen(db: Db, w: Id, t: Id): WorkflowView
    requires w in db.workflows
  {
    WorkflowView(w, db.workflows[w].name, AgentsSeen(db, w, t), EdgesSeen(db, w, t))
  }

  // A runtime workflow lists such a graph, each row once, in some order.

  ghost predicate ListsTools(tools: seq<RuntimeTool>, view: map<Id, RuntimeTool>) {
    && (forall i, j :: 0 <= i < j < |tools| ==> tools[i].id != tools[j].id)
    && (forall i :: 0 <= i < |tools| ==> tools[i].id in view && view[tools[i].id] == tools[i])
    && (forall k :: k in view ==> view[k] in tools)
  }

  ghost predicate ShowsAgent(agent: RuntimeAgent, view: AgentView) {
    && agent.name == view.name && agent.isInitial == view.isInitial
    && agent.position == view.position && ListsTools(agent.tools, view.tools)
  }

  ghost predicate ListsAgents(agents: seq<RuntimeAgent>, view: map<Id, AgentView>) {
    && (forall i, j :: 0 <= i < j < |agents| ==> agents[i].id != agents[j].id)
    && (forall i :: 0 <= i < |agents| ==> agents[i].id in view && ShowsAgent(agents[i], view[agents[i].id]))
    && (forall a :: a in view ==> exists i :: 0 <= i < |agents| && agents[i].id == a)
  }

  ghost predicate ListsEdges(edges: seq<RuntimeEdge>, view: map<Id, EdgeView>) {
    && (forall i, j :: 0 <= i < j < |edges| ==> edges[i].id != edges[j].id)
    && (forall i :: 0 <= i < |edges| ==>
          && edges[i].id in view
          && edges[i].source == view[edges[i].id].source && edges[i].target == view[edges[i].id].target)
    && (forall e :: e in view ==> exists i :: 0 <= i < |edges| && edges[i].id == e)
  }

  ghost predicate Shows(workflow: RuntimeWorkflow, view: WorkflowView) {
    && workflow.id == view.id && workflow.name == view.name
    && ListsAgents(workflow.agents, view.agents) && ListsEdges(workflow.edges, view.edges)
  }

  // What the stored settings have to do with it.

  ghost predicate ConfiguredAgents(agents: seq<RuntimeAgent>, view: map<Id, AgentView>, parsers: Parsers) {
    forall i :: 0 <= i < |agents| ==>
      agents[i].id in view && Some(agents[i].settings) == SettingsFrom(view[agents[i].id].config, parsers)
  }

  ghost predicate ConfiguredEdges(edges: seq<RuntimeEdge>, view: map<Id, EdgeView>, parsers: Parsers) {
    forall i :: 0 <= i < |edges| ==>
      edges[i].id in view && Some(edges[i]) == EdgeFrom(edges[i].id, view[edges[i].id], parsers)
  }

  /** Agents and edges have the settings stored for them, cast and completed by defaults. */
  ghost predicate Configured(workflow: RuntimeWorkflow, view: WorkflowView, parsers: Parsers) {
    ConfiguredAgents(workflow.agents, view.agents, parsers) && ConfiguredEdges(workflow.edges, view.edges, parsers)
  }

  ghost predicate CastableAgents(view: map<Id, AgentView>, parsers: Parsers) {
    forall a :: a in view ==> SettingsFrom(view[a].config, parsers).Some?
  }

  ghost predicate CastableEdges(view: map<Id, EdgeView>, parsers: Parsers) {
    forall e :: e in view ==> EdgeFrom(e, view[e], parsers).Some?
  }

  /** Every number among the settings can be cast. */
  ghost predicate Castable(view: WorkflowView, parsers: Parsers) {
    CastableAgents(view.agents, parsers) && CastableEdges(view.edges, parsers)
  }
}
