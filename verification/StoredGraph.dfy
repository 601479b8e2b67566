/** What a loaded workflow and its live agents have to do with the stored rows, column by column. */
module StoredGraph {
  import opened Wrappers
  import opened Tables
  import opened Runtime
  import opened Handoff

  // Loading.

  /** The settings stored under a link. */
  function ConfigUnder(db: Db, link: Option<Id>): Dict {
    if link.Some? && link.value in db.configs then db.configs[link.value].config else map[]
  }

  ghost predicate AgentRowOf(db: Db, w: Id, t: Id, a: Id) {
    a in db.agents && db.agents[a].workflow == w && db.agents[a].tenant == Some(t)
  }

  ghost predicate ToolRowOf(db: Db, w: Id, t: Id, a: Id, k: Id) {
    k in db.tools && db.tools[k].workflow == w && db.tools[k].tenant == Some(t) && db.tools[k].agent == a
  }

  ghost predicate EdgeRowOf(db: Db, w: Id, t: Id, e: Id) {
    e in db.edges && db.edges[e].workflow == w && db.edges[e].tenant == Some(t)
  }

  /** A tool as its row and its config row have it. */
  ghost predicate ToolStored(db: Db, w: Id, t: Id, a: Id, tool: RuntimeTool) {
    && ToolRowOf(db, w, t, a, tool.id) && tool.agent == a
    && tool.name == db.tools[tool.id].name && tool.httpMethod == db.tools[tool.id].httpMethod
    && tool.config == ConfigUnder(db, db.tools[tool.id].config)
  }

  ghost predicate ToolsStored(db: Db, w: Id, t: Id, a: Id, tools: seq<RuntimeTool>) {
    && (forall i :: 0 <= i < |tools| ==> ToolStored(db, w, t, a, tools[i]))
    && (forall k :: ToolRowOf(db, w, t, a, k) ==> exists i :: 0 <= i < |tools| && tools[i].id == k)
  }

  ghost predicate AgentStored(db: Db, w: Id, t: Id, agent: RuntimeAgent, parsers: Parsers) {
    && AgentRowOf(db, w, t, agent.id) && agent.name == db.agents[agent.id].name
    && agent.isInitial == (db.agents[agent.id].isInitial == Some(true))
    && agent.position == db.agents[agent.id].position
    && Some(agent.settings) == SettingsFrom(ConfigUnder(db, db.agents[agent.id].config), parsers)
    && ToolsStored(db, w, t, agent.id, agent.tools)
  }

  ghost predicate AgentsStored(db: Db, w: Id, t: Id, agents: seq<RuntimeAgent>, parsers: Parsers) {
    && (forall i :: 0 <= i < |agents| ==> AgentStored(db, w, t, agents[i], parsers))
    && (forall a :: AgentRowOf(db, w, t, a) ==> exists i :: 0 <= i < |agents| && agents[i].id == a)
  }

  /** An edge runs from where its row runs from to where its row runs to. */
  ghost predicate EdgeStored(db: Db, w: Id, t: Id, edge: RuntimeEdge) {
    && EdgeRowOf(db, w, t, edge.id)
    && edge.source == db.edges[edge.id].source && edge.target == db.edges[edge.id].target
    && edge.condition == Setting(db.edges[edge.id].data.GetOr(map[]), "condition", Text(""))
  }

  ghost predicate EdgesStored(db: Db, w: Id, t: Id, edges: seq<RuntimeEdge>) {
    && (forall i :: 0 <= i < |edges| ==> EdgeStored(db, w, t, edges[i]))
    && (forall e :: EdgeRowOf(db, w, t, e) ==> exists i :: 0 <= i < |edges| && edges[i].id == e)
  }

  lemma EdgesAreStored(db: Db, w: Id, t: Id, edges: seq<RuntimeEdge>, parsers: Parsers)
    requires ListsEdges(edges, EdgesSeen(db, w, t)) && ConfiguredEdges(edges, EdgesSeen(db, w, t), parsers)
    ensures EdgesStored(db, w, t, edges)
  {
    forall e | EdgeRowOf(db, w, t, e) ensures exists i :: 0 <= i < |edges| && edges[i].id == e {
      assert e in EdgesSeen(db, w, t);
    }
  }

  lemma ToolsAreStored(db: Db, w: Id, t: Id, a: Id, tools: seq<RuntimeTool>)
    requires RowsOk(db) && ListsTools(tools, ToolsSeen(db, w, t, a))
    ensures ToolsStored(db, w, t, a, tools)
  {
    forall i | 0 <= i < |tools| ensures ToolStored(db, w, t, a, tools[i]) {
      ToolConfigIsLinked(db, tools[i].id);
    }
    forall k | ToolRowOf(db, w, t, a, k) ensures exists i :: 0 <= i < |tools| && tools[i].id == k {
      assert k in ToolsSeen(db, w, t, a);
      var i :| 0 <= i < |tools| && tools[i] == ToolsSeen(db, w, t, a)[k];
    }
  }

  lemma AgentIsStored(db: Db, w: Id, t: Id, agent: RuntimeAgent, parsers: Parsers)
    requires RowsOk(db) && agent.id in AgentsVisible(db, w, t) && ShowsAgent(agent, AgentSeen(db, w, t, agent.id))
    requires Some(agent.settings) == SettingsFrom(AgentConfig(db, agent.id), parsers)
    ensures AgentStored(db, w, t, agent, parsers)
  {
    AgentConfigIsLinked(db, agent.id);
    AgentPositionIsLinked(db, agent.id);
    ToolsAreStored(db, w, t, agent.id, agent.tools);
  }

  lemma AgentsAreStored(db: Db, w: Id, t: Id, agents: seq<RuntimeAgent>, parsers: Parsers)
    requires RowsOk(db) && ListsAgents(agents, AgentsSeen(db, w, t))
    requires ConfiguredAgents(agents, AgentsSeen(db, w, t), parsers)
    ensures AgentsStored(db, w, t, agents, parsers)
  {
    forall i | 0 <= i < |agents| ensures AgentStored(db, w, t, agents[i], parsers) {
      AgentIsStored(db, w, t, agents[i], parsers);
    }
    forall a | AgentRowOf(db, w, t, a) ensures exists i :: 0 <= i < |agents| && agents[i].id == a {
      assert a in AgentsSeen(db, w, t);
    }
  }

  // Handing over.

  /** Some edge row leads from the one agent's position to the other's. */
  ghost predicate StoredStep(db: Db, w: Id, t: Id, a: Id, b: Id) {
    && AgentRowOf(db, w, t, a) && AgentRowOf(db, w, t, b)
    && exists e :: EdgeRowOf(db, w, t, e) &&
         db.agents[a].position == Some(db.edges[e].source) && db.agents[b].position == Some(db.edges[e].target)
  }

  ghost predicate StoredPath(db: Db, w: Id, t: Id, path: seq<Id>) {
    forall i :: 0 <= i < |path| - 1 ==> StoredStep(db, w, t, path[i], path[i + 1])
  }

  /** The stored edges lead from the one agent to the other. */
  ghost predicate StoredReachable(db: Db, w: Id, t: Id, a: Id, b: Id) {
    exists path: seq<Id> :: path != [] && path[0] == a && path[|path| - 1] == b && StoredPath(db, w, t, path)
  }

  lemma StepIsStored(db: Db, w: Id, t: Id, a: Id, b: Id)
    requires RowsOk(db) && w in db.workflows
    ensures Step(Seen(db, w, t), a, b) <==> StoredStep(db, w, t, a, b)
  {
    var view := Seen(db, w, t);
    forall x ensures x in view.agents <==> AgentRowOf(db, w, t, x)
             ensures x in view.agents ==> view.agents[x].position == db.agents[x].position {
      if x in view.agents {
        AgentPositionIsLinked(db, x);
      }
    }
    if StoredStep(db, w, t, a, b) {
      var e :| EdgeRowOf(db, w, t, e) &&
        db.agents[a].position == Some(db.edges[e].source) && db.agents[b].position == Some(db.edges[e].target);
      assert e in view.edges;
    }
    if Step(view, a, b) {
      var e :| e in view.edges && view.agents[a].position == Some(view.edges[e].source) &&
        view.agents[b].position == Some(view.edges[e].target);
      assert EdgeRowOf(db, w, t, e);
    }
  }

  lemma StoredPathFirst(db: Db, w: Id, t: Id, path: seq<Id>)
    requires |path| > 1
    ensures StoredPath(db, w, t, path) <==> StoredStep(db, w, t, path[0], path[1]) && StoredPath(db, w, t, path[1..])
  {
    if StoredStep(db, w, t, path[0], path[1]) && StoredPath(db, w, t, path[1..]) {
      forall i | 0 <= i < |path| - 1 ensures StoredStep(db, w, t, path[i], path[i + 1]) {
        assert i > 0 ==> StoredStep(db, w, t, path[1..][i - 1], path[1..][i - 1 + 1]);
      }
    }
    if StoredPath(db, w, t, path) {
      forall i | 0 <= i < |path[1..]| - 1 ensures StoredStep(db, w, t, path[1..][i], path[1..][i + 1]) {
        assert StoredStep(db, w, t, path[i + 1], path[i + 1 + 1]);
      }
    }
  }

  lemma {:induction false} PathIsStored(db: Db, w: Id, t: Id, path: seq<Id>)
    requires RowsOk(db) && w in db.workflows
    ensures Path(Seen(db, w, t), path) <==> StoredPath(db, w, t, path)
  {
    if |path| > 1 {
      StepIsStored(db, w, t, path[0], path[1]);
      PathIsStored(db, w, t, path[1..]);
      StoredPathFirst(db, w, t, path);
    }
  }

  lemma ReachableIsStored(db: Db, w: Id, t: Id, a: Id, b: Id)
    requires RowsOk(db) && w in db.workflows
    ensures Reachable(Seen(db, w, t), a, b) <==> StoredReachable(db, w, t, a, b)
  {
    forall path: seq<Id> ensures Path(Seen(db, w, t), path) <==> StoredPath(db, w, t, path) {
      PathIsStored(db, w, t, path);
    }
  }

  /** A transfer tool goes along an edge row to an agent row, under its name and with the edge's condition. */
  ghost predicate TransferStored(db: Db, w: Id, t: Id, a: Id, tool: AgentTool)
    requires tool.TransferTool?
  {
    exists e ::
      && EdgeRowOf(db, w, t, e) && AgentRowOf(db, w, t, a) && AgentRowOf(db, w, t, tool.target)
      && db.agents[a].position == Some(db.edges[e].source)
      && db.agents[tool.target].position == Some(db.edges[e].target)
      && tool.targetName == db.agents[tool.target].name
      && tool.condition == Setting(db.edges[e].data.GetOr(map[]), "condition", Text(""))
  }

  /** A live agent's tools are the stored ones, and a transfer for each stored edge to another agent. */
  ghost predicate LiveTools(db: Db, w: Id, t: Id, a: Id, tools: seq<AgentTool>) {
    && (forall i :: 0 <= i < |tools| ==>
          match tools[i]
          case DataTool(tool) => ToolStored(db, w, t, a, tool)
          case TransferTool(_, _, _) => TransferStored(db, w, t, a, tools[i]))
    && (forall k :: ToolRowOf(db, w, t, a, k) ==>
          exists i :: 0 <= i < |tools| && tools[i].DataTool? && tools[i].tool.id == k)
    && (forall b :: StoredStep(db, w, t, a, b) ==> CanTransfer(tools, b))
  }

  lemma {:induction false} SuccessorsListed(edges: seq<RuntimeEdge>, agents: seq<RuntimeAgent>, position: Id, i: nat)
    requires i < |SuccessorsOver(edges, agents, position)|
    ensures var (agent, edge) := SuccessorsOver(edges, agents, position)[i];
      edge in edges && edge.source == position && AgentAt(agents, edge.target) == Some(agent)
  {
    var n := |edges| - 1;
    if i < |SuccessorsOver(edges[..n], agents, position)| {
      SuccessorsListed(edges[..n], agents, position, i);
    }
  }

  lemma TransferIsStored(db: Db, w: Id, t: Id, loaded: RuntimeWorkflow, agent: RuntimeAgent, i: nat, parsers: Parsers)
    requires AgentsStored(db, w, t, loaded.agents, parsers) && EdgesStored(db, w, t, loaded.edges)
    requires AgentStored(db, w, t, agent, parsers) && i < |SuccessorsOf(loaded, agent)|
    ensures TransferStored(db, w, t, agent.id, TransferTools(SuccessorsOf(loaded, agent))[i])
  {
    SuccessorsListed(loaded.edges, loaded.agents, agent.position.value, i);
    var (target, edge) := SuccessorsOf(loaded, agent)[i];
    AgentAtListed(loaded.agents, edge.target);
    assert EdgeStored(db, w, t, edge) && AgentStored(db, w, t, target, parsers);
  }

  lemma ToolAtIs(loaded: RuntimeWorkflow, agent: RuntimeAgent, i: nat)
    requires i < |ToolsOfAgent(loaded, agent)|
    ensures i < |agent.tools| ==> ToolsOfAgent(loaded, agent)[i] == DataTool(agent.tools[i])
    ensures i >= |agent.tools| ==>
      i - |agent.tools| < |SuccessorsOf(loaded, agent)| &&
      ToolsOfAgent(loaded, agent)[i] == TransferTools(SuccessorsOf(loaded, agent))[i - |agent.tools|]
  {
  }

  lemma DataToolsStored(db: Db, w: Id, t: Id, loaded: RuntimeWorkflow, agent: RuntimeAgent, k: Id)
    requires ToolsStored(db, w, t, agent.id, agent.tools) && ToolRowOf(db, w, t, agent.id, k)
    ensures var tools := ToolsOfAgent(loaded, agent);
      exists i :: 0 <= i < |tools| && tools[i].DataTool? && tools[i].tool.id == k
  {
    var i :| 0 <= i < |agent.tools| && agent.tools[i].id == k;
    assert i < |ToolsOfAgent(loaded, agent)|;
    ToolAtIs(loaded, agent, i);
  }

  lemma ToolIsStored(db: Db, w: Id, t: Id, loaded: RuntimeWorkflow, agent: RuntimeAgent, i: nat, parsers: Parsers)
    requires AgentsStored(db, w, t, loaded.agents, parsers) && EdgesStored(db, w, t, loaded.edges)
    requires AgentStored(db, w, t, agent, parsers) && i < |ToolsOfAgent(loaded, agent)|
    ensures match ToolsOfAgent(loaded, agent)[i]
      case DataTool(tool) => ToolStored(db, w, t, agent.id, tool)
      case TransferTool(_, _, _) => TransferStored(db, w, t, agent.id, ToolsOfAgent(loaded, agent)[i])
  {
    ToolAtIs(loaded, agent, i);
    if i >= |agent.tools| {
      TransferIsStored(db, w, t, loaded, agent, i - |agent.tools|, parsers);
    }
  }

  /** The tools an agent is wired with are the stored ones. */
  lemma ToolsOfAgentStored(db: Db, w: Id, t: Id, loaded: RuntimeWorkflow, n: nat, parsers: Parsers)
    requires AgentsStored(db, w, t, loaded.agents, parsers) && EdgesStored(db, w, t, loaded.edges)
    requires RowsOk(db) && w in db.workflows && Shows(loaded, Seen(db, w, t)) && DistinctPositions(loaded.agents)
    requires n < |loaded.agents|
    ensures LiveTools(db, w, t, loaded.agents[n].id, ToolsOfAgent(loaded, loaded.agents[n]))
  {
    var agent := loaded.agents[n];
    assert AgentStored(db, w, t, agent, parsers);
    forall b | StoredStep(db, w, t, agent.id, b) ensures CanTransfer(ToolsOfAgent(loaded, agent), b) {
      StepIsStored(db, w, t, agent.id, b);
      TransferIffStep(loaded, Seen(db, w, t), n, b);
    }
    ToolsLive(db, w, t, loaded, agent, parsers);
  }

  lemma ToolsLive(db: Db, w: Id, t: Id, loaded: RuntimeWorkflow, agent: RuntimeAgent, parsers: Parsers)
    requires AgentsStored(db, w, t, loaded.agents, parsers) && EdgesStored(db, w, t, loaded.edges)
    requires AgentStored(db, w, t, agent, parsers)
    requires forall b :: StoredStep(db, w, t, agent.id, b) ==> CanTransfer(ToolsOfAgent(loaded, agent), b)
    ensures LiveTools(db, w, t, agent.id, ToolsOfAgent(loaded, agent))
  {
    var tools := ToolsOfAgent(loaded, agent);
    forall i | 0 <= i < |tools|
      ensures match tools[i]
        case DataTool(tool) => ToolStored(db, w, t, agent.id, tool)
        case TransferTool(_, _, _) => TransferStored(db, w, t, agent.id, tools[i])
    {
      ToolIsStored(db, w, t, loaded, agent, i, parsers);
    }
    forall k | ToolRowOf(db, w, t, agent.id, k)
      ensures exists i :: 0 <= i < |tools| && tools[i].DataTool? && tools[i].tool.id == k
    {
      DataToolsStored(db, w, t, loaded, agent, k);
    }
  }

  /** A live agent has the settings and tools stored for it. */
  ghost predicate AgentLive(db: Db, w: Id, t: Id, b: Id, agent: VoiceAgent, parsers: Parsers)
    reads agent
  {
    && AgentRowOf(db, w, t, b)
    && Some(agent.settings) == SettingsFrom(ConfigUnder(db, db.agents[b].config), parsers)
    && LiveTools(db, w, t, b, agent.tools)
  }

  /** A live call, by the stored rows: every visible agent is live with its stored settings and tools, and
      from the first speaker chains of transfers lead to exactly the agents that stored edges lead to. */
  ghost predicate Live(
    db: Db, w: Id, t: Id, registry: map<Id, VoiceAgent>, agent: VoiceAgent, a: Id, parsers: Parsers)
    reads registry.Values, agent
  {
    && a in registry && registry[a] == agent
    && (forall b :: AgentRowOf(db, w, t, b) ==> b in registry)
    && (forall b :: b in registry ==> AgentLive(db, w, t, b, registry[b], parsers))
    && (forall b :: b in registry ==> (Leads(registry, agent, registry[b]) <==> StoredReachable(db, w, t, a, b)))
  }

  lemma RegisteredIsLive(
    db: Db, w: Id, t: Id, loaded: RuntimeWorkflow, registry: map<Id, VoiceAgent>, b: Id, parsers: Parsers)
    requires AgentsStored(db, w, t, loaded.agents, parsers) && EdgesStored(db, w, t, loaded.edges)
    requires RowsOk(db) && w in db.workflows && Shows(loaded, Seen(db, w, t)) && DistinctPositions(loaded.agents)
    requires Wired(loaded, registry) && b in registry
    ensures AgentLive(db, w, t, b, registry[b], parsers)
  {
    var i :| 0 <= i < |loaded.agents| && loaded.agents[i].id == b;
    assert AgentStored(db, w, t, loaded.agents[i], parsers);
    ToolsOfAgentStored(db, w, t, loaded, i, parsers);
  }

  lemma WiredIsLive(
    db: Db, w: Id, t: Id, loaded: RuntimeWorkflow, registry: map<Id, VoiceAgent>, a: Id, parsers: Parsers)
    requires RowsOk(db) && w in db.workflows && Shows(loaded, Seen(db, w, t))
    requires Configured(loaded, Seen(db, w, t), parsers) && DistinctPositions(loaded.agents)
    requires Wired(loaded, registry) && a in registry
    ensures Live(db, w, t, registry, registry[a], a, parsers)
  {
    EdgesAreStored(db, w, t, loaded.edges, parsers);
    AgentsAreStored(db, w, t, loaded.agents, parsers);
    forall b | AgentRowOf(db, w, t, b) ensures b in registry {
      var i :| 0 <= i < |loaded.agents| && loaded.agents[i].id == b;
    }
    forall b | b in registry ensures AgentLive(db, w, t, b, registry[b], parsers) {
      RegisteredIsLive(db, w, t, loaded, registry, b, parsers);
    }
    forall b | b in registry
      ensures Leads(registry, registry[a], registry[b]) <==> StoredReachable(db, w, t, a, b)
    {
      HandoffReachability(loaded, Seen(db, w, t), registry, a, b);
      ReachableIsStored(db, w, t, a, b);
    }
  }
}
