/** Loading a workflow from the tables into plain lists. */
module Loader {
  import opened Wrappers
  import opened Tables
  import opened Session
  import opened Runtime
  import StoredGraph

  datatype LoadError = TenantRequired | WorkflowNotFound | SettingNotANumber

  method ConfigOfAgent(session: Session, a: Id) returns (config: Dict)
    requires a in session.agents
    ensures RowsOk(session.Contents()) ==> config == AgentConfig(session.Contents(), a)
  {
    if RowsOk(session.Contents()) { AgentConfigIsLinked(session.Contents(), a); }
    if c :| c in session.configs && session.configs[c].agent == Some(a) {
      assert RowsOk(session.Contents()) ==> ConfigOk(session.Contents(), c);
      return session.configs[c].config;
    }
    config := map[];
  }

  method ConfigOfTool(session: Session, k: Id) returns (config: Dict)
    requires k in session.tools
    ensures RowsOk(session.Contents()) ==> config == ToolConfig(session.Contents(), k)
  {
    if RowsOk(session.Contents()) { ToolConfigIsLinked(session.Contents(), k); }
    if c :| c in session.configs && session.configs[c].tool == Some(k) {
      assert RowsOk(session.Contents()) ==> ConfigOk(session.Contents(), c);
      return session.configs[c].config;
    }
    config := map[];
  }

  method PositionOfAgent(session: Session, a: Id) returns (position: Option<Id>)
    requires a in session.agents
    ensures RowsOk(session.Contents()) ==> position == AgentPosition(session.Contents(), a)
  {
    if RowsOk(session.Contents()) { AgentPositionIsLinked(session.Contents(), a); }
    if p :| p in session.positions && session.positions[p].agent == Some(a) {
      assert RowsOk(session.Contents()) ==> PositionOk(session.Contents(), p);
      return Some(p);
    }
    position := None;
  }

  function ToolsAt(byAgent: map<Id, seq<RuntimeTool>>, a: Id): seq<RuntimeTool> {
    if a in byAgent then byAgent[a] else []
  }

  /** The tools among `done` that belong to agent `a`. */
  ghost function SeenAmong(db: Db, done: set<Id>, a: Id): map<Id, RuntimeTool> {
    map k | k in done && k in db.tools && db.tools[k].agent == a :: ToolSeen(db, k)
  }

  ghost predicate Grouped(db: Db, byAgent: map<Id, seq<RuntimeTool>>, done: set<Id>) {
    forall a {:trigger ToolsAt(byAgent, a)} :: ListsTools(ToolsAt(byAgent, a), SeenAmong(db, done, a))
  }

  lemma AppendTool(tools: seq<RuntimeTool>, view: map<Id, RuntimeTool>, tool: RuntimeTool)
    requires ListsTools(tools, view) && tool.id !in view
    ensures ListsTools(tools + [tool], view[tool.id := tool])
  {
    var more, view' := tools + [tool], view[tool.id := tool];
    forall k | k in view' ensures view'[k] in more {
      assert more[|tools|] == tool;
      if k != tool.id {
        assert view[k] in tools;
      }
    }
  }

  lemma GroupOneMore(db: Db, byAgent: map<Id, seq<RuntimeTool>>, done: set<Id>, k: Id)
    requires Grouped(db, byAgent, done) && k in db.tools && k !in done
    ensures var a := db.tools[k].agent;
      Grouped(db, byAgent[a := ToolsAt(byAgent, a) + [ToolSeen(db, k)]], done + {k})
  {
    var a := db.tools[k].agent;
    var more := byAgent[a := ToolsAt(byAgent, a) + [ToolSeen(db, k)]];
    forall b ensures ListsTools(ToolsAt(more, b), SeenAmong(db, done + {k}, b)) {
      assert ListsTools(ToolsAt(byAgent, b), SeenAmong(db, done, b));
      if b == a {
        AppendTool(ToolsAt(byAgent, a), SeenAmong(db, done, a), ToolSeen(db, k));
        assert SeenAmong(db, done + {k}, a) == SeenAmong(db, done, a)[k := ToolSeen(db, k)];
      } else {
        assert SeenAmong(db, done + {k}, b) == SeenAmong(db, done, b);
      }
    }
  }

  method GroupTools(session: Session, w: Id, t: Id) returns (byAgent: map<Id, seq<RuntimeTool>>)
    ensures RowsOk(session.Contents()) ==>
      Grouped(session.Contents(), byAgent, ToolsVisible(session.Contents(), w, t))
  {
    ghost var db := session.Contents();
    var tools := ToolsVisible(session.Contents(), w, t);
    byAgent := map[];
    var todo := tools;
    assert Grouped(db, byAgent, tools - todo);
    while todo != {}
      invariant todo <= tools && session.Contents() == db
      invariant RowsOk(db) ==> Grouped(db, byAgent, tools - todo)
      decreases todo
    {
      var k :| k in todo;
      var row := session.tools[k];
      var config := ConfigOfTool(session, k);
      var tool := RuntimeTool(k, row.name, row.httpMethod, row.agent, config);
      if RowsOk(db) {
        GroupOneMore(db, byAgent, tools - todo, k);
        assert (tools - todo) + {k} == tools - (todo - {k});
      }
      byAgent := byAgent[row.agent := ToolsAt(byAgent, row.agent) + [tool]];
      todo := todo - {k};
    }
    assert tools - todo == tools;
  }

  ghost function AgentsAmong(db: Db, w: Id, t: Id, done: set<Id>): map<Id, AgentView> {
    map a | a in done && a in db.agents :: AgentSeen(db, w, t, a)
  }

  lemma AppendAgent(agents: seq<RuntimeAgent>, view: map<Id, AgentView>, agent: RuntimeAgent, seen: AgentView)
    requires ListsAgents(agents, view) && agent.id !in view && ShowsAgent(agent, seen)
    ensures ListsAgents(agents + [agent], view[agent.id := seen])
  {
    var more, view' := agents + [agent], view[agent.id := seen];
    forall a | a in view' ensures exists i :: 0 <= i < |more| && more[i].id == a {
      if a == agent.id {
        assert more[|agents|].id == a;
      } else {
        var i :| 0 <= i < |agents| && agents[i].id == a;
        assert more[i].id == a;
      }
    }
  }

  lemma ListOneMore(db: Db, w: Id, t: Id, agents: seq<RuntimeAgent>, done: set<Id>, agent: RuntimeAgent)
    requires ListsAgents(agents, AgentsAmong(db, w, t, done))
    requires agent.id in db.agents && agent.id !in done && ShowsAgent(agent, AgentSeen(db, w, t, agent.id))
    ensures ListsAgents(agents + [agent], AgentsAmong(db, w, t, done + {agent.id}))
  {
    var a := agent.id;
    AppendAgent(agents, AgentsAmong(db, w, t, done), agent, AgentSeen(db, w, t, a));
    assert AgentsAmong(db, w, t, done + {a}) == AgentsAmong(db, w, t, done)[a := AgentSeen(db, w, t, a)];
  }

  /** One agent; None if one of its settings cannot be cast. */
  method LoadAgent(
    session: Session, ghost w: Id, ghost t: Id, byAgent: map<Id, seq<RuntimeTool>>, a: Id, parsers: Parsers)
    returns (agent: Option<RuntimeAgent>)
    requires a in session.agents
    requires RowsOk(session.Contents()) ==>
      Grouped(session.Contents(), byAgent, ToolsVisible(session.Contents(), w, t))
    ensures agent.Some? ==>
      && agent.value.id == a && agent.value.name == session.agents[a].name
      && agent.value.isInitial == (session.agents[a].isInitial == Some(true))
    ensures RowsOk(session.Contents()) ==>
      var seen := AgentSeen(session.Contents(), w, t, a);
      && (agent.Some? <==> SettingsFrom(seen.config, parsers).Some?)
      && (agent.Some? ==>
            ShowsAgent(agent.value, seen) && Some(agent.value.settings) == SettingsFrom(seen.config, parsers))
  {
    var row := session.agents[a];
    var config := ConfigOfAgent(session, a);
    var position := PositionOfAgent(session, a);
    ghost var db := session.Contents();
    assert SeenAmong(db, ToolsVisible(db, w, t), a) == ToolsSeen(db, w, t, a);
    var settings := SettingsFrom(config, parsers);
    if settings.None? {
      return None;
    }
    var tools := ToolsAt(byAgent, a);
    agent := Some(RuntimeAgent(a, row.name, row.isInitial == Some(true), settings.value, position, tools));
  }

  /** Each of the rows in `done` is listed once, with its name and flag. */
  ghost predicate ListsRows(agents: seq<RuntimeAgent>, rows: map<Id, AgentRow>, done: set<Id>) {
    && (forall i, j :: 0 <= i < j < |agents| ==> agents[i].id != agents[j].id)
    && (forall i :: 0 <= i < |agents| ==>
          && agents[i].id in done && agents[i].id in rows
          && agents[i].name == rows[agents[i].id].name
          && agents[i].isInitial == (rows[agents[i].id].isInitial == Some(true)))
    && (forall a :: a in done ==> exists i :: 0 <= i < |agents| && agents[i].id == a)
  }

  lemma RowOneMore(agents: seq<RuntimeAgent>, rows: map<Id, AgentRow>, done: set<Id>, agent: RuntimeAgent)
    requires ListsRows(agents, rows, done) && agent.id !in done && agent.id in rows
    requires agent.name == rows[agent.id].name && agent.isInitial == (rows[agent.id].isInitial == Some(true))
    ensures ListsRows(agents + [agent], rows, done + {agent.id})
  {
    var more := agents + [agent];
    forall a | a in done + {agent.id} ensures exists i :: 0 <= i < |more| && more[i].id == a {
      if a == agent.id {
        assert more[|agents|].id == a;
      } else {
        var i :| 0 <= i < |agents| && agents[i].id == a;
        assert more[i].id == a;
      }
    }
  }

  lemma ConfiguredMore(
    agents: seq<RuntimeAgent>, view: map<Id, AgentView>, agent: RuntimeAgent, seen: AgentView, parsers: Parsers)
    requires ConfiguredAgents(agents, view, parsers) && CastableAgents(view, parsers)
    requires agent.id !in view && Some(agent.settings) == SettingsFrom(seen.config, parsers)
    ensures ConfiguredAgents(agents + [agent], view[agent.id := seen], parsers)
    ensures CastableAgents(view[agent.id := seen], parsers)
  {
  }

  lemma ConfiguredOneMore(
    db: Db, w: Id, t: Id, agents: seq<RuntimeAgent>, done: set<Id>, agent: RuntimeAgent, parsers: Parsers)
    requires ConfiguredAgents(agents, AgentsAmong(db, w, t, done), parsers)
    requires CastableAgents(AgentsAmong(db, w, t, done), parsers)
    requires agent.id in db.agents && agent.id !in done
    requires Some(agent.settings) == SettingsFrom(AgentSeen(db, w, t, agent.id).config, parsers)
    ensures ConfiguredAgents(agents + [agent], AgentsAmong(db, w, t, done + {agent.id}), parsers)
    ensures CastableAgents(AgentsAmong(db, w, t, done + {agent.id}), parsers)
  {
    var seen := AgentSeen(db, w, t, agent.id);
    ConfiguredMore(agents, AgentsAmong(db, w, t, done), agent, seen, parsers);
    assert AgentsAmong(db, w, t, done + {agent.id}) == AgentsAmong(db, w, t, done)[agent.id := seen];
  }

  method ListAgents(session: Session, w: Id, t: Id, byAgent: map<Id, seq<RuntimeTool>>, parsers: Parsers)
    returns (r: Option<seq<RuntimeAgent>>)
    requires RowsOk(session.Contents()) ==>
      Grouped(session.Contents(), byAgent, ToolsVisible(session.Contents(), w, t))
    ensures r.Some? ==> ListsRows(r.value, session.agents, AgentsVisible(session.Contents(), w, t))
    ensures RowsOk(session.Contents()) ==>
      var seen := AgentsSeen(session.Contents(), w, t);
      && (r.Some? <==> CastableAgents(seen, parsers))
      && (r.Some? ==> ListsAgents(r.value, seen) && ConfiguredAgents(r.value, seen, parsers))
  {
    ghost var db := session.Contents();
    var all := AgentsVisible(session.Contents(), w, t);
    var agents: seq<RuntimeAgent> := [];
    var todo := all;
    while todo != {}
      invariant todo <= all && session.Contents() == db
      invariant ListsRows(agents, db.agents, all - todo)
      invariant RowsOk(db) ==>
        var among := AgentsAmong(db, w, t, all - todo);
        ListsAgents(agents, among) && ConfiguredAgents(agents, among, parsers) && CastableAgents(among, parsers)
      decreases todo
    {
      var a :| a in todo;
      var agent := LoadAgent(session, w, t, byAgent, a, parsers);
      if agent.None? {
        assert AgentsSeen(db, w, t)[a] == AgentSeen(db, w, t, a);
        return None;
      }
      if RowsOk(db) {
        ListOneMore(db, w, t, agents, all - todo, agent.value);
        ConfiguredOneMore(db, w, t, agents, all - todo, agent.value, parsers);
      }
      RowOneMore(agents, db.agents, all - todo, agent.value);
      assert (all - todo) + {a} == all - (todo - {a});
      agents := agents + [agent.value];
      todo := todo - {a};
    }
    assert all - todo == all;
    assert AgentsAmong(db, w, t, all) == AgentsSeen(db, w, t);
    r := Some(agents);
  }

  ghost function EdgesAmong(db: Db, done: set<Id>): map<Id, EdgeView> {
    map e | e in done && e in db.edges :: EdgeSeen(db.edges[e])
  }

  lemma AppendEdge(
    edges: seq<RuntimeEdge>, view: map<Id, EdgeView>, edge: RuntimeEdge, seen: EdgeView, parsers: Parsers)
    requires ListsEdges(edges, view) && ConfiguredEdges(edges, view, parsers) && CastableEdges(view, parsers)
    requires edge.id !in view && Some(edge) == EdgeFrom(edge.id, seen, parsers)
    ensures ListsEdges(edges + [edge], view[edge.id := seen])
    ensures ConfiguredEdges(edges + [edge], view[edge.id := seen], parsers)
    ensures CastableEdges(view[edge.id := seen], parsers)
  {
    var more, view' := edges + [edge], view[edge.id := seen];
    forall x | x in view' ensures exists i :: 0 <= i < |more| && more[i].id == x {
      if x == edge.id {
        assert more[|edges|].id == x;
      } else {
        var i :| 0 <= i < |edges| && edges[i].id == x;
        assert more[i].id == x;
      }
    }
  }

  method ListEdges(session: Session, w: Id, t: Id, parsers: Parsers) returns (r: Option<seq<RuntimeEdge>>)
    ensures var seen := EdgesSeen(session.Contents(), w, t);
      && (r.Some? <==> CastableEdges(seen, parsers))
      && (r.Some? ==> ListsEdges(r.value, seen) && ConfiguredEdges(r.value, seen, parsers))
  {
    ghost var db := session.Contents();
    var all := EdgesVisible(session.Contents(), w, t);
    var edges: seq<RuntimeEdge> := [];
    var todo := all;
    while todo != {}
      invariant todo <= all && session.Contents() == db
      invariant ListsEdges(edges, EdgesAmong(db, all - todo))
      invariant ConfiguredEdges(edges, EdgesAmong(db, all - todo), parsers)
      invariant CastableEdges(EdgesAmong(db, all - todo), parsers)
      decreases todo
    {
      var e :| e in todo;
      var seen := EdgeSeen(session.edges[e]);
      var edge := EdgeFrom(e, seen, parsers);
      if edge.None? {
        assert EdgesSeen(db, w, t)[e] == seen;
        return None;
      }
      AppendEdge(edges, EdgesAmong(db, all - todo), edge.value, seen, parsers);
      assert EdgesAmong(db, all - (todo - {e})) == EdgesAmong(db, all - todo)[e := seen];
      edges := edges + [edge.value];
      todo := todo - {e};
    }
    assert EdgesAmong(db, all - todo) == EdgesSeen(db, w, t);
    r := Some(edges);
  }

  /** Loads workflow `w` for the tenant in the context, which there must be. A workflow of another
      tenant is as good as missing, and one setting that cannot be cast makes the whole load fail. */
  method Load(session: Session, w: Id, tenant: Option<Id>, parsers: Parsers)
    returns (r: Result<RuntimeWorkflow, LoadError>)
    ensures r == Failure(TenantRequired) <==> tenant.None?
    ensures r == Failure(WorkflowNotFound) <==>
      tenant.Some? && !(w in session.workflows && session.workflows[w].tenant == tenant.value)
    ensures r.Success? ==>
      && r.value.id == w && r.value.name == session.workflows[w].name
      && ListsRows(r.value.agents, session.agents, AgentsVisible(session.Contents(), w, tenant.value))
      && ListsEdges(r.value.edges, EdgesSeen(session.Contents(), w, tenant.value))
    ensures r.Success? ==> StoredGraph.EdgesStored(session.Contents(), w, tenant.value, r.value.edges)
    ensures r.Success? && RowsOk(session.Contents()) ==>
      StoredGraph.AgentsStored(session.Contents(), w, tenant.value, r.value.agents, parsers)
    ensures RowsOk(session.Contents()) ==>
      (r.Success? <==>
         && tenant.Some? && w in session.workflows && session.workflows[w].tenant == tenant.value
         && Castable(Seen(session.Contents(), w, tenant.value), parsers))
    ensures r.Success? && RowsOk(session.Contents()) ==>
      Shows(r.value, Seen(session.Contents(), w, tenant.value)) &&
      Configured(r.value, Seen(session.Contents(), w, tenant.value), parsers)
  {
    if tenant.None? {
      return Failure(TenantRequired);
    }
    var t := tenant.value;
    if w !in session.workflows || session.workflows[w].tenant != t {
      return Failure(WorkflowNotFound);
    }
    var byAgent := GroupTools(session, w, t);
    var agents := ListAgents(session, w, t, byAgent, parsers);
    if agents.None? {
      return Failure(SettingNotANumber);
    }
    var edges := ListEdges(session, w, t, parsers);
    if edges.None? {
      return Failure(SettingNotANumber);
    }
    StoredGraph.EdgesAreStored(session.Contents(), w, t, edges.value, parsers);
    if RowsOk(session.Contents()) { StoredGraph.AgentsAreStored(session.Contents(), w, t, agents.value, parsers); }
    r := Success(RuntimeWorkflow(w, session.workflows[w].name, agents.value, edges.value));
  }
}
