/** Loading a clone gives the source's runtime graph, renamed. */
module CloneCommutes {
  import opened Wrappers
  import opened Tables
  import opened Relabelling
  import opened CloneSpec
  import opened CloneProofs
  import opened Runtime

  /** `rows` under new ids; rows without a new id are dropped. */
  ghost function Relabel<R>(ids: map<Id, Id>, rows: map<Id, R>): map<Id, R> {
    map x | x in ids.Values && Origin(ids, x) in rows :: rows[Origin(ids, x)]
  }

  lemma RelabelIs<R>(ids: map<Id, Id>, rows: map<Id, R>, result: map<Id, R>)
    requires rows.Keys <= ids.Keys && result.Keys <= ids.Values
    requires forall a :: a in ids ==> (ids[a] in result <==> a in rows)
    requires forall a :: a in rows ==> result[ids[a]] == rows[a]
    ensures result == Relabel(ids, rows)
  {
    forall x | x in ids.Values
      ensures x in result <==> Origin(ids, x) in rows
      ensures x in result ==> result[x] == rows[Origin(ids, x)]
    {
      assert ids[Origin(ids, x)] == x;
    }
  }

  function RenameTool(tool: RuntimeTool, m: Ids): RuntimeTool {
    tool.(id := Image(m.tools, tool.id), agent := Image(m.agents, tool.agent))
  }

  function RenameEdge(edge: EdgeView, m: Ids): EdgeView {
    edge.(source := Image(m.positions, edge.source), target := Image(m.positions, edge.target))
  }

  ghost function RenameTools(tools: map<Id, RuntimeTool>, m: Ids): map<Id, RuntimeTool> {
    Relabel(m.tools, map k | k in tools :: RenameTool(tools[k], m))
  }

  ghost function RenameAgent(agent: AgentView, m: Ids): AgentView {
    agent.(position := Link(m.positions, agent.position), tools := RenameTools(agent.tools, m))
  }

  ghost function RenameAgents(agents: map<Id, AgentView>, m: Ids): map<Id, AgentView> {
    Relabel(m.agents, map a | a in agents :: RenameAgent(agents[a], m))
  }

  ghost function RenameEdges(edges: map<Id, EdgeView>, m: Ids): map<Id, EdgeView> {
    Relabel(m.edges, map e | e in edges :: RenameEdge(edges[e], m))
  }

  ghost function Rename(view: WorkflowView, m: Ids): WorkflowView {
    WorkflowView(m.workflow, view.name, RenameAgents(view.agents, m), RenameEdges(view.edges, m))
  }

  /** Tenant `t` sees the whole clone. */
  ghost predicate CopiesVisible(t: Id, m: Ids, db': Db) {
    && AgentsVisible(db', m.workflow, t) == m.agents.Values
    && ToolsVisible(db', m.workflow, t) == m.tools.Values
    && EdgesVisible(db', m.workflow, t) == m.edges.Values
  }

  /** What the proofs below need to know about a clone. */
  ghost predicate CloneFacts(db: Db, w: Id, t: Id, m: Ids, db': Db) {
    && HoldsCopies(db, t, m, db')
    && m.agents.Keys == AgentsOf(db, w) && Injective(m.agents)
    && m.tools.Keys == ToolsOf(db, w) && Injective(m.tools)
    && m.edges.Keys == EdgesOf(db, w) && Injective(m.edges)
    && CopiesVisible(t, m, db')
    && ToolsAttached(db, w) && AgentLinksHit(db, w) && ToolLinksHit(db, w)
    && m.positions.Keys == PositionsOf(db, w) && m.configs.Keys == ConfigsOf(db, w)
  }

  lemma CloneHasFacts(db: Db, w: Id, t: Id, m: Ids)
    requires WellFormed(db) && Clones(db, w, t, m)
    ensures CloneFacts(db, w, t, m, Cloned(db, w, t, m))
  {
    ClonedTables(db, w, t, m);
    CloneVisible(db, w, t, m);
  }

  lemma CloneVisible(db: Db, w: Id, t: Id, m: Ids)
    requires WellFormed(db) && Clones(db, w, t, m)
    ensures CopiesVisible(t, m, Cloned(db, w, t, m))
  {
    CloneRows(db, w, t, m);
    CloneIsClosed(db, w, t, m);
    AllVisible(Cloned(db, w, t, m), m.workflow, t);
  }

  lemma AllVisible(db: Db, w: Id, t: Id)
    ensures Carries(db, w, t) <==>
      AgentsVisible(db, w, t) == AgentsOf(db, w) && ToolsVisible(db, w, t) == ToolsOf(db, w) &&
      EdgesVisible(db, w, t) == EdgesOf(db, w)
  {
    forall a | a in AgentsOf(db, w) ensures a in AgentsVisible(db, w, t) <==> db.agents[a].tenant == Some(t) {
    }
    forall k | k in ToolsOf(db, w) ensures k in ToolsVisible(db, w, t) <==> db.tools[k].tenant == Some(t) {
    }
    forall e | e in EdgesOf(db, w) ensures e in EdgesVisible(db, w, t) <==> db.edges[e].tenant == Some(t) {
    }
  }

  lemma AgentConfigCopied(db: Db, w: Id, t: Id, m: Ids, db': Db, a: Id)
    requires RowsOk(db) && RowsOk(db')
    requires CloneFacts(db, w, t, m, db') && a in m.agents
    ensures AgentConfig(db', m.agents[a]) == AgentConfig(db, a)
    ensures AgentPosition(db', m.agents[a]) == Link(m.positions, AgentPosition(db, a))
  {
    AgentConfigIsLinked(db, a);
    AgentConfigIsLinked(db', m.agents[a]);
    AgentPositionIsLinked(db, a);
    AgentPositionIsLinked(db', m.agents[a]);
    var row := db.agents[a];
    assert LinkHits(row.config, m.configs.Keys);
    assert db'.agents[m.agents[a]] == AgentCopy(row, t, m);
  }

  lemma ToolSeenCopied(db: Db, w: Id, t: Id, m: Ids, db': Db, k: Id)
    requires RowsOk(db) && RowsOk(db')
    requires CloneFacts(db, w, t, m, db') && k in m.tools
    ensures ToolSeen(db', m.tools[k]) == RenameTool(ToolSeen(db, k), m)
  {
    ToolConfigIsLinked(db, k);
    ToolConfigIsLinked(db', m.tools[k]);
    var row := db.tools[k];
    assert LinkHits(row.config, m.configs.Keys);
    assert db'.tools[m.tools[k]] == ToolCopy(row, t, m);
  }

  lemma ToolsSeenCopied(db: Db, w: Id, s: Id, t: Id, m: Ids, db': Db, a: Id)
    requires RowsOk(db) && RowsOk(db')
    requires CloneFacts(db, w, t, m, db') && a in m.agents && ToolsVisible(db, w, s) == ToolsOf(db, w)
    ensures ToolsSeen(db', m.workflow, t, m.agents[a]) == RenameTools(ToolsSeen(db, w, s, a), m)
  {
    forall k | k in m.tools ensures ToolSeen(db', m.tools[k]) == RenameTool(ToolSeen(db, k), m) {
      ToolSeenCopied(db, w, t, m, db', k);
    }
    forall k | k in m.tools ensures db.tools[k].agent in m.agents {
    }
    ToolsSeenFrom(db, w, s, t, m, db', a);
  }

  lemma ToolsSeenFrom(db: Db, w: Id, s: Id, t: Id, m: Ids, db': Db, a: Id)
    requires m.tools.Keys == ToolsVisible(db, w, s) && ToolsVisible(db', m.workflow, t) == m.tools.Values
    requires Injective(m.agents) && a in m.agents
    requires forall k :: k in m.tools ==> m.tools[k] in db'.tools && db.tools[k].agent in m.agents
    requires forall k :: k in m.tools ==> ToolSeen(db', m.tools[k]) == RenameTool(ToolSeen(db, k), m)
    ensures ToolsSeen(db', m.workflow, t, m.agents[a]) == RenameTools(ToolsSeen(db, w, s, a), m)
  {
    var seen, seen' := ToolsSeen(db, w, s, a), ToolsSeen(db', m.workflow, t, m.agents[a]);
    forall k | k in m.tools ensures m.tools[k] in seen' <==> k in seen {
      assert m.tools[k] in m.tools.Values;
      assert ToolSeen(db', m.tools[k]).agent == m.agents[db.tools[k].agent];
    }
    RelabelIs(m.tools, map k | k in seen :: RenameTool(seen[k], m), seen');
  }

  lemma AgentSeenCopied(db: Db, w: Id, s: Id, t: Id, m: Ids, db': Db, a: Id)
    requires RowsOk(db) && RowsOk(db')
    requires CloneFacts(db, w, t, m, db') && a in m.agents && ToolsVisible(db, w, s) == ToolsOf(db, w)
    ensures AgentSeen(db', m.workflow, t, m.agents[a]) == RenameAgent(AgentSeen(db, w, s, a), m)
  {
    AgentConfigCopied(db, w, t, m, db', a);
    ToolsSeenCopied(db, w, s, t, m, db', a);
  }

  lemma AgentsSeenCopied(db: Db, w: Id, s: Id, t: Id, m: Ids, db': Db)
    requires RowsOk(db) && RowsOk(db')
    requires CloneFacts(db, w, t, m, db')
    requires AgentsVisible(db, w, s) == AgentsOf(db, w) && ToolsVisible(db, w, s) == ToolsOf(db, w)
    ensures AgentsSeen(db', m.workflow, t) == RenameAgents(AgentsSeen(db, w, s), m)
  {
    forall a | a in m.agents
      ensures AgentSeen(db', m.workflow, t, m.agents[a]) == RenameAgent(AgentSeen(db, w, s, a), m)
    {
      AgentSeenCopied(db, w, s, t, m, db', a);
    }
    AgentsSeenFrom(db, w, s, t, m, db');
  }

  lemma AgentsSeenFrom(db: Db, w: Id, s: Id, t: Id, m: Ids, db': Db)
    requires m.agents.Keys == AgentsVisible(db, w, s) && AgentsVisible(db', m.workflow, t) == m.agents.Values
    requires forall a :: a in m.agents ==>
      && m.agents[a] in db'.agents
      && AgentSeen(db', m.workflow, t, m.agents[a]) == RenameAgent(AgentSeen(db, w, s, a), m)
    ensures AgentsSeen(db', m.workflow, t) == RenameAgents(AgentsSeen(db, w, s), m)
  {
    var seen, seen' := AgentsSeen(db, w, s), AgentsSeen(db', m.workflow, t);
    var renamed := map a | a in seen :: RenameAgent(seen[a], m);
    assert renamed.Keys == seen.Keys == m.agents.Keys;
    forall a | a in m.agents ensures m.agents[a] in seen' && seen'[m.agents[a]] == renamed[a] {
      assert m.agents[a] in m.agents.Values;
    }
    RelabelIs(m.agents, renamed, seen');
  }

  lemma EdgesSeenCopied(db: Db, w: Id, s: Id, t: Id, m: Ids, db': Db)
    requires HoldsCopies(db, t, m, db')
    requires m.edges.Keys == EdgesVisible(db, w, s) && EdgesVisible(db', m.workflow, t) == m.edges.Values
    ensures EdgesSeen(db', m.workflow, t) == RenameEdges(EdgesSeen(db, w, s), m)
  {
    forall e | e in m.edges ensures EdgeSeen(db'.edges[m.edges[e]]) == RenameEdge(EdgeSeen(db.edges[e]), m) {
      assert db'.edges[m.edges[e]] == EdgeCopy(db.edges[e], t, m);
    }
    EdgesSeenFrom(db, w, s, t, m, db');
  }

  lemma EdgesSeenFrom(db: Db, w: Id, s: Id, t: Id, m: Ids, db': Db)
    requires m.edges.Keys == EdgesVisible(db, w, s) && EdgesVisible(db', m.workflow, t) == m.edges.Values
    requires forall e :: e in m.edges ==>
      m.edges[e] in db'.edges && EdgeSeen(db'.edges[m.edges[e]]) == RenameEdge(EdgeSeen(db.edges[e]), m)
    ensures EdgesSeen(db', m.workflow, t) == RenameEdges(EdgesSeen(db, w, s), m)
  {
    var seen, seen' := EdgesSeen(db, w, s), EdgesSeen(db', m.workflow, t);
    var renamed := map e | e in seen :: RenameEdge(seen[e], m);
    assert renamed.Keys == seen.Keys == m.edges.Keys;
    forall e | e in m.edges ensures m.edges[e] in seen' && seen'[m.edges[e]] == renamed[e] {
      assert m.edges[e] in m.edges.Values;
    }
    RelabelIs(m.edges, renamed, seen');
  }

  // If the renamed graphs agree, then no row of the source was hidden from its loader.

  lemma HiddenAgentsShow(db: Db, w: Id, s: Id, t: Id, m: Ids, db': Db)
    requires Injective(m.agents) && m.agents.Keys == AgentsOf(db, w)
    requires AgentsVisible(db', m.workflow, t) == m.agents.Values
    requires AgentsSeen(db', m.workflow, t).Keys == RenameAgents(AgentsSeen(db, w, s), m).Keys
    ensures AgentsVisible(db, w, s) == AgentsOf(db, w)
  {
    forall a | a in AgentsOf(db, w) ensures a in AgentsVisible(db, w, s) {
      assert m.agents[a] in m.agents.Values && Origin(m.agents, m.agents[a]) == a;
      assert m.agents[a] in AgentsSeen(db', m.workflow, t).Keys;
    }
  }

  lemma HiddenEdgesShow(db: Db, w: Id, s: Id, t: Id, m: Ids, db': Db)
    requires Injective(m.edges) && m.edges.Keys == EdgesOf(db, w)
    requires EdgesVisible(db', m.workflow, t) == m.edges.Values
    requires EdgesSeen(db', m.workflow, t).Keys == RenameEdges(EdgesSeen(db, w, s), m).Keys
    ensures EdgesVisible(db, w, s) == EdgesOf(db, w)
  {
    forall e | e in EdgesOf(db, w) ensures e in EdgesVisible(db, w, s) {
      assert m.edges[e] in m.edges.Values && Origin(m.edges, m.edges[e]) == e;
      assert m.edges[e] in EdgesSeen(db', m.workflow, t).Keys;
    }
  }

  lemma AgentToolsAgree(db: Db, w: Id, s: Id, t: Id, m: Ids, db': Db, a: Id)
    requires Injective(m.agents) && a in m.agents && a in AgentsVisible(db, w, s)
    requires m.agents[a] in AgentsVisible(db', m.workflow, t)
    requires AgentsSeen(db', m.workflow, t) == RenameAgents(AgentsSeen(db, w, s), m)
    ensures ToolsSeen(db', m.workflow, t, m.agents[a]) == RenameTools(ToolsSeen(db, w, s, a), m)
  {
    var x := m.agents[a];
    assert x in m.agents.Values && Origin(m.agents, x) == a;
    assert AgentsSeen(db', m.workflow, t)[x] == AgentSeen(db', m.workflow, t, x);
    assert RenameAgents(AgentsSeen(db, w, s), m)[x] == RenameAgent(AgentSeen(db, w, s, a), m);
  }

  lemma HiddenToolShows(db: Db, w: Id, s: Id, t: Id, m: Ids, db': Db, k: Id)
    requires Injective(m.tools) && k in m.tools && k in db.tools && db.tools[k].agent in m.agents
    requires m.tools[k] in ToolsVisible(db', m.workflow, t)
    requires db'.tools[m.tools[k]].agent == m.agents[db.tools[k].agent]
    requires ToolsSeen(db', m.workflow, t, m.agents[db.tools[k].agent]) ==
             RenameTools(ToolsSeen(db, w, s, db.tools[k].agent), m)
    ensures k in ToolsVisible(db, w, s)
  {
    var y := m.tools[k];
    assert y in m.tools.Values && Origin(m.tools, y) == k;
    assert y in ToolsSeen(db', m.workflow, t, m.agents[db.tools[k].agent]);
  }

  lemma HiddenToolsShow(db: Db, w: Id, s: Id, t: Id, m: Ids, db': Db)
    requires CloneFacts(db, w, t, m, db') && AgentsVisible(db, w, s) == AgentsOf(db, w)
    requires AgentsSeen(db', m.workflow, t) == RenameAgents(AgentsSeen(db, w, s), m)
    ensures ToolsVisible(db, w, s) == ToolsOf(db, w)
  {
    forall k | k in ToolsOf(db, w) ensures k in ToolsVisible(db, w, s) {
      var a := db.tools[k].agent;
      assert m.agents[a] in m.agents.Values && m.tools[k] in m.tools.Values;
      AgentToolsAgree(db, w, s, t, m, db', a);
      HiddenToolShows(db, w, s, t, m, db', k);
    }
  }

  /** The main result. Loading the clone as its tenant gives what loading the source as tenant `s`
      gives, renamed, exactly when the source's agents, tools and edges all carry `s`. */
  lemma CloneCommutesWithLoad(db: Db, w: Id, s: Id, t: Id, m: Ids)
    requires WellFormed(db) && Clones(db, w, t, m)
    ensures Seen(Cloned(db, w, t, m), m.workflow, t) == Rename(Seen(db, w, s), m) <==> Carries(db, w, s)
  {
    var db' := Cloned(db, w, t, m);
    CloneHasFacts(db, w, t, m);
    ClonedRowsOk(db, w, t, m);
    AllVisible(db, w, s);
    if Carries(db, w, s) {
      AgentsSeenCopied(db, w, s, t, m, db');
      EdgesSeenCopied(db, w, s, t, m, db');
    }
    if Seen(db', m.workflow, t) == Rename(Seen(db, w, s), m) {
      HiddenAgentsShow(db, w, s, t, m, db');
      HiddenEdgesShow(db, w, s, t, m, db');
      HiddenToolsShow(db, w, s, t, m, db');
    }
  }
}
