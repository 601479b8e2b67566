/** What a successful clone preserves. */
module CloneProofs {
  import opened Wrappers
  import opened Tables
  import opened Relabelling
  import opened CloneSpec

  /** A clone that the source's checks let through. */
  ghost predicate Clones(db: Db, w: Id, t: Id, m: Ids) {
    Outcome(db, w, t) == None && Fresh(db, w, m)
  }

  /** No earlier row changes, every copy is under its id, and there is nothing else. */
  lemma ClonedTables(db: Db, w: Id, t: Id, m: Ids)
    requires w in db.workflows && Fresh(db, w, m)
    ensures Extends(db, Cloned(db, w, t, m)) && HoldsCopies(db, t, m, Cloned(db, w, t, m))
    ensures NothingElse(db, m, Cloned(db, w, t, m))
  {
    AgentTable(db, w, t, m);
    ToolTable(db, w, t, m);
    PositionTable(db, w, t, m);
    ConfigTable(db, w, t, m);
    EdgeTable(db, w, t, m);
    assert Within(db.workflows, Cloned(db, w, t, m).workflows);
  }

  lemma AgentTable(db: Db, w: Id, t: Id, m: Ids)
    requires w in db.workflows && Fresh(db, w, m)
    ensures var table := Cloned(db, w, t, m).agents;
      && Within(db.agents, table) && table.Keys == db.agents.Keys + m.agents.Values && m.agents.Keys <= db.agents.Keys
      && forall x :: x in m.agents ==> m.agents[x] in table && table[m.agents[x]] == AgentCopy(db.agents[x], t, m)
  {
    GrowContents(db.agents, m.agents, AgentCopies(db, w, t, m));
  }

  lemma ToolTable(db: Db, w: Id, t: Id, m: Ids)
    requires w in db.workflows && Fresh(db, w, m)
    ensures var table := Cloned(db, w, t, m).tools;
      && Within(db.tools, table) && table.Keys == db.tools.Keys + m.tools.Values && m.tools.Keys <= db.tools.Keys
      && forall x :: x in m.tools ==> m.tools[x] in table && table[m.tools[x]] == ToolCopy(db.tools[x], t, m)
  {
    GrowContents(db.tools, m.tools, ToolCopies(db, w, t, m));
  }

  lemma PositionTable(db: Db, w: Id, t: Id, m: Ids)
    requires w in db.workflows && Fresh(db, w, m)
    ensures var table := Cloned(db, w, t, m).positions;
      && Within(db.positions, table) && table.Keys == db.positions.Keys + m.positions.Values
      && m.positions.Keys <= db.positions.Keys
      && forall x :: x in m.positions ==>
        m.positions[x] in table && table[m.positions[x]] == PositionCopy(db.positions[x], t, m)
  {
    GrowContents(db.positions, m.positions, PositionCopies(db, w, t, m));
  }

  lemma ConfigTable(db: Db, w: Id, t: Id, m: Ids)
    requires w in db.workflows && Fresh(db, w, m)
    ensures var table := Cloned(db, w, t, m).configs;
      && Within(db.configs, table) && table.Keys == db.configs.Keys + m.configs.Values
      && m.configs.Keys <= db.configs.Keys
      && forall x :: x in m.configs ==> m.configs[x] in table && table[m.configs[x]] == ConfigCopy(db.configs[x], t, m)
  {
    GrowContents(db.configs, m.configs, ConfigCopies(db, w, t, m));
  }

  lemma EdgeTable(db: Db, w: Id, t: Id, m: Ids)
    requires w in db.workflows && Fresh(db, w, m)
    ensures var table := Cloned(db, w, t, m).edges;
      && Within(db.edges, table) && table.Keys == db.edges.Keys + m.edges.Values && m.edges.Keys <= db.edges.Keys
      && forall x :: x in m.edges ==> m.edges[x] in table && table[m.edges[x]] == EdgeCopy(db.edges[x], t, m)
  {
    GrowContents(db.edges, m.edges, EdgeCopies(db, w, t, m));
  }

  /** The copies are all the clone holds: its rows are exactly the images of the source's rows. */
  lemma CloneRows(db: Db, w: Id, t: Id, m: Ids)
    requires WellFormed(db) && Clones(db, w, t, m)
    ensures var db' := Cloned(db, w, t, m); var n := m.workflow;
      && AgentsOf(db', n) == m.agents.Values
      && ToolsOf(db', n) == m.tools.Values
      && PositionsOf(db', n) == m.positions.Values
      && ConfigsOf(db', n) == m.configs.Values
      && EdgesOf(db', n) == m.edges.Values
  {
    ClonedTables(db, w, t, m);
    var db' := Cloned(db, w, t, m);
    NoRowsOf(db, m.workflow);
    AgentRows(db, t, m, db');
    ToolRows(db, t, m, db');
    PositionRows(db, t, m, db');
    ConfigRows(db, t, m, db');
    EdgeRows(db, t, m, db');
  }

  /** Before the clone no row belongs to a workflow that does not exist. */
  lemma NoRowsOf(db: Db, n: Id)
    requires RowsOk(db) && n !in db.workflows
    ensures AgentsOf(db, n) == {} && ToolsOf(db, n) == {} && PositionsOf(db, n) == {}
    ensures ConfigsOf(db, n) == {} && EdgesOf(db, n) == {}
  {
    forall a | a in db.agents ensures db.agents[a].workflow != n { assert AgentOk(db, a); }
    forall k | k in db.tools ensures db.tools[k].workflow != n { assert ToolOk(db, k); }
    forall p | p in db.positions ensures db.positions[p].workflow != n { assert PositionOk(db, p); }
    forall c | c in db.configs ensures db.configs[c].workflow != n { assert ConfigOk(db, c); }
    forall e | e in db.edges ensures db.edges[e].workflow != n { assert EdgeOk(db, e); }
  }

  lemma AgentRows(db: Db, t: Id, m: Ids, db': Db)
    requires HoldsCopies(db, t, m, db') && NothingElse(db, m, db') && Within(db.agents, db'.agents)
    requires AgentsOf(db, m.workflow) == {}
    ensures AgentsOf(db', m.workflow) == m.agents.Values
  {
    forall x | x in m.agents.Values ensures x in AgentsOf(db', m.workflow) {
      assert db'.agents[m.agents[Origin(m.agents, x)]].workflow == m.workflow;
    }
    forall x | x in AgentsOf(db', m.workflow) ensures x in m.agents.Values {
      assert x in db.agents ==> x in AgentsOf(db, m.workflow);
    }
  }

  lemma ToolRows(db: Db, t: Id, m: Ids, db': Db)
    requires HoldsCopies(db, t, m, db') && NothingElse(db, m, db') && Within(db.tools, db'.tools)
    requires ToolsOf(db, m.workflow) == {}
    ensures ToolsOf(db', m.workflow) == m.tools.Values
  {
    forall x | x in m.tools.Values ensures x in ToolsOf(db', m.workflow) {
      assert db'.tools[m.tools[Origin(m.tools, x)]].workflow == m.workflow;
    }
    forall x | x in ToolsOf(db', m.workflow) ensures x in m.tools.Values {
      assert x in db.tools ==> x in ToolsOf(db, m.workflow);
    }
  }

  lemma PositionRows(db: Db, t: Id, m: Ids, db': Db)
    requires HoldsCopies(db, t, m, db') && NothingElse(db, m, db') && Within(db.positions, db'.positions)
    requires PositionsOf(db, m.workflow) == {}
    ensures PositionsOf(db', m.workflow) == m.positions.Values
  {
    forall x | x in m.positions.Values ensures x in PositionsOf(db', m.workflow) {
      assert db'.positions[m.positions[Origin(m.positions, x)]].workflow == m.workflow;
    }
    forall x | x in PositionsOf(db', m.workflow) ensures x in m.positions.Values {
      assert x in db.positions ==> x in PositionsOf(db, m.workflow);
    }
  }

  lemma ConfigRows(db: Db, t: Id, m: Ids, db': Db)
    requires HoldsCopies(db, t, m, db') && NothingElse(db, m, db') && Within(db.configs, db'.configs)
    requires ConfigsOf(db, m.workflow) == {}
    ensures ConfigsOf(db', m.workflow) == m.configs.Values
  {
    forall x | x in m.configs.Values ensures x in ConfigsOf(db', m.workflow) {
      assert db'.configs[m.configs[Origin(m.configs, x)]].workflow == m.workflow;
    }
    forall x | x in ConfigsOf(db', m.workflow) ensures x in m.configs.Values {
      assert x in db.configs ==> x in ConfigsOf(db, m.workflow);
    }
  }

  lemma EdgeRows(db: Db, t: Id, m: Ids, db': Db)
    requires HoldsCopies(db, t, m, db') && NothingElse(db, m, db') && Within(db.edges, db'.edges)
    requires EdgesOf(db, m.workflow) == {}
    ensures EdgesOf(db', m.workflow) == m.edges.Values
  {
    forall x | x in m.edges.Values ensures x in EdgesOf(db', m.workflow) {
      assert db'.edges[m.edges[Origin(m.edges, x)]].workflow == m.workflow;
    }
    forall x | x in EdgesOf(db', m.workflow) ensures x in m.edges.Values {
      assert x in db.edges ==> x in EdgesOf(db, m.workflow);
    }
  }

  /** Consistency of a row depends only on other rows being there, so adding rows keeps it. */
  lemma OldRowsOk(db: Db, db': Db)
    requires RowsOk(db) && Extends(db, db')
    ensures forall a :: a in db.agents ==> AgentOk(db', a)
    ensures forall k :: k in db.tools ==> ToolOk(db', k)
    ensures forall p :: p in db.positions ==> PositionOk(db', p)
    ensures forall c :: c in db.configs ==> ConfigOk(db', c)
    ensures forall e :: e in db.edges ==> EdgeOk(db', e)
  {
    forall a | a in db.agents ensures AgentOk(db', a) { assert AgentOk(db, a); }
    forall k | k in db.tools ensures ToolOk(db', k) { assert ToolOk(db, k); }
    forall p | p in db.positions ensures PositionOk(db', p) { assert PositionOk(db, p); }
    forall c | c in db.configs ensures ConfigOk(db', c) { assert ConfigOk(db, c); }
    forall e | e in db.edges ensures EdgeOk(db', e) { assert EdgeOk(db, e); }
  }

  /** The new rows of `db'` are the copies, each under its minted id. */
  ghost predicate HoldsCopies(db: Db, t: Id, m: Ids, db': Db)
  {
    && m.workflow in db'.workflows
    && m.agents.Keys <= db.agents.Keys && m.tools.Keys <= db.tools.Keys
    && m.positions.Keys <= db.positions.Keys && m.configs.Keys <= db.configs.Keys && m.edges.Keys <= db.edges.Keys
    && (forall a :: a in m.agents ==>
          m.agents[a] in db'.agents && db'.agents[m.agents[a]] == AgentCopy(db.agents[a], t, m))
    && (forall k :: k in m.tools ==>
          m.tools[k] in db'.tools && db'.tools[m.tools[k]] == ToolCopy(db.tools[k], t, m))
    && (forall p :: p in m.positions ==>
          m.positions[p] in db'.positions && db'.positions[m.positions[p]] == PositionCopy(db.positions[p], t, m))
    && (forall c :: c in m.configs ==>
          m.configs[c] in db'.configs && db'.configs[m.configs[c]] == ConfigCopy(db.configs[c], t, m))
    && (forall e :: e in m.edges ==>
          m.edges[e] in db'.edges && db'.edges[m.edges[e]] == EdgeCopy(db.edges[e], t, m))
  }

  // Each copy is as consistent in the result as its original was in the source.

  lemma AgentCopyOk(db: Db, t: Id, m: Ids, db': Db, a: Id)
    requires HoldsCopies(db, t, m, db') && a in m.agents && AgentOk(db, a)
    requires LinkHits(db.agents[a].position, m.positions.Keys) && LinkHits(db.agents[a].config, m.configs.Keys)
    ensures AgentOk(db', m.agents[a])
  {
    var row := db.agents[a];
    if row.position.Some? { assert row.position.value in m.positions; }
    if row.config.Some? { assert row.config.value in m.configs; }
  }

  lemma ToolCopyOk(db: Db, t: Id, m: Ids, db': Db, k: Id)
    requires HoldsCopies(db, t, m, db') && k in m.tools && ToolOk(db, k) && db.tools[k].agent in m.agents
    requires LinkHits(db.tools[k].position, m.positions.Keys) && LinkHits(db.tools[k].config, m.configs.Keys)
    ensures ToolOk(db', m.tools[k])
  {
    var row := db.tools[k];
    if row.position.Some? { assert row.position.value in m.positions; }
    if row.config.Some? { assert row.config.value in m.configs; }
  }

  lemma PositionCopyOk(db: Db, t: Id, m: Ids, db': Db, p: Id)
    requires HoldsCopies(db, t, m, db') && p in m.positions && PositionOk(db, p)
    requires LinkHits(db.positions[p].agent, m.agents.Keys) && LinkHits(db.positions[p].tool, m.tools.Keys)
    ensures PositionOk(db', m.positions[p])
  {
    var row := db.positions[p];
    if row.agent.Some? { assert row.agent.value in m.agents; } else { assert row.tool.value in m.tools; }
  }

  lemma ConfigCopyOk(db: Db, t: Id, m: Ids, db': Db, c: Id)
    requires HoldsCopies(db, t, m, db') && c in m.configs && ConfigOk(db, c)
    requires LinkHits(db.configs[c].agent, m.agents.Keys) && LinkHits(db.configs[c].tool, m.tools.Keys)
    ensures ConfigOk(db', m.configs[c])
  {
    var row := db.configs[c];
    if row.agent.Some? { assert row.agent.value in m.agents; } else { assert row.tool.value in m.tools; }
  }

  lemma EdgeCopyOk(db: Db, t: Id, m: Ids, db': Db, e: Id)
    requires HoldsCopies(db, t, m, db') && e in m.edges
    requires db.edges[e].source in m.positions && db.edges[e].target in m.positions
    ensures EdgeOk(db', m.edges[e])
  {
  }

  // The source rows satisfy what those lemmas ask for.

  lemma OwnersHit(db: Db, w: Id, t: Id, m: Ids)
    requires RowsOk(db) && Clones(db, w, t, m)
    ensures forall p :: p in m.positions ==>
      LinkHits(db.positions[p].agent, m.agents.Keys) && LinkHits(db.positions[p].tool, m.tools.Keys)
    ensures forall c :: c in m.configs ==>
      LinkHits(db.configs[c].agent, m.agents.Keys) && LinkHits(db.configs[c].tool, m.tools.Keys)
  {
    forall p | p in m.positions
      ensures LinkHits(db.positions[p].agent, m.agents.Keys) && LinkHits(db.positions[p].tool, m.tools.Keys)
    {
      assert PositionOk(db, p);
    }
    forall c | c in m.configs
      ensures LinkHits(db.configs[c].agent, m.agents.Keys) && LinkHits(db.configs[c].tool, m.tools.Keys)
    {
      assert ConfigOk(db, c);
    }
  }

  lemma NodeCopiesOk(db: Db, w: Id, t: Id, m: Ids, db': Db)
    requires RowsOk(db) && Clones(db, w, t, m) && HoldsCopies(db, t, m, db')
    ensures forall a :: a in m.agents ==> AgentOk(db', m.agents[a])
    ensures forall k :: k in m.tools ==> ToolOk(db', m.tools[k])
  {
    forall a | a in m.agents ensures AgentOk(db', m.agents[a]) { AgentCopyOk(db, t, m, db', a); }
    forall k | k in m.tools ensures ToolOk(db', m.tools[k]) { ToolCopyOk(db, t, m, db', k); }
  }

  lemma AttachedCopiesOk(db: Db, w: Id, t: Id, m: Ids, db': Db)
    requires RowsOk(db) && Clones(db, w, t, m) && HoldsCopies(db, t, m, db')
    ensures forall p :: p in m.positions ==> PositionOk(db', m.positions[p])
    ensures forall c :: c in m.configs ==> ConfigOk(db', m.configs[c])
    ensures forall e :: e in m.edges ==> EdgeOk(db', m.edges[e])
  {
    OwnersHit(db, w, t, m);
    forall p | p in m.positions ensures PositionOk(db', m.positions[p]) { PositionCopyOk(db, t, m, db', p); }
    forall c | c in m.configs ensures ConfigOk(db', m.configs[c]) { ConfigCopyOk(db, t, m, db', c); }
    forall e | e in m.edges ensures EdgeOk(db', m.edges[e]) { EdgeCopyOk(db, t, m, db', e); }
  }

  /** Every row of the result is an old row or a copy. */
  ghost predicate NothingElse(db: Db, m: Ids, db': Db) {
    && (forall a :: a in db'.agents ==> a in db.agents || a in m.agents.Values)
    && (forall k :: k in db'.tools ==> k in db.tools || k in m.tools.Values)
    && (forall p :: p in db'.positions ==> p in db.positions || p in m.positions.Values)
    && (forall c :: c in db'.configs ==> c in db.configs || c in m.configs.Values)
    && (forall e :: e in db'.edges ==> e in db.edges || e in m.edges.Values)
  }

  lemma ClonedNamesUnique(db: Db, w: Id, t: Id, m: Ids, db': Db)
    requires Within(db.agents, db'.agents) && db'.agents.Keys == db.agents.Keys + m.agents.Values
    requires m.agents.Keys == AgentsOf(db, w) && AgentsOf(db, m.workflow) == {}
    requires forall a :: a in m.agents ==>
      m.agents[a] in db'.agents && db'.agents[m.agents[a]] == AgentCopy(db.agents[a], t, m)
    requires AgentNamesUnique(db.agents) && NamesDistinct(db, w)
    ensures AgentNamesUnique(db'.agents)
  {
    forall a | a in db'.agents ensures db'.agents[a].workflow == m.workflow <==> a in m.agents.Values {
      assert a in db.agents ==> db.agents[a].workflow == m.workflow ==> a in AgentsOf(db, m.workflow);
      if a in m.agents.Values { assert m.agents[Origin(m.agents, a)] == a; }
    }
    forall a, b | a in m.agents.Values && b in m.agents.Values && a != b
      ensures db'.agents[a].name != db'.agents[b].name
    {
      var x, y := Origin(m.agents, a), Origin(m.agents, b);
      assert db.agents[x].name != db.agents[y].name;
    }
  }

  lemma AllRowsOk(db: Db, m: Ids, db': Db)
    requires NothingElse(db, m, db')
    requires forall w :: w in db'.workflows ==> db'.workflows[w].tenant in db'.tenants
    requires forall a :: a in db.agents || a in m.agents.Values ==> a in db'.agents && AgentOk(db', a)
    requires forall k :: k in db.tools || k in m.tools.Values ==> k in db'.tools && ToolOk(db', k)
    requires forall p :: p in db.positions || p in m.positions.Values ==> p in db'.positions && PositionOk(db', p)
    requires forall c :: c in db.configs || c in m.configs.Values ==> c in db'.configs && ConfigOk(db', c)
    requires forall e :: e in db.edges || e in m.edges.Values ==> e in db'.edges && EdgeOk(db', e)
    ensures RowsOk(db')
  {
  }

  lemma ClonedWorkflowsOk(db: Db, w: Id, t: Id, m: Ids)
    requires WellFormed(db) && w in db.workflows && Fresh(db, w, m) && RoomFor(db, db.workflows[w].name, t)
    ensures WorkflowNamesUnique(Cloned(db, w, t, m).workflows)
    ensures forall v :: v in Cloned(db, w, t, m).workflows ==> Cloned(db, w, t, m).workflows[v].tenant in db.tenants
  {
  }

  lemma ClonedAgentNamesUnique(db: Db, w: Id, t: Id, m: Ids)
    requires RowsOk(db) && w in db.workflows && Fresh(db, w, m)
    requires AgentNamesUnique(db.agents) && NamesDistinct(db, w)
    ensures AgentNamesUnique(Cloned(db, w, t, m).agents)
  {
    AgentTable(db, w, t, m);
    NoRowsOf(db, m.workflow);
    ClonedNamesUnique(db, w, t, m, Cloned(db, w, t, m));
  }

  lemma ClonedRowsOk(db: Db, w: Id, t: Id, m: Ids)
    requires WellFormed(db) && Clones(db, w, t, m)
    ensures RowsOk(Cloned(db, w, t, m))
  {
    ClonedTables(db, w, t, m);
    ClonedWorkflowsOk(db, w, t, m);
    RowsOkFrom(db, w, t, m, Cloned(db, w, t, m));
  }

  /** A clone of a consistent database is consistent. */
  lemma CloneKeepsWellFormed(db: Db, w: Id, t: Id, m: Ids)
    requires WellFormed(db) && Clones(db, w, t, m)
    ensures WellFormed(Cloned(db, w, t, m))
  {
    ClonedWorkflowsOk(db, w, t, m);
    ClonedAgentNamesUnique(db, w, t, m);
    ClonedRowsOk(db, w, t, m);
  }

  lemma RowsOkFrom(db: Db, w: Id, t: Id, m: Ids, db': Db)
    requires RowsOk(db) && Clones(db, w, t, m)
    requires Extends(db, db') && HoldsCopies(db, t, m, db') && NothingElse(db, m, db')
    requires forall v :: v in db'.workflows ==> db'.workflows[v].tenant in db'.tenants
    ensures RowsOk(db')
  {
    OldRowsOk(db, db');
    NodeCopiesOk(db, w, t, m, db');
    AttachedCopiesOk(db, w, t, m, db');
    AllRowsOk(db, m, db');
  }

  /** The copy is closed and carries the target tenant, so it can be cloned in turn. */
  lemma CloneIsClosed(db: Db, w: Id, t: Id, m: Ids)
    requires WellFormed(db) && Clones(db, w, t, m)
    ensures var db' := Cloned(db, w, t, m);
      Closed(db', m.workflow) && Carries(db', m.workflow, t) && NamesDistinct(db', m.workflow)
  {
    var db' := Cloned(db, w, t, m);
    CloneRows(db, w, t, m);
    ClonedTables(db, w, t, m);
    ClosedFrom(db, w, t, m, db');
    CloneKeepsWellFormed(db, w, t, m);
    CarriedNamesDistinct(db', m.workflow, t);
  }

  lemma ClosedFrom(db: Db, w: Id, t: Id, m: Ids, db': Db)
    requires Clones(db, w, t, m) && HoldsCopies(db, t, m, db')
    requires AgentsOf(db', m.workflow) == m.agents.Values && ToolsOf(db', m.workflow) == m.tools.Values
    requires PositionsOf(db', m.workflow) == m.positions.Values && EdgesOf(db', m.workflow) == m.edges.Values
    ensures Closed(db', m.workflow) && Carries(db', m.workflow, t)
  {
    ToolCopiesStay(db, t, m, db');
    EdgeCopiesStay(db, t, m, db');
    AgentCopiesCarry(db, t, m, db');
  }

  lemma ToolCopiesStay(db: Db, t: Id, m: Ids, db': Db)
    requires HoldsCopies(db, t, m, db') && m.tools.Values <= db'.tools.Keys
    requires forall k :: k in m.tools ==> db.tools[k].agent in m.agents
    ensures forall k :: k in m.tools.Values ==> db'.tools[k].agent in m.agents.Values && db'.tools[k].tenant == Some(t)
  {
    forall k | k in m.tools.Values ensures db'.tools[k].agent in m.agents.Values && db'.tools[k].tenant == Some(t) {
      assert db.tools[Origin(m.tools, k)].agent in m.agents;
    }
  }

  lemma EdgeCopiesStay(db: Db, t: Id, m: Ids, db': Db)
    requires HoldsCopies(db, t, m, db') && m.edges.Values <= db'.edges.Keys
    requires forall e :: e in m.edges ==> db.edges[e].source in m.positions && db.edges[e].target in m.positions
    ensures forall e :: e in m.edges.Values ==>
      && db'.edges[e].source in m.positions.Values && db'.edges[e].target in m.positions.Values
      && db'.edges[e].tenant == Some(t)
  {
    forall e | e in m.edges.Values
      ensures db'.edges[e].source in m.positions.Values && db'.edges[e].target in m.positions.Values
      ensures db'.edges[e].tenant == Some(t)
    {
      var row := db.edges[Origin(m.edges, e)];
      assert row.source in m.positions && row.target in m.positions;
    }
  }

  lemma AgentCopiesCarry(db: Db, t: Id, m: Ids, db': Db)
    requires HoldsCopies(db, t, m, db') && m.agents.Values <= db'.agents.Keys
    ensures forall a :: a in m.agents.Values ==> db'.agents[a].tenant == Some(t)
  {
    forall a | a in m.agents.Values ensures db'.agents[a].tenant == Some(t) {
      assert db'.agents[m.agents[Origin(m.agents, a)]] == AgentCopy(db.agents[Origin(m.agents, a)], t, m);
    }
  }

  /** Cloning a clone: it only takes another tenant with room for the name. */
  lemma CloneCanBeClonedAgain(db: Db, w: Id, t: Id, m: Ids, u: Id)
    requires WellFormed(db) && Clones(db, w, t, m)
    ensures var db' := Cloned(db, w, t, m);
      Outcome(db', m.workflow, u) == None <==> RoomFor(db', db.workflows[w].name, u)
  {
    var db' := Cloned(db, w, t, m);
    CloneKeepsWellFormed(db, w, t, m);
    CloneIsClosed(db, w, t, m);
    if RoomFor(db', db.workflows[w].name, u) {
      ClonableIffClosed(db', m.workflow, u);
    }
  }

  /** A second clone of the same workflow into the same tenant is always refused. */
  lemma SecondCloneRefused(db: Db, w: Id, t: Id, m: Ids)
    requires Clones(db, w, t, m)
    ensures Outcome(Cloned(db, w, t, m), w, t) == Some(IntegrityError)
  {
    var db' := Cloned(db, w, t, m);
    assert m.workflow in db'.workflows && db'.workflows[m.workflow].nameLower == Lower(db.workflows[w].name);
    assert db'.workflows[w] == db.workflows[w];
  }
}
