/** The clone itself: passes over the source rows that add copies to the session. */
module CloneService {
  import opened Wrappers
  import opened Tables
  import opened Relabelling
  import opened CloneSpec
  import CloneContents
  import opened Session

  /** The rows of one workflow, as five queries return them. */
  datatype Graph = Graph(
    agents: map<Id, AgentRow>,
    tools: map<Id, ToolRow>,
    positions: map<Id, PositionRow>,
    configs: map<Id, ConfigRow>,
    edges: map<Id, EdgeRow>)

  function Select(db: Db, w: Id): (g: Graph)
    ensures g.agents.Keys == AgentsOf(db, w) && g.tools.Keys == ToolsOf(db, w)
    ensures g.positions.Keys == PositionsOf(db, w) && g.configs.Keys == ConfigsOf(db, w)
    ensures g.edges.Keys == EdgesOf(db, w)
  {
    Graph(map a | a in AgentsOf(db, w) :: db.agents[a],
          map k | k in ToolsOf(db, w) :: db.tools[k],
          map p | p in PositionsOf(db, w) :: db.positions[p],
          map c | c in ConfigsOf(db, w) :: db.configs[c],
          map e | e in EdgesOf(db, w) :: db.edges[e])
  }

  // The copies of the selected rows. Agents and tools are first added without their links, whose
  // targets do not exist yet.

  function AgentRows(agents: map<Id, AgentRow>, t: Id, m: Ids): (r: map<Id, AgentRow>)
    ensures r.Keys == agents.Keys
  {
    map a | a in agents :: AgentCopy(agents[a], t, m)
  }

  function ToolRows(tools: map<Id, ToolRow>, t: Id, m: Ids): (r: map<Id, ToolRow>)
    ensures r.Keys == tools.Keys
  {
    map k | k in tools :: ToolCopy(tools[k], t, m)
  }

  function Unlinked(agents: map<Id, AgentRow>): (r: map<Id, AgentRow>)
    ensures r.Keys == agents.Keys
  {
    map a | a in agents :: agents[a].(position := None, config := None)
  }

  function UnlinkedTools(tools: map<Id, ToolRow>): (r: map<Id, ToolRow>)
    ensures r.Keys == tools.Keys
  {
    map k | k in tools :: tools[k].(position := None, config := None)
  }

  function PositionRows(positions: map<Id, PositionRow>, t: Id, m: Ids): (r: map<Id, PositionRow>)
    ensures r.Keys == positions.Keys
  {
    map p | p in positions :: PositionCopy(positions[p], t, m)
  }

  function ConfigRows(configs: map<Id, ConfigRow>, t: Id, m: Ids): (r: map<Id, ConfigRow>)
    ensures r.Keys == configs.Keys
  {
    map c | c in configs :: ConfigCopy(configs[c], t, m)
  }

  function EdgeRows(edges: map<Id, EdgeRow>, t: Id, m: Ids): (r: map<Id, EdgeRow>)
    ensures r.Keys == edges.Keys
  {
    map e | e in edges :: EdgeCopy(edges[e], t, m)
  }

  // What the passes and flushes find wrong, on the selected rows.

  predicate AttachedBut(tools: map<Id, ToolRow>, todo: set<Id>, m: Ids) {
    forall k | k in tools && k !in todo :: tools[k].agent in m.agents
  }

  predicate Attached(tools: map<Id, ToolRow>, m: Ids) {
    AttachedBut(tools, {}, m)
  }

  lemma AttachedStep(tools: map<Id, ToolRow>, todo: set<Id>, k: Id, m: Ids)
    requires k in tools && tools[k].agent in m.agents && AttachedBut(tools, todo, m)
    ensures AttachedBut(tools, todo - {k}, m)
  {
  }

  ghost predicate Distinct(agents: map<Id, AgentRow>) {
    forall a, b | a in agents && b in agents && a != b :: agents[a].name != agents[b].name
  }

  predicate Owned(agent: Option<Id>, tool: Option<Id>, m: Ids) {
    (agent.Some? && agent.value in m.agents) != (tool.Some? && tool.value in m.tools)
  }

  ghost predicate AllOwned(graph: Graph, m: Ids) {
    && (forall p :: p in graph.positions ==> Owned(graph.positions[p].agent, graph.positions[p].tool, m))
    && (forall c :: c in graph.configs ==> Owned(graph.configs[c].agent, graph.configs[c].tool, m))
  }

  /** Both links of a node, if set, are in the id maps. */
  predicate NodeHits(position: Option<Id>, config: Option<Id>, m: Ids) {
    LinkHits(position, m.positions.Keys) && LinkHits(config, m.configs.Keys)
  }

  predicate AgentsHit(agents: map<Id, AgentRow>, m: Ids) {
    forall a :: a in agents ==> NodeHits(agents[a].position, agents[a].config, m)
  }

  predicate ToolsHit(tools: map<Id, ToolRow>, m: Ids) {
    forall k :: k in tools ==> NodeHits(tools[k].position, tools[k].config, m)
  }

  predicate EdgeHits(row: EdgeRow, m: Ids) {
    row.source in m.positions && row.target in m.positions
  }

  method MintIds(sources: set<Id>, taken: set<Id>) returns (ids: map<Id, Id>)
    ensures Mints(ids, sources, taken)
  {
    ids := map[];
    var todo := sources;
    while todo != {}
      invariant todo <= sources && ids.Keys == sources - todo
      invariant Injective(ids) && ids.Values !! taken
      decreases todo
    {
      var a :| a in todo;
      var id := Uuid4(taken + ids.Values);
      OneMoreId(ids, a, id);
      ids := ids[a := id];
      todo := todo - {a};
    }
  }

  /** The first pass over agents. */
  method AddAgents(session: Session, agents: map<Id, AgentRow>, t: Id, m: Ids)
    requires Mints(m.agents, agents.Keys, session.agents.Keys)
    modifies session`agents
    ensures session.agents == Grow(old(session.agents), m.agents, Unlinked(AgentRows(agents, t, m)))
    ensures Within(old(session.agents), session.agents)
  {
    ghost var base, rows := session.agents, Unlinked(AgentRows(agents, t, m));
    PassStarts(base, m.agents, rows);
    var todo := agents.Keys;
    while todo != {}
      invariant todo <= agents.Keys
      invariant session.agents == Midway(base, m.agents, rows, todo)
      decreases todo
    {
      var a :| a in todo;
      PassStep(base, m.agents, rows, todo, a);
      var agent := agents[a];
      session.agents := session.agents[m.agents[a] :=
        AgentRow(Some(t), agent.name, m.workflow, agent.isInitial, None, None)];
      todo := todo - {a};
    }
    PassEnds(base, m.agents, rows);
    GrowWithin(base, m.agents, rows);
  }

  lemma AddToolStep(base: map<Id, ToolRow>, m: Ids, tools: map<Id, ToolRow>, t: Id, todo: set<Id>, k: Id)
    requires Injective(m.tools) && m.tools.Keys == tools.Keys && k in todo && todo <= tools.Keys
    requires tools[k].agent in m.agents
    ensures var rows := UnlinkedTools(ToolRows(tools, t, m)); var tool := tools[k];
      Midway(base, m.tools, rows, todo - {k}) == Midway(base, m.tools, rows, todo)[m.tools[k] :=
        ToolRow(Some(t), tool.name, m.workflow, m.agents[tool.agent], tool.httpMethod, None, None)]
  {
    PassStep(base, m.tools, UnlinkedTools(ToolRows(tools, t, m)), todo, k);
  }

  /** The first pass over tools; it needs the copies of their agents. */
  method AddTools(session: Session, tools: map<Id, ToolRow>, t: Id, m: Ids) returns (ok: bool)
    requires Mints(m.tools, tools.Keys, session.tools.Keys)
    modifies session`tools
    ensures ok <==> Attached(tools, m)
    ensures ok ==> session.tools == Grow(old(session.tools), m.tools, UnlinkedTools(ToolRows(tools, t, m)))
    ensures Within(old(session.tools), session.tools)
  {
    ghost var base, rows := session.tools, UnlinkedTools(ToolRows(tools, t, m));
    PassStarts(base, m.tools, rows);
    var todo := tools.Keys;
    while todo != {}
      invariant todo <= tools.Keys
      invariant AttachedBut(tools, todo, m)
      invariant session.tools == Midway(base, m.tools, rows, todo)
      decreases todo
    {
      var k :| k in todo;
      var tool := tools[k];
      if tool.agent !in m.agents {
        MidwayWithin(base, m.tools, rows, todo);
        return false;
      }
      AttachedStep(tools, todo, k, m);
      AddToolStep(base, m, tools, t, todo, k);
      session.tools := session.tools[m.tools[k] :=
        ToolRow(Some(t), tool.name, m.workflow, m.agents[tool.agent], tool.httpMethod, None, None)];
      todo := todo - {k};
    }
    PassEnds(base, m.tools, rows);
    GrowWithin(base, m.tools, rows);
    ok := true;
  }

  method AddPositions(session: Session, positions: map<Id, PositionRow>, t: Id, m: Ids)
    requires Mints(m.positions, positions.Keys, session.positions.Keys)
    modifies session`positions
    ensures session.positions == Grow(old(session.positions), m.positions, PositionRows(positions, t, m))
    ensures Within(old(session.positions), session.positions)
  {
    ghost var base, rows := session.positions, PositionRows(positions, t, m);
    PassStarts(base, m.positions, rows);
    var todo := positions.Keys;
    while todo != {}
      invariant todo <= positions.Keys
      invariant session.positions == Midway(base, m.positions, rows, todo)
      decreases todo
    {
      var p :| p in todo;
      PassStep(base, m.positions, rows, todo, p);
      var position := positions[p];
      session.positions := session.positions[m.positions[p] :=
        PositionRow(Some(t), m.workflow, Link(m.agents, position.agent), Link(m.tools, position.tool),
                    position.x, position.y)];
      todo := todo - {p};
    }
    PassEnds(base, m.positions, rows);
    GrowWithin(base, m.positions, rows);
  }

  method AddConfigs(session: Session, configs: map<Id, ConfigRow>, t: Id, m: Ids)
    requires Mints(m.configs, configs.Keys, session.configs.Keys)
    modifies session`configs
    ensures session.configs == Grow(old(session.configs), m.configs, ConfigRows(configs, t, m))
    ensures Within(old(session.configs), session.configs)
  {
    ghost var base, rows := session.configs, ConfigRows(configs, t, m);
    PassStarts(base, m.configs, rows);
    var todo := configs.Keys;
    while todo != {}
      invariant todo <= configs.Keys
      invariant session.configs == Midway(base, m.configs, rows, todo)
      decreases todo
    {
      var c :| c in todo;
      PassStep(base, m.configs, rows, todo, c);
      var config := configs[c];
      session.configs := session.configs[m.configs[c] :=
        ConfigRow(Some(t), config.kind, m.workflow, Link(m.agents, config.agent), Link(m.tools, config.tool),
                  config.config)];
      todo := todo - {c};
    }
    PassEnds(base, m.configs, rows);
    GrowWithin(base, m.configs, rows);
  }

  /** The copy with the links of its source set; None is a missed lookup. */
  function Relinked(copy: AgentRow, source: AgentRow, m: Ids): (r: Option<AgentRow>)
    ensures r.Some? <==> NodeHits(source.position, source.config, m)
    ensures r.Some? && copy.position.None? && copy.config.None? ==>
      r.value == copy.(position := Link(m.positions, source.position), config := Link(m.configs, source.config))
  {
    if source.position.Some? && source.position.value !in m.positions then None
    else if source.config.Some? && source.config.value !in m.configs then None
    else
      var placed := if source.position.Some? then copy.(position := Some(m.positions[source.position.value])) else copy;
      Some(if source.config.Some? then placed.(config := Some(m.configs[source.config.value])) else placed)
  }

  function RelinkedTool(copy: ToolRow, source: ToolRow, m: Ids): (r: Option<ToolRow>)
    ensures r.Some? <==> NodeHits(source.position, source.config, m)
    ensures r.Some? && copy.position.None? && copy.config.None? ==>
      r.value == copy.(position := Link(m.positions, source.position), config := Link(m.configs, source.config))
  {
    if source.position.Some? && source.position.value !in m.positions then None
    else if source.config.Some? && source.config.value !in m.configs then None
    else
      var placed := if source.position.Some? then copy.(position := Some(m.positions[source.position.value])) else copy;
      Some(if source.config.Some? then placed.(config := Some(m.configs[source.config.value])) else placed)
  }

  /** The rows have the links of the copies of `agents`. */
  ghost predicate AgentLinksOf(rows: map<Id, AgentRow>, agents: map<Id, AgentRow>, m: Ids) {
    && rows.Keys == agents.Keys
    && forall a | a in agents ::
      rows[a].position == Link(m.positions, agents[a].position) && rows[a].config == Link(m.configs, agents[a].config)
  }

  ghost predicate ToolLinksOf(rows: map<Id, ToolRow>, tools: map<Id, ToolRow>, m: Ids) {
    && rows.Keys == tools.Keys
    && forall k | k in tools ::
      rows[k].position == Link(m.positions, tools[k].position) && rows[k].config == Link(m.configs, tools[k].config)
  }

  lemma AgentStep(
    base: map<Id, AgentRow>, m: Ids, agents: map<Id, AgentRow>, rows: map<Id, AgentRow>, todo: set<Id>, a: Id)
    requires Injective(m.agents) && m.agents.Keys == agents.Keys && AgentLinksOf(rows, agents, m)
    requires a in todo && todo <= agents.Keys
    ensures var table := Grow(base, m.agents, Rewriting(Unlinked(rows), rows, todo)); var id := m.agents[a];
      && id in table
      && var linked := Relinked(table[id], agents[a], m);
      && linked.Some? ==> Grow(base, m.agents, Rewriting(Unlinked(rows), rows, todo - {a})) == table[id := linked.value]
  {
    RewriteStep(base, m.agents, Unlinked(rows), rows, todo, a);
  }

  lemma ToolStep(base: map<Id, ToolRow>, m: Ids, tools: map<Id, ToolRow>, rows: map<Id, ToolRow>, todo: set<Id>, k: Id)
    requires Injective(m.tools) && m.tools.Keys == tools.Keys && ToolLinksOf(rows, tools, m)
    requires k in todo && todo <= tools.Keys
    ensures var table := Grow(base, m.tools, Rewriting(UnlinkedTools(rows), rows, todo)); var id := m.tools[k];
      && id in table
      && var linked := RelinkedTool(table[id], tools[k], m);
      && linked.Some? ==>
        Grow(base, m.tools, Rewriting(UnlinkedTools(rows), rows, todo - {k})) == table[id := linked.value]
  {
    RewriteStep(base, m.tools, UnlinkedTools(rows), rows, todo, k);
  }

  /** The second pass over agents: set the links of the copies, now that their targets exist. */
  method LinkAgents(
    session: Session, agents: map<Id, AgentRow>, m: Ids, ghost base: map<Id, AgentRow>, ghost rows: map<Id, AgentRow>)
    returns (ok: bool)
    requires Mints(m.agents, agents.Keys, base.Keys) && AgentLinksOf(rows, agents, m)
    requires session.agents == Grow(base, m.agents, Unlinked(rows))
    modifies session`agents
    ensures ok <==> AgentsHit(agents, m)
    ensures ok ==> session.agents == Grow(base, m.agents, rows)
    ensures Within(base, session.agents)
  {
    RewriteEnds(Unlinked(rows), rows);
    var todo := agents.Keys;
    while todo != {}
      invariant todo <= agents.Keys
      invariant forall a :: a in agents && a !in todo ==> NodeHits(agents[a].position, agents[a].config, m)
      invariant session.agents == Grow(base, m.agents, Rewriting(Unlinked(rows), rows, todo))
      decreases todo
    {
      var a :| a in todo;
      AgentStep(base, m, agents, rows, todo, a);
      var linked := Relinked(session.agents[m.agents[a]], agents[a], m);
      if linked.None? {
        GrowWithin(base, m.agents, Rewriting(Unlinked(rows), rows, todo));
        return false;
      }
      session.agents := session.agents[m.agents[a] := linked.value];
      todo := todo - {a};
    }
    GrowWithin(base, m.agents, rows);
    ok := true;
  }

  /** The second pass over tools. */
  method LinkTools(
    session: Session, tools: map<Id, ToolRow>, m: Ids, ghost base: map<Id, ToolRow>, ghost rows: map<Id, ToolRow>)
    returns (ok: bool)
    requires Mints(m.tools, tools.Keys, base.Keys) && ToolLinksOf(rows, tools, m)
    requires session.tools == Grow(base, m.tools, UnlinkedTools(rows))
    modifies session`tools
    ensures ok <==> ToolsHit(tools, m)
    ensures ok ==> session.tools == Grow(base, m.tools, rows)
    ensures Within(base, session.tools)
  {
    RewriteEnds(UnlinkedTools(rows), rows);
    var todo := tools.Keys;
    while todo != {}
      invariant todo <= tools.Keys
      invariant forall k :: k in tools && k !in todo ==> NodeHits(tools[k].position, tools[k].config, m)
      invariant session.tools == Grow(base, m.tools, Rewriting(UnlinkedTools(rows), rows, todo))
      decreases todo
    {
      var k :| k in todo;
      ToolStep(base, m, tools, rows, todo, k);
      var linked := RelinkedTool(session.tools[m.tools[k]], tools[k], m);
      if linked.None? {
        GrowWithin(base, m.tools, Rewriting(UnlinkedTools(rows), rows, todo));
        return false;
      }
      session.tools := session.tools[m.tools[k] := linked.value];
      todo := todo - {k};
    }
    GrowWithin(base, m.tools, rows);
    ok := true;
  }

  /** The edges, each under an id minted on the spot: nothing refers to an edge. */
  method AddEdges(session: Session, edges: map<Id, EdgeRow>, t: Id, m: Ids) returns (ok: bool, ghost ids: map<Id, Id>)
    modifies session`edges
    ensures ok <==> forall e :: e in edges ==> EdgeHits(edges[e], m)
    ensures ok ==>
      Mints(ids, edges.Keys, old(session.edges).Keys) &&
        session.edges == Grow(old(session.edges), ids, EdgeRows(edges, t, m))
    ensures Within(old(session.edges), session.edges)
  {
    ghost var base, rows := session.edges, EdgeRows(edges, t, m);
    PassStarts(base, map[], rows);
    PassEnds(base, map[], rows);
    var todo := edges.Keys;
    ids := map[];
    while todo != {}
      invariant todo <= edges.Keys && Mints(ids, edges.Keys - todo, base.Keys)
      invariant forall e :: e in edges && e !in todo ==> EdgeHits(edges[e], m)
      invariant session.edges == Grow(base, ids, rows)
      decreases todo
    {
      var e :| e in todo;
      var edge := edges[e];
      if edge.source !in m.positions || edge.target !in m.positions {
        GrowWithin(base, ids, rows);
        return false, ids;
      }
      var id := Uuid4(session.edges.Keys);
      MintOne(base, ids, rows, edges.Keys - todo, e, id);
      var data := if edge.data.Some? && edge.data.value != map[] then edge.data else None;
      session.edges := session.edges[id :=
        EdgeRow(Some(t), m.workflow, m.positions[edge.source], m.positions[edge.target], data)];
      ids := ids[e := id];
      todo := todo - {e};
    }
    GrowWithin(base, ids, rows);
    ok := true;
  }

  // The constraints the database checks when the session is flushed, on the rows just added.

  predicate NameClash(table: map<Id, AgentRow>, added: set<Id>) {
    exists a, b | a in added && b in added && a != b :: a in table && b in table && table[a].name == table[b].name
  }

  predicate PositionUnowned(table: map<Id, PositionRow>, added: set<Id>) {
    exists p | p in added :: p in table && !OneOwner(table[p].agent, table[p].tool)
  }

  predicate ConfigUnowned(table: map<Id, ConfigRow>, added: set<Id>) {
    exists c | c in added :: c in table && !OneOwner(table[c].agent, table[c].tool)
  }

  /** Flushing agents and tools: the unique key on agent names. */
  method FlushNodes(
    session: Session, ghost agents: map<Id, AgentRow>, ghost t: Id, m: Ids, ghost base: map<Id, AgentRow>)
    returns (ok: bool)
    requires Mints(m.agents, agents.Keys, base.Keys)
    requires session.agents == Grow(base, m.agents, Unlinked(AgentRows(agents, t, m)))
    ensures ok <==> Distinct(agents)
  {
    NameClashMeans(agents, t, m, base);
    ok := !NameClash(session.agents, m.agents.Values);
  }

  lemma NameClashMeans(agents: map<Id, AgentRow>, t: Id, m: Ids, base: map<Id, AgentRow>)
    requires Mints(m.agents, agents.Keys, base.Keys)
    ensures NameClash(Grow(base, m.agents, Unlinked(AgentRows(agents, t, m))), m.agents.Values) <==> !Distinct(agents)
  {
    var rows := Unlinked(AgentRows(agents, t, m));
    var table := Grow(base, m.agents, rows);
    GrowContents(base, m.agents, rows);
    forall x | x in m.agents.Values ensures x in table && table[x].name == agents[Origin(m.agents, x)].name {
      assert table[m.agents[Origin(m.agents, x)]] == rows[Origin(m.agents, x)];
    }
    NameClashFrom(agents, m.agents, table);
  }

  lemma NameClashFrom(agents: map<Id, AgentRow>, ids: map<Id, Id>, table: map<Id, AgentRow>)
    requires Injective(ids) && ids.Keys == agents.Keys
    requires forall x :: x in ids.Values ==> x in table && table[x].name == agents[Origin(ids, x)].name
    ensures NameClash(table, ids.Values) <==> !Distinct(agents)
  {
    if x, y :| x in ids.Values && y in ids.Values && x != y && table[x].name == table[y].name {
      assert Origin(ids, x) != Origin(ids, y);
    }
    if a, b :| a in agents && b in agents && a != b && agents[a].name == agents[b].name {
      assert ids[a] in ids.Values && Origin(ids, ids[a]) == a;
      assert ids[b] in ids.Values && Origin(ids, ids[b]) == b;
    }
  }

  /** Flushing positions and configs: the check that each has exactly one owner. */
  method FlushAttached(
    session: Session, ghost graph: Graph, ghost t: Id, m: Ids,
    ghost positions: map<Id, PositionRow>, ghost configs: map<Id, ConfigRow>)
    returns (ok: bool)
    requires Mints(m.positions, graph.positions.Keys, positions.Keys)
    requires Mints(m.configs, graph.configs.Keys, configs.Keys)
    requires session.positions == Grow(positions, m.positions, PositionRows(graph.positions, t, m))
    requires session.configs == Grow(configs, m.configs, ConfigRows(graph.configs, t, m))
    ensures ok <==> AllOwned(graph, m)
  {
    PositionUnownedMeans(graph.positions, t, m, positions);
    ConfigUnownedMeans(graph.configs, t, m, configs);
    ok := !PositionUnowned(session.positions, m.positions.Values) && !ConfigUnowned(session.configs, m.configs.Values);
  }

  lemma PositionUnownedMeans(positions: map<Id, PositionRow>, t: Id, m: Ids, base: map<Id, PositionRow>)
    requires Mints(m.positions, positions.Keys, base.Keys)
    ensures PositionUnowned(Grow(base, m.positions, PositionRows(positions, t, m)), m.positions.Values)
            <==> exists p :: p in positions && !Owned(positions[p].agent, positions[p].tool, m)
  {
    var rows := PositionRows(positions, t, m);
    var table := Grow(base, m.positions, rows);
    forall x | x in m.positions.Values
      ensures x in table && table[x] == PositionCopy(positions[Origin(m.positions, x)], t, m)
    {
      CopyOf(base, m.positions, rows, Origin(m.positions, x));
    }
    PositionUnownedFrom(positions, t, m, table);
  }

  lemma PositionUnownedFrom(positions: map<Id, PositionRow>, t: Id, m: Ids, table: map<Id, PositionRow>)
    requires Injective(m.positions) && m.positions.Keys == positions.Keys
    requires forall x :: x in m.positions.Values ==>
      x in table && table[x] == PositionCopy(positions[Origin(m.positions, x)], t, m)
    ensures PositionUnowned(table, m.positions.Values) <==>
      exists p :: p in positions && !Owned(positions[p].agent, positions[p].tool, m)
  {
    if p :| p in positions && !Owned(positions[p].agent, positions[p].tool, m) {
      assert m.positions[p] in m.positions.Values && Origin(m.positions, m.positions[p]) == p;
    }
  }

  lemma ConfigUnownedMeans(configs: map<Id, ConfigRow>, t: Id, m: Ids, base: map<Id, ConfigRow>)
    requires Mints(m.configs, configs.Keys, base.Keys)
    ensures ConfigUnowned(Grow(base, m.configs, ConfigRows(configs, t, m)), m.configs.Values)
            <==> exists c :: c in configs && !Owned(configs[c].agent, configs[c].tool, m)
  {
    var rows := ConfigRows(configs, t, m);
    var table := Grow(base, m.configs, rows);
    forall x | x in m.configs.Values
      ensures x in table && table[x] == ConfigCopy(configs[Origin(m.configs, x)], t, m)
    {
      CopyOf(base, m.configs, rows, Origin(m.configs, x));
    }
    ConfigUnownedFrom(configs, t, m, table);
  }

  lemma ConfigUnownedFrom(configs: map<Id, ConfigRow>, t: Id, m: Ids, table: map<Id, ConfigRow>)
    requires Injective(m.configs) && m.configs.Keys == configs.Keys
    requires forall x :: x in m.configs.Values ==>
      x in table && table[x] == ConfigCopy(configs[Origin(m.configs, x)], t, m)
    ensures ConfigUnowned(table, m.configs.Values) <==>
      exists c :: c in configs && !Owned(configs[c].agent, configs[c].tool, m)
  {
    if c :| c in configs && !Owned(configs[c].agent, configs[c].tool, m) {
      assert m.configs[c] in m.configs.Values && Origin(m.configs, m.configs[c]) == c;
    }
  }

  /** The passes that create agents and tools, and the flush after them. */
  method AddNodes(session: Session, graph: Graph, t: Id, m: Ids) returns (error: Option<CloneError>)
    requires Mints(m.agents, graph.agents.Keys, session.agents.Keys)
    requires Mints(m.tools, graph.tools.Keys, session.tools.Keys)
    modifies session`agents, session`tools
    ensures error == if !Attached(graph.tools, m) then Some(KeyError)
                     else if !Distinct(graph.agents) then Some(IntegrityError)
                     else None
    ensures error.None? ==>
      && session.agents == Grow(old(session.agents), m.agents, Unlinked(AgentRows(graph.agents, t, m)))
      && session.tools == Grow(old(session.tools), m.tools, UnlinkedTools(ToolRows(graph.tools, t, m)))
    ensures Within(old(session.agents), session.agents) && Within(old(session.tools), session.tools)
  {
    ghost var base := session.agents;
    AddAgents(session, graph.agents, t, m);
    var ok := AddTools(session, graph.tools, t, m);
    if !ok {
      return Some(KeyError);
    }
    ok := FlushNodes(session, graph.agents, t, m, base);
    error := if ok then None else Some(IntegrityError);
  }

  /** The passes that create positions and configs, and the flush after them. */
  method AddAttached(session: Session, graph: Graph, t: Id, m: Ids) returns (error: Option<CloneError>)
    requires Mints(m.positions, graph.positions.Keys, session.positions.Keys)
    requires Mints(m.configs, graph.configs.Keys, session.configs.Keys)
    modifies session`positions, session`configs
    ensures error == if AllOwned(graph, m) then None else Some(IntegrityError)
    ensures session.positions == Grow(old(session.positions), m.positions, PositionRows(graph.positions, t, m))
    ensures session.configs == Grow(old(session.configs), m.configs, ConfigRows(graph.configs, t, m))
    ensures Within(old(session.positions), session.positions) && Within(old(session.configs), session.configs)
  {
    ghost var positions, configs := session.positions, session.configs;
    AddPositions(session, graph.positions, t, m);
    AddConfigs(session, graph.configs, t, m);
    var ok := FlushAttached(session, graph, t, m, positions, configs);
    error := if ok then None else Some(IntegrityError);
  }

  /** The second pass, over both kinds of node. */
  method LinkNodes(session: Session, graph: Graph, m: Ids,
                   ghost agents: map<Id, AgentRow>, ghost agentRows: map<Id, AgentRow>,
                   ghost tools: map<Id, ToolRow>, ghost toolRows: map<Id, ToolRow>)
    returns (ok: bool)
    requires Mints(m.agents, graph.agents.Keys, agents.Keys) && AgentLinksOf(agentRows, graph.agents, m)
    requires Mints(m.tools, graph.tools.Keys, tools.Keys) && ToolLinksOf(toolRows, graph.tools, m)
    requires session.agents == Grow(agents, m.agents, Unlinked(agentRows))
    requires session.tools == Grow(tools, m.tools, UnlinkedTools(toolRows))
    modifies session`agents, session`tools
    ensures ok <==> AgentsHit(graph.agents, m) && ToolsHit(graph.tools, m)
    ensures ok ==>
      session.agents == Grow(agents, m.agents, agentRows) && session.tools == Grow(tools, m.tools, toolRows)
    ensures Within(agents, session.agents) && Within(tools, session.tools)
  {
    ok := LinkAgents(session, graph.agents, m, agents, agentRows);
    if !ok {
      assert Within(tools, session.tools) by { GrowWithin(tools, m.tools, UnlinkedTools(toolRows)); }
      return;
    }
    ok := LinkTools(session, graph.tools, m, tools, toolRows);
  }

  lemma CopiesHaveLinks(graph: Graph, t: Id, m: Ids)
    ensures AgentLinksOf(AgentRows(graph.agents, t, m), graph.agents, m)
    ensures ToolLinksOf(ToolRows(graph.tools, t, m), graph.tools, m)
  {
  }

  ghost function NodesError(graph: Graph, m: Ids): Option<CloneError> {
    if !Attached(graph.tools, m) then Some(KeyError)
    else if !Distinct(graph.agents) || !AllOwned(graph, m) then Some(IntegrityError)
    else if !AgentsHit(graph.agents, m) || !ToolsHit(graph.tools, m) then Some(KeyError)
    else None
  }

  /** Every pass but the one over edges. */
  method CopyNodes(session: Session, graph: Graph, t: Id, m: Ids) returns (error: Option<CloneError>)
    requires Mints(m.agents, graph.agents.Keys, session.agents.Keys)
    requires Mints(m.tools, graph.tools.Keys, session.tools.Keys)
    requires Mints(m.positions, graph.positions.Keys, session.positions.Keys)
    requires Mints(m.configs, graph.configs.Keys, session.configs.Keys)
    modifies session`agents, session`tools, session`positions, session`configs
    ensures error == NodesError(graph, m)
    ensures error.None? ==>
      && session.agents == Grow(old(session.agents), m.agents, AgentRows(graph.agents, t, m))
      && session.tools == Grow(old(session.tools), m.tools, ToolRows(graph.tools, t, m))
      && session.positions == Grow(old(session.positions), m.positions, PositionRows(graph.positions, t, m))
      && session.configs == Grow(old(session.configs), m.configs, ConfigRows(graph.configs, t, m))
    ensures Within(old(session.agents), session.agents) && Within(old(session.tools), session.tools)
    ensures Within(old(session.positions), session.positions) && Within(old(session.configs), session.configs)
  {
    ghost var agents, tools := session.agents, session.tools;
    error := AddNodes(session, graph, t, m);
    if error.Some? {
      return;
    }
    error := AddAttached(session, graph, t, m);
    if error.Some? {
      return;
    }
    CopiesHaveLinks(graph, t, m);
    var ok := LinkNodes(session, graph, m, agents, AgentRows(graph.agents, t, m), tools, ToolRows(graph.tools, t, m));
    error := if ok then None else Some(KeyError);
  }

  method MintNodes(session: Session, graph: Graph, n: Id) returns (m: Ids)
    ensures m.workflow == n && m.edges == map[]
    ensures Mints(m.agents, graph.agents.Keys, session.agents.Keys)
    ensures Mints(m.tools, graph.tools.Keys, session.tools.Keys)
    ensures Mints(m.positions, graph.positions.Keys, session.positions.Keys)
    ensures Mints(m.configs, graph.configs.Keys, session.configs.Keys)
  {
    var agents := MintIds(graph.agents.Keys, session.agents.Keys);
    var tools := MintIds(graph.tools.Keys, session.tools.Keys);
    var positions := MintIds(graph.positions.Keys, session.positions.Keys);
    var configs := MintIds(graph.configs.Keys, session.configs.Keys);
    m := Ids(n, agents, tools, positions, configs, map[]);
  }

  // The selected rows stand for the workflow they were selected from.

  lemma SelectedNodeCopies(db: Db, w: Id, t: Id, m: Ids, edges: map<Id, Id>)
    ensures AgentRows(Select(db, w).agents, t, m) == AgentCopies(db, w, t, m.(edges := edges))
    ensures ToolRows(Select(db, w).tools, t, m) == ToolCopies(db, w, t, m.(edges := edges))
  {
  }

  lemma SelectedAttachedCopies(db: Db, w: Id, t: Id, m: Ids, edges: map<Id, Id>)
    ensures PositionRows(Select(db, w).positions, t, m) == PositionCopies(db, w, t, m.(edges := edges))
    ensures ConfigRows(Select(db, w).configs, t, m) == ConfigCopies(db, w, t, m.(edges := edges))
  {
  }

  lemma SelectedEdgeCopies(db: Db, w: Id, t: Id, m: Ids, edges: map<Id, Id>)
    ensures EdgeRows(Select(db, w).edges, t, m) == EdgeCopies(db, w, t, m.(edges := edges))
  {
  }

  lemma SelectedErrors(db: Db, w: Id, m: Ids)
    requires m.agents.Keys == AgentsOf(db, w) && m.tools.Keys == ToolsOf(db, w)
    requires m.positions.Keys == PositionsOf(db, w) && m.configs.Keys == ConfigsOf(db, w)
    ensures NodesError(Select(db, w), m) == NodesOutcome(db, w)
    ensures (forall e :: e in Select(db, w).edges ==> EdgeHits(Select(db, w).edges[e], m)) <==> EdgesHit(db, w)
  {
    var graph := Select(db, w);
    assert Attached(graph.tools, m) <==> ToolsAttached(db, w);
    assert Distinct(graph.agents) <==> NamesDistinct(db, w);
    assert AllOwned(graph, m) <==> OwnersPresent(db, w) by {
      forall p | p in graph.positions
        ensures Owned(graph.positions[p].agent, graph.positions[p].tool, m) <==>
          OneOwnerIn(db, w, db.positions[p].agent, db.positions[p].tool)
      {
      }
      forall c | c in graph.configs
        ensures Owned(graph.configs[c].agent, graph.configs[c].tool, m) <==>
          OneOwnerIn(db, w, db.configs[c].agent, db.configs[c].tool)
      {
      }
    }
    assert AgentsHit(graph.agents, m) <==> AgentLinksHit(db, w);
    assert ToolsHit(graph.tools, m) <==> ToolLinksHit(db, w);
  }

  /** The workflow just added under `n` repeats the name of another workflow of its tenant. */
  predicate NameTaken(table: map<Id, WorkflowRow>, n: Id)
    requires n in table
  {
    exists v | v in table && v != n :: table[v].tenant == table[n].tenant && table[v].nameLower == table[n].nameLower
  }

  lemma NameTakenMeans(db: Db, n: Id, name: string, t: Id)
    requires n !in db.workflows && t in db.tenants
    ensures NameTaken(db.workflows[n := WorkflowRow(t, name, Lower(name))], n) <==> !RoomFor(db, name, t)
  {
    var table := db.workflows[n := WorkflowRow(t, name, Lower(name))];
    forall v | v in db.workflows ensures v in table && v != n && table[v] == db.workflows[v] {
    }
  }

  /** Copies workflow `w` into tenant `t`. It fails exactly as `Outcome` says, and whatever
      happens no earlier row changes. */
  method CloneWorkflowToTenant(session: Session, w: Id, t: Id) returns (r: Result<Id, CloneError>, ghost m: Ids)
    modifies session
    ensures Outcome(old(session.Contents()), w, t) == if r.Success? then None else Some(r.error)
    ensures r.Success? ==>
      && Fresh(old(session.Contents()), w, m) && r.value == m.workflow
      && session.Contents() == Cloned(old(session.Contents()), w, t, m)
      && CloneContents.Copied(old(session.Contents()), session.Contents(), w, t, m)
    ensures Extends(old(session.Contents()), session.Contents())
  {
    ghost var db := session.Contents();
    m := Ids(0, map[], map[], map[], map[], map[]);
    if w !in session.workflows {
      return Failure(SourceNotFound), m;
    }
    var name := session.workflows[w].name;
    var n := Uuid4(session.workflows.Keys);
    session.workflows := session.workflows[n := WorkflowRow(t, name, Lower(name))];
    if t in session.tenants { NameTakenMeans(db, n, name, t); }
    // flush: the foreign key to the tenant and the unique key (tenant, name)
    if t !in session.tenants || NameTaken(session.workflows, n) {
      return Failure(IntegrityError), m;
    }
    var graph := Select(session.Contents(), w);
    assert graph == Select(db, w);
    var ids := MintNodes(session, graph, n);
    SelectedErrors(db, w, ids);
    var error := CopyNodes(session, graph, t, ids);
    if error.Some? {
      return Failure(error.value), m;
    }
    var ok;
    ghost var edgeIds;
    ok, edgeIds := AddEdges(session, graph.edges, t, ids);
    if !ok {
      return Failure(KeyError), m;
    }
    m := ids.(edges := edgeIds);
    SelectedNodeCopies(db, w, t, ids, edgeIds);
    SelectedAttachedCopies(db, w, t, ids, edgeIds);
    SelectedEdgeCopies(db, w, t, ids, edgeIds);
    CloneContents.CloneKeepsContents(db, w, t, m);
    r := Success(n);
  }
}
