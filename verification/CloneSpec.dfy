/** What cloning a workflow into a tenant yields, as a function on database states. */
module CloneSpec {
  import opened Wrappers
  import opened Tables
  import opened Relabelling

  /** Lower-casing, on ASCII letters. */
  function Lower(s: string): string {
    seq(|s|, i requires 0 <= i < |s| => if 'A' <= s[i] <= 'Z' then (s[i] as int + 32) as char else s[i])
  }

  /** No capital is left, and two texts become the same exactly if they differ at most in case. */
  lemma LowerMeans(a: string, b: string)
    ensures forall i :: 0 <= i < |Lower(a)| ==> !('A' <= Lower(a)[i] <= 'Z')
    ensures Lower(a) == Lower(b) <==>
      |a| == |b| && forall i :: 0 <= i < |a| ==>
        || a[i] == b[i]
        || ('A' <= a[i] <= 'Z' && b[i] as int == a[i] as int + 32)
        || ('A' <= b[i] <= 'Z' && a[i] as int == b[i] as int + 32)
  {
    forall i | 0 <= i < |a| && 0 <= i < |b|
      ensures Lower(a)[i] == Lower(b)[i] <==>
        || a[i] == b[i]
        || ('A' <= a[i] <= 'Z' && b[i] as int == a[i] as int + 32)
        || ('A' <= b[i] <= 'Z' && a[i] as int == b[i] as int + 32)
    {
    }
  }

  datatype CloneError = SourceNotFound | KeyError | IntegrityError

  /** The ids minted by one clone: the new workflow's, and one new id per copied row. */
  datatype Ids = Ids(
    workflow: Id,
    agents: map<Id, Id>,
    tools: map<Id, Id>,
    positions: map<Id, Id>,
    configs: map<Id, Id>,
    edges: map<Id, Id>)

  /** `m` gives each row of workflow `w` its own new id, not in use in `db`. */
  ghost predicate Fresh(db: Db, w: Id, m: Ids) {
    && m.workflow !in db.workflows
    && Mints(m.agents, AgentsOf(db, w), db.agents.Keys)
    && Mints(m.tools, ToolsOf(db, w), db.tools.Keys)
    && Mints(m.positions, PositionsOf(db, w), db.positions.Keys)
    && Mints(m.configs, ConfigsOf(db, w), db.configs.Keys)
    && Mints(m.edges, EdgesOf(db, w), db.edges.Keys)
  }

  /** A nullable reference looked up in an id map; a miss gives null. */
  function Link(ids: map<Id, Id>, ref: Option<Id>): Option<Id> {
    if ref.Some? && ref.value in ids then Some(ids[ref.value]) else None
  }

  /** A reference looked up in an id map. A clone that succeeds never misses. */
  function Image(ids: map<Id, Id>, ref: Id): Id {
    if ref in ids then ids[ref] else ref
  }

  // The copy of each row.

  function AgentCopy(row: AgentRow, t: Id, m: Ids): AgentRow {
    AgentRow(Some(t), row.name, m.workflow, row.isInitial, Link(m.positions, row.position), Link(m.configs, row.config))
  }

  function ToolCopy(row: ToolRow, t: Id, m: Ids): ToolRow {
    ToolRow(Some(t), row.name, m.workflow, Image(m.agents, row.agent), row.httpMethod,
            Link(m.positions, row.position), Link(m.configs, row.config))
  }

  function PositionCopy(row: PositionRow, t: Id, m: Ids): PositionRow {
    PositionRow(Some(t), m.workflow, Link(m.agents, row.agent), Link(m.tools, row.tool), row.x, row.y)
  }

  function ConfigCopy(row: ConfigRow, t: Id, m: Ids): ConfigRow {
    ConfigRow(Some(t), row.kind, m.workflow, Link(m.agents, row.agent), Link(m.tools, row.tool), row.config)
  }

  /** Empty edge data is stored as null. */
  function EdgeCopy(row: EdgeRow, t: Id, m: Ids): EdgeRow {
    EdgeRow(Some(t), m.workflow, Image(m.positions, row.source), Image(m.positions, row.target),
            if row.data.Some? && row.data.value != map[] then row.data else None)
  }

  function AgentCopies(db: Db, w: Id, t: Id, m: Ids): (r: map<Id, AgentRow>)
    ensures r.Keys == AgentsOf(db, w)
  {
    map a | a in AgentsOf(db, w) :: AgentCopy(db.agents[a], t, m)
  }

  function ToolCopies(db: Db, w: Id, t: Id, m: Ids): (r: map<Id, ToolRow>)
    ensures r.Keys == ToolsOf(db, w)
  {
    map k | k in ToolsOf(db, w) :: ToolCopy(db.tools[k], t, m)
  }

  function PositionCopies(db: Db, w: Id, t: Id, m: Ids): (r: map<Id, PositionRow>)
    ensures r.Keys == PositionsOf(db, w)
  {
    map p | p in PositionsOf(db, w) :: PositionCopy(db.positions[p], t, m)
  }

  function ConfigCopies(db: Db, w: Id, t: Id, m: Ids): (r: map<Id, ConfigRow>)
    ensures r.Keys == ConfigsOf(db, w)
  {
    map c | c in ConfigsOf(db, w) :: ConfigCopy(db.configs[c], t, m)
  }

  function EdgeCopies(db: Db, w: Id, t: Id, m: Ids): (r: map<Id, EdgeRow>)
    ensures r.Keys == EdgesOf(db, w)
  {
    map e | e in EdgesOf(db, w) :: EdgeCopy(db.edges[e], t, m)
  }

  ghost function Cloned(db: Db, w: Id, t: Id, m: Ids): Db
    requires w in db.workflows && Fresh(db, w, m)
  {
    db.(workflows := db.workflows[m.workflow :=
          WorkflowRow(t, db.workflows[w].name, Lower(db.workflows[w].name))],
        agents := Grow(db.agents, m.agents, AgentCopies(db, w, t, m)),
        tools := Grow(db.tools, m.tools, ToolCopies(db, w, t, m)),
        positions := Grow(db.positions, m.positions, PositionCopies(db, w, t, m)),
        configs := Grow(db.configs, m.configs, ConfigCopies(db, w, t, m)),
        edges := Grow(db.edges, m.edges, EdgeCopies(db, w, t, m)))
  }

  // When cloning fails, in the order in which the checks come.

  /** The target tenant exists and has no workflow of that name yet. */
  ghost predicate RoomFor(db: Db, name: string, t: Id) {
    && t in db.tenants
    && forall v :: v in db.workflows && db.workflows[v].tenant == t ==> db.workflows[v].nameLower != Lower(name)
  }

  ghost predicate NamesDistinct(db: Db, w: Id) {
    forall a, b | a in AgentsOf(db, w) && b in AgentsOf(db, w) && a != b :: db.agents[a].name != db.agents[b].name
  }

  /** Of a position's or config's two owners, exactly one belongs to the workflow. */
  predicate OneOwnerIn(db: Db, w: Id, agent: Option<Id>, tool: Option<Id>) {
    (agent.Some? && agent.value in AgentsOf(db, w)) != (tool.Some? && tool.value in ToolsOf(db, w))
  }

  /** Within the workflow, every position and config has exactly one owner. */
  ghost predicate OwnersPresent(db: Db, w: Id) {
    && (forall p :: p in PositionsOf(db, w) ==> OneOwnerIn(db, w, db.positions[p].agent, db.positions[p].tool))
    && (forall c :: c in ConfigsOf(db, w) ==> OneOwnerIn(db, w, db.configs[c].agent, db.configs[c].tool))
  }

  predicate LinkHits(ref: Option<Id>, rows: set<Id>) {
    ref.Some? ==> ref.value in rows
  }

  ghost predicate AgentLinksHit(db: Db, w: Id) {
    forall a :: a in AgentsOf(db, w) ==>
      LinkHits(db.agents[a].position, PositionsOf(db, w)) && LinkHits(db.agents[a].config, ConfigsOf(db, w))
  }

  ghost predicate ToolLinksHit(db: Db, w: Id) {
    forall k :: k in ToolsOf(db, w) ==>
      LinkHits(db.tools[k].position, PositionsOf(db, w)) && LinkHits(db.tools[k].config, ConfigsOf(db, w))
  }

  /** What goes wrong with the nodes, if anything. */
  ghost function NodesOutcome(db: Db, w: Id): Option<CloneError> {
    if !ToolsAttached(db, w) then Some(KeyError)
    else if !NamesDistinct(db, w) || !OwnersPresent(db, w) then Some(IntegrityError)
    else if !AgentLinksHit(db, w) || !ToolLinksHit(db, w) then Some(KeyError)
    else None
  }

  ghost function Outcome(db: Db, w: Id, t: Id): Option<CloneError> {
    if w !in db.workflows then Some(SourceNotFound)
    else if !RoomFor(db, db.workflows[w].name, t) then Some(IntegrityError)
    else if NodesOutcome(db, w).Some? then NodesOutcome(db, w)
    else if !EdgesHit(db, w) then Some(KeyError)
    else None
  }

  /** In a consistent database the graph itself can be cloned iff it is closed. */
  lemma ClonableIffClosed(db: Db, w: Id, t: Id)
    requires WellFormed(db) && w in db.workflows
    requires RoomFor(db, db.workflows[w].name, t) && NamesDistinct(db, w)
    ensures Outcome(db, w, t) == None <==> Closed(db, w)
  {
    if Closed(db, w) {
      forall p | p in PositionsOf(db, w) ensures OneOwnerIn(db, w, db.positions[p].agent, db.positions[p].tool) {
        assert PositionOk(db, p);
      }
      forall c | c in ConfigsOf(db, w) ensures OneOwnerIn(db, w, db.configs[c].agent, db.configs[c].tool) {
        assert ConfigOk(db, c);
      }
      LinksStayInWorkflow(db, w);
    }
  }

  /** The position and config a node links to belong to the node's workflow. */
  lemma LinksStayInWorkflow(db: Db, w: Id)
    requires WellFormed(db)
    ensures AgentLinksHit(db, w) && ToolLinksHit(db, w)
  {
    forall a | a in AgentsOf(db, w)
      ensures LinkHits(db.agents[a].position, PositionsOf(db, w)) && LinkHits(db.agents[a].config, ConfigsOf(db, w))
    {
      assert AgentOk(db, a);
      if db.agents[a].position.Some? { assert PositionOk(db, db.agents[a].position.value); }
      if db.agents[a].config.Some? { assert ConfigOk(db, db.agents[a].config.value); }
    }
    forall k | k in ToolsOf(db, w)
      ensures LinkHits(db.tools[k].position, PositionsOf(db, w)) && LinkHits(db.tools[k].config, ConfigsOf(db, w))
    {
      assert ToolOk(db, k);
      if db.tools[k].position.Some? { assert PositionOk(db, db.tools[k].position.value); }
      if db.tools[k].config.Some? { assert ConfigOk(db, db.tools[k].config.value); }
    }
  }

  /** Rows of one tenant in one workflow have distinct names. */
  lemma CarriedNamesDistinct(db: Db, w: Id, s: Id)
    requires WellFormed(db) && Carries(db, w, s)
    ensures NamesDistinct(db, w)
  {
  }
}
