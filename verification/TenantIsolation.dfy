/** That what one tenant does is not seen by another, and exactly when it is. */
module TenantIsolation {
  import opened Wrappers
  import opened Tables
  import Relabelling
  import opened CloneSpec
  import opened CloneProofs
  import opened Mutations
  import opened Runtime

  /** The tenant an operation is carried out for. */
  ghost function Actor(db: Db, act: Action): Option<Id>
    requires Enabled(db, act)
  {
    match act
    case CreateWorkflow(_, t, _) => Some(t)
    case CreateAgent(_, t, _, _, _, _, _) => Some(t)
    case CreateTool(_, t, _, _, _, _, _, _) => Some(t)
    case CreateEdge(_, row) => row.tenant
    case DeleteEdge(e) => db.edges[e].tenant
    case DeleteAgent(a) => db.agents[a].tenant
    case DeleteTool(k) => db.tools[k].tenant
    case MovePositions(_, t) => Some(t)
    case CloneWorkflow(_, t, _) => Some(t)
    case UpdateAgent(_, t, _, _) => Some(t)
    case UpdateTool(_, t, _, _) => Some(t)
    case UpdateConfig(_, t, _) => Some(t)
  }

  // The rows of one tenant.

  function AgentTenant(row: AgentRow): Option<Id> { row.tenant }

  function ToolTenant(row: ToolRow): Option<Id> { row.tenant }

  function PositionTenant(row: PositionRow): Option<Id> { row.tenant }

  function ConfigTenant(row: ConfigRow): Option<Id> { row.tenant }

  function EdgeTenant(row: EdgeRow): Option<Id> { row.tenant }

  function Own<R>(rows: map<Id, R>, tenantOf: R -> Option<Id>, u: Id): map<Id, R> {
    map x | x in rows && tenantOf(rows[x]) == Some(u) :: rows[x]
  }

  lemma OwnSame<R>(before: map<Id, R>, after: map<Id, R>, tenantOf: R -> Option<Id>, u: Id)
    requires forall x :: x in before && tenantOf(before[x]) == Some(u) ==> x in after && after[x] == before[x]
    requires forall x :: x in after && tenantOf(after[x]) == Some(u) ==> x in before && after[x] == before[x]
    ensures Own(after, tenantOf, u) == Own(before, tenantOf, u)
  {
  }

  lemma OwnGrown<R(!new)>(before: map<Id, R>, after: map<Id, R>, ids: map<Id, Id>, tenantOf: R -> Option<Id>, u: Id)
    requires Within(before, after) && forall x :: x in after ==> x in before || x in ids.Values
    requires forall x :: x in ids ==> ids[x] in after && tenantOf(after[ids[x]]) != Some(u)
    ensures Own(after, tenantOf, u) == Own(before, tenantOf, u)
  {
    forall y | y in ids.Values ensures y in after && tenantOf(after[y]) != Some(u) {
      assert ids[Relabelling.Origin(ids, y)] == y;
    }
    OwnSame(before, after, tenantOf, u);
  }

  // Positions and configs belong to the tenant of their node.

  ghost predicate OwnerShares(db: Db, tenant: Option<Id>, agent: Option<Id>, tool: Option<Id>) {
    && (agent.Some? ==> agent.value in db.agents && db.agents[agent.value].tenant == tenant)
    && (tool.Some? ==> tool.value in db.tools && db.tools[tool.value].tenant == tenant)
  }

  ghost predicate PositionShares(db: Db, p: Id)
    requires p in db.positions
  {
    OwnerShares(db, db.positions[p].tenant, db.positions[p].agent, db.positions[p].tool)
  }

  ghost predicate ConfigShares(db: Db, c: Id)
    requires c in db.configs
  {
    OwnerShares(db, db.configs[c].tenant, db.configs[c].agent, db.configs[c].tool)
  }

  ghost predicate OwnersShare(db: Db) {
    && (forall p {:trigger PositionShares(db, p)} :: p in db.positions ==> PositionShares(db, p))
    && (forall c {:trigger ConfigShares(db, c)} :: c in db.configs ==> ConfigShares(db, c))
  }

  lemma CloneKeepsOwners(db: Db, w: Id, t: Id, m: Ids)
    requires Clones(db, w, t, m) && OwnersShare(db)
    ensures OwnersShare(Cloned(db, w, t, m))
  {
    ClonedTables(db, w, t, m);
    CopiesShare(db, t, m, Cloned(db, w, t, m));
  }

  lemma CopiesShare(db: Db, t: Id, m: Ids, db': Db)
    requires Extends(db, db') && HoldsCopies(db, t, m, db') && NothingElse(db, m, db') && OwnersShare(db)
    ensures OwnersShare(db')
  {
    forall p | p in db'.positions ensures PositionShares(db', p) {
      if p in db.positions {
        assert PositionShares(db, p);
      } else {
        assert db'.positions[p] == PositionCopy(db.positions[Relabelling.Origin(m.positions, p)], t, m);
      }
    }
    forall c | c in db'.configs ensures ConfigShares(db', c) {
      if c in db.configs {
        assert ConfigShares(db, c);
      } else {
        assert db'.configs[c] == ConfigCopy(db.configs[Relabelling.Origin(m.configs, c)], t, m);
      }
    }
  }

  /** Each row of `db'` is as in `db` but for fields that do not tell whose it is; and every owner a row
      of `db'` names is still there. */
  ghost predicate KeepsOwners(db: Db, db': Db) {
    && (forall p :: p in db'.positions ==>
          && p in db.positions && db'.positions[p].tenant == db.positions[p].tenant
          && db'.positions[p].agent == db.positions[p].agent && db'.positions[p].tool == db.positions[p].tool
          && (db.positions[p].agent.Some? ==> db.positions[p].agent.value in db'.agents)
          && (db.positions[p].tool.Some? ==> db.positions[p].tool.value in db'.tools))
    && (forall c :: c in db'.configs ==>
          && c in db.configs && db'.configs[c].tenant == db.configs[c].tenant
          && db'.configs[c].agent == db.configs[c].agent && db'.configs[c].tool == db.configs[c].tool
          && (db.configs[c].agent.Some? ==> db.configs[c].agent.value in db'.agents)
          && (db.configs[c].tool.Some? ==> db.configs[c].tool.value in db'.tools))
    && (forall a :: a in db'.agents ==> a in db.agents && db'.agents[a].tenant == db.agents[a].tenant)
    && (forall k :: k in db'.tools ==> k in db.tools && db'.tools[k].tenant == db.tools[k].tenant)
  }

  lemma OwnersKept(db: Db, db': Db)
    requires OwnersShare(db) && KeepsOwners(db, db')
    ensures OwnersShare(db')
  {
    forall p | p in db'.positions ensures PositionShares(db', p) { assert PositionShares(db, p); }
    forall c | c in db'.configs ensures ConfigShares(db', c) { assert ConfigShares(db, c); }
  }

  lemma OwnersAdded(db: Db, act: Action)
    requires Enabled(db, act) && OwnersShare(db) && (act.CreateAgent? || act.CreateTool?)
    ensures OwnersShare(Applied(db, act))
  {
    var db' := Applied(db, act);
    forall p | p in db'.positions ensures PositionShares(db', p) {
      if p != act.ids.position { assert PositionShares(db, p); }
    }
    forall c | c in db'.configs ensures ConfigShares(db', c) {
      if c != act.ids.config { assert ConfigShares(db, c); }
    }
  }

  lemma DeleteStays(db: Db, act: Action)
    requires Enabled(db, act) && KeepsOwners(db, db) && (act.DeleteAgent? || act.DeleteTool?)
    ensures KeepsOwners(db, Applied(db, act))
  {
  }

  lemma DeleteKeepsOwners(db: Db, act: Action)
    requires Enabled(db, act) && OwnersShare(db) && (act.DeleteAgent? || act.DeleteTool?)
    ensures OwnersShare(Applied(db, act))
  {
    OwnersStay(db);
    DeleteStays(db, act);
    OwnersKept(db, Applied(db, act));
  }

  lemma MovesKeepOwners(db: Db, act: Action)
    requires Enabled(db, act) && OwnersShare(db) && act.MovePositions?
    ensures OwnersShare(Applied(db, act))
  {
    MovesKeepRest(db.positions, act.moves, act.t);
    OwnersStay(db);
    OwnersKept(db, Applied(db, act));
  }

  /** The operations that touch one row and no position. */
  predicate OneRow(act: Action) {
    act.CreateWorkflow? || act.CreateEdge? || act.DeleteEdge? || act.UpdateAgent? || act.UpdateTool? ||
      act.UpdateConfig?
  }

  lemma OneRowStays(db: Db, act: Action)
    requires Enabled(db, act) && KeepsOwners(db, db) && OneRow(act)
    ensures KeepsOwners(db, Applied(db, act))
  {
  }

  lemma OneRowKeepsOwners(db: Db, act: Action)
    requires Enabled(db, act) && OwnersShare(db) && OneRow(act)
    ensures OwnersShare(Applied(db, act))
  {
    OwnersStay(db);
    OneRowStays(db, act);
    OwnersKept(db, Applied(db, act));
  }

  lemma ActionKeepsOwners(db: Db, act: Action)
    requires Enabled(db, act) && OwnersShare(db)
    ensures OwnersShare(Applied(db, act))
  {
    match act
    case CloneWorkflow(w, t, m) => CloneKeepsOwners(db, w, t, m);
    case CreateAgent(_, _, _, _, _, _, _) => OwnersAdded(db, act);
    case CreateTool(_, _, _, _, _, _, _, _) => OwnersAdded(db, act);
    case DeleteAgent(_) => DeleteKeepsOwners(db, act);
    case DeleteTool(_) => DeleteKeepsOwners(db, act);
    case MovePositions(_, _) => MovesKeepOwners(db, act);
    case _ => OneRowKeepsOwners(db, act);
  }

  lemma OwnersStay(db: Db)
    requires OwnersShare(db)
    ensures KeepsOwners(db, db)
  {
    forall p | p in db.positions
      ensures OwnerShares(db, db.positions[p].tenant, db.positions[p].agent, db.positions[p].tool)
    {
      assert PositionShares(db, p);
    }
    forall c | c in db.configs ensures OwnerShares(db, db.configs[c].tenant, db.configs[c].agent, db.configs[c].tool) {
      assert ConfigShares(db, c);
    }
  }

  // What an operation does to the rows of another tenant.

  /** The position of the node an operation deletes. */
  function Vacated(db: Db, act: Action): Option<Id> {
    match act
    case DeleteAgent(a) => if a in db.agents then db.agents[a].position else None
    case DeleteTool(k) => if k in db.tools then db.tools[k].position else None
    case _ => None
  }

  predicate Touches(row: EdgeRow, position: Option<Id>) {
    Some(row.source) == position || Some(row.target) == position
  }

  /** The tenant's nodes, positions and configs are the same, and so are its edges but for those at one
      position. */
  ghost predicate OthersKept(db: Db, db': Db, u: Id, vacated: Option<Id>) {
    && Own(db'.agents, AgentTenant, u) == Own(db.agents, AgentTenant, u)
    && Own(db'.tools, ToolTenant, u) == Own(db.tools, ToolTenant, u)
    && Own(db'.positions, PositionTenant, u) == Own(db.positions, PositionTenant, u)
    && Own(db'.configs, ConfigTenant, u) == Own(db.configs, ConfigTenant, u)
    && Own(db'.edges, EdgeTenant, u) == Own(EdgesAwayFrom(db.edges, vacated), EdgeTenant, u)
  }

  lemma CloneOthersKept(db: Db, w: Id, t: Id, m: Ids, u: Id)
    requires Clones(db, w, t, m) && u != t
    ensures OthersKept(db, Cloned(db, w, t, m), u, None)
  {
    ClonedTables(db, w, t, m);
    CopiesOthersKept(db, t, m, Cloned(db, w, t, m), u);
  }

  lemma CopiesOthersKept(db: Db, t: Id, m: Ids, db': Db, u: Id)
    requires Extends(db, db') && HoldsCopies(db, t, m, db') && NothingElse(db, m, db') && u != t
    ensures OthersKept(db, db', u, None)
  {
    OwnGrown(db.agents, db'.agents, m.agents, AgentTenant, u);
    OwnGrown(db.tools, db'.tools, m.tools, ToolTenant, u);
    OwnGrown(db.positions, db'.positions, m.positions, PositionTenant, u);
    OwnGrown(db.configs, db'.configs, m.configs, ConfigTenant, u);
    OwnGrown(db.edges, db'.edges, m.edges, EdgeTenant, u);
    assert EdgesAwayFrom(db.edges, None) == db.edges;
  }

  lemma MovesOthersKept(positions: map<Id, PositionRow>, moves: seq<Placement>, t: Id, u: Id)
    requires u != t
    ensures Own(AllPlaced(positions, moves, t), PositionTenant, u) == Own(positions, PositionTenant, u)
  {
    if moves != [] {
      MovesOthersKept(positions, moves[..|moves| - 1], t, u);
    }
  }

  lemma DeleteOthersKept(db: Db, act: Action, u: Id)
    requires Enabled(db, act) && OwnersShare(db) && (act.DeleteAgent? || act.DeleteTool?)
    requires Actor(db, act) != Some(u)
    ensures OthersKept(db, Applied(db, act), u, Vacated(db, act))
  {
    var db' := Applied(db, act);
    forall p | p in db.positions && db.positions[p].tenant == Some(u) ensures p in db'.positions {
      assert PositionShares(db, p);
    }
    forall c | c in db.configs && db.configs[c].tenant == Some(u) ensures c in db'.configs {
      assert ConfigShares(db, c);
    }
    OwnSame(db.positions, db'.positions, PositionTenant, u);
    OwnSame(db.configs, db'.configs, ConfigTenant, u);
    OwnSame(db.agents, db'.agents, AgentTenant, u);
    OwnSame(db.tools, db'.tools, ToolTenant, u);
  }

  lemma CreateOthersKept(db: Db, act: Action, u: Id)
    requires Enabled(db, act) && (act.CreateAgent? || act.CreateTool?) && act.t != u
    ensures OthersKept(db, Applied(db, act), u, None)
  {
    var db' := Applied(db, act);
    assert EdgesAwayFrom(db.edges, None) == db.edges;
    OwnSame(db.agents, db'.agents, AgentTenant, u);
    OwnSame(db.tools, db'.tools, ToolTenant, u);
    OwnSame(db.positions, db'.positions, PositionTenant, u);
    OwnSame(db.configs, db'.configs, ConfigTenant, u);
  }

  lemma OneRowOthersKept(db: Db, act: Action, u: Id)
    requires Enabled(db, act) && OneRow(act) && Actor(db, act) != Some(u)
    ensures OthersKept(db, Applied(db, act), u, None)
  {
    var db' := Applied(db, act);
    assert EdgesAwayFrom(db.edges, None) == db.edges;
    OwnSame(db.agents, db'.agents, AgentTenant, u);
    OwnSame(db.tools, db'.tools, ToolTenant, u);
    OwnSame(db.configs, db'.configs, ConfigTenant, u);
    OwnSame(db.edges, db'.edges, EdgeTenant, u);
  }

  /** An operation leaves every row of every other tenant as it is, but for the edges at the position
      of a node it deletes, which go whoever's they are. */
  lemma OthersRowsKept(db: Db, act: Action, u: Id)
    requires Enabled(db, act) && OwnersShare(db) && Actor(db, act) != Some(u)
    ensures OthersKept(db, Applied(db, act), u, Vacated(db, act))
  {
    match act
    case CloneWorkflow(w, t, m) => CloneOthersKept(db, w, t, m, u);
    case DeleteAgent(_) => DeleteOthersKept(db, act, u);
    case DeleteTool(_) => DeleteOthersKept(db, act, u);
    case MovePositions(moves, t) =>
      MovesOthersKept(db.positions, moves, t, u);
      assert EdgesAwayFrom(db.edges, None) == db.edges;
    case CreateAgent(_, _, _, _, _, _, _) => CreateOthersKept(db, act, u);
    case CreateTool(_, _, _, _, _, _, _, _) => CreateOthersKept(db, act, u);
    case _ => OneRowOthersKept(db, act, u);
  }

  // What a tenant sees is settled by its own rows.

  lemma NodesSeenSame(db: Db, db': Db, w: Id, u: Id)
    requires RowsOk(db) && RowsOk(db') && OwnersShare(db)
    requires Own(db'.agents, AgentTenant, u) == Own(db.agents, AgentTenant, u)
    requires Own(db'.tools, ToolTenant, u) == Own(db.tools, ToolTenant, u)
    requires Own(db'.configs, ConfigTenant, u) == Own(db.configs, ConfigTenant, u)
    ensures AgentsSeen(db', w, u) == AgentsSeen(db, w, u)
  {
    forall a ensures a in AgentsVisible(db', w, u) <==> a in AgentsVisible(db, w, u)
             ensures a in AgentsVisible(db, w, u) ==> db'.agents[a] == db.agents[a] {
      assert a in Own(db'.agents, AgentTenant, u) <==> a in Own(db.agents, AgentTenant, u);
      assert a in Own(db.agents, AgentTenant, u) ==>
        Own(db'.agents, AgentTenant, u)[a] == Own(db.agents, AgentTenant, u)[a];
    }
    forall a | a in AgentsVisible(db, w, u) ensures AgentSeen(db', w, u, a) == AgentSeen(db, w, u, a) {
      AgentConfigSame(db, db', a, u);
      AgentPositionIsLinked(db, a);
      AgentPositionIsLinked(db', a);
      ToolsSeenSame(db, db', w, u, a);
    }
  }

  lemma AgentConfigSame(db: Db, db': Db, a: Id, u: Id)
    requires RowsOk(db) && RowsOk(db') && OwnersShare(db)
    requires a in db.agents && a in db'.agents && db'.agents[a] == db.agents[a] && db.agents[a].tenant == Some(u)
    requires Own(db'.configs, ConfigTenant, u) == Own(db.configs, ConfigTenant, u)
    ensures AgentConfig(db', a) == AgentConfig(db, a)
  {
    AgentConfigIsLinked(db, a);
    AgentConfigIsLinked(db', a);
    if db.agents[a].config.Some? {
      OwnConfig(db, db', db.agents[a].config.value, u) by { assert AgentOk(db, a); }
    }
  }

  lemma ToolConfigSame(db: Db, db': Db, k: Id, u: Id)
    requires RowsOk(db) && RowsOk(db') && OwnersShare(db)
    requires k in db.tools && k in db'.tools && db'.tools[k] == db.tools[k] && db.tools[k].tenant == Some(u)
    requires Own(db'.configs, ConfigTenant, u) == Own(db.configs, ConfigTenant, u)
    ensures ToolConfig(db', k) == ToolConfig(db, k)
  {
    ToolConfigIsLinked(db, k);
    ToolConfigIsLinked(db', k);
    if db.tools[k].config.Some? {
      OwnConfig(db, db', db.tools[k].config.value, u) by { assert ToolOk(db, k); }
    }
  }

  lemma OwnConfig(db: Db, db': Db, c: Id, u: Id)
    requires OwnersShare(db) && c in db.configs
    requires (db.configs[c].agent.Some? && db.configs[c].agent.value in db.agents &&
              db.agents[db.configs[c].agent.value].tenant == Some(u)) ||
             (db.configs[c].tool.Some? && db.configs[c].tool.value in db.tools &&
              db.tools[db.configs[c].tool.value].tenant == Some(u))
    requires Own(db'.configs, ConfigTenant, u) == Own(db.configs, ConfigTenant, u)
    ensures c in db'.configs && db'.configs[c] == db.configs[c]
  {
    assert ConfigShares(db, c);
    assert c in Own(db.configs, ConfigTenant, u) && c in Own(db'.configs, ConfigTenant, u);
    assert Own(db'.configs, ConfigTenant, u)[c] == Own(db.configs, ConfigTenant, u)[c];
  }

  lemma ToolsSeenSame(db: Db, db': Db, w: Id, u: Id, a: Id)
    requires RowsOk(db) && RowsOk(db') && OwnersShare(db)
    requires Own(db'.tools, ToolTenant, u) == Own(db.tools, ToolTenant, u)
    requires Own(db'.configs, ConfigTenant, u) == Own(db.configs, ConfigTenant, u)
    ensures ToolsSeen(db', w, u, a) == ToolsSeen(db, w, u, a)
  {
    forall k ensures k in ToolsVisible(db', w, u) <==> k in ToolsVisible(db, w, u)
             ensures k in ToolsVisible(db, w, u) ==> db'.tools[k] == db.tools[k] {
      assert k in Own(db'.tools, ToolTenant, u) <==> k in Own(db.tools, ToolTenant, u);
      assert k in Own(db.tools, ToolTenant, u) ==>
        Own(db'.tools, ToolTenant, u)[k] == Own(db.tools, ToolTenant, u)[k];
    }
    forall k | k in ToolsVisible(db, w, u) ensures ToolSeen(db', k) == ToolSeen(db, k) {
      ToolConfigSame(db, db', k, u);
    }
  }

  /** The tenant sees an edge at the node that goes. */
  ghost predicate Disturbs(db: Db, act: Action, w: Id, u: Id) {
    exists e :: e in EdgesVisible(db, w, u) && Touches(db.edges[e], Vacated(db, act))
  }

  lemma EdgesSeenSameIff(db: Db, db': Db, w: Id, u: Id, vacated: Option<Id>)
    requires Own(db'.edges, EdgeTenant, u) == Own(EdgesAwayFrom(db.edges, vacated), EdgeTenant, u)
    ensures EdgesSeen(db', w, u) == EdgesSeen(db, w, u) <==>
            !exists e :: e in EdgesVisible(db, w, u) && Touches(db.edges[e], vacated)
  {
    var away := EdgesAwayFrom(db.edges, vacated);
    forall e ensures e in EdgesVisible(db', w, u) <==>
                     e in EdgesVisible(db, w, u) && !Touches(db.edges[e], vacated)
             ensures e in EdgesVisible(db', w, u) ==> db'.edges[e] == db.edges[e] {
      assert e in Own(db'.edges, EdgeTenant, u) <==> e in Own(away, EdgeTenant, u);
      assert e in Own(away, EdgeTenant, u) ==> Own(db'.edges, EdgeTenant, u)[e] == Own(away, EdgeTenant, u)[e];
    }
    if e :| e in EdgesVisible(db, w, u) && Touches(db.edges[e], vacated) {
      assert e in EdgesSeen(db, w, u) && e !in EdgesSeen(db', w, u);
    }
  }

  /** Exactly when another tenant's operation leaves what a tenant sees of a workflow as it is: if it
      deletes no node with an edge of the tenant at it. */
  lemma SeenSameIff(db: Db, act: Action, w: Id, u: Id)
    requires WellFormed(db) && OwnersShare(db) && Enabled(db, act) && w in db.workflows
    requires Actor(db, act) != Some(u)
    ensures w in Applied(db, act).workflows
    ensures Seen(Applied(db, act), w, u) == Seen(db, w, u) <==> !Disturbs(db, act, w, u)
  {
    var db' := Applied(db, act);
    WorkflowStays(db, act, w);
    ActionKeepsWellFormed(db, act);
    OthersRowsKept(db, act, u);
    NodesSeenSame(db, db', w, u);
    EdgesSeenSameIff(db, db', w, u, Vacated(db, act));
  }

  lemma WorkflowStays(db: Db, act: Action, w: Id)
    requires Enabled(db, act) && w in db.workflows
    ensures w in Applied(db, act).workflows && Applied(db, act).workflows[w] == db.workflows[w]
  {
  }

  // Over runs.

  ghost predicate ByOthers(trace: seq<Db>, acts: seq<Action>, i: nat, j: nat, u: Id)
    requires IsRun(trace, acts) && i <= j <= |acts|
  {
    forall n :: i <= n < j ==> Actor(trace[n], acts[n]) != Some(u)
  }

  lemma {:induction false} RunKeepsOwners(trace: seq<Db>, acts: seq<Action>, i: nat)
    requires IsRun(trace, acts) && WellFormed(trace[0]) && OwnersShare(trace[0]) && i < |trace|
    ensures OwnersShare(trace[i])
  {
    if i > 0 {
      RunKeepsOwners(trace, acts, i - 1);
      RunKeepsWellFormed(trace, acts, i - 1);
      ActionKeepsOwners(trace[i - 1], acts[i - 1]);
    }
  }

  ghost predicate SeenAlike(db: Db, db': Db, w: Id, u: Id)
    requires w in db.workflows
  {
    w in db'.workflows && Seen(db', w, u) == Seen(db, w, u)
  }

  lemma {:induction false} AlikeAlong(trace: seq<Db>, i: nat, j: nat, w: Id, u: Id)
    requires i <= j < |trace| && w in trace[i].workflows
    requires forall n :: i <= n < j && w in trace[n].workflows ==> SeenAlike(trace[n], trace[n + 1], w, u)
    ensures SeenAlike(trace[i], trace[j], w, u)
  {
    if i < j {
      AlikeAlong(trace, i, j - 1, w, u);
      assert SeenAlike(trace[j - 1], trace[j - 1 + 1], w, u);
    }
  }

  lemma StepUnseen(trace: seq<Db>, acts: seq<Action>, n: nat, w: Id, u: Id)
    requires IsRun(trace, acts) && WellFormed(trace[0]) && OwnersShare(trace[0]) && n < |acts|
    requires w in trace[n].workflows && Actor(trace[n], acts[n]) != Some(u) && !Disturbs(trace[n], acts[n], w, u)
    ensures SeenAlike(trace[n], trace[n + 1], w, u)
  {
    RunKeepsWellFormed(trace, acts, n);
    RunKeepsOwners(trace, acts, n);
    SeenSameIff(trace[n], acts[n], w, u);
  }

  /** While only others are at work, and delete no node with an edge of the tenant at it, the tenant
      sees the same graph. */
  lemma RunUnseen(trace: seq<Db>, acts: seq<Action>, i: nat, j: nat, w: Id, u: Id)
    requires IsRun(trace, acts) && WellFormed(trace[0]) && OwnersShare(trace[0]) && i <= j < |trace|
    requires w in trace[i].workflows && ByOthers(trace, acts, i, j, u)
    requires forall n :: i <= n < j ==> !Disturbs(trace[n], acts[n], w, u)
    ensures SeenAlike(trace[i], trace[j], w, u)
  {
    forall n | i <= n < j && w in trace[n].workflows ensures SeenAlike(trace[n], trace[n + 1], w, u) {
      StepUnseen(trace, acts, n, w, u);
    }
    AlikeAlong(trace, i, j, w, u);
  }

  // Edges that end at nodes of their own tenant make it unconditional.

  ghost predicate EndsOwn(db: Db, row: EdgeRow) {
    && row.source in db.positions && db.positions[row.source].tenant == row.tenant
    && row.target in db.positions && db.positions[row.target].tenant == row.tenant
  }

  ghost predicate AllEndsOwn(db: Db) {
    forall e {:trigger db.edges[e]} :: e in db.edges ==> EndsOwn(db, db.edges[e])
  }

  lemma EdgesMapped(db: Db, w: Id, t: Id, m: Ids)
    requires Clones(db, w, t, m)
    ensures forall e :: e in m.edges ==>
      e in db.edges && db.edges[e].source in m.positions && db.edges[e].target in m.positions
  {
    assert m.edges.Keys == EdgesOf(db, w) && m.positions.Keys == PositionsOf(db, w);
  }

  lemma CopiesEndsOwn(db: Db, w: Id, t: Id, m: Ids, db': Db)
    requires Extends(db, db') && HoldsCopies(db, t, m, db') && NothingElse(db, m, db') && AllEndsOwn(db)
    requires Clones(db, w, t, m)
    ensures AllEndsOwn(db')
  {
    EdgesMapped(db, w, t, m);
    forall e | e in db'.edges ensures EndsOwn(db', db'.edges[e]) {
      if e in db.edges {
        assert EndsOwn(db, db.edges[e]);
      } else {
        var x := Relabelling.Origin(m.edges, e);
        assert db'.edges[e] == EdgeCopy(db.edges[x], t, m) && x in m.edges;
      }
    }
  }

  /** No edge is added, and the ends of those that stay keep their tenants. */
  ghost predicate KeepsEnds(db: Db, db': Db) {
    forall e :: e in db'.edges ==>
      && e in db.edges && db'.edges[e] == db.edges[e]
      && (forall p :: p in {db.edges[e].source, db.edges[e].target} && p in db.positions ==>
            p in db'.positions && db'.positions[p].tenant == db.positions[p].tenant)
  }

  lemma EndsKept(db: Db, db': Db)
    requires AllEndsOwn(db) && KeepsEnds(db, db')
    ensures AllEndsOwn(db')
  {
    forall e | e in db'.edges ensures EndsOwn(db', db'.edges[e]) {
      assert EndsOwn(db, db.edges[e]);
    }
  }

  lemma DeleteKeepsEnds(db: Db, act: Action)
    requires RowsOk(db) && Enabled(db, act) && (act.DeleteAgent? || act.DeleteTool?)
    ensures KeepsEnds(db, Applied(db, act))
  {
    forall p | p in db.positions ensures PositionOk(db, p) {
    }
  }

  lemma CreateEdgeEnds(db: Db, e: Id, row: EdgeRow)
    requires AllEndsOwn(db) && e !in db.edges
    ensures AllEndsOwn(db.(edges := db.edges[e := row])) <==> EndsOwn(db, row)
  {
    var db' := db.(edges := db.edges[e := row]);
    assert db'.edges[e] == row && EndsOwn(db', row) == EndsOwn(db, row);
    forall x | x in db.edges ensures EndsOwn(db', db'.edges[x]) {
      assert EndsOwn(db, db.edges[x]);
    }
  }

  lemma OthersKeepEnds(db: Db, act: Action)
    requires Enabled(db, act) && (act.CreateAgent? || act.CreateTool? || (OneRow(act) && !act.CreateEdge?))
    ensures KeepsEnds(db, Applied(db, act))
  {
  }

  lemma ActionKeepsEnds(db: Db, act: Action)
    requires RowsOk(db) && Enabled(db, act) && !act.CloneWorkflow? && !act.CreateEdge?
    ensures KeepsEnds(db, Applied(db, act))
  {
    match act
    case DeleteAgent(_) => DeleteKeepsEnds(db, act);
    case DeleteTool(_) => DeleteKeepsEnds(db, act);
    case MovePositions(moves, t) => MovesKeepRest(db.positions, moves, t);
    case _ => OthersKeepEnds(db, act);
  }

  lemma CloneKeepsEnds(db: Db, w: Id, t: Id, m: Ids)
    requires Clones(db, w, t, m) && AllEndsOwn(db)
    ensures AllEndsOwn(Cloned(db, w, t, m))
  {
    ClonedTables(db, w, t, m);
    CopiesEndsOwn(db, w, t, m, Cloned(db, w, t, m));
  }

  /** Exactly when an operation keeps every edge between nodes of its own tenant. */
  lemma KeepsEndsOwnIff(db: Db, act: Action)
    requires RowsOk(db) && Enabled(db, act) && AllEndsOwn(db)
    ensures AllEndsOwn(Applied(db, act)) <==> (act.CreateEdge? ==> EndsOwn(db, act.row))
  {
    match act
    case CloneWorkflow(w, t, m) => CloneKeepsEnds(db, w, t, m);
    case CreateEdge(e, row) => CreateEdgeEnds(db, e, row);
    case _ =>
      ActionKeepsEnds(db, act);
      EndsKept(db, Applied(db, act));
  }

  lemma {:induction false} RunKeepsEndsOwn(trace: seq<Db>, acts: seq<Action>, i: nat)
    requires IsRun(trace, acts) && WellFormed(trace[0]) && AllEndsOwn(trace[0]) && i < |trace|
    requires forall n :: 0 <= n < i && acts[n].CreateEdge? ==> EndsOwn(trace[n], acts[n].row)
    ensures AllEndsOwn(trace[i])
  {
    if i > 0 {
      RunKeepsEndsOwn(trace, acts, i - 1);
      RunKeepsWellFormed(trace, acts, i - 1);
      KeepsEndsOwnIff(trace[i - 1], acts[i - 1]);
    }
  }

  lemma OwnEndsUndisturbed(db: Db, act: Action, w: Id, u: Id)
    requires RowsOk(db) && OwnersShare(db) && AllEndsOwn(db) && Enabled(db, act) && Actor(db, act) != Some(u)
    ensures !Disturbs(db, act, w, u)
  {
    var vacated := Vacated(db, act);
    if vacated.Some? {
      match act {
        case DeleteAgent(a) => assert AgentOk(db, a);
        case DeleteTool(k) => assert ToolOk(db, k);
      }
      assert PositionShares(db, vacated.value);
      forall e | e in EdgesVisible(db, w, u) ensures !Touches(db.edges[e], vacated) {
        assert EndsOwn(db, db.edges[e]);
      }
    }
  }

  /** Tenant isolation: in every run in which each new edge joins nodes of its own tenant, nothing that
      others do changes what a tenant sees of any workflow. */
  lemma TenantsIsolated(trace: seq<Db>, acts: seq<Action>, i: nat, j: nat, w: Id, u: Id)
    requires IsRun(trace, acts) && WellFormed(trace[0]) && OwnersShare(trace[0]) && AllEndsOwn(trace[0])
    requires forall n :: 0 <= n < |acts| && acts[n].CreateEdge? ==> EndsOwn(trace[n], acts[n].row)
    requires i <= j < |trace| && w in trace[i].workflows && ByOthers(trace, acts, i, j, u)
    ensures SeenAlike(trace[i], trace[j], w, u)
  {
    forall n | i <= n < j ensures !Disturbs(trace[n], acts[n], w, u) {
      RunKeepsWellFormed(trace, acts, n);
      RunKeepsOwners(trace, acts, n);
      RunKeepsEndsOwn(trace, acts, n);
      OwnEndsUndisturbed(trace[n], acts[n], w, u);
    }
    RunUnseen(trace, acts, i, j, w, u);
  }
}
