/** The repositories and facades that carry out single operations on the tables. */
module Repositories {
  import opened Wrappers
  import opened Tables
  import opened Session
  import opened Mutations
  import opened RowContents
  import AgentSettings

  datatype NodeError = AgentNotFound | AgentNameTaken | ToolNotFound | ToolNameTaken | EdgeNotFound | IntegrityError

  /** The id of a new row: the client's, or a fresh one. */
  method ChooseId(givenId: Option<Id>, taken: set<Id>) returns (id: Id)
    requires givenId.Some? ==> givenId.value !in taken
    ensures id !in taken && (givenId.Some? ==> id == givenId.value)
  {
    if givenId.Some? {
      id := givenId.value;
    } else {
      id := Uuid4(taken);
    }
  }

  method AddConfig(session: Session, row: ConfigRow) returns (c: Id)
    modifies session`configs
    ensures c !in old(session.configs) && session.configs == old(session.configs)[c := row]
  {
    c := Uuid4(session.configs.Keys);
    session.configs := session.configs[c := row];
  }

  method AddPosition(session: Session, row: PositionRow) returns (p: Id)
    modifies session`positions
    ensures p !in old(session.positions) && session.positions == old(session.positions)[p := row]
  {
    p := Uuid4(session.positions.Keys);
    session.positions := session.positions[p := row];
  }

  class AgentRepository {
    const session: Session

    constructor (session: Session)
      ensures this.session == session
    {
      this.session := session;
    }

    /** The three rows of a new agent; its links are set as their targets come into being. */
    method Insert(id: Id, t: Id, name: string, w: Id, isInitial: Option<bool>, kind: NodeKind, config: Dict)
      returns (ids: NewNode)
      requires id !in session.agents
      modifies session`agents, session`configs, session`positions
      ensures ids.id == id && Unused(old(session.Contents()), ids)
      ensures session.Contents() == WithAgent(old(session.Contents()), ids, t, name, w, isInitial, kind, config)
    {
      session.agents := session.agents[id := AgentRow(Some(t), name, w, isInitial, None, None)];
      var c := AddConfig(session, ConfigRow(Some(t), kind, w, Some(id), None, config));
      session.agents := session.agents[id := session.agents[id].(config := Some(c))];
      var p := AddPosition(session, PositionRow(Some(t), w, Some(id), None, 0.0, 0.0));
      session.agents := session.agents[id := session.agents[id].(position := Some(p))];
      ids := NewNode(id, c, p);
    }

    /** Creates an agent with its config, completed by defaults, and a position at the origin. */
    method Create(
      givenId: Option<Id>, t: Id, name: string, w: Id, isInitial: Option<bool>, kind: NodeKind, config: Dict)
      returns (r: Result<Id, NodeError>, ghost ids: NewNode)
      modifies session
      ensures r.Success? <==>
        && NameFree(old(session.Contents()), name, w) && w in old(session.workflows)
        && (givenId.Some? ==> givenId.value !in old(session.agents))
      ensures r.Success? ==>
        && ids.id == r.value && (givenId.Some? ==> r.value == givenId.value)
        && Enabled(old(session.Contents()), CreateAgent(ids, t, name, w, isInitial, kind, AgentSettings.Filled(config)))
        && session.Contents() ==
          WithAgent(old(session.Contents()), ids, t, name, w, isInitial, kind, AgentSettings.Filled(config))
      ensures r.Failure? ==> session.Contents() == old(session.Contents())
      ensures r.Success? ==>
        && AgentAdded(old(session.Contents()), session.Contents(), ids, t, name, w, isInitial)
        && NodeRowsAdded(old(session.Contents()), session.Contents(), ids, t, w, kind, AgentSettings.Filled(config))
      ensures r == Failure(AgentNameTaken) <==>
        exists a :: a in old(session.agents) && old(session.agents)[a].workflow == w &&
          old(session.agents)[a].name == name
      ensures r == Failure(AgentNameTaken) <==> !NameFree(old(session.Contents()), name, w)
    {
      ids := NewNode(0, 0, 0);
      if exists a | a in session.agents :: session.agents[a].workflow == w && session.agents[a].name == name {
        return Failure(AgentNameTaken), ids;
      }
      if w !in session.workflows || (givenId.Some? && givenId.value in session.agents) {
        return Failure(IntegrityError), ids;
      }
      var id := ChooseId(givenId, session.agents.Keys);
      var filled := AgentSettings.FillDefaults(config);
      ids := Insert(id, t, name, w, isInitial, kind, filled);
      AgentIsAdded(old(session.Contents()), ids, t, name, w, isInitial, kind, filled);
      r := Success(id);
    }

    /** Renames an agent of the tenant, and sets its flag if the payload has one. */
    method Update(a: Id, t: Id, name: string, isInitial: Option<bool>) returns (r: Result<AgentRow, NodeError>)
      modifies session`agents
      ensures r.Success? <==>
        && a in old(session.agents) && old(session.agents)[a].tenant == Some(t)
        && NameFreeFor(old(session.agents), a, name)
      ensures r.Success? ==>
        && Enabled(old(session.Contents()), UpdateAgent(a, t, name, isInitial))
        && session.Contents() == WithAgentUpdated(old(session.Contents()), a, name, isInitial)
        && r.value == session.agents[a]
      ensures r.Success? ==>
        && SameBut(old(session.agents), session.agents, a)
        && session.agents[a] == old(session.agents)[a].(name := name, isInitial := session.agents[a].isInitial)
        && (isInitial.None? ==> session.agents[a].isInitial == old(session.agents)[a].isInitial)
        && (isInitial.Some? ==> session.agents[a].isInitial == isInitial)
      ensures r.Failure? ==> session.agents == old(session.agents)
      ensures r == Failure(AgentNotFound) <==> !(a in old(session.agents) && old(session.agents)[a].tenant == Some(t))
      ensures r == Failure(IntegrityError) <==>
        a in old(session.agents) && old(session.agents)[a].tenant == Some(t) &&
        exists b :: b in old(session.agents) && b != a && old(session.agents)[b].tenant == Some(t) &&
          old(session.agents)[b].workflow == old(session.agents)[a].workflow && old(session.agents)[b].name == name
    {
      if a !in session.agents || session.agents[a].tenant != Some(t) {
        return Failure(AgentNotFound);
      }
      if exists b | b in session.agents ::
           b != a && session.agents[b].tenant == session.agents[a].tenant &&
           session.agents[b].workflow == session.agents[a].workflow && session.agents[b].name == name
      {
        return Failure(IntegrityError);
      }
      var updated := session.agents[a].(name := name);
      if isInitial.Some? {
        updated := updated.(isInitial := isInitial);
      }
      session.agents := session.agents[a := updated];
      r := Success(updated);
    }

    /** Deletes an agent that has no tools: first the edges at its position, then its config and
        position, then the agent. */
    method Delete(a: Id, t: Id) returns (r: Result<AgentRow, NodeError>)
      requires forall k :: k in session.tools ==> session.tools[k].agent != a
      modifies session
      ensures r.Success? <==> a in old(session.agents) && old(session.agents)[a].tenant == Some(t)
      ensures r.Success? ==>
        && Enabled(old(session.Contents()), DeleteAgent(a))
        && session.Contents() == WithoutAgent(old(session.Contents()), a)
        && AgentRemoved(old(session.Contents()), session.Contents(), a)
      ensures r.Failure? ==> r.error == AgentNotFound && session.Contents() == old(session.Contents())
    {
      if a !in session.agents || session.agents[a].tenant != Some(t) {
        return Failure(AgentNotFound);
      }
      ghost var db := session.Contents();
      var position := session.agents[a].position;
      if position.Some? {
        session.edges := EdgesAwayFrom(session.edges, position);
      }
      assert session.edges == EdgesAwayFrom(db.edges, position);
      session.agents := session.agents[a := session.agents[a].(config := None, position := None)];
      // the rows that name this agent as owner, directly or through the foreign key's cascade
      session.configs := map c | c in session.configs && session.configs[c].agent != Some(a) :: session.configs[c];
      session.positions := map p | p in session.positions && session.positions[p].agent != Some(a) ::
        session.positions[p];
      r := Success(session.agents[a]);
      session.agents := session.agents - {a};
      assert session.agents == db.agents - {a};
      assert session.Contents() == WithoutAgent(db, a);
      AgentIsRemoved(db, a);
    }
  }

  class ToolRepository {
    const session: Session

    constructor (session: Session)
      ensures this.session == session
    {
      this.session := session;
    }

    /** The three rows of a new tool; its links are set as their targets come into being. */
    method Insert(id: Id, t: Id, name: string, w: Id, agent: Id, httpMethod: string, kind: NodeKind, config: Dict)
      returns (ids: NewNode)
      requires id !in session.tools
      modifies session`tools, session`configs, session`positions
      ensures ids.id == id && Unused(old(session.Contents()), ids)
      ensures session.Contents() == WithTool(old(session.Contents()), ids, t, name, w, agent, httpMethod, kind, config)
    {
      session.tools := session.tools[id := ToolRow(Some(t), name, w, agent, httpMethod, None, None)];
      var c := AddConfig(session, ConfigRow(Some(t), kind, w, None, Some(id), config));
      session.tools := session.tools[id := session.tools[id].(config := Some(c))];
      var p := AddPosition(session, PositionRow(Some(t), w, None, Some(id), 0.0, 0.0));
      session.tools := session.tools[id := session.tools[id].(position := Some(p))];
      ids := NewNode(id, c, p);
    }

    /** Creates a tool with its config and a position at the origin. Any broken constraint is
        reported as a taken name. */
    method Create(
      givenId: Option<Id>, t: Id, name: string, w: Id, agent: Id, httpMethod: string, kind: NodeKind, config: Dict)
      returns (r: Result<Id, NodeError>, ghost ids: NewNode)
      modifies session
      ensures r.Success? <==>
        && w in old(session.workflows) && agent in old(session.agents)
        && (givenId.Some? ==> givenId.value !in old(session.tools))
      ensures r.Success? ==>
        && ids.id == r.value && (givenId.Some? ==> r.value == givenId.value)
        && Enabled(old(session.Contents()), CreateTool(ids, t, name, w, agent, httpMethod, kind, config))
        && session.Contents() == WithTool(old(session.Contents()), ids, t, name, w, agent, httpMethod, kind, config)
      ensures r.Success? ==>
        && ToolAdded(old(session.Contents()), session.Contents(), ids, t, name, w, agent, httpMethod)
        && NodeRowsAdded(old(session.Contents()), session.Contents(), ids, t, w, kind, config)
      ensures r.Failure? ==> r.error == ToolNameTaken && session.Contents() == old(session.Contents())
    {
      ids := NewNode(0, 0, 0);
      if w !in session.workflows || agent !in session.agents || (givenId.Some? && givenId.value in session.tools) {
        return Failure(ToolNameTaken), ids;
      }
      var id := ChooseId(givenId, session.tools.Keys);
      ids := Insert(id, t, name, w, agent, httpMethod, kind, config);
      ToolIsAdded(old(session.Contents()), ids, t, name, w, agent, httpMethod, kind, config);
      r := Success(id);
    }

    /** Renames a tool of the tenant and sets its HTTP method; its links stay. */
    method Update(k: Id, t: Id, name: string, httpMethod: string) returns (r: Result<ToolRow, NodeError>)
      modifies session`tools
      ensures r.Success? <==> k in old(session.tools) && old(session.tools)[k].tenant == Some(t)
      ensures r.Success? ==>
        && Enabled(old(session.Contents()), UpdateTool(k, t, name, httpMethod))
        && session.Contents() == WithToolUpdated(old(session.Contents()), k, name, httpMethod)
        && r.value == session.tools[k]
        && SameBut(old(session.tools), session.tools, k)
        && session.tools[k] == old(session.tools)[k].(name := name, httpMethod := httpMethod)
      ensures r.Failure? ==> r.error == ToolNotFound && session.tools == old(session.tools)
    {
      if k !in session.tools || session.tools[k].tenant != Some(t) {
        return Failure(ToolNotFound);
      }
      session.tools := session.tools[k := session.tools[k].(name := name, httpMethod := httpMethod)];
      r := Success(session.tools[k]);
    }

    method Delete(k: Id, t: Id) returns (r: Result<ToolRow, NodeError>)
      modifies session
      ensures r.Success? <==> k in old(session.tools) && old(session.tools)[k].tenant == Some(t)
      ensures r.Success? ==>
        && Enabled(old(session.Contents()), DeleteTool(k))
        && session.Contents() == WithoutTool(old(session.Contents()), k)
        && ToolRemoved(old(session.Contents()), session.Contents(), k)
      ensures r.Failure? ==> r.error == ToolNotFound && session.Contents() == old(session.Contents())
    {
      if k !in session.tools || session.tools[k].tenant != Some(t) {
        return Failure(ToolNotFound);
      }
      ghost var db := session.Contents();
      var position := session.tools[k].position;
      if position.Some? {
        session.edges := EdgesAwayFrom(session.edges, position);
      }
      assert session.edges == EdgesAwayFrom(db.edges, position);
      session.tools := session.tools[k := session.tools[k].(config := None, position := None)];
      session.configs := map c | c in session.configs && session.configs[c].tool != Some(k) :: session.configs[c];
      session.positions := map p | p in session.positions && session.positions[p].tool != Some(k) ::
        session.positions[p];
      r := Success(session.tools[k]);
      session.tools := session.tools - {k};
      assert session.tools == db.tools - {k};
      assert session.Contents() == WithoutTool(db, k);
      ToolIsRemoved(db, k);
    }
  }

  class ConfigRepository {
    const session: Session

    constructor (session: Session)
      ensures this.session == session
    {
      this.session := session;
    }

    /** Replaces the stored settings; None if the config is missing or another tenant's. */
    method Update(c: Id, config: Dict, t: Id) returns (r: Option<ConfigRow>)
      modifies session`configs
      ensures r.Some? <==> c in old(session.configs) && old(session.configs)[c].tenant == Some(t)
      ensures r.Some? ==>
        && Enabled(old(session.Contents()), UpdateConfig(c, t, config))
        && session.Contents() == WithConfigUpdated(old(session.Contents()), c, config)
        && r.value == session.configs[c]
        && SameBut(old(session.configs), session.configs, c)
        && session.configs[c] == old(session.configs)[c].(config := config)
      ensures r.None? ==> session.configs == old(session.configs)
    {
      if c !in session.configs || session.configs[c].tenant != Some(t) {
        return None;
      }
      session.configs := session.configs[c := session.configs[c].(config := config)];
      r := Some(session.configs[c]);
    }
  }

  class EdgeRepository {
    const session: Session

    constructor (session: Session)
      ensures this.session == session
    {
      this.session := session;
    }

    /** Adds an edge; the database checks its foreign keys and its id. */
    method Create(givenId: Option<Id>, row: EdgeRow) returns (r: Result<Id, NodeError>)
      modifies session`edges
      ensures r.Success? <==>
        && row.workflow in session.workflows && row.source in session.positions && row.target in session.positions
        && (givenId.Some? ==> givenId.value !in old(session.edges))
      ensures r.Success? ==>
        Enabled(old(session.Contents()), CreateEdge(r.value, row)) &&
          session.edges == old(session.edges)[r.value := row]
      ensures r.Failure? ==> r.error == IntegrityError && session.edges == old(session.edges)
    {
      if row.workflow !in session.workflows || row.source !in session.positions || row.target !in session.positions ||
         (givenId.Some? && givenId.value in session.edges)
      {
        return Failure(IntegrityError);
      }
      var e := ChooseId(givenId, session.edges.Keys);
      session.edges := session.edges[e := row];
      r := Success(e);
    }

    method Delete(e: Id, t: Id) returns (r: Result<EdgeRow, NodeError>)
      modifies session`edges
      ensures r.Success? <==> e in old(session.edges) && old(session.edges)[e].tenant == Some(t)
      ensures r.Success? ==> r.value == old(session.edges)[e] && session.edges == old(session.edges) - {e}
      ensures r.Failure? ==> r.error == EdgeNotFound && session.edges == old(session.edges)
    {
      if e !in session.edges || session.edges[e].tenant != Some(t) {
        return Failure(EdgeNotFound);
      }
      r := Success(session.edges[e]);
      session.edges := session.edges - {e};
    }
  }

  class PositionRepository {
    const session: Session

    constructor (session: Session)
      ensures this.session == session
    {
      this.session := session;
    }

    /** One placement; None if the position is missing or another tenant's. */
    method Update(move: Placement, t: Id) returns (r: Option<Placement>)
      modifies session`positions
      ensures session.positions == Placed(old(session.positions), move, t)
      ensures r == if Accepted(old(session.positions), move, t) then Some(move) else None
      ensures SameBut(old(session.positions), session.positions, move.id)
      ensures if move.id in old(session.positions) && old(session.positions)[move.id].tenant == Some(t) then
          r == Some(move) && move.id in session.positions && PlacedAt(session.positions[move.id], move, t)
        else
          r == None && session.positions == old(session.positions)
    {
      if move.id !in session.positions || session.positions[move.id].tenant != Some(t) {
        return None;
      }
      session.positions := session.positions[move.id :=
        PositionRow(Some(t), move.workflow, move.agent, move.tool, move.x, move.y)];
      r := Some(move);
    }

    /** A batch of placements, in order; the ones that do not count are skipped. */
    method UpdateBulk(moves: seq<Placement>, t: Id) returns (updated: seq<Placement>)
      modifies session`positions
      ensures session.positions == AllPlaced(old(session.positions), moves, t)
      ensures updated == AcceptedOf(old(session.positions), moves, t)
      ensures forall p :: MovedTo(old(session.positions), session.positions, moves, t, p)
    {
      updated := [];
      for i := 0 to |moves|
        invariant session.positions == AllPlaced(old(session.positions), moves[..i], t)
        invariant updated == AcceptedOf(old(session.positions), moves[..i], t)
      {
        assert moves[..i + 1][..i] == moves[..i];
        PlacingKeepsAcceptance(old(session.positions), moves[..i], t, moves[i]);
        var move := moves[i];
        if move.id in session.positions && session.positions[move.id].tenant == Some(t) {
          session.positions := session.positions[move.id :=
            PositionRow(Some(t), move.workflow, move.agent, move.tool, move.x, move.y)];
          updated := updated + [move];
        }
      }
      assert moves[..|moves|] == moves;
      forall p ensures MovedTo(old(session.positions), session.positions, moves, t, p) {
        MovesStored(old(session.positions), moves, t, p);
      }
    }
  }

  /** The placements of a batch that count; which ones is settled before the first is applied. */
  function AcceptedOf(positions: map<Id, PositionRow>, moves: seq<Placement>, t: Id): seq<Placement> {
    if moves == [] then []
    else
      var last := moves[|moves| - 1];
      AcceptedOf(positions, moves[..|moves| - 1], t) + if Accepted(positions, last, t) then [last] else []
  }

  lemma {:induction false} PlacingKeepsAcceptance(
    positions: map<Id, PositionRow>, moves: seq<Placement>, t: Id, move: Placement)
    ensures Accepted(AllPlaced(positions, moves, t), move, t) <==> Accepted(positions, move, t)
  {
    if moves != [] {
      PlacingKeepsAcceptance(positions, moves[..|moves| - 1], t, move);
      PlacingKeepsAcceptance(positions, moves[..|moves| - 1], t, moves[|moves| - 1]);
    }
  }
}
