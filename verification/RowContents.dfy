/** What single operations leave in the tables, row by row and field by field. */
module RowContents {
  import opened Wrappers
  import opened Tables
  import opened Mutations

  /** All rows but those under one id are the same. */
  ghost predicate SameBut<R(!new)>(before: map<Id, R>, after: map<Id, R>, id: Id) {
    forall x :: x != id ==> (x in before <==> x in after) && (x in before ==> after[x] == before[x])
  }

  ghost predicate SameTenantsAndWorkflows(db: Db, db': Db) {
    db'.tenants == db.tenants && db'.workflows == db.workflows
  }

  /** A config and a position of a new node: new rows of its tenant and workflow, the position at the
      origin. */
  ghost predicate NodeRowsAdded(db: Db, db': Db, ids: NewNode, t: Id, w: Id, kind: NodeKind, config: Dict) {
    && ids.config !in db.configs && ids.config in db'.configs && SameBut(db.configs, db'.configs, ids.config)
    && ids.position !in db.positions && ids.position in db'.positions
    && SameBut(db.positions, db'.positions, ids.position)
    && db'.configs[ids.config].tenant == Some(t) && db'.configs[ids.config].workflow == w
    && db'.configs[ids.config].kind == kind && db'.configs[ids.config].config == config
    && db'.positions[ids.position].tenant == Some(t) && db'.positions[ids.position].workflow == w
    && db'.positions[ids.position].x == 0.0 && db'.positions[ids.position].y == 0.0
  }

  ghost predicate OwnedBy(db: Db, ids: NewNode, agent: Option<Id>, tool: Option<Id>) {
    && ids.config in db.configs && db.configs[ids.config].agent == agent && db.configs[ids.config].tool == tool
    && ids.position in db.positions
    && db.positions[ids.position].agent == agent && db.positions[ids.position].tool == tool
  }

  /** A new agent, with what belongs to it and nothing else. */
  ghost predicate AgentAdded(db: Db, db': Db, ids: NewNode, t: Id, name: string, w: Id, isInitial: Option<bool>) {
    && SameTenantsAndWorkflows(db, db') && db'.tools == db.tools && db'.edges == db.edges
    && ids.id !in db.agents && ids.id in db'.agents && SameBut(db.agents, db'.agents, ids.id)
    && db'.agents[ids.id].tenant == Some(t) && db'.agents[ids.id].workflow == w
    && db'.agents[ids.id].name == name && db'.agents[ids.id].isInitial == isInitial
    && db'.agents[ids.id].config == Some(ids.config) && db'.agents[ids.id].position == Some(ids.position)
    && OwnedBy(db', ids, Some(ids.id), None)
  }

  ghost predicate ToolAdded(
    db: Db, db': Db, ids: NewNode, t: Id, name: string, w: Id, agent: Id, httpMethod: string)
  {
    && SameTenantsAndWorkflows(db, db') && db'.agents == db.agents && db'.edges == db.edges
    && ids.id !in db.tools && ids.id in db'.tools && SameBut(db.tools, db'.tools, ids.id)
    && db'.tools[ids.id].tenant == Some(t) && db'.tools[ids.id].workflow == w
    && db'.tools[ids.id].name == name && db'.tools[ids.id].httpMethod == httpMethod
    && db'.tools[ids.id].agent == agent
    && db'.tools[ids.id].config == Some(ids.config) && db'.tools[ids.id].position == Some(ids.position)
    && OwnedBy(db', ids, None, Some(ids.id))
  }

  /** Some rows are gone, the others are as they were. */
  ghost predicate OnlyGone<R(!new)>(before: map<Id, R>, after: map<Id, R>, gone: iset<Id>) {
    (forall x :: x in after <==> x in before && x !in gone) && forall x :: x in after ==> after[x] == before[x]
  }

  /** Exactly the agent, the configs and positions it owns and the edges at its position are gone. */
  ghost predicate AgentRemoved(db: Db, db': Db, a: Id) {
    && SameTenantsAndWorkflows(db, db') && db'.tools == db.tools
    && a in db.agents && OnlyGone(db.agents, db'.agents, iset{a})
    && OnlyGone(db.configs, db'.configs, iset c | c in db.configs && db.configs[c].agent == Some(a))
    && OnlyGone(db.positions, db'.positions, iset p | p in db.positions && db.positions[p].agent == Some(a))
    && OnlyGone(db.edges, db'.edges, iset e | e in db.edges &&
         (db.agents[a].position == Some(db.edges[e].source) || db.agents[a].position == Some(db.edges[e].target)))
  }

  ghost predicate ToolRemoved(db: Db, db': Db, k: Id) {
    && SameTenantsAndWorkflows(db, db') && db'.agents == db.agents
    && k in db.tools && OnlyGone(db.tools, db'.tools, iset{k})
    && OnlyGone(db.configs, db'.configs, iset c | c in db.configs && db.configs[c].tool == Some(k))
    && OnlyGone(db.positions, db'.positions, iset p | p in db.positions && db.positions[p].tool == Some(k))
    && OnlyGone(db.edges, db'.edges, iset e | e in db.edges &&
         (db.tools[k].position == Some(db.edges[e].source) || db.tools[k].position == Some(db.edges[e].target)))
  }

  /** Where a move puts a position, and whose it makes it. */
  predicate PlacedAt(row: PositionRow, move: Placement, t: Id) {
    && row.tenant == Some(t) && row.workflow == move.workflow && row.agent == move.agent && row.tool == move.tool
    && row.x == move.x && row.y == move.y
  }

  ghost predicate NamesPosition(moves: seq<Placement>, from: nat, p: Id) {
    exists i :: from <= i < |moves| && moves[i].id == p
  }

  /** What a batch leaves of one position: where the last move for it puts it if it is the tenant's, and
      otherwise as it was. */
  ghost predicate MovedTo(
    before: map<Id, PositionRow>, after: map<Id, PositionRow>, moves: seq<Placement>, t: Id, p: Id)
  {
    && (p in after <==> p in before)
    && (p in before ==>
          && (before[p].tenant != Some(t) || !NamesPosition(moves, 0, p) ==> after[p] == before[p])
          && (before[p].tenant == Some(t) ==>
                forall i :: 0 <= i < |moves| && moves[i].id == p && !NamesPosition(moves, i + 1, p) ==>
                  PlacedAt(after[p], moves[i], t)))
  }

  lemma NamesBefore(moves: seq<Placement>, from: nat, p: Id)
    requires moves != [] && from < |moves|
    ensures NamesPosition(moves, from, p) <==>
      NamesPosition(moves[..|moves| - 1], from, p) || moves[|moves| - 1].id == p
  {
    var n := |moves| - 1;
    if i :| from <= i < |moves| && moves[i].id == p {
      assert i < n ==> moves[..n][i].id == p;
    }
    if i :| from <= i < n && moves[..n][i].id == p {
      assert moves[i].id == p;
    }
  }

  lemma MoveStored(
    before: map<Id, PositionRow>, mid: map<Id, PositionRow>, moves: seq<Placement>, t: Id, p: Id)
    requires moves != [] && MovedTo(before, mid, moves[..|moves| - 1], t, p)
    requires p in before && before[p].tenant == Some(t) ==> mid[p].tenant == Some(t)
    ensures MovedTo(before, Placed(mid, moves[|moves| - 1], t), moves, t, p)
  {
    var n := |moves| - 1;
    var after := Placed(mid, moves[n], t);
    NamesBefore(moves, 0, p);
    if moves[n].id == p {
      forall i | 0 <= i < |moves| && moves[i].id == p ensures i == n || NamesPosition(moves, i + 1, p) {
        assert i < n ==> i + 1 <= n && moves[n].id == p;
      }
    } else {
      assert p in after <==> p in mid;
      forall i | 0 <= i < |moves| && moves[i].id == p && !NamesPosition(moves, i + 1, p)
        ensures i < n && moves[..n][i] == moves[i] && !NamesPosition(moves[..n], i + 1, p)
      {
        NamesBefore(moves, i + 1, p);
      }
    }
  }

  lemma {:induction false} OwnersKeep(positions: map<Id, PositionRow>, moves: seq<Placement>, t: Id, p: Id)
    requires p in positions && positions[p].tenant == Some(t)
    ensures p in AllPlaced(positions, moves, t) && AllPlaced(positions, moves, t)[p].tenant == Some(t)
  {
    if moves != [] {
      OwnersKeep(positions, moves[..|moves| - 1], t, p);
    }
  }

  lemma {:induction false} MovesStored(positions: map<Id, PositionRow>, moves: seq<Placement>, t: Id, p: Id)
    ensures MovedTo(positions, AllPlaced(positions, moves, t), moves, t, p)
  {
    if moves != [] {
      var n := |moves| - 1;
      MovesStored(positions, moves[..n], t, p);
      if p in positions && positions[p].tenant == Some(t) {
        OwnersKeep(positions, moves[..n], t, p);
      }
      MoveStored(positions, AllPlaced(positions, moves[..n], t), moves, t, p);
    }
  }

  // The specifications of the operations do that.

  lemma AgentIsAdded(
    db: Db, ids: NewNode, t: Id, name: string, w: Id, isInitial: Option<bool>, kind: NodeKind, config: Dict)
    requires ids.id !in db.agents && Unused(db, ids)
    ensures var db' := WithAgent(db, ids, t, name, w, isInitial, kind, config);
      AgentAdded(db, db', ids, t, name, w, isInitial) && NodeRowsAdded(db, db', ids, t, w, kind, config)
  {
  }

  lemma ToolIsAdded(
    db: Db, ids: NewNode, t: Id, name: string, w: Id, agent: Id, httpMethod: string, kind: NodeKind, config: Dict)
    requires ids.id !in db.tools && Unused(db, ids)
    ensures var db' := WithTool(db, ids, t, name, w, agent, httpMethod, kind, config);
      ToolAdded(db, db', ids, t, name, w, agent, httpMethod) && NodeRowsAdded(db, db', ids, t, w, kind, config)
  {
  }

  lemma AgentIsRemoved(db: Db, a: Id)
    requires a in db.agents
    ensures AgentRemoved(db, WithoutAgent(db, a), a)
  {
  }

  lemma ToolIsRemoved(db: Db, k: Id)
    requires k in db.tools
    ensures ToolRemoved(db, WithoutTool(db, k), k)
  {
  }
}
