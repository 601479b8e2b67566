/** That no workflow hangs on another's nodes, which cloning needs, and which operations keep it so. */
module ClosedWorkflows {
  import opened Wrappers
  import opened Tables
  import opened CloneSpec
  import CloneProofs
  import opened Mutations

  ghost predicate AllClosed(db: Db) {
    forall w :: Closed(db, w)
  }

  // The same, row by row.

  ghost predicate ToolInside(db: Db, k: Id)
    requires k in db.tools
  {
    var row := db.tools[k];
    row.agent in db.agents && db.agents[row.agent].workflow == row.workflow
  }

  ghost predicate EdgeInside(db: Db, row: EdgeRow) {
    && row.source in db.positions && db.positions[row.source].workflow == row.workflow
    && row.target in db.positions && db.positions[row.target].workflow == row.workflow
  }

  ghost predicate RowsInside(db: Db) {
    && (forall k {:trigger ToolInside(db, k)} :: k in db.tools ==> ToolInside(db, k))
    && (forall e {:trigger db.edges[e]} :: e in db.edges ==> EdgeInside(db, db.edges[e]))
  }

  lemma ClosedRows(db: Db)
    ensures AllClosed(db) <==> RowsInside(db)
  {
    if AllClosed(db) {
      forall k | k in db.tools ensures ToolInside(db, k) {
        assert Closed(db, db.tools[k].workflow) && k in ToolsOf(db, db.tools[k].workflow);
      }
      forall e | e in db.edges ensures EdgeInside(db, db.edges[e]) {
        assert Closed(db, db.edges[e].workflow) && e in EdgesOf(db, db.edges[e].workflow);
      }
    }
    if RowsInside(db) {
      forall w ensures Closed(db, w) {
        forall k | k in ToolsOf(db, w) ensures db.tools[k].agent in AgentsOf(db, w) {
          assert ToolInside(db, k);
        }
      }
    }
  }

  /** The two ways to break it: a tool for an agent of another workflow, and an edge that ends at a
      position of another workflow. */
  ghost predicate Crosses(db: Db, act: Action) {
    match act
    case CreateTool(_, _, _, w, agent, _, _, _) => agent in db.agents && db.agents[agent].workflow != w
    case CreateEdge(_, row) => !EdgeInside(db, row)
    case _ => false
  }

  lemma CloneKeepsInside(db: Db, w: Id, t: Id, m: Ids)
    requires WellFormed(db) && CloneProofs.Clones(db, w, t, m) && RowsInside(db)
    ensures RowsInside(Cloned(db, w, t, m))
  {
    CloneProofs.ClonedTables(db, w, t, m);
    CloneProofs.CloneRows(db, w, t, m);
    CloneProofs.CloneIsClosed(db, w, t, m);
    CopiesInside(db, m, Cloned(db, w, t, m));
  }

  lemma CopiesInside(db: Db, m: Ids, db': Db)
    requires Extends(db, db') && CloneProofs.NothingElse(db, m, db') && RowsInside(db) && Closed(db', m.workflow)
    requires ToolsOf(db', m.workflow) == m.tools.Values && EdgesOf(db', m.workflow) == m.edges.Values
    ensures RowsInside(db')
  {
    forall k | k in db'.tools ensures ToolInside(db', k) {
      if k in ToolsOf(db', m.workflow) {
        assert db'.tools[k].agent in AgentsOf(db', m.workflow);
      } else {
        assert ToolInside(db, k);
      }
    }
    forall e | e in db'.edges ensures EdgeInside(db', db'.edges[e]) {
      if e in EdgesOf(db', m.workflow) {
        assert db'.edges[e].source in PositionsOf(db', m.workflow);
      } else {
        assert EdgeInside(db, db.edges[e]);
      }
    }
  }

  lemma DeleteKeepsInside(db: Db, act: Action)
    requires WellFormed(db) && Enabled(db, act) && RowsInside(db) && (act.DeleteAgent? || act.DeleteTool?)
    ensures RowsInside(Applied(db, act))
  {
    var db' := Applied(db, act);
    forall k | k in db'.tools ensures ToolInside(db', k) {
      assert ToolInside(db, k);
    }
    forall e | e in db'.edges ensures EdgeInside(db', db'.edges[e]) {
      assert EdgeInside(db, db.edges[e]);
      assert PositionOk(db, db.edges[e].source) && PositionOk(db, db.edges[e].target);
    }
  }

  /** Rows keep their workflows, nodes and positions; no tool and no edge is added. */
  ghost predicate SamePlaces(db: Db, db': Db) {
    && db'.edges.Keys <= db.edges.Keys && db'.tools.Keys <= db.tools.Keys
    && db.agents.Keys <= db'.agents.Keys && db.positions.Keys <= db'.positions.Keys
    && (forall e :: e in db'.edges ==> db'.edges[e] == db.edges[e])
    && (forall k :: k in db'.tools ==>
          db'.tools[k].agent == db.tools[k].agent && db'.tools[k].workflow == db.tools[k].workflow)
    && (forall a :: a in db.agents ==> db'.agents[a].workflow == db.agents[a].workflow)
    && (forall p :: p in db.positions ==> db'.positions[p].workflow == db.positions[p].workflow)
  }

  lemma SamePlacesInside(db: Db, db': Db)
    requires RowsInside(db) && SamePlaces(db, db')
    ensures RowsInside(db')
  {
    forall k | k in db'.tools ensures ToolInside(db', k) {
      assert ToolInside(db, k);
    }
    forall e | e in db'.edges ensures EdgeInside(db', db'.edges[e]) {
      assert EdgeInside(db, db.edges[e]);
    }
  }

  lemma CreateToolInside(db: Db, act: Action)
    requires Enabled(db, act) && RowsInside(db) && act.CreateTool?
    ensures RowsInside(Applied(db, act)) <==> !Crosses(db, act)
  {
    var db' := Applied(db, act);
    assert ToolInside(db', act.ids.id) <==> !Crosses(db, act);
    forall k | k in db.tools ensures ToolInside(db', k) {
      assert ToolInside(db, k);
    }
    forall e | e in db'.edges ensures EdgeInside(db', db'.edges[e]) {
      assert EdgeInside(db, db.edges[e]);
    }
  }

  /** Exactly when an operation keeps every workflow closed. */
  lemma KeepsClosedIff(db: Db, act: Action)
    requires WellFormed(db) && Enabled(db, act) && AllClosed(db)
    ensures AllClosed(Applied(db, act)) <==> !Crosses(db, act)
  {
    ClosedRows(db);
    ClosedRows(Applied(db, act));
    RowsInsideIff(db, act);
  }

  lemma RowsInsideIff(db: Db, act: Action)
    requires WellFormed(db) && Enabled(db, act) && RowsInside(db)
    ensures RowsInside(Applied(db, act)) <==> !Crosses(db, act)
  {
    match act
    case CloneWorkflow(w, t, m) => CloneKeepsInside(db, w, t, m);
    case DeleteAgent(_) => DeleteKeepsInside(db, act);
    case DeleteTool(_) => DeleteKeepsInside(db, act);
    case CreateTool(_, _, _, _, _, _, _, _) => CreateToolInside(db, act);
    case CreateEdge(e, row) => CreateEdgeInside(db, e, row);
    case _ =>
      ActionKeepsPlaces(db, act);
      SamePlacesInside(db, Applied(db, act));
  }

  lemma ActionKeepsPlaces(db: Db, act: Action)
    requires Enabled(db, act)
    requires !act.CloneWorkflow? && !act.DeleteAgent? && !act.DeleteTool? && !act.CreateTool? && !act.CreateEdge?
    ensures SamePlaces(db, Applied(db, act))
  {
    if act.MovePositions? {
      MovesKeepRest(db.positions, act.moves, act.t);
    }
  }

  lemma CreateEdgeInside(db: Db, e: Id, row: EdgeRow)
    requires RowsInside(db) && e !in db.edges
    ensures RowsInside(db.(edges := db.edges[e := row])) <==> EdgeInside(db, row)
  {
    var db' := db.(edges := db.edges[e := row]);
    assert db'.edges[e] == row && EdgeInside(db', row) == EdgeInside(db, row);
    forall k | k in db'.tools ensures ToolInside(db', k) {
      assert ToolInside(db, k);
    }
    forall x | x in db.edges ensures EdgeInside(db', db'.edges[x]) {
      assert EdgeInside(db, db.edges[x]);
    }
  }

  /** Over runs: every workflow stays closed if no operation crosses workflows. */
  lemma {:induction false} RunKeepsClosed(trace: seq<Db>, acts: seq<Action>, i: nat)
    requires IsRun(trace, acts) && WellFormed(trace[0]) && AllClosed(trace[0]) && i < |trace|
    requires forall j :: 0 <= j < i ==> !Crosses(trace[j], acts[j])
    ensures AllClosed(trace[i])
  {
    if i > 0 {
      RunKeepsClosed(trace, acts, i - 1);
      RunKeepsWellFormed(trace, acts, i - 1);
      KeepsClosedIff(trace[i - 1], acts[i - 1]);
    }
  }

  /** The workflow an operation leaves open. */
  function Opened(act: Action): Id
    requires act.CreateTool? || act.CreateEdge?
  {
    if act.CreateTool? then act.w else act.row.workflow
  }

  /** After an operation that crosses workflows no tenant can clone the workflow it left open. */
  lemma CrossingStopsClones(db: Db, act: Action, t: Id)
    requires WellFormed(db) && Enabled(db, act) && Crosses(db, act)
    ensures Outcome(Applied(db, act), Opened(act), t) != None
  {
    var db', w := Applied(db, act), Opened(act);
    if act.CreateTool? {
      assert act.ids.id in ToolsOf(db', w) && db'.tools[act.ids.id].agent !in AgentsOf(db', w);
    } else {
      assert act.e in EdgesOf(db', w) && db'.edges[act.e] == act.row;
    }
    assert !Closed(db', w);
    ActionKeepsWellFormed(db, act);
    if RoomFor(db', db'.workflows[w].name, t) && NamesDistinct(db', w) {
      ClonableIffClosed(db', w, t);
    }
  }

  /** So, over runs without one, a workflow can be cloned exactly if there is room for its name and its
      agents' names differ. */
  lemma RunKeepsClonable(trace: seq<Db>, acts: seq<Action>, i: nat, w: Id, t: Id)
    requires IsRun(trace, acts) && WellFormed(trace[0]) && AllClosed(trace[0]) && i < |trace|
    requires forall j :: 0 <= j < i ==> !Crosses(trace[j], acts[j])
    requires w in trace[i].workflows
    ensures Outcome(trace[i], w, t) == None <==>
      RoomFor(trace[i], trace[i].workflows[w].name, t) && NamesDistinct(trace[i], w)
  {
    RunKeepsClosed(trace, acts, i);
    RunKeepsWellFormed(trace, acts, i);
    assert Closed(trace[i], w);
    if RoomFor(trace[i], trace[i].workflows[w].name, t) && NamesDistinct(trace[i], w) {
      ClonableIffClosed(trace[i], w, t);
    }
  }

  /** And only then: each operation that crosses leaves a workflow that no tenant can clone. */
  lemma RunCrossingStopsClones(trace: seq<Db>, acts: seq<Action>, i: nat, t: Id)
    requires IsRun(trace, acts) && WellFormed(trace[0]) && i < |acts| && Crosses(trace[i], acts[i])
    ensures Outcome(trace[i + 1], Opened(acts[i]), t) != None
  {
    RunKeepsWellFormed(trace, acts, i);
    CrossingStopsClones(trace[i], acts[i], t);
  }
}
