/** A cloned workflow hands calls over exactly as its source does. */
module CloneHandoff {
  import opened Wrappers
  import opened Tables
  import opened Relabelling
  import opened CloneSpec
  import CloneProofs
  import opened CloneCommutes
  import opened Runtime
  import opened Handoff

  /** The maps rename everything the view mentions, and nothing twice. */
  ghost predicate Renames(m: Ids, view: WorkflowView) {
    && m.agents.Keys == view.agents.Keys && m.edges.Keys == view.edges.Keys
    && Injective(m.agents) && Injective(m.positions) && Injective(m.edges)
    && (forall a :: a in view.agents ==> LinkHits(view.agents[a].position, m.positions.Keys))
    && (forall e :: e in view.edges ==>
          view.edges[e].source in m.positions && view.edges[e].target in m.positions)
  }

  lemma CloneRenames(db: Db, w: Id, s: Id, t: Id, m: Ids)
    requires WellFormed(db) && CloneProofs.Clones(db, w, t, m) && Carries(db, w, s)
    ensures Renames(m, Seen(db, w, s))
  {
    AllVisible(db, w, s);
    RenamesSeen(db, w, s, m);
  }

  lemma RenamesSeen(db: Db, w: Id, s: Id, m: Ids)
    requires RowsOk(db) && w in db.workflows
    requires m.agents.Keys == AgentsVisible(db, w, s) == AgentsOf(db, w)
    requires m.edges.Keys == EdgesVisible(db, w, s) == EdgesOf(db, w)
    requires m.positions.Keys == PositionsOf(db, w) && AgentLinksHit(db, w) && EdgesHit(db, w)
    requires Injective(m.agents) && Injective(m.positions) && Injective(m.edges)
    ensures Renames(m, Seen(db, w, s))
  {
    forall a | a in AgentsOf(db, w) ensures LinkHits(AgentPosition(db, a), m.positions.Keys) {
      AgentPositionIsLinked(db, a);
    }
  }

  lemma RenamedAgent(view: WorkflowView, m: Ids, a: Id)
    requires Renames(m, view) && a in view.agents
    ensures m.agents[a] in Rename(view, m).agents
    ensures Rename(view, m).agents[m.agents[a]] == RenameAgent(view.agents[a], m)
  {
    assert m.agents[a] in m.agents.Values && Origin(m.agents, m.agents[a]) == a;
  }

  lemma RenamedEdge(view: WorkflowView, m: Ids, e: Id)
    requires Renames(m, view) && e in view.edges
    ensures m.edges[e] in Rename(view, m).edges
    ensures Rename(view, m).edges[m.edges[e]] == RenameEdge(view.edges[e], m)
  {
    assert m.edges[e] in m.edges.Values && Origin(m.edges, m.edges[e]) == e;
  }

  lemma StepRenamed(view: WorkflowView, m: Ids, a: Id, b: Id)
    requires Renames(m, view) && a in view.agents && b in view.agents
    ensures Step(Rename(view, m), m.agents[a], m.agents[b]) <==> Step(view, a, b)
  {
    var view' := Rename(view, m);
    RenamedAgent(view, m, a);
    RenamedAgent(view, m, b);
    if e :| e in view.edges && view.agents[a].position == Some(view.edges[e].source) &&
            view.agents[b].position == Some(view.edges[e].target) {
      RenamedEdge(view, m, e);
      assert m.edges[e] in view'.edges;
    }
    if Step(view', m.agents[a], m.agents[b]) {
      var x :| x in view'.edges && view'.agents[m.agents[a]].position == Some(view'.edges[x].source) &&
               view'.agents[m.agents[b]].position == Some(view'.edges[x].target);
      var e := Origin(m.edges, x);
      RenamedEdge(view, m, e);
      assert LinkHits(view.agents[a].position, m.positions.Keys);
      assert LinkHits(view.agents[b].position, m.positions.Keys);
      assert view.agents[a].position == Some(view.edges[e].source);
      assert view.agents[b].position == Some(view.edges[e].target);
    }
  }

  /** `ids` carries the steps of one view to the steps of the other. */
  ghost predicate SameSteps(view: WorkflowView, view': WorkflowView, ids: map<Id, Id>) {
    && ids.Keys == view.agents.Keys && ids.Values == view'.agents.Keys
    && forall a, b | a in ids && b in ids :: Step(view', ids[a], ids[b]) <==> Step(view, a, b)
  }

  lemma RenameKeepsSteps(view: WorkflowView, m: Ids)
    requires Renames(m, view)
    ensures SameSteps(view, Rename(view, m), m.agents)
  {
    forall x | x in m.agents.Values ensures x in Rename(view, m).agents {
      RenamedAgent(view, m, Origin(m.agents, x));
    }
    forall a, b | a in m.agents && b in m.agents
      ensures Step(Rename(view, m), m.agents[a], m.agents[b]) <==> Step(view, a, b)
    {
      StepRenamed(view, m, a, b);
    }
  }

  function RenamePath(path: seq<Id>, ids: map<Id, Id>): (r: seq<Id>)
    ensures |r| == |path| && forall i :: 0 <= i < |path| ==> r[i] == Image(ids, path[i])
  {
    seq(|path|, i requires 0 <= i < |path| => Image(ids, path[i]))
  }

  lemma {:induction false} PathRenamed(view: WorkflowView, view': WorkflowView, ids: map<Id, Id>, path: seq<Id>)
    requires SameSteps(view, view', ids) && forall i :: 0 <= i < |path| ==> path[i] in ids
    ensures Path(view', RenamePath(path, ids)) <==> Path(view, path)
  {
    if |path| > 1 {
      PathRenamed(view, view', ids, path[1..]);
      assert RenamePath(path, ids)[1..] == RenamePath(path[1..], ids);
      assert path[0] in ids && path[1] in ids;
    }
  }

  /** A path that starts at an agent visits agents only. */
  lemma {:induction false} PathStaysInView(view: WorkflowView, path: seq<Id>)
    requires Path(view, path) && path != [] && path[0] in view.agents
    ensures forall i :: 0 <= i < |path| ==> path[i] in view.agents
  {
    if |path| > 1 {
      PathStaysInView(view, path[1..]);
      forall i | 0 <= i < |path| ensures path[i] in view.agents {
        assert i > 0 ==> path[i] == path[1..][i - 1];
      }
    }
  }

  lemma PathForward(view: WorkflowView, view': WorkflowView, ids: map<Id, Id>, path: seq<Id>)
    requires SameSteps(view, view', ids) && Path(view, path) && path != [] && path[0] in ids
    ensures path[|path| - 1] in ids && Reachable(view', ids[path[0]], ids[path[|path| - 1]])
  {
    PathStaysInView(view, path);
    PathRenamed(view, view', ids, path);
    assert RenamePath(path, ids)[|path| - 1] == ids[path[|path| - 1]];
  }

  lemma PathBack(view: WorkflowView, view': WorkflowView, ids: map<Id, Id>, path': seq<Id>)
    requires SameSteps(view, view', ids) && Path(view', path') && path' != [] && path'[0] in ids.Values
    ensures path'[|path'| - 1] in ids.Values
    ensures Reachable(view, Origin(ids, path'[0]), Origin(ids, path'[|path'| - 1]))
  {
    PathStaysInView(view', path');
    var path := seq(|path'|, i requires 0 <= i < |path'| => Origin(ids, path'[i]));
    assert RenamePath(path, ids) == path';
    PathRenamed(view, view', ids, path);
  }

  lemma ReachableRenamed(view: WorkflowView, view': WorkflowView, ids: map<Id, Id>, a: Id, b: Id)
    requires SameSteps(view, view', ids) && Injective(ids) && a in ids && b in ids
    ensures Reachable(view', ids[a], ids[b]) <==> Reachable(view, a, b)
  {
    if Reachable(view, a, b) {
      var path: seq<Id> :| path != [] && path[0] == a && path[|path| - 1] == b && Path(view, path);
      PathForward(view, view', ids, path);
    }
    var x, y := ids[a], ids[b];
    assert x in ids.Values && Origin(ids, x) == a && y in ids.Values && Origin(ids, y) == b;
    if Reachable(view', x, y) {
      var path: seq<Id> :| path != [] && path[0] == x && path[|path| - 1] == y && Path(view', path);
      PathBack(view, view', ids, path);
    }
  }

  /** In the clone, one agent can reach another iff their originals could in the source. */
  lemma CloneKeepsReachability(db: Db, w: Id, s: Id, t: Id, m: Ids, a: Id, b: Id)
    requires WellFormed(db) && CloneProofs.Clones(db, w, t, m) && Carries(db, w, s)
    requires a in AgentsOf(db, w) && b in AgentsOf(db, w)
    ensures Reachable(Seen(Cloned(db, w, t, m), m.workflow, t), m.agents[a], m.agents[b])
            <==> Reachable(Seen(db, w, s), a, b)
  {
    CloneCommutesWithLoad(db, w, s, t, m);
    CloneRenames(db, w, s, t, m);
    RenameKeepsSteps(Seen(db, w, s), m);
    ReachableRenamed(Seen(db, w, s), Rename(Seen(db, w, s), m), m.agents, a, b);
  }

  lemma SameAgentConfigs(agents: map<Id, AgentView>, agents': map<Id, AgentView>, ids: map<Id, Id>, parsers: Parsers)
    requires ids.Keys == agents.Keys && agents'.Keys == ids.Values
    requires forall a :: a in agents ==> ids[a] in agents' && agents'[ids[a]].config == agents[a].config
    ensures CastableAgents(agents', parsers) <==> CastableAgents(agents, parsers)
  {
    forall x | x in agents' ensures agents'[x].config == agents[Origin(ids, x)].config {
    }
  }

  lemma SameEdgeData(edges: map<Id, EdgeView>, edges': map<Id, EdgeView>, ids: map<Id, Id>, parsers: Parsers)
    requires ids.Keys == edges.Keys && edges'.Keys == ids.Values
    requires forall e :: e in edges ==> ids[e] in edges' && edges'[ids[e]].data == edges[e].data
    ensures CastableEdges(edges', parsers) <==> CastableEdges(edges, parsers)
  {
    forall x | x in edges' ensures edges'[x].data == edges[Origin(ids, x)].data {
    }
    forall e | e in edges
      ensures EdgeFrom(ids[e], edges'[ids[e]], parsers).Some? <==> EdgeFrom(e, edges[e], parsers).Some?
    {
    }
  }

  lemma CastableRenamed(view: WorkflowView, m: Ids, parsers: Parsers)
    requires Renames(m, view)
    ensures Castable(Rename(view, m), parsers) <==> Castable(view, parsers)
  {
    var view' := Rename(view, m);
    forall a | a in view.agents
      ensures m.agents[a] in view'.agents && view'.agents[m.agents[a]].config == view.agents[a].config
    {
      RenamedAgent(view, m, a);
    }
    forall e | e in view.edges ensures m.edges[e] in view'.edges && view'.edges[m.edges[e]].data == view.edges[e].data {
      RenamedEdge(view, m, e);
    }
    RenamedKeys(view, m);
    SameAgentConfigs(view.agents, view'.agents, m.agents, parsers);
    SameEdgeData(view.edges, view'.edges, m.edges, parsers);
  }

  lemma RenamedKeys(view: WorkflowView, m: Ids)
    requires Renames(m, view)
    ensures Rename(view, m).agents.Keys == m.agents.Values && Rename(view, m).edges.Keys == m.edges.Values
  {
  }

  /** The clone can be loaded iff its source can. */
  lemma CloneLoadsIff(db: Db, w: Id, s: Id, t: Id, m: Ids, parsers: Parsers)
    requires WellFormed(db) && CloneProofs.Clones(db, w, t, m) && Carries(db, w, s)
    ensures Castable(Seen(Cloned(db, w, t, m), m.workflow, t), parsers) <==> Castable(Seen(db, w, s), parsers)
  {
    CloneCommutesWithLoad(db, w, s, t, m);
    CloneRenames(db, w, s, t, m);
    CastableRenamed(Seen(db, w, s), m, parsers);
  }

  /** Whatever the row order, the only initial agent of a view is the one a loaded workflow starts with. */
  lemma InitialAgentOfView(loaded: RuntimeWorkflow, view: WorkflowView)
    requires Shows(loaded, view)
    requires forall a, b | a in view.agents && b in view.agents ::
      view.agents[a].isInitial && view.agents[b].isInitial ==> a == b
    ensures forall a :: a in view.agents && view.agents[a].isInitial ==>
      InitialAgent(loaded.agents).Some? && InitialAgent(loaded.agents).value.id == a
  {
    InitialAgentMeans(loaded.agents);
    forall a | a in view.agents && view.agents[a].isInitial
      ensures InitialAgent(loaded.agents).Some? && InitialAgent(loaded.agents).value.id == a
    {
      var i :| 0 <= i < |loaded.agents| && loaded.agents[i].id == a;
    }
  }

  /** Calls to the clone start with the copy of the agent that calls to the source start with. */
  lemma CloneKeepsInitialAgent(
    db: Db, w: Id, s: Id, t: Id, m: Ids, source: RuntimeWorkflow, clone: RuntimeWorkflow, a: Id)
    requires WellFormed(db) && CloneProofs.Clones(db, w, t, m) && Carries(db, w, s)
    requires Shows(source, Seen(db, w, s)) && Shows(clone, Seen(Cloned(db, w, t, m), m.workflow, t))
    requires a in Seen(db, w, s).agents && Seen(db, w, s).agents[a].isInitial
    requires forall b :: b in Seen(db, w, s).agents && Seen(db, w, s).agents[b].isInitial ==> b == a
    ensures InitialAgent(source.agents).Some? && InitialAgent(source.agents).value.id == a
    ensures InitialAgent(clone.agents).Some? && InitialAgent(clone.agents).value.id == m.agents[a]
  {
    CloneCommutesWithLoad(db, w, s, t, m);
    CloneRenames(db, w, s, t, m);
    InitialAgentKept(Seen(db, w, s), m, source, clone, a);
  }

  lemma InitialAgentKept(view: WorkflowView, m: Ids, source: RuntimeWorkflow, clone: RuntimeWorkflow, a: Id)
    requires Renames(m, view) && Shows(source, view) && Shows(clone, Rename(view, m))
    requires a in view.agents && view.agents[a].isInitial
    requires forall b :: b in view.agents && view.agents[b].isInitial ==> b == a
    ensures InitialAgent(source.agents).Some? && InitialAgent(source.agents).value.id == a
    ensures InitialAgent(clone.agents).Some? && InitialAgent(clone.agents).value.id == m.agents[a]
  {
    InitialAgentOfView(source, view);
    OneInitialRenamed(view, m, a);
    InitialAgentOfView(clone, Rename(view, m));
  }

  lemma OneInitialRenamed(view: WorkflowView, m: Ids, a: Id)
    requires Renames(m, view) && a in view.agents && view.agents[a].isInitial
    requires forall b :: b in view.agents && view.agents[b].isInitial ==> b == a
    ensures var agents := Rename(view, m).agents;
      && m.agents[a] in agents && agents[m.agents[a]].isInitial
      && forall x :: x in agents && agents[x].isInitial ==> x == m.agents[a]
  {
    RenamedAgent(view, m, a);
    forall x | x in Rename(view, m).agents && Rename(view, m).agents[x].isInitial ensures x == m.agents[a] {
      RenamedAgent(view, m, Origin(m.agents, x));
    }
  }
}
