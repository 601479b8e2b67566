/** How the worker starts a call: load the workflow, wire its agents, pick the first speaker. */
module EntryPoint {
  import opened Wrappers
  import opened Tables
  import opened Session
  import opened Runtime
  import Loader
  import opened Handoff
  import StoredGraph

  /** The workflow is the tenant's and has a flagged agent. */
  ghost predicate Startable(db: Db, w: Id, t: Id) {
    && w in db.workflows && db.workflows[w].tenant == t
    && exists a :: a in AgentsVisible(db, w, t) && db.agents[a].isInitial == Some(true)
  }

  /** A live call: agent `a` of the view speaks first, and from it transfers lead to exactly the
      agents reachable over edges. */
  ghost predicate Starts(
    view: WorkflowView, registry: map<Id, VoiceAgent>, agent: VoiceAgent, a: Id, parsers: Parsers)
    reads registry.Values, agent
  {
    && a in view.agents && view.agents[a].isInitial
    && Some(agent.settings) == SettingsFrom(view.agents[a].config, parsers)
    && registry.Keys == view.agents.Keys && registry[a] == agent
    && forall b :: b in view.agents ==> (Leads(registry, agent, registry[b]) <==> Reachable(view, a, b))
  }

  lemma TransfersReach(view: WorkflowView, registry: map<Id, VoiceAgent>, a: Id)
    requires Mirrors(view, registry) && a in registry
    requires forall x, y :: x in registry && y in registry && registry[x] == registry[y] ==> x == y
    ensures forall b :: b in registry ==> (Leads(registry, registry[a], registry[b]) <==> Reachable(view, a, b))
  {
    forall b | b in registry ensures Leads(registry, registry[a], registry[b]) <==> Reachable(view, a, b) {
      FollowIffReachable(view, registry, a, b);
    }
  }

  lemma WiredStarts(w: RuntimeWorkflow, view: WorkflowView, registry: map<Id, VoiceAgent>, parsers: Parsers)
    requires Configured(w, view, parsers)
    requires Shows(w, view) && DistinctPositions(w.agents) && Wired(w, registry) && InitialAgent(w.agents).Some?
    ensures InitialAgent(w.agents).value.id in registry
    ensures var a := InitialAgent(w.agents).value.id; Starts(view, registry, registry[a], a, parsers)
  {
    InitialAgentMeans(w.agents);
    RegistryIsView(w, view, registry);
    WiredMirrors(w, view, registry);
    TransfersReach(view, registry, InitialAgent(w.agents).value.id);
  }

  lemma RegistryIsView(w: RuntimeWorkflow, view: WorkflowView, registry: map<Id, VoiceAgent>)
    requires Shows(w, view) && Wired(w, registry)
    ensures registry.Keys == view.agents.Keys
  {
    forall a | a in view.agents ensures a in registry {
      var i :| 0 <= i < |w.agents| && w.agents[i].id == a;
    }
  }

  /** An initial agent is found in the loaded list iff some row of it is flagged. */
  lemma InitialListed(agents: seq<RuntimeAgent>, rows: map<Id, AgentRow>, visible: set<Id>)
    requires Loader.ListsRows(agents, rows, visible) && visible <= rows.Keys
    ensures InitialAgent(agents).Some? <==> exists a :: a in visible && rows[a].isInitial == Some(true)
    ensures InitialAgent(agents).Some? ==>
      var a := InitialAgent(agents).value.id; a in visible && rows[a].isInitial == Some(true)
  {
    InitialAgentMeans(agents);
    forall a | a in visible && rows[a].isInitial == Some(true) ensures InitialAgent(agents).Some? {
      var i :| 0 <= i < |agents| && agents[i].id == a;
    }
  }

  /** The agent a call starts with: the workflow's initial agent, wired into its graph, or a lone
      default agent if there is no tenant, no workflow to load, no initial agent in it, or a setting
      in it that cannot be cast. */
  method FirstSpeaker(session: Session, workflow: Option<Id>, tenant: Option<Id>, fallback: Settings, parsers: Parsers)
    returns (agent: VoiceAgent, registry: map<Id, VoiceAgent>, start: Option<Id>)
    ensures start.Some? ==>
      && tenant.Some? && workflow.Some? && Startable(session.Contents(), workflow.value, tenant.value)
      && start.value in AgentsVisible(session.Contents(), workflow.value, tenant.value)
      && session.agents[start.value].isInitial == Some(true)
    ensures RowsOk(session.Contents()) ==>
      (start.Some? <==>
         && tenant.Some? && workflow.Some? && Startable(session.Contents(), workflow.value, tenant.value)
         && Castable(Seen(session.Contents(), workflow.value, tenant.value), parsers))
    ensures start.Some? && RowsOk(session.Contents()) ==>
      Starts(Seen(session.Contents(), workflow.value, tenant.value), registry, agent, start.value, parsers)
    ensures start.Some? && RowsOk(session.Contents()) ==>
      StoredGraph.Live(session.Contents(), workflow.value, tenant.value, registry, agent, start.value, parsers)
    ensures start.None? ==> agent.settings == fallback && agent.tools == [] && registry == map[]
  {
    registry, start := map[], None;
    if workflow.Some? {
      var loaded := Loader.Load(session, workflow.value, tenant, parsers);
      if loaded.Success? {
        ghost var visible := AgentsVisible(session.Contents(), workflow.value, tenant.value);
        InitialListed(loaded.value.agents, session.agents, visible);
        var initial := InitialAgent(loaded.value.agents);
        if initial.Some? {
          var first, wired := BuildGraph(loaded.value);
          if RowsOk(session.Contents()) {
            LoadedPositionsDistinct(session.Contents(), workflow.value, tenant.value, loaded.value);
            StoredGraph.WiredIsLive(session.Contents(), workflow.value, tenant.value, loaded.value, wired,
                                    initial.value.id, parsers);
            WiredStarts(loaded.value, Seen(session.Contents(), workflow.value, tenant.value), wired, parsers);
          }
          return first.value, wired, Some(initial.value.id);
        }
      }
    }
    agent := new VoiceAgent(fallback);
  }

  /** The worker as written: nothing in its process sets a tenant, so loading always fails and
      every call gets the lone default agent, whatever the workflow and the tables. */
  method WorkerFirstSpeaker(session: Session, workflow: Option<Id>, fallback: Settings, parsers: Parsers)
    returns (agent: VoiceAgent)
    ensures agent.settings == fallback && agent.tools == []
  {
    var registry, start;
    agent, registry, start := FirstSpeaker(session, workflow, None, fallback, parsers);
  }
}
