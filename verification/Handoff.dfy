/** Wiring the agents of a workflow to each other with transfer tools. */
module Handoff {
  import opened Wrappers
  import opened Tables
  import opened Runtime

  /** The first agent flagged as initial. */
  function InitialAgent(agents: seq<RuntimeAgent>): Option<RuntimeAgent> {
    if agents == [] then None
    else if agents[0].isInitial then Some(agents[0])
    else InitialAgent(agents[1..])
  }

  /** The first agent placed at a position. */
  function AgentAt(agents: seq<RuntimeAgent>, position: Id): Option<RuntimeAgent> {
    if agents == [] then None
    else if agents[0].position == Some(position) then Some(agents[0])
    else AgentAt(agents[1..], position)
  }

  function SuccessorsOver(edges: seq<RuntimeEdge>, agents: seq<RuntimeAgent>, position: Id)
    : seq<(RuntimeAgent, RuntimeEdge)>
  {
    if edges == [] then []
    else
      var before := SuccessorsOver(edges[..|edges| - 1], agents, position);
      var edge := edges[|edges| - 1];
      var target := AgentAt(agents, edge.target);
      if edge.source == position && target.Some? then before + [(target.value, edge)] else before
  }

  function SuccessorsOf(w: RuntimeWorkflow, agent: RuntimeAgent): seq<(RuntimeAgent, RuntimeEdge)> {
    if agent.position.None? then [] else SuccessorsOver(w.edges, w.agents, agent.position.value)
  }

  /** The agents an agent can hand over to, with the edges that say so. */
  method Successors(w: RuntimeWorkflow, agent: RuntimeAgent) returns (results: seq<(RuntimeAgent, RuntimeEdge)>)
    ensures results == SuccessorsOf(w, agent)
  {
    if agent.position.None? {
      return [];
    }
    results := [];
    for i := 0 to |w.edges|
      invariant results == SuccessorsOver(w.edges[..i], w.agents, agent.position.value)
    {
      var edge := w.edges[i];
      assert w.edges[..i + 1][..i] == w.edges[..i];
      if edge.source == agent.position.value {
        var target := AgentAt(w.agents, edge.target);
        if target.Some? {
          results := results + [(target.value, edge)];
        }
      }
    }
    assert w.edges[..|w.edges|] == w.edges;
  }

  datatype AgentTool =
    | DataTool(tool: RuntimeTool)
    | TransferTool(target: Id, targetName: string, condition: Json)

  /** A live agent. Its tools are set once the whole graph has been built. */
  class VoiceAgent {
    const settings: Settings
    var tools: seq<AgentTool>

    constructor (settings: Settings)
      ensures this.settings == settings && tools == []
    {
      this.settings := settings;
      tools := [];
    }
  }

  function DataTools(tools: seq<RuntimeTool>): (r: seq<AgentTool>)
    ensures |r| == |tools|
    ensures forall i :: 0 <= i < |tools| ==> r[i] == DataTool(tools[i])
  {
    seq(|tools|, i requires 0 <= i < |tools| => DataTool(tools[i]))
  }

  function TransferTools(successors: seq<(RuntimeAgent, RuntimeEdge)>): (r: seq<AgentTool>)
    ensures |r| == |successors|
    ensures forall i :: 0 <= i < |successors| ==>
      r[i] == TransferTool(successors[i].0.id, successors[i].0.name, successors[i].1.condition)
  {
    seq(|successors|, i requires 0 <= i < |successors| =>
      TransferTool(successors[i].0.id, successors[i].0.name, successors[i].1.condition))
  }

  function ToolsOfAgent(w: RuntimeWorkflow, agent: RuntimeAgent): seq<AgentTool> {
    DataTools(agent.tools) + TransferTools(SuccessorsOf(w, agent))
  }

  ghost predicate DistinctIds(agents: seq<RuntimeAgent>) {
    forall i, j :: 0 <= i < j < |agents| ==> agents[i].id != agents[j].id
  }

  ghost predicate DistinctPositions(agents: seq<RuntimeAgent>) {
    forall i, j :: 0 <= i < j < |agents| && agents[i].position.Some? ==> agents[i].position != agents[j].position
  }

  /** The registry has one live agent per agent of the workflow, with that agent's tools. */
  ghost predicate Wired(w: RuntimeWorkflow, registry: map<Id, VoiceAgent>)
    reads registry.Values
  {
    && (forall i :: 0 <= i < |w.agents| ==>
          && w.agents[i].id in registry
          && registry[w.agents[i].id].settings == w.agents[i].settings
          && registry[w.agents[i].id].tools == ToolsOfAgent(w, w.agents[i]))
    && (forall a :: a in registry ==> exists i :: 0 <= i < |w.agents| && w.agents[i].id == a)
    && (forall a, b :: a in registry && b in registry && registry[a] == registry[b] ==> a == b)
  }

  method Register(w: RuntimeWorkflow) returns (registry: map<Id, VoiceAgent>)
    requires DistinctIds(w.agents)
    ensures forall i :: 0 <= i < |w.agents| ==>
      w.agents[i].id in registry && registry[w.agents[i].id].settings == w.agents[i].settings
    ensures forall a :: a in registry ==>
      fresh(registry[a]) && registry[a].tools == [] && exists i :: 0 <= i < |w.agents| && w.agents[i].id == a
    ensures forall a, b :: a in registry && b in registry && registry[a] == registry[b] ==> a == b
  {
    registry := map[];
    for n := 0 to |w.agents|
      invariant forall i :: 0 <= i < n ==>
        w.agents[i].id in registry && registry[w.agents[i].id].settings == w.agents[i].settings
      invariant forall a :: a in registry ==>
        fresh(registry[a]) && registry[a].tools == [] && exists i :: 0 <= i < n && w.agents[i].id == a
      invariant forall a, b :: a in registry && b in registry && registry[a] == registry[b] ==> a == b
    {
      var agent := new VoiceAgent(w.agents[n].settings);
      registry := registry[w.agents[n].id := agent];
    }
  }

  /** Gives every registered agent its tools. */
  method Wire(w: RuntimeWorkflow, registry: map<Id, VoiceAgent>)
    requires DistinctIds(w.agents)
    requires forall i :: 0 <= i < |w.agents| ==> w.agents[i].id in registry
    requires forall a :: a in registry ==> registry[a].tools == []
    requires forall a, b :: a in registry && b in registry && registry[a] == registry[b] ==> a == b
    modifies registry.Values
    ensures forall i :: 0 <= i < |w.agents| ==> registry[w.agents[i].id].tools == ToolsOfAgent(w, w.agents[i])
  {
    for n := 0 to |w.agents|
      invariant forall i :: 0 <= i < |w.agents| ==>
        registry[w.agents[i].id].tools == if i < n then ToolsOfAgent(w, w.agents[i]) else []
    {
      var agent := registry[w.agents[n].id];
      var successors := Successors(w, w.agents[n]);
      var tools := DataTools(w.agents[n].tools) + TransferTools(successors);
      assert tools == ToolsOfAgent(w, w.agents[n]);
      assert forall i :: 0 <= i < |w.agents| && i != n ==> registry[w.agents[i].id] != agent;
      if tools != [] {
        agent.tools := tools;
      }
    }
  }

  /** Builds every agent, then gives each its tools. Returns the initial agent, or the first one
      if none is flagged; None if the workflow has no agent at all. */
  method BuildGraph(w: RuntimeWorkflow) returns (start: Option<VoiceAgent>, registry: map<Id, VoiceAgent>)
    requires DistinctIds(w.agents)
    ensures Wired(w, registry)
    ensures start.Some? <==> w.agents != []
    ensures start.Some? ==> (InitialAgent(w.agents).GetOr(w.agents[0])).id in registry
    ensures start.Some? ==> start.value == registry[(InitialAgent(w.agents).GetOr(w.agents[0])).id]
  {
    registry := Register(w);
    Wire(w, registry);
    var initial := InitialAgent(w.agents);
    if initial.Some? {
      InitialAgentMeans(w.agents);
      start := Some(registry[initial.value.id]);
    } else if w.agents != [] {
      start := Some(registry[w.agents[0].id]);
    } else {
      start := None;
    }
  }

  /** An initial agent is found iff one is flagged. */
  lemma {:induction false} InitialAgentMeans(agents: seq<RuntimeAgent>)
    ensures InitialAgent(agents).None? <==> forall i :: 0 <= i < |agents| ==> !agents[i].isInitial
    ensures InitialAgent(agents).Some? ==> InitialAgent(agents).value in agents && InitialAgent(agents).value.isInitial
    ensures forall i ::
      0 <= i < |agents| && agents[i].isInitial && (forall j :: 0 <= j < i ==> !agents[j].isInitial) ==>
      InitialAgent(agents) == Some(agents[i])
  {
    if agents != [] && !agents[0].isInitial {
      InitialAgentMeans(agents[1..]);
      forall i | 0 < i < |agents| ensures agents[i] == agents[1..][i - 1] {
      }
    }
  }

  lemma {:induction false} AgentAtFinds(agents: seq<RuntimeAgent>, position: Id, i: nat)
    requires DistinctPositions(agents) && i < |agents| && agents[i].position == Some(position)
    ensures AgentAt(agents, position) == Some(agents[i])
  {
    if i > 0 {
      assert agents[0].position != Some(position);
      AgentAtFinds(agents[1..], position, i - 1);
    }
  }

  lemma {:induction false} AgentAtListed(agents: seq<RuntimeAgent>, position: Id)
    requires AgentAt(agents, position).Some?
    ensures AgentAt(agents, position).value in agents
    ensures AgentAt(agents, position).value.position == Some(position)
    ensures forall i ::
      0 <= i < |agents| && agents[i].position == Some(position) &&
      (forall j :: 0 <= j < i ==> agents[j].position != Some(position)) ==>
      AgentAt(agents, position) == Some(agents[i])
  {
    if agents[0].position != Some(position) {
      AgentAtListed(agents[1..], position);
    }
  }

  lemma {:induction false} SuccessorIff(edges: seq<RuntimeEdge>, agents: seq<RuntimeAgent>, position: Id, b: Id)
    ensures (exists i :: 0 <= i < |SuccessorsOver(edges, agents, position)| &&
                         SuccessorsOver(edges, agents, position)[i].0.id == b)
            <==> exists e :: e in edges && e.source == position &&
                             AgentAt(agents, e.target).Some? && AgentAt(agents, e.target).value.id == b
  {
    if edges != [] {
      var n := |edges| - 1;
      var before, now := SuccessorsOver(edges[..n], agents, position), SuccessorsOver(edges, agents, position);
      SuccessorIff(edges[..n], agents, position, b);
      if i :| 0 <= i < |now| && now[i].0.id == b {
        if i < |before| {
          assert before[i].0.id == b;
          var e :| e in edges[..n] && e.source == position &&
                   AgentAt(agents, e.target).Some? && AgentAt(agents, e.target).value.id == b;
          assert e in edges;
        } else {
          assert edges[n] in edges;
        }
      }
      if e :| e in edges && e.source == position &&
              AgentAt(agents, e.target).Some? && AgentAt(agents, e.target).value.id == b {
        if e in edges[..n] {
          var i :| 0 <= i < |before| && before[i].0.id == b;
          assert now[i].0.id == b;
        } else {
          assert e == edges[n];
          assert now[|before|].0.id == b;
        }
      }
    }
  }

  // Reachability. A view has an edge from one agent to another if it has an edge from the one's
  // position to the other's.

  ghost predicate Step(view: WorkflowView, a: Id, b: Id) {
    && a in view.agents && b in view.agents
    && exists e | e in view.edges ::
         view.agents[a].position == Some(view.edges[e].source) && view.agents[b].position == Some(view.edges[e].target)
  }

  ghost predicate Path(view: WorkflowView, path: seq<Id>) {
    |path| <= 1 || (Step(view, path[0], path[1]) && Path(view, path[1..]))
  }

  ghost predicate Reachable(view: WorkflowView, a: Id, b: Id) {
    exists path: seq<Id> :: path != [] && path[0] == a && path[|path| - 1] == b && Path(view, path)
  }

  predicate CanTransfer(tools: seq<AgentTool>, target: Id) {
    exists i :: 0 <= i < |tools| && tools[i].TransferTool? && tools[i].target == target
  }

  lemma CanTransferIff(w: RuntimeWorkflow, agent: RuntimeAgent, b: Id)
    ensures CanTransfer(ToolsOfAgent(w, agent), b)
            <==> exists i :: 0 <= i < |SuccessorsOf(w, agent)| && SuccessorsOf(w, agent)[i].0.id == b
  {
    var tools, successors := ToolsOfAgent(w, agent), SuccessorsOf(w, agent);
    forall i | 0 <= i < |successors| ensures tools[|agent.tools| + i] == TransferTools(successors)[i] {
    }
    if i :| 0 <= i < |tools| && tools[i].TransferTool? && tools[i].target == b {
      assert successors[i - |agent.tools|].0.id == b;
    }
  }

  lemma TransferHasEdge(w: RuntimeWorkflow, agent: RuntimeAgent, b: Id) returns (e: RuntimeEdge)
    requires CanTransfer(ToolsOfAgent(w, agent), b)
    ensures e in w.edges && agent.position == Some(e.source)
    ensures AgentAt(w.agents, e.target).Some? && AgentAt(w.agents, e.target).value.id == b
  {
    CanTransferIff(w, agent, b);
    assert agent.position.Some?;
    SuccessorIff(w.edges, w.agents, agent.position.value, b);
    e :| e in w.edges && e.source == agent.position.value &&
         AgentAt(w.agents, e.target).Some? && AgentAt(w.agents, e.target).value.id == b;
  }

  /** Every transfer tool goes along an edge of the graph. */
  lemma TransferIsStep(w: RuntimeWorkflow, view: WorkflowView, i: nat, b: Id)
    requires Shows(w, view) && i < |w.agents| && CanTransfer(ToolsOfAgent(w, w.agents[i]), b)
    ensures Step(view, w.agents[i].id, b)
  {
    var e := TransferHasEdge(w, w.agents[i], b);
    AgentAtListed(w.agents, e.target);
    EdgeIsStep(view, e, w.agents[i], AgentAt(w.agents, e.target).value);
  }

  lemma EdgeIsStep(view: WorkflowView, e: RuntimeEdge, from: RuntimeAgent, to: RuntimeAgent)
    requires e.id in view.edges && e.source == view.edges[e.id].source && e.target == view.edges[e.id].target
    requires from.id in view.agents && ShowsAgent(from, view.agents[from.id]) && from.position == Some(e.source)
    requires to.id in view.agents && ShowsAgent(to, view.agents[to.id]) && to.position == Some(e.target)
    ensures Step(view, from.id, to.id)
  {
  }

  /** Along every edge between two agents there is a transfer tool. */
  lemma StepIsTransfer(w: RuntimeWorkflow, view: WorkflowView, i: nat, b: Id)
    requires Shows(w, view) && DistinctPositions(w.agents) && i < |w.agents| && Step(view, w.agents[i].id, b)
    ensures CanTransfer(ToolsOfAgent(w, w.agents[i]), b)
  {
    var agent := w.agents[i];
    var e :| e in view.edges &&
      view.agents[agent.id].position == Some(view.edges[e].source) &&
      view.agents[b].position == Some(view.edges[e].target);
    var j :| 0 <= j < |w.agents| && w.agents[j].id == b;
    AgentAtFinds(w.agents, view.edges[e].target, j);
    var k :| 0 <= k < |w.edges| && w.edges[k].id == e;
    assert w.edges[k] in w.edges;
    SuccessorIff(w.edges, w.agents, agent.position.value, b);
    CanTransferIff(w, agent, b);
  }

  /** An agent holds a transfer tool to exactly its successors in the graph. */
  lemma TransferIffStep(w: RuntimeWorkflow, view: WorkflowView, i: nat, b: Id)
    requires Shows(w, view) && DistinctPositions(w.agents) && i < |w.agents|
    ensures CanTransfer(ToolsOfAgent(w, w.agents[i]), b) <==> Step(view, w.agents[i].id, b)
  {
    if CanTransfer(ToolsOfAgent(w, w.agents[i]), b) {
      TransferIsStep(w, view, i, b);
    }
    if Step(view, w.agents[i].id, b) {
      StepIsTransfer(w, view, i, b);
    }
  }

  /** Where the caller ends up after using transfer tools to these targets one after another;
      None if at some point the current agent has no such tool. */
  ghost function Follow(registry: map<Id, VoiceAgent>, agent: VoiceAgent, targets: seq<Id>): Option<VoiceAgent>
    reads registry.Values, agent
    decreases |targets|
  {
    if targets == [] then Some(agent)
    else if CanTransfer(agent.tools, targets[0]) && targets[0] in registry then
      Follow(registry, registry[targets[0]], targets[1..])
    else None
  }

  /** Some chain of transfers leads from one live agent to the other. */
  ghost predicate Leads(registry: map<Id, VoiceAgent>, agent: VoiceAgent, target: VoiceAgent)
    reads registry.Values, agent
  {
    exists targets :: Follow(registry, agent, targets) == Some(target)
  }

  /** The registry lookup of a transfer never misses. */
  lemma TransfersStayRegistered(w: RuntimeWorkflow, view: WorkflowView, registry: map<Id, VoiceAgent>, a: Id, b: Id)
    requires Shows(w, view) && DistinctPositions(w.agents) && Wired(w, registry) && a in registry
    ensures CanTransfer(registry[a].tools, b) <==> Step(view, a, b)
    ensures CanTransfer(registry[a].tools, b) ==> b in registry
  {
    var i :| 0 <= i < |w.agents| && w.agents[i].id == a;
    TransferIffStep(w, view, i, b);
    if Step(view, a, b) {
      var j :| 0 <= j < |w.agents| && w.agents[j].id == b;
    }
  }

  /** Every live agent can transfer along exactly the edges of the graph. */
  ghost predicate Mirrors(view: WorkflowView, registry: map<Id, VoiceAgent>)
    reads registry.Values
  {
    forall a, b | a in registry ::
      (CanTransfer(registry[a].tools, b) <==> Step(view, a, b)) && (Step(view, a, b) ==> b in registry)
  }

  lemma WiredMirrors(w: RuntimeWorkflow, view: WorkflowView, registry: map<Id, VoiceAgent>)
    requires Shows(w, view) && DistinctPositions(w.agents) && Wired(w, registry)
    ensures Mirrors(view, registry)
  {
    forall a, b | a in registry
      ensures (CanTransfer(registry[a].tools, b) <==> Step(view, a, b)) && (Step(view, a, b) ==> b in registry)
    {
      TransfersStayRegistered(w, view, registry, a, b);
    }
  }

  /** Using transfer tools walks exactly the paths of the graph. */
  lemma {:induction false} FollowIsPath(view: WorkflowView, registry: map<Id, VoiceAgent>, a: Id, targets: seq<Id>)
    requires Mirrors(view, registry) && a in registry
    ensures var path := [a] + targets;
      if Path(view, path) then
        path[|targets|] in registry && Follow(registry, registry[a], targets) == Some(registry[path[|targets|]])
      else Follow(registry, registry[a], targets) == None
    decreases |targets|
  {
    var path := [a] + targets;
    if targets != [] {
      var b := targets[0];
      assert [b] + targets[1..] == targets == path[1..] && path[0] == a && path[1] == b;
      if Step(view, a, b) {
        FollowIsPath(view, registry, b, targets[1..]);
      }
    }
  }

  lemma FollowIffReachable(view: WorkflowView, registry: map<Id, VoiceAgent>, a: Id, b: Id)
    requires Mirrors(view, registry) && a in registry && b in registry
    requires forall x, y :: x in registry && y in registry && registry[x] == registry[y] ==> x == y
    ensures Leads(registry, registry[a], registry[b]) <==> Reachable(view, a, b)
  {
    if targets :| Follow(registry, registry[a], targets) == Some(registry[b]) {
      FollowIsPath(view, registry, a, targets);
      var path := [a] + targets;
      assert path[|path| - 1] == path[|targets|] == b;
    }
    if Reachable(view, a, b) {
      var path: seq<Id> :| path != [] && path[0] == a && path[|path| - 1] == b && Path(view, path);
      assert path == [a] + path[1..];
      FollowIsPath(view, registry, a, path[1..]);
      assert Follow(registry, registry[a], path[1..]) == Some(registry[b]);
    }
  }

  /** From a live agent, chains of transfers lead to exactly the agents reachable over edges. */
  lemma HandoffReachability(w: RuntimeWorkflow, view: WorkflowView, registry: map<Id, VoiceAgent>, a: Id, b: Id)
    requires Shows(w, view) && DistinctPositions(w.agents) && Wired(w, registry) && a in registry && b in registry
    ensures Leads(registry, registry[a], registry[b]) <==> Reachable(view, a, b)
  {
    WiredMirrors(w, view, registry);
    FollowIffReachable(view, registry, a, b);
  }

  /** Loading a consistent database places no two agents at the same position. */
  lemma LoadedPositionsDistinct(db: Db, w: Id, t: Id, loaded: RuntimeWorkflow)
    requires RowsOk(db) && w in db.workflows && Shows(loaded, Seen(db, w, t))
    ensures DistinctIds(loaded.agents) && DistinctPositions(loaded.agents)
  {
    forall i, j | 0 <= i < j < |loaded.agents| && loaded.agents[i].position.Some?
      ensures loaded.agents[i].position != loaded.agents[j].position
    {
      var a, b := loaded.agents[i].id, loaded.agents[j].id;
      AgentPositionIsLinked(db, a);
      AgentPositionIsLinked(db, b);
      assert AgentOk(db, a) && AgentOk(db, b);
    }
  }
}
