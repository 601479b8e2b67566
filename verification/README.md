# A verified model of VoiceOrchid

VoiceOrchid is a builder and runtime for voice agents. Users draw a workflow of agents, tools and
edges; the server stores it in five tables; a worker loads it and runs calls that agents hand over
to each other. This project models the parts of it that carry real algorithms over state, and
proves what they keep and what they mean.

`dafny verify dfyconfig.toml` checks everything.

## How it is laid out

**Tables and cloning.** `Tables` has one row type per table, the database state `Db` and what it
means for it to be consistent (`WellFormed`): foreign keys, unique names, one owner per position and
config, and links that agree in both directions. `Session` is the mutable session that services and
repositories share. `CloneService` is the deep copy with its four id maps and its second pass over
links; `CloneSpec` says when it fails and what it yields, `CloneContents` the same row by row and field by
field, and `CloneProofs` shows what a clone preserves. `Relabelling` holds the general facts about copying rows under new ids.

**Loading and handing over.** `Runtime` defines the graph that a tenant sees in the tables, up to
row order; `Loader` builds the lists from the tables; `Handoff` turns them into live agents with
transfer tools. `StoredGraph` states what all of these yield in the columns of the stored rows, and
reachability over the stored edges. `CloneCommutes` proves that cloning and then loading equals loading and then
renaming, and `CloneHandoff` that a clone hands calls over as its source does. `EntryPoint` puts loading and
wiring together as the worker does when a call starts. `AgentSettings` says which settings survive creation
and loading, and `ToolNames` when two tools of an agent have the same name.

**Single operations and runs.** `Repositories` has the create, update, delete and move operations as methods
on a session, `Mutations` the same operations as functions, with consistency over all runs of them, clone
included, and `RowContents` what they leave in each row. Three more modules say exactly which of these operations keep a property, and prove it over runs:
`InitialAgents` (at most one initial agent per workflow), `ClosedWorkflows` (no workflow hangs on another's
nodes, so all can be cloned) and `TenantIsolation` (what others do is not seen). `PositionBuffer` has the
builder's debounced buffer against the bulk update.

**Limits and lockout.** `SlidingWindow` relates pruned histories to the full log of admissions;
`RateLimiter` (a filtered list, open at the boundary) and `LaunchLimiter` (a deque popped from the
left, closed at the boundary) are its two uses. `Login` is the sign-in pass over all accounts with
one email, with the lockout of each; `OverlappingLogins` splits a pass into its read and its write and bounds
what several passes at once can do before a lock, `OverlapPace` what they can do over time. `Sets` has a fact about counting that several modules use.

**Voice sessions.** `SessionLifecycle` is a transition system whose steps are the code between two
awaits of launch, stop and the worker's closing step; `SessionService` has those pieces as methods, each
proved to be one step. `SessionHistory` settles rows and limits over whole runs by the events alone.
`RoomNames` is the session id's way through the room name.

**Tool calls.** `PathTemplates` is the path substitution, `HttpTool` the routing of arguments into
query and body and the parameter schema shown to the model, `RequestContents` the vocabulary of a tool's
configuration in its own keys, and `IgnoredArguments` puts the two together:
which arguments make no difference to what is sent.

Methods follow the source's loops and updates and are proved against functions; the lemmas then say
what those functions mean.

## Where the code and its documentation differ

- The comment in `AgentServer/app/core/rate_limiter.py:34-37` says that a key with an empty history
  is dropped. The key is written back in the same call, so no key ever leaves (`RateLimiter.KeysNeverLeave`).
- The repository's own `README.md:583` says that MAX_CONCURRENT_SESSIONS bounds the number of simultaneous calls. The check
  and the creation of the row are separated by an await, so the bound is the cap less one plus the
  number of launches in between, and it is attained (`SessionLifecycle.LoadBound`, `LoadBoundAttained`).
- The comment in `AgentServer/app/application/services/session_service.py:91-96` says that ending the
  stale row prevents two active rows of one workflow. This holds if launches of that workflow do not
  overlap, and fails if they do (`SessionLifecycle.OneSessionPerWorkflow`, `OverlapLeavesTwo`).
- The repository documents that a call runs the workflow drawn in the builder. The worker loads it through
  services that require a tenant in the context (`AgentServer/app/core/tenancy.py:63-77`), which only the API's
  middleware sets (`AgentServer/app/api/middleware.py:143`); the failure is caught, so as written every call
  gets the default agent (`EntryPoint.WorkerFirstSpeaker`). `EntryPoint.FirstSpeaker` says what happens with
  and without a tenant.
- A setting that the builder stores is not always the one a call uses: the loader takes falsy settings for
  missing ones and casts numbers. A setting given at creation is loaded as it is exactly if it is a truthy
  value (texts), a nonzero number (temperature) or a nonzero whole number (maxTokens); a temperature of zero
  becomes 0.7, half a token becomes none (`AgentSettings.GivenIsLoadedIff`, `ZeroTemperatureIsLost`,
  `FractionIsLost`). One setting that cannot be cast makes loading the whole workflow fail, so the default
  agent answers its calls (`AgentSettings.LoadsWithAgentIff`, `EntryPoint.FirstSpeaker`).
- Path parameters are substituted one after the other, so a value can be substituted again. This can happen
  exactly if a declared name with a hole in the path is followed by another declaration, be it of the same
  name (`PathTemplates.SafeIffUnexposed`); for one step, exactly if the placeholder also occurs outside its
  holes and the value is not the placeholder itself (`ReplaceIsFillIff`).
- The repository's own `README.md:207` says that data is scoped to the tenant. One kind of operation reaches
  further: deleting a node deletes every edge at its position, whoever's it is. What another tenant sees
  changes exactly then (`TenantIsolation.SeenSameIff`), and never if edges join nodes of their own tenant
  (`TenantsIsolated`), which nothing in edge creation checks.
- Every broken constraint on creating a tool is reported as a taken name, although tool names are not
  unique (`Repositories.ToolRepository.Create`).

Two consequences of the lockout are worth knowing, though nothing contradicts them. The failure counter is
not reset when a lock expires, so each later failure locks again at once; this is what bounds the guesses
over time (`Login.GuessBound`, attained). And the counter and the lock are read and written in separate steps,
so a late write can set them back: with k passes at once the number of checks before the first lock is a
binomial coefficient and not k times the threshold (`OverlappingLogins.OverlapBound`, attained), and each
full lock duration allows k * (k + 1) / 2 checks and not one (`OverlapPace.OverlapGuessBound`, attained).

A workflow can only be cloned while no tool or edge of it hangs on another workflow's nodes, and creating
tools and edges does not check that. One such tool or edge in the demo workflow makes every later copy of it
fail, and with it every registration (`ClosedWorkflows.CrossingStopsClones`).

## Model

| member | source | states |
|---|---|---|
| `CloneService.CloneWorkflowToTenant` | AgentServer/app/application/services/workflow_clone_service.py:33-155 | The clone fails exactly as the independent `Outcome` predicts, with the same kind of error; on success the tables are `Cloned` under ids that were not in use, and every row of the source has its copy with the same name, flag, method, coordinates, kind, settings and edge data, and with its references mapped; in every case, also after a failure half-way, no earlier row has changed |
| `Session.Uuid4` | AgentServer/app/application/services/workflow_clone_service.py:68-71 | A supplier of ids outside any given finite set of ids |
| `CloneService.MintIds` | AgentServer/app/application/services/workflow_clone_service.py:68-71 | Each source id gets its own new id, none of them in use: an injective map onto fresh ids |
| `CloneService.AddAgents` | AgentServer/app/application/services/workflow_clone_service.py:77-87 | After the pass the agent table is the old one plus one link-less copy per source agent, each under its minted id |
| `CloneService.AddTools` | AgentServer/app/application/services/workflow_clone_service.py:89-100 | The pass succeeds iff every tool's agent is among the copied agents, and then adds one link-less copy per tool; a miss stops it with earlier rows intact |
| `CloneService.AddPositions` | AgentServer/app/application/services/workflow_clone_service.py:104-114 | The position table grows by one copy per position, owners looked up in the id maps |
| `CloneService.AddConfigs` | AgentServer/app/application/services/workflow_clone_service.py:116-126 | The config table grows by one copy per config, owners looked up in the id maps |
| `CloneService.FlushNodes` | AgentServer/app/infrastructure/db/models.py:141-143 | The unique key on agent names is met iff the names of the source's agents are distinct |
| `CloneService.FlushAttached` | AgentServer/app/infrastructure/db/models.py:98-106 | The exactly-one-owner checks are met iff every position and config has exactly one owner inside the workflow |
| `CloneService.LinkAgents` | AgentServer/app/application/services/workflow_clone_service.py:130-134 | The second pass succeeds iff every link of an agent leads to a copied row, and then each copy links to the copies of what its source links to |
| `CloneService.LinkTools` | AgentServer/app/application/services/workflow_clone_service.py:136-140 | The same for tools |
| `CloneService.LinkNodes` | AgentServer/app/application/services/workflow_clone_service.py:130-140 | Both link passes together: they succeed iff no lookup misses, and turn the link-less copies into the final ones |
| `CloneService.AddEdges` | AgentServer/app/application/services/workflow_clone_service.py:142-152 | Succeeds iff both ends of every edge were copied; each edge gets its own fresh id and moves to the copies of its ends |
| `CloneService.CopyNodes` | AgentServer/app/application/services/workflow_clone_service.py:77-140 | All passes before the edges fail in the order of the checks (missing agent, name or owner constraint, missing link target) or add exactly the copies |
| `CloneSpec.ClonableIffClosed` | AgentServer/app/application/services/workflow_clone_service.py:68-152 | In a consistent database, with room for the name and distinct agent names, the clone goes through iff the workflow is closed: no tool, edge end or link leaves it |
| `CloneSpec.LinksStayInWorkflow` | AgentServer/app/application/services/workflow_clone_service.py:130-140 | Consistency already rules out a missed lookup of a position or config link |
| `CloneSpec.CarriedNamesDistinct` | AgentServer/app/infrastructure/db/models.py:141-143 | If all rows carry one tenant, the unique key makes the agent names distinct, so the flush cannot fail on them |
| `CloneSpec.LowerMeans` | AgentServer/app/infrastructure/db/models.py:58-61 | Two names share the unique key exactly if they are the same up to the case of ASCII letters |
| `CloneProofs.ClonedTables` | AgentServer/app/application/services/workflow_clone_service.py:44-155 | No earlier row is changed or removed, every copy is found under its id with exactly the relabelled contents of its source row, and the tables hold nothing else |
| `CloneContents.CloneKeepsContents` | AgentServer/app/application/services/workflow_clone_service.py:77-152 | Field by field: a copy keeps everything of its row but the tenant, the workflow and the references, which go to the copies of what the row refers to; coordinates, config kinds and edge data included |
| `CloneContents.OutcomeMeans` | AgentServer/app/application/services/workflow_clone_service.py:33-152 | Which error a clone ends in, by what is wrong with the rows: no such workflow; no tenant or its name taken up to case; then, in this order, a tool of an agent outside, equal agent names or an owner missing or doubled, a link or an edge end outside |
| `CloneProofs.CloneRows` | AgentServer/app/application/services/workflow_clone_service.py:68-152 | The new workflow's agents, tools, positions, configs and edges are exactly the images of the source's under the id maps, so the maps are bijections |
| `CloneProofs.CloneKeepsWellFormed` | AgentServer/app/application/services/workflow_clone_service.py:44-155 | A clone of a consistent database is consistent: keys, unique names, one owner per position and config, mutual links, existing edge ends |
| `CloneProofs.CloneIsClosed` | AgentServer/app/application/services/workflow_clone_service.py:77-152 | The copy is closed, carries the target tenant throughout and has distinct agent names |
| `CloneProofs.CloneCanBeClonedAgain` | AgentServer/app/application/services/workflow_clone_service.py:33-155 | Cloning the copy on into another tenant succeeds iff that tenant has room for the name |
| `CloneProofs.SecondCloneRefused` | AgentServer/app/infrastructure/db/models.py:22-27 | A second clone of the same workflow into the same tenant always fails on the unique workflow name |
| `Runtime.AgentConfigIsLinked` | AgentServer/app/infrastructure/db/models.py:160-164 | In a consistent database the config found through its owner column is the one the agent links to |
| `Runtime.ToolConfigIsLinked` | AgentServer/app/infrastructure/db/models.py:190-198 | The same for tools |
| `Runtime.AgentPositionIsLinked` | AgentServer/app/infrastructure/db/models.py:155-159 | The same for an agent's position |
| `Runtime.FalsyMeans` | AgentServer/agents/runtime/workflow_loader.py:128-150 | Exactly six values are taken for missing: null, false, zero and the empty text, list and object |
| `Loader.ConfigOfAgent` | AgentServer/agents/runtime/workflow_loader.py:115-117 | Finds the config an agent owns, or an empty one |
| `Loader.ConfigOfTool` | AgentServer/agents/runtime/workflow_loader.py:99-101 | Finds the config a tool owns, or an empty one |
| `Loader.PositionOfAgent` | AgentServer/agents/runtime/workflow_loader.py:119-121 | Finds the position an agent owns, if any |
| `Loader.GroupTools` | AgentServer/agents/runtime/workflow_loader.py:97-111 | Every visible tool is listed once, under its agent, and nothing else is |
| `Loader.LoadAgent` | AgentServer/agents/runtime/workflow_loader.py:115-137 | The runtime agent shows its row: name, flag, position and its own tools, and its settings with their defaults and casts; there is none iff a setting cannot be cast |
| `Loader.ListAgents` | AgentServer/agents/runtime/workflow_loader.py:113-137 | Every visible agent is listed exactly once, or nothing if one of them has a setting that cannot be cast |
| `Loader.ListEdges` | AgentServer/agents/runtime/workflow_loader.py:139-152 | Every visible edge is listed exactly once, with defaults for missing or empty data, or nothing if a timeout cannot be cast |
| `Loader.Load` | AgentServer/agents/runtime/workflow_loader.py:88-159 | Without a tenant in the context loading fails with its own error, and for a workflow that does not exist or is another tenant's with another; from consistent tables it succeeds otherwise iff every visible number setting can be cast. Each loaded edge has the source, target and condition of its own row; from consistent tables each agent has the name, flag, position, settings and tools of its rows, and nothing is missing |
| `StoredGraph.EdgesAreStored` | AgentServer/agents/runtime/workflow_loader.py:139-152 | Loaded edges are the visible edge rows, each once and in the direction stored |
| `StoredGraph.AgentsAreStored` | AgentServer/agents/runtime/workflow_loader.py:97-137 | Loaded agents are the visible agent rows with their own columns, the settings under their config link, and the tool rows that name them |
| `StoredGraph.ReachableIsStored` | AgentServer/agents/runtime/workflow_loader.py:68-81 | Reachability in the loaded graph is reachability over the stored edge rows between the positions the agents link to |
| `CloneCommutes.CloneVisible` | AgentServer/app/application/services/workflow_clone_service.py:77-152 | The target tenant sees every row of the copy |
| `CloneCommutes.CloneCommutesWithLoad` | AgentServer/app/application/services/workflow_clone_service.py:68-155 | Main result: what the target tenant loads from the clone equals what tenant `s` loads from the source with ids renamed, if and only if the source's agents, tools and edges all carry `s` |
| `CloneHandoff.CloneKeepsReachability` | AgentServer/app/application/services/workflow_clone_service.py:142-152 | One agent of the clone can reach another over edges iff their originals can in the source |
| `CloneHandoff.CloneLoadsIff` | AgentServer/agents/runtime/workflow_loader.py:128-150 | The target tenant can load the clone iff the source's tenant can load the source |
| `Handoff.InitialAgentMeans` | AgentServer/agents/runtime/workflow_loader.py:64-66 | An initial agent is found iff one is flagged, and it is the first flagged one of the list |
| `CloneHandoff.InitialAgentOfView` | AgentServer/agents/runtime/workflow_loader.py:64-66 | If at most one agent is flagged, the initial agent does not depend on the order of rows |
| `CloneHandoff.CloneKeepsInitialAgent` | AgentServer/app/application/services/workflow_clone_service.py:77-87 | Calls to the clone start with the copy of the agent that calls to the source start with |
| `InitialAgents.KeepsOneFlaggedIff` | AgentServer/app/application/facade/agent_facade.py:27-57 | An operation keeps at most one initial agent in every workflow iff it neither creates a flagged agent in a workflow that has one nor flags an agent beside another flagged one |
| `InitialAgents.RunKeepsOneFlagged` | AgentServer/app/application/facade/agent_facade.py:27-57 | It holds in every state of a run in which no operation does that |
| `InitialAgents.FirstSecondFlagBreaks` | AgentServer/app/application/facade/agent_facade.py:27-57 | The first operation of a run that does that leaves two initial agents |
| `InitialAgents.FlaggedStarts` | AgentServer/agents/runtime/workflow_loader.py:64-66 | While it holds, calls start with the flagged agent the tenant can see, in any row order |
| `Handoff.Successors` | AgentServer/agents/runtime/workflow_loader.py:68-81 | The loop yields, edge by edge in order, the first agent placed at the edge's target |
| `Handoff.SuccessorIff` | AgentServer/agents/runtime/workflow_loader.py:68-81 | An agent is among the successors iff some edge leads from the position to the position at which that agent is found |
| `Handoff.Register` | AgentServer/agents/runtime/agent_factory.py:84-86 | One distinct live agent per agent of the workflow, and no others |
| `Handoff.Wire` | AgentServer/agents/runtime/agent_factory.py:88-94 | Each live agent ends up with its data tools followed by one transfer tool per successor |
| `Handoff.BuildGraph` | AgentServer/agents/runtime/agent_factory.py:73-99 | The registry is fully wired and the agent returned is the initial one, or else the first; there is none iff the workflow has no agents |
| `Handoff.TransferIffStep` | AgentServer/agents/runtime/agent_factory.py:91-92 | An agent holds a transfer tool to exactly the agents one edge away, both ends being agent positions |
| `Handoff.TransfersStayRegistered` | AgentServer/agents/runtime/agent_factory.py:207-208 | The registry lookup of a transfer never misses |
| `Handoff.FollowIsPath` | AgentServer/agents/runtime/agent_factory.py:199-210 | Using transfer tools one after another succeeds for exactly the paths of the graph and ends at the path's last agent |
| `Handoff.HandoffReachability` | AgentServer/agents/runtime/agent_factory.py:73-99 | Some chain of transfers leads from one live agent to another iff the other is reachable over edges |
| `StoredGraph.WiredIsLive` | AgentServer/agents/runtime/agent_factory.py:73-99 | A wired graph is live by the stored rows: each visible agent has its stored settings and tools, a transfer for each stored edge to another agent, with that agent's name and the edge's condition, and no others; chains of transfers lead to exactly the agents that stored edges lead to |
| `Handoff.LoadedPositionsDistinct` | AgentServer/agents/runtime/workflow_loader.py:113-137 | Workflows loaded from a consistent database satisfy what the results above ask for: distinct ids and positions |
| `EntryPoint.InitialListed` | AgentServer/agents/workers/entrypoint.py:54-58 | The loaded list has an initial agent iff a visible row is flagged, and it is such a row |
| `EntryPoint.WiredStarts` | AgentServer/agents/workers/entrypoint.py:74-78 | In a wired graph of a loaded workflow the initial agent has its row's settings, cast and completed by defaults, and from it transfers lead to exactly the agents reachable over edges |
| `EntryPoint.FirstSpeaker` | AgentServer/agents/workers/entrypoint.py:49-80 | End to end, from consistent tables to live agents: a call starts in the workflow's graph iff there is a tenant in the context, the workflow is that tenant's, it has an initial agent and all its number settings can be cast; the initial agent then speaks first, all agents have their stored settings and tools, and calls can be handed over to exactly the agents that stored edges lead to; otherwise a lone default agent without tools answers |
| `EntryPoint.WorkerFirstSpeaker` | AgentServer/agents/workers/entrypoint.py:45-80 | The worker as written sets no tenant, so every call gets the lone default agent, whatever the workflow and the tables |
| `ToolNames.SlugIsWords` | AgentServer/agents/runtime/agent_factory.py:33-35 | A slug is the name's maximal runs of letters and digits, in lower case and joined by underscores, or `agent` if there is none |
| `ToolNames.SlugLetters` | AgentServer/agents/runtime/agent_factory.py:33-35 | A slug keeps exactly the ASCII letters and digits of a name, in order and lower-cased; without any it is `agent` |
| `ToolNames.SlugsClashIff` | AgentServer/agents/runtime/agent_factory.py:33-35 | Two names have the same slug iff they have the same words up to case |
| `ToolNames.TransferNamesDistinctIff` | AgentServer/agents/runtime/agent_factory.py:199-210 | An agent's transfer tools have distinct names iff the names of its successors have distinct words |
| `ToolNames.ToolNamesDistinctIff` | AgentServer/agents/runtime/agent_factory.py:88-94 | All tools of an agent have distinct names iff its data tools have, its successors' words are distinct, and no data tool is called like a transfer |
| `ToolNames.SameTargetClashes` | AgentServer/agents/runtime/agent_factory.py:91-92 | Two edges that lead to the same agent give two tools of the same name |
| `AgentSettings.FilledMeans` | AgentServer/app/application/facade/agent_facade.py:34-42 | Creation stores each setting as given if it is truthy (texts) or not null (numbers), and its default otherwise |
| `AgentSettings.FilledByName` | AgentServer/app/application/facade/agent_facade.py:34-43 | Name by name: creation replaces three texts if missing or falsy and two numbers if missing or null, by 0.7 and 1024 and the default texts, and touches nothing else |
| `AgentSettings.GivenIsLoadedIff` | AgentServer/agents/runtime/workflow_loader.py:128-133 | A setting given at creation is the one loaded iff it is a truthy value (texts), a nonzero number (temperature) or a nonzero whole number (maxTokens) |
| `AgentSettings.LoadsIff` | AgentServer/agents/runtime/workflow_loader.py:131-132 | A created agent's settings can be loaded iff a truthy temperature can be cast to a float and a truthy maxTokens to an int |
| `AgentSettings.CastsMean` | AgentServer/agents/runtime/workflow_loader.py:131-132 | What the casts do: numbers lose their fraction towards zero, true is one, text is read by the parser, and null, lists and objects cannot be cast |
| `AgentSettings.LoadsWithAgentIff` | AgentServer/agents/runtime/workflow_loader.py:113-137 | After an agent is created its workflow's settings can be cast iff they could before and the new agent's own can: one agent decides for all |
| `AgentSettings.CreatedThenLoaded` | AgentServer/agents/runtime/workflow_loader.py:113-137 | End to end: an agent created in a consistent database and then loaded is listed, and each setting it was given is the one it is loaded with exactly in the cases above |
| `AgentSettings.ZeroTemperatureIsLost` | AgentServer/agents/runtime/workflow_loader.py:131-131 | A temperature of zero is stored as given and loaded as 0.7 |
| `AgentSettings.FractionIsLost` | AgentServer/agents/runtime/workflow_loader.py:132-132 | A number of tokens is stored as given and loaded without its fraction, so that one half becomes zero |
| `AgentSettings.EdgeKeepsIff` | AgentServer/agents/runtime/workflow_loader.py:139-152 | Of an edge's data, texts are loaded as stored iff truthy or equal to the default, and the timeout iff it is a whole number |
| `AgentSettings.DefaultsLoaded` | AgentServer/agents/runtime/workflow_loader.py:128-150 | What is loaded for an agent or an edge where nothing is stored |
| `Repositories.ChooseId` | AgentServer/app/infrastructure/db/models.py:144-144 | A new row's id is the client's if given, and otherwise fresh |
| `Repositories.AgentRepository.Insert` | AgentServer/app/application/facade/agent_facade.py:27-57 | Agent, config and position are created one after the other and end up linked to each other both ways |
| `Repositories.AgentRepository.Create` | AgentServer/app/application/facade/agent_facade.py:27-57 | Creation succeeds iff the name is free in the workflow, the workflow exists and a given id is unused; exactly one agent, config and position row are added, linked both ways, the position at the origin and the settings completed by defaults; a taken name is reported iff it is taken; failure changes nothing |
| `Repositories.AgentRepository.Update` | AgentServer/app/infrastructure/repository/agent_repository.py:45-56 | Renames the agent iff it is the tenant's and no other agent of that tenant and workflow has the name, and sets the flag iff the payload has one; otherwise nothing changes |
| `Repositories.AgentRepository.Delete` | AgentServer/app/infrastructure/repository/agent_repository.py:116-144 | Deletes iff the agent is the tenant's, and then removes exactly its edges, config, position and itself; otherwise nothing changes |
| `Repositories.ToolRepository.Insert` | AgentServer/app/application/facade/tool_facade.py:24-52 | Tool, config and position are created one after the other and end up linked to each other both ways |
| `Repositories.ToolRepository.Create` | AgentServer/app/application/facade/tool_facade.py:24-52 | Creation succeeds iff workflow and agent exist and a given id is unused, and adds exactly one tool, config and position row with what was asked for; any broken constraint is reported as a taken name |
| `Repositories.ToolRepository.Update` | AgentServer/app/infrastructure/repository/tool_repository.py:50-62 | Sets name and method iff the tool is the tenant's; its links stay |
| `Repositories.ToolRepository.Delete` | AgentServer/app/infrastructure/repository/tool_repository.py:69-100 | The same teardown for a tool |
| `Repositories.ConfigRepository.Update` | AgentServer/app/infrastructure/repository/node_config_repository.py:13-20 | Replaces the stored settings iff the config is the tenant's, and nothing else |
| `Repositories.EdgeRepository.Create` | AgentServer/app/infrastructure/repository/edge.py:9-13 | Adds the edge iff its workflow and both positions exist and a given id is unused |
| `Repositories.EdgeRepository.Delete` | AgentServer/app/infrastructure/repository/edge.py:19-25 | Removes exactly the tenant's edge with that id, or reports it missing |
| `Repositories.PositionRepository.Update` | AgentServer/app/infrastructure/repository/position_repository.py:13-25 | The position gets the coordinates, owner and workflow of the payload iff it exists and is the tenant's; otherwise nothing changes |
| `Repositories.PositionRepository.UpdateBulk` | AgentServer/app/infrastructure/repository/position_repository.py:27-38 | Each position of the tenant ends where the last placement of the batch for it puts it, every other one stays; exactly the accepted placements are returned, in order |
| `Repositories.PlacingKeepsAcceptance` | AgentServer/app/infrastructure/repository/position_repository.py:29-35 | Which placements of a batch count is settled before the first one is applied |
| `RowContents.MovesStored` | AgentServer/app/infrastructure/repository/position_repository.py:27-38 | After a batch the last move for a position decides its coordinates and owner, and only positions of the tenant change |
| `Mutations.CreateWorkflowKeeps` | AgentServer/app/infrastructure/repository/workflow_respository.py:12-20 | Adding a workflow with a free name keeps the database consistent |
| `Mutations.CreateAgentKeeps` | AgentServer/app/application/facade/agent_facade.py:27-57 | Adding an agent with config and position keeps the database consistent |
| `Mutations.CreateToolKeeps` | AgentServer/app/application/facade/tool_facade.py:24-52 | Adding a tool with config and position keeps the database consistent |
| `Mutations.DeleteAgentKeeps` | AgentServer/app/infrastructure/repository/agent_repository.py:116-144 | Deleting an agent leaves no edge, position, config or link that refers to what is gone |
| `Mutations.DeleteToolKeeps` | AgentServer/app/infrastructure/repository/tool_repository.py:69-100 | The same for deleting a tool |
| `Mutations.MovesKeepRest` | AgentServer/app/infrastructure/repository/position_repository.py:27-38 | Placements that keep owner and workflow change coordinates and nothing else |
| `Mutations.ActionKeepsWellFormed` | AgentServer/app/infrastructure/db/models.py:22-229 | Each of twelve operations, updates and clone included, keeps the database consistent |
| `Mutations.RunKeepsWellFormed` | AgentServer/app/infrastructure/db/models.py:22-229 | Every state of every run of those operations is consistent: edge ends exist, each position and config has one live owner, and each node's link is the row that names it as owner |
| `Mutations.CreateThenDeleteAgent` | AgentServer/app/infrastructure/repository/agent_repository.py:116-144 | Deleting an agent just created restores the database exactly |
| `Mutations.CreateThenDeleteTool` | AgentServer/app/infrastructure/repository/tool_repository.py:69-100 | Deleting a tool just created restores the database exactly |
| `ClosedWorkflows.KeepsClosedIff` | AgentServer/app/infrastructure/repository/edge.py:9-13 | In a consistent database an operation keeps every workflow closed iff it is neither a tool for an agent of another workflow nor an edge with an end in another workflow |
| `ClosedWorkflows.RunKeepsClosed` | AgentServer/app/infrastructure/repository/edge.py:9-13 | Every workflow is closed in every state of a run up to the first such operation |
| `ClosedWorkflows.RunKeepsClonable` | AgentServer/app/application/services/workflow_clone_service.py:68-152 | Until then a workflow can be cloned into a tenant iff the tenant has room for its name and its agents' names differ |
| `ClosedWorkflows.CrossingStopsClones` | AgentServer/app/application/services/workflow_clone_service.py:89-152 | After such an operation no tenant can clone the workflow that it left open |
| `ClosedWorkflows.RunCrossingStopsClones` | AgentServer/app/application/services/auth_service.py:107-119 | The same at any point of any run, so a tool or edge across workflows in the demo workflow ends registration |
| `TenantIsolation.OthersRowsKept` | AgentServer/app/infrastructure/repository/agent_repository.py:116-144 | An operation for one tenant leaves all agents, tools, positions and configs of every other tenant as they are, and their edges but for those at the position of a node it deletes |
| `TenantIsolation.SeenSameIff` | AgentServer/app/infrastructure/repository/agent_repository.py:124-130 | What another tenant sees of a workflow changes iff the operation deletes a node at whose position that tenant has an edge in the workflow |
| `TenantIsolation.ActionKeepsOwners` | AgentServer/app/application/facade/agent_facade.py:27-57 | Every operation keeps positions and configs with the tenant of the node they belong to |
| `TenantIsolation.RunUnseen` | AgentServer/app/infrastructure/repository/agent_repository.py:95-114 | Over any stretch of a run in which only others act and delete no such node, a tenant sees the same graph |
| `TenantIsolation.KeepsEndsOwnIff` | AgentServer/app/infrastructure/repository/edge.py:9-13 | An operation keeps every edge between nodes of its own tenant iff it is not the creation of an edge that is not |
| `TenantIsolation.TenantsIsolated` | README.md:207-207 | Main result: in every run in which each new edge joins nodes of its own tenant, nothing that others do changes what a tenant sees of any workflow |
| `PositionBuffer.Builder.OnNodesChange` | AgentUi/agent@ui/src/hooks/workflow/useWorkflowBuilder.js:635-672 | The nodes reflect all changes in order, and the buffer holds for each moved node its final place, the last one winning |
| `PositionBuffer.Builder.OnTimer` | AgentUi/agent@ui/src/hooks/workflow/useWorkflowBuilder.js:662-666 | The buffer is emptied into a batch that holds every pending placement once |
| `PositionBuffer.BatchOverlays` | AgentServer/app/infrastructure/repository/position_repository.py:27-38 | Storing the buffer in whatever order overlays exactly the pending placements that count |
| `PositionBuffer.ChangesStayInStep` | AgentUi/agent@ui/src/hooks/workflow/useWorkflowBuilder.js:635-672 | After any changes, the two servers differ by exactly the buffer |
| `PositionBuffer.DragStaysInStep` | AgentUi/agent@ui/src/hooks/workflow/useWorkflowBuilder.js:674-696 | A drag stop, which bypasses the buffer, keeps the two servers apart by exactly the buffer: what it sends is what the buffer holds for that node |
| `PositionBuffer.WriteBehindStaysInStep` | AgentUi/agent@ui/src/hooks/workflow/useWorkflowBuilder.js:635-696 | At every moment of every run, storing the buffer once more would make the batched server equal to one that stored every move at once |
| `PositionBuffer.WriteBehindIsWriteThrough` | AgentUi/agent@ui/src/hooks/workflow/useWorkflowBuilder.js:635-696 | Whenever the buffer is empty, the debounced server and the immediate one store the same layout |
| `PositionBuffer.MoveIsStored` | AgentUi/agent@ui/src/hooks/workflow/useWorkflowBuilder.js:635-672 | What is dragged is what is stored: after the last move of a node still there, and the next timer, the server has its position at exactly those coordinates, with the node as its owner |
| `PositionBuffer.StillThereIff` | AgentUi/agent@ui/src/hooks/workflow/useWorkflowBuilder.js:635-672 | A node is still there iff no change removed it |
| `RateLimiter.RateLimiter.IsAllowed` | AgentServer/app/core/rate_limiter.py:17-49 | A request is admitted iff fewer than `limit` entries of its key's history are less than a window old; exactly those are kept, and the request if admitted; other keys are left alone |
| `RateLimiter.AdmitsIfFewer` | AgentServer/app/core/rate_limiter.py:28-49 | The same of the specification: what counts and what is kept is settled by the clock |
| `RateLimiter.KeysNeverLeave` | AgentServer/app/core/rate_limiter.py:34-48 | Every key ever seen stays in the table, against the intent of the comment in the code |
| `SlidingWindow.RecentOfRecent` | AgentServer/app/core/rate_limiter.py:28-32 | What is pruned at one time never counts at a later one |
| `SlidingWindow.DropOldIsRecent` | AgentServer/app/application/services/session_service.py:64-66 | On a sorted history, popping from the left keeps exactly what filtering keeps |
| `SlidingWindow.HistoryAgrees` | AgentServer/app/core/rate_limiter.py:26-49 | After any run the pruned history and the full log agree on everything that still counts |
| `SlidingWindow.PrunedRefinesFull` | AgentServer/app/core/rate_limiter.py:26-49 | With a clock that never goes back and one window per key, a call is admitted iff fewer than the limit were admitted less than a window ago (at most a window ago, for the closed kind), as if the full log of admissions had been kept |
| `SlidingWindow.ClockMustNotGoBack` | AgentServer/app/core/rate_limiter.py:26-32 | A run with a clock that goes back, on which pruned history and full log answer differently |
| `SlidingWindow.AdmissionsSpaced` | AgentServer/app/core/rate_limiter.py:41-49 | Admissions `limit` apart are at least a window apart, for the closed kind more than one |
| `SlidingWindow.WindowBound` | AgentServer/app/core/rate_limiter.py:17-49 | No interval [lo, lo + window), and for the closed kind no [lo, lo + window], holds more than `limit` admissions of a key |
| `LaunchLimiter.LaunchLimiter.Enforce` | AgentServer/app/application/services/session_service.py:36-79 | Refuses for the cap iff it is reached; a missing or empty address is not limited further; otherwise it refuses iff `perIp` launches of the address are at most a window old, and keeps exactly those and the launch if admitted |
| `LaunchLimiter.AfterIsPruned` | AgentServer/app/application/services/session_service.py:64-79 | One launch under the deque is one call to the filtering limiter with a closed window |
| `LaunchLimiter.DequeIsFilter` | AgentServer/app/application/services/session_service.py:64-79 | Over every run, the deques equal the histories that filtering the log would keep |
| `LaunchLimiter.LaunchedIsAdmitted` | AgentServer/app/application/services/session_service.py:57-79 | The launches let through from an address are the admissions of its key |
| `LaunchLimiter.AnswerByLog` | AgentServer/app/application/services/session_service.py:44-79 | A launch is let through iff there is a free session and, for a named address, fewer than `perIp` launches from it were let through at most a window ago |
| `LaunchLimiter.LaunchBound` | AgentServer/app/application/services/session_service.py:57-79 | No closed interval of the window's length holds more than the allowed number of launches from one address |
| `LaunchLimiter.RefusedAddsNothing` | AgentServer/app/application/services/session_service.py:44-79 | A refused launch adds no entry: each history is afterwards a suffix of what it was |
| `Login.TryUser` | AgentServer/app/application/services/auth_service.py:145-163 | What one pass makes of one user: signed in, charged one failure and perhaps locked, or untouched |
| `Login.AuthenticateUserByEmail` | AgentServer/app/application/services/auth_service.py:124-169 | The answer and all accounts after one pass are those of the specification, for any list of accounts |
| `Login.PassOutcome` | AgentServer/app/application/services/auth_service.py:144-169 | The first active, unlocked account of the email whose password fits signs in, with its counter at zero, no lock and the time as last login; exactly the active unlocked ones before it are charged one failure and locked for the duration if that reaches the threshold; all others stay as they were; the lock error is raised iff none fits and some active account of the email was or becomes locked |
| `Login.WaitOutcome` | AgentServer/app/application/services/auth_service.py:165-167 | The wait reported is the whole seconds left of the lock of the last account that turned the attempt away |
| `Login.CountsSinceSignIn` | AgentServer/app/application/services/auth_service.py:144-163 | In every run, sign-ins included: the counter is the number of wrong passwords checked since the last sign-in, a lock is set iff they have reached the threshold, and the last login is the last sign-in |
| `Login.LockedAccountRejects` | AgentServer/app/application/services/auth_service.py:146-148 | While locked, an account is not touched and not signed in to, even with the right password |
| `Login.BarsIffEndsLocked` | AgentServer/app/application/services/auth_service.py:157-167 | With a positive duration, a candidate causes the lock error iff it ends locked |
| `Login.AttemptKeepsLocks` | AgentServer/app/application/services/auth_service.py:150-163 | One attempt keeps lock and counter in agreement |
| `Login.RunKeepsLocks` | AgentServer/app/application/services/auth_service.py:144-163 | In every state of every run a lock is set iff the counter has reached the threshold, and ends within the duration |
| `Login.RetryAfterBounded` | AgentServer/app/application/services/auth_service.py:165-167 | Every wait reported lies between zero and the lock duration |
| `Login.GuessesPaced` | AgentServer/app/application/services/auth_service.py:144-163 | The counter is the number of password checks so far, and once it has reached the threshold each further check waited out a whole lock |
| `Login.GuessBound` | AgentServer/app/application/services/auth_service.py:144-163 | For passes one after another: by time `t` at most THRESHOLD + floor((t - t0) / DURATION) password checks of one account have been evaluated without success |
| `Login.GuessBoundAttained` | AgentServer/app/application/services/auth_service.py:144-163 | For every number of durations some run makes exactly as many checks as the bound allows |
| `OverlappingLogins.AloneIsOnePass` | AgentServer/app/application/services/auth_service.py:145-163 | A pass that nothing overlaps does to an account what the sign-in loop does |
| `OverlappingLogins.MissUsesOne` | AgentServer/app/application/services/auth_service.py:157-163 | With at most k passes between read and write, every write below the threshold uses up one of a finite potential, even if it sets the counter back |
| `OverlappingLogins.OverlapBound` | AgentServer/app/application/services/auth_service.py:144-163 | With at most k overlapping passes in any order, an account that is never signed in to has its password checked at most Paths(THRESHOLD - 1, k) - 1 times, plus once per lock, plus the passes under way |
| `OverlappingLogins.PathsIsBinomial` | AgentServer/app/application/services/auth_service.py:144-163 | Paths(n, k) is the binomial coefficient n + k over k |
| `OverlappingLogins.OneAtATimeBound` | AgentServer/app/application/services/auth_service.py:144-163 | For k = 1 the bound is the threshold plus one check per lock |
| `OverlappingLogins.OverlapBoundAttained` | AgentServer/app/application/services/auth_service.py:144-163 | For every threshold and every k >= 1 some run makes exactly as many checks before any lock as the bound allows |
| `OverlappingLogins.TwoOverlapping` | AgentServer/app/application/services/auth_service.py:144-163 | At the default threshold of five some run with two overlapping passes makes 16 checks without a lock |
| `OverlapPace.LockPace` | AgentServer/app/application/services/auth_service.py:144-163 | With at most k overlapping passes whose reads come in the order of their times, whenever they write, by time `t` an account has been locked at most k + floor((t - t0) / DURATION) * k * (k + 1) / 2 times, passes under way that will lock included |
| `OverlapPace.OverlapGuessBound` | AgentServer/app/application/services/auth_service.py:144-163 | Main result: by then its password has been checked at most Paths(THRESHOLD - 1, k) - 1 + k + floor((t - t0) / DURATION) * k * (k + 1) / 2 times; for k = 1 this is the bound for passes one after another |
| `OverlapPace.OverlapGuessBoundAttained` | AgentServer/app/application/services/auth_service.py:144-163 | For every threshold, every k >= 1 and every number of durations some run makes exactly as many checks as the bound allows |
| `SessionService.SessionService.GetActive` | AgentServer/app/infrastructure/repository/session_repository.py:22-34 | The active session of a workflow that started last, or none if none is active |
| `SessionService.SessionService.MarkStopped` | AgentServer/app/application/services/session_service.py:202-204 | The row is stopped and has an end time; nothing else changes |
| `SessionService.SessionService.CheckAndProceed` | AgentServer/app/application/services/session_service.py:101-110 | The limits answer from the current number of active rows; a launch let through holds a session id nobody knows yet |
| `SessionService.SessionService.BeginLaunch` | AgentServer/app/application/services/session_service.py:97-127 | A launch up to its first await is a step of the transition system, waiting on the stale room or past the check |
| `SessionService.SessionService.ResumeLaunch` | AgentServer/app/application/services/session_service.py:99-127 | Ending the stale row and checking the limits is one step, in this order |
| `SessionService.SessionService.FinishLaunch` | AgentServer/app/application/services/session_service.py:155-161 | Once the room exists the row is created active |
| `SessionService.SessionService.BeginStop` | AgentServer/app/application/services/session_service.py:176-187 | A stop picks the latest active row, and does nothing if there is none |
| `SessionService.SessionService.FinishStop` | AgentServer/app/application/services/session_service.py:199-204 | The stop then ends that row, whether or not the room could be deleted |
| `SessionService.SessionService.WorkerLooksUp` | AgentServer/agents/workers/entrypoint.py:159-163 | The worker notes whether its row is still active |
| `SessionService.SessionService.WorkerStores` | AgentServer/agents/workers/entrypoint.py:164-172 | Usage is stored always; status, time and reason only if the row was found active |
| `SessionLifecycle.StepKeepsLoad` | AgentServer/app/application/services/session_service.py:88-174 | One step keeps active rows plus launches in flight within the cap less one plus the launches in flight allowed |
| `SessionLifecycle.LoadBound` | AgentServer/app/application/services/session_service.py:88-174 | In every interleaving with at most `k` launches between check and row, active rows plus launches in flight never exceed MAX_CONCURRENT_SESSIONS - 1 + k; with k = 1 the cap itself holds |
| `SessionLifecycle.RelaunchFreesItsSlot` | AgentServer/app/application/services/session_service.py:97-101 | Relaunching a workflow is never refused for the slot its own stale session holds |
| `SessionLifecycle.LoadBoundAttained` | AgentServer/app/application/services/session_service.py:101-161 | For every cap and every k >= 1 some run reaches exactly the bound, so with two launches in flight the cap is exceeded |
| `SessionLifecycle.StepKeepsRecords` | AgentServer/agents/workers/entrypoint.py:159-172 | One step keeps rows and workers in agreement and never revives a stopped row |
| `SessionLifecycle.RecordsAgree` | AgentServer/agents/workers/entrypoint.py:159-172 | In every interleaving: an end time iff stopped, a reason iff the worker found the row active, and once the worker is done the row is stopped with the worker's usage |
| `SessionHistory.PendingTraced` | AgentServer/app/application/services/session_service.py:88-200 | In every run what is pending agrees with the events that began it: workflow, address and stale session of a launch, session of a stop, and what the worker found |
| `SessionHistory.PicksLatest` | AgentServer/app/infrastructure/repository/session_repository.py:22-34 | A stop and a relaunch pick the active session of the workflow that started last, and pick none only if none is active |
| `SessionHistory.RowsByEvents` | AgentServer/app/application/services/session_service.py:88-205 | In every run the events settle the rows: a row comes into being when the room of its launch does, with that launch's workflow and session id; it is ended, with the event's time, by a stop that picked it, a relaunch that found it stale or its worker if that had found it active; the worker alone sets usage and reason |
| `SessionHistory.LetThroughIff` | AgentServer/app/application/services/session_service.py:97-101 | In every run a launch or relaunch is let through iff a session is free, its own stale one ended, and fewer than `perIp` launches from the address it began with were let through at most a window ago; without an address only the first counts |
| `SessionHistory.AddressBound` | AgentServer/app/application/services/session_service.py:88-101 | Main result: over every interleaving no closed interval of the window's length holds more than `perIp` launches let through from one address, relaunches included |
| `SessionLifecycle.StoppedForGood` | AgentServer/app/application/services/session_service.py:182-205 | A stopped session never becomes active again |
| `SessionLifecycle.StaysActiveIff` | AgentServer/app/application/services/session_service.py:88-205 | A step ends an active session iff it is a stop of it, a relaunch that found it stale, or its worker's write after finding it active |
| `SessionLifecycle.ActiveThoughDone` | AgentServer/agents/workers/entrypoint.py:159-175 | In every interleaving, a session active although its worker is done has a worker that gave up, and then only a stop or a relaunch can end it |
| `SessionLifecycle.FailingWorkerLeavesActive` | AgentServer/agents/workers/entrypoint.py:174-175 | A run in which the worker finds its row and fails to write it, and the session stays active with nothing under way to end it |
| `SessionLifecycle.OneSessionPerWorkflow` | AgentServer/app/application/services/session_service.py:91-99 | If launches of one workflow never overlap, it never has two active sessions |
| `SessionLifecycle.KeepsOneActiveIff` | AgentServer/app/application/services/session_service.py:155-161 | A step keeps at most one active session per workflow iff it is not the creation of a row for a workflow that has one |
| `SessionLifecycle.OverlapLeavesTwo` | AgentServer/app/application/services/session_service.py:91-99 | With overlapping launches it can: a run that ends with two active rows of one workflow |
| `PathTemplates.SubstitutePath` | AgentServer/agents/runtime/http_tool.py:54-64 | The loop fails iff some entry's name is truthy but not text, and otherwise performs the replacements one after the other, skipping entries without a name |
| `PathTemplates.ReplaceIsFill` | AgentServer/agents/runtime/http_tool.py:63-63 | Replacing one placeholder in the text fills that hole of the template, everywhere and nowhere else |
| `PathTemplates.ReplaceIsFillIff` | AgentServer/agents/runtime/http_tool.py:63-63 | For any text around the holes and any value, one replacement fills exactly the holes iff the placeholder occurs nowhere else or the value is the placeholder itself |
| `PathTemplates.SequentialIsSimultaneous` | AgentServer/agents/runtime/http_tool.py:54-64 | For names without braces and values without an opening brace, repeated names included, the loop fills all holes at once |
| `PathTemplates.PathFilled` | AgentServer/agents/runtime/http_tool.py:54-64 | For harmless names and values each hole of the path holds the argument of its name, or else the own value of the first entry that declares it, or else nothing, and the rest of the path stays |
| `PathTemplates.OrderDoesNotMatter` | AgentServer/agents/runtime/http_tool.py:54-64 | The order of parameters with distinct names does not matter |
| `PathTemplates.UnexposedIsSimultaneous` | AgentServer/agents/runtime/http_tool.py:54-64 | If no declared name with a hole in the path is followed by another declared name, the loop fills all holes at once for all arguments whatever |
| `PathTemplates.TwiceDeclaredDiffers` | AgentServer/agents/runtime/http_tool.py:54-64 | A name with a hole that is declared twice is substituted twice: with its own placeholder and an x as its value, each declaration adds an x |
| `PathTemplates.ExposedDiffers` | AgentServer/agents/runtime/http_tool.py:54-64 | If one is, some arguments come out differently: the later name's placeholder for a name declared once, and a value around its own placeholder for a name declared again |
| `PathTemplates.SafeIffUnexposed` | AgentServer/agents/runtime/http_tool.py:54-64 | So a tool's declarations are substituted simultaneously for every call iff no declared name with a hole in the path is followed by another declaration, of whatever name |
| `PathTemplates.ValueWithBraceIsReplacedAgain` | AgentServer/agents/runtime/http_tool.py:62-63 | An instance: a value that is a later placeholder is replaced again |
| `HttpTool.ParamNames` | AgentServer/agents/runtime/http_tool.py:67-75 | Exactly the names declared in some list |
| `HttpTool.Collect` | AgentServer/agents/runtime/http_tool.py:78-92 | The loop collects what the specification says |
| `HttpTool.CollectedMeans` | AgentServer/agents/runtime/http_tool.py:78-92 | An argument is collected iff declared, with its own value; anything else collected is a declared default |
| `HttpTool.CollectedIs` | AgentServer/agents/runtime/http_tool.py:78-92 | Exactly what is collected under a name: the argument if the name is declared, and without an argument the last truthy default |
| `HttpTool.BuildRequest` | AgentServer/agents/runtime/http_tool.py:105-141 | There is no body iff the method is GET or DELETE in whatever case. The query holds exactly the arguments and defaults of `queryParams`, and without a body the undeclared arguments; the body those of `bodyParams` and the undeclared ones, and under all other names the fields of the configured body |
| `HttpTool.RequestSends` | AgentServer/agents/runtime/http_tool.py:105-141 | The same of the specification, name by name and value by value |
| `HttpTool.ArgumentConservation` | AgentServer/agents/runtime/http_tool.py:118-141 | Each argument arrives with its value in every part it is declared for or left over to, and is missing from query and body exactly in the remaining cases, static body keys apart |
| `HttpTool.DroppedIff` | AgentServer/agents/runtime/http_tool.py:118-141 | Of the arguments not declared for the path, those that arrive in neither query nor body are exactly the ones declared solely for the body of a GET or DELETE |
| `HttpTool.NothingMadeUp` | AgentServer/agents/runtime/http_tool.py:118-141 | Everything sent is an argument, a declared default or part of the static body |
| `HttpTool.LeftoverDisjoint` | AgentServer/agents/runtime/http_tool.py:119-132 | Leftover arguments never collide with collected keys |
| `HttpTool.DeclaredProperties` | AgentServer/agents/runtime/agent_factory.py:111-129 | One property per declared name, from its first declaration, and each required name listed once |
| `HttpTool.BuildParametersSchema` | AgentServer/agents/runtime/agent_factory.py:101-141 | The schema has a property for exactly the declared and flat names; the first entry of path, query and body lists to declare a name settles its type, description and whether it is required; a flat name counts, as a required text, only if not declared |
| `IgnoredArguments.ReachedDiffers` | AgentServer/agents/runtime/http_tool.py:54-64 | If a name's placeholder is in the path when an entry that declares the name has its turn, two values of the argument lead to different addresses, whatever the other arguments and their order |
| `IgnoredArguments.UnreachedSame` | AgentServer/agents/runtime/http_tool.py:54-64 | And otherwise its value makes no difference to the path, nor to which names are reached |
| `IgnoredArguments.IgnoredIff` | AgentServer/agents/runtime/http_tool.py:105-141 | Main result: an argument makes no difference to address, query or body, whatever its value, iff it is declared, but neither for the query nor for a body that is sent, and its placeholder is not in the path when its turn comes |
| `IgnoredArguments.ReachedIffHole` | AgentServer/agents/runtime/http_tool.py:54-64 | For a path of plain text and holes and values without an opening brace, the last condition is that the name is declared for the path and has a hole in it |
| `IgnoredArguments.UrlPathMeans` | AgentServer/agents/runtime/http_tool.py:110-110 | After the base URL comes one slash and then the path without its leading slashes |
| `RoomNames.SplitLength` | AgentServer/agents/workers/entrypoint.py:195-196 | Splitting yields one part more than there are dashes |
| `RoomNames.JoinSplit` | AgentServer/agents/workers/entrypoint.py:195-200 | Joining undoes splitting |
| `RoomNames.SplitAround` | AgentServer/agents/workers/entrypoint.py:195-195 | Splitting at a dash splits both sides separately |
| `RoomNames.LastPartsAreSuffix` | AgentServer/agents/workers/entrypoint.py:194-200 | Whatever comes before it, a suffix with n dashes is the last n + 1 parts joined |
| `RoomNames.CanonicalText` | AgentServer/app/application/services/session_service.py:109-110 | A uuid's text has 36 characters: lower-case hexadecimal digits, with dashes at 8, 13, 18 and 23 |
| `RoomNames.RoomNameText` | AgentServer/app/application/services/session_service.py:110-110 | A room's name is `workflow-`, the workflow's id, a dash and the session's id |
| `RoomNames.ParseCanonical` | AgentServer/agents/workers/entrypoint.py:200-200 | A uuid's canonical text reads back as that uuid |
| `RoomNames.RoomNameRoundTrip` | AgentServer/app/application/services/session_service.py:109-110 | The worker reads back from the room's name exactly the session id the service put into it |

## Left out

Contracts that say less than the code does:

- CloneService.CloneWorkflowToTenant: after a failure it states that no earlier row has changed, not that the caller rolls the half-made copies back, which is the caller's transaction.
- CloneSpec.Lower: lower-cases ASCII letters only; full Unicode case mapping is not modelled, nor is it in `HttpTool.Upper`.
- Loader.Load: on inconsistent tables it states which agents and edges are listed, not which of several configs or positions an agent gets, nor when a setting makes it fail; how text is read as a number is a function argument, and the infinite and undefined floats that text can also be read as are not modelled.
- Repositories.AgentRepository.Create: extra fields of the config payload, such as a client's own config id, can break the config's insertion and are not modelled.
- Repositories.AgentRepository.Delete: requires that the agent has no tools left, because what happens to those depends on ORM and cascade rules outside the modelled files.
- Repositories.ToolRepository.Create: a constraint that extra fields of the config payload break surfaces as a plain integrity error and is not modelled.
- Repositories.PositionRepository.Update: foreign-key failures of a payload that names a missing owner or workflow are not modelled, as for the bulk update.
- Repositories.PositionRepository.UpdateBulk: foreign-key failures of a payload that names a missing owner or workflow are not modelled; `Mutations` assumes that moves keep owner and workflow, as the builder's do.
- EntryPoint.FirstSpeaker: the default agent's settings are an argument.
- Handoff.BuildGraph: an empty workflow gives None where the source fails with an error.
- HttpTool.BuildRequest: how text is parsed as JSON is a function argument; parameter lists that are not lists declare nothing.
- HttpTool.ParamNames: names that are truthy but not text, which the source would count or fail on, are ignored.
- HttpTool.Collect: names that are truthy but not text, under which the source would collect defaults or fail, are ignored.
- HttpTool.DeclaredProperties: names that are truthy but not text, which would become properties, are ignored.
- HttpTool.BuildParametersSchema: names that are truthy but not text, which would become properties, are ignored.
- IgnoredArguments.IgnoredIff: for values that are shown as they are if they are text; names that are truthy but not text are ignored, and repeated slashes at the end of the base URL are not part of it.
- PathTemplates.SubstitutePath: how a value turns into text is a function argument; a parameter list that is not a list declares nothing.
- RoomNames.ParseCanonical: the braces, urn prefix and other spellings that a uuid parser also takes are not modelled; no canonical text uses them.
- Login.AuthenticateUserByEmail: the password check is a function argument and a pass is one step; overlapping passes are the subject of `OverlappingLogins`.
- OverlappingLogins.OverlapBound: one account that nobody signs in to; a successful pass, which resets the counter, is not among the steps, nor is it in `OverlapPace.OverlapGuessBound`.
- OverlapPace.OverlapGuessBound: a pass takes the time and reads the account in one step, so reads come in the order of their times; a pass that takes the time and is overtaken before it reads is not modelled.
- OverlapPace.LockPace: the same.
- ToolNames.ToolNamesDistinctIff: what the voice framework does with two tools of one name is not part of this model.
- SessionLifecycle.LoadBound: a commit is one atomic step, and the time between checking the limits and creating the row is one wait.

Not modelled at all:

- Row order of queries: sets are walked in an arbitrary order, and results are compared up to order.
- The tenant context variable: the tenant is a parameter of every operation, optional where a tenant may be missing.
- Clocks and settings: times and limits are parameters; a clock that never goes back is assumed only where a lemma says so.
- Room creation and deletion, tokens, audio and the language model: a room is a step that succeeds or fails.
- Created-at and updated-at columns, the handoff table, and columns that no modelled code reads.
- Updating and deleting workflows, and updating edges: they rewrite or remove rows without further logic, or through cascades outside the modelled files. With that the branch in which the worker finds no row: no caller can join before the row exists.
- Creating a workflow together with its first agent: it is the two modelled creations in one transaction.
- Unavailable databases and the rollback after any error.
- The language prefix of instructions, data-tool descriptions and handlers, and the wording of default prompts.
- URL, scheme and host checks, headers, and the treatment of the response of a tool call.
- Nodes added in the builder, the length of the debounce, and batches that arrive out of order or get lost.
- Rendering, routing, middleware, deployment, migrations, pagination, confirmation codes and simple getters: they would only add easy members.
