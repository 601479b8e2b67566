/** What the rows of a clone hold, field by field, and what exactly makes a clone fail. */
module CloneContents {
  import opened Wrappers
  import opened Tables
  import opened CloneSpec
  import CloneProofs

  /** A reference to a copied row becomes one to its copy, any other becomes null. */
  predicate LinkCopied(ref: Option<Id>, copy: Option<Id>, ids: map<Id, Id>) {
    if ref.Some? && ref.value in ids then copy == Some(ids[ref.value]) else copy.None?
  }

  predicate AgentCopied(row: AgentRow, copy: AgentRow, t: Id, m: Ids) {
    && copy.tenant == Some(t) && copy.workflow == m.workflow && copy.name == row.name && copy.isInitial == row.isInitial
    && LinkCopied(row.position, copy.position, m.positions) && LinkCopied(row.config, copy.config, m.configs)
  }

  predicate ToolCopied(row: ToolRow, copy: ToolRow, t: Id, m: Ids) {
    && copy.tenant == Some(t) && copy.workflow == m.workflow && copy.name == row.name
    && copy.httpMethod == row.httpMethod && row.agent in m.agents && copy.agent == m.agents[row.agent]
    && LinkCopied(row.position, copy.position, m.positions) && LinkCopied(row.config, copy.config, m.configs)
  }

  predicate PositionCopied(row: PositionRow, copy: PositionRow, t: Id, m: Ids) {
    && copy.tenant == Some(t) && copy.workflow == m.workflow && copy.x == row.x && copy.y == row.y
    && LinkCopied(row.agent, copy.agent, m.agents) && LinkCopied(row.tool, copy.tool, m.tools)
  }

  predicate ConfigCopied(row: ConfigRow, copy: ConfigRow, t: Id, m: Ids) {
    && copy.tenant == Some(t) && copy.workflow == m.workflow && copy.kind == row.kind && copy.config == row.config
    && LinkCopied(row.agent, copy.agent, m.agents) && LinkCopied(row.tool, copy.tool, m.tools)
  }

  /** Empty data may be stored as null. */
  predicate EdgeCopied(row: EdgeRow, copy: EdgeRow, t: Id, m: Ids) {
    && copy.tenant == Some(t) && copy.workflow == m.workflow
    && row.source in m.positions && copy.source == m.positions[row.source]
    && row.target in m.positions && copy.target == m.positions[row.target]
    && copy.data.GetOr(map[]) == row.data.GetOr(map[]) && copy.data != Some(map[])
  }

  /** Every row of the workflow has its copy, under its minted id. */
  ghost predicate AgentsCopied(db: Db, db': Db, w: Id, t: Id, m: Ids) {
    forall a :: a in db.agents && db.agents[a].workflow == w ==>
      a in m.agents && m.agents[a] in db'.agents && AgentCopied(db.agents[a], db'.agents[m.agents[a]], t, m)
  }

  ghost predicate ToolsCopied(db: Db, db': Db, w: Id, t: Id, m: Ids) {
    forall k :: k in db.tools && db.tools[k].workflow == w ==>
      k in m.tools && m.tools[k] in db'.tools && ToolCopied(db.tools[k], db'.tools[m.tools[k]], t, m)
  }

  ghost predicate AttachedCopied(db: Db, db': Db, w: Id, t: Id, m: Ids) {
    && (forall p :: p in db.positions && db.positions[p].workflow == w ==>
          p in m.positions && m.positions[p] in db'.positions &&
          PositionCopied(db.positions[p], db'.positions[m.positions[p]], t, m))
    && (forall c :: c in db.configs && db.configs[c].workflow == w ==>
          c in m.configs && m.configs[c] in db'.configs &&
          ConfigCopied(db.configs[c], db'.configs[m.configs[c]], t, m))
  }

  ghost predicate EdgesCopied(db: Db, db': Db, w: Id, t: Id, m: Ids) {
    forall e :: e in db.edges && db.edges[e].workflow == w ==>
      e in m.edges && m.edges[e] in db'.edges && EdgeCopied(db.edges[e], db'.edges[m.edges[e]], t, m)
  }

  ghost predicate WorkflowCopied(db: Db, db': Db, w: Id, t: Id, m: Ids) {
    && w in db.workflows && m.workflow in db'.workflows
    && db'.workflows[m.workflow].tenant == t && db'.workflows[m.workflow].name == db.workflows[w].name
    && db'.workflows[m.workflow].nameLower == Lower(db.workflows[w].name)
  }

  ghost predicate Copied(db: Db, db': Db, w: Id, t: Id, m: Ids) {
    && WorkflowCopied(db, db', w, t, m) && AgentsCopied(db, db', w, t, m) && ToolsCopied(db, db', w, t, m)
    && AttachedCopied(db, db', w, t, m) && EdgesCopied(db, db', w, t, m)
  }

  /** A clone changes nothing about a row but whose it is and what it refers to. */
  lemma CloneKeepsContents(db: Db, w: Id, t: Id, m: Ids)
    requires CloneProofs.Clones(db, w, t, m)
    ensures Copied(db, Cloned(db, w, t, m), w, t, m)
  {
    CloneProofs.ClonedTables(db, w, t, m);
    KeptIn(db, Cloned(db, w, t, m), w, t, m);
  }

  lemma KeptIn(db: Db, db': Db, w: Id, t: Id, m: Ids)
    requires CloneProofs.Clones(db, w, t, m) && CloneProofs.HoldsCopies(db, t, m, db')
    ensures AgentsCopied(db, db', w, t, m) && ToolsCopied(db, db', w, t, m)
    ensures AttachedCopied(db, db', w, t, m) && EdgesCopied(db, db', w, t, m)
  {
    AgentsKept(db, db', w, t, m);
    ToolsKept(db, db', w, t, m);
    AttachedKept(db, db', w, t, m);
    EdgesKept(db, db', w, t, m);
  }

  lemma AgentsKept(db: Db, db': Db, w: Id, t: Id, m: Ids)
    requires m.agents.Keys == AgentsOf(db, w) && CloneProofs.HoldsCopies(db, t, m, db')
    ensures AgentsCopied(db, db', w, t, m)
  {
    forall a | a in db.agents && db.agents[a].workflow == w ensures a in m.agents {
      assert a in AgentsOf(db, w);
    }
  }

  lemma ToolsKept(db: Db, db': Db, w: Id, t: Id, m: Ids)
    requires m.tools.Keys == ToolsOf(db, w) && m.agents.Keys == AgentsOf(db, w) && ToolsAttached(db, w)
    requires CloneProofs.HoldsCopies(db, t, m, db')
    ensures ToolsCopied(db, db', w, t, m)
  {
    forall k | k in db.tools && db.tools[k].workflow == w ensures k in m.tools && db.tools[k].agent in m.agents {
      assert k in ToolsOf(db, w);
    }
  }

  lemma AttachedKept(db: Db, db': Db, w: Id, t: Id, m: Ids)
    requires m.positions.Keys == PositionsOf(db, w) && m.configs.Keys == ConfigsOf(db, w)
    requires CloneProofs.HoldsCopies(db, t, m, db')
    ensures AttachedCopied(db, db', w, t, m)
  {
    forall p | p in db.positions && db.positions[p].workflow == w ensures p in m.positions {
      assert p in PositionsOf(db, w);
    }
    forall c | c in db.configs && db.configs[c].workflow == w ensures c in m.configs {
      assert c in ConfigsOf(db, w);
    }
  }

  lemma EdgesKept(db: Db, db': Db, w: Id, t: Id, m: Ids)
    requires m.edges.Keys == EdgesOf(db, w) && m.positions.Keys == PositionsOf(db, w) && EdgesHit(db, w)
    requires CloneProofs.HoldsCopies(db, t, m, db')
    ensures EdgesCopied(db, db', w, t, m)
  {
    forall e | e in db.edges && db.edges[e].workflow == w
      ensures e in m.edges && db.edges[e].source in m.positions && db.edges[e].target in m.positions
    {
      assert e in EdgesOf(db, w);
    }
  }

  // Which failure it is.

  /** Of a position's or config's owners exactly one is a node of the workflow. */
  ghost predicate OwnedOnce(db: Db, w: Id, agent: Option<Id>, tool: Option<Id>) {
    var byAgent := agent.Some? && agent.value in db.agents && db.agents[agent.value].workflow == w;
    var byTool := tool.Some? && tool.value in db.tools && db.tools[tool.value].workflow == w;
    byAgent != byTool
  }

  ghost predicate PositionInside(db: Db, w: Id, p: Id) {
    p in db.positions && db.positions[p].workflow == w
  }

  ghost predicate ConfigInside(db: Db, w: Id, c: Id) {
    c in db.configs && db.configs[c].workflow == w
  }

  /** Some tool of the workflow hangs on an agent that is not copied. */
  ghost predicate StrayTool(db: Db, w: Id) {
    exists k :: k in db.tools && db.tools[k].workflow == w &&
      !(db.tools[k].agent in db.agents && db.agents[db.tools[k].agent].workflow == w)
  }

  /** Two agents of the workflow have one name, or something in it does not have one owner in it. */
  ghost predicate BadNodes(db: Db, w: Id) {
    || (exists a, b :: a in db.agents && b in db.agents && a != b && db.agents[a].workflow == w &&
          db.agents[b].workflow == w && db.agents[a].name == db.agents[b].name)
    || (exists p :: PositionInside(db, w, p) && !OwnedOnce(db, w, db.positions[p].agent, db.positions[p].tool))
    || (exists c :: ConfigInside(db, w, c) && !OwnedOnce(db, w, db.configs[c].agent, db.configs[c].tool))
  }

  ghost predicate StrayLinks(db: Db, w: Id, position: Option<Id>, config: Option<Id>) {
    (position.Some? && !PositionInside(db, w, position.value)) || (config.Some? && !ConfigInside(db, w, config.value))
  }

  /** A node of the workflow links to something that is not copied. */
  ghost predicate StrayLink(db: Db, w: Id) {
    || (exists a :: a in db.agents && db.agents[a].workflow == w &&
          StrayLinks(db, w, db.agents[a].position, db.agents[a].config))
    || (exists k :: k in db.tools && db.tools[k].workflow == w &&
          StrayLinks(db, w, db.tools[k].position, db.tools[k].config))
  }

  /** An edge of the workflow ends at something that is not copied. */
  ghost predicate StrayEdge(db: Db, w: Id) {
    exists e :: e in db.edges && db.edges[e].workflow == w &&
      !(PositionInside(db, w, db.edges[e].source) && PositionInside(db, w, db.edges[e].target))
  }

  /** The tenant does not exist, or has a workflow whose name differs at most in case. */
  ghost predicate NoRoom(db: Db, name: string, t: Id) {
    t !in db.tenants ||
    exists v :: v in db.workflows && db.workflows[v].tenant == t && db.workflows[v].nameLower == Lower(name)
  }

  lemma NodesOutcomeMeans(db: Db, w: Id)
    ensures NodesOutcome(db, w) == Some(KeyError) <==> StrayTool(db, w) || (!BadNodes(db, w) && StrayLink(db, w))
    ensures NodesOutcome(db, w) == Some(IntegrityError) <==> !StrayTool(db, w) && BadNodes(db, w)
    ensures NodesOutcome(db, w) != Some(SourceNotFound)
  {
    StrayToolMeans(db, w);
    BadNodesMeans(db, w);
    StrayLinkMeans(db, w);
  }

  lemma StrayToolMeans(db: Db, w: Id)
    ensures StrayTool(db, w) <==> !ToolsAttached(db, w)
  {
    forall k ensures k in ToolsOf(db, w) <==> k in db.tools && db.tools[k].workflow == w {
    }
  }

  lemma BadNodesMeans(db: Db, w: Id)
    ensures BadNodes(db, w) <==> !NamesDistinct(db, w) || !OwnersPresent(db, w)
  {
    forall p ensures p in PositionsOf(db, w) <==> PositionInside(db, w, p) {
    }
    forall c ensures c in ConfigsOf(db, w) <==> ConfigInside(db, w, c) {
    }
  }

  lemma StrayLinkMeans(db: Db, w: Id)
    ensures StrayLink(db, w) <==> !AgentLinksHit(db, w) || !ToolLinksHit(db, w)
  {
    forall p ensures p in PositionsOf(db, w) <==> PositionInside(db, w, p) {
    }
    forall c ensures c in ConfigsOf(db, w) <==> ConfigInside(db, w, c) {
    }
    forall a ensures a in AgentsOf(db, w) <==> a in db.agents && db.agents[a].workflow == w {
    }
    forall k ensures k in ToolsOf(db, w) <==> k in db.tools && db.tools[k].workflow == w {
    }
  }

  lemma StrayEdgeMeans(db: Db, w: Id)
    ensures StrayEdge(db, w) <==> !EdgesHit(db, w)
  {
    forall p ensures p in PositionsOf(db, w) <==> PositionInside(db, w, p) {
    }
    forall e ensures e in EdgesOf(db, w) <==> e in db.edges && db.edges[e].workflow == w {
    }
  }

  /** What goes wrong inside the workflow: first stray tools, then names and owners, then stray links and
      edges. */
  ghost function GraphError(db: Db, w: Id): Option<CloneError> {
    if StrayTool(db, w) then Some(KeyError)
    else if BadNodes(db, w) then Some(IntegrityError)
    else if StrayLink(db, w) || StrayEdge(db, w) then Some(KeyError)
    else None
  }

  /** Exactly which failure a clone ends in, by what is wrong with the rows: the workflow is missing, there
      is no room for its name, or something is wrong inside it. */
  lemma OutcomeMeans(db: Db, w: Id, t: Id)
    ensures w !in db.workflows ==> Outcome(db, w, t) == Some(SourceNotFound)
    ensures w in db.workflows && NoRoom(db, db.workflows[w].name, t) ==> Outcome(db, w, t) == Some(IntegrityError)
    ensures w in db.workflows && !NoRoom(db, db.workflows[w].name, t) ==> Outcome(db, w, t) == GraphError(db, w)
  {
    NodesOutcomeMeans(db, w);
    StrayEdgeMeans(db, w);
  }
}
