/** That a workflow has at most one agent flagged as initial, and which operations keep it so. */
module InitialAgents {
  import opened Wrappers
  import opened Tables
  import Relabelling
  import CloneSpec
  import CloneProofs
  import opened Mutations
  import opened Runtime
  import Handoff
  import CloneHandoff

  predicate Flagged(row: AgentRow) {
    row.isInitial == Some(true)
  }

  ghost predicate OneFlaggedEach(agents: map<Id, AgentRow>) {
    forall a, b | a in agents && b in agents ::
      Flagged(agents[a]) && Flagged(agents[b]) && agents[a].workflow == agents[b].workflow ==> a == b
  }

  /** The two ways to break it: creating a flagged agent in a workflow that has one, and flagging an
      agent beside another flagged one. */
  ghost predicate FlagsSecond(db: Db, act: Action) {
    match act
    case CreateAgent(_, _, _, w, isInitial, _, _) =>
      isInitial == Some(true) && exists a :: a in AgentsOf(db, w) && Flagged(db.agents[a])
    case UpdateAgent(a, _, _, isInitial) =>
      isInitial == Some(true) && a in db.agents &&
      exists b :: b in AgentsOf(db, db.agents[a].workflow) && b != a && Flagged(db.agents[b])
    case _ => false
  }

  lemma CloneKeepsOneFlagged(db: Db, w: Id, t: Id, m: CloneSpec.Ids)
    requires WellFormed(db) && CloneProofs.Clones(db, w, t, m) && OneFlaggedEach(db.agents)
    ensures OneFlaggedEach(CloneSpec.Cloned(db, w, t, m).agents)
  {
    CloneProofs.AgentTable(db, w, t, m);
    CloneProofs.NoRowsOf(db, m.workflow);
    CopiesFlagOnce(db, w, t, m, CloneSpec.Cloned(db, w, t, m).agents);
  }

  lemma CopiesFlagOnce(db: Db, w: Id, t: Id, m: CloneSpec.Ids, agents: map<Id, AgentRow>)
    requires Within(db.agents, agents) && agents.Keys == db.agents.Keys + m.agents.Values
    requires m.agents.Keys == AgentsOf(db, w) && AgentsOf(db, m.workflow) == {}
    requires forall a :: a in m.agents ==>
      m.agents[a] in agents && agents[m.agents[a]] == CloneSpec.AgentCopy(db.agents[a], t, m)
    requires OneFlaggedEach(db.agents)
    ensures OneFlaggedEach(agents)
  {
    forall a | a in agents ensures agents[a].workflow == m.workflow <==> a in m.agents.Values {
      assert a in db.agents ==> db.agents[a].workflow == m.workflow ==> a in AgentsOf(db, m.workflow);
      if a in m.agents.Values { assert m.agents[Relabelling.Origin(m.agents, a)] == a; }
    }
    forall a, b | a in m.agents.Values && b in m.agents.Values && Flagged(agents[a]) && Flagged(agents[b])
      ensures a == b
    {
      assert Flagged(db.agents[Relabelling.Origin(m.agents, a)]) && Flagged(db.agents[Relabelling.Origin(m.agents, b)]);
    }
  }

  lemma OneMoreFlagged(agents: map<Id, AgentRow>, id: Id, row: AgentRow)
    requires OneFlaggedEach(agents)
    ensures OneFlaggedEach(agents[id := row]) <==>
      !(Flagged(row) &&
        exists a :: a in agents && a != id && agents[a].workflow == row.workflow && Flagged(agents[a]))
  {
    var more := agents[id := row];
    assert more[id] == row;
    forall a | a in agents && a != id ensures a in more && more[a] == agents[a] {
    }
  }

  /** Exactly when an operation keeps at most one initial agent in every workflow. */
  lemma KeepsOneFlaggedIff(db: Db, act: Action)
    requires WellFormed(db) && Enabled(db, act) && OneFlaggedEach(db.agents)
    ensures OneFlaggedEach(Applied(db, act).agents) <==> !FlagsSecond(db, act)
  {
    match act
    case CloneWorkflow(w, t, m) => CloneKeepsOneFlagged(db, w, t, m);
    case CreateAgent(ids, t, name, w, isInitial, kind, config) =>
      OneMoreFlagged(db.agents, ids.id, Applied(db, act).agents[ids.id]);
    case UpdateAgent(a, t, name, isInitial) => OneMoreFlagged(db.agents, a, Applied(db, act).agents[a]);
    case _ =>
  }

  /** Over runs: it holds throughout if no operation flags a second agent. */
  lemma {:induction false} RunKeepsOneFlagged(trace: seq<Db>, acts: seq<Action>, i: nat)
    requires IsRun(trace, acts) && WellFormed(trace[0]) && OneFlaggedEach(trace[0].agents) && i < |trace|
    requires forall j :: 0 <= j < |acts| ==> !FlagsSecond(trace[j], acts[j])
    ensures OneFlaggedEach(trace[i].agents)
  {
    if i > 0 {
      RunKeepsOneFlagged(trace, acts, i - 1);
      RunKeepsWellFormed(trace, acts, i - 1);
      KeepsOneFlaggedIff(trace[i - 1], acts[i - 1]);
    }
  }

  /** And only then: the first operation that does leaves two. */
  lemma FirstSecondFlagBreaks(trace: seq<Db>, acts: seq<Action>, i: nat)
    requires IsRun(trace, acts) && WellFormed(trace[0]) && OneFlaggedEach(trace[0].agents) && i < |acts|
    requires FlagsSecond(trace[i], acts[i]) && forall j :: 0 <= j < i ==> !FlagsSecond(trace[j], acts[j])
    ensures !OneFlaggedEach(trace[i + 1].agents)
  {
    assert IsRun(trace[..i + 1], acts[..i]);
    RunKeepsOneFlagged(trace[..i + 1], acts[..i], i);
    RunKeepsWellFormed(trace, acts, i);
    KeepsOneFlaggedIff(trace[i], acts[i]);
  }

  /** Then a flagged agent that a tenant can see is the one its calls start with, in any row order. */
  lemma FlaggedStarts(db: Db, w: Id, t: Id, loaded: RuntimeWorkflow, a: Id)
    requires w in db.workflows && OneFlaggedEach(db.agents) && Shows(loaded, Seen(db, w, t))
    requires a in AgentsVisible(db, w, t) && Flagged(db.agents[a])
    ensures Handoff.InitialAgent(loaded.agents).Some? && Handoff.InitialAgent(loaded.agents).value.id == a
  {
    var view := Seen(db, w, t);
    forall b | b in view.agents
      ensures b in AgentsVisible(db, w, t) && view.agents[b].isInitial == Flagged(db.agents[b])
    {
      assert view.agents[b] == AgentSeen(db, w, t, b);
    }
    assert a in view.agents;
    CloneHandoff.InitialAgentOfView(loaded, view);
  }
}
