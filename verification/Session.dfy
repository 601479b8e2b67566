/** The database session that services and repositories share: one mapping per table. */
module Session {
  import opened Tables

  class Session {
    var tenants: set<Id>
    var workflows: map<Id, WorkflowRow>
    var agents: map<Id, AgentRow>
    var tools: map<Id, ToolRow>
    var positions: map<Id, PositionRow>
    var configs: map<Id, ConfigRow>
    var edges: map<Id, EdgeRow>

    constructor (db: Db)
      ensures Contents() == db
    {
      tenants, workflows := db.tenants, db.workflows;
      agents, tools := db.agents, db.tools;
      positions, configs, edges := db.positions, db.configs, db.edges;
    }

    /** The database as this session sees it. */
    function Contents(): Db
      reads this
    {
      Db(tenants, workflows, agents, tools, positions, configs, edges)
    }
  }

  lemma SomeIdIsFree(taken: set<Id>)
    ensures exists id: Id :: id !in taken
  {
    var bound := Bound(taken);
    assert bound !in taken;
  }

  /** A number above every member. */
  ghost function Bound(ids: set<Id>): (b: nat)
    ensures forall id :: id in ids ==> id < b
  {
    if ids == {} then 0
    else
      var id :| id in ids;
      var rest := Bound(ids - {id});
      assert forall other :: other in ids ==> other == id || other in ids - {id};
      if rest <= id then id + 1 else rest
  }

  /** A supplier of ids not in use. */
  method Uuid4(taken: set<Id>) returns (id: Id)
    ensures id !in taken
  {
    SomeIdIsFree(taken);
    id :| id !in taken;
  }
}
