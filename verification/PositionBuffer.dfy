/** The builder's debounced buffer of node moves, against a server that stores each batch. */
module PositionBuffer {
  import opened Wrappers
  import opened Tables
  import opened Mutations

  datatype Node = Node(kind: NodeKind, positionId: Option<Id>, x: real, y: real)

  /** A change reported by the canvas; a position change may carry no position. */
  datatype Change = Move(node: Id, to: Option<(real, real)>) | Remove(node: Id) | Other

  function Change1(nodes: map<Id, Node>, change: Change): map<Id, Node> {
    match change
    case Move(n, Some((x, y))) => if n in nodes then nodes[n := nodes[n].(x := x, y := y)] else nodes
    case Remove(n) => nodes - {n}
    case _ => nodes
  }

  function Changed(nodes: map<Id, Node>, changes: seq<Change>): map<Id, Node> {
    if changes == [] then nodes
    else Change1(Changed(nodes, changes[..|changes| - 1]), changes[|changes| - 1])
  }

  /** What is sent for a node: where it now is, and who owns the position. */
  function PlacementOf(n: Id, node: Node, workflow: Id): Option<Placement> {
    if node.positionId.None? then None
    else Some(Placement(node.positionId.value, workflow, node.x, node.y,
                        if node.kind.AgentNode? then Some(n) else None,
                        if node.kind.ToolNode? then Some(n) else None))
  }

  /** A placement tells where the node is and that it is the position's owner. */
  predicate Sends(placement: Placement, n: Id, node: Node, workflow: Id) {
    && Some(placement.id) == node.positionId && placement.workflow == workflow
    && placement.x == node.x && placement.y == node.y
    && placement.agent == (if node.kind == AgentNode then Some(n) else None)
    && placement.tool == (if node.kind == ToolNode then Some(n) else None)
  }

  /** The placements for the moved nodes, in the order of the changes, all with final coordinates. */
  function PlacementsFor(nodes: map<Id, Node>, changes: seq<Change>, workflow: Id): seq<Placement> {
    if changes == [] then []
    else
      var before := PlacementsFor(nodes, changes[..|changes| - 1], workflow);
      var last := changes[|changes| - 1];
      if last.Move? && last.to.Some? && last.node in nodes && PlacementOf(last.node, nodes[last.node], workflow).Some?
      then before + [PlacementOf(last.node, nodes[last.node], workflow).value]
      else before
  }

  /** The buffer keeps the last placement per position. */
  function Buffered(pending: map<Id, Placement>, moves: seq<Placement>): map<Id, Placement> {
    if moves == [] then pending
    else
      var last := moves[|moves| - 1];
      Buffered(pending, moves[..|moves| - 1])[last.id := last]
  }

  /** A batch holds each pending placement once, in some order. */
  ghost predicate Lists(batch: seq<Placement>, pending: map<Id, Placement>) {
    && (forall i, j :: 0 <= i < j < |batch| ==> batch[i].id != batch[j].id)
    && (forall i :: 0 <= i < |batch| ==> batch[i].id in pending && pending[batch[i].id] == batch[i])
    && (forall p :: p in pending ==> pending[p] in batch)
  }

  class Builder {
    const workflow: Option<Id>
    var nodes: map<Id, Node>
    var pending: map<Id, Placement>

    constructor (workflow: Option<Id>, nodes: map<Id, Node>)
      ensures this.workflow == workflow && this.nodes == nodes && pending == map[]
    {
      this.workflow, this.nodes, pending := workflow, nodes, map[];
    }

    method OnNodesChange(changes: seq<Change>)
      modifies this
      ensures nodes == Changed(old(nodes), changes)
      ensures pending ==
        if workflow.Some? then Buffered(old(pending), PlacementsFor(nodes, changes, workflow.value)) else old(pending)
    {
      ApplyChanges(changes);
      if workflow.Some? {
        var updated, more := nodes, pending;
        ghost var before := pending;
        for i := 0 to |changes|
          invariant nodes == updated && pending == before
          invariant more == Buffered(before, PlacementsFor(updated, changes[..i], workflow.value))
        {
          assert changes[..i + 1][..i] == changes[..i];
          var c := changes[i];
          if c.Move? && c.to.Some? && c.node in updated {
            var placement := PlacementOf(c.node, updated[c.node], workflow.value);
            if placement.Some? {
              BufferedOneMore(before, PlacementsFor(updated, changes[..i], workflow.value), placement.value);
              more := more[placement.value.id := placement.value];
            }
          }
        }
        assert changes[..|changes|] == changes;
        pending := more;
      }
    }

    method ApplyChanges(changes: seq<Change>)
      modifies this`nodes
      ensures nodes == Changed(old(nodes), changes)
    {
      for i := 0 to |changes|
        invariant nodes == Changed(old(nodes), changes[..i])
      {
        assert changes[..i + 1][..i] == changes[..i];
        nodes := Change1(nodes, changes[i]);
      }
      assert changes[..|changes|] == changes;
    }

    /** The timer fires: the buffer is emptied into one batch. */
    method OnTimer() returns (batch: seq<Placement>)
      requires forall p :: p in pending ==> pending[p].id == p
      modifies this`pending
      ensures pending == map[] && Lists(batch, old(pending))
    {
      batch := [];
      var todo := pending.Keys;
      while todo != {}
        invariant todo <= pending.Keys
        invariant forall i, j :: 0 <= i < j < |batch| ==> batch[i].id != batch[j].id
        invariant forall i :: 0 <= i < |batch| ==>
          batch[i].id in pending && batch[i].id !in todo && pending[batch[i].id] == batch[i]
        invariant forall p :: p in pending && p !in todo ==> pending[p] in batch
        decreases todo
      {
        var p :| p in todo;
        batch := batch + [pending[p]];
        todo := todo - {p};
      }
      pending := map[];
    }

    /** A drag ended: the node's position is also sent on its own. */
    method OnNodeDragStop(n: Id) returns (placement: Option<Placement>)
      ensures placement ==
        if n in nodes && workflow.Some? then PlacementOf(n, nodes[n], workflow.value) else None
      ensures placement.Some? <==> n in nodes && workflow.Some? && nodes[n].positionId.Some?
      ensures placement.Some? ==> Sends(placement.value, n, nodes[n], workflow.value)
    {
      if n !in nodes || workflow.None? {
        return None;
      }
      placement := PlacementOf(n, nodes[n], workflow.value);
    }
  }

  lemma BufferedOneMore(pending: map<Id, Placement>, moves: seq<Placement>, move: Placement)
    ensures Buffered(pending, moves + [move]) == Buffered(pending, moves)[move.id := move]
  {
    assert (moves + [move])[..|moves|] == moves;
  }

  // Two servers: one gets batches when the timer fires, the other every move as it happens.

  datatype World = World(
    nodes: map<Id, Node>,
    pending: map<Id, Placement>,
    behind: map<Id, PositionRow>,
    through: map<Id, PositionRow>)

  datatype Event = Changes(changes: seq<Change>) | TimerFires(batch: seq<Placement>) | DragStops(n: Id)

  ghost predicate Possible(world: World, event: Event) {
    match event
    case Changes(_) => true
    case TimerFires(batch) => Lists(batch, world.pending)
    case DragStops(n) => n in world.nodes
  }

  function Next(world: World, event: Event, workflow: Id, t: Id): World {
    match event
    case Changes(changes) =>
      var nodes := Changed(world.nodes, changes);
      var moves := PlacementsFor(nodes, changes, workflow);
      world.(nodes := nodes, pending := Buffered(world.pending, moves), through := AllPlaced(world.through, moves, t))
    case TimerFires(batch) =>
      world.(pending := map[], behind := AllPlaced(world.behind, batch, t))
    case DragStops(n) =>
      if n !in world.nodes then world
      else
        match PlacementOf(n, world.nodes[n], workflow)
        case None => world
        case Some(move) =>
          world.(behind := Placed(world.behind, move, t), through := Placed(world.through, move, t))
  }

  /** The stored rows with every pending placement that counts applied. */
  ghost function Overlay(rows: map<Id, PositionRow>, pending: map<Id, Placement>, t: Id): map<Id, PositionRow> {
    map p | p in rows ::
      if p in pending && rows[p].tenant == Some(t)
      then PositionRow(Some(t), pending[p].workflow, pending[p].agent, pending[p].tool, pending[p].x, pending[p].y)
      else rows[p]
  }

  /** No two nodes share a position. */
  ghost predicate OwnPositions(nodes: map<Id, Node>) {
    forall m, n | m in nodes && n in nodes && m != n ::
      nodes[m].positionId.Some? ==> nodes[m].positionId != nodes[n].positionId
  }

  /** The servers differ by exactly the buffer, and the buffer is where the nodes are. */
  ghost predicate InStep(world: World, workflow: Id, t: Id) {
    && OwnPositions(world.nodes)
    && (forall p :: p in world.pending ==> world.pending[p].id == p)
    && (forall n :: n in world.nodes && world.nodes[n].positionId.Some? &&
                    world.nodes[n].positionId.value in world.pending ==>
          PlacementOf(n, world.nodes[n], workflow) == Some(world.pending[world.nodes[n].positionId.value]))
    && world.through == Overlay(world.behind, world.pending, t)
  }

  lemma OverlayOneMore(rows: map<Id, PositionRow>, pending: map<Id, Placement>, move: Placement, t: Id)
    ensures Overlay(rows, pending[move.id := move], t) == Placed(Overlay(rows, pending, t), move, t)
  {
  }

  lemma {:induction false} OverlayMoves(
    rows: map<Id, PositionRow>, pending: map<Id, Placement>, moves: seq<Placement>, t: Id)
    ensures Overlay(rows, Buffered(pending, moves), t) == AllPlaced(Overlay(rows, pending, t), moves, t)
  {
    if moves != [] {
      OverlayMoves(rows, pending, moves[..|moves| - 1], t);
      OverlayOneMore(rows, Buffered(pending, moves[..|moves| - 1]), moves[|moves| - 1], t);
    }
  }

  lemma {:induction false} BufferedBatch(batch: seq<Placement>)
    requires forall i, j :: 0 <= i < j < |batch| ==> batch[i].id != batch[j].id
    ensures forall i :: 0 <= i < |batch| ==>
      batch[i].id in Buffered(map[], batch) && Buffered(map[], batch)[batch[i].id] == batch[i]
    ensures forall p :: p in Buffered(map[], batch) ==> exists i :: 0 <= i < |batch| && batch[i].id == p
  {
    if batch != [] {
      BufferedBatch(batch[..|batch| - 1]);
    }
  }

  /** Sending the buffer, in whatever order, has the effect of overlaying it. */
  lemma BatchOverlays(rows: map<Id, PositionRow>, pending: map<Id, Placement>, batch: seq<Placement>, t: Id)
    requires Lists(batch, pending) && forall p :: p in pending ==> pending[p].id == p
    ensures AllPlaced(rows, batch, t) == Overlay(rows, pending, t)
  {
    BufferedBatch(batch);
    assert Buffered(map[], batch) == pending;
    OverlayMoves(rows, map[], batch, t);
    assert Overlay(rows, map[], t) == rows;
  }

  /** Changes never give a node another kind or position. */
  lemma {:induction false} ChangedKeeps(nodes: map<Id, Node>, changes: seq<Change>)
    ensures forall n :: n in Changed(nodes, changes) ==>
      && n in nodes && Changed(nodes, changes)[n].positionId == nodes[n].positionId
      && Changed(nodes, changes)[n].kind == nodes[n].kind
  {
    if changes != [] {
      ChangedKeeps(nodes, changes[..|changes| - 1]);
    }
  }

  predicate Moves(change: Change, n: Id) {
    change.Move? && change.to.Some? && change.node == n
  }

  predicate MovedBy(changes: seq<Change>, n: Id) {
    changes != [] && (MovedBy(changes[..|changes| - 1], n) || Moves(changes[|changes| - 1], n))
  }

  /** A node not moved stays where it was. */
  lemma {:induction false} Unmoved(nodes: map<Id, Node>, changes: seq<Change>, n: Id)
    requires n in Changed(nodes, changes) && !MovedBy(changes, n)
    ensures n in nodes && Changed(nodes, changes)[n] == nodes[n]
  {
    if changes != [] {
      Unmoved(nodes, changes[..|changes| - 1], n);
    }
  }

  /** After the changes, the buffer holds for each node either its current placement or, if it was
      not moved, what it held before. */
  lemma {:induction false} BufferedWhat(
    nodes: map<Id, Node>, changes: seq<Change>, workflow: Id, pending: map<Id, Placement>, n: Id)
    requires OwnPositions(nodes) && n in nodes && nodes[n].positionId.Some?
    ensures var after := Buffered(pending, PlacementsFor(nodes, changes, workflow)); var p := nodes[n].positionId.value;
      if MovedBy(changes, n) then p in after && Some(after[p]) == PlacementOf(n, nodes[n], workflow)
      else (p in after <==> p in pending) && (p in pending ==> after[p] == pending[p])
  {
    if changes != [] {
      var k := |changes| - 1;
      var last := changes[k];
      BufferedWhat(nodes, changes[..k], workflow, pending, n);
      if last.Move? && last.to.Some? && last.node in nodes && PlacementOf(last.node, nodes[last.node], workflow).Some? {
        var move := PlacementOf(last.node, nodes[last.node], workflow).value;
        BufferedOneMore(pending, PlacementsFor(nodes, changes[..k], workflow), move);
        assert last.node != n ==> move.id != nodes[n].positionId.value;
      }
    }
  }

  // What a drag comes to.

  /** Change `k` is the last that moves node `n`, and moves it to `(x, y)`. */
  ghost predicate LastMove(changes: seq<Change>, k: nat, n: Id, x: real, y: real) {
    && k < |changes| && changes[k] == Move(n, Some((x, y)))
    && forall j :: k < j < |changes| ==> !(changes[j].Move? && changes[j].node == n && changes[j].to.Some?)
  }

  /** Nodes go only by being removed. */
  lemma {:induction false} StillThereIff(nodes: map<Id, Node>, changes: seq<Change>, n: Id)
    ensures n in Changed(nodes, changes) <==> n in nodes && Remove(n) !in changes
  {
    if changes != [] {
      StillThereIff(nodes, changes[..|changes| - 1], n);
      assert changes == changes[..|changes| - 1] + [changes[|changes| - 1]];
    }
  }

  /** A node still there is where its last move put it. */
  lemma {:induction false} MovedThere(nodes: map<Id, Node>, changes: seq<Change>, k: nat, n: Id, x: real, y: real)
    requires LastMove(changes, k, n, x, y) && n in Changed(nodes, changes)
    ensures Changed(nodes, changes)[n].x == x && Changed(nodes, changes)[n].y == y && MovedBy(changes, n)
  {
    var last := |changes| - 1;
    if k < last {
      MovedThere(nodes, changes[..last], k, n, x, y);
    }
  }

  /** The buffer then holds it, with those coordinates and its owner. */
  lemma MoveIsBuffered(
    nodes: map<Id, Node>, pending: map<Id, Placement>, changes: seq<Change>, workflow: Id,
    k: nat, n: Id, x: real, y: real)
    requires OwnPositions(nodes) && LastMove(changes, k, n, x, y)
    requires n in Changed(nodes, changes) && Changed(nodes, changes)[n].positionId.Some?
    ensures var node := Changed(nodes, changes)[n];
      var after := Buffered(pending, PlacementsFor(Changed(nodes, changes), changes, workflow));
      && node.x == x && node.y == y && node.positionId.value in after
      && Sends(after[node.positionId.value], n, node, workflow)
  {
    ChangedKeeps(nodes, changes);
    MovedThere(nodes, changes, k, n, x, y);
    BufferedWhat(Changed(nodes, changes), changes, workflow, pending, n);
  }

  /** And when the timer fires, the server stores it: what is dragged is what is stored. */
  lemma MoveIsStored(
    world: World, changes: seq<Change>, batch: seq<Placement>, workflow: Id, t: Id, k: nat, n: Id, x: real, y: real)
    requires InStep(world, workflow, t) && LastMove(changes, k, n, x, y)
    requires n in Changed(world.nodes, changes) && n in world.nodes && world.nodes[n].positionId.Some?
    requires Possible(Next(world, Changes(changes), workflow, t), TimerFires(batch))
    ensures var after := Next(Next(world, Changes(changes), workflow, t), TimerFires(batch), workflow, t);
      var p, kind := world.nodes[n].positionId.value, world.nodes[n].kind;
      p in world.behind && world.behind[p].tenant == Some(t) ==>
        && p in after.behind && after.behind[p].tenant == Some(t) && after.behind[p].workflow == workflow
        && after.behind[p].x == x && after.behind[p].y == y
        && after.behind[p].agent == (if kind == AgentNode then Some(n) else None)
        && after.behind[p].tool == (if kind == ToolNode then Some(n) else None)
  {
    var mid := Next(world, Changes(changes), workflow, t);
    ChangedKeeps(world.nodes, changes);
    MoveIsBuffered(world.nodes, world.pending, changes, workflow, k, n, x, y);
    ChangesStayInStep(world, changes, workflow, t);
    BatchOverlays(mid.behind, mid.pending, batch, t);
  }

  lemma {:induction false} BufferedIds(pending: map<Id, Placement>, moves: seq<Placement>)
    requires forall p :: p in pending ==> pending[p].id == p
    ensures forall p :: p in Buffered(pending, moves) ==> Buffered(pending, moves)[p].id == p
  {
    if moves != [] {
      BufferedIds(pending, moves[..|moves| - 1]);
    }
  }

  lemma ChangesStayInStep(world: World, changes: seq<Change>, workflow: Id, t: Id)
    requires InStep(world, workflow, t)
    ensures InStep(Next(world, Changes(changes), workflow, t), workflow, t)
  {
    var nodes := Changed(world.nodes, changes);
    var moves := PlacementsFor(nodes, changes, workflow);
    var pending := Buffered(world.pending, moves);
    ChangedKeeps(world.nodes, changes);
    BufferedIds(world.pending, moves);
    OverlayMoves(world.behind, world.pending, moves, t);
    forall n | n in nodes && nodes[n].positionId.Some? && nodes[n].positionId.value in pending
      ensures PlacementOf(n, nodes[n], workflow) == Some(pending[nodes[n].positionId.value])
    {
      BufferedWhat(nodes, changes, workflow, world.pending, n);
      if !MovedBy(changes, n) {
        Unmoved(world.nodes, changes, n);
      }
    }
  }

  lemma DragStaysInStep(world: World, n: Id, workflow: Id, t: Id)
    requires InStep(world, workflow, t)
    ensures InStep(Next(world, DragStops(n), workflow, t), workflow, t)
  {
    if n in world.nodes && world.nodes[n].positionId.Some? {
      var move := PlacementOf(n, world.nodes[n], workflow).value;
      assert Overlay(Placed(world.behind, move, t), world.pending, t) ==
             Placed(Overlay(world.behind, world.pending, t), move, t);
    }
  }

  ghost predicate IsRun(trace: seq<World>, events: seq<Event>, workflow: Id, t: Id) {
    && |trace| == |events| + 1
    && forall i :: 0 <= i < |events| ==>
         Possible(trace[i], events[i]) && trace[i + 1] == Next(trace[i], events[i], workflow, t)
  }

  /** Starting with an empty buffer and equal servers, at every moment of every run the immediate
      server holds what the batched one would hold after one more batch. */
  lemma {:induction false} WriteBehindStaysInStep(trace: seq<World>, events: seq<Event>, workflow: Id, t: Id, i: nat)
    requires IsRun(trace, events, workflow, t) && i < |trace|
    requires OwnPositions(trace[0].nodes) && trace[0].pending == map[] && trace[0].behind == trace[0].through
    ensures InStep(trace[i], workflow, t)
  {
    if i == 0 {
      assert Overlay(trace[0].behind, map[], t) == trace[0].behind;
    } else {
      WriteBehindStaysInStep(trace, events, workflow, t, i - 1);
      var world := trace[i - 1];
      match events[i - 1]
      case Changes(changes) => ChangesStayInStep(world, changes, workflow, t);
      case TimerFires(batch) =>
        BatchOverlays(world.behind, world.pending, batch, t);
        assert Overlay(trace[i].behind, map[], t) == trace[i].behind;
      case DragStops(n) => DragStaysInStep(world, n, workflow, t);
    }
  }

  /** Write-behind equals write-through: once the buffer is empty, both servers store the same. */
  lemma WriteBehindIsWriteThrough(trace: seq<World>, events: seq<Event>, workflow: Id, t: Id, i: nat)
    requires IsRun(trace, events, workflow, t) && i < |trace|
    requires OwnPositions(trace[0].nodes) && trace[0].pending == map[] && trace[0].behind == trace[0].through
    requires trace[i].pending == map[]
    ensures trace[i].behind == trace[i].through
  {
    WriteBehindStaysInStep(trace, events, workflow, t, i);
    assert Overlay(trace[i].behind, map[], t) == trace[i].behind;
  }
}
