/** The session service and the worker's closing step, in the pieces that run between awaits. */
module SessionService {
  import opened Wrappers
  import opened Tables
  import opened Session
  import opened LaunchLimiter
  import opened SessionLifecycle

  class SessionService {
    const limiter: LaunchLimiter
    var rows: map<Id, Row>
    var launches: map<Id, Pending>
    var stops: map<Id, Id>
    var workers: map<Id, Worker>

    constructor (limits: Limits)
      ensures fresh(limiter) && limiter.limits == limits && Now() == INITIAL
    {
      limiter := new LaunchLimiter(limits);
      rows, launches, stops, workers := map[], map[], map[], map[];
    }

    /** The state of the transition system. */
    function Now(): State
      reads this, limiter
    {
      State(rows, launches, stops, workers, limiter.histories)
    }

    /** The active session of a workflow that started last, if there is one. */
    method GetActive(w: Id) returns (s: Option<Id>)
      ensures if s.Some? then IsLatestActive(rows, w, s.value) else NoneActive(rows, w)
      ensures s.Some? ==> s.value in rows && rows[s.value].workflow == w && rows[s.value].status == Active
      ensures forall other :: other in rows && rows[other].workflow == w && rows[other].status == Active ==>
        s.Some? && rows[s.value].startedAt >= rows[other].startedAt
    {
      var todo := rows.Keys;
      s := None;
      while todo != {}
        invariant todo <= rows.Keys
        invariant s.Some? ==> s.value in rows && rows[s.value].workflow == w && rows[s.value].status == Active
        invariant forall other | other in rows && other !in todo ::
          rows[other].workflow == w && rows[other].status == Active ==>
            s.Some? && rows[other].startedAt <= rows[s.value].startedAt
        decreases todo
      {
        var r :| r in todo;
        if rows[r].workflow == w && rows[r].status == Active &&
           (s.None? || rows[s.value].startedAt < rows[r].startedAt)
        {
          s := Some(r);
        }
        todo := todo - {r};
      }
    }

    /** After the room is gone, or could not be deleted: mark the row stopped. */
    method MarkStopped(s: Id, wall: int)
      requires s in rows
      modifies this`rows
      ensures rows == old(rows)[s := Ended(old(rows)[s], wall)]
    {
      rows := rows[s := rows[s].(status := Stopped)];
      rows := rows[s := rows[s].(endedAt := Some(wall))];
    }

    /** The limits, then the choice of a session id that the room's name will carry. */
    method CheckAndProceed(req: Id, w: Id, ip: Option<string>, now: real)
      returns (ghost session: Id, refusal: Option<Refusal>)
      modifies this`launches, limiter
      ensures NewSession(old(Now()), session)
      ensures Now() == Checked(old(Now()), req, w, ip, now, session, limiter.limits)
      ensures refusal == Answer(old(limiter.histories), Launch(ip, |ActiveRows(rows)|, now), limiter.limits)
    {
      var id := Uuid4(rows.Keys + workers.Keys +
        (set r | r in launches && launches[r].Creating? :: launches[r].session));
      assert NewSession(Now(), id);
      session := id;
      refusal := limiter.Enforce(|ActiveRows(rows)|, ip, now);
      launches := launches - {req};
      if refusal.None? {
        launches := launches[req := Creating(w, id)];
      }
    }

    /** A launch up to its first await: on the stale session's room, or on its own. */
    method BeginLaunch(req: Id, w: Id, ip: Option<string>, now: real)
      returns (refusal: Option<Refusal>, ghost event: Event)
      requires req !in launches
      modifies this`launches, limiter
      ensures Enabled(old(Now()), event) && Now() == Next(old(Now()), event, limiter.limits)
      ensures event.LaunchBegins? && event.req == req && event.w == w && event.ip == ip && event.now == now
      ensures refusal == if event.stale.Some? then None
        else Answer(old(limiter.histories), Launch(ip, |ActiveRows(rows)|, now), limiter.limits)
      ensures refusal.Some? <==> req !in launches
    {
      var stale := GetActive(w);
      if stale.Some? {
        ghost var session := FreeSession();
        event := LaunchBegins(req, w, ip, stale, now, session);
        launches := launches[req := Ending(w, ip, stale.value)];
        return None, event;
      }
      ghost var session;
      session, refusal := CheckAndProceed(req, w, ip, now);
      event := LaunchBegins(req, w, ip, None, now, session);
    }

    ghost method FreeSession() returns (session: Id)
      ensures NewSession(Now(), session)
    {
      var taken := rows.Keys + workers.Keys + (set r | r in launches && launches[r].Creating? :: launches[r].session);
      SomeIdIsFree(taken);
      session :| session !in taken;
    }

    /** A launch after the stale session's room: end that session, then check. */
    method ResumeLaunch(req: Id, wall: int, now: real) returns (refusal: Option<Refusal>, ghost event: Event)
      requires req in launches && launches[req].Ending? && launches[req].stale in rows
      modifies this`rows, this`launches, limiter
      ensures event.LaunchResumes? && event.req == req && event.wall == wall && event.now == now
      ensures Enabled(old(Now()), event) && Now() == Next(old(Now()), event, limiter.limits)
      ensures refusal ==
        Answer(old(limiter.histories), Launch(old(launches)[req].ip, |ActiveRows(rows)|, now), limiter.limits)
      ensures refusal.Some? <==> req !in launches
    {
      var launch := launches[req];
      MarkStopped(launch.stale, wall);
      ghost var session;
      session, refusal := CheckAndProceed(req, launch.workflow, launch.ip, now);
      event := LaunchResumes(req, wall, now, session);
    }

    /** A launch after its room came up: the row is created. */
    method FinishLaunch(req: Id, wall: int)
      requires Enabled(Now(), RoomReady(req, wall))
      modifies this`rows, this`launches
      ensures Now() == Next(old(Now()), RoomReady(req, wall), limiter.limits)
    {
      var launch := launches[req];
      rows := rows[launch.session := Row(launch.workflow, Active, wall, None, None, None)];
      launches := launches - {req};
    }

    /** A stop up to its await; with nothing active there is nothing to do. */
    method BeginStop(req: Id, w: Id) returns (target: Option<Id>)
      requires req !in stops
      modifies this`stops
      ensures if target.Some? then
          && Enabled(old(Now()), StopBegins(req, w, target.value))
          && Now() == Next(old(Now()), StopBegins(req, w, target.value), limiter.limits)
        else Now() == old(Now()) && NoneActive(rows, w)
      ensures target.Some? ==>
        target.value in rows && rows[target.value].workflow == w && rows[target.value].status == Active
      ensures forall other :: other in rows && rows[other].workflow == w && rows[other].status == Active ==>
        target.Some? && rows[target.value].startedAt >= rows[other].startedAt
    {
      target := GetActive(w);
      if target.Some? {
        stops := stops[req := target.value];
      }
    }

    method FinishStop(req: Id, wall: int)
      requires Enabled(Now(), StopResumes(req, wall))
      modifies this`rows, this`stops
      ensures Now() == Next(old(Now()), StopResumes(req, wall), limiter.limits)
    {
      MarkStopped(stops[req], wall);
      stops := stops - {req};
    }

    /** The worker looks its row up. */
    method WorkerLooksUp(s: Id)
      requires Enabled(Now(), WorkerReads(s))
      modifies this`workers
      ensures Now() == Next(old(Now()), WorkerReads(s), limiter.limits)
    {
      workers := workers[s := Found(rows[s].status == Active)];
    }

    /** The worker stores the usage, and closes the row if it had found it active. */
    method WorkerStores(s: Id, usage: Option<Dict>, reason: string, wall: int)
      requires Enabled(Now(), WorkerWrites(s, usage, reason, wall))
      modifies this`rows, this`workers
      ensures Now() == Next(old(Now()), WorkerWrites(s, usage, reason, wall), limiter.limits)
    {
      var found := workers[s].active;
      var row := rows[s].(usage := usage);
      if found {
        row := row.(status := Stopped, endedAt := Some(wall), endedReason := Some(reason));
      }
      rows := rows[s := row];
      workers := workers[s := Finished(found, usage)];
    }
  }
}
