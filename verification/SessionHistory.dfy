/** What the events of a run say about its states: whose launch is counted against which address, and how
    each row came to be what it is. Everything is named by events, not by what the states keep of them. */
module SessionHistory {
  import opened Wrappers
  import opened Tables
  import opened LaunchLimiter
  import opened SessionLifecycle

  /** The latest of the first `i` events of a kind. */
  ghost function Latest(events: seq<Event>, i: nat, kind: Event -> bool): (j: Option<nat>)
    requires i <= |events|
    ensures j.Some? ==> j.value < i && kind(events[j.value])
  {
    if i == 0 then None
    else if kind(events[i - 1]) then Some(i - 1)
    else Latest(events, i - 1, kind)
  }

  function BeginsOf(req: Id): Event -> bool {
    (e: Event) => e.LaunchBegins? && e.req == req
  }

  function ChecksOf(req: Id): Event -> bool {
    (e: Event) => (e.LaunchBegins? || e.LaunchResumes?) && e.req == req
  }

  function StopsOf(req: Id): Event -> bool {
    (e: Event) => e.StopBegins? && e.req == req
  }

  function ReadsOf(s: Id): Event -> bool {
    (e: Event) => e.WorkerReads? && e.s == s
  }

  ghost predicate FromStart(trace: seq<State>, events: seq<Event>, limits: Limits) {
    IsRun(trace, events, limits) && trace[0] == INITIAL
  }

  // What is pending remembers what began it.

  ghost predicate LaunchTraced(state: State, events: seq<Event>, i: nat, req: Id)
    requires i <= |events| && req in state.launches
  {
    var begun, checked := Latest(events, i, BeginsOf(req)), Latest(events, i, ChecksOf(req));
    && begun.Some? && checked.Some?
    && match state.launches[req]
       case Ending(w, ip, stale) =>
         w == events[begun.value].w && ip == events[begun.value].ip && events[begun.value].stale == Some(stale)
       case Creating(w, session) => w == events[begun.value].w && session == events[checked.value].session
  }

  ghost predicate StopTraced(state: State, events: seq<Event>, i: nat, req: Id)
    requires i <= |events| && req in state.stops
  {
    var begun := Latest(events, i, StopsOf(req));
    begun.Some? && state.stops[req] == events[begun.value].target
  }

  ghost predicate WorkerTraced(trace: seq<State>, state: State, events: seq<Event>, i: nat, s: Id)
    requires i <= |events| < |trace| && s in state.workers
  {
    state.workers[s].Found? ==>
      var read := Latest(events, i, ReadsOf(s));
      read.Some? && s in trace[read.value].rows &&
      state.workers[s].active == (trace[read.value].rows[s].status == Active)
  }

  ghost predicate Traced(trace: seq<State>, events: seq<Event>, i: nat)
    requires i <= |events| < |trace|
  {
    && (forall req {:trigger LaunchTraced(trace[i], events, i, req)} ::
          req in trace[i].launches ==> LaunchTraced(trace[i], events, i, req))
    && (forall req {:trigger StopTraced(trace[i], events, i, req)} ::
          req in trace[i].stops ==> StopTraced(trace[i], events, i, req))
    && (forall s {:trigger WorkerTraced(trace, trace[i], events, i, s)} ::
          s in trace[i].workers ==> WorkerTraced(trace, trace[i], events, i, s))
  }

  lemma LaunchStep(trace: seq<State>, events: seq<Event>, limits: Limits, i: nat, req: Id)
    requires IsRun(trace, events, limits) && i < |events| && req in trace[i + 1].launches
    requires req in trace[i].launches ==> LaunchTraced(trace[i], events, i, req)
    ensures LaunchTraced(trace[i + 1], events, i + 1, req)
  {
    assert trace[i + 1] == Next(trace[i], events[i], limits);
    if events[i].LaunchResumes? && events[i].req == req {
      assert req in trace[i].launches;
    }
  }

  lemma StopStep(trace: seq<State>, events: seq<Event>, limits: Limits, i: nat, req: Id)
    requires IsRun(trace, events, limits) && i < |events| && req in trace[i + 1].stops
    requires req in trace[i].stops ==> StopTraced(trace[i], events, i, req)
    ensures StopTraced(trace[i + 1], events, i + 1, req)
  {
    assert trace[i + 1] == Next(trace[i], events[i], limits);
  }

  lemma WorkerStep(trace: seq<State>, events: seq<Event>, limits: Limits, i: nat, s: Id)
    requires IsRun(trace, events, limits) && i < |events| && s in trace[i + 1].workers
    requires s in trace[i].workers ==> WorkerTraced(trace, trace[i], events, i, s)
    ensures WorkerTraced(trace, trace[i + 1], events, i + 1, s)
  {
    assert trace[i + 1] == Next(trace[i], events[i], limits);
  }

  lemma {:induction false} PendingTraced(trace: seq<State>, events: seq<Event>, limits: Limits, i: nat)
    requires FromStart(trace, events, limits) && i <= |events|
    ensures Traced(trace, events, i)
  {
    if i > 0 {
      PendingTraced(trace, events, limits, i - 1);
      forall req | req in trace[i].launches ensures LaunchTraced(trace[i], events, i, req) {
        LaunchStep(trace, events, limits, i - 1, req);
      }
      forall req | req in trace[i].stops ensures StopTraced(trace[i], events, i, req) {
        StopStep(trace, events, limits, i - 1, req);
      }
      forall s | s in trace[i].workers ensures WorkerTraced(trace, trace[i], events, i, s) {
        WorkerStep(trace, events, limits, i - 1, s);
      }
    }
  }

  /** A stop and a relaunch pick the active session of the workflow that started last, and do without one
      only if none is active. */
  lemma PicksLatest(trace: seq<State>, events: seq<Event>, limits: Limits, i: nat)
    requires IsRun(trace, events, limits) && i < |events| && (events[i].LaunchBegins? || events[i].StopBegins?)
    ensures var rows, w := trace[i].rows, events[i].w;
      var picked := if events[i].StopBegins? then Some(events[i].target) else events[i].stale;
      && (picked.Some? ==>
            picked.value in rows && rows[picked.value].workflow == w && rows[picked.value].status == Active)
      && forall s :: s in rows && rows[s].workflow == w && rows[s].status == Active ==>
           picked.Some? && rows[picked.value].startedAt >= rows[s].startedAt
  {
    assert Enabled(trace[i], events[i]);
  }

  // Rows.

  /** Whether event `i` ends session `s`, and when: a stop that picked it, a relaunch that found it stale,
      or its worker, if that had found it active. */
  ghost function EndedBy(trace: seq<State>, events: seq<Event>, i: nat, s: Id): Option<int>
    requires i < |events| < |trace|
  {
    match events[i]
    case StopResumes(req, wall) =>
      var begun := Latest(events, i, StopsOf(req));
      if begun.Some? && events[begun.value].target == s then Some(wall) else None
    case LaunchResumes(req, wall, _, _) =>
      var begun := Latest(events, i, BeginsOf(req));
      if begun.Some? && events[begun.value].stale == Some(s) then Some(wall) else None
    case WorkerWrites(other, _, _, wall) => if other == s && FoundActive(trace, events, i, s) then Some(wall) else None
    case _ => None
  }

  /** The row was active when its worker looked it up. */
  ghost predicate FoundActive(trace: seq<State>, events: seq<Event>, i: nat, s: Id)
    requires i < |events| < |trace|
  {
    var read := Latest(events, i, ReadsOf(s));
    read.Some? && s in trace[read.value].rows && trace[read.value].rows[s].status == Active
  }

  /** What an event makes of a row there already is. */
  ghost predicate RowAfter(trace: seq<State>, events: seq<Event>, i: nat, s: Id)
    requires i < |events| < |trace| && s in trace[i].rows
  {
    s in trace[i + 1].rows &&
    var row, after, ended := trace[i].rows[s], trace[i + 1].rows[s], EndedBy(trace, events, i, s);
    && after.workflow == row.workflow && after.startedAt == row.startedAt
    && (ended.None? ==> after.status == row.status && after.endedAt == row.endedAt)
    && (ended.Some? ==> after.status == Stopped && after.endedAt == ended)
    && (if events[i].WorkerWrites? && events[i].s == s then
          && after.usage == events[i].usage
          && after.endedReason ==
               if FoundActive(trace, events, i, s) then Some(events[i].reason) else row.endedReason
        else after.usage == row.usage && after.endedReason == row.endedReason)
  }

  /** A row that comes into being is that of a launch whose room has come up. */
  ghost predicate RowNew(trace: seq<State>, events: seq<Event>, i: nat, s: Id)
    requires i < |events| < |trace| && s in trace[i + 1].rows
  {
    events[i].RoomReady? &&
    var begun, checked := Latest(events, i, BeginsOf(events[i].req)), Latest(events, i, ChecksOf(events[i].req));
    && begun.Some? && checked.Some? && s == events[checked.value].session
    && var row := trace[i + 1].rows[s];
       && row.workflow == events[begun.value].w && row.startedAt == events[i].wall && row.status == Active
       && row.endedAt.None? && row.endedReason.None? && row.usage.None?
  }

  lemma OldRow(trace: seq<State>, events: seq<Event>, limits: Limits, i: nat, s: Id)
    requires IsRun(trace, events, limits) && i < |events| && s in trace[i].rows && Traced(trace, events, i)
    ensures RowAfter(trace, events, i, s)
  {
    assert trace[i + 1] == Next(trace[i], events[i], limits);
    match events[i]
    case StopResumes(req, _) => assert StopTraced(trace[i], events, i, req);
    case LaunchResumes(req, _, _, _) => assert LaunchTraced(trace[i], events, i, req);
    case WorkerWrites(other, _, _, _) => assert WorkerTraced(trace, trace[i], events, i, other);
    case RoomReady(req, _) => assert trace[i].launches[req].session != s;
    case _ =>
  }

  lemma NewRow(trace: seq<State>, events: seq<Event>, limits: Limits, i: nat, s: Id)
    requires IsRun(trace, events, limits) && i < |events| && Traced(trace, events, i)
    requires s in trace[i + 1].rows && s !in trace[i].rows
    ensures RowNew(trace, events, i, s)
  {
    assert trace[i + 1] == Next(trace[i], events[i], limits);
    if events[i].RoomReady? {
      assert LaunchTraced(trace[i], events, i, events[i].req);
    }
  }

  lemma RoomMakesRow(trace: seq<State>, events: seq<Event>, limits: Limits, i: nat)
    requires IsRun(trace, events, limits) && i < |events| && Traced(trace, events, i) && events[i].RoomReady?
    ensures var checked := Latest(events, i, ChecksOf(events[i].req));
      checked.Some? && events[checked.value].session in trace[i + 1].rows
  {
    assert LaunchTraced(trace[i], events, i, events[i].req);
  }

  /** In every run the events alone settle the rows: which come into being, and what becomes of each. */
  lemma RowsByEvents(trace: seq<State>, events: seq<Event>, limits: Limits, i: nat)
    requires FromStart(trace, events, limits) && i < |events|
    ensures forall s :: s in trace[i].rows ==> RowAfter(trace, events, i, s)
    ensures forall s :: s in trace[i + 1].rows && s !in trace[i].rows ==> RowNew(trace, events, i, s)
    ensures events[i].RoomReady? ==>
      var checked := Latest(events, i, ChecksOf(events[i].req));
      checked.Some? && events[checked.value].session in trace[i + 1].rows
  {
    PendingTraced(trace, events, limits, i);
    forall s | s in trace[i].rows ensures RowAfter(trace, events, i, s) {
      OldRow(trace, events, limits, i, s);
    }
    forall s | s in trace[i + 1].rows && s !in trace[i].rows ensures RowNew(trace, events, i, s) {
      NewRow(trace, events, limits, i, s);
    }
    if events[i].RoomReady? {
      RoomMakesRow(trace, events, limits, i);
    }
  }

  // Limits.

  /** The events at which a launch is checked against the limits. */
  predicate IsCheck(event: Event) {
    (event.LaunchBegins? && event.stale.None?) || event.LaunchResumes?
  }

  /** The address a launch came from, as it began. */
  ghost function AddressOf(events: seq<Event>, i: nat): Option<string>
    requires i < |events|
  {
    if events[i].LaunchBegins? then events[i].ip
    else if events[i].LaunchResumes? && Latest(events, i, BeginsOf(events[i].req)).Some? then
      events[Latest(events, i, BeginsOf(events[i].req)).value].ip
    else None
  }

  /** A launch is let through: from now on it waits for its room. */
  ghost predicate LetThrough(trace: seq<State>, events: seq<Event>, i: nat)
    requires i < |events| < |trace|
  {
    IsCheck(events[i]) && events[i].req in trace[i + 1].launches && trace[i + 1].launches[events[i].req].Creating?
  }

  /** When launches from an address were let through, among the first `i` events. */
  ghost function Times(trace: seq<State>, events: seq<Event>, i: nat, ip: string): seq<real>
    requires i <= |events| < |trace|
  {
    if i == 0 then []
    else
      Times(trace, events, i - 1, ip) +
      if LetThrough(trace, events, i - 1) && AddressOf(events, i - 1) == Some(ip) then [events[i - 1].now] else []
  }

  /** The checks come in the order of their times. */
  ghost predicate ChecksForward(events: seq<Event>) {
    forall i, j | 0 <= i < j < |events| :: IsCheck(events[i]) && IsCheck(events[j]) ==> events[i].now <= events[j].now
  }

  /** The launches as the limiter gets to see them. */
  ghost function Seen(trace: seq<State>, events: seq<Event>, i: nat): seq<Launch>
    requires i <= |events| < |trace|
  {
    if i == 0 then []
    else
      Seen(trace, events, i - 1) +
      if IsCheck(events[i - 1]) then
        [Launch(AddressOf(events, i - 1), |ActiveRows(trace[i].rows)|, events[i - 1].now)]
      else []
  }

  lemma {:induction false} SeenForward(trace: seq<State>, events: seq<Event>, i: nat, now: real)
    requires ChecksForward(events) && i <= |events| < |trace|
    requires forall j :: 0 <= j < i && IsCheck(events[j]) ==> events[j].now <= now
    ensures ClockForward(Seen(trace, events, i))
    ensures forall j :: 0 <= j < |Seen(trace, events, i)| ==> Seen(trace, events, i)[j].now <= now
  {
    if i > 0 {
      if IsCheck(events[i - 1]) {
        SeenForward(trace, events, i - 1, events[i - 1].now);
      } else {
        SeenForward(trace, events, i - 1, now);
      }
    }
  }

  /** One check, by the address its launch began with. */
  lemma CheckIs(trace: seq<State>, events: seq<Event>, limits: Limits, i: nat)
    requires IsRun(trace, events, limits) && i < |events| && Traced(trace, events, i) && IsCheck(events[i])
    ensures var launch := Launch(AddressOf(events, i), |ActiveRows(trace[i + 1].rows)|, events[i].now);
      && (LetThrough(trace, events, i) <==> Answer(trace[i].histories, launch, limits).None?)
      && trace[i + 1].histories == After(trace[i].histories, launch, limits)
  {
    assert trace[i + 1] == Next(trace[i], events[i], limits);
    if events[i].LaunchResumes? {
      assert LaunchTraced(trace[i], events, i, events[i].req);
    }
  }

  lemma HistoriesStay(trace: seq<State>, events: seq<Event>, limits: Limits, i: nat)
    requires IsRun(trace, events, limits) && i < |events| && !IsCheck(events[i])
    ensures trace[i + 1].histories == trace[i].histories
  {
    assert trace[i + 1] == Next(trace[i], events[i], limits);
  }

  lemma SeenStep(trace: seq<State>, events: seq<Event>, limits: Limits, i: nat, ip: string)
    requires FromStart(trace, events, limits) && i < |events|
    requires trace[i].histories == StateAfter(Seen(trace, events, i), limits)
    requires Launched(Seen(trace, events, i), limits, ip) == Times(trace, events, i, ip)
    ensures trace[i + 1].histories == StateAfter(Seen(trace, events, i + 1), limits)
    ensures Launched(Seen(trace, events, i + 1), limits, ip) == Times(trace, events, i + 1, ip)
  {
    if IsCheck(events[i]) {
      PendingTraced(trace, events, limits, i);
      CheckIs(trace, events, limits, i);
      var launch := Launch(AddressOf(events, i), |ActiveRows(trace[i + 1].rows)|, events[i].now);
      StateStep(Seen(trace, events, i), launch, limits, ip);
    } else {
      HistoriesStay(trace, events, limits, i);
      assert Seen(trace, events, i + 1) == Seen(trace, events, i);
      assert Times(trace, events, i + 1, ip) == Times(trace, events, i, ip);
    }
  }

  lemma {:induction false} SeenIsKept(trace: seq<State>, events: seq<Event>, limits: Limits, i: nat, ip: string)
    requires FromStart(trace, events, limits) && i <= |events|
    ensures trace[i].histories == StateAfter(Seen(trace, events, i), limits)
    ensures Launched(Seen(trace, events, i), limits, ip) == Times(trace, events, i, ip)
  {
    if i > 0 {
      SeenIsKept(trace, events, limits, i - 1, ip);
      SeenStep(trace, events, limits, i - 1, ip);
    }
  }

  /** Exactly which launches are let through: those that find a free session, their own stale one ended
      first, and come from no address or from one with fewer launches than allowed let through in the
      window before. The address is the one the launch began with, however long it waited since. */
  lemma LetThroughIff(trace: seq<State>, events: seq<Event>, limits: Limits, i: nat)
    requires FromStart(trace, events, limits) && ChecksForward(events) && i < |events| && IsCheck(events[i])
    ensures var ip, rows := AddressOf(events, i), trace[i + 1].rows;
      LetThrough(trace, events, i) <==>
        && |set s | s in rows && rows[s].status == Active| < limits.maxSessions
        && (ip.None? || ip.value == "" ||
            var times := Times(trace, events, i, ip.value);
            |set j: nat | j < |times| && events[i].now - times[j] <= limits.window| < limits.perIp)
  {
    var ip := AddressOf(events, i);
    var launch := Launch(ip, |ActiveRows(trace[i + 1].rows)|, events[i].now);
    PendingTraced(trace, events, limits, i);
    CheckIs(trace, events, limits, i);
    SeenIsKept(trace, events, limits, i, ip.GetOr(""));
    SeenForward(trace, events, i, events[i].now);
    AnswerByLog(Seen(trace, events, i), launch, limits);
    assert ActiveRows(trace[i + 1].rows) ==
           var rows := trace[i + 1].rows; set s | s in rows && rows[s].status == Active;
  }

  /** Over every run: no closed interval of the window's length holds more launches from one address, let
      through, than allowed; relaunches count like any other. */
  lemma AddressBound(trace: seq<State>, events: seq<Event>, limits: Limits, i: nat, ip: string, lo: real)
    requires FromStart(trace, events, limits) && ChecksForward(events) && i <= |events| && ip != ""
    ensures var times := Times(trace, events, i, ip);
      |set j: nat | j < |times| && lo <= times[j] <= lo + limits.window| <= if limits.perIp > 0 then limits.perIp else 0
  {
    SeenIsKept(trace, events, limits, i, ip);
    var latest := LatestTime(events, i);
    SeenForward(trace, events, i, latest);
    LaunchBound(Seen(trace, events, i), limits, ip, lo);
  }

  lemma {:induction false} LatestTime(events: seq<Event>, i: nat) returns (now: real)
    requires i <= |events|
    ensures forall j :: 0 <= j < i && IsCheck(events[j]) ==> events[j].now <= now
  {
    if i == 0 {
      now := 0.0;
    } else {
      now := LatestTime(events, i - 1);
      if IsCheck(events[i - 1]) && events[i - 1].now > now {
        now := events[i - 1].now;
      }
    }
  }
}
