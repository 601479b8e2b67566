/** Voice sessions as a transition system: a step is the code between two awaits. */
module SessionLifecycle {
  import Sets
  import opened Wrappers
  import opened Tables
  import SlidingWindow
  import opened LaunchLimiter

  datatype Status = Active | Stopped

  datatype Row = Row(
    workflow: Id, status: Status, startedAt: int, endedAt: Option<int>,
    endedReason: Option<string>, usage: Option<Dict>)

  /** A launch waiting for the stale session's room to go, or for its own room to come up. */
  datatype Pending = Ending(workflow: Id, ip: Option<string>, stale: Id) | Creating(workflow: Id, session: Id)

  /** How far a session's worker has got with recording the end of the call. */
  datatype Worker =
    | Found(active: bool)
    | Finished(foundActive: bool, recorded: Option<Dict>)
    | GaveUp

  datatype State = State(
    rows: map<Id, Row>,
    launches: map<Id, Pending>,
    stops: map<Id, Id>,
    workers: map<Id, Worker>,
    histories: SlidingWindow.Histories)

  function ActiveRows(rows: map<Id, Row>): set<Id> {
    set s | s in rows && rows[s].status == Active
  }

  /** The launches between passing the check and creating their row. */
  function InFlight(state: State): set<Id> {
    set r | r in state.launches && state.launches[r].Creating?
  }

  /** The active row of a workflow that started last. */
  predicate IsLatestActive(rows: map<Id, Row>, w: Id, s: Id) {
    && s in rows && rows[s].workflow == w && rows[s].status == Active
    && forall other :: other in rows && rows[other].workflow == w && rows[other].status == Active ==>
         rows[other].startedAt <= rows[s].startedAt
  }

  predicate NoneActive(rows: map<Id, Row>, w: Id) {
    forall s :: s in rows && rows[s].workflow == w ==> rows[s].status != Active
  }

  /** Nothing knows this session id yet. */
  predicate NewSession(state: State, s: Id) {
    && s !in state.rows && s !in state.workers
    && forall r :: r in state.launches && state.launches[r].Creating? ==> state.launches[r].session != s
  }

  datatype Event =
    | LaunchBegins(req: Id, w: Id, ip: Option<string>, stale: Option<Id>, now: real, session: Id)
    | LaunchResumes(req: Id, wall: int, now: real, session: Id)
    | RoomReady(req: Id, wall: int)
    | RoomFailed(req: Id)
    | StopBegins(req: Id, w: Id, target: Id)
    | StopResumes(req: Id, wall: int)
    | WorkerReads(s: Id)
    | WorkerWrites(s: Id, usage: Option<Dict>, reason: string, wall: int)
    | WorkerFails(s: Id)

  ghost predicate Enabled(state: State, event: Event) {
    match event
    case LaunchBegins(req, w, _, stale, _, session) =>
      && req !in state.launches && NewSession(state, session)
      && (if stale.Some? then IsLatestActive(state.rows, w, stale.value) else NoneActive(state.rows, w))
    case LaunchResumes(req, _, _, session) =>
      req in state.launches && state.launches[req].Ending? && state.launches[req].stale in state.rows &&
        NewSession(state, session)
    case RoomReady(req, _) =>
      req in state.launches && state.launches[req].Creating? && state.launches[req].session !in state.rows
    case RoomFailed(req) => req in state.launches && state.launches[req].Creating?
    case StopBegins(req, w, stale) => req !in state.stops && IsLatestActive(state.rows, w, stale)
    case StopResumes(req, _) => req in state.stops && state.stops[req] in state.rows
    case WorkerReads(s) => s !in state.workers && s in state.rows
    case WorkerWrites(s, _, _, _) => s in state.workers && state.workers[s].Found? && s in state.rows
    case WorkerFails(s) => s in state.workers && state.workers[s].Found?
  }

  /** A row as ended by the service: status and time are set, nothing else. */
  function Ended(row: Row, wall: int): Row {
    row.(status := Stopped, endedAt := Some(wall))
  }

  /** A row as the worker leaves it, given whether it had found it active. */
  function Recorded(row: Row, foundActive: bool, usage: Option<Dict>, reason: string, wall: int): Row {
    if foundActive then row.(usage := usage, status := Stopped, endedAt := Some(wall), endedReason := Some(reason))
    else row.(usage := usage)
  }

  /** The limits are checked; the launch goes on to create its room, or is refused. */
  function Checked(state: State, req: Id, w: Id, ip: Option<string>, now: real, session: Id, limits: Limits): State {
    var launch := Launch(ip, |ActiveRows(state.rows)|, now);
    var state' := state.(histories := After(state.histories, launch, limits), launches := state.launches - {req});
    if Answer(state.histories, launch, limits).Some? then state'
    else state'.(launches := state'.launches[req := Creating(w, session)])
  }

  ghost function Next(state: State, event: Event, limits: Limits): State
    requires Enabled(state, event)
  {
    match event
    case LaunchBegins(req, w, ip, stale, now, session) =>
      if stale.Some? then state.(launches := state.launches[req := Ending(w, ip, stale.value)])
      else Checked(state, req, w, ip, now, session, limits)
    case LaunchResumes(req, wall, now, session) =>
      var launch := state.launches[req];
      Checked(state.(rows := state.rows[launch.stale := Ended(state.rows[launch.stale], wall)]),
              req, launch.workflow, launch.ip, now, session, limits)
    case RoomReady(req, wall) =>
      var launch := state.launches[req];
      state.(rows := state.rows[launch.session := Row(launch.workflow, Active, wall, None, None, None)],
             launches := state.launches - {req})
    case RoomFailed(req) => state.(launches := state.launches - {req})
    case StopBegins(req, _, stale) => state.(stops := state.stops[req := stale])
    case StopResumes(req, wall) =>
      state.(rows := state.rows[state.stops[req] := Ended(state.rows[state.stops[req]], wall)],
             stops := state.stops - {req})
    case WorkerReads(s) =>
      state.(workers := state.workers[s := Found(state.rows[s].status == Active)])
    case WorkerWrites(s, usage, reason, wall) =>
      var found := state.workers[s].active;
      state.(rows := state.rows[s := Recorded(state.rows[s], found, usage, reason, wall)],
             workers := state.workers[s := Finished(found, usage)])
    case WorkerFails(s) => state.(workers := state.workers[s := GaveUp])
  }

  const INITIAL := State(map[], map[], map[], map[], map[])

  /** Each state comes from the one before by an event. */
  ghost predicate IsRun(trace: seq<State>, events: seq<Event>, limits: Limits) {
    && |trace| == |events| + 1
    && forall i :: 0 <= i < |events| ==>
         Enabled(trace[i], events[i]) && trace[i + 1] == Next(trace[i], events[i], limits)
  }

  // The cap on active sessions.

  /** Sessions that are active or will be. */
  function Load(state: State): nat {
    |ActiveRows(state.rows)| + |InFlight(state)|
  }

  lemma EndingFreesSlot(rows: map<Id, Row>, s: Id, row: Row)
    requires s in rows && row.status == Stopped
    ensures ActiveRows(rows[s := row]) == ActiveRows(rows) - {s}
    ensures |ActiveRows(rows[s := row])| <= |ActiveRows(rows)|
  {
    Sets.SubsetSize(ActiveRows(rows[s := row]), ActiveRows(rows));
  }

  lemma CheckedLoad(state: State, req: Id, w: Id, ip: Option<string>, now: real, session: Id, limits: Limits)
    requires req in state.launches ==> state.launches[req].Ending?
    ensures var state' := Checked(state, req, w, ip, now, session, limits);
      && state'.rows == state.rows
      && (InFlight(state') == InFlight(state) ||
          (InFlight(state') == InFlight(state) + {req} && |ActiveRows(state.rows)| < limits.maxSessions))
  {
    var launch := Launch(ip, |ActiveRows(state.rows)|, now);
    var state' := Checked(state, req, w, ip, now, session, limits);
    if Answer(state.histories, launch, limits).Some? {
      assert InFlight(state') == InFlight(state);
    } else {
      assert InFlight(state') == InFlight(state) + {req};
    }
  }

  /** What a step can do to the load: leave or lower it, or let one more launch through the check. */
  ghost predicate LoadStep(state: State, state': State, limits: Limits) {
    || Load(state') <= Load(state)
    || Load(state') <= limits.maxSessions - 1 + |InFlight(state')|
  }

  lemma BeginLoad(state: State, event: Event, limits: Limits)
    requires Enabled(state, event) && event.LaunchBegins?
    ensures LoadStep(state, Next(state, event, limits), limits)
  {
    if event.stale.Some? {
      assert InFlight(Next(state, event, limits)) == InFlight(state);
    } else {
      CheckedLoad(state, event.req, event.w, event.ip, event.now, event.session, limits);
    }
  }

  lemma ResumeLoad(state: State, event: Event, limits: Limits)
    requires Enabled(state, event) && event.LaunchResumes?
    ensures LoadStep(state, Next(state, event, limits), limits)
  {
    var launch := state.launches[event.req];
    var row := Ended(state.rows[launch.stale], event.wall);
    var ended := state.(rows := state.rows[launch.stale := row]);
    EndingFreesSlot(state.rows, launch.stale, row);
    assert InFlight(ended) == InFlight(state);
    CheckedLoad(ended, event.req, launch.workflow, launch.ip, event.now, event.session, limits);
  }

  lemma StartingTakesSlot(rows: map<Id, Row>, s: Id, row: Row)
    requires s !in rows
    ensures |ActiveRows(rows[s := row])| <= |ActiveRows(rows)| + 1
  {
    Sets.SubsetSize(ActiveRows(rows[s := row]), ActiveRows(rows) + {s});
  }

  lemma LandingLeavesFlight(state: State, state': State, req: Id)
    requires req in InFlight(state) && state'.launches == state.launches - {req}
    ensures |InFlight(state')| == |InFlight(state)| - 1
  {
    assert InFlight(state') == InFlight(state) - {req};
  }

  lemma RoomLoad(state: State, event: Event, limits: Limits)
    requires Enabled(state, event) && event.RoomReady?
    ensures Load(Next(state, event, limits)) <= Load(state)
  {
    var launch := state.launches[event.req];
    StartingTakesSlot(state.rows, launch.session, Row(launch.workflow, Active, event.wall, None, None, None));
    LandingLeavesFlight(state, Next(state, event, limits), event.req);
  }

  lemma NoRoomLoad(state: State, event: Event, limits: Limits)
    requires Enabled(state, event) && event.RoomFailed?
    ensures Load(Next(state, event, limits)) <= Load(state)
  {
    Sets.SubsetSize(InFlight(Next(state, event, limits)), InFlight(state));
  }

  lemma OtherLoad(state: State, event: Event, limits: Limits)
    requires Enabled(state, event)
    requires !event.LaunchBegins? && !event.LaunchResumes? && !event.RoomReady? && !event.RoomFailed?
    ensures Load(Next(state, event, limits)) <= Load(state)
  {
    var state' := Next(state, event, limits);
    assert InFlight(state') == InFlight(state);
    Sets.SubsetSize(ActiveRows(state'.rows), ActiveRows(state.rows));
  }

  /** One step keeps the load within the cap less one plus the launches in flight. */
  lemma StepKeepsLoad(state: State, event: Event, limits: Limits, k: nat)
    requires Enabled(state, event) && Load(state) <= limits.maxSessions - 1 + k
    requires |InFlight(Next(state, event, limits))| <= k
    ensures Load(Next(state, event, limits)) <= limits.maxSessions - 1 + k
  {
    if event.LaunchBegins? {
      BeginLoad(state, event, limits);
    } else if event.LaunchResumes? {
      ResumeLoad(state, event, limits);
    } else if event.RoomReady? {
      RoomLoad(state, event, limits);
    } else if event.RoomFailed? {
      NoRoomLoad(state, event, limits);
    } else {
      OtherLoad(state, event, limits);
    }
  }

  /** In every run with at most `k` launches in flight at a time, active sessions and launches in
      flight together never exceed the cap less one plus `k`; with one at a time the cap holds. */
  lemma {:induction false} LoadBound(trace: seq<State>, events: seq<Event>, limits: Limits, k: nat, i: nat)
    requires IsRun(trace, events, limits) && i < |trace|
    requires forall j :: 0 <= j < |trace| ==> |InFlight(trace[j])| <= k
    requires Load(trace[0]) <= limits.maxSessions - 1 + k
    ensures Load(trace[i]) <= limits.maxSessions - 1 + k
    ensures k == 1 ==> |ActiveRows(trace[i].rows)| <= limits.maxSessions
  {
    if i > 0 {
      LoadBound(trace, events, limits, k, i - 1);
      assert |InFlight(trace[i])| <= k;
      StepKeepsLoad(trace[i - 1], events[i - 1], limits, k);
    }
  }

  /** Relaunching a workflow never fails for lack of the slot its own stale session holds. */
  lemma RelaunchFreesItsSlot(state: State, req: Id, wall: int, now: real, session: Id, limits: Limits)
    requires Enabled(state, LaunchResumes(req, wall, now, session))
    requires state.rows[state.launches[req].stale].status == Active
    requires |ActiveRows(state.rows)| <= limits.maxSessions
    ensures var launch := state.launches[req];
      var rows := state.rows[launch.stale := Ended(state.rows[launch.stale], wall)];
      Answer(state.histories, Launch(launch.ip, |ActiveRows(rows)|, now), limits) != Some(TooManyActive)
  {
    var stale := state.launches[req].stale;
    EndingFreesSlot(state.rows, stale, Ended(state.rows[stale], wall));
    assert stale in ActiveRows(state.rows);
  }

  // The bound is attained.

  /** The first `n` workflows each have an active session; launches `n` to `n + k` are in flight. */
  function Busy(n: nat, k: nat): State {
    State(map s: Id | 0 <= s < n :: Row(s, Active, 0, None, None, None),
          map r: Id | n <= r < n + k :: Creating(r, r), map[], map[], map[])
  }

  lemma BusyCounts(n: nat, k: nat)
    ensures |ActiveRows(Busy(n, k).rows)| == n && |InFlight(Busy(n, k))| == k
  {
    assert ActiveRows(Busy(n, k).rows) == SlidingWindow.Range(0, n);
    assert InFlight(Busy(n, k)) == SlidingWindow.Range(n, n + k);
  }

  /** Below the cap, one more launch gets in flight. */
  lemma BusyLaunch(n: nat, k: nat, limits: Limits)
    requires n < limits.maxSessions
    ensures var event := LaunchBegins(n + k, n + k, None, None, 0.0, n + k);
      Enabled(Busy(n, k), event) && Next(Busy(n, k), event, limits) == Busy(n, k + 1)
  {
    BusyCounts(n, k);
    var next := Next(Busy(n, k), LaunchBegins(n + k, n + k, None, None, 0.0, n + k), limits);
    assert next.launches == Busy(n, k + 1).launches;
  }

  /** A launch in flight creates its row whatever the number of active sessions. */
  lemma BusyRoom(n: nat, k: nat, limits: Limits)
    requires k > 0
    ensures Enabled(Busy(n, k), RoomReady(n, 0)) && Next(Busy(n, k), RoomReady(n, 0), limits) == Busy(n + 1, k - 1)
  {
    var next := Next(Busy(n, k), RoomReady(n, 0), limits);
    assert next.rows == Busy(n + 1, k - 1).rows;
    assert next.launches == Busy(n + 1, k - 1).launches;
  }

  /** A run from `from` to `to` with at most `k` launches in flight throughout. */
  ghost predicate Leads(from: State, to: State, trace: seq<State>, events: seq<Event>, limits: Limits, k: nat) {
    && IsRun(trace, events, limits) && trace[0] == from && trace[|trace| - 1] == to
    && forall j :: 0 <= j < |trace| ==> |InFlight(trace[j])| <= k
  }

  ghost predicate Reaches(from: State, to: State, limits: Limits, k: nat) {
    exists trace: seq<State>, events :: Leads(from, to, trace, events, limits, k)
  }

  lemma ReachesSelf(state: State, limits: Limits, k: nat)
    requires |InFlight(state)| <= k
    ensures Reaches(state, state, limits, k)
  {
    assert Leads(state, state, [state], [], limits, k);
  }

  lemma RunMore(trace: seq<State>, events: seq<Event>, event: Event, limits: Limits)
    requires IsRun(trace, events, limits) && Enabled(trace[|trace| - 1], event)
    ensures IsRun(trace + [Next(trace[|trace| - 1], event, limits)], events + [event], limits)
  {
    var more, acts := trace + [Next(trace[|trace| - 1], event, limits)], events + [event];
    forall i | 0 <= i < |acts| ensures Enabled(more[i], acts[i]) && more[i + 1] == Next(more[i], acts[i], limits) {
      assert more[i] == trace[i];
      assert i < |events| ==> more[i + 1] == trace[i + 1] && acts[i] == events[i];
    }
  }

  lemma ReachesStep(from: State, mid: State, event: Event, limits: Limits, k: nat)
    requires Reaches(from, mid, limits, k) && Enabled(mid, event)
    requires |InFlight(Next(mid, event, limits))| <= k
    ensures Reaches(from, Next(mid, event, limits), limits, k)
  {
    var trace: seq<State>, events :| Leads(from, mid, trace, events, limits, k);
    var to := Next(mid, event, limits);
    RunMore(trace, events, event, limits);
    assert Leads(from, to, trace + [to], events + [event], limits, k);
  }

  lemma BusyMore(n: nat, k: nat, limits: Limits, most: nat)
    requires n < limits.maxSessions && k < most && Reaches(INITIAL, Busy(n, k), limits, most)
    ensures Reaches(INITIAL, Busy(n, k + 1), limits, most)
  {
    BusyLaunch(n, k, limits);
    BusyCounts(n, k + 1);
    ReachesStep(INITIAL, Busy(n, k), LaunchBegins(n + k, n + k, None, None, 0.0, n + k), limits, most);
  }

  lemma BusyRoomUp(n: nat, k: nat, limits: Limits, most: nat)
    requires 0 < k <= most && Reaches(INITIAL, Busy(n, k), limits, most)
    ensures Reaches(INITIAL, Busy(n + 1, k - 1), limits, most)
  {
    BusyRoom(n, k, limits);
    BusyCounts(n + 1, k - 1);
    ReachesStep(INITIAL, Busy(n, k), RoomReady(n, 0), limits, most);
  }

  lemma {:induction false} BusyReached(n: nat, k: nat, limits: Limits, most: nat)
    requires n + 1 <= limits.maxSessions && k <= most && most >= 1
    ensures Reaches(INITIAL, Busy(n, k), limits, most)
    decreases n, k
  {
    if k > 0 {
      BusyReached(n, k - 1, limits, most);
      BusyMore(n, k - 1, limits, most);
    } else if n > 0 {
      BusyReached(n - 1, 1, limits, most);
      BusyRoomUp(n - 1, 1, limits, most);
    } else {
      BusyCounts(n, k);
      NothingBusy();
      ReachesSelf(INITIAL, limits, most);
    }
  }

  lemma NothingBusy()
    ensures Busy(0, 0) == INITIAL
  {
    assert Busy(0, 0).rows == map[];
    assert Busy(0, 0).launches == map[];
  }

  lemma {:induction false} RoomsComeUp(n: nat, k: nat, limits: Limits, most: nat)
    requires Reaches(INITIAL, Busy(n, k), limits, most) && k <= most
    ensures Reaches(INITIAL, Busy(n + k, 0), limits, most)
    decreases k
  {
    if k > 0 {
      BusyRoomUp(n, k, limits, most);
      RoomsComeUp(n + 1, k - 1, limits, most);
    }
  }

  /** For every cap and every `k`, some run with at most `k` launches in flight ends with exactly
      the cap less one plus `k` active sessions; so with two in flight the cap can be exceeded. */
  lemma LoadBoundAttained(limits: Limits, k: nat) returns (state: State)
    requires limits.maxSessions >= 1 && k >= 1
    ensures Reaches(INITIAL, state, limits, k)
    ensures |ActiveRows(state.rows)| == limits.maxSessions - 1 + k
    ensures k >= 2 ==> |ActiveRows(state.rows)| > limits.maxSessions
  {
    var n := limits.maxSessions - 1;
    BusyReached(n, k, limits, k);
    RoomsComeUp(n, k, limits, k);
    state := Busy(n + k, 0);
    BusyCounts(n + k, 0);
  }

  // Stopping and recording.

  /** What the service and the worker leave behind in one row. */
  ghost predicate RowOk(state: State, s: Id)
    requires s in state.rows
  {
    var row := state.rows[s];
    && (row.endedAt.Some? <==> row.status == Stopped)
    && (row.endedReason.Some? <==> s in state.workers && state.workers[s].Finished? && state.workers[s].foundActive)
    && (s in state.workers && state.workers[s].Finished? ==>
          row.status == Stopped && row.usage == state.workers[s].recorded)
    && (s in state.workers && state.workers[s] == Found(false) ==> row.status == Stopped)
  }

  ghost predicate RecordsOk(state: State) {
    && (forall s {:trigger RowOk(state, s)} :: s in state.rows ==> RowOk(state, s))
    && (forall s :: s in state.workers ==> s in state.rows)
  }

  /** Ended rows stay ended, and no row disappears. */
  ghost predicate OnlyEnds(state: State, state': State) {
    forall s :: s in state.rows ==>
      s in state'.rows && (state.rows[s].status == Stopped ==> state'.rows[s].status == Stopped)
  }

  lemma RowKept(state: State, event: Event, limits: Limits, s: Id)
    requires Enabled(state, event) && RecordsOk(state) && s in Next(state, event, limits).rows
    ensures RowOk(Next(state, event, limits), s)
  {
    if s in state.rows {
      assert RowOk(state, s);
    }
  }

  lemma StepKeepsRecords(state: State, event: Event, limits: Limits)
    requires Enabled(state, event) && RecordsOk(state)
    ensures RecordsOk(Next(state, event, limits)) && OnlyEnds(state, Next(state, event, limits))
  {
    forall s | s in Next(state, event, limits).rows ensures RowOk(Next(state, event, limits), s) {
      RowKept(state, event, limits, s);
    }
  }

  /** In every interleaving: a row has an end time iff it is stopped, and a reason iff its worker
      found it active; once the worker is done the row is stopped with the worker's usage; and workers
      have rows. */
  lemma {:induction false} RecordsAgree(trace: seq<State>, events: seq<Event>, limits: Limits, i: nat)
    requires IsRun(trace, events, limits) && RecordsOk(trace[0]) && i < |trace|
    ensures RecordsOk(trace[i])
  {
    if i > 0 {
      RecordsAgree(trace, events, limits, i - 1);
      StepKeepsRecords(trace[i - 1], events[i - 1], limits);
    }
  }

  /** A stopped session never becomes active again. */
  lemma {:induction false} StoppedForGood(trace: seq<State>, events: seq<Event>, limits: Limits, i: nat, j: nat, s: Id)
    requires IsRun(trace, events, limits) && RecordsOk(trace[0]) && i <= j < |trace|
    requires s in trace[i].rows && trace[i].rows[s].status == Stopped
    ensures s in trace[j].rows && trace[j].rows[s].status == Stopped
    decreases j - i
  {
    if i < j {
      RecordsAgree(trace, events, limits, i);
      StepKeepsRecords(trace[i], events[i], limits);
      StoppedForGood(trace, events, limits, i + 1, j, s);
    }
  }

  /** What ends an active session: a stop, a relaunch of its workflow, or its worker. */
  predicate Ends(state: State, event: Event, s: Id) {
    match event
    case StopResumes(req, _) => req in state.stops && state.stops[req] == s
    case LaunchResumes(req, _, _, _) =>
      req in state.launches && state.launches[req].Ending? && state.launches[req].stale == s
    case WorkerWrites(other, _, _, _) => other == s && s in state.workers && state.workers[s] == Found(true)
    case _ => false
  }

  /** A step leaves an active session active exactly if it does not end it. */
  lemma StaysActiveIff(state: State, event: Event, limits: Limits, s: Id)
    requires Enabled(state, event) && s in state.rows && state.rows[s].status == Active
    ensures s in Next(state, event, limits).rows
    ensures Next(state, event, limits).rows[s].status == Active <==> !Ends(state, event, s)
  {
    match event
    case RoomReady(req, _) => assert state.launches[req].session != s;
    case _ =>
  }

  /** The worker will not touch the session's row any more. */
  predicate WorkerDone(state: State, s: Id) {
    s in state.workers && !state.workers[s].Found?
  }

  /** A session is active although its worker is done only if the worker gave up. A worker that is
      done stays done, so then only a stop or a relaunch can end the session. */
  lemma {:induction false} ActiveThoughDone(trace: seq<State>, events: seq<Event>, limits: Limits, i: nat, s: Id)
    requires IsRun(trace, events, limits) && RecordsOk(trace[0]) && i < |trace|
    requires s in trace[i].rows && trace[i].rows[s].status == Active && WorkerDone(trace[i], s)
    ensures trace[i].workers[s] == GaveUp
    ensures i < |events| ==>
      && WorkerDone(trace[i + 1], s)
      && (trace[i + 1].rows[s].status == Active <==> !Ends(trace[i], events[i], s))
      && (Ends(trace[i], events[i], s) ==> events[i].StopResumes? || events[i].LaunchResumes?)
  {
    RecordsAgree(trace, events, limits, i);
    assert RowOk(trace[i], s);
    if i < |events| {
      StaysActiveIff(trace[i], events[i], limits, s);
    }
  }

  /** It happens: the worker finds its row and then fails to write it, with nothing under way that
      would end the session. */
  lemma FailingWorkerLeavesActive(limits: Limits) returns (trace: seq<State>, events: seq<Event>)
    requires limits.maxSessions >= 1
    ensures IsRun(trace, events, limits) && trace[0] == INITIAL
    ensures var last := trace[|trace| - 1];
      && 0 in last.rows && last.rows[0].status == Active && 0 in last.workers && last.workers[0] == GaveUp
      && last.launches == map[] && last.stops == map[]
  {
    events := [LaunchBegins(0, 7, None, None, 0.0, 0), RoomReady(0, 0), WorkerReads(0), WorkerFails(0)];
    var one := INITIAL.(launches := map[0 := Creating(7, 0)]);
    assert ActiveRows(map[]) == {};
    assert Next(INITIAL, events[0], limits) == one;
    var two := one.(rows := map[0 := Row(7, Active, 0, None, None, None)], launches := map[]);
    assert Next(one, events[1], limits) == two;
    trace := [INITIAL, one, two, two.(workers := map[0 := Found(true)]), two.(workers := map[0 := GaveUp])];
  }

  // One session per workflow.

  /** No two launches of one workflow are under way at once. */
  ghost predicate OneLaunchEach(state: State) {
    forall q, r | q in state.launches && r in state.launches && q != r ::
      state.launches[q].workflow != state.launches[r].workflow
  }

  ghost predicate OneActiveEach(state: State) {
    forall a, b | a in state.rows && b in state.rows ::
      state.rows[a].workflow == state.rows[b].workflow && state.rows[a].status == Active &&
        state.rows[b].status == Active
      ==> a == b
  }

  /** A launch waiting for its room has seen to it that its workflow has no active session; one
      waiting for the stale session's room will end the only one there is. */
  ghost predicate LaunchOk(state: State, r: Id)
    requires r in state.launches
  {
    match state.launches[r]
    case Creating(w, _) => NoneActive(state.rows, w)
    case Ending(w, _, stale) =>
      forall s :: s in state.rows && state.rows[s].workflow == w && state.rows[s].status == Active ==> s == stale
  }

  ghost predicate SinglesOk(state: State) {
    && OneActiveEach(state)
    && forall r {:trigger LaunchOk(state, r)} :: r in state.launches ==> LaunchOk(state, r)
  }

  /** No row becomes active. */
  ghost predicate NothingStarts(rows: map<Id, Row>, rows': map<Id, Row>) {
    forall s :: s in rows' && rows'[s].status == Active ==>
      s in rows && rows[s].status == Active && rows'[s].workflow == rows[s].workflow
  }

  lemma SinglesKept(state: State, state': State)
    requires SinglesOk(state) && NothingStarts(state.rows, state'.rows)
    requires forall r :: r in state'.launches ==>
      (r in state.launches && state.launches[r] == state'.launches[r]) || LaunchOk(state', r)
    ensures SinglesOk(state')
  {
    forall r | r in state'.launches ensures LaunchOk(state', r) {
      assert r in state.launches ==> LaunchOk(state, r);
    }
  }

  lemma RoomKeepsSingles(state: State, event: Event, limits: Limits)
    requires Enabled(state, event) && event.RoomReady? && SinglesOk(state) && OneLaunchEach(state)
    ensures SinglesOk(Next(state, event, limits))
  {
    var state' := Next(state, event, limits);
    assert LaunchOk(state, event.req);
    forall r | r in state'.launches ensures LaunchOk(state', r) {
      assert LaunchOk(state, r);
    }
  }

  lemma ResumeKeepsSingles(state: State, event: Event, limits: Limits)
    requires Enabled(state, event) && event.LaunchResumes? && SinglesOk(state)
    ensures SinglesOk(Next(state, event, limits))
  {
    assert LaunchOk(state, event.req);
    SinglesKept(state, Next(state, event, limits));
  }

  lemma BeginKeepsSingles(state: State, event: Event, limits: Limits)
    requires Enabled(state, event) && event.LaunchBegins? && SinglesOk(state)
    ensures SinglesOk(Next(state, event, limits))
  {
    var state' := Next(state, event, limits);
    assert state'.rows == state.rows;
    forall r | r in state'.launches && r !in state.launches ensures LaunchOk(state', r) {
      assert r == event.req;
    }
    SinglesKept(state, state');
  }

  lemma OtherKeepsSingles(state: State, event: Event, limits: Limits)
    requires Enabled(state, event) && SinglesOk(state)
    requires !event.RoomReady? && !event.LaunchResumes? && !event.LaunchBegins?
    ensures SinglesOk(Next(state, event, limits))
  {
    assert NothingStarts(state.rows, Next(state, event, limits).rows);
    SinglesKept(state, Next(state, event, limits));
  }

  lemma StepKeepsSingles(state: State, event: Event, limits: Limits)
    requires Enabled(state, event) && SinglesOk(state) && OneLaunchEach(state)
    ensures SinglesOk(Next(state, event, limits))
  {
    if event.RoomReady? {
      RoomKeepsSingles(state, event, limits);
    } else if event.LaunchBegins? {
      BeginKeepsSingles(state, event, limits);
    } else if event.LaunchResumes? {
      ResumeKeepsSingles(state, event, limits);
    } else {
      OtherKeepsSingles(state, event, limits);
    }
  }

  /** Exactly when a step keeps it that no workflow has two active sessions: always, except that a
      row is created only while its workflow has no active session. */
  lemma KeepsOneActiveIff(state: State, event: Event, limits: Limits)
    requires Enabled(state, event) && OneActiveEach(state)
    ensures OneActiveEach(Next(state, event, limits))
            <==> (event.RoomReady? ==> NoneActive(state.rows, state.launches[event.req].workflow))
  {
    var state' := Next(state, event, limits);
    if event.RoomReady? {
      var launch := state.launches[event.req];
      assert state'.rows[launch.session].status == Active && state'.rows[launch.session].workflow == launch.workflow;
      forall s | s in state.rows ensures s in state'.rows && s != launch.session && state'.rows[s] == state.rows[s] {
      }
    } else {
      assert NothingStarts(state.rows, state'.rows);
    }
  }

  /** If the launches of one workflow never overlap, it never has two active sessions. */
  lemma {:induction false} OneSessionPerWorkflow(trace: seq<State>, events: seq<Event>, limits: Limits, i: nat)
    requires IsRun(trace, events, limits) && i < |trace| && SinglesOk(trace[0])
    requires forall j :: 0 <= j < |trace| ==> OneLaunchEach(trace[j])
    ensures SinglesOk(trace[i])
  {
    if i > 0 {
      OneSessionPerWorkflow(trace, events, limits, i - 1);
      StepKeepsSingles(trace[i - 1], events[i - 1], limits);
    }
  }

  /** If they do overlap, it can: two launches of one workflow, both begun before either row exists. */
  lemma OverlapLeavesTwo(limits: Limits) returns (trace: seq<State>, events: seq<Event>)
    requires limits.maxSessions >= 1
    ensures IsRun(trace, events, limits) && trace[0] == INITIAL
    ensures !OneActiveEach(trace[|trace| - 1])
  {
    var first, second := LaunchBegins(0, 7, None, None, 0.0, 0), LaunchBegins(1, 7, None, None, 0.0, 1);
    events := [first, second, RoomReady(0, 0), RoomReady(1, 0)];
    var one := INITIAL.(launches := map[0 := Creating(7, 0)]);
    var two := one.(launches := map[0 := Creating(7, 0), 1 := Creating(7, 1)]);
    var row := Row(7, Active, 0, None, None, None);
    var three := two.(rows := map[0 := row], launches := map[1 := Creating(7, 1)]);
    var four := three.(rows := map[0 := row, 1 := row], launches := map[]);
    assert ActiveRows(map[]) == {};
    assert Next(INITIAL, first, limits) == one;
    assert Next(one, second, limits) == two;
    assert Next(two, RoomReady(0, 0), limits) == three;
    assert Next(three, RoomReady(1, 0), limits) == four;
    trace := [INITIAL, one, two, three, four];
    assert 0 in four.rows && 1 in four.rows;
  }
}
