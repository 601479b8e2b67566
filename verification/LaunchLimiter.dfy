/** The limits on launching voice sessions: a cap on active sessions and a deque of times per IP. */
module LaunchLimiter {
  import opened Wrappers
  import opened SlidingWindow

  datatype Refusal = TooManyActive | TooManyFromIp

  /** One launch request as it reaches the limits. */
  datatype Launch = Launch(ip: Option<string>, active: nat, now: real)

  datatype Limits = Limits(maxSessions: int, perIp: int, window: real)

  /** A missing or empty address is not limited. */
  predicate Anonymous(ip: Option<string>) {
    ip.None? || ip.value == ""
  }

  /** Whether a launch gets as far as the limit per address. */
  predicate Counted(launch: Launch, limits: Limits) {
    launch.active < limits.maxSessions && !Anonymous(launch.ip)
  }

  /** The answer to a launch, and the histories after it. */
  function Answer(histories: Histories, launch: Launch, limits: Limits): Option<Refusal> {
    if launch.active >= limits.maxSessions then Some(TooManyActive)
    else if Anonymous(launch.ip) then None
    else if |DropOld(HistoryOf(histories, launch.ip.value), launch.now, limits.window)| >= limits.perIp then
      Some(TooManyFromIp)
    else None
  }

  function After(histories: Histories, launch: Launch, limits: Limits): Histories {
    if !Counted(launch, limits) then histories
    else
      var kept := DropOld(HistoryOf(histories, launch.ip.value), launch.now, limits.window);
      histories[launch.ip.value := if |kept| >= limits.perIp then kept else kept + [launch.now]]
  }

  /** What the limit per address does to a sorted history, by the clock: it admits if fewer launches
      than allowed are at most a window old, and those are the ones that are kept. */
  ghost predicate LimitedByClock(history: seq<real>, now: real, limits: Limits, admitted: bool, kept: seq<real>) {
    Sorted(history) ==>
      && (admitted <==> |set i: nat | i < |history| && now - history[i] <= limits.window| < limits.perIp)
      && forall t :: multiset(kept)[t] ==
           (if now - t <= limits.window then multiset(history)[t] else 0) + (if admitted && t == now then 1 else 0)
  }

  lemma CountedByClock(histories: Histories, launch: Launch, limits: Limits)
    requires Counted(launch, limits)
    ensures LimitedByClock(HistoryOf(histories, launch.ip.value), launch.now, limits,
      Answer(histories, launch, limits).None?, After(histories, launch, limits)[launch.ip.value])
  {
    var history, now := HistoryOf(histories, launch.ip.value), launch.now;
    if Sorted(history) {
      DropOldIsRecent(history, now, limits.window);
      RecentCounts(history, now, limits.window, true);
      assert Counting(history, now, limits.window, true) ==
             set i: nat | i < |history| && now - history[i] <= limits.window;
      forall t ensures multiset(Recent(history, now, limits.window, true))[t] ==
                       if now - t <= limits.window then multiset(history)[t] else 0 {
        RecentKeeps(history, now, limits.window, true, t);
      }
    }
  }

  class LaunchLimiter {
    const limits: Limits
    var histories: Histories

    constructor (limits: Limits)
      ensures this.limits == limits && histories == map[]
    {
      this.limits, histories := limits, map[];
    }

    /** Refuses a launch over either limit; otherwise records it under its address. */
    method Enforce(active: nat, ip: Option<string>, now: real) returns (refusal: Option<Refusal>)
      modifies this
      ensures refusal == Answer(old(histories), Launch(ip, active, now), limits)
      ensures histories == After(old(histories), Launch(ip, active, now), limits)
      ensures refusal == Some(TooManyActive) <==> active >= limits.maxSessions
      ensures active >= limits.maxSessions || ip.None? || ip.value == "" ==> histories == old(histories)
      ensures active < limits.maxSessions && (ip.None? || ip.value == "") ==> refusal.None?
      ensures active < limits.maxSessions && ip.Some? && ip.value != "" ==>
        histories - {ip.value} == old(histories) - {ip.value} && ip.value in histories &&
        LimitedByClock(if ip.value in old(histories) then old(histories)[ip.value] else [], now, limits,
                       refusal.None?, histories[ip.value])
    {
      if active < limits.maxSessions && ip.Some? && ip.value != "" {
        CountedByClock(histories, Launch(ip, active, now), limits);
      }
      if active >= limits.maxSessions {
        return Some(TooManyActive);
      }
      if ip.None? || ip.value == "" {
        return None;
      }
      var history := HistoryOf(histories, ip.value);
      while history != [] && now - history[0] > limits.window
        invariant DropOld(history, now, limits.window) ==
                  DropOld(HistoryOf(histories, ip.value), now, limits.window)
        decreases |history|
      {
        history := history[1..];
      }
      histories := histories[ip.value := history];
      if |history| >= limits.perIp {
        return Some(TooManyFromIp);
      }
      histories := histories[ip.value := history + [now]];
      refusal := None;
    }
  }

  // The launches that reach the per-IP limit, as calls to a sliding-window limiter.

  function CallOf(launch: Launch, limits: Limits): Call
    requires !Anonymous(launch.ip)
  {
    Call(launch.ip.value, limits.perIp, limits.window, launch.now)
  }

  function Calls(launches: seq<Launch>, limits: Limits): seq<Call> {
    if launches == [] then []
    else
      var last := launches[|launches| - 1];
      Calls(launches[..|launches| - 1], limits) +
      if Counted(last, limits) then [CallOf(last, limits)] else []
  }

  function StateAfter(launches: seq<Launch>, limits: Limits): Histories {
    if launches == [] then map[]
    else After(StateAfter(launches[..|launches| - 1], limits), launches[|launches| - 1], limits)
  }

  predicate ClockForward(launches: seq<Launch>) {
    forall i, j :: 0 <= i < j < |launches| ==> launches[i].now <= launches[j].now
  }

  /** Every stored history is sorted and lies in the past. */
  ghost predicate Ordered(histories: Histories, now: real) {
    forall ip :: ip in histories ==>
      Sorted(histories[ip]) && forall i :: 0 <= i < |histories[ip]| ==> histories[ip][i] <= now
  }

  lemma {:induction false} RecentOrdered(log: seq<real>, now: real, window: real, closed: bool)
    requires Sorted(log)
    ensures Sorted(Recent(log, now, window, closed))
    ensures forall i :: 0 <= i < |Recent(log, now, window, closed)| ==> Recent(log, now, window, closed)[i] in log
  {
    if log != [] {
      RecentOrdered(log[..|log| - 1], now, window, closed);
    }
  }

  lemma {:induction false} CallsInTime(launches: seq<Launch>, limits: Limits)
    requires ClockForward(launches)
    ensures Monotone(Calls(launches, limits))
    ensures forall i :: 0 <= i < |Calls(launches, limits)| ==>
      && Calls(launches, limits)[i].limit == limits.perIp
      && Calls(launches, limits)[i].window == limits.window
      && (launches != [] ==> Calls(launches, limits)[i].now <= launches[|launches| - 1].now)
  {
    if launches != [] {
      CallsInTime(launches[..|launches| - 1], limits);
    }
  }

  /** One launch under the deque is one call under the filter. */
  lemma AfterIsPruned(histories: Histories, launch: Launch, limits: Limits)
    requires Ordered(histories, launch.now) && Counted(launch, limits)
    ensures var call := CallOf(launch, limits);
      && After(histories, launch, limits) == Pruned(histories, call, true)
      && (Answer(histories, launch, limits).None? <==> Admits(HistoryOf(histories, launch.ip.value), call, true))
    ensures Ordered(After(histories, launch, limits), launch.now)
  {
    var history := HistoryOf(histories, launch.ip.value);
    DropOldIsRecent(history, launch.now, limits.window);
    RecentOrdered(history, launch.now, limits.window, true);
  }

  lemma CallsStep(launches: seq<Launch>, limits: Limits)
    requires launches != []
    ensures var n := |launches| - 1; var before := Calls(launches[..n], limits);
      if Counted(launches[n], limits) then
        && Calls(launches, limits) == before + [CallOf(launches[n], limits)]
        && HistoriesAfter(Calls(launches, limits), true) ==
           Pruned(HistoriesAfter(before, true), CallOf(launches[n], limits), true)
      else Calls(launches, limits) == before
  {
    var n := |launches| - 1;
    var before := Calls(launches[..n], limits);
    if Counted(launches[n], limits) {
      assert (before + [CallOf(launches[n], limits)])[..|before|] == before;
    }
  }

  /** Popping from the left gives, over a whole run, the histories that filtering gives. */
  lemma {:induction false} DequeIsFilter(launches: seq<Launch>, limits: Limits, now: real)
    requires ClockForward(launches)
    requires launches != [] ==> launches[|launches| - 1].now <= now
    ensures StateAfter(launches, limits) == HistoriesAfter(Calls(launches, limits), true)
    ensures Ordered(StateAfter(launches, limits), now)
  {
    if launches != [] {
      var n := |launches| - 1;
      DequeIsFilter(launches[..n], limits, launches[n].now);
      CallsStep(launches, limits);
      if Counted(launches[n], limits) {
        AfterIsPruned(StateAfter(launches[..n], limits), launches[n], limits);
      }
    }
  }

  /** The times of the launches from one address that neither limit refused. */
  function Launched(launches: seq<Launch>, limits: Limits, ip: string): seq<real> {
    if launches == [] then []
    else
      var n := |launches| - 1;
      Launched(launches[..n], limits, ip) +
      if launches[n].ip == Some(ip) && Answer(StateAfter(launches[..n], limits), launches[n], limits).None?
      then [launches[n].now] else []
  }

  lemma AdmissionsStep(calls: seq<Call>, call: Call, key: string)
    ensures Admissions(calls + [call], key, true) == Admissions(calls, key, true) +
      if call.key == key && Admits(HistoryOf(HistoriesAfter(calls, true), key), call, true) then [call.now] else []
  {
    assert (calls + [call])[..|calls|] == calls;
  }

  lemma {:induction false} LaunchedIsAdmitted(launches: seq<Launch>, limits: Limits, ip: string)
    requires ClockForward(launches) && ip != ""
    ensures Launched(launches, limits, ip) == Admissions(Calls(launches, limits), ip, true)
  {
    if launches != [] {
      var n := |launches| - 1;
      LaunchedIsAdmitted(launches[..n], limits, ip);
      DequeIsFilter(launches[..n], limits, launches[n].now);
      CallsStep(launches, limits);
      if Counted(launches[n], limits) {
        AfterIsPruned(StateAfter(launches[..n], limits), launches[n], limits);
        AdmissionsStep(Calls(launches[..n], limits), CallOf(launches[n], limits), ip);
      }
    }
  }

  lemma StateStep(launches: seq<Launch>, launch: Launch, limits: Limits, ip: string)
    ensures StateAfter(launches + [launch], limits) == After(StateAfter(launches, limits), launch, limits)
    ensures Launched(launches + [launch], limits, ip) == Launched(launches, limits, ip) +
      if launch.ip == Some(ip) && Answer(StateAfter(launches, limits), launch, limits).None? then [launch.now] else []
  {
    assert (launches + [launch])[..|launches|] == launches;
  }

  /** The answer to a launch, by the launches let through so far: there must be a free session, and for a
      named address fewer launches than allowed at most a window ago. */
  lemma AnswerByLog(launches: seq<Launch>, launch: Launch, limits: Limits)
    requires ClockForward(launches + [launch])
    ensures Answer(StateAfter(launches, limits), launch, limits).None? <==>
      && launch.active < limits.maxSessions
      && (launch.ip.None? || launch.ip.value == "" ||
          var log := Launched(launches, limits, launch.ip.value);
          |set j: nat | j < |log| && launch.now - log[j] <= limits.window| < limits.perIp)
  {
    if Counted(launch, limits) {
      assert (launches + [launch])[..|launches|] == launches;
      assert ClockForward(launches) by {
        forall i, j | 0 <= i < j < |launches| ensures launches[i].now <= launches[j].now {
          assert (launches + [launch])[i].now <= (launches + [launch])[j].now;
        }
      }
      if launches != [] {
        assert (launches + [launch])[|launches| - 1].now <= (launches + [launch])[|launches|].now;
      }
      CountedByFullLog(launches, launch, limits);
    }
  }

  lemma CountedByFullLog(launches: seq<Launch>, launch: Launch, limits: Limits)
    requires ClockForward(launches) && ClockForward(launches + [launch]) && Counted(launch, limits)
    requires launches != [] ==> launches[|launches| - 1].now <= launch.now
    ensures var log := Launched(launches, limits, launch.ip.value);
      Answer(StateAfter(launches, limits), launch, limits).None? <==>
      |set j: nat | j < |log| && launch.now - log[j] <= limits.window| < limits.perIp
  {
    var before, calls := Calls(launches, limits), Calls(launches + [launch], limits);
    DequeIsFilter(launches, limits, launch.now);
    AfterIsPruned(StateAfter(launches, limits), launch, limits);
    LaunchedIsAdmitted(launches, limits, launch.ip.value);
    assert (launches + [launch])[..|launches|] == launches;
    CallsStep(launches + [launch], limits);
    CallsInTime(launches + [launch], limits);
    assert calls[..|before|] == before && calls[|before|] == CallOf(launch, limits);
    PrunedRefinesFull(calls, |before|, true);
  }

  /** No closed interval of the window's length holds more than the allowed launches of an address. */
  lemma LaunchBound(launches: seq<Launch>, limits: Limits, ip: string, lo: real)
    requires ClockForward(launches) && ip != ""
    ensures var log := Launched(launches, limits, ip);
      |set i: nat | i < |log| && lo <= log[i] <= lo + limits.window| <= if limits.perIp > 0 then limits.perIp else 0
  {
    var log, most := Launched(launches, limits, ip), if limits.perIp > 0 then limits.perIp else 0;
    LaunchedIsAdmitted(launches, limits, ip);
    CallsInTime(launches, limits);
    AdmittedBound(Calls(launches, limits), ip, most, lo, limits.window, log);
  }

  lemma AdmittedBound(calls: seq<Call>, ip: string, limit: nat, lo: real, window: real, log: seq<real>)
    requires Monotone(calls) && log == Admissions(calls, ip, true)
    requires forall i :: 0 <= i < |calls| ==> calls[i].limit <= limit && calls[i].window == window
    ensures |set i: nat | i < |log| && lo <= log[i] <= lo + window| <= limit
  {
    WindowBound(calls, ip, limit, lo, window, true);
  }

  /** A launch refused by either limit adds no entry to any history. */
  lemma RefusedAddsNothing(histories: Histories, launch: Launch, limits: Limits, ip: string)
    requires Answer(histories, launch, limits).Some?
    ensures exists k | 0 <= k <= |HistoryOf(histories, ip)| ::
      HistoryOf(After(histories, launch, limits), ip) == HistoryOf(histories, ip)[k..]
  {
    DropOldIsSuffix(HistoryOf(histories, ip), launch.now, limits.window);
    assert HistoryOf(histories, ip) == HistoryOf(histories, ip)[0..];
  }

  lemma {:induction false} DropOldIsSuffix(log: seq<real>, now: real, window: real)
    ensures exists k :: 0 <= k <= |log| && DropOld(log, now, window) == log[k..]
    decreases |log|
  {
    if log != [] && now - log[0] > window {
      DropOldIsSuffix(log[1..], now, window);
      var k :| 0 <= k <= |log[1..]| && DropOld(log[1..], now, window) == log[1..][k..];
      assert log[1..][k..] == log[k + 1..];
    } else {
      assert log == log[0..];
    }
  }
}
