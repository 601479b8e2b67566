/** How fast passwords can be checked against an account by sign-in passes that overlap. */
module OverlapPace {
  import Sets
  import opened Wrappers
  import opened Tables
  import opened OverlappingLogins

  /** The time of the latest read among the first `i` events. */
  function Latest(events: seq<Event>, i: nat, start: int): int
    requires i <= |events|
  {
    if i == 0 then start
    else if events[i - 1].Begins? then events[i - 1].now
    else Latest(events, i - 1, start)
  }

  /** Reads come in the order of their times. Writes may come at any time. */
  ghost predicate Forward(events: seq<Event>, start: int) {
    forall i :: 0 <= i < |events| && events[i].Begins? ==> Latest(events, i, start) <= events[i].now
  }

  predicate IsTop(pass: Pass, lockout: Login.Lockout) {
    pass.seen + 1 >= lockout.threshold
  }

  /** A check whose failure will lock the account. */
  predicate TopRead(state: State, event: Event, lockout: Login.Lockout) {
    Evaluates(state, event) && state.failedAttempts + 1 >= lockout.threshold
  }

  ghost function TopReadsIn(trace: seq<State>, events: seq<Event>, i: nat, lockout: Login.Lockout): nat
    requires i <= |events| <= |trace|
  {
    if i == 0 then 0
    else TopReadsIn(trace, events, i - 1, lockout) + if TopRead(trace[i - 1], events[i - 1], lockout) then 1 else 0
  }

  function Top(state: State, lockout: Login.Lockout): set<Id> {
    set p | p in state.passes && IsTop(state.passes[p], lockout)
  }

  function Below(state: State, lockout: Login.Lockout): set<Id> {
    set p | p in state.passes && !IsTop(state.passes[p], lockout)
  }

  // Checks below the threshold: those written and those under way.

  lemma WriteOne(state: State, lockout: Login.Lockout, p: Id)
    requires p in Below(state, lockout)
    ensures Enabled(state, Fails(p)) && !Locks(state, Fails(p), lockout)
    ensures Below(Next(state, Fails(p), lockout), lockout) == Below(state, lockout) - {p}
    ensures |Next(state, Fails(p), lockout).passes| == |state.passes| - 1
  {
    PassCount(state, Fails(p), lockout);
  }

  /** Writing all passes under way that see a value below would still keep to the bound. */
  lemma {:induction false} BelowFits(state: State, lockout: Login.Lockout, k: nat)
    requires |state.passes| <= k && lockout.threshold >= 1
    ensures Used(state, 0, k, lockout.threshold) + |Below(state, lockout)| <= Paths(lockout.threshold - 1, k) - 1
    decreases |Below(state, lockout)|
  {
    if Below(state, lockout) == {} {
      UsedInAll(state, k, lockout.threshold);
    } else {
      var p :| p in Below(state, lockout);
      WriteOne(state, lockout, p);
      MissUsesOne(state, Fails(p), lockout, k);
      BelowFits(Next(state, Fails(p), lockout), lockout, k);
    }
  }

  lemma TopCount(state: State, event: Event, lockout: Login.Lockout)
    requires Enabled(state, event)
    ensures |Top(Next(state, event, lockout), lockout)| ==
            |Top(state, lockout)| + (if TopRead(state, event, lockout) then 1 else 0)
                                  - (if Locks(state, event, lockout) then 1 else 0)
  {
    var before, after := Top(state, lockout), Top(Next(state, event, lockout), lockout);
    if TopRead(state, event, lockout) {
      assert after == before + {event.p} && event.p !in before;
    } else if Locks(state, event, lockout) {
      assert after == before - {event.p} && event.p in before;
    } else {
      assert after == before;
    }
  }

  /** Every check that will lock is under way or has locked. */
  lemma {:induction false} TopAccountedFor(trace: seq<State>, events: seq<Event>, lockout: Login.Lockout, i: nat)
    requires IsRun(trace, events, lockout) && trace[0].passes == map[] && i <= |events|
    ensures TopReadsIn(trace, events, i, lockout) == LocksIn(trace, events, i, lockout) + |Top(trace[i], lockout)|
  {
    if i > 0 {
      TopAccountedFor(trace, events, lockout, i - 1);
      TopCount(trace[i - 1], events[i - 1], lockout);
    }
  }

  lemma TwoKinds(state: State, lockout: Login.Lockout)
    ensures |state.passes| == |Below(state, lockout)| + |Top(state, lockout)|
  {
    assert state.passes.Keys == Below(state, lockout) + Top(state, lockout);
  }

  // Checks at the threshold: time is cut into windows of one lock's length.

  /** The passes under way that will lock until before the end of the window that begins at `x`. */
  function Old(state: State, lockout: Login.Lockout, x: int): set<Id> {
    set p | p in state.passes && IsTop(state.passes[p], lockout) && state.passes[p].now < x
  }

  function Young(state: State, lockout: Login.Lockout, x: int): set<Id> {
    set p | p in state.passes && IsTop(state.passes[p], lockout) && state.passes[p].now >= x
  }

  lemma OldAndYoung(state: State, lockout: Login.Lockout, x: int)
    ensures |Old(state, lockout, x)| + |Young(state, lockout, x)| <= |state.passes|
  {
    assert |Old(state, lockout, x) + Young(state, lockout, x)| == |Old(state, lockout, x)| + |Young(state, lockout, x)|;
    Sets.SubsetSize(Old(state, lockout, x) + Young(state, lockout, x), state.passes.Keys);
  }

  predicate Barred(state: State, until: int) {
    state.lockedUntil.Some? && state.lockedUntil.value >= until
  }

  /** Each old pass that writes sets the lock back; with `o` of them left there are `k - o` places for
      new passes. */
  function Reopened(k: nat, o: nat): nat
    requires o <= k
  {
    if o == 0 then 0 else Reopened(k, o - 1) + k - o + 1
  }

  lemma {:induction false} ReopenedGrows(k: nat, o: nat, o': nat)
    requires o <= o' <= k
    ensures Reopened(k, o) <= Reopened(k, o')
  {
    if o < o' {
      ReopenedGrows(k, o, o' - 1);
    }
  }

  /** In one window at most one check per place, over all places that open. */
  function PerWindow(k: nat): nat {
    Reopened(k, k)
  }

  lemma {:induction false} TwiceReopened(k: nat, o: nat)
    requires o <= k
    ensures 2 * Reopened(k, o) == o * (2 * k - o + 1)
  {
    if o > 0 {
      TwiceReopened(k, o - 1);
    }
  }

  lemma PerWindowIs(k: nat)
    ensures PerWindow(k) == k * (k + 1) / 2
  {
    TwiceReopened(k, k);
  }

  /** How many checks at the threshold are still to come in the window. */
  function Room(state: State, lockout: Login.Lockout, k: nat, x: int): int
    requires |Old(state, lockout, x)| <= k
  {
    var o := |Old(state, lockout, x)|;
    Reopened(k, o) + if Barred(state, x + lockout.Duration()) then 0 else k - o - |Young(state, lockout, x)|
  }

  lemma RoomBounded(state: State, lockout: Login.Lockout, k: nat, x: int)
    requires |state.passes| <= k
    ensures |Old(state, lockout, x)| <= k && 0 <= Room(state, lockout, k, x) <= PerWindow(k)
  {
    OldAndYoung(state, lockout, x);
    var o := |Old(state, lockout, x)|;
    ReopenedGrows(k, o, k);
    if o < k {
      ReopenedGrows(k, o + 1, k);
    }
  }

  lemma ReadPasses(state: State, event: Event, lockout: Login.Lockout, x: int)
    requires Enabled(state, event) && event.Begins? && x <= event.now
    ensures Old(Next(state, event, lockout), lockout, x) == Old(state, lockout, x)
    ensures |Young(Next(state, event, lockout), lockout, x)| ==
            |Young(state, lockout, x)| + if TopRead(state, event, lockout) then 1 else 0
  {
    if Evaluates(state, event) {
      YoungGrows(state, Next(state, event, lockout), event.p, Pass(state.failedAttempts, event.now), lockout, x);
    }
  }

  lemma YoungGrows(state: State, next: State, p: Id, pass: Pass, lockout: Login.Lockout, x: int)
    requires p !in state.passes && next.passes == state.passes[p := pass] && pass.now >= x
    ensures Old(next, lockout, x) == Old(state, lockout, x)
    ensures |Young(next, lockout, x)| == |Young(state, lockout, x)| + if IsTop(pass, lockout) then 1 else 0
  {
    if IsTop(pass, lockout) {
      assert Young(next, lockout, x) == Young(state, lockout, x) + {p};
    } else {
      assert Young(next, lockout, x) == Young(state, lockout, x);
    }
  }

  lemma ReadUsesRoom(state: State, event: Event, lockout: Login.Lockout, k: nat, x: int)
    requires Enabled(state, event) && event.Begins? && x <= event.now < x + lockout.Duration()
    requires |Old(state, lockout, x)| <= k
    ensures |Old(Next(state, event, lockout), lockout, x)| <= k
    ensures Room(Next(state, event, lockout), lockout, k, x) + (if TopRead(state, event, lockout) then 1 else 0) ==
            Room(state, lockout, k, x)
  {
    ReadPasses(state, event, lockout, x);
    assert Next(state, event, lockout).lockedUntil == state.lockedUntil;
  }

  lemma WriteGivesNoRoom(state: State, event: Event, lockout: Login.Lockout, k: nat, x: int)
    requires Enabled(state, event) && event.Fails? && |state.passes| <= k
    ensures |Old(state, lockout, x)| <= k && |Old(Next(state, event, lockout), lockout, x)| <= k
    ensures Room(Next(state, event, lockout), lockout, k, x) <= Room(state, lockout, k, x)
  {
    var next, pass := Next(state, event, lockout), state.passes[event.p];
    OldAndYoung(state, lockout, x);
    if !Locks(state, event, lockout) {
      assert Old(next, lockout, x) == Old(state, lockout, x) && Young(next, lockout, x) == Young(state, lockout, x);
    } else if pass.now >= x {
      assert Old(next, lockout, x) == Old(state, lockout, x);
    } else {
      assert Old(next, lockout, x) == Old(state, lockout, x) - {event.p};
      assert Young(next, lockout, x) == Young(state, lockout, x);
    }
  }

  /** The window a time falls into, and when that window begins. */
  function Window(t: int, start: int, lockout: Login.Lockout): int
    requires lockout.durationSeconds > 0
  {
    (t - start) / lockout.Duration()
  }

  function Opening(n: int, start: int, lockout: Login.Lockout): int {
    start + n * lockout.Duration()
  }

  lemma InWindow(t: int, start: int, lockout: Login.Lockout)
    requires lockout.durationSeconds > 0 && start <= t
    ensures var x := Opening(Window(t, start, lockout), start, lockout);
      Window(t, start, lockout) >= 0 && x <= t < x + lockout.Duration()
  {
    var d, y := lockout.Duration(), t - start;
    assert y == y / d * d + y % d;
  }

  lemma FewerTimes(a: int, b: int, d: int)
    requires d > 0 && a * d < b * d
    ensures a < b
  {
    assert (b - a) * d > 0;
  }

  lemma LaterWindow(t: int, t': int, start: int, lockout: Login.Lockout)
    requires lockout.durationSeconds > 0 && t <= t'
    ensures Window(t, start, lockout) <= Window(t', start, lockout)
  {
    var d, y, y' := lockout.Duration(), t - start, t' - start;
    assert y == y / d * d + y % d && y' == y' / d * d + y' % d;
    FewerTimes(y / d, y' / d + 1, d);
  }

  lemma MoreWindows(n: int, n': int, each: nat)
    requires n < n'
    ensures n * each + each <= n' * each
  {
    assert (n + 1) * each <= n' * each;
  }

  /** What has been checked at the threshold, and what room is left, fits the windows so far. */
  ghost predicate Paced(checks: nat, state: State, lockout: Login.Lockout, k: nat, start: int, t: int)
    requires lockout.durationSeconds > 0
  {
    var n := Window(t, start, lockout);
    var x := Opening(n, start, lockout);
    |Old(state, lockout, x)| <= k && checks + Room(state, lockout, k, x) <= k + n * PerWindow(k)
  }

  /** A later window finds room again. */
  lemma LaterPaced(checks: nat, state: State, lockout: Login.Lockout, k: nat, start: int, t: int, t': int)
    requires lockout.durationSeconds > 0 && |state.passes| <= k && t <= t'
    requires Paced(checks, state, lockout, k, start, t)
    ensures Paced(checks, state, lockout, k, start, t')
  {
    var n, n' := Window(t, start, lockout), Window(t', start, lockout);
    LaterWindow(t, t', start, lockout);
    RoomBounded(state, lockout, k, Opening(n, start, lockout));
    RoomBounded(state, lockout, k, Opening(n', start, lockout));
    if n < n' {
      MoreWindows(n, n', PerWindow(k));
    }
  }

  lemma ReadPaced(checks: nat, state: State, event: Event, lockout: Login.Lockout, k: nat, start: int, t: int)
    requires lockout.durationSeconds > 0 && |state.passes| <= k && start <= t
    requires Enabled(state, event) && event.Begins? && t <= event.now
    requires Paced(checks, state, lockout, k, start, t)
    ensures Paced(if TopRead(state, event, lockout) then checks + 1 else checks, Next(state, event, lockout), lockout,
                  k, start, event.now)
  {
    LaterPaced(checks, state, lockout, k, start, t, event.now);
    InWindow(event.now, start, lockout);
    ReadUsesRoom(state, event, lockout, k, Opening(Window(event.now, start, lockout), start, lockout));
  }

  lemma WritePaced(checks: nat, state: State, event: Event, lockout: Login.Lockout, k: nat, start: int, t: int)
    requires lockout.durationSeconds > 0 && |state.passes| <= k && Enabled(state, event) && event.Fails?
    requires Paced(checks, state, lockout, k, start, t)
    ensures Paced(checks, Next(state, event, lockout), lockout, k, start, t)
  {
    WriteGivesNoRoom(state, event, lockout, k, Opening(Window(t, start, lockout), start, lockout));
  }

  lemma StartPaced(state: State, lockout: Login.Lockout, k: nat, start: int)
    requires lockout.durationSeconds > 0 && state.passes == map[] && state.lockedUntil.None?
    ensures Paced(0, state, lockout, k, start, start)
  {
    assert Window(start, start, lockout) == 0;
    assert Old(state, lockout, start) == {} && Young(state, lockout, start) == {};
  }

  lemma {:induction false} RunPaced(
    trace: seq<State>, events: seq<Event>, lockout: Login.Lockout, k: nat, start: int, i: nat)
    requires IsRun(trace, events, lockout) && AtMost(trace, k) && Forward(events, start) && i <= |events|
    requires trace[0].passes == map[] && trace[0].lockedUntil.None? && lockout.durationSeconds > 0
    ensures start <= Latest(events, i, start)
    ensures Paced(TopReadsIn(trace, events, i, lockout), trace[i], lockout, k, start, Latest(events, i, start))
  {
    if i == 0 {
      StartPaced(trace[0], lockout, k, start);
    } else {
      RunPaced(trace, events, lockout, k, start, i - 1);
      var checks, t := TopReadsIn(trace, events, i - 1, lockout), Latest(events, i - 1, start);
      if events[i - 1].Begins? {
        ReadPaced(checks, trace[i - 1], events[i - 1], lockout, k, start, t);
      } else {
        WritePaced(checks, trace[i - 1], events[i - 1], lockout, k, start, t);
      }
    }
  }

  /** The bound on locks: with at most `k` passes overlapping, whenever they write, an account is locked
      at most `k` times, plus k * (k + 1) / 2 times per full DURATION elapsed. */
  lemma LockPace(
    trace: seq<State>, events: seq<Event>, lockout: Login.Lockout, k: nat, start: int, i: nat, t: int)
    requires IsRun(trace, events, lockout) && AtMost(trace, k) && Forward(events, start) && i <= |events|
    requires trace[0].passes == map[] && trace[0].lockedUntil.None? && lockout.durationSeconds > 0
    requires Latest(events, i, start) <= t
    ensures LocksIn(trace, events, i, lockout) + |Top(trace[i], lockout)| <=
            k + (t - start) / lockout.Duration() * (k * (k + 1) / 2)
  {
    RunPaced(trace, events, lockout, k, start, i);
    LaterPaced(TopReadsIn(trace, events, i, lockout), trace[i], lockout, k, start, Latest(events, i, start), t);
    RoomBounded(trace[i], lockout, k, Opening(Window(t, start, lockout), start, lockout));
    TopAccountedFor(trace, events, lockout, i);
    PerWindowIs(k);
  }

  /** The guess bound in time for overlapping passes. For `k` = 1 it is the bound for passes one after
      another: THRESHOLD, plus one check per full DURATION elapsed. */
  lemma OverlapGuessBound(
    trace: seq<State>, events: seq<Event>, lockout: Login.Lockout, k: nat, start: int, i: nat, t: int)
    requires IsRun(trace, events, lockout) && AtMost(trace, k) && Forward(events, start) && i <= |events|
    requires trace[0].passes == map[] && trace[0].lockedUntil.None?
    requires lockout.threshold >= 1 && lockout.durationSeconds > 0 && Latest(events, i, start) <= t
    ensures ChecksIn(trace, events, i) <=
            Paths(lockout.threshold - 1, k) - 1 + k + (t - start) / lockout.Duration() * (k * (k + 1) / 2)
  {
    ChecksAccountedFor(trace, events, lockout, i);
    MissesUseUp(trace, events, lockout, k, i);
    BelowFits(trace[i], lockout, k);
    TwoKinds(trace[i], lockout);
    LockPace(trace, events, lockout, k, start, i, t);
  }

  // The bound is attained: in each window the passes held back from the one before write one by one,
  // each setting the lock back, and new passes fill the free places.

  /** All reads among the events are at time `x`. */
  ghost predicate ReadsAt(events: seq<Event>, x: int) {
    forall i :: 0 <= i < |events| && events[i].Begins? ==> events[i].now == x
  }

  /** What the first step can do, reading at time 0 only, the second can do too. */
  ghost predicate Allows(quiet: Step, free: Step) {
    forall state, event :: quiet(state, event).Some? ==>
      free(state, event) == quiet(state, event) && (event.Begins? ==> event.now == 0)
  }

  lemma {:induction false} GoesFreely(quiet: Step, free: Step, from: State, events: seq<Event>, to: State, n: nat)
    requires Allows(quiet, free) && Goes(quiet, from, events, to, n)
    ensures Goes(free, from, events, to, n) && ReadsAt(events, 0)
    decreases |events|
  {
    if events != [] {
      var (next, used) := quiet(from, events[0]).value;
      GoesFreely(quiet, free, next, events[1..], to, n - used);
      ReadsFrom(events, 0);
    }
  }

  lemma QuietAllows(lockout: Login.Lockout, k: nat)
    ensures Allows(Steps(lockout, k, true), Steps(lockout, k, false))
  {
  }

  lemma ReadsFrom(events: seq<Event>, x: int)
    requires events != [] && (events[0].Begins? ==> events[0].now == x) && ReadsAt(events[1..], x)
    ensures ReadsAt(events, x)
  {
    assert forall i :: 0 < i < |events| ==> events[i] == events[1..][i - 1];
  }

  lemma {:induction false} LatestAfter(first: seq<Event>, rest: seq<Event>, start: int, i: nat)
    requires i <= |first|
    ensures Latest(first + rest, i, start) == Latest(first, i, start)
  {
    if i > 0 {
      LatestAfter(first, rest, start, i - 1);
    }
  }

  lemma {:induction false} ThenAt(first: seq<Event>, rest: seq<Event>, start: int, x: int)
    requires Forward(first, start) && Latest(first, |first|, start) <= x && ReadsAt(rest, x)
    ensures Forward(first + rest, start) && Latest(first + rest, |first + rest|, start) <= x
    decreases |rest|
  {
    if rest == [] {
      assert first + rest == first;
    } else {
      var n := |rest| - 1;
      var all, less := first + rest, first + rest[..n];
      ThenAt(first, rest[..n], start, x);
      assert all == less + [rest[n]];
      forall i | 0 <= i <= |less| ensures Latest(all, i, start) == Latest(less, i, start) {
        LatestAfter(less, [rest[n]], start, i);
      }
    }
  }

  /** Where a window stands: the counter and the lock, and of the passes under way, numbered from 0, how
      many are old, what those have seen, and how many there are in all. The new ones read at `x`. */
  datatype Mark = Mark(counter: nat, lock: Option<int>, seen: nat, aged: nat, all: nat, x: int)

  function PassAt(m: Mark, d: int, p: Id): Pass {
    if p < m.aged then Pass(m.seen, m.x - d) else Pass(m.seen + 1, m.x)
  }

  function StateAt(m: Mark, d: int): State {
    State(m.counter, m.lock, map p: Id | p < m.all :: PassAt(m, d, p))
  }

  // What can happen: an old pass writes, a new one reads, a new one writes.

  function OldWritten(m: Mark): Mark
    requires m.aged > 0
  {
    Mark(m.seen + 1, Some(m.x), m.seen, m.aged - 1, m.aged - 1, m.x)
  }

  function NewRead(m: Mark): Mark {
    m.(all := m.all + 1)
  }

  function NewWritten(m: Mark, d: int): Mark
    requires m.all > 0
  {
    m.(counter := m.seen + 2, lock := Some(m.x + d), all := m.all - 1)
  }

  /** By events with all reads at the time of the window the step leads from one mark to the other. */
  ghost predicate Leads(step: Step, at: Mark -> State, from: Mark, events: seq<Event>, to: Mark, n: nat) {
    Goes(step, at(from), events, at(to), n) && ReadsAt(events, from.x)
  }

  ghost predicate WritesOld(step: Step, at: Mark -> State, m: Mark)
    requires m.aged > 0
  {
    Leads(step, at, m, [Fails(m.aged - 1)], OldWritten(m), 0)
  }

  ghost predicate ReadsNew(step: Step, at: Mark -> State, m: Mark) {
    Leads(step, at, m, [Begins(m.all, m.x)], NewRead(m), 1)
  }

  ghost predicate WritesNew(step: Step, at: Mark -> State, m: Mark, d: int)
    requires m.all > 0
  {
    Leads(step, at, m, [Fails(m.all - 1)], NewWritten(m, d), 0)
  }

  /** A read in an open window sees the counter that an old pass has left. */
  predicate Open(m: Mark) {
    m.counter == m.seen + 1 && m.lock == Some(m.x)
  }

  ghost predicate Goable(step: Step, at: Mark -> State, threshold: int, d: int, k: nat) {
    && (forall m: Mark {:trigger WritesOld(step, at, m)} ::
          m.seen + 1 >= threshold && 0 < m.aged == m.all <= k ==> WritesOld(step, at, m))
    && (forall m: Mark {:trigger ReadsNew(step, at, m)} :: m.aged <= m.all < k && Open(m) ==> ReadsNew(step, at, m))
    && (forall m: Mark {:trigger WritesNew(step, at, m, d)} ::
          m.seen + 1 >= threshold && m.aged < m.all <= k ==> WritesNew(step, at, m, d))
  }

  lemma {:induction false} UpTo(passes: map<Id, Pass>, m: nat)
    requires forall p: Id :: p in passes <==> p < m
    ensures |passes| == m
  {
    if m > 0 {
      UpTo(passes - {m - 1}, m - 1);
      assert passes.Keys == (passes - {m - 1}).Keys + {m - 1};
    }
  }

  lemma PassFound(m: Mark, d: int, p: Id)
    ensures p in StateAt(m, d).passes <==> p < m.all
  {
    assert p < m.all ==> p in StateAt(m, d).passes && StateAt(m, d).passes[p] == PassAt(m, d, p);
  }

  lemma PassesAt(m: Mark, d: int)
    ensures forall p: Id :: p in StateAt(m, d).passes <==> p < m.all
    ensures |StateAt(m, d).passes| == m.all
  {
    forall p: Id ensures p in StateAt(m, d).passes <==> p < m.all {
      PassFound(m, d, p);
    }
    UpTo(StateAt(m, d).passes, m.all);
  }

  ghost function AtTime(d: int): Mark -> State {
    (m: Mark) => StateAt(m, d)
  }

  lemma Takes(lockout: Login.Lockout, k: nat, from: Mark, event: Event, to: Mark, n: nat)
    requires var d := lockout.Duration();
      && Enabled(StateAt(from, d), event) && Next(StateAt(from, d), event, lockout) == StateAt(to, d)
      && n == (if Evaluates(StateAt(from, d), event) then 1 else 0) && to.all <= k
    requires event.Begins? ==> event.now == from.x
    ensures Leads(Steps(lockout, k, false), AtTime(lockout.Duration()), from, [event], to, n)
  {
    var d := lockout.Duration();
    PassesAt(to, d);
    OneStep(Steps(lockout, k, false), StateAt(from, d), event, StateAt(to, d), n);
  }

  lemma OldCanWrite(lockout: Login.Lockout, k: nat, m: Mark)
    requires m.seen + 1 >= lockout.threshold && 0 < m.aged == m.all <= k
    ensures WritesOld(Steps(lockout, k, false), AtTime(lockout.Duration()), m)
  {
    var from, to := StateAt(m, lockout.Duration()), StateAt(OldWritten(m), lockout.Duration());
    PassesAt(m, lockout.Duration());
    assert Next(from, Fails(m.aged - 1), lockout).passes == to.passes;
    Takes(lockout, k, m, Fails(m.aged - 1), OldWritten(m), 0);
  }

  lemma NewCanRead(lockout: Login.Lockout, k: nat, m: Mark)
    requires m.aged <= m.all < k && Open(m)
    ensures ReadsNew(Steps(lockout, k, false), AtTime(lockout.Duration()), m)
  {
    var from, to := StateAt(m, lockout.Duration()), StateAt(NewRead(m), lockout.Duration());
    PassesAt(m, lockout.Duration());
    assert Next(from, Begins(m.all, m.x), lockout).passes == to.passes;
    Takes(lockout, k, m, Begins(m.all, m.x), NewRead(m), 1);
  }

  lemma NewCanWrite(lockout: Login.Lockout, k: nat, m: Mark)
    requires m.seen + 1 >= lockout.threshold && m.aged < m.all <= k
    ensures WritesNew(Steps(lockout, k, false), AtTime(lockout.Duration()), m, lockout.Duration())
  {
    var next := NewWritten(m, lockout.Duration());
    var from, to := StateAt(m, lockout.Duration()), StateAt(next, lockout.Duration());
    PassesAt(m, lockout.Duration());
    assert Next(from, Fails(m.all - 1), lockout).passes == to.passes;
    Takes(lockout, k, m, Fails(m.all - 1), next, 0);
  }

  lemma AllCanGo(lockout: Login.Lockout, k: nat)
    ensures Goable(Steps(lockout, k, false), AtTime(lockout.Duration()), lockout.threshold, lockout.Duration(), k)
  {
    var step, at, d := Steps(lockout, k, false), AtTime(lockout.Duration()), lockout.Duration();
    forall m: Mark | m.seen + 1 >= lockout.threshold && 0 < m.aged == m.all <= k ensures WritesOld(step, at, m) {
      OldCanWrite(lockout, k, m);
    }
    forall m: Mark | m.aged <= m.all < k && Open(m) ensures ReadsNew(step, at, m) {
      NewCanRead(lockout, k, m);
    }
    forall m: Mark | m.seen + 1 >= lockout.threshold && m.aged < m.all <= k ensures WritesNew(step, at, m, d) {
      NewCanWrite(lockout, k, m);
    }
  }

  lemma LeadsOn(step: Step, at: Mark -> State, from: Mark, first: seq<Event>, mid: Mark, rest: seq<Event>, to: Mark,
                n: nat, m: nat)
    requires Leads(step, at, from, first, mid, n) && Leads(step, at, mid, rest, to, m) && mid.x == from.x
    ensures Leads(step, at, from, first + rest, to, n + m)
  {
    GoesOn(step, at(from), first, at(mid), rest, at(to), n, m);
  }

  lemma {:induction false} FillUp(step: Step, at: Mark -> State, threshold: int, d: int, k: nat, m: Mark)
    returns (events: seq<Event>)
    requires Goable(step, at, threshold, d, k) && m.aged <= m.all <= k && Open(m)
    ensures Leads(step, at, m, events, m.(all := k), k - m.all)
    decreases k - m.all
  {
    if m.all == k {
      events := [];
    } else {
      assert ReadsNew(step, at, m);
      events := FillUp(step, at, threshold, d, k, NewRead(m));
      LeadsOn(step, at, m, [Begins(m.all, m.x)], NewRead(m), events, m.(all := k), 1, k - m.all - 1);
      events := [Begins(m.all, m.x)] + events;
    }
  }

  lemma {:induction false} WriteDown(step: Step, at: Mark -> State, threshold: int, d: int, k: nat, m: Mark)
    returns (events: seq<Event>, to: Mark)
    requires Goable(step, at, threshold, d, k) && m.seen + 1 >= threshold && m.aged <= m.all <= k
    ensures Leads(step, at, m, events, to, 0)
    ensures to.seen == m.seen && to.aged == to.all == m.aged && to.x == m.x
    decreases m.all
  {
    if m.all == m.aged {
      events, to := [], m;
    } else {
      var next := NewWritten(m, d);
      assert WritesNew(step, at, m, d);
      events, to := WriteDown(step, at, threshold, d, k, next);
      LeadsOn(step, at, m, [Fails(m.all - 1)], next, events, to, 0, 0);
      events := [Fails(m.all - 1)] + events;
    }
  }

  /** The old pass with the highest number writes, and the free places are filled. */
  lemma Reopen(step: Step, at: Mark -> State, threshold: int, d: int, k: nat, m: Mark) returns (events: seq<Event>)
    requires Goable(step, at, threshold, d, k) && m.seen + 1 >= threshold && 0 < m.aged == m.all <= k
    ensures Leads(step, at, m, events, OldWritten(m).(all := k), k - m.aged + 1)
  {
    assert WritesOld(step, at, m);
    events := FillUp(step, at, threshold, d, k, OldWritten(m));
    LeadsOn(step, at, m, [Fails(m.aged - 1)], OldWritten(m), events, OldWritten(m).(all := k), 0, k - m.aged + 1);
    events := [Fails(m.aged - 1)] + events;
  }

  /** And they write in turn. */
  lemma ReopenAndWrite(step: Step, at: Mark -> State, threshold: int, d: int, k: nat, m: Mark)
    returns (events: seq<Event>, to: Mark)
    requires Goable(step, at, threshold, d, k) && m.seen + 1 >= threshold && 0 < m.aged == m.all <= k
    ensures Leads(step, at, m, events, to, k - m.aged + 1)
    ensures to.seen == m.seen && to.aged == to.all == m.aged - 1 && to.x == m.x
  {
    var rest;
    events := Reopen(step, at, threshold, d, k, m);
    rest, to := WriteDown(step, at, threshold, d, k, OldWritten(m).(all := k));
    LeadsOn(step, at, m, events, OldWritten(m).(all := k), rest, to, k - m.aged + 1, 0);
    events := events + rest;
  }

  /** The mark at the end of a window. */
  function Closing(m: Mark, k: nat): Mark {
    Mark(m.seen + 1, Some(m.x), m.seen, 0, k, m.x)
  }

  /** A whole window. */
  lemma {:induction false} FullWindow(step: Step, at: Mark -> State, threshold: int, d: int, k: nat, m: Mark)
    returns (events: seq<Event>)
    requires Goable(step, at, threshold, d, k) && m.seen + 1 >= threshold && 0 < m.aged == m.all <= k
    ensures Leads(step, at, m, events, Closing(m, k), Reopened(k, m.aged))
    decreases m.aged
  {
    if m.aged == 1 {
      events := Reopen(step, at, threshold, d, k, m);
      assert Reopened(k, 1) == k;
    } else {
      var mid;
      events, mid := ReopenAndWrite(step, at, threshold, d, k, m);
      var rest := FullWindow(step, at, threshold, d, k, mid);
      assert Closing(mid, k) == Closing(m, k) && Reopened(k, m.aged) == k - m.aged + 1 + Reopened(k, mid.aged);
      LeadsOn(step, at, m, events, mid, rest, Closing(m, k), k - m.aged + 1, Reopened(k, mid.aged));
      events := events + rest;
    }
  }

  /** Where the next window begins. */
  function Following(m: Mark, k: nat, d: int): Mark {
    Mark(m.seen + 1, Some(m.x), m.seen + 1, k, k, m.x + d)
  }

  /** What one window leaves under way is old in the next. */
  lemma NextWindow(m: Mark, k: nat, d: int)
    ensures StateAt(Closing(m, k), d) == StateAt(Following(m, k, d), d)
  {
    assert StateAt(Closing(m, k), d).passes == StateAt(Following(m, k, d), d).passes;
  }

  /** What the first window leaves under way. */
  lemma FirstLeaves(top: nat, held: seq<nat>, d: int)
    requires Uniform(held, top)
    ensures Standing(top, held) == StateAt(Mark(top, None, top, |held|, |held|, d), d)
  {
    var m := Mark(top, None, top, |held|, |held|, d);
    forall p: Id ensures p in Standing(top, held).passes <==> p < |held|
                 ensures p < |held| ==> Standing(top, held).passes[p] == Pass(top, 0) {
      if p < |held| { assert SeenBy(held, p) == top; }
    }
    PassesAt(m, d);
    assert Standing(top, held).passes == StateAt(m, d).passes;
  }

  /** By events with reads until the window before at most the step leads from `start` to a mark where
      a window begins. */
  ghost predicate Reaches(step: Step, start: State, d: int, events: seq<Event>, to: Mark, n: nat, k: nat) {
    && Goes(step, start, events, StateAt(to, d), n)
    && Forward(events, 0) && Latest(events, |events|, 0) <= to.x - d && to.aged == to.all == k
  }

  lemma AnotherWindow(step: Step, start: State, threshold: int, d: int, k: nat, before: seq<Event>, m: Mark, n: nat)
    returns (events: seq<Event>, to: Mark, total: nat)
    requires Goable(step, AtTime(d), threshold, d, k)
    requires m.seen + 1 >= threshold && k >= 1 && d > 0
    requires Reaches(step, start, d, before, m, n, k)
    ensures Reaches(step, start, d, events, to, total, k)
    ensures to == Following(m, k, d) && total == n + PerWindow(k)
  {
    var rest := FullWindow(step, AtTime(d), threshold, d, k, m);
    NextWindow(m, k, d);
    events, to, total := before + rest, Following(m, k, d), n + PerWindow(k);
    GoesOn(step, start, before, StateAt(m, d), rest, StateAt(to, d), n, PerWindow(k));
    ThenAt(before, rest, 0, m.x);
  }

  function Added(x: int, each: int, n: nat): int
    decreases n
  {
    if n == 0 then x else Added(x + each, each, n - 1)
  }

  lemma {:induction false} AddedIs(x: int, each: int, n: nat)
    ensures Added(x, each, n) == x + n * each
    decreases n
  {
    if n > 0 {
      AddedIs(x + each, each, n - 1);
    }
  }

  lemma {:induction false} ManyWindows(
    step: Step, start: State, threshold: int, d: int, k: nat, before: seq<Event>, m: Mark, n: nat, durations: nat)
    returns (events: seq<Event>, to: Mark, total: nat)
    requires Goable(step, AtTime(d), threshold, d, k)
    requires m.seen + 1 >= threshold && k >= 1 && d > 0
    requires Reaches(step, start, d, before, m, n, k)
    ensures Reaches(step, start, d, events, to, total, k)
    ensures to.x == Added(m.x, d, durations) && total == Added(n, PerWindow(k), durations)
    decreases durations
  {
    if durations == 0 {
      events, to, total := before, m, n;
    } else {
      events, to, total := AnotherWindow(step, start, threshold, d, k, before, m, n);
      events, to, total := ManyWindows(step, start, threshold, d, k, events, to, total, durations - 1);
    }
  }

  lemma ForwardFromStart(events: seq<Event>)
    requires ReadsAt(events, 0)
    ensures Forward(events, 0) && Latest(events, |events|, 0) <= 0
  {
    ThenAt([], events, 0, 0);
    assert [] + events == events;
  }

  lemma FirstWindow(quiet: Step, free: Step, threshold: nat, d: int, k: nat)
    returns (events: seq<Event>, m: Mark, checks: nat)
    requires Holds(quiet, k) && Releases(quiet, k, threshold) && Allows(quiet, free) && threshold >= 1 && k >= 1
    ensures Reaches(free, State(0, None, map[]), d, events, m, checks, k)
    ensures m.seen + 1 == threshold && m.x == d && checks == Paths(threshold - 1, k) - 1 + k
  {
    var held, to;
    events, held, to, checks := WorstRun(quiet, threshold, k);
    m := Mark(threshold - 1, None, threshold - 1, |held|, |held|, d);
    GoesFreely(quiet, free, State(0, None, map[]), events, to, checks);
    FirstLeaves(threshold - 1, held, d);
    ForwardFromStart(events);
  }

  /** All windows, for steps with which everything can happen. */
  lemma Windows(quiet: Step, free: Step, threshold: nat, d: int, k: nat, durations: nat)
    returns (events: seq<Event>, to: Mark, checks: nat)
    requires Holds(quiet, k) && Releases(quiet, k, threshold) && Allows(quiet, free) && threshold >= 1 && k >= 1
    requires Goable(free, AtTime(d), threshold, d, k) && d > 0
    ensures Goes(free, State(0, None, map[]), events, StateAt(to, d), checks)
    ensures Forward(events, 0) && Latest(events, |events|, 0) <= durations * d
    ensures checks == Paths(threshold - 1, k) - 1 + k + durations * PerWindow(k)
  {
    var m, base;
    events, m, base := FirstWindow(quiet, free, threshold, d, k);
    AddedIs(m.x, d, durations);
    AddedIs(base, PerWindow(k), durations);
    events, to, checks := ManyWindows(free, State(0, None, map[]), threshold, d, k, events, m, base, durations);
  }

  lemma AllWindows(lockout: Login.Lockout, k: nat, durations: nat)
    returns (events: seq<Event>, to: Mark, checks: nat)
    requires lockout.threshold >= 1 && k >= 1 && lockout.durationSeconds > 0
    ensures Goes(Steps(lockout, k, false), State(0, None, map[]), events, StateAt(to, lockout.Duration()), checks)
    ensures Forward(events, 0) && Latest(events, |events|, 0) <= durations * lockout.Duration()
    ensures checks == Paths(lockout.threshold - 1, k) - 1 + k + durations * PerWindow(k)
  {
    QuietHolds(lockout, k);
    QuietReleases(lockout, k);
    QuietAllows(lockout, k);
    AllCanGo(lockout, k);
    events, to, checks := Windows(Steps(lockout, k, true), Steps(lockout, k, false), lockout.threshold,
                                  lockout.Duration(), k, durations);
  }

  /** For every threshold, every `k` and every number of durations some run makes exactly as many checks
      as the bound allows. */
  lemma OverlapGuessBoundAttained(lockout: Login.Lockout, k: nat, durations: nat)
    returns (trace: seq<State>, events: seq<Event>)
    requires lockout.threshold >= 1 && k >= 1 && lockout.durationSeconds > 0
    ensures IsRun(trace, events, lockout) && AtMost(trace, k) && trace[0] == State(0, None, map[])
    ensures Forward(events, 0) && Latest(events, |events|, 0) <= durations * lockout.Duration()
    ensures ChecksIn(trace, events, |events|) ==
            Paths(lockout.threshold - 1, k) - 1 + k + durations * (k * (k + 1) / 2)
  {
    var to, checks;
    events, to, checks := AllWindows(lockout, k, durations);
    trace := GoesIsRun(State(0, None, map[]), events, StateAt(to, lockout.Duration()), lockout, k, checks, false);
    PerWindowIs(k);
  }
}
