/** Sign-in passes that overlap: each reads an account's counter, checks a password against it, and
    only later writes the counter it has read plus one. */
module OverlappingLogins {
  import Sets
  import opened Wrappers
  import opened Tables
  import opened Login

  /** A pass between its read and its write. */
  datatype Pass = Pass(seen: nat, now: int)

  /** One account, and the passes under way that are checking a password against it. */
  datatype State = State(failedAttempts: nat, lockedUntil: Option<int>, passes: map<Id, Pass>)

  datatype Event = Begins(p: Id, now: int) | Fails(p: Id)

  predicate Enabled(state: State, event: Event) {
    match event
    case Begins(p, _) => p !in state.passes
    case Fails(p) => p in state.passes
  }

  /** The read finds no lock, so the password is checked. */
  predicate Evaluates(state: State, event: Event) {
    event.Begins? && !(state.lockedUntil.Some? && state.lockedUntil.value > event.now)
  }

  /** The write reaches the threshold. */
  predicate Locks(state: State, event: Event, lockout: Lockout)
    requires Enabled(state, event)
  {
    event.Fails? && state.passes[event.p].seen + 1 >= lockout.threshold
  }

  /** A failed pass writes what it has seen plus one, whatever has been written since. */
  function Next(state: State, event: Event, lockout: Lockout): State
    requires Enabled(state, event)
  {
    match event
    case Begins(p, now) =>
      if Evaluates(state, event) then state.(passes := state.passes[p := Pass(state.failedAttempts, now)]) else state
    case Fails(p) =>
      var pass := state.passes[p];
      State(pass.seen + 1,
            if Locks(state, event, lockout) then Some(pass.now + lockout.Duration()) else state.lockedUntil,
            state.passes - {p})
  }

  /** A pass that nothing overlaps does to the account what the sign-in loop does. */
  lemma AloneIsOnePass(state: State, p: Id, a: Account, attempt: Attempt, lockout: Lockout)
    requires p !in state.passes && a.failedAttempts == state.failedAttempts && a.lockedUntil == state.lockedUntil
    requires Candidate(a, attempt)
    ensures var begun := Next(state, Begins(p, attempt.now), lockout);
      var after := if Evaluates(state, Begins(p, attempt.now)) then Next(begun, Fails(p), lockout) else begun;
      && after.failedAttempts == Missed(a, attempt, lockout).failedAttempts
      && after.lockedUntil == Missed(a, attempt, lockout).lockedUntil
      && after.passes == state.passes
  {
    assert state.passes[p := Pass(state.failedAttempts, attempt.now)] - {p} == state.passes;
  }

  ghost predicate IsRun(trace: seq<State>, events: seq<Event>, lockout: Lockout) {
    && |trace| == |events| + 1
    && forall i :: 0 <= i < |events| ==>
         Enabled(trace[i], events[i]) && trace[i + 1] == Next(trace[i], events[i], lockout)
  }

  /** At most `k` passes overlap. */
  ghost predicate AtMost(trace: seq<State>, k: nat) {
    forall i :: 0 <= i < |trace| ==> |trace[i].passes| <= k
  }

  /** How many of the first `i` events checked the password. */
  ghost function ChecksIn(trace: seq<State>, events: seq<Event>, i: nat): nat
    requires i <= |events| <= |trace|
  {
    if i == 0 then 0 else ChecksIn(trace, events, i - 1) + if Evaluates(trace[i - 1], events[i - 1]) then 1 else 0
  }

  /** How many of the first `i` events locked the account. */
  ghost function LocksIn(trace: seq<State>, events: seq<Event>, i: nat, lockout: Lockout): nat
    requires IsRun(trace, events, lockout) && i <= |events|
  {
    if i == 0 then 0
    else LocksIn(trace, events, i - 1, lockout) + if Locks(trace[i - 1], events[i - 1], lockout) then 1 else 0
  }

  /** How many of the first `i` events wrote the counter without locking. */
  ghost function MissesIn(trace: seq<State>, events: seq<Event>, i: nat, lockout: Lockout): nat
    requires IsRun(trace, events, lockout) && i <= |events|
  {
    if i == 0 then 0
    else
      MissesIn(trace, events, i - 1, lockout) +
      if events[i - 1].Fails? && !Locks(trace[i - 1], events[i - 1], lockout) then 1 else 0
  }

  // The bound: n + r over r, written by its recurrence.

  function Paths(n: nat, r: nat): (p: nat)
    ensures p >= 1
  {
    if n == 0 || r == 0 then 1 else Paths(n - 1, r) + Paths(n, r - 1)
  }

  function Factorial(n: nat): (f: nat)
    ensures f >= 1
  {
    if n == 0 then 1 else n * Factorial(n - 1)
  }

  /** The closed form. */
  lemma {:induction false} PathsIsBinomial(n: nat, r: nat)
    ensures Paths(n, r) * (Factorial(n) * Factorial(r)) == Factorial(n + r)
  {
    if n > 0 && r > 0 {
      PathsIsBinomial(n - 1, r);
      PathsIsBinomial(n, r - 1);
      var a, b, p, q := Factorial(n - 1), Factorial(r - 1), Paths(n - 1, r), Paths(n, r - 1);
      Expand(n, r, a, b, p, q, Factorial(n + r - 1));
    }
  }

  lemma Expand(n: nat, r: nat, a: nat, b: nat, p: nat, q: nat, f: nat)
    requires p * (a * (r * b)) == f && q * ((n * a) * b) == f
    ensures (p + q) * ((n * a) * (r * b)) == (n + r) * f
  {
    calc {
      (p + q) * ((n * a) * (r * b));
      p * ((n * a) * (r * b)) + q * ((n * a) * (r * b));
      { assert p * ((n * a) * (r * b)) == n * (p * (a * (r * b))); }
      n * f + q * ((n * a) * (r * b));
      { assert q * ((n * a) * (r * b)) == r * (q * ((n * a) * b)); }
      n * f + r * f;
      (n + r) * f;
    }
  }

  lemma {:induction false} PathsGrow(n: nat, r: nat, r': nat)
    requires r <= r'
    ensures Paths(n, r) <= Paths(n, r')
    decreases r'
  {
    if r < r' {
      PathsGrow(n, r, r' - 1);
    }
  }

  // Every miss uses up some of a finite potential.

  /** The passes under way that will write at most `v + 1`. */
  function Low(state: State, v: nat): set<Id> {
    set p | p in state.passes && state.passes[p].seen <= v
  }

  /** How many passes fewer than `k` can still be under way having seen at most `v`: none fewer while
      the counter itself is that low. */
  function Gap(state: State, v: nat, k: nat): int {
    if state.failedAttempts <= v then 0 else k - |Low(state, v)|
  }

  function Term(n: nat, gap: int): nat {
    if gap <= 0 then 0 else Paths(n, gap - 1)
  }

  /** What the misses so far have used up, from counter value `v` on. */
  function Used(state: State, v: nat, k: nat, threshold: nat): nat
    decreases threshold - v
  {
    if v + 1 >= threshold then 0
    else Term(threshold - 1 - v, Gap(state, v, k)) + Used(state, v + 1, k, threshold)
  }

  lemma TermGrows(n: nat, gap: int, gap': int)
    requires gap <= gap'
    ensures Term(n, gap) <= Term(n, gap')
  {
    if gap > 0 {
      PathsGrow(n, gap - 1, gap' - 1);
    }
  }

  lemma LowGrows(state: State, u: nat, v: nat)
    requires u <= v
    ensures |Low(state, u)| <= |Low(state, v)| <= |state.passes|
  {
    Sets.SubsetSize(Low(state, u), Low(state, v));
    Sets.SubsetSize(Low(state, v), state.passes.Keys);
  }

  /** With gaps of at most `g` from `v` on, less than all paths are used up. */
  lemma {:induction false} UsedBelow(state: State, v: nat, k: nat, threshold: nat, g: nat)
    requires v < threshold && forall u :: v <= u ==> Gap(state, u, k) <= g
    ensures Used(state, v, k, threshold) <= Paths(threshold - 1 - v, g) - 1
    decreases threshold - v
  {
    if v + 1 < threshold {
      UsedBelow(state, v + 1, k, threshold, g);
      TermGrows(threshold - 1 - v, Gap(state, v, k), g);
    }
  }

  lemma GapWithin(state: State, v: nat, k: nat)
    ensures Gap(state, v, k) <= k
  {
  }

  lemma UsedInAll(state: State, k: nat, threshold: nat)
    requires threshold >= 1
    ensures Used(state, 0, k, threshold) <= Paths(threshold - 1, k) - 1
  {
    forall u: nat ensures Gap(state, u, k) <= k {
      GapWithin(state, u, k);
    }
    UsedBelow(state, 0, k, threshold, k);
  }

  /** Larger gaps below `s`, and `extra` more used up from `s` on, make `extra` more in all. */
  lemma {:induction false} UsedGrows(state: State, state': State, v: nat, s: nat, k: nat, threshold: nat, extra: nat)
    requires v <= s < threshold
    requires forall u :: v <= u < s ==> Gap(state, u, k) <= Gap(state', u, k)
    requires Used(state, s, k, threshold) + extra <= Used(state', s, k, threshold)
    ensures Used(state, v, k, threshold) + extra <= Used(state', v, k, threshold)
    decreases s - v
  {
    if v < s {
      UsedGrows(state, state', v + 1, s, k, threshold, extra);
      TermGrows(threshold - 1 - v, Gap(state, v, k), Gap(state', v, k));
    }
  }

  /** A read changes no gap. */
  lemma BeginKeepsGaps(state: State, event: Event, lockout: Lockout, v: nat, k: nat)
    requires Enabled(state, event) && event.Begins?
    ensures Gap(Next(state, event, lockout), v, k) == Gap(state, v, k)
  {
    if Evaluates(state, event) && state.failedAttempts > v {
      assert Low(Next(state, event, lockout), v) == Low(state, v);
    }
  }

  lemma {:induction false} BeginKeepsUsed(state: State, event: Event, lockout: Lockout, v: nat, k: nat, threshold: nat)
    requires Enabled(state, event) && event.Begins?
    ensures Used(Next(state, event, lockout), v, k, threshold) == Used(state, v, k, threshold)
    decreases threshold - v
  {
    if v + 1 < threshold {
      BeginKeepsGaps(state, event, lockout, v, k);
      BeginKeepsUsed(state, event, lockout, v + 1, k, threshold);
    }
  }

  /** A write of `s + 1` narrows no gap below `s`, and widens the one at `s`. */
  lemma FailGaps(state: State, event: Event, lockout: Lockout, v: nat, k: nat)
    requires Enabled(state, event) && event.Fails? && v <= state.passes[event.p].seen && |state.passes| <= k
    ensures Gap(Next(state, event, lockout), v, k) ==
            k - |Low(state, v)| + if v == state.passes[event.p].seen then 1 else 0
    ensures Gap(state, v, k) <= k - |Low(state, v)|
  {
    var s := state.passes[event.p].seen;
    LowGrows(state, v, v);
    if v == s {
      assert Low(Next(state, event, lockout), v) == Low(state, v) - {event.p};
    } else {
      assert Low(Next(state, event, lockout), v) == Low(state, v);
    }
  }

  /** A miss uses up at least one. */
  lemma MissUsesOne(state: State, event: Event, lockout: Lockout, k: nat)
    requires Enabled(state, event) && event.Fails? && !Locks(state, event, lockout)
    requires |state.passes| <= k && lockout.threshold >= 1
    ensures Used(state, 0, k, lockout.threshold) + 1 <= Used(Next(state, event, lockout), 0, k, lockout.threshold)
  {
    var state', s := Next(state, event, lockout), state.passes[event.p].seen;
    var g := k - |Low(state, s)|;
    LowGrows(state, s, s);
    forall u | s <= u ensures Gap(state, u, k) <= g {
      LowGrows(state, s, u);
    }
    UsedBelow(state, s, k, lockout.threshold, g);
    FailGaps(state, event, lockout, s, k);
    assert Used(state', s, k, lockout.threshold) >= Term(lockout.threshold - 1 - s, g + 1);
    forall u | 0 <= u < s ensures Gap(state, u, k) <= Gap(state', u, k) {
      FailGaps(state, event, lockout, u, k);
    }
    UsedGrows(state, state', 0, s, k, lockout.threshold, 1);
  }

  /** A write that locks gives nothing back. */
  lemma LockKeepsUsed(state: State, event: Event, lockout: Lockout, k: nat)
    requires Enabled(state, event) && Locks(state, event, lockout)
    requires |state.passes| <= k && lockout.threshold >= 1
    ensures Used(state, 0, k, lockout.threshold) <= Used(Next(state, event, lockout), 0, k, lockout.threshold)
  {
    var s := lockout.threshold - 1;
    forall u | 0 <= u < s ensures Gap(state, u, k) <= Gap(Next(state, event, lockout), u, k) {
      FailGaps(state, event, lockout, u, k);
    }
    UsedGrows(state, Next(state, event, lockout), 0, s, k, lockout.threshold, 0);
  }

  lemma {:induction false} MissesUseUp(trace: seq<State>, events: seq<Event>, lockout: Lockout, k: nat, i: nat)
    requires IsRun(trace, events, lockout) && AtMost(trace, k) && i <= |events| && lockout.threshold >= 1
    ensures MissesIn(trace, events, i, lockout) <= Used(trace[i], 0, k, lockout.threshold)
  {
    if i > 0 {
      MissesUseUp(trace, events, lockout, k, i - 1);
      var state, event := trace[i - 1], events[i - 1];
      if event.Begins? {
        BeginKeepsUsed(state, event, lockout, 0, k, lockout.threshold);
      } else if Locks(state, event, lockout) {
        LockKeepsUsed(state, event, lockout, k);
      } else {
        MissUsesOne(state, event, lockout, k);
      }
    }
  }

  /** Every check is still under way or has been written, with or without locking. */
  lemma {:induction false} ChecksAccountedFor(trace: seq<State>, events: seq<Event>, lockout: Lockout, i: nat)
    requires IsRun(trace, events, lockout) && trace[0].passes == map[] && i <= |events|
    ensures ChecksIn(trace, events, i) ==
            MissesIn(trace, events, i, lockout) + LocksIn(trace, events, i, lockout) + |trace[i].passes|
  {
    if i > 0 {
      ChecksAccountedFor(trace, events, lockout, i - 1);
      var state, event := trace[i - 1], events[i - 1];
      PassCount(state, event, lockout);
    }
  }

  lemma PassCount(state: State, event: Event, lockout: Lockout)
    requires Enabled(state, event)
    ensures |Next(state, event, lockout).passes| ==
            |state.passes| + (if Evaluates(state, event) then 1 else 0) - if event.Fails? then 1 else 0
  {
    if event.Fails? {
      assert (state.passes - {event.p}).Keys == state.passes.Keys - {event.p};
    }
  }

  /** The bound in `k`: with at most `k` passes overlapping, whatever their order and timing, an
      account that is never signed in to has its password checked at most
      Paths(THRESHOLD - 1, k) - 1 times, plus once per lock, plus the passes under way. */
  lemma OverlapBound(trace: seq<State>, events: seq<Event>, lockout: Lockout, k: nat, i: nat)
    requires IsRun(trace, events, lockout) && AtMost(trace, k) && trace[0].passes == map[]
    requires lockout.threshold >= 1 && i <= |events|
    ensures ChecksIn(trace, events, i) <=
            Paths(lockout.threshold - 1, k) - 1 + LocksIn(trace, events, i, lockout) + |trace[i].passes|
    ensures LocksIn(trace, events, i, lockout) == 0 ==>
      ChecksIn(trace, events, i) <= Paths(lockout.threshold - 1, k) - 1 + k
  {
    ChecksAccountedFor(trace, events, lockout, i);
    MissesUseUp(trace, events, lockout, k, i);
    UsedInAll(trace[i], k, lockout.threshold);
  }

  lemma {:induction false} PathsOne(n: nat)
    ensures Paths(n, 1) == n + 1
  {
    if n > 0 {
      PathsOne(n - 1);
    }
  }

  /** One pass at a time: the threshold, plus one check per lock. */
  lemma OneAtATimeBound(trace: seq<State>, events: seq<Event>, lockout: Lockout, i: nat)
    requires IsRun(trace, events, lockout) && AtMost(trace, 1) && trace[0].passes == map[]
    requires lockout.threshold >= 1 && i <= |events|
    ensures ChecksIn(trace, events, i) <= lockout.threshold + LocksIn(trace, events, i, lockout)
  {
    assert |trace[i].passes| <= 1;
    PathsOne(lockout.threshold - 1);
    assert Paths(lockout.threshold - 1, 1) == lockout.threshold;
    OverlapBound(trace, events, lockout, 1, i);
  }

  // The bound is attained: a stale pass, written late, sets the counter back.

  /** The counter, and passes under way that have seen the values in `held`. */
  function Standing(counter: nat, held: seq<nat>): State {
    State(counter, None, map p: Id | p < |held| :: Pass(held[p], 0))
  }

  /** A partial step, with the number of checks it makes. */
  type Step = (State, Event) -> Option<(State, nat)>

  /** The state the events lead to by such steps, and the number of checks. */
  function Final(step: Step, from: State, events: seq<Event>): Option<(State, nat)>
    decreases |events|
  {
    if events == [] then Some((from, 0))
    else
      match step(from, events[0])
      case None => None
      case Some((next, used)) =>
        match Final(step, next, events[1..])
        case None => None
        case Some((to, n)) => Some((to, used + n))
  }

  predicate Goes(step: Step, from: State, events: seq<Event>, to: State, n: nat) {
    Final(step, from, events) == Some((to, n))
  }

  lemma {:induction false} GoesOn(
    step: Step, from: State, first: seq<Event>, mid: State, rest: seq<Event>, to: State, n: nat, m: nat)
    requires Goes(step, from, first, mid, n) && Goes(step, mid, rest, to, m)
    ensures Goes(step, from, first + rest, to, n + m)
    decreases |first|
  {
    if first == [] {
      assert first + rest == rest;
    } else {
      var (next, used) := step(from, first[0]).value;
      GoesOn(step, next, first[1..], mid, rest, to, n - used, m);
      assert (first + rest)[0] == first[0] && (first + rest)[1..] == first[1..] + rest;
    }
  }

  /** An event at the first moment that does not lock. */
  predicate Unlocking(state: State, event: Event, lockout: Lockout)
    requires Enabled(state, event)
  {
    !Locks(state, event, lockout) && (event.Begins? ==> event.now == 0)
  }

  /** The steps after which at most `k` passes overlap; if quiet, only those that do not lock. */
  function Steps(lockout: Lockout, k: nat, quiet: bool): Step {
    (state, event) =>
      if Enabled(state, event) && |Next(state, event, lockout).passes| <= k &&
        (quiet ==> Unlocking(state, event, lockout))
      then Some((Next(state, event, lockout), if Evaluates(state, event) then 1 else 0))
      else None
  }

  lemma StandingCount(counter: nat, held: seq<nat>)
    ensures |Standing(counter, held).passes| == |held|
    decreases |held|
  {
    var keys := Standing(counter, held).passes.Keys;
    if held == [] {
      assert keys == {};
    } else {
      var rest := held[..|held| - 1];
      StandingCount(counter, rest);
      assert keys == Standing(counter, rest).passes.Keys + {|held| - 1};
    }
  }

  /** One more pass reads the counter and is held back. */
  ghost predicate HoldsOne(step: Step, counter: nat, held: seq<nat>) {
    Goes(step, Standing(counter, held), [Begins(|held|, 0)], Standing(counter, held + [counter]), 1)
  }

  /** The pass held last writes, and the counter is what it had seen plus one. */
  ghost predicate ReleasesOne(step: Step, counter: nat, held: seq<nat>, seen: nat) {
    Goes(step, Standing(counter, held + [seen]), [Fails(|held|)], Standing(seen + 1, held), 0)
  }

  ghost predicate Holds(step: Step, k: nat) {
    forall counter: nat, held: seq<nat> {:trigger HoldsOne(step, counter, held)} ::
      |held| < k ==> HoldsOne(step, counter, held)
  }

  ghost predicate Releases(step: Step, k: nat, threshold: nat) {
    forall counter: nat, held: seq<nat>, seen: nat {:trigger ReleasesOne(step, counter, held, seen)} ::
      |held| < k && seen + 1 < threshold ==> ReleasesOne(step, counter, held, seen)
  }

  lemma HoldStep(lockout: Lockout, k: nat, counter: nat, held: seq<nat>)
    requires |held| < k
    ensures Steps(lockout, k, true)(Standing(counter, held), Begins(|held|, 0)) ==
            Some((Standing(counter, held + [counter]), 1))
  {
    assert Next(Standing(counter, held), Begins(|held|, 0), lockout).passes ==
      Standing(counter, held + [counter]).passes;
    StandingCount(counter, held + [counter]);
  }

  lemma ReleaseStep(lockout: Lockout, k: nat, counter: nat, held: seq<nat>, seen: nat)
    requires |held| < k && seen + 1 < lockout.threshold
    ensures Steps(lockout, k, true)(Standing(counter, held + [seen]), Fails(|held|)) ==
      Some((Standing(seen + 1, held), 0))
  {
    assert Next(Standing(counter, held + [seen]), Fails(|held|), lockout).passes == Standing(seen + 1, held).passes;
    StandingCount(seen + 1, held);
  }

  lemma QuietHolds(lockout: Lockout, k: nat)
    ensures Holds(Steps(lockout, k, true), k)
  {
    forall counter: nat, held: seq<nat> | |held| < k
      ensures HoldsOne(Steps(lockout, k, true), counter, held)
    {
      HoldStep(lockout, k, counter, held);
      OneStep(Steps(lockout, k, true), Standing(counter, held), Begins(|held|, 0),
              Standing(counter, held + [counter]), 1);
    }
  }

  lemma QuietReleases(lockout: Lockout, k: nat)
    requires lockout.threshold >= 1
    ensures Releases(Steps(lockout, k, true), k, lockout.threshold)
  {
    forall counter: nat, held: seq<nat>, seen: nat | |held| < k && seen + 1 < lockout.threshold
      ensures ReleasesOne(Steps(lockout, k, true), counter, held, seen)
    {
      ReleaseStep(lockout, k, counter, held, seen);
      OneStep(Steps(lockout, k, true), Standing(counter, held + [seen]), Fails(|held|), Standing(seen + 1, held), 0);
    }
  }

  lemma OneStep(step: Step, from: State, event: Event, to: State, n: nat)
    requires step(from, event) == Some((to, n))
    ensures Goes(step, from, [event], to, n)
  {
    assert [event][1..] == [];
  }

  /** With `free` passes more, from counter value `c`: hold one back, make all misses the others can
      make, release it, and go on from `c + 1`. */
  lemma {:induction false} Explore(step: Step, c: nat, held: seq<nat>, free: nat, threshold: nat, k: nat)
    returns (events: seq<Event>)
    requires Holds(step, k) && Releases(step, k, threshold) && |held| + free <= k && c < threshold
    ensures Goes(step, Standing(c, held), events, Standing(if free == 0 then c else threshold - 1, held),
                 Paths(threshold - 1 - c, free) - 1)
    decreases threshold - c, free
  {
    if c + 1 == threshold || free == 0 {
      events := [];
    } else {
      var m, top := threshold - 1 - c, if free == 1 then c else threshold - 1;
      var start, holding, released := Standing(c, held), Standing(c, held + [c]), Standing(c + 1, held);
      assert HoldsOne(step, c, held) && ReleasesOne(step, top, held, c);
      var inner := Explore(step, c, held + [c], free - 1, threshold, k);
      GoesOn(step, start, [Begins(|held|, 0)], holding, inner, Standing(top, held + [c]), 1, Paths(m, free - 1) - 1);
      events := [Begins(|held|, 0)] + inner;
      GoesOn(step, start, events, Standing(top, held + [c]), [Fails(|held|)], released, Paths(m, free - 1), 0);
      events := events + [Fails(|held|)];
      var rest := Explore(step, c + 1, held, free, threshold, k);
      GoesOn(step, start, events, released, rest, Standing(threshold - 1, held),
             Paths(m, free - 1), Paths(m - 1, free) - 1);
      events := events + rest;
    }
  }

  function SeenBy(held: seq<nat>, p: nat): nat
    requires p < |held|
  {
    held[p]
  }

  /** All have seen the same value. */
  ghost predicate Uniform(held: seq<nat>, value: nat) {
    forall p: nat {:trigger SeenBy(held, p)} :: p < |held| ==> SeenBy(held, p) == value
  }

  lemma UniformMore(held: seq<nat>, value: nat)
    requires Uniform(held, value)
    ensures Uniform(held + [value], value)
  {
    forall p: nat | p < |held| + 1 ensures SeenBy(held + [value], p) == value {
      assert p < |held| ==> SeenBy(held, p) == value;
    }
  }

  lemma {:induction false} HoldAll(step: Step, counter: nat, held: seq<nat>, k: nat)
    returns (events: seq<Event>, all: seq<nat>)
    requires Holds(step, k) && |held| <= k && Uniform(held, counter)
    ensures Goes(step, Standing(counter, held), events, Standing(counter, all), k - |held|)
    ensures |all| == k && Uniform(all, counter)
    decreases k - |held|
  {
    if |held| == k {
      events, all := [], held;
    } else {
      assert HoldsOne(step, counter, held);
      UniformMore(held, counter);
      events, all := HoldAll(step, counter, held + [counter], k);
      GoesOn(step, Standing(counter, held), [Begins(|held|, 0)], Standing(counter, held + [counter]), events,
             Standing(counter, all), 1, k - |held| - 1);
      events := [Begins(|held|, 0)] + events;
    }
  }

  lemma {:induction false} CountsAfterFirst(trace: seq<State>, events: seq<Event>, lockout: Lockout, i: nat)
    requires IsRun(trace, events, lockout) && 0 < |events| && i < |events| && IsRun(trace[1..], events[1..], lockout)
    ensures ChecksIn(trace, events, i + 1) ==
            (if Evaluates(trace[0], events[0]) then 1 else 0) + ChecksIn(trace[1..], events[1..], i)
    ensures LocksIn(trace, events, i + 1, lockout) ==
            (if Locks(trace[0], events[0], lockout) then 1 else 0) + LocksIn(trace[1..], events[1..], i, lockout)
  {
    if i > 0 {
      CountsAfterFirst(trace, events, lockout, i - 1);
      assert trace[1..][i - 1] == trace[i] && events[1..][i - 1] == events[i];
    } else {
      assert ChecksIn(trace, events, 0) == 0 && LocksIn(trace, events, 0, lockout) == 0;
    }
  }

  lemma RunFrom(state: State, rest: seq<State>, events: seq<Event>, lockout: Lockout)
    requires events != [] && Enabled(state, events[0]) && IsRun(rest, events[1..], lockout)
    requires rest[0] == Next(state, events[0], lockout)
    ensures IsRun([state] + rest, events, lockout)
  {
    var trace := [state] + rest;
    forall i | 0 <= i < |events|
      ensures Enabled(trace[i], events[i]) && trace[i + 1] == Next(trace[i], events[i], lockout)
    {
      assert trace[i + 1] == rest[i];
      assert i > 0 ==> trace[i] == rest[i - 1] && events[i] == events[1..][i - 1];
    }
  }

  lemma OverlapFrom(state: State, rest: seq<State>, k: nat)
    requires AtMost(rest, k) && |state.passes| <= k
    ensures AtMost([state] + rest, k)
  {
    forall i | 0 <= i < |rest| + 1 ensures |([state] + rest)[i].passes| <= k {
      assert i > 0 ==> ([state] + rest)[i] == rest[i - 1];
    }
  }

  /** A run from `from` to `to` with `n` checks, at most `k` passes overlapping; if quiet, without a lock. */
  ghost predicate RunOf(
    trace: seq<State>, events: seq<Event>, from: State, to: State, lockout: Lockout, k: nat, n: nat, quiet: bool)
  {
    && IsRun(trace, events, lockout) && AtMost(trace, k) && trace[0] == from && trace[|events|] == to
    && ChecksIn(trace, events, |events|) == n && (quiet ==> LocksIn(trace, events, |events|, lockout) == 0)
  }

  lemma Prepend(state: State, rest: seq<State>, events: seq<Event>, to: State, lockout: Lockout, k: nat, n: nat,
                used: nat, quiet: bool)
    requires events != [] && Enabled(state, events[0]) && |state.passes| <= k
    requires quiet ==> !Locks(state, events[0], lockout)
    requires used == (if Evaluates(state, events[0]) then 1 else 0) && used <= n
    requires RunOf(rest, events[1..], Next(state, events[0], lockout), to, lockout, k, n - used, quiet)
    ensures RunOf([state] + rest, events, state, to, lockout, k, n, quiet)
  {
    RunFrom(state, rest, events, lockout);
    OverlapFrom(state, rest, k);
    assert ([state] + rest)[1..] == rest;
    CountsAfterFirst([state] + rest, events, lockout, |events| - 1);
  }

  lemma GoesFirst(state: State, events: seq<Event>, to: State, lockout: Lockout, k: nat, n: nat, quiet: bool)
    returns (used: nat)
    requires Goes(Steps(lockout, k, quiet), state, events, to, n) && events != []
    ensures Enabled(state, events[0]) && (quiet ==> Unlocking(state, events[0], lockout))
    ensures |Next(state, events[0], lockout).passes| <= k && used <= n
    ensures used == if Evaluates(state, events[0]) then 1 else 0
    ensures Goes(Steps(lockout, k, quiet), Next(state, events[0], lockout), events[1..], to, n - used)
  {
    assert Steps(lockout, k, quiet)(state, events[0]).Some?;
    used := if Evaluates(state, events[0]) then 1 else 0;
  }

  /** The states passed on the way make a run. */
  lemma {:induction false} GoesIsRun(
    state: State, events: seq<Event>, to: State, lockout: Lockout, k: nat, n: nat, quiet: bool)
    returns (trace: seq<State>)
    requires Goes(Steps(lockout, k, quiet), state, events, to, n) && |state.passes| <= k
    ensures RunOf(trace, events, state, to, lockout, k, n, quiet)
    decreases |events|
  {
    if events == [] {
      trace := [state];
    } else {
      var used := GoesFirst(state, events, to, lockout, k, n, quiet);
      var rest := GoesIsRun(Next(state, events[0], lockout), events[1..], to, lockout, k, n - used, quiet);
      Prepend(state, rest, events, to, lockout, k, n, used, quiet);
      trace := [state] + rest;
    }
  }

  /** For every threshold and every `k` some run makes exactly as many checks as the bound allows
      before any lock. */
  lemma OverlapBoundAttained(lockout: Lockout, k: nat) returns (trace: seq<State>, events: seq<Event>)
    requires lockout.threshold >= 1 && k >= 1
    ensures IsRun(trace, events, lockout) && AtMost(trace, k) && trace[0] == State(0, None, map[])
    ensures LocksIn(trace, events, |events|, lockout) == 0
    ensures ChecksIn(trace, events, |events|) == Paths(lockout.threshold - 1, k) - 1 + k
  {
    var to, checks;
    events, to, checks := QuietWorst(lockout, k);
    trace := GoesIsRun(State(0, None, map[]), events, to, lockout, k, checks, true);
  }

  lemma QuietWorst(lockout: Lockout, k: nat) returns (events: seq<Event>, to: State, checks: nat)
    requires lockout.threshold >= 1 && k >= 1
    ensures Goes(Steps(lockout, k, true), State(0, None, map[]), events, to, checks)
    ensures checks == Paths(lockout.threshold - 1, k) - 1 + k
  {
    QuietHolds(lockout, k);
    QuietReleases(lockout, k);
    var all;
    events, all, to, checks := WorstRun(Steps(lockout, k, true), lockout.threshold, k);
  }

  lemma WorstRun(step: Step, threshold: nat, k: nat)
    returns (events: seq<Event>, all: seq<nat>, to: State, checks: nat)
    requires Holds(step, k) && Releases(step, k, threshold) && threshold >= 1 && k >= 1
    ensures Goes(step, State(0, None, map[]), events, to, checks)
    ensures to == Standing(threshold - 1, all) && checks == Paths(threshold - 1, k) - 1 + k
    ensures |all| == k && Uniform(all, threshold - 1)
  {
    var top := threshold - 1;
    assert Standing(0, []) == State(0, None, map[]) by {
      assert Standing(0, []).passes == map[];
    }
    var misses := Explore(step, 0, [], k, threshold, k);
    var last;
    last, all := HoldAll(step, top, [], k);
    GoesOn(step, Standing(0, []), misses, Standing(top, []), last, Standing(top, all), Paths(top, k) - 1, k);
    events, to, checks := misses + last, Standing(top, all), Paths(top, k) - 1 + k;
  }

  /** At the default threshold of five, two overlapping passes can get 16 checks before the first lock,
      more than three times the threshold. */
  lemma TwoOverlapping(lockout: Lockout) returns (trace: seq<State>, events: seq<Event>)
    requires lockout.threshold == 5
    ensures IsRun(trace, events, lockout) && AtMost(trace, 2) && trace[0] == State(0, None, map[])
    ensures LocksIn(trace, events, |events|, lockout) == 0 && ChecksIn(trace, events, |events|) == 16
  {
    trace, events := OverlapBoundAttained(lockout, 2);
    PathsOne(4);
    PathsOne(3);
    PathsOne(2);
    PathsOne(1);
  }
}
