/** Sliding-window limits over logs of times, and the pruned histories that stand in for the logs. */
module SlidingWindow {
  import Sets

  /** Whether an entry still counts; `closed` says whether one exactly a window old does. */
  predicate Live(t: real, now: real, window: real, closed: bool) {
    now - t < window || (closed && now - t == window)
  }

  /** The entries that still count. */
  function Recent(log: seq<real>, now: real, window: real, closed: bool): (r: seq<real>)
    ensures |r| <= |log|
  {
    if log == [] then []
    else
      var before := Recent(log[..|log| - 1], now, window, closed);
      if Live(log[|log| - 1], now, window, closed) then before + [log[|log| - 1]] else before
  }

  /** The indices of the entries at most a window old, or less than that. */
  function Counting(log: seq<real>, now: real, window: real, closed: bool): set<nat> {
    set i: nat | i < |log| && if closed then now - log[i] <= window else now - log[i] < window
  }

  /** As many entries are kept as count by the clock. */
  lemma {:induction false} RecentCounts(log: seq<real>, now: real, window: real, closed: bool)
    ensures |Recent(log, now, window, closed)| == |Counting(log, now, window, closed)|
  {
    if log == [] {
      assert Counting(log, now, window, closed) == {};
    } else {
      var n := |log| - 1;
      var before, all := Counting(log[..n], now, window, closed), Counting(log, now, window, closed);
      RecentCounts(log[..n], now, window, closed);
      if n in all {
        assert all == before + {n};
      } else {
        assert all == before;
      }
    }
  }

  /** Each entry is kept as often as it was there if it counts by the clock, and otherwise not at all. */
  lemma {:induction false} RecentKeeps(log: seq<real>, now: real, window: real, closed: bool, t: real)
    ensures multiset(Recent(log, now, window, closed))[t] ==
      if now - t < window || (closed && now - t <= window) then multiset(log)[t] else 0
  {
    if log != [] {
      var n := |log| - 1;
      RecentKeeps(log[..n], now, window, closed, t);
      assert log == log[..n] + [log[n]];
    }
  }

  predicate Sorted(log: seq<real>) {
    forall i, j :: 0 <= i < j < |log| ==> log[i] <= log[j]
  }

  lemma RecentAppend(log: seq<real>, t: real, now: real, window: real, closed: bool)
    ensures Recent(log + [t], now, window, closed) ==
            Recent(log, now, window, closed) + if Live(t, now, window, closed) then [t] else []
  {
    assert (log + [t])[..|log|] == log;
  }

  /** What is pruned at one time never counts again. */
  lemma {:induction false} RecentOfRecent(log: seq<real>, before: real, now: real, window: real, closed: bool)
    requires before <= now
    ensures Recent(Recent(log, before, window, closed), now, window, closed) == Recent(log, now, window, closed)
  {
    if log != [] {
      var rest, t := log[..|log| - 1], log[|log| - 1];
      RecentOfRecent(rest, before, now, window, closed);
      if Live(t, before, window, closed) {
        RecentAppend(Recent(rest, before, window, closed), t, now, window, closed);
      }
    }
  }

  /** In a sorted log, everything after an entry that counts counts too. */
  lemma {:induction false} RecentFrom(log: seq<real>, i: nat, now: real, window: real, closed: bool)
    requires Sorted(log) && i < |log| && Live(log[i], now, window, closed)
    ensures |Recent(log, now, window, closed)| >= |log| - i
  {
    if i < |log| - 1 {
      RecentFrom(log[..|log| - 1], i, now, window, closed);
    }
  }

  /** Dropping old entries from the front, until the first one that counts. */
  function DropOld(log: seq<real>, now: real, window: real): seq<real> {
    if log != [] && now - log[0] > window then DropOld(log[1..], now, window) else log
  }

  lemma {:induction false} RecentKeepsAll(log: seq<real>, now: real, window: real, closed: bool)
    requires forall i :: 0 <= i < |log| ==> Live(log[i], now, window, closed)
    ensures Recent(log, now, window, closed) == log
  {
    if log != [] {
      RecentKeepsAll(log[..|log| - 1], now, window, closed);
    }
  }

  lemma {:induction false} RecentSkipsFirst(log: seq<real>, now: real, window: real, closed: bool)
    requires log != [] && !Live(log[0], now, window, closed)
    ensures Recent(log, now, window, closed) == Recent(log[1..], now, window, closed)
  {
    if |log| > 1 {
      RecentSkipsFirst(log[..|log| - 1], now, window, closed);
      assert log[..|log| - 1][1..] == log[1..][..|log| - 2];
    }
  }

  /** On a sorted log, dropping from the front is the same as filtering. */
  lemma {:induction false} DropOldIsRecent(log: seq<real>, now: real, window: real)
    requires Sorted(log)
    ensures DropOld(log, now, window) == Recent(log, now, window, true)
    decreases |log|
  {
    if log != [] && now - log[0] > window {
      DropOldIsRecent(log[1..], now, window);
      RecentSkipsFirst(log, now, window, true);
    } else {
      RecentKeepsAll(log, now, window, true);
    }
  }

  // A limiter with one history per key.

  /** One request for admission. */
  datatype Call = Call(key: string, limit: int, window: real, now: real)

  type Histories = map<string, seq<real>>

  function HistoryOf(histories: Histories, key: string): seq<real> {
    if key in histories then histories[key] else []
  }

  function Admits(log: seq<real>, call: Call, closed: bool): bool {
    |Recent(log, call.now, call.window, closed)| < call.limit
  }

  /** The histories after a call, with only the entries that still count kept for its key. */
  function Pruned(histories: Histories, call: Call, closed: bool): Histories {
    var recent := Recent(HistoryOf(histories, call.key), call.now, call.window, closed);
    histories[call.key := if |recent| < call.limit then recent + [call.now] else recent]
  }

  function HistoriesAfter(calls: seq<Call>, closed: bool): Histories {
    if calls == [] then map[]
    else Pruned(HistoriesAfter(calls[..|calls| - 1], closed), calls[|calls| - 1], closed)
  }

  /** The answer the limiter gives to the i-th call of a run. */
  predicate Reply(calls: seq<Call>, i: nat, closed: bool)
    requires i < |calls|
  {
    Admits(HistoryOf(HistoriesAfter(calls[..i], closed), calls[i].key), calls[i], closed)
  }

  /** The times at which calls for a key were admitted. */
  function Admissions(calls: seq<Call>, key: string, closed: bool): seq<real> {
    if calls == [] then []
    else
      var n := |calls| - 1;
      Admissions(calls[..n], key, closed) +
      if calls[n].key == key && Reply(calls, n, closed) then [calls[n].now] else []
  }

  /** The clock never goes back. */
  predicate Monotone(calls: seq<Call>) {
    forall i, j :: 0 <= i < j < |calls| ==> calls[i].now <= calls[j].now
  }

  /** All calls for the key use the same window. */
  predicate FixedWindow(calls: seq<Call>, key: string, window: real) {
    forall i :: 0 <= i < |calls| && calls[i].key == key ==> calls[i].window == window
  }

  /** From time `from` on, both logs have the same entries that count. */
  ghost predicate SameRecent(history: seq<real>, log: seq<real>, from: real, window: real, closed: bool) {
    forall now {:trigger Recent(history, now, window, closed)} ::
      from <= now ==> Recent(history, now, window, closed) == Recent(log, now, window, closed)
  }

  lemma SameRecentStep(
    history: seq<real>, log: seq<real>, from: real, now: real, window: real, closed: bool, admit: bool)
    requires SameRecent(history, log, from, window, closed) && from <= now
    ensures var recent := Recent(history, now, window, closed);
      SameRecent(if admit then recent + [now] else recent, if admit then log + [now] else log, now, window, closed)
  {
    var recent := Recent(history, now, window, closed);
    forall later | now <= later
      ensures Recent(recent, later, window, closed) == Recent(log, later, window, closed)
      ensures Recent(recent + [now], later, window, closed) == Recent(log + [now], later, window, closed)
    {
      RecentOfRecent(history, now, later, window, closed);
      RecentAppend(recent, now, later, window, closed);
      RecentAppend(log, now, later, window, closed);
      assert Recent(history, later, window, closed) == Recent(log, later, window, closed);
    }
  }

  /** What the last call adds to the history and to the admissions of a key. */
  lemma LastCall(calls: seq<Call>, key: string, closed: bool)
    requires calls != []
    ensures var n := |calls| - 1;
      var call, history := calls[n], HistoryOf(HistoriesAfter(calls[..n], closed), key);
      var recent := Recent(history, call.now, call.window, closed);
      var log, admit := Admissions(calls[..n], key, closed), Reply(calls, n, closed);
      && HistoryOf(HistoriesAfter(calls, closed), key) ==
           (if call.key != key then history else if admit then recent + [call.now] else recent)
      && Admissions(calls, key, closed) == if call.key == key && admit then log + [call.now] else log
  {
  }

  /** The pruned history of a key agrees with all its admissions on whatever still counts. */
  lemma {:induction false} HistoryAgrees(calls: seq<Call>, key: string, window: real, from: real, closed: bool)
    requires Monotone(calls) && FixedWindow(calls, key, window)
    requires forall i :: 0 <= i < |calls| ==> calls[i].now <= from
    ensures SameRecent(HistoryOf(HistoriesAfter(calls, closed), key), Admissions(calls, key, closed),
      from, window, closed)
  {
    if calls != [] {
      var n := |calls| - 1;
      var call := calls[n];
      var history := HistoryOf(HistoriesAfter(calls[..n], closed), key);
      if call.key == key {
        HistoryAgrees(calls[..n], key, window, call.now, closed);
        var log, recent := Admissions(calls[..n], key, closed), Recent(history, call.now, window, closed);
        var admit := Reply(calls, n, closed);
        SameRecentStep(history, log, call.now, call.now, window, closed, admit);
      } else {
        HistoryAgrees(calls[..n], key, window, from, closed);
      }
      LastCall(calls, key, closed);
    }
  }

  /** Refinement: the limiter answers every call as if it had kept the full log of admissions. It admits
      exactly if fewer than the limit were admitted less than a window ago; if closed, at most a window
      ago. */
  lemma PrunedRefinesFull(calls: seq<Call>, i: nat, closed: bool)
    requires Monotone(calls) && i < |calls| && FixedWindow(calls, calls[i].key, calls[i].window)
    ensures Reply(calls, i, closed) <==> Admits(Admissions(calls[..i], calls[i].key, closed), calls[i], closed)
    ensures var log, call := Admissions(calls[..i], calls[i].key, closed), calls[i];
      && (!closed ==> (Reply(calls, i, closed) <==>
            |set j: nat | j < |log| && call.now - log[j] < call.window| < call.limit))
      && (closed ==> (Reply(calls, i, closed) <==>
            |set j: nat | j < |log| && call.now - log[j] <= call.window| < call.limit))
  {
    HistoryAgrees(calls[..i], calls[i].key, calls[i].window, calls[i].now, closed);
    var log, call := Admissions(calls[..i], calls[i].key, closed), calls[i];
    RecentCounts(log, call.now, call.window, closed);
    if closed {
      assert Counting(log, call.now, call.window, true) ==
             set j: nat | j < |log| && call.now - log[j] <= call.window;
    } else {
      assert Counting(log, call.now, call.window, false) ==
             set j: nat | j < |log| && call.now - log[j] < call.window;
    }
  }

  const FIRST_CALLS := [Call("k", 1, 10.0, 0.0), Call("k", 1, 10.0, 20.0)]

  lemma FirstCallsHistory()
    ensures HistoryOf(HistoriesAfter(FIRST_CALLS[..1], false), "k") == [0.0]
    ensures HistoryOf(HistoriesAfter(FIRST_CALLS, false), "k") == [20.0]
  {
    var none: seq<Call> := [];
    assert FIRST_CALLS[..1][..0] == none;
    assert HistoryOf(HistoriesAfter(none, false), "k") == [];
    assert HistoryOf(HistoriesAfter(FIRST_CALLS[..1], false), "k") == [0.0];
    RecentAppend([], 0.0, 20.0, 10.0, false);
    assert [] + [0.0] == [0.0];
  }

  lemma FirstCallsAdmissions()
    ensures Admissions(FIRST_CALLS, "k", false) == [0.0, 20.0]
  {
    FirstCallsHistory();
    var none: seq<Call> := [];
    assert FIRST_CALLS[..1][..0] == none && FIRST_CALLS[..0] == none;
    assert Admissions(FIRST_CALLS[..1], "k", false) == [0.0];
  }

  /** The clock condition is needed: after a step back, what was pruned would have counted. */
  lemma ClockMustNotGoBack()
    ensures var calls := FIRST_CALLS + [Call("k", 2, 10.0, 5.0)];
      Reply(calls, 2, false) && !Admits(Admissions(calls[..2], "k", false), calls[2], false)
  {
    assert (FIRST_CALLS + [Call("k", 2, 10.0, 5.0)])[..2] == FIRST_CALLS;
    FirstCallsHistory();
    FirstCallsAdmissions();
    RecentAppend([], 20.0, 5.0, 10.0, false);
    assert [] + [20.0] == [20.0];
    RecentAppend([0.0], 20.0, 5.0, 10.0, false);
    RecentAppend([], 0.0, 5.0, 10.0, false);
    assert [] + [0.0] == [0.0] && [0.0] + [20.0] == [0.0, 20.0];
  }

  /** Entries `limit` apart in the log are at least a window apart; if closed, more than that. */
  ghost predicate Spaced(log: seq<real>, limit: int, window: real, closed: bool) {
    forall i, j :: 0 <= i <= j < |log| && j - i >= limit ==>
      log[i] + window <= log[j] && (closed ==> log[i] + window < log[j])
  }

  /** All entries lie at or before `now`. */
  predicate Past(log: seq<real>, now: real) {
    forall i :: 0 <= i < |log| ==> log[i] <= now
  }

  lemma SortedAppend(log: seq<real>, now: real)
    requires Sorted(log) && Past(log, now)
    ensures Sorted(log + [now]) && Past(log + [now], now)
  {
  }

  lemma {:induction false} AdmissionsSorted(calls: seq<Call>, key: string, closed: bool)
    requires Monotone(calls)
    ensures Sorted(Admissions(calls, key, closed))
    ensures calls != [] ==> Past(Admissions(calls, key, closed), calls[|calls| - 1].now)
  {
    if calls != [] {
      var n := |calls| - 1;
      var before := Admissions(calls[..n], key, closed);
      AdmissionsSorted(calls[..n], key, closed);
      assert Past(before, calls[n].now) by {
        if n > 0 {
          assert calls[..n][n - 1].now <= calls[n].now;
        }
      }
      SortedAppend(before, calls[n].now);
    }
  }

  /** If fewer than `limit` entries count, one more entry keeps the log spaced. */
  lemma SpacedAppend(log: seq<real>, now: real, limit: nat, window: real, closed: bool)
    requires Sorted(log) && Spaced(log, limit, window, closed) && limit > 0
    requires |Recent(log, now, window, closed)| < limit
    ensures Spaced(log + [now], limit, window, closed)
  {
    forall i | 0 <= i <= |log| - limit
      ensures log[i] + window <= now && (closed ==> log[i] + window < now)
    {
      if Live(log[i], now, window, closed) {
        RecentFrom(log, i, now, window, closed);
      }
    }
  }

  lemma {:induction false} AdmissionsSpaced(calls: seq<Call>, key: string, limit: nat, window: real, closed: bool)
    requires Monotone(calls) && FixedWindow(calls, key, window) && limit > 0
    requires forall i :: 0 <= i < |calls| && calls[i].key == key ==> calls[i].limit <= limit
    ensures Spaced(Admissions(calls, key, closed), limit, window, closed)
  {
    if calls != [] {
      var n := |calls| - 1;
      var call, before := calls[n], Admissions(calls[..n], key, closed);
      AdmissionsSpaced(calls[..n], key, limit, window, closed);
      AdmissionsSorted(calls[..n], key, closed);
      if call.key == key && Reply(calls, n, closed) {
        PrunedRefinesFull(calls, n, closed);
        SpacedAppend(before, call.now, limit, window, closed);
      }
    }
  }

  /** The indices of the entries in the window that starts at `lo`. */
  function Within(log: seq<real>, lo: real, window: real, closed: bool): set<nat> {
    set i: nat | i < |log| && lo <= log[i] && if closed then log[i] <= lo + window else log[i] < lo + window
  }

  function Range(lo: nat, hi: nat): (r: set<nat>)
    requires lo <= hi
    ensures |r| == hi - lo && forall i :: i in r <==> lo <= i < hi
    decreases hi - lo
  {
    if lo == hi then {} else {lo} + Range(lo + 1, hi)
  }

  ghost function Least(s: set<nat>): (m: nat)
    requires s != {}
    ensures m in s && forall i :: i in s ==> m <= i
  {
    var i :| i in s;
    if s == {i} then i
    else
      var rest := Least(s - {i});
      assert forall j :: j in s ==> j == i || j in s - {i};
      if i < rest then i else rest
  }

  lemma {:induction false} SpacedBound(log: seq<real>, limit: nat, lo: real, window: real, closed: bool)
    requires Sorted(log) && Spaced(log, limit, window, closed) && limit > 0
    ensures |Within(log, lo, window, closed)| <= limit
  {
    var s := Within(log, lo, window, closed);
    if s != {} {
      var first := Least(s);
      var end := if first + limit <= |log| then first + limit else |log|;
      forall i | i in s ensures i in Range(first, end) {
        assert log[i] - log[first] <= log[i] - lo;
      }
      Sets.SubsetSize(s, Range(first, end));
    }
  }

  lemma {:induction false} NothingAdmitted(calls: seq<Call>, key: string, closed: bool)
    requires forall i :: 0 <= i < |calls| && calls[i].key == key ==> calls[i].limit <= 0
    ensures Admissions(calls, key, closed) == []
  {
    if calls != [] {
      NothingAdmitted(calls[..|calls| - 1], key, closed);
    }
  }

  /** No window of the given length, open or closed at its end, ever holds more than `limit` admissions
      for a key. */
  lemma WindowBound(calls: seq<Call>, key: string, limit: nat, lo: real, window: real, closed: bool)
    requires Monotone(calls) && FixedWindow(calls, key, window)
    requires forall i :: 0 <= i < |calls| && calls[i].key == key ==> calls[i].limit <= limit
    ensures var log := Admissions(calls, key, closed);
      && |set i: nat | i < |log| && lo <= log[i] < lo + window| <= limit
      && (closed ==> |set i: nat | i < |log| && lo <= log[i] <= lo + window| <= limit)
  {
    var log := Admissions(calls, key, closed);
    assert Within(log, lo, window, false) == set i: nat | i < |log| && lo <= log[i] < lo + window;
    assert Within(log, lo, window, true) == set i: nat | i < |log| && lo <= log[i] <= lo + window;
    if limit == 0 {
      NothingAdmitted(calls, key, closed);
      assert Within(log, lo, window, false) == {} && Within(log, lo, window, true) == {};
    } else {
      AdmissionsSorted(calls, key, closed);
      AdmissionsSpaced(calls, key, limit, window, closed);
      SpacedBound(log, limit, lo, window, closed);
      Sets.SubsetSize(Within(log, lo, window, false), Within(log, lo, window, true));
    }
  }
}
