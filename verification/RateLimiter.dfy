/** The in-memory rate limiter: one pruned list of admission times per key. */
module RateLimiter {
  import opened SlidingWindow

  class RateLimiter {
    var requests: Histories

    constructor ()
      ensures requests == map[]
    {
      requests := map[];
    }

    /** Whether a request is admitted at time `now`; an entry exactly a window old no longer counts. */
    method IsAllowed(key: string, limit: int, window: real, now: real) returns (allowed: bool)
      modifies this
      ensures allowed <==> Admits(HistoryOf(old(requests), key), Call(key, limit, window, now), false)
      ensures requests == Pruned(old(requests), Call(key, limit, window, now), false)
      ensures var history := if key in old(requests) then old(requests)[key] else [];
        && (allowed <==> |set i: nat | i < |history| && now - history[i] < window| < limit)
        && key in requests && requests - {key} == old(requests) - {key}
        && forall t :: multiset(requests[key])[t] ==
             (if now - t < window then multiset(history)[t] else 0) + (if allowed && t == now then 1 else 0)
    {
      AdmitsIfFewer(requests, key, limit, window, now);
      var history := Recent(HistoryOf(requests, key), now, window, false);
      if history == [] {
        requests := requests - {key};
      }
      if |history| >= limit {
        requests := requests[key := history];
        return false;
      }
      history := history + [now];
      requests := requests[key := history];
      allowed := true;
    }
  }

  /** By the clock: a call is admitted if fewer than the limit are less than a window old, and those are
      the ones that are kept. */
  lemma AdmitsIfFewer(histories: Histories, key: string, limit: int, window: real, now: real)
    ensures var history := HistoryOf(histories, key); var call := Call(key, limit, window, now);
      && (Admits(history, call, false) <==> |set i: nat | i < |history| && now - history[i] < window| < limit)
      && forall t :: multiset(Pruned(histories, call, false)[key])[t] ==
           (if now - t < window then multiset(history)[t] else 0) +
           (if Admits(history, call, false) && t == now then 1 else 0)
  {
    var history := HistoryOf(histories, key);
    RecentCounts(history, now, window, false);
    assert Counting(history, now, window, false) == set i: nat | i < |history| && now - history[i] < window;
    forall t
      ensures multiset(Recent(history, now, window, false))[t] == if now - t < window then multiset(history)[t] else 0
    {
      RecentKeeps(history, now, window, false, t);
    }
  }

  /** Calls for one key leave every other key's history alone. */
  lemma OtherKeysUnaffected(histories: Histories, call: Call, key: string)
    requires key != call.key
    ensures HistoryOf(Pruned(histories, call, false), key) == HistoryOf(histories, key)
  {
  }

  /** A key, once seen, never leaves the table, even when its history has become empty. */
  lemma {:induction false} KeysNeverLeave(calls: seq<Call>, i: nat)
    requires i < |calls|
    ensures calls[i].key in HistoriesAfter(calls, false)
  {
    if i < |calls| - 1 {
      KeysNeverLeave(calls[..|calls| - 1], i);
    }
  }
}
