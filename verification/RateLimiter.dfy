/** The in-memory sliding-window rate limiter. Times are seconds as reals; the lock makes each
    call one atomic step. */
module RateLimiter {
  import opened Common

  /** IndexError is what reading the oldest of no timestamps raises; it takes a limit below 1. */
  datatype Decision = Allowed | TooMany(retryAfter: int) | IndexError

  function Purge(timestamps: seq<real>, start: real): (r: seq<real>)
    ensures |r| <= |timestamps|
  {
    if timestamps == [] then []
    else
      var n := |timestamps| - 1;
      var front := Purge(timestamps[..n], start);
      if timestamps[n] > start then front + [timestamps[n]] else front
  }

  /** Purging keeps exactly the times after `start`. */
  lemma {:induction false} PurgedMeans(times: seq<real>, start: real, t: real)
    ensures t in Purge(times, start) <==> t in times && t > start
  {
    if times != [] {
      var n := |times| - 1;
      PurgedMeans(times[..n], start, t);
      assert times == times[..n] + [times[n]];
    }
  }

  function RetryAfter(oldest: real, window: int, now: real): int {
    Max(1, (oldest + window as real - now).Floor)
  }

  /** Whether there is room for one more live timestamp. */
  predicate Admits(timestamps: seq<real>, limit: int, window: int, now: real) {
    |Purge(timestamps, now - window as real)| < limit
  }

  /** The decision, once expired timestamps are dropped. */
  function DecideOn(live: seq<real>, limit: int, window: int, now: real): Decision {
    if |live| < limit then Allowed
    else if live == [] then IndexError
    else TooMany(RetryAfter(live[0], window, now))
  }

  function Decide(timestamps: seq<real>, limit: int, window: int, now: real): Decision {
    DecideOn(Purge(timestamps, now - window as real), limit, window, now)
  }

  /** The list kept for a key after a call: expired timestamps dropped, an allowed call added. */
  function Kept(timestamps: seq<real>, limit: int, window: int, now: real): seq<real> {
    var live := Purge(timestamps, now - window as real);
    if |live| < limit then live + [now] else live
  }

  class Limiter {
    var records: map<string, seq<real>>

    constructor ()
      ensures records == map[]
    {
      records := map[];
    }

    function Of(key: string): seq<real>
      reads this
    {
      if key in records then records[key] else []
    }

    method CheckRateLimit(key: string, limit: int, window: int, now: real) returns (d: Decision)
      modifies this
      ensures d == Decide(old(Of(key)), limit, window, now)
      ensures Of(key) == Kept(old(Of(key)), limit, window, now)
      ensures forall other :: other != key ==> Of(other) == old(Of(other))
    {
      var start := now - window as real;
      var timestamps := [];
      var recorded := Of(key);
      for k := 0 to |recorded|
        invariant timestamps == Purge(recorded[..k], start)
      {
        assert recorded[..k + 1][..k] == recorded[..k];
        if recorded[k] > start { timestamps := timestamps + [recorded[k]]; }
      }
      assert recorded[..|recorded|] == recorded;
      records := records[key := timestamps];
      if |timestamps| >= limit {
        if timestamps == [] { return IndexError; }
        var oldest := timestamps[0];
        var retryAfter := (oldest + window as real - now).Floor;
        return TooMany(if retryAfter < 1 then 1 else retryAfter);
      }
      records := records[key := records[key] + [now]];
      return Allowed;
    }

    method Reset(key: Option<string>)
      modifies this
      ensures key.None? ==> records == map[]
      ensures key.Some? ==> Of(key.value) == []
      ensures key.Some? ==> forall other :: other != key.value ==> Of(other) == old(Of(other))
    {
      if key.Some? {
        records := records - {key.value};
      } else {
        records := map[];
      }
    }
  }

  // ---------- runs on one key ----------

  ghost predicate Ordered(times: seq<real>) { forall i, j :: 0 <= i < j < |times| ==> times[i] <= times[j] }

  /** The kept list after a sequence of calls. */
  function KeptAfter(calls: seq<real>, limit: int, window: int): seq<real> {
    if calls == [] then []
    else
      var n := |calls| - 1;
      Kept(KeptAfter(calls[..n], limit, window), limit, window, calls[n])
  }

  /** The history after one more call: an allowed one is added, nothing is ever dropped. */
  function Recorded(history: seq<real>, limit: int, window: int, now: real): seq<real> {
    if Admits(history, limit, window, now) then history + [now] else history
  }

  /** All allowed calls, none ever dropped, each decided on the full history before it. */
  function History(calls: seq<real>, limit: int, window: int): seq<real> {
    if calls == [] then []
    else
      var n := |calls| - 1;
      var before := History(calls[..n], limit, window);
      Recorded(before, limit, window, calls[n])
  }

  lemma {:induction false} PurgeTwice(times: seq<real>, a: real, b: real)
    requires a <= b
    ensures Purge(Purge(times, a), b) == Purge(times, b)
  {
    if times != [] {
      var n := |times| - 1;
      PurgeTwice(times[..n], a, b);
      if times[n] > a {
        assert (Purge(times[..n], a) + [times[n]])[..|Purge(times[..n], a)|] == Purge(times[..n], a);
      }
    }
  }

  lemma PurgeOfAppend(times: seq<real>, t: real, start: real)
    ensures Purge(times + [t], start) == Purge(times, start) + (if t > start then [t] else [])
  {
    assert (times + [t])[..|times|] == times;
  }

  /** What a call adds to the times after `start`: its own, if it is allowed and after `start`. */
  function Added(live: seq<real>, limit: int, now: real, start: real): seq<real> {
    if |live| < limit && now > start then [now] else []
  }

  lemma PurgeOfKept(kept: seq<real>, limit: int, window: int, now: real, start: real)
    requires start >= now - window as real
    ensures Purge(Kept(kept, limit, window, now), start)
         == Purge(kept, start) + Added(Purge(kept, now - window as real), limit, now, start)
  {
    PurgeTwice(kept, now - window as real, start);
    PurgeOfAppend(Purge(kept, now - window as real), now, start);
  }

  lemma PurgeOfRecorded(history: seq<real>, limit: int, window: int, now: real, start: real)
    ensures Purge(Recorded(history, limit, window, now), start)
         == Purge(history, start) + Added(Purge(history, now - window as real), limit, now, start)
  {
    PurgeOfAppend(history, now, start);
  }

  lemma SameLiveLater(a: seq<real>, b: seq<real>, start: real, later: real)
    requires Purge(a, start) == Purge(b, start) && later >= start
    ensures Purge(a, later) == Purge(b, later)
  {
    PurgeTwice(a, start, later);
    PurgeTwice(b, start, later);
  }

  /** One more call, decided on two lists that agree on the live timestamps. */
  lemma AgreeAfterCall(kept: seq<real>, history: seq<real>, limit: int, window: int, now: real, start: real)
    requires Purge(kept, now - window as real) == Purge(history, now - window as real)
    requires start >= now - window as real
    ensures Purge(Kept(kept, limit, window, now), start) == Purge(Recorded(history, limit, window, now), start)
  {
    SameLiveLater(kept, history, now - window as real, start);
    PurgeOfKept(kept, limit, window, now, start);
    PurgeOfRecorded(history, limit, window, now, start);
  }

  /** The list that is kept and the full history agree on everything a later call looks at. */
  lemma {:induction false} KeptAgreesWithHistory(calls: seq<real>, limit: int, window: int, start: real)
    requires Ordered(calls)
    requires calls != [] ==> start >= calls[|calls| - 1] - window as real
    ensures Purge(KeptAfter(calls, limit, window), start) == Purge(History(calls, limit, window), start)
  {
    if calls != [] {
      var n := |calls| - 1;
      KeptAgreesWithHistory(calls[..n], limit, window, calls[n] - window as real);
      AgreeAfterCall(KeptAfter(calls[..n], limit, window), History(calls[..n], limit, window),
                     limit, window, calls[n], start);
    }
  }

  lemma SameLiveSameDecision(a: seq<real>, b: seq<real>, limit: int, window: int, now: real)
    requires Purge(a, now - window as real) == Purge(b, now - window as real)
    ensures Decide(a, limit, window, now) == Decide(b, limit, window, now)
  {
  }

  /** On a non-decreasing clock every decision taken on the purged list is the one the full
      history of allowed calls would give. */
  lemma DecidesAsFullHistory(calls: seq<real>, limit: int, window: int, now: real)
    requires Ordered(calls) && (calls != [] ==> calls[|calls| - 1] <= now)
    ensures Decide(KeptAfter(calls, limit, window), limit, window, now)
         == Decide(History(calls, limit, window), limit, window, now)
  {
    KeptAgreesWithHistory(calls, limit, window, now - window as real);
    SameLiveSameDecision(KeptAfter(calls, limit, window), History(calls, limit, window), limit, window, now);
  }

  /** How many times are later than `start`. */
  function CountAfter(times: seq<real>, start: real): nat {
    if times == [] then 0
    else CountAfter(times[..|times| - 1], start) + (if times[|times| - 1] > start then 1 else 0)
  }

  lemma {:induction false} PurgeCounts(times: seq<real>, start: real)
    ensures |Purge(times, start)| == CountAfter(times, start)
  {
    if times != [] { PurgeCounts(times[..|times| - 1], start); }
  }

  /** After any run on a non-decreasing clock a call is allowed if and only if fewer than the limit
      were allowed within the window before it; a refusal announces at least a second. */
  lemma CallIsAllowedWhen(calls: seq<real>, limit: int, window: int, now: real)
    requires Ordered(calls) && (calls != [] ==> calls[|calls| - 1] <= now)
    ensures var d := Decide(KeptAfter(calls, limit, window), limit, window, now);
            && (d == Allowed <==> CountAfter(History(calls, limit, window), now - window as real) < limit)
            && (limit >= 1 ==> d != IndexError)
            && (d.TooMany? ==> d.retryAfter >= 1)
  {
    DecidesAsFullHistory(calls, limit, window, now);
    PurgeCounts(History(calls, limit, window), now - window as real);
  }

  // ---------- no window holds more than the limit ----------

  /** Every time in the history is the time of a call. */
  lemma {:induction false} HistoryAreCalls(calls: seq<real>, limit: int, window: int, t: real)
    requires t in History(calls, limit, window)
    ensures t in calls
  {
    var n := |calls| - 1;
    if t in History(calls[..n], limit, window) {
      HistoryAreCalls(calls[..n], limit, window, t);
    }
  }

  lemma {:induction false} HistoryIsOrdered(calls: seq<real>, limit: int, window: int)
    requires Ordered(calls)
    ensures Ordered(History(calls, limit, window))
  {
    if calls != [] {
      var n := |calls| - 1;
      var before := History(calls[..n], limit, window);
      HistoryIsOrdered(calls[..n], limit, window);
      forall t | t in before
        ensures t <= calls[n]
      {
        HistoryAreCalls(calls[..n], limit, window, t);
        LastCallIsLatest(calls, t);
      }
      OrderedAppend(before, calls[n]);
    }
  }

  /** In an ordered list the live timestamps are the last ones. */
  lemma {:induction false} LiveAreLast(times: seq<real>, start: real, k: nat)
    requires Ordered(times) && k < |times| && times[k] > start
    ensures |Purge(times, start)| >= |times| - k
  {
    var n := |times| - 1;
    assert times[n] > start;
    if k < n {
      LiveAreLast(times[..n], start, k);
    }
  }

  /** Any limit + 1 consecutive allowed calls span at least the window. */
  lemma {:induction false} AllowedCallsAreSpaced(calls: seq<real>, limit: int, window: int, i: nat)
    requires Ordered(calls) && limit >= 1
    requires i + limit < |History(calls, limit, window)|
    ensures var h := History(calls, limit, window);
            h[i + limit] - h[i] >= window as real
  {
    var n := |calls| - 1;
    var before, h := History(calls[..n], limit, window), History(calls, limit, window);
    if i + limit < |before| {
      AllowedCallsAreSpaced(calls[..n], limit, window, i);
    } else {
      HistoryIsOrdered(calls[..n], limit, window);
      if before[i] > calls[n] - window as real {
        LiveAreLast(before, calls[n] - window as real, i);
      }
    }
  }

  /** The calls at or after `start` and before `end`. */
  function CountIn(times: seq<real>, start: real, end: real): nat {
    if times == [] then 0
    else
      var n := |times| - 1;
      CountIn(times[..n], start, end) + (if start <= times[n] < end then 1 else 0)
  }

  lemma {:induction false} CountFromLate(times: seq<real>, start: real, end: real, k: nat)
    requires Ordered(times) && k <= |times| && (k > 0 ==> times[k - 1] < start)
    ensures CountIn(times, start, end) <= |times| - k
  {
    if times != [] {
      var n := |times| - 1;
      if k == |times| {
        CountFromLate(times[..n], start, end, n);
        if n > 0 {
          assert times[n - 1] <= times[n];
        }
      } else {
        CountFromLate(times[..n], start, end, k);
      }
    }
  }

  ghost predicate Spaced(times: seq<real>, limit: nat, gap: real) {
    forall i :: 0 <= i && i + limit < |times| ==> times[i + limit] - times[i] >= gap
  }

  lemma {:induction false} SpacedTimesFitWindow(times: seq<real>, limit: nat, gap: real, start: real)
    requires Ordered(times) && limit >= 1 && Spaced(times, limit, gap)
    ensures CountIn(times, start, start + gap) <= limit
  {
    if |times| <= limit {
      CountFromLate(times, start, start + gap, 0);
    } else {
      var n := |times| - 1;
      var k := n - limit;
      assert times[k + limit] - times[k] >= gap;
      if times[n] < start + gap {
        CountFromLate(times, start, start + gap, k + 1);
      } else {
        SpacedTimesFitWindow(times[..n], limit, gap, start);
      }
    }
  }

  /** At most `limit` calls are allowed in any interval of the window's length. */
  lemma WindowHoldsAtMostLimit(calls: seq<real>, limit: int, window: int, start: real)
    requires Ordered(calls) && limit >= 1
    ensures CountIn(History(calls, limit, window), start, start + window as real) <= limit
  {
    var h := History(calls, limit, window);
    HistoryIsOrdered(calls, limit, window);
    forall i | 0 <= i && i + limit < |h|
      ensures h[i + limit] - h[i] >= window as real
    {
      AllowedCallsAreSpaced(calls, limit, window, i);
    }
    SpacedTimesFitWindow(h, limit, window as real, start);
  }

  // ---------- retrying ----------

  lemma {:induction false} KeptWithinLimit(calls: seq<real>, limit: int, window: int)
    requires limit >= 1
    ensures |KeptAfter(calls, limit, window)| <= limit
  {
    if calls != [] {
      KeptWithinLimit(calls[..|calls| - 1], limit, window);
    }
  }

  lemma {:induction false} OldestExpires(times: seq<real>, start: real)
    requires times != [] && times[0] <= start
    ensures |Purge(times, start)| < |times|
  {
    if |times| > 1 {
      OldestExpires(times[..|times| - 1], start);
    }
  }

  lemma KeptAfterOneMore(calls: seq<real>, limit: int, window: int, now: real)
    ensures KeptAfter(calls + [now], limit, window) == Kept(KeptAfter(calls, limit, window), limit, window, now)
  {
    assert (calls + [now])[..|calls|] == calls;
  }

  lemma RetryLater(kept: seq<real>, limit: int, window: int, now: real, later: real)
    requires |kept| <= limit && limit >= 1
    requires Decide(kept, limit, window, now).TooMany?
    requires later >= now + Decide(kept, limit, window, now).retryAfter as real + 1.0
    ensures Decide(Kept(kept, limit, window, now), limit, window, later).Allowed?
  {
    var live := Purge(kept, now - window as real);
    assert live[0] <= later - window as real;
    OldestExpires(live, later - window as real);
  }

  /** A refused caller that is alone on its key is allowed again once more than `retry_after`
      seconds, rounded up, have passed. */
  lemma RetryAfterOneMoreSecond(calls: seq<real>, limit: int, window: int, now: real, later: real)
    requires limit >= 1
    requires Decide(KeptAfter(calls, limit, window), limit, window, now).TooMany?
    requires later >= now + Decide(KeptAfter(calls, limit, window), limit, window, now).retryAfter as real + 1.0
    ensures Decide(KeptAfter(calls + [now], limit, window), limit, window, later).Allowed?
  {
    KeptWithinLimit(calls, limit, window);
    KeptAfterOneMore(calls, limit, window, now);
    RetryLater(KeptAfter(calls, limit, window), limit, window, now, later);
  }

  lemma {:induction false} NothingExpires(times: seq<real>, start: real)
    requires forall i :: 0 <= i < |times| ==> times[i] > start
    ensures Purge(times, start) == times
  {
    if times != [] {
      var n := |times| - 1;
      NothingExpires(times[..n], start);
      assert times == times[..n] + [times[n]];
    }
  }

  lemma OrderedAppend(times: seq<real>, t: real)
    requires Ordered(times) && forall x :: x in times ==> x <= t
    ensures Ordered(times + [t])
  {
    assert forall i :: 0 <= i < |times| ==> times[i] in times;
  }

  lemma {:induction false} PurgeKeepsOrder(times: seq<real>, start: real)
    requires Ordered(times)
    ensures Ordered(Purge(times, start))
  {
    if times != [] {
      var n := |times| - 1;
      PurgeKeepsOrder(times[..n], start);
      forall t | t in Purge(times[..n], start)
        ensures t <= times[n]
      {
        PurgedMeans(times[..n], start, t);
        assert t in times[..n];
        var j :| 0 <= j < n && times[..n][j] == t;
        assert times[j] <= times[n];
      }
      OrderedAppend(Purge(times[..n], start), times[n]);
    }
  }

  lemma KeptComesFrom(before: seq<real>, limit: int, window: int, now: real, t: real)
    requires t in Kept(before, limit, window, now)
    ensures t in before || t == now
  {
    PurgedMeans(before, now - window as real, t);
  }

  /** Every kept time is the time of a call. */
  lemma {:induction false} KeptAreCalls(calls: seq<real>, limit: int, window: int, t: real)
    requires t in KeptAfter(calls, limit, window)
    ensures t in calls
  {
    var n := |calls| - 1;
    KeptComesFrom(KeptAfter(calls[..n], limit, window), limit, window, calls[n], t);
    if t != calls[n] {
      KeptAreCalls(calls[..n], limit, window, t);
    }
  }

  lemma LastCallIsLatest(calls: seq<real>, t: real)
    requires Ordered(calls) && t in calls
    ensures t <= calls[|calls| - 1]
  {
    var j :| 0 <= j < |calls| && calls[j] == t;
    assert calls[j] <= calls[|calls| - 1];
  }

  lemma KeptKeepsOrder(before: seq<real>, limit: int, window: int, now: real)
    requires Ordered(before) && forall t :: t in before ==> t <= now
    ensures Ordered(Kept(before, limit, window, now))
  {
    var live := Purge(before, now - window as real);
    PurgeKeepsOrder(before, now - window as real);
    forall t | t in live
      ensures t <= now
    {
      PurgedMeans(before, now - window as real, t);
    }
    OrderedAppend(live, now);
  }

  lemma {:induction false} KeptIsOrdered(calls: seq<real>, limit: int, window: int)
    requires Ordered(calls)
    ensures Ordered(KeptAfter(calls, limit, window))
  {
    if calls != [] {
      var n := |calls| - 1;
      var before := KeptAfter(calls[..n], limit, window);
      KeptIsOrdered(calls[..n], limit, window);
      forall t | t in before
        ensures t <= calls[n]
      {
        KeptAreCalls(calls[..n], limit, window, t);
        LastCallIsLatest(calls, t);
      }
      KeptKeepsOrder(before, limit, window, calls[n]);
    }
  }

  /** A wait of at most a second, or of whole seconds, loses nothing when it is truncated. */
  predicate TruncationHarmless(remaining: real) { remaining <= 1.0 || remaining == remaining.Floor as real }

  /** Truncating a positive wait to whole seconds, but at least one. */
  lemma TruncatedWait(remaining: real)
    requires remaining > 0.0
    ensures remaining <= Max(1, remaining.Floor) as real <==> TruncationHarmless(remaining)
  {
  }

  /** A full list lets the next call in exactly when its oldest entry has expired. */
  lemma FullListAdmitsWhenOldestExpired(live: seq<real>, limit: int, window: int, now: real)
    requires Ordered(live) && |live| == limit && limit >= 1
    ensures Decide(live, limit, window, now).Allowed? <==> live[0] <= now - window as real
  {
    if live[0] <= now - window as real {
      OldestExpires(live, now - window as real);
    } else {
      assert forall i :: 0 <= i < |live| ==> live[0] <= live[i];
      NothingExpires(live, now - window as real);
    }
  }

  lemma RetryOnFullList(live: seq<real>, limit: int, window: int, now: real)
    requires Ordered(live) && |live| == limit && limit >= 1 && live[0] > now - window as real
    ensures Decide(live, limit, window, now + RetryAfter(live[0], window, now) as real).Allowed?
       <==> TruncationHarmless(live[0] + window as real - now)
  {
    var r := RetryAfter(live[0], window, now);
    FullListAdmitsWhenOldestExpired(live, limit, window, now + r as real);
    TruncatedWait(live[0] + window as real - now);
  }

  /** How long until the oldest live call leaves the window. */
  function Remaining(kept: seq<real>, window: int, now: real): real {
    var live := Purge(kept, now - window as real);
    if live == [] then 0.0 else live[0] + window as real - now
  }

  /** What every run keeps: an ordered list within the limit. */
  ghost predicate Proper(kept: seq<real>, limit: int) { Ordered(kept) && |kept| <= limit }

  lemma KeptIsProper(calls: seq<real>, limit: int, window: int)
    requires Ordered(calls) && limit >= 1
    ensures Proper(KeptAfter(calls, limit, window), limit)
  {
    KeptIsOrdered(calls, limit, window);
    KeptWithinLimit(calls, limit, window);
  }

  /** A refusal finds the list full of live calls, and keeps just those. */
  lemma FullWhenRefused(kept: seq<real>, limit: int, window: int, now: real, r: int)
    requires Proper(kept, limit) && Decide(kept, limit, window, now) == TooMany(r)
    ensures var live := Kept(kept, limit, window, now);
            && Ordered(live) && |live| == limit && limit >= 1 && live[0] > now - window as real
            && r == RetryAfter(live[0], window, now)
            && Remaining(kept, window, now) == live[0] + window as real - now
  {
    var live := Purge(kept, now - window as real);
    PurgeKeepsOrder(kept, now - window as real);
    PurgedMeans(kept, now - window as real, live[0]);
  }

  lemma RetryWhenFull(kept: seq<real>, limit: int, window: int, now: real, r: int)
    requires Proper(kept, limit) && limit >= 1
    requires Decide(kept, limit, window, now) == TooMany(r)
    ensures Decide(Kept(kept, limit, window, now), limit, window, now + r as real).Allowed?
       <==> TruncationHarmless(Remaining(kept, window, now))
  {
    FullWhenRefused(kept, limit, window, now, r);
    RetryOnFullList(Kept(kept, limit, window, now), limit, window, now);
  }

  /** After any run on a non-decreasing clock, waiting the announced `r` seconds is enough for a
      refused caller alone on its key exactly when truncating the wait lost nothing. */
  lemma RetryAfterIsEnoughWhen(calls: seq<real>, limit: int, window: int, now: real, r: int)
    requires Ordered(calls) && limit >= 1
    requires Decide(KeptAfter(calls, limit, window), limit, window, now) == TooMany(r)
    ensures Decide(KeptAfter(calls + [now], limit, window), limit, window, now + r as real).Allowed?
       <==> TruncationHarmless(Remaining(KeptAfter(calls, limit, window), window, now))
  {
    KeptIsProper(calls, limit, window);
    KeptAfterOneMore(calls, limit, window, now);
    RetryWhenFull(KeptAfter(calls, limit, window), limit, window, now, r);
  }

  /** With one call per minute, a call at 0 s and a refusal at 0.5 s announces 59 seconds, but the
      retry at 59.5 s is refused again. */
  lemma RetryAfterCanBeTooShort()
    ensures Decide(KeptAfter([0.0], 1, 60), 1, 60, 0.5) == TooMany(59)
    ensures Decide(KeptAfter([0.0, 0.5], 1, 60), 1, 60, 59.5).TooMany?
  {
    assert [0.0][..0] == [] && [0.0, 0.5][..1] == [0.0];
    assert Purge([], -60.0) == [];
    assert KeptAfter([0.0], 1, 60) == [0.0];
    assert Purge([0.0], -59.5) == [0.0];
    assert KeptAfter([0.0, 0.5], 1, 60) == [0.0];
    assert Purge([0.0], -0.5) == [0.0];
  }
}
