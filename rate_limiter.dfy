/**
 * The sliding-window rate limiter: per client, the instants of the requests
 * admitted in the last 60 seconds; at most 30 of them.
 */
module RateLimiter {
  import opened Time

  /** `RATE_LIMIT_WINDOW`, in seconds and in microseconds. */
  const RateLimitWindowSeconds: int := 60
  const RateLimitWindow: int := RateLimitWindowSeconds * MicrosPerSecond
  /** `RATE_LIMIT_MAX_REQUESTS`. */
  const RateLimitMaxRequests: nat := 30

  /** `current_time - ts < timedelta(seconds=RATE_LIMIT_WINDOW)`: the request still counts. */
  predicate InWindow(ts: Instant, now: Instant) {
    now - ts < RateLimitWindow
  }

  /** The list comprehension that drops the timestamps that have left the window. */
  function Prune(ts: seq<Instant>, now: Instant): seq<Instant> {
    if ts == [] then []
    else Prune(ts[..|ts| - 1], now) + (if InWindow(ts[|ts| - 1], now) then [ts[|ts| - 1]] else [])
  }

  /** What one check decides for a client, and the client's list afterwards. */
  datatype Verdict = Verdict(allowed: bool, window: seq<Instant>)

  /** `check_rate_limit` on one client's list. */
  function Admit(ts: seq<Instant>, now: Instant): Verdict {
    var kept := Prune(ts, now);
    if |kept| >= RateLimitMaxRequests then Verdict(false, kept) else Verdict(true, kept + [now])
  }

  /** A client not seen before starts with an empty list. */
  function History(limits: map<string, seq<Instant>>, clientIp: string): seq<Instant> {
    if clientIp in limits then limits[clientIp] else []
  }

  /** `check_rate_limit` on the whole table: the decision and the new table. */
  function Check(limits: map<string, seq<Instant>>, clientIp: string, now: Instant): (bool, map<string, seq<Instant>>) {
    var v := Admit(History(limits, clientIp), now);
    (v.allowed, limits[clientIp := v.window])
  }

  /** No client holds more than the cap. */
  ghost predicate WithinCap(limits: map<string, seq<Instant>>) {
    forall ip :: ip in limits ==> |limits[ip]| <= RateLimitMaxRequests
  }

  /** The comprehension as the loop it is: keep, in order, the timestamps still in the window. */
  method PruneWindow(ts: seq<Instant>, now: Instant) returns (kept: seq<Instant>)
    ensures kept == Prune(ts, now)
  {
    kept := [];
    var i := 0;
    while i < |ts|
      invariant 0 <= i <= |ts|
      invariant kept == Prune(ts[..i], now)
    {
      assert ts[..i + 1][..i] == ts[..i];
      if InWindow(ts[i], now) {
        kept := kept + [ts[i]];
      }
      i := i + 1;
    }
    assert ts[..|ts|] == ts;
  }

  // ---------------------------------------------------------------------------
  // Pruning
  // ---------------------------------------------------------------------------

  /** A timestamp survives pruning exactly when it was stored and is still in the window. */
  lemma {:induction false} PruneMembership(ts: seq<Instant>, now: Instant, t: Instant)
    ensures t in Prune(ts, now) <==> t in ts && InWindow(t, now)
  {
    if ts != [] {
      PruneMembership(ts[..|ts| - 1], now, t);
      assert ts == ts[..|ts| - 1] + [ts[|ts| - 1]];
    }
  }

  /** Pruning works element by element and keeps the survivors in their original order. */
  lemma {:induction false} PruneConcat(a: seq<Instant>, b: seq<Instant>, now: Instant)
    ensures Prune(a + b, now) == Prune(a, now) + Prune(b, now)
  {
    if b != [] {
      var last := b[|b| - 1];
      assert (a + b)[..|a + b| - 1] == a + b[..|b| - 1];
      PruneConcat(a, b[..|b| - 1], now);
    } else {
      assert a + b == a;
    }
  }

  /** Pruning never lengthens a list. */
  lemma {:induction false} PruneLength(ts: seq<Instant>, now: Instant)
    ensures |Prune(ts, now)| <= |ts|
  {
    if ts != [] {
      PruneLength(ts[..|ts| - 1], now);
    }
  }

  /** A list whose every entry is still in the window survives pruning whole. */
  lemma {:induction false} PruneAllFresh(ts: seq<Instant>, now: Instant)
    requires forall k :: 0 <= k < |ts| ==> InWindow(ts[k], now)
    ensures Prune(ts, now) == ts
  {
    if ts != [] {
      PruneAllFresh(ts[..|ts| - 1], now);
    }
  }

  /** A list whose every entry has left the window is pruned to nothing. */
  lemma {:induction false} PruneAllStale(ts: seq<Instant>, now: Instant)
    requires forall k :: 0 <= k < |ts| ==> !InWindow(ts[k], now)
    ensures Prune(ts, now) == []
  {
    if ts != [] {
      PruneAllStale(ts[..|ts| - 1], now);
    }
  }

  predicate Sorted(ts: seq<Instant>) {
    forall i, j :: 0 <= i < j < |ts| ==> ts[i] <= ts[j]
  }

  /** Pruning a list kept in clock order leaves it in clock order. */
  lemma {:induction false} PruneKeepsSorted(ts: seq<Instant>, now: Instant)
    requires Sorted(ts)
    ensures Sorted(Prune(ts, now))
  {
    if ts != [] {
      var init, last := ts[..|ts| - 1], ts[|ts| - 1];
      PruneKeepsSorted(init, now);
      var p := Prune(init, now);
      forall k | 0 <= k < |p| ensures p[k] <= last {
        PruneMembership(init, now, p[k]);
      }
    }
  }

  // ---------------------------------------------------------------------------
  // One check
  // ---------------------------------------------------------------------------

  /** After a check, every timestamp the client holds is inside the window ending now. */
  lemma AdmitWindowIsFresh(ts: seq<Instant>, now: Instant)
    ensures forall t :: t in Admit(ts, now).window ==> InWindow(t, now)
  {
    forall t | t in Admit(ts, now).window ensures InWindow(t, now) {
      PruneMembership(ts, now, t);
    }
  }

  /**
   * A check admits exactly when fewer than the cap survive pruning; an admitted
   * request adds one entry, now, at the end, a refused one adds nothing.
   */
  lemma AdmitCountsSurvivors(ts: seq<Instant>, now: Instant)
    ensures var v := Admit(ts, now);
      && (v.allowed <==> |Prune(ts, now)| < RateLimitMaxRequests)
      && |v.window| == |Prune(ts, now)| + (if v.allowed then 1 else 0)
      && (v.allowed ==> v.window[|v.window| - 1] == now)
      && v.window[..|Prune(ts, now)|] == Prune(ts, now)
  {
  }

  /** A list that started within the cap stays within it; an admitted list is always within it. */
  lemma AdmitRespectsCap(ts: seq<Instant>, now: Instant)
    ensures |ts| <= RateLimitMaxRequests ==> |Admit(ts, now).window| <= RateLimitMaxRequests
    ensures Admit(ts, now).allowed ==> |Admit(ts, now).window| <= RateLimitMaxRequests
  {
    PruneLength(ts, now);
  }

  /** A check keeps every client's list within the cap. */
  lemma CheckPreservesCap(limits: map<string, seq<Instant>>, clientIp: string, now: Instant)
    requires WithinCap(limits)
    ensures WithinCap(Check(limits, clientIp, now).1)
  {
    AdmitRespectsCap(History(limits, clientIp), now);
  }

  /** A check leaves every other client's list as it was. */
  lemma CheckTouchesOnlyClient(limits: map<string, seq<Instant>>, clientIp: string, now: Instant, ip: string)
    requires ip != clientIp
    ensures ip in Check(limits, clientIp, now).1 <==> ip in limits
    ensures ip in limits ==> Check(limits, clientIp, now).1[ip] == limits[ip]
  {
  }

  /**
   * What a check leaves behind for the checking client: only timestamps inside
   * the window ending now, and, as for every other client, no more than the cap.
   */
  lemma CheckKeepsWindowAndCap(limits: map<string, seq<Instant>>, clientIp: string, now: Instant)
    requires WithinCap(limits)
    ensures var (allowed, after) := Check(limits, clientIp, now);
      && WithinCap(after)
      && (allowed <==> |Prune(History(limits, clientIp), now)| < RateLimitMaxRequests)
      && (forall t :: t in after[clientIp] ==> InWindow(t, now))
  {
    CheckPreservesCap(limits, clientIp, now);
    AdmitWindowIsFresh(History(limits, clientIp), now);
  }

  /** A client seen for the first time is admitted and its list becomes just this request. */
  lemma FirstRequestAdmitted(limits: map<string, seq<Instant>>, clientIp: string, now: Instant)
    requires clientIp !in limits
    ensures Check(limits, clientIp, now) == (true, limits[clientIp := [now]])
  {
    assert History(limits, clientIp) == [];
    assert Prune([], now) == [];
    assert Admit([], now) == Verdict(true, [now]);
  }

  /** After a full window with no request, a client (even a refused one) is admitted again. */
  lemma QuietWindowReadmits(ts: seq<Instant>, now: Instant)
    requires forall k :: 0 <= k < |ts| ==> now - ts[k] >= RateLimitWindow
    ensures Admit(ts, now) == Verdict(true, [now])
  {
    PruneAllStale(ts, now);
  }

  // ---------------------------------------------------------------------------
  // A burst of checks
  // ---------------------------------------------------------------------------

  /** The decisions for successive checks by one client at the given instants. */
  function Replay(ts: seq<Instant>, times: seq<Instant>): (r: seq<bool>)
    ensures |r| == |times|
    decreases |times|
  {
    if times == [] then []
    else
      var v := Admit(ts, times[0]);
      [v.allowed] + Replay(v.window, times[1..])
  }

  /** Every instant is less than a window after every earlier one. */
  predicate Burst(times: seq<Instant>) {
    forall i, j :: 0 <= i < j < |times| ==> times[j] - times[i] < RateLimitWindow
  }

  /** The first check of a burst: nothing stored leaves the window, and what is stored next stays in it. */
  lemma BurstStep(ts: seq<Instant>, times: seq<Instant>)
    requires times != [] && Burst(times)
    requires forall k, j :: 0 <= k < |ts| && 0 <= j < |times| ==> InWindow(ts[k], times[j])
    ensures Admit(ts, times[0]) ==
      if |ts| < RateLimitMaxRequests then Verdict(true, ts + [times[0]]) else Verdict(false, ts)
    ensures Burst(times[1..])
    ensures forall k, j :: 0 <= k < |Admit(ts, times[0]).window| && 0 <= j < |times| - 1 ==>
      InWindow(Admit(ts, times[0]).window[k], times[1..][j])
  {
    PruneAllFresh(ts, times[0]);
    var w := Admit(ts, times[0]).window;
    forall k, j | 0 <= k < |w| && 0 <= j < |times| - 1 ensures InWindow(w[k], times[1..][j]) {
      if k < |ts| {
        assert InWindow(ts[k], times[j + 1]);
      } else {
        assert times[j + 1] - times[0] < RateLimitWindow;
      }
    }
  }

  /** Within a burst, the k-th check is admitted exactly when fewer than 30 requests precede it. */
  lemma {:induction false} ReplayBurst(ts: seq<Instant>, times: seq<Instant>)
    requires Burst(times)
    requires forall k, j :: 0 <= k < |ts| && 0 <= j < |times| ==> InWindow(ts[k], times[j])
    ensures forall k :: 0 <= k < |times| ==> Replay(ts, times)[k] == (|ts| + k < RateLimitMaxRequests)
    decreases |times|
  {
    if times != [] {
      BurstStep(ts, times);
      var v := Admit(ts, times[0]);
      ReplayBurst(v.window, times[1..]);
      assert Replay(ts, times) == [v.allowed] + Replay(v.window, times[1..]);
    }
  }


  /**
   * A client that was never seen, issuing requests within one window, has
   * exactly its first 30 admitted and every later one refused.
   */
  lemma BurstAdmitsExactlyTheCap(times: seq<Instant>)
    requires Burst(times)
    ensures forall k :: 0 <= k < |times| ==> Replay([], times)[k] == (k < RateLimitMaxRequests)
  {
    ReplayBurst([], times);
  }

  // ---------------------------------------------------------------------------
  // Requests spread out in time
  // ---------------------------------------------------------------------------

  /** How many of the first i + 1 requests fall inside the window ending at request i. */
  ghost function WindowCount(times: seq<Instant>, i: nat): nat
    requires i < |times|
  {
    |set j | 0 <= j <= i && InWindow(times[j], times[i])|
  }

  /** No window ending at a request holds more than 30 of the requests up to it. */
  ghost predicate WithinLimit(times: seq<Instant>) {
    forall i :: 0 <= i < |times| ==> WindowCount(times, i) <= RateLimitMaxRequests
  }

  /** Pruning keeps exactly as many timestamps as the list holds inside the window. */
  lemma {:induction false} PruneCount(ts: seq<Instant>, now: Instant)
    ensures |Prune(ts, now)| == |set j | 0 <= j < |ts| && InWindow(ts[j], now)|
  {
    if ts != [] {
      var init := ts[..|ts| - 1];
      var n := |init|;
      PruneCount(init, now);
      var a := set j | 0 <= j < n && InWindow(init[j], now);
      var b := set j | 0 <= j < |ts| && InWindow(ts[j], now);
      if InWindow(ts[n], now) {
        assert b == a + {n};
        assert n !in a;
      } else {
        assert b == a;
      }
    }
  }

  /** Pruning at a later instant undoes nothing an earlier pruning kept out. */
  lemma {:induction false} PruneLater(ts: seq<Instant>, earlier: Instant, later: Instant)
    requires earlier <= later
    ensures Prune(Prune(ts, earlier), later) == Prune(ts, later)
  {
    if ts != [] {
      var init, last := ts[..|ts| - 1], ts[|ts| - 1];
      PruneLater(init, earlier, later);
      var tail := if InWindow(last, earlier) then [last] else [];
      PruneConcat(Prune(init, earlier), tail, later);
      if InWindow(last, earlier) {
        assert [last][..0] == [];
      }
    }
  }

  /** A request that is at most the 30th in its window finds fewer than 30 earlier ones there. */
  lemma RoomInWindow(past: seq<Instant>, times: seq<Instant>)
    requires times != []
    requires WindowCount(past + times, |past|) <= RateLimitMaxRequests
    ensures |Prune(past, times[0])| < RateLimitMaxRequests
  {
    var all, i, now := past + times, |past|, times[0];
    PruneCount(past, now);
    assert (set j | 0 <= j <= i && InWindow(all[j], all[i])) ==
      (set j | 0 <= j < |past| && InWindow(past[j], now)) + {i};
  }

  /** Pruning keeps every occurrence of a timestamp inside the window and none outside it. */
  lemma {:induction false} PruneMultiset(ts: seq<Instant>, now: Instant, t: Instant)
    ensures multiset(Prune(ts, now))[t] == if InWindow(t, now) then multiset(ts)[t] else 0
  {
    if ts != [] {
      var init := ts[..|ts| - 1];
      PruneMultiset(init, now, t);
      assert ts == init + [ts[|ts| - 1]];
    }
  }

  /** A list holding no timestamp more often than another keeps no more of them through pruning. */
  lemma PruneSubMultiset(a: seq<Instant>, b: seq<Instant>, now: Instant)
    requires multiset(a) <= multiset(b)
    ensures multiset(Prune(a, now)) <= multiset(Prune(b, now))
    ensures |Prune(a, now)| <= |Prune(b, now)|
  {
    var pa, pb := multiset(Prune(a, now)), multiset(Prune(b, now));
    forall t ensures pa[t] <= pb[t] {
      PruneMultiset(a, now, t);
      PruneMultiset(b, now, t);
    }
    assert pb == pa + (pb - pa);
  }

  /**
   * One check of a client whose stored list holds only earlier requests,
   * fewer than 30 of them in the window: admitted, and the new list again
   * holds only requests made so far.
   */
  lemma AdmitWithRoom(ts: seq<Instant>, past: seq<Instant>, now: Instant)
    requires multiset(ts) <= multiset(past)
    requires |Prune(past, now)| < RateLimitMaxRequests
    ensures Admit(ts, now) == Verdict(true, Prune(ts, now) + [now])
    ensures multiset(Admit(ts, now).window) <= multiset(past + [now])
  {
    PruneSubMultiset(ts, past, now);
    forall t ensures multiset(Prune(ts, now))[t] <= multiset(ts)[t] {
      PruneMultiset(ts, now, t);
    }
  }

  /** A run of checks is all admitted when its first is and the run after it is. */
  lemma ReplayAdmitsAll(ts: seq<Instant>, times: seq<Instant>)
    requires times != [] && Admit(ts, times[0]).allowed
    requires forall k :: 0 <= k < |times| - 1 ==> Replay(Admit(ts, times[0]).window, times[1..])[k]
    ensures forall k :: 0 <= k < |times| ==> Replay(ts, times)[k]
  {
    assert Replay(ts, times) == [true] + Replay(Admit(ts, times[0]).window, times[1..]);
  }

  /**
   * The checks of one client, `past` its earlier requests and `ts` the list
   * stored for it, which holds only earlier requests: when no window ever
   * holds more than 30 of the requests, every coming check is admitted,
   * whatever order the clock readings come in.
   */
  lemma {:induction false} ReplayAll(ts: seq<Instant>, past: seq<Instant>, times: seq<Instant>)
    requires multiset(ts) <= multiset(past)
    requires WithinLimit(past + times)
    ensures forall k :: 0 <= k < |times| ==> Replay(ts, times)[k]
    decreases |times|
  {
    if times != [] {
      var now := times[0];
      assert WindowCount(past + times, |past|) <= RateLimitMaxRequests;
      RoomInWindow(past, times);
      AdmitWithRoom(ts, past, now);
      var past' := past + [now];
      assert past' + times[1..] == past + times;
      ReplayAll(Admit(ts, now).window, past', times[1..]);
      ReplayAdmitsAll(ts, times);
    }
  }

  /**
   * A client that was never seen, with no 60-second window holding more
   * than 30 of its requests, is never refused; the clock need not be monotonic.
   */
  lemma SpreadOutRequestsAdmitted(times: seq<Instant>)
    requires WithinLimit(times)
    ensures forall k :: 0 <= k < |times| ==> Replay([], times)[k]
  {
    assert [] + times == times;
    ReplayAll([], [], times);
  }
}
