/**
  The fixed-window request limiter of the API gateway (web_api_gateway_rate_limit.go).

  Times are nanoseconds.  One counter row per key is read under a row lock and then inserted,
  reset or incremented, so one call is one atomic step on the counter table.
 */
module RateLimit {
  import opened Common

  const SECOND := 1_000_000_000

  datatype Policy = Policy(window: int, maxRequests: int)

  datatype Counter = Counter(windowStart: int, count: int)

  datatype Verdict =
    | Admitted(remaining: int, retryAfter: int)
    | Rejected(retryAfter: int)
    | DatabaseError

  /** What the limiter may rely on: LoadedPolicy never yields anything else. */
  predicate Usable(p: Policy) {
    p.window >= 1 && p.maxRequests >= 1
  }

  /** The policy applied for the best matching row, or for no row at all: (window seconds, requests). */
  function LoadedPolicy(row: Option<(int, int)>): (p: Policy)
    ensures Usable(p)
    ensures row.None? ==> p == Policy(60_000_000_000, 60)
    ensures row.Some? ==> p.window == if row.value.0 >= 1 then row.value.0 * 1_000_000_000 else 60_000_000_000
    ensures row.Some? ==> p.maxRequests == if row.value.1 >= 1 then row.value.1 else 1
  {
    match row
    case None => Policy(60 * SECOND, 60)
    case Some((seconds, requests)) =>
      Policy((if seconds < 1 then 60 else seconds) * SECOND, if requests < 1 then 1 else requests)
  }

  predicate Admits(p: Policy, row: Option<Counter>, now: int) {
    || row.None?
    || now - row.value.windowStart >= p.window
    || row.value.count < p.maxRequests
  }

  function Next(p: Policy, row: Option<Counter>, now: int): Counter {
    if row.None? || now - row.value.windowStart >= p.window then Counter(now, 1)
    else if row.value.count >= p.maxRequests then row.value
    else Counter(row.value.windowStart, row.value.count + 1)
  }

  function Max(a: int, b: int): int {
    if a < b then b else a
  }

  function Lookup(rows: map<string, Counter>, key: string): Option<Counter> {
    if key in rows then Some(rows[key]) else None
  }

  /** The table api_gateway_rate_limit_windows and the transaction run on it for one request. */
  class Limiter {
    var counters: map<string, Counter>

    constructor ()
      ensures counters == map[]
    {
      counters := map[];
    }

    /** `now` is read before the transaction, `later` after it; `dbOk` is false if any statement fails. */
    method Request(key: string, p: Policy, now: int, later: int, dbOk: bool) returns (v: Verdict)
      modifies this
      ensures !dbOk ==> v.DatabaseError? && counters == old(counters)
      ensures dbOk ==> (v.Admitted? <==> Admits(p, Lookup(old(counters), key), now))
      ensures dbOk ==> v.Admitted? || v.Rejected?
      ensures v.Rejected? ==> counters == old(counters)
      ensures v.Admitted? ==> counters == old(counters)[key := Next(p, Lookup(old(counters), key), now)]
      ensures v.Admitted? ==> v.remaining == Max(p.maxRequests - counters[key].count, 0)
      ensures v.Admitted? || v.Rejected? ==>
                v.retryAfter == Max(counters[key].windowStart + p.window - later, 0)
    {
      var before := counters;
      var windowStart, requestCount;
      if key !in counters {
        windowStart, requestCount := now, 1;
        counters := counters[key := Counter(now, 1)];
      } else {
        windowStart, requestCount := counters[key].windowStart, counters[key].count;
        if now - windowStart >= p.window {
          windowStart, requestCount := now, 1;
          counters := counters[key := Counter(now, 1)];
        } else {
          if requestCount >= p.maxRequests {
            if !dbOk {
              return DatabaseError;
            }
            return Rejected(Max(windowStart + p.window - later, 0));
          }
          requestCount := requestCount + 1;
          counters := counters[key := Counter(windowStart, requestCount)];
        }
      }
      if !dbOk {
        counters := before;
        return DatabaseError;
      }
      return Admitted(Max(p.maxRequests - requestCount, 0), Max(windowStart + p.window - later, 0));
    }
  }

  // ---------------------------------------------------------------- whole traces of one key

  function CounterAfter(p: Policy, times: seq<int>): Option<Counter> {
    if times == [] then None
    else Some(Next(p, CounterAfter(p, times[..|times| - 1]), times[|times| - 1]))
  }

  /** The times of the requests a trace admits, in order. */
  function AdmittedTimes(p: Policy, times: seq<int>): seq<int> {
    if times == [] then []
    else
      var before, now := times[..|times| - 1], times[|times| - 1];
      AdmittedTimes(p, before) + if Admits(p, CounterAfter(p, before), now) then [now] else []
  }

  predicate NonDecreasing(times: seq<int>) {
    forall i, j :: 0 <= i <= j < |times| ==> times[i] <= times[j]
  }

  /** How many of `times` lie in the half-open interval [lo, hi). */
  function CountIn(times: seq<int>, lo: int, hi: int): nat {
    if times == [] then 0
    else CountIn(times[..|times| - 1], lo, hi) + if lo <= times[|times| - 1] < hi then 1 else 0
  }

  lemma {:induction false} CountAppend(a: seq<int>, b: seq<int>, lo: int, hi: int)
    ensures CountIn(a + b, lo, hi) == CountIn(a, lo, hi) + CountIn(b, lo, hi)
  {
    if b == [] {
      assert a + b == a;
    } else {
      var n := |b| - 1;
      assert (a + b)[..|a + b| - 1] == a + b[..n];
      CountAppend(a, b[..n], lo, hi);
    }
  }

  lemma {:induction false} CountSplit(times: seq<int>, lo: int, mid: int, hi: int)
    requires lo <= mid <= hi
    ensures CountIn(times, lo, hi) == CountIn(times, lo, mid) + CountIn(times, mid, hi)
  {
    if times != [] {
      CountSplit(times[..|times| - 1], lo, mid, hi);
    }
  }

  lemma {:induction false} CountNone(times: seq<int>, lo: int, hi: int)
    requires forall i :: 0 <= i < |times| ==> !(lo <= times[i] < hi)
    ensures CountIn(times, lo, hi) == 0
  {
    if times != [] {
      CountNone(times[..|times| - 1], lo, hi);
    }
  }

  /** Widening the interval never lowers the count. */
  lemma CountMonotone(times: seq<int>, lo: int, hi: int, lo': int, hi': int)
    requires lo' <= lo && hi <= hi'
    ensures CountIn(times, lo, hi) <= CountIn(times, lo', hi')
  {
    if lo <= hi {
      CountSplit(times, lo', lo, hi');
      CountSplit(times, lo, hi, hi');
    } else {
      CountNone(times, lo, hi);
    }
  }

  /**
    What a monotone clock keeps, for the admitted times `adm`, the counter and the latest request time:
    the counter counts exactly the requests admitted since the window opened, the window opened on an
    admitted request, and fewer than maxRequests of the earlier ones are less than a window older.
   */
  ghost predicate WindowInv(p: Policy, adm: seq<int>, c: Counter, now: int) {
    && c.windowStart <= now < c.windowStart + p.window
    && 1 <= c.count <= p.maxRequests
    && (forall i :: 0 <= i < |adm| ==> adm[i] <= now)
    && CountIn(adm, c.windowStart, now + 1) == c.count
    && CountIn(adm, c.windowStart, c.windowStart + 1) >= 1
    && CountIn(adm, c.windowStart - p.window + 1, c.windowStart) <= p.maxRequests - 1
  }

  lemma FirstRequest(p: Policy, now: int)
    requires Usable(p)
    ensures WindowInv(p, [now], Counter(now, 1), now)
  {
    CountNone([now], now - p.window + 1, now);
  }

  lemma NewWindow(p: Policy, adm: seq<int>, c: Counter, last: int, now: int)
    requires Usable(p) && last <= now
    requires WindowInv(p, adm, c, last) && now >= c.windowStart + p.window
    ensures WindowInv(p, adm + [now], Counter(now, 1), now)
  {
    CountAppend(adm, [now], now, now + 1);
    CountAppend(adm, [now], now - p.window + 1, now);
    CountNone(adm, now, now + 1);
    CountNone([now], now - p.window + 1, now);
    CountSplit(adm, c.windowStart, c.windowStart + 1, last + 1);
    CountSplit(adm, c.windowStart + 1, last + 1, now);
    CountNone(adm, last + 1, now);
    CountMonotone(adm, now - p.window + 1, now, c.windowStart + 1, now);
  }

  lemma SameWindow(p: Policy, adm: seq<int>, c: Counter, last: int, now: int)
    requires Usable(p) && last <= now
    requires WindowInv(p, adm, c, last) && now < c.windowStart + p.window && c.count < p.maxRequests
    ensures WindowInv(p, adm + [now], Counter(c.windowStart, c.count + 1), now)
  {
    CountAppend(adm, [now], c.windowStart, now + 1);
    CountAppend(adm, [now], c.windowStart, c.windowStart + 1);
    CountAppend(adm, [now], c.windowStart - p.window + 1, c.windowStart);
    CountSplit(adm, c.windowStart, last + 1, now + 1);
    CountNone(adm, last + 1, now + 1);
    CountNone([now], c.windowStart - p.window + 1, c.windowStart);
  }

  lemma Refused(p: Policy, adm: seq<int>, c: Counter, last: int, now: int)
    requires Usable(p) && last <= now
    requires WindowInv(p, adm, c, last) && now < c.windowStart + p.window
    ensures WindowInv(p, adm, c, now)
  {
    CountSplit(adm, c.windowStart, last + 1, now + 1);
    CountNone(adm, last + 1, now + 1);
  }

  lemma {:induction false} WindowInvHolds(p: Policy, times: seq<int>)
    requires Usable(p) && NonDecreasing(times) && times != []
    ensures WindowInv(p, AdmittedTimes(p, times), CounterAfter(p, times).value, times[|times| - 1])
  {
    var before, now := times[..|times| - 1], times[|times| - 1];
    var adm := AdmittedTimes(p, before);
    if before == [] {
      assert AdmittedTimes(p, times) == [now];
      FirstRequest(p, now);
    } else {
      WindowInvHolds(p, before);
      var last, c := before[|before| - 1], CounterAfter(p, before).value;
      if now - c.windowStart >= p.window {
        NewWindow(p, adm, c, last, now);
      } else if c.count < p.maxRequests {
        SameWindow(p, adm, c, last, now);
      } else {
        Refused(p, adm, c, last, now);
        assert AdmittedTimes(p, times) == adm;
      }
    }
  }

  // ---------------------------------------------------------------- clock readings that arrive late

  /** Requests reach the row lock in an order in which no clock reading is more than `d` below an earlier one. */
  predicate AtMostLate(times: seq<int>, d: int) {
    forall i, j :: 0 <= i <= j < |times| ==> times[i] - d <= times[j]
  }

  /** The admitted requests, split into those of closed windows and those of the current one. */
  function Windows(p: Policy, times: seq<int>): (seq<int>, seq<int>) {
    if times == [] then ([], [])
    else
      var before, now := times[..|times| - 1], times[|times| - 1];
      var (past, cur) := Windows(p, before);
      var row := CounterAfter(p, before);
      if row.None? || now - row.value.windowStart >= p.window then (past + cur, [now])
      else if row.value.count < p.maxRequests then (past, cur + [now])
      else (past, cur)
  }

  lemma {:induction false} WindowsAreAdmitted(p: Policy, times: seq<int>)
    ensures Windows(p, times).0 + Windows(p, times).1 == AdmittedTimes(p, times)
  {
    if times != [] {
      WindowsAreAdmitted(p, times[..|times| - 1]);
    }
  }

  lemma {:induction false} CountAtMost(times: seq<int>, lo: int, hi: int)
    ensures CountIn(times, lo, hi) <= |times|
  {
    if times != [] {
      CountAtMost(times[..|times| - 1], lo, hi);
    }
  }

  lemma CountAllButFirst(times: seq<int>, lo: int, hi: int)
    requires times != [] && !(lo <= times[0] < hi)
    ensures CountIn(times, lo, hi) <= |times| - 1
  {
    assert times == [times[0]] + times[1..];
    CountAppend([times[0]], times[1..], lo, hi);
    CountNone([times[0]], lo, hi);
    CountAtMost(times[1..], lo, hi);
  }

  /** The current window: opened by its first request, no reading too late for it, and no more than it may hold. */
  predicate Current(p: Policy, d: int, cur: seq<int>, c: Counter) {
    && 1 <= |cur| == c.count <= p.maxRequests && cur[0] == c.windowStart
    && forall i :: 0 <= i < |cur| ==> c.windowStart - d <= cur[i] < c.windowStart + p.window
  }

  /** An interval from `t` on, shorter than the window by `d`, holds no more than the bound. */
  predicate BelowBound(p: Policy, d: int, times: seq<int>, t: int) {
    CountIn(times, t, t + p.window - d) <= 2 * p.maxRequests - 1
  }

  /** The closed windows: all of them before the current one opened, and all but one request of the last one at most. */
  ghost predicate Closed(p: Policy, d: int, past: seq<int>, c: Counter) {
    && (forall i :: 0 <= i < |past| ==> past[i] < c.windowStart)
    && CountIn(past, c.windowStart - p.window + 1, c.windowStart) <= p.maxRequests - 1
    && forall t :: BelowBound(p, d, past, t)
  }

  /** Whatever interval is taken, closed and current windows together stay below the bound. */
  lemma BothBelowBound(p: Policy, d: int, past: seq<int>, cur: seq<int>, c: Counter, t: int)
    requires Usable(p) && 0 <= d && Current(p, d, cur, c) && Closed(p, d, past, c)
    ensures BelowBound(p, d, past + cur, t)
  {
    assert BelowBound(p, d, past, t);
    var s, hi := c.windowStart, t + p.window - d;
    CountAppend(past, cur, t, hi);
    CountAtMost(cur, t, hi);
    if t >= s {
      CountNone(past, t, hi);
    } else if t <= s - p.window {
      CountNone(cur, t, hi);
    } else {
      CountMonotone(past, t, hi, s - p.window + 1, if hi <= s then s else hi);
      if hi > s {
        CountSplit(past, s - p.window + 1, s, hi);
        CountNone(past, s, hi);
      }
    }
  }

  /** The windows before a request that opens a new one are closed. */
  lemma WindowCloses(p: Policy, d: int, past: seq<int>, cur: seq<int>, c: Counter, now: int)
    requires Usable(p) && 0 <= d && Current(p, d, cur, c) && Closed(p, d, past, c) && now >= c.windowStart + p.window
    ensures Closed(p, d, past + cur, Counter(now, 1)) && Current(p, d, [now], Counter(now, 1))
  {
    forall t
      ensures BelowBound(p, d, past + cur, t)
    {
      BothBelowBound(p, d, past, cur, c, t);
    }
    CountAppend(past, cur, now - p.window + 1, now);
    CountNone(past, now - p.window + 1, now);
    CountAllButFirst(cur, now - p.window + 1, now);
  }

  lemma NothingClosed(p: Policy, d: int, c: Counter)
    requires Usable(p)
    ensures Closed(p, d, [], c)
  {
  }

  lemma {:induction false} WindowsHold(p: Policy, times: seq<int>, d: int)
    requires Usable(p) && 0 <= d && AtMostLate(times, d) && times != []
    ensures var (past, cur) := Windows(p, times);
            var c := CounterAfter(p, times).value;
            Closed(p, d, past, c) && Current(p, d, cur, c) && c.windowStart in times
  {
    hide Closed;
    var before, now := times[..|times| - 1], times[|times| - 1];
    if before == [] {
      NothingClosed(p, d, Counter(now, 1));
      assert Windows(p, times).0 == [] && Windows(p, times).1 == [now];
    } else {
      WindowsHold(p, before, d);
      var (past, cur) := Windows(p, before);
      var c := CounterAfter(p, before).value;
      assert c.windowStart - d <= now;
      if now - c.windowStart >= p.window {
        WindowCloses(p, d, past, cur, c, now);
      } else if c.count < p.maxRequests {
        SameStart(p, d, past, c);
      }
    }
  }

  lemma SameStart(p: Policy, d: int, past: seq<int>, c: Counter)
    requires Closed(p, d, past, c)
    ensures Closed(p, d, past, Counter(c.windowStart, c.count + 1))
  {
  }

  /**
    Where no reading is more than `d` late, no half-open interval shorter than the window by `d` admits more than
    2 * maxRequests - 1 requests; with readings in order, no interval as long as the window.
   */
  lemma SlidingWindowBound(p: Policy, times: seq<int>, d: int, t: int)
    requires Usable(p) && 0 <= d && AtMostLate(times, d)
    ensures CountIn(AdmittedTimes(p, times), t, t + p.window - d) <= 2 * p.maxRequests - 1
  {
    if times != [] {
      WindowsHold(p, times, d);
      WindowsAreAdmitted(p, times);
      var (past, cur) := Windows(p, times);
      BothBelowBound(p, d, past, cur, CounterAfter(p, times).value, t);
    }
  }

  /** A reading that reaches the lock late lets an interval of a whole window admit more. */
  lemma LateReadingBeatsBound()
    ensures var p, times := Policy(10, 2), [0, 9, 10, 10, 20, 18];
            Usable(p) && AtMostLate(times, 2) && AdmittedTimes(p, times) == times
            && CountIn(times, 9, 9 + p.window) == 2 * p.maxRequests
  {
    var p := Policy(10, 2);
    hide AdmittedTimes, CounterAfter, CountIn;
    NoneYet(p);
    OneMore(p, [], 0);
    OneMore(p, [0], 9);
    OneMore(p, [0, 9], 10);
    OneMore(p, [0, 9, 10], 10);
    OneMore(p, [0, 9, 10, 10], 20);
    OneMore(p, [0, 9, 10, 10, 20], 18);
    assert [] + [0] == [0] && [0] + [9] == [0, 9] && [0, 9] + [10] == [0, 9, 10];
    assert [0, 9, 10] + [10] == [0, 9, 10, 10] && [0, 9, 10, 10] + [20] == [0, 9, 10, 10, 20];
    assert [0, 9, 10, 10, 20] + [18] == [0, 9, 10, 10, 20, 18];
    LateCount();
  }

  lemma NoneYet(p: Policy)
    ensures CounterAfter(p, []) == None && AdmittedTimes(p, []) == []
  {
  }

  lemma LateCount()
    ensures CountIn([0, 9, 10, 10, 20, 18], 9, 19) == 4
  {
    hide CountIn;
    CountAppend([0, 9, 10, 10, 20], [18], 9, 19);
    CountAppend([0, 9, 10, 10], [20], 9, 19);
    CountAppend([0, 9, 10], [10], 9, 19);
    CountAppend([0, 9], [10], 9, 19);
    CountAppend([0], [9], 9, 19);
    CountOne(0, 9, 19);
    CountOne(9, 9, 19);
    CountOne(10, 9, 19);
    CountOne(20, 9, 19);
    CountOne(18, 9, 19);
    assert [0] + [9] == [0, 9] && [0, 9] + [10] == [0, 9, 10] && [0, 9, 10] + [10] == [0, 9, 10, 10];
    assert [0, 9, 10, 10] + [20] == [0, 9, 10, 10, 20] && [0, 9, 10, 10, 20] + [18] == [0, 9, 10, 10, 20, 18];
  }

  lemma OneMore(p: Policy, times: seq<int>, now: int)
    ensures CounterAfter(p, times + [now]) == Some(Next(p, CounterAfter(p, times), now))
    ensures Admits(p, CounterAfter(p, times), now) ==>
              AdmittedTimes(p, times + [now]) == AdmittedTimes(p, times) + [now]
  {
    assert (times + [now])[..|times + [now]| - 1] == times;
  }

  function Repeat(t: int, n: nat): (r: seq<int>)
    ensures |r| == n && forall i :: 0 <= i < n ==> r[i] == t
  {
    if n == 0 then [] else Repeat(t, n - 1) + [t]
  }

  lemma {:induction false} RepeatCons(t: int, n: nat)
    requires n > 0
    ensures Repeat(t, n) == [t] + Repeat(t, n - 1)
  {
    if n > 1 {
      RepeatCons(t, n - 1);
    }
  }

  lemma {:induction false} RepeatedRequests(p: Policy, times: seq<int>, c: Counter, t: int, n: nat)
    requires CounterAfter(p, times) == Some(c)
    requires t - c.windowStart < p.window && c.count + n <= p.maxRequests
    ensures CounterAfter(p, times + Repeat(t, n)) == Some(Counter(c.windowStart, c.count + n))
    ensures AdmittedTimes(p, times + Repeat(t, n)) == AdmittedTimes(p, times) + Repeat(t, n)
    decreases n
  {
    hide CounterAfter, AdmittedTimes, Repeat;
    if n == 0 {
      RepeatNone(times, t);
      RepeatNone(AdmittedTimes(p, times), t);
    } else {
      var more := times + [t];
      RequestFits(p, times, c, t);
      RepeatedRequests(p, more, Counter(c.windowStart, c.count + 1), t, n - 1);
      RepeatMore(times, t, n);
      RepeatMore(AdmittedTimes(p, times), t, n);
    }
  }

  lemma RepeatNone(times: seq<int>, t: int)
    ensures times + Repeat(t, 0) == times
  {
  }

  lemma RepeatMore(times: seq<int>, t: int, n: nat)
    requires n > 0
    ensures times + Repeat(t, n) == (times + [t]) + Repeat(t, n - 1)
  {
    RepeatCons(t, n);
    hide Repeat;
  }

  /** A request in a window that is not full. */
  lemma RequestFits(p: Policy, times: seq<int>, c: Counter, now: int)
    requires CounterAfter(p, times) == Some(c) && now - c.windowStart < p.window && c.count < p.maxRequests
    ensures CounterAfter(p, times + [now]) == Some(Counter(c.windowStart, c.count + 1))
    ensures AdmittedTimes(p, times + [now]) == AdmittedTimes(p, times) + [now]
  {
    OneMore(p, times, now);
    hide CounterAfter, AdmittedTimes;
  }

  lemma {:induction false} CountRepeat(t: int, n: nat, lo: int, hi: int)
    ensures CountIn(Repeat(t, n), lo, hi) == if lo <= t < hi then n else 0
  {
    if n > 0 {
      assert Repeat(t, n)[..n - 1] == Repeat(t, n - 1);
      CountRepeat(t, n - 1, lo, hi);
    }
  }

  /** One request, a burst just before the window ends, and a full burst as the next window opens. */
  function BoundaryBurst(p: Policy): seq<int>
    requires Usable(p)
  {
    Repeat(0, 1) + Repeat(p.window - 1, p.maxRequests - 1) + [p.window] + Repeat(p.window, p.maxRequests - 1)
  }

  lemma BoundaryBurstIsAdmitted(p: Policy)
    requires Usable(p)
    ensures AdmittedTimes(p, BoundaryBurst(p)) == BoundaryBurst(p)
  {
    hide *;
    BurstEnds(p);
    var W, m := p.window, p.maxRequests - 1;
    var one, full, next := Repeat(0, 1), Repeat(0, 1) + Repeat(W - 1, m), Repeat(0, 1) + Repeat(W - 1, m) + [W];
    BurstBegins(p);
    RepeatedRequests(p, one, Counter(0, 1), W - 1, m);
    WindowOpens(p, full, Counter(0, m + 1), W);
    RepeatedRequests(p, next, Counter(W, 1), W, m);
  }

  lemma BurstEnds(p: Policy)
    requires Usable(p)
    ensures p.window > 0 && p.maxRequests > 0
    ensures BoundaryBurst(p) == Repeat(0, 1) + Repeat(p.window - 1, p.maxRequests - 1) + [p.window] + Repeat(p.window,
            p.maxRequests - 1)
  {
    hide Repeat;
  }

  /** A request at the end of the window opens the next one. */
  lemma WindowOpens(p: Policy, times: seq<int>, c: Counter, now: int)
    requires Usable(p) && CounterAfter(p, times) == Some(c) && now >= c.windowStart + p.window
    ensures CounterAfter(p, times + [now]) == Some(Counter(now, 1))
    ensures AdmittedTimes(p, times + [now]) == AdmittedTimes(p, times) + [now]
  {
    OneMore(p, times, now);
  }

  lemma BurstBegins(p: Policy)
    requires Usable(p)
    ensures CounterAfter(p, Repeat(0, 1)) == Some(Counter(0, 1)) && AdmittedTimes(p, Repeat(0, 1)) == Repeat(0, 1)
  {
    OneMore(p, [], 0);
    assert Repeat(0, 1) == [] + [0];
  }

  lemma BoundaryBurstCount(p: Policy)
    requires Usable(p) && p.window >= 2
    ensures CountIn(BoundaryBurst(p), p.window - 1, p.window - 1 + p.window) == 2 * p.maxRequests - 1
  {
    hide CountIn, Repeat;
    var W, m := p.window, p.maxRequests - 1;
    var lo, hi := W - 1, W - 1 + W;
    var first, late, next := Repeat(0, 1), Repeat(W - 1, m), Repeat(W, m);
    CountAppend(first + late + [W], next, lo, hi);
    CountAppend(first + late, [W], lo, hi);
    CountAppend(first, late, lo, hi);
    CountRepeat(0, 1, lo, hi);
    CountRepeat(W - 1, m, lo, hi);
    CountRepeat(W, m, lo, hi);
    CountOne(W, lo, hi);
  }

  lemma CountOne(t: int, lo: int, hi: int)
    ensures CountIn([t], lo, hi) == if lo <= t < hi then 1 else 0
  {
    assert [t][..0] == [];
  }

  /** The bound is attained for every policy: no smaller one would be correct. */
  lemma SlidingWindowBoundIsTight(p: Policy)
    requires Usable(p) && p.window >= 2
    ensures NonDecreasing(BoundaryBurst(p))
    ensures CountIn(AdmittedTimes(p, BoundaryBurst(p)), p.window - 1, p.window - 1 + p.window)
         == 2 * p.maxRequests - 1
  {
    BoundaryBurstIsAdmitted(p);
    BoundaryBurstCount(p);
  }

  /**
    Even when clocks of different servers interleave, the counter never exceeds the limit, and every
    request made at or after the end of the current window is admitted and opens a new one.
   */
  lemma {:induction false} CounterNeverExceedsLimit(p: Policy, times: seq<int>, now: int)
    requires Usable(p) && times != []
    ensures var c := CounterAfter(p, times).value;
            && 1 <= c.count <= p.maxRequests
            && (now >= c.windowStart + p.window ==>
                  Admits(p, Some(c), now) && Next(p, Some(c), now) == Counter(now, 1))
            && (!Admits(p, Some(c), now) ==> Next(p, Some(c), now) == c && c.count == p.maxRequests)
  {
    if |times| > 1 {
      CounterNeverExceedsLimit(p, times[..|times| - 1], now);
    }
  }
}
