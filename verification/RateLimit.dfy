/** The fixed-window rate limiter of the HTTP webhook (src/channels/http.rs). */
module RateLimit {

  const MAX_REQUESTS_PER_MINUTE: nat := 60
  /** One minute in nanoseconds. */
  const MINUTE: int := 60_000_000_000
  /** The request counter has 32 bits and wraps. */
  const WRAP: nat := 0x1_0000_0000

  datatype Limiter = Limiter(windowStart: int, requestCount: nat)

  /**
   One request inside the limiter's lock: the clock reading that the age of the window is taken from, the
   reading that a new window starts at, and any instant between them as the request's own time.
   */
  datatype Request = Request(checked: int, at: int, stamped: int)

  predicate Expired(s: Limiter, r: Request) {
    r.checked - s.windowStart >= MINUTE
  }

  function Admitted(s: Limiter, r: Request): Limiter {
    var window := if Expired(s, r) then Limiter(r.stamped, 0) else s;
    window.(requestCount := (window.requestCount + 1) % WRAP)
  }

  predicate Passes(s: Limiter, r: Request) {
    Admitted(s, r).requestCount <= MAX_REQUESTS_PER_MINUTE
  }

  class RateLimitState {
    var windowStart: int
    var requestCount: nat

    function View(): Limiter
      reads this
    {
      Limiter(windowStart, requestCount)
    }

    constructor (now: int)
      ensures View() == Limiter(now, 0)
    {
      windowStart, requestCount := now, 0;
    }

    method Admit(r: Request) returns (pass: bool)
      modifies this
      ensures View() == Admitted(old(View()), r)
      ensures pass == Passes(old(View()), r)
    {
      if r.checked - windowStart >= MINUTE {
        windowStart := r.stamped;
        requestCount := 0;
      }
      requestCount := (requestCount + 1) % WRAP;
      return requestCount <= MAX_REQUESTS_PER_MINUTE;
    }
  }

  // ---------------------------------------------------------------------
  // Runs
  // ---------------------------------------------------------------------

  /** The clock never runs backwards. */
  ghost predicate Timed(start: int, trace: seq<Request>) {
    && (forall i :: 0 <= i < |trace| ==> start <= trace[i].checked <= trace[i].at <= trace[i].stamped)
    && (forall i, j :: 0 <= i < j < |trace| ==> trace[i].stamped <= trace[j].checked)
  }

  function StateAt(start: int, trace: seq<Request>, n: nat): Limiter
    requires n <= |trace|
  {
    if n == 0 then Limiter(start, 0) else Admitted(StateAt(start, trace, n - 1), trace[n - 1])
  }

  /** The number of the window that is open after n requests. */
  function Window(start: int, trace: seq<Request>, n: nat): nat
    requires n <= |trace|
  {
    if n == 0 then 0
    else Window(start, trace, n - 1) + if Expired(StateAt(start, trace, n - 1), trace[n - 1]) then 1 else 0
  }

  /** How many of the first n requests fell into window w. */
  function Received(start: int, trace: seq<Request>, n: nat, w: nat): nat
    requires n <= |trace|
  {
    if n == 0 then 0
    else Received(start, trace, n - 1, w) + if Window(start, trace, n) == w then 1 else 0
  }

  /** How many of them passed. */
  function Passed(start: int, trace: seq<Request>, n: nat, w: nat): nat
    requires n <= |trace|
  {
    if n == 0 then 0
    else
      Passed(start, trace, n - 1, w)
      + if Window(start, trace, n) == w && Passes(StateAt(start, trace, n - 1), trace[n - 1]) then 1 else 0
  }

  /** How many of the first n requests passed in the minute from t on. */
  function PassedInMinute(start: int, trace: seq<Request>, n: nat, t: int): nat
    requires n <= |trace|
  {
    if n == 0 then 0
    else
      PassedInMinute(start, trace, n - 1, t)
      + if InMinute(trace[n - 1], t) && Passes(StateAt(start, trace, n - 1), trace[n - 1]) then 1 else 0
  }

  /** The number of passes that a 32-bit counter gives in k steps from zero. */
  function PassesOf(k: nat): nat {
    if k == 0 then 0 else PassesOf(k - 1) + if k % WRAP <= MAX_REQUESTS_PER_MINUTE then 1 else 0
  }

  lemma {:induction false} PassesOfShort(k: nat)
    requires k < WRAP
    ensures PassesOf(k) == if k <= MAX_REQUESTS_PER_MINUTE then k else MAX_REQUESTS_PER_MINUTE
  {
    if k > 0 {
      PassesOfShort(k - 1);
    }
  }

  lemma {:induction false} PassesOfLong(k: nat)
    requires k >= WRAP
    ensures PassesOf(k) > MAX_REQUESTS_PER_MINUTE
  {
    if k == WRAP {
      PassesOfShort(k - 1);
    } else {
      PassesOfLong(k - 1);
    }
  }

  /** A window that has not been opened yet is empty. */
  lemma {:induction false} LaterIsEmpty(start: int, trace: seq<Request>, n: nat, w: nat)
    requires n <= |trace| && w > Window(start, trace, n)
    ensures Received(start, trace, n, w) == 0
  {
    if n > 0 {
      LaterIsEmpty(start, trace, n - 1, w);
    }
  }

  lemma CountOn(k: nat)
    ensures (k % WRAP + 1) % WRAP == (k + 1) % WRAP
  {
  }

  /** The counter is the number of requests of the open window, as far as it can count. */
  lemma {:induction false} CounterIsRank(start: int, trace: seq<Request>, n: nat)
    requires n <= |trace|
    ensures StateAt(start, trace, n).requestCount
            == Received(start, trace, n, Window(start, trace, n)) % WRAP
  {
    if n > 0 {
      CounterIsRank(start, trace, n - 1);
      CountOn(Received(start, trace, n - 1, Window(start, trace, n - 1)));
      if Expired(StateAt(start, trace, n - 1), trace[n - 1]) {
        LaterIsEmpty(start, trace, n - 1, Window(start, trace, n));
      }
    }
  }

  lemma {:induction false} PassedByReceived(start: int, trace: seq<Request>, n: nat, w: nat)
    requires n <= |trace|
    ensures Passed(start, trace, n, w) == PassesOf(Received(start, trace, n, w))
  {
    if n > 0 {
      PassedByReceived(start, trace, n - 1, w);
      CounterIsRank(start, trace, n);
    }
  }

  /** At most sixty requests pass in a window exactly when it gets too few requests to wrap the counter. */
  lemma WindowLimitIff(start: int, trace: seq<Request>, n: nat, w: nat)
    requires n <= |trace|
    ensures Passed(start, trace, n, w) <= MAX_REQUESTS_PER_MINUTE <==> Received(start, trace, n, w) < WRAP
  {
    PassedByReceived(start, trace, n, w);
    if Received(start, trace, n, w) < WRAP {
      PassesOfShort(Received(start, trace, n, w));
    } else {
      PassesOfLong(Received(start, trace, n, w));
    }
  }

  /**
   A window opened after request i starts no earlier than that request; requests two windows apart are at
   least a minute apart.
   */
  lemma {:induction false} WindowsAreApart(start: int, trace: seq<Request>, i: nat, n: nat)
    requires Timed(start, trace) && i < n <= |trace|
    ensures Window(start, trace, n) >= Window(start, trace, i + 1)
    ensures Window(start, trace, n) > Window(start, trace, i + 1) ==>
              StateAt(start, trace, n).windowStart >= trace[i].at
    ensures Window(start, trace, n) > Window(start, trace, i + 1) + 1 ==>
              trace[n - 1].at >= trace[i].at + MINUTE
  {
    if n > i + 1 {
      WindowsAreApart(start, trace, i, n - 1);
    }
  }

  /** The passing requests of a minute lie in two consecutive windows. */
  lemma {:induction false} MinuteWithinWindows(start: int, trace: seq<Request>, n: nat, t: int, w: nat)
    requires n <= |trace|
    requires forall i :: 0 <= i < n && InMinute(trace[i], t) ==> w <= Window(start, trace, i + 1) <= w + 1
    ensures PassedInMinute(start, trace, n, t) <= Passed(start, trace, n, w) + Passed(start, trace, n, w + 1)
  {
    if n > 0 {
      MinuteWithinWindows(start, trace, n - 1, t, w);
    }
  }

  lemma {:induction false} NoneInMinute(start: int, trace: seq<Request>, n: nat, t: int)
    requires n <= |trace| && forall i :: 0 <= i < n ==> !InMinute(trace[i], t)
    ensures PassedInMinute(start, trace, n, t) == 0
  {
    if n > 0 {
      NoneInMinute(start, trace, n - 1, t);
    }
  }

  predicate InMinute(r: Request, t: int) {
    t <= r.at < t + MINUTE
  }

  /** The index of the first request of the minute, or the length of the trace. */
  function First(trace: seq<Request>, t: int, from: nat): (first: nat)
    requires from <= |trace|
    requires forall i :: 0 <= i < from ==> !InMinute(trace[i], t)
    ensures from <= first <= |trace|
    ensures forall i :: 0 <= i < first ==> !InMinute(trace[i], t)
    ensures first < |trace| ==> InMinute(trace[first], t)
    decreases |trace| - from
  {
    if from == |trace| || InMinute(trace[from], t) then from else First(trace, t, from + 1)
  }

  /** At most 120 requests pass in any minute, wherever it begins. */
  lemma MinuteLimit(start: int, trace: seq<Request>, t: int)
    requires Timed(start, trace)
    requires forall w :: Received(start, trace, |trace|, w) < WRAP
    ensures PassedInMinute(start, trace, |trace|, t) <= 2 * MAX_REQUESTS_PER_MINUTE
  {
    hide Timed, Received, Passed, PassedInMinute, StateAt, Window;
    var first := First(trace, t, 0);
    if first == |trace| {
      NoneInMinute(start, trace, |trace|, t);
    } else {
      var w := Window(start, trace, first + 1);
      forall i | 0 <= i < |trace| && InMinute(trace[i], t)
        ensures w <= Window(start, trace, i + 1) <= w + 1
      {
        assert i >= first;
        WindowsAreApart(start, trace, first, i + 1);
      }
      MinuteWithinWindows(start, trace, |trace|, t, w);
      WindowLimitIff(start, trace, |trace|, w);
      WindowLimitIff(start, trace, |trace|, w + 1);
    }
  }

  function BurstAt(i: nat): Request {
    var t := if i < 60 then MINUTE - 1 else MINUTE;
    Request(t, t, t)
  }

  /** Sixty requests at the end of the first window and sixty at the start of the next. */
  function Burst(): (burst: seq<Request>)
    ensures |burst| == 120 && forall i :: 0 <= i < 120 ==> burst[i] == BurstAt(i)
  {
    seq(120, i requires 0 <= i < 120 => BurstAt(i))
  }

  lemma BurstStep(i: nat)
    requires i < 120
    ensures var s := if i <= 60 then Limiter(0, i) else Limiter(MINUTE, i - 60);
      && Admitted(s, BurstAt(i)) == (if i < 60 then Limiter(0, i + 1) else Limiter(MINUTE, i - 59))
      && Passes(s, BurstAt(i)) && InMinute(BurstAt(i), MINUTE - 1)
  {
  }

  lemma {:induction false} BurstPasses(n: nat)
    requires n <= 120
    ensures StateAt(0, Burst(), n) == if n <= 60 then Limiter(0, n) else Limiter(MINUTE, n - 60)
    ensures PassedInMinute(0, Burst(), n, MINUTE - 1) == n
  {
    hide Burst, Admitted, Passes, BurstAt;
    if n > 0 {
      BurstPasses(n - 1);
      BurstStep(n - 1);
    }
  }

  /** The bound is reached. */
  lemma MinuteLimitIsTight()
    ensures Timed(0, Burst()) && PassedInMinute(0, Burst(), |Burst()|, MINUTE - 1) == 2 * MAX_REQUESTS_PER_MINUTE
  {
    BurstPasses(120);
  }
}
