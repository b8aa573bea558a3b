/** Windowed circuit breaker in front of the WATCH and dedup Redis calls (gates/redis_circuit.py). */
module RedisCircuit {

  datatype BreakerState = BreakerState(failureCount: int, lastFailureTs: real, circuitOpen: bool)

  const INITIAL := BreakerState(0, 0.0, false)

  function Check(b: BreakerState, window: real, now: real): BreakerState {
    if b.circuitOpen && b.lastFailureTs > 0.0 && now - b.lastFailureTs >= window then
      b.(circuitOpen := false, failureCount := 0)
    else b
  }

  function RecordFailure(b: BreakerState, threshold: int, window: real, now: real): BreakerState {
    var kept := if b.lastFailureTs != 0.0 && now - b.lastFailureTs >= window then 0 else b.failureCount;
    BreakerState(kept + 1, now, b.circuitOpen || kept + 1 >= threshold)
  }

  class RedisCircuitBreaker {
    var failureCount: int
    const failureThreshold: int
    const failureWindowSeconds: real
    var lastFailureTs: real
    var circuitOpen: bool

    constructor (threshold: int, window: real)
      ensures State() == INITIAL && failureThreshold == threshold && failureWindowSeconds == window
    {
      failureCount, lastFailureTs, circuitOpen := 0, 0.0, false;
      failureThreshold, failureWindowSeconds := threshold, window;
    }

    function State(): BreakerState
      reads this
    {
      BreakerState(failureCount, lastFailureTs, circuitOpen)
    }

    /** Lazily resets an elapsed circuit, then reports whether Redis calls must be skipped. */
    method CheckNow(now: real) returns (open: bool)
      modifies this
      ensures State() == Check(old(State()), failureWindowSeconds, now)
      ensures open == circuitOpen
    {
      if circuitOpen && lastFailureTs > 0.0 && now - lastFailureTs >= failureWindowSeconds {
        circuitOpen := false;
        failureCount := 0;
      }
      return circuitOpen;
    }

    method RecordFailureNow(now: real)
      modifies this
      ensures State() == RecordFailure(old(State()), failureThreshold, failureWindowSeconds, now)
    {
      if lastFailureTs != 0.0 && now - lastFailureTs >= failureWindowSeconds {
        failureCount := 0;
      }
      failureCount := failureCount + 1;
      lastFailureTs := now;
      if failureCount >= failureThreshold && !circuitOpen {
        circuitOpen := true;
      }
    }
  }

  // ---------------------------------------------------------------- the protocol, and what it means

  /** One guarded Redis call: the circuit is checked, and only a call let through can fail. */
  datatype Attempt = Attempt(now: real, fails: bool)

  function Guarded(b: BreakerState, threshold: int, window: real, a: Attempt): BreakerState {
    var checked := Check(b, window, a.now);
    if !checked.circuitOpen && a.fails then RecordFailure(checked, threshold, window, a.now) else checked
  }

  function Breaker(h: seq<Attempt>, threshold: int, window: real): BreakerState {
    if h == [] then INITIAL
    else Guarded(Breaker(h[..|h| - 1], threshold, window), threshold, window, h[|h| - 1])
  }

  /** Length of the longest run of failures, counted back from the last, whose successive gaps
      are below the window. */
  function Streak(failures: seq<real>, window: real): nat {
    var n := |failures|;
    if n == 0 then 0
    else if n == 1 || failures[n - 1] - failures[n - 2] >= window then 1
    else 1 + Streak(failures[..n - 1], window)
  }

  /** The specification: open at t exactly when the latest burst reached the threshold less than
      one window ago. */
  predicate OpenAt(failures: seq<real>, threshold: int, window: real, t: real) {
    failures != [] && Streak(failures, window) >= threshold && t - failures[|failures| - 1] < window
  }

  /** The failures that reach the breaker: those of attempts made while it is closed. */
  function Recorded(h: seq<Attempt>, threshold: int, window: real): seq<real> {
    if h == [] then []
    else
      var before, a := Recorded(h[..|h| - 1], threshold, window), h[|h| - 1];
      if a.fails && !OpenAt(before, threshold, window, a.now) then before + [a.now] else before
  }

  predicate Monotone(h: seq<Attempt>) {
    && (forall i :: 0 <= i < |h| ==> h[i].now > 0.0)
    && (forall i, j :: 0 <= i < j < |h| ==> h[i].now <= h[j].now)
  }

  /** Concrete state and failure list agree; the second alternative is a lazily reset circuit. */
  ghost predicate Agree(b: BreakerState, f: seq<real>, threshold: int, window: real, now: real) {
    if f == [] then b == INITIAL
    else
      var last, streak := f[|f| - 1], Streak(f, window);
      && b.lastFailureTs == last && 0.0 < last <= now
      && ((b.failureCount == streak && b.circuitOpen == (streak >= threshold)) ||
          (b.failureCount == 0 && !b.circuitOpen && streak >= threshold && now - last >= window))
  }

  lemma StreakSnoc(f: seq<real>, t: real, window: real)
    ensures Streak(f + [t], window)
         == if f != [] && t - f[|f| - 1] < window then 1 + Streak(f, window) else 1
  {
    assert (f + [t])[..|f|] == f;
  }

  lemma CheckAgrees(b: BreakerState, f: seq<real>, threshold: int, window: real, now: real, t: real)
    requires Agree(b, f, threshold, window, now) && now <= t
    ensures Agree(Check(b, window, t), f, threshold, window, t)
    ensures Check(b, window, t).circuitOpen <==> OpenAt(f, threshold, window, t)
  {
  }

  lemma RecordAgrees(b: BreakerState, f: seq<real>, threshold: int, window: real, t: real)
    requires Agree(b, f, threshold, window, t) && !b.circuitOpen && t > 0.0
    ensures Agree(RecordFailure(b, threshold, window, t), f + [t], threshold, window, t)
  {
    StreakSnoc(f, t, window);
  }

  lemma {:induction false} BreakerRefinesHistory(h: seq<Attempt>, threshold: int, window: real)
    requires Monotone(h) && h != []
    ensures Agree(Breaker(h, threshold, window), Recorded(h, threshold, window), threshold, window, h[|h| - 1].now)
  {
    var init, a := h[..|h| - 1], h[|h| - 1];
    var b, f := Breaker(init, threshold, window), Recorded(init, threshold, window);
    var before := if init == [] then 0.0 else init[|init| - 1].now;
    if init != [] {
      BreakerRefinesHistory(init, threshold, window);
    }
    CheckAgrees(b, f, threshold, window, before, a.now);
    if a.fails && !OpenAt(f, threshold, window, a.now) {
      RecordAgrees(Check(b, window, a.now), f, threshold, window, a.now);
    }
  }

  /** The next check answers exactly what the failure history says. In particular the circuit is
      closed by the first check one window or more after the last failure, and while it is open
      no failure is recorded. */
  lemma CheckMeaning(h: seq<Attempt>, threshold: int, window: real, t: real)
    requires Monotone(h) && (h != [] ==> h[|h| - 1].now <= t)
    ensures Check(Breaker(h, threshold, window), window, t).circuitOpen
        <==> OpenAt(Recorded(h, threshold, window), threshold, window, t)
    ensures Check(Breaker(h, threshold, window), window, t).circuitOpen
        ==> Breaker(h, threshold, window).failureCount >= threshold
    ensures Check(Breaker(h, threshold, window), window, t).circuitOpen
        ==> Recorded(h + [Attempt(t, true)], threshold, window) == Recorded(h, threshold, window)
  {
    assert (h + [Attempt(t, true)])[..|h|] == h;
    if h != [] { BreakerRefinesHistory(h, threshold, window); }
  }

  /** The burst that opens the circuit is never longer than the threshold. */
  lemma {:induction false} StreakNeverExceedsThreshold(h: seq<Attempt>, threshold: int, window: real)
    requires Monotone(h) && threshold >= 1
    ensures Streak(Recorded(h, threshold, window), window) <= threshold
  {
    if h != [] {
      var init, a := h[..|h| - 1], h[|h| - 1];
      StreakNeverExceedsThreshold(init, threshold, window);
      StreakSnoc(Recorded(init, threshold, window), a.now, window);
    }
  }
}
