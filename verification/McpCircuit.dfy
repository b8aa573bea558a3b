/** Per-endpoint circuit breaker on consecutive failures (resilience/circuit_breaker.py). */
module McpCircuit {
  import opened Prelude

  datatype CircuitState = CircuitState(failures: nat, openUntil: real)

  class CircuitBreakerRegistry {
    const failureThreshold: int
    const openDuration: real
    var circuits: map<string, CircuitState>
    /** Every success and failure reported so far. */
    ghost var history: seq<Event>

    constructor (threshold: int, duration: real)
      ensures Valid() && history == [] && failureThreshold == threshold && openDuration == duration
    {
      failureThreshold, openDuration, circuits, history := threshold, duration, map[], [];
    }

    /** The circuits are those the history leads to. */
    ghost predicate Valid()
      reads this
    {
      forall k :: StateOf(k) == StateAfter(history, k, failureThreshold, openDuration)
    }

    /** The circuit of an endpoint; an unknown endpoint has a fresh one. */
    function StateOf(key: string): CircuitState
      reads this
    {
      if key in circuits then circuits[key] else CircuitState(0, 0.0)
    }

    method IsOpen(key: string, now: real) returns (open: bool)
      requires Valid()
      modifies this`circuits
      ensures Valid() && forall k :: StateOf(k) == old(StateOf(k))
      ensures open == OpenAt(StateAfter(history, key, failureThreshold, openDuration), failureThreshold, now)
    {
      if key !in circuits { circuits := circuits[key := CircuitState(0, 0.0)]; }
      return circuits[key].failures >= failureThreshold && now < circuits[key].openUntil;
    }

    method RecordSuccess(key: string)
      requires Valid()
      modifies this`circuits, this`history
      ensures Valid() && history == old(history) + [Succeeded(key)]
      ensures forall k :: StateOf(k) == if k == key then CircuitState(0, 0.0) else old(StateOf(k))
    {
      circuits := circuits[key := CircuitState(0, 0.0)];
      history := history + [Succeeded(key)];
    }

    method RecordFailure(key: string, now: real) returns (tripped: bool)
      requires Valid()
      modifies this`circuits, this`history
      ensures Valid() && history == old(history) + [FailedAt(key, now)]
      ensures forall k :: StateOf(k) == if k == key then Failed(old(StateOf(k)), failureThreshold, openDuration, now)
                                        else old(StateOf(k))
      ensures tripped == (StateOf(key).failures >= failureThreshold)
    {
      history := history + [FailedAt(key, now)];
      var c := StateOf(key);
      c := c.(failures := c.failures + 1);
      if c.failures >= failureThreshold {
        c := c.(openUntil := now + openDuration);
        circuits := circuits[key := c];
        return true;
      }
      circuits := circuits[key := c];
      return false;
    }

    method SecondsUntilClose(key: string, now: real) returns (seconds: real)
      requires Valid()
      modifies this`circuits
      ensures Valid()
      ensures seconds == Max(0.0, old(StateOf(key)).openUntil - now)
      ensures forall k :: StateOf(k) == old(StateOf(k))
    {
      if key !in circuits { circuits := circuits[key := CircuitState(0, 0.0)]; }
      return Max(0.0, circuits[key].openUntil - now);
    }
  }

  /** Calls to the endpoint are held back: enough failures, and the deadline is still ahead. */
  predicate OpenAt(c: CircuitState, threshold: int, now: real) { c.failures >= threshold && now < c.openUntil }

  function Failed(c: CircuitState, threshold: int, duration: real, now: real): CircuitState {
    CircuitState(c.failures + 1, if c.failures + 1 >= threshold then now + duration else c.openUntil)
  }

  // ---------------------------------------------------------------- event histories

  datatype Event = Succeeded(key: string) | FailedAt(key: string, time: real)

  function StateAfter(h: seq<Event>, key: string, threshold: int, duration: real): CircuitState {
    if h == [] then CircuitState(0, 0.0)
    else
      var before, e := StateAfter(h[..|h| - 1], key, threshold, duration), h[|h| - 1];
      if e.key != key then before
      else if e.Succeeded? then CircuitState(0, 0.0)
      else Failed(before, threshold, duration, e.time)
  }

  /** The times of the key's failures since its last success. */
  function Burst(h: seq<Event>, key: string): seq<real> {
    if h == [] then []
    else
      var e := h[|h| - 1];
      if e.key != key then Burst(h[..|h| - 1], key)
      else if e.Succeeded? then []
      else Burst(h[..|h| - 1], key) + [e.time]
  }

  /** The registry refines its history: open at t exactly when the failures since the last success
      reached the threshold and the latest of them is less than `duration` old; below the threshold
      no deadline is set. */
  lemma {:induction false} OpenMeaning(h: seq<Event>, key: string, threshold: int, duration: real, t: real)
    requires t >= 0.0
    ensures var c, burst := StateAfter(h, key, threshold, duration), Burst(h, key);
      && c.failures == |burst|
      && (c.failures < threshold ==> c.openUntil == 0.0)
      && (OpenAt(c, threshold, t)
          <==> burst != [] && |burst| >= threshold && t < burst[|burst| - 1] + duration)
      && (burst != [] && |burst| >= threshold ==> c.openUntil == burst[|burst| - 1] + duration)
      && (burst == [] ==> c.openUntil == 0.0)
  {
    if h != [] { OpenMeaning(h[..|h| - 1], key, threshold, duration, t); }
  }

  /** Endpoints are independent: deleting every event of other endpoints changes nothing. */
  lemma {:induction false} EndpointsAreIndependent(h: seq<Event>, key: string, threshold: int, duration: real)
    ensures StateAfter(h, key, threshold, duration) == StateAfter(Keep(h, OfKey(key)), key, threshold, duration)
  {
    if h != [] {
      var init, e := h[..|h| - 1], h[|h| - 1];
      EndpointsAreIndependent(init, key, threshold, duration);
      assert h == init + [e];
      KeepSnoc(init, e, OfKey(key));
      var kept := Keep(init, OfKey(key));
      if e.key == key {
        StateSnoc(init, e, key, threshold, duration);
        StateSnoc(kept, e, key, threshold, duration);
      } else {
        assert kept + [] == kept;
      }
    }
  }

  lemma StateSnoc(h: seq<Event>, e: Event, key: string, threshold: int, duration: real)
    requires e.key == key
    ensures StateAfter(h + [e], key, threshold, duration)
         == if e.Succeeded? then CircuitState(0, 0.0)
            else Failed(StateAfter(h, key, threshold, duration), threshold, duration, e.time)
  {
    assert (h + [e])[..|h|] == h;
  }

  function OfKey(key: string): Event -> bool { (e: Event) => e.key == key }
}
