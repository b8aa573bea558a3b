/** The WATCH-cycle hashes and dedup keys in Redis, behind the circuit breaker
    (gates/watch.py, gates/dedup.py). */
module RedisStore {
  import opened Prelude
  import opened GateTypes
  import opened RedisCircuit

  datatype WatchKey = WatchKey(timeframe: string, symbol: string)

  datatype DedupKey = DedupKey(timeframe: string, direction: Direction, symbol: string)

  datatype WatchState = WatchState(cycles: int, lastEp: real, lastConf: real, expiry: real)

  /** The stored keys; a key at or past its expiry counts as absent. */
  datatype Keyspace = Keyspace(watch: map<WatchKey, WatchState>, dedup: map<DedupKey, real>)

  predicate WatchLive(db: Keyspace, k: WatchKey, now: real) { k in db.watch && now < db.watch[k].expiry }

  predicate DedupLive(db: Keyspace, k: DedupKey, now: real) { k in db.dedup && now < db.dedup[k] }

  // Each effect below takes `on`: whether Redis answers. When it does not, the caller sees the
  // fail-open default and nothing is stored.

  function Cycles(db: Keyspace, k: WatchKey, now: real, on: bool): int {
    if on && WatchLive(db, k, now) then db.watch[k].cycles else 0
  }

  function PrevEp(db: Keyspace, k: WatchKey, now: real, on: bool): Option<real> {
    if on && WatchLive(db, k, now) then Some(db.watch[k].lastEp) else None
  }

  function Incremented(s: Settings, db: Keyspace, k: WatchKey, ep: real, conf: real, now: real, on: bool): Keyspace {
    if !on then db
    else db.(watch := db.watch[k := WatchState(Cycles(db, k, now, true) + 1, ep, conf, now + s.watchDecayTtl)])
  }

  function DedupTtl(s: Settings, d: Direction): real { if d == WATCH then s.watchDedupTtl else s.dedupTtl }

  predicate Suppressed(s: Settings, db: Keyspace, k: DedupKey, now: real, on: bool) {
    s.dedupEnabled && on && DedupLive(db, k, now)
  }

  function Claimed(s: Settings, db: Keyspace, k: DedupKey, now: real, on: bool): Keyspace {
    if !s.dedupEnabled || !on || DedupLive(db, k, now) then db
    else db.(dedup := db.dedup[k := now + DedupTtl(s, k.direction)])
  }

  /** A claimed key is live for its own window from the claim on, a shorter or longer one for a WATCH than
      for a trade; a key already live keeps its window, and no other key is touched. */
  lemma ClaimMeaning(s: Settings, db: Keyspace, k: DedupKey, j: DedupKey, now: real, t: real)
    requires s.dedupEnabled
    ensures var db' := Claimed(s, db, k, now, true);
      && (j != k || (k in db.dedup && now < db.dedup[k]) ==> (DedupLive(db', j, t) <==> DedupLive(db, j, t)))
      && (!(k in db.dedup && now < db.dedup[k]) && k.direction == WATCH ==>
            (DedupLive(db', k, t) <==> t < now + s.watchDedupTtl))
      && (!(k in db.dedup && now < db.dedup[k]) && k.direction != WATCH ==>
            (DedupLive(db', k, t) <==> t < now + s.dedupTtl))
  {}

  function WatchForgotten(db: Keyspace, symbols: seq<string>, timeframe: string, on: bool): Keyspace {
    if !on then db
    else db.(watch := map k | k in db.watch && !(k.timeframe == timeframe && k.symbol in symbols) :: db.watch[k])
  }

  function DedupForgotten(db: Keyspace, symbols: seq<string>, timeframe: string, on: bool): Keyspace {
    if !on then db
    else db.(dedup := map k | k in db.dedup && !(k.timeframe == timeframe && k.symbol in symbols) :: db.dedup[k])
  }

  lemma DirectionsOf(timeframe: string, sym: string)
    ensures forall k: DedupKey :: k.timeframe == timeframe && k.symbol == sym ==>
              k in {DedupKey(timeframe, LONG, sym), DedupKey(timeframe, SHORT, sym), DedupKey(timeframe, WATCH, sym)}
  {
    forall k: DedupKey | k.timeframe == timeframe && k.symbol == sym
      ensures k in {DedupKey(timeframe, LONG, sym), DedupKey(timeframe, SHORT, sym), DedupKey(timeframe, WATCH, sym)}
    {
      match k.direction case LONG => case SHORT => case WATCH =>
    }
  }

  class RedisClient {
    var db: Keyspace
    var up: bool
    var now: real
    const breaker: RedisCircuitBreaker

    constructor (threshold: int, window: real)
      ensures db == Keyspace(map[], map[]) && up && fresh(breaker) && breaker.State() == INITIAL
    {
      db, up, now := Keyspace(map[], map[]), true, 0.0;
      breaker := new RedisCircuitBreaker(threshold, window);
    }

    predicate CircuitOpen()
      reads this, breaker
    {
      Check(breaker.State(), breaker.failureWindowSeconds, now).circuitOpen
    }

    /** Redis answers: it is reachable and the circuit is, or has just become, closed. */
    predicate On()
      reads this, breaker
    {
      up && !CircuitOpen()
    }

    /** The breaker once one guarded call is over: checked, and told of a failure if the call was let
        through and Redis is down. */
    function AfterCall(): BreakerState
      reads this, breaker
    {
      Guarded(breaker.State(), breaker.failureThreshold, breaker.failureWindowSeconds, Attempt(now, !up))
    }

    method GetWatchCycles(symbol: string, timeframe: string) returns (cycles: int)
      modifies breaker
      ensures cycles == Cycles(db, WatchKey(timeframe, symbol), now, old(On()))
      ensures breaker.State() == old(AfterCall()) && On() == old(On())
    {
      var open := breaker.CheckNow(now);
      if open { return 0; }
      if !up {
        breaker.RecordFailureNow(now);
        return 0;
      }
      var k := WatchKey(timeframe, symbol);
      return if k in db.watch && now < db.watch[k].expiry then db.watch[k].cycles else 0;
    }

    method GetWatchPrevEp(symbol: string, timeframe: string) returns (prev: Option<real>)
      modifies breaker
      ensures prev == PrevEp(db, WatchKey(timeframe, symbol), now, old(On()))
      ensures breaker.State() == old(AfterCall()) && On() == old(On())
    {
      var open := breaker.CheckNow(now);
      if open { return None; }
      if !up {
        breaker.RecordFailureNow(now);
        return None;
      }
      var k := WatchKey(timeframe, symbol);
      return if k in db.watch && now < db.watch[k].expiry then Some(db.watch[k].lastEp) else None;
    }

    method IncrWatchCycles(s: Settings, symbol: string, timeframe: string, ep: real, conf: real)
      returns (cycles: int)
      modifies this`db, breaker
      ensures db == Incremented(s, old(db), WatchKey(timeframe, symbol), ep, conf, now, old(On()))
      ensures cycles == Cycles(old(db), WatchKey(timeframe, symbol), now, old(On())) + (if old(On()) then 1 else 0)
      ensures breaker.State() == old(AfterCall()) && On() == old(On())
    {
      var open := breaker.CheckNow(now);
      if open { return 0; }
      if !up {
        breaker.RecordFailureNow(now);
        return 0;
      }
      var k := WatchKey(timeframe, symbol);
      var before := if k in db.watch && now < db.watch[k].expiry then db.watch[k].cycles else 0;
      db := db.(watch := db.watch[k := WatchState(before + 1, ep, conf, now + s.watchDecayTtl)]);
      return before + 1;
    }

    method ResetWatchCycles(symbols: seq<string>, timeframe: string)
      modifies this`db, breaker
      ensures db == WatchForgotten(old(db), symbols, timeframe, old(On()))
      ensures breaker.State() == old(AfterCall()) && On() == old(On())
    {
      var open := breaker.CheckNow(now);
      if open { return; }
      if !up {
        breaker.RecordFailureNow(now);
        return;
      }
      for i := 0 to |symbols|
        invariant db == WatchForgotten(old(db), symbols[..i], timeframe, true)
        invariant breaker.State() == old(AfterCall()) && On()
      {
        db := db.(watch := db.watch - {WatchKey(timeframe, symbols[i])});
      }
      assert symbols[..|symbols|] == symbols;
    }

    method ResetDedupKeys(symbols: seq<string>, timeframe: string)
      modifies this`db, breaker
      ensures db == DedupForgotten(old(db), symbols, timeframe, old(On()))
      ensures breaker.State() == old(AfterCall()) && On() == old(On())
    {
      var open := breaker.CheckNow(now);
      if open { return; }
      if !up {
        breaker.RecordFailureNow(now);
        return;
      }
      for i := 0 to |symbols|
        invariant db == DedupForgotten(old(db), symbols[..i], timeframe, true)
        invariant breaker.State() == old(AfterCall()) && On()
      {
        var sym := symbols[i];
        DirectionsOf(timeframe, sym);
        db := db.(dedup := db.dedup - {DedupKey(timeframe, LONG, sym)});
        db := db.(dedup := db.dedup - {DedupKey(timeframe, SHORT, sym)});
        db := db.(dedup := db.dedup - {DedupKey(timeframe, WATCH, sym)});
      }
      assert symbols[..|symbols|] == symbols;
    }

    /** SET NX EX: true means an unexpired key already exists and the alert is suppressed. */
    method TryDedupSet(s: Settings, symbol: string, direction: Direction, timeframe: string) returns (suppress: bool)
      modifies this`db, breaker
      ensures suppress == Suppressed(s, old(db), DedupKey(timeframe, direction, symbol), now, old(On()))
      ensures db == Claimed(s, old(db), DedupKey(timeframe, direction, symbol), now, old(On()))
      ensures breaker.State() == old(if s.dedupEnabled then AfterCall() else breaker.State())
      ensures On() == old(On())
    {
      if !s.dedupEnabled { return false; }
      var open := breaker.CheckNow(now);
      if open { return false; }
      if !up {
        breaker.RecordFailureNow(now);
        return false;
      }
      var k := DedupKey(timeframe, direction, symbol);
      if k in db.dedup && now < db.dedup[k] { return true; }
      db := db.(dedup := db.dedup[k := now + (if direction == WATCH then s.watchDedupTtl else s.dedupTtl)]);
      return false;
    }
  }
}
