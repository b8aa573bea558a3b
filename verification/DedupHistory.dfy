/** Gate-level dedup over many runs: which keys are held when, and so exactly which alerts are suppressed
    (gates/dedup.py, validate_and_filter.py). */
module DedupHistory {
  import opened Prelude
  import opened GateTypes
  import opened CandidatePipeline
  import opened GateTheorems
  import opened RedisStore
  import opened Decisions = ValidateAndFilter
  import opened RunTheorems
  import opened WatchHistory

  /** How long a claim holds. */
  function Window(s: Settings, k: DedupKey): real { if k.direction == WATCH then s.watchDedupTtl else s.dedupTtl }

  // ---------------------------------------------------------------- one run

  /** Some item of the run with this key is accepted, the store being as it was before the run. */
  ghost predicate AcceptsKey(d: Decision, db: Keyspace, k: DedupKey) {
    AcceptedBefore(d.env, d.items, db, d.now, |d.items|, k)
  }

  /** The run emits a trade on the key's symbol. */
  predicate TradesSymbol(d: Decision, db: Keyspace, k: DedupKey) {
    k.timeframe == d.env.timeframe
    && exists c :: c in Run(d.env, d.items, db, d.now, true, d.cap).alerts
                   && Directional(c.alert) && c.alert.symbol == k.symbol
  }

  lemma StepHolds(env: GateEnv, item: RawItem, st: Scan, now: real, k: DedupKey, t: real)
    requires DedupWorks(env.settings)
    ensures var o := Evaluate(env, item, st.db, now, true);
      DedupLive(ScanStep(env, item, st, now, true).db, k, t)
      <==> DedupLive(st.db, k, t)
           || (o.Accepted? && KeyOf(env, o.alert) == k && t < now + Window(env.settings, k))
  {
    match ParseAlert(item)
    case None =>
    case Some(a) => ClaimMeaning(env.settings, st.db, KeyOf(env, Journey(env, a).alert), k, now, t);
  }

  function HeldAfter(d: Decision, db: Keyspace, k: DedupKey, t: real): nat -> bool {
    (j: nat) => j <= |d.items| && DedupLive(ScanAll(d.env, d.items[..j], db, d.now, true).db, k, t)
  }

  function ClaimsAt(d: Decision, db: Keyspace, k: DedupKey, t: real): nat -> bool {
    (j: nat) => AcceptsAt(d.env, d.items, db, d.now, k)(j) && t < d.now + Window(d.env.settings, k)
  }

  lemma HoldsNext(d: Decision, db: Keyspace, j: nat, k: DedupKey, t: real)
    requires DedupWorks(d.env.settings) && j < |d.items|
    ensures HeldAfter(d, db, k, t)(j + 1) <==> HeldAfter(d, db, k, t)(j) || ClaimsAt(d, db, k, t)(j)
  {
    var o := OutcomeAt(d.env, d.items, db, d.now, j);
    ScanPrefix(d.env, d.items, j, db, d.now, true);
    StepHolds(d.env, d.items[j], ScanAll(d.env, d.items[..j], db, d.now, true), d.now, k, t);
    assert AcceptsAt(d.env, d.items, db, d.now, k)(j) <==> o.Accepted? && KeyOf(d.env, o.alert) == k;
  }

  lemma SomeClaims(d: Decision, db: Keyspace, k: DedupKey, t: real)
    ensures (exists j: nat :: j < |d.items| && ClaimsAt(d, db, k, t)(j))
       <==> AcceptsKey(d, db, k) && t < d.now + Window(d.env.settings, k)
  {
    AcceptedIs(d.env, d.items, db, d.now, |d.items|, k);
    if AcceptsKey(d, db, k) && t < d.now + Window(d.env.settings, k) {
      var j: nat :| j < |d.items| && AcceptsAt(d.env, d.items, db, d.now, k)(j);
      assert ClaimsAt(d, db, k, t)(j);
    }
  }

  /** During a run the held keys grow by those of the accepted items. */
  lemma ScanHolds(d: Decision, db: Keyspace, k: DedupKey, t: real)
    requires DedupWorks(d.env.settings)
    ensures DedupLive(ScanAll(d.env, d.items, db, d.now, true).db, k, t)
       <==> DedupLive(db, k, t) || (AcceptsKey(d, db, k) && t < d.now + Window(d.env.settings, k))
  {
    var n, held, claims := |d.items|, HeldAfter(d, db, k, t), ClaimsAt(d, db, k, t);
    forall j: nat | j < n ensures held(j + 1) <==> held(j) || claims(j) { HoldsNext(d, db, j, k, t); }
    Accumulates(held, claims, n);
    assert d.items[..0] == [] && d.items[..n] == d.items;
    SomeClaims(d, db, k, t);
  }

  /** The end of a run forgets the keys of the symbols it trades, and no others. */
  lemma FinishHolds(env: GateEnv, st: Scan, now: real, cap: nat, k: DedupKey, t: real)
    ensures var r := Finish(env, st, now, true, cap);
            var traded := k.timeframe == env.timeframe
                          && exists c :: c in r.alerts && Directional(c.alert) && c.alert.symbol == k.symbol;
      DedupLive(r.db, k, t) <==> DedupLive(st.db, k, t) && !traded
  {
    var s := env.settings;
    var directional, watches := Keep(st.alerts, IsDirectional()), Keep(st.alerts, IsWatch());
    var prev := PrevStatesOf(st.db, watches, env.timeframe, now, true);
    var sel := SelectWatches(s, st.db, watches, directional != [], prev, env.timeframe, cap, now, true);
    var done := CommitWatches(s, st.db, sel.kept, prev, env.timeframe, now, true);
    CommitTouchesNoDedup(s, st.db, sel.kept, prev, env.timeframe, now, true);
    EmittedTrades(env, st, now, cap, k.symbol);
    SymbolsAre(directional);
  }

  /** The trades a run emits are the trades it accepted. */
  lemma EmittedTrades(env: GateEnv, st: Scan, now: real, cap: nat, sym: string)
    ensures (exists c :: c in Finish(env, st, now, true, cap).alerts && Directional(c.alert) && c.alert.symbol == sym)
       <==> sym in SymbolSet(Keep(st.alerts, IsDirectional()))
  {
    var directional, out := Keep(st.alerts, IsDirectional()), Finish(env, st, now, true, cap).alerts;
    if c :| c in out && Directional(c.alert) && c.alert.symbol == sym {
      var d := EmittedWasAccepted(env, st, now, true, cap, c);
      assert d in directional;
    }
    if sym in SymbolSet(directional) {
      var c :| c in directional && c.alert.symbol == sym;
      assert c in out;
    }
  }

  /** What one run does to one key. */
  lemma RunHolds(d: Decision, db: Keyspace, k: DedupKey, t: real)
    requires DedupWorks(d.env.settings)
    ensures DedupLive(Run(d.env, d.items, db, d.now, true, d.cap).db, k, t)
       <==> !TradesSymbol(d, db, k)
            && (DedupLive(db, k, t) || (AcceptsKey(d, db, k) && t < d.now + Window(d.env.settings, k)))
  {
    ScanHolds(d, db, k, t);
    FinishHolds(d.env, ScanAll(d.env, d.items, db, d.now, true), d.now, d.cap, k, t);
  }

  // ---------------------------------------------------------------- many runs

  /** Run i accepted the key less than its window before t, and neither it nor a later one of the first n
      traded the symbol. */
  ghost predicate HeldBy(h: seq<Decision>, i: nat, n: nat, k: DedupKey, t: real)
    requires i < n <= |h|
  {
    && AcceptsKey(h[i], StoreAfter(h[..i]), k) && t < h[i].now + Window(h[i].env.settings, k)
    && forall j :: i <= j < n ==> !TradesSymbol(h[j], StoreAfter(h[..j]), k)
  }

  ghost predicate Held(h: seq<Decision>, n: nat, k: DedupKey, t: real)
    requires n <= |h|
  {
    exists i :: 0 <= i < n && HeldBy(h, i, n, k, t)
  }

  lemma StoreNext(h: seq<Decision>, n: nat)
    requires n < |h|
    ensures StoreAfter(h[..n + 1]) == Run(h[n].env, h[n].items, StoreAfter(h[..n]), h[n].now, true, h[n].cap).db
  {
    assert h[..n + 1][..n] == h[..n];
  }

  lemma HeldNext(h: seq<Decision>, n: nat, k: DedupKey, t: real)
    requires n < |h|
    ensures Held(h, n + 1, k, t)
       <==> !TradesSymbol(h[n], StoreAfter(h[..n]), k)
            && (Held(h, n, k, t)
                || (AcceptsKey(h[n], StoreAfter(h[..n]), k) && t < h[n].now + Window(h[n].env.settings, k)))
  {
    if Held(h, n + 1, k, t) {
      var i :| 0 <= i < n + 1 && HeldBy(h, i, n + 1, k, t);
      if i < n { assert HeldBy(h, i, n, k, t); }
    }
    if !TradesSymbol(h[n], StoreAfter(h[..n]), k) {
      if Held(h, n, k, t) {
        var i :| 0 <= i < n && HeldBy(h, i, n, k, t);
        assert HeldBy(h, i, n + 1, k, t);
      }
      if AcceptsKey(h[n], StoreAfter(h[..n]), k) && t < h[n].now + Window(h[n].env.settings, k) {
        assert HeldBy(h, n, n + 1, k, t);
      }
    }
  }

  lemma HeldStep(h: seq<Decision>, n: nat, k: DedupKey, t: real)
    requires n < |h| && DedupWorks(h[n].env.settings)
    requires DedupLive(StoreAfter(h[..n]), k, t) <==> Held(h, n, k, t)
    ensures DedupLive(StoreAfter(h[..n + 1]), k, t) <==> Held(h, n + 1, k, t)
  {
    StoreNext(h, n);
    RunHolds(h[n], StoreAfter(h[..n]), k, t);
    HeldNext(h, n, k, t);
  }

  lemma NothingHeld(h: seq<Decision>, k: DedupKey, t: real)
    ensures !DedupLive(StoreAfter(h[..0]), k, t) && !Held(h, 0, k, t)
  {}

  /** Over any sequence of runs a key is held exactly while the window of some acceptance lasts and no
      trade on its symbol has been emitted since. */
  lemma {:induction false} HeldMeaning(h: seq<Decision>, n: nat, k: DedupKey, t: real)
    requires n <= |h| && forall i :: 0 <= i < |h| ==> DedupWorks(h[i].env.settings)
    ensures DedupLive(StoreAfter(h[..n]), k, t) <==> Held(h, n, k, t)
  {
    if n == 0 {
      NothingHeld(h, k, t);
    } else {
      HeldMeaning(h, n - 1, k, t);
      HeldStep(h, n - 1, k, t);
    }
  }

  /** When an item that passes every gate is suppressed, trade or watch: exactly when an earlier item of
      its run with the same key was accepted, or its key is still held from an earlier run. */
  lemma {:induction false} SuppressionMeaning(h: seq<Decision>, d: Decision, i: nat, a: Alert)
    requires DedupWorks(d.env.settings) && forall j :: 0 <= j < |h| ==> DedupWorks(h[j].env.settings)
    requires i < |d.items| && ParseAlert(d.items[i]) == Some(a) && ValidTimeframe(a.timeframe) && Passes(d.env, a)
    ensures OutcomeAt(d.env, d.items, StoreAfter(h), d.now, i).DedupSuppressed?
       <==> AcceptedBefore(d.env, d.items, StoreAfter(h), d.now, i, KeyOf(d.env, a))
            || Held(h, |h|, KeyOf(d.env, a), d.now)
  {
    var db, k := StoreAfter(h), KeyOf(d.env, FinalAlert(d.env, a));
    assert h[..|h|] == h;
    HeldMeaning(h, |h|, k, d.now);
    LiveDuringScan(d.env, d.items, db, d.now, i, k);
    PipelineRefinesGates(d.env, a);
    var live := Suppressed(d.env.settings, ScanAll(d.env, d.items[..i], db, d.now, true).db, k, d.now, true);
    VerdictMeaning(d.env, a, live);
    assert k == KeyOf(d.env, a);
  }
}
