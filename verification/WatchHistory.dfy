/** Many runs against one Redis: the stored WATCH-cycle count is the number of emissions in the
    current streak and never exceeds the decay limit; and which dedup keys a run leaves behind. */
module WatchHistory {
  import opened Prelude
  import opened GateTypes
  import opened CandidatePipeline
  import opened GateTheorems
  import opened RedisStore
  import opened ValidateAndFilter
  import opened RunTheorems

  // ---------------------------------------------------------------- one acceptance per key and run

  /** In-run uniqueness: accepted alerts have distinct dedup keys, all of them now claimed. */
  ghost predicate UniqueKeys(tf: string, st: Scan, now: real) {
    && InjectiveOn(multiset(st.alerts), KeyIn(tf))
    && (forall c :: c in st.alerts ==> DedupLive(st.db, KeyIn(tf)(c), now))
  }

  /** Dedup is on and its keys outlive the instant they are set. */
  predicate DedupWorks(s: Settings) { s.dedupEnabled && s.dedupTtl > 0.0 && s.watchDedupTtl > 0.0 }

  lemma EvaluationClaims(env: GateEnv, item: RawItem, db: Keyspace, now: real)
    ensures DbAfter(env, item, db, now, true).watch == db.watch
    ensures forall k :: DedupLive(db, k, now) ==> DedupLive(DbAfter(env, item, db, now, true), k, now)
    ensures var o := Evaluate(env, item, db, now, true);
            o.Accepted? && DedupWorks(env.settings) ==>
              && !DedupLive(db, KeyOf(env, o.alert), now)
              && DedupLive(DbAfter(env, item, db, now, true), KeyOf(env, o.alert), now)
  {
    match ParseAlert(item)
    case None =>
    case Some(a) =>
      var k := KeyOf(env, Journey(env, a).alert);
      ClaimKeepsOthers(env.settings, db, k, now);
  }

  lemma ClaimKeepsOthers(s: Settings, db: Keyspace, k: DedupKey, now: real)
    ensures var db' := Claimed(s, db, k, now, true);
      && db'.watch == db.watch
      && (forall j :: DedupLive(db, j, now) ==> DedupLive(db', j, now))
      && (DedupWorks(s) ==> DedupLive(db', k, now))
  {
  }

  lemma {:induction false} ScanKeysUnique(env: GateEnv, items: seq<RawItem>, db: Keyspace, now: real)
    requires DedupWorks(env.settings)
    ensures UniqueKeys(env.timeframe, ScanAll(env, items, db, now, true), now)
    ensures ScanAll(env, items, db, now, true).db.watch == db.watch
  {
    if items != [] {
      var init, last := items[..|items| - 1], items[|items| - 1];
      var st := ScanAll(env, init, db, now, true);
      ScanKeysUnique(env, init, db, now);
      ScanStepUnique(env, last, st, now);
    }
  }

  lemma ScanStepUnique(env: GateEnv, item: RawItem, st: Scan, now: real)
    requires DedupWorks(env.settings) && UniqueKeys(env.timeframe, st, now)
    ensures var st' := ScanStep(env, item, st, now, true);
      UniqueKeys(env.timeframe, st', now) && st'.db.watch == st.db.watch
  {
    EvaluationClaims(env, item, st.db, now);
    KeysStep(env, st, DbAfter(env, item, st.db, now, true), Evaluate(env, item, st.db, now, true), now);
  }

  lemma KeysStep(env: GateEnv, st: Scan, db: Keyspace, o: Outcome, now: real)
    requires UniqueKeys(env.timeframe, st, now)
    requires forall k :: DedupLive(st.db, k, now) ==> DedupLive(db, k, now)
    requires o.Accepted? ==> !DedupLive(st.db, KeyOf(env, o.alert), now) && DedupLive(db, KeyOf(env, o.alert), now)
    ensures UniqueKeys(env.timeframe, Absorb(st, db, o), now)
  {
    if o.Accepted? {
      var c := Candidate(|st.candidates|, o.alert);
      assert KeyIn(env.timeframe)(c) == KeyOf(env, o.alert);
      InjectiveSnoc(st.alerts, c, KeyIn(env.timeframe));
    }
  }

  ghost predicate DistinctSymbols(cs: seq<Candidate>) {
    forall i, j :: 0 <= i < j < |cs| ==> cs[i].alert.symbol != cs[j].alert.symbol
  }

  lemma WatchSymbolsDistinct(cs: seq<Candidate>, tf: string)
    requires InjectiveOn(multiset(cs), KeyIn(tf)) && forall c :: c in cs ==> c.alert.direction == WATCH
    ensures DistinctSymbols(cs)
  {
    forall i, j | 0 <= i < j < |cs| ensures cs[i].alert.symbol != cs[j].alert.symbol {
      assert cs == cs[..j] + ([cs[j]] + cs[j + 1..]);
      assert cs[i] in cs[..j];
      assert multiset(cs) == multiset(cs[..j]) + (multiset{cs[j]} + multiset(cs[j + 1..]));
      assert cs[i] in multiset(cs) && cs[j] in multiset(cs);
      assert KeyIn(tf)(cs[i]).symbol == cs[i].alert.symbol && KeyIn(tf)(cs[j]).symbol == cs[j].alert.symbol;
      assert cs[i] in cs && cs[j] in cs;
    }
  }

  // ---------------------------------------------------------------- what a run does to the cycle hashes

  function SymbolSet(cs: seq<Candidate>): set<string> { set c | c in cs :: c.alert.symbol }

  lemma SymbolSetSnoc(kept: seq<Candidate>)
    requires kept != [] && DistinctSymbols(kept)
    ensures var init, last := kept[..|kept| - 1], kept[|kept| - 1];
      SymbolSet(kept) == SymbolSet(init) + {last.alert.symbol} && last.alert.symbol !in SymbolSet(init)
  {
    var init, last := kept[..|kept| - 1], kept[|kept| - 1];
    assert kept == init + [last];
    forall c ensures c in kept <==> c in init || c == last {}
    forall c | c in init ensures c.alert.symbol != last.alert.symbol {
      var i :| 0 <= i < |init| && init[i] == c;
      assert kept[i] == c;
    }
  }

  /** The edge of the last of the candidates with this symbol. */
  function EdgeOf(cs: seq<Candidate>, sym: string): real {
    if cs == [] then 0.0
    else if cs[|cs| - 1].alert.symbol == sym then cs[|cs| - 1].alert.edgeProbability
    else EdgeOf(cs[..|cs| - 1], sym)
  }

  /** Each symbol emitted was counted once more, with its edge noted and its expiry renewed; other keys
      are as before. */
  ghost predicate Counted(s: Settings, db: Keyspace, db': Keyspace, emitted: seq<Candidate>, tf: string, now: real,
                          k: WatchKey)
  {
    if k.timeframe == tf && k.symbol in SymbolSet(emitted) then
      && k in db'.watch && db'.watch[k].cycles == Cycles(db, k, now, true) + 1
      && db'.watch[k].lastEp == EdgeOf(emitted, k.symbol)
      && db'.watch[k].expiry == now + s.watchDecayTtl
    else (k in db'.watch <==> k in db.watch) && (k in db.watch ==> db'.watch[k] == db.watch[k])
  }

  lemma CountOneMore(s: Settings, db: Keyspace, db1: Keyspace, emitted: seq<Candidate>, tf: string, now: real,
                     w: Candidate, k: WatchKey)
    requires Counted(s, db, db1, emitted, tf, now, k) && w.alert.symbol !in SymbolSet(emitted)
    requires SymbolSet(emitted + [w]) == SymbolSet(emitted) + {w.alert.symbol}
    ensures Counted(s, db, Incremented(s, db1, WatchKey(tf, w.alert.symbol), w.alert.edgeProbability,
                                       w.alert.confidence, now, true), emitted + [w], tf, now, k)
  {
    assert (emitted + [w])[..|emitted|] == emitted;
  }

  lemma {:induction false} CommitEffect(s: Settings, db: Keyspace, kept: seq<Candidate>, prev: PrevStates, tf: string,
                                        now: real, k: WatchKey)
    requires DistinctSymbols(kept)
    ensures Counted(s, db, CommitWatches(s, db, kept, prev, tf, now, true).db, kept, tf, now, k)
  {
    if kept != [] {
      var init, last := kept[..|kept| - 1], kept[|kept| - 1];
      CommitEffect(s, db, init, prev, tf, now, k);
      SymbolSetSnoc(kept);
      assert kept == init + [last];
      CountOneMore(s, db, CommitWatches(s, db, init, prev, tf, now, true).db, init, tf, now, last, k);
    }
  }

  /** The symbols a run emits as WATCH, each with the edge it is emitted with, and those it emits as
      trades. */
  datatype RunRecord = RunRecord(now: real, timeframe: string, watched: map<string, real>, graduated: set<string>)

  function RecordOf(env: GateEnv, out: seq<Candidate>, now: real): RunRecord {
    var watches := Keep(out, IsWatch());
    RunRecord(now, env.timeframe, map sym | sym in SymbolSet(watches) :: EdgeOf(watches, sym),
              SymbolSet(Keep(out, IsDirectional())))
  }

  predicate Emits(r: RunRecord, k: WatchKey) { r.timeframe == k.timeframe && k.symbol in r.watched }

  predicate Graduates(r: RunRecord, k: WatchKey) { r.timeframe == k.timeframe && k.symbol in r.graduated }

  /** The effect of a run on one cycle hash, in terms of its emitted alerts only. */
  ghost predicate CycleEffect(s: Settings, before: Keyspace, after: Keyspace, r: RunRecord, k: WatchKey) {
    if Graduates(r, k) then k !in after.watch
    else if Emits(r, k) then
      && k in after.watch
      && after.watch[k].cycles == Cycles(before, k, r.now, true) + 1 <= s.watchDecayCycles
      && after.watch[k].lastEp == r.watched[k.symbol]
      && after.watch[k].expiry == r.now + s.watchDecayTtl
    else (k in after.watch <==> k in before.watch) && (k in before.watch ==> after.watch[k] == before.watch[k])
  }

  lemma FinishCycles(env: GateEnv, st: Scan, now: real, cap: nat, k: WatchKey)
    requires UniqueKeys(env.timeframe, st, now)
    ensures var r := Finish(env, st, now, true, cap);
      CycleEffect(env.settings, st.db, r.db, RecordOf(env, r.alerts, now), k)
  {
    var directional := Keep(st.alerts, IsDirectional());
    if directional != [] {
      KeepAll(directional, IsDirectional());
      KeepNone(directional, IsWatch());
      assert directional + [] == directional;
      GraduatedCycles(env, directional, st.db, now, k);
    } else {
      WatchCycles(env, st, now, cap, k);
    }
  }

  lemma WatchCycles(env: GateEnv, st: Scan, now: real, cap: nat, k: WatchKey)
    requires UniqueKeys(env.timeframe, st, now) && Keep(st.alerts, IsDirectional()) == []
    ensures var r := Finish(env, st, now, true, cap);
      CycleEffect(env.settings, st.db, r.db, RecordOf(env, r.alerts, now), k)
  {
    var s, watches := env.settings, Keep(st.alerts, IsWatch());
    var prev := PrevStatesOf(st.db, watches, env.timeframe, now, true);
    var sel := SelectWatches(s, st.db, watches, false, prev, env.timeframe, cap, now, true);
    var done := CommitWatches(s, st.db, sel.kept, prev, env.timeframe, now, true);
    assert [] + done.emitted == done.emitted;
    CommitKeepsIds(s, st.db, sel.kept, prev, env.timeframe, now, true);
    KeptAreDistinct(env, st, prev, cap, now);
    SameSymbols(done.emitted, sel.kept);
    SameEdges(done.emitted, sel.kept, k.symbol);
    SameDirections(done.emitted, sel.kept);
    KeepAll(done.emitted, IsWatch());
    KeepNone(done.emitted, IsDirectional());
    CommitEffect(s, st.db, sel.kept, prev, env.timeframe, now, k);
    EmittedIsYoung(env, sel.kept, st.db, now, k);
  }

  lemma EmittedIsYoung(env: GateEnv, kept: seq<Candidate>, db: Keyspace, now: real, k: WatchKey)
    requires forall c :: c in kept ==>
      Cycles(db, WatchKey(env.timeframe, c.alert.symbol), now, true) < env.settings.watchDecayCycles
    ensures k.timeframe == env.timeframe && k.symbol in SymbolSet(kept) ==>
      Cycles(db, k, now, true) < env.settings.watchDecayCycles
  {}

  lemma GraduatedCycles(env: GateEnv, directional: seq<Candidate>, db: Keyspace, now: real, k: WatchKey)
    requires forall c :: c in directional ==> Directional(c.alert)
    ensures var db' := DedupForgotten(WatchForgotten(db, Symbols(directional), env.timeframe, true),
                                      Symbols(directional), env.timeframe, true);
      if k.timeframe == env.timeframe && k.symbol in SymbolSet(directional) then k !in db'.watch
      else (k in db'.watch <==> k in db.watch) && (k in db.watch ==> db'.watch[k] == db.watch[k])
  {
    SymbolsAre(directional);
  }

  lemma SymbolsAre(cs: seq<Candidate>)
    ensures forall sym :: sym in Symbols(cs) <==> sym in SymbolSet(cs)
  {
    forall sym | sym in Symbols(cs) ensures sym in SymbolSet(cs) {
      var i :| 0 <= i < |cs| && Symbols(cs)[i] == sym;
      assert cs[i] in cs;
    }
    forall sym | sym in SymbolSet(cs) ensures sym in Symbols(cs) {
      var i :| 0 <= i < |cs| && cs[i].alert.symbol == sym;
      assert Symbols(cs)[i] == sym;
    }
  }

  lemma KeptAreDistinct(env: GateEnv, st: Scan, prev: PrevStates, cap: nat, now: real)
    requires UniqueKeys(env.timeframe, st, now)
    ensures var watches := Keep(st.alerts, IsWatch());
            var kept := SelectWatches(env.settings, st.db, watches, false, prev, env.timeframe, cap, now, true).kept;
      && DistinctSymbols(kept)
      && forall c :: c in kept ==>
           (!Directional(c.alert)
            && Cycles(st.db, WatchKey(env.timeframe, c.alert.symbol), now, true) < env.settings.watchDecayCycles)
  {
    var watches := Keep(st.alerts, IsWatch());
    var kept := SelectWatches(env.settings, st.db, watches, false, prev, env.timeframe, cap, now, true).kept;
    KeptWatches(env.settings, st.db, watches, prev, env.timeframe, cap, now, true);
    KeepSplits(st.alerts, IsWatch(), IsDirectional());
    SelectedAreSub(env.settings, st.db, watches, prev, env.timeframe, cap, now, true);
    InjectiveSub(multiset(st.alerts), multiset(kept), KeyIn(env.timeframe));
    WatchSymbolsDistinct(kept, env.timeframe);
  }

  lemma SameSymbols(a: seq<Candidate>, b: seq<Candidate>)
    requires |a| == |b| && forall i :: 0 <= i < |a| ==> a[i].alert.symbol == b[i].alert.symbol
    ensures SymbolSet(a) == SymbolSet(b)
  {
    forall sym | sym in SymbolSet(a) ensures sym in SymbolSet(b) {
      var i :| 0 <= i < |a| && a[i].alert.symbol == sym;
      assert b[i] in b;
    }
    forall sym | sym in SymbolSet(b) ensures sym in SymbolSet(a) {
      var i :| 0 <= i < |b| && b[i].alert.symbol == sym;
      assert a[i] in a;
    }
  }

  lemma {:induction false} SameEdges(a: seq<Candidate>, b: seq<Candidate>, sym: string)
    requires |a| == |b|
    requires forall i :: 0 <= i < |a| ==>
      a[i].alert.symbol == b[i].alert.symbol && a[i].alert.edgeProbability == b[i].alert.edgeProbability
    ensures EdgeOf(a, sym) == EdgeOf(b, sym)
  {
    if a != [] { SameEdges(a[..|a| - 1], b[..|b| - 1], sym); }
  }

  // ---------------------------------------------------------------- unbounded histories

  /** One decision run: everything it is given. */
  datatype Decision = Decision(env: GateEnv, items: seq<RawItem>, now: real, cap: nat)

  /** The store after a sequence of runs with Redis up, from an empty store. */
  function StoreAfter(h: seq<Decision>): Keyspace {
    if h == [] then Keyspace(map[], map[])
    else
      var d := h[|h| - 1];
      Run(d.env, d.items, StoreAfter(h[..|h| - 1]), d.now, true, d.cap).db
  }

  function History(h: seq<Decision>): seq<RunRecord> {
    if h == [] then []
    else
      var d := h[|h| - 1];
      History(h[..|h| - 1])
      + [RecordOf(d.env, Run(d.env, d.items, StoreAfter(h[..|h| - 1]), d.now, true, d.cap).alerts, d.now)]
  }

  /** The specification: WATCH emissions of a key counted back from `now`, up to the last trade on
      the symbol or the first silence as long as the TTL. */
  function Streak(rs: seq<RunRecord>, k: WatchKey, now: real, ttl: real): nat {
    if rs == [] then 0
    else
      var r := rs[|rs| - 1];
      if Graduates(r, k) then 0
      else if Emits(r, k) then (if now - r.now >= ttl then 0 else 1 + Streak(rs[..|rs| - 1], k, r.now, ttl))
      else Streak(rs[..|rs| - 1], k, now, ttl)
  }

  ghost predicate Legal(h: seq<Decision>, s: Settings) {
    && (forall i :: 0 <= i < |h| ==> h[i].env.settings == s)
    && (forall i, j :: 0 <= i < j < |h| ==> h[i].now <= h[j].now)
  }

  lemma LastRun(h: seq<Decision>, s: Settings, k: WatchKey)
    requires h != [] && Legal(h, s) && DedupWorks(s)
    ensures |History(h)| == |h| && History(h)[..|h| - 1] == History(h[..|h| - 1])
    ensures CycleEffect(s, StoreAfter(h[..|h| - 1]), StoreAfter(h), History(h)[|h| - 1], k)
    ensures History(h)[|h| - 1].now == h[|h| - 1].now
  {
    HistoryLength(h);
    HistoryLength(h[..|h| - 1]);
    OneRun(h[|h| - 1], StoreAfter(h[..|h| - 1]), k);
  }

  /** The effect of one run on one cycle hash. */
  lemma OneRun(d: Decision, db: Keyspace, k: WatchKey)
    requires DedupWorks(d.env.settings)
    ensures var r := Run(d.env, d.items, db, d.now, true, d.cap);
      CycleEffect(d.env.settings, db, r.db, RecordOf(d.env, r.alerts, d.now), k)
  {
    var st := ScanAll(d.env, d.items, db, d.now, true);
    ScanKeysUnique(d.env, d.items, db, d.now);
    FinishCycles(d.env, st, d.now, d.cap, k);
    SameCycles(db, st.db, k, d.now);
  }

  lemma SameCycles(db: Keyspace, db': Keyspace, k: WatchKey, now: real)
    requires db'.watch == db.watch
    ensures Cycles(db', k, now, true) == Cycles(db, k, now, true)
  {}

  lemma {:induction false} HistoryLength(h: seq<Decision>)
    ensures |History(h)| == |h|
  {
    if h != [] { HistoryLength(h[..|h| - 1]); }
  }

  lemma StreakStep(s: Settings, before: Keyspace, after: Keyspace, rs: seq<RunRecord>, k: WatchKey, t: real)
    requires rs != [] && rs[|rs| - 1].now <= t
    requires var init, r := rs[..|rs| - 1], rs[|rs| - 1];
      && CycleEffect(s, before, after, r, k)
      && Cycles(before, k, r.now, true) == Streak(init, k, r.now, s.watchDecayTtl) <= s.watchDecayCycles
      && Cycles(before, k, t, true) == Streak(init, k, t, s.watchDecayTtl) <= s.watchDecayCycles
    ensures Cycles(after, k, t, true) == Streak(rs, k, t, s.watchDecayTtl) <= s.watchDecayCycles
  {
  }

  /** Over any sequence of runs the count a run reads for a key is the length of the current
      emission streak, and it never exceeds the decay limit. */
  lemma {:induction false} CycleCountIsStreak(h: seq<Decision>, s: Settings, k: WatchKey, t: real)
    requires Legal(h, s) && DedupWorks(s) && (h != [] ==> h[|h| - 1].now <= t)
    ensures Cycles(StoreAfter(h), k, t, true) == Streak(History(h), k, t, s.watchDecayTtl)
    ensures Cycles(StoreAfter(h), k, t, true) <= s.watchDecayCycles
  {
    if h != [] {
      var init, d := h[..|h| - 1], h[|h| - 1];
      CycleCountIsStreak(init, s, k, d.now);
      CycleCountIsStreak(init, s, k, t);
      LastRun(h, s, k);
      StreakStep(s, StoreAfter(init), StoreAfter(h), History(h), k, t);
    }
  }

  /** The specification: the edge of the key's last WATCH emission, unless a trade on the symbol or the
      TTL has come between. */
  function LastEdge(rs: seq<RunRecord>, k: WatchKey, now: real, ttl: real): Option<real> {
    if rs == [] then None
    else
      var r := rs[|rs| - 1];
      if Graduates(r, k) then None
      else if Emits(r, k) then (if now - r.now >= ttl then None else Some(r.watched[k.symbol]))
      else LastEdge(rs[..|rs| - 1], k, now, ttl)
  }

  lemma EdgeStep(s: Settings, before: Keyspace, after: Keyspace, rs: seq<RunRecord>, k: WatchKey, t: real)
    requires rs != [] && CycleEffect(s, before, after, rs[|rs| - 1], k)
    requires PrevEp(before, k, t, true) == LastEdge(rs[..|rs| - 1], k, t, s.watchDecayTtl)
    ensures PrevEp(after, k, t, true) == LastEdge(rs, k, t, s.watchDecayTtl)
  {}

  /** Over any sequence of runs the previous edge read for a key is the edge of its last emission. */
  lemma {:induction false} PrevEdgeIsLastEmission(h: seq<Decision>, s: Settings, k: WatchKey, t: real)
    requires Legal(h, s) && DedupWorks(s)
    ensures PrevEp(StoreAfter(h), k, t, true) == LastEdge(History(h), k, t, s.watchDecayTtl)
  {
    if h != [] {
      PrevEdgeIsLastEmission(h[..|h| - 1], s, k, t);
      LastRun(h, s, k);
      EdgeStep(s, StoreAfter(h[..|h| - 1]), StoreAfter(h), History(h), k, t);
    }
  }

  /** What the next run calls improving: an edge above that of the symbol's last WATCH emission, where
      that is still remembered. */
  lemma ImprovingMeaning(h: seq<Decision>, s: Settings, d: Decision, watches: seq<Candidate>, c: Candidate)
    requires Legal(h, s) && DedupWorks(s) && d.env.settings == s && c in watches
    ensures var db := ScanAll(d.env, d.items, StoreAfter(h), d.now, true).db;
            var last := LastEdge(History(h), WatchKey(d.env.timeframe, c.alert.symbol), d.now, s.watchDecayTtl);
      Improving(c.alert, PrevStatesOf(db, watches, d.env.timeframe, d.now, true))
      <==> last.Some? && c.alert.edgeProbability > last.value
  {
    var k, db := WatchKey(d.env.timeframe, c.alert.symbol), ScanAll(d.env, d.items, StoreAfter(h), d.now, true).db;
    PrevEdgeIsLastEmission(h, s, k, d.now);
    ScanKeysUnique(d.env, d.items, StoreAfter(h), d.now);
    SameEdge(StoreAfter(h), db, k, d.now);
    assert c.alert.symbol in (set w | w in watches :: w.alert.symbol);
  }

  lemma SameEdge(db: Keyspace, db': Keyspace, k: WatchKey, now: real)
    requires db'.watch == db.watch
    ensures PrevEp(db', k, now, true) == PrevEp(db, k, now, true)
  {}

  // ---------------------------------------------------------------- the strengthening mark

  /** The number a decimal numeral stands for. */
  function NumberOf(digits: string): int {
    if digits == [] then 0 else 10 * NumberOf(digits[..|digits| - 1]) + (digits[|digits| - 1] as int - '0' as int)
  }

  /** The text is a decimal numeral of n, without leading zeros. */
  predicate IsNumeral(digits: string, n: int) {
    && NumberOf(digits) == n
    && (forall i :: 0 <= i < |digits| ==> '0' <= digits[i] <= '9')
    && (n > 0 ==> digits != [] && digits[0] != '0')
  }

  /** The count is written as a decimal numeral without leading zeros. */
  lemma {:induction false} DigitsMeaning(n: nat)
    ensures IsNumeral(Digits(n), n) && Digits(n) != []
  {
    LastDigit(n);
    var front := if n < 10 then "" else Digits(n / 10);
    if n >= 10 { DigitsMeaning(n / 10); }
    OneDigitMore(front, n / 10, ['0', '1', '2', '3', '4', '5', '6', '7', '8', '9'][n % 10], n % 10);
  }

  lemma OneDigitMore(front: string, q: int, digit: char, d: int)
    requires IsNumeral(front, q) && q >= 0 && (q == 0 ==> front == [])
    requires '0' <= digit <= '9' && digit as int - '0' as int == d
    ensures IsNumeral(front + [digit], 10 * q + d)
  {
    NumberSnoc(front, digit);
  }

  lemma NumberSnoc(front: string, digit: char)
    ensures NumberOf(front + [digit]) == 10 * NumberOf(front) + (digit as int - '0' as int)
  {
    assert (front + [digit])[..|front|] == front;
  }

  lemma LastDigit(n: nat)
    ensures var digit := ['0', '1', '2', '3', '4', '5', '6', '7', '8', '9'][n % 10];
      '0' <= digit <= '9' && digit as int - '0' as int == n % 10
    ensures n == 10 * (n / 10) + n % 10
  {}

  /** The watches counted before leave the count of one with another symbol as it was. */
  lemma CountedBefore(s: Settings, db: Keyspace, kept: seq<Candidate>, prev: PrevStates, tf: string, now: real)
    requires kept != [] && DistinctSymbols(kept)
    ensures var init, k := kept[..|kept| - 1], WatchKey(tf, kept[|kept| - 1].alert.symbol);
      Cycles(CommitWatches(s, db, init, prev, tf, now, true).db, k, now, true) == Cycles(db, k, now, true)
  {
    var init, k := kept[..|kept| - 1], WatchKey(tf, kept[|kept| - 1].alert.symbol);
    CommitEffect(s, db, init, prev, tf, now, k);
    SymbolSetSnoc(kept);
    SameCycle(db, CommitWatches(s, db, init, prev, tf, now, true).db, k, now);
  }

  /** A kept watch as it is emitted, counted against the store as it was when the counting began. */
  function Marking(s: Settings, db: Keyspace, prev: PrevStates, tf: string, now: real): Candidate -> Candidate {
    (w: Candidate) => Strengthened(s, w, Cycles(db, WatchKey(tf, w.alert.symbol), now, true) + 1, prev)
  }

  lemma CommitSnoc(s: Settings, db: Keyspace, kept: seq<Candidate>, prev: PrevStates, tf: string, now: real, count: int)
    requires kept != []
    requires count == Cycles(CommitWatches(s, db, kept[..|kept| - 1], prev, tf, now, true).db,
                             WatchKey(tf, kept[|kept| - 1].alert.symbol), now, true)
    ensures CommitWatches(s, db, kept, prev, tf, now, true).emitted
      == CommitWatches(s, db, kept[..|kept| - 1], prev, tf, now, true).emitted
         + [Strengthened(s, kept[|kept| - 1], count + 1, prev)]
  {}

  lemma CountedAtStart(s: Settings, db: Keyspace, kept: seq<Candidate>, prev: PrevStates, tf: string, now: real)
    requires kept != [] && DistinctSymbols(kept)
    ensures var w := kept[|kept| - 1];
      CommitWatches(s, db, kept, prev, tf, now, true).emitted
      == CommitWatches(s, db, kept[..|kept| - 1], prev, tf, now, true).emitted
         + [Strengthened(s, w, Cycles(db, WatchKey(tf, w.alert.symbol), now, true) + 1, prev)]
  {
    CountedBefore(s, db, kept, prev, tf, now);
    CommitSnoc(s, db, kept, prev, tf, now, Cycles(db, WatchKey(tf, kept[|kept| - 1].alert.symbol), now, true));
  }

  /** Every emitted watch is a kept one, counted against the store as it was when the counting began. */
  lemma {:induction false} MarkedFrom(s: Settings, db: Keyspace, kept: seq<Candidate>, prev: PrevStates, tf: string,
                                      now: real, c: Candidate) returns (w: Candidate)
    requires DistinctSymbols(kept) && c in CommitWatches(s, db, kept, prev, tf, now, true).emitted
    ensures w in kept && c == Marking(s, db, prev, tf, now)(w)
  {
    w := kept[|kept| - 1];
    CountedAtStart(s, db, kept, prev, tf, now);
    if c != Marking(s, db, prev, tf, now)(w) {
      w := MarkedFrom(s, db, kept[..|kept| - 1], prev, tf, now, c);
    }
  }

  lemma SameCycle(db: Keyspace, db': Keyspace, k: WatchKey, now: real)
    requires (k in db'.watch <==> k in db.watch) && (k in db.watch ==> db'.watch[k] == db.watch[k])
    ensures Cycles(db', k, now, true) == Cycles(db, k, now, true)
  {}

  /** The thesis of an emitted watch: its own, marked with the length of its streak once that has the
      required length and the edge has risen above that of its last emission. */
  ghost predicate IsMarked(s: Settings, rs: seq<RunRecord>, k: WatchKey, now: real, before: Alert, after: Alert) {
    var count := Streak(rs, k, now, s.watchDecayTtl) + 1;
    var last := LastEdge(rs, k, now, s.watchDecayTtl);
    after == before.(thesis :=
      if count >= s.watchPromotionMinCycles && last.Some? && before.edgeProbability > last.value then
        "[\U{2191} STRENGTHENING \U{D7}" + Digits(count) + "] " + before.thesis
      else before.thesis)
  }

  /** Every watch a run emits is an accepted one, its thesis marked as its history says. */
  lemma EmittedWatchMeaning(h: seq<Decision>, s: Settings, d: Decision, c: Candidate) returns (w: Candidate)
    requires Legal(h, s) && DedupWorks(s) && d.env.settings == s && (h != [] ==> h[|h| - 1].now <= d.now)
    requires c in Run(d.env, d.items, StoreAfter(h), d.now, true, d.cap).alerts && !Directional(c.alert)
    ensures w in ScanAll(d.env, d.items, StoreAfter(h), d.now, true).alerts && w.id == c.id
    ensures IsMarked(s, History(h), WatchKey(d.env.timeframe, w.alert.symbol), d.now, w.alert, c.alert)
  {
    var st := ScanAll(d.env, d.items, StoreAfter(h), d.now, true);
    ScanKeysUnique(d.env, d.items, StoreAfter(h), d.now);
    w := EmittedFrom(d.env, st, d.now, d.cap, c);
    CountIsStreak(h, s, d, WatchKey(d.env.timeframe, w.alert.symbol));
    var watches := Keep(st.alerts, IsWatch());
    ImprovingMeaning(h, s, d, watches, w);
    MarkMeaning(s, History(h), st.db, d.env.timeframe, d.now,
                PrevStatesOf(st.db, watches, d.env.timeframe, d.now, true), w, c);
  }

  lemma MarkMeaning(s: Settings, rs: seq<RunRecord>, db: Keyspace, tf: string, now: real, prev: PrevStates,
                    w: Candidate, c: Candidate)
    requires c == Marking(s, db, prev, tf, now)(w)
    requires Cycles(db, WatchKey(tf, w.alert.symbol), now, true)
      == Streak(rs, WatchKey(tf, w.alert.symbol), now, s.watchDecayTtl)
    requires var last := LastEdge(rs, WatchKey(tf, w.alert.symbol), now, s.watchDecayTtl);
      Improving(w.alert, prev) <==> last.Some? && w.alert.edgeProbability > last.value
    ensures w.id == c.id && IsMarked(s, rs, WatchKey(tf, w.alert.symbol), now, w.alert, c.alert)
  {}

  lemma CountIsStreak(h: seq<Decision>, s: Settings, d: Decision, k: WatchKey)
    requires Legal(h, s) && DedupWorks(s) && d.env.settings == s && (h != [] ==> h[|h| - 1].now <= d.now)
    ensures Cycles(ScanAll(d.env, d.items, StoreAfter(h), d.now, true).db, k, d.now, true)
      == Streak(History(h), k, d.now, s.watchDecayTtl)
  {
    ScanKeysUnique(d.env, d.items, StoreAfter(h), d.now);
    CycleCountIsStreak(h, s, k, d.now);
    SameCycle(StoreAfter(h), ScanAll(d.env, d.items, StoreAfter(h), d.now, true).db, k, d.now);
  }

  lemma EmittedFrom(env: GateEnv, st: Scan, now: real, cap: nat, c: Candidate) returns (w: Candidate)
    requires UniqueKeys(env.timeframe, st, now)
    requires c in Finish(env, st, now, true, cap).alerts && !Directional(c.alert)
    ensures var watches := Keep(st.alerts, IsWatch());
            var prev := PrevStatesOf(st.db, watches, env.timeframe, now, true);
      w in st.alerts && w in watches && c == Marking(env.settings, st.db, prev, env.timeframe, now)(w)
  {
    var prev := PrevStatesOf(st.db, Keep(st.alerts, IsWatch()), env.timeframe, now, true);
    var kept := KeptAndEmitted(env, st, now, cap, prev, c);
    w := MarkedFrom(env.settings, st.db, kept, prev, env.timeframe, now, c);
  }

  lemma KeptAndEmitted(env: GateEnv, st: Scan, now: real, cap: nat, prev: PrevStates, c: Candidate)
    returns (kept: seq<Candidate>)
    requires UniqueKeys(env.timeframe, st, now)
    requires c in Finish(env, st, now, true, cap).alerts && !Directional(c.alert)
    requires prev == PrevStatesOf(st.db, Keep(st.alerts, IsWatch()), env.timeframe, now, true)
    ensures DistinctSymbols(kept) && (forall w :: w in kept ==> w in Keep(st.alerts, IsWatch()))
    ensures c in CommitWatches(env.settings, st.db, kept, prev, env.timeframe, now, true).emitted
  {
    var watches := Keep(st.alerts, IsWatch());
    kept := SelectWatches(env.settings, st.db, watches, false, prev, env.timeframe, cap, now, true).kept;
    KeptAreDistinct(env, st, prev, cap, now);
    KeptWatches(env.settings, st.db, watches, prev, env.timeframe, cap, now, true);
    EmittedWatchIsCounted(env, st, now, cap, c);
  }

  lemma EmittedWatchIsCounted(env: GateEnv, st: Scan, now: real, cap: nat, c: Candidate)
    requires c in Finish(env, st, now, true, cap).alerts && !Directional(c.alert)
    ensures var watches := Keep(st.alerts, IsWatch());
            var prev := PrevStatesOf(st.db, watches, env.timeframe, now, true);
            var kept := SelectWatches(env.settings, st.db, watches, false, prev, env.timeframe, cap, now, true).kept;
      c in CommitWatches(env.settings, st.db, kept, prev, env.timeframe, now, true).emitted
  {
    assert c !in Keep(st.alerts, IsDirectional());
  }

  // ---------------------------------------------------------------- dedup keys left behind

  /** What a run leaves of the gate-level dedup keys. A trade's own key does not survive the run
      that accepted it: graduating deletes all three keys of the symbol. A WATCH's key does, even
      when the policy then drops it: the symbol is suppressed until the TTL although it was never
      emitted. */
  lemma DedupKeysLeftBehind(env: GateEnv, st: Scan, now: real, cap: nat, c: Candidate)
    requires UniqueKeys(env.timeframe, st, now) && c in st.alerts
    ensures var r := Finish(env, st, now, true, cap);
            var graduated := SymbolSet(Keep(st.alerts, IsDirectional()));
      && (Directional(c.alert) ==> forall d :: !DedupLive(r.db, DedupKey(env.timeframe, d, c.alert.symbol), now))
      && (!Directional(c.alert) ==>
            (DedupLive(r.db, KeyIn(env.timeframe)(c), now) <==> c.alert.symbol !in graduated))
  {
    var directional, watches := Keep(st.alerts, IsDirectional()), Keep(st.alerts, IsWatch());
    var prev := PrevStatesOf(st.db, watches, env.timeframe, now, true);
    var sel := SelectWatches(env.settings, st.db, watches, directional != [], prev, env.timeframe, cap, now, true);
    CommitTouchesNoDedup(env.settings, st.db, sel.kept, prev, env.timeframe, now, true);
    SymbolsAre(directional);
    assert DedupLive(st.db, KeyIn(env.timeframe)(c), now);
    if directional == [] { assert SymbolSet(directional) == {}; }
    if Directional(c.alert) {
      assert c in directional;
      assert c.alert.symbol in SymbolSet(directional);
    }
  }

  // ---------------------------------------------------------------- what gate-level dedup can suppress

  /** No key of a trade is stored. */
  ghost predicate OnlyWatchKeys(db: Keyspace) { forall k :: k in db.dedup ==> k.direction == WATCH }

  /** Every stored key of a trade belongs to an accepted alert of this run. */
  ghost predicate TradeKeysOwned(tf: string, st: Scan) {
    forall k :: k in st.db.dedup && k.direction != WATCH ==> exists c :: c in st.alerts && KeyIn(tf)(c) == k
  }

  lemma ScanStepOwned(env: GateEnv, item: RawItem, st: Scan, now: real, on: bool)
    requires TradeKeysOwned(env.timeframe, st)
    ensures TradeKeysOwned(env.timeframe, ScanStep(env, item, st, now, on))
  {
    var st' := ScanStep(env, item, st, now, on);
    var o := Evaluate(env, item, st.db, now, on);
    ClaimedMeansAccepted(env, item, st.db, now, on);
    forall k | k in st'.db.dedup && k.direction != WATCH
      ensures exists c :: c in st'.alerts && KeyIn(env.timeframe)(c) == k
    {
      if k in st.db.dedup {
        var c :| c in st.alerts && KeyIn(env.timeframe)(c) == k;
        assert c in st'.alerts;
      } else {
        var c := Candidate(|st.candidates|, o.alert);
        assert KeyIn(env.timeframe)(c) == k && c in st'.alerts;
      }
    }
  }

  /** An item stores a key only by being accepted, and only its own. */
  lemma ClaimedMeansAccepted(env: GateEnv, item: RawItem, db: Keyspace, now: real, on: bool)
    ensures var o, db' := Evaluate(env, item, db, now, on), DbAfter(env, item, db, now, on);
      && (forall k :: k in db'.dedup && k !in db.dedup ==> o.Accepted? && KeyOf(env, o.alert) == k)
      && (forall k :: k in db.dedup ==> k in db'.dedup)
  {}

  lemma {:induction false} ScanKeysOwned(env: GateEnv, items: seq<RawItem>, db: Keyspace, now: real, on: bool)
    requires OnlyWatchKeys(db)
    ensures TradeKeysOwned(env.timeframe, ScanAll(env, items, db, now, on))
  {
    if items != [] {
      ScanKeysOwned(env, items[..|items| - 1], db, now, on);
      ScanStepOwned(env, items[|items| - 1], ScanAll(env, items[..|items| - 1], db, now, on), now, on);
    }
  }

  lemma {:induction false} CommitTouchesNoDedup(s: Settings, db: Keyspace, kept: seq<Candidate>, prev: PrevStates,
                                                tf: string, now: real, on: bool)
    ensures CommitWatches(s, db, kept, prev, tf, now, on).db.dedup == db.dedup
  {
    if kept != [] { CommitTouchesNoDedup(s, db, kept[..|kept| - 1], prev, tf, now, on); }
  }

  /** What the end of a run deletes covers every trade it accepted. */
  lemma FinishForgetsTrades(env: GateEnv, st: Scan, now: real, cap: nat)
    requires TradeKeysOwned(env.timeframe, st)
    ensures OnlyWatchKeys(Finish(env, st, now, true, cap).db)
  {
    var s := env.settings;
    var directional, watches := Keep(st.alerts, IsDirectional()), Keep(st.alerts, IsWatch());
    var prev := PrevStatesOf(st.db, watches, env.timeframe, now, true);
    var sel := SelectWatches(s, st.db, watches, directional != [], prev, env.timeframe, cap, now, true);
    CommitTouchesNoDedup(s, st.db, sel.kept, prev, env.timeframe, now, true);
    var db' := Finish(env, st, now, true, cap).db;
    forall k | k in st.db.dedup && k.direction != WATCH ensures k !in db'.dedup {
      var c :| c in st.alerts && KeyIn(env.timeframe)(c) == k;
      assert c in directional;
      SymbolsAre(directional);
      assert c.alert.symbol in Symbols(directional);
    }
  }

  /** Over any sequence of runs no key of a trade is ever left in the store: whatever a run stored for
      a trade it deletes before it ends. */
  lemma {:induction false} NoTradeKeySurvives(h: seq<Decision>)
    ensures OnlyWatchKeys(StoreAfter(h))
  {
    if h != [] {
      var d, db := h[|h| - 1], StoreAfter(h[..|h| - 1]);
      NoTradeKeySurvives(h[..|h| - 1]);
      ScanKeysOwned(d.env, d.items, db, d.now, true);
      FinishForgetsTrades(d.env, ScanAll(d.env, d.items, db, d.now, true), d.now, d.cap);
    }
  }

  /** The outcome of item j of a run. */
  function OutcomeAt(env: GateEnv, items: seq<RawItem>, db: Keyspace, now: real, j: nat): Outcome
    requires j < |items|
  {
    Evaluate(env, items[j], ScanAll(env, items[..j], db, now, true).db, now, true)
  }

  /** An earlier item of the run with this key was accepted. */
  ghost predicate AcceptedBefore(env: GateEnv, items: seq<RawItem>, db: Keyspace, now: real, i: nat, k: DedupKey)
    requires i <= |items|
  {
    exists j :: 0 <= j < i && OutcomeAt(env, items, db, now, j).Accepted?
                && KeyOf(env, OutcomeAt(env, items, db, now, j).alert) == k
  }

  lemma ScanStepLives(env: GateEnv, item: RawItem, st: Scan, now: real, k: DedupKey)
    requires DedupWorks(env.settings)
    ensures var o := Evaluate(env, item, st.db, now, true);
      DedupLive(ScanStep(env, item, st, now, true).db, k, now)
      <==> DedupLive(st.db, k, now) || (o.Accepted? && KeyOf(env, o.alert) == k)
  {}

  lemma LiveNext(env: GateEnv, items: seq<RawItem>, db: Keyspace, now: real, i: nat, k: DedupKey)
    requires DedupWorks(env.settings) && i < |items|
    ensures var o := OutcomeAt(env, items, db, now, i);
      DedupLive(ScanAll(env, items[..i + 1], db, now, true).db, k, now)
      <==> DedupLive(ScanAll(env, items[..i], db, now, true).db, k, now) || (o.Accepted? && KeyOf(env, o.alert) == k)
  {
    ScanPrefix(env, items, i, db, now, true);
    ScanStepLives(env, items[i], ScanAll(env, items[..i], db, now, true), now, k);
  }

  /** Something that only ever becomes true, at the steps where `step` holds. */
  lemma {:induction false} Accumulates(holds: nat -> bool, step: nat -> bool, n: nat)
    requires forall j: nat :: j < n ==> (holds(j + 1) <==> holds(j) || step(j))
    ensures holds(n) <==> holds(0) || exists j: nat :: j < n && step(j)
  {
    if n > 0 { Accumulates(holds, step, n - 1); }
  }

  function LiveAfter(env: GateEnv, items: seq<RawItem>, db: Keyspace, now: real, k: DedupKey): nat -> bool {
    (j: nat) => j <= |items| && DedupLive(ScanAll(env, items[..j], db, now, true).db, k, now)
  }

  function AcceptsAt(env: GateEnv, items: seq<RawItem>, db: Keyspace, now: real, k: DedupKey): nat -> bool {
    (j: nat) => j < |items| && OutcomeAt(env, items, db, now, j).Accepted?
                && KeyOf(env, OutcomeAt(env, items, db, now, j).alert) == k
  }

  /** During a run a key is live if and only if it was at the start or an earlier item with it was
      accepted. */
  lemma LiveDuringScan(env: GateEnv, items: seq<RawItem>, db: Keyspace, now: real, i: nat, k: DedupKey)
    requires DedupWorks(env.settings) && i <= |items|
    ensures DedupLive(ScanAll(env, items[..i], db, now, true).db, k, now)
       <==> DedupLive(db, k, now) || AcceptedBefore(env, items, db, now, i, k)
  {
    var live, accepts := LiveAfter(env, items, db, now, k), AcceptsAt(env, items, db, now, k);
    forall j: nat | j < i ensures live(j + 1) <==> live(j) || accepts(j) { LiveNext(env, items, db, now, j, k); }
    Accumulates(live, accepts, i);
    assert items[..0] == [];
    AcceptedIs(env, items, db, now, i, k);
  }

  lemma AcceptedIs(env: GateEnv, items: seq<RawItem>, db: Keyspace, now: real, i: nat, k: DedupKey)
    requires i <= |items|
    ensures AcceptedBefore(env, items, db, now, i, k)
       <==> exists j: nat :: j < i && AcceptsAt(env, items, db, now, k)(j)
  {
    if AcceptedBefore(env, items, db, now, i, k) {
      var j :| 0 <= j < i && OutcomeAt(env, items, db, now, j).Accepted?
               && KeyOf(env, OutcomeAt(env, items, db, now, j).alert) == k;
      assert AcceptsAt(env, items, db, now, k)(j);
    }
  }

  /** When gate-level dedup suppresses a trade, after any history: exactly when an earlier item of the
      same run with its key was accepted. No earlier run can cause it. */
  lemma TradeSuppression(h: seq<Decision>, d: Decision, i: nat, a: Alert)
    requires DedupWorks(d.env.settings) && i < |d.items|
    requires ParseAlert(d.items[i]) == Some(a) && ValidTimeframe(a.timeframe) && Directional(a) && Passes(d.env, a)
    ensures OutcomeAt(d.env, d.items, StoreAfter(h), d.now, i).DedupSuppressed?
       <==> AcceptedBefore(d.env, d.items, StoreAfter(h), d.now, i, KeyOf(d.env, a))
  {
    var db, k := StoreAfter(h), KeyOf(d.env, FinalAlert(d.env, a));
    NoTradeKeySurvives(h);
    LiveDuringScan(d.env, d.items, db, d.now, i, k);
    PipelineRefinesGates(d.env, a);
    var live := Suppressed(d.env.settings, ScanAll(d.env, d.items[..i], db, d.now, true).db, k, d.now, true);
    VerdictMeaning(d.env, a, live);
    assert k == KeyOf(d.env, a);
  }
}
