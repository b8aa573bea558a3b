/** One decision run: parse and gate every candidate, then apply the WATCH policy and update the
    Redis counters (validate_and_filter.py, gates/candidate.py, models.py). */
module ValidateAndFilter {
  import opened Prelude
  import opened GateTypes
  import opened Regimes
  import opened Reconciliation
  import opened CandidatePipeline
  import opened GateTheorems
  import opened RedisStore
  import opened SessionStats

  // ---------------------------------------------------------------- parsing one item

  /** A decoded item of the model's answer; Malformed stands for anything without the right shape. */
  datatype RawItem =
    | Malformed
    | Item(symbol: string, direction: Option<Direction>, edgeProbability: Num, confidence: Num,
           timeframe: string, thesis: string, entry: map<string, Num>, sourcesAgree: int)

  predicate UnitInterval(n: Num) { n.Finite? && 0.0 <= n.value <= 1.0 }

  /** Python's math.isclose with abs_tol=1e-9 and its default relative tolerance. */
  predicate IsClose(a: real, b: real) {
    Abs(a - b) <= Max(0.000000001 * Max(Abs(a), Abs(b)), 0.000000001)
  }

  predicate EdgeMatchesConfidence(ep: real, conf: real) {
    var floor := (1.0 - ep) * 0.5;
    && !(ep > 0.85 && conf < 0.15)
    && !(ep >= 0.70 && conf < floor && !IsClose(conf, floor))
  }

  function ParseAlert(item: RawItem): Option<Alert> {
    if item.Malformed? || item.direction.None? then None
    else if !UnitInterval(item.edgeProbability) || !UnitInterval(item.confidence) || item.sourcesAgree < 0 then None
    else if !({"level", "stop", "target"} <= item.entry.Keys) then None
    else if exists k :: k in item.entry && item.entry[k].NonFinite? then None
    else
      var entry := Entry(item.entry["level"].value, item.entry["stop"].value, item.entry["target"].value);
      var ep, conf := item.edgeProbability.value, item.confidence.value;
      if !HasValidOrdering(entry, item.direction.value) || !EdgeMatchesConfidence(ep, conf) then None
      else Some(Alert(item.symbol, item.direction.value, ep, conf, item.timeframe, item.thesis, entry,
                      item.sourcesAgree))
  }

  predicate Probability(n: Num, x: real) { n == Finite(x) && 0.0 <= x <= 1.0 }

  /** What is accepted as an alert: two probabilities that fit together, three finite prices in the order
      of the direction, and a claimed agreement that is not negative. A strong edge needs half of what it
      leaves open as confidence, and a very strong one at least 0.15. */
  lemma ParseMeaning(item: RawItem, ep: real, conf: real, level: real, stop: real, target: real)
    requires item.Item? && Probability(item.edgeProbability, ep) && Probability(item.confidence, conf)
    requires {"level", "stop", "target"} <= item.entry.Keys
    requires item.entry["level"] == Finite(level) && item.entry["stop"] == Finite(stop)
    requires item.entry["target"] == Finite(target)
    ensures ParseAlert(item).Some?
       <==> item.direction.Some? && item.sourcesAgree >= 0 && (forall k :: k in item.entry ==> item.entry[k].Finite?)
            && (item.direction == Some(LONG) ==> stop < level < target)
            && (item.direction == Some(SHORT) ==> target < level < stop)
            && (ep > 0.85 ==> conf >= 0.15)
            && (ep >= 0.70 ==> conf + 0.000000001 >= (1.0 - ep) / 2.0)
    ensures ParseAlert(item).Some? ==>
      (ParseAlert(item).value == Alert(item.symbol, item.direction.value, ep, conf, item.timeframe, item.thesis,
                                       Entry(level, stop, target), item.sourcesAgree))
  {
    CloseUnits(conf, (1.0 - ep) * 0.5);
  }

  lemma CloseUnits(a: real, b: real)
    requires 0.0 <= a <= 1.0 && 0.0 <= b <= 1.0
    ensures IsClose(a, b) <==> -0.000000001 <= a - b <= 0.000000001
  {}

  /** Nothing else is accepted: without all three prices, or with a number that is no probability. */
  lemma ParseNeeds(item: RawItem)
    ensures ParseAlert(item).Some? ==>
      && item.Item? && {"level", "stop", "target"} <= item.entry.Keys
      && (exists ep, conf :: Probability(item.edgeProbability, ep) && Probability(item.confidence, conf))
  {
    if ParseAlert(item).Some? {
      assert Probability(item.edgeProbability, item.edgeProbability.value);
      assert Probability(item.confidence, item.confidence.value);
    }
  }

  predicate ValidTimeframe(tf: string) { tf == "5m" || tf == "15m" || tf == "1h" || tf == "4h" || tf == "1D" }

  // ---------------------------------------------------------------- evaluating one item

  function Evaluate(env: GateEnv, item: RawItem, db: Keyspace, now: real, on: bool): Outcome {
    match ParseAlert(item)
    case None => ParseFailed
    case Some(a) =>
      if !ValidTimeframe(a.timeframe) then TimeframeRejected(a)
      else
        var end := Journey(env, a);
        PipelineOutcome(end, Suppressed(env.settings, db, KeyOf(env, end.alert), now, on))
  }

  function DbAfter(env: GateEnv, item: RawItem, db: Keyspace, now: real, on: bool): Keyspace {
    match ParseAlert(item)
    case None => db
    case Some(a) =>
      if !ValidTimeframe(a.timeframe) || Journey(env, a).reasons != [] then db
      else Claimed(env.settings, db, KeyOf(env, Journey(env, a).alert), now, on)
  }

  method EvaluateCandidate(item: RawItem, env: GateEnv, pipeline: CandidateGatePipeline, client: RedisClient)
    returns (outcome: Outcome)
    requires pipeline.stages == DEFAULT_STAGES
    modifies client`db, client.breaker
    ensures outcome == Evaluate(env, item, old(client.db), client.now, old(client.On()))
    ensures client.db == DbAfter(env, item, old(client.db), client.now, old(client.On()))
    ensures client.On() == old(client.On())
  {
    var parsed := ParseAlert(item);
    if parsed.None? { return ParseFailed; }
    var alert := parsed.value;
    if !ValidTimeframe(alert.timeframe) { return TimeframeRejected(alert); }
    var ctx := new CandidateContext(alert, env);
    assert ctx.State() == Progress(alert, []);
    outcome := pipeline.Run(ctx, client);
    assert ctx.State() == Journey(env, alert);
  }

  // ---------------------------------------------------------------- the candidate loop

  /** A candidate alert; `id` is the object's identity, its position among the candidates. */
  datatype Candidate = Candidate(id: nat, alert: Alert)

  /** A rejection row (symbol, gate); `about` is the candidate it is about. */
  datatype Row = Row(symbol: string, gate: GateRejection, about: Option<nat>)

  function Rows(c: Candidate, reasons: seq<GateRejection>): (r: seq<Row>)
    ensures |r| == |reasons|
  {
    seq(|reasons|, i requires 0 <= i < |reasons| => Row(c.alert.symbol, reasons[i], Some(c.id)))
  }

  datatype Scan = Scan(db: Keyspace, candidates: seq<Candidate>, alerts: seq<Candidate>, rejections: seq<Row>,
                       directionalRejections: seq<Row>, watchRejections: seq<Row>, dedupSuppressed: nat)

  function AddRows(st: Scan, c: Candidate, rows: seq<Row>): Scan {
    var st' := st.(candidates := st.candidates + [c], rejections := st.rejections + rows);
    if Directional(c.alert) then st'.(directionalRejections := st.directionalRejections + rows)
    else st'.(watchRejections := st.watchRejections + rows)
  }

  /** Files one evaluated item. */
  function Absorb(st: Scan, db: Keyspace, outcome: Outcome): Scan {
    var id := |st.candidates|;
    match outcome
    case ParseFailed => st.(db := db)
    case TimeframeRejected(a) =>
      st.(db := db, rejections := st.rejections + [Row(a.symbol, TIMEFRAME_INVALID, None)])
    case Rejected(a, reasons) => AddRows(st.(db := db), Candidate(id, a), Rows(Candidate(id, a), reasons))
    case DedupSuppressed(a) =>
      AddRows(st.(db := db, dedupSuppressed := st.dedupSuppressed + 1), Candidate(id, a),
              [Row(a.symbol, DEDUP_SUPPRESSED, Some(id))])
    case Accepted(a) =>
      st.(db := db, candidates := st.candidates + [Candidate(id, a)], alerts := st.alerts + [Candidate(id, a)])
  }

  function ScanStep(env: GateEnv, item: RawItem, st: Scan, now: real, on: bool): Scan {
    Absorb(st, DbAfter(env, item, st.db, now, on), Evaluate(env, item, st.db, now, on))
  }

  function ScanAll(env: GateEnv, items: seq<RawItem>, db: Keyspace, now: real, on: bool): Scan {
    if items == [] then Scan(db, [], [], [], [], [], 0)
    else ScanStep(env, items[|items| - 1], ScanAll(env, items[..|items| - 1], db, now, on), now, on)
  }

  lemma ScanPrefix(env: GateEnv, items: seq<RawItem>, i: nat, db: Keyspace, now: real, on: bool)
    requires i < |items|
    ensures ScanAll(env, items[..i + 1], db, now, on)
         == ScanStep(env, items[i], ScanAll(env, items[..i], db, now, on), now, on)
  {
    assert items[..i + 1][..i] == items[..i];
  }

  method ScanItem(item: RawItem, env: GateEnv, pipeline: CandidateGatePipeline, client: RedisClient, st: Scan)
    returns (st': Scan)
    requires pipeline.stages == DEFAULT_STAGES && st.db == client.db
    modifies client`db, client.breaker
    ensures st' == ScanStep(env, item, st, client.now, old(client.On())) && st'.db == client.db
    ensures client.On() == old(client.On())
  {
    var outcome := EvaluateCandidate(item, env, pipeline, client);
    st' := st.(db := client.db);
    if outcome.ParseFailed? { return; }
    if outcome.TimeframeRejected? {
      st' := st'.(rejections := st'.rejections + [Row(outcome.alert.symbol, TIMEFRAME_INVALID, None)]);
      return;
    }
    var c := Candidate(|st.candidates|, outcome.alert);
    st' := st'.(candidates := st'.candidates + [c]);
    var directional := c.alert.direction in {LONG, SHORT};
    if outcome.Rejected? {
      var rows := Rows(c, outcome.reasons);
      st' := st'.(rejections := st'.rejections + rows);
      if directional {
        st' := st'.(directionalRejections := st'.directionalRejections + rows);
      } else {
        st' := st'.(watchRejections := st'.watchRejections + rows);
      }
    } else if outcome.DedupSuppressed? {
      var row := Row(c.alert.symbol, DEDUP_SUPPRESSED, Some(c.id));
      st' := st'.(rejections := st'.rejections + [row], dedupSuppressed := st'.dedupSuppressed + 1);
      if directional {
        st' := st'.(directionalRejections := st'.directionalRejections + [row]);
      } else {
        st' := st'.(watchRejections := st'.watchRejections + [row]);
      }
    } else {
      st' := st'.(alerts := st'.alerts + [c]);
    }
  }

  method ScanItems(items: seq<RawItem>, env: GateEnv, pipeline: CandidateGatePipeline, client: RedisClient)
    returns (st: Scan)
    requires pipeline.stages == DEFAULT_STAGES
    modifies client`db, client.breaker
    ensures st == ScanAll(env, items, old(client.db), client.now, old(client.On())) && st.db == client.db
    ensures client.On() == old(client.On())
  {
    st := Scan(client.db, [], [], [], [], [], 0);
    for i := 0 to |items|
      invariant st == ScanAll(env, items[..i], old(client.db), client.now, old(client.On())) && st.db == client.db
      invariant client.On() == old(client.On())
    {
      ScanPrefix(env, items, i, old(client.db), client.now, old(client.On()));
      st := ScanItem(items[i], env, pipeline, client, st);
    }
    assert items[..|items|] == items;
  }

  // ---------------------------------------------------------------- the WATCH policy

  type PrevStates = map<string, Option<real>>

  predicate Improving(a: Alert, prev: PrevStates) {
    a.symbol in prev && prev[a.symbol].Some? && a.edgeProbability > prev[a.symbol].value
  }

  function BoostedScore(s: Settings, prev: PrevStates): Candidate -> real {
    (c: Candidate) => c.alert.edgeProbability * c.alert.confidence
                      * (if Improving(c.alert, prev) then s.watchPromotionMult else 1.0)
  }

  function IsDirectional(): Candidate -> bool { (c: Candidate) => Directional(c.alert) }

  function IsWatch(): Candidate -> bool { (c: Candidate) => !Directional(c.alert) }

  function StillFresh(s: Settings, db: Keyspace, tf: string, now: real, on: bool): Candidate -> bool {
    (c: Candidate) => Cycles(db, WatchKey(tf, c.alert.symbol), now, on) < s.watchDecayCycles
  }

  function Decayed(s: Settings, db: Keyspace, tf: string, now: real, on: bool): Candidate -> bool {
    (c: Candidate) => Cycles(db, WatchKey(tf, c.alert.symbol), now, on) >= s.watchDecayCycles
  }

  function PrevStatesOf(db: Keyspace, watches: seq<Candidate>, tf: string, now: real, on: bool): PrevStates {
    map sym | sym in (set w | w in watches :: w.alert.symbol) :: PrevEp(db, WatchKey(tf, sym), now, on)
  }

  function WatchMaxForRegime(s: Settings, regime: Regime): nat {
    if regime in {Extreme, RiskOffHighVix} then s.watchMaxStressed
    else if regime in {Choppy, Neutral} then s.watchMaxNeutral
    else s.watchMaxTrending
  }

  /** Stress allows the fewest watches, a market without a trend the neutral number, a trend the most. */
  lemma WatchCapMeaning(s: Settings, regime: Regime)
    ensures regime == Extreme || regime == RiskOffHighVix ==> WatchMaxForRegime(s, regime) == s.watchMaxStressed
    ensures regime == Choppy || regime == Neutral ==> WatchMaxForRegime(s, regime) == s.watchMaxNeutral
    ensures regime == TrendingUp || regime == TrendingDown ==> WatchMaxForRegime(s, regime) == s.watchMaxTrending
    ensures EffectiveCap(s, regime, false) == WatchMaxForRegime(s, regime)
    ensures var cap := EffectiveCap(s, regime, true);
      && cap <= WatchMaxForRegime(s, regime) && cap <= s.watchMaxStressed
      && (cap == WatchMaxForRegime(s, regime) || cap == s.watchMaxStressed)
  {}

  /** The cap a run applies, given whether the circuit was open when the cap was read. */
  function EffectiveCap(s: Settings, regime: Regime, open: bool): nat {
    var cap := WatchMaxForRegime(s, regime);
    if open then (if s.watchMaxStressed < cap then s.watchMaxStressed else cap) else cap
  }

  function RowsFor(cs: seq<Candidate>, gate: GateRejection): (r: seq<Row>)
    ensures |r| == |cs|
  {
    seq(|cs|, i requires 0 <= i < |cs| => Row(cs[i].alert.symbol, gate, Some(cs[i].id)))
  }

  /** The first `cap` candidates of a ranked queue, and the others. */
  function Best(cs: seq<Candidate>, cap: nat): (r: seq<Candidate>)
    ensures |r| <= cap
  {
    if |cs| > cap then cs[..cap] else cs
  }

  function Overflow(cs: seq<Candidate>, cap: nat): seq<Candidate> {
    if |cs| > cap then cs[cap..] else []
  }

  /** Which WATCH candidates survive, and the rows of those that do not. */
  datatype Selection = Selection(kept: seq<Candidate>, dropped: seq<Row>)

  function RankedWatches(s: Settings, watches: seq<Candidate>, prev: PrevStates): seq<Candidate> {
    SortDesc(watches, BoostedScore(s, prev))
  }

  function SelectWatches(s: Settings, db: Keyspace, watches: seq<Candidate>, anyDirectional: bool, prev: PrevStates,
                         tf: string, cap: nat, now: real, on: bool): Selection
  {
    if anyDirectional then Selection([], RowsFor(watches, WATCH_DROPPED_DIRECTIONAL_PRESENT))
    else
      var ranked := RankedWatches(s, watches, prev);
      var current := Keep(ranked, StillFresh(s, db, tf, now, on));
      var stale := RowsFor(Keep(ranked, Decayed(s, db, tf, now, on)), WATCH_DECAY);
      Selection(Best(current, cap), stale + RowsFor(Overflow(current, cap), WATCH_CAP))
  }

  function Digits(n: nat): string {
    (if n < 10 then "" else Digits(n / 10)) + [['0', '1', '2', '3', '4', '5', '6', '7', '8', '9'][n % 10]]
  }

  function Strengthened(s: Settings, w: Candidate, cycles: int, prev: PrevStates): Candidate {
    if cycles >= s.watchPromotionMinCycles && cycles >= 0 && Improving(w.alert, prev) then
      w.(alert := w.alert.(thesis := "[\U{2191} STRENGTHENING \U{D7}" + Digits(cycles) + "] " + w.alert.thesis))
    else w
  }

  datatype Commit = Commit(db: Keyspace, emitted: seq<Candidate>)

  /** Counts one more cycle for each emitted WATCH, in order. */
  function CommitWatches(s: Settings, db: Keyspace, kept: seq<Candidate>, prev: PrevStates, tf: string,
                         now: real, on: bool): Commit
  {
    if kept == [] then Commit(db, [])
    else
      var w := kept[|kept| - 1];
      var before := CommitWatches(s, db, kept[..|kept| - 1], prev, tf, now, on);
      var k := WatchKey(tf, w.alert.symbol);
      var cycles := Cycles(before.db, k, now, on) + (if on then 1 else 0);
      Commit(Incremented(s, before.db, k, w.alert.edgeProbability, w.alert.confidence, now, on),
             before.emitted + [Strengthened(s, w, cycles, prev)])
  }

  function Symbols(cs: seq<Candidate>): (r: seq<string>)
    ensures |r| == |cs|
    ensures forall i :: 0 <= i < |cs| ==> r[i] == cs[i].alert.symbol
  {
    seq(|cs|, i requires 0 <= i < |cs| => cs[i].alert.symbol)
  }

  /** What a run leaves behind: the store, the emitted alerts, every rejection row and the counts
      handed to the session metrics. */
  datatype RunResult = RunResult(db: Keyspace, scan: Scan, alerts: seq<Candidate>, rejections: seq<Row>,
                                 watchRejections: seq<Row>, directionalPassed: nat, watchKept: nat)

  /** What follows the candidate loop. */
  function Finish(env: GateEnv, st: Scan, now: real, on: bool, cap: nat): RunResult {
    var s := env.settings;
    var directional, watches := Keep(st.alerts, IsDirectional()), Keep(st.alerts, IsWatch());
    var prev := PrevStatesOf(st.db, watches, env.timeframe, now, on);
    var sel := SelectWatches(s, st.db, watches, directional != [], prev, env.timeframe, cap, now, on);
    var done := CommitWatches(s, st.db, sel.kept, prev, env.timeframe, now, on);
    var db' := if directional == [] then done.db
               else DedupForgotten(WatchForgotten(done.db, Symbols(directional), env.timeframe, on),
                                   Symbols(directional), env.timeframe, on);
    RunResult(db', st, directional + done.emitted, st.rejections + sel.dropped,
              st.watchRejections + sel.dropped, |directional|, |done.emitted|)
  }

  function Run(env: GateEnv, items: seq<RawItem>, db: Keyspace, now: real, on: bool, cap: nat): RunResult {
    Finish(env, ScanAll(env, items, db, now, on), now, on, cap)
  }

  // ---------------------------------------------------------------- the run, imperatively

  method ReadPrevStates(client: RedisClient, watches: seq<Candidate>, tf: string) returns (prev: PrevStates)
    modifies client.breaker
    ensures prev == PrevStatesOf(client.db, watches, tf, client.now, old(client.On()))
    ensures client.On() == old(client.On())
  {
    prev := map[];
    for i := 0 to |watches|
      invariant prev == PrevStatesOf(client.db, watches[..i], tf, client.now, old(client.On()))
      invariant client.On() == old(client.On())
    {
      var p := client.GetWatchPrevEp(watches[i].alert.symbol, tf);
      prev := prev[watches[i].alert.symbol := p];
    }
    assert watches[..|watches|] == watches;
  }

  /** Splits the ranked queue into watches that are still fresh and rows for the stale ones. */
  method DropDecayed(s: Settings, client: RedisClient, ranked: seq<Candidate>, tf: string)
    returns (current: seq<Candidate>, stale: seq<Row>)
    modifies client.breaker
    ensures current == Keep(ranked, StillFresh(s, client.db, tf, client.now, old(client.On())))
    ensures stale == RowsFor(Keep(ranked, Decayed(s, client.db, tf, client.now, old(client.On()))), WATCH_DECAY)
    ensures client.On() == old(client.On())
  {
    current, stale := [], [];
    ghost var on := client.On();
    for i := 0 to |ranked|
      invariant current == Keep(ranked[..i], StillFresh(s, client.db, tf, client.now, on))
      invariant stale == RowsFor(Keep(ranked[..i], Decayed(s, client.db, tf, client.now, on)), WATCH_DECAY)
      invariant client.On() == on
    {
      var w := ranked[i];
      var cycles := client.GetWatchCycles(w.alert.symbol, tf);
      DecaySnoc(s, client.db, tf, client.now, on, ranked, i);
      if cycles >= s.watchDecayCycles {
        stale := stale + [Row(w.alert.symbol, WATCH_DECAY, Some(w.id))];
      } else {
        current := current + [w];
      }
    }
    assert ranked[..|ranked|] == ranked;
  }

  lemma DecaySnoc(s: Settings, db: Keyspace, tf: string, now: real, on: bool, ranked: seq<Candidate>, i: nat)
    requires i < |ranked|
    ensures var isFresh, isStale := StillFresh(s, db, tf, now, on), Decayed(s, db, tf, now, on);
            var w, young := ranked[i], Cycles(db, WatchKey(tf, ranked[i].alert.symbol), now, on) < s.watchDecayCycles;
      && Keep(ranked[..i + 1], isFresh) == Keep(ranked[..i], isFresh) + (if young then [w] else [])
      && RowsFor(Keep(ranked[..i + 1], isStale), WATCH_DECAY)
         == RowsFor(Keep(ranked[..i], isStale), WATCH_DECAY)
            + (if young then [] else [Row(w.alert.symbol, WATCH_DECAY, Some(w.id))])
  {
    KeepPrefix(ranked, i, StillFresh(s, db, tf, now, on));
    KeepPrefix(ranked, i, Decayed(s, db, tf, now, on));
  }

  /** Returns the kept watches, the rows of the others, and whether the circuit was open when the
      cap was decided. */
  method ApplyWatchPolicy(s: Settings, client: RedisClient, watches: seq<Candidate>, anyDirectional: bool,
                          prev: PrevStates, tf: string, regime: Regime)
    returns (sel: Selection, open: bool)
    modifies client.breaker
    ensures sel == SelectWatches(s, client.db, watches, anyDirectional, prev, tf, EffectiveCap(s, regime, open),
                                 client.now, old(client.On()))
    ensures old(client.On()) ==> !open
    ensures client.On() == old(client.On())
  {
    open := false;
    if anyDirectional {
      return Selection([], RowsFor(watches, WATCH_DROPPED_DIRECTIONAL_PRESENT)), open;
    }
    var ranked := SortDesc(watches, BoostedScore(s, prev));
    var current, dropped := DropDecayed(s, client, ranked, tf);
    var cap := WatchMaxForRegime(s, regime);
    open := client.breaker.CheckNow(client.now);
    if open {
      cap := if s.watchMaxStressed < cap then s.watchMaxStressed else cap;
    }
    assert dropped + RowsFor([], WATCH_CAP) == dropped;
    if |current| > cap {
      dropped := dropped + RowsFor(current[cap..], WATCH_CAP);
      current := current[..cap];
    }
    return Selection(current, dropped), open;
  }

  method CountCycles(s: Settings, client: RedisClient, kept: seq<Candidate>, prev: PrevStates, tf: string)
    returns (emitted: seq<Candidate>)
    modifies client`db, client.breaker
    ensures Commit(client.db, emitted)
         == CommitWatches(s, old(client.db), kept, prev, tf, client.now, old(client.On()))
    ensures client.On() == old(client.On())
  {
    emitted := [];
    for i := 0 to |kept|
      invariant Commit(client.db, emitted)
             == CommitWatches(s, old(client.db), kept[..i], prev, tf, client.now, old(client.On()))
      invariant client.On() == old(client.On())
    {
      var w := kept[i];
      var cycles := client.IncrWatchCycles(s, w.alert.symbol, tf, w.alert.edgeProbability, w.alert.confidence);
      if cycles >= s.watchPromotionMinCycles && cycles >= 0 && Improving(w.alert, prev) {
        w := w.(alert := w.alert.(thesis := "[\U{2191} STRENGTHENING \U{D7}" + Digits(cycles) + "] " + w.alert.thesis));
      }
      emitted := emitted + [w];
      assert kept[..i + 1][..i] == kept[..i];
    }
    assert kept[..|kept|] == kept;
  }

  /** The environment a run derives from its inputs. */
  ghost predicate IsEnvironment(env: GateEnv, s: Settings, snaps: seq<Snapshot>, refPrices: map<string, real>,
                                riskOff: bool, vix: Num, timeframe: string, session: Session)
  {
    var g := EffectiveGates(s, timeframe, env.regime, session);
    var sigs := AllSignals(snaps);
    && env.settings == s && env.timeframe == timeframe && env.riskOff == riskOff && env.session == session
    && env.vix == (if vix.Finite? then vix.value else 35.0)
    && env.regime == ClassifyRegime(env.vix, riskOff, |Keep(sigs, IsBull())|, |Keep(sigs, IsBear())|,
                                    MeanOrZero(Strengths(sigs)))
    && env.epGate == g.ep && env.saGate == g.sa && env.confGate == g.conf
    && env.snapTypes == TypeIndex(Reports(snaps))
    && AreFamilyMeans(env.familyScores, Reports(snaps))
    && AreBestScores(env.forecastScores, Reports(snaps), PriceForecast)
    && AreBestScores(env.volumeScores, Reports(snaps), VolumeSpike)
    && env.refPrices == refPrices
  }

  method BuildEnvironment(s: Settings, snaps: seq<Snapshot>, refPrices: map<string, real>, riskOff: bool, vix: Num,
                          timeframe: string, session: Session)
    returns (env: GateEnv)
    ensures IsEnvironment(env, s, snaps, refPrices, riskOff, vix, timeframe, session)
  {
    var snapTypes := BuildSnapTypeIndex(snaps);
    var familyScores := BuildSymbolFamilyScores(snaps);
    var forecasts := ExtractScores(snaps, PriceForecast);
    var volumes := ExtractScores(snaps, VolumeSpike);
    var level := if vix.Finite? then vix.value else 35.0;
    var bulls, bears, strength := SignalSurface(snaps);
    var regime := ClassifyRegime(level, riskOff, bulls, bears, strength);
    var g := DynamicGates(s, BaseGates(s, timeframe), timeframe, regime);
    g := SessionOverlay(s, g, timeframe, session);
    env := GateEnv(s, timeframe, regime, level, riskOff, g.ep, g.sa, g.conf, session, snapTypes, familyScores,
                   forecasts, volumes, refPrices);
  }

  /** The decision run on parsed input. `open` reports whether the circuit was open when the WATCH
      cap was read, which never happens while Redis answers. */
  method RunDecision(env: GateEnv, items: seq<RawItem>, pipeline: CandidateGatePipeline, client: RedisClient)
    returns (r: RunResult, open: bool)
    requires pipeline.stages == DEFAULT_STAGES
    modifies client`db, client.breaker
    ensures r == Run(env, items, old(client.db), client.now, old(client.On()),
                     EffectiveCap(env.settings, env.regime, open))
    ensures client.db == r.db
    ensures old(client.On()) ==> !open
    ensures client.On() == old(client.On())
  {
    var st := ScanItems(items, env, pipeline, client);
    var directional := Keep(st.alerts, IsDirectional());
    var watches := Keep(st.alerts, IsWatch());
    var prev := ReadPrevStates(client, watches, env.timeframe);
    var sel, circuitOpen := ApplyWatchPolicy(env.settings, client, watches, directional != [], prev, env.timeframe,
                                             env.regime);
    open := circuitOpen;
    var emitted := CountCycles(env.settings, client, sel.kept, prev, env.timeframe);
    if directional != [] {
      client.ResetWatchCycles(Symbols(directional), env.timeframe);
      client.ResetDedupKeys(Symbols(directional), env.timeframe);
    }
    r := RunResult(client.db, st, directional + emitted, st.rejections + sel.dropped,
                   st.watchRejections + sel.dropped, |directional|, |emitted|);
  }

  function GatesOf(rows: seq<Row>): (r: seq<GateRejection>)
    ensures |r| == |rows|
  {
    seq(|rows|, i requires 0 <= i < |rows| => rows[i].gate)
  }

  /** What a run reports to the session counters. */
  function Summary(items: seq<RawItem>, r: RunResult): RunSummary {
    RunSummary(|items|, r.directionalPassed, r.watchKept, GatesOf(r.scan.directionalRejections),
               GatesOf(r.watchRejections), r.scan.dedupSuppressed)
  }

  function AlertsOf(cs: seq<Candidate>): (r: seq<Alert>)
    ensures |r| == |cs|
    ensures forall i :: 0 <= i < |cs| ==> r[i] == cs[i].alert
  {
    seq(|cs|, i requires 0 <= i < |cs| => cs[i].alert)
  }
}
