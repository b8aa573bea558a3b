/** Alert lifecycle: resolving open rows as WIN, LOSS or EXPIRED, with forecast stop tightening
    (outcome_tracker.py, outcome_queries.py). Times are in hours. */
module OutcomeTracker {
  import opened Prelude
  import opened GateTypes

  datatype Result = WIN | LOSS | EXPIRED

  /** A stored alert; `entry` is None when its JSON is malformed or lacks a price. */
  datatype Row = Row(id: nat, symbol: string, direction: Direction, entry: Option<Entry>, timeframe: string,
                     createdAt: real, outcome: Option<Result>, pnl: real)

  datatype TrackerConfig = TrackerConfig(windowHours: real, openLimit: nat, staleDays: nat, tightenEnabled: bool,
                                         tightenRatio: real, minCushionPct: real)

  /** The flat form used for evaluation; only rows with positive prices have one. */
  function MapRow(row: Row): Option<Entry> {
    if row.entry.None? then None
    else
      var e := row.entry.value;
      if e.level <= 0.0 || e.stop <= 0.0 || e.target <= 0.0 then None else Some(e)
  }

  function ExpiryHours(c: TrackerConfig, timeframe: string): real {
    if timeframe == "5m" then 1.0
    else if timeframe == "15m" then 2.0
    else if timeframe == "1h" then 6.0
    else if timeframe == "4h" then 16.0
    else if timeframe == "1D" then 48.0
    else c.windowHours
  }

  function EvaluateOutcome(d: Direction, stop: real, target: real, price: real, deadline: real,
      now: real): Option<Result> {
    if d == WATCH then None
    else if (d == LONG && price >= target) || (d == SHORT && price <= target) then Some(WIN)
    else if (d == LONG && price <= stop) || (d == SHORT && price >= stop) then Some(LOSS)
    else if now >= deadline then Some(EXPIRED)
    else None
  }

  function MinCushion(c: TrackerConfig, level: real): real { level * (c.minCushionPct / 100.0) }

  predicate InProfit(d: Direction, level: real, price: real) {
    (d == LONG && price > level) || (d == SHORT && price < level)
  }

  function StopAt(d: Direction, level: real, share: real, cushion: real): real {
    if d == LONG then Max(level + share, level + cushion) else Min(level - share, level - cushion)
  }

  /** The part of the unrealised profit a tightened stop keeps. */
  function ProfitShare(c: TrackerConfig, profit: real): real { profit * c.tightenRatio }

  function TightenedStop(c: TrackerConfig, d: Direction, level: real, price: real): real {
    StopAt(d, level, ProfitShare(c, Profit(d, level, price)), MinCushion(c, level))
  }

  /** Whether the forecast check replaces the stop by `s`. */
  predicate Tightens(enabled: bool, d: Direction, e: Entry, price: real, agrees: bool, s: real) {
    enabled && InProfit(d, e.level, price) && !agrees && (d == LONG ==> s > e.stop) && (d == SHORT ==> s < e.stop)
  }

  /** A row's outcome at a price: first against its own stop, then against the tightened stop `s`. */
  function ResolveAt(enabled: bool, d: Direction, e: Entry, price: real, deadline: real, now: real, agrees: bool,
      s: real): Option<Result> {
    var plain := EvaluateOutcome(d, e.stop, e.target, price, deadline, now);
    if plain.Some? then plain
    else if Tightens(enabled, d, e, price, agrees, s) then EvaluateOutcome(d, s, e.target, price, deadline, now)
    else None
  }

  function Resolve(c: TrackerConfig, d: Direction, e: Entry, price: real, deadline: real, now: real,
      agrees: bool): Option<Result> {
    ResolveAt(c.tightenEnabled, d, e, price, deadline, now, agrees, TightenedStop(c, d, e.level, price))
  }

  function Profit(d: Direction, level: real, price: real): real {
    if d == LONG then price - level else level - price
  }

  function Pnl(d: Direction, level: real, price: real, r: Result): real {
    if r == EXPIRED then 0.0 else Profit(d, level, price)
  }

  // ---------------------------------------------------------------- what a resolution means

  /** The ranges the tightening settings are meant for. */
  predicate SaneTightening(c: TrackerConfig) { 0.0 <= c.tightenRatio < 1.0 && c.minCushionPct >= 0.0 }

  lemma CushionIsNonNegative(c: TrackerConfig, level: real)
    requires SaneTightening(c) && level > 0.0
    ensures MinCushion(c, level) >= 0.0
  {
    NonNegativeProduct(level, c.minCushionPct / 100.0);
  }

  lemma ShareIsPart(c: TrackerConfig, profit: real)
    requires SaneTightening(c) && profit > 0.0
    ensures 0.0 <= ProfitShare(c, profit) < profit
  {
    NonNegativeProduct(profit, c.tightenRatio);
    PositiveProduct(profit, 1.0 - c.tightenRatio);
    assert profit * (1.0 - c.tightenRatio) == profit - ProfitShare(c, profit);
  }

  /** The sign of a recorded profit, and exactly when a tightened stop closes a trade: a row left
      open by its own stop becomes a LOSS precisely when the forecast disagrees while the profit
      is positive but within the cushion, and that LOSS carries the positive profit. */
  lemma ResolutionMeaning(c: TrackerConfig, d: Direction, e: Entry, price: real, deadline: real, now: real,
      agrees: bool)
    requires d != WATCH && HasValidOrdering(e, d) && e.level > 0.0 && SaneTightening(c)
    ensures var plain, r := EvaluateOutcome(d, e.stop, e.target, price, deadline, now),
                            Resolve(c, d, e, price, deadline, now, agrees);
            var profit := Profit(d, e.level, price);
      && (r == Some(WIN) ==> profit > 0.0)
      && (plain == Some(LOSS) ==> r == plain && profit < 0.0)
      && (plain.None? ==>
            (r == Some(LOSS) <==> c.tightenEnabled && !agrees && 0.0 < profit <= MinCushion(c, e.level)))
      && (plain.None? ==> r == Some(LOSS) || r == None)
  {
    var u := Profit(d, e.level, price);
    CushionIsNonNegative(c, e.level);
    if u > 0.0 { TightenedStopClears(c, d, e.level, price); }
  }

  /** In profit, the tightened stop reaches the price exactly when the profit is within the cushion. */
  lemma TightenedStopClears(c: TrackerConfig, d: Direction, level: real, price: real)
    requires d != WATCH && SaneTightening(c) && level > 0.0 && Profit(d, level, price) > 0.0
    ensures var s := TightenedStop(c, d, level, price);
      && (Profit(d, level, price) <= Profit(d, level, s) <==> Profit(d, level, price) <= MinCushion(c, level))
      && Profit(d, level, s) >= 0.0
  {
    ShareIsPart(c, Profit(d, level, price));
    CushionIsNonNegative(c, level);
    StopClears(d, level, price, ProfitShare(c, Profit(d, level, price)), MinCushion(c, level));
  }

  lemma StopClears(d: Direction, level: real, price: real, share: real, cushion: real)
    requires d != WATCH && 0.0 <= share < Profit(d, level, price) && cushion >= 0.0
    ensures var s := StopAt(d, level, share, cushion);
      && (Profit(d, level, price) <= Profit(d, level, s) <==> Profit(d, level, price) <= cushion)
      && Profit(d, level, s) >= 0.0
  {
  }

  // ---------------------------------------------------------------- LONG and SHORT are mirror images

  function Reflect(level: real, price: real): real { 2.0 * level - price }

  function ReflectEntry(e: Entry): Entry { Entry(e.level, Reflect(e.level, e.stop), Reflect(e.level, e.target)) }

  lemma ProfitReflects(d: Direction, level: real, price: real)
    requires d != WATCH
    ensures Profit(Opposite(d), level, Reflect(level, price)) == Profit(d, level, price)
  {
  }

  lemma StopReflects(d: Direction, level: real, share: real, cushion: real)
    requires d != WATCH
    ensures StopAt(Opposite(d), level, share, cushion) == Reflect(level, StopAt(d, level, share, cushion))
  {
  }

  lemma ResolutionReflects(enabled: bool, d: Direction, e: Entry, price: real, deadline: real, now: real,
      agrees: bool, s: real)
    ensures ResolveAt(enabled, Opposite(d), ReflectEntry(e), Reflect(e.level, price), deadline, now, agrees,
                      Reflect(e.level, s))
         == ResolveAt(enabled, d, e, price, deadline, now, agrees, s)
  {
  }

  /** Reflecting every price about the entry turns a LONG into a SHORT: ordering, evaluation,
      tightening and profit all correspond. */
  lemma ShortIsReflectedLong(c: TrackerConfig, d: Direction, e: Entry, price: real, deadline: real, now: real,
      agrees: bool)
    requires d != WATCH
    ensures var e', p' := ReflectEntry(e), Reflect(e.level, price);
      && (HasValidOrdering(e', Opposite(d)) <==> HasValidOrdering(e, d))
      && Resolve(c, Opposite(d), e', p', deadline, now, agrees) == Resolve(c, d, e, price, deadline, now, agrees)
      && Profit(Opposite(d), e.level, p') == Profit(d, e.level, price)
      && TightenedStop(c, Opposite(d), e.level, p') == Reflect(e.level, TightenedStop(c, d, e.level, price))
  {
    var p' := Reflect(e.level, price);
    ProfitReflects(d, e.level, price);
    StopReflects(d, e.level, ProfitShare(c, Profit(d, e.level, price)), MinCushion(c, e.level));
    ResolutionReflects(c.tightenEnabled, d, e, price, deadline, now, agrees, TightenedStop(c, d, e.level, price));
  }

  // ---------------------------------------------------------------- the table

  type Table = map<nat, Row>

  predicate Keyed(t: Table) { forall id :: id in t ==> t[id].id == id }

  /** What the prices of a resolved row say, given its entry. */
  predicate SoundOutcome(c: TrackerConfig, row: Row) {
    row.outcome.Some? ==>
      && (row.direction == WATCH ==> row.outcome.value == EXPIRED)
      && (row.outcome.value == EXPIRED ==> row.pnl == 0.0)
      && (row.entry.Some? && HasValidOrdering(row.entry.value, row.direction) && SaneTightening(c) ==>
            && (row.outcome.value == WIN ==> row.pnl > 0.0)
            && (row.outcome.value == LOSS ==>
                  row.pnl < 0.0 || (c.tightenEnabled && 0.0 < row.pnl <= MinCushion(c, row.entry.value.level))))
  }

  /** How one row may change: an open row may be resolved once, soundly; nothing else ever changes. */
  predicate RowEvolves(c: TrackerConfig, before: Row, after: Row) {
    && after == before.(outcome := after.outcome, pnl := after.pnl)
    && (before.outcome.Some? ==> after == before)
    && (before.outcome.None? ==> (after.outcome.None? ==> after == before) && SoundOutcome(c, after))
  }

  ghost predicate Evolves(c: TrackerConfig, before: Table, after: Table) {
    && after.Keys == before.Keys
    && forall id :: id in before ==> RowEvolves(c, before[id], after[id])
  }

  lemma EvolvesTransitive(c: TrackerConfig, t0: Table, t1: Table, t2: Table)
    requires Evolves(c, t0, t1) && Evolves(c, t1, t2)
    ensures Evolves(c, t0, t2)
  {
    forall id | id in t0 ensures RowEvolves(c, t0[id], t2[id]) {
      assert RowEvolves(c, t0[id], t1[id]) && RowEvolves(c, t1[id], t2[id]);
    }
  }

  function ResolvedIds(t: Table): set<nat> { set id | id in t && t[id].outcome.Some? }

  function CreatedAt(t: Table): nat -> real { (id: nat) => if id in t then t[id].createdAt else 0.0 }

  /** What the outside world answers during one cycle. */
  datatype Market = Market(open: bool, price: nat -> Option<real>,
                           forecast: (string, Direction, string) -> Option<bool>)

  /** The timeframe a forecast request carries; a row without one asks for the shortest default. */
  function AskedTimeframe(row: Row): string { if row.timeframe == "" then "15m" else row.timeframe }

  /** What the service itself says about the row, when asked for its symbol, direction and timeframe;
      an unavailable service agrees. */
  predicate OwnVerdict(row: Row, m: Market) {
    m.forecast(row.symbol, row.direction, AskedTimeframe(row)) != Some(false)
  }

  type Verdicts = map<string, bool>

  function Deadline(c: TrackerConfig, row: Row): real { row.createdAt + ExpiryHours(c, row.timeframe) }

  /** The forecast verdict for a row: the one already obtained in this cycle for its symbol, else the
      service's. */
  function Verdict(row: Row, m: Market, cache: Verdicts): bool {
    if row.symbol in cache then cache[row.symbol] else OwnVerdict(row, m)
  }

  /** A row that is priced and mapped. */
  predicate Evaluable(row: Row, m: Market) {
    row.direction != WATCH && MapRow(row).Some? && m.price(row.id).Some?
  }

  /** What a cycle makes of one open row: resolved as `Resolve` says, or left exactly as it was. */
  function StepRow(c: TrackerConfig, row: Row, m: Market, now: real, cache: Verdicts): Row {
    if !Evaluable(row, m) then row
    else
      var e, price := MapRow(row).value, m.price(row.id).value;
      match Resolve(c, row.direction, e, price, Deadline(c, row), now, Verdict(row, m, cache))
      case None => row
      case Some(r) => row.(outcome := Some(r), pnl := Pnl(row.direction, e.level, price, r))
  }

  /** The forecast is asked only for a row its own levels leave open, in profit. */
  predicate AsksForecast(c: TrackerConfig, row: Row, m: Market, now: real) {
    && Evaluable(row, m) && c.tightenEnabled
    && var e, price := MapRow(row).value, m.price(row.id).value;
       && EvaluateOutcome(row.direction, e.stop, e.target, price, Deadline(c, row), now).None?
       && InProfit(row.direction, e.level, price)
  }

  function StepCache(c: TrackerConfig, row: Row, m: Market, now: real, cache: Verdicts): Verdicts {
    if AsksForecast(c, row, m, now) then cache[row.symbol := Verdict(row, m, cache)] else cache
  }

  /** The verdicts known once the first i fetched rows are processed. */
  function CacheAfter(c: TrackerConfig, t: Table, ids: seq<nat>, m: Market, now: real, i: nat): Verdicts
    requires i <= |ids| && forall id :: id in ids ==> id in t
  {
    if i == 0 then map[] else StepCache(c, t[ids[i - 1]], m, now, CacheAfter(c, t, ids, m, now, i - 1))
  }

  /** Fetched row j is the first of its symbol for which the forecast is asked. */
  ghost predicate FirstAsker(c: TrackerConfig, t: Table, ids: seq<nat>, m: Market, now: real, sym: string, j: nat)
    requires j < |ids| && forall id :: id in ids ==> id in t
  {
    && t[ids[j]].symbol == sym && AsksForecast(c, t[ids[j]], m, now)
    && forall k :: 0 <= k < j && t[ids[k]].symbol == sym ==> !AsksForecast(c, t[ids[k]], m, now)
  }

  /** A cached verdict is the answer given for the first asking row of the symbol, whatever the
      direction and the timeframe of the rows that follow. */
  lemma {:induction false} CacheIsFirstAnswer(c: TrackerConfig, t: Table, ids: seq<nat>, m: Market, now: real, i: nat,
                                              sym: string)
    requires i <= |ids| && forall id :: id in ids ==> id in t
    ensures var cache := CacheAfter(c, t, ids, m, now, i);
      && (sym in cache <==> exists j :: 0 <= j < i && FirstAsker(c, t, ids, m, now, sym, j))
      && (forall j :: 0 <= j < i && FirstAsker(c, t, ids, m, now, sym, j) ==>
            sym in cache && cache[sym] == OwnVerdict(t[ids[j]], m))
  {
    if i > 0 {
      CacheIsFirstAnswer(c, t, ids, m, now, i - 1, sym);
      var before, row := CacheAfter(c, t, ids, m, now, i - 1), t[ids[i - 1]];
      if row.symbol == sym && AsksForecast(c, row, m, now) {
        NoEarlierAsker(c, t, ids, m, now, sym, i - 1);
      }
    }
  }

  /** An asking row is the first of its symbol, or one before it is. */
  lemma {:induction false} NoEarlierAsker(c: TrackerConfig, t: Table, ids: seq<nat>, m: Market, now: real, sym: string,
                                          j: nat)
    requires j < |ids| && forall id :: id in ids ==> id in t
    requires t[ids[j]].symbol == sym && AsksForecast(c, t[ids[j]], m, now)
    ensures exists k :: 0 <= k <= j && FirstAsker(c, t, ids, m, now, sym, k)
  {
    if k :| 0 <= k < j && t[ids[k]].symbol == sym && AsksForecast(c, t[ids[k]], m, now) {
      NoEarlierAsker(c, t, ids, m, now, sym, k);
    } else {
      assert FirstAsker(c, t, ids, m, now, sym, j);
    }
  }

  /** A row is judged by its own forecast if and only if no earlier row of its symbol asked, or the
      first that did got the same answer. */
  lemma OwnVerdictCounts(c: TrackerConfig, t: Table, ids: seq<nat>, m: Market, now: real, i: nat)
    requires i < |ids| && forall id :: id in ids ==> id in t
    ensures var row := t[ids[i]];
      Verdict(row, m, CacheAfter(c, t, ids, m, now, i)) == OwnVerdict(row, m)
      <==> forall j :: 0 <= j < i && FirstAsker(c, t, ids, m, now, row.symbol, j) ==>
             OwnVerdict(t[ids[j]], m) == OwnVerdict(row, m)
  {
    CacheIsFirstAnswer(c, t, ids, m, now, i, t[ids[i]].symbol);
  }

  /** A SHORT closed on the verdict given for a LONG of the same symbol: its own forecast agrees with
      it, and alone it would stay open. */
  lemma ShortClosedOnLongVerdict(c: TrackerConfig) returns (t: Table, ids: seq<nat>, m: Market)
    requires c.tightenEnabled && c.tightenRatio == 0.5 && c.minCushionPct == 1.0 && c.openLimit >= 2
    ensures ids == [1, 0] && t.Keys == {0, 1} && IsFetch(t, c.openLimit, ids)
    ensures t[1].direction == LONG && t[0].direction == SHORT && t[1].symbol == t[0].symbol
    ensures OwnVerdict(t[0], m) && StepRow(c, t[0], m, 0.0, map[]) == t[0]
    ensures StepRow(c, t[0], m, 0.0, CacheAfter(c, t, ids, m, 0.0, 1)).outcome == Some(LOSS)
  {
    var long := Row(1, "X", LONG, Some(Entry(100.0, 90.0, 120.0)), "4h", 0.0, None, 0.0);
    var short := Row(0, "X", SHORT, Some(Entry(102.0, 110.0, 90.0)), "4h", 0.0, None, 0.0);
    t, ids := map[1 := long, 0 := short], [1, 0];
    m := Market(true, (id: nat) => Some(101.0), (sym: string, d: Direction, tf: string) => Some(d == SHORT));
    assert CacheAfter(c, t, ids, m, 0.0, 0) == map[];
    assert CacheAfter(c, t, ids, m, 0.0, 1) == StepCache(c, long, m, 0.0, map[]);
    assert EvaluateOutcome(LONG, 90.0, 120.0, 101.0, Deadline(c, long), 0.0) == None;
    assert AsksForecast(c, long, m, 0.0) && !Verdict(long, m, map[]);
    assert MinCushion(c, 102.0) == 1.02;
    assert TightenedStop(c, SHORT, 102.0, 101.0) == 100.98;
  }

  /** The direction is not the only thing lost: a LONG on the 4h timeframe closed on the verdict given
      for a LONG of the same symbol on the 15m one. */
  lemma LongTimeframeClosedOnShortOne(c: TrackerConfig) returns (t: Table, ids: seq<nat>, m: Market)
    requires c.tightenEnabled && c.tightenRatio == 0.5 && c.minCushionPct == 1.0 && c.openLimit >= 2
    ensures ids == [1, 0] && t.Keys == {0, 1} && IsFetch(t, c.openLimit, ids)
    ensures t[1] == t[0].(id := 1, timeframe := "15m") && t[0].timeframe == "4h"
    ensures OwnVerdict(t[0], m) && StepRow(c, t[0], m, 0.0, map[]) == t[0]
    ensures StepRow(c, t[0], m, 0.0, CacheAfter(c, t, ids, m, 0.0, 1)).outcome == Some(LOSS)
  {
    var slow := Row(0, "X", LONG, Some(Entry(100.0, 90.0, 120.0)), "4h", 0.0, None, 0.0);
    var quick := slow.(id := 1, timeframe := "15m");
    t, ids := map[1 := quick, 0 := slow], [1, 0];
    m := Market(true, (id: nat) => Some(101.0), (sym: string, d: Direction, tf: string) => Some(tf != "15m"));
    assert CacheAfter(c, t, ids, m, 0.0, 0) == map[];
    assert CacheAfter(c, t, ids, m, 0.0, 1) == StepCache(c, quick, m, 0.0, map[]);
    assert AskedTimeframe(quick) == "15m" && AskedTimeframe(slow) == "4h";
    assert EvaluateOutcome(LONG, 90.0, 120.0, 101.0, Deadline(c, quick), 0.0) == None;
    assert AsksForecast(c, quick, m, 0.0) && !Verdict(quick, m, map[]);
    assert MinCushion(c, 100.0) == 1.0;
    assert TightenedStop(c, LONG, 100.0, 101.0) == 101.0;
  }

  /** A processed row evolves soundly. */
  lemma StepIsSound(c: TrackerConfig, row: Row, m: Market, now: real, cache: Verdicts)
    requires row.outcome.None?
    ensures RowEvolves(c, row, StepRow(c, row, m, now, cache))
  {
    if Evaluable(row, m) {
      var e, price := MapRow(row).value, m.price(row.id).value;
      if HasValidOrdering(e, row.direction) && SaneTightening(c) {
        ResolutionMeaning(c, row.direction, e, price, Deadline(c, row), now, Verdict(row, m, cache));
      }
    }
  }

  /** What a fetch of open rows returns: unresolved rows, newest first, at most the limit, none newer
      left out. */
  ghost predicate IsFetch(t: Table, limit: nat, ids: seq<nat>) {
    && (forall id :: id in ids ==> id in t && t[id].outcome.None?)
    && (forall i, j :: 0 <= i < j < |ids| ==> ids[i] != ids[j])
    && |ids| <= limit
    && NonIncreasing(ids, CreatedAt(t))
    && (forall a :: a in t && t[a].outcome.None? && a !in ids ==>
          |ids| == limit && forall b :: b in ids ==> CreatedAt(t)(b) >= CreatedAt(t)(a))
  }

  /** What a cycle makes of each fetched row. */
  function Targets(c: TrackerConfig, t: Table, ids: seq<nat>, m: Market, now: real): (r: seq<Row>)
    requires forall id :: id in ids ==> id in t
    ensures |r| == |ids|
    ensures forall i :: 0 <= i < |ids| ==> r[i] == StepRow(c, t[ids[i]], m, now, CacheAfter(c, t, ids, m, now, i))
  {
    seq(|ids|, i requires 0 <= i < |ids| => StepRow(c, t[ids[i]], m, now, CacheAfter(c, t, ids, m, now, i)))
  }

  /** The first n rows named took the values given; no other row changed. */
  ghost predicate Updated(before: Table, after: Table, ids: seq<nat>, targets: seq<Row>, n: nat)
    requires n <= |ids| == |targets|
  {
    && after.Keys == before.Keys
    && (forall id :: id in ids ==> id in before)
    && (forall i :: 0 <= i < n ==> after[ids[i]] == targets[i])
    && (forall id :: id in before && id !in ids[..n] ==> after[id] == before[id])
  }

  lemma UpdatedNext(before: Table, t: Table, ids: seq<nat>, targets: seq<Row>, n: nat)
    requires n < |ids| == |targets| && Updated(before, t, ids, targets, n)
    requires forall i, j :: 0 <= i < j < |ids| ==> ids[i] != ids[j]
    ensures Updated(before, t[ids[n] := targets[n]], ids, targets, n + 1)
  {
    assert ids[..n + 1] == ids[..n] + [ids[n]];
  }

  /** One cycle's effect, given the rows it fetched: each became what its step says, no other changed. */
  ghost predicate CycleBy(c: TrackerConfig, before: Table, after: Table, m: Market, now: real, ids: seq<nat>) {
    && (!m.open ==> ids == [])
    && (m.open ==> IsFetch(before, c.openLimit, ids))
    && (forall id :: id in ids ==> id in before)
    && Updated(before, after, ids, Targets(c, before, ids, m, now), |ids|)
  }

  /** One stale sweep's effect, given the rows it fetched. */
  ghost predicate SweepBy(c: TrackerConfig, before: Table, after: Table, now: real, ids: seq<nat>) {
    && IsFetch(before, c.openLimit, ids)
    && after.Keys == before.Keys
    && forall id :: id in after ==> after[id] == Aged(c, before[id], now, id in ids)
  }

  predicate IsStale(c: TrackerConfig, row: Row, now: real) { now - row.createdAt >= 24.0 * c.staleDays as real }

  /** What the stale sweep makes of a row, fetched or not. */
  function Aged(c: TrackerConfig, row: Row, now: real, fetched: bool): Row {
    if fetched && IsStale(c, row, now) then row.(outcome := Some(EXPIRED), pnl := 0.0) else row
  }

  class Tracker {
    var rows: Table
    const config: TrackerConfig

    constructor (rows: Table, config: TrackerConfig)
      ensures this.rows == rows && this.config == config
    {
      this.rows, this.config := rows, config;
    }

    method CollectOpen() returns (found: seq<nat>)
      ensures forall id :: id in found ==> id in rows && rows[id].outcome.None?
      ensures forall id :: id in rows && rows[id].outcome.None? ==> id in found
      ensures forall i, j :: 0 <= i < j < |found| ==> found[i] != found[j]
    {
      var todo := set id | id in rows && rows[id].outcome.None?;
      found := [];
      while todo != {}
        invariant forall id :: id in todo ==> id in rows && rows[id].outcome.None?
        invariant forall id :: id in found ==> id in rows && rows[id].outcome.None? && id !in todo
        invariant forall id :: id in rows && rows[id].outcome.None? ==> id in todo || id in found
        invariant forall i, j :: 0 <= i < j < |found| ==> found[i] != found[j]
        decreases todo
      {
        var id :| id in todo;
        todo := todo - {id};
        found := found + [id];
      }
    }

    method FetchOpen() returns (ids: seq<nat>)
      ensures IsFetch(rows, config.openLimit, ids)
    {
      var found := CollectOpen();
      NewestMeaning(found, CreatedAt(rows), config.openLimit);
      return Newest(found, CreatedAt(rows), config.openLimit);
    }

    method UpdateOutcome(id: nat, r: Result, pnl: real)
      requires id in rows
      modifies this`rows
      ensures rows == old(rows)[id := old(rows)[id].(outcome := Some(r), pnl := pnl)]
    {
      rows := rows[id := rows[id].(outcome := Some(r), pnl := pnl)];
    }

    /** Forecast verdict for a row's symbol, asked at most once per cycle. */
    method CheckForecast(row: Row, m: Market, cache: Verdicts) returns (agrees: bool, cache': Verdicts)
      ensures agrees == Verdict(row, m, cache) && cache' == cache[row.symbol := agrees]
    {
      if row.symbol in cache { return cache[row.symbol], cache; }
      agrees := match m.forecast(row.symbol, row.direction, AskedTimeframe(row)) case Some(b) => b case None => true;
      return agrees, cache[row.symbol := agrees];
    }

    /** Evaluates a mapped row, asking the forecast only when an open row is in profit. */
    method EvaluateRow(row: Row, m: Market, now: real, cache: Verdicts)
      returns (outcome: Option<Result>, cache': Verdicts)
      requires Evaluable(row, m)
      ensures outcome == Resolve(config, row.direction, MapRow(row).value, m.price(row.id).value, Deadline(config, row),
                                 now, Verdict(row, m, cache))
      ensures cache' == StepCache(config, row, m, now, cache)
    {
      var e, price := MapRow(row).value, m.price(row.id).value;
      outcome := EvaluateOutcome(row.direction, e.stop, e.target, price, Deadline(config, row), now);
      cache' := cache;
      if outcome.Some? || !config.tightenEnabled || !InProfit(row.direction, e.level, price) { return; }
      var agrees;
      agrees, cache' := CheckForecast(row, m, cache);
      if agrees { return; }
      var stop := TightenedStop(config, row.direction, e.level, price);
      if (row.direction == LONG && stop <= e.stop) || (row.direction == SHORT && stop >= e.stop) { return; }
      outcome := EvaluateOutcome(row.direction, stop, e.target, price, Deadline(config, row), now);
    }

    /** One row of the cycle. */
    method ProcessRow(id: nat, m: Market, now: real, cache: Verdicts) returns (resolved: nat, cache': Verdicts)
      requires id in rows && rows[id].outcome.None? && rows[id].id == id
      modifies this`rows
      ensures rows == old(rows)[id := StepRow(config, old(rows)[id], m, now, cache)]
      ensures cache' == StepCache(config, old(rows)[id], m, now, cache)
      ensures resolved == if rows[id].outcome.Some? then 1 else 0
    {
      var row := rows[id];
      resolved, cache' := 0, cache;
      if row.direction == WATCH { return; }
      var mapped := MapRow(row);
      if mapped.None? { return; }
      var priced := m.price(id);
      if priced.None? { return; }
      var outcome;
      outcome, cache' := EvaluateRow(row, m, now, cache);
      if outcome.None? { return; }
      UpdateOutcome(id, outcome.value, Pnl(row.direction, mapped.value.level, priced.value, outcome.value));
      resolved := 1;
    }

    /** The next of the rows fetched from the table `start`. */
    method ProcessFetched(ghost start: Table, open: seq<nat>, i: nat, m: Market, now: real, cache: Verdicts)
      returns (resolved: nat, cache': Verdicts)
      requires IsFetch(start, config.openLimit, open) && i < |open| && Keyed(rows)
      requires Updated(start, rows, open, Targets(config, start, open, m, now), i)
      requires cache == CacheAfter(config, start, open, m, now, i)
      modifies this`rows
      ensures Updated(start, rows, open, Targets(config, start, open, m, now), i + 1) && Keyed(rows)
      ensures cache' == CacheAfter(config, start, open, m, now, i + 1)
      ensures |ResolvedIds(rows)| == |ResolvedIds(old(rows))| + resolved
    {
      assert open[i] !in open[..i];
      resolved, cache' := ProcessRow(open[i], m, now, cache);
      UpdatedNext(start, old(rows), open, Targets(config, start, open, m, now), i);
      OneMoreResolved(old(rows), rows, open[i]);
    }

    /** One tracker cycle: every fetched row becomes what its step says, under the verdicts obtained
        for the rows before it, and no other row changes. `resolved` counts the new outcomes. */
    method RunCycle(m: Market, now: real) returns (resolved: nat, ghost ids: seq<nat>)
      requires Keyed(rows)
      modifies this`rows
      ensures CycleBy(config, old(rows), rows, m, now, ids) && Keyed(rows)
      ensures |ResolvedIds(rows)| == |ResolvedIds(old(rows))| + resolved
    {
      resolved, ids := 0, [];
      if !m.open { return; }
      var open := FetchOpen();
      ids := open;
      var cache: Verdicts := map[];
      for i := 0 to |open|
        invariant Updated(old(rows), rows, open, Targets(config, old(rows), open, m, now), i) && Keyed(rows)
        invariant cache == CacheAfter(config, old(rows), open, m, now, i)
        invariant |ResolvedIds(rows)| == |ResolvedIds(old(rows))| + resolved
      {
        var n;
        n, cache := ProcessFetched(old(rows), open, i, m, now, cache);
        resolved := resolved + n;
      }
    }

    /** Expires exactly the fetched open rows that reached the stale limit, WATCH rows included. */
    method ExpireStale(now: real) returns (expired: nat, ghost ids: seq<nat>)
      requires Keyed(rows)
      modifies this`rows
      ensures SweepBy(config, old(rows), rows, now, ids) && Keyed(rows)
      ensures |ResolvedIds(rows)| == |ResolvedIds(old(rows))| + expired
    {
      expired := 0;
      var open := FetchOpen();
      ids := open;
      for i := 0 to |open|
        invariant rows.Keys == old(rows).Keys && Keyed(rows)
        invariant forall id :: id in rows ==>
          rows[id] == Aged(config, old(rows)[id], now, id in open[..i])
        invariant |ResolvedIds(rows)| == |ResolvedIds(old(rows))| + expired
      {
        assert open[i] !in open[..i];
        if IsStale(config, rows[open[i]], now) {
          ghost var before := rows;
          UpdateOutcome(open[i], EXPIRED, 0.0);
          OneMoreResolved(before, rows, open[i]);
          expired := expired + 1;
        }
      }
      assert open[..|open|] == open;
    }

    /** The polling loop, for any number of iterations. `tables` holds the table at the start and
        after every cycle and every sweep: each is one step from the one before, and between any two
        of them a row is resolved at most once, soundly, and nothing else about it changes. */
    method RunLoop(markets: seq<(Market, real)>) returns (ghost tables: seq<Table>)
      requires Keyed(rows)
      modifies this`rows
      ensures |tables| == 2 * |markets| + 1 && tables[0] == old(rows) && tables[2 * |markets|] == rows
      ensures forall k :: 0 <= k < |markets| ==> Round(config, tables, k, markets[k])
      ensures forall i, j :: 0 <= i <= j < |tables| ==> Evolves(config, tables[i], tables[j])
      ensures Keyed(rows)
    {
      tables := [rows];
      for i := 0 to |markets|
        invariant |tables| == 2 * i + 1 && tables[0] == old(rows) && tables[2 * i] == rows && Keyed(rows)
        invariant forall k :: 0 <= k < i ==> Round(config, tables, k, markets[k])
        invariant Chronicle(config, tables)
      {
        ghost var before, past := rows, tables;
        var resolved, fetched := RunCycle(markets[i].0, markets[i].1);
        ghost var mid := rows;
        var expired, swept := ExpireStale(markets[i].1);
        CycleEvolves(config, before, mid, markets[i].0, markets[i].1, fetched);
        SweepEvolves(config, mid, rows, markets[i].1, swept);
        ChronicleGrows(config, tables, mid);
        ChronicleGrows(config, tables + [mid], rows);
        tables := tables + [mid] + [rows];
        RoundsKept(config, past, mid, rows, i, markets);
      }
    }
  }

  /** Any two tables of the history, in order, differ only by sound first resolutions. */
  ghost predicate Chronicle(c: TrackerConfig, tables: seq<Table>) {
    forall i, j :: 0 <= i <= j < |tables| ==> Evolves(c, tables[i], tables[j])
  }

  ghost predicate CycleStep(c: TrackerConfig, before: Table, after: Table, m: Market, now: real) {
    exists ids :: CycleBy(c, before, after, m, now, ids)
  }

  ghost predicate SweepStep(c: TrackerConfig, before: Table, after: Table, now: real) {
    exists ids :: SweepBy(c, before, after, now, ids)
  }

  /** Iteration k is one cycle followed by one sweep. */
  ghost predicate Round(c: TrackerConfig, tables: seq<Table>, k: nat, market: (Market, real)) {
    && 2 * k + 2 < |tables|
    && CycleStep(c, tables[2 * k], tables[2 * k + 1], market.0, market.1)
    && SweepStep(c, tables[2 * k + 1], tables[2 * k + 2], market.1)
  }

  lemma ChronicleGrows(c: TrackerConfig, tables: seq<Table>, next: Table)
    requires tables != [] && Chronicle(c, tables) && Evolves(c, tables[|tables| - 1], next)
    ensures Chronicle(c, tables + [next])
  {
    forall i | 0 <= i < |tables| ensures Evolves(c, tables[i], next) {
      EvolvesTransitive(c, tables[i], tables[|tables| - 1], next);
    }
  }

  lemma RoundsKept(c: TrackerConfig, past: seq<Table>, mid: Table, last: Table, n: nat, markets: seq<(Market, real)>)
    requires n < |markets| && |past| == 2 * n + 1
    requires forall k :: 0 <= k < n ==> Round(c, past, k, markets[k])
    requires CycleStep(c, past[2 * n], mid, markets[n].0, markets[n].1) && SweepStep(c, mid, last, markets[n].1)
    ensures forall k :: 0 <= k <= n ==> Round(c, past + [mid] + [last], k, markets[k])
  {
    var tables := past + [mid] + [last];
    forall k | 0 <= k <= n ensures Round(c, tables, k, markets[k]) {
      if k < n {
        RoundKept(c, past, tables, k, markets[k]);
      } else {
        assert tables[2 * k] == past[2 * n] && tables[2 * k + 1] == mid && tables[2 * k + 2] == last;
      }
    }
  }

  lemma RoundKept(c: TrackerConfig, past: seq<Table>, tables: seq<Table>, k: nat, market: (Market, real))
    requires past <= tables && Round(c, past, k, market)
    ensures Round(c, tables, k, market)
  {}

  lemma CycleEvolves(c: TrackerConfig, before: Table, after: Table, m: Market, now: real, ids: seq<nat>)
    requires CycleBy(c, before, after, m, now, ids)
    ensures Evolves(c, before, after)
  {
    forall id | id in before ensures RowEvolves(c, before[id], after[id]) {
      if id in ids {
        var i :| 0 <= i < |ids| && ids[i] == id;
        StepIsSound(c, before[id], m, now, CacheAfter(c, before, ids, m, now, i));
      } else {
        assert id !in ids[..|ids|];
      }
    }
  }

  lemma SweepEvolves(c: TrackerConfig, before: Table, after: Table, now: real, ids: seq<nat>)
    requires SweepBy(c, before, after, now, ids)
    ensures Evolves(c, before, after)
  {}

  lemma OneMoreResolved(before: Table, after: Table, id: nat)
    requires after.Keys == before.Keys && id in before && before[id].outcome.None?
    requires forall k :: k in after && k != id ==> after[k] == before[k]
    ensures |ResolvedIds(after)| == |ResolvedIds(before)| + if after[id].outcome.Some? then 1 else 0
  {
    if after[id].outcome.Some? {
      assert ResolvedIds(after) == ResolvedIds(before) + {id};
    } else {
      assert ResolvedIds(after) == ResolvedIds(before);
    }
  }

  function Newest(found: seq<nat>, key: nat -> real, limit: nat): seq<nat> {
    var sorted := SortDesc(found, key);
    if |sorted| > limit then sorted[..limit] else sorted
  }

  lemma NewestMeaning(found: seq<nat>, key: nat -> real, limit: nat)
    requires forall i, j :: 0 <= i < j < |found| ==> found[i] != found[j]
    ensures var ids := Newest(found, key, limit);
      && |ids| <= limit && NonIncreasing(ids, key)
      && (|found| <= limit ==> forall a :: a in found ==> a in ids)
      && (|found| > limit ==> |ids| == limit)
      && (forall id :: id in ids ==> id in found)
      && (forall i, j :: 0 <= i < j < |ids| ==> ids[i] != ids[j])
      && (forall a, b :: a in found && a !in ids && b in ids ==> key(b) >= key(a))
  {
    var sorted := SortDesc(found, key);
    SortDescSpec(found, key);
    DistinctPermuted(found, sorted);
    if |sorted| > limit {
      NonIncreasingPrefix(sorted, limit, key);
      forall a, b | a in sorted && a !in sorted[..limit] && b in sorted[..limit] ensures key(b) >= key(a) {
        OmittedIsOlder(sorted, limit, key, a, b);
      }
    }
  }

  lemma OmittedIsOlder(sorted: seq<nat>, limit: nat, key: nat -> real, a: nat, b: nat)
    requires limit <= |sorted| && NonIncreasing(sorted, key)
    requires a in sorted && a !in sorted[..limit] && b in sorted[..limit]
    ensures key(b) >= key(a)
  {
    CutKeepsBest(sorted, limit, key);
    assert sorted == sorted[..limit] + sorted[limit..];
  }

  lemma NonIncreasingPrefix(xs: seq<nat>, k: nat, key: nat -> real)
    requires k <= |xs| && NonIncreasing(xs, key)
    ensures NonIncreasing(xs[..k], key)
  {
  }
}
