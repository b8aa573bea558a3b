/** What the tracker makes of a row, in terms of its prices, its age and the forecast alone
    (outcome_tracker.py, outcome_queries.py). */
module OutcomeLaws {
  import opened Prelude
  import opened GateTypes
  import opened OutcomeTracker

  /** A trade the tracker can judge: positive prices in the order of its direction, and a market price. */
  predicate Judgeable(row: Row, m: Market) {
    && row.entry.Some? && m.price(row.id).Some?
    && var e := row.entry.value;
       || (row.direction == LONG && 0.0 < e.stop < e.level < e.target)
       || (row.direction == SHORT && 0.0 < e.target < e.level < e.stop)
  }

  /** The distance from the entry to p, counted in the trade's favour. */
  function Gain(row: Row, p: real): real
    requires row.entry.Some?
  {
    if row.direction == LONG then p - row.entry.value.level else row.entry.value.level - p
  }

  /** The age at which a trade of the timeframe expires. */
  predicate IsLifetime(c: TrackerConfig, timeframe: string, hours: real) {
    && (timeframe == "5m" ==> hours == 1.0)
    && (timeframe == "15m" ==> hours == 2.0)
    && (timeframe == "1h" ==> hours == 6.0)
    && (timeframe == "4h" ==> hours == 16.0)
    && (timeframe == "1D" ==> hours == 48.0)
    && (timeframe !in {"5m", "15m", "1h", "4h", "1D"} ==> hours == c.windowHours)
  }

  lemma LifetimeIs(c: TrackerConfig, timeframe: string)
    ensures IsLifetime(c, timeframe, ExpiryHours(c, timeframe))
  {}

  /** At the price the trade has reached its target, or its stop. */
  predicate AtTarget(row: Row, price: real)
    requires row.entry.Some?
  {
    Gain(row, price) >= Gain(row, row.entry.value.target)
  }

  predicate AtStop(row: Row, price: real)
    requires row.entry.Some?
  {
    Gain(row, price) <= Gain(row, row.entry.value.stop)
  }

  /** In profit, but by no more than the cushion the configuration asks for. */
  predicate WithinCushion(c: TrackerConfig, row: Row, price: real)
    requires row.entry.Some?
  {
    0.0 < Gain(row, price) && 100.0 * Gain(row, price) <= row.entry.value.level * c.minCushionPct
  }

  predicate Resolved(before: Row, after: Row, r: Result, pnl: real) {
    after == before.(outcome := Some(r), pnl := pnl)
  }

  /** What becomes of an open trade at a price: it wins at its target, loses at its stop, expires at the
      end of its lifetime, is closed with its small profit where the forecast has turned against it, and
      otherwise stays as it is. */
  ghost predicate JudgedAt(c: TrackerConfig, before: Row, after: Row, price: real, now: real, agrees: bool)
    requires before.entry.Some?
  {
    exists hours :: IsLifetime(c, before.timeframe, hours) &&
      var late, gain := now - before.createdAt >= hours, Gain(before, price);
      && (AtTarget(before, price) <==> Resolved(before, after, WIN, gain))
      && (AtStop(before, price) ==> Resolved(before, after, LOSS, gain) && gain < 0.0)
      && (!AtTarget(before, price) && !AtStop(before, price) && late
          <==> Resolved(before, after, EXPIRED, 0.0))
      && (Resolved(before, after, LOSS, gain)
          <==> AtStop(before, price) ||
               (!AtTarget(before, price) && !late && c.tightenEnabled && !agrees && WithinCushion(c, before, price)))
      && (after != before ==> exists r, pnl :: Resolved(before, after, r, pnl))
      && (after == before
          <==> !AtTarget(before, price) && !AtStop(before, price) && !late
               && !(c.tightenEnabled && !agrees && WithinCushion(c, before, price)))
  }

  lemma PlainOutcome(c: TrackerConfig, row: Row, price: real, now: real)
    requires row.direction != WATCH && row.entry.Some?
    requires HasValidOrdering(row.entry.value, row.direction)
    ensures var e := row.entry.value;
            var r := EvaluateOutcome(row.direction, e.stop, e.target, price, Deadline(c, row), now);
            var late := now - row.createdAt >= ExpiryHours(c, row.timeframe);
      && (r == Some(WIN) <==> AtTarget(row, price))
      && (r == Some(LOSS) <==> AtStop(row, price))
      && (r == Some(EXPIRED) <==> !AtTarget(row, price) && !AtStop(row, price) && late)
      && (AtTarget(row, price) ==> Gain(row, price) > 0.0) && (AtStop(row, price) ==> Gain(row, price) < 0.0)
  {}

  lemma CushionIs(c: TrackerConfig, row: Row, price: real)
    requires row.direction != WATCH && row.entry.Some?
    ensures Gain(row, price) == Profit(row.direction, row.entry.value.level, price)
    ensures WithinCushion(c, row, price)
       <==> 0.0 < Gain(row, price) <= MinCushion(c, row.entry.value.level)
  {
    assert 100.0 * MinCushion(c, row.entry.value.level) == row.entry.value.level * c.minCushionPct;
  }

  /** A processed row is judged exactly so, on the verdict it is given. */
  lemma StepMeaning(c: TrackerConfig, row: Row, m: Market, now: real, cache: Verdicts)
    requires Judgeable(row, m) && row.outcome.None? && SaneTightening(c)
    ensures JudgedAt(c, row, StepRow(c, row, m, now, cache), m.price(row.id).value, now, Verdict(row, m, cache))
  {
    var e, price, after := row.entry.value, m.price(row.id).value, StepRow(c, row, m, now, cache);
    LifetimeIs(c, row.timeframe);
    PlainOutcome(c, row, price, now);
    CushionIs(c, row, price);
    ResolutionMeaning(c, row.direction, e, price, Deadline(c, row), now, Verdict(row, m, cache));
    if after != row {
      assert Resolved(row, after, after.outcome.value, after.pnl);
    }
  }

  /** A row the tracker cannot judge is left alone. */
  lemma OtherRowsWait(c: TrackerConfig, row: Row, m: Market, now: real, cache: Verdicts)
    requires row.direction == WATCH || m.price(row.id).None? || row.entry.None?
          || row.entry.value.level <= 0.0 || row.entry.value.stop <= 0.0 || row.entry.value.target <= 0.0
    ensures StepRow(c, row, m, now, cache) == row
  {}

  // ---------------------------------------------------------------- one cycle

  /** What the service says when asked about the row: yes, unless it says no. */
  predicate ServiceAgrees(row: Row, m: Market) {
    var answer := m.forecast(row.symbol, row.direction, if row.timeframe == "" then "15m" else row.timeframe);
    answer.None? || answer.value
  }

  /** The forecast is asked about trades in profit that have neither reached a level nor expired. */
  lemma AskingMeaning(c: TrackerConfig, row: Row, m: Market, now: real)
    requires Judgeable(row, m)
    ensures AsksForecast(c, row, m, now)
       <==> c.tightenEnabled && 0.0 < Gain(row, m.price(row.id).value) < Gain(row, row.entry.value.target)
            && exists hours :: IsLifetime(c, row.timeframe, hours) && now - row.createdAt < hours
  {
    var e, price := row.entry.value, m.price(row.id).value;
    LifetimeIs(c, row.timeframe);
    PlainOutcome(c, row, price, now);
    CushionIs(c, row, price);
  }

  /** The verdict on fetched row i: the service's answer for the first row of its symbol that asked
      before it, or else its own. */
  ghost predicate IsVerdictOn(c: TrackerConfig, t: Table, ids: seq<nat>, m: Market, now: real, i: nat, agrees: bool)
    requires i < |ids| && forall id :: id in ids ==> id in t
  {
    var sym := t[ids[i]].symbol;
    && (forall j :: 0 <= j < i && FirstAsker(c, t, ids, m, now, sym, j) ==> agrees == ServiceAgrees(t[ids[j]], m))
    && ((forall j :: 0 <= j < i ==> !FirstAsker(c, t, ids, m, now, sym, j)) ==>
          agrees == ServiceAgrees(t[ids[i]], m))
  }

  lemma VerdictIs(c: TrackerConfig, t: Table, ids: seq<nat>, m: Market, now: real, i: nat)
    requires i < |ids| && forall id :: id in ids ==> id in t
    ensures IsVerdictOn(c, t, ids, m, now, i, Verdict(t[ids[i]], m, CacheAfter(c, t, ids, m, now, i)))
  {
    CacheIsFirstAnswer(c, t, ids, m, now, i, t[ids[i]].symbol);
    forall row: Row ensures OwnVerdict(row, m) == ServiceAgrees(row, m) {}
  }

  /** Fetched row i was judged, at its price and on the verdict for its symbol. */
  ghost predicate JudgedInCycle(c: TrackerConfig, before: Table, after: Table, m: Market, now: real, ids: seq<nat>,
                                i: nat)
    requires i < |ids| && Keyed(before) && (forall id :: id in ids ==> id in before && id in after)
    requires Judgeable(before[ids[i]], m)
  {
    exists agrees: bool ::
      && IsVerdictOn(c, before, ids, m, now, i, agrees)
      && JudgedAt(c, before[ids[i]], after[ids[i]], m.price(ids[i]).value, now, agrees)
  }

  /** A whole cycle: every fetched row that can be judged is judged at its price, on the verdict for its
      symbol; every other row, fetched or not, is as it was; and a closed market changes nothing. */
  lemma CycleMeaning(c: TrackerConfig, before: Table, after: Table, m: Market, now: real, ids: seq<nat>)
    requires CycleBy(c, before, after, m, now, ids) && Keyed(before) && SaneTightening(c)
    ensures after.Keys == before.Keys
    ensures forall i :: 0 <= i < |ids| && Judgeable(before[ids[i]], m) ==>
      JudgedInCycle(c, before, after, m, now, ids, i)
    ensures forall id :: id in before && id !in ids ==> after[id] == before[id]
    ensures !m.open ==> after == before
  {
    forall i | 0 <= i < |ids| && Judgeable(before[ids[i]], m)
      ensures JudgedInCycle(c, before, after, m, now, ids, i)
    {
      FetchedRowIsJudged(c, before, after, m, now, ids, i);
    }
    forall id | id in before && id !in ids ensures after[id] == before[id] { assert id !in ids[..|ids|]; }
  }

  lemma FetchedRowIsJudged(c: TrackerConfig, before: Table, after: Table, m: Market, now: real, ids: seq<nat>, i: nat)
    requires CycleBy(c, before, after, m, now, ids) && Keyed(before) && SaneTightening(c)
    requires i < |ids| && Judgeable(before[ids[i]], m)
    ensures JudgedInCycle(c, before, after, m, now, ids, i)
  {
    var row, cache := before[ids[i]], CacheAfter(c, before, ids, m, now, i);
    assert ids[i] in ids;
    StepMeaning(c, row, m, now, cache);
    VerdictIs(c, before, ids, m, now, i);
    assert after[ids[i]] == Targets(c, before, ids, m, now)[i] == StepRow(c, row, m, now, cache);
  }

  /** A fetched row that cannot be judged because it is a WATCH, has no market price or no positive
      prices of its own. */
  lemma FetchedRowWaits(c: TrackerConfig, before: Table, after: Table, m: Market, now: real, ids: seq<nat>, i: nat)
    requires CycleBy(c, before, after, m, now, ids) && Keyed(before) && i < |ids|
    requires var row := before[ids[i]];
      || row.direction == WATCH || m.price(row.id).None? || row.entry.None?
      || row.entry.value.level <= 0.0 || row.entry.value.stop <= 0.0 || row.entry.value.target <= 0.0
    ensures after[ids[i]] == before[ids[i]]
  {
    assert ids[i] in ids;
    OtherRowsWait(c, before[ids[i]], m, now, CacheAfter(c, before, ids, m, now, i));
    assert after[ids[i]] == Targets(c, before, ids, m, now)[i];
  }

  // ---------------------------------------------------------------- one sweep

  /** The stale sweep expires a fetched row, of whatever kind, once it has been open for the limit of
      days, and touches no younger one. */
  lemma SweepMeaning(c: TrackerConfig, before: Table, after: Table, now: real, ids: seq<nat>, id: nat)
    requires SweepBy(c, before, after, now, ids) && id in before
    ensures id in after
    ensures var due := before[id].createdAt + 24.0 * c.staleDays as real;
      && (id in ids && now >= due ==> Resolved(before[id], after[id], EXPIRED, 0.0))
      && (id !in ids || now < due ==> after[id] == before[id])
  {}
}
