/** What the gates decide, in terms of the evidence alone: the family means, the reported types, the
    prices, the forecast, the volume and the market of the run (gates/candidate_pipeline.py). */
module Acceptance {
  import opened Prelude
  import opened GateTypes
  import opened Reconciliation
  import opened CandidatePipeline
  import opened GateTheorems

  // ---------------------------------------------------------------- the agreement of the sources

  /** The family's mean for the symbol in this run; when the symbol has no macro family, the market's
      risk state stands in for it, bearish when risk is off. */
  ghost predicate HasMean(env: GateEnv, sym: string, fam: Family, m: real) {
    var cfg := env.settings.cfg;
    if sym in env.familyScores && fam in env.familyScores[sym] then m == env.familyScores[sym][fam]
    else
      && fam == MacroFamily && cfg.saIncludeMacroContext
      && (m == cfg.saMacroContextScore || m == -cfg.saMacroContextScore)
      && (if env.riskOff then m <= 0.0 else m >= 0.0)
  }

  ghost predicate Bullish(env: GateEnv, sym: string, fam: Family) {
    exists m :: HasMean(env, sym, fam, m) && m >= env.settings.alignedMinScore
  }

  ghost predicate Bearish(env: GateEnv, sym: string, fam: Family) {
    exists m :: HasMean(env, sym, fam, m) && m <= -env.settings.alignedMinScore
  }

  ghost predicate BullishTogether(env: GateEnv, sym: string, fams: set<Family>) {
    forall fam :: fam in fams ==> Bullish(env, sym, fam)
  }

  ghost predicate BearishTogether(env: GateEnv, sym: string, fams: set<Family>) {
    forall fam :: fam in fams ==> Bearish(env, sym, fam)
  }

  /** A trend signal other than the forecast is reported for the symbol. */
  predicate TrendReported(env: GateEnv, sym: string) {
    sym in env.snapTypes && exists k :: k in {TechnicalTrend, RelativeStrength} && k in env.snapTypes[sym]
  }

  /** The trend is the mean of the trend family, or zero without one. */
  ghost predicate TrendIs(env: GateEnv, sym: string, m: real) {
    HasMean(env, sym, TrendFamily, m) || (m == 0.0 && !exists x :: HasMean(env, sym, TrendFamily, x))
  }

  /** The forecast confirms the trade: a reported trend and the forecast both lean its way far enough. */
  ghost predicate ForecastBonus(env: GateEnv, a: Alert) {
    var cfg := env.settings.cfg;
    && cfg.saForecastConfirmBonusEnabled && TrendReported(env, a.symbol) && a.symbol in env.forecastScores
    && exists trend :: TrendIs(env, a.symbol, trend)
         && (|| (a.direction == LONG && trend >= cfg.saFamilyMinScore
                 && env.forecastScores[a.symbol] >= cfg.saForecastBonusThreshold)
             || (a.direction == SHORT && -trend >= cfg.saFamilyMinScore
                 && -env.forecastScores[a.symbol] >= cfg.saForecastBonusThreshold))
  }

  lemma MeansAre(env: GateEnv, a: Alert, fam: Family, m: real)
    ensures HasMean(env, a.symbol, fam, m) <==> fam in FamilyScores(env, a) && FamilyScores(env, a)[fam] == m
  {}

  lemma TrendOf(env: GateEnv, a: Alert, m: real)
    ensures var fs := FamilyScores(env, a);
      TrendIs(env, a.symbol, m) <==> m == if TrendFamily in fs then fs[TrendFamily] else 0.0
  {
    var fs := FamilyScores(env, a);
    forall x ensures HasMean(env, a.symbol, TrendFamily, x) <==> TrendFamily in fs && fs[TrendFamily] == x {
      MeansAre(env, a, TrendFamily, x);
    }
    if TrendFamily in fs { assert HasMean(env, a.symbol, TrendFamily, fs[TrendFamily]); }
  }

  lemma BonusIs(env: GateEnv, a: Alert)
    ensures ForecastBonus(env, a) <==> ForecastConfirms(env, a)
  {
    var fs := FamilyScores(env, a);
    var trend := if TrendFamily in fs then fs[TrendFamily] else 0.0;
    forall m ensures TrendIs(env, a.symbol, m) <==> m == trend { TrendOf(env, a, m); }
    assert TrendIs(env, a.symbol, trend);
    if TrendReported(env, a.symbol) {
      var k :| k in {TechnicalTrend, RelativeStrength} && k in env.snapTypes[a.symbol];
    }
  }

  lemma FamiliesAre(env: GateEnv, a: Alert, fam: Family)
    ensures var fs, min := FamilyScores(env, a), env.settings.alignedMinScore;
      && (Bullish(env, a.symbol, fam) <==> fam in fs && fs[fam] >= min)
      && (Bearish(env, a.symbol, fam) <==> fam in fs && fs[fam] <= -min)
  {
    var fs := FamilyScores(env, a);
    forall m ensures HasMean(env, a.symbol, fam, m) <==> fam in fs && fs[fam] == m { MeansAre(env, a, fam, m); }
    if fam in fs { assert HasMean(env, a.symbol, fam, fs[fam]); }
  }

  /** What the agreement of a judged alert rests on: for a LONG the largest set of bullish families,
      for a SHORT the largest of bearish ones, for a WATCH the larger of the two; a confirming forecast
      adds one to a trade; and seven is the most. */
  lemma AgreementMeaning(env: GateEnv, a: Alert) returns (longs: set<Family>, shorts: set<Family>)
    ensures BullishTogether(env, a.symbol, longs)
    ensures forall fams :: BullishTogether(env, a.symbol, fams) ==> |fams| <= |longs|
    ensures BearishTogether(env, a.symbol, shorts)
    ensures forall fams :: BearishTogether(env, a.symbol, fams) ==> |fams| <= |shorts|
    ensures var agree, bonus := FinalAlert(env, a).sourcesAgree, if ForecastBonus(env, a) then 1 else 0;
      match a.direction
      case LONG => agree == MinInt(|longs| + bonus, 7)
      case SHORT => agree == MinInt(|shorts| + bonus, 7)
      case WATCH => agree == (if |longs| >= |shorts| then |longs| else |shorts|) <= 7
  {
    var fs, min := FamilyScores(env, a), env.settings.alignedMinScore;
    longs, shorts := AlignedCountMeaning(fs, min);
    forall fams ensures BullishTogether(env, a.symbol, fams) <==> AllBullish(fs, min, fams)
                ensures BearishTogether(env, a.symbol, fams) <==> AllBearish(fs, min, fams) {
      SameFamilies(env, a, fams);
    }
    BonusIs(env, a);
    AlignedCountLaws(fs, min, WATCH);
  }

  lemma SameFamilies(env: GateEnv, a: Alert, fams: set<Family>)
    ensures BullishTogether(env, a.symbol, fams)
       <==> AllBullish(FamilyScores(env, a), env.settings.alignedMinScore, fams)
    ensures BearishTogether(env, a.symbol, fams)
       <==> AllBearish(FamilyScores(env, a), env.settings.alignedMinScore, fams)
  {
    forall fam ensures var fs, min := FamilyScores(env, a), env.settings.alignedMinScore;
      && (Bullish(env, a.symbol, fam) <==> fam in fs && fs[fam] >= min)
      && (Bearish(env, a.symbol, fam) <==> fam in fs && fs[fam] <= -min)
    {
      FamiliesAre(env, a, fam);
    }
  }

  /** The families lean the way the alert does; a WATCH may lean either way. */
  ghost predicate Backing(env: GateEnv, a: Alert, fams: set<Family>) {
    || (a.direction != SHORT && BullishTogether(env, a.symbol, fams))
    || (a.direction != LONG && BearishTogether(env, a.symbol, fams))
  }

  /** An accepted alert has a set of families that lean its way, as many as it finally claims to agree,
      less one where a forecast confirms it; that is enough for its gate, and no larger set exists. */
  lemma AcceptedIsBacked(env: GateEnv, a: Alert) returns (fams: set<Family>)
    requires Passes(env, a)
    ensures Backing(env, a, fams) && forall other :: Backing(env, a, other) ==> |other| <= |fams|
    ensures var agree, bonus := FinalAlert(env, a).sourcesAgree, if ForecastBonus(env, a) then 1 else 0;
      && agree == MinInt(|fams| + bonus, 7)
      && (a.direction != WATCH ==> agree >= env.saGate)
      && (a.direction == WATCH ==> agree >= env.saGate - 1 && agree >= env.settings.cfg.watchSaMin)
  {
    var longs, shorts := AgreementMeaning(env, a);
    fams := match a.direction
            case LONG => longs
            case SHORT => shorts
            case WATCH => if |longs| >= |shorts| then longs else shorts;
    assert !Fails(env, a, SA_THRESHOLD) && !Fails(env, a, WATCH_SA_THRESHOLD);
  }

  // ---------------------------------------------------------------- the final edge and confidence

  /** x is the smaller of p and q. */
  predicate IsLower(x: real, p: real, q: real) { x <= p && x <= q && (x == p || x == q) }

  predicate IsHigher(x: real, p: real, q: real) { IsLower(-x, -p, -q) }

  /** The most edge the number of reported signal types allows. */
  predicate IsCeiling(table: map<int, real>, types: nat, c: real) {
    if types == 0 then c == 0.50
    else
      var row := if types > 11 then 11 else types;
      if row in table then c == table[row] else c == 0.99
  }

  predicate Reported(env: GateEnv, sym: string, k: SignalType) { sym in env.snapTypes && k in env.snapTypes[sym] }

  /** The claimed edge survives up to the ceiling for the types really reported. */
  lemma EdgeMeaning(env: GateEnv, a: Alert) returns (types: set<SignalType>, c: real)
    ensures forall k :: k in types <==> Reported(env, a.symbol, k)
    ensures IsCeiling(env.settings.epCeiling, |types|, c)
    ensures IsLower(FinalAlert(env, a).edgeProbability, a.edgeProbability, c)
  {
    types := if a.symbol in env.snapTypes then env.snapTypes[a.symbol] else {};
    c := EpCeiling(env, a);
  }

  /** The confidence a trade keeps in extended hours; a WATCH keeps its own. */
  predicate IsSessionConfidence(env: GateEnv, a: Alert, c: real) {
    var extended := env.session == PreMarket || env.session == AfterHours;
    if a.direction != WATCH && env.settings.extendedHoursAlerts && extended then
      IsHigher(c, a.confidence + env.settings.extendedHoursPenalty, 0.0)
    else c == a.confidence
  }

  predicate IsVolumeConfirmed(env: GateEnv, sym: string) {
    if sym in env.volumeScores then env.volumeScores[sym] >= env.settings.cfg.volumeConfirmScore
    else env.settings.cfg.volumeConfirmScore <= 0.0
  }

  /** An unconfirmed trade then loses the volume penalty, the larger one in a choppy or stressed market. */
  predicate IsFinalConfidence(env: GateEnv, a: Alert, before: real, c: real) {
    if a.direction == WATCH || IsVolumeConfirmed(env, a.symbol) then c == before
    else if env.regime == Choppy || env.regime == RiskOffHighVix then
      IsHigher(c, before - env.settings.cfg.volumeConfirmPenaltyChoppy, 0.0)
    else IsHigher(c, before - env.settings.cfg.volumeConfirmPenalty, 0.0)
  }

  /** The final confidence, and the confidence `before` the volume check, which the thresholds judge. */
  lemma ConfidenceMeaning(env: GateEnv, a: Alert) returns (before: real)
    ensures IsSessionConfidence(env, a, before) && IsFinalConfidence(env, a, before, FinalAlert(env, a).confidence)
    ensures a.direction != WATCH ==>
      && (Fails(env, a, CONF_THRESHOLD) <==> before < env.confGate)
      && (Fails(env, a, HIGH_CONFIDENCE_ALIGNMENT)
          <==> before >= env.settings.cfg.highConfidenceMin
               && FinalAlert(env, a).sourcesAgree < env.settings.cfg.highConfidenceMinSa)
      && (Fails(env, a, VOLUME_UNCONFIRMED)
          <==> !IsVolumeConfirmed(env, a.symbol) && FinalAlert(env, a).confidence < env.confGate)
  {
    before := SessionConfidence(env, a);
  }

  // ---------------------------------------------------------------- gate by gate

  lemma EvidenceGates(env: GateEnv, a: Alert)
    ensures Fails(env, a, SOURCE_HALLUCINATION) <==> !exists k :: Reported(env, a.symbol, k)
    ensures var f := FinalAlert(env, a);
      && (Fails(env, a, EP_THRESHOLD) <==> a.direction != WATCH && f.edgeProbability < env.epGate)
      && (Fails(env, a, SA_THRESHOLD) <==> a.direction != WATCH && f.sourcesAgree < env.saGate)
  {
    if a.symbol in env.snapTypes && env.snapTypes[a.symbol] != {} {
      var k :| k in env.snapTypes[a.symbol];
      assert Reported(env, a.symbol, k);
    }
  }

  /** A WATCH meets each gate a little below the one for trades, but never below its own floor. */
  lemma WatchGates(env: GateEnv, a: Alert)
    requires a.direction == WATCH
    ensures var f, cfg := FinalAlert(env, a), env.settings.cfg;
      && (Fails(env, a, WATCH_EP_THRESHOLD)
          <==> f.edgeProbability < 0.50 || f.edgeProbability + cfg.watchEpDelta < env.epGate)
      && (Fails(env, a, WATCH_SA_THRESHOLD)
          <==> f.sourcesAgree < cfg.watchSaMin || f.sourcesAgree + 1 < env.saGate)
      && (Fails(env, a, WATCH_CONF_THRESHOLD)
          <==> a.confidence < cfg.watchConfMin || a.confidence + 0.10 < env.confGate)
    ensures forall r :: Fails(env, a, r) ==>
      r in {SOURCE_HALLUCINATION, WATCH_EP_THRESHOLD, WATCH_SA_THRESHOLD, WATCH_CONF_THRESHOLD}
  {}

  /** Positive prices in the order the direction asks for. */
  predicate Ordered(e: Entry, d: Direction) {
    (d == LONG && 0.0 < e.stop < e.level < e.target) || (d == SHORT && 0.0 < e.target < e.level < e.stop)
  }

  /** What a trade can lose, and what it can win. */
  function AtRisk(e: Entry, d: Direction): real { if d == LONG then e.level - e.stop else e.stop - e.level }

  function Reward(e: Entry, d: Direction): real { if d == LONG then e.target - e.level else e.level - e.target }

  predicate IsRewardMultiple(env: GateEnv, k: real) {
    k == match env.timeframe
         case "15m" => env.settings.gateRr15m
         case "1h" => env.settings.gateRr1h
         case _ => 2.0
  }

  /** A trade's prices: ordered and positive; a risk of at least five cents and a thousandth of the
      price; and a reward of the timeframe's multiple of the risk. */
  lemma PriceGates(env: GateEnv, a: Alert, k: real)
    requires a.direction != WATCH && IsRewardMultiple(env, k)
    ensures var e, risk, reward := a.entry, AtRisk(a.entry, a.direction), Reward(a.entry, a.direction);
      && (Fails(env, a, ENTRY_ORDER_INVALID) <==> !Ordered(e, a.direction))
      && (Fails(env, a, RR_ZERO_RISK) <==> Ordered(e, a.direction) && (risk < 0.05 || 1000.0 * risk < e.level))
      && (Fails(env, a, RR_MINIMUM) <==> Ordered(e, a.direction) && reward < k * risk)
  {
    if Ordered(a.entry, a.direction) {
      RatioCompare(Reward(a.entry, a.direction), AtRisk(a.entry, a.direction), k);
      assert Risk(a.entry) == AtRisk(a.entry, a.direction);
    }
  }

  function Bump(applies: bool, size: real): real { if applies then size else 0.0 }

  /** How far an entry may be from the market, as a share of its price: more under stress, and at the
      edges of the session, up to a cap. */
  predicate IsDriftLimit(env: GateEnv, limit: real) {
    var cfg := env.settings.cfg;
    IsLower(limit, cfg.driftCapPct,
            cfg.driftMaxPct + Bump(env.vix >= cfg.vixSoftThreshold, cfg.driftVixBump)
            + Bump(env.vix >= cfg.driftVixHighThreshold, cfg.driftVixHighBump)
            + Bump(env.session == PreMarket || env.session == AfterHours, cfg.driftPrepostBump))
  }

  /** An ordered trade drifts when its entry lies outside the limit around a known market price. */
  lemma DriftGateMeaning(env: GateEnv, a: Alert, limit: real)
    requires a.direction != WATCH && IsDriftLimit(env, limit)
    ensures Fails(env, a, ENTRY_MARKET_DRIFT)
       <==> Ordered(a.entry, a.direction) && a.symbol in env.refPrices && env.refPrices[a.symbol] > 0.0
            && var price := env.refPrices[a.symbol];
               a.entry.level > price + limit * price || a.entry.level < price - limit * price
  {
    if a.symbol in env.refPrices && env.refPrices[a.symbol] > 0.0 {
      RatioCompare(Abs(a.entry.level - env.refPrices[a.symbol]), env.refPrices[a.symbol], limit);
    }
  }

  /** Enough agreement and enough edge to go against the market. */
  predicate Convinced(a: Alert, agree: int, edge: real) { a.sourcesAgree >= agree && a.edgeProbability >= edge }

  /** The gates on the market of the run; none of them touches a WATCH. */
  lemma MarketGates(env: GateEnv, a: Alert)
    ensures var f, cfg, trade := FinalAlert(env, a), env.settings.cfg, a.direction != WATCH;
      && (Fails(env, a, MARKET_SESSION_CLOSED) <==> trade && env.session == Closed && cfg.marketHoursGatesEnabled)
      && (Fails(env, a, VIX_HARD) <==> trade && env.vix > 30.0)
      && (Fails(env, a, MACRO_VETO)
          <==> a.direction == LONG && env.timeframe == "1h" && env.riskOff && env.vix >= 25.0
               && !Convinced(f, cfg.macroVetoSa, cfg.macroVetoEp))
      && (Fails(env, a, VIX_SOFT)
          <==> env.vix > cfg.vixSoftThreshold && !Convinced(f, cfg.vixSoftSa, cfg.vixSoftEp)
               && (if a.direction == LONG then env.riskOff && env.regime != RiskOffHighVix
                   else a.direction == SHORT && !env.riskOff))
      && (Fails(env, a, FORECAST_CONTRADICTS)
          <==> a.symbol in env.forecastScores && !Convinced(f, cfg.forecastGateSa, cfg.forecastGateEp)
               && var score := env.forecastScores[a.symbol];
                  || (a.direction == LONG && score < -cfg.forecastGateScoreThreshold)
                  || (a.direction == SHORT && score > cfg.forecastGateScoreThreshold))
  {
    assert Judged(env, a).sourcesAgree == FinalAlert(env, a).sourcesAgree;
    assert Judged(env, a).edgeProbability == FinalAlert(env, a).edgeProbability;
  }

  /** The final alert differs from the candidate in the three numbers alone. */
  lemma FinalAlertKeeps(env: GateEnv, a: Alert)
    ensures var f := FinalAlert(env, a);
      a == f.(sourcesAgree := a.sourcesAgree, edgeProbability := a.edgeProbability, confidence := a.confidence)
  {}
}
