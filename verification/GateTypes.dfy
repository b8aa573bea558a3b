/** The data that flows through the gate engine: alerts, snapshots, thresholds, rejections. */
module GateTypes {
  import opened Prelude

  datatype GateRejection =
    | VIX_HARD | SOURCE_HALLUCINATION | EP_THRESHOLD | SA_THRESHOLD | HIGH_CONFIDENCE_ALIGNMENT
    | CONF_THRESHOLD | RR_MINIMUM | RR_ZERO_RISK | ENTRY_ORDER_INVALID | MACRO_VETO | VIX_SOFT
    | FORECAST_CONTRADICTS | TIMEFRAME_INVALID | ENTRY_MARKET_DRIFT | VOLUME_UNCONFIRMED
    | WATCH_EP_THRESHOLD | WATCH_SA_THRESHOLD | WATCH_CONF_THRESHOLD | WATCH_CAP
    | WATCH_DROPPED_DIRECTIONAL_PRESENT | WATCH_DECAY | MARKET_SESSION_CLOSED | DEDUP_SUPPRESSED

  datatype Direction = LONG | SHORT | WATCH

  datatype Regime = Extreme | RiskOffHighVix | Choppy | TrendingUp | TrendingDown | Neutral

  datatype Session = Regular | PreMarket | AfterHours | Closed

  datatype Family = TrendFamily | VolumeFamily | SentimentFamily | FlowFamily | EventsFamily
                  | MacroFamily | PositioningFamily

  datatype SignalType =
    | TechnicalTrend | VolumeSpike | SentimentBull | SentimentBear | OptionsFlow | InsiderActivity
    | RelativeStrength | MacroRiskOff | CatalystEvent | ShortInterest | PriceForecast
    | OtherType(name: string)

  /** One parsed snapshot signal; `score` is None when it cannot be read as a number. */
  datatype Signal = Signal(kind: SignalType, score: Option<real>)

  datatype Snapshot = Snapshot(symbol: string, signals: seq<Signal>)

  datatype Entry = Entry(level: real, stop: real, target: real)

  datatype Alert = Alert(symbol: string, direction: Direction, edgeProbability: real, confidence: real,
                         timeframe: string, thesis: string, entry: Entry, sourcesAgree: int)

  function Opposite(d: Direction): Direction { match d case LONG => SHORT case SHORT => LONG case WATCH => WATCH }

  predicate Directional(a: Alert) { a.direction != WATCH }

  predicate HasValidOrdering(e: Entry, d: Direction) {
    match d
    case WATCH => true
    case LONG => e.stop < e.level < e.target
    case SHORT => e.target < e.level < e.stop
  }

  predicate AllPositive(e: Entry) { e.level > 0.0 && e.stop > 0.0 && e.target > 0.0 }

  /** Per-candidate thresholds (CandidateGateConfig). */
  datatype GateConfig = GateConfig(
    saFamilyMinScore: real,
    saIncludeMacroContext: bool,
    saMacroContextScore: real,
    saForecastConfirmBonusEnabled: bool,
    saForecastBonusThreshold: real,
    highConfidenceMin: real,
    highConfidenceMinSa: int,
    macroVetoSa: int,
    macroVetoEp: real,
    vixSoftThreshold: real,
    vixSoftSa: int,
    vixSoftEp: real,
    watchSaMin: int,
    watchConfMin: real,
    watchEpDelta: real,
    forecastGateScoreThreshold: real,
    forecastGateSa: int,
    forecastGateEp: real,
    volumeConfirmScore: real,
    volumeConfirmPenalty: real,
    volumeConfirmPenaltyChoppy: real,
    driftMaxPct: real,
    driftVixBump: real,
    driftPrepostBump: real,
    driftCapPct: real,
    driftVixHighThreshold: real,
    driftVixHighBump: real,
    marketHoursGatesEnabled: bool)

  /** Module-level thresholds and policy constants. */
  datatype Settings = Settings(
    cfg: GateConfig,
    gateEp15m: real, gateEp1h: real, gateSa: int, gateConf: real, gateRr15m: real, gateRr1h: real,
    epCeiling: map<int, real>,
    alignedMinScore: real,
    extendedHoursAlerts: bool, extendedHoursPenalty: real,
    dynamicGates: bool,
    choppyEpBump: real, choppyConfBump: real, choppySaBump: int,
    trendingEpReduce: real, trendingConfReduce: real,
    riskOffEpBump: real, riskOffConfBump: real, riskOffSaBump: int,
    tfEpOffset15m: real, tfEpOffset1h: real, tfConfOffset15m: real, tfConfOffset1h: real,
    prepostEpBump: real, prepostConfBump: real, prepostSaBump: int,
    watchMaxStressed: nat, watchMaxNeutral: nat, watchMaxTrending: nat,
    watchDecayCycles: nat, watchDecayTtl: real,
    watchPromotionMult: real, watchPromotionMinCycles: int,
    dedupEnabled: bool, dedupTtl: real, watchDedupTtl: real)

  const DEFAULT_CONFIG := GateConfig(
    saFamilyMinScore := 0.25,
    saIncludeMacroContext := true,
    saMacroContextScore := 0.50,
    saForecastConfirmBonusEnabled := true,
    saForecastBonusThreshold := 0.80,
    highConfidenceMin := 0.85,
    highConfidenceMinSa := 5,
    macroVetoSa := 6,
    macroVetoEp := 0.90,
    vixSoftThreshold := 25.0,
    vixSoftSa := 3,
    vixSoftEp := 0.72,
    watchSaMin := 2,
    watchConfMin := 0.60,
    watchEpDelta := 0.05,
    forecastGateScoreThreshold := 0.8,
    forecastGateSa := 5,
    forecastGateEp := 0.85,
    volumeConfirmScore := 1.5,
    volumeConfirmPenalty := 0.05,
    volumeConfirmPenaltyChoppy := 0.10,
    driftMaxPct := 0.03,
    driftVixBump := 0.01,
    driftPrepostBump := 0.01,
    driftCapPct := 0.08,
    driftVixHighThreshold := 30.0,
    driftVixHighBump := 0.02,
    marketHoursGatesEnabled := true)

  const DEFAULT_EP_CEILING: map<int, real> := map[
    1 := 0.55, 2 := 0.65, 3 := 0.75, 4 := 0.85, 5 := 0.90, 6 := 0.92,
    7 := 0.95, 8 := 0.96, 9 := 0.97, 10 := 0.98, 11 := 0.99]

  const DEFAULT_SETTINGS := Settings(
    cfg := DEFAULT_CONFIG,
    gateEp15m := 0.70, gateEp1h := 0.75, gateSa := 4, gateConf := 0.75, gateRr15m := 2.0, gateRr1h := 2.5,
    epCeiling := DEFAULT_EP_CEILING,
    alignedMinScore := 0.25,
    extendedHoursAlerts := false, extendedHoursPenalty := -0.10,
    dynamicGates := true,
    choppyEpBump := 0.03, choppyConfBump := 0.03, choppySaBump := 1,
    trendingEpReduce := 0.01, trendingConfReduce := 0.01,
    riskOffEpBump := 0.03, riskOffConfBump := 0.03, riskOffSaBump := 1,
    tfEpOffset15m := 0.0, tfEpOffset1h := 0.0, tfConfOffset15m := 0.0, tfConfOffset1h := 0.0,
    prepostEpBump := 0.03, prepostConfBump := 0.05, prepostSaBump := 2,
    watchMaxStressed := 1, watchMaxNeutral := 2, watchMaxTrending := 3,
    watchDecayCycles := 4, watchDecayTtl := 86400.0,
    watchPromotionMult := 1.15, watchPromotionMinCycles := 2,
    dedupEnabled := true, dedupTtl := 300.0, watchDedupTtl := 900.0)

  /** Sign conditions the overlays are designed for; every default satisfies them. */
  predicate Tightening(s: Settings) {
    && s.choppyEpBump >= 0.0 && s.choppyConfBump >= 0.0 && s.choppySaBump >= 0
    && s.trendingEpReduce >= 0.0 && s.trendingConfReduce >= 0.0
    && s.cfg.volumeConfirmPenalty <= s.cfg.volumeConfirmPenaltyChoppy
  }

  /** Everything the gates read about one run, apart from the candidate itself. */
  datatype GateEnv = GateEnv(
    settings: Settings,
    timeframe: string,
    regime: Regime,
    vix: real,
    riskOff: bool,
    epGate: real,
    saGate: int,
    confGate: real,
    session: Session,
    snapTypes: map<string, set<SignalType>>,
    familyScores: map<string, map<Family, real>>,
    forecastScores: map<string, real>,
    volumeScores: map<string, real>,
    refPrices: map<string, real>)
}
