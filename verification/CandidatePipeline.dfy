/** The thirteen-stage candidate pipeline (gates/candidate_pipeline.py): stage methods that
    mutate the candidate and accumulate rejection reasons, and the function that specifies them. */
module CandidatePipeline {
  import opened Prelude
  import opened GateTypes
  import opened Reconciliation
  import opened RedisStore

  // ---------------------------------------------------------------- rejection reasons

  ghost predicate NoDuplicates<T(!new)>(xs: seq<T>) {
    forall i, j :: 0 <= i < j < |xs| ==> xs[i] != xs[j]
  }

  /** Appends `r` when `failed` holds and it has not been raised before. */
  function Raise(reasons: seq<GateRejection>, failed: bool, r: GateRejection): seq<GateRejection> {
    if failed && r !in reasons then reasons + [r] else reasons
  }

  class ReasonTracker {
    var reasons: seq<GateRejection>
    var seen: set<GateRejection>

    ghost predicate Valid()
      reads this
    {
      NoDuplicates(reasons) && seen == set r | r in reasons
    }

    constructor ()
      ensures Valid() && reasons == []
    {
      reasons, seen := [], {};
    }

    method Add(reason: GateRejection)
      requires Valid()
      modifies this
      ensures Valid()
      ensures reasons == Raise(old(reasons), true, reason)
    {
      if reason !in seen {
        seen := seen + {reason};
        reasons := reasons + [reason];
      }
    }
  }

  // ---------------------------------------------------------------- what the gates measure

  function ActualSources(env: GateEnv, a: Alert): nat {
    if a.symbol in env.snapTypes then |env.snapTypes[a.symbol]| else 0
  }

  /** The symbol's family means, with the run's macro context added when no macro signal exists. */
  function FamilyScores(env: GateEnv, a: Alert): map<Family, real> {
    var cfg := env.settings.cfg;
    var fs := if a.symbol in env.familyScores then env.familyScores[a.symbol] else map[];
    if cfg.saIncludeMacroContext && MacroFamily !in fs then
      fs[MacroFamily := if env.riskOff then -Abs(cfg.saMacroContextScore) else Abs(cfg.saMacroContextScore)]
    else fs
  }

  predicate ForecastConfirms(env: GateEnv, a: Alert) {
    var cfg, fs := env.settings.cfg, FamilyScores(env, a);
    var trend := if TrendFamily in fs then fs[TrendFamily] else 0.0;
    var types := if a.symbol in env.snapTypes then env.snapTypes[a.symbol] else {};
    && cfg.saForecastConfirmBonusEnabled
    && a.symbol in env.forecastScores
    && (TechnicalTrend in types || RelativeStrength in types)
    && match a.direction
       case LONG => trend >= cfg.saFamilyMinScore && env.forecastScores[a.symbol] >= cfg.saForecastBonusThreshold
       case SHORT => trend <= -cfg.saFamilyMinScore && env.forecastScores[a.symbol] <= -cfg.saForecastBonusThreshold
       case WATCH => false
  }

  /** sources_agree as the server derives it; the candidate's own claim is never read. */
  function ServerSourcesAgree(env: GateEnv, a: Alert): int {
    MinInt(AlignedFamilyCount(FamilyScores(env, a), env.settings.alignedMinScore, a.direction)
           + (if ForecastConfirms(env, a) then 1 else 0), 7)
  }

  function EpCeiling(env: GateEnv, a: Alert): real {
    var n := MinInt(ActualSources(env, a), 11);
    if n == 0 then 0.50 else if n in env.settings.epCeiling then env.settings.epCeiling[n] else 0.99
  }

  predicate OrderInvalid(a: Alert) { !AllPositive(a.entry) || !HasValidOrdering(a.entry, a.direction) }

  function DriftGate(env: GateEnv): real {
    var cfg := env.settings.cfg;
    Min(cfg.driftMaxPct
        + (if env.vix >= cfg.vixSoftThreshold then cfg.driftVixBump else 0.0)
        + (if env.vix >= cfg.driftVixHighThreshold then cfg.driftVixHighBump else 0.0)
        + (if env.session in {PreMarket, AfterHours} then cfg.driftPrepostBump else 0.0),
        cfg.driftCapPct)
  }

  predicate Drifted(env: GateEnv, a: Alert) {
    && a.symbol in env.refPrices
    && env.refPrices[a.symbol] > 0.0
    && Abs(a.entry.level - env.refPrices[a.symbol]) / env.refPrices[a.symbol] > DriftGate(env)
  }

  function Risk(e: Entry): real { Abs(e.level - e.stop) }

  function RiskReward(e: Entry): real {
    if Risk(e) <= 0.0 then 0.0 else Abs(e.target - e.level) / Risk(e)
  }

  function RiskFloor(e: Entry): real { Max(e.level * 0.001, 0.05) }

  function RrMinimum(env: GateEnv): real {
    if env.timeframe == "15m" then env.settings.gateRr15m
    else if env.timeframe == "1h" then env.settings.gateRr1h
    else 2.0
  }

  function VolumePenalty(env: GateEnv): real {
    if env.regime in {Choppy, RiskOffHighVix} then env.settings.cfg.volumeConfirmPenaltyChoppy
    else env.settings.cfg.volumeConfirmPenalty
  }

  predicate VolumeUnconfirmed(env: GateEnv, a: Alert) {
    (if a.symbol in env.volumeScores then env.volumeScores[a.symbol] else 0.0) < env.settings.cfg.volumeConfirmScore
  }

  predicate ExtendedHours(env: GateEnv) {
    env.settings.extendedHoursAlerts && env.session in {PreMarket, AfterHours}
  }

  // ---------------------------------------------------------------- the stages, as state changes

  datatype Stage =
    | SourceHallucination | ReconcileEvidence | EntryOrder | EntryMarketDrift | ExtendedHoursPenalty
    | MarketSessionClosed | VixHard | ThresholdGates | RrGates | ForecastContradicts | MacroVeto
    | VixSoft | VolumeConfirmation

  const DEFAULT_STAGES := [SourceHallucination, ReconcileEvidence, EntryOrder, EntryMarketDrift,
                           ExtendedHoursPenalty, MarketSessionClosed, VixHard, ThresholdGates, RrGates,
                           ForecastContradicts, MacroVeto, VixSoft, VolumeConfirmation]

  /** The mutable part of a candidate's journey. */
  datatype Progress = Progress(alert: Alert, reasons: seq<GateRejection>)

  function StageAlert(stage: Stage, env: GateEnv, a: Alert): Alert {
    match stage
    case ReconcileEvidence =>
      a.(sourcesAgree := ServerSourcesAgree(env, a), edgeProbability := Min(a.edgeProbability, EpCeiling(env, a)))
    case ExtendedHoursPenalty =>
      if Directional(a) && ExtendedHours(env) then
        a.(confidence := Max(0.0, a.confidence + env.settings.extendedHoursPenalty))
      else a
    case VolumeConfirmation =>
      if Directional(a) && VolumeUnconfirmed(env, a) then
        a.(confidence := Max(a.confidence - VolumePenalty(env), 0.0))
      else a
    case _ => a
  }

  function ThresholdReasons(env: GateEnv, a: Alert, seen: seq<GateRejection>): seq<GateRejection> {
    var cfg := env.settings.cfg;
    if a.direction == WATCH then
      var r1 := Raise(seen, a.edgeProbability < Max(env.epGate - cfg.watchEpDelta, 0.50), WATCH_EP_THRESHOLD);
      var r2 := Raise(r1, a.sourcesAgree < MaxInt(cfg.watchSaMin, env.saGate - 1), WATCH_SA_THRESHOLD);
      Raise(r2, a.confidence < Max(cfg.watchConfMin, env.confGate - 0.10), WATCH_CONF_THRESHOLD)
    else
      var r1 := Raise(seen, a.edgeProbability < env.epGate, EP_THRESHOLD);
      var r2 := Raise(r1, a.sourcesAgree < env.saGate, SA_THRESHOLD);
      var r3 := Raise(r2, a.confidence >= cfg.highConfidenceMin && a.sourcesAgree < cfg.highConfidenceMinSa,
                      HIGH_CONFIDENCE_ALIGNMENT);
      Raise(r3, a.confidence < env.confGate, CONF_THRESHOLD)
  }

  predicate ForecastContradicted(env: GateEnv, a: Alert) {
    var cfg := env.settings.cfg;
    && a.symbol in env.forecastScores
    && (if a.direction == LONG then env.forecastScores[a.symbol] < -cfg.forecastGateScoreThreshold
        else env.forecastScores[a.symbol] > cfg.forecastGateScoreThreshold)
    && !(a.sourcesAgree >= cfg.forecastGateSa && a.edgeProbability >= cfg.forecastGateEp)
  }

  predicate MacroVetoed(env: GateEnv, a: Alert) {
    var cfg := env.settings.cfg;
    && env.timeframe == "1h" && a.direction == LONG && env.riskOff && env.vix >= 25.0
    && !(a.sourcesAgree >= cfg.macroVetoSa && a.edgeProbability >= cfg.macroVetoEp)
  }

  predicate VixSoftTripped(env: GateEnv, a: Alert) {
    var cfg := env.settings.cfg;
    && env.vix > cfg.vixSoftThreshold
    && !(a.sourcesAgree >= cfg.vixSoftSa && a.edgeProbability >= cfg.vixSoftEp)
    && (|| (env.riskOff && a.direction == LONG && env.regime != RiskOffHighVix)
        || (!env.riskOff && a.direction == SHORT))
  }

  /** The reasons raised once a stage has run, given the alert it leaves behind. */
  function StageReasons(stage: Stage, env: GateEnv, a: Alert, seen: seq<GateRejection>): seq<GateRejection> {
    var priced := Directional(a) && ENTRY_ORDER_INVALID !in seen;
    match stage
    case SourceHallucination => Raise(seen, ActualSources(env, a) == 0, SOURCE_HALLUCINATION)
    case ReconcileEvidence => seen
    case EntryOrder => Raise(seen, Directional(a) && OrderInvalid(a), ENTRY_ORDER_INVALID)
    case EntryMarketDrift => Raise(seen, priced && Drifted(env, a), ENTRY_MARKET_DRIFT)
    case ExtendedHoursPenalty => seen
    case MarketSessionClosed =>
      Raise(seen, Directional(a) && env.session == Closed && env.settings.cfg.marketHoursGatesEnabled,
            MARKET_SESSION_CLOSED)
    case VixHard => Raise(seen, env.vix > 30.0 && Directional(a), VIX_HARD)
    case ThresholdGates => ThresholdReasons(env, a, seen)
    case RrGates =>
      var r1 := Raise(seen, priced && Risk(a.entry) == 0.0, RR_ZERO_RISK);
      var r2 := Raise(r1, priced && Risk(a.entry) < RiskFloor(a.entry), RR_ZERO_RISK);
      Raise(r2, priced && Risk(a.entry) > 0.0 && RiskReward(a.entry) < RrMinimum(env), RR_MINIMUM)
    case ForecastContradicts => Raise(seen, Directional(a) && ForecastContradicted(env, a), FORECAST_CONTRADICTS)
    case MacroVeto => Raise(seen, MacroVetoed(env, a), MACRO_VETO)
    case VixSoft => Raise(seen, VixSoftTripped(env, a), VIX_SOFT)
    case VolumeConfirmation =>
      Raise(seen, Directional(a) && VolumeUnconfirmed(env, a) && a.confidence < env.confGate, VOLUME_UNCONFIRMED)
  }

  function RunStage(stage: Stage, env: GateEnv, p: Progress): Progress {
    var a := StageAlert(stage, env, p.alert);
    Progress(a, StageReasons(stage, env, a, p.reasons))
  }

  function RunStages(stages: seq<Stage>, env: GateEnv, p: Progress): Progress {
    if stages == [] then p
    else RunStage(stages[|stages| - 1], env, RunStages(stages[..|stages| - 1], env, p))
  }

  // ---------------------------------------------------------------- the mutable context

  datatype Outcome =
    | ParseFailed
    | TimeframeRejected(alert: Alert)
    | Rejected(alert: Alert, reasons: seq<GateRejection>)
    | DedupSuppressed(alert: Alert)
    | Accepted(alert: Alert)

  class CandidateContext {
    var alert: Alert
    const env: GateEnv
    const tracker: ReasonTracker

    constructor (alert: Alert, env: GateEnv)
      ensures this.alert == alert && this.env == env && fresh(tracker)
      ensures tracker.Valid() && tracker.reasons == []
    {
      this.alert, this.env := alert, env;
      tracker := new ReasonTracker();
    }

    ghost function State(): Progress
      reads this, tracker
    {
      Progress(alert, tracker.reasons)
    }

    method StageSourceHallucination()
      requires tracker.Valid()
      modifies this, tracker
      ensures tracker.Valid() && State() == RunStage(SourceHallucination, env, old(State()))
    {
      if ActualSources(env, alert) == 0 {
        tracker.Add(SOURCE_HALLUCINATION);
      }
    }

    method DeriveSourcesAgree() returns (agree: int)
      ensures agree == ServerSourcesAgree(env, alert)
    {
      var cfg := env.settings.cfg;
      var families := if alert.symbol in env.familyScores then env.familyScores[alert.symbol] else map[];
      if cfg.saIncludeMacroContext && MacroFamily !in families {
        families := families[MacroFamily :=
          if env.riskOff then -Abs(cfg.saMacroContextScore) else Abs(cfg.saMacroContextScore)];
      }
      assert families == FamilyScores(env, alert);
      agree := AlignedFamilyCount(families, env.settings.alignedMinScore, alert.direction);
      if cfg.saForecastConfirmBonusEnabled {
        var trend := if TrendFamily in families then families[TrendFamily] else 0.0;
        var types := if alert.symbol in env.snapTypes then env.snapTypes[alert.symbol] else {};
        if alert.symbol in env.forecastScores && (TechnicalTrend in types || RelativeStrength in types) {
          var forecast := env.forecastScores[alert.symbol];
          if alert.direction == LONG && trend >= cfg.saFamilyMinScore && forecast >= cfg.saForecastBonusThreshold {
            agree := agree + 1;
          } else if alert.direction == SHORT && trend <= -cfg.saFamilyMinScore
                    && forecast <= -cfg.saForecastBonusThreshold {
            agree := agree + 1;
          }
        }
      }
      agree := MinInt(agree, 7);
    }

    method StageReconciliation()
      requires tracker.Valid()
      modifies this, tracker
      ensures tracker.Valid() && State() == RunStage(ReconcileEvidence, env, old(State()))
    {
      var agree := DeriveSourcesAgree();
      alert := alert.(sourcesAgree := agree);
      var sources := ActualSources(env, alert);
      var ceiling := if sources == 0 then 0.50
                      else if MinInt(sources, 11) in env.settings.epCeiling then
                       env.settings.epCeiling[MinInt(sources, 11)]
                     else 0.99;
      if alert.edgeProbability > ceiling {
        alert := alert.(edgeProbability := ceiling);
      }
    }

    method StageEntryOrder()
      requires tracker.Valid()
      modifies this, tracker
      ensures tracker.Valid() && State() == RunStage(EntryOrder, env, old(State()))
    {
      if !Directional(alert) { return; }
      if !AllPositive(alert.entry) {
        tracker.Add(ENTRY_ORDER_INVALID);
        return;
      }
      if !HasValidOrdering(alert.entry, alert.direction) {
        tracker.Add(ENTRY_ORDER_INVALID);
      }
    }

    method StageEntryMarketDrift()
      requires tracker.Valid()
      modifies this, tracker
      ensures tracker.Valid() && State() == RunStage(EntryMarketDrift, env, old(State()))
    {
      if !Directional(alert) || ENTRY_ORDER_INVALID in tracker.seen { return; }
      if alert.symbol !in env.refPrices || env.refPrices[alert.symbol] <= 0.0 { return; }
      var cfg := env.settings.cfg;
      var drift := Abs(alert.entry.level - env.refPrices[alert.symbol]) / env.refPrices[alert.symbol];
      var gate := cfg.driftMaxPct;
      if env.vix >= cfg.vixSoftThreshold { gate := gate + cfg.driftVixBump; }
      if env.vix >= cfg.driftVixHighThreshold { gate := gate + cfg.driftVixHighBump; }
      if env.session in {PreMarket, AfterHours} { gate := gate + cfg.driftPrepostBump; }
      gate := Min(gate, cfg.driftCapPct);
      if drift > gate {
        tracker.Add(ENTRY_MARKET_DRIFT);
      }
    }

    method StageExtendedHoursPenalty()
      requires tracker.Valid()
      modifies this, tracker
      ensures tracker.Valid() && State() == RunStage(ExtendedHoursPenalty, env, old(State()))
    {
      if !Directional(alert) || !env.settings.extendedHoursAlerts || env.session !in {PreMarket, AfterHours} {
        return;
      }
      alert := alert.(confidence := Max(0.0, alert.confidence + env.settings.extendedHoursPenalty));
    }

    method StageMarketSessionClosed()
      requires tracker.Valid()
      modifies this, tracker
      ensures tracker.Valid() && State() == RunStage(MarketSessionClosed, env, old(State()))
    {
      if Directional(alert) && env.session == Closed && env.settings.cfg.marketHoursGatesEnabled {
        tracker.Add(MARKET_SESSION_CLOSED);
      }
    }

    method StageVixHard()
      requires tracker.Valid()
      modifies this, tracker
      ensures tracker.Valid() && State() == RunStage(VixHard, env, old(State()))
    {
      if env.vix > 30.0 && Directional(alert) {
        tracker.Add(VIX_HARD);
      }
    }

    method StageThresholdGates()
      requires tracker.Valid()
      modifies this, tracker
      ensures tracker.Valid() && State() == RunStage(ThresholdGates, env, old(State()))
    {
      var cfg := env.settings.cfg;
      if alert.direction == WATCH {
        if alert.edgeProbability < Max(env.epGate - cfg.watchEpDelta, 0.50) {
          tracker.Add(WATCH_EP_THRESHOLD);
        }
        if alert.sourcesAgree < MaxInt(cfg.watchSaMin, env.saGate - 1) {
          tracker.Add(WATCH_SA_THRESHOLD);
        }
        if alert.confidence < Max(cfg.watchConfMin, env.confGate - 0.10) {
          tracker.Add(WATCH_CONF_THRESHOLD);
        }
        return;
      }
      if alert.edgeProbability < env.epGate {
        tracker.Add(EP_THRESHOLD);
      }
      if alert.sourcesAgree < env.saGate {
        tracker.Add(SA_THRESHOLD);
      }
      if alert.confidence >= cfg.highConfidenceMin && alert.sourcesAgree < cfg.highConfidenceMinSa {
        tracker.Add(HIGH_CONFIDENCE_ALIGNMENT);
      }
      if alert.confidence < env.confGate {
        tracker.Add(CONF_THRESHOLD);
      }
    }

    method StageRrGates()
      requires tracker.Valid()
      modifies this, tracker
      ensures tracker.Valid() && State() == RunStage(RrGates, env, old(State()))
    {
      if !Directional(alert) || ENTRY_ORDER_INVALID in tracker.seen { return; }
      var risk := Abs(alert.entry.level - alert.entry.stop);
      var ratio := RiskReward(alert.entry);
      if risk == 0.0 {
        tracker.Add(RR_ZERO_RISK);
      }
      if risk < Max(alert.entry.level * 0.001, 0.05) {
        tracker.Add(RR_ZERO_RISK);
      }
      if risk > 0.0 && ratio < RrMinimum(env) {
        tracker.Add(RR_MINIMUM);
      }
    }

    method StageForecastContradicts()
      requires tracker.Valid()
      modifies this, tracker
      ensures tracker.Valid() && State() == RunStage(ForecastContradicts, env, old(State()))
    {
      if !Directional(alert) { return; }
      if alert.symbol !in env.forecastScores { return; }
      var cfg, score := env.settings.cfg, env.forecastScores[alert.symbol];
      var contradicts := false;
      if alert.direction == LONG && score < -cfg.forecastGateScoreThreshold {
        contradicts := true;
      } else if alert.direction == SHORT && score > cfg.forecastGateScoreThreshold {
        contradicts := true;
      }
      var highConviction := alert.sourcesAgree >= cfg.forecastGateSa && alert.edgeProbability >= cfg.forecastGateEp;
      if contradicts && !highConviction {
        tracker.Add(FORECAST_CONTRADICTS);
      }
    }

    method StageMacroVeto()
      requires tracker.Valid()
      modifies this, tracker
      ensures tracker.Valid() && State() == RunStage(MacroVeto, env, old(State()))
    {
      var cfg := env.settings.cfg;
      var highConviction := alert.sourcesAgree >= cfg.macroVetoSa && alert.edgeProbability >= cfg.macroVetoEp;
      if env.timeframe == "1h" && alert.direction == LONG && env.riskOff && env.vix >= 25.0 && !highConviction {
        tracker.Add(MACRO_VETO);
      }
    }

    method StageVixSoft()
      requires tracker.Valid()
      modifies this, tracker
      ensures tracker.Valid() && State() == RunStage(VixSoft, env, old(State()))
    {
      var cfg := env.settings.cfg;
      var highConviction := alert.sourcesAgree >= cfg.vixSoftSa && alert.edgeProbability >= cfg.vixSoftEp;
      var triggered := false;
      if env.vix > cfg.vixSoftThreshold && !highConviction {
        if env.riskOff && alert.direction == LONG && env.regime != RiskOffHighVix {
          triggered := true;
        } else if !env.riskOff && alert.direction == SHORT {
          triggered := true;
        }
      }
      if triggered {
        tracker.Add(VIX_SOFT);
      }
    }

    method StageVolumeUnconfirmed()
      requires tracker.Valid()
      modifies this, tracker
      ensures tracker.Valid() && State() == RunStage(VolumeConfirmation, env, old(State()))
    {
      if !Directional(alert) { return; }
      var cfg := env.settings.cfg;
      var score := if alert.symbol in env.volumeScores then env.volumeScores[alert.symbol] else 0.0;
      if score < cfg.volumeConfirmScore {
        var penalty := if env.regime in {Choppy, RiskOffHighVix} then cfg.volumeConfirmPenaltyChoppy
                       else cfg.volumeConfirmPenalty;
        alert := alert.(confidence := Max(alert.confidence - penalty, 0.0));
        if alert.confidence < env.confGate {
          tracker.Add(VOLUME_UNCONFIRMED);
        }
      }
    }

    method Apply(stage: Stage)
      requires tracker.Valid()
      modifies this, tracker
      ensures tracker.Valid() && State() == RunStage(stage, env, old(State()))
    {
      match stage
      case SourceHallucination => StageSourceHallucination();
      case ReconcileEvidence => StageReconciliation();
      case EntryOrder => StageEntryOrder();
      case EntryMarketDrift => StageEntryMarketDrift();
      case ExtendedHoursPenalty => StageExtendedHoursPenalty();
      case MarketSessionClosed => StageMarketSessionClosed();
      case VixHard => StageVixHard();
      case ThresholdGates => StageThresholdGates();
      case RrGates => StageRrGates();
      case ForecastContradicts => StageForecastContradicts();
      case MacroVeto => StageMacroVeto();
      case VixSoft => StageVixSoft();
      case VolumeConfirmation => StageVolumeUnconfirmed();
    }
  }

  // ---------------------------------------------------------------- the pipeline

  function KeyOf(env: GateEnv, a: Alert): DedupKey { DedupKey(env.timeframe, a.direction, a.symbol) }

  function PipelineOutcome(end: Progress, suppressed: bool): Outcome {
    if end.reasons != [] then Rejected(end.alert, end.reasons)
    else if suppressed then DedupSuppressed(end.alert)
    else Accepted(end.alert)
  }

  class CandidateGatePipeline {
    const stages: seq<Stage>

    constructor ()
      ensures stages == DEFAULT_STAGES
    {
      stages := DEFAULT_STAGES;
    }

    /** Runs every stage, then claims the dedup key only for a candidate nobody rejected. */
    method Run(ctx: CandidateContext, client: RedisClient) returns (outcome: Outcome)
      requires ctx.tracker.Valid()
      modifies ctx, ctx.tracker, client`db, client.breaker
      ensures ctx.State() == RunStages(stages, ctx.env, old(ctx.State()))
      ensures outcome == PipelineOutcome(ctx.State(), Suppressed(ctx.env.settings, old(client.db),
                           KeyOf(ctx.env, ctx.alert), client.now, old(client.On())))
      ensures client.db == if ctx.State().reasons != [] then old(client.db)
                           else Claimed(ctx.env.settings, old(client.db), KeyOf(ctx.env, ctx.alert), client.now,
                                       old(client.On()))
      ensures client.On() == old(client.On())
    {
      for i := 0 to |stages|
        invariant ctx.tracker.Valid()
        invariant ctx.State() == RunStages(stages[..i], ctx.env, old(ctx.State()))
        invariant client.db == old(client.db) && client.On() == old(client.On())
      {
        ctx.Apply(stages[i]);
        assert stages[..i + 1][..i] == stages[..i];
      }
      assert stages[..|stages|] == stages;
      if ctx.tracker.reasons != [] {
        return Rejected(ctx.alert, ctx.tracker.reasons);
      }
      var suppress := client.TryDedupSet(ctx.env.settings, ctx.alert.symbol, ctx.alert.direction, ctx.env.timeframe);
      if suppress {
        return DedupSuppressed(ctx.alert);
      }
      return Accepted(ctx.alert);
    }
  }
}
