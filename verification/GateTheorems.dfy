/** What the candidate pipeline decides, stated on the original candidate alone, and the
    consequences: safety of accepted alerts, regime monotonicity, non-interference. */
module GateTheorems {
  import opened Prelude
  import opened GateTypes
  import opened Regimes
  import opened CandidatePipeline

  // ---------------------------------------------------------------- the declarative reference

  function WithEvidence(env: GateEnv, a: Alert): Alert {
    a.(sourcesAgree := ServerSourcesAgree(env, a), edgeProbability := Min(a.edgeProbability, EpCeiling(env, a)))
  }

  function SessionConfidence(env: GateEnv, a: Alert): real {
    if Directional(a) && ExtendedHours(env) then Max(0.0, a.confidence + env.settings.extendedHoursPenalty)
    else a.confidence
  }

  /** The alert the threshold gates judge. */
  function Judged(env: GateEnv, a: Alert): Alert {
    WithEvidence(env, a).(confidence := SessionConfidence(env, a))
  }

  function FinalConfidence(env: GateEnv, a: Alert): real {
    if Directional(a) && VolumeUnconfirmed(env, a) then Max(SessionConfidence(env, a) - VolumePenalty(env), 0.0)
    else SessionConfidence(env, a)
  }

  function FinalAlert(env: GateEnv, a: Alert): Alert {
    WithEvidence(env, a).(confidence := FinalConfidence(env, a))
  }

  /** Whether gate `r` fails for candidate `a`: no stage order, no accumulated state. */
  predicate Fails(env: GateEnv, a: Alert, r: GateRejection) {
    var cfg, j := env.settings.cfg, Judged(env, a);
    var directional, priced := Directional(a), Directional(a) && !OrderInvalid(a);
    match r
    case SOURCE_HALLUCINATION => ActualSources(env, a) == 0
    case ENTRY_ORDER_INVALID => directional && OrderInvalid(a)
    case ENTRY_MARKET_DRIFT => priced && Drifted(env, a)
    case MARKET_SESSION_CLOSED => directional && env.session == Closed && cfg.marketHoursGatesEnabled
    case VIX_HARD => directional && env.vix > 30.0
    case WATCH_EP_THRESHOLD => !directional && j.edgeProbability < Max(env.epGate - cfg.watchEpDelta, 0.50)
    case WATCH_SA_THRESHOLD => !directional && j.sourcesAgree < MaxInt(cfg.watchSaMin, env.saGate - 1)
    case WATCH_CONF_THRESHOLD => !directional && j.confidence < Max(cfg.watchConfMin, env.confGate - 0.10)
    case EP_THRESHOLD => directional && j.edgeProbability < env.epGate
    case SA_THRESHOLD => directional && j.sourcesAgree < env.saGate
    case HIGH_CONFIDENCE_ALIGNMENT =>
      directional && j.confidence >= cfg.highConfidenceMin && j.sourcesAgree < cfg.highConfidenceMinSa
    case CONF_THRESHOLD => directional && j.confidence < env.confGate
    case RR_ZERO_RISK => priced && Risk(a.entry) < RiskFloor(a.entry)
    case RR_MINIMUM => priced && Risk(a.entry) > 0.0 && RiskReward(a.entry) < RrMinimum(env)
    case FORECAST_CONTRADICTS => directional && ForecastContradicted(env, j)
    case MACRO_VETO => MacroVetoed(env, j)
    case VIX_SOFT => VixSoftTripped(env, j)
    case VOLUME_UNCONFIRMED => directional && VolumeUnconfirmed(env, a) && FinalConfidence(env, a) < env.confGate
    case _ => false
  }

  function FailsIn(env: GateEnv, a: Alert): GateRejection -> bool { (r: GateRejection) => Fails(env, a, r) }

  /** The order in which reasons appear; rejections outside the pipeline rank last. */
  function Rank(r: GateRejection): nat {
    match r
    case SOURCE_HALLUCINATION => 0 case ENTRY_ORDER_INVALID => 1 case ENTRY_MARKET_DRIFT => 2
    case MARKET_SESSION_CLOSED => 3 case VIX_HARD => 4 case WATCH_EP_THRESHOLD => 5
    case WATCH_SA_THRESHOLD => 6 case WATCH_CONF_THRESHOLD => 7 case EP_THRESHOLD => 8
    case SA_THRESHOLD => 9 case HIGH_CONFIDENCE_ALIGNMENT => 10 case CONF_THRESHOLD => 11
    case RR_ZERO_RISK => 12 case RR_MINIMUM => 13 case FORECAST_CONTRADICTS => 14
    case MACRO_VETO => 15 case VIX_SOFT => 16 case VOLUME_UNCONFIRMED => 17 case _ => 18
  }

  ghost predicate Ranked(reasons: seq<GateRejection>) {
    forall i, j :: 0 <= i < j < |reasons| ==> Rank(reasons[i]) < Rank(reasons[j])
  }

  /** `reasons` lists exactly the failing gates ranked below n, each once, in order. */
  ghost predicate Lists(reasons: seq<GateRejection>, fails: GateRejection -> bool, n: nat) {
    && Ranked(reasons)
    && (forall r :: r in reasons ==> fails(r) && Rank(r) < n)
    && (forall r :: fails(r) && Rank(r) < n ==> r in reasons)
  }

  /** The listing is unique. */
  lemma {:induction false} ListsIsUnique(xs: seq<GateRejection>, ys: seq<GateRejection>,
                                         fails: GateRejection -> bool, n: nat)
    requires n <= 18 && Lists(xs, fails, n) && Lists(ys, fails, n)
    ensures xs == ys
  {
    if n > 0 {
      var xs', ys' := DropTop(xs, fails, n), DropTop(ys, fails, n);
      ListsIsUnique(xs', ys', fails, n - 1);
      if xs != xs' { assert xs[|xs| - 1] in ys; TopIsLast(ys, xs[|xs| - 1], n); }
      if ys != ys' { assert ys[|ys| - 1] in xs; TopIsLast(xs, ys[|ys| - 1], n); }
      if xs != xs' && ys != ys' { SameRank(xs[|xs| - 1], ys[|ys| - 1]); }
    }
  }

  lemma SameRank(r: GateRejection, s: GateRejection)
    requires Rank(r) == Rank(s) < 18
    ensures r == s
  {
  }

  lemma TopIsLast(xs: seq<GateRejection>, r: GateRejection, n: nat)
    requires Ranked(xs) && r in xs && Rank(r) == n - 1 && forall x :: x in xs ==> Rank(x) < n
    ensures xs[|xs| - 1] == r
  {
    var i :| 0 <= i < |xs| && xs[i] == r;
    assert xs[|xs| - 1] in xs;
  }

  function DropTop(xs: seq<GateRejection>, fails: GateRejection -> bool, n: nat): (r: seq<GateRejection>)
    requires 0 < n <= 18 && Lists(xs, fails, n)
    ensures Lists(r, fails, n - 1)
    ensures r == xs || (xs != [] && Rank(xs[|xs| - 1]) == n - 1 && r == xs[..|xs| - 1])
  {
    if xs != [] && Rank(xs[|xs| - 1]) == n - 1 then
      assert forall r :: r in xs && r !in xs[..|xs| - 1] ==> r == xs[|xs| - 1];
      xs[..|xs| - 1]
    else
      assert forall i :: 0 <= i < |xs| ==> Rank(xs[i]) < n - 1;
      xs
  }

  lemma RaiseNext(reasons: seq<GateRejection>, fails: GateRejection -> bool, failed: bool, r: GateRejection)
    requires Lists(reasons, fails, Rank(r)) && Rank(r) < 18 && failed == fails(r)
    ensures Lists(Raise(reasons, failed, r), fails, Rank(r) + 1)
  {
    forall s | Rank(s) == Rank(r) ensures s == r { SameRank(s, r); }
    assert r !in reasons;
  }

  // ---------------------------------------------------------------- refinement, stage by stage

  lemma RaiseTested(reasons: seq<GateRejection>, env: GateEnv, a: Alert, r: GateRejection)
    returns (out: seq<GateRejection>)
    requires Lists(reasons, FailsIn(env, a), Rank(r)) && Rank(r) < 18
    ensures out == Raise(reasons, Fails(env, a, r), r) && Lists(out, FailsIn(env, a), Rank(r) + 1)
  {
    out := Raise(reasons, Fails(env, a, r), r);
    RaiseNext(reasons, FailsIn(env, a), Fails(env, a, r), r);
  }

  /** One stage that raises at most the single gate `r`, which ranks next. */
  ghost predicate RaisesOnly(stage: Stage, env: GateEnv, a: Alert, p: Progress, r: GateRejection, after: Alert) {
    RunStage(stage, env, p) == Progress(after, Raise(p.reasons, Fails(env, a, r), r))
  }

  lemma Advance(stage: Stage, env: GateEnv, a: Alert, p: Progress, r: GateRejection, after: Alert)
    requires Rank(r) < 18 && Lists(p.reasons, FailsIn(env, a), Rank(r))
    requires RaisesOnly(stage, env, a, p, r, after)
    ensures RunStage(stage, env, p).alert == after
    ensures Lists(RunStage(stage, env, p).reasons, FailsIn(env, a), Rank(r) + 1)
  {
    var _ := RaiseTested(p.reasons, env, a, r);
  }

  lemma StageEffects1and2(env: GateEnv, a: Alert, p: Progress)
    requires p == Progress(a, [])
    ensures var q := RunStage(ReconcileEvidence, env, RunStage(SourceHallucination, env, p));
            q.alert == WithEvidence(env, a) && Lists(q.reasons, FailsIn(env, a), 1)
  {
    Advance(SourceHallucination, env, a, p, SOURCE_HALLUCINATION, a);
  }

  lemma StageEffect3(env: GateEnv, a: Alert, p: Progress)
    requires p.alert == WithEvidence(env, a) && Lists(p.reasons, FailsIn(env, a), 1)
    ensures var q := RunStage(EntryOrder, env, p);
            q.alert == WithEvidence(env, a) && Lists(q.reasons, FailsIn(env, a), 2)
  {
    Advance(EntryOrder, env, a, p, ENTRY_ORDER_INVALID, p.alert);
  }

  lemma OrderReasonSeen(env: GateEnv, a: Alert, reasons: seq<GateRejection>, n: nat)
    requires n >= 2 && Lists(reasons, FailsIn(env, a), n)
    ensures ENTRY_ORDER_INVALID in reasons <==> Directional(a) && OrderInvalid(a)
  {
    assert FailsIn(env, a)(ENTRY_ORDER_INVALID) == Fails(env, a, ENTRY_ORDER_INVALID);
  }

  lemma StageEffects4and5(env: GateEnv, a: Alert, p: Progress)
    requires p.alert == WithEvidence(env, a) && Lists(p.reasons, FailsIn(env, a), 2)
    ensures var q := RunStage(ExtendedHoursPenalty, env, RunStage(EntryMarketDrift, env, p));
            q.alert == Judged(env, a) && Lists(q.reasons, FailsIn(env, a), 3)
  {
    OrderReasonSeen(env, a, p.reasons, 2);
    Advance(EntryMarketDrift, env, a, p, ENTRY_MARKET_DRIFT, p.alert);
  }

  lemma StageEffects6and7(env: GateEnv, a: Alert, p: Progress)
    requires p.alert == Judged(env, a) && Lists(p.reasons, FailsIn(env, a), 3)
    ensures var q := RunStage(VixHard, env, RunStage(MarketSessionClosed, env, p));
            q.alert == Judged(env, a) && Lists(q.reasons, FailsIn(env, a), 5)
  {
    Advance(MarketSessionClosed, env, a, p, MARKET_SESSION_CLOSED, p.alert);
    Advance(VixHard, env, a, RunStage(MarketSessionClosed, env, p), VIX_HARD, p.alert);
  }

  function Raised(env: GateEnv, a: Alert, reasons: seq<GateRejection>, r: GateRejection): seq<GateRejection> {
    Raise(reasons, Fails(env, a, r), r)
  }

  /** The thresholds test the judged alert exactly as the gates say. */
  lemma WatchThresholdsTestGates(env: GateEnv, a: Alert, seen: seq<GateRejection>)
    requires !Directional(a)
    ensures ThresholdReasons(env, Judged(env, a), seen)
         == Raised(env, a, Raised(env, a, Raised(env, a, seen, WATCH_EP_THRESHOLD), WATCH_SA_THRESHOLD),
                   WATCH_CONF_THRESHOLD)
  {}

  lemma TradeThresholdsTestGates(env: GateEnv, a: Alert, seen: seq<GateRejection>)
    requires Directional(a)
    ensures ThresholdReasons(env, Judged(env, a), seen)
         == Raised(env, a, Raised(env, a, Raised(env, a, Raised(env, a, seen, EP_THRESHOLD), SA_THRESHOLD),
                                         HIGH_CONFIDENCE_ALIGNMENT), CONF_THRESHOLD)
  {}

  lemma OtherThresholdsPass(env: GateEnv, a: Alert, r: GateRejection)
    ensures Directional(a) && 5 <= Rank(r) < 8 ==> !Fails(env, a, r)
    ensures !Directional(a) && 8 <= Rank(r) < 12 ==> !Fails(env, a, r)
  {}

  lemma SkipRange(reasons: seq<GateRejection>, fails: GateRejection -> bool, from: nat, to: nat)
    requires from <= to && Lists(reasons, fails, from)
    requires forall r :: from <= Rank(r) < to ==> !fails(r)
    ensures Lists(reasons, fails, to)
  {}

  lemma ListWatch(seen: seq<GateRejection>, fails: GateRejection -> bool)
    requires Lists(seen, fails, 5) && forall r :: 8 <= Rank(r) < 12 ==> !fails(r)
    ensures Lists(Raise(Raise(Raise(seen, fails(WATCH_EP_THRESHOLD), WATCH_EP_THRESHOLD),
                              fails(WATCH_SA_THRESHOLD), WATCH_SA_THRESHOLD),
                        fails(WATCH_CONF_THRESHOLD), WATCH_CONF_THRESHOLD), fails, 12)
  {
    RaiseNext(seen, fails, fails(WATCH_EP_THRESHOLD), WATCH_EP_THRESHOLD);
    var r1 := Raise(seen, fails(WATCH_EP_THRESHOLD), WATCH_EP_THRESHOLD);
    RaiseNext(r1, fails, fails(WATCH_SA_THRESHOLD), WATCH_SA_THRESHOLD);
    var r2 := Raise(r1, fails(WATCH_SA_THRESHOLD), WATCH_SA_THRESHOLD);
    RaiseNext(r2, fails, fails(WATCH_CONF_THRESHOLD), WATCH_CONF_THRESHOLD);
    SkipRange(Raise(r2, fails(WATCH_CONF_THRESHOLD), WATCH_CONF_THRESHOLD), fails, 8, 12);
  }

  lemma ListTrade(seen: seq<GateRejection>, fails: GateRejection -> bool)
    requires Lists(seen, fails, 5) && forall r :: 5 <= Rank(r) < 8 ==> !fails(r)
    ensures Lists(Raise(Raise(Raise(Raise(seen, fails(EP_THRESHOLD), EP_THRESHOLD), fails(SA_THRESHOLD), SA_THRESHOLD),
                              fails(HIGH_CONFIDENCE_ALIGNMENT), HIGH_CONFIDENCE_ALIGNMENT),
                        fails(CONF_THRESHOLD), CONF_THRESHOLD), fails, 12)
  {
    SkipRange(seen, fails, 5, 8);
    RaiseNext(seen, fails, fails(EP_THRESHOLD), EP_THRESHOLD);
    var r1 := Raise(seen, fails(EP_THRESHOLD), EP_THRESHOLD);
    RaiseNext(r1, fails, fails(SA_THRESHOLD), SA_THRESHOLD);
    var r2 := Raise(r1, fails(SA_THRESHOLD), SA_THRESHOLD);
    RaiseNext(r2, fails, fails(HIGH_CONFIDENCE_ALIGNMENT), HIGH_CONFIDENCE_ALIGNMENT);
    var r3 := Raise(r2, fails(HIGH_CONFIDENCE_ALIGNMENT), HIGH_CONFIDENCE_ALIGNMENT);
    RaiseNext(r3, fails, fails(CONF_THRESHOLD), CONF_THRESHOLD);
  }

  lemma StageEffect8(env: GateEnv, a: Alert, p: Progress)
    requires p.alert == Judged(env, a) && Lists(p.reasons, FailsIn(env, a), 5)
    ensures var q := RunStage(ThresholdGates, env, p);
            q.alert == Judged(env, a) && Lists(q.reasons, FailsIn(env, a), 12)
  {
    forall r ensures FailsIn(env, a)(r) == Fails(env, a, r) {}
    if Directional(a) {
      forall r | 5 <= Rank(r) < 8 ensures !FailsIn(env, a)(r) { OtherThresholdsPass(env, a, r); }
      TradeThresholdsTestGates(env, a, p.reasons);
      ListTrade(p.reasons, FailsIn(env, a));
    } else {
      forall r | 8 <= Rank(r) < 12 ensures !FailsIn(env, a)(r) { OtherThresholdsPass(env, a, r); }
      WatchThresholdsTestGates(env, a, p.reasons);
      ListWatch(p.reasons, FailsIn(env, a));
    }
  }

  lemma StageEffect9(env: GateEnv, a: Alert, p: Progress)
    requires p.alert == Judged(env, a) && Lists(p.reasons, FailsIn(env, a), 12)
    ensures var q := RunStage(RrGates, env, p);
            q.alert == Judged(env, a) && Lists(q.reasons, FailsIn(env, a), 14)
  {
    OrderReasonSeen(env, a, p.reasons, 12);
    assert RR_ZERO_RISK !in p.reasons;
    var r1 := RaiseTested(p.reasons, env, a, RR_ZERO_RISK);
    var r2 := RaiseTested(r1, env, a, RR_MINIMUM);
    assert RunStage(RrGates, env, p).reasons == r2;
  }

  lemma StageEffects10and11(env: GateEnv, a: Alert, p: Progress)
    requires p.alert == Judged(env, a) && Lists(p.reasons, FailsIn(env, a), 14)
    ensures var q := RunStage(MacroVeto, env, RunStage(ForecastContradicts, env, p));
            q.alert == Judged(env, a) && Lists(q.reasons, FailsIn(env, a), 16)
  {
    Advance(ForecastContradicts, env, a, p, FORECAST_CONTRADICTS, p.alert);
    Advance(MacroVeto, env, a, RunStage(ForecastContradicts, env, p), MACRO_VETO, p.alert);
  }

  lemma StageEffects12and13(env: GateEnv, a: Alert, p: Progress)
    requires p.alert == Judged(env, a) && Lists(p.reasons, FailsIn(env, a), 16)
    ensures var q := RunStage(VolumeConfirmation, env, RunStage(VixSoft, env, p));
            q.alert == FinalAlert(env, a) && Lists(q.reasons, FailsIn(env, a), 18)
  {
    Advance(VixSoft, env, a, p, VIX_SOFT, p.alert);
    Advance(VolumeConfirmation, env, a, RunStage(VixSoft, env, p), VOLUME_UNCONFIRMED, FinalAlert(env, a));
  }

  /** A chain of states linked by the stages ends where the stages lead. */
  lemma {:induction false} RunChain(stages: seq<Stage>, env: GateEnv, ps: seq<Progress>)
    requires |ps| == |stages| + 1
    requires forall k :: 0 <= k < |stages| ==> ps[k + 1] == RunStage(stages[k], env, ps[k])
    ensures RunStages(stages, env, ps[0]) == ps[|stages|]
  {
    if stages != [] {
      RunChain(stages[..|stages| - 1], env, ps[..|stages|]);
    }
  }

  function Trail(stages: seq<Stage>, env: GateEnv, p: Progress): (ps: seq<Progress>)
    ensures |ps| == |stages| + 1 && ps[0] == p
    ensures forall k :: 0 <= k < |stages| ==> ps[k + 1] == RunStage(stages[k], env, ps[k])
  {
    if stages == [] then [p]
    else
      var init := Trail(stages[..|stages| - 1], env, p);
      init + [RunStage(stages[|stages| - 1], env, init[|init| - 1])]
  }

  /** Where the default pipeline takes a candidate. */
  function Journey(env: GateEnv, a: Alert): Progress { RunStages(DEFAULT_STAGES, env, Progress(a, [])) }

  ghost predicate IsTrail(ps: seq<Progress>, stages: seq<Stage>, env: GateEnv, a: Alert) {
    && stages == DEFAULT_STAGES && |ps| == 14 && ps[0] == Progress(a, [])
    && forall k :: 0 <= k < 13 ==> ps[k + 1] == RunStage(stages[k], env, ps[k])
  }

  lemma JourneyStarts(env: GateEnv, a: Alert, stages: seq<Stage>, ps: seq<Progress>)
    requires IsTrail(ps, stages, env, a)
    ensures ps[5].alert == Judged(env, a) && Lists(ps[5].reasons, FailsIn(env, a), 3)
  {
    assert ps[1] == RunStage(SourceHallucination, env, ps[0]);
    assert ps[2] == RunStage(ReconcileEvidence, env, ps[1]);
    StageEffects1and2(env, a, ps[0]);
    assert ps[3] == RunStage(EntryOrder, env, ps[2]);
    StageEffect3(env, a, ps[2]);
    assert ps[4] == RunStage(EntryMarketDrift, env, ps[3]);
    assert ps[5] == RunStage(ExtendedHoursPenalty, env, ps[4]);
    StageEffects4and5(env, a, ps[3]);
  }

  lemma JourneyContinues(env: GateEnv, a: Alert, stages: seq<Stage>, ps: seq<Progress>)
    requires IsTrail(ps, stages, env, a)
    requires ps[5].alert == Judged(env, a) && Lists(ps[5].reasons, FailsIn(env, a), 3)
    ensures ps[9].alert == Judged(env, a) && Lists(ps[9].reasons, FailsIn(env, a), 14)
  {
    assert ps[6] == RunStage(MarketSessionClosed, env, ps[5]);
    assert ps[7] == RunStage(VixHard, env, ps[6]);
    StageEffects6and7(env, a, ps[5]);
    assert ps[8] == RunStage(ThresholdGates, env, ps[7]);
    StageEffect8(env, a, ps[7]);
    assert ps[9] == RunStage(RrGates, env, ps[8]);
    StageEffect9(env, a, ps[8]);
  }

  lemma JourneyCloses(env: GateEnv, a: Alert, stages: seq<Stage>, ps: seq<Progress>)
    requires IsTrail(ps, stages, env, a)
    requires ps[9].alert == Judged(env, a) && Lists(ps[9].reasons, FailsIn(env, a), 14)
    ensures ps[13].alert == FinalAlert(env, a) && Lists(ps[13].reasons, FailsIn(env, a), 18)
  {
    assert ps[10] == RunStage(ForecastContradicts, env, ps[9]);
    assert ps[11] == RunStage(MacroVeto, env, ps[10]);
    StageEffects10and11(env, a, ps[9]);
    assert ps[12] == RunStage(VixSoft, env, ps[11]);
    assert ps[13] == RunStage(VolumeConfirmation, env, ps[12]);
    StageEffects12and13(env, a, ps[11]);
  }

  lemma JourneyEnds(env: GateEnv, a: Alert, stages: seq<Stage>)
    requires stages == DEFAULT_STAGES
    ensures var q := RunStages(stages, env, Progress(a, []));
            q.alert == FinalAlert(env, a) && Lists(q.reasons, FailsIn(env, a), 18)
  {
    var ps := Trail(stages, env, Progress(a, []));
    RunChain(stages, env, ps);
    JourneyStarts(env, a, stages, ps);
    JourneyContinues(env, a, stages, ps);
    JourneyCloses(env, a, stages, ps);
  }

  lemma AllFailures(env: GateEnv, a: Alert, reasons: seq<GateRejection>)
    requires Lists(reasons, FailsIn(env, a), 18)
    ensures NoDuplicates(reasons)
    ensures forall r :: r in reasons <==> Fails(env, a, r)
  {
    forall r ensures r in reasons <==> Fails(env, a, r) {
      assert FailsIn(env, a)(r) == Fails(env, a, r);
      assert Fails(env, a, r) ==> Rank(r) < 18;
    }
  }

  /** The mutating pipeline computes the final alert and exactly the failed gates, each once and
      in rank order, as functions of the original candidate. */
  lemma PipelineRefinesGates(env: GateEnv, a: Alert)
    ensures Journey(env, a).alert == FinalAlert(env, a)
    ensures Lists(Journey(env, a).reasons, FailsIn(env, a), 18)
    ensures NoDuplicates(Journey(env, a).reasons)
    ensures forall r :: r in Journey(env, a).reasons <==> Fails(env, a, r)
  {
    JourneyEnds(env, a, DEFAULT_STAGES);
    AllFailures(env, a, Journey(env, a).reasons);
  }

  // ---------------------------------------------------------------- acceptance

  /** The outcome of evaluating candidate `a` when its dedup key is, or is not, already claimed. */
  function Verdict(env: GateEnv, a: Alert, claimed: bool): Outcome { PipelineOutcome(Journey(env, a), claimed) }

  ghost predicate Passes(env: GateEnv, a: Alert) { forall r :: !Fails(env, a, r) }

  /** Accepted exactly when every gate holds and nobody claimed the key; whatever the outcome, it
      carries the same final alert, and a rejection lists exactly the failed gates. */
  lemma VerdictMeaning(env: GateEnv, a: Alert, claimed: bool)
    ensures Verdict(env, a, claimed) == Accepted(FinalAlert(env, a)) <==> Passes(env, a) && !claimed
    ensures Verdict(env, a, claimed) == DedupSuppressed(FinalAlert(env, a)) <==> Passes(env, a) && claimed
    ensures Verdict(env, a, claimed).Rejected? <==> !Passes(env, a)
    ensures Verdict(env, a, claimed).Accepted? <==> Passes(env, a) && !claimed
    ensures Verdict(env, a, claimed).Rejected? ==>
              Verdict(env, a, claimed).alert == FinalAlert(env, a)
              && Lists(Verdict(env, a, claimed).reasons, FailsIn(env, a), 18)
  {
    PipelineRefinesGates(env, a);
    var reasons := Journey(env, a).reasons;
    if reasons != [] {
      assert reasons[0] in reasons;
    }
  }

  /** Everything an accepted directional alert still satisfies after both confidence penalties. */
  lemma AcceptedDirectionalIsSafe(env: GateEnv, a: Alert)
    requires Passes(env, a) && Directional(a)
    ensures var f := FinalAlert(env, a);
      && f.direction == a.direction && f.symbol == a.symbol && f.entry == a.entry
      && f.confidence >= env.confGate
      && (env.settings.cfg.volumeConfirmPenalty >= 0.0 && env.settings.cfg.volumeConfirmPenaltyChoppy >= 0.0
            && a.confidence >= 0.0 && f.confidence >= env.settings.cfg.highConfidenceMin
          ==> f.sourcesAgree >= env.settings.cfg.highConfidenceMinSa)
      && env.epGate <= f.edgeProbability <= EpCeiling(env, a)
      && env.saGate <= f.sourcesAgree <= 7
      && AllPositive(f.entry) && HasValidOrdering(f.entry, f.direction)
      && Risk(f.entry) >= RiskFloor(f.entry) >= 0.05
      && RiskReward(f.entry) >= RrMinimum(env)
      && ActualSources(env, a) >= 1
      && env.vix <= 30.0
  {
    assert !Fails(env, a, SOURCE_HALLUCINATION) && !Fails(env, a, ENTRY_ORDER_INVALID);
    assert !Fails(env, a, VIX_HARD) && !Fails(env, a, EP_THRESHOLD);
    assert !Fails(env, a, SA_THRESHOLD) && !Fails(env, a, HIGH_CONFIDENCE_ALIGNMENT);
    assert !Fails(env, a, CONF_THRESHOLD) && !Fails(env, a, RR_ZERO_RISK);
    assert !Fails(env, a, RR_MINIMUM) && !Fails(env, a, VOLUME_UNCONFIRMED);
  }

  // ---------------------------------------------------------------- regime monotonicity

  /** The same run evidence, judged under another regime and the gates that regime implies. */
  function Under(env: GateEnv, regime: Regime): GateEnv {
    var g := EffectiveGates(env.settings, env.timeframe, regime, env.session);
    env.(regime := regime, epGate := g.ep, saGate := g.sa, confGate := g.conf)
  }

  predicate NoStricter(e1: GateEnv, e2: GateEnv) {
    && e2 == e1.(regime := e2.regime, epGate := e2.epGate, saGate := e2.saGate, confGate := e2.confGate)
    && e1.epGate <= e2.epGate && e1.saGate <= e2.saGate && e1.confGate <= e2.confGate
    && VolumePenalty(e1) <= VolumePenalty(e2)
  }

  /** Both environments, or neither, exempt LONGs from the soft VIX gate. */
  predicate SameExemption(e1: GateEnv, e2: GateEnv) { e1.regime == RiskOffHighVix <==> e2.regime == RiskOffHighVix }

  /** The gates that compare the alert with a threshold the regime moves. */
  predicate Thresholded(r: GateRejection) { 5 <= Rank(r) < 12 || r == VOLUME_UNCONFIRMED }

  lemma SharedEvidence(e1: GateEnv, e2: GateEnv, a: Alert)
    requires NoStricter(e1, e2)
    ensures Judged(e1, a) == Judged(e2, a)
    ensures FinalConfidence(e2, a) <= FinalConfidence(e1, a)
  {}

  lemma HigherThresholdsFailMore(e1: GateEnv, e2: GateEnv, a: Alert, r: GateRejection)
    requires NoStricter(e1, e2) && Thresholded(r) && Fails(e1, a, r)
    ensures Fails(e2, a, r)
  {
    SharedEvidence(e1, e2, a);
  }

  lemma EarlyGatesAgree(e1: GateEnv, e2: GateEnv, a: Alert, r: GateRejection)
    requires NoStricter(e1, e2) && Rank(r) < 5
    ensures Fails(e1, a, r) == Fails(e2, a, r)
  {}

  lemma OtherGatesAgree(e1: GateEnv, e2: GateEnv, a: Alert, r: GateRejection)
    requires NoStricter(e1, e2) && !Thresholded(r) && (r == VIX_SOFT ==> SameExemption(e1, e2))
    ensures Fails(e1, a, r) == Fails(e2, a, r)
  {
    if Rank(r) < 5 { EarlyGatesAgree(e1, e2, a, r); } else { LateGatesAgree(e1, e2, a, r); }
  }

  lemma LateGatesAgree(e1: GateEnv, e2: GateEnv, a: Alert, r: GateRejection)
    requires NoStricter(e1, e2) && Rank(r) >= 12 && r != VOLUME_UNCONFIRMED && (r == VIX_SOFT ==> SameExemption(e1, e2))
    ensures Fails(e1, a, r) == Fails(e2, a, r)
  {
    SharedEvidence(e1, e2, a);
  }

  lemma StricterFailsMore(e1: GateEnv, e2: GateEnv, a: Alert, r: GateRejection)
    requires NoStricter(e1, e2) && Fails(e1, a, r) && (r == VIX_SOFT ==> SameExemption(e1, e2))
    ensures Fails(e2, a, r)
  {
    if Thresholded(r) { HigherThresholdsFailMore(e1, e2, a, r); } else { OtherGatesAgree(e1, e2, a, r); }
  }

  lemma RegimesAreOrdered(env: GateEnv, trending: Regime)
    requires Tightening(env.settings) && Trending(trending)
    ensures NoStricter(Under(env, trending), Under(env, Neutral))
    ensures NoStricter(Under(env, Neutral), Under(env, Choppy))
    ensures SameExemption(Under(env, trending), Under(env, Neutral))
    ensures SameExemption(Under(env, Neutral), Under(env, Choppy))
  {
    GatesOrderedByRegime(env.settings, env.timeframe, trending, env.session);
  }

  /** For the same candidate and evidence, a trending market rejects for no more reasons than a
      neutral one, and a neutral one for no more than a choppy one; so what a choppy market
      accepts every calmer one accepts. */
  lemma RegimeMonotonicity(env: GateEnv, a: Alert, trending: Regime, claimed: bool)
    requires Tightening(env.settings) && Trending(trending)
    ensures forall r :: r in Journey(Under(env, trending), a).reasons ==> r in Journey(Under(env, Neutral), a).reasons
    ensures forall r :: r in Journey(Under(env, Neutral), a).reasons ==> r in Journey(Under(env, Choppy), a).reasons
    ensures Verdict(Under(env, Choppy), a, claimed).Accepted? ==> Verdict(Under(env, Neutral), a, claimed).Accepted?
    ensures Verdict(Under(env, Neutral), a, claimed).Accepted? ==> Verdict(Under(env, trending), a, claimed).Accepted?
  {
    RegimesAreOrdered(env, trending);
    ForwardFailures(Under(env, trending), Under(env, Neutral), a, claimed);
    ForwardFailures(Under(env, Neutral), Under(env, Choppy), a, claimed);
  }

  lemma ForwardFailures(e1: GateEnv, e2: GateEnv, a: Alert, claimed: bool)
    requires NoStricter(e1, e2) && SameExemption(e1, e2)
    ensures forall r :: r in Journey(e1, a).reasons ==> r in Journey(e2, a).reasons
    ensures Verdict(e2, a, claimed).Accepted? ==> Verdict(e1, a, claimed).Accepted?
  {
    PipelineRefinesGates(e1, a);
    PipelineRefinesGates(e2, a);
    forall r | r in Journey(e1, a).reasons ensures r in Journey(e2, a).reasons {
      StricterFailsMore(e1, e2, a, r);
    }
    if Journey(e1, a).reasons != [] {
      assert Journey(e1, a).reasons[0] in Journey(e2, a).reasons;
    }
  }

  /** The sign conditions under which the stressed overlay tightens the gates. */
  predicate StressTightening(s: Settings) {
    && s.riskOffEpBump >= 0.0 && s.riskOffConfBump >= 0.0 && s.riskOffSaBump >= 0
    && s.cfg.volumeConfirmPenalty <= s.cfg.volumeConfirmPenaltyChoppy
  }

  lemma StressIsStricter(env: GateEnv)
    requires StressTightening(env.settings)
    ensures NoStricter(Under(env, Neutral), Under(env, RiskOffHighVix))
  {}

  lemma SoftVixUnderStress(env: GateEnv, a: Alert)
    ensures Fails(Under(env, RiskOffHighVix), a, VIX_SOFT)
        <==> Fails(Under(env, Neutral), a, VIX_SOFT) && !(a.direction == LONG && env.riskOff)
  {
    assert Judged(Under(env, Neutral), a) == Judged(Under(env, RiskOffHighVix), a);
  }

  /** The same evidence judged under the stressed overlay keeps every neutral reason, except exactly
      for a LONG in a risk-off market that the soft VIX gate rejects: the stressed regime exempts it. */
  lemma StressedRegimeComparison(env: GateEnv, a: Alert)
    requires StressTightening(env.settings)
    ensures (forall r :: r in Journey(Under(env, Neutral), a).reasons
                     ==> r in Journey(Under(env, RiskOffHighVix), a).reasons)
        <==> !(a.direction == LONG && env.riskOff && Fails(Under(env, Neutral), a, VIX_SOFT))
  {
    PipelineRefinesGates(Under(env, Neutral), a);
    PipelineRefinesGates(Under(env, RiskOffHighVix), a);
    SoftVixUnderStress(env, a);
    StressIsStricter(env);
    forall r | r != VIX_SOFT && Fails(Under(env, Neutral), a, r) ensures Fails(Under(env, RiskOffHighVix), a, r) {
      StricterFailsMore(Under(env, Neutral), Under(env, RiskOffHighVix), a, r);
    }
  }

  /** The exemption is real: with the default settings, a risk-off market at VIX 28 and a LONG
      without evidence, the neutral overlay raises VIX_SOFT and the stressed one does not. */
  lemma StressedRegimeExempts() returns (env: GateEnv, a: Alert)
    ensures env.settings == DEFAULT_SETTINGS && env.vix == 28.0 && env.riskOff && a.direction == LONG
    ensures VIX_SOFT in Journey(Under(env, Neutral), a).reasons
    ensures VIX_SOFT !in Journey(Under(env, RiskOffHighVix), a).reasons
  {
    env := GateEnv(DEFAULT_SETTINGS, "15m", Neutral, 28.0, true, 0.70, 4, 0.75, Regular,
                   map[], map[], map[], map[], map[]);
    a := Alert("X", LONG, 0.70, 0.80, "15m", "", Entry(100.0, 95.0, 115.0), 0);
    assert Judged(Under(env, Neutral), a).edgeProbability <= 0.70;
    SoftVixUnderStress(env, a);
    PipelineRefinesGates(Under(env, Neutral), a);
    PipelineRefinesGates(Under(env, RiskOffHighVix), a);
  }

  /** No run meets that case by itself: one VIX and risk state is never classified both neutral and
      stressed, and under the default soft threshold a run classified neutral never trips the soft
      gate for a LONG. */
  lemma NeutralNeverTripsSoftVix(env: GateEnv, a: Alert, bulls: nat, bears: nat, strength: real,
                                 bulls': nat, bears': nat, strength': real)
    requires env.regime == Neutral == ClassifyRegime(env.vix, env.riskOff, bulls, bears, strength)
    ensures ClassifyRegime(env.vix, env.riskOff, bulls', bears', strength') != RiskOffHighVix
    ensures env.settings.cfg.vixSoftThreshold >= 25.0 && a.direction == LONG ==> !Fails(env, a, VIX_SOFT)
  {
  }

  // ---------------------------------------------------------------- the model's claims carry no weight

  /** Candidates that differ only in the claimed sources_agree, or in edge probabilities at or
      above what the evidence allows, meet the same fate and end as the same alert. */
  lemma ClaimsDoNotInfluenceGates(env: GateEnv, a: Alert, b: Alert, claimed: bool)
    requires b == a.(sourcesAgree := b.sourcesAgree, edgeProbability := b.edgeProbability)
    requires a.edgeProbability == b.edgeProbability
          || (a.edgeProbability >= EpCeiling(env, a) && b.edgeProbability >= EpCeiling(env, a))
    ensures Verdict(env, a, claimed) == Verdict(env, b, claimed)
    ensures FinalAlert(env, a) == FinalAlert(env, b)
  {
    PipelineRefinesGates(env, a);
    PipelineRefinesGates(env, b);
    SameFate(env, a, b);
    forall r ensures FailsIn(env, a)(r) == FailsIn(env, b)(r) {}
    ListsIsUnique(Journey(env, a).reasons, Journey(env, b).reasons, FailsIn(env, a), 18);
  }

  lemma SameFate(env: GateEnv, a: Alert, b: Alert)
    requires b == a.(sourcesAgree := b.sourcesAgree, edgeProbability := b.edgeProbability)
    requires a.edgeProbability == b.edgeProbability
          || (a.edgeProbability >= EpCeiling(env, a) && b.edgeProbability >= EpCeiling(env, a))
    ensures forall r :: Fails(env, a, r) == Fails(env, b, r)
    ensures FinalAlert(env, a) == FinalAlert(env, b)
  {
    assert WithEvidence(env, a) == WithEvidence(env, b);
    assert Judged(env, a) == Judged(env, b);
  }

  /** A higher claimed edge never adds a reason: no gate punishes edge probability. */
  lemma HigherEdgeNeverHurts(env: GateEnv, a: Alert, ep: real, r: GateRejection)
    requires ep >= a.edgeProbability && Fails(env, a.(edgeProbability := ep), r)
    ensures Fails(env, a, r)
  {
    var b := a.(edgeProbability := ep);
    assert Judged(env, b).edgeProbability >= Judged(env, a).edgeProbability;
    assert Judged(env, b) == Judged(env, a).(edgeProbability := Judged(env, b).edgeProbability);
  }

  /** With the default tables every accepted trade rests on at least three distinct signal types
      and every accepted WATCH on at least two, in every regime, session and timeframe. */
  lemma AcceptedNeedsBreadth(env: GateEnv, a: Alert, regime: Regime)
    requires env.settings == DEFAULT_SETTINGS && Passes(Under(env, regime), a)
    ensures ActualSources(env, a) >= if Directional(a) then 3 else 2
  {
    var e := Under(env, regime);
    DefaultEpGate(env.timeframe, regime, env.session);
    assert !Fails(e, a, SOURCE_HALLUCINATION) && !Fails(e, a, WATCH_EP_THRESHOLD) && !Fails(e, a, EP_THRESHOLD);
    assert EpCeiling(e, a) >= Judged(e, a).edgeProbability;
    NarrowCeiling(e, a);
  }

  lemma DefaultEpGate(timeframe: string, regime: Regime, session: Session)
    ensures EffectiveGates(DEFAULT_SETTINGS, timeframe, regime, session).ep >= 0.69
  {
  }

  lemma NarrowCeiling(env: GateEnv, a: Alert)
    requires env.settings.epCeiling == DEFAULT_EP_CEILING
    ensures ActualSources(env, a) == 1 ==> EpCeiling(env, a) == 0.55
    ensures ActualSources(env, a) == 2 ==> EpCeiling(env, a) == 0.65
  {
  }

  /** Under the default thresholds, when the regime is the one the run classified, any LONG the
      soft VIX gate suppresses is also rejected by the hard gate. */
  lemma SoftVixImpliesHardForLongs(env: GateEnv, a: Alert, bulls: nat, bears: nat, strength: real)
    requires env.settings.cfg.vixSoftThreshold >= 25.0 && a.direction == LONG
    requires env.regime == ClassifyRegime(env.vix, env.riskOff, bulls, bears, strength)
    requires Fails(env, a, VIX_SOFT)
    ensures Fails(env, a, VIX_HARD)
  {
  }
}
