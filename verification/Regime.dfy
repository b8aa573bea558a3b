/** Regime classification and the gate overlays (gate_config.py, gates/regime.py, gates/session.py). */
module Regimes {
  import opened Prelude
  import opened GateTypes

  // ---------------------------------------------------------------- signal surface

  function AllSignals(snaps: seq<Snapshot>): seq<Signal> {
    if snaps == [] then [] else AllSignals(snaps[..|snaps| - 1]) + snaps[|snaps| - 1].signals
  }

  predicate BullType(k: SignalType) { k == SentimentBull || BearType(k) }

  predicate BearType(k: SignalType) {
    match k
    case TechnicalTrend => true
    case OptionsFlow => true
    case RelativeStrength => true
    case PriceForecast => true
    case InsiderActivity => true
    case CatalystEvent => true
    case _ => false
  }

  predicate RiskType(k: SignalType) { k == SentimentBear || k == MacroRiskOff }

  predicate Bullish(sig: Signal) {
    sig.score.Some? && sig.score.value > 0.0 && (BullType(sig.kind) || sig.kind == ShortInterest)
  }

  predicate Bearish(sig: Signal) {
    sig.score.Some? &&
    ((sig.score.value < 0.0 && BearType(sig.kind)) ||
     (sig.score.value > 0.0 && RiskType(sig.kind)))
  }

  predicate Counted(sig: Signal) { Bullish(sig) || Bearish(sig) }

  function Strength(sig: Signal): real
    requires Counted(sig)
  {
    Min(Abs(sig.score.value) / 3.0, 1.0)
  }

  function IsBull(): Signal -> bool { (sig: Signal) => Bullish(sig) }

  function IsBear(): Signal -> bool { (sig: Signal) => Bearish(sig) }

  function Strengths(sigs: seq<Signal>): seq<real>
  {
    if sigs == [] then []
    else
      var last := sigs[|sigs| - 1];
      Strengths(sigs[..|sigs| - 1]) + (if Counted(last) then [Strength(last)] else [])
  }

  lemma {:induction false} StrengthBounds(sigs: seq<Signal>)
    ensures forall i :: 0 <= i < |Strengths(sigs)| ==> 0.0 <= Strengths(sigs)[i] <= 1.0
  {
    if sigs != [] { StrengthBounds(sigs[..|sigs| - 1]); }
  }

  datatype Counters = Counters(bulls: nat, bears: nat, strengths: seq<real>)

  function Count(c: Counters, sig: Signal): Counters {
    Counters(if Bullish(sig) then c.bulls + 1 else c.bulls,
             if Bearish(sig) then c.bears + 1 else c.bears,
             if Counted(sig) then c.strengths + [Strength(sig)] else c.strengths)
  }

  function Surface(sigs: seq<Signal>): Counters {
    if sigs == [] then Counters(0, 0, []) else Count(Surface(sigs[..|sigs| - 1]), sigs[|sigs| - 1])
  }

  lemma SurfaceSnoc(sigs: seq<Signal>, sig: Signal)
    ensures Surface(sigs + [sig]) == Count(Surface(sigs), sig)
  {
    assert (sigs + [sig])[..|sigs|] == sigs;
  }

  /** The running counters are the declarative counts. */
  lemma {:induction false} SurfaceMeaning(sigs: seq<Signal>)
    ensures Surface(sigs) == Counters(|Keep(sigs, IsBull())|, |Keep(sigs, IsBear())|, Strengths(sigs))
  {
    if sigs != [] {
      var init, last := sigs[..|sigs| - 1], sigs[|sigs| - 1];
      SurfaceMeaning(init);
      assert sigs == init + [last];
      KeepSnoc(init, last, IsBull());
      KeepSnoc(init, last, IsBear());
    }
  }

  /** Which signals vote which way: the trading signals with their sign, bearish sentiment and risk-off
      macro only when positive and then against, short interest only when positive and then in favour. */
  lemma VotesMeaning(k: SignalType, x: real)
    ensures var sig, signed := Signal(k, Some(x)), k in {TechnicalTrend, OptionsFlow, RelativeStrength, PriceForecast,
                                                         InsiderActivity, CatalystEvent};
      && (Bullish(sig) <==> x > 0.0 && (signed || k == SentimentBull || k == ShortInterest))
      && (Bearish(sig) <==> (x < 0.0 && signed) || (x > 0.0 && (k == SentimentBear || k == MacroRiskOff)))
      && (Bullish(sig) || Bearish(sig) ==> 0.0 < Strength(sig) <= 1.0)
      && (Bullish(sig) || Bearish(sig) ==> (-3.0 <= x <= 3.0 ==> Strength(sig) == x / 3.0 || Strength(sig) == -x / 3.0)
                                           && (x > 3.0 || x < -3.0 ==> Strength(sig) == 1.0))
    ensures !Bullish(Signal(k, None)) && !Bearish(Signal(k, None))
  {}

  method CountSignal(sig: Signal, bulls: nat, bears: nat, strengths: seq<real>)
    returns (bulls': nat, bears': nat, strengths': seq<real>)
    ensures Counters(bulls', bears', strengths') == Count(Counters(bulls, bears, strengths), sig)
  {
    bulls', bears', strengths' := bulls, bears, strengths;
    if sig.score.None? { return; }
    var sc := sig.score.value;
    if sc > 0.0 && BullType(sig.kind) {
      bulls' := bulls + 1;
      strengths' := strengths + [Min(Abs(sc) / 3.0, 1.0)];
    } else if sc < 0.0 && BearType(sig.kind) {
      bears' := bears + 1;
      strengths' := strengths + [Min(Abs(sc) / 3.0, 1.0)];
    } else if RiskType(sig.kind) && sc > 0.0 {
      bears' := bears + 1;
      strengths' := strengths + [Min(Abs(sc) / 3.0, 1.0)];
    } else if sig.kind == ShortInterest && sc > 0.0 {
      bulls' := bulls + 1;
      strengths' := strengths + [Min(Abs(sc) / 3.0, 1.0)];
    }
  }

  /** The inner loop: one snapshot's signals, scanned after `before`. */
  method ScanSnapshot(ghost before: seq<Signal>, signals: seq<Signal>, bulls: nat, bears: nat, strengths: seq<real>)
    returns (bulls': nat, bears': nat, strengths': seq<real>)
    requires Counters(bulls, bears, strengths) == Surface(before)
    ensures Counters(bulls', bears', strengths') == Surface(before + signals)
  {
    bulls', bears', strengths' := bulls, bears, strengths;
    assert before + signals[..0] == before;
    for j := 0 to |signals|
      invariant Counters(bulls', bears', strengths') == Surface(before + signals[..j])
    {
      SurfaceSnoc(before + signals[..j], signals[j]);
      assert before + signals[..j + 1] == (before + signals[..j]) + [signals[j]];
      bulls', bears', strengths' := CountSignal(signals[j], bulls', bears', strengths');
    }
    assert signals[..|signals|] == signals;
  }

  /** Counts the directional signals and averages their strengths; the average always lies in
      the unit interval. */
  method SignalSurface(snaps: seq<Snapshot>) returns (bulls: nat, bears: nat, trendStrength: real)
    ensures bulls == |Keep(AllSignals(snaps), IsBull())|
    ensures bears == |Keep(AllSignals(snaps), IsBear())|
    ensures trendStrength == MeanOrZero(Strengths(AllSignals(snaps)))
    ensures 0.0 <= trendStrength <= 1.0
  {
    bulls, bears := 0, 0;
    var strengths: seq<real> := [];
    for i := 0 to |snaps|
      invariant Counters(bulls, bears, strengths) == Surface(AllSignals(snaps[..i]))
    {
      bulls, bears, strengths := ScanSnapshot(AllSignals(snaps[..i]), snaps[i].signals, bulls, bears, strengths);
      assert snaps[..i + 1][..i] == snaps[..i];
    }
    assert snaps[..|snaps|] == snaps;
    SurfaceMeaning(AllSignals(snaps));
    trendStrength := MeanOrZero(strengths);
    if strengths != [] {
      StrengthBounds(AllSignals(snaps));
      MeanBounds(strengths, 0.0, 1.0);
    }
  }

  // ---------------------------------------------------------------- regime

  function ClassifyRegime(vix: real, riskOff: bool, bulls: nat, bears: nat, trendStrength: real): Regime {
    var total := bulls + bears;
    var bullRatio := if total != 0 then bulls as real / total as real else 0.5;
    if vix > 30.0 then Extreme
    else if riskOff && vix >= 25.0 then RiskOffHighVix
    else if trendStrength < 0.35 || 0.45 <= bullRatio <= 0.55 then Choppy
    else if bullRatio > 0.55 && !riskOff then TrendingUp
    else if bullRatio < 0.45 && riskOff then TrendingDown
    else Neutral
  }

  lemma RatioAgainst(part: nat, whole: nat, percent: int)
    requires whole > 0
    ensures part as real / whole as real <= percent as real / 100.0 <==> 100 * part <= percent * whole
    ensures part as real / whole as real >= percent as real / 100.0 <==> 100 * part >= percent * whole
  {
    RatioCompare(part as real, whole as real, percent as real / 100.0);
    assert 100.0 * (percent as real / 100.0 * whole as real) == (percent * whole) as real;
  }

  /** Which market is which. Stress comes first; a market whose signals are weak or evenly split, or that
      shows none, is choppy; a clear majority makes a trend only where the macro state agrees with it. */
  lemma RegimeMeaning(vix: real, riskOff: bool, bulls: nat, bears: nat, strength: real)
    ensures var r, total := ClassifyRegime(vix, riskOff, bulls, bears, strength), bulls + bears;
            var calm := vix < 25.0 || (vix <= 30.0 && !riskOff);
            var undecided := strength < 0.35 || total == 0 || 45 * total <= 100 * bulls <= 55 * total;
      && (r == Extreme <==> vix > 30.0)
      && (r == RiskOffHighVix <==> 25.0 <= vix <= 30.0 && riskOff)
      && (r == Choppy <==> calm && undecided)
      && (r == TrendingUp <==> calm && !undecided && 100 * bulls > 55 * total && !riskOff)
      && (r == TrendingDown <==> calm && !undecided && 100 * bulls < 45 * total && riskOff)
      && (r == Neutral
          <==> calm && !undecided && (if riskOff then 100 * bulls > 55 * total else 100 * bulls < 45 * total))
  {
    if bulls + bears > 0 {
      RatioAgainst(bulls, bulls + bears, 45);
      RatioAgainst(bulls, bulls + bears, 55);
    }
  }

  // ---------------------------------------------------------------- gate overlays

  datatype Gates = Gates(ep: real, sa: int, conf: real)

  function BaseGates(s: Settings, timeframe: string): Gates {
    Gates(if timeframe == "15m" then s.gateEp15m else if timeframe == "1h" then s.gateEp1h else 0.70,
          s.gateSa, s.gateConf)
  }

  method DynamicGates(s: Settings, base: Gates, timeframe: string, regime: Regime) returns (g: Gates)
    ensures g == DynamicGatesSpec(s, base, timeframe, regime)
  {
    var ep, sa, conf := base.ep, base.sa, base.conf;
    if !s.dynamicGates {
      return Gates(ep, sa, conf);
    }
    if regime == Choppy {
      ep := ep + s.choppyEpBump;
      sa := sa + s.choppySaBump;
      conf := conf + s.choppyConfBump;
    } else if regime == RiskOffHighVix {
      ep := ep + s.riskOffEpBump;
      sa := sa + s.riskOffSaBump;
      conf := conf + s.riskOffConfBump;
    } else if regime in {TrendingUp, TrendingDown} {
      ep := ep - s.trendingEpReduce;
      conf := conf - s.trendingConfReduce;
    }
    if timeframe == "15m" {
      ep := ep + s.tfEpOffset15m;
      conf := conf + s.tfConfOffset15m;
    } else if timeframe == "1h" {
      ep := ep + s.tfEpOffset1h;
      conf := conf + s.tfConfOffset1h;
    }
    ep := Min(Max(ep, 0.50), 0.95);
    sa := MaxInt(sa, 1);
    conf := Min(Max(conf, 0.50), 0.99);
    return Gates(ep, sa, conf);
  }

  /** How far a regime moves the edge-probability, sources and confidence gates. */
  function RegimeShift(s: Settings, regime: Regime): Gates {
    match regime
    case Choppy => Gates(s.choppyEpBump, s.choppySaBump, s.choppyConfBump)
    case RiskOffHighVix => Gates(s.riskOffEpBump, s.riskOffSaBump, s.riskOffConfBump)
    case TrendingUp => Gates(-s.trendingEpReduce, 0, -s.trendingConfReduce)
    case TrendingDown => Gates(-s.trendingEpReduce, 0, -s.trendingConfReduce)
    case _ => Gates(0.0, 0, 0.0)
  }

  function TimeframeShift(s: Settings, timeframe: string): Gates {
    if timeframe == "15m" then Gates(s.tfEpOffset15m, 0, s.tfConfOffset15m)
    else if timeframe == "1h" then Gates(s.tfEpOffset1h, 0, s.tfConfOffset1h)
    else Gates(0.0, 0, 0.0)
  }

  function DynamicGatesSpec(s: Settings, base: Gates, timeframe: string, regime: Regime): Gates {
    if !s.dynamicGates then base
    else
      var r, t := RegimeShift(s, regime), TimeframeShift(s, timeframe);
      Gates(Min(Max(base.ep + r.ep + t.ep, 0.50), 0.95),
            MaxInt(base.sa + r.sa, 1),
            Min(Max(base.conf + r.conf + t.conf, 0.50), 0.99))
  }

  function SessionOverlay(s: Settings, g: Gates, timeframe: string, session: Session): Gates {
    if s.cfg.marketHoursGatesEnabled && timeframe == "15m" && session in {PreMarket, AfterHours}
       && !s.extendedHoursAlerts then
      Gates(Min(g.ep + s.prepostEpBump, 0.95), g.sa + s.prepostSaBump, Min(g.conf + s.prepostConfBump, 0.99))
    else g
  }

  /** The thresholds a run applies. */
  function EffectiveGates(s: Settings, timeframe: string, regime: Regime, session: Session): Gates {
    SessionOverlay(s, DynamicGatesSpec(s, BaseGates(s, timeframe), timeframe, regime), timeframe, session)
  }

  predicate AtMost(a: Gates, b: Gates) { a.ep <= b.ep && a.sa <= b.sa && a.conf <= b.conf }

  predicate Trending(r: Regime) { r == TrendingUp || r == TrendingDown }

  /** The clamped overlays never invert the regimes: trending <= neutral <= choppy. */
  lemma GatesOrderedByRegime(s: Settings, timeframe: string, trending: Regime, session: Session)
    requires Tightening(s) && Trending(trending)
    ensures AtMost(EffectiveGates(s, timeframe, trending, session), EffectiveGates(s, timeframe, Neutral, session))
    ensures AtMost(EffectiveGates(s, timeframe, Neutral, session), EffectiveGates(s, timeframe, Choppy, session))
  {
  }

  /** x is `raw` brought between lo and hi. */
  predicate IsClamped(x: real, raw: real, lo: real, hi: real) {
    lo <= x <= hi && (lo <= raw <= hi ==> x == raw) && (raw < lo ==> x == lo) && (raw > hi ==> x == hi)
  }

  /** The thresholds outside extended hours: the timeframe's base, moved by the regime and the
      timeframe, and clamped. */
  lemma GatesMeaning(s: Settings, timeframe: string, regime: Regime)
    ensures var g := EffectiveGates(s, timeframe, regime, Regular);
            var quick, slow := timeframe == "15m", timeframe == "1h";
            var base := if quick then s.gateEp15m else if slow then s.gateEp1h else 0.70;
            var ep := base + (if quick then s.tfEpOffset15m else if slow then s.tfEpOffset1h else 0.0);
            var conf := s.gateConf + (if quick then s.tfConfOffset15m else if slow then s.tfConfOffset1h else 0.0);
      && (!s.dynamicGates ==> g == Gates(base, s.gateSa, s.gateConf))
      && (s.dynamicGates && regime == Choppy ==>
            && IsClamped(g.ep, ep + s.choppyEpBump, 0.50, 0.95)
            && IsClamped(g.conf, conf + s.choppyConfBump, 0.50, 0.99)
            && g.sa == MaxInt(s.gateSa + s.choppySaBump, 1))
      && (s.dynamicGates && regime == RiskOffHighVix ==>
            && IsClamped(g.ep, ep + s.riskOffEpBump, 0.50, 0.95)
            && IsClamped(g.conf, conf + s.riskOffConfBump, 0.50, 0.99)
            && g.sa == MaxInt(s.gateSa + s.riskOffSaBump, 1))
      && (s.dynamicGates && Trending(regime) ==>
            && IsClamped(g.ep, ep - s.trendingEpReduce, 0.50, 0.95)
            && IsClamped(g.conf, conf - s.trendingConfReduce, 0.50, 0.99)
            && g.sa == MaxInt(s.gateSa, 1))
      && (s.dynamicGates && (regime == Neutral || regime == Extreme) ==>
            && IsClamped(g.ep, ep, 0.50, 0.95) && IsClamped(g.conf, conf, 0.50, 0.99)
            && g.sa == MaxInt(s.gateSa, 1))
  {}

  /** The session moves them only for the 15m timeframe before or after the regular hours, and only
      where such trades are otherwise off: then all three rise. */
  lemma SessionMeaning(s: Settings, timeframe: string, regime: Regime, session: Session)
    ensures var g := EffectiveGates(s, timeframe, regime, session);
            var usual := EffectiveGates(s, timeframe, regime, Regular);
      if s.cfg.marketHoursGatesEnabled && !s.extendedHoursAlerts && timeframe == "15m"
         && (session == PreMarket || session == AfterHours) then
        && g.sa == usual.sa + s.prepostSaBump
        && g.ep <= 0.95 && (g.ep == 0.95 || g.ep == usual.ep + s.prepostEpBump) && g.ep <= usual.ep + s.prepostEpBump
        && g.conf <= 0.99 && (g.conf == 0.99 || g.conf == usual.conf + s.prepostConfBump)
        && g.conf <= usual.conf + s.prepostConfBump
      else g == usual
  {}
}
