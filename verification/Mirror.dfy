/** Reflecting every price and exchanging the two sides changes nothing in Strategy V4 but the sides. */
module MirrorSymmetry {
  import opened Basics
  import opened WaveMath
  import opened Medians
  import opened BreakoutQuality

  function Mirror(c: Candle, k: real): Candle {
    c.(open := k - c.open, high := k - c.low, low := k - c.high, close := k - c.close)
  }

  function MirrorAll(cs: seq<Candle>, k: real): (r: seq<Candle>)
    ensures |r| == |cs| && forall i :: 0 <= i < |cs| ==> r[i] == Mirror(cs[i], k)
  {
    seq(|cs|, i requires 0 <= i < |cs| => Mirror(cs[i], k))
  }

  function Reflect(values: seq<real>, k: real): (r: seq<real>)
    ensures |r| == |values| && forall i :: 0 <= i < |values| ==> r[i] == k - values[i]
  {
    seq(|values|, i requires 0 <= i < |values| => k - values[i])
  }

  lemma {:induction false} SumReflects(values: seq<real>, k: real)
    ensures Sum(Reflect(values, k)) == k * |values| as real - Sum(values)
  {
    if values != [] {
      var n := |values| - 1;
      SumReflects(values[..n], k);
      assert Reflect(values, k)[..n] == Reflect(values[..n], k);
      assert k * (n + 1) as real == k * n as real + k;
    }
  }

  lemma MaxOne(values: seq<real>)
    requires |values| == 1
    ensures MaxOf(values) == values[0] == MinOf(values)
  {
  }

  lemma MaxStep(values: seq<real>)
    requires |values| > 1
    ensures MaxOf(values) == Max2(MaxOf(values[..|values| - 1]), values[|values| - 1])
    ensures MinOf(values) == Min2(MinOf(values[..|values| - 1]), values[|values| - 1])
  {
  }

  lemma {:induction false} MaxReflects(values: seq<real>, k: real)
    requires values != []
    ensures MaxOf(Reflect(values, k)) == k - MinOf(values)
    ensures MinOf(Reflect(values, k)) == k - MaxOf(values)
  {
    hide MaxOf, MinOf;
    if |values| == 1 {
      MaxOne(values);
      MaxOne(Reflect(values, k));
    } else {
      MaxReflects(values[..|values| - 1], k);
      assert Reflect(values, k)[..|values| - 1] == Reflect(values[..|values| - 1], k);
      MaxStep(values);
      MaxStep(Reflect(values, k));
    }
  }

  lemma Blend(x: real, y: real, k: real, alpha: real)
    ensures (k - x) * alpha + (k - y) * (1.0 - alpha) == k - (x * alpha + y * (1.0 - alpha))
  {
  }

  lemma MeanReflects(sum: real, n: nat, k: real)
    requires n >= 1
    ensures (k * n as real - sum) / n as real == k - sum / n as real
  {
    var m := sum / n as real;
    assert k * n as real - sum == (k - m) * n as real;
  }

  lemma {:induction false} EmaReflects(values: seq<real>, period: nat, k: real)
    requires 1 <= period <= |values|
    ensures EmaOf(Reflect(values, k), period) == k - EmaOf(values, period)
  {
    hide EmaOf, Sum;
    if |values| == period {
      EmaSeed(values, period);
      EmaSeed(Reflect(values, k), period);
      SumReflects(values, k);
      var sum, other := Sum(values), Sum(Reflect(values, k));
      assert other == k * period as real - sum;
      MeanReflects(sum, period, k);
      assert other / period as real == k - sum / period as real;
    } else {
      var n, alpha := |values| - 1, 2.0 / (period + 1) as real;
      EmaStep(values, period);
      EmaStep(Reflect(values, k), period);
      assert Reflect(values, k)[..n] == Reflect(values[..n], k);
      EmaReflects(values[..n], period, k);
      Blend(values[n], EmaOf(values[..n], period), k, alpha);
    }
  }

  lemma ClosesMirror(cs: seq<Candle>, k: real)
    ensures Closes(MirrorAll(cs, k)) == Reflect(Closes(cs), k)
    ensures Highs(MirrorAll(cs, k)) == Reflect(Lows(cs), k)
    ensures Lows(MirrorAll(cs, k)) == Reflect(Highs(cs), k)
  {
  }

  lemma LastMirror(cs: seq<Candle>, n: nat, k: real)
    ensures Last(MirrorAll(cs, k), n) == MirrorAll(Last(cs, n), k)
  {
  }

  lemma TrueRangeMirror(previousClose: real, c: Candle, k: real)
    ensures TrueRange(k - previousClose, Mirror(c, k)) == TrueRange(previousClose, c)
  {
  }

  lemma AtrMirror(cs: seq<Candle>, period: nat, k: real)
    requires 1 <= period < |cs|
    ensures AtrOf(MirrorAll(cs, k), period) == AtrOf(cs, period)
  {
    var other := MirrorAll(cs, k);
    forall i | 0 <= i < |cs| - 1 ensures TrueRanges(other)[i] == TrueRanges(cs)[i] {
      TrueRangeMirror(cs[i].close, cs[i + 1], k);
    }
    assert TrueRanges(other) == TrueRanges(cs);
  }

  lemma LevelMirror(cs: seq<Candle>, period: nat, d: Direction, k: real)
    requires 1 <= period <= |cs|
    ensures BreakoutLevel(MirrorAll(cs, k), period, Opposite(d)) == k - BreakoutLevel(cs, period, d)
  {
    LastMirror(cs, period, k);
    ClosesMirror(Last(cs, period), k);
    MaxReflects(if d == Buy then Highs(Last(cs, period)) else Lows(Last(cs, period)), k);
  }

  lemma {:induction false} TravelledReflects(closes: seq<real>, k: real)
    ensures Travelled(Reflect(closes, k)) == Travelled(closes)
  {
    if |closes| >= 2 {
      TravelledReflects(closes[..|closes| - 1], k);
      assert Reflect(closes, k)[..|closes| - 1] == Reflect(closes[..|closes| - 1], k);
    }
  }

  lemma EfficiencyMirror(cs: seq<Candle>, k: real)
    requires |cs| >= 2
    ensures Efficiency(MirrorAll(cs, k)) == Efficiency(cs)
  {
    ClosesMirror(cs, k);
    TravelledReflects(Closes(cs), k);
  }

  // The efficiency is a share: no move is longer than the way travelled.
  lemma {:induction false} NetWithinTravelled(closes: seq<real>)
    requires |closes| >= 1
    ensures Abs(closes[|closes| - 1] - closes[0]) <= Travelled(closes)
  {
    if |closes| >= 2 {
      NetWithinTravelled(closes[..|closes| - 1]);
    }
  }

  lemma EfficiencyIsShare(cs: seq<Candle>)
    requires |cs| >= 2
    ensures 0.0 <= Efficiency(cs) <= 1.0
  {
    NetWithinTravelled(Closes(cs));
    var net, way := Abs(Closes(cs)[|cs| - 1] - Closes(cs)[0]), Travelled(Closes(cs));
    if way > 0.0 { RatioBelow(net, way, 1.0); RatioBelow(net, way, 0.0); }
  }

  function MirrorRegime(r: Regime): Regime {
    match r
    case TrendUp => TrendDown
    case TrendDown => TrendUp
    case Range => Range
    case HighVol => HighVol
  }

  function MirrorResult(r: RegimeResult, k: real): RegimeResult {
    RegimeResult(MirrorRegime(r.regime), k - r.emaFast, k - r.emaSlow, r.separationAtr, -r.slopeAtr, r.atr)
  }

  lemma RegimeMirror(
    cs: seq<Candle>, fast: nat, slow: nat, atrPeriod: nat, minSeparation: real, minSlope: real, k: real)
    requires fast >= 1 && slow >= 1 && atrPeriod >= 1
    ensures var mine := DetectRegime(cs, fast, slow, atrPeriod, minSeparation, minSlope);
            DetectRegime(MirrorAll(cs, k), fast, slow, atrPeriod, minSeparation, minSlope)
            == if mine.None? then None else Some(MirrorResult(mine.value, k))
  {
    hide EmaOf, AtrOf, Closes;
    var n := |cs|;
    if !(n < slow + SLOPE_BARS || n < atrPeriod + 1 || n < fast + SLOPE_BARS) {
      LengthOfCloses(cs);
      LengthOfCloses(MirrorAll(cs, k));
      var closes := Closes(cs);
      ClosesMirror(cs, k);
      assert Reflect(closes, k)[..n - SLOPE_BARS] == Reflect(closes[..n - SLOPE_BARS], k);
      EmaReflects(closes, fast, k);
      EmaReflects(closes, slow, k);
      EmaReflects(closes[..n - SLOPE_BARS], fast, k);
      AtrMirror(cs, atrPeriod, k);
      if AtrOf(cs, atrPeriod) > 0.0 {
        SlopeNegates(EmaOf(closes, fast), EmaOf(closes[..n - SLOPE_BARS], fast), AtrOf(cs, atrPeriod), k);
      }
    }
  }

  lemma LengthOfCloses(cs: seq<Candle>)
    ensures |Closes(cs)| == |cs|
  {
  }

  lemma SlopeNegates(now: real, before: real, atr: real, k: real)
    requires atr > 0.0
    ensures ((k - now) - (k - before)) / atr / SLOPE_BARS as real == -((now - before) / atr / SLOPE_BARS as real)
  {
    assert (before - now) / atr == -((now - before) / atr);
  }

  lemma TriggerMirror(bias: Direction, previous: seq<Candle>, current: Candle, lookback: nat, k: real)
    requires lookback >= 1
    ensures var mine := DetectTrigger(bias, previous, current, lookback);
            DetectTrigger(Opposite(bias), MirrorAll(previous, k), Mirror(current, k), lookback)
            == if mine.None? then None else Some(Trigger(Opposite(bias), k - mine.value.level))
  {
    hide BreakoutLevel;
    if |previous| >= lookback { LevelMirror(previous, lookback, bias, k); }
  }

  lemma StructureMirror(d: Direction, previous: seq<Candle>, current: Candle, buffer: real, k: real)
    ensures StructuralStop(Opposite(d), MirrorAll(previous, k), Mirror(current, k), buffer)
            == k - StructuralStop(d, previous, current, buffer)
  {
    hide MaxOf, MinOf;
    var recent := Last(previous, SWING_BARS) + [current];
    LastMirror(previous, SWING_BARS, k);
    assert Last(MirrorAll(previous, k), SWING_BARS) + [Mirror(current, k)] == MirrorAll(recent, k);
    ClosesMirror(recent, k);
    MaxReflects(if d == Buy then Lows(recent) else Highs(recent), k);
  }

  lemma StopMirror(d: Direction, previous: seq<Candle>, current: Candle, atr: real, minAtr: real, maxAtr: real, k: real)
    requires atr >= 0.0
    ensures var mine := WaveStop(d, previous, current, atr, minAtr, maxAtr);
            WaveStop(Opposite(d), MirrorAll(previous, k), Mirror(current, k), atr, minAtr, maxAtr)
            == mine.(stop := k - mine.stop)
  {
    hide StructuralStop;
    StructureMirror(d, previous, current, BUFFER_ATR * atr, k);
  }

  lemma QualityMirror(c: Candle, d: Direction, level: real, atr: real, earlier: seq<real>, limits: Limits, k: real)
    ensures QualityOf(Mirror(c, k), Opposite(d), k - level, atr, earlier, limits)
            == QualityOf(c, d, level, atr, earlier, limits)
  {
    hide Judge, VolumeRatio;
  }

  lemma ConfirmMirror(d: Direction, c: Candle, level: real, probeEntry: real, atr: real, k: real)
    ensures ConfirmMain(Opposite(d), Mirror(c, k), k - level, k - probeEntry, atr)
            == ConfirmMain(d, c, level, probeEntry, atr)
  {
  }

  lemma MfeMirror(d: Direction, entry: real, stop: real, cs: seq<Candle>, k: real)
    ensures MfeR(Opposite(d), k - entry, k - stop, MirrorAll(cs, k)) == MfeR(d, entry, stop, cs)
  {
    hide MaxOf, MinOf;
    if cs != [] {
      ClosesMirror(cs, k);
      MaxReflects(if d == Buy then Highs(cs) else Lows(cs), k);
    }
  }

  lemma BarrierMirror(d: Direction, stop: real, target: real, c: Candle, k: real)
    ensures BarrierOutcome(Opposite(d), k - stop, k - target, Mirror(c, k)) == BarrierOutcome(d, stop, target, c)
  {
  }
}

/** A whole evaluation and a whole management step of Strategy V4 under reflection. */
module MirroredDecisions {
  import opened Basics
  import opened WaveMath
  import opened BreakoutQuality
  import opened StrategyRules
  import opened MirrorSymmetry

  function MirrorSetup(s: Setup, k: real): Setup {
    Setup(Opposite(s.direction), k - s.level, s.atr, k - s.entry, k - s.stop, k - s.target, MirrorRegime(s.regime),
        s.reasons)
  }

  function MirrorEvaluation(e: Evaluation, k: real): Evaluation {
    if e.Signal? then Signal(MirrorSetup(e.setup, k)) else e
  }

  lemma BiasMirrorsExactly(r: RegimeResult, k: real)
    ensures Bias(MirrorResult(r, k)) == Opposite(Bias(r)) <==> r.emaFast != r.emaSlow
  {
  }

  lemma {:induction false} VolumesMirror(cs: seq<Candle>, k: real)
    ensures Volumes(MirrorAll(cs, k)) == Volumes(cs)
  {
    if cs != [] {
      VolumesMirror(cs[1..], k);
      assert MirrorAll(cs, k)[1..] == MirrorAll(cs[1..], k);
    }
  }

  lemma MarketReasonsMirror(
    cfg: Config, m15: Regime, d: Direction, efficiency: real, stopValid: bool, current: Candle, news: bool, k: real)
    ensures MarketReasons(cfg, MirrorRegime(m15), Opposite(d), efficiency, stopValid, Mirror(current, k), news)
            == MarketReasons(cfg, m15, d, efficiency, stopValid, current, news)
  {
  }

  lemma TargetMirrors(d: Direction, close: real, distance: real, r: real, k: real)
    ensures (k - close) + (if Opposite(d) == Buy then distance else -distance) * r
            == k - (close + (if d == Buy then distance else -distance) * r)
  {
    assert -distance * r == -(distance * r);
  }

  lemma BuildMirror(
    cfg: SoundConfig, m15: RegimeResult, previous: seq<Candle>, current: Candle, trigger: Trigger, news: bool, k: real)
    requires |previous| > cfg.atrPeriod && |previous| >= EFFICIENCY_BARS
    ensures Build(cfg, MirrorResult(m15, k), MirrorAll(previous, k), Mirror(current, k),
                  Trigger(Opposite(trigger.direction), k - trigger.level), news)
            == MirrorSetup(Build(cfg, m15, previous, current, trigger, news), k)
  {
    hide AtrOf, WaveStop, QualityOf, Efficiency, MarketReasons, Hardened, Volumes;
    var d, atr := trigger.direction, AtrOf(previous, cfg.atrPeriod);
    AtrMirror(previous, cfg.atrPeriod, k);
    AtrNotNegative(previous, cfg.atrPeriod);
    StopMirror(d, previous, current, atr, cfg.stopAtr, 3.0, k);
    var stop := WaveStop(d, previous, current, atr, cfg.stopAtr, 3.0);
    TargetMirrors(d, current.close, stop.distance, cfg.takeProfitR, k);
    VolumesMirror(previous, k);
    QualityMirror(current, d, trigger.level, atr, Volumes(previous), LimitsOf(cfg), k);
    var recent := Last(previous, EFFICIENCY_BARS);
    LastMirror(previous, EFFICIENCY_BARS, k);
    EfficiencyMirror(recent, k);
    MarketReasonsMirror(cfg, m15.regime, d, Efficiency(recent), stop.valid, current, news, k);
  }

  predicate Crosses(cfg: SoundConfig, m5: seq<Candle>, current: Candle, d: Direction) {
    DetectTrigger(d, m5, current, cfg.breakoutPeriod).Some?
  }

  predicate WarmedUp(cfg: SoundConfig, m15: seq<Candle>, m5: seq<Candle>) {
    && |m15| >= cfg.emaSlow + SLOPE_BARS && |m5| > cfg.atrPeriod && |m5| >= cfg.breakoutPeriod
        && |m5| >= EFFICIENCY_BARS
  }

  function RegimeOf(cfg: SoundConfig, m15: seq<Candle>): Option<RegimeResult> {
    DetectRegime(m15, cfg.emaFast, cfg.emaSlow, cfg.atrPeriod, cfg.minSeparation, cfg.minSlope)
  }

  // The decision is mirrored with the market, except that a breakout while the averages are equal is always read as
  // a rising market.
  lemma DecisionMirrorsExactly(cfg: SoundConfig, m15: seq<Candle>, m5: seq<Candle>, current: Candle, news: bool,
      k: real)
    ensures Assess(cfg, MirrorAll(m15, k), MirrorAll(m5, k), Mirror(current, k), news)
              == MirrorEvaluation(Assess(cfg, m15, m5, current, news), k)
            <==> (WarmedUp(cfg, m15, m5) && RegimeOf(cfg, m15).Some?
                  && RegimeOf(cfg, m15).value.emaFast == RegimeOf(cfg, m15).value.emaSlow
                  ==> !Crosses(cfg, m5, current, Buy) && !Crosses(cfg, m5, current, Sell))
  {
    hide DetectRegime, DetectTrigger, Build;
    RegimeMirror(m15, cfg.emaFast, cfg.emaSlow, cfg.atrPeriod, cfg.minSeparation, cfg.minSlope, k);
    if WarmedUp(cfg, m15, m5) && RegimeOf(cfg, m15).Some? {
      var regime := RegimeOf(cfg, m15).value;
      TriggerMirror(Buy, m5, current, cfg.breakoutPeriod, k);
      TriggerMirror(Sell, m5, current, cfg.breakoutPeriod, k);
      TriggerSides(m5, current, cfg.breakoutPeriod);
      BiasMirrorsExactly(regime, k);
      var trigger := DetectTrigger(Bias(regime), m5, current, cfg.breakoutPeriod);
      if trigger.Some? { BuildMirror(cfg, regime, m5, current, trigger.value, news, k); }
      if regime.emaFast == regime.emaSlow { TieGoesToBuy(cfg, m15, m5, current, news, k); }
    }
  }

  lemma TriggerSides(m5: seq<Candle>, current: Candle, lookback: nat)
    requires lookback >= 1
    ensures forall d :: DetectTrigger(d, m5, current, lookback).Some? ==>
              DetectTrigger(d, m5, current, lookback).value.direction == d
  {
  }

  lemma TieGoesToBuy(cfg: SoundConfig, m15: seq<Candle>, m5: seq<Candle>, current: Candle, news: bool, k: real)
    requires WarmedUp(cfg, m15, m5) && RegimeOf(cfg, m15).Some?
    requires RegimeOf(cfg, m15).value.emaFast == RegimeOf(cfg, m15).value.emaSlow
    ensures forall e :: e == Assess(cfg, m15, m5, current, news) ==>
              (e.Signal? <==> Crosses(cfg, m5, current, Buy)) && (e.Signal? ==> e.setup.direction == Buy)
    ensures forall e :: e == Assess(cfg, MirrorAll(m15, k), MirrorAll(m5, k), Mirror(current, k), news) ==>
              (e.Signal? <==> Crosses(cfg, m5, current, Sell)) && (e.Signal? ==> e.setup.direction == Buy)
  {
    hide DetectRegime, DetectTrigger, AtrOf, WaveStop, QualityOf, Efficiency, MarketReasons, Hardened, Volumes;
    RegimeMirror(m15, cfg.emaFast, cfg.emaSlow, cfg.atrPeriod, cfg.minSeparation, cfg.minSlope, k);
    TriggerMirror(Sell, m5, current, cfg.breakoutPeriod, k);
    TriggerSides(m5, current, cfg.breakoutPeriod);
    TriggerSides(MirrorAll(m5, k), Mirror(current, k), cfg.breakoutPeriod);
  }
}

/** Managing a position under reflection: same moments, same results. */
module MirroredManagement {
  import opened Basics
  import opened WaveMath
  import opened ProbeStrategy
  import opened MirrorSymmetry

  function MirrorPrice(x: Option<real>, k: real): Option<real> {
    if x.None? then None else Some(k - x.value)
  }

  function MirrorPosition(p: Position, k: real): Position {
    Position(Opposite(p.direction), p.state, k - p.level, p.atr, k - p.probeEntry, MirrorPrice(p.mainEntry, k),
      k - p.stop, k - p.target, p.deadline, p.openedAt,
      if p.closing.None? then None
      else Some(Closing(p.closing.value.at, MirrorPrice(p.closing.value.price, k), p.closing.value.cause,
          p.closing.value.result)))
  }

  lemma ManagementMirrors(p: Position, c: Candle, post: seq<Candle>, k: real)
    ensures Managed(MirrorPosition(p, k), Mirror(c, k), MirrorAll(post, k)) == MirrorPosition(Managed(p, c, post), k)
  {
    hide MfeR, ConfirmMain, Ratio, AverageEntry;
    MfeMirror(p.direction, p.probeEntry, p.stop, post, k);
    ConfirmMirror(p.direction, c, p.level, p.probeEntry, p.atr, k);
    AverageMirrors(p, k);
  }

  lemma AverageMirrors(p: Position, k: real)
    ensures AverageEntry(MirrorPosition(p, k)) == k - AverageEntry(p)
  {
  }
}
