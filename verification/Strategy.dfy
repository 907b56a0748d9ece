/** Candles of one timeframe by opening time, and the two ordered queries made of them. */
module CandleStore {
  import opened WaveMath

  const MINUTE: int := 60_000
  const BAR: int := 5 * MINUTE

  type Store = map<int, Candle>

  lemma SomeKey(keys: set<int>)
    ensures keys == {} || exists t :: t in keys
  {
    if forall t :: t !in keys { assert keys == {}; }
  }

  lemma {:induction false} LargestExists(keys: set<int>)
    requires keys != {}
    ensures exists m :: m in keys && forall t :: t in keys ==> t <= m
  {
    SomeKey(keys);
    var x :| x in keys;
    var rest := keys - {x};
    if rest == {} {
      assert keys == {x};
    } else {
      LargestExists(rest);
      var m :| m in rest && forall t :: t in rest ==> t <= m;
      var best := if m < x then x else m;
      assert best in keys && forall t :: t in keys ==> t in rest || t == x;
    }
  }

  function Largest(keys: set<int>): (m: int)
    requires keys != {}
    ensures m in keys && forall t :: t in keys ==> t <= m
  {
    LargestExists(keys);
    var m :| m in keys && forall t :: t in keys ==> t <= m;
    m
  }

  // The candles at the given times, oldest first.
  function Ascending(store: Store, keys: set<int>): (r: seq<Candle>)
    requires keys <= store.Keys
    ensures |r| == |keys|
    decreases |keys|
  {
    if keys == {} then []
    else
      var m := Largest(keys);
      Ascending(store, keys - {m}) + [store[m]]
  }

  function UpTo(store: Store, bound: int): set<int> {
    set t | t in store && t <= bound
  }

  function Within(store: Store, after: int, bound: int): set<int> {
    set t | t in store && after < t <= bound
  }

  // The newest candles opened no later than the bound.
  function Recent(store: Store, bound: int, n: nat): seq<Candle> {
    Last(Ascending(store, UpTo(store, bound)), n)
  }

  // The oldest candles opened after one time and no later than another.
  function FirstAfter(store: Store, after: int, bound: int, n: nat): seq<Candle> {
    var all := Ascending(store, Within(store, after, bound));
    if |all| <= n then all else all[..n]
  }

  ghost predicate Agree(a: Store, b: Store, bound: int) {
    forall t :: t <= bound ==> (t in a <==> t in b) && (t in a ==> a[t] == b[t])
  }

  lemma {:induction false} AscendingAgrees(a: Store, b: Store, keys: set<int>)
    requires keys <= a.Keys && keys <= b.Keys && forall t :: t in keys ==> a[t] == b[t]
    ensures Ascending(a, keys) == Ascending(b, keys)
    decreases |keys|
  {
    if keys != {} { AscendingAgrees(a, b, keys - {Largest(keys)}); }
  }

  lemma QueriesAgree(a: Store, b: Store, after: int, bound: int, n: nat)
    requires Agree(a, b, bound)
    ensures Recent(a, bound, n) == Recent(b, bound, n)
    ensures FirstAfter(a, after, bound, n) == FirstAfter(b, after, bound, n)
  {
    hide Ascending;
    assert UpTo(a, bound) == UpTo(b, bound);
    assert Within(a, after, bound) == Within(b, after, bound);
    AscendingAgrees(a, b, UpTo(a, bound));
    AscendingAgrees(a, b, Within(a, after, bound));
  }
}

/** What Strategy V4 decides from the candles before it. */
module StrategyRules {
  import opened Basics
  import opened WaveMath
  import opened BreakoutQuality
  import opened CandleStore

  datatype Config = Config(
    emaFast: nat, emaSlow: nat, atrPeriod: nat, breakoutPeriod: nat, stopAtr: real, takeProfitR: real, maxSpread: nat,
    confirmationBars: nat, cooldownBars: nat, regimeFilter: bool, minSeparation: real, minSlope: real,
    minBody: real, minCloseAtr: real, maxWick: real, maxRangeAtr: real, minVolumeRatio: real, horizonBars: nat)

  predicate Sound(cfg: Config) {
    && cfg.emaFast >= 1 && cfg.emaSlow >= 1 && cfg.atrPeriod >= 1 && cfg.breakoutPeriod >= 1
    && cfg.stopAtr > 0.0 && cfg.takeProfitR > 0.0
  }

  type SoundConfig = c: Config | Sound(c)
    witness Config(8, 21, 14, 6, 1.3, 2.5, 50, 3, 1, true, 0.05, 0.005, 0.55, 0.05, 0.35, 3.0, 0.9, 24)

  const EFFICIENCY_BARS: nat := 12

  datatype Setup = Setup(
    direction: Direction, level: real, atr: real, entry: real, stop: real, target: real, regime: Regime,
    reasons: seq<Reason>)

  datatype Evaluation = Aborted | Quiet | Signal(setup: Setup)

  // The side of the two averages; equal averages count as rising.
  function Bias(r: RegimeResult): Direction {
    if r.emaFast >= r.emaSlow then Buy else Sell
  }

  function Hardened(reasons: seq<Reason>): (r: seq<Reason>)
    ensures |r| == |reasons|
  {
    seq(|reasons|, i requires 0 <= i < |reasons| =>
      if reasons[i] == HighVolBreakout then ExtremeVolatility else reasons[i])
  }

  function LimitsOf(cfg: Config): Limits {
    Limits(cfg.minBody, 0.60, cfg.minCloseAtr, cfg.maxWick, cfg.maxRangeAtr, cfg.minVolumeRatio)
  }

  function Volumes(cs: seq<Candle>): seq<real> {
    if cs == [] then []
    else (if cs[0].volume.Some? then [cs[0].volume.value] else []) + Volumes(cs[1..])
  }

  function MarketReasons(
    cfg: Config, m15: Regime, d: Direction, efficiency: real, stopValid: bool, current: Candle, news: bool): seq<Reason>
  {
    (if !cfg.regimeFilter || m15 == (if d == Buy then TrendUp else TrendDown) then []
     else if m15 == Range then [M15Range] else [M15DirectionMismatch])
    + Flag(efficiency < 0.30, LowDirectionalEfficiency) + Flag(!stopValid, StopTooWide)
    + Flag(current.spread.Some? && cfg.maxSpread > 0 && current.spread.value > cfg.maxSpread, SpreadTooWide)
    + Flag(news, News)
  }

  // The decision on a trigger: the prices of the trade and every reason against it.
  function Build(cfg: SoundConfig, m15: RegimeResult, previous: seq<Candle>, current: Candle, trigger: Trigger,
                 news: bool): (s: Setup)
    requires |previous| > cfg.atrPeriod && |previous| >= EFFICIENCY_BARS
  {
    var d := trigger.direction;
    var atr := AtrOf(previous, cfg.atrPeriod);
    AtrNotNegative(previous, cfg.atrPeriod);
    var stop := WaveStop(d, previous, current, atr, cfg.stopAtr, 3.0);
    var target := current.close + (if d == Buy then stop.distance else -stop.distance) * cfg.takeProfitR;
    var quality := QualityOf(current, d, trigger.level, atr, Volumes(previous), LimitsOf(cfg));
    var reasons := Hardened(quality.reasons)
      + MarketReasons(cfg, m15.regime, d, Efficiency(Last(previous, EFFICIENCY_BARS)), stop.valid, current, news);
    Setup(d, trigger.level, atr, current.close, stop.stop, target,
      if quality.rangeAtr >= 1.8 then HighVol else m15.regime, reasons)
  }

  // One evaluation of a candle without an active position, from the candles before it.
  function Assess(cfg: SoundConfig, m15: seq<Candle>, m5: seq<Candle>, current: Candle, news: bool): Evaluation {
    if |m15| < cfg.emaSlow + SLOPE_BARS || |m5| < cfg.atrPeriod
        + 1 || |m5| < cfg.breakoutPeriod || |m5| < EFFICIENCY_BARS
    then Quiet
    else
      var regime := DetectRegime(m15, cfg.emaFast, cfg.emaSlow, cfg.atrPeriod, cfg.minSeparation, cfg.minSlope);
      if regime.None? then Aborted
      else
        var trigger := DetectTrigger(Bias(regime.value), m5, current, cfg.breakoutPeriod);
        if trigger.None? then Quiet else Signal(Build(cfg, regime.value, m5, current, trigger.value, news))
  }

  lemma {:induction false} SumNotNegative(values: seq<real>)
    requires forall i :: 0 <= i < |values| ==> values[i] >= 0.0
    ensures Sum(values) >= 0.0
  {
    if values != [] { SumNotNegative(values[..|values| - 1]); }
  }

  // The range of candles is never negative, whatever their prices.
  lemma AtrNotNegative(cs: seq<Candle>, period: nat)
    requires 1 <= period < |cs|
    ensures AtrOf(cs, period) >= 0.0
  {
    SumNotNegative(Last(TrueRanges(cs), period));
  }

  // An accepted setup has room on both sides of its entry, and pays exactly the configured multiple.
  lemma AcceptedHasRoom(
    cfg: SoundConfig, m15: RegimeResult, previous: seq<Candle>, current: Candle, trigger: Trigger, news: bool)
    requires |previous| > cfg.atrPeriod && |previous| >= EFFICIENCY_BARS
    requires Build(cfg, m15, previous, current, trigger, news).reasons == []
    ensures var s := Build(cfg, m15, previous, current, trigger, news);
            && s.entry == current.close && s.atr > 0.0
            && (if s.direction == Buy then s.stop < s.entry < s.target else s.target < s.entry < s.stop)
            && Abs(s.target - s.entry) == Abs(s.entry - s.stop) * cfg.takeProfitR
  {
    hide AtrOf, QualityOf, Efficiency, MarketReasons, StructuralStop;
    var d, atr := trigger.direction, AtrOf(previous, cfg.atrPeriod);
    AtrNotNegative(previous, cfg.atrPeriod);
    var stop := WaveStop(d, previous, current, atr, cfg.stopAtr, 3.0);
    var quality := QualityOf(current, d, trigger.level, atr, Volumes(previous), LimitsOf(cfg));
    var hard := Hardened(quality.reasons);
    var market := MarketReasons(cfg, m15.regime, d, Efficiency(Last(previous, EFFICIENCY_BARS)), stop.valid, current,
      news);
    assert |hard + market| == |hard| + |market|;
    ZeroRangeRefused(current, d, trigger.level, atr, Volumes(previous), LimitsOf(cfg));
    assert cfg.stopAtr * atr > 0.0;
    assert stop.distance * cfg.takeProfitR > 0.0;
  }

  lemma ZeroRangeRefused(c: Candle, d: Direction, level: real, atr: real, earlier: seq<real>, limits: Limits)
    ensures QualityOf(c, d, level, atr, earlier, limits).reasons == [] ==> atr > 0.0
  {
  }

  // Nothing but the breakout filter speaks against a trade when the market is right.
  predicate MarketRight(
    cfg: Config, m15: Regime, d: Direction, efficiency: real, stopValid: bool, current: Candle, news: bool)
  {
    && (cfg.regimeFilter ==> m15 == if d == Buy then TrendUp else TrendDown)
    && efficiency >= 0.30 && stopValid && !news
    && (current.spread.None? || cfg.maxSpread == 0 || current.spread.value <= cfg.maxSpread)
  }

  lemma MarketReasonsExactly(
    cfg: Config, m15: Regime, d: Direction, efficiency: real, stopValid: bool, current: Candle, news: bool)
    ensures MarketReasons(cfg, m15, d, efficiency, stopValid, current, news) == [] <==>
              MarketRight(cfg, m15, d, efficiency, stopValid, current, news)
  {
    var filter := if !cfg.regimeFilter || m15 == (if d == Buy then TrendUp else TrendDown) then []
                  else if m15 == Range then [M15Range] else [M15DirectionMismatch];
    assert |MarketReasons(cfg, m15, d, efficiency, stopValid, current, news)| == |filter|
      + |Flag(efficiency < 0.30, LowDirectionalEfficiency)| + |Flag(!stopValid, StopTooWide)|
      + |Flag(current.spread.Some? && cfg.maxSpread > 0 && current.spread.value > cfg.maxSpread, SpreadTooWide)|
      + |Flag(news, News)|;
  }

  // A setup is executed exactly when the breakout passes its filter and the market is right.
  lemma ExecutedExactly(
    cfg: SoundConfig, m15: RegimeResult, previous: seq<Candle>, current: Candle, trigger: Trigger, news: bool)
    requires |previous| > cfg.atrPeriod && |previous| >= EFFICIENCY_BARS
    ensures var atr := AtrOf(previous, cfg.atrPeriod);
            atr >= 0.0
            && (Build(cfg, m15, previous, current, trigger, news).reasons == [] <==>
                 && QualityOf(current, trigger.direction, trigger.level, atr, Volumes(previous), LimitsOf(cfg)).accepted
                 && MarketRight(cfg, m15.regime, trigger.direction, Efficiency(Last(previous, EFFICIENCY_BARS)),
                                WaveStop(trigger.direction, previous, current, atr, cfg.stopAtr, 3.0).valid, current,
                                    news))
  {
    hide AtrOf, QualityOf, Efficiency, MarketReasons, MarketRight, WaveStop, Volumes;
    var d, atr := trigger.direction, AtrOf(previous, cfg.atrPeriod);
    AtrNotNegative(previous, cfg.atrPeriod);
    var quality := QualityOf(current, d, trigger.level, atr, Volumes(previous), LimitsOf(cfg));
    AcceptedMeansNoReasons(current, d, trigger.level, atr, Volumes(previous), LimitsOf(cfg));
    var efficiency := Efficiency(Last(previous, EFFICIENCY_BARS));
    var valid := WaveStop(d, previous, current, atr, cfg.stopAtr, 3.0).valid;
    MarketReasonsExactly(cfg, m15.regime, d, efficiency, valid, current, news);
    var market := MarketReasons(cfg, m15.regime, d, efficiency, valid, current, news);
    assert |Hardened(quality.reasons) + market| == |quality.reasons| + |market|;
  }

  lemma AcceptedMeansNoReasons(c: Candle, d: Direction, level: real, atr: real, earlier: seq<real>, limits: Limits)
    ensures QualityOf(c, d, level, atr, earlier, limits).accepted <==>
              QualityOf(c, d, level, atr, earlier, limits).reasons == []
  {
  }
}
