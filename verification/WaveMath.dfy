/** The candle arithmetic of Strategy V4 over exact prices. */
module WaveMath {
  import opened Basics

  datatype Candle = Candle(
    time: int, open: real, high: real, low: real, close: real, spread: Option<nat>, volume: Option<real>)

  datatype Regime = TrendUp | TrendDown | Range | HighVol

  datatype Reason =
    | InvalidRange | WrongBodyDirection | WeakBody | LargeRejectionWick | WeakCloseBeyondLevel
    | LowVolBreakout | HighVolBreakout | ExtremeVolatility | MissingTickVolume | LowTickVolume
    | M15Range | M15DirectionMismatch | LowDirectionalEfficiency | StopTooWide | SpreadTooWide | News

  function Abs(x: real): real {
    if x < 0.0 then -x else x
  }

  function Max2(x: real, y: real): real {
    if x < y then y else x
  }

  function Min2(x: real, y: real): real {
    if y < x then y else x
  }

  function Sum(values: seq<real>): real {
    if values == [] then 0.0 else Sum(values[..|values| - 1]) + values[|values| - 1]
  }

  function MaxOf(values: seq<real>): (m: real)
    requires values != []
    ensures m in values && forall i :: 0 <= i < |values| ==> values[i] <= m
  {
    if |values| == 1 then values[0] else Max2(MaxOf(values[..|values| - 1]), values[|values| - 1])
  }

  function MinOf(values: seq<real>): (m: real)
    requires values != []
    ensures m in values && forall i :: 0 <= i < |values| ==> m <= values[i]
  {
    if |values| == 1 then values[0] else Min2(MinOf(values[..|values| - 1]), values[|values| - 1])
  }

  // The last elements of a list, or all of it when it is shorter.
  function Last<T>(s: seq<T>, n: nat): (r: seq<T>)
    ensures |r| == if n <= |s| then n else |s|
    ensures forall i :: 0 <= i < |r| ==> r[i] == s[|s| - |r| + i]
  {
    if n <= |s| then s[|s| - n..] else s
  }

  function Closes(cs: seq<Candle>): seq<real> {
    seq(|cs|, i requires 0 <= i < |cs| => cs[i].close)
  }

  function Highs(cs: seq<Candle>): seq<real> {
    seq(|cs|, i requires 0 <= i < |cs| => cs[i].high)
  }

  function Lows(cs: seq<Candle>): seq<real> {
    seq(|cs|, i requires 0 <= i < |cs| => cs[i].low)
  }

  // The exponential average after the last value, seeded with the plain average of the first ones.
  function EmaOf(values: seq<real>, period: nat): real
    requires 1 <= period <= |values|
  {
    if |values| == period then Sum(values) / period as real
    else
      var alpha := 2.0 / (period + 1) as real;
      values[|values| - 1] * alpha + EmaOf(values[..|values| - 1], period) * (1.0 - alpha)
  }

  lemma EmaSeed(values: seq<real>, period: nat)
    requires 1 <= period == |values|
    ensures EmaOf(values, period) == Sum(values) / period as real
  {
  }

  lemma EmaStep(values: seq<real>, period: nat)
    requires 1 <= period < |values|
    ensures var alpha := 2.0 / (period + 1) as real;
            EmaOf(values, period) == values[|values| - 1] * alpha
                + EmaOf(values[..|values| - 1], period) * (1.0 - alpha)
  {
  }

  method Ema(values: seq<real>, period: nat) returns (r: Option<real>)
    requires period >= 1
    ensures r == if |values| < period then None else Some(EmaOf(values, period))
  {
    if |values| < period {
      return None;
    }
    var alpha := 2.0 / (period + 1) as real;
    var sum := 0.0;
    for i := 0 to period
      invariant sum == Sum(values[..i])
    {
      assert values[..i + 1][..i] == values[..i];
      sum := sum + values[i];
    }
    var result := sum / period as real;
    for i := period to |values|
      invariant result == EmaOf(values[..i], period)
    {
      assert values[..i + 1][..i] == values[..i];
      result := values[i] * alpha + result * (1.0 - alpha);
    }
    assert values[..|values|] == values;
    return Some(result);
  }

  function TrueRange(previousClose: real, c: Candle): real {
    Max2(Max2(c.high - c.low, Abs(c.high - previousClose)), Abs(c.low - previousClose))
  }

  function TrueRanges(cs: seq<Candle>): seq<real>
    requires |cs| >= 1
  {
    seq(|cs| - 1, i requires 0 <= i < |cs| - 1 => TrueRange(cs[i].close, cs[i + 1]))
  }

  function AtrOf(cs: seq<Candle>, period: nat): real
    requires 1 <= period < |cs|
  {
    Sum(Last(TrueRanges(cs), period)) / period as real
  }

  function BreakoutLevel(cs: seq<Candle>, period: nat, d: Direction): real
    requires 1 <= period <= |cs|
  {
    var window := Last(cs, period);
    if d == Buy then MaxOf(Highs(window)) else MinOf(Lows(window))
  }

  // How far the closes moved out of how far they travelled.
  function Travelled(closes: seq<real>): (t: real)
    ensures t >= 0.0
  {
    if |closes| < 2 then 0.0
    else Travelled(closes[..|closes| - 1]) + Abs(closes[|closes| - 1] - closes[|closes| - 2])
  }

  function Efficiency(cs: seq<Candle>): real
    requires |cs| >= 2
  {
    var closes := Closes(cs);
    var travelled := Travelled(closes);
    if travelled == 0.0 then 0.0 else Abs(closes[|closes| - 1] - closes[0]) / travelled
  }

  datatype RegimeResult = RegimeResult(
    regime: Regime, emaFast: real, emaSlow: real, separationAtr: real, slopeAtr: real, atr: real)

  const SLOPE_BARS: nat := 3

  function Classified(strong: bool, emaFast: real, emaSlow: real, slope: real): Regime {
    if strong && emaFast > emaSlow && slope > 0.0 then TrendUp
    else if strong && emaFast < emaSlow && slope < 0.0 then TrendDown else Range
  }

  // None stands for the three thrown errors: too few candles for the periods, or a range of zero.
  function DetectRegime(cs: seq<Candle>, fast: nat, slow: nat, atrPeriod: nat, minSeparation: real, minSlope: real)
    : Option<RegimeResult>
    requires fast >= 1 && slow >= 1 && atrPeriod >= 1
  {
    var n := |cs|;
    if n < slow + SLOPE_BARS || n < atrPeriod + 1 || n < fast + SLOPE_BARS then None
    else
      var closes := Closes(cs);
      var emaFast, emaSlow := EmaOf(closes, fast), EmaOf(closes, slow);
      var previousFast := EmaOf(closes[..n - SLOPE_BARS], fast);
      var atr := AtrOf(cs, atrPeriod);
      if atr <= 0.0 then None
      else
        var separation := Abs(emaFast - emaSlow) / atr;
        var slope := (emaFast - previousFast) / atr / SLOPE_BARS as real;
        var strong := separation >= minSeparation && Abs(slope) >= minSlope;
        Some(RegimeResult(Classified(strong, emaFast, emaSlow, slope), emaFast, emaSlow, separation, slope, atr))
  }

  datatype Trigger = Trigger(direction: Direction, level: real)

  function DetectTrigger(bias: Direction, previous: seq<Candle>, current: Candle, lookback: nat): Option<Trigger>
    requires lookback >= 1
  {
    if |previous| < lookback then None
    else
      var level := BreakoutLevel(previous, lookback, bias);
      var previousClose := previous[|previous| - 1].close;
      var crossed := if bias == Buy then previousClose <= level && current.close > level
                     else previousClose >= level && current.close < level;
      if crossed then Some(Trigger(bias, level)) else None
  }

  // A distance in ranges is None when the range is zero: the quotient is then not finite, and never within a limit.
  datatype StopResult = StopResult(stop: real, distance: real, distanceAtr: Option<real>, valid: bool)

  const SWING_BARS: nat := 5
  const BUFFER_ATR: real := 0.15

  function StructuralStop(d: Direction, previous: seq<Candle>, current: Candle, buffer: real): real {
    var recent := Last(previous, SWING_BARS) + [current];
    if d == Buy then MinOf(Lows(recent)) - buffer else MaxOf(Highs(recent)) + buffer
  }

  function WaveStop(d: Direction, previous: seq<Candle>, current: Candle, atr: real, minAtr: real, maxAtr: real)
    : (r: StopResult)
    requires atr >= 0.0
    ensures r.distance >= minAtr * atr && r.distance >= 0.0
    ensures r.stop == if d == Buy then current.close - r.distance else current.close + r.distance
    ensures r.valid ==> atr > 0.0
  {
    var structural := StructuralStop(d, previous, current, BUFFER_ATR * atr);
    var distance := Max2(Abs(current.close - structural), minAtr * atr);
    var stop := current.close + (if d == Buy then -distance else distance);
    if atr == 0.0 then StopResult(stop, distance, None, false)
    else StopResult(stop, distance, Some(distance / atr), distance / atr <= maxAtr)
  }

  datatype Confirmation = RetestReclaim | Momentum

  function ConfirmMain(d: Direction, c: Candle, level: real, probeEntry: real, atr: real): Option<Confirmation> {
    var range := c.high - c.low;
    if range <= 0.0 || atr <= 0.0 then None
    else
      var directional := if d == Buy then c.close > c.open else c.close < c.open;
      if !directional || Abs(c.close - c.open) / range < 0.45 then None
      else
        var reclaim := if d == Buy then c.close - level else level - c.close;
        var touched := if d == Buy then c.low <= level else c.high >= level;
        if touched && reclaim >= 0.10 * atr then Some(RetestReclaim)
        else
          var momentum := if d == Buy then c.close - probeEntry else probeEntry - c.close;
          if momentum >= 0.50 * atr then Some(Momentum) else None
  }

  function MfeR(d: Direction, entry: real, stop: real, cs: seq<Candle>): real {
    var risk := Abs(entry - stop);
    if risk <= 0.0 || cs == [] then 0.0
    else if d == Buy then (MaxOf(Highs(cs)) - entry) / risk
    else -(MinOf(Lows(cs)) - entry) / risk
  }

  datatype Barrier = TakeProfit | StopLoss

  predicate StopHit(d: Direction, stop: real, c: Candle) {
    if d == Buy then c.low <= stop else c.high >= stop
  }

  predicate TargetHit(d: Direction, target: real, c: Candle) {
    if d == Buy then c.high >= target else c.low <= target
  }

  function BarrierOutcome(d: Direction, stop: real, target: real, c: Candle): Option<Barrier> {
    if StopHit(d, stop, c) then Some(StopLoss) else if TargetHit(d, target, c) then Some(TakeProfit) else None
  }
}

/** The median that the tick volume filter compares with. */
module Medians {
  predicate Sorted(s: seq<real>) {
    forall i, j :: 0 <= i < j < |s| ==> s[i] <= s[j]
  }

  function Insert(x: real, s: seq<real>): (r: seq<real>)
    requires Sorted(s)
    ensures |r| == |s| + 1 && Sorted(r)
    ensures forall i :: 0 <= i < |r| ==> r[i] == x || r[i] in s
  {
    if s == [] || x <= s[0] then [x] + s else [s[0]] + Insert(x, s[1..])
  }

  function Sort(s: seq<real>): (r: seq<real>)
    ensures |r| == |s| && Sorted(r)
    ensures forall i :: 0 <= i < |r| ==> r[i] in s
  {
    if s == [] then [] else Insert(s[0], Sort(s[1..]))
  }

  function Middle(ordered: seq<real>): (m: real)
    requires ordered != [] && Sorted(ordered)
    ensures forall i :: 0 <= i < (|ordered| + 1) / 2 ==> ordered[i] <= m
    ensures forall i :: |ordered| / 2 <= i < |ordered| ==> m <= ordered[i]
  {
    var k := |ordered| / 2;
    if |ordered| % 2 == 0 then
      assert ordered[k - 1] <= ordered[k];
      (ordered[k - 1] + ordered[k]) / 2.0
    else ordered[k]
  }

  function Median(values: seq<real>): real
    requires values != []
  {
    Middle(Sort(values))
  }

  function CountAtMost(s: seq<real>, x: real): nat {
    if s == [] then 0 else (if s[0] <= x then 1 else 0) + CountAtMost(s[1..], x)
  }

  function CountAtLeast(s: seq<real>, x: real): nat {
    if s == [] then 0 else (if s[0] >= x then 1 else 0) + CountAtLeast(s[1..], x)
  }

  lemma {:induction false} InsertCounts(y: real, s: seq<real>, x: real)
    requires Sorted(s)
    ensures CountAtMost(Insert(y, s), x) == CountAtMost([y] + s, x)
    ensures CountAtLeast(Insert(y, s), x) == CountAtLeast([y] + s, x)
  {
    assert ([y] + s)[1..] == s;
    if !(s == [] || y <= s[0]) {
      InsertCounts(y, s[1..], x);
      assert ([y] + s[1..])[1..] == s[1..];
      assert ([s[0]] + Insert(y, s[1..]))[1..] == Insert(y, s[1..]);
    }
  }

  lemma {:induction false} SortCounts(s: seq<real>, x: real)
    ensures CountAtMost(Sort(s), x) == CountAtMost(s, x) && CountAtLeast(Sort(s), x) == CountAtLeast(s, x)
  {
    if s != [] {
      SortCounts(s[1..], x);
      InsertCounts(s[0], Sort(s[1..]), x);
      assert ([s[0]] + Sort(s[1..]))[1..] == Sort(s[1..]);
    }
  }

  lemma {:induction false} PrefixAtMost(s: seq<real>, k: nat, x: real)
    requires k <= |s| && forall i :: 0 <= i < k ==> s[i] <= x
    ensures CountAtMost(s, x) >= k
  {
    if k > 0 { PrefixAtMost(s[1..], k - 1, x); }
  }

  lemma {:induction false} SuffixAtLeast(s: seq<real>, k: nat, x: real)
    requires k <= |s| && forall i :: k <= i < |s| ==> s[i] >= x
    ensures CountAtLeast(s, x) >= |s| - k
  {
    if s != [] { SuffixAtLeast(s[1..], if k > 0 then k - 1 else 0, x); }
  }

  // At least half of the values lie on each side of the median, and it is positive when they are.
  lemma MedianSplits(values: seq<real>)
    requires values != []
    ensures 2 * CountAtMost(values, Median(values)) >= |values|
    ensures 2 * CountAtLeast(values, Median(values)) >= |values|
    ensures (forall i :: 0 <= i < |values| ==> values[i] > 0.0) ==> Median(values) > 0.0
  {
    hide Sort, Middle, CountAtMost, CountAtLeast;
    var ordered, m := Sort(values), Median(values);
    SortCounts(values, m);
    PrefixAtMost(ordered, (|ordered| + 1) / 2, m);
    SuffixAtLeast(ordered, |ordered| / 2, m);
    if forall i :: 0 <= i < |values| ==> values[i] > 0.0 {
      assert ordered[0] in values && ordered[0] <= m;
    }
  }
}

/** The filter on the candle that breaks out. */
module BreakoutQuality {
  import opened Basics
  import opened WaveMath
  import opened Medians

  datatype Limits = Limits(
    minBody: real, minRangeAtr: real, minCloseAtr: real, maxWick: real, maxRangeAtr: real, minVolumeRatio: real)

  datatype Quality = Quality(
    accepted: bool, reasons: seq<Reason>, rangeAtr: real, bodyRatio: real, wickRatio: real, closeBeyondAtr: real,
    volumeRatio: Option<real>)

  function Usable(volumes: seq<real>): (r: seq<real>)
    ensures forall i :: 0 <= i < |r| ==> r[i] > 0.0
  {
    if volumes == [] then []
    else (if volumes[0] > 0.0 then [volumes[0]] else []) + Usable(volumes[1..])
  }

  // The volume against the median of the usable earlier ones; None without either.
  function VolumeRatio(volume: Option<real>, earlier: seq<real>): Option<real> {
    var usable := Usable(earlier);
    if volume.None? || usable == [] then None
    else
      MedianSplits(usable);
      Some(volume.value / Median(usable))
  }

  function Flag(raised: bool, reason: Reason): seq<Reason> {
    if raised then [reason] else []
  }

  function OppositeWick(d: Direction, c: Candle): real {
    if d == Buy then c.high - Max2(c.open, c.close) else Min2(c.open, c.close) - c.low
  }

  function Beyond(d: Direction, c: Candle, level: real): real {
    if d == Buy then c.close - level else level - c.close
  }

  predicate WrongBody(d: Direction, c: Candle) {
    if d == Buy then c.close <= c.open else c.close >= c.open
  }

  function Judge(wrongBody: bool, body: real, wick: real, beyond: real, range: real, volume: Option<real>,
                 limits: Limits): seq<Reason>
  {
    [] + Flag(wrongBody, WrongBodyDirection) + Flag(body < limits.minBody, WeakBody)
    + Flag(wick > limits.maxWick, LargeRejectionWick) + Flag(beyond < limits.minCloseAtr, WeakCloseBeyondLevel)
    + Flag(range < limits.minRangeAtr, LowVolBreakout) + Flag(range > limits.maxRangeAtr, HighVolBreakout)
    + Flag(volume.None?, MissingTickVolume)
    + Flag(volume.Some? && volume.value < limits.minVolumeRatio, LowTickVolume)
  }

  function QualityOf(c: Candle, d: Direction, level: real, atr: real, earlier: seq<real>, limits: Limits): Quality {
    var range := c.high - c.low;
    if range <= 0.0 || atr <= 0.0 then Quality(false, [InvalidRange], 0.0, 0.0, 0.0, 0.0, None)
    else
      var body := Abs(c.close - c.open) / range;
      var wick := Max2(0.0, OppositeWick(d, c)) / range;
      var beyond := Beyond(d, c, level) / atr;
      var volume := VolumeRatio(c.volume, earlier);
      var reasons := Judge(WrongBody(d, c), body, wick, beyond, range / atr, volume, limits);
      Quality(reasons == [], reasons, range / atr, body, wick, beyond, volume)
  }

  method Push(reasons: seq<Reason>, raised: bool, reason: Reason) returns (r: seq<Reason>)
    ensures r == reasons + Flag(raised, reason)
  {
    r := reasons;
    if raised {
      r := r + [reason];
    }
  }

  method PushReasons(d: Direction, c: Candle, body: real, wick: real, beyond: real, rangeAtr: real,
                     volume: Option<real>, limits: Limits) returns (reasons: seq<Reason>)
    ensures reasons == Judge(WrongBody(d, c), body, wick, beyond, rangeAtr, volume, limits)
  {
    hide Flag;
    reasons := Push([], (d == Buy && c.close <= c.open) || (d == Sell && c.close >= c.open), WrongBodyDirection);
    reasons := Push(reasons, body < limits.minBody, WeakBody);
    reasons := Push(reasons, wick > limits.maxWick, LargeRejectionWick);
    reasons := Push(reasons, beyond < limits.minCloseAtr, WeakCloseBeyondLevel);
    reasons := Push(reasons, rangeAtr < limits.minRangeAtr, LowVolBreakout);
    reasons := Push(reasons, rangeAtr > limits.maxRangeAtr, HighVolBreakout);
    reasons := Push(reasons, volume.None?, MissingTickVolume);
    reasons := Push(reasons, volume.Some? && volume.value < limits.minVolumeRatio, LowTickVolume);
  }

  method AssessQuality(c: Candle, d: Direction, level: real, atr: real, earlier: seq<real>, limits: Limits)
    returns (q: Quality)
    ensures q == QualityOf(c, d, level, atr, earlier, limits)
  {
    hide Usable, VolumeRatio;
    var range := c.high - c.low;
    if range <= 0.0 || atr <= 0.0 {
      return Quality(false, [InvalidRange], 0.0, 0.0, 0.0, 0.0, None);
    }
    var body := Abs(c.close - c.open) / range;
    var oppositeWick := if d == Buy then c.high - Max2(c.open, c.close) else Min2(c.open, c.close) - c.low;
    var wick := Max2(0.0, oppositeWick) / range;
    var closeBeyond := if d == Buy then c.close - level else level - c.close;
    var beyond, rangeAtr := closeBeyond / atr, range / atr;
    var volume := VolumeRatio(c.volume, earlier);
    var reasons := PushReasons(d, c, body, wick, beyond, rangeAtr, volume, limits);
    return Quality(reasons == [], reasons, rangeAtr, body, wick, beyond, volume);
  }

  lemma RatioBelow(x: real, y: real, limit: real)
    requires y > 0.0
    ensures x / y < limit <==> x < limit * y
    ensures x / y > limit <==> x > limit * y
  {
    var q := x / y;
    assert x == q * y;
    if q < limit { assert (limit - q) * y > 0.0; }
    if q > limit { assert (q - limit) * y > 0.0; }
  }

  lemma JudgedCleanly(
    wrongBody: bool, body: real, wick: real, beyond: real, range: real, volume: Option<real>, limits: Limits)
    ensures Judge(wrongBody, body, wick, beyond, range, volume, limits) == [] <==>
              && !wrongBody && body >= limits.minBody && wick <= limits.maxWick && beyond >= limits.minCloseAtr
              && limits.minRangeAtr <= range <= limits.maxRangeAtr
              && volume.Some? && volume.value >= limits.minVolumeRatio
  {
    assert |Judge(wrongBody, body, wick, beyond, range, volume, limits)| ==
      |Flag(wrongBody, WrongBodyDirection)| + |Flag(body < limits.minBody, WeakBody)|
      + |Flag(wick > limits.maxWick, LargeRejectionWick)| + |Flag(beyond < limits.minCloseAtr, WeakCloseBeyondLevel)|
      + |Flag(range < limits.minRangeAtr, LowVolBreakout)| + |Flag(range > limits.maxRangeAtr, HighVolBreakout)|
      + |Flag(volume.None?, MissingTickVolume)|
      + |Flag(volume.Some? && volume.value < limits.minVolumeRatio, LowTickVolume)|;
  }

  // A breakout is accepted exactly when each measure, taken in prices and volumes, is within its limit. In particular a
  // zero range of the earlier candles is never accepted.
  lemma AcceptedExactly(c: Candle, d: Direction, level: real, atr: real, earlier: seq<real>, limits: Limits)
    ensures QualityOf(c, d, level, atr, earlier, limits).accepted <==>
              && c.high > c.low && atr > 0.0
              && (if d == Buy then c.close > c.open else c.close < c.open)
              && Abs(c.close - c.open) >= limits.minBody * (c.high - c.low)
              && Max2(0.0, OppositeWick(d, c)) <= limits.maxWick * (c.high - c.low)
              && Beyond(d, c, level) >= limits.minCloseAtr * atr
              && limits.minRangeAtr * atr <= c.high - c.low <= limits.maxRangeAtr * atr
              && c.volume.Some? && Usable(earlier) != []
              && c.volume.value >= limits.minVolumeRatio * Median(Usable(earlier))
  {
    hide Judge, Usable, Median, Abs, Max2, OppositeWick, Beyond, Flag;
    var range := c.high - c.low;
    if range > 0.0 && atr > 0.0 {
      var body, wick := Abs(c.close - c.open), Max2(0.0, OppositeWick(d, c));
      RatioBelow(body, range, limits.minBody);
      RatioBelow(wick, range, limits.maxWick);
      RatioBelow(Beyond(d, c, level), atr, limits.minCloseAtr);
      RatioBelow(range, atr, limits.minRangeAtr);
      RatioBelow(range, atr, limits.maxRangeAtr);
      if c.volume.Some? && Usable(earlier) != [] {
        MedianSplits(Usable(earlier));
        RatioBelow(c.volume.value, Median(Usable(earlier)), limits.minVolumeRatio);
      }
      JudgedCleanly(WrongBody(d, c), body / range, wick / range, Beyond(d, c, level) / atr, range / atr,
        VolumeRatio(c.volume, earlier), limits);
    }
  }
}

/** What the measures of a wave mean in prices. */
module WaveMeaning {
  import opened Basics
  import opened WaveMath
  import opened BreakoutQuality

  predicate Proper(c: Candle) {
    c.low <= c.open <= c.high && c.low <= c.close <= c.high
  }

  // The true range is the span of the candle and the close before it.
  lemma TrueRangeIsSpan(previousClose: real, c: Candle)
    requires c.low <= c.high
    ensures TrueRange(previousClose, c) == Max2(c.high, previousClose) - Min2(c.low, previousClose)
  {
  }

  lemma {:induction false} SumBetween(values: seq<real>, low: real, high: real)
    requires forall i :: 0 <= i < |values| ==> low <= values[i] <= high
    ensures low * |values| as real <= Sum(values) <= high * |values| as real
  {
    if values != [] {
      var n := |values| - 1;
      SumBetween(values[..n], low, high);
      assert low * (n + 1) as real == low * n as real + low;
      assert high * (n + 1) as real == high * n as real + high;
    }
  }

  lemma NotNegative(x: real, y: real)
    requires x >= 0.0 && y >= 0.0
    ensures x * y >= 0.0
  {
  }

  lemma BlendBetween(x: real, y: real, alpha: real, low: real, high: real)
    requires 0.0 <= alpha <= 1.0 && low <= x <= high && low <= y <= high
    ensures low <= x * alpha + y * (1.0 - alpha) <= high
  {
    NotNegative(x - low, alpha);
    NotNegative(y - low, 1.0 - alpha);
    NotNegative(high - x, alpha);
    NotNegative(high - y, 1.0 - alpha);
    assert x * alpha + y * (1.0 - alpha) - low == (x - low) * alpha + (y - low) * (1.0 - alpha);
    assert high - (x * alpha + y * (1.0 - alpha)) == (high - x) * alpha + (high - y) * (1.0 - alpha);
  }

  // An exponential average stays within the range of its values.
  lemma {:induction false} EmaBetween(values: seq<real>, period: nat, low: real, high: real)
    requires 1 <= period <= |values| && forall i :: 0 <= i < |values| ==> low <= values[i] <= high
    ensures low <= EmaOf(values, period) <= high
  {
    hide EmaOf, Sum;
    var n := |values| - 1;
    if |values| == period {
      EmaSeed(values, period);
      SumBetween(values, low, high);
      MeanBetween(Sum(values), |values|, low, high);
    } else {
      EmaStep(values, period);
      EmaBetween(values[..n], period, low, high);
      AlphaShare(period);
      BlendBetween(values[n], EmaOf(values[..n], period), 2.0 / (period + 1) as real, low, high);
    }
  }

  lemma MeanBetween(sum: real, n: nat, low: real, high: real)
    requires n >= 1 && low * n as real <= sum <= high * n as real
    ensures low <= sum / n as real <= high
  {
    RatioBelow(sum, n as real, low);
    RatioBelow(sum, n as real, high);
  }

  lemma AlphaShare(period: nat)
    requires period >= 1
    ensures 0.0 <= 2.0 / (period + 1) as real <= 1.0
  {
  }

  function Reach(d: Direction, c: Candle): real {
    if d == Buy then c.high else c.low
  }

  // The level is the furthest that the last candles reached on its side.
  lemma LevelIsExtreme(cs: seq<Candle>, period: nat, d: Direction)
    requires 1 <= period <= |cs|
    ensures exists i :: |cs| - period <= i < |cs| && Reach(d, cs[i]) == BreakoutLevel(cs, period, d)
    ensures forall i :: |cs| - period <= i < |cs| ==>
              if d == Buy then Reach(d, cs[i]) <= BreakoutLevel(cs, period, d)
              else BreakoutLevel(cs, period, d) <= Reach(d, cs[i])
  {
    hide MaxOf, MinOf;
    var window := Last(cs, period);
    var values := if d == Buy then Highs(window) else Lows(window);
    var level := BreakoutLevel(cs, period, d);
    assert level == if d == Buy then MaxOf(values) else MinOf(values);
    assert forall k :: 0 <= k < period ==> values[k] == Reach(d, cs[|cs| - period + k]);
    hide BreakoutLevel, Reach, Last, Highs, Lows;
    var k :| 0 <= k < |values| && values[k] == level;
    assert Reach(d, cs[|cs| - period + k]) == level;
    forall i | |cs| - period <= i < |cs|
      ensures if d == Buy then Reach(d, cs[i]) <= level else level <= Reach(d, cs[i])
    {
      assert values[i - (|cs| - period)] == Reach(d, cs[|cs| - period + (i - (|cs| - period))]);
    }
  }

  // A breakout is a close beyond every one of the last candles.
  lemma BreakoutExactly(bias: Direction, previous: seq<Candle>, current: Candle, lookback: nat)
    requires 1 <= lookback <= |previous| && Proper(previous[|previous| - 1])
    ensures DetectTrigger(bias, previous, current, lookback).Some? <==>
              forall i :: |previous| - lookback <= i < |previous| ==>
                if bias == Buy then current.close > Reach(bias, previous[i])
                    else current.close < Reach(bias, previous[i])
  {
    hide BreakoutLevel;
    LevelIsExtreme(previous, lookback, bias);
    assert Reach(bias, previous[|previous| - 1]) == if bias == Buy then previous[|previous| - 1].high
      else previous[|previous| - 1].low;
  }

  // The averages lie far enough apart and the fast one has moved far enough, both upwards.
  predicate Rising(apart: real, moved: real, atr: real, minSeparation: real, minSlope: real) {
    && apart > 0.0 && apart >= minSeparation * atr
    && moved > 0.0 && moved >= minSlope * (atr * SLOPE_BARS as real)
  }

  // A trend is a rise, or a rise upside down.
  lemma TrendExactly(
    cs: seq<Candle>, fast: nat, slow: nat, atrPeriod: nat, minSeparation: real, minSlope: real)
    requires fast >= 1 && slow >= 1 && atrPeriod >= 1
    requires |cs| >= slow + SLOPE_BARS && |cs| > atrPeriod && |cs| >= fast + SLOPE_BARS && AtrOf(cs, atrPeriod) > 0.0
    ensures var r := DetectRegime(cs, fast, slow, atrPeriod, minSeparation, minSlope);
            var atr := AtrOf(cs, atrPeriod);
            var apart := EmaOf(Closes(cs), fast) - EmaOf(Closes(cs), slow);
            var moved := EmaOf(Closes(cs), fast) - EmaOf(Closes(cs)[..|cs| - SLOPE_BARS], fast);
            && r.Some?
            && (r.value.regime == TrendUp <==> Rising(apart, moved, atr, minSeparation, minSlope))
            && (r.value.regime == TrendDown <==> Rising(-apart, -moved, atr, minSeparation, minSlope))
  {
    hide EmaOf, AtrOf, Abs, Classified, Rising;
    var now, before := EmaOf(Closes(cs), fast), EmaOf(Closes(cs)[..|cs| - SLOPE_BARS], fast);
    TrendArithmetic(now, EmaOf(Closes(cs), slow), before, AtrOf(cs, atrPeriod), minSeparation, minSlope);
  }

  lemma TrendArithmetic(now: real, slow: real, before: real, atr: real, minSeparation: real, minSlope: real)
    requires atr > 0.0
    ensures var slope := (now - before) / atr / SLOPE_BARS as real;
            var strong := Abs(now - slow) / atr >= minSeparation && Abs(slope) >= minSlope;
            && (Classified(strong, now, slow, slope) == TrendUp <==>
                 Rising(now - slow, now - before, atr, minSeparation, minSlope))
            && (Classified(strong, now, slow, slope) == TrendDown <==>
                 Rising(-(now - slow), -(now - before), atr, minSeparation, minSlope))
  {
    RatioBelow(Abs(now - slow), atr, minSeparation);
    SlopeMeans(now - before, atr, minSlope);
  }

  lemma SlopeMeans(moved: real, atr: real, limit: real)
    requires atr > 0.0
    ensures var slope := moved / atr / SLOPE_BARS as real;
            && (slope > 0.0 <==> moved > 0.0) && (slope < 0.0 <==> moved < 0.0)
            && (moved > 0.0 ==> (slope >= limit <==> moved >= limit * (atr * SLOPE_BARS as real)))
            && (moved < 0.0 ==> (-slope >= limit <==> -moved >= limit * (atr * SLOPE_BARS as real)))
  {
    var q := moved / atr;
    assert moved == q * atr;
    RatioBelow(moved, atr, 0.0);
    var slope := q / 3.0;
    assert slope * (atr * 3.0) == moved;
    Scaled(slope, limit, atr * 3.0);
    Scaled(-slope, limit, atr * 3.0);
  }

  lemma Scaled(x: real, limit: real, scale: real)
    requires scale > 0.0
    ensures x >= limit <==> x * scale >= limit * scale
  {
    if x >= limit { assert (x - limit) * scale >= 0.0; } else { assert (limit - x) * scale > 0.0; }
  }

  // The second entry: a strong body in the direction of the trade, and either a reclaim of the level from beyond it or
  // half a range of progress.
  lemma ConfirmedExactly(d: Direction, c: Candle, level: real, probeEntry: real, atr: real)
    ensures var confirmation := ConfirmMain(d, c, level, probeEntry, atr);
            var body := if d == Buy then c.close - c.open else c.open - c.close;
            var reclaimed := (if d == Buy then c.low <= level else c.high >= level)
              && Beyond(d, c, level) >= 0.10 * atr;
            && (confirmation.Some? <==>
                 && c.high > c.low && atr > 0.0 && body > 0.0 && body >= 0.45 * (c.high - c.low)
                 && (reclaimed || Beyond(d, c, probeEntry) >= 0.50 * atr))
            && (confirmation.Some? ==> (confirmation.value == RetestReclaim <==> reclaimed))
  {
    if c.high > c.low { RatioBelow(Abs(c.close - c.open), c.high - c.low, 0.45); }
  }

  // How far one candle went in favour of a position.
  function Favour(d: Direction, entry: real, c: Candle): real {
    if d == Buy then c.high - entry else entry - c.low
  }

  function Furthest(d: Direction, entry: real, cs: seq<Candle>): real
    requires cs != []
  {
    if d == Buy then MaxOf(Highs(cs)) - entry else entry - MinOf(Lows(cs))
  }

  lemma FurthestCandle(d: Direction, entry: real, cs: seq<Candle>)
    requires cs != []
    ensures exists i :: 0 <= i < |cs| && Favour(d, entry, cs[i]) == Furthest(d, entry, cs)
    ensures forall i :: 0 <= i < |cs| ==> Favour(d, entry, cs[i]) <= Furthest(d, entry, cs)
  {
    hide MaxOf, MinOf;
    var values := if d == Buy then Highs(cs) else Lows(cs);
    var extreme := if d == Buy then MaxOf(values) else MinOf(values);
    assert forall i :: 0 <= i < |cs| ==> values[i] == (if d == Buy then cs[i].high else cs[i].low);
    var k :| 0 <= k < |values| && values[k] == extreme;
    assert Favour(d, entry, cs[k]) == Furthest(d, entry, cs);
    forall i | 0 <= i < |cs| ensures Favour(d, entry, cs[i]) <= Furthest(d, entry, cs) {
      assert if d == Buy then values[i] <= extreme else extreme <= values[i];
    }
  }

  predicate Went(d: Direction, entry: real, c: Candle, far: real) {
    Favour(d, entry, c) >= far
  }

  // The excursion reaches a multiple of the risk exactly when some candle went that far.
  lemma ExcursionReached(d: Direction, entry: real, stop: real, cs: seq<Candle>, r: real)
    requires cs != [] && entry != stop
    ensures MfeR(d, entry, stop, cs) >= r <==> exists i :: 0 <= i < |cs| && Went(d, entry, cs[i], r * Abs(entry - stop))
  {
    FurthestCandle(d, entry, cs);
    var best, far := Furthest(d, entry, cs), r * Abs(entry - stop);
    MfeMeans(d, entry, stop, cs, r);
    hide MfeR, Favour, Furthest, Abs;
    var i :| 0 <= i < |cs| && Favour(d, entry, cs[i]) == best;
    assert best >= far ==> Went(d, entry, cs[i], far);
    assert forall k :: 0 <= k < |cs| && Went(d, entry, cs[k], far) ==> Favour(d, entry, cs[k]) <= best;
  }

  lemma MfeMeans(d: Direction, entry: real, stop: real, cs: seq<Candle>, r: real)
    requires cs != [] && entry != stop
    ensures MfeR(d, entry, stop, cs) >= r <==> Furthest(d, entry, cs) >= r * Abs(entry - stop)
  {
    hide MaxOf, MinOf;
    RatioBelow(Furthest(d, entry, cs), Abs(entry - stop), r);
  }
}
