/** No decision depends on a candle that had not closed. */
module NoLookAhead {
  import opened Basics
  import opened WaveMath
  import opened CandleStore
  import opened StrategyRules
  import opened ProbeStrategy

  // Whatever later candles two stores hold, evaluating one candle gives the same candidates and positions.
  lemma LaterCandlesIgnored(cfg: SoundConfig, a: Book, b: Book, c: Candle, news: bool)
    requires Agree(a.m5, b.m5, c.time) && Agree(a.m15, b.m15, c.time - 15 * MINUTE)
    requires a.positions == b.positions && a.candidates == b.candidates
    ensures Evaluated(cfg, a, c, news).positions == Evaluated(cfg, b, c, news).positions
    ensures Evaluated(cfg, a, c, news).candidates == Evaluated(cfg, b, c, news).candidates
  {
    hide Recent, FirstAfter, Assess, Managed, Settled, Recorded, Labelled, CoolingDown, Opened;
    QueriesAgree(a.m15, b.m15, 0, c.time - 15 * MINUTE, 40);
    QueriesAgree(a.m5, b.m5, 0, c.time - 1, M5Window(cfg));
    var n := ActiveCount(a.positions);
    if n > 0 { QueriesAgree(a.m5, b.m5, a.positions[n - 1].openedAt, c.time, FOLLOW_THROUGH_BARS); }
  }
}

/** The life of the positions of one configuration, for events in any order. */
module PositionLifecycle {
  import opened Basics
  import opened WaveMath
  import opened CandleStore
  import opened StrategyRules
  import opened ProbeStrategy

  function Rank(s: PositionState): nat {
    match s
    case ProbeOpen => 0
    case MainAdded => 1
    case _ => 2
  }

  // What one event, or many, may do to a position: its plan is fixed, it only moves forward, and its end is final.
  predicate Later(p: Position, q: Position) {
    && (p.direction, p.level, p.atr, p.probeEntry, p.stop, p.target, p.deadline, p.openedAt)
         == (q.direction, q.level, q.atr, q.probeEntry, q.stop, q.target, q.deadline, q.openedAt)
    && (p == q || Rank(p.state) < Rank(q.state))
  }

  // When a probe that has not been confirmed must end.
  function DeadlineOf(cfg: Config, p: Position): int {
    p.openedAt + cfg.confirmationBars * BAR
  }

  // Positions follow one another: each but the last is closed, and the next opened after its cooldown.
  ghost predicate Ordered(cfg: Config, ps: seq<Position>) {
    && (forall i :: 0 <= i < |ps| ==> ps[i].deadline == DeadlineOf(cfg, ps[i]))
    && (forall i :: 0 <= i < |ps| ==> (Active(ps[i]) <==> ps[i].closing.None?))
    && (forall i :: 0 <= i < |ps| - 1 ==> ps[i].closing.Some?)
    && (forall i, j :: 0 <= i < j < |ps| ==>
         ps[j].openedAt >= ps[i].closing.value.at + cfg.cooldownBars * BAR)
  }

  lemma ManagedMoves(p: Position, c: Candle, post: seq<Candle>)
    requires Active(p) && p.closing.None?
    ensures Later(p, Managed(p, c, post))
    ensures Active(Managed(p, c, post)) <==> Managed(p, c, post).closing.None?
    ensures c.time >= p.deadline ==> Managed(p, c, post).state != ProbeOpen
  {
    hide MfeR, ConfirmMain;
  }

  lemma OneActive(cfg: Config, ps: seq<Position>, i: nat)
    requires Ordered(cfg, ps) && i < |ps| && Active(ps[i])
    ensures i == |ps| - 1 && ActiveCount(ps) == |ps|
  {
  }

  lemma ReplacedLast(cfg: Config, ps: seq<Position>, q: Position)
    requires Ordered(cfg, ps) && ps != [] && Later(ps[|ps| - 1], q) && (Active(q) <==> q.closing.None?)
    ensures Ordered(cfg, ps[|ps| - 1 := q])
  {
  }

  lemma OpenedAfterCooldown(cfg: Config, ps: seq<Position>, q: Position)
    requires Ordered(cfg, ps) && ActiveCount(ps) == 0 && !CoolingDown(cfg, ps, q.openedAt)
    requires Active(q) && q.closing.None? && q.deadline == DeadlineOf(cfg, q)
    ensures Ordered(cfg, ps + [q])
  {
    assert forall i :: 0 <= i < |ps| ==> !Active(ps[i]);
  }

  ghost predicate Step(before: seq<Position>, after: seq<Position>) {
    |before| <= |after| && forall i :: 0 <= i < |before| ==> Later(before[i], after[i])
  }

  lemma EvaluatedKeeps(cfg: SoundConfig, b: Book, c: Candle, news: bool)
    requires Ordered(cfg, b.positions)
    ensures var after := Evaluated(cfg, b, c, news).positions;
            && Ordered(cfg, after) && Step(b.positions, after)
            && forall i :: 0 <= i < |b.positions| && c.time >= DeadlineOf(cfg, b.positions[i]) ==>
                after[i].state != ProbeOpen
  {
    hide Settled, Managed, Labelled, Recorded, AssessAt, CoolingDown, FirstAfter;
    var ps := b.positions;
    var n := ActiveCount(ps);
    if n > 0 {
      OneActive(cfg, ps, n - 1);
      ManagedMoves(ps[n - 1], c, FirstAfter(b.m5, ps[n - 1].openedAt, c.time, FOLLOW_THROUGH_BARS));
      ReplacedLast(cfg, ps, Managed(ps[n - 1], c, FirstAfter(b.m5, ps[n - 1].openedAt, c.time, FOLLOW_THROUGH_BARS)));
    } else if !CoolingDown(cfg, ps, c.time) {
      var settled := b.(candidates := Settled(b.candidates, c));
      var e := AssessAt(cfg, settled, c, news);
      if e.Signal? && e.setup.reasons == [] { OpenedAfterCooldown(cfg, ps, Opened(cfg, e.setup, c.time)); }
    }
  }

  lemma EventKeeps(cfg: SoundConfig, b: Book, e: Event)
    requires Ordered(cfg, b.positions)
    ensures Ordered(cfg, Do(cfg, b, e).positions) && Step(b.positions, Do(cfg, b, e).positions)
  {
    hide Evaluated;
    match e
    case Arrive(frame, c, evaluate, news) =>
      EvaluatedKeeps(cfg, b.(m5 := b.m5[c.time := c]), c, news);
    case Reject(position, at) =>
      if position < |b.positions| && b.positions[position].state == ProbeOpen {
        OneActive(cfg, b.positions, position);
        ReplacedLast(cfg, b.positions, Rejected(b, position, at).positions[position]);
      }
  }

  // At every moment of every run there is at most one active position, and each position opened no earlier than every
  // earlier close plus the cooldown.
  lemma {:induction false} PositionsFollowOneAnother(cfg: SoundConfig, es: seq<Event>)
    ensures Ordered(cfg, Run(cfg, Book(map[], map[], [], map[]), es).positions)
  {
    hide Do;
    if es != [] {
      PositionsFollowOneAnother(cfg, es[..|es| - 1]);
      EventKeeps(cfg, Run(cfg, Book(map[], map[], [], map[]), es[..|es| - 1]), es[|es| - 1]);
    }
  }

  // Positions only move forward over any further run, and a closed one never changes again.
  lemma {:induction false} PositionsMoveForward(cfg: SoundConfig, b: Book, es: seq<Event>)
    requires Ordered(cfg, b.positions)
    ensures Ordered(cfg, Run(cfg, b, es).positions) && Step(b.positions, Run(cfg, b, es).positions)
  {
    hide Do;
    if es != [] {
      var before := Run(cfg, b, es[..|es| - 1]);
      PositionsMoveForward(cfg, b, es[..|es| - 1]);
      EventKeeps(cfg, before, es[|es| - 1]);
    }
  }

  // No probe outlives an evaluated candle at or past its deadline.
  lemma ProbesEndByDeadline(cfg: SoundConfig, es: seq<Event>, c: Candle, news: bool)
    requires ValidCandle(c) && c.time !in Run(cfg, Book(map[], map[], [], map[]), es).m5
    ensures var b := Run(cfg, Book(map[], map[], [], map[]), es);
            var after := Do(cfg, b, Arrive(M5, c, true, news));
            && |b.positions| <= |after.positions|
            && forall i :: 0 <= i < |b.positions| && c.time >= DeadlineOf(cfg, b.positions[i]) ==>
                 after.positions[i].state != ProbeOpen
  {
    hide Evaluated, Run;
    PositionsFollowOneAnother(cfg, es);
    var b := Run(cfg, Book(map[], map[], [], map[]), es);
    EvaluatedKeeps(cfg, b.(m5 := b.m5[c.time := c]), c, news);
  }
}

/** What a closed position can have earned, in multiples of the risk it took. */
module ResultBounds {
  import opened Basics
  import opened WaveMath
  import opened BreakoutQuality
  import opened CandleStore
  import opened StrategyRules
  import opened ProbeStrategy
  import opened PositionLifecycle

  predicate Between(p: Position, x: real) {
    if p.direction == Buy then p.stop < x < p.target else p.target < x < p.stop
  }

  predicate Sane(cfg: Config, p: Position) {
    && Between(p, p.probeEntry) && (p.mainEntry.Some? ==> Between(p, p.mainEntry.value))
    && Abs(p.target - p.probeEntry) == Abs(p.probeEntry - p.stop) * cfg.takeProfitR
  }

  // The recorded result of each kind of close; a close for missing follow-through is bounded for feeds in order.
  predicate WithinBounds(cfg: Config, p: Position, inOrder: bool) {
    p.closing.Some? ==>
      var end := p.closing.value;
      && (end.cause == StopLossHit ==> p.state == ClosedSl && end.price == Some(p.stop) && end.result == Some(-1.0))
      && (end.cause == TakeProfitHit ==>
           p.state == ClosedTp && end.price == Some(p.target) && end.result == Some(cfg.takeProfitR))
      && (end.cause == NoConfirmation ==>
           end.price.Some? && end.result.Some? && -0.5 < end.result.value < 0.5 * cfg.takeProfitR)
      && (inOrder && end.cause == NoFollowThrough ==>
           end.price.Some? && end.result.Some? && -1.0 < end.result.value < 2.0)
  }

  lemma CloseBetween(p: Position, c: Candle)
    requires ValidCandle(c) && !StopHit(p.direction, p.stop, c) && !TargetHit(p.direction, p.target, c)
    ensures Between(p, c.close)
  {
  }

  lemma QuotientBetween(x: real, risk: real, low: real, high: real)
    requires risk > 0.0 && low * risk < x < high * risk
    ensures low < Ratio(x, risk) < high
  {
    RatioBelow(x, risk, low);
    RatioBelow(x, risk, high);
  }

  lemma TargetPays(p: Position, r: real)
    requires Between(p, p.probeEntry) && Abs(p.target - p.probeEntry) == Abs(p.probeEntry - p.stop) * r
    ensures Ratio(Abs(p.target - p.probeEntry), Abs(p.probeEntry - p.stop)) == r
  {
    var risk := Abs(p.probeEntry - p.stop);
    assert risk * r / risk == r;
  }

  lemma UnconfirmedBounds(cfg: SoundConfig, p: Position, c: Candle)
    requires Sane(cfg, p) && Between(p, c.close)
    ensures -0.5 < Ratio(Signed(p.direction, c.close - p.probeEntry),
              Abs(p.probeEntry - p.stop)) * 0.5 < 0.5 * cfg.takeProfitR
  {
    var risk := Abs(p.probeEntry - p.stop);
    assert cfg.takeProfitR * risk == Abs(p.target - p.probeEntry);
    QuotientBetween(Signed(p.direction, c.close - p.probeEntry), risk, -1.0, cfg.takeProfitR);
  }

  // Less than half a risk unit of favourable movement keeps every price below that.
  lemma WeakMoveBounds(d: Direction, entry: real, stop: real, post: seq<Candle>, i: nat)
    requires i < |post| && entry != stop && MfeR(d, entry, stop, post) < 0.5 && ValidCandle(post[i])
    ensures Signed(d, post[i].close - entry) < 0.5 * Abs(entry - stop)
  {
    var risk := Abs(entry - stop);
    if d == Buy {
      RatioBelow(MaxOf(Highs(post)) - entry, risk, 0.5);
      assert Highs(post)[i] <= MaxOf(Highs(post));
    } else {
      RatioBelow(-(MinOf(Lows(post)) - entry), risk, 0.5);
      assert MinOf(Lows(post)) <= Lows(post)[i];
    }
  }

  lemma WeakCloseBounds(p: Position, c: Candle)
    requires Between(p, p.probeEntry) && Between(p, c.close) && (p.mainEntry.Some? ==> Between(p, p.mainEntry.value))
    requires Signed(p.direction, c.close - p.probeEntry) < 0.5 * Abs(p.probeEntry - p.stop)
    requires p.mainEntry.Some? ==>
              Signed(p.direction, p.mainEntry.value - p.probeEntry) < 0.5 * Abs(p.probeEntry - p.stop)
    ensures -1.0 < Ratio(Signed(p.direction, c.close - AverageEntry(p)), Abs(AverageEntry(p) - p.stop)) < 2.0
  {
    var entry := AverageEntry(p);
    QuotientBetween(Signed(p.direction, c.close - entry), Abs(entry - p.stop), -1.0, 2.0);
  }

  // The candles after the entry of an active position. Of the first six one has moved half a risk unit, or there are
  // fewer and the second entry was at one of their closes.
  ghost predicate Followed(p: Position, post: seq<Candle>) {
    if |post| >= FOLLOW_THROUGH_BARS then MfeR(p.direction, p.probeEntry, p.stop, post[..FOLLOW_THROUGH_BARS]) >= 0.5
    else p.mainEntry.Some? ==> exists i :: 0 <= i < |post| && p.mainEntry == Some(post[i].close)
  }

  ghost predicate AllValid(cs: seq<Candle>) {
    forall i :: 0 <= i < |cs| ==> ValidCandle(cs[i])
  }

  lemma SixStay(post: seq<Candle>, c: Candle)
    ensures |post| >= FOLLOW_THROUGH_BARS ==> (post + [c])[..FOLLOW_THROUGH_BARS] == post[..FOLLOW_THROUGH_BARS]
  {
  }

  lemma NoFollowThroughBounds(p: Position, c: Candle, post: seq<Candle>)
    requires Between(p, p.probeEntry) && Between(p, c.close) && (p.mainEntry.Some? ==> Between(p, p.mainEntry.value))
    requires Followed(p, post) && AllValid(post) && ValidCandle(c)
    requires var all := post + [c];
             |all| >= FOLLOW_THROUGH_BARS && MfeR(p.direction, p.probeEntry, p.stop, all[..FOLLOW_THROUGH_BARS]) < 0.5
    ensures -1.0 < Ratio(Signed(p.direction, c.close - AverageEntry(p)), Abs(AverageEntry(p) - p.stop)) < 2.0
  {
    hide MfeR, Ratio;
    var all := post + [c];
    SixStay(post, c);
    assert |post| < FOLLOW_THROUGH_BARS;
    assert all[..FOLLOW_THROUGH_BARS] == all;
    WeakMoveBounds(p.direction, p.probeEntry, p.stop, all, |post|);
    if p.mainEntry.Some? {
      var i :| 0 <= i < |post| && p.mainEntry == Some(post[i].close);
      assert all[i] == post[i];
      WeakMoveBounds(p.direction, p.probeEntry, p.stop, all, i);
    }
    WeakCloseBounds(p, c);
  }

  function FirstSix(cs: seq<Candle>): seq<Candle> {
    if |cs| <= FOLLOW_THROUGH_BARS then cs else cs[..FOLLOW_THROUGH_BARS]
  }

  // One management step, for any candle at all and then for one that comes next in order.
  lemma ManagedBounds(cfg: SoundConfig, p: Position, c: Candle, post: seq<Candle>)
    requires Sane(cfg, p) && p.closing.None? && Active(p) && ValidCandle(c)
    ensures Sane(cfg, Managed(p, c, post)) && WithinBounds(cfg, Managed(p, c, post), false)
  {
    hide MfeR, ConfirmMain, Ratio, LacksFollowThrough, AverageEntry, ValidCandle;
    TargetPays(p, cfg.takeProfitR);
    if !StopHit(p.direction, p.stop, c) && !TargetHit(p.direction, p.target, c) {
      CloseBetween(p, c);
      UnconfirmedBounds(cfg, p, c);
    }
  }

  lemma ManagedInOrder(cfg: SoundConfig, p: Position, c: Candle, post: seq<Candle>)
    requires Sane(cfg, p) && p.closing.None? && Active(p) && ValidCandle(c) && AllValid(post)
    requires Followed(p, post) && c.time >= p.openedAt + (|post| + 1) * BAR
    ensures var next := Managed(p, c, FirstSix(post + [c]));
            && Sane(cfg, next) && WithinBounds(cfg, next, true)
            && (Active(next) ==> Followed(next, post + [c]) && next.openedAt == p.openedAt)
  {
    hide MfeR, ConfirmMain, Ratio, Between;
    var all := post + [c];
    ManagedBounds(cfg, p, c, FirstSix(all));
    if !StopHit(p.direction, p.stop, c) && !TargetHit(p.direction, p.target, c) {
      CloseBetween(p, c);
      if |all| >= FOLLOW_THROUGH_BARS {
        assert FirstSix(all) == all[..FOLLOW_THROUGH_BARS];
        if MfeR(p.direction, p.probeEntry, p.stop, all[..FOLLOW_THROUGH_BARS]) < 0.5 {
          NoFollowThroughBounds(p, c, post);
        }
      } else {
        assert all[|post|] == c;
        if p.mainEntry.Some? {
          var i :| 0 <= i < |post| && p.mainEntry == Some(post[i].close);
          assert all[i] == post[i];
        }
      }
    }
  }

  // The candles stored after a position opened, oldest first.
  function Since(b: Book, p: Position): seq<Candle> {
    Ascending(b.m5, set t | t in b.m5 && t > p.openedAt)
  }

  ghost predicate AllSane(cfg: Config, ps: seq<Position>, inOrder: bool) {
    forall i :: 0 <= i < |ps| ==> Sane(cfg, ps[i]) && WithinBounds(cfg, ps[i], inOrder)
  }

  lemma OpenedSane(cfg: SoundConfig, b: Book, c: Candle, news: bool)
    requires AssessAt(cfg, b, c, news).Signal? && AssessAt(cfg, b, c, news).setup.reasons == []
    ensures var p := Opened(cfg, AssessAt(cfg, b, c, news).setup, c.time);
            Sane(cfg, p) && WithinBounds(cfg, p, true)
  {
    hide DetectRegime, DetectTrigger, Build, Recent;
    var m15, m5 := Recent(b.m15, c.time - 15 * MINUTE, 40), Recent(b.m5, c.time - 1, M5Window(cfg));
    var regime := DetectRegime(m15, cfg.emaFast, cfg.emaSlow, cfg.atrPeriod, cfg.minSeparation, cfg.minSlope).value;
    var trigger := DetectTrigger(Bias(regime), m5, c, cfg.breakoutPeriod).value;
    AcceptedHasRoom(cfg, regime, m5, c, trigger, news);
  }

  // Whatever the order of the candles, every entry lies strictly between stop and target and every other kind of
  // close stays within its bounds.
  lemma EvaluatedSane(cfg: SoundConfig, b: Book, c: Candle, news: bool)
    requires Ordered(cfg, b.positions) && AllSane(cfg, b.positions, false) && ValidCandle(c)
    ensures AllSane(cfg, Evaluated(cfg, b, c, news).positions, false)
  {
    hide Settled, Managed, Labelled, Recorded, AssessAt, CoolingDown, FirstAfter, Sane, WithinBounds;
    var settled := b.(candidates := Settled(b.candidates, c));
    var n := ActiveCount(b.positions);
    if n > 0 {
      var p := b.positions[n - 1];
      ManagedBounds(cfg, p, c, FirstAfter(b.m5, p.openedAt, c.time, FOLLOW_THROUGH_BARS));
    } else if !CoolingDown(cfg, b.positions, c.time) {
      var e := AssessAt(cfg, settled, c, news);
      if e.Signal? && e.setup.reasons == [] {
        OpenedSane(cfg, settled, c, news);
        WeakerBounds(cfg, Opened(cfg, e.setup, c.time));
      }
    }
  }

  lemma WeakerBounds(cfg: SoundConfig, p: Position)
    requires WithinBounds(cfg, p, true)
    ensures WithinBounds(cfg, p, false)
  {
  }

  lemma RejectedSane(cfg: SoundConfig, p: Position, at: int, inOrder: bool)
    requires Sane(cfg, p)
    ensures var q := p.(state := ClosedTimeout, closing := Some(Closing(at, None, ProbeRejected, None)));
            Sane(cfg, q) && WithinBounds(cfg, q, inOrder)
  {
  }

  lemma {:induction false} ResultsBounded(cfg: SoundConfig, es: seq<Event>)
    ensures AllSane(cfg, Run(cfg, Book(map[], map[], [], map[]), es).positions, false)
  {
    hide Evaluated, Sane, WithinBounds;
    if es != [] {
      var before := Run(cfg, Book(map[], map[], [], map[]), es[..|es| - 1]);
      ResultsBounded(cfg, es[..|es| - 1]);
      PositionsFollowOneAnother(cfg, es[..|es| - 1]);
      match es[|es| - 1]
      case Arrive(frame, c, evaluate, news) =>
        if ValidCandle(c) { EvaluatedSane(cfg, before.(m5 := before.m5[c.time := c]), c, news); }
      case Reject(position, at) =>
        if position < |before.positions| { RejectedSane(cfg, before.positions[position], at, false); }
    }
  }
}

/**
 * Feeds in order: every M5 candle is new and opened at least one bar after the one before. History may come first,
 * which is not evaluated; from then on every M5 candle is.
 */
module OrderedFeed {
  import opened Basics
  import opened WaveMath
  import opened CandleStore
  import opened StrategyRules
  import opened ProbeStrategy
  import opened PositionLifecycle
  import opened ResultBounds

  predicate IsBar(e: Event) {
    e.Arrive? && e.timeframe == M5
  }

  // The opening time of the last M5 candle, or the starting time.
  function Newest(es: seq<Event>, start: int): int {
    if es == [] then start
    else if IsBar(es[|es| - 1]) then es[|es| - 1].candle.time else Newest(es[..|es| - 1], start)
  }

  // Whether some M5 candle has been evaluated.
  predicate Live(es: seq<Event>) {
    es != [] && (Live(es[..|es| - 1]) || (IsBar(es[|es| - 1]) && es[|es| - 1].evaluate))
  }

  predicate Feed(es: seq<Event>, start: int) {
    es == [] || (&& Feed(es[..|es| - 1], start)
                 && (IsBar(es[|es| - 1]) ==>
                      && (Live(es[..|es| - 1]) ==> es[|es| - 1].evaluate) && ValidCandle(es[|es| - 1].candle)
                      && es[|es| - 1].candle.time >= Newest(es[..|es| - 1], start) + BAR))
  }

  function Start(): Book {
    Book(map[], map[], [], map[])
  }

  lemma AscendingAppend(store: Store, keys: set<int>, t: int, c: Candle)
    requires keys <= store.Keys && forall k :: k in keys ==> k < t
    ensures Ascending(store[t := c], keys + {t}) == Ascending(store, keys) + [c]
  {
    assert (keys + {t}) - {t} == keys;
    assert Largest(keys + {t}) == t;
    AscendingAgrees(store[t := c], store, keys);
  }

  lemma {:induction false} AscendingValid(store: Store, keys: set<int>)
    requires keys <= store.Keys && forall t :: t in keys ==> ValidCandle(store[t])
    ensures AllValid(Ascending(store, keys))
    decreases |keys|
  {
    if keys != {} { AscendingValid(store, keys - {Largest(keys)}); }
  }

  ghost predicate Past(store: Store, last: int) {
    forall t :: t in store ==> t <= last && ValidCandle(store[t])
  }

  ghost predicate OnTrack(b: Book, p: Position, last: int) {
    Active(p) ==> p.openedAt + |Since(b, p)| * BAR <= last && Followed(p, Since(b, p))
  }

  ghost predicate Tracked(b: Book, last: int) {
    Past(b.m5, last) && forall i :: 0 <= i < |b.positions| ==> OnTrack(b, b.positions[i], last)
  }

  // A candle that comes next is the newest of those after the entry, and the first six are what the query returns.
  lemma NextBar(b: Book, p: Position, c: Candle, last: int)
    requires Past(b.m5, last) && p.openedAt <= last < c.time
    ensures Since(b.(m5 := b.m5[c.time := c]), p) == Since(b, p) + [c]
    ensures FirstAfter(b.m5[c.time := c], p.openedAt, c.time, FOLLOW_THROUGH_BARS) == FirstSix(Since(b, p) + [c])
    ensures AllValid(Since(b, p))
  {
    hide Ascending;
    var store := b.m5[c.time := c];
    var keys := set t | t in b.m5 && t > p.openedAt;
    AscendingAppend(b.m5, keys, c.time, c);
    AscendingValid(b.m5, keys);
    assert (set t | t in store && t > p.openedAt) == keys + {c.time};
    assert Within(store, p.openedAt, c.time) == keys + {c.time};
  }

  lemma NothingSince(b: Book, p: Position, last: int)
    requires Past(b.m5, last) && p.openedAt >= last
    ensures Since(b, p) == []
  {
    assert (set t | t in b.m5 && t > p.openedAt) == {};
  }

  lemma ManagedOnTrack(cfg: SoundConfig, b: Book, p: Position, c: Candle, last: int)
    requires Sane(cfg, p) && p.closing.None? && Active(p) && ValidCandle(c)
    requires Past(b.m5, last) && OnTrack(b, p, last) && c.time >= last + BAR
    ensures var stored := b.(m5 := b.m5[c.time := c]);
            var next := Managed(p, c, FirstAfter(stored.m5, p.openedAt, c.time, FOLLOW_THROUGH_BARS));
            Sane(cfg, next) && WithinBounds(cfg, next, true) && OnTrack(stored, next, c.time)
  {
    hide FirstAfter, Managed, Sane, WithinBounds, Followed, FirstSix, Past;
    NextBar(b, p, c, last);
    ManagedInOrder(cfg, p, c, Since(b, p));
    var next := Managed(p, c, FirstSix(Since(b, p) + [c]));
    if Active(next) {
      assert Since(b.(m5 := b.m5[c.time := c]), next) == Since(b.(m5 := b.m5[c.time := c]), p);
    }
  }

  lemma BarKeeps(cfg: SoundConfig, b: Book, c: Candle, news: bool, last: int)
    requires Ordered(cfg, b.positions) && AllSane(cfg, b.positions, true) && Tracked(b, last)
    requires ValidCandle(c) && c.time >= last + BAR
    ensures var after := Evaluated(cfg, b.(m5 := b.m5[c.time := c]), c, news);
            AllSane(cfg, after.positions, true) && Tracked(after, c.time)
  {
    hide Settled, Managed, Labelled, Recorded, AssessAt, CoolingDown, FirstAfter, Sane, WithinBounds, Followed, Since;
    var stored := b.(m5 := b.m5[c.time := c]);
    var settled := stored.(candidates := Settled(b.candidates, c));
    var after := Evaluated(cfg, stored, c, news);
    var n := ActiveCount(b.positions);
    assert Past(after.m5, c.time);
    if n > 0 {
      OneActive(cfg, b.positions, n - 1);
      ManagedOnTrack(cfg, b, b.positions[n - 1], c, last);
      SameSince(stored, after, after.positions[n - 1]);
    } else if !CoolingDown(cfg, b.positions, c.time) {
      var e := AssessAt(cfg, settled, c, news);
      if e.Signal? && e.setup.reasons == [] {
        OpenedSane(cfg, settled, c, news);
        OpenedOnTrack(cfg, after, e.setup, c.time);
      }
    }
  }

  lemma SameSince(a: Book, b: Book, p: Position)
    requires a.m5 == b.m5
    ensures Since(a, p) == Since(b, p)
  {
  }

  lemma OpenedOnTrack(cfg: SoundConfig, b: Book, s: Setup, time: int)
    requires Past(b.m5, time)
    ensures OnTrack(b, Opened(cfg, s, time), time)
  {
    NothingSince(b, Opened(cfg, s, time), time);
  }

  lemma OtherKeeps(cfg: SoundConfig, b: Book, e: Event, last: int)
    requires AllSane(cfg, b.positions, true) && Tracked(b, last) && !IsBar(e)
    ensures AllSane(cfg, Do(cfg, b, e).positions, true) && Tracked(Do(cfg, b, e), last)
  {
    hide Sane, WithinBounds, Followed, Since;
    var after := Do(cfg, b, e);
    assert after.m5 == b.m5;
    forall i | 0 <= i < |after.positions| ensures OnTrack(after, after.positions[i], last) {
      SameSince(b, after, after.positions[i]);
    }
    if e.Reject? && e.position < |b.positions| { RejectedSane(cfg, b.positions[e.position], e.at, true); }
  }

  // On a feed in order a close for missing follow-through earns more than -1 and less than 2; every other bound holds
  // too.
  lemma {:induction false} OrderedResultsBounded(cfg: SoundConfig, es: seq<Event>, start: int)
    requires Feed(es, start)
    ensures AllSane(cfg, Run(cfg, Start(), es).positions, true)
    ensures Tracked(Run(cfg, Start(), es), Newest(es, start))
    ensures !Live(es) ==> Run(cfg, Start(), es).positions == [] && Run(cfg, Start(), es).candidates == map[]
  {
    hide Evaluated, AllSane, Tracked, Ordered;
    if es == [] {
      StartTracked(cfg, start);
    } else {
      var before, e := Run(cfg, Start(), es[..|es| - 1]), es[|es| - 1];
      OrderedResultsBounded(cfg, es[..|es| - 1], start);
      PositionsFollowOneAnother(cfg, es[..|es| - 1]);
      if IsBar(e) {
        NewBar(before, Newest(es[..|es| - 1], start), e.candle.time);
        if e.evaluate {
          BarKeeps(cfg, before, e.candle, e.news, Newest(es[..|es| - 1], start));
        } else {
          HistoryKeeps(cfg, before, e.candle, Newest(es[..|es| - 1], start));
        }
      } else {
        OtherKeeps(cfg, before, e, Newest(es[..|es| - 1], start));
      }
    }
  }

  lemma HistoryKeeps(cfg: SoundConfig, b: Book, c: Candle, last: int)
    requires b.positions == [] && Tracked(b, last) && ValidCandle(c) && c.time >= last
    ensures var stored := b.(m5 := b.m5[c.time := c]);
            AllSane(cfg, stored.positions, true) && Tracked(stored, c.time)
  {
  }

  lemma StartTracked(cfg: SoundConfig, start: int)
    ensures AllSane(cfg, Start().positions, true) && Tracked(Start(), start)
  {
  }

  lemma NewBar(b: Book, last: int, time: int)
    requires Tracked(b, last) && time > last
    ensures time !in b.m5
  {
  }
}

/** The labels of candidates that were not traded, against their definition on the whole later history. */
module StreamingLabels {
  import opened Basics
  import opened WaveMath
  import opened CandleStore
  import opened StrategyRules
  import opened ProbeStrategy
  import opened OrderedFeed

  datatype Label = Label(outcome: Outcome, at: int)

  // What one candle decides: the stop wins a candle that touches both barriers.
  function Verdict(s: Setup, expires: int, c: Candle): Option<Label> {
    if StopHit(s.direction, s.stop, c) then Some(Label(Sl, c.time))
    else if TargetHit(s.direction, s.target, c) then Some(Label(Tp, c.time))
    else if c.time >= expires then Some(Label(Timeout, c.time)) else None
  }

  // The first candle that decides anything.
  function FirstVerdict(s: Setup, expires: int, cs: seq<Candle>): Option<Label> {
    if cs == [] then None
    else if Verdict(s, expires, cs[0]).Some? then Verdict(s, expires, cs[0])
    else FirstVerdict(s, expires, cs[1..])
  }

  // The M5 candles of a feed that opened after a time.
  function BarsAfter(es: seq<Event>, t: int): seq<Candle> {
    if es == [] then []
    else
      BarsAfter(es[..|es| - 1], t)
      + (if IsBar(es[|es| - 1]) && es[|es| - 1].candle.time > t then [es[|es| - 1].candle] else [])
  }

  predicate Carries(cand: Candidate, known: Option<Label>) {
    && cand.outcome == (if known.None? then None else Some(known.value.outcome))
    && cand.resolvedAt == (if known.None? then None else Some(known.value.at))
  }

  lemma {:induction false} VerdictAppend(s: Setup, expires: int, cs: seq<Candle>, c: Candle)
    ensures FirstVerdict(s, expires, cs + [c])
            == if FirstVerdict(s, expires, cs).Some? then FirstVerdict(s, expires, cs) else Verdict(s, expires, c)
  {
    if cs != [] {
      VerdictAppend(s, expires, cs[1..], c);
      assert (cs + [c])[1..] == cs[1..] + [c];
    }
  }

  lemma {:induction false} NoBarsAfter(es: seq<Event>, start: int, t: int)
    requires Feed(es, start) && t >= Newest(es, start)
    ensures BarsAfter(es, t) == []
  {
    if es != [] { NoBarsAfter(es[..|es| - 1], start, t); }
  }

  lemma {:induction false} SpacedCount(times: set<int>, low: int, high: int)
    requires times != {} && forall t :: t in times ==> low <= t <= high
    requires forall t, u :: t in times && u in times && t < u ==> t + BAR <= u
    ensures |times| * BAR <= high - low + BAR
    decreases |times|
  {
    var m := Largest(times);
    var rest := times - {m};
    assert times == rest + {m} && |times| == |rest| + 1;
    if rest == {} {
      assert |rest| == 0;
    } else {
      SpacedCount(rest, low, m - BAR);
    }
  }

  // Every open candidate is younger than its horizon, and candidates are at least a bar apart.
  ghost predicate Young(cfg: Config, cs: map<int, Candidate>, last: int) {
    && (forall t :: t in cs ==> t <= last && cs[t].expires == t + cfg.horizonBars * BAR)
    && (forall t :: t in cs && cs[t].outcome.None? ==> last < cs[t].expires || t == last)
    && (forall t, u :: t in cs && u in cs && t < u ==> t + BAR <= u)
  }

  // The batch of one hundred leaves nobody out.
  lemma BatchHoldsAll(cfg: Config, cs: map<int, Candidate>, t: int, last: int, time: int)
    requires Young(cfg, cs, last) && cfg.horizonBars <= SETTLE_BATCH && last < time
    requires t in cs && cs[t].outcome.None?
    ensures InBatch(cs, t, time)
  {
    var earlier := set u | u in DueTimes(cs, time) && u < t;
    if earlier != {} { SpacedCount(earlier, last - cfg.horizonBars * BAR + 1, last - BAR); }
  }

  lemma SettledYoung(cfg: Config, cs: map<int, Candidate>, c: Candle, last: int)
    requires Young(cfg, cs, last) && cfg.horizonBars <= SETTLE_BATCH && c.time >= last + BAR
    ensures Young(cfg, Settled(cs, c), c.time) && Settled(cs, c).Keys == cs.Keys
    ensures forall t :: t in cs ==> Settled(cs, c)[t] == if cs[t].outcome.None? then Resolved(cs[t], c) else cs[t]
  {
    forall t | t in cs
      ensures Settled(cs, c)[t] == if cs[t].outcome.None? then Resolved(cs[t], c) else cs[t]
    {
      if cs[t].outcome.None? { BatchHoldsAll(cfg, cs, t, last, c.time); }
    }
  }

  ghost predicate Batched(cs: map<int, Candidate>, es: seq<Event>) {
    forall t :: t in cs && !cs[t].execute ==> Carries(cs[t], FirstVerdict(cs[t].setup, cs[t].expires, BarsAfter(es, t)))
  }

  lemma ResolvedCarries(cand: Candidate, before: Option<Label>, c: Candle)
    requires Carries(cand, before)
    ensures Carries(if cand.outcome.None? then Resolved(cand, c) else cand,
                    if before.Some? then before else Verdict(cand.setup, cand.expires, c))
  {
  }

  lemma SettledBatched(cfg: Config, cs: map<int, Candidate>, es: seq<Event>, e: Event, last: int)
    requires Batched(cs, es) && Young(cfg, cs, last) && cfg.horizonBars <= SETTLE_BATCH
    requires IsBar(e) && e.candle.time >= last + BAR
    ensures Batched(Settled(cs, e.candle), es + [e])
  {
    hide Young, FirstVerdict, Verdict, Settled, Resolved, Carries;
    SettledYoung(cfg, cs, e.candle, last);
    var after := Settled(cs, e.candle);
    forall t | t in after && !after[t].execute
      ensures Carries(after[t], FirstVerdict(after[t].setup, after[t].expires, BarsAfter(es + [e], t)))
    {
      SameSetup(cs[t], e.candle);
      OlderThan(cfg, cs, t, last);
      assert (es + [e])[..|es|] == es;
      assert BarsAfter(es + [e], t) == BarsAfter(es, t) + [e.candle];
      VerdictAppend(cs[t].setup, cs[t].expires, BarsAfter(es, t), e.candle);
      ResolvedCarries(cs[t], FirstVerdict(cs[t].setup, cs[t].expires, BarsAfter(es, t)), e.candle);
    }
  }

  lemma SameSetup(cand: Candidate, c: Candle)
    ensures Resolved(cand, c).setup == cand.setup && Resolved(cand, c).expires == cand.expires
    ensures Resolved(cand, c).execute == cand.execute
  {
  }

  lemma OlderThan(cfg: Config, cs: map<int, Candidate>, t: int, last: int)
    requires Young(cfg, cs, last) && t in cs
    ensures t <= last
  {
  }

  // Deciding on a candle touches no candidate that was not traded, except that it may add one.
  lemma DecidedLabels(cfg: SoundConfig, b: Book, c: Candle, news: bool)
    requires c.time !in b.candidates
    ensures var after := Decided(cfg, b, c, news).candidates;
            && b.candidates.Keys <= after.Keys
            && (forall t :: t in b.candidates && after[t] != b.candidates[t] ==>
                 && b.candidates[t].execute && after[t].execute && after[t].outcome.Some?
                 && after[t].expires == b.candidates[t].expires)
            && (forall t :: t in after && t !in b.candidates ==>
                 t == c.time && after[t].expires == t + cfg.horizonBars * BAR && Carries(after[t], None))
  {
    hide Managed, AssessAt, CoolingDown, FirstAfter, Opened;
  }

  lemma DecidedYoung(cfg: SoundConfig, b: Book, c: Candle, news: bool, last: int)
    requires Young(cfg, b.candidates, c.time) && c.time >= last + BAR && forall t :: t in b.candidates ==> t <= last
    ensures Young(cfg, Decided(cfg, b, c, news).candidates, c.time)
  {
    hide Decided;
    DecidedLabels(cfg, b, c, news);
  }

  lemma DecidedBatched(cfg: SoundConfig, b: Book, es: seq<Event>, start: int, c: Candle, news: bool)
    requires Batched(b.candidates, es) && c.time !in b.candidates && Feed(es, start) && Newest(es, start) == c.time
    ensures Batched(Decided(cfg, b, c, news).candidates, es)
  {
    hide Decided, Carries;
    DecidedLabels(cfg, b, c, news);
    NoBarsAfter(es, start, c.time);
  }

  lemma OtherLabels(cfg: SoundConfig, b: Book, es: seq<Event>, e: Event)
    requires Batched(b.candidates, es) && !IsBar(e)
    ensures Do(cfg, b, e).candidates == b.candidates && Batched(b.candidates, es + [e])
  {
    hide FirstVerdict, Carries;
    assert (es + [e])[..|es|] == es;
    assert forall t :: BarsAfter(es + [e], t) == BarsAfter(es, t);
  }

  lemma BarLabels(cfg: SoundConfig, b: Book, es: seq<Event>, e: Event, start: int)
    requires Feed(es + [e], start) && Feed(es, start) && IsBar(e) && cfg.horizonBars <= SETTLE_BATCH
    requires e.evaluate && ValidCandle(e.candle) && e.candle.time >= Newest(es, start) + BAR
    requires Newest(es + [e], start) == e.candle.time && e.candle.time !in b.m5
    requires Young(cfg, b.candidates, Newest(es, start)) && Batched(b.candidates, es)
    ensures Young(cfg, Do(cfg, b, e).candidates, e.candle.time) && Batched(Do(cfg, b, e).candidates, es + [e])
  {
    var c, last := e.candle, Newest(es, start);
    SettledYoung(cfg, b.candidates, c, last);
    SettledBatched(cfg, b.candidates, es, e, last);
    var settled := Book(b.m5[c.time := c], b.m15, b.positions, Settled(b.candidates, c));
    assert forall t :: t in settled.candidates ==> t <= last;
    hide Settled, Decided, Feed, Newest, Young, Batched;
    DecidedYoung(cfg, settled, c, e.news, last);
    DecidedBatched(cfg, settled, es + [e], start, c, e.news);
  }

  // On a feed in order the stored label of every candidate that was not traded is the first barrier a later candle
  // touched, the stop winning ties, or a timeout at the first candle past the horizon.
  lemma {:induction false} LabelsAreFirstVerdicts(cfg: SoundConfig, es: seq<Event>, start: int)
    requires Feed(es, start) && cfg.horizonBars <= SETTLE_BATCH
    ensures Batched(Run(cfg, Start(), es).candidates, es)
    ensures Young(cfg, Run(cfg, Start(), es).candidates, Newest(es, start))
  {
    hide Evaluated, Batched, Young, Tracked;
    if es == [] {
      NothingLabelled(cfg, es, start);
    } else {
      var front, e := es[..|es| - 1], es[|es| - 1];
      var before := Run(cfg, Start(), front);
      LabelsAreFirstVerdicts(cfg, front, start);
      assert front + [e] == es;
      if IsBar(e) {
        OrderedResultsBounded(cfg, front, start);
        NewBar(before, Newest(front, start), e.candle.time);
        if e.evaluate { BarLabels(cfg, before, front, e, start); } else { NothingLabelled(cfg, es, e.candle.time); }
      } else {
        OtherLabels(cfg, before, front, e);
      }
    }
  }

  lemma NothingLabelled(cfg: SoundConfig, es: seq<Event>, last: int)
    ensures Batched(map[], es) && Young(cfg, map[], last)
  {
  }

  // In any run at all, a label once set on a candidate that was not traded never changes.
  lemma {:induction false} LabelsAreFinal(cfg: SoundConfig, b: Book, es: seq<Event>, t: int)
    requires b.candidates.Keys <= b.m5.Keys && t in b.candidates
    requires !b.candidates[t].execute && b.candidates[t].outcome.Some?
    ensures var after := Run(cfg, b, es);
            after.candidates.Keys <= after.m5.Keys && t in after.candidates && after.candidates[t] == b.candidates[t]
  {
    hide Do;
    if es != [] {
      LabelsAreFinal(cfg, b, es[..|es| - 1], t);
      LabelStays(cfg, Run(cfg, b, es[..|es| - 1]), es[|es| - 1], t);
    }
  }

  lemma LabelStays(cfg: SoundConfig, b: Book, e: Event, t: int)
    requires b.candidates.Keys <= b.m5.Keys && t in b.candidates
    requires !b.candidates[t].execute && b.candidates[t].outcome.Some?
    ensures var after := Do(cfg, b, e);
            after.candidates.Keys <= after.m5.Keys && t in after.candidates && after.candidates[t] == b.candidates[t]
  {
    hide Decided;
    if e.Arrive? && IsBar(e) && e.candle.time !in b.m5 {
      var settled := Book(b.m5[e.candle.time := e.candle], b.m15, b.positions, Settled(b.candidates, e.candle));
      DecidedLabels(cfg, settled, e.candle, e.news);
      DecidedStores(cfg, settled, e.candle, e.news);
    }
  }

  lemma DecidedStores(cfg: SoundConfig, b: Book, c: Candle, news: bool)
    ensures Decided(cfg, b, c, news).m5 == b.m5
  {
  }
}

/** The labels of candidates that were traded follow their positions. */
module ExecutedLabels {
  import opened Basics
  import opened WaveMath
  import opened CandleStore
  import opened StrategyRules
  import opened ProbeStrategy
  import opened PositionLifecycle

  // A position closed by the strategy itself; a refused probe has no result.
  predicate Settles(p: Position) {
    !Active(p) && p.closing.Some? && p.closing.value.result.Some?
  }

  // A position trades what its candidate decided.
  predicate Trades(p: Position, s: Setup) {
    && p.direction == s.direction && p.level == s.level && p.atr == s.atr && p.probeEntry == s.entry
    && p.stop == s.stop && p.target == s.target && s.reasons == []
  }

  predicate Follows(b: Book, p: Position) {
    && p.openedAt in b.candidates && b.candidates[p.openedAt].execute && Trades(p, b.candidates[p.openedAt].setup)
    && (Settles(p) ==>
         && b.candidates[p.openedAt].outcome == Some(OutcomeOf(p))
         && b.candidates[p.openedAt].resolvedAt == Some(p.closing.value.at))
  }

  ghost predicate AllFollow(b: Book) {
    && b.candidates.Keys <= b.m5.Keys
    && (forall i :: 0 <= i < |b.positions| ==> Follows(b, b.positions[i]))
    && (forall i, j :: 0 <= i < j < |b.positions| ==> b.positions[i].openedAt != b.positions[j].openedAt)
  }

  lemma SettledFollow(b: Book, c: Candle)
    requires AllFollow(b)
    ensures AllFollow(b.(candidates := Settled(b.candidates, c)))
  {
    hide Settled;
    SettledKeys(b.candidates, c);
    var after := b.(candidates := Settled(b.candidates, c));
    forall i | 0 <= i < |after.positions| ensures Follows(after, after.positions[i]) {
      assert Follows(b, b.positions[i]);
    }
  }

  lemma ManagedEnds(p: Position, c: Candle, post: seq<Candle>)
    requires Active(p) && p.closing.None?
    ensures var next := Managed(p, c, post);
            && (forall s :: Trades(p, s) ==> Trades(next, s)) && next.openedAt == p.openedAt
            && (if Active(next) then next.closing.None? else Settles(next) && next.closing.value.at == c.time)
  {
    hide MfeR, ConfirmMain;
  }

  // Closing one position labels its own candidate and leaves the others.
  lemma LabelledFollow(b: Book, n: nat, next: Position, time: int)
    requires AllFollow(b) && n < |b.positions| && next.openedAt == b.positions[n].openedAt
    requires forall s :: Trades(b.positions[n], s) ==> Trades(next, s)
    requires Settles(next) && next.closing.value.at == time
    ensures AllFollow(b.(positions := b.positions[n := next], candidates := Labelled(b.candidates, next, time)))
  {
    hide OutcomeOf;
    assert Follows(b, b.positions[n]);
    var after := b.(positions := b.positions[n := next], candidates := Labelled(b.candidates, next, time));
    forall i | 0 <= i < |after.positions| ensures Follows(after, after.positions[i]) {
      assert Follows(b, b.positions[i]);
    }
  }

  lemma DecidedFollow(cfg: SoundConfig, b: Book, c: Candle, news: bool)
    requires AllFollow(b) && Ordered(cfg, b.positions) && c.time in b.m5 && c.time !in b.candidates
    ensures AllFollow(Decided(cfg, b, c, news))
  {
    hide Managed, AssessAt, CoolingDown, FirstAfter;
    var n := ActiveCount(b.positions);
    if n > 0 {
      var p := b.positions[n - 1];
      var next := Managed(p, c, FirstAfter(b.m5, p.openedAt, c.time, FOLLOW_THROUGH_BARS));
      ManagedEnds(p, c, FirstAfter(b.m5, p.openedAt, c.time, FOLLOW_THROUGH_BARS));
      assert Follows(b, p);
      if !Active(next) { LabelledFollow(b, n - 1, next, c.time); }
    }
  }

  lemma RejectedFollow(b: Book, position: nat, at: int)
    requires AllFollow(b)
    ensures AllFollow(Rejected(b, position, at))
  {
    if position < |b.positions| { assert Follows(b, b.positions[position]); }
  }

  // In every run, a position closed by the strategy has given the candidate it was opened from its own outcome and
  // time.
  lemma {:induction false} LabelsFollowPositions(cfg: SoundConfig, es: seq<Event>)
    ensures AllFollow(Run(cfg, Book(map[], map[], [], map[]), es))
  {
    hide Decided, Settled, Follows;
    if es != [] {
      var b, e := Run(cfg, Book(map[], map[], [], map[]), es[..|es| - 1]), es[|es| - 1];
      LabelsFollowPositions(cfg, es[..|es| - 1]);
      PositionsFollowOneAnother(cfg, es[..|es| - 1]);
      match e
      case Reject(position, at) => RejectedFollow(b, position, at);
      case Arrive(frame, c, evaluate, news) =>
        var stored := b.(m5 := b.m5[c.time := c]);
        StoredFollow(b, stored);
        StoredFollow(b, b.(m15 := b.m15[c.time := c]));
        if c.time !in b.m5 {
          SettledFollow(stored, c);
          SettledKeys(b.candidates, c);
          DecidedFollow(cfg, stored.(candidates := Settled(b.candidates, c)), c, news);
        }
    }
  }

  lemma StoredFollow(b: Book, after: Book)
    requires AllFollow(b) && b.positions == after.positions && b.candidates == after.candidates
              && b.m5.Keys <= after.m5.Keys
    ensures AllFollow(after)
  {
    forall i | 0 <= i < |after.positions| ensures Follows(after, after.positions[i]) {
      assert Follows(b, b.positions[i]);
    }
  }

  lemma SettledKeys(cs: map<int, Candidate>, c: Candle)
    ensures Settled(cs, c).Keys == cs.Keys
    ensures forall t :: t in cs ==> Settled(cs, c)[t].execute == cs[t].execute && Settled(cs, c)[t].setup == cs[t].setup
    ensures forall t :: t in cs && cs[t].outcome.Some? ==> Settled(cs, c)[t] == cs[t]
  {
    hide BarrierOutcome;
  }
}
