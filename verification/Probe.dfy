/** The Strategy V4 service for one configuration and one candle source: its rows and what each call does to them. */
module ProbeStrategy {
  import opened Basics
  import opened WaveMath
  import opened CandleStore
  import opened StrategyRules

  datatype PositionState = ProbeOpen | MainAdded | ClosedTp | ClosedSl | ClosedTimeout

  datatype Cause = StopLossHit | TakeProfitHit | NoFollowThrough | NoConfirmation | ProbeRejected

  // A rejected probe is closed without a price and a result.
  datatype Closing = Closing(at: int, price: Option<real>, cause: Cause, result: Option<real>)

  datatype Position = Position(
    direction: Direction, state: PositionState, level: real, atr: real, probeEntry: real, mainEntry: Option<real>,
    stop: real, target: real, deadline: int, openedAt: int, closing: Option<Closing>)

  datatype Outcome = Tp | Sl | Timeout

  datatype Candidate = Candidate(
    setup: Setup, execute: bool, expires: int, outcome: Option<Outcome>, resolvedAt: Option<int>)

  datatype Book = Book(m5: Store, m15: Store, positions: seq<Position>, candidates: map<int, Candidate>)

  const FOLLOW_THROUGH_BARS: nat := 6
  const SETTLE_BATCH: nat := 100

  predicate Active(p: Position) {
    p.state == ProbeOpen || p.state == MainAdded
  }

  // The newest active position, as the number of positions up to and including it; 0 without one.
  function ActiveCount(ps: seq<Position>): (n: nat)
    ensures n <= |ps| && (n > 0 ==> Active(ps[n - 1]))
    ensures forall i :: n <= i < |ps| ==> !Active(ps[i])
  {
    if ps == [] then 0 else if Active(ps[|ps| - 1]) then |ps| else ActiveCount(ps[..|ps| - 1])
  }

  // The latest closing time, if any position was closed.
  function LastClosed(ps: seq<Position>): (at: Option<int>)
    ensures forall i :: 0 <= i < |ps| && ps[i].closing.Some? ==> at.Some? && ps[i].closing.value.at <= at.value
    ensures at.Some? ==> exists i :: 0 <= i < |ps| && ps[i].closing.Some? && ps[i].closing.value.at == at.value
  {
    if ps == [] then None
    else
      var before, p := LastClosed(ps[..|ps| - 1]), ps[|ps| - 1];
      if p.closing.None? || (before.Some? && before.value >= p.closing.value.at) then before
      else Some(p.closing.value.at)
  }

  predicate CoolingDown(cfg: Config, ps: seq<Position>, time: int) {
    LastClosed(ps).Some? && time < LastClosed(ps).value + cfg.cooldownBars * BAR
  }

  predicate ValidCandle(c: Candle) {
    && c.low <= Min2(c.open, c.close) && Max2(c.open, c.close) <= c.high && c.low <= c.high
    && (c.volume.Some? ==> c.volume.value >= 0.0)
  }

  function Ratio(x: real, y: real): real {
    if y == 0.0 then 0.0 else x / y
  }

  function Signed(d: Direction, x: real): real {
    if d == Buy then x else -x
  }

  function Closed(p: Position, state: PositionState, at: int, price: real, cause: Cause, result: real): Position {
    p.(state := state, closing := Some(Closing(at, Some(price), cause, Some(result))))
  }

  function AverageEntry(p: Position): real {
    if p.mainEntry.None? then p.probeEntry else (p.probeEntry + p.mainEntry.value) / 2.0
  }

  predicate LacksFollowThrough(p: Position, c: Candle, post: seq<Candle>) {
    && c.time >= p.openedAt + FOLLOW_THROUGH_BARS * BAR && |post| >= FOLLOW_THROUGH_BARS
    && MfeR(p.direction, p.probeEntry, p.stop, post) < 0.5
  }

  // One candle on an active position; `post` holds the first candles after its entry.
  function Managed(p: Position, c: Candle, post: seq<Candle>): Position {
    if StopHit(p.direction, p.stop, c) then Closed(p, ClosedSl, c.time, p.stop, StopLossHit, -1.0)
    else if TargetHit(p.direction, p.target, c) then
      Closed(p, ClosedTp, c.time, p.target, TakeProfitHit,
             Ratio(Abs(p.target - p.probeEntry), Abs(p.probeEntry - p.stop)))
    else if LacksFollowThrough(p, c, post) then
      Closed(p, ClosedTimeout, c.time, c.close, NoFollowThrough,
             Ratio(Signed(p.direction, c.close - AverageEntry(p)), Abs(AverageEntry(p) - p.stop)))
    else if p.state != ProbeOpen then p
    else if ConfirmMain(p.direction, c, p.level, p.probeEntry, p.atr).Some? then
      p.(state := MainAdded, mainEntry := Some(c.close))
    else if c.time >= p.deadline then
      Closed(p, ClosedTimeout, c.time, c.close, NoConfirmation,
             Ratio(Signed(p.direction, c.close - p.probeEntry), Abs(p.probeEntry - p.stop)) * 0.5)
    else p
  }

  predicate Due(c: Candidate, at: int, time: int) {
    c.outcome.None? && at < time
  }

  function DueTimes(cs: map<int, Candidate>, time: int): set<int> {
    set t | t in cs && Due(cs[t], t, time)
  }

  // The oldest due candidates that one batch reads.
  predicate InBatch(cs: map<int, Candidate>, t: int, time: int) {
    t in DueTimes(cs, time) && |set u | u in DueTimes(cs, time) && u < t| < SETTLE_BATCH
  }

  function Resolved(cand: Candidate, c: Candle): Candidate {
    var barrier := BarrierOutcome(cand.setup.direction, cand.setup.stop, cand.setup.target, c);
    var outcome := if barrier.Some? then Some(if barrier.value == StopLoss then Sl else Tp)
                   else if c.time >= cand.expires then Some(Timeout) else None;
    if outcome.None? then cand else cand.(outcome := outcome, resolvedAt := Some(c.time))
  }

  function Settled(cs: map<int, Candidate>, c: Candle): map<int, Candidate> {
    map t | t in cs :: if InBatch(cs, t, c.time) then Resolved(cs[t], c) else cs[t]
  }

  function OutcomeOf(p: Position): Outcome {
    if p.state == ClosedTp then Tp else if p.state == ClosedSl then Sl else Timeout
  }

  // Closing a position labels the candidate it was opened from.
  function Labelled(cs: map<int, Candidate>, p: Position, time: int): map<int, Candidate> {
    if p.openedAt in cs && cs[p.openedAt].execute then
      cs[p.openedAt := cs[p.openedAt].(outcome := Some(OutcomeOf(p)), resolvedAt := Some(time))]
    else cs
  }

  // Recording a decision for a time that already has one keeps its label.
  function Recorded(cs: map<int, Candidate>, t: int, s: Setup, expires: int): map<int, Candidate> {
    var known := if t in cs then (cs[t].outcome, cs[t].resolvedAt) else (None, None);
    cs[t := Candidate(s, s.reasons == [], expires, known.0, known.1)]
  }

  function Opened(cfg: Config, s: Setup, t: int): Position {
    Position(s.direction, ProbeOpen, s.level, s.atr, s.entry, None, s.stop, s.target,
             t + cfg.confirmationBars * BAR, t, None)
  }

  function M5Window(cfg: Config): nat {
    (if cfg.atrPeriod + 1 < 30 then 30 else cfg.atrPeriod + 1) + 5
  }

  function AssessAt(cfg: SoundConfig, b: Book, c: Candle, news: bool): Evaluation {
    Assess(cfg, Recent(b.m15, c.time - 15 * MINUTE, 40), Recent(b.m5, c.time - 1, M5Window(cfg)), c, news)
  }

  // evaluateV4 once the candidates are settled.
  function Decided(cfg: SoundConfig, b: Book, c: Candle, news: bool): Book {
    var n := ActiveCount(b.positions);
    if n > 0 then
      var p := b.positions[n - 1];
      var next := Managed(p, c, FirstAfter(b.m5, p.openedAt, c.time, FOLLOW_THROUGH_BARS));
      b.(positions := b.positions[n - 1 := next],
         candidates := if Active(next) then b.candidates else Labelled(b.candidates, next, c.time))
    else if CoolingDown(cfg, b.positions, c.time) then b
    else
      var e := AssessAt(cfg, b, c, news);
      if !e.Signal? then b
      else
        b.(candidates := Recorded(b.candidates, c.time, e.setup, c.time + cfg.horizonBars * BAR),
           positions := if e.setup.reasons == [] then b.positions + [Opened(cfg, e.setup, c.time)] else b.positions)
  }

  function Evaluated(cfg: SoundConfig, b: Book, c: Candle, news: bool): Book {
    Decided(cfg, b.(candidates := Settled(b.candidates, c)), c, news)
  }

  datatype Timeframe = M5 | M15

  datatype Event =
    | Arrive(timeframe: Timeframe, candle: Candle, evaluate: bool, news: bool)
    | Reject(position: nat, at: int)

  // A candle that was there is only corrected; a new M5 candle is evaluated unless it is history.
  function Ingested(cfg: SoundConfig, b: Book, frame: Timeframe, c: Candle, evaluate: bool, news: bool): Book {
    if !ValidCandle(c) then b
    else if frame == M15 then b.(m15 := b.m15[c.time := c])
    else
      var stored := b.(m5 := b.m5[c.time := c]);
      if c.time in b.m5 || !evaluate then stored else Evaluated(cfg, stored, c, news)
  }

  // The cBot refusing a probe order.
  function Rejected(b: Book, position: nat, at: int): Book {
    if position < |b.positions| && b.positions[position].state == ProbeOpen then
      b.(positions := b.positions[position := b.positions[position].(
           state := ClosedTimeout, closing := Some(Closing(at, None, ProbeRejected, None)))])
    else b
  }

  function Do(cfg: SoundConfig, b: Book, e: Event): Book {
    match e
    case Arrive(frame, c, evaluate, news) => Ingested(cfg, b, frame, c, evaluate, news)
    case Reject(position, at) => Rejected(b, position, at)
  }

  function Run(cfg: SoundConfig, b: Book, es: seq<Event>): Book {
    if es == [] then b else Do(cfg, Run(cfg, b, es[..|es| - 1]), es[|es| - 1])
  }

  class Service {
    const cfg: SoundConfig
    var m5: Store
    var m15: Store
    var positions: seq<Position>
    var candidates: map<int, Candidate>

    constructor (cfg: SoundConfig)
      ensures this.cfg == cfg && Rows() == Book(map[], map[], [], map[])
    {
      this.cfg := cfg;
      m5, m15, positions, candidates := map[], map[], [], map[];
    }

    function Rows(): Book
      reads this
    {
      Book(m5, m15, positions, candidates)
    }

    method SettleCandidates(c: Candle)
      modifies this`candidates
      ensures candidates == Settled(old(candidates), c)
    {
      var batch := set t | t in candidates && InBatch(candidates, t, c.time);
      var todo := batch;
      while todo != {}
        invariant todo <= batch && candidates.Keys == old(candidates).Keys
        invariant forall t :: t in candidates ==>
          candidates[t] == if t in batch && t !in todo then Resolved(old(candidates)[t], c) else old(candidates)[t]
        decreases |todo|
      {
        var t :| t in todo;
        candidates := candidates[t := Resolved(candidates[t], c)];
        todo := todo - {t};
      }
    }

    method ClosePosition(index: nat, state: PositionState, at: int, price: real, cause: Cause, result: real)
      requires index < |positions| && (state == ClosedTp || state == ClosedSl || state == ClosedTimeout)
      modifies this`positions, this`candidates
      ensures positions == old(positions)[index := Closed(old(positions)[index], state, at, price, cause, result)]
      ensures candidates == Labelled(old(candidates), positions[index], at)
    {
      var p := Closed(positions[index], state, at, price, cause, result);
      positions := positions[index := p];
      if p.openedAt in candidates && candidates[p.openedAt].execute {
        var outcome := if state == ClosedTp then Tp else if state == ClosedSl then Sl else Timeout;
        candidates := candidates[p.openedAt :=
          candidates[p.openedAt].(outcome := Some(outcome), resolvedAt := Some(at))];
      }
    }

    method ManagePosition(index: nat, c: Candle)
      requires index < |positions| && Active(positions[index])
      modifies this`positions, this`candidates
      ensures var p := old(positions)[index];
              var next := Managed(p, c, FirstAfter(m5, p.openedAt, c.time, FOLLOW_THROUGH_BARS));
              && positions == old(positions)[index := next]
              && candidates == if Active(next) then old(candidates) else Labelled(old(candidates), next, c.time)
    {
      hide FirstAfter, MfeR, ConfirmMain;
      var p := positions[index];
      if StopHit(p.direction, p.stop, c) {
        ClosePosition(index, ClosedSl, c.time, p.stop, StopLossHit, -1.0);
        return;
      }
      if TargetHit(p.direction, p.target, c) {
        var risk := Abs(p.probeEntry - p.stop);
        ClosePosition(index, ClosedTp, c.time, p.target, TakeProfitHit, Ratio(Abs(p.target - p.probeEntry), risk));
        return;
      }
      if c.time >= p.openedAt + FOLLOW_THROUGH_BARS * BAR {
        var post := FirstAfter(m5, p.openedAt, c.time, FOLLOW_THROUGH_BARS);
        if |post| >= FOLLOW_THROUGH_BARS && MfeR(p.direction, p.probeEntry, p.stop, post) < 0.5 {
          var entry := AverageEntry(p);
          ClosePosition(index, ClosedTimeout, c.time, c.close, NoFollowThrough,
            Ratio(Signed(p.direction, c.close - entry), Abs(entry - p.stop)));
          return;
        }
      }
      if p.state != ProbeOpen {
        assert positions == positions[index := p];
        return;
      }
      if ConfirmMain(p.direction, c, p.level, p.probeEntry, p.atr).Some? {
        positions := positions[index := p.(state := MainAdded, mainEntry := Some(c.close))];
        return;
      }
      if c.time >= p.deadline {
        var risk := Abs(p.probeEntry - p.stop);
        ClosePosition(index, ClosedTimeout, c.time, c.close, NoConfirmation,
          Ratio(Signed(p.direction, c.close - p.probeEntry), risk) * 0.5);
      }
      assert old(positions) == old(positions)[index := p];
    }

    method EvaluateV4(c: Candle, news: bool)
      modifies this`positions, this`candidates
      ensures Rows() == Evaluated(cfg, old(Rows()), c, news)
    {
      hide Settled, Managed, Labelled, Recorded, Assess, Recent, FirstAfter, CoolingDown;
      SettleCandidates(c);
      var n := ActiveCount(positions);
      if n > 0 {
        ManagePosition(n - 1, c);
        return;
      }
      if CoolingDown(cfg, positions, c.time) {
        return;
      }
      var e := Assess(cfg, Recent(m15, c.time - 15 * MINUTE, 40), Recent(m5, c.time - 1, M5Window(cfg)), c, news);
      if !e.Signal? {
        return;
      }
      candidates := Recorded(candidates, c.time, e.setup, c.time + cfg.horizonBars * BAR);
      if e.setup.reasons == [] {
        positions := positions + [Opened(cfg, e.setup, c.time)];
      }
    }

    method Ingest(frame: Timeframe, c: Candle, evaluate: bool, news: bool)
      modifies this
      ensures Rows() == Ingested(cfg, old(Rows()), frame, c, evaluate, news)
    {
      hide Evaluated;
      if !ValidCandle(c) {
        return;
      }
      if frame == M15 {
        m15 := m15[c.time := c];
        return;
      }
      var existing := c.time in m5;
      m5 := m5[c.time := c];
      if existing || !evaluate {
        return;
      }
      EvaluateV4(c, news);
    }

    method RejectProbe(position: nat, at: int)
      modifies this`positions
      ensures Rows() == Rejected(old(Rows()), position, at)
    {
      if position < |positions| && positions[position].state == ProbeOpen {
        positions := positions[position := positions[position].(
          state := ClosedTimeout, closing := Some(Closing(at, None, ProbeRejected, None)))];
      }
    }
  }
}
