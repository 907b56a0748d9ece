/** Runs of the connector in which a handler interrupts a cancel or a close, or a cancel fails, and their outcome. */
module ConnectorOverrun {
  import opened Basics
  import opened ConnectorJob
  import opened ConnectorBounds
  import opened ConnectorBaskets
  import opened ConnectorLabels

  // A job to submit at once, three seconds before its time, that may be managed for seventy seconds.
  const EXAMPLE := Job(0, 3_000, 60_000, 70_000, 1)

  // What a run of the job leads to with so many interruptions, every cancel and close taking effect.
  ghost predicate Reaches(s: State, n: nat) {
    exists acts ::
      && Run(EXAMPLE, Fresh(0), acts) == s && Interruptions(EXAMPLE, Fresh(0), acts) == n
      && Effective(EXAMPLE, Fresh(0), acts)
  }

  lemma Reached(s: State, a: Action, n: nat)
    requires Reaches(s, n) && !Ineffective(s, a)
    ensures Reaches(Do(EXAMPLE, s, a), n + Interrupted(EXAMPLE, s, a))
  {
    hide Do, Interrupted, Ineffective;
    var acts :| Run(EXAMPLE, Fresh(0), acts) == s && Interruptions(EXAMPLE, Fresh(0), acts) == n
                && Effective(EXAMPLE, Fresh(0), acts);
    var more := acts + [a];
    assert more[..|more| - 1] == acts;
    assert Run(EXAMPLE, Fresh(0), more) == Do(EXAMPLE, s, a);
    assert Interruptions(EXAMPLE, Fresh(0), more) == n + Interrupted(EXAMPLE, s, a);
    assert Effective(EXAMPLE, Fresh(0), more);
  }

  lemma ReachedQuietly(s: State, a: Action, n: nat)
    requires Reaches(s, n) && !Ineffective(s, a) && !Interrupts(s, a)
    ensures Reaches(Do(EXAMPLE, s, a), n)
  {
    hide Do;
    Reached(s, a, n);
  }

  // The runtime as it is while the first basket goes out.
  function Placing(): Runtime {
    Fresh(0).rt.(submitted := true, initialAttempts := 1, placingInitial := true)
  }

  lemma StartPlacing() returns (s: State)
    ensures Reaches(s, 0) && s.now == 0 && s.rt == Placing() && s.broker == Fresh(0).broker
    ensures s.stack == [Ticking(2, 0, false), PlacingInitial([])]
  {
    assert Run(EXAMPLE, Fresh(0), []) == Fresh(0) && Interruptions(EXAMPLE, Fresh(0), []) == 0;
    assert Effective(EXAMPLE, Fresh(0), []);
    hide Run, Interruptions, Effective;
    var tick := Fresh(0).(stack := [Ticking(0, 0, false)]);
    assert Do(EXAMPLE, Fresh(0), Tick(false, false)) == tick;
    ReachedQuietly(Fresh(0), Tick(false, false), 0);
    var next := Fresh(0).(stack := [Ticking(1, 0, false)]);
    assert Do(EXAMPLE, tick, Proceed) == next;
    ReachedQuietly(tick, Proceed, 0);
    ReachedQuietly(next, Proceed, 0);
    s := Do(EXAMPLE, next, Proceed);
  }

  ghost predicate Ordered(s: State, count: nat) {
    && s.now == 0 && s.rt == Placing() && s.broker.nextId == count && s.broker.open == map[]
    && (forall id: nat :: id in s.broker.pending <==> id < count)
    && (forall id :: id in s.broker.pending ==> s.broker.pending[id] == InitialLabel(id))
    && |s.stack| == 2 && s.stack[0] == Ticking(2, 0, false)
    && Top(s).PlacingInitial? && |Top(s).answers| == count && AllAccepted(Top(s).answers)
  }

  lemma OrderOne(s: State, count: nat)
    requires Ordered(s, count) && count < INITIAL_ORDERS
    ensures Ordered(Do(EXAMPLE, s, Answered(Resting)), count + 1)
  {
    hide InitialLabel;
  }

  // The job after its first basket was accepted, with some of the six orders filled and no fill reported.
  ghost predicate Filled(s: State, count: nat) {
    && s.now == 0 && s.rt == Placing().(placingInitial := false, accepted := true) && s.stack == []
    && s.broker.nextId == INITIAL_ORDERS
    && (forall id: nat :: id in s.broker.pending <==> count <= id < INITIAL_ORDERS)
    && (forall id :: id in s.broker.pending ==> s.broker.pending[id] == InitialLabel(id))
    && (forall id :: id in s.broker.open ==> id < INITIAL_ORDERS && s.broker.open[id].purpose == Initial)
    && (forall id: nat :: id < count ==> id in s.broker.undelivered && s.broker.undelivered[id] == InitialLabel(id))
  }

  lemma InitialPurposes(id: nat)
    ensures InitialLabel(id).purpose == Initial && InitialLabel(id).side == if id % 2 == 0 then Buy else Sell
  {
  }

  lemma FillOne(s: State, count: nat)
    requires Filled(s, count) && count < INITIAL_ORDERS
    ensures Filled(Do(EXAMPLE, s, Trade(count)), count + 1)
  {
    InitialPurposes(count);
    hide InitialLabel;
  }

  lemma BasketDone(s: State)
    requires Ordered(s, INITIAL_ORDERS)
    ensures Filled(Do(EXAMPLE, Do(EXAMPLE, s, Proceed), Proceed), 0)
  {
    hide InitialLabel;
    var t := Do(EXAMPLE, s, Proceed);
    assert t.stack == [Ticking(2, 0, false)];
  }

  // At rest after some failed attempts: the last sell order may be pending, nothing of a reversal is there, and the
  // fills of the orders 1, 3, 0 and 2 are reported in this order, one an attempt.
  function FillId(k: nat): nat {
    if k == 0 then 1 else if k == 1 then 3 else if k == 2 then 0 else 2
  }

  predicate Quiet(b: Broker) {
    && (forall id :: id in b.pending ==> id == 5 && b.pending[id].purpose == Initial)
    && (forall id :: id in b.open ==> b.open[id].purpose == Initial)
  }

  ghost predicate Unreported(b: Broker, from: nat) {
    forall k: nat :: from <= k < 4 ==>
      FillId(k) in b.undelivered && b.undelivered[FillId(k)] == InitialLabel(FillId(k))
  }

  predicate Retriable(s: State, attempts: nat) {
    && s.rt.accepted && !s.rt.placed && !s.rt.failed && !s.rt.placingInitial && !s.rt.placingReversal && !s.rt.terminal
    && s.rt.reversalAttempts == attempts && s.rt.nextReversal <= s.now < 5_000
  }

  // At rest, ready for the next attempt.
  ghost predicate Rest(s: State, attempts: nat) {
    s.stack == [] && Retriable(s, attempts) && s.now == RETRY_MS * attempts && Quiet(s.broker)
        && Unreported(s.broker, attempts)
  }

  lemma Opening() returns (s: State)
    ensures Reaches(s, 0) && Rest(s, 0) && s.broker.nextId == INITIAL_ORDERS
    ensures forall id :: id in s.broker.open ==> id < INITIAL_ORDERS
  {
    hide Run, Do, Reaches, InitialLabel, Ineffective;
    s := StartPlacing();
    for count := 0 to INITIAL_ORDERS
      invariant Reaches(s, 0) && Ordered(s, count)
    {
      Harmless(s, Answered(Resting));
      ReachedQuietly(s, Answered(Resting), 0);
      OrderOne(s, count);
      s := Do(EXAMPLE, s, Answered(Resting));
    }
    BasketDone(s);
    Harmless(s, Proceed);
    ReachedQuietly(s, Proceed, 0);
    s := Do(EXAMPLE, s, Proceed);
    Harmless(s, Proceed);
    ReachedQuietly(s, Proceed, 0);
    s := Do(EXAMPLE, s, Proceed);
    for count := 0 to INITIAL_ORDERS - 1
      invariant Reaches(s, 0) && Filled(s, count)
    {
      Harmless(s, Trade(count));
      ReachedQuietly(s, Trade(count), 0);
      FillOne(s, count);
      s := Do(EXAMPLE, s, Trade(count));
    }
    InitialPurposes(5);
  }

  lemma Harmless(s: State, a: Action)
    ensures !a.Cancelled? && !a.ClosedOut? ==> !Ineffective(s, a)
  {
  }

  // One interruption if the running handler is cancelling or closing.
  function Cost(s: State): nat {
    if s.stack != [] && (Top(s).Beginning? || Top(s).UndoInitial? || Top(s).UndoReversal?) then 1 else 0
  }

  // A reported fill starts its handler, on top of whatever is running.
  lemma ReportFill(s: State, id: nat, n: nat) returns (t: State)
    requires Reaches(s, n) && id in s.broker.undelivered && s.broker.undelivered[id] == InitialLabel(id)
    requires !s.rt.placed && !s.rt.failed && !s.rt.placingInitial
    requires s.rt.reversalAttempts == 0 || s.now >= s.rt.nextReversal
    ensures Reaches(t, n + Cost(s)) && t.now == s.now && t.rt == s.rt.(deferred := Some(InitialLabel(id).side))
    ensures t.stack == s.stack + [Beginning(InitialLabel(id).side, Opposing(s.broker, InitialLabel(id).side))]
    ensures t.broker == s.broker.(undelivered := s.broker.undelivered - {id})
  {
    hide Run, Interruptions, Reaches, Opposing, InitialLabel;
    InitialPurposes(id);
    Reached(s, Deliver(id), n);
    t := Do(EXAMPLE, s, Deliver(id));
    SameOpposing(s.broker, t.broker, InitialLabel(id).side);
    assert |t.stack| == |s.stack| + 1;
  }

  lemma SameOpposing(b: Broker, c: Broker, side: Direction)
    requires b.pending == c.pending
    ensures Opposing(b, side) == Opposing(c, side)
  {
  }

  // The handler cancels the last opposite order, if it is there, and places.
  lemma CancelAndPlace(s: State, base: seq<Frame>, side: Direction, cancels: set<nat>, n: nat) returns (t: State)
    requires Reaches(s, n) && s.stack == base + [Beginning(side, cancels)] && cancels <= {5}
    requires !s.rt.placed && !s.rt.placingReversal
    ensures Reaches(t, n) && t.now == s.now && t.stack == base + [PlacingReversal(side, [])]
    ensures t.broker == s.broker.(pending := s.broker.pending - cancels) && (Quiet(s.broker) ==> Quiet(t.broker))
    ensures t.rt == s.rt.(placingReversal := true, trigger := side, reversalAttempts := s.rt.reversalAttempts + 1)
  {
    hide Run, Interruptions, Reaches, Quiet;
    t := s;
    if cancels != {} {
      OnlyFive(cancels);
      t := Do(EXAMPLE, s, Cancelled(5, true));
      ReachedQuietly(s, Cancelled(5, true), n);
      assert t.stack == base + [Beginning(side, {})];
      QuietWithout(s.broker);
      assert cancels == {5};
    } else {
      assert s.broker.pending - cancels == s.broker.pending;
    }
    ReachedQuietly(t, Proceed, n);
    t := Do(EXAMPLE, t, Proceed);
  }

  lemma OnlyFive(cancels: set<nat>)
    requires cancels <= {5} && cancels != {}
    ensures 5 in cancels && cancels - {5} == {}
  {
  }

  lemma QuietWithout(b: Broker)
    ensures Quiet(b) ==> Quiet(b.(pending := b.pending - {5}))
  {
  }

  lemma AnswerOne(s: State, base: seq<Frame>, side: Direction, answers: seq<Answer>, answer: Answer, n: nat)
    returns (t: State)
    requires Reaches(s, n) && s.stack == base + [PlacingReversal(side, answers)] && |answers| < REVERSAL_ORDERS
    ensures Reaches(t, n) && t.now == s.now && t.rt == s.rt
              && t.stack == base + [PlacingReversal(side, answers + [answer])]
    ensures t.broker == Asked(s.broker, Label(Reversal, Opposite(side), |answers| + 1), answer)
  {
    hide Run, Interruptions, Reaches, Asked;
    ReachedQuietly(s, Answered(answer), n);
    t := Do(EXAMPLE, s, Answered(answer));
  }

  const NO: Answer := Refused(false)

  // A basket refused order by order leaves a rollback with nothing to cancel.
  lemma RefuseAll(s: State, base: seq<Frame>, side: Direction, n: nat) returns (t: State)
    requires Reaches(s, n) && s.stack == base + [PlacingReversal(side, [])] && Quiet(s.broker)
    ensures Reaches(t, n) && t.now == s.now && t.rt == s.rt.(placingReversal := false) && Quiet(t.broker)
    ensures t.stack == base + [UndoReversal({}, None, false)]
    ensures t.broker == s.broker.(nextId := t.broker.nextId, sent := t.broker.sent)
  {
    hide Run, Interruptions, Reaches, Quiet, Do;
    var a := AnswerOne(s, base, side, [], NO, n);
    var b := AnswerOne(a, base, side, [] + [NO], NO, n);
    var c := AnswerOne(b, base, side, [] + [NO] + [NO], NO, n);
    Harmless(c, Proceed);
    ReachedQuietly(c, Proceed, n);
    t := Do(EXAMPLE, c, Proceed);
    AllRefused(c, base, side);
    SameQuiet(s.broker, t.broker);
  }

  lemma SameQuiet(b: Broker, c: Broker)
    requires Quiet(b) && b.pending == c.pending && b.open == c.open
    ensures Quiet(c)
  {
  }

  lemma AllRefused(s: State, base: seq<Frame>, side: Direction)
    requires s.stack == base + [PlacingReversal(side, [] + [NO] + [NO] + [NO])]
    ensures Quiet(s.broker) ==> Do(EXAMPLE, s, Proceed).stack == base + [UndoReversal({}, None, false)]
    ensures Do(EXAMPLE, s, Proceed).rt == s.rt.(placingReversal := false)
    ensures Do(EXAMPLE, s, Proceed).broker == s.broker && Do(EXAMPLE, s, Proceed).now == s.now
  {
    var answers := [] + [NO] + [NO] + [NO];
    assert answers[0].Refused? && |answers| == 3;
    assert PermanentlyRefused(answers) == false;
    assert Quiet(s.broker) ==> Ids(s.broker.pending, Reversal) == {};
  }

  // The rollback ends; after the third attempt it notes the failure.
  lemma EndRollback(s: State, base: seq<Frame>, n: nat) returns (t: State)
    requires Reaches(s, n) && s.stack == base + [UndoReversal({}, None, false)] && Quiet(s.broker) && s.now < 10_000
    ensures Reaches(t, n) && t.now == s.now && t.stack == base && t.broker == s.broker
    ensures s.rt.reversalAttempts < MAX_ATTEMPTS ==> t.rt == s.rt.(nextReversal := s.now + RETRY_MS)
    ensures s.rt.reversalAttempts >= MAX_ATTEMPTS ==> t.rt == s.rt.(failed := true, terminal := t.rt.terminal)
  {
    assert Ids(s.broker.open, Reversal) == {};
    hide Run, Interruptions, Reaches, Quiet, Ids, Exposed;
    ReachedQuietly(s, Proceed, n);
    var closing := Do(EXAMPLE, s, Proceed);
    assert closing.stack == base + [UndoReversal({}, Some({}), false)];
    ReachedQuietly(closing, Proceed, n);
    t := Do(EXAMPLE, closing, Proceed);
  }

  // In the rollback of the latest attempt, with nothing below it.
  ghost predicate Undone(s: State, attempts: nat) {
    && s.stack == [UndoReversal({}, None, false)] && Retriable(s, attempts) && s.now == RETRY_MS * (attempts - 1)
    && Quiet(s.broker) && Unreported(s.broker, attempts)
  }

  lemma OpposingLast(b: Broker, side: Direction)
    requires Quiet(b)
    ensures Opposing(b, side) <= {5}
  {
  }

  lemma StillUnreported(b: Broker, k: nat)
    requires Unreported(b, k) && k < 4
    ensures FillId(k) in b.undelivered && b.undelivered[FillId(k)] == InitialLabel(FillId(k))
    ensures Unreported(b.(undelivered := b.undelivered - {FillId(k)}), k + 1)
  {
  }

  // One attempt started by a fill, refused, and being taken back.
  lemma AttemptOne(s: State, attempts: nat) returns (t: State)
    requires Reaches(s, 0) && Rest(s, attempts) && attempts < MAX_ATTEMPTS
    ensures Reaches(t, 0) && Undone(t, attempts + 1)
  {
    hide Run, Interruptions, Reaches, Opposing, InitialLabel, Do, Quiet, Unreported;
    var id := FillId(attempts);
    var side := InitialLabel(id).side;
    StillUnreported(s.broker, attempts);
    OpposingLast(s.broker, side);
    var a := ReportFill(s, id, 0);
    SameQuiet(s.broker, a.broker);
    var b := CancelAndPlace(a, [], side, Opposing(s.broker, side), 0);
    t := RefuseAll(b, [], side, 0);
    SameUnreported(a.broker, t.broker, attempts + 1);
  }

  lemma SameUnreported(b: Broker, c: Broker, k: nat)
    requires Unreported(b, k) && b.undelivered == c.undelivered
    ensures Unreported(c, k)
  {
  }

  lemma NextOne(s: State, attempts: nat) returns (t: State)
    requires Reaches(s, 0) && Undone(s, attempts) && attempts < MAX_ATTEMPTS
    ensures Reaches(t, 0) && Rest(t, attempts)
  {
    hide Run, Interruptions, Reaches, Quiet, Unreported;
    var a := EndRollback(s, [], 0);
    ReachedQuietly(a, Pass(RETRY_MS), 0);
    t := Do(EXAMPLE, a, Pass(RETRY_MS));
  }

  lemma TwoAttempts() returns (s: State)
    ensures Reaches(s, 0) && Rest(s, 2)
  {
    hide Reaches, Quiet, Unreported;
    s := Opening();
    s := AttemptOne(s, 0);
    s := NextOne(s, 1);
    s := AttemptOne(s, 1);
    s := NextOne(s, 2);
  }

  lemma ThreeAttempts() returns (s: State)
    ensures Reaches(s, 0) && Undone(s, 3)
  {
    hide Reaches, Rest, Undone;
    s := TwoAttempts();
    s := AttemptOne(s, 2);
  }

  // A fourth attempt: the fill is reported while the third basket is taken back, the one interruption of the run.
  lemma FillDuringRollback()
    ensures exists s, t, side :: Reaches(s, 0) && UndoingReversal(s.stack) && s.rt.reversalAttempts == MAX_ATTEMPTS
              && Reaches(t, 1) && t.rt.reversalAttempts == MAX_ATTEMPTS + 1
              && t.stack == s.stack + [PlacingReversal(side, [])] && |t.broker.undelivered| < |s.broker.undelivered|
  {
    hide Run, Interruptions, Reaches, Opposing, InitialLabel, Do, Quiet, Unreported;
    var s := ThreeAttempts();
    var side := InitialLabel(FillId(3)).side;
    StillUnreported(s.broker, 3);
    OpposingLast(s.broker, side);
    var a := ReportFill(s, FillId(3), 0);
    var t := CancelAndPlace(a, s.stack, side, Opposing(s.broker, side), 1);
    OneLess(s.broker.undelivered, FillId(3));
  }

  lemma OneLess(m: map<nat, Label>, id: nat)
    requires id in m
    ensures |m - {id}| < |m|
  {
    assert (m - {id}).Keys == m.Keys - {id};
    assert |(m - {id}).Keys| == |m - {id}| && |m.Keys| == |m|;
  }

  // A fourth attempt without any fill: the timer passes while the third basket is taken back.
  lemma TickDuringRollback()
    ensures exists s :: Reaches(s, 0) && UndoingReversal(s.stack) && s.rt.reversalAttempts == MAX_ATTEMPTS
              && var t := Do(EXAMPLE, Do(EXAMPLE, s, Tick(false, false)), Proceed);
                 Reaches(t, 1) && t.rt.reversalAttempts == MAX_ATTEMPTS + 1
  {
    hide Run, Interruptions, Reaches, Quiet, Unreported;
    var s := ThreeAttempts();
    Reached(s, Tick(false, false), 0);
    var a := Do(EXAMPLE, s, Tick(false, false));
    assert !Busy(s);
    assert a.stack == s.stack + [Ticking(0, s.now, false)];
    ReachedQuietly(a, Proceed, 1);
    assert Do(EXAMPLE, a, Proceed).rt.reversalAttempts == 4;
  }

  // A fourth attempt although no rollback is interrupted: of two fills reported one during the cancels of the other,
  // the later one makes the third attempt and notes the failure, and then the earlier one goes on.
  lemma FillDuringCancels()
    ensures exists s, t, side, cancels :: Reaches(s, 1) && s.rt.failed && s.rt.reversalAttempts == MAX_ATTEMPTS
              && s.stack == [Beginning(side, cancels)]
              && Reaches(t, 1) && t.rt.reversalAttempts == MAX_ATTEMPTS + 1 && t.stack == [PlacingReversal(side, [])]
  {
    hide Run, Interruptions, Reaches, Opposing, InitialLabel, Do, Quiet, Unreported;
    var s := TwoAttempts();
    var side, inner := InitialLabel(FillId(2)).side, InitialLabel(FillId(3)).side;
    StillUnreported(s.broker, 2);
    OpposingLast(s.broker, side);
    var a := ReportFill(s, FillId(2), 0);
    SameQuiet(s.broker, a.broker);
    StillUnreported(a.broker, 3);
    OpposingLast(a.broker, inner);
    var b := ReportFill(a, FillId(3), 0);
    SameQuiet(a.broker, b.broker);
    var c := CancelAndPlace(b, a.stack, inner, Opposing(a.broker, inner), 1);
    var d := RefuseAll(c, a.stack, inner, 1);
    var e := EndRollback(d, a.stack, 1);
    assert e.stack == [] + [Beginning(side, Opposing(s.broker, side))];
    var t := CancelAndPlace(e, [], side, Opposing(s.broker, side), 1);
    assert t.stack == [PlacingReversal(side, [])];
  }

  // The first basket, of which one order was accepted, is about to be taken back.
  ghost predicate HalfAccepted(s: State) {
    && s.now == 0 && s.stack == [UndoReversal({6}, None, false)] && s.rt.trigger == Sell && Retriable(s, 1)
    && s.broker.nextId == 9 && 6 in s.broker.pending && s.broker.pending[6] == Label(Reversal, Buy, 1)
    && (forall id :: id in s.broker.pending && id != 6 ==> id == 5 && s.broker.pending[id].purpose == Initial)
    && (forall id :: id in s.broker.open ==> id < 6 && s.broker.open[id].purpose == Initial)
    && 3 in s.broker.undelivered && s.broker.undelivered[3] == InitialLabel(3)
  }

  lemma OneOfThree() returns (s: State)
    ensures Reaches(s, 0) && HalfAccepted(s)
  {
    hide Run, Interruptions, Reaches, Opposing, InitialLabel, Do, Quiet, Unreported;
    var r := Opening();
    InitialPurposes(1);
    InitialPurposes(3);
    StillUnreported(r.broker, 0);
    OpposingLast(r.broker, Sell);
    var a := ReportFill(r, 1, 0);
    StillUnreported(a.broker, 1);
    var b := CancelAndPlace(a, [], Sell, Opposing(r.broker, Sell), 0);
    var c := AnswerOne(b, [], Sell, [], Resting, 0);
    var d := AnswerOne(c, [], Sell, [] + [Resting], NO, 0);
    var e := AnswerOne(d, [], Sell, [] + [Resting] + [NO], NO, 0);
    Harmless(e, Proceed);
    ReachedQuietly(e, Proceed, 0);
    s := Do(EXAMPLE, e, Proceed);
    PartlyRefused(e);
    OnlySix(r.broker, s.broker);
  }

  lemma OnlySix(b: Broker, c: Broker)
    requires Quiet(b) && 6 in c.pending && c.pending[6].purpose == Reversal
    requires forall id :: id in c.pending && id != 6 ==> id in b.pending && b.pending[id] == c.pending[id]
    ensures Ids(c.pending, Reversal) == {6}
    ensures forall id :: id in c.pending && id != 6 ==> id == 5 && c.pending[id].purpose == Initial
    ensures b.open == c.open ==> forall id :: id in c.open ==> c.open[id].purpose == Initial
  {
  }

  // Two live orders with one label: the first order of a second basket goes out while the first basket is taken back.
  lemma OverlapRepeatsALabel()
    ensures exists s :: Reaches(s, 1) && !Unique(Live(s.broker))
  {
    hide Run, Interruptions, Reaches, InitialLabel, Do, Quiet;
    var f := OneOfThree();
    InitialPurposes(3);
    var g := ReportFill(f, 3, 0);
    var h := CancelAndPlace(g, f.stack, Sell, Opposing(f.broker, Sell), 1);
    var t := AnswerOne(h, f.stack, Sell, [], Resting, 1);
    Repeated(t.broker, 6, h.broker.nextId);
  }

  // The cancel of the accepted order fails, the rollback ends, and after the delay the timer tries again.
  const LOST: seq<Action> :=
    [Cancelled(6, false), Proceed, Proceed, Pass(RETRY_MS), Tick(false, false), Proceed, Answered(Resting)]

  lemma NextLost(s: State, k: nat, a: Action)
    requires k < |LOST| && LOST[k] == a && Interruptions(EXAMPLE, s, LOST[..k]) == 0
    requires !Interrupts(Run(EXAMPLE, s, LOST[..k]), a)
    ensures Run(EXAMPLE, s, LOST[..k + 1]) == Do(EXAMPLE, Run(EXAMPLE, s, LOST[..k]), a)
    ensures Interruptions(EXAMPLE, s, LOST[..k + 1]) == 0
  {
    hide Do;
    assert LOST[..k + 1][..k] == LOST[..k];
  }

  lemma FailCancel(s: State)
    requires s.stack == [UndoReversal({6}, None, false)]
    ensures Do(EXAMPLE, s, Cancelled(6, false)) == s.(stack := [UndoReversal({}, None, false)])
  {
    var left: set<nat> := {6} - {6};
    assert left == {};
  }

  lemma NothingToClose(s: State)
    requires s.stack == [UndoReversal({}, None, false)] && Ids(s.broker.open, Reversal) == {}
    ensures Do(EXAMPLE, s, Proceed) == s.(stack := [UndoReversal({}, Some({}), false)])
  {
    hide Ids;
  }

  lemma TryLater(s: State)
    requires s.stack == [UndoReversal({}, Some({}), false)] && s.rt.reversalAttempts == 1 && s.now == 0
    ensures Do(EXAMPLE, s, Proceed) == s.(rt := s.rt.(nextReversal := RETRY_MS), stack := [])
  {
  }

  lemma LostCancel(s: State)
    requires HalfAccepted(s)
    ensures Interruptions(EXAMPLE, s, LOST[..1]) == 0
    ensures Run(EXAMPLE, s, LOST[..1]) == s.(stack := [UndoReversal({}, None, false)])
  {
    assert LOST[..0] == [];
    hide Do;
    FailCancel(s);
    NextLost(s, 0, Cancelled(6, false));
  }

  lemma LostRollback(s: State)
    requires HalfAccepted(s)
    ensures Interruptions(EXAMPLE, s, LOST[..4]) == 0
    ensures Run(EXAMPLE, s, LOST[..4]) == s.(stack := [], now := RETRY_MS, rt := s.rt.(nextReversal := RETRY_MS))
  {
    hide Run, Interruptions, Do;
    LostCancel(s);
    assert Ids(s.broker.open, Reversal) == {};
    hide HalfAccepted, Retriable, Ids;
    NothingToClose(s.(stack := [UndoReversal({}, None, false)]));
    NextLost(s, 1, Proceed);
    TryLater(s.(stack := [UndoReversal({}, Some({}), false)]));
    NextLost(s, 2, Proceed);
    WaitRetry(s.(rt := s.rt.(nextReversal := RETRY_MS), stack := []));
    NextLost(s, 3, Pass(RETRY_MS));
  }

  lemma WaitRetry(s: State)
    requires s.now == 0
    ensures Do(EXAMPLE, s, Pass(RETRY_MS)) == s.(now := RETRY_MS)
  {
  }

  lemma StartTick(s: State)
    requires s.stack == [] && !s.rt.terminal
    ensures Do(EXAMPLE, s, Tick(false, false)) == s.(stack := [Ticking(0, s.now, false)])
  {
  }

  lemma RetryStarts(s: State)
    requires Retriable(s, 1) && s.rt.trigger == Sell && s.stack == [Ticking(0, s.now, false)]
    ensures var t := Do(EXAMPLE, s, Proceed);
            t.stack == [Ticking(1, s.now, false), PlacingReversal(Sell, [])] && t.broker == s.broker && t.now == s.now
  {
  }

  lemma FirstAccepted(s: State)
    requires s.stack == [Ticking(1, s.now, false), PlacingReversal(Sell, [])]
    ensures Do(EXAMPLE, s, Answered(Resting)).broker == Asked(s.broker, Label(Reversal, Buy, 1), Resting)
  {
    hide Asked;
  }

  lemma LostRetry(s: State, b: State)
    requires b == Run(EXAMPLE, s, LOST[..4]) && Interruptions(EXAMPLE, s, LOST[..4]) == 0
    requires b.stack == [] && Retriable(b, 1) && b.rt.trigger == Sell
    ensures Interruptions(EXAMPLE, s, LOST) == 0
    ensures Run(EXAMPLE, s, LOST).broker == Asked(b.broker, Label(Reversal, Buy, 1), Resting)
  {
    hide Run, Interruptions, Asked, Do;
    StartTick(b);
    NextLost(s, 4, Tick(false, false));
    var c := b.(stack := [Ticking(0, b.now, false)]);
    RetryStarts(c);
    NextLost(s, 5, Proceed);
    FirstAccepted(Do(EXAMPLE, c, Proceed));
    NextLost(s, 6, Answered(Resting));
    assert LOST[..7] == LOST;
  }

  // The same without any interruption: a cancel fails in the rollback, and the retry does not look for live orders.
  lemma FailedCancelRepeatsALabel()
    ensures exists s :: Reaches(s, 0) && UndoingReversal(s.stack) && Interruptions(EXAMPLE, s, LOST) == 0
              && !Unique(Live(Run(EXAMPLE, s, LOST).broker))
  {
    hide Run, Interruptions, Reaches, Ids;
    var s := OneOfThree();
    LostRollback(s);
    LostRetry(s, Run(EXAMPLE, s, LOST[..4]));
    Repeated(Run(EXAMPLE, s, LOST).broker, 6, 9);
  }

  lemma PartlyRefused(s: State)
    requires s.stack == [] + [PlacingReversal(Sell, [] + [Resting] + [NO] + [NO])]
    ensures var t := Do(EXAMPLE, s, Proceed);
            && t.broker == s.broker && t.now == s.now && t.rt == s.rt.(placingReversal := false)
            && t.stack == [UndoReversal(Ids(s.broker.pending, Reversal), None, false)]
  {
    var answers := [] + [Resting] + [NO] + [NO];
    assert |answers| == 3 && answers[0] == Resting && answers[1] == NO;
    assert answers[1].Refused? && answers[1..][0] == NO;
    assert PermanentlyRefused(answers[1..]) == false;
  }

  lemma Repeated(b: Broker, i: nat, j: nat)
    requires i in b.pending && j in b.pending && i != j && b.pending[i] == b.pending[j] && b.open.Keys !! {i, j}
    ensures !Unique(Live(b))
  {
    assert i in Live(b) && j in Live(b) && Live(b)[i] == Live(b)[j];
  }

  const NEVER: Answer := Refused(true)

  lemma AnswerInitial(s: State, answers: seq<Answer>, answer: Answer, n: nat) returns (t: State)
    requires Reaches(s, n) && s.stack == [Ticking(2, 0, false), PlacingInitial(answers)] && |answers| < INITIAL_ORDERS
    ensures Reaches(t, n) && t.now == s.now && t.rt == s.rt
    ensures t.stack == [Ticking(2, 0, false), PlacingInitial(answers + [answer])]
    ensures t.broker == Asked(s.broker, InitialLabel(|answers|), answer)
  {
    hide Run, Interruptions, Reaches, Asked, InitialLabel;
    ReachedQuietly(s, Answered(answer), n);
    t := Do(EXAMPLE, s, Answered(answer));
  }

  // The first order of a basket is accepted and the others are refused for good.
  lemma RefuseFive() returns (s: State)
    ensures Reaches(s, 0) && s.now == 0 && s.rt == Placing()
    ensures s.stack == [Ticking(2, 0, false), PlacingInitial([Resting, NEVER, NEVER, NEVER, NEVER, NEVER])]
    ensures s.broker.pending == map[0 := InitialLabel(0)] && s.broker.open == map[] && s.broker.undelivered == map[]
  {
    hide Reaches, InitialLabel;
    s := StartPlacing();
    s := AnswerInitial(s, [], Resting, 0);
    var answers := [] + [Resting];
    for count := 1 to INITIAL_ORDERS
      invariant Reaches(s, 0) && s.now == 0 && s.rt == Placing()
      invariant s.stack == [Ticking(2, 0, false), PlacingInitial(answers)]
      invariant |answers| == count && answers[0] == Resting && forall i :: 0 < i < count ==> answers[i] == NEVER
      invariant s.broker.pending == map[0 := InitialLabel(0)] && s.broker.open == map[] && s.broker.undelivered == map[]
    {
      s := AnswerInitial(s, answers, NEVER, 0);
      answers := answers + [NEVER];
    }
    assert answers == [Resting, NEVER, NEVER, NEVER, NEVER, NEVER];
  }

  // That order fills, and the rollback of the basket begins.
  lemma RollbackAfterFill() returns (s: State)
    ensures Reaches(s, 0) && s.now == 0 && s.rt == Placing().(placingInitial := false)
    ensures s.stack == [Ticking(2, 0, false), UndoInitial({}, None, true)]
    ensures s.broker.pending == map[] && s.broker.open == map[0 := InitialLabel(0)]
    ensures s.broker.undelivered == map[0 := InitialLabel(0)]
  {
    hide Run, Interruptions, Reaches, InitialLabel;
    var a := RefuseFive();
    var answers := [Resting, NEVER, NEVER, NEVER, NEVER, NEVER];
    assert answers[1].Refused? && answers[1..][0] == NEVER;
    assert PermanentlyRefused(answers[1..]);
    ReachedQuietly(a, Trade(0), 0);
    var b := Do(EXAMPLE, a, Trade(0));
    assert b.broker.pending == map[] && b.broker.pending.Keys == {};
    ReachedQuietly(b, Proceed, 0);
    s := Do(EXAMPLE, b, Proceed);
  }

  // The fill is reported now: a reversal basket goes out and is accepted whole.
  lemma ReversalDuringRollback() returns (s: State)
    ensures Reaches(s, 1) && s.now == 0 && s.rt.placed && !s.rt.accepted && s.rt.submitted && s.rt.initialAttempts == 1
    ensures s.stack == [Ticking(2, 0, false), UndoInitial({}, None, true)] && s.broker.open == map[0 := InitialLabel(0)]
    ensures Ids(s.broker.pending, Reversal) != {}
  {
    hide Run, Interruptions, Reaches, InitialLabel, Do, Quiet;
    var a := RollbackAfterFill();
    var side, base := InitialLabel(0).side, a.stack;
    NoneOpposing(a.broker, side);
    var b := ReportFill(a, 0, 0);
    var c := CancelAndPlace(b, base, side, {}, 1);
    var d := AnswerOne(c, base, side, [], Resting, 1);
    var e := AnswerOne(d, base, side, [] + [Resting], Resting, 1);
    var f := AnswerOne(e, base, side, [] + [Resting] + [Resting], Resting, 1);
    Harmless(f, Proceed);
    ReachedQuietly(f, Proceed, 1);
    s := Do(EXAMPLE, f, Proceed);
    AllResting(f, base, side);
    var id := e.broker.nextId;
    assert id in s.broker.pending && s.broker.pending[id].purpose == Reversal;
    IdOf(s.broker.pending, id);
  }

  lemma NoneOpposing(b: Broker, side: Direction)
    requires b.pending == map[]
    ensures Opposing(b, side) == {}
  {
  }

  lemma AllResting(s: State, base: seq<Frame>, side: Direction)
    requires s.stack == base + [PlacingReversal(side, [] + [Resting] + [Resting] + [Resting])]
    ensures var t := Do(EXAMPLE, s, Proceed);
            && t.stack == base && t.broker == s.broker && t.now == s.now
            && t.rt == s.rt.(placingReversal := false, placed := true, deferred := None)
  {
  }

  // A job whose initial basket was refused for good is concluded with a live reversal basket.
  lemma RejectedBasketLeaks()
    ensures exists s :: Reaches(s, 1) && s.stack == [] && s.rt.terminal && !s.rt.accepted && Exposed(s.broker)
  {
    hide Run, Interruptions, Reaches, InitialLabel, Ids;
    var a := ReversalDuringRollback();
    var last: set<nat> := {0};
    assert a.broker.open.Keys == last && last - {0} == {};
    ReachedQuietly(a, Proceed, 1);
    var b := Do(EXAMPLE, a, Proceed);
    assert b.stack == [Ticking(2, 0, false), UndoInitial({}, Some({0}), true)];
    ReachedQuietly(b, ClosedOut(0, true), 1);
    var c := Do(EXAMPLE, b, ClosedOut(0, true));
    assert c.stack == [Ticking(2, 0, false), UndoInitial({}, Some({}), true)];
    ReachedQuietly(c, Proceed, 1);
    var d := Do(EXAMPLE, c, Proceed);
    assert d.stack == [Ticking(2, 0, false)];
    ReachedQuietly(d, Proceed, 1);
    var e := Do(EXAMPLE, d, Proceed);
    SomeIds(e.broker.pending, Reversal);
    assert e.broker.pending == a.broker.pending;
  }
}
