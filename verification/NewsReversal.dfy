/** Prices and targets of the fixed reversal. */
module ReversalPlan {
  import opened Basics
  import ReversalVolume

  // The targets still open after some were closed: the first ones, one for each.
  function TargetsAfter(closed: int, targets: seq<int>): (r: Result<seq<int>>)
    ensures r.Ok? <==> 0 <= closed <= |targets|
    ensures r.Ok? ==> |r.value| == |targets| - closed && r.value <= targets
  {
    if closed < 0 || closed > |targets| then Err("Invalid closed target count") else Ok(targets[..|targets| - closed])
  }

  // The reversal lies beyond the stop of the position it reverses, by the gap.
  function FixedPrice(d: Direction, entry: real, stopDistance: real, gap: real): (p: Result<real>)
    ensures p.Ok? <==> stopDistance > 0.0 && gap > 0.0
    ensures p.Ok? && d == Buy ==> p.value < entry - stopDistance && entry - stopDistance - p.value == gap
    ensures p.Ok? && d == Sell ==> p.value > entry + stopDistance && p.value - (entry + stopDistance) == gap
  {
    if stopDistance <= 0.0 then Err("Stop distance must be positive")
    else if gap <= 0.0 then Err("Reversal gap must be positive")
    else Ok(if d == Buy then entry - (stopDistance + gap) else entry + (stopDistance + gap))
  }

  // The lots of a leg as the database keeps them, to four decimals.
  function Stored(lots: real): real {
    (lots * 10_000.0 + 0.5).Floor as real / 10_000.0
  }

  // Math.round of the volume that a stored number of lots stands for.
  function ApiVolume(lots: real, lotSize: real): int {
    (lots * lotSize + 0.5).Floor
  }

  lemma Scaled(lots: real, lotSize: real)
    ensures Stored(lots) * lotSize == (lots * 10_000.0 + 0.5).Floor as real * (lotSize / 10_000.0)
  {
    var n := (lots * 10_000.0 + 0.5).Floor as real;
    assert n / 10_000.0 * lotSize == n * (lotSize / 10_000.0);
  }

  // With at most ten thousand units to the lot, every broker volume survives being stored as lots.
  lemma VolumeSurvives(volume: int, lotSize: real)
    requires volume > 0 && 0.0 < lotSize <= 10_000.0
    ensures ApiVolume(Stored(volume as real / lotSize), lotSize) == volume
  {
    var lots, c := volume as real / lotSize, lotSize / 10_000.0;
    var z := lots * 10_000.0;
    var n := (z + 0.5).Floor as real;
    Scaled(lots, lotSize);
    assert z * c == volume as real by {
      assert lots * lotSize == volume as real;
      assert lots * 10_000.0 * (lotSize / 10_000.0) == lots * lotSize;
    }
    Near(z, n, c);
  }

  lemma Near(z: real, n: real, c: real)
    requires 0.0 < c <= 1.0 && n == (z + 0.5).Floor as real && z * c == (z * c).Floor as real
    ensures (n * c + 0.5).Floor == (z * c).Floor
  {
    var off := n - z;
    assert -0.5 < off <= 0.5;
    assert n * c == z * c + off * c;
    if off >= 0.0 { assert off * c <= off; } else { assert off * c >= off; }
    if c < 1.0 && off > 0.0 { assert off * (1.0 - c) > 0.0; }
  }

  // With a multiple of ten thousand units to the lot, a volume survives exactly when it is a multiple of what the last
  // stored decimal stands for.
  lemma VolumeSurvivesExactly(volume: int, units: int)
    requires volume > 0 && units >= 1
    ensures ApiVolume(Stored(volume as real / (10_000 * units) as real), (10_000 * units) as real) == volume
            <==> volume % units == 0
  {
    var lots := volume as real / (10_000 * units) as real;
    var n := (lots * 10_000.0 + 0.5).Floor;
    StoredUnits(lots, units);
    hide Stored, ApiVolume;
    Divides(n, units);
    if volume % units == 0 {
      TenThousandths(volume, units);
      WholeQuotient(lots * 10_000.0, volume / units, units);
    }
  }

  lemma StoredUnits(lots: real, units: int)
    requires units >= 1
    ensures ApiVolume(Stored(lots), (10_000 * units) as real) == (lots * 10_000.0 + 0.5).Floor * units
  {
    var n := (lots * 10_000.0 + 0.5).Floor;
    Scaled(lots, (10_000 * units) as real);
    WholeUnits(n, units);
    hide Stored;
  }

  lemma WholeUnits(n: int, units: int)
    requires units >= 1
    ensures n as real * ((10_000 * units) as real / 10_000.0) == (n * units) as real
  {
    assert (10_000 * units) as real / 10_000.0 == units as real;
  }

  lemma TenThousandths(volume: int, units: int)
    requires units >= 1
    ensures volume as real / (10_000 * units) as real * 10_000.0 * units as real == volume as real
    ensures volume % units == 0 ==> volume == volume / units * units
  {
    var lotSize := (10_000 * units) as real;
    var lots := volume as real / lotSize;
    assert lots * lotSize == volume as real;
    assert lots * 10_000.0 * units as real == lots * lotSize;
  }

  lemma WholeQuotient(x: real, q: int, units: int)
    requires units >= 1 && x * units as real == (q * units) as real
    ensures x == q as real
  {
    assert (q * units) as real == q as real * units as real;
    assert (x - q as real) * units as real == 0.0;
  }

  lemma Divides(n: int, units: int)
    requires units >= 1
    ensures (n * units) % units == 0
  {
    ReversalVolume.Quotient(n * units, units, n, 0);
  }
}

/**
 * One NEWS_REVERSAL job under every interleaving: the two writes of each fill event land separately, and any number of
 * protection syncs are in flight at once, each working from the snapshot it read when it began.
 */
module OneReversal {
  import opened Basics
  import opened ReversalPlan

  datatype Fill = Fill(direction: Direction, price: real)

  datatype Snapshot = Snapshot(direction: Direction, entry: real)

  datatype ReversalLeg = ReversalLeg(direction: Direction, price: real)

  // The second half of recording a fill: the guarded write to the job row.
  datatype JobWrite = FromInitial(direction: Direction) | FromReversal(direction: Direction)

  datatype State = State(
    active: Option<Direction>, reversalCount: nat, completed: bool,
    fills: seq<Fill>, writes: seq<JobWrite>, syncs: seq<Snapshot>, reversals: seq<ReversalLeg>,
    first: Option<Direction>, flips: nat)

  datatype Action =
    | InitialFilled(fill: Fill)
    | ReversalFilled(leg: nat)
    | WriteLands(write: nat)
    | SyncReads(active: nat)       // which filled initial leg the query lists first
    | SyncPlaces(sync: nat)
    | SyncEnds(sync: nat)
    | Completed

  datatype Setup = Setup(stopDistance: real, gap: real)

  ghost predicate ValidSetup(c: Setup) {
    c.stopDistance > 0.0 && c.gap > 0.0
  }

  function Start(): State {
    State(None, 0, false, [], [], [], [], None, 0)
  }

  function Land(s: State, w: JobWrite): State {
    match w
    case FromInitial(d) =>
      if s.active.None? then s.(active := Some(d), first := Some(d)) else s
    case FromReversal(d) =>
      if s.reversalCount == 0
      then s.(reversalCount := 1, active := Some(d), flips := s.flips + (if s.active == Some(d) then 0 else 1))
      else s
  }

  function Do(c: Setup, s: State, a: Action): State
    requires ValidSetup(c)
  {
    match a
    case InitialFilled(fill) => s.(fills := s.fills + [fill], writes := s.writes + [FromInitial(fill.direction)])
    case ReversalFilled(i) =>
      if i < |s.reversals| then s.(writes := s.writes + [FromReversal(s.reversals[i].direction)]) else s
    case WriteLands(i) =>
      if i < |s.writes| then Land(s.(writes := s.writes[..i] + s.writes[i + 1..]), s.writes[i]) else s
    case SyncReads(i) =>
      if i < |s.fills| && s.active == Some(s.fills[i].direction) && s.reversalCount == 0 && !s.completed
      then s.(syncs := s.syncs + [Snapshot(s.fills[i].direction, s.fills[i].price)]) else s
    case SyncPlaces(i) =>
      if i < |s.syncs| then
        var snapshot := s.syncs[i];
        s.(reversals := s.reversals + [ReversalLeg(Opposite(snapshot.direction),
             FixedPrice(snapshot.direction, snapshot.entry, c.stopDistance, c.gap).value)])
      else s
    case SyncEnds(i) => if i < |s.syncs| then s.(syncs := s.syncs[..i] + s.syncs[i + 1..]) else s
    case Completed => s.(completed := true)
  }

  function Run(c: Setup, actions: seq<Action>): State
    requires ValidSetup(c)
  {
    if actions == [] then Start() else Do(c, Run(c, actions[..|actions| - 1]), actions[|actions| - 1])
  }

  ghost predicate Recorded(fills: seq<Fill>, d: Direction, price: real) {
    exists k :: 0 <= k < |fills| && fills[k] == Fill(d, price)
  }

  // A reversal price comes from the price some initial leg on the other side really got.
  ghost predicate FromFill(c: Setup, fills: seq<Fill>, leg: ReversalLeg)
    requires ValidSetup(c)
  {
    exists k :: 0 <= k < |fills| && fills[k].direction == Opposite(leg.direction)
                && leg.price == FixedPrice(fills[k].direction, fills[k].price, c.stopDistance, c.gap).value
  }

  ghost predicate DirectionsAgree(s: State) {
    && (s.first.None? ==> s.active.None? && s.reversalCount == 0 && s.syncs == [] && s.reversals == [])
    && (s.first.Some? ==> s.active == Some(if s.reversalCount == 0 then s.first.value else Opposite(s.first.value)))
    && s.reversalCount <= 1 && s.flips == s.reversalCount
    && (forall i :: 0 <= i < |s.syncs| ==> s.first == Some(s.syncs[i].direction))
    && (forall i :: 0 <= i < |s.reversals| ==> s.first == Some(Opposite(s.reversals[i].direction)))
    && (forall i :: 0 <= i < |s.writes| && s.writes[i].FromReversal? ==>
        s.first == Some(Opposite(s.writes[i].direction)))
  }

  ghost predicate PricesFromFills(c: Setup, s: State)
    requires ValidSetup(c)
  {
    && (forall i :: 0 <= i < |s.syncs| ==> Recorded(s.fills, s.syncs[i].direction, s.syncs[i].entry))
    && (forall i :: 0 <= i < |s.reversals| ==> FromFill(c, s.fills, s.reversals[i]))
  }

  lemma DirectionsStep(c: Setup, s: State, a: Action)
    requires ValidSetup(c) && DirectionsAgree(s)
    ensures DirectionsAgree(Do(c, s, a))
  {
  }

  lemma FillsGrow(c: Setup, fills: seq<Fill>, x: Fill)
    requires ValidSetup(c)
    ensures forall d, price :: Recorded(fills, d, price) ==> Recorded(fills + [x], d, price)
    ensures forall leg :: FromFill(c, fills, leg) ==> FromFill(c, fills + [x], leg)
  {
    var more := fills + [x];
    assert forall k :: 0 <= k < |fills| ==> more[k] == fills[k];
    forall d, price | Recorded(fills, d, price) ensures Recorded(more, d, price) {
      var k :| 0 <= k < |fills| && fills[k] == Fill(d, price);
      assert more[k] == Fill(d, price);
    }
    forall leg | FromFill(c, fills, leg) ensures FromFill(c, more, leg) {
      var k :| 0 <= k < |fills| && fills[k].direction == Opposite(leg.direction)
               && leg.price == FixedPrice(fills[k].direction, fills[k].price, c.stopDistance, c.gap).value;
      assert more[k] == fills[k];
    }
  }

  lemma PlacedFromFill(c: Setup, fills: seq<Fill>, snapshot: Snapshot)
    requires ValidSetup(c) && Recorded(fills, snapshot.direction, snapshot.entry)
    ensures FromFill(c, fills, ReversalLeg(Opposite(snapshot.direction),
              FixedPrice(snapshot.direction, snapshot.entry, c.stopDistance, c.gap).value))
  {
  }

  lemma PricesStep(c: Setup, s: State, a: Action)
    requires ValidSetup(c) && PricesFromFills(c, s)
    ensures PricesFromFills(c, Do(c, s, a))
  {
    if a.InitialFilled? {
      FillsGrow(c, s.fills, a.fill);
    } else if a.SyncReads? && a.active < |s.fills| {
      assert Recorded(s.fills, s.fills[a.active].direction, s.fills[a.active].price);
    } else if a.SyncPlaces? && a.sync < |s.syncs| {
      PlacedFromFill(c, s.fills, s.syncs[a.sync]);
    }
    hide Recorded, FromFill, FixedPrice;
  }

  // One reversal only: the counter reaches at most one, every reversal leg points against the first recorded fill, the
  // active direction has flipped exactly as often as a reversal was counted.
  lemma {:induction false} AtMostOneReversal(c: Setup, actions: seq<Action>)
    requires ValidSetup(c)
    ensures var s := Run(c, actions);
            && s.reversalCount <= 1 && s.flips == s.reversalCount
            && (forall i :: 0 <= i < |s.reversals| ==> s.first == Some(Opposite(s.reversals[i].direction)))
            && (s.reversalCount == 1 ==> s.first.Some? && s.active == Some(Opposite(s.first.value)))
            && (s.reversalCount == 0 ==> s.active == s.first)
    ensures DirectionsAgree(Run(c, actions)) && PricesFromFills(c, Run(c, actions))
  {
    hide Do;
    if actions != [] {
      var most, last := actions[..|actions| - 1], actions[|actions| - 1];
      AtMostOneReversal(c, most);
      DirectionsStep(c, Run(c, most), last);
      PricesStep(c, Run(c, most), last);
    }
  }

  // The price is fixed: when every initial fill gets the same price, every reversal leg of every sync, however many
  // targets were closed before it, is at one price beyond the initial stop.
  lemma ReversalPriceFixed(c: Setup, actions: seq<Action>, price: real)
    requires ValidSetup(c)
    requires forall i :: 0 <= i < |Run(c, actions).fills| ==> Run(c, actions).fills[i].price == price
    ensures var s := Run(c, actions);
            forall i :: 0 <= i < |s.reversals| ==>
              s.first.Some? && s.reversals[i].price == FixedPrice(s.first.value, price, c.stopDistance, c.gap).value
  {
    hide Run;
    AtMostOneReversal(c, actions);
    var s := Run(c, actions);
    forall i | 0 <= i < |s.reversals|
      ensures s.first.Some? && s.reversals[i].price == FixedPrice(s.first.value, price, c.stopDistance, c.gap).value
    {
      assert FromFill(c, s.fills, s.reversals[i]);
    }
  }

  // Without equal fills it moves: two syncs, one after the other, that list different legs first place at
  // different prices.
  lemma UnequalFillsMoveThePrice(c: Setup, p: real, q: real)
    requires ValidSetup(c) && p != q
    ensures var actions := [InitialFilled(Fill(Buy, p)), WriteLands(0), InitialFilled(Fill(Buy, q)),
                            SyncReads(0), SyncPlaces(0), SyncEnds(0), SyncReads(1), SyncPlaces(0)];
            var s := Run(c, actions);
            |s.reversals| == 2 && s.reversals[0].price != s.reversals[1].price
  {
    var actions := [InitialFilled(Fill(Buy, p)), WriteLands(0), InitialFilled(Fill(Buy, q)),
                    SyncReads(0), SyncPlaces(0), SyncEnds(0), SyncReads(1), SyncPlaces(0)];
    assert actions[..0] == [] && actions[..8] == actions;
    RunStep(c, actions, 0); RunStep(c, actions, 1); RunStep(c, actions, 2); RunStep(c, actions, 3);
    RunStep(c, actions, 4); RunStep(c, actions, 5); RunStep(c, actions, 6); RunStep(c, actions, 7);
    TwoBuyFills(c, p, q);
    hide Run, Do;
    TwoSyncs(c, Run(c, actions[..3]));
  }

  lemma TwoBuyFills(c: Setup, p: real, q: real)
    requires ValidSetup(c)
    ensures var s := Do(c, Do(c, Do(c, Start(), InitialFilled(Fill(Buy, p))), WriteLands(0)),
              InitialFilled(Fill(Buy, q)));
            s == State(Some(Buy), 0, false, [Fill(Buy, p), Fill(Buy, q)], [FromInitial(Buy)], [], [], Some(Buy), 0)
  {
  }

  lemma TwoSyncs(c: Setup, s: State)
    requires ValidSetup(c) && s.active == Some(Buy) && s.reversalCount == 0 && !s.completed
    requires |s.fills| == 2 && s.fills[0].direction == s.fills[1].direction == Buy
              && s.fills[0].price != s.fills[1].price
    requires s.syncs == [] && s.reversals == []
    ensures var u := Do(c, Do(c, Do(c, s, SyncReads(0)), SyncPlaces(0)), SyncEnds(0));
            var t := Do(c, Do(c, u, SyncReads(1)), SyncPlaces(0));
            |t.reversals| == 2 && t.reversals[0].price != t.reversals[1].price
  {
    var u := Do(c, Do(c, s, SyncReads(0)), SyncPlaces(0));
    assert u == s.(syncs := u.syncs, reversals := u.reversals) && |u.syncs| == 1 && |u.reversals| == 1;
    assert Do(c, u, SyncEnds(0)) == u.(syncs := []);
  }

  lemma RunStep(c: Setup, actions: seq<Action>, k: nat)
    requires ValidSetup(c) && k < |actions|
    ensures Run(c, actions[..k + 1]) == Do(c, Run(c, actions[..k]), actions[k])
  {
    assert actions[..k + 1][..k] == actions[..k];
  }
}
