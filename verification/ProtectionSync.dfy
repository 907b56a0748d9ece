/** One protection sync of a NEWS_REVERSAL job whose broker calls all succeed. */
module ProtectionSync {
  import opened Basics
  import opened ReversalPlan
  import TradeJobState

  datatype Purpose = Initial | Reversal

  // The unique key of a leg row within its job.
  datatype Key = Key(purpose: Purpose, direction: Direction, target: nat, revision: nat)

  datatype LegStatus = Planned | Submitted | Filled | ClosedTp | ClosedSl | ClosedManual | Cancelled

  // How far a job is, as its row says.
  datatype Stage = BuyActive | SellActive | Tp1Protected | Tp2Protected | ReversalActive | Completed

  datatype Row = Row(status: TradeJobState.Status, stage: Option<Stage>)

  datatype Leg = Leg(
    planned: real, entry: real, stop: real, take: real, order: Option<nat>, position: Option<nat>, status: LegStatus)

  datatype Order = Order(side: Direction, volume: int, price: real)

  datatype Job = Job(
    active: Option<Direction>, reversed: bool, completed: bool, stopPoints: nat, gapPoints: nat, targets: seq<nat>)

  datatype Symbol = Symbol(point: real, lotSize: real, round: real -> real)

  ghost predicate Sound(job: Job, sym: Symbol) {
    |job.targets| == 3 && sym.point > 0.0 && sym.lotSize > 0.0
  }

  predicate FilledInitial(legs: map<Key, Leg>, d: Direction, target: nat) {
    var k := Key(Initial, d, target, 0);
    k in legs && legs[k].status == Filled
  }

  // The targets of the still filled initial legs of one side, in order.
  function ActiveTargets(legs: map<Key, Leg>, d: Direction): (ts: seq<nat>)
    ensures |ts| <= 3
    ensures forall i :: 0 <= i < |ts| ==> 1 <= ts[i] <= 3 && FilledInitial(legs, d, ts[i])
    ensures forall t :: t in ts <==> 1 <= t <= 3 && FilledInitial(legs, d, t)
    ensures forall i, j :: 0 <= i < j < |ts| ==> ts[i] < ts[j]
  {
    (if FilledInitial(legs, d, 1) then [1] else []) + (if FilledInitial(legs, d, 2) then [2] else [])
    + (if FilledInitial(legs, d, 3) then [3] else [])
  }

  function ClosedTargets(legs: map<Key, Leg>, d: Direction): (n: nat)
    ensures n <= 3
    ensures n + |ActiveTargets(legs, d)| <= 3
  {
    var at := t => var k := Key(Initial, d, t, 0); if k in legs && legs[k].status == ClosedTp then 1 else 0;
    at(1) + at(2) + at(3)
  }

  function Points(sym: Symbol, n: nat): real {
    n as real * sym.point
  }

  // The one price of the reversal legs, from the entry of the filled leg that is listed first.
  function EntryPrice(d: Direction, job: Job, sym: Symbol, reference: real): (p: Result<real>)
    requires Sound(job, sym)
    ensures p.Ok? <==> job.stopPoints >= 1 && job.gapPoints >= 1
  {
    var exact := FixedPrice(d, reference, Points(sym, job.stopPoints), Points(sym, job.gapPoints));
    if exact.Ok? then Ok(sym.round(exact.value)) else exact
  }

  // Submitted legs and pending broker orders correspond one to one.
  ghost predicate Linked(legs: map<Key, Leg>, pending: map<nat, Order>, nextId: nat) {
    && (forall k :: IsSubmitted(legs, k) ==> legs[k].order.Some? && legs[k].order.value in pending)
    && (forall k, l :: IsSubmitted(legs, k) && IsSubmitted(legs, l) && legs[k].order == legs[l].order ==> k == l)
    && (forall o :: o in pending ==> o < nextId && exists k :: IsSubmitted(legs, k) && legs[k].order == Some(o))
  }

  predicate IsSubmitted(legs: map<Key, Leg>, k: Key) {
    k in legs && legs[k].status == Submitted
  }

  // A filled leg on the side that is not the active one.
  predicate WrongSide(legs: map<Key, Leg>, k: Key, d: Direction) {
    k in legs && legs[k].status == Filled && k.direction != d && legs[k].position.Some?
  }

  predicate Accidental(legs: map<Key, Leg>, k: Key, d: Direction) {
    WrongSide(legs, k, d) && k.purpose == Initial
  }

  // The legs that one pass cancels, and those that it closes.
  predicate ToCancel(legs: map<Key, Leg>, k: Key, initialOnly: bool) {
    IsSubmitted(legs, k) && (initialOnly ==> k.purpose == Initial)
  }

  predicate ToClose(legs: map<Key, Leg>, k: Key, d: Direction, initialOnly: bool) {
    WrongSide(legs, k, d) && (initialOnly ==> k.purpose == Initial)
  }

  lemma CancelOne(legs: map<Key, Leg>, pending: map<nat, Order>, nextId: nat, k: Key)
    requires Linked(legs, pending, nextId) && IsSubmitted(legs, k)
    ensures legs[k].order.Some?
    ensures Linked(legs[k := legs[k].(status := Cancelled)], pending - {legs[k].order.value}, nextId)
  {
    var after := legs[k := legs[k].(status := Cancelled)];
    forall o | o in pending - {legs[k].order.value}
      ensures o < nextId && exists l :: IsSubmitted(after, l) && after[l].order == Some(o)
    {
      var l :| IsSubmitted(legs, l) && legs[l].order == Some(o);
      assert IsSubmitted(after, l) && after[l].order == Some(o);
    }
    assert forall l :: IsSubmitted(after, l) ==> IsSubmitted(legs, l) && after[l] == legs[l];
  }

  lemma NothingPending(legs: map<Key, Leg>, pending: map<nat, Order>, nextId: nat)
    requires Linked(legs, pending, nextId) && forall k :: !IsSubmitted(legs, k)
    ensures pending == map[]
  {
    assert forall o :: o !in pending;
  }

  lemma SubmitOne(legs: map<Key, Leg>, pending: map<nat, Order>, nextId: nat, k: Key, leg: Leg, order: Order)
    requires Linked(legs, pending, nextId) && !IsSubmitted(legs, k) && leg.order == Some(nextId)
              && leg.status == Submitted
    ensures Linked(legs[k := leg], pending[nextId := order], nextId + 1) && nextId !in pending
  {
    var after, orders := legs[k := leg], pending[nextId := order];
    assert forall l :: IsSubmitted(after, l) && l != k ==> IsSubmitted(legs, l) && after[l] == legs[l];
    forall o | o in orders
      ensures o < nextId + 1 && exists l :: IsSubmitted(after, l) && after[l].order == Some(o)
    {
      if o == nextId { assert IsSubmitted(after, k) && after[k].order == Some(o); } else {
        var l :| IsSubmitted(legs, l) && legs[l].order == Some(o);
        assert IsSubmitted(after, l) && after[l].order == Some(o);
      }
    }
  }

  ghost predicate SameInitial(before: map<Key, Leg>, after: map<Key, Leg>) {
    forall k: Key :: k.purpose == Initial ==> (k in after <==> k in before) && (k in after ==> after[k] == before[k])
  }

  lemma InitialUntouched(before: map<Key, Leg>, after: map<Key, Leg>, d: Direction)
    requires SameInitial(before, after) && forall k :: !Accidental(before, k, d)
    ensures forall k :: !Accidental(after, k, d)
    ensures forall t: nat :: FilledInitial(before, d, t) ==> FilledInitial(after, d, t)
    ensures forall t: nat ::
              FilledInitial(before, d, t) ==> after[Key(Initial, d, t, 0)] == before[Key(Initial, d, t, 0)]
  {
    forall k ensures !Accidental(after, k, d) {
      assert !Accidental(before, k, d);
    }
  }

  lemma OneMoreSubmitted(legs: map<Key, Leg>, key: Key, leg: Leg)
    requires leg.status == Submitted
    ensures forall k :: IsSubmitted(legs[key := leg], k) <==> IsSubmitted(legs, k) || k == key
  {
  }

  // A submitted reversal leg that mirrors a filled leg, with its stop and target, and the broker order behind it.
  ghost predicate Mirrors(legs: map<Key, Leg>, pending: map<nat, Order>, k: Key, planned: real, price: real,
                          stop: real, take: real, lotSize: real)
  {
    && k in legs && legs[k].order.Some? && legs[k].order.value in pending
    && legs[k] == Leg(planned, price, stop, take, legs[k].order, None, Submitted)
    && pending[legs[k].order.value] == Order(k.direction, ApiVolume(planned, lotSize), price)
  }

  // The profit distance of the leg at an index: the targets still ahead, the last one repeated.
  function LegTarget(closed: nat, targets: seq<nat>, index: nat): nat
    requires |targets| == 3 && closed < 3
  {
    var ahead := TargetsAfter(closed, targets).value;
    ahead[if index < |ahead| then index else |ahead| - 1]
  }

  // The reversal legs of one sync.
  predicate IsReversal(k: Key, d: Direction, closed: nat, count: nat) {
    k.purpose == Reversal && k.direction == Opposite(d) && k.revision == closed && 1 <= k.target <= count
  }

  function ReversalKey(d: Direction, target: nat, closed: nat): Key {
    Key(Reversal, Opposite(d), target, closed)
  }

  lemma OneMoreReversal(d: Direction, closed: nat, count: nat)
    ensures forall k :: IsReversal(k, d, closed, count + 1) <==>
              IsReversal(k, d, closed, count) || k == ReversalKey(d, count + 1, closed)
  {
    forall k ensures IsReversal(k, d, closed, count + 1) <==>
                       IsReversal(k, d, closed, count) || k == ReversalKey(d, count + 1, closed)
    {
      OneReversalKey(k, d, closed, count);
    }
  }

  lemma OneReversalKey(k: Key, d: Direction, closed: nat, count: nat)
    ensures IsReversal(k, d, closed, count + 1) <==>
              IsReversal(k, d, closed, count) || k == ReversalKey(d, count + 1, closed)
  {
    assert k == Key(k.purpose, k.direction, k.target, k.revision);
  }

  lemma SameSubmitted(before: map<Key, Leg>, after: map<Key, Leg>, pending: map<nat, Order>, nextId: nat)
    requires Linked(before, pending, nextId) && before.Keys == after.Keys
    requires forall k :: k in before && before[k] != after[k] ==>
              before[k].status == Filled && after[k].status == ClosedManual
    ensures Linked(after, pending, nextId) && forall k :: IsSubmitted(after, k) <==> IsSubmitted(before, k)
  {
    assert forall k :: IsSubmitted(after, k) <==> IsSubmitted(before, k);
    assert forall k :: IsSubmitted(after, k) ==> after[k] == before[k];
    forall o | o in pending ensures exists l :: IsSubmitted(after, l) && after[l].order == Some(o) {
      var l :| IsSubmitted(before, l) && before[l].order == Some(o);
      assert IsSubmitted(after, l) && after[l].order == Some(o);
    }
  }

  lemma ClosedOne(legs: map<Key, Leg>, k: Key, d: Direction, initialOnly: bool)
    requires ToClose(legs, k, d, initialOnly)
    ensures k in legs && legs[k].position.Some?
    ensures forall l :: ToClose(legs[k := legs[k].(status := ClosedManual)], l, d, initialOnly) <==>
              ToClose(legs, l, d, initialOnly) && l != k
  {
  }

  lemma InLegs(legs: map<Key, Leg>, d: Direction, initialOnly: bool)
    ensures forall k :: ToClose(legs, k, d, initialOnly) ==> k in legs && legs[k].position.Some?
  {
  }

  datatype Outcome = Idle | Cleared | Finished | Refused | Protected

  class Desk {
    var legs: map<Key, Leg>
    var pending: map<nat, Order>   // the job's pending orders at the broker
    var open: set<nat>             // its open positions
    var nextId: nat
    var row: Row
    var reports: seq<TradeJobState.Phase>        // the phases reported for the job

    ghost predicate Valid()
      reads this
    {
      Linked(legs, pending, nextId)
    }

    // cancelLegs for the submitted legs, or the initial ones among them.
    method CancelSubmitted(initialOnly: bool)
      requires Valid()
      modifies this`legs, this`pending
      ensures Valid() && (!initialOnly ==> pending == map[])
      ensures legs.Keys == old(legs).Keys
      ensures forall k :: k in legs ==>
                legs[k] == if ToCancel(old(legs), k, initialOnly) then old(legs)[k].(status := Cancelled)
                    else old(legs)[k]
    {
      hide Linked;
      var todo := set k | k in legs && ToCancel(legs, k, initialOnly);
      while todo != {}
        invariant Valid() && legs.Keys == old(legs).Keys
        invariant forall k :: k in todo <==> ToCancel(legs, k, initialOnly)
        invariant forall k :: k in legs ==>
          legs[k] == if ToCancel(old(legs), k, initialOnly) && k !in todo
                     then old(legs)[k].(status := Cancelled) else old(legs)[k]
        decreases |todo|
      {
        var k :| k in todo;
        CancelOne(legs, pending, nextId, k);
        pending := pending - {legs[k].order.value};
        legs := legs[k := legs[k].(status := Cancelled)];
        todo := todo - {k};
      }
      if !initialOnly {
        assert forall k :: IsSubmitted(legs, k) ==> ToCancel(legs, k, false);
        NothingPending(legs, pending, nextId);
      }
    }

    // closeLegPosition for the legs that filled on the wrong side, or the initial ones among them.
    method CloseWrongSide(d: Direction, initialOnly: bool)
      modifies this`legs, this`open
      ensures legs.Keys == old(legs).Keys && open <= old(open)
      ensures forall k :: k in legs ==>
                legs[k] == if ToClose(old(legs), k, d, initialOnly) then old(legs)[k].(status := ClosedManual)
                    else old(legs)[k]
      ensures forall k :: ToClose(old(legs), k, d, initialOnly) ==> old(legs)[k].position.value !in open
    {
      InLegs(legs, d, initialOnly);
      hide ToClose;
      var todo := set k | k in legs && ToClose(legs, k, d, initialOnly);
      while todo != {}
        invariant legs.Keys == old(legs).Keys && open <= old(open)
        invariant forall k :: k in todo <==> ToClose(legs, k, d, initialOnly)
        invariant forall k :: k in todo ==> ToClose(old(legs), k, d, initialOnly)
        invariant forall k :: k in legs ==>
          legs[k] == if ToClose(old(legs), k, d, initialOnly) && k !in todo
                     then old(legs)[k].(status := ClosedManual) else old(legs)[k]
        invariant forall k ::
                  ToClose(old(legs), k, d, initialOnly) && k !in todo ==> old(legs)[k].position.value !in open
        decreases |todo|
      {
        var k :| k in todo;
        ClosedOne(legs, k, d, initialOnly);
        open := open - {legs[k].position.value};
        legs := legs[k := legs[k].(status := ClosedManual)];
        todo := todo - {k};
      }
    }

    // Closing filled legs leaves the submitted ones and their orders as they are.
    method CloseKept(d: Direction, initialOnly: bool)
      requires Valid()
      modifies this`legs, this`open
      ensures Valid() && open <= old(open) && legs.Keys == old(legs).Keys
      ensures forall k :: IsSubmitted(legs, k) <==> IsSubmitted(old(legs), k)
      ensures forall k :: k in legs ==>
                legs[k] == if ToClose(old(legs), k, d, initialOnly) then old(legs)[k].(status := ClosedManual)
                    else old(legs)[k]
      ensures forall k :: ToClose(old(legs), k, d, initialOnly) ==> old(legs)[k].position.value !in open
    {
      CloseWrongSide(d, initialOnly);
      SameSubmitted(old(legs), legs, pending, nextId);
    }

    method PlaceReversal(key: Key, planned: real, price: real, stop: real, take: real, volume: int)
      requires Valid() && !IsSubmitted(legs, key)
      modifies this`legs, this`pending, this`nextId, this`row, this`reports
      ensures Valid() && old(nextId) !in old(pending)
      ensures row == Placed(old(row)) && reports == old(reports) + [TradeJobState.PhSubmitted]
      ensures legs == old(legs)[key := Leg(planned, price, stop, take, Some(old(nextId)), None, Submitted)]
      ensures pending == old(pending)[old(nextId) := Order(key.direction, volume, price)]
    {
      ghost var placed := Leg(planned, price, stop, take, Some(nextId), None, Submitted);
      SubmitOne(legs, pending, nextId, key, placed, Order(key.direction, volume, price));
      legs := legs[key := Leg(planned, price, stop, take, None, None, Planned)];
      var id := nextId;
      nextId := nextId + 1;
      pending := pending[id := Order(key.direction, volume, price)];
      if row.status == TradeJobState.Armed || row.status == TradeJobState.Submitted {
        row := row.(status := TradeJobState.Submitted);
      }
      reports := reports + [TradeJobState.PhSubmitted];
      legs := legs[key := legs[key].(order := Some(id), status := Submitted)];
      assert legs == old(legs)[key := placed];
    }

    // Nothing of the job is pending afterwards and nothing of the first side has changed.
    method Quieten(d: Direction)
      requires Valid()
      modifies this`legs, this`pending, this`open
      ensures Valid() && pending == map[] && forall k :: !IsSubmitted(legs, k)
      ensures forall t :: FilledInitial(old(legs), d, t) ==>
                FilledInitial(legs, d, t) && legs[Key(Initial, d, t, 0)] == old(legs)[Key(Initial, d, t, 0)]
      ensures forall k :: !Accidental(legs, k, d)
    {
      CancelSubmitted(false);
      assert forall k :: IsSubmitted(old(legs), k) ==> ToCancel(old(legs), k, false);
      assert forall k :: !IsSubmitted(legs, k);
      CloseKept(d, true);
    }

    method PlaceAll(d: Direction, closed: nat, sources: seq<Leg>, price: real, stop: real, takes: seq<real>,
        lotSize: real)
      requires Valid() && (forall k :: !IsSubmitted(legs, k)) && |takes| == |sources|
      modifies this`legs, this`pending, this`nextId, this`row, this`reports
      ensures Valid() && row == (if sources == [] then old(row) else Placed(old(row)))
      ensures reports == old(reports) + Submissions(|sources|)
      ensures forall k :: IsSubmitted(legs, k) <==> IsReversal(k, d, closed, |sources|)
      ensures forall i :: 0 <= i < |sources| ==>
                Mirrors(legs, pending, ReversalKey(d, i + 1, closed), sources[i].planned, price, stop, takes[i],
                    lotSize)
      ensures SameInitial(old(legs), legs)
    {
      hide Linked;
      for i := 0 to |sources|
        invariant Valid() && row == (if i == 0 then old(row) else Placed(old(row)))
        invariant reports == old(reports) + Submissions(i)
        invariant forall k :: IsSubmitted(legs, k) <==> IsReversal(k, d, closed, i)
        invariant forall j :: 0 <= j < i ==>
          Mirrors(legs, pending, ReversalKey(d, j + 1, closed), sources[j].planned, price, stop, takes[j], lotSize)
        invariant SameInitial(old(legs), legs)
      {
        var before := legs;
        OneMoreReversal(d, closed, i);
        PlaceReversal(ReversalKey(d, i + 1, closed), sources[i].planned, price, stop, takes[i],
          ApiVolume(sources[i].planned, lotSize));
        assert legs == before[ReversalKey(d, i + 1, closed) := legs[ReversalKey(d, i + 1, closed)]];
        OneMoreSubmitted(before, ReversalKey(d, i + 1, closed), legs[ReversalKey(d, i + 1, closed)]);
        forall k ensures IsSubmitted(legs, k) <==> IsReversal(k, d, closed, i + 1) {
          assert IsSubmitted(before, k) <==> IsReversal(k, d, closed, i);
        }
      }
    }

    // The main branch: the job has no reversal yet and some leg of its first side is still filled. `listed` is the
    // target of the one that the query returns first.
    method Protect(d: Direction, job: Job, sym: Symbol, listed: nat) returns (outcome: Outcome)
      requires Valid() && Sound(job, sym) && listed in ActiveTargets(legs, d)
      modifies this
      ensures Valid() && (outcome == Refused ==> row == old(row))
      ensures reports == old(reports)
                + (if outcome == Protected then Submissions(|ActiveTargets(old(legs), d)|) else [])
      ensures outcome == if job.stopPoints >= 1 && job.gapPoints >= 1 then Protected else Refused
      ensures outcome == Refused ==> pending == map[] && forall k :: !IsSubmitted(legs, k)
      // exactly one submitted leg for each leg still filled, all on the other side
      ensures outcome == Protected ==> forall k :: IsSubmitted(legs, k) <==>
                IsReversal(k, d, ClosedTargets(old(legs), d), |ActiveTargets(old(legs), d)|)
      // with its volume and all at one price
      ensures outcome == Protected ==>
                var ts := ActiveTargets(old(legs), d);
                var price := EntryPrice(d, job, sym, old(legs)[Key(Initial, d, listed, 0)].entry).value;
                forall i :: 0 <= i < |ts| ==>
                  Mirrors(legs, pending, ReversalKey(d, i + 1, ClosedTargets(old(legs), d)),
                          old(legs)[Key(Initial, d, ts[i], 0)].planned, price,
                          Stop(sym, Opposite(d), price, job.stopPoints),
                          Take(sym, Opposite(d), price, LegTarget(ClosedTargets(old(legs), d), job.targets, i)),
                          sym.lotSize)
      // the protected legs stay as they were, and no initial leg stays open on the other side
      ensures forall t :: FilledInitial(old(legs), d, t) ==>
                FilledInitial(legs, d, t) && legs[Key(Initial, d, t, 0)] == old(legs)[Key(Initial, d, t, 0)]
      ensures forall k :: !Accidental(legs, k, d)
    {
      hide Linked, SameInitial, Mirrors, ClosedTargets, ActiveTargets, EntryPrice;
      var opposite := Opposite(d);
      var ts := ActiveTargets(legs, d);
      var closed := ClosedTargets(legs, d);
      var rows := legs;
      var sources := seq(|ts|, i requires 0 <= i < |ts| => rows[Key(Initial, d, ts[i], 0)]);
      Quieten(d);
      var reference := EntryPrice(d, job, sym, rows[Key(Initial, d, listed, 0)].entry);
      if reference.Err? {
        return Refused;
      }
      var price := reference.value;
      var takes := seq(|ts|, i requires 0 <= i < |ts| =>
        Take(sym, opposite, price, LegTarget(closed, job.targets, i)));
      ghost var quiet := legs;
      PlaceAll(d, closed, sources, price, Stop(sym, opposite, price, job.stopPoints), takes, sym.lotSize);
      InitialUntouched(quiet, legs, d);
      forall i | 0 <= i < |ts|
        ensures Mirrors(legs, pending, ReversalKey(d, i + 1, closed), rows[Key(Initial, d, ts[i], 0)].planned, price,
                        Stop(sym, opposite, price, job.stopPoints),
                            Take(sym, opposite, price, LegTarget(closed, job.targets, i)),
                        sym.lotSize)
      {
        assert sources[i] == rows[Key(Initial, d, ts[i], 0)];
      }
      return Protected;
    }

    // After a reversal only it may stay: nothing initial is pending, and nothing on the other side is open.
    method ClearStale(d: Direction)
      requires Valid()
      modifies this`legs, this`pending, this`open
      ensures Valid() && open <= old(open) && legs.Keys == old(legs).Keys
      ensures forall k :: !ToCancel(legs, k, true) && !WrongSide(legs, k, d)
      ensures forall k :: k in legs && !ToCancel(old(legs), k, true) && !WrongSide(old(legs), k, d) ==>
                legs[k] == old(legs)[k]
      ensures forall k :: WrongSide(old(legs), k, d) ==> old(legs)[k].position.value !in open
    {
      hide Linked;
      CancelSubmitted(true);
      assert forall k :: WrongSide(old(legs), k, d) ==> WrongSide(legs, k, d) && legs[k] == old(legs)[k];
      assert forall k :: !ToCancel(legs, k, true);
      CloseKept(d, false);
      assert forall k :: WrongSide(legs, k, d) ==> ToClose(legs, k, d, false);
    }

    // syncNewsReversalProtection, every broker call succeeding.
    method Sync(job: Job, sym: Symbol, listed: nat) returns (outcome: Outcome)
      requires Valid() && Sound(job, sym)
      requires job.active.Some? && ActiveTargets(legs, job.active.value) != [] ==>
                listed in ActiveTargets(legs, job.active.value)
      modifies this
      ensures Valid()
      ensures outcome == SyncOutcome(old(legs), job)
      ensures row == RowAfter(old(row), outcome, old(legs), job)
      ensures reports == old(reports) + Reported(outcome, old(legs), job)
      ensures outcome == Idle ==> legs == old(legs) && pending == old(pending) && open == old(open)
      ensures outcome == Finished || outcome == Refused ==> pending == map[] && forall k :: !IsSubmitted(legs, k)
      ensures outcome == Cleared ==> forall k :: !ToCancel(legs, k, true) && !WrongSide(legs, k, job.active.value)
      ensures outcome == Protected ==>
                var d := job.active.value;
                && (forall k :: IsSubmitted(legs, k) <==>
                     IsReversal(k, d, ClosedTargets(old(legs), d), |ActiveTargets(old(legs), d)|))
                && (forall k :: !Accidental(legs, k, d))
                && var ts := ActiveTargets(old(legs), d);
                   var price := EntryPrice(d, job, sym, old(legs)[Key(Initial, d, listed, 0)].entry).value;
                   forall i :: 0 <= i < |ts| ==>
                     Mirrors(legs, pending, ReversalKey(d, i + 1, ClosedTargets(old(legs), d)),
                             old(legs)[Key(Initial, d, ts[i], 0)].planned, price,
                             Stop(sym, Opposite(d), price, job.stopPoints),
                             Take(sym, Opposite(d), price, LegTarget(ClosedTargets(old(legs), d), job.targets, i)),
                             sym.lotSize)
    {
      hide Linked, SameInitial, Mirrors, ClosedTargets, ActiveTargets, EntryPrice, WrongSide;
      if job.active.None? || job.completed {
        return Idle;
      }
      var d := job.active.value;
      if job.reversed {
        ClearStale(d);
        return Cleared;
      }
      if ClosedTargets(legs, d) >= 3 {
        CancelSubmitted(false);
        assert forall k :: IsSubmitted(old(legs), k) ==> ToCancel(old(legs), k, false);
        row := Row(TradeJobState.Closed, Some(Completed));
        reports := reports + [TradeJobState.PhClosed];
        return Finished;
      }
      if ActiveTargets(legs, d) == [] {
        return Idle;
      }
      var closed := ClosedTargets(legs, d);
      outcome := Protect(d, job, sym, listed);
      if outcome == Protected {
        row := Row(TradeJobState.Managed, Some(
          if closed == 0 then (if d == Buy then BuyActive else SellActive)
          else if closed == 1 then Tp1Protected else Tp2Protected));
        reports := reports + [TradeJobState.PhAccepted];
      } else {
        reports := reports + [TradeJobState.PhError];
      }
    }
  }

  // The stage that a protected job is in: its first side, or the last target that was reached.
  function StageOf(d: Direction, closed: nat): Stage {
    match closed
    case 0 => if d == Buy then BuyActive else SellActive
    case 1 => Tp1Protected
    case _ => Tp2Protected
  }

  function RowAfter(row: Row, outcome: Outcome, legs: map<Key, Leg>, job: Job): Row {
    if outcome == Finished then Row(TradeJobState.Closed, Some(Completed))
    else if outcome == Protected && job.active.Some? then
      Row(TradeJobState.Managed, Some(StageOf(job.active.value, ClosedTargets(legs, job.active.value))))
    else row
  }

  // What placing an order does to the row of its job.
  function Placed(row: Row): Row {
    if row.status in {TradeJobState.Armed, TradeJobState.Submitted} then row.(status := TradeJobState.Submitted)
    else row
  }

  // One report for each order that the broker accepted.
  function Submissions(count: nat): seq<TradeJobState.Phase> {
    seq(count, _ => TradeJobState.PhSubmitted)
  }

  function Reported(outcome: Outcome, legs: map<Key, Leg>, job: Job): seq<TradeJobState.Phase> {
    if outcome == Finished then [TradeJobState.PhClosed]
    else if outcome == Refused then [TradeJobState.PhError]
    else if outcome == Protected && job.active.Some? then
      Submissions(|ActiveTargets(legs, job.active.value)|) + [TradeJobState.PhAccepted]
    else []
  }

  // Which branch a sync takes.
  function SyncOutcome(legs: map<Key, Leg>, job: Job): Outcome {
    if job.active.None? || job.completed then Idle
    else if job.reversed then Cleared
    else if ClosedTargets(legs, job.active.value) >= 3 then Finished
    else if ActiveTargets(legs, job.active.value) == [] then Idle
    else if job.stopPoints >= 1 && job.gapPoints >= 1 then Protected else Refused
  }

  function Stop(sym: Symbol, side: Direction, price: real, points: nat): real {
    sym.round(if side == Buy then price - Points(sym, points) else price + Points(sym, points))
  }

  function Take(sym: Symbol, side: Direction, price: real, points: nat): real {
    sym.round(if side == Buy then price + Points(sym, points) else price - Points(sym, points))
  }
}
