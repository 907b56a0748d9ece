/** When the live orders of one connector job repeat a label, and on which side its reversal orders are. */
module ConnectorLabels {
  import opened Basics
  import opened ConnectorJob
  import opened ConnectorBounds
  import opened ConnectorBaskets

  function Live(b: Broker): map<nat, Label> {
    b.pending + b.open
  }

  // The position of an order in its basket.
  function Index(l: Label): int {
    if l.purpose == Initial then 2 * (l.level - 1) + (if l.side == Buy then 0 else 1) else l.level - 1
  }

  function DoneOf(f: Frame, p: Purpose): nat {
    match f
    case PlacingInitial(answers) => if p == Initial then |answers| else 0
    case PlacingReversal(_, answers) => if p == Reversal then |answers| else 0
    case _ => 0
  }

  // How many orders of a basket the handlers in progress have been answered.
  function Done(stack: seq<Frame>, p: Purpose): nat {
    if stack == [] then 0 else Done(stack[..|stack| - 1], p) + DoneOf(stack[|stack| - 1], p)
  }

  predicate Unique(live: map<nat, Label>) {
    forall i, j :: i in live && j in live && i != j ==> live[i] != live[j]
  }

  predicate Within(live: map<nat, Label>, p: Purpose, n: int) {
    forall id :: id in live && live[id].purpose == p ==> 0 <= Index(live[id]) < n
  }

  predicate Opposed(live: map<nat, Label>, trigger: Direction) {
    forall id :: id in live && live[id].purpose == Reversal ==> live[id].side == Opposite(trigger)
  }

  predicate Tidy(b: Broker) {
    && (forall id :: id in b.pending ==> id < b.nextId && id !in b.open)
    && (forall id :: id in b.open ==> id < b.nextId)
  }

  ghost predicate Triggered(stack: seq<Frame>, trigger: Direction) {
    forall i :: 0 <= i < |stack| && stack[i].PlacingReversal? ==> stack[i].side == trigger
  }

  // What holds of the live orders while some handlers are in progress.
  predicate Fit(rt: Runtime, live: map<nat, Label>, initialDone: nat, reversalDone: nat) {
    && Unique(live) && Opposed(live, rt.trigger)
    && Within(live, Initial, INITIAL_ORDERS) && Within(live, Reversal, REVERSAL_ORDERS)
    && (rt.placingInitial ==> Within(live, Initial, initialDone))
    && (rt.placingReversal ==> Within(live, Reversal, reversalDone))
  }

  ghost predicate Fitting(s: State) {
    && Tidy(s.broker) && Triggered(s.stack, s.rt.trigger)
    && Fit(s.rt, Live(s.broker), Done(s.stack, Initial), Done(s.stack, Reversal))
  }

  lemma DonePush(stack: seq<Frame>, f: Frame)
    ensures Done(stack + [f], Initial) == Done(stack, Initial) + DoneOf(f, Initial)
    ensures Done(stack + [f], Reversal) == Done(stack, Reversal) + DoneOf(f, Reversal)
  {
    assert (stack + [f])[..|stack|] == stack;
  }

  lemma DoneTop(s: State)
    requires s.stack != []
    ensures Done(s.stack, Initial) == Done(Below(s.stack), Initial) + DoneOf(Top(s), Initial)
    ensures Done(s.stack, Reversal) == Done(Below(s.stack), Reversal) + DoneOf(Top(s), Reversal)
  {
  }

  // Without a handler placing a basket nothing of it is in the making.
  lemma {:induction false} NoneInProgress(stack: seq<Frame>, trigger: Direction)
    ensures Total(stack).placeI == 0 ==> Done(stack, Initial) == 0
    ensures Total(stack).placeR == 0 ==> Done(stack, Reversal) == 0 && Triggered(stack, trigger)
  {
    if stack != [] { NoneInProgress(stack[..|stack| - 1], trigger); }
  }

  lemma TriggeredStack(stack: seq<Frame>, f: Frame, trigger: Direction)
    requires Triggered(stack, trigger)
    ensures Triggered(Below(stack), trigger)
    ensures (f.PlacingReversal? ==> f.side == trigger) ==> Triggered(stack + [f], trigger)
  {
  }

  // Another frame in place of one that places nothing, or none.
  lemma ReplacedFits(s: State, f: Frame)
    requires Fitting(s) && s.stack != [] && DoneOf(f, Initial) == DoneOf(Top(s), Initial)
    requires DoneOf(f, Reversal) == DoneOf(Top(s), Reversal) && !f.PlacingReversal?
    ensures Fitting(Replace(s, f))
  {
    hide Done, Fit, Triggered;
    DoneTop(s);
    DonePush(Below(s.stack), f);
    TriggeredStack(s.stack, f, s.rt.trigger);
    TriggeredStack(Below(s.stack), f, s.rt.trigger);
  }

  lemma PoppedFits(s: State)
    requires Fitting(s) && s.stack != [] && !Top(s).PlacingInitial? && !Top(s).PlacingReversal?
    ensures Fitting(Pop(s))
  {
    hide Done, Fit, Triggered;
    DoneTop(s);
    TriggeredStack(s.stack, Top(s), s.rt.trigger);
  }

  lemma BeginFits(s: State, side: Direction)
    requires Fitting(s)
    ensures Fitting(Begin(s, side))
  {
    hide Done, Fit, Triggered, Opposing;
    DonePush(s.stack, Beginning(side, Opposing(s.broker, side)));
    TriggeredStack(s.stack, Beginning(side, Opposing(s.broker, side)), s.rt.trigger);
  }

  lemma NoReversals(b: Broker, trigger: Direction, n: int)
    requires !ReversalLive(b)
    ensures Opposed(Live(b), trigger) && Within(Live(b), Reversal, n)
  {
    forall id ensures !(id in Live(b) && Live(b)[id].purpose == Reversal) {
      LiveReversal(b, id);
    }
  }

  lemma LiveReversal(b: Broker, id: nat)
    ensures id in Live(b) && Live(b)[id].purpose == Reversal ==>
              id in Ids(b.pending, Reversal) || id in Ids(b.open, Reversal)
  {
  }

  predicate ReversalLive(b: Broker) {
    Ids(b.pending, Reversal) != {} || Ids(b.open, Reversal) != {}
  }

  // An attempt that begins while an order or position of a reversal is live.
  predicate Over(job: Job, s: State, a: Action) {
    Attempts(job, s, a) && ReversalLive(s.broker)
  }

  // A reversal attempt starts from none of its orders being there.
  lemma TryPlaceFits(job: Job, s: State, side: Direction)
    requires Fitting(s) && Counted(s)
    requires job.maxReversals < 1 || s.rt.placed || s.rt.placingReversal || !ReversalLive(s.broker)
    ensures Fitting(TryPlace(job, s, side))
  {
    hide Done, Triggered, Ids, Total;
    if !(job.maxReversals < 1 || s.rt.placed || s.rt.placingReversal) {
      NoReversals(s.broker, side, 0);
      NoneInProgress(s.stack, side);
      DonePush(s.stack, PlacingReversal(side, []));
      TriggeredStack(s.stack, PlacingReversal(side, []), side);
    }
  }

  lemma NothingLive(b: Broker, n: int)
    requires !Exposed(b)
    ensures Live(b) == map[] && Within(Live(b), Initial, n)
  {
  }

  lemma SubmitFits(job: Job, s: State, now: int, refused: bool)
    requires Fitting(s) && s.stack != [] && Top(s).Ticking?
    ensures Fitting(SubmitOrSkip(job, s, now, refused))
  {
    hide Done, Triggered, Exposed, Fit;
    PoppedFits(s);
    SameFit(Pop(s));
    ReplacedFits(s, Ticking(2, now, refused));
    var next := Replace(s, Ticking(2, now, refused));
    DonePush(next.stack, PlacingInitial([]));
    TriggeredStack(next.stack, PlacingInitial([]), s.rt.trigger);
    if !Exposed(s.broker) {
      NothingLive(s.broker, Done(next.stack, Initial));
      EmptyFits(s.rt.(submitted := true, initialAttempts := s.rt.initialAttempts + 1, placingInitial := true),
                Done(next.stack, Initial), Done(next.stack, Reversal));
    }
  }

  lemma EmptyFits(rt: Runtime, initialDone: nat, reversalDone: nat)
    ensures Fit(rt, map[], initialDone, reversalDone)
  {
  }

  lemma SameFit(s: State)
    requires Fitting(s)
    ensures Fitting(s.(rt := s.rt.(submitted := true)))
    ensures Fitting(s.(rt := s.rt.(submitted := true, terminal := true)))
    ensures forall side :: Fitting(s.(rt := s.rt.(deferred := side)))
    ensures Fitting(s.(rt := s.rt.(terminal := true)))
  {
  }

  lemma FinishInitialFits(s: State, answers: seq<Answer>)
    requires Fitting(s) && s.stack != [] && Top(s).PlacingInitial?
    ensures Fitting(FinishInitial(s, answers))
  {
    hide Done, Triggered, AllAccepted, PermanentlyRefused, Begin, Unique, Within, Opposed, Live;
    DoneTop(s);
    TriggeredStack(s.stack, Top(s), s.rt.trigger);
    var undo := UndoInitial(s.broker.pending.Keys, None, PermanentlyRefused(answers));
    DonePush(Below(s.stack), undo);
    TriggeredStack(Below(s.stack), undo, s.rt.trigger);
    if s.rt.deferred.Some? {
      BeginFits(Pop(s.(rt := s.rt.(placingInitial := false, accepted := true))), s.rt.deferred.value);
    }
  }

  lemma FinishReversalFits(s: State, answers: seq<Answer>)
    requires Fitting(s) && s.stack != [] && Top(s).PlacingReversal?
    ensures Fitting(FinishReversal(s, answers))
  {
    hide Done, Triggered, AllAccepted, PermanentlyRefused, Ids, Unique, Within, Opposed, Live;
    DoneTop(s);
    TriggeredStack(s.stack, Top(s), s.rt.trigger);
    var undo := UndoReversal(Ids(s.broker.pending, Reversal), None, PermanentlyRefused(answers));
    DonePush(Below(s.stack), undo);
    TriggeredStack(Below(s.stack), undo, s.rt.trigger);
  }

  lemma EndUndoFits(job: Job, s: State, permanent: bool)
    requires Fitting(s) && s.stack != []
    ensures Top(s).UndoInitial? ==> Fitting(EndUndoInitial(job, s, permanent))
    ensures Top(s).UndoReversal? ==> Fitting(EndUndoReversal(job, s, permanent))
  {
    hide Done, Triggered, Exposed, Unique, Within, Opposed, Live;
    DoneTop(s);
    TriggeredStack(s.stack, Top(s), s.rt.trigger);
  }

  lemma ContinueFits(job: Job, s: State)
    requires Fitting(s) && Counted(s) && s.stack != [] && !Over(job, s, Proceed)
    ensures Fitting(Continue(job, s, Top(s)))
  {
    hide Fitting, Counted, ReversalLive, Retry, TryPlace, FinishInitial, FinishReversal, SubmitOrSkip,
      EndUndoInitial, EndUndoReversal, Ids;
    match Top(s)
    case Ticking(stage, now, refused) =>
      if stage == 0 { RetryFits(job, s, now, refused); }
      SubmitFits(job, s, now, refused);
      PoppedFits(s);
    case PlacingInitial(answers) => FinishInitialFits(s, answers);
    case PlacingReversal(_, answers) => FinishReversalFits(s, answers);
    case Beginning(side, cancels) =>
      PoppedFits(s);
      PoppedCounted(s);
      if cancels == {} { TryPlaceFits(job, Pop(s), side); }
    case UndoInitial(cancels, closes, permanent) =>
      ReplacedFits(s, UndoInitial({}, Some(s.broker.open.Keys), permanent));
      EndUndoFits(job, s, permanent);
    case UndoReversal(cancels, closes, permanent) =>
      ReplacedFits(s, UndoReversal({}, Some(Ids(s.broker.open, Reversal)), permanent));
      EndUndoFits(job, s, permanent);
  }

  lemma RetryFits(job: Job, s: State, now: int, refused: bool)
    requires Fitting(s) && Counted(s) && s.stack != [] && Top(s) == Ticking(0, now, refused)
    requires !Over(job, s, Proceed)
    ensures Fitting(Retry(job, s, now, refused))
  {
    hide Fitting, Counted, TryPlace, ReversalLive;
    ReplacedFits(s, Ticking(1, now, refused));
    ReplacedCounted(s, Ticking(1, now, refused));
    if Attempts(job, s, Proceed) { TryPlaceFits(job, Replace(s, Ticking(1, now, refused)), s.rt.trigger); }
    if job.maxReversals < 1 { TryPlaceFits(job, Replace(s, Ticking(1, now, refused)), s.rt.trigger); }
  }

  lemma FewerFit(rt: Runtime, live: map<nat, Label>, less: map<nat, Label>, initialDone: nat, reversalDone: nat)
    requires Fit(rt, live, initialDone, reversalDone) && forall id :: id in less ==> id in live && less[id] == live[id]
    ensures Fit(rt, less, initialDone, reversalDone)
  {
    hide Index;
  }

  lemma FewerLive(b: Broker, id: nat)
    requires Tidy(b)
    ensures var less := b.(pending := b.pending - {id});
            Tidy(less) && forall i :: i in Live(less) ==> i in Live(b) && Live(less)[i] == Live(b)[i]
    ensures var less := b.(open := b.open - {id});
            Tidy(less) && forall i :: i in Live(less) ==> i in Live(b) && Live(less)[i] == Live(b)[i]
  {
  }

  lemma RemovedFits(s: State, b: Broker, id: nat)
    requires Fitting(s)
    requires b == s.broker.(pending := s.broker.pending - {id}) || b == s.broker.(open := s.broker.open - {id}) || b
              == s.broker
    ensures Fitting(s.(broker := b))
  {
    hide Done, Triggered, Fit, Tidy, Live;
    FewerLive(s.broker, id);
    FewerFit(s.rt, Live(s.broker), Live(b), Done(s.stack, Initial), Done(s.stack, Reversal));
  }

  lemma TradedFits(s: State, id: nat)
    requires Fitting(s)
    ensures Fitting(s.(broker := Moved(s.broker, id)))
  {
    hide Done, Triggered, Index;
    assert Live(Moved(s.broker, id)) == Live(s.broker);
  }

  lemma InitialIndex(n: nat)
    ensures Index(InitialLabel(n)) == n
  {
  }

  // The next order of a basket is unlike every other.
  lemma AddedFits(rt: Runtime, live: map<nat, Label>, id: nat, l: Label, initialDone: nat, reversalDone: nat)
    requires Fit(rt, live, initialDone, reversalDone)
    requires l.purpose == Reversal ==> l.side == Opposite(rt.trigger)
    requires if l.purpose == Initial then rt.placingInitial && Index(l) == initialDone < INITIAL_ORDERS
             else rt.placingReversal && Index(l) == reversalDone < REVERSAL_ORDERS
    ensures Fit(rt, live[id := l], initialDone + (if l.purpose == Initial then 1 else 0),
                reversalDone + (if l.purpose == Reversal then 1 else 0))
    ensures Fit(rt, live, initialDone + (if l.purpose == Initial then 1 else 0),
                reversalDone + (if l.purpose == Reversal then 1 else 0))
  {
    hide Index;
  }

  lemma AskedLive(b: Broker, l: Label, answer: Answer)
    requires Tidy(b)
    ensures Tidy(Asked(b, l, answer))
    ensures Live(Asked(b, l, answer)) == if answer.Refused? then Live(b) else Live(b)[b.nextId := l]
  {
  }

  // The handler that runs is the only one placing its basket.
  lemma OnlyBasket(s: State)
    requires Counted(s) && s.stack != []
    ensures Top(s).PlacingInitial? ==> s.rt.placingInitial && Done(s.stack, Initial) == |Top(s).answers|
    ensures Top(s).PlacingReversal? ==> s.rt.placingReversal && Done(s.stack, Reversal) == |Top(s).answers|
  {
    hide Done, Total;
    TopFacts(s);
    PlacingFlags(s);
    DoneTop(s);
    NoneInProgress(Below(s.stack), s.rt.trigger);
  }

  lemma AnswerFits(s: State, answer: Answer)
    requires Fitting(s) && Counted(s) && s.stack != []
    ensures Fitting(OnAnswer(s, Top(s), answer))
  {
    hide Counted, Done, Fitting, Asked, Index, InitialLabel;
    OnlyBasket(s);
    match Top(s)
    case PlacingInitial(answers) =>
      if |answers| < INITIAL_ORDERS {
        InitialIndex(|answers|);
        InitialPurpose(|answers|);
        NextFits(s, InitialLabel(|answers|), PlacingInitial(answers + [answer]), answer);
      }
    case PlacingReversal(side, answers) =>
      if |answers| < REVERSAL_ORDERS {
        var l := Label(Reversal, Opposite(side), |answers| + 1);
        TriggerOfTop(s);
        ReversalIndex(l);
        NextFits(s, l, PlacingReversal(side, answers + [answer]), answer);
      }
    case _ =>
  }

  lemma InitialPurpose(n: nat)
    ensures InitialLabel(n).purpose == Initial
  {
  }

  lemma ReversalIndex(l: Label)
    ensures l.purpose == Reversal ==> Index(l) == l.level - 1
  {
  }

  lemma TriggerOfTop(s: State)
    requires Fitting(s) && s.stack != [] && Top(s).PlacingReversal?
    ensures Top(s).side == s.rt.trigger
  {
  }

  lemma NextFits(s: State, l: Label, f: Frame, answer: Answer)
    requires Fitting(s) && s.stack != []
    requires (f.PlacingReversal? ==> f.side == s.rt.trigger)
              && (l.purpose == Reversal ==> l.side == Opposite(s.rt.trigger))
    requires DoneOf(f, Initial) == DoneOf(Top(s), Initial) + (if l.purpose == Initial then 1 else 0)
    requires DoneOf(f, Reversal) == DoneOf(Top(s), Reversal) + (if l.purpose == Reversal then 1 else 0)
    requires if l.purpose == Initial then s.rt.placingInitial && Index(l) == Done(s.stack, Initial) < INITIAL_ORDERS
             else s.rt.placingReversal && Index(l) == Done(s.stack, Reversal) < REVERSAL_ORDERS
    ensures Fitting(Replace(s.(broker := Asked(s.broker, l, answer)), f))
  {
    hide Done, Triggered, Fit, Live, Asked, Tidy;
    AskedLive(s.broker, l, answer);
    AddedFits(s.rt, Live(s.broker), s.broker.nextId, l, Done(s.stack, Initial), Done(s.stack, Reversal));
    DoneTop(s);
    DonePush(Below(s.stack), f);
    TriggeredStack(s.stack, f, s.rt.trigger);
    TriggeredStack(Below(s.stack), f, s.rt.trigger);
  }

  lemma UndoneFits(s: State, id: nat, ok: bool)
    requires Fitting(s) && s.stack != []
    ensures Fitting(OnCancelled(s, Top(s), id, ok)) && Fitting(OnClosed(s, Top(s), id, ok))
  {
    hide Fitting;
    var cancelled := if ok then s.(broker := s.broker.(pending := s.broker.pending - {id})) else s;
    var closed := if ok then s.(broker := s.broker.(open := s.broker.open - {id})) else s;
    RemovedFits(s, cancelled.broker, id);
    RemovedFits(s, closed.broker, id);
    assert cancelled == s.(broker := cancelled.broker) && closed == s.(broker := closed.broker);
    match Top(s)
    case Beginning(side, cancels) => ReplacedFits(cancelled, Beginning(side, cancels - {id}));
    case UndoInitial(cancels, closes, permanent) =>
      ReplacedFits(cancelled, UndoInitial(cancels - {id}, None, permanent));
      if closes.Some? { ReplacedFits(closed, UndoInitial(cancels, Some(closes.value - {id}), permanent)); }
    case UndoReversal(cancels, closes, permanent) =>
      ReplacedFits(cancelled, UndoReversal(cancels - {id}, None, permanent));
      if closes.Some? { ReplacedFits(closed, UndoReversal(cancels, Some(closes.value - {id}), permanent)); }
    case _ =>
  }

  lemma DeliveredFits(s: State, id: nat)
    requires Fitting(s) && id in s.broker.undelivered
    ensures Fitting(OnFilled(s.(broker := s.broker.(undelivered := s.broker.undelivered - {id})),
              s.broker.undelivered[id]))
  {
    hide Done, Triggered, Begin, Fit;
    var told := s.(broker := s.broker.(undelivered := s.broker.undelivered - {id}));
    assert Fitting(told);
    SameFit(told);
    BeginFits(told.(rt := told.rt.(deferred := Some(s.broker.undelivered[id].side))), s.broker.undelivered[id].side);
  }

  // Every step but one that begins an attempt over a live reversal keeps the labels in order.
  lemma StepFits(job: Job, s: State, a: Action)
    requires Fitting(s) && Counted(s) && !Over(job, s, a)
    ensures Fitting(Do(job, s, a))
  {
    hide Fitting, Counted, Over, Continue, OnAnswer, OnCancelled, OnClosed, OnFilled, Moved, Busy;
    match a
    case Pass(ms) => LaterFits(s, s.now + ms);
    case Tick(_, refused) => TickFits(s, Ticking(0, s.now, refused));
    case Trade(id) => TradedFits(s, id);
    case Deliver(id) => if id in s.broker.undelivered { DeliveredFits(s, id); }
    case Vanish(id) =>
      RemovedFits(s, s.broker.(pending := s.broker.pending - {id}), id);
      var less := s.(broker := s.broker.(pending := s.broker.pending - {id}));
      RemovedFits(less, less.broker.(open := less.broker.open - {id}), id);
    case Conclude => SameFit(s);
    case Answered(answer) => if s.stack != [] { AnswerFits(s, answer); }
    case Cancelled(id, ok) => if s.stack != [] { UndoneFits(s, id, ok); }
    case ClosedOut(id, ok) => if s.stack != [] { UndoneFits(s, id, ok); }
    case Proceed => if s.stack != [] { ContinueFits(job, s); }
  }

  lemma LaterFits(s: State, now: int)
    requires Fitting(s)
    ensures Fitting(s.(now := now))
  {
  }

  lemma TickFits(s: State, f: Frame)
    requires Fitting(s) && f.Ticking?
    ensures Fitting(Push(s, f))
  {
    hide Done, Triggered, Fit;
    DonePush(s.stack, f);
    TriggeredStack(s.stack, f, s.rt.trigger);
  }

  predicate NeverOver(job: Job, s: State, acts: seq<Action>) {
    acts == [] || (&& NeverOver(job, s, acts[..|acts| - 1])
                   && !Over(job, Run(job, s, acts[..|acts| - 1]), acts[|acts| - 1]))
  }

  // In every run in which no attempt begins over a live reversal: no two live orders or positions carry the same label,
  // each stands at a place of its basket, and every one of a reversal is on the side opposite to the latest trigger.
  lemma {:induction false} LabelsDistinct(job: Job, now: int, acts: seq<Action>)
    requires NeverOver(job, Fresh(now), acts)
    ensures var s := Run(job, Fresh(now), acts);
            && Fitting(s) && Counted(s) && Unique(Live(s.broker)) && Opposed(Live(s.broker), s.rt.trigger)
            && Within(Live(s.broker), Initial, INITIAL_ORDERS) && Within(Live(s.broker), Reversal, REVERSAL_ORDERS)
  {
    hide Do, Total, Done, Triggered, Unique, Within, Opposed, Balanced, Over;
    OrdersCounted(job, now, acts);
    if acts == [] {
      FreshFits(now);
    } else {
      LabelsDistinct(job, now, acts[..|acts| - 1]);
      StepFits(job, Run(job, Fresh(now), acts[..|acts| - 1]), acts[|acts| - 1]);
    }
  }

  lemma FreshFits(now: int)
    ensures Fitting(Fresh(now)) && OnTop(Fresh(now).stack)
  {
  }

  predicate Distinct(s: State) {
    Unique(Live(s.broker)) && Opposed(Live(s.broker), s.rt.trigger)
  }

  // Three orders in a row are accepted.
  function AcceptThree(job: Job, s: State): State {
    Do(job, Do(job, Do(job, s, Answered(Resting)), Answered(Resting)), Answered(Resting))
  }

  lemma OverStarts(job: Job, s: State, a: Action)
    requires Attempts(job, s, a)
    ensures var t := Do(job, s, a);
            && t.broker == s.broker && t.rt.placingReversal && t.stack != []
            && Top(t) == PlacingReversal(t.rt.trigger, [])
  {
  }

  lemma OneAccepted(job: Job, s: State, answers: seq<Answer>)
    requires Tidy(s.broker) && s.stack != [] && Top(s) == PlacingReversal(s.rt.trigger, answers)
    requires |answers| < REVERSAL_ORDERS
    ensures var t := Do(job, s, Answered(Resting));
            && Tidy(t.broker) && t.rt == s.rt && t.broker.nextId == s.broker.nextId + 1
            && t.stack != [] && Top(t) == PlacingReversal(s.rt.trigger, answers + [Resting])
            && Live(t.broker)
               == Live(s.broker)[s.broker.nextId := Label(Reversal, Opposite(s.rt.trigger), |answers| + 1)]
  {
    hide Tidy, Live;
    AskedLive(s.broker, Label(Reversal, Opposite(s.rt.trigger), |answers| + 1), Resting);
  }

  // The three orders of a basket accepted after whatever is there.
  lemma ThreeAccepted(job: Job, s: State)
    requires Tidy(s.broker) && s.stack != [] && Top(s) == PlacingReversal(s.rt.trigger, [])
    ensures var t, n := AcceptThree(job, s), s.broker.nextId;
            && (forall id :: n <= id < n + REVERSAL_ORDERS ==>
                  && id in Live(t.broker)
                  && Live(t.broker)[id] == Label(Reversal, Opposite(s.rt.trigger), id - n + 1))
            && (forall id :: id in Live(s.broker) ==>
                  id < n && id in Live(t.broker) && Live(t.broker)[id] == Live(s.broker)[id])
  {
    hide Do, Top;
    assert forall id :: id in Live(s.broker) ==> id < s.broker.nextId;
    hide Live, Tidy;
    OneAccepted(job, s, []);
    var one := Do(job, s, Answered(Resting));
    OneAccepted(job, one, [] + [Resting]);
    var two := Do(job, one, Answered(Resting));
    OneAccepted(job, two, [] + [Resting] + [Resting]);
  }

  // An attempt begun over a live reversal either leaves that reversal on the side of its own trigger, or repeats one of
  // its labels as soon as the broker accepts the basket.
  lemma OverBreaks(job: Job, s: State, a: Action)
    requires Fitting(s) && Over(job, s, a)
    ensures !Distinct(Do(job, s, a)) || !Distinct(AcceptThree(job, Do(job, s, a)))
  {
    hide Do, Done, Triggered, Attempts, AcceptThree, Ids, Unique, Tidy;
    var t := Do(job, s, a);
    OverStarts(job, s, a);
    LiveOne(s.broker);
    var id :| id in Live(s.broker) && Live(s.broker)[id].purpose == Reversal;
    var l := Live(s.broker)[id];
    if l.side == Opposite(t.rt.trigger) {
      ThreeAccepted(job, t);
      assert 0 <= l.level - 1 < REVERSAL_ORDERS;
      Twice(AcceptThree(job, t).broker, id, t.broker.nextId + l.level - 1);
    }
  }

  lemma LiveOne(b: Broker)
    requires Tidy(b) && ReversalLive(b)
    ensures exists id :: id in Live(b) && Live(b)[id].purpose == Reversal
  {
    if id :| id in Ids(b.pending, Reversal) {
      assert id in b.pending && id !in b.open && Live(b)[id] == b.pending[id];
    } else {
      var id :| id in Ids(b.open, Reversal);
      assert id in b.open && Live(b)[id] == b.open[id];
    }
  }

  lemma Twice(b: Broker, i: nat, j: nat)
    requires i != j && i in Live(b) && j in Live(b) && Live(b)[i] == Live(b)[j]
    ensures !Unique(Live(b))
  {
  }

  lemma AcceptingNeverOver(job: Job, s: State, acts: seq<Action>)
    ensures var more := acts + [Answered(Resting)];
            && Run(job, s, more) == Do(job, Run(job, s, acts), Answered(Resting))
            && (NeverOver(job, s, acts) ==> NeverOver(job, s, more))
  {
    hide Do;
    var more := acts + [Answered(Resting)];
    assert more[..|more| - 1] == acts;
  }

  // What the run leads to, and what it leads to once three more orders are accepted, has distinct labels.
  ghost predicate StaysDistinct(job: Job, now: int, acts: seq<Action>) {
    Distinct(Run(job, Fresh(now), acts)) && Distinct(AcceptThree(job, Run(job, Fresh(now), acts)))
  }

  lemma NeverOverStaysDistinct(job: Job, now: int, acts: seq<Action>)
    requires NeverOver(job, Fresh(now), acts)
    ensures StaysDistinct(job, now, acts)
  {
    hide Do, Run, NeverOver, Fitting, Counted, Within;
    LabelsDistinct(job, now, acts);
    AcceptingNeverOver(job, Fresh(now), acts);
    var one := acts + [Answered(Resting)];
    AcceptingNeverOver(job, Fresh(now), one);
    var two := one + [Answered(Resting)];
    AcceptingNeverOver(job, Fresh(now), two);
    LabelsDistinct(job, now, two + [Answered(Resting)]);
  }

  // Along every run the labels are distinct, and stay so when three more orders are accepted, if and only if no attempt
  // of the run begins over a live reversal.
  lemma {:induction false} LabelsDistinctExactly(job: Job, now: int, acts: seq<Action>)
    ensures NeverOver(job, Fresh(now), acts)
            <==> forall k :: 0 <= k <= |acts| ==> StaysDistinct(job, now, acts[..k])
  {
    hide Do, Run, Over, Fitting, Counted, StaysDistinct;
    assert acts[..|acts|] == acts;
    if acts == [] {
      NeverOverStaysDistinct(job, now, acts);
    } else {
      var init, a := acts[..|acts| - 1], acts[|acts| - 1];
      LabelsDistinctExactly(job, now, init);
      assert forall k :: 0 <= k <= |init| ==> init[..k] == acts[..k];
      if NeverOver(job, Fresh(now), acts) {
        NeverOverStaysDistinct(job, now, acts);
      } else if NeverOver(job, Fresh(now), init) {
        LabelsDistinct(job, now, init);
        OverBreaksRun(job, now, acts);
      }
    }
  }

  lemma OverBreaksRun(job: Job, now: int, acts: seq<Action>)
    requires acts != [] && Fitting(Run(job, Fresh(now), acts[..|acts| - 1]))
    requires Over(job, Run(job, Fresh(now), acts[..|acts| - 1]), acts[|acts| - 1])
    ensures !StaysDistinct(job, now, acts)
  {
    hide Do, Over, Fitting, Distinct, AcceptThree;
    OverBreaks(job, Run(job, Fresh(now), acts[..|acts| - 1]), acts[|acts| - 1]);
  }

  // A rollback of a reversal basket that no handler has been started on.
  ghost predicate OnTop(stack: seq<Frame>) {
    forall i :: 0 <= i < |stack| - 1 ==> !stack[i].UndoReversal?
  }

  lemma {:induction false} NoLatest(stack: seq<Frame>)
    requires Total(stack).placeR == 0 && forall i :: 0 <= i < |stack| ==> !stack[i].UndoReversal?
    ensures Latest(stack, Reversal) == None
  {
    if stack != [] { NoLatest(stack[..|stack| - 1]); }
  }

  lemma NothingOfReversal(s: State)
    requires Counted(s) && Contained(s) && OnTop(s.stack) && s.stack != [] && (Top(s).Ticking? || Top(s).Beginning?)
    requires !s.rt.placingReversal
    ensures s.rt.placed || (Ids(s.broker.pending, Reversal) == {} && Ids(s.broker.open, Reversal) == {})
  {
    hide Ids, Total;
    TopFacts(s);
    assert Below(s.stack) == s.stack[..|s.stack| - 1];
    NoLatest(Below(s.stack));
    LatestTop(s, Reversal);
  }

  // A handler that starts while a reversal basket is being taken back.
  predicate Overlaps(s: State, a: Action) {
    (a.Tick? || a.Deliver?) && UndoingReversal(s.stack)
  }

  ghost predicate Separate(job: Job, s: State, acts: seq<Action>) {
    acts == [] || (&& Separate(job, s, acts[..|acts| - 1])
                   && !Overlaps(Run(job, s, acts[..|acts| - 1]), acts[|acts| - 1]))
  }

  lemma PushOnTop(stack: seq<Frame>, f: Frame)
    requires OnTop(stack)
    ensures OnTop(Below(stack)) && OnTop(Below(stack) + [f]) && !UndoingReversal(Below(stack))
    ensures !UndoingReversal(stack) ==> OnTop(stack + [f])
  {
  }

  lemma ContinueOnTop(job: Job, s: State)
    requires OnTop(s.stack) && s.stack != []
    ensures OnTop(Continue(job, s, Top(s)).stack)
  {
    hide OnTop, Below, Ids, Opposing, AllAccepted, PermanentlyRefused, Exposed;
    var after := Continue(job, s, Top(s));
    match Top(s)
    case Ticking(_, now, refused) =>
      PushOnTop(s.stack, Ticking(1, now, refused));
      PushOnTop(s.stack, Ticking(2, now, refused));
      assert !UndoingReversal(Below(s.stack) + [Ticking(1, now, refused)]);
      PushOnTop(Below(s.stack) + [Ticking(1, now, refused)], PlacingReversal(s.rt.trigger, []));
      assert !UndoingReversal(Below(s.stack) + [Ticking(2, now, refused)]);
      PushOnTop(Below(s.stack) + [Ticking(2, now, refused)], PlacingInitial([]));
    case PlacingInitial(answers) =>
      PushOnTop(s.stack, UndoInitial(s.broker.pending.Keys, None, PermanentlyRefused(answers)));
      if s.rt.deferred.Some? {
        PushOnTop(s.stack, Beginning(s.rt.deferred.value, Opposing(s.broker, s.rt.deferred.value)));
      }
    case PlacingReversal(_, answers) =>
      PushOnTop(s.stack, UndoReversal(Ids(s.broker.pending, Reversal), None, PermanentlyRefused(answers)));
    case Beginning(side, _) => PushOnTop(s.stack, PlacingReversal(side, []));
    case UndoInitial(_, _, permanent) => PushOnTop(s.stack, UndoInitial({}, Some(s.broker.open.Keys), permanent));
    case UndoReversal(_, _, permanent) =>
      PushOnTop(s.stack, UndoReversal({}, Some(Ids(s.broker.open, Reversal)), permanent));
  }

  lemma SwappedOnTop(s: State, a: Action)
    requires OnTop(s.stack) && s.stack != []
    ensures a.Answered? ==> OnTop(OnAnswer(s, Top(s), a.answer).stack)
    ensures a.Cancelled? ==> OnTop(OnCancelled(s, Top(s), a.id, a.ok).stack)
    ensures a.ClosedOut? ==> OnTop(OnClosed(s, Top(s), a.id, a.ok).stack)
  {
    hide InitialLabel, Asked;
  }

  lemma StepOnTop(job: Job, s: State, a: Action)
    requires OnTop(s.stack) && !Overlaps(s, a)
    ensures OnTop(Do(job, s, a).stack)
  {
    hide OnTop, Continue, OnAnswer, OnCancelled, OnClosed, Moved, Busy, Opposing;
    if s.stack != [] {
      ContinueOnTop(job, s);
      SwappedOnTop(s, a);
    }
    if a.Tick? { PushOnTop(s.stack, Ticking(0, s.now, a.refused)); }
    if a.Deliver? && a.id in s.broker.undelivered {
      var side := s.broker.undelivered[a.id].side;
      var told := s.broker.(undelivered := s.broker.undelivered - {a.id});
      PushOnTop(s.stack, Beginning(side, Opposing(told, side)));
    }
  }

  // When cancels and closes take effect and no handler starts while a reversal basket is being taken back, no attempt
  // begins over a live reversal.
  lemma {:induction false} SeparateNeverOver(job: Job, now: int, acts: seq<Action>)
    requires Separate(job, Fresh(now), acts) && Effective(job, Fresh(now), acts)
    ensures NeverOver(job, Fresh(now), acts) && OnTop(Run(job, Fresh(now), acts).stack)
  {
    hide Do, OnTop, Counted, Contained, Over;
    if acts == [] {
      FreshFits(now);
    } else {
      var before := Run(job, Fresh(now), acts[..|acts| - 1]);
      SeparateNeverOver(job, now, acts[..|acts| - 1]);
      OrdersCounted(job, now, acts[..|acts| - 1]);
      AllOrNothing(job, now, acts[..|acts| - 1]);
      NothingOver(job, before, acts[|acts| - 1]);
      StepOnTop(job, before, acts[|acts| - 1]);
    }
  }

  lemma NothingOver(job: Job, s: State, a: Action)
    requires Counted(s) && Contained(s) && OnTop(s.stack)
    ensures !Over(job, s, a)
  {
    hide Counted, Contained, OnTop, Ids;
    if Attempts(job, s, a) { NothingOfReversal(s); }
  }
}
