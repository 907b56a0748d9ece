/** What is left of a basket that the broker did not accept whole. */
module ConnectorBaskets {
  import opened Basics
  import opened ConnectorJob

  // The latest handler in progress that places or takes back a basket of one kind.
  function Latest(stack: seq<Frame>, p: Purpose): Option<Frame> {
    if stack == [] then None
    else if Handles(stack[|stack| - 1], p) then Some(stack[|stack| - 1])
    else Latest(stack[..|stack| - 1], p)
  }

  predicate Handles(f: Frame, p: Purpose) {
    if p == Initial then f.PlacingInitial? || f.UndoInitial? else f.PlacingReversal? || f.UndoReversal?
  }

  // While a failed basket is taken back, what is still there is what is still to be cancelled or closed.
  predicate TakingBack(pending: set<nat>, open: set<nat>, cancels: set<nat>, closes: Option<set<nat>>) {
    if closes.None? then pending <= cancels else pending == {} && open <= closes.value
  }

  // Orders and positions of a basket exist only if it was accepted whole, or is being placed or taken back.
  predicate Accounted(accepted: bool, pending: set<nat>, open: set<nat>, latest: Option<Frame>) {
    accepted ||
    match latest
    case None => pending == {} && open == {}
    case Some(UndoInitial(cancels, closes, _)) => TakingBack(pending, open, cancels, closes)
    case Some(UndoReversal(cancels, closes, _)) => TakingBack(pending, open, cancels, closes)
    case Some(_) => true
  }

  ghost predicate Settled(rt: Runtime, b: Broker, initial: Option<Frame>, reversal: Option<Frame>) {
    && Accounted(rt.accepted, Ids(b.pending, Initial), Ids(b.open, Initial), initial)
    && Accounted(rt.placed, Ids(b.pending, Reversal), Ids(b.open, Reversal), reversal)
  }

  ghost predicate Contained(s: State) {
    Settled(s.rt, s.broker, Latest(s.stack, Initial), Latest(s.stack, Reversal))
  }

  lemma LatestPush(stack: seq<Frame>, f: Frame, p: Purpose)
    ensures Latest(stack + [f], p) == if Handles(f, p) then Some(f) else Latest(stack, p)
    ensures Below(stack + [f]) == stack
  {
    assert (stack + [f])[..|stack|] == stack;
  }

  lemma LatestTop(s: State, p: Purpose)
    requires s.stack != []
    ensures Latest(s.stack, p) == if Handles(Top(s), p) then Some(Top(s)) else Latest(Below(s.stack), p)
  {
  }

  lemma FewerIds(orders: map<nat, Label>, id: nat, p: Purpose)
    ensures Ids(orders - {id}, p) == Ids(orders, p) - {id}
  {
  }

  lemma MoreIds(orders: map<nat, Label>, id: nat, l: Label, p: Purpose)
    ensures Ids(orders[id := l], p) <= Ids(orders, p) + (if l.purpose == p then {id} else {})
  {
  }

  lemma IdOf(orders: map<nat, Label>, id: nat)
    requires id in orders
    ensures id in Ids(orders, orders[id].purpose)
  {
  }

  lemma SomeIds(orders: map<nat, Label>, p: Purpose)
    ensures Ids(orders, p) <= orders.Keys
  {
  }

  lemma NoIds(orders: map<nat, Label>)
    requires Ids(orders, Initial) == {} && Ids(orders, Reversal) == {}
    ensures orders == map[]
  {
    forall id ensures id !in orders {
      if id in orders { IdOf(orders, id); }
    }
  }

  // Another running handler that neither places nor takes back, or none.
  lemma PushedContained(s: State, f: Frame)
    requires Contained(s) && !Handles(f, Initial) && !Handles(f, Reversal)
    ensures Contained(Push(s, f)) && (s.stack != [] && !Handles(Top(s), Initial) && !Handles(Top(s), Reversal)
              ==> Contained(Pop(s)) && Contained(Replace(s, f)))
  {
    hide Latest, Settled, Handles;
    LatestPush(s.stack, f, Initial);
    LatestPush(s.stack, f, Reversal);
    if s.stack != [] {
      LatestTop(s, Initial);
      LatestTop(s, Reversal);
      LatestPush(Below(s.stack), f, Initial);
      LatestPush(Below(s.stack), f, Reversal);
    }
  }

  lemma FlagsContained(s: State, rt: Runtime)
    requires Contained(s) && rt.accepted == s.rt.accepted && rt.placed == s.rt.placed
    ensures Contained(s.(rt := rt))
  {
  }

  lemma BeginContained(s: State, side: Direction)
    requires Contained(s)
    ensures Contained(Begin(s, side))
  {
    hide Contained, Opposing;
    PushedContained(s, Beginning(side, Opposing(s.broker, side)));
  }

  lemma TryPlaceContained(job: Job, s: State, side: Direction)
    requires Contained(s)
    ensures Contained(TryPlace(job, s, side))
  {
    hide Latest, Ids;
    LatestPush(s.stack, PlacingReversal(side, []), Initial);
    LatestPush(s.stack, PlacingReversal(side, []), Reversal);
  }

  lemma StartContained(s: State)
    requires Contained(s)
    ensures Contained(Push(s, PlacingInitial([])))
  {
    hide Latest, Ids;
    LatestPush(s.stack, PlacingInitial([]), Initial);
    LatestPush(s.stack, PlacingInitial([]), Reversal);
  }

  lemma SubmitContained(job: Job, s: State, now: int, refused: bool)
    requires Contained(s) && s.stack != [] && Top(s).Ticking?
    ensures Contained(SubmitOrSkip(job, s, now, refused))
  {
    hide Contained, Exposed, Below;
    var started := s.rt.(submitted := true, initialAttempts := s.rt.initialAttempts + 1, placingInitial := true);
    FlagsContained(s, s.rt.(submitted := true, terminal := true));
    FlagsContained(s, s.rt.(submitted := true));
    FlagsContained(s, started);
    PushedContained(s, Ticking(2, now, refused));
    PushedContained(s.(rt := s.rt.(submitted := true, terminal := true)), Ticking(2, now, refused));
    PushedContained(s.(rt := s.rt.(submitted := true)), Ticking(2, now, refused));
    PushedContained(s.(rt := started), Ticking(2, now, refused));
    StartContained(Replace(s.(rt := started), Ticking(2, now, refused)));
  }

  lemma RetryContained(job: Job, s: State, now: int, refused: bool)
    requires Contained(s) && s.stack != [] && Top(s).Ticking?
    ensures Contained(Retry(job, s, now, refused))
  {
    hide Contained, TryPlace, Below;
    PushedContained(s, Ticking(1, now, refused));
    TryPlaceContained(job, Replace(s, Ticking(1, now, refused)), s.rt.trigger);
  }

  // A basket accepted whole accounts for everything of it; one that was not is taken back from here on.
  lemma FinishInitialContained(s: State, answers: seq<Answer>)
    requires Contained(s) && s.stack != [] && Top(s).PlacingInitial?
    ensures Contained(FinishInitial(s, answers))
  {
    hide Latest, Ids, AllAccepted, PermanentlyRefused, Begin;
    LatestTop(s, Initial);
    LatestTop(s, Reversal);
    var undo := UndoInitial(s.broker.pending.Keys, None, PermanentlyRefused(answers));
    LatestPush(Below(s.stack), undo, Initial);
    LatestPush(Below(s.stack), undo, Reversal);
    SomeIds(s.broker.pending, Initial);
    if AllAccepted(answers) && s.rt.deferred.Some? {
      BeginContained(Pop(s.(rt := s.rt.(placingInitial := false, accepted := true))), s.rt.deferred.value);
    }
  }

  lemma FinishReversalContained(s: State, answers: seq<Answer>)
    requires Contained(s) && s.stack != [] && Top(s).PlacingReversal?
    ensures Contained(FinishReversal(s, answers))
  {
    hide Latest, Ids, AllAccepted, PermanentlyRefused;
    LatestTop(s, Initial);
    LatestTop(s, Reversal);
    var undo := UndoReversal(Ids(s.broker.pending, Reversal), None, PermanentlyRefused(answers));
    LatestPush(Below(s.stack), undo, Initial);
    LatestPush(Below(s.stack), undo, Reversal);
  }

  lemma NothingAccounted(accepted: bool, latest: Option<Frame>)
    ensures Accounted(accepted, {}, {}, latest)
  {
  }

  // Where a failed basket has been taken back, nothing of it is left.
  lemma TakenBackWhole(s: State)
    requires Contained(s) && s.stack != []
    ensures Top(s).UndoInitial? && Top(s).closes == Some({}) && !s.rt.accepted ==>
              Ids(s.broker.pending, Initial) == {} && Ids(s.broker.open, Initial) == {}
    ensures Top(s).UndoReversal? && Top(s).closes == Some({}) && !s.rt.placed ==>
              Ids(s.broker.pending, Reversal) == {} && Ids(s.broker.open, Reversal) == {}
  {
    hide Ids;
    LatestTop(s, Initial);
    LatestTop(s, Reversal);
  }

  lemma EndUndoContained(job: Job, s: State, permanent: bool)
    requires Contained(s) && s.stack != []
    ensures Top(s).UndoInitial? && Top(s).closes == Some({}) ==> Contained(EndUndoInitial(job, s, permanent))
    ensures Top(s).UndoReversal? && Top(s).closes == Some({}) ==> Contained(EndUndoReversal(job, s, permanent))
  {
    hide Ids, Exposed, Latest, Accounted;
    TakenBackWhole(s);
    LatestTop(s, Initial);
    LatestTop(s, Reversal);
    NothingAccounted(false, Latest(Below(s.stack), Initial));
    NothingAccounted(false, Latest(Below(s.stack), Reversal));
    AcceptedAccounted(Ids(s.broker.pending, Initial), Ids(s.broker.open, Initial), Latest(Below(s.stack), Initial));
    AcceptedAccounted(Ids(s.broker.pending, Reversal), Ids(s.broker.open, Reversal), Latest(Below(s.stack), Reversal));
  }

  lemma AcceptedAccounted(pending: set<nat>, open: set<nat>, latest: Option<Frame>)
    ensures Accounted(true, pending, open, latest)
  {
  }

  lemma ClosingContained(s: State)
    requires Contained(s) && s.stack != []
    ensures Top(s).UndoInitial? && Top(s).closes.None? && Top(s).cancels == {} ==>
              Contained(Replace(s, UndoInitial({}, Some(s.broker.open.Keys), Top(s).permanent)))
    ensures Top(s).UndoReversal? && Top(s).closes.None? && Top(s).cancels == {} ==>
              Contained(Replace(s, UndoReversal({}, Some(Ids(s.broker.open, Reversal)), Top(s).permanent)))
  {
    hide Ids, Latest;
    LatestTop(s, Initial);
    LatestTop(s, Reversal);
    SomeIds(s.broker.open, Initial);
    if Top(s).UndoInitial? {
      LatestPush(Below(s.stack), UndoInitial({}, Some(s.broker.open.Keys), Top(s).permanent), Initial);
      LatestPush(Below(s.stack), UndoInitial({}, Some(s.broker.open.Keys), Top(s).permanent), Reversal);
    }
    if Top(s).UndoReversal? {
      LatestPush(Below(s.stack), UndoReversal({}, Some(Ids(s.broker.open, Reversal)), Top(s).permanent), Initial);
      LatestPush(Below(s.stack), UndoReversal({}, Some(Ids(s.broker.open, Reversal)), Top(s).permanent), Reversal);
    }
  }

  lemma ContinueContained(job: Job, s: State)
    requires Contained(s) && s.stack != []
    ensures Contained(Continue(job, s, Top(s)))
  {
    hide Contained, Retry, TryPlace, FinishInitial, FinishReversal, SubmitOrSkip, EndUndoInitial, EndUndoReversal,
      Ids, Below;
    match Top(s)
    case Ticking(stage, now, refused) =>
      RetryContained(job, s, now, refused);
      SubmitContained(job, s, now, refused);
      PushedContained(s, Ticking(0, 0, false));
    case PlacingInitial(answers) => FinishInitialContained(s, answers);
    case PlacingReversal(_, answers) => FinishReversalContained(s, answers);
    case Beginning(side, cancels) =>
      PushedContained(s, Ticking(0, 0, false));
      TryPlaceContained(job, Pop(s), side);
    case UndoInitial(cancels, closes, permanent) =>
      ClosingContained(s);
      EndUndoContained(job, s, permanent);
    case UndoReversal(cancels, closes, permanent) =>
      ClosingContained(s);
      EndUndoContained(job, s, permanent);
  }

  lemma AskedAccounted(accepted: bool, b: Broker, latest: Option<Frame>, l: Label, answer: Answer, p: Purpose)
    requires Accounted(accepted, Ids(b.pending, p), Ids(b.open, p), latest)
    requires l.purpose == p ==> latest.Some? && (latest.value.PlacingInitial? || latest.value.PlacingReversal?)
    ensures var after := Asked(b, l, answer); Accounted(accepted, Ids(after.pending, p), Ids(after.open, p), latest)
  {
    hide Ids;
    MoreIds(b.pending, b.nextId, l, p);
    MoreIds(b.open, b.nextId, l, p);
  }

  lemma AnswerContained(s: State, answer: Answer)
    requires Contained(s) && s.stack != []
    ensures Contained(OnAnswer(s, Top(s), answer))
  {
    hide Accounted, Asked, Latest, Ids;
    LatestTop(s, Initial);
    LatestTop(s, Reversal);
    match Top(s)
    case PlacingInitial(answers) =>
      var l := InitialLabel(|answers|);
      AskedAccounted(s.rt.accepted, s.broker, Latest(s.stack, Initial), l, answer, Initial);
      AskedAccounted(s.rt.placed, s.broker, Latest(s.stack, Reversal), l, answer, Reversal);
      LatestPush(Below(s.stack), PlacingInitial(answers + [answer]), Initial);
      LatestPush(Below(s.stack), PlacingInitial(answers + [answer]), Reversal);
      PlacingAccounted(s.rt.accepted, Asked(s.broker, l, answer), PlacingInitial(answers + [answer]), Initial);
    case PlacingReversal(side, answers) =>
      var l := Label(Reversal, Opposite(side), |answers| + 1);
      AskedAccounted(s.rt.accepted, s.broker, Latest(s.stack, Initial), l, answer, Initial);
      AskedAccounted(s.rt.placed, s.broker, Latest(s.stack, Reversal), l, answer, Reversal);
      LatestPush(Below(s.stack), PlacingReversal(side, answers + [answer]), Initial);
      LatestPush(Below(s.stack), PlacingReversal(side, answers + [answer]), Reversal);
      PlacingAccounted(s.rt.placed, Asked(s.broker, l, answer), PlacingReversal(side, answers + [answer]), Reversal);
    case _ =>
  }

  lemma PlacingAccounted(accepted: bool, b: Broker, f: Frame, p: Purpose)
    requires f.PlacingInitial? || f.PlacingReversal?
    ensures Accounted(accepted, Ids(b.pending, p), Ids(b.open, p), Some(f))
  {
  }

  lemma LessAccounted(
    accepted: bool, pending: set<nat>, open: set<nat>, fewer: set<nat>, closer: set<nat>, latest: Option<Frame>)
    requires Accounted(accepted, pending, open, latest) && fewer <= pending && closer <= open
    ensures Accounted(accepted, fewer, closer, latest)
  {
  }

  // Removing an order or a position accounts for less.
  lemma RemovedContained(s: State, id: nat)
    requires Contained(s)
    ensures Contained(s.(broker := s.broker.(pending := s.broker.pending - {id})))
    ensures Contained(s.(broker := s.broker.(open := s.broker.open - {id})))
  {
    hide Ids, Accounted, Latest;
    var b := s.broker;
    FewerIds(b.pending, id, Reversal);
    FewerIds(b.pending, id, Initial);
    FewerIds(b.open, id, Reversal);
    FewerIds(b.open, id, Initial);
    LessAccounted(s.rt.accepted, Ids(b.pending, Initial), Ids(b.open, Initial), Ids(b.pending - {id}, Initial),
        Ids(b.open, Initial), Latest(s.stack, Initial));
    LessAccounted(s.rt.accepted, Ids(b.pending, Initial), Ids(b.open, Initial), Ids(b.pending, Initial),
        Ids(b.open - {id}, Initial), Latest(s.stack, Initial));
    LessAccounted(s.rt.placed, Ids(b.pending, Reversal), Ids(b.open, Reversal), Ids(b.pending - {id}, Reversal),
        Ids(b.open, Reversal), Latest(s.stack, Reversal));
    LessAccounted(s.rt.placed, Ids(b.pending, Reversal), Ids(b.open, Reversal), Ids(b.pending, Reversal),
        Ids(b.open - {id}, Reversal), Latest(s.stack, Reversal));
  }

  lemma TickedAccounted(accepted: bool, pending: set<nat>, open: set<nat>, f: Frame, id: nat)
    requires Accounted(accepted, pending, open, Some(f)) && (f.UndoInitial? || f.UndoReversal?)
    ensures id !in pending && f.closes.None? ==> Accounted(accepted, pending, open, Some(Ticked(f, id)))
    ensures id !in open && f.closes.Some? ==> Accounted(accepted, pending, open, Some(Ticked(f, id)))
  {
  }

  // One cancel or close less to do.
  function Ticked(f: Frame, id: nat): Frame {
    match f
    case UndoInitial(cancels, None, permanent) => UndoInitial(cancels - {id}, None, permanent)
    case UndoInitial(cancels, Some(closes), permanent) => UndoInitial(cancels, Some(closes - {id}), permanent)
    case UndoReversal(cancels, None, permanent) => UndoReversal(cancels - {id}, None, permanent)
    case UndoReversal(cancels, Some(closes), permanent) => UndoReversal(cancels, Some(closes - {id}), permanent)
    case Beginning(side, cancels) => Beginning(side, cancels - {id})
    case _ => f
  }

  // Ticking off what is gone keeps the rest of the list complete.
  lemma TickedContained(s: State, id: nat)
    requires Contained(s) && s.stack != []
    requires (Top(s).UndoInitial? || Top(s).UndoReversal?) && Top(s).closes.None? ==> id !in s.broker.pending
    requires (Top(s).UndoInitial? || Top(s).UndoReversal?) && Top(s).closes.Some? ==> id !in s.broker.open
    ensures Contained(Replace(s, Ticked(Top(s), id)))
  {
    hide Accounted, Latest, Ids, Ticked;
    LatestTop(s, Initial);
    LatestTop(s, Reversal);
    TickedKind(Top(s), id);
    LatestPush(Below(s.stack), Ticked(Top(s), id), Initial);
    LatestPush(Below(s.stack), Ticked(Top(s), id), Reversal);
    SomeIds(s.broker.pending, Initial);
    SomeIds(s.broker.pending, Reversal);
    SomeIds(s.broker.open, Initial);
    SomeIds(s.broker.open, Reversal);
    if Top(s).UndoInitial? {
      TickedAccounted(s.rt.accepted, Ids(s.broker.pending, Initial), Ids(s.broker.open, Initial), Top(s), id);
    } else if Top(s).UndoReversal? {
      TickedAccounted(s.rt.placed, Ids(s.broker.pending, Reversal), Ids(s.broker.open, Reversal), Top(s), id);
    } else if Top(s).PlacingInitial? || Top(s).PlacingReversal? {
      TickedSame(Top(s), id);
    }
  }

  lemma TickedKind(f: Frame, id: nat)
    ensures Handles(Ticked(f, id), Initial) == Handles(f, Initial)
              && Handles(Ticked(f, id), Reversal) == Handles(f, Reversal)
  {
  }

  lemma TickedSame(f: Frame, id: nat)
    requires f.PlacingInitial? || f.PlacingReversal?
    ensures Ticked(f, id) == f
  {
  }

  lemma CancelledContained(s: State, id: nat, ok: bool)
    requires Contained(s) && s.stack != [] && (ok || id !in s.broker.pending)
    ensures Contained(OnCancelled(s, Top(s), id, ok))
  {
    hide Contained, Below;
    var after := if ok then s.(broker := s.broker.(pending := s.broker.pending - {id})) else s;
    RemovedContained(s, id);
    assert Top(after) == Top(s);
    if OnCancelled(s, Top(s), id, ok) != s { TickedContained(after, id); }
  }

  lemma ClosedContained(s: State, id: nat, ok: bool)
    requires Contained(s) && s.stack != [] && (ok || id !in s.broker.open)
    ensures Contained(OnClosed(s, Top(s), id, ok))
  {
    hide Contained, Below;
    var after := if ok then s.(broker := s.broker.(open := s.broker.open - {id})) else s;
    RemovedContained(s, id);
    assert Top(after) == Top(s);
    if OnClosed(s, Top(s), id, ok) != s { TickedContained(after, id); }
  }

  lemma MovedAccounted(accepted: bool, b: Broker, latest: Option<Frame>, id: nat, p: Purpose)
    requires Accounted(accepted, Ids(b.pending, p), Ids(b.open, p), latest)
    ensures Accounted(accepted, Ids(Moved(b, id).pending, p), Ids(Moved(b, id).open, p), latest)
  {
    hide Ids;
    if id in b.pending {
      IdOf(b.pending, id);
      FewerIds(b.pending, id, p);
      MoreIds(b.open, id, b.pending[id], p);
    }
  }

  lemma TradedContained(s: State, id: nat)
    requires Contained(s)
    ensures Contained(s.(broker := Moved(s.broker, id)))
  {
    hide Accounted, Ids, Moved, Latest;
    MovedAccounted(s.rt.accepted, s.broker, Latest(s.stack, Initial), id, Initial);
    MovedAccounted(s.rt.placed, s.broker, Latest(s.stack, Reversal), id, Reversal);
  }

  lemma DeliveredContained(s: State, id: nat)
    requires Contained(s) && id in s.broker.undelivered
    ensures Contained(OnFilled(s.(broker := s.broker.(undelivered := s.broker.undelivered - {id})),
              s.broker.undelivered[id]))
  {
    hide Latest, Accounted, Ids, Begin;
    var told := s.(broker := s.broker.(undelivered := s.broker.undelivered - {id}));
    assert Contained(told);
    var side := s.broker.undelivered[id].side;
    FlagsContained(told, told.rt.(deferred := Some(side)));
    BeginContained(told.(rt := told.rt.(deferred := Some(side))), side);
  }

  lemma LaterContained(s: State, now: int)
    requires Contained(s)
    ensures Contained(s.(now := now))
  {
  }

  lemma StepContained(job: Job, s: State, a: Action)
    requires Contained(s) && !Ineffective(s, a)
    ensures Contained(Do(job, s, a))
  {
    hide Contained, Continue, OnAnswer, OnCancelled, OnClosed, OnFilled, Moved, Busy;
    match a
    case Pass(ms) => LaterContained(s, s.now + ms);
    case Tick(_, refused) => PushedContained(s, Ticking(0, s.now, refused));
    case Trade(id) => TradedContained(s, id);
    case Deliver(id) => if id in s.broker.undelivered { DeliveredContained(s, id); }
    case Vanish(id) =>
      RemovedContained(s, id);
      RemovedContained(s.(broker := s.broker.(pending := s.broker.pending - {id})), id);
    case Conclude => FlagsContained(s, s.rt.(terminal := true));
    case Answered(answer) => if s.stack != [] { AnswerContained(s, answer); }
    case Cancelled(id, ok) => if s.stack != [] { CancelledContained(s, id, ok); }
    case ClosedOut(id, ok) => if s.stack != [] { ClosedContained(s, id, ok); }
    case Proceed => if s.stack != [] { ContinueContained(job, s); }
  }

  // When every cancel and close takes effect, a job at rest has orders or positions of a basket only if that basket was
  // accepted whole; if neither was, it has none at all. This holds however handlers interrupt one another.
  lemma {:induction false} AllOrNothing(job: Job, now: int, acts: seq<Action>)
    requires Effective(job, Fresh(now), acts)
    ensures var s := Run(job, Fresh(now), acts);
            && Contained(s)
            && (s.stack == [] && !s.rt.accepted ==>
                Ids(s.broker.pending, Initial) == {} && Ids(s.broker.open, Initial) == {})
            && (s.stack == [] && !s.rt.placed ==>
                Ids(s.broker.pending, Reversal) == {} && Ids(s.broker.open, Reversal) == {})
            && (s.stack == [] && !s.rt.accepted && !s.rt.placed ==> !Exposed(s.broker))
  {
    hide Do, Ids;
    if acts == [] {
      FreshContained(now);
    } else {
      AllOrNothing(job, now, acts[..|acts| - 1]);
      StepContained(job, Run(job, Fresh(now), acts[..|acts| - 1]), acts[|acts| - 1]);
    }
    var s := Run(job, Fresh(now), acts);
    if s.stack == [] && !s.rt.accepted && !s.rt.placed {
      NoIds(s.broker.pending);
      NoIds(s.broker.open);
    }
  }

  lemma FreshContained(now: int)
    ensures Contained(Fresh(now))
  {
  }

  lemma UndosKeepFlags(job: Job, s: State, permanent: bool)
    ensures EndUndoInitial(job, s, permanent).rt.accepted == s.rt.accepted
    ensures EndUndoInitial(job, s, permanent).rt.placed == s.rt.placed
    ensures EndUndoReversal(job, s, permanent).rt.accepted == s.rt.accepted
    ensures EndUndoReversal(job, s, permanent).rt.placed == s.rt.placed
  {
    hide Below, Exposed;
  }

  lemma SubmitKeepsFlags(job: Job, s: State, now: int, refused: bool)
    ensures SubmitOrSkip(job, s, now, refused).rt.accepted == s.rt.accepted
    ensures SubmitOrSkip(job, s, now, refused).rt.placed == s.rt.placed
  {
    hide Below, Exposed;
  }

  lemma GoingOnFlags(job: Job, s: State)
    requires s.stack != []
    ensures !s.rt.accepted && Continue(job, s, Top(s)).rt.accepted ==>
              Top(s).PlacingInitial? && |Top(s).answers| >= INITIAL_ORDERS && AllAccepted(Top(s).answers)
    ensures !s.rt.placed && Continue(job, s, Top(s)).rt.placed ==>
              Top(s).PlacingReversal? && |Top(s).answers| >= REVERSAL_ORDERS && AllAccepted(Top(s).answers)
  {
    hide Ids, Opposing, PermanentlyRefused, AllAccepted, Below, SubmitOrSkip, EndUndoInitial, EndUndoReversal;
    match Top(s)
    case Ticking(stage, now, refused) => SubmitKeepsFlags(job, s, now, refused);
    case UndoInitial(_, _, permanent) => UndosKeepFlags(job, s, permanent);
    case UndoReversal(_, _, permanent) => UndosKeepFlags(job, s, permanent);
    case _ =>
  }

  lemma OtherFlags(job: Job, s: State, a: Action)
    requires !a.Proceed?
    ensures Do(job, s, a).rt.accepted == s.rt.accepted && Do(job, s, a).rt.placed == s.rt.placed
  {
    hide Opposing, Moved, Asked, Below, Busy, InitialLabel;
    match a
    case Answered(_) =>
    case Cancelled(_, _) =>
    case ClosedOut(_, _) =>
    case _ =>
  }

  // A basket counts as accepted only when the broker accepted every order of it.
  lemma AcceptedWhole(job: Job, s: State, a: Action)
    ensures !s.rt.accepted && Do(job, s, a).rt.accepted ==>
              && s.stack != [] && Top(s).PlacingInitial? && |Top(s).answers| >= INITIAL_ORDERS
              && forall i :: 0 <= i < |Top(s).answers| ==> !Top(s).answers[i].Refused?
    ensures !s.rt.placed && Do(job, s, a).rt.placed ==>
              && s.stack != [] && Top(s).PlacingReversal? && |Top(s).answers| >= REVERSAL_ORDERS
              && forall i :: 0 <= i < |Top(s).answers| ==> !Top(s).answers[i].Refused?
  {
    if a == Proceed {
      hide Continue;
      if s.stack != [] { GoingOnFlags(job, s); }
    } else {
      hide Do;
      OtherFlags(job, s, a);
    }
  }

  // A fill of an initial order that is reported although no initial basket stands or is being placed: its basket is
  // being taken back, or has been.
  predicate Stray(s: State, a: Action) {
    && a.Deliver? && a.id in s.broker.undelivered && s.broker.undelivered[a.id].purpose == Initial
    && !s.rt.accepted && !s.rt.placingInitial
  }

  // Without an accepted initial basket, a step puts a reversal handler on the stack exactly when it reports such a fill
  // and none of the handler's own checks stops it.
  lemma StrayBeginsExactly(job: Job, s: State, a: Action)
    requires !s.rt.accepted
    ensures (!Do(job, s, a).rt.accepted && |Do(job, s, a).stack| > |s.stack| && Top(Do(job, s, a)).Beginning?) <==>
              && Stray(s, a) && !s.rt.placed && !s.rt.failed
              && (s.rt.reversalAttempts == 0 || s.now >= s.rt.nextReversal)
  {
    if a == Proceed {
      hide Continue;
      if s.stack != [] { GoingOnGrows(job, s); }
    } else {
      hide Continue, Opposing, Moved, Busy, InitialLabel;
      OthersGrow(s, a);
    }
  }

  lemma GoingOnGrows(job: Job, s: State)
    requires s.stack != []
    ensures var t := Continue(job, s, Top(s));
            |t.stack| > |s.stack| ==> t.stack != [] && !Top(t).Beginning?
  {
    hide Opposing, Ids, AllAccepted, PermanentlyRefused, Exposed;
    match Top(s)
    case Ticking(_, _, _) =>
    case _ =>
  }

  lemma OthersGrow(s: State, a: Action)
    ensures s.stack != [] && a.Answered? ==> |OnAnswer(s, Top(s), a.answer).stack| == |s.stack|
    ensures s.stack != [] && a.Cancelled? ==> |OnCancelled(s, Top(s), a.id, a.ok).stack| == |s.stack|
    ensures s.stack != [] && a.ClosedOut? ==> |OnClosed(s, Top(s), a.id, a.ok).stack| == |s.stack|
  {
    hide InitialLabel, Asked;
  }

  predicate Reverses(f: Frame) {
    f.Beginning? || f.PlacingReversal? || f.UndoReversal?
  }

  // Nothing has been done about a reversal.
  ghost predicate Pristine(s: State) {
    !s.rt.accepted ==>
      && s.rt.reversalAttempts == 0 && !s.rt.placed
      && (forall i :: 0 <= i < |s.stack| ==> !Reverses(s.stack[i]))
  }

  lemma ContinuePristine(job: Job, s: State)
    requires Pristine(s) && s.stack != []
    ensures Pristine(Continue(job, s, Top(s)))
  {
    hide Opposing, Ids, AllAccepted, PermanentlyRefused, Exposed;
    if !s.rt.accepted {
      assert !Reverses(s.stack[|s.stack| - 1]);
      match Top(s)
      case Ticking(_, _, _) =>
      case _ =>
    } else {
      GoingOnKeepsAccepted(job, s);
    }
  }

  lemma PlacingKeepsAccepted(job: Job, s: State, now: int, refused: bool, answers: seq<Answer>)
    requires s.rt.accepted
    ensures SubmitOrSkip(job, s, now, refused).rt.accepted && Retry(job, s, now, refused).rt.accepted
    ensures FinishInitial(s, answers).rt.accepted && FinishReversal(s, answers).rt.accepted
  {
    hide Opposing, Ids, AllAccepted, PermanentlyRefused, Exposed, Below;
  }

  lemma UndosKeepAccepted(job: Job, s: State, permanent: bool)
    requires s.rt.accepted
    ensures EndUndoInitial(job, s, permanent).rt.accepted && EndUndoReversal(job, s, permanent).rt.accepted
  {
    hide Below, Exposed;
  }

  lemma GoingOnKeepsAccepted(job: Job, s: State)
    requires s.stack != [] && s.rt.accepted
    ensures Continue(job, s, Top(s)).rt.accepted
  {
    hide Retry, SubmitOrSkip, FinishInitial, FinishReversal, EndUndoInitial, EndUndoReversal, Ids, Below;
    match Top(s)
    case Ticking(_, now, refused) => PlacingKeepsAccepted(job, s, now, refused, []);
    case PlacingInitial(answers) => PlacingKeepsAccepted(job, s, 0, false, answers);
    case PlacingReversal(_, answers) => PlacingKeepsAccepted(job, s, 0, false, answers);
    case Beginning(_, _) =>
    case UndoInitial(_, _, permanent) => UndosKeepAccepted(job, s, permanent);
    case UndoReversal(_, _, permanent) => UndosKeepAccepted(job, s, permanent);
  }

  lemma SwappedPristine(s: State, a: Action)
    requires Pristine(s) && s.stack != []
    ensures a.Answered? ==> Pristine(OnAnswer(s, Top(s), a.answer))
    ensures a.Cancelled? ==> Pristine(OnCancelled(s, Top(s), a.id, a.ok))
    ensures a.ClosedOut? ==> Pristine(OnClosed(s, Top(s), a.id, a.ok))
  {
    hide InitialLabel, Asked;
    assert !s.rt.accepted ==> !Reverses(s.stack[|s.stack| - 1]);
    match a
    case Answered(_) =>
    case Cancelled(_, _) =>
    case ClosedOut(_, _) =>
    case _ =>
  }

  lemma StepPristine(job: Job, s: State, a: Action)
    requires Pristine(s) && !Stray(s, a)
    ensures Pristine(Do(job, s, a))
  {
    hide Continue, OnAnswer, OnCancelled, OnClosed, Moved, Busy, Opposing;
    if s.stack != [] {
      ContinuePristine(job, s);
      SwappedPristine(s, a);
    }
  }

  ghost predicate NoStrays(job: Job, s: State, acts: seq<Action>) {
    acts == [] || (&& NoStrays(job, s, acts[..|acts| - 1])
                   && !Stray(Run(job, s, acts[..|acts| - 1]), acts[|acts| - 1]))
  }

  // Without such a fill, a job whose initial basket was not accepted has no order and no position at all when it rests.
  lemma {:induction false} RejectedLeavesNothing(job: Job, now: int, acts: seq<Action>)
    requires Effective(job, Fresh(now), acts) && NoStrays(job, Fresh(now), acts)
    ensures var s := Run(job, Fresh(now), acts);
            && Pristine(s)
            && (s.stack == [] && !s.rt.accepted ==> !Exposed(s.broker))
  {
    hide Do, Exposed;
    AllOrNothing(job, now, acts);
    if acts != [] {
      RejectedLeavesNothing(job, now, acts[..|acts| - 1]);
      StepPristine(job, Run(job, Fresh(now), acts[..|acts| - 1]), acts[|acts| - 1]);
    }
  }

  // With one, what may be left of such a job is a reversal basket that was accepted whole, and nothing else.
  lemma LeftoverIsReversal(job: Job, now: int, acts: seq<Action>)
    requires Effective(job, Fresh(now), acts)
    ensures var s := Run(job, Fresh(now), acts);
            s.stack == [] && !s.rt.accepted ==>
              && (Exposed(s.broker) <==>
                   s.rt.placed && (Ids(s.broker.pending, Reversal) != {} || Ids(s.broker.open, Reversal) != {}))
  {
    hide Do, Ids;
    AllOrNothing(job, now, acts);
    var s := Run(job, Fresh(now), acts);
    if s.stack == [] && !s.rt.accepted && Ids(s.broker.pending, Reversal) == {} && Ids(s.broker.open, Reversal) == {} {
      NoIds(s.broker.pending);
      NoIds(s.broker.open);
    }
    SomeIds(s.broker.pending, Reversal);
    SomeIds(s.broker.open, Reversal);
  }
}
