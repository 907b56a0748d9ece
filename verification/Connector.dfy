/**
 * One NEWS_REVERSAL job in the cBot connector. Handlers stop at every broker call, and while one waits the platform may
 * run another: the stack holds the handlers in progress, the running one last.
 */
module ConnectorJob {
  import opened Basics

  datatype Purpose = Initial | Reversal

  datatype Label = Label(purpose: Purpose, side: Direction, level: nat)

  datatype Answer = Resting | Traded | Refused(permanent: bool)

  datatype Frame =
    | Ticking(stage: nat, now: int, refused: bool)
    | PlacingInitial(answers: seq<Answer>)
    | UndoInitial(cancels: set<nat>, closes: Option<set<nat>>, permanent: bool)
    | Beginning(side: Direction, cancels: set<nat>)
    | PlacingReversal(side: Direction, answers: seq<Answer>)
    | UndoReversal(cancels: set<nat>, closes: Option<set<nat>>, permanent: bool)

  datatype Job = Job(submitAt: int, executeAt: int, expiresAt: int, managementExpiry: int, maxReversals: nat)

  // What the connector remembers of the job; `accepted` records that a whole initial basket was accepted.
  datatype Runtime = Runtime(
    submitted: bool, accepted: bool, terminal: bool, initialAttempts: nat, nextInitial: int, placingInitial: bool,
    deferred: Option<Direction>, placed: bool, failed: bool, placingReversal: bool, reversalAttempts: nat,
    nextReversal: int, trigger: Direction)

  // The job's orders and positions, the fills not yet reported, and how many entry orders were asked for.
  datatype Broker = Broker(
    pending: map<nat, Label>, open: map<nat, Label>, undelivered: map<nat, Label>, nextId: nat, sent: nat)

  datatype State = State(now: int, rt: Runtime, broker: Broker, stack: seq<Frame>)

  datatype Action =
    | Pass(ms: nat)                       // time passes
    | Tick(gated: bool, refused: bool)    // the timer; gated by an earlier branch of the pass, refused by preflight
    | Trade(id: nat)                      // the broker fills an order
    | Deliver(id: nat)                    // and reports the fill
    | Vanish(id: nat)                     // an order or position ends at the broker
    | Conclude                            // another handler reports the end of the job
    | Answered(answer: Answer)            // the broker answers a placement
    | Cancelled(id: nat, ok: bool)        // or a cancel
    | ClosedOut(id: nat, ok: bool)        // or a close
    | Proceed                             // the running handler goes on

  const INITIAL_ORDERS: nat := 6
  const REVERSAL_ORDERS: nat := 3
  const MAX_ATTEMPTS: nat := 3
  const RETRY_MS: int := 300

  function Below(stack: seq<Frame>): seq<Frame> {
    if stack == [] then [] else stack[..|stack| - 1]
  }

  function Push(s: State, f: Frame): State {
    s.(stack := s.stack + [f])
  }

  function Pop(s: State): State {
    s.(stack := Below(s.stack))
  }

  function Replace(s: State, f: Frame): State {
    s.(stack := Below(s.stack) + [f])
  }

  predicate AllAccepted(answers: seq<Answer>) {
    forall i :: 0 <= i < |answers| ==> !answers[i].Refused?
  }

  // Whether the first refusal is one that a retry cannot cure.
  predicate PermanentlyRefused(answers: seq<Answer>) {
    answers != [] && (if answers[0].Refused? then answers[0].permanent else PermanentlyRefused(answers[1..]))
  }

  function Ids(orders: map<nat, Label>, purpose: Purpose): set<nat> {
    set id | id in orders && orders[id].purpose == purpose
  }

  predicate Busy(s: State) {
    exists i :: 0 <= i < |s.stack| && s.stack[i].Ticking?
  }

  predicate Exposed(b: Broker) {
    b.pending != map[] || b.open != map[]
  }

  function TryPlace(job: Job, s: State, side: Direction): State {
    if job.maxReversals < 1 || s.rt.placed || s.rt.placingReversal then s
    else
      Push(s.(rt := s.rt.(placingReversal := true, trigger := side, reversalAttempts := s.rt.reversalAttempts + 1)),
           PlacingReversal(side, []))
  }

  function Opposing(b: Broker, side: Direction): set<nat> {
    set id | id in b.pending && b.pending[id].purpose == Initial && b.pending[id].side != side
  }

  function Begin(s: State, side: Direction): State {
    if s.rt.placed || s.rt.failed || (s.rt.reversalAttempts > 0 && s.now < s.rt.nextReversal) then s
    else Push(s, Beginning(side, Opposing(s.broker, side)))
  }

  function OnFilled(s: State, l: Label): State {
    if l.purpose == Reversal || s.rt.placed then s
    else
      var noted := s.(rt := s.rt.(deferred := Some(l.side)));
      if s.rt.placingInitial then noted else Begin(noted, l.side)
  }

  function Asked(b: Broker, l: Label, answer: Answer): Broker {
    match answer
    case Resting => Broker(b.pending[b.nextId := l], b.open, b.undelivered, b.nextId + 1, b.sent + 1)
    case Traded => Broker(b.pending, b.open[b.nextId := l], b.undelivered, b.nextId + 1, b.sent + 1)
    case Refused(_) => Broker(b.pending, b.open, b.undelivered, b.nextId + 1, b.sent + 1)
  }

  // The second part of a timer pass: the checks before the initial basket, and its start.
  function SubmitOrSkip(job: Job, s: State, now: int, refused: bool): State {
    if s.rt.submitted || now < job.submitAt || now < s.rt.nextInitial then Pop(s)
    else if now > job.expiresAt || refused then Pop(s.(rt := s.rt.(submitted := true, terminal := true)))
    else if Exposed(s.broker) then Pop(s.(rt := s.rt.(submitted := true)))
    else
      var started := s.rt.(submitted := true, initialAttempts := s.rt.initialAttempts + 1, placingInitial := true);
      Push(Replace(s.(rt := started), Ticking(2, now, refused)), PlacingInitial([]))
  }

  function FinishInitial(s: State, answers: seq<Answer>): State {
    if AllAccepted(answers) then
      var accepted := Pop(s.(rt := s.rt.(placingInitial := false, accepted := true)));
      if s.rt.deferred.Some? then Begin(accepted, s.rt.deferred.value) else accepted
    else
      Replace(s.(rt := s.rt.(placingInitial := false)),
              UndoInitial(s.broker.pending.Keys, None, PermanentlyRefused(answers)))
  }

  function FinishReversal(s: State, answers: seq<Answer>): State {
    if AllAccepted(answers) then Pop(s.(rt := s.rt.(placingReversal := false, placed := true, deferred := None)))
    else
      Replace(s.(rt := s.rt.(placingReversal := false)),
              UndoReversal(Ids(s.broker.pending, Reversal), None, PermanentlyRefused(answers)))
  }

  function EndUndoInitial(job: Job, s: State, permanent: bool): State {
    if s.rt.initialAttempts < MAX_ATTEMPTS && !permanent && s.now < job.executeAt then
      Pop(s.(rt := s.rt.(deferred := None, submitted := false, nextInitial := s.now + RETRY_MS)))
    else Pop(s.(rt := s.rt.(deferred := None, terminal := true)))
  }

  function EndUndoReversal(job: Job, s: State, permanent: bool): State {
    if s.rt.reversalAttempts < MAX_ATTEMPTS && !permanent && s.now < job.managementExpiry then
      Pop(s.(rt := s.rt.(nextReversal := s.now + RETRY_MS)))
    else Pop(s.(rt := s.rt.(failed := true, terminal := s.rt.terminal || !Exposed(s.broker))))
  }

  // The second half of a timer pass waits until a retried reversal is through.
  function Retry(job: Job, s: State, now: int, refused: bool): State {
    var next := Replace(s, Ticking(1, now, refused));
    if s.rt.placed || s.rt.failed || s.rt.placingReversal || s.rt.reversalAttempts
        == 0 || now < s.rt.nextReversal then next
    else TryPlace(job, next, s.rt.trigger)
  }

  // The running handler goes on once the broker has answered everything it asked.
  function Continue(job: Job, s: State, top: Frame): State {
    match top
    case Ticking(stage, now, refused) =>
      if stage == 0 then Retry(job, s, now, refused)
      else if stage == 1 then SubmitOrSkip(job, s, now, refused)
      else Pop(s)
    case PlacingInitial(answers) => if |answers| < INITIAL_ORDERS then s else FinishInitial(s, answers)
    case PlacingReversal(_, answers) => if |answers| < REVERSAL_ORDERS then s else FinishReversal(s, answers)
    case Beginning(side, cancels) =>
      if cancels != {} then s else if s.rt.placingReversal then Pop(s) else TryPlace(job, Pop(s), side)
    case UndoInitial(cancels, closes, permanent) =>
      if closes.None? then
        if cancels != {} then s else Replace(s, UndoInitial({}, Some(s.broker.open.Keys), permanent))
      else if closes.value != {} then s else EndUndoInitial(job, s, permanent)
    case UndoReversal(cancels, closes, permanent) =>
      if closes.None? then
        if cancels != {} then s else Replace(s, UndoReversal({}, Some(Ids(s.broker.open, Reversal)), permanent))
      else if closes.value != {} then s else EndUndoReversal(job, s, permanent)
  }

  function InitialLabel(index: nat): Label {
    Label(Initial, if index % 2 == 0 then Buy else Sell, index / 2 + 1)
  }

  function OnAnswer(s: State, top: Frame, answer: Answer): State {
    match top
    case PlacingInitial(answers) =>
      if |answers| >= INITIAL_ORDERS then s
      else
        Replace(s.(broker := Asked(s.broker, InitialLabel(|answers|), answer)), PlacingInitial(answers + [answer]))
    case PlacingReversal(side, answers) =>
      if |answers| >= REVERSAL_ORDERS then s
      else
        Replace(s.(broker := Asked(s.broker, Label(Reversal, Opposite(side), |answers| + 1), answer)),
                PlacingReversal(side, answers + [answer]))
    case _ => s
  }

  function OnCancelled(s: State, top: Frame, id: nat, ok: bool): State {
    var after := if ok then s.(broker := s.broker.(pending := s.broker.pending - {id})) else s;
    match top
    case Beginning(side, cancels) =>
      if id in cancels then Replace(after, Beginning(side, cancels - {id})) else s
    case UndoInitial(cancels, closes, permanent) =>
      if id in cancels && closes.None? then Replace(after, UndoInitial(cancels - {id}, None, permanent)) else s
    case UndoReversal(cancels, closes, permanent) =>
      if id in cancels && closes.None? then Replace(after, UndoReversal(cancels - {id}, None, permanent)) else s
    case _ => s
  }

  function OnClosed(s: State, top: Frame, id: nat, ok: bool): State {
    var after := if ok then s.(broker := s.broker.(open := s.broker.open - {id})) else s;
    match top
    case UndoInitial(cancels, closes, permanent) =>
      if closes.Some? && id in closes.value
      then Replace(after, UndoInitial(cancels, Some(closes.value - {id}), permanent)) else s
    case UndoReversal(cancels, closes, permanent) =>
      if closes.Some? && id in closes.value
      then Replace(after, UndoReversal(cancels, Some(closes.value - {id}), permanent)) else s
    case _ => s
  }

  function Moved(b: Broker, id: nat): Broker {
    if id !in b.pending then b
    else Broker(b.pending - {id}, b.open[id := b.pending[id]], b.undelivered[id := b.pending[id]], b.nextId, b.sent)
  }

  function Do(job: Job, s: State, a: Action): State {
    match a
    case Pass(ms) => s.(now := s.now + ms)
    case Tick(gated, refused) => if gated || s.rt.terminal || Busy(s) then s else Push(s, Ticking(0, s.now, refused))
    case Trade(id) => s.(broker := Moved(s.broker, id))
    case Deliver(id) =>
      if id !in s.broker.undelivered then s
      else OnFilled(s.(broker := s.broker.(undelivered := s.broker.undelivered - {id})), s.broker.undelivered[id])
    case Vanish(id) => s.(broker := s.broker.(pending := s.broker.pending - {id}, open := s.broker.open - {id}))
    case Conclude => s.(rt := s.rt.(terminal := true))
    case Answered(answer) => if s.stack == [] then s else OnAnswer(s, Top(s), answer)
    case Cancelled(id, ok) => if s.stack == [] then s else OnCancelled(s, Top(s), id, ok)
    case ClosedOut(id, ok) => if s.stack == [] then s else OnClosed(s, Top(s), id, ok)
    case Proceed => if s.stack == [] then s else Continue(job, s, Top(s))
  }

  function Top(s: State): Frame
    requires s.stack != []
  {
    s.stack[|s.stack| - 1]
  }

  function Fresh(now: int): State {
    State(now, Runtime(false, false, false, 0, now, false, None, false, false, false, 0, now, Buy),
          Broker(map[], map[], map[], 0, 0), [])
  }

  function Run(job: Job, s: State, acts: seq<Action>): State {
    if acts == [] then s else Do(job, Run(job, s, acts[..|acts| - 1]), acts[|acts| - 1])
  }

  // A handler that starts while another is cancelling or closing orders.
  predicate Interrupts(s: State, a: Action) {
    && (a.Tick? || a.Deliver?) && s.stack != []
    && (Top(s).Beginning? || Top(s).UndoInitial? || Top(s).UndoReversal?)
  }

  // How many handlers a run starts while another is cancelling or closing orders.
  function Interruptions(job: Job, s: State, acts: seq<Action>): nat {
    if acts == [] then 0
    else
      var before, a := Run(job, s, acts[..|acts| - 1]), acts[|acts| - 1];
      Interruptions(job, s, acts[..|acts| - 1]) + Interrupted(job, before, a)
  }

  function Interrupted(job: Job, s: State, a: Action): nat {
    if Interrupts(s, a) && Do(job, s, a).stack != s.stack then 1 else 0
  }

  // A cancel or close after which the order or position is still there.
  predicate Ineffective(s: State, a: Action) {
    (a.Cancelled? && !a.ok && a.id in s.broker.pending) || (a.ClosedOut? && !a.ok && a.id in s.broker.open)
  }

  predicate Effective(job: Job, s: State, acts: seq<Action>) {
    acts == [] || (&& Effective(job, s, acts[..|acts| - 1])
                   && !Ineffective(Run(job, s, acts[..|acts| - 1]), acts[|acts| - 1]))
  }
}

/** How many times the connector can try, and what is left of an attempt that failed. */
module ConnectorBounds {
  import opened Basics
  import opened ConnectorJob

  // The handlers in progress of each kind that counts, and the entry orders they have still to ask for.
  datatype Tally = Tally(owed: nat, placeI: nat, undoI: nat, placeR: nat)

  function Single(f: Frame): Tally {
    match f
    case PlacingInitial(answers) => Tally(if |answers| < INITIAL_ORDERS then INITIAL_ORDERS - |answers| else 0, 1, 0, 0)
    case PlacingReversal(_, answers) => Tally(if |answers| < REVERSAL_ORDERS then REVERSAL_ORDERS - |answers|
        else 0, 0, 0, 1)
    case UndoInitial(_, _, _) => Tally(0, 0, 1, 0)
    case _ => Tally(0, 0, 0, 0)
  }

  function Add(t: Tally, u: Tally): Tally {
    Tally(t.owed + u.owed, t.placeI + u.placeI, t.undoI + u.undoI, t.placeR + u.placeR)
  }

  function Total(stack: seq<Frame>): Tally {
    if stack == [] then Tally(0, 0, 0, 0) else Add(Total(stack[..|stack| - 1]), Single(stack[|stack| - 1]))
  }

  lemma PushFacts(stack: seq<Frame>, f: Frame)
    ensures Total(stack + [f]) == Add(Total(stack), Single(f))
  {
    assert (stack + [f])[..|stack|] == stack;
  }

  lemma TopFacts(s: State)
    requires s.stack != []
    ensures Total(s.stack) == Add(Total(Below(s.stack)), Single(Top(s)))
  {
  }

  predicate Balanced(rt: Runtime, sent: nat, t: Tally) {
    && rt.initialAttempts <= MAX_ATTEMPTS && (!rt.submitted ==> rt.initialAttempts < MAX_ATTEMPTS)
    && sent + t.owed == INITIAL_ORDERS * rt.initialAttempts + REVERSAL_ORDERS * rt.reversalAttempts
    && t.placeI + t.undoI <= (if rt.submitted then 1 else 0)
    && (rt.placingInitial <==> t.placeI == 1)
    && t.placeR == (if rt.placingReversal then 1 else 0)
  }

  // Kept by every step of every run, however handlers interrupt one another.
  ghost predicate Counted(s: State) {
    Balanced(s.rt, s.broker.sent, Total(s.stack))
  }

  lemma PushedCounted(s: State, side: Direction)
    requires Counted(s)
    ensures Counted(Begin(s, side))
  {
    hide Total, Opposing;
    PushFacts(s.stack, Beginning(side, Opposing(s.broker, side)));
  }

  lemma TryPlaceCounted(job: Job, s: State, side: Direction)
    requires Counted(s)
    ensures Counted(TryPlace(job, s, side))
  {
    hide Total;
    PushFacts(s.stack, PlacingReversal(side, []));
  }

  lemma ReplacedCounted(s: State, f: Frame)
    requires Counted(s) && s.stack != [] && Single(f) == Single(Top(s))
    ensures Counted(Replace(s, f))
  {
    hide Total;
    TopFacts(s);
    PushFacts(Below(s.stack), f);
  }

  lemma PoppedCounted(s: State)
    requires Counted(s) && s.stack != [] && (Top(s).Ticking? || Top(s).Beginning? || Top(s).UndoReversal?)
    ensures Counted(Pop(s))
  {
    hide Total;
    TopFacts(s);
  }

  lemma StartCounted(s: State, now: int, refused: bool)
    requires Counted(s) && s.stack != [] && Top(s).Ticking? && !s.rt.submitted
    ensures Counted(Push(Replace(
              s.(rt := s.rt.(submitted := true, initialAttempts := s.rt.initialAttempts + 1, placingInitial := true)),
              Ticking(2, now, refused)), PlacingInitial([])))
  {
    hide Total;
    TopFacts(s);
    PushFacts(Below(s.stack), Ticking(2, now, refused));
    PushFacts(Below(s.stack) + [Ticking(2, now, refused)], PlacingInitial([]));
  }

  lemma SubmitCounted(job: Job, s: State, now: int, refused: bool)
    requires Counted(s) && s.stack != [] && Top(s).Ticking?
    ensures Counted(SubmitOrSkip(job, s, now, refused))
  {
    hide Total, Exposed, Below;
    TopFacts(s);
    if !s.rt.submitted { StartCounted(s, now, refused); }
  }

  lemma FinishInitialCounted(s: State, answers: seq<Answer>)
    requires Counted(s) && s.stack != [] && Top(s) == PlacingInitial(answers) && |answers| >= INITIAL_ORDERS
    ensures Counted(FinishInitial(s, answers))
  {
    hide Total, AllAccepted, PermanentlyRefused, Begin;
    TopFacts(s);
    PushFacts(Below(s.stack), UndoInitial(s.broker.pending.Keys, None, PermanentlyRefused(answers)));
    if AllAccepted(answers) && s.rt.deferred.Some? {
      PushedCounted(Pop(s.(rt := s.rt.(placingInitial := false, accepted := true))), s.rt.deferred.value);
    }
  }

  lemma FinishReversalCounted(s: State, answers: seq<Answer>)
    requires Counted(s) && s.stack != [] && Top(s).PlacingReversal? && Top(s).answers == answers
    requires |answers| >= REVERSAL_ORDERS
    ensures Counted(FinishReversal(s, answers))
  {
    hide Total, AllAccepted, PermanentlyRefused, Ids;
    TopFacts(s);
    PushFacts(Below(s.stack), UndoReversal(Ids(s.broker.pending, Reversal), None, PermanentlyRefused(answers)));
  }

  lemma EndUndoInitialCounted(job: Job, s: State, permanent: bool)
    requires Counted(s) && s.stack != [] && Top(s).UndoInitial?
    ensures Counted(EndUndoInitial(job, s, permanent))
  {
    hide Total;
    TopFacts(s);
  }

  lemma EndUndoReversalCounted(job: Job, s: State, permanent: bool)
    requires Counted(s) && s.stack != [] && Top(s).UndoReversal?
    ensures Counted(EndUndoReversal(job, s, permanent))
  {
    hide Total, Exposed;
    TopFacts(s);
  }

  lemma ContinueCounted(job: Job, s: State)
    requires Counted(s) && s.stack != []
    ensures Counted(Continue(job, s, Top(s)))
  {
    hide Counted, TryPlace, FinishInitial, FinishReversal, SubmitOrSkip, EndUndoInitial, EndUndoReversal, Ids;
    match Top(s)
    case Ticking(stage, now, refused) =>
      SubmitCounted(job, s, now, refused);
      PoppedCounted(s);
      ReplacedCounted(s, Ticking(1, now, refused));
      TryPlaceCounted(job, Replace(s, Ticking(1, now, refused)), s.rt.trigger);
    case PlacingInitial(answers) =>
      if |answers| >= INITIAL_ORDERS { FinishInitialCounted(s, answers); }
    case PlacingReversal(_, answers) =>
      if |answers| >= REVERSAL_ORDERS { FinishReversalCounted(s, answers); }
    case Beginning(side, cancels) =>
      PoppedCounted(s);
      TryPlaceCounted(job, Pop(s), side);
    case UndoInitial(cancels, closes, permanent) =>
      ReplacedCounted(s, UndoInitial({}, Some(s.broker.open.Keys), permanent));
      EndUndoInitialCounted(job, s, permanent);
    case UndoReversal(cancels, closes, permanent) =>
      ReplacedCounted(s, UndoReversal({}, Some(Ids(s.broker.open, Reversal)), permanent));
      EndUndoReversalCounted(job, s, permanent);
  }

  lemma AnsweredCounted(s: State, answer: Answer)
    requires Counted(s) && s.stack != []
    ensures Counted(OnAnswer(s, Top(s), answer))
  {
    hide Total, InitialLabel;
    TopFacts(s);
    match Top(s)
    case PlacingInitial(answers) => PushFacts(Below(s.stack), PlacingInitial(answers + [answer]));
    case PlacingReversal(side, answers) => PushFacts(Below(s.stack), PlacingReversal(side, answers + [answer]));
    case _ =>
  }

  // Ticking off one cancel or close leaves the handler of the same kind.
  lemma UndoneCounted(s: State, id: nat, ok: bool)
    requires Counted(s) && s.stack != []
    ensures Counted(OnCancelled(s, Top(s), id, ok)) && Counted(OnClosed(s, Top(s), id, ok))
  {
    hide Total, Balanced;
    TopFacts(s);
    match Top(s)
    case Beginning(side, cancels) => PushFacts(Below(s.stack), Beginning(side, cancels - {id}));
    case UndoInitial(cancels, closes, permanent) =>
      PushFacts(Below(s.stack), UndoInitial(cancels - {id}, None, permanent));
      if closes.Some? { PushFacts(Below(s.stack), UndoInitial(cancels, Some(closes.value - {id}), permanent)); }
    case UndoReversal(cancels, closes, permanent) =>
      PushFacts(Below(s.stack), UndoReversal(cancels - {id}, None, permanent));
      if closes.Some? { PushFacts(Below(s.stack), UndoReversal(cancels, Some(closes.value - {id}), permanent)); }
    case _ =>
  }

  lemma StepCounted(job: Job, s: State, a: Action)
    requires Counted(s)
    ensures Counted(Do(job, s, a))
  {
    hide Total, Continue, OnAnswer, OnCancelled, OnClosed, Begin, Busy;
    PushFacts(s.stack, Ticking(0, s.now, if a.Tick? then a.refused else false));
    if s.stack != [] {
      ContinueCounted(job, s);
      match a
      case Answered(answer) => AnsweredCounted(s, answer);
      case Cancelled(id, ok) => UndoneCounted(s, id, ok);
      case ClosedOut(id, ok) => UndoneCounted(s, id, ok);
      case _ =>
    }
    if a.Deliver? && a.id in s.broker.undelivered {
      var side := s.broker.undelivered[a.id].side;
      PushedCounted(s.(broker := s.broker.(undelivered := s.broker.undelivered - {a.id}),
          rt := s.rt.(deferred := Some(side))), side);
    }
  }

  // Every run makes at most three initial attempts and asks for at most six orders in each, and three in each reversal.
  lemma {:induction false} OrdersCounted(job: Job, now: int, acts: seq<Action>)
    ensures var s := Run(job, Fresh(now), acts);
            && Counted(s) && s.rt.initialAttempts <= MAX_ATTEMPTS
            && s.broker.sent <= INITIAL_ORDERS * s.rt.initialAttempts + REVERSAL_ORDERS * s.rt.reversalAttempts
  {
    hide Do;
    if acts != [] {
      OrdersCounted(job, now, acts[..|acts| - 1]);
      StepCounted(job, Run(job, Fresh(now), acts[..|acts| - 1]), acts[|acts| - 1]);
    }
  }

  // Which steps start a reversal attempt, in any state at all: the timer's retry when no failure has been noted and the
  // delay is over, and a fill handler that has finished its cancels. Neither looks at the number of attempts, and the
  // fill handler does not look at a failure noted since it began.
  predicate Attempts(job: Job, s: State, a: Action) {
    && a.Proceed? && s.stack != [] && job.maxReversals >= 1 && !s.rt.placed && !s.rt.placingReversal
    && match Top(s)
       case Ticking(stage, now, _) =>
         stage == 0 && !s.rt.failed && s.rt.reversalAttempts > 0 && now >= s.rt.nextReversal
       case Beginning(_, cancels) => cancels == {}
       case _ => false
  }

  lemma UndosKeepAttempts(job: Job, s: State, permanent: bool)
    ensures EndUndoInitial(job, s, permanent).rt.reversalAttempts == s.rt.reversalAttempts
    ensures EndUndoReversal(job, s, permanent).rt.reversalAttempts == s.rt.reversalAttempts
  {
    hide Below, Exposed;
  }

  lemma PlacingKeepsAttempts(job: Job, s: State, now: int, refused: bool, answers: seq<Answer>)
    ensures SubmitOrSkip(job, s, now, refused).rt.reversalAttempts == s.rt.reversalAttempts
    ensures FinishInitial(s, answers).rt.reversalAttempts == s.rt.reversalAttempts
    ensures FinishReversal(s, answers).rt.reversalAttempts == s.rt.reversalAttempts
  {
    hide Opposing, Ids, AllAccepted, PermanentlyRefused, Exposed, Below;
  }

  lemma GoingOnAttempts(job: Job, s: State)
    requires s.stack != []
    ensures Continue(job, s, Top(s)).rt.reversalAttempts
            == s.rt.reversalAttempts + (if Attempts(job, s, Proceed) then 1 else 0)
  {
    hide SubmitOrSkip, FinishInitial, FinishReversal, EndUndoInitial, EndUndoReversal, Ids, Below;
    match Top(s)
    case Ticking(_, now, refused) => PlacingKeepsAttempts(job, s, now, refused, []);
    case PlacingInitial(answers) => PlacingKeepsAttempts(job, s, 0, false, answers);
    case PlacingReversal(_, answers) => PlacingKeepsAttempts(job, s, 0, false, answers);
    case Beginning(_, _) =>
    case UndoInitial(_, _, permanent) => UndosKeepAttempts(job, s, permanent);
    case UndoReversal(_, _, permanent) => UndosKeepAttempts(job, s, permanent);
  }

  lemma OthersKeepAttempts(job: Job, s: State, a: Action)
    requires !a.Proceed?
    ensures Do(job, s, a).rt.reversalAttempts == s.rt.reversalAttempts
  {
    hide Opposing, Moved, Asked, Below, Busy, InitialLabel;
    match a
    case Answered(_) =>
    case Cancelled(_, _) =>
    case ClosedOut(_, _) =>
    case _ =>
  }

  // For every action in every state: the step makes one more attempt exactly when it is one of those.
  lemma AttemptExactly(job: Job, s: State, a: Action)
    ensures Do(job, s, a).rt.reversalAttempts > s.rt.reversalAttempts <==> Attempts(job, s, a)
    ensures Do(job, s, a).rt.reversalAttempts <= s.rt.reversalAttempts + 1
  {
    if a == Proceed {
      hide Continue;
      if s.stack != [] { GoingOnAttempts(job, s); }
    } else {
      hide Do;
      OthersKeepAttempts(job, s, a);
    }
  }

  function Waits(f: Frame): nat {
    if f.Beginning? then 1 else 0
  }

  // The fill handlers in progress that have still to place.
  function Waiting(stack: seq<Frame>): nat {
    if stack == [] then 0 else Waiting(stack[..|stack| - 1]) + Waits(stack[|stack| - 1])
  }

  predicate UndoingReversal(stack: seq<Frame>) {
    stack != [] && stack[|stack| - 1].UndoReversal?
  }

  // The attempts that can still follow without a further interruption. `w` handlers wait below the running one, which
  // waits itself if `top`; `undo` says that it is taking a reversal basket back.
  function Debt(rt: Runtime, w: nat, top: nat, undo: bool): nat {
    if rt.placed then 0
    else if rt.failed then w + top
    else if rt.reversalAttempts < MAX_ATTEMPTS then w + MAX_ATTEMPTS - rt.reversalAttempts
    else if rt.placingReversal || undo then w
    else w + 1
  }

  function Owing(s: State): nat {
    s.rt.reversalAttempts
    + Debt(s.rt, Waiting(Below(s.stack)), Waiting(s.stack) - Waiting(Below(s.stack)), UndoingReversal(s.stack))
  }

  lemma WaitingPush(stack: seq<Frame>, f: Frame)
    ensures Waiting(stack + [f]) == Waiting(stack) + Waits(f)
    ensures Below(stack + [f]) == stack && UndoingReversal(stack + [f]) == f.UndoReversal?
  {
    assert (stack + [f])[..|stack|] == stack;
  }

  lemma WaitingTop(s: State)
    requires s.stack != []
    ensures Waiting(s.stack) == Waiting(Below(s.stack)) + Waits(Top(s))
              && UndoingReversal(s.stack) == Top(s).UndoReversal?
  {
  }

  lemma WaitingBelow(stack: seq<Frame>)
    ensures Waiting(Below(stack)) <= Waiting(stack)
  {
  }

  // A handler that starts on top of another: free unless it interrupts a cancel or close.
  lemma StartedOwes(s: State, f: Frame)
    requires f.Ticking? || (f.Beginning? && !s.rt.placed && !s.rt.failed)
    ensures Owing(Push(s, f)) <= Owing(s)
              + (if s.stack != [] && (Top(s).Beginning? || Top(s).UndoReversal?) then 1 else 0)
  {
    hide Waiting, Below;
    WaitingPush(s.stack, f);
    WaitingBelow(s.stack);
    if s.stack == [] { WaitingEmpty(); } else { WaitingTop(s); }
  }

  lemma WaitingEmpty()
    ensures Waiting([]) == 0 && Below([]) == []
  {
  }

  // Ending a handler, or going on with one, owes nothing more.
  lemma PoppedOwes(s: State)
    requires s.stack != []
              && (Top(s).UndoReversal? ==> s.rt.placed || s.rt.failed || s.rt.reversalAttempts < MAX_ATTEMPTS)
    ensures Owing(Pop(s)) <= Owing(s)
  {
    hide Waiting, Below;
    WaitingTop(s);
    WaitingBelow(Below(s.stack));
  }

  lemma ReplacedOwes(s: State, f: Frame)
    requires s.stack != [] && (Waits(f) <= Waits(Top(s)) || (!s.rt.failed && !s.rt.placed))
    requires Top(s).UndoReversal? ==> f.UndoReversal?
    ensures Owing(Replace(s, f)) <= Owing(s)
  {
    hide Waiting, Below;
    WaitingTop(s);
    WaitingPush(Below(s.stack), f);
  }

  lemma RetryOwes(job: Job, s: State, now: int, refused: bool)
    requires s.stack != [] && Top(s).Ticking?
    ensures Owing(Retry(job, s, now, refused)) <= Owing(s)
  {
    hide Waiting, Below;
    var next := Replace(s, Ticking(1, now, refused));
    ReplacedOwes(s, Ticking(1, now, refused));
    WaitingTop(s);
    WaitingPush(Below(s.stack), Ticking(1, now, refused));
    WaitingPush(next.stack, PlacingReversal(s.rt.trigger, []));
  }

  lemma BeginningOwes(job: Job, s: State, side: Direction)
    requires s.stack != [] && Top(s).Beginning? && !s.rt.placingReversal
    ensures Owing(TryPlace(job, Pop(s), side)) <= Owing(s)
  {
    hide Waiting, Below;
    PoppedOwes(s);
    WaitingTop(s);
    WaitingPush(Below(s.stack), PlacingReversal(side, []));
  }

  lemma StartOwes(s: State, rt: Runtime, now: int, refused: bool)
    requires s.stack != [] && Top(s).Ticking?
    requires rt == s.rt.(submitted := rt.submitted, initialAttempts := rt.initialAttempts,
                         placingInitial := rt.placingInitial)
    ensures Owing(Push(Replace(s.(rt := rt), Ticking(2, now, refused)), PlacingInitial([]))) <= Owing(s)
  {
    hide Waiting, Below;
    WaitingTop(s);
    WaitingPush(Below(s.stack), Ticking(2, now, refused));
    WaitingPush(Below(s.stack) + [Ticking(2, now, refused)], PlacingInitial([]));
  }

  lemma SubmitOwes(job: Job, s: State, now: int, refused: bool)
    requires s.stack != [] && Top(s).Ticking?
    ensures Owing(SubmitOrSkip(job, s, now, refused)) <= Owing(s)
  {
    hide Owing, Below, Exposed;
    PoppedOwes(s);
    EndedOwes(s, s.rt.(submitted := true, terminal := true));
    EndedOwes(s, s.rt.(submitted := true));
    StartOwes(s, s.rt.(submitted := true, initialAttempts := s.rt.initialAttempts + 1, placingInitial := true),
      now, refused);
  }

  lemma EndedOwes(s: State, rt: Runtime)
    requires s.stack != [] && Top(s).Ticking?
    requires rt == s.rt.(submitted := rt.submitted, terminal := rt.terminal)
    ensures Owing(Pop(s.(rt := rt))) <= Owing(s)
  {
    hide Waiting, Below;
    WaitingTop(s);
    WaitingBelow(Below(s.stack));
  }

  lemma FinishInitialOwes(s: State, answers: seq<Answer>)
    requires s.stack != [] && Top(s).PlacingInitial?
    ensures Owing(FinishInitial(s, answers)) <= Owing(s)
  {
    hide Waiting, Below, AllAccepted, PermanentlyRefused, Opposing;
    PoppedOwes(s);
    WaitingTop(s);
    WaitingPush(Below(s.stack), UndoInitial(s.broker.pending.Keys, None, PermanentlyRefused(answers)));
    if s.rt.deferred.Some? {
      var side := s.rt.deferred.value;
      WaitingPush(Below(s.stack), Beginning(side, Opposing(s.broker, side)));
    }
  }

  lemma FinishReversalOwes(s: State, answers: seq<Answer>)
    requires s.stack != [] && Top(s).PlacingReversal? && s.rt.placingReversal
    ensures Owing(FinishReversal(s, answers)) <= Owing(s)
  {
    hide Waiting, Below, AllAccepted, PermanentlyRefused, Ids;
    WaitingTop(s);
    WaitingPush(Below(s.stack), UndoReversal(Ids(s.broker.pending, Reversal), None, PermanentlyRefused(answers)));
  }

  lemma EndUndoOwes(job: Job, s: State, permanent: bool)
    requires s.stack != []
    ensures Top(s).UndoInitial? ==> Owing(EndUndoInitial(job, s, permanent)) <= Owing(s)
    ensures Top(s).UndoReversal? ==> Owing(EndUndoReversal(job, s, permanent)) <= Owing(s)
  {
    hide Waiting, Below, Exposed;
    WaitingTop(s);
    WaitingBelow(Below(s.stack));
  }

  lemma ContinueOwes(job: Job, s: State)
    requires Counted(s) && s.stack != []
    ensures Owing(Continue(job, s, Top(s))) <= Owing(s)
  {
    hide Owing, Counted, Retry, TryPlace, SubmitOrSkip, FinishInitial, FinishReversal, EndUndoInitial,
      EndUndoReversal, Ids;
    match Top(s)
    case Ticking(stage, now, refused) =>
      RetryOwes(job, s, now, refused);
      SubmitOwes(job, s, now, refused);
      PoppedOwes(s);
    case PlacingInitial(answers) => FinishInitialOwes(s, answers);
    case PlacingReversal(_, answers) =>
      PlacingFlags(s);
      FinishReversalOwes(s, answers);
    case Beginning(side, cancels) =>
      PoppedOwes(s);
      if !s.rt.placingReversal { BeginningOwes(job, s, side); }
    case UndoInitial(cancels, closes, permanent) =>
      ReplacedOwes(s, UndoInitial({}, Some(s.broker.open.Keys), permanent));
      EndUndoOwes(job, s, permanent);
    case UndoReversal(cancels, closes, permanent) =>
      ReplacedOwes(s, UndoReversal({}, Some(Ids(s.broker.open, Reversal)), permanent));
      EndUndoOwes(job, s, permanent);
  }

  lemma PlacingFlags(s: State)
    requires Counted(s) && s.stack != []
    ensures Top(s).PlacingInitial? ==> s.rt.placingInitial
    ensures Top(s).PlacingReversal? ==> s.rt.placingReversal
  {
    TopFacts(s);
  }

  lemma OwesFrame(s: State, t: State)
    requires s.stack == t.stack && s.rt.(deferred := t.rt.deferred, terminal := t.rt.terminal) == t.rt
    ensures Owing(s) == Owing(t)
  {
  }

  // An answer, a cancel or a close leaves a handler of the same kind.
  lemma AnswerOwes(s: State, answer: Answer)
    requires s.stack != []
    ensures Owing(OnAnswer(s, Top(s), answer)) <= Owing(s)
  {
    hide Owing, Below, InitialLabel, Asked;
    var t := s.(broker := OnAnswer(s, Top(s), answer).broker);
    OwesFrame(s, t);
    match Top(s)
    case PlacingInitial(answers) => ReplacedOwes(t, PlacingInitial(answers + [answer]));
    case PlacingReversal(side, answers) => ReplacedOwes(t, PlacingReversal(side, answers + [answer]));
    case _ =>
  }

  lemma UndoneOwes(s: State, id: nat, ok: bool)
    requires s.stack != []
    ensures Owing(OnCancelled(s, Top(s), id, ok)) <= Owing(s) && Owing(OnClosed(s, Top(s), id, ok)) <= Owing(s)
  {
    hide Owing, Below;
    var cancelled := if ok then s.(broker := s.broker.(pending := s.broker.pending - {id})) else s;
    var closed := if ok then s.(broker := s.broker.(open := s.broker.open - {id})) else s;
    OwesFrame(s, cancelled);
    OwesFrame(s, closed);
    match Top(s)
    case Beginning(side, cancels) => ReplacedOwes(cancelled, Beginning(side, cancels - {id}));
    case UndoInitial(cancels, closes, permanent) =>
      ReplacedOwes(cancelled, UndoInitial(cancels - {id}, None, permanent));
      if closes.Some? { ReplacedOwes(closed, UndoInitial(cancels, Some(closes.value - {id}), permanent)); }
    case UndoReversal(cancels, closes, permanent) =>
      ReplacedOwes(cancelled, UndoReversal(cancels - {id}, None, permanent));
      if closes.Some? { ReplacedOwes(closed, UndoReversal(cancels, Some(closes.value - {id}), permanent)); }
    case _ =>
  }

  lemma DeliveredOwes(job: Job, s: State, id: nat)
    requires id in s.broker.undelivered
    ensures Owing(Do(job, s, Deliver(id))) <= Owing(s) + Interrupted(job, s, Deliver(id))
  {
    hide Owing, Opposing;
    var l := s.broker.undelivered[id];
    var told := s.(broker := s.broker.(undelivered := s.broker.undelivered - {id}));
    var noted := told.(rt := s.rt.(deferred := Some(l.side)));
    OwesFrame(s, told);
    OwesFrame(s, noted);
    if !s.rt.placed && !s.rt.failed { StartedOwes(noted, Beginning(l.side, Opposing(noted.broker, l.side))); }
  }

  // Every interruption pays for at most one attempt.
  lemma StepOwes(job: Job, s: State, a: Action)
    requires Counted(s)
    ensures Owing(Do(job, s, a)) <= Owing(s) + Interrupted(job, s, a)
  {
    hide Owing, Counted, Continue, OnAnswer, OnCancelled, OnClosed, OnFilled, Busy, Moved;
    if s.stack != [] { ContinueOwes(job, s); }
    match a
    case Tick(_, refused) => StartedOwes(s, Ticking(0, s.now, refused));
    case Deliver(id) => if id in s.broker.undelivered { DeliveredOwes(job, s, id); }
    case Answered(answer) => if s.stack != [] { AnswerOwes(s, answer); }
    case Cancelled(id, ok) => if s.stack != [] { UndoneOwes(s, id, ok); }
    case ClosedOut(id, ok) => if s.stack != [] { UndoneOwes(s, id, ok); }
    case Proceed =>
    case _ => OwesFrame(s, Do(job, s, a));
  }

  // At most three reversal attempts, and one more for each handler that starts while another cancels or closes orders.
  lemma {:induction false} AttemptsBounded(job: Job, now: int, acts: seq<Action>)
    ensures var s := Run(job, Fresh(now), acts);
            var extra := Interruptions(job, Fresh(now), acts);
            && Counted(s) && Owing(s) <= MAX_ATTEMPTS + extra
            && s.rt.initialAttempts <= MAX_ATTEMPTS && s.rt.reversalAttempts <= MAX_ATTEMPTS + extra
            && s.broker.sent <= 27 + 3 * extra
  {
    hide Do, Balanced, Total, Waiting;
    OrdersCounted(job, now, acts);
    if acts == [] {
      WaitingEmpty();
    } else {
      AttemptsBounded(job, now, acts[..|acts| - 1]);
      StepOwes(job, Run(job, Fresh(now), acts[..|acts| - 1]), acts[|acts| - 1]);
    }
  }
}
