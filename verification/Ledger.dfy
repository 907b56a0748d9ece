/** The MT5 agent's write-ahead ledger file. */
module LedgerFile {
  class Ledger {
    var lines: seq<string>

    constructor ()
      ensures lines == []
    {
      lines := [];
    }

    method Contains(id: string) returns (found: bool)
      ensures found <==> id in lines
    {
      for i := 0 to |lines|
        invariant id !in lines[..i]
      {
        if lines[i] == id { return true; }
      }
      return false;
    }

    // False when the file cannot be opened; nothing is written then.
    method Append(id: string, openable: bool) returns (written: bool)
      modifies this
      ensures written == openable
      ensures lines == if openable then old(lines) + [id] else old(lines)
    {
      if !openable { return false; }
      lines := lines + [id];
      return true;
    }
  }
}

/**
 * The MT5 agent as a machine whose steps lie between any two durable effects, so that a crash may come between them.
 * A crash loses the job table and whatever handler was running; the ledger file and the broker keep what they have.
 */
module Mt5Agent {
  datatype Mode = Market | Straddle | Multi

  datatype JobState = Synced | Armed | Submitted | Final

  datatype Entry = Entry(mode: Mode, state: JobState, levels: nat)

  datatype Leg = Whole | Buy | Sell | BuyLevel(level: nat) | SellLevel(level: nat)

  datatype Send = Send(id: string, leg: Leg, accepted: bool)

  // Where the running handler stands.
  datatype Pc =
    | Idle
    | Preflight(id: string)
    | Checked(id: string)
    | Logged(id: string)
    | Sending(id: string, plan: seq<Leg>, tries: nat)

  datatype State = State(jobs: map<string, Entry>, ledger: set<string>, sends: seq<Send>, pc: Pc)

  datatype Action =
    | PollJob(pid: string, mode: Mode, levels: nat)    // a JOB2 or JOB3 record
    | PollCancel(cid: string)
    | Timer(tid: string, stays: bool)                  // ProcessJobs reaches the job in time; what recovery would find
    | Missed(mid: string)
    | Expire(eid: string)
    | Deal(did: string)                                // a trade transaction finishes a MARKET job
    | Refuse                                           // preflight or OrderCheck fails
    | Accept
    | Append(ok: bool)
    | MarkSubmitted
    | OrderSend(accepted: bool, done: bool)
    | Crash

  const MAX_TRIES: nat := 2

  function LevelLegs(level: nat, levels: nat): seq<Leg>
    decreases levels - level
  {
    if level >= levels then [] else [BuyLevel(level), SellLevel(level)] + LevelLegs(level + 1, levels)
  }

  function Legs(e: Entry): seq<Leg> {
    match e.mode
    case Market => [Whole]
    case Straddle => [Buy, Sell]
    case Multi => LevelLegs(0, e.levels)
  }

  function SetState(s: State, id: string, st: JobState): State {
    if id in s.jobs then s.(jobs := s.jobs[id := s.jobs[id].(state := st)]) else s
  }

  function Finish(s: State, id: string): State {
    SetState(s, id, Final).(pc := Idle)
  }

  // A record for a known job keeps its state; a JOB3 record for a known job changes nothing.
  function Poll(s: State, id: string, mode: Mode, levels: nat): State {
    if id !in s.jobs then s.(jobs := s.jobs[id := Entry(mode, Synced, levels)])
    else if mode == Multi then s
    else s.(jobs := s.jobs[id := s.jobs[id].(mode := mode)])
  }

  // Arming: a job already in the ledger is only recovered, and recovery never sends an entry order.
  function Arm(s: State, id: string, stays: bool): State
    requires id in s.jobs
  {
    if id in s.ledger then SetState(s, id, if s.jobs[id].mode == Straddle && stays then Submitted else Final)
    else
      var armed := SetState(s, id, Armed);
      if s.jobs[id].mode == Market then armed else armed.(pc := Preflight(id))
  }

  function AfterSend(s: State, accepted: bool, done: bool): State
    requires s.pc.Sending? && s.pc.plan != []
  {
    var id, leg, rest := s.pc.id, s.pc.plan[0], s.pc.plan[1..];
    var sent := s.(sends := s.sends + [Send(id, leg, accepted)]);
    if leg == Whole then
      if !accepted || done then Finish(sent, id) else sent.(pc := Idle)
    else if leg == Buy || leg == Sell then
      if !accepted then Finish(sent, id) else if rest == [] then sent.(pc := Idle)
          else sent.(pc := Sending(id, rest, MAX_TRIES))
    else if !accepted && s.pc.tries > 1 then sent.(pc := Sending(id, s.pc.plan, s.pc.tries - 1))
    else if rest == [] then sent.(pc := Idle)
    else sent.(pc := Sending(id, rest, MAX_TRIES))
  }

  function Do(s: State, a: Action): State {
    match a
    case Crash => s.(jobs := map[], pc := Idle)
    case PollJob(id, mode, levels) => if s.pc.Idle? then Poll(s, id, mode, levels) else s
    case PollCancel(id) =>
      if s.pc.Idle? && id in s.jobs && s.jobs[id].state in {Synced, Armed} then SetState(s, id, Final) else s
    case Timer(id, stays) =>
      if !s.pc.Idle? || id !in s.jobs then s
      else if s.jobs[id].state == Synced then Arm(s, id, stays)
      else if s.jobs[id].state == Armed && s.jobs[id].mode == Market then s.(pc := Preflight(id))
      else s
    case Missed(id) =>
      if s.pc.Idle? && id in s.jobs && s.jobs[id].state == Armed
          && s.jobs[id].mode == Market then SetState(s, id, Final) else s
    case Expire(id) =>
      if s.pc.Idle? && id in s.jobs && s.jobs[id].state == Submitted
          && s.jobs[id].mode != Market then SetState(s, id, Final) else s
    case Deal(id) => if id in s.jobs && s.jobs[id].mode == Market then SetState(s, id, Final) else s
    case Refuse => if s.pc.Preflight? then Finish(s, s.pc.id) else s
    case Accept => if s.pc.Preflight? then s.(pc := Checked(s.pc.id)) else s
    case Append(ok) =>
      if !s.pc.Checked? then s
      else if ok then s.(ledger := s.ledger + {s.pc.id}, pc := Logged(s.pc.id))
      else Finish(s, s.pc.id)
    case MarkSubmitted =>
      if s.pc.Logged? && s.pc.id in s.jobs
      then var t := SetState(s, s.pc.id, Submitted); t.(pc := Sending(s.pc.id, Legs(s.jobs[s.pc.id]), MAX_TRIES))
      else s
    case OrderSend(accepted, done) =>
      if s.pc.Sending? then (if s.pc.plan == [] then s.(pc := Idle) else AfterSend(s, accepted, done)) else s
  }

  function Run(s: State, actions: seq<Action>): State {
    if actions == [] then s else Do(Run(s, actions[..|actions| - 1]), actions[|actions| - 1])
  }

  // A fresh start: nothing in memory, nothing sent, any ledger left by earlier sessions.
  function Start(ledger: set<string>): State {
    State(map[], ledger, [], Idle)
  }

  function Count(sends: seq<Send>, id: string, leg: Leg): nat {
    if sends == [] then 0 else
    var last := sends[|sends| - 1];
    Count(sends[..|sends| - 1], id, leg) + (if last.id == id && last.leg == leg then 1 else 0)
  }

  function CountAccepted(sends: seq<Send>, id: string, leg: Leg): nat {
    if sends == [] then 0 else
    var last := sends[|sends| - 1];
    CountAccepted(sends[..|sends| - 1], id, leg) + (if last == Send(id, leg, true) then 1 else 0)
  }

  predicate OneShot(leg: Leg) {
    leg == Whole || leg == Buy || leg == Sell
  }

  ghost predicate Distinct(plan: seq<Leg>) {
    forall i, j :: 0 <= i < j < |plan| ==> plan[i] != plan[j]
  }

  ghost predicate SentOnlyLogged(s: State) {
    forall x :: x in s.sends ==> x.id in s.ledger
  }

  ghost predicate ArmedNotLogged(s: State) {
    forall id :: id in s.jobs && s.jobs[id].state == Armed && id in s.ledger ==> s.pc == Logged(id)
  }

  ghost predicate Untouched(s: State, id: string) {
    forall leg :: Count(s.sends, id, leg) == 0 && CountAccepted(s.sends, id, leg) == 0
  }

  // What is still planned has not been accepted yet, and only a level order being retried has been sent before.
  ghost predicate PlanOpen(s: State, id: string, plan: seq<Leg>, tries: nat) {
    && Distinct(plan) && 1 <= tries <= MAX_TRIES
    && (forall i :: 0 <= i < |plan| ==>
        && CountAccepted(s.sends, id, plan[i]) == 0
        && Count(s.sends, id, plan[i]) == (if i == 0 && !OneShot(plan[i]) then MAX_TRIES - tries else 0))
  }

  ghost predicate PcOk(s: State) {
    match s.pc
    case Idle => true
    case Preflight(id) => id !in s.ledger && id in s.jobs
    case Checked(id) => id !in s.ledger && id in s.jobs
    case Logged(id) => Untouched(s, id) && id in s.jobs && id in s.ledger
    case Sending(id, plan, tries) => PlanOpen(s, id, plan, tries) && id in s.ledger
  }

  // At most one order for a whole job or a straddle side; at most two tries and one success for a MULTI level.
  ghost predicate NoDuplicate(s: State) {
    forall id, leg :: Count(s.sends, id, leg) <= (if OneShot(leg) then 1 else MAX_TRIES)
        && CountAccepted(s.sends, id, leg) <= 1
  }

  ghost predicate Inv(s: State) {
    SentOnlyLogged(s) && ArmedNotLogged(s) && PcOk(s) && NoDuplicate(s)
  }

  lemma {:induction false} UnsentCount(sends: seq<Send>, id: string)
    requires forall x :: x in sends ==> x.id != id
    ensures forall leg :: Count(sends, id, leg) == 0 && CountAccepted(sends, id, leg) == 0
  {
    if sends != [] {
      UnsentCount(sends[..|sends| - 1], id);
    }
  }

  lemma {:induction false} LevelLegsDistinct(level: nat, levels: nat)
    ensures Distinct(LevelLegs(level, levels))
    ensures forall i :: 0 <= i < |LevelLegs(level, levels)| ==>
              var leg := LevelLegs(level, levels)[i];
              (leg.BuyLevel? || leg.SellLevel?) && leg.level >= level
    decreases levels - level
  {
    if level < levels {
      LevelLegsDistinct(level + 1, levels);
    }
  }

  lemma CountPush(sends: seq<Send>, x: Send, id: string, leg: Leg)
    ensures Count(sends + [x], id, leg) == Count(sends, id, leg) + (if x.id == id && x.leg == leg then 1 else 0)
    ensures CountAccepted(sends + [x], id, leg) == CountAccepted(sends, id, leg)
              + (if x == Send(id, leg, true) then 1 else 0)
  {
    assert (sends + [x])[..|sends|] == sends;
  }

  lemma SendKeeps(s: State, accepted: bool, done: bool)
    requires Inv(s) && s.pc.Sending? && s.pc.plan != []
    ensures Inv(AfterSend(s, accepted, done))
  {
    hide Count, CountAccepted;
    var id, plan := s.pc.id, s.pc.plan;
    var x := Send(id, plan[0], accepted);
    var t := AfterSend(s, accepted, done);
    forall i, leg
      ensures Count(t.sends, i, leg) == Count(s.sends, i, leg) + (if x.id == i && x.leg == leg then 1 else 0)
      ensures CountAccepted(t.sends, i, leg) == CountAccepted(s.sends, i, leg)
                + (if x == Send(i, leg, true) then 1 else 0)
    {
      CountPush(s.sends, x, i, leg);
    }
  }

  lemma StepKeeps(s: State, a: Action)
    requires Inv(s)
    ensures Inv(Do(s, a))
  {
    hide Count, CountAccepted;
    match a
    case OrderSend(accepted, done) =>
      if s.pc.Sending? && s.pc.plan != [] { SendKeeps(s, accepted, done); }
    case Append(ok) =>
      if s.pc.Checked? { UnsentCount(s.sends, s.pc.id); }
    case MarkSubmitted =>
      if s.pc.Logged? { LevelLegsDistinct(0, s.jobs[s.pc.id].levels); }
    case _ =>
  }

  lemma {:induction false} RunKeeps(ledger: set<string>, actions: seq<Action>)
    ensures Inv(Run(Start(ledger), actions))
  {
    if actions != [] {
      RunKeeps(ledger, actions[..|actions| - 1]);
      StepKeeps(Run(Start(ledger), actions[..|actions| - 1]), actions[|actions| - 1]);
    }
  }

  // Any run of polls, timer ticks, trade events and crashes, each crash between any two effects.
  lemma AtMostOneEntry(ledger: set<string>, actions: seq<Action>, id: string)
    ensures var sends := Run(Start(ledger), actions).sends;
            && Count(sends, id, Whole) <= 1 && Count(sends, id, Buy) <= 1 && Count(sends, id, Sell) <= 1
            && (forall k :: CountAccepted(sends, id, BuyLevel(k)) <= 1 && CountAccepted(sends, id, SellLevel(k)) <= 1)
            && (forall k :: Count(sends, id, BuyLevel(k)) <= 2 && Count(sends, id, SellLevel(k)) <= 2)
  {
    hide Count, CountAccepted, Run;
    RunKeeps(ledger, actions);
  }

  // The price of writing ahead: once a job is in the ledger and its handler is gone, nothing is ever sent for it again,
  // also when the crash came before the first order.
  ghost predicate Frozen(s: State, id: string, before: seq<Send>) {
    && Inv(s) && id in s.ledger && s.pc != Logged(id) && !(s.pc.Sending? && s.pc.id == id)
    && (forall leg :: Count(s.sends, id, leg) == Count(before, id, leg))
  }

  lemma {:induction false} FrozenForever(s: State, actions: seq<Action>, id: string)
    requires Frozen(s, id, s.sends)
    ensures Frozen(Run(s, actions), id, s.sends)
  {
    if actions != [] {
      FrozenForever(s, actions[..|actions| - 1], id);
      FrozenStep(Run(s, actions[..|actions| - 1]), actions[|actions| - 1], id, s.sends);
    }
  }

  lemma FrozenStep(s: State, a: Action, id: string, before: seq<Send>)
    requires Frozen(s, id, before)
    ensures Frozen(Do(s, a), id, before)
  {
    hide Count, CountAccepted;
    StepKeeps(s, a);
    if a.OrderSend? && s.pc.Sending? && s.pc.plan != [] {
      forall leg ensures Count(Do(s, a).sends, id, leg) == Count(s.sends, id, leg) {
        CountPush(s.sends, Send(s.pc.id, s.pc.plan[0], a.accepted), id, leg);
      }
    }
  }

  // A crash right after the ledger write loses the trade for good.
  lemma CrashAfterLogging(ledger: set<string>, actions: seq<Action>, id: string, later: seq<Action>, leg: Leg)
    requires Run(Start(ledger), actions).pc == Logged(id)
    ensures Count(Run(Do(Run(Start(ledger), actions), Crash), later).sends, id, leg) == 0
  {
    hide Count, CountAccepted, Run;
    RunKeeps(ledger, actions);
    var s := Run(Start(ledger), actions);
    StepKeeps(s, Crash);
    FrozenForever(Do(s, Crash), later, id);
  }
}
