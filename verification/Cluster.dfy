/**
 * The cTrader workers: any number of processes that claim jobs from one database by compare-and-set, hold them under
 * leases and submit orders to one broker. Every step lies between two awaits, so actions interleave freely.
 */
module WorkerCluster {
  import opened Basics
  import opened TradeJobState

  datatype Mode = Market | Straddle | Multi | NewsReversal

  // The suffix of the label of an initial order.
  datatype Leg = M | B | S | Bn(level: nat) | Sn(level: nat) | ReversalB(target: nat) | ReversalS(target: nat)

  datatype Row = Row(user: nat, mode: Mode, perSide: nat, status: Status, owner: Option<nat>, lease: Option<int>)

  // What one worker is doing with one job. Everything but Claiming is in runtimes or startingJobs; the lost connection
  // of a job is noticed by a handler only while the job is in runtimes, from Placing or Recovering on.
  datatype Phase =
    | Claiming(seen: Status)    // the claim has landed, the job is not yet in startingJobs
    | Starting(seen: Status)    // start() before reconciliation; the status is the polled one
    | Fresh                     // no exposure found, position limit not yet checked
    | Placing(plan: seq<Leg>)   // orders still to submit
    | Recovering                // exposure found and runtime registered, start() still reading it
    | Running
    | Ending                    // the runtime is gone or start() has failed, and start() is about to settle

  type Key = (nat, nat)  // worker, job

  datatype Label = Label(job: nat, leg: Leg)

  datatype State = State(
    clock: int, rows: seq<Row>, holds: map<Key, Phase>, live: multiset<Label>, passed: set<nat>, limit: nat,
    leaseMs: int)

  datatype Action =
    | Advance(ms: nat)
    | Claim(w: nat, j: nat, seen: Status, now: int)      // from a poll made at `now`, which may be long ago
    | Enroll(w: nat, j: nat)                             // startingJobs.add
    | Reconcile(w: nat, j: nat)
    | CheckLimit(w: nat, j: nat, unmanaged: nat)
    | Place(w: nat, j: nat)
    | StartDone(w: nat, j: nat)
    | Lose(w: nat, j: nat, settled: bool)                // disconnect, failure or finish; settled: start() is over
    | Settle(w: nat, j: nat)
    | Crash(w: nat)
    | Renew(w: nat, j: nat, called: int)                 // the write of a renewal called earlier
    | Release(w: nat, j: nat, called: int)
    | Gone(entry: Label)                                 // the broker closes, cancels or expires an entry
    | Advanced(j: nat, to: Status)                       // SUBMITTED, PARTIALLY_FILLED, FILLED, MANAGED
    | Terminate(j: nat, to: Status, clearLease: bool)

  predicate Active(s: Status) {
    s in {Armed, Submitted, Filled, PartiallyFilled, Managed}
  }

  function LevelLegs(level: nat, levels: nat): seq<Leg>
    decreases levels - level
  {
    if level >= levels then [] else [Bn(level), Sn(level)] + LevelLegs(level + 1, levels)
  }

  function InitialLegs(r: Row): seq<Leg> {
    match r.mode
    case Market => [M]
    case Straddle => [B, S]
    case Multi => LevelLegs(0, r.perSide)
    case NewsReversal =>
      [ReversalB(1), ReversalB(2), ReversalB(3), ReversalS(1), ReversalS(2), ReversalS(3)]
  }

  function PlannedPositions(r: Row): nat {
    match r.mode
    case Multi => 2 * r.perSide
    case NewsReversal => 6
    case _ => 1
  }

  // The planned positions of a user's active jobs among the first k rows, one job left out.
  function ActivePlanned(rows: seq<Row>, user: nat, except: nat, k: nat): nat
    requires k <= |rows|
  {
    if k == 0 then 0 else
    var r := rows[k - 1];
    ActivePlanned(rows, user, except, k - 1)
    + (if r.user == user && Active(r.status) && k - 1 != except then PlannedPositions(r) else 0)
  }

  predicate Exposed(live: multiset<Label>, j: nat) {
    exists entry :: entry in live && entry.job == j
  }

  function SetRow(s: State, j: nat, r: Row): State
    requires j < |s.rows|
  {
    s.(rows := s.rows[j := r])
  }

  function SetPhase(s: State, w: nat, j: nat, p: Phase): State {
    s.(holds := s.holds[(w, j) := p])
  }

  function Drop(s: State, w: nat, j: nat): State {
    s.(holds := s.holds - {(w, j)})
  }

  predicate At(s: State, w: nat, j: nat) {
    j < |s.rows| && (w, j) in s.holds
  }

  // updateMany with its where clause: the claim succeeds only on the polled status and, for an active job, a lapsed
  // lease.
  predicate ClaimMatches(r: Row, seen: Status, now: int) {
    && r.status == seen
    && (seen == Scheduled || (Active(seen) && (r.lease.None? || r.lease.value <= now)))
  }

  function DoClaim(s: State, w: nat, j: nat, seen: Status, now: int): State {
    if j < |s.rows| && (w, j) !in s.holds && now <= s.clock && ClaimMatches(s.rows[j], seen, now) then
      var r := s.rows[j].(owner := Some(w), lease := Some(now + s.leaseMs),
        status := if seen == Scheduled then Armed else seen);
      SetPhase(SetRow(s, j, r), w, j, Claiming(seen))
    else s
  }

  function DoReconcile(s: State, w: nat, j: nat): State
    requires At(s, w, j) && s.holds[(w, j)].Starting?
  {
    var seen := s.holds[(w, j)].seen;
    if Exposed(s.live, j) then SetPhase(s, w, j, Recovering)
    else if seen in {Filled, PartiallyFilled, Managed} then
      var r := s.rows[j];
      var closed := if r.status in {Filled, PartiallyFilled, Managed} then SetRow(s, j, r.(status := Closed)) else s;
      SetPhase(closed, w, j, Ending)
    else if seen in {Scheduled, Armed} then SetPhase(s, w, j, Fresh)
    else SetPhase(s, w, j, Ending)
  }

  function DoCheck(s: State, w: nat, j: nat, unmanaged: nat): State
    requires At(s, w, j)
  {
    var r := s.rows[j];
    if unmanaged + PlannedPositions(r) + ActivePlanned(s.rows, r.user, j, |s.rows|) > s.limit
    then SetPhase(s, w, j, Ending)
    else SetPhase(s, w, j, Placing(InitialLegs(r))).(passed := s.passed + {j})
  }

  // A failed claim report or a failed start leaves nothing behind. A connection lost while start() is still under way
  // with a registered runtime removes the runtime at once, but the job stays in startingJobs.
  function DoLose(s: State, w: nat, j: nat, settled: bool): State
    requires At(s, w, j)
  {
    if settled then Drop(s, w, j)
    else if s.holds[(w, j)].Placing? || s.holds[(w, j)].Recovering? then SetPhase(s, w, j, Ending)
    else s
  }

  function Do(s: State, a: Action): State {
    match a
    case Advance(ms) => s.(clock := s.clock + ms)
    case Claim(w, j, seen, now) => DoClaim(s, w, j, seen, now)
    case Enroll(w, j) =>
      if At(s, w, j) && s.holds[(w, j)].Claiming? then SetPhase(s, w, j, Starting(s.holds[(w, j)].seen)) else s
    case Reconcile(w, j) => if At(s, w, j) && s.holds[(w, j)].Starting? then DoReconcile(s, w, j) else s
    case CheckLimit(w, j, unmanaged) => if At(s, w, j) && s.holds[(w, j)].Fresh? then DoCheck(s, w, j, unmanaged) else s
    case Place(w, j) =>
      if At(s, w, j) && s.holds[(w, j)].Placing? && s.holds[(w, j)].plan != [] then
        var plan := s.holds[(w, j)].plan;
        SetPhase(s, w, j, Placing(plan[1..])).(live := s.live + multiset{Label(j, plan[0])})
      else s
    case StartDone(w, j) =>
      if At(s, w, j) && (s.holds[(w, j)] == Placing([]) || s.holds[(w, j)].Recovering?)
      then SetPhase(s, w, j, Running) else s
    case Lose(w, j, settled) => if At(s, w, j) then DoLose(s, w, j, settled) else s
    case Settle(w, j) => if At(s, w, j) && s.holds[(w, j)].Ending? then Drop(s, w, j) else s
    case Crash(w) => s.(holds := map k | k in s.holds && k.0 != w :: s.holds[k])
    case Renew(w, j, called) =>
      if j < |s.rows| && s.rows[j].owner == Some(w) && Active(s.rows[j].status)
      then SetRow(s, j, s.rows[j].(lease := Some(called + s.leaseMs))) else s
    case Release(w, j, called) =>
      if j < |s.rows| && s.rows[j].owner == Some(w) && Active(s.rows[j].status)
      then SetRow(s, j, s.rows[j].(owner := None, lease := Some(called + 5_000))) else s
    case Gone(entry) => s.(live := s.live - multiset{entry})
    case Advanced(j, to) =>
      if j < |s.rows| && Active(s.rows[j].status) && Active(to) then SetRow(s, j, s.rows[j].(status := to)) else s
    case Terminate(j, to, clearLease) =>
      if j < |s.rows| && Terminal(to) then
        var r := s.rows[j].(status := to);
        SetRow(s, j, if clearLease then r.(owner := None, lease := None) else r)
      else s
  }

  function Run(s: State, actions: seq<Action>): State {
    if actions == [] then s else Do(Run(s, actions[..|actions| - 1]), actions[|actions| - 1])
  }

  // The timing assumption: whoever still works on an active job has an unexpired lease on it.
  ghost predicate Timely(s: State) {
    forall k :: k in s.holds && k.1 < |s.rows| && Active(s.rows[k.1].status) ==>
      s.rows[k.1].lease.Some? && s.clock < s.rows[k.1].lease.value
  }

  ghost predicate TimelyRun(s: State, actions: seq<Action>) {
    Timely(s) && (actions != [] ==> TimelyRun(s, actions[..|actions| - 1]) && Timely(Run(s, actions)))
  }

  ghost predicate Start(s: State) {
    && s.holds == map[] && s.live == multiset{} && s.passed == {}
    && (forall j :: 0 <= j < |s.rows| ==> s.rows[j].status == Scheduled)
  }
}

/** No job is worked on by two workers. */
module LeaseExclusion {
  import opened Basics
  import opened TradeJobState
  import opened WorkerCluster

  ghost predicate Exclusive(s: State) {
    forall k, l :: k in s.holds && l in s.holds && k.1 == l.1 ==> k.0 == l.0
  }

  ghost predicate HeldClaimed(s: State) {
    forall k :: k in s.holds ==> k.1 < |s.rows| && (Active(s.rows[k.1].status) || Terminal(s.rows[k.1].status))
  }

  // The row's owner is the worker that holds the job, or nobody.
  ghost predicate OwnedByHolder(s: State) {
    forall k :: k in s.holds && k.1 < |s.rows| && Active(s.rows[k.1].status) ==>
      s.rows[k.1].owner == Some(k.0) || s.rows[k.1].owner == None
  }

  lemma HeldStep(s: State, a: Action)
    requires HeldClaimed(s)
    ensures HeldClaimed(Do(s, a))
  {
    hide ActivePlanned, PlannedPositions, InitialLegs, Exposed;
  }

  lemma ExclusiveStep(s: State, a: Action)
    requires HeldClaimed(s) && Timely(s) && Exclusive(s)
    ensures Exclusive(Do(s, a))
  {
    hide ActivePlanned, PlannedPositions, InitialLegs, Exposed;
  }

  lemma OwnedStep(s: State, a: Action)
    requires HeldClaimed(s) && Timely(s) && Exclusive(s) && OwnedByHolder(s)
    ensures OwnedByHolder(Do(s, a))
  {
    hide ActivePlanned, PlannedPositions, InitialLegs, Exposed;
  }

  lemma {:induction false} OneHolder(s: State, actions: seq<Action>)
    requires Start(s) && TimelyRun(s, actions)
    ensures Exclusive(Run(s, actions)) && OwnedByHolder(Run(s, actions)) && HeldClaimed(Run(s, actions))
  {
    hide Do;
    if actions != [] {
      var most, last := actions[..|actions| - 1], actions[|actions| - 1];
      OneHolder(s, most);
      TimelyEnd(s, most);
      HeldStep(Run(s, most), last);
      ExclusiveStep(Run(s, most), last);
      OwnedStep(Run(s, most), last);
    }
  }

  lemma TimelyEnd(s: State, actions: seq<Action>)
    requires TimelyRun(s, actions)
    ensures Timely(Run(s, actions))
  {
  }

  // Owner, expiry or both of a row change only by a claim of a lapsed lease, by the owner, or when the job ends.
  lemma LeaseIsFenced(s: State, a: Action, j: nat)
    requires j < |s.rows|
    requires Do(s, a).rows[j].owner != s.rows[j].owner || Do(s, a).rows[j].lease != s.rows[j].lease
    ensures || (a.Claim? && a.j == j && ClaimMatches(s.rows[j], a.seen, a.now) && a.now <= s.clock)
            || (a.Renew? && a.j == j && s.rows[j].owner == Some(a.w))
            || (a.Release? && a.j == j && s.rows[j].owner == Some(a.w))
            || (a.Terminate? && a.j == j)
  {
  }

  predicate ClaimLands(s: State, a: Action) {
    a.Claim? && a.j < |s.rows| && (a.w, a.j) !in s.holds && a.now <= s.clock && ClaimMatches(s.rows[a.j], a.seen, a.now)
  }

  ghost predicate HeldByAnother(s: State, w: nat, j: nat) {
    exists k :: k in s.holds && k.1 == j && k.0 != w
  }

  // The only step that ever creates a second holder, and exactly when it does.
  lemma SecondHolderExactly(s: State, a: Action)
    requires HeldClaimed(s) && Exclusive(s)
    ensures !Exclusive(Do(s, a)) <==>
            && ClaimLands(s, a) && HeldByAnother(s, a.w, a.j)
            && (s.rows[a.j].lease.None? || s.rows[a.j].lease.value <= a.now)
  {
    if ClaimLands(s, a) && HeldByAnother(s, a.w, a.j) {
      var k :| k in s.holds && k.1 == a.j && k.0 != a.w;
      var t := Do(s, a);
      assert k in t.holds && (a.w, a.j) in t.holds;
    }
  }

  // A job claimed by worker 0 and put into startingJobs.
  function Begun(s: State): State
    requires |s.rows| > 0
  {
    var r := s.rows[0].(owner := Some(0), lease := Some(s.clock + s.leaseMs), status := Armed);
    s.(rows := s.rows[0 := r], holds := map[(0, 0) := Starting(Scheduled)])
  }

  lemma BeginsSo(s: State)
    requires Start(s) && |s.rows| > 0
    ensures Do(Do(s, Claim(0, 0, Scheduled, s.clock)), Enroll(0, 0)) == Begun(s)
  {
  }

  // Without the timing assumption two workers hold one job: the first is silent for the length of its lease.
  lemma SilenceBreaksExclusion(s: State)
    requires Start(s) && |s.rows| > 0 && s.leaseMs > 0
    ensures var actions := [Claim(0, 0, Scheduled, s.clock), Enroll(0, 0), Advance(s.leaseMs),
                            Claim(1, 0, Armed, s.clock + s.leaseMs), Enroll(1, 0)];
            !Exclusive(Run(s, actions))
  {
    hide Do, Exclusive, Run;
    var actions := [Claim(0, 0, Scheduled, s.clock), Enroll(0, 0), Advance(s.leaseMs),
                    Claim(1, 0, Armed, s.clock + s.leaseMs), Enroll(1, 0)];
    RunFive(s, actions);
    BeginsSo(s);
    LateClaim(Begun(s), s.leaseMs);
  }

  lemma LateClaim(s: State, ms: nat)
    requires |s.rows| > 0 && s.holds.Keys == {(0, 0)} && s.rows[0].status == Armed
    requires s.rows[0].lease == Some(s.clock + ms)
    ensures var t := Do(Do(Do(s, Advance(ms)), Claim(1, 0, Armed, s.clock + ms)), Enroll(1, 0));
            !Exclusive(t)
  {
    var u := Do(Do(s, Advance(ms)), Claim(1, 0, Armed, s.clock + ms));
    assert u.holds.Keys == {(0, 0), (1, 0)} && u.holds[(1, 0)] == Claiming(Armed);
    var t := Do(u, Enroll(1, 0));
    assert (0, 0) in t.holds && (1, 0) in t.holds;
  }

  // A connection lost while start() is placing its orders gives the lease away although the job stays in startingJobs:
  // the worker can then no longer renew it.
  lemma ReleasedWhileStarting(s: State)
    requires Start(s) && |s.rows| > 0 && s.leaseMs > 0 && PlannedPositions(s.rows[0]) <= s.limit
    ensures var actions := [Claim(0, 0, Scheduled, s.clock), Enroll(0, 0), Reconcile(0, 0), CheckLimit(0, 0, 0),
                            Lose(0, 0, false), Release(0, 0, s.clock)];
            var t := Run(s, actions);
            (0, 0) in t.holds && |t.rows| > 0 && Active(t.rows[0].status) && t.rows[0].owner == None
  {
    hide Do, Run;
    var most := [Claim(0, 0, Scheduled, s.clock), Enroll(0, 0), Reconcile(0, 0), CheckLimit(0, 0, 0),
      Lose(0, 0, false)];
    RunFive(s, most);
    BeginsSo(s);
    NoneActive(Begun(s).rows, Begun(s).rows[0].user, |s.rows|);
    LostWhilePlacing(Begun(s));
    RunOneMore(s, most, Release(0, 0, s.clock));
    assert most + [Release(0, 0, s.clock)] == [Claim(0, 0, Scheduled, s.clock), Enroll(0, 0), Reconcile(0, 0),
      CheckLimit(0, 0, 0), Lose(0, 0, false), Release(0, 0, s.clock)];
  }

  lemma {:induction false} NoneActive(rows: seq<Row>, user: nat, k: nat)
    requires k <= |rows| && forall j :: 0 < j < |rows| ==> !Active(rows[j].status)
    ensures ActivePlanned(rows, user, 0, k) == 0
  {
    if k > 0 { NoneActive(rows, user, k - 1); }
  }

  lemma LostWhilePlacing(s: State)
    requires |s.rows| > 0 && s.holds == map[(0, 0) := Starting(Scheduled)] && s.live == multiset{}
    requires s.rows[0].status == Armed && s.rows[0].owner == Some(0)
    requires PlannedPositions(s.rows[0]) + ActivePlanned(s.rows, s.rows[0].user, 0, |s.rows|) <= s.limit
    ensures var t := Do(Do(Do(Do(s, Reconcile(0, 0)), CheckLimit(0, 0, 0)), Lose(0, 0, false)), Release(0, 0, s.clock));
            (0, 0) in t.holds && |t.rows| > 0 && t.rows[0].status == Armed && t.rows[0].owner == None
  {
    hide PlannedPositions, ActivePlanned, InitialLegs;
    var u := Do(s, Reconcile(0, 0));
    assert u.holds[(0, 0)] == Fresh && u.rows == s.rows;
    var v := Do(u, CheckLimit(0, 0, 0));
    assert v.holds[(0, 0)] == Placing(InitialLegs(s.rows[0])) && v.rows == s.rows;
    var x := Do(v, Lose(0, 0, false));
    assert x.holds[(0, 0)] == Ending && x.rows == s.rows;
  }

  lemma RunOneMore(s: State, most: seq<Action>, last: Action)
    ensures Run(s, most + [last]) == Do(Run(s, most), last)
  {
    assert (most + [last])[..|most|] == most;
  }

  lemma RunFive(s: State, actions: seq<Action>)
    requires |actions| == 5
    ensures Run(s, actions) == Do(Do(Do(Do(Do(s, actions[0]), actions[1]), actions[2]), actions[3]), actions[4])
  {
    hide Do;
    assert actions[..4][..3] == actions[..3] && actions[..3][..2] == actions[..2];
    assert actions[..2][..1] == actions[..1] && actions[..1][..0] == [];
    assert Run(s, actions[..1]) == Do(s, actions[0]);
    assert Run(s, actions[..2]) == Do(Run(s, actions[..1]), actions[1]);
    assert Run(s, actions[..3]) == Do(Run(s, actions[..2]), actions[2]);
    assert Run(s, actions[..4]) == Do(Run(s, actions[..3]), actions[3]);
  }
}

/** A crash between any two steps never leaves two live broker entries under one initial label. */
module CrashSafety {
  import opened Basics
  import opened TradeJobState
  import opened WorkerCluster
  import opened LeaseExclusion

  ghost predicate Distinct(plan: seq<Leg>) {
    forall i, j :: 0 <= i < j < |plan| ==> plan[i] != plan[j]
  }

  // Every live entry carries an initial label of its job, and no label is live twice.
  ghost predicate NoTwins(s: State) {
    forall entry :: entry in s.live ==>
      s.live[entry] == 1 && entry.job < |s.rows| && entry.leg in InitialLegs(s.rows[entry.job])
  }

  ghost predicate PlanFree(s: State, j: nat, plan: seq<Leg>)
    requires j < |s.rows|
  {
    && Distinct(plan)
    && (forall i :: 0 <= i < |plan| ==> Label(j, plan[i]) !in s.live && plan[i] in InitialLegs(s.rows[j]))
  }

  ghost predicate PlansFree(s: State) {
    forall k :: k in s.holds && k.1 < |s.rows| ==>
      && (s.holds[k].Fresh? ==> !Exposed(s.live, k.1))
      && (s.holds[k].Placing? ==> PlanFree(s, k.1, s.holds[k].plan))
  }

  lemma {:induction false} LevelLegsDistinct(level: nat, levels: nat)
    ensures Distinct(LevelLegs(level, levels))
    ensures forall i :: 0 <= i < |LevelLegs(level, levels)| ==>
              var leg := LevelLegs(level, levels)[i];
              (leg.Bn? || leg.Sn?) && leg.level >= level
    decreases levels - level
  {
    if level < levels {
      LevelLegsDistinct(level + 1, levels);
    }
  }

  lemma InitialLegsDistinct(r: Row)
    ensures Distinct(InitialLegs(r))
  {
    LevelLegsDistinct(0, r.perSide);
  }

  lemma PlaceKeeps(s: State, w: nat, j: nat)
    requires Exclusive(s) && NoTwins(s) && PlansFree(s)
    requires At(s, w, j) && s.holds[(w, j)].Placing? && s.holds[(w, j)].plan != []
    ensures NoTwins(Do(s, Place(w, j))) && PlansFree(Do(s, Place(w, j)))
  {
    hide InitialLegs, LevelLegs;
    var plan := s.holds[(w, j)].plan;
    var t := Do(s, Place(w, j));
    assert PlanFree(s, j, plan);
    assert plan[0] in InitialLegs(s.rows[j]) && Label(j, plan[0]) !in s.live;
    assert PlanFree(t, j, plan[1..]);
    forall k | k in t.holds && k != (w, j) && k.1 < |t.rows|
      ensures t.holds[k].Fresh? ==> !Exposed(t.live, k.1)
      ensures t.holds[k].Placing? ==> PlanFree(t, k.1, t.holds[k].plan)
    {
      assert k.1 != j by { assert k in s.holds && (w, j) in s.holds; }
      if t.holds[k].Placing? {
        assert PlanFree(s, k.1, s.holds[k].plan);
      }
    }
  }

  // From s to t no order appears and nobody starts planning.
  ghost predicate Quieter(s: State, t: State) {
    && t.live <= s.live && |t.rows| == |s.rows|
    && (forall j :: 0 <= j < |s.rows| ==> InitialLegs(t.rows[j]) == InitialLegs(s.rows[j]))
    && (forall k :: k in t.holds && (t.holds[k].Fresh? || t.holds[k].Placing?) ==>
        k in s.holds && s.holds[k] == t.holds[k])
  }

  lemma QuieterKeeps(s: State, t: State)
    requires NoTwins(s) && PlansFree(s) && Quieter(s, t)
    ensures NoTwins(t) && PlansFree(t)
  {
    hide InitialLegs;
    forall k | k in t.holds && k.1 < |t.rows| && t.holds[k].Placing?
      ensures PlanFree(t, k.1, t.holds[k].plan)
    {
      assert PlanFree(s, k.1, s.holds[k].plan);
    }
  }

  lemma LegsKept(s: State, a: Action)
    ensures |Do(s, a).rows| == |s.rows|
    ensures forall j :: 0 <= j < |s.rows| ==> InitialLegs(Do(s, a).rows[j]) == InitialLegs(s.rows[j])
  {
    ModesKept(s, a);
    hide Do, LevelLegs;
  }

  lemma ModesKept(s: State, a: Action)
    ensures |Do(s, a).rows| == |s.rows|
    ensures forall j :: 0 <= j < |s.rows| ==>
              Do(s, a).rows[j].mode == s.rows[j].mode && Do(s, a).rows[j].perSide == s.rows[j].perSide
  {
    hide ActivePlanned, InitialLegs;
  }

  lemma QuietSteps(s: State, a: Action)
    requires !a.Place? && !a.Reconcile? && !a.CheckLimit?
    ensures Quieter(s, Do(s, a))
  {
    LegsKept(s, a);
    hide InitialLegs, ActivePlanned, PlannedPositions, Exposed;
  }

  lemma ReconcileKeeps(s: State, w: nat, j: nat)
    requires NoTwins(s) && PlansFree(s) && At(s, w, j) && s.holds[(w, j)].Starting?
    ensures NoTwins(DoReconcile(s, w, j)) && PlansFree(DoReconcile(s, w, j))
  {
    hide InitialLegs;
    var t := DoReconcile(s, w, j);
    if t.holds[(w, j)].Fresh? {
      assert t == SetPhase(s, w, j, Fresh) && !Exposed(s.live, j);
      forall k | k in t.holds && k.1 < |t.rows| && t.holds[k].Placing?
        ensures PlanFree(t, k.1, t.holds[k].plan)
      {
        assert PlanFree(s, k.1, s.holds[k].plan);
      }
    } else {
      ReconcileQuiet(s, w, j);
      QuieterKeeps(s, t);
    }
  }

  lemma ReconcileQuiet(s: State, w: nat, j: nat)
    requires At(s, w, j) && s.holds[(w, j)].Starting? && !DoReconcile(s, w, j).holds[(w, j)].Fresh?
    ensures Quieter(s, DoReconcile(s, w, j))
  {
    hide LevelLegs;
  }

  lemma CheckKeepsPlans(s: State, w: nat, j: nat, unmanaged: nat)
    requires NoTwins(s) && PlansFree(s) && At(s, w, j) && s.holds[(w, j)].Fresh?
    ensures NoTwins(DoCheck(s, w, j, unmanaged)) && PlansFree(DoCheck(s, w, j, unmanaged))
  {
    hide InitialLegs, ActivePlanned;
    var t := DoCheck(s, w, j, unmanaged);
    InitialLegsDistinct(s.rows[j]);
    assert !Exposed(s.live, j) by { assert (w, j) in s.holds; }
    assert forall leg :: Label(j, leg) in s.live ==> Label(j, leg).job == j;
    assert PlanFree(t, j, InitialLegs(s.rows[j]));
    forall k | k in t.holds && k.1 < |t.rows| && t.holds[k].Placing? && k != (w, j)
      ensures PlanFree(t, k.1, t.holds[k].plan)
    {
      assert PlanFree(s, k.1, s.holds[k].plan);
    }
  }

  lemma {:induction false} NoTwinOrders(s: State, actions: seq<Action>)
    requires Start(s) && TimelyRun(s, actions)
    ensures NoTwins(Run(s, actions)) && PlansFree(Run(s, actions))
  {
    hide Do, NoTwins, PlansFree, Exclusive;
    if actions == [] {
      StartClean(s);
    } else {
      var most, last := actions[..|actions| - 1], actions[|actions| - 1];
      NoTwinOrders(s, most);
      OneHolder(s, most);
      StepKeeps(Run(s, most), last);
    }
  }

  lemma StartClean(s: State)
    requires Start(s)
    ensures NoTwins(s) && PlansFree(s)
  {
  }

  lemma StepKeeps(s: State, a: Action)
    requires Exclusive(s) && NoTwins(s) && PlansFree(s)
    ensures NoTwins(Do(s, a)) && PlansFree(Do(s, a))
  {
    hide NoTwins, PlansFree, InitialLegs, DoReconcile, DoCheck, Quieter;
    if a.Place? {
      if At(s, a.w, a.j) && s.holds[(a.w, a.j)].Placing? && s.holds[(a.w, a.j)].plan != [] {
        PlaceKeeps(s, a.w, a.j);
      }
    } else if a.Reconcile? {
      if At(s, a.w, a.j) && s.holds[(a.w, a.j)].Starting? { ReconcileKeeps(s, a.w, a.j); }
    } else if a.CheckLimit? {
      if At(s, a.w, a.j) && s.holds[(a.w, a.j)].Fresh? { CheckKeepsPlans(s, a.w, a.j, a.unmanaged); }
    } else {
      QuietSteps(s, a);
      QuieterKeeps(s, Do(s, a));
    }
  }
}

/** Arming first and counting afterwards keeps every user under the position limit without a transaction. */
module PositionCap {
  import opened Basics
  import opened TradeJobState
  import opened WorkerCluster
  import opened LeaseExclusion

  // The planned positions of a user's jobs that passed the check and are still active, among the first k rows.
  function PassedPlanned(rows: seq<Row>, passed: set<nat>, user: nat, k: nat): nat
    requires k <= |rows|
  {
    if k == 0 then 0 else
    var r := rows[k - 1];
    PassedPlanned(rows, passed, user, k - 1)
    + (if r.user == user && Active(r.status) && k - 1 in passed then PlannedPositions(r) else 0)
  }

  ghost predicate Capped(s: State) {
    forall user :: PassedPlanned(s.rows, s.passed, user, |s.rows|) <= s.limit
  }

  ghost predicate PassedClaimed(s: State) {
    forall j :: j in s.passed ==> j < |s.rows| && (Active(s.rows[j].status) || Terminal(s.rows[j].status))
  }

  // Rows whose passed jobs have at most become inactive.
  ghost predicate Fewer(before: seq<Row>, after: seq<Row>, passed: set<nat>) {
    && |after| == |before|
    && (forall j :: 0 <= j < |before| && j in passed && Active(after[j].status) ==>
        Active(before[j].status) && after[j].user == before[j].user
        && PlannedPositions(after[j]) == PlannedPositions(before[j]))
  }

  lemma {:induction false} FewerPlanned(before: seq<Row>, after: seq<Row>, passed: set<nat>, user: nat, k: nat)
    requires Fewer(before, after, passed) && k <= |before|
    ensures PassedPlanned(after, passed, user, k) <= PassedPlanned(before, passed, user, k)
  {
    if k > 0 {
      FewerPlanned(before, after, passed, user, k - 1);
    }
  }

  // The check counts every active job, so it counts every one that has passed.
  lemma {:induction false} CheckCounts(rows: seq<Row>, passed: set<nat>, user: nat, j: nat, k: nat)
    requires j < |rows| && k <= |rows|
    ensures PassedPlanned(rows, passed + {j}, user, k) <=
            ActivePlanned(rows, user, j, k) + (if j < k && rows[j].user == user then PlannedPositions(rows[j]) else 0)
    ensures rows[j].user != user || j >= k ==>
              PassedPlanned(rows, passed + {j}, user, k) == PassedPlanned(rows, passed, user, k)
  {
    if k > 0 {
      CheckCounts(rows, passed, user, j, k - 1);
    }
  }

  lemma CheckKeeps(s: State, w: nat, j: nat, unmanaged: nat)
    requires Capped(s) && PassedClaimed(s) && HeldClaimed(s)
    requires At(s, w, j) && s.holds[(w, j)].Fresh?
    ensures Capped(DoCheck(s, w, j, unmanaged)) && PassedClaimed(DoCheck(s, w, j, unmanaged))
  {
    hide PlannedPositions, PassedPlanned, ActivePlanned, InitialLegs;
    var t := DoCheck(s, w, j, unmanaged);
    assert (w, j) in s.holds;
    forall user ensures PassedPlanned(t.rows, t.passed, user, |t.rows|) <= t.limit {
      CheckCounts(s.rows, s.passed, user, j, |s.rows|);
    }
  }

  lemma RowsFewer(s: State, a: Action)
    requires PassedClaimed(s) && HeldClaimed(s) && !a.CheckLimit?
    ensures Fewer(s.rows, Do(s, a).rows, s.passed) && Do(s, a).passed == s.passed && Do(s, a).limit == s.limit
  {
    hide ActivePlanned, InitialLegs, Exposed, PlannedPositions;
    PassedSame(s, a);
    RowChanges(s, a);
    forall j | 0 <= j < |s.rows| ensures PlannedPositions(Do(s, a).rows[j]) == PlannedPositions(s.rows[j]) {
      SamePlan(s.rows[j], Do(s, a).rows[j]);
    }
  }

  lemma SamePlan(r: Row, q: Row)
    requires q.mode == r.mode && q.perSide == r.perSide
    ensures PlannedPositions(q) == PlannedPositions(r)
  {
  }

  lemma PassedSame(s: State, a: Action)
    requires !a.CheckLimit?
    ensures Do(s, a).passed == s.passed && Do(s, a).limit == s.limit
  {
    hide ActivePlanned, InitialLegs, Exposed, PlannedPositions;
  }

  // A step leaves what a job is, and brings none that was claimed back to life.
  lemma RowChanges(s: State, a: Action)
    ensures |Do(s, a).rows| == |s.rows|
    ensures forall j :: 0 <= j < |s.rows| ==>
              && Do(s, a).rows[j].user == s.rows[j].user && Do(s, a).rows[j].mode == s.rows[j].mode
              && Do(s, a).rows[j].perSide == s.rows[j].perSide
              && (Active(Do(s, a).rows[j].status) ==> Active(s.rows[j].status) || s.rows[j].status == Scheduled)
  {
    hide ActivePlanned, InitialLegs, Exposed, PlannedPositions;
  }

  lemma OtherKeeps(s: State, a: Action)
    requires Capped(s) && PassedClaimed(s) && HeldClaimed(s) && !a.CheckLimit?
    ensures Capped(Do(s, a))
  {
    hide PassedPlanned, Do, Fewer;
    RowsFewer(s, a);
    RowsKept(s, a);
    forall user ensures PassedPlanned(Do(s, a).rows, s.passed, user, |s.rows|) <= s.limit {
      FewerPlanned(s.rows, Do(s, a).rows, s.passed, user, |s.rows|);
    }
  }

  lemma RowsKept(s: State, a: Action)
    ensures |Do(s, a).rows| == |s.rows|
  {
  }

  lemma PassedStay(s: State, a: Action)
    requires PassedClaimed(s) && HeldClaimed(s) && !a.CheckLimit?
    ensures PassedClaimed(Do(s, a))
  {
  }

  lemma {:induction false} NonePassed(rows: seq<Row>, user: nat, k: nat)
    requires k <= |rows|
    ensures PassedPlanned(rows, {}, user, k) == 0
  {
    if k > 0 {
      NonePassed(rows, user, k - 1);
    }
  }

  // In every reachable state of every interleaving, timely or not.
  lemma {:induction false} CapHolds(s: State, actions: seq<Action>)
    requires Start(s)
    ensures Capped(Run(s, actions)) && PassedClaimed(Run(s, actions)) && HeldClaimed(Run(s, actions))
  {
    hide Do, PassedPlanned, DoCheck;
    if actions == [] {
      forall user ensures PassedPlanned(s.rows, s.passed, user, |s.rows|) <= s.limit {
        NonePassed(s.rows, user, |s.rows|);
      }
    } else {
      var most, last := actions[..|actions| - 1], actions[|actions| - 1];
      CapHolds(s, most);
      HeldStep(Run(s, most), last);
      CapStep(Run(s, most), last);
    }
  }

  lemma CapStep(s: State, a: Action)
    requires Capped(s) && PassedClaimed(s) && HeldClaimed(s)
    ensures Capped(Do(s, a)) && PassedClaimed(Do(s, a))
  {
    hide PassedPlanned, DoCheck;
    if a.CheckLimit? {
      if At(s, a.w, a.j) && s.holds[(a.w, a.j)].Fresh? { CheckKeeps(s, a.w, a.j, a.unmanaged); }
    } else {
      OtherKeeps(s, a);
      PassedStay(s, a);
    }
  }
}
