/** The status machine of a trade job and the two paths by which execution reports move it. */
module TradeJobState {
  import opened Basics

  datatype Status =
    | Draft | Scheduled | Synced | Armed | Submitted | PartiallyFilled | Filled
    | Rejected | Managed | Closed | Cancelled | Expired | Missed

  datatype Phase =
    | PhSynced | PhArmed | PhPreflightRejected | PhSubmitted | PhAccepted | PhPartiallyFilled
    | PhFilled | PhRejected | PhCancelled | PhClosed | PhMissed | PhError

  function StatusForPhase(phase: Phase): Option<Status> {
    match phase
    case PhSynced => Some(Synced)
    case PhArmed => Some(Armed)
    case PhPreflightRejected => Some(Rejected)
    case PhSubmitted => Some(Submitted)
    case PhAccepted => Some(Submitted)
    case PhPartiallyFilled => Some(PartiallyFilled)
    case PhFilled => Some(Filled)
    case PhRejected => Some(Rejected)
    case PhCancelled => Some(Cancelled)
    case PhClosed => Some(Closed)
    case PhMissed => Some(Missed)
    case PhError => None
  }

  function Transitions(s: Status): set<Status> {
    match s
    case Draft => {Scheduled, Cancelled}
    case Scheduled => {Synced, Armed, Submitted, PartiallyFilled, Filled, Cancelled, Expired, Missed, Rejected}
    case Synced => {Armed, Submitted, PartiallyFilled, Filled, Cancelled, Expired, Missed, Rejected}
    case Armed => {Submitted, PartiallyFilled, Filled, Cancelled, Missed, Rejected}
    case Submitted => {PartiallyFilled, Filled, Rejected, Cancelled, Closed}
    case PartiallyFilled => {Filled, Managed, Closed, Cancelled}
    case Filled => {Managed, Closed}
    case Managed => {Closed}
    case _ => {}
  }

  predicate CanTransition(current: Status, next: Status) {
    current == next || next in Transitions(current)
  }

  predicate Terminal(s: Status) {
    Transitions(s) == {}
  }
}

/**
 * Runs of reports: duplicated, reordered, refused, each handled before the next is read. ReportOverlap has reports that
 * are handled at the same time.
 */
module ReportRuns {
  import opened Basics
  import opened TradeJobState

  datatype Report = Report(key: string, phase: Phase)

  // The stored part of one job: its status and the keys of the reports kept for it.
  datatype Job = Job(status: Status, stored: set<string>)

  predicate Refused(j: Job, r: Report) {
    Refusal(j.status, r.phase)
  }

  function Moved(s: Status, phase: Phase): Status {
    match StatusForPhase(phase)
    case None => s
    case Some(next) => if CanTransition(s, next) then next else s
  }

  // The cBot path keeps every report and never moves a job backwards.
  function CbotStep(j: Job, r: Report): Job {
    if r.key in j.stored then j else Job(Moved(j.status, r.phase), j.stored + {r.key})
  }

  // The MT5 path throws on a forbidden transition and then keeps nothing.
  function AgentStep(j: Job, r: Report): Job {
    if r.key in j.stored || Refused(j, r) then j else Job(Moved(j.status, r.phase), j.stored + {r.key})
  }

  function CbotRun(j: Job, rs: seq<Report>): Job {
    if rs == [] then j else CbotStep(CbotRun(j, rs[..|rs| - 1]), rs[|rs| - 1])
  }

  function AgentRun(j: Job, rs: seq<Report>): Job {
    if rs == [] then j else AgentStep(AgentRun(j, rs[..|rs| - 1]), rs[|rs| - 1])
  }

  // The status that one report writes: the decision was made on the status read before, the write is unconditional.
  function Written(current: Status, seen: Status, phase: Phase): Status {
    if StatusForPhase(phase).Some? && CanTransition(seen, StatusForPhase(phase).value)
    then StatusForPhase(phase).value else current
  }

  // The transaction: it fails on a key that has been stored in the meantime.
  function Committed(j: Job, r: Report, seen: Status): Job {
    if r.key in j.stored then j else Job(Written(j.status, seen, r.phase), j.stored + {r.key})
  }

  predicate Refusal(seen: Status, phase: Phase) {
    StatusForPhase(phase).Some? && !CanTransition(seen, StatusForPhase(phase).value)
  }

  datatype Reply = Accepted(duplicate: bool) | Conflict

  class JobRow {
    var status: Status
    var stored: set<string>

    function Row(): Job
      reads this
    {
      Job(status, stored)
    }

    // The transaction of either path, after a decision made on an earlier reading of the status.
    method Commit(r: Report, seen: Status) returns (kept: bool)
      modifies this
      ensures Row() == Committed(old(Row()), r, seen)
      ensures kept == (r.key !in old(stored))
    {
      if r.key in stored { return false; }
      stored := stored + {r.key};
      var requested := StatusForPhase(r.phase);
      if requested.Some? && CanTransition(seen, requested.value) {
        status := requested.value;
      }
      return true;
    }

    // A report that nothing interrupts between its first read and its transaction.
    method CbotReport(r: Report) returns (reply: Reply)
      modifies this
      ensures Row() == CbotStep(old(Row()), r)
      ensures reply == Accepted(r.key in old(stored))
    {
      var seen := status;
      if r.key in stored { return Accepted(true); }
      var done := Commit(r, seen);
      return Accepted(!done);
    }

    method AgentReport(r: Report) returns (reply: Reply)
      modifies this
      ensures Row() == AgentStep(old(Row()), r)
      ensures reply.Conflict? <==> r.key !in old(stored) && Refused(old(Row()), r)
      ensures reply.Accepted? ==> reply.duplicate == (r.key in old(stored))
    {
      var seen := status;
      if r.key in stored { return Accepted(true); }
      if Refusal(seen, r.phase) { return Conflict; }
      var done := Commit(r, seen);
      return Accepted(!done);
    }
  }

  predicate Progress(phase: Phase) {
    phase in {PhSynced, PhArmed, PhSubmitted, PhAccepted, PhPartiallyFilled, PhFilled, PhError}
  }

  // How far a job is on its way to being filled.
  function Stage(s: Status): nat {
    match s
    case Draft => 0
    case Scheduled => 1
    case Synced => 2
    case Armed => 3
    case Submitted => 4
    case PartiallyFilled => 5
    case Filled => 6
    case _ => 7
  }

  function StageOf(r: Report): nat {
    match StatusForPhase(r.phase)
    case None => 0
    case Some(s) => Stage(s)
  }

  ghost predicate Faithful(rs: seq<Report>) {
    forall i, j :: 0 <= i < |rs| && 0 <= j < |rs| && rs[i].key == rs[j].key ==> rs[i].phase == rs[j].phase
  }

  ghost predicate IsHighest(start: Status, rs: seq<Report>, s: Status) {
    && Stage(start) <= Stage(s)
    && (forall i :: 0 <= i < |rs| ==> StageOf(rs[i]) <= Stage(s))
    && (s == start || exists i :: 0 <= i < |rs| && StatusForPhase(rs[i].phase) == Some(s))
  }

  function Keys(rs: seq<Report>): set<string> {
    set i | 0 <= i < |rs| :: rs[i].key
  }

  lemma {:induction false} AllKeysStored(j: Job, rs: seq<Report>)
    ensures CbotRun(j, rs).stored == j.stored + Keys(rs)
  {
    if rs != [] {
      AllKeysStored(j, rs[..|rs| - 1]);
      KeysLast(rs);
    }
  }

  lemma KeysLast(rs: seq<Report>)
    requires rs != []
    ensures Keys(rs) == Keys(rs[..|rs| - 1]) + {rs[|rs| - 1].key}
  {
    var most := rs[..|rs| - 1];
    forall k | k in Keys(rs) ensures k in Keys(most) + {rs[|rs| - 1].key} {
      var i :| 0 <= i < |rs| && rs[i].key == k;
      if i < |most| { assert most[i].key == k; }
    }
    forall k | k in Keys(most) ensures k in Keys(rs) {
      var i :| 0 <= i < |most| && most[i].key == k;
      assert rs[i].key == k;
    }
  }

  // The highest stage is kept by one more progress report.
  lemma HighestStep(start: Status, rs: seq<Report>, s: Status)
    requires start == Scheduled || start == Synced
    requires rs != [] && Progress(rs[|rs| - 1].phase) && IsHighest(start, rs[..|rs| - 1], s)
    requires s in {Scheduled, Synced, Armed, Submitted, PartiallyFilled, Filled}
    ensures IsHighest(start, rs, Moved(s, rs[|rs| - 1].phase))
  {
    var most, last := rs[..|rs| - 1], rs[|rs| - 1];
    var t := Moved(s, last.phase);
    forall i | 0 <= i < |rs| ensures StageOf(rs[i]) <= Stage(t) {
      if i < |most| { assert StageOf(most[i]) <= Stage(s); }
    }
    if t == s && s != start {
      var i :| 0 <= i < |most| && StatusForPhase(most[i].phase) == Some(s);
      assert StatusForPhase(rs[i].phase) == Some(s);
    }
  }

  lemma HighestAgain(start: Status, rs: seq<Report>, s: Status)
    requires rs != [] && IsHighest(start, rs[..|rs| - 1], s) && rs[|rs| - 1].key in Keys(rs[..|rs| - 1])
    requires Faithful(rs)
    ensures IsHighest(start, rs, s)
  {
    var most, last := rs[..|rs| - 1], rs[|rs| - 1];
    var k :| 0 <= k < |most| && most[k].key == last.key;
    assert rs[k].phase == rs[|rs| - 1].phase;
    forall i | 0 <= i < |rs| ensures StageOf(rs[i]) <= Stage(s) {
      assert StageOf(most[if i < |most| then i else k]) <= Stage(s);
    }
    if s != start {
      var i :| 0 <= i < |most| && StatusForPhase(most[i].phase) == Some(s);
      assert StatusForPhase(rs[i].phase) == Some(s);
    }
  }

  // Progress reports end in the highest stage seen, whatever their order and however often each is repeated.
  lemma {:induction false} HighestStageWins(start: Status, rs: seq<Report>)
    requires start == Scheduled || start == Synced
    requires Faithful(rs) && forall i :: 0 <= i < |rs| ==> Progress(rs[i].phase)
    ensures IsHighest(start, rs, CbotRun(Job(start, {}), rs).status)
  {
    if rs != [] {
      var most, last := rs[..|rs| - 1], rs[|rs| - 1];
      HighestStageWins(start, most);
      AllKeysStored(Job(start, {}), most);
      var j := CbotRun(Job(start, {}), most);
      if last.key in j.stored {
        HighestAgain(start, rs, j.status);
      } else {
        Reachable(start, most, j.status);
        HighestStep(start, rs, j.status);
      }
    }
  }

  // Two lists of the same progress reports, in any order and with any repetitions, leave the same status.
  lemma OrderIrrelevant(start: Status, xs: seq<Report>, ys: seq<Report>)
    requires start == Scheduled || start == Synced
    requires Faithful(xs) && Faithful(ys)
    requires forall i :: 0 <= i < |xs| ==> Progress(xs[i].phase) && xs[i] in ys
    requires forall i :: 0 <= i < |ys| ==> Progress(ys[i].phase) && ys[i] in xs
    ensures CbotRun(Job(start, {}), xs).status == CbotRun(Job(start, {}), ys).status
  {
    HighestStageWins(start, xs);
    HighestStageWins(start, ys);
    NotBelow(start, xs, ys);
    NotBelow(start, ys, xs);
    var s, t := CbotRun(Job(start, {}), xs).status, CbotRun(Job(start, {}), ys).status;
    Reachable(start, xs, s);
    Reachable(start, ys, t);
  }

  lemma NotBelow(start: Status, xs: seq<Report>, ys: seq<Report>)
    requires forall i :: 0 <= i < |xs| ==> xs[i] in ys
    requires IsHighest(start, xs, CbotRun(Job(start, {}), xs).status)
    requires IsHighest(start, ys, CbotRun(Job(start, {}), ys).status)
    ensures Stage(CbotRun(Job(start, {}), xs).status) <= Stage(CbotRun(Job(start, {}), ys).status)
  {
    var s := CbotRun(Job(start, {}), xs).status;
    if s != start {
      var i :| 0 <= i < |xs| && StatusForPhase(xs[i].phase) == Some(s);
      var k :| 0 <= k < |ys| && ys[k] == xs[i];
      assert StageOf(ys[k]) == Stage(s);
    }
  }

  lemma Reachable(start: Status, rs: seq<Report>, s: Status)
    requires start == Scheduled || start == Synced
    requires forall i :: 0 <= i < |rs| ==> Progress(rs[i].phase)
    requires IsHighest(start, rs, s)
    ensures s in {Scheduled, Synced, Armed, Submitted, PartiallyFilled, Filled}
  {
  }

  // Steps to the end of the longest run that reports alone can make.
  function Remaining(s: Status): nat {
    match s
    case Scheduled => 6
    case Synced => 5
    case Armed => 4
    case Submitted => 3
    case PartiallyFilled => 2
    case Draft => 1
    case Filled => 1
    case Managed => 1
    case _ => 0
  }

  function Changes(j: Job, rs: seq<Report>): nat {
    if rs == [] then 0 else
    var before := CbotRun(j, rs[..|rs| - 1]);
    Changes(j, rs[..|rs| - 1]) + (if CbotStep(before, rs[|rs| - 1]).status == before.status then 0 else 1)
  }

  // Over all phases: at most six status changes, and none after a terminal status.
  lemma {:induction false} RunsEnd(j: Job, rs: seq<Report>)
    ensures Changes(j, rs) + Remaining(CbotRun(j, rs).status) <= Remaining(j.status)
    ensures Terminal(j.status) ==> CbotRun(j, rs).status == j.status
  {
    if rs != [] {
      RunsEnd(j, rs[..|rs| - 1]);
    }
  }

  function AgentChanges(j: Job, rs: seq<Report>): nat {
    if rs == [] then 0
    else
      AgentChanges(j, rs[..|rs| - 1])
      + (if AgentRun(j, rs).status == AgentRun(j, rs[..|rs| - 1]).status then 0 else 1)
  }

  // The same for the MT5 path.
  lemma {:induction false} AgentRunsEnd(j: Job, rs: seq<Report>)
    ensures AgentChanges(j, rs) + Remaining(AgentRun(j, rs).status) <= Remaining(j.status)
    ensures Terminal(j.status) ==> AgentRun(j, rs).status == j.status
  {
    if rs != [] {
      AgentRunsEnd(j, rs[..|rs| - 1]);
    }
  }

  ghost predicate DistinctKeys(rs: seq<Report>) {
    forall i, j :: 0 <= i < j < |rs| ==> rs[i].key != rs[j].key
  }

  // A report under a new key counts.
  lemma OneMore(j: Job, rs: seq<Report>, k: nat)
    requires k < |rs| && DistinctKeys(rs) && j.stored == {}
    ensures var s := CbotRun(j, rs[..k]).status;
            && CbotRun(j, rs[..k + 1]).status == Moved(s, rs[k].phase)
            && Changes(j, rs[..k + 1]) == Changes(j, rs[..k]) + (if Moved(s, rs[k].phase) == s then 0 else 1)
    ensures k == 0 ==> CbotRun(j, rs[..k]) == j && Changes(j, rs[..k]) == 0
  {
    assert rs[..k + 1][..k] == rs[..k];
    AllKeysStored(j, rs[..k]);
  }

  // Six is reached.
  lemma SixChanges(rs: seq<Report>)
    requires DistinctKeys(rs) && |rs| == 6
    requires rs[0].phase == PhSynced && rs[1].phase == PhArmed && rs[2].phase == PhSubmitted
    requires rs[3].phase == PhPartiallyFilled && rs[4].phase == PhFilled && rs[5].phase == PhClosed
    ensures Changes(Job(Scheduled, {}), rs) == 6
  {
    hide CbotRun, Changes, DistinctKeys;
    var j := Job(Scheduled, {});
    ThreeChanges(rs);
    OneMore(j, rs, 3); OneMore(j, rs, 4); OneMore(j, rs, 5);
    assert rs[..6] == rs;
  }

  lemma ThreeChanges(rs: seq<Report>)
    requires DistinctKeys(rs) && |rs| >= 3
    requires rs[0].phase == PhSynced && rs[1].phase == PhArmed && rs[2].phase == PhSubmitted
    ensures Changes(Job(Scheduled, {}), rs[..3]) == 3 && CbotRun(Job(Scheduled, {}), rs[..3]).status == Submitted
  {
    hide CbotRun, Changes, DistinctKeys;
    var j := Job(Scheduled, {});
    OneMore(j, rs, 0); OneMore(j, rs, 1); OneMore(j, rs, 2);
  }

  // The cBot path keeps whatever the MT5 path keeps, and the refused reports besides.
  lemma {:induction false} KeepsMore(j: Job, rs: seq<Report>)
    ensures AgentRun(j, rs).stored <= CbotRun(j, rs).stored
  {
    if rs != [] { KeepsMore(j, rs[..|rs| - 1]); }
  }

  // A report whose key only the cBot path has used up, and which the MT5 path would follow.
  predicate Lost(cbot: Job, agent: Job, r: Report) {
    r.key in cbot.stored && r.key !in agent.stored && Moved(agent.status, r.phase) != agent.status
  }

  predicate Agree(j: Job, rs: seq<Report>) {
    CbotRun(j, rs).status == AgentRun(j, rs).status
  }

  lemma AgreeStep(j: Job, rs: seq<Report>)
    requires rs != [] && Agree(j, rs[..|rs| - 1])
    ensures var before := rs[..|rs| - 1];
            Agree(j, rs) <==> !Lost(CbotRun(j, before), AgentRun(j, before), rs[|rs| - 1])
  {
    KeepsMore(j, rs[..|rs| - 1]);
  }

  // The two paths give the same status after every report of a list if and only if none of them is lost in this way.
  lemma {:induction false} PathsAgreeExactly(j: Job, rs: seq<Report>)
    ensures (forall k :: 0 <= k <= |rs| ==> Agree(j, rs[..k]))
            <==> forall k :: 0 <= k < |rs| ==> !Lost(CbotRun(j, rs[..k]), AgentRun(j, rs[..k]), rs[k])
  {
    hide Agree, Lost, CbotRun, AgentRun;
    assert rs[..|rs|] == rs;
    if rs == [] {
      Unreported(j);
    } else {
      var before := rs[..|rs| - 1];
      PathsAgreeExactly(j, before);
      assert forall k :: 0 <= k <= |before| ==> before[..k] == rs[..k];
      if Agree(j, before) { AgreeStep(j, rs); }
    }
  }

  lemma Unreported(j: Job)
    ensures Agree(j, [])
  {
  }

  // While no key is used twice, keeping refused reports makes no difference to the status.
  lemma PathsAgree(j: Job, rs: seq<Report>)
    requires DistinctKeys(rs) && forall i :: 0 <= i < |rs| ==> rs[i].key !in j.stored
    ensures CbotRun(j, rs).status == AgentRun(j, rs).status
  {
    forall k | 0 <= k < |rs|
      ensures !Lost(CbotRun(j, rs[..k]), AgentRun(j, rs[..k]), rs[k])
    {
      AllKeysStored(j, rs[..k]);
    }
    PathsAgreeExactly(j, rs);
    assert rs[..|rs|] == rs && Agree(j, rs[..|rs|]);
  }

  // With a key sent again they differ: the cBot path has used up the key of a CLOSED report that came too early,
  // so the retry that the MT5 path would accept is taken for a duplicate.
  lemma EarlyCloseIsLost()
    ensures var rs := [Report("k", PhClosed), Report("s", PhSubmitted), Report("k", PhClosed)];
            && AgentRun(Job(Armed, {}), rs).status == Closed
            && CbotRun(Job(Armed, {}), rs).status == Submitted
  {
    var j := Job(Armed, {});
    var rs := [Report("k", PhClosed), Report("s", PhSubmitted), Report("k", PhClosed)];
    assert rs[..3][..2] == rs[..2] && rs[..2][..1] == rs[..1] && rs[..1][..0] == [];
    assert CbotRun(j, rs[..1]) == Job(Armed, {"k"}) && AgentRun(j, rs[..1]) == j;
    assert CbotRun(j, rs[..2]) == Job(Submitted, {"k", "s"}) && AgentRun(j, rs[..2]) == Job(Submitted, {"s"});
  }
}
