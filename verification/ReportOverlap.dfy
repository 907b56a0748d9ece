/**
 * Reports of one job that are handled at the same time: the gateway does not await a request before it takes the next.
 * Each report reads the status, then looks up its key, then commits a decision made on the status it read.
 */
module ReportOverlap {
  import opened Basics
  import opened TradeJobState
  import opened ReportRuns

  datatype Path = Cbot | Agent

  datatype InFlight = InFlight(report: Report, seen: Status, checked: bool)

  // `log` lists the stored reports in the order of their commits.
  datatype State = State(job: Job, flying: seq<InFlight>, log: seq<Report>)

  datatype Action =
    | Read(report: Report)
    | Check(i: nat)
    | Commit(i: nat)
    | Abandon(i: nat)   // the request dies

  function Without(fs: seq<InFlight>, i: nat): seq<InFlight>
    requires i < |fs|
  {
    fs[..i] + fs[i + 1..]
  }

  // A stored key ends the report as a duplicate; the MT5 path also refuses a forbidden move, both without a trace.
  function Checked(path: Path, s: State, i: nat): State
    requires i < |s.flying|
  {
    var f := s.flying[i];
    if f.report.key in s.job.stored || (path == Agent && Refusal(f.seen, f.report.phase))
    then s.(flying := Without(s.flying, i))
    else s.(flying := s.flying[i := f.(checked := true)])
  }

  function CommitOne(s: State, i: nat): State
    requires i < |s.flying|
  {
    var f := s.flying[i];
    State(Committed(s.job, f.report, f.seen), Without(s.flying, i),
      if f.report.key in s.job.stored then s.log else s.log + [f.report])
  }

  function Do(path: Path, s: State, a: Action): State {
    match a
    case Read(r) => s.(flying := s.flying + [InFlight(r, s.job.status, false)])
    case Check(i) => if i < |s.flying| && !s.flying[i].checked then Checked(path, s, i) else s
    case Commit(i) => if i < |s.flying| && s.flying[i].checked then CommitOne(s, i) else s
    case Abandon(i) => if i < |s.flying| then s.(flying := Without(s.flying, i)) else s
  }

  function Run(path: Path, s: State, acts: seq<Action>): State {
    if acts == [] then s else Do(path, Run(path, s, acts[..|acts| - 1]), acts[|acts| - 1])
  }

  // A commit that stores its report.
  predicate Stores(s: State, a: Action) {
    && a.Commit? && a.i < |s.flying| && s.flying[a.i].checked && s.flying[a.i].report.key !in s.job.stored
  }

  // A commit whose decision is no longer the one that the status would now give.
  predicate Stale(s: State, a: Action) {
    Stores(s, a)
    && var f := s.flying[a.i];
       Written(s.job.status, f.seen, f.report.phase) != Moved(s.job.status, f.report.phase)
  }

  // Any step at all moves the status against the table exactly when it commits a move that the status read earlier
  // permitted and the present one does not.
  lemma AgainstTableExactly(path: Path, s: State, a: Action)
    ensures !CanTransition(s.job.status, Do(path, s, a).job.status) <==>
              && Stores(s, a)
              && var f := s.flying[a.i];
                 var next := StatusForPhase(f.report.phase);
                 next.Some? && CanTransition(f.seen, next.value) && !CanTransition(s.job.status, next.value)
  {
  }

  // And a commit does what handling the report now would do exactly when it is not stale: a stale one either moves
  // against the table or forgoes a move that has become possible.
  lemma SerialExactly(path: Path, s: State, a: Action)
    requires Stores(s, a)
    ensures Do(path, s, a).job == CbotStep(s.job, s.flying[a.i].report) <==> !Stale(s, a)
    ensures Stale(s, a) <==>
              var f := s.flying[a.i];
              var next := StatusForPhase(f.report.phase);
              && next.Some? && next.value != s.job.status
              && CanTransition(f.seen, next.value) != CanTransition(s.job.status, next.value)
  {
  }

  ghost predicate Timely(path: Path, s: State, acts: seq<Action>) {
    acts == [] || (&& Timely(path, s, acts[..|acts| - 1])
                   && !Stale(Run(path, s, acts[..|acts| - 1]), acts[|acts| - 1]))
  }

  function Start(j: Job): State {
    State(j, [], [])
  }

  // Whatever the overlap, every key is stored by one commit only.
  lemma {:induction false} StoredOnce(path: Path, j: Job, acts: seq<Action>)
    ensures var s := Run(path, Start(j), acts);
            && DistinctKeys(s.log)
            && (forall i :: 0 <= i < |s.log| ==> s.log[i].key in s.job.stored && s.log[i].key !in j.stored)
            && j.stored <= s.job.stored
  {
    if acts != [] { StoredOnce(path, j, acts[..|acts| - 1]); }
  }

  // The MT5 path lets only permitted decisions come to a commit.
  ghost predicate Permitted(path: Path, s: State) {
    path == Agent ==> forall i :: 0 <= i < |s.flying| && s.flying[i].checked ==>
      !Refusal(s.flying[i].seen, s.flying[i].report.phase)
  }

  lemma StepPermitted(path: Path, s: State, a: Action)
    requires Permitted(path, s)
    ensures Permitted(path, Do(path, s, a))
  {
  }

  // Overlapping reports leave what handling them one after the other in the order of their commits would leave, as long
  // as no commit is stale.
  lemma {:induction false} TimelyRunsAreSerial(path: Path, j: Job, acts: seq<Action>)
    requires Timely(path, Start(j), acts)
    ensures var s := Run(path, Start(j), acts);
            && s.job == CbotRun(j, s.log) && Permitted(path, s)
            && (path == Agent ==> s.job == AgentRun(j, s.log))
  {
    hide Do, Stale, StatusForPhase;
    if acts != [] {
      var most, a := acts[..|acts| - 1], acts[|acts| - 1];
      var before := Run(path, Start(j), most);
      TimelyRunsAreSerial(path, j, most);
      StepPermitted(path, before, a);
      CommitSerial(path, j, before, a);
    }
  }

  lemma CommitSerial(path: Path, j: Job, s: State, a: Action)
    requires !Stale(s, a) && Permitted(path, s) && s.job == CbotRun(j, s.log)
    requires path == Agent ==> s.job == AgentRun(j, s.log)
    ensures Do(path, s, a).job == CbotRun(j, Do(path, s, a).log)
    ensures path == Agent ==> Do(path, s, a).job == AgentRun(j, Do(path, s, a).log)
  {
    hide CbotRun, AgentRun, CbotStep, AgentStep;
    if Stores(s, a) {
      var r := s.flying[a.i].report;
      assert Do(path, s, a).log == s.log + [r];
      CbotRunPush(j, s.log, r);
      SerialExactly(path, s, a);
      AgentAgrees(path, s, a);
    } else {
      NothingStored(path, s, a);
    }
  }

  lemma CbotRunPush(j: Job, rs: seq<Report>, r: Report)
    ensures CbotRun(j, rs + [r]) == CbotStep(CbotRun(j, rs), r)
    ensures AgentRun(j, rs + [r]) == AgentStep(AgentRun(j, rs), r)
  {
    assert (rs + [r])[..|rs|] == rs;
  }

  lemma AgentAgrees(path: Path, s: State, a: Action)
    requires Stores(s, a) && !Stale(s, a) && Permitted(path, s)
    ensures path == Agent ==> AgentStep(s.job, s.flying[a.i].report) == CbotStep(s.job, s.flying[a.i].report)
  {
  }

  lemma NothingStored(path: Path, s: State, a: Action)
    requires !Stores(s, a)
    ensures Do(path, s, a).job == s.job && Do(path, s, a).log == s.log
  {
  }

  // So on such runs progress reports end in the highest stage stored, and a terminal status stays.
  lemma TimelyRunsKeepStages(path: Path, start: Status, acts: seq<Action>)
    requires (start == Scheduled || start == Synced) && Timely(path, Start(Job(start, {})), acts)
    requires var log := Run(path, Start(Job(start, {})), acts).log;
             forall i :: 0 <= i < |log| ==> Progress(log[i].phase)
    ensures var s := Run(path, Start(Job(start, {})), acts);
            IsHighest(start, s.log, s.job.status)
  {
    TimelyRunsAreSerial(path, Job(start, {}), acts);
    StoredOnce(path, Job(start, {}), acts);
    var log := Run(path, Start(Job(start, {})), acts).log;
    HighestStageWins(start, log);
  }

  lemma TimelyRunsEnd(path: Path, j: Job, acts: seq<Action>)
    requires Timely(path, Start(j), acts) && Terminal(j.status)
    ensures Run(path, Start(j), acts).job.status == j.status
  {
    TimelyRunsAreSerial(path, j, acts);
    RunsEnd(j, Run(path, Start(j), acts).log);
  }

  // Reports handled one at a time.
  function OneByOne(rs: seq<Report>): seq<Action> {
    if rs == [] then [] else OneByOne(rs[..|rs| - 1]) + [Read(rs[|rs| - 1]), Check(0), Commit(0)]
  }

  lemma RunPush(path: Path, s: State, most: seq<Action>, a: Action)
    ensures Run(path, s, most + [a]) == Do(path, Run(path, s, most), a)
  {
    assert (most + [a])[..|most|] == most;
  }

  lemma RunThree(path: Path, s: State, most: seq<Action>, r: Report)
    ensures Run(path, s, most + [Read(r), Check(0), Commit(0)])
            == Do(path, Do(path, Do(path, Run(path, s, most), Read(r)), Check(0)), Commit(0))
  {
    hide Do, Run;
    RunPush(path, s, most, Read(r));
    RunPush(path, s, most + [Read(r)], Check(0));
    RunPush(path, s, most + [Read(r)] + [Check(0)], Commit(0));
    assert most + [Read(r)] + [Check(0)] + [Commit(0)] == most + [Read(r), Check(0), Commit(0)];
  }

  // Without overlap the two paths are the runs of ReportRuns.
  lemma {:induction false} OneByOneIsSerial(path: Path, j: Job, rs: seq<Report>)
    ensures var s := Run(path, Start(j), OneByOne(rs));
            s.flying == [] && s.job == if path == Cbot then CbotRun(j, rs) else AgentRun(j, rs)
  {
    hide StatusForPhase, CanTransition;
    if rs != [] {
      OneByOneIsSerial(path, j, rs[..|rs| - 1]);
      RunThree(path, Start(j), OneByOne(rs[..|rs| - 1]), rs[|rs| - 1]);
    }
  }

  lemma RunSix(path: Path, s: State, acts: seq<Action>)
    requires |acts| == 6
    ensures Run(path, s, acts)
            == Do(path, Do(path, Do(path, Do(path, Do(path, Do(path, s, acts[0]), acts[1]), acts[2]), acts[3]),
                acts[4]), acts[5])
  {
    hide Do;
    assert acts[..5][..4] == acts[..4] && acts[..4][..3] == acts[..3] && acts[..3][..2] == acts[..2];
    assert acts[..2][..1] == acts[..1] && acts[..1][..0] == [];
    assert Run(path, s, acts[..1]) == Do(path, s, acts[0]);
    assert Run(path, s, acts[..2]) == Do(path, Run(path, s, acts[..1]), acts[1]);
    assert Run(path, s, acts[..3]) == Do(path, Run(path, s, acts[..2]), acts[2]);
    assert Run(path, s, acts[..4]) == Do(path, Run(path, s, acts[..3]), acts[3]);
    assert Run(path, s, acts[..5]) == Do(path, Run(path, s, acts[..4]), acts[4]);
  }

  // Both reports read before either commits; the second commits first.
  function Crossed(first: Report, second: Report): seq<Action> {
    [Read(first), Read(second), Check(0), Check(1), Commit(1), Commit(0)]
  }

  lemma CrossedRun(path: Path, status: Status, first: Report, second: Report)
    requires first.key != second.key && !Refusal(status, first.phase) && !Refusal(status, second.phase)
    ensures Run(path, Start(Job(status, {})), Crossed(first, second)).job.status
            == Written(Written(status, status, second.phase), status, first.phase)
  {
    hide StatusForPhase, CanTransition;
    RunSix(path, Start(Job(status, {})), Crossed(first, second));
  }

  // Two reports sent back to back and handled at once can leave the earlier status, on either path.
  lemma FilledBecomesSubmitted(path: Path)
    ensures Run(path, Start(Job(Armed, {})), Crossed(Report("s", PhSubmitted), Report("f", PhFilled))).job.status
              == Submitted
  {
    CrossedRun(path, Armed, Report("s", PhSubmitted), Report("f", PhFilled));
  }

  // And a terminal status can be overwritten.
  lemma ClosedBecomesFilled(path: Path)
    ensures Run(path, Start(Job(Submitted, {})), Crossed(Report("f", PhFilled), Report("c", PhClosed))).job.status
              == Filled
  {
    CrossedRun(path, Submitted, Report("f", PhFilled), Report("c", PhClosed));
  }
}
