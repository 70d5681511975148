/**
  Finalization over whole runs: a late write can fall between its two count queries, in either direction.
 */
module ClusterCompletion {

  import opened Arithmetic
  import opened Wrappers
  import opened JobTable
  import opened ExecutionTable
  import opened Completion
  import opened Cluster
  import opened ClusterRuns

  /** What finalization writes when its first query sees one state of a run and its second a later one. */
  ghost function VerdictOver(s: State, t: State, e: ExecId): ExecState {
    Verdict(CountsOf(s.jobs, e).total, FinishedCount(CountsOf(t.jobs, e)), CountsOf(s.jobs, e).failed)
  }

  lemma TakeLoop(c: Config, states: seq<State>, steps: seq<Step>, s: State, q: LoopStep, after: State)
    requires EndsIn(c, states, steps, s) && LoopEnabled(c, s, q) && LoopApplied(c, s, q) == after
    ensures EndsIn(c, states + [after], steps + [Loop(q)], after)
  {
    Appended(c, states, steps, Loop(q));
  }

  lemma TakeSend(c: Config, states: seq<State>, steps: seq<Step>, s: State, q: SendStep, after: State)
    requires EndsIn(c, states, steps, s) && SendEnabled(c, s, q) && SendApplied(c, s, q) == after
    ensures EndsIn(c, states + [after], steps + [Send(q)], after)
  {
    Appended(c, states, steps, Send(q));
  }

  lemma TakeSweep(c: Config, states: seq<State>, steps: seq<Step>, s: State, q: SweepStep, after: State)
    requires EndsIn(c, states, steps, s) && SweepEnabled(c, s, q) && SweepApplied(c, s, q) == after
    ensures EndsIn(c, states + [after], steps + [Sweep(q)], after)
  {
    Appended(c, states, steps, Sweep(q));
  }

  lemma TakeWork(c: Config, states: seq<State>, steps: seq<Step>, s: State, q: WorkerStep, after: State)
    requires EndsIn(c, states, steps, s) && WorkerEnabled(c, s, q) && WorkerApplied(c, s, q) == after
    ensures EndsIn(c, states + [after], steps + [Work(q)], after)
  {
    Appended(c, states, steps, Work(q));
  }

  // A run with the one job "j" of execution "e", driven by the loop of host "a".

  ghost function DrivenRow(): Execution {
    Owned(RunningRow().(planComplete := true), RaceLoop, 0)
  }

  ghost function Driven(
      job: Job, phase: Phase, sent: bool, live: nat, clock: Time, excess: set<JobId>): State
  {
    State(map["j" := job], map["e" := DrivenRow()], map[RaceLoop := Actor("e", Some(0), phase)],
          if sent then {"j"} else {}, multiset{}["j" := live], clock, map["e" := {"j"}], excess, multiset{})
  }

  ghost function PendingRow(): Job {
    NewRow("e", 1, 0)
  }

  ghost function SentRow(): Job {
    MarkedRow(PendingRow(), 0)
  }

  ghost function FirstTry(): Job {
    ClaimedRow(SentRow(), 0)
  }

  ghost function SecondTry(late: Time): Job {
    ClaimedRow(RequeuedRow(FirstTry(), late), late)
  }

  lemma LoopDrives(c: Config) returns (states: seq<State>, steps: seq<Step>)
    ensures EndsIn(c, states, steps, Driven(PendingRow(), Driving, false, 0, 0, {}))
  {
    states, steps := RaceSaves(c);
    var saved := Racing(true, RunningRow(), Planning([]), Some(0), 0);
    var whole := PlanApplied(c, saved, PlannerCompletes(RacePlanner));
    TakePlan(c, states, steps, saved, PlannerCompletes(RacePlanner), whole);
    states, steps := states + [whole], steps + [Plan(PlannerCompletes(RacePlanner))];
    var free := PlanApplied(c, whole, PlannerHandsOver(RacePlanner, RaceLoop));
    TakePlan(c, states, steps, whole, PlannerHandsOver(RacePlanner, RaceLoop), free);
    states, steps := states + [free], steps + [Plan(PlannerHandsOver(RacePlanner, RaceLoop))];
    var driven := Driven(PendingRow(), Driving, false, 0, 0, {});
    assert free.actors == map[RaceLoop := Actor("e", None, Standby)];
    assert multiset{}["j" := 0] == multiset{};
    assert LoopApplied(c, free, LoopClaims(RaceLoop, 0)) == driven;
    TakeLoop(c, states, steps, free, LoopClaims(RaceLoop, 0), driven);
    states, steps := states + [driven], steps + [Loop(LoopClaims(RaceLoop, 0))];
  }

  predicate Roomy(c: Config) {
    c.maxAttempts >= 2 && c.maxInFlight >= 1 && c.fetchLimit >= 1
  }

  lemma JobIsFetched(c: Config) returns (states: seq<State>, steps: seq<Step>)
    requires Roomy(c)
    ensures EndsIn(c, states, steps, Driven(PendingRow(), Sending(["j"], None), false, 0, 0, {}))
  {
    states, steps := LoopDrives(c);
    var driven := Driven(PendingRow(), Driving, false, 0, 0, {});
    assert driven.jobs == map["j" := PendingRow()];
    var counted := Driven(PendingRow(), Counted(c.maxInFlight), false, 0, 0, {});
    assert InFlight(driven.jobs, "e") == {};
    assert LoopApplied(c, driven, CountsJobs(RaceLoop)) == counted;
    TakeLoop(c, states, steps, driven, CountsJobs(RaceLoop), counted);
    states, steps := states + [counted], steps + [Loop(CountsJobs(RaceLoop))];
    var fetched := Driven(PendingRow(), Sending(["j"], None), false, 0, 0, {});
    assert IsPendingPage(counted.jobs, "e", Least(c.maxInFlight, c.fetchLimit), ["j"]);
    assert LoopApplied(c, counted, FetchesJobs(RaceLoop, ["j"])) == fetched;
    TakeLoop(c, states, steps, counted, FetchesJobs(RaceLoop, ["j"]), fetched);
    states, steps := states + [fetched], steps + [Loop(FetchesJobs(RaceLoop, ["j"]))];
  }

  lemma JobIsSent(c: Config) returns (states: seq<State>, steps: seq<Step>)
    requires Roomy(c)
    ensures EndsIn(c, states, steps, Driven(SentRow(), Sending([], None), true, 0, 0, {}))
  {
    states, steps := JobIsFetched(c);
    var fetched := Driven(PendingRow(), Sending(["j"], None), false, 0, 0, {});
    var unmarked := Driven(PendingRow(), Sending([], Some("j")), true, 0, 0, {});
    assert ["j"][1..] == [] && {} + {"j"} == {"j"};
    assert SendApplied(c, fetched, Sends(RaceLoop)) == unmarked;
    TakeSend(c, states, steps, fetched, Sends(RaceLoop), unmarked);
    states, steps := states + [unmarked], steps + [Send(Sends(RaceLoop))];
    var marked := Driven(SentRow(), Sending([], None), true, 0, 0, {});
    assert SendApplied(c, unmarked, MarksSent(RaceLoop, 0)) == marked;
    TakeSend(c, states, steps, unmarked, MarksSent(RaceLoop, 0), marked);
    states, steps := states + [marked], steps + [Send(MarksSent(RaceLoop, 0))];
  }

  lemma JobIsStarted(c: Config) returns (states: seq<State>, steps: seq<Step>)
    requires Roomy(c)
    ensures EndsIn(c, states, steps, Driven(FirstTry(), Driving, true, 1, 0, {}))
  {
    states, steps := JobIsSent(c);
    var marked := Driven(SentRow(), Sending([], None), true, 0, 0, {});
    var driving := Driven(SentRow(), Driving, true, 0, 0, {});
    assert LoopApplied(c, marked, BatchEnds(RaceLoop)) == driving;
    TakeLoop(c, states, steps, marked, BatchEnds(RaceLoop), driving);
    states, steps := states + [driving], steps + [Loop(BatchEnds(RaceLoop))];
    var started := Driven(FirstTry(), Driving, true, 1, 0, {});
    assert WorkerApplied(c, driving, WorkerClaims("j", 0)) == started;
    TakeWork(c, states, steps, driving, WorkerClaims("j", 0), started);
    states, steps := states + [started], steps + [Work(WorkerClaims("j", 0))];
  }

  /** The first worker stops beating, and the sweep finds its job. */
  lemma JobIsStale(c: Config) returns (states: seq<State>, steps: seq<Step>)
    requires Roomy(c)
    ensures var late := c.runningLease + 1;
            EndsIn(c, states, steps, Driven(FirstTry(), SweptLost(1, late - c.dispatchLease), true, 1, late, {}))
  {
    states, steps := JobIsStarted(c);
    var late := c.runningLease + 1;
    var started := Driven(FirstTry(), Driving, true, 1, 0, {});
    var stale := Driven(FirstTry(), Driving, true, 1, late, {});
    TakeTick(c, states, steps, started, late);
    states, steps := states + [stale], steps + [Tick(late)];
    var looked := Driven(FirstTry(), SweptLost(1, late - c.dispatchLease), true, 1, late, {});
    assert SweepApplied(c, stale, SweepFailsLost(RaceLoop, late)) == looked;
    TakeSweep(c, states, steps, stale, SweepFailsLost(RaceLoop, late), looked);
    states, steps := states + [looked], steps + [Sweep(SweepFailsLost(RaceLoop, late))];
  }

  lemma JobIsRequeued(c: Config) returns (states: seq<State>, steps: seq<Step>)
    requires Roomy(c)
    ensures var late := c.runningLease + 1;
            EndsIn(c, states, steps, Driven(RequeuedRow(FirstTry(), late), Driving, true, 1, late, {}))
  {
    states, steps := JobIsStale(c);
    var late := c.runningLease + 1;
    var looked := Driven(FirstTry(), SweptLost(1, late - c.dispatchLease), true, 1, late, {});
    var requeued := Driven(RequeuedRow(FirstTry(), late), SweptRunning(late - c.dispatchLease), true, 1, late, {});
    assert SweepApplied(c, looked, SweepRequeuesRunning(RaceLoop, late)) == requeued;
    TakeSweep(c, states, steps, looked, SweepRequeuesRunning(RaceLoop, late), requeued);
    states, steps := states + [requeued], steps + [Sweep(SweepRequeuesRunning(RaceLoop, late))];
    var swept := Driven(RequeuedRow(FirstTry(), late), Driving, true, 1, late, {});
    assert SweepApplied(c, requeued, SweepRequeuesDispatched(RaceLoop, late)) == swept;
    TakeSweep(c, states, steps, requeued, SweepRequeuesDispatched(RaceLoop, late), swept);
    states, steps := states + [swept], steps + [Sweep(SweepRequeuesDispatched(RaceLoop, late))];
  }

  /** Its message is redelivered, and a second worker starts the job. */
  lemma JobIsStartedAgain(c: Config) returns (states: seq<State>, steps: seq<Step>)
    requires Roomy(c)
    ensures var late := c.runningLease + 1;
            EndsIn(c, states, steps, Driven(SecondTry(late), Driving, true, 2, late, {"j"}))
  {
    states, steps := JobIsRequeued(c);
    var late := c.runningLease + 1;
    var swept := Driven(RequeuedRow(FirstTry(), late), Driving, true, 1, late, {});
    var again := Driven(SecondTry(late), Driving, true, 2, late, {"j"});
    assert !AwaitingMark(swept, "j");
    assert WorkerApplied(c, swept, WorkerClaims("j", late)) == again;
    TakeWork(c, states, steps, swept, WorkerClaims("j", late), again);
    states, steps := states + [again], steps + [Work(WorkerClaims("j", late))];
  }

  predicate Contrary(first: JobState, second: JobState) {
    (first == Completed && second == Failed) || (first == Failed && second == Completed)
  }

  predicate OnlyIn(rows: Rows, state: JobState) {
    rows.Keys == {"j"} && rows["j"].exec == "e" && rows["j"].state == state
  }

  lemma CountsOfOne(rows: Rows, state: JobState)
    requires OnlyIn(rows, state) && (state == Completed || state == Failed)
    ensures CountsOf(rows, "e").total == 1 && FinishedCount(CountsOf(rows, "e")) == 1
    ensures CountsOf(rows, "e").failed == if state == Failed then 1 else 0
  {
    assert JobsOf(rows, "e") == {"j"};
    assert InState(rows, "e", state) == {"j"};
    assert forall other | other != state :: InState(rows, "e", other) == {};
  }

  lemma FinalStateOfOne(rows: Rows, state: JobState)
    requires OnlyIn(rows, state) && (state == Completed || state == Failed)
    ensures FinalState(rows, "e") == if state == Failed then ExecFailed else ExecCompleted
  {
    assert "j" in rows;
  }

  /** The loop can finalize the execution now. */
  ghost predicate MayFinalize(s: State) {
    IsActor(s, RaceLoop, "e") && PhaseOf(s, RaceLoop).Driving? && NothingUnfinished(s, "e")
  }

  lemma FirstReports(c: Config, first: JobState) returns (states: seq<State>, steps: seq<Step>, s: State)
    requires Roomy(c) && (first == Completed || first == Failed)
    ensures EndsIn(c, states, steps, s) && OnlyIn(s.jobs, first) && "j" in s.live
    ensures MayFinalize(s)
  {
    states, steps := JobIsStartedAgain(c);
    var late := c.runningLease + 1;
    var again := Driven(SecondTry(late), Driving, true, 2, late, {"j"});
    s := Driven(FinishedRow(SecondTry(late), first, None, late), Driving, true, 1, late, {"j"});
    assert WorkerApplied(c, again, WorkerFinishes("j", first, None)) == s;
    TakeWork(c, states, steps, again, WorkerFinishes("j", first, None), s);
    states, steps := states + [s], steps + [Work(WorkerFinishes("j", first, None))];
  }

  lemma TakeReport(c: Config, states: seq<State>, steps: seq<Step>, s: State, outcome: JobState)
      returns (t: State)
    requires EndsIn(c, states, steps, s) && s.jobs.Keys == {"j"} && s.jobs["j"].exec == "e" && "j" in s.live
    requires outcome == Completed || outcome == Failed
    ensures EndsIn(c, states + [t], steps + [Work(WorkerFinishes("j", outcome, None))], t) && OnlyIn(t.jobs, outcome)
  {
    t := WorkerApplied(c, s, WorkerFinishes("j", outcome, None));
    TakeWork(c, states, steps, s, WorkerFinishes("j", outcome, None), t);
  }

  lemma VerdictOfTwo(s: State, t: State, first: JobState, second: JobState)
    requires OnlyIn(s.jobs, first) && OnlyIn(t.jobs, second) && Contrary(first, second)
    ensures VerdictOver(s, t, "e") == (if first == Completed then ExecCompleted else ExecFailed)
    ensures FinalState(t.jobs, "e") == (if first == Completed then ExecFailed else ExecCompleted)
  {
    CountsOfOne(s.jobs, first);
    CountsOfOne(t.jobs, second);
    FinalStateOfOne(t.jobs, second);
  }

  /**
    There are such runs, in both directions: nothing is unfinished when finalization's first query runs,
    the attempt that was given up reports before the second, and the verdict is the opposite of the truth.
   */
  lemma LateReportFoolsFinalization(c: Config, first: JobState, second: JobState)
    returns (states: seq<State>, steps: seq<Step>, s: State, t: State)
    requires Roomy(c) && Contrary(first, second)
    ensures EndsIn(c, states, steps, s) && MayFinalize(s)
    ensures EndsIn(c, states + [t], steps + [Work(WorkerFinishes("j", second, None))], t)
    ensures VerdictOver(s, t, "e") == (if first == Completed then ExecCompleted else ExecFailed)
    ensures FinalState(t.jobs, "e") == (if first == Completed then ExecFailed else ExecCompleted)
  {
    states, steps, s := FirstReports(c, first);
    t := TakeReport(c, states, steps, s, second);
    VerdictOfTwo(s, t, first, second);
  }

  /** What finalization writes is the truth about the job rows it finds, and it frees the loop's lease. */
  lemma FinalizationTells(c: Config, s: State, l: DriverId, e: ExecId)
    requires LoopEnabled(c, s, Finalizes(l)) && ExecOf(s, l) == e
    ensures var row := LoopApplied(c, s, Finalizes(l)).execs[e];
            && (row.state == ExecCompleted <==>
                  forall j | j in s.jobs && s.jobs[j].exec == e :: s.jobs[j].state in {Completed, Deduplicated})
            && (row.state == ExecCompleted || row.state == ExecFailed)
            && row.completedAt == Some(s.clock) && row.driver != Some(l)
  {
  }

  /** A run to the end: the one job of an execution is run, and the execution is settled by its outcome. */
  lemma ExecutionIsSettled(c: Config, outcome: JobState) returns (states: seq<State>, steps: seq<Step>, t: State)
    requires Roomy(c) && (outcome == Completed || outcome == Failed)
    ensures EndsIn(c, states, steps, t) && "e" in t.execs
    ensures t.execs["e"].state == if outcome == Completed then ExecCompleted else ExecFailed
  {
    var s;
    states, steps, s := FirstReports(c, outcome);
    t := LoopApplied(c, s, Finalizes(RaceLoop));
    TakeLoop(c, states, steps, s, Finalizes(RaceLoop), t);
    states, steps := states + [t], steps + [Loop(Finalizes(RaceLoop))];
    FinalizationTells(c, s, RaceLoop, "e");
    assert "j" in s.jobs;
  }
}
