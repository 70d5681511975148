/** Building runs step by step, and the run in which a recovering manager fails a whole plan. */
module ClusterRuns {

  import opened Wrappers
  import opened JobTable
  import opened ExecutionTable
  import opened Cluster
  import opened ClusterLeases

  /** A run, and the state it has come to. */
  ghost predicate EndsIn(c: Config, states: seq<State>, steps: seq<Step>, s: State) {
    IsRun(c, states, steps) && states[|steps|] == s
  }

  lemma Appended(c: Config, states: seq<State>, steps: seq<Step>, step: Step)
    requires IsRun(c, states, steps) && Enabled(c, states[|steps|], step)
    ensures IsRun(c, states + [Apply(c, states[|steps|], step)], steps + [step])
  {
    var more, taken := states + [Apply(c, states[|steps|], step)], steps + [step];
    forall i | 0 <= i < |taken|
      ensures Follows(c, more, taken, i)
    {
      assert i < |steps| ==> Follows(c, states, steps, i);
    }
  }

  lemma TakePlan(c: Config, states: seq<State>, steps: seq<Step>, s: State, q: PlanStep, after: State)
    requires EndsIn(c, states, steps, s) && PlanEnabled(c, s, q) && PlanApplied(c, s, q) == after
    ensures EndsIn(c, states + [after], steps + [Plan(q)], after)
  {
    Appended(c, states, steps, Plan(q));
  }

  lemma TakeRecovery(c: Config, states: seq<State>, steps: seq<Step>, s: State, q: RecoveryStep, after: State)
    requires EndsIn(c, states, steps, s) && RecoveryEnabled(c, s, q) && RecoveryApplied(c, s, q) == after
    ensures EndsIn(c, states + [after], steps + [Recover(q)], after)
  {
    Appended(c, states, steps, Recover(q));
  }

  lemma TakeOperator(c: Config, states: seq<State>, steps: seq<Step>, s: State, q: OperatorStep, after: State)
    requires EndsIn(c, states, steps, s) && OperatorEnabled(c, s, q) && OperatorApplied(c, s, q) == after
    ensures EndsIn(c, states + [after], steps + [Operate(q)], after)
  {
    Appended(c, states, steps, Operate(q));
  }

  lemma TakeTick(c: Config, states: seq<State>, steps: seq<Step>, s: State, elapsed: nat)
    requires EndsIn(c, states, steps, s)
    ensures EndsIn(c, states + [s.(clock := s.clock + elapsed)], steps + [Tick(elapsed)],
                   s.(clock := s.clock + elapsed))
  {
    Appended(c, states, steps, Tick(elapsed));
  }

  // ----- the recovery race -----

  /** The planner `p` has saved its whole plan and owns the lease; the recovery `r` has just looked. */
  ghost predicate JustLooked(c: Config, s: State, e: ExecId, p: DriverId, r: DriverId, l: DriverId) {
    && p.PlannerId? && r.RecoveryId? && l.LoopId? && l !in s.actors
    && IsActor(s, p, e) && PhaseOf(s, p) == Planning([])
    && IsActor(s, r, e) && s.actors[r] == Actor(e, None, Looking)
    && s.execs[e].driver == Some(p) && !s.execs[e].planComplete
    && s.clock - s.execs[e].createdAt >= c.driverLease
  }

  /** The execution is failed as abandoned, its plan whole, with the recovery's lease fresh and the loop standing by. */
  ghost predicate WronglyFailed(c: Config, s: State, e: ExecId, r: DriverId, l: DriverId) {
    && e in s.execs && s.execs[e].planComplete && s.execs[e].state == ExecFailed && Fresh(c, s, r)
    && IsActor(s, l, e) && PhaseOf(s, l) == Standby
  }

  lemma PlannerFinishes(
      c: Config, states: seq<State>, steps: seq<Step>, s: State, e: ExecId, p: DriverId, r: DriverId, l: DriverId)
    returns (more: seq<State>, taken: seq<Step>, t: State)
    requires EndsIn(c, states, steps, s) && JustLooked(c, s, e, p, r, l)
    ensures EndsIn(c, more, taken, t) && taken == steps + [Plan(PlannerCompletes(p)), Plan(PlannerHandsOver(p, l))]
    ensures t.execs == s.execs[e := s.execs[e].(planComplete := true, driver := None, heartbeatAt := None)]
    ensures t.jobs == s.jobs && t.clock == s.clock
    ensures t.actors == (s.actors - {p})[l := Actor(e, None, Standby)]
  {
    var whole := PlanApplied(c, s, PlannerCompletes(p));
    TakePlan(c, states, steps, s, PlannerCompletes(p), whole);
    more, taken := states + [whole], steps + [Plan(PlannerCompletes(p))];
    t := PlanApplied(c, whole, PlannerHandsOver(p, l));
    assert t.actors == (s.actors - {p})[l := Actor(e, None, Standby)];
    TakePlan(c, more, taken, whole, PlannerHandsOver(p, l), t);
    more, taken := more + [t], taken + [Plan(PlannerHandsOver(p, l))];
  }

  /** From any such moment the run can go on to fail the whole plan: four steps, and every clock right. */
  lemma LookedTooEarly(
      c: Config, states: seq<State>, steps: seq<Step>, s: State, e: ExecId, p: DriverId, r: DriverId, l: DriverId)
    returns (more: seq<State>, taken: seq<Step>, t: State)
    requires EndsIn(c, states, steps, s) && JustLooked(c, s, e, p, r, l)
    ensures EndsIn(c, more, taken, t) && WronglyFailed(c, t, e, r, l) && t.jobs == s.jobs
    ensures taken == steps + [Plan(PlannerCompletes(p)), Plan(PlannerHandsOver(p, l)),
                              Recover(RecoveryClaims(r, s.clock)), Recover(RecoveryCondemns(r))]
  {
    var free;
    more, taken, free := PlannerFinishes(c, states, steps, s, e, p, r, l);
    var owned := RecoveryApplied(c, free, RecoveryClaims(r, s.clock));
    TakeRecovery(c, more, taken, free, RecoveryClaims(r, s.clock), owned);
    more, taken := more + [owned], taken + [Recover(RecoveryClaims(r, s.clock))];
    t := RecoveryApplied(c, owned, RecoveryCondemns(r));
    TakeRecovery(c, more, taken, owned, RecoveryCondemns(r), t);
    more, taken := more + [t], taken + [Recover(RecoveryCondemns(r))];
  }

  // A run that gets there: execution "e" plans the one job "j"; its planner and loop are on host "a",
  // the recovery on host "b".

  const RacePlanner := PlannerId("a", 0)
  const RaceLoop := LoopId("a", 0)
  const RaceRecovery := RecoveryId("b", 0)

  ghost function Racing(saved: bool, row: Execution, phase: Phase, lastOk: Option<Time>, clock: Time): State {
    State(if saved then map["j" := NewRow("e", 1, 0)] else map[], map["e" := row],
          map[RacePlanner := Actor("e", lastOk, phase)], {}, multiset{}, clock, map["e" := {"j"}], {}, multiset{})
  }

  ghost function LeasedRow(): Execution {
    Owned(NewExecution(0), RacePlanner, 0)
  }

  ghost function RunningRow(): Execution {
    PutState(LeasedRow(), ExecRunning, None, 0)
  }

  lemma RaceStarts(c: Config) returns (states: seq<State>, steps: seq<Step>)
    ensures EndsIn(c, states, steps, Racing(false, LeasedRow(), Starting(["j"]), Some(0), 0))
  {
    var accepted := Racing(false, NewExecution(0), Accepted(["j"]), None, 0);
    assert (set j: JobId | j in ["j"]) == {"j"};
    assert PlanApplied(c, Empty, Accept("e", RacePlanner, ["j"])) == accepted;
    assert EndsIn(c, [Empty], [], Empty);
    TakePlan(c, [Empty], [], Empty, Accept("e", RacePlanner, ["j"]), accepted);
    states, steps := [Empty] + [accepted], [] + [Plan(Accept("e", RacePlanner, ["j"]))];
    var claimed := Racing(false, LeasedRow(), Starting(["j"]), Some(0), 0);
    assert PlanApplied(c, accepted, PlannerClaims(RacePlanner, 0, true)) == claimed;
    TakePlan(c, states, steps, accepted, PlannerClaims(RacePlanner, 0, true), claimed);
    states, steps := states + [claimed], steps + [Plan(PlannerClaims(RacePlanner, 0, true))];
  }

  lemma RaceSaves(c: Config) returns (states: seq<State>, steps: seq<Step>)
    ensures EndsIn(c, states, steps, Racing(true, RunningRow(), Planning([]), Some(0), 0))
  {
    states, steps := RaceStarts(c);
    var claimed := Racing(false, LeasedRow(), Starting(["j"]), Some(0), 0);
    var running := Racing(false, RunningRow(), Planning(["j"]), Some(0), 0);
    assert PlanApplied(c, claimed, PlannerMarksRunning(RacePlanner)) == running;
    TakePlan(c, states, steps, claimed, PlannerMarksRunning(RacePlanner), running);
    states, steps := states + [running], steps + [Plan(PlannerMarksRunning(RacePlanner))];
    var saved := Racing(true, RunningRow(), Planning([]), Some(0), 0);
    var ids := set i | 0 <= i < 1 :: ["j"][i];
    assert ["j"][0] in ids && ids == {"j"} && ["j"][1..] == [];
    assert PlanApplied(c, running, PlannerSaves(RacePlanner, 1, 1)).jobs == saved.jobs;
    TakePlan(c, states, steps, running, PlannerSaves(RacePlanner, 1, 1), saved);
    states, steps := states + [saved], steps + [Plan(PlannerSaves(RacePlanner, 1, 1))];
  }

  lemma RaceIsLookedAt(c: Config) returns (states: seq<State>, steps: seq<Step>, s: State)
    ensures EndsIn(c, states, steps, s) && JustLooked(c, s, "e", RacePlanner, RaceRecovery, RaceLoop)
    ensures IsPending(s.jobs, "e", "j") && s.planned == map["e" := {"j"}] && Fresh(c, s, RacePlanner)
  {
    states, steps := RaceSaves(c);
    var saved := Racing(true, RunningRow(), Planning([]), Some(0), 0);
    var late := saved.(clock := c.driverLease);
    TakeTick(c, states, steps, saved, c.driverLease);
    states, steps := states + [late], steps + [Tick(c.driverLease)];
    s := late.(actors := late.actors[RaceRecovery := Actor("e", None, Looking)]);
    TakeRecovery(c, states, steps, late, RecoveryLooks("e", RaceRecovery), s);
    states, steps := states + [s], steps + [Recover(RecoveryLooks("e", RaceRecovery))];
  }

  /**
    Under any configuration there is such a run. When the recovery looks, the planner's lease is
    fresh and the one job of the plan is saved and pending; the planner finishes and frees its
    lease, and the recovery claims it and fails the execution as abandoned.
   */
  lemma RecoveryCanFailAWholePlan(c: Config) returns (states: seq<State>, steps: seq<Step>, t: State)
    ensures EndsIn(c, states, steps, t) && WronglyFailed(c, t, "e", RaceRecovery, RaceLoop)
    ensures |steps| >= 2 && steps[|steps| - 1] == Recover(RecoveryCondemns(RaceRecovery))
    ensures IsPending(t.jobs, "e", "j")
  {
    var looked;
    states, steps, looked := RaceIsLookedAt(c);
    states, steps, t := LookedTooEarly(c, states, steps, looked, "e", RacePlanner, RaceRecovery, RaceLoop);
  }
}
