/**
  The driver lease over whole runs: at most one actor with a fresh lease per execution, and what
  that does and does not protect.
 */
module ClusterLeases {

  import opened Wrappers
  import opened JobTable
  import opened ExecutionTable
  import opened Cluster

  /** The actor's last successful claim or heartbeat is no older than the lease. */
  predicate Fresh(c: Config, s: State, a: DriverId) {
    Known(s, a) && s.actors[a].lastOk.Some? && s.clock - s.actors[a].lastOk.value <= c.driverLease
  }

  predicate Named(s: State, a: DriverId)
    requires Known(s, a)
  {
    RowOf(s, a).driver == Some(a) && RowOf(s, a).heartbeatAt == s.actors[a].lastOk
  }

  ghost predicate LeaseInv(c: Config, s: State) {
    && (forall a | a in s.actors :: Known(s, a))
    && (forall a | Fresh(c, s, a) :: Named(s, a))
  }

  /** The step wrote no lease column and no reading; whoever appeared has not claimed yet. */
  ghost predicate LeasesUntouched(s: State, t: State) {
    && s.execs.Keys <= t.execs.Keys && s.clock <= t.clock
    && (forall e | e in s.execs ::
          t.execs[e].driver == s.execs[e].driver && t.execs[e].heartbeatAt == s.execs[e].heartbeatAt)
    && (forall a | a in t.actors ::
          if a in s.actors then t.actors[a].(phase := s.actors[a].phase) == s.actors[a]
          else t.actors[a].lastOk.None? && t.actors[a].exec in t.execs)
  }

  lemma UntouchedKept(c: Config, s: State, t: State)
    requires LeaseInv(c, s) && LeasesUntouched(s, t)
    ensures LeaseInv(c, t)
  {
    forall a | a in t.actors
      ensures Known(t, a) && (Fresh(c, t, a) ==> Named(t, a))
    {
      assert a in s.actors ==> Known(s, a) && (Fresh(c, t, a) ==> Fresh(c, s, a));
    }
  }

  lemma TakeLeaseKept(c: Config, s: State, a: DriverId, at: Time, next: Phase)
    requires LeaseInv(c, s) && Known(s, a) && at <= s.clock && CanClaim(RowOf(s, a), a, c.driverLease, at)
    ensures LeaseInv(c, TakeLease(s, a, at, next))
  {
    var t := TakeLease(s, a, at, next);
    forall b | b in t.actors
      ensures Known(t, b) && (Fresh(c, t, b) ==> Named(t, b))
    {
      assert Known(s, b);
      if b != a && Fresh(c, s, b) {
        assert Named(s, b);
        assert ExecOf(s, b) != ExecOf(s, a);
      }
    }
  }

  lemma LeaveKept(c: Config, s: State, a: DriverId)
    requires LeaseInv(c, s) && Known(s, a)
    ensures LeaseInv(c, Leave(s, a))
  {
    var t := Leave(s, a);
    forall b | b in t.actors
      ensures Known(t, b) && (Fresh(c, t, b) ==> Named(t, b))
    {
      assert Known(s, b);
      assert Fresh(c, s, b) ==> Named(s, b);
    }
  }

  lemma PlanStepKept(c: Config, s: State, q: PlanStep)
    requires PlanEnabled(c, s, q) && LeaseInv(c, s)
    ensures LeaseInv(c, PlanApplied(c, s, q))
  {
    var t := PlanApplied(c, s, q);
    match q {
      case PlannerClaims(p, at, reachable) =>
        if reachable && CanClaim(RowOf(s, p), p, c.driverLease, at) {
          TakeLeaseKept(c, s, p, at, Starting(PhaseOf(s, p).plan));
        } else {
          UntouchedKept(c, s, t);
        }
      case PlannerAborts(p) =>
        LeaveKept(c, s, p);
        UntouchedKept(c, Leave(s, p), t);
      case PlannerHandsOver(p, l) =>
        LeaveKept(c, s, p);
        UntouchedKept(c, Leave(s, p), t);
      case PlannerRaises(p) => LeaveKept(c, s, p);
      case Accept(_, _, _) => UntouchedKept(c, s, t);
      case PlannerMarksRunning(p) => UntouchedKept(c, s, t);
      case PlannerSaves(p, n, batch) => UntouchedKept(c, s, t);
      case PlannerCompletes(p) => UntouchedKept(c, s, t);
    }
  }

  lemma LoopStepKept(c: Config, s: State, q: LoopStep)
    requires LoopEnabled(c, s, q) && LeaseInv(c, s)
    ensures LeaseInv(c, LoopApplied(c, s, q))
  {
    var t := LoopApplied(c, s, q);
    match q {
      case LoopClaims(l, at) =>
        if CanClaim(RowOf(s, l), l, c.driverLease, at) {
          TakeLeaseKept(c, s, l, at, Driving);
        }
      case LoopGivesUp(l) => LeaveKept(c, s, l);
      case LoopStops(l) => LeaveKept(c, s, l);
      case Finalizes(l) =>
        var settled := PutState(RowOf(s, l), FinalState(s.jobs, ExecOf(s, l)), None, s.clock);
        var m := SetRow(s, ExecOf(s, l), settled);
        UntouchedKept(c, s, m);
        LeaveKept(c, m, l);
      case Resume(_, _) => UntouchedKept(c, s, t);
      case CountsJobs(l) => UntouchedKept(c, s, t);
      case FetchesJobs(l, page) => UntouchedKept(c, s, t);
      case BatchEnds(l) => UntouchedKept(c, s, t);
    }
  }

  lemma SendStepKept(c: Config, s: State, q: SendStep)
    requires SendEnabled(c, s, q) && LeaseInv(c, s)
    ensures LeaseInv(c, SendApplied(c, s, q))
  {
    UntouchedKept(c, s, SendApplied(c, s, q));
  }

  lemma SweepStepKept(c: Config, s: State, q: SweepStep)
    requires SweepEnabled(c, s, q) && LeaseInv(c, s)
    ensures LeaseInv(c, SweepApplied(c, s, q))
  {
    UntouchedKept(c, s, SweepApplied(c, s, q));
  }

  lemma OperatorStepKept(c: Config, s: State, q: OperatorStep)
    requires OperatorEnabled(c, s, q) && LeaseInv(c, s)
    ensures LeaseInv(c, OperatorApplied(c, s, q))
  {
    UntouchedKept(c, s, OperatorApplied(c, s, q));
  }

  lemma WorkerStepKept(c: Config, s: State, q: WorkerStep)
    requires WorkerEnabled(c, s, q) && LeaseInv(c, s)
    ensures LeaseInv(c, WorkerApplied(c, s, q))
  {
    UntouchedKept(c, s, WorkerApplied(c, s, q));
  }

  lemma RecoveryStepKept(c: Config, s: State, q: RecoveryStep)
    requires RecoveryEnabled(c, s, q) && LeaseInv(c, s)
    ensures LeaseInv(c, RecoveryApplied(c, s, q))
  {
    var t := RecoveryApplied(c, s, q);
    match q {
      case RecoveryClaims(r, at) =>
        if CanClaim(RowOf(s, r), r, c.driverLease, at) {
          TakeLeaseKept(c, s, r, at, Condemning);
        } else {
          UntouchedKept(c, s, t);
        }
      case RecoveryLeaves(r) => LeaveKept(c, s, r);
      case RecoveryLooks(e, r) => UntouchedKept(c, s, t);
      case RecoveryCondemns(r) => UntouchedKept(c, s, t);
    }
  }

  lemma HolderStepKept(c: Config, s: State, q: HolderStep)
    requires HolderEnabled(c, s, q) && LeaseInv(c, s)
    ensures LeaseInv(c, HolderApplied(c, s, q))
  {
    var t := HolderApplied(c, s, q);
    match q {
      case Heartbeat(a, at) =>
        if RowOf(s, a).driver == Some(a) {
          TakeLeaseKept(c, s, a, at, PhaseOf(s, a));
        } else {
          UntouchedKept(c, s, t);
        }
      case Crash(a) => UntouchedKept(c, s, t);
      case FreeHost(host) =>
        forall b | b in t.actors
          ensures Known(t, b) && (Fresh(c, t, b) ==> Named(t, b))
        {
          assert Known(s, b);
          assert Fresh(c, s, b) ==> Named(s, b);
        }
    }
  }

  lemma LeaseInvKept(c: Config, s: State, step: Step)
    requires Enabled(c, s, step) && LeaseInv(c, s)
    ensures LeaseInv(c, Apply(c, s, step))
  {
    match step {
      case Plan(q) => PlanStepKept(c, s, q);
      case Loop(q) => LoopStepKept(c, s, q);
      case Recover(q) => RecoveryStepKept(c, s, q);
      case Hold(q) => HolderStepKept(c, s, q);
      case Send(q) => SendStepKept(c, s, q);
      case Sweep(q) => SweepStepKept(c, s, q);
      case Operate(q) => OperatorStepKept(c, s, q);
      case Work(q) => WorkerStepKept(c, s, q);
      case Tick(elapsed) => UntouchedKept(c, s, s.(clock := s.clock + elapsed));
    }
  }

  lemma {:induction false} LeaseInvAlways(c: Config, states: seq<State>, steps: seq<Step>, i: nat)
    requires IsRun(c, states, steps) && i < |states|
    ensures LeaseInv(c, states[i])
  {
    if i > 0 {
      LeaseInvAlways(c, states, steps, i - 1);
      assert Follows(c, states, steps, i - 1);
      LeaseInvKept(c, states[i - 1], steps[i - 1]);
    }
  }

  /**
    Single driver. However planners, loops, recoveries, crashes and host restarts interleave, a
    fresh lease means the row names that actor, so two fresh leases on one execution are one.
   */
  lemma SingleDriver(c: Config, states: seq<State>, steps: seq<Step>, i: nat, a: DriverId, b: DriverId)
    requires IsRun(c, states, steps) && i < |states|
    requires Fresh(c, states[i], a) && Fresh(c, states[i], b)
    requires ExecOf(states[i], a) == ExecOf(states[i], b)
    ensures a == b
    ensures RowOf(states[i], a).driver == Some(a)
  {
    LeaseInvAlways(c, states, steps, i);
    assert Named(states[i], a) && Named(states[i], b);
  }

  /** No time passes, and the actor's last reading is kept or renewed. */
  ghost predicate ReadingKept(s: State, t: State, a: DriverId) {
    && t.clock == s.clock
    && (a in s.actors && a in t.actors && s.actors[a].lastOk.Some? ==>
          t.actors[a].lastOk.Some? && s.actors[a].lastOk.value <= t.actors[a].lastOk.value)
  }

  lemma PlanKeepsReading(c: Config, s: State, q: PlanStep, a: DriverId)
    requires PlanEnabled(c, s, q)
    ensures ReadingKept(s, PlanApplied(c, s, q), a)
  {
  }

  lemma LoopKeepsReading(c: Config, s: State, q: LoopStep, a: DriverId)
    requires LoopEnabled(c, s, q)
    ensures ReadingKept(s, LoopApplied(c, s, q), a)
  {
  }

  lemma RecoveryKeepsReading(c: Config, s: State, q: RecoveryStep, a: DriverId)
    requires RecoveryEnabled(c, s, q)
    ensures ReadingKept(s, RecoveryApplied(c, s, q), a)
  {
  }

  lemma SendKeepsReading(c: Config, s: State, q: SendStep, a: DriverId)
    requires SendEnabled(c, s, q)
    ensures ReadingKept(s, SendApplied(c, s, q), a)
  {
  }

  lemma SweepKeepsReading(c: Config, s: State, q: SweepStep, a: DriverId)
    requires SweepEnabled(c, s, q)
    ensures ReadingKept(s, SweepApplied(c, s, q), a)
  {
  }

  lemma HolderKeepsReading(c: Config, s: State, q: HolderStep, a: DriverId)
    requires HolderEnabled(c, s, q)
    ensures ReadingKept(s, HolderApplied(c, s, q), a)
  {
  }

  lemma OperatorKeepsReading(c: Config, s: State, q: OperatorStep, a: DriverId)
    requires OperatorEnabled(c, s, q)
    ensures ReadingKept(s, OperatorApplied(c, s, q), a)
  {
  }

  lemma WorkerKeepsReading(c: Config, s: State, q: WorkerStep, a: DriverId)
    requires WorkerEnabled(c, s, q)
    ensures ReadingKept(s, WorkerApplied(c, s, q), a)
  {
  }

  lemma StepKeepsReading(c: Config, s: State, step: Step, a: DriverId)
    requires Enabled(c, s, step) && !step.Tick?
    ensures ReadingKept(s, Apply(c, s, step), a)
  {
    match step {
      case Plan(q) => PlanKeepsReading(c, s, q, a);
      case Loop(q) => LoopKeepsReading(c, s, q, a);
      case Recover(q) => RecoveryKeepsReading(c, s, q, a);
      case Send(q) => SendKeepsReading(c, s, q, a);
      case Sweep(q) => SweepKeepsReading(c, s, q, a);
      case Hold(q) => HolderKeepsReading(c, s, q, a);
      case Operate(q) => OperatorKeepsReading(c, s, q, a);
      case Work(q) => WorkerKeepsReading(c, s, q, a);
    }
  }

  lemma OwnerStaysFresh(c: Config, s: State, step: Step, a: DriverId)
    requires LeaseInv(c, s) && Enabled(c, s, step) && !step.Tick?
    requires Fresh(c, s, a) && a in Apply(c, s, step).actors
    ensures Fresh(c, Apply(c, s, step), a) && RowOf(Apply(c, s, step), a).driver == Some(a)
  {
    LeaseInvKept(c, s, step);
    StepKeepsReading(c, s, step, a);
    StaysFresh(c, s, Apply(c, s, step), a);
  }

  lemma StaysFresh(c: Config, s: State, t: State, a: DriverId)
    requires LeaseInv(c, t) && Fresh(c, s, a) && a in t.actors && ReadingKept(s, t, a)
    ensures Fresh(c, t, a) && RowOf(t, a).driver == Some(a)
  {
    assert Known(t, a) && Fresh(c, t, a);
    assert Named(t, a);
  }

  /**
    Nobody takes a fresh lease away: a former owner that leaves late, a rival claim and a host
    restart all leave the row naming its fresh owner, until the owner itself goes or time passes.
   */
  lemma FreshOwnerKeepsLease(c: Config, states: seq<State>, steps: seq<Step>, i: nat, a: DriverId)
    requires IsRun(c, states, steps) && i < |steps|
    requires Fresh(c, states[i], a) && a in states[i + 1].actors && !steps[i].Tick?
    ensures Fresh(c, states[i + 1], a) && RowOf(states[i + 1], a).driver == Some(a)
  {
    LeaseInvAlways(c, states, steps, i);
    assert Follows(c, states, steps, i);
    OwnerStaysFresh(c, states[i], steps[i], a);
  }

  /** A recovery that writes its verdict within its own lease never fails an execution whose planner is live. */
  lemma RecoverySparesLivePlanner(c: Config, states: seq<State>, steps: seq<Step>, i: nat, r: DriverId, p: DriverId)
    requires IsRun(c, states, steps) && i < |steps|
    requires steps[i] == Recover(RecoveryCondemns(r)) && Fresh(c, states[i], r)
    requires Known(states[i], p) && p.PlannerId? && ExecOf(states[i], p) == ExecOf(states[i], r) && r.RecoveryId?
    ensures !Fresh(c, states[i], p)
  {
    if Fresh(c, states[i], p) {
      SingleDriver(c, states, steps, i, p, r);
    }
  }

  // ----- the recovery race -----

  predicate Completes(s: State, step: Step, e: ExecId) {
    step.Plan? && step.plan.PlannerCompletes? && IsActor(s, step.plan.p, e)
  }

  lemma PlanStepsAndPlanComplete(c: Config, s: State, q: PlanStep, e: ExecId)
    requires PlanEnabled(c, s, q) && e in s.execs
    ensures e in PlanApplied(c, s, q).execs
    ensures PlanApplied(c, s, q).execs[e].planComplete <==> s.execs[e].planComplete || Completes(s, Plan(q), e)
  {
  }

  lemma LoopStepsAndPlanComplete(c: Config, s: State, q: LoopStep, e: ExecId)
    requires LoopEnabled(c, s, q) && e in s.execs
    ensures e in LoopApplied(c, s, q).execs
    ensures LoopApplied(c, s, q).execs[e].planComplete == s.execs[e].planComplete
  {
  }

  lemma RecoveryStepsAndPlanComplete(c: Config, s: State, q: RecoveryStep, e: ExecId)
    requires RecoveryEnabled(c, s, q) && e in s.execs
    ensures e in RecoveryApplied(c, s, q).execs
    ensures RecoveryApplied(c, s, q).execs[e].planComplete == s.execs[e].planComplete
  {
  }

  lemma HolderStepsAndPlanComplete(c: Config, s: State, q: HolderStep, e: ExecId)
    requires HolderEnabled(c, s, q) && e in s.execs
    ensures e in HolderApplied(c, s, q).execs
    ensures HolderApplied(c, s, q).execs[e].planComplete == s.execs[e].planComplete
  {
  }

  lemma OperatorStepsAndPlanComplete(c: Config, s: State, q: OperatorStep, e: ExecId)
    requires OperatorEnabled(c, s, q) && e in s.execs
    ensures e in OperatorApplied(c, s, q).execs
    ensures OperatorApplied(c, s, q).execs[e].planComplete == s.execs[e].planComplete
  {
  }

  lemma SendKeepsExecs(c: Config, s: State, q: SendStep)
    requires SendEnabled(c, s, q)
    ensures SendApplied(c, s, q).execs == s.execs
  {
  }

  lemma SweepKeepsExecs(c: Config, s: State, q: SweepStep)
    requires SweepEnabled(c, s, q)
    ensures SweepApplied(c, s, q).execs == s.execs
  {
  }

  lemma WorkerKeepsExecs(c: Config, s: State, q: WorkerStep)
    requires WorkerEnabled(c, s, q)
    ensures WorkerApplied(c, s, q).execs == s.execs
  {
  }

  lemma PlanCompleteOnlyByItsPlanner(c: Config, s: State, step: Step, e: ExecId)
    requires Enabled(c, s, step) && e in s.execs
    ensures e in Apply(c, s, step).execs
    ensures Apply(c, s, step).execs[e].planComplete <==> s.execs[e].planComplete || Completes(s, step, e)
  {
    match step {
      case Plan(q) => PlanStepsAndPlanComplete(c, s, q, e);
      case Loop(q) => LoopStepsAndPlanComplete(c, s, q, e);
      case Recover(q) => RecoveryStepsAndPlanComplete(c, s, q, e);
      case Hold(q) => HolderStepsAndPlanComplete(c, s, q, e);
      case Operate(q) => OperatorStepsAndPlanComplete(c, s, q, e);
      case Send(q) => SendKeepsExecs(c, s, q);
      case Sweep(q) => SweepKeepsExecs(c, s, q);
      case Work(q) => WorkerKeepsExecs(c, s, q);
      case Tick(_) =>
    }
  }

  lemma {:induction false} PlanCompleteBetween(
      c: Config, states: seq<State>, steps: seq<Step>, k: nat, i: nat, e: ExecId)
    requires IsRun(c, states, steps) && k <= i < |states| && e in states[k].execs
    ensures e in states[i].execs
    ensures states[i].execs[e].planComplete <==>
              states[k].execs[e].planComplete || exists m | k <= m < i :: Completes(states[m], steps[m], e)
  {
    if k < i {
      PlanCompleteBetween(c, states, steps, k, i - 1, e);
      assert Follows(c, states, steps, i - 1);
      PlanCompleteOnlyByItsPlanner(c, states[i - 1], steps[i - 1], e);
    }
  }

  /** The planner completes although its own lease has run out. */
  predicate CompletesLate(c: Config, s: State, step: Step, e: ExecId) {
    Completes(s, step, e) && !Fresh(c, s, step.plan.p)
  }

  /**
    A recovery reads `plan_complete`, then claims the lease, and never reads it again. For one that
    writes its verdict within its lease, the plan it fails is whole exactly if it was so when the
    lease was claimed, or a planner completed after that on an expired lease of its own. The first
    means the planner finished between the look and the claim; reading again under the lease would
    catch it, and that closes the race if and only if no planner completes late.
   */
  lemma WhenRecoveryFailsAWholePlan(
      c: Config, states: seq<State>, steps: seq<Step>, looked: nat, claimed: nat, i: nat, e: ExecId, r: DriverId,
      at: Time)
    requires IsRun(c, states, steps) && looked < claimed < i < |steps|
    requires steps[looked] == Recover(RecoveryLooks(e, r)) && steps[claimed] == Recover(RecoveryClaims(r, at))
    requires steps[i] == Recover(RecoveryCondemns(r))
    requires forall m | claimed < m <= i :: Fresh(c, states[m], r) && ExecOf(states[m], r) == e
    ensures e in states[claimed].execs && e in states[i + 1].execs && states[i + 1].execs[e].state == ExecFailed
    ensures states[i + 1].execs[e].planComplete <==>
              || states[claimed].execs[e].planComplete
              || exists m | claimed < m < i :: CompletesLate(c, states[m], steps[m], e)
    ensures states[claimed].execs[e].planComplete <==>
              exists m | looked < m < claimed :: Completes(states[m], steps[m], e)
  {
    assert Follows(c, states, steps, looked) && Follows(c, states, steps, i);
    PlanCompleteBetween(c, states, steps, looked, claimed, e);
    PlanCompleteBetween(c, states, steps, claimed, i, e);
    assert !Completes(states[looked], steps[looked], e) && !Completes(states[claimed], steps[claimed], e);
    assert Fresh(c, states[i], r);
    forall m | claimed < m < i && Completes(states[m], steps[m], e)
      ensures CompletesLate(c, states[m], steps[m], e)
    {
      assert Fresh(c, states[m], r);
      CompletingPlannerIsLate(c, states, steps, m, e, r);
    }
  }

  lemma CompletingPlannerIsLate(c: Config, states: seq<State>, steps: seq<Step>, m: nat, e: ExecId, r: DriverId)
    requires IsRun(c, states, steps) && m < |steps| && Completes(states[m], steps[m], e)
    requires r.RecoveryId? && Fresh(c, states[m], r) && ExecOf(states[m], r) == e
    ensures CompletesLate(c, states[m], steps[m], e)
  {
    assert Follows(c, states, steps, m);
    if Fresh(c, states[m], steps[m].plan.p) {
      SingleDriver(c, states, steps, m, steps[m].plan.p, r);
    }
  }
}
