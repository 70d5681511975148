/**
  What whole runs promise about a job's starts: no second one without a requeue, and a bound on
  the attempts between two retries.
 */
module ClusterJobs {

  import opened JobTable
  import opened ExecutionTable
  import opened Cluster

  // ===== no second start without a requeue =====

  /** A worker's claim of this job succeeds. */
  predicate Claims(s: State, step: Step, j: JobId) {
    && step.Work? && step.worker.WorkerClaims? && step.worker.j == j
    && j in s.jobs && Unstarted(s.jobs[j])
  }

  /** The step puts a started job back in the queue: its running lease ran out, or it failed and is retried. */
  predicate Requeues(s: State, step: Step, j: JobId) {
    && j in s.jobs
    && (|| Retries(s, step, j)
        || (&& step.Sweep? && step.sweep.SweepRequeuesRunning?
            && step.sweep.l in s.actors && PhaseOf(s, step.sweep.l).SweptLost?
            && StaleRunning(s.jobs[j], ExecOf(s, step.sweep.l), PhaseOf(s, step.sweep.l).runningCutoff)))
  }

  predicate Retries(s: State, step: Step, j: JobId) {
    && j in s.jobs && step.Operate? && step.operator.RetryJobs?
    && Retryable(s.jobs[j], step.operator.e, step.operator.errorContains)
  }

  predicate Begun(s: State, j: JobId) {
    j in s.jobs && !Unstarted(s.jobs[j])
  }

  lemma PlanKeepsBegun(c: Config, s: State, q: PlanStep, j: JobId)
    requires PlanEnabled(c, s, q) && Begun(s, j)
    ensures Begun(PlanApplied(c, s, q), j)
  {
  }

  lemma LoopKeepsJobs(c: Config, s: State, q: LoopStep)
    requires LoopEnabled(c, s, q)
    ensures LoopApplied(c, s, q).jobs == s.jobs
  {
  }

  lemma RecoveryKeepsJobs(c: Config, s: State, q: RecoveryStep)
    requires RecoveryEnabled(c, s, q)
    ensures RecoveryApplied(c, s, q).jobs == s.jobs
  {
  }

  lemma SendKeepsBegun(c: Config, s: State, q: SendStep, j: JobId)
    requires SendEnabled(c, s, q) && Begun(s, j)
    ensures Begun(SendApplied(c, s, q), j)
  {
  }

  lemma SweepKeepsBegun(c: Config, s: State, q: SweepStep, j: JobId)
    requires SweepEnabled(c, s, q) && Begun(s, j) && !Requeues(s, Sweep(q), j)
    ensures Begun(SweepApplied(c, s, q), j)
  {
  }

  lemma OperatorKeepsBegun(c: Config, s: State, q: OperatorStep, j: JobId)
    requires OperatorEnabled(c, s, q) && Begun(s, j) && !Requeues(s, Operate(q), j)
    ensures Begun(OperatorApplied(c, s, q), j)
  {
  }

  lemma WorkerKeepsBegun(c: Config, s: State, q: WorkerStep, j: JobId)
    requires WorkerEnabled(c, s, q) && Begun(s, j)
    ensures Begun(WorkerApplied(c, s, q), j)
  {
  }

  lemma HolderKeepsJobs(c: Config, s: State, q: HolderStep)
    requires HolderEnabled(c, s, q)
    ensures HolderApplied(c, s, q).jobs == s.jobs
  {
  }

  lemma BegunKept(c: Config, s: State, step: Step, j: JobId)
    requires Enabled(c, s, step) && Begun(s, j) && !Requeues(s, step, j)
    ensures Begun(Apply(c, s, step), j)
  {
    match step {
      case Plan(q) => PlanKeepsBegun(c, s, q, j);
      case Loop(q) => LoopKeepsJobs(c, s, q);
      case Recover(q) => RecoveryKeepsJobs(c, s, q);
      case Send(q) => SendKeepsBegun(c, s, q, j);
      case Sweep(q) => SweepKeepsBegun(c, s, q, j);
      case Operate(q) => OperatorKeepsBegun(c, s, q, j);
      case Work(q) => WorkerKeepsBegun(c, s, q, j);
      case Hold(q) => HolderKeepsJobs(c, s, q);
      case Tick(_) =>
    }
  }

  lemma {:induction false} BegunUntilRequeued(c: Config, states: seq<State>, steps: seq<Step>, i: nat, k: nat, j: JobId)
    requires IsRun(c, states, steps) && i < k <= |steps| && Claims(states[i], steps[i], j)
    requires forall m | i < m < k :: !Requeues(states[m], steps[m], j)
    ensures Begun(states[k], j)
    decreases k
  {
    assert Follows(c, states, steps, k - 1);
    if i + 1 < k {
      BegunUntilRequeued(c, states, steps, i, k - 1, j);
      BegunKept(c, states[k - 1], steps[k - 1], j);
    }
  }

  /**
    However messages are duplicated, redelivered or sent again, however late the loop marks a
    job or a worker reports: between two successful claims of one job lies a requeue of it.
   */
  lemma NoRestartWithoutRequeue(c: Config, states: seq<State>, steps: seq<Step>, i: nat, k: nat, j: JobId)
    requires IsRun(c, states, steps) && i < k < |steps|
    requires Claims(states[i], steps[i], j) && Claims(states[k], steps[k], j)
    ensures exists m :: i < m < k && Requeues(states[m], steps[m], j)
  {
    if forall m | i < m < k :: !Requeues(states[m], steps[m], j) {
      BegunUntilRequeued(c, states, steps, i, k, j);
    }
  }

  // ===== attempts =====

  predicate Bounded(c: Config, r: Job) {
    r.attempts <= c.maxAttempts && (Unstarted(r) ==> r.attempts < c.maxAttempts)
  }

  /** Nothing the sweep's second statement selects is out of attempts. */
  predicate SafeToRequeue(c: Config, s: State, a: DriverId)
    requires a in s.actors
  {
    PhaseOf(s, a).SweptLost? ==>
      && PhaseOf(s, a).runningCutoff <= s.clock - c.runningLease
      && forall j | j in s.jobs && StaleRunning(s.jobs[j], ExecOf(s, a), PhaseOf(s, a).runningCutoff) ::
           s.jobs[j].attempts < c.maxAttempts
  }

  ghost predicate AttemptInv(c: Config, s: State) {
    && (forall j | j in s.jobs :: Bounded(c, s.jobs[j]))
    && (forall a | a in s.actors :: SafeToRequeue(c, s, a))
  }

  lemma SweepKeepsAttemptInv(c: Config, s: State, q: SweepStep)
    requires SweepEnabled(c, s, q) && AttemptInv(c, s)
    ensures AttemptInv(c, SweepApplied(c, s, q))
  {
  }

  lemma WorkerKeepsAttemptInv(c: Config, s: State, q: WorkerStep)
    requires WorkerEnabled(c, s, q) && AttemptInv(c, s)
    ensures AttemptInv(c, WorkerApplied(c, s, q))
  {
  }

  lemma SendKeepsAttemptInv(c: Config, s: State, q: SendStep)
    requires SendEnabled(c, s, q) && AttemptInv(c, s)
    ensures AttemptInv(c, SendApplied(c, s, q))
  {
  }

  lemma OperatorKeepsAttemptInv(c: Config, s: State, q: OperatorStep)
    requires c.maxAttempts >= 1 && OperatorEnabled(c, s, q) && AttemptInv(c, s)
    ensures AttemptInv(c, OperatorApplied(c, s, q))
  {
  }

  lemma PlanKeepsAttemptInv(c: Config, s: State, q: PlanStep)
    requires c.maxAttempts >= 1 && PlanEnabled(c, s, q) && AttemptInv(c, s)
    ensures AttemptInv(c, PlanApplied(c, s, q))
  {
  }

  lemma LoopKeepsAttemptInv(c: Config, s: State, q: LoopStep)
    requires LoopEnabled(c, s, q) && AttemptInv(c, s)
    ensures AttemptInv(c, LoopApplied(c, s, q))
  {
  }

  lemma RecoveryKeepsAttemptInv(c: Config, s: State, q: RecoveryStep)
    requires RecoveryEnabled(c, s, q) && AttemptInv(c, s)
    ensures AttemptInv(c, RecoveryApplied(c, s, q))
  {
  }

  lemma HolderKeepsAttemptInv(c: Config, s: State, q: HolderStep)
    requires HolderEnabled(c, s, q) && AttemptInv(c, s)
    ensures AttemptInv(c, HolderApplied(c, s, q))
  {
  }

  lemma AttemptInvKept(c: Config, s: State, step: Step)
    requires c.maxAttempts >= 1 && Enabled(c, s, step) && AttemptInv(c, s)
    ensures AttemptInv(c, Apply(c, s, step))
  {
    match step {
      case Tick(_) =>
      case Plan(q) => PlanKeepsAttemptInv(c, s, q);
      case Loop(q) => LoopKeepsAttemptInv(c, s, q);
      case Send(q) => SendKeepsAttemptInv(c, s, q);
      case Sweep(q) => SweepKeepsAttemptInv(c, s, q);
      case Recover(q) => RecoveryKeepsAttemptInv(c, s, q);
      case Hold(q) => HolderKeepsAttemptInv(c, s, q);
      case Operate(q) => OperatorKeepsAttemptInv(c, s, q);
      case Work(q) => WorkerKeepsAttemptInv(c, s, q);
    }
  }

  lemma {:induction false} AttemptInvAlways(c: Config, states: seq<State>, steps: seq<Step>, i: nat)
    requires c.maxAttempts >= 1 && IsRun(c, states, steps) && i < |states|
    ensures AttemptInv(c, states[i])
  {
    if i > 0 {
      AttemptInvAlways(c, states, steps, i - 1);
      assert Follows(c, states, steps, i - 1);
      AttemptInvKept(c, states[i - 1], steps[i - 1]);
    }
  }

  /** No job is ever started more often than allowed, and a queued job has an attempt left. */
  lemma AttemptBound(c: Config, states: seq<State>, steps: seq<Step>, i: nat, j: JobId)
    requires c.maxAttempts >= 1 && IsRun(c, states, steps) && i < |states| && j in states[i].jobs
    ensures states[i].jobs[j].attempts <= c.maxAttempts
    ensures Unstarted(states[i].jobs[j]) ==> states[i].jobs[j].attempts < c.maxAttempts
  {
    AttemptInvAlways(c, states, steps, i);
    assert Bounded(c, states[i].jobs[j]);
  }

  // ===== claims between retries =====

  /** Successful claims of one job in the steps from `i` up to `k`. */
  ghost function ClaimCount(states: seq<State>, steps: seq<Step>, i: nat, k: nat, j: JobId): nat
    requires i <= k <= |steps| < |states|
    decreases k
  {
    if i == k then 0
    else ClaimCount(states, steps, i, k - 1, j) + if Claims(states[k - 1], steps[k - 1], j) then 1 else 0
  }

  ghost function AttemptsOf(s: State, j: JobId): nat {
    if j in s.jobs then s.jobs[j].attempts else 0
  }

  lemma PlanKeepsAttempts(c: Config, s: State, q: PlanStep, j: JobId)
    requires PlanEnabled(c, s, q)
    ensures AttemptsOf(PlanApplied(c, s, q), j) == AttemptsOf(s, j)
  {
  }

  lemma SendAndSweepKeepAttempts(c: Config, s: State, step: Step, j: JobId)
    requires (step.Send? && SendEnabled(c, s, step.send)) || (step.Sweep? && SweepEnabled(c, s, step.sweep))
    ensures AttemptsOf(Apply(c, s, step), j) == AttemptsOf(s, j)
  {
  }

  lemma OperatorKeepsAttempts(c: Config, s: State, q: OperatorStep, j: JobId)
    requires OperatorEnabled(c, s, q) && !Retries(s, Operate(q), j)
    ensures AttemptsOf(OperatorApplied(c, s, q), j) == AttemptsOf(s, j)
  {
  }

  lemma WorkerAttempts(c: Config, s: State, q: WorkerStep, j: JobId)
    requires WorkerEnabled(c, s, q)
    ensures AttemptsOf(WorkerApplied(c, s, q), j) == AttemptsOf(s, j) + if Claims(s, Work(q), j) then 1 else 0
  {
  }

  lemma OneStepAttempts(c: Config, s: State, step: Step, j: JobId)
    requires Enabled(c, s, step) && !Retries(s, step, j)
    ensures AttemptsOf(Apply(c, s, step), j) == AttemptsOf(s, j) + if Claims(s, step, j) then 1 else 0
  {
    match step {
      case Plan(q) => PlanKeepsAttempts(c, s, q, j);
      case Loop(q) => LoopKeepsJobs(c, s, q);
      case Send(q) => SendAndSweepKeepAttempts(c, s, step, j);
      case Sweep(q) => SendAndSweepKeepAttempts(c, s, step, j);
      case Recover(q) => RecoveryKeepsJobs(c, s, q);
      case Operate(q) => OperatorKeepsAttempts(c, s, q, j);
      case Work(q) => WorkerAttempts(c, s, q, j);
      case Tick(_) =>
      case Hold(_) =>
    }
  }

  lemma {:induction false} AttemptsCountClaims(
      c: Config, states: seq<State>, steps: seq<Step>, i: nat, k: nat, j: JobId)
    requires IsRun(c, states, steps) && i <= k <= |steps|
    requires forall m | i <= m < k :: !Retries(states[m], steps[m], j)
    ensures AttemptsOf(states[k], j) == AttemptsOf(states[i], j) + ClaimCount(states, steps, i, k, j)
    decreases k
  {
    if i < k {
      AttemptsCountClaims(c, states, steps, i, k - 1, j);
      assert Follows(c, states, steps, k - 1);
      OneStepAttempts(c, states[k - 1], steps[k - 1], j);
    }
  }

  /** Between two retries of a job, workers start it at most `maxAttempts` times. */
  lemma ClaimsBetweenRetries(c: Config, states: seq<State>, steps: seq<Step>, i: nat, k: nat, j: JobId)
    requires c.maxAttempts >= 1 && IsRun(c, states, steps) && i <= k <= |steps|
    requires forall m | i <= m < k :: !Retries(states[m], steps[m], j)
    ensures ClaimCount(states, steps, i, k, j) <= c.maxAttempts
  {
    AttemptsCountClaims(c, states, steps, i, k, j);
    if j in states[k].jobs {
      AttemptBound(c, states, steps, k, j);
    }
  }

  ghost function TotalClaims(states: seq<State>, steps: seq<Step>, i: nat, k: nat, js: seq<JobId>): nat
    requires i <= k <= |steps| < |states|
  {
    if js == [] then 0
    else TotalClaims(states, steps, i, k, js[..|js| - 1]) + ClaimCount(states, steps, i, k, js[|js| - 1])
  }

  /** While none of the jobs is retried, workers start them at most jobs * `maxAttempts` times in all. */
  lemma {:induction false} ClaimsOfAllJobs(
      c: Config, states: seq<State>, steps: seq<Step>, i: nat, k: nat, js: seq<JobId>)
    requires c.maxAttempts >= 1 && IsRun(c, states, steps) && i <= k <= |steps|
    requires forall j, m | j in js && i <= m < k :: !Retries(states[m], steps[m], j)
    ensures TotalClaims(states, steps, i, k, js) <= |js| * c.maxAttempts
  {
    if js != [] {
      var n := |js| - 1;
      assert js[n] in js && forall j | j in js[..n] :: j in js;
      ClaimsOfAllJobs(c, states, steps, i, k, js[..n]);
      ClaimsBetweenRetries(c, states, steps, i, k, js[n]);
      assert |js| * c.maxAttempts == n * c.maxAttempts + c.maxAttempts;
    }
  }
}
