/**
  Where the leases of the job protocol keep a job's attempts apart, the attempts over the record ledger
  come one at a time.
 */
module DedupLeases {

  import opened JobTable
  import opened Cluster
  import opened ClusterJobs
  import ContentDedup
  import DedupProtocol

  /** A job is put back in the queue while an attempt of it is alive. */
  predicate RequeuesLive(s: State, step: Step, j: JobId) {
    j in s.live && Requeues(s, step, j)
  }

  predicate Alone(s: State, j: JobId) {
    s.live[j] <= 1 && (j in s.live ==> Begun(s, j))
  }

  lemma PlanAddsNoAttempt(c: Config, s: State, q: PlanStep)
    requires PlanEnabled(c, s, q)
    ensures PlanApplied(c, s, q).live == s.live
  {
  }

  lemma SendAddsNoAttempt(c: Config, s: State, q: SendStep)
    requires SendEnabled(c, s, q)
    ensures SendApplied(c, s, q).live == s.live
  {
  }

  lemma LoopAddsNoAttempt(c: Config, s: State, q: LoopStep)
    requires LoopEnabled(c, s, q)
    ensures LoopApplied(c, s, q).live == s.live
  {
  }

  lemma OnlyWorkersAttempt(c: Config, s: State, step: Step)
    requires Enabled(c, s, step) && !step.Work?
    ensures Apply(c, s, step).live == s.live
  {
    match step {
      case Plan(q) => PlanAddsNoAttempt(c, s, q);
      case Send(q) => SendAddsNoAttempt(c, s, q);
      case Loop(q) => LoopAddsNoAttempt(c, s, q);
      case _ =>
    }
  }

  lemma WorkerStaysAlone(c: Config, s: State, q: WorkerStep, j: JobId)
    requires WorkerEnabled(c, s, q) && Alone(s, j)
    ensures Alone(WorkerApplied(c, s, q), j)
  {
    if Begun(s, j) {
      WorkerKeepsBegun(c, s, q, j);
    }
  }

  /** A job that is never put back while an attempt of it is alive has at most one, which has begun it. */
  lemma {:induction false} OneLiveAttempt(c: Config, states: seq<State>, steps: seq<Step>, n: nat, j: JobId)
    requires IsRun(c, states, steps) && n < |states|
    requires forall i | 0 <= i < n :: !RequeuesLive(states[i], steps[i], j)
    ensures Alone(states[n], j)
  {
    if n > 0 {
      OneLiveAttempt(c, states, steps, n - 1, j);
      var s, step := states[n - 1], steps[n - 1];
      assert Follows(c, states, steps, n - 1) && !RequeuesLive(s, step, j);
      if step.Work? {
        WorkerStaysAlone(c, s, step.worker, j);
      } else {
        OnlyWorkersAttempt(c, s, step);
        if j in s.live {
          BegunKept(c, s, step, j);
        }
      }
    }
  }

  /**
    The ledger's run `ledgers` goes with a run of the job protocol: at the moment `at[i]` of the latter the
    attempts of `ledgers[i]` are among those alive, and where one begins a worker has just claimed its job.
   */
  ghost predicate GoesWith(
      states: seq<State>, steps: seq<Step>, ledgers: seq<DedupProtocol.State>, taken: seq<DedupProtocol.Step>,
      at: seq<nat>)
  {
    && |at| == |taken| < |ledgers| && |states| == |steps| + 1
    && forall i | 0 <= i < |taken| :: GoesWithAt(states, steps, ledgers[i], taken[i], at[i])
  }

  ghost predicate GoesWithAt(
      states: seq<State>, steps: seq<Step>, ledger: DedupProtocol.State, step: DedupProtocol.Step, at: nat)
    requires |states| == |steps| + 1
  {
    && at < |steps|
    && (forall a | a in ledger.live :: ledger.live[a].job in states[at].live)
    && (step.Begins? ==> Claims(states[at], steps[at], step.j))
  }

  /** So a worker's claim finds no attempt of its job alive, and no attempt over the ledger is ever replaced. */
  lemma LeasesKeepAttemptsApart(
      c: Config, states: seq<State>, steps: seq<Step>, work: map<JobId, set<ContentDedup.Hash>>,
      ledgers: seq<DedupProtocol.State>, taken: seq<DedupProtocol.Step>, at: seq<nat>)
    requires IsRun(c, states, steps) && DedupProtocol.IsRun(work, ledgers, taken)
    requires GoesWith(states, steps, ledgers, taken, at)
    requires forall i, j | 0 <= i < |steps| :: !RequeuesLive(states[i], steps[i], j)
    ensures DedupProtocol.NeverStale(ledgers, taken)
  {
    forall i | 0 <= i < |taken|
      ensures DedupProtocol.OneAtATime(ledgers[i], taken[i])
    {
      assert GoesWithAt(states, steps, ledgers[i], taken[i], at[i]);
      if taken[i].Begins? {
        OneLiveAttempt(c, states, steps, at[i], taken[i].j);
      }
    }
    DedupProtocol.OneAttemptIsEnough(work, ledgers, taken);
  }
}
