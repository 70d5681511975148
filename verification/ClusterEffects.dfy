/**
  What the steps of the protocol come to for the rows and the actors, in terms of their columns: what a
  step needs, what it settles, and what can no longer happen after it.
 */
module ClusterEffects {

  import opened Wrappers
  import opened JobTable
  import opened ExecutionTable
  import opened Cluster

  /** No job of the execution is waiting for a worker, so no delivery starts one. */
  ghost predicate NothingToStart(s: State, e: ExecId) {
    forall j | j in s.jobs && s.jobs[j].exec == e :: s.jobs[j].state !in {Pending, Dispatched}
  }

  lemma NoClaimSucceeds(c: Config, s: State, j: JobId, at: Time)
    requires WorkerEnabled(c, s, WorkerClaims(j, at)) && j in s.jobs && NothingToStart(s, s.jobs[j].exec)
    ensures WorkerApplied(c, s, WorkerClaims(j, at)) == s
  {
  }

  /** The lease is anyone's to claim. */
  predicate Free(s: State, e: ExecId) {
    e in s.execs && s.execs[e].driver == None
  }

  // ----- planners -----

  /** A new execution is pending and unowned, has no whole plan, and its planner knows the plan it has to save. */
  lemma NewExecutionWaits(c: Config, s: State, e: ExecId, p: DriverId, plan: seq<JobId>)
    requires PlanEnabled(c, s, Accept(e, p, plan))
    ensures e !in s.execs
    ensures var t := PlanApplied(c, s, Accept(e, p, plan));
            && Free(t, e) && t.execs[e].state == ExecPending && !t.execs[e].planComplete
            && t.execs[e].createdAt == s.clock
            && t.actors == s.actors[p := Actor(e, None, Phase.Accepted(plan))] && t.jobs == s.jobs && t.sent == s.sent
            && forall j :: j in t.planned[e] <==> j in plan
  {
  }

  /** A planner that can have the lease takes it; one that cannot plans all the same. */
  lemma PlannerTriesToClaim(c: Config, s: State, p: DriverId, at: Time, reachable: bool)
    requires PlanEnabled(c, s, PlannerClaims(p, at, reachable))
    ensures var t := PlanApplied(c, s, PlannerClaims(p, at, reachable));
            && t.actors[p].phase == Starting(s.actors[p].phase.plan) && t.jobs == s.jobs
            && (reachable && Free(s, ExecOf(s, p)) ==>
                  && t.execs[ExecOf(s, p)].driver == Some(p) && t.execs[ExecOf(s, p)].heartbeatAt == Some(at)
                  && t.actors[p].lastOk == Some(at))
            && (!reachable ==> t.execs == s.execs)
  {
  }

  /** Saving moves the first jobs of the plan into the table, pending and untried, and takes them off the list. */
  lemma SavedJobsWait(c: Config, s: State, p: DriverId, n: nat, batch: nat, i: nat)
    requires PlanEnabled(c, s, PlannerSaves(p, n, batch)) && i < n
    ensures var t, unsaved := PlanApplied(c, s, PlannerSaves(p, n, batch)), s.actors[p].phase.unsaved;
            && t.actors[p].phase == Planning(unsaved[n..]) && t.execs == s.execs && t.sent == s.sent
            && unsaved[i] in t.jobs
            && (unsaved[i] !in s.jobs ==>
                  && t.jobs[unsaved[i]].state == Pending && t.jobs[unsaved[i]].attempts == 0
                  && t.jobs[unsaved[i]].exec == ExecOf(s, p) && t.jobs[unsaved[i]].batch == batch)
            && forall j | j in s.jobs :: j in t.jobs && t.jobs[j] == s.jobs[j]
  {
    var unsaved := s.actors[p].phase.unsaved;
    assert unsaved[i] == unsaved[..n][i];
  }

  /** A planner stops only for an execution that was cancelled or failed, and leaves nothing to start and no lease. */
  lemma AbortLeavesNothing(c: Config, s: State, p: DriverId)
    requires PlanEnabled(c, s, PlannerAborts(p))
    ensures s.execs[ExecOf(s, p)].state == ExecCancelled || s.execs[ExecOf(s, p)].state == ExecFailed
    ensures var t := PlanApplied(c, s, PlannerAborts(p));
            && NothingToStart(t, ExecOf(s, p)) && p !in t.actors
            && t.execs[ExecOf(s, p)].driver != Some(p)
            && forall j | j in s.jobs && s.jobs[j].state == Running :: t.jobs[j] == s.jobs[j]
  {
  }

  /** The hand-over: the plan is whole, the planner's lease is freed, and a loop stands by for it. */
  lemma PlannerHandsOverItsLease(c: Config, s: State, p: DriverId, l: DriverId)
    requires PlanEnabled(c, s, PlannerHandsOver(p, l))
    ensures var t, e := PlanApplied(c, s, PlannerHandsOver(p, l)), ExecOf(s, p);
            && p !in t.actors && l in t.actors && t.actors[l] == Actor(e, None, Standby)
            && (s.execs[e].driver == Some(p) ==> Free(t, e)) && t.execs[e].driver != Some(p)
  {
  }

  lemma PlannerFailsAndFrees(c: Config, s: State, p: DriverId)
    requires PlanEnabled(c, s, PlannerRaises(p))
    ensures var t, e := PlanApplied(c, s, PlannerRaises(p)), ExecOf(s, p);
            && p !in t.actors && (s.execs[e].driver == Some(p) ==> Free(t, e)) && t.jobs == s.jobs
            && t.execs[e].state == s.execs[e].state
  {
  }

  // ----- dispatch loops -----

  /** A loop stops exactly if its execution is not running, paused or settled elsewhere, and frees its lease. */
  lemma LoopStopsWhenNotRunning(c: Config, s: State, l: DriverId)
    requires Known(s, l)
    ensures LoopEnabled(c, s, LoopStops(l)) <==>
              s.actors[l].phase == Driving && s.execs[ExecOf(s, l)].state != ExecRunning
    ensures LoopEnabled(c, s, LoopGivesUp(l)) <==>
              s.actors[l].phase == Standby && s.execs[ExecOf(s, l)].state != ExecRunning
    ensures LoopEnabled(c, s, LoopStops(l)) ==>
              var t := LoopApplied(c, s, LoopStops(l));
              && l !in t.actors && t.execs[ExecOf(s, l)].driver != Some(l)
              && t.execs[ExecOf(s, l)].state == s.execs[ExecOf(s, l)].state && t.jobs == s.jobs
    ensures LoopEnabled(c, s, LoopGivesUp(l)) ==>
              var t := LoopApplied(c, s, LoopGivesUp(l));
              && l !in t.actors && t.execs[ExecOf(s, l)].driver != Some(l)
              && t.execs[ExecOf(s, l)].state == s.execs[ExecOf(s, l)].state && t.jobs == s.jobs
  {
  }

  /** A loop fetches only while fewer jobs are in flight than allowed, and no more than there is room for. */
  lemma RoomForAPage(c: Config, s: State, l: DriverId, page: seq<JobId>)
    requires Known(s, l)
    ensures LoopEnabled(c, s, CountsJobs(l)) ==>
              var flying := |set j | j in s.jobs && s.jobs[j].exec == ExecOf(s, l)
                                     && s.jobs[j].state in {JobState.Dispatched, JobState.Running}|;
              && flying < c.maxInFlight
              && LoopApplied(c, s, CountsJobs(l)).actors[l].phase == Counted(c.maxInFlight - flying)
    ensures LoopEnabled(c, s, FetchesJobs(l, page)) ==>
              && |page| <= s.actors[l].phase.free && |page| <= c.fetchLimit
              && LoopApplied(c, s, FetchesJobs(l, page)).actors[l].phase == Sending(page, None)
              && (|page| < s.actors[l].phase.free && |page| < c.fetchLimit ==>
                    forall j | j in s.jobs && s.jobs[j].exec == ExecOf(s, l) && s.jobs[j].state == Pending :: j in page)
  {
    if LoopEnabled(c, s, CountsJobs(l)) {
      assert InFlight(s.jobs, ExecOf(s, l))
          == set j | j in s.jobs && s.jobs[j].exec == ExecOf(s, l)
                     && s.jobs[j].state in {JobState.Dispatched, JobState.Running};
    }
    if LoopEnabled(c, s, FetchesJobs(l, page)) {
      forall j | j in s.jobs && s.jobs[j].exec == ExecOf(s, l) && s.jobs[j].state == Pending
        ensures IsPending(s.jobs, ExecOf(s, l), j)
      {
      }
    }
  }

  // ----- sending -----

  /** Jobs are sent in the order they were fetched, each once per page, and a send in doubt gives the rest up. */
  lemma SentInOrder(c: Config, s: State, l: DriverId)
    requires Known(s, l) && s.actors[l].phase.Sending? && s.actors[l].phase.todo != []
    requires s.actors[l].phase.unmarked == None
    ensures SendEnabled(c, s, Sends(l)) && SendEnabled(c, s, SendInDoubt(l))
    ensures var todo, t := s.actors[l].phase.todo, SendApplied(c, s, Sends(l));
            t.sent == s.sent + {todo[0]} && t.actors[l].phase == Sending(todo[1..], Some(todo[0])) && t.jobs == s.jobs
    ensures var todo, t := s.actors[l].phase.todo, SendApplied(c, s, SendInDoubt(l));
            t.sent == s.sent + {todo[0]} && t.actors[l].phase == Driving && t.jobs == s.jobs
  {
  }

  /** A job whose message can never be sent is failed with the reason, is not sent, and the page goes on. */
  lemma UnsendableFails(c: Config, s: State, l: DriverId, reason: string)
    requires SendEnabled(c, s, Unsendable(l, reason))
    ensures var todo, t := s.actors[l].phase.todo, SendApplied(c, s, Unsendable(l, reason));
            && t.actors[l].phase == Sending(todo[1..], None) && t.sent == s.sent
            && (todo[0] in s.jobs ==>
                  && t.jobs[todo[0]].state == Failed && (reason != "" ==> t.jobs[todo[0]].error == Some(reason)))
            && forall j | j in s.jobs && j != todo[0] :: t.jobs[j] == s.jobs[j]
  {
  }

  /** A mark records the send, and moves a job on only if no worker was faster. */
  lemma MarkRecordsTheSend(c: Config, s: State, l: DriverId, at: Time)
    requires SendEnabled(c, s, MarksSent(l, at)) && s.actors[l].phase.unmarked.value in s.jobs
    ensures var j, t := s.actors[l].phase.unmarked.value, SendApplied(c, s, MarksSent(l, at));
            && t.jobs[j].dispatchedAt == Some(at)
            && t.jobs[j].state == (if s.jobs[j].state == Pending then JobState.Dispatched else s.jobs[j].state)
            && t.actors[l].phase == Sending(s.actors[l].phase.todo, None)
  {
  }

  // ----- the sweep -----

  /** What the three statements of a loop's sweep, by their cutoffs, make of a job of its execution. */
  lemma SweepDecides(c: Config, s: State, l: DriverId, at: Time, j: JobId)
    requires j in s.jobs && l in s.actors && s.jobs[j].exec == ExecOf(s, l)
    ensures SweepEnabled(c, s, SweepFailsLost(l, at)) ==>
              var t := SweepApplied(c, s, SweepFailsLost(l, at));
              && t.actors[l].phase == SweptLost(at - c.runningLease, at - c.dispatchLease)
              && t.jobs[j].state == (if s.jobs[j].state == Running && s.jobs[j].updatedAt < at - c.runningLease
                                        && s.jobs[j].attempts >= c.maxAttempts then Failed else s.jobs[j].state)
    ensures SweepEnabled(c, s, SweepRequeuesRunning(l, at)) ==>
              var t, p := SweepApplied(c, s, SweepRequeuesRunning(l, at)), s.actors[l].phase;
              && t.actors[l].phase == SweptRunning(p.dispatchCutoff)
              && t.jobs[j].state == (if s.jobs[j].state == Running && s.jobs[j].updatedAt < p.runningCutoff
                                     then Pending else s.jobs[j].state)
    ensures SweepEnabled(c, s, SweepRequeuesDispatched(l, at)) ==>
              var t, p := SweepApplied(c, s, SweepRequeuesDispatched(l, at)), s.actors[l].phase;
              && t.actors[l].phase == Driving
              && t.jobs[j].state == (if s.jobs[j].state == JobState.Dispatched && s.jobs[j].dispatchedAt.Some?
                                        && s.jobs[j].dispatchedAt.value < p.dispatchCutoff
                                     then Pending else s.jobs[j].state)
  {
  }

  // ----- recovering managers -----

  /**
    A recovery takes up only executions that are pending or running without a whole plan, never claims
    one younger than a lease, and fails what it has claimed.
   */
  lemma RecoveryWaits(c: Config, s: State, e: ExecId, r: DriverId, at: Time)
    ensures RecoveryEnabled(c, s, RecoveryLooks(e, r)) ==>
              e in s.execs && s.execs[e].state in {ExecPending, ExecRunning} && !s.execs[e].planComplete
    ensures RecoveryEnabled(c, s, RecoveryClaims(r, at)) ==>
              && at >= s.execs[ExecOf(s, r)].createdAt + c.driverLease
              && (RecoveryApplied(c, s, RecoveryClaims(r, at)).execs != s.execs ==>
                    RecoveryApplied(c, s, RecoveryClaims(r, at)).execs[ExecOf(s, r)].driver == Some(r))
    ensures RecoveryEnabled(c, s, RecoveryCondemns(r)) ==>
              RecoveryApplied(c, s, RecoveryCondemns(r)).execs[ExecOf(s, r)].state == ExecFailed
    ensures RecoveryEnabled(c, s, RecoveryLeaves(r)) ==>
              && r !in RecoveryApplied(c, s, RecoveryLeaves(r)).actors
              && RecoveryApplied(c, s, RecoveryLeaves(r)).execs[ExecOf(s, r)].driver != Some(r)
  {
  }

  // ----- beating, crashing, starting up -----

  /** The owner's beat is on its row; a loop that is between passes and no longer the owner stops. */
  lemma BeatOrStop(c: Config, s: State, a: DriverId, at: Time)
    requires HolderEnabled(c, s, Heartbeat(a, at))
    ensures var t, e := HolderApplied(c, s, Heartbeat(a, at)), ExecOf(s, a);
            if s.execs[e].driver == Some(a) then
              t.execs[e].driver == Some(a) && t.execs[e].heartbeatAt == Some(at) && t.actors[a].lastOk == Some(at)
            else t.execs == s.execs && (a.LoopId? && s.actors[a].phase == Driving ==> a !in t.actors)
  {
  }

  /** A crash leaves both tables and every other actor as they are: what it owned stays owned. */
  lemma CrashLeavesTheTables(c: Config, s: State, a: DriverId)
    requires HolderEnabled(c, s, Crash(a))
    ensures var t := HolderApplied(c, s, Crash(a));
            t.jobs == s.jobs && t.execs == s.execs && t.sent == s.sent && t.actors.Keys == s.actors.Keys - {a}
  {
  }

  /** At start-up a host frees the leases its dead loops held, and nobody else's. */
  lemma StartUpFreesDeadLoops(c: Config, s: State, host: string, e: ExecId, n: nat)
    requires HolderEnabled(c, s, FreeHost(host)) && e in s.execs
    ensures s.execs[e].driver == Some(LoopId(host, n)) ==> Free(HolderApplied(c, s, FreeHost(host)), e)
    ensures (forall m: nat :: s.execs[e].driver != Some(LoopId(host, m))) ==>
              HolderApplied(c, s, FreeHost(host)).execs[e] == s.execs[e]
    ensures LoopId(host, n) !in s.actors
  {
  }

  // ----- operators -----

  /** Cancelling jobs leaves nothing to start, and jobs that have started as they are. */
  lemma CancelledJobsNeverStart(c: Config, s: State, e: ExecId)
    requires OperatorEnabled(c, s, CancelJobs(e))
    ensures var t := OperatorApplied(c, s, CancelJobs(e));
            && NothingToStart(t, e) && t.execs == s.execs
            && forall j | j in s.jobs && (s.jobs[j].exec != e || s.jobs[j].state !in {Pending, JobState.Dispatched}) ::
                 t.jobs[j] == s.jobs[j]
  {
  }

  /** A retry without a text puts every failed job of the execution back, untried, and touches no other. */
  lemma RetryPutsFailedBack(c: Config, s: State, e: ExecId, j: JobId)
    requires OperatorEnabled(c, s, RetryJobs(e, "")) && j in s.jobs
    ensures var t := OperatorApplied(c, s, RetryJobs(e, ""));
            if s.jobs[j].exec == e && s.jobs[j].state == Failed
            then t.jobs[j].state == Pending && t.jobs[j].attempts == 0 && t.jobs[j].error == None
            else t.jobs[j] == s.jobs[j]
  {
  }

  /** A resume that finds nothing unfinished settles the execution by its jobs, and truthfully. */
  lemma ResumeSettlesByTheJobs(c: Config, s: State, e: ExecId)
    requires OperatorEnabled(c, s, ResumeSettles(e))
    ensures s.execs[e].planComplete
    ensures forall j | j in s.jobs && s.jobs[j].exec == e :: s.jobs[j].state !in {Pending, JobState.Dispatched, Running}
    ensures var row := OperatorApplied(c, s, ResumeSettles(e)).execs[e];
            && (row.state == ExecCompleted <==>
                  forall j | j in s.jobs && s.jobs[j].exec == e :: s.jobs[j].state in {Completed, Deduplicated})
            && (row.state == ExecCompleted || row.state == ExecFailed) && row.completedAt == Some(s.clock)
  {
    forall j | j in s.jobs && s.jobs[j].exec == e
      ensures !Unfinished(s.jobs[j])
    {
    }
  }

  // ----- workers -----

  /** A running job that has beaten is not stale before a lease has passed since; a dead worker changes no row. */
  lemma BeatKeepsTheJob(c: Config, s: State, j: JobId, at: Time, cutoff: Time)
    requires WorkerEnabled(c, s, WorkerBeats(j, at)) && j in s.jobs
    ensures var t := WorkerApplied(c, s, WorkerBeats(j, at));
            && t.jobs[j].state == s.jobs[j].state && t.jobs[j].attempts == s.jobs[j].attempts
            && (s.jobs[j].state == Running ==> t.jobs[j].updatedAt == at)
            && (cutoff <= at && s.jobs[j].state == Running ==>
                  RequeueRunning(t.jobs, s.jobs[j].exec, cutoff, s.clock)[j] == t.jobs[j])
    ensures WorkerApplied(c, s, WorkerDies(j)).jobs == s.jobs && WorkerApplied(c, s, WorkerDies(j)).execs == s.execs
  {
  }

  /** The final report is written whatever the row says by then, and ends the attempt. */
  lemma ReportIsWritten(c: Config, s: State, j: JobId, outcome: JobState, error: Option<string>)
    requires WorkerEnabled(c, s, WorkerFinishes(j, outcome, error)) && j in s.jobs
    ensures outcome in {Completed, Failed, Deduplicated}
    ensures var t := WorkerApplied(c, s, WorkerFinishes(j, outcome, error));
            && t.jobs[j].state == outcome && t.jobs[j].completedAt == Some(s.clock)
            && t.live[j] == s.live[j] - 1
            && forall other | other in s.jobs && other != j :: t.jobs[other] == s.jobs[other]
  {
  }
}
