/**
  The distributed protocol: planners, dispatch loops, recovering managers, workers and operators
  interleaving over one database and one message broker. Every conditional UPDATE or commit is
  one atomic step. A statement carries `at`, the clock reading it was issued with, which may be
  older than the clock when the statement lands.
 */
module Cluster {

  import opened Arithmetic
  import opened Wrappers
  import opened JobTable
  import opened ExecutionTable
  import opened Completion

  datatype Config = Config(
    driverLease: nat, runningLease: nat, dispatchLease: nat,
    maxAttempts: nat, maxInFlight: nat, fetchLimit: nat)

  /** Where an actor stands between two of its statements. */
  datatype Phase =
    // a planner
    | Accepted(plan: seq<JobId>)
    | Starting(plan: seq<JobId>)
    | Planning(unsaved: seq<JobId>)
    | PlanSaved
    // a dispatch loop
    | Standby
    | Driving
    | SweptLost(runningCutoff: Time, dispatchCutoff: Time)
    | SweptRunning(dispatchCutoff: Time)
    | Counted(free: nat)
    | Sending(todo: seq<JobId>, unmarked: Option<JobId>)
    // a manager recovering an execution whose plan was not complete when it looked
    | Looking
    | Condemning
    | Leaving

  /** `lastOk` is the reading of the actor's last successful claim or heartbeat. */
  datatype Actor = Actor(exec: ExecId, lastOk: Option<Time>, phase: Phase)

  /**
    `sent` holds every job a message was ever sent for: the broker may lose, duplicate or
    redeliver a message any number of times, so having been sent once is all that matters.
    `live` holds one entry per attempt a worker is still running. `planned` and `excess` are
    history: the whole plan of each execution, and the jobs whose latest claim came from a
    message the current send did not account for. `asked` holds the operator requests that have
    read the row and passed their check, and are still to write.
   */
  datatype State = State(
    jobs: Rows, execs: ExecRows, actors: map<DriverId, Actor>,
    sent: set<JobId>, live: multiset<JobId>, clock: Time,
    planned: map<ExecId, set<JobId>>, excess: set<JobId>, asked: multiset<(ExecId, Request)>)

  const Empty := State(map[], map[], map[], {}, multiset{}, 0, map[], {}, multiset{})

  datatype PlanStep =
    | Accept(e: ExecId, p: DriverId, plan: seq<JobId>)
    | PlannerClaims(p: DriverId, at: Time, reachable: bool)
    | PlannerMarksRunning(p: DriverId)
    | PlannerSaves(p: DriverId, n: nat, batch: nat)
    | PlannerAborts(p: DriverId)
    | PlannerCompletes(p: DriverId)
    | PlannerHandsOver(p: DriverId, l: DriverId)
    | PlannerRaises(p: DriverId)

  datatype LoopStep =
    | Resume(e: ExecId, l: DriverId)
    | LoopClaims(l: DriverId, at: Time)
    | LoopGivesUp(l: DriverId)
    | LoopStops(l: DriverId)
    | CountsJobs(l: DriverId)
    | FetchesJobs(l: DriverId, page: seq<JobId>)
    | BatchEnds(l: DriverId)
    | Finalizes(l: DriverId)

  datatype SendStep =
    | Sends(l: DriverId)
    | SendInDoubt(l: DriverId)
    | MarksSent(l: DriverId, at: Time)
    | Unsendable(l: DriverId, reason: string)
    | PassFails(l: DriverId)

  datatype SweepStep =
    | SweepFailsLost(l: DriverId, at: Time)
    | SweepRequeuesRunning(l: DriverId, at: Time)
    | SweepRequeuesDispatched(l: DriverId, at: Time)

  datatype RecoveryStep =
    | RecoveryLooks(e: ExecId, r: DriverId)
    | RecoveryClaims(r: DriverId, at: Time)
    | RecoveryCondemns(r: DriverId)
    | RecoveryLeaves(r: DriverId)

  datatype HolderStep =
    | Heartbeat(a: DriverId, at: Time)
    | Crash(a: DriverId)
    | FreeHost(host: string)

  datatype OperatorStep =
    | Ask(e: ExecId, request: Request)      // reads the state and checks it
    | Answer(e: ExecId, request: Request)   // writes, whatever the state is by then
    | CancelJobs(e: ExecId)
    | RetryJobs(e: ExecId, errorContains: string)
    | ResumeSettles(e: ExecId)

  datatype WorkerStep =
    | WorkerClaims(j: JobId, at: Time)
    | WorkerBeats(j: JobId, at: Time)
    | WorkerFinishes(j: JobId, outcome: JobState, error: Option<string>)
    | WorkerDies(j: JobId)

  datatype Step =
    | Tick(elapsed: nat)
    | Plan(plan: PlanStep)
    | Loop(loop: LoopStep)
    | Send(send: SendStep)
    | Sweep(sweep: SweepStep)
    | Recover(recovery: RecoveryStep)
    | Hold(holder: HolderStep)
    | Operate(operator: OperatorStep)
    | Work(worker: WorkerStep)

  // ----- helpers on the state -----

  predicate IsActor(s: State, a: DriverId, e: ExecId) {
    a in s.actors && s.actors[a].exec == e && e in s.execs
  }

  predicate Known(s: State, a: DriverId) {
    a in s.actors && s.actors[a].exec in s.execs
  }

  function PhaseOf(s: State, a: DriverId): Phase
    requires a in s.actors
  {
    s.actors[a].phase
  }

  function ExecOf(s: State, a: DriverId): ExecId
    requires a in s.actors
  {
    s.actors[a].exec
  }

  function RowOf(s: State, a: DriverId): Execution
    requires Known(s, a)
  {
    s.execs[s.actors[a].exec]
  }

  function Enter(s: State, a: DriverId, p: Phase): State
    requires a in s.actors
  {
    s.(actors := s.actors[a := s.actors[a].(phase := p)])
  }

  function SetRow(s: State, e: ExecId, r: Execution): State {
    s.(execs := s.execs[e := r])
  }

  /** The actor gives up the lease, if it still is the owner, and ends. */
  function Leave(s: State, a: DriverId): State
    requires Known(s, a)
  {
    SetRow(s, ExecOf(s, a), Freed(RowOf(s, a), a)).(actors := s.actors - {a})
  }

  /** The lease statement: on success the row names the actor, which remembers the reading. */
  function TakeLease(s: State, a: DriverId, at: Time, next: Phase): State
    requires Known(s, a)
  {
    SetRow(s, ExecOf(s, a), Owned(RowOf(s, a), a, at))
      .(actors := s.actors[a := Actor(ExecOf(s, a), Some(at), next)])
  }

  /** One actor's clock readings never go back, but a statement may land well after its reading. */
  predicate Reads(s: State, a: DriverId, at: Time)
    requires a in s.actors
  {
    at <= s.clock && (s.actors[a].lastOk.Some? ==> s.actors[a].lastOk.value <= at)
  }

  /** The statement reaches the jobs table within the running lease of its clock reading. */
  predicate Recent(c: Config, s: State, at: Time) {
    s.clock - c.runningLease <= at <= s.clock
  }

  function InFlight(rows: Rows, e: ExecId): set<JobId> {
    set j | j in rows && rows[j].exec == e && (rows[j].state.Dispatched? || rows[j].state.Running?)
  }

  predicate Unfinished(r: Job) {
    r.state.Pending? || r.state.Dispatched? || r.state.Running?
  }

  /** What finalization writes; by TruthfulCompletion this is the verdict it computes from the counts. */
  ghost function FinalState(rows: Rows, e: ExecId): ExecState {
    if AllSucceeded(rows, e) then ExecCompleted else ExecFailed
  }

  ghost predicate NothingUnfinished(s: State, e: ExecId) {
    forall j | j in s.jobs && s.jobs[j].exec == e :: !Unfinished(s.jobs[j])
  }

  predicate Holds(p: Phase) {
    !p.Accepted? && !p.Standby? && !p.Looking?
  }

  /** The phases of a dispatch loop that won its lease. */
  predicate Active(p: Phase) {
    p.Driving? || p.SweptLost? || p.SweptRunning? || p.Counted? || p.Sending?
  }

  predicate ReadyToSend(p: Phase) {
    p.Sending? && p.todo != [] && p.unmarked.None?
  }

  /** A loop has sent this job's message and not yet marked the row. */
  ghost predicate AwaitingMark(s: State, j: JobId) {
    exists l :: l in s.actors && s.actors[l].phase.Sending? && s.actors[l].phase.unmarked == Some(j)
  }

  // ----- when a step can happen, and what it does -----

  ghost predicate PlanEnabled(c: Config, s: State, step: PlanStep) {
    step.p.PlannerId? &&
    match step
    case Accept(e, p, plan) =>
      && e !in s.execs && p !in s.actors
      && (forall i, k | 0 <= i < k < |plan| :: plan[i] != plan[k])
      && (forall j, e' | j in plan && e' in s.planned :: j !in s.planned[e'])
    case PlannerClaims(p, at, reachable) =>
      Known(s, p) && PhaseOf(s, p).Accepted? && (reachable ==> Reads(s, p, at))
    case PlannerMarksRunning(p) => Known(s, p) && PhaseOf(s, p).Starting?
    case PlannerSaves(p, n, _) => Known(s, p) && PhaseOf(s, p).Planning? && n <= |PhaseOf(s, p).unsaved|
    case PlannerAborts(p) =>
      Known(s, p) && PhaseOf(s, p).Planning? && RowOf(s, p).state in {ExecCancelled, ExecFailed}
    case PlannerCompletes(p) => Known(s, p) && PhaseOf(s, p) == Planning([])
    case PlannerHandsOver(p, l) => Known(s, p) && PhaseOf(s, p).PlanSaved? && l.LoopId? && l !in s.actors
    case PlannerRaises(p) => Known(s, p) && (PhaseOf(s, p).Starting? || PhaseOf(s, p).Planning?)
  }

  ghost function PlanApplied(c: Config, s: State, step: PlanStep): State
    requires PlanEnabled(c, s, step)
  {
    match step
    case Accept(e, p, plan) =>
      s.(execs := s.execs[e := NewExecution(s.clock)],
         planned := s.planned[e := set j | j in plan],
         actors := s.actors[p := Actor(e, None, Accepted(plan))])
    case PlannerClaims(p, at, reachable) =>
      // Best effort: planning goes ahead unprotected when the lease is refused.
      var next := Starting(PhaseOf(s, p).plan);
      if reachable && CanClaim(RowOf(s, p), p, c.driverLease, at) then TakeLease(s, p, at, next) else Enter(s, p, next)
    case PlannerMarksRunning(p) =>
      // Unconditional: it also overwrites a cancellation that landed before the planner started.
      var planning := Enter(s, p, Planning(PhaseOf(s, p).plan));
      SetRow(planning, ExecOf(s, p), PutState(RowOf(s, p), ExecRunning, None, s.clock))
    case PlannerSaves(p, n, batch) =>
      var unsaved := PhaseOf(s, p).unsaved;
      Enter(s, p, Planning(unsaved[n..]))
        .(jobs := Insert(s.jobs, set i | 0 <= i < n :: unsaved[i], NewRow(ExecOf(s, p), batch, s.clock)))
    case PlannerAborts(p) => Leave(s, p).(jobs := CancelUnstarted(s.jobs, ExecOf(s, p), s.clock))
    case PlannerCompletes(p) =>
      SetRow(Enter(s, p, PlanSaved), ExecOf(s, p), RowOf(s, p).(planComplete := true))
    case PlannerHandsOver(p, l) =>
      var left := Leave(s, p);
      left.(actors := left.actors[l := Actor(ExecOf(s, p), None, Standby)])
    case PlannerRaises(p) => Leave(s, p)
  }

  ghost predicate LoopEnabled(c: Config, s: State, step: LoopStep) {
    match step
    case Resume(e, l) => e in s.execs && s.execs[e].planComplete && l.LoopId? && l !in s.actors
    case LoopClaims(l, at) => Known(s, l) && PhaseOf(s, l).Standby? && Reads(s, l, at)
    case LoopGivesUp(l) => Known(s, l) && PhaseOf(s, l).Standby? && !RowOf(s, l).state.ExecRunning?
    case LoopStops(l) => Known(s, l) && PhaseOf(s, l).Driving? && !RowOf(s, l).state.ExecRunning?
    case CountsJobs(l) =>
      Known(s, l) && PhaseOf(s, l).Driving? && |InFlight(s.jobs, ExecOf(s, l))| < c.maxInFlight
    case FetchesJobs(l, page) =>
      && Known(s, l) && PhaseOf(s, l).Counted?
      && IsPendingPage(s.jobs, ExecOf(s, l), Least(PhaseOf(s, l).free, c.fetchLimit), page)
    case BatchEnds(l) => Known(s, l) && PhaseOf(s, l).Sending? && PhaseOf(s, l).unmarked.None?
    case Finalizes(l) => Known(s, l) && PhaseOf(s, l).Driving? && NothingUnfinished(s, ExecOf(s, l))
  }

  ghost function LoopApplied(c: Config, s: State, step: LoopStep): State
    requires LoopEnabled(c, s, step)
  {
    match step
    case Resume(e, l) => s.(actors := s.actors[l := Actor(e, None, Standby)])
    case LoopClaims(l, at) =>
      if CanClaim(RowOf(s, l), l, c.driverLease, at) then TakeLease(s, l, at, Driving) else s
    case LoopGivesUp(l) => Leave(s, l)
    case LoopStops(l) => Leave(s, l)
    case CountsJobs(l) => Enter(s, l, Counted(c.maxInFlight - |InFlight(s.jobs, ExecOf(s, l))|))
    case FetchesJobs(l, page) => Enter(s, l, Sending(page, None))
    case BatchEnds(l) => Enter(s, l, Driving)
    case Finalizes(l) =>
      var settled := PutState(RowOf(s, l), FinalState(s.jobs, ExecOf(s, l)), None, s.clock);
      Leave(SetRow(s, ExecOf(s, l), settled), l)
  }

  ghost predicate SendEnabled(c: Config, s: State, step: SendStep) {
    match step
    case Sends(l) => Known(s, l) && ReadyToSend(PhaseOf(s, l))
    case SendInDoubt(l) => Known(s, l) && ReadyToSend(PhaseOf(s, l))
    case MarksSent(l, at) =>
      Known(s, l) && PhaseOf(s, l).Sending? && PhaseOf(s, l).unmarked.Some? && Recent(c, s, at)
    case Unsendable(l, _) => Known(s, l) && ReadyToSend(PhaseOf(s, l))
    case PassFails(l) => Known(s, l) && (PhaseOf(s, l).Counted? || PhaseOf(s, l).Sending?)
  }

  ghost function SendApplied(c: Config, s: State, step: SendStep): State
    requires SendEnabled(c, s, step)
  {
    match step
    case Sends(l) =>
      var todo := PhaseOf(s, l).todo;
      Enter(s, l, Sending(todo[1..], Some(todo[0]))).(sent := s.sent + {todo[0]})
    case SendInDoubt(l) =>
      // The broker took the message but the send raised: the batch is given up, the job stays pending.
      Enter(s, l, Driving).(sent := s.sent + {PhaseOf(s, l).todo[0]})
    case MarksSent(l, at) =>
      var p := PhaseOf(s, l);
      Enter(s, l, Sending(p.todo, None)).(jobs := Mark(s.jobs, p.unmarked.value, at))
    case Unsendable(l, reason) =>
      var todo := PhaseOf(s, l).todo;
      Enter(s, l, Sending(todo[1..], None)).(jobs := Finish(s.jobs, todo[0], Failed, Some(reason), s.clock))
    case PassFails(l) =>
      // A database error ends the pass and the loop goes on; a job just sent is left unmarked.
      Enter(s, l, Driving)
  }

  ghost predicate SweepEnabled(c: Config, s: State, step: SweepStep) {
    match step
    case SweepFailsLost(l, at) => Known(s, l) && PhaseOf(s, l).Driving? && at <= s.clock
    case SweepRequeuesRunning(l, at) => Known(s, l) && PhaseOf(s, l).SweptLost? && at <= s.clock
    case SweepRequeuesDispatched(l, at) => Known(s, l) && PhaseOf(s, l).SweptRunning? && at <= s.clock
  }

  ghost function SweepApplied(c: Config, s: State, step: SweepStep): State
    requires SweepEnabled(c, s, step)
  {
    match step
    case SweepFailsLost(l, at) =>
      var cutoff := at - c.runningLease;
      Enter(s, l, SweptLost(cutoff, at - c.dispatchLease))
        .(jobs := FailLost(s.jobs, ExecOf(s, l), cutoff, c.maxAttempts, at))
    case SweepRequeuesRunning(l, at) =>
      var p := PhaseOf(s, l);
      Enter(s, l, SweptRunning(p.dispatchCutoff))
        .(jobs := RequeueRunning(s.jobs, ExecOf(s, l), p.runningCutoff, at))
    case SweepRequeuesDispatched(l, at) =>
      Enter(s, l, Driving)
        .(jobs := RequeueDispatched(s.jobs, ExecOf(s, l), PhaseOf(s, l).dispatchCutoff, at))
  }

  ghost predicate RecoveryEnabled(c: Config, s: State, step: RecoveryStep) {
    step.r.RecoveryId? &&
    match step
    case RecoveryLooks(e, r) =>
      && e in s.execs && r !in s.actors
      && s.execs[e].state in {ExecPending, ExecRunning} && !s.execs[e].planComplete
    case RecoveryClaims(r, at) =>
      && Known(s, r) && PhaseOf(s, r).Looking? && Reads(s, r, at)
      && at - RowOf(s, r).createdAt >= c.driverLease
    case RecoveryCondemns(r) => Known(s, r) && PhaseOf(s, r).Condemning?
    case RecoveryLeaves(r) => Known(s, r) && PhaseOf(s, r).Leaving?
  }

  ghost function RecoveryApplied(c: Config, s: State, step: RecoveryStep): State
    requires RecoveryEnabled(c, s, step)
  {
    match step
    case RecoveryLooks(e, r) => s.(actors := s.actors[r := Actor(e, None, Looking)])
    case RecoveryClaims(r, at) =>
      if CanClaim(RowOf(s, r), r, c.driverLease, at) then TakeLease(s, r, at, Condemning)
      else s.(actors := s.actors - {r})  // it sleeps and looks again
    case RecoveryCondemns(r) =>
      SetRow(Enter(s, r, Leaving), ExecOf(s, r),
             PutState(RowOf(s, r), ExecFailed, Some("stopped while planning"), s.clock))
    case RecoveryLeaves(r) => Leave(s, r)
  }

  ghost predicate HolderEnabled(c: Config, s: State, step: HolderStep) {
    match step
    case Heartbeat(a, at) => Known(s, a) && Holds(PhaseOf(s, a)) && Reads(s, a, at)
    case Crash(a) => a in s.actors
    case FreeHost(host) => forall n: nat :: LoopId(host, n) !in s.actors
  }

  ghost function HolderApplied(c: Config, s: State, step: HolderStep): State
    requires HolderEnabled(c, s, step)
  {
    match step
    case Heartbeat(a, at) =>
      if RowOf(s, a).driver == Some(a) then TakeLease(s, a, at, PhaseOf(s, a))
      else if a.LoopId? && PhaseOf(s, a).Driving? then s.(actors := s.actors - {a})
      else s
    case Crash(a) => s.(actors := s.actors - {a})
    case FreeHost(host) => s.(execs := map e | e in s.execs :: FreedOnHost(s.execs[e], host))
  }

  ghost predicate OperatorEnabled(c: Config, s: State, step: OperatorStep) {
    match step
    case Ask(e, request) => e in s.execs && Allowed(s.execs[e], request)
    case Answer(e, request) => e in s.execs && (e, request) in s.asked
    case CancelJobs(e) => e in s.execs
    case RetryJobs(e, _) => e in s.execs
    case ResumeSettles(e) => e in s.execs && s.execs[e].planComplete && NothingUnfinished(s, e)
  }

  ghost function OperatorApplied(c: Config, s: State, step: OperatorStep): State
    requires OperatorEnabled(c, s, step)
  {
    match step
    case Ask(e, request) => s.(asked := s.asked + multiset{(e, request)})
    case Answer(e, request) =>
      SetRow(s, e, Answered(s.execs[e], request, s.clock)).(asked := s.asked - multiset{(e, request)})
    case CancelJobs(e) => s.(jobs := CancelUnstarted(s.jobs, e, s.clock))
    case RetryJobs(e, errorContains) => s.(jobs := RetryFailed(s.jobs, e, errorContains, s.clock))
    case ResumeSettles(e) => SetRow(s, e, PutState(s.execs[e], FinalState(s.jobs, e), None, s.clock))
  }

  ghost predicate WorkerEnabled(c: Config, s: State, step: WorkerStep) {
    match step
    case WorkerClaims(j, at) => j in s.sent && Recent(c, s, at)
    case WorkerBeats(j, at) => j in s.live && Recent(c, s, at)
    case WorkerFinishes(j, outcome, _) => j in s.live && outcome in {Completed, Failed, Deduplicated}
    case WorkerDies(j) => j in s.live
  }

  ghost function WorkerApplied(c: Config, s: State, step: WorkerStep): State
    requires WorkerEnabled(c, s, step)
  {
    match step
    case WorkerClaims(j, at) =>
      if j in s.jobs && Unstarted(s.jobs[j]) then
        s.(jobs := Claim(s.jobs, j, at), live := s.live + multiset{j},
           excess := if s.jobs[j].state.Pending? && !AwaitingMark(s, j) then s.excess + {j} else s.excess - {j})
      else s
    case WorkerBeats(j, at) => s.(jobs := Beat(s.jobs, j, at))
    case WorkerFinishes(j, outcome, error) =>
      s.(jobs := Finish(s.jobs, j, outcome, error, s.clock), live := s.live - multiset{j})
    case WorkerDies(j) => s.(live := s.live - multiset{j})
  }

  ghost predicate Enabled(c: Config, s: State, step: Step) {
    match step
    case Tick(_) => true
    case Plan(q) => PlanEnabled(c, s, q)
    case Loop(q) => LoopEnabled(c, s, q)
    case Send(q) => SendEnabled(c, s, q)
    case Sweep(q) => SweepEnabled(c, s, q)
    case Recover(q) => RecoveryEnabled(c, s, q)
    case Hold(q) => HolderEnabled(c, s, q)
    case Operate(q) => OperatorEnabled(c, s, q)
    case Work(q) => WorkerEnabled(c, s, q)
  }

  ghost function Apply(c: Config, s: State, step: Step): State
    requires Enabled(c, s, step)
  {
    match step
    case Tick(elapsed) => s.(clock := s.clock + elapsed)
    case Plan(q) => PlanApplied(c, s, q)
    case Loop(q) => LoopApplied(c, s, q)
    case Send(q) => SendApplied(c, s, q)
    case Sweep(q) => SweepApplied(c, s, q)
    case Recover(q) => RecoveryApplied(c, s, q)
    case Hold(q) => HolderApplied(c, s, q)
    case Operate(q) => OperatorApplied(c, s, q)
    case Work(q) => WorkerApplied(c, s, q)
  }

  /** States and steps alternate; `steps[i]` leads from `states[i]` to the next one. */
  ghost predicate IsRun(c: Config, states: seq<State>, steps: seq<Step>) {
    && |states| == |steps| + 1
    && states[0] == Empty
    && forall i | 0 <= i < |steps| :: Follows(c, states, steps, i)
  }

  ghost predicate Follows(c: Config, states: seq<State>, steps: seq<Step>, i: nat)
    requires i < |steps| < |states|
  {
    Enabled(c, states[i], steps[i]) && states[i + 1] == Apply(c, states[i], steps[i])
  }
}
