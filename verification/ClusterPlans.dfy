/**
  What whole runs promise about plans: no message goes out for an execution whose plan is not
  saved to the last job.
 */
module ClusterPlans {

  import opened Wrappers
  import opened JobTable
  import opened ExecutionTable
  import opened Cluster

  function Ids(plan: seq<JobId>): set<JobId> {
    set j | j in plan
  }

  /** What each phase knows about its execution's plan. */
  ghost predicate PhaseKnows(s: State, a: DriverId)
    requires Known(s, a) && ExecOf(s, a) in s.planned
  {
    var e, p := ExecOf(s, a), PhaseOf(s, a);
    match p
    case Accepted(plan) => Ids(plan) == s.planned[e]
    case Starting(plan) => Ids(plan) == s.planned[e]
    case Planning(unsaved) => Ids(unsaved) <= s.planned[e] <= s.jobs.Keys + Ids(unsaved)
    case Sending(todo, unmarked) =>
      && s.execs[e].planComplete
      && (forall j | j in todo || unmarked == Some(j) :: j in s.jobs && s.jobs[j].exec == e)
    case _ => Active(p) || p.PlanSaved? || p.Standby? ==> s.execs[e].planComplete
  }

  /** Until its plan is whole, a job waits or is cancelled, was never started and never sent. */
  ghost predicate JobKnows(s: State, j: JobId)
    requires j in s.jobs
  {
    var r := s.jobs[j];
    && r.exec in s.execs && r.exec in s.planned && j in s.planned[r.exec]
    && (!s.execs[r.exec].planComplete ==> r.state in {Pending, Cancelled} && r.attempts == 0 && j !in s.sent)
  }

  ghost predicate PlanInv(s: State) {
    && s.execs.Keys == s.planned.Keys
    && (forall e, e' | e in s.planned && e' in s.planned && e != e' :: s.planned[e] !! s.planned[e'])
    && (forall e | e in s.execs && s.execs[e].planComplete :: s.planned[e] <= s.jobs.Keys)
    && (forall a | a in s.actors :: Known(s, a) && PhaseKnows(s, a))
    && (forall j | j in s.jobs :: JobKnows(s, j))
    && s.sent <= s.jobs.Keys
    && (forall j | j in s.live :: j in s.sent)
  }

  /** No job appeared and no plan was finished; only jobs of whole plans changed or were sent. */
  ghost predicate SteadyJobs(s: State, t: State) {
    && t.jobs.Keys == s.jobs.Keys
    && (forall j | j in t.jobs && j in s.jobs :: t.jobs[j].exec == s.jobs[j].exec)
    && (forall j | j in t.jobs && j in s.jobs && (t.jobs[j] != s.jobs[j] || (j in t.sent && j !in s.sent)) ::
          s.jobs[j].exec in s.execs && s.execs[s.jobs[j].exec].planComplete)
    && t.sent <= t.jobs.Keys && s.sent <= t.sent
    && (forall j | j in t.live :: j in t.sent)
  }

  ghost predicate SteadyPlans(s: State, t: State) {
    && t.planned == s.planned && t.execs.Keys == s.execs.Keys
    && (forall e | e in t.execs && e in s.execs :: t.execs[e].planComplete == s.execs[e].planComplete)
  }

  /** An actor that changed phase knows what its new phase has to. */
  ghost predicate SteadyActors(s: State, t: State) {
    && (forall a | a in t.actors && !(a in s.actors && t.actors[a].phase == s.actors[a].phase) ::
          Known(t, a) && ExecOf(t, a) in t.planned && PhaseKnows(t, a))
    && (forall a | a in t.actors && a in s.actors :: t.actors[a].exec == s.actors[a].exec)
  }

  lemma SteadyKeepsPlanInv(s: State, t: State)
    requires PlanInv(s) && SteadyJobs(s, t) && SteadyPlans(s, t) && SteadyActors(s, t)
    ensures PlanInv(t)
  {
    forall j | j in t.jobs
      ensures JobKnows(t, j)
    {
      assert JobKnows(s, j);
    }
    forall a | a in t.actors
      ensures Known(t, a) && PhaseKnows(t, a)
    {
      assert a in s.actors ==> Known(s, a) && PhaseKnows(s, a);
    }
  }

  // The parts of the invariant a step starts from, without the rest of it.

  ghost predicate Messages(s: State) {
    s.sent <= s.jobs.Keys && forall j | j in s.live :: j in s.sent
  }

  ghost predicate SentAreWhole(s: State) {
    forall j | j in s.sent && j in s.jobs :: s.jobs[j].exec in s.execs && s.execs[s.jobs[j].exec].planComplete
  }

  ghost predicate ActorKnows(s: State, a: DriverId) {
    Known(s, a) && ExecOf(s, a) in s.planned && PhaseKnows(s, a)
  }

  predicate JobsUntouched(s: State, t: State) {
    t.jobs == s.jobs && t.sent == s.sent && t.live == s.live
  }

  lemma LoopJobs(c: Config, s: State, q: LoopStep)
    requires LoopEnabled(c, s, q)
    ensures JobsUntouched(s, LoopApplied(c, s, q)) && SteadyPlans(s, LoopApplied(c, s, q))
  {
  }

  lemma LoopActors(c: Config, s: State, q: LoopStep)
    requires LoopEnabled(c, s, q) && s.execs.Keys == s.planned.Keys
    requires !q.Resume? ==> ActorKnows(s, q.l)
    ensures SteadyActors(s, LoopApplied(c, s, q))
  {
  }

  lemma SendJobs(c: Config, s: State, q: SendStep)
    requires SendEnabled(c, s, q) && Messages(s) && ActorKnows(s, q.l)
    ensures SteadyJobs(s, SendApplied(c, s, q))
  {
  }

  lemma SendActors(c: Config, s: State, q: SendStep)
    requires SendEnabled(c, s, q) && ActorKnows(s, q.l)
    ensures SteadyActors(s, SendApplied(c, s, q)) && SteadyPlans(s, SendApplied(c, s, q))
  {
  }

  lemma SweepIsSteady(c: Config, s: State, q: SweepStep)
    requires SweepEnabled(c, s, q) && Messages(s) && ActorKnows(s, q.l)
    ensures SteadyJobs(s, SweepApplied(c, s, q)) && SteadyPlans(s, SweepApplied(c, s, q))
  {
  }

  lemma SweepActors(c: Config, s: State, q: SweepStep)
    requires SweepEnabled(c, s, q) && ActorKnows(s, q.l)
    ensures SteadyActors(s, SweepApplied(c, s, q))
  {
  }

  lemma RecoveryIsSteady(c: Config, s: State, q: RecoveryStep)
    requires RecoveryEnabled(c, s, q)
    ensures JobsUntouched(s, RecoveryApplied(c, s, q)) && SteadyPlans(s, RecoveryApplied(c, s, q))
  {
  }

  lemma RecoveryActors(c: Config, s: State, q: RecoveryStep)
    requires RecoveryEnabled(c, s, q) && s.execs.Keys == s.planned.Keys
    ensures SteadyActors(s, RecoveryApplied(c, s, q))
  {
  }

  lemma HolderIsSteady(c: Config, s: State, q: HolderStep)
    requires HolderEnabled(c, s, q)
    ensures JobsUntouched(s, HolderApplied(c, s, q)) && SteadyPlans(s, HolderApplied(c, s, q))
    ensures SteadyActors(s, HolderApplied(c, s, q))
  {
  }

  lemma WorkerJobs(c: Config, s: State, q: WorkerStep)
    requires WorkerEnabled(c, s, q) && Messages(s) && SentAreWhole(s)
    ensures SteadyJobs(s, WorkerApplied(c, s, q))
  {
    if q.WorkerClaims? {
      ClaimJobs(c, s, q);
    }
  }

  lemma ClaimJobs(c: Config, s: State, q: WorkerStep)
    requires q.WorkerClaims? && WorkerEnabled(c, s, q) && Messages(s) && SentAreWhole(s)
    ensures SteadyJobs(s, WorkerApplied(c, s, q))
  {
    var t := WorkerApplied(c, s, q);
    assert forall j | j in t.live :: j in s.live || j == q.j;
  }

  lemma WorkerActors(c: Config, s: State, q: WorkerStep)
    requires WorkerEnabled(c, s, q)
    ensures SteadyPlans(s, WorkerApplied(c, s, q)) && SteadyActors(s, WorkerApplied(c, s, q))
  {
  }

  /** The planner's steps that neither save a job nor end the plan. */
  predicate Preparing(q: PlanStep) {
    q.PlannerClaims? || q.PlannerMarksRunning? || q.PlannerHandsOver? || q.PlannerRaises?
  }

  lemma PlannerJobs(c: Config, s: State, q: PlanStep)
    requires PlanEnabled(c, s, q) && Preparing(q)
    ensures JobsUntouched(s, PlanApplied(c, s, q)) && SteadyPlans(s, PlanApplied(c, s, q))
  {
  }

  lemma PlannerActors(c: Config, s: State, q: PlanStep)
    requires PlanEnabled(c, s, q) && Preparing(q) && ActorKnows(s, q.p)
    ensures SteadyActors(s, PlanApplied(c, s, q))
  {
  }

  /** Cancelling and retrying select by state: a job that is not whole can only be cancelled. */
  lemma OperatorJobs(c: Config, s: State, q: OperatorStep, j: JobId)
    requires OperatorEnabled(c, s, q) && j in s.jobs && s.jobs[j].exec in s.planned && JobKnows(s, j)
    ensures var t := OperatorApplied(c, s, q);
            j in t.jobs && t.jobs[j].exec in t.planned && JobKnows(t, j)
  {
  }

  lemma OperatorRest(c: Config, s: State, q: OperatorStep)
    requires OperatorEnabled(c, s, q)
    ensures var t := OperatorApplied(c, s, q);
            && t.jobs.Keys == s.jobs.Keys && t.sent == s.sent && t.live == s.live && t.actors == s.actors
            && (forall j | j in s.jobs :: t.jobs[j].exec == s.jobs[j].exec)
            && SteadyPlans(s, t)
  {
  }

  lemma OperatorKeepsPlanInv(c: Config, s: State, q: OperatorStep)
    requires OperatorEnabled(c, s, q) && PlanInv(s)
    ensures PlanInv(OperatorApplied(c, s, q))
  {
    var t := OperatorApplied(c, s, q);
    OperatorRest(c, s, q);
    forall j | j in t.jobs
      ensures JobKnows(t, j)
    {
      assert JobKnows(s, j);
      OperatorJobs(c, s, q, j);
    }
    ActorsKeepKnowing(s, t);
  }

  /** What the phases know is about plans and about which jobs there are, not about their states. */
  lemma ActorsKeepKnowing(s: State, t: State)
    requires PlanInv(s) && SteadyPlans(s, t) && t.actors == s.actors && t.jobs.Keys == s.jobs.Keys
    requires forall j | j in s.jobs :: t.jobs[j].exec == s.jobs[j].exec
    ensures forall a | a in t.actors :: Known(t, a) && PhaseKnows(t, a)
  {
  }

  lemma SplitPlan(unsaved: seq<JobId>, n: nat)
    requires n <= |unsaved|
    ensures (set i | 0 <= i < n :: unsaved[i]) + Ids(unsaved[n..]) == Ids(unsaved)
  {
  }

  lemma SavesKeepsPlanInv(c: Config, s: State, q: PlanStep)
    requires q.PlannerSaves? && PlanEnabled(c, s, q) && PlanInv(s)
    ensures PlanInv(PlanApplied(c, s, q))
  {
    SavesJobs(c, s, q);
    SavesActors(c, s, q);
    assert PhaseKnows(s, q.p);
    SplitPlan(PhaseOf(s, q.p).unsaved, q.n);
  }

  lemma SavesJobs(c: Config, s: State, q: PlanStep)
    requires q.PlannerSaves? && PlanEnabled(c, s, q) && PlanInv(s)
    ensures forall j | j in PlanApplied(c, s, q).jobs :: JobKnows(PlanApplied(c, s, q), j)
  {
  }

  lemma SavesActors(c: Config, s: State, q: PlanStep)
    requires q.PlannerSaves? && PlanEnabled(c, s, q) && PlanInv(s)
    ensures forall a | a in PlanApplied(c, s, q).actors ::
              Known(PlanApplied(c, s, q), a) && PhaseKnows(PlanApplied(c, s, q), a)
  {
    var t := PlanApplied(c, s, q);
    assert PhaseKnows(s, q.p);
    SplitPlan(PhaseOf(s, q.p).unsaved, q.n);
    forall a | a in t.actors
      ensures Known(t, a) && PhaseKnows(t, a)
    {
      assert Known(s, a) && PhaseKnows(s, a);
    }
  }

  lemma AcceptJobs(c: Config, s: State, q: PlanStep)
    requires q.Accept? && PlanEnabled(c, s, q) && PlanInv(s)
    ensures forall j | j in PlanApplied(c, s, q).jobs :: JobKnows(PlanApplied(c, s, q), j)
  {
  }

  lemma AcceptActors(c: Config, s: State, q: PlanStep)
    requires q.Accept? && PlanEnabled(c, s, q) && PlanInv(s)
    ensures forall a | a in PlanApplied(c, s, q).actors ::
              Known(PlanApplied(c, s, q), a) && PhaseKnows(PlanApplied(c, s, q), a)
  {
  }

  lemma AcceptKeepsPlanInv(c: Config, s: State, q: PlanStep)
    requires q.Accept? && PlanEnabled(c, s, q) && PlanInv(s)
    ensures PlanInv(PlanApplied(c, s, q))
  {
    AcceptJobs(c, s, q);
    AcceptActors(c, s, q);
    PlansStayApart(s.planned, q.e, q.plan);
  }

  lemma PlansStayApart(planned: map<ExecId, set<JobId>>, e: ExecId, plan: seq<JobId>)
    requires e !in planned && forall j, e' | j in plan && e' in planned :: j !in planned[e']
    requires forall d, d' | d in planned && d' in planned && d != d' :: planned[d] !! planned[d']
    ensures var more := planned[e := set j | j in plan];
            forall d, d' | d in more && d' in more && d != d' :: more[d] !! more[d']
  {
  }

  lemma CompletesKeepsPlanInv(c: Config, s: State, q: PlanStep)
    requires q.PlannerCompletes? && PlanEnabled(c, s, q) && PlanInv(s)
    ensures PlanInv(PlanApplied(c, s, q))
  {
    var t := PlanApplied(c, s, q);
    assert PhaseKnows(s, q.p);
    assert Ids([]) == {};
    forall j | j in t.jobs
      ensures JobKnows(t, j)
    {
      assert JobKnows(s, j);
    }
    forall a | a in t.actors
      ensures Known(t, a) && PhaseKnows(t, a)
    {
      assert Known(s, a) && PhaseKnows(s, a);
    }
  }

  lemma AbortsKeepsPlanInv(c: Config, s: State, q: PlanStep)
    requires q.PlannerAborts? && PlanEnabled(c, s, q) && PlanInv(s)
    ensures PlanInv(PlanApplied(c, s, q))
  {
    var t := PlanApplied(c, s, q);
    var m := Leave(s, q.p);
    assert SteadyPlans(s, m) && SteadyActors(s, m) && SteadyJobs(s, m);
    SteadyKeepsPlanInv(s, m);
    OperatorKeepsPlanInv(c, m, CancelJobs(ExecOf(s, q.p)));
  }

  lemma PlanStepKeepsPlanInv(c: Config, s: State, q: PlanStep)
    requires PlanEnabled(c, s, q) && PlanInv(s)
    ensures PlanInv(PlanApplied(c, s, q))
  {
    match q {
      case Accept(_, _, _) => AcceptKeepsPlanInv(c, s, q);
      case PlannerSaves(_, _, _) => SavesKeepsPlanInv(c, s, q);
      case PlannerAborts(_) => AbortsKeepsPlanInv(c, s, q);
      case PlannerCompletes(_) => CompletesKeepsPlanInv(c, s, q);
      case _ =>
        assert ActorKnows(s, q.p);
        PlannerJobs(c, s, q);
        PlannerActors(c, s, q);
        SteadyKeepsPlanInv(s, PlanApplied(c, s, q));
    }
  }

  lemma LoopKeepsPlanInv(c: Config, s: State, q: LoopStep)
    requires LoopEnabled(c, s, q) && PlanInv(s)
    ensures PlanInv(LoopApplied(c, s, q))
  {
    assert !q.Resume? ==> ActorKnows(s, q.l);
    LoopJobs(c, s, q);
    LoopActors(c, s, q);
    SteadyKeepsPlanInv(s, LoopApplied(c, s, q));
  }

  lemma SendKeepsPlanInv(c: Config, s: State, q: SendStep)
    requires SendEnabled(c, s, q) && PlanInv(s)
    ensures PlanInv(SendApplied(c, s, q))
  {
    assert ActorKnows(s, q.l);
    SendJobs(c, s, q);
    SendActors(c, s, q);
    SteadyKeepsPlanInv(s, SendApplied(c, s, q));
  }

  lemma SweepKeepsPlanInv(c: Config, s: State, q: SweepStep)
    requires SweepEnabled(c, s, q) && PlanInv(s)
    ensures PlanInv(SweepApplied(c, s, q))
  {
    assert ActorKnows(s, q.l);
    SweepIsSteady(c, s, q);
    SweepActors(c, s, q);
    SteadyKeepsPlanInv(s, SweepApplied(c, s, q));
  }

  lemma RecoveryKeepsPlanInv(c: Config, s: State, q: RecoveryStep)
    requires RecoveryEnabled(c, s, q) && PlanInv(s)
    ensures PlanInv(RecoveryApplied(c, s, q))
  {
    RecoveryIsSteady(c, s, q);
    RecoveryActors(c, s, q);
    SteadyKeepsPlanInv(s, RecoveryApplied(c, s, q));
  }

  lemma HolderKeepsPlanInv(c: Config, s: State, q: HolderStep)
    requires HolderEnabled(c, s, q) && PlanInv(s)
    ensures PlanInv(HolderApplied(c, s, q))
  {
    HolderIsSteady(c, s, q);
    SteadyKeepsPlanInv(s, HolderApplied(c, s, q));
  }

  lemma WorkerKeepsPlanInv(c: Config, s: State, q: WorkerStep)
    requires WorkerEnabled(c, s, q) && PlanInv(s)
    ensures PlanInv(WorkerApplied(c, s, q))
  {
    forall j | j in s.sent
      ensures s.execs[s.jobs[j].exec].planComplete
    {
      assert JobKnows(s, j);
    }
    WorkerJobs(c, s, q);
    WorkerActors(c, s, q);
    SteadyKeepsPlanInv(s, WorkerApplied(c, s, q));
  }

  lemma PlanInvKept(c: Config, s: State, step: Step)
    requires Enabled(c, s, step) && PlanInv(s)
    ensures PlanInv(Apply(c, s, step))
  {
    match step {
      case Tick(_) => SteadyKeepsPlanInv(s, Apply(c, s, step));
      case Plan(q) => PlanStepKeepsPlanInv(c, s, q);
      case Loop(q) => LoopKeepsPlanInv(c, s, q);
      case Send(q) => SendKeepsPlanInv(c, s, q);
      case Sweep(q) => SweepKeepsPlanInv(c, s, q);
      case Recover(q) => RecoveryKeepsPlanInv(c, s, q);
      case Hold(q) => HolderKeepsPlanInv(c, s, q);
      case Operate(q) => OperatorKeepsPlanInv(c, s, q);
      case Work(q) => WorkerKeepsPlanInv(c, s, q);
    }
  }

  lemma {:induction false} PlanInvAlways(c: Config, states: seq<State>, steps: seq<Step>, i: nat)
    requires IsRun(c, states, steps) && i < |states|
    ensures PlanInv(states[i])
  {
    if i > 0 {
      PlanInvAlways(c, states, steps, i - 1);
      assert Follows(c, states, steps, i - 1);
      PlanInvKept(c, states[i - 1], steps[i - 1]);
    }
  }

  /** While `plan_complete` is false no job of the execution is queued for a worker, started or sent. */
  lemma PlanFragmentsAreNeverDispatched(
      c: Config, states: seq<State>, steps: seq<Step>, i: nat, e: ExecId, j: JobId)
    requires IsRun(c, states, steps) && i < |states|
    requires e in states[i].execs && !states[i].execs[e].planComplete
    requires j in states[i].jobs && states[i].jobs[j].exec == e
    ensures states[i].jobs[j].state in {Pending, Cancelled} && states[i].jobs[j].attempts == 0
    ensures j !in states[i].sent && j !in states[i].live
  {
    PlanInvAlways(c, states, steps, i);
    assert JobKnows(states[i], j);
  }

  /** A message goes out only once every job of its execution's whole plan is saved. */
  lemma OnlyWholePlansAreSent(c: Config, states: seq<State>, steps: seq<Step>, i: nat, j: JobId, other: JobId)
    requires IsRun(c, states, steps) && i < |states| && j in states[i].sent
    ensures j in states[i].jobs && states[i].jobs[j].exec in states[i].planned
    ensures other in states[i].planned[states[i].jobs[j].exec] ==>
              other in states[i].jobs && states[i].jobs[other].exec == states[i].jobs[j].exec
  {
    PlanInvAlways(c, states, steps, i);
    var s := states[i];
    assert JobKnows(s, j);
    if other in s.planned[s.jobs[j].exec] {
      assert JobKnows(s, other);
    }
  }
}
