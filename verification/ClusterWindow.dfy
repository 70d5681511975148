/**
  The in-flight window over whole runs: how many jobs of one execution are dispatched, running or
  sent and not yet marked, however workers interleave with the send loop.
 */
module ClusterWindow {

  import opened Wrappers
  import opened JobTable
  import opened ExecutionTable
  import opened SetFacts
  import opened Cluster
  import opened ClusterLeases
  import opened ClusterPlans

  /** Running on a claim the send loop had not accounted for. */
  ghost function Overdrawn(s: State, e: ExecId): set<JobId> {
    set j | j in s.jobs && s.jobs[j].exec == e && s.jobs[j].state.Running? && j in s.excess
  }

  /** The rest of the jobs in flight: the ones the window is about. */
  ghost function Core(s: State, e: ExecId): set<JobId> {
    set j | j in s.jobs && s.jobs[j].exec == e
            && (s.jobs[j].state.Dispatched? || (s.jobs[j].state.Running? && j !in s.excess))
  }

  function Unmarked(p: Phase): set<JobId> {
    if p.Sending? && p.unmarked.Some? then {p.unmarked.value} else {}
  }

  /** Sends the loop may still make before it counts again. */
  function Budget(p: Phase): nat {
    match p
    case Counted(free) => free
    case Sending(todo, _) => |todo|
    case _ => 0
  }

  predicate Drives(s: State, l: DriverId, e: ExecId) {
    IsActor(s, l, e) && Active(PhaseOf(s, l))
  }

  ghost function Load(s: State, l: DriverId, e: ExecId): nat
    requires Drives(s, l, e)
  {
    |Core(s, e) + Unmarked(PhaseOf(s, l))| + Budget(PhaseOf(s, l))
  }

  ghost predicate WindowInv(c: Config, s: State, e: ExecId) {
    && |Core(s, e)| <= c.maxInFlight
    && forall l | Drives(s, l, e) :: Load(s, l, e) <= c.maxInFlight
  }

  ghost predicate OneLoop(s: State, e: ExecId) {
    forall l, l' | Drives(s, l, e) && Drives(s, l', e) :: l == l'
  }

  // ----- steps that only shrink the load -----

  predicate Lighter(p: Phase, q: Phase) {
    Unmarked(q) <= Unmarked(p) && Budget(q) <= Budget(p)
  }

  lemma LighterKeepsWindow(c: Config, s: State, t: State, e: ExecId)
    requires WindowInv(c, s, e) && Core(t, e) <= Core(s, e)
    requires forall l | Drives(t, l, e) ::
               || Lighter(Driving, PhaseOf(t, l))
               || (Drives(s, l, e) && Lighter(PhaseOf(s, l), PhaseOf(t, l)))
    ensures WindowInv(c, t, e)
  {
    SubsetSize(Core(t, e), Core(s, e));
    forall l | Drives(t, l, e)
      ensures Load(t, l, e) <= c.maxInFlight
    {
      if Lighter(Driving, PhaseOf(t, l)) {
        assert Core(t, e) + Unmarked(PhaseOf(t, l)) == Core(t, e);
      } else {
        SubsetSize(Core(t, e) + Unmarked(PhaseOf(t, l)), Core(s, e) + Unmarked(PhaseOf(s, l)));
        assert Load(s, l, e) <= c.maxInFlight;
      }
    }
  }

  lemma SameCore(s: State, t: State, e: ExecId)
    requires t.jobs == s.jobs && t.excess == s.excess
    ensures Core(t, e) == Core(s, e)
  {
  }

  lemma PlanKeepsWindow(c: Config, s: State, q: PlanStep, e: ExecId)
    requires PlanEnabled(c, s, q) && WindowInv(c, s, e) && forall a | a in s.actors :: Known(s, a)
    ensures WindowInv(c, PlanApplied(c, s, q), e)
  {
    var t := PlanApplied(c, s, q);
    assert Core(t, e) <= Core(s, e);
    PlanDrivers(c, s, q, e);
    LighterKeepsWindow(c, s, t, e);
  }

  lemma PlanDrivers(c: Config, s: State, q: PlanStep, e: ExecId)
    requires PlanEnabled(c, s, q) && forall a | a in s.actors :: Known(s, a)
    ensures var t := PlanApplied(c, s, q);
            forall l | Drives(t, l, e) :: Drives(s, l, e) && PhaseOf(t, l) == PhaseOf(s, l)
  {
  }

  lemma LoopKeepsWindow(c: Config, s: State, q: LoopStep, e: ExecId)
    requires LoopEnabled(c, s, q) && WindowInv(c, s, e)
    ensures WindowInv(c, LoopApplied(c, s, q), e)
  {
    if q.CountsJobs? && ExecOf(s, q.l) == e {
      CountKeepsWindow(c, s, q, e);
    } else {
      LoopDrivers(c, s, q, e);
      SameCore(s, LoopApplied(c, s, q), e);
      LighterKeepsWindow(c, s, LoopApplied(c, s, q), e);
    }
  }

  lemma CountKeepsWindow(c: Config, s: State, q: LoopStep, e: ExecId)
    requires q.CountsJobs? && LoopEnabled(c, s, q) && WindowInv(c, s, e) && ExecOf(s, q.l) == e
    ensures WindowInv(c, LoopApplied(c, s, q), e)
  {
    var t := LoopApplied(c, s, q);
    SameCore(s, t, e);
    assert Core(s, e) <= InFlight(s.jobs, e);
    SubsetSize(Core(s, e), InFlight(s.jobs, e));
    forall l | Drives(t, l, e)
      ensures Load(t, l, e) <= c.maxInFlight
    {
      if l == q.l {
        assert Core(t, e) + Unmarked(PhaseOf(t, l)) == Core(s, e);
      } else {
        assert Drives(s, l, e) && Load(s, l, e) <= c.maxInFlight && PhaseOf(t, l) == PhaseOf(s, l);
      }
    }
  }

  lemma LoopDrivers(c: Config, s: State, q: LoopStep, e: ExecId)
    requires LoopEnabled(c, s, q) && !(q.CountsJobs? && ExecOf(s, q.l) == e)
    ensures var t := LoopApplied(c, s, q);
            t.jobs == s.jobs && t.excess == s.excess
    ensures var t := LoopApplied(c, s, q);
            forall l | Drives(t, l, e) ::
              || Lighter(Driving, PhaseOf(t, l))
              || (Drives(s, l, e) && Lighter(PhaseOf(s, l), PhaseOf(t, l)))
  {
  }

  lemma SweepKeepsWindow(c: Config, s: State, q: SweepStep, e: ExecId)
    requires SweepEnabled(c, s, q) && WindowInv(c, s, e)
    ensures WindowInv(c, SweepApplied(c, s, q), e)
  {
    var t := SweepApplied(c, s, q);
    assert Core(t, e) <= Core(s, e);
    LighterKeepsWindow(c, s, t, e);
  }

  lemma RecoveryKeepsWindow(c: Config, s: State, q: RecoveryStep, e: ExecId)
    requires RecoveryEnabled(c, s, q) && WindowInv(c, s, e)
    ensures WindowInv(c, RecoveryApplied(c, s, q), e)
  {
    var t := RecoveryApplied(c, s, q);
    SameCore(s, t, e);
    LighterKeepsWindow(c, s, t, e);
  }

  lemma HolderKeepsWindow(c: Config, s: State, q: HolderStep, e: ExecId)
    requires HolderEnabled(c, s, q) && WindowInv(c, s, e)
    ensures WindowInv(c, HolderApplied(c, s, q), e)
  {
    var t := HolderApplied(c, s, q);
    HolderDrivers(c, s, q, e);
    SameCore(s, t, e);
    LighterKeepsWindow(c, s, t, e);
  }

  lemma HolderDrivers(c: Config, s: State, q: HolderStep, e: ExecId)
    requires HolderEnabled(c, s, q)
    ensures var t := HolderApplied(c, s, q);
            && t.jobs == s.jobs && t.excess == s.excess
            && forall l | Drives(t, l, e) :: Drives(s, l, e) && PhaseOf(t, l) == PhaseOf(s, l)
  {
  }

  lemma OperatorKeepsWindow(c: Config, s: State, q: OperatorStep, e: ExecId)
    requires OperatorEnabled(c, s, q) && WindowInv(c, s, e)
    ensures WindowInv(c, OperatorApplied(c, s, q), e)
  {
    var t := OperatorApplied(c, s, q);
    assert Core(t, e) <= Core(s, e);
    LighterKeepsWindow(c, s, t, e);
  }

  // ----- the send loop -----

  lemma SendKeepsWindow(c: Config, s: State, q: SendStep, e: ExecId)
    requires SendEnabled(c, s, q) && WindowInv(c, s, e) && OneLoop(s, e) && ActorKnows(s, q.l)
    ensures WindowInv(c, SendApplied(c, s, q), e)
  {
    var t := SendApplied(c, s, q);
    SendDrivers(c, s, q, e);
    if ExecOf(s, q.l) != e {
      OtherExecutionsSend(c, s, q, e);
      LighterKeepsWindow(c, s, t, e);
      return;
    }
    assert Drives(s, q.l, e) && Load(s, q.l, e) <= c.maxInFlight;
    SendGrowsCoreByItsOwn(c, s, q, e);
    SubsetSize(Core(t, e), Core(s, e) + Unmarked(PhaseOf(s, q.l)));
    forall l | Drives(t, l, e)
      ensures Load(t, l, e) <= c.maxInFlight
    {
      assert Drives(s, l, e) && l == q.l;
      SendLoad(c, s, q, e);
    }
  }

  lemma SendDrivers(c: Config, s: State, q: SendStep, e: ExecId)
    requires SendEnabled(c, s, q)
    ensures var t := SendApplied(c, s, q);
            && q.l in t.actors
            && forall l | Drives(t, l, e) :: Drives(s, l, e) && (l != q.l ==> PhaseOf(t, l) == PhaseOf(s, l))
  {
  }

  lemma OtherExecutionsSend(c: Config, s: State, q: SendStep, e: ExecId)
    requires SendEnabled(c, s, q) && ActorKnows(s, q.l) && ExecOf(s, q.l) != e
    ensures Core(SendApplied(c, s, q), e) <= Core(s, e)
  {
  }

  /** The load of the sending loop: a send moves one unit from its budget to its unmarked job. */
  lemma SendLoad(c: Config, s: State, q: SendStep, e: ExecId)
    requires SendEnabled(c, s, q) && Drives(s, q.l, e) && Drives(SendApplied(c, s, q), q.l, e)
    ensures Load(SendApplied(c, s, q), q.l, e) <= Load(s, q.l, e)
  {
    var t, p := SendApplied(c, s, q), PhaseOf(s, q.l);
    SendGrowsCoreByItsOwn(c, s, q, e);
    SendPhases(c, s, q);
    if q.Sends? {
      SubsetSize(Core(t, e) + Unmarked(PhaseOf(t, q.l)), Core(s, e) + {p.todo[0]});
      assert Core(s, e) + Unmarked(p) == Core(s, e);
    } else {
      SubsetSize(Core(t, e) + Unmarked(PhaseOf(t, q.l)), Core(s, e) + Unmarked(p));
    }
  }

  lemma SendPhases(c: Config, s: State, q: SendStep)
    requires SendEnabled(c, s, q)
    ensures var p, p' := PhaseOf(s, q.l), PhaseOf(SendApplied(c, s, q), q.l);
            if q.Sends? then Unmarked(p) == {} && Unmarked(p') == {p.todo[0]} && Budget(p') == Budget(p) - 1
            else Unmarked(p') == {} && Budget(p') <= Budget(p)
  {
  }

  lemma SendGrowsCoreByItsOwn(c: Config, s: State, q: SendStep, e: ExecId)
    requires SendEnabled(c, s, q)
    ensures Core(SendApplied(c, s, q), e) <= Core(s, e) + Unmarked(PhaseOf(s, q.l))
    ensures !q.MarksSent? ==> Core(SendApplied(c, s, q), e) <= Core(s, e)
  {
  }

  // ----- workers -----

  lemma WorkerKeepsWindow(c: Config, s: State, q: WorkerStep, e: ExecId)
    requires WorkerEnabled(c, s, q) && WindowInv(c, s, e) && OneLoop(s, e)
    requires forall a | a in s.actors :: ActorKnows(s, a)
    ensures WindowInv(c, WorkerApplied(c, s, q), e)
  {
    var t := WorkerApplied(c, s, q);
    WorkerDrivers(c, s, q);
    if Core(t, e) <= Core(s, e) {
      LighterKeepsWindow(c, s, t, e);
    } else {
      ClaimGrowsCore(c, s, q, e);
      CountedClaim(c, s, t, e, q.j);
    }
  }

  lemma WorkerDrivers(c: Config, s: State, q: WorkerStep)
    requires WorkerEnabled(c, s, q)
    ensures WorkerApplied(c, s, q).actors == s.actors && WorkerApplied(c, s, q).execs == s.execs
  {
  }

  /** Only the claim of the job whose mark is outstanding adds to the core, and the loop already counts it. */
  lemma CountedClaim(c: Config, s: State, t: State, e: ExecId, j: JobId)
    requires WindowInv(c, s, e) && OneLoop(s, e) && t.actors == s.actors && t.execs == s.execs
    requires forall a | a in s.actors :: ActorKnows(s, a)
    requires j in s.jobs && s.jobs[j].exec == e && AwaitingMark(s, j) && Core(t, e) == Core(s, e) + {j}
    ensures WindowInv(c, t, e)
  {
    var l :| l in s.actors && PhaseOf(s, l).Sending? && PhaseOf(s, l).unmarked == Some(j);
    assert ActorKnows(s, l);
    assert Drives(s, l, e) && Load(s, l, e) <= c.maxInFlight;
    SubsetSize(Core(t, e), Core(s, e) + Unmarked(PhaseOf(s, l)));
    forall l' | Drives(t, l', e)
      ensures Load(t, l', e) <= c.maxInFlight
    {
      assert Drives(s, l', e) && l' == l;
      assert Core(t, e) + Unmarked(PhaseOf(t, l')) == Core(s, e) + Unmarked(PhaseOf(s, l));
    }
  }

  lemma ClaimGrowsCore(c: Config, s: State, q: WorkerStep, e: ExecId)
    requires WorkerEnabled(c, s, q) && !(Core(WorkerApplied(c, s, q), e) <= Core(s, e))
    ensures q.WorkerClaims? && q.j in s.jobs && s.jobs[q.j].exec == e && AwaitingMark(s, q.j)
    ensures Core(WorkerApplied(c, s, q), e) == Core(s, e) + {q.j}
  {
  }

  lemma WindowInvKept(c: Config, s: State, step: Step, e: ExecId)
    requires Enabled(c, s, step) && WindowInv(c, s, e) && OneLoop(s, e)
    requires forall a | a in s.actors :: ActorKnows(s, a)
    ensures WindowInv(c, Apply(c, s, step), e)
  {
    match step {
      case Tick(_) =>
        SameCore(s, Apply(c, s, step), e);
        LighterKeepsWindow(c, s, Apply(c, s, step), e);
      case Plan(q) =>
        assert forall a | a in s.actors :: ActorKnows(s, a) && Known(s, a);
        PlanKeepsWindow(c, s, q, e);
      case Loop(q) => LoopKeepsWindow(c, s, q, e);
      case Send(q) => SendKeepsWindow(c, s, q, e);
      case Sweep(q) => SweepKeepsWindow(c, s, q, e);
      case Recover(q) => RecoveryKeepsWindow(c, s, q, e);
      case Hold(q) => HolderKeepsWindow(c, s, q, e);
      case Operate(q) => OperatorKeepsWindow(c, s, q, e);
      case Work(q) => WorkerKeepsWindow(c, s, q, e);
    }
  }

  lemma {:induction false} WindowInvAlways(c: Config, states: seq<State>, steps: seq<Step>, n: nat, e: ExecId)
    requires IsRun(c, states, steps) && n < |states|
    requires forall i | 0 <= i < n :: OneLoop(states[i], e)
    ensures WindowInv(c, states[n], e)
  {
    if n > 0 {
      WindowInvAlways(c, states, steps, n - 1, e);
      PlanInvAlways(c, states, steps, n - 1);
      var s := states[n - 1];
      assert forall a | a in s.actors :: Known(s, a) && PhaseKnows(s, a) && ActorKnows(s, a);
      assert Follows(c, states, steps, n - 1);
      WindowInvKept(c, states[n - 1], steps[n - 1], e);
    } else {
      assert Core(states[0], e) == {};
    }
  }

  /** Every loop that dispatches the execution does so within its lease. */
  ghost predicate Prompt(c: Config, s: State, e: ExecId) {
    forall l | Drives(s, l, e) :: Fresh(c, s, l)
  }

  lemma PromptLoopsAreOne(c: Config, states: seq<State>, steps: seq<Step>, i: nat, e: ExecId)
    requires IsRun(c, states, steps) && i < |states| && Prompt(c, states[i], e)
    ensures OneLoop(states[i], e)
  {
    forall l, l' | Drives(states[i], l, e) && Drives(states[i], l', e)
      ensures l == l'
    {
      SingleDriver(c, states, steps, i, l, l');
    }
  }

  lemma WindowSizes(c: Config, s: State, e: ExecId, l: DriverId)
    requires WindowInv(c, s, e)
    ensures |InFlight(s.jobs, e)| <= c.maxInFlight + |Overdrawn(s, e)|
    ensures Drives(s, l, e) ==>
              |InFlight(s.jobs, e) + Unmarked(PhaseOf(s, l))| <= c.maxInFlight + |Overdrawn(s, e)|
  {
    assert InFlight(s.jobs, e) == Core(s, e) + Overdrawn(s, e);
    if Drives(s, l, e) {
      var u := Unmarked(PhaseOf(s, l));
      assert Load(s, l, e) <= c.maxInFlight;
      assert InFlight(s.jobs, e) + u == (Core(s, e) + u) + Overdrawn(s, e);
    }
  }

  /**
    The window. While loops act within their leases, the jobs dispatched, running or sent and not
    yet marked exceed the cap by no more than the jobs running on an unaccounted claim.
   */
  lemma InFlightWindow(c: Config, states: seq<State>, steps: seq<Step>, n: nat, e: ExecId, l: DriverId)
    requires IsRun(c, states, steps) && n < |states|
    requires forall i | 0 <= i <= n :: Prompt(c, states[i], e)
    ensures |InFlight(states[n].jobs, e)| <= c.maxInFlight + |Overdrawn(states[n], e)|
    ensures Drives(states[n], l, e) ==>
              |InFlight(states[n].jobs, e) + Unmarked(PhaseOf(states[n], l))|
              <= c.maxInFlight + |Overdrawn(states[n], e)|
  {
    forall i | 0 <= i <= n
      ensures OneLoop(states[i], e)
    {
      PromptLoopsAreOne(c, states, steps, i, e);
    }
    WindowInvAlways(c, states, steps, n, e);
    WindowSizes(c, states[n], e, l);
  }

  // ----- where an unaccounted claim comes from -----

  /** The step leaves a message behind for a job that is pending without a mark to come. */
  predicate LeavesStaleMessage(s: State, step: Step, j: JobId) {
    match step
    case Send(SendInDoubt(l)) => l in s.actors && ReadyToSend(PhaseOf(s, l)) && PhaseOf(s, l).todo[0] == j
    case Send(PassFails(l)) => l in s.actors && j in Unmarked(PhaseOf(s, l))
    case Hold(Crash(a)) => a in s.actors && j in Unmarked(PhaseOf(s, a))
    case Sweep(q) => j in s.jobs && s.jobs[j].state in {Running, Dispatched} && Resets(s, q, j)
    case Operate(RetryJobs(e, errorContains)) => j in s.jobs && Retryable(s.jobs[j], e, errorContains)
    case _ => false
  }

  /** The sweep statement puts this job back to pending. */
  predicate Resets(s: State, q: SweepStep, j: JobId)
    requires j in s.jobs
  {
    && q.l in s.actors
    && match q
       case SweepFailsLost(_, _) => false
       case SweepRequeuesRunning(l, _) =>
         PhaseOf(s, l).SweptLost? && StaleRunning(s.jobs[j], ExecOf(s, l), PhaseOf(s, l).runningCutoff)
       case SweepRequeuesDispatched(l, _) =>
         PhaseOf(s, l).SweptRunning? && StaleDispatched(s.jobs[j], ExecOf(s, l), PhaseOf(s, l).dispatchCutoff)
  }

  /** A sent job that is pending has its mark outstanding, and no claim of it was unaccounted. */
  ghost predicate InStep(s: State, j: JobId) {
    && (j in s.sent ==> j in s.jobs)
    && (j in s.sent && s.jobs[j].state.Pending? ==> AwaitingMark(s, j))
    && j !in s.excess
  }

  lemma PlanKeepsInStep(c: Config, s: State, q: PlanStep, j: JobId)
    requires PlanEnabled(c, s, q) && InStep(s, j)
    ensures InStep(PlanApplied(c, s, q), j)
  {
    var t := PlanApplied(c, s, q);
    if AwaitingMark(s, j) {
      var l :| l in s.actors && s.actors[l].phase.Sending? && s.actors[l].phase.unmarked == Some(j);
      assert l in t.actors && t.actors[l].phase == s.actors[l].phase;
    }
  }

  lemma LoopKeepsInStep(c: Config, s: State, q: LoopStep, j: JobId)
    requires LoopEnabled(c, s, q) && InStep(s, j)
    ensures InStep(LoopApplied(c, s, q), j)
  {
    var t := LoopApplied(c, s, q);
    if AwaitingMark(s, j) {
      var l :| l in s.actors && s.actors[l].phase.Sending? && s.actors[l].phase.unmarked == Some(j);
      assert l in t.actors && t.actors[l].phase == s.actors[l].phase;
    }
  }

  lemma SendKeepsInStep(c: Config, s: State, q: SendStep, j: JobId)
    requires SendEnabled(c, s, q) && InStep(s, j) && !LeavesStaleMessage(s, Send(q), j)
    requires ActorKnows(s, q.l)
    ensures InStep(SendApplied(c, s, q), j)
  {
    var t := SendApplied(c, s, q);
    if ReadyToSend(PhaseOf(s, q.l)) {
      assert PhaseOf(s, q.l).todo[0] in PhaseOf(s, q.l).todo;
    }
    if AwaitingMark(s, j) {
      var l :| l in s.actors && s.actors[l].phase.Sending? && s.actors[l].phase.unmarked == Some(j);
      if l != q.l {
        assert l in t.actors && t.actors[l].phase == s.actors[l].phase;
      }
    }
    if q.Sends? {
      assert q.l in t.actors && t.actors[q.l].phase.Sending?;
    }
  }

  /** Whoever awaits a mark still does, or has crashed. */
  lemma StillAwaited(s: State, t: State, j: JobId, a: DriverId)
    requires forall l | l in s.actors && l != a :: l in t.actors && t.actors[l].phase == s.actors[l].phase
    requires a in s.actors ==> j !in Unmarked(PhaseOf(s, a))
    ensures AwaitingMark(s, j) ==> AwaitingMark(t, j)
  {
  }

  lemma SweepKeepsInStep(c: Config, s: State, q: SweepStep, j: JobId)
    requires SweepEnabled(c, s, q) && InStep(s, j) && !LeavesStaleMessage(s, Sweep(q), j)
    ensures InStep(SweepApplied(c, s, q), j)
  {
    StillAwaited(s, SweepApplied(c, s, q), j, q.l);
  }

  lemma RecoveryKeepsInStep(c: Config, s: State, q: RecoveryStep, j: JobId)
    requires RecoveryEnabled(c, s, q) && InStep(s, j)
    ensures InStep(RecoveryApplied(c, s, q), j)
  {
    StillAwaited(s, RecoveryApplied(c, s, q), j, q.r);
  }

  lemma HolderKeepsInStep(c: Config, s: State, q: HolderStep, j: JobId)
    requires HolderEnabled(c, s, q) && InStep(s, j) && !LeavesStaleMessage(s, Hold(q), j)
    ensures InStep(HolderApplied(c, s, q), j)
  {
    var t := HolderApplied(c, s, q);
    if AwaitingMark(s, j) {
      var l :| l in s.actors && s.actors[l].phase.Sending? && s.actors[l].phase.unmarked == Some(j);
      assert l in t.actors && t.actors[l].phase == s.actors[l].phase;
    }
  }

  lemma OperatorKeepsInStep(c: Config, s: State, q: OperatorStep, j: JobId)
    requires OperatorEnabled(c, s, q) && InStep(s, j) && !LeavesStaleMessage(s, Operate(q), j)
    ensures InStep(OperatorApplied(c, s, q), j)
  {
  }

  lemma WorkerKeepsInStep(c: Config, s: State, q: WorkerStep, j: JobId)
    requires WorkerEnabled(c, s, q) && InStep(s, j)
    ensures InStep(WorkerApplied(c, s, q), j)
  {
  }

  lemma InStepKept(c: Config, s: State, step: Step, j: JobId)
    requires Enabled(c, s, step) && InStep(s, j) && !LeavesStaleMessage(s, step, j)
    requires forall a | a in s.actors :: ActorKnows(s, a)
    ensures InStep(Apply(c, s, step), j)
  {
    match step {
      case Plan(q) => PlanKeepsInStep(c, s, q, j);
      case Loop(q) => LoopKeepsInStep(c, s, q, j);
      case Send(q) => SendKeepsInStep(c, s, q, j);
      case Operate(q) => OperatorKeepsInStep(c, s, q, j);
      case Work(q) => WorkerKeepsInStep(c, s, q, j);
      case Sweep(q) => SweepKeepsInStep(c, s, q, j);
      case Recover(q) => RecoveryKeepsInStep(c, s, q, j);
      case Hold(q) => HolderKeepsInStep(c, s, q, j);
      case Tick(_) => assert AwaitingMark(s, j) ==> AwaitingMark(Apply(c, s, step), j);
    }
  }

  lemma {:induction false} InStepUntilStale(c: Config, states: seq<State>, steps: seq<Step>, n: nat, j: JobId)
    requires IsRun(c, states, steps) && n < |states|
    requires forall i | 0 <= i < n :: !LeavesStaleMessage(states[i], steps[i], j)
    ensures InStep(states[n], j)
  {
    if n > 0 {
      InStepUntilStale(c, states, steps, n - 1, j);
      PlanInvAlways(c, states, steps, n - 1);
      var s := states[n - 1];
      assert forall a | a in s.actors :: Known(s, a) && PhaseKnows(s, a) && ActorKnows(s, a);
      assert Follows(c, states, steps, n - 1);
      InStepKept(c, states[n - 1], steps[n - 1], j);
    }
  }

  /** With prompt loops and no stale message the cap is never exceeded, at any point of any run. */
  lemma InFlightCap(c: Config, states: seq<State>, steps: seq<Step>, n: nat, e: ExecId, l: DriverId)
    requires IsRun(c, states, steps) && n < |states|
    requires forall i | 0 <= i <= n :: Prompt(c, states[i], e)
    requires forall i, j | 0 <= i < n :: !LeavesStaleMessage(states[i], steps[i], j)
    ensures |InFlight(states[n].jobs, e)| <= c.maxInFlight
    ensures Drives(states[n], l, e) ==>
              |InFlight(states[n].jobs, e) + Unmarked(PhaseOf(states[n], l))| <= c.maxInFlight
  {
    InFlightWindow(c, states, steps, n, e, l);
    forall j | j in Overdrawn(states[n], e)
      ensures false
    {
      InStepUntilStale(c, states, steps, n, j);
    }
    assert Overdrawn(states[n], e) == {};
  }
}
