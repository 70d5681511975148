/**
  What whole runs do to an execution's state. A settled state is documented to be one the execution
  never leaves on its own; two kinds of unguarded write leave it all the same.
 */
module ClusterStates {

  import opened JobTable
  import opened ExecutionTable
  import opened Cluster
  import opened ClusterLeases
  import opened ClusterRuns

  predicate Settled(s: State, e: ExecId) {
    e in s.execs && Terminal(s.execs[e].state)
  }

  /** The planner's first write, to this execution. */
  predicate Starts(s: State, step: Step, e: ExecId) {
    step.Plan? && step.plan.PlannerMarksRunning? && step.plan.p in s.actors && ExecOf(s, step.plan.p) == e
  }

  /** The write of a pause or a resume of this execution; its check came earlier. */
  predicate PausesOrResumes(step: Step, e: ExecId) {
    step == Operate(Answer(e, Pause)) || step == Operate(Answer(e, Request.Resume))
  }

  lemma PlanAndSettled(c: Config, s: State, q: PlanStep, e: ExecId)
    requires PlanEnabled(c, s, q) && Settled(s, e)
    ensures Settled(PlanApplied(c, s, q), e) <==> !Starts(s, Plan(q), e)
  {
  }

  lemma LoopKeepsSettled(c: Config, s: State, q: LoopStep, e: ExecId)
    requires LoopEnabled(c, s, q) && Settled(s, e)
    ensures Settled(LoopApplied(c, s, q), e)
  {
  }

  lemma RecoveryKeepsSettled(c: Config, s: State, q: RecoveryStep, e: ExecId)
    requires RecoveryEnabled(c, s, q) && Settled(s, e)
    ensures Settled(RecoveryApplied(c, s, q), e)
  {
  }

  lemma HolderKeepsSettled(c: Config, s: State, q: HolderStep, e: ExecId)
    requires HolderEnabled(c, s, q) && Settled(s, e)
    ensures Settled(HolderApplied(c, s, q), e)
  {
  }

  lemma OperatorAndSettled(c: Config, s: State, q: OperatorStep, e: ExecId)
    requires OperatorEnabled(c, s, q) && Settled(s, e) && q != Answer(e, Reopen)
    ensures Settled(OperatorApplied(c, s, q), e) <==> !PausesOrResumes(Operate(q), e)
  {
  }

  /**
    A step that is not a reopening takes an execution out of a settled state if and only if it is its
    planner's first write, or the write of a pause or resume.
   */
  lemma WhenASettledStateIsLeft(c: Config, s: State, step: Step, e: ExecId)
    requires Enabled(c, s, step) && Settled(s, e) && step != Operate(Answer(e, Reopen))
    ensures Settled(Apply(c, s, step), e) <==> !Starts(s, step, e) && !PausesOrResumes(step, e)
  {
    match step {
      case Plan(q) => PlanAndSettled(c, s, q, e);
      case Loop(q) => LoopKeepsSettled(c, s, q, e);
      case Recover(q) => RecoveryKeepsSettled(c, s, q, e);
      case Hold(q) => HolderKeepsSettled(c, s, q, e);
      case Operate(q) => OperatorAndSettled(c, s, q, e);
      case Send(q) => SendKeepsExecs(c, s, q);
      case Sweep(q) => SweepKeepsExecs(c, s, q);
      case Work(q) => WorkerKeepsExecs(c, s, q);
      case Tick(_) =>
    }
  }

  // ----- what can still come -----

  /** A planner of this execution that has not made its first write. */
  predicate YetToStart(s: State, p: DriverId, e: ExecId) {
    p in s.actors && ExecOf(s, p) == e && (PhaseOf(s, p).Accepted? || PhaseOf(s, p).Starting?)
  }

  /** Something read before the execution settled is still to be written. */
  ghost predicate StillToCome(s: State, e: ExecId) {
    || (e, Pause) in s.asked || (e, Request.Resume) in s.asked
    || exists p :: YetToStart(s, p, e)
  }

  /** A step that is about this execution's planners or requests only in ways that settle or end them. */
  ghost predicate NothingNew(s: State, t: State, e: ExecId) {
    && ((e, Pause) in t.asked ==> (e, Pause) in s.asked)
    && ((e, Request.Resume) in t.asked ==> (e, Request.Resume) in s.asked)
    && forall p | YetToStart(t, p, e) :: YetToStart(s, p, e)
  }

  lemma PlanAddsNothing(c: Config, s: State, q: PlanStep, e: ExecId)
    requires PlanEnabled(c, s, q) && e in s.execs
    ensures NothingNew(s, PlanApplied(c, s, q), e)
  {
  }

  lemma LoopAddsNothing(c: Config, s: State, q: LoopStep, e: ExecId)
    requires LoopEnabled(c, s, q)
    ensures NothingNew(s, LoopApplied(c, s, q), e) && LoopApplied(c, s, q).asked == s.asked
  {
  }

  lemma SendAddsNothing(c: Config, s: State, q: SendStep, e: ExecId)
    requires SendEnabled(c, s, q)
    ensures NothingNew(s, SendApplied(c, s, q), e) && SendApplied(c, s, q).asked == s.asked
  {
  }

  lemma SweepAddsNothing(c: Config, s: State, q: SweepStep, e: ExecId)
    requires SweepEnabled(c, s, q)
    ensures NothingNew(s, SweepApplied(c, s, q), e) && SweepApplied(c, s, q).asked == s.asked
  {
  }

  lemma RecoveryAddsNothing(c: Config, s: State, q: RecoveryStep, e: ExecId)
    requires RecoveryEnabled(c, s, q)
    ensures NothingNew(s, RecoveryApplied(c, s, q), e) && RecoveryApplied(c, s, q).asked == s.asked
  {
  }

  lemma HolderAddsNothing(c: Config, s: State, q: HolderStep, e: ExecId)
    requires HolderEnabled(c, s, q)
    ensures NothingNew(s, HolderApplied(c, s, q), e) && HolderApplied(c, s, q).asked == s.asked
  {
  }

  lemma OperatorAddsNothing(c: Config, s: State, q: OperatorStep, e: ExecId)
    requires OperatorEnabled(c, s, q) && Settled(s, e)
    ensures NothingNew(s, OperatorApplied(c, s, q), e)
  {
  }

  lemma WorkerAddsNothing(c: Config, s: State, q: WorkerStep, e: ExecId)
    requires WorkerEnabled(c, s, q)
    ensures NothingNew(s, WorkerApplied(c, s, q), e) && WorkerApplied(c, s, q).asked == s.asked
  {
  }

  /** A request that needs an unsettled execution does not pass its check, and no planner appears. */
  lemma SettledAddsNothing(c: Config, s: State, step: Step, e: ExecId)
    requires Enabled(c, s, step) && Settled(s, e)
    ensures NothingNew(s, Apply(c, s, step), e)
  {
    match step {
      case Plan(q) => PlanAddsNothing(c, s, q, e);
      case Loop(q) => LoopAddsNothing(c, s, q, e);
      case Recover(q) => RecoveryAddsNothing(c, s, q, e);
      case Hold(q) => HolderAddsNothing(c, s, q, e);
      case Operate(q) => OperatorAddsNothing(c, s, q, e);
      case Send(q) => SendAddsNothing(c, s, q, e);
      case Sweep(q) => SweepAddsNothing(c, s, q, e);
      case Work(q) => WorkerAddsNothing(c, s, q, e);
      case Tick(_) =>
    }
  }

  /** Nobody reopens the execution in this stretch of the run. */
  predicate NotReopened(steps: seq<Step>, i: nat, k: nat, e: ExecId)
    requires k <= |steps|
  {
    forall m | i <= m < k :: steps[m] != Operate(Answer(e, Reopen))
  }

  /** What takes an execution out of a settled state was under way when the settlement came. */
  lemma {:induction false} LeftByWhatWasUnderWay(
      c: Config, states: seq<State>, steps: seq<Step>, i: nat, m: nat, e: ExecId)
    requires IsRun(c, states, steps) && i <= m < |states| && NotReopened(steps, i, m, e)
    requires forall n | i <= n < m :: Settled(states[n], e)
    ensures NothingNew(states[i], states[m], e)
  {
    if i < m {
      LeftByWhatWasUnderWay(c, states, steps, i, m - 1, e);
      assert Follows(c, states, steps, m - 1) && Settled(states[m - 1], e);
      SettledAddsNothing(c, states[m - 1], steps[m - 1], e);
    }
  }

  /** A pause or resume that is still to be written passed its check earlier, before any settlement it ignores. */
  lemma {:induction false} AskedEarlier(
      c: Config, states: seq<State>, steps: seq<Step>, i: nat, e: ExecId, request: Request)
    requires IsRun(c, states, steps) && i < |states| && (e, request) in states[i].asked
    ensures exists r :: 0 <= r < i && steps[r] == Operate(Ask(e, request))
                        && e in states[r].execs && Allowed(states[r].execs[e], request)
  {
    if i > 0 {
      assert Follows(c, states, steps, i - 1);
      OnlyAsking(c, states[i - 1], steps[i - 1], e, request);
      if (e, request) in states[i - 1].asked {
        AskedEarlier(c, states, steps, i - 1, e, request);
      }
    }
  }

  lemma OnlyAsking(c: Config, s: State, step: Step, e: ExecId, request: Request)
    requires Enabled(c, s, step)
    ensures (e, request) in Apply(c, s, step).asked ==> (e, request) in s.asked || step == Operate(Ask(e, request))
  {
    match step {
      case Plan(q) => PlanKeepsAsked(c, s, q);
      case Loop(q) => LoopAddsNothing(c, s, q, e);
      case Recover(q) => RecoveryAddsNothing(c, s, q, e);
      case Hold(q) => HolderAddsNothing(c, s, q, e);
      case Send(q) => SendAddsNothing(c, s, q, e);
      case Sweep(q) => SweepAddsNothing(c, s, q, e);
      case Work(q) => WorkerAddsNothing(c, s, q, e);
      case Operate(q) =>
      case Tick(_) =>
    }
  }

  lemma PlanKeepsAsked(c: Config, s: State, q: PlanStep)
    requires PlanEnabled(c, s, q)
    ensures PlanApplied(c, s, q).asked == s.asked
  {
  }

  /** If nothing is still to come, a settled execution stays settled until somebody reopens it, whatever happens. */
  lemma {:induction false} SettledForGood(c: Config, states: seq<State>, steps: seq<Step>, i: nat, k: nat, e: ExecId)
    requires IsRun(c, states, steps) && i <= k < |states| && NotReopened(steps, i, k, e)
    requires Settled(states[i], e) && !StillToCome(states[i], e)
    ensures Settled(states[k], e) && !StillToCome(states[k], e)
  {
    if i < k {
      SettledForGood(c, states, steps, i, k - 1, e);
      var s, step := states[k - 1], steps[k - 1];
      assert Follows(c, states, steps, k - 1);
      SettledAddsNothing(c, s, step, e);
      StartComesFromWaiting(c, s, step, e);
      WhenASettledStateIsLeft(c, s, step, e);
    }
  }

  lemma StartComesFromWaiting(c: Config, s: State, step: Step, e: ExecId)
    requires Enabled(c, s, step)
    ensures Starts(s, step, e) ==> YetToStart(s, step.plan.p, e)
    ensures PausesOrResumes(step, e) ==> StillToCome(s, e)
  {
  }

  /**
    And otherwise it need not: any run that has come to a settled execution with something still to
    come can go on, without a reopening, to a state in which the execution is not settled.
   */
  lemma SettledCanBeLeft(c: Config, states: seq<State>, steps: seq<Step>, s: State, e: ExecId)
    returns (more: seq<State>, taken: seq<Step>, t: State)
    requires EndsIn(c, states, steps, s) && Settled(s, e) && StillToCome(s, e)
    ensures EndsIn(c, more, taken, t) && !Settled(t, e) && e in t.execs
    ensures steps <= taken && NotReopened(taken, |steps|, |taken|, e)
  {
    if (e, Pause) in s.asked {
      more, taken, t := WriteLate(c, states, steps, s, e, Pause);
    } else if (e, Request.Resume) in s.asked {
      more, taken, t := WriteLate(c, states, steps, s, e, Request.Resume);
    } else {
      var p :| YetToStart(s, p, e);
      PlannersHavePlannerIds(c, states, steps, |steps|, p, e);
      var ready, at, before := states, steps, s;
      if PhaseOf(s, p).Accepted? {
        before := Enter(s, p, Starting(PhaseOf(s, p).plan));
        TakePlan(c, states, steps, s, PlannerClaims(p, 0, false), before);
        ready, at := states + [before], steps + [Plan(PlannerClaims(p, 0, false))];
      }
      t := PlanApplied(c, before, PlannerMarksRunning(p));
      TakePlan(c, ready, at, before, PlannerMarksRunning(p), t);
      more, taken := ready + [t], at + [Plan(PlannerMarksRunning(p))];
    }
  }

  lemma {:induction false} PlannersHavePlannerIds(
      c: Config, states: seq<State>, steps: seq<Step>, i: nat, p: DriverId, e: ExecId)
    requires IsRun(c, states, steps) && i < |states| && YetToStart(states[i], p, e)
    ensures p.PlannerId?
  {
    if i > 0 {
      assert Follows(c, states, steps, i - 1);
      PlannerAppears(c, states[i - 1], steps[i - 1], p, e);
      if YetToStart(states[i - 1], p, e) {
        PlannersHavePlannerIds(c, states, steps, i - 1, p, e);
      }
    }
  }

  lemma PlannerAppears(c: Config, s: State, step: Step, p: DriverId, e: ExecId)
    requires Enabled(c, s, step)
    ensures YetToStart(Apply(c, s, step), p, e) ==> YetToStart(s, p, e) || p.PlannerId?
  {
    match step {
      case Plan(q) => PlannerAccepted(c, s, q, p, e);
      case Loop(q) => LoopAddsNothing(c, s, q, e);
      case Recover(q) => RecoveryAddsNothing(c, s, q, e);
      case Hold(q) => HolderAddsNothing(c, s, q, e);
      case Send(q) => SendAddsNothing(c, s, q, e);
      case Sweep(q) => SweepAddsNothing(c, s, q, e);
      case Work(q) => WorkerAddsNothing(c, s, q, e);
      case Operate(q) =>
      case Tick(_) =>
    }
  }

  lemma PlannerAccepted(c: Config, s: State, q: PlanStep, p: DriverId, e: ExecId)
    requires PlanEnabled(c, s, q)
    ensures YetToStart(PlanApplied(c, s, q), p, e) ==> YetToStart(s, p, e) || p.PlannerId?
  {
  }

  lemma WriteLate(c: Config, states: seq<State>, steps: seq<Step>, s: State, e: ExecId, request: Request)
    returns (more: seq<State>, taken: seq<Step>, t: State)
    requires EndsIn(c, states, steps, s) && e in s.execs && (e, request) in s.asked
    requires request == Pause || request == Request.Resume
    ensures EndsIn(c, more, taken, t) && taken == steps + [Operate(Answer(e, request))] && more == states + [t]
    ensures e in t.execs && t.execs[e].state == if request == Pause then ExecPaused else ExecRunning
  {
    t := OperatorApplied(c, s, Answer(e, request));
    TakeOperator(c, states, steps, s, Answer(e, request), t);
    more, taken := states + [t], steps + [Operate(Answer(e, request))];
  }

  // ----- two such runs -----

  /** A request reads and writes with nothing in between. */
  lemma TakeRequest(c: Config, states: seq<State>, steps: seq<Step>, s: State, e: ExecId, request: Request)
    returns (more: seq<State>, taken: seq<Step>, t: State)
    requires EndsIn(c, states, steps, s) && e in s.execs && Allowed(s.execs[e], request)
    ensures EndsIn(c, more, taken, t) && taken == steps + [Operate(Ask(e, request)), Operate(Answer(e, request))]
    ensures t == s.(execs := s.execs[e := Answered(s.execs[e], request, s.clock)])
  {
    var asked := s.(asked := s.asked + multiset{(e, request)});
    TakeOperator(c, states, steps, s, Ask(e, request), asked);
    more, taken := states + [asked], steps + [Operate(Ask(e, request))];
    t := OperatorApplied(c, asked, Answer(e, request));
    assert t.asked == s.asked;
    TakeOperator(c, more, taken, asked, Answer(e, request), t);
    more, taken := more + [t], taken + [Operate(Answer(e, request))];
  }

  /** Wherever a planner is about to start, a cancellation before its first write is undone by it. */
  lemma StartOverwritesCancellation(
      c: Config, states: seq<State>, steps: seq<Step>, s: State, e: ExecId, p: DriverId)
    returns (more: seq<State>, taken: seq<Step>, t: State)
    requires EndsIn(c, states, steps, s) && p.PlannerId? && IsActor(s, p, e) && PhaseOf(s, p).Starting?
    requires Allowed(s.execs[e], Cancel)
    ensures EndsIn(c, more, taken, t) && e in t.execs && t.execs[e].state == ExecRunning
    ensures taken == steps + [Operate(Ask(e, Cancel)), Operate(Answer(e, Cancel)), Plan(PlannerMarksRunning(p))]
    ensures Settled(more[|steps| + 2], e)
  {
    var cancelled;
    more, taken, cancelled := TakeRequest(c, states, steps, s, e, Cancel);
    t := PlanApplied(c, cancelled, PlannerMarksRunning(p));
    TakePlan(c, more, taken, cancelled, PlannerMarksRunning(p), t);
    more, taken := more + [t], taken + [Plan(PlannerMarksRunning(p))];
  }

  /** Wherever a run has paused an execution, a cancellation between a resume's read and its write is undone. */
  lemma ResumeOverwritesCancellation(c: Config, states: seq<State>, steps: seq<Step>, s: State, e: ExecId)
    returns (more: seq<State>, taken: seq<Step>, t: State)
    requires EndsIn(c, states, steps, s) && e in s.execs && s.execs[e].state == ExecPaused
    ensures EndsIn(c, more, taken, t) && e in t.execs && t.execs[e].state == ExecRunning
    ensures taken == steps + [Operate(Ask(e, Request.Resume)), Operate(Ask(e, Cancel)),
                              Operate(Answer(e, Cancel)), Operate(Answer(e, Request.Resume))]
    ensures Settled(more[|steps| + 3], e)
  {
    var asked := s.(asked := s.asked + multiset{(e, Request.Resume)});
    TakeOperator(c, states, steps, s, Ask(e, Request.Resume), asked);
    more, taken := states + [asked], steps + [Operate(Ask(e, Request.Resume))];
    var cancelled;
    more, taken, cancelled := TakeRequest(c, more, taken, asked, e, Cancel);
    more, taken, t := WriteLate(c, more, taken, cancelled, e, Request.Resume);
  }
}
