/**
  Nobody is ever stuck: in every state of every run each actor can take a next step of its own, at the
  latest after waiting for a lease to pass, and each message can start its job.
 */
module ClusterProgress {

  import opened Arithmetic
  import opened Wrappers
  import opened JobTable
  import opened ExecutionTable
  import opened Cluster

  // ----- a page can always be fetched -----

  /** Some pending row outside `taken` that no other one goes before. */
  lemma {:induction false} OldestExists(rows: Rows, rest: set<JobId>) returns (first: JobId)
    requires rest != {} && rest <= rows.Keys
    ensures first in rest && forall j | j in rest :: !Before(rows[j], rows[first])
  {
    first :| first in rest;
    if rest != {first} {
      var other := OldestExists(rows, rest - {first});
      if !Before(rows[first], rows[other]) {
        first := other;
      }
    }
  }

  /** Whatever the table, there is a page for every limit. */
  lemma {:induction false} PageExists(rows: Rows, e: ExecId, limit: nat) returns (page: seq<JobId>)
    ensures IsPendingPage(rows, e, limit, page)
  {
    page := [];
    if limit > 0 {
      page := PageExists(rows, e, limit - 1);
      var rest := set j | j in rows && IsPending(rows, e, j) && j !in page;
      if |page| == limit - 1 && rest != {} {
        var next := OldestExists(rows, rest);
        assert forall j | IsPending(rows, e, j) && j !in page + [next] :: j in rest;
        page := page + [next];
      } else {
        assert forall j | IsPending(rows, e, j) && j !in page :: j in rest;
      }
    }
  }

  // ----- who is in which phase -----

  predicate FitsPhase(a: DriverId, p: Phase) {
    match p
    case Accepted(_) => a.PlannerId?
    case Starting(_) => a.PlannerId?
    case Planning(_) => a.PlannerId?
    case PlanSaved => a.PlannerId?
    case Looking => a.RecoveryId?
    case Condemning => a.RecoveryId?
    case Leaving => a.RecoveryId?
    case _ => a.LoopId?
  }

  /** The actor is what its phase says, and remembers no reading of a time still to come. */
  predicate Fits(s: State, a: DriverId) {
    Known(s, a) && FitsPhase(a, PhaseOf(s, a)) && Reads(s, a, s.clock)
  }

  ghost predicate AllFit(s: State) {
    forall a | a in s.actors :: Fits(s, a)
  }

  lemma PlanKeepsFit(c: Config, s: State, q: PlanStep)
    requires AllFit(s) && PlanEnabled(c, s, q)
    ensures AllFit(PlanApplied(c, s, q))
  {
    var t := PlanApplied(c, s, q);
    forall a | a in t.actors ensures Fits(t, a) { assert a in s.actors ==> Fits(s, a); }
  }

  lemma LoopKeepsFit(c: Config, s: State, q: LoopStep)
    requires AllFit(s) && LoopEnabled(c, s, q)
    ensures AllFit(LoopApplied(c, s, q))
  {
    var t := LoopApplied(c, s, q);
    forall a | a in t.actors ensures Fits(t, a) { assert a in s.actors ==> Fits(s, a); }
  }

  lemma SendKeepsFit(c: Config, s: State, q: SendStep)
    requires AllFit(s) && SendEnabled(c, s, q)
    ensures AllFit(SendApplied(c, s, q))
  {
    var t := SendApplied(c, s, q);
    forall a | a in t.actors ensures Fits(t, a) { assert a in s.actors ==> Fits(s, a); }
  }

  lemma SweepKeepsFit(c: Config, s: State, q: SweepStep)
    requires AllFit(s) && SweepEnabled(c, s, q)
    ensures AllFit(SweepApplied(c, s, q))
  {
    var t := SweepApplied(c, s, q);
    forall a | a in t.actors ensures Fits(t, a) { assert a in s.actors ==> Fits(s, a); }
  }

  lemma RecoveryKeepsFit(c: Config, s: State, q: RecoveryStep)
    requires AllFit(s) && RecoveryEnabled(c, s, q)
    ensures AllFit(RecoveryApplied(c, s, q))
  {
    var t := RecoveryApplied(c, s, q);
    forall a | a in t.actors ensures Fits(t, a) { assert a in s.actors ==> Fits(s, a); }
  }

  lemma HolderKeepsFit(c: Config, s: State, q: HolderStep)
    requires AllFit(s) && HolderEnabled(c, s, q)
    ensures AllFit(HolderApplied(c, s, q))
  {
    var t := HolderApplied(c, s, q);
    forall a | a in t.actors ensures Fits(t, a) { assert a in s.actors ==> Fits(s, a); }
  }

  lemma OperatorKeepsFit(c: Config, s: State, q: OperatorStep)
    requires AllFit(s) && OperatorEnabled(c, s, q)
    ensures AllFit(OperatorApplied(c, s, q))
  {
    var t := OperatorApplied(c, s, q);
    forall a | a in t.actors ensures Fits(t, a) { assert Fits(s, a); }
  }

  lemma FitKept(c: Config, s: State, step: Step)
    requires AllFit(s) && Enabled(c, s, step)
    ensures AllFit(Apply(c, s, step))
  {
    match step {
      case Tick(_) => assert forall a | a in s.actors :: Fits(s, a);
      case Plan(q) => PlanKeepsFit(c, s, q);
      case Loop(q) => LoopKeepsFit(c, s, q);
      case Send(q) => SendKeepsFit(c, s, q);
      case Sweep(q) => SweepKeepsFit(c, s, q);
      case Recover(q) => RecoveryKeepsFit(c, s, q);
      case Hold(q) => HolderKeepsFit(c, s, q);
      case Operate(q) => OperatorKeepsFit(c, s, q);
      case Work(q) => assert forall a | a in s.actors :: Fits(s, a);
    }
  }

  lemma {:induction false} FitAlways(c: Config, states: seq<State>, steps: seq<Step>, i: nat)
    requires IsRun(c, states, steps) && i < |states|
    ensures AllFit(states[i])
  {
    if i > 0 {
      FitAlways(c, states, steps, i - 1);
      assert Follows(c, states, steps, i - 1);
      FitKept(c, states[i - 1], steps[i - 1]);
    }
  }

  // ----- what each can do next -----

  /** What a planner can do next; `l` is the loop it hands over to. */
  lemma PlannersGoOn(c: Config, s: State, p: DriverId, l: DriverId, n: nat, batch: nat)
    requires Fits(s, p) && p.PlannerId? && l.LoopId? && l !in s.actors
    ensures var q := match s.actors[p].phase
                     case Accepted(_) => PlannerClaims(p, s.clock, true)
                     case Starting(_) => PlannerMarksRunning(p)
                     case Planning(unsaved) => if unsaved == [] then PlannerCompletes(p) else PlannerSaves(p, 1, batch)
                     case _ => PlannerHandsOver(p, l);
            PlanEnabled(c, s, q)
    ensures s.actors[p].phase.Planning? && n <= |s.actors[p].phase.unsaved| ==>
              PlanEnabled(c, s, PlannerSaves(p, n, batch))
    ensures s.actors[p].phase.Planning? && s.execs[s.actors[p].exec].state in {ExecCancelled, ExecFailed} ==>
              PlanEnabled(c, s, PlannerAborts(p))
  {
  }

  /** What a loop can do next; while it drives it can always sweep, and count exactly if there is room. */
  lemma LoopsGoOn(c: Config, s: State, l: DriverId) returns (page: seq<JobId>)
    requires Fits(s, l) && l.LoopId?
    ensures match s.actors[l].phase
            case Standby => LoopEnabled(c, s, LoopClaims(l, s.clock))
            case Driving =>
              && SweepEnabled(c, s, SweepFailsLost(l, s.clock))
              && (|InFlight(s.jobs, s.actors[l].exec)| < c.maxInFlight ==> LoopEnabled(c, s, CountsJobs(l)))
              && (NothingUnfinished(s, s.actors[l].exec) ==> LoopEnabled(c, s, Finalizes(l)))
            case SweptLost(_, _) => SweepEnabled(c, s, SweepRequeuesRunning(l, s.clock))
            case SweptRunning(_) => SweepEnabled(c, s, SweepRequeuesDispatched(l, s.clock))
            case Counted(_) => LoopEnabled(c, s, FetchesJobs(l, page))
            case Sending(todo, unmarked) =>
              if unmarked.Some? then SendEnabled(c, s, MarksSent(l, s.clock))
              else if todo == [] then LoopEnabled(c, s, BatchEnds(l)) else SendEnabled(c, s, Sends(l))
            case _ => false
  {
    page := [];
    if s.actors[l].phase.Counted? {
      page := PageExists(s.jobs, ExecOf(s, l), Least(s.actors[l].phase.free, c.fetchLimit));
    }
  }

  /** What a recovering manager can do next, once the execution is a lease old. */
  lemma RecoveriesGoOn(c: Config, s: State, r: DriverId)
    requires Fits(s, r) && r.RecoveryId? && s.clock - s.execs[s.actors[r].exec].createdAt >= c.driverLease
    ensures var q := match s.actors[r].phase
                     case Looking => RecoveryClaims(r, s.clock)
                     case Condemning => RecoveryCondemns(r)
                     case _ => RecoveryLeaves(r);
            RecoveryEnabled(c, s, q)
  {
  }

  /** A delivered message starts its job exactly if the job is waiting, and a live attempt can end in any outcome. */
  lemma MessagesStartJobs(c: Config, s: State, j: JobId, outcome: JobState, error: Option<string>)
    requires j in s.jobs && outcome in {Completed, Failed, Deduplicated}
    ensures j in s.sent ==>
              var q := WorkerClaims(j, s.clock);
              && WorkerEnabled(c, s, q)
              && (s.jobs[j].state in {Pending, JobState.Dispatched}
                  <==> WorkerApplied(c, s, q).live == s.live + multiset{j})
              && (s.jobs[j].state in {Pending, JobState.Dispatched} ==>
                    && WorkerApplied(c, s, q).jobs[j].state == Running
                    && WorkerApplied(c, s, q).jobs[j].attempts == s.jobs[j].attempts + 1)
    ensures j in s.live ==>
              && WorkerEnabled(c, s, WorkerFinishes(j, outcome, error))
              && WorkerEnabled(c, s, WorkerBeats(j, s.clock))
  {
    assert j in s.sent ==> s.live != s.live + multiset{j} by {
      assert (s.live + multiset{j})[j] == s.live[j] + 1;
    }
  }

  /** An actor that holds a lease can always beat, any actor can crash, and a host starts up once its loops are gone. */
  lemma HoldersGoOn(c: Config, s: State, a: DriverId, host: string)
    requires Fits(s, a)
    ensures HolderEnabled(c, s, Crash(a))
    ensures s.actors[a].phase.Accepted? || s.actors[a].phase == Standby || s.actors[a].phase == Looking
            || HolderEnabled(c, s, Heartbeat(a, s.clock))
    ensures (forall l | l in s.actors && l.LoopId? :: l.host != host) ==> HolderEnabled(c, s, FreeHost(host))
  {
  }

  /** Operators are held up by nothing, and a request once checked can always be written. */
  lemma OperatorsGoOn(c: Config, s: State, e: ExecId, request: Request, errorContains: string)
    requires e in s.execs
    ensures OperatorEnabled(c, s, CancelJobs(e)) && OperatorEnabled(c, s, RetryJobs(e, errorContains))
    ensures OperatorEnabled(c, s, Ask(e, request)) ==>
              OperatorEnabled(c, OperatorApplied(c, s, Ask(e, request)), Answer(e, request))
    ensures s.execs[e].planComplete && NothingUnfinished(s, e) ==> OperatorEnabled(c, s, ResumeSettles(e))
  {
  }

  /** A pass can fail wherever it has got to, a send can be in doubt, and a plan can raise until it is saved. */
  lemma AnythingCanFail(c: Config, s: State, a: DriverId, reason: string)
    requires Fits(s, a)
    ensures s.actors[a].phase.Counted? || s.actors[a].phase.Sending? ==> SendEnabled(c, s, PassFails(a))
    ensures s.actors[a].phase.Sending? && SendEnabled(c, s, Sends(a)) ==>
              SendEnabled(c, s, SendInDoubt(a)) && SendEnabled(c, s, Unsendable(a, reason))
    ensures s.actors[a].phase.Starting? || s.actors[a].phase.Planning? ==> PlanEnabled(c, s, PlannerRaises(a))
  {
  }

  /** The step is one the actor takes itself, and not its crash. */
  predicate OwnStep(step: Step, a: DriverId) {
    match step
    case Plan(q) => q.p == a
    case Loop(q) => q.l == a
    case Send(q) => q.l == a
    case Sweep(q) => q.l == a
    case Recover(q) => q.r == a
    case _ => false
  }

  /** In every state of every run, each actor can go on by a step of its own, after a wait at the latest. */
  lemma NobodyIsStuck(c: Config, states: seq<State>, steps: seq<Step>, i: nat, a: DriverId, l: DriverId)
      returns (wait: nat, step: Step)
    requires IsRun(c, states, steps) && i < |states| && a in states[i].actors && l.LoopId? && l !in states[i].actors
    ensures OwnStep(step, a) && Enabled(c, Apply(c, states[i], Tick(wait)), step)
    ensures wait > 0 ==> states[i].actors[a].phase.Looking?
  {
    FitAlways(c, states, steps, i);
    var s := states[i];
    assert Fits(s, a);
    wait := 0;
    match a {
      case PlannerId(_, _) =>
        PlannersGoOn(c, s, a, l, 0, 0);
        step := Plan(match s.actors[a].phase
                     case Accepted(_) => PlannerClaims(a, s.clock, true)
                     case Starting(_) => PlannerMarksRunning(a)
                     case Planning(unsaved) => if unsaved == [] then PlannerCompletes(a) else PlannerSaves(a, 1, 0)
                     case _ => PlannerHandsOver(a, l));
      case LoopId(_, _) =>
        var page := LoopsGoOn(c, s, a);
        match s.actors[a].phase {
          case Standby => step := Loop(LoopClaims(a, s.clock));
          case Driving => step := Sweep(SweepFailsLost(a, s.clock));
          case SweptLost(_, _) => step := Sweep(SweepRequeuesRunning(a, s.clock));
          case SweptRunning(_) => step := Sweep(SweepRequeuesDispatched(a, s.clock));
          case Counted(_) => step := Loop(FetchesJobs(a, page));
          case Sending(todo, unmarked) =>
            step := if unmarked.Some? then Send(MarksSent(a, s.clock))
                    else if todo == [] then Loop(BatchEnds(a)) else Send(Sends(a));
        }
      case RecoveryId(_, _) =>
        if s.actors[a].phase.Looking? {
          var createdAt := RowOf(s, a).createdAt;
          wait := if createdAt + c.driverLease > s.clock then createdAt + c.driverLease - s.clock else 0;
        }
        var t := Apply(c, s, Tick(wait));
        assert Fits(t, a);
        step := Recover(match t.actors[a].phase
                        case Looking => RecoveryClaims(a, t.clock)
                        case Condemning => RecoveryCondemns(a)
                        case _ => RecoveryLeaves(a));
    }
  }
}
