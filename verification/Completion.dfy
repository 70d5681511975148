/**
  Counting an execution's jobs by state, syncing the counters of its row, and the final verdict.
 */
module Completion {

  import opened Wrappers
  import opened JobTable
  import opened ExecutionTable

  datatype Counts = Counts(
    total: nat, pending: nat, dispatched: nat, running: nat,
    completed: nat, failed: nat, deduplicated: nat, cancelled: nat)

  function JobsOf(rows: Rows, e: ExecId): set<JobId> {
    set j | j in rows && rows[j].exec == e
  }

  function InState(rows: Rows, e: ExecId, s: JobState): set<JobId> {
    set j | j in rows && rows[j].exec == e && rows[j].state == s
  }

  /** The meaning of the count query, on one snapshot of the table. */
  function CountsOf(rows: Rows, e: ExecId): Counts {
    Counts(
      |JobsOf(rows, e)|, |InState(rows, e, Pending)|, |InState(rows, e, Dispatched)|,
      |InState(rows, e, Running)|, |InState(rows, e, Completed)|, |InState(rows, e, Failed)|,
      |InState(rows, e, Deduplicated)|, |InState(rows, e, Cancelled)|)
  }

  /** Each count is of the jobs whose state it names. */
  lemma CountsAre(rows: Rows, e: ExecId)
    ensures var c := CountsOf(rows, e);
            && c.total == |set j | j in rows && rows[j].exec == e|
            && c.pending == |set j | j in rows && rows[j].exec == e && rows[j].state.Pending?|
            && c.dispatched == |set j | j in rows && rows[j].exec == e && rows[j].state.Dispatched?|
            && c.running == |set j | j in rows && rows[j].exec == e && rows[j].state.Running?|
            && c.completed == |set j | j in rows && rows[j].exec == e && rows[j].state.Completed?|
            && c.failed == |set j | j in rows && rows[j].exec == e && rows[j].state.Failed?|
            && c.deduplicated == |set j | j in rows && rows[j].exec == e && rows[j].state.Deduplicated?|
            && c.cancelled == |set j | j in rows && rows[j].exec == e && rows[j].state.Cancelled?|
  {
    assert InState(rows, e, Pending) == set j | j in rows && rows[j].exec == e && rows[j].state.Pending?;
    assert InState(rows, e, Dispatched) == set j | j in rows && rows[j].exec == e && rows[j].state.Dispatched?;
    assert InState(rows, e, Running) == set j | j in rows && rows[j].exec == e && rows[j].state.Running?;
    assert InState(rows, e, Completed) == set j | j in rows && rows[j].exec == e && rows[j].state.Completed?;
    assert InState(rows, e, Failed) == set j | j in rows && rows[j].exec == e && rows[j].state.Failed?;
    assert InState(rows, e, Deduplicated) == set j | j in rows && rows[j].exec == e && rows[j].state.Deduplicated?;
    assert InState(rows, e, Cancelled) == set j | j in rows && rows[j].exec == e && rows[j].state.Cancelled?;
  }

  function WithState(rows: Rows, e: ExecId, states: set<JobState>): set<JobId> {
    set j | j in rows && rows[j].exec == e && rows[j].state in states
  }

  lemma WithOneMore(rows: Rows, e: ExecId, states: set<JobState>, s: JobState)
    requires s !in states
    ensures |WithState(rows, e, states + {s})| == |WithState(rows, e, states)| + |InState(rows, e, s)|
  {
    var a, b := WithState(rows, e, states), InState(rows, e, s);
    assert a !! b;
    assert WithState(rows, e, states + {s}) == a + b;
  }

  /** No job is counted twice and none is missed: the seven states add up to the rows. */
  lemma CountsAddUp(rows: Rows, e: ExecId)
    ensures var c := CountsOf(rows, e);
            c.total == c.pending + c.dispatched + c.running + c.completed + c.failed + c.deduplicated + c.cancelled
  {
    var s1 := {Pending};
    var s2, s3 := s1 + {Dispatched}, s1 + {Dispatched} + {Running};
    var s4 := s3 + {Completed};
    var s5 := s4 + {Failed};
    var s6 := s5 + {Deduplicated};
    assert WithState(rows, e, s1) == InState(rows, e, Pending);
    WithOneMore(rows, e, s1, Dispatched);
    WithOneMore(rows, e, s2, Running);
    WithOneMore(rows, e, s3, Completed);
    WithOneMore(rows, e, s4, Failed);
    WithOneMore(rows, e, s5, Deduplicated);
    WithOneMore(rows, e, s6, Cancelled);
    forall s: JobState
      ensures s in s6 + {Cancelled}
    {
      match s {
        case Pending | Dispatched | Running | Completed | Failed | Deduplicated | Cancelled =>
      }
    }
    EveryState(rows, e, s6 + {Cancelled});
  }

  lemma EveryState(rows: Rows, e: ExecId, states: set<JobState>)
    requires forall s: JobState :: s in states
    ensures WithState(rows, e, states) == JobsOf(rows, e)
  {
  }

  /** An answer of `SELECT state, count(*) ... GROUP BY state`: each state present once, in any order. */
  ghost predicate IsGrouped(rows: Rows, e: ExecId, groups: seq<(JobState, nat)>) {
    && (forall i, k | 0 <= i < k < |groups| :: groups[i].0 != groups[k].0)
    && (forall i | 0 <= i < |groups| :: groups[i].1 == |InState(rows, e, groups[i].0)|)
    && (forall j | j in JobsOf(rows, e) :: exists i | 0 <= i < |groups| :: groups[i].0 == rows[j].state)
  }

  function WithCount(c: Counts, s: JobState, n: nat): Counts {
    match s
    case Pending => c.(pending := n)
    case Dispatched => c.(dispatched := n)
    case Running => c.(running := n)
    case Completed => c.(completed := n)
    case Failed => c.(failed := n)
    case Deduplicated => c.(deduplicated := n)
    case Cancelled => c.(cancelled := n)
  }

  function At(c: Counts, s: JobState): nat {
    match s
    case Pending => c.pending
    case Dispatched => c.dispatched
    case Running => c.running
    case Completed => c.completed
    case Failed => c.failed
    case Deduplicated => c.deduplicated
    case Cancelled => c.cancelled
  }

  lemma WithCountAt(c: Counts, s: JobState, n: nat)
    ensures forall t :: At(WithCount(c, s, n), t) == if t == s then n else At(c, t)
  {
  }

  /** Whatever order the groups come in, the loop arrives at the counts of the snapshot. */
  method GetJobCounts(ghost rows: Rows, ghost e: ExecId, groups: seq<(JobState, nat)>) returns (counts: Counts)
    requires IsGrouped(rows, e, groups)
    ensures counts == CountsOf(rows, e)
  {
    counts := Counts(0, 0, 0, 0, 0, 0, 0, 0);
    var total := 0;
    ghost var seen: set<JobState> := {};
    assert WithState(rows, e, seen) == {};
    for n := 0 to |groups|
      invariant seen == set i | 0 <= i < n :: groups[i].0
      invariant forall s :: At(counts, s) == if s in seen then |InState(rows, e, s)| else 0
      invariant total == |WithState(rows, e, seen)|
    {
      var (state, count) := groups[n];
      WithOneMore(rows, e, seen, state);
      WithCountAt(counts, state, count);
      counts := WithCount(counts, state, count);
      total := total + count;
      seen := seen + {state};
    }
    assert WithState(rows, e, seen) == JobsOf(rows, e);
    forall s | s !in seen
      ensures InState(rows, e, s) == {}
    {
    }
    counts := counts.(total := total);
    assert forall s :: At(counts, s) == |InState(rows, e, s)|;
    assert counts.pending == At(counts, Pending) && counts.dispatched == At(counts, Dispatched);
    assert counts.running == At(counts, Running) && counts.completed == At(counts, Completed);
    assert counts.failed == At(counts, Failed) && counts.deduplicated == At(counts, Deduplicated);
    assert counts.cancelled == At(counts, Cancelled);
  }

  function FinishedCount(c: Counts): nat {
    c.completed + c.failed + c.deduplicated
  }

  /** `failed` and `finished` may come from two different snapshots. */
  function Verdict(expectedTotal: nat, finished: nat, failed: nat): ExecState {
    if finished == expectedTotal && failed == 0 then ExecCompleted else ExecFailed
  }

  method Decide(expectedTotal: nat, finished: nat, failed: nat) returns (final: ExecState)
    ensures final == Verdict(expectedTotal, finished, failed)
  {
    if finished == expectedTotal {
      final := if failed == 0 then ExecCompleted else ExecFailed;
    } else {
      final := ExecFailed;
    }
  }

  /** The state finalization gives an execution when every query sees the same snapshot. */
  function SnapshotVerdict(rows: Rows, e: ExecId): ExecState {
    var c := CountsOf(rows, e);
    Verdict(c.total, FinishedCount(c), c.failed)
  }

  ghost predicate AllSucceeded(rows: Rows, e: ExecId) {
    forall j | j in rows && rows[j].exec == e :: rows[j].state.Completed? || rows[j].state.Deduplicated?
  }

  lemma CompletedMeansAll(rows: Rows, e: ExecId)
    requires SnapshotVerdict(rows, e) == ExecCompleted
    ensures AllSucceeded(rows, e)
  {
    CountsAddUp(rows, e);
    forall j | j in rows && rows[j].exec == e
      ensures rows[j].state.Completed? || rows[j].state.Deduplicated?
    {
      assert j in InState(rows, e, rows[j].state);
      assert InState(rows, e, rows[j].state) != {};
    }
  }

  lemma AllMeansCompleted(rows: Rows, e: ExecId)
    requires AllSucceeded(rows, e)
    ensures SnapshotVerdict(rows, e) == ExecCompleted
  {
    CountsAddUp(rows, e);
    assert InState(rows, e, Pending) == {} && InState(rows, e, Dispatched) == {} && InState(rows, e, Running) == {};
    assert InState(rows, e, Failed) == {} && InState(rows, e, Cancelled) == {};
  }

  /** On one snapshot the verdict tells the truth about every job row, in both directions. */
  lemma TruthfulCompletion(rows: Rows, e: ExecId)
    ensures SnapshotVerdict(rows, e) == if AllSucceeded(rows, e) then ExecCompleted else ExecFailed
  {
    if AllSucceeded(rows, e) {
      AllMeansCompleted(rows, e);
    } else if SnapshotVerdict(rows, e) == ExecCompleted {
      CompletedMeansAll(rows, e);
    }
  }

  /** What finalization writes when `failed` comes from one snapshot and `finished` from the next. */
  function VerdictOfTwo(before: Rows, after: Rows, e: ExecId): ExecState {
    Verdict(CountsOf(before, e).total, FinishedCount(CountsOf(after, e)), CountsOf(before, e).failed)
  }

  lemma VerdictOfCounts(before: Rows, after: Rows, e: ExecId, c: Counts, d: Counts)
    requires CountsOf(before, e) == c && CountsOf(after, e) == d
    ensures VerdictOfTwo(before, after, e) == Verdict(c.total, FinishedCount(d), c.failed)
  {
  }

  /** The table with one job, in this state. */
  function OneJob(state: JobState): Rows {
    map["j" := Job("e", 1, state, 1, 0, 0, None, None, None)]
  }

  lemma CountsOfOneJob(state: JobState)
    requires state in {Completed, Failed}
    ensures CountsOf(OneJob(state), "e")
            == Counts(1, 0, 0, 0, if state.Completed? then 1 else 0, if state.Failed? then 1 else 0, 0, 0)
  {
    var rows := OneJob(state);
    assert JobsOf(rows, "e") == {"j"} && InState(rows, "e", state) == {"j"};
    assert forall other | other != state :: InState(rows, "e", other) == {};
  }

  lemma OneJobSucceeded(state: JobState)
    ensures AllSucceeded(OneJob(state), "e") <==> state == Completed || state == Deduplicated
  {
    assert "j" in OneJob(state) && OneJob(state)["j"].exec == "e";
  }

  /** What is written when a late write of the one job falls between the queries, and whether it is the truth. */
  ghost predicate Misleads(first: JobState, second: JobState, verdict: ExecState) {
    && VerdictOfTwo(OneJob(first), OneJob(second), "e") == verdict
    && (AllSucceeded(OneJob(second), "e") <==> verdict != ExecCompleted)
  }

  lemma LateWriteDecides(first: JobState, second: JobState)
    requires first in {Completed, Failed} && second in {Completed, Failed}
    ensures VerdictOfTwo(OneJob(first), OneJob(second), "e") == if first.Failed? then ExecFailed else ExecCompleted
  {
    CountsOfOneJob(first);
    CountsOfOneJob(second);
    VerdictOfCounts(OneJob(first), OneJob(second), "e", CountsOf(OneJob(first), "e"), CountsOf(OneJob(second), "e"));
  }

  lemma LateWriteMisleads(first: JobState, second: JobState)
    requires first in {Completed, Failed} && second in {Completed, Failed} && first != second
    ensures Misleads(first, second, if first.Failed? then ExecFailed else ExecCompleted)
  {
    LateWriteDecides(first, second);
    OneJobSucceeded(second);
  }

  /**
    Finalization runs the count query twice after the drive loop's own, and a late worker may
    overwrite a row in between. The verdict then reads `failed` from the first snapshot and
    `finished` from the second, so an execution with a failed row can end `completed`.
   */
  lemma TwoSnapshotsCanLie()
    ensures Misleads(Completed, Failed, ExecCompleted)
  {
    LateWriteMisleads(Completed, Failed);
  }

  /** The other way round: the first query sees a failed row that a late success then overwrites. */
  lemma TwoSnapshotsCanDeny()
    ensures Misleads(Failed, Completed, ExecFailed)
  {
    LateWriteMisleads(Failed, Completed);
  }

  /**
    With no row added in between, the verdict from two snapshots is the true one for the second if
    and only if, unless jobs are missing from it anyway, either both snapshots have a failed row or
    neither has.
   */
  lemma WhenTwoSnapshotsAgree(before: Rows, after: Rows, e: ExecId)
    requires JobsOf(before, e) == JobsOf(after, e)
    ensures VerdictOfTwo(before, after, e) == (if AllSucceeded(after, e) then ExecCompleted else ExecFailed)
            <==> (FinishedCount(CountsOf(after, e)) == CountsOf(after, e).total ==>
                    (InState(before, e, Failed) == {} <==> InState(after, e, Failed) == {}))
  {
    TruthfulCompletion(after, e);
  }

  class PipelineRunner {
    const executions: ExecutionTable

    constructor (executions: ExecutionTable)
      ensures this.executions == executions
    {
      this.executions := executions;
    }

    /** `jobs` is the snapshot the count query saw. */
    method SyncCountsFromDb(e: ExecId, jobs: Rows) returns (dispatched: nat, completed: nat, failed: nat)
      modifies executions
      ensures var c := CountsOf(jobs, e);
              && dispatched == c.total - c.pending - c.cancelled
              && completed == c.completed + c.deduplicated
              && failed == c.failed
              && completed + failed <= dispatched
      ensures executions.rows.Keys == old(executions.rows).Keys
      ensures e !in old(executions.rows) ==> executions.rows == old(executions.rows)
      ensures e in old(executions.rows) ==>
                executions.rows == old(executions.rows)[e := old(executions.rows)[e].(
                  jobsDispatched := dispatched, jobsCompleted := completed, jobsFailed := failed,
                  deduplicatedJobs := CountsOf(jobs, e).deduplicated)]
    {
      var c := CountsOf(jobs, e);
      completed, failed := c.completed + c.deduplicated, c.failed;
      dispatched := c.dispatched + c.running + c.completed + c.failed + c.deduplicated;
      CountsAddUp(jobs, e);
      if e in executions.rows {
        executions.rows := executions.rows[e := executions.rows[e].(
          jobsDispatched := dispatched, jobsCompleted := completed, jobsFailed := failed,
          deduplicatedJobs := c.deduplicated)];
      }
    }

    /** When either query fails, the caller's own totals stand in; the counters may be synced by then. */
    method CurrentTotals(e: ExecId, fallback: (nat, nat, nat), synced: Option<Rows>, recounted: Option<Rows>)
      returns (result: (nat, nat, nat), finished: nat)
      modifies executions
      ensures executions.rows.Keys == old(executions.rows).Keys
      ensures synced.None? || recounted.None? ==> result == fallback && finished == fallback.1 + fallback.2
      ensures synced.Some? && recounted.Some? ==>
                && result.0 == CountsOf(synced.value, e).total - CountsOf(synced.value, e).pending
                               - CountsOf(synced.value, e).cancelled
                && result.1 == CountsOf(synced.value, e).completed + CountsOf(synced.value, e).deduplicated
                && result.2 == CountsOf(synced.value, e).failed
      ensures synced.Some? && recounted.Some? ==>
                finished == CountsOf(recounted.value, e).completed + CountsOf(recounted.value, e).failed
                            + CountsOf(recounted.value, e).deduplicated
    {
      if synced.None? {
        return fallback, fallback.1 + fallback.2;
      }
      var dispatched, completed, failed := SyncCountsFromDb(e, synced.value);
      if recounted.None? {
        return fallback, fallback.1 + fallback.2;
      }
      return (dispatched, completed, failed), FinishedCount(CountsOf(recounted.value, e));
    }

    /**
      `synced` and `recounted` are what the two count queries see, or None when the database fails.
      If both see one snapshot, the state is the one TruthfulCompletion is about.
     */
    method FinalizeExecutionState(
        e: ExecId, expectedTotal: nat, fallback: (nat, nat, nat),
        synced: Option<Rows>, recounted: Option<Rows>, now: Time)
      returns (result: (nat, nat, nat))
      modifies executions
      ensures executions.rows.Keys == old(executions.rows).Keys
      ensures synced.None? || recounted.None? ==> result == fallback
      ensures synced.Some? && recounted.Some? ==> result.2 == CountsOf(synced.value, e).failed
      ensures var finished := if synced.None? || recounted.None? then fallback.1 + fallback.2
                              else FinishedCount(CountsOf(recounted.value, e));
              e in executions.rows ==>
                && executions.rows[e].state == Verdict(expectedTotal, finished, result.2)
                && (executions.rows[e].state
                    == if finished == expectedTotal && result.2 == 0 then ExecCompleted else ExecFailed)
                && executions.rows[e].completedAt == Some(now)
      ensures synced.Some? && recounted.Some? && synced.value == recounted.value
              ==> expectedTotal == |JobsOf(recounted.value, e)| ==>
                e in executions.rows ==> executions.rows[e].state == SnapshotVerdict(recounted.value, e)
    {
      var finished;
      result, finished := CurrentTotals(e, fallback, synced, recounted);
      var final := Decide(expectedTotal, finished, result.2);
      var found := executions.UpdateExecutionState(e, final, None, now);
    }
  }
}
