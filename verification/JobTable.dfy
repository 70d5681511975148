/**
  The `jobs` table: its rows, what each SQL statement does to one row, and the class whose
  methods run those statements. The methods come from JobManager and, for the last three, from
  the worker's executor; both write the same table.
 */
module JobTable {

  import opened Wrappers

  type JobId = string
  type ExecId = string
  /** Seconds, as read from a clock. */
  type Time = int

  datatype JobState = Pending | Dispatched | Running | Completed | Failed | Deduplicated | Cancelled

  datatype Job = Job(
    exec: ExecId, batch: nat, state: JobState, attempts: nat, createdAt: Time, updatedAt: Time,
    dispatchedAt: Option<Time>, completedAt: Option<Time>, error: Option<string>)

  type Rows = map<JobId, Job>

  // ----- which rows a statement selects -----

  predicate Unstarted(r: Job) {
    r.state.Pending? || r.state.Dispatched?
  }

  predicate Contains(text: string, part: string) {
    part <= text || (text != [] && Contains(text[1..], part))
  }

  /** `retry-failed` takes the failed rows, all of them or those whose error has a given text. */
  predicate Retryable(r: Job, e: ExecId, errorContains: string) {
    && r.exec == e
    && r.state.Failed?
    && (errorContains == "" || (r.error.Some? && Contains(r.error.value, errorContains)))
  }

  predicate StaleRunning(r: Job, e: ExecId, cutoff: Time) {
    r.exec == e && r.state.Running? && r.updatedAt < cutoff
  }

  predicate StaleDispatched(r: Job, e: ExecId, cutoff: Time) {
    r.exec == e && r.state.Dispatched? && r.dispatchedAt.Some? && r.dispatchedAt.value < cutoff
  }

  // ----- what a statement does to a row -----

  function NewRow(e: ExecId, batch: nat, now: Time): Job {
    Job(e, batch, Pending, 0, now, now, None, None, None)
  }

  /** The column `updated_at` refreshes itself on every update, so also on a row that is not pending. */
  function MarkedRow(r: Job, now: Time): Job {
    r.(dispatchedAt := Some(now), updatedAt := now, state := if r.state.Pending? then Dispatched else r.state)
  }

  function CancelledRow(r: Job, now: Time): Job {
    r.(state := Cancelled, completedAt := Some(now), updatedAt := now)
  }

  function RetriedRow(r: Job, now: Time): Job {
    r.(state := Pending, attempts := 0, error := None, completedAt := None, updatedAt := now)
  }

  function LostRow(r: Job, now: Time): Job {
    r.(state := Failed, error := Some("Worker lost"), completedAt := Some(now), updatedAt := now)
  }

  function RequeuedRow(r: Job, now: Time): Job {
    r.(state := Pending, updatedAt := now)
  }

  function ClaimedRow(r: Job, now: Time): Job {
    r.(state := Running, attempts := r.attempts + 1, updatedAt := now)
  }

  function FinishedRow(r: Job, outcome: JobState, error: Option<string>, now: Time): Job {
    r.(state := outcome, updatedAt := now, completedAt := Some(now),
       error := if error.Some? && error.value != "" then error else r.error)
  }

  // ----- what that means for the row -----

  /** The text occurs in the other, somewhere. */
  ghost predicate OccursAt(text: string, part: string, i: nat) {
    i + |part| <= |text| && text[i..i + |part|] == part
  }

  lemma OccursLater(text: string, part: string, i: nat)
    requires text != []
    ensures OccursAt(text, part, i + 1) <==> OccursAt(text[1..], part, i)
  {
    if i + 1 + |part| <= |text| {
      assert text[i + 1..i + 1 + |part|] == text[1..][i..i + |part|];
    }
  }

  lemma {:induction false} ContainsIsSubstring(text: string, part: string)
    ensures Contains(text, part) <==> exists i: nat :: OccursAt(text, part, i)
  {
    if part <= text {
      assert OccursAt(text, part, 0);
    } else if text != [] {
      ContainsIsSubstring(text[1..], part);
      if i: nat :| OccursAt(text[1..], part, i) {
        OccursLater(text, part, i);
      }
      if i: nat :| OccursAt(text, part, i) {
        assert i == 0 ==> part <= text;
        OccursLater(text, part, i - 1);
      }
    }
  }

  /** The column `attempts` counts claims, and a job that has been claimed is running as of the claim. */
  lemma ClaimStarts(rows: Rows, id: JobId, now: Time)
    requires id in rows
    ensures Claim(rows, id, now)[id].state.Running? <==> rows[id].state in {Pending, Dispatched, Running}
    ensures rows[id].state in {Pending, Dispatched} ==>
              Claim(rows, id, now)[id]
              == rows[id].(state := Running, attempts := rows[id].attempts + 1, updatedAt := now)
    ensures rows[id].state !in {Pending, Dispatched} ==> Claim(rows, id, now) == rows
  {
  }

  /** A cancelled job is started by no delivery, and a job that had started is not cancelled. */
  lemma CancelledStaysUnstarted(rows: Rows, e: ExecId, id: JobId, now: Time, later: Time)
    requires id in rows && rows[id].exec == e
    ensures CancelUnstarted(rows, e, now)[id].state.Cancelled?
            <==> rows[id].state in {Pending, Dispatched, Cancelled}
    ensures rows[id].state in {Pending, Dispatched} ==>
              && CancelUnstarted(rows, e, now)[id].completedAt == Some(now)
              && Claim(CancelUnstarted(rows, e, now), id, later) == CancelUnstarted(rows, e, now)
    ensures rows[id].state !in {Pending, Dispatched} ==> CancelUnstarted(rows, e, now)[id] == rows[id]
  {
  }

  /** A retried job is a failed one, and is as good as new: it waits, has all its attempts, and its error is gone. */
  lemma RetriedIsAsNew(rows: Rows, e: ExecId, errorContains: string, id: JobId, now: Time, later: Time)
    requires id in rows
    ensures RetryFailed(rows, e, errorContains, now)[id] != rows[id] ==> rows[id].exec == e && rows[id].state.Failed?
    ensures rows[id].exec == e && rows[id].state.Failed? && errorContains == "" ==>
              var retried := RetryFailed(rows, e, errorContains, now);
              && retried[id].state.Pending? && retried[id].attempts == 0
              && retried[id].error == None && retried[id].completedAt == None
              && Claim(retried, id, later)[id].state.Running? && Claim(retried, id, later)[id].attempts == 1
    ensures rows[id].exec == e && rows[id].state.Failed? && errorContains != "" ==>
              (RetryFailed(rows, e, errorContains, now)[id].state.Pending?
               <==> rows[id].error.Some? && exists i: nat :: OccursAt(rows[id].error.value, errorContains, i))
  {
    if rows[id].error.Some? {
      ContainsIsSubstring(rows[id].error.value, errorContains);
    }
  }

  /** A finished job has the outcome and the moment, and the error of this attempt if there was one. */
  lemma FinishTells(rows: Rows, id: JobId, outcome: JobState, error: Option<string>, now: Time)
    requires id in rows
    ensures var row := Finish(rows, id, outcome, error, now)[id];
            && row.state == outcome && row.completedAt == Some(now)
            && row.error == (if error.Some? && error.value != "" then error else rows[id].error)
            && row.attempts == rows[id].attempts && row.exec == rows[id].exec && row.batch == rows[id].batch
  {
  }

  /** What the sweep makes of one row, in terms of its own columns. */
  lemma SweptRowIs(r: Job, e: ExecId, runningCutoff: Time, dispatchCutoff: Time, maxAttempts: nat, now: Time)
    ensures var swept := SweptRow(r, e, runningCutoff, dispatchCutoff, maxAttempts, now);
            if r.exec == e && r.state.Running? && r.updatedAt < runningCutoff then
              if r.attempts >= maxAttempts then swept.state.Failed? && swept.completedAt == Some(now)
              else swept.state.Pending? && swept.attempts == r.attempts
            else if r.exec == e && r.state.Dispatched? && r.dispatchedAt.Some? && r.dispatchedAt.value < dispatchCutoff
            then swept.state.Pending? && swept.attempts == r.attempts
            else swept == r
  {
  }

  /**
    The dispatch lease. A job that was marked at `sent` and that nobody has claimed goes back to the queue
    in a sweep at `now` exactly if the lease has passed since.
   */
  lemma UnclaimedIsRequeued(
      rows: Rows, id: JobId, sent: Time, now: Time, runningLease: nat, dispatchLease: nat, maxAttempts: nat)
    requires id in rows && rows[id].state.Pending?
    ensures var marked, e := Mark(rows, id, sent)[id], rows[id].exec;
            && marked.state.Dispatched?
            && (SweptRow(marked, e, now - runningLease, now - dispatchLease, maxAttempts, now).state.Pending?
                <==> sent + dispatchLease < now)
  {
  }

  /** The running lease. A job claimed at `start` that has not beaten since is taken from its worker after the lease. */
  lemma SilentIsReclaimed(
      rows: Rows, id: JobId, start: Time, now: Time, runningLease: nat, dispatchLease: nat, maxAttempts: nat)
    requires id in rows && rows[id].state in {Pending, Dispatched}
    ensures var claimed := Claim(rows, id, start)[id];
            var swept := SweptRow(claimed, rows[id].exec, now - runningLease, now - dispatchLease, maxAttempts, now);
            if start + runningLease >= now then swept == claimed
            else if rows[id].attempts + 1 >= maxAttempts then swept.state.Failed?
            else swept.state.Pending?
  {
  }

  /** Of the pending jobs the oldest planned go first, and a page is short only if it holds them all. */
  lemma OldestGoFirst(rows: Rows, e: ExecId, limit: nat, page: seq<JobId>, i: nat, j: JobId)
    requires IsPendingPage(rows, e, limit, page) && i < |page|
    requires j in rows && rows[j].exec == e && rows[j].state.Pending? && j !in page[..i]
    ensures page[i] in rows && rows[page[i]].exec == e && rows[page[i]].state.Pending?
    ensures var first, other := rows[page[i]], rows[j];
            first.batch < other.batch || (first.batch == other.batch && first.createdAt <= other.createdAt)
    ensures j !in page ==> |page| == limit
  {
    assert IsPending(rows, e, j) && IsPending(rows, e, page[i]);
    assert forall k | 0 <= k < i :: page[..i][k] == page[k] && page[k] != j;
  }

  // ----- whole statements, as functions of the table -----

  function Insert(rows: Rows, ids: set<JobId>, row: Job): Rows {
    map j | j in rows.Keys + ids :: if j in rows then rows[j] else row
  }

  function CancelUnstarted(rows: Rows, e: ExecId, now: Time): Rows {
    map j | j in rows :: if rows[j].exec == e && Unstarted(rows[j]) then CancelledRow(rows[j], now) else rows[j]
  }

  function RetryFailed(rows: Rows, e: ExecId, errorContains: string, now: Time): Rows {
    map j | j in rows :: if Retryable(rows[j], e, errorContains) then RetriedRow(rows[j], now) else rows[j]
  }

  /** First statement of the lease sweep. */
  function FailLost(rows: Rows, e: ExecId, cutoff: Time, maxAttempts: nat, now: Time): Rows {
    map j | j in rows :: if StaleRunning(rows[j], e, cutoff) && rows[j].attempts >= maxAttempts
                         then LostRow(rows[j], now) else rows[j]
  }

  /** Second statement of the lease sweep. */
  function RequeueRunning(rows: Rows, e: ExecId, cutoff: Time, now: Time): Rows {
    map j | j in rows :: if StaleRunning(rows[j], e, cutoff) then RequeuedRow(rows[j], now) else rows[j]
  }

  /** Third statement of the lease sweep. */
  function RequeueDispatched(rows: Rows, e: ExecId, cutoff: Time, now: Time): Rows {
    map j | j in rows :: if StaleDispatched(rows[j], e, cutoff) then RequeuedRow(rows[j], now) else rows[j]
  }

  function Mark(rows: Rows, id: JobId, now: Time): Rows {
    if id in rows then rows[id := MarkedRow(rows[id], now)] else rows
  }

  function Claim(rows: Rows, id: JobId, now: Time): Rows {
    if id in rows && Unstarted(rows[id]) then rows[id := ClaimedRow(rows[id], now)] else rows
  }

  function Beat(rows: Rows, id: JobId, now: Time): Rows {
    if id in rows && rows[id].state.Running? then rows[id := rows[id].(updatedAt := now)] else rows
  }

  /** No guard on the state: a worker that comes back late overwrites whatever is there. */
  function Finish(rows: Rows, id: JobId, outcome: JobState, error: Option<string>, now: Time): Rows {
    if id in rows then rows[id := FinishedRow(rows[id], outcome, error, now)] else rows
  }

  /**
    The rows a dispatch pass loads: distinct pending rows of the execution, oldest batch and
    then oldest row first, and no pending row left out while a younger one is taken.
   */
  ghost predicate IsPendingPage(rows: Rows, e: ExecId, limit: nat, page: seq<JobId>) {
    && |page| <= limit
    && (forall i, k | 0 <= i < k < |page| :: page[i] != page[k])
    && (forall i | 0 <= i < |page| :: IsPending(rows, e, page[i]))
    && (forall i, k | 0 <= i < k < |page| :: !Before(rows[page[k]], rows[page[i]]))
    && (forall j, i | IsPending(rows, e, j) && j !in page && 0 <= i < |page| :: !Before(rows[j], rows[page[i]]))
    && (|page| < limit ==> forall j | IsPending(rows, e, j) :: j in page)
  }

  predicate IsPending(rows: Rows, e: ExecId, j: JobId) {
    j in rows && rows[j].exec == e && rows[j].state.Pending?
  }

  predicate Before(a: Job, b: Job) {
    a.batch < b.batch || (a.batch == b.batch && a.createdAt < b.createdAt)
  }

  // ----- the sweep as one transaction -----

  /** What the sweep is for, one row at a time. */
  function SweptRow(r: Job, e: ExecId, runningCutoff: Time, dispatchCutoff: Time, maxAttempts: nat, now: Time): Job {
    if StaleRunning(r, e, runningCutoff) then
      if r.attempts >= maxAttempts then LostRow(r, now) else RequeuedRow(r, now)
    else if StaleDispatched(r, e, dispatchCutoff) then RequeuedRow(r, now)
    else r
  }

  /**
    The second statement selects every stale running row, with no test of `attempts`: it is the
    order of the statements that keeps a row out of attempts from being queued again. Run the
    other way round, exactly the stale rows out of attempts are queued instead of failed.
   */
  lemma SweepOrderMatters(rows: Rows, e: ExecId, cutoff: Time, maxAttempts: nat, now: Time, j: JobId)
    requires j in rows && cutoff <= now
    ensures var inOrder := RequeueRunning(FailLost(rows, e, cutoff, maxAttempts, now), e, cutoff, now)[j];
            var swapped := FailLost(RequeueRunning(rows, e, cutoff, now), e, cutoff, maxAttempts, now)[j];
            && (inOrder.state.Pending? && !rows[j].state.Pending? ==> inOrder.attempts < maxAttempts)
            && (inOrder != swapped <==> StaleRunning(rows[j], e, cutoff) && rows[j].attempts >= maxAttempts)
            && (inOrder != swapped ==> inOrder.state.Failed? && swapped.state.Pending?)
  {
    var failed := FailLost(rows, e, cutoff, maxAttempts, now);
    var requeued := RequeueRunning(rows, e, cutoff, now);
    assert failed[j] == if StaleRunning(rows[j], e, cutoff) && rows[j].attempts >= maxAttempts
                        then LostRow(rows[j], now) else rows[j];
    assert requeued[j] == if StaleRunning(rows[j], e, cutoff) then RequeuedRow(rows[j], now) else rows[j];
  }

  /** The rows each statement of the sweep selects. */
  function LostJobs(rows: Rows, e: ExecId, cutoff: Time, maxAttempts: nat): set<JobId> {
    set j | j in rows && StaleRunning(rows[j], e, cutoff) && rows[j].attempts >= maxAttempts
  }

  function SilentJobs(rows: Rows, e: ExecId, cutoff: Time): set<JobId> {
    set j | j in rows && StaleRunning(rows[j], e, cutoff)
  }

  function UnclaimedJobs(rows: Rows, e: ExecId, cutoff: Time): set<JobId> {
    set j | j in rows && StaleDispatched(rows[j], e, cutoff)
  }

  /** The jobs that went from one state to another. */
  function Moved(was: Rows, rows: Rows, from: JobState, to: JobState): set<JobId> {
    set j | j in was && j in rows && was[j].state == from && rows[j].state == to
  }

  lemma SweepOfOne(
      rows: Rows, e: ExecId, runningCutoff: Time, dispatchCutoff: Time, maxAttempts: nat, now: Time, j: JobId)
    requires runningCutoff <= now && j in rows
    ensures var r1 := FailLost(rows, e, runningCutoff, maxAttempts, now);
            var r2 := RequeueRunning(r1, e, runningCutoff, now);
            var r3 := RequeueDispatched(r2, e, dispatchCutoff, now);
            && r3[j] == SweptRow(rows[j], e, runningCutoff, dispatchCutoff, maxAttempts, now)
            && (j in LostJobs(rows, e, runningCutoff, maxAttempts) <==> j in Moved(rows, r3, Running, Failed))
            && (j in SilentJobs(r1, e, runningCutoff) <==> j in Moved(rows, r3, Running, Pending))
            && (j in UnclaimedJobs(r2, e, dispatchCutoff) <==> j in Moved(rows, r3, Dispatched, Pending))
  {
  }

  /** The three statements in order are the per-row decision, and their row counts are its branches. */
  lemma SweepOutcome(rows: Rows, e: ExecId, runningCutoff: Time, dispatchCutoff: Time, maxAttempts: nat, now: Time)
    requires runningCutoff <= now
    ensures var r1 := FailLost(rows, e, runningCutoff, maxAttempts, now);
            var r2 := RequeueRunning(r1, e, runningCutoff, now);
            var r3 := RequeueDispatched(r2, e, dispatchCutoff, now);
            && (forall j | j in rows ::
                  r3[j] == SweptRow(rows[j], e, runningCutoff, dispatchCutoff, maxAttempts, now))
            && LostJobs(rows, e, runningCutoff, maxAttempts) == Moved(rows, r3, Running, Failed)
            && SilentJobs(r1, e, runningCutoff) == Moved(rows, r3, Running, Pending)
            && UnclaimedJobs(r2, e, dispatchCutoff) == Moved(rows, r3, Dispatched, Pending)
  {
    forall j | j in rows {
      SweepOfOne(rows, e, runningCutoff, dispatchCutoff, maxAttempts, now, j);
    }
  }

  class JobTable {
    var rows: Rows

    constructor ()
      ensures rows == map[]
    {
      rows := map[];
    }

    method CreateJobs(e: ExecId, ids: seq<JobId>, batch: nat, now: Time)
      requires forall i | 0 <= i < |ids| :: ids[i] !in rows
      modifies this
      ensures rows.Keys == old(rows).Keys + (set i | 0 <= i < |ids| :: ids[i])
      ensures forall j | j in old(rows) :: rows[j] == old(rows)[j]
      ensures forall i | 0 <= i < |ids| :: rows[ids[i]] == NewRow(e, batch, now)
      ensures forall i | 0 <= i < |ids| ::
                && rows[ids[i]].exec == e && rows[ids[i]].batch == batch && rows[ids[i]].state.Pending?
                && rows[ids[i]].attempts == 0 && rows[ids[i]].createdAt == now && rows[ids[i]].error == None
    {
      if ids == [] {
        return;
      }
      rows := Insert(rows, set i | 0 <= i < |ids| :: ids[i], NewRow(e, batch, now));
    }

    method MarkJobDispatched(id: JobId, now: Time)
      modifies this
      ensures rows == Mark(old(rows), id, now)
      ensures id in rows ==>
                && rows[id].dispatchedAt == Some(now) && rows[id].attempts == old(rows)[id].attempts
                && rows[id].state == if old(rows)[id].state.Pending? then Dispatched else old(rows)[id].state
    {
      if id in rows {
        rows := rows[id := rows[id].(dispatchedAt := Some(now), updatedAt := now)];
      }
      if id in rows && rows[id].state.Pending? {
        rows := rows[id := rows[id].(state := Dispatched, updatedAt := now)];
      }
    }

    method CancelUnstartedJobs(e: ExecId, now: Time) returns (cancelled: nat)
      modifies this
      ensures rows == CancelUnstarted(old(rows), e, now)
      ensures forall j | j in rows ::
                if old(rows)[j].exec == e && old(rows)[j].state in {Pending, Dispatched} then rows[j].state.Cancelled?
                else rows[j] == old(rows)[j]
      ensures cancelled == |set j | j in old(rows) && old(rows)[j] != rows[j]|
    {
      var hit := set j | j in rows && rows[j].exec == e && rows[j].state in {Pending, Dispatched};
      rows := map j | j in rows :: if j in hit then CancelledRow(rows[j], now) else rows[j];
      cancelled := |hit|;
      assert hit == set j | j in old(rows) && old(rows)[j] != rows[j];
    }

    method RequeueFailed(e: ExecId, errorContains: string, now: Time) returns (requeued: nat)
      modifies this
      ensures rows == RetryFailed(old(rows), e, errorContains, now)
      ensures forall j | j in rows && rows[j] != old(rows)[j] ::
                && old(rows)[j].exec == e && old(rows)[j].state.Failed?
                && rows[j].state.Pending? && rows[j].attempts == 0 && rows[j].error == None
      ensures errorContains == "" ==> forall j | j in rows && rows[j].exec == e :: !rows[j].state.Failed?
      ensures requeued == |set j | j in old(rows) && old(rows)[j] != rows[j]|
    {
      var hit := set j | j in rows && Retryable(rows[j], e, errorContains);
      rows := map j | j in rows :: if j in hit then RetriedRow(rows[j], now) else rows[j];
      requeued := |hit|;
      assert hit == set j | j in old(rows) && old(rows)[j] != rows[j];
    }

    /**
      The lease sweep. Three statements in one transaction; what they amount to is one decision
      per row, and the three counts say how many rows took each branch of it.
     */
    method ReclaimExpiredLeases(e: ExecId, runningLease: nat, dispatchLease: nat, maxAttempts: nat, now: Time)
      returns (failed: nat, requeuedRunning: nat, requeuedDispatched: nat)
      modifies this
      ensures rows.Keys == old(rows).Keys
      ensures forall j | j in rows ::
                rows[j] == SweptRow(old(rows)[j], e, now - runningLease, now - dispatchLease, maxAttempts, now)
      ensures failed == |Moved(old(rows), rows, Running, Failed)|
      ensures requeuedRunning == |Moved(old(rows), rows, Running, Pending)|
      ensures requeuedDispatched == |Moved(old(rows), rows, Dispatched, Pending)|
    {
      var runningCutoff, dispatchCutoff := now - runningLease, now - dispatchLease;
      failed := |LostJobs(rows, e, runningCutoff, maxAttempts)|;
      rows := FailLost(rows, e, runningCutoff, maxAttempts, now);
      requeuedRunning := |SilentJobs(rows, e, runningCutoff)|;
      rows := RequeueRunning(rows, e, runningCutoff, now);
      requeuedDispatched := |UnclaimedJobs(rows, e, dispatchCutoff)|;
      rows := RequeueDispatched(rows, e, dispatchCutoff, now);
      SweepOutcome(old(rows), e, runningCutoff, dispatchCutoff, maxAttempts, now);
    }

    /** Unguarded; the drive loop uses it to fail a job whose message can never be sent. */
    method UpdateJobState(id: JobId, state: JobState, error: Option<string>, now: Time) returns (row: Option<Job>)
      modifies this
      ensures id !in old(rows) ==> row == None && rows == old(rows)
      ensures id in old(rows) ==> id in rows && rows == old(rows)[id := rows[id]] && row == Some(rows[id])
      ensures id in old(rows) ==>
                var was := old(rows)[id];
                rows[id] == was.(state := state, updatedAt := now,
                                 completedAt := if state in {Completed, Failed} then Some(now) else was.completedAt,
                                 error := if error.Some? && error.value != "" then error else was.error)
    {
      if id !in rows {
        return None;
      }
      var r := rows[id].(state := state, updatedAt := now);
      if state in {Completed, Failed} {
        r := r.(completedAt := Some(now));
      }
      if error.Some? && error.value != "" {
        r := r.(error := error);
      }
      rows := rows[id := r];
      row := Some(r);
    }

    /**
      A worker's claim, with the database reachable. The answer is the state that blocks this
      delivery, or None when it should run the job: it claimed it, or no row tracks it.
     */
    method ClaimJob(id: JobId, now: Time) returns (blockedBy: Option<JobState>)
      modifies this
      ensures rows == Claim(old(rows), id, now)
      ensures blockedBy == None <==> id !in old(rows) || old(rows)[id].state in {Pending, Dispatched}
      ensures blockedBy == None && id in rows ==>
                rows[id] == old(rows)[id].(state := Running, attempts := old(rows)[id].attempts + 1, updatedAt := now)
      ensures blockedBy.Some? ==> blockedBy.value == old(rows)[id].state && rows == old(rows)
    {
      if id in rows && (rows[id].state.Pending? || rows[id].state.Dispatched?) {
        rows := rows[id := ClaimedRow(rows[id], now)];
        return None;
      }
      blockedBy := if id in rows then Some(rows[id].state) else None;
    }

    /** A running job that has just beaten is safe from every sweep that looks back no further than the beat. */
    method HeartbeatJob(id: JobId, now: Time)
      modifies this
      ensures rows == Beat(old(rows), id, now)
      ensures rows.Keys == old(rows).Keys
      ensures forall j | j in rows ::
                rows[j].state == old(rows)[j].state && rows[j].attempts == old(rows)[j].attempts
      ensures id in rows && rows[id].state.Running? ==>
                forall e, running, dispatched, maxAttempts, later
                  {:trigger SweptRow(rows[id], e, running, dispatched, maxAttempts, later)} ::
                  running <= now ==> SweptRow(rows[id], e, running, dispatched, maxAttempts, later) == rows[id]
    {
      if id in rows && rows[id].state.Running? {
        rows := rows[id := rows[id].(updatedAt := now)];
      }
    }

    /**
      The worker's final write. Afterwards no delivery starts the job and no sweep touches it, whatever
      state the row was in; only a failure can be retried.
     */
    method UpdateJobInDb(id: JobId, success: bool, deduplicated: bool, error: Option<string>, now: Time)
      modifies this
      ensures rows == Finish(old(rows), id,
                             if deduplicated then Deduplicated else if success then Completed else Failed, error, now)
      ensures id in rows ==>
                && rows[id].state == (if deduplicated then Deduplicated else if success then Completed else Failed)
                && rows[id].completedAt == Some(now)
                && (error.Some? && error.value != "" ==> rows[id].error == error)
      ensures forall later {:trigger Claim(rows, id, later)} :: Claim(rows, id, later) == rows
      ensures id in rows ==>
                forall e, running, dispatched, maxAttempts, later
                  {:trigger SweptRow(rows[id], e, running, dispatched, maxAttempts, later)} ::
                  SweptRow(rows[id], e, running, dispatched, maxAttempts, later) == rows[id]
      ensures id in rows ==> (Retryable(rows[id], rows[id].exec, "") <==> !success && !deduplicated)
    {
      var state := if deduplicated then Deduplicated else if success then Completed else Failed;
      if id in rows {
        rows := rows[id := FinishedRow(rows[id], state, error, now)];
      }
    }
  }
}
