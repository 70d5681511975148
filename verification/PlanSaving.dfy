/**
  A planner saving its plan: jobs are buffered and written a batch at a time, and the execution's
  state is looked at about once a second so that a stopped execution is not planned to the end.
 */
module PlanSaving {

  import opened Arithmetic
  import opened ExecutionTable
  import JobTable

  type JobId = JobTable.JobId
  type ExecId = JobTable.ExecId
  type Time = JobTable.Time

  /** When a planned job comes up, and the state the execution row then has. */
  datatype Look = Look(at: real, state: ExecState)

  datatype PlanEnd = Saved(total: nat, totalBatches: nat) | Aborted(cancelled: nat)

  predicate Stopped(state: ExecState) {
    state in {ExecCancelled, ExecFailed}
  }

  /** A batch is flushed when the buffer has this many jobs; a setting below one works like one. */
  function BatchSize(setting: int): nat {
    if setting < 1 then 1 else setting
  }

  /** The batch of the i-th planned job. */
  function BatchOf(i: nat, setting: int): nat {
    1 + i / BatchSize(setting)
  }

  /** Batches are numbered from one and filled in order: the k-th holds `setting` jobs, or one for a lower setting. */
  lemma JobsOfABatch(i: nat, k: nat, setting: int)
    ensures var size := if setting >= 1 then setting else 1;
            BatchOf(i, setting) == k <==> k >= 1 && (k - 1) * size <= i < k * size
  {
    var size, q, r := BatchSize(setting), i / BatchSize(setting), i % BatchSize(setting);
    assert i == q * size + r;
    if k >= 1 && (k - 1) * size <= i < k * size {
      QuotientIsUnique(i, size, k - 1, i - (k - 1) * size);
    }
  }

  ghost predicate IsFresh(row: JobTable.Job, e: ExecId, batch: nat) {
    row == JobTable.NewRow(e, batch, row.createdAt)
  }

  /** The first `n` planned jobs are in the table, pending, each in its batch, and nothing else has changed. */
  ghost predicate HasSaved(
      was: JobTable.Rows, rows: JobTable.Rows, e: ExecId, ids: seq<JobId>, setting: int, n: nat)
    requires n <= |ids|
  {
    && rows.Keys == was.Keys + (set i | 0 <= i < n :: ids[i])
    && (forall j | j in was :: rows[j] == was[j])
    && forall i | 0 <= i < n :: IsFresh(rows[ids[i]], e, BatchOf(i, setting))
  }

  /** Job i came up within a second of a look that found the execution not stopped. */
  ghost predicate LookedRecently(looks: seq<Look>, i: nat)
    requires i < |looks|
  {
    exists k :: 0 <= k <= i && looks[k].state !in {ExecCancelled, ExecFailed} && looks[i].at - 1.0 < looks[k].at
  }

  lemma InBatch(i: nat, setting: int, full: nat, buffered: nat)
    requires i == full * BatchSize(setting) + buffered && buffered < BatchSize(setting)
    ensures BatchOf(i, setting) == full + 1
  {
    QuotientIsUnique(i, BatchSize(setting), full, buffered);
  }

  /**
    `totalBatches`, which every job's metadata is given afterwards, counts one batch more than there
    are whenever the last flush left nothing over. It is right exactly when it did not.
   */
  lemma WhenTotalBatchesIsRight(n: nat, setting: int)
    ensures BatchOf(n, setting) == (if n == 0 then 0 else BatchOf(n - 1, setting)) <==> n % BatchSize(setting) != 0
  {
    var size, q, r := BatchSize(setting), n / BatchSize(setting), n % BatchSize(setting);
    assert n == q * size + r;
    if r > 0 {
      QuotientIsUnique(n - 1, size, q, r - 1);
    } else if n > 0 {
      MulOrder(q, 0, size);
      QuotientIsUnique(n - 1, size, q - 1, size - 1);
    }
  }

  lemma FlushSaves(
      was: JobTable.Rows, before: JobTable.Rows, after: JobTable.Rows, e: ExecId, ids: seq<JobId>, setting: int,
      n: nat, m: nat, now: Time)
    requires n <= m <= |ids| && HasSaved(was, before, e, ids, setting, n)
    requires forall i | n <= i < m :: BatchOf(i, setting) == BatchOf(n, setting)
    requires after.Keys == before.Keys + (set i | n <= i < m :: ids[i])
    requires forall j | j in before :: after[j] == before[j]
    requires forall i | n <= i < m :: after[ids[i]] == JobTable.NewRow(e, BatchOf(n, setting), now)
    ensures HasSaved(was, after, e, ids, setting, m)
  {
  }

  method FlushBuffer(
      jobs: JobTable.JobTable, e: ExecId, ghost ids: seq<JobId>, ghost setting: int, buffer: seq<JobId>, batch: nat,
      ghost was: JobTable.Rows, ghost n: nat, ghost m: nat, now: Time)
    requires n <= m <= |ids| && buffer == ids[n..m] && HasSaved(was, jobs.rows, e, ids, setting, n)
    requires forall i | n <= i < m :: ids[i] !in jobs.rows && BatchOf(i, setting) == batch
    modifies jobs
    ensures HasSaved(was, jobs.rows, e, ids, setting, m)
  {
    ghost var before := jobs.rows;
    jobs.CreateJobs(e, buffer, batch, now);
    assert forall i | n <= i < m :: buffer[i - n] == ids[i];
    assert (set i | 0 <= i < |buffer| :: buffer[i]) == (set i | n <= i < m :: ids[i]) by {
      assert forall i | 0 <= i < |buffer| :: buffer[i] == ids[n + i];
    }
    if n < m {
      FlushSaves(was, before, jobs.rows, e, ids, setting, n, m, now);
    }
  }

  /**
    Saving a plan of jobs `ids`. Either all of them are saved, in batches, or the execution was seen
    stopped: then what was saved is a whole number of batches, and its unstarted jobs are cancelled.
   */
  method SavePlan(
      jobs: JobTable.JobTable, e: ExecId, ids: seq<JobId>, setting: int, looks: seq<Look>, now: Time)
    returns (end: PlanEnd, ghost saved: nat)
    requires |looks| == |ids| && (forall i | 0 <= i < |ids| :: looks[i].at >= 1.0)
    requires forall i | 0 <= i < |ids| :: ids[i] !in jobs.rows
    requires forall i, k | 0 <= i < k < |ids| :: ids[i] != ids[k]
    modifies jobs
    ensures end.Saved? ==>
              && HasSaved(old(jobs.rows), jobs.rows, e, ids, setting, |ids|)
              && end.total == |ids| && end.totalBatches == BatchOf(|ids|, setting)
              && forall i | 0 <= i < |ids| :: LookedRecently(looks, i)
    ensures end.Aborted? ==>
              && saved < |ids| && saved % BatchSize(setting) == 0
              && (exists i :: saved <= i < |ids| && looks[i].state in {ExecCancelled, ExecFailed})
              && exists rows :: HasSaved(old(jobs.rows), rows, e, ids, setting, saved)
                                && jobs.rows == JobTable.CancelUnstarted(rows, e, now)
                                && end.cancelled == |set j | j in rows && rows[j] != jobs.rows[j]|
  {
    var batch, count, buffer, lastCheck := 1, 0, [], 0.0;
    ghost var was, full, lastLook := jobs.rows, 0, 0;
    saved := 0;
    for i := 0 to |ids|
      invariant batch == full + 1 && saved == full * BatchSize(setting) && count == i == saved + |buffer|
      invariant |buffer| < BatchSize(setting) && buffer == ids[saved..i]
      invariant HasSaved(was, jobs.rows, e, ids, setting, saved)
      invariant lastCheck == 0.0 || (lastLook < i && lastCheck == looks[lastLook].at && !Stopped(looks[lastLook].state))
      invariant forall k | 0 <= k < i :: LookedRecently(looks, k)
    {
      if looks[i].at - lastCheck >= 1.0 {
        lastCheck, lastLook := looks[i].at, i;
        if Stopped(looks[i].state) {
          ghost var rows := jobs.rows;
          var cancelled := jobs.CancelUnstartedJobs(e, now);
          QuotientIsUnique(saved, BatchSize(setting), full, 0);
          assert HasSaved(was, rows, e, ids, setting, saved) && jobs.rows == JobTable.CancelUnstarted(rows, e, now);
          return Aborted(cancelled), saved;
        }
      }
      assert LookedRecently(looks, i) by {
        assert !Stopped(looks[lastLook].state);
      }
      buffer := buffer + [ids[i]];
      count := count + 1;
      if |buffer| >= setting {
        Batches(setting, full, saved, i + 1);
        FlushBuffer(jobs, e, ids, setting, buffer, batch, was, saved, i + 1, now);
        buffer := [];
        batch := batch + 1;
        full, saved := full + 1, i + 1;
      }
    }
    Batches(setting, full, saved, |ids|);
    InBatch(|ids|, setting, full, |buffer|);
    FlushBuffer(jobs, e, ids, setting, buffer, batch, was, saved, |ids|, now);
    saved := |ids|;
    end := Saved(count, batch);
  }

  lemma Batches(setting: int, full: nat, n: nat, m: nat)
    requires n == full * BatchSize(setting) && n <= m <= n + BatchSize(setting)
    ensures forall i | n <= i < m :: BatchOf(i, setting) == full + 1
    ensures m == n + BatchSize(setting) ==> m == (full + 1) * BatchSize(setting)
  {
    forall i | n <= i < m
      ensures BatchOf(i, setting) == full + 1
    {
      InBatch(i, setting, full, i - n);
    }
  }
}
