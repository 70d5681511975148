/**
  The `executions` table: state transitions an operator or the system asks for, and the driver
  lease on each row that says which planner, dispatch loop or recovering manager owns it.
 */
module ExecutionTable {

  import opened Wrappers
  import opened JobTable

  datatype ExecState = ExecPending | ExecRunning | ExecPaused | ExecCompleted | ExecFailed | ExecCancelled

  /** Ids carry the host they ran on; the three kinds have different prefixes, so never clash. */
  datatype DriverId =
    | LoopId(host: string, serial: nat)
    | PlannerId(host: string, serial: nat)
    | RecoveryId(host: string, serial: nat)

  datatype Execution = Execution(
    state: ExecState, planComplete: bool, driver: Option<DriverId>, heartbeatAt: Option<Time>,
    createdAt: Time, completedAt: Option<Time>, error: Option<string>,
    jobsDispatched: nat, jobsCompleted: nat, jobsFailed: nat, deduplicatedJobs: nat)

  type ExecRows = map<ExecId, Execution>

  predicate Terminal(s: ExecState) {
    s in {ExecCompleted, ExecFailed, ExecCancelled}
  }

  function NewExecution(now: Time): Execution {
    Execution(ExecPending, false, None, None, now, None, None, 0, 0, 0, 0)
  }

  // ----- the driver lease of one row -----

  /** Nobody owns the row, this driver already does, or the owner's heartbeat is older than the lease. */
  predicate CanClaim(r: Execution, id: DriverId, lease: nat, now: Time) {
    || r.driver.None?
    || r.driver.value == id
    || (r.heartbeatAt.Some? && r.heartbeatAt.value < now - lease)
  }

  function Owned(r: Execution, id: DriverId, now: Time): Execution {
    r.(driver := Some(id), heartbeatAt := Some(now))
  }

  function Freed(r: Execution, id: DriverId): Execution {
    if r.driver == Some(id) then r.(driver := None, heartbeatAt := None) else r
  }

  /** The pattern `<host>:%` matches dispatch loops only: the other two ids start with a word of their own. */
  predicate OnHost(id: DriverId, host: string) {
    id.LoopId? && id.host == host
  }

  function FreedOnHost(r: Execution, host: string): Execution {
    if r.driver.Some? && OnHost(r.driver.value, host) then r.(driver := None, heartbeatAt := None) else r
  }

  // ----- state transitions of one row -----

  /** The unguarded write. */
  function PutState(r: Execution, s: ExecState, error: Option<string>, now: Time): Execution {
    r.(state := s,
       error := if error.Some? && error.value != "" then error else r.error,
       completedAt := if Terminal(s) then Some(now) else r.completedAt)
  }

  datatype Request = Pause | Resume | Cancel | Fail(reason: string) | Reopen

  predicate Allowed(r: Execution, q: Request) {
    match q
    case Pause => r.state in {ExecPending, ExecRunning}
    case Resume => r.state.ExecPaused?
    case Cancel => !Terminal(r.state)
    case Fail(_) => true
    case Reopen => true
  }

  /** The write that follows the check, as such unguarded. */
  function Answered(r: Execution, q: Request, now: Time): Execution {
    match q
    case Pause => PutState(r, ExecPaused, None, now)
    case Resume => PutState(r, ExecRunning, None, now)
    case Cancel => PutState(r, ExecCancelled, Some("Cancelled"), now)
    case Fail(reason) => PutState(r, ExecFailed, Some(reason), now)
    case Reopen => r.(state := ExecRunning, completedAt := None, error := None)
  }

  /** Every claim stands as it did. */
  ghost predicate SameClaims(a: Execution, b: Execution) {
    forall id, lease, now {:trigger CanClaim(b, id, lease, now)} ::
      CanClaim(a, id, lease, now) <==> CanClaim(b, id, lease, now)
  }

  /** Any driver can claim at any time. */
  ghost predicate Unclaimed(r: Execution) {
    forall id, lease, now {:trigger CanClaim(r, id, lease, now)} :: CanClaim(r, id, lease, now)
  }

  /** Other drivers have to wait until the clock passes `now + lease`. */
  ghost predicate HeldFrom(r: Execution, id: DriverId, now: Time) {
    forall other, lease: nat, later {:trigger CanClaim(r, other, lease, later)} ::
      other != id ==> (CanClaim(r, other, lease, later) <==> later > now + lease)
  }

  /** The state each request leaves behind, and what an operator can ask for next. */
  lemma RequestsLeave(r: Execution, q: Request, now: Time)
    ensures var s := Answered(r, q, now).state;
            match q
            case Pause => s == ExecPaused
            case Resume => s == ExecRunning
            case Cancel => s == ExecCancelled
            case Fail(_) => s == ExecFailed
            case Reopen => s == ExecRunning
    ensures Answered(r, q, now).completedAt == match q
            case Pause => r.completedAt
            case Resume => r.completedAt
            case Cancel => Some(now)
            case Fail(_) => Some(now)
            case Reopen => None
    ensures Allowed(Answered(r, q, now), Pause) <==> q == Resume || q == Reopen
    ensures Allowed(Answered(r, q, now), Resume) <==> q == Pause
    ensures Allowed(Answered(r, q, now), Cancel) <==> q in {Pause, Resume, Reopen}
    ensures q.Fail? && q.reason != "" ==> Answered(r, q, now).error == Some(q.reason)
    ensures SameClaims(r, Answered(r, q, now)) && Answered(r, q, now).planComplete == r.planComplete
  {
  }

  /** A host frees its own dispatch loops' leases, for any driver to claim, and touches no other row. */
  lemma HostFreesItsLoops(r: Execution, host: string)
    ensures if exists n: nat :: r.driver == Some(LoopId(host, n)) then Unclaimed(FreedOnHost(r, host))
            else FreedOnHost(r, host) == r
  {
    if r.driver.Some? && r.driver.value.LoopId? && r.driver.value.host == host {
      assert r.driver == Some(LoopId(host, r.driver.value.serial));
    }
  }

  class ExecutionTable {
    var rows: ExecRows

    constructor ()
      ensures rows == map[]
    {
      rows := map[];
    }

    method CreateExecution(e: ExecId, now: Time) returns (created: bool)
      modifies this
      ensures created <==> e !in old(rows)
      ensures rows == if created then old(rows)[e := NewExecution(now)] else old(rows)
      ensures created ==> rows[e].state.ExecPending? && rows[e].createdAt == now && rows[e].completedAt == None
      ensures created ==> Unclaimed(rows[e]) && !rows[e].planComplete
      ensures created ==> Allowed(rows[e], Pause) && Allowed(rows[e], Cancel) && !Allowed(rows[e], Resume)
    {
      created := e !in rows;
      if created {
        rows := rows[e := NewExecution(now)];
      }
    }

    method UpdateExecutionState(e: ExecId, s: ExecState, error: Option<string>, now: Time) returns (found: bool)
      modifies this
      ensures found <==> e in old(rows)
      ensures rows == if found then old(rows)[e := PutState(old(rows)[e], s, error, now)] else old(rows)
      ensures found ==>
                && rows[e].state == s
                && rows[e].completedAt == (if s in {ExecCompleted, ExecFailed, ExecCancelled} then Some(now)
                                           else old(rows)[e].completedAt)
                && rows[e].error == (if error.Some? && error.value != "" then error else old(rows)[e].error)
    {
      if e !in rows {
        return false;
      }
      var r := rows[e].(state := s);
      if error.Some? && error.value != "" {
        r := r.(error := error);
      }
      if Terminal(s) {
        r := r.(completedAt := Some(now));
      }
      rows := rows[e := r];
      found := true;
    }

    method PauseExecution(e: ExecId, now: Time) returns (done: bool)
      modifies this
      ensures done <==> e in old(rows) && old(rows)[e].state in {ExecPending, ExecRunning}
      ensures done ==> e in rows && rows[e].state == ExecPaused && Allowed(old(rows)[e], Pause)
      ensures rows == if done then old(rows)[e := Answered(old(rows)[e], Pause, now)] else old(rows)
    {
      if e !in rows || rows[e].state !in {ExecPending, ExecRunning} {
        return false;
      }
      done := UpdateExecutionState(e, ExecPaused, None, now);
    }

    method ResumeExecution(e: ExecId, now: Time) returns (done: bool)
      modifies this
      ensures done <==> e in old(rows) && old(rows)[e].state == ExecPaused
      ensures done ==> e in rows && rows[e].state == ExecRunning && Allowed(old(rows)[e], Resume)
      ensures rows == if done then old(rows)[e := Answered(old(rows)[e], Resume, now)] else old(rows)
    {
      if e !in rows || !rows[e].state.ExecPaused? {
        return false;
      }
      done := UpdateExecutionState(e, ExecRunning, None, now);
    }

    method CancelExecution(e: ExecId, now: Time) returns (done: bool)
      modifies this
      ensures done <==> e in old(rows) && old(rows)[e].state !in {ExecCompleted, ExecFailed, ExecCancelled}
      ensures done ==>
                && e in rows && rows[e].state == ExecCancelled && rows[e].completedAt == Some(now)
                && rows[e].error == Some("Cancelled") && Allowed(old(rows)[e], Cancel)
      ensures rows == if done then old(rows)[e := Answered(old(rows)[e], Cancel, now)] else old(rows)
    {
      if e !in rows || Terminal(rows[e].state) {
        return false;
      }
      done := UpdateExecutionState(e, ExecCancelled, Some("Cancelled"), now);
    }

    method ReopenExecution(e: ExecId) returns (found: bool)
      modifies this
      ensures found <==> e in old(rows)
      ensures rows == if found then old(rows)[e := Answered(old(rows)[e], Reopen, 0)] else old(rows)
      ensures found ==> rows[e].state == ExecRunning && rows[e].completedAt == None && rows[e].error == None
      ensures found ==> Allowed(rows[e], Pause) && Allowed(rows[e], Cancel) && !Allowed(rows[e], Resume)
      ensures found ==> SameClaims(old(rows)[e], rows[e]) && rows[e].planComplete == old(rows)[e].planComplete
    {
      found := e in rows;
      if found {
        rows := rows[e := rows[e].(state := ExecRunning, completedAt := None, error := None)];
      }
    }

    /** The plan is whole, and neither a request nor a claim is answered differently for it. */
    method MarkPlanComplete(e: ExecId)
      modifies this
      ensures rows == if e in old(rows) then old(rows)[e := old(rows)[e].(planComplete := true)] else old(rows)
      ensures e in rows ==> rows[e].planComplete && SameClaims(old(rows)[e], rows[e])
      ensures e in rows ==> forall q {:trigger Allowed(rows[e], q)} :: Allowed(rows[e], q) <==> Allowed(old(rows)[e], q)
    {
      if e in rows {
        rows := rows[e := rows[e].(planComplete := true)];
      }
    }

    /** After a successful claim no other driver can claim until the clock passes `now + lease`. */
    method ClaimDriver(e: ExecId, id: DriverId, lease: nat, now: Time) returns (claimed: bool)
      modifies this
      ensures claimed <==> e in old(rows) && CanClaim(old(rows)[e], id, lease, now)
      ensures e in old(rows) ==>
                var r := old(rows)[e];
                claimed <==> || r.driver == None || r.driver == Some(id)
                             || (r.heartbeatAt.Some? && r.heartbeatAt.value + lease < now)
      ensures claimed ==> e in rows && rows[e].driver == Some(id) && rows[e].heartbeatAt == Some(now)
      ensures rows == if claimed then old(rows)[e := Owned(old(rows)[e], id, now)] else old(rows)
      ensures claimed ==> HeldFrom(rows[e], id, now)
    {
      claimed := e in rows && CanClaim(rows[e], id, lease, now);
      if claimed {
        rows := rows[e := Owned(rows[e], id, now)];
      }
    }

    /** A driver that beats in time keeps every other out; one that has lost the lease learns so and changes nothing. */
    method HeartbeatDriver(e: ExecId, id: DriverId, now: Time) returns (alive: bool)
      modifies this
      ensures alive <==> e in old(rows) && old(rows)[e].driver == Some(id)
      ensures rows == if alive then old(rows)[e := Owned(old(rows)[e], id, now)] else old(rows)
      ensures alive ==> rows[e].driver == Some(id) && rows[e].heartbeatAt == Some(now)
      ensures alive ==> HeldFrom(rows[e], id, now)
      ensures !alive && e in rows && rows[e].driver.Some? ==> rows[e].driver.value != id
    {
      alive := e in rows && rows[e].driver == Some(id);
      if alive {
        rows := rows[e := rows[e].(heartbeatAt := Some(now))];
      }
    }

    /** The owner leaves the execution to whoever claims next; a former owner changes no claim. */
    method ReleaseDriver(e: ExecId, id: DriverId)
      modifies this
      ensures rows == if e in old(rows) then old(rows)[e := Freed(old(rows)[e], id)] else old(rows)
      ensures e in rows && old(rows)[e].driver == Some(id) ==> rows[e].driver == None && Unclaimed(rows[e])
      ensures e in rows && old(rows)[e].driver != Some(id) ==> SameClaims(old(rows)[e], rows[e])
    {
      if e in rows && rows[e].driver == Some(id) {
        rows := rows[e := rows[e].(driver := None, heartbeatAt := None)];
      }
    }

    method ReleaseDriversOnHost(host: string) returns (released: nat)
      modifies this
      ensures rows == map e | e in old(rows) :: FreedOnHost(old(rows)[e], host)
      ensures forall e | e in rows ::
                if exists n: nat :: old(rows)[e].driver == Some(LoopId(host, n))
                then rows[e].driver == None && Unclaimed(rows[e]) else rows[e] == old(rows)[e]
      ensures released == |set e | e in old(rows) && old(rows)[e] != rows[e]|
    {
      var hit := set e | e in rows && rows[e].driver.Some? && OnHost(rows[e].driver.value, host);
      rows := map e | e in rows ::
        if e in hit then rows[e].(driver := None, heartbeatAt := None) else rows[e];
      released := |hit|;
      assert hit == set e | e in old(rows) && old(rows)[e] != rows[e];
      forall e | e in rows
        ensures if exists n: nat :: old(rows)[e].driver == Some(LoopId(host, n))
                then rows[e].driver == None && Unclaimed(rows[e]) else rows[e] == old(rows)[e]
      {
        HostFreesItsLoops(old(rows)[e], host);
      }
    }
  }
}
