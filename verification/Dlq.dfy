/**
  The dead letter queue: jobs that wait for a time, run as executions of their own, are retried with
  growing delays, and move to an archive when they have failed too often.
 */
module Dlq {

  import opened Wrappers

  type JobId = nat

  /** A job's parameters, named by their JSON text with sorted keys. */
  datatype Payload = Payload(canonical: string)

  datatype Status = Pending | Processing | Done | Cancelled

  /** A row of the live table. Times are in minutes. */
  datatype DlqJob = DlqJob(
    payload: Payload, pipeline: string, scheduledAt: int, delayMinutes: int, status: Status,
    retryCount: int, maxRetries: int, error: Option<string>, execution: Option<nat>)

  datatype ArchivedJob = ArchivedJob(
    payload: Payload, pipeline: string, delayMinutes: int, retryCount: int, maxRetries: int, error: Option<string>)

  /** An execution created for some jobs, started with the parameters of the first. */
  datatype Launch = Launch(pipeline: string, params: Payload, jobs: seq<JobId>)

  /**
    A manual run of a job that has failed: its transaction is rolled back and the row unlocked, and the
    failure is still to be read and written. `read` is the row as it was when read again.
   */
  datatype Flight = Flight(id: JobId, read: Option<DlqJob>)

  /**
    Both tables, the executions created so far, the next id the live table will give out, the manual
    failures in flight, and the cancellations that have found their job pending and are still to write.
   */
  datatype Queue = Queue(
    live: map<JobId, DlqJob>, archive: map<JobId, ArchivedJob>, launched: seq<Launch>, nextId: nat,
    flights: map<nat, Flight>, cancels: multiset<JobId>)

  const NoJobs := Queue(map[], map[], [], 0, map[], multiset{})

  /** Whether creating an execution for a group works out. */
  datatype Outcome = Ran | Threw(error: string)

  function Pow2(n: nat): nat {
    if n == 0 then 1 else 2 * Pow2(n - 1)
  }

  /** Minutes until the next try after `retryCount` failures. */
  function Backoff(retryCount: nat): nat
    requires retryCount >= 1
  {
    5 * Pow2(retryCount - 1)
  }

  // ----- what happens to one job -----

  predicate LastTry(row: DlqJob) {
    row.retryCount + 1 >= row.maxRetries
  }

  function Archived(row: DlqJob, error: string): ArchivedJob {
    ArchivedJob(row.payload, row.pipeline, row.delayMinutes, row.retryCount + 1, row.maxRetries, Some(error))
  }

  function Rescheduled(row: DlqJob, error: string, now: int): DlqJob
    requires row.retryCount >= 0
  {
    row.(retryCount := row.retryCount + 1, error := Some(error), status := Pending,
         scheduledAt := now + Backoff(row.retryCount + 1))
  }

  function Failed(q: Queue, id: JobId, error: string, now: int): Queue
    requires id in q.live && q.live[id].retryCount >= 0
  {
    var row := q.live[id];
    if LastTry(row) then q.(live := q.live - {id}, archive := q.archive[id := Archived(row, error)])
    else q.(live := q.live[id := Rescheduled(row, error, now)])
  }

  function Finished(q: Queue, id: JobId, e: nat): Queue
    requires id in q.live
  {
    q.(live := q.live[id := q.live[id].(status := Done, execution := Some(e))])
  }

  /** A job of the batch has run in an execution of its own pipeline, with its own payload. */
  ghost predicate Completed(was: Queue, q: Queue, id: JobId)
    requires id in was.live
  {
    && id in q.live && q.live[id].execution.Some?
    && var e := q.live[id].execution.value;
    && q.live[id] == was.live[id].(status := Done, execution := Some(e))
    && |was.launched| <= e < |q.launched|
    && q.launched[e].pipeline == was.live[id].pipeline && q.launched[e].params == was.live[id].payload
    && id in q.launched[e].jobs
  }

  /** A job of the batch has failed once more. */
  ghost predicate Retried(was: Queue, q: Queue, id: JobId, error: string, now: int)
    requires id in was.live && was.live[id].retryCount >= 0
  {
    if LastTry(was.live[id]) then
      id !in q.live && id in q.archive && q.archive[id] == Archived(was.live[id], error)
    else
      id !in q.archive && id in q.live && q.live[id] == Rescheduled(was.live[id], error, now)
  }

  ghost predicate Same(was: Queue, q: Queue, id: JobId) {
    && (id in q.live <==> id in was.live) && (id in was.live ==> q.live[id] == was.live[id])
    && (id in q.archive <==> id in was.archive) && (id in was.archive ==> q.archive[id] == was.archive[id])
  }

  /** What the dispatch of each payload comes to, and when each failing job is handled. */
  datatype Fate = Fate(outcome: Payload -> Outcome, at: JobId -> int)

  ghost predicate Handled(was: Queue, q: Queue, id: JobId, fate: Fate)
    requires id in was.live && was.live[id].retryCount >= 0
  {
    match fate.outcome(was.live[id].payload)
    case Ran => Completed(was, q, id) && id !in q.archive
    case Threw(error) => Retried(was, q, id, error, fate.at(id))
  }

  /** The jobs of a batch that a dispatcher may take: live ones of one pipeline, each listed once. */
  ghost predicate Takes(q: Queue, jobs: seq<JobId>, pipeline: string) {
    && Valid(q)
    && (forall i, k | 0 <= i < k < |jobs| :: jobs[i] != jobs[k])
    && (forall id | id in jobs :: id in q.live && q.live[id].status.Pending? && q.live[id].pipeline == pipeline)
  }

  /**
    How one batch leaves the queue: every job of it has run with its own payload or failed once,
    every other job is as it was, and each new execution holds the jobs of one payload, all of them.
   */
  ghost predicate Batched(was: Queue, q: Queue, jobs: seq<JobId>, fate: Fate) {
    && (forall id | id in jobs :: id in was.live && was.live[id].retryCount >= 0 && Handled(was, q, id, fate))
    && (forall id: JobId | id !in jobs :: Same(was, q, id))
    && q.nextId == was.nextId && q.flights == was.flights && q.cancels == was.cancels
    && was.launched <= q.launched
    && forall e | |was.launched| <= e < |q.launched| :: OnePayload(was, q.launched[e], jobs)
  }

  ghost predicate OnePayload(was: Queue, launch: Launch, jobs: seq<JobId>) {
    forall id: JobId :: id in launch.jobs <==> id in jobs && id in was.live && was.live[id].payload == launch.params
  }

  // ----- what holds of every queue -----

  /**
    Every id given out is in exactly one of the two tables, a live job has failed less often than it
    may, an archived one exactly as often, and a completed one ran with its own payload.
   */
  ghost predicate Valid(q: Queue) {
    && (forall id: JobId :: id < q.nextId <==> id in q.live || id in q.archive)
    && (forall id: JobId :: !(id in q.live && id in q.archive))
    && (forall id | id in q.live :: 0 <= q.live[id].retryCount < q.live[id].maxRetries)
    && (forall id | id in q.archive :: 1 <= q.archive[id].retryCount == q.archive[id].maxRetries)
    && (forall id | id in q.live && q.live[id].status.Done? :: RanAsItself(q, id))
    && (forall t | t in q.flights :: FlightFits(q, q.flights[t]))
  }

  /** What a manual failure has read is of its own job, and was within the bound. */
  predicate FlightFits(q: Queue, f: Flight) {
    && f.id < q.nextId
    && (f.read.Some? ==>
          && 0 <= f.read.value.retryCount < f.read.value.maxRetries
          && (f.id in q.live ==> q.live[f.id].maxRetries == f.read.value.maxRetries))
  }

  ghost predicate RanAsItself(q: Queue, id: JobId)
    requires id in q.live
  {
    && q.live[id].execution.Some? && q.live[id].execution.value < |q.launched|
    && var launch := q.launched[q.live[id].execution.value];
    && launch.params == q.live[id].payload && launch.pipeline == q.live[id].pipeline && id in launch.jobs
  }

  function Scheduled(q: Queue, payload: Payload, pipeline: string, delay: int, maxRetries: int, now: int): Queue {
    q.(live := q.live[q.nextId := DlqJob(payload, pipeline, now + delay, delay, Pending, 0, maxRetries, None, None)],
       nextId := q.nextId + 1)
  }

  /** The write of a cancellation, whatever the status is by then. */
  function CancelledJob(q: Queue, id: JobId): Queue {
    q.(cancels := q.cancels - multiset{id},
       live := if id in q.live then q.live[id := q.live[id].(status := Cancelled)] else q.live)
  }

  /** The columns a manual failure writes: from what it read, the status and the error only if it read others. */
  function Overwritten(row: DlqJob, read: DlqJob, error: string, now: int): DlqJob
    requires read.retryCount >= 0
  {
    row.(retryCount := read.retryCount + 1,
         error := if read.error == Some(error) then row.error else Some(error),
         scheduledAt := now + Backoff(read.retryCount + 1),
         status := if read.status.Pending? then row.status else Pending)
  }

  /** Reading the row again; if it is gone the failure is never recorded. */
  function ReadAgain(q: Queue, t: nat): Queue
    requires t in q.flights
  {
    var id := q.flights[t].id;
    q.(flights := if id in q.live then q.flights[t := Flight(id, Some(q.live[id]))] else q.flights - {t})
  }

  function WrittenLate(q: Queue, t: nat, error: string, now: int): Queue
    requires t in q.flights && q.flights[t].read.Some? && q.flights[t].read.value.retryCount >= 0
  {
    var id, read, landed := q.flights[t].id, q.flights[t].read.value, q.(flights := q.flights - {t});
    if id !in q.live then landed
    else if LastTry(read) then landed.(live := q.live - {id}, archive := q.archive[id := Archived(read, error)])
    else landed.(live := q.live[id := Overwritten(q.live[id], read, error, now)])
  }

  /**
    One transaction on the queue, or one read outside any. A manual run that succeeds is a batch of
    one; one that fails takes three steps, and its handler may end without having written anything.
    A poll or a manual batch may be rolled back as a whole after some of its dispatches were tried:
    `jobs` are those tried, and only the executions it has created stay.
   */
  datatype Event =
    | Schedule(payload: Payload, pipeline: string, delay: int, maxRetries: int, now: int)
    | CancelReads(id: JobId)
    | CancelWrites(id: JobId)
    | Run(jobs: seq<JobId>, pipeline: string, fate: Fate)
    | RollsBack(jobs: seq<JobId>, fates: string -> Fate, launches: seq<Launch>)
    | NowFails(t: nat, id: JobId)
    | NowReads(t: nat)
    | NowWrites(t: nat, error: string, now: int)
    | NowStops(t: nat)

  /** Pending jobs of any pipelines, each locked once. */
  ghost predicate Locks(q: Queue, jobs: seq<JobId>) {
    && (forall i, k | 0 <= i < k < |jobs| :: jobs[i] != jobs[k])
    && (forall id | id in jobs :: id in q.live && q.live[id].status.Pending?)
  }

  /** An execution that was created for the jobs of one pipeline and payload. */
  ghost predicate TriedFor(q: Queue, launch: Launch, jobs: seq<JobId>, fates: string -> Fate) {
    && fates(launch.pipeline).outcome(launch.params).Ran?
    && forall id: JobId :: id in launch.jobs <==>
         && id in jobs && id in q.live
         && q.live[id].pipeline == launch.pipeline && q.live[id].payload == launch.params
  }

  ghost predicate Step(was: Queue, event: Event, q: Queue) {
    match event
    case Schedule(payload, pipeline, delay, maxRetries, now) =>
      maxRetries >= 1 && q == Scheduled(was, payload, pipeline, delay, maxRetries, now)
    case CancelReads(id) =>
      id in was.live && was.live[id].status.Pending? && q == was.(cancels := was.cancels + multiset{id})
    case CancelWrites(id) => id in was.cancels && q == CancelledJob(was, id)
    case Run(jobs, pipeline, fate) => Takes(was, jobs, pipeline) && Batched(was, q, jobs, fate)
    case RollsBack(jobs, fates, launches) =>
      && Locks(was, jobs) && (forall launch | launch in launches :: TriedFor(was, launch, jobs, fates))
      && q == was.(launched := was.launched + launches)
    case NowFails(t, id) =>
      && t !in was.flights && id in was.live && was.live[id].status.Pending?
      && q == was.(flights := was.flights[t := Flight(id, None)])
    case NowReads(t) => t in was.flights && was.flights[t].read.None? && q == ReadAgain(was, t)
    case NowWrites(t, error, now) =>
      && t in was.flights && was.flights[t].read.Some? && was.flights[t].read.value.retryCount >= 0
      && q == WrittenLate(was, t, error, now)
    case NowStops(t) => t in was.flights && q == was.(flights := was.flights - {t})
  }

  ghost predicate IsRun(events: seq<Event>, queues: seq<Queue>) {
    && |queues| == |events| + 1 && queues[0] == NoJobs
    && forall k | 0 <= k < |events| :: Follows(events, queues, k)
  }

  ghost predicate Follows(events: seq<Event>, queues: seq<Queue>, k: nat)
    requires k < |events| < |queues|
  {
    Step(queues[k], events[k], queues[k + 1])
  }

  lemma BatchKeepsValid(was: Queue, q: Queue, jobs: seq<JobId>, pipeline: string, fate: Fate)
    requires Takes(was, jobs, pipeline) && Batched(was, q, jobs, fate)
    ensures Valid(q)
  {
    forall id: JobId
      ensures (id < q.nextId <==> id in q.live || id in q.archive) && !(id in q.live && id in q.archive)
      ensures id in q.live ==> 0 <= q.live[id].retryCount < q.live[id].maxRetries
      ensures id in q.archive ==> 1 <= q.archive[id].retryCount == q.archive[id].maxRetries
      ensures id in q.live && q.live[id].status.Done? ==> RanAsItself(q, id)
    {
      if id in jobs {
        assert Handled(was, q, id, fate);
      } else {
        assert Same(was, q, id);
        if id in was.live && was.live[id].status.Done? {
          assert RanAsItself(was, id);
        }
      }
    }
  }

  lemma ScheduleKeepsValid(was: Queue, event: Event, q: Queue)
    requires Valid(was) && event.Schedule? && Step(was, event, q)
    ensures Valid(q)
  {
    assert !(was.nextId in was.live || was.nextId in was.archive);
    forall id | id in q.live && q.live[id].status.Done?
      ensures RanAsItself(q, id)
    {
      assert RanAsItself(was, id);
    }
    forall t | t in q.flights
      ensures FlightFits(q, q.flights[t])
    {
      assert FlightFits(was, was.flights[t]);
    }
  }

  /** A step that touches one row at most, and leaves what bounds it. */
  lemma RowKeepsValid(was: Queue, q: Queue, id: JobId)
    requires Valid(was) && id in was.live && id in q.live
    requires q == was.(live := was.live[id := q.live[id]], cancels := q.cancels)
    requires 0 <= q.live[id].retryCount < q.live[id].maxRetries == was.live[id].maxRetries
    requires q.live[id].status.Done? ==> RanAsItself(q, id)
    ensures Valid(q)
  {
    forall other | other in q.live && q.live[other].status.Done?
      ensures RanAsItself(q, other)
    {
      assert other != id ==> RanAsItself(was, other);
    }
    forall t | t in q.flights
      ensures FlightFits(q, q.flights[t])
    {
      assert FlightFits(was, was.flights[t]);
    }
  }

  lemma ArchivingKeepsValid(was: Queue, id: JobId, job: ArchivedJob)
    requires Valid(was) && id in was.live && 1 <= job.retryCount == job.maxRetries
    ensures Valid(was.(live := was.live - {id}, archive := was.archive[id := job]))
  {
    var q := was.(live := was.live - {id}, archive := was.archive[id := job]);
    forall other | other in q.live && q.live[other].status.Done?
      ensures RanAsItself(q, other)
    {
      assert RanAsItself(was, other);
    }
    forall t | t in q.flights
      ensures FlightFits(q, q.flights[t])
    {
      assert FlightFits(was, was.flights[t]);
    }
  }

  lemma FlightsKeepValid(was: Queue, q: Queue)
    requires Valid(was) && q == was.(flights := q.flights, cancels := q.cancels)
    requires forall t | t in q.flights :: FlightFits(was, q.flights[t])
    ensures Valid(q)
  {
    forall id | id in q.live && q.live[id].status.Done?
      ensures RanAsItself(q, id)
    {
      assert RanAsItself(was, id);
    }
    forall t | t in q.flights
      ensures FlightFits(q, q.flights[t])
    {
      assert FlightFits(was, q.flights[t]);
    }
  }

  lemma ManualKeepsValid(was: Queue, event: Event, q: Queue)
    requires Valid(was) && (event.NowFails? || event.NowReads? || event.NowStops?) && Step(was, event, q)
    ensures Valid(q)
  {
    assert forall t | t in was.flights :: FlightFits(was, was.flights[t]);
    FlightsKeepValid(was, q);
  }

  lemma WriteKeepsValid(was: Queue, event: Event, q: Queue)
    requires Valid(was) && event.NowWrites? && Step(was, event, q)
    ensures Valid(q)
  {
    var flight := was.flights[event.t];
    var id, landed := flight.id, was.(flights := was.flights - {event.t});
    assert FlightFits(was, flight);
    FlightsKeepValid(was, landed);
    if id in was.live {
      if LastTry(flight.read.value) {
        ArchivingKeepsValid(landed, id, Archived(flight.read.value, event.error));
      } else {
        assert was.live[id].status.Done? ==> RanAsItself(was, id);
        RowKeepsValid(landed, q, id);
      }
    }
  }

  lemma CancelKeepsValid(was: Queue, event: Event, q: Queue)
    requires Valid(was) && (event.CancelReads? || event.CancelWrites?) && Step(was, event, q)
    ensures Valid(q)
  {
    if event.CancelWrites? && event.id in was.live {
      RowKeepsValid(was, q, event.id);
    } else {
      FlightsKeepValid(was, q);
    }
  }

  lemma RollbackKeepsValid(was: Queue, event: Event, q: Queue)
    requires Valid(was) && event.RollsBack? && Step(was, event, q)
    ensures Valid(q)
  {
    forall id | id in q.live && q.live[id].status.Done?
      ensures RanAsItself(q, id)
    {
      assert RanAsItself(was, id);
    }
    forall t | t in q.flights
      ensures FlightFits(q, q.flights[t])
    {
      assert FlightFits(was, q.flights[t]);
    }
  }

  lemma EventKeepsValid(was: Queue, event: Event, q: Queue)
    requires Valid(was) && !event.Run? && Step(was, event, q)
    ensures Valid(q)
  {
    match event {
      case Schedule(_, _, _, _, _) => ScheduleKeepsValid(was, event, q);
      case CancelReads(_) => CancelKeepsValid(was, event, q);
      case CancelWrites(_) => CancelKeepsValid(was, event, q);
      case RollsBack(_, _, _) => RollbackKeepsValid(was, event, q);
      case NowFails(_, _) => ManualKeepsValid(was, event, q);
      case NowReads(_) => ManualKeepsValid(was, event, q);
      case NowWrites(_, _, _) => WriteKeepsValid(was, event, q);
      case NowStops(_) => ManualKeepsValid(was, event, q);
    }
  }

  /** Conservation and the retry bound, in every run: no job is lost, kept twice, or tried too often. */
  lemma {:induction false} ValidAlways(events: seq<Event>, queues: seq<Queue>, k: nat)
    requires IsRun(events, queues) && k < |queues|
    ensures Valid(queues[k])
  {
    if k > 0 {
      ValidAlways(events, queues, k - 1);
      var was, q := queues[k - 1], queues[k];
      assert Follows(events, queues, k - 1);
      if events[k - 1].Run? {
        BatchKeepsValid(was, q, events[k - 1].jobs, events[k - 1].pipeline, events[k - 1].fate);
      } else {
        EventKeepsValid(was, events[k - 1], q);
      }
    } else {
      assert Valid(NoJobs);
    }
  }

  /** A batch of one job. */
  function Alone(outcome: Outcome, now: int): Fate {
    Fate(_ => outcome, _ => now)
  }

  lemma OneJobBatch(was: Queue, q: Queue, id: JobId, outcome: Outcome, now: int)
    requires id in was.live && id !in was.archive && was.live[id].retryCount >= 0
    requires match outcome
             case Threw(error) => q == Failed(was, id, error, now)
             case Ran =>
               && q.launched == was.launched + [Launch(was.live[id].pipeline, was.live[id].payload, [id])]
               && q == Finished(was, id, |was.launched|).(launched := q.launched)
    ensures Batched(was, q, [id], Alone(outcome, now))
  {
  }
}
